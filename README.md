# OpenAI Responses relay: response normalisation and usage accounting

This project models the two handlers the relay gateway uses for upstream
responses of OpenAI's "Responses" API (`relay/channel/openai/relay_responses.go`),
and proves what they promise to the gateway's billing collaborator.

- **Non-stream handler** (`ResponsesNonStream.OaiResponsesHandler`). It reads the
  whole body and decodes it. A read failure and a decode failure each yield a
  wrapped local error with status 500 and tag `read_response_body_failed` or
  `unmarshal_response_body_failed`. An error embedded in the payload yields an
  `openai_error` that carries the upstream message, code and HTTP status. In all
  three cases the handler returns no usage, writes nothing to the client and counts
  nothing. Otherwise it forwards the body once, unchanged, copies the three usage
  fields one to one, and increments the built-in tool counter of every listed tool.
- **Stream handler** (`ResponsesStream.OaiResponsesStreamHandler`). A missing
  response or body yields the wrapped error `invalid_response` (status 500).
  Otherwise a per-record callback runs over the records in order. A record that
  does not decode is skipped. A record that decodes is first forwarded to the
  client and then interpreted:
  - `response.completed` overwrites the running usage;
  - `response.output_text.delta` appends its delta to the collected text;
  - `response.output_item.done` whose item is a `web_search_call` increments the
    `web_search_preview` counter.

  After the scan, a zero completion count together with non-empty collected text
  is replaced by the token estimate of that text for the upstream model.

The callback is the method `ResponsesStream.OnRecord`, specified by the pure
function `ResponsesStream.Step` over a `DispatchState` (running usage, collected
text, tool counters, client log); `ResponsesStream.Dispatch` applies `Step` to
the records in order. The handler's loop
keeps its local variables, the relay info's counters and the client log equal to
`Dispatch` of the records seen so far. Lemmas relate `Dispatch` to independent
record-by-record definitions: `Forwarded`, `Deltas`, `WebSearchCalls`,
`Decodable` and "the last completed record".

The fallback is modelled as the code is written. Line 92 only tests whether the
completion count is zero; it does not test whether a `response.completed` record
arrived. So a completed record that reports zero output tokens does not stop the
fallback, although the comment at line 96 calls the fallback the abnormal-end
case: together with non-empty deltas it ends with the estimate as the completion
count, and the total is not recomputed (line 98 rewrites only the completion
count). `CompletedZeroOutputIsEstimated` proves this for the stream "Hi",
" there", completed{5, 0, 5}: the result is {5, estimate("Hi there"), 5}.

Further facts about the code that the model keeps:
- An embedded upstream error gets the type `openai_error` (line 34).
- An unknown tool type in the non-stream `tools` list is not dropped. Indexing the
  counter map with it would fail (line 51), so the model requires every listed
  type to have a counter.
- The stream path counts only web search calls, under `web_search_preview`
  (lines 82-84). Other item types are not counted.
- The estimate is returned as a plain usage, with no mark that it is approximate
  (lines 97-98 and 102).

Files: `types.dfy` (module `ResponsesTypes`: usage, envelopes, stream events, errors,
the `Client` and `RelayInfo` classes), `non_stream.dfy` (module `ResponsesNonStream`),
`stream.dfy` (module `ResponsesStream`).

## Model

| member | source | states |
|---|---|---|
| `ResponsesNonStream.OaiResponsesHandler` | relay/channel/openai/relay_responses.go:17-54 | Exactly one of error and usage is returned. A read failure and a decode failure return a wrapped error with status 500 and tag `read_response_body_failed` / `unmarshal_response_body_failed`. An embedded error returns `openai_error` with the upstream message, code and status. All three leave the client log and the counters unchanged. On success the body is appended to the client log once, unchanged. Usage equals {input, output, total} of the envelope. Every counter grows by the number of listed entries of its type, and no key is added. |
| `ResponsesTypes.ToUsage` | relay/channel/openai/relay_responses.go:46-48 | The usage is copied field for field: prompt = input, completion = output, total = total. The same copy serves the completed record at lines 73-75. |
| `ResponsesNonStream.CountToolCalls` | relay/channel/openai/relay_responses.go:50-51 | Incrementing once per listed tool adds no counter key and removes none. |
| `ResponsesNonStream.CountToolCallsAdds` | relay/channel/openai/relay_responses.go:50-52 | For every tool type, the counter after the loop equals the counter before it plus the number of entries of that type. |
| `ResponsesStream.Step` | relay/channel/openai/relay_responses.go:68-88 | The callback on one record. An undecodable record changes nothing. A decodable one is appended to the client log whatever its type. Only a completed record changes the usage, to its own. The text grows by the record's delta if it is a text delta. Only the `web_search_preview` counter moves, by one for a finished `web_search_call`, and no key is added. The whole-stream forms are DispatchForwards, DispatchText, DispatchTools and DispatchUsage. |
| `ResponsesStream.OnRecord` | relay/channel/openai/relay_responses.go:65-90 | The callback as the source runs it, updating the client log and the counters in place and returning the new running usage and text. Its effect equals `Step` on the state before the call. |
| `ResponsesStream.Reconcile` | relay/channel/openai/relay_responses.go:92-100 | Prompt and total counts are never recomputed. The completion count becomes the estimate of the collected text exactly when it is zero and the text is non-empty; otherwise the usage is returned as it was. StreamUsageSpec states the result over the stream. |
| `ResponsesStream.Dispatch` | relay/channel/openai/relay_responses.go:65-90 | Running the callback over the whole stream never adds or removes a counter key. |
| `ResponsesStream.DispatchForwards` | relay/channel/openai/relay_responses.go:68-70 | The client log grows by exactly the records that decode, in input order. Records that fail to decode are never forwarded. |
| `ResponsesStream.DispatchText` | relay/channel/openai/relay_responses.go:76-78 | The collected text is the in-order concatenation of the delta of every `response.output_text.delta` record. |
| `ResponsesStream.DispatchTools` | relay/channel/openai/relay_responses.go:79-86 | The `web_search_preview` counter grows by exactly the number of item-done records whose item is a `web_search_call`. Every other counter is unchanged. |
| `ResponsesStream.DispatchUsage` | relay/channel/openai/relay_responses.go:62-75 | The running usage equals the usage of the last `response.completed` record, overwriting earlier ones. With no such record it keeps its start value. |
| `ResponsesStream.DispatchAppend` | relay/channel/openai/relay_responses.go:65-90 | The callback always returns true, so dispatching a + b equals dispatching b from the state that dispatching a leaves. |
| `ResponsesStream.DispatchIgnoresNoise` | relay/channel/openai/relay_responses.go:68-70 | Dispatching the stream gives the same usage, text, counters and client log as dispatching only its decodable records. So noise records change nothing and do not stop the dispatch. |
| `ResponsesStream.DispatchIgnoresSent` | relay/channel/openai/relay_responses.go:62-90 | What the client log already holds does not change the usage, text or counters the dispatch produces. This ties the handler's result to StreamUsageSpec. |
| `ResponsesStream.StreamUsageSpec` | relay/channel/openai/relay_responses.go:62-100 | The returned usage, stated over the stream. With no completed record: prompt = total = 0, and completion = 0 or the estimate of the deltas when there are any. With a last completed record U: prompt and total are U's. Completion is U's, except that the estimate replaces it when U reports 0 output tokens and the deltas are non-empty. |
| `ResponsesStream.CompletedZeroOutputIsEstimated` | relay/channel/openai/relay_responses.go:92-99 | For two deltas "Hi", " there" followed by completed{5, 0, 5}: all three records are forwarded in order. The returned usage is {5, estimate("Hi there"), 5}, not {5, 0, 5}. |
| `ResponsesStream.OaiResponsesStreamHandler` | relay/channel/openai/relay_responses.go:56-103 | Exactly one of error and usage is returned. A missing body returns the wrapped `invalid_response` error with status 500, with no usage, nothing forwarded and nothing counted. Otherwise the error is nil. Counters and client log become those of `Dispatch` over the records. The usage is `StreamUsage` of the records for the upstream model name, so StreamUsageSpec describes it. |

## Left out

- The gin context, the HTTP response, `io.ReadAll`, closing the body, and the byte copy to the client. These are I/O. A read is modelled as `ReadResult` (failure text or bytes). Writes to the client are modelled as appends to `Client.sent`.
- JSON decoding. Decoding of the whole body is a function parameter `decode` (bytes to envelope or error text). Stream records arrive already decoded (`Record.decoded`, None when decoding fails).
- The stream scanner, which covers record framing, timeouts and client disconnects. The stream is a finite sequence of records, and every record handed to the callback is processed.
- The token estimator is a function parameter `countTextToken(text, model)`. Nothing is assumed about it beyond being a function.
- The body of the stream forwarding helper is not part of this model. Forwarding is "append the decoded event and its raw text to the client log".
- The body of the error wrapper is not part of this model. Its result is `WrappedError(cause, tag, status)`, with the failure's text, the tag and the status it receives.
- The constant values of the item-done event type (`response.output_item.done`), `web_search_call` and `web_search_preview` are defined in the `dto` package, which is not part of this model. The values used here are those constants' values.
- The upstream error `code` is an untyped JSON value in the source. It is modelled as a string and copied verbatim.
- Go runtime panics are preconditions, not modelled failures. They cover a decoded non-stream payload without a usage object on the success path (line 46), a listed tool type with no counter (line 51), a finished web search call when `web_search_preview` has no counter (line 84), and a `response.completed` record without a response usage (line 73). A nil `resp` in the non-stream handler is not modelled either: that handler does not check for one.
- Logging of the missing-body case (line 58) is left out.
