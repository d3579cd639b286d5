/** The non-stream path (OaiResponsesHandler): read the whole upstream body,
    decode it, turn an embedded upstream error into the handler's error, and
    otherwise forward the body, copy the usage and count the built-in tool
    calls listed in the payload. */
module ResponsesNonStream {
  import opened ResponsesTypes

  /** The outcome of reading the whole upstream body. */
  datatype ReadResult = ReadFailed(cause: string) | ReadOk(body: Bytes)

  /** The upstream response as the handler sees it. */
  datatype UpstreamResponse = UpstreamResponse(statusCode: int, body: ReadResult)

  /** The tag the error wrapper receives for each local failure. */
  const ReadFailedTag: string := "read_response_body_failed"
  const UnmarshalFailedTag: string := "unmarshal_response_body_failed"
  /** The error type given to an error the upstream embedded in its payload. */
  const OpenAIErrorType: string := "openai_error"

  /** How many entries of `entries` have tool type `t`. */
  function Occurrences(entries: seq<ToolEntry>, t: string): nat
  {
    if entries == [] then 0
    else (if entries[0].toolType == t then 1 else 0) + Occurrences(entries[1..], t)
  }

  /** Every listed tool type already has a counter: the source indexes the
      counter map with each listed type and would fail on a missing one. */
  predicate ToolsKnown(counters: map<string, int>, entries: seq<ToolEntry>)
  {
    forall e :: e in entries ==> e.toolType in counters
  }

  /** The counters after one increment per entry, taken in list order. */
  function CountToolCalls(counters: map<string, int>, entries: seq<ToolEntry>): (r: map<string, int>)
    requires ToolsKnown(counters, entries)
    ensures r.Keys == counters.Keys
    decreases |entries|
  {
    if entries == [] then counters
    else
      var m := CountToolCalls(counters, entries[..|entries| - 1]);
      var t := entries[|entries| - 1].toolType;
      m[t := m[t] + 1]
  }

  lemma {:induction false} OccurrencesSnoc(entries: seq<ToolEntry>, e: ToolEntry, t: string)
    ensures Occurrences(entries + [e], t) == Occurrences(entries, t) + (if e.toolType == t then 1 else 0)
    decreases |entries|
  {
    if entries != [] {
      assert (entries + [e])[1..] == entries[1..] + [e];
      OccurrencesSnoc(entries[1..], e, t);
    }
  }

  /** Each counter grows by exactly the number of listed entries of its type;
      no counter is added or removed. */
  lemma {:induction false} CountToolCallsAdds(counters: map<string, int>, entries: seq<ToolEntry>)
    requires ToolsKnown(counters, entries)
    ensures CountToolCalls(counters, entries).Keys == counters.Keys
    ensures forall k :: k in counters ==>
      CountToolCalls(counters, entries)[k] == counters[k] + Occurrences(entries, k)
    decreases |entries|
  {
    if entries != [] {
      var init, last := entries[..|entries| - 1], entries[|entries| - 1];
      assert entries == init + [last];
      CountToolCallsAdds(counters, init);
      forall k | k in counters
        ensures CountToolCalls(counters, entries)[k] == counters[k] + Occurrences(entries, k)
      {
        OccurrencesSnoc(init, last, k);
      }
    }
  }

  /** The handler. `decode` stands for the JSON decoder: a pure function of
      the body bytes that yields the envelope or the decoder's error text. */
  method OaiResponsesHandler(c: Client, resp: UpstreamResponse, decode: Bytes -> Result<Envelope, string>, info: RelayInfo)
    returns (err: Option<RelayError>, usage: Option<Usage>)
    // on the success path the source reads the usage object and indexes the
    // counter map with every listed tool type, failing if either is missing
    requires resp.body.ReadOk? && decode(resp.body.body).Ok? && decode(resp.body.body).value.error.None?
      ==> && decode(resp.body.body).value.usage.Some?
          && ToolsKnown(info.builtInTools, decode(resp.body.body).value.tools)
    modifies c, info
    // at most one error or one usage, never both
    ensures err.Some? != usage.Some?
    // the three failures return before anything is written or counted
    ensures err.Some? ==> c.sent == old(c.sent) && info.builtInTools == old(info.builtInTools)
    ensures resp.body.ReadFailed? ==>
      err == Some(WrappedError(resp.body.cause, ReadFailedTag, StatusInternalServerError))
    ensures resp.body.ReadOk? && decode(resp.body.body).Err? ==>
      err == Some(WrappedError(decode(resp.body.body).error, UnmarshalFailedTag, StatusInternalServerError))
    ensures resp.body.ReadOk? && decode(resp.body.body).Ok? && decode(resp.body.body).value.error.Some? ==>
      var e := decode(resp.body.body).value.error.value;
      err == Some(OpenAIError(e.message, OpenAIErrorType, e.code, resp.statusCode))
    // success: the body is forwarded once and unchanged, usage copied field by field,
    // and each tool counter grows by the number of entries of its type
    ensures resp.body.ReadOk? && decode(resp.body.body).Ok? && decode(resp.body.body).value.error.None? ==>
      var env := decode(resp.body.body).value;
      && err.None?
      && usage == Some(Usage(env.usage.value.inputTokens, env.usage.value.outputTokens, env.usage.value.totalTokens))
      && c.sent == old(c.sent) + [BodyBytes(resp.body.body)]
      && info.builtInTools.Keys == old(info.builtInTools).Keys
      && forall k :: k in old(info.builtInTools) ==>
           info.builtInTools[k] == old(info.builtInTools)[k] + Occurrences(env.tools, k)
  {
    if resp.body.ReadFailed? {
      return Some(WrappedError(resp.body.cause, ReadFailedTag, StatusInternalServerError)), None;
    }
    var responseBody := resp.body.body;
    var decoded := decode(responseBody);
    if decoded.Err? {
      return Some(WrappedError(decoded.error, UnmarshalFailedTag, StatusInternalServerError)), None;
    }
    var responsesResponse := decoded.value;
    if responsesResponse.error.Some? {
      var upstream := responsesResponse.error.value;
      return Some(OpenAIError(upstream.message, OpenAIErrorType, upstream.code, resp.statusCode)), None;
    }

    c.sent := c.sent + [BodyBytes(responseBody)];

    var u := ToUsage(responsesResponse.usage.value);
    ghost var before := info.builtInTools;
    var tools := responsesResponse.tools;
    var i := 0;
    while i < |tools|
      invariant 0 <= i <= |tools|
      invariant info.builtInTools == CountToolCalls(before, tools[..i])
      invariant c.sent == old(c.sent) + [BodyBytes(responseBody)]
    {
      assert tools[..i + 1][..i] == tools[..i];
      var t := tools[i].toolType;
      info.builtInTools := info.builtInTools[t := info.builtInTools[t] + 1];
      i := i + 1;
    }
    assert tools[..i] == tools;
    CountToolCallsAdds(before, tools);
    return None, Some(u);
  }
}
