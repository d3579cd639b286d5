/** Data model shared by the two handlers of the OpenAI "Responses" relay
    (relay/channel/openai/relay_responses.go): usage values, decoded upstream
    envelopes and stream events, the errors the handlers return, and the two
    objects they mutate (the client connection and the per-request relay info). */
module ResponsesTypes {

  datatype Option<+T> = None | Some(value: T)

  datatype Result<+T, +E> = Ok(value: T) | Err(error: E)

  newtype byte = b: int | 0 <= b < 256

  type Bytes = seq<byte>

  /** http.StatusInternalServerError */
  const StatusInternalServerError: int := 500

  /** The gateway's canonical usage (dto.Usage). Go `int` fields: no clamping. */
  datatype Usage = Usage(promptTokens: int, completionTokens: int, totalTokens: int)

  const ZeroUsage: Usage := Usage(0, 0, 0)

  /** The usage object of a Responses API payload. */
  datatype ResponsesUsage = ResponsesUsage(inputTokens: int, outputTokens: int, totalTokens: int)

  /** The field-by-field copy done both by the non-stream handler and by the
      `response.completed` case of the stream handler. */
  function ToUsage(u: ResponsesUsage): (r: Usage)
    ensures r.promptTokens == u.inputTokens
    ensures r.completionTokens == u.outputTokens
    ensures r.totalTokens == u.totalTokens
  {
    Usage(u.inputTokens, u.outputTokens, u.totalTokens)
  }

  /** The `error` object embedded in an upstream payload. */
  datatype UpstreamError = UpstreamError(message: string, code: string)

  /** One entry of the `tools` list of a non-stream payload. */
  datatype ToolEntry = ToolEntry(toolType: string)

  /** A decoded non-stream payload (the parts the handler reads). `usage` is
      None when the payload carries no usage object. */
  datatype Envelope = Envelope(error: Option<UpstreamError>, usage: Option<ResponsesUsage>, tools: seq<ToolEntry>)

  /** The `item` of an output-item record. */
  datatype OutputItem = OutputItem(itemType: string)

  /** A decoded stream record. `response` is the usage of the embedded
      response object, None when the record carries none. */
  datatype StreamEvent = StreamEvent(
    eventType: string,
    response: Option<ResponsesUsage>,
    delta: string,
    item: Option<OutputItem>)

  /** One record handed over by the stream scanner: its raw text and the
      outcome of decoding it (None when it is not a valid event). */
  datatype Record = Record(data: string, decoded: Option<StreamEvent>)

  /** What reaches the client: a whole body, or one forwarded stream record. */
  datatype Output = BodyBytes(body: Bytes) | StreamData(event: StreamEvent, data: string)

  /** The error a handler returns (dto.OpenAIErrorWithStatusCode).
      WrappedError is what the error wrapper builds from a local failure:
      the failure's text, a tag naming it, and an HTTP status. */
  datatype RelayError =
    | WrappedError(cause: string, code: string, statusCode: int)
    | OpenAIError(message: string, errorType: string, code: string, statusCode: int)

  /** The client connection: everything written to it, in order. */
  class Client {
    var sent: seq<Output>

    constructor ()
      ensures sent == []
    {
      sent := [];
    }
  }

  /** The per-request relay info: call counters of the built-in tools,
      keyed by tool type, and the upstream model name. */
  class RelayInfo {
    var builtInTools: map<string, int>
    const upstreamModelName: string

    constructor (tools: map<string, int>, modelName: string)
      ensures builtInTools == tools && upstreamModelName == modelName
    {
      builtInTools := tools;
      upstreamModelName := modelName;
    }
  }
}
