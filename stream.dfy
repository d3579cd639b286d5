/** The stream path (OaiResponsesStreamHandler): a per-record callback that
    forwards every record that decodes and then interprets it, followed by a
    reconciliation step that falls back to a token estimate of the collected
    output text when no completion tokens were reported. */
module ResponsesStream {
  import opened ResponsesTypes

  /** Event and item names the callback distinguishes. */
  const CompletedType: string := "response.completed"
  const OutputTextDeltaType: string := "response.output_text.delta"
  const OutputItemDoneType: string := "response.output_item.done"
  const WebSearchCallItem: string := "web_search_call"
  /** The counter a finished web search call is billed to. */
  const WebSearchPreviewTool: string := "web_search_preview"

  /** The tag the error wrapper receives when there is no response body. */
  const InvalidResponseTag: string := "invalid_response"

  /** What the callback reads and writes while the stream runs: the running
      usage, the collected output text, the tool counters and the client log. */
  datatype DispatchState = DispatchState(usage: Usage, text: string, tools: map<string, int>, sent: seq<Output>)

  predicate Completes(r: Record)
  {
    r.decoded.Some? && r.decoded.value.eventType == CompletedType
  }

  /** `r` is a completed record that reports usage `u`. */
  predicate CompletedWith(r: Record, u: ResponsesUsage)
  {
    Completes(r) && r.decoded.value.response == Some(u)
  }

  predicate IsTextDelta(r: Record)
  {
    r.decoded.Some? && r.decoded.value.eventType == OutputTextDeltaType
  }

  predicate IsWebSearchDone(r: Record)
  {
    && r.decoded.Some?
    && r.decoded.value.eventType == OutputItemDoneType
    && r.decoded.value.item.Some?
    && r.decoded.value.item.value.itemType == WebSearchCallItem
  }

  /** A completed record carries the usage the callback copies; the source
      dereferences it unconditionally. */
  predicate WellFormed(r: Record)
  {
    Completes(r) ==> r.decoded.value.response.Some?
  }

  /** What the source needs of a stream to run without failing: every completed
      record has its usage, and the web search counter exists whenever a
      finished web search call arrives. */
  predicate CanDispatch(tools: map<string, int>, records: seq<Record>)
  {
    && (forall r :: r in records ==> WellFormed(r))
    && (WebSearchPreviewTool in tools || forall r :: r in records ==> !IsWebSearchDone(r))
  }

  /** The callback on one record. A record that does not decode changes
      nothing; one that does is first appended to the client log and then
      interpreted by its type. */
  function Step(s: DispatchState, r: Record): (t: DispatchState)
    requires WellFormed(r)
    requires IsWebSearchDone(r) ==> WebSearchPreviewTool in s.tools
    // an undecodable record is skipped altogether
    ensures r.decoded.None? ==> t == s
    // a decodable record is forwarded as it came, whatever its type
    ensures t.sent == s.sent + Forwarded([r])
    // a completed record overwrites the usage; nothing else touches it
    ensures Completes(r) ==> t.usage == ToUsage(r.decoded.value.response.value)
    ensures !Completes(r) ==> t.usage == s.usage
    // the text only grows, by the delta of a text-delta record
    ensures t.text == s.text + Deltas([r])
    // only the web search counter moves, by one per finished web search call
    ensures t.tools.Keys == s.tools.Keys
    ensures forall k :: k in s.tools && k != WebSearchPreviewTool ==> t.tools[k] == s.tools[k]
    ensures WebSearchPreviewTool in s.tools ==>
      t.tools[WebSearchPreviewTool] == s.tools[WebSearchPreviewTool] + WebSearchCalls([r])
  {
    match r.decoded
    case None => s
    case Some(e) =>
      var fwd := s.(sent := s.sent + [StreamData(e, r.data)]);
      if e.eventType == CompletedType then
        fwd.(usage := ToUsage(e.response.value))
      else if e.eventType == OutputTextDeltaType then
        fwd.(text := fwd.text + e.delta)
      else if e.eventType == OutputItemDoneType && e.item.Some? && e.item.value.itemType == WebSearchCallItem then
        fwd.(tools := fwd.tools[WebSearchPreviewTool := fwd.tools[WebSearchPreviewTool] + 1])
      else
        fwd
  }

  /** The callback applied to the records in order (the callback always
      returns true, so nothing stops the scan early). */
  function Dispatch(s: DispatchState, records: seq<Record>): (t: DispatchState)
    requires CanDispatch(s.tools, records)
    ensures t.tools.Keys == s.tools.Keys
    decreases |records|
  {
    if records == [] then s
    else
      var prev := Dispatch(s, records[..|records| - 1]);
      assert records[|records| - 1] in records;
      Step(prev, records[|records| - 1])
  }

  /** The state the handler starts the scan from. */
  function Initial(tools: map<string, int>, sent: seq<Output>): DispatchState
  {
    DispatchState(ZeroUsage, "", tools, sent)
  }

  /** The post-stream step: a zero completion count with non-empty collected
      text is replaced by the estimate; nothing else is touched. */
  function Reconcile(u: Usage, text: string, modelName: string, countTextToken: (string, string) -> int): (r: Usage)
    // prompt and total counts are never recomputed
    ensures r.promptTokens == u.promptTokens && r.totalTokens == u.totalTokens
    // the estimate is taken exactly when no completion tokens were reported and text was collected
    ensures u.completionTokens == 0 && |text| > 0 ==> r.completionTokens == countTextToken(text, modelName)
    ensures u.completionTokens != 0 || text == "" ==> r == u
  {
    if u.completionTokens == 0 && |text| > 0 then u.(completionTokens := countTextToken(text, modelName))
    else u
  }

  // ---------------------------------------------------------------------
  // Reference definitions: what the stream contributes, read record by record

  /** The records that reach the client, in upstream order. */
  function Forwarded(records: seq<Record>): seq<Output>
  {
    if records == [] then []
    else
      (match records[0].decoded
       case Some(e) => [StreamData(e, records[0].data)]
       case None => [])
      + Forwarded(records[1..])
  }

  /** The concatenation of the text of every output-text delta. */
  function Deltas(records: seq<Record>): string
  {
    if records == [] then ""
    else (if IsTextDelta(records[0]) then records[0].decoded.value.delta else "") + Deltas(records[1..])
  }

  /** The number of finished web search calls. */
  function WebSearchCalls(records: seq<Record>): nat
  {
    if records == [] then 0
    else (if IsWebSearchDone(records[0]) then 1 else 0) + WebSearchCalls(records[1..])
  }

  /** The records that decode, in order. */
  function Decodable(records: seq<Record>): (r: seq<Record>)
    ensures forall x :: x in r ==> x in records
  {
    if records == [] then []
    else (if records[0].decoded.Some? then [records[0]] else []) + Decodable(records[1..])
  }

  // ---------------------------------------------------------------------
  // Appending one record to each reference definition

  lemma {:induction false} ForwardedSnoc(records: seq<Record>, r: Record)
    ensures Forwarded(records + [r]) == Forwarded(records) + Forwarded([r])
    decreases |records|
  {
    if records != [] {
      assert (records + [r])[1..] == records[1..] + [r];
      ForwardedSnoc(records[1..], r);
    }
  }

  lemma {:induction false} DeltasSnoc(records: seq<Record>, r: Record)
    ensures Deltas(records + [r]) == Deltas(records) + Deltas([r])
    decreases |records|
  {
    if records != [] {
      assert (records + [r])[1..] == records[1..] + [r];
      DeltasSnoc(records[1..], r);
    }
  }

  lemma {:induction false} WebSearchCallsSnoc(records: seq<Record>, r: Record)
    ensures WebSearchCalls(records + [r]) == WebSearchCalls(records) + WebSearchCalls([r])
    decreases |records|
  {
    if records != [] {
      assert (records + [r])[1..] == records[1..] + [r];
      WebSearchCallsSnoc(records[1..], r);
    }
  }

  lemma {:induction false} DecodableSnoc(records: seq<Record>, r: Record)
    ensures Decodable(records + [r]) == Decodable(records) + Decodable([r])
    decreases |records|
  {
    if records != [] {
      assert (records + [r])[1..] == records[1..] + [r];
      DecodableSnoc(records[1..], r);
    }
  }

  // ---------------------------------------------------------------------
  // What the dispatch computes

  /** Every record that decodes is forwarded, in input order, and nothing
      else is: records that fail to decode never reach the client. */
  lemma {:induction false} DispatchForwards(s: DispatchState, records: seq<Record>)
    requires CanDispatch(s.tools, records)
    ensures Dispatch(s, records).sent == s.sent + Forwarded(records)
    decreases |records|
  {
    if records != [] {
      var init, last := records[..|records| - 1], records[|records| - 1];
      assert records == init + [last];
      DispatchForwards(s, init);
      ForwardedSnoc(init, last);
    }
  }

  /** The collected text is the in-order concatenation of every delta. */
  lemma {:induction false} DispatchText(s: DispatchState, records: seq<Record>)
    requires CanDispatch(s.tools, records)
    ensures Dispatch(s, records).text == s.text + Deltas(records)
    decreases |records|
  {
    if records != [] {
      var init, last := records[..|records| - 1], records[|records| - 1];
      assert records == init + [last];
      DispatchText(s, init);
      DeltasSnoc(init, last);
      var prev := Dispatch(s, init);
      assert Dispatch(s, records) == Step(prev, last);
      assert Dispatch(s, records).text == prev.text + Deltas([last]);
      assert s.text + Deltas(init) + Deltas([last]) == s.text + (Deltas(init) + Deltas([last]));
    }
  }

  /** The web search counter grows by exactly the number of finished web
      search calls; every other counter is left alone and no key appears. */
  lemma {:induction false} DispatchTools(s: DispatchState, records: seq<Record>)
    requires CanDispatch(s.tools, records)
    ensures Dispatch(s, records).tools.Keys == s.tools.Keys
    ensures forall k :: k in s.tools && k != WebSearchPreviewTool ==> Dispatch(s, records).tools[k] == s.tools[k]
    ensures WebSearchPreviewTool in s.tools ==>
      Dispatch(s, records).tools[WebSearchPreviewTool] == s.tools[WebSearchPreviewTool] + WebSearchCalls(records)
    decreases |records|
  {
    if records != [] {
      var init, last := records[..|records| - 1], records[|records| - 1];
      assert records == init + [last];
      DispatchTools(s, init);
      WebSearchCallsSnoc(init, last);
    }
  }

  /** The running usage is that of the last completed record, overwriting any
      earlier one, and stays at its start value when no record completes. */
  lemma {:induction false} DispatchUsage(s: DispatchState, records: seq<Record>)
    requires CanDispatch(s.tools, records)
    ensures (forall j :: 0 <= j < |records| ==> !Completes(records[j])) ==> Dispatch(s, records).usage == s.usage
    ensures forall i, u :: 0 <= i < |records| && CompletedWith(records[i], u)
                           && (forall j :: i < j < |records| ==> !Completes(records[j])) ==>
      Dispatch(s, records).usage == ToUsage(u)
    decreases |records|
  {
    if records != [] {
      var n := |records| - 1;
      var init, last := records[..n], records[n];
      assert records == init + [last];
      DispatchUsage(s, init);
      forall i, u | 0 <= i < |records| && CompletedWith(records[i], u) && (forall j :: i < j < |records| ==> !Completes(records[j]))
        ensures Dispatch(s, records).usage == ToUsage(u)
      {
        if i < n {
          assert !Completes(last);
          assert init[i] == records[i];
          assert forall j :: i < j < |init| ==> init[j] == records[j];
        }
      }
      if forall j :: 0 <= j < |records| ==> !Completes(records[j]) {
        assert forall j :: 0 <= j < |init| ==> init[j] == records[j];
      }
    }
  }

  /** Running the callback over two pieces is running it over their concatenation. */
  lemma {:induction false} DispatchAppend(s: DispatchState, a: seq<Record>, b: seq<Record>)
    requires CanDispatch(s.tools, a + b)
    ensures CanDispatch(s.tools, a) && CanDispatch(Dispatch(s, a).tools, b)
    ensures Dispatch(s, a + b) == Dispatch(Dispatch(s, a), b)
    decreases |b|
  {
    assert forall r :: r in a ==> r in a + b;
    assert forall r :: r in b ==> r in a + b;
    if b != [] {
      var init, last := b[..|b| - 1], b[|b| - 1];
      assert b == init + [last];
      assert a + b == (a + init) + [last];
      assert (a + b)[..|a + b| - 1] == a + init;
      DispatchAppend(s, a, init);
    } else {
      assert a + b == a;
    }
  }

  /** Records that fail to decode are invisible: dispatching the stream gives
      exactly what dispatching only its decodable records gives, so noise
      between valid records changes neither usage, text, counters nor output. */
  lemma {:induction false} DispatchIgnoresNoise(s: DispatchState, records: seq<Record>)
    requires CanDispatch(s.tools, records)
    ensures CanDispatch(s.tools, Decodable(records))
    ensures Dispatch(s, records) == Dispatch(s, Decodable(records))
    decreases |records|
  {
    if records != [] {
      var init, last := records[..|records| - 1], records[|records| - 1];
      assert records == init + [last];
      assert forall r :: r in init ==> r in records;
      DispatchIgnoresNoise(s, init);
      DecodableSnoc(init, last);
      if last.decoded.Some? {
        assert Decodable([last]) == [last];
        var d := Decodable(init) + [last];
        assert d[..|d| - 1] == Decodable(init);
      } else {
        assert Decodable([last]) == [];
        assert Decodable(records) == Decodable(init);
      }
    }
  }

  // ---------------------------------------------------------------------
  // The handler

  /** One step does not look at what is already in the client log. */
  lemma StepIgnoresSent(s: DispatchState, sent: seq<Output>, r: Record)
    requires WellFormed(r)
    requires IsWebSearchDone(r) ==> WebSearchPreviewTool in s.tools
    ensures Step(s.(sent := sent), r).usage == Step(s, r).usage
    ensures Step(s.(sent := sent), r).text == Step(s, r).text
    ensures Step(s.(sent := sent), r).tools == Step(s, r).tools
  {
  }

  /** What is already in the client log does not influence the usage, text
      or counters that dispatching produces. */
  lemma {:induction false} DispatchIgnoresSent(s: DispatchState, sent: seq<Output>, records: seq<Record>)
    requires CanDispatch(s.tools, records)
    ensures Dispatch(s.(sent := sent), records).usage == Dispatch(s, records).usage
    ensures Dispatch(s.(sent := sent), records).text == Dispatch(s, records).text
    ensures Dispatch(s.(sent := sent), records).tools == Dispatch(s, records).tools
    decreases |records|
  {
    if records != [] {
      var init := records[..|records| - 1];
      var last := records[|records| - 1];
      assert forall r :: r in init ==> r in records;
      assert last in records;
      DispatchIgnoresSent(s, sent, init);
      var a, b := Dispatch(s.(sent := sent), init), Dispatch(s, init);
      assert a == b.(sent := a.sent);
      StepIgnoresSent(b, a.sent, last);
    }
  }

  /** The usage the handler returns for a stream that has a body. */
  function StreamUsage(tools: map<string, int>, records: seq<Record>, modelName: string, countTextToken: (string, string) -> int): Usage
    requires CanDispatch(tools, records)
  {
    var final := Dispatch(Initial(tools, []), records);
    Reconcile(final.usage, final.text, modelName, countTextToken)
  }

  /** The returned usage, stated on the stream itself. Without a completed
      record the prompt and total counts stay zero and the completion count
      is the estimate of the deltas, if there are any. With one, the last
      completed record's prompt and total counts are returned as they are,
      and its completion count too unless it is zero while deltas exist, in
      which case the estimate replaces it and the total is not recomputed. */
  lemma {:induction false} StreamUsageSpec(tools: map<string, int>, records: seq<Record>, modelName: string,
                                           countTextToken: (string, string) -> int)
    requires CanDispatch(tools, records)
    ensures (forall j :: 0 <= j < |records| ==> !Completes(records[j])) ==>
      var u := StreamUsage(tools, records, modelName, countTextToken);
      && u.promptTokens == 0 && u.totalTokens == 0
      && u.completionTokens == (if Deltas(records) == "" then 0 else countTextToken(Deltas(records), modelName))
    ensures forall i, reported :: 0 <= i < |records| && CompletedWith(records[i], reported)
                                  && (forall j :: i < j < |records| ==> !Completes(records[j])) ==>
      var u := StreamUsage(tools, records, modelName, countTextToken);
      && u.promptTokens == reported.inputTokens
      && u.totalTokens == reported.totalTokens
      && u.completionTokens ==
           (if reported.outputTokens == 0 && Deltas(records) != "" then countTextToken(Deltas(records), modelName)
            else reported.outputTokens)
  {
    var final := Dispatch(Initial(tools, []), records);
    DispatchUsage(Initial(tools, []), records);
    DispatchText(Initial(tools, []), records);
    assert final.text == Deltas(records) by {
      assert "" + Deltas(records) == Deltas(records);
    }
    assert StreamUsage(tools, records, modelName, countTextToken)
        == Reconcile(final.usage, Deltas(records), modelName, countTextToken);
    forall i, reported | 0 <= i < |records| && CompletedWith(records[i], reported)
                         && (forall j :: i < j < |records| ==> !Completes(records[j]))
      ensures
        var u := StreamUsage(tools, records, modelName, countTextToken);
        && u.promptTokens == reported.inputTokens
        && u.totalTokens == reported.totalTokens
        && u.completionTokens ==
             (if reported.outputTokens == 0 && Deltas(records) != "" then countTextToken(Deltas(records), modelName)
              else reported.outputTokens)
    {
      assert final.usage == ToUsage(reported);
    }
  }

  /** The example of a stream that ends with a completed record reporting zero
      output tokens after two deltas: all three records are forwarded in order,
      and the returned completion count is the estimate of "Hi there", not the
      zero the completed record reported, while the total stays 5. */
  lemma CompletedZeroOutputIsEstimated(tools: map<string, int>, modelName: string, countTextToken: (string, string) -> int)
    ensures
      var d1 := StreamEvent(OutputTextDeltaType, None, "Hi", None);
      var d2 := StreamEvent(OutputTextDeltaType, None, " there", None);
      var done := StreamEvent(CompletedType, Some(ResponsesUsage(5, 0, 5)), "", None);
      var records := [Record("1", Some(d1)), Record("2", Some(d2)), Record("3", Some(done))];
      && CanDispatch(tools, records)
      && Dispatch(Initial(tools, []), records).sent == [StreamData(d1, "1"), StreamData(d2, "2"), StreamData(done, "3")]
      && StreamUsage(tools, records, modelName, countTextToken) == Usage(5, countTextToken("Hi there", modelName), 5)
  {
    var d1 := StreamEvent(OutputTextDeltaType, None, "Hi", None);
    var d2 := StreamEvent(OutputTextDeltaType, None, " there", None);
    var done := StreamEvent(CompletedType, Some(ResponsesUsage(5, 0, 5)), "", None);
    var records := [Record("1", Some(d1)), Record("2", Some(d2)), Record("3", Some(done))];
    var r1, r2, r3 := records[0], records[1], records[2];
    var s0 := Initial(tools, []);
    assert [r1][..0] == [] && [r1, r2][..1] == [r1] && records[..2] == [r1, r2];
    assert CanDispatch(tools, [r1]);
    assert Dispatch(s0, []) == s0;
    var s1 := Dispatch(s0, [r1]);
    assert s1 == Step(s0, r1);
    assert Forwarded([r1]) == [StreamData(d1, "1")];
    assert Deltas([r1]) == "Hi";
    assert s1.usage == ZeroUsage && s1.text == "Hi" && s1.sent == [StreamData(d1, "1")];
    var s2 := Dispatch(s0, [r1, r2]);
    assert s2 == Step(s1, r2);
    assert Forwarded([r2]) == [StreamData(d2, "2")];
    assert Deltas([r2]) == " there";
    assert s2.usage == ZeroUsage && s2.text == "Hi there" && s2.sent == [StreamData(d1, "1"), StreamData(d2, "2")];
    var s3 := Dispatch(s0, records);
    assert s3 == Step(s2, r3);
    assert Forwarded([r3]) == [StreamData(done, "3")];
    assert Deltas([r3]) == "";
    assert s3.usage == Usage(5, 0, 5) && s3.text == "Hi there";
  }

  /** The callback on one record: `usage` and `text` are the running usage and
      the collected text it shares with the handler; the client log and the
      counters are updated in place. It is the step `Step` describes. */
  method OnRecord(c: Client, info: RelayInfo, usage: Usage, text: string, r: Record)
    returns (usage': Usage, text': string)
    requires WellFormed(r)
    requires IsWebSearchDone(r) ==> WebSearchPreviewTool in info.builtInTools
    modifies c, info
    ensures DispatchState(usage', text', info.builtInTools, c.sent)
         == Step(DispatchState(usage, text, old(info.builtInTools), old(c.sent)), r)
  {
    usage', text' := usage, text;
    match r.decoded {
      case None =>
      case Some(e) =>
        c.sent := c.sent + [StreamData(e, r.data)];
        if e.eventType == CompletedType {
          usage' := ToUsage(e.response.value);
        } else if e.eventType == OutputTextDeltaType {
          text' := text + e.delta;
        } else if e.eventType == OutputItemDoneType && e.item.Some? {
          if e.item.value.itemType == WebSearchCallItem {
            info.builtInTools := info.builtInTools[WebSearchPreviewTool := info.builtInTools[WebSearchPreviewTool] + 1];
          }
        }
    }
  }

  /** The handler. `bodyPresent` is false when the upstream response or its
      body is missing; `records` is what the stream scanner hands to the
      callback; `countTextToken` is the token estimator. */
  method OaiResponsesStreamHandler(c: Client, bodyPresent: bool, records: seq<Record>, info: RelayInfo,
                                   countTextToken: (string, string) -> int)
    returns (err: Option<RelayError>, usage: Option<Usage>)
    requires bodyPresent ==> CanDispatch(info.builtInTools, records)
    modifies c, info
    ensures err.Some? != usage.Some?
    ensures !bodyPresent ==>
      && err == Some(WrappedError("invalid response", InvalidResponseTag, StatusInternalServerError))
      && c.sent == old(c.sent) && info.builtInTools == old(info.builtInTools)
    ensures bodyPresent ==>
      var final := Dispatch(Initial(old(info.builtInTools), old(c.sent)), records);
      && err.None?
      && usage == Some(StreamUsage(old(info.builtInTools), records, info.upstreamModelName, countTextToken))
      && info.builtInTools == final.tools
      && c.sent == final.sent
  {
    if !bodyPresent {
      return Some(WrappedError("invalid response", InvalidResponseTag, StatusInternalServerError)), None;
    }

    var u := ZeroUsage;
    var responseText := "";
    ghost var start := Initial(info.builtInTools, c.sent);
    var i := 0;
    while i < |records|
      invariant 0 <= i <= |records|
      invariant CanDispatch(start.tools, records[..i])
      invariant DispatchState(u, responseText, info.builtInTools, c.sent) == Dispatch(start, records[..i])
    {
      assert records[..i + 1][..i] == records[..i];
      assert forall r :: r in records[..i + 1] ==> r in records;
      assert records[i] in records;
      u, responseText := OnRecord(c, info, u, responseText, records[i]);
      i := i + 1;
    }
    assert records[..i] == records;
    DispatchIgnoresSent(start, [], records);

    if u.completionTokens == 0 {
      if |responseText| > 0 {
        u := u.(completionTokens := countTextToken(responseText, info.upstreamModelName));
      }
    }
    return None, Some(u);
  }
}
