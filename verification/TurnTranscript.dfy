/**
 The transcript of a turn: tool batches are appended to it as one atomic block
 each, while every receipt is kept in the observation store, and the assembler
 projects it around its policy and newest request.
 */
module TurnTranscript {
  import opened Options
  import opened Wire
  import opened ToolProtocol
  import opened ContextBudget
  import opened TurnContext
  import opened ResultIndex
  import opened TurnProjection

  datatype ToolCall = ToolCall(id: string, name: string, arguments: string)
  datatype ToolResult = ToolResult(callId: string, toolName: string, content: string)
  datatype BatchItem = BatchItem(call: ToolCall, result: ToolResult)

  /** The bounded view of a result, encoded; it may exceed its bound when metadata alone does. */
  type Projector = (ToolResult, nat) -> string

  datatype AppendError = CardinalityMismatch | IdentityMismatch | ViewTooLarge

  // ----- the observation store -----

  datatype Evidence = Evidence(results: map<string, ToolResult>, views: map<string, string>,
                               calls: map<string, ToolCall>, order: seq<string>)

  function Stored(e: Evidence, item: BatchItem, view: string): Evidence {
    var id := item.result.callId;
    Evidence(e.results[id := item.result], e.views[id := view], e.calls[item.call.id := item.call],
             if id in e.results then e.order else e.order + [id])
  }

  /** The store lists each result once, in the order of first arrival, and has a view of each. */
  ghost predicate Coherent(e: Evidence) {
    && e.views.Keys == e.results.Keys
    && (forall id :: id in e.order <==> id in e.results)
    && (forall i, j :: 0 <= i < j < |e.order| ==> e.order[i] != e.order[j])
  }

  /** After a whole batch, stored item by item. */
  function StoredAll(e: Evidence, batch: seq<BatchItem>, views: seq<string>): Evidence
    requires |views| == |batch|
  {
    if batch == [] then e
    else Stored(StoredAll(e, batch[..|batch| - 1], views[..|batch| - 1]), batch[|batch| - 1], views[|batch| - 1])
  }

  lemma StoredIsCoherent(e: Evidence, item: BatchItem, view: string)
    requires Coherent(e)
    ensures Coherent(Stored(e, item, view)) && e.order <= Stored(e, item, view).order
  {
  }

  /** Storing a batch keeps the store coherent and loses nothing; the order only grows. */
  lemma {:induction false} BatchIsKept(e: Evidence, batch: seq<BatchItem>, views: seq<string>)
    requires |views| == |batch| && Coherent(e)
    ensures Coherent(StoredAll(e, batch, views))
    ensures e.order <= StoredAll(e, batch, views).order
    ensures e.results.Keys <= StoredAll(e, batch, views).results.Keys
  {
    if batch != [] {
      var n := |batch| - 1;
      BatchIsKept(e, batch[..n], views[..n]);
      StoredIsCoherent(StoredAll(e, batch[..n], views[..n]), batch[n], views[n]);
    }
  }

  /** Every result of a batch can be retrieved under its id, unless a later one of the same batch
      reused that id. */
  lemma {:induction false} BatchIsRetrievable(e: Evidence, batch: seq<BatchItem>, views: seq<string>, i: nat)
    requires |views| == |batch| && i < |batch|
    requires forall j :: i < j < |batch| ==> batch[j].result.callId != batch[i].result.callId
    ensures var id, after := batch[i].result.callId, StoredAll(e, batch, views);
            id in after.results && after.results[id] == batch[i].result
            && id in after.views && after.views[id] == views[i]
  {
    var n := |batch| - 1;
    if i < n { BatchIsRetrievable(e, batch[..n], views[..n], i); }
  }

  class ObservationStore {
    var results: map<string, ToolResult>
    var views: map<string, string>
    var calls: map<string, ToolCall>
    var order: seq<string>

    function Contents(): Evidence
      reads this
    {
      Evidence(results, views, calls, order)
    }

    constructor ()
      ensures Contents() == Evidence(map[], map[], map[], [])
    {
      results, views, calls, order := map[], map[], map[], [];
    }

    method RecordCall(call: ToolCall)
      modifies `calls
      ensures calls == old(calls)[call.id := call]
    {
      calls := calls[call.id := call];
    }

    method Store(result: ToolResult, maxBytes: nat, project: Projector) returns (view: string)
      modifies `results, `views, `order
      ensures view == project(result, maxBytes)
      ensures results == old(results)[result.callId := result] && views == old(views)[result.callId := view]
      ensures order == if result.callId in old(results) then old(order) else old(order) + [result.callId]
    {
      view := project(result, maxBytes);
      if result.callId !in results {
        order := order + [result.callId];
      }
      results := results[result.callId := result];
      views := views[result.callId := view];
    }
  }

  // ----- appending a batch -----

  predicate Matches(item: BatchItem, call: Call) {
    item.call.id == call.id && item.result.callId == item.call.id && item.result.toolName == item.call.name
  }

  function ViewsOf(batch: seq<BatchItem>, bound: string -> nat, project: Projector): (views: seq<string>)
    ensures |views| == |batch|
  {
    seq(|batch|, i requires 0 <= i < |batch| => project(batch[i].result, bound(batch[i].call.name)))
  }

  predicate Appendable(calls: seq<Call>, batch: seq<BatchItem>, bound: string -> nat, project: Projector)
    requires |calls| == |batch|
  {
    forall i :: 0 <= i < |batch| ==>
      Matches(batch[i], calls[i]) && Bytes(project(batch[i].result, bound(batch[i].call.name))) <= bound(batch[i].call.name)
  }

  /** What is wrong with one item; an oversized view is found after a wrong identity. */
  function FaultOf(item: BatchItem, call: Call, bound: string -> nat, project: Projector): Option<AppendError> {
    if Bytes(project(item.result, bound(item.call.name))) > bound(item.call.name) then Some(ViewTooLarge)
    else if !Matches(item, call) then Some(IdentityMismatch)
    else None
  }

  /** The fault that is reported: the last one found. */
  function LastFault(calls: seq<Call>, batch: seq<BatchItem>, bound: string -> nat, project: Projector): Option<AppendError>
    requires |calls| == |batch|
  {
    if batch == [] then None
    else
      var n := |batch| - 1;
      var fault := FaultOf(batch[n], calls[n], bound, project);
      if fault.Some? then fault else LastFault(calls[..n], batch[..n], bound, project)
  }

  lemma {:induction false} FaultlessIsAppendable(calls: seq<Call>, batch: seq<BatchItem>, bound: string -> nat, project: Projector)
    requires |calls| == |batch|
    ensures LastFault(calls, batch, bound, project).None? <==> Appendable(calls, batch, bound, project)
    ensures LastFault(calls, batch, bound, project).None? <==>
              forall i :: 0 <= i < |batch| ==>
                batch[i].call.id == calls[i].id == batch[i].result.callId && batch[i].result.toolName == batch[i].call.name
                && Bytes(project(batch[i].result, bound(batch[i].call.name))) <= bound(batch[i].call.name)
    ensures LastFault(calls, batch, bound, project) != Some(CardinalityMismatch)
  {
    if batch != [] {
      var n := |batch| - 1;
      FaultlessIsAppendable(calls[..n], batch[..n], bound, project);
    }
  }

  /** appendRegistryProtocol. A batch of the wrong size touches nothing. Otherwise every receipt is
      retained first, and the transcript grows by the whole block or not at all. */
  method AppendRegistryProtocol(messages: seq<Message>, content: Option<string>, calls: seq<Call>, batch: seq<BatchItem>,
                                store: ObservationStore, bound: string -> nat, project: Projector)
    returns (out: seq<Message>, error: Option<AppendError>)
    modifies store
    ensures error == Some(CardinalityMismatch) <==> |calls| != |batch|
    ensures |calls| != |batch| ==> store.Contents() == old(store.Contents())
    ensures |calls| == |batch| ==>
              store.Contents() == StoredAll(old(store.Contents()), batch, ViewsOf(batch, bound, project))
              && error == LastFault(calls, batch, bound, project)
              && (error.None? <==> Appendable(calls, batch, bound, project))
    ensures out == if error.None? then messages + RegistryBlock(content, calls, ViewsOf(batch, bound, project)) else messages
  {
    if |calls| != |batch| {
      return messages, Some(CardinalityMismatch);
    }
    ghost var views := ViewsOf(batch, bound, project);
    ghost var start := store.Contents();
    var projected: seq<Message> := [];
    error := None;
    assert StoredAll(start, [], []) == start && ResultMessages([], []) == [];
    assert batch[..0] == [] && views[..0] == [] && calls[..0] == [];
    hide StoredAll, ResultMessages, LastFault, Appendable, Bytes, RegistryBlock;
    for i := 0 to |batch|
      invariant store.Contents() == StoredAll(start, batch[..i], views[..i])
      invariant error.None? ==> projected == ResultMessages(calls[..i], views[..i])
      invariant error == LastFault(calls[..i], batch[..i], bound, project)
    {
      var item := batch[i];
      if item.call.id != calls[i].id || item.result.callId != item.call.id || item.result.toolName != item.call.name {
        error := Some(IdentityMismatch);
      }
      var maxBytes := bound(item.call.name);
      store.RecordCall(item.call);
      var view := store.Store(item.result, maxBytes, project);
      if Bytes(view) > maxBytes {
        error := Some(ViewTooLarge);
      }
      projected := projected + [Message(TOOL, Some(view), [], item.call.id)];
      OneMore(start, calls, batch, views, i, bound, project);
    }
    assert batch[..|batch|] == batch && views[..|batch|] == views && calls[..|batch|] == calls;
    FaultlessIsAppendable(calls, batch, bound, project);
    if error.Some? {
      return messages, error;
    }
    out := messages + [Message(ASSISTANT, content, calls, "")];
    out := out + projected;
    AppendedBlock(messages, content, calls, views);
  }

  lemma AppendedBlock(messages: seq<Message>, content: Option<string>, calls: seq<Call>, views: seq<string>)
    requires |views| == |calls|
    ensures messages + [Message(ASSISTANT, content, calls, "")] + ResultMessages(calls, views)
            == messages + RegistryBlock(content, calls, views)
  {
  }

  lemma {:induction false} OneMore(e: Evidence, calls: seq<Call>, batch: seq<BatchItem>, views: seq<string>, i: nat,
                                   bound: string -> nat, project: Projector)
    requires |calls| == |batch| && views == ViewsOf(batch, bound, project) && i < |batch|
    ensures StoredAll(e, batch[..i + 1], views[..i + 1]) == Stored(StoredAll(e, batch[..i], views[..i]), batch[i], views[i])
    ensures ResultMessages(calls[..i + 1], views[..i + 1])
            == ResultMessages(calls[..i], views[..i]) + [Message(TOOL, Some(views[i]), [], calls[i].id)]
    ensures LastFault(calls[..i + 1], batch[..i + 1], bound, project)
            == var fault := FaultOf(batch[i], calls[i], bound, project);
               if fault.Some? then fault else LastFault(calls[..i], batch[..i], bound, project)
  {
    assert batch[..i + 1][..i] == batch[..i] && views[..i + 1][..i] == views[..i] && calls[..i + 1][..i] == calls[..i];
  }

  // ----- transcripts of whole turns -----

  /** What the engine appends: a message of its own, or the block of a batch. */
  datatype Segment =
    | Note(message: Message)
    | Exchange(content: Option<string>, calls: seq<Call>, encoded: seq<string>)

  /** The engine executes only batches of fresh, distinct calls, and its own messages are plain. */
  predicate Proper(g: Segment) {
    match g
    case Note(m) => Plain(m)
    case Exchange(content, calls, encoded) => calls != [] && |calls| == |encoded| && DistinctIds(calls)
  }

  predicate AllProper(gs: seq<Segment>) {
    forall i :: 0 <= i < |gs| ==> Proper(gs[i])
  }

  function MessagesOf(g: Segment): (ms: seq<Message>)
    requires Proper(g)
    ensures ms != [] && !IsTool(ms[0])
  {
    match g
    case Note(m) => [m]
    case Exchange(content, calls, encoded) => RegistryBlock(content, calls, encoded)
  }

  function Transcript(gs: seq<Segment>): (ms: seq<Message>)
    requires AllProper(gs)
    ensures ms == [] || !IsTool(ms[0])
  {
    if gs == [] then [] else MessagesOf(gs[0]) + Transcript(gs[1..])
  }

  function SegmentUnits(gs: seq<Segment>, start: nat): seq<Unit>
    requires AllProper(gs)
  {
    if gs == [] then []
    else [Unit(start, MessagesOf(gs[0]))] + SegmentUnits(gs[1..], start + |MessagesOf(gs[0])|)
  }

  lemma {:induction false} OneSegment(g: Segment, start: nat)
    requires Proper(g)
    ensures Units(MessagesOf(g), start) == [Unit(start, MessagesOf(g))]
  {
    match g
    case Note(m) =>
      assert [m][..1] == [m] && [m][1..] == [];
      assert Units([], start + 1) == [];
    case Exchange(content, calls, encoded) =>
      BlockUnits(content, calls, encoded, start);
  }

  /** The transcript of any run is cut into exactly what was appended: each message and each block
      is one unit, in order, and nothing is lost. */
  lemma {:induction false} SegmentsAreUnits(gs: seq<Segment>, start: nat)
    requires AllProper(gs)
    ensures Units(Transcript(gs), start) == SegmentUnits(gs, start)
  {
    if gs != [] {
      var first := MessagesOf(gs[0]);
      var rest := Transcript(gs[1..]);
      assert Transcript(gs) == first + rest;
      assert SegmentUnits(gs, start) == [Unit(start, first)] + SegmentUnits(gs[1..], start + |first|);
      OneSegment(gs[0], start);
      SegmentsAreUnits(gs[1..], start + |first|);
      hide Units, MessagesOf, SegmentUnits, Transcript;
      UnitsConcat(first, rest, start);
    }
  }

  /** The transcript itself is valid at every point of a run. */
  lemma {:induction false} TranscriptIsValid(gs: seq<Segment>)
    requires AllProper(gs)
    ensures ProtocolValid(Transcript(gs))
  {
    PlainIsValid([]);
    if gs != [] {
      var first := MessagesOf(gs[0]);
      OneSegment(gs[0], 0);
      UnitsAreValid(first, 0);
      assert Units(first, 0)[0].messages == first;
      TranscriptIsValid(gs[1..]);
      hide ProtocolValid;
      ValidConcat(first, Transcript(gs[1..]));
    }
  }

  /** A segment seen through the views of its results is a segment with the same calls. */
  function SegmentViewed(g: Segment, views: map<string, string>): (seen: Segment)
    requires Proper(g)
    ensures Proper(seen)
  {
    match g
    case Note(m) => g
    case Exchange(content, calls, encoded) =>
      Exchange(content, calls, seq(|calls|, i requires 0 <= i < |calls| =>
        if calls[i].id != "" && calls[i].id in views then views[calls[i].id] else encoded[i]))
  }

  lemma ViewedSegment(g: Segment, views: map<string, string>)
    requires Proper(g)
    ensures AllViewed(MessagesOf(g), views) == MessagesOf(SegmentViewed(g, views))
  {
  }

  function AllSegmentsViewed(gs: seq<Segment>, views: map<string, string>): (seen: seq<Segment>)
    requires AllProper(gs)
    ensures AllProper(seen) && |seen| == |gs|
  {
    if gs == [] then [] else [SegmentViewed(gs[0], views)] + AllSegmentsViewed(gs[1..], views)
  }

  lemma AllViewedConcat(a: seq<Message>, b: seq<Message>, views: map<string, string>)
    ensures AllViewed(a + b, views) == AllViewed(a, views) + AllViewed(b, views)
  {
  }

  /** Replacing results by views keeps the shape, so the projected transcript of any run is cut into
      one unit per segment as well. */
  lemma {:induction false} ViewsKeepShape(gs: seq<Segment>, views: map<string, string>)
    requires AllProper(gs)
    ensures AllViewed(Transcript(gs), views) == Transcript(AllSegmentsViewed(gs, views))
  {
    if gs != [] {
      var seen := AllSegmentsViewed(gs, views);
      ViewedSegment(gs[0], views);
      ViewsKeepShape(gs[1..], views);
      AllViewedConcat(MessagesOf(gs[0]), Transcript(gs[1..]), views);
      assert seen[0] == SegmentViewed(gs[0], views) && seen[1..] == AllSegmentsViewed(gs[1..], views);
    }
  }

  // ----- the assembler's boundary -----

  datatype Assembly = Assembled(projection: Projection) | NoPolicyOrRequest | LostRequest | Rejected(error: ContextBudget.Error)

  function PolicyAt(ms: seq<Message>, from: nat): (i: Option<nat>)
    requires from <= |ms|
    ensures i.Some? ==> from <= i.value < |ms| && ms[i.value].role == SYSTEM
    ensures forall k :: from <= k < (if i.Some? then i.value else |ms|) ==> ms[k].role != SYSTEM
    decreases |ms| - from
  {
    if from == |ms| then None
    else if ms[from].role == SYSTEM then Some(from)
    else PolicyAt(ms, from + 1)
  }

  /** The projection input: the first system message, the newest request, and the runtime messages. */
  function TurnOf(ms: seq<Message>, views: map<string, string>, receipts: Option<Receipts>, policy: Message, newest: Message,
                  runtime: seq<Message>, maxTokens: int, reserveTokens: int, manifestTokens: int): Turn
  {
    Turn(ms, views, receipts, Input([policy], [], [newest], [], runtime, maxTokens, reserveTokens, manifestTokens))
  }

  /** Assembler.ProjectTurn. */
  method AssemblerProjectTurn(fp: Fingerprinter, ms: seq<Message>, views: map<string, string>, receipts: Option<Receipts>,
                              newest: Message, runtime: seq<Message>, maxTokens: int, reserveTokens: int, manifestTokens: int)
    returns (result: Assembly, ghost selected: set<nat>)
    ensures result.NoPolicyOrRequest? <==> PolicyAt(ms, 0).None? || newest.role != USER
    ensures result.LostRequest? <==> !result.NoPolicyOrRequest? && forall m :: m in ms ==> !Same(fp, m, newest)
    ensures result.Assembled? ==>
              PolicyAt(ms, 0).Some?
              && ProjectedAs(fp, TurnOf(ms, views, receipts, ms[PolicyAt(ms, 0).value], newest, runtime,
                                        maxTokens, reserveTokens, manifestTokens), selected, result.projection)
    ensures !result.NoPolicyOrRequest? && !result.LostRequest? ==>
              var t := TurnOf(ms, views, receipts, ms[PolicyAt(ms, 0).value], newest, runtime, maxTokens, reserveTokens, manifestTokens);
              && (result.Assembled? <==> ValidLimits(t.input) && Affordable(fp, t))
              && (result.Rejected? ==> result.error == TurnError(t.input, receipts.Some? && !Affordable(fp, t)))
  {
    hide ProjectedAs, Affordable;
    var policy := 0;
    while policy < |ms| && ms[policy].role != SYSTEM
      invariant 0 <= policy <= |ms| && PolicyAt(ms, 0) == PolicyAt(ms, policy)
    {
      policy := policy + 1;
    }
    if policy == |ms| || newest.role != USER {
      return NoPolicyOrRequest, {};
    }
    var request := 0;
    while request < |ms| && !Same(fp, ms[request], newest)
      invariant 0 <= request <= |ms| && forall k :: 0 <= k < request ==> !Same(fp, ms[k], newest)
    {
      request := request + 1;
    }
    if request == |ms| {
      return LostRequest, {};
    }
    var t := TurnOf(ms, views, receipts, ms[policy], newest, runtime, maxTokens, reserveTokens, manifestTokens);
    var projected;
    projected, selected := ProjectTurn(fp, t);
    result := match projected case Ok(p) => Assembled(p) case Err(e) => Rejected(e);
  }

  /** For any transcript, whatever it holds, a request assembled around a plain policy and request is
      valid, fits the limits, begins with the policy, has the newest request behind it, and ends with the
      runtime messages. */
  lemma AssembledTurn(fp: Fingerprinter, t: Turn, selected: set<nat>, p: Projection, policy: Message, newest: Message,
                      runtime: seq<Message>, maxTokens: int, reserveTokens: int, manifestTokens: int)
    requires Separates(fp)
    requires t == TurnOf(t.transcript, t.views, t.receipts, policy, newest, runtime, maxTokens, reserveTokens, manifestTokens)
    requires ProjectedAs(fp, t, selected, p)
    requires Plain(policy) && Plain(newest) && AllPlain(runtime)
    ensures ProtocolValid(p.messages)
    ensures p.chars == Serialized(p.messages) + REQUEST_ENVELOPE_CHARS <= (maxTokens - reserveTokens - manifestTokens) * 4
    ensures p.tokens + reserveTokens + manifestTokens <= maxTokens
    ensures (forall results, n :: IndexMessage(results, n) != policy && IndexMessage(results, n) != newest)
            ==> exists mid, rest :: p.messages == [policy] + mid + [newest] + rest + runtime
  {
    hide ProtocolValid, ProjectedAs;
    TurnFits(fp, t, selected, p);
    if forall results, n :: IndexMessage(results, n) != policy && IndexMessage(results, n) != newest {
      RequiredAreKept(fp, t, selected, p);
    }
    TurnIsValid(fp, t, selected, p);
  }
}
