/**
 The model/tool loop of one turn. The provider, the tools and the context answer
 as they like; the loop still ends, within its budgets, and every request that it
 sends is a valid transcript that fits.
 */
module TurnEngine {
  import opened Options
  import opened Wire
  import opened ToolProtocol
  import opened ContextBudget
  import opened ResultIndex
  import opened TurnProjection
  import opened TurnTranscript
  import opened TurnRules
  import InitialRequest
  import RoomContext
  import TurnContext

  // ----- turn state -----

  class TurnState {
    const limits: Limits
    var steps: int
    var reserved: int
    var attempted: int
    var succeeded: int
    var failed: int

    function View(): Counters
      reads this
    {
      Counters(steps, reserved, attempted, succeeded, failed)
    }

    constructor (limits: Limits)
      ensures View() == Counters(0, 0, 0, 0, 0) && this.limits == limits
    {
      this.limits := limits;
      steps, reserved, attempted, succeeded, failed := 0, 0, 0, 0, 0;
    }

    method AdvanceStep() returns (advanced: bool)
      modifies `steps
      ensures advanced <==> old(Remaining(limits, View())) > 0
      ensures steps == old(steps) + if advanced then 1 else 0
    {
      if steps >= limits.maxSteps {
        return false;
      }
      steps := steps + 1;
      advanced := true;
    }

    method ReserveToolCalls(n: int) returns (ok: bool)
      modifies `reserved
      ensures ok <==> n >= 0 && old(reserved) + n <= limits.maxToolCalls
      ensures reserved == old(reserved) + if ok then n else 0
    {
      if n < 0 || reserved + n > limits.maxToolCalls {
        return false;
      }
      reserved := reserved + n;
      ok := true;
    }

    method MarkToolAttempted(n: int) returns (ok: bool)
      modifies `attempted
      ensures ok <==> n >= 0
      ensures attempted == old(attempted) + if ok then n else 0
    {
      if n < 0 {
        return false;
      }
      attempted := attempted + n;
      ok := true;
    }

    method RecordToolSuccess() returns (ok: bool)
      modifies `succeeded
      ensures ok <==> old(succeeded) + failed < attempted
      ensures succeeded == old(succeeded) + if ok then 1 else 0
    {
      if succeeded + failed >= attempted {
        return false;
      }
      succeeded := succeeded + 1;
      ok := true;
    }

    method RecordToolFailure() returns (ok: bool)
      modifies `failed
      ensures ok <==> succeeded + old(failed) < attempted
      ensures failed == old(failed) + if ok then 1 else 0
    {
      if succeeded + failed >= attempted {
        return false;
      }
      failed := failed + 1;
      ok := true;
    }
  }

  // ----- batches -----

  method ValidateBatchIdentity(trim: Trimmer, calls: seq<Call>) returns (ok: bool)
    ensures ok <==> ValidIdentity(trim, calls)
  {
    var seen: set<string> := {};
    for i := 0 to |calls|
      invariant ValidIdentity(trim, calls[..i])
      invariant forall id :: id in seen <==> exists j :: 0 <= j < i && trim(calls[j].id) == id
    {
      var id := trim(calls[i].id);
      if id == "" || trim(calls[i].name) == "" || id in seen {
        return false;
      }
      seen := seen + {id};
    }
    assert calls[..|calls|] == calls;
    ok := true;
  }

  method FreshIds(store: ObservationStore, calls: seq<Call>) returns (unused: bool)
    ensures unused <==> Fresh(store.Contents(), calls)
  {
    for i := 0 to |calls|
      invariant forall j :: 0 <= j < i ==> calls[j].id !in store.results
    {
      if calls[i].id in store.results {
        return false;
      }
    }
    unused := true;
  }

  /** A batch as the loop dealt with it: the ids, whether it was handed to the executor, and whether
      the turn was terminal by then. */
  datatype Batch = Batch(ids: seq<string>, ran: bool, terminal: bool)

  function IdsOf(calls: seq<Call>): (ids: seq<string>)
    ensures |ids| == |calls|
  {
    seq(|calls|, i requires 0 <= i < |calls| => calls[i].id)
  }

  /** All ids that were executed, in order. */
  function Ran(batches: seq<Batch>): seq<string> {
    if batches == [] then []
    else Ran(batches[..|batches| - 1]) + (if batches[|batches| - 1].ran then batches[|batches| - 1].ids else [])
  }

  lemma OnePerOutcome(execute: Executor, n: nat, calls: seq<Call>, ran: bool)
    requires OnePerCall(execute)
    ensures |Outcomes(execute, n, calls, ran)| == |calls| && Errors(Outcomes(execute, n, calls, ran)[..0]) == 0
  {
  }

  lemma ErrorsNext(results: seq<Executed>, i: nat)
    requires i < |results|
    ensures Errors(results[..i + 1]) == Errors(results[..i]) + if results[i].isError then 1 else 0
  {
    assert results[..i + 1][..i] == results[..i];
  }

  lemma OutcomesMean(execute: Executor, n: nat, calls: seq<Call>, ran: bool)
    requires OnePerCall(execute)
    ensures var results := Outcomes(execute, n, calls, ran);
            && |results| == |calls|
            && (forall i :: 0 <= i < |calls| ==>
                  BatchOf(calls, results)[i].result == if ran then execute(n, calls)[i].result
                                                       else ToolResult(calls[i].id, calls[i].name, "TOOL_CALL_LIMIT_REACHED"))
            && Errors(results) == if ran then Errors(execute(n, calls)) else |calls|
  {
    if !ran { AllErrors(Outcomes(execute, n, calls, ran)); }
  }

  /** executeBatch: the whole batch runs, or none of it. */
  method ExecuteBatch(state: TurnState, execute: Executor, n: nat, calls: seq<Call>, terminal: bool)
    returns (batch: seq<BatchItem>, ran: bool)
    requires OnePerCall(execute) && Balanced(state.View())
    modifies state
    ensures ran == Runs(state.limits, old(state.View()), calls, terminal)
    ensures batch == BatchOf(calls, Outcomes(execute, n, calls, ran))
    ensures |batch| == |calls| && forall i :: 0 <= i < |calls| ==>
              batch[i].result == if ran then execute(n, calls)[i].result
                                 else ToolResult(calls[i].id, calls[i].name, "TOOL_CALL_LIMIT_REACHED")
    ensures state.failed == old(state.failed) + if ran then Errors(execute(n, calls)) else |calls|
    ensures state.View() == AfterBatch(old(state.View()), ran, Outcomes(execute, n, calls, ran)) && Balanced(state.View())
  {
    hide Outcomes, Errors;
    ran := false;
    if !terminal {
      ran := state.ReserveToolCalls(|calls|);
    }
    var _ := state.MarkToolAttempted(|calls|);
    var results := Outcomes(execute, n, calls, ran);
    OnePerOutcome(execute, n, calls, ran);
    batch := [];
    for i := 0 to |calls|
      invariant |batch| == i
      invariant state.attempted == old(state.attempted) + |calls| && state.steps == old(state.steps)
      invariant state.reserved == old(state.reserved) + if ran then |calls| else 0
      invariant state.failed == old(state.failed) + Errors(results[..i])
      invariant state.succeeded == old(state.succeeded) + i - Errors(results[..i])
      invariant forall j :: 0 <= j < i ==> batch[j] == BatchOf(calls, results)[j]
    {
      ErrorsNext(results, i);
      if results[i].isError {
        var _ := state.RecordToolFailure();
      } else {
        var _ := state.RecordToolSuccess();
      }
      batch := batch + [BatchItem(ToolCall(calls[i].id, calls[i].name, calls[i].arguments), results[i].result)];
    }
    assert results[..|calls|] == results;
    OutcomesMean(execute, n, calls, ran);
  }

  // ----- the loop -----

  /** A request that a provider accepts and that fits the configured limits. */
  ghost predicate Acceptable(env: Environment, request: seq<Message>) {
    ProtocolValid(request)
    && Serialized(request) + REQUEST_ENVELOPE_CHARS <= (env.maxTokens - env.reserveTokens) * 4
  }

  ghost predicate AllAcceptable(env: Environment, requests: seq<seq<Message>>) {
    forall i :: 0 <= i < |requests| ==> Acceptable(env, requests[i])
  }

  lemma OneMoreAcceptable(env: Environment, requests: seq<seq<Message>>, request: seq<Message>)
    requires AllAcceptable(env, requests) && Acceptable(env, request)
    ensures AllAcceptable(env, requests + [request]) && AllAcceptable(env, [request] + requests)
  {
    hide Acceptable;
  }

  /** The requests up to round s of the course that begins with `first`. */
  ghost predicate SentUpTo(env: Environment, l: Limits, first: Round, requests: seq<seq<Message>>, s: Round)
    requires OnePerCall(env.execute)
  {
    AllAcceptable(env, requests) && AllSent(env, l, first, requests) && RoundAt(env, l, first, |requests|) == Some(s)
  }

  lemma NothingSent(env: Environment, l: Limits, first: Round)
    requires OnePerCall(env.execute)
    ensures SentUpTo(env, l, first, [], first)
  {
  }

  lemma SentIsAcceptable(env: Environment, l: Limits, first: Round, requests: seq<seq<Message>>, s: Round)
    requires OnePerCall(env.execute) && SentUpTo(env, l, first, requests, s)
    ensures AllAcceptable(env, requests) && AllSent(env, l, first, requests)
  {
  }

  /** A round makes one more request, and the next round follows if the turn goes on. */
  lemma RequestIsSent(env: Environment, l: Limits, first: Round, requests: seq<seq<Message>>, s: Round, r: Reply, last: bool,
                      request: seq<Message>)
    requires OnePerCall(env.execute) && SentUpTo(env, l, first, requests, s) && Acceptable(env, request)
    requires r == ReplyTo(env, l, s) && last == IsLast(l, r.counters, s.terminal, env.toolsLeft(s.n))
    requires IsProjected(env, r.messages, r.evidence.views, s.n, last, r.correction, request)
    ensures var more := requests + [request];
            AllAcceptable(env, more) && AllSent(env, l, first, more)
            && (EndOf(env, l, s).None? ==> SentUpTo(env, l, first, more, NextRound(env, l, s)))
  {
    hide Acceptable, AllAcceptable, AllSent, RoundAt, ReplyTo, OnePerCall, IsLast, IsProjected, EndOf, NextRound;
    OneMoreAcceptable(env, requests, request);
    OneMoreSent(env, l, first, requests, s, r, last, request);
    if EndOf(env, l, s).None? { RoundAfter(env, l, first, |requests|, s); }
  }

  /** System messages call no tools. */
  ghost predicate SystemIsPlain(ms: seq<Message>) {
    forall m :: m in ms && m.role == SYSTEM ==> Plain(m)
  }

  lemma {:induction false} SegmentsAddNoSystemCalls(gs: seq<Segment>)
    requires AllProper(gs)
    ensures SystemIsPlain(Transcript(gs))
  {
    if gs != [] {
      SegmentsAddNoSystemCalls(gs[1..]);
      assert SystemIsPlain(MessagesOf(gs[0]));
    }
  }

  /** projectRequest: the transcript projected around its policy and the newest request, with the
      correction, if any, and the status as runtime messages. It fails exactly for the fault there is. */
  method ProjectRequest(env: Environment, n: nat, last: bool, messages: seq<Message>, store: ObservationStore,
                        correction: seq<Message>)
    returns (assembly: Assembly)
    requires Separates(env.fp) && Plain(env.newest) && SystemIsPlain(messages) && AllPlain(correction)
    requires Started(env, messages)
    ensures var fault := ProjectionFault(env, messages, store.views, n, last, correction);
            if fault.Some? then assembly == fault.value else assembly.Assembled?
    ensures assembly.Assembled? ==>
              Acceptable(env, assembly.projection.messages)
              && IsProjected(env, messages, store.views, n, last, correction, assembly.projection.messages)
  {
    hide ProtocolValid, ProjectedAs, Separates, Serialized, Affordable, ValidLimits, TurnError, ProjectionFault, PolicyAt, Acceptable,
         AllPlain, SystemIsPlain;
    StartedHasPolicy(env, messages);
    assert TurnContext.Same(env.fp, env.newest, env.newest);
    var runtime := correction + [Own(USER, env.status(n, last))];
    var manifest := if last then 0 else env.manifest(n);
    ghost var selected;
    assembly, selected := AssemblerProjectTurn(env.fp, messages, store.views, env.receipts(n), env.newest, runtime,
                                               env.maxTokens, env.reserveTokens, manifest);
    AssemblyIsTheFault(env, messages, store.views, n, last, correction, assembly);
    if assembly.Assembled? {
      ProjectedIsAcceptable(env, messages, store.views, n, last, correction, selected, assembly.projection);
    }
  }

  lemma {:induction false} ProjectedIsAcceptable(env: Environment, messages: seq<Message>, views: map<string, string>, n: nat, last: bool,
                                                 correction: seq<Message>, selected: set<nat>, p: Projection)
    requires Separates(env.fp) && Plain(env.newest) && SystemIsPlain(messages) && AllPlain(correction)
    requires PolicyAt(messages, 0).Some? && ProjectedAs(env.fp, TurnAt(env, messages, views, n, last, correction), selected, p)
    ensures Acceptable(env, p.messages)
  {
    hide ProtocolValid, ProjectedAs, Separates, Serialized;
    var policy, runtime := messages[PolicyAt(messages, 0).value], correction + [Own(USER, env.status(n, last))];
    assert policy in messages && Plain(policy) && AllPlain(runtime);
    AssembledTurn(env.fp, TurnAt(env, messages, views, n, last, correction), selected, p, policy, env.newest, runtime,
                  env.maxTokens, env.reserveTokens, if last then 0 else env.manifest(n));
  }

  /** What the loop has done so far: the batches, and the segments it appended to the transcript. */
  datatype Trace = Trace(batches: seq<Batch>, segments: seq<Segment>)

  predicate NoRepeats(ids: seq<string>) {
    forall i, j :: 0 <= i < j < |ids| ==> ids[i] != ids[j]
  }

  /** The account of the loop at any point of its run. */
  ghost predicate Accounted(start: seq<Message>, before: int, l: Limits, c: Counters, e: Evidence, trace: Trace, messages: seq<Message>) {
    && Balanced(c) && Coherent(e)
    && AllProper(trace.segments) && messages == start + Transcript(trace.segments)
    && c.reserved == before + |Ran(trace.batches)|
    && (Ran(trace.batches) != [] ==> c.reserved <= l.maxToolCalls)
    && NoRepeats(Ran(trace.batches)) && (forall id :: id in Ran(trace.batches) ==> id in e.results)
    && RunsWhatFits(trace.batches, before, l)
  }

  /** A batch runs exactly if the turn is not terminal and it fits into what the batches before it left. */
  ghost predicate RunsWhatFits(batches: seq<Batch>, before: int, l: Limits) {
    forall i :: 0 <= i < |batches| ==>
      (batches[i].ran <==> !batches[i].terminal && before + |Ran(batches[..i])| + |batches[i].ids| <= l.maxToolCalls)
  }

  lemma {:induction false} RunsAppend(batches: seq<Batch>, b: Batch, before: int, l: Limits)
    requires RunsWhatFits(batches, before, l)
    requires b.ran <==> !b.terminal && before + |Ran(batches)| + |b.ids| <= l.maxToolCalls
    ensures RunsWhatFits(batches + [b], before, l)
  {
    var more := batches + [b];
    forall i | 0 <= i < |more|
      ensures more[i].ran <==> !more[i].terminal && before + |Ran(more[..i])| + |more[i].ids| <= l.maxToolCalls
    {
      assert more[..i] == batches[..i];
      assert batches[..|batches|] == batches;
    }
  }

  lemma {:induction false} TranscriptAppend(gs: seq<Segment>, g: Segment)
    requires AllProper(gs) && Proper(g)
    ensures AllProper(gs + [g]) && Transcript(gs + [g]) == Transcript(gs) + MessagesOf(g)
  {
    if gs == [] {
      assert [g][1..] == [];
      assert Transcript([g]) == MessagesOf(g) + Transcript([]);
    } else {
      assert (gs + [g])[1..] == gs[1..] + [g];
      TranscriptAppend(gs[1..], g);
    }
  }

  lemma {:induction false} RanAppend(batches: seq<Batch>, b: Batch)
    ensures Ran(batches + [b]) == Ran(batches) + (if b.ran then b.ids else [])
  {
    assert (batches + [b])[..|batches|] == batches;
  }

  /** One of the loop's own messages keeps the account. */
  lemma NoteKeepsAccount(start: seq<Message>, before: int, l: Limits, c: Counters, e: Evidence, trace: Trace,
                         messages: seq<Message>, m: Message)
    requires Accounted(start, before, l, c, e, trace, messages) && Plain(m)
    ensures Accounted(start, before, l, c, e, trace.(segments := trace.segments + [Note(m)]), messages + [m])
  {
    TranscriptAppend(trace.segments, Note(m));
    hide Transcript, Coherent, Ran;
  }

  /** A fresh batch keeps the account: its block is one segment, and its ids are new. */
  lemma BatchKeepsAccount(start: seq<Message>, before: int, l: Limits, c: Counters, e: Evidence, trace: Trace, messages: seq<Message>,
                          d: Counters, f: Evidence, calls: seq<Call>, content: Option<string>, views: seq<string>, b: Batch)
    requires Accounted(start, before, l, c, e, trace, messages)
    requires calls != [] && |views| == |calls| && DistinctIds(calls) && Fresh(e, calls)
    requires Coherent(f) && e.results.Keys <= f.results.Keys && forall i :: 0 <= i < |calls| ==> calls[i].id in f.results
    requires b.ids == IdsOf(calls) && (b.ran <==> !b.terminal && c.reserved + |calls| <= l.maxToolCalls)
    requires Balanced(d) && d.reserved == c.reserved + (if b.ran then |calls| else 0)
    ensures Accounted(start, before, l, d, f,
                      Trace(trace.batches + [b], trace.segments + [Exchange(content, calls, views)]),
                      messages + RegistryBlock(content, calls, views))
  {
    TranscriptAppend(trace.segments, Exchange(content, calls, views));
    FreshKeeps(start, before, l, c, e, trace, messages, calls, b, d);
    RanAppend(trace.batches, b);
    hide *;
    AccountFromParts(start, before, l, c, e, trace, messages, d, f, calls, content, views, b);
  }

  lemma AccountFromParts(start: seq<Message>, before: int, l: Limits, c: Counters, e: Evidence, trace: Trace, messages: seq<Message>,
                         d: Counters, f: Evidence, calls: seq<Call>, content: Option<string>, views: seq<string>, b: Batch)
    requires Accounted(start, before, l, c, e, trace, messages)
    requires Balanced(d) && Coherent(f) && e.results.Keys <= f.results.Keys
    requires |views| == |calls| && calls != [] && DistinctIds(calls)
    requires b.ids == IdsOf(calls) && forall i :: 0 <= i < |calls| ==> calls[i].id in f.results
    requires Ran(trace.batches + [b]) == Ran(trace.batches) + (if b.ran then b.ids else [])
    requires Kept(trace.batches + [b], before, l, d)
    requires var g := Exchange(content, calls, views);
             AllProper(trace.segments + [g])
             && Transcript(trace.segments + [g]) == Transcript(trace.segments) + RegistryBlock(content, calls, views)
    ensures Accounted(start, before, l, d, f,
                      Trace(trace.batches + [b], trace.segments + [Exchange(content, calls, views)]),
                      messages + RegistryBlock(content, calls, views))
  {
    hide Ran, Transcript, RegistryBlock, Coherent, NoRepeats, AllProper, Balanced, RunsWhatFits;
    forall id | id in Ran(trace.batches + [b]) ensures id in f.results {
      if id !in Ran(trace.batches) {
        var i :| 0 <= i < |b.ids| && b.ids[i] == id;
        assert calls[i].id == id;
      }
    }
  }

  /** The evidence after a batch that was appended. */
  lemma {:induction false} AppendedEvidence(e: Evidence, calls: seq<Call>, batch: seq<BatchItem>, views: seq<string>)
    requires |calls| == |batch| == |views| && Coherent(e) && DistinctIds(calls)
    requires forall i :: 0 <= i < |batch| ==> Matches(batch[i], calls[i])
    ensures var f := StoredAll(e, batch, views);
            Coherent(f) && e.results.Keys <= f.results.Keys && forall i :: 0 <= i < |calls| ==> calls[i].id in f.results
  {
    BatchIsKept(e, batch, views);
    forall i | 0 <= i < |calls| ensures calls[i].id in StoredAll(e, batch, views).results {
      BatchIsRetrievable(e, batch, views, i);
    }
  }

  /** A valid batch: execute it, or answer it unexecuted, and append the exchange. */
  method RunBatch(env: Environment, n: nat, response: Response, terminal: bool, repaired: bool, messages: seq<Message>,
                  state: TurnState, store: ObservationStore, ghost start: seq<Message>, ghost before: int, ghost trace: Trace,
                  ghost s: Round)
    returns (ended: Option<Ending>, out: seq<Message>, fixed: bool, batch: seq<BatchItem>, ghost after: Trace)
    requires OnePerCall(env.execute)
    requires s == Round(response, messages, state.View(), store.Contents(), terminal, repaired, s.all, n)
    requires response.calls != [] && DistinctIds(response.calls) && Fresh(store.Contents(), response.calls)
    requires Accounted(start, before, state.limits, state.View(), store.Contents(), trace, messages)
    modifies state, store
    ensures ended.None? ==> Accounted(start, before, state.limits, state.View(), store.Contents(), after, out)
    ensures Reply(ended, out, state.View(), store.Contents(), fixed, batch, []) == AfterExchange(env, state.limits, s)
    ensures Balanced(state.View())
    ensures after.batches == trace.batches + [Batch(IdsOf(response.calls), Runs(state.limits, s.counters, response.calls, terminal), terminal)]
    ensures Kept(after.batches, before, state.limits, state.View())
  {
    hide Transcript, Coherent, RegistryBlock, StoredAll, RunsWhatFits;
    var ran;
    batch, ran := ExecuteBatch(state, env.execute, n, response.calls, terminal);
    ghost var b := Batch(IdsOf(response.calls), ran, terminal);
    var error;
    out, error := AppendRegistryProtocol(messages, response.content, response.calls, batch, store, env.bound, env.project);
    fixed, after := repaired, Trace(trace.batches + [b], trace.segments);
    RanAppend(trace.batches, b);
    FreshKeeps(start, before, state.limits, old(state.View()), old(store.Contents()), trace, messages, response.calls, b, state.View());
    if error.Some? {
      return Some(AppendFailed(error.value)), messages, fixed, batch, after;
    }
    ghost var views := ViewsOf(batch, env.bound, env.project);
    AppendedEvidence(old(store.Contents()), response.calls, batch, views);
    BatchKeepsAccount(start, before, state.limits, old(state.View()), old(store.Contents()), trace, messages,
                      state.View(), store.Contents(), response.calls, response.content, views, b);
    after := Trace(trace.batches + [b], trace.segments + [Exchange(response.content, response.calls, views)]);
    if terminal {
      if repaired {
        return Some(CalledAfterTerminal), out, fixed, batch, after;
      }
      fixed := true;
    }
    ended := None;
  }

  /** The promises about tools, which hold however the turn ends. */
  ghost predicate Kept(batches: seq<Batch>, before: int, l: Limits, c: Counters) {
    && c.reserved == before + |Ran(batches)|
    && (Ran(batches) != [] ==> c.reserved <= l.maxToolCalls)
    && NoRepeats(Ran(batches))
    && RunsWhatFits(batches, before, l)
  }

  lemma FreshKeeps(start: seq<Message>, before: int, l: Limits, c: Counters, e: Evidence, trace: Trace, messages: seq<Message>,
                   calls: seq<Call>, b: Batch, d: Counters)
    requires Accounted(start, before, l, c, e, trace, messages) && DistinctIds(calls) && Fresh(e, calls)
    requires b.ids == IdsOf(calls) && (b.ran <==> !b.terminal && c.reserved + |calls| <= l.maxToolCalls)
    requires d.reserved == c.reserved + (if b.ran then |calls| else 0)
    ensures Kept(trace.batches + [b], before, l, d)
  {
    RanAppend(trace.batches, b);
    RunsAppend(trace.batches, b, before, l);
    hide Ran, Coherent, Transcript, RunsWhatFits;
  }

  /** The batches since then, all of them answered in this terminal state. */
  ghost predicate Extends(batches: seq<Batch>, earlier: seq<Batch>, terminal: bool) {
    earlier <= batches && forall i :: |earlier| <= i < |batches| ==> batches[i].terminal == terminal
  }

  /** What the loop makes of a response that is not the accepted answer: a correction, an exchange, or
      the end of the turn. The feedback becomes a message of its own. */
  method Respond(env: Environment, n: nat, response: Response, terminal: bool, repaired: bool, messages: seq<Message>,
                 state: TurnState, store: ObservationStore, ghost start: seq<Message>, ghost before: int, ghost trace: Trace,
                 ghost s: Round)
    returns (ended: Option<Ending>, out: seq<Message>, fixed: bool, batch: seq<BatchItem>, correction: seq<Message>,
             ghost after: Trace)
    requires OnePerCall(env.execute)
    requires s == Round(response, messages, state.View(), store.Contents(), terminal, repaired, s.all, n)
    requires Accounted(start, before, state.limits, state.View(), store.Contents(), trace, messages)
    modifies state, store
    ensures ended.None? ==> Accounted(start, before, state.limits, state.View(), store.Contents(), after, out)
    ensures AllPlain(correction)
    ensures Reply(ended, out, state.View(), store.Contents(), fixed, batch, correction) == ReplyTo(env, state.limits, s)
    ensures Balanced(state.View())
    ensures Kept(after.batches, before, state.limits, state.View())
    ensures Extends(after.batches, trace.batches, terminal)
  {
    hide Accounted, Ran, Transcript, Coherent;
    AccountIsKept(start, before, state.limits, state.View(), store.Contents(), trace, messages);
    out, fixed, batch, correction, after := messages, repaired, [], [], trace;
    if response.calls == [] {
      if repaired {
        return Some(InvalidFinal), out, fixed, batch, correction, after;
      }
      fixed := true;
      NoteKeepsAccount(start, before, state.limits, state.View(), store.Contents(), after, out, Own(ASSISTANT, TextOf(response)));
      out := out + [Own(ASSISTANT, TextOf(response))];
      after := after.(segments := after.segments + [Note(Own(ASSISTANT, TextOf(response)))]);
    } else {
      var valid := ValidateBatchIdentity(env.trim, response.calls);
      if valid {
        valid := FreshIds(store, response.calls);
      }
      if response.finish == LENGTH || !valid {
        if repaired {
          return Some(InvalidProtocol), out, fixed, batch, correction, after;
        }
        fixed := true;
      } else {
        IdentityIsDistinct(env.trim, response.calls);
        ended, out, fixed, batch, after := RunBatch(env, n, response, terminal, repaired, messages, state, store, start, before, trace, s);
        if ended.Some? || !terminal {
          return;
        }
      }
    }
    var feedback := Own(USER, env.feedback(response, terminal));
    NoteKeepsAccount(start, before, state.limits, state.View(), store.Contents(), after, out, feedback);
    out, correction := out + [feedback], [feedback];
    after := after.(segments := after.segments + [Note(feedback)]);
    AccountIsKept(start, before, state.limits, state.View(), store.Contents(), after, out);
    ended := None;
  }

  lemma AccountIsKept(start: seq<Message>, before: int, l: Limits, c: Counters, e: Evidence, trace: Trace, messages: seq<Message>)
    requires Accounted(start, before, l, c, e, trace, messages)
    ensures Kept(trace.batches, before, l, c) && Balanced(c)
  {
  }

  /** Whether the next request is the last one, without tools; otherwise it takes a step. */
  method Advance(state: TurnState, terminal: bool, toolsLeft: bool) returns (last: bool)
    modifies state`steps
    ensures last == IsLast(state.limits, old(state.View()), terminal, toolsLeft)
    ensures state.View() == Stepped(old(state.View()), last) && (terminal ==> last)
  {
    if terminal || state.limits.maxToolCalls - state.reserved == 0 || !toolsLeft {
      return true;
    }
    var advanced := state.AdvanceStep();
    last := !advanced;
  }

  /** Terminal batches come last. */
  ghost predicate TerminalLast(batches: seq<Batch>) {
    forall i, j :: 0 <= i < j < |batches| ==> (batches[i].terminal ==> batches[j].terminal)
  }

  ghost predicate NoneTerminal(batches: seq<Batch>) {
    forall i :: 0 <= i < |batches| ==> !batches[i].terminal
  }

  lemma OrderIsKept(earlier: seq<Batch>, batches: seq<Batch>, terminal: bool)
    requires TerminalLast(earlier) && (terminal || NoneTerminal(earlier)) && Extends(batches, earlier, terminal)
    ensures TerminalLast(batches) && (terminal || NoneTerminal(batches))
  {
  }

  /** TurnEngine.Complete. It takes the course that the rules prescribe. Besides: tools run in whole batches
      within the budget, no id twice, none once the turn is terminal; every attempted call is recorded; the
      transcript grew by proper segments only; and every request that was sent is acceptable. */
  method Complete(env: Environment, start: seq<Message>, initial: Response, state: TurnState, store: ObservationStore)
    returns (ending: Ending, response: Response, messages: seq<Message>, all: seq<BatchItem>, completions: nat,
             requests: seq<seq<Message>>, ghost trace: Trace)
    requires OnePerCall(env.execute) && Balanced(state.View()) && Coherent(store.Contents())
    requires Separates(env.fp) && Plain(env.newest) && SystemIsPlain(start) && Started(env, start)
    modifies state, store
    ensures Takes(env, state.limits, FirstRound(initial, start, old(state.View()), old(store.Contents())),
                  Course(ending, response, messages, all, completions))
    ensures |requests| == completions && AllAcceptable(env, requests)
    ensures AllSent(env, state.limits, FirstRound(initial, start, old(state.View()), old(store.Contents())), requests)
    ensures Balanced(state.View())
    ensures Kept(trace.batches, old(state.reserved), state.limits, state.View()) && TerminalLast(trace.batches)
    ensures ending.Final? ==> AllProper(trace.segments) && messages == start + Transcript(trace.segments)
  {
    hide Accounted, Ran, Coherent, Transcript, Acceptable, AllAcceptable, Separates, SystemIsPlain, Plain, NoRepeats, OnePerCall,
         TerminalLast, NoneTerminal, Extends, Left, Started, CourseOf, ReplyTo, ProjectionFault, IsLast,
         Stepped, LeftOf, Takes, EndOf, NextRound, SentUpTo, IsProjected, AllSent, RunsWhatFits, Kept;
    ghost var before := state.reserved;
    response, messages, all, completions, requests, trace := initial, start, [], 0, [], Trace([], []);
    NoneSent(env);
    var terminal, repaired := false, false;
    ghost var first := FirstRound(initial, start, state.View(), store.Contents());
    ghost var s := first;
    RulesAreTaken(env, state.limits, first);
    NothingSent(env, state.limits, first);
    NothingYet(start, before, state.limits, state.View(), store.Contents());
    while true
      invariant Accounted(start, before, state.limits, state.View(), store.Contents(), trace, messages)
      invariant s == Round(response, messages, state.View(), store.Contents(), terminal, repaired, all, completions)
      invariant CourseOf(env, state.limits, s) == CourseOf(env, state.limits, first)
      invariant TerminalLast(trace.batches) && (terminal || NoneTerminal(trace.batches))
      invariant |requests| == completions && SentUpTo(env, state.limits, first, requests, s)
      decreases LeftOf(state.limits, s)
    {
      AccountIsKept(start, before, state.limits, state.View(), store.Contents(), trace, messages);
      CourseAtOnce(env, state.limits, s);
      SentIsAcceptable(env, state.limits, first, requests, s);
      if env.canceled(2 * completions) {
        ending := Canceled;
        return;
      }
      if response.calls == [] && response.finish != LENGTH && env.finalOk(response, all) {
        AccountIsProper(start, before, state.limits, state.View(), store.Contents(), trace, messages);
        ending := Final;
        return;
      }
      var ended, batch, correction;
      ghost var earlier := trace.batches;
      ended, messages, repaired, batch, correction, trace :=
        Respond(env, completions, response, terminal, repaired, messages, state, store, start, before, trace, s);
      OrderIsKept(earlier, trace.batches, terminal);
      all := all + batch;
      ghost var r := Reply(ended, messages, state.View(), store.Contents(), repaired, batch, correction);
      ghost var last := IsLast(state.limits, r.counters, terminal, env.toolsLeft(completions));
      CourseAfter(env, state.limits, s, r, last);
      assert r.evidence.views == store.views;
      if ended.Some? {
        ending := ended.value;
        return;
      }
      terminal := Advance(state, terminal, env.toolsLeft(completions));
      assert terminal == last && state.View() == Stepped(r.counters, last);
      StepsKeepAccount(start, before, state.limits, r.counters, store.Contents(), trace, messages, terminal);
      AccountIsKept(start, before, state.limits, state.View(), store.Contents(), trace, messages);
      AccountKeepsStart(env, start, before, state.limits, state.View(), store.Contents(), trace, messages);
      var assembly := ProjectRequest(env, completions, terminal, messages, store, correction);
      if !assembly.Assembled? {
        ending := ProjectionFailed(assembly);
        return;
      }
      var request := assembly.projection.messages;
      if env.canceled(2 * completions + 1) {
        ending := Canceled;
        return;
      }
      RequestIsSent(env, state.limits, first, requests, s, r, last, request);
      var answer := env.answer(completions);
      completions, requests := completions + 1, requests + [request];
      if answer.None? {
        ending := ProviderFailed;
        return;
      }
      response := answer.value;
      s := Round(response, messages, state.View(), store.Contents(), terminal, repaired, all, completions);
    }
  }

  lemma NoneSent(env: Environment)
    ensures AllAcceptable(env, []) && TerminalLast([]) && NoneTerminal([])
  {
  }

  lemma NothingYet(start: seq<Message>, before: int, l: Limits, c: Counters, e: Evidence)
    requires Balanced(c) && Coherent(e) && c.reserved == before
    ensures Accounted(start, before, l, c, e, Trace([], []), start)
  {
    assert Transcript([]) == [] && start + [] == start;
  }

  lemma AccountKeepsStart(env: Environment, start: seq<Message>, before: int, l: Limits, c: Counters, e: Evidence, trace: Trace,
                             messages: seq<Message>)
    requires Accounted(start, before, l, c, e, trace, messages) && SystemIsPlain(start) && Started(env, start)
    ensures SystemIsPlain(messages) && Started(env, messages)
  {
    SegmentsAddNoSystemCalls(trace.segments);
    hide Transcript, Coherent, Ran, Plain;
  }

  lemma AccountIsProper(start: seq<Message>, before: int, l: Limits, c: Counters, e: Evidence, trace: Trace, messages: seq<Message>)
    requires Accounted(start, before, l, c, e, trace, messages)
    ensures AllProper(trace.segments) && messages == start + Transcript(trace.segments)
  {
  }

  lemma StepsKeepAccount(start: seq<Message>, before: int, l: Limits, c: Counters, e: Evidence, trace: Trace, messages: seq<Message>,
                         last: bool)
    requires Accounted(start, before, l, c, e, trace, messages)
    ensures Accounted(start, before, l, Stepped(c, last), e, trace, messages)
  {
  }

  /** At most MaxToolCalls calls were executed, none of them twice; and of the batches exactly those that came
      before the turn was terminal and fitted into what was left. */
  ghost predicate WithinBudget(batches: seq<Batch>, l: Limits) {
    && |Ran(batches)| <= l.maxToolCalls
    && NoRepeats(Ran(batches))
    && RunsWhatFits(batches, 0, l)
  }

  lemma KeptIsWithin(batches: seq<Batch>, l: Limits, c: Counters)
    requires Kept(batches, 0, l, c) && l.maxToolCalls >= 1
    ensures WithinBudget(batches, l)
  {
  }

  lemma NothingRan(l: Limits)
    requires l.maxToolCalls >= 1
    ensures Coherent(NO_EVIDENCE) && WithinBudget([], l)
  {
  }

  const NO_EVIDENCE := Evidence(map[], map[], map[], [])

  /** The first completion has taken a step. */
  const ONE_STEP := Counters(1, 0, 0, 0, 0)

  /** The course of a turn from its first response on. */
  ghost function TurnCourse(env: Environment, l: Limits, request: seq<Message>, first: Response): Course
    requires OnePerCall(env.execute)
  {
    CourseOf(env, l, FirstRound(first, request, ONE_STEP, NO_EVIDENCE))
  }

  /** The loop of a new turn, after its first completion. */
  method Follow(env: Environment, request: seq<Message>, first: Response, state: TurnState, store: ObservationStore)
    returns (ending: Ending, requests: seq<seq<Message>>, ghost trace: Trace)
    requires Separates(env.fp) && Plain(env.newest) && SystemIsPlain(request) && Started(env, request)
    requires OnePerCall(env.execute) && state.limits.maxToolCalls >= 1 && state.View() == ONE_STEP
    requires store.Contents() == NO_EVIDENCE
    modifies state, store
    ensures var course := TurnCourse(env, state.limits, request, first);
            ending == course.ending && |requests| == course.completions
            && Sound(env, state.limits, FirstRound(first, request, ONE_STEP, NO_EVIDENCE), course)
    ensures |requests| <= Remaining(state.limits, ONE_STEP) + 2
    ensures AllSent(env, state.limits, FirstRound(first, request, ONE_STEP, NO_EVIDENCE), requests)
    ensures AllAcceptable(env, requests)
    ensures WithinBudget(trace.batches, state.limits)
  {
    hide Ran, TerminalLast, Kept, WithinBudget, OnePerCall, AllProper, Transcript, Coherent, Acceptable, AllAcceptable, Separates,
         SystemIsPlain, Plain, NoRepeats, Started, CourseOf, Sound, AllSent;
    NothingRan(state.limits);
    var response, messages, all, completions;
    ending, response, messages, all, completions, requests, trace := Complete(env, request, first, state, store);
    KeptIsWithin(trace.batches, state.limits, state.View());
  }

  /** The first request is acceptable, and what the loop starts from. */
  lemma FirstRequest(env: Environment, c: InitialRequest.Config, o: InitialRequest.Opening, policy: string,
                     parts: seq<RoomContext.Part>, selected: set<nat>, p: Projection)
    requires Separates(env.fp) && InitialRequest.SoundHistory(o) && Belongs(env, c, o)
    requires ProjectedAs(env.fp, InitialRequest.OpeningTurn(c, o, policy, parts), selected, p)
    ensures Acceptable(env, p.messages) && SystemIsPlain(p.messages) && Started(env, p.messages) && Plain(env.newest)
  {
    InitialRequest.OpeningRequest(env.fp, c, o, policy, parts, selected, p);
    hide *;
    FirstFits(env, c, o, p);
    StartsTheLoop(env, c, o, policy, p.messages);
  }

  lemma FirstFits(env: Environment, c: InitialRequest.Config, o: InitialRequest.Opening, p: Projection)
    requires Belongs(env, c, o) && ProtocolValid(p.messages)
    requires p.chars == Serialized(p.messages) + REQUEST_ENVELOPE_CHARS
             <= (InitialRequest.MaxContextTokens(c) - c.reserveTokens - o.manifest) * 4
    ensures Acceptable(env, p.messages)
  {
    hide ProtocolValid, Serialized, InitialRequest.MaxContextTokens;
  }

  lemma StartsTheLoop(env: Environment, c: InitialRequest.Config, o: InitialRequest.Opening, policy: string, request: seq<Message>)
    requires Belongs(env, c, o)
    requires exists mid :: InitialRequest.NoSystem(mid)
               && request == [InitialRequest.SystemMessage(policy)] + mid + [InitialRequest.UserMessage(o.request)]
    ensures SystemIsPlain(request) && Started(env, request) && Plain(env.newest)
  {
    assert request[0] in request && request[|request| - 1] in request;
  }

  /** The first request is the projection of what the turn is opened with. */
  ghost predicate IsOpening(env: Environment, c: InitialRequest.Config, o: InitialRequest.Opening, request: seq<Message>) {
    o.policy.Some?
    && exists parts, selected, p: Projection ::
         ProjectedAs(env.fp, InitialRequest.OpeningTurn(c, o, o.policy.value, parts), selected, p) && p.messages == request
         && (!o.whisper ==> RoomContext.IsCut(o.recent, parts))
  }

  /** The engine is set up with the assembler's limits and the prompt as it was put to the model. */
  predicate Belongs(env: Environment, c: InitialRequest.Config, o: InitialRequest.Opening) {
    && env.newest == InitialRequest.UserMessage(o.request)
    && env.maxTokens == InitialRequest.MaxContextTokens(c) && env.reserveTokens == c.reserveTokens
  }

  /** A turn that could be opened has sane limits. */
  lemma OpenedIsSane(env: Environment, c: InitialRequest.Config, o: InitialRequest.Opening)
    requires Belongs(env, c, o) && InitialRequest.OpeningFault(c, o).None?
    ensures SaneLimits(env)
  {
    hide InitialRequest.Offered, Serialized;
  }

  /** The turn took its course from the first response on: the end that the rules prescribe, with its cause, after
      one request for each completion, which is the one of its round. */
  ghost predicate TurnTaken(env: Environment, l: Limits, request: seq<Message>, first: Response, ending: Ending,
                            requests: seq<seq<Message>>)
    requires OnePerCall(env.execute)
  {
    var s, course := FirstRound(first, request, ONE_STEP, NO_EVIDENCE), TurnCourse(env, l, request, first);
    && ending == course.ending && |requests| == course.completions && AllSent(env, l, s, requests)
    && Sound(env, l, s, course) && SaneLimits(env)
  }

  /** CompleteWithEvidenceAndHistorical: a whole turn, from the loaded history on. It is not opened exactly for
      the fault there is. Its first completion takes a step of its own, and then it takes the course that the
      rules prescribe: with a cause for its end, and a failed projection only for want of room. In all there are
      at most MaxSteps + 2 completions, each for an acceptable request, and MaxToolCalls executed calls. */
  method CompleteTurn(env: Environment, limits: Limits, c: InitialRequest.Config, o: InitialRequest.Opening,
                      first: Option<Response>)
    returns (ending: Ending, requests: seq<seq<Message>>, ghost trace: Trace)
    requires OnePerCall(env.execute) && Separates(env.fp) && InitialRequest.SoundHistory(o) && Belongs(env, c, o)
    ensures var fault := InitialRequest.OpeningFault(c, o);
            if limits.maxSteps < 1 || limits.maxToolCalls < 1 then ending == LimitsInsufficient && requests == []
            else if fault.Some? then ending == NotAssembled(fault.value) && requests == []
            else
              requests != [] && IsOpening(env, c, o, requests[0])
              && if first.None? then ending == ProviderFailed && |requests| == 1
                 else TurnTaken(env, limits, requests[0], first.value, ending, requests[1..])
    ensures AllAcceptable(env, requests) && (requests != [] ==> |requests| <= limits.maxSteps + 2)
    ensures if requests == [] then trace == Trace([], []) else WithinBudget(trace.batches, limits)
  {
    hide WithinBudget, OnePerCall, Coherent, Acceptable, AllAcceptable, Separates, SystemIsPlain, Plain, Started, ProjectedAs,
         CourseOf, Sound, SaneLimits, AllSent,
         InitialRequest.SoundHistory, InitialRequest.OpeningTurn, InitialRequest.Payable, InitialRequest.OpeningFault;
    NoneSent(env);
    requests, trace := [], Trace([], []);
    if limits.maxSteps < 1 || limits.maxToolCalls < 1 {
      return LimitsInsufficient, requests, trace;
    }
    NothingRan(limits);
    var state := new TurnState(limits);
    var store := new ObservationStore();
    var prepared;
    ghost var parts, selected;
    prepared, parts, selected := InitialRequest.Assemble(env.fp, c, o);
    if !prepared.Prepared? {
      return NotAssembled(prepared), requests, trace;
    }
    var request := prepared.projection.messages;
    FirstRequest(env, c, o, o.policy.value, parts, selected, prepared.projection);
    OpenedIsSane(env, c, o);
    var _ := state.AdvanceStep();
    OneMoreAcceptable(env, [], request);
    requests := [request];
    assert [] + [request] == [request];
    if first.None? {
      return ProviderFailed, requests, trace;
    }
    var more;
    ending, more, trace := Follow(env, request, first.value, state, store);
    OneMoreAcceptable(env, more, request);
    requests := requests + more;
    assert requests[1..] == more;
  }
}
