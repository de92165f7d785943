/**
 One room snapshot workflow: its runner creates a session, waits for the payload,
 applies the operation and settles the outcome, while payloads, cancellation,
 transport errors and the timeout arrive whenever they like.
 */
module SnapshotWorkflow {
  import opened Options

  datatype WorkflowState = PendingState | RunningState | CompletedState | FailedState | CancelledState | TimedOutState
  datatype Outcome = Success | Empty | AbsentTarget | Skipped | Failed

  /** How a context ended; the first reason stays. */
  datatype Ended = ByCancel | ByDeadline

  /** Why a result carries an error. */
  datatype Cause =
    | CreateFailed | StartFailed | ContextEnded | ParseFailed | OperationFailed | Panicked
    | WriteFailed | FlushFailed | CloseFailed | ReplyFailed | Recorded

  // ----- the fields behind the workflow's mutex -----

  datatype Gate = Gate(claimed: bool, queued: bool, terminal: bool, failure: Option<WorkflowState>, ended: Option<Ended>)

  predicate Receives(g: Gate) {
    !g.claimed && !g.terminal && g.ended.None?
  }

  function AfterReceive(g: Gate): Gate {
    if Receives(g) then g.(claimed := true, queued := true) else g
  }

  predicate Accepts(g: Gate) {
    !g.terminal && g.failure.None?
  }

  function AfterEnd(g: Gate, how: Ended): Gate {
    if g.ended.None? then g.(ended := Some(how)) else g
  }

  function AfterFail(g: Gate, state: WorkflowState): Gate {
    if Accepts(g) then AfterEnd(g.(failure := Some(state)), ByCancel) else g
  }

  /** The failure that is in force when the workflow closes its gate. */
  function InForce(g: Gate): Option<WorkflowState> {
    if g.failure.Some? then g.failure
    else match g.ended
      case None => None
      case Some(ByCancel) => Some(CancelledState)
      case Some(ByDeadline) => Some(TimedOutState)
  }

  class WorkflowGate {
    var claimed: bool
    var queued: bool
    var terminal: bool
    var failure: Option<WorkflowState>
    var ended: Option<Ended>

    function View(): Gate
      reads this
    {
      Gate(claimed, queued, terminal, failure, ended)
    }

    constructor ()
      ensures View() == Gate(false, false, false, None, None)
    {
      claimed, queued, terminal, failure, ended := false, false, false, None, None;
    }

    method Receive() returns (accepted: bool)
      modifies `claimed, `queued
      ensures accepted <==> Receives(old(View()))
      ensures View() == AfterReceive(old(View()))
    {
      if claimed || terminal || ended.Some? {
        return false;
      }
      claimed := true;
      queued := true;
      accepted := true;
    }

    method Fail(state: WorkflowState) returns (accepted: bool)
      modifies `failure, `ended
      ensures accepted <==> Accepts(old(View()))
      ensures View() == AfterFail(old(View()), state)
    {
      if terminal || failure.Some? {
        return false;
      }
      failure := Some(state);
      if ended.None? {
        ended := Some(ByCancel);
      }
      accepted := true;
    }

    /** The closing of the gate: whatever failed before counts, nothing after does. */
    method Resolve() returns (inForce: Option<WorkflowState>)
      modifies `terminal
      ensures inForce == InForce(old(View()))
      ensures View() == old(View()).(terminal := true)
    {
      inForce := failure;
      if failure.None? && ended.Some? {
        inForce := Some(if ended.value.ByDeadline? then TimedOutState else CancelledState);
      }
      terminal := true;
    }
  }

  // ----- the runner -----

  /** An operation's own claims about what it did. */
  datatype Report = Report(outcome: Outcome, reply: bool, deliveries: nat, unknown: bool, ok: bool)

  datatype Result = Result(outcome: Outcome, reply: bool, actions: nat, deliveries: nat, unknown: bool, causes: set<Cause>)

  datatype Stage =
    | Creating | Created(ok: bool) | Starting | Waiting | Parsing | Applying
    | Leaving | Flushing | Closing | ChoosingReply | Replying | Resolving
    | Settling(inForce: Option<WorkflowState>) | Completing(state: WorkflowState) | Done(state: WorkflowState)
  {
    predicate Working() { Creating? || Created? || Starting? || Waiting? || Parsing? || Applying? }

    /** A panic here is recovered by the runner's deferred end. */
    predicate Panics() { Creating? || Starting? || Parsing? || Applying? }

    predicate Settled() { Completing? || Done? }
  }

  /** What really happened: successful outward writes, the failures among outward calls, how often the
      operation was applied, its completion reported and the session closed, what the operation said, and
      whether the workflow had been canceled, failed or timed out when its gate closed. */
  datatype History = History(writes: nat, delivered: nat, writeFailed: bool, flushFailed: bool, closeFailed: bool, replyFailed: bool,
                             panicked: bool, applied: nat, completions: nat, answered: nat, report: Option<Report>, interrupted: bool, closes: nat)

  /** The request's fixed parts: whether it has a fallback reply, and whether replies can be sent. */
  datatype Config = Config(fallbackReply: bool, replySink: bool)

  datatype Workflow = Workflow(config: Config, gate: Gate, stage: Stage, session: bool, startSent: bool, dispatched: bool,
                               actions: nat, deliveries: nat, unknown: bool, writeError: bool, result: Result, history: History)

  datatype Event =
    | Receive
    | Fail(state: WorkflowState)
    | End(how: Ended)
    | CreateEnds(session: bool, ok: bool)
    | CheckStart
    | StartEnds(ok: bool)
    | SeeEnd
    | TakePayload
    | ParseEnds(ok: bool)
    | Write(ok: bool)
    | Reply(ok: bool)
    | ApplyEnds(report: Report)
    | Panic
    | Leave
    | Flush(ok: bool)
    | Close(ok: bool)
    | ChooseReply
    | FinalReply(ok: bool)
    | Resolve
    | Settle
    | Complete

  predicate Enabled(w: Workflow, e: Event) {
    match e
    case Receive => true
    case Fail(_) => true
    case End(_) => true
    case CreateEnds(session, ok) => w.stage.Creating? && (ok ==> session)
    case CheckStart => w.stage.Created?
    case StartEnds(_) => w.stage.Starting?
    case SeeEnd => w.stage.Waiting? && w.gate.ended.Some?
    case TakePayload => w.stage.Waiting? && w.gate.queued
    case ParseEnds(_) => w.stage.Parsing?
    // A raw write is refused without effect once the context has ended.
    case Write(_) => w.stage.Applying? && w.gate.ended.None?
    case Reply(_) => w.stage.Applying? && w.config.replySink
    case ApplyEnds(_) => w.stage.Applying?
    case Panic => w.stage.Panics()
    case Leave => w.stage.Leaving?
    case Flush(_) => w.stage.Flushing?
    case Close(_) => w.stage.Closing?
    case ChooseReply => w.stage.ChoosingReply?
    case FinalReply(_) => w.stage.Replying?
    case Resolve => w.stage.Resolving?
    case Settle => w.stage.Settling?
    case Complete => w.stage.Completing?
  }

  function WithCause(r: Result, cause: Cause, holds: bool): Result {
    if holds then r.(causes := r.causes + {cause}) else r
  }

  function Leaves(w: Workflow, cause: Cause, holds: bool): Workflow {
    w.(stage := Leaving, result := WithCause(w.result, cause, holds))
  }

  function CheckStartStep(w: Workflow): Workflow
    requires w.stage.Created?
  {
    if !w.stage.ok then Leaves(w, CreateFailed, true)
    else if w.gate.ended.Some? then Leaves(w, ContextEnded, true)
    else w.(stage := Starting)
  }

  function StartEndsStep(w: Workflow, ok: bool): Workflow {
    if ok then w.(stage := Waiting, startSent := true, history := w.history.(answered := w.history.answered + 1))
    else Leaves(w, StartFailed, true)
  }

  function TakePayloadStep(w: Workflow): Workflow {
    var v := w.(gate := w.gate.(queued := false));
    if w.gate.ended.Some? then Leaves(v, ContextEnded, true) else v.(stage := Parsing)
  }

  function ParseEndsStep(w: Workflow, ok: bool): Workflow {
    if !ok then Leaves(w, ParseFailed, true)
    else w.(stage := Applying, dispatched := true, history := w.history.(applied := w.history.applied + 1))
  }

  function WriteStep(w: Workflow, ok: bool): Workflow {
    if ok then w.(actions := w.actions + 1, history := w.history.(writes := w.history.writes + 1))
    else w.(unknown := true, writeError := true, history := w.history.(writeFailed := true))
  }

  function ReplyStep(w: Workflow, ok: bool): Workflow {
    if ok then w.(actions := w.actions + 1, deliveries := w.deliveries + 1,
                  history := w.history.(writes := w.history.writes + 1, delivered := w.history.delivered + 1))
    else w.(unknown := true, writeError := true, history := w.history.(writeFailed := true))
  }

  /** The operation's result is taken over, with its error if it returned one. */
  function ApplyEndsStep(w: Workflow, report: Report): Workflow {
    w.(stage := Leaving, history := w.history.(report := Some(report)),
       result := Result(report.outcome, report.reply, w.result.actions, report.deliveries, report.unknown,
                        if report.ok then {} else {OperationFailed}))
  }

  function PanicStep(w: Workflow): Workflow {
    w.(stage := Leaving, unknown := true, result := w.result.(outcome := Failed, causes := {Panicked}),
       history := w.history.(panicked := true))
  }

  /** The head of the deferred end: the boundary's own counts replace what the operation claimed. */
  function LeaveStep(w: Workflow): Workflow {
    var r := w.result.(actions := w.actions, deliveries := w.result.deliveries + w.deliveries,
                       unknown := w.result.unknown || w.unknown);
    w.(stage := if w.session then Flushing else ChoosingReply, result := WithCause(r, WriteFailed, w.writeError))
  }

  function FlushStep(w: Workflow, ok: bool): Workflow {
    w.(stage := Closing, result := WithCause(w.result.(unknown := w.result.unknown || !ok), FlushFailed, !ok),
       history := w.history.(flushFailed := !ok))
  }

  function CloseStep(w: Workflow, ok: bool): Workflow {
    w.(stage := ChoosingReply, result := WithCause(w.result, CloseFailed, !ok),
       history := w.history.(closeFailed := !ok, closes := w.history.closes + 1))
  }

  /** A failed or interrupted workflow answers with the request's fallback. */
  predicate HasReply(w: Workflow) {
    if w.result.outcome.Failed? || w.result.causes != {} || w.gate.ended.Some? then w.config.fallbackReply else w.result.reply
  }

  function FinalReplyStep(w: Workflow, ok: bool): Workflow {
    if ok then w.(stage := Resolving, result := w.result.(actions := w.result.actions + 1, deliveries := w.result.deliveries + 1),
                  history := w.history.(writes := w.history.writes + 1, delivered := w.history.delivered + 1))
    else w.(stage := Resolving, result := WithCause(w.result.(outcome := Failed, unknown := true), ReplyFailed, true),
            history := w.history.(replyFailed := true))
  }

  function ResolveStep(w: Workflow): Workflow {
    w.(stage := Settling(InForce(w.gate)), gate := w.gate.(terminal := true),
       history := w.history.(interrupted := w.gate.failure.Some? || w.gate.ended.Some?))
  }

  /** The result and the state that are recorded, given the failure in force. */
  function SettleStep(w: Workflow): Workflow
    requires w.stage.Settling?
  {
    var failure := w.stage.inForce;
    var r := WithCause(w.result.(unknown := w.result.unknown || (failure.Some? && w.dispatched)), Recorded, failure.Some?);
    var final := if r.causes != {} then r.(outcome := Failed) else r;
    var state := if !final.outcome.Failed? then CompletedState else if failure.Some? then failure.value else FailedState;
    w.(stage := Completing(state), gate := AfterEnd(w.gate, ByCancel), result := final)
  }

  function CompleteStep(w: Workflow): Workflow
    requires w.stage.Completing?
  {
    w.(stage := Done(w.stage.state),
       history := w.history.(completions := w.history.completions + 1,
                             answered := w.history.answered + if w.startSent then 0 else 1))
  }

  function Apply(w: Workflow, e: Event): Workflow
    requires Enabled(w, e)
  {
    match e
    case Receive => w.(gate := AfterReceive(w.gate))
    case Fail(state) => w.(gate := AfterFail(w.gate, state))
    case End(how) => w.(gate := AfterEnd(w.gate, how))
    case CreateEnds(session, ok) => w.(stage := Created(ok), session := session)
    case CheckStart => CheckStartStep(w)
    case StartEnds(ok) => StartEndsStep(w, ok)
    case SeeEnd => w.(stage := Leaving)
    case TakePayload => TakePayloadStep(w)
    case ParseEnds(ok) => ParseEndsStep(w, ok)
    case Write(ok) => WriteStep(w, ok)
    case Reply(ok) => ReplyStep(w, ok)
    case ApplyEnds(report) => ApplyEndsStep(w, report)
    case Panic => PanicStep(w)
    case Leave => LeaveStep(w)
    case Flush(ok) => FlushStep(w, ok)
    case Close(ok) => CloseStep(w, ok)
    case ChooseReply => w.(stage := if HasReply(w) && w.config.replySink then Replying else Resolving)
    case FinalReply(ok) => FinalReplyStep(w, ok)
    case Resolve => ResolveStep(w)
    case Settle => SettleStep(w)
    case Complete => CompleteStep(w)
  }

  // ----- the invariant -----

  predicate GateOk(w: Workflow) {
    && (w.gate.terminal <==> w.stage.Settling? || w.stage.Settled())
    && (w.gate.failure.Some? ==> w.gate.ended.Some?)
    && (w.gate.queued ==> w.gate.claimed)
    && (w.gate.failure.Some? && w.stage.Settling? ==> w.stage.inForce == w.gate.failure)
    && (w.gate.failure.Some? && w.stage.Settled() ==> w.stage.state == w.gate.failure.value && w.result.outcome.Failed?)
  }

  /** Applied at most once, after the one claimed payload was taken; completed and answered once. */
  predicate OnceOk(w: Workflow) {
    && w.history.applied == (if w.dispatched then 1 else 0)
    && (w.dispatched ==> w.gate.claimed && !w.gate.queued && (w.stage.Applying? || !w.stage.Working()))
    && (w.stage.Parsing? ==> w.gate.claimed && !w.gate.queued && !w.dispatched)
    && (w.stage.Creating? || w.stage.Created? || w.stage.Starting? || w.stage.Waiting? ==> !w.dispatched)
    && w.history.completions == (if w.stage.Done? then 1 else 0)
    && w.history.answered == (if w.startSent || w.stage.Done? then 1 else 0)
    && (w.startSent ==> !w.stage.Creating? && !w.stage.Created? && !w.stage.Starting?)
    && (w.stage.Creating? || w.stage.Flushing? || w.stage.Closing? ==> (w.session <==> !w.stage.Creating?))
    && w.history.closes == (if w.session && !w.stage.Working() && !w.stage.Leaving? && !w.stage.Flushing? && !w.stage.Closing? then 1 else 0)
  }

  function Replied(w: Workflow): nat {
    if w.stage.Working() || w.stage.Leaving? then w.actions else w.result.actions
  }

  function ClaimedDeliveries(w: Workflow): nat {
    if w.history.report.None? then 0 else w.history.report.value.deliveries
  }

  predicate ClaimedUnknown(w: Workflow) {
    w.history.report.Some? && w.history.report.value.unknown
  }

  /** Whether something outward may or may not have happened: the operation says so, an outward call
      failed, the runner panicked, or the workflow was interrupted after the operation began. */
  predicate ReallyUnknown(w: Workflow) {
    || ClaimedUnknown(w) || w.history.writeFailed || w.history.panicked || w.history.flushFailed || w.history.replyFailed
    || (Recorded in w.result.causes && w.dispatched)
  }

  /** The counts are exact, and no failure of an outward call is forgotten. */
  predicate CountsOk(w: Workflow) {
    && Replied(w) == w.history.writes
    && (w.history.writeFailed <==> w.writeError)
    && (w.unknown <==> w.history.writeFailed || w.history.panicked)
    && (w.stage.Working() ==> w.history.report.None? && !w.result.unknown && w.result.deliveries == 0)
    && (w.stage.Working() || w.stage.Leaving? ==> w.deliveries == w.history.delivered && Recorded !in w.result.causes)
    && (w.stage.Leaving? ==> w.result.unknown == ClaimedUnknown(w) && w.result.deliveries == ClaimedDeliveries(w))
    && (!w.stage.Working() && !w.stage.Leaving? ==>
          w.result.unknown == ReallyUnknown(w) && w.result.deliveries == ClaimedDeliveries(w) + w.history.delivered)
    && (Recorded in w.result.causes ==> w.stage.Settled())
    && (w.history.writeFailed && !(w.stage.Working() || w.stage.Leaving?) ==> WriteFailed in w.result.causes)
    && (w.history.flushFailed ==> FlushFailed in w.result.causes)
    && (w.history.closeFailed ==> CloseFailed in w.result.causes)
    && (w.history.replyFailed ==> ReplyFailed in w.result.causes)
    && (w.history.panicked ==> Panicked in w.result.causes)
    && (w.stage.Working() ==> w.result.causes == {} && !w.history.panicked)
    && (w.stage.Working() || w.stage.Leaving? || w.stage.Flushing? ==>
          !w.history.flushFailed && !w.history.closeFailed && !w.history.replyFailed)
    && (w.stage.Settled() && w.result.causes != {} ==> w.result.outcome.Failed?)
  }

  predicate Inv(w: Workflow) {
    GateOk(w) && OnceOk(w) && CountsOk(w)
  }

  predicate Init(w: Workflow) {
    w == Workflow(w.config, Gate(false, false, false, None, None), Creating, false, false, false, 0, 0, false, false,
                  Result(Success, false, 0, 0, false, {}),
                  History(0, 0, false, false, false, false, false, 0, 0, 0, None, false, 0))
  }

  lemma InitInv(w: Workflow)
    requires Init(w)
    ensures Inv(w)
  {
  }

  lemma StepInv(w: Workflow, e: Event)
    requires Inv(w) && Enabled(w, e)
    ensures Inv(Apply(w, e))
  {
    hide Inv;
    match e {
      case CreateEnds(session, ok) => AfterCreateEndsInv(w, session, ok);
      case CheckStart => AfterCheckStartInv(w);
      case StartEnds(ok) => AfterStartEndsInv(w, ok);
      case SeeEnd => AfterSeeEndInv(w);
      case TakePayload => AfterTakePayloadInv(w);
      case ParseEnds(ok) => AfterParseEndsInv(w, ok);
      case Write(ok) => AfterWriteInv(w, ok);
      case Reply(ok) => AfterReplyInv(w, ok);
      case ApplyEnds(report) => AfterApplyEndsInv(w, report);
      case Panic => AfterPanicInv(w);
      case Leave => AfterLeaveInv(w);
      case Flush(ok) => AfterFlushInv(w, ok);
      case Close(ok) => AfterCloseInv(w, ok);
      case ChooseReply => AfterChooseReplyInv(w);
      case FinalReply(ok) => AfterFinalReplyInv(w, ok);
      case Resolve => AfterResolveInv(w);
      case Settle => AfterSettleInv(w);
      case Complete => AfterCompleteInv(w);
      case _ => GateInv(w, e);
    }
  }

  /** Payloads, failures and the end of the context, at any stage. */
  lemma GateInv(w: Workflow, e: Event)
    requires Inv(w) && Enabled(w, e) && (e.Receive? || e.Fail? || e.End?)
    ensures Inv(Apply(w, e))
  {
  }

  lemma AfterCreateEndsInv(w: Workflow, session: bool, ok: bool)
    requires Inv(w) && Enabled(w, CreateEnds(session, ok))
    ensures Inv(Apply(w, CreateEnds(session, ok)))
  {
  }

  lemma AfterCheckStartInv(w: Workflow)
    requires Inv(w) && Enabled(w, CheckStart)
    ensures Inv(Apply(w, CheckStart))
  {
  }

  lemma AfterStartEndsInv(w: Workflow, ok: bool)
    requires Inv(w) && Enabled(w, StartEnds(ok))
    ensures Inv(Apply(w, StartEnds(ok)))
  {
  }

  lemma AfterSeeEndInv(w: Workflow)
    requires Inv(w) && Enabled(w, SeeEnd)
    ensures Inv(Apply(w, SeeEnd))
  {
  }

  lemma AfterTakePayloadInv(w: Workflow)
    requires Inv(w) && Enabled(w, TakePayload)
    ensures Inv(Apply(w, TakePayload))
  {
  }

  lemma AfterParseEndsInv(w: Workflow, ok: bool)
    requires Inv(w) && Enabled(w, ParseEnds(ok))
    ensures Inv(Apply(w, ParseEnds(ok)))
  {
  }

  lemma AfterWriteInv(w: Workflow, ok: bool)
    requires Inv(w) && Enabled(w, Write(ok))
    ensures Inv(Apply(w, Write(ok)))
  {
  }

  lemma AfterReplyInv(w: Workflow, ok: bool)
    requires Inv(w) && Enabled(w, Reply(ok))
    ensures Inv(Apply(w, Reply(ok)))
  {
  }

  lemma AfterApplyEndsInv(w: Workflow, report: Report)
    requires Inv(w) && Enabled(w, ApplyEnds(report))
    ensures Inv(Apply(w, ApplyEnds(report)))
  {
  }

  lemma AfterPanicInv(w: Workflow)
    requires Inv(w) && Enabled(w, Panic)
    ensures Inv(Apply(w, Panic))
  {
  }

  lemma AfterLeaveInv(w: Workflow)
    requires Inv(w) && Enabled(w, Leave)
    ensures Inv(Apply(w, Leave))
  {
  }

  lemma AfterFlushInv(w: Workflow, ok: bool)
    requires Inv(w) && Enabled(w, Flush(ok))
    ensures Inv(Apply(w, Flush(ok)))
  {
  }

  lemma AfterCloseInv(w: Workflow, ok: bool)
    requires Inv(w) && Enabled(w, Close(ok))
    ensures Inv(Apply(w, Close(ok)))
  {
  }

  lemma AfterChooseReplyInv(w: Workflow)
    requires Inv(w) && Enabled(w, ChooseReply)
    ensures Inv(Apply(w, ChooseReply))
  {
  }

  lemma AfterFinalReplyInv(w: Workflow, ok: bool)
    requires Inv(w) && Enabled(w, FinalReply(ok))
    ensures Inv(Apply(w, FinalReply(ok)))
  {
  }

  lemma AfterResolveInv(w: Workflow)
    requires Inv(w) && Enabled(w, Resolve)
    ensures Inv(Apply(w, Resolve))
  {
  }

  lemma AfterSettleInv(w: Workflow)
    requires Inv(w) && Enabled(w, Settle)
    ensures Inv(Apply(w, Settle))
  {
  }

  lemma AfterCompleteInv(w: Workflow)
    requires Inv(w) && Enabled(w, Complete)
    ensures Inv(Apply(w, Complete))
  {
  }

  // ----- whole runs -----

  predicate Reaches(w: Workflow, es: seq<Event>, t: Workflow)
    decreases |es|
  {
    if es == [] then w == t
    else Enabled(w, es[0]) && Reaches(Apply(w, es[0]), es[1..], t)
  }

  lemma {:induction false} ReachesInv(w: Workflow, es: seq<Event>, t: Workflow)
    requires Inv(w) && Reaches(w, es, t)
    ensures Inv(t)
    decreases |es|
  {
    hide Inv;
    if es != [] {
      StepInv(w, es[0]);
      ReachesInv(Apply(w, es[0]), es[1..], t);
    }
  }

  /** Whatever races happen, at the end of a workflow: the operation was applied at most once and only
      to a claimed payload, completion and the start were reported exactly once, a session was closed exactly
      once, the counts are those of the successful outward calls, "unknown" is set exactly when something is, and any outcome but
      FAILED means that every write, reply, flush and close succeeded. */
  lemma {:induction false} ReportsTruthfully(w: Workflow, es: seq<Event>, t: Workflow)
    requires Init(w) && Reaches(w, es, t) && t.stage.Done?
    ensures t.history.applied <= 1 && (t.history.applied == 1 ==> t.gate.claimed)
    ensures t.history.completions == 1 && t.history.answered == 1 && t.history.closes == (if t.session then 1 else 0)
    ensures t.result.actions == t.history.writes
    ensures t.result.deliveries == t.history.delivered + ClaimedDeliveries(t)
    ensures t.result.unknown <==> ReallyUnknown(t)
    ensures !t.result.outcome.Failed? ==>
              !t.history.writeFailed && !t.history.flushFailed && !t.history.closeFailed && !t.history.replyFailed
              && !t.history.panicked && t.gate.failure.None?
  {
    InitInv(w);
    ReachesInv(w, es, t);
    hide Inv;
    InvFacts(t);
  }

  lemma InvFacts(t: Workflow)
    requires Inv(t) && t.stage.Done?
    ensures t.history.applied <= 1 && (t.history.applied == 1 ==> t.gate.claimed)
    ensures t.history.completions == 1 && t.history.answered == 1 && t.history.closes == (if t.session then 1 else 0)
    ensures t.result.actions == t.history.writes
    ensures t.result.deliveries == t.history.delivered + ClaimedDeliveries(t) && t.result.unknown == ReallyUnknown(t)
    ensures !t.result.outcome.Failed? ==>
              !t.history.writeFailed && !t.history.flushFailed && !t.history.closeFailed && !t.history.replyFailed
              && !t.history.panicked && t.gate.failure.None?
  {
  }

  // ----- an accepted failure -----

  /** What a step does to the gate. */
  function GateAfter(g: Gate, e: Event): Gate {
    match e
    case Receive => AfterReceive(g)
    case Fail(state) => AfterFail(g, state)
    case End(how) => AfterEnd(g, how)
    case TakePayload => g.(queued := false)
    case Resolve => g.(terminal := true)
    case Settle => AfterEnd(g, ByCancel)
    case _ => g
  }

  lemma GateStep(w: Workflow, e: Event)
    requires Enabled(w, e)
    ensures Apply(w, e).gate == GateAfter(w.gate, e)
  {
    match e {
      case CheckStart => assert CheckStartStep(w).gate == w.gate;
      case StartEnds(ok) => assert StartEndsStep(w, ok).gate == w.gate;
      case TakePayload => assert TakePayloadStep(w).gate == w.gate.(queued := false);
      case ParseEnds(ok) => assert ParseEndsStep(w, ok).gate == w.gate;
      case Write(ok) => assert WriteStep(w, ok).gate == w.gate;
      case Reply(ok) => assert ReplyStep(w, ok).gate == w.gate;
      case Settle => assert SettleStep(w).gate == AfterEnd(w.gate, ByCancel);
      case _ => assert Apply(w, e).gate == GateAfter(w.gate, e);
    }
  }

  /** No step forgets a failure. */
  lemma FailureStep(w: Workflow, e: Event)
    requires Enabled(w, e) && w.gate.failure.Some?
    ensures Apply(w, e).gate.failure == w.gate.failure
  {
    GateStep(w, e);
    hide Apply, Enabled;
  }

  lemma {:induction false} FailureStays(w: Workflow, es: seq<Event>, t: Workflow)
    requires Reaches(w, es, t) && w.gate.failure.Some?
    ensures t.gate.failure == w.gate.failure
    decreases |es|
  {
    if es != [] {
      FailureStep(w, es[0]);
      FailureStays(Apply(w, es[0]), es[1..], t);
    }
  }

  /** An accepted cancellation or transport failure decides the outcome: the workflow ends FAILED, in
      the state that came with it, whatever else happens. */
  lemma {:induction false} AcceptedFailureWins(w: Workflow, state: WorkflowState, es: seq<Event>, t: Workflow)
    requires Inv(w) && Accepts(w.gate) && Reaches(Apply(w, Fail(state)), es, t) && t.stage.Done?
    ensures t.stage.state == state && t.result.outcome.Failed?
  {
    StepInv(w, Fail(state));
    FailureStays(Apply(w, Fail(state)), es, t);
    ReachesInv(Apply(w, Fail(state)), es, t);
  }

  /** Once the gate is closed no failure is accepted and no payload received any more. */
  lemma NothingAfterTheGate(w: Workflow, e: Event)
    requires Inv(w) && Enabled(w, e) && w.gate.terminal
    ensures !Accepts(w.gate) && !Receives(w.gate)
    ensures Apply(w, e).gate.terminal && Apply(w, e).gate.failure == w.gate.failure
  {
    GateStep(w, e);
    hide Apply, Enabled;
  }

  /** The recorded state agrees with the outcome. */
  lemma StateMatchesOutcome(w: Workflow)
    requires Inv(w) && w.stage.Settling?
    requires w.stage.inForce != Some(CompletedState)
    ensures var t := SettleStep(w); t.stage.state.CompletedState? <==> !t.result.outcome.Failed?
    ensures w.stage.inForce.Some? ==> SettleStep(w).stage.state == w.stage.inForce.value
  {
    assert w.stage.inForce.Some? ==> Recorded in SettleStep(w).result.causes;
  }

  /** A timeout or cancellation of the context before the gate closes ends the workflow FAILED too. */
  lemma EndedContextFails(w: Workflow)
    requires Inv(w) && w.stage.Resolving? && w.gate.ended.Some?
    ensures var t := SettleStep(Apply(w, Resolve));
            t.result.outcome.Failed?
            && t.stage.state == if w.gate.failure.Some? then w.gate.failure.value
                                else if w.gate.ended.value.ByDeadline? then TimedOutState else CancelledState
  {
    assert Recorded in SettleStep(Apply(w, Resolve)).result.causes;
  }

  // ----- the outcome -----

  /** The operation returned without an error, and so did every outward call. */
  predicate WentWell(h: History) {
    && h.report.Some? && h.report.value.ok
    && !h.writeFailed && !h.flushFailed && !h.closeFailed && !h.replyFailed
  }

  /** What the runner makes of it on its way: nothing is held against a workflow that went well, and something
      is against every other. */
  predicate OutcomeOk(w: Workflow) {
    && (w.history.panicked ==> w.history.report.None?)
    && (w.history.interrupted ==> w.gate.terminal)
    && match w.stage
       case Leaving =>
         if w.history.report.None? then w.result.causes != {} || w.gate.ended.Some?
         else TakenOver(w)
              && w.result.causes == if w.history.report.value.ok then {} else {OperationFailed}
       case Flushing => Weighed(w, w.gate.ended.Some?)
       case Closing => Weighed(w, w.gate.ended.Some?) && !w.history.closeFailed
       case ChoosingReply => Weighed(w, w.gate.ended.Some?)
       case Replying => Weighed(w, w.gate.ended.Some?)
       case Resolving => Weighed(w, w.gate.ended.Some?)
       case Settling(inForce) => Weighed(w, w.history.interrupted) && (inForce.Some? <==> w.history.interrupted)
       case Completing(state) => SettledAs(w, state)
       case Done(state) => SettledAs(w, state)
       case _ => true
  }

  predicate Weighed(w: Workflow, interrupted: bool) {
    if WentWell(w.history) then w.result.causes == {} && TakenOver(w)
    else w.result.causes != {} || interrupted
  }

  predicate TakenOver(w: Workflow)
    requires w.history.report.Some?
  {
    w.result.outcome == w.history.report.value.outcome && w.result.reply == w.history.report.value.reply
  }

  predicate SettledAs(w: Workflow, state: WorkflowState) {
    && (w.result.outcome == if WentWell(w.history) && !w.history.interrupted then w.history.report.value.outcome else Failed)
    && (!w.history.interrupted ==> state == if w.result.outcome.Failed? then FailedState else CompletedState)
  }

  /** The part of the invariant that the outcome rests on. */
  predicate OutcomeRests(w: Workflow) {
    && (w.history.writeFailed <==> w.writeError)
    && (w.gate.terminal <==> w.stage.Settling? || w.stage.Settled())
    && (w.gate.failure.Some? ==> w.gate.ended.Some?)
    && (w.stage.Working() ==> w.history.report.None? && w.result.causes == {} && !w.history.panicked)
    && (w.stage.Working() || w.stage.Leaving? || w.stage.Flushing? ==>
          !w.history.flushFailed && !w.history.closeFailed && !w.history.replyFailed)
  }

  lemma InvRests(w: Workflow)
    requires Inv(w)
    ensures OutcomeRests(w)
  {
  }

  lemma StepOutcome(w: Workflow, e: Event)
    requires OutcomeRests(w) && OutcomeOk(w) && Enabled(w, e)
    ensures OutcomeOk(Apply(w, e))
  {
    hide OutcomeRests, OutcomeOk, Apply, Enabled;
    match e {
      case Receive => GateOutcome(w, e);
      case Fail(_) => GateOutcome(w, e);
      case End(_) => GateOutcome(w, e);
      case CreateEnds(_, _) => StartOutcome(w, e);
      case CheckStart => CheckStartOutcome(w, e);
      case StartEnds(_) => StartOutcome(w, e);
      case SeeEnd => PayloadOutcome(w, e);
      case TakePayload => PayloadOutcome(w, e);
      case ParseEnds(_) => PayloadOutcome(w, e);
      case Write(_) => WriteOutcome(w, e);
      case Reply(_) => WriteOutcome(w, e);
      case ApplyEnds(_) => ApplyOutcome(w, e);
      case Panic => ApplyOutcome(w, e);
      case Leave => LeaveOutcome(w, e);
      case Flush(_) => SessionOutcome(w, e);
      case Close(_) => SessionOutcome(w, e);
      case ChooseReply => ChooseReplyOutcome(w, e);
      case FinalReply(_) => FinalReplyOutcome(w, e);
      case Resolve => SettleOutcome(w, e);
      case Settle => SettleOutcome(w, e);
      case Complete => SettleOutcome(w, e);
    }
  }

  lemma GateOutcome(w: Workflow, e: Event)
    requires OutcomeRests(w) && OutcomeOk(w) && Enabled(w, e) && (e.Receive? || e.Fail? || e.End?)
    ensures OutcomeOk(Apply(w, e))
  {
  }

  lemma StartOutcome(w: Workflow, e: Event)
    requires OutcomeRests(w) && OutcomeOk(w) && Enabled(w, e) && (e.CreateEnds? || e.StartEnds?)
    ensures OutcomeOk(Apply(w, e))
  {
  }

  lemma CheckStartOutcome(w: Workflow, e: Event)
    requires OutcomeRests(w) && OutcomeOk(w) && Enabled(w, e) && e.CheckStart?
    ensures OutcomeOk(Apply(w, e))
  {
  }

  lemma PayloadOutcome(w: Workflow, e: Event)
    requires OutcomeRests(w) && OutcomeOk(w) && Enabled(w, e) && (e.SeeEnd? || e.TakePayload? || e.ParseEnds?)
    ensures OutcomeOk(Apply(w, e))
  {
  }

  lemma WriteOutcome(w: Workflow, e: Event)
    requires OutcomeRests(w) && OutcomeOk(w) && Enabled(w, e) && (e.Write? || e.Reply?)
    ensures OutcomeOk(Apply(w, e))
  {
  }

  lemma ApplyOutcome(w: Workflow, e: Event)
    requires OutcomeRests(w) && OutcomeOk(w) && Enabled(w, e) && (e.ApplyEnds? || e.Panic?)
    ensures OutcomeOk(Apply(w, e))
  {
  }

  lemma LeaveOutcome(w: Workflow, e: Event)
    requires OutcomeRests(w) && OutcomeOk(w) && Enabled(w, e) && e.Leave?
    ensures OutcomeOk(Apply(w, e))
  {
  }

  lemma SessionOutcome(w: Workflow, e: Event)
    requires OutcomeRests(w) && OutcomeOk(w) && Enabled(w, e) && (e.Flush? || e.Close?)
    ensures OutcomeOk(Apply(w, e))
  {
  }

  lemma ChooseReplyOutcome(w: Workflow, e: Event)
    requires OutcomeRests(w) && OutcomeOk(w) && Enabled(w, e) && e.ChooseReply?
    ensures OutcomeOk(Apply(w, e))
  {
  }

  lemma FinalReplyOutcome(w: Workflow, e: Event)
    requires OutcomeRests(w) && OutcomeOk(w) && Enabled(w, e) && e.FinalReply?
    ensures OutcomeOk(Apply(w, e))
  {
    hide OutcomeRests;
    if !e.ok { assert ReplyFailed in Apply(w, e).result.causes; }
  }

  lemma SettleOutcome(w: Workflow, e: Event)
    requires OutcomeRests(w) && OutcomeOk(w) && Enabled(w, e) && (e.Resolve? || e.Settle? || e.Complete?)
    ensures OutcomeOk(Apply(w, e))
  {
  }

  lemma {:induction false} ReachesOutcome(w: Workflow, es: seq<Event>, t: Workflow)
    requires Inv(w) && OutcomeOk(w) && Reaches(w, es, t)
    ensures OutcomeOk(t)
    decreases |es|
  {
    hide Inv, OutcomeOk;
    if es != [] {
      StepInv(w, es[0]);
      InvRests(w);
      StepOutcome(w, es[0]);
      ReachesOutcome(Apply(w, es[0]), es[1..], t);
    }
  }

  /** Whatever races happen, the outcome at the end is the one that the operation reported if it returned no
      error, no outward call failed and nothing had interrupted the workflow when its gate closed; and FAILED
      in every other case. An uninterrupted workflow is recorded as COMPLETED or FAILED accordingly. */
  lemma {:induction false} OutcomeIsExact(w: Workflow, es: seq<Event>, t: Workflow)
    requires Init(w) && Reaches(w, es, t) && t.stage.Done?
    ensures var h := t.history;
            t.result.outcome == if h.report.Some? && h.report.value.ok && !h.writeFailed && !h.flushFailed && !h.closeFailed
                                   && !h.replyFailed && !h.interrupted
                                then h.report.value.outcome else Failed
    ensures !t.history.interrupted ==> t.stage.state == if t.result.outcome.Failed? then FailedState else CompletedState
  {
    InitInv(w);
    ReachesOutcome(w, es, t);
  }

  /** When the reply is chosen, a workflow that went well answers what its operation wants to answer, and every
      other one with the request's fallback, provided that there is somewhere to answer. */
  lemma AnswersAsItWent(w: Workflow)
    requires Inv(w) && OutcomeOk(w) && w.stage.ChoosingReply?
    ensures var report := w.history.report;
            Apply(w, ChooseReply).stage.Replying?
            <==> w.config.replySink
                 && if WentWell(w.history) && !report.value.outcome.Failed? && w.gate.ended.None? then report.value.reply
                    else w.config.fallbackReply
  {
  }

  /** Events that do no harm: no failure, no end of the context, no panic, and every call returns without error. */
  predicate Harmless(e: Event) {
    match e
    case Fail(_) => false
    case End(_) => false
    case Panic => false
    case CreateEnds(_, ok) => ok
    case StartEnds(ok) => ok
    case ParseEnds(ok) => ok
    case Write(ok) => ok
    case Reply(ok) => ok
    case ApplyEnds(report) => report.ok
    case Flush(ok) => ok
    case Close(ok) => ok
    case FinalReply(ok) => ok
    case _ => true
  }

  /** A workflow that only such events happened to: until it has settled its context is alive, and it gets to
      its end only through the operation. */
  predicate Unharmed(w: Workflow) {
    && (w.stage.Settled() || (w.gate.ended.None? && w.gate.failure.None?))
    && !w.history.interrupted && !w.history.writeFailed && !w.history.flushFailed && !w.history.closeFailed && !w.history.replyFailed
    && (w.stage.Created? ==> w.stage.ok)
    && (w.stage.Working() || (w.history.report.Some? && w.history.report.value.ok))
    && w.history.applied == (if w.stage.Working() && !w.stage.Applying? then 0 else 1)
  }

  lemma StepUnharmed(w: Workflow, e: Event)
    requires Unharmed(w) && Enabled(w, e) && Harmless(e)
    ensures Unharmed(Apply(w, e))
  {
    if w.stage.Working() { WorkUnharmed(w, e); }
  }

  lemma WorkUnharmed(w: Workflow, e: Event)
    requires Unharmed(w) && Enabled(w, e) && Harmless(e) && w.stage.Working()
    ensures Unharmed(Apply(w, e))
  {
  }

  lemma {:induction false} ReachesUnharmed(w: Workflow, es: seq<Event>, t: Workflow)
    requires Unharmed(w) && Reaches(w, es, t) && forall i :: 0 <= i < |es| ==> Harmless(es[i])
    ensures Unharmed(t)
    decreases |es|
  {
    hide Unharmed;
    if es != [] {
      StepUnharmed(w, es[0]);
      ReachesUnharmed(Apply(w, es[0]), es[1..], t);
    }
  }

  /** A workflow that nothing harms ends with the outcome that its operation, applied once, reported. */
  lemma {:induction false} UnharmedReports(w: Workflow, es: seq<Event>, t: Workflow)
    requires Init(w) && Reaches(w, es, t) && t.stage.Done? && forall i :: 0 <= i < |es| ==> Harmless(es[i])
    ensures t.history.report.Some? && t.history.applied == 1 && t.result.outcome == t.history.report.value.outcome
    ensures t.stage.state == if t.result.outcome.Failed? then FailedState else CompletedState
  {
    ReachesUnharmed(w, es, t);
    OutcomeIsExact(w, es, t);
  }

  // ----- payloads and writes -----

  /** The first payload that comes while the workflow is alive is kept for the runner, whatever else happens, until it
      takes it; and if the context is still alive then, it is parsed. */
  lemma {:induction false} PayloadIsKept(w: Workflow, es: seq<Event>, t: Workflow)
    requires Inv(w) && !w.gate.claimed && !w.gate.terminal && w.gate.ended.None?
    requires Reaches(Apply(w, Receive), es, t) && forall i :: 0 <= i < |es| ==> !es[i].TakePayload?
    ensures t.gate.queued
    ensures t.stage.Waiting? && t.gate.ended.None? ==> Enabled(t, TakePayload) && Apply(t, TakePayload).stage.Parsing?
  {
    StaysQueued(Apply(w, Receive), es, t);
  }

  lemma {:induction false} StaysQueued(w: Workflow, es: seq<Event>, t: Workflow)
    requires w.gate.queued && Reaches(w, es, t) && forall i :: 0 <= i < |es| ==> !es[i].TakePayload?
    ensures t.gate.queued
    decreases |es|
  {
    if es != [] {
      assert !es[0].TakePayload?;
      QueuedStep(w, es[0]);
      StaysQueued(Apply(w, es[0]), es[1..], t);
    }
  }

  lemma QueuedStep(w: Workflow, e: Event)
    requires w.gate.queued && Enabled(w, e) && !e.TakePayload?
    ensures Apply(w, e).gate.queued
  {
    GateStep(w, e);
    hide Apply, Enabled;
  }

  /** What an ended context still lets happen: nothing but replies gets out, and nothing new is begun. */
  predicate Winds(w: Workflow, t: Workflow) {
    && t.gate.ended.Some?
    && t.history.writes - t.history.delivered == w.history.writes - w.history.delivered
    && (!w.stage.Parsing? && !w.stage.Applying? ==>
          !t.stage.Parsing? && !t.stage.Applying? && t.history.applied == w.history.applied
          && (!w.stage.Starting? ==> !t.stage.Starting? && t.startSent == w.startSent))
  }

  lemma WindsDown(w: Workflow, e: Event)
    requires w.gate.ended.Some? && Enabled(w, e)
    ensures Winds(w, Apply(w, e))
  {
    hide Winds, Apply, Enabled;
    match e {
      case Receive => GateWinds(w, e);
      case Fail(_) => GateWinds(w, e);
      case End(_) => GateWinds(w, e);
      case CreateEnds(_, _) => StartWinds(w, e);
      case CheckStart => StartWinds(w, e);
      case StartEnds(_) => StartWinds(w, e);
      case SeeEnd => PayloadWinds(w, e);
      case TakePayload => PayloadWinds(w, e);
      case ParseEnds(_) => PayloadWinds(w, e);
      case Write(_) => ApplyWinds(w, e);
      case Reply(_) => ApplyWinds(w, e);
      case ApplyEnds(_) => ApplyWinds(w, e);
      case Panic => ApplyWinds(w, e);
      case Leave => SessionWinds(w, e);
      case Flush(_) => SessionWinds(w, e);
      case Close(_) => SessionWinds(w, e);
      case ChooseReply => ReplyWinds(w, e);
      case FinalReply(_) => ReplyWinds(w, e);
      case Resolve => SettleWinds(w, e);
      case Settle => SettleWinds(w, e);
      case Complete => SettleWinds(w, e);
    }
  }

  lemma GateWinds(w: Workflow, e: Event)
    requires w.gate.ended.Some? && Enabled(w, e) && (e.Receive? || e.Fail? || e.End?)
    ensures Winds(w, Apply(w, e))
  {
  }

  lemma StartWinds(w: Workflow, e: Event)
    requires w.gate.ended.Some? && Enabled(w, e) && (e.CreateEnds? || e.CheckStart? || e.StartEnds?)
    ensures Winds(w, Apply(w, e))
  {
  }

  lemma PayloadWinds(w: Workflow, e: Event)
    requires w.gate.ended.Some? && Enabled(w, e) && (e.SeeEnd? || e.TakePayload? || e.ParseEnds?)
    ensures Winds(w, Apply(w, e))
  {
  }

  lemma ApplyWinds(w: Workflow, e: Event)
    requires w.gate.ended.Some? && Enabled(w, e) && (e.Write? || e.Reply? || e.ApplyEnds? || e.Panic?)
    ensures Winds(w, Apply(w, e))
  {
  }

  lemma SessionWinds(w: Workflow, e: Event)
    requires w.gate.ended.Some? && Enabled(w, e) && (e.Leave? || e.Flush? || e.Close?)
    ensures Winds(w, Apply(w, e))
  {
  }

  lemma ReplyWinds(w: Workflow, e: Event)
    requires w.gate.ended.Some? && Enabled(w, e) && (e.ChooseReply? || e.FinalReply?)
    ensures Winds(w, Apply(w, e))
  {
  }

  lemma SettleWinds(w: Workflow, e: Event)
    requires w.gate.ended.Some? && Enabled(w, e) && (e.Resolve? || e.Settle? || e.Complete?)
    ensures Winds(w, Apply(w, e))
  {
  }

  /** Once the context has ended nothing but replies gets out. */
  lemma {:induction false} EndStopsWrites(w: Workflow, es: seq<Event>, t: Workflow)
    requires w.gate.ended.Some? && Reaches(w, es, t)
    ensures t.gate.ended.Some? && t.history.writes - t.history.delivered == w.history.writes - w.history.delivered
    decreases |es|
  {
    if es != [] {
      WindsDown(w, es[0]);
      EndStopsWrites(Apply(w, es[0]), es[1..], t);
    }
    hide Apply, Enabled;
  }

  /** A workflow whose context ends before it has taken its payload never applies its operation, and one whose context
      ends before it has checked for that is not even started. */
  lemma {:induction false} NothingBeginsAfterTheEnd(w: Workflow, es: seq<Event>, t: Workflow)
    requires w.gate.ended.Some? && Reaches(w, es, t) && !w.stage.Parsing? && !w.stage.Applying?
    ensures !t.stage.Parsing? && !t.stage.Applying? && t.history.applied == w.history.applied
    ensures !w.stage.Starting? ==> !t.stage.Starting? && t.startSent == w.startSent
    decreases |es|
  {
    if es != [] {
      WindsDown(w, es[0]);
      NothingBeginsAfterTheEnd(Apply(w, es[0]), es[1..], t);
    }
    hide Apply, Enabled;
  }
}
