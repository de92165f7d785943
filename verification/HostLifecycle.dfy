/**
 HostLifecycle: one owner admits restart and shutdown requests, one runner calls
 them back when no dispatch is in progress. Every critical section is one step;
 requests, leases, cancellation, closing and the runner interleave freely.
 */
module HostLifecycle {
  import opened Options

  datatype Kind = Restart | Shutdown
  datatype Outcome = Completed(ok: bool) | ClosedFirst | Superseded
  datatype Refusal = CallerCanceled | Closed | Terminal | Unavailable | Busy

  /** An operation with two counters: how often it became active and how often it was finished. */
  datatype Operation = Operation(kind: Kind, starts: nat, finishes: nat, outcome: Option<Outcome>)

  type OpId = nat

  /** The fields behind the mutex, the wake channel of capacity one, and all operations ever made. */
  datatype Owner = Owner(pending: Option<OpId>, active: Option<OpId>, dispatches: int,
                         terminal: bool, closed: bool, canceled: bool, wake: bool, ops: seq<Operation>)

  datatype Admission = Refused(reason: Refusal) | Admitted(op: OpId, coalesced: bool)

  /** What the runner decides in its critical section. */
  datatype Decision = Shut(pending: Option<OpId>) | Again | Call(op: OpId)

  // ----- the critical sections as functions -----

  function AdmissionError(o: Owner): Option<Refusal> {
    if o.closed || o.canceled then Some(Closed) else if o.terminal then Some(Terminal) else None
  }

  function DispatchRefusal(o: Owner, callerCanceled: bool): Option<Refusal> {
    if callerCanceled then Some(CallerCanceled)
    else if AdmissionError(o).Some? then AdmissionError(o)
    else if o.pending.Some? || o.active.Some? then Some(Busy)
    else None
  }

  function AfterBegin(o: Owner, callerCanceled: bool): Owner {
    if DispatchRefusal(o, callerCanceled).Some? then o else o.(dispatches := o.dispatches + 1)
  }

  function AfterRelease(o: Owner): Owner {
    o.(dispatches := o.dispatches - 1, wake := true)
  }

  /** finish: only the first outcome counts. */
  function Finished(op: Operation, outcome: Outcome): Operation {
    op.(finishes := op.finishes + 1, outcome := if op.outcome.None? then Some(outcome) else op.outcome)
  }

  function FinishedAt(ops: seq<Operation>, i: OpId, outcome: Outcome): seq<Operation>
    requires i < |ops|
  {
    ops[i := Finished(ops[i], outcome)]
  }

  predicate Holds(slot: Option<OpId>, ops: seq<Operation>, kind: Kind) {
    slot.Some? && slot.value < |ops| && ops[slot.value].kind == kind
  }

  /** The answer to a request. */
  function Answer(o: Owner, kind: Kind, available: bool, callerCanceled: bool): Admission {
    if callerCanceled then Refused(CallerCanceled)
    else if o.closed || o.canceled then Refused(Closed)
    else if !available then Refused(Unavailable)
    else if o.terminal && kind.Restart? then Refused(Terminal)
    else if Holds(o.active, o.ops, kind) then Admitted(o.active.value, true)
    else if Holds(o.pending, o.ops, kind) then Admitted(o.pending.value, true)
    else if o.terminal then Refused(Terminal)
    else Admitted(|o.ops|, false)
  }

  predicate SlotsIn(o: Owner) {
    (o.pending.Some? ==> o.pending.value < |o.ops|) && (o.active.Some? ==> o.active.value < |o.ops|)
  }

  /** A new request takes the pending slot; what was pending is finished as superseded. */
  function Inserted(o: Owner, kind: Kind): Owner
    requires SlotsIn(o)
  {
    var ops := if o.pending.Some? then FinishedAt(o.ops, o.pending.value, Superseded) else o.ops;
    o.(terminal := o.terminal || kind.Shutdown?, pending := Some(|o.ops|), wake := true,
       ops := ops + [Operation(kind, 0, 0, None)])
  }

  function AfterRequest(o: Owner, kind: Kind, available: bool, callerCanceled: bool): Owner
    requires SlotsIn(o)
  {
    var answer := Answer(o, kind, available, callerCanceled);
    if answer.Admitted? && !answer.coalesced then Inserted(o, kind) else o
  }

  function AfterCheck(o: Owner): (Owner, Decision)
    requires SlotsIn(o)
  {
    if o.closed || o.canceled then (o.(closed := true), Shut(o.pending))
    else if o.dispatches != 0 || o.pending.None? then (o, Again)
    else
      var i := o.pending.value;
      (o.(pending := None, active := Some(i), ops := o.ops[i := o.ops[i].(starts := o.ops[i].starts + 1)]), Call(i))
  }

  function AfterActive(o: Owner): Owner {
    o.(active := None, wake := o.wake || o.pending.Some?)
  }

  function AfterClose(o: Owner): Owner {
    o.(closed := true, canceled := true, wake := true)
  }

  // ----- the owner -----

  class LifecycleOwner {
    var pending: Option<OpId>
    var active: Option<OpId>
    var dispatches: int
    var terminal: bool
    var closed: bool
    var canceled: bool
    var wake: bool
    var ops: seq<Operation>
    const hasRestart: bool
    const hasShutdown: bool

    function View(): Owner
      reads this
    {
      Owner(pending, active, dispatches, terminal, closed, canceled, wake, ops)
    }

    constructor (hasRestart: bool, hasShutdown: bool)
      ensures View() == Owner(None, None, 0, false, false, false, false, [])
      ensures this.hasRestart == hasRestart && this.hasShutdown == hasShutdown
    {
      this.hasRestart, this.hasShutdown := hasRestart, hasShutdown;
      pending, active, dispatches := None, None, 0;
      terminal, closed, canceled, wake, ops := false, false, false, false, [];
    }

    method BeginDispatch(callerCanceled: bool) returns (refusal: Option<Refusal>)
      modifies `dispatches
      ensures refusal == DispatchRefusal(old(View()), callerCanceled)
      ensures View() == AfterBegin(old(View()), callerCanceled)
    {
      if callerCanceled {
        return Some(CallerCanceled);
      }
      if closed || canceled {
        return Some(Closed);
      }
      if terminal {
        return Some(Terminal);
      }
      if pending.Some? || active.Some? {
        return Some(Busy);
      }
      dispatches := dispatches + 1;
      refusal := None;
    }

    method Release()
      modifies `dispatches, `wake
      ensures View() == AfterRelease(old(View()))
    {
      dispatches := dispatches - 1;
      wake := true;
    }

    method Request(kind: Kind, callerCanceled: bool) returns (admission: Admission)
      requires SlotsIn(View())
      modifies `pending, `terminal, `wake, `ops
      ensures admission == Answer(old(View()), kind, if kind.Restart? then hasRestart else hasShutdown, callerCanceled)
      ensures View() == AfterRequest(old(View()), kind, if kind.Restart? then hasRestart else hasShutdown, callerCanceled)
    {
      if callerCanceled {
        return Refused(CallerCanceled);
      }
      if closed || canceled {
        return Refused(Closed);
      }
      if (kind.Restart? && !hasRestart) || (kind.Shutdown? && !hasShutdown) {
        return Refused(Unavailable);
      }
      if terminal && !kind.Shutdown? {
        return Refused(Terminal);
      }
      var slots := [active, pending];
      for i := 0 to 2
        invariant forall j :: 0 <= j < i ==> !Holds(slots[j], ops, kind)
      {
        if slots[i].Some? && ops[slots[i].value].kind == kind {
          assert i == 1 ==> !Holds(slots[0], ops, kind);
          return Admitted(slots[i].value, true);
        }
      }
      assert !Holds(slots[0], ops, kind) && !Holds(slots[1], ops, kind);
      if terminal {
        return Refused(Terminal);
      }
      if kind.Shutdown? {
        terminal := true;
      }
      var superseded, operation := pending, |ops|;
      ops := ops + [Operation(kind, 0, 0, None)];
      pending := Some(operation);
      if superseded.Some? {
        ops := FinishedAt(ops, superseded.value, Superseded);
      }
      wake := true;
      admission := Admitted(operation, false);
    }

    /** The runner's look at the slots after it woke up. */
    method Check() returns (decision: Decision)
      requires SlotsIn(View())
      modifies `closed, `pending, `active, `ops
      ensures (View(), decision) == AfterCheck(old(View()))
    {
      if closed || canceled {
        closed := true;
        return Shut(pending);
      }
      if dispatches != 0 || pending.None? {
        return Again;
      }
      var operation := pending.value;
      pending, active := None, Some(operation);
      ops := ops[operation := ops[operation].(starts := ops[operation].starts + 1)];
      decision := Call(operation);
    }

    method Finish(i: OpId, outcome: Outcome)
      requires i < |ops|
      modifies `ops
      ensures ops == FinishedAt(old(ops), i, outcome)
    {
      var op := ops[i];
      if op.outcome.None? {
        op := op.(outcome := Some(outcome));
      }
      ops := ops[i := op.(finishes := op.finishes + 1)];
    }

    method ClearActive()
      modifies `active, `wake
      ensures View() == AfterActive(old(View()))
    {
      active := None;
      if pending.Some? {
        wake := true;
      }
    }

    method ClearPending()
      modifies `pending
      ensures View() == old(View()).(pending := None)
    {
      pending := None;
    }

    /** Close, up to its wait for the runner. */
    method Close()
      modifies `closed, `canceled, `wake
      ensures View() == AfterClose(old(View()))
    {
      closed, canceled, wake := true, true, true;
    }
  }

  // ----- the whole system -----

  /** Where the runner is. */
  datatype Runner =
    | Waiting
    | Awake
    | Calling(op: OpId)
    | InCallback(op: OpId)
    | Returned(op: OpId, ok: bool)
    | Settled(op: OpId)
    | ClosingPending(op: OpId)
    | ClosingSlot
    | Gone
  {
    predicate Serving() { Calling? || InCallback? || Returned? || Settled? }

    predicate Leaving() { ClosingPending? || ClosingSlot? || Gone? }
  }

  type LeaseId = nat

  datatype System = System(owner: Owner, runner: Runner, leases: set<LeaseId>, sleepers: set<nat>)

  datatype Event =
    | Begin(lease: LeaseId, callerCanceled: bool)
    | Release(lease: LeaseId)
    | Request(kind: Kind, available: bool, callerCanceled: bool)
    | ParentCancel
    | Close
    | Wake(byToken: bool)
    | Check
    | StartCallback
    | ReturnCallback(ok: bool)
    | Finish
    | ClearActive
    | FinishPending
    | ClearPending
    | Sleep(waiter: nat)

  predicate Enabled(s: System, e: Event) {
    match e
    case Begin(lease, _) => lease !in s.leases
    case Release(lease) => lease in s.leases
    case Request(_, _, _) => true
    case ParentCancel => true
    case Close => true
    case Wake(byToken) => s.runner.Waiting? && (if byToken then s.owner.wake else s.owner.canceled)
    case Check => s.runner.Awake?
    case StartCallback => s.runner.Calling?
    case ReturnCallback(_) => s.runner.InCallback?
    case Finish => s.runner.Returned?
    case ClearActive => s.runner.Settled?
    case FinishPending => s.runner.ClosingPending?
    case ClearPending => s.runner.ClosingSlot?
    case Sleep(_) => s.owner.pending.Some? || s.owner.active.Some?
  }

  /** A lease is taken only if the dispatch was admitted. */
  function BeginStep(s: System, lease: LeaseId, callerCanceled: bool): System {
    if DispatchRefusal(s.owner, callerCanceled).Some? then s
    else s.(owner := AfterBegin(s.owner, callerCanceled), leases := s.leases + {lease})
  }

  function CheckStep(s: System): System
    requires SlotsIn(s.owner)
  {
    var (owner, decision) := AfterCheck(s.owner);
    s.(owner := owner, runner := match decision
      case Again => Waiting
      case Call(op) => Calling(op)
      case Shut(pending) => if pending.Some? then ClosingPending(pending.value) else ClosingSlot)
  }

  /** callHostLifecycle: a canceled context keeps the callback from starting. */
  function StartStep(s: System): System
    requires s.runner.Calling?
  {
    s.(runner := if s.owner.canceled then Returned(s.runner.op, false) else InCallback(s.runner.op))
  }

  function FinishStep(s: System): System
    requires s.runner.Returned? && s.runner.op < |s.owner.ops|
  {
    s.(owner := s.owner.(ops := FinishedAt(s.owner.ops, s.runner.op, Completed(s.runner.ok))), runner := Settled(s.runner.op))
  }

  function FinishPendingStep(s: System): System
    requires s.runner.ClosingPending? && s.runner.op < |s.owner.ops|
  {
    s.(owner := s.owner.(ops := FinishedAt(s.owner.ops, s.runner.op, ClosedFirst)), runner := ClosingSlot)
  }

  function Apply(s: System, e: Event): System
    requires Inv(s) && Enabled(s, e)
  {
    match e
    case Begin(lease, callerCanceled) => BeginStep(s, lease, callerCanceled)
    case Release(lease) => s.(owner := AfterRelease(s.owner), leases := s.leases - {lease})
    case Request(kind, available, callerCanceled) => s.(owner := AfterRequest(s.owner, kind, available, callerCanceled))
    case ParentCancel => s.(owner := s.owner.(canceled := true))
    case Close => s.(owner := AfterClose(s.owner))
    case Wake(byToken) => s.(owner := s.owner.(wake := s.owner.wake && !byToken), runner := Awake)
    case Check => CheckStep(s)
    case StartCallback => StartStep(s)
    case ReturnCallback(ok) => s.(runner := Returned(s.runner.op, ok))
    case Finish => FinishStep(s)
    case ClearActive => s.(owner := AfterActive(s.owner), runner := Waiting, sleepers := {})
    case FinishPending => FinishPendingStep(s)
    case ClearPending => s.(owner := s.owner.(pending := None, canceled := true), runner := Gone, sleepers := {})
    case Sleep(waiter) => s.(sleepers := s.sleepers + {waiter})
  }

  // ----- the invariant -----

  /** The operation still waits for its one completion. */
  predicate Live(s: System, i: OpId) {
    || (s.owner.pending == Some(i) && !s.runner.ClosingSlot?)
    || (s.owner.active == Some(i) && !s.runner.Settled?)
  }

  predicate OpOk(s: System, i: OpId)
    requires i < |s.owner.ops|
  {
    var op := s.owner.ops[i];
    && op.finishes == (if Live(s, i) then 0 else 1)
    && (op.outcome.Some? <==> op.finishes == 1)
    && op.starts <= 1
    && (s.owner.pending == Some(i) ==> op.starts == 0)
    && (op.outcome == Some(Superseded) ==> op.kind.Restart? && op.starts == 0)
  }

  predicate SlotsOk(s: System) {
    && SlotsIn(s.owner)
    && (s.owner.active.Some? <==> s.runner.Serving())
    && (s.runner.Serving() ==> s.owner.active == Some(s.runner.op))
    && (s.owner.pending.Some? ==> s.owner.pending != s.owner.active)
    && (s.runner.ClosingPending? ==> s.owner.pending == Some(s.runner.op))
    && (s.runner.Gone? ==> s.owner.pending.None?)
    && (s.runner.Leaving() ==> s.owner.closed)
    && (s.owner.closed ==> s.owner.canceled)
    && (s.sleepers != {} ==> s.owner.pending.Some? || s.owner.active.Some?)
  }

  /** No callback overlaps a dispatch. */
  predicate LeasesOk(s: System) {
    && s.owner.dispatches == |s.leases|
    && (s.owner.active.Some? ==> s.leases == {})
  }

  /** No lost wakeup: the runner does not sleep over a request it could take. */
  predicate WakeOk(s: System) {
    s.owner.pending.Some? && s.leases == {} && s.runner.Waiting? ==> s.owner.wake || s.owner.canceled
  }

  predicate KindsOk(s: System) {
    var o := s.owner;
    && (o.terminal <==> exists i :: 0 <= i < |o.ops| && o.ops[i].kind.Shutdown?)
    && (forall i, j :: 0 <= i < j < |o.ops| ==> !(o.ops[i].kind.Shutdown? && o.ops[j].kind.Shutdown?))
    && (o.terminal && o.pending.Some? ==> o.pending.value < |o.ops| && o.ops[o.pending.value].kind.Shutdown?)
    && (o.active.Some? && o.pending.Some? ==> Holds(o.active, o.ops, Restart) && Holds(o.pending, o.ops, Shutdown))
  }

  predicate Inv(s: System) {
    && SlotsOk(s) && LeasesOk(s) && WakeOk(s) && KindsOk(s)
    && forall i :: 0 <= i < |s.owner.ops| ==> OpOk(s, i)
  }

  predicate Init(s: System) {
    s == System(Owner(None, None, 0, false, false, false, false, []), Waiting, {}, {})
  }

  lemma InitInv(s: System)
    requires Init(s)
    ensures Inv(s)
  {
  }

  lemma StepInv(s: System, e: Event)
    requires Inv(s) && Enabled(s, e)
    ensures Inv(Apply(s, e))
  {
    match e {
      case Request(kind, available, callerCanceled) => RequestInv(s, kind, available, callerCanceled);
      case Check => CheckInv(s);
      case Finish => FinishInv(s);
      case FinishPending => FinishPendingInv(s);
      case ClearPending => ClearPendingInv(s);
      case ClearActive => ClearActiveInv(s);
      case Release(lease) => ReleaseInv(s, lease);
      case Begin(lease, callerCanceled) => BeginInv(s, lease, callerCanceled);
      case _ => QuietInv(s, e);
    }
  }

  lemma QuietInv(s: System, e: Event)
    requires Inv(s) && Enabled(s, e)
    requires e.ParentCancel? || e.Close? || e.Wake? || e.StartCallback? || e.ReturnCallback? || e.Sleep?
    ensures Inv(Apply(s, e))
  {
    var t := Apply(s, e);
    assert t.owner.ops == s.owner.ops && t.owner.pending == s.owner.pending && t.owner.active == s.owner.active;
    forall i | 0 <= i < |t.owner.ops| ensures OpOk(t, i) { assert OpOk(s, i); }
  }

  lemma BeginInv(s: System, lease: LeaseId, callerCanceled: bool)
    requires Inv(s) && lease !in s.leases
    ensures Inv(BeginStep(s, lease, callerCanceled))
  {
    var t := BeginStep(s, lease, callerCanceled);
    forall i | 0 <= i < |t.owner.ops| ensures OpOk(t, i) { assert OpOk(s, i); }
  }

  lemma ReleaseInv(s: System, lease: LeaseId)
    requires Inv(s) && lease in s.leases
    ensures Inv(Apply(s, Release(lease)))
  {
    var t := Apply(s, Release(lease));
    forall i | 0 <= i < |t.owner.ops| ensures OpOk(t, i) { assert OpOk(s, i); }
  }

  lemma RequestInv(s: System, kind: Kind, available: bool, callerCanceled: bool)
    requires Inv(s)
    ensures Inv(Apply(s, Request(kind, available, callerCanceled)))
  {
    var t := Apply(s, Request(kind, available, callerCanceled));
    if t.owner != s.owner {
      assert t.owner == Inserted(s.owner, kind);
      forall i | 0 <= i < |t.owner.ops| ensures OpOk(t, i) {
        if i < |s.owner.ops| { assert OpOk(s, i); }
      }
      assert t.owner.ops[|s.owner.ops|].kind == kind;
    }
  }

  lemma CheckInv(s: System)
    requires Inv(s) && s.runner.Awake?
    ensures Inv(CheckStep(s))
  {
    var t := CheckStep(s);
    assert forall i :: 0 <= i < |s.owner.ops| ==> t.owner.ops[i].kind == s.owner.ops[i].kind;
    forall i | 0 <= i < |t.owner.ops| ensures OpOk(t, i) { assert OpOk(s, i); }
  }

  lemma FinishInv(s: System)
    requires Inv(s) && s.runner.Returned?
    ensures s.runner.op < |s.owner.ops| && Inv(FinishStep(s))
  {
    assert s.owner.active == Some(s.runner.op);
    var t := FinishStep(s);
    assert forall i :: 0 <= i < |s.owner.ops| ==> t.owner.ops[i].kind == s.owner.ops[i].kind;
    forall i | 0 <= i < |t.owner.ops| ensures OpOk(t, i) { assert OpOk(s, i); }
  }

  lemma FinishPendingInv(s: System)
    requires Inv(s) && s.runner.ClosingPending?
    ensures s.runner.op < |s.owner.ops| && Inv(FinishPendingStep(s))
  {
    var t := FinishPendingStep(s);
    assert forall i :: 0 <= i < |s.owner.ops| ==> t.owner.ops[i].kind == s.owner.ops[i].kind;
    forall i | 0 <= i < |t.owner.ops| ensures OpOk(t, i) { assert OpOk(s, i); }
  }

  lemma ClearPendingInv(s: System)
    requires Inv(s) && s.runner.ClosingSlot?
    ensures Inv(Apply(s, ClearPending))
  {
    var t := Apply(s, ClearPending);
    forall i | 0 <= i < |t.owner.ops| ensures OpOk(t, i) { assert OpOk(s, i); }
  }

  lemma ClearActiveInv(s: System)
    requires Inv(s) && s.runner.Settled?
    ensures Inv(Apply(s, ClearActive))
  {
    var t := Apply(s, ClearActive);
    forall i | 0 <= i < |t.owner.ops| ensures OpOk(t, i) { assert OpOk(s, i); }
  }

  // ----- whole runs -----

  predicate Reaches(s: System, es: seq<Event>, t: System)
    requires Inv(s)
    decreases |es|
  {
    if es == [] then s == t
    else Enabled(s, es[0]) && (StepInv(s, es[0]); Reaches(Apply(s, es[0]), es[1..], t))
  }

  lemma {:induction false} ReachesInv(s: System, es: seq<Event>, t: System)
    requires Inv(s) && Reaches(s, es, t)
    ensures Inv(t)
    decreases |es|
  {
    if es != [] {
      StepInv(s, es[0]);
      ReachesInv(Apply(s, es[0]), es[1..], t);
    }
  }

  /** In every reachable state: a callback runs only while no dispatch is in progress, two taken slots
      are an active restart and a pending shutdown, and every admitted operation was finished at most
      once, exactly once unless it still sits in a slot. */
  lemma {:induction false} ReachableIsSafe(s: System, es: seq<Event>, t: System)
    requires Init(s) && Inv(s) && Reaches(s, es, t)
    ensures t.runner.InCallback? ==> t.leases == {} && t.owner.dispatches == 0
    ensures t.owner.active.Some? && t.owner.pending.Some? ==>
              Holds(t.owner.active, t.owner.ops, Restart) && Holds(t.owner.pending, t.owner.ops, Shutdown)
    ensures forall i :: 0 <= i < |t.owner.ops| ==>
              t.owner.ops[i].finishes <= 1 && t.owner.ops[i].starts <= 1
              && (t.owner.ops[i].finishes == 1 || t.owner.pending == Some(i) || t.owner.active == Some(i))
    ensures forall i, j :: 0 <= i < j < |t.owner.ops| ==> !(t.owner.ops[i].kind.Shutdown? && t.owner.ops[j].kind.Shutdown?)
  {
    ReachesInv(s, es, t);
    forall i | 0 <= i < |t.owner.ops|
      ensures t.owner.ops[i].finishes <= 1 && t.owner.ops[i].starts <= 1
              && (t.owner.ops[i].finishes == 1 || t.owner.pending == Some(i) || t.owner.active == Some(i))
    {
      assert OpOk(t, i);
    }
  }

  /** Once the runner is gone, which Close waits for, every operation ever admitted was finished
      exactly once, and nobody still sleeps in Wait. */
  lemma {:induction false} AllFinishedAtTheEnd(s: System, es: seq<Event>, t: System, i: OpId)
    requires Init(s) && Inv(s) && Reaches(s, es, t) && t.runner.Gone? && i < |t.owner.ops|
    ensures t.owner.ops[i].finishes == 1 && t.owner.ops[i].outcome.Some? && t.sleepers == {}
  {
    ReachesInv(s, es, t);
    assert OpOk(t, i);
  }

  predicate IsRunner(e: Event) {
    e.Wake? || e.Check? || e.StartCallback? || e.ReturnCallback? || e.Finish? || e.ClearActive? || e.FinishPending? || e.ClearPending?
  }

  /** The next step of the runner; None while it sleeps for good reason or is gone. */
  function Next(s: System): Option<Event> {
    match s.runner
    case Waiting => if s.owner.wake then Some(Wake(true)) else if s.owner.canceled then Some(Wake(false)) else None
    case Awake => Some(Check)
    case Calling(_) => Some(StartCallback)
    case InCallback(_) => Some(ReturnCallback(true))
    case Returned(_, _) => Some(Finish)
    case Settled(_) => Some(ClearActive)
    case ClosingPending(_) => Some(FinishPending)
    case ClosingSlot => Some(ClearPending)
    case Gone => None
  }

  /** No stranded work: when the runner cannot move, every unfinished operation is the pending one,
      and a dispatch still holds it up. */
  lemma StuckMeansHeldUp(s: System, i: OpId)
    requires Inv(s) && Next(s).None? && i < |s.owner.ops| && s.owner.ops[i].finishes == 0
    ensures s.owner.pending == Some(i) && s.leases != {} && s.owner.dispatches > 0
  {
    assert OpOk(s, i);
    LeaseCount(s.leases);
  }

  lemma LeaseCount(leases: set<LeaseId>)
    ensures leases != {} <==> |leases| > 0
  {
  }

  /** No lost wakeup: a pending request that no dispatch holds up is taken in two steps of the
      sleeping runner, for its callback or, once closed, for its closing result. */
  lemma PendingIsTaken(s: System, i: OpId)
    requires Inv(s) && s.owner.pending == Some(i) && s.leases == {} && s.runner.Waiting?
    ensures Next(s).Some? && Enabled(s, Next(s).value)
    ensures var t := Apply(s, Next(s).value);
            t.runner.Awake? && Inv(t)
            && CheckStep(t).runner == (if s.owner.closed || s.owner.canceled then ClosingPending(i) else Calling(i))
  {
    StepInv(s, Next(s).value);
  }

  function Rank(r: Runner): nat {
    match r
    case Calling(_) => 8
    case InCallback(_) => 7
    case Returned(_, _) => 6
    case Settled(_) => 5
    case Waiting => 4
    case Awake => 3
    case ClosingPending(_) => 2
    case ClosingSlot => 1
    case Gone => 0
  }

  /** Once the context is canceled (closing and the parent both do it) the runner always has a step,
      each of its steps brings it closer to its end, and nothing else moves it back. */
  lemma ClosingEnds(s: System, e: Event)
    requires Inv(s) && Enabled(s, e) && s.owner.canceled
    ensures !s.runner.Gone? ==> Next(s).Some? && Enabled(s, Next(s).value)
    ensures Apply(s, e).owner.canceled
    ensures if IsRunner(e) then Rank(Apply(s, e).runner) < Rank(s.runner) else Apply(s, e).runner == s.runner
  {
  }

  // ----- shutdown -----

  /** Only an admitted shutdown supersedes, and only a restart that never started. */
  lemma Supersession(s: System, e: Event, i: OpId)
    requires Inv(s) && Enabled(s, e) && i < |s.owner.ops|
    requires s.owner.ops[i].outcome != Some(Superseded)
    ensures |Apply(s, e).owner.ops| >= |s.owner.ops|
    ensures Apply(s, e).owner.ops[i].outcome == Some(Superseded) <==>
              e.Request? && e.kind.Shutdown? && s.owner.pending == Some(i)
              && Answer(s.owner, e.kind, e.available, e.callerCanceled) == Admitted(|s.owner.ops|, false)
    ensures Apply(s, e).owner.ops[i].outcome == Some(Superseded) ==> s.owner.ops[i].kind.Restart? && s.owner.ops[i].starts == 0
  {
    assert OpOk(s, i);
    if e.Request? && s.owner.pending == Some(i)
       && Answer(s.owner, e.kind, e.available, e.callerCanceled) == Admitted(|s.owner.ops|, false) {
      SupersedingKind(s, e.kind, e.available, e.callerCanceled, i);
    }
  }

  lemma SupersedingKind(s: System, kind: Kind, available: bool, callerCanceled: bool, i: OpId)
    requires Inv(s) && s.owner.pending == Some(i)
    requires Answer(s.owner, kind, available, callerCanceled) == Admitted(|s.owner.ops|, false)
    ensures kind.Shutdown? && s.owner.ops[i].kind.Restart?
  {
    assert !Holds(s.owner.pending, s.owner.ops, kind);
  }

  /** Once terminal, nothing new is admitted and no restart becomes active any more. */
  lemma TerminalStep(s: System, e: Event)
    requires Inv(s) && Enabled(s, e) && s.owner.terminal
    ensures var t := Apply(s, e);
            t.owner.terminal && |t.owner.ops| == |s.owner.ops|
            && (forall i :: 0 <= i < |s.owner.ops| ==>
                  t.owner.ops[i].kind == s.owner.ops[i].kind
                  && (s.owner.ops[i].kind.Restart? ==> t.owner.ops[i].starts == s.owner.ops[i].starts))
            && (Holds(t.owner.active, t.owner.ops, Restart) ==> t.owner.active == s.owner.active)
  {
    hide LeasesOk, WakeOk, OpOk;
    match e {
      case Request(kind, available, callerCanceled) => TerminalRequest(s, kind, available, callerCanceled);
      case Check => TerminalCheck(s);
      case _ =>
    }
  }

  lemma TerminalRequest(s: System, kind: Kind, available: bool, callerCanceled: bool)
    requires SlotsIn(s.owner) && s.owner.terminal
    ensures AfterRequest(s.owner, kind, available, callerCanceled) == s.owner
  {
  }

  /** What is pending behind a shutdown is the shutdown. */
  lemma TerminalCheck(s: System)
    requires Inv(s) && s.runner.Awake? && s.owner.terminal
    ensures var t := CheckStep(s);
            t.owner.terminal && |t.owner.ops| == |s.owner.ops|
            && (forall i :: 0 <= i < |s.owner.ops| ==>
                  t.owner.ops[i].kind == s.owner.ops[i].kind
                  && (s.owner.ops[i].kind.Restart? ==> t.owner.ops[i].starts == s.owner.ops[i].starts))
            && (Holds(t.owner.active, t.owner.ops, Restart) ==> t.owner.active == s.owner.active)
  {
    hide LeasesOk, WakeOk, OpOk;
  }

  /** After a shutdown was admitted no restart becomes active, in any run: a restart callback that is
      found running was already active when the shutdown was admitted. */
  lemma {:induction false} NoRestartAfterShutdown(s: System, es: seq<Event>, t: System)
    requires Inv(s) && Reaches(s, es, t) && s.owner.terminal
    ensures t.owner.terminal && |t.owner.ops| == |s.owner.ops|
    ensures forall i :: 0 <= i < |s.owner.ops| ==>
              t.owner.ops[i].kind == s.owner.ops[i].kind
              && (s.owner.ops[i].kind.Restart? ==> t.owner.ops[i].starts == s.owner.ops[i].starts)
    ensures Holds(t.owner.active, t.owner.ops, Restart) ==> t.owner.active == s.owner.active
    decreases |es|
  {
    if es != [] {
      TerminalStep(s, es[0]);
      StepInv(s, es[0]);
      NoRestartAfterShutdown(Apply(s, es[0]), es[1..], t);
    }
  }

  /** A restart that is active but not yet called does begin its callback after the shutdown was
      admitted: activation, not the call, is what the admission cuts off. */
  lemma ActiveRestartStillBegins(s: System, i: OpId)
    requires Inv(s) && s.runner == Calling(i) && i < |s.owner.ops| && s.owner.ops[i].kind.Restart?
    requires !s.owner.terminal && !s.owner.canceled && s.owner.pending.None?
    ensures var t := Apply(s, Request(Shutdown, true, false));
            t.owner.terminal && t.owner.pending == Some(|s.owner.ops|) && Inv(t)
            && Enabled(t, StartCallback) && Apply(t, StartCallback).runner == InCallback(i)
  {
    StepInv(s, Request(Shutdown, true, false));
  }

  /** After the run es from s, restart i begins its callback. */
  ghost predicate Begins(s: System, es: seq<Event>, t: System, i: OpId) {
    Inv(s) && Reaches(s, es, t) && Inv(t) && t.runner.Calling? && Apply(t, StartCallback).runner == InCallback(i)
  }

  lemma NotCalledStep(s: System, e: Event, i: OpId)
    requires Inv(s) && Enabled(s, e) && s.owner.terminal && i < |s.owner.ops| && s.owner.ops[i].kind.Restart?
    requires s.runner == Calling(i) ==> s.owner.canceled
    ensures Apply(s, e).runner == Calling(i) ==> Apply(s, e).owner.canceled
  {
  }

  lemma {:induction false} NotCalled(s: System, es: seq<Event>, t: System, i: OpId)
    requires Inv(s) && Reaches(s, es, t) && s.owner.terminal && i < |s.owner.ops| && s.owner.ops[i].kind.Restart?
    requires s.runner == Calling(i) ==> s.owner.canceled
    ensures t.runner == Calling(i) ==> t.owner.canceled
    decreases |es|
  {
    if es != [] {
      StepInv(s, es[0]);
      TerminalStep(s, es[0]);
      NotCalledStep(s, es[0], i);
      NotCalled(Apply(s, es[0]), es[1..], t, i);
    }
  }

  /** Once a shutdown was admitted, a restart still begins its callback in some run exactly if the runner is
      about to call it and the context is not canceled: activation is what the admission cuts off, not the call. */
  lemma RestartStillBeginsIff(s: System, i: OpId)
    requires Inv(s) && s.owner.terminal && i < |s.owner.ops| && s.owner.ops[i].kind.Restart?
    ensures (exists es, t :: Begins(s, es, t, i)) <==> s.runner == Calling(i) && !s.owner.canceled
  {
    if s.runner == Calling(i) && !s.owner.canceled {
      assert Begins(s, [], s, i);
    }
    forall es, t | Begins(s, es, t, i) ensures s.runner == Calling(i) && !s.owner.canceled {
      if !(s.runner == Calling(i) && !s.owner.canceled) { NotCalled(s, es, t, i); }
    }
  }

  const INITIAL := System(Owner(None, None, 0, false, false, false, false, []), Waiting, {}, {})

  /** Request a restart, wake, check, then request a shutdown. */
  const LATE_SHUTDOWN := [Request(Restart, true, false), Wake(true), Check, Request(Shutdown, true, false)]

  /** There is such a run: a shutdown that is admitted while the runner is about to call a restart. */
  lemma RestartBeginsAfterShutdown()
    ensures Init(INITIAL) && exists t :: Begins(INITIAL, LATE_SHUTDOWN, t, 0) && t.owner.terminal && t.owner.ops[0].kind.Restart?
  {
    InitInv(INITIAL);
    hide Inv;
    var a := RunStep(INITIAL, Request(Restart, true, false));
    var b := RunStep(a, Wake(true));
    var c := RunStep(b, Check);
    var d := RunStep(c, Request(Shutdown, true, false));
    assert d.runner == Calling(0) && !d.owner.canceled && d.owner.terminal && d.owner.ops[0].kind == Restart;
    var es := LATE_SHUTDOWN;
    hide Apply, Enabled;
    assert Reaches(d, es[4..], d);
    assert Reaches(c, es[3..], d);
    assert Reaches(b, es[2..], d);
    assert Reaches(a, es[1..], d);
    CallingBegins(INITIAL, es, d, 0);
  }

  lemma {:induction false} CallingBegins(s: System, es: seq<Event>, t: System, i: OpId)
    requires Inv(s) && Reaches(s, es, t) && Inv(t) && t.runner == Calling(i) && !t.owner.canceled
    ensures Begins(s, es, t, i)
  {
    hide Inv, Reaches;
  }

  lemma RunStep(s: System, e: Event) returns (t: System)
    requires Inv(s) && Enabled(s, e)
    ensures Inv(t) && t == Apply(s, e)
  {
    StepInv(s, e);
    t := Apply(s, e);
  }

  // ----- what an admission is worth -----

  /** Where outcomes come from: an operation completes only as its callback returned, with "ok" only if it was called,
      and is closed without a callback only when the runner leaves. */
  lemma OutcomesAreEarned(s: System, e: Event, i: OpId)
    requires Inv(s) && Enabled(s, e) && i < |s.owner.ops| && s.owner.ops[i].outcome.None?
    ensures var t := Apply(s, e);
            i < |t.owner.ops|
            && (forall ok :: t.owner.ops[i].outcome == Some(Completed(ok)) <==> e.Finish? && s.runner == Returned(i, ok))
            && (t.owner.ops[i].outcome == Some(ClosedFirst) <==> e.FinishPending? && s.runner == ClosingPending(i))
            && (t.runner == Returned(i, true) && s.runner != t.runner ==> e == ReturnCallback(true) && s.runner == InCallback(i))
  {
    hide OpOk, KindsOk;
  }

  /** How often the runner was woken by the wake channel. */
  function Wakes(es: seq<Event>): nat {
    if es == [] then 0 else (if es[0] == Wake(true) then 1 else 0) + Wakes(es[1..])
  }

  /** How often something happened that signals the runner. */
  function Signals(es: seq<Event>): nat {
    if es == [] then 0
    else (if es[0].Release? || es[0].Request? || es[0].Close? || es[0].ClearActive? then 1 else 0) + Signals(es[1..])
  }

  /** The runner is not woken for nothing: every signal wakes it at most once. */
  lemma {:induction false} WakesAreSignalled(s: System, es: seq<Event>, t: System)
    requires Inv(s) && Reaches(s, es, t)
    ensures Wakes(es) + (if t.owner.wake then 1 else 0) <= Signals(es) + (if s.owner.wake then 1 else 0)
    decreases |es|
  {
    if es != [] {
      StepInv(s, es[0]);
      WakeStep(s, es[0]);
      WakesAreSignalled(Apply(s, es[0]), es[1..], t);
    }
    hide Inv, Enabled, Apply;
  }

  lemma WakeStep(s: System, e: Event)
    requires Inv(s) && Enabled(s, e)
    ensures var t := Apply(s, e);
            (if e == Wake(true) then 1 else 0) + (if t.owner.wake then 1 else 0)
            <= (if e.Release? || e.Request? || e.Close? || e.ClearActive? then 1 else 0) + (if s.owner.wake then 1 else 0)
  {
    hide OpOk, KindsOk, LeasesOk, WakeOk;
  }

  /** A dispatch is granted exactly while the owner is open and not terminal and neither slot is taken, however many
      leases there are; it then has a lease, and otherwise nothing changes. */
  lemma DispatchIsGranted(s: System, lease: LeaseId, callerCanceled: bool)
    requires Inv(s) && lease !in s.leases
    ensures var t := Apply(s, Begin(lease, callerCanceled));
            if callerCanceled || s.owner.closed || s.owner.canceled || s.owner.terminal || s.owner.pending.Some? || s.owner.active.Some?
            then t == s
            else t == s.(owner := s.owner.(dispatches := |s.leases| + 1), leases := s.leases + {lease})
  {
    hide OpOk, KindsOk;
  }

  /** A refused request inserted nothing and coalesced with nothing; an admitted one names an
      operation of its kind that is in a slot. */
  lemma AdmissionMeans(s: System, kind: Kind, available: bool, callerCanceled: bool)
    requires Inv(s)
    ensures var answer, t := Answer(s.owner, kind, available, callerCanceled), Apply(s, Request(kind, available, callerCanceled));
            (answer.Refused? ==> t == s)
            && (answer.Admitted? ==>
                  answer.op < |t.owner.ops| && t.owner.ops[answer.op].kind == kind
                  && (t.owner.pending == Some(answer.op) || t.owner.active == Some(answer.op))
                  && (!answer.coalesced ==> t.owner.pending == Some(answer.op) && t.owner.ops[answer.op].finishes == 0))
  {
  }

  /** A coalesced request shares an operation that is still to be finished, except in one window: the
      active operation has been finished and its slot is not cleared yet. */
  lemma CoalescedIsLive(s: System, kind: Kind, op: OpId)
    requires Inv(s) && Answer(s.owner, kind, true, false) == Admitted(op, true)
    ensures s.owner.ops[op].finishes == 0 <==> s.runner != Settled(op)
  {
    assert OpOk(s, op);
  }
}
