/**
 hostSupervisor: one operation at a time builds, retires and publishes hosts,
 while teardown may close admission between any two of its steps. Each section
 under the inner lock is one step; callbacks end as they like.
 */
module HostSupervisor {
  import opened Options

  type HostId = nat

  datatype Refusal = Closed | ContextCanceled | NoBuilder | CleanupIncomplete | AlreadyConstructed

  /** Which callbacks are configured. */
  datatype Config = Config(retire: bool, build: bool, start: bool, rebind: bool)

  /** The fields behind the inner lock, and the external binding that rebind sets. The candidate
      context is the one of the running replacement; None when no candidate can be canceled. */
  datatype Fields = Fields(master: Option<HostId>, unretired: Option<HostId>, closed: bool,
                           candidate: Option<bool>, binding: Option<HostId>)

  function Rebound(c: Config, f: Fields, host: Option<HostId>): Fields {
    if c.rebind then f.(binding := host) else f
  }

  // ----- the critical sections as functions -----

  function ReplaceRefusal(c: Config, f: Fields, initial: bool, callerCanceled: bool): Option<Refusal> {
    if f.closed then Some(Closed)
    else if callerCanceled then Some(ContextCanceled)
    else if !c.build then Some(NoBuilder)
    else if f.unretired.Some? then Some(CleanupIncomplete)
    else if initial && f.master.Some? then Some(AlreadyConstructed)
    else None
  }

  function AfterBeginReplace(c: Config, f: Fields): Fields {
    var g := f.(candidate := Some(false), master := None);
    if f.master.Some? then Rebound(c, g, None) else g
  }

  function AfterRetirement(f: Fields, host: HostId, ok: bool): Fields {
    f.(unretired := if ok then None else Some(host))
  }

  predicate MayPublish(f: Fields) {
    !f.closed && f.candidate != Some(true)
  }

  function AfterPublish(c: Config, f: Fields, host: HostId): Fields {
    Rebound(c, f.(master := Some(host)), Some(host))
  }

  function AfterCloseAdmission(f: Fields): Fields {
    f.(closed := true, candidate := if f.candidate.Some? then Some(true) else None)
  }

  /** What shutdown retires: the published host, or the one whose cleanup failed before. */
  function Leftover(f: Fields): Option<HostId> {
    if f.master.Some? then f.master else f.unretired
  }

  function AfterBeginShutdown(c: Config, f: Fields): Fields {
    Rebound(c, f.(master := None), None)
  }

  class Supervisor {
    var master: Option<HostId>
    var unretired: Option<HostId>
    var closed: bool
    var candidate: Option<bool>
    var binding: Option<HostId>
    const config: Config

    function View(): Fields
      reads this
    {
      Fields(master, unretired, closed, candidate, binding)
    }

    constructor (master: Option<HostId>, config: Config)
      ensures View() == Fields(master, None, false, None, master) && this.config == config
    {
      this.master, this.unretired, this.closed, this.candidate, this.binding := master, None, false, None, master;
      this.config := config;
    }

    /** The opening section of replace. */
    method BeginReplace(initial: bool, callerCanceled: bool) returns (refusal: Option<Refusal>, previous: Option<HostId>)
      modifies this
      ensures refusal == ReplaceRefusal(config, old(View()), initial, callerCanceled)
      ensures refusal.Some? ==> View() == old(View()) && previous.None?
      ensures refusal.None? ==> View() == AfterBeginReplace(config, old(View())) && previous == old(master)
    {
      if closed {
        return Some(Closed), None;
      }
      if callerCanceled {
        return Some(ContextCanceled), None;
      }
      if !config.build {
        return Some(NoBuilder), None;
      }
      if unretired.Some? {
        return Some(CleanupIncomplete), None;
      }
      if initial && master.Some? {
        return Some(AlreadyConstructed), None;
      }
      candidate := Some(false);
      previous := master;
      master := None;
      if previous.Some? && config.rebind {
        binding := None;
      }
      refusal := None;
    }

    /** The section of retireHost, after the callback. */
    method RecordRetirement(host: HostId, ok: bool)
      modifies `unretired
      ensures View() == AfterRetirement(old(View()), host, ok)
    {
      if !ok {
        unretired := Some(host);
      } else {
        unretired := None;
      }
    }

    /** The closing section of replace. */
    method Publish(host: HostId) returns (published: bool)
      modifies `master, `binding
      ensures published <==> MayPublish(old(View()))
      ensures View() == if published then AfterPublish(config, old(View()), host) else old(View())
    {
      if closed || candidate == Some(true) {
        return false;
      }
      master := Some(host);
      if config.rebind {
        binding := Some(host);
      }
      published := true;
    }

    /** The deferred end of replace. */
    method EndReplace()
      modifies `candidate
      ensures View() == old(View()).(candidate := None)
    {
      candidate := None;
    }

    method CloseAdmission()
      modifies `closed, `candidate
      ensures View() == AfterCloseAdmission(old(View()))
    {
      closed := true;
      if candidate.Some? {
        candidate := Some(true);
      }
    }

    method BeginShutdown() returns (last: Option<HostId>)
      modifies `master, `binding
      ensures View() == AfterBeginShutdown(config, old(View())) && last == Leftover(old(View()))
    {
      last := master;
      if last.None? {
        last := unretired;
      }
      master := None;
      if config.rebind {
        binding := None;
      }
    }
  }

  // ----- the holder of the operation lock -----

  datatype Operation =
    | Idle
    | Locked(initial: bool)
    | RetiringOld(host: HostId)
    | ReadyToBuild
    | Building
    | Starting(host: HostId)
    | ReadyToPublish(host: HostId)
    | Cleaning(host: HostId)
    | Ending
    | ShutdownLocked
    | RetiringLast(host: HostId)

  /** `retired` are the hosts whose retirement succeeded, `started` those whose start succeeded. */
  datatype System = System(config: Config, fields: Fields, op: Operation,
                           built: set<HostId>, started: set<HostId>, retired: set<HostId>)

  /** How a build ends: with or without a host, with or without an error. */
  datatype Built = Built(host: Option<HostId>, ok: bool)

  datatype Event =
    | Lock(initial: bool)
    | BeginReplace(callerCanceled: bool)
    | Retire(ok: bool)
    | Build
    | BuildEnds(built: Built)
    | StartEnds(ok: bool)
    | Publish
    | End
    | CloseAdmission
    | CancelCandidate
    | LockShutdown
    | BeginShutdown

  predicate Enabled(s: System, e: Event) {
    match e
    case Lock(_) => s.op.Idle?
    case BeginReplace(_) => s.op.Locked?
    // Without a callback retirement succeeds.
    case Retire(ok) => (s.op.RetiringOld? || s.op.Cleaning? || s.op.RetiringLast?) && (!s.config.retire ==> ok)
    case Build => s.op.ReadyToBuild?
    case BuildEnds(built) => s.op.Building? && (built.host.Some? ==> built.host.value !in s.built)
    case StartEnds(ok) => s.op.Starting? && (!s.config.start ==> ok)
    case Publish => s.op.ReadyToPublish?
    case End => s.op.Ending?
    case CloseAdmission => true
    // The caller's own context ends; the candidate's is derived from it.
    case CancelCandidate => s.fields.candidate.Some?
    // Shutdown closes admission before it waits for the operation lock.
    case LockShutdown => s.op.Idle? && s.fields.closed
    case BeginShutdown => s.op.ShutdownLocked?
  }

  function BeginReplaceStep(s: System, callerCanceled: bool): System
    requires s.op.Locked?
  {
    if ReplaceRefusal(s.config, s.fields, s.op.initial, callerCanceled).Some? then s.(op := Idle)
    else s.(fields := AfterBeginReplace(s.config, s.fields),
            op := if s.fields.master.Some? then RetiringOld(s.fields.master.value) else ReadyToBuild)
  }

  function RetireStep(s: System, ok: bool): System
    requires s.op.RetiringOld? || s.op.Cleaning? || s.op.RetiringLast?
  {
    s.(fields := AfterRetirement(s.fields, s.op.host, ok),
       retired := if ok then s.retired + {s.op.host} else s.retired,
       op := if s.op.RetiringOld? && ok then ReadyToBuild else if s.op.RetiringLast? then Idle else Ending)
  }

  predicate OwnedCanceled(s: System) {
    s.fields.candidate == Some(true)
  }

  /** A failed candidate is cleaned up if there is one. */
  function Failed(host: Option<HostId>): Operation {
    if host.Some? then Cleaning(host.value) else Ending
  }

  /** After build: an error, no host, or a canceled context fails the replacement. */
  function BuildEndsStep(s: System, built: Built): System {
    s.(built := s.built + (if built.host.Some? then {built.host.value} else {}),
       op := if built.ok && built.host.Some? && !OwnedCanceled(s) then Starting(built.host.value) else Failed(built.host))
  }

  function StartEndsStep(s: System, ok: bool): System
    requires s.op.Starting?
  {
    s.(started := if ok then s.started + {s.op.host} else s.started,
       op := if ok && !OwnedCanceled(s) then ReadyToPublish(s.op.host) else Cleaning(s.op.host))
  }

  function PublishStep(s: System): System
    requires s.op.ReadyToPublish?
  {
    if MayPublish(s.fields) then s.(fields := AfterPublish(s.config, s.fields, s.op.host), op := Ending)
    else s.(op := Cleaning(s.op.host))
  }

  function BeginShutdownStep(s: System): System {
    s.(fields := AfterBeginShutdown(s.config, s.fields),
       op := if Leftover(s.fields).Some? then RetiringLast(Leftover(s.fields).value) else Idle)
  }

  function Apply(s: System, e: Event): System
    requires Enabled(s, e)
  {
    match e
    case Lock(initial) => s.(op := Locked(initial))
    case BeginReplace(callerCanceled) => BeginReplaceStep(s, callerCanceled)
    case Retire(ok) => RetireStep(s, ok)
    case Build => s.(op := if OwnedCanceled(s) then Ending else Building)
    case BuildEnds(built) => BuildEndsStep(s, built)
    case StartEnds(ok) => StartEndsStep(s, ok)
    case Publish => PublishStep(s)
    case End => s.(fields := s.fields.(candidate := None), op := Idle)
    case CloseAdmission => s.(fields := AfterCloseAdmission(s.fields))
    case CancelCandidate => s.(fields := s.fields.(candidate := Some(true)))
    case LockShutdown => s.(op := ShutdownLocked)
    case BeginShutdown => BeginShutdownStep(s)
  }

  // ----- conservation -----

  /** The host that the running operation has in its hands. */
  function InHand(op: Operation): Option<HostId> {
    match op
    case RetiringOld(h) => Some(h)
    case Starting(h) => Some(h)
    case ReadyToPublish(h) => Some(h)
    case Cleaning(h) => Some(h)
    case RetiringLast(h) => Some(h)
    case _ => None
  }

  function Count(b: bool): nat {
    if b then 1 else 0
  }

  /** In how many places a host is: published, unretired, retired, or in hand. The last host may be
      in hand for its second cleanup while it is still recorded as unretired. */
  function Places(s: System, h: HostId): nat {
    Count(s.fields.master == Some(h)) + Count(s.fields.unretired == Some(h) && InHand(s.op) != Some(h))
    + Count(h in s.retired) + Count(InHand(s.op) == Some(h))
  }

  predicate HostOk(s: System, h: HostId) {
    Places(s, h) == if h in s.built then 1 else 0
  }

  predicate Replacing(op: Operation) {
    op.RetiringOld? || op.ReadyToBuild? || op.Building? || op.Starting? || op.ReadyToPublish? || op.Cleaning? || op.Ending?
  }

  ghost predicate Inv(s: System) {
    && (forall h :: HostOk(s, h))
    && (s.config.rebind ==> s.fields.binding == s.fields.master)
    && (s.fields.master.Some? ==> s.fields.unretired.None? && s.fields.master.value in s.started)
    && s.started <= s.built
    && (s.fields.candidate.Some? <==> Replacing(s.op))
    && (Replacing(s.op) && !s.op.Ending? ==> s.fields.master.None? && s.fields.unretired.None?)
    && (s.op.ReadyToPublish? ==> s.op.host in s.started)
    && (s.op.RetiringLast? ==> s.fields.master.None? && (s.fields.unretired.Some? ==> s.fields.unretired.value == s.op.host))
    && (s.op.ShutdownLocked? || s.op.RetiringLast? ==> s.fields.closed)
  }

  /** A supervisor is made with no host or with one that already runs and is bound. */
  predicate Init(s: System) {
    && s.fields == Fields(s.fields.master, None, false, None, s.fields.master)
    && s.op.Idle? && s.retired == {} && s.started == s.built
    && s.built == if s.fields.master.Some? then {s.fields.master.value} else {}
  }

  lemma InitInv(s: System)
    requires Init(s)
    ensures Inv(s)
  {
  }

  lemma StepInv(s: System, e: Event)
    requires Inv(s) && Enabled(s, e)
    ensures Inv(Apply(s, e))
  {
    var t := Apply(s, e);
    forall h ensures HostOk(t, h) {
      assert HostOk(s, h);
      if InHand(s.op).Some? { assert HostOk(s, InHand(s.op).value); }
    }
    if InHand(s.op).Some? { assert HostOk(s, InHand(s.op).value); }
  }

  predicate Reaches(s: System, es: seq<Event>, t: System)
    decreases |es|
  {
    if es == [] then s == t
    else Enabled(s, es[0]) && Reaches(Apply(s, es[0]), es[1..], t)
  }

  lemma {:induction false} ReachesInv(s: System, es: seq<Event>, t: System)
    requires Inv(s) && Reaches(s, es, t)
    ensures Inv(t)
    decreases |es|
  {
    if es != [] {
      StepInv(s, es[0]);
      ReachesInv(Apply(s, es[0]), es[1..], t);
    }
  }

  /** Whenever no operation holds the lock, every host ever built is exactly one of published, retired
      or the single unretired one, and nothing else is any of these. */
  lemma {:induction false} HostsAreConserved(s: System, es: seq<Event>, t: System, h: HostId)
    requires Init(s) && Reaches(s, es, t) && t.op.Idle?
    ensures h in t.built <==> t.fields.master == Some(h) || t.fields.unretired == Some(h) || h in t.retired
    ensures !(t.fields.master == Some(h) && h in t.retired) && !(t.fields.unretired == Some(h) && h in t.retired)
    ensures !(t.fields.master.Some? && t.fields.unretired.Some?)
  {
    InitInv(s);
    ReachesInv(s, es, t);
    assert HostOk(t, h);
  }

  /** At every moment the external binding is the published host: one that has started, is not
      retired, and is in nobody's hands. */
  lemma {:induction false} BindingIsUsable(s: System, es: seq<Event>, t: System)
    requires Init(s) && Reaches(s, es, t) && t.config.rebind
    ensures t.fields.binding == t.fields.master
    ensures t.fields.binding.Some? ==> var h := t.fields.binding.value;
              h in t.started && h !in t.retired && InHand(t.op) != Some(h) && t.fields.unretired != Some(h)
  {
    InitInv(s);
    ReachesInv(s, es, t);
    if t.fields.binding.Some? { assert HostOk(t, t.fields.binding.value); }
  }

  /** Nothing is published once admission is closed. */
  lemma {:induction false} ClosedNeverPublishes(s: System, es: seq<Event>, t: System)
    requires Reaches(s, es, t) && s.fields.closed
    ensures t.fields.closed && (t.fields.master == s.fields.master || t.fields.master.None?)
    decreases |es|
  {
    if es != [] {
      ClosedNeverPublishes(Apply(s, es[0]), es[1..], t);
    }
  }

  /** A host whose cleanup failed blocks every later replacement: nothing is built or published until
      a shutdown has retired it. */
  lemma {:induction false} UnretiredBlocks(s: System, es: seq<Event>, t: System)
    requires Inv(s) && Reaches(s, es, t) && s.op.Idle? && s.fields.unretired.Some?
    requires forall i :: 0 <= i < |es| ==> !es[i].LockShutdown?
    ensures t.built == s.built && t.fields.master.None? && t.fields.unretired == s.fields.unretired && t.retired == s.retired
    ensures t.op.Idle? || t.op.Locked?
  {
    BlockedStays(s, es, t);
  }

  predicate Blocked(s: System) {
    s.fields.unretired.Some? && s.fields.master.None? && s.fields.candidate.None? && (s.op.Idle? || s.op.Locked?)
  }

  lemma {:induction false} BlockedStays(s: System, es: seq<Event>, t: System)
    requires Blocked(s) && Reaches(s, es, t)
    requires forall i :: 0 <= i < |es| ==> !es[i].LockShutdown?
    ensures Blocked(t) && t.built == s.built && t.fields.unretired == s.fields.unretired && t.retired == s.retired
    decreases |es|
  {
    if es != [] {
      assert !es[0].LockShutdown?;
      BlockedStays(Apply(s, es[0]), es[1..], t);
    }
  }

  /** After a shutdown that ran to its end, the only host that can be left is one whose retirement
      failed again; all others are retired. */
  lemma ShutdownLeavesNothing(s: System, e: Event, h: HostId)
    requires Inv(s) && Enabled(s, e) && s.op.RetiringLast? && e.Retire? && h in s.built
    ensures var t := Apply(s, e);
            t.op.Idle? && t.fields.master.None?
            && (h in t.retired <==> e.ok || h != s.op.host)
            && (t.fields.unretired == if e.ok then None else Some(s.op.host))
  {
    assert HostOk(s, h) && HostOk(s, s.op.host);
  }

  // ----- what a replacement achieves -----

  /** A host comes to be published in one way only: by the Publish step of the operation that has it in hand,
      while admission is open and the candidate is not canceled. Then it is also bound. */
  lemma PublishedExactly(s: System, e: Event, h: HostId)
    requires Inv(s) && Enabled(s, e) && s.fields.master != Some(h)
    ensures var t := Apply(s, e);
            (t.fields.master == Some(h)
             <==> e.Publish? && s.op == ReadyToPublish(h) && !s.fields.closed && s.fields.candidate == Some(false))
            && (t.fields.master == Some(h) && s.config.rebind ==> t.fields.binding == Some(h))
  {
    match s.fields.candidate {
      case None =>
      case Some(canceled) => assert s.fields.candidate == if canceled then Some(true) else Some(false);
    }
  }

  /** A running replacement that is canceled, by its caller or because admission closes, publishes nothing any more,
      and neither builds nor starts anything new before it ends. */
  lemma {:induction false} CanceledPublishesNothing(s: System, e: Event, es: seq<Event>, t: System)
    requires Inv(s) && Replacing(s.op) && (e.CloseAdmission? || e.CancelCandidate?)
    requires Reaches(Apply(s, e), es, t) && forall i :: 0 <= i < |es| ==> !es[i].End?
    ensures t.fields.master == s.fields.master
    ensures t.op.Building? || t.op.Starting? || t.op.ReadyToPublish? ==> t.op == s.op
  {
    StaysCanceled(Apply(s, e), es, t);
  }

  lemma {:induction false} StaysCanceled(s: System, es: seq<Event>, t: System)
    requires Replacing(s.op) && s.fields.candidate == Some(true)
    requires Reaches(s, es, t) && forall i :: 0 <= i < |es| ==> !es[i].End?
    ensures t.fields.master == s.fields.master
    ensures t.op.Building? || t.op.Starting? || t.op.ReadyToPublish? ==> t.op == s.op
    decreases |es|
  {
    if es != [] {
      assert !es[0].End?;
      StaysCanceled(Apply(s, es[0]), es[1..], t);
    }
  }

  /** A replacement begins exactly if admission is open, the caller not canceled, a builder there, no cleanup
      outstanding and, for the initial construction, nothing published yet. A refused one changes nothing. */
  lemma ReplacementBegins(s: System, canceled: bool)
    requires Inv(s) && s.op.Locked?
    ensures var t := Apply(s, BeginReplace(canceled));
            if s.fields.closed || canceled || !s.config.build || s.fields.unretired.Some? || (s.op.initial && s.fields.master.Some?)
            then t == s.(op := Idle)
            else Replacing(t.op) && t.fields.master.None? && t.fields.candidate == Some(false)
  {
  }

  /** The steps of a replacement when every callback succeeds and nobody interferes. */
  predicate Succeeds(e: Event) {
    match e
    case BeginReplace(callerCanceled) => !callerCanceled
    case Retire(ok) => ok
    case Build => true
    case BuildEnds(built) => built.ok && built.host.Some?
    case StartEnds(ok) => ok
    case Publish => true
    case End => true
    case _ => false
  }

  /** How far the replacement that was asked for in state b has come: the old host is retired before the new
      one is built, and at the end a new one that has started is published and bound. */
  predicate OnTheWay(b: System, s: System) {
    && s.config == b.config && s.config.build && !s.fields.closed && s.fields.unretired.None? && b.built <= s.built
    && (Replacing(s.op) ==> s.fields.candidate == Some(false))
    && (!s.op.Locked? && !s.op.RetiringOld? && b.fields.master.Some? ==> b.fields.master.value in s.retired)
    && match s.op
       case Locked(initial) => s.fields == b.fields && (initial ==> s.fields.master.None?)
       case RetiringOld(h) => b.fields.master == Some(h)
       case ReadyToBuild => true
       case Building => true
       case Starting(h) => h !in b.built
       case ReadyToPublish(h) => h !in b.built && h in s.started
       case Ending => Replaced(b, s)
       case Idle => Replaced(b, s) && s.fields.candidate.None?
       case _ => false
  }

  predicate Replaced(b: System, s: System) {
    && s.fields.master.Some? && s.fields.master.value !in b.built && s.fields.master.value in s.started
    && (s.config.rebind ==> s.fields.binding == s.fields.master)
  }

  lemma StaysOnTheWay(b: System, s: System, e: Event)
    requires OnTheWay(b, s) && Enabled(s, e) && Succeeds(e)
    ensures OnTheWay(b, Apply(s, e))
  {
  }

  lemma {:induction false} RunStaysOnTheWay(b: System, s: System, es: seq<Event>, t: System)
    requires OnTheWay(b, s) && Reaches(s, es, t) && forall i :: 0 <= i < |es| ==> Succeeds(es[i])
    ensures OnTheWay(b, t)
    decreases |es|
  {
    if es != [] {
      StaysOnTheWay(b, s, es[0]);
      RunStaysOnTheWay(b, Apply(s, es[0]), es[1..], t);
    }
  }

  /** A replacement that is asked for while the supervisor is idle and open, with no cleanup outstanding, and that
      nothing fails or disturbs, ends with the old host retired and a new one published, started and bound. */
  lemma {:induction false} ReplacementPublishes(b: System, initial: bool, es: seq<Event>, t: System)
    requires b.op.Idle? && b.config.build && !b.fields.closed && b.fields.unretired.None? && (initial ==> b.fields.master.None?)
    requires Reaches(Apply(b, Lock(initial)), es, t) && t.op.Idle? && forall i :: 0 <= i < |es| ==> Succeeds(es[i])
    ensures t.fields.master.Some? && t.fields.master.value !in b.built && t.fields.master.value in t.started
    ensures b.config.rebind ==> t.fields.binding == t.fields.master
    ensures b.fields.master.Some? ==> b.fields.master.value in t.retired
    ensures t.fields.unretired.None? && t.fields.candidate.None?
  {
    RunStaysOnTheWay(b, Apply(b, Lock(initial)), es, t);
  }

  /** How many steps a replacement still takes. */
  function StepsLeft(op: Operation): nat {
    match op
    case Locked(_) => 7
    case RetiringOld(_) => 6
    case ReadyToBuild => 5
    case Building => 4
    case Starting(_) => 3
    case ReadyToPublish(_) => 2
    case Ending => 1
    case _ => 0
  }

  /** The host that the replacement is going to publish, if the builder comes up with h. */
  function Coming(s: System, h: HostId): Option<HostId> {
    if s.op.Starting? || s.op.ReadyToPublish? then Some(s.op.host)
    else if s.op.Ending? || s.op.Idle? then s.fields.master
    else Some(h)
  }

  /** Such a run exists, whatever host the builder comes up with. */
  lemma {:induction false} ReplacementCanFinish(b: System, s: System, h: HostId) returns (es: seq<Event>, t: System)
    requires OnTheWay(b, s) && (StepsLeft(s.op) > 3 ==> h !in s.built)
    ensures Reaches(s, es, t) && t.op.Idle? && t.fields.master == Coming(s, h)
    ensures forall i :: 0 <= i < |es| ==> Succeeds(es[i])
    decreases StepsLeft(s.op)
  {
    if s.op.Idle? {
      es, t := [], s;
    } else {
      var e := match s.op
        case Locked(_) => BeginReplace(false)
        case RetiringOld(_) => Retire(true)
        case ReadyToBuild => Build
        case Building => BuildEnds(Built(Some(h), true))
        case Starting(_) => StartEnds(true)
        case ReadyToPublish(_) => Publish
        case _ => End;
      StaysOnTheWay(b, s, e);
      es, t := ReplacementCanFinish(b, Apply(s, e), h);
      es := [e] + es;
    }
  }
}
