/**
 Replica ownership: starting a replica, its runtime failing, its removal and the
 final StopAll race for one map of owners. Channels are taken as already trimmed.
 */
module ReplicaOwnership {
  import opened Options

  type Channel = string
  type ReplicaId = nat

  datatype AddError = InvalidReplica | ManagerStopped | HostChannel | AlreadyExists

  // ----- the manager -----

  datatype Manager = Manager(replicas: map<Channel, ReplicaId>, hostChannel: Channel, stopped: bool)

  function AddRefusal(m: Manager, channel: Channel): Option<AddError> {
    if channel == "" then Some(InvalidReplica)
    else if m.stopped then Some(ManagerStopped)
    else if channel == m.hostChannel then Some(HostChannel)
    else if channel in m.replicas then Some(AlreadyExists)
    else None
  }

  function AfterAdd(m: Manager, channel: Channel, r: ReplicaId): Manager {
    if AddRefusal(m, channel).Some? then m else m.(replicas := m.replicas[channel := r])
  }

  /** What remove takes: the owner of the channel, and only the expected one if there is one. */
  function Removable(m: Manager, channel: Channel, expected: Option<ReplicaId>): Option<ReplicaId> {
    if channel in m.replicas && (expected.None? || m.replicas[channel] == expected.value) then Some(m.replicas[channel]) else None
  }

  function AfterRemove(m: Manager, channel: Channel, expected: Option<ReplicaId>): Manager {
    if Removable(m, channel, expected).Some? then m.(replicas := m.replicas - {channel}) else m
  }

  function AfterStopAll(m: Manager): Manager {
    m.(stopped := true, replicas := map[])
  }

  class ReplicaManager {
    var replicas: map<Channel, ReplicaId>
    var stopped: bool
    const hostChannel: Channel

    function View(): Manager
      reads this
    {
      Manager(replicas, hostChannel, stopped)
    }

    constructor (hostChannel: Channel)
      ensures View() == Manager(map[], hostChannel, false)
    {
      this.hostChannel := hostChannel;
      replicas, stopped := map[], false;
    }

    method Add(channel: Channel, r: ReplicaId) returns (error: Option<AddError>)
      modifies `replicas
      ensures error == AddRefusal(old(View()), channel)
      ensures View() == AfterAdd(old(View()), channel, r)
    {
      if channel == "" {
        return Some(InvalidReplica);
      }
      if stopped {
        return Some(ManagerStopped);
      }
      if channel == hostChannel {
        return Some(HostChannel);
      }
      if channel in replicas {
        return Some(AlreadyExists);
      }
      replicas := replicas[channel := r];
      error := None;
    }

    /** remove, up to the stop of what it took. */
    method Remove(channel: Channel, expected: Option<ReplicaId>) returns (taken: Option<ReplicaId>)
      modifies `replicas
      ensures taken == Removable(old(View()), channel, expected)
      ensures View() == AfterRemove(old(View()), channel, expected)
    {
      taken := if channel in replicas then Some(replicas[channel]) else None;
      if taken.Some? && expected.Some? && taken != expected {
        taken := None;
      }
      if taken.Some? {
        replicas := replicas - {channel};
      }
    }

    /** StopAll, up to the stops of what it took. */
    method StopAll() returns (taken: map<Channel, ReplicaId>)
      modifies `replicas, `stopped
      ensures taken == old(replicas) && View() == AfterStopAll(old(View()))
    {
      stopped := true;
      taken := replicas;
      replicas := map[];
    }
  }

  // ----- every replica that was ever constructed -----

  /** Where AddReplica is with a replica. */
  datatype Stage = Constructed | Starting | Started | Registering | CleaningUp | Finished(ok: bool)
  {
    predicate Began() { !Constructed? }
  }

  /** `handlers` are failure handlers that recorded the failure but did not yet remove the replica, `owed`
      are removers that took it out of the map and have yet to stop it, `stops` counts its stops. */
  datatype Replica = Replica(channel: Channel, stage: Stage, failed: bool, handlers: nat, owed: nat, stops: nat)

  datatype System = System(manager: Manager, all: map<ReplicaId, Replica>)

  datatype Event =
    | Construct(r: ReplicaId, channel: Channel)
    | Begin(r: ReplicaId)
    | StartEnds(r: ReplicaId, ok: bool)
    | Detach(r: ReplicaId, ok: bool)
    | Register(r: ReplicaId)
    | Cleanup(r: ReplicaId)
    | Fail(r: ReplicaId)
    | HandlerRemoves(r: ReplicaId)
    | RemoveChannel(channel: Channel)
    | StopAll
    | StopTaken(r: ReplicaId)

  predicate In(s: System, r: ReplicaId, stage: Stage) {
    r in s.all && s.all[r].stage == stage
  }

  predicate Enabled(s: System, e: Event) {
    match e
    case Construct(r, channel) => r !in s.all && channel != ""
    case Begin(r) => In(s, r, Constructed)
    case StartEnds(r, _) => In(s, r, Starting)
    case Detach(r, _) => In(s, r, Started)
    case Register(r) => In(s, r, Registering)
    case Cleanup(r) => In(s, r, CleaningUp)
    // The failure handler is in place before the start.
    case Fail(r) => r in s.all && s.all[r].stage.Began()
    case HandlerRemoves(r) => r in s.all && s.all[r].handlers > 0
    case RemoveChannel(_) => true
    case StopAll => true
    case StopTaken(r) => r in s.all && s.all[r].owed > 0
  }

  function At(s: System, r: ReplicaId, stage: Stage): System
    requires r in s.all
  {
    s.(all := s.all[r := s.all[r].(stage := stage)])
  }

  /** Registration and the recording of a failure exclude each other. */
  function RegisterStep(s: System, r: ReplicaId): System
    requires r in s.all
  {
    var channel := s.all[r].channel;
    if s.all[r].failed || AddRefusal(s.manager, channel).Some? then At(s, r, CleaningUp)
    else At(s.(manager := AfterAdd(s.manager, channel, r)), r, Finished(true))
  }

  function Owing(s: System, r: ReplicaId): map<ReplicaId, Replica> {
    if r in s.all then s.all[r := s.all[r].(owed := s.all[r].owed + 1)] else s.all
  }

  function TakeStep(s: System, channel: Channel, expected: Option<ReplicaId>): System {
    var taken := Removable(s.manager, channel, expected);
    if taken.None? then s else System(AfterRemove(s.manager, channel, expected), Owing(s, taken.value))
  }

  function HandlerStep(s: System, r: ReplicaId): System
    requires r in s.all && s.all[r].handlers > 0
  {
    TakeStep(s.(all := s.all[r := s.all[r].(handlers := s.all[r].handlers - 1)]), s.all[r].channel, Some(r))
  }

  predicate Registered(s: System, r: ReplicaId) {
    r in s.all && s.all[r].channel in s.manager.replicas && s.manager.replicas[s.all[r].channel] == r
  }

  function StopAllStep(s: System): System {
    System(AfterStopAll(s.manager),
           map r | r in s.all :: if Registered(s, r) then s.all[r].(owed := s.all[r].owed + 1) else s.all[r])
  }

  function Apply(s: System, e: Event): System
    requires Enabled(s, e)
  {
    match e
    case Construct(r, channel) => s.(all := s.all[r := Replica(channel, Constructed, false, 0, 0, 0)])
    case Begin(r) => At(s, r, Starting)
    case StartEnds(r, ok) => At(s, r, if ok then Started else CleaningUp)
    case Detach(r, ok) => At(s, r, if ok then Registering else CleaningUp)
    case Register(r) => RegisterStep(s, r)
    case Cleanup(r) => s.(all := s.all[r := s.all[r].(stage := Finished(false), stops := s.all[r].stops + 1)])
    case Fail(r) => s.(all := s.all[r := s.all[r].(failed := true, handlers := s.all[r].handlers + 1)])
    case HandlerRemoves(r) => HandlerStep(s, r)
    case RemoveChannel(channel) => TakeStep(s, channel, None)
    case StopAll => StopAllStep(s)
    case StopTaken(r) => s.(all := s.all[r := s.all[r].(owed := s.all[r].owed - 1, stops := s.all[r].stops + 1)])
  }

  // ----- the invariant -----

  predicate ReplicaOk(s: System, r: ReplicaId)
    requires r in s.all
  {
    var x := s.all[r];
    && x.owed + x.stops == (if x.stage.Finished? && !Registered(s, r) then 1 else 0)
    && (x.stage == Finished(false) ==> x.stops == 1)
    && (Registered(s, r) ==> x.stage == Finished(true) && (x.failed ==> x.handlers > 0))
  }

  ghost predicate Inv(s: System) {
    && (forall r :: r in s.all ==> ReplicaOk(s, r))
    && (forall c :: c in s.manager.replicas ==> s.manager.replicas[c] in s.all && s.all[s.manager.replicas[c]].channel == c)
    && (s.manager.stopped ==> s.manager.replicas == map[])
  }

  lemma InitInv(host: Channel)
    ensures Inv(System(Manager(map[], host, false), map[]))
  {
  }

  lemma StepInv(s: System, e: Event)
    requires Inv(s) && Enabled(s, e)
    ensures Inv(Apply(s, e))
  {
    match e {
      case Register(r) => RegisterInv(s, r);
      case HandlerRemoves(r) => HandlerInv(s, r);
      case RemoveChannel(channel) => TakeInv(s, channel);
      case StopAll => StopAllInv(s);
      case _ => OwnInv(s, e);
    }
  }

  /** Steps of one replica that leave the map of owners alone. */
  lemma OwnInv(s: System, e: Event)
    requires Inv(s) && Enabled(s, e)
    requires !e.Register? && !e.HandlerRemoves? && !e.RemoveChannel? && !e.StopAll?
    ensures Inv(Apply(s, e))
  {
    var t := Apply(s, e);
    forall r | r in t.all ensures ReplicaOk(t, r) {
      if r in s.all { assert ReplicaOk(s, r); }
    }
  }

  lemma RegisterInv(s: System, r: ReplicaId)
    requires Inv(s) && In(s, r, Registering)
    ensures Inv(RegisterStep(s, r))
  {
    var t := RegisterStep(s, r);
    forall q | q in t.all ensures ReplicaOk(t, q) { assert ReplicaOk(s, q); }
  }

  lemma HandlerInv(s: System, r: ReplicaId)
    requires Inv(s) && r in s.all && s.all[r].handlers > 0
    ensures Inv(HandlerStep(s, r))
  {
    var t := HandlerStep(s, r);
    forall q | q in t.all ensures ReplicaOk(t, q) { assert ReplicaOk(s, q); }
  }

  lemma TakeInv(s: System, channel: Channel)
    requires Inv(s)
    ensures Inv(TakeStep(s, channel, None))
  {
    var t := TakeStep(s, channel, None);
    forall q | q in t.all ensures ReplicaOk(t, q) { assert ReplicaOk(s, q); }
  }

  lemma StopAllInv(s: System)
    requires Inv(s)
    ensures Inv(StopAllStep(s))
  {
    var t := StopAllStep(s);
    forall q | q in t.all ensures ReplicaOk(t, q) { assert ReplicaOk(s, q); }
  }

  // ----- whole runs -----

  predicate Reaches(s: System, es: seq<Event>, t: System)
    decreases |es|
  {
    if es == [] then s == t
    else Enabled(s, es[0]) && Reaches(Apply(s, es[0]), es[1..], t)
  }

  lemma {:induction false} ReachesInv(s: System, es: seq<Event>, t: System)
    requires Inv(s) && Reaches(s, es, t)
    ensures Inv(t)
    decreases |es|
  {
    if es != [] {
      StepInv(s, es[0]);
      ReachesInv(Apply(s, es[0]), es[1..], t);
    }
  }

  /** Nothing is in progress for a replica: its AddReplica returned, its handlers ran, and whoever took it
      out of the map has stopped it. */
  predicate Quiescent(s: System, r: ReplicaId) {
    r in s.all && s.all[r].stage.Finished? && s.all[r].handlers == 0 && s.all[r].owed == 0
  }

  /** Every replica that began its start is, once quiet, either registered, unfailed and never stopped, or
      out of the map and stopped exactly once; what AddReplica reported as an error is not registered. */
  lemma {:induction false} StartedIsOwnedOrStopped(s: System, es: seq<Event>, t: System, r: ReplicaId)
    requires Inv(s) && Reaches(s, es, t) && Quiescent(t, r)
    ensures if Registered(t, r) then !t.all[r].failed && t.all[r].stops == 0 else t.all[r].stops == 1
    ensures t.all[r].stage == Finished(false) ==> !Registered(t, r)
  {
    ReachesInv(s, es, t);
    assert ReplicaOk(t, r);
  }

  /** A late failure of one replica never removes another owner of its channel. */
  lemma StaleFailureSparesOwner(s: System, r: ReplicaId, owner: ReplicaId)
    requires Inv(s) && r in s.all && s.all[r].handlers > 0 && Registered(s, owner) && owner != r
    ensures Registered(HandlerStep(s, r), owner)
  {
  }

  /** After StopAll nothing is registered any more, in any run. */
  lemma {:induction false} NothingRegistersAfterStopAll(s: System, es: seq<Event>, t: System)
    requires Inv(s) && s.manager.stopped && Reaches(s, es, t)
    ensures t.manager.stopped && t.manager.replicas == map[]
    decreases |es|
  {
    if es != [] {
      StepInv(s, es[0]);
      StoppedStays(s, es[0]);
      NothingRegistersAfterStopAll(Apply(s, es[0]), es[1..], t);
    }
  }

  lemma StoppedStays(s: System, e: Event)
    requires Enabled(s, e) && s.manager.stopped
    ensures Apply(s, e).manager.stopped
  {
  }

  // ----- what is registered -----

  /** A replica is registered, and its addition reported as a success, exactly if it has not failed, the manager is not
      stopped, and its channel is not the host's and has no owner; otherwise it is going to be cleaned up. */
  lemma RegistersExactly(s: System, r: ReplicaId)
    requires Inv(s) && In(s, r, Registering) && s.all[r].channel != ""
    ensures var m, channel, t := s.manager, s.all[r].channel, Apply(s, Register(r));
            if s.all[r].failed || m.stopped || channel == m.hostChannel || channel in m.replicas
            then t == s.(all := t.all) && In(t, r, CleaningUp) else Registered(t, r) && In(t, r, Finished(true))
  {
  }

  /** Success is reported in no other way. */
  lemma SuccessIsRegistered(s: System, e: Event, r: ReplicaId)
    requires Inv(s) && Enabled(s, e) && r in s.all && s.all[r].stage != Finished(true)
    ensures In(Apply(s, e), r, Finished(true)) ==> e == Register(r) && Registered(Apply(s, e), r)
  {
  }

  lemma FailedStep(s: System, e: Event, r: ReplicaId)
    requires Enabled(s, e) && r in s.all && s.all[r].failed
    ensures r in Apply(s, e).all && Apply(s, e).all[r].failed
  {
  }

  lemma {:induction false} FailedStays(s: System, es: seq<Event>, t: System, r: ReplicaId)
    requires Reaches(s, es, t) && r in s.all && s.all[r].failed
    ensures r in t.all && t.all[r].failed
    decreases |es|
  {
    if es != [] {
      FailedStep(s, es[0], r);
      FailedStays(Apply(s, es[0]), es[1..], t, r);
    }
  }

  /** A failure ends ownership, whenever it comes: once quiet, the replica is out of the map and stopped exactly once. */
  lemma {:induction false} FailureEndsOwnership(s: System, r: ReplicaId, es: seq<Event>, t: System)
    requires Inv(s) && Enabled(s, Fail(r)) && Reaches(Apply(s, Fail(r)), es, t) && Quiescent(t, r)
    ensures !Registered(t, r) && t.all[r].stops == 1
  {
    StepInv(s, Fail(r));
    FailedStays(Apply(s, Fail(r)), es, t, r);
    StartedIsOwnedOrStopped(Apply(s, Fail(r)), es, t, r);
  }

  /** How often the given event occurs. */
  function Times(es: seq<Event>, e: Event): nat {
    if es == [] then 0 else (if es[0] == e then 1 else 0) + Times(es[1..], e)
  }

  /** Every failure is handled once: the handlers that ran are as many as the failures, but for those still to run. */
  lemma {:induction false} HandlersRunOnce(s: System, es: seq<Event>, t: System, r: ReplicaId)
    requires Reaches(s, es, t) && r in s.all
    ensures r in t.all && s.all[r].handlers + Times(es, Fail(r)) == t.all[r].handlers + Times(es, HandlerRemoves(r))
    decreases |es|
  {
    if es != [] {
      HandlersStep(s, es[0], r);
      HandlersRunOnce(Apply(s, es[0]), es[1..], t, r);
    }
    hide Apply, Enabled;
  }

  lemma HandlersStep(s: System, e: Event, r: ReplicaId)
    requires Enabled(s, e) && r in s.all
    ensures var t := Apply(s, e);
            r in t.all
            && s.all[r].handlers + (if e == Fail(r) then 1 else 0) == t.all[r].handlers + if e == HandlerRemoves(r) then 1 else 0
  {
  }
}
