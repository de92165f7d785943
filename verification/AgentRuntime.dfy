/**
 The agent runtime: a bounded admission of ordinary requests, workers that turn
 queued jobs into executions, one mutex per memory key, a limited number of
 slots, and a drainer that runs the latest ambient request.
 */
module AgentRuntime {
  import opened Options

  type JobId = nat
  datatype Job = Job(id: JobId, key: string)

  datatype Config = Config(maxConcurrent: nat, queueCapacity: nat) {
    predicate Valid() { maxConcurrent >= 1 }
    function Capacity(): nat { maxConcurrent + queueCapacity }
  }

  /** What the runtime's mutex and channels hold. `tokens` is the length of the admission channel. */
  datatype Shared = Shared(queue: seq<Job>, tokens: nat, closed: bool, pending: Option<Job>, scheduled: bool)

  datatype Submission = Accepted | QueueFull | JobsFull | RuntimeClosed

  // ----- the critical sections as functions -----

  function SubmitAnswer(c: Config, r: Shared): Submission {
    if r.closed then RuntimeClosed
    else if r.tokens >= c.Capacity() then QueueFull
    else if |r.queue| >= c.Capacity() then JobsFull
    else Accepted
  }

  function AfterSubmit(c: Config, r: Shared, job: Job): Shared {
    if SubmitAnswer(c, r).Accepted? then r.(tokens := r.tokens + 1, queue := r.queue + [job]) else r
  }

  function AfterAmbient(r: Shared, job: Job): Shared {
    if r.closed then r else r.(pending := Some(job), scheduled := true)
  }

  /** The drainer's section: it takes the pending request, or ends. */
  function AfterTake(r: Shared): Shared {
    if r.closed || r.pending.None? then r.(pending := None, scheduled := false) else r.(pending := None)
  }

  function Taken(r: Shared): Option<Job> {
    if r.closed then None else r.pending
  }

  function AfterClose(r: Shared): Shared {
    if r.closed then r else r.(closed := true, pending := None)
  }

  class Runtime {
    var jobs: seq<Job>
    var admission: nat
    var closed: bool
    var pendingAmbient: Option<Job>
    var ambientScheduled: bool
    const config: Config

    function View(): Shared
      reads this
    {
      Shared(jobs, admission, closed, pendingAmbient, ambientScheduled)
    }

    constructor (config: Config)
      ensures View() == Shared([], 0, false, None, false) && this.config == config
    {
      jobs, admission, closed, pendingAmbient, ambientScheduled := [], 0, false, None, false;
      this.config := config;
    }

    method Submit(job: Job) returns (answer: Submission)
      modifies `jobs, `admission
      ensures answer == SubmitAnswer(config, old(View())) && View() == AfterSubmit(config, old(View()), job)
    {
      if closed {
        return RuntimeClosed;
      }
      if admission >= config.Capacity() {
        return QueueFull;
      }
      admission := admission + 1;
      if |jobs| < config.Capacity() {
        jobs := jobs + [job];
        return Accepted;
      }
      admission := admission - 1;
      answer := JobsFull;
    }

    /** Whether the request was accepted, and whether a drainer must be started for it. */
    method SubmitAmbient(job: Job) returns (accepted: bool, start: bool)
      modifies `pendingAmbient, `ambientScheduled
      ensures accepted <==> !old(closed)
      ensures start <==> !old(closed) && !old(ambientScheduled)
      ensures View() == AfterAmbient(old(View()), job)
    {
      if closed {
        return false, false;
      }
      pendingAmbient := Some(job);
      if ambientScheduled {
        return true, false;
      }
      ambientScheduled := true;
      return true, true;
    }

    method TakeAmbient() returns (taken: Option<Job>)
      modifies `pendingAmbient, `ambientScheduled
      ensures taken == Taken(old(View())) && View() == AfterTake(old(View()))
    {
      if closed {
        pendingAmbient := None;
        ambientScheduled := false;
        return None;
      }
      taken := pendingAmbient;
      pendingAmbient := None;
      if taken.None? {
        ambientScheduled := false;
      }
    }

    /** Close, up to its waits. */
    method Close()
      modifies `closed, `pendingAmbient
      ensures View() == AfterClose(old(View()))
    {
      if closed {
        return;
      }
      closed := true;
      pendingAmbient := None;
    }
  }

  // ----- executions and drainers -----

  /** Where an execution is; on the way out it gives back its slot, its key and its token in this order. */
  datatype Stage = WaitKey | WaitSlot | Running | DropSlot | DropKey | DropToken
  {
    predicate HoldsKey() { WaitSlot? || Running? || DropSlot? || DropKey? }

    predicate HoldsSlot() { Running? || DropSlot? }
  }

  datatype Exec = Exec(job: Job, ordinary: bool, stage: Stage)

  /** Where a drainer is: before its wait for ordinary work, before its critical section, or executing. */
  datatype Drain = AtTop(executed: bool) | Ready | Executing(exec: nat)

  /** What became of an accepted ambient request; a started one has its execution. */
  datatype Fate = Pending | Started(exec: nat) | Replaced(newer: JobId) | DroppedByClose

  /** `used` are all execution numbers so far; of these, `ran` reached their runner and `gaveUp` never will.
      `accepted` and `finished` count ordinary requests; `ambient` lists the accepted ambient ones in order. */
  datatype System = System(config: Config, shared: Shared, slots: nat, workers: nat, execs: map<nat, Exec>, used: set<nat>,
                           ran: set<nat>, gaveUp: set<nat>, drainers: map<nat, Drain>, accepted: nat, finished: nat,
                           ambient: seq<JobId>, fates: map<JobId, Fate>)

  datatype Event =
    | Submit(job: Job)
    | SubmitAmbient(job: Job, d: nat)
    | Close
    | Dequeue(x: nat)
    | WorkerEnds
    | LockKey(x: nat)
    | TakeSlot(x: nat)
    | GiveUp(x: nat)
    | RunEnds(x: nat)
    | ReleaseSlot(x: nat)
    | ReleaseKey(x: nat)
    | ReleaseToken(x: nat)
    | DrainWaits(d: nat)
    | DrainTakes(d: nat, x: nat)
    | DrainReturns(d: nat)

  predicate At(s: System, x: nat, stage: Stage) {
    x in s.execs && s.execs[x].stage == stage
  }

  /** The keyed locker gives each key to one user at a time. */
  predicate KeyFree(s: System, key: string) {
    forall y :: y in s.execs ==> !(s.execs[y].stage.HoldsKey() && s.execs[y].job.key == key)
  }

  predicate Enabled(s: System, e: Event) {
    match e
    case Submit(job) => true
    case SubmitAmbient(job, d) => job.id !in s.fates && d !in s.drainers
    case Close => true
    case Dequeue(x) => s.workers > 0 && s.shared.queue != [] && x !in s.used
    case WorkerEnds => s.workers > 0 && s.shared.closed
    case LockKey(x) => At(s, x, WaitKey) && KeyFree(s, s.execs[x].job.key)
    case TakeSlot(x) => At(s, x, WaitSlot) && s.slots < s.config.maxConcurrent
    case GiveUp(x) => At(s, x, WaitSlot) && s.shared.closed
    case RunEnds(x) => At(s, x, Running)
    case ReleaseSlot(x) => At(s, x, DropSlot) && s.slots > 0
    case ReleaseKey(x) => At(s, x, DropKey)
    case ReleaseToken(x) => At(s, x, DropToken) && s.shared.tokens > 0
    case DrainWaits(d) =>
      d in s.drainers && s.drainers[d].AtTop? && (!s.drainers[d].executed || s.shared.tokens == 0 || s.shared.closed)
    case DrainTakes(d, x) => d in s.drainers && s.drainers[d].Ready? && x !in s.used
    case DrainReturns(d) => d in s.drainers && (s.drainers[d].Executing? && s.drainers[d].exec !in s.execs)
  }

  function SubmitStep(s: System, job: Job): System {
    s.(shared := AfterSubmit(s.config, s.shared, job),
       accepted := s.accepted + if SubmitAnswer(s.config, s.shared).Accepted? then 1 else 0)
  }

  /** An accepted ambient request replaces the pending one; a drainer starts if none is scheduled. */
  function AmbientStep(s: System, job: Job, d: nat): System {
    if s.shared.closed then s
    else s.(shared := AfterAmbient(s.shared, job),
            drainers := if s.shared.scheduled then s.drainers else s.drainers[d := AtTop(false)],
            ambient := s.ambient + [job.id],
            fates := (if s.shared.pending.Some? then s.fates[s.shared.pending.value.id := Replaced(job.id)] else s.fates)
                     [job.id := Pending])
  }

  function CloseStep(s: System): System {
    s.(shared := AfterClose(s.shared),
       fates := if !s.shared.closed && s.shared.pending.Some? then s.fates[s.shared.pending.value.id := DroppedByClose] else s.fates)
  }

  function DequeueStep(s: System, x: nat): System
    requires s.shared.queue != []
  {
    s.(shared := s.shared.(queue := s.shared.queue[1..]), used := s.used + {x},
       execs := s.execs[x := Exec(s.shared.queue[0], true, WaitKey)])
  }

  function Moved(s: System, x: nat, stage: Stage): System
    requires x in s.execs
  {
    s.(execs := s.execs[x := s.execs[x].(stage := stage)])
  }

  /** An ambient execution holds no token and ends with its key. */
  function ReleaseKeyStep(s: System, x: nat): System
    requires x in s.execs
  {
    if s.execs[x].ordinary then Moved(s, x, DropToken) else s.(execs := s.execs - {x})
  }

  function ReleaseTokenStep(s: System, x: nat): System
    requires s.shared.tokens > 0
  {
    s.(shared := s.shared.(tokens := s.shared.tokens - 1), execs := s.execs - {x}, finished := s.finished + 1)
  }

  function DrainTakesStep(s: System, d: nat, x: nat): System {
    var taken := Taken(s.shared);
    if taken.None? then s.(shared := AfterTake(s.shared), drainers := s.drainers - {d})
    else s.(shared := AfterTake(s.shared), used := s.used + {x}, execs := s.execs[x := Exec(taken.value, false, WaitKey)],
            drainers := s.drainers[d := Executing(x)], fates := s.fates[taken.value.id := Started(x)])
  }

  function Apply(s: System, e: Event): System
    requires Enabled(s, e)
  {
    match e
    case Submit(job) => SubmitStep(s, job)
    case SubmitAmbient(job, d) => AmbientStep(s, job, d)
    case Close => CloseStep(s)
    case Dequeue(x) => DequeueStep(s, x)
    case WorkerEnds => s.(workers := s.workers - 1)
    case LockKey(x) => Moved(s, x, WaitSlot)
    case TakeSlot(x) => Moved(s, x, Running).(slots := s.slots + 1, ran := s.ran + {x})
    case GiveUp(x) => Moved(s, x, DropKey).(gaveUp := s.gaveUp + {x})
    case RunEnds(x) => Moved(s, x, DropSlot)
    case ReleaseSlot(x) => Moved(s, x, DropKey).(slots := s.slots - 1)
    case ReleaseKey(x) => ReleaseKeyStep(s, x)
    case ReleaseToken(x) => ReleaseTokenStep(s, x)
    case DrainWaits(d) => s.(drainers := s.drainers[d := Ready])
    case DrainTakes(d, x) => DrainTakesStep(s, d, x)
    case DrainReturns(d) => s.(drainers := s.drainers[d := AtTop(true)])
  }

  // ----- the invariant -----

  function Ordinary(execs: map<nat, Exec>): set<nat> {
    set x | x in execs && execs[x].ordinary
  }

  function SlotHolders(execs: map<nat, Exec>): set<nat> {
    set x | x in execs && execs[x].stage.HoldsSlot()
  }

  /** Every token is a queued job or an unfinished ordinary execution; every slot has its holder. */
  ghost predicate CountsOk(s: System) {
    && s.shared.tokens == |s.shared.queue| + |Ordinary(s.execs)| <= s.config.Capacity()
    && s.accepted == s.shared.tokens + s.finished
    && s.slots == |SlotHolders(s.execs)| <= s.config.maxConcurrent
    && s.execs.Keys <= s.used
    && (forall x :: x in s.execs && s.execs[x].stage.DropToken? ==> s.execs[x].ordinary)
    && (!s.shared.closed ==> s.workers == s.config.maxConcurrent)
  }

  ghost predicate KeysOk(s: System) {
    forall x, y | x in s.execs && y in s.execs && x != y :: s.execs[x].stage.HoldsKey() && s.execs[y].stage.HoldsKey() ==>
      s.execs[x].job.key != s.execs[y].job.key
  }

  /** At most one drainer lives, exactly while one is scheduled; a pending request has one. */
  ghost predicate AmbientOk(s: System) {
    && (s.shared.scheduled <==> s.drainers != map[])
    && (forall d, e :: d in s.drainers && e in s.drainers ==> d == e)
    && (s.shared.pending.Some? ==> s.shared.scheduled && !s.shared.closed)
    && (forall d :: d in s.drainers && s.drainers[d].Executing? ==> s.drainers[d].exec in s.used)
    && (forall x :: x in s.execs && !s.execs[x].ordinary ==> AwaitedBy(s, x))
  }

  /** The drainer that lives waits for this execution. */
  ghost predicate AwaitedBy(s: System, x: nat) {
    s.drainers != map[] && forall d :: d in s.drainers ==> s.drainers[d] == Executing(x)
  }

  ghost predicate FatesOk(s: System) {
    && (s.shared.pending.Some? ==> s.shared.pending.value.id in s.fates)
    && (forall id :: id in s.fates ==> (s.fates[id].Pending? <==> s.shared.pending.Some? && s.shared.pending.value.id == id))
    && (forall id :: id in s.fates && s.fates[id].DroppedByClose? ==> s.shared.closed)
  }

  /** Request i in the order of acceptance gave way to the one accepted next. */
  ghost predicate GaveWay(s: System, i: nat)
    requires i < |s.ambient|
  {
    i + 1 < |s.ambient| && s.ambient[i] in s.fates && s.fates[s.ambient[i]] == Replaced(s.ambient[i + 1])
  }

  /** The order of acceptance: no id twice, the pending request is the last one, and a request is replaced
      exactly by the next one. */
  ghost predicate OrderOk(s: System) {
    && (forall i, j :: 0 <= i < j < |s.ambient| ==> s.ambient[i] != s.ambient[j])
    && (forall id :: id in s.fates <==> id in s.ambient)
    && (s.shared.pending.Some? ==> s.ambient != [] && s.ambient[|s.ambient| - 1] == s.shared.pending.value.id)
    && (forall i :: 0 <= i < |s.ambient| && s.fates[s.ambient[i]].Replaced? ==> GaveWay(s, i))
  }

  /** How far an execution got. */
  ghost predicate ProgressOk(s: System, x: nat)
    requires x in s.execs
  {
    match s.execs[x].stage
    case WaitKey => x !in s.ran && x !in s.gaveUp
    case WaitSlot => x !in s.ran && x !in s.gaveUp
    case Running => x in s.ran
    case DropSlot => x in s.ran
    case _ => x in s.ran || x in s.gaveUp
  }

  /** A started request has an execution of its own, which is still under way or got to its end. */
  ghost predicate StartedOk(s: System, id: JobId)
    requires id in s.fates && s.fates[id].Started?
  {
    var x := s.fates[id].exec;
    && x in s.used
    && (x in s.execs ==> s.execs[x].job.id == id && !s.execs[x].ordinary)
    && (x !in s.execs ==> x in s.ran || x in s.gaveUp)
  }

  ghost predicate ProgressesOk(s: System) {
    && s.ran <= s.used && s.gaveUp <= s.used && s.ran !! s.gaveUp && (s.gaveUp != {} ==> s.shared.closed)
    && s.execs.Keys <= s.used
    && (forall x :: x in s.execs ==> ProgressOk(s, x))
    && (forall id :: id in s.fates && s.fates[id].Started? ==> StartedOk(s, id))
    && (forall i, j :: i in s.fates && j in s.fates && s.fates[i].Started? && s.fates[i] == s.fates[j] ==> i == j)
  }

  ghost predicate Inv(s: System) {
    s.config.Valid() && CountsOk(s) && KeysOk(s) && AmbientOk(s) && FatesOk(s) && OrderOk(s) && ProgressesOk(s)
  }

  predicate Init(s: System) {
    && s.config.Valid()
    && s == System(s.config, Shared([], 0, false, None, false), 0, s.config.maxConcurrent, map[], {}, {}, {}, map[], 0, 0, [], map[])
  }

  lemma InitInv(s: System)
    requires Init(s)
    ensures Inv(s)
  {
  }

  // How the two counted sets follow a change of one execution.

  lemma SetGrows(a: set<nat>, b: set<nat>, x: nat, before: bool, after: bool)
    requires before == (x in a) && after == (x in b)
    requires forall y :: y != x ==> (y in a <==> y in b)
    ensures |b| + (if before then 1 else 0) == |a| + if after then 1 else 0
  {
    assert a - {x} == b - {x};
    assert |a - {x}| == |a| - if before then 1 else 0;
    assert |b - {x}| == |b| - if after then 1 else 0;
  }

  lemma ExecChanges(execs: map<nat, Exec>, x: nat, exec: Exec)
    ensures var more := execs[x := exec];
            |Ordinary(more)| + (if x in execs && execs[x].ordinary then 1 else 0)
              == |Ordinary(execs)| + (if exec.ordinary then 1 else 0)
            && |SlotHolders(more)| + (if x in execs && execs[x].stage.HoldsSlot() then 1 else 0)
              == |SlotHolders(execs)| + (if exec.stage.HoldsSlot() then 1 else 0)
  {
    var more := execs[x := exec];
    SetGrows(Ordinary(execs), Ordinary(more), x, x in execs && execs[x].ordinary, exec.ordinary);
    SetGrows(SlotHolders(execs), SlotHolders(more), x, x in execs && execs[x].stage.HoldsSlot(), exec.stage.HoldsSlot());
  }

  lemma ExecGone(execs: map<nat, Exec>, x: nat)
    requires x in execs
    ensures |Ordinary(execs - {x})| + (if execs[x].ordinary then 1 else 0) == |Ordinary(execs)|
    ensures |SlotHolders(execs - {x})| + (if execs[x].stage.HoldsSlot() then 1 else 0) == |SlotHolders(execs)|
  {
    SetGrows(Ordinary(execs), Ordinary(execs - {x}), x, execs[x].ordinary, false);
    SetGrows(SlotHolders(execs), SlotHolders(execs - {x}), x, execs[x].stage.HoldsSlot(), false);
  }

  lemma StepInv(s: System, e: Event)
    requires Inv(s) && Enabled(s, e)
    ensures Inv(Apply(s, e))
  {
    StepCounts(s, e);
    StepKeys(s, e);
    StepAmbient(s, e);
    StepFates(s, e);
    StepOrder(s, e);
    StepProgress(s, e);
    assert Apply(s, e).config == s.config;
    hide CountsOk, KeysOk, AmbientOk, FatesOk, OrderOk, ProgressesOk, Apply, Enabled;
  }

  lemma StepCounts(s: System, e: Event)
    requires Inv(s) && Enabled(s, e)
    ensures CountsOk(Apply(s, e))
  {
    hide Ordinary, SlotHolders, KeysOk, FatesOk, OrderOk, ProgressesOk;
    match e {
      case Dequeue(x) => CountsNew(s, DequeueStep(s, x), x);
      case LockKey(x) => CountsMoved(s, x, WaitSlot, s.slots);
      case TakeSlot(x) => CountsMoved(s, x, Running, s.slots + 1);
      case GiveUp(x) => CountsMoved(s, x, DropKey, s.slots);
      case RunEnds(x) => CountsMoved(s, x, DropSlot, s.slots);
      case ReleaseSlot(x) => CountsMoved(s, x, DropKey, s.slots - 1);
      case ReleaseKey(x) => CountsKey(s, x);
      case ReleaseToken(x) => CountsToken(s, x);
      case DrainTakes(d, x) => if Taken(s.shared).Some? { CountsNew(s, DrainTakesStep(s, d, x), x); }
      case _ =>
    }
  }

  lemma CountsNew(s: System, t: System, x: nat)
    requires CountsOk(s) && x !in s.used && x in t.execs && t.execs == s.execs[x := t.execs[x]]
    requires t.execs[x].stage.WaitKey? && t.used == s.used + {x}
    requires t.config == s.config && t.slots == s.slots && t.accepted == s.accepted && t.finished == s.finished
    requires t.shared.tokens == s.shared.tokens && t.shared.closed == s.shared.closed && t.workers == s.workers
    requires |t.shared.queue| + (if t.execs[x].ordinary then 1 else 0) == |s.shared.queue|
    ensures CountsOk(t)
  {
    ExecChanges(s.execs, x, t.execs[x]);
  }

  lemma CountsMoved(s: System, x: nat, stage: Stage, slots: nat)
    requires CountsOk(s) && x in s.execs && !stage.DropToken?
    requires slots + (if s.execs[x].stage.HoldsSlot() then 1 else 0) == s.slots + (if stage.HoldsSlot() then 1 else 0)
    requires slots <= s.config.maxConcurrent
    ensures CountsOk(Moved(s, x, stage).(slots := slots))
  {
    ExecChanges(s.execs, x, s.execs[x].(stage := stage));
  }

  lemma CountsKey(s: System, x: nat)
    requires CountsOk(s) && x in s.execs && s.execs[x].stage.DropKey?
    ensures CountsOk(ReleaseKeyStep(s, x))
  {
    ExecChanges(s.execs, x, s.execs[x].(stage := DropToken));
    ExecGone(s.execs, x);
  }

  lemma CountsToken(s: System, x: nat)
    requires CountsOk(s) && x in s.execs && s.execs[x].stage.DropToken? && s.shared.tokens > 0
    ensures CountsOk(ReleaseTokenStep(s, x))
  {
    ExecGone(s.execs, x);
  }

  lemma StepKeys(s: System, e: Event)
    requires Inv(s) && Enabled(s, e)
    ensures KeysOk(Apply(s, e))
  {
    hide CountsOk, AmbientOk, FatesOk, OrderOk, ProgressesOk;
  }

  lemma StepAmbient(s: System, e: Event)
    requires Inv(s) && Enabled(s, e)
    ensures AmbientOk(Apply(s, e))
  {
    hide CountsOk, KeysOk, FatesOk, OrderOk, ProgressesOk;
  }

  lemma StepFates(s: System, e: Event)
    requires Inv(s) && Enabled(s, e)
    ensures FatesOk(Apply(s, e))
  {
    hide CountsOk, KeysOk, OrderOk, ProgressesOk;
  }

  lemma StepOrder(s: System, e: Event)
    requires Inv(s) && Enabled(s, e)
    ensures OrderOk(Apply(s, e))
  {
    hide CountsOk, KeysOk, AmbientOk, OrderOk, ProgressesOk;
    if e.SubmitAmbient? && !s.shared.closed {
      AcceptedOrder(s, e.job, e.d);
    } else {
      OrderStays(s, Apply(s, e));
    }
  }

  lemma OrderStays(s: System, t: System)
    requires OrderOk(s) && t.ambient == s.ambient && t.fates.Keys == s.fates.Keys
    requires t.shared.pending.Some? ==> t.shared.pending == s.shared.pending
    requires forall id :: id in t.fates && t.fates[id].Replaced? ==> t.fates[id] == s.fates[id]
    ensures OrderOk(t)
  {
    forall i | 0 <= i < |t.ambient| && t.fates[t.ambient[i]].Replaced? ensures GaveWay(t, i) {
      assert GaveWay(s, i);
    }
  }

  lemma AcceptedOrder(s: System, job: Job, d: nat)
    requires OrderOk(s) && FatesOk(s) && !s.shared.closed && job.id !in s.fates
    ensures OrderOk(AmbientStep(s, job, d))
  {
    var t := AmbientStep(s, job, d);
    var n := |s.ambient|;
    assert t.ambient[n] == job.id && t.ambient[..n] == s.ambient;
    forall i | 0 <= i < |t.ambient| && t.fates[t.ambient[i]].Replaced? ensures GaveWay(t, i) {
      assert i < n && t.ambient[i] == s.ambient[i];
      if s.fates[s.ambient[i]].Replaced? { assert GaveWay(s, i); }
    }
  }

  lemma StepProgress(s: System, e: Event)
    requires Inv(s) && Enabled(s, e)
    ensures ProgressesOk(Apply(s, e))
  {
    hide ProgressesOk, CountsOk, KeysOk, AmbientOk, OrderOk;
    var t := Apply(s, e);
    match e {
      case Dequeue(x) => ProgressNew(s, t, x);
      case DrainTakes(d, x) => if Taken(s.shared).Some? { ProgressNew(s, t, x); } else { ProgressStays(s, t); }
      case LockKey(x) => ProgressMoved(s, t, x);
      case TakeSlot(x) => ProgressMoved(s, t, x);
      case GiveUp(x) => ProgressMoved(s, t, x);
      case RunEnds(x) => ProgressMoved(s, t, x);
      case ReleaseSlot(x) => ProgressMoved(s, t, x);
      case ReleaseKey(x) => if s.execs[x].ordinary { ProgressMoved(s, t, x); } else { ProgressGone(s, t, x); }
      case ReleaseToken(x) => ProgressGone(s, t, x);
      case _ => ProgressStays(s, t);
    }
  }

  lemma ProgressStays(s: System, t: System)
    requires ProgressesOk(s) && t.used == s.used && t.ran == s.ran && t.gaveUp == s.gaveUp && t.execs == s.execs
    requires s.shared.closed ==> t.shared.closed
    requires forall id :: id in t.fates && t.fates[id].Started? ==> id in s.fates && t.fates[id] == s.fates[id]
    ensures ProgressesOk(t)
  {
    forall x | x in t.execs ensures ProgressOk(t, x) { assert ProgressOk(s, x); }
    forall id | id in t.fates && t.fates[id].Started? ensures StartedOk(t, id) { assert StartedOk(s, id); }
  }

  /** A new execution: of a queued job, or of the ambient request that it starts. */
  lemma ProgressNew(s: System, t: System, x: nat)
    requires ProgressesOk(s) && x !in s.used && t.used == s.used + {x} && t.ran == s.ran && t.gaveUp == s.gaveUp
    requires t.shared.closed == s.shared.closed && x in t.execs && t.execs == s.execs[x := t.execs[x]] && t.execs[x].stage.WaitKey?
    requires forall id :: id in t.fates && t.fates[id].Started? ==>
               (id in s.fates && t.fates[id] == s.fates[id])
               || (t.fates[id] == Started(x) && t.execs[x].job.id == id && !t.execs[x].ordinary)
    ensures ProgressesOk(t)
  {
    forall y | y in t.execs ensures ProgressOk(t, y) { if y != x { assert ProgressOk(s, y); } }
    forall id | id in t.fates && t.fates[id].Started? ensures StartedOk(t, id) {
      if id in s.fates && t.fates[id] == s.fates[id] { assert StartedOk(s, id); }
    }
    forall i, j | i in t.fates && j in t.fates && t.fates[i].Started? && t.fates[i] == t.fates[j] ensures i == j {
      if t.fates[i].exec != x { assert StartedOk(s, i) && StartedOk(s, j); }
      if t.fates[i].exec == x && i in s.fates && s.fates[i] == t.fates[i] { assert StartedOk(s, i); }
      if t.fates[j].exec == x && j in s.fates && s.fates[j] == t.fates[j] { assert StartedOk(s, j); }
    }
  }

  lemma ProgressMoved(s: System, t: System, x: nat)
    requires ProgressesOk(s) && x in s.execs && x in t.execs && t.execs == s.execs[x := s.execs[x].(stage := t.execs[x].stage)]
    requires t.used == s.used && t.fates == s.fates && t.shared.closed == s.shared.closed
    requires t.ran == s.ran + (if t.execs[x].stage.Running? then {x} else {})
    requires t.gaveUp == s.gaveUp + (if s.execs[x].stage.WaitSlot? && t.execs[x].stage.DropKey? then {x} else {})
    requires match t.execs[x].stage
             case WaitSlot => s.execs[x].stage.WaitKey?
             case Running => s.execs[x].stage.WaitSlot?
             case DropSlot => s.execs[x].stage.Running?
             case DropKey => s.execs[x].stage.DropSlot? || (s.execs[x].stage.WaitSlot? && s.shared.closed)
             case DropToken => s.execs[x].stage.DropKey?
             case WaitKey => false
    ensures ProgressesOk(t)
  {
    assert ProgressOk(s, x);
    forall y | y in t.execs ensures ProgressOk(t, y) { assert ProgressOk(s, y); }
    forall id | id in t.fates && t.fates[id].Started? ensures StartedOk(t, id) { assert StartedOk(s, id); }
  }

  /** An execution that ends has run, or has given up. */
  lemma ProgressGone(s: System, t: System, x: nat)
    requires ProgressesOk(s) && x in s.execs && t.execs == s.execs - {x}
    requires s.execs[x].stage.DropKey? || s.execs[x].stage.DropToken?
    requires t.used == s.used && t.fates == s.fates && t.ran == s.ran && t.gaveUp == s.gaveUp && t.shared.closed == s.shared.closed
    ensures ProgressesOk(t)
  {
    assert ProgressOk(s, x);
    forall y | y in t.execs ensures ProgressOk(t, y) { assert ProgressOk(s, y); }
    forall id | id in t.fates && t.fates[id].Started? ensures StartedOk(t, id) { assert StartedOk(s, id); }
  }

  // ----- whole runs -----

  predicate Reaches(s: System, es: seq<Event>, t: System)
    decreases |es|
  {
    if es == [] then s == t
    else Enabled(s, es[0]) && Reaches(Apply(s, es[0]), es[1..], t)
  }

  lemma {:induction false} ReachesInv(s: System, es: seq<Event>, t: System)
    requires Inv(s) && Reaches(s, es, t)
    ensures Inv(t)
    decreases |es|
  {
    if es != [] {
      StepInv(s, es[0]);
      ReachesInv(Apply(s, es[0]), es[1..], t);
    }
  }

  /** In every reachable state the tokens are exactly the queued and the unfinished ordinary requests,
      so a taken token always leaves room in the queue: the second "busy" answer cannot occur. */
  lemma {:induction false} AdmissionIsExact(s: System, es: seq<Event>, t: System)
    requires Init(s) && Reaches(s, es, t)
    ensures t.shared.tokens == |t.shared.queue| + |Ordinary(t.execs)| == t.accepted - t.finished
    ensures t.shared.tokens <= t.config.Capacity()
    ensures !SubmitAnswer(t.config, t.shared).JobsFull?
    ensures SubmitAnswer(t.config, t.shared).Accepted? <==> !t.shared.closed && t.shared.tokens < t.config.Capacity()
  {
    InitInv(s);
    ReachesInv(s, es, t);
  }

  function Runners(execs: map<nat, Exec>): set<nat> {
    set x | x in execs && execs[x].stage.Running?
  }

  lemma {:induction false} SubsetCount(a: set<nat>, b: set<nat>)
    requires a <= b
    ensures |a| <= |b|
  {
    if a != {} {
      SomeOf(a);
      var x :| x in a;
      SubsetCount(a - {x}, b - {x});
    }
  }

  lemma SomeOf(a: set<nat>)
    requires a != {}
    ensures exists x :: x in a
  {
    assert (forall x :: x !in a) ==> a == {};
  }

  /** At most MaxConcurrent runners execute, ambient ones included, and no two share a memory key. */
  lemma {:induction false} RunnersAreBounded(s: System, es: seq<Event>, t: System)
    requires Init(s) && Reaches(s, es, t)
    ensures |Runners(t.execs)| <= t.config.maxConcurrent
    ensures forall x, y :: x in Runners(t.execs) && y in Runners(t.execs) && x != y ==> t.execs[x].job.key != t.execs[y].job.key
  {
    InitInv(s);
    ReachesInv(s, es, t);
    SubsetCount(Runners(t.execs), SlotHolders(t.execs));
  }

  // ----- no deadlock between keys and slots -----

  /** x cannot go on before y does: it waits for y's key, or for a slot while y has one. */
  predicate WaitsFor(s: System, x: nat, y: nat) {
    && x in s.execs && y in s.execs && x != y
    && ((s.execs[x].stage.WaitKey? && s.execs[y].stage.HoldsKey() && s.execs[x].job.key == s.execs[y].job.key)
        || (s.execs[x].stage.WaitSlot? && s.slots >= s.config.maxConcurrent && s.execs[y].stage.HoldsSlot()))
  }

  /** How many waits can still be ahead. */
  function WaitRank(stage: Stage): nat {
    if stage.WaitKey? then 2 else if stage.WaitSlot? then 1 else 0
  }

  /** Waiting never forms a cycle: each wait leads to a stage of smaller rank. */
  lemma WaitsDescend(s: System, x: nat, y: nat)
    requires WaitsFor(s, x, y)
    ensures WaitRank(s.execs[y].stage) < WaitRank(s.execs[x].stage)
  {
  }

  predicate WaitChain(s: System, xs: seq<nat>) {
    |xs| > 0 && forall i :: 0 <= i < |xs| - 1 ==> WaitsFor(s, xs[i], xs[i + 1])
  }

  lemma {:induction false} NoWaitCycle(s: System, xs: seq<nat>)
    requires WaitChain(s, xs) && |xs| >= 2
    ensures xs[0] != xs[|xs| - 1]
  {
    ChainDescends(s, xs);
  }

  lemma {:induction false} ChainDescends(s: System, xs: seq<nat>)
    requires WaitChain(s, xs) && |xs| >= 2
    ensures xs[0] in s.execs && xs[|xs| - 1] in s.execs
    ensures WaitRank(s.execs[xs[|xs| - 1]].stage) < WaitRank(s.execs[xs[0]].stage)
  {
    WaitsDescend(s, xs[0], xs[1]);
    if |xs| > 2 {
      var rest := xs[1..];
      forall i | 0 <= i < |rest| - 1 ensures WaitsFor(s, rest[i], rest[i + 1]) {
        assert WaitsFor(s, xs[i + 1], xs[i + 1 + 1]);
      }
      ChainDescends(s, rest);
    }
  }

  /** The step that an execution takes next, if nothing holds it up. */
  function StepOf(stage: Stage, x: nat): Event {
    match stage
    case WaitKey => LockKey(x)
    case WaitSlot => TakeSlot(x)
    case Running => RunEnds(x)
    case DropSlot => ReleaseSlot(x)
    case DropKey => ReleaseKey(x)
    case DropToken => ReleaseToken(x)
  }

  /** An execution that cannot move waits for another one, so among any executions one can move. */
  lemma BlockedHasBlocker(s: System, x: nat)
    requires Inv(s) && x in s.execs && !Enabled(s, StepOf(s.execs[x].stage, x))
    ensures exists y :: WaitsFor(s, x, y)
  {
    ReleasesAreFree(s, x);
    if s.execs[x].stage.WaitKey? {
      var y :| y in s.execs && s.execs[y].stage.HoldsKey() && s.execs[y].job.key == s.execs[x].job.key;
      assert WaitsFor(s, x, y);
    } else if s.execs[x].stage.WaitSlot? {
      SomeOf(SlotHolders(s.execs));
      var y :| y in SlotHolders(s.execs);
      assert WaitsFor(s, x, y);
    }
  }

  /** Whoever is past its waits is never held up. */
  lemma ReleasesAreFree(s: System, x: nat)
    requires Inv(s) && x in s.execs
    ensures !s.execs[x].stage.WaitKey? && !s.execs[x].stage.WaitSlot? ==> Enabled(s, StepOf(s.execs[x].stage, x))
  {
    if s.execs[x].stage.DropSlot? { assert x in SlotHolders(s.execs); }
    if s.execs[x].stage.DropToken? { assert x in Ordinary(s.execs); }
  }

  lemma {:induction false} SomeoneMoves(s: System, x: nat)
    requires Inv(s) && x in s.execs
    ensures exists y :: y in s.execs && Enabled(s, StepOf(s.execs[y].stage, y))
    decreases WaitRank(s.execs[x].stage)
  {
    if !Enabled(s, StepOf(s.execs[x].stage, x)) {
      BlockedHasBlocker(s, x);
      var y :| WaitsFor(s, x, y);
      WaitsDescend(s, x, y);
      SomeoneMoves(s, y);
    }
  }

  /** While the runtime is open its workers live, so a queued request is taken up at once. */
  lemma QueuedIsTaken(s: System, x: nat)
    requires Inv(s) && !s.shared.closed && s.shared.queue != [] && x !in s.used
    ensures Enabled(s, Dequeue(x)) && At(Apply(s, Dequeue(x)), x, WaitKey)
    ensures Apply(s, Dequeue(x)).execs[x].job == s.shared.queue[0]
  {
  }

  predicate AllEnabled(s: System, es: seq<Event>)
    decreases |es|
  {
    es == [] || (Enabled(s, es[0]) && AllEnabled(Apply(s, es[0]), es[1..]))
  }

  /** An ordinary request is accepted if it comes while the runtime is open and a token is left. */
  function AdmittedBy(s: System, e: Event): seq<Job> {
    if e.Submit? && !s.shared.closed && s.shared.tokens < s.config.Capacity() then [e.job] else []
  }

  /** A worker takes a request up by making an execution of it. */
  function TakenBy(s: System, e: Event): seq<Job>
    requires Enabled(s, e)
  {
    if e.Dequeue? && e.x in Apply(s, e).execs then [Apply(s, e).execs[e.x].job] else []
  }

  /** The requests that were accepted in a run, in the order of submission. */
  function Admitted(s: System, es: seq<Event>): seq<Job>
    requires AllEnabled(s, es)
    decreases |es|
  {
    if es == [] then [] else AdmittedBy(s, es[0]) + Admitted(Apply(s, es[0]), es[1..])
  }

  /** The requests that were taken up in a run, in this order. */
  function TakenUp(s: System, es: seq<Event>): seq<Job>
    requires AllEnabled(s, es)
    decreases |es|
  {
    if es == [] then [] else TakenBy(s, es[0]) + TakenUp(Apply(s, es[0]), es[1..])
  }

  lemma QueueStep(s: System, e: Event)
    requires Inv(s) && Enabled(s, e)
    ensures s.shared.queue + AdmittedBy(s, e) == TakenBy(s, e) + Apply(s, e).shared.queue
  {
    hide KeysOk, AmbientOk, FatesOk, OrderOk, ProgressesOk, Ordinary, SlotHolders;
    if e.Dequeue? { assert s.shared.queue == [s.shared.queue[0]] + s.shared.queue[1..]; }
  }

  lemma Regroup(queue: seq<Job>, in0: seq<Job>, in1: seq<Job>, out0: seq<Job>, out1: seq<Job>, mid: seq<Job>, rest: seq<Job>)
    requires queue + in0 == out0 + mid && mid + in1 == out1 + rest
    ensures queue + (in0 + in1) == (out0 + out1) + rest
  {
    assert queue + (in0 + in1) == (queue + in0) + in1 == (out0 + mid) + in1 == out0 + (mid + in1);
    assert out0 + (out1 + rest) == (out0 + out1) + rest;
  }

  /** Requests are taken up in the order of submission, none is lost and none taken up twice: what was accepted in a
      run is what was taken up in it, followed by what is still queued. */
  lemma {:induction false} FirstComeFirstServed(s: System, es: seq<Event>, t: System)
    requires Inv(s) && AllEnabled(s, es) && Reaches(s, es, t)
    ensures s.shared.queue + Admitted(s, es) == TakenUp(s, es) + t.shared.queue
    decreases |es|
  {
    hide Inv, Enabled, Apply, AdmittedBy, TakenBy;
    if es == [] {
      assert s.shared.queue + [] == [] + s.shared.queue;
    } else {
      var next := Apply(s, es[0]);
      StepInv(s, es[0]);
      QueueStep(s, es[0]);
      FirstComeFirstServed(next, es[1..], t);
      Regroup(s.shared.queue, AdmittedBy(s, es[0]), Admitted(next, es[1..]), TakenBy(s, es[0]), TakenUp(next, es[1..]),
              next.shared.queue, t.shared.queue);
    }
  }

  // ----- ambient requests -----

  /** At most one drainer is alive, a pending request has one, and every accepted ambient request is
      pending, has an execution of its own that is under way, ran, or gave up because the runtime closed, gave
      way to the request accepted next, or was dropped as the last one because of Close. */
  lemma {:induction false} AmbientIsNotLost(s: System, es: seq<Event>, t: System, id: JobId)
    requires Init(s) && Reaches(s, es, t) && id in t.fates
    ensures forall d, e :: d in t.drainers && e in t.drainers ==> d == e
    ensures match t.fates[id] {
              case Pending => t.shared.pending.Some? && t.shared.pending.value.id == id && t.drainers != map[]
              case Started(x) =>
                x in t.used
                && (forall other :: other in t.fates && other != id ==> t.fates[other] != Started(x))
                && (if x in t.execs then t.execs[x].job.id == id && !t.execs[x].ordinary
                    else x in t.ran || (x in t.gaveUp && t.shared.closed))
              case Replaced(newer) => exists i :: 0 <= i < |t.ambient| - 1 && t.ambient[i] == id && t.ambient[i + 1] == newer
              case DroppedByClose => t.shared.closed
            }
  {
    InitInv(s);
    ReachesInv(s, es, t);
    if t.fates[id].Replaced? {
      var i :| 0 <= i < |t.ambient| && t.ambient[i] == id;
      assert GaveWay(t, i);
    } else if t.fates[id].Started? {
      assert StartedOk(t, id);
    }
    hide CountsOk, KeysOk;
  }

  /** Ambient requests run one at a time. */
  lemma {:induction false} OneAmbientAtATime(s: System, es: seq<Event>, t: System, x: nat, y: nat)
    requires Init(s) && Reaches(s, es, t)
    requires x in t.execs && y in t.execs && !t.execs[x].ordinary && !t.execs[y].ordinary
    ensures x == y
  {
    InitInv(s);
    ReachesInv(s, es, t);
    assert AwaitedBy(t, x) && AwaitedBy(t, y);
    hide CountsOk, KeysOk, FatesOk, OrderOk, ProgressesOk;
  }

  /** An ambient request that finds no drainer is taken at once by one of its own, whatever ordinary work there is. */
  lemma FirstAmbientGoesAtOnce(s: System, job: Job, d: nat, x: nat)
    requires Inv(s) && Enabled(s, SubmitAmbient(job, d)) && !s.shared.closed && !s.shared.scheduled && x !in s.used
    ensures var t := Apply(s, SubmitAmbient(job, d));
            Enabled(t, DrainWaits(d)) && Enabled(Apply(t, DrainWaits(d)), DrainTakes(d, x))
            && var u := Apply(Apply(t, DrainWaits(d)), DrainTakes(d, x)); At(u, x, WaitKey) && u.execs[x].job == job
  {
    hide CountsOk, KeysOk, FatesOk, OrderOk, ProgressesOk;
  }

  /** After an ambient request a drainer lets ordinary work go first: it takes another one only if at some moment since
      no ordinary request was unfinished, or the runtime closed. */
  lemma {:induction false} DrainerLetsOrdinaryGoFirst(s: System, es: seq<Event>, t: System, d: nat) returns (k: nat, u: System)
    requires Reaches(s, es, t) && d in s.drainers && s.drainers[d] == AtTop(true)
    requires d in t.drainers && t.drainers[d].Ready?
    ensures k <= |es| && Reaches(s, es[..k], u) && (u.shared.tokens == 0 || u.shared.closed)
    decreases |es|
  {
    var next := Apply(s, es[0]);
    if es[0] == DrainWaits(d) {
      k, u := 0, s;
    } else {
      TopStays(s, es[0], d);
      k, u := DrainerLetsOrdinaryGoFirst(next, es[1..], t, d);
      k := k + 1;
      assert es[..k][1..] == es[1..][..k - 1];
    }
  }

  lemma TopStays(s: System, e: Event, d: nat)
    requires Enabled(s, e) && d in s.drainers && s.drainers[d] == AtTop(true) && e != DrainWaits(d)
    ensures d in Apply(s, e).drainers && Apply(s, e).drainers[d] == AtTop(true)
  {
  }

  /** An execution ran exactly if it took a slot, and gives up only when the runtime has closed. */
  lemma RanMeansRunning(s: System, e: Event, x: nat)
    requires Inv(s) && Enabled(s, e)
    ensures x in Apply(s, e).ran && x !in s.ran <==> e == TakeSlot(x) && At(Apply(s, e), x, Running)
    ensures x in Apply(s, e).gaveUp && x !in s.gaveUp <==> e == GiveUp(x) && s.shared.closed
  {
    hide CountsOk, KeysOk, AmbientOk, FatesOk, OrderOk;
  }

  /** What became of a request is final once it is no longer pending: it is started at most once, and
      a started one is never replaced or dropped. */
  lemma {:induction false} FatesAreFinal(s: System, es: seq<Event>, t: System, id: JobId)
    requires Inv(s) && Reaches(s, es, t) && id in s.fates && !s.fates[id].Pending?
    ensures id in t.fates && t.fates[id] == s.fates[id]
    decreases |es|
  {
    if es != [] {
      StepInv(s, es[0]);
      FateStep(s, es[0], id);
      FatesAreFinal(Apply(s, es[0]), es[1..], t, id);
    }
  }

  lemma FateStep(s: System, e: Event, id: JobId)
    requires Inv(s) && Enabled(s, e) && id in s.fates && !s.fates[id].Pending?
    ensures var t := Apply(s, e); id in t.fates && t.fates[id] == s.fates[id]
  {
    hide CountsOk, KeysOk, AmbientOk, OrderOk, ProgressesOk;
  }

  // ----- closing -----

  /** Close returns when workers, executions and drainers have ended. */
  predicate CloseReturns(s: System) {
    s.shared.closed && s.workers == 0 && s.execs == map[] && s.drainers == map[]
  }

  /** After that nothing runs and nothing ever will: no further request is accepted, and what was
      still queued is exactly what keeps its token. */
  lemma {:induction false} ClosedForGood(s: System, es: seq<Event>, t: System)
    requires Inv(s) && CloseReturns(s) && Reaches(s, es, t)
    ensures CloseReturns(t) && t.accepted == s.accepted && t.finished == s.finished && t.shared.queue == s.shared.queue
    ensures t.shared.tokens == |t.shared.queue| && t.shared.pending.None?
    decreases |es|
  {
    if es == [] {
      assert Ordinary(s.execs) == {};
    } else {
      StepInv(s, es[0]);
      ClosedStep(s, es[0]);
      ClosedForGood(Apply(s, es[0]), es[1..], t);
    }
  }

  lemma ClosedStep(s: System, e: Event)
    requires Inv(s) && CloseReturns(s) && Enabled(s, e)
    ensures var t := Apply(s, e); CloseReturns(t) && t.accepted == s.accepted && t.finished == s.finished && t.shared == s.shared
  {
  }
}
