/**
 keyedLocker: one mutex per key, made on first use and dropped with its last
 user. The two critical sections on the map and the locking of an entry are
 separate steps, and any number of threads interleave.
 */
module KeyedLock {

  type Key = string
  type ThreadId = nat

  /** Entries are heap objects; here a number, never reused. */
  type EntryId = nat

  /** The map, and the reference count of every entry ever made. */
  datatype Locks = Locks(entries: map<Key, EntryId>, refs: seq<nat>)

  ghost predicate LocksOk(l: Locks) {
    forall k :: k in l.entries ==> l.entries[k] < |l.refs|
  }

  function EntryFor(l: Locks, key: Key): EntryId {
    if key in l.entries then l.entries[key] else |l.refs|
  }

  function AfterEnter(l: Locks, key: Key): Locks
    requires LocksOk(l)
  {
    if key in l.entries then Locks(l.entries, l.refs[l.entries[key] := l.refs[l.entries[key]] + 1])
    else Locks(l.entries[key := |l.refs|], l.refs + [1])
  }

  function AfterLeave(l: Locks, key: Key, entry: EntryId): Locks
    requires entry < |l.refs| && l.refs[entry] > 0
  {
    var refs := l.refs[entry := l.refs[entry] - 1];
    Locks(if refs[entry] == 0 && key in l.entries && l.entries[key] == entry then l.entries - {key} else l.entries, refs)
  }

  class KeyedLocker {
    var entries: map<Key, EntryId>
    var refs: seq<nat>

    function View(): Locks
      reads this
    {
      Locks(entries, refs)
    }

    constructor ()
      ensures View() == Locks(map[], [])
    {
      entries, refs := map[], [];
    }

    /** The section of Acquire before the entry is locked. */
    method Enter(key: Key) returns (entry: EntryId)
      requires LocksOk(View())
      modifies this
      ensures entry == EntryFor(old(View()), key) && View() == AfterEnter(old(View()), key)
    {
      if key in entries {
        entry := entries[key];
      } else {
        entry := |refs|;
        refs := refs + [0];
        entries := entries[key := entry];
      }
      refs := refs[entry := refs[entry] + 1];
    }

    /** The section of the release closure after the entry is unlocked. */
    method Leave(key: Key, entry: EntryId)
      requires entry < |refs| && refs[entry] > 0
      modifies this
      ensures View() == AfterLeave(old(View()), key, entry)
    {
      refs := refs[entry := refs[entry] - 1];
      if refs[entry] == 0 && key in entries && entries[key] == entry {
        entries := entries - {key};
      }
    }
  }

  // ----- any number of threads -----

  datatype Pc = Waiting(key: Key, entry: EntryId) | Holding(key: Key, entry: EntryId) | Leaving(key: Key, entry: EntryId) | Released

  datatype System = System(locks: Locks, threads: map<ThreadId, Pc>, locked: set<EntryId>)

  datatype Event = Enter(t: ThreadId, key: Key) | Lock(t: ThreadId) | Unlock(t: ThreadId) | Leave(t: ThreadId) | Again(t: ThreadId)

  predicate Uses(s: System, t: ThreadId, entry: EntryId) {
    t in s.threads && !s.threads[t].Released? && s.threads[t].entry == entry
  }

  function Users(s: System, entry: EntryId): set<ThreadId> {
    set t | t in s.threads && Uses(s, t, entry)
  }

  predicate Enabled(s: System, e: Event) {
    match e
    case Enter(t, _) => t !in s.threads
    case Lock(t) => t in s.threads && (s.threads[t].Waiting? && s.threads[t].entry !in s.locked)
    case Unlock(t) => t in s.threads && s.threads[t].Holding?
    case Leave(t) => t in s.threads && s.threads[t].Leaving?
    // A second call of the release closure, which runs its body only once.
    case Again(t) => t in s.threads && s.threads[t].Released?
  }

  function LockStep(s: System, t: ThreadId): System
    requires t in s.threads && s.threads[t].Waiting?
  {
    s.(threads := s.threads[t := Holding(s.threads[t].key, s.threads[t].entry)], locked := s.locked + {s.threads[t].entry})
  }

  function UnlockStep(s: System, t: ThreadId): System
    requires t in s.threads && s.threads[t].Holding?
  {
    s.(threads := s.threads[t := Leaving(s.threads[t].key, s.threads[t].entry)], locked := s.locked - {s.threads[t].entry})
  }

  function EnterStep(s: System, t: ThreadId, key: Key): System
    requires LocksOk(s.locks)
  {
    System(AfterEnter(s.locks, key), s.threads[t := Waiting(key, EntryFor(s.locks, key))], s.locked)
  }

  function LeaveStep(s: System, t: ThreadId): System
    requires t in s.threads && s.threads[t].Leaving?
    requires s.threads[t].entry < |s.locks.refs| && s.locks.refs[s.threads[t].entry] > 0
  {
    s.(locks := AfterLeave(s.locks, s.threads[t].key, s.threads[t].entry), threads := s.threads[t := Released])
  }

  function Apply(s: System, e: Event): System
    requires Inv(s) && Enabled(s, e)
  {
    match e
    case Enter(t, key) => EnterStep(s, t, key)
    case Lock(t) => LockStep(s, t)
    case Unlock(t) => UnlockStep(s, t)
    case Leave(t) =>
      UserCounts(s, t);
      LeaveStep(s, t)
    case Again(t) => s
  }

  // ----- the invariant -----

  /** The reference count is the number of threads that wait for, hold or are releasing the entry. */
  ghost predicate CountsOk(s: System) {
    forall e :: 0 <= e < |s.locks.refs| ==> s.locks.refs[e] == |Users(s, e)|
  }

  /** A thread's entry is the one in the map under its key. */
  ghost predicate EntriesOk(s: System) {
    KeysOk(s) && UsedOk(s)
  }

  ghost predicate KeysOk(s: System) {
    && (forall t :: t in s.threads && !s.threads[t].Released? ==>
          s.threads[t].key in s.locks.entries && s.locks.entries[s.threads[t].key] == s.threads[t].entry)
    && (forall k, l :: k in s.locks.entries && l in s.locks.entries && s.locks.entries[k] == s.locks.entries[l] ==> k == l)
  }

  /** No entry stays in the map without a user. */
  ghost predicate UsedOk(s: System) {
    forall k :: k in s.locks.entries ==> exists t :: Uses(s, t, s.locks.entries[k])
  }

  ghost predicate MutexOk(s: System) {
    && (forall t :: t in s.threads && s.threads[t].Holding? ==> s.threads[t].entry in s.locked)
    && (forall t, u | t in s.threads && u in s.threads && s.threads[t].Holding? && s.threads[u].Holding? ::
          s.threads[t].entry == s.threads[u].entry ==> t == u)
    && (forall e :: e in s.locked ==> exists t :: Uses(s, t, e) && s.threads[t].Holding?)
  }

  ghost predicate Inv(s: System) {
    LocksOk(s.locks) && CountsOk(s) && EntriesOk(s) && MutexOk(s)
  }

  lemma UserCounts(s: System, t: ThreadId)
    requires Inv(s) && t in s.threads && !s.threads[t].Released?
    ensures s.threads[t].entry < |s.locks.refs| && s.locks.refs[s.threads[t].entry] > 0
  {
    assert t in Users(s, s.threads[t].entry);
  }

  lemma InitInv()
    ensures Inv(System(Locks(map[], []), map[], {}))
  {
  }

  lemma StepInv(s: System, e: Event)
    requires Inv(s) && Enabled(s, e)
    ensures Inv(Apply(s, e))
  {
    match e {
      case Enter(t, key) => EnterInv(s, t, key);
      case Lock(t) => LockInv(s, t);
      case Unlock(t) => UnlockInv(s, t);
      case Leave(t) => LeaveInv(s, t);
      case Again(t) =>
    }
  }

  /** Locking and unlocking change no user. */
  lemma SameUsers(s: System, u: System)
    requires CountsOk(s) && UsedOk(s) && u.locks == s.locks
    requires forall t, n :: Uses(u, t, n) == Uses(s, t, n)
    ensures CountsOk(u) && UsedOk(u)
  {
    hide Uses;
    forall n | 0 <= n < |s.locks.refs| ensures Users(u, n) == Users(s, n) {
      forall t ensures t in Users(u, n) <==> t in Users(s, n) { UserIff(s, t, n); UserIff(u, t, n); }
    }
    forall k | k in u.locks.entries ensures exists t :: Uses(u, t, u.locks.entries[k]) {
      var t :| Uses(s, t, s.locks.entries[k]);
      assert Uses(u, t, u.locks.entries[k]);
    }
  }

  lemma UserIff(s: System, t: ThreadId, n: EntryId)
    ensures t in Users(s, n) <==> Uses(s, t, n)
  {
  }

  lemma LockInv(s: System, t: ThreadId)
    requires Inv(s) && t in s.threads && s.threads[t].Waiting? && s.threads[t].entry !in s.locked
    ensures Inv(LockStep(s, t))
  {
    var u := LockStep(s, t);
    assert forall w, n :: Uses(u, w, n) == Uses(s, w, n);
    SameUsers(s, u);
    forall n | n in u.locked ensures exists w :: Uses(u, w, n) && u.threads[w].Holding? {
      if n in s.locked {
        var w :| Uses(s, w, n) && s.threads[w].Holding?;
        assert Uses(u, w, n);
      } else {
        assert Uses(u, t, n);
      }
    }
    hide CountsOk, UsedOk;
  }

  lemma UnlockInv(s: System, t: ThreadId)
    requires Inv(s) && t in s.threads && s.threads[t].Holding?
    ensures Inv(UnlockStep(s, t))
  {
    var u := UnlockStep(s, t);
    assert forall w, n :: Uses(u, w, n) == Uses(s, w, n);
    SameUsers(s, u);
    forall n | n in u.locked ensures exists w :: Uses(u, w, n) && u.threads[w].Holding? {
      var w :| Uses(s, w, n) && s.threads[w].Holding?;
      assert Uses(u, w, n);
    }
    hide CountsOk, UsedOk;
  }

  lemma EnterInv(s: System, t: ThreadId, key: Key)
    requires Inv(s) && t !in s.threads
    ensures Inv(EnterStep(s, t, key))
  {
    EnterCounts(s, t, key);
    EnterEntries(s, t, key);
    hide CountsOk, EntriesOk;
    LockedStay(s, EnterStep(s, t, key), t);
  }

  lemma Entered(l: Locks, key: Key)
    requires LocksOk(l)
    ensures var m, entry := AfterEnter(l, key), EntryFor(l, key);
            m.entries == l.entries[key := entry] && entry < |m.refs| && |l.refs| <= |m.refs| <= entry + 1 + |l.refs|
            && (forall n :: 0 <= n < |m.refs| ==>
                  m.refs[n] == (if n < |l.refs| then l.refs[n] else 0) + if n == entry then 1 else 0)
            && (key in l.entries ==> |m.refs| == |l.refs|) && (key !in l.entries ==> |m.refs| == |l.refs| + 1)
  {
  }

  lemma EnterCounts(s: System, t: ThreadId, key: Key)
    requires Inv(s) && t !in s.threads
    ensures CountsOk(EnterStep(s, t, key))
  {
    var u, entry := EnterStep(s, t, key), EntryFor(s.locks, key);
    hide Users, AfterEnter, KeysOk, UsedOk, MutexOk;
    NoUsers(s, |s.locks.refs|);
    Entered(s.locks, key);
    forall n | 0 <= n < |u.locks.refs| ensures u.locks.refs[n] == |Users(u, n)| {
      if n < |s.locks.refs| { assert s.locks.refs[n] == |Users(s, n)|; }
      NotAUser(s, t, n);
      EnterUsers(s, t, key, n);
    }
  }

  lemma EnterUsers(s: System, t: ThreadId, key: Key, n: EntryId)
    requires LocksOk(s.locks) && t !in s.threads
    ensures Users(EnterStep(s, t, key), n) == Users(s, n) + if n == EntryFor(s.locks, key) then {t} else {}
  {
    hide AfterEnter;
  }

  lemma NotAUser(s: System, t: ThreadId, n: EntryId)
    requires t !in s.threads
    ensures t !in Users(s, n)
  {
  }

  lemma EnterEntries(s: System, t: ThreadId, key: Key)
    requires Inv(s) && t !in s.threads
    ensures LocksOk(EnterStep(s, t, key).locks) && EntriesOk(EnterStep(s, t, key))
  {
    Entered(s.locks, key);
    hide AfterEnter, CountsOk, MutexOk;
    EnterUsed(s, t, key);
    EnterKeys(s, t, key);
  }

  lemma EnterUsed(s: System, t: ThreadId, key: Key)
    requires LocksOk(s.locks) && UsedOk(s) && t !in s.threads
    ensures UsedOk(EnterStep(s, t, key))
  {
    var u := EnterStep(s, t, key);
    Entered(s.locks, key);
    hide AfterEnter;
    forall k | k in u.locks.entries ensures exists w :: Uses(u, w, u.locks.entries[k]) {
      if k == key {
        assert Uses(u, t, u.locks.entries[k]);
      } else {
        var w :| Uses(s, w, s.locks.entries[k]);
        assert Uses(u, w, u.locks.entries[k]);
      }
    }
  }

  lemma EnterKeys(s: System, t: ThreadId, key: Key)
    requires LocksOk(s.locks) && KeysOk(s) && t !in s.threads
    ensures KeysOk(EnterStep(s, t, key))
  {
    Entered(s.locks, key);
    hide AfterEnter;
  }

  lemma NoUsers(s: System, n: EntryId)
    requires LocksOk(s.locks) && EntriesOk(s) && n >= |s.locks.refs|
    ensures Users(s, n) == {}
  {
  }

  /** A step of a thread that holds nothing changes no mutex. */
  lemma LockedStay(s: System, u: System, t: ThreadId)
    requires MutexOk(s) && u.locked == s.locked
    requires t in s.threads ==> !s.threads[t].Holding?
    requires t in u.threads && !u.threads[t].Holding? && u.threads == s.threads[t := u.threads[t]]
    ensures MutexOk(u)
  {
    forall n | n in u.locked ensures exists w :: Uses(u, w, n) && u.threads[w].Holding? {
      var w :| Uses(s, w, n) && s.threads[w].Holding?;
      assert Uses(u, w, n);
    }
  }

  lemma LeaveInv(s: System, t: ThreadId)
    requires Inv(s) && t in s.threads && s.threads[t].Leaving?
    ensures Inv(Apply(s, Leave(t)))
  {
    UserCounts(s, t);
    LeaveCounts(s, t);
    LeaveEntries(s, t);
    hide CountsOk, EntriesOk;
    LockedStay(s, LeaveStep(s, t), t);
  }

  lemma LeaveCounts(s: System, t: ThreadId)
    requires Inv(s) && t in s.threads && s.threads[t].Leaving?
    requires s.threads[t].entry < |s.locks.refs| && s.locks.refs[s.threads[t].entry] > 0
    ensures CountsOk(LeaveStep(s, t))
  {
    var u, entry := LeaveStep(s, t), s.threads[t].entry;
    forall n ensures Users(u, n) == if n == entry then Users(s, n) - {t} else Users(s, n) {}
    UserIff(s, t, entry);
    hide Users;
    forall n | 0 <= n < |u.locks.refs| ensures u.locks.refs[n] == |Users(u, n)| {
      assert s.locks.refs[n] == |Users(s, n)|;
    }
  }

  lemma LeaveEntries(s: System, t: ThreadId)
    requires Inv(s) && t in s.threads && s.threads[t].Leaving?
    requires s.threads[t].entry < |s.locks.refs| && s.locks.refs[s.threads[t].entry] > 0
    ensures LocksOk(LeaveStep(s, t).locks) && EntriesOk(LeaveStep(s, t))
  {
    var u, entry := LeaveStep(s, t), s.threads[t].entry;
    LeaveCounts(s, t);
    forall k | k in u.locks.entries ensures exists w :: Uses(u, w, u.locks.entries[k]) {
      var w :| Uses(s, w, s.locks.entries[k]);
      if w == t {
        StillUsed(u, entry);
      } else {
        assert Uses(u, w, u.locks.entries[k]);
      }
    }
    forall w | w in u.threads && !u.threads[w].Released?
      ensures u.threads[w].key in u.locks.entries && u.locks.entries[u.threads[w].key] == u.threads[w].entry
    {
      if u.threads[w].entry == entry { UserIff(u, w, entry); }
    }
  }

  lemma StillUsed(u: System, entry: EntryId)
    requires |Users(u, entry)| > 0
    ensures exists w :: Uses(u, w, entry)
  {
    assert (forall w :: w !in Users(u, entry)) ==> Users(u, entry) == {};
  }

  // ----- whole runs -----

  ghost predicate Reaches(s: System, es: seq<Event>, t: System)
    requires Inv(s)
    decreases |es|
  {
    if es == [] then s == t
    else Enabled(s, es[0]) && (StepInv(s, es[0]); Reaches(Apply(s, es[0]), es[1..], t))
  }

  lemma {:induction false} ReachesInv(s: System, es: seq<Event>, t: System)
    requires Inv(s) && Reaches(s, es, t)
    ensures Inv(t)
    decreases |es|
  {
    if es != [] {
      StepInv(s, es[0]);
      ReachesInv(Apply(s, es[0]), es[1..], t);
    }
  }

  ghost predicate HasKey(s: System, t: ThreadId, key: Key) {
    t in s.threads && !s.threads[t].Released? && s.threads[t].key == key
  }

  /** Who holds the abstract mutex of a key. */
  ghost predicate Owns(s: System, t: ThreadId, key: Key) {
    HasKey(s, t, key) && s.threads[t].Holding?
  }

  /** The locker refines one mutex per key: at most one thread owns a key, and a waiting thread can
      lock its entry exactly when nobody owns its key. */
  lemma {:induction false} OneMutexPerKey(s: System, es: seq<Event>, t: System)
    requires Inv(s) && Reaches(s, es, t)
    ensures forall key, v, w :: Owns(t, v, key) && Owns(t, w, key) ==> v == w
    ensures forall v :: v in t.threads && t.threads[v].Waiting? ==>
              (Enabled(t, Lock(v)) <==> forall w :: !Owns(t, w, t.threads[v].key))
  {
    ReachesInv(s, es, t);
    forall v | v in t.threads && t.threads[v].Waiting?
      ensures Enabled(t, Lock(v)) <==> forall w :: !Owns(t, w, t.threads[v].key)
    {
      if !Enabled(t, Lock(v)) {
        var w :| Uses(t, w, t.threads[v].entry) && t.threads[w].Holding?;
        assert Owns(t, w, t.threads[v].key);
      }
    }
  }

  /** Two threads on one key never see different entries, an entry's count is the number of its
      users, and the map holds a key exactly while a thread uses it. */
  lemma {:induction false} EntriesAreShared(s: System, es: seq<Event>, t: System, key: Key)
    requires Inv(s) && Reaches(s, es, t)
    ensures forall v, w :: HasKey(t, v, key) && HasKey(t, w, key) ==> t.threads[v].entry == t.threads[w].entry
    ensures key in t.locks.entries <==> exists v :: HasKey(t, v, key)
    ensures key in t.locks.entries ==>
              t.locks.entries[key] < |t.locks.refs|
              && t.locks.refs[t.locks.entries[key]] == |Users(t, t.locks.entries[key])| > 0
              && forall v :: v in Users(t, t.locks.entries[key]) <==> HasKey(t, v, key)
  {
    ReachesInv(s, es, t);
    if key in t.locks.entries {
      var v :| Uses(t, v, t.locks.entries[key]);
      assert HasKey(t, v, key) && v in Users(t, t.locks.entries[key]);
    }
  }
}
