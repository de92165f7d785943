/**
 DeliverPending itself, run to its end against one database while everything it
 cannot decide (cancellation, storage faults, the sender, random tokens) is
 answered by an environment. Its run is a run of the worker protocol.
 */
module MailWorker {
  import opened Options
  import opened MailText
  import opened MailStore
  import opened MailDelivery

  /** Answers by position in the run. */
  datatype Environment = Environment(
    canceled: nat -> bool, fault: nat -> Fault, token: nat -> Token,
    enters: nat -> bool, verdict: nat -> Verdict, marks: nat -> bool)

  datatype Outcome =
    | Done
    | Canceled
    | ClaimFailed
    | SendNotStarted
    | Uncertain(id: MailId, token: Token)

  ghost predicate EnvironmentOk(env: Environment, used: set<Token>) {
    && (forall n :: env.token(n) !in used)
    && (forall m, n :: m != n ==> env.token(m) != env.token(n))
    && (forall n :: env.verdict(n).NotStarted? ==> !env.enters(n))
  }

  lemma {:induction false} ReachesThen(s: System, es: seq<Event>, t: System, e: Event)
    requires Reaches(s, es, t) && Enabled(t, e)
    ensures Reaches(s, es + [e], Apply(t, e))
    decreases |es|
  {
    if es == [] {
      assert (es + [e])[1..] == [];
      assert Reaches(Apply(s, e), [], Apply(t, e));
    } else {
      assert (es + [e])[1..] == es[1..] + [e];
      ReachesThen(Apply(s, es[0]), es[1..], t, e);
    }
  }

  predicate IsLeast(id: int, ids: set<int>) {
    id in ids && forall other :: other in ids ==> id <= other
  }

  lemma NonEmpty(s: set<int>)
    requires s != {}
    ensures exists x :: x in s
  {
    assert (forall x :: x !in s) ==> s == {};
  }

  lemma {:induction false} LeastExists(ids: set<int>, id: int)
    requires id in ids
    ensures exists least :: IsLeast(least, ids)
    decreases |ids|
  {
    if !IsLeast(id, ids) {
      var lower :| lower in ids && lower < id;
      LeastExists(ids - {id}, lower);
      var least :| IsLeast(least, ids - {id});
      forall other | other in ids ensures least <= other {
        assert other == id || other in ids - {id};
        assert lower in ids - {id};
      }
      assert IsLeast(least, ids);
    }
  }

  /** The mails still to do are claimable, those done are accepted. */
  ghost predicate Progress(db: Db, trip: Trip, ids: seq<MailId>, i: nat)
    requires i <= |ids|
  {
    && (forall j :: 0 <= j < i ==> AcceptedBy(db.rows, Key(ids[j], trip)))
    && (forall j :: i <= j < |ids| ==> ClaimAllowed(db, Key(ids[j], trip)))
  }

  /** MailService.Pending: rows in id order. */
  method Pending(database: MailDatabase, trip: Trip) returns (ids: seq<MailId>)
    ensures IsPendingList(database.View(), trip, ids)
    ensures Progress(database.View(), trip, ids, 0)
  {
    ids := [];
    if Blank(trip) || COMMA in trip {
      return;
    }
    var db := database.View();
    var left := db.mails.Keys;
    while left != {}
      invariant left <= db.mails.Keys
      invariant forall i, j :: 0 <= i < j < |ids| ==> ids[i] < ids[j]
      invariant forall i, id :: 0 <= i < |ids| && id in left ==> ids[i] < id
      invariant forall id :: id in ids <==> id in db.mails.Keys - left && PendingFor(db, Key(id, trip))
      invariant forall id :: id in ids ==> ClaimAllowed(db, Key(id, trip))
    {
      NonEmpty(left);
      var any :| any in left;
      LeastExists(left, any);
      var id :| IsLeast(id, left);
      PendingIsClaimable(db, Key(id, trip));
      if ClaimAllowed(db, Key(id, trip)) {
        ids := ids + [id];
      }
      left := left - {id};
    }
  }

  ghost method Follow(start: System, trace: seq<Event>, s: System, e: Event) returns (t: System, longer: seq<Event>)
    requires Reaches(start, trace, s) && Enabled(s, e)
    ensures Reaches(start, longer, t) && t == Apply(s, e) && longer == trace + [e]
  {
    ReachesThen(start, trace, s, e);
    t, longer := Apply(s, e), trace + [e];
  }

  ghost method FollowStart(start: System, w: WorkerId, trip: Trip, ids: seq<MailId>) returns (t: System, trace: seq<Event>)
    requires w !in start.workers && IsPendingList(start.db, trip, ids)
    ensures Reaches(start, trace, t) && t == start.(workers := start.workers[w := Worker(trip, Looping(ids))])
  {
    assert Reaches(start, [], start);
    t, trace := Follow(start, [], start, Start(w, trip, ids));
  }

  ghost method FollowStop(start: System, trace: seq<Event>, s: System, w: WorkerId) returns (t: System, longer: seq<Event>)
    requires Reaches(start, trace, s) && w in s.workers && s.workers[w].pc.Looping?
    ensures Reaches(start, longer, t) && t == Goto(s, w, Stopped)
  {
    t, longer := Follow(start, trace, s, Stop(w));
  }

  ghost method FollowClaim(start: System, trace: seq<Event>, s: System, w: WorkerId, token: Token, fault: Fault)
    returns (t: System, longer: seq<Event>)
    requires Reaches(start, trace, s) && token !in s.used
    requires w in s.workers && s.workers[w].pc.Looping? && s.workers[w].pc.todo != []
    ensures var k := Key(s.workers[w].pc.todo[0], s.workers[w].trip);
            var (db, result) := Settle(s.db, AfterClaim(s.db, k, token), k.mail in s.db.mails, fault);
            Reaches(start, longer, t) && t.db == db && t.used == s.used + {token}
            && t.workers == s.workers[w := Worker(k.trip, AfterClaimPc(s.workers[w].pc, token, ClaimAllowed(s.db, k), result))]
  {
    t, longer := Follow(start, trace, s, Claim(w, token, fault));
  }

  ghost method FollowSettle(start: System, trace: seq<Event>, s: System, w: WorkerId, fault: Fault)
    returns (t: System, longer: seq<Event>)
    requires Reaches(start, trace, s) && w in s.workers && (s.workers[w].pc.Finalizing? || s.workers[w].pc.Releasing?)
    ensures Reaches(start, longer, t)
    ensures t == if s.workers[w].pc.Finalizing? then FinalizeStep(s, w, fault) else ReleaseStep(s, w, fault)
  {
    t, longer := Follow(start, trace, s, if s.workers[w].pc.Finalizing? then Finalize(w, fault) else Release(w, fault));
  }

  ghost method FollowMark(start: System, trace: seq<Event>, s: System, w: WorkerId, applied: bool)
    returns (t: System, longer: seq<Event>)
    requires Reaches(start, trace, s) && w in s.workers && s.workers[w].pc.Marking?
    ensures Reaches(start, longer, t) && t == MarkStep(s, w, applied)
  {
    t, longer := Follow(start, trace, s, Mark(w, applied));
  }

  lemma Overwrites(workers: map<WorkerId, Worker>, w: WorkerId, a: Worker, b: Worker)
    ensures workers[w := a][w := b] == workers[w := b]
  {
  }

  /** The database after a recipient's mail went through undisturbed. */
  ghost function Delivering(db: Db, k: Key, token: Token): Db
    requires ClaimAllowed(db, k)
  {
    AfterAttempt(AfterClaim(db, k, token), k, token, Accepted)
  }

  /** Where worker w stands after its turn with one mail: at the rest of its list, or stopped. */
  ghost predicate TurnEnded(s: System, t: System, w: WorkerId, trip: Trip, rest: seq<MailId>, ended: Option<Outcome>) {
    t.workers == s.workers[w := Worker(trip, if ended.None? then Looping(rest) else Stopped)]
  }

  /** Nothing comes between the worker and the i-th mail: no cancellation, no fault, and the sender succeeds. */
  predicate Undisturbed(env: Environment, i: nat) {
    !env.canceled(2 * i) && env.fault(2 * i).NoFault? && !env.canceled(2 * i + 1) && env.fault(2 * i + 1).NoFault?
    && env.verdict(i).Sent?
  }

  /** What the turn with the i-th mail, which could be claimed, ends the run with. A cancellation counts before
      the claim, or after it if the attempt was given back; a refused claim is an error, a lost one uncertain, as
      is a sent mail whose receipt was not stored, and only a stored receipt settles that nothing was sent. */
  predicate EndsRun(env: Environment, i: nat, id: MailId, outcome: Outcome) {
    var claims, settles := env.fault(2 * i), env.fault(2 * i + 1);
    match outcome
    case Done => false
    case Canceled => env.canceled(2 * i) || (claims.NoFault? && env.canceled(2 * i + 1) && settles.NoFault?)
    case ClaimFailed => !env.canceled(2 * i) && claims.Refused?
    case SendNotStarted =>
      !env.canceled(2 * i) && claims.NoFault? && !env.canceled(2 * i + 1) && settles.NoFault? && env.verdict(i).NotStarted?
    case Uncertain(mail, token) =>
      mail == id && token == env.token(i) && !env.canceled(2 * i)
      && (claims.CommitLost?
          || (claims.NoFault? && (!settles.NoFault? || (!env.canceled(2 * i + 1) && env.verdict(i).Ambiguous?))))
  }

  /** What the worker does for one key leaves the mails and rows of the others as they were. */
  ghost predicate OthersKept(before: Db, after: Db, k: Key) {
    && (forall other :: other != k ==> (other in after.rows <==> other in before.rows)
                                       && (other in before.rows ==> after.rows[other] == before.rows[other]))
    && (forall id :: id != k.mail ==> (id in after.mails <==> id in before.mails)
                                      && (id in before.mails ==> after.mails[id] == before.mails[id]))
  }

  lemma FinishKeepsOthers(db: Db, k: Key, token: Token, to: RowState, fault: Fault)
    ensures var after := SettleAttempt(db, k, token, to, fault).0;
            OthersKept(db, after, k) && OthersKept(db, AfterMark(after, k, token), k)
  {
  }

  /** How a send ends for its receipt: stored, definitely not sent, or uncertain. */
  function SentAs(db: Db, k: Key, token: Token, verdict: Verdict, fault: Fault): Option<Outcome> {
    if !AttemptHeld(db, k, token) || !fault.NoFault? || verdict.Ambiguous? then Some(Uncertain(k.mail, token))
    else if verdict.NotStarted? then Some(SendNotStarted) else None
  }

  /** A turn goes on exactly if it was undisturbed; otherwise it ends the run for the reason there is, and unless
      that leaves the send uncertain the mail can be claimed again. */
  ghost predicate TurnExplained(env: Environment, i: nat, k: Key, before: Db, after: Db, ended: Option<Outcome>) {
    && OthersKept(before, after, k)
    && (ClaimAllowed(before, k) ==>
          (if ended.None? then Undisturbed(env, i) else EndsRun(env, i, k.mail, ended.value))
          && (ended.Some? && !ended.value.Uncertain? ==> ClaimAllowed(after, k)))
    && (!ClaimAllowed(before, k) ==>
          after == before
          && (ended.None? <==> !env.canceled(2 * i) && env.fault(2 * i).NoFault? && k.mail in before.mails))
  }

  lemma CanceledExplained(env: Environment, i: nat, k: Key, db: Db)
    requires env.canceled(2 * i)
    ensures TurnExplained(env, i, k, db, db, Some(Canceled))
  {
    hide ClaimAllowed;
  }

  lemma ClaimExplained(env: Environment, i: nat, k: Key, db: Db)
    requires !env.canceled(2 * i)
    ensures var (after, result) := Settle(db, AfterClaim(db, k, env.token(i)), k.mail in db.mails, env.fault(2 * i));
            if result.Committed? && ClaimAllowed(db, k) then
              after == AfterClaim(db, k, env.token(i)) && AttemptHeld(after, k, env.token(i)) && env.fault(2 * i).NoFault?
            else
              TurnExplained(env, i, k, db, after, if result.Committed? then None
                                                  else if result.CommitUnknown? then Some(Uncertain(k.mail, env.token(i)))
                                                  else Some(ClaimFailed))
              && (result.Committed? ==> after == db)
  {
    hide Split, Claimable;
  }

  /** After a confirmed claim it depends on what follows. */
  lemma SendExplained(env: Environment, i: nat, k: Key, db: Db, after: Db, ended: Option<Outcome>)
    requires ClaimAllowed(db, k)
    requires var claimed := AfterClaim(db, k, env.token(i));
             && OthersKept(claimed, after, k)
             && (if ended.None? then Undisturbed(env, i) else EndsRun(env, i, k.mail, ended.value))
             && (ended.Some? && !ended.value.Uncertain? ==>
                   AttemptHeld(claimed, k, env.token(i)) && after == AfterAttempt(claimed, k, env.token(i), MailStore.Pending))
    ensures TurnExplained(env, i, k, db, after, ended)
  {
    hide Split, Claimable, Undisturbed, EndsRun;
  }

  /** The claim of one mail: nothing more to do with it, an error, or a confirmed claim. */
  method DeliverOne(database: MailDatabase, trip: Trip, id: MailId, ghost rest: seq<MailId>, i: nat, env: Environment,
                    ghost w: WorkerId, ghost start: System, ghost trace: seq<Event>, ghost s: System)
    returns (ended: Option<Outcome>, ghost longer: seq<Event>, ghost t: System)
    requires Reaches(start, trace, s) && s.db == database.View()
    requires w in s.workers && s.workers[w] == Worker(trip, Looping([id] + rest))
    requires env.token(i) !in s.used && (env.verdict(i).NotStarted? ==> !env.enters(i))
    modifies database
    ensures Reaches(start, longer, t) && t.db == database.View() && t.used <= s.used + {env.token(i)}
    ensures TurnEnded(s, t, w, trip, rest, ended)
    ensures ended != Some(Done)
    ensures ended.None? ==>
              database.View() == if ClaimAllowed(s.db, Key(id, trip)) then Delivering(s.db, Key(id, trip), env.token(i)) else s.db
    ensures TurnExplained(env, i, Key(id, trip), s.db, database.View(), ended)
  {
    hide Reaches, TurnExplained, OthersKept, Undisturbed, EndsRun, ClaimAllowed, AfterAttempt;
    var token := env.token(i);
    ghost var k := Key(id, trip);
    if env.canceled(2 * i) {
      t, longer := FollowStop(start, trace, s, w);
      CanceledExplained(env, i, k, s.db);
      return Some(Canceled), longer, t;
    }
    var claimed, result := database.ClaimMail(id, trip, token, env.fault(2 * i));
    ClaimExplained(env, i, k, s.db);
    t, longer := FollowClaim(start, trace, s, w, token, env.fault(2 * i));
    if !result.Committed? {
      ended := Some(if result.CommitUnknown? then Uncertain(id, token) else ClaimFailed);
      return ended, longer, t;
    }
    if !claimed {
      return None, longer, t;
    }
    ended, longer, t := SendClaimed(database, trip, id, rest, i, env, w, start, longer, t);
    SendExplained(env, i, k, s.db, database.View(), ended);
  }

  /** The call of the sender: transport is entered or not, then it answers. */
  ghost method Sending(rest: seq<MailId>, i: nat, env: Environment, w: WorkerId, start: System, trace: seq<Event>, s: System)
    returns (t: System, longer: seq<Event>)
    requires Reaches(start, trace, s) && w in s.workers
    requires s.workers[w].pc.Claimed? && s.workers[w].pc.todo == rest
    requires env.verdict(i).NotStarted? ==> !env.enters(i)
    ensures Reaches(start, longer, t) && t.db == s.db && t.used == s.used
    ensures var pc := s.workers[w].pc;
            t.workers == s.workers[w := Worker(s.workers[w].trip, Finalizing(pc.id, pc.token, rest, env.enters(i), env.verdict(i)))]
  {
    t, longer := Follow(start, trace, s, Send(w));
    if env.enters(i) {
      t, longer := Follow(start, longer, t, Enter(w));
    }
    t, longer := Follow(start, longer, t, Return(w, env.verdict(i)));
  }

  /** Cancellation after the claim: give back the attempt that never reached the sender. */
  method ReleaseClaimed(database: MailDatabase, trip: Trip, id: MailId, token: Token, fault: Fault,
                        ghost w: WorkerId, ghost start: System, ghost trace: seq<Event>, ghost s: System)
    returns (outcome: Outcome, ghost longer: seq<Event>, ghost t: System)
    requires Reaches(start, trace, s) && s.db == database.View()
    requires w in s.workers && s.workers[w].trip == trip
    requires s.workers[w].pc.Claimed? && s.workers[w].pc.id == id && s.workers[w].pc.token == token
    modifies database
    ensures Reaches(start, longer, t) && t.db == database.View() && t.used == s.used
    ensures t.workers == s.workers[w := Worker(trip, Stopped)]
    ensures outcome == if AttemptHeld(s.db, Key(id, trip), token) && fault.NoFault? then Canceled else Uncertain(id, token)
    ensures database.View() == SettleAttempt(s.db, Key(id, trip), token, MailStore.Pending, fault).0
  {
    hide Reaches;
    t, longer := Follow(start, trace, s, CancelClaim(w));
    var released := database.SetMailAttempt(id, trip, token, MailStore.Pending, fault);
    t, longer := FollowSettle(start, longer, t, w, fault);
    outcome := if released.Committed? then Canceled else Uncertain(id, token);
  }

  /** The receipt of a send: finalize, and record UNKNOWN if that failed. */
  method FinishSent(database: MailDatabase, trip: Trip, id: MailId, token: Token, verdict: Verdict, fault: Fault, marks: bool,
                    ghost rest: seq<MailId>, ghost w: WorkerId, ghost start: System, ghost trace: seq<Event>, ghost s: System)
    returns (ended: Option<Outcome>, ghost longer: seq<Event>, ghost t: System)
    requires Reaches(start, trace, s) && s.db == database.View()
    requires w in s.workers && s.workers[w].trip == trip && s.workers[w].pc.Finalizing?
    requires var pc := s.workers[w].pc; pc.id == id && pc.token == token && pc.todo == rest && pc.verdict == verdict
    modifies database
    ensures Reaches(start, longer, t) && t.db == database.View() && t.used == s.used
    ensures TurnEnded(s, t, w, trip, rest, ended)
    ensures OthersKept(s.db, database.View(), Key(id, trip)) && ended == SentAs(s.db, Key(id, trip), token, verdict, fault)
    ensures ended.None? || ended.value.SendNotStarted? ==>
              AttemptHeld(s.db, Key(id, trip), token)
              && database.View() == AfterAttempt(s.db, Key(id, trip), token, MarkOf(verdict))
  {
    hide Reaches, OthersKept, AfterAttempt, AfterMark;
    FinishKeepsOthers(s.db, Key(id, trip), token, MarkOf(verdict), fault);
    var result := database.SetMailAttempt(id, trip, token, MarkOf(verdict), fault);
    t, longer := FollowSettle(start, trace, s, w, fault);
    if verdict.NotStarted? && result.Committed? {
      return Some(SendNotStarted), longer, t;
    }
    if !verdict.Sent? || !result.Committed? {
      if !result.Committed? {
        database.MarkMailUnknown(id, trip, token, marks);
        t, longer := FollowMark(start, longer, t, w, marks);
      }
      return Some(Uncertain(id, token)), longer, t;
    }
    return None, longer, t;
  }

  /** What follows a confirmed claim: release, or one send and its receipt. */
  method SendClaimed(database: MailDatabase, trip: Trip, id: MailId, ghost rest: seq<MailId>, i: nat, env: Environment,
                     ghost w: WorkerId, ghost start: System, ghost trace: seq<Event>, ghost s: System)
    returns (ended: Option<Outcome>, ghost longer: seq<Event>, ghost t: System)
    requires Reaches(start, trace, s) && s.db == database.View()
    requires w in s.workers && s.workers[w] == Worker(trip, Claimed(id, env.token(i), rest))
    requires env.verdict(i).NotStarted? ==> !env.enters(i)
    modifies database
    ensures Reaches(start, longer, t) && t.db == database.View() && t.used == s.used
    ensures TurnEnded(s, t, w, trip, rest, ended)
    ensures ended != Some(Done)
    ensures ended.None? ==> AttemptHeld(s.db, Key(id, trip), env.token(i))
                            && database.View() == AfterAttempt(s.db, Key(id, trip), env.token(i), Accepted)
    ensures OthersKept(s.db, database.View(), Key(id, trip))
    ensures AttemptHeld(s.db, Key(id, trip), env.token(i)) && env.fault(2 * i).NoFault? && !env.canceled(2 * i) ==>
              if ended.None? then Undisturbed(env, i) else EndsRun(env, i, id, ended.value)
    ensures ended.Some? && !ended.value.Uncertain? ==>
              AttemptHeld(s.db, Key(id, trip), env.token(i))
              && database.View() == AfterAttempt(s.db, Key(id, trip), env.token(i), MailStore.Pending)
  {
    hide Reaches;
    if env.canceled(2 * i + 1) {
      var outcome;
      outcome, longer, t := ReleaseClaimed(database, trip, id, env.token(i), env.fault(2 * i + 1), w, start, trace, s);
      return Some(outcome), longer, t;
    }
    t, longer := Sending(rest, i, env, w, start, trace, s);
    ended, longer, t := FinishSent(database, trip, id, env.token(i), env.verdict(i), env.fault(2 * i + 1), env.marks(i),
                                   rest, w, start, longer, t);
  }

  lemma ProgressStep(db: Db, trip: Trip, ids: seq<MailId>, i: nat, token: Token)
    requires i < |ids| && Progress(db, trip, ids, i)
    requires forall m, n :: 0 <= m < n < |ids| ==> ids[m] < ids[n]
    ensures Progress(Delivering(db, Key(ids[i], trip), token), trip, ids, i + 1)
  {
    var after := Delivering(db, Key(ids[i], trip), token);
    assert forall k :: k != Key(ids[i], trip) ==> (k in after.rows <==> k in db.rows) && (k in db.rows ==> after.rows[k] == db.rows[k]);
    assert forall id :: id != ids[i] && id in db.mails ==> after.mails[id] == db.mails[id];
  }

  /** The mails before the i-th are accepted, and those behind it still to be claimed. */
  ghost predicate Halfway(db: Db, trip: Trip, ids: seq<MailId>, i: nat) {
    && (forall j :: 0 <= j < i < |ids| ==> AcceptedBy(db.rows, Key(ids[j], trip)))
    && (forall j :: i < j < |ids| ==> ClaimAllowed(db, Key(ids[j], trip)))
  }

  lemma StopsHalfway(db: Db, after: Db, trip: Trip, ids: seq<MailId>, i: nat)
    requires i < |ids| && Progress(db, trip, ids, i) && OthersKept(db, after, Key(ids[i], trip))
    requires forall m, n :: 0 <= m < n < |ids| ==> ids[m] < ids[n]
    ensures Halfway(after, trip, ids, i)
    ensures ClaimAllowed(after, Key(ids[i], trip)) ==> Progress(after, trip, ids, i)
  {
    hide Claimable, Split;
  }

  /** The i-th mail was reached undisturbed, and its turn ended the run for the reason there is: with the mails
      before it accepted and the others, unless its own send is uncertain also this one, still to be claimed. */
  ghost predicate StoppedAt(env: Environment, trip: Trip, ids: seq<MailId>, i: nat, db: Db, outcome: Outcome) {
    && i < |ids| && (forall j :: 0 <= j < i ==> Undisturbed(env, j))
    && EndsRun(env, i, ids[i], outcome)
    && Halfway(db, trip, ids, i)
    && (!outcome.Uncertain? ==> Progress(db, trip, ids, i))
  }

  lemma TurnStops(env: Environment, trip: Trip, ids: seq<MailId>, i: nat, db: Db, after: Db, ended: Option<Outcome>)
    requires i < |ids| && Progress(db, trip, ids, i) && (forall j :: 0 <= j < i ==> Undisturbed(env, j))
    requires forall m, n :: 0 <= m < n < |ids| ==> ids[m] < ids[n]
    requires TurnExplained(env, i, Key(ids[i], trip), db, after, ended)
    ensures if ended.None? then Undisturbed(env, i) else StoppedAt(env, trip, ids, i, after, ended.value)
  {
    hide Undisturbed, EndsRun, ClaimAllowed, AcceptedBy, OthersKept, Halfway;
    StopsHalfway(db, after, trip, ids, i);
  }

  /** The loop over the mails that Pending returned. */
  method DeliverAll(database: MailDatabase, trip: Trip, ids: seq<MailId>, env: Environment,
                    ghost w: WorkerId, ghost start: System, ghost before: seq<Event>, ghost s0: System)
    returns (ended: Option<Outcome>, ghost trace: seq<Event>, ghost s: System, ghost at: nat)
    requires Reaches(start, before, s0) && s0.db == database.View()
    requires w in s0.workers && s0.workers[w] == Worker(trip, Looping(ids))
    requires EnvironmentOk(env, s0.used)
    requires Progress(database.View(), trip, ids, 0) && forall m, n :: 0 <= m < n < |ids| ==> ids[m] < ids[n]
    modifies database
    ensures Reaches(start, trace, s) && s.db == database.View()
    ensures TurnEnded(s0, s, w, trip, [], ended) && ended != Some(Done)
    ensures ended.None? ==> Progress(database.View(), trip, ids, |ids|) && forall i :: 0 <= i < |ids| ==> Undisturbed(env, i)
    ensures ended.Some? ==> StoppedAt(env, trip, ids, at, database.View(), ended.value)
  {
    hide Reaches, ClaimAllowed, AcceptedBy, Delivering, TurnExplained, StoppedAt, Undisturbed;
    trace, s, at := before, s0, 0;
    var i := 0;
    while i < |ids|
      invariant 0 <= i <= |ids|
      invariant Reaches(start, trace, s) && s.db == database.View()
      invariant s.workers == s0.workers[w := Worker(trip, Looping(ids[i..]))]
      invariant forall n :: n >= i ==> env.token(n) !in s.used
      invariant Progress(database.View(), trip, ids, i)
      invariant forall j :: 0 <= j < i ==> Undisturbed(env, j)
    {
      assert ids[i..] == [ids[i]] + ids[i + 1..];
      ghost var db := database.View();
      ProgressStep(db, trip, ids, i, env.token(i));
      ended, trace, s := DeliverOne(database, trip, ids[i], ids[i + 1..], i, env, w, start, trace, s);
      TurnStops(env, trip, ids, i, db, database.View(), ended);
      Overwrites(s0.workers, w, Worker(trip, Looping(ids[i..])), s.workers[w]);
      if ended.Some? {
        at := i;
        return;
      }
      i := i + 1;
    }
    assert ids[|ids|..] == [];
    ended := None;
  }

  /** DeliverPending. Its run is a run of the protocol. It delivers everything that was pending for the trip
      exactly if nothing disturbed it, and otherwise stops at the first mail that was disturbed, or behind the
      last one if it was canceled only then. */
  method DeliverPending(database: MailDatabase, trip: Trip, env: Environment,
                        ghost w: WorkerId, ghost start: System)
    returns (outcome: Outcome, ghost trace: seq<Event>, ghost end: System, ghost ids: seq<MailId>, ghost at: nat)
    requires start.db == database.View() && w !in start.workers
    requires EnvironmentOk(env, start.used)
    modifies database
    ensures Reaches(start, trace, end)
    ensures end.db == database.View() && end.workers == start.workers[w := Worker(trip, Stopped)]
    ensures IsPendingList(old(database.View()), trip, ids)
    ensures outcome.Done? ==> forall id :: Claimable(trip) && PendingFor(old(database.View()), Key(id, trip))
                                           ==> AcceptedBy(database.rows, Key(id, trip))
    ensures outcome.Done? <==>
              !env.canceled(2 * |ids|)
              && (forall i :: 0 <= i < |ids| ==> env.verdict(i).Sent?)
              && (forall i :: 0 <= i < 2 * |ids| ==> !env.canceled(i) && env.fault(i).NoFault?)
    ensures !outcome.Done? ==> StoppedAt(env, trip, ids, at, database.View(), outcome)
                               || (outcome.Canceled? && at == |ids| && env.canceled(2 * at)
                                   && Progress(database.View(), trip, ids, at))
  {
    hide Undisturbed, EndsRun, Halfway;
    var mails := Pending(database, trip);
    ids := mails;
    ghost var s;
    s, trace := FollowStart(start, w, trip, ids);
    var ended;
    ended, trace, end, at := DeliverAll(database, trip, mails, env, w, start, trace, s);
    Overwrites(start.workers, w, Worker(trip, Looping(ids)), end.workers[w]);
    Overwrites(start.workers, w, end.workers[w], Worker(trip, Stopped));
    UndisturbedMeans(env, |ids|);
    if ended.Some? {
      StoppedIsDisturbed(env, trip, ids, at, database.View(), ended.value);
      return ended.value, trace, end, ids, at;
    }
    end, trace := FollowStop(start, trace, end, w);
    outcome, at := if env.canceled(2 * |mails|) then Canceled else Done, |ids|;
  }

  lemma UndisturbedMeans(env: Environment, n: nat)
    ensures (forall i :: 0 <= i < n ==> Undisturbed(env, i))
            <==> (forall i :: 0 <= i < n ==> env.verdict(i).Sent?)
                 && (forall i :: 0 <= i < 2 * n ==> !env.canceled(i) && env.fault(i).NoFault?)
  {
    if forall i :: 0 <= i < n ==> Undisturbed(env, i) {
      forall i | 0 <= i < 2 * n ensures !env.canceled(i) && env.fault(i).NoFault? {
        assert Undisturbed(env, i / 2) && (i == 2 * (i / 2) || i == 2 * (i / 2) + 1);
      }
      forall i | 0 <= i < n ensures env.verdict(i).Sent? {
        assert Undisturbed(env, i);
      }
    }
  }

  /** What ends a run is not an undisturbed turn, and only one outcome fits. */
  lemma StoppedIsDisturbed(env: Environment, trip: Trip, ids: seq<MailId>, i: nat, db: Db, outcome: Outcome)
    requires StoppedAt(env, trip, ids, i, db, outcome)
    ensures !Undisturbed(env, i)
    ensures forall other :: EndsRun(env, i, ids[i], other) ==> other == outcome
  {
    hide Halfway, Progress;
  }
}
