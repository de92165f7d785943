/**
 Any number of DeliverPending workers over the same two tables. Each worker is
 a program counter; transactions, the sender, cancellation and crashes are
 events that may come in any order.
 */
module MailDelivery {
  import opened Options
  import opened MailText
  import opened MailStore

  type WorkerId = nat

  /** What the sender reported: success, an ambiguous error, or "transport was never entered". */
  datatype Verdict = Sent | Ambiguous | NotStarted

  datatype Pc =
    | Looping(todo: seq<MailId>)
    | Claimed(id: MailId, token: Token, todo: seq<MailId>)
    | Releasing(id: MailId, token: Token)
    | Sending(id: MailId, token: Token, todo: seq<MailId>, entered: bool)
    | Finalizing(id: MailId, token: Token, todo: seq<MailId>, entered: bool, verdict: Verdict)
    | Marking(id: MailId, token: Token)
    | Stopped
  {
    predicate HasToken() { !Looping? && !Stopped? }

    /** The worker has a confirmed claim that it has not yet tried to settle. */
    predicate Owns() { Claimed? || Releasing? || Sending? || Finalizing? }

    predicate Entered() { (Sending? || Finalizing?) && entered }
  }

  datatype Worker = Worker(trip: Trip, pc: Pc)

  /** One entry per time that transport was entered. */
  datatype Entry = Entry(key: Key, token: Token)

  /**
   The tables and the workers, with three history variables: the tokens drawn so
   far, the transport log, and whether every reported success was preceded by
   an entry into transport. `legacy` are mails delivered before rows existed.
   */
  datatype System = System(db: Db, workers: map<WorkerId, Worker>, used: set<Token>, log: seq<Entry>,
                           honest: bool, legacy: set<MailId>)

  datatype Event =
    | Queue(id: MailId, trips: seq<Trip>)
    | Start(w: WorkerId, trip: Trip, todo: seq<MailId>)
    | Stop(w: WorkerId)
    | Claim(w: WorkerId, token: Token, fault: Fault)
    | CancelClaim(w: WorkerId)
    | Send(w: WorkerId)
    | Enter(w: WorkerId)
    | Return(w: WorkerId, verdict: Verdict)
    | Release(w: WorkerId, fault: Fault)
    | Finalize(w: WorkerId, fault: Fault)
    | Mark(w: WorkerId, applied: bool)
    | Crash(w: WorkerId)

  function KeyOf(wk: Worker): Key
    requires wk.pc.HasToken()
  {
    Key(wk.pc.id, wk.trip)
  }

  function MarkOf(verdict: Verdict): RowState {
    match verdict
    case Sent => Accepted
    case Ambiguous => Unknown
    case NotStarted => Pending
  }

  ghost predicate Enabled(s: System, e: Event) {
    match e
    case Queue(id, trips) => id !in s.db.mails
    case Start(w, trip, todo) => w !in s.workers && IsPendingList(s.db, trip, todo)
    case Stop(w) => w in s.workers && s.workers[w].pc.Looping?
    case Claim(w, token, fault) =>
      w in s.workers && (s.workers[w].pc.Looping? && s.workers[w].pc.todo != []) && token !in s.used
    case CancelClaim(w) => w in s.workers && s.workers[w].pc.Claimed?
    case Send(w) => w in s.workers && s.workers[w].pc.Claimed?
    case Enter(w) => w in s.workers && (s.workers[w].pc.Sending? && !s.workers[w].pc.entered)
    // The sender's contract: "not started" only when transport was never entered.
    case Return(w, verdict) => w in s.workers && (s.workers[w].pc.Sending? && (verdict.NotStarted? ==> !s.workers[w].pc.entered))
    case Release(w, fault) => w in s.workers && s.workers[w].pc.Releasing?
    case Finalize(w, fault) => w in s.workers && s.workers[w].pc.Finalizing?
    case Mark(w, applied) => w in s.workers && s.workers[w].pc.Marking?
    case Crash(w) => w in s.workers
  }

  function Goto(s: System, w: WorkerId, pc: Pc): System
    requires w in s.workers
  {
    s.(workers := s.workers[w := s.workers[w].(pc := pc)])
  }

  /** Where claimMail's answer leads. Only a confirmed claim is sent; an uncertain one stops. */
  function AfterClaimPc(pc: Pc, token: Token, claimed: bool, result: TxResult): Pc
    requires pc.Looping? && pc.todo != []
  {
    if !result.Committed? then Stopped
    else if claimed then Claimed(pc.todo[0], token, pc.todo[1..])
    else Looping(pc.todo[1..])
  }

  /** Where finalization leads. */
  function AfterFinalizePc(pc: Pc, result: TxResult): Pc
    requires pc.Finalizing?
  {
    if !result.Committed? then Marking(pc.id, pc.token)
    else if pc.verdict.Sent? then Looping(pc.todo)
    else Stopped
  }

  /** claimMail by worker w for the first mail of its list. */
  function ClaimStep(s: System, w: WorkerId, token: Token, fault: Fault): System
    requires w in s.workers && s.workers[w].pc.Looping? && s.workers[w].pc.todo != []
  {
    var pc, k := s.workers[w].pc, Key(s.workers[w].pc.todo[0], s.workers[w].trip);
    var (db, result) := Settle(s.db, AfterClaim(s.db, k, token), k.mail in s.db.mails, fault);
    Goto(s.(db := db, used := s.used + {token}), w, AfterClaimPc(pc, token, ClaimAllowed(s.db, k), result))
  }

  /** Transport is entered: the one outward effect. */
  function EnterStep(s: System, w: WorkerId): System
    requires w in s.workers && s.workers[w].pc.Sending?
  {
    var pc := s.workers[w].pc;
    Goto(s.(log := s.log + [Entry(Key(pc.id, s.workers[w].trip), pc.token)]), w,
         Sending(pc.id, pc.token, pc.todo, true))
  }

  function ReturnStep(s: System, w: WorkerId, verdict: Verdict): System
    requires w in s.workers && s.workers[w].pc.Sending?
  {
    var pc := s.workers[w].pc;
    Goto(s.(honest := s.honest && (verdict.Sent? ==> pc.entered)), w,
         Finalizing(pc.id, pc.token, pc.todo, pc.entered, verdict))
  }

  function ReleaseStep(s: System, w: WorkerId, fault: Fault): System
    requires w in s.workers && s.workers[w].pc.Owns()
  {
    var wk := s.workers[w];
    Goto(s.(db := SettleAttempt(s.db, KeyOf(wk), wk.pc.token, Pending, fault).0), w, Stopped)
  }

  function FinalizeStep(s: System, w: WorkerId, fault: Fault): System
    requires w in s.workers && s.workers[w].pc.Finalizing?
  {
    var wk := s.workers[w];
    var (db, result) := SettleAttempt(s.db, KeyOf(wk), wk.pc.token, MarkOf(wk.pc.verdict), fault);
    Goto(s.(db := db), w, AfterFinalizePc(wk.pc, result))
  }

  function MarkStep(s: System, w: WorkerId, applied: bool): System
    requires w in s.workers && s.workers[w].pc.HasToken()
  {
    var wk := s.workers[w];
    Goto(s.(db := if applied then AfterMark(s.db, KeyOf(wk), wk.pc.token) else s.db), w, Stopped)
  }

  function Apply(s: System, e: Event): System
    requires Enabled(s, e)
  {
    match e
    case Queue(id, trips) => s.(db := s.db.(mails := s.db.mails[id := Mail(Join(trips), Waiting)]))
    case Start(w, trip, todo) => s.(workers := s.workers[w := Worker(trip, Looping(todo))])
    case Stop(w) => Goto(s, w, Stopped)
    case Claim(w, token, fault) => ClaimStep(s, w, token, fault)
    case CancelClaim(w) => Goto(s, w, Releasing(s.workers[w].pc.id, s.workers[w].pc.token))
    case Send(w) => Goto(s, w, Sending(s.workers[w].pc.id, s.workers[w].pc.token, s.workers[w].pc.todo, false))
    case Enter(w) => EnterStep(s, w)
    case Return(w, verdict) => ReturnStep(s, w, verdict)
    case Release(w, fault) => ReleaseStep(s, w, fault)
    case Finalize(w, fault) => FinalizeStep(s, w, fault)
    case Mark(w, applied) => MarkStep(s, w, applied)
    case Crash(w) => s.(workers := s.workers - {w})
  }

  ghost predicate Reaches(s: System, es: seq<Event>, t: System)
    decreases |es|
  {
    if es == [] then s == t
    else Enabled(s, es[0]) && Reaches(Apply(s, es[0]), es[1..], t)
  }

  // ----- the invariant -----

  ghost predicate TablesOk(s: System) {
    && (forall k :: k in s.db.rows ==> k.mail in s.db.mails && s.db.rows[k].attempt in s.used)
    && (forall id :: id in s.db.mails ==>
          (s.db.mails[id].status.Delivered? <==> id in s.legacy || AllAccepted(s.db, id)))
    && s.legacy <= s.db.mails.Keys
  }

  ghost predicate LogOk(s: System) {
    && (forall i :: 0 <= i < |s.log| ==> Backed(s.db, s.log[i]))
    && (forall i, j :: 0 <= i < j < |s.log| ==> s.log[i].key != s.log[j].key)
    && (s.honest ==> forall k :: AcceptedBy(s.db.rows, k) ==> Entry(k, s.db.rows[k].attempt) in s.log)
  }

  /** The row behind a transport entry still carries that entry's attempt and is not PENDING. */
  predicate Backed(db: Db, entry: Entry) {
    entry.key in db.rows && db.rows[entry.key].attempt == entry.token && !db.rows[entry.key].state.Pending?
  }

  ghost predicate WorkerOk(s: System, wk: Worker) {
    && (wk.pc.HasToken() ==> wk.pc.token in s.used)
    && (wk.pc.Owns() ==> AttemptHeld(s.db, KeyOf(wk), wk.pc.token))
    && (wk.pc.Owns() ==> (wk.pc.Entered() <==> Entry(KeyOf(wk), wk.pc.token) in s.log))
    && (wk.pc.Owns() ==> forall entry :: entry in s.log && entry.token == wk.pc.token ==> entry.key == KeyOf(wk))
    && (wk.pc.Finalizing? && wk.pc.verdict.NotStarted? ==> !wk.pc.entered)
    && (wk.pc.Finalizing? && wk.pc.verdict.Sent? && s.honest ==> wk.pc.entered)
  }

  ghost predicate WorkersOk(s: System) {
    && (forall w :: w in s.workers ==> WorkerOk(s, s.workers[w]))
    && (forall v, w :: v in s.workers && w in s.workers && v != w
                       && s.workers[v].pc.HasToken() && s.workers[w].pc.HasToken()
                       ==> s.workers[v].pc.token != s.workers[w].pc.token)
  }

  ghost predicate Inv(s: System) {
    TablesOk(s) && LogOk(s) && WorkersOk(s)
  }

  /** The tables before any row exists; whatever is marked delivered then is legacy. */
  ghost predicate Init(s: System) {
    && s.db.rows == map[] && s.workers == map[] && s.log == [] && s.honest
    && s.legacy == set id | id in s.db.mails && s.db.mails[id].status.Delivered?
  }

  lemma InitInv(s: System)
    requires Init(s)
    ensures Inv(s)
  {
    forall id | id in s.db.mails ensures !AllAccepted(s.db, id) {
      SplitIsCommaFree(s.db.mails[id].receiver);
      assert Split(s.db.mails[id].receiver)[0] in Split(s.db.mails[id].receiver);
    }
  }

  lemma StepInv(s: System, e: Event)
    requires Inv(s) && Enabled(s, e)
    ensures Inv(Apply(s, e))
  {
    match e {
      case Queue(id, trips) => StepQueue(s, id, trips);
      case Start(w, trip, todo) => StepMoved(s, w, Some(Worker(trip, Looping(todo))), s.honest);
      case Stop(w) => StepMoved(s, w, Some(Worker(s.workers[w].trip, Stopped)), s.honest);
      case Claim(w, token, fault) => StepClaim(s, w, token, fault);
      case CancelClaim(w) => StepMoved(s, w, Some(Goto(s, w, Releasing(s.workers[w].pc.id, s.workers[w].pc.token)).workers[w]), s.honest);
      case Send(w) => StepMoved(s, w, Some(Apply(s, e).workers[w]), s.honest);
      case Enter(w) => StepEnter(s, w);
      case Return(w, verdict) => StepMoved(s, w, Some(ReturnStep(s, w, verdict).workers[w]), ReturnStep(s, w, verdict).honest);
      case Release(w, fault) => StepAttempt(s, w, Pending, Stopped, fault);
      case Finalize(w, fault) => StepFinalize(s, w, fault);
      case Mark(w, applied) => StepMark(s, w, applied);
      case Crash(w) => StepMoved(s, w, None, s.honest);
    }
  }

  /** Steps that touch only worker w: it comes, moves on with its token, or is gone. */
  lemma StepMoved(s: System, w: WorkerId, wk: Option<Worker>, honest: bool)
    requires Inv(s) && (honest ==> s.honest)
    requires wk.Some? ==> WorkerOk(s.(honest := honest), wk.value)
    requires wk.Some? && wk.value.pc.HasToken() ==>
               w in s.workers && s.workers[w].pc.HasToken() && s.workers[w].pc.token == wk.value.pc.token
    ensures Inv(s.(honest := honest, workers := if wk.None? then s.workers - {w} else s.workers[w := wk.value]))
  {
    var t := s.(honest := honest, workers := if wk.None? then s.workers - {w} else s.workers[w := wk.value]);
    forall v | v in t.workers ensures WorkerOk(t, t.workers[v]) {
      if v != w { assert WorkerOk(s, s.workers[v]); }
    }
  }

  lemma StepQueue(s: System, id: MailId, trips: seq<Trip>)
    requires Inv(s) && Enabled(s, Queue(id, trips))
    ensures Inv(Apply(s, Queue(id, trips)))
  {
    var t := Apply(s, Queue(id, trips));
    SplitIsCommaFree(Join(trips));
    var first := Split(Join(trips))[0];
    assert first in Split(t.db.mails[id].receiver) && Key(id, first) !in t.db.rows;
    forall i | i in s.db.mails ensures AllAccepted(t.db, i) == AllAccepted(s.db, i) {}
  }

  /** Tables after one row of mail k.mail moved to something other than ACCEPTED. */
  lemma NotAcceptedKeepsTables(s: System, k: Key, row: Row)
    requires TablesOk(s) && k.mail in s.db.mails && row.attempt in s.used && !row.state.Accepted?
    requires !AcceptedBy(s.db.rows, k)
    ensures TablesOk(s.(db := s.db.(rows := s.db.rows[k := row])))
  {
    var t := s.(db := s.db.(rows := s.db.rows[k := row]));
    forall id | id in s.db.mails ensures AllAccepted(t.db, id) == AllAccepted(s.db, id) {
      forall trip ensures AcceptedBy(t.db.rows, Key(id, trip)) == AcceptedBy(s.db.rows, Key(id, trip)) {}
    }
  }

  /** Moving one row that no other worker owns, and its mail's status, disturbs no other worker. */
  lemma OthersKeepRows(s: System, db: Db, w: WorkerId, k: Key)
    requires WorkersOk(s) && w in s.workers
    requires k in s.db.rows && s.db.rows[k].state.Attempting? ==>
               s.workers[w].pc.HasToken() && s.db.rows[k].attempt == s.workers[w].pc.token
    requires db.rows.Keys == s.db.rows.Keys + {k} && db.mails.Keys == s.db.mails.Keys
    requires forall j :: j in s.db.rows && j != k ==> db.rows[j] == s.db.rows[j]
    ensures forall v :: v in s.workers && v != w ==> WorkerOk(s.(db := db), s.workers[v])
  {
    forall v | v in s.workers && v != w ensures WorkerOk(s.(db := db), s.workers[v]) {
      if s.workers[v].pc.Owns() {
        assert KeyOf(s.workers[v]) != k;
      }
    }
  }

  lemma StepClaim(s: System, w: WorkerId, token: Token, fault: Fault)
    requires Inv(s) && w in s.workers && s.workers[w].pc.Looping? && s.workers[w].pc.todo != [] && token !in s.used
    ensures Inv(ClaimStep(s, w, token, fault))
  {
    var t := ClaimStep(s, w, token, fault);
    var k := Key(s.workers[w].pc.todo[0], s.workers[w].trip);
    FreshToken(s, token);
    if t.db != s.db {
      assert ClaimAllowed(s.db, k) && t.db == s.db.(rows := s.db.rows[k := Row(token, Attempting)]);
      NotAcceptedKeepsTables(s.(used := s.used + {token}), k, Row(token, Attempting));
      OthersKeepRows(s, t.db, w, k);
      ClaimKeepsLog(s, k, token);
    }
    assert TablesOk(t) && LogOk(t);
    forall v | v in t.workers ensures WorkerOk(t, t.workers[v]) {
      if v != w { assert WorkerOk(s.(db := t.db), s.workers[v]); }
    }
  }

  lemma FreshToken(s: System, token: Token)
    requires Inv(s) && token !in s.used
    ensures forall entry :: entry in s.log ==> entry.token != token
  {
    forall entry | entry in s.log ensures entry.token != token { assert Backed(s.db, entry); }
  }

  lemma ClaimKeepsLog(s: System, k: Key, token: Token)
    requires LogOk(s) && ClaimAllowed(s.db, k)
    ensures LogOk(s.(db := s.db.(rows := s.db.rows[k := Row(token, Attempting)])))
  {
  }

  lemma StepEnter(s: System, w: WorkerId)
    requires Inv(s) && w in s.workers && s.workers[w].pc.Sending? && !s.workers[w].pc.entered
    ensures Inv(EnterStep(s, w))
  {
    var t, wk := EnterStep(s, w), s.workers[w];
    var entry := Entry(KeyOf(wk), wk.pc.token);
    assert WorkerOk(s, wk);
    assert forall i :: 0 <= i < |s.log| ==> Backed(s.db, s.log[i]) && s.log[i].key != entry.key;
    assert LogOk(t);
    forall v | v in t.workers ensures WorkerOk(t, t.workers[v]) {
      assert WorkerOk(s, s.workers[v]);
      assert forall e :: e in t.log <==> e in s.log || e == entry;
    }
  }

  lemma StepFinalize(s: System, w: WorkerId, fault: Fault)
    requires Inv(s) && w in s.workers && s.workers[w].pc.Finalizing?
    ensures Inv(FinalizeStep(s, w, fault))
  {
    var wk := s.workers[w];
    assert WorkerOk(s, wk);
    var result := SettleAttempt(s.db, KeyOf(wk), wk.pc.token, MarkOf(wk.pc.verdict), fault).1;
    StepAttempt(s, w, MarkOf(wk.pc.verdict), AfterFinalizePc(wk.pc, result), fault);
  }

  /** setMailAttempt by a worker that holds the attempt, whatever the outcome and next counter. */
  lemma StepAttempt(s: System, w: WorkerId, to: RowState, next: Pc, fault: Fault)
    requires Inv(s) && w in s.workers && s.workers[w].pc.Owns()
    requires !to.Attempting?
    requires to.Pending? ==> !s.workers[w].pc.Entered()
    requires to.Accepted? && s.honest ==> s.workers[w].pc.Entered()
    requires !next.Owns() && (next.HasToken() ==> next.token == s.workers[w].pc.token)
    ensures Inv(Goto(s.(db := SettleAttempt(s.db, KeyOf(s.workers[w]), s.workers[w].pc.token, to, fault).0), w, next))
  {
    var k, token := KeyOf(s.workers[w]), s.workers[w].pc.token;
    assert WorkerOk(s, s.workers[w]);
    var db := SettleAttempt(s.db, k, token, to, fault).0;
    if db == s.db {
      assert s.(db := db) == s;
    } else {
      AttemptCommitted(s, w, to);
    }
    Disowned(s, db, w, next);
  }

  lemma AttemptCommitted(s: System, w: WorkerId, to: RowState)
    requires Inv(s) && w in s.workers && s.workers[w].pc.Owns()
    requires AttemptHeld(s.db, KeyOf(s.workers[w]), s.workers[w].pc.token)
    requires !to.Attempting?
    requires to.Pending? ==> !s.workers[w].pc.Entered()
    requires to.Accepted? && s.honest ==> s.workers[w].pc.Entered()
    ensures var t := s.(db := AfterAttempt(s.db, KeyOf(s.workers[w]), s.workers[w].pc.token, to));
            TablesOk(t) && LogOk(t) && forall v :: v in s.workers && v != w ==> WorkerOk(t, s.workers[v])
  {
    var k, token := KeyOf(s.workers[w]), s.workers[w].pc.token;
    var db := AfterAttempt(s.db, k, token, to);
    hide TablesOk, LogOk, WorkerOk;
    AttemptKeepsTables(s, k, token, to);
    OthersKeepRows(s, db, w, k);
    AttemptKeepsLog(s, w, db, to);
  }

  /** A worker that lets go of its attempt owes nothing; the others were already accounted for. */
  lemma Disowned(s: System, db: Db, w: WorkerId, next: Pc)
    requires WorkersOk(s) && w in s.workers && s.workers[w].pc.HasToken()
    requires TablesOk(s.(db := db)) && LogOk(s.(db := db))
    requires forall v :: v in s.workers && v != w ==> WorkerOk(s.(db := db), s.workers[v])
    requires !next.Owns() && (next.HasToken() ==> next.token == s.workers[w].pc.token)
    ensures Inv(Goto(s.(db := db), w, next))
  {
    var t := Goto(s.(db := db), w, next);
    assert TablesOk(t) && LogOk(t);
    forall v | v in t.workers ensures WorkerOk(t, t.workers[v]) {
      if v == w {
        assert WorkerOk(s, s.workers[w]);
      } else {
        assert WorkerOk(s.(db := db), s.workers[v]);
      }
    }
  }

  lemma AttemptKeepsLog(s: System, w: WorkerId, db: Db, to: RowState)
    requires Inv(s) && w in s.workers && s.workers[w].pc.Owns()
    requires to.Pending? ==> !s.workers[w].pc.Entered()
    requires to.Accepted? && s.honest ==> s.workers[w].pc.Entered()
    requires db.rows == s.db.rows[KeyOf(s.workers[w]) := Row(s.workers[w].pc.token, to)]
    ensures LogOk(s.(db := db))
  {
    var k, token := KeyOf(s.workers[w]), s.workers[w].pc.token;
    forall i | 0 <= i < |s.log| ensures Backed(db, s.log[i]) {
      assert Backed(s.db, s.log[i]);
      assert s.log[i].key == k ==> s.log[i] == Entry(k, token);
    }
  }

  lemma AttemptKeepsTables(s: System, k: Key, token: Token, to: RowState)
    requires TablesOk(s) && AttemptHeld(s.db, k, token)
    ensures TablesOk(s.(db := AfterAttempt(s.db, k, token, to)))
  {
    var moved := s.db.(rows := s.db.rows[k := Row(token, to)]);
    forall id | id in s.db.mails
      ensures AllAccepted(s.db, id) ==> AllAccepted(moved, id)
      ensures AllAccepted(moved, id) ==> AllAccepted(s.db, id) || (id == k.mail && to.Accepted?)
    {
      forall trip | Key(id, trip) != k
        ensures AcceptedBy(moved.rows, Key(id, trip)) == AcceptedBy(s.db.rows, Key(id, trip)) {}
    }
    AcceptanceFollows(s, s.(db := AfterAttempt(s.db, k, token, to)), moved);
  }

  lemma AcceptanceFollows(s: System, t: System, moved: Db)
    requires TablesOk(s) && t.legacy == s.legacy && t.used == s.used
    requires t.db.rows == moved.rows && moved.mails == s.db.mails && t.db.mails.Keys == s.db.mails.Keys
    requires forall k :: k in moved.rows ==> k.mail in s.db.mails && moved.rows[k].attempt in s.used
    requires forall id :: id in s.db.mails ==>
               t.db.mails[id].receiver == s.db.mails[id].receiver
               && (t.db.mails[id].status.Delivered? <==> s.db.mails[id].status.Delivered? || AllAccepted(moved, id))
    requires forall id :: id in s.db.mails && AllAccepted(s.db, id) ==> AllAccepted(moved, id)
    ensures TablesOk(t)
  {
    forall id | id in t.db.mails ensures AllAccepted(t.db, id) == AllAccepted(moved, id) {}
  }

  lemma StepMark(s: System, w: WorkerId, applied: bool)
    requires Inv(s) && w in s.workers && s.workers[w].pc.Marking?
    ensures Inv(MarkStep(s, w, applied))
  {
    var t, k, token := MarkStep(s, w, applied), KeyOf(s.workers[w]), s.workers[w].pc.token;
    if t.db != s.db {
      assert t.db == s.db.(rows := s.db.rows[k := Row(token, Unknown)]);
      NotAcceptedKeepsTables(s, k, Row(token, Unknown));
      OthersKeepRows(s, t.db, w, k);
      MarkKeepsLog(s, k, token);
    } else {
      assert s.(db := t.db) == s;
    }
    Disowned(s, t.db, w, Stopped);
  }

  lemma MarkKeepsLog(s: System, k: Key, token: Token)
    requires LogOk(s) && AttemptHeld(s.db, k, token)
    ensures LogOk(s.(db := s.db.(rows := s.db.rows[k := Row(token, Unknown)])))
  {
  }

  // ----- what one step may do to a row -----

  ghost predicate HeldBy(s: System, w: WorkerId, k: Key, token: Token) {
    w in s.workers && s.workers[w].pc.HasToken() && KeyOf(s.workers[w]) == k && s.workers[w].pc.token == token
  }

  /** A fresh claim of an absent or PENDING row. */
  ghost predicate ClaimsRow(s: System, t: System, k: Key) {
    && (k in s.db.rows ==> s.db.rows[k].state.Pending?)
    && k in t.db.rows && t.db.rows[k].state.Attempting? && t.db.rows[k].attempt !in s.used
  }

  /** The end of an attempt, by the worker that holds its token; to PENDING only if transport
      was never entered for this recipient. */
  ghost predicate SettlesRow(s: System, t: System, k: Key) {
    && k in s.db.rows && s.db.rows[k].state.Attempting?
    && k in t.db.rows && t.db.rows[k].attempt == s.db.rows[k].attempt && !t.db.rows[k].state.Attempting?
    && (exists w :: HeldBy(s, w, k, s.db.rows[k].attempt))
    && (t.db.rows[k].state.Pending? ==> forall entry :: entry in s.log ==> entry.key != k)
  }

  ghost predicate SameRow(s: System, t: System, k: Key) {
    (k in s.db.rows <==> k in t.db.rows) && (k in s.db.rows ==> s.db.rows[k] == t.db.rows[k])
  }

  /** Every step leaves a row alone, claims it afresh, or lets its holder settle it. So ACCEPTED
      and UNKNOWN are absorbing, and only the holder moves a row out of ATTEMPTING. */
  lemma RowStep(s: System, e: Event, k: Key)
    requires Inv(s) && Enabled(s, e)
    ensures var t := Apply(s, e); SameRow(s, t, k) || ClaimsRow(s, t, k) || SettlesRow(s, t, k)
  {
    match e {
      case Claim(w, token, fault) => RowClaimed(s, w, token, fault, k);
      case Release(w, fault) => RowSettled(s, ReleaseStep(s, w, fault), w, Pending, fault, k);
      case Finalize(w, fault) => RowFinalized(s, w, fault, k);
      case Mark(w, applied) => RowMarked(s, w, applied, k);
      case _ =>
    }
  }

  lemma RowClaimed(s: System, w: WorkerId, token: Token, fault: Fault, k: Key)
    requires w in s.workers && s.workers[w].pc.Looping? && s.workers[w].pc.todo != [] && token !in s.used
    ensures var t := ClaimStep(s, w, token, fault); SameRow(s, t, k) || ClaimsRow(s, t, k)
  {
  }

  lemma RowFinalized(s: System, w: WorkerId, fault: Fault, k: Key)
    requires Inv(s) && w in s.workers && s.workers[w].pc.Finalizing?
    ensures var t := FinalizeStep(s, w, fault); SameRow(s, t, k) || SettlesRow(s, t, k)
  {
    assert WorkerOk(s, s.workers[w]);
    RowSettled(s, FinalizeStep(s, w, fault), w, MarkOf(s.workers[w].pc.verdict), fault, k);
  }

  lemma RowMarked(s: System, w: WorkerId, applied: bool, k: Key)
    requires w in s.workers && s.workers[w].pc.Marking?
    ensures var t := MarkStep(s, w, applied); SameRow(s, t, k) || SettlesRow(s, t, k)
  {
    assert HeldBy(s, w, KeyOf(s.workers[w]), s.workers[w].pc.token);
  }

  lemma RowSettled(s: System, t: System, w: WorkerId, to: RowState, fault: Fault, k: Key)
    requires Inv(s) && w in s.workers && s.workers[w].pc.Owns()
    requires !to.Attempting? && (to.Pending? ==> !s.workers[w].pc.Entered())
    requires t.db == SettleAttempt(s.db, KeyOf(s.workers[w]), s.workers[w].pc.token, to, fault).0
    ensures SameRow(s, t, k) || SettlesRow(s, t, k)
  {
    SettleRow(s, w, k);
  }

  lemma SettleRow(s: System, w: WorkerId, k: Key)
    requires Inv(s) && w in s.workers && s.workers[w].pc.Owns()
    ensures HeldBy(s, w, KeyOf(s.workers[w]), s.workers[w].pc.token)
    ensures k == KeyOf(s.workers[w]) && !s.workers[w].pc.Entered() ==> forall entry :: entry in s.log ==> entry.key != k
  {
    assert WorkerOk(s, s.workers[w]);
    forall entry | entry in s.log && entry.key == KeyOf(s.workers[w])
      ensures entry == Entry(KeyOf(s.workers[w]), s.workers[w].pc.token)
    {
      assert Backed(s.db, entry);
    }
  }

  // ----- properties of whole runs -----

  lemma {:induction false} ReachesInv(s: System, es: seq<Event>, t: System)
    requires Inv(s) && Reaches(s, es, t)
    ensures Inv(t)
    decreases |es|
  {
    if es != [] {
      StepInv(s, es[0]);
      ReachesInv(Apply(s, es[0]), es[1..], t);
    }
  }

  /** Under every interleaving, crash, cancellation and lost commit, transport is entered at most
      once per mail and recipient, and what was entered is never PENDING again. */
  lemma {:induction false} AtMostOnce(s: System, es: seq<Event>, t: System)
    requires Init(s) && Reaches(s, es, t)
    ensures forall i, j :: 0 <= i < j < |t.log| ==> t.log[i].key != t.log[j].key
    ensures forall entry :: entry in t.log ==> entry.key in t.db.rows && !t.db.rows[entry.key].state.Pending?
  {
    InitInv(s);
    ReachesInv(s, es, t);
    forall entry | entry in t.log ensures Backed(t.db, entry) {
      var i :| 0 <= i < |t.log| && t.log[i] == entry;
      assert Backed(t.db, t.log[i]);
    }
  }

  /** In every reachable state a mail is DELIVERED exactly when all its recipients have an
      ACCEPTED row, or it was already delivered before rows existed. */
  lemma {:induction false} DeliveredExactly(s: System, es: seq<Event>, t: System, id: MailId)
    requires Init(s) && Reaches(s, es, t) && id in t.db.mails
    ensures t.db.mails[id].status.Delivered? <==>
            (id in s.db.mails && s.db.mails[id].status.Delivered?) || AllAccepted(t.db, id)
  {
    InitInv(s);
    ReachesInv(s, es, t);
    HistoryGrows(s, es, t);
  }

  lemma {:induction false} HistoryGrows(s: System, es: seq<Event>, t: System)
    requires Reaches(s, es, t)
    ensures s.log <= t.log && s.used <= t.used && s.legacy == t.legacy && (t.honest ==> s.honest)
    decreases |es|
  {
    if es != [] { HistoryGrows(Apply(s, es[0]), es[1..], t); }
  }

  /** If senders report success only after entering transport, a mail delivered by this protocol
      was sent to each of its recipients, exactly once. */
  lemma {:induction false} DeliveredWasSent(s: System, es: seq<Event>, t: System, id: MailId, trip: Trip)
    requires Init(s) && Reaches(s, es, t) && t.honest
    requires id in t.db.mails && t.db.mails[id].status.Delivered? && id !in s.legacy
    requires trip in Split(t.db.mails[id].receiver)
    ensures exists i :: 0 <= i < |t.log| && t.log[i].key == Key(id, trip)
                        && forall j :: 0 <= j < |t.log| && t.log[j].key == Key(id, trip) ==> i == j
  {
    InitInv(s);
    ReachesInv(s, es, t);
    HistoryGrows(s, es, t);
    var k := Key(id, trip);
    assert AcceptedBy(t.db.rows, k);
    var i :| 0 <= i < |t.log| && t.log[i] == Entry(k, t.db.rows[k].attempt);
    assert t.log[i].key == k;
  }

  /** ACCEPTED and UNKNOWN rows never change again. */
  lemma {:induction false} FinalRowsStay(s: System, es: seq<Event>, t: System, k: Key)
    requires Inv(s) && Reaches(s, es, t)
    requires k in s.db.rows && (s.db.rows[k].state.Accepted? || s.db.rows[k].state.Unknown?)
    ensures k in t.db.rows && t.db.rows[k] == s.db.rows[k]
    decreases |es|
  {
    if es != [] {
      RowStep(s, es[0], k);
      StepInv(s, es[0]);
      FinalRowsStay(Apply(s, es[0]), es[1..], t, k);
    }
  }

  ghost predicate Orphan(s: System, k: Key) {
    k in s.db.rows && s.db.rows[k].state.Attempting? && forall w :: !HeldBy(s, w, k, s.db.rows[k].attempt)
  }

  lemma OrphanStep(s: System, e: Event, k: Key)
    requires Inv(s) && Enabled(s, e) && Orphan(s, k)
    ensures var t := Apply(s, e);
            Orphan(t, k) && t.db.rows[k] == s.db.rows[k]
            && s.log <= t.log && forall i :: |s.log| <= i < |t.log| ==> t.log[i].key != k
  {
    var t, token := Apply(s, e), s.db.rows[k].attempt;
    RowStep(s, e, k);
    assert SameRow(s, t, k);
    forall w ensures !HeldBy(t, w, k, token) {
      assert !HeldBy(s, w, k, token);
    }
    if e.Enter? {
      assert WorkerOk(s, s.workers[e.w]);
      assert !HeldBy(s, e.w, k, token);
    }
  }

  /** A crash after the claim leaves an ATTEMPTING row that nobody holds. It stays as evidence:
      no run ever reclaims it or sends for it. */
  lemma {:induction false} OrphanStays(s: System, es: seq<Event>, t: System, k: Key)
    requires Inv(s) && Reaches(s, es, t)
    requires Orphan(s, k)
    ensures k in t.db.rows && t.db.rows[k] == s.db.rows[k]
    ensures forall i :: |s.log| <= i < |t.log| ==> t.log[i].key != k
    decreases |es|
  {
    if es != [] {
      var m := Apply(s, es[0]);
      StepInv(s, es[0]);
      OrphanStep(s, es[0], k);
      OrphanStays(m, es[1..], t, k);
      HistoryGrows(m, es[1..], t);
      assert forall i :: |s.log| <= i < |m.log| ==> m.log[i] == t.log[i];
    }
  }

  /** A token that can never reach the transport log any more. */
  ghost predicate Spent(s: System, token: Token) {
    && token in s.used
    && (forall entry :: entry in s.log ==> entry.token != token)
    && (forall w :: w in s.workers && s.workers[w].pc.Owns() ==> s.workers[w].pc.token != token)
  }

  lemma SpentStep(s: System, e: Event, token: Token)
    requires Enabled(s, e) && Spent(s, token)
    ensures Spent(Apply(s, e), token)
  {
    if e.Enter? {
      var added := Entry(KeyOf(s.workers[e.w]), s.workers[e.w].pc.token);
      assert forall entry :: entry in Apply(s, e).log <==> entry in s.log || entry == added;
    }
  }

  lemma {:induction false} SpentNeverSends(s: System, es: seq<Event>, t: System, token: Token)
    requires Reaches(s, es, t) && Spent(s, token)
    ensures forall entry :: entry in t.log ==> entry.token != token
    decreases |es|
  {
    if es != [] {
      SpentStep(s, es[0], token);
      SpentNeverSends(Apply(s, es[0]), es[1..], t, token);
    }
  }

  /** Only an attempt that never entered transport, and never will, returns to PENDING. */
  lemma {:induction false} ReturnedNeverSends(s: System, e: Event, es: seq<Event>, t: System, k: Key)
    requires Inv(s) && Enabled(s, e) && Reaches(Apply(s, e), es, t)
    requires k in s.db.rows && s.db.rows[k].state.Attempting?
    requires k in Apply(s, e).db.rows && Apply(s, e).db.rows[k].state.Pending?
    ensures forall entry :: entry in t.log ==> entry.token != s.db.rows[k].attempt
  {
    StepInv(s, e);
    ReturnSpends(s, e, k);
    SpentNeverSends(Apply(s, e), es, t, s.db.rows[k].attempt);
  }

  lemma ReturnSpends(s: System, e: Event, k: Key)
    requires Inv(s) && Enabled(s, e)
    requires k in s.db.rows && s.db.rows[k].state.Attempting?
    requires k in Apply(s, e).db.rows && Apply(s, e).db.rows[k].state.Pending?
    ensures Spent(Apply(s, e), s.db.rows[k].attempt)
  {
    ReturnedByOwner(s, e, k);
    hide ClaimStep, EnterStep, ReturnStep, MarkStep;
    if e.Release? {
      LettingGoSpends(s, ReleaseStep(s, e.w, e.fault), e.w, k);
    } else {
      FinalizeSpends(s, e.w, e.fault, k);
    }
  }

  lemma ReturnedByOwner(s: System, e: Event, k: Key)
    requires Enabled(s, e)
    requires k in s.db.rows && s.db.rows[k].state.Attempting?
    requires k in Apply(s, e).db.rows && Apply(s, e).db.rows[k].state.Pending?
    ensures e.Release? || e.Finalize?
  {
  }

  lemma FinalizeSpends(s: System, w: WorkerId, fault: Fault, k: Key)
    requires Inv(s) && w in s.workers && s.workers[w].pc.Finalizing?
    requires k in s.db.rows && s.db.rows[k].state.Attempting?
    requires k in FinalizeStep(s, w, fault).db.rows && FinalizeStep(s, w, fault).db.rows[k].state.Pending?
    ensures Spent(FinalizeStep(s, w, fault), s.db.rows[k].attempt)
  {
    assert WorkerOk(s, s.workers[w]);
    LettingGoSpends(s, FinalizeStep(s, w, fault), w, k);
  }

  /** A worker that returned its attempt to PENDING no longer has it, and nobody else did. */
  lemma LettingGoSpends(s: System, t: System, w: WorkerId, k: Key)
    requires Inv(s) && w in s.workers && s.workers[w].pc.Owns()
    requires t.log == s.log && t.used == s.used
    requires forall j :: j in s.db.rows && j != KeyOf(s.workers[w]) ==> j in t.db.rows && t.db.rows[j] == s.db.rows[j]
    requires k in s.db.rows && s.db.rows[k].state.Attempting? && k in t.db.rows && t.db.rows[k].state.Pending?
    requires !s.workers[w].pc.Entered()
    requires w in t.workers && !t.workers[w].pc.Owns() && t.workers == s.workers[w := t.workers[w]]
    ensures Spent(t, s.db.rows[k].attempt)
  {
    assert WorkerOk(s, s.workers[w]);
    SettleRow(s, w, k);
  }

  /** A claim whose commit was not confirmed never sends, whether or not it took effect. */
  lemma {:induction false} UnconfirmedNeverSends(s: System, w: WorkerId, token: Token, fault: Fault, es: seq<Event>, t: System)
    requires Inv(s) && Enabled(s, Claim(w, token, fault)) && !fault.NoFault?
    requires Reaches(Apply(s, Claim(w, token, fault)), es, t)
    ensures forall entry :: entry in t.log ==> entry.token != token
  {
    var m := Apply(s, Claim(w, token, fault));
    StepInv(s, Claim(w, token, fault));
    forall entry | entry in s.log ensures entry.token != token {
      assert Backed(s.db, entry);
    }
    assert Spent(m, token);
    SpentNeverSends(m, es, t, token);
  }

  // ----- what a single worker can count on -----

  /** Cancellation after a confirmed claim undoes it: the mail can be claimed again at once. */
  lemma CancelUndoesClaim(s: System, w: WorkerId, token: Token)
    requires w in s.workers && s.workers[w].pc.Looping? && s.workers[w].pc.todo != [] && token !in s.used
    requires ClaimAllowed(s.db, Key(s.workers[w].pc.todo[0], s.workers[w].trip))
    ensures var k := Key(s.workers[w].pc.todo[0], s.workers[w].trip);
            var t := ClaimStep(s, w, token, NoFault);
            t.workers[w].pc.Claimed? && AttemptHeld(t.db, k, token)
            && var u := ReleaseStep(t, w, NoFault);
               u.db.mails == s.db.mails && u.db.rows == s.db.rows[k := Row(token, Pending)]
               && ClaimAllowed(u.db, k) && u.log == s.log && u.workers[w].pc.Stopped?
  {
  }

  /** A send whose receipt could not be stored ends as UNKNOWN once the mark goes through. */
  lemma LostReceiptIsMarked(s: System, w: WorkerId, fault: Fault)
    requires Inv(s) && w in s.workers && s.workers[w].pc.Finalizing?
    requires fault.Refused? || fault == CommitLost(false)
    ensures var t := FinalizeStep(s, w, fault);
            t.workers[w].pc.Marking?
            && var u := MarkStep(t, w, true);
               AttemptHeld(s.db, KeyOf(s.workers[w]), s.workers[w].pc.token)
               && u.db == s.db.(rows := s.db.rows[KeyOf(s.workers[w]) := Row(s.workers[w].pc.token, Unknown)])
  {
    assert WorkerOk(s, s.workers[w]);
  }
}
