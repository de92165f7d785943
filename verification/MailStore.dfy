/**
 The two mail tables and the transactions that change them. The storage may
 refuse a transaction (it rolls back) or lose the answer to its commit (it then
 has either happened or not, and nobody can tell which).
 */
module MailStore {
  import opened MailText

  type MailId = int
  type Trip = string

  /** The attempt identity: sixteen random bytes in the source, here a number nobody used before. */
  type Token = nat

  datatype MailStatus = Waiting | Delivered
  datatype Mail = Mail(receiver: string, status: MailStatus)
  datatype RowState = Pending | Attempting | Accepted | Unknown
  datatype Row = Row(attempt: Token, state: RowState)
  datatype Key = Key(mail: MailId, trip: Trip)
  datatype Db = Db(mails: map<MailId, Mail>, rows: map<Key, Row>)

  datatype Fault = NoFault | Refused | CommitLost(applied: bool)
  datatype TxResult = Committed | RolledBack | CommitUnknown

  /** repository.WithTx: all of the callback's writes, or none, and what the caller learns. */
  function Settle(before: Db, after: Db, bodyOk: bool, fault: Fault): (Db, TxResult) {
    if fault.Refused? || !bodyOk then (before, RolledBack)
    else if fault.CommitLost? then (if fault.applied then after else before, CommitUnknown)
    else (after, Committed)
  }

  predicate ClaimAllowed(db: Db, k: Key) {
    && k.mail in db.mails
    && db.mails[k.mail].status.Waiting?
    && Claimable(k.trip)
    && k.trip in Split(db.mails[k.mail].receiver)
    && (k in db.rows ==> db.rows[k].state.Pending?)
  }

  function AfterClaim(db: Db, k: Key, token: Token): Db {
    if ClaimAllowed(db, k) then db.(rows := db.rows[k := Row(token, Attempting)]) else db
  }

  predicate AttemptHeld(db: Db, k: Key, token: Token) {
    k.mail in db.mails && k in db.rows && db.rows[k] == Row(token, Attempting)
  }

  predicate AcceptedBy(rows: map<Key, Row>, k: Key) {
    k in rows && rows[k].state.Accepted?
  }

  /** Every recipient in the stored list has an accepted row. */
  predicate AllAccepted(db: Db, id: MailId)
    requires id in db.mails
  {
    forall trip :: trip in Split(db.mails[id].receiver) ==> AcceptedBy(db.rows, Key(id, trip))
  }

  function AfterAttempt(db: Db, k: Key, token: Token, to: RowState): Db
    requires AttemptHeld(db, k, token)
  {
    var moved := db.(rows := db.rows[k := Row(token, to)]);
    if to.Accepted? && AllAccepted(moved, k.mail) then
      moved.(mails := db.mails[k.mail := db.mails[k.mail].(status := Delivered)])
    else moved
  }

  /** Outcome of setMailAttempt: without the attempt's row the callback fails and rolls back. */
  function SettleAttempt(db: Db, k: Key, token: Token, to: RowState, fault: Fault): (Db, TxResult) {
    if AttemptHeld(db, k, token) then Settle(db, AfterAttempt(db, k, token, to), true, fault)
    else Settle(db, db, false, fault)
  }

  function AfterMark(db: Db, k: Key, token: Token): Db {
    if k in db.rows && db.rows[k] == Row(token, Attempting) then
      db.(rows := db.rows[k := Row(token, Unknown)])
    else db
  }

  /** The WHERE clause of the pending query. */
  ghost predicate PendingFor(db: Db, k: Key) {
    && k.mail in db.mails
    && db.mails[k.mail].status.Waiting?
    && (k in db.rows ==> db.rows[k].state.Pending?)
    && PendingText(db.mails[k.mail].receiver, k.trip)
  }

  /** What Pending answers: nothing for an unclaimable trip, else the matching ids in order. */
  ghost predicate IsPendingList(db: Db, trip: Trip, ids: seq<MailId>) {
    && (forall i, j :: 0 <= i < j < |ids| ==> ids[i] < ids[j])
    && (forall id :: id in ids <==> Claimable(trip) && PendingFor(db, Key(id, trip)))
  }

  /** The query selects exactly the mail that a claim would accept. */
  lemma PendingIsClaimable(db: Db, k: Key)
    ensures ClaimAllowed(db, k) <==> Claimable(k.trip) && PendingFor(db, k)
  {
    if COMMA !in k.trip && k.mail in db.mails {
      PendingTextIsMembership(db.mails[k.mail].receiver, k.trip);
    }
  }

  class MailDatabase {
    var mails: map<MailId, Mail>
    var rows: map<Key, Row>

    function View(): Db
      reads this
    {
      Db(mails, rows)
    }

    constructor (db: Db)
      ensures View() == db
    {
      mails, rows := db.mails, db.rows;
    }

    /** claimMail. The claim is confirmed only when the commit is. */
    method ClaimMail(id: MailId, trip: Trip, token: Token, fault: Fault) returns (claimed: bool, result: TxResult)
      modifies this
      ensures (View(), result) == Settle(old(View()), AfterClaim(old(View()), Key(id, trip), token),
                                         id in old(mails), fault)
      ensures claimed <==> result.Committed? && ClaimAllowed(old(View()), Key(id, trip))
    {
      if fault.Refused? || id !in mails {
        return false, RolledBack;
      }
      claimed := false;
      var working := rows;
      var mail := mails[id];
      var addressed := MailHasRecipient(mail.receiver, trip);
      if mail.status.Waiting? && addressed {
        var k := Key(id, trip);
        if k !in rows || rows[k].state.Pending? {
          working := working[k := Row(token, Attempting)];
          claimed := true;
        }
      }
      if fault.CommitLost? {
        if fault.applied { rows := working; }
        return false, CommitUnknown;
      }
      rows := working;
      return claimed, Committed;
    }

    /** setMailAttempt: moves only this attempt's ATTEMPTING row, and closes the mail when that
        was the last recipient. */
    method SetMailAttempt(id: MailId, trip: Trip, token: Token, to: RowState, fault: Fault) returns (result: TxResult)
      modifies this
      ensures (View(), result) == SettleAttempt(old(View()), Key(id, trip), token, to, fault)
    {
      var k := Key(id, trip);
      if fault.Refused? || id !in mails || k !in rows || rows[k] != Row(token, Attempting) {
        return RolledBack;
      }
      var workingRows, workingMails := rows[k := Row(token, to)], mails;
      if to.Accepted? {
        var recipients := Split(mails[id].receiver);
        var i := 0;
        while i < |recipients| && AcceptedBy(workingRows, Key(id, recipients[i]))
          invariant 0 <= i <= |recipients|
          invariant forall trip :: trip in recipients[..i] ==> AcceptedBy(workingRows, Key(id, trip))
        {
          i := i + 1;
        }
        assert i < |recipients| ==> recipients[i] in recipients;
        if i == |recipients| {
          workingMails := mails[id := mails[id].(status := Delivered)];
        }
      }
      if fault.CommitLost? {
        if fault.applied { rows, mails := workingRows, workingMails; }
        return CommitUnknown;
      }
      rows, mails := workingRows, workingMails;
      return Committed;
    }

    /** markMailUnknown: one autocommitted statement that may fail. */
    method MarkMailUnknown(id: MailId, trip: Trip, token: Token, applied: bool)
      modifies this
      ensures View() == if applied then AfterMark(old(View()), Key(id, trip), token) else old(View())
    {
      var k := Key(id, trip);
      if applied && k in rows && rows[k] == Row(token, Attempting) {
        rows := rows[k := Row(token, Unknown)];
      }
    }
  }
}
