/**
 Durable conversation memory: rows are loaded in id order, those a stored summary
 covers are left out, and when too many complete turns remain the oldest of them
 are summarised and the summary's cursor moves on.
 */
module ConversationMemory {
  import opened Options

  const USER := "user"
  const ASSISTANT := "assistant"

  datatype Message = Message(role: string, content: string)
  datatype Row = Row(id: int, role: string, content: string)

  /** A summary in memory; the label says which messages it covers. */
  datatype Summary = Summary(content: string, coveredFrom: int, coveredThrough: int, fingerprint: string, cursor: int)

  /** The stored summary: the label is not stored. */
  datatype SummaryRecord = SummaryRecord(content: string, coveredThroughId: int, fingerprint: string)

  datatype CompactError = BadRawTurnLimit | NoSummarizer | SummarizeFailed | SummaryEmpty
  datatype LoadError = InvalidLimit | InvalidRow | Compaction(error: CompactError) | CoverageInvalid

  datatype Compacted = Compacted(messages: seq<Message>, summary: Option<Summary>)
  datatype CompactResult = CompactOk(compacted: Compacted) | CompactErr(error: CompactError)

  /** What is left open: the summarizer (None for an error), trimming, and the injective fingerprint. */
  datatype Tools = Tools(summarize: seq<Message> -> Option<string>, trim: string -> string,
                         fingerprint: seq<Message> -> string, render: Summary -> string)

  function SummaryMessage(t: Tools, s: Summary): Message {
    Message(USER, t.render(s))
  }

  /** How many user/assistant pairs the messages begin with. */
  function LeadingTurns(ms: seq<Message>): (n: nat)
    ensures 2 * n <= |ms|
  {
    if |ms| < 2 || ms[0].role != USER || ms[1].role != ASSISTANT then 0 else 1 + LeadingTurns(ms[2..])
  }

  method CountLeadingCompleteTurns(ms: seq<Message>) returns (turns: nat)
    ensures turns == LeadingTurns(ms)
  {
    turns := 0;
    var index := 0;
    while index + 1 < |ms|
      invariant index == 2 * turns <= |ms|
      invariant LeadingTurns(ms) == turns + LeadingTurns(ms[index..])
    {
      if ms[index].role != USER || ms[index + 1].role != ASSISTANT {
        break;
      }
      assert ms[index..][2..] == ms[index + 2..];
      turns := turns + 1;
      index := index + 2;
    }
  }

  /** Taking k turns off the front takes k off the count. */
  lemma {:induction false} TurnsDrop(ms: seq<Message>, k: nat)
    requires k <= LeadingTurns(ms)
    ensures LeadingTurns(ms[2 * k..]) == LeadingTurns(ms) - k
  {
    if k > 0 {
      TurnsDrop(ms[2..], k - 1);
      assert ms[2..][2 * (k - 1)..] == ms[2 * k..];
    } else {
      assert ms[0..] == ms;
    }
  }

  /** The turn at position k of a list of turns: a question and its answer. */
  predicate TurnAt(ms: seq<Message>, k: nat) {
    2 * k + 1 < |ms| && ms[2 * k].role == USER && ms[2 * k + 1].role == ASSISTANT
  }

  /** The count is exact: so many turns stand at the front, and what follows is not another one. */
  lemma {:induction false} LeadingTurnsAreExact(ms: seq<Message>)
    ensures forall k :: 0 <= k < LeadingTurns(ms) ==> TurnAt(ms, k)
    ensures !TurnAt(ms, LeadingTurns(ms))
  {
    if LeadingTurns(ms) > 0 {
      LeadingTurnsAreExact(ms[2..]);
      forall k | 0 <= k < LeadingTurns(ms) ensures TurnAt(ms, k) {
        if k > 0 { assert TurnAt(ms[2..], k - 1); }
      }
    }
  }

  function Prefixed(t: Tools, existing: Option<Summary>, ms: seq<Message>): seq<Message> {
    if existing.None? then ms else [SummaryMessage(t, existing.value)] + ms
  }

  /** How many of the messages a compaction summarises: all complete turns but the newest of the limit. */
  function CompactCount(ms: seq<Message>, limit: int): (n: nat)
    ensures n <= |ms|
  {
    if LeadingTurns(ms) <= limit || limit < 0 then 0 else 2 * (LeadingTurns(ms) - limit)
  }

  /** What a compaction hands to the summarizer. */
  function Source(t: Tools, ms: seq<Message>, limit: int, existing: Option<Summary>): seq<Message> {
    Prefixed(t, existing, ms[..CompactCount(ms, limit)])
  }

  /** Why a source cannot be summarised. */
  function SummaryFault(t: Tools, hasSummarizer: bool, source: seq<Message>): Option<CompactError> {
    if !hasSummarizer then Some(NoSummarizer)
    else if t.summarize(source).None? then Some(SummarizeFailed)
    else if t.trim(t.summarize(source).value) == "" then Some(SummaryEmpty)
    else None
  }

  /** Compact. */
  method Compact(t: Tools, hasSummarizer: bool, ms: seq<Message>, limit: int, existing: Option<Summary>) returns (r: CompactResult)
    ensures limit < 1 <==> r == CompactErr(BadRawTurnLimit)
    ensures limit >= 1 && CompactCount(ms, limit) == 0 ==> r == CompactOk(Compacted(Prefixed(t, existing, ms), existing))
    ensures limit >= 1 && CompactCount(ms, limit) > 0 ==>
              var fault := SummaryFault(t, hasSummarizer, Source(t, ms, limit, existing));
              if fault.Some? then r == CompactErr(fault.value)
              else r.CompactOk? && IsCompaction(t, ms, limit, existing, r.compacted)
  {
    if limit < 1 {
      return CompactErr(BadRawTurnLimit);
    }
    var complete := CountLeadingCompleteTurns(ms);
    if complete <= limit {
      return CompactOk(Compacted(Prefixed(t, existing, ms), existing));
    }
    if !hasSummarizer {
      return CompactErr(NoSummarizer);
    }
    var turns := complete - limit;
    var source := ms[..turns * 2];
    var from, through := 0, turns * 2 - 1;
    if existing.Some? {
      from, through := existing.value.coveredFrom, existing.value.coveredThrough + turns * 2;
      source := [SummaryMessage(t, existing.value)] + source;
    }
    var content := t.summarize(source);
    if content.None? {
      return CompactErr(SummarizeFailed);
    }
    var text := t.trim(content.value);
    if text == "" {
      return CompactErr(SummaryEmpty);
    }
    var summary := Summary(text, from, through, t.fingerprint(source), 0);
    r := CompactOk(Compacted([SummaryMessage(t, summary)] + ms[turns * 2..], Some(summary)));
  }

  /** The summary holds the summarizer's answer to the source, trimmed and not blank. */
  predicate IsSummaryOf(t: Tools, source: seq<Message>, summary: Summary) {
    && t.summarize(source).Some? && summary.content == t.trim(t.summarize(source).value) != ""
    && summary.fingerprint == t.fingerprint(source)
  }

  /** The outcome of an actual compaction. */
  predicate IsCompaction(t: Tools, ms: seq<Message>, limit: int, existing: Option<Summary>, c: Compacted) {
    var n := CompactCount(ms, limit);
    && c.summary.Some?
    && c.messages == [SummaryMessage(t, c.summary.value)] + ms[n..]
    && IsSummaryOf(t, Source(t, ms, limit, existing), c.summary.value)
    && c.summary.value.coveredFrom == (if existing.None? then 0 else existing.value.coveredFrom)
    && c.summary.value.coveredThrough == (if existing.None? then n - 1 else existing.value.coveredThrough + n)
  }

  // ----- loading -----

  /** Rows come in id order. */
  predicate Ascending(rows: seq<Row>) {
    forall i, j :: 0 <= i < j < |rows| ==> rows[i].id < rows[j].id
  }

  predicate Covered(cursor: Option<int>, row: Row) {
    cursor.Some? && row.id > 0 && row.id <= cursor.value
  }

  predicate ValidRow(t: Tools, row: Row) {
    (row.role == USER || row.role == ASSISTANT) && t.trim(row.content) != ""
  }

  /** The rows that no summary covers. */
  function Eligible(rows: seq<Row>, cursor: Option<int>): seq<Row> {
    if rows == [] then []
    else Eligible(rows[..|rows| - 1], cursor) + if Covered(cursor, rows[|rows| - 1]) then [] else [rows[|rows| - 1]]
  }

  function Messages(rows: seq<Row>): (ms: seq<Message>)
    ensures |ms| == |rows|
  {
    seq(|rows|, i requires 0 <= i < |rows| => Message(rows[i].role, rows[i].content))
  }

  function CursorOf(record: Option<SummaryRecord>): Option<int> {
    if record.None? then None else Some(record.value.coveredThroughId)
  }

  /** What the stored summary becomes in memory: a label of zeroes. */
  function Restored(record: Option<SummaryRecord>): Option<Summary> {
    if record.None? then None
    else Some(Summary(record.value.content, 0, 0, record.value.fingerprint, record.value.coveredThroughId))
  }

  /** A successful load: the messages for the model, and the summary record to store, if any. */
  datatype Loaded = LoadOk(messages: seq<Message>, upsert: Option<SummaryRecord>) | LoadErr(error: LoadError)

  /** The rows a load compacts: none if the summary stays. */
  function CompactedRows(rows: seq<Row>, limit: int, cursor: Option<int>): seq<Row> {
    var eligible := Eligible(rows, cursor);
    eligible[..CompactCount(Messages(eligible), limit)]
  }

  function RawRows(rows: seq<Row>, limit: int, cursor: Option<int>): seq<Row> {
    var eligible := Eligible(rows, cursor);
    eligible[CompactCount(Messages(eligible), limit)..]
  }

  /** The filtering loop. */
  method FilterRows(t: Tools, rows: seq<Row>, cursor: Option<int>) returns (eligible: seq<Row>, out: seq<Message>, valid: bool)
    ensures valid <==> forall row :: row in Eligible(rows, cursor) ==> ValidRow(t, row)
    ensures valid ==> eligible == Eligible(rows, cursor) && out == Messages(eligible)
  {
    eligible, out := [], [];
    for i := 0 to |rows|
      invariant eligible == Eligible(rows[..i], cursor) && out == Messages(eligible)
      invariant forall row :: row in eligible ==> ValidRow(t, row)
    {
      assert rows[..i + 1][..i] == rows[..i];
      if cursor.Some? && rows[i].id > 0 && rows[i].id <= cursor.value {
        continue;
      }
      if (rows[i].role != USER && rows[i].role != ASSISTANT) || t.trim(rows[i].content) == "" {
        EligibleStays(rows, cursor, i);
        return eligible, out, false;
      }
      eligible := eligible + [rows[i]];
      out := out + [Message(rows[i].role, rows[i].content)];
    }
    assert rows[..|rows|] == rows;
    valid := true;
  }

  lemma {:induction false} EligibleStays(rows: seq<Row>, cursor: Option<int>, i: nat)
    requires i < |rows| && !Covered(cursor, rows[i])
    ensures rows[i] in Eligible(rows, cursor)
  {
    if i < |rows| - 1 { EligibleStays(rows[..|rows| - 1], cursor, i); }
  }

  /** The cursor that a load filters by: without a compactor there is no summary. */
  function LoadCursor(hasCompactor: bool, record: Option<SummaryRecord>): Option<int> {
    if hasCompactor then CursorOf(record) else None
  }

  /** What a load hands to the summarizer, if it compacts. */
  function LoadSource(t: Tools, rows: seq<Row>, limit: int, record: Option<SummaryRecord>): seq<Message> {
    Prefixed(t, Restored(record), Messages(CompactedRows(rows, limit, CursorOf(record))))
  }

  /** Why a load fails, in the order in which it is found out. */
  function LoadFault(t: Tools, hasCompactor: bool, hasSummarizer: bool, rows: seq<Row>, limit: int, record: Option<SummaryRecord>)
    : Option<LoadError>
  {
    if hasCompactor && limit < 1 then Some(InvalidLimit)
    else if exists row :: row in Eligible(rows, LoadCursor(hasCompactor, record)) && !ValidRow(t, row) then Some(InvalidRow)
    else
      var done := CompactedRows(rows, limit, CursorOf(record));
      if !hasCompactor || done == [] then None
      else
        var source := LoadSource(t, rows, limit, record);
        var fault := SummaryFault(t, hasSummarizer, source);
        if fault.Some? then Some(Compaction(fault.value))
        else if done[|done| - 1].id < 1 && (record.None? || t.fingerprint(source) != record.value.fingerprint) then Some(CoverageInvalid)
        else None
  }

  /** Every row is a question or an answer and not blank. */
  predicate AllSaid(t: Tools, rows: seq<Row>) {
    forall row :: row in rows ==> (row.role == "user" || row.role == "assistant") && t.trim(row.content) != ""
  }

  /** A load without a compactor succeeds exactly if every row says something. With one it needs a positive limit,
      looks only at the rows that the stored summary does not cover, and if more turns are left than the limit it needs
      a summarizer that answers, not only with blanks, and an id to move the cursor to unless that summary is stored
      already. */
  lemma {:induction false} LoadSucceedsExactly(t: Tools, hasCompactor: bool, hasSummarizer: bool, rows: seq<Row>, limit: int,
                                                    record: Option<SummaryRecord>)
    ensures LoadFault(t, hasCompactor, hasSummarizer, rows, limit, record).None? <==>
              if !hasCompactor then AllSaid(t, rows)
              else
                var eligible := Eligible(rows, CursorOf(record));
                var source, turns := LoadSource(t, rows, limit, record), LeadingTurns(Messages(eligible));
                && limit >= 1 && AllSaid(t, eligible)
                && (turns > limit ==>
                      && hasSummarizer && t.summarize(source).Some? && t.trim(t.summarize(source).value) != ""
                      && (eligible[2 * (turns - limit) - 1].id >= 1
                          || (record.Some? && t.fingerprint(source) == record.value.fingerprint)))
  {
    EligibleAllRows(rows);
    hide Eligible, LeadingTurns, LoadSource;
    var eligible, done := Eligible(rows, CursorOf(record)), CompactedRows(rows, limit, CursorOf(record));
    var turns := LeadingTurns(Messages(eligible));
    assert limit >= 1 ==> (done == [] <==> turns <= limit) && (done != [] ==> done[|done| - 1] == eligible[2 * (turns - limit) - 1]);
    assert forall row :: ValidRow(t, row) <==> (row.role == "user" || row.role == "assistant") && t.trim(row.content) != "";
  }

  lemma {:induction false} EligibleAllRows(rows: seq<Row>)
    ensures Eligible(rows, None) == rows
  {
    EligibleAll(rows, None);
  }

  /** LoadContext, after the rows and the summary record were read: it fails exactly for the first fault there is. */
  method LoadContext(t: Tools, hasCompactor: bool, hasSummarizer: bool, rows: seq<Row>, limit: int, record: Option<SummaryRecord>)
    returns (r: Loaded)
    ensures var fault := LoadFault(t, hasCompactor, hasSummarizer, rows, limit, record);
            if fault.Some? then r == LoadErr(fault.value)
            else r.LoadOk? && if hasCompactor then IsLoad(t, rows, limit, record, r) else r == LoadOk(Messages(rows), None)
  {
    if hasCompactor && limit < 1 {
      return LoadErr(InvalidLimit);
    }
    var existing := if hasCompactor then Restored(record) else None;
    var eligible, out, valid := FilterRows(t, rows, LoadCursor(hasCompactor, record));
    if !valid {
      return LoadErr(InvalidRow);
    }
    if !hasCompactor {
      EligibleAll(rows, None);
      return LoadOk(out, None);
    }
    SourcesAgree(t, rows, limit, record);
    hide Eligible, CompactCount, Source, LoadSource, IsSummaryOf, SummaryFault, Prefixed;
    var compacted := Compact(t, hasSummarizer, out, limit, existing);
    if compacted.CompactErr? {
      return LoadErr(Compaction(compacted.error));
    }
    var messages, summary := compacted.compacted.messages, compacted.compacted.summary;
    if summary.Some? && (record.None? || summary.value.fingerprint != record.value.fingerprint) {
      var count := |out| - (|messages| - 1);
      if count < 1 || count > |eligible| || eligible[count - 1].id < 1 {
        return LoadErr(CoverageInvalid);
      }
      return LoadOk(messages, Some(SummaryRecord(summary.value.content, eligible[count - 1].id, summary.value.fingerprint)));
    }
    r := LoadOk(messages, None);
  }

  /** What is compacted of the eligible messages is what is compacted of the eligible rows. */
  lemma {:induction false} SourcesAgree(t: Tools, rows: seq<Row>, limit: int, record: Option<SummaryRecord>)
    ensures var eligible := Eligible(rows, CursorOf(record));
            var ms, done := Messages(eligible), CompactedRows(rows, limit, CursorOf(record));
            var n := CompactCount(ms, limit);
            n == |done| && done == eligible[..n] && ms[..n] == Messages(done) && ms[n..] == Messages(RawRows(rows, limit, CursorOf(record)))
            && Source(t, ms, limit, Restored(record)) == LoadSource(t, rows, limit, record)
            && (n == 0 ==> ms == Messages(RawRows(rows, limit, CursorOf(record))))
            && (n > 0 ==> eligible[n - 1] == done[n - 1])
    ensures SummaryFault(t, true, LoadSource(t, rows, limit, record)).None? ==>
              forall s :: IsSummaryOf(t, LoadSource(t, rows, limit, record), s) ==> s.fingerprint == t.fingerprint(LoadSource(t, rows, limit, record))
  {
    hide Eligible, CompactCount, Prefixed;
  }

  /** A load's answer: everything raw behind the old summary, or the oldest turns behind a new one whose
      cursor is the id of the last row it took in. It is stored unless its fingerprint is already there. */
  ghost predicate IsLoad(t: Tools, rows: seq<Row>, limit: int, record: Option<SummaryRecord>, r: Loaded)
    requires r.LoadOk?
  {
    var done, raw := CompactedRows(rows, limit, CursorOf(record)), RawRows(rows, limit, CursorOf(record));
    if done == [] then
      r.upsert.None? && r.messages == Prefixed(t, Restored(record), Messages(raw))
    else
      exists summary: Summary ::
        r.messages == [SummaryMessage(t, summary)] + Messages(raw)
        && IsSummaryOf(t, LoadSource(t, rows, limit, record), summary)
        && summary.coveredFrom == 0
        && summary.coveredThrough == (if record.None? then |done| - 1 else |done|)
        && r.upsert == if record.Some? && summary.fingerprint == record.value.fingerprint then None
                       else Some(SummaryRecord(summary.content, done[|done| - 1].id, summary.fingerprint))
  }

  // ----- coverage -----

  lemma {:induction false} EligibleFacts(rows: seq<Row>, cursor: Option<int>)
    requires Ascending(rows)
    ensures Ascending(Eligible(rows, cursor))
    ensures forall row :: row in Eligible(rows, cursor) <==> row in rows && !Covered(cursor, row)
  {
    if rows != [] {
      var front, last := rows[..|rows| - 1], rows[|rows| - 1];
      EligibleFacts(front, cursor);
      assert rows == front + [last];
      forall row | row in Eligible(front, cursor) ensures row.id < last.id {
        assert row in front;
      }
    }
  }

  /** Each load puts every row either under the new cursor or into the raw rest, never both. The raw rest
      keeps the order of the rows and exactly the newest complete turns of the limit, and the cursor moves
      forward. */
  lemma CoverageIsExact(rows: seq<Row>, limit: int, cursor: Option<int>)
    requires Ascending(rows) && limit >= 1 && forall row :: row in rows ==> row.id >= 1
    requires CompactedRows(rows, limit, cursor) != []
    ensures var done, raw := CompactedRows(rows, limit, cursor), RawRows(rows, limit, cursor);
            var next := done[|done| - 1].id;
            Ascending(raw) && LeadingTurns(Messages(raw)) == limit
            && (forall row :: row in rows ==> (row.id <= next <==> row !in raw))
            && (forall row :: row in raw <==> row in rows && row.id > next)
            && (cursor.Some? ==> next > cursor.value)
  {
    NewestTurnsStay(rows, limit, cursor);
    var eligible := Eligible(rows, cursor);
    var done, raw := CompactedRows(rows, limit, cursor), RawRows(rows, limit, cursor);
    EligibleFacts(rows, cursor);
    hide Eligible, LeadingTurns, CompactCount;
    SplitByCursor(eligible, |done|);
    assert done == eligible[..|done|] && raw == eligible[|done|..];
    var last := done[|done| - 1];
    assert last in eligible && last in rows;
    forall row | row in rows ensures row.id > last.id ==> row in eligible {
      if Covered(cursor, row) { assert row.id <= cursor.value < last.id; }
    }
  }

  /** A load compacts exactly if more complete turns are uncovered than the limit; what it takes in are whole turns. */
  lemma {:induction false} CompactsWholeTurns(rows: seq<Row>, limit: int, cursor: Option<int>)
    requires limit >= 1
    ensures var turns, done := LeadingTurns(Messages(Eligible(rows, cursor))), CompactedRows(rows, limit, cursor);
            (done != [] <==> turns > limit) && (done != [] ==> |done| == 2 * (turns - limit))
            && forall k :: 0 <= 2 * k < |done| ==> TurnAt(Messages(done), k)
  {
    var ms, done := Messages(Eligible(rows, cursor)), CompactedRows(rows, limit, cursor);
    LeadingTurnsAreExact(ms);
    hide Eligible, LeadingTurns;
    forall k | 0 <= 2 * k < |done| ensures TurnAt(Messages(done), k) { assert TurnAt(ms, k); }
  }

  lemma NewestTurnsStay(rows: seq<Row>, limit: int, cursor: Option<int>)
    requires limit >= 1 && CompactedRows(rows, limit, cursor) != []
    ensures LeadingTurns(Messages(RawRows(rows, limit, cursor))) == limit
  {
    var ms := Messages(Eligible(rows, cursor));
    var n := CompactCount(ms, limit);
    TurnsDrop(ms, LeadingTurns(ms) - limit);
    assert Messages(RawRows(rows, limit, cursor)) == ms[n..];
  }

  /** In an ascending list, everything before a position has smaller ids than everything behind it. */
  lemma SplitByCursor(rows: seq<Row>, n: nat)
    requires Ascending(rows) && 0 < n <= |rows|
    ensures Ascending(rows[n..])
    ensures forall row :: row in rows[..n] ==> row.id <= rows[n - 1].id
    ensures forall row :: row in rows[n..] ==> row.id > rows[n - 1].id
    ensures forall row :: row in rows <==> row in rows[..n] || row in rows[n..]
  {
    assert rows == rows[..n] + rows[n..];
  }

  lemma {:induction false} EligibleConcat(a: seq<Row>, b: seq<Row>, cursor: Option<int>)
    ensures Eligible(a + b, cursor) == Eligible(a, cursor) + Eligible(b, cursor)
  {
    if b == [] {
      assert a + b == a;
    } else {
      assert (a + b)[..|a + b| - 1] == a + b[..|b| - 1];
      EligibleConcat(a, b[..|b| - 1], cursor);
    }
  }

  lemma {:induction false} EligibleAll(rows: seq<Row>, cursor: Option<int>)
    requires forall row :: row in rows ==> !Covered(cursor, row)
    ensures Eligible(rows, cursor) == rows
  {
    if rows != [] {
      assert rows == rows[..|rows| - 1] + [rows[|rows| - 1]];
      EligibleAll(rows[..|rows| - 1], cursor);
    }
  }

  /** The next load, after more rows were appended, starts exactly where this one stopped: its raw
      candidates are this load's raw rows and the new ones. */
  lemma {:induction false} NextLoadContinues(rows: seq<Row>, limit: int, cursor: Option<int>, more: seq<Row>)
    requires Ascending(rows + more) && limit >= 1 && forall row :: row in rows + more ==> row.id >= 1
    requires CompactedRows(rows, limit, cursor) != []
    ensures var done := CompactedRows(rows, limit, cursor);
            Eligible(rows + more, Some(done[|done| - 1].id)) == RawRows(rows, limit, cursor) + more
  {
    var done := CompactedRows(rows, limit, cursor);
    var next := done[|done| - 1].id;
    assert forall i :: 0 <= i < |rows| ==> rows[i] == (rows + more)[i];
    assert forall i :: 0 <= i < |more| ==> more[i] == (rows + more)[|rows| + i];
    assert Ascending(rows);
    EligibleConcat(rows, more, Some(next));
    RawIsWhatTheCursorLeaves(rows, limit, cursor, next);
    EligibleFacts(rows, cursor);
    assert done[|done| - 1] in rows;
    EligibleAll(more, Some(next));
  }

  lemma {:induction false} RawIsWhatTheCursorLeaves(rows: seq<Row>, limit: int, cursor: Option<int>, next: int)
    requires Ascending(rows) && limit >= 1 && forall row :: row in rows ==> row.id >= 1
    requires CompactedRows(rows, limit, cursor) != []
    requires var done := CompactedRows(rows, limit, cursor); next == done[|done| - 1].id
    ensures Eligible(rows, Some(next)) == RawRows(rows, limit, cursor)
  {
    var a, b := Eligible(rows, Some(next)), RawRows(rows, limit, cursor);
    EligibleFacts(rows, Some(next));
    CoverageIsExact(rows, limit, cursor);
    SameRows(a, b);
  }

  lemma HasRow(rows: seq<Row>)
    requires rows != []
    ensures exists row :: row in rows
  {
    assert rows[0] in rows;
  }

  lemma BehindFirst(rows: seq<Row>)
    requires Ascending(rows) && rows != []
    ensures forall row :: row in rows[1..] <==> row in rows && row != rows[0]
  {
    assert rows == [rows[0]] + rows[1..];
    forall i | 0 <= i < |rows[1..]| ensures rows[1..][i] != rows[0] {
      assert rows[1..][i] == rows[i + 1];
    }
  }

  /** Two ascending lists of the same rows are the same list. */
  lemma {:induction false} SameRows(a: seq<Row>, b: seq<Row>)
    requires Ascending(a) && Ascending(b) && forall row :: row in a <==> row in b
    ensures a == b
  {
    if a == [] {
      if b != [] { HasRow(b); }
    } else {
      assert a[0] in b && b != [];
      assert b[0] in a;
      assert a[0] == b[0];
      BehindFirst(a);
      BehindFirst(b);
      SameRows(a[1..], b[1..]);
      assert a == [a[0]] + a[1..] && b == [b[0]] + b[1..];
    }
  }

  // ----- any number of loads -----

  /** Where the cursor is after a load whose summary was stored. */
  function NextCursor(rows: seq<Row>, limit: int, cursor: Option<int>): Option<int> {
    var done := CompactedRows(rows, limit, cursor);
    if done == [] then cursor else Some(done[|done| - 1].id)
  }

  /** What is stored after a load. */
  function Stored(record: Option<SummaryRecord>, r: Loaded): Option<SummaryRecord>
    requires r.LoadOk?
  {
    if r.upsert.Some? then r.upsert else record
  }

  /** Storing what a load answers moves the cursor to its end, unless it compacted what has the fingerprint that is
      already stored: only then the cursor stays behind. */
  lemma StoredCursorIsNext(t: Tools, rows: seq<Row>, limit: int, record: Option<SummaryRecord>, r: Loaded)
    requires Ascending(rows) && Positive(rows) && limit >= 1 && r.LoadOk? && IsLoad(t, rows, limit, record, r)
    ensures CursorOf(Stored(record, r)) == NextCursor(rows, limit, CursorOf(record))
            <==> CompactedRows(rows, limit, CursorOf(record)) == [] || record.None?
                 || t.fingerprint(LoadSource(t, rows, limit, record)) != record.value.fingerprint
  {
    var cursor := CursorOf(record);
    if CompactedRows(rows, limit, cursor) != [] { CoverageIsExact(rows, limit, cursor); }
    hide CompactedRows, RawRows, LoadSource, Ascending, Prefixed;
  }

  function Flat(steps: seq<seq<Row>>): seq<Row> {
    if steps == [] then [] else steps[0] + Flat(steps[1..])
  }

  /** Everything that loads after each of the given appends take into summaries, in order. */
  function Summarised(rows: seq<Row>, limit: int, cursor: Option<int>, steps: seq<seq<Row>>): seq<Row>
    decreases |steps|
  {
    if steps == [] then []
    else
      var now := rows + steps[0];
      CompactedRows(now, limit, cursor) + Summarised(now, limit, NextCursor(now, limit, cursor), steps[1..])
  }

  function FinalCursor(rows: seq<Row>, limit: int, cursor: Option<int>, steps: seq<seq<Row>>): Option<int>
    decreases |steps|
  {
    if steps == [] then cursor
    else FinalCursor(rows + steps[0], limit, NextCursor(rows + steps[0], limit, cursor), steps[1..])
  }

  predicate Uncovered(cursor: Option<int>, rows: seq<Row>) {
    forall row :: row in rows ==> !Covered(cursor, row)
  }

  predicate Positive(rows: seq<Row>) {
    forall row :: row in rows ==> row.id >= 1
  }

  /** However many rows arrive between however many loads, the rows taken into summaries followed by the
      raw rows are all rows in order: nothing is summarised twice, skipped, or kept twice. */
  lemma {:induction false} SummarisedExactlyOnce(rows: seq<Row>, limit: int, cursor: Option<int>, steps: seq<seq<Row>>)
    requires limit >= 1 && Ascending(rows + Flat(steps)) && Positive(rows + Flat(steps)) && Uncovered(cursor, Flat(steps))
    ensures Eligible(rows, cursor) + Flat(steps)
            == Summarised(rows, limit, cursor, steps) + Eligible(rows + Flat(steps), FinalCursor(rows, limit, cursor, steps))
    decreases |steps|
  {
    if steps == [] {
      assert rows + Flat(steps) == rows;
    } else {
      var now, rest := rows + steps[0], Flat(steps[1..]);
      var next := NextCursor(now, limit, cursor);
      assert Flat(steps) == steps[0] + rest;
      assert rows + Flat(steps) == now + rest;
      hide Eligible, CompactedRows, Flat, Ascending;
      PartsUncovered(cursor, steps[0], rest);
      EligibleConcat(rows, steps[0], cursor);
      EligibleAll(steps[0], cursor);
      LoadSplits(now, limit, cursor, rest);
      SummarisedExactlyOnce(now, limit, next, steps[1..]);
      Chain(Eligible(rows, cursor), steps[0], rest, CompactedRows(now, limit, cursor), Eligible(now, next),
            Summarised(now, limit, next, steps[1..]),
            Eligible(now + rest, FinalCursor(now, limit, next, steps[1..])));
    }
  }

  lemma PartsUncovered(cursor: Option<int>, a: seq<Row>, b: seq<Row>)
    requires Uncovered(cursor, a + b)
    ensures Uncovered(cursor, a) && Uncovered(cursor, b)
  {
    assert forall i :: 0 <= i < |a| ==> (a + b)[i] == a[i];
    assert forall i :: 0 <= i < |b| ==> (a + b)[|a| + i] == b[i];
  }

  lemma Chain(before: seq<Row>, added: seq<Row>, rest: seq<Row>, done: seq<Row>, left: seq<Row>, later: seq<Row>, end: seq<Row>)
    requires before + added == done + left && left + rest == later + end
    ensures before + (added + rest) == (done + later) + end
  {
    assert before + (added + rest) == (before + added) + rest;
    assert (done + left) + rest == done + (left + rest);
    assert done + (later + end) == (done + later) + end;
  }

  lemma {:induction false} DoneAndRaw(rows: seq<Row>, limit: int, cursor: Option<int>)
    ensures Eligible(rows, cursor) == CompactedRows(rows, limit, cursor) + RawRows(rows, limit, cursor)
  {
  }

  lemma HeadOfAscending(a: seq<Row>, b: seq<Row>)
    requires Ascending(a + b) && Positive(a + b)
    ensures Ascending(a) && Positive(a)
    ensures forall x, y :: x in a && y in b ==> x.id < y.id
  {
    assert forall i :: 0 <= i < |a| ==> a[i] == (a + b)[i];
    assert forall i :: 0 <= i < |b| ==> b[i] == (a + b)[|a| + i];
  }

  /** One load divides what was eligible, and covers none of the rows still to come. */
  lemma {:induction false} LoadSplits(now: seq<Row>, limit: int, cursor: Option<int>, rest: seq<Row>)
    requires limit >= 1 && Ascending(now + rest) && Positive(now + rest) && Uncovered(cursor, rest)
    ensures Eligible(now, cursor) == CompactedRows(now, limit, cursor) + Eligible(now, NextCursor(now, limit, cursor))
    ensures Uncovered(NextCursor(now, limit, cursor), rest)
  {
    var done := CompactedRows(now, limit, cursor);
    HeadOfAscending(now, rest);
    DoneAndRaw(now, limit, cursor);
    hide CompactedRows, RawRows, Eligible, Ascending;
    if done == [] {
      assert [] + Eligible(now, cursor) == Eligible(now, cursor);
    } else {
      RawIsWhatTheCursorLeaves(now, limit, cursor, done[|done| - 1].id);
      EligibleFacts(now, cursor);
      assert done[|done| - 1] in Eligible(now, cursor);
    }
  }

  // ----- the label of a summary -----

  /** The label after a first compaction counts the messages it covers; after a reload it starts from zero
      again, so it is right exactly if the stored summary covered a single message, which no compaction
      of whole turns does. */
  lemma LabelForgetsStoredCoverage(t: Tools, ms: seq<Message>, limit: int, record: Option<SummaryRecord>, before: nat, c: Compacted)
    requires limit >= 1 && CompactCount(ms, limit) > 0
    requires record.None? <==> before == 0
    requires IsCompaction(t, ms, limit, Restored(record), c)
    ensures c.summary.value.coveredThrough == before + CompactCount(ms, limit) - 1 <==> before <= 1
    ensures record.Some? && before % 2 == 0 ==> c.summary.value.coveredThrough < before + CompactCount(ms, limit) - 1
  {
  }
}
