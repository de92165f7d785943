/**
 recentContextUnits: the rows of the recent room messages, cut into chunks that
 stay within a number of bytes wherever a single row does.
 */
module RoomContext {
  import opened Options
  import opened Wire

  const CHUNK_BYTES := 2048
  const RECENT_PREFIX := "RECENT_PUBLIC_ROOM_MESSAGES_UNTRUSTED_DATA="

  /** A row: its compact JSON text, and its creation time if it has one. */
  datatype Row = Row(json: string, createdOn: Option<int>)

  /** The trimmed text: nothing usable, JSON that is no row envelope, or rows. */
  datatype Recent = Nothing | Other(json: string) | Rows(rows: seq<Row>)

  /** A unit to be: one message with this text, and its timestamp. */
  datatype Part = Part(text: string, timestamp: int)

  function Joined(rows: seq<Row>): string {
    if rows == [] then "" else if |rows| == 1 then rows[0].json else rows[0].json + "," + Joined(rows[1..])
  }

  /** encodeRecentRows. */
  function Encoded(rows: seq<Row>): string {
    "{\"rows\":[" + Joined(rows) + "]}"
  }

  predicate Fits(rows: seq<Row>) {
    Bytes(Encoded(rows)) <= CHUNK_BYTES
  }

  /** The newest creation time, but at least zero. */
  function Newest(rows: seq<Row>): (t: int)
    ensures t >= 0
    ensures forall r :: r in rows && r.createdOn.Some? ==> r.createdOn.value <= t
    ensures t == 0 || Some(t) in (set r | r in rows :: r.createdOn)
  {
    if rows == [] then 0
    else
      var t := Newest(rows[..|rows| - 1]);
      var last := rows[|rows| - 1].createdOn;
      if last.Some? && last.value > t then last.value else t
  }

  function Flat(chunks: seq<seq<Row>>): seq<Row> {
    if chunks == [] then [] else Flat(chunks[..|chunks| - 1]) + chunks[|chunks| - 1]
  }

  /** Each chunk but a single row is within the bytes. */
  predicate EachFits(chunks: seq<seq<Row>>) {
    forall k :: 0 <= k < |chunks| ==> chunks[k] != [] && (|chunks[k]| > 1 ==> Fits(chunks[k]))
  }

  /** No chunk had room for the row after it. */
  predicate EachFull(chunks: seq<seq<Row>>) {
    forall k :: 0 < k < |chunks| && chunks[k] != [] ==> !Fits(chunks[k - 1] + [chunks[k][0]])
  }

  /** A cut of the rows: all of them, in order, in chunks that fit and are full. */
  predicate IsChunking(chunks: seq<seq<Row>>, rows: seq<Row>) {
    Flat(chunks) == rows && EachFits(chunks) && EachFull(chunks)
  }

  lemma {:induction false} FlatAppend(chunks: seq<seq<Row>>, chunk: seq<Row>)
    ensures Flat(chunks + [chunk]) == Flat(chunks) + chunk
  {
    assert (chunks + [chunk])[..|chunks|] == chunks;
  }

  lemma FirstRow(row: Row)
    ensures IsChunking([[row]], [row])
  {
    FlatAppend([], [row]);
    assert [] + [[row]] == [[row]];
  }

  /** A row that still fits joins the last chunk. */
  lemma RowJoins(chunks: seq<seq<Row>>, chunk: seq<Row>, rows: seq<Row>, row: Row)
    requires IsChunking(chunks + [chunk], rows) && chunk != [] && Fits(chunk + [row])
    ensures IsChunking(chunks + [chunk + [row]], rows + [row])
  {
    FlatAppend(chunks, chunk);
    FlatAppend(chunks, chunk + [row]);
    hide Fits, Flat;
    var before, after := chunks + [chunk], chunks + [chunk + [row]];
    forall k | 0 < k < |after| && after[k] != [] ensures !Fits(after[k - 1] + [after[k][0]]) {
      assert before[k - 1] == after[k - 1] && before[k][0] == after[k][0];
    }
    forall k | 0 <= k < |after| ensures after[k] != [] && (|after[k]| > 1 ==> Fits(after[k])) {
      if k < |chunks| { assert before[k] == after[k]; }
    }
  }

  /** A row that does not fit begins the next chunk. */
  lemma RowBegins(chunks: seq<seq<Row>>, rows: seq<Row>, row: Row)
    requires IsChunking(chunks, rows) && chunks != [] && !Fits(chunks[|chunks| - 1] + [row])
    ensures IsChunking(chunks + [[row]], rows + [row])
  {
    FlatAppend(chunks, [row]);
    hide Fits, Flat;
  }

  /** Whatever is cut this way, a chunk of several rows has at most 2048 bytes, and with the first row of the next one it
      would have more. */
  lemma ChunksAreFull(chunks: seq<seq<Row>>, rows: seq<Row>, k: nat)
    requires IsChunking(chunks, rows) && k < |chunks|
    ensures chunks[k] != [] && (|chunks[k]| > 1 ==> Bytes(Encoded(chunks[k])) <= 2048)
    ensures k + 1 < |chunks| ==> Bytes(Encoded(chunks[k] + [chunks[k + 1][0]])) > 2048
  {
    hide Bytes, Encoded, Flat;
    if k + 1 < |chunks| { assert chunks[k + 1] != [] && !Fits(chunks[k + 1 - 1] + [chunks[k + 1][0]]); }
  }

  /** The chunking loop. */
  method ChunkRows(rows: seq<Row>) returns (chunks: seq<seq<Row>>)
    ensures IsChunking(chunks, rows)
  {
    chunks := [];
    var chunk: seq<Row> := [];
    for i := 0 to |rows|
      invariant if chunk == [] then i == 0 && chunks == [] else IsChunking(chunks + [chunk], rows[..i])
    {
      var candidate := chunk + [rows[i]];
      assert rows[..i + 1] == rows[..i] + [rows[i]];
      var tooLarge := Bytes(Encoded(candidate)) > CHUNK_BYTES;
      assert tooLarge <==> !Fits(candidate);
      hide *;
      if chunk == [] {
        FirstRow(rows[i]);
        chunk := candidate;
      } else if tooLarge {
        RowBegins(chunks + [chunk], rows[..i], rows[i]);
        chunks, chunk := chunks + [chunk], [rows[i]];
      } else {
        RowJoins(chunks, chunk, rows[..i], rows[i]);
        chunk := candidate;
      }
    }
    if chunk != [] {
      chunks := chunks + [chunk];
    }
    assert rows[..|rows|] == rows;
  }

  // ----- the cut is determined -----

  /** More rows are never encoded shorter. */
  lemma {:induction false} LongerIsLarger(a: seq<Row>, b: seq<Row>)
    ensures Bytes(Joined(a)) <= Bytes(Joined(a + b))
  {
    if a == [] {
      assert a + b == b;
    } else if |a| == 1 {
      assert a[1..] == [] && (a + b)[1..] == b;
      if b == [] {
        assert a + b == a;
      } else {
        BytesConcat(a[0].json + ",", Joined(b));
        BytesConcat(a[0].json, ",");
      }
    } else {
      assert (a + b)[1..] == a[1..] + b;
      LongerIsLarger(a[1..], b);
      BytesConcat(a[0].json + ",", Joined(a[1..]));
      BytesConcat(a[0].json + ",", Joined(a[1..] + b));
    }
  }

  lemma FitsPrefix(a: seq<Row>, b: seq<Row>)
    requires Fits(a + b)
    ensures Fits(a)
  {
    LongerIsLarger(a, b);
    EncodedBytes(a);
    EncodedBytes(a + b);
  }

  lemma {:induction false} EncodedBytes(rows: seq<Row>)
    ensures Bytes(Encoded(rows)) == Bytes("{\"rows\":[") + Bytes(Joined(rows)) + Bytes("]}")
  {
    BytesConcat("{\"rows\":[" + Joined(rows), "]}");
    BytesConcat("{\"rows\":[", Joined(rows));
  }

  lemma {:induction false} FlatFront(chunks: seq<seq<Row>>)
    requires chunks != []
    ensures Flat(chunks) == chunks[0] + Flat(chunks[1..])
  {
    var n := |chunks| - 1;
    if n == 0 {
      assert Flat(chunks[..0]) == [] == Flat(chunks[1..]);
    } else {
      assert chunks[..n][1..] == chunks[1..][..n - 1];
      FlatFront(chunks[..n]);
    }
  }

  lemma RestIsChunking(chunks: seq<seq<Row>>, rows: seq<Row>)
    requires IsChunking(chunks, rows) && chunks != []
    ensures chunks[0] <= rows && chunks[0] != [] && IsChunking(chunks[1..], rows[|chunks[0]|..])
  {
    FlatFront(chunks);
    assert rows[|chunks[0]|..] == Flat(chunks[1..]);
    hide Fits, Flat;
    var rest := chunks[1..];
    forall k | 0 < k < |rest| && rest[k] != [] ensures !Fits(rest[k - 1] + [rest[k][0]]) {
      assert rest[k] == chunks[k + 1] && rest[k - 1] == chunks[k];
    }
  }

  lemma FirstIsLongest(a: seq<seq<Row>>, b: seq<seq<Row>>, rows: seq<Row>)
    requires IsChunking(a, rows) && IsChunking(b, rows) && a != [] && b != []
    ensures |a[0]| >= |b[0]|
  {
    RestIsChunking(a, rows);
    RestIsChunking(b, rows);
    var n, first := |a[0]|, b[0];
    if n < |first| {
      assert a[1..] != [] && Flat(a[1..]) != [];
      RestIsChunking(a[1..], rows[n..]);
      NextWouldFit(a, first, rows);
    }
  }

  lemma NextWouldFit(a: seq<seq<Row>>, longer: seq<Row>, rows: seq<Row>)
    requires |a| >= 2 && a[0] <= rows && a[1] != [] && a[1] <= rows[|a[0]|..]
    requires longer <= rows && |a[0]| < |longer| && Fits(longer)
    ensures Fits(a[0] + [a[1][0]])
  {
    hide *;
    var n := |a[0]|;
    assert a[1][0] == rows[n..][0] == rows[n] == longer[n];
    assert a[0] + [a[1][0]] == longer[..n + 1];
    assert longer[..n + 1] + longer[n + 1..] == longer;
    FitsPrefix(longer[..n + 1], longer[n + 1..]);
  }

  lemma EmptyCut(chunks: seq<seq<Row>>, rows: seq<Row>)
    requires IsChunking(chunks, rows)
    ensures chunks == [] <==> rows == []
  {
    if chunks != [] { RestIsChunking(chunks, rows); }
  }

  /** There is only one such cut, so the postcondition of ChunkRows determines its result. */
  lemma {:induction false} ChunkingIsUnique(a: seq<seq<Row>>, b: seq<seq<Row>>, rows: seq<Row>)
    requires IsChunking(a, rows) && IsChunking(b, rows)
    ensures a == b
  {
    hide *;
    EmptyCut(a, rows);
    EmptyCut(b, rows);
    if rows != [] {
      FirstIsLongest(a, b, rows);
      FirstIsLongest(b, a, rows);
      RestIsChunking(a, rows);
      RestIsChunking(b, rows);
      assert a[0] == rows[..|a[0]|] == b[0];
      ChunkingIsUnique(a[1..], b[1..], rows[|a[0]|..]);
      assert a == [a[0]] + a[1..] && b == [b[0]] + b[1..];
    }
  }

  // ----- the units -----

  function PartOf(chunk: seq<Row>): Part {
    Part(RECENT_PREFIX + Encoded(chunk), Newest(chunk))
  }

  function PartsOf(chunks: seq<seq<Row>>): seq<Part> {
    seq(|chunks|, k requires 0 <= k < |chunks| => PartOf(chunks[k]))
  }

  /** The parts that recent messages are offered in. */
  ghost predicate IsCut(recent: Recent, parts: seq<Part>) {
    match recent
    case Nothing => parts == []
    case Other(json) => parts == [Part(RECENT_PREFIX + json, 0)]
    case Rows(rows) => exists chunks :: IsChunking(chunks, rows) && parts == PartsOf(chunks)
  }

  /** They are determined by the recent messages. */
  lemma CutIsUnique(recent: Recent, a: seq<Part>, b: seq<Part>)
    requires IsCut(recent, a) && IsCut(recent, b)
    ensures a == b
  {
    if recent.Rows? {
      var c :| IsChunking(c, recent.rows) && a == PartsOf(c);
      var d :| IsChunking(d, recent.rows) && b == PartsOf(d);
      ChunkingIsUnique(c, d, recent.rows);
    }
  }

  /** recentContextUnits. */
  method RecentContextUnits(recent: Recent) returns (parts: seq<Part>)
    ensures IsCut(recent, parts)
  {
    hide IsChunking, Encoded, Newest;
    match recent {
      case Nothing => return [];
      case Other(json) => return [Part(RECENT_PREFIX + json, 0)];
      case Rows(rows) =>
        var chunks := ChunkRows(rows);
        parts := [];
        for i := 0 to |chunks|
          invariant parts == PartsOf(chunks[..i])
        {
          var newest := NewestOf(chunks[i]);
          parts := parts + [Part(RECENT_PREFIX + Encoded(chunks[i]), newest)];
        }
        assert chunks[..|chunks|] == chunks;
    }
  }

  method NewestOf(rows: seq<Row>) returns (t: int)
    ensures t == Newest(rows)
  {
    t := 0;
    for i := 0 to |rows|
      invariant t == Newest(rows[..i])
    {
      assert rows[..i + 1][..i] == rows[..i];
      if rows[i].createdOn.Some? && rows[i].createdOn.value > t {
        t := rows[i].createdOn.value;
      }
    }
    assert rows[..|rows|] == rows;
  }
}
