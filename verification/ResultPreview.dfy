/**
 The view that the model gets of a tool result: the result whole, or samples of
 its rows, some of its fields, or a prefix of its text.
 */
module ResultPreview {
  import opened Options
  import opened Wire
  import opened ObservationView
  import RejectedCalls

  const DEFAULT_BYTES := 8192
  const SAMPLE_ROWS := 4
  const ERROR_TEXT_BYTES := 256
  const ROWS := "rows"
  const HEAD := "head"
  const TAIL := "tail"
  const INVALID := "INVALID_TOOL_RESULT"
  const INVALID_TEXT := "Tool result was not valid JSON."

  /** Data kept beside an error: as it was received, and decoded. */
  datatype Observed = Observed(raw: Json, value: Json)

  /** A result: its content as text, and as JSON if it is JSON. */
  datatype Outcome = Outcome(receipt: Receipt, isError: bool, errorCode: string, content: string, parsed: Option<Json>,
                             observed: Option<Observed>)

  /** Reading a count from the text of a number, left open. */
  type CountReader = string -> Option<nat>

  // ----- objects by key -----

  predicate Precedes(a: string, b: string) {
    b != [] && (a == [] || a[0] < b[0] || (a[0] == b[0] && Precedes(a[1..], b[1..])))
  }

  function Find(fields: seq<Field>, key: string): Option<Json> {
    if fields == [] then None else if fields[0].key == key then Some(fields[0].value) else Find(fields[1..], key)
  }

  /** The object with the field set, in the order of keys. */
  function Put(fields: seq<Field>, f: Field): seq<Field> {
    if fields == [] then [f]
    else if fields[0].key == f.key then [f] + fields[1..]
    else if Precedes(f.key, fields[0].key) then [f] + fields
    else [fields[0]] + Put(fields[1..], f)
  }

  function Remove(fields: seq<Field>, key: string): seq<Field> {
    if fields == [] then [] else if fields[0].key == key then Remove(fields[1..], key) else [fields[0]] + Remove(fields[1..], key)
  }

  lemma {:induction false} FindIsFirst(fields: seq<Field>, key: string)
    ensures var found := Find(fields, key);
            if found.Some? then
              exists i :: 0 <= i < |fields| && fields[i] == Field(key, found.value) && forall j :: 0 <= j < i ==> fields[j].key != key
            else forall i :: 0 <= i < |fields| ==> fields[i].key != key
  {
    if fields != [] && fields[0].key != key {
      FindIsFirst(fields[1..], key);
      if Find(fields, key).Some? {
        var i :| 0 <= i < |fields[1..]| && fields[1..][i] == Field(key, Find(fields, key).value)
                 && forall j :: 0 <= j < i ==> fields[1..][j].key != key;
        assert fields[i + 1] == Field(key, Find(fields, key).value);
        forall j | 0 <= j < i + 1 ensures fields[j].key != key { if j > 0 { assert fields[j] == fields[1..][j - 1]; } }
      } else {
        forall i | 0 <= i < |fields| ensures fields[i].key != key { if i > 0 { assert fields[i] == fields[1..][i - 1]; } }
      }
    }
  }

  /** A field that was put in is found, and one that was removed is not; what has other keys stays. */
  lemma {:induction false} FieldsByKey(fields: seq<Field>, f: Field, key: string)
    ensures Find(Put(fields, f), key) == if key == f.key then Some(f.value) else Find(fields, key)
    ensures Find(Remove(fields, f.key), key) == if key == f.key then None else Find(fields, key)
  {
    if fields != [] {
      FieldsByKey(fields[1..], f, key);
      assert ([f] + fields[1..])[1..] == fields[1..] && ([f] + fields)[1..] == fields;
      assert ([fields[0]] + Put(fields[1..], f))[1..] == Put(fields[1..], f);
      assert ([fields[0]] + Remove(fields[1..], f.key))[1..] == Remove(fields[1..], f.key);
    }
  }

  function RowsOf(value: Json): Option<seq<Json>> {
    match value
    case Obj(fields) => (match Find(fields, ROWS) case Some(Arr(rows)) => Some(rows) case _ => None)
    case Arr(items) => Some(items)
    case _ => None
  }

  /** What stands beside the rows. */
  function RestOf(value: Json): seq<Field> {
    if value.Obj? then Remove(value.fields, ROWS) else []
  }

  /** observationCount: the count that the result gives of itself, or that of its rows. */
  function CountOf(read: CountReader, value: Json): nat {
    var given := if value.Obj? then Find(value.fields, "returnedCount") else None;
    if given.Some? && given.value.Scalar? && read(given.value.text).Some? then read(given.value.text).value
    else if RowsOf(value).Some? then |RowsOf(value).value|
    else 0
  }

  // ----- samples of rows -----

  datatype Sample = Sample(head: nat, tail: nat)

  predicate Within(s: Sample, n: nat) {
    s.head + s.tail <= n && s.head <= SAMPLE_ROWS && s.tail <= SAMPLE_ROWS
  }

  function FirstSample(n: nat): (s: Sample)
    ensures Within(s, n) && (s.head + s.tail == n || s == Sample(SAMPLE_ROWS, SAMPLE_ROWS))
  {
    var most := if n < SAMPLE_ROWS then n else SAMPLE_ROWS;
    Sample(most, if most + most > n then n - most else most)
  }

  /** One row less, from the longer side. */
  function NextSample(s: Sample): (next: Sample)
    requires s.head > 1 || s.tail > 1
    ensures next.head + next.tail == s.head + s.tail - 1 && next.head <= s.head && next.tail <= s.tail
    ensures s.head >= 1 ==> next.head >= 1
    ensures (s.head > s.tail ==> next.tail == s.tail) && (s.head < s.tail ==> next.head == s.head)
  {
    if s.head >= s.tail && s.head > 1 then Sample(s.head - 1, s.tail) else Sample(s.head, s.tail - 1)
  }

  function SampleFields(rows: seq<Json>, rest: seq<Field>, s: Sample): seq<Field>
    requires Within(s, |rows|)
  {
    Put(Put(rest, Field(HEAD, Arr(rows[..s.head]))), Field(TAIL, Arr(rows[|rows| - s.tail..])))
  }

  function SampleView(v: View, rows: seq<Json>, rest: seq<Field>, s: Sample): View
    requires Within(s, |rows|)
  {
    v.(data := Some(Obj(SampleFields(rows, rest, s))))
  }

  /** The first sample that fits; of the smallest one, the fields that fit. */
  function Sampled(v: View, rows: seq<Json>, rest: seq<Field>, s: Sample, maxBytes: int): View
    requires Within(s, |rows|)
    decreases s.head + s.tail
  {
    if ViewLen(SampleView(v, rows, rest, s)) <= maxBytes then SampleView(v, rows, rest, s)
    else if s.head > 1 || s.tail > 1 then Sampled(v, rows, rest, NextSample(s), maxBytes)
    else Showing(v, FitObject(v, SampleFields(rows, rest, s), maxBytes))
  }

  /** The sample after k rows were given up, or the smallest one before. */
  function Later(s: Sample, k: nat): (later: Sample)
    ensures later.head <= s.head && later.tail <= s.tail
    decreases k
  {
    if k == 0 || (s.head <= 1 && s.tail <= 1) then s else Later(NextSample(s), k - 1)
  }

  /** No row is given up without need: the sample shown is the first that fits, and only if not even the smallest one
      does, its fields are fitted. */
  lemma {:induction false} SampledOfNeed(v: View, rows: seq<Json>, rest: seq<Field>, s: Sample, maxBytes: int) returns (k: nat)
    requires Within(s, |rows|)
    ensures var out, t := Sampled(v, rows, rest, s, maxBytes), Later(s, k);
            && (forall j: nat :: j < k ==> ViewLen(SampleView(v, rows, rest, Later(s, j))) > maxBytes)
            && (if ViewLen(SampleView(v, rows, rest, t)) <= maxBytes then out == SampleView(v, rows, rest, t)
                else t.head <= 1 && t.tail <= 1 && out == Showing(v, FitObject(v, SampleFields(rows, rest, t), maxBytes)))
    decreases s.head + s.tail
  {
    hide ViewLen, SampleView, FitObject, SampleFields, Showing;
    k := 0;
    if ViewLen(SampleView(v, rows, rest, s)) > maxBytes && (s.head > 1 || s.tail > 1) {
      k := SampledOfNeed(v, rows, rest, NextSample(s), maxBytes);
      k := k + 1;
      forall j: nat | j < k ensures ViewLen(SampleView(v, rows, rest, Later(s, j))) > maxBytes {
        if j > 0 { assert ViewLen(SampleView(v, rows, rest, Later(NextSample(s), j - 1))) > maxBytes; }
      }
    }
  }

  /** fitObservationSamples. */
  method FitSamples(v: View, rows: seq<Json>, rest: seq<Field>, maxBytes: int) returns (out: View)
    ensures out == Sampled(v, rows, rest, FirstSample(|rows|), maxBytes)
  {
    hide ViewLen, SampleFields, FitObject;
    var s := FirstSample(|rows|);
    while true
      invariant Within(s, |rows|)
      invariant Sampled(v, rows, rest, s, maxBytes) == Sampled(v, rows, rest, FirstSample(|rows|), maxBytes)
      decreases s.head + s.tail
    {
      if ViewLen(SampleView(v, rows, rest, s)) <= maxBytes {
        return SampleView(v, rows, rest, s);
      }
      if s.head > 1 || s.tail > 1 {
        s := NextSample(s);
        continue;
      }
      out := FitObservationObject(v, SampleFields(rows, rest, s), maxBytes);
      return;
    }
  }

  // ----- what a view is worth -----

  /** Nothing more can be cut from the payload. */
  predicate Bare(v: View) {
    v.data in {None, Some(Text("")), Some(Obj([]))} && v.omittedFields == []
  }

  /** The payload shows a part of these fields, and is all of them if nothing is counted as omitted. */
  ghost predicate PartOf(v: View, fields: seq<Field>) {
    && v.data.Some? && v.data.value.Obj? && Shows(v.data.value.fields, fields)
    && |v.omittedFields| <= v.omittedCount && (v.omittedCount == 0 ==> v.data.value.fields == fields)
  }

  /** What a shortened payload may show of a value. */
  ghost predicate ShownOf(v: View, value: Json) {
    if RowsOf(value).Some? then
      exists s :: Within(s, |RowsOf(value).value|) && PartOf(v, SampleFields(RowsOf(value).value, RestOf(value), s))
    else match value
      case Obj(fields) => PartOf(v, fields)
      case Text(text) => v.data.Some? && v.data.value.Text? && v.data.value.text <= text && v.omittedCount == 0
      case _ => v.data.None? && v.omittedCount == 0
  }

  lemma {:induction false} ShowsAll(fields: seq<Field>)
    ensures Shows(fields, fields)
  {
    if fields != [] { ShowsAll(fields[1..]); }
  }

  lemma {:induction false} FittedIsPart(v: View, fields: seq<Field>, maxBytes: int)
    requires v.omittedFields == [] && v.omittedCount == 0
    ensures var out := Showing(v, FitObject(v, fields, maxBytes));
            PartOf(out, fields) && (ViewLen(out) > maxBytes ==> Bare(out))
  {
    ObjectIsPicked(v, fields, maxBytes);
    hide FitObject, Shows, ViewLen;
  }

  lemma {:induction false} SampledIsPart(v: View, rows: seq<Json>, rest: seq<Field>, s: Sample, maxBytes: int)
    requires Within(s, |rows|) && v.omittedFields == [] && v.omittedCount == 0
    ensures var out := Sampled(v, rows, rest, s, maxBytes);
            (exists t :: Within(t, |rows|) && PartOf(out, SampleFields(rows, rest, t))) && (ViewLen(out) > maxBytes ==> Bare(out))
            && out == v.(data := out.data, omittedFields := out.omittedFields, omittedCount := out.omittedCount)
    decreases s.head + s.tail
  {
    hide ViewLen, SampleFields, FitObject, PartOf;
    if ViewLen(SampleView(v, rows, rest, s)) <= maxBytes {
      WholeSample(v, rows, rest, s);
    } else if s.head > 1 || s.tail > 1 {
      SampledIsPart(v, rows, rest, NextSample(s), maxBytes);
    } else {
      FittedIsPart(v, SampleFields(rows, rest, s), maxBytes);
    }
  }

  lemma WholeSample(v: View, rows: seq<Json>, rest: seq<Field>, s: Sample)
    requires Within(s, |rows|) && v.omittedFields == [] && v.omittedCount == 0
    ensures PartOf(SampleView(v, rows, rest, s), SampleFields(rows, rest, s))
  {
    ShowsAll(SampleFields(rows, rest, s));
  }

  // ----- the projection -----

  function Bound(maxBytes: int): int {
    if maxBytes <= 0 then DEFAULT_BYTES else maxBytes
  }

  function Labelled(r: Outcome): Receipt {
    if r.isError then r.receipt.(status := "error", code := r.errorCode) else r.receipt.(status := "success", code := "")
  }

  /** The value that is shown, if there is any. */
  function ValueOf(r: Outcome): Option<Json> {
    if !r.isError then r.parsed else if r.observed.Some? then Some(r.observed.value.value) else None
  }

  function Whole(v: View, read: CountReader, value: Json): View {
    v.(data := Some(value), returnedCount := CountOf(read, value))
  }

  /** The payload: whole if it fits, and otherwise shortened as its shape allows. */
  function WithValue(v: View, read: CountReader, value: Json, bound: int): View {
    var whole := Whole(v, read, value);
    var view := whole.(truncated := true);
    if ViewLen(whole) <= bound then whole
    else if RowsOf(value).Some? then Sampled(view, RowsOf(value).value, RestOf(value), FirstSample(|RowsOf(value).value|), bound)
    else match value
      case Obj(fields) => Showing(view, FitObject(view, fields, bound))
      case Text(text) => TextCut(view, text, bound)
      case _ => view.(data := None)
  }

  /** What the text of an error may take of the bound: a third of what the receipt leaves, at most 256 bytes. */
  function ErrorShare(v: View, bound: int): int {
    var base := ViewLen(v.(data := None, message := ""));
    var third := (bound - base) / 3;
    base + if third < 0 then 0 else if third < ERROR_TEXT_BYTES then third else ERROR_TEXT_BYTES
  }

  /** The view of an error beside its data as received: if both do not fit, the text is cut first. */
  function WithErrorText(v: View, raw: Json, bound: int): View {
    if ViewLen(v.(data := Some(raw))) <= bound then v.(data := Some(raw)) else MessageCut(v, ErrorShare(v, bound))
  }

  function Started(r: Outcome): View {
    View(Labelled(r), None, if r.isError then r.content else "", 0, false, [], 0)
  }

  function Rejected(r: Outcome): View {
    Started(r).(receipt := Labelled(r).(status := "error", code := INVALID), message := INVALID_TEXT)
  }

  /** The view of a result. */
  function Projected(read: CountReader, r: Outcome, maxBytes: int): View {
    var bound := Bound(maxBytes);
    if ValueOf(r).None? then MessageCut(if r.isError then Started(r) else Rejected(r), bound)
    else
      var view := if r.isError then WithErrorText(Started(r), r.observed.value.raw, bound) else Started(r);
      WithValue(view, read, ValueOf(r).value, bound)
  }

  method FitValue(v: View, read: CountReader, value: Json, bound: int) returns (out: View)
    ensures out == WithValue(v, read, value, bound)
  {
    hide ViewLen, FitObject, Sampled, TextCut, CountOf;
    out := Whole(v, read, value);
    if ViewLen(out) <= bound {
      return;
    }
    var view := out.(truncated := true);
    var rows := RowsOf(value);
    if rows.Some? {
      out := FitSamples(view, rows.value, RestOf(value), bound);
    } else {
      match value
      case Obj(fields) =>
        out := FitObservationObject(view, fields, bound);
      case Text(text) =>
        out := FitText(view, text, bound);
      case _ =>
        out := view.(data := None);
    }
  }

  /** projectObservation. */
  method ProjectObservation(read: CountReader, r: Outcome, maxBytes: int) returns (out: View)
    ensures out == Projected(read, r, maxBytes)
  {
    hide ViewLen, WithValue, MessageCut;
    var bound := Bound(maxBytes);
    var view := View(Labelled(r), None, if r.isError then r.content else "", 0, false, [], 0);
    if r.isError && r.observed.None? {
      out := FitMessage(view, bound);
      return;
    }
    if r.isError {
      view := view.(data := Some(r.observed.value.raw));
      if ViewLen(view) > bound {
        view := view.(data := None);
        var base := ViewLen(view.(message := ""));
        var third := (bound - base) / 3;
        var share := if third < 0 then 0 else third;
        view := FitMessage(view, base + if share < ERROR_TEXT_BYTES then share else ERROR_TEXT_BYTES);
      }
    }
    var value := ValueOf(r);
    if value.None? {
      out := FitMessage(view.(receipt := view.receipt.(status := "error", code := INVALID), message := INVALID_TEXT), bound);
      return;
    }
    out := FitValue(view, read, value.value, bound);
  }

  // ----- what every view promises -----

  lemma WithValueShows(v: View, read: CountReader, value: Json, bound: int)
    requires v.omittedFields == [] && v.omittedCount == 0
    ensures var out, whole := WithValue(v, read, value, bound), Whole(v, read, value);
            (ViewLen(whole) <= bound ==> out == whole)
            && (ViewLen(whole) > bound ==> out.truncated && ShownOf(out, value))
            && out.receipt == v.receipt && out.message == v.message && out.returnedCount == whole.returnedCount
            && (ViewLen(out) > bound ==> Bare(out))
  {
    hide ViewLen, SampleFields, FitObject, PartOf, Sampled, CountOf;
    var view := Whole(v, read, value).(truncated := true);
    if RowsOf(value).Some? {
      SampledIsPart(view, RowsOf(value).value, RestOf(value), FirstSample(|RowsOf(value).value|), bound);
    } else if value.Obj? {
      FittedIsPart(view, value.fields, bound);
    }
  }

  /** A view shows the whole value or, marked as truncated, a part of it with the omissions counted. It is not
      marked if the whole of it fits. A message is only ever cut at its end. */
  lemma ViewsAreHonest(read: CountReader, r: Outcome, maxBytes: int)
    ensures var out := Projected(read, r, maxBytes);
            match ValueOf(r)
            case None =>
              if r.isError then out.message <= r.content && (out.message == r.content || out.truncated)
              else out.message <= INVALID_TEXT && (out.message == INVALID_TEXT || out.truncated) && out.receipt.code == INVALID
            case Some(value) =>
              out.receipt == r.receipt.(status := if r.isError then "error" else "success", code := if r.isError then r.errorCode else "")
              && out.returnedCount == CountOf(read, value)
              && out.message <= Started(r).message && (out.message == Started(r).message || out.truncated)
              && ((out.data == Some(value) && out.omittedCount == 0) || (out.truncated && ShownOf(out, value)))
              && (ViewLen(Whole(Started(r), read, value)) <= (if maxBytes <= 0 then 8192 else maxBytes) && !r.isError ==>
                    out == Whole(Started(r), read, value))
  {
    hide ViewLen, ShownOf, CountOf, WithValue;
    var bound := Bound(maxBytes);
    if ValueOf(r).Some? {
      var view := if r.isError then WithErrorText(Started(r), r.observed.value.raw, bound) else Started(r);
      WithValueShows(view, read, ValueOf(r).value, bound);
    }
  }

  /** A view of a result that is no error exceeds its bound only if its receipt alone does: the payload is bare
      and there is no message left. For an error with data the payload is bare, but its text may remain. */
  lemma OnlyTheReceiptExceeds(read: CountReader, r: Outcome, maxBytes: int)
    requires ViewLen(Projected(read, r, maxBytes)) > Bound(maxBytes)
    ensures var out := Projected(read, r, maxBytes);
            Bare(out) && (out.message == "" || (r.isError && r.observed.Some?))
  {
    hide ViewLen, ShownOf, CountOf, WithValue;
    var bound := Bound(maxBytes);
    if ValueOf(r).Some? {
      var view := if r.isError then WithErrorText(Started(r), r.observed.value.raw, bound) else Started(r);
      WithValueShows(view, read, ValueOf(r).value, bound);
    }
  }

  // ----- arguments in the index -----

  /** The arguments of a call in the result index: left out, as they are, or as a quoted prefix. */
  datatype Arguments = NoArguments | AsGiven(text: string) | Quoted(prefix: string)

  lemma {:induction false} BytesAtLeast(s: string)
    ensures |s| <= Bytes(s)
  {
    if s != [] { BytesAtLeast(s[1..]); }
  }

  lemma {:induction false} PrefixKept(p: string, preview: string, most: nat)
    requires p <= preview && Bytes(p) <= most && Bytes(preview) > most
    ensures p <= preview[..|preview| - 1]
  {
    assert |p| == |preview| ==> p == preview;
  }

  /** The part of indexLocked that bounds the arguments: a prefix is the longest one of whole characters within
      the bytes, and what is not shown in full is marked. */
  method IndexArguments(arguments: string, valid: bool, maxBytes: int) returns (shown: Arguments, truncated: bool)
    ensures shown.NoArguments? <==> arguments == "" || maxBytes <= 0
    ensures shown.AsGiven? ==> shown.text == arguments && valid && Bytes(arguments) <= maxBytes
    ensures shown.Quoted? ==> (valid ==> Bytes(arguments) > maxBytes) && shown.prefix == RejectedCalls.Prefix(arguments, maxBytes)
    ensures truncated <==> arguments != "" && (shown.NoArguments? || (shown.Quoted? && shown.prefix != arguments))
  {
    hide RejectedCalls.Prefix;
    if arguments == "" {
      return NoArguments, false;
    }
    if maxBytes <= 0 {
      return NoArguments, true;
    }
    if Bytes(arguments) <= maxBytes && valid {
      return AsGiven(arguments), false;
    }
    var preview := arguments;
    ghost var longest := RejectedCalls.Prefix(arguments, maxBytes);
    BytesAtLeast(longest);
    if |preview| > maxBytes {
      preview := preview[..maxBytes];
    }
    while preview != [] && Bytes(preview) > maxBytes
      invariant longest <= preview <= arguments
      decreases |preview|
    {
      PrefixKept(longest, preview, maxBytes);
      preview := preview[..|preview| - 1];
    }
    RejectedCalls.PrefixIsLongest(arguments, maxBytes, preview);
    assert preview == longest;
    BytesConcat(preview, arguments[|preview|..]);
    BytesAtLeast(arguments[|preview|..]);
    assert preview + arguments[|preview|..] == arguments;
    shown, truncated := Quoted(preview), Bytes(preview) < Bytes(arguments);
  }

  // ----- an error can crowd itself out -----

  const ONE_ROW := Arr([Scalar("1")])
  const HEAD_FIELD := Field(HEAD, Arr([Scalar("1")]))
  const TAIL_FIELD := Field(TAIL, Arr([]))

  /** An error with one short row of data, and a bound that its view as received just meets. */
  function Crowded(receipt: Receipt, content: string): Outcome {
    Outcome(receipt, true, "", content, None, Some(Observed(ONE_ROW, ONE_ROW)))
  }

  lemma SmallLengths()
    ensures JsonLen(ONE_ROW) == 3 && JsonLen(Obj([])) == 2
    ensures JsonLen(Obj([HEAD_FIELD])) == 12 && JsonLen(Obj([TAIL_FIELD])) == 11 && JsonLen(Obj([HEAD_FIELD, TAIL_FIELD])) == 22
    ensures OptionalCount(17, 1) == 18 && OptionalCount(21, 2) == 22
  {
    assert ItemsLen([Scalar("1")][1..]) == 0;
    assert Bytes("1"[1..]) == 0;
    FourLetters(HEAD);
    FourLetters(TAIL);
    assert JsonLen(TAIL_FIELD.value) == 2 && JsonLen(HEAD_FIELD.value) == 3;
    assert [HEAD_FIELD][1..] == [] && [TAIL_FIELD][1..] == [] && [HEAD_FIELD, TAIL_FIELD][1..] == [TAIL_FIELD];
    hide StringLen, EscapedLen, CharLen;
  }

  lemma FourLetters(s: string)
    requires |s| == 4 && forall i :: 0 <= i < 4 ==> CharLen(s[i]) == 1
    ensures StringLen(s) == 6
  {
    assert s == [s[0]] + [s[1]] + [s[2]] + [s[3]];
    EscapedLenConcat([s[0]] + [s[1]] + [s[2]], [s[3]]);
    EscapedLenConcat([s[0]] + [s[1]], [s[2]]);
    EscapedLenConcat([s[0]], [s[1]]);
    assert forall i :: 0 <= i < 4 ==> [s[i]][1..] == [];
  }

  lemma SmallestSample()
    ensures SampleFields([Scalar("1")], [], Sample(1, 0)) == [HEAD_FIELD, TAIL_FIELD] && FirstSample(1) == Sample(1, 0)
  {
    var rows := [Scalar("1")];
    assert rows[..1] == rows && rows[1..] == [];
    assert !Precedes(TAIL, HEAD);
    assert Put([], HEAD_FIELD) == [HEAD_FIELD] && [HEAD_FIELD][1..] == [];
    assert Put([HEAD_FIELD], TAIL_FIELD) == [HEAD_FIELD] + Put([], TAIL_FIELD) == [HEAD_FIELD, TAIL_FIELD];
  }

  lemma {:induction false} FieldTooLong(v: View, f: Field, p: Picked, bound: int)
    requires TooLong(v, WithField(p, f, [], 0), bound) && !f.value.Obj?
    ensures AfterField(v, f, p, bound) == WithoutField(p, f.key)
  {
  }

  /** Such a view exceeds its bound although it would fit without its text: nothing of the data is left to cut,
      and the text is not cut again. So it is not only the receipt that can exceed a bound. */
  lemma ErrorTextCrowdsOut(read: CountReader, receipt: Receipt, content: string)
    requires |content| >= 25
    ensures var r := Crowded(receipt, content);
            var bound := ViewLen(Started(r).(data := Some(ONE_ROW)));
            var out := Projected(read, r, bound);
            ViewLen(out) == bound + 38 && ViewLen(out.(message := "")) <= bound
  {
    var r := Crowded(receipt, content);
    var bound := ViewLen(Started(r).(data := Some(ONE_ROW)));
    SmallLengths();
    SmallestSample();
    EscapedLenAtLeast(content);
    hide JsonLen, ReceiptLen, SampleFields, FitObject, EscapedLen, Decimal, FirstSample;
    var view := Whole(Started(r).(data := Some(ONE_ROW)), read, ONE_ROW);
    assert CountOf(read, ONE_ROW) == 1;
    assert ViewLen(view) == bound + 18;
    var short := view.(truncated := true);
    assert ViewLen(SampleView(short, [Scalar("1")], [], Sample(1, 0))) > bound;
    NothingFits(short, bound);
    assert Projected(read, r, bound) == Showing(short, Picked([], [], 2));
  }

  lemma {:induction false} NothingFits(v: View, bound: int)
    requires v.omittedFields == [] && v.omittedCount == 0 && v.data == Some(ONE_ROW)
    requires ViewLen(v) > bound
    ensures FitObject(v, [HEAD_FIELD, TAIL_FIELD], bound) == Picked([], [], 2)
  {
    SmallLengths();
    var start := Picked([], [], 0);
    var one := WithoutField(start, HEAD);
    var two := WithoutField(one, TAIL);
    var fields := [HEAD_FIELD, TAIL_FIELD];
    LongerData(v, bound);
    FieldTooLong(v, HEAD_FIELD, start, bound);
    FieldTooLong(v, TAIL_FIELD, one, bound);
    AfterFieldsNext(v, fields, 2, bound);
    AfterFieldsNext(v, fields, 1, bound);
    AfterFieldsNext(v, fields, 0, bound);
    hide AfterFields, AfterField, TooLong;
    assert two.omitted == [HEAD, TAIL] && two.count == 2;
  }

  lemma LongerData(v: View, bound: int)
    requires v.omittedFields == [] && v.omittedCount == 0 && v.data == Some(ONE_ROW)
    requires ViewLen(v) > bound
    ensures var start := Picked([], [], 0);
            var one := WithoutField(start, HEAD);
            TooLong(v, WithField(start, HEAD_FIELD, [], 0), bound) && TooLong(v, WithField(one, TAIL_FIELD, [], 0), bound)
            && TooLong(v, WithoutField(one, TAIL), bound)
  {
    SmallLengths();
    hide JsonLen, ReceiptLen;
    assert [] + [HEAD_FIELD] == [HEAD_FIELD] && [] + [TAIL_FIELD] == [TAIL_FIELD];
  }
}
