/**
 Exactly when the view of a result exceeds its bound, in terms of the result
 alone: when neither it nor the least that shortening can leave of it fits.
 */
module PreviewBounds {
  import opened Options
  import opened Wire
  import opened ObservationView
  import opened ResultPreview

  // ----- digits -----

  lemma {:induction false} DigitsDrop(n: nat)
    ensures |Decimal(n)| <= 1 + |Decimal(n / 10)|
  {
  }

  lemma {:induction false} DigitsDropThree(n: nat)
    ensures |Decimal(n)| <= 3 + |Decimal(n / 1000)|
  {
    DigitsDrop(n);
    DigitsDrop(n / 10);
    DigitsDrop(n / 10 / 10);
    assert n / 10 / 10 / 10 == n / 1000;
  }

  /** An int has at most 19 digits. */
  lemma {:induction false} IntIsShort(n: nat)
    requires n <= MAX_LENGTH
    ensures |Decimal(n)| <= 19
  {
    var a := n / 1000;
    var b := a / 1000;
    var c := b / 1000;
    var d := c / 1000;
    var e := d / 1000;
    DigitsDropThree(n);
    DigitsDropThree(a);
    DigitsDropThree(b);
    DigitsDropThree(c);
    DigitsDropThree(d);
    DigitsDropThree(e);
    assert e / 1000 < 10;
  }

  lemma {:induction false} DigitsStep(n: nat)
    ensures |Decimal(n + 1)| <= |Decimal(n)| + 1
  {
    if n >= 10 && (n + 1) / 10 == n / 10 + 1 { DigitsStep(n / 10); }
  }

  lemma {:induction false} DigitsPlus(n: nat, more: nat)
    ensures |Decimal(n + more)| <= |Decimal(n)| + more
  {
    if more > 0 {
      DigitsPlus(n, more - 1);
      DigitsStep(n + more - 1);
    }
  }

  // ----- objects -----

  /** A view from which nothing was omitted yet. */
  predicate Untouched(v: View) {
    v.omittedFields == [] && v.omittedCount == 0
  }

  lemma {:induction false} FieldsTakeRoom(fields: seq<Field>)
    ensures 3 * |fields| <= FieldsLen(fields)
  {
    if fields != [] { FieldsTakeRoom(fields[1..]); }
  }

  /** What is left of an object when all its fields are omitted. */
  function AllOmitted(fields: seq<Field>): Picked {
    Picked([], [], |fields|)
  }

  /** Everything of a view but its payload and what it counts as omitted. */
  function EnvelopeLen(v: View): nat {
    ReceiptLen(v.receipt) + OptionalText(11, v.message) + OptionalCount(17, v.returnedCount) + 13 + BoolLen(v.truncated)
  }

  lemma ShowingLen(v: View, p: Picked)
    ensures ViewLen(Showing(v, p))
            == EnvelopeLen(v) + 10 + FieldsLen(p.shown) + Commas(|p.shown|) + OmittedLen(p.omitted) + OptionalCount(21, p.count)
  {
    hide FieldsLen, ReceiptLen, OmittedLen, OptionalCount, OptionalText;
  }

  /** Every field that is not shown counts, so the counts differ by fewer digits than there are fields shown. */
  lemma {:induction false} SomethingCounts(v: View, fields: seq<Field>, p: Picked)
    requires Untouched(v) && PickedFrom(v, fields, p) && p.count >= 1
    ensures 1 <= |fields| <= p.count + |p.shown| && |Decimal(|fields|)| <= |Decimal(p.count)| + |p.shown|
  {
    hide Decimal, Shows;
    DecimalWidth(|fields|, p.count + |p.shown|);
    DigitsPlus(p.count, |p.shown|);
  }

  /** Showing some fields is never shorter than showing none and counting them all. */
  lemma PartIsLonger(v: View, fields: seq<Field>, p: Picked)
    requires Untouched(v) && PickedFrom(v, fields, p) && p.count >= 1
    ensures ViewLen(Showing(v, AllOmitted(fields))) <= ViewLen(Showing(v, p))
  {
    hide ViewLen, PickedFrom, FieldsLen, EnvelopeLen, Decimal, Showing, Untouched;
    SomethingCounts(v, fields, p);
    FieldsTakeRoom(p.shown);
    ShowingLen(v, p);
    ShowingLen(v, AllOmitted(fields));
    NoFields();
  }

  lemma NoFields()
    ensures FieldsLen([]) == 0 && OmittedLen([]) == 0
  {
  }

  /** There was room for a nested object, more than any count could take. */
  predicate Roomy(v: View, bound: int) {
    ViewLen(Showing(v, Picked([], [], 0))) + 90 <= bound
  }

  lemma NestedNeedsRoom(v: View, p: Picked, key: string, nested: Picked, bound: int)
    requires Usable(nested, NestedBudget(v, p, key, bound))
    ensures Roomy(v, bound)
  {
    ShowingLen(v, p);
    ShowingLen(NESTED, nested);
    ShowingLen(v, Picked([], [], 0));
    NoFields();
    hide ViewLen, FieldsLen, OmittedLen, Showing, StringLen;
    assert EnvelopeLen(NESTED) >= 90;
  }

  /** Without nested objects each field is shown or counted once. */
  lemma {:induction false} CountsAreFields(v: View, fields: seq<Field>, n: nat, bound: int)
    requires Untouched(v) && n <= |fields|
    ensures var p := AfterFields(v, fields, n, bound); Roomy(v, bound) || p.count + |p.shown| == n
  {
    hide AfterFields, AfterField, Roomy, Showing;
    AfterFieldsNext(v, fields, n, bound);
    if n > 0 {
      CountsAreFields(v, fields, n - 1, bound);
      OneFieldCounts(v, fields[n - 1], AfterFields(v, fields, n - 1, bound), bound);
    }
  }

  lemma {:induction false} OneFieldCounts(v: View, f: Field, p: Picked, bound: int)
    ensures var q := AfterField(v, f, p, bound); Roomy(v, bound) || q.count + |q.shown| == p.count + |p.shown| + 1
  {
    var budget := NestedBudget(v, p, f.key, bound);
    if f.value.Obj? && budget > 0 {
      var nested := FitObject(NESTED, f.value.fields, budget);
      if Usable(nested, budget) { NestedNeedsRoom(v, p, f.key, nested, bound); }
    }
    hide TooLong, FitObject, Usable, NestedBudget, Roomy;
  }

  lemma {:induction false} ShrinkingCounts(v: View, p: Picked, bound: int)
    ensures var q := Shrunk(v, p, bound); q.count + |q.shown| == p.count + |p.shown|
    decreases |p.shown|
  {
    hide TooLong, LargestAt;
    if p.shown != [] && TooLong(v, p, bound) { ShrinkingCounts(v, Smaller(p), bound); }
  }

  lemma {:induction false} FittedCounts(v: View, fields: seq<Field>, bound: int)
    requires Untouched(v)
    ensures var p := FitObject(v, fields, bound); Roomy(v, bound) || p.count + |p.shown| == |fields|
  {
    var p := AfterFields(v, fields, |fields|, bound);
    CountsAreFields(v, fields, |fields|, bound);
    ShrinkingCounts(v, if TooLong(v, p, bound) then p.(omitted := []) else p, bound);
    hide AfterFields, Shrunk, Roomy, TooLong;
  }

  /** An object with a sane number of fields cannot be fitted exactly if neither all of it fits nor nothing of it,
      with each field counted as omitted. */
  lemma {:induction false} ObjectExceedsIff(v: View, fields: seq<Field>, bound: int)
    requires Untouched(v) && Size(fields) <= MAX_LENGTH
    ensures TooLong(v, FitObject(v, fields, bound), bound)
            <==> TooLong(v, Picked(fields, [], 0), bound) && TooLong(v, AllOmitted(fields), bound)
  {
    var p := FitObject(v, fields, bound);
    ObjectIsPicked(v, fields, bound);
    if !TooLong(v, Picked(fields, [], 0), bound) { WholeIfItFits(v, fields, bound); }
    hide FitObject;
    if TooLong(v, p, bound) {
      NothingLeftCounts(v, fields, p, bound);
    } else if p.count >= 1 {
      PartIsLonger(v, fields, p);
    } else {
      assert p == Picked(fields, [], 0);
    }
  }

  lemma {:induction false} NothingLeftCounts(v: View, fields: seq<Field>, p: Picked, bound: int)
    requires Untouched(v) && Size(fields) <= MAX_LENGTH && p == FitObject(v, fields, bound)
    requires PickedFrom(v, fields, p) && TooLong(v, p, bound) && p.shown == [] && p.omitted == []
    ensures p == AllOmitted(fields)
  {
    FittedCounts(v, fields, bound);
    hide FitObject, Shows, Size;
    ShowingLen(v, p);
    ShowingLen(v, Picked([], [], 0));
    IntIsShort(p.count);
    hide ViewLen, FieldsLen, OmittedLen, EnvelopeLen, Decimal;
  }

  // ----- samples -----

  /** Fields with the same keys and no longer values. */
  predicate Below(x: seq<Field>, y: seq<Field>) {
    |x| == |y| && forall i :: 0 <= i < |x| ==> x[i].key == y[i].key && JsonLen(x[i].value) <= JsonLen(y[i].value)
  }

  lemma {:induction false} BelowIsShorter(x: seq<Field>, y: seq<Field>)
    requires Below(x, y)
    ensures FieldsLen(x) <= FieldsLen(y)
  {
    if x != [] {
      BelowTail(x, y);
      BelowIsShorter(x[1..], y[1..]);
    }
  }

  lemma BelowTail(x: seq<Field>, y: seq<Field>)
    requires Below(x, y) && x != []
    ensures Below(x[1..], y[1..])
  {
  }

  lemma BelowFront(x: seq<Field>, y: seq<Field>, f: Field, g: Field)
    requires Below(x, y) && f.key == g.key && JsonLen(f.value) <= JsonLen(g.value)
    ensures Below([f] + x, [g] + y)
  {
  }

  lemma {:induction false} PutBelow(x: seq<Field>, y: seq<Field>, f: Field, g: Field)
    requires Below(x, y) && f.key == g.key && JsonLen(f.value) <= JsonLen(g.value)
    ensures Below(Put(x, f), Put(y, g))
  {
    if x == [] {
      BelowFront([], [], f, g);
    } else {
      BelowTail(x, y);
      BelowFront(x[1..], y[1..], f, g);
      BelowFront(x, y, f, g);
      PutBelow(x[1..], y[1..], f, g);
      BelowFront(Put(x[1..], f), Put(y[1..], g), x[0], y[0]);
    }
    hide Below, JsonLen, Precedes;
  }

  lemma {:induction false} FewerItems(items: seq<Json>, n: nat)
    requires n <= |items|
    ensures ItemsLen(items[..n]) <= ItemsLen(items)
  {
    if n > 0 {
      FewerItems(items[1..], n - 1);
      assert items[1..][..n - 1] == items[..n][1..];
    }
  }

  lemma {:induction false} LaterItems(items: seq<Json>, n: nat)
    requires n <= |items|
    ensures ItemsLen(items[n..]) <= ItemsLen(items)
  {
    if n > 0 {
      LaterItems(items[1..], n - 1);
      assert items[1..][n - 1..] == items[n..];
    } else {
      assert items[0..] == items;
    }
  }

  lemma SmallerSample(rows: seq<Json>, rest: seq<Field>, s: Sample, t: Sample)
    requires Within(s, |rows|) && t.head <= s.head && t.tail <= s.tail
    ensures Below(SampleFields(rows, rest, t), SampleFields(rows, rest, s))
  {
    hide Below, JsonLen, Put;
    var n := |rows|;
    HeadIsShorter(rows, t.head, s.head);
    TailIsShorter(rows, t.tail, s.tail);
    SameIsBelow(rest);
    PutBelow(rest, rest, Field(HEAD, Arr(rows[..t.head])), Field(HEAD, Arr(rows[..s.head])));
    PutBelow(Put(rest, Field(HEAD, Arr(rows[..t.head]))), Put(rest, Field(HEAD, Arr(rows[..s.head]))),
             Field(TAIL, Arr(rows[n - t.tail..])), Field(TAIL, Arr(rows[n - s.tail..])));
  }

  lemma HeadIsShorter(rows: seq<Json>, fewer: nat, more: nat)
    requires fewer <= more <= |rows|
    ensures JsonLen(Arr(rows[..fewer])) <= JsonLen(Arr(rows[..more]))
  {
    assert rows[..more][..fewer] == rows[..fewer];
    FewerItems(rows[..more], fewer);
  }

  lemma TailIsShorter(rows: seq<Json>, fewer: nat, more: nat)
    requires fewer <= more <= |rows|
    ensures JsonLen(Arr(rows[|rows| - fewer..])) <= JsonLen(Arr(rows[|rows| - more..]))
  {
    assert rows[|rows| - more..][more - fewer..] == rows[|rows| - fewer..];
    LaterItems(rows[|rows| - more..], more - fewer);
  }

  lemma SameIsBelow(fields: seq<Field>)
    ensures Below(fields, fields)
  {
  }

  /** A sample with fewer rows is never longer. */
  lemma SampleShrinks(v: View, rows: seq<Json>, rest: seq<Field>, s: Sample, t: Sample)
    requires Within(s, |rows|) && t.head <= s.head && t.tail <= s.tail
    ensures ViewLen(SampleView(v, rows, rest, t)) <= ViewLen(SampleView(v, rows, rest, s))
  {
    SmallerSample(rows, rest, s, t);
    BelowIsShorter(SampleFields(rows, rest, t), SampleFields(rows, rest, s));
    hide SampleFields, FieldsLen, ReceiptLen, OmittedLen, OptionalCount, OptionalText;
  }

  /** The sample that is tried last. */
  function LastSample(s: Sample): (last: Sample)
    ensures last.head <= s.head && last.tail <= s.tail
  {
    Sample(if s.head > 1 then 1 else s.head, if s.tail > 1 then 1 else s.tail)
  }

  function LastFields(rows: seq<Json>, rest: seq<Field>): seq<Field> {
    SampleFields(rows, rest, LastSample(FirstSample(|rows|)))
  }

  /** Rows exceed exactly if neither the last sample fits nor its fields, counted as omitted. */
  lemma {:induction false} SamplesExceedIff(v: View, rows: seq<Json>, rest: seq<Field>, s: Sample, bound: int)
    requires Within(s, |rows|) && Untouched(v) && Size(SampleFields(rows, rest, LastSample(s))) <= MAX_LENGTH
    ensures var fields := SampleFields(rows, rest, LastSample(s));
            ViewLen(Sampled(v, rows, rest, s, bound)) > bound
            <==> TooLong(v, Picked(fields, [], 0), bound) && TooLong(v, AllOmitted(fields), bound)
    decreases s.head + s.tail
  {
    hide ViewLen, SampleFields, FitObject, Size, TooLong, AllOmitted, Sampled;
    var last := LastSample(s);
    SampleShrinks(v, rows, rest, s, last);
    SampleIsPicked(v, rows, rest, last, bound);
    SampledNext(v, rows, rest, s, bound);
    if ViewLen(SampleView(v, rows, rest, s)) > bound {
      if s.head > 1 || s.tail > 1 {
        SamplesExceedIff(v, rows, rest, NextSample(s), bound);
      } else {
        assert last == s;
        ObjectExceedsIff(v, SampleFields(rows, rest, s), bound);
        FittedIsTooLong(v, SampleFields(rows, rest, s), bound);
      }
    }
  }

  lemma {:induction false} SampledNext(v: View, rows: seq<Json>, rest: seq<Field>, s: Sample, bound: int)
    requires Within(s, |rows|)
    ensures Sampled(v, rows, rest, s, bound)
            == if ViewLen(SampleView(v, rows, rest, s)) <= bound then SampleView(v, rows, rest, s)
               else if s.head > 1 || s.tail > 1 then Sampled(v, rows, rest, NextSample(s), bound)
               else Showing(v, FitObject(v, SampleFields(rows, rest, s), bound))
  {
    hide ViewLen, SampleFields, FitObject;
  }

  lemma SampleIsPicked(v: View, rows: seq<Json>, rest: seq<Field>, s: Sample, bound: int)
    requires Within(s, |rows|) && Untouched(v)
    ensures TooLong(v, Picked(SampleFields(rows, rest, s), [], 0), bound) <==> ViewLen(SampleView(v, rows, rest, s)) > bound
  {
    hide ViewLen, SampleFields;
  }

  lemma {:induction false} FittedIsTooLong(v: View, fields: seq<Field>, bound: int)
    ensures TooLong(v, FitObject(v, fields, bound), bound) <==> ViewLen(Showing(v, FitObject(v, fields, bound))) > bound
  {
    hide ViewLen, FitObject;
  }

  // ----- any value -----

  lemma TextExceedsIff(v: View, text: string, bound: int)
    ensures ViewLen(TextCut(v, text, bound)) > bound <==> ViewLen(WithText(v, text, 0)) > bound
  {
    var k := LongestText(v, text, bound, |text|);
    if k > 0 { CutText(v, text, 0, k); }
    hide ViewLen;
  }

  lemma MessageExceedsIff(v: View, bound: int)
    ensures ViewLen(MessageCut(v, bound)) > bound <==>
              ViewLen(v) > bound && ViewLen(v.(truncated := true, message := "")) > bound
  {
    var w := v.(truncated := true);
    var k := LongestMessage(w, bound, |v.message|);
    assert WithMessage(w, 0) == w.(message := "");
    if k > 0 { CutMessage(w, 0, k); }
    hide ViewLen;
  }

  /** The fields that an int counts: of the object, or of the last sample. */
  predicate Countable(value: Json) {
    if RowsOf(value).Some? then Size(LastFields(RowsOf(value).value, RestOf(value))) <= MAX_LENGTH
    else value.Obj? ==> Size(value.fields) <= MAX_LENGTH
  }

  /** Neither the value, or the smallest sample of it, nor the least payload for it fits. */
  predicate LeastTooLong(v: View, value: Json, bound: int) {
    if RowsOf(value).Some? then
      var fields := LastFields(RowsOf(value).value, RestOf(value));
      TooLong(v, Picked(fields, [], 0), bound) && TooLong(v, AllOmitted(fields), bound)
    else match value
      case Obj(fields) => TooLong(v, Picked(fields, [], 0), bound) && TooLong(v, AllOmitted(fields), bound)
      case Text(text) => ViewLen(v.(data := Some(Text("")))) > bound
      case _ => ViewLen(v.(data := None)) > bound
  }

  lemma ValueExceedsIff(v: View, read: CountReader, value: Json, bound: int)
    requires Untouched(v) && Countable(value)
    ensures var whole := Whole(v, read, value);
            ViewLen(WithValue(v, read, value, bound)) > bound
            <==> ViewLen(whole) > bound && LeastTooLong(whole.(truncated := true), value, bound)
  {
    var view := Whole(v, read, value).(truncated := true);
    if RowsOf(value).Some? {
      SamplesExceedIff(view, RowsOf(value).value, RestOf(value), FirstSample(|RowsOf(value).value|), bound);
    } else if value.Obj? {
      ObjectExceedsIff(view, value.fields, bound);
    } else if value.Text? {
      TextExceedsIff(view, value.text, bound);
      assert WithText(view, value.text, 0) == view.(data := Some(Text("")));
    }
    hide ViewLen, FitObject, Sampled, TextCut, CountOf, Size, SampleFields;
  }

  /** The view that the value is put into: of an error, with as much text as its data as received leaves. */
  function Receiving(r: Outcome, bound: int): View
    requires ValueOf(r).Some?
  {
    if r.isError then WithErrorText(Started(r), r.observed.value.raw, bound) else Started(r)
  }

  /** In terms of the result alone: it does not fit whole, and neither does the least that can be shown of it. */
  predicate Exceeds(read: CountReader, r: Outcome, bound: int) {
    match ValueOf(r)
    case None =>
      var v := if r.isError then Started(r) else Rejected(r);
      ViewLen(v) > bound && ViewLen(v.(truncated := true, message := "")) > bound
    case Some(value) =>
      var whole := Whole(Receiving(r, bound), read, value);
      ViewLen(whole) > bound && LeastTooLong(whole.(truncated := true), value, bound)
  }

  /** A view exceeds its bound exactly then. */
  lemma ViewExceedsIff(read: CountReader, r: Outcome, maxBytes: int)
    requires ValueOf(r).Some? ==> Countable(ValueOf(r).value)
    ensures ViewLen(Projected(read, r, maxBytes)) > Bound(maxBytes) <==> Exceeds(read, r, Bound(maxBytes))
  {
    hide ViewLen, WithValue, MessageCut, Whole, LeastTooLong, Countable;
    var bound := Bound(maxBytes);
    if ValueOf(r).None? {
      MessageExceedsIff(if r.isError then Started(r) else Rejected(r), bound);
    } else {
      ReceivingIsUntouched(r, bound);
      ValueExceedsIff(Receiving(r, bound), read, ValueOf(r).value, bound);
    }
  }

  lemma ReceivingIsUntouched(r: Outcome, bound: int)
    requires ValueOf(r).Some?
    ensures Untouched(Receiving(r, bound))
  {
    hide ViewLen, LongestMessage;
  }

  /** So it is more than the receipt that exceeds a bound exactly for an error with data whose text was not cut
      to nothing, and for which the least payload does not fit beside that text. */
  lemma TextExceedsWithItIff(read: CountReader, r: Outcome, maxBytes: int)
    requires ValueOf(r).Some? ==> Countable(ValueOf(r).value)
    ensures var out, bound := Projected(read, r, maxBytes), Bound(maxBytes);
            ViewLen(out) > bound && !(Bare(out) && out.message == "")
            <==> r.isError && ValueOf(r).Some? && Receiving(r, bound).message != "" && Exceeds(read, r, bound)
  {
    hide ViewLen, WithValue, MessageCut, Exceeds, Countable, ShownOf, CountOf;
    var bound := Bound(maxBytes);
    ViewExceedsIff(read, r, maxBytes);
    if ViewLen(Projected(read, r, maxBytes)) > bound {
      OnlyTheReceiptExceeds(read, r, maxBytes);
    }
    if ValueOf(r).Some? {
      ReceivingIsUntouched(r, bound);
      WithValueShows(Receiving(r, bound), read, ValueOf(r).value, bound);
    }
  }
}
