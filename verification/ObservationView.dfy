/**
 The bounded view of a tool result: whole if it fits, and otherwise cut down by
 samples, fields, or characters until it fits or nothing is left to cut.
 */
module ObservationView {
  import opened Options
  import opened Wire

  // ----- values and their encoded length -----

  /** A decoded JSON value. The fields of an object stand in the order of their keys, as they are encoded. */
  datatype Json = Scalar(text: string) | Text(text: string) | Arr(items: seq<Json>) | Obj(fields: seq<Field>)
  datatype Field = Field(key: string, value: Json)

  function Commas(n: nat): nat {
    if n == 0 then 0 else n - 1
  }

  function JsonLen(j: Json): nat {
    match j
    case Scalar(text) => Bytes(text)
    case Text(text) => StringLen(text)
    case Arr(items) => 2 + ItemsLen(items) + Commas(|items|)
    case Obj(fields) => 2 + FieldsLen(fields) + Commas(|fields|)
  }

  function ItemsLen(items: seq<Json>): nat {
    if items == [] then 0 else JsonLen(items[0]) + ItemsLen(items[1..])
  }

  function FieldsLen(fields: seq<Field>): nat {
    if fields == [] then 0 else StringLen(fields[0].key) + 1 + JsonLen(fields[0].value) + FieldsLen(fields[1..])
  }

  // ----- views -----

  /** What identifies a result and says what became of it. */
  datatype Receipt = Receipt(callId: string, tool: string, status: string, code: string, relatedCallId: string,
                             effectsCommitted: bool, effectState: string, deliveryCount: nat, actionCount: nat)

  datatype View = View(receipt: Receipt, data: Option<Json>, message: string, returnedCount: nat, truncated: bool,
                       omittedFields: seq<string>, omittedCount: nat)

  function OptionalText(lead: nat, text: string): nat {
    if text == "" then 0 else lead + StringLen(text)
  }

  function OptionalCount(lead: nat, n: nat): nat {
    if n == 0 then 0 else lead + |Decimal(n)|
  }

  function ReceiptLen(r: Receipt): nat {
    10 + StringLen(r.callId) + 8 + StringLen(r.tool) + 10 + StringLen(r.status) + OptionalText(8, r.code)
    + OptionalText(17, r.relatedCallId) + 20 + BoolLen(r.effectsCommitted) + OptionalText(15, r.effectState)
    + 17 + |Decimal(r.deliveryCount)| + OptionalCount(15, r.actionCount) + 1
  }

  function OmittedLen(names: seq<string>): nat {
    if names == [] then 0 else 17 + ArrayLen(seq(|names|, i requires 0 <= i < |names| => StringLen(names[i])))
  }

  /** The length of view.JSON(). */
  function ViewLen(v: View): nat {
    ReceiptLen(v.receipt) + (if v.data.None? then 0 else 8 + JsonLen(v.data.value)) + OptionalText(11, v.message)
    + OptionalCount(17, v.returnedCount) + 13 + BoolLen(v.truncated) + OmittedLen(v.omittedFields)
    + OptionalCount(21, v.omittedCount)
  }

  // ----- texts are cut to the longest prefix that fits -----

  lemma PrefixIsShorter(s: string, k: nat, n: nat)
    requires k <= n <= |s|
    ensures StringLen(s[..k]) <= StringLen(s[..n])
  {
    EscapedLenConcat(s[..k], s[k..n]);
    assert s[..k] + s[k..n] == s[..n];
  }

  function WithMessage(v: View, k: nat): View
    requires k <= |v.message|
  {
    v.(message := v.message[..k])
  }

  function WithText(v: View, s: string, k: nat): View
    requires k <= |s|
  {
    v.(data := Some(Text(s[..k])))
  }

  lemma CutMessage(v: View, k: nat, n: nat)
    requires k <= n <= |v.message|
    ensures ViewLen(WithMessage(v, k)) <= ViewLen(WithMessage(v, n))
  {
    PrefixIsShorter(v.message, k, n);
    hide StringLen, ReceiptLen, OmittedLen, JsonLen;
  }

  lemma CutText(v: View, s: string, k: nat, n: nat)
    requires k <= n <= |s|
    ensures ViewLen(WithText(v, s, k)) <= ViewLen(WithText(v, s, n))
  {
    PrefixIsShorter(s, k, n);
    hide StringLen, ReceiptLen, OmittedLen;
  }

  /** The length of the longest prefix of at most n characters that fits, or zero if not even the empty one does. */
  function LongestMessage(v: View, maxBytes: int, n: nat): (k: nat)
    requires n <= |v.message|
    ensures k <= n && (k > 0 ==> ViewLen(WithMessage(v, k)) <= maxBytes)
    ensures forall i :: k < i <= n ==> ViewLen(WithMessage(v, i)) > maxBytes
  {
    if n == 0 || ViewLen(WithMessage(v, n)) <= maxBytes then n else LongestMessage(v, maxBytes, n - 1)
  }

  function LongestText(v: View, s: string, maxBytes: int, n: nat): (k: nat)
    requires n <= |s|
    ensures k <= n && (k > 0 ==> ViewLen(WithText(v, s, k)) <= maxBytes)
    ensures forall i :: k < i <= n ==> ViewLen(WithText(v, s, i)) > maxBytes
  {
    if n == 0 || ViewLen(WithText(v, s, n)) <= maxBytes then n else LongestText(v, s, maxBytes, n - 1)
  }

  /** The view with as much of its message as fits. */
  function MessageCut(v: View, maxBytes: int): View {
    if ViewLen(v) <= maxBytes then v
    else WithMessage(v.(truncated := true), LongestMessage(v.(truncated := true), maxBytes, |v.message|))
  }

  function TextCut(v: View, s: string, maxBytes: int): View {
    WithText(v, s, LongestText(v, s, maxBytes, |s|))
  }

  /** fitObservationMessage. */
  method FitMessage(v: View, maxBytes: int) returns (out: View)
    ensures out == MessageCut(v, maxBytes)
    ensures if ViewLen(v) <= maxBytes then out == v
            else
              && out.message <= v.message && out == v.(truncated := true, message := out.message)
              && (out.message != "" ==> ViewLen(out) <= maxBytes)
              && forall k :: |out.message| < k <= |v.message| ==> ViewLen(v.(truncated := true, message := v.message[..k])) > maxBytes
  {
    hide ViewLen;
    if ViewLen(v) <= maxBytes {
      return v;
    }
    var view := v.(truncated := true);
    var low, high := 0, |v.message|;
    while low < high
      invariant 0 <= low <= high <= |v.message|
      invariant low > 0 ==> ViewLen(WithMessage(view, low)) <= maxBytes
      invariant forall k :: high < k <= |v.message| ==> ViewLen(WithMessage(view, k)) > maxBytes
    {
      var mid := (low + high + 1) / 2;
      if ViewLen(WithMessage(view, mid)) <= maxBytes {
        low := mid;
      } else {
        forall k | mid <= k <= |v.message| ensures ViewLen(WithMessage(view, k)) > maxBytes {
          CutMessage(view, mid, k);
        }
        high := mid - 1;
      }
    }
    out := WithMessage(view, low);
    forall k | low < k <= |v.message| ensures ViewLen(v.(truncated := true, message := v.message[..k])) > maxBytes {
      assert ViewLen(WithMessage(view, k)) > maxBytes;
    }
  }

  /** The same search over a text result. */
  method FitText(v: View, s: string, maxBytes: int) returns (out: View)
    ensures out == TextCut(v, s, maxBytes)
    ensures exists n :: 0 <= n <= |s| && out == v.(data := Some(Text(s[..n]))) && (n > 0 ==> ViewLen(out) <= maxBytes)
                        && forall k :: n < k <= |s| ==> ViewLen(v.(data := Some(Text(s[..k])))) > maxBytes
  {
    hide ViewLen;
    var low, high := 0, |s|;
    while low < high
      invariant 0 <= low <= high <= |s|
      invariant low > 0 ==> ViewLen(WithText(v, s, low)) <= maxBytes
      invariant forall k :: high < k <= |s| ==> ViewLen(WithText(v, s, k)) > maxBytes
    {
      var mid := (low + high + 1) / 2;
      if ViewLen(WithText(v, s, mid)) <= maxBytes {
        low := mid;
      } else {
        forall k | mid <= k <= |s| ensures ViewLen(WithText(v, s, k)) > maxBytes {
          CutText(v, s, mid, k);
        }
        high := mid - 1;
      }
    }
    out := WithText(v, s, low);
    forall k | low < k <= |s| ensures ViewLen(v.(data := Some(Text(s[..k])))) > maxBytes {
      assert ViewLen(WithText(v, s, k)) > maxBytes;
    }
  }

  // ----- objects are shown in part -----

  /** p shows a part of v: some of its fields, in order, each whole or again in part. */
  predicate Shows(p: seq<Field>, v: seq<Field>) {
    if p == [] then true
    else if v == [] then false
    else (p[0].key == v[0].key && ShowsValue(p[0].value, v[0].value) && Shows(p[1..], v[1..])) || Shows(p, v[1..])
  }

  predicate ShowsValue(a: Json, b: Json) {
    a == b || (a.Obj? && b.Obj? && Shows(a.fields, b.fields))
  }

  lemma {:induction false} ShowsSkip(p: seq<Field>, v: seq<Field>, g: Field)
    requires Shows(p, v)
    ensures Shows(p, v + [g])
  {
    if p != [] {
      assert (v + [g])[1..] == v[1..] + [g];
      if Shows(p, v[1..]) {
        ShowsSkip(p, v[1..], g);
      } else {
        ShowsSkip(p[1..], v[1..], g);
      }
    }
  }

  lemma {:induction false} ShowsAppend(p: seq<Field>, v: seq<Field>, f: Field, g: Field)
    requires Shows(p, v) && f.key == g.key && ShowsValue(f.value, g.value)
    ensures Shows(p + [f], v + [g])
  {
    if v == [] {
      assert p + [f] == [f] && v + [g] == [g];
      assert [f][1..] == [] && [g][1..] == [];
    } else {
      assert (v + [g])[1..] == v[1..] + [g];
      if Shows(p, v[1..]) {
        ShowsAppend(p, v[1..], f, g);
      } else {
        assert (p + [f])[1..] == p[1..] + [f];
        ShowsAppend(p[1..], v[1..], f, g);
      }
    }
  }

  function Without(p: seq<Field>, i: nat): seq<Field>
    requires i < |p|
  {
    p[..i] + p[i + 1..]
  }

  lemma {:induction false} ShowsLess(p: seq<Field>, v: seq<Field>, i: nat)
    requires Shows(p, v) && i < |p|
    ensures Shows(Without(p, i), v)
  {
    if Shows(p, v[1..]) {
      ShowsLess(p, v[1..], i);
    } else if i == 0 {
      assert Without(p, 0) == p[1..];
      ShowsMore(p[1..], v);
    } else {
      assert Without(p, i)[1..] == Without(p[1..], i - 1);
      ShowsLess(p[1..], v[1..], i - 1);
    }
  }

  lemma {:induction false} ShowsMore(p: seq<Field>, v: seq<Field>)
    requires v != [] && Shows(p, v[1..])
    ensures Shows(p, v)
  {
  }

  lemma {:induction false} ShowsShorter(p: seq<Field>, v: seq<Field>)
    requires Shows(p, v)
    ensures |p| <= |v|
  {
    if p != [] {
      if Shows(p, v[1..]) { ShowsShorter(p, v[1..]); } else { ShowsShorter(p[1..], v[1..]); }
    }
  }

  // ----- fitting an object -----

  /** The fields shown, the names of omitted ones, and how many were omitted. */
  datatype Picked = Picked(shown: seq<Field>, omitted: seq<string>, count: nat)

  function Showing(v: View, p: Picked): View {
    v.(data := Some(Obj(p.shown)), omittedFields := p.omitted, omittedCount := p.count)
  }

  predicate TooLong(v: View, p: Picked, maxBytes: int) {
    ViewLen(Showing(v, p)) > maxBytes
  }

  function Prefixed(key: string, names: seq<string>): (out: seq<string>)
    ensures |out| == |names|
  {
    seq(|names|, i requires 0 <= i < |names| => key + "." + names[i])
  }

  function WithField(p: Picked, f: Field, names: seq<string>, count: nat): Picked {
    Picked(p.shown + [f], p.omitted + names, p.count + count)
  }

  function WithoutField(p: Picked, key: string): Picked {
    Picked(p.shown, p.omitted + [key], p.count + 1)
  }

  const EMPTY_RECEIPT := Receipt("", "", "", "", "", false, "", 0, 0)

  /** The envelope that a nested object is fitted in. */
  const NESTED := View(EMPTY_RECEIPT, None, "", 0, true, [], 0)

  /** What is left for a nested object behind what is shown. */
  function NestedBudget(v: View, p: Picked, key: string, maxBytes: int): int {
    maxBytes - ViewLen(Showing(v, p)) - StringLen(key) - 2
  }

  predicate Usable(nested: Picked, budget: int) {
    JsonLen(Obj(nested.shown)) > 2 && ViewLen(Showing(NESTED, nested)) <= budget
  }

  /** A field is shown whole if it fits; an object that does not is shown in part if any of it fits; else it is omitted. */
  function AfterField(v: View, f: Field, p: Picked, maxBytes: int): Picked
    decreases f, 0, 0
  {
    if !TooLong(v, WithField(p, f, [], 0), maxBytes) then WithField(p, f, [], 0)
    else
      var budget := NestedBudget(v, p, f.key, maxBytes);
      if f.value.Obj? && budget > 0 then
        var nested := FitObject(NESTED, f.value.fields, budget);
        if Usable(nested, budget)
        then WithField(p, Field(f.key, Obj(nested.shown)), Prefixed(f.key, nested.omitted), nested.count)
        else WithoutField(p, f.key)
      else WithoutField(p, f.key)
  }

  function AfterFields(v: View, fields: seq<Field>, n: nat, maxBytes: int): Picked
    requires n <= |fields|
    decreases Obj(fields), 0, n
  {
    if n == 0 then Picked([], v.omittedFields, v.omittedCount)
    else AfterField(v, fields[n - 1], AfterFields(v, fields, n - 1, maxBytes), maxBytes)
  }

  /** Of the largest values, the last one; the order of fields is that of their keys. */
  function LargestAt(fields: seq<Field>): (largest: nat)
    requires fields != []
    ensures largest < |fields|
    ensures forall k :: 0 <= k < |fields| ==> JsonLen(fields[k].value) <= JsonLen(fields[largest].value)
    ensures forall k :: largest < k < |fields| ==> JsonLen(fields[k].value) < JsonLen(fields[largest].value)
  {
    var n := |fields| - 1;
    if n == 0 then 0
    else
      var best := LargestAt(fields[..n]);
      if JsonLen(fields[n].value) >= JsonLen(fields[best].value) then n else best
  }

  function Smaller(p: Picked): Picked
    requires p.shown != []
  {
    Picked(Without(p.shown, LargestAt(p.shown)), p.omitted, p.count + 1)
  }

  /** While it is too long, the largest field is taken out. */
  function Shrunk(v: View, p: Picked, maxBytes: int): Picked
    decreases |p.shown|
  {
    if p.shown == [] || !TooLong(v, p, maxBytes) then p
    else Shrunk(v, Smaller(p), maxBytes)
  }

  /** Names of omitted fields are given up before any field that is shown. */
  function Trimmed(v: View, p: Picked, maxBytes: int): Picked {
    Shrunk(v, if TooLong(v, p, maxBytes) then p.(omitted := []) else p, maxBytes)
  }

  /** The fields of an object that its view shows. */
  function FitObject(v: View, fields: seq<Field>, maxBytes: int): Picked
    decreases Obj(fields), 1, 0
  {
    Trimmed(v, AfterFields(v, fields, |fields|, maxBytes), maxBytes)
  }

  // ----- what a fitted object is worth -----

  /** A field, and the fields at any depth of its objects. */
  function SizeOf(f: Field): nat {
    1 + if f.value.Obj? then Size(f.value.fields) else 0
  }

  function Size(fields: seq<Field>): nat {
    if fields == [] then 0 else SizeOf(fields[0]) + Size(fields[1..])
  }

  lemma {:induction false} SizeAppend(fields: seq<Field>, g: Field)
    ensures Size(fields + [g]) == Size(fields) + SizeOf(g)
  {
    if fields == [] {
      assert fields + [g] == [g] && [g][1..] == [];
    } else {
      assert (fields + [g])[1..] == fields[1..] + [g];
      SizeAppend(fields[1..], g);
    }
  }

  /** What was picked from an object shows a part of it and counts what is missing: it is whole exactly if
      nothing was omitted, and every field is shown or counted. */
  ghost predicate PickedFrom(v: View, fields: seq<Field>, p: Picked) {
    && Shows(p.shown, fields) && v.omittedCount <= p.count
    && (p.count == v.omittedCount <==> p.shown == fields)
    && v.omittedCount + |fields| <= p.count + |p.shown| <= v.omittedCount + Size(fields)
    && |p.omitted| - |v.omittedFields| <= p.count - v.omittedCount
  }

  lemma {:induction false} FieldShown(v: View, fields: seq<Field>, p: Picked, g: Field, f: Field, names: seq<string>, count: nat)
    requires PickedFrom(v, fields, p) && f.key == g.key && ShowsValue(f.value, g.value)
    requires |names| <= count < SizeOf(g) && (count == 0 <==> f == g)
    ensures PickedFrom(v, fields + [g], WithField(p, f, names, count))
  {
    ShowsAppend(p.shown, fields, f, g);
    SizeAppend(fields, g);
    AppendSame(p.shown, fields, f, g);
    hide Shows, ShowsValue, Size, SizeOf;
  }

  lemma AppendSame(p: seq<Field>, fields: seq<Field>, f: Field, g: Field)
    ensures p + [f] == fields + [g] <==> p == fields && f == g
  {
    if p + [f] == fields + [g] {
      assert p == (p + [f])[..|p|] && fields == (fields + [g])[..|fields|];
      assert f == (p + [f])[|p|];
    }
  }

  lemma FieldOmitted(v: View, fields: seq<Field>, p: Picked, g: Field)
    requires PickedFrom(v, fields, p)
    ensures PickedFrom(v, fields + [g], WithoutField(p, g.key))
  {
    ShowsSkip(p.shown, fields, g);
    ShowsShorter(p.shown, fields);
    SizeAppend(fields, g);
    hide Shows, ShowsValue, Size;
  }

  lemma SmallerIsPicked(v: View, fields: seq<Field>, p: Picked)
    requires PickedFrom(v, fields, p) && p.shown != []
    ensures PickedFrom(v, fields, Smaller(p))
  {
    ShowsLess(p.shown, fields, LargestAt(p.shown));
    ShowsShorter(p.shown, fields);
    hide Shows, LargestAt, Size;
  }

  lemma {:induction false} ShrunkIsPicked(v: View, fields: seq<Field>, p: Picked, maxBytes: int)
    requires PickedFrom(v, fields, p)
    ensures var q := Shrunk(v, p, maxBytes);
            PickedFrom(v, fields, q) && q.omitted == p.omitted && (q.shown == [] || !TooLong(v, q, maxBytes))
    decreases |p.shown|
  {
    hide TooLong, PickedFrom, LargestAt;
    if p.shown != [] && TooLong(v, p, maxBytes) {
      SmallerIsPicked(v, fields, p);
      ShrunkIsPicked(v, fields, Smaller(p), maxBytes);
    }
  }

  lemma NothingPicked(v: View)
    ensures PickedFrom(v, [], Picked([], v.omittedFields, v.omittedCount))
  {
  }

  lemma {:induction false} FieldsArePicked(v: View, fields: seq<Field>, n: nat, maxBytes: int)
    requires n <= |fields|
    ensures PickedFrom(v, fields[..n], AfterFields(v, fields, n, maxBytes))
    decreases Obj(fields), 0, n
  {
    hide *;
    AfterFieldsNext(v, fields, n, maxBytes);
    if n == 0 {
      NothingPicked(v);
      assert fields[..0] == [];
    } else {
      FieldsArePicked(v, fields, n - 1, maxBytes);
      FieldIsPicked(v, fields[..n - 1], AfterFields(v, fields, n - 1, maxBytes), fields[n - 1], maxBytes);
      assert fields[..n] == fields[..n - 1] + [fields[n - 1]];
    }
  }

  lemma AfterFieldsNext(v: View, fields: seq<Field>, n: nat, maxBytes: int)
    requires n <= |fields|
    ensures AfterFields(v, fields, n, maxBytes)
            == if n == 0 then Picked([], v.omittedFields, v.omittedCount)
               else AfterField(v, fields[n - 1], AfterFields(v, fields, n - 1, maxBytes), maxBytes)
  {
  }

  lemma {:induction false} FieldIsPicked(v: View, fields: seq<Field>, p: Picked, f: Field, maxBytes: int)
    requires PickedFrom(v, fields, p)
    ensures PickedFrom(v, fields + [f], AfterField(v, f, p, maxBytes))
    decreases f, 0, 0
  {
    var budget := NestedBudget(v, p, f.key, maxBytes);
    FieldShown(v, fields, p, f, f, [], 0);
    FieldOmitted(v, fields, p, f);
    if f.value.Obj? && budget > 0 {
      var nested := FitObject(NESTED, f.value.fields, budget);
      ObjectIsPicked(NESTED, f.value.fields, budget);
      FieldShown(v, fields, p, f, Field(f.key, Obj(nested.shown)), Prefixed(f.key, nested.omitted), nested.count);
    }
    hide PickedFrom, FitObject, NestedBudget, Size;
  }

  /** A fitted object shows a part of the fields and counts what is missing. It exceeds its bound only when
      no field and no name of a field is left in it. */
  lemma {:induction false} ObjectIsPicked(v: View, fields: seq<Field>, maxBytes: int)
    ensures var p := FitObject(v, fields, maxBytes);
            PickedFrom(v, fields, p) && (TooLong(v, p, maxBytes) ==> p.shown == [] && p.omitted == [])
    decreases Obj(fields), 1, 0
  {
    FieldsArePicked(v, fields, |fields|, maxBytes);
    assert fields[..|fields|] == fields;
    TrimmedIsPicked(v, fields, AfterFields(v, fields, |fields|, maxBytes), maxBytes);
    hide PickedFrom, TooLong, Trimmed, AfterFields;
  }

  lemma TrimmedIsPicked(v: View, fields: seq<Field>, p: Picked, maxBytes: int)
    requires PickedFrom(v, fields, p)
    ensures var q := Trimmed(v, p, maxBytes);
            PickedFrom(v, fields, q) && (TooLong(v, q, maxBytes) ==> q.shown == [] && q.omitted == [])
  {
    var q := if TooLong(v, p, maxBytes) then p.(omitted := []) else p;
    ShrunkIsPicked(v, fields, q, maxBytes);
    hide Shows, TooLong;
  }

  lemma {:induction false} FieldsGrow(fields: seq<Field>, n: nat)
    requires n < |fields|
    ensures FieldsLen(fields[..n]) + Commas(n) <= FieldsLen(fields) + Commas(|fields|)
  {
    if n > 0 {
      FieldsGrow(fields[1..], n - 1);
      assert fields[1..][..n - 1] == fields[..n][1..];
    }
  }

  /** Field by field, what fits beside what was picked before it is shown whole, and a field that is no object and does
      not fit is named as omitted. */
  lemma {:induction false} FieldsFillUp(v: View, fields: seq<Field>, n: nat, maxBytes: int)
    requires n < |fields|
    ensures var p, q, f := AfterFields(v, fields, n, maxBytes), AfterFields(v, fields, n + 1, maxBytes), fields[n];
            && (ViewLen(v.(data := Some(Obj(p.shown + [f])), omittedFields := p.omitted, omittedCount := p.count)) <= maxBytes ==>
                  q.shown == p.shown + [f] && q.omitted == p.omitted && q.count == p.count)
            && (!f.value.Obj?
                && ViewLen(v.(data := Some(Obj(p.shown + [f])), omittedFields := p.omitted, omittedCount := p.count)) > maxBytes ==>
                  q.shown == p.shown && q.omitted == p.omitted + [f.key] && q.count == p.count + 1)
  {
    hide *;
    AfterFieldsNext(v, fields, n + 1, maxBytes);
    FieldFillsUp(v, fields[n], AfterFields(v, fields, n, maxBytes), maxBytes);
  }

  lemma {:induction false} FieldFillsUp(v: View, f: Field, p: Picked, maxBytes: int)
    ensures var q := AfterField(v, f, p, maxBytes);
            && (ViewLen(v.(data := Some(Obj(p.shown + [f])), omittedFields := p.omitted, omittedCount := p.count)) <= maxBytes ==>
                  q.shown == p.shown + [f] && q.omitted == p.omitted && q.count == p.count)
            && (!f.value.Obj?
                && ViewLen(v.(data := Some(Obj(p.shown + [f])), omittedFields := p.omitted, omittedCount := p.count)) > maxBytes ==>
                  q.shown == p.shown && q.omitted == p.omitted + [f.key] && q.count == p.count + 1)
  {
    hide ViewLen, FitObject;
    assert p.omitted + [] == p.omitted;
  }

  /** The k fields of the largest values taken out, one after the other. */
  function Lighter(p: Picked, k: nat): Picked
    decreases k
  {
    if k == 0 || p.shown == [] then p else Lighter(Smaller(p), k - 1)
  }

  predicate TooLongBefore(v: View, p: Picked, k: nat, maxBytes: int) {
    forall j: nat :: j < k ==> ViewLen(Showing(v, Lighter(p, j))) > maxBytes
  }

  /** Fields are taken out only of need: before each of them the object was too long. */
  lemma {:induction false} TakenOutOfNeed(v: View, p: Picked, maxBytes: int) returns (k: nat)
    ensures Shrunk(v, p, maxBytes) == Lighter(p, k) && TooLongBefore(v, p, k, maxBytes)
    decreases |p.shown|
  {
    hide ViewLen, LargestAt, Showing;
    k := 0;
    if p.shown != [] && TooLong(v, p, maxBytes) {
      k := TakenOutOfNeed(v, Smaller(p), maxBytes);
      k := k + 1;
      forall j: nat | j < k ensures ViewLen(Showing(v, Lighter(p, j))) > maxBytes {
        if j > 0 { assert ViewLen(Showing(v, Lighter(Smaller(p), j - 1))) > maxBytes; }
      }
    }
  }

  /** What was picked stays if it fits, and otherwise gives up its names first, and then as many fields as needed. */
  lemma FittedOfNeed(v: View, fields: seq<Field>, maxBytes: int) returns (k: nat)
    ensures var p, q := AfterFields(v, fields, |fields|, maxBytes), FitObject(v, fields, maxBytes);
            if ViewLen(Showing(v, p)) <= maxBytes then q == p
            else q == Lighter(p.(omitted := []), k) && TooLongBefore(v, p.(omitted := []), k, maxBytes)
  {
    k := TakenOutOfNeed(v, AfterFields(v, fields, |fields|, maxBytes).(omitted := []), maxBytes);
    hide ViewLen, AfterFields, Lighter, Showing, TooLongBefore;
  }

  /** If the whole object fits, it is shown whole. */
  lemma {:induction false} WholeIfItFits(v: View, fields: seq<Field>, maxBytes: int)
    requires !TooLong(v, Picked(fields, v.omittedFields, v.omittedCount), maxBytes)
    ensures FitObject(v, fields, maxBytes) == Picked(fields, v.omittedFields, v.omittedCount)
  {
    AllFieldsFit(v, fields, |fields|, maxBytes);
    assert fields[..|fields|] == fields;
    hide AfterFields, TooLong;
  }

  lemma PartFits(v: View, fields: seq<Field>, n: nat, maxBytes: int)
    requires n <= |fields| && !TooLong(v, Picked(fields, v.omittedFields, v.omittedCount), maxBytes)
    ensures !TooLong(v, Picked(fields[..n], v.omittedFields, v.omittedCount), maxBytes)
  {
    if n < |fields| { FieldsGrow(fields, n); } else { assert fields[..n] == fields; }
    hide FieldsLen, ReceiptLen, OmittedLen;
  }

  lemma {:induction false} FittingField(v: View, f: Field, p: Picked, maxBytes: int)
    requires !TooLong(v, Picked(p.shown + [f], p.omitted, p.count), maxBytes)
    ensures AfterField(v, f, p, maxBytes) == Picked(p.shown + [f], p.omitted, p.count)
  {
    assert p.omitted + [] == p.omitted;
    hide TooLong;
  }

  lemma {:induction false} AllFieldsFit(v: View, fields: seq<Field>, n: nat, maxBytes: int)
    requires n <= |fields| && !TooLong(v, Picked(fields, v.omittedFields, v.omittedCount), maxBytes)
    ensures AfterFields(v, fields, n, maxBytes) == Picked(fields[..n], v.omittedFields, v.omittedCount)
  {
    hide *;
    AfterFieldsNext(v, fields, n, maxBytes);
    if n > 0 {
      AllFieldsFit(v, fields, n - 1, maxBytes);
      PartFits(v, fields, n, maxBytes);
      assert fields[..n] == fields[..n - 1] + [fields[n - 1]];
      FittingField(v, fields[n - 1], Picked(fields[..n - 1], v.omittedFields, v.omittedCount), maxBytes);
    }
  }

  // ----- the loops -----

  /** fitObservationObject. */
  method FitObservationObject(v: View, fields: seq<Field>, maxBytes: int) returns (out: View)
    ensures out == Showing(v, FitObject(v, fields, maxBytes))
    decreases Obj(fields)
  {
    hide TooLong, Trimmed, Usable, NestedBudget;
    var p := Picked([], v.omittedFields, v.omittedCount);
    for i := 0 to |fields|
      invariant p == AfterFields(v, fields, i, maxBytes)
    {
      var f := fields[i];
      var whole := WithField(p, f, [], 0);
      if !TooLong(v, whole, maxBytes) {
        p := whole;
        continue;
      }
      var budget := NestedBudget(v, p, f.key, maxBytes);
      if f.value.Obj? && budget > 0 {
        var preview := FitObservationObject(NESTED, f.value.fields, budget);
        var nested := Picked(preview.data.value.fields, preview.omittedFields, preview.omittedCount);
        if Usable(nested, budget) {
          p := WithField(p, Field(f.key, Obj(nested.shown)), Prefixed(f.key, nested.omitted), nested.count);
          continue;
        }
      }
      p := WithoutField(p, f.key);
    }
    p := Trim(v, p, maxBytes);
    out := Showing(v, p);
  }

  method Trim(v: View, picked: Picked, maxBytes: int) returns (p: Picked)
    ensures p == Trimmed(v, picked, maxBytes)
  {
    hide TooLong, LargestAt;
    p := picked;
    if TooLong(v, p, maxBytes) {
      p := p.(omitted := []);
    }
    while TooLong(v, p, maxBytes) && p.shown != []
      invariant Shrunk(v, p, maxBytes) == Trimmed(v, picked, maxBytes)
      decreases |p.shown|
    {
      var largest := Largest(p.shown);
      p := Picked(Without(p.shown, largest), p.omitted, p.count + 1);
    }
  }

  method Largest(fields: seq<Field>) returns (largest: nat)
    requires fields != []
    ensures largest == LargestAt(fields)
  {
    largest := 0;
    for i := 1 to |fields|
      invariant largest == LargestAt(fields[..i])
    {
      assert fields[..i + 1][..i] == fields[..i];
      if JsonLen(fields[i].value) >= JsonLen(fields[largest].value) {
        largest := i;
      }
    }
    assert fields[..|fields|] == fields;
  }
}
