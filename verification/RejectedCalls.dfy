/**
 rejectedCallsFeedback: a bounded diagnostic of calls that were not executed. Its
 previews are halved until the encoded whole fits.
 */
module RejectedCalls {
  import opened Wire

  const FIRST_PREVIEW := 128
  const FEEDBACK_BYTES := 1536
  const PREVIEWED_CALLS := 3

  /** feedbackPrefix: the longest prefix of whole characters within the given bytes. */
  function Prefix(s: string, most: nat): (p: string)
    ensures p <= s && Bytes(p) <= most
  {
    if s == [] || Utf8Len(s[0]) > most then []
    else
      var rest := Prefix(s[1..], most - Utf8Len(s[0]));
      assert ([s[0]] + rest)[1..] == rest;
      [s[0]] + rest
  }

  /** No longer prefix would fit, and a value that fits is kept whole. */
  lemma {:induction false} PrefixIsLongest(s: string, most: nat, p: string)
    requires p <= s && Bytes(p) <= most
    ensures p <= Prefix(s, most)
    ensures Bytes(s) <= most ==> Prefix(s, most) == s
  {
    hide Prefix, Bytes, Utf8Len;
    PrefixNext(s, most);
    BytesFront(s);
    BytesFront([]);
    if s != [] && Utf8Len(s[0]) <= most {
      var left := most - Utf8Len(s[0]);
      if p == [] {
        if Bytes(s) <= most { PrefixIsLongest(s[1..], left, []); }
      } else {
        BytesFront(p);
        assert p[1..] <= s[1..] && p == [s[0]] + p[1..];
        PrefixIsLongest(s[1..], left, p[1..]);
      }
    } else if p != [] {
      BytesFront(p);
    }
  }

  lemma PrefixNext(s: string, most: nat)
    ensures Prefix(s, most)
            == if s == [] || Utf8Len(s[0]) > most then [] else [s[0]] + Prefix(s[1..], most - Utf8Len(s[0]))
  {
  }

  lemma {:induction false} BytesFront(s: string)
    ensures Bytes(s) == if s == [] then 0 else Utf8Len(s[0]) + Bytes(s[1..])
  {
  }

  datatype Preview = Preview(id: string, name: string, arguments: string, truncated: bool)
  datatype Diagnostic = Diagnostic(reason: string, callCount: nat, calls: seq<Preview>, truncated: bool)

  function PreviewLen(p: Preview): nat {
    41 + StringLen(p.id) + StringLen(p.name) + StringLen(p.arguments) + BoolLen(p.truncated)
  }

  function PreviewLens(ps: seq<Preview>): (lens: seq<nat>)
    ensures |lens| == |ps|
  {
    seq(|ps|, i requires 0 <= i < |ps| => PreviewLen(ps[i]))
  }

  /** The encoded length; an empty reason is left out, and a missing list is null. */
  function DiagnosticLen(d: Diagnostic): nat {
    36 + (if d.reason == "" then 0 else 10 + StringLen(d.reason)) + |Decimal(d.callCount)|
    + (if d.calls == [] then 4 else ArrayLen(PreviewLens(d.calls))) + BoolLen(d.truncated)
  }

  function PreviewOf(c: Call, most: nat): Preview {
    var id, name, arguments := Prefix(c.id, most), Prefix(c.name, most), Prefix(c.arguments, most);
    Preview(id, name, arguments, id != c.id || name != c.name || arguments != c.arguments)
  }

  function Shown(calls: seq<Call>): seq<Call> {
    if |calls| < PREVIEWED_CALLS then calls else calls[..PREVIEWED_CALLS]
  }

  function Previews(calls: seq<Call>, most: nat): (ps: seq<Preview>)
    ensures |ps| == |calls|
  {
    seq(|calls|, i requires 0 <= i < |calls| => PreviewOf(calls[i], most))
  }

  predicate AnyCut(ps: seq<Preview>) {
    exists i :: 0 <= i < |ps| && ps[i].truncated
  }

  function DiagnosticOf(calls: seq<Call>, reason: string, most: nat): Diagnostic {
    var ps := Previews(Shown(calls), most);
    Diagnostic(Prefix(reason, most), |calls|, ps,
               |calls| > PREVIEWED_CALLS || Prefix(reason, most) != reason || AnyCut(ps))
  }

  /** The bound on a number's width. */
  lemma {:induction false} DecimalFits(n: nat, power: nat, width: nat)
    requires width >= 1 && n < power && power == Power(width)
    ensures |Decimal(n)| <= width
  {
    if n >= 10 {
      DecimalFits(n / 10, power / 10, width - 1);
    }
  }

  function Power(width: nat): nat {
    if width == 0 then 1 else 10 * Power(width - 1)
  }

  lemma NothingFits(calls: seq<Call>, reason: string)
    requires |calls| <= MAX_LENGTH
    ensures DiagnosticLen(DiagnosticOf(calls, reason, 0)) <= FEEDBACK_BYTES
  {
    var d := DiagnosticOf(calls, reason, 0);
    assert Prefix(reason, 0) == "";
    assert Power(19) == 10_000_000_000_000_000_000 by { Nineteen(); }
    DecimalFits(|calls|, Power(19), 19);
    forall i | 0 <= i < |d.calls| ensures PreviewLens(d.calls)[i] <= 52 {
      assert StringLen("") == 2;
    }
    SumBound(PreviewLens(d.calls), 52);
  }

  lemma Nineteen()
    ensures Power(19) == 10_000_000_000_000_000_000
  {
    assert Power(6) == 1_000_000;
    assert Power(12) == 1_000_000_000_000;
    assert Power(18) == 1_000_000_000_000_000_000;
  }

  lemma {:induction false} SumBound(lens: seq<nat>, most: nat)
    requires forall i :: 0 <= i < |lens| ==> lens[i] <= most
    ensures Sum(lens) <= most * |lens|
  {
    if lens != [] {
      assert forall i :: 0 <= i < |lens[1..]| ==> lens[1..][i] == lens[i + 1];
      SumBound(lens[1..], most);
    }
  }

  predicate TooLong(calls: seq<Call>, reason: string, bound: nat) {
    DiagnosticLen(DiagnosticOf(calls, reason, bound)) > FEEDBACK_BYTES
  }

  /** A bound below the first one is half of one that did not fit. */
  ghost predicate Needed(calls: seq<Call>, reason: string, bound: nat) {
    bound < FIRST_PREVIEW ==>
      exists larger: nat :: TooLong(calls, reason, larger) && bound < larger <= FIRST_PREVIEW && bound == larger / 2
  }

  /** The diagnostic for one bound, call by call. */
  method Diagnose(calls: seq<Call>, reason: string, bound: nat) returns (d: Diagnostic)
    ensures d == DiagnosticOf(calls, reason, bound)
  {
    hide Prefix, PreviewOf;
    var cut := |calls| > PREVIEWED_CALLS || Prefix(reason, bound) != reason;
    var shown := Shown(calls);
    var previews := [];
    for i := 0 to |shown|
      invariant previews == Previews(shown, bound)[..i]
      invariant cut == (|calls| > PREVIEWED_CALLS || Prefix(reason, bound) != reason || AnyCut(previews))
    {
      var preview := PreviewOf(shown[i], bound);
      OneMore(previews, preview);
      cut := cut || preview.truncated;
      previews := previews + [preview];
    }
    assert previews == Previews(shown, bound);
    d := Diagnostic(Prefix(reason, bound), |calls|, previews, cut);
  }

  /** The loop ends for any calls whatever, with a diagnostic that fits: every shown field is the longest
      prefix within one bound, and a bound is halved only if it did not fit. */
  method RejectedCallsFeedback(calls: seq<Call>, reason: string) returns (d: Diagnostic, bound: nat)
    requires |calls| <= MAX_LENGTH
    ensures DiagnosticLen(d) <= FEEDBACK_BYTES && bound <= FIRST_PREVIEW
    ensures d == DiagnosticOf(calls, reason, bound) && Needed(calls, reason, bound)
    ensures bound < FIRST_PREVIEW ==>
              exists larger: nat :: DiagnosticLen(DiagnosticOf(calls, reason, larger)) > 1536 && bound == larger / 2 < larger <= FIRST_PREVIEW
  {
    bound := FIRST_PREVIEW;
    while true
      invariant 0 <= bound <= FIRST_PREVIEW && Needed(calls, reason, bound)
      decreases bound
    {
      d := Diagnose(calls, reason, bound);
      if DiagnosticLen(d) <= FEEDBACK_BYTES {
        return;
      }
      assert TooLong(calls, reason, bound);
      NothingFits(calls, reason);
      bound := bound / 2;
    }
  }

  lemma OneMore(ps: seq<Preview>, p: Preview)
    ensures AnyCut(ps + [p]) == (AnyCut(ps) || p.truncated)
  {
    if p.truncated { assert (ps + [p])[|ps|].truncated; }
    if AnyCut(ps) {
      var i :| 0 <= i < |ps| && ps[i].truncated;
      assert (ps + [p])[i].truncated;
    }
  }

  /** A diagnostic that is not marked as truncated shows all calls and the reason in full. */
  lemma UntruncatedIsWhole(calls: seq<Call>, reason: string, most: nat)
    ensures !DiagnosticOf(calls, reason, most).truncated <==>
              |calls| <= PREVIEWED_CALLS && DiagnosticOf(calls, reason, most).reason == reason
              && forall i :: 0 <= i < |calls| ==>
                   var p := DiagnosticOf(calls, reason, most).calls[i];
                   p.id == calls[i].id && p.name == calls[i].name && p.arguments == calls[i].arguments
  {
    var d := DiagnosticOf(calls, reason, most);
    if |calls| <= PREVIEWED_CALLS {
      assert Shown(calls) == calls;
      assert forall i :: 0 <= i < |calls| ==> d.calls[i] == PreviewOf(calls[i], most);
    }
  }
}
