/**
 The text representation of a mail's recipients: the stored column joins the
 recipient trips with commas, the claim splits it again, and the pending query
 looks for ",trip," inside ",receivers,".
 */
module MailText {

  const COMMA := ','

  /** The position of the first comma, or the length when there is none. */
  function CommaAt(s: string): (i: nat)
    ensures i <= |s|
    ensures COMMA !in s[..i]
    ensures i < |s| ==> s[i] == COMMA
    ensures i == |s| <==> COMMA !in s
  {
    if s == [] || s[0] == COMMA then 0
    else
      var i := 1 + CommaAt(s[1..]);
      assert s[..i] == [s[0]] + s[1..][..i - 1];
      i
  }

  /** Go's strings.Split(s, ","): never empty, keeps empty parts. */
  function Split(s: string): seq<string> {
    var i := CommaAt(s);
    if i == |s| then [s] else [s[..i]] + Split(s[i + 1..])
  }

  /** Go's strings.Join(parts, ","). */
  function Join(parts: seq<string>): string {
    if parts == [] then ""
    else if |parts| == 1 then parts[0]
    else parts[0] + [COMMA] + Join(parts[1..])
  }

  /** SQL's instr(haystack, needle) > 0. */
  ghost predicate Instr(haystack: string, needle: string) {
    exists i :: OccursAt(haystack, needle, i)
  }

  ghost predicate OccursAt(haystack: string, needle: string, i: int) {
    0 <= i <= |haystack| - |needle| && haystack[i..i + |needle|] == needle
  }

  /** unicode.IsSpace, the class that strings.TrimSpace removes. */
  predicate IsSpace(c: char) {
    c in {'\t', '\n', '\U{0B}', '\U{0C}', '\r', ' ', '\U{85}', '\U{A0}', '\U{1680}',
          '\U{2028}', '\U{2029}', '\U{202F}', '\U{205F}', '\U{3000}'}
    || '\U{2000}' <= c <= '\U{200A}'
  }

  predicate Blank(s: string) {
    forall i :: 0 <= i < |s| ==> IsSpace(s[i])
  }

  /** A trip under which mail can be claimed at all. */
  predicate Claimable(trip: string) {
    !Blank(trip) && COMMA !in trip
  }

  ghost predicate CommaFree(parts: seq<string>) {
    forall part :: part in parts ==> COMMA !in part
  }

  ghost predicate PendingText(receivers: string, trip: string) {
    Instr([COMMA] + receivers + [COMMA], [COMMA] + trip + [COMMA])
  }

  /** An occurrence in ",head,rest," is either the whole head or an occurrence in ",rest,". */
  lemma OccurrenceInParts(head: string, rest: string, trip: string, i: int)
    requires COMMA !in head && COMMA !in trip
    ensures var tail := [COMMA] + rest + [COMMA];
            OccursAt([COMMA] + head + tail, [COMMA] + trip + [COMMA], i)
            <==> (i == 0 && head == trip)
                 || (i > |head| && OccursAt(tail, [COMMA] + trip + [COMMA], i - |head| - 1))
  {
    var tail, needle := [COMMA] + rest + [COMMA], [COMMA] + trip + [COMMA];
    var whole := [COMMA] + head + tail;
    assert whole[|head| + 1..] == tail;
    if i == 0 {
      SameHead(head, rest, trip);
    } else if i > |head| && i + |needle| <= |whole| {
      assert whole[i..i + |needle|] == tail[i - |head| - 1..i - |head| - 1 + |needle|];
    } else if 0 < i <= |head| && i + |needle| <= |whole| {
      assert whole[i..i + |needle|][0] == head[i - 1];
    }
  }

  lemma SameHead(head: string, rest: string, trip: string)
    requires COMMA !in head && COMMA !in trip
    ensures OccursAt([COMMA] + head + ([COMMA] + rest + [COMMA]), [COMMA] + trip + [COMMA], 0) <==> head == trip
  {
    var needle := [COMMA] + trip + [COMMA];
    var whole := [COMMA] + head + ([COMMA] + rest + [COMMA]);
    if OccursAt(whole, needle, 0) {
      assert whole == needle + whole[|needle|..];
      assert whole[1..] == head + [COMMA] + (rest + [COMMA]) == trip + [COMMA] + whole[|needle|..];
      FirstPartUnique(head, rest + [COMMA], trip, whole[|needle|..]);
    }
  }

  /** Text has one way to be a comma-free part, a comma and a remainder. */
  lemma {:induction false} FirstPartUnique(a: string, x: string, b: string, y: string)
    requires COMMA !in a && COMMA !in b
    requires a + [COMMA] + x == b + [COMMA] + y
    ensures a == b && x == y
  {
    var s := a + [COMMA] + x;
    if a == [] {
      assert s[0] == COMMA == (b + [COMMA] + y)[0];
      assert x == s[1..] == y;
    } else {
      assert s[0] == a[0] == (b + [COMMA] + y)[0];
      assert s[1..] == a[1..] + [COMMA] + x == b[1..] + [COMMA] + y;
      FirstPartUnique(a[1..], x, b[1..], y);
    }
  }

  /** Why a single-part list needs no case of its own: nothing occurs after the last part. */
  lemma OccurrenceInLast(head: string, trip: string, i: int)
    requires COMMA !in head && COMMA !in trip
    ensures OccursAt([COMMA] + head + [COMMA], [COMMA] + trip + [COMMA], i) <==> i == 0 && head == trip
  {
    var whole, needle := [COMMA] + head + [COMMA], [COMMA] + trip + [COMMA];
    if OccursAt(whole, needle, i) {
      assert whole[i..i + |needle|][0] == whole[i];
      assert whole[|trip| + 1] == needle[|trip| + 1] == COMMA;
      assert head == whole[1..|head| + 1] == needle[1..|trip| + 1] == trip;
    }
  }

  lemma PendingInLast(head: string, trip: string)
    requires COMMA !in head && COMMA !in trip
    ensures PendingText(head, trip) <==> head == trip
  {
    hide OccursAt;
    forall k { OccurrenceInLast(head, trip, k); }
    assert OccursAt([COMMA] + head + [COMMA], [COMMA] + trip + [COMMA], 0) <==> head == trip;
  }

  lemma PendingInParts(head: string, rest: string, trip: string)
    requires COMMA !in head && COMMA !in trip
    ensures PendingText(head + [COMMA] + rest, trip) <==> head == trip || PendingText(rest, trip)
  {
    hide OccursAt;
    var tail, needle := [COMMA] + rest + [COMMA], [COMMA] + trip + [COMMA];
    var whole := [COMMA] + (head + [COMMA] + rest) + [COMMA];
    assert whole == [COMMA] + head + tail;
    forall k { OccurrenceInParts(head, rest, trip, k); }
    if trip == head { assert OccursAt(whole, needle, 0); }
    if PendingText(rest, trip) {
      var k :| OccursAt(tail, needle, k);
      OccursFrom(tail, needle, k);
      assert OccursAt(whole, needle, k + |head| + 1) by {
        assert k + |head| + 1 - |head| - 1 == k;
        OccurrenceInParts(head, rest, trip, k + |head| + 1);
      }
    }
  }

  lemma OccursFrom(text: string, needle: string, i: int)
    requires OccursAt(text, needle, i)
    ensures i >= 0
  {
  }

  /** The pending query's instr test and the claim's split-and-compare agree on every stored
      column and every comma-free trip (blank ones included). */
  lemma {:induction false} PendingTextIsMembership(receivers: string, trip: string)
    requires COMMA !in trip
    ensures PendingText(receivers, trip) <==> trip in Split(receivers)
    decreases |receivers|
  {
    hide PendingText;
    var i := CommaAt(receivers);
    var head := receivers[..i];
    if i == |receivers| {
      assert head == receivers;
      PendingInLast(head, trip);
    } else {
      var rest := receivers[i + 1..];
      assert receivers == head + [COMMA] + rest;
      PendingTextIsMembership(rest, trip);
      PendingInParts(head, rest, trip);
    }
  }

  lemma {:induction false} SplitOfHead(head: string, rest: string)
    requires COMMA !in head
    ensures Split(head + [COMMA] + rest) == [head] + Split(rest)
  {
    var s := head + [COMMA] + rest;
    var i := CommaAt(s);
    assert s[|head|] == COMMA;
    assert s[..i] + [COMMA] + s[i + 1..] == s;
    FirstPartUnique(s[..i], s[i + 1..], head, rest);
  }

  lemma {:induction false} SplitOfLast(s: string)
    requires COMMA !in s
    ensures Split(s) == [s]
  {
  }

  lemma OneMorePart(head: string, parts: seq<string>)
    requires COMMA !in head && CommaFree(parts)
    ensures CommaFree([head] + parts)
  {
  }

  lemma {:induction false} SplitUnfolds(s: string)
    ensures var i := CommaAt(s);
            COMMA !in s[..i] && Split(s) == if i == |s| then [s[..i]] else [s[..i]] + Split(s[i + 1..])
  {
    assert s[..|s|] == s;
  }

  /** Every part that Split returns is free of commas. */
  lemma {:induction false} SplitIsCommaFree(s: string)
    ensures CommaFree(Split(s)) && Split(s) != []
    decreases |s|
  {
    hide *;
    var i := CommaAt(s);
    SplitUnfolds(s);
    NoParts();
    if i < |s| {
      SplitIsCommaFree(s[i + 1..]);
      OneMorePart(s[..i], Split(s[i + 1..]));
    } else {
      OneMorePart(s[..i], []);
      assert [s[..i]] + [] == [s[..i]];
    }
  }

  lemma NoParts()
    ensures CommaFree([])
  {
  }

  /** Splitting the stored column gives back exactly the trips that were joined,
      if and only if there was one at all and none of them contains a comma. */
  lemma {:induction false} SplitJoinRoundTrip(trips: seq<string>)
    ensures Split(Join(trips)) == trips <==> trips != [] && CommaFree(trips)
  {
    SplitIsCommaFree(Join(trips));
    if trips != [] && CommaFree(trips) { SplitOfJoined(trips); }
  }

  lemma {:induction false} SplitOfJoined(trips: seq<string>)
    requires trips != [] && CommaFree(trips)
    ensures Split(Join(trips)) == trips
  {
    if |trips| == 1 {
      SplitOfLast(trips[0]);
    } else {
      SplitOfJoined(trips[1..]);
      SplitOfHead(trips[0], Join(trips[1..]));
    }
  }

  /** mailHasRecipient: a blank or comma-carrying trip matches nothing; any other trip is
      compared with every part of the stored column. */
  method MailHasRecipient(recipients: string, trip: string) returns (found: bool)
    ensures found <==> (exists i :: 0 <= i < |trip| && !IsSpace(trip[i])) && ',' !in trip && trip in Split(recipients)
    ensures Claimable(trip) ==> (found <==> PendingText(recipients, trip))
  {
    if COMMA !in trip { PendingTextIsMembership(recipients, trip); }
    if Blank(trip) || COMMA in trip {
      return false;
    }
    var parts := Split(recipients);
    for i := 0 to |parts|
      invariant trip !in parts[..i]
    {
      if parts[i] == trip {
        return true;
      }
    }
    return false;
  }
}
