/**
 Where the exact omission count is shown: in the reserved index behind the newest
 request, unless an earlier message already reads like the reserved index.
 */
module ShownIndex {
  import opened Options
  import opened Wire
  import opened ToolProtocol
  import opened ContextBudget
  import opened TurnContext
  import opened ResultIndex
  import opened TurnProjection

  // ----- where the messages of a request come from -----

  lemma {:induction false} UnitsFrom(ms: seq<Message>, start: nat)
    ensures forall u, m :: u in Units(ms, start) && m in u.messages ==> m in ms
  {
    if ms != [] {
      hide UnitOf;
      UnitsFrom(ms[1..], start + 1);
      UnitFrom(ms[..Stretch(ms)], start);
      assert forall m :: m in ms[..Stretch(ms)] ==> m in ms;
      assert forall m :: m in ms[1..] ==> m in ms;
      assert Units(ms, start) == UnitOf(ms[..Stretch(ms)], start) + Units(ms[1..], start + 1);
    }
  }

  lemma UnitFrom(stretch: seq<Message>, start: nat)
    requires stretch != []
    ensures forall u, m :: u in UnitOf(stretch, start) && m in u.messages ==> m in stretch
  {
    hide Wanted, Complete;
  }

  lemma CutFrom(fp: Fingerprinter, ms: seq<Message>, prefix: seq<Message>, suffix: seq<Message>, tail: bool)
    ensures forall u, m :: u in Cut(fp, ms, prefix, suffix, tail) && m in u.messages ==> m in ms
  {
    var last := MatchesFromEnd(fp, ms, |ms|, suffix);
    var rest := Rest(|ms|, MatchesFromStart(fp, ms, 0, prefix) + last);
    hide Units, Side, Rest, MatchesFromStart, MatchesFromEnd;
    UnitsFrom(At(ms, rest), 0);
    UnitsStart(At(ms, rest), 0);
    SideOf(Units(At(ms, rest), 0), Flags(last, rest), tail);
    assert forall m :: m in At(ms, rest) ==> m in ms;
  }

  /** What is no result is seen as it stands in the transcript. */
  lemma CleanFrom(fp: Fingerprinter, t: Turn, m: Message)
    requires m in Clean(fp, t) && !IsTool(m)
    ensures m in t.transcript
  {
    var left := Unmatched(fp, t.transcript, t.input.runtime);
    hide Rest, MatchesFromEnd;
    var i :| 0 <= i < |left| && AllViewed(left, t.views)[i] == m;
    assert left[i] == m;
  }

  lemma {:induction false} ChosenFrom(all: seq<ContextUnit>, selected: set<nat>, tail: bool, i: nat, m: Message)
    requires i <= |all| && m in Chosen(all, selected, tail, i)
    ensures exists k :: 0 <= k < |all| && m in all[k].messages
    decreases |all| - i
  {
    if m in Here(all, selected, tail, i) {
      assert m in all[i].messages;
    } else {
      ChosenFrom(all, selected, tail, i + 1, m);
    }
  }

  /** The message is none of those that the turn is made from, required or not. */
  ghost predicate IsForeign(t: Turn, m: Message) {
    && m !in t.input.prefix && m !in t.input.suffix && m !in t.transcript
    && (forall u :: u in t.input.optional || u in t.input.optionalTail ==> m !in u.messages)
  }

  lemma ForeignIsNotOffered(fp: Fingerprinter, t: Turn, m: Message)
    requires IsForeign(t, m) && !IsTool(m)
    ensures forall u :: u in AllUnits(WithTranscript(fp, t)) ==> m !in u.messages
  {
    var x, ms := t.input, Clean(fp, t);
    hide Clean, Cut;
    CutFrom(fp, ms, x.prefix, x.suffix, false);
    CutFrom(fp, ms, x.prefix, x.suffix, true);
    if m in ms { CleanFrom(fp, t, m); }
  }

  lemma ForeignDoesNotLead(fp: Fingerprinter, t: Turn, selected: set<nat>, m: Message)
    requires IsForeign(t, m) && !IsTool(m)
    ensures m !in Lead(WithTranscript(fp, t), selected)
  {
    var x := WithTranscript(fp, t);
    TranscriptKeepsLimits(fp, t);
    ForeignIsNotOffered(fp, t, m);
    hide WithTranscript, Chosen;
    if m in Chosen(AllUnits(x), selected, false, 0) {
      ChosenFrom(AllUnits(x), selected, false, 0, m);
    }
  }

  // ----- the index of a request -----

  /** The index that is reserved for a turn with results. */
  ghost function ReservedResults(fp: Fingerprinter, t: Turn): string
    requires t.receipts.Some? && Preview(WithTranscript(fp, t), t.receipts.value, MAX_DATA_PREVIEW, MAX_ARGUMENT_PREVIEW).Some?
  {
    var size := Preview(WithTranscript(fp, t), t.receipts.value, MAX_DATA_PREVIEW, MAX_ARGUMENT_PREVIEW).value;
    t.receipts.value(size.1, size.0)
  }

  /** A reserved index that no message of the turn reads like is shown with the exact count, directly behind
      the newest request. */
  lemma ExactIndexIsShown(fp: Fingerprinter, t: Turn, selected: set<nat>, p: Projection)
    requires Separates(fp) && t.receipts.Some? && ProjectedAs(fp, t, selected, p)
    requires IsForeign(t, IndexMessage(ReservedResults(fp, t), MostOmitted(WithTranscript(fp, t))))
    ensures p.removed >= 0
    ensures p.messages
            == Lead(WithTranscript(fp, t), selected) + [IndexMessage(ReservedResults(fp, t), p.removed)]
               + Trail(WithTranscript(fp, t), selected)
  {
    var x, results := WithTranscript(fp, t), ReservedResults(fp, t);
    assert IndexedAs(fp, x, results, selected, p);
    hide ProjectedAs, WithTranscript, ReservedResults, SelectedAs, IndexText, Lead, Trail, Separates;
    ForeignDoesNotLead(fp, t, selected, IndexMessage(results, MostOmitted(x)));
    IndexIsPatched(fp, x, results, p.removed, selected);
  }

  /** A turn without a transcript, and one optional unit that reads like the index reserved for its results. */
  function Crowded(results: string): Turn {
    var unit := ContextUnit("", 0, 0, [IndexMessage(results, 1)], false);
    Turn([], map[], Some((arguments, data) => results), Input([], [unit], [], [], [], MAX_CONTEXT_TOKENS, 0, 0))
  }

  lemma CrowdedIsItsInput(fp: Fingerprinter, results: string)
    ensures WithTranscript(fp, Crowded(results)) == Crowded(results).input
  {
    var t := Crowded(results);
    assert |Clean(fp, t)| == 0;
    assert forall tail :: Cut(fp, [], [], [], tail) == [];
  }

  lemma IndexTextIsShort(results: string, n: nat)
    requires n <= 9
    ensures |IndexText(results, n)| <= |results| + 100
  {
  }

  /** An index of moderate size. */
  lemma IndexIsSmall(results: string, n: nat)
    requires |results| <= 1000 && n <= 1
    ensures Serialized([IndexMessage(results, n)]) <= 10_000 && Serialized([]) == 2
  {
    hide EscapedLen, IndexText, Decimal;
    var m := IndexMessage(results, n);
    IndexTextIsShort(results, n);
    EscapedLenAtLeast(IndexText(results, n));
    EscapedLenAtLeast(USER);
    assert MessageLen(m) <= 7_000;
    assert Lens([m]) == [MessageLen(m)] && [MessageLen(m)][1..] == [] && Lens([]) == [];
    assert Sum([MessageLen(m)]) == MessageLen(m);
    assert Serialized([m]) == 2 + MessageLen(m);
  }

  /** Otherwise it need not be: here the optional unit fits and is kept, so nothing is omitted; the unit gets the
      exact count, and the index behind it keeps the reserved one. */
  lemma EarlierIndexTakesTheCount(fp: Fingerprinter, results: string)
    requires Separates(fp) && |results| <= 1000
    ensures exists p: Projection ::
              ProjectedAs(fp, Crowded(results), {0}, p) && p.removed == 0
              && p.messages == [IndexMessage(results, 0), IndexMessage(results, 1)]
  {
    hide IndexText, Separates, Patched, Serialized, WithTranscript, SelectedAs, Chosen, Preview, Crowded, IndexMessage, Assembled;
    var t := Crowded(results);
    var x, index := t.input, IndexMessage(results, 1);
    CrowdedIsItsInput(fp, results);
    CrowdedHasRoom(fp, results);
    CrowdedIsSelected(fp, results);
    CrowdedIsPatched(fp, results);
    var q := ProjectionOf(WithIndex(x, index), {0});
    var p := Finished(x, Patched(fp, q.messages, index, IndexMessage(results, 0)), 0);
    assert IndexedAs(fp, x, results, {0}, p);
    assert ProjectedAs(fp, t, {0}, p);
  }

  lemma CrowdedHasRoom(fp: Fingerprinter, results: string)
    requires |results| <= 1000
    ensures var t := Crowded(results);
            && MostOmitted(t.input) == 1 && t.receipts.Some? && |AllUnits(WithIndex(t.input, IndexMessage(results, 1)))| == 1
            && Preview(t.input, t.receipts.value, MAX_DATA_PREVIEW, MAX_ARGUMENT_PREVIEW) == Some((MAX_DATA_PREVIEW, MAX_ARGUMENT_PREVIEW))
            && t.receipts.value(MAX_ARGUMENT_PREVIEW, MAX_DATA_PREVIEW) == results
  {
    hide Serialized, IndexText;
    IndexIsSmall(results, 1);
  }

  lemma CrowdedIsSelected(fp: Fingerprinter, results: string)
    requires |results| <= 1000
    ensures SelectedAs(fp, WithIndex(Crowded(results).input, IndexMessage(results, 1)), {0})
  {
    hide Serialized, IndexText, Spent, FingerprintOf;
    var x := WithIndex(Crowded(results).input, IndexMessage(results, 1));
    IndexIsSmall(results, 1);
    var all := AllUnits(x);
    assert all == Crowded(results).input.optional && x.suffix == [IndexMessage(results, 1)];
    OnlyUnitIsSelected(fp, all, Budget(x) - RequiredChars(x));
  }

  /** A single unit is selected if it fits. */
  lemma OnlyUnitIsSelected(fp: Fingerprinter, all: seq<ContextUnit>, remaining: int)
    requires |all| == 1 && Cost(all, 0) <= remaining
    ensures IsSelection(fp, all, remaining, {0})
  {
    assert SelectedAbove(all, {0}, 0) == {};
    SpentNothing(all, 0);
    hide Serialized, FingerprintOf;
  }

  lemma CrowdedIsPatched(fp: Fingerprinter, results: string)
    requires Separates(fp)
    ensures var x, index := Crowded(results).input, IndexMessage(results, 1);
            Patched(fp, Assembled(WithIndex(x, index), {0}), index, IndexMessage(results, 0))
            == [IndexMessage(results, 0), IndexMessage(results, 1)]
  {
    var x, index := Crowded(results).input, IndexMessage(results, 1);
    hide IndexText, Separates, Patched;
    var all := AllUnits(x);
    assert all == x.optional;
    assert Chosen(all, {0}, false, 1) == [] && Chosen(all, {0}, true, 1) == [];
    assert Lead(x, {0}) == [index] && Trail(x, {0}) == [];
    IndexIsPatched(fp, x, results, 0, {0});
  }
}
