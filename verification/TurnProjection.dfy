/**
 ProjectTurn: the boundary every model call of a turn goes through. The required
 messages are taken out of the transcript, tool results are replaced by their
 bounded views, the rest is offered as whole units, and a result index is
 reserved and patched.
 */
module TurnProjection {
  import opened Options
  import opened Wire
  import opened ToolProtocol
  import opened ContextBudget
  import opened TurnContext
  import opened ResultIndex

  /** `receipts` is None when the store holds no result. The manifest cost is part of the input. */
  datatype Turn = Turn(transcript: seq<Message>, views: map<string, string>, receipts: Option<Receipts>, input: Input)

  // ----- the pieces of a turn -----

  function Unmatched(fp: Fingerprinter, ms: seq<Message>, runtime: seq<Message>): seq<Message> {
    At(ms, Rest(|ms|, MatchesFromEnd(fp, ms, |ms|, runtime)))
  }

  /** The transcript without the current runtime messages, with results as their views. */
  function Clean(fp: Fingerprinter, t: Turn): seq<Message> {
    AllViewed(Unmatched(fp, t.transcript, t.input.runtime), t.views)
  }

  /** The caller's input with the units of the transcript added on both sides. */
  function WithTranscript(fp: Fingerprinter, t: Turn): Input {
    var x, ms := t.input, Clean(fp, t);
    x.(optional := x.optional + Cut(fp, ms, x.prefix, x.suffix, false),
       optionalTail := x.optionalTail + Cut(fp, ms, x.prefix, x.suffix, true))
  }

  lemma TranscriptKeepsLimits(fp: Fingerprinter, t: Turn)
    ensures Budget(WithTranscript(fp, t)) == Budget(t.input)
    ensures var x := WithTranscript(fp, t);
            x.maxTokens == t.input.maxTokens && x.reserveTokens == t.input.reserveTokens
            && x.manifestTokens == t.input.manifestTokens
            && x.prefix == t.input.prefix && x.suffix == t.input.suffix && x.runtime == t.input.runtime
  {
  }

  function Finished(x: Input, messages: seq<Message>, removed: int): Projection {
    var chars := Serialized(messages) + REQUEST_ENVELOPE_CHARS;
    Projection(messages, chars, (chars + 3) / 4, Budget(x), removed)
  }

  ghost predicate SelectedAs(fp: Fingerprinter, x: Input, selected: set<nat>) {
    ValidLimits(x) && RequiredChars(x) <= Budget(x)
    && IsSelection(fp, AllUnits(x), Budget(x) - RequiredChars(x), selected)
  }

  /** The outcome with the given receipts reserved as an index and patched. */
  ghost predicate IndexedAs(fp: Fingerprinter, x: Input, results: string, selected: set<nat>, p: Projection) {
    var index := IndexMessage(results, MostOmitted(x));
    var q := ProjectionOf(WithIndex(x, index), selected);
    SelectedAs(fp, WithIndex(x, index), selected) && q.removed >= 0
    && p == Finished(x, Patched(fp, q.messages, index, IndexMessage(results, q.removed)), q.removed)
  }

  /** p is the outcome of ProjectTurn for the given selection of units. */
  ghost predicate ProjectedAs(fp: Fingerprinter, t: Turn, selected: set<nat>, p: Projection) {
    var x := WithTranscript(fp, t);
    match t.receipts
    case None => SelectedAs(fp, x, selected) && p == ProjectionOf(x, selected)
    case Some(receipts) =>
      var size := Preview(x, receipts, MAX_DATA_PREVIEW, MAX_ARGUMENT_PREVIEW);
      size.Some? && IndexedAs(fp, x, receipts(size.value.1, size.value.0), selected, p)
  }

  lemma IndexedOutcome(fp: Fingerprinter, t: Turn, selected: set<nat>, p: Projection)
    requires t.receipts.Some? && ProjectedAs(fp, t, selected, p)
    ensures exists results :: IndexedAs(fp, WithTranscript(fp, t), results, selected, p)
  {
  }

  // ----- every request fits -----

  /** Every request of a turn fits: its exact size is reported, with the least number of four-character tokens that
      holds it; it is within the character budget, and its tokens with reserve and manifest are within the maximum. */
  lemma TurnFits(fp: Fingerprinter, t: Turn, selected: set<nat>, p: Projection)
    requires Separates(fp) && ProjectedAs(fp, t, selected, p)
    ensures p.chars == Serialized(p.messages) + REQUEST_ENVELOPE_CHARS
    ensures p.chars <= 4 * p.tokens < p.chars + 4
    ensures p.budget == Budget(t.input) && p.chars <= p.budget
    ensures p.tokens + t.input.reserveTokens + t.input.manifestTokens <= t.input.maxTokens
  {
    var x := WithTranscript(fp, t);
    TranscriptKeepsLimits(fp, t);
    hide *;
    if t.receipts.None? {
      PlainFits(fp, t, selected, p);
    } else {
      IndexedOutcome(fp, t, selected, p);
      var results :| IndexedAs(fp, x, results, selected, p);
      IndexedFits(fp, x, results, selected, p);
    }
  }

  lemma PlainFits(fp: Fingerprinter, t: Turn, selected: set<nat>, p: Projection)
    requires t.receipts.None? && ProjectedAs(fp, t, selected, p)
    ensures p.chars == Serialized(p.messages) + REQUEST_ENVELOPE_CHARS
    ensures var x := WithTranscript(fp, t);
            p.chars <= 4 * p.tokens < p.chars + 4
            && p.budget == Budget(x) && p.chars <= p.budget && p.tokens + x.reserveTokens + x.manifestTokens <= x.maxTokens
  {
    ProjectionFits(fp, WithTranscript(fp, t), selected);
  }

  lemma IndexedFits(fp: Fingerprinter, x: Input, results: string, selected: set<nat>, p: Projection)
    requires Separates(fp) && IndexedAs(fp, x, results, selected, p)
    ensures p.chars == Serialized(p.messages) + REQUEST_ENVELOPE_CHARS
    ensures p.chars <= 4 * p.tokens < p.chars + 4
    ensures p.budget == Budget(x) && p.chars <= p.budget && p.tokens + x.reserveTokens + x.manifestTokens <= x.maxTokens
  {
    var z := WithIndex(x, IndexMessage(results, MostOmitted(x)));
    ProjectionFits(fp, z, selected);
    assert AllUnits(z) == AllUnits(x);
    PatchNeverGrows(fp, x, results, selected);
  }

  // ----- what a request consists of -----

  /** What stands before the index in the request. */
  function Lead(x: Input, selected: set<nat>): seq<Message> {
    x.prefix + Chosen(AllUnits(x), selected, false, 0) + x.suffix
  }

  function Trail(x: Input, selected: set<nat>): seq<Message> {
    Chosen(AllUnits(x), selected, true, 0) + x.runtime
  }

  lemma AssembledAroundIndex(x: Input, index: Message, selected: set<nat>)
    ensures Assembled(WithIndex(x, index), selected) == Lead(x, selected) + [index] + Trail(x, selected)
  {
    assert AllUnits(WithIndex(x, index)) == AllUnits(x);
  }

  /** The request is the required messages around whole units in their order, with the exact
      index behind the newest request, unless an earlier message already reads like the reserved
      index: then that one is patched, and the index keeps the largest count. */
  lemma IndexIsPatched(fp: Fingerprinter, x: Input, results: string, removed: nat, selected: set<nat>)
    requires Separates(fp)
    ensures var index, exact := IndexMessage(results, MostOmitted(x)), IndexMessage(results, removed);
            var lead, trail := Lead(x, selected), Trail(x, selected);
            var out := Patched(fp, Assembled(WithIndex(x, index), selected), index, exact);
            (index !in lead ==> out == lead + [exact] + trail)
            && (index in lead ==> exists i :: 0 <= i < |lead| && lead[i] == index && out == lead[i := exact] + [index] + trail)
  {
    var index, exact := IndexMessage(results, MostOmitted(x)), IndexMessage(results, removed);
    AssembledAroundIndex(x, index, selected);
    forall m | Same(fp, m, index) ensures m == index {
      SameAsIndex(fp, m, results, MostOmitted(x));
    }
    PatchAround(fp, Lead(x, selected), index, Trail(x, selected), exact);
  }

  /** All required messages are in the request, in their order: the prefix first, then the suffix, the
      runtime messages last. Only a required message that is itself an index could be patched. */
  lemma RequiredAreKept(fp: Fingerprinter, t: Turn, selected: set<nat>, p: Projection)
    requires Separates(fp) && ProjectedAs(fp, t, selected, p)
    requires forall results, n :: IndexMessage(results, n) !in t.input.prefix && IndexMessage(results, n) !in t.input.suffix
    ensures exists mid, rest :: p.messages == t.input.prefix + mid + t.input.suffix + rest + t.input.runtime
  {
    var x := WithTranscript(fp, t);
    TranscriptKeepsLimits(fp, t);
    var head, tail := Chosen(AllUnits(x), selected, false, 0), Chosen(AllUnits(x), selected, true, 0);
    if t.receipts.None? {
      assert p.messages == t.input.prefix + head + t.input.suffix + tail + t.input.runtime;
    } else {
      IndexedOutcome(fp, t, selected, p);
      hide ProjectedAs, WithTranscript, Chosen, IndexText;
      var results :| IndexedAs(fp, x, results, selected, p);
      IndexIsPatched(fp, x, results, p.removed, selected);
      PatchedParts(x.prefix, head, x.suffix, tail, x.runtime, IndexMessage(results, MostOmitted(x)),
                   IndexMessage(results, p.removed), p.messages);
    }
  }

  lemma InMiddle(prefix: seq<Message>, head: seq<Message>, suffix: seq<Message>, i: nat)
    requires i < |prefix + head + suffix|
    requires (prefix + head + suffix)[i] !in prefix && (prefix + head + suffix)[i] !in suffix
    ensures |prefix| <= i < |prefix| + |head|
  {
  }

  lemma PatchedParts(prefix: seq<Message>, head: seq<Message>, suffix: seq<Message>, tail: seq<Message>, runtime: seq<Message>,
                     index: Message, exact: Message, out: seq<Message>)
    requires index !in prefix && index !in suffix
    requires var lead := prefix + head + suffix;
             out == lead + [exact] + (tail + runtime)
             || exists i :: 0 <= i < |lead| && lead[i] == index && out == lead[i := exact] + [index] + (tail + runtime)
    ensures exists mid, rest :: out == prefix + mid + suffix + rest + runtime
  {
    var lead := prefix + head + suffix;
    if out == lead + [exact] + (tail + runtime) {
      assert out == prefix + head + suffix + ([exact] + tail) + runtime;
    } else {
      var i :| 0 <= i < |lead| && lead[i] == index && out == lead[i := exact] + [index] + (tail + runtime);
      assert forall k :: 0 <= k < |prefix| ==> lead[k] == prefix[k];
      assert forall k :: 0 <= k < |suffix| ==> lead[|prefix| + |head| + k] == suffix[k];
      InMiddle(prefix, head, suffix, i);
      var mid := head[i - |prefix| := exact];
      assert lead[i := exact] == prefix + mid + suffix;
      assert out == prefix + mid + suffix + ([index] + tail) + runtime;
    }
  }

  // ----- every request is a valid transcript -----

  ghost predicate AllPlain(ms: seq<Message>) {
    forall i :: 0 <= i < |ms| ==> Plain(ms[i])
  }

  ghost predicate AllValid(units: seq<ContextUnit>) {
    forall i :: 0 <= i < |units| ==> ProtocolValid(units[i].messages)
  }

  lemma {:induction false} ChosenIsValid(all: seq<ContextUnit>, selected: set<nat>, tail: bool, i: nat)
    requires AllValid(all) && i <= |all|
    ensures ProtocolValid(Chosen(all, selected, tail, i))
    decreases |all| - i
  {
    hide *;
    if i == |all| {
      NoneChosen(all, selected, tail);
    } else {
      ChosenIsValid(all, selected, tail, i + 1);
      HereIsValid(all, selected, tail, i);
      ValidConcat(Here(all, selected, tail, i), Chosen(all, selected, tail, i + 1));
      ChosenNext(all, selected, tail, i);
    }
  }

  lemma {:induction false} NoneChosen(all: seq<ContextUnit>, selected: set<nat>, tail: bool)
    ensures ProtocolValid(Chosen(all, selected, tail, |all|))
  {
    PlainIsValid([]);
  }

  lemma ChosenNext(all: seq<ContextUnit>, selected: set<nat>, tail: bool, i: nat)
    requires i < |all|
    ensures Chosen(all, selected, tail, i) == Here(all, selected, tail, i) + Chosen(all, selected, tail, i + 1)
  {
  }

  lemma HereIsValid(all: seq<ContextUnit>, selected: set<nat>, tail: bool, i: nat)
    requires AllValid(all) && i < |all|
    ensures ProtocolValid(Here(all, selected, tail, i))
  {
    PlainIsValid([]);
    hide ProtocolValid;
  }

  lemma AssembledIsValid(x: Input, selected: set<nat>)
    requires AllPlain(x.prefix) && AllPlain(x.suffix) && AllPlain(x.runtime) && AllValid(x.optional) && AllValid(x.optionalTail)
    ensures ProtocolValid(Assembled(x, selected))
  {
    var all := AllUnits(x);
    hide ProtocolValid;
    PlainIsValid(x.prefix);
    PlainIsValid(x.suffix);
    PlainIsValid(x.runtime);
    ChosenIsValid(all, selected, false, 0);
    ChosenIsValid(all, selected, true, 0);
    var head, tail := Chosen(all, selected, false, 0), Chosen(all, selected, true, 0);
    ValidConcat(x.prefix, head);
    ValidConcat(x.prefix + head, x.suffix);
    ValidConcat(x.prefix + head + x.suffix, tail);
    ValidConcat(x.prefix + head + x.suffix + tail, x.runtime);
  }

  lemma CutInputIsValid(fp: Fingerprinter, t: Turn)
    requires AllValid(t.input.optional) && AllValid(t.input.optionalTail)
    ensures AllValid(WithTranscript(fp, t).optional) && AllValid(WithTranscript(fp, t).optionalTail)
  {
    var ms := Clean(fp, t);
    CutIsValid(fp, ms, t.input.prefix, t.input.suffix, false);
    CutIsValid(fp, ms, t.input.prefix, t.input.suffix, true);
  }

  /** Whatever the transcript holds, the projected request is tool-protocol valid: every result
      follows its call, and every call that is kept is answered exactly once. */
  lemma TurnIsValid(fp: Fingerprinter, t: Turn, selected: set<nat>, p: Projection)
    requires Separates(fp) && ProjectedAs(fp, t, selected, p)
    requires AllPlain(t.input.prefix) && AllPlain(t.input.suffix) && AllPlain(t.input.runtime)
    requires AllValid(t.input.optional) && AllValid(t.input.optionalTail)
    ensures ProtocolValid(p.messages)
  {
    var x := WithTranscript(fp, t);
    CutInputIsValid(fp, t);
    TranscriptKeepsLimits(fp, t);
    if t.receipts.None? {
      AssembledIsValid(x, selected);
    } else {
      IndexedOutcome(fp, t, selected, p);
      hide ProtocolValid, WithTranscript, ProjectedAs;
      var results :| IndexedAs(fp, x, results, selected, p);
      IndexedIsValid(fp, x, results, selected, p);
    }
  }

  lemma IndexedIsValid(fp: Fingerprinter, x: Input, results: string, selected: set<nat>, p: Projection)
    requires Separates(fp) && IndexedAs(fp, x, results, selected, p)
    requires AllPlain(x.prefix) && AllPlain(x.suffix) && AllPlain(x.runtime) && AllValid(x.optional) && AllValid(x.optionalTail)
    ensures ProtocolValid(p.messages)
  {
    hide ProtocolValid;
    var z := WithIndex(x, IndexMessage(results, MostOmitted(x)));
    AssembledIsValid(z, selected);
    PatchIsValid(fp, Assembled(z, selected), results, MostOmitted(x), p.removed);
  }

  // ----- the runtime messages of a correction round -----

  lemma {:induction false} RestOfNothing(n: nat)
    ensures Rest(n, {}) == seq(n, i => i)
  {
    if n > 0 {
      RestOfNothing(n - 1);
    }
  }

  /** A correction round names the correction, which is in the transcript, and the status, which never
      is. The status uses up the backward scan, so the correction is not taken out: it is offered
      again as an optional unit beside its required copy. */
  lemma CorrectionIsOfferedAgain(fp: Fingerprinter, t: Turn, correction: Message, status: Message, i: nat)
    requires t.input.runtime == [correction, status]
    requires forall k :: 0 <= k < |t.transcript| ==> !Same(fp, t.transcript[k], status)
    requires i < |t.transcript| && t.transcript[i] == correction && Plain(correction)
    requires forall m :: m in t.input.prefix || m in t.input.suffix ==> !Same(fp, correction, m)
    ensures exists unit :: unit in WithTranscript(fp, t).optional + WithTranscript(fp, t).optionalTail && unit.messages == [correction]
  {
    var ms, x := t.transcript, t.input;
    assert x.runtime == [correction] + [status];
    MissingHidesEarlier(fp, ms, [correction], status);
    RestOfNothing(|ms|);
    assert Unmatched(fp, ms, x.runtime) == ms;
    assert Clean(fp, t)[i] == correction;
    UnrequiredIsOffered(fp, t, i);
  }

  /** A plain message that is like none of the required ones is offered. */
  lemma UnrequiredIsOffered(fp: Fingerprinter, t: Turn, i: nat)
    requires i < |Clean(fp, t)| && Plain(Clean(fp, t)[i])
    requires forall m :: m in t.input.prefix || m in t.input.suffix ==> !Same(fp, Clean(fp, t)[i], m)
    ensures exists unit :: unit in WithTranscript(fp, t).optional + WithTranscript(fp, t).optionalTail
                           && unit.messages == [Clean(fp, t)[i]]
  {
    var clean, x := Clean(fp, t), t.input;
    NotRequired(fp, clean, 0, x.prefix, i);
    NotRequiredBack(fp, clean, |clean|, x.suffix, i);
    PlainIsOffered(fp, clean, x.prefix, x.suffix, i);
    hide Clean, Plain, Cut, MatchesFromStart, MatchesFromEnd, Same;
    var last := MatchesFromEnd(fp, clean, |clean|, x.suffix);
    var tail := last != {} && forall k :: k in last ==> k < i;
    var unit := ContextUnit("", if tail then 90 else 50, 0, [clean[i]], false);
    assert unit in Cut(fp, clean, x.prefix, x.suffix, tail);
  }

  lemma {:induction false} NotRequired(fp: Fingerprinter, ms: seq<Message>, from: nat, required: seq<Message>, i: nat)
    requires from <= |ms| && i < |ms| && forall m :: m in required ==> !Same(fp, ms[i], m)
    ensures i !in MatchesFromStart(fp, ms, from, required)
    decreases |required|
  {
    if required != [] {
      var found := FirstMatch(fp, ms, from, required[0]);
      if found.Some? { NotRequired(fp, ms, found.value + 1, required[1..], i); }
    }
  }

  lemma {:induction false} NotRequiredBack(fp: Fingerprinter, ms: seq<Message>, end: nat, required: seq<Message>, i: nat)
    requires end <= |ms| && i < |ms| && forall m :: m in required ==> !Same(fp, ms[i], m)
    ensures i !in MatchesFromEnd(fp, ms, end, required)
    decreases |required|
  {
    if required != [] {
      var n := |required| - 1;
      var found := LastMatch(fp, ms, end, required[n]);
      if found.Some? { NotRequiredBack(fp, ms, found.value, required[..n], i); }
    }
  }

  // ----- the method -----

  /** Whether the required part fits: without results itself, with results the index reserved with it. */
  ghost predicate Affordable(fp: Fingerprinter, t: Turn) {
    var x := WithTranscript(fp, t);
    match t.receipts
    case None => RequiredChars(x) <= Budget(x)
    case Some(receipts) => Preview(x, receipts, MAX_DATA_PREVIEW, MAX_ARGUMENT_PREVIEW).Some?
  }

  /** The required part is affordable exactly if there is room for it, or with results for an index with some halved
      preview bounds beside it. */
  lemma AffordableExactly(fp: Fingerprinter, t: Turn)
    ensures var x := t.input;
            t.receipts.None? ==>
              (Affordable(fp, t)
               <==> Serialized(x.prefix) + Serialized(x.suffix) + Serialized(x.runtime) + 64
                    <= (x.maxTokens - x.reserveTokens - x.manifestTokens) * 4)
    ensures t.receipts.Some? ==>
              (Affordable(fp, t)
               <==> exists k: nat ::
                      HasRoom(WithTranscript(fp, t),
                              HalvedIndex(WithTranscript(fp, t), t.receipts.value, MAX_DATA_PREVIEW, MAX_ARGUMENT_PREVIEW, k)))
  {
    hide Serialized, HasRoom, HalvedIndex, Preview, WithTranscript;
    TranscriptKeepsLimits(fp, t);
    if t.receipts.Some? {
      PreviewIsFirst(WithTranscript(fp, t), t.receipts.value, MAX_DATA_PREVIEW, MAX_ARGUMENT_PREVIEW);
    }
  }

  /** The order in which the error conditions are met. */
  function TurnError(x: Input, noIndex: bool): Error {
    if noIndex then ReceiptsTooLarge
    else if !(0 < x.maxTokens <= MAX_CONTEXT_TOKENS) then BadMaxTokens
    else if !ValidLimits(x) then BadReserve
    else RequiredTooLarge
  }

  /** ProjectTurn. */
  method ProjectTurn(fp: Fingerprinter, t: Turn) returns (result: Result, ghost selected: set<nat>)
    ensures result.Ok? ==> ProjectedAs(fp, t, selected, result.projection)
    ensures result.Ok? <==> ValidLimits(t.input) && Affordable(fp, t)
    ensures result.Err? ==> result.error == TurnError(t.input, t.receipts.Some? && !Affordable(fp, t))
  {
    hide IsSelection, Serialized, Assembled, Cut, Rest, MatchesFromEnd;
    var runtimeAt := MatchRequiredFromEnd(fp, t.transcript, t.input.runtime);
    var transcript, _ := CollectRest(t.transcript, runtimeAt, {});
    var clean := ProjectedObservationMessages(transcript, t.views);
    var before, after := SplitTurnContext(fp, clean, t.input.prefix, t.input.suffix);
    assert clean == Clean(fp, t);
    var x := t.input.(optional := t.input.optional + before, optionalTail := t.input.optionalTail + after);
    assert x == WithTranscript(fp, t);
    if t.receipts.None? {
      result, selected := Project(fp, x);
      return;
    }
    var receipts := t.receipts.value;
    var size := ShrinkIndex(x, receipts);
    if size.None? {
      return Err(ReceiptsTooLarge), {};
    }
    result, selected := ProjectWithIndex(fp, x, receipts(size.value.1, size.value.0));
  }

  /** The projection with the reserved index, and the patch. */
  method ProjectWithIndex(fp: Fingerprinter, x: Input, results: string) returns (result: Result, ghost selected: set<nat>)
    requires Serialized([IndexMessage(results, MostOmitted(x))]) <= Budget(x) - RequiredChars(x)
    ensures result.Ok? <==> ValidLimits(x)
    ensures result.Err? ==> result.error == if !(0 < x.maxTokens <= MAX_CONTEXT_TOKENS) then BadMaxTokens else BadReserve
    ensures result.Ok? ==> IndexedAs(fp, x, results, selected, result.projection)
  {
    hide IsSelection, IndexText, Serialized, Assembled;
    var index := IndexMessage(results, MostOmitted(x));
    var z := WithIndex(x, index);
    ReservedIndexFits(x, index);
    result, selected := Project(fp, z);
    if result.Ok? {
      AtMostAll(selected, |AllUnits(z)|);
      var q := result.projection;
      var messages := PatchIndex(fp, q.messages, index, IndexMessage(results, q.removed));
      result := Ok(Finished(x, messages, q.removed));
    }
  }
}
