/**
 The index of a turn's results: a message that is reserved with the largest
 omission count before the optional units are chosen, and patched with the exact
 one afterwards; and the bounded views that stand for results in the transcript.
 */
module ResultIndex {
  import opened Options
  import opened Wire
  import opened ToolProtocol
  import opened ContextBudget
  import opened TurnContext

  const INDEX_PREFIX := "CURRENT_TURN_RESULTS_UNTRUSTED_DATA="
  const MAX_DATA_PREVIEW := 1024
  const MAX_ARGUMENT_PREVIEW := 512

  /** The encoded receipts, given the bounds for argument and data previews. */
  type Receipts = (nat, nat) -> string

  // ----- result views -----

  function Viewed(m: Message, views: map<string, string>): Message {
    if IsTool(m) && m.toolCallId != "" && m.toolCallId in views
    then Message(TOOL, Some(views[m.toolCallId]), [], m.toolCallId)
    else m
  }

  function AllViewed(ms: seq<Message>, views: map<string, string>): (out: seq<Message>)
    ensures |out| == |ms|
  {
    seq(|ms|, i requires 0 <= i < |ms| => Viewed(ms[i], views))
  }

  method ProjectedObservationMessages(ms: seq<Message>, views: map<string, string>) returns (out: seq<Message>)
    ensures out == AllViewed(ms, views)
    ensures |out| == |ms| && forall i :: 0 <= i < |ms| ==>
              out[i] == if ms[i].role == TOOL && ms[i].toolCallId != "" && ms[i].toolCallId in views
                        then Message(TOOL, Some(views[ms[i].toolCallId]), [], ms[i].toolCallId) else ms[i]
  {
    out := ms;
    for i := 0 to |ms|
      invariant |out| == |ms|
      invariant forall k :: 0 <= k < |ms| ==> out[k] == if k < i then Viewed(ms[k], views) else ms[k]
    {
      if IsTool(out[i]) && out[i].toolCallId != "" && out[i].toolCallId in views {
        out := out[i := Message(TOOL, Some(views[out[i].toolCallId]), [], out[i].toolCallId)];
      }
    }
  }

  // ----- the index message -----

  function IndexText(results: string, omitted: nat): string {
    INDEX_PREFIX + "{\"results\":" + results + ",\"omittedContextUnits\":" + Decimal(omitted) + "}"
  }

  function IndexMessage(results: string, omitted: nat): Message {
    Message(USER, Some(IndexText(results, omitted)), [], "")
  }

  /** A smaller omission count never makes the index longer. */
  lemma IndexShrinks(results: string, fewer: nat, more: nat)
    requires fewer <= more
    ensures MessageLen(IndexMessage(results, fewer)) <= MessageLen(IndexMessage(results, more))
  {
    var head := INDEX_PREFIX + "{\"results\":" + results + ",\"omittedContextUnits\":";
    DecimalWidth(fewer, more);
    TextLen(head, fewer);
    TextLen(head, more);
  }

  lemma {:induction false} TextLen(head: string, n: nat)
    ensures EscapedLen(head + Decimal(n) + "}") == EscapedLen(head) + |Decimal(n)| + 1
  {
    EscapedLenConcat(head + Decimal(n), "}");
    EscapedLenConcat(head, Decimal(n));
    DecimalEscapes(n);
    assert EscapedLen("}") == 1 + EscapedLen("}"[1..]);
  }

  // ----- reserving it -----

  function MostOmitted(x: Input): nat {
    |x.optional| + |x.optionalTail|
  }

  predicate IndexFits(x: Input, receipts: Receipts, data: nat, arguments: nat) {
    Serialized([IndexMessage(receipts(arguments, data), MostOmitted(x))]) <= Budget(x) - RequiredChars(x)
  }

  /** The first of the halved preview bounds, down to no previews at all, whose index fits. */
  function Preview(x: Input, receipts: Receipts, data: nat, arguments: nat): (size: Option<(nat, nat)>)
    ensures size.Some? ==> IndexFits(x, receipts, size.value.0, size.value.1)
    ensures size.None? ==> !IndexFits(x, receipts, 0, 0) && !IndexFits(x, receipts, data, arguments)
    decreases data + arguments
  {
    if IndexFits(x, receipts, data, arguments) then Some((data, arguments))
    else if data == 0 && arguments == 0 then None
    else Preview(x, receipts, data / 2, arguments / 2)
  }

  /** There is room for one more message beside the required ones. */
  predicate HasRoom(x: Input, m: Message) {
    Serialized([m]) + Serialized(x.prefix) + Serialized(x.suffix) + Serialized(x.runtime) + 64
    <= (x.maxTokens - x.reserveTokens - x.manifestTokens) * 4
  }

  /** A bound that was halved k times. */
  function Halved(n: nat, k: nat): nat {
    if k == 0 then n else Halved(n / 2, k - 1)
  }

  /** The index with both preview bounds halved k times. */
  function HalvedIndex(x: Input, receipts: Receipts, data: nat, arguments: nat, k: nat): Message {
    IndexMessage(receipts(Halved(arguments, k), Halved(data, k)), |x.optional| + |x.optionalTail|)
  }

  lemma {:induction false} HalvedZero(k: nat)
    ensures Halved(0, k) == 0
  {
    if k > 0 { HalvedZero(k - 1); }
  }

  /** The bounds are halved no more often than it takes: a size that is found is the first whose index there is room
      for, and if none is found there is room for none. */
  lemma {:induction false} PreviewIsFirst(x: Input, receipts: Receipts, data: nat, arguments: nat)
    ensures var size := Preview(x, receipts, data, arguments);
            if size.Some? then
              exists k: nat :: size.value == (Halved(data, k), Halved(arguments, k))
                               && HasRoom(x, HalvedIndex(x, receipts, data, arguments, k))
                               && forall j: nat :: j < k ==> !HasRoom(x, HalvedIndex(x, receipts, data, arguments, j))
            else forall k: nat :: !HasRoom(x, HalvedIndex(x, receipts, data, arguments, k))
    decreases data + arguments
  {
    hide Serialized, IndexMessage;
    assert IndexFits(x, receipts, data, arguments) <==> HasRoom(x, HalvedIndex(x, receipts, data, arguments, 0));
    if !IndexFits(x, receipts, data, arguments) {
      if data == 0 && arguments == 0 {
        forall k: nat ensures !HasRoom(x, HalvedIndex(x, receipts, data, arguments, k)) { HalvedZero(k); }
      } else {
        PreviewIsFirst(x, receipts, data / 2, arguments / 2);
        NextHalf(x, receipts, data, arguments);
        hide HalvedIndex, HasRoom;
        var size := Preview(x, receipts, data, arguments);
        if size.Some? {
          var k: nat :| size.value == (Halved(data / 2, k), Halved(arguments / 2, k))
                        && HasRoom(x, HalvedIndex(x, receipts, data / 2, arguments / 2, k))
                        && forall j: nat :: j < k ==> !HasRoom(x, HalvedIndex(x, receipts, data / 2, arguments / 2, j));
          assert Halved(data, k + 1) == Halved(data / 2, k) && Halved(arguments, k + 1) == Halved(arguments / 2, k);
          assert HasRoom(x, HalvedIndex(x, receipts, data, arguments, k + 1));
          forall j: nat | j < k + 1 ensures !HasRoom(x, HalvedIndex(x, receipts, data, arguments, j)) {
            if j > 0 { assert !HasRoom(x, HalvedIndex(x, receipts, data / 2, arguments / 2, j - 1)); }
          }
        } else {
          forall k: nat ensures !HasRoom(x, HalvedIndex(x, receipts, data, arguments, k)) {
            if k > 0 { assert !HasRoom(x, HalvedIndex(x, receipts, data / 2, arguments / 2, k - 1)); }
          }
        }
      }
    }
  }

  lemma NextHalf(x: Input, receipts: Receipts, data: nat, arguments: nat)
    ensures forall k: nat :: k > 0 ==>
              HalvedIndex(x, receipts, data, arguments, k) == HalvedIndex(x, receipts, data / 2, arguments / 2, k - 1)
  {
    hide IndexMessage;
  }

  /** The shrinking loop. */
  method ShrinkIndex(x: Input, receipts: Receipts) returns (size: Option<(nat, nat)>)
    ensures size == Preview(x, receipts, MAX_DATA_PREVIEW, MAX_ARGUMENT_PREVIEW)
  {
    var data: nat, arguments: nat := MAX_DATA_PREVIEW, MAX_ARGUMENT_PREVIEW;
    var available := Budget(x) - RequiredChars(x);
    while true
      invariant Preview(x, receipts, data, arguments) == Preview(x, receipts, MAX_DATA_PREVIEW, MAX_ARGUMENT_PREVIEW)
      decreases data + arguments
    {
      var index := IndexMessage(receipts(arguments, data), MostOmitted(x));
      if Serialized([index]) <= available {
        return Some((data, arguments));
      }
      if data == 0 && arguments == 0 {
        return None;
      }
      data, arguments := data / 2, arguments / 2;
    }
  }

  function WithIndex(x: Input, index: Message): Input {
    x.(suffix := x.suffix + [index])
  }

  /** Once an index fits, adding it keeps the required part within the budget: the loop's exit
      makes the later required-context check succeed. */
  lemma ReservedIndexFits(x: Input, index: Message)
    requires Serialized([index]) <= Budget(x) - RequiredChars(x)
    ensures RequiredChars(WithIndex(x, index)) <= Budget(WithIndex(x, index))
  {
    SerializedConcat(x.suffix, [index]);
  }

  // ----- patching it -----

  /** The first message that is the wanted one, replaced. */
  function Patched(fp: Fingerprinter, ms: seq<Message>, wanted: Message, exact: Message): (out: seq<Message>)
    ensures |out| == |ms|
  {
    match FirstMatch(fp, ms, 0, wanted)
    case None => ms
    case Some(i) => ms[i := exact]
  }

  /** The loop that replaces the reserved index by the exact one. */
  method PatchIndex(fp: Fingerprinter, messages: seq<Message>, index: Message, exact: Message) returns (out: seq<Message>)
    ensures out == Patched(fp, messages, index, exact)
  {
    var i := 0;
    while i < |messages|
      invariant 0 <= i <= |messages|
      invariant FirstMatch(fp, messages, 0, index) == FirstMatch(fp, messages, i, index)
    {
      if Same(fp, messages[i], index) {
        return messages[i := exact];
      }
      i := i + 1;
    }
    out := messages;
  }

  /** Equal fingerprints of single messages mean the same role, text, call id and calls. */
  ghost predicate Separates(fp: Fingerprinter) {
    forall m, n :: fp([m]) == fp([n]) ==>
      m.role == n.role && Text(m) == Text(n) && m.toolCallId == n.toolCallId && m.calls == n.calls
  }

  /** Only the index itself has the fingerprint of the index. */
  lemma SameAsIndex(fp: Fingerprinter, m: Message, results: string, omitted: nat)
    requires Separates(fp) && Same(fp, m, IndexMessage(results, omitted))
    ensures m == IndexMessage(results, omitted)
  {
    assert |Text(m)| > 0;
  }

  lemma PatchShrinks(fp: Fingerprinter, ms: seq<Message>, results: string, fewer: nat, more: nat)
    requires Separates(fp) && fewer <= more
    ensures Serialized(Patched(fp, ms, IndexMessage(results, more), IndexMessage(results, fewer))) <= Serialized(ms)
  {
    var found := FirstMatch(fp, ms, 0, IndexMessage(results, more));
    if found.Some? {
      SameAsIndex(fp, ms[found.value], results, more);
      IndexShrinks(results, fewer, more);
      SerializedUpdate(ms, found.value, IndexMessage(results, fewer));
    }
  }

  lemma {:induction false} AtMostAll(selected: set<nat>, n: nat)
    requires forall i :: i in selected ==> i < n
    ensures |selected| <= n
  {
    if n > 0 {
      AtMostAll(selected - {n - 1}, n - 1);
    } else {
      assert selected == {};
    }
  }

  /** The exact count never exceeds the one reserved for, and patching it in never grows the
      request, whichever message carries the index's fingerprint. */
  lemma PatchNeverGrows(fp: Fingerprinter, x: Input, results: string, selected: set<nat>)
    requires Separates(fp)
    requires forall i :: i in selected ==> i < |AllUnits(x)|
    ensures var index := IndexMessage(results, MostOmitted(x));
            var p := ProjectionOf(WithIndex(x, index), selected);
            0 <= p.removed <= MostOmitted(x)
            && Serialized(Patched(fp, p.messages, index, IndexMessage(results, p.removed))) <= Serialized(p.messages)
  {
    var index := IndexMessage(results, MostOmitted(x));
    AtMostAll(selected, |AllUnits(x)|);
    var p := ProjectionOf(WithIndex(x, index), selected);
    assert AllUnits(WithIndex(x, index)) == AllUnits(x);
    PatchShrinks(fp, p.messages, results, p.removed, MostOmitted(x));
  }

  lemma PatchAround(fp: Fingerprinter, lead: seq<Message>, index: Message, trail: seq<Message>, exact: Message)
    requires forall m :: Same(fp, m, index) ==> m == index
    ensures var out := Patched(fp, lead + [index] + trail, index, exact);
            (index !in lead ==> out == lead + [exact] + trail)
            && (index in lead ==> exists i :: 0 <= i < |lead| && lead[i] == index && out == lead[i := exact] + [index] + trail)
  {
    var ms := lead + [index] + trail;
    var found := FirstMatch(fp, ms, 0, index);
    assert ms[|lead|] == index && Same(fp, ms[|lead|], index);
    assert forall i :: 0 <= i < |lead| ==> lead[i] == ms[i];
    assert found.value <= |lead|;
    if found.value < |lead| {
      assert lead[found.value] == index;
      assert ms[found.value := exact] == lead[found.value := exact] + [index] + trail;
    } else {
      assert ms[|lead| := exact] == lead + [exact] + trail;
    }
  }

  /** A plain message may be replaced by another one. */
  lemma PlainSwap(ms: seq<Message>, i: nat, m: Message)
    requires ProtocolValid(ms) && i < |ms| && Plain(ms[i]) && Plain(m)
    ensures ProtocolValid(ms[i := m])
  {
    var out := ms[i := m];
    forall j, k ensures Answers(out, j, k) <==> Answers(ms, j, k) {
      SwapAnswers(ms, i, m, j, k);
    }
    hide Answers, AnsweredOnce;
    forall k | 0 <= k < |out| && IsTool(out[k]) ensures exists j :: Answers(out, j, k) {
      var j :| Answers(ms, j, k);
    }
    forall j, id | 0 <= j < |out| && !IsTool(out[j]) && id in Ids(out[j].calls) ensures AnsweredOnce(out, j, id) {
      SwapAnsweredOnce(ms, i, m, j, id);
    }
  }

  lemma SwapAnsweredOnce(ms: seq<Message>, i: nat, m: Message, j: nat, id: string)
    requires i < |ms| && Plain(ms[i]) && Plain(m) && j < |ms| && AnsweredOnce(ms, j, id)
    ensures AnsweredOnce(ms[i := m], j, id)
  {
    var out := ms[i := m];
    forall k ensures Answers(out, j, k) <==> Answers(ms, j, k)
             ensures Answers(ms, j, k) ==> out[k] == ms[k]
    {
      SwapAnswers(ms, i, m, j, k);
    }
    hide Answers;
    var k :| Answers(ms, j, k) && ms[k].toolCallId == id;
    assert Answers(out, j, k) && out[k].toolCallId == id;
  }

  lemma SwapAnswers(ms: seq<Message>, i: nat, m: Message, j: int, k: int)
    requires i < |ms| && Plain(ms[i]) && Plain(m)
    ensures Answers(ms[i := m], j, k) <==> Answers(ms, j, k)
  {
    if 0 <= j < k < |ms| {
      assert forall l :: 0 <= l < |ms| ==> IsTool(ms[i := m][l]) == IsTool(ms[l]);
    }
  }

  lemma PatchIsValid(fp: Fingerprinter, ms: seq<Message>, results: string, reserved: nat, exact: nat)
    requires Separates(fp) && ProtocolValid(ms)
    ensures ProtocolValid(Patched(fp, ms, IndexMessage(results, reserved), IndexMessage(results, exact)))
  {
    var found := FirstMatch(fp, ms, 0, IndexMessage(results, reserved));
    if found.Some? {
      SameAsIndex(fp, ms[found.value], results, reserved);
      PlainSwap(ms, found.value, IndexMessage(results, exact));
    }
  }
}
