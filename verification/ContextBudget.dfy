/**
 ContextBudgeter.Project: required messages, then whole optional units chosen
 greedily by rank under a character budget, put back in their original order.
 */
module ContextBudget {
  import opened Wire

  const MAX_CONTEXT_TOKENS := 1_000_000
  const REQUEST_ENVELOPE_CHARS := 64

  /** The smallest removable item. An empty fingerprint is computed from the messages. */
  datatype ContextUnit = ContextUnit(fingerprint: string, priority: int, timestamp: int, messages: seq<Message>, tail: bool)

  datatype Input = Input(prefix: seq<Message>, optional: seq<ContextUnit>, suffix: seq<Message>,
                         optionalTail: seq<ContextUnit>, runtime: seq<Message>,
                         maxTokens: int, reserveTokens: int, manifestTokens: int)

  datatype Projection = Projection(messages: seq<Message>, chars: nat, tokens: nat, budget: int, removed: int)

  datatype Error = BadMaxTokens | BadReserve | RequiredTooLarge | ReceiptsTooLarge

  datatype Result = Ok(projection: Projection) | Err(error: Error)

  /** The fingerprint of a message list; a hash in the source. */
  type Fingerprinter = seq<Message> -> string

  function Budget(x: Input): int {
    (x.maxTokens - x.reserveTokens - x.manifestTokens) * 4
  }

  function RequiredChars(x: Input): nat {
    Serialized(x.prefix) + Serialized(x.suffix) + Serialized(x.runtime) + REQUEST_ENVELOPE_CHARS
  }

  /** The units in order, those of the tail marked as such. */
  function AllUnits(x: Input): (all: seq<ContextUnit>)
    ensures |all| == |x.optional| + |x.optionalTail|
  {
    seq(|x.optional| + |x.optionalTail|, i requires 0 <= i < |x.optional| + |x.optionalTail| =>
      if i < |x.optional| then x.optional[i] else x.optionalTail[i - |x.optional|].(tail := true))
  }

  function FingerprintOf(fp: Fingerprinter, u: ContextUnit): string {
    if u.fingerprint == "" then fp(u.messages) else u.fingerprint
  }

  /** The rank used for selection: priority, then recency, then position; higher first. */
  predicate Above(all: seq<ContextUnit>, i: nat, j: nat)
    requires i < |all| && j < |all|
  {
    if all[i].priority != all[j].priority then all[i].priority > all[j].priority
    else if all[i].timestamp != all[j].timestamp then all[i].timestamp > all[j].timestamp
    else i > j
  }

  /** Of the units with one fingerprint, the highest ranked stays. */
  predicate Kept(fp: Fingerprinter, all: seq<ContextUnit>, i: nat)
    requires i < |all|
  {
    forall j :: 0 <= j < |all| && j != i && FingerprintOf(fp, all[j]) == FingerprintOf(fp, all[i]) ==> Above(all, i, j)
  }

  function KeptUnits(fp: Fingerprinter, all: seq<ContextUnit>): set<nat> {
    set i: nat | i < |all| && Kept(fp, all, i)
  }

  function Cost(all: seq<ContextUnit>, i: nat): nat
    requires i < |all|
  {
    Serialized(all[i].messages)
  }

  predicate Within(all: seq<ContextUnit>, ids: seq<nat>) {
    forall k :: 0 <= k < |ids| ==> ids[k] < |all|
  }

  predicate Descending(all: seq<ContextUnit>, ids: seq<nat>)
    requires Within(all, ids)
  {
    forall k, l :: 0 <= k < l < |ids| ==> Above(all, ids[k], ids[l])
  }

  /** ids lists the given units from the highest rank to the lowest. */
  ghost predicate IsRanking(all: seq<ContextUnit>, units: set<nat>, ids: seq<nat>) {
    Within(all, ids) && Descending(all, ids) && (forall i :: i in ids <==> i in units)
  }

  /** One pass down the ranking: take each unit that still fits. */
  function Greedy(all: seq<ContextUnit>, ids: seq<nat>, remaining: int): (taken: set<nat>)
    requires Within(all, ids)
    ensures forall i :: i in taken ==> i in ids
  {
    if ids == [] then {}
    else if Cost(all, ids[0]) <= remaining then {ids[0]} + Greedy(all, ids[1..], remaining - Cost(all, ids[0]))
    else Greedy(all, ids[1..], remaining)
  }

  /** The messages that unit i contributes to the head (or tail) part. */
  function Here(all: seq<ContextUnit>, selected: set<nat>, tail: bool, i: nat): seq<Message>
    requires i < |all|
  {
    if i in selected && all[i].tail == tail then all[i].messages else []
  }

  /** The messages of the selected head (or tail) units from position i on, in original order. */
  function Chosen(all: seq<ContextUnit>, selected: set<nat>, tail: bool, i: nat): seq<Message>
    requires i <= |all|
    decreases |all| - i
  {
    if i == |all| then []
    else Here(all, selected, tail, i) + Chosen(all, selected, tail, i + 1)
  }

  function Assembled(x: Input, selected: set<nat>): seq<Message> {
    var all := AllUnits(x);
    x.prefix + Chosen(all, selected, false, 0) + x.suffix + Chosen(all, selected, true, 0) + x.runtime
  }

  // ----- ranking -----

  lemma AboveIsTotal(all: seq<ContextUnit>, i: nat, j: nat)
    requires i < |all| && j < |all|
    ensures i != j ==> (Above(all, i, j) <==> !Above(all, j, i))
    ensures !Above(all, i, i)
  {
  }

  lemma AboveIsTransitive(all: seq<ContextUnit>, i: nat, j: nat, k: nat)
    requires i < |all| && j < |all| && k < |all| && Above(all, i, j) && Above(all, j, k)
    ensures Above(all, i, k)
  {
  }

  lemma HasElement(ids: seq<nat>)
    requires ids != []
    ensures exists i :: i in ids
  {
    assert ids[0] in ids;
  }

  /** There is only one way to rank a set of units, so the iteration order of a map cannot matter. */
  lemma {:induction false} RankingIsUnique(all: seq<ContextUnit>, units: set<nat>, a: seq<nat>, b: seq<nat>)
    requires IsRanking(all, units, a) && IsRanking(all, units, b)
    ensures a == b
    decreases |a|
  {
    if a == [] {
      if b != [] { HasElement(b); }
    } else {
      assert a[0] in b && b != [];
      assert b[0] in a;
      assert a[0] == b[0] by {
        AboveIsTotal(all, a[0], b[0]);
      }
      TailRanking(all, units, a);
      TailRanking(all, units, b);
      RankingIsUnique(all, units - {a[0]}, a[1..], b[1..]);
      assert a == [a[0]] + a[1..] && b == [b[0]] + b[1..];
    }
  }

  lemma TailRanking(all: seq<ContextUnit>, units: set<nat>, ids: seq<nat>)
    requires IsRanking(all, units, ids) && ids != []
    ensures IsRanking(all, units - {ids[0]}, ids[1..])
  {
    forall i ensures i in ids[1..] <==> i in units - {ids[0]} {
      if i in ids[1..] {
        var k :| 1 <= k < |ids| && ids[k] == i;
        assert Above(all, ids[0], ids[k]);
      }
    }
  }

  lemma {:induction false} RankingExists(all: seq<ContextUnit>, units: set<nat>)
    requires forall i :: i in units ==> i < |all|
    ensures exists ids :: IsRanking(all, units, ids)
    decreases |units|
  {
    if units == {} {
      assert IsRanking(all, units, []);
    } else {
      var top := Top(all, units);
      RankingExists(all, units - {top});
      var rest :| IsRanking(all, units - {top}, rest);
      assert forall l :: 0 <= l < |rest| ==> rest[l] in units - {top};
      assert IsRanking(all, units, [top] + rest);
    }
  }

  lemma {:induction false} Top(all: seq<ContextUnit>, units: set<nat>) returns (top: nat)
    requires units != {} && forall i :: i in units ==> i < |all|
    ensures top in units && forall i :: i in units && i != top ==> Above(all, top, i)
    decreases |units|
  {
    assert (forall i :: i !in units) ==> units == {};
    top :| top in units;
    var rest := units - {top};
    if rest != {} {
      var other := Top(all, rest);
      AboveIsTotal(all, top, other);
      if Above(all, other, top) {
        top := other;
      } else {
        forall i | i in rest && i != other ensures Above(all, top, i) {
          AboveIsTransitive(all, top, other, i);
        }
      }
    }
    hide Above;
  }

  // ----- what the greedy pass selects -----

  /** The cost of the given units, summed by position. */
  function Spent(all: seq<ContextUnit>, units: set<nat>, i: nat): nat
    requires i <= |all|
    decreases |all| - i
  {
    if i == |all| then 0 else (if i in units then Cost(all, i) else 0) + Spent(all, units, i + 1)
  }

  /** A unit adds its serialized size to the cost of a selection. */
  lemma {:induction false} SpentAdd(all: seq<ContextUnit>, units: set<nat>, k: nat, i: nat)
    requires i <= |all| && k < |all| && k !in units
    ensures Spent(all, units + {k}, i) == Spent(all, units, i) + if i <= k then Serialized(all[k].messages) else 0
    decreases |all| - i
  {
    if i < |all| { SpentAdd(all, units, k, i + 1); }
  }

  ghost function SelectedAbove(all: seq<ContextUnit>, selected: set<nat>, i: nat): set<nat>
    requires i < |all|
  {
    set j | j in selected && j < |all| && Above(all, j, i)
  }

  /** A unit is selected exactly when it is kept and fits beside the selected units ranked above it. */
  ghost predicate IsSelection(fp: Fingerprinter, all: seq<ContextUnit>, remaining: int, selected: set<nat>) {
    && (forall i :: i in selected ==> i < |all|)
    && (forall i :: 0 <= i < |all| ==>
          (i in selected <==> Kept(fp, all, i)
                              && Cost(all, i) + Spent(all, SelectedAbove(all, selected, i), 0) <= remaining))
  }

  ghost predicate FitsBeside(all: seq<ContextUnit>, remaining: int, selected: set<nat>, i: nat)
    requires i < |all|
  {
    Cost(all, i) + Spent(all, SelectedAbove(all, selected, i), 0) <= remaining
  }

  lemma {:induction false} SpentNothing(all: seq<ContextUnit>, i: nat)
    requires i <= |all|
    ensures Spent(all, {}, i) == 0
    decreases |all| - i
  {
    if i < |all| { SpentNothing(all, i + 1); }
  }

  /** One pass down a ranking selects in this sense, and never overspends. */
  lemma {:induction false} GreedySelects(all: seq<ContextUnit>, units: set<nat>, ids: seq<nat>, remaining: int)
    requires IsRanking(all, units, ids) && remaining >= 0
    ensures forall i :: i in units ==>
              (i in Greedy(all, ids, remaining) <==> FitsBeside(all, remaining, Greedy(all, ids, remaining), i))
    ensures Spent(all, Greedy(all, ids, remaining), 0) <= remaining
    decreases |ids|
  {
    if ids == [] {
      SpentNothing(all, 0);
    } else {
      var head := ids[0];
      var left := if Cost(all, head) <= remaining then remaining - Cost(all, head) else remaining;
      var rest := Greedy(all, ids[1..], left);
      TailRanking(all, units, ids);
      GreedySelects(all, units - {head}, ids[1..], left);
      assert head !in rest;
      SpentAdd(all, rest, head, 0);
      assert Cost(all, head) <= remaining ==> Greedy(all, ids, remaining) == rest + {head};
      HeadFits(all, ids, remaining);
      forall i | i in units && i != head
        ensures i in Greedy(all, ids, remaining) <==> FitsBeside(all, remaining, Greedy(all, ids, remaining), i)
      {
        assert i in units - {head};
        assert i in rest <==> FitsBeside(all, left, rest, i);
        TailFits(all, ids, remaining, i);
      }
    }
  }

  lemma {:induction false} HeadFits(all: seq<ContextUnit>, ids: seq<nat>, remaining: int)
    requires ids != [] && Within(all, ids) && Descending(all, ids)
    ensures SelectedAbove(all, Greedy(all, ids, remaining), ids[0]) == {}
    ensures FitsBeside(all, remaining, Greedy(all, ids, remaining), ids[0]) <==> Cost(all, ids[0]) <= remaining
  {
    forall j | j in Greedy(all, ids, remaining) && j < |all| ensures !Above(all, j, ids[0]) { HeadIsTop(all, ids, j); }
    SpentNothing(all, 0);
  }

  /** What the head costs is exactly what the units below it have less. */
  lemma TailFits(all: seq<ContextUnit>, ids: seq<nat>, remaining: int, i: nat)
    requires ids != [] && Within(all, ids) && Descending(all, ids) && i in ids && i != ids[0]
    requires ids[0] !in ids[1..]
    ensures var left := if Cost(all, ids[0]) <= remaining then remaining - Cost(all, ids[0]) else remaining;
            FitsBeside(all, remaining, Greedy(all, ids, remaining), i)
            <==> FitsBeside(all, left, Greedy(all, ids[1..], left), i)
  {
    var head := ids[0];
    HeadIsTop(all, ids, i);
    if Cost(all, head) <= remaining {
      var rest := Greedy(all, ids[1..], remaining - Cost(all, head));
      assert Greedy(all, ids, remaining) == rest + {head};
      assert SelectedAbove(all, rest + {head}, i) == SelectedAbove(all, rest, i) + {head};
      SpentAdd(all, SelectedAbove(all, rest, i), head, 0);
    }
  }

  lemma HeadIsTop(all: seq<ContextUnit>, ids: seq<nat>, i: nat)
    requires ids != [] && Within(all, ids) && Descending(all, ids) && i in ids
    ensures !Above(all, i, ids[0]) && (i != ids[0] ==> Above(all, ids[0], i))
  {
    var k :| 0 <= k < |ids| && ids[k] == i;
    AboveIsTotal(all, i, ids[0]);
  }

  /** The selection is unique: whatever meets the definition is what the greedy pass returns. */
  lemma SelectionIsUnique(fp: Fingerprinter, all: seq<ContextUnit>, remaining: int, a: set<nat>, b: set<nat>)
    requires IsSelection(fp, all, remaining, a) && IsSelection(fp, all, remaining, b)
    ensures a == b
  {
    RankingExists(all, KeptUnits(fp, all));
    var ids :| IsRanking(all, KeptUnits(fp, all), ids);
    SelectionsAgree(fp, all, remaining, a, b, ids, |ids|);
    forall i ensures i in a <==> i in b {
      if i in a || i in b { assert i in ids; }
    }
  }

  lemma {:induction false} SelectionsAgree(fp: Fingerprinter, all: seq<ContextUnit>, remaining: int, a: set<nat>, b: set<nat>,
                                           ids: seq<nat>, n: nat)
    requires IsSelection(fp, all, remaining, a) && IsSelection(fp, all, remaining, b)
    requires IsRanking(all, KeptUnits(fp, all), ids) && n <= |ids|
    ensures forall k :: 0 <= k < n ==> (ids[k] in a <==> ids[k] in b)
  {
    if n > 0 {
      SelectionsAgree(fp, all, remaining, a, b, ids, n - 1);
      var i := ids[n - 1];
      assert SelectedAbove(all, a, i) == SelectedAbove(all, b, i) by {
        forall j: nat | j < |all| && Above(all, j, i) && (j in a || j in b) ensures j in a && j in b {
          assert j in KeptUnits(fp, all) && j in ids;
          var k :| 0 <= k < |ids| && ids[k] == j;
          AboveIsEarlier(all, ids, k, n - 1);
        }
      }
    }
  }

  lemma AboveIsEarlier(all: seq<ContextUnit>, ids: seq<nat>, k: nat, l: nat)
    requires Within(all, ids) && Descending(all, ids) && k < |ids| && l < |ids| && Above(all, ids[k], ids[l])
    ensures k < l
  {
    AboveIsTotal(all, ids[k], ids[l]);
  }

  lemma {:induction false} SelectionSpendsAtMost(fp: Fingerprinter, all: seq<ContextUnit>, remaining: int, selected: set<nat>)
    requires IsSelection(fp, all, remaining, selected) && remaining >= 0
    ensures Spent(all, selected, 0) <= remaining
  {
    RankingExists(all, KeptUnits(fp, all));
    var ids :| IsRanking(all, KeptUnits(fp, all), ids);
    GreedySelects(all, KeptUnits(fp, all), ids, remaining);
    GreedyIsSelection(fp, all, ids, remaining);
    SelectionIsUnique(fp, all, remaining, selected, Greedy(all, ids, remaining));
  }

  lemma {:induction false} GreedyIsSelection(fp: Fingerprinter, all: seq<ContextUnit>, ids: seq<nat>, remaining: int)
    requires IsRanking(all, KeptUnits(fp, all), ids) && remaining >= 0
    ensures IsSelection(fp, all, remaining, Greedy(all, ids, remaining))
  {
    var selected := Greedy(all, ids, remaining);
    GreedySelects(all, KeptUnits(fp, all), ids, remaining);
    forall i | 0 <= i < |all|
      ensures i in selected <==> Kept(fp, all, i) && Cost(all, i) + Spent(all, SelectedAbove(all, selected, i), 0) <= remaining
    {
      if Kept(fp, all, i) {
        assert i in KeptUnits(fp, all);
        assert FitsBeside(all, remaining, selected, i) <==> i in selected;
      }
    }
  }

  // ----- the assembled request -----

  function ProjectionOf(x: Input, selected: set<nat>): Projection {
    var messages := Assembled(x, selected);
    var chars := Serialized(messages) + REQUEST_ENVELOPE_CHARS;
    Projection(messages, chars, (chars + 3) / 4, Budget(x), |AllUnits(x)| - |selected|)
  }

  predicate ValidLimits(x: Input) {
    && 0 < x.maxTokens <= MAX_CONTEXT_TOKENS
    && x.reserveTokens >= 0 && x.manifestTokens >= 0
    && x.reserveTokens + x.manifestTokens < x.maxTokens
  }

  lemma {:induction false} ChosenSize(all: seq<ContextUnit>, selected: set<nat>, i: nat)
    requires i <= |all|
    ensures Serialized(Chosen(all, selected, false, i)) + Serialized(Chosen(all, selected, true, i))
            <= 4 + Spent(all, selected, i)
    decreases |all| - i
  {
    if i < |all| {
      ChosenSize(all, selected, i + 1);
      SerializedConcat(Here(all, selected, false, i), Chosen(all, selected, false, i + 1));
      SerializedConcat(Here(all, selected, true, i), Chosen(all, selected, true, i + 1));
      assert Serialized([]) == 2;
    }
  }

  /** Whatever is selected, the assembled request costs no more than its parts. */
  lemma {:induction false} AssembledSize(x: Input, selected: set<nat>)
    ensures Serialized(Assembled(x, selected)) + REQUEST_ENVELOPE_CHARS <= RequiredChars(x) + Spent(AllUnits(x), selected, 0)
  {
    var all := AllUnits(x);
    var head, tail := Chosen(all, selected, false, 0), Chosen(all, selected, true, 0);
    ChosenSize(all, selected, 0);
    SerializedConcat(x.prefix, head);
    SerializedConcat(x.prefix + head, x.suffix);
    SerializedConcat(x.prefix + head + x.suffix, tail);
    SerializedConcat(x.prefix + head + x.suffix + tail, x.runtime);
  }

  /** Whenever projection succeeds the request fits: characters within the budget, and estimated
      tokens, reserve and manifest together within the maximum. */
  lemma ProjectionFits(fp: Fingerprinter, x: Input, selected: set<nat>)
    requires ValidLimits(x) && RequiredChars(x) <= Budget(x)
    requires IsSelection(fp, AllUnits(x), Budget(x) - RequiredChars(x), selected)
    ensures var p := ProjectionOf(x, selected);
            p.chars <= p.budget && p.tokens + x.reserveTokens + x.manifestTokens <= x.maxTokens
  {
    SelectionSpendsAtMost(fp, AllUnits(x), Budget(x) - RequiredChars(x), selected);
    AssembledSize(x, selected);
  }

  /** What a projection reports: the exact size, the least number of four-character tokens that holds it, and how many
      units were left out. */
  lemma ProjectionCounts(x: Input, selected: set<nat>)
    requires forall i :: i in selected ==> i < |AllUnits(x)|
    ensures var p, left := ProjectionOf(x, selected), set i | 0 <= i < |AllUnits(x)| && i !in selected;
            p.chars == Serialized(p.messages) + 64 && p.chars <= 4 * p.tokens < p.chars + 4 && p.removed == |left|
            && p.budget == (x.maxTokens - x.reserveTokens - x.manifestTokens) * 4
  {
    var left := set i | 0 <= i < |AllUnits(x)| && i !in selected;
    var all := Positions(|AllUnits(x)|);
    assert forall i :: i in selected ==> i in all;
    assert left == all - selected;
    hide Serialized, Assembled;
  }

  function Positions(n: nat): (all: set<int>)
    ensures |all| == n && forall i :: i in all <==> 0 <= i < n
  {
    if n == 0 then {} else Positions(n - 1) + {n - 1}
  }

  /** Nothing was left out that would have fitted: a kept unit is dropped only when it costs more
      than everything the selection left over. */
  lemma {:induction false} DroppedDidNotFit(fp: Fingerprinter, all: seq<ContextUnit>, remaining: int, selected: set<nat>, i: nat)
    requires IsSelection(fp, all, remaining, selected) && remaining >= 0
    requires i < |all| && Kept(fp, all, i) && i !in selected
    ensures Serialized(all[i].messages) > remaining - Spent(all, selected, 0) >= 0
  {
    SelectionSpendsAtMost(fp, all, remaining, selected);
    SpentMonotone(all, SelectedAbove(all, selected, i), selected, 0);
  }

  /** A unit that is left out beside one that is selected is cheaper only if it is the less important one:
      of lower priority, or as important and older, or equal in both and further to the front. */
  lemma ImportantGoesFirst(fp: Fingerprinter, all: seq<ContextUnit>, remaining: int, selected: set<nat>, i: nat, j: nat)
    requires IsSelection(fp, all, remaining, selected) && i in selected
    requires j < |all| && Kept(fp, all, j) && j !in selected
    ensures all[j].priority > all[i].priority ==> Serialized(all[j].messages) > Serialized(all[i].messages)
    ensures all[j].priority == all[i].priority && all[j].timestamp > all[i].timestamp ==>
              Serialized(all[j].messages) > Serialized(all[i].messages)
    ensures all[j].priority == all[i].priority && all[j].timestamp == all[i].timestamp && j > i ==>
              Serialized(all[j].messages) > Serialized(all[i].messages)
  {
    if Above(all, j, i) {
      assert SelectedAbove(all, selected, j) <= SelectedAbove(all, selected, i) by {
        forall k | k in SelectedAbove(all, selected, j) ensures Above(all, k, i) { AboveIsTransitive(all, k, j, i); }
      }
      SpentMonotone(all, SelectedAbove(all, selected, j), SelectedAbove(all, selected, i), 0);
    }
  }

  /** Of the units with one fingerprint the kept one is the most important: none has a higher priority, none
      of its priority is newer, and none that is as important and as new stands behind it. */
  lemma KeptIsMostImportant(fp: Fingerprinter, all: seq<ContextUnit>, k: nat, i: nat)
    requires k < |all| && i < |all| && i != k && Kept(fp, all, k)
    requires (if all[i].fingerprint == "" then fp(all[i].messages) else all[i].fingerprint)
             == (if all[k].fingerprint == "" then fp(all[k].messages) else all[k].fingerprint)
    ensures all[i].priority <= all[k].priority
    ensures all[i].priority == all[k].priority ==> all[i].timestamp <= all[k].timestamp
    ensures all[i].priority == all[k].priority && all[i].timestamp == all[k].timestamp ==> i < k
    ensures !Kept(fp, all, i)
  {
    assert FingerprintOf(fp, all[i]) == FingerprintOf(fp, all[k]);
    AboveIsTotal(all, i, k);
  }

  lemma {:induction false} SpentMonotone(all: seq<ContextUnit>, a: set<nat>, b: set<nat>, i: nat)
    requires i <= |all| && a <= b
    ensures Spent(all, a, i) <= Spent(all, b, i)
    decreases |all| - i
  {
    if i < |all| { SpentMonotone(all, a, b, i + 1); }
  }

  /** Of the units with one fingerprint exactly one is kept, and it is ranked above the others. */
  lemma {:induction false} OneKeptPerFingerprint(fp: Fingerprinter, all: seq<ContextUnit>, i: nat)
    requires i < |all|
    ensures exists k :: 0 <= k < |all| && Kept(fp, all, k) && FingerprintOf(fp, all[k]) == FingerprintOf(fp, all[i])
    ensures forall k, l :: 0 <= k < |all| && 0 <= l < |all| && Kept(fp, all, k) && Kept(fp, all, l) && k != l
              ==> FingerprintOf(fp, all[k]) != FingerprintOf(fp, all[l])
  {
    var same := set j: nat | j < |all| && FingerprintOf(fp, all[j]) == FingerprintOf(fp, all[i]);
    assert i in same;
    var top := Top(all, same);
    assert Kept(fp, all, top);
    forall k, l | 0 <= k < |all| && 0 <= l < |all| && Kept(fp, all, k) && Kept(fp, all, l) && k != l
      ensures FingerprintOf(fp, all[k]) != FingerprintOf(fp, all[l])
    {
      AboveIsTotal(all, k, l);
    }
  }

  /** Where unit i's messages begin among the chosen ones. */
  function Offset(all: seq<ContextUnit>, selected: set<nat>, tail: bool, from: nat, i: nat): nat
    requires from <= i <= |all|
    decreases i - from
  {
    if from == i then 0
    else |Here(all, selected, tail, from)| + Offset(all, selected, tail, from + 1, i)
  }

  /** A selected unit stays whole, and units keep their original order. */
  lemma {:induction false} UnitsStayWhole(all: seq<ContextUnit>, selected: set<nat>, tail: bool, from: nat, i: nat)
    requires from <= i < |all| && i in selected && all[i].tail == tail
    ensures var o, chosen := Offset(all, selected, tail, from, i), Chosen(all, selected, tail, from);
            o + |all[i].messages| <= |chosen| && chosen[o..o + |all[i].messages|] == all[i].messages
    ensures forall j :: i < j <= |all| ==>
              Offset(all, selected, tail, from, i) + |all[i].messages| <= Offset(all, selected, tail, from, j)
    decreases i - from
  {
    var here, rest := Here(all, selected, tail, from), Chosen(all, selected, tail, from + 1);
    if from < i {
      UnitsStayWhole(all, selected, tail, from + 1, i);
      var o := Offset(all, selected, tail, from + 1, i);
      SliceAfter(here, rest, o, o + |all[i].messages|);
    } else {
      assert (here + rest)[..|here|] == here;
    }
  }

  lemma SliceAfter(a: seq<Message>, b: seq<Message>, lo: nat, hi: nat)
    requires lo <= hi <= |b|
    ensures (a + b)[|a| + lo..|a| + hi] == b[lo..hi]
  {
  }

  // ----- the method -----

  /** The map of deduplicateUnits after the first n units: per fingerprint, the best so far. */
  ghost predicate BestSoFar(fp: Fingerprinter, all: seq<ContextUnit>, n: nat, best: map<string, nat>) {
    && n <= |all|
    && (forall f :: f in best ==> best[f] < n && FingerprintOf(fp, all[best[f]]) == f)
    && (forall j :: 0 <= j < n ==> FingerprintOf(fp, all[j]) in best
                                   && (j != best[FingerprintOf(fp, all[j])] ==> Above(all, best[FingerprintOf(fp, all[j])], j)))
  }

  /** deduplicateUnits, as positions. The order is whatever the iteration over the map yields. */
  method DeduplicateUnits(fp: Fingerprinter, all: seq<ContextUnit>) returns (units: seq<nat>)
    ensures Distinct(units) && Within(all, units) && forall i :: i in units <==> i in KeptUnits(fp, all)
  {
    var best: map<string, nat> := map[];
    for i := 0 to |all|
      invariant BestSoFar(fp, all, i, best)
    {
      var f := FingerprintOf(fp, all[i]);
      if f !in best
         || all[i].priority > all[best[f]].priority
         || (all[i].priority == all[best[f]].priority && all[i].timestamp >= all[best[f]].timestamp) {
        KeepsBest(fp, all, i, best);
        best := best[f := i];
      }
    }
    units := AllValues(fp, all, best);
    BestAreKept(fp, all, best);
  }

  lemma BestAreKept(fp: Fingerprinter, all: seq<ContextUnit>, best: map<string, nat>)
    requires BestSoFar(fp, all, |all|, best)
    ensures forall i :: (exists f :: f in best && best[f] == i) <==> i in KeptUnits(fp, all)
  {
    forall i ensures (exists f :: f in best && best[f] == i) <==> i in KeptUnits(fp, all) {
      if i in KeptUnits(fp, all) {
        AboveIsTotal(all, i, best[FingerprintOf(fp, all[i])]);
        assert best[FingerprintOf(fp, all[i])] == i;
      }
    }
  }

  method AllValues(fp: Fingerprinter, all: seq<ContextUnit>, best: map<string, nat>) returns (units: seq<nat>)
    requires BestSoFar(fp, all, |all|, best)
    ensures Distinct(units) && Within(all, units)
    ensures forall i :: i in units <==> exists f :: f in best && best[f] == i
  {
    units := [];
    var left := best.Keys;
    while left != {}
      invariant left <= best.Keys && Distinct(units) && Within(all, units)
      invariant forall i :: i in units ==> i < |all| && FingerprintOf(fp, all[i]) in best.Keys - left
      invariant forall f :: f in best && f !in left ==> best[f] in units
      invariant forall i :: i in units ==> best[FingerprintOf(fp, all[i])] == i
    {
      SomeKey(left);
      var f :| f in left;
      left := left - {f};
      units := units + [best[f]];
    }
  }

  predicate Distinct(ids: seq<nat>) {
    forall k, l :: 0 <= k < l < |ids| ==> ids[k] != ids[l]
  }

  lemma SomeKey(keys: set<string>)
    requires keys != {}
    ensures exists f :: f in keys
  {
    assert (forall f :: f !in keys) ==> keys == {};
  }

  lemma KeepsBest(fp: Fingerprinter, all: seq<ContextUnit>, i: nat, best: map<string, nat>)
    requires i < |all| && BestSoFar(fp, all, i, best)
    requires var f := FingerprintOf(fp, all[i]); f in best ==> Above(all, i, best[f])
    ensures BestSoFar(fp, all, i + 1, best[FingerprintOf(fp, all[i]) := i])
  {
    var f := FingerprintOf(fp, all[i]);
    if f in best {
      forall j | 0 <= j < i && FingerprintOf(fp, all[j]) == f && j != best[f] ensures Above(all, i, j) {
        AboveIsTransitive(all, i, best[f], j);
      }
    }
  }

  ghost predicate Orders(ids: seq<nat>, before: (nat, nat) -> bool) {
    && (forall i, j :: i in ids && j in ids && i != j ==> before(i, j) || before(j, i))
    && (forall i, j, k :: i in ids && j in ids && k in ids && before(i, j) && before(j, k) ==> before(i, k))
  }

  predicate Ordered(ids: seq<nat>, before: (nat, nat) -> bool) {
    forall k, l :: 0 <= k < l < |ids| ==> before(ids[k], ids[l])
  }

  /** The library sort, as an insertion sort. */
  method Sort(ids: seq<nat>, before: (nat, nat) -> bool) returns (sorted: seq<nat>)
    requires Distinct(ids) && Orders(ids, before)
    ensures Ordered(sorted, before) && |sorted| == |ids| && forall i :: i in sorted <==> i in ids
  {
    sorted := [];
    for n := 0 to |ids|
      invariant Ordered(sorted, before) && |sorted| == n
      invariant forall i :: i in sorted <==> i in ids[..n]
    {
      assert ids[n] !in ids[..n];
      sorted := Insert(sorted, ids[n], before, ids);
      assert ids[..n + 1] == ids[..n] + [ids[n]];
    }
    assert ids[..|ids|] == ids;
  }

  method Insert(sorted: seq<nat>, id: nat, before: (nat, nat) -> bool, ghost ids: seq<nat>) returns (longer: seq<nat>)
    requires Ordered(sorted, before) && Orders(ids, before) && id in ids && id !in sorted
    requires forall i :: i in sorted ==> i in ids
    ensures Ordered(longer, before) && |longer| == |sorted| + 1
    ensures forall i :: i in longer <==> i in sorted || i == id
  {
    var p := 0;
    while p < |sorted| && before(sorted[p], id)
      invariant 0 <= p <= |sorted|
      invariant forall k :: 0 <= k < p ==> before(sorted[k], id)
    {
      p := p + 1;
    }
    assert forall k :: p <= k < |sorted| ==> before(id, sorted[k]) by {
      if p < |sorted| {
        assert sorted[p] in ids && before(id, sorted[p]);
        forall k | p < k < |sorted| ensures before(id, sorted[k]) {
          assert sorted[k] in ids && before(sorted[p], sorted[k]);
        }
      }
    }
    longer := sorted[..p] + [id] + sorted[p..];
    assert forall i :: i in sorted <==> i in sorted[..p] || i in sorted[p..] by {
      assert sorted == sorted[..p] + sorted[p..];
    }
  }

  lemma {:induction false} ChosenSkips(all: seq<ContextUnit>, selected: set<nat>, tail: bool, i: nat, j: nat)
    requires i <= j <= |all| && forall k :: i <= k < j ==> k !in selected
    ensures Chosen(all, selected, tail, i) == Chosen(all, selected, tail, j)
    decreases j - i
  {
    if i < j { ChosenSkips(all, selected, tail, i + 1, j); }
  }

  /** The pass that appends the selected units of one kind, in order. */
  method AppendChosen(all: seq<ContextUnit>, units: seq<nat>, selected: set<nat>, tail: bool) returns (messages: seq<Message>)
    requires Within(all, units) && Ascending(units)
    requires forall i :: i in selected ==> i in units
    ensures messages == Chosen(all, selected, tail, 0)
  {
    messages := [];
    assert units == [] ==> Chosen(all, selected, tail, |all|) == Chosen(all, selected, tail, 0) by {
      if units == [] { ChosenSkips(all, selected, tail, 0, |all|); }
    }
    for k := 0 to |units|
      invariant messages + Chosen(all, selected, tail, From(all, units, k)) == Chosen(all, selected, tail, 0)
    {
      NextUnit(all, units, selected, tail, k);
      Regroup(messages, Here(all, selected, tail, units[k]), Chosen(all, selected, tail, units[k] + 1));
      var here := if units[k] in selected && all[units[k]].tail == tail then all[units[k]].messages else [];
      messages := messages + here;
    }
  }

  lemma Regroup(a: seq<Message>, b: seq<Message>, c: seq<Message>)
    ensures a + b + c == a + (b + c)
  {
  }

  /** The first position that the pass has not dealt with before its k-th unit. */
  ghost function From(all: seq<ContextUnit>, units: seq<nat>, k: nat): (i: nat)
    requires Within(all, units) && k <= |units|
    ensures i <= |all|
  {
    if k == |units| then |all| else if k == 0 then 0 else units[k - 1] + 1
  }

  lemma {:induction false} NextUnit(all: seq<ContextUnit>, units: seq<nat>, selected: set<nat>, tail: bool, k: nat)
    requires Within(all, units) && Ascending(units) && k < |units|
    requires forall i :: i in selected ==> i in units
    ensures Chosen(all, selected, tail, From(all, units, k)) == Chosen(all, selected, tail, units[k])
    ensures Chosen(all, selected, tail, units[k] + 1) == Chosen(all, selected, tail, From(all, units, k + 1))
  {
    forall i | From(all, units, k) <= i < units[k] ensures i !in selected { BetweenUnits(units, k, i); }
    ChosenSkips(all, selected, tail, From(all, units, k), units[k]);
    if k + 1 == |units| {
      forall i | units[k] < i < |all| ensures i !in selected { BetweenUnits(units, k + 1, i); }
      ChosenSkips(all, selected, tail, units[k] + 1, |all|);
    }
  }

  lemma BetweenUnits(units: seq<nat>, k: nat, i: nat)
    requires Ascending(units) && k <= |units|
    requires (k > 0 ==> units[k - 1] < i) && (k < |units| ==> i < units[k])
    ensures i !in units
  {
  }

  method RankUnits(all: seq<ContextUnit>, units: seq<nat>) returns (ranked: seq<nat>)
    requires Distinct(units) && Within(all, units)
    ensures Within(all, ranked) && Descending(all, ranked) && forall i :: i in ranked <==> i in units
  {
    var above := (i: nat, j: nat) => i < |all| && j < |all| && Above(all, i, j);
    assert forall i :: i in units ==> i < |all|;
    ranked := Sort(units, above);
    forall k | 0 <= k < |ranked| ensures ranked[k] < |all| { assert ranked[k] in units; }
    forall k, l | 0 <= k < l < |ranked| ensures Above(all, ranked[k], ranked[l]) { assert above(ranked[k], ranked[l]); }
  }

  predicate Ascending(ids: seq<nat>) {
    forall k, l :: 0 <= k < l < |ids| ==> ids[k] < ids[l]
  }

  method SortByOrder(all: seq<ContextUnit>, units: seq<nat>) returns (sorted: seq<nat>)
    requires Distinct(units) && Within(all, units)
    ensures Ascending(sorted) && Within(all, sorted) && forall i :: i in sorted <==> i in units
  {
    var before := (i: nat, j: nat) => i < j;
    sorted := Sort(units, before);
    forall k | 0 <= k < |sorted| ensures sorted[k] < |all| { assert sorted[k] in units; }
    forall k, l | 0 <= k < l < |sorted| ensures sorted[k] < sorted[l] { assert before(sorted[k], sorted[l]); }
  }

  /** ContextBudgeter.Project. The answer is a function of the input: neither the iteration order
      of the map nor ties in the sort can change it (SelectionIsUnique). */
  method Project(fp: Fingerprinter, x: Input) returns (result: Result, ghost selected: set<nat>)
    ensures result.Ok? <==> ValidLimits(x) && RequiredChars(x) <= Budget(x)
    ensures result.Ok? <==>
              && 0 < x.maxTokens <= 1_000_000
              && x.reserveTokens >= 0 && x.manifestTokens >= 0 && x.reserveTokens + x.manifestTokens < x.maxTokens
              && Serialized(x.prefix) + Serialized(x.suffix) + Serialized(x.runtime) + 64
                 <= (x.maxTokens - x.reserveTokens - x.manifestTokens) * 4
    ensures result.Err? ==> result.error == if !(0 < x.maxTokens <= 1_000_000) then BadMaxTokens
                                            else if !ValidLimits(x) then BadReserve else RequiredTooLarge
    ensures result.Ok? ==> IsSelection(fp, AllUnits(x), Budget(x) - RequiredChars(x), selected)
                           && result.projection == ProjectionOf(x, selected)
  {
    selected := {};
    if x.maxTokens <= 0 || x.maxTokens > MAX_CONTEXT_TOKENS {
      return Err(BadMaxTokens), selected;
    }
    if x.reserveTokens < 0 || x.manifestTokens < 0 || x.reserveTokens + x.manifestTokens >= x.maxTokens {
      return Err(BadReserve), selected;
    }
    var required := RequiredChars(x);
    if required > Budget(x) {
      return Err(RequiredTooLarge), selected;
    }
    var all := AllUnits(x);
    var units, taken := SelectUnits(fp, all, Budget(x) - required);
    var head := AppendChosen(all, units, taken, false);
    var tail := AppendChosen(all, units, taken, true);
    var messages := x.prefix + head + x.suffix + tail + x.runtime;
    var chars := Serialized(messages) + REQUEST_ENVELOPE_CHARS;
    selected := taken;
    result := Ok(Projection(messages, chars, (chars + 3) / 4, Budget(x), |all| - |taken|));
  }

  method SelectUnits(fp: Fingerprinter, all: seq<ContextUnit>, remaining: int) returns (units: seq<nat>, taken: set<nat>)
    requires remaining >= 0
    ensures Within(all, units) && Ascending(units) && forall i :: i in taken ==> i in units
    ensures IsSelection(fp, all, remaining, taken)
  {
    units := DeduplicateUnits(fp, all);
    var ranked := RankUnits(all, units);
    assert IsRanking(all, KeptUnits(fp, all), ranked);
    taken := SelectGreedily(all, ranked, remaining);
    GreedyIsSelection(fp, all, ranked, remaining);
    units := SortByOrder(all, units);
  }

  method SelectGreedily(all: seq<ContextUnit>, ranked: seq<nat>, budget: int) returns (selected: set<nat>)
    requires Within(all, ranked)
    ensures selected == Greedy(all, ranked, budget)
  {
    var remaining := budget;
    selected := {};
    for k := 0 to |ranked|
      invariant selected + Greedy(all, ranked[k..], remaining) == Greedy(all, ranked, budget)
    {
      var cost := Cost(all, ranked[k]);
      if cost <= remaining {
        selected := selected + {ranked[k]};
        remaining := remaining - cost;
      }
    }
  }
}
