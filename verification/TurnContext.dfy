/**
 splitTurnContext: which transcript messages are the required ones, and how the
 rest becomes optional units before and after the newest request.
 */
module TurnContext {
  import opened Options
  import opened Wire
  import opened ToolProtocol
  import opened ContextBudget

  function MessageFp(fp: Fingerprinter, m: Message): string {
    fp([m])
  }

  predicate Same(fp: Fingerprinter, m: Message, n: Message) {
    MessageFp(fp, m) == MessageFp(fp, n)
  }

  // ----- matching the required messages -----

  /** The first (matchRequiredFromStart) message at or after `from` that is the wanted one. */
  function FirstMatch(fp: Fingerprinter, ms: seq<Message>, from: nat, wanted: Message): (i: Option<nat>)
    requires from <= |ms|
    ensures i.Some? ==> from <= i.value < |ms| && Same(fp, ms[i.value], wanted)
    ensures forall k :: from <= k < (if i.Some? then i.value else |ms|) ==> !Same(fp, ms[k], wanted)
    decreases |ms| - from
  {
    if from == |ms| then None
    else if Same(fp, ms[from], wanted) then Some(from)
    else FirstMatch(fp, ms, from + 1, wanted)
  }

  /** The last message before `end` that is the wanted one. */
  function LastMatch(fp: Fingerprinter, ms: seq<Message>, end: nat, wanted: Message): (i: Option<nat>)
    requires end <= |ms|
    ensures i.Some? ==> i.value < end && Same(fp, ms[i.value], wanted)
    ensures forall k :: (if i.Some? then i.value + 1 else 0) <= k < end ==> !Same(fp, ms[k], wanted)
  {
    if end == 0 then None
    else if Same(fp, ms[end - 1], wanted) then Some(end - 1)
    else LastMatch(fp, ms, end - 1, wanted)
  }

  function MatchesFromStart(fp: Fingerprinter, ms: seq<Message>, from: nat, required: seq<Message>): (found: set<nat>)
    requires from <= |ms|
    ensures forall i :: i in found ==> from <= i < |ms|
    decreases |required|
  {
    if required == [] then {}
    else match FirstMatch(fp, ms, from, required[0])
      case None => {}
      case Some(i) => {i} + MatchesFromStart(fp, ms, i + 1, required[1..])
  }

  function MatchesFromEnd(fp: Fingerprinter, ms: seq<Message>, end: nat, required: seq<Message>): (found: set<nat>)
    requires end <= |ms|
    ensures forall i :: i in found ==> i < end
    decreases |required|
  {
    if required == [] then {}
    else match LastMatch(fp, ms, end, required[|required| - 1])
      case None => {}
      case Some(i) => {i} + MatchesFromEnd(fp, ms, i, required[..|required| - 1])
  }

  /** The required messages occur in this order among the first `end` messages. */
  ghost predicate EmbedsAt(fp: Fingerprinter, ms: seq<Message>, end: nat, required: seq<Message>, at: seq<nat>)
    requires end <= |ms|
  {
    && |at| == |required|
    && (forall k :: 0 <= k < |at| ==> at[k] < end && Same(fp, ms[at[k]], required[k]))
    && (forall k, l :: 0 <= k < l < |at| ==> at[k] < at[l])
  }

  ghost predicate Embeds(fp: Fingerprinter, ms: seq<Message>, end: nat, required: seq<Message>)
    requires end <= |ms|
  {
    exists at :: EmbedsAt(fp, ms, end, required, at)
  }

  /** The backward scan finds all the required messages exactly when they occur in order. */
  lemma {:induction false} MatchesAllIffEmbeds(fp: Fingerprinter, ms: seq<Message>, end: nat, required: seq<Message>)
    requires end <= |ms|
    ensures |MatchesFromEnd(fp, ms, end, required)| <= |required|
    ensures |MatchesFromEnd(fp, ms, end, required)| == |required| <==> Embeds(fp, ms, end, required)
    decreases |required|
  {
    if required == [] {
      assert EmbedsAt(fp, ms, end, [], []);
    } else {
      var n := |required| - 1;
      var last := LastMatch(fp, ms, end, required[n]);
      if last.None? {
        forall at ensures !EmbedsAt(fp, ms, end, required, at) {
          if |at| == |required| { assert at[n] < end ==> !Same(fp, ms[at[n]], required[n]); }
        }
      } else {
        MatchesAllIffEmbeds(fp, ms, last.value, required[..n]);
        assert last.value !in MatchesFromEnd(fp, ms, last.value, required[..n]);
        EmbedsByLast(fp, ms, end, required, last.value);
      }
    }
  }

  lemma {:induction false} EmbedsByLast(fp: Fingerprinter, ms: seq<Message>, end: nat, required: seq<Message>, last: nat)
    requires end <= |ms| && required != []
    requires LastMatch(fp, ms, end, required[|required| - 1]) == Some(last)
    ensures Embeds(fp, ms, end, required) <==> Embeds(fp, ms, last, required[..|required| - 1])
  {
    var n := |required| - 1;
    if Embeds(fp, ms, end, required) {
      var at :| EmbedsAt(fp, ms, end, required, at);
      assert at[n] <= last;
      assert EmbedsAt(fp, ms, last, required[..n], at[..n]);
    }
    if Embeds(fp, ms, last, required[..n]) {
      var at :| EmbedsAt(fp, ms, last, required[..n], at);
      assert EmbedsAt(fp, ms, end, required, at + [last]);
    }
  }

  /** A required message that is nowhere in the transcript uses up the whole scan: the ones before
      it are not found either, and stay in the transcript beside their required copies. */
  lemma {:induction false} MissingHidesEarlier(fp: Fingerprinter, ms: seq<Message>, required: seq<Message>, missing: Message)
    requires forall i :: 0 <= i < |ms| ==> !Same(fp, ms[i], missing)
    ensures MatchesFromEnd(fp, ms, |ms|, required + [missing]) == {}
  {
    assert LastMatch(fp, ms, |ms|, missing).None?;
  }

  /** The scan for one required message; the cursor ends behind it, or at the end. */
  method ScanForward(fp: Fingerprinter, ms: seq<Message>, from: nat, wanted: Message) returns (hit: bool, cursor: nat)
    requires from <= |ms|
    ensures FirstMatch(fp, ms, from, wanted) == if hit then Some(cursor - 1) else None
    ensures from <= cursor <= |ms| && (!hit ==> cursor == |ms|)
  {
    hit, cursor := false, from;
    while cursor < |ms| && !hit
      invariant from <= cursor <= |ms|
      invariant FirstMatch(fp, ms, from, wanted) == if hit then Some(cursor - 1) else FirstMatch(fp, ms, cursor, wanted)
      decreases |ms| - cursor, !hit
    {
      hit := Same(fp, ms[cursor], wanted);
      cursor := cursor + 1;
    }
  }

  method MatchRequiredFromStart(fp: Fingerprinter, ms: seq<Message>, required: seq<Message>) returns (indices: set<nat>)
    ensures indices == MatchesFromStart(fp, ms, 0, required)
  {
    indices := {};
    var cursor := 0;
    assert required[0..] == required;
    assert MatchesFromStart(fp, ms, |ms|, []) == {};
    hide FirstMatch;
    for r := 0 to |required|
      invariant cursor <= |ms|
      invariant indices + MatchesFromStart(fp, ms, cursor, required[r..]) == MatchesFromStart(fp, ms, 0, required)
    {
      ghost var from := cursor;
      var hit;
      hit, cursor := ScanForward(fp, ms, cursor, required[r]);
      if hit { indices := indices + {cursor - 1}; }
      NextRequired(fp, ms, from, cursor, required[r..]);
      assert required[r..][1..] == required[r + 1..];
    }
  }

  /** One required message later: either it was found just before the cursor, or nothing is left. */
  lemma {:induction false} NextRequired(fp: Fingerprinter, ms: seq<Message>, from: nat, cursor: nat, required: seq<Message>)
    requires from <= cursor <= |ms| && required != []
    requires var found := FirstMatch(fp, ms, from, required[0]);
             if found.Some? then cursor == found.value + 1 else cursor == |ms|
    ensures var found := FirstMatch(fp, ms, from, required[0]);
            MatchesFromStart(fp, ms, from, required)
            == (if found.Some? then {found.value} else {}) + MatchesFromStart(fp, ms, cursor, required[1..])
  {
    if cursor == |ms| { NothingAtEnd(fp, ms, required[1..]); }
  }

  lemma {:induction false} NothingAtEnd(fp: Fingerprinter, ms: seq<Message>, required: seq<Message>)
    ensures MatchesFromStart(fp, ms, |ms|, required) == {}
    ensures MatchesFromEnd(fp, ms, 0, required) == {}
  {
  }

  method ScanBackward(fp: Fingerprinter, ms: seq<Message>, from: nat, wanted: Message) returns (hit: bool, end: nat)
    requires from <= |ms|
    ensures LastMatch(fp, ms, from, wanted) == if hit then Some(end) else None
    ensures end <= from && (!hit ==> end == 0)
  {
    hit, end := false, from;
    while end > 0 && !hit
      invariant end <= from
      invariant LastMatch(fp, ms, from, wanted) == if hit then Some(end) else LastMatch(fp, ms, end, wanted)
      decreases end, !hit
    {
      end := end - 1;
      hit := Same(fp, ms[end], wanted);
    }
  }

  method MatchRequiredFromEnd(fp: Fingerprinter, ms: seq<Message>, required: seq<Message>) returns (indices: set<nat>)
    ensures indices == MatchesFromEnd(fp, ms, |ms|, required)
  {
    indices := {};
    var end: nat, r := |ms|, |required|;
    assert required[..r] == required;
    hide MatchesFromEnd, LastMatch, Same;
    NothingRequired(fp, ms);
    while r > 0
      invariant end <= |ms| && 0 <= r <= |required|
      invariant indices + MatchesFromEnd(fp, ms, end, required[..r]) == MatchesFromEnd(fp, ms, |ms|, required)
    {
      r := r - 1;
      ghost var from := end;
      var hit;
      hit, end := ScanBackward(fp, ms, end, required[r]);
      if hit { indices := indices + {end}; }
      PreviousAt(fp, ms, from, end, required, r);
    }
    assert required[..0] == [];
  }

  lemma {:induction false} NothingRequired(fp: Fingerprinter, ms: seq<Message>)
    ensures forall end :: 0 <= end <= |ms| ==> MatchesFromEnd(fp, ms, end, []) == {}
  {
  }

  lemma {:induction false} PreviousAt(fp: Fingerprinter, ms: seq<Message>, from: nat, end: nat, required: seq<Message>, r: nat)
    requires end <= from <= |ms| && r < |required|
    requires var found := LastMatch(fp, ms, from, required[r]); if found.Some? then end == found.value else end == 0
    ensures var found := LastMatch(fp, ms, from, required[r]);
            MatchesFromEnd(fp, ms, from, required[..r + 1])
            == (if found.Some? then {found.value} else {}) + MatchesFromEnd(fp, ms, end, required[..r])
  {
    assert required[..r + 1][..r] == required[..r];
    hide MatchesFromEnd, LastMatch, Same;
    PreviousRequired(fp, ms, from, end, required[..r + 1]);
  }

  lemma PreviousRequired(fp: Fingerprinter, ms: seq<Message>, from: nat, end: nat, required: seq<Message>)
    requires end <= from <= |ms| && required != []
    requires var found := LastMatch(fp, ms, from, required[|required| - 1]);
             if found.Some? then end == found.value else end == 0
    ensures var found := LastMatch(fp, ms, from, required[|required| - 1]);
            MatchesFromEnd(fp, ms, from, required)
            == (if found.Some? then {found.value} else {}) + MatchesFromEnd(fp, ms, end, required[..|required| - 1])
  {
    if end == 0 { NothingAtEnd(fp, ms, required[..|required| - 1]); }
  }

  // ----- the optional rest -----

  /** The positions below n that no required message took, in order. */
  function Rest(n: nat, skip: set<nat>): (rest: seq<nat>)
    ensures forall k :: 0 <= k < |rest| ==> rest[k] < n && rest[k] !in skip
    ensures forall k, l :: 0 <= k < l < |rest| ==> rest[k] < rest[l]
    ensures forall i :: 0 <= i < n && i !in skip ==> i in rest
  {
    if n == 0 then []
    else if n - 1 in skip then Rest(n - 1, skip)
    else Rest(n - 1, skip) + [n - 1]
  }

  function At(ms: seq<Message>, positions: seq<nat>): (picked: seq<Message>)
    requires forall k :: 0 <= k < |positions| ==> positions[k] < |ms|
    ensures |picked| == |positions|
  {
    seq(|positions|, k requires 0 <= k < |positions| => ms[positions[k]])
  }

  /** Behind the newest required suffix message. */
  predicate Behind(suffix: set<nat>, position: nat) {
    suffix != {} && forall i :: i in suffix ==> i < position
  }

  const CALLS_PRIORITY := 100
  const TAIL_PRIORITY := 90
  const HISTORY_PRIORITY := 50

  function Priority(calls: bool, tail: bool): int {
    if calls then CALLS_PRIORITY else if tail then TAIL_PRIORITY else HISTORY_PRIORITY
  }

  function Optional(u: Unit, tail: bool): ContextUnit
    requires u.messages != []
  {
    ContextUnit("", Priority(u.messages[0].calls != [], tail), 0, u.messages, false)
  }

  predicate Starts(us: seq<Unit>, n: nat) {
    forall k :: 0 <= k < |us| ==> us[k].messages != [] && us[k].start < n
  }

  /** The units on one side of the newest request; flags[p] says on which side position p is. */
  function Side(us: seq<Unit>, flags: seq<bool>, tail: bool): (side: seq<ContextUnit>)
    requires Starts(us, |flags|)
  {
    if us == [] then []
    else (if flags[us[0].start] == tail then [Optional(us[0], tail)] else []) + Side(us[1..], flags, tail)
  }

  function Flags(suffix: set<nat>, rest: seq<nat>): (flags: seq<bool>)
    ensures |flags| == |rest|
  {
    seq(|rest|, k requires 0 <= k < |rest| => Behind(suffix, rest[k]))
  }

  lemma {:induction false} UnitsStart(ms: seq<Message>, start: nat)
    ensures Starts(Units(ms, start), start + |ms|)
  {
    if ms != [] {
      UnitsStart(ms[1..], start + 1);
    }
  }

  /** One side of the cut of a transcript around its required messages. */
  function Cut(fp: Fingerprinter, ms: seq<Message>, prefix: seq<Message>, suffix: seq<Message>, tail: bool): seq<ContextUnit> {
    var last := MatchesFromEnd(fp, ms, |ms|, suffix);
    var rest := Rest(|ms|, MatchesFromStart(fp, ms, 0, prefix) + last);
    var units := Units(At(ms, rest), 0);
    UnitsStart(At(ms, rest), 0);
    Side(units, Flags(last, rest), tail)
  }

  lemma {:induction false} SideOf(us: seq<Unit>, flags: seq<bool>, tail: bool)
    requires Starts(us, |flags|)
    ensures forall u :: u in Side(us, flags, tail) ==> exists v :: v in us && u == Optional(v, tail)
  {
    if us != [] {
      SideOf(us[1..], flags, tail);
    }
  }

  /** Whatever the transcript, each optional unit is a valid exchange or a single message. An exchange is more
      important than a message behind the newest request, and that more than one before it. */
  lemma CutIsValid(fp: Fingerprinter, ms: seq<Message>, prefix: seq<Message>, suffix: seq<Message>, tail: bool)
    ensures forall u :: u in Cut(fp, ms, prefix, suffix, tail) ==> ProtocolValid(u.messages) && u.fingerprint == ""
    ensures forall u :: u in Cut(fp, ms, prefix, suffix, tail) ==>
              u.messages != [] && u.priority == (if u.messages[0].calls != [] then 100 else if tail then 90 else 50)
  {
    var last := MatchesFromEnd(fp, ms, |ms|, suffix);
    var rest := Rest(|ms|, MatchesFromStart(fp, ms, 0, prefix) + last);
    UnitsStart(At(ms, rest), 0);
    UnitsAreValid(At(ms, rest), 0);
    SideOf(Units(At(ms, rest), 0), Flags(last, rest), tail);
  }

  lemma {:induction false} SideHas(us: seq<Unit>, flags: seq<bool>, u: Unit)
    requires Starts(us, |flags|) && u in us
    ensures Optional(u, flags[u.start]) in Side(us, flags, flags[u.start])
  {
    if us[0] != u { SideHas(us[1..], flags, u); }
  }

  /** Nothing is lost silently: a message that is not required and no part of an exchange is offered
      as a unit of its own, on its side of the newest request. */
  lemma {:induction false} PlainIsOffered(fp: Fingerprinter, ms: seq<Message>, prefix: seq<Message>, suffix: seq<Message>, i: nat)
    requires i < |ms| && Plain(ms[i])
    requires i !in MatchesFromStart(fp, ms, 0, prefix) && i !in MatchesFromEnd(fp, ms, |ms|, suffix)
    ensures var last := MatchesFromEnd(fp, ms, |ms|, suffix);
            var tail := last != {} && forall k :: k in last ==> k < i;
            ContextUnit("", if tail then 90 else 50, 0, [ms[i]], false) in Cut(fp, ms, prefix, suffix, tail)
  {
    var last := MatchesFromEnd(fp, ms, |ms|, suffix);
    var rest := Rest(|ms|, MatchesFromStart(fp, ms, 0, prefix) + last);
    assert i in rest;
    var k :| 0 <= k < |rest| && rest[k] == i;
    PlainHasSide(ms, rest, last, k);
    assert Behind(last, i) <==> last != {} && forall k :: k in last ==> k < i;
    hide Units, Rest, MatchesFromStart, MatchesFromEnd, Side, Plain, Behind;
  }

  lemma PlainHasSide(ms: seq<Message>, rest: seq<nat>, last: set<nat>, k: nat)
    requires (forall l :: 0 <= l < |rest| ==> rest[l] < |ms|) && k < |rest| && Plain(ms[rest[k]])
    ensures var us, tail := Units(At(ms, rest), 0), Behind(last, rest[k]);
            Starts(us, |rest|)
            && ContextUnit("", Priority(false, tail), 0, [ms[rest[k]]], false) in Side(us, Flags(last, rest), tail)
  {
    var picked := At(ms, rest);
    UnitsStart(picked, 0);
    PlainIsUnit(picked, 0, k);
    hide Units, Side, Behind;
    SideHas(Units(picked, 0), Flags(last, rest), Unit(k, [picked[k]]));
  }

  // ----- the method -----

  method CallIds(calls: seq<Call>) returns (wanted: set<string>)
    ensures wanted == Ids(calls)
  {
    wanted := {};
    for i := 0 to |calls|
      invariant wanted == Ids(calls[..i])
    {
      IdsAppend(calls[..i], calls[i]);
      assert calls[..i + 1] == calls[..i] + [calls[i]];
      wanted := wanted + {calls[i].id};
    }
    assert calls[..|calls|] == calls;
  }

  ghost predicate Counts(seen: map<string, nat>, answers: seq<Message>) {
    forall id :: CountId(answers, id) == if id in seen then seen[id] else 0
  }

  lemma {:induction false} CountAppend(ms: seq<Message>, m: Message, id: string)
    ensures CountId(ms + [m], id) == CountId(ms, id) + if m.toolCallId == id then 1 else 0
  {
    if ms == [] {
      assert (ms + [m])[1..] == [];
    } else {
      assert (ms + [m])[1..] == ms[1..] + [m];
      CountAppend(ms[1..], m, id);
    }
  }

  lemma {:induction false} NoAnswers(wanted: set<string>)
    ensures Wanted([], wanted) == [] && Counts(map[], [])
  {
  }

  lemma CountNext(seen: map<string, nat>, answers: seq<Message>, m: Message)
    requires Counts(seen, answers)
    ensures Counts(seen[m.toolCallId := (if m.toolCallId in seen then seen[m.toolCallId] else 0) + 1], answers + [m])
  {
    forall id ensures CountId(answers + [m], id) == CountId(answers, id) + if m.toolCallId == id then 1 else 0 {
      CountAppend(answers, m, id);
    }
  }

  lemma {:induction false} NextTool(ms: seq<Message>, from: nat, end: nat, wanted: set<string>)
    requires from <= end < |ms| && IsTool(ms[end])
    ensures ToolRun(ms[end..]) == 1 + ToolRun(ms[end + 1..])
    ensures Wanted(ms[from..end + 1], wanted)
            == Wanted(ms[from..end], wanted) + if ms[end].toolCallId in wanted then [ms[end]] else []
  {
    assert ms[end..][1..] == ms[end + 1..];
    WantedAppend(ms[from..end], ms[end], wanted);
    assert ms[from..end] + [ms[end]] == ms[from..end + 1];
  }

  /** The answers that follow a call message, and how often each id was seen. */
  method CollectAnswers(remaining: seq<Message>, index: nat, wanted: set<string>)
    returns (answers: seq<Message>, seen: map<string, nat>, end: nat)
    requires index < |remaining|
    ensures end == index + 1 + ToolRun(remaining[index + 1..])
    ensures answers == Wanted(remaining[index + 1..end], wanted) && Counts(seen, answers)
  {
    hide IsTool, Wanted, CountId;
    answers, seen, end := [], map[], index + 1;
    NoAnswers(wanted);
    assert remaining[end..end] == [];
    while end < |remaining| && IsTool(remaining[end])
      invariant index < end <= |remaining|
      invariant ToolRun(remaining[index + 1..]) == end - (index + 1) + ToolRun(remaining[end..])
      invariant answers == Wanted(remaining[index + 1..end], wanted) && Counts(seen, answers)
    {
      var m := remaining[end];
      NextTool(remaining, index + 1, end, wanted);
      if m.toolCallId in wanted {
        CountNext(seen, answers, m);
        seen := seen[m.toolCallId := (if m.toolCallId in seen then seen[m.toolCallId] else 0) + 1];
        answers := answers + [m];
      }
      end := end + 1;
    }
  }

  lemma {:induction false} WantedAppend(run: seq<Message>, m: Message, ids: set<string>)
    ensures Wanted(run + [m], ids) == Wanted(run, ids) + if m.toolCallId in ids then [m] else []
  {
    if run == [] {
      assert run + [m] == [m] && [m][1..] == [];
    } else {
      assert (run + [m])[1..] == run[1..] + [m];
      WantedAppend(run[1..], m, ids);
    }
  }

  lemma ExchangeCut(ms: seq<Message>, start: nat, end: nat)
    requires ms != [] && !IsTool(ms[0]) && ms[0].calls != [] && end == 1 + ToolRun(ms[1..])
    ensures var ids := Ids(ms[0].calls);
            var answers := Wanted(ms[1..end], ids);
            Units(ms, start) == (if Complete(answers, ids) then [Unit(start, [ms[0]] + answers)] else [])
                                + Units(ms[end..], start + end)
  {
    hide Units, Wanted, Complete, ToolRun;
    FirstUnit(ms, start, end);
    assert ms[1..][end - 1..] == ms[end..];
    ToolsYieldNothing(ms[1..], end - 1, start + 1);
  }

  lemma FirstUnit(ms: seq<Message>, start: nat, end: nat)
    requires ms != [] && !IsTool(ms[0]) && ms[0].calls != [] && end == 1 + ToolRun(ms[1..])
    ensures var ids := Ids(ms[0].calls);
            var answers := Wanted(ms[1..end], ids);
            Units(ms, start) == (if Complete(answers, ids) then [Unit(start, [ms[0]] + answers)] else []) + Units(ms[1..], start + 1)
  {
    assert ms[..end][1..] == ms[1..end];
    hide Wanted, Complete, ToolRun;
  }

  /** A call message with the answers after it. */
  method CutExchange(remaining: seq<Message>, index: nat) returns (unit: seq<Message>, end: nat)
    requires index < |remaining| && !IsTool(remaining[index]) && remaining[index].calls != []
    ensures index < end <= |remaining|
    ensures Units(remaining[index..], index)
            == (if unit == [] then [] else [Unit(index, unit)]) + Units(remaining[end..], end)
    ensures unit != [] ==> unit[0] == remaining[index]
  {
    hide Units, Wanted, CountId;
    var m := remaining[index];
    var wanted := CallIds(m.calls);
    var answers, seen;
    answers, seen, end := CollectAnswers(remaining, index, wanted);
    var valid := |answers| == |wanted| && forall id :: id in wanted ==> id in seen && seen[id] == 1;
    assert valid <==> Complete(answers, wanted);
    unit := if valid then [m] + answers else [];
    Slices(remaining, index, end);
    ExchangeCut(remaining[index..], index, end - index);
  }

  lemma Slices(ms: seq<Message>, from: nat, end: nat)
    requires from < end <= |ms|
    ensures ms[from..][1..] == ms[from + 1..] && ms[from..][1..end - from] == ms[from + 1..end]
    ensures ms[from..][end - from..] == ms[end..]
  {
  }

  /** One round of the cutting loop: the unit at index, if any, and where the next one starts. */
  method CutUnit(remaining: seq<Message>, index: nat) returns (unit: seq<Message>, end: nat)
    requires index < |remaining|
    ensures index < end <= |remaining|
    ensures Units(remaining[index..], index)
            == (if unit == [] then [] else [Unit(index, unit)]) + Units(remaining[end..], end)
    ensures unit != [] ==> unit[0] == remaining[index]
  {
    var m := remaining[index];
    assert remaining[index..][1..] == remaining[index + 1..];
    if IsTool(m) {
      unit, end := [], index + 1;
    } else if m.calls == [] {
      assert remaining[index..][..1] == [m];
      unit, end := [m], index + 1;
    } else {
      unit, end := CutExchange(remaining, index);
    }
  }

  /** splitTurnContext. */
  method SplitTurnContext(fp: Fingerprinter, ms: seq<Message>, prefix: seq<Message>, suffix: seq<Message>)
    returns (before: seq<ContextUnit>, after: seq<ContextUnit>)
    ensures before == Cut(fp, ms, prefix, suffix, false) && after == Cut(fp, ms, prefix, suffix, true)
  {
    var first := MatchRequiredFromStart(fp, ms, prefix);
    var last := MatchRequiredFromEnd(fp, ms, suffix);
    var remaining, positions := CollectRest(ms, first + last, last);
    ghost var rest := Rest(|ms|, first + last);
    before, after := SplitUnits(remaining, positions);
  }

  /** The cutting loop. */
  method SplitUnits(remaining: seq<Message>, positions: seq<bool>) returns (before: seq<ContextUnit>, after: seq<ContextUnit>)
    requires |positions| == |remaining|
    ensures Starts(Units(remaining, 0), |positions|)
    ensures before == Side(Units(remaining, 0), positions, false) && after == Side(Units(remaining, 0), positions, true)
  {
    hide Units, Side;
    before, after := [], [];
    var index := 0;
    UnitsStart(remaining, 0);
    assert remaining[0..] == remaining;
    while index < |remaining|
      invariant 0 <= index <= |remaining|
      invariant Starts(Units(remaining[index..], index), |positions|)
      invariant before + Side(Units(remaining[index..], index), positions, false) == Side(Units(remaining, 0), positions, false)
      invariant after + Side(Units(remaining[index..], index), positions, true) == Side(Units(remaining, 0), positions, true)
    {
      var unit, end := CutUnit(remaining, index);
      UnitsStart(remaining[end..], end);
      assert [] + Units(remaining[end..], end) == Units(remaining[end..], end);
      if unit != [] {
        var tail := positions[index];
        var optional := ContextUnit("", Priority(remaining[index].calls != [], tail), 0, unit, false);
        NextUnit(index, unit, Units(remaining[end..], end), positions);
        assert optional == Optional(Unit(index, unit), tail);
        if tail {
          Regroup(after, [optional], Side(Units(remaining[end..], end), positions, true));
          after := after + [optional];
        } else {
          Regroup(before, [optional], Side(Units(remaining[end..], end), positions, false));
          before := before + [optional];
        }
      }
      index := end;
    }
    assert remaining[|remaining|..] == [];
    NothingLeft(positions);
  }

  lemma {:induction false} NothingLeft(flags: seq<bool>)
    ensures Units([], |flags|) == [] && Side([], flags, false) == [] && Side([], flags, true) == []
  {
  }

  lemma Regroup(a: seq<ContextUnit>, b: seq<ContextUnit>, c: seq<ContextUnit>)
    ensures a + (b + c) == a + b + c
  {
  }

  lemma {:induction false} NextUnit(index: nat, unit: seq<Message>, more: seq<Unit>, flags: seq<bool>)
    requires unit != [] && index < |flags| && Starts(more, |flags|)
    ensures var us := [Unit(index, unit)] + more;
            Starts(us, |flags|)
            && Side(us, flags, flags[index]) == [Optional(Unit(index, unit), flags[index])] + Side(more, flags, flags[index])
            && Side(us, flags, !flags[index]) == Side(more, flags, !flags[index])
  {
    assert ([Unit(index, unit)] + more)[1..] == more;
  }

  lemma PickOne(ms: seq<Message>, positions: seq<nat>, last: set<nat>, i: nat)
    requires i < |ms| && forall k :: 0 <= k < |positions| ==> positions[k] < |ms|
    ensures At(ms, positions + [i]) == At(ms, positions) + [ms[i]]
    ensures Flags(last, positions + [i]) == Flags(last, positions) + [Behind(last, i)]
  {
  }

  /** The messages that are not required, each with the side it is on. */
  method CollectRest(ms: seq<Message>, skip: set<nat>, last: set<nat>) returns (remaining: seq<Message>, positions: seq<bool>)
    requires last <= skip && forall i :: i in last ==> i < |ms|
    ensures remaining == At(ms, Rest(|ms|, skip)) && positions == Flags(last, Rest(|ms|, skip))
  {
    remaining, positions := [], [];
    hide At, Flags;
    var newestSeen := false;
    for i := 0 to |ms|
      invariant remaining == At(ms, Rest(i, skip)) && positions == Flags(last, Rest(i, skip))
      invariant newestSeen <==> last != {} && forall j :: j in last ==> j < i
    {
      if i in skip {
        if i in last && forall j :: j in last ==> j <= i {
          newestSeen := true;
        }
      } else {
        PickOne(ms, Rest(i, skip), last, i);
        remaining := remaining + [ms[i]];
        positions := positions + [newestSeen];
      }
    }
  }
}
