/**
 Which transcripts a provider accepts, and how a transcript is cut into units
 that keep a message and the answers to its tool calls together.
 */
module ToolProtocol {
  import opened Options
  import opened Wire

  function Ids(calls: seq<Call>): set<string> {
    set i | 0 <= i < |calls| :: calls[i].id
  }

  predicate IsTool(m: Message) {
    m.role == TOOL
  }

  /** A message that neither calls tools nor answers a call. */
  predicate Plain(m: Message) {
    !IsTool(m) && m.calls == []
  }

  /** The tool message at i answers a call of the message at j, with only tool messages between. */
  ghost predicate Answers(ms: seq<Message>, j: int, i: int) {
    && 0 <= j < i < |ms|
    && IsTool(ms[i]) && !IsTool(ms[j])
    && (forall k :: j < k < i ==> IsTool(ms[k]))
    && ms[i].toolCallId in Ids(ms[j].calls)
  }

  ghost predicate AnsweredOnce(ms: seq<Message>, j: int, id: string) {
    && (exists i :: Answers(ms, j, i) && ms[i].toolCallId == id)
    && (forall i, l :: Answers(ms, j, i) && Answers(ms, j, l) && ms[i].toolCallId == ms[l].toolCallId == id ==> i == l)
  }

  /** Every tool message sits in the block right after the message that made its call, and every
      call is answered exactly once there. */
  ghost predicate ProtocolValid(ms: seq<Message>) {
    && (forall i :: 0 <= i < |ms| && IsTool(ms[i]) ==> exists j :: Answers(ms, j, i))
    && (forall j, id :: 0 <= j < |ms| && !IsTool(ms[j]) && id in Ids(ms[j].calls) ==> AnsweredOnce(ms, j, id))
  }

  lemma AnswersInHead(a: seq<Message>, b: seq<Message>, j: int, i: int)
    requires i < |a|
    ensures Answers(a + b, j, i) <==> Answers(a, j, i)
  {
    if 0 <= j < i {
      assert forall k :: j <= k <= i ==> (a + b)[k] == a[k];
    }
  }

  lemma AnswersInTail(a: seq<Message>, b: seq<Message>, j: int, i: int)
    requires 0 <= j && |a| <= i
    requires b != [] ==> !IsTool(b[0])
    ensures Answers(a + b, j, i) <==> Answers(b, j - |a|, i - |a|)
  {
    var ms := a + b;
    if i < |ms| {
      assert forall k :: |a| <= k < |ms| ==> ms[k] == b[k - |a|];
      if j < |a| && |a| < i {
        assert !IsTool(ms[|a|]);
      } else if |a| <= j < i {
        if Answers(b, j - |a|, i - |a|) {
          forall k | j < k < i ensures IsTool(ms[k]) { assert IsTool(b[k - |a|]); }
        }
        if Answers(ms, j, i) {
          forall k | j - |a| < k < i - |a| ensures IsTool(b[k]) { assert IsTool(ms[k + |a|]); }
        }
      }
    }
  }

  lemma StartsWithoutTool(ms: seq<Message>)
    requires ProtocolValid(ms) && ms != []
    ensures !IsTool(ms[0])
  {
    assert forall j :: !Answers(ms, j, 0);
  }

  /** Valid transcripts can be joined. */
  lemma ValidConcat(a: seq<Message>, b: seq<Message>)
    requires ProtocolValid(a) && ProtocolValid(b)
    ensures ProtocolValid(a + b)
  {
    if b != [] { StartsWithoutTool(b); }
    var ms := a + b;
    forall i | 0 <= i < |ms| && IsTool(ms[i]) ensures exists j :: Answers(ms, j, i) {
      if i < |a| {
        var j :| Answers(a, j, i);
        AnswersInHead(a, b, j, i);
      } else {
        var j :| Answers(b, j, i - |a|);
        AnswersInTail(a, b, j + |a|, i);
      }
    }
    forall j, id | 0 <= j < |ms| && !IsTool(ms[j]) && id in Ids(ms[j].calls) ensures AnsweredOnce(ms, j, id) {
      if j < |a| { HeadAnsweredOnce(a, b, j, id); } else { TailAnsweredOnce(a, b, j, id); }
    }
  }

  lemma HeadAnsweredOnce(a: seq<Message>, b: seq<Message>, j: nat, id: string)
    requires j < |a| && AnsweredOnce(a, j, id) && (b != [] ==> !IsTool(b[0]))
    ensures AnsweredOnce(a + b, j, id)
  {
    var i :| Answers(a, j, i) && a[i].toolCallId == id;
    AnswersInHead(a, b, j, i);
    forall i, l | Answers(a + b, j, i) && Answers(a + b, j, l) && (a + b)[i].toolCallId == (a + b)[l].toolCallId == id
      ensures i == l
    {
      if i >= |a| { AnswersInTail(a, b, j, i); } else { AnswersInHead(a, b, j, i); }
      if l >= |a| { AnswersInTail(a, b, j, l); } else { AnswersInHead(a, b, j, l); }
    }
  }

  lemma TailAnsweredOnce(a: seq<Message>, b: seq<Message>, j: nat, id: string)
    requires |a| <= j && AnsweredOnce(b, j - |a|, id) && (b != [] ==> !IsTool(b[0]))
    ensures AnsweredOnce(a + b, j, id)
  {
    var i :| Answers(b, j - |a|, i) && b[i].toolCallId == id;
    AnswersInTail(a, b, j, i + |a|);
    forall i, l | Answers(a + b, j, i) && Answers(a + b, j, l) && (a + b)[i].toolCallId == (a + b)[l].toolCallId == id
      ensures i == l
    {
      AnswersInTail(a, b, j, i);
      AnswersInTail(a, b, j, l);
    }
  }

  lemma PlainIsValid(ms: seq<Message>)
    requires forall i :: 0 <= i < |ms| ==> Plain(ms[i])
    ensures ProtocolValid(ms)
  {
  }

  // ----- cutting a transcript into units -----

  /** How many tool messages the list starts with. */
  function ToolRun(ms: seq<Message>): (n: nat)
    ensures n <= |ms|
    ensures forall i :: 0 <= i < n ==> IsTool(ms[i])
    ensures n < |ms| ==> !IsTool(ms[n])
  {
    if ms == [] || !IsTool(ms[0]) then 0 else 1 + ToolRun(ms[1..])
  }

  /** The messages of a tool run that answer one of the wanted calls. */
  function Wanted(run: seq<Message>, ids: set<string>): (kept: seq<Message>)
    ensures |kept| <= |run|
    ensures forall i :: 0 <= i < |kept| ==> kept[i] in run && kept[i].toolCallId in ids
  {
    if run == [] then []
    else if run[0].toolCallId in ids then [run[0]] + Wanted(run[1..], ids)
    else Wanted(run[1..], ids)
  }

  function CountId(ms: seq<Message>, id: string): nat {
    if ms == [] then 0 else (if ms[0].toolCallId == id then 1 else 0) + CountId(ms[1..], id)
  }

  /** Every wanted id answered exactly once, and nothing else. */
  predicate Complete(answers: seq<Message>, ids: set<string>) {
    |answers| == |ids| && forall id :: id in ids ==> CountId(answers, id) == 1
  }

  /** The length of the first unit's stretch: a message and, if it calls tools, the run after it. */
  function Stretch(ms: seq<Message>): (n: nat)
    requires ms != []
    ensures 1 <= n <= |ms|
  {
    if IsTool(ms[0]) || ms[0].calls == [] then 1 else 1 + ToolRun(ms[1..])
  }

  /** A unit and the position of its first message. */
  datatype Unit = Unit(start: nat, messages: seq<Message>)

  /** The unit that a stretch yields; none for a stray tool message or an incomplete exchange. */
  function UnitOf(stretch: seq<Message>, start: nat): seq<Unit>
    requires stretch != []
  {
    if IsTool(stretch[0]) then []
    else if stretch[0].calls == [] then [Unit(start, [stretch[0]])]
    else
      var answers := Wanted(stretch[1..], Ids(stretch[0].calls));
      if Complete(answers, Ids(stretch[0].calls)) then [Unit(start, [stretch[0]] + answers)] else []
  }

  /** All units of a message list that begins at position start, in order. The tool messages of a
      stretch are passed over again on their own, where they yield nothing. */
  function Units(ms: seq<Message>, start: nat): seq<Unit> {
    if ms == [] then []
    else UnitOf(ms[..Stretch(ms)], start) + Units(ms[1..], start + 1)
  }

  lemma {:induction false} ToolsYieldNothing(ms: seq<Message>, n: nat, start: nat)
    requires n <= |ms| && forall i :: 0 <= i < n ==> IsTool(ms[i])
    ensures Units(ms, start) == Units(ms[n..], start + n)
  {
    if n > 0 {
      ToolsYieldNothing(ms[1..], n - 1, start + 1);
      assert ms[1..][n - 1..] == ms[n..];
    }
  }

  // ----- units are valid on their own -----

  lemma {:induction false} CountedIsThere(ms: seq<Message>, id: string)
    requires CountId(ms, id) >= 1
    ensures exists i :: 0 <= i < |ms| && ms[i].toolCallId == id
  {
    if ms[0].toolCallId != id {
      CountedIsThere(ms[1..], id);
      var i :| 0 <= i < |ms[1..]| && ms[1..][i].toolCallId == id;
      assert ms[i + 1].toolCallId == id;
    }
  }

  lemma {:induction false} CountBound(ms: seq<Message>, id: string, i: nat)
    requires i < |ms| && ms[i].toolCallId == id
    ensures CountId(ms, id) >= 1
  {
    if i > 0 { CountBound(ms[1..], id, i - 1); }
  }

  lemma {:induction false} CountedOnce(ms: seq<Message>, id: string, i: nat, j: nat)
    requires CountId(ms, id) == 1 && i < |ms| && j < |ms| && ms[i].toolCallId == ms[j].toolCallId == id
    ensures i == j
  {
    if i == 0 && j > 0 {
      CountBound(ms[1..], id, j - 1);
    } else if j == 0 && i > 0 {
      CountBound(ms[1..], id, i - 1);
    } else if i > 0 && j > 0 {
      CountBound(ms[1..], id, i - 1);
      CountedOnce(ms[1..], id, i - 1, j - 1);
    }
  }

  /** A call message followed by a complete set of answers is a valid transcript. */
  lemma ExchangeIsValid(m: Message, answers: seq<Message>)
    requires !IsTool(m) && Complete(answers, Ids(m.calls))
    requires forall i :: 0 <= i < |answers| ==> IsTool(answers[i]) && answers[i].toolCallId in Ids(m.calls)
    ensures ProtocolValid([m] + answers)
  {
    var ms := [m] + answers;
    forall i | 0 <= i < |ms| && IsTool(ms[i]) ensures exists j :: Answers(ms, j, i) {
      assert Answers(ms, 0, i);
    }
    forall id | id in Ids(m.calls) ensures AnsweredOnce(ms, 0, id) {
      ExchangeAnswersOnce(m, answers, id);
    }
  }

  lemma {:induction false} ExchangeAnswersOnce(m: Message, answers: seq<Message>, id: string)
    requires !IsTool(m) && id in Ids(m.calls) && CountId(answers, id) == 1
    requires forall i :: 0 <= i < |answers| ==> IsTool(answers[i])
    ensures AnsweredOnce([m] + answers, 0, id)
  {
    var ms := [m] + answers;
    CountedIsThere(answers, id);
    var i :| 0 <= i < |answers| && answers[i].toolCallId == id;
    assert Answers(ms, 0, i + 1) && ms[i + 1].toolCallId == id;
    forall i, l | Answers(ms, 0, i) && Answers(ms, 0, l) && ms[i].toolCallId == ms[l].toolCallId == id ensures i == l {
      CountedOnce(answers, id, i - 1, l - 1);
    }
  }

  /** Every unit cut from any transcript whatever is valid on its own, so it can be kept or
      dropped alone. */
  lemma {:induction false} UnitsAreValid(ms: seq<Message>, start: nat)
    ensures forall u :: u in Units(ms, start) ==> u.messages != [] && ProtocolValid(u.messages)
  {
    if ms != [] {
      var stretch := ms[..Stretch(ms)];
      UnitsAreValid(ms[1..], start + 1);
      if Plain(ms[0]) {
        PlainIsValid([ms[0]]);
      } else if !IsTool(ms[0]) {
        var answers := Wanted(stretch[1..], Ids(ms[0].calls));
        assert stretch[1..] == ms[1..][..ToolRun(ms[1..])];
        if Complete(answers, Ids(ms[0].calls)) { ExchangeIsValid(ms[0], answers); }
      }
    }
  }

  /** A valid exchange is cut as itself. */
  lemma {:induction false} WantedAll(run: seq<Message>, ids: set<string>)
    requires forall i :: 0 <= i < |run| ==> run[i].toolCallId in ids
    ensures Wanted(run, ids) == run
  {
    if run != [] { WantedAll(run[1..], ids); }
  }

  lemma {:induction false} ToolRunConcat(a: seq<Message>, b: seq<Message>)
    requires b == [] || !IsTool(b[0])
    ensures ToolRun(a + b) == ToolRun(a)
  {
    if a == [] {
      assert a + b == b;
    } else if IsTool(a[0]) {
      assert (a + b)[1..] == a[1..] + b;
      ToolRunConcat(a[1..], b);
    }
  }

  /** The first unit of a list does not depend on what follows a message that is no tool answer. */
  lemma FirstUnitConcat(a: seq<Message>, b: seq<Message>, start: nat) returns (first: seq<Unit>)
    requires a != [] && (b == [] || !IsTool(b[0]))
    ensures Units(a, start) == first + Units(a[1..], start + 1)
    ensures Units(a + b, start) == first + Units(a[1..] + b, start + 1)
  {
    first := UnitOf(a[..Stretch(a)], start);
    assert (a + b)[1..] == a[1..] + b;
    ToolRunConcat(a[1..], b);
    assert (a + b)[..Stretch(a)] == a[..Stretch(a)];
    hide UnitOf;
  }

  lemma {:induction false} NoUnits(b: seq<Message>, start: nat)
    ensures [] + b == b && Units([], start) + Units(b, start) == Units(b, start)
  {
  }

  /** Cutting does not look past a message that is not a tool answer. */
  lemma {:induction false} UnitsConcat(a: seq<Message>, b: seq<Message>, start: nat)
    requires b == [] || !IsTool(b[0])
    ensures Units(a + b, start) == Units(a, start) + Units(b, start + |a|)
  {
    hide *;
    if a == [] {
      NoUnits(b, start);
    } else {
      var first := FirstUnitConcat(a, b, start);
      UnitsConcat(a[1..], b, start + 1);
      Regroup(first, Units(a[1..], start + 1), Units(b, start + |a|));
    }
  }

  lemma Regroup(a: seq<Unit>, b: seq<Unit>, c: seq<Unit>)
    ensures a + (b + c) == a + b + c
  {
  }

  /** No message that stands for itself is lost in the cut. */
  lemma {:induction false} PlainIsUnit(ms: seq<Message>, start: nat, i: nat)
    requires i < |ms| && Plain(ms[i])
    ensures Unit(start + i, [ms[i]]) in Units(ms, start)
  {
    if i == 0 {
      assert ms[..1] == [ms[0]];
      assert UnitOf(ms[..1], start) == [Unit(start, [ms[0]])];
    } else {
      PlainIsUnit(ms[1..], start + 1, i - 1);
    }
  }

  // ----- the block that a tool batch appends -----

  predicate DistinctIds(calls: seq<Call>) {
    forall i, j :: 0 <= i < j < |calls| ==> calls[i].id != calls[j].id
  }

  function ResultMessages(calls: seq<Call>, encoded: seq<string>): (ms: seq<Message>)
    requires |calls| == |encoded|
    ensures |ms| == |calls|
  {
    seq(|calls|, i requires 0 <= i < |calls| => Message(TOOL, Some(encoded[i]), [], calls[i].id))
  }

  /** The assistant's calls followed by one result message per call. */
  function RegistryBlock(content: Option<string>, calls: seq<Call>, encoded: seq<string>): (block: seq<Message>)
    requires |calls| == |encoded|
    ensures |block| == 1 + |calls|
  {
    [Message(ASSISTANT, content, calls, "")] + ResultMessages(calls, encoded)
  }

  lemma {:induction false} IdsCardinality(calls: seq<Call>)
    requires DistinctIds(calls)
    ensures |Ids(calls)| == |calls|
  {
    if calls != [] {
      var last := calls[|calls| - 1];
      var front := calls[..|calls| - 1];
      IdsCardinality(front);
      IdsAppend(front, last);
      assert calls == front + [last];
      assert last.id !in Ids(front);
    }
  }

  lemma IdsAppend(calls: seq<Call>, last: Call)
    ensures Ids(calls + [last]) == Ids(calls) + {last.id}
  {
    var more := calls + [last];
    assert more[|calls|].id == last.id;
    forall id | id in Ids(calls) ensures id in Ids(more) {
      var i :| 0 <= i < |calls| && calls[i].id == id;
      assert more[i].id == id;
    }
  }

  lemma {:induction false} ResultCount(calls: seq<Call>, encoded: seq<string>, i: nat)
    requires |calls| == |encoded| && DistinctIds(calls) && i < |calls|
    ensures CountId(ResultMessages(calls, encoded), calls[i].id) == 1
  {
    var ms := ResultMessages(calls, encoded);
    assert ms[1..] == ResultMessages(calls[1..], encoded[1..]);
    if i == 0 {
      NotCounted(ms[1..], calls[0].id);
    } else {
      ResultCount(calls[1..], encoded[1..], i - 1);
    }
  }

  lemma {:induction false} NotCounted(ms: seq<Message>, id: string)
    requires forall i :: 0 <= i < |ms| ==> ms[i].toolCallId != id
    ensures CountId(ms, id) == 0
  {
    if ms != [] { NotCounted(ms[1..], id); }
  }

  lemma {:induction false} ToolRunAll(ms: seq<Message>)
    requires forall i :: 0 <= i < |ms| ==> IsTool(ms[i])
    ensures ToolRun(ms) == |ms|
  {
    if ms != [] { ToolRunAll(ms[1..]); }
  }

  /** Every block that a batch appends is cut as exactly one unit, the block itself, wherever it
      stands before a message that is not a tool answer. */
  lemma RegistryBlockIsOneUnit(a: seq<Message>, content: Option<string>, calls: seq<Call>, encoded: seq<string>,
                               block: seq<Message>, b: seq<Message>, start: nat)
    requires calls != [] && |calls| == |encoded| && DistinctIds(calls)
    requires block == RegistryBlock(content, calls, encoded)
    requires b == [] || !IsTool(b[0])
    ensures Units(a + block + b, start)
            == Units(a, start) + [Unit(start + |a|, block)] + Units(b, start + |a| + |block|)
  {
    hide *;
    BlockUnits(content, calls, encoded, start + |a|);
    UnitsAround(a, block, b, start);
  }

  lemma UnitsAround(a: seq<Message>, block: seq<Message>, b: seq<Message>, start: nat)
    requires block != [] && !IsTool(block[0]) && (b == [] || !IsTool(b[0]))
    ensures Units(a + block + b, start)
            == Units(a, start) + Units(block, start + |a|) + Units(b, start + |a| + |block|)
  {
    hide *;
    UnitsConcat(a + block, b, start);
    UnitsConcat(a, block, start);
  }

  lemma {:induction false} BlockUnits(content: Option<string>, calls: seq<Call>, encoded: seq<string>, start: nat)
    requires calls != [] && |calls| == |encoded| && DistinctIds(calls)
    ensures Units(RegistryBlock(content, calls, encoded), start)
            == [Unit(start, RegistryBlock(content, calls, encoded))]
    ensures !IsTool(RegistryBlock(content, calls, encoded)[0])
  {
    var block, results := RegistryBlock(content, calls, encoded), ResultMessages(calls, encoded);
    assert block[1..] == results;
    ToolRunAll(results);
    assert Stretch(block) == |block| && block[..|block|] == block;
    forall i | 0 <= i < |results| ensures results[i].toolCallId in Ids(calls) {
      assert results[i].toolCallId == calls[i].id;
    }
    WantedAll(results, Ids(calls));
    IdsCardinality(calls);
    forall id | id in Ids(calls) ensures CountId(results, id) == 1 {
      var i :| 0 <= i < |calls| && calls[i].id == id;
      ResultCount(calls, encoded, i);
    }
    assert Complete(results, Ids(calls));
    ToolsYieldNothing(results, |results|, start + 1);
  }
}
