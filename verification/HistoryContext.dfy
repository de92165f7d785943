/**
 The units that the loaded conversation is offered in: a message, and with it the
 answers to its tool calls. Unlike a running transcript, which is checked when it
 is cut, history is taken as it comes; so what the units are worth depends on it.
 */
module HistoryContext {
  import opened Options
  import opened Wire
  import opened ToolProtocol
  import opened TurnContext

  /** Whether a text is internal tool evidence, which is not shown again. */
  type Marker = string -> bool

  predicate Skipped(internal: Marker, m: Message) {
    internal(Text(m)) || m.role == SYSTEM
  }

  /** The rebuilt message: a missing content becomes an empty one. */
  function Copied(m: Message): Message {
    m.(content := Some(Text(m)))
  }

  function CopiedAll(ms: seq<Message>): (out: seq<Message>)
    ensures |out| == |ms|
  {
    seq(|ms|, i requires 0 <= i < |ms| => Copied(ms[i]))
  }

  /** How many tool messages at the front answer one of the ids. */
  function AnswerRun(ms: seq<Message>, ids: set<string>): (n: nat)
    ensures n <= |ms|
    ensures forall i :: 0 <= i < n ==> IsTool(ms[i]) && ms[i].toolCallId in ids
    ensures n < |ms| ==> !(IsTool(ms[n]) && ms[n].toolCallId in ids)
  {
    if ms != [] && IsTool(ms[0]) && ms[0].toolCallId in ids then 1 + AnswerRun(ms[1..], ids) else 0
  }

  /** The length of the group that the first message leads. */
  function Group(h: seq<Message>): (n: nat)
    requires h != []
    ensures 1 <= n <= |h|
  {
    1 + AnswerRun(h[1..], Ids(h[0].calls))
  }

  function HistoryUnits(internal: Marker, h: seq<Message>): seq<seq<Message>> {
    if h == [] then []
    else if Skipped(internal, h[0]) then HistoryUnits(internal, h[1..])
    else [CopiedAll(h[..Group(h)])] + HistoryUnits(internal, h[Group(h)..])
  }

  /** The answers right behind a calling message are collected with it. */
  method CollectGroup(h: seq<Message>, index: nat) returns (unit: seq<Message>, next: nat)
    requires index < |h|
    ensures next == index + Group(h[index..]) && unit == CopiedAll(h[index..next])
  {
    hide CopiedAll, AnswerRun;
    unit, next := [], index;
    CopyNext(h, index, index);
    GroupAt(h, index);
    unit, next := unit + [Copied(h[index])], index + 1;
    if h[index].calls != [] {
      var ids := CallIds(h[index].calls);
      while next < |h| && IsTool(h[next]) && h[next].toolCallId in ids
        invariant index < next <= |h|
        invariant unit == CopiedAll(h[index..next])
        invariant Group(h[index..]) == next - index + AnswerRun(h[next..], ids)
      {
        CopyNext(h, index, next);
        AnswerNext(h, next, ids);
        unit, next := unit + [Copied(h[next])], next + 1;
      }
      AnswerNext(h, next, ids);
    }
  }

  lemma CopyNext(h: seq<Message>, from: nat, to: nat)
    requires from <= to < |h|
    ensures CopiedAll(h[from..from]) == [] && CopiedAll(h[from..to + 1]) == CopiedAll(h[from..to]) + [Copied(h[to])]
  {
  }

  lemma GroupAt(h: seq<Message>, index: nat)
    requires index < |h|
    ensures Group(h[index..]) == 1 + AnswerRun(h[index + 1..], Ids(h[index].calls))
    ensures h[index].calls == [] ==> Group(h[index..]) == 1
  {
    assert h[index..][1..] == h[index + 1..];
  }

  lemma {:induction false} AnswerNext(h: seq<Message>, next: nat, ids: set<string>)
    requires next <= |h|
    ensures AnswerRun(h[next..], ids)
            == if next < |h| && IsTool(h[next]) && h[next].toolCallId in ids then 1 + AnswerRun(h[next + 1..], ids) else 0
  {
    if next < |h| { assert h[next..][1..] == h[next + 1..]; }
  }

  /** historyContextUnits. */
  method HistoryContextUnits(internal: Marker, h: seq<Message>) returns (units: seq<seq<Message>>)
    ensures units == HistoryUnits(internal, h)
  {
    units := [];
    var index := 0;
    while index < |h|
      invariant index <= |h| && units + HistoryUnits(internal, h[index..]) == HistoryUnits(internal, h)
    {
      hide HistoryUnits, Group;
      NextUnit(internal, h, index);
      if Skipped(internal, h[index]) {
        index := index + 1;
      } else {
        var unit, next := CollectGroup(h, index);
        Regroup(units, unit, HistoryUnits(internal, h[next..]));
        units, index := units + [unit], next;
      }
    }
  }

  lemma NextUnit(internal: Marker, h: seq<Message>, index: nat)
    requires index < |h|
    ensures HistoryUnits(internal, h[index..])
            == if Skipped(internal, h[index]) then HistoryUnits(internal, h[index + 1..])
               else
                 var next := index + Group(h[index..]);
                 [CopiedAll(h[index..next])] + HistoryUnits(internal, h[next..])
  {
    var rest := h[index..];
    var n := Group(rest);
    assert rest[1..] == h[index + 1..] && rest[..n] == h[index..index + n] && rest[n..] == h[index + n..];
  }

  lemma Regroup(units: seq<seq<Message>>, unit: seq<Message>, more: seq<seq<Message>>)
    ensures units + ([unit] + more) == units + [unit] + more
  {
  }

  // ----- what the units hold -----

  function Flat(units: seq<seq<Message>>): seq<Message> {
    if units == [] then [] else units[0] + Flat(units[1..])
  }

  function Shown(internal: Marker, h: seq<Message>): seq<Message> {
    if h == [] then []
    else (if Skipped(internal, h[0]) then [] else [Copied(h[0])]) + Shown(internal, h[1..])
  }

  /** Whatever the history, no unit brings in a system message: the policy has no rival. */
  lemma {:induction false} NoSystemMessage(internal: Marker, h: seq<Message>)
    ensures forall u, m :: u in HistoryUnits(internal, h) && m in u ==> m.role != SYSTEM
  {
    if h != [] {
      if Skipped(internal, h[0]) {
        NoSystemMessage(internal, h[1..]);
      } else {
        NoSystemMessage(internal, h[Group(h)..]);
        assert forall m :: m in CopiedAll(h[..Group(h)]) ==> m.role != SYSTEM;
      }
    }
  }

  /** Only skipped messages are lost and the order stays, as long as no tool message counts as skipped. */
  lemma {:induction false} UnitsShowTheHistory(internal: Marker, h: seq<Message>)
    requires forall m :: m in h && IsTool(m) ==> !Skipped(internal, m)
    ensures Flat(HistoryUnits(internal, h)) == Shown(internal, h)
  {
    if h != [] {
      if Skipped(internal, h[0]) {
        UnitsShowTheHistory(internal, h[1..]);
      } else {
        UnitsShowTheHistory(internal, h[Group(h)..]);
        GroupIsShown(internal, h, Group(h));
      }
    }
  }

  lemma {:induction false} GroupIsShown(internal: Marker, h: seq<Message>, n: nat)
    requires n <= |h| && forall i :: 0 <= i < n ==> !Skipped(internal, h[i])
    ensures Shown(internal, h) == CopiedAll(h[..n]) + Shown(internal, h[n..])
  {
    if n == 0 {
      assert h[0..] == h;
    } else {
      var g := h[1..];
      GroupIsShown(internal, g, n - 1);
      assert g[n - 1..] == h[n..];
      CopiedFront(h, n);
      hide CopiedAll, Copied;
    }
  }

  lemma CopiedFront(h: seq<Message>, n: nat)
    requires 0 < n <= |h|
    ensures CopiedAll(h[..n]) == [Copied(h[0])] + CopiedAll(h[1..][..n - 1])
  {
  }

  // ----- which histories make valid units -----

  /** A valid transcript can be cut in front of a message that is not a tool's. */
  lemma ValidSplit(a: seq<Message>, b: seq<Message>)
    requires ProtocolValid(a + b) && (b != [] ==> !IsTool(b[0]))
    ensures ProtocolValid(a) && ProtocolValid(b)
  {
    HeadIsValid(a, b);
    TailIsValid(a, b);
  }

  lemma HeadIsValid(a: seq<Message>, b: seq<Message>)
    requires ProtocolValid(a + b) && (b != [] ==> !IsTool(b[0]))
    ensures ProtocolValid(a)
  {
    var ms := a + b;
    forall i | 0 <= i < |a| && IsTool(a[i]) ensures exists j :: Answers(a, j, i) {
      assert IsTool(ms[i]);
      var j :| Answers(ms, j, i);
      AnswersInHead(a, b, j, i);
    }
    forall j, id | 0 <= j < |a| && !IsTool(a[j]) && id in Ids(a[j].calls) ensures AnsweredOnce(a, j, id) {
      assert ms[j] == a[j] && AnsweredOnce(ms, j, id);
      var i :| Answers(ms, j, i) && ms[i].toolCallId == id;
      if i >= |a| { AnswersInTail(a, b, j, i); }
      AnswersInHead(a, b, j, i);
      forall i, l | Answers(a, j, i) && Answers(a, j, l) && a[i].toolCallId == a[l].toolCallId == id ensures i == l {
        AnswersInHead(a, b, j, i);
        AnswersInHead(a, b, j, l);
      }
    }
  }

  lemma TailIsValid(a: seq<Message>, b: seq<Message>)
    requires ProtocolValid(a + b) && (b != [] ==> !IsTool(b[0]))
    ensures ProtocolValid(b)
  {
    var ms, n := a + b, |a|;
    forall i | 0 <= i < |b| && IsTool(b[i]) ensures exists j :: Answers(b, j, i) {
      assert ms[n + i] == b[i];
      var j :| Answers(ms, j, n + i);
      AnswererInTail(a, b, j, i);
    }
    forall j, id | 0 <= j < |b| && !IsTool(b[j]) && id in Ids(b[j].calls) ensures AnsweredOnce(b, j, id) {
      assert ms[n + j] == b[j] && AnsweredOnce(ms, n + j, id);
      TailAnsweredAlone(a, b, j, id);
    }
  }

  lemma AnswererInTail(a: seq<Message>, b: seq<Message>, j: int, i: nat)
    requires Answers(a + b, j, |a| + i) && b != [] && !IsTool(b[0])
    ensures Answers(b, j - |a|, i)
  {
    AnswersInTail(a, b, j, |a| + i);
  }

  lemma TailAnsweredAlone(a: seq<Message>, b: seq<Message>, j: nat, id: string)
    requires AnsweredOnce(a + b, |a| + j, id) && (b != [] ==> !IsTool(b[0]))
    ensures AnsweredOnce(b, j, id)
  {
    var ms, n := a + b, |a|;
    var i :| Answers(ms, n + j, i) && ms[i].toolCallId == id;
    AnswersInTail(a, b, n + j, i);
    assert Answers(b, j, i - n) && b[i - n].toolCallId == id;
    forall i, l | Answers(b, j, i) && Answers(b, j, l) && b[i].toolCallId == b[l].toolCallId == id ensures i == l {
      AnswersInTail(a, b, n + j, n + i);
      AnswersInTail(a, b, n + j, n + l);
    }
  }

  /** Behind a group of a valid history stands no further tool message. */
  lemma GroupEndsBlock(h: seq<Message>)
    requires ProtocolValid(h) && h != []
    ensures Group(h) < |h| ==> !IsTool(h[Group(h)])
  {
    StartsWithoutTool(h);
    if Group(h) < |h| {
      forall j ensures !Answers(h, j, Group(h)) {
        NotInGroup(h, j);
      }
    }
  }

  lemma NotInGroup(h: seq<Message>, j: int)
    requires h != [] && Group(h) < |h|
    ensures !Answers(h, j, Group(h))
  {
    var run := h[1..];
    assert h[Group(h)] == run[Group(h) - 1];
    if 1 <= j < Group(h) {
      assert h[j] == run[j - 1];
    }
  }

  lemma CopyIsValid(ms: seq<Message>)
    ensures ProtocolValid(CopiedAll(ms)) <==> ProtocolValid(ms)
  {
    var out := CopiedAll(ms);
    forall j, i ensures Answers(out, j, i) <==> Answers(ms, j, i) {
      SameAnswer(ms, j, i);
    }
    forall j, id ensures AnsweredOnce(out, j, id) <==> AnsweredOnce(ms, j, id) {
      SameAnswers(ms, j, id);
    }
    assert forall i :: 0 <= i < |ms| ==> (IsTool(out[i]) <==> IsTool(ms[i])) && out[i].calls == ms[i].calls;
  }

  lemma SameAnswer(ms: seq<Message>, j: int, i: int)
    ensures Answers(CopiedAll(ms), j, i) <==> Answers(ms, j, i)
  {
    var out := CopiedAll(ms);
    assert forall k :: 0 <= k < |ms| ==> (IsTool(out[k]) <==> IsTool(ms[k]));
    if 0 <= j < i < |ms| {
      assert out[j].calls == ms[j].calls && out[i].toolCallId == ms[i].toolCallId;
    }
  }

  lemma SameAnswers(ms: seq<Message>, j: int, id: string)
    ensures AnsweredOnce(CopiedAll(ms), j, id) <==> AnsweredOnce(ms, j, id)
  {
    var out := CopiedAll(ms);
    forall i ensures Answers(out, j, i) <==> Answers(ms, j, i) {
      SameAnswer(ms, j, i);
    }
    assert forall i :: 0 <= i < |ms| ==> out[i].toolCallId == ms[i].toolCallId;
  }

  /** If every skipped message is plain, the units are valid transcripts exactly if the history is one. */
  lemma {:induction false} UnitsValidIffHistoryIs(internal: Marker, h: seq<Message>)
    requires forall m :: m in h && Skipped(internal, m) ==> Plain(m)
    ensures (forall u :: u in HistoryUnits(internal, h) ==> ProtocolValid(u)) <==> ProtocolValid(h)
  {
    if h == [] {
      PlainIsValid([]);
    } else {
      var n := if Skipped(internal, h[0]) then 1 else Group(h);
      var a, b := h[..n], h[n..];
      assert a + b == h;
      UnitsValidIffHistoryIs(internal, b);
      CopyIsValid(a);
      if Skipped(internal, h[0]) {
        assert h[0] in h;
        PlainIsValid(a);
      } else {
        assert HistoryUnits(internal, h) == [CopiedAll(a)] + HistoryUnits(internal, b);
      }
      if ProtocolValid(h) {
        GroupEndsBlock(h);
        ValidSplit(a, b);
      }
      if ProtocolValid(a) && ProtocolValid(b) {
        ValidConcat(a, b);
      }
    }
  }

  /** In a valid history a call message is followed by a tool's. */
  lemma CallIsAnswered(h: seq<Message>)
    requires ProtocolValid(h) && h != [] && !IsTool(h[0]) && h[0].calls != []
    ensures |h| > 1 && IsTool(h[1])
  {
    var id := h[0].calls[0].id;
    assert id in Ids(h[0].calls);
    assert AnsweredOnce(h, 0, id);
    var i :| Answers(h, 0, i) && h[i].toolCallId == id;
  }

  lemma {:induction false} StartsWithTool(internal: Marker, h: seq<Message>)
    requires h != [] && IsTool(h[0]) && !Skipped(internal, h[0])
    ensures exists u :: u in HistoryUnits(internal, h) && !ProtocolValid(u)
  {
    var u := CopiedAll(h[..Group(h)]);
    assert u == HistoryUnits(internal, h)[0];
    if ProtocolValid(u) { StartsWithoutTool(u); }
  }

  /** A skipped message with calls leaves its answers behind, as a unit that no provider accepts: the units of a
      valid history whose answers are all shown are valid exactly if every skipped message is plain. */
  lemma {:induction false} SkippedCallOrphansItsAnswer(internal: Marker, h: seq<Message>)
    requires ProtocolValid(h) && forall m :: m in h && IsTool(m) ==> !Skipped(internal, m)
    ensures (forall u :: u in HistoryUnits(internal, h) ==> ProtocolValid(u))
            <==> forall m :: m in h && Skipped(internal, m) ==> Plain(m)
  {
    if forall m :: m in h && Skipped(internal, m) ==> Plain(m) {
      UnitsValidIffHistoryIs(internal, h);
    } else {
      InvalidUnit(internal, h);
    }
  }

  lemma {:induction false} InvalidUnit(internal: Marker, h: seq<Message>)
    requires ProtocolValid(h) && forall m :: m in h && IsTool(m) ==> !Skipped(internal, m)
    requires exists m :: m in h && Skipped(internal, m) && !Plain(m)
    ensures exists u :: u in HistoryUnits(internal, h) && !ProtocolValid(u)
  {
    StartsWithoutTool(h);
    var n := if Skipped(internal, h[0]) then 1 else Group(h);
    var a, b := h[..n], h[n..];
    assert a + b == h;
    if Skipped(internal, h[0]) && h[0].calls != [] {
      CallIsAnswered(h);
      assert b[0] == h[1];
      StartsWithTool(internal, b);
    } else {
      GroupEndsBlock(h);
      ValidSplit(a, b);
      GroupIsKept(internal, h);
      InvalidUnit(internal, b);
    }
  }

  /** Behind the first message of a group stand its answers only. */
  lemma GroupIsKept(internal: Marker, h: seq<Message>)
    requires h != [] && forall m :: m in h && IsTool(m) ==> !Skipped(internal, m)
    ensures forall m :: m in h[..Group(h)] ==> m == h[0] || !Skipped(internal, m)
  {
    forall i | 0 < i < Group(h) ensures !Skipped(internal, h[i]) {
      assert h[i] == h[1..][i - 1];
    }
  }

  /** Such a history: one call that is skipped, and its answer. */
  lemma OneSkippedCall(internal: Marker, text: string, call: Call)
    requires internal(text) && !internal("")
    ensures var h := [Message(ASSISTANT, Some(text), [call], ""), Message(TOOL, Some(""), [], call.id)];
            ProtocolValid(h) && exists u :: u in HistoryUnits(internal, h) && !ProtocolValid(u)
  {
    var m, answer := Message(ASSISTANT, Some(text), [call], ""), Message(TOOL, Some(""), [], call.id);
    var h := [m, answer];
    assert Ids([call]) == {call.id} by { assert [call][0].id in Ids([call]); }
    assert Answers(h, 0, 1);
    assert h[1..] == [answer] && HistoryUnits(internal, h) == HistoryUnits(internal, [answer]);
    assert !Skipped(internal, answer) && Group([answer]) == 1 && [answer][..1] == [answer];
    assert CopiedAll([answer]) == [answer] == HistoryUnits(internal, [answer])[0];
    assert [answer] in HistoryUnits(internal, h);
    assert IsTool([answer][0]) && forall j :: !Answers([answer], j, 0);
  }
}
