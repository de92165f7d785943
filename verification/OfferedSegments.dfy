/**
 What splitTurnContext makes of the transcript of a run: the required messages
 are taken out first, and what is left is still cut into the messages and blocks
 that were appended, each offered once.
 */
module OfferedSegments {
  import opened Options
  import opened Wire
  import opened ToolProtocol
  import opened ContextBudget
  import opened TurnContext
  import opened ResultIndex
  import opened TurnProjection
  import opened TurnTranscript

  // ----- positions that are left -----

  /** The positions that are not taken out, from the front. */
  function Positions(from: nat, end: nat, skip: set<nat>): (left: seq<nat>)
    requires from <= end
    ensures forall k :: 0 <= k < |left| ==> left[k] < end
    decreases end - from
  {
    if from == end then [] else (if from in skip then [] else [from]) + Positions(from + 1, end, skip)
  }

  lemma {:induction false} PositionsSplit(from: nat, mid: nat, end: nat, skip: set<nat>)
    requires from <= mid <= end
    ensures Positions(from, end, skip) == Positions(from, mid, skip) + Positions(mid, end, skip)
    decreases mid - from
  {
    if from < mid { PositionsSplit(from + 1, mid, end, skip); }
  }

  lemma {:induction false} RestIsPositions(n: nat, skip: set<nat>)
    ensures Rest(n, skip) == Positions(0, n, skip)
  {
    if n > 0 {
      RestIsPositions(n - 1, skip);
      PositionsSplit(0, n - 1, n, skip);
    }
  }

  function Range(from: nat, end: nat): (range: seq<nat>)
    requires from <= end
    ensures |range| == end - from && forall k :: 0 <= k < |range| ==> range[k] == from + k
  {
    seq(end - from, i requires 0 <= i < end - from => from + i)
  }

  lemma {:induction false} NothingSkipped(from: nat, end: nat, skip: set<nat>)
    requires from <= end && forall i :: from <= i < end ==> i !in skip
    ensures Positions(from, end, skip) == Range(from, end)
    decreases end - from
  {
    if from < end { NothingSkipped(from + 1, end, skip); }
  }

  // ----- segments that are left -----

  /** Only plain messages are taken out. */
  ghost predicate SkipsPlain(ms: seq<Message>, skip: set<nat>) {
    forall i :: i in skip && i < |ms| ==> Plain(ms[i])
  }

  /** The segments but for the messages taken out; `at` is the position of the first. */
  function Kept(gs: seq<Segment>, at: nat, skip: set<nat>): (kept: seq<Segment>)
    requires AllProper(gs)
    ensures AllProper(kept)
  {
    if gs == [] then []
    else (if gs[0].Note? && at in skip then [] else [gs[0]]) + Kept(gs[1..], at + |MessagesOf(gs[0])|, skip)
  }

  /** The units offered for the segments on one side, in order. */
  function SegmentSide(gs: seq<Segment>, at: nat, skip: set<nat>, last: set<nat>, tail: bool): seq<ContextUnit>
    requires AllProper(gs)
  {
    if gs == [] then []
    else (if Behind(last, at) == tail && !(gs[0].Note? && at in skip) then [Optional(Unit(at, MessagesOf(gs[0])), tail)] else [])
         + SegmentSide(gs[1..], at + |MessagesOf(gs[0])|, skip, last, tail)
  }

  /** The positions of the first segment. */
  function FirstLeft(g: Segment, at: nat, skip: set<nat>): (left: seq<nat>)
    requires Proper(g)
    ensures forall k :: 0 <= k < |left| ==> at <= left[k] < at + |MessagesOf(g)|
  {
    if g.Note? && at in skip then [] else Range(at, at + |MessagesOf(g)|)
  }

  lemma BlockIsSpared(ms: seq<Message>, at: nat, g: Segment, skip: set<nat>, i: nat)
    requires Proper(g) && g.Exchange? && SkipsPlain(ms, skip)
    requires at + |MessagesOf(g)| <= |ms| && ms[at..at + |MessagesOf(g)|] == MessagesOf(g)
    requires at <= i < at + |MessagesOf(g)|
    ensures i !in skip
  {
    BlockIsNotPlain(g, i - at);
    assert ms[i] == ms[at..at + |MessagesOf(g)|][i - at];
    hide MessagesOf, Plain;
  }

  lemma {:induction false} SegmentPositions(ms: seq<Message>, at: nat, g: Segment, skip: set<nat>)
    requires Proper(g) && SkipsPlain(ms, skip)
    requires at + |MessagesOf(g)| <= |ms| && ms[at..at + |MessagesOf(g)|] == MessagesOf(g)
    ensures Positions(at, at + |MessagesOf(g)|, skip) == FirstLeft(g, at, skip)
  {
    var next := at + |MessagesOf(g)|;
    if g.Note? {
      NotePosition(g.message, at, skip);
    } else {
      hide MessagesOf, SkipsPlain, Positions;
      forall i | at <= i < next ensures i !in skip {
        BlockIsSpared(ms, at, g, skip, i);
      }
      NothingSkipped(at, next, skip);
    }
  }

  lemma {:induction false} NotePosition(m: Message, at: nat, skip: set<nat>)
    requires Plain(m)
    ensures Positions(at, at + 1, skip) == FirstLeft(Note(m), at, skip)
  {
    assert Positions(at + 1, at + 1, skip) == [];
    assert Range(at, at + 1) == [at];
  }

  lemma BlockIsNotPlain(g: Segment, i: nat)
    requires Proper(g) && g.Exchange? && i < |MessagesOf(g)|
    ensures !Plain(MessagesOf(g)[i])
  {
  }

  lemma FrontSlices(ms: seq<Message>, at: nat, first: seq<Message>, rest: seq<Message>)
    requires at <= |ms| && ms[at..] == first + rest
    ensures at + |first| <= |ms| && ms[at..at + |first|] == first && ms[at + |first|..] == rest
  {
    assert |ms| == at + |first| + |rest|;
    assert ms[at..][..|first|] == ms[at..at + |first|] && ms[at..][|first|..] == ms[at + |first|..];
  }

  lemma {:induction false} TailIsProper(gs: seq<Segment>)
    requires AllProper(gs) && gs != []
    ensures AllProper(gs[1..]) && Proper(gs[0]) && Transcript(gs) == MessagesOf(gs[0]) + Transcript(gs[1..])
  {
  }

  lemma {:induction false} NothingKept(ms: seq<Message>, at: nat, skip: set<nat>)
    requires at <= |ms| && ms[at..] == Transcript([])
    ensures At(ms, Positions(at, |ms|, skip)) == Transcript(Kept([], at, skip)) == [] && at == |ms|
  {
  }

  /** The first segment of what is left of the transcript, and its positions. */
  lemma TranscriptFront(ms: seq<Message>, at: nat, gs: seq<Segment>, skip: set<nat>)
    requires at <= |ms| && AllProper(gs) && gs != [] && ms[at..] == Transcript(gs) && SkipsPlain(ms, skip)
    ensures var next := at + |MessagesOf(gs[0])|;
            next <= |ms| && ms[at..next] == MessagesOf(gs[0]) && ms[next..] == Transcript(gs[1..])
            && Positions(at, |ms|, skip) == FirstLeft(gs[0], at, skip) + Positions(next, |ms|, skip)
  {
    hide *;
    TailIsProper(gs);
    var next := at + |MessagesOf(gs[0])|;
    FrontSlices(ms, at, MessagesOf(gs[0]), Transcript(gs[1..]));
    SegmentPositions(ms, at, gs[0], skip);
    PositionsSplit(at, next, |ms|, skip);
  }

  lemma AtFirst(ms: seq<Message>, at: nat, g: Segment, skip: set<nat>, more: seq<nat>)
    requires Proper(g) && at + |MessagesOf(g)| <= |ms| && ms[at..at + |MessagesOf(g)|] == MessagesOf(g)
    requires forall k :: 0 <= k < |more| ==> more[k] < |ms|
    ensures At(ms, FirstLeft(g, at, skip) + more) == (if g.Note? && at in skip then [] else MessagesOf(g)) + At(ms, more)
  {
    hide MessagesOf;
    var left := FirstLeft(g, at, skip);
    assert At(ms, left + more) == At(ms, left) + At(ms, more);
    assert left != [] ==> At(ms, left) == ms[at..at + |MessagesOf(g)|];
  }

  lemma KeptFront(gs: seq<Segment>, at: nat, skip: set<nat>)
    requires AllProper(gs) && gs != []
    ensures Transcript(Kept(gs, at, skip))
            == (if gs[0].Note? && at in skip then [] else MessagesOf(gs[0])) + Transcript(Kept(gs[1..], at + |MessagesOf(gs[0])|, skip))
  {
    var more := Kept(gs[1..], at + |MessagesOf(gs[0])|, skip);
    assert ([gs[0]] + more)[1..] == more;
    assert [] + more == more;
  }

  /** Taking out plain messages leaves the transcript of the other segments. */
  lemma {:induction false} KeptMessages(ms: seq<Message>, at: nat, gs: seq<Segment>, skip: set<nat>)
    requires at <= |ms| && AllProper(gs) && ms[at..] == Transcript(gs) && SkipsPlain(ms, skip)
    ensures At(ms, Positions(at, |ms|, skip)) == Transcript(Kept(gs, at, skip))
    decreases |gs|
  {
    hide *;
    if gs == [] {
      NothingKept(ms, at, skip);
    } else {
      TailIsProper(gs);
      var next := at + |MessagesOf(gs[0])|;
      TranscriptFront(ms, at, gs, skip);
      KeptMessages(ms, next, gs[1..], skip);
      AtFirst(ms, at, gs[0], skip, Positions(next, |ms|, skip));
      KeptFront(gs, at, skip);
    }
  }

  // ----- the sides of the cut -----

  lemma {:induction false} SideFront(u: Unit, us: seq<Unit>, flags: seq<bool>, tail: bool)
    requires u.messages != [] && u.start < |flags| && Starts(us, |flags|)
    ensures Starts([u] + us, |flags|)
    ensures Side([u] + us, flags, tail) == (if flags[u.start] == tail then [Optional(u, tail)] else []) + Side(us, flags, tail)
  {
    assert ([u] + us)[1..] == us;
  }

  lemma {:induction false} SideConcat(us: seq<Unit>, vs: seq<Unit>, flags: seq<bool>, tail: bool)
    requires Starts(us, |flags|) && Starts(vs, |flags|)
    ensures Starts(us + vs, |flags|) && Side(us + vs, flags, tail) == Side(us, flags, tail) + Side(vs, flags, tail)
  {
    hide *;
    if us == [] {
      NoSide(flags, tail);
      assert us + vs == vs && [] + Side(vs, flags, tail) == Side(vs, flags, tail);
    } else {
      TailStarts(us, |flags|);
      SideConcat(us[1..], vs, flags, tail);
      SideFront(us[0], us[1..] + vs, flags, tail);
      SideFront(us[0], us[1..], flags, tail);
      assert us + vs == [us[0]] + (us[1..] + vs) && us == [us[0]] + us[1..];
    }
  }

  lemma {:induction false} NoSide(flags: seq<bool>, tail: bool)
    ensures Starts([], |flags|) && Side([], flags, tail) == []
  {
  }

  lemma TailStarts(us: seq<Unit>, n: nat)
    requires Starts(us, n) && us != []
    ensures Starts(us[1..], n) && us[0].messages != [] && us[0].start < n
  {
  }

  lemma {:induction false} SideFirst(g: Segment, more: seq<Segment>, start: nat, rest: seq<nat>, at: nat, last: set<nat>, tail: bool)
    requires Proper(g) && AllProper(more) && start < |rest| && rest[start] == at
    requires Starts(SegmentUnits(more, start + |MessagesOf(g)|), |rest|)
    ensures Starts(SegmentUnits([g] + more, start), |rest|)
    ensures Side(SegmentUnits([g] + more, start), Flags(last, rest), tail)
            == (if Behind(last, at) == tail then [Optional(Unit(at, MessagesOf(g)), tail)] else [])
               + Side(SegmentUnits(more, start + |MessagesOf(g)|), Flags(last, rest), tail)
  {
    hide *;
    SegmentUnitsFront(g, more, start);
    FlagAt(g, start, rest, last, tail);
    SideFront(Unit(start, MessagesOf(g)), SegmentUnits(more, start + |MessagesOf(g)|), Flags(last, rest), tail);
  }

  lemma {:induction false} SegmentUnitsFront(g: Segment, more: seq<Segment>, start: nat)
    requires Proper(g) && AllProper(more)
    ensures AllProper([g] + more)
    ensures SegmentUnits([g] + more, start) == [Unit(start, MessagesOf(g))] + SegmentUnits(more, start + |MessagesOf(g)|)
  {
    assert ([g] + more)[1..] == more;
  }

  lemma FlagAt(g: Segment, start: nat, rest: seq<nat>, last: set<nat>, tail: bool)
    requires Proper(g) && start < |rest|
    ensures Flags(last, rest)[start] == Behind(last, rest[start])
    ensures Optional(Unit(start, MessagesOf(g)), tail) == Optional(Unit(rest[start], MessagesOf(g)), tail)
  {
  }

  lemma SegmentSideFront(gs: seq<Segment>, at: nat, skip: set<nat>, last: set<nat>, tail: bool)
    requires AllProper(gs) && gs != []
    ensures Kept(gs, at, skip)
            == (if gs[0].Note? && at in skip then [] else [gs[0]]) + Kept(gs[1..], at + |MessagesOf(gs[0])|, skip)
    ensures SegmentSide(gs, at, skip, last, tail)
            == (if Behind(last, at) == tail && !(gs[0].Note? && at in skip) then [Optional(Unit(at, MessagesOf(gs[0])), tail)] else [])
               + SegmentSide(gs[1..], at + |MessagesOf(gs[0])|, skip, last, tail)
  {
  }

  lemma RestAdvances(rest: seq<nat>, start: nat, g: Segment, at: nat, skip: set<nat>, more: seq<nat>)
    requires Proper(g) && start <= |rest| && rest[start..] == FirstLeft(g, at, skip) + more && !(g.Note? && at in skip)
    ensures start + |MessagesOf(g)| <= |rest| && rest[start] == at && rest[start + |MessagesOf(g)|..] == more
  {
    hide MessagesOf;
    var left := FirstLeft(g, at, skip);
    assert rest[start..][0] == rest[start] == left[0];
    assert rest[start..][|left|..] == rest[start + |left|..];
  }

  /** Each segment that was not taken out is offered once, on its side of the newest request, in order. */
  lemma {:induction false} SideOfSegments(ms: seq<Message>, at: nat, gs: seq<Segment>, skip: set<nat>, rest: seq<nat>, start: nat,
                                          last: set<nat>, tail: bool)
    requires at <= |ms| && AllProper(gs) && ms[at..] == Transcript(gs) && SkipsPlain(ms, skip)
    requires start <= |rest| && rest[start..] == Positions(at, |ms|, skip)
    ensures Starts(SegmentUnits(Kept(gs, at, skip), start), |rest|)
    ensures Side(SegmentUnits(Kept(gs, at, skip), start), Flags(last, rest), tail) == SegmentSide(gs, at, skip, last, tail)
    decreases |gs|
  {
    hide *;
    if gs == [] {
      NoSegments(at, skip, rest, start, last, tail);
    } else {
      TailIsProper(gs);
      var next := at + |MessagesOf(gs[0])|;
      TranscriptFront(ms, at, gs, skip);
      SegmentSideFront(gs, at, skip, last, tail);
      var more := Kept(gs[1..], next, skip);
      if gs[0].Note? && at in skip {
        NothingLeft(gs[0], at, skip, Positions(next, |ms|, skip));
        SideOfSegments(ms, next, gs[1..], skip, rest, start, last, tail);
        assert [] + more == more;
      } else {
        RestAdvances(rest, start, gs[0], at, skip, Positions(next, |ms|, skip));
        SideOfSegments(ms, next, gs[1..], skip, rest, start + |MessagesOf(gs[0])|, last, tail);
        SideFirst(gs[0], more, start, rest, at, last, tail);
      }
    }
  }

  lemma NothingLeft(g: Segment, at: nat, skip: set<nat>, more: seq<nat>)
    requires Proper(g) && g.Note? && at in skip
    ensures FirstLeft(g, at, skip) + more == more
  {
  }

  lemma {:induction false} NoSegments(at: nat, skip: set<nat>, rest: seq<nat>, start: nat, last: set<nat>, tail: bool)
    ensures Starts(SegmentUnits(Kept([], at, skip), start), |rest|)
    ensures Side(SegmentUnits(Kept([], at, skip), start), Flags(last, rest), tail) == SegmentSide([], at, skip, last, tail) == []
  {
  }

  // ----- the cut of a run -----

  /** What is taken out for required plain messages is plain. */
  lemma {:induction false} RequiredArePlain(fp: Fingerprinter, ms: seq<Message>, required: seq<Message>)
    requires Separates(fp) && AllPlain(required)
    ensures SkipsPlain(ms, MatchesFromStart(fp, ms, 0, required)) && SkipsPlain(ms, MatchesFromEnd(fp, ms, |ms|, required))
  {
    forall i: nat | i < |ms| && !Plain(ms[i])
      ensures i !in MatchesFromStart(fp, ms, 0, required) && i !in MatchesFromEnd(fp, ms, |ms|, required)
    {
      forall m | m in required ensures !Same(fp, ms[i], m) {}
      NotRequired(fp, ms, 0, required, i);
      NotRequiredBack(fp, ms, |ms|, required, i);
    }
  }

  /** The units offered for the messages in front of position n. */
  function HeadSide(ms: seq<Message>, n: nat, skip: set<nat>, last: set<nat>, tail: bool): seq<ContextUnit>
    requires n <= |ms|
  {
    var head := At(ms, Positions(0, n, skip));
    UnitsStart(head, 0);
    PositionsSplit(0, n, |ms|, skip);
    Side(Units(head, 0), Flags(last, Positions(0, |ms|, skip)), tail)
  }

  lemma {:induction false} UnitsOfRun(ms: seq<Message>, a: seq<Message>, gs: seq<Segment>, skip: set<nat>)
    requires AllProper(gs) && ms == a + Transcript(gs) && SkipsPlain(ms, skip)
    ensures var head := Positions(0, |a|, skip);
            Units(At(ms, Rest(|ms|, skip)), 0) == Units(At(ms, head), 0) + SegmentUnits(Kept(gs, |a|, skip), |head|)
  {
    hide *;
    LeftOfRun(ms, a, gs, skip);
    var head := Positions(0, |a|, skip);
    KeptStarts(gs, |a|, skip);
    UnitsConcat(At(ms, head), Transcript(Kept(gs, |a|, skip)), 0);
    SegmentsAreUnits(Kept(gs, |a|, skip), |head|);
  }

  lemma {:induction false} LeftOfRun(ms: seq<Message>, a: seq<Message>, gs: seq<Segment>, skip: set<nat>)
    requires AllProper(gs) && ms == a + Transcript(gs) && SkipsPlain(ms, skip)
    ensures At(ms, Rest(|ms|, skip)) == At(ms, Positions(0, |a|, skip)) + Transcript(Kept(gs, |a|, skip))
    ensures |At(ms, Positions(0, |a|, skip))| == |Positions(0, |a|, skip)|
  {
    hide *;
    assert ms[|a|..] == Transcript(gs);
    RestIsPositions(|ms|, skip);
    PositionsSplit(0, |a|, |ms|, skip);
    AtSplit(ms, Positions(0, |a|, skip), Positions(|a|, |ms|, skip));
    KeptMessages(ms, |a|, gs, skip);
  }

  lemma AtSplit(ms: seq<Message>, x: seq<nat>, y: seq<nat>)
    requires (forall k :: 0 <= k < |x| ==> x[k] < |ms|) && (forall k :: 0 <= k < |y| ==> y[k] < |ms|)
    ensures At(ms, x + y) == At(ms, x) + At(ms, y)
  {
  }

  lemma {:induction false} KeptStarts(gs: seq<Segment>, at: nat, skip: set<nat>)
    requires AllProper(gs)
    ensures AllProper(Kept(gs, at, skip))
    ensures var ms := Transcript(Kept(gs, at, skip)); ms == [] || !IsTool(ms[0])
  {
    hide Transcript, IsTool;
  }

  /** splitTurnContext on the transcript of a run: behind what it offers for the messages in front, each
      segment that is not a required message is offered once, on its side of the newest request. */
  lemma {:induction false} CutOfRun(fp: Fingerprinter, ms: seq<Message>, a: seq<Message>, gs: seq<Segment>, prefix: seq<Message>,
                                    suffix: seq<Message>, tail: bool)
    requires Separates(fp) && AllPlain(prefix) && AllPlain(suffix)
    requires AllProper(gs) && ms == a + Transcript(gs)
    ensures var last := MatchesFromEnd(fp, ms, |ms|, suffix);
            var skip := MatchesFromStart(fp, ms, 0, prefix) + last;
            SkipsPlain(ms, skip)
            && Cut(fp, ms, prefix, suffix, tail) == HeadSide(ms, |a|, skip, last, tail) + SegmentSide(gs, |a|, skip, last, tail)
  {
    var last := MatchesFromEnd(fp, ms, |ms|, suffix);
    var skip := MatchesFromStart(fp, ms, 0, prefix) + last;
    RequiredArePlain(fp, ms, prefix);
    RequiredArePlain(fp, ms, suffix);
    assert ms[|a|..] == Transcript(gs);
    hide Transcript, Kept, Units, SegmentUnits, Side, Behind, MatchesFromStart, MatchesFromEnd, Separates, AllProper, SegmentSide, Plain;
    var head, rest := Positions(0, |a|, skip), Positions(0, |ms|, skip);
    RestIsPositions(|ms|, skip);
    PositionsSplit(0, |a|, |ms|, skip);
    UnitsOfRun(ms, a, gs, skip);
    assert rest[|head|..] == Positions(|a|, |ms|, skip);
    hide Positions, Rest;
    SideOfSegments(ms, |a|, gs, skip, rest, |head|, last, tail);
    UnitsStart(At(ms, head), 0);
    SideConcat(Units(At(ms, head), 0), SegmentUnits(Kept(gs, |a|, skip), |head|), Flags(last, rest), tail);
  }

  // ----- a turn -----

  /** The blocks among units, and among segments. */
  function Blocks(units: seq<ContextUnit>): seq<seq<Message>> {
    if units == [] then []
    else (if units[0].priority == CALLS_PRIORITY then [units[0].messages] else []) + Blocks(units[1..])
  }

  function ExchangeBlocks(gs: seq<Segment>): seq<seq<Message>>
    requires AllProper(gs)
  {
    if gs == [] then []
    else (if gs[0].Exchange? then [MessagesOf(gs[0])] else []) + ExchangeBlocks(gs[1..])
  }

  lemma {:induction false} BlocksFront(u: ContextUnit, units: seq<ContextUnit>)
    ensures Blocks([u] + units) == (if u.priority == CALLS_PRIORITY then [u.messages] else []) + Blocks(units)
  {
    assert ([u] + units)[1..] == units;
  }

  lemma {:induction false} ExchangeFront(g: Segment, gs: seq<Segment>)
    requires Proper(g) && AllProper(gs)
    ensures AllProper([g] + gs)
    ensures ExchangeBlocks([g] + gs) == (if g.Exchange? then [MessagesOf(g)] else []) + ExchangeBlocks(gs)
  {
    assert ([g] + gs)[1..] == gs;
  }

  lemma UnitOfSegment(g: Segment, at: nat, tail: bool)
    requires Proper(g)
    ensures var u := Optional(Unit(at, MessagesOf(g)), tail);
            u.messages == MessagesOf(g) && (u.priority == CALLS_PRIORITY <==> g.Exchange?)
  {
  }

  /** Between the two sides every block is offered exactly once, alone in its unit. */
  lemma {:induction false} BlocksAreOfferedOnce(gs: seq<Segment>, at: nat, skip: set<nat>, last: set<nat>)
    requires AllProper(gs)
    ensures multiset(Blocks(SegmentSide(gs, at, skip, last, false))) + multiset(Blocks(SegmentSide(gs, at, skip, last, true)))
            == multiset(ExchangeBlocks(gs))
  {
    hide *;
    if gs == [] {
      NoBlocks(at, skip, last);
    } else {
      TailIsProper(gs);
      var next := at + |MessagesOf(gs[0])|;
      BlocksAreOfferedOnce(gs[1..], next, skip, last);
      SideBlocks(gs, at, skip, last, false);
      SideBlocks(gs, at, skip, last, true);
      assert [gs[0]] + gs[1..] == gs;
      ExchangeFront(gs[0], gs[1..]);
    }
  }

  lemma {:induction false} NoBlocks(at: nat, skip: set<nat>, last: set<nat>)
    ensures Blocks(SegmentSide([], at, skip, last, false)) == [] == Blocks(SegmentSide([], at, skip, last, true))
    ensures ExchangeBlocks([]) == []
  {
  }

  lemma SideBlocks(gs: seq<Segment>, at: nat, skip: set<nat>, last: set<nat>, tail: bool)
    requires AllProper(gs) && gs != []
    ensures Blocks(SegmentSide(gs, at, skip, last, tail))
            == (if gs[0].Exchange? && Behind(last, at) == tail then [MessagesOf(gs[0])] else [])
               + Blocks(SegmentSide(gs[1..], at + |MessagesOf(gs[0])|, skip, last, tail))
  {
    var more := SegmentSide(gs[1..], at + |MessagesOf(gs[0])|, skip, last, tail);
    var u := Optional(Unit(at, MessagesOf(gs[0])), tail);
    SegmentSideFront(gs, at, skip, last, tail);
    UnitOfSegment(gs[0], at, tail);
    BlocksFront(u, more);
    assert [] + more == more;
    hide SegmentSide, MessagesOf, Blocks, Optional, Behind;
  }

  /** Taking out messages and looking through the views leaves the blocks, with the results as they are viewed. */
  lemma {:induction false} KeptBlocks(gs: seq<Segment>, at: nat, skip: set<nat>, views: map<string, string>)
    requires AllProper(gs)
    ensures ExchangeBlocks(AllSegmentsViewed(Kept(gs, at, skip), views)) == ExchangeBlocks(AllSegmentsViewed(gs, views))
  {
    hide Transcript, MessagesOf, ExchangeBlocks, AllSegmentsViewed, AllProper, Proper, SegmentViewed;
    if gs != [] {
      TailIsProper(gs);
      var g, more := gs[0], Kept(gs[1..], at + |MessagesOf(gs[0])|, skip);
      KeptBlocks(gs[1..], at + |MessagesOf(g)|, skip, views);
      ViewedFront(g, gs[1..], views);
      assert [g] + gs[1..] == gs;
      if !(g.Note? && at in skip) {
        ViewedFront(g, more, views);
      } else {
        assert [] + more == more;
      }
    }
  }

  lemma {:induction false} ViewedFront(g: Segment, gs: seq<Segment>, views: map<string, string>)
    requires Proper(g) && AllProper(gs)
    ensures AllProper([g] + gs)
    ensures ExchangeBlocks(AllSegmentsViewed([g] + gs, views))
            == (if g.Exchange? then [MessagesOf(SegmentViewed(g, views))] else []) + ExchangeBlocks(AllSegmentsViewed(gs, views))
  {
    assert ([g] + gs)[1..] == gs;
    ExchangeFront(SegmentViewed(g, views), AllSegmentsViewed(gs, views));
    hide MessagesOf, ExchangeBlocks;
  }

  /** The positions of the transcript that the current runtime messages take out. */
  function Taken(fp: Fingerprinter, t: Turn): set<nat> {
    MatchesFromEnd(fp, t.transcript, |t.transcript|, t.input.runtime)
  }

  /** What is left of the first n messages of the transcript, with results as their views. */
  function FrontOf(fp: Fingerprinter, t: Turn, n: nat): seq<Message>
    requires n <= |t.transcript|
  {
    AllViewed(At(t.transcript, Positions(0, n, Taken(fp, t))), t.views)
  }

  /** The segments behind them as the cut sees them. */
  function SeenOf(fp: Fingerprinter, t: Turn, n: nat, gs: seq<Segment>): (seen: seq<Segment>)
    requires AllProper(gs)
    ensures AllProper(seen)
  {
    AllSegmentsViewed(Kept(gs, n, Taken(fp, t)), t.views)
  }

  lemma {:induction false} CleanOfRun(fp: Fingerprinter, t: Turn, a: seq<Message>, gs: seq<Segment>)
    requires Separates(fp) && AllPlain(t.input.runtime) && AllProper(gs) && t.transcript == a + Transcript(gs)
    ensures Clean(fp, t) == FrontOf(fp, t, |a|) + Transcript(SeenOf(fp, t, |a|, gs))
  {
    var front := At(t.transcript, Positions(0, |a|, Taken(fp, t)));
    RequiredArePlain(fp, t.transcript, t.input.runtime);
    hide Transcript, Kept, Positions, Rest, MatchesFromEnd, SkipsPlain, AllViewed, At, Separates, AllPlain, AllProper;
    LeftOfRun(t.transcript, a, gs, Taken(fp, t));
    AllViewedConcat(front, Transcript(Kept(gs, |a|, Taken(fp, t))), t.views);
    ViewsKeepShape(Kept(gs, |a|, Taken(fp, t)), t.views);
  }

  /** The optional units of the turn: the caller's, those of the front, and those of the segments. */
  ghost predicate OffersSegments(fp: Fingerprinter, t: Turn, n: nat, seen: seq<Segment>)
    requires AllProper(seen)
  {
    var ms, x := Clean(fp, t), WithTranscript(fp, t);
    var last := MatchesFromEnd(fp, ms, |ms|, t.input.suffix);
    var skip := MatchesFromStart(fp, ms, 0, t.input.prefix) + last;
    && n <= |ms|
    && x.optional == t.input.optional + HeadSide(ms, n, skip, last, false) + SegmentSide(seen, n, skip, last, false)
    && x.optionalTail == t.input.optionalTail + HeadSide(ms, n, skip, last, true) + SegmentSide(seen, n, skip, last, true)
    && multiset(Blocks(SegmentSide(seen, n, skip, last, false))) + multiset(Blocks(SegmentSide(seen, n, skip, last, true)))
       == multiset(ExchangeBlocks(seen))
  }

  /** For the transcript of a run behind any messages: the runtime, policy and request messages are taken out,
      and what is offered of the run is each other message and each block exactly once, in order, on its side
      of the newest request. No block is taken out, split, joined or offered twice. */
  lemma {:induction false} RunIsOfferedOnce(fp: Fingerprinter, t: Turn, a: seq<Message>, gs: seq<Segment>)
    requires Separates(fp) && AllPlain(t.input.prefix) && AllPlain(t.input.suffix) && AllPlain(t.input.runtime)
    requires AllProper(gs) && t.transcript == a + Transcript(gs)
    ensures OffersSegments(fp, t, |FrontOf(fp, t, |a|)|, SeenOf(fp, t, |a|, gs))
    ensures ExchangeBlocks(SeenOf(fp, t, |a|, gs)) == ExchangeBlocks(AllSegmentsViewed(gs, t.views))
  {
    hide *;
    var ms, front, seen := Clean(fp, t), FrontOf(fp, t, |a|), SeenOf(fp, t, |a|, gs);
    SeenBlocks(fp, t, |a|, gs);
    CleanOfRun(fp, t, a, gs);
    CutOfRun(fp, ms, front, seen, t.input.prefix, t.input.suffix, false);
    CutOfRun(fp, ms, front, seen, t.input.prefix, t.input.suffix, true);
    var last := MatchesFromEnd(fp, ms, |ms|, t.input.suffix);
    BlocksAreOfferedOnce(seen, |front|, MatchesFromStart(fp, ms, 0, t.input.prefix) + last, last);
    SidesAreOffered(fp, t, |front|, seen);
  }

  lemma {:induction false} SeenBlocks(fp: Fingerprinter, t: Turn, n: nat, gs: seq<Segment>)
    requires AllProper(gs)
    ensures ExchangeBlocks(SeenOf(fp, t, n, gs)) == ExchangeBlocks(AllSegmentsViewed(gs, t.views))
  {
    KeptBlocks(gs, n, Taken(fp, t), t.views);
  }

  lemma {:induction false} SidesAreOffered(fp: Fingerprinter, t: Turn, n: nat, seen: seq<Segment>)
    requires AllProper(seen) && n <= |Clean(fp, t)|
    requires var ms := Clean(fp, t);
             var last := MatchesFromEnd(fp, ms, |ms|, t.input.suffix);
             var skip := MatchesFromStart(fp, ms, 0, t.input.prefix) + last;
             && (forall tail :: Cut(fp, ms, t.input.prefix, t.input.suffix, tail)
                                == HeadSide(ms, n, skip, last, tail) + SegmentSide(seen, n, skip, last, tail))
             && multiset(Blocks(SegmentSide(seen, n, skip, last, false))) + multiset(Blocks(SegmentSide(seen, n, skip, last, true)))
                == multiset(ExchangeBlocks(seen))
    ensures OffersSegments(fp, t, n, seen)
  {
    hide Clean, Cut, HeadSide, SegmentSide, MatchesFromStart, MatchesFromEnd, Blocks, ExchangeBlocks, AllProper;
  }

  /** So each batch that the engine appended is offered exactly once to a request that the assembler projects. */
  lemma {:induction false} AssemblerOffersRun(fp: Fingerprinter, a: seq<Message>, gs: seq<Segment>, views: map<string, string>,
                                              receipts: Option<Receipts>, policy: Message, newest: Message, runtime: seq<Message>,
                                              maxTokens: int, reserveTokens: int, manifestTokens: int)
    requires Separates(fp) && Plain(policy) && Plain(newest) && AllPlain(runtime) && AllProper(gs)
    ensures var t := TurnOf(a + Transcript(gs), views, receipts, policy, newest, runtime, maxTokens, reserveTokens, manifestTokens);
            OffersSegments(fp, t, |FrontOf(fp, t, |a|)|, SeenOf(fp, t, |a|, gs))
            && ExchangeBlocks(SeenOf(fp, t, |a|, gs)) == ExchangeBlocks(AllSegmentsViewed(gs, views))
  {
    hide Separates, OffersSegments, FrontOf, SeenOf, ExchangeBlocks, Transcript, AllProper;
    RunIsOfferedOnce(fp, TurnOf(a + Transcript(gs), views, receipts, policy, newest, runtime, maxTokens, reserveTokens, manifestTokens), a, gs);
  }
}
