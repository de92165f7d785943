/**
 The first request of a turn: the policy, the conversation and the room as
 optional units, and the prompt.
 */
module InitialRequest {
  import opened Options
  import opened Wire
  import opened ToolProtocol
  import opened ContextBudget
  import TurnContext
  import ResultIndex
  import opened TurnProjection
  import HistoryContext
  import RoomContext

  const MEMORY_PRIORITY := 50
  const HISTORICAL_PRIORITY := 70
  const RECENT_PRIORITY := 80

  /** Configured limits; zero or less means unset. */
  datatype Config = Config(maxContextTokens: int, maxPromptChars: int, reserveTokens: int)

  /** maxContextTokens. */
  function MaxContextTokens(c: Config): (n: int)
    ensures n > 0
    ensures c.maxContextTokens <= 0 ==> 8000 <= n <= MAX_CONTEXT_TOKENS
  {
    if c.maxContextTokens > 0 then c.maxContextTokens
    else
      var chars := if 0 < c.maxPromptChars <= 500000 && c.maxPromptChars * 8 > 32000 then c.maxPromptChars * 8 else 32000;
      (chars + 3) / 4
  }

  /** If it is unset, the maximum is twice the number of prompt characters, but at least 8000 and never out of range. */
  lemma UnsetMaximum(c: Config)
    requires c.maxContextTokens <= 0
    ensures MaxContextTokens(c) == if 4000 < c.maxPromptChars <= 500_000 then 2 * c.maxPromptChars else 8000
  {
  }

  /** What a turn is opened with: the prompt as it came and as it is put to the model, the rendered policy
      (None if it cannot be rendered), the loaded history, the old tool evidence as a dated text, the room. */
  datatype Opening = Opening(prompt: string, request: string, policy: Option<string>, whisper: bool,
                             internal: HistoryContext.Marker, history: seq<Message>, historical: Option<(string, int)>,
                             recent: RoomContext.Recent, manifest: nat)

  datatype Prepared = Prepared(projection: Projection) | PromptTooLong | NoPolicy | TooLarge(error: Error)

  function UserMessage(text: string): Message {
    Message(USER, Some(text), [], "")
  }

  function SystemMessage(text: string): Message {
    Message(SYSTEM, Some(text), [], "")
  }

  function MemoryUnits(units: seq<seq<Message>>): (out: seq<ContextUnit>)
    ensures |out| == |units|
  {
    seq(|units|, i requires 0 <= i < |units| => ContextUnit("", MEMORY_PRIORITY, 0, units[i], false))
  }

  function RecentUnits(parts: seq<RoomContext.Part>): (out: seq<ContextUnit>)
    ensures |out| == |parts|
  {
    seq(|parts|, i requires 0 <= i < |parts| =>
      ContextUnit("", RECENT_PRIORITY, parts[i].timestamp, [UserMessage(parts[i].text)], false))
  }

  function HistoricalUnits(historical: Option<(string, int)>): seq<ContextUnit> {
    if historical.None? then []
    else [ContextUnit("", HISTORICAL_PRIORITY, historical.value.1, [UserMessage(historical.value.0)], false)]
  }

  /** The optional units: the history, and outside of a whisper old evidence and the room. */
  function Offered(o: Opening, parts: seq<RoomContext.Part>): seq<ContextUnit> {
    MemoryUnits(HistoryContext.HistoryUnits(o.internal, o.history))
    + if o.whisper then [] else HistoricalUnits(o.historical) + RecentUnits(parts)
  }

  /** History counts 50, old evidence 70 and the room 80; in a whisper only the history is offered. */
  lemma OfferedExactly(o: Opening, parts: seq<RoomContext.Part>)
    ensures var all, units := Offered(o, parts), HistoryContext.HistoryUnits(o.internal, o.history);
            var dated := if o.historical.Some? then 1 else 0;
            && |all| == |units| + (if o.whisper then 0 else dated + |parts|)
            && (forall i :: 0 <= i < |units| ==> all[i].messages == units[i] && all[i].priority == 50)
            && (!o.whisper && o.historical.Some? ==>
                  all[|units|].messages == [UserMessage(o.historical.value.0)] && all[|units|].priority == 70)
            && (!o.whisper ==> forall i :: 0 <= i < |parts| ==>
                  all[|units| + dated + i].messages == [UserMessage(parts[i].text)] && all[|units| + dated + i].priority == 80)
  {
    hide HistoryContext.HistoryUnits, UserMessage;
    var units := HistoryContext.HistoryUnits(o.internal, o.history);
    if !o.whisper {
      assert Offered(o, parts) == MemoryUnits(units) + HistoricalUnits(o.historical) + RecentUnits(parts);
    }
  }

  function OpeningTurn(c: Config, o: Opening, policy: string, parts: seq<RoomContext.Part>): Turn {
    Turn([], map[], None, Input([SystemMessage(policy)], Offered(o, parts), [UserMessage(o.request)], [], [],
                                MaxContextTokens(c), c.reserveTokens, o.manifest))
  }

  /** Whether the limits are sensible and leave room for the policy and the prompt. */
  predicate Payable(c: Config, o: Opening, policy: string) {
    var x := OpeningTurn(c, o, policy, []).input;
    ValidLimits(x) && RequiredChars(x) <= Budget(x)
  }

  lemma PayableIsAffordable(fp: Fingerprinter, c: Config, o: Opening, policy: string, parts: seq<RoomContext.Part>)
    ensures var t := OpeningTurn(c, o, policy, parts);
            (Payable(c, o, policy) <==> ValidLimits(t.input) && Affordable(fp, t))
            && TurnError(t.input, false) == TurnError(OpeningTurn(c, o, policy, []).input, false)
  {
    TranscriptKeepsLimits(fp, OpeningTurn(c, o, policy, parts));
    hide WithTranscript, Offered, Serialized, MaxContextTokens, UserMessage, SystemMessage;
  }

  /** Why a turn cannot be opened, in the order in which it is found out. */
  function OpeningFault(c: Config, o: Opening): (fault: Option<Prepared>)
    ensures fault.Some? ==> !fault.value.Prepared?
  {
    if c.maxPromptChars > 0 && |o.prompt| > c.maxPromptChars then Some(PromptTooLong)
    else if o.policy.None? then Some(NoPolicy)
    else if !Payable(c, o, o.policy.value) then Some(TooLarge(TurnError(OpeningTurn(c, o, o.policy.value, []).input, false)))
    else None
  }

  /** A turn can be opened exactly if the prompt is not too long, the policy could be rendered, the limits are sensible,
      and policy and prompt fit into what reserve and manifest leave. */
  lemma OpensExactly(c: Config, o: Opening)
    ensures OpeningFault(c, o).None? <==>
              && (c.maxPromptChars <= 0 || |o.prompt| <= c.maxPromptChars) && o.policy.Some?
              && MaxContextTokens(c) <= 1_000_000 && c.reserveTokens >= 0 && c.reserveTokens + o.manifest < MaxContextTokens(c)
              && Serialized([SystemMessage(o.policy.value)]) + Serialized([UserMessage(o.request)]) + Serialized([]) + 64
                 <= (MaxContextTokens(c) - c.reserveTokens - o.manifest) * 4
  {
    hide Serialized, MaxContextTokens, TurnError, Offered, UserMessage, SystemMessage;
  }

  /** AssembleWithHistoricalEvidence: it fails exactly for the first fault there is. */
  method Assemble(fp: Fingerprinter, c: Config, o: Opening)
    returns (result: Prepared, ghost parts: seq<RoomContext.Part>, ghost selected: set<nat>)
    ensures var fault := OpeningFault(c, o); if fault.Some? then result == fault.value else result.Prepared?
    ensures result.Prepared? && !o.whisper ==> RoomContext.IsCut(o.recent, parts)
    ensures result.Prepared? ==>
              o.policy.Some? && ProjectedAs(fp, OpeningTurn(c, o, o.policy.value, parts), selected, result.projection)
  {
    hide ProjectedAs, Affordable;
    parts, selected := [], {};
    if c.maxPromptChars > 0 && |o.prompt| > c.maxPromptChars {
      return PromptTooLong, parts, selected;
    }
    if o.policy.None? {
      return NoPolicy, parts, selected;
    }
    var units := HistoryContext.HistoryContextUnits(o.internal, o.history);
    var optional := MemoryUnits(units);
    if !o.whisper {
      var recent := RoomContext.RecentContextUnits(o.recent);
      parts := recent;
      optional := optional + HistoricalUnits(o.historical);
      optional := optional + RecentUnits(recent);
    }
    assert optional == Offered(o, parts);
    PayableIsAffordable(fp, c, o, o.policy.value, parts);
    hide Payable, Offered, TurnError, ValidLimits, MaxContextTokens, SystemMessage, UserMessage;
    var projected;
    projected, selected := ProjectTurn(fp, Turn([], map[], None, Input([SystemMessage(o.policy.value)], optional,
                                                [UserMessage(o.request)], [], [], MaxContextTokens(c), c.reserveTokens, o.manifest)));
    result := match projected case Ok(p) => Prepared(p) case Err(e) => TooLarge(e);
  }

  // ----- what the first request is worth -----

  /** A history that only loses plain messages when it is offered, and is a valid transcript. */
  ghost predicate SoundHistory(o: Opening) {
    ProtocolValid(o.history) && forall m :: m in o.history && HistoryContext.Skipped(o.internal, m) ==> Plain(m)
  }

  /** The memory that is loaded holds messages of users and the assistant without calls: always sound. */
  lemma MemoryIsSound(o: Opening)
    requires forall m :: m in o.history ==> Plain(m)
    ensures SoundHistory(o)
  {
    PlainIsValid(o.history);
  }

  lemma OfferedIsValid(o: Opening, parts: seq<RoomContext.Part>)
    requires SoundHistory(o)
    ensures AllValid(Offered(o, parts))
  {
    var units := HistoryContext.HistoryUnits(o.internal, o.history);
    HistoryContext.UnitsValidIffHistoryIs(o.internal, o.history);
    hide HistoryContext.HistoryUnits, ProtocolValid;
    forall i | 0 <= i < |Offered(o, parts)| ensures ProtocolValid(Offered(o, parts)[i].messages) {
      if i < |units| {
        assert Offered(o, parts)[i].messages == units[i];
      } else {
        PlainIsValid(Offered(o, parts)[i].messages);
      }
    }
  }

  ghost predicate NoSystem(ms: seq<Message>) {
    forall m :: m in ms ==> m.role != SYSTEM
  }

  lemma OfferedHasNoSystem(o: Opening, parts: seq<RoomContext.Part>)
    ensures forall i :: 0 <= i < |Offered(o, parts)| ==> NoSystem(Offered(o, parts)[i].messages)
  {
    var units := HistoryContext.HistoryUnits(o.internal, o.history);
    HistoryContext.NoSystemMessage(o.internal, o.history);
    hide HistoryContext.HistoryUnits;
    forall i | 0 <= i < |Offered(o, parts)| ensures NoSystem(Offered(o, parts)[i].messages) {
      if i < |units| {
        assert Offered(o, parts)[i].messages == units[i] && units[i] in units;
      }
    }
  }

  lemma {:induction false} ChosenHasNoSystem(all: seq<ContextUnit>, selected: set<nat>, tail: bool, i: nat)
    requires i <= |all| && forall k :: 0 <= k < |all| ==> NoSystem(all[k].messages)
    ensures NoSystem(Chosen(all, selected, tail, i))
    decreases |all| - i
  {
    if i < |all| {
      ChosenHasNoSystem(all, selected, tail, i + 1);
      assert NoSystem(Here(all, selected, tail, i));
    }
  }

  /** No transcript, so nothing is cut from it. */
  lemma OnlyTheOffered(fp: Fingerprinter, c: Config, o: Opening, policy: string, parts: seq<RoomContext.Part>)
    ensures var t := OpeningTurn(c, o, policy, parts); WithTranscript(fp, t) == t.input
  {
    var t := OpeningTurn(c, o, policy, parts);
    assert |Clean(fp, t)| == 0;
    assert forall tail :: TurnContext.Cut(fp, [], t.input.prefix, t.input.suffix, tail) == [];
  }

  lemma {:induction false} NoTail(all: seq<ContextUnit>, selected: set<nat>, i: nat)
    requires i <= |all| && forall k :: 0 <= k < |all| ==> !all[k].tail
    ensures Chosen(all, selected, true, i) == []
    decreases |all| - i
  {
    if i < |all| { NoTail(all, selected, i + 1); }
  }

  /** Whatever the history, evidence and room hold, the first request fits, begins with the policy, which
      stays its only system message, and ends with the prompt. It is a valid transcript if the history is sound. */
  lemma OpeningRequest(fp: Fingerprinter, c: Config, o: Opening, policy: string, parts: seq<RoomContext.Part>,
                       selected: set<nat>, p: Projection)
    requires ResultIndex.Separates(fp) && ProjectedAs(fp, OpeningTurn(c, o, policy, parts), selected, p)
    ensures exists mid :: NoSystem(mid) && p.messages == [SystemMessage(policy)] + mid + [UserMessage(o.request)]
    ensures p.chars == Serialized(p.messages) + REQUEST_ENVELOPE_CHARS <= (MaxContextTokens(c) - c.reserveTokens - o.manifest) * 4
    ensures p.tokens + c.reserveTokens + o.manifest <= MaxContextTokens(c)
    ensures SoundHistory(o) ==> ProtocolValid(p.messages)
  {
    hide *;
    OpeningIsAround(fp, c, o, policy, parts, selected, p);
    OpeningFits(fp, c, o, policy, parts, selected, p);
    if SoundHistory(o) {
      OpeningIsValid(fp, c, o, policy, parts, selected, p);
    }
  }

  lemma OpeningFits(fp: Fingerprinter, c: Config, o: Opening, policy: string, parts: seq<RoomContext.Part>,
                    selected: set<nat>, p: Projection)
    requires ResultIndex.Separates(fp) && ProjectedAs(fp, OpeningTurn(c, o, policy, parts), selected, p)
    ensures p.chars == Serialized(p.messages) + REQUEST_ENVELOPE_CHARS <= (MaxContextTokens(c) - c.reserveTokens - o.manifest) * 4
    ensures p.tokens + c.reserveTokens + o.manifest <= MaxContextTokens(c)
  {
    hide ProjectedAs, Offered, ResultIndex.Separates;
    TurnFits(fp, OpeningTurn(c, o, policy, parts), selected, p);
  }

  lemma OpeningIsValid(fp: Fingerprinter, c: Config, o: Opening, policy: string, parts: seq<RoomContext.Part>,
                       selected: set<nat>, p: Projection)
    requires ResultIndex.Separates(fp) && ProjectedAs(fp, OpeningTurn(c, o, policy, parts), selected, p) && SoundHistory(o)
    ensures ProtocolValid(p.messages)
  {
    hide ProjectedAs, Offered, ResultIndex.Separates, SoundHistory, ProtocolValid;
    OfferedIsValid(o, parts);
    TurnIsValid(fp, OpeningTurn(c, o, policy, parts), selected, p);
  }

  lemma OpeningIsAround(fp: Fingerprinter, c: Config, o: Opening, policy: string, parts: seq<RoomContext.Part>,
                        selected: set<nat>, p: Projection)
    requires ProjectedAs(fp, OpeningTurn(c, o, policy, parts), selected, p)
    ensures exists mid :: NoSystem(mid) && p.messages == [SystemMessage(policy)] + mid + [UserMessage(o.request)]
  {
    var t := OpeningTurn(c, o, policy, parts);
    OnlyTheOffered(fp, c, o, policy, parts);
    OfferedHasNoSystem(o, parts);
    NoTailOffered(o, parts);
    hide WithTranscript, Offered, SelectedAs, NoSystem, Chosen;
    var all := AllUnits(t.input);
    assert all == t.input.optional;
    ChosenHasNoSystem(all, selected, false, 0);
    NoTail(all, selected, 0);
    var mid := Chosen(all, selected, false, 0);
    assert p.messages == [SystemMessage(policy)] + mid + [UserMessage(o.request)];
  }

  lemma NoTailOffered(o: Opening, parts: seq<RoomContext.Part>)
    ensures forall k :: 0 <= k < |Offered(o, parts)| ==> !Offered(o, parts)[k].tail
  {
  }
}
