/**
 The message monitor: sliding windows that are pruned on every message, and an
 escalation ladder. Its decisions are those of a definition over the whole
 history in which nothing is ever pruned.
 */
module MessageMonitor {
  import opened Options
  import opened SlidingWindow

  type Identity = string

  datatype Config = Config(enabled: bool, burstCount: int, burstWindow: int, repeatedCount: int, repeatedWindow: int,
                           secondBreachWindow: int, postKickWindow: int, actionCooldown: int)

  datatype Action = Warn | Mute | Kick | ShadowBan

  datatype Offence = Offence(action: Action, at: Time)
  datatype Decision = Decision(action: Action, principal: string, repeated: bool)

  /** One counted message: whether it reached a threshold, and what was decided about it. */
  datatype Record = Record(at: Time, identity: Identity, text: string, breach: bool, decision: Option<Action>)

  function Longest(c: Config): int {
    if c.burstWindow >= c.repeatedWindow then c.burstWindow else c.repeatedWindow
  }

  function CountSince(ms: seq<Timed>, cutoff: Time): nat {
    if ms == [] then 0 else CountSince(ms[..|ms| - 1], cutoff) + if ms[|ms| - 1].at >= cutoff then 1 else 0
  }

  function CountSame(ms: seq<Timed>, text: string, cutoff: Time): nat {
    if ms == [] then 0
    else CountSame(ms[..|ms| - 1], text, cutoff) + if ms[|ms| - 1].at >= cutoff && ms[|ms| - 1].text == text then 1 else 0
  }

  // ----- the definition over the whole history -----

  /** The messages of one identity since it last reached a threshold. */
  function Since(log: seq<Record>, id: Identity): seq<Timed> {
    if log == [] then []
    else
      var last := log[|log| - 1];
      if last.identity != id then Since(log[..|log| - 1], id)
      else if last.breach then []
      else Since(log[..|log| - 1], id) + [Timed(last.at, last.text)]
  }

  /** The last action taken against an identity, of any kind. */
  function LastOffence(log: seq<Record>, id: Identity): Option<Offence> {
    if log == [] then None
    else
      var last := log[|log| - 1];
      if last.identity == id && last.decision.Some? then Some(Offence(last.decision.value, last.at))
      else LastOffence(log[..|log| - 1], id)
  }

  /** When the given action was last taken against an identity. */
  function LastAction(log: seq<Record>, id: Identity, action: Action): Option<Time> {
    if log == [] then None
    else
      var last := log[|log| - 1];
      if last.identity == id && last.decision == Some(action) then Some(last.at)
      else LastAction(log[..|log| - 1], id, action)
  }

  function Burst(c: Config, ms: seq<Timed>, now: Time): nat {
    CountSince(ms, now - c.burstWindow)
  }

  function Repeats(c: Config, ms: seq<Timed>, text: string, now: Time): nat {
    CountSame(ms, text, now - c.repeatedWindow)
  }

  predicate Breach(c: Config, ms: seq<Timed>, text: string, now: Time) {
    AtLeast(Burst(c, ms, now), c.burstCount) || AtLeast(Repeats(c, ms, text, now), c.repeatedCount)
  }

  /** The ladder. A recent ShadowBan keeps silent. */
  function Ladder(c: Config, previous: Option<Offence>, repeated: bool, now: Time): Option<Action> {
    if previous.Some? && previous.value.action.ShadowBan? && WithinWindow(previous.value.at, now, c.postKickWindow) then None
    else if previous.Some? && previous.value.action.Kick? && WithinWindow(previous.value.at, now, c.postKickWindow) then Some(ShadowBan)
    else if previous.Some? && previous.value.action.Mute? && WithinWindow(previous.value.at, now, c.secondBreachWindow) then Some(Kick)
    else if previous.Some? && previous.value.action.Warn? && WithinWindow(previous.value.at, now, c.secondBreachWindow) then Some(Mute)
    else if repeated then Some(Mute)
    else Some(Warn)
  }

  predicate CoolingDown(c: Config, last: Option<Time>, now: Time) {
    last.Some? && WithinWindow(last.value, now, c.actionCooldown)
  }

  /** The action for a message that reached a threshold. */
  function Verdict(c: Config, log: seq<Record>, id: Identity, repeated: bool, now: Time): Option<Action> {
    var action := Ladder(c, LastOffence(log, id), repeated, now);
    if action.Some? && CoolingDown(c, LastAction(log, id, action.value), now) then None else action
  }

  /** The record of a message, from all records before it. */
  function Naive(c: Config, log: seq<Record>, now: Time, id: Identity, text: string): Record {
    var ms := Since(log, id) + [Timed(now, text)];
    if Breach(c, ms, text, now)
    then Record(now, id, text, true, Verdict(c, log, id, Repeats(c, ms, text, now) >= c.repeatedCount, now))
    else Record(now, id, text, false, None)
  }

  // ----- pruning keeps the definition's answers -----

  lemma {:induction false} DroppedUncounted(ms: seq<Timed>, kept: seq<Timed>, text: string, cutoff: Time)
    requires |kept| <= |ms| && kept == ms[|ms| - |kept|..]
    requires forall i :: 0 <= i < |ms| - |kept| ==> ms[i].at < cutoff
    ensures CountSince(kept, cutoff) == CountSince(ms, cutoff) && CountSame(kept, text, cutoff) == CountSame(ms, text, cutoff)
  {
    if ms != [] {
      var front := ms[..|ms| - 1];
      if kept == [] {
        DroppedUncounted(front, [], text, cutoff);
      } else {
        var fewer := kept[..|kept| - 1];
        assert fewer == front[|front| - |fewer|..];
        DroppedUncounted(front, fewer, text, cutoff);
      }
    }
  }

  /** The pruned window gives both counts of the whole history. */
  lemma PrunedCounts(c: Config, ms: seq<Timed>, text: string, now: Time)
    ensures var kept := DropOld(ms, now - Longest(c));
            Burst(c, kept, now) == Burst(c, ms, now) && Repeats(c, kept, text, now) == Repeats(c, ms, text, now)
  {
    var kept := DropOld(ms, now - Longest(c));
    DropOldDrops(ms, now - Longest(c));
    DroppedUncounted(ms, kept, text, now - c.burstWindow);
    DroppedUncounted(ms, kept, text, now - c.repeatedWindow);
  }

  // ----- the index -----

  datatype ActionKey = ActionKey(action: Action, identity: Identity)

  datatype Index = Index(messages: map<Identity, seq<Timed>>, offences: map<Identity, Offence>, actions: map<ActionKey, Time>)

  function WindowOf(x: Index, id: Identity): seq<Timed> {
    if id in x.messages then x.messages[id] else []
  }

  function OffenceLimit(c: Config, action: Action): int {
    if action.Kick? || action.ShadowBan? then c.postKickWindow else c.secondBreachWindow
  }

  /** An identity's messages that are not too old at time `last`. */
  predicate WindowOk(c: Config, log: seq<Record>, last: Time, x: Index, id: Identity) {
    WindowOf(x, id) == DropOld(Since(log, id), last - Longest(c))
  }

  ghost predicate WindowsOk(c: Config, log: seq<Record>, last: Time, x: Index) {
    forall id :: WindowOk(c, log, last, x, id)
  }

  /** The last offence of an identity, unless it is too old to matter. */
  ghost predicate OffenceOk(c: Config, log: seq<Record>, last: Time, x: Index, id: Identity) {
    && (id in x.offences ==> LastOffence(log, id) == Some(x.offences[id]))
    && (id !in x.offences && LastOffence(log, id).Some? ==>
          !WithinWindow(LastOffence(log, id).value.at, last, OffenceLimit(c, LastOffence(log, id).value.action)))
  }

  ghost predicate ActionOk(c: Config, log: seq<Record>, last: Time, x: Index, k: ActionKey) {
    && (k in x.actions ==> LastAction(log, k.identity, k.action) == Some(x.actions[k]))
    && (k !in x.actions ==> !CoolingDown(c, LastAction(log, k.identity, k.action), last))
  }

  ghost predicate ClockOk(log: seq<Record>, last: Time) {
    forall i :: 0 <= i < |log| ==> log[i].at <= last
  }

  /** The index at time `last` holds what the history still needs. */
  ghost predicate Represents(c: Config, log: seq<Record>, last: Time, x: Index) {
    && ClockOk(log, last) && WindowsOk(c, log, last, x)
    && (forall id :: OffenceOk(c, log, last, x, id))
    && (forall k :: ActionOk(c, log, last, x, k))
  }

  predicate Alive(c: Config, o: Offence, now: Time) {
    WithinWindow(o.at, now, OffenceLimit(c, o.action))
  }

  predicate IsPrunedWindow(c: Config, x: Index, now: Time, y: Index, id: Identity) {
    WindowOf(y, id) == DropOld(WindowOf(x, id), now - Longest(c))
  }

  /** What pruning must do to the index. */
  ghost predicate Pruned(c: Config, x: Index, now: Time, y: Index) {
    && (forall id :: IsPrunedWindow(c, x, now, y, id))
    && (forall id :: id in y.offences <==> id in x.offences && Alive(c, x.offences[id], now))
    && (forall id :: id in y.offences ==> y.offences[id] == x.offences[id])
    && (forall k :: k in y.actions <==> k in x.actions && WithinWindow(x.actions[k], now, c.actionCooldown))
    && (forall k :: k in y.actions ==> y.actions[k] == x.actions[k])
  }

  lemma {:induction false} LastsAreThere(log: seq<Record>, id: Identity, action: Action)
    ensures LastOffence(log, id).Some? ==> exists i :: 0 <= i < |log| && log[i].at == LastOffence(log, id).value.at
    ensures LastAction(log, id, action).Some? ==> exists i :: 0 <= i < |log| && log[i].at == LastAction(log, id, action).value
  {
    if log != [] {
      LastsAreThere(log[..|log| - 1], id, action);
      assert forall i :: 0 <= i < |log| - 1 ==> log[..|log| - 1][i] == log[i];
      assert log[|log| - 1].at == log[|log| - 1].at;
    }
  }

  lemma OffenceStays(c: Config, log: seq<Record>, last: Time, x: Index, now: Time, y: Index, id: Identity)
    requires ClockOk(log, last) && last <= now && OffenceOk(c, log, last, x, id)
    requires id in y.offences <==> id in x.offences && Alive(c, x.offences[id], now)
    requires id in y.offences ==> y.offences[id] == x.offences[id]
    ensures OffenceOk(c, log, now, y, id)
  {
    LastsAreThere(log, id, Warn);
    hide LastOffence;
  }

  lemma ActionStays(c: Config, log: seq<Record>, last: Time, x: Index, now: Time, y: Index, k: ActionKey)
    requires ClockOk(log, last) && last <= now && ActionOk(c, log, last, x, k)
    requires k in y.actions <==> k in x.actions && WithinWindow(x.actions[k], now, c.actionCooldown)
    requires k in y.actions ==> y.actions[k] == x.actions[k]
    ensures ActionOk(c, log, now, y, k)
  {
    LastsAreThere(log, k.identity, k.action);
    hide LastAction;
  }

  lemma WindowStays(c: Config, log: seq<Record>, last: Time, x: Index, now: Time, y: Index, id: Identity)
    requires WindowOk(c, log, last, x, id) && last <= now && IsPrunedWindow(c, x, now, y, id)
    ensures WindowOk(c, log, now, y, id)
  {
    DropTwice(Since(log, id), last - Longest(c), now - Longest(c));
    hide Since, DropOld;
  }

  /** With a clock that does not go back, pruning loses nothing that can still matter. */
  lemma PruningIsSafe(c: Config, log: seq<Record>, last: Time, x: Index, now: Time, y: Index)
    requires Represents(c, log, last, x) && Pruned(c, x, now, y) && last <= now
    ensures Represents(c, log, now, y)
  {
    hide WindowOk, IsPrunedWindow, OffenceOk, ActionOk;
    forall id ensures WindowOk(c, log, now, y, id) { WindowStays(c, log, last, x, now, y, id); }
    forall id ensures OffenceOk(c, log, now, y, id) { OffenceStays(c, log, last, x, now, y, id); }
    forall k ensures ActionOk(c, log, now, y, k) { ActionStays(c, log, last, x, now, y, k); }
  }

  function PreviousOf(x: Index, id: Identity): Option<Offence> {
    if id in x.offences then Some(x.offences[id]) else None
  }

  function LastIn(x: Index, k: ActionKey): Option<Time> {
    if k in x.actions then Some(x.actions[k]) else None
  }

  /** The ladder and the cooldown see the same through the pruned index. In it a ShadowBan is always a
      recent one. */
  lemma {:induction false} SameVerdict(c: Config, log: seq<Record>, x: Index, id: Identity, repeated: bool, now: Time)
    requires Represents(c, log, now, x) && (id in x.offences ==> Alive(c, x.offences[id], now))
    ensures Ladder(c, PreviousOf(x, id), repeated, now) == Ladder(c, LastOffence(log, id), repeated, now)
    ensures id in x.offences && x.offences[id].action.ShadowBan? <==> Ladder(c, LastOffence(log, id), repeated, now).None?
    ensures forall action ::
              CoolingDown(c, LastIn(x, ActionKey(action, id)), now) == CoolingDown(c, LastAction(log, id, action), now)
  {
    assert OffenceOk(c, log, now, x, id);
    forall action ensures CoolingDown(c, LastIn(x, ActionKey(action, id)), now) == CoolingDown(c, LastAction(log, id, action), now) {
      assert ActionOk(c, log, now, x, ActionKey(action, id));
    }
  }

  // ----- one message later -----

  function WithRecord(x: Index, r: Record, window: seq<Timed>): Index {
    Index(x.messages[r.identity := if r.breach then [] else window],
          if r.decision.Some? then x.offences[r.identity := Offence(r.decision.value, r.at)] else x.offences,
          if r.decision.Some? then x.actions[ActionKey(r.decision.value, r.identity) := r.at] else x.actions)
  }

  lemma LogGrows(log: seq<Record>, r: Record)
    ensures (log + [r])[|log|] == r && (log + [r])[..|log|] == log
  {
  }

  lemma {:induction false} SinceFollows(log: seq<Record>, r: Record, id: Identity)
    ensures Since(log + [r], id)
            == if r.identity != id then Since(log, id) else if r.breach then [] else Since(log, id) + [Timed(r.at, r.text)]
    ensures LastOffence(log + [r], id)
            == if r.identity == id && r.decision.Some? then Some(Offence(r.decision.value, r.at)) else LastOffence(log, id)
  {
    LogGrows(log, r);
  }

  lemma {:induction false} ActionFollows(log: seq<Record>, r: Record, id: Identity, action: Action)
    ensures LastAction(log + [r], id, action)
            == if r.identity == id && r.decision == Some(action) then Some(r.at) else LastAction(log, id, action)
  {
    LogGrows(log, r);
  }

  function Entered(c: Config, log: seq<Record>, x: Index, r: Record): Index {
    WithRecord(x, r, DropOld(Since(log, r.identity) + [Timed(r.at, r.text)], r.at - Longest(c)))
  }

  lemma WindowFollows(c: Config, log: seq<Record>, x: Index, r: Record, id: Identity)
    requires WindowOk(c, log, r.at, x, id)
    ensures WindowOk(c, log + [r], r.at, Entered(c, log, x, r), id)
  {
    SinceFollows(log, r, id);
    NothingToDrop(r.at - Longest(c));
    hide Since, DropOld;
  }

  lemma OffenceFollows(c: Config, log: seq<Record>, x: Index, r: Record, id: Identity)
    requires OffenceOk(c, log, r.at, x, id)
    ensures OffenceOk(c, log + [r], r.at, Entered(c, log, x, r), id)
  {
    SinceFollows(log, r, id);
    hide Since, DropOld, LastOffence;
  }

  lemma ActionEntered(c: Config, log: seq<Record>, x: Index, r: Record, k: ActionKey)
    requires ActionOk(c, log, r.at, x, k)
    ensures ActionOk(c, log + [r], r.at, Entered(c, log, x, r), k)
  {
    ActionFollows(log, r, k.identity, k.action);
    hide Since, DropOld, LastAction;
  }

  /** Entering a message's record and its effects keeps the index true to the history. */
  lemma RecordKeepsIndex(c: Config, log: seq<Record>, x: Index, r: Record)
    requires Represents(c, log, r.at, x)
    ensures Represents(c, log + [r], r.at, Entered(c, log, x, r))
  {
    hide WindowOk, Entered, OffenceOk, ActionOk;
    forall id ensures WindowOk(c, log + [r], r.at, Entered(c, log, x, r), id) { WindowFollows(c, log, x, r, id); }
    forall id ensures OffenceOk(c, log + [r], r.at, Entered(c, log, x, r), id) { OffenceFollows(c, log, x, r, id); }
    forall k ensures ActionOk(c, log + [r], r.at, Entered(c, log, x, r), k) { ActionEntered(c, log, x, r, k); }
  }

  // ----- who sent a message -----

  /** The text functions of the source, left open: trim and lower-case are used for identities, normalize
      folds case and white space of the message. */
  datatype Text = Text(trim: string -> string, lower: string -> string, normalize: string -> string)

  datatype Message = Message(name: string, hash: string, trip: string, text: string, whisper: bool, exempt: bool)

  /** The name to act on, and the identity to count under. */
  function PrincipalOf(t: Text, m: Message): (string, Identity) {
    var principal := t.trim(m.name);
    var hash, trip := t.lower(t.trim(m.hash)), t.lower(t.trim(m.trip));
    if principal == "" then ("", "")
    else if hash != "" then (principal, "hash:" + hash)
    else if trip != "" then (principal, "trip:" + trip)
    else (principal, "nick:" + t.lower(principal))
  }

  /** Identities of different kinds never meet, and a message is attributed exactly when it has a name. */
  lemma IdentitiesAreTagged(t: Text, a: Message, b: Message)
    ensures PrincipalOf(t, a).1 == "" <==> t.trim(a.name) == ""
    ensures PrincipalOf(t, a).1 == PrincipalOf(t, b).1 != "" ==>
              (t.lower(t.trim(a.hash)) == t.lower(t.trim(b.hash)))
              && (t.lower(t.trim(a.hash)) == "" ==> t.lower(t.trim(a.trip)) == t.lower(t.trim(b.trip)))
  {
    var x, y := PrincipalOf(t, a).1, PrincipalOf(t, b).1;
    if x == y && x != "" {
      assert x[0] == y[0] && x[5..] == y[5..];
    }
  }

  predicate Ignored(c: Config, t: Text, m: Message) {
    !c.enabled || m.whisper || m.exempt || PrincipalOf(t, m).1 == "" || t.normalize(m.text) == ""
  }

  // ----- loops over the index -----

  method CountMessages(ms: seq<Timed>, cutoff: Time) returns (n: nat)
    ensures n == CountSince(ms, cutoff)
  {
    n := 0;
    for i := 0 to |ms|
      invariant n == CountSince(ms[..i], cutoff)
    {
      assert ms[..i + 1][..i] == ms[..i];
      if ms[i].at >= cutoff { n := n + 1; }
    }
    assert ms[..|ms|] == ms;
  }

  method CountRepeated(ms: seq<Timed>, text: string, cutoff: Time) returns (n: nat)
    ensures n == CountSame(ms, text, cutoff)
  {
    n := 0;
    for i := 0 to |ms|
      invariant n == CountSame(ms[..i], text, cutoff)
    {
      assert ms[..i + 1][..i] == ms[..i];
      if ms[i].at >= cutoff && ms[i].text == text { n := n + 1; }
    }
    assert ms[..|ms|] == ms;
  }

  lemma SomeKey(keys: set<ActionKey>)
    requires keys != {}
    ensures exists k :: k in keys
  {
    assert (forall k :: k !in keys) ==> keys == {};
  }

  method PruneOffences(c: Config, offences: map<Identity, Offence>, now: Time) returns (out: map<Identity, Offence>)
    ensures forall id :: id in out <==> id in offences && Alive(c, offences[id], now)
    ensures forall id :: id in out ==> out[id] == offences[id]
  {
    out := offences;
    var left := offences.Keys;
    while left != {}
      invariant left <= offences.Keys
      invariant forall id :: id in out <==> id in offences && (id in left || Alive(c, offences[id], now))
      invariant forall id :: id in out ==> out[id] == offences[id]
    {
      SomeElement(left);
      var id :| id in left;
      left := left - {id};
      if !Alive(c, offences[id], now) { out := out - {id}; }
    }
  }

  method PruneActions(c: Config, actions: map<ActionKey, Time>, now: Time) returns (out: map<ActionKey, Time>)
    ensures forall k :: k in out <==> k in actions && WithinWindow(actions[k], now, c.actionCooldown)
    ensures forall k :: k in out ==> out[k] == actions[k]
  {
    out := actions;
    var left := actions.Keys;
    while left != {}
      invariant left <= actions.Keys
      invariant forall k :: k in out <==> k in actions && (k in left || WithinWindow(actions[k], now, c.actionCooldown))
      invariant forall k :: k in out ==> out[k] == actions[k]
    {
      SomeKey(left);
      var k :| k in left;
      left := left - {k};
      if !WithinWindow(actions[k], now, c.actionCooldown) { out := out - {k}; }
    }
  }

  // ----- the monitor -----

  /** The history of a monitor: every record is what the definition says, in the order of the clock. */
  ghost predicate Faithful(c: Config, log: seq<Record>) {
    && (forall n :: 0 <= n < |log| ==> log[n] == Naive(c, log[..n], log[n].at, log[n].identity, log[n].text))
    && (forall m, n :: 0 <= m <= n < |log| ==> log[m].at <= log[n].at)
  }

  lemma NaiveIsAbout(c: Config, log: seq<Record>, now: Time, id: Identity, text: string)
    ensures var r := Naive(c, log, now, id, text); r.at == now && r.identity == id && r.text == text
  {
    hide Breach, Verdict, Since;
  }

  lemma FaithfulGrows(c: Config, log: seq<Record>, last: Time, now: Time, id: Identity, text: string)
    requires Faithful(c, log) && ClockOk(log, last) && last <= now
    ensures Faithful(c, log + [Naive(c, log, now, id, text)])
  {
    hide Naive;
    var r := Naive(c, log, now, id, text);
    var more := log + [r];
    NaiveIsAbout(c, log, now, id, text);
    LogGrows(log, r);
    forall n | 0 <= n < |more| ensures more[n] == Naive(c, more[..n], more[n].at, more[n].identity, more[n].text) {
      if n < |log| { assert more[..n] == log[..n]; }
    }
  }

  class Monitor {
    const config: Config
    const texts: Text
    var messages: map<Identity, seq<Timed>>
    var offences: map<Identity, Offence>
    var actions: map<ActionKey, Time>
    ghost var log: seq<Record>
    ghost var last: Time

    function View(): Index
      reads this
    {
      Index(messages, offences, actions)
    }

    ghost predicate Valid()
      reads this
    {
      Faithful(config, log) && Represents(config, log, last, View())
    }

    constructor (config: Config, texts: Text, ghost start: Time)
      ensures Valid() && log == [] && last == start && this.config == config && this.texts == texts
    {
      this.config, this.texts := config, texts;
      messages, offences, actions, log, last := map[], map[], map[], [], start;
    }

    /** pruneExpired. */
    method PruneExpired(now: Time)
      requires Valid() && last <= now
      modifies `messages, `offences, `actions
      ensures Represents(config, log, now, View())
      ensures forall id :: id in offences ==> Alive(config, offences[id], now)
    {
      hide Faithful, WindowOk, OffenceOk, ActionOk, DropOld;
      ghost var before := View();
      messages := PruneWindows(messages, now - Longest(config));
      offences := PruneOffences(config, offences, now);
      actions := PruneActions(config, actions, now);
      forall id ensures IsPrunedWindow(config, before, now, View(), id) {
        assert Lookup(messages, id) == DropOld(Lookup(before.messages, id), now - Longest(config));
      }
      PruningIsSafe(config, log, last, before, now, View());
    }

    /** allow. */
    method Allow(action: Action, id: Identity, now: Time) returns (ok: bool)
      modifies `actions
      ensures ok <==> !CoolingDown(config, LastIn(old(View()), ActionKey(action, id)), now)
      ensures actions == if ok then old(actions)[ActionKey(action, id) := now] else old(actions)
    {
      var k := ActionKey(action, id);
      if k in actions && WithinWindow(actions[k], now, config.actionCooldown) {
        return false;
      }
      actions := actions[k := now];
      ok := true;
    }

    /** escalate. */
    method Escalate(id: Identity, principal: string, repeated: bool, now: Time) returns (decision: Option<Decision>)
      requires Represents(config, log, now, View()) && (id in offences ==> Alive(config, offences[id], now))
      modifies `offences, `actions
      ensures var verdict := Verdict(config, log, id, repeated, now);
              decision == (if verdict.Some? then Some(Decision(verdict.value, principal, repeated)) else None)
              && View() == (if verdict.Some?
                            then Index(messages, old(offences)[id := Offence(verdict.value, now)],
                                       old(actions)[ActionKey(verdict.value, id) := now])
                            else old(View()))
    {
      SameVerdict(config, log, View(), id, repeated, now);
      hide Represents, LastOffence, LastAction;
      if id in offences && offences[id].action.ShadowBan? {
        return None;
      }
      var action := Warn;
      if id in offences && offences[id].action.Kick? && WithinWindow(offences[id].at, now, config.postKickWindow) {
        action := ShadowBan;
      } else if id in offences && offences[id].action.Mute? && WithinWindow(offences[id].at, now, config.secondBreachWindow) {
        action := Kick;
      } else if id in offences && offences[id].action.Warn? && WithinWindow(offences[id].at, now, config.secondBreachWindow) {
        action := Mute;
      } else if repeated {
        action := Mute;
      }
      assert Ladder(config, LastOffence(log, id), repeated, now) == Some(action);
      var allowed := Allow(action, id, now);
      if !allowed {
        return None;
      }
      offences := offences[id := Offence(action, now)];
      decision := Some(Decision(action, principal, repeated));
    }

    /** OnMessage. Whatever was pruned, its decision and the record it leaves are those of the definition
        over the whole history. */
    method OnMessage(m: Message, now: Time) returns (decision: Option<Decision>)
      requires Valid() && last <= now
      modifies this
      ensures Valid()
      ensures Ignored(config, texts, m) ==> decision.None? && View() == old(View()) && log == old(log) && last == old(last)
      ensures log != old(log) <==> config.enabled && !m.whisper && !m.exempt && texts.trim(m.name) != "" && texts.normalize(m.text) != ""
      ensures !Ignored(config, texts, m) ==>
                var (principal, id) := PrincipalOf(texts, m);
                var r := Naive(config, old(log), now, id, texts.normalize(m.text));
                log == old(log) + [r] && last == now
                && (decision.Some? <==> r.decision.Some?)
                && (decision.Some? ==> decision.value == Decision(r.decision.value, principal, Repeated(config, log, |old(log)|)))
    {
      if !config.enabled || m.whisper || m.exempt {
        return None;
      }
      var (principal, id) := PrincipalOf(texts, m);
      var normalized := texts.normalize(m.text);
      if principal == "" || id == "" || normalized == "" {
        return None;
      }
      decision := Count(principal, id, normalized, now);
    }

    /** The part of OnMessage behind the mutex. */
    method Count(principal: string, id: Identity, normalized: string, now: Time) returns (decision: Option<Decision>)
      requires Valid() && last <= now
      modifies this
      ensures Valid() && last == now
      ensures var r := Naive(config, old(log), now, id, normalized);
              log == old(log) + [r] && (decision.Some? <==> r.decision.Some?)
              && (decision.Some? ==> decision.value == Decision(r.decision.value, principal, Repeated(config, log, |old(log)|)))
    {
      hide Faithful, WindowOk, OffenceOk, ActionOk, DropOld, Since, CountSince, CountSame, Ladder, LastOffence, LastAction;
      ghost var r := Naive(config, log, now, id, normalized);
      FaithfulGrows(config, log, last, now, id, normalized);
      PruneExpired(now);
      ghost var x := View();
      var window := if id in messages then messages[id] else [];
      var recent := PruneFront(window + [Timed(now, normalized)], now - Longest(config));
      ghost var full := Since(log, id) + [Timed(now, normalized)];
      RecentIsPruned(config, log, now, x, id, normalized);
      PrunedCounts(config, full, normalized, now);
      var burst := CountMessages(recent, now - config.burstWindow);
      var repeated := CountRepeated(recent, normalized, now - config.repeatedWindow);
      RecordKeepsIndex(config, log, x, r);
      if !AtLeast(burst, config.burstCount) && !AtLeast(repeated, config.repeatedCount) {
        messages := messages[id := recent];
        decision := None;
      } else {
        decision := Escalate(id, principal, repeated >= config.repeatedCount, now);
        messages := messages[id := []];
      }
      assert View() == Entered(config, log, x, r);
      LogGrows(log, r);
      log, last := log + [r], now;
    }
  }

  lemma {:induction false} RecentIsPruned(c: Config, log: seq<Record>, now: Time, x: Index, id: Identity, text: string)
    requires Represents(c, log, now, x)
    ensures DropOld(WindowOf(x, id) + [Timed(now, text)], now - Longest(c))
            == DropOld(Since(log, id) + [Timed(now, text)], now - Longest(c))
  {
    assert WindowOk(c, log, now, x, id);
    DropThenAppend(Since(log, id), Timed(now, text), now - Longest(c));
    hide Represents, Since, DropOld;
  }

  // ----- what reaches a threshold -----

  /** The identity reached no threshold from record i on, before record n. */
  ghost predicate NoBreach(log: seq<Record>, i: nat, n: nat, id: Identity)
    requires n <= |log|
  {
    forall k :: i <= k < n && log[k].identity == id ==> !log[k].breach
  }

  /** The messages of an identity before record n, since the cutoff and since its last breach; all of them, or
      those with one text. */
  ghost function Before(log: seq<Record>, n: nat, id: Identity, text: Option<string>, cutoff: Time): (before: set<nat>)
    requires n <= |log|
    ensures forall i :: i in before ==> i < n
  {
    set i | 0 <= i < n && log[i].identity == id && (text.None? || log[i].text == text.value) && log[i].at >= cutoff
            && NoBreach(log, i, n, id)
  }

  function Added(r: Record, text: Option<string>, cutoff: Time): nat {
    if (text.None? || r.text == text.value) && r.at >= cutoff then 1 else 0
  }

  lemma NoBreachFollows(log: seq<Record>, i: nat, n: nat, id: Identity)
    requires i < n <= |log|
    ensures NoBreach(log, i, n, id) <==> (log[n - 1].identity == id ==> !log[n - 1].breach) && NoBreach(log, i, n - 1, id)
  {
  }

  lemma BeforeFollows(log: seq<Record>, n: nat, id: Identity, text: Option<string>, cutoff: Time)
    requires 0 < n <= |log|
    ensures var r, before := log[n - 1], Before(log, n - 1, id, text, cutoff);
            Before(log, n, id, text, cutoff)
            == if r.identity != id then before else if r.breach then {}
               else before + if Added(r, text, cutoff) == 1 then {n - 1} else {}
  {
    hide NoBreach;
    forall i | 0 <= i < n ensures NoBreach(log, i, n, id)
                                  <==> (log[n - 1].identity == id ==> !log[n - 1].breach) && NoBreach(log, i, n - 1, id)
    {
      NoBreachFollows(log, i, n, id);
    }
    NothingBetween(log, n - 1, id);
  }

  lemma BeforeGrows(log: seq<Record>, n: nat, id: Identity, text: Option<string>, cutoff: Time)
    requires 0 < n <= |log|
    ensures var r, before := log[n - 1], |Before(log, n - 1, id, text, cutoff)|;
            |Before(log, n, id, text, cutoff)|
            == if r.identity != id then before else if r.breach then 0 else before + Added(r, text, cutoff)
  {
    BeforeFollows(log, n, id, text, cutoff);
    hide *;
    assert n - 1 !in Before(log, n - 1, id, text, cutoff);
    AddsOne(log[n - 1], text, cutoff);
  }

  lemma AddsOne(r: Record, text: Option<string>, cutoff: Time)
    ensures 0 <= Added(r, text, cutoff) <= 1
  {
  }

  lemma NothingBetween(log: seq<Record>, n: nat, id: Identity)
    requires n <= |log|
    ensures NoBreach(log, n, n, id)
  {
  }

  lemma {:induction false} CountsFollow(ms: seq<Timed>, m: Timed, text: string, cutoff: Time)
    ensures CountSince(ms + [m], cutoff) == CountSince(ms, cutoff) + if m.at >= cutoff then 1 else 0
    ensures CountSame(ms + [m], text, cutoff) == CountSame(ms, text, cutoff) + if m.at >= cutoff && m.text == text then 1 else 0
  {
    assert (ms + [m])[..|ms|] == ms;
  }

  /** What the definition counts are exactly these messages. */
  lemma {:induction false} CountedAre(log: seq<Record>, n: nat, id: Identity, text: string, cutoff: Time)
    requires n <= |log|
    ensures CountSince(Since(log[..n], id), cutoff) == |Before(log, n, id, None, cutoff)|
    ensures CountSame(Since(log[..n], id), text, cutoff) == |Before(log, n, id, Some(text), cutoff)|
  {
    hide *;
    if n > 0 {
      CountedAre(log, n - 1, id, text, cutoff);
      BeforeGrows(log, n, id, None, cutoff);
      BeforeGrows(log, n, id, Some(text), cutoff);
      CountedNext(log, n, id, text, cutoff);
    } else {
      NothingCounted(log, id, text, cutoff);
    }
  }

  lemma {:induction false} CountedNext(log: seq<Record>, n: nat, id: Identity, text: string, cutoff: Time)
    requires 0 < n <= |log|
    ensures var r, before, ms := log[n - 1], Since(log[..n - 1], id), Since(log[..n], id);
            CountSince(ms, cutoff)
            == (if r.identity != id then CountSince(before, cutoff) else if r.breach then 0
                else CountSince(before, cutoff) + Added(r, None, cutoff))
            && CountSame(ms, text, cutoff)
               == if r.identity != id then CountSame(before, text, cutoff) else if r.breach then 0
                  else CountSame(before, text, cutoff) + Added(r, Some(text), cutoff)
  {
    hide Since, CountSince, CountSame;
    var front, r := log[..n - 1], log[n - 1];
    assert log[..n] == front + [r];
    SinceFollows(front, r, id);
    CountsFollow(Since(front, id), Timed(r.at, r.text), text, cutoff);
    NothingCounted(log, id, text, cutoff);
  }

  lemma {:induction false} NothingCounted(log: seq<Record>, id: Identity, text: string, cutoff: Time)
    ensures Since(log[..0], id) == [] && CountSince([], cutoff) == 0 == CountSame([], text, cutoff)
    ensures |Before(log, 0, id, None, cutoff)| == 0 == |Before(log, 0, id, Some(text), cutoff)|
  {
  }

  /** In every history, a message reaches a threshold exactly if, with itself and counted since the last breach
      of its identity, there are enough messages in the burst window or enough equal ones in the repetition window;
      a threshold that is not positive is off. Only then is anything decided. */
  lemma ThresholdsAreExact(c: Config, log: seq<Record>, n: nat)
    requires Faithful(c, log) && n < |log|
    ensures var r := log[n];
            var sent := |Before(log, n, r.identity, None, r.at - c.burstWindow)| + if c.burstWindow >= 0 then 1 else 0;
            var same := |Before(log, n, r.identity, Some(r.text), r.at - c.repeatedWindow)| + if c.repeatedWindow >= 0 then 1 else 0;
            && (r.breach <==> (c.burstCount > 0 && sent >= c.burstCount) || (c.repeatedCount > 0 && same >= c.repeatedCount))
            && (Repeated(c, log, n) <==> same >= c.repeatedCount)
            && (!r.breach ==> r.decision.None?)
  {
    hide *;
    var r := log[n];
    var ms := Since(log[..n], r.identity);
    NaiveMeans(c, log, n);
    CountedAre(log, n, r.identity, r.text, r.at - c.burstWindow);
    CountedAre(log, n, r.identity, r.text, r.at - c.repeatedWindow);
    CountsFollow(ms, Timed(r.at, r.text), r.text, r.at - c.burstWindow);
    CountsFollow(ms, Timed(r.at, r.text), r.text, r.at - c.repeatedWindow);
  }

  lemma NaiveMeans(c: Config, log: seq<Record>, n: nat)
    requires Faithful(c, log) && n < |log|
    ensures var r := log[n];
            var ms := Since(log[..n], r.identity) + [Timed(r.at, r.text)];
            var sent, same := CountSince(ms, r.at - c.burstWindow), CountSame(ms, r.text, r.at - c.repeatedWindow);
            && (r.breach <==> (c.burstCount > 0 && sent >= c.burstCount) || (c.repeatedCount > 0 && same >= c.repeatedCount))
            && (Repeated(c, log, n) <==> same >= c.repeatedCount)
            && (!r.breach ==> r.decision.None?)
  {
    hide Since, CountSince, CountSame, Verdict;
    var r := log[n];
    assert r == Naive(c, log[..n], r.at, r.identity, r.text);
  }

  // ----- what the ladder guarantees -----

  /** Record m holds the last action against its identity before record n. */
  ghost predicate DirectlyFollows(log: seq<Record>, m: nat, n: nat) {
    && m < n < |log| && log[m].identity == log[n].identity && log[m].decision.Some?
    && forall k :: m < k < n && log[k].identity == log[n].identity ==> log[k].decision.None?
  }

  lemma {:induction false} LastOffenceAt(log: seq<Record>, n: nat, id: Identity)
    requires n <= |log| && LastOffence(log[..n], id).Some?
    ensures exists m :: 0 <= m < n && log[m].identity == id && log[m].decision.Some?
              && LastOffence(log[..n], id) == Some(Offence(log[m].decision.value, log[m].at))
              && forall k :: m < k < n && log[k].identity == id ==> log[k].decision.None?
  {
    var front := log[..n];
    assert front[..n - 1] == log[..n - 1];
    if front[n - 1].identity == id && front[n - 1].decision.Some? {
      assert log[n - 1] == front[n - 1];
    } else {
      LastOffenceAt(log, n - 1, id);
      assert log[n - 1] == front[n - 1];
    }
  }

  /** What each action requires of the one before it. */
  ghost predicate Earned(c: Config, log: seq<Record>, n: nat)
    requires n < |log| && log[n].decision.Some?
  {
    match log[n].decision.value
    case ShadowBan => exists m: nat :: DirectlyFollows(log, m, n) && log[m].decision == Some(Kick)
                                  && WithinWindow(log[m].at, log[n].at, c.postKickWindow)
    case Kick => exists m: nat :: DirectlyFollows(log, m, n) && log[m].decision == Some(Mute)
                             && WithinWindow(log[m].at, log[n].at, c.secondBreachWindow)
    case _ => true
  }

  /** In every history a ShadowBan directly follows a Kick of the same identity within the post-kick
      window, and a Kick directly follows a Mute of it within the second-breach window. */
  lemma LadderIsClimbed(c: Config, log: seq<Record>, n: nat)
    requires Faithful(c, log) && n < |log| && log[n].decision.Some?
    ensures log[n].breach && Earned(c, log, n)
  {
    var r := log[n];
    assert r == Naive(c, log[..n], r.at, r.identity, r.text);
    hide Faithful, LastOffence, LastAction, Since, Breach;
    if r.decision.value.ShadowBan? || r.decision.value.Kick? {
      LastOffenceAt(log, n, r.identity);
      var m :| 0 <= m < n && log[m].identity == r.identity && log[m].decision.Some?
               && LastOffence(log[..n], r.identity) == Some(Offence(log[m].decision.value, log[m].at))
               && forall k :: m < k < n && log[k].identity == r.identity ==> log[k].decision.None?;
      assert DirectlyFollows(log, m, n);
    }
  }

  lemma {:induction false} LastActionIsLater(log: seq<Record>, n: nat, m: nat, action: Action)
    requires m < n <= |log| && log[m].decision == Some(action)
    requires forall i, j :: 0 <= i <= j < |log| ==> log[i].at <= log[j].at
    ensures LastAction(log[..n], log[m].identity, action).Some?
    ensures log[m].at <= LastAction(log[..n], log[m].identity, action).value
    ensures LastAction(log[..n], log[m].identity, action).value <= log[n - 1].at
  {
    assert log[..n][..n - 1] == log[..n - 1];
    assert log[..n][n - 1] == log[n - 1];
    if m < n - 1 && !(log[n - 1].identity == log[m].identity && log[n - 1].decision == Some(action)) {
      LastActionIsLater(log, n - 1, m, action);
    }
  }

  /** The same action against one identity never repeats within the cooldown. */
  lemma NoRepeatInCooldown(c: Config, log: seq<Record>, m: nat, n: nat)
    requires Faithful(c, log) && m < n < |log| && log[m].identity == log[n].identity
    requires log[n].decision.Some? && log[m].decision == log[n].decision
    ensures log[n].at - log[m].at > c.actionCooldown
  {
    var r := log[n];
    assert r == Naive(c, log[..n], r.at, r.identity, r.text);
    LastActionIsLater(log, n, m, r.decision.value);
  }

  lemma {:induction false} LastOffenceIs(log: seq<Record>, n: nat, b: nat, id: Identity)
    requires b < n <= |log| && log[b].identity == id && log[b].decision.Some?
    requires forall k :: b < k < n && log[k].identity == id ==> log[k].decision.None?
    ensures LastOffence(log[..n], id) == Some(Offence(log[b].decision.value, log[b].at))
  {
    var front := log[..n];
    assert front[..n - 1] == log[..n - 1] && front[n - 1] == log[n - 1];
    if b < n - 1 { LastOffenceIs(log, n - 1, b, id); }
  }

  lemma {:induction false} LastActionAt(log: seq<Record>, n: nat, id: Identity, action: Action)
    requires n <= |log| && LastAction(log[..n], id, action).Some?
    ensures exists m :: 0 <= m < n && log[m].identity == id && log[m].decision == Some(action)
                        && LastAction(log[..n], id, action).value == log[m].at
  {
    var front := log[..n];
    assert front[..n - 1] == log[..n - 1] && front[n - 1] == log[n - 1];
    if !(log[n - 1].identity == id && log[n - 1].decision == Some(action)) { LastActionAt(log, n - 1, id, action); }
  }

  /** The action was taken against the identity of record n before it, no longer ago than the cooldown. */
  ghost predicate TakenLately(c: Config, log: seq<Record>, n: nat, action: Action)
    requires n < |log|
  {
    exists m :: 0 <= m < n && log[m].identity == log[n].identity && log[m].decision == Some(action)
                && log[n].at - log[m].at <= c.actionCooldown
  }

  lemma {:induction false} CoolingIsTakenLately(c: Config, log: seq<Record>, n: nat, action: Action)
    requires n < |log| && forall i, j :: 0 <= i <= j < |log| ==> log[i].at <= log[j].at
    ensures CoolingDown(c, LastAction(log[..n], log[n].identity, action), log[n].at) <==> TakenLately(c, log, n, action)
  {
    var last := LastAction(log[..n], log[n].identity, action);
    if last.Some? { LastActionAt(log, n, log[n].identity, action); }
    if TakenLately(c, log, n, action) {
      var m :| 0 <= m < n && log[m].identity == log[n].identity && log[m].decision == Some(action)
               && log[n].at - log[m].at <= c.actionCooldown;
      LastActionIsLater(log, n, m, action);
    }
    hide LastAction;
  }

  /** Whether the text of record n repeats often enough. */
  predicate Repeated(c: Config, log: seq<Record>, n: nat)
    requires n < |log|
  {
    var r := log[n];
    Repeats(c, Since(log[..n], r.identity) + [Timed(r.at, r.text)], r.text, r.at) >= c.repeatedCount
  }

  /** A ShadowBan wears off, in every history: the next breach of its identity goes unanswered exactly if it comes
      within the post-kick window of the ban, or if the action that begins the ladder anew was taken lately. */
  lemma ShadowBanWearsOff(c: Config, log: seq<Record>, b: nat, n: nat)
    requires Faithful(c, log) && DirectlyFollows(log, b, n) && log[b].decision == Some(ShadowBan) && log[n].breach
    ensures var anew := if Repeated(c, log, n) then Mute else Warn;
            log[n].decision
            == if log[n].at - log[b].at <= c.postKickWindow || TakenLately(c, log, n, anew) then None else Some(anew)
  {
    LadderIsExact(c, log, b, n);
    hide Faithful, Repeated, TakenLately;
  }

  /** What follows an action against an identity at its next breach, in every history: a Kick within the post-kick
      window leads to a ShadowBan, and a ShadowBan to nothing; a Mute within the second-breach window leads to a
      Kick and a Warn to a Mute; after that the ladder begins anew. What was taken lately is not repeated. */
  lemma LadderIsExact(c: Config, log: seq<Record>, m: nat, n: nat)
    requires Faithful(c, log) && DirectlyFollows(log, m, n) && log[n].breach
    ensures var passed, anew := log[n].at - log[m].at, if Repeated(c, log, n) then Mute else Warn;
            var action := match log[m].decision.value {
              case ShadowBan => if passed <= c.postKickWindow then None else Some(anew)
              case Kick => Some(if passed <= c.postKickWindow then ShadowBan else anew)
              case Mute => Some(if passed <= c.secondBreachWindow then Kick else anew)
              case Warn => Some(if passed <= c.secondBreachWindow then Mute else anew)
            };
            log[n].decision == if action.Some? && TakenLately(c, log, n, action.value) then None else action
  {
    hide LastOffence, LastAction, Since, CountSame, CountSince, TakenLately, CoolingDown;
    var r := log[n];
    assert r == Naive(c, log[..n], r.at, r.identity, r.text);
    LastOffenceIs(log, n, m, r.identity);
    CooledIffTakenLately(c, log, n);
  }

  lemma CooledIffTakenLately(c: Config, log: seq<Record>, n: nat)
    requires Faithful(c, log) && n < |log|
    ensures forall action :: CoolingDown(c, LastAction(log[..n], log[n].identity, action), log[n].at) <==> TakenLately(c, log, n, action)
  {
    forall action ensures CoolingDown(c, LastAction(log[..n], log[n].identity, action), log[n].at) <==> TakenLately(c, log, n, action) {
      CoolingIsTakenLately(c, log, n, action);
    }
  }

  lemma {:induction false} NoOffence(log: seq<Record>, n: nat, id: Identity)
    requires n <= |log| && forall k :: 0 <= k < n && log[k].identity == id ==> log[k].decision.None?
    ensures LastOffence(log[..n], id).None?
  {
    if n > 0 {
      assert log[..n][..n - 1] == log[..n - 1] && log[..n][n - 1] == log[n - 1];
      NoOffence(log, n - 1, id);
    }
  }

  /** The first breach of an identity is warned about, or muted for a repetition. */
  lemma FirstBreachIsAnswered(c: Config, log: seq<Record>, n: nat)
    requires Faithful(c, log) && n < |log| && log[n].breach
    requires forall k :: 0 <= k < n && log[k].identity == log[n].identity ==> log[k].decision.None?
    ensures log[n].decision == Some(if Repeated(c, log, n) then Mute else Warn)
  {
    var r := log[n];
    var anew := if Repeated(c, log, n) then Mute else Warn;
    assert r == Naive(c, log[..n], r.at, r.identity, r.text);
    NoOffence(log, n, r.identity);
    CoolingIsTakenLately(c, log, n, anew);
    hide Faithful, LastOffence, LastAction, Since, CountSame, CountSince;
  }

  /** The check for a ShadowBan has no window of its own; in an index that was just pruned it means the same. */
  lemma {:induction false} PruningEndsShadowBan(c: Config, log: seq<Record>, x: Index, id: Identity, now: Time)
    requires Represents(c, log, now, x) && (id in x.offences ==> Alive(c, x.offences[id], now))
    ensures id in x.offences && x.offences[id].action.ShadowBan?
            <==> LastOffence(log, id).Some? && LastOffence(log, id).value.action.ShadowBan?
                 && WithinWindow(LastOffence(log, id).value.at, now, c.postKickWindow)
  {
    assert OffenceOk(c, log, now, x, id);
  }

  // ----- a history in which a ShadowBan wears off -----

  /** Every message is a breach; windows of ten, and no cooldown beyond the moment. */
  const STRICT := Config(true, 1, 10, 100, 10, 10, 10, 0)
  const SOMEONE := "nick:a"

  function BreachAt(at: Time, decision: Option<Action>): Record {
    Record(at, SOMEONE, "x", true, decision)
  }

  const BANNED := [BreachAt(0, Some(Warn)), BreachAt(1, Some(Mute)), BreachAt(2, Some(Kick)), BreachAt(3, Some(ShadowBan)),
                   BreachAt(5, None), BreachAt(20, Some(Warn))]

  /** What is remembered of a history of breaches. */
  ghost predicate Recalls(log: seq<Record>, last: Time, offence: Option<Offence>, taken: map<Action, Time>) {
    && Faithful(STRICT, log) && ClockOk(log, last) && Since(log, SOMEONE) == []
    && LastOffence(log, SOMEONE) == offence
    && forall action :: LastAction(log, SOMEONE, action) == if action in taken then Some(taken[action]) else None
  }

  lemma NothingRecalled()
    ensures Recalls([], -1, None, map[])
  {
  }

  /** What the ladder and the cooldown make of the next breach. */
  function Answer(offence: Option<Offence>, taken: map<Action, Time>, now: Time): Option<Action> {
    var action := Ladder(STRICT, offence, false, now);
    if action.Some? && action.value in taken && WithinWindow(taken[action.value], now, STRICT.actionCooldown) then None else action
  }

  lemma OneMoreBreach(log: seq<Record>, last: Time, offence: Option<Offence>, taken: map<Action, Time>, now: Time)
    requires Recalls(log, last, offence, taken) && last < now
    ensures var decision := Answer(offence, taken, now);
            Recalls(log + [BreachAt(now, decision)], now,
                    if decision.Some? then Some(Offence(decision.value, now)) else offence,
                    if decision.Some? then taken[decision.value := now] else taken)
  {
    hide Faithful, Since, LastOffence, LastAction, Naive, Ladder, Answer;
    var r := BreachAt(now, Answer(offence, taken, now));
    BreachIsNaive(log, offence, taken, now);
    FaithfulGrows(STRICT, log, last, now, SOMEONE, "x");
    SinceFollows(log, r, SOMEONE);
    forall action ensures LastAction(log + [r], SOMEONE, action)
                          == if r.decision == Some(action) then Some(now) else LastAction(log, SOMEONE, action)
    {
      ActionFollows(log, r, SOMEONE, action);
    }
  }

  lemma {:induction false} BreachIsNaive(log: seq<Record>, offence: Option<Offence>, taken: map<Action, Time>, now: Time)
    requires Since(log, SOMEONE) == [] && LastOffence(log, SOMEONE) == offence
    requires forall action :: LastAction(log, SOMEONE, action) == if action in taken then Some(taken[action]) else None
    ensures Naive(STRICT, log, now, SOMEONE, "x") == BreachAt(now, Answer(offence, taken, now))
  {
    OneCounted(now);
    hide LastOffence, LastAction, Since, Ladder, CountSince, CountSame;
    assert [] + [Timed(now, "x")] == [Timed(now, "x")];
  }

  lemma OneCounted(now: Time)
    ensures Burst(STRICT, [Timed(now, "x")], now) == 1 && Repeats(STRICT, [Timed(now, "x")], "x", now) == 1
  {
    var ms := [Timed(now, "x")];
    assert ms[..|ms| - 1] == [];
    assert CountSince(ms, now - 10) == CountSince([], now - 10) + 1;
    assert CountSame(ms, "x", now - 10) == CountSame([], "x", now - 10) + 1;
  }

  lemma RecalledIsFaithful(log: seq<Record>, last: Time, offence: Option<Offence>, taken: map<Action, Time>)
    requires Recalls(log, last, offence, taken)
    ensures Faithful(STRICT, log)
  {
  }

  /** Up to the ShadowBan the ladder is climbed step by step; the breach after it goes unanswered, and the one
      after the post-kick window is warned about again. */
  lemma ShadowBanWearsOffOnce()
    ensures Faithful(STRICT, BANNED) && DirectlyFollows(BANNED, 3, 5) && BANNED[3].decision == Some(ShadowBan)
    ensures BANNED[4].breach && BANNED[4].decision.None? && BANNED[5].breach && BANNED[5].decision == Some(Warn)
  {
    hide Recalls, Faithful;
    NothingRecalled();
    OneMoreBreach([], -1, None, map[], 0);
    var a, taken := [] + [BreachAt(0, Some(Warn))], map[Warn := 0];
    OneMoreBreach(a, 0, Some(Offence(Warn, 0)), taken, 1);
    var b := a + [BreachAt(1, Some(Mute))];
    taken := taken[Mute := 1];
    OneMoreBreach(b, 1, Some(Offence(Mute, 1)), taken, 2);
    var c := b + [BreachAt(2, Some(Kick))];
    taken := taken[Kick := 2];
    OneMoreBreach(c, 2, Some(Offence(Kick, 2)), taken, 3);
    var d := c + [BreachAt(3, Some(ShadowBan))];
    taken := taken[ShadowBan := 3];
    OneMoreBreach(d, 3, Some(Offence(ShadowBan, 3)), taken, 5);
    var e := d + [BreachAt(5, None)];
    OneMoreBreach(e, 5, Some(Offence(ShadowBan, 3)), taken, 20);
    var f := e + [BreachAt(20, Some(Warn))];
    assert f == BANNED;
    RecalledIsFaithful(BANNED, 20, Some(Offence(Warn, 20)), taken[Warn := 20]);
  }
}
