/**
 The join monitor: joins are counted for the room, for each hash and for each
 cluster of names, in windows that are pruned on every join. What it decides is
 what a definition over all joins decides, in which nothing is ever pruned.
 */
module JoinMonitor {
  import opened Options
  import opened Wire
  import opened SlidingWindow

  datatype Config = Config(enabled: bool, burstCount: int, burstWindow: int, hashCount: int, hashWindow: int,
                           clusterCount: int, clusterWindow: int, postKickWindow: int, actionCooldown: int)

  datatype Action = Captcha | ShadowBan
  datatype Reason = Burst | SameHash | NameCluster | RepeatedRaid
  datatype Decision = Decision(action: Action, principal: string, reason: Reason)

  /** The text functions of the source, left open: trimming, trimming and lower-casing, and the letters
      and digits of a name without its trailing digits. */
  datatype Text = Text(trim: string -> string, fold: string -> string, cluster: string -> string)

  /** One join: which thresholds it reached, for which of them a captcha was asked, and whether it was banned. */
  datatype Record = Record(at: Time, name: string, hash: string, cluster: string,
                           roomHit: bool, hashHit: bool, clusterHit: bool,
                           roomCaptcha: bool, hashCaptcha: bool, clusterCaptcha: bool, banned: bool)

  // ----- the definition over all joins -----

  /** Where joins are counted. */
  datatype Place = Room | SameHashAs(hash: string) | Named(cluster: string)

  const CLUSTER_BYTES := 3

  predicate Touches(r: Record, p: Place) {
    match p
    case Room => true
    case SameHashAs(hash) => hash != "" && r.hash == hash
    case Named(cluster) => Bytes(cluster) >= CLUSTER_BYTES && r.cluster == cluster
  }

  predicate Hit(r: Record, p: Place) {
    Touches(r, p) && match p case Room => r.roomHit case SameHashAs(_) => r.hashHit case Named(_) => r.clusterHit
  }

  function WindowOf(c: Config, p: Place): int {
    match p case Room => c.burstWindow case SameHashAs(_) => c.hashWindow case Named(_) => c.clusterWindow
  }

  /** The joins counted at a place since its threshold was last reached. */
  function Since(log: seq<Record>, p: Place): seq<Timed> {
    if log == [] then []
    else
      var last := log[|log| - 1];
      if !Touches(last, p) then Since(log[..|log| - 1], p)
      else if Hit(last, p) then []
      else Since(log[..|log| - 1], p) + [Timed(last.at, last.name)]
  }

  /** The entries that are not too old. */
  function Recent(ms: seq<Timed>, cutoff: Time): seq<Timed> {
    if ms == [] then []
    else Recent(ms[..|ms| - 1], cutoff) + if ms[|ms| - 1].at >= cutoff then [ms[|ms| - 1]] else []
  }

  function Names(t: Text, ms: seq<Timed>): set<string> {
    set i | 0 <= i < |ms| :: t.fold(ms[i].text)
  }

  /** What is remembered with its time. */
  datatype Mark = Signal(hash: string) | CaptchaAsked | Ban(name: string)

  predicate Marks(r: Record, m: Mark) {
    match m
    case Signal(hash) => r.hash == hash && r.hashHit
    case CaptchaAsked => r.roomCaptcha || r.hashCaptcha || r.clusterCaptcha
    case Ban(name) => r.name == name && r.banned
  }

  function LastMark(log: seq<Record>, m: Mark): Option<Time> {
    if log == [] then None
    else if Marks(log[|log| - 1], m) then Some(log[|log| - 1].at)
    else LastMark(log[..|log| - 1], m)
  }

  function Horizon(c: Config, m: Mark): int {
    if m.Signal? then c.postKickWindow else c.actionCooldown
  }

  predicate Lasts(c: Config, m: Mark, at: Option<Time>, now: Time) {
    at.Some? && WithinWindow(at.value, now, Horizon(c, m))
  }

  /** A join as it happens. */
  datatype Join = Join(at: Time, name: string, hash: string, cluster: string)

  /** The record of a join, given what is counted at the three places and what is remembered. A captcha is
      asked once for all, so one asked for the room counts when the hash is judged. */
  function Judge(c: Config, t: Text, j: Join, inRoom: seq<Timed>, inHash: seq<Timed>, inCluster: seq<Timed>,
                 signal: Option<Time>, captcha: Option<Time>, ban: Option<Time>): Record
  {
    var entry := Timed(j.at, j.name);
    var roomHit := AtLeast(|inRoom| + 1, c.burstCount);
    var hashHit := j.hash != "" && |Names(t, inHash + [entry])| >= c.hashCount;
    var clusterHit := Bytes(j.cluster) >= CLUSTER_BYTES && |Names(t, inCluster + [entry])| >= c.clusterCount;
    var roomCaptcha := roomHit && !Lasts(c, CaptchaAsked, captcha, j.at);
    var afterRoom := if roomCaptcha then Some(j.at) else captcha;
    var hashCaptcha := hashHit && !Lasts(c, CaptchaAsked, afterRoom, j.at);
    var afterHash := if hashCaptcha then Some(j.at) else afterRoom;
    var clusterCaptcha := clusterHit && !Lasts(c, CaptchaAsked, afterHash, j.at);
    Record(j.at, j.name, j.hash, j.cluster, roomHit, hashHit, clusterHit, roomCaptcha, hashCaptcha, clusterCaptcha,
           hashHit && Lasts(c, Signal(j.hash), signal, j.at) && !Lasts(c, Ban(j.name), ban, j.at))
  }

  function Counted(c: Config, log: seq<Record>, p: Place, now: Time): seq<Timed> {
    Recent(Since(log, p), now - WindowOf(c, p))
  }

  /** The record of a join, from all joins before it. */
  function Naive(c: Config, t: Text, log: seq<Record>, j: Join): Record {
    Judge(c, t, j, Counted(c, log, Room, j.at), Counted(c, log, SameHashAs(j.hash), j.at), Counted(c, log, Named(j.cluster), j.at),
          LastMark(log, Signal(j.hash)), LastMark(log, CaptchaAsked), LastMark(log, Ban(j.name)))
  }

  function Decisions(t: Text, r: Record): seq<Decision> {
    (if r.roomCaptcha then [Decision(Captcha, "", Burst)] else [])
    + (if r.hashCaptcha then [Decision(Captcha, "", SameHash)] else [])
    + (if r.banned then [Decision(ShadowBan, t.trim(r.name), RepeatedRaid)] else [])
    + (if r.clusterCaptcha then [Decision(Captcha, "", NameCluster)] else [])
  }

  // ----- what pruning leaves is what counts -----

  ghost predicate Clocked(log: seq<Record>, last: Time) {
    && (forall i, j :: 0 <= i <= j < |log| ==> log[i].at <= log[j].at)
    && (forall i :: 0 <= i < |log| ==> log[i].at <= last)
  }

  ghost predicate Ascending(ms: seq<Timed>, last: Time) {
    && (forall i, j :: 0 <= i <= j < |ms| ==> ms[i].at <= ms[j].at)
    && (forall i :: 0 <= i < |ms| ==> ms[i].at <= last)
  }

  lemma {:induction false} SinceAscends(log: seq<Record>, p: Place, last: Time)
    requires Clocked(log, last)
    ensures Ascending(Since(log, p), last)
  {
    if log != [] {
      var front, r := log[..|log| - 1], log[|log| - 1];
      assert Clocked(front, r.at);
      SinceAscends(front, p, r.at);
    }
  }

  /** In the order of the clock, what is too old stands at the front. */
  lemma {:induction false} DropOldIsRecent(ms: seq<Timed>, last: Time, cutoff: Time)
    requires Ascending(ms, last)
    ensures DropOld(ms, cutoff) == Recent(ms, cutoff)
  {
    if ms != [] {
      var front, m := ms[..|ms| - 1], ms[|ms| - 1];
      assert ms == front + [m];
      DropOldIsRecent(front, last, cutoff);
      DropThenAppend(front, m, cutoff);
      DropOldDrops(front, cutoff);
      if m.at < cutoff {
        DropAll(ms, cutoff);
        DropAll(front, cutoff);
      } else if DropOld(front, cutoff) == [] {
        assert DropOld([m], cutoff) == [m];
      }
    }
  }

  lemma {:induction false} DropAll(ms: seq<Timed>, cutoff: Time)
    requires forall i :: 0 <= i < |ms| ==> ms[i].at < cutoff
    ensures DropOld(ms, cutoff) == []
  {
    if ms != [] { DropAll(ms[1..], cutoff); }
  }

  // ----- the index -----

  datatype ActionKey = ActionKey(action: Action, principal: string)

  datatype Index = Index(room: seq<Timed>, hashes: map<string, seq<Timed>>, names: map<string, seq<Timed>>,
                         signals: map<string, Time>, actions: map<ActionKey, Time>)

  function WindowAt(x: Index, p: Place): seq<Timed> {
    match p
    case Room => x.room
    case SameHashAs(hash) => Lookup(x.hashes, hash)
    case Named(cluster) => Lookup(x.names, cluster)
  }

  function KeyOf(m: Mark): ActionKey
    requires !m.Signal?
  {
    if m.CaptchaAsked? then CAPTCHA_KEY else ActionKey(ShadowBan, m.name)
  }

  function MarkAt(x: Index, m: Mark): Option<Time> {
    match m
    case Signal(hash) => if hash in x.signals then Some(x.signals[hash]) else None
    case _ => if KeyOf(m) in x.actions then Some(x.actions[KeyOf(m)]) else None
  }

  /** A window without its old entries holds what it should. */
  predicate WindowOk(c: Config, log: seq<Record>, last: Time, x: Index, p: Place) {
    DropOld(WindowAt(x, p), last - WindowOf(c, p)) == DropOld(Since(log, p), last - WindowOf(c, p))
  }

  /** What is remembered is the last mark, unless that no longer matters. */
  predicate MarkOk(c: Config, log: seq<Record>, last: Time, x: Index, m: Mark) {
    if MarkAt(x, m).Some? then LastMark(log, m) == MarkAt(x, m) else !Lasts(c, m, LastMark(log, m), last)
  }

  /** The index at time `last` holds what the joins so far still mean. */
  ghost predicate Represents(c: Config, log: seq<Record>, last: Time, x: Index) {
    Clocked(log, last) && (forall p :: WindowOk(c, log, last, x, p)) && (forall m :: MarkOk(c, log, last, x, m))
  }

  /** It has no old entries. */
  predicate Tidy(c: Config, now: Time, x: Index, p: Place) {
    DropOld(WindowAt(x, p), now - WindowOf(c, p)) == WindowAt(x, p)
  }

  /** What pruning must do. */
  ghost predicate Pruned(c: Config, x: Index, now: Time, y: Index) {
    && (forall p :: WindowAt(y, p) == DropOld(WindowAt(x, p), now - WindowOf(c, p)))
    && (forall m :: MarkAt(y, m) == if Lasts(c, m, MarkAt(x, m), now) then MarkAt(x, m) else None)
  }

  lemma {:induction false} WindowStays(c: Config, log: seq<Record>, last: Time, x: Index, now: Time, y: Index, p: Place)
    requires WindowOk(c, log, last, x, p) && last <= now
    requires WindowAt(y, p) == DropOld(WindowAt(x, p), now - WindowOf(c, p))
    ensures WindowOk(c, log, now, y, p) && Tidy(c, now, y, p)
  {
    var early, late := last - WindowOf(c, p), now - WindowOf(c, p);
    DropTwice(Since(log, p), early, late);
    DropTwice(WindowAt(x, p), early, late);
    DropTwice(WindowAt(x, p), late, late);
  }

  lemma {:induction false} LastMarkIsThere(log: seq<Record>, m: Mark, last: Time)
    requires Clocked(log, last)
    ensures LastMark(log, m).Some? ==> LastMark(log, m).value <= last
  {
    if log != [] {
      assert Clocked(log[..|log| - 1], last);
      LastMarkIsThere(log[..|log| - 1], m, last);
    }
  }

  lemma MarkStays(c: Config, log: seq<Record>, last: Time, x: Index, now: Time, y: Index, m: Mark)
    requires Clocked(log, last) && MarkOk(c, log, last, x, m) && last <= now
    requires MarkAt(y, m) == if Lasts(c, m, MarkAt(x, m), now) then MarkAt(x, m) else None
    ensures MarkOk(c, log, now, y, m)
  {
    LastMarkIsThere(log, m, last);
    hide LastMark, MarkAt;
  }

  /** With a clock that does not go back, pruning loses nothing that can still matter. */
  lemma PruningIsSafe(c: Config, log: seq<Record>, last: Time, x: Index, now: Time, y: Index)
    requires Represents(c, log, last, x) && Pruned(c, x, now, y) && last <= now
    ensures Represents(c, log, now, y) && forall p :: Tidy(c, now, y, p)
  {
    hide WindowOk, MarkOk, Tidy;
    forall p ensures WindowOk(c, log, now, y, p) && Tidy(c, now, y, p) { WindowStays(c, log, last, x, now, y, p); }
    forall m ensures MarkOk(c, log, now, y, m) { MarkStays(c, log, last, x, now, y, m); }
  }

  /** The record of a join as the pruned index has it. */
  function Indexed(c: Config, t: Text, x: Index, j: Join): Record {
    Judge(c, t, j, x.room, Lookup(x.hashes, j.hash), Lookup(x.names, j.cluster),
          MarkAt(x, Signal(j.hash)), MarkAt(x, CaptchaAsked), MarkAt(x, Ban(j.name)))
  }

  lemma WindowIsCounted(c: Config, log: seq<Record>, now: Time, x: Index, p: Place)
    requires Represents(c, log, now, x) && Tidy(c, now, x, p)
    ensures WindowAt(x, p) == Counted(c, log, p, now)
  {
    assert WindowOk(c, log, now, x, p);
    SinceAscends(log, p, now);
    DropOldIsRecent(Since(log, p), now, now - WindowOf(c, p));
    hide Represents, Since, DropOld, Recent, WindowAt, WindowOf, Ascending;
  }

  /** Through the pruned index a join is judged as over all joins. */
  lemma SameJudgement(c: Config, t: Text, log: seq<Record>, x: Index, j: Join)
    requires Represents(c, log, j.at, x) && forall p :: Tidy(c, j.at, x, p)
    ensures Indexed(c, t, x, j) == Naive(c, t, log, j)
  {
    WindowIsCounted(c, log, j.at, x, Room);
    WindowIsCounted(c, log, j.at, x, SameHashAs(j.hash));
    WindowIsCounted(c, log, j.at, x, Named(j.cluster));
    assert MarkOk(c, log, j.at, x, Signal(j.hash));
    assert MarkOk(c, log, j.at, x, CaptchaAsked);
    assert MarkOk(c, log, j.at, x, Ban(j.name));
    hide LastMark, Counted, Names, Represents;
  }

  // ----- one join later -----

  const CAPTCHA_KEY := ActionKey(Captcha, "")

  function Put(actions: map<ActionKey, Time>, k: ActionKey, at: Time, when: bool): map<ActionKey, Time> {
    if when then actions[k := at] else actions
  }

  function Entered(x: Index, r: Record): Index {
    var entry := Timed(r.at, r.name);
    var asked := Put(x.actions, CAPTCHA_KEY, r.at, Marks(r, CaptchaAsked));
    Index(if r.roomHit then [] else x.room + [entry],
          if r.hash == "" then x.hashes else x.hashes[r.hash := if r.hashHit then [] else Lookup(x.hashes, r.hash) + [entry]],
          if Bytes(r.cluster) < CLUSTER_BYTES then x.names
          else x.names[r.cluster := if r.clusterHit then [] else Lookup(x.names, r.cluster) + [entry]],
          if r.hashHit then x.signals[r.hash := r.at] else x.signals,
          Put(asked, ActionKey(ShadowBan, r.name), r.at, r.banned))
  }

  lemma {:induction false} SinceFollows(log: seq<Record>, r: Record, p: Place)
    ensures Since(log + [r], p)
            == if !Touches(r, p) then Since(log, p) else if Hit(r, p) then [] else Since(log, p) + [Timed(r.at, r.name)]
  {
    assert (log + [r])[..|log|] == log;
  }

  lemma {:induction false} LastMarkFollows(log: seq<Record>, r: Record, m: Mark)
    ensures LastMark(log + [r], m) == if Marks(r, m) then Some(r.at) else LastMark(log, m)
  {
    assert (log + [r])[..|log|] == log;
  }

  /** After a join every window still holds what it should. */
  lemma WindowFollows(c: Config, log: seq<Record>, x: Index, r: Record, p: Place)
    requires WindowOk(c, log, r.at, x, p)
    requires (r.hashHit ==> r.hash != "") && (r.clusterHit ==> Bytes(r.cluster) >= CLUSTER_BYTES)
    ensures WindowOk(c, log + [r], r.at, Entered(x, r), p)
  {
    var entry, cutoff := Timed(r.at, r.name), r.at - WindowOf(c, p);
    SinceFollows(log, r, p);
    EnteredWindow(x, r, p);
    DropThenAppend(Since(log, p), entry, cutoff);
    DropThenAppend(WindowAt(x, p), entry, cutoff);
    hide Since, DropOld, Entered, WindowAt, Touches, Hit, WindowOf;
  }

  lemma EnteredWindow(x: Index, r: Record, p: Place)
    requires (r.hashHit ==> r.hash != "") && (r.clusterHit ==> Bytes(r.cluster) >= CLUSTER_BYTES)
    ensures WindowAt(Entered(x, r), p)
            == if !Touches(r, p) then WindowAt(x, p) else if Hit(r, p) then [] else WindowAt(x, p) + [Timed(r.at, r.name)]
  {
    hide Bytes;
  }

  lemma MarkFollows(c: Config, log: seq<Record>, x: Index, r: Record, m: Mark)
    requires MarkOk(c, log, r.at, x, m)
    ensures MarkOk(c, log + [r], r.at, Entered(x, r), m)
  {
    LastMarkFollows(log, r, m);
    assert MarkAt(Entered(x, r), m) == if Marks(r, m) then Some(r.at) else MarkAt(x, m);
    hide LastMark, Entered;
  }

  /** Entering a join's record and its effects keeps the index true to all joins. */
  lemma RecordKeepsIndex(c: Config, log: seq<Record>, x: Index, r: Record)
    requires Represents(c, log, r.at, x)
    requires (r.hashHit ==> r.hash != "") && (r.clusterHit ==> Bytes(r.cluster) >= CLUSTER_BYTES)
    ensures Represents(c, log + [r], r.at, Entered(x, r))
  {
    hide WindowOk, Entered, MarkOk;
    forall p ensures WindowOk(c, log + [r], r.at, Entered(x, r), p) { WindowFollows(c, log, x, r, p); }
    forall m ensures MarkOk(c, log + [r], r.at, Entered(x, r), m) { MarkFollows(c, log, x, r, m); }
  }

  /** What a join leaves behind is what the definition over all joins says. */
  lemma JoinIsEntered(c: Config, t: Text, log: seq<Record>, x: Index, j: Join)
    requires Represents(c, log, j.at, x) && forall p :: Tidy(c, j.at, x, p)
    ensures var r := Indexed(c, t, x, j);
            r == Naive(c, t, log, j) && Represents(c, log + [r], j.at, Entered(x, r))
  {
    SameJudgement(c, t, log, x, j);
    hide Naive, Represents, Entered, Names, Tidy, Lasts, AtLeast, MarkAt;
    RecordKeepsIndex(c, log, x, Indexed(c, t, x, j));
  }

  // ----- the three parts of a join, one after the other -----

  predicate RoomHits(c: Config, x: Index, j: Join) {
    AtLeast(|x.room| + 1, c.burstCount)
  }

  predicate HashHits(c: Config, t: Text, x: Index, j: Join) {
    j.hash != "" && |Names(t, Lookup(x.hashes, j.hash) + [Timed(j.at, j.name)])| >= c.hashCount
  }

  predicate ClusterHits(c: Config, t: Text, x: Index, j: Join) {
    Bytes(j.cluster) >= CLUSTER_BYTES && |Names(t, Lookup(x.names, j.cluster) + [Timed(j.at, j.name)])| >= c.clusterCount
  }

  predicate CaptchaDue(c: Config, x: Index, j: Join) {
    !Lasts(c, CaptchaAsked, MarkAt(x, CaptchaAsked), j.at)
  }

  predicate BanDue(c: Config, x: Index, j: Join) {
    Lasts(c, Signal(j.hash), MarkAt(x, Signal(j.hash)), j.at) && !Lasts(c, Ban(j.name), MarkAt(x, Ban(j.name)), j.at)
  }

  function RoomStep(c: Config, x: Index, j: Join): Index {
    var hit := RoomHits(c, x, j);
    x.(room := if hit then [] else x.room + [Timed(j.at, j.name)],
       actions := Put(x.actions, CAPTCHA_KEY, j.at, hit && CaptchaDue(c, x, j)))
  }

  function HashStep(c: Config, t: Text, x: Index, j: Join): Index {
    var hit := HashHits(c, t, x, j);
    var asked := Put(x.actions, CAPTCHA_KEY, j.at, hit && CaptchaDue(c, x, j));
    if j.hash == "" then x
    else x.(hashes := x.hashes[j.hash := if hit then [] else Lookup(x.hashes, j.hash) + [Timed(j.at, j.name)]],
            signals := if hit then x.signals[j.hash := j.at] else x.signals,
            actions := Put(asked, ActionKey(ShadowBan, j.name), j.at, hit && BanDue(c, x, j)))
  }

  function ClusterStep(c: Config, t: Text, x: Index, j: Join): Index {
    var hit := ClusterHits(c, t, x, j);
    if Bytes(j.cluster) < CLUSTER_BYTES then x
    else x.(names := x.names[j.cluster := if hit then [] else Lookup(x.names, j.cluster) + [Timed(j.at, j.name)]],
            actions := Put(x.actions, CAPTCHA_KEY, j.at, hit && CaptchaDue(c, x, j)))
  }

  function StepsRecord(c: Config, t: Text, x: Index, j: Join): Record {
    var y := RoomStep(c, x, j);
    var z := HashStep(c, t, y, j);
    var roomHit, hashHit, clusterHit := RoomHits(c, x, j), HashHits(c, t, y, j), ClusterHits(c, t, z, j);
    Record(j.at, j.name, j.hash, j.cluster, roomHit, hashHit, clusterHit, roomHit && CaptchaDue(c, x, j),
           hashHit && CaptchaDue(c, y, j), clusterHit && CaptchaDue(c, z, j), hashHit && BanDue(c, y, j))
  }

  /** One after the other they come to the record and its effects. */
  lemma StepsMakeTheRecord(c: Config, t: Text, x: Index, j: Join)
    ensures StepsRecord(c, t, x, j) == Indexed(c, t, x, j)
    ensures Entered(x, Indexed(c, t, x, j)) == ClusterStep(c, t, HashStep(c, t, RoomStep(c, x, j), j), j)
  {
    hide *;
    RecordOfSteps(c, t, x, j);
    EffectsOfSteps(c, t, x, j);
  }

  lemma RoomStepDoes(c: Config, x: Index, j: Join)
    ensures var y, hit := RoomStep(c, x, j), RoomHits(c, x, j);
            y == Index(if hit then [] else x.room + [Timed(j.at, j.name)], x.hashes, x.names, x.signals,
                       Put(x.actions, CAPTCHA_KEY, j.at, hit && CaptchaDue(c, x, j)))
  {
    hide RoomHits, CaptchaDue;
  }

  lemma HashStepDoes(c: Config, t: Text, y: Index, j: Join)
    ensures var z, hit := HashStep(c, t, y, j), HashHits(c, t, y, j);
            var asked := Put(y.actions, CAPTCHA_KEY, j.at, hit && CaptchaDue(c, y, j));
            z == Index(y.room,
                       if j.hash == "" then y.hashes
                       else y.hashes[j.hash := if hit then [] else Lookup(y.hashes, j.hash) + [Timed(j.at, j.name)]],
                       y.names, if hit then y.signals[j.hash := j.at] else y.signals,
                       Put(asked, ActionKey(ShadowBan, j.name), j.at, hit && BanDue(c, y, j)))
            && (hit ==> j.hash != "")
  {
    NoHashHit(c, t, y, j);
    hide HashHits, CaptchaDue, BanDue, Lookup;
  }

  lemma ClusterStepDoes(c: Config, t: Text, z: Index, j: Join)
    ensures var hit := ClusterHits(c, t, z, j);
            ClusterStep(c, t, z, j)
            == Index(z.room, z.hashes,
                     if Bytes(j.cluster) < CLUSTER_BYTES then z.names
                     else z.names[j.cluster := if hit then [] else Lookup(z.names, j.cluster) + [Timed(j.at, j.name)]],
                     z.signals, Put(z.actions, CAPTCHA_KEY, j.at, hit && CaptchaDue(c, z, j)))
  {
    NoClusterHit(c, t, z, j);
    hide ClusterHits, CaptchaDue, Lookup, Bytes;
  }

  lemma NoClusterHit(c: Config, t: Text, x: Index, j: Join)
    ensures ClusterHits(c, t, x, j) ==> Bytes(j.cluster) >= CLUSTER_BYTES
  {
  }

  lemma NoHashHit(c: Config, t: Text, x: Index, j: Join)
    ensures HashHits(c, t, x, j) ==> j.hash != ""
  {
  }

  /** The marks after some actions were put. */
  lemma MarksAfter(x: Index, y: Index, j: Join, asked: bool)
    requires y.signals == x.signals && y.actions == Put(x.actions, CAPTCHA_KEY, j.at, asked)
    ensures MarkAt(y, CaptchaAsked) == if asked then Some(j.at) else MarkAt(x, CaptchaAsked)
    ensures MarkAt(y, Ban(j.name)) == MarkAt(x, Ban(j.name)) && MarkAt(y, Signal(j.hash)) == MarkAt(x, Signal(j.hash))
  {
  }

  lemma CaptchaAfter(y: Index, z: Index, j: Join, asked: bool, banned: bool)
    requires z.actions == Put(Put(y.actions, CAPTCHA_KEY, j.at, asked), ActionKey(ShadowBan, j.name), j.at, banned)
    ensures MarkAt(z, CaptchaAsked) == if asked then Some(j.at) else MarkAt(y, CaptchaAsked)
  {
  }

  lemma RecordOfSteps(c: Config, t: Text, x: Index, j: Join)
    ensures StepsRecord(c, t, x, j) == Indexed(c, t, x, j)
  {
    var y := RoomStep(c, x, j);
    var z := HashStep(c, t, y, j);
    RoomStepDoes(c, x, j);
    HashStepDoes(c, t, y, j);
    MarksAfter(x, y, j, RoomHits(c, x, j) && CaptchaDue(c, x, j));
    CaptchaAfter(y, z, j, HashHits(c, t, y, j) && CaptchaDue(c, y, j), HashHits(c, t, y, j) && BanDue(c, y, j));
    hide RoomStep, HashStep, MarkAt, Names, Bytes, AtLeast, Lookup, Lasts, Put;
  }

  lemma EffectsOfSteps(c: Config, t: Text, x: Index, j: Join)
    ensures Entered(x, StepsRecord(c, t, x, j)) == ClusterStep(c, t, HashStep(c, t, RoomStep(c, x, j), j), j)
  {
    hide RoomStep, HashStep, ClusterStep, RoomHits, HashHits, ClusterHits, CaptchaDue, BanDue, Lookup, Bytes;
    var y := RoomStep(c, x, j);
    var z := HashStep(c, t, y, j);
    RoomStepDoes(c, x, j);
    HashStepDoes(c, t, y, j);
    ClusterStepDoes(c, t, z, j);
    var r := StepsRecord(c, t, x, j);
    ActionsCommute(x.actions, j, r.roomCaptcha, r.hashCaptcha, r.banned, r.clusterCaptcha);
    hide Put;
  }

  lemma ActionsCommute(actions: map<ActionKey, Time>, j: Join, room: bool, hash: bool, banned: bool, cluster: bool)
    ensures var ban := ActionKey(ShadowBan, j.name);
            Put(Put(Put(Put(actions, CAPTCHA_KEY, j.at, room), CAPTCHA_KEY, j.at, hash), ban, j.at, banned), CAPTCHA_KEY, j.at, cluster)
            == Put(Put(actions, CAPTCHA_KEY, j.at, room || hash || cluster), ban, j.at, banned)
  {
  }

  lemma StepsStayTidy(c: Config, t: Text, x: Index, j: Join)
    requires forall p :: Tidy(c, j.at, x, p)
    ensures var y := RoomStep(c, x, j);
            Tidy(c, j.at, y, SameHashAs(j.hash)) && Tidy(c, j.at, HashStep(c, t, y, j), Named(j.cluster))
  {
    assert Tidy(c, j.at, x, SameHashAs(j.hash)) && Tidy(c, j.at, x, Named(j.cluster));
    hide DropOld, HashHits, CaptchaDue, BanDue, RoomHits, Lookup;
  }

  // ----- loops over the index -----

  /** distinct. */
  method Distinct(t: Text, ms: seq<Timed>) returns (n: nat)
    ensures n == |Names(t, ms)|
  {
    var names: set<string> := {};
    for i := 0 to |ms|
      invariant names == set k | 0 <= k < i :: t.fold(ms[k].text)
    {
      names := names + {t.fold(ms[i].text)};
    }
    n := |names|;
  }

  method PruneSignals(c: Config, signals: map<string, Time>, now: Time) returns (out: map<string, Time>)
    ensures forall h :: h in out <==> h in signals && WithinWindow(signals[h], now, c.postKickWindow)
    ensures forall h :: h in out ==> out[h] == signals[h]
  {
    out := signals;
    var left := signals.Keys;
    while left != {}
      invariant left <= signals.Keys
      invariant forall h :: h in out <==> h in signals && (h in left || WithinWindow(signals[h], now, c.postKickWindow))
      invariant forall h :: h in out ==> out[h] == signals[h]
    {
      SomeElement(left);
      var h :| h in left;
      left := left - {h};
      if !WithinWindow(signals[h], now, c.postKickWindow) { out := out - {h}; }
    }
  }

  lemma SomeKey(keys: set<ActionKey>)
    requires keys != {}
    ensures exists k :: k in keys
  {
    assert (forall k :: k !in keys) ==> keys == {};
  }

  method PruneActions(c: Config, actions: map<ActionKey, Time>, now: Time) returns (out: map<ActionKey, Time>)
    ensures forall k :: k in out <==> k in actions && WithinWindow(actions[k], now, c.actionCooldown)
    ensures forall k :: k in out ==> out[k] == actions[k]
  {
    out := actions;
    var left := actions.Keys;
    while left != {}
      invariant left <= actions.Keys
      invariant forall k :: k in out <==> k in actions && (k in left || WithinWindow(actions[k], now, c.actionCooldown))
      invariant forall k :: k in out ==> out[k] == actions[k]
    {
      SomeKey(left);
      var k :| k in left;
      left := left - {k};
      if !WithinWindow(actions[k], now, c.actionCooldown) { out := out - {k}; }
    }
  }

  // ----- the monitor -----

  /** The history of a monitor: every record is what the definition says, in the order of the clock. */
  ghost predicate Faithful(c: Config, t: Text, log: seq<Record>) {
    && (forall n :: 0 <= n < |log| ==> IsNaive(c, t, log, n))
    && (forall m, n :: 0 <= m <= n < |log| ==> log[m].at <= log[n].at)
  }

  predicate IsNaive(c: Config, t: Text, log: seq<Record>, n: nat)
    requires n < |log|
  {
    log[n] == Naive(c, t, log[..n], Join(log[n].at, log[n].name, log[n].hash, log[n].cluster))
  }

  lemma NaiveIsOf(c: Config, t: Text, log: seq<Record>, j: Join)
    ensures var r := Naive(c, t, log, j); Join(r.at, r.name, r.hash, r.cluster) == j
  {
    hide Counted, LastMark, Names, Lasts;
  }

  lemma FaithfulGrows(c: Config, t: Text, log: seq<Record>, x: Index, j: Join)
    requires Faithful(c, t, log) && Represents(c, log, j.at, x)
    ensures Faithful(c, t, log + [Naive(c, t, log, j)])
  {
    var r := Naive(c, t, log, j);
    var more := log + [r];
    NaiveIsOf(c, t, log, j);
    assert more[..|log|] == log;
    hide Naive, Represents;
    forall n | 0 <= n < |more| ensures IsNaive(c, t, more, n) {
      if n < |log| { assert more[..n] == log[..n] && IsNaive(c, t, log, n); }
    }
  }

  /** The loops together do what pruning must do. */
  lemma {:induction false} LoopsPrune(c: Config, x: Index, now: Time, y: Index)
    requires y.room == DropOld(x.room, now - c.burstWindow)
    requires forall h :: Lookup(y.hashes, h) == DropOld(Lookup(x.hashes, h), now - c.hashWindow)
    requires forall n :: Lookup(y.names, n) == DropOld(Lookup(x.names, n), now - c.clusterWindow)
    requires forall h :: h in y.signals <==> h in x.signals && WithinWindow(x.signals[h], now, c.postKickWindow)
    requires forall h :: h in y.signals ==> y.signals[h] == x.signals[h]
    requires forall k :: k in y.actions <==> k in x.actions && WithinWindow(x.actions[k], now, c.actionCooldown)
    requires forall k :: k in y.actions ==> y.actions[k] == x.actions[k]
    ensures Pruned(c, x, now, y)
  {
    MarksPruned(c, x, now, y);
    hide DropOld, Lookup, MarkAt, Lasts;
  }

  lemma MarksPruned(c: Config, x: Index, now: Time, y: Index)
    requires forall h :: h in y.signals <==> h in x.signals && WithinWindow(x.signals[h], now, c.postKickWindow)
    requires forall h :: h in y.signals ==> y.signals[h] == x.signals[h]
    requires forall k :: k in y.actions <==> k in x.actions && WithinWindow(x.actions[k], now, c.actionCooldown)
    requires forall k :: k in y.actions ==> y.actions[k] == x.actions[k]
    ensures forall m :: MarkAt(y, m) == if Lasts(c, m, MarkAt(x, m), now) then MarkAt(x, m) else None
  {
  }

  class Monitor {
    const config: Config
    const texts: Text
    var room: seq<Timed>
    var hashes: map<string, seq<Timed>>
    var names: map<string, seq<Timed>>
    var signals: map<string, Time>
    var actions: map<ActionKey, Time>
    ghost var log: seq<Record>
    ghost var last: Time

    function View(): Index
      reads this
    {
      Index(room, hashes, names, signals, actions)
    }

    ghost predicate Valid()
      reads this
    {
      Faithful(config, texts, log) && Represents(config, log, last, View())
    }

    constructor (config: Config, texts: Text, ghost start: Time)
      ensures Valid() && log == [] && last == start && this.config == config && this.texts == texts
    {
      this.config, this.texts := config, texts;
      room, hashes, names, signals, actions, log, last := [], map[], map[], map[], map[], [], start;
    }

    /** pruneExpired. */
    method PruneExpired(now: Time)
      requires Valid() && last <= now
      modifies `room, `hashes, `names, `signals, `actions
      ensures Represents(config, log, now, View())
      ensures forall p :: Tidy(config, now, View(), p)
    {
      hide Faithful, Represents, Pruned, DropOld, Lookup, Tidy;
      ghost var before := View();
      room := PruneFront(room, now - config.burstWindow);
      hashes := PruneWindows(hashes, now - config.hashWindow);
      names := PruneWindows(names, now - config.clusterWindow);
      signals := PruneSignals(config, signals, now);
      actions := PruneActions(config, actions, now);
      LoopsPrune(config, before, now, View());
      PruningIsSafe(config, log, last, before, now, View());
    }

    /** allow. */
    method Allow(m: Mark, now: Time) returns (ok: bool)
      requires !m.Signal?
      modifies `actions
      ensures ok <==> !Lasts(config, m, old(MarkAt(View(), m)), now)
      ensures actions == if ok then old(actions)[KeyOf(m) := now] else old(actions)
    {
      var k := KeyOf(m);
      if k in actions && WithinWindow(actions[k], now, config.actionCooldown) {
        return false;
      }
      actions := actions[k := now];
      ok := true;
    }

    /** The room's part of OnJoin. */
    method JudgeRoom(j: Join) returns (hit: bool, captcha: bool)
      modifies `room, `actions
      ensures hit == RoomHits(config, old(View()), j) && captcha == (hit && CaptchaDue(config, old(View()), j))
      ensures View() == RoomStep(config, old(View()), j)
    {
      room := room + [Timed(j.at, j.name)];
      hit, captcha := AtLeast(|room|, config.burstCount), false;
      if hit {
        captcha := Allow(CaptchaAsked, j.at);
        room := [];
      }
    }

    /** The hash's part: a second signal within the post-kick window bans the name. */
    method JudgeHash(j: Join) returns (hit: bool, captcha: bool, banned: bool)
      requires Tidy(config, j.at, View(), SameHashAs(j.hash))
      modifies `hashes, `signals, `actions
      ensures hit == HashHits(config, texts, old(View()), j) && captcha == (hit && CaptchaDue(config, old(View()), j))
      ensures banned == (hit && BanDue(config, old(View()), j))
      ensures View() == HashStep(config, texts, old(View()), j)
    {
      hit, captcha, banned := false, false, false;
      if j.hash == "" {
        return;
      }
      var v := PruneFront(Lookup(hashes, j.hash), j.at - config.hashWindow);
      assert v == Lookup(hashes, j.hash);
      hide DropOld, Names;
      v := v + [Timed(j.at, j.name)];
      var variants := Distinct(texts, v);
      if variants >= config.hashCount {
        hit := true;
        captcha := Allow(CaptchaAsked, j.at);
        var previous := if j.hash in signals then Some(signals[j.hash]) else None;
        signals := signals[j.hash := j.at];
        if previous.Some? && WithinWindow(previous.value, j.at, config.postKickWindow) {
          banned := Allow(Ban(j.name), j.at);
        }
        v := [];
      }
      hashes := hashes[j.hash := v];
    }

    /** The name cluster's part. */
    method JudgeCluster(j: Join) returns (hit: bool, captcha: bool)
      requires Tidy(config, j.at, View(), Named(j.cluster))
      modifies `names, `actions
      ensures hit == ClusterHits(config, texts, old(View()), j) && captcha == (hit && CaptchaDue(config, old(View()), j))
      ensures View() == ClusterStep(config, texts, old(View()), j)
    {
      hit, captcha := false, false;
      if Bytes(j.cluster) < CLUSTER_BYTES {
        return;
      }
      var v := PruneFront(Lookup(names, j.cluster), j.at - config.clusterWindow);
      assert v == Lookup(names, j.cluster);
      hide DropOld, Names, Bytes;
      v := v + [Timed(j.at, j.name)];
      var variants := Distinct(texts, v);
      if variants >= config.clusterCount {
        hit := true;
        captcha := Allow(CaptchaAsked, j.at);
        v := [];
      }
      names := names[j.cluster := v];
    }

    /** The three parts in turn, in a tidy index. */
    method JudgeAll(j: Join) returns (r: Record)
      requires forall p :: Tidy(config, j.at, View(), p)
      modifies `room, `hashes, `names, `signals, `actions
      ensures r == Indexed(config, texts, old(View()), j) && View() == Entered(old(View()), r)
    {
      hide Tidy, RoomHits, HashHits, ClusterHits, CaptchaDue, BanDue, RoomStep, HashStep, ClusterStep, Indexed, Entered;
      StepsMakeTheRecord(config, texts, View(), j);
      assert StepsRecord(config, texts, View(), j) == Indexed(config, texts, View(), j);
      StepsStayTidy(config, texts, View(), j);
      var roomHit, roomCaptcha := JudgeRoom(j);
      var hashHit, hashCaptcha, banned := JudgeHash(j);
      var clusterHit, clusterCaptcha := JudgeCluster(j);
      r := Record(j.at, j.name, j.hash, j.cluster, roomHit, hashHit, clusterHit, roomCaptcha, hashCaptcha, clusterCaptcha, banned);
    }

    /** OnJoin, for a user who is there and not protected. Whatever was pruned, the decisions and the record
        that is left are those of the definition over all joins. */
    method OnJoin(name: string, hash: string, exempt: bool, now: Time) returns (decisions: seq<Decision>)
      requires Valid() && last <= now
      modifies this
      ensures Valid()
      ensures !config.enabled || exempt ==> decisions == [] && View() == old(View()) && log == old(log) && last == old(last)
      ensures config.enabled && !exempt ==>
                var r := Naive(config, texts, old(log), Join(now, name, texts.fold(hash), texts.cluster(name)));
                log == old(log) + [r] && last == now && decisions == Decisions(texts, r)
    {
      if !config.enabled || exempt {
        return [];
      }
      decisions := Count(Join(now, name, texts.fold(hash), texts.cluster(name)));
    }

    /** The part of OnJoin behind the mutex. */
    method Count(j: Join) returns (decisions: seq<Decision>)
      requires Valid() && last <= j.at
      modifies this
      ensures Valid() && last == j.at
      ensures var r := Naive(config, texts, old(log), j);
              log == old(log) + [r] && decisions == Decisions(texts, r)
    {
      hide Faithful, Naive, Indexed, Represents, Entered, DropOld, Tidy, Decisions;
      PruneExpired(j.at);
      ghost var x := View();
      FaithfulGrows(config, texts, log, x, j);
      JoinIsEntered(config, texts, log, x, j);
      var r := JudgeAll(j);
      decisions := Decisions(texts, r);
      log, last := log + [r], j.at;
    }
  }

  // ----- what a threshold stands for -----

  /** No threshold was reached at the place from join i up to, but without, join n. */
  ghost predicate NoHit(log: seq<Record>, i: nat, n: nat, p: Place)
    requires n <= |log|
  {
    forall k :: i <= k < n ==> !Hit(log[k], p)
  }

  /** The joins before n that count at a place: since its threshold was last reached, and not too old. */
  ghost function Before(log: seq<Record>, n: nat, p: Place, cutoff: Time): (before: set<nat>)
    requires n <= |log|
    ensures forall i :: i in before ==> i < n
  {
    set i | 0 <= i < n && Touches(log[i], p) && log[i].at >= cutoff && NoHit(log, i, n, p)
  }

  /** The joins that count at a place when join n has come. */
  ghost function Evidence(c: Config, log: seq<Record>, n: nat, p: Place): (evidence: set<nat>)
    requires n < |log|
    ensures forall i :: i in evidence ==> i <= n
  {
    Before(log, n, p, log[n].at - WindowOf(c, p)) + if Touches(log[n], p) then {n} else {}
  }

  ghost function NamesAt(t: Text, log: seq<Record>, at: set<nat>): set<string>
    requires forall i :: i in at ==> i < |log|
  {
    set i | i in at :: t.fold(log[i].name)
  }

  lemma BeforeFollows(log: seq<Record>, n: nat, p: Place, cutoff: Time)
    requires 0 < n <= |log|
    ensures Before(log, n, p, cutoff)
            == if Hit(log[n - 1], p) then {}
               else Before(log, n - 1, p, cutoff) + if Touches(log[n - 1], p) && log[n - 1].at >= cutoff then {n - 1} else {}
  {
    hide Touches, Hit;
    forall i | 0 <= i < n ensures NoHit(log, i, n, p) <==> !Hit(log[n - 1], p) && NoHit(log, i, n - 1, p) {
      if NoHit(log, i, n - 1, p) && !Hit(log[n - 1], p) {
        forall k | i <= k < n ensures !Hit(log[k], p) {}
      }
    }
    assert NoHit(log, n - 1, n - 1, p);
  }

  lemma {:induction false} CountedNext(log: seq<Record>, n: nat, p: Place, cutoff: Time)
    requires 0 < n <= |log|
    ensures var r := log[n - 1];
            Recent(Since(log[..n], p), cutoff)
            == if Hit(r, p) then []
               else Recent(Since(log[..n - 1], p), cutoff)
                    + if Touches(r, p) && r.at >= cutoff then [Timed(r.at, r.name)] else []
  {
    var front, r := log[..n - 1], log[n - 1];
    assert log[..n] == front + [r];
    SinceFollows(front, r, p);
    var ms := Since(front, p);
    assert (ms + [Timed(r.at, r.name)])[..|ms|] == ms;
    assert Hit(r, p) ==> Touches(r, p);
    hide Since, Touches, Hit;
  }

  lemma NamesAtFollow(t: Text, log: seq<Record>, at: set<nat>, i: nat)
    requires (forall k :: k in at ==> k < |log|) && i < |log|
    ensures NamesAt(t, log, at + {i}) == NamesAt(t, log, at) + {t.fold(log[i].name)}
  {
  }

  /** One more entry, one more join. */
  lemma OneMore(t: Text, log: seq<Record>, before: set<nat>, counted: seq<Timed>, n: nat)
    requires n < |log| && forall i :: i in before ==> i < n
    requires |counted| == |before| && Names(t, counted) == NamesAt(t, log, before)
    ensures var more := counted + [Timed(log[n].at, log[n].name)];
            |more| == |before + {n}| && Names(t, more) == NamesAt(t, log, before + {n})
  {
    hide *;
    NamesFollow(t, counted, Timed(log[n].at, log[n].name));
    NamesAtFollow(t, log, before, n);
    assert n !in before;
  }

  /** What the definition counts are exactly these joins. */
  lemma {:induction false} CountedAre(t: Text, log: seq<Record>, n: nat, p: Place, cutoff: Time)
    requires n <= |log|
    ensures var counted, before := Recent(Since(log[..n], p), cutoff), Before(log, n, p, cutoff);
            |counted| == |before| && Names(t, counted) == NamesAt(t, log, before)
  {
    hide *;
    NoNames(t, log);
    if n == 0 {
      NothingBefore(log, p, cutoff);
    } else {
      CountedAre(t, log, n - 1, p, cutoff);
      BeforeFollows(log, n, p, cutoff);
      CountedNext(log, n, p, cutoff);
      var counted, before := Recent(Since(log[..n - 1], p), cutoff), Before(log, n - 1, p, cutoff);
      OneMore(t, log, before, counted, n - 1);
      assert counted + [] == counted && before + {} == before;
    }
  }

  lemma {:induction false} NothingBefore(log: seq<Record>, p: Place, cutoff: Time)
    ensures Recent(Since(log[..0], p), cutoff) == [] && Before(log, 0, p, cutoff) == {}
  {
  }

  lemma NoNames(t: Text, log: seq<Record>)
    ensures Names(t, []) == {} == NamesAt(t, log, {})
  {
  }

  lemma NamesFollow(t: Text, ms: seq<Timed>, m: Timed)
    ensures Names(t, ms + [m]) == Names(t, ms) + {t.fold(m.text)}
  {
    var more := ms + [m];
    assert forall i :: 0 <= i < |ms| ==> more[i] == ms[i];
    assert more[|ms|] == m;
  }

  /** In every history, a threshold is reached exactly if the joins that count at the place are enough: so
      many joins in the room, so many different names for a hash or a cluster. */
  lemma ThresholdsAreExact(c: Config, t: Text, log: seq<Record>, n: nat)
    requires Faithful(c, t, log) && n < |log|
    ensures log[n].roomHit <==> c.burstCount > 0 && |Evidence(c, log, n, Room)| >= c.burstCount
    ensures log[n].hashHit <==>
              log[n].hash != "" && |NamesAt(t, log, Evidence(c, log, n, SameHashAs(log[n].hash)))| >= c.hashCount
    ensures log[n].clusterHit <==>
              Bytes(log[n].cluster) >= CLUSTER_BYTES
              && |NamesAt(t, log, Evidence(c, log, n, Named(log[n].cluster)))| >= c.clusterCount
  {
    assert IsNaive(c, t, log, n);
    EvidenceIs(c, t, log, n, Room);
    EvidenceIs(c, t, log, n, SameHashAs(log[n].hash));
    EvidenceIs(c, t, log, n, Named(log[n].cluster));
    hide Faithful, Evidence, Counted, Names, NamesAt, LastMark, Lasts;
  }

  lemma EvidenceIs(c: Config, t: Text, log: seq<Record>, n: nat, p: Place)
    requires n < |log|
    ensures var counted := Counted(c, log[..n], p, log[n].at);
            Touches(log[n], p) ==>
              |Evidence(c, log, n, p)| == |counted| + 1
              && NamesAt(t, log, Evidence(c, log, n, p)) == Names(t, counted + [Timed(log[n].at, log[n].name)])
  {
    hide Since, Touches, Recent, Before, Names, NamesAt, WindowOf;
    var cutoff := log[n].at - WindowOf(c, p);
    CountedAre(t, log, n, p, cutoff);
    OneMore(t, log, Before(log, n, p, cutoff), Counted(c, log[..n], p, log[n].at), n);
  }

  /** No join is used twice: what has led to a threshold never counts for a later one. */
  lemma EvidenceIsUsedOnce(c: Config, log: seq<Record>, m: nat, n: nat, p: Place)
    requires m < n < |log| && Hit(log[m], p)
    ensures Evidence(c, log, m, p) !! Evidence(c, log, n, p)
  {
    hide Hit;
    assert forall i: nat :: i <= m ==> !NoHit(log, i, n, p);
  }

  // ----- what the decisions guarantee -----

  lemma {:induction false} LastMarkIsLater(log: seq<Record>, n: nat, m: nat, mark: Mark)
    requires m < n <= |log| && Marks(log[m], mark)
    requires forall i, j :: 0 <= i <= j < |log| ==> log[i].at <= log[j].at
    ensures LastMark(log[..n], mark).Some?
    ensures log[m].at <= LastMark(log[..n], mark).value <= log[n - 1].at
  {
    assert log[..n][..n - 1] == log[..n - 1] && log[..n][n - 1] == log[n - 1];
    if m < n - 1 && !Marks(log[n - 1], mark) {
      LastMarkIsLater(log, n - 1, m, mark);
    }
  }

  lemma {:induction false} LastMarkAt(log: seq<Record>, n: nat, mark: Mark)
    requires n <= |log| && LastMark(log[..n], mark).Some?
    ensures exists m :: 0 <= m < n && Marks(log[m], mark) && LastMark(log[..n], mark).value == log[m].at
  {
    assert log[..n][..n - 1] == log[..n - 1] && log[..n][n - 1] == log[n - 1];
    if !Marks(log[n - 1], mark) { LastMarkAt(log, n - 1, mark); }
  }

  /** A captcha was asked before join n, no longer ago than the cooldown. */
  ghost predicate AskedLately(c: Config, log: seq<Record>, n: nat)
    requires n < |log|
  {
    exists m :: 0 <= m < n && (log[m].roomCaptcha || log[m].hashCaptcha || log[m].clusterCaptcha)
                && log[n].at - log[m].at <= c.actionCooldown
  }

  /** The name of join n was banned before, no longer ago than the cooldown. */
  ghost predicate BannedLately(c: Config, log: seq<Record>, n: nat)
    requires n < |log|
  {
    exists m :: 0 <= m < n && log[m].name == log[n].name && log[m].banned && log[n].at - log[m].at <= c.actionCooldown
  }

  lemma {:induction false} CoolsIffMarkedLately(c: Config, log: seq<Record>, n: nat, mark: Mark)
    requires n < |log| && forall i, j :: 0 <= i <= j < |log| ==> log[i].at <= log[j].at
    ensures Lasts(c, mark, LastMark(log[..n], mark), log[n].at)
            <==> exists m :: 0 <= m < n && Marks(log[m], mark) && log[n].at - log[m].at <= Horizon(c, mark)
  {
    hide LastMark, Marks;
    if LastMark(log[..n], mark).Some? { LastMarkAt(log, n, mark); }
    if m :| 0 <= m < n && Marks(log[m], mark) && log[n].at - log[m].at <= Horizon(c, mark) {
      LastMarkIsLater(log, n, m, mark);
    }
  }

  lemma CaptchaCools(c: Config, log: seq<Record>, n: nat)
    requires n < |log| && forall i, j :: 0 <= i <= j < |log| ==> log[i].at <= log[j].at
    ensures Lasts(c, CaptchaAsked, LastMark(log[..n], CaptchaAsked), log[n].at) <==> AskedLately(c, log, n)
  {
    CoolsIffMarkedLately(c, log, n, CaptchaAsked);
    hide LastMark, Lasts;
    assert forall m :: 0 <= m < n ==>
             (Marks(log[m], CaptchaAsked) <==> log[m].roomCaptcha || log[m].hashCaptcha || log[m].clusterCaptcha);
  }

  lemma BanCools(c: Config, log: seq<Record>, n: nat)
    requires n < |log| && forall i, j :: 0 <= i <= j < |log| ==> log[i].at <= log[j].at
    ensures Lasts(c, Ban(log[n].name), LastMark(log[..n], Ban(log[n].name)), log[n].at) <==> BannedLately(c, log, n)
  {
    CoolsIffMarkedLately(c, log, n, Ban(log[n].name));
    hide LastMark, Lasts;
    assert forall m :: 0 <= m < n ==> (Marks(log[m], Ban(log[n].name)) <==> log[m].name == log[n].name && log[m].banned);
  }

  /** A captcha is asked exactly for the first threshold that a join reaches, and only if none was asked lately. */
  lemma CaptchasAreExact(c: Config, t: Text, log: seq<Record>, n: nat)
    requires Faithful(c, t, log) && n < |log|
    ensures log[n].roomCaptcha <==> log[n].roomHit && !AskedLately(c, log, n)
    ensures c.actionCooldown >= 0 ==>
              (log[n].hashCaptcha <==> log[n].hashHit && !log[n].roomHit && !AskedLately(c, log, n))
    ensures c.actionCooldown >= 0 ==>
              (log[n].clusterCaptcha <==> log[n].clusterHit && !log[n].roomHit && !log[n].hashHit && !AskedLately(c, log, n))
  {
    assert IsNaive(c, t, log, n);
    CaptchaCools(c, log, n);
    hide Faithful, Counted, Names, LastMark, AskedLately;
  }

  /** The decisions of a join: a captcha for each threshold it was asked for, and the ban of the name. */
  lemma DecisionsAreExact(t: Text, r: Record, d: Decision)
    ensures d in Decisions(t, r)
            <==> (d == Decision(Captcha, "", Burst) && r.roomCaptcha) || (d == Decision(Captcha, "", SameHash) && r.hashCaptcha)
                 || (d == Decision(Captcha, "", NameCluster) && r.clusterCaptcha)
                 || (d == Decision(ShadowBan, t.trim(r.name), RepeatedRaid) && r.banned)
    ensures |Decisions(t, r)| == (if r.roomCaptcha then 1 else 0) + (if r.hashCaptcha then 1 else 0) + (if r.banned then 1 else 0)
                                 + (if r.clusterCaptcha then 1 else 0)
  {
  }

  /** Captchas for the room keep the cooldown between them, whatever they are asked for; and a name is
      not banned again within it. */
  lemma ActionsCoolDown(c: Config, t: Text, log: seq<Record>, m: nat, n: nat, mark: Mark)
    requires Faithful(c, t, log) && m < n < |log| && !mark.Signal? && Marks(log[m], mark) && Marks(log[n], mark)
    ensures log[n].at - log[m].at > c.actionCooldown
  {
    assert IsNaive(c, t, log, n);
    LastMarkIsLater(log, n, m, mark);
    hide Faithful, Counted, Names, LastMark;
  }

  /** With a cooldown that is not negative, one join asks for at most one captcha. */
  lemma OneCaptchaPerJoin(c: Config, t: Text, log: seq<Record>, n: nat)
    requires Faithful(c, t, log) && n < |log| && c.actionCooldown >= 0
    ensures !(log[n].roomCaptcha && log[n].hashCaptcha) && !(log[n].roomCaptcha && log[n].clusterCaptcha)
            && !(log[n].hashCaptcha && log[n].clusterCaptcha)
  {
    assert IsNaive(c, t, log, n);
    hide Faithful, Counted, Names, LastMark;
  }

  /** Records m and n are consecutive signals for one hash. */
  ghost predicate NextSignal(log: seq<Record>, m: nat, n: nat) {
    && m < n < |log| && log[m].hash == log[n].hash && log[m].hashHit && log[n].hashHit
    && forall k :: m < k < n ==> !(log[k].hash == log[n].hash && log[k].hashHit)
  }

  lemma {:induction false} LastSignalAt(log: seq<Record>, n: nat, hash: string)
    requires n <= |log| && LastMark(log[..n], Signal(hash)).Some?
    ensures exists m :: 0 <= m < n && log[m].hash == hash && log[m].hashHit
              && LastMark(log[..n], Signal(hash)) == Some(log[m].at)
              && forall k :: m < k < n ==> !(log[k].hash == hash && log[k].hashHit)
  {
    assert log[..n][..n - 1] == log[..n - 1] && log[..n][n - 1] == log[n - 1];
    if !Marks(log[n - 1], Signal(hash)) {
      LastSignalAt(log, n - 1, hash);
    }
  }

  /** A name is banned exactly at the second of two consecutive signals for its hash within the post-kick
      window, unless the name itself was banned lately. */
  lemma BanNeedsTwoSignals(c: Config, t: Text, log: seq<Record>, n: nat)
    requires Faithful(c, t, log) && n < |log|
    ensures log[n].banned <==>
              (exists m: nat :: NextSignal(log, m, n) && WithinWindow(log[m].at, log[n].at, c.postKickWindow))
              && !BannedLately(c, log, n)
  {
    assert IsNaive(c, t, log, n);
    var r := log[n];
    BanCools(c, log, n);
    hide Faithful, Counted, Names, LastMark, BannedLately;
    if LastMark(log[..n], Signal(r.hash)).Some? {
      LastSignalAt(log, n, r.hash);
      var m :| 0 <= m < n && log[m].hash == r.hash && log[m].hashHit && LastMark(log[..n], Signal(r.hash)) == Some(log[m].at)
               && forall k :: m < k < n ==> !(log[k].hash == r.hash && log[k].hashHit);
      assert r.hashHit ==> NextSignal(log, m, n);
      assert forall k: nat :: NextSignal(log, k, n) ==> k == m;
    } else {
      forall m: nat ensures !NextSignal(log, m, n) {
        if NextSignal(log, m, n) { NoSignal(log, n, m, r.hash); }
      }
    }
  }

  lemma {:induction false} NoSignal(log: seq<Record>, n: nat, m: nat, hash: string)
    requires m < n <= |log| && log[m].hash == hash && log[m].hashHit
    ensures LastMark(log[..n], Signal(hash)).Some?
  {
    assert log[..n][..n - 1] == log[..n - 1] && log[..n][n - 1] == log[n - 1];
    if m < n - 1 { NoSignal(log, n - 1, m, hash); }
  }
}
