/**
 What a turn comes to: the course of the model/tool loop as a function of the
 answers that the provider, the tools and the context give.
 */
module TurnRules {
  import opened Options
  import opened Wire
  import opened ToolProtocol
  import opened ContextBudget
  import opened TurnContext
  import opened ResultIndex
  import opened TurnProjection
  import opened TurnTranscript
  import InitialRequest

  // ----- limits and counters -----

  datatype Limits = Limits(maxSteps: int, maxToolCalls: int)

  /** The counters of a turn. */
  datatype Counters = Counters(steps: int, reserved: int, attempted: int, succeeded: int, failed: int)

  function Remaining(l: Limits, c: Counters): nat {
    if l.maxSteps - c.steps < 0 then 0 else l.maxSteps - c.steps
  }

  /** Every attempted call has exactly one recorded result. */
  predicate Balanced(c: Counters) {
    c.attempted == c.succeeded + c.failed
  }

  // ----- batches -----

  /** Trims a string; what counts as white space is left open. */
  type Trimmer = string -> string

  predicate ValidIdentity(trim: Trimmer, calls: seq<Call>) {
    && (forall i :: 0 <= i < |calls| ==> trim(calls[i].id) != "" && trim(calls[i].name) != "")
    && (forall i, j :: 0 <= i < j < |calls| ==> trim(calls[i].id) != trim(calls[j].id))
  }

  /** None of the ids has been answered in this turn. */
  ghost predicate Fresh(e: Evidence, calls: seq<Call>) {
    forall i :: 0 <= i < |calls| ==> calls[i].id !in e.results
  }

  lemma IdentityIsDistinct(trim: Trimmer, calls: seq<Call>)
    requires ValidIdentity(trim, calls)
    ensures DistinctIds(calls)
  {
  }

  datatype Executed = Executed(result: ToolResult, isError: bool)

  /** The tools: what a batch handed to the executor in some cycle comes back with, call by call. */
  type Executor = (nat, seq<Call>) -> seq<Executed>

  ghost predicate OnePerCall(execute: Executor) {
    forall n, calls :: |execute(n, calls)| == |calls|
  }

  function NotExecuted(c: Call): Executed {
    Executed(ToolResult(c.id, c.name, "TOOL_CALL_LIMIT_REACHED"), true)
  }

  /** What a batch comes back with: from the executor if it runs, and otherwise unexecuted. */
  function Outcomes(execute: Executor, n: nat, calls: seq<Call>, ran: bool): seq<Executed> {
    if ran then execute(n, calls) else seq(|calls|, i requires 0 <= i < |calls| => NotExecuted(calls[i]))
  }

  function BatchOf(calls: seq<Call>, results: seq<Executed>): (batch: seq<BatchItem>)
    requires |results| == |calls|
    ensures |batch| == |calls|
  {
    seq(|calls|, i requires 0 <= i < |calls| =>
      BatchItem(ToolCall(calls[i].id, calls[i].name, calls[i].arguments), results[i].result))
  }

  function Errors(results: seq<Executed>): (n: nat)
    ensures n <= |results|
  {
    if results == [] then 0 else Errors(results[..|results| - 1]) + if results[|results| - 1].isError then 1 else 0
  }

  lemma {:induction false} AllErrors(results: seq<Executed>)
    requires forall i :: 0 <= i < |results| ==> results[i].isError
    ensures Errors(results) == |results|
  {
    if results != [] { AllErrors(results[..|results| - 1]); }
  }

  function AfterBatch(c: Counters, ran: bool, results: seq<Executed>): Counters {
    Counters(c.steps, c.reserved + (if ran then |results| else 0), c.attempted + |results|,
             c.succeeded + |results| - Errors(results), c.failed + Errors(results))
  }

  // ----- the environment -----

  datatype Response = Response(content: Option<string>, calls: seq<Call>, finish: string)

  const LENGTH := "length"

  datatype Ending =
    | Final
    | Canceled
    | InvalidFinal
    | InvalidProtocol
    | AppendFailed(error: AppendError)
    | CalledAfterTerminal
    | ProjectionFailed(cause: Assembly)
    | ProviderFailed
    | LimitsInsufficient
    | NotAssembled(reason: InitialRequest.Prepared)

  /** The endings that a response brings about when it is not accepted. */
  predicate ByResponse(e: Ending) {
    e.InvalidFinal? || e.InvalidProtocol? || e.AppendFailed? || e.CalledAfterTerminal?
  }

  /** The endings of the loop: a projection fails only for want of room. */
  predicate ByLoop(e: Ending) {
    ByResponse(e) || e.Final? || e.Canceled? || e.ProviderFailed? || (e.ProjectionFailed? && e.cause.Rejected?)
  }

  /** Everything the loop cannot decide, by cycle: cancellation (checked twice), the tools, whether any is
      left and what their manifest costs, the encoded receipts of the results so far, and the provider's
      answer (None for an error). The rest is fixed for the turn. */
  datatype Environment = Environment(
    canceled: nat -> bool, execute: Executor, toolsLeft: nat -> bool, manifest: nat -> nat,
    receipts: nat -> Option<Receipts>, answer: nat -> Option<Response>,
    finalOk: (Response, seq<BatchItem>) -> bool, feedback: (Response, bool) -> string, status: (nat, bool) -> string,
    trim: Trimmer, bound: string -> nat, project: Projector,
    fp: Fingerprinter, newest: Message, maxTokens: int, reserveTokens: int)

  // ----- one round -----

  function Own(role: string, text: string): Message {
    Message(role, Some(text), [], "")
  }

  function TextOf(r: Response): string {
    if r.content.None? then "" else r.content.value
  }

  /** Where the loop stands when a response has come: what it was given before, and the number of the round. */
  datatype Round = Round(response: Response, messages: seq<Message>, counters: Counters, evidence: Evidence,
                         terminal: bool, repaired: bool, all: seq<BatchItem>, n: nat)

  function FirstRound(initial: Response, start: seq<Message>, c: Counters, e: Evidence): Round {
    Round(initial, start, c, e, false, false, [], 0)
  }

  predicate Accepted(env: Environment, s: Round) {
    s.response.calls == [] && s.response.finish != LENGTH && env.finalOk(s.response, s.all)
  }

  /** Calls that may be executed: complete, named, and with ids that are new and distinct. */
  ghost predicate Callable(env: Environment, s: Round) {
    s.response.finish != LENGTH && ValidIdentity(env.trim, s.response.calls) && Fresh(s.evidence, s.response.calls)
  }

  predicate Runs(l: Limits, c: Counters, calls: seq<Call>, terminal: bool) {
    !terminal && c.reserved + |calls| <= l.maxToolCalls
  }

  /** What the loop makes of a response: the end of the turn, or the state that the next request is made from. */
  datatype Reply = Reply(ended: Option<Ending>, messages: seq<Message>, counters: Counters, evidence: Evidence,
                         repaired: bool, batch: seq<BatchItem>, correction: seq<Message>)

  /** Execution and append. What was executed stays in the evidence even if it cannot be appended. */
  ghost function AfterExchange(env: Environment, l: Limits, s: Round): Reply
    requires OnePerCall(env.execute)
  {
    var calls := s.response.calls;
    var ran := Runs(l, s.counters, calls, s.terminal);
    var results := Outcomes(env.execute, s.n, calls, ran);
    var batch := BatchOf(calls, results);
    var views := ViewsOf(batch, env.bound, env.project);
    var fault := LastFault(calls, batch, env.bound, env.project);
    var counters, evidence := AfterBatch(s.counters, ran, results), StoredAll(s.evidence, batch, views);
    if fault.Some? then Reply(Some(AppendFailed(fault.value)), s.messages, counters, evidence, s.repaired, batch, [])
    else
      var messages := s.messages + RegistryBlock(s.response.content, calls, views);
      if s.terminal && s.repaired then Reply(Some(CalledAfterTerminal), messages, counters, evidence, s.repaired, batch, [])
      else Reply(None, messages, counters, evidence, s.repaired || s.terminal, batch, [])
  }

  function Ended(s: Round, ending: Ending): Reply {
    Reply(Some(ending), s.messages, s.counters, s.evidence, s.repaired, [], [])
  }

  /** The feedback goes into the transcript, and into the next request as a correction. */
  function Corrected(env: Environment, s: Round, r: Reply): Reply {
    var feedback := Own(USER, env.feedback(s.response, s.terminal));
    r.(messages := r.messages + [feedback], correction := [feedback])
  }

  /** A response that is not the accepted answer: an exchange, one correction, or the end. */
  ghost function ReplyTo(env: Environment, l: Limits, s: Round): Reply
    requires OnePerCall(env.execute)
  {
    if s.response.calls == [] then
      if s.repaired then Ended(s, InvalidFinal)
      else Corrected(env, s, Reply(None, s.messages + [Own(ASSISTANT, TextOf(s.response))], s.counters, s.evidence, true, [], []))
    else if !Callable(env, s) then
      if s.repaired then Ended(s, InvalidProtocol)
      else Corrected(env, s, Reply(None, s.messages, s.counters, s.evidence, true, [], []))
    else
      var r := AfterExchange(env, l, s);
      if r.ended.Some? || !s.terminal then r else Corrected(env, s, r)
  }

  /** Whether the next request is the last one, without tools. */
  predicate IsLast(l: Limits, c: Counters, terminal: bool, toolsLeft: bool) {
    terminal || c.reserved == l.maxToolCalls || !toolsLeft || Remaining(l, c) == 0
  }

  function Stepped(c: Counters, last: bool): Counters {
    c.(steps := c.steps + if last then 0 else 1)
  }

  /** A transcript that a request can be projected from: it holds a policy and the newest request. */
  ghost predicate Started(env: Environment, messages: seq<Message>) {
    env.newest.role == USER && env.newest in messages && exists m :: m in messages && m.role == SYSTEM
  }

  lemma {:induction false} StartedHasPolicy(env: Environment, messages: seq<Message>)
    requires Started(env, messages)
    ensures PolicyAt(messages, 0).Some?
  {
    var m :| m in messages && m.role == SYSTEM;
  }

  /** The projection input of a round. */
  function TurnAt(env: Environment, messages: seq<Message>, views: map<string, string>, n: nat, last: bool, correction: seq<Message>): Turn
    requires PolicyAt(messages, 0).Some?
  {
    TurnOf(messages, views, env.receipts(n), messages[PolicyAt(messages, 0).value], env.newest,
           correction + [Own(USER, env.status(n, last))], env.maxTokens, env.reserveTokens, if last then 0 else env.manifest(n))
  }

  /** Why the next request cannot be projected, if it cannot. */
  ghost function ProjectionFault(env: Environment, messages: seq<Message>, views: map<string, string>, n: nat, last: bool,
                                 correction: seq<Message>): (fault: Option<Assembly>)
    ensures fault.Some? ==> !fault.value.Assembled?
  {
    if PolicyAt(messages, 0).None? || env.newest.role != USER then Some(NoPolicyOrRequest)
    else if forall m :: m in messages ==> !Same(env.fp, m, env.newest) then Some(LostRequest)
    else
      var t := TurnAt(env, messages, views, n, last, correction);
      if ValidLimits(t.input) && Affordable(env.fp, t) then None
      else Some(Rejected(TurnError(t.input, t.receipts.Some? && !Affordable(env.fp, t))))
  }

  // ----- the course of a turn -----

  /** How many completions may still follow. */
  function Left(l: Limits, c: Counters, terminal: bool, repaired: bool): nat {
    (if terminal then 0 else Remaining(l, c) + 1) + if repaired then 0 else 1
  }

  lemma AllLeft(l: Limits, c: Counters)
    ensures Left(l, c, false, false) == Remaining(l, c) + 2
  {
  }

  /** Every round leaves fewer completions: a step is used, the turn becomes terminal, or the one repair is spent. */
  lemma FewerLeft(l: Limits, c: Counters, terminal: bool, repaired: bool, d: Counters, last: bool, fixed: bool)
    requires (terminal ==> !repaired && fixed && last) && (repaired ==> fixed)
    requires d.steps == c.steps + (if last then 0 else 1) && (last || Remaining(l, c) > 0)
    ensures Left(l, d, last, fixed) < Left(l, c, terminal, repaired)
  {
  }

  /** A round that goes on leaves the only correction spent, if the turn was terminal, and takes no step itself. */
  lemma ReplyGoesOn(env: Environment, l: Limits, s: Round)
    requires OnePerCall(env.execute)
    ensures var r := ReplyTo(env, l, s);
            (r.ended.None? ==> (s.terminal ==> !s.repaired && r.repaired) && (s.repaired ==> r.repaired))
            && r.counters.steps == s.counters.steps && (r.ended.Some? ==> ByResponse(r.ended.value))
  {
    hide OnePerCall, RegistryBlock, StoredAll, LastFault, ViewsOf, Outcomes, Errors;
  }

  /** How a turn ends: with which response, transcript and results, and after how many completions. */
  datatype Course = Course(ending: Ending, response: Response, messages: seq<Message>, all: seq<BatchItem>, completions: nat)

  /** How a round ends the turn, if it does. */
  ghost function EndOf(env: Environment, l: Limits, s: Round): Option<Course>
    requires OnePerCall(env.execute)
  {
    if env.canceled(2 * s.n) then Some(Course(Canceled, s.response, s.messages, s.all, s.n))
    else if Accepted(env, s) then Some(Course(Final, s.response, s.messages, s.all, s.n))
    else
      var r := ReplyTo(env, l, s);
      var all := s.all + r.batch;
      if r.ended.Some? then Some(Course(r.ended.value, s.response, r.messages, all, s.n))
      else
        var fault := ProjectionFault(env, r.messages, r.evidence.views, s.n, LastAfter(env, l, s), r.correction);
        if fault.Some? then Some(Course(ProjectionFailed(fault.value), s.response, r.messages, all, s.n))
        else if env.canceled(2 * s.n + 1) then Some(Course(Canceled, s.response, r.messages, all, s.n))
        else if env.answer(s.n).None? then Some(Course(ProviderFailed, s.response, r.messages, all, s.n + 1))
        else None
  }

  ghost predicate LastAfter(env: Environment, l: Limits, s: Round)
    requires OnePerCall(env.execute)
  {
    IsLast(l, ReplyTo(env, l, s).counters, s.terminal, env.toolsLeft(s.n))
  }

  /** The round after one that does not end the turn. */
  ghost function NextRound(env: Environment, l: Limits, s: Round): Round
    requires OnePerCall(env.execute) && EndOf(env, l, s).None?
  {
    var r, last := ReplyTo(env, l, s), LastAfter(env, l, s);
    Round(env.answer(s.n).value, r.messages, Stepped(r.counters, last), r.evidence, last, r.repaired, s.all + r.batch, s.n + 1)
  }

  lemma NextRoundIsNearer(env: Environment, l: Limits, s: Round)
    requires OnePerCall(env.execute) && EndOf(env, l, s).None?
    ensures LeftOf(l, NextRound(env, l, s)) < LeftOf(l, s)
  {
    ReplyGoesOn(env, l, s);
    FewerLeft(l, s.counters, s.terminal, s.repaired, Stepped(ReplyTo(env, l, s).counters, LastAfter(env, l, s)),
              LastAfter(env, l, s), ReplyTo(env, l, s).repaired);
    hide ReplyTo, OnePerCall, ProjectionFault, Left, Accepted;
  }

  function LeftOf(l: Limits, s: Round): nat {
    Left(l, s.counters, s.terminal, s.repaired)
  }

  /** The course of a turn from a round on. */
  ghost function CourseOf(env: Environment, l: Limits, s: Round): Course
    requires OnePerCall(env.execute)
    decreases LeftOf(l, s)
  {
    var end := EndOf(env, l, s);
    if end.Some? then end.value
    else
      NextRoundIsNearer(env, l, s);
      CourseOf(env, l, NextRound(env, l, s))
  }

  // ----- what a course means -----

  /** The response that the loop deals with after so many completions. */
  function ResponseAt(env: Environment, s: Round, completions: nat): Option<Response> {
    if completions <= s.n then Some(s.response) else env.answer(completions - 1)
  }

  /** A correction was given before: before this round, or in one that another completion followed. */
  predicate CorrectedBy(s: Round, c: Course) {
    s.repaired || c.completions > s.n
  }

  /** What each ending that depends on the loop alone stands for. */
  ghost predicate HasCause(env: Environment, s: Round, c: Course) {
    match c.ending
    case Final => c.response.calls == [] && c.response.finish != LENGTH && env.finalOk(c.response, c.all)
    case Canceled => env.canceled(2 * c.completions) || env.canceled(2 * c.completions + 1)
    case ProviderFailed => c.completions > s.n && env.answer(c.completions - 1).None?
    case InvalidFinal => c.response.calls == [] && CorrectedBy(s, c)
    case InvalidProtocol => c.response.calls != [] && CorrectedBy(s, c)
    case CalledAfterTerminal => c.response.calls != [] && CorrectedBy(s, c)
    case AppendFailed(_) => c.response.calls != []
    case ProjectionFailed(cause) => !cause.Assembled?
    case _ => false
  }

  /** The course has a cause, is not longer than what is left, and is about the last response that came. */
  ghost predicate WellCaused(env: Environment, l: Limits, s: Round, c: Course) {
    && HasCause(env, s, c)
    && s.n <= c.completions <= s.n + LeftOf(l, s)
    && (!c.ending.ProviderFailed? ==> ResponseAt(env, s, c.completions) == Some(c.response))
  }

  /** For any environment the course of a turn is well caused. */
  lemma {:induction false} EndingsHaveCauses(env: Environment, l: Limits, s: Round)
    requires OnePerCall(env.execute)
    ensures WellCaused(env, l, s, CourseOf(env, l, s))
    decreases LeftOf(l, s)
  {
    hide *;
    if EndOf(env, l, s).Some? {
      EndHasCause(env, l, s);
    } else {
      NextRoundIsNearer(env, l, s);
      EndingsHaveCauses(env, l, NextRound(env, l, s));
      NextRoundFollows(env, l, s);
      CausesCarryOver(env, l, s, NextRound(env, l, s), CourseOf(env, l, NextRound(env, l, s)));
    }
    CourseUnfolds(env, l, s);
  }

  lemma {:induction false} CourseUnfolds(env: Environment, l: Limits, s: Round)
    requires OnePerCall(env.execute)
    ensures CourseOf(env, l, s) == if EndOf(env, l, s).Some? then EndOf(env, l, s).value else CourseOf(env, l, NextRound(env, l, s))
  {
    hide EndOf, OnePerCall, NextRound;
  }

  /** How the course goes on, given what the loop made of the response. */
  lemma CourseAfter(env: Environment, l: Limits, s: Round, r: Reply, last: bool)
    requires OnePerCall(env.execute) && !env.canceled(2 * s.n) && !Accepted(env, s)
    requires r == ReplyTo(env, l, s) && last == IsLast(l, r.counters, s.terminal, env.toolsLeft(s.n))
    ensures var all, course := s.all + r.batch, CourseOf(env, l, s);
            var fault := ProjectionFault(env, r.messages, r.evidence.views, s.n, last, r.correction);
            if r.ended.Some? then course == Course(r.ended.value, s.response, r.messages, all, s.n) && ByResponse(course.ending)
            else if fault.Some? then course == Course(ProjectionFailed(fault.value), s.response, r.messages, all, s.n)
            else if env.canceled(2 * s.n + 1) then course == Course(Canceled, s.response, r.messages, all, s.n)
            else if env.answer(s.n).None? then course == Course(ProviderFailed, s.response, r.messages, all, s.n + 1)
            else
              var next := Round(env.answer(s.n).value, r.messages, Stepped(r.counters, last), r.evidence, last, r.repaired, all, s.n + 1);
              course == CourseOf(env, l, next) && LeftOf(l, next) < LeftOf(l, s)
              && EndOf(env, l, s).None? && next == NextRound(env, l, s)
  {
    hide ReplyTo, OnePerCall, ProjectionFault, IsLast, Accepted, CourseOf, LeftOf, ByResponse;
    ReplyGoesOn(env, l, s);
    CourseUnfolds(env, l, s);
    if EndOf(env, l, s).None? { NextRoundIsNearer(env, l, s); }
  }

  lemma {:induction false} CourseAtOnce(env: Environment, l: Limits, s: Round)
    requires OnePerCall(env.execute)
    ensures env.canceled(2 * s.n) ==> CourseOf(env, l, s) == Course(Canceled, s.response, s.messages, s.all, s.n)
    ensures !env.canceled(2 * s.n) && Accepted(env, s) ==> CourseOf(env, l, s) == Course(Final, s.response, s.messages, s.all, s.n)
  {
    CourseUnfolds(env, l, s);
    hide ReplyTo, OnePerCall, ProjectionFault, CourseOf, LastAfter, Accepted;
  }

  lemma EndHasCause(env: Environment, l: Limits, s: Round)
    requires OnePerCall(env.execute) && EndOf(env, l, s).Some?
    ensures WellCaused(env, l, s, EndOf(env, l, s).value)
  {
    hide ReplyTo, OnePerCall, ProjectionFault, LeftOf, LastAfter, Callable;
    EndedHasCause(env, l, s);
    ReplyGoesOn(env, l, s);
    SomeLeft(env, l, s);
  }

  /** A round that sends a request had one left. */
  lemma SomeLeft(env: Environment, l: Limits, s: Round)
    requires OnePerCall(env.execute)
    ensures ReplyTo(env, l, s).ended.None? ==> LeftOf(l, s) >= 1
  {
    ReplyGoesOn(env, l, s);
    hide ReplyTo, OnePerCall;
  }

  lemma NextRoundFollows(env: Environment, l: Limits, s: Round)
    requires OnePerCall(env.execute) && EndOf(env, l, s).None?
    ensures var next := NextRound(env, l, s); next.n == s.n + 1 && env.answer(s.n) == Some(next.response)
  {
    hide ReplyTo, OnePerCall, ProjectionFault, LastAfter, Accepted;
  }

  lemma CausesCarryOver(env: Environment, l: Limits, s: Round, next: Round, c: Course)
    requires next.n == s.n + 1 && env.answer(s.n) == Some(next.response) && LeftOf(l, next) < LeftOf(l, s)
    requires WellCaused(env, l, next, c)
    ensures WellCaused(env, l, s, c)
  {
    hide LeftOf;
  }

  lemma EndedHasCause(env: Environment, l: Limits, s: Round)
    requires OnePerCall(env.execute)
    ensures var e := ReplyTo(env, l, s).ended;
            && (e == Some(InvalidFinal) <==> s.response.calls == [] && s.repaired)
            && (e == Some(InvalidProtocol) <==> s.response.calls != [] && !Callable(env, s) && s.repaired)
            && (e == Some(CalledAfterTerminal) ==> s.response.calls != [] && s.terminal && s.repaired)
            && (e.Some? && e.value.AppendFailed? ==> s.response.calls != [] && Callable(env, s))
            && (e.Some? && !s.repaired ==> e.value.AppendFailed?)
  {
    hide OnePerCall, RegistryBlock, StoredAll, LastFault, ViewsOf, Outcomes, Errors, Callable;
  }

  /** The calls of a response can be executed: it is complete, every id and name says something, and the ids are
      different and new in this turn. */
  ghost predicate WellFormed(env: Environment, s: Round) {
    var calls := s.response.calls;
    && calls != [] && s.response.finish != "length"
    && (forall i :: 0 <= i < |calls| ==> env.trim(calls[i].id) != "" && env.trim(calls[i].name) != "")
    && (forall i, j :: 0 <= i < j < |calls| ==> env.trim(calls[i].id) != env.trim(calls[j].id))
    && (forall i :: 0 <= i < |calls| ==> calls[i].id !in s.evidence.results)
  }

  /** What becomes of the calls of a response: they are dealt with exactly if they are well formed, each with the result
      that the executor gave if the turn is not terminal and they fit into the calls that are left, and otherwise with
      the refusal. */
  lemma CallsAreDealtWith(env: Environment, l: Limits, s: Round)
    requires OnePerCall(env.execute)
    ensures var r, calls := ReplyTo(env, l, s), s.response.calls;
            && (r.batch != [] <==> WellFormed(env, s))
            && (r.batch != [] ==>
                  |r.batch| == |calls|
                  && forall i :: 0 <= i < |calls| ==>
                       r.batch[i] == BatchItem(ToolCall(calls[i].id, calls[i].name, calls[i].arguments),
                                               if !s.terminal && s.counters.reserved + |calls| <= l.maxToolCalls
                                               then env.execute(s.n, calls)[i].result
                                               else ToolResult(calls[i].id, calls[i].name, "TOOL_CALL_LIMIT_REACHED")))
  {
    hide RegistryBlock, StoredAll, LastFault, ViewsOf, Errors;
    if s.response.calls != [] {
      assert Callable(env, s) <==> WellFormed(env, s);
    }
  }

  /** A correction is given exactly by a round that goes on although its response had no well-formed calls, or the turn
      is terminal. There is only one: a response that would need a second ends the turn, as nothing else does but a
      result that cannot be appended. */
  lemma CorrectedExactly(env: Environment, l: Limits, s: Round)
    requires OnePerCall(env.execute)
    ensures var r := ReplyTo(env, l, s);
            && (r.correction != [] <==> r.ended.None? && (s.terminal || !WellFormed(env, s)))
            && (r.correction != [] ==> !s.repaired && r.repaired)
            && (r.correction == [] && r.ended.None? ==> r.repaired == s.repaired)
            && (r.ended.Some? && !r.ended.value.AppendFailed? ==> s.repaired)
  {
    hide RegistryBlock, StoredAll, LastFault, ViewsOf, Errors, Outcomes, OnePerCall;
    if s.response.calls != [] {
      assert Callable(env, s) <==> WellFormed(env, s);
    }
  }

  // ----- when a request cannot be projected -----

  /** The receipts, the required messages, or the manifest of round n are too large. */
  predicate WantOfRoom(env: Environment, n: nat, e: Error) {
    e.ReceiptsTooLarge? || e.RequiredTooLarge? || (e.BadReserve? && env.reserveTokens + env.manifest(n) >= env.maxTokens)
  }

  predicate SaneLimits(env: Environment) {
    0 < env.maxTokens <= MAX_CONTEXT_TOKENS && 0 <= env.reserveTokens < env.maxTokens
  }

  lemma FaultIsWantOfRoom(env: Environment, messages: seq<Message>, views: map<string, string>, n: nat, last: bool,
                          correction: seq<Message>)
    requires Started(env, messages)
    ensures var fault := ProjectionFault(env, messages, views, n, last, correction);
            fault.Some? ==> fault.value.Rejected? && (SaneLimits(env) ==> WantOfRoom(env, n, fault.value.error))
  {
    StartedHasPolicy(env, messages);
    assert Same(env.fp, env.newest, env.newest);
    hide Affordable;
  }

  lemma ReplyKeepsMessages(env: Environment, l: Limits, s: Round)
    requires OnePerCall(env.execute)
    ensures s.messages <= ReplyTo(env, l, s).messages
  {
    hide OnePerCall, RegistryBlock, StoredAll, LastFault, ViewsOf, Outcomes, Errors, Callable;
  }

  lemma StartedStays(env: Environment, messages: seq<Message>, more: seq<Message>)
    requires Started(env, messages) && messages <= more
    ensures Started(env, more)
  {
    assert forall m :: m in messages ==> m in more;
  }

  ghost predicate NeedsRoom(env: Environment, c: Course) {
    c.ending.ProjectionFailed? ==>
      c.ending.cause.Rejected? && (SaneLimits(env) ==> WantOfRoom(env, c.completions, c.ending.cause.error))
  }

  /** Once the turn has begun, a projection is only ever rejected; under sane limits, only for want of room. */
  lemma {:induction false} FailsForWantOfRoom(env: Environment, l: Limits, s: Round)
    requires OnePerCall(env.execute) && Started(env, s.messages)
    ensures NeedsRoom(env, CourseOf(env, l, s))
    decreases LeftOf(l, s)
  {
    hide *;
    ReplyKeepsMessages(env, l, s);
    StartedStays(env, s.messages, ReplyTo(env, l, s).messages);
    if EndOf(env, l, s).Some? {
      EndNeedsRoom(env, l, s);
    } else {
      NextRoundIsNearer(env, l, s);
      NextMessages(env, l, s);
      FailsForWantOfRoom(env, l, NextRound(env, l, s));
    }
    CourseUnfolds(env, l, s);
  }

  lemma NextMessages(env: Environment, l: Limits, s: Round)
    requires OnePerCall(env.execute) && EndOf(env, l, s).None?
    ensures NextRound(env, l, s).messages == ReplyTo(env, l, s).messages
  {
    hide ReplyTo, OnePerCall, EndOf, LastAfter;
  }

  lemma EndNeedsRoom(env: Environment, l: Limits, s: Round)
    requires OnePerCall(env.execute) && EndOf(env, l, s).Some? && Started(env, ReplyTo(env, l, s).messages)
    ensures NeedsRoom(env, EndOf(env, l, s).value)
  {
    hide ReplyTo, OnePerCall, ProjectionFault, LastAfter, Started, SaneLimits, WantOfRoom;
    var r := ReplyTo(env, l, s);
    ReplyGoesOn(env, l, s);
    FaultIsWantOfRoom(env, r.messages, r.evidence.views, s.n, LastAfter(env, l, s), r.correction);
  }

  /** What is promised of a course: a cause for its end, want of room for a failed projection, and its length. */
  ghost predicate Sound(env: Environment, l: Limits, s: Round, c: Course) {
    WellCaused(env, l, s, c) && NeedsRoom(env, c) && ByLoop(c.ending)
  }

  lemma {:induction false} CourseIsSound(env: Environment, l: Limits, s: Round)
    requires OnePerCall(env.execute) && Started(env, s.messages)
    ensures Sound(env, l, s, CourseOf(env, l, s))
  {
    EndingsHaveCauses(env, l, s);
    FailsForWantOfRoom(env, l, s);
    hide CourseOf, OnePerCall, WantOfRoom, SaneLimits, Started;
  }

  lemma SoundIsShort(env: Environment, l: Limits, s: Round, c: Course)
    requires Sound(env, l, s, c) && !s.terminal && !s.repaired
    ensures s.n <= c.completions <= s.n + Remaining(l, s.counters) + 2 && ByLoop(c.ending)
  {
    AllLeft(l, s.counters);
    hide HasCause, NeedsRoom;
  }

  /** The course that the rules prescribe, with what is promised of it. */
  ghost predicate Takes(env: Environment, l: Limits, s: Round, c: Course)
    requires OnePerCall(env.execute)
  {
    c == CourseOf(env, l, s) && Sound(env, l, s, c) && c.completions <= s.n + Remaining(l, s.counters) + 2
  }

  lemma {:induction false} RulesAreTaken(env: Environment, l: Limits, s: Round)
    requires OnePerCall(env.execute) && Started(env, s.messages) && !s.terminal && !s.repaired
    ensures Takes(env, l, s, CourseOf(env, l, s)) && ByLoop(CourseOf(env, l, s).ending)
  {
    CourseIsSound(env, l, s);
    SoundIsShort(env, l, s, CourseOf(env, l, s));
    hide CourseOf, Sound, OnePerCall;
  }

  /** What the assembler answers is the fault there is. */
  lemma {:induction false} AssemblyIsTheFault(env: Environment, messages: seq<Message>, views: map<string, string>, n: nat, last: bool,
                                              correction: seq<Message>, assembly: Assembly)
    requires Started(env, messages) && (assembly.Assembled? || assembly.Rejected?) && PolicyAt(messages, 0).Some?
    requires var t := TurnAt(env, messages, views, n, last, correction);
             && (assembly.Assembled? <==> ValidLimits(t.input) && Affordable(env.fp, t))
             && (assembly.Rejected? ==> assembly.error == TurnError(t.input, t.receipts.Some? && !Affordable(env.fp, t)))
    ensures var fault := ProjectionFault(env, messages, views, n, last, correction);
            if fault.Some? then assembly == fault.value else assembly.Assembled?
  {
    hide Affordable, ValidLimits, TurnError, TurnAt, PolicyAt, Same;
    SameAsItself(env.fp, env.newest);
  }

  lemma SameAsItself(fp: Fingerprinter, m: Message)
    ensures Same(fp, m, m)
  {
  }

  // ----- what is sent -----

  /** The request is the projection of this transcript. */
  ghost predicate IsProjected(env: Environment, messages: seq<Message>, views: map<string, string>, n: nat, last: bool,
                              correction: seq<Message>, request: seq<Message>)
  {
    PolicyAt(messages, 0).Some?
    && exists selected, p: Projection ::
         ProjectedAs(env.fp, TurnAt(env, messages, views, n, last, correction), selected, p) && p.messages == request
  }

  /** Round i of the course that begins with s, if it comes to that. */
  ghost function RoundAt(env: Environment, l: Limits, s: Round, i: nat): Option<Round>
    requires OnePerCall(env.execute)
  {
    if i == 0 then Some(s)
    else
      var before := RoundAt(env, l, s, i - 1);
      if before.Some? && EndOf(env, l, before.value).None? then Some(NextRound(env, l, before.value)) else None
  }

  /** The request that a round makes. */
  ghost predicate IsSent(env: Environment, l: Limits, s: Round, request: seq<Message>)
    requires OnePerCall(env.execute)
  {
    var r := ReplyTo(env, l, s);
    IsProjected(env, r.messages, r.evidence.views, s.n, LastAfter(env, l, s), r.correction, request)
  }

  /** The requests are those of the rounds, one by one. */
  ghost predicate AllSent(env: Environment, l: Limits, s: Round, requests: seq<seq<Message>>)
    requires OnePerCall(env.execute)
  {
    forall i :: 0 <= i < |requests| ==> RoundAt(env, l, s, i).Some? && IsSent(env, l, RoundAt(env, l, s, i).value, requests[i])
  }

  lemma {:induction false} OneMoreSent(env: Environment, l: Limits, first: Round, requests: seq<seq<Message>>, s: Round, r: Reply, last: bool,
                                       request: seq<Message>)
    requires OnePerCall(env.execute) && AllSent(env, l, first, requests) && RoundAt(env, l, first, |requests|) == Some(s)
    requires r == ReplyTo(env, l, s) && last == IsLast(l, r.counters, s.terminal, env.toolsLeft(s.n))
    requires IsProjected(env, r.messages, r.evidence.views, s.n, last, r.correction, request)
    ensures AllSent(env, l, first, requests + [request])
  {
    hide RoundAt, IsProjected, ReplyTo, OnePerCall, IsLast;
  }

  lemma RoundAfter(env: Environment, l: Limits, first: Round, i: nat, s: Round)
    requires OnePerCall(env.execute) && RoundAt(env, l, first, i) == Some(s) && EndOf(env, l, s).None?
    ensures RoundAt(env, l, first, i + 1) == Some(NextRound(env, l, s))
  {
    hide OnePerCall, EndOf, NextRound;
  }

  // ----- when a turn becomes terminal -----

  /** When round n was asked for, no tool was left, no call or no step. */
  ghost predicate NothingLeft(env: Environment, l: Limits, s: Round, n: nat)
    requires OnePerCall(env.execute)
  {
    && n > 0 && RoundAt(env, l, s, n).Some?
    && (!env.toolsLeft(n - 1) || RoundAt(env, l, s, n).value.counters.reserved == l.maxToolCalls || n - 1 >= Remaining(l, s.counters))
  }

  /** A round of a new turn is terminal exactly if something was used up when it, or one before it, was asked for;
      until then every request takes one step. */
  lemma {:induction false} TerminalExactly(env: Environment, l: Limits, initial: Response, start: seq<Message>, c: Counters, e: Evidence, i: nat)
    requires OnePerCall(env.execute) && RoundAt(env, l, FirstRound(initial, start, c, e), i).Some?
    ensures var s := FirstRound(initial, start, c, e);
            var r := RoundAt(env, l, s, i).value;
            r.n == i && (r.terminal <==> exists n :: 0 <= n <= i && NothingLeft(env, l, s, n))
            && (!r.terminal ==> r.counters.steps == c.steps + i)
  {
    hide RoundAt, NothingLeft;
    TerminalFromFirst(env, l, FirstRound(initial, start, c, e), i);
  }

  lemma {:induction false} TerminalFromFirst(env: Environment, l: Limits, s: Round, i: nat)
    requires OnePerCall(env.execute) && s.n == 0 && !s.terminal && RoundAt(env, l, s, i).Some?
    ensures var r := RoundAt(env, l, s, i).value;
            r.n == i && (r.terminal <==> exists n :: 0 <= n <= i && NothingLeft(env, l, s, n))
            && (!r.terminal ==> r.counters.steps == s.counters.steps + i)
  {
    hide *;
    if i > 0 {
      PreviousRound(env, l, s, i);
      TerminalFromFirst(env, l, s, i - 1);
      LastMeans(env, l, RoundAt(env, l, s, i - 1).value);
      TerminalFromBefore(env, l, s, i);
    } else {
      FirstIsNotTerminal(env, l, s);
    }
  }

  lemma {:induction false} FirstIsNotTerminal(env: Environment, l: Limits, s: Round)
    requires OnePerCall(env.execute)
    ensures RoundAt(env, l, s, 0) == Some(s) && !NothingLeft(env, l, s, 0)
  {
    hide OnePerCall;
  }

  lemma PreviousRound(env: Environment, l: Limits, s: Round, i: nat)
    requires OnePerCall(env.execute) && i > 0 && RoundAt(env, l, s, i).Some?
    ensures var before := RoundAt(env, l, s, i - 1);
            before.Some? && EndOf(env, l, before.value).None? && RoundAt(env, l, s, i) == Some(NextRound(env, l, before.value))
  {
    hide OnePerCall, EndOf, NextRound;
  }

  lemma LastMeans(env: Environment, l: Limits, before: Round)
    requires OnePerCall(env.execute) && EndOf(env, l, before).None?
    ensures var r := NextRound(env, l, before);
            r.n == before.n + 1
            && (r.terminal <==> before.terminal || r.counters.reserved == l.maxToolCalls || !env.toolsLeft(before.n)
                                || Remaining(l, before.counters) == 0)
            && r.counters.steps == before.counters.steps + if r.terminal then 0 else 1
  {
    ReplyGoesOn(env, l, before);
    hide OnePerCall, EndOf, ReplyTo;
  }

  lemma TerminalFromBefore(env: Environment, l: Limits, s: Round, i: nat)
    requires OnePerCall(env.execute) && i > 0 && RoundAt(env, l, s, i).Some? && RoundAt(env, l, s, i - 1).Some?
    requires var before, r := RoundAt(env, l, s, i - 1).value, RoundAt(env, l, s, i).value;
             && before.n == i - 1 && (before.terminal <==> exists n :: 0 <= n <= i - 1 && NothingLeft(env, l, s, n))
             && (!before.terminal ==> before.counters.steps == s.counters.steps + i - 1)
             && (r.terminal <==> before.terminal || r.counters.reserved == l.maxToolCalls || !env.toolsLeft(before.n)
                                 || Remaining(l, before.counters) == 0)
    ensures RoundAt(env, l, s, i).value.terminal <==> exists n :: 0 <= n <= i && NothingLeft(env, l, s, n)
  {
    hide OnePerCall, RoundAt;
    assert RoundAt(env, l, s, i).value.terminal && !RoundAt(env, l, s, i - 1).value.terminal ==> NothingLeft(env, l, s, i);
  }
}
