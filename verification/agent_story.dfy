/** What the step loop of a run keeps, and how each way out of it leads to the verdict. */
module AgentStory {
  import opened Text
  import opened Model
  import opened AgentRun
  import opened AgentVerdict

  /** The sends met the outside's answers, the effects are theirs, and the flag is the truth about them. */
  ghost predicate SendsKept(sends: seq<SendAttempt>, effects: seq<Effect>, replySent: bool, setup: Setup)
  {
    && SendsAreFair(sends, setup) && effects == EffectsOf(sends, setup)
    && (replySent <==> SomeSendSucceeded(sends))
  }

  ghost predicate RunsAreFairFrom(runs: seq<ToolRun>, k: nat, env: Env) {
    forall i :: 0 <= i < |runs| ==> Ran(runs[i], k + i, env)
  }

  /** What holds of result, flag and log while the loop goes on: `ping` is a ping reply that failed before it,
      `runs` are the calls made in the step under way, `heard` is what has been emitted for that step. */
  ghost predicate Going(left: Left, setup: Setup, ping: seq<SendAttempt>, runs: seq<ToolRun>, heard: seq<Event>)
  {
    && StepsAreFair(left.log.steps, OpeningOf(setup), setup.env, setup.cfg.maxSteps)
    && RunsAreFairFrom(runs, OkRunsOf(left.log.steps), setup.env)
    && SendsKept(left.log.sends, left.log.effects, left.replySent, setup)
    && left.log.sends == ping + SendsOf(left.log.steps) + SendsIn(runs)
    && left.log.completions == []
    && left.log.events == (if setup.emitting then EventsOf(left.log.steps) + heard else [])
    && left.result == EMPTY_RESULT.(outputText := left.result.outputText,
                                    toolCalls := OkRunsOf(left.log.steps) + OkRuns(runs))
  }

  /** The message is eligible, and if it is a ping, replying to it has failed. */
  ghost predicate PingTried(ping: seq<SendAttempt>, setup: Setup) {
    && setup.env.list.Ok? && EligibleInbound(setup.env.list.value, setup.req.message)
    && |ping| == (if IsPing(setup.env.list.value, setup.req.message) then 1 else 0)
    && (ping != [] ==> ping[0].origin == Ping && ping[0].body == "pong" && ping[0].subject == "" && ping[0].result.Err?)
  }

  // ---- Growing by a call or a step ----

  lemma {:induction false} OneMoreRun(runs: seq<ToolRun>, run: ToolRun, id: string)
    ensures SendsIn(runs + [run]) == SendsIn(runs) + (if run.sent.Some? then [run.sent.value] else [])
    ensures OkRuns(runs + [run]) == OkRuns(runs) + (if run.result.Ok? then 1 else 0)
    ensures RunEvents(id, runs + [run]) ==
            RunEvents(id, runs) + (if run.result.Ok? then [CallCompleted(id, run.call.callId, run.call.name)] else [])
  {
    assert (runs + [run])[..|runs|] == runs;
  }

  lemma {:induction false} OneMoreStep(steps: seq<Step>, step: Step)
    ensures EventsOf(steps + [step]) == EventsOf(steps) + StepEvents(step)
    ensures SendsOf(steps + [step]) == SendsOf(steps) + SendsIn(step.runs)
    ensures OkRunsOf(steps + [step]) == OkRunsOf(steps) + OkRuns(step.runs)
    ensures LatestText(steps + [step]) == if TextOf(step) != "" then TextOf(step) else LatestText(steps)
    ensures EntriesOf(steps + [step]) == EntriesOf(steps) + [EntryOf(|steps| + 1, step)]
  {
    hide StepEvents, TextOf, EntryOf, SendsIn, OkRuns;
    assert (steps + [step])[..|steps|] == steps;
  }

  lemma {:induction false} FairWithStep(steps: seq<Step>, step: Step, env: Env)
    requires RunsAreFair(steps, env) && RunsAreFairFrom(step.runs, OkRunsOf(steps), env)
    ensures RunsAreFair(steps + [step], env)
  {
    hide Ran;
    assert (steps + [step])[..|steps|] == steps;
  }

  lemma {:induction false} AllOkAreCounted(runs: seq<ToolRun>)
    requires AllOk(runs)
    ensures OkRuns(runs) == |runs|
  {
    if runs != [] {
      AllOkAreCounted(runs[..|runs| - 1]);
    }
  }

  lemma {:induction false} StepJoins(steps: seq<Step>, step: Step, opening: Input, env: Env, maxSteps: nat)
    requires StepsAreFair(steps, opening, env, maxSteps) && |steps| < maxSteps
    requires steps != [] ==> Answered(steps[|steps| - 1])
    requires step.request == NextRequest(steps, opening) && step.reply == env.model(|steps|)
    requires RunsInOrder(step) && RunsAreFairFrom(step.runs, OkRunsOf(steps), env)
    ensures StepsAreFair(steps + [step], opening, env, maxSteps)
  {
    hide Ran, Calls, Answered, RunsInOrder, NextRequest;
    var longer := steps + [step];
    FairWithStep(steps, step, env);
    assert longer[..|steps|] == steps;
    forall k | 0 <= k < |longer| ensures StepInPlace(longer, k, opening, env) {
      assert longer[..k] == steps[..k];
      if k < |steps| {
        assert StepInPlace(steps, k, opening, env);
      }
    }
  }

  // ---- Sends ----

  lemma {:induction false} OneMoreSend(sends: seq<SendAttempt>, a: SendAttempt, setup: Setup)
    ensures SomeSendSucceeded(sends + [a]) <==> SomeSendSucceeded(sends) || a.result.Ok?
    ensures EffectsOf(sends + [a], setup) ==
            EffectsOf(sends, setup) + SendEffects(setup, a.body, a.subject, |sends|)
    ensures SendsAreFair(sends, setup) &&
            a.result == SendResult(setup, a.body, |sends|) ==>
              SendsAreFair(sends + [a], setup)
  {
    hide SendEffects, SendResult;
    var longer := sends + [a];
    assert longer[..|sends|] == sends;
    assert longer[|sends|] == a;
    if SomeSendSucceeded(sends) {
      var i :| 0 <= i < |sends| && sends[i].result.Ok?;
      assert longer[i].result.Ok?;
    }
  }

  /** What a send makes of the log. */
  function WithSend(log: Log, a: SendAttempt, setup: Setup): Log {
    log.(sends := log.sends + [a],
         effects := log.effects + SendEffects(setup, a.body, a.subject, |log.sends|))
  }

  lemma {:induction false} SendIsKept(log: Log, replySent: bool, a: SendAttempt, setup: Setup)
    requires SendsKept(log.sends, log.effects, replySent, setup)
    requires a.result == SendResult(setup, a.body, |log.sends|)
    ensures var after := WithSend(log, a, setup);
            SendsKept(after.sends, after.effects, replySent || a.result.Ok?, setup)
  {
    hide SendEffects, SendResult;
    OneMoreSend(log.sends, a, setup);
  }

  /** The log after a tool call, which may have come to a send. */
  function WithRun(log: Log, run: ToolRun, setup: Setup): Log {
    if run.sent.Some? then WithSend(log, run.sent.value, setup) else log
  }

  function Reported(id: string, run: ToolRun): Event {
    if run.result.Err? then ResponseFailed(run.result.error) else CallCompleted(id, run.call.callId, run.call.name)
  }

  /** The send a call came to, if any, met its answer. */
  predicate SendMet(run: ToolRun, n: nat, setup: Setup) {
    run.sent.Some? ==> run.sent.value.result == SendResult(setup, run.sent.value.body, n)
  }

  lemma {:induction false} CallKeepsGoing(left: Left, setup: Setup, ping: seq<SendAttempt>, runs: seq<ToolRun>,
                                          heard: seq<Event>, run: ToolRun, id: string)
    requires Going(left, setup, ping, runs, heard) && AllOk(runs)
    requires Ran(run, left.result.toolCalls, setup.env) && SendMet(run, |left.log.sends|, setup)
    ensures var after := WithRun(left.log, run, setup);
            var told := Emitted(after, Reported(id, run), setup.emitting);
            var counted := if run.result.Err? then left.result
                           else left.result.(toolCalls := left.result.toolCalls + 1);
            var flag := left.replySent || (run.sent.Some? && run.sent.value.result.Ok?);
            Going(Left(told, counted, flag), setup, ping, runs + [run], heard + [Reported(id, run)])
  {
    hide Ran, SendEffects, SendResult, StepsAreFair, SendsKept, EventsOf, SendsOf, OkRunsOf, SendsIn, OkRuns;
    OneMoreRun(runs, run, id);
    AllOkAreCounted(runs);
    assert RunsAreFairFrom(runs + [run], OkRunsOf(left.log.steps), setup.env);
    if run.sent.Some? {
      SendIsKept(left.log, left.replySent, run.sent.value, setup);
    }
  }

  lemma {:induction false} ModelAsksForToolSends(runs: seq<ToolRun>, k: nat, env: Env)
    requires RunsAreFairFrom(runs, k, env)
    ensures forall i :: 0 <= i < |SendsIn(runs)| ==> SendsIn(runs)[i].origin == Tool
  {
    hide ToolRefusal, StoreStatus;
    if runs != [] {
      ModelAsksForToolSends(runs[..|runs| - 1], k, env);
    }
  }

  lemma {:induction false} StepsSendByTool(steps: seq<Step>, env: Env)
    requires RunsAreFair(steps, env)
    ensures forall i :: 0 <= i < |SendsOf(steps)| ==> SendsOf(steps)[i].origin == Tool
  {
    hide Ran;
    if steps != [] {
      var n := |steps| - 1;
      StepsSendByTool(steps[..n], env);
      ModelAsksForToolSends(steps[n].runs, OkRunsOf(steps[..n]), env);
    }
  }

  /** The sends before any automatic reply show which of them was the ping reply. */
  lemma {:induction false} PingIsFirst(steps: seq<Step>, sends: seq<SendAttempt>, setup: Setup, ping: seq<SendAttempt>)
    requires RunsAreFair(steps, setup.env) && PingTried(ping, setup) && ping + SendsOf(steps) <= sends
    requires |sends| > |ping + SendsOf(steps)| ==> sends[|ping + SendsOf(steps)|].origin != Ping
    ensures PingsOf(sends) == ping
  {
    hide EligibleInbound, IsPing, RunsAreFair;
    StepsSendByTool(steps, setup.env);
    var before := ping + SendsOf(steps);
    if ping == [] && SendsOf(steps) != [] {
      assert sends[0] == before[0] == SendsOf(steps)[0];
    } else if ping != [] {
      assert sends[0] == before[0] == ping[0];
    }
  }

  /** A run that ends without an automatic reply. */
  lemma {:induction false} NoReplyInPlace(steps: seq<Step>, setup: Setup, ping: seq<SendAttempt>)
    requires RunsAreFair(steps, setup.env) && PingTried(ping, setup) && steps != []
    requires !AutoReplyDue(steps, ping + SendsOf(steps))
    ensures AskedOrPonged(steps, ping + SendsOf(steps), setup)
    ensures var sends := ping + SendsOf(steps); sends != [] ==> sends[|sends| - 1].origin != Auto
  {
    hide EligibleInbound, IsPing, RunsAreFair, AutoReplyDue;
    var sends := ping + SendsOf(steps);
    StepsSendByTool(steps, setup.env);
    PingIsFirst(steps, sends, setup, ping);
  }

  lemma {:induction false} ReplyInPlace(steps: seq<Step>, setup: Setup, ping: seq<SendAttempt>, a: SendAttempt)
    requires RunsAreFair(steps, setup.env) && PingTried(ping, setup) && AutoReplyDue(steps, ping + SendsOf(steps))
    requires a.origin == Auto && a.body == LatestText(steps) && a.subject == ""
    ensures AskedOrPonged(steps, ping + SendsOf(steps) + [a], setup)
  {
    hide EligibleInbound, IsPing, RunsAreFair, LatestText;
    var sends := ping + SendsOf(steps) + [a];
    PingIsFirst(steps, sends, setup, ping);
  }

  // ---- Ways out ----

  /** A step that is over joins those before it; `tail` has been emitted after its events. */
  lemma {:induction false} StepSettles(left: Left, setup: Setup, ping: seq<SendAttempt>, step: Step, tail: seq<Event>)
    requires Going(left, setup, ping, step.runs, StepEvents(step) + tail)
    requires |left.log.steps| < setup.cfg.maxSteps
    requires left.log.steps != [] ==> Answered(left.log.steps[|left.log.steps| - 1])
    requires step.request == NextRequest(left.log.steps, OpeningOf(setup))
    requires step.reply == setup.env.model(|left.log.steps|)
    requires RunsInOrder(step)
    ensures Going(left.(log := left.log.(steps := left.log.steps + [step])), setup, ping, [], tail)
  {
    hide Ran, SendsKept, StepEvents, StepsAreFair, Answered, RunsInOrder, NextRequest, EventsOf, SendsOf, OkRunsOf,
         LatestText, EntriesOf, EntryOf, TextOf, SendsIn, OkRuns, RunsAreFairFrom;
    StepJoins(left.log.steps, step, OpeningOf(setup), setup.env, setup.cfg.maxSteps);
    OneMoreStep(left.log.steps, step);
    NoRunsYet(OkRunsOf(left.log.steps + [step]), setup.env);
    SendsRegroup(ping, SendsOf(left.log.steps), SendsIn(step.runs));
    EventsRegroup(EventsOf(left.log.steps), StepEvents(step), tail);
  }

  lemma {:induction false} NoRunsYet(k: nat, env: Env)
    ensures SendsIn([]) == [] && OkRuns([]) == 0 && RunsAreFairFrom([], k, env)
  {
  }

  lemma {:induction false} SendsRegroup(a: seq<SendAttempt>, b: seq<SendAttempt>, c: seq<SendAttempt>)
    ensures a + b + c == a + (b + c) + []
  {
  }

  lemma {:induction false} EventsRegroup(a: seq<Event>, b: seq<Event>, c: seq<Event>)
    ensures a + (b + c) == (a + b) + c
  {
  }

  /** The last step shows that the run had to end this way. */
  ghost predicate EndsAs(ending: Ending, steps: seq<Step>, maxSteps: nat) {
    steps != []
    && var last := steps[|steps| - 1];
       match ending
       case ModelFailed(e) => last.reply == Err(e)
       case ToolFailed(e) =>
         && last.reply.Ok? && Calls(last) != [] && last.runs != []
         && last.runs[|last.runs| - 1].result == Err(e)
       case StepsRanOut => |steps| == maxSteps && Answered(last)
       case _ => false
  }

  lemma {:induction false} EndingIsReached(steps: seq<Step>, sends: seq<SendAttempt>, before: seq<SendAttempt>,
                                           setup: Setup, ending: Ending, maxSteps: nat)
    requires EndsAs(ending, steps, maxSteps)
    requires setup.env.list.Ok? && EligibleInbound(setup.env.list.value, setup.req.message)
    ensures EndingOf(steps, sends, setup) == ending && !AutoReplyDue(steps, before)
  {
    hide EligibleInbound, ExtractFunctionCalls, LatestText, SomeSendSucceeded, IsReplyRefused;
  }

  lemma {:induction false} FairWithoutReply(log: Log, setup: Setup, ping: seq<SendAttempt>)
    requires StepsAreFair(log.steps, OpeningOf(setup), setup.env, setup.cfg.maxSteps) && log.steps != []
    requires SendsAreFair(log.sends, setup) && log.effects == EffectsOf(log.sends, setup)
    requires PingTried(ping, setup) && log.sends == ping + SendsOf(log.steps)
    requires !AutoReplyDue(log.steps, log.sends)
    ensures Fair(log.steps, log.sends, log.effects, setup) && PingsOf(log.sends) == ping
    ensures log.sends != [] ==> log.sends[|log.sends| - 1].origin != Auto
  {
    hide StepInPlace, RunsAreFair, AskedOrPonged, EffectsOf, SendsAreFair, AutoReplyDue, EligibleInbound, IsPing;
    NoReplyInPlace(log.steps, setup, ping);
    PingIsFirst(log.steps, log.sends, setup, ping);
  }

  /** A failure the listener hears of. */
  lemma {:induction false} FailureIsJudged(left: Left, setup: Setup, ping: seq<SendAttempt>, trace: seq<TraceEntry>,
                                           ending: Ending)
    requires EndsAs(ending, left.log.steps, setup.cfg.maxSteps) && PingTried(ping, setup)
    requires Going(left, setup, ping, [], [ResponseFailed(ErrorOf(ending).value)])
    requires left.result.outputText == LatestText(left.log.steps)
    requires trace == PingEntries(ping) + EntriesOf(left.log.steps)
    ensures var c := Completion(Failed, ResponseIdOf(ending, left.log.steps), PreviousIdOf(ending, left.log.steps),
                                left.result.outputText,
                                trace, ErrorOf(ending));
            JudgedRun(left.(log := left.log.(completions := [c])), ErrorOf(ending), setup)
  {
    hide EligibleInbound, IsPing, LatestText, EventsOf, EntriesOf, SendsOf, OkRunsOf, StepsAreFair, AskedOrPonged,
         AutoReplyDue, EffectsOf, SendsAreFair, SomeSendSucceeded, EndingOf, PingEntries, PingsOf, EntryOf, LastId,
         LastPreviousId, Answered, Calls;
    assert left.log.sends == ping + SendsOf(left.log.steps);
    EndingIsReached(left.log.steps, left.log.sends, left.log.sends, setup, ending, setup.cfg.maxSteps);
    FairWithoutReply(left.log, setup, ping);
  }

  /** The loop between two steps, as the methods' variables show it. */
  ghost predicate BetweenSteps(left: Left, setup: Setup, ping: seq<SendAttempt>, trace: seq<TraceEntry>)
  {
    && Going(left, setup, ping, [], []) && PingTried(ping, setup)
    && (left.log.steps != [] ==> Answered(left.log.steps[|left.log.steps| - 1]))
    && trace == PingEntries(ping) + EntriesOf(left.log.steps)
    && left.result.outputText == LatestText(left.log.steps)
  }

  /** The request and the reply are those due after the steps so far. */
  ghost predicate IsNext(step: Step, steps: seq<Step>, setup: Setup) {
    step.request == NextRequest(steps, OpeningOf(setup)) && step.reply == setup.env.model(|steps|)
  }

  function Emitted(log: Log, e: Event, emitting: bool): Log {
    log.(events := if emitting then log.events + [e] else log.events)
  }

  /** Calls made for a response: in its order, all of them or up to the first that failed. */
  ghost predicate Made(runs: seq<ToolRun>, calls: seq<FunctionCall>, failure: Option<Error>) {
    && |runs| <= |calls| && (failure.None? ==> |runs| == |calls| && AllOk(runs))
    && (failure.Some? ==> runs != [] && runs[|runs| - 1].result == Err(failure.value))
    && forall i :: 0 <= i < |runs| ==> runs[i].call == calls[i] && (i < |runs| - 1 ==> runs[i].result.Ok?)
  }

  lemma {:induction false} RunsChangeNoReply(step: Step, runs: seq<ToolRun>)
    requires step.reply.Ok? && step.runs == []
    ensures var ran := step.(runs := runs);
            && Calls(ran) == Calls(step) && TextOf(ran) == TextOf(step)
            && StepEvents(ran) == StepEvents(step) + RunEvents(step.reply.value.id, runs)
  {
    hide ExtractFunctionCalls, ExtractAssistantText;
    assert RunEvents(step.reply.value.id, []) == [];
  }

  lemma {:induction false} MadeRunsAreInPlace(steps: seq<Step>, step: Step, runs: seq<ToolRun>, failure: Option<Error>)
    requires step.reply.Ok? && step.runs == [] && Calls(step) != [] && Made(runs, Calls(step), failure)
    ensures var ran := step.(runs := runs);
            && RunsInOrder(ran) && (failure.None? ==> Answered(ran))
            && StepEvents(ran) == StepEvents(step) + RunEvents(step.reply.value.id, runs)
            && LatestText(steps + [ran]) == LatestText(steps + [step])
  {
    hide Calls, TextOf, LatestText, StepEvents;
    var ran := step.(runs := runs);
    RunsChangeNoReply(step, runs);
    OneMoreStep(steps, step);
    OneMoreStep(steps, ran);
  }

  lemma {:induction false} AnsweredStepIsReady(left: Left, setup: Setup, ping: seq<SendAttempt>, trace: seq<TraceEntry>,
                                               step: Step)
    requires Going(left, setup, ping, step.runs, StepEvents(step))
    requires PingTried(ping, setup) && (left.log.steps != [] ==> Answered(left.log.steps[|left.log.steps| - 1]))
    requires trace == PingEntries(ping) + EntriesOf(left.log.steps)
    requires left.result.outputText == LatestText(left.log.steps + [step])
    requires |left.log.steps| < setup.cfg.maxSteps && IsNext(step, left.log.steps, setup)
    requires RunsInOrder(step) && Answered(step)
    ensures BetweenSteps(left.(log := left.log.(steps := left.log.steps + [step])), setup, ping,
                         trace + [EntryOf(|left.log.steps| + 1, step)])
    ensures NextRequest(left.log.steps + [step], OpeningOf(setup)) ==
            ModelRequest(Answers(OutputsOf(step.runs)), if step.reply.Ok? then step.reply.value.id else "")
  {
    hide Going, StepEvents, EntriesOf, EntryOf, LatestText, Answered, RunsInOrder, PingTried, PingEntries, OutputsOf,
         TextOf;
    assert StepEvents(step) + [] == StepEvents(step);
    StepSettles(left, setup, ping, step, []);
    OneMoreStep(left.log.steps, step);
  }

  lemma {:induction false} CallFailureIsJudged(left: Left, setup: Setup, ping: seq<SendAttempt>, trace: seq<TraceEntry>,
                                               step: Step)
    requires BetweenSteps(left, setup, ping, trace) && |left.log.steps| < setup.cfg.maxSteps
    requires IsNext(step, left.log.steps, setup) && step.reply.Err? && step.runs == []
    ensures var c := Completion(Failed, "", step.request.previousId, left.result.outputText,
                                trace + [EntryOf(|left.log.steps| + 1, step)], Some(step.reply.error));
            var told := Emitted(left.log, ResponseFailed(step.reply.error), setup.emitting);
            JudgedRun(left.(log := told.(steps := left.log.steps + [step], completions := [c])),
                      Some(step.reply.error), setup)
  {
    hide StepsAreFair, SendsKept, EventsOf, SendsOf, OkRunsOf, EntriesOf, EntryOf, LatestText, Answered, NextRequest,
         JudgedRun, PingEntries, EligibleInbound, IsPing;
    var error := step.reply.error;
    var emitted := Emitted(left.log, ResponseFailed(error), setup.emitting);
    assert StepEvents(step) + [ResponseFailed(error)] == [ResponseFailed(error)];
    StepSettles(left.(log := emitted), setup, ping, step, [ResponseFailed(error)]);
    OneMoreStep(left.log.steps, step);
    var longer := emitted.(steps := left.log.steps + [step]);
    FailureIsJudged(left.(log := longer), setup, ping, trace + [EntryOf(|left.log.steps| + 1, step)],
                    ModelFailed(error));
  }

  lemma {:induction false} ToolFailureIsJudged(left: Left, setup: Setup, ping: seq<SendAttempt>, trace: seq<TraceEntry>,
                                               step: Step, error: Error)
    requires Going(left, setup, ping, step.runs, StepEvents(step) + [ResponseFailed(error)])
    requires PingTried(ping, setup) && (left.log.steps != [] ==> Answered(left.log.steps[|left.log.steps| - 1]))
    requires trace == PingEntries(ping) + EntriesOf(left.log.steps)
    requires left.result.outputText == LatestText(left.log.steps + [step])
    requires |left.log.steps| < setup.cfg.maxSteps && IsNext(step, left.log.steps, setup)
    requires step.reply.Ok? && RunsInOrder(step)
    requires step.runs != [] && step.runs[|step.runs| - 1].result == Err(error)
    ensures var c := Completion(Failed, step.reply.value.id, step.request.previousId, left.result.outputText,
                                trace + [EntryOf(|left.log.steps| + 1, step)], Some(error));
            JudgedRun(left.(log := left.log.(steps := left.log.steps + [step], completions := [c])), Some(error), setup)
  {
    hide Going, StepEvents, EventsOf, SendsOf, OkRunsOf, EntriesOf, EntryOf, LatestText, Answered, NextRequest,
         JudgedRun, PingEntries, PingTried, ExtractFunctionCalls, TextOf, SendsIn, OkRuns;
    StepSettles(left, setup, ping, step, [ResponseFailed(error)]);
    OneMoreStep(left.log.steps, step);
    var longer := left.log.(steps := left.log.steps + [step]);
    FailureIsJudged(left.(log := longer), setup, ping, trace + [EntryOf(|left.log.steps| + 1, step)],
                    ToolFailed(error));
  }

  lemma {:induction false} StepsRunOutIsJudged(left: Left, setup: Setup, ping: seq<SendAttempt>, trace: seq<TraceEntry>)
    requires BetweenSteps(left, setup, ping, trace)
    requires |left.log.steps| == setup.cfg.maxSteps > 0
    ensures var c := Completion(Failed, "", LastId(left.log.steps), left.result.outputText, trace, Some(STEPS_ERROR));
            var told := Emitted(left.log, ResponseFailed(STEPS_ERROR), setup.emitting);
            JudgedRun(left.(log := told.(completions := [c])), Some(STEPS_ERROR), setup)
  {
    hide StepsAreFair, SendsKept, EventsOf, SendsOf, OkRunsOf, EntriesOf, LatestText, Answered, JudgedRun, PingEntries,
         EligibleInbound, IsPing, LastId;
    var emitted := Emitted(left.log, ResponseFailed(STEPS_ERROR), setup.emitting);
    FailureIsJudged(left.(log := emitted), setup, ping, trace, StepsRanOut);
  }

  // ---- The last response ----

  /** The last response asks for nothing more. */
  ghost predicate AtRest(steps: seq<Step>) {
    steps != [] && steps[|steps| - 1].reply.Ok? && Calls(steps[|steps| - 1]) == []
  }

  /** How the run ends then, `reply` being the automatic reply if there was one. */
  function ConclusionOf(reply: Option<SendAttempt>, unavailable: Error -> bool): Ending {
    if reply.Some? && reply.value.result.Err? && !unavailable(reply.value.result.error) then
      ReplyRefused(reply.value.result.error)
    else Concluded
  }

  /** The automatic reply has been tried just when it was due. */
  ghost predicate Replied(steps: seq<Step>, before: seq<SendAttempt>, reply: Option<SendAttempt>) {
    && (reply.Some? <==> AutoReplyDue(steps, before))
    && (reply.Some? ==>
          reply.value.origin == Auto && reply.value.body == LatestText(steps) && reply.value.subject == "")
  }

  function WithReply(log: Log, reply: Option<SendAttempt>, setup: Setup): Log {
    if reply.Some? then WithSend(log, reply.value, setup) else log
  }

  lemma {:induction false} FairWithReply(log: Log, setup: Setup, ping: seq<SendAttempt>, reply: Option<SendAttempt>)
    requires StepsAreFair(log.steps, OpeningOf(setup), setup.env, setup.cfg.maxSteps) && log.steps != []
    requires SendsAreFair(log.sends, setup) && log.effects == EffectsOf(log.sends, setup)
    requires PingTried(ping, setup) && log.sends == ping + SendsOf(log.steps)
    requires Replied(log.steps, log.sends, reply)
    requires reply.Some? ==> reply.value.result == SendResult(setup, reply.value.body, |log.sends|)
    ensures var after := WithReply(log, reply, setup);
            && Fair(after.steps, after.sends, after.effects, setup) && PingsOf(after.sends) == ping
            && (reply.None? && after.sends != [] ==> after.sends[|after.sends| - 1].origin != Auto)
  {
    hide StepInPlace, RunsAreFair, AskedOrPonged, EffectsOf, SendsAreFair, AutoReplyDue, EligibleInbound, IsPing,
         SendEffects, SendResult, LatestText;
    if reply.None? {
      FairWithoutReply(log, setup, ping);
    } else {
      OneMoreSend(log.sends, reply.value, setup);
      ReplyInPlace(log.steps, setup, ping, reply.value);
      PingIsFirst(log.steps, log.sends + [reply.value], setup, ping);
    }
  }

  lemma {:induction false} ConclusionIsReached(steps: seq<Step>, before: seq<SendAttempt>, sends: seq<SendAttempt>,
                                               setup: Setup, reply: Option<SendAttempt>)
    requires AtRest(steps) && setup.env.list.Ok? && EligibleInbound(setup.env.list.value, setup.req.message)
    requires sends == before + (if reply.Some? then [reply.value] else [])
    requires reply.Some? ==> reply.value.origin == Auto
    requires reply.None? && sends != [] ==> sends[|sends| - 1].origin != Auto
    ensures EndingOf(steps, sends, setup) == ConclusionOf(reply, setup.env.unavailable)
  {
    hide EligibleInbound, Calls;
  }

  /** The trace of a run that came to rest: the automatic reply's failure stands before the last step. */
  function RestTrace(reply: Option<SendAttempt>, unavailable: Error -> bool, ping: seq<SendAttempt>,
                     steps: seq<Step>): seq<TraceEntry>
    requires steps != []
  {
    var n := |steps| - 1;
    PingEntries(ping) + EntriesOf(steps[..n])
    + (if reply.None? || reply.value.result.Ok? then []
       else if unavailable(reply.value.result.error) then [AutoSendSkipped(reply.value.result.error)]
       else [AutoSendFailed(reply.value.result.error)])
    + (if ConclusionOf(reply, unavailable).Concluded? then [EntryOf(n + 1, steps[n])] else [])
  }

  lemma {:induction false} RestIsTraced(steps: seq<Step>, before: seq<SendAttempt>, sends: seq<SendAttempt>,
                                        ping: seq<SendAttempt>, reply: Option<SendAttempt>, unavailable: Error -> bool)
    requires steps != [] && PingsOf(sends) == ping
    requires sends == before + (if reply.Some? then [reply.value] else [])
    requires reply.Some? ==> reply.value.origin == Auto
    requires reply.None? && sends != [] ==> sends[|sends| - 1].origin != Auto
    ensures TraceOf(ConclusionOf(reply, unavailable), steps, sends) == RestTrace(reply, unavailable, ping, steps)
  {
    hide PingEntries, EntryOf, PingsOf;
    var n := |steps| - 1;
    assert EntriesOf(steps) == EntriesOf(steps[..n]) + [EntryOf(n + 1, steps[n])];
  }

  /** What the state between two steps says, field by field. */
  lemma {:induction false} BetweenCallsSays(left: Left, setup: Setup, ping: seq<SendAttempt>)
    requires Going(left, setup, ping, [], [])
    ensures StepsAreFair(left.log.steps, OpeningOf(setup), setup.env, setup.cfg.maxSteps)
    ensures SendsAreFair(left.log.sends, setup) && left.log.effects == EffectsOf(left.log.sends, setup)
    ensures left.log.sends == ping + SendsOf(left.log.steps) && left.log.completions == []
    ensures left.log.events == if setup.emitting then EventsOf(left.log.steps) else []
    ensures left.result == EMPTY_RESULT.(outputText := left.result.outputText, toolCalls := OkRunsOf(left.log.steps))
    ensures left.replySent <==> SomeSendSucceeded(left.log.sends)
  {
    hide StepsAreFair, SendsAreFair, EffectsOf, EventsOf, SendsOf, OkRunsOf, SomeSendSucceeded, OpeningOf;
    NoRunsYet(0, setup.env);
  }

  /** What such an ending calls for. */
  lemma {:induction false} ConclusionCallsFor(ending: Ending, steps: seq<Step>, sends: seq<SendAttempt>)
    requires AtRest(steps) && (ending.Concluded? || ending.ReplyRefused?)
    ensures var last := steps[|steps| - 1];
            && CompletionOf(ending, steps, sends) ==
               Completion(StatusOf(ending), last.reply.value.id, last.request.previousId, LatestText(steps),
                          TraceOf(ending, steps, sends), ErrorOf(ending))
            && EventsUpTo(ending, steps) ==
               EventsOf(steps) + (if ending.Concluded? then [ResponseCompleted(last.reply.value.id, LatestText(steps))]
                                  else [])
            && ResultOf(ending, steps) ==
               ProcessResult(ending.Concluded?, false, if ending.Concluded? then last.reply.value.id else "",
                             LatestText(steps), OkRunsOf(steps), ending.Concluded?)
  {
    hide LatestText, EventsOf, TraceOf, OkRunsOf, Calls;
  }

  lemma {:induction false} ConclusionIsJudged(left: Left, setup: Setup, ping: seq<SendAttempt>,
                                              reply: Option<SendAttempt>)
    requires AtRest(left.log.steps) && PingTried(ping, setup)
    requires Going(left, setup, ping, [], [])
    requires left.result.outputText == LatestText(left.log.steps)
    requires Replied(left.log.steps, left.log.sends, reply)
    requires reply.Some? ==> reply.value.result == SendResult(setup, reply.value.body, |left.log.sends|)
    ensures var last, ending := left.log.steps[|left.log.steps| - 1], ConclusionOf(reply, setup.env.unavailable);
            var c := Completion(StatusOf(ending), last.reply.value.id, last.request.previousId, left.result.outputText,
                                RestTrace(reply, setup.env.unavailable, ping, left.log.steps), ErrorOf(ending));
            var events := if setup.emitting && ending.Concluded?
                          then left.log.events + [ResponseCompleted(last.reply.value.id, left.result.outputText)]
                          else left.log.events;
            var result := if ending.Concluded? then
                            left.result.(enabled := true, completed := true, responseId := last.reply.value.id)
                          else left.result;
            JudgedRun(Left(WithReply(left.log, reply, setup).(events := events, completions := [c]), result,
                           left.replySent || (reply.Some? && reply.value.result.Ok?)),
                      ErrorOf(ending), setup)
  {
    hide EligibleInbound, IsPing, LatestText, EventsOf, EntriesOf, SendsOf, OkRunsOf, StepsAreFair, AskedOrPonged,
         AutoReplyDue, EffectsOf, SendsAreFair, SomeSendSucceeded, EndingOf, PingEntries, PingsOf, EntryOf, TraceOf,
         RestTrace, Calls, SendEffects, SendResult, Fair, Going, OpeningOf, CompletionOf, EventsUpTo, ResultOf;
    var after := WithReply(left.log, reply, setup);
    ConclusionCallsFor(ConclusionOf(reply, setup.env.unavailable), left.log.steps, after.sends);
    BetweenCallsSays(left, setup, ping);
    FairWithReply(left.log, setup, ping, reply);
    ConclusionIsReached(left.log.steps, left.log.sends, after.sends, setup, reply);
    RestIsTraced(left.log.steps, left.log.sends, after.sends, ping, reply, setup.env.unavailable);
    if reply.Some? {
      OneMoreSend(left.log.sends, reply.value, setup);
    }
  }

  lemma {:induction false} DueIffTried(steps: seq<Step>, before: seq<SendAttempt>, reply: Option<SendAttempt>,
                                       text: string)
    requires AtRest(steps) && text == LatestText(steps)
    requires reply.Some? <==> text != "" && !SomeSendSucceeded(before)
    requires reply.Some? ==> reply.value.origin == Auto && reply.value.body == text && reply.value.subject == ""
    ensures Replied(steps, before, reply)
  {
    hide Calls, LatestText, SomeSendSucceeded;
  }

  /** What the automatic reply leaves in the trace. */
  function ReplyEntries(reply: Option<SendAttempt>, unavailable: Error -> bool): seq<TraceEntry> {
    if reply.None? || reply.value.result.Ok? then []
    else if unavailable(reply.value.result.error) then [AutoSendSkipped(reply.value.result.error)]
    else [AutoSendFailed(reply.value.result.error)]
  }

  lemma {:induction false} RestTraceGrows(reply: Option<SendAttempt>, unavailable: Error -> bool,
                                          ping: seq<SendAttempt>, steps: seq<Step>, trace: seq<TraceEntry>)
    requires steps != [] && steps[|steps| - 1].reply.Ok? && steps[|steps| - 1].runs == []
    requires trace == PingEntries(ping) + EntriesOf(steps[..|steps| - 1])
    ensures var n := |steps| - 1;
            RestTrace(reply, unavailable, ping, steps) ==
            if ErrorOf(ConclusionOf(reply, unavailable)).Some? then trace + ReplyEntries(reply, unavailable)
            else trace + ReplyEntries(reply, unavailable) +
                 [StepDone(n + 1, steps[n].reply.value.id, steps[n].request.previousId, [])]
  {
    hide PingEntries, EntriesOf;
    assert TraceCallsOf([]) == [];
  }

  lemma {:induction false} ReplyAddsNoEvent(log: Log, reply: Option<SendAttempt>, setup: Setup)
    ensures WithReply(log, reply, setup).events == log.events
  {
    hide SendEffects;
  }

  /** The verdict on a run whose last response asks for nothing more, as its variables then stand. */
  lemma {:induction false} RestIsJudged(left: Left, setup: Setup, ping: seq<SendAttempt>, trace: seq<TraceEntry>,
                                        step: Step, reply: Option<SendAttempt>)
    requires Going(left, setup, ping, [], []) && PingTried(ping, setup)
    requires left.log.steps != [] && left.log.steps[|left.log.steps| - 1] == step
    requires step.reply.Ok? && step.runs == [] && Calls(step) == []
    requires trace == PingEntries(ping) + EntriesOf(left.log.steps[..|left.log.steps| - 1]) &&
             left.result.outputText == LatestText(left.log.steps)
    requires reply.Some? <==> left.result.outputText != "" && !SomeSendSucceeded(left.log.sends)
    requires reply.Some? ==>
               && reply.value.origin == Auto && reply.value.body == left.result.outputText && reply.value.subject == ""
               && reply.value.result == SendResult(setup, left.result.outputText, |left.log.sends|)
    ensures var after := WithReply(left.log, reply, setup);
            var flag := left.replySent || (reply.Some? && reply.value.result.Ok?);
            var id, previousId, text := step.reply.value.id, step.request.previousId, left.result.outputText;
            var failure := ErrorOf(ConclusionOf(reply, setup.env.unavailable));
            var noted := trace + ReplyEntries(reply, setup.env.unavailable);
            if failure.Some? then
              var c := Completion(Failed, id, previousId, text, noted, failure);
              JudgedRun(left.(log := after.(completions := [c]), replySent := flag), failure, setup)
            else
              var entries := noted + [StepDone(|left.log.steps|, id, previousId, [])];
              var c := Completion(Completed, id, previousId, text, entries, None);
              var told := Emitted(after, ResponseCompleted(id, text), setup.emitting).(completions := [c]);
              var result := left.result.(enabled := true, completed := true, responseId := id);
              JudgedRun(Left(told, result, flag), None, setup)
  {
    hide Going, JudgedRun, PingTried, EntriesOf, LatestText, Calls, AutoReplyDue, SomeSendSucceeded, RestTrace,
         SendResult, PingEntries, SendEffects, ReplyEntries, WithReply;
    ReplyAddsNoEvent(left.log, reply, setup);
    DueIffTried(left.log.steps, left.log.sends, reply, left.result.outputText);
    ConclusionIsJudged(left, setup, ping, reply);
    RestTraceGrows(reply, setup.env.unavailable, ping, left.log.steps, trace);
  }

  // ---- Runs that never ask the model ----

  lemma {:induction false} NothingDoneIsFair(setup: Setup)
    requires setup.env.list.Err? || !EligibleInbound(setup.env.list.value, setup.req.message)
    ensures Fair([], [], [], setup)
  {
    hide EligibleInbound;
  }

  lemma {:induction false} UnansweredIsJudged(setup: Setup)
    requires setup.env.list.Err? || !EligibleInbound(setup.env.list.value, setup.req.message)
    ensures var c := if setup.env.list.Err? then Completion(Failed, "", "", "", [], Some(setup.env.list.error))
                     else Completion(Skipped, "", "", "", [EligibilitySkip], None);
            JudgedRun(Left(EMPTY_LOG.(completions := [c]), EMPTY_RESULT.(enabled := setup.env.list.Ok?), false),
                      c.error, setup)
  {
    hide EligibleInbound, Fair;
    NothingDoneIsFair(setup);
    assert LatestText([]) == "" && EventsOf([]) == [] && EntriesOf([]) == [] && OkRunsOf([]) == 0;
    var ending := EndingOf([], [], setup);
    assert ending == if setup.env.list.Err? then ListFailed(setup.env.list.error) else Ineligible;
    assert TraceOf(ending, [], []) == if setup.env.list.Err? then [] else [EligibilitySkip];
    assert EventsUpTo(ending, []) == [];
  }

  /** A ping reply that went out is the whole run. */
  lemma {:induction false} PongIsJudged(setup: Setup, a: SendAttempt)
    requires setup.env.list.Ok? && EligibleInbound(setup.env.list.value, setup.req.message)
    requires IsPing(setup.env.list.value, setup.req.message)
    requires a.origin == Ping && a.body == "pong" && a.subject == "" && a.result.Ok?
    requires a.result == SendResult(setup, a.body, 0)
    ensures var c := Completion(Completed, PING_RESPONSE, "", "pong", [PingPong(None)], None);
            var events := if setup.emitting then
                            [TextDelta(PING_RESPONSE, "pong"), ResponseCompleted(PING_RESPONSE, "pong")]
                          else [];
            JudgedRun(Left(WithSend(EMPTY_LOG, a, setup).(events := events, completions := [c]),
                           ProcessResult(true, false, PING_RESPONSE, "pong", 0, true), true),
                      None, setup)
  {
    hide EligibleInbound, IsPing, SendResult, SendEffects;
    OneMoreSend([], a, setup);
    assert [] + [a] == [a];
    assert PingsOf([a]) == [a];
    assert AskedOrPonged([], [a], setup);
    assert OkRunsOf([]) == 0 && EntriesOf([]) == [] && EffectsOf([], setup) == [];
    assert EndingOf([], [a], setup) == Ponged;
    assert TraceOf(Ponged, [], [a]) == [PingPong(None)];
    assert EventsUpTo(Ponged, []) == [TextDelta(PING_RESPONSE, "pong"), ResponseCompleted(PING_RESPONSE, "pong")];
    var effects := EMPTY_LOG.effects + SendEffects(setup, a.body, a.subject, 0);
    assert Fair([], [a], effects, setup);
    assert SomeSendSucceeded([a]);
  }

  // ---- Before the first step ----

  lemma {:induction false} NoPingIsReady(setup: Setup)
    requires setup.env.list.Ok? && EligibleInbound(setup.env.list.value, setup.req.message)
    requires !IsPing(setup.env.list.value, setup.req.message)
    ensures BetweenSteps(Left(EMPTY_LOG, EMPTY_RESULT, false), setup, [], [])
  {
    hide EligibleInbound, IsPing;
    assert LatestText([]) == "" && EventsOf([]) == [] && EntriesOf([]) == [] && OkRunsOf([]) == 0 && SendsOf([]) == [];
    assert StepsAreFair([], OpeningOf(setup), setup.env, setup.cfg.maxSteps) && SendsKept([], [], false, setup);
  }

  lemma {:induction false} FailedPingIsReady(setup: Setup, a: SendAttempt)
    requires setup.env.list.Ok? && EligibleInbound(setup.env.list.value, setup.req.message)
    requires IsPing(setup.env.list.value, setup.req.message)
    requires a.origin == Ping && a.body == "pong" && a.subject == "" && a.result.Err?
    requires a.result == SendResult(setup, a.body, 0)
    ensures BetweenSteps(Left(WithSend(EMPTY_LOG, a, setup), EMPTY_RESULT, false), setup, [a],
                         [PingPong(Some(a.result.error))])
  {
    hide EligibleInbound, IsPing, SendResult, SendEffects;
    assert SendsKept([], [], false, setup);
    SendIsKept(EMPTY_LOG, false, a, setup);
    assert [] + [a] == [a] && [a] + [] + [] == [a];
    assert LatestText([]) == "" && EventsOf([]) == [] && EntriesOf([]) == [] && OkRunsOf([]) == 0 && SendsOf([]) == [];
    assert StepsAreFair([], OpeningOf(setup), setup.env, setup.cfg.maxSteps);
  }
}
