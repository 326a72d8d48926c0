/** ProcessSync step by step, as methods on the variables its lock body shares. */
module AgentService {
  import opened Text
  import opened Model
  import opened AgentRun
  import opened AgentVerdict
  import opened AgentStory
  import AgentTheorems

  class Run {
    const setup: Setup

    var result: ProcessResult
    var trace: seq<TraceEntry>
    var replySent: bool
    var log: Log

    constructor (setup: Setup)
      ensures this.setup == setup && Untouched()
    {
      this.setup := setup;
      result, trace, replySent, log := EMPTY_RESULT, [], false, EMPTY_LOG;
    }

    ghost predicate Untouched()
      reads this
    {
      result == EMPTY_RESULT && trace == [] && !replySent && log == EMPTY_LOG
    }

    /** The state within a step: `runs` are its calls so far, `heard` what has been emitted for it. */
    ghost predicate Now(ping: seq<SendAttempt>, runs: seq<ToolRun>, heard: seq<Event>)
      reads this
    {
      Going(Left(log, result, replySent), setup, ping, runs, heard)
    }

    /** The state between two steps, all of which asked for tool calls that succeeded. */
    ghost predicate Ready(ping: seq<SendAttempt>)
      reads this
    {
      BetweenSteps(Left(log, result, replySent), setup, ping, trace)
    }

    ghost predicate Judged(err: Option<Error>)
      reads this
    {
      JudgedRun(Left(log, result, replySent), err, setup)
    }

    // ---- Small steps ----

    method Emit(e: Event)
      modifies `log
      ensures log == old(log).(events := if setup.emitting then old(log).events + [e] else old(log).events)
    {
      if setup.emitting {
        log := log.(events := log.events + [e]);
      }
    }

    /** The write itself may fail; that is only logged. */
    method CompleteRun(status: RunStatus, responseId: string, previousId: string, outputText: string,
                       error: Option<Error>)
      modifies `log
      ensures var c := Completion(status, responseId, previousId, outputText, trace, error);
              && log == old(log).(completions := old(log).completions + [c])
              && (old(log).completions == [] ==> log.completions == [c])
    {
      var c := Completion(status, responseId, previousId, outputText, trace, error);
      log := log.(completions := log.completions + [c]);
    }

    // ---- Sends ----

    /** Sends on the request's channel. SMS and mail go out before they are recorded, so a send that fails
        at its recording has reached its recipient. */
    method ToolSend(origin: Origin, body: string, subject: string) returns (r: Result<ToolStatus, Error>)
      modifies `log
      ensures r == SendResult(setup, body, |old(log).sends|)
      ensures log == WithSend(old(log), SendAttempt(origin, body, subject, r), setup)
      ensures r.Ok? ==> ToolSendSucceeded(r.value)
    {
      hide GuardOutboundBody, TrimSpace, Blank;
      var guarded := GuardOutboundBody(body, setup.cfg.maxReplyChars);
      var done: seq<Effect> := [];
      if guarded.Err? {
        r := Err(Error("body_text is required"));
      } else {
        var text := guarded.value;
        var e := setup.env.send(|log.sends|);
        if setup.req.channel == TWILIO_SMS {
          r, done := SendSms(text, e);
        } else if setup.req.channel == TWILIO_MAIL {
          r, done := SendMail(text, subject, e);
        } else if setup.req.channel == DISCORD {
          r, done := SendDiscord(text, e);
        } else if setup.req.channel == WEB {
          r, done := StoreForWeb(text, e);
        } else {
          r := Err(Error("unsupported source_channel: " + setup.req.channel));
        }
      }
      log := log.(sends := log.sends + [SendAttempt(origin, body, subject, r)], effects := log.effects + done);
    }

    /** Succeeds just when there is a route, a sender, an accepting provider and a record; the message is out
        once the first three are there. */
    method SendSms(text: seq<Byte>, e: SendEnv) returns (r: Result<ToolStatus, Error>, done: seq<Effect>)
      ensures r.Ok? <==> e.route.Ok? && setup.cfg.hasTwilio && e.sms.Ok? && e.record.None?
      ensures r.Ok? ==> r.value == Sent
      ensures r.Err? ==>
                var twilio := Unless(setup.cfg.hasTwilio, "twilio sender is unavailable");
                Some(r.error) == Or(Failure(e.route), Or(twilio, Or(Failure(e.sms), e.record)))
      ensures var out := e.route.Ok? && setup.cfg.hasTwilio && e.sms.Ok?;
              done == (if out then [SmsSent(TrimSpace(e.route.value), text)] else [])
                      + (if r.Ok? then [Recorded(setup.req.conversation, TWILIO_SMS, text, Some(e.sms.value))] else [])
    {
      done := [];
      if e.route.Err? {
        return Err(e.route.error), done;
      }
      if !setup.cfg.hasTwilio {
        return Err(Error("twilio sender is unavailable")), done;
      }
      if e.sms.Err? {
        return Err(e.sms.error), done;
      }
      done := [SmsSent(TrimSpace(e.route.value), text)];
      if e.record.Some? {
        return Err(e.record.value), done;
      }
      done := done + [Recorded(setup.req.conversation, TWILIO_SMS, text, Some(e.sms.value))];
      return Ok(Sent), done;
    }

    method SendMail(text: seq<Byte>, subject: string, e: SendEnv)
      returns (r: Result<ToolStatus, Error>, done: seq<Effect>)
      ensures r.Ok? <==> e.route.Ok? && setup.cfg.hasTwilio && e.email.None? && e.record.None?
      ensures r.Ok? ==> r.value == Sent
      ensures r.Err? ==>
                var twilio := Unless(setup.cfg.hasTwilio, "twilio sender is unavailable");
                Some(r.error) == Or(Failure(e.route), Or(twilio, Or(e.email, e.record)))
      ensures var out := e.route.Ok? && setup.cfg.hasTwilio && e.email.None?;
              done == (if out then [EmailSent(TrimSpace(e.route.value), SubjectOf(subject), text)] else [])
                      + (if r.Ok? then [Recorded(setup.req.conversation, TWILIO_MAIL, text, None)] else [])
    {
      done := [];
      if e.route.Err? {
        return Err(e.route.error), done;
      }
      if !setup.cfg.hasTwilio {
        return Err(Error("twilio sender is unavailable")), done;
      }
      var line := TrimSpace(subject);
      if line == "" {
        line := "Re: message";
      }
      if e.email.Some? {
        return Err(e.email.value), done;
      }
      done := [EmailSent(TrimSpace(e.route.value), line, text)];
      if e.record.Some? {
        return Err(e.record.value), done;
      }
      done := done + [Recorded(setup.req.conversation, TWILIO_MAIL, text, None)];
      return Ok(Sent), done;
    }

    method SendDiscord(text: seq<Byte>, e: SendEnv) returns (r: Result<ToolStatus, Error>, done: seq<Effect>)
      ensures r.Ok? <==> setup.cfg.hasDiscord && e.enqueue.None?
      ensures r.Ok? ==> r.value == Queued
      ensures r.Err? ==> Some(r.error) == Or(Unless(setup.cfg.hasDiscord, "discord runtime is unavailable"), e.enqueue)
      ensures done == if r.Ok? then [Enqueued(setup.req.conversation, text)] else []
    {
      if !setup.cfg.hasDiscord {
        return Err(Error("discord runtime is unavailable")), [];
      }
      if e.enqueue.Some? {
        return Err(e.enqueue.value), [];
      }
      return Ok(Queued), [Enqueued(setup.req.conversation, text)];
    }

    method StoreForWeb(text: seq<Byte>, e: SendEnv) returns (r: Result<ToolStatus, Error>, done: seq<Effect>)
      ensures r.Ok? <==> e.record.None?
      ensures r.Ok? ==> r.value == Stored
      ensures r.Err? ==> Some(r.error) == e.record
      ensures done == if r.Ok? then [Recorded(setup.req.conversation, WEB, text, None)] else []
    {
      if e.record.Some? {
        return Err(e.record.value), [];
      }
      return Ok(Stored), [Recorded(setup.req.conversation, WEB, text, None)];
    }

    // ---- Tools ----

    /** k numbers the tool calls of the run. A send on an absent provider is not an error but a skipped send. */
    method ExecuteTool(call: FunctionCall, k: nat) returns (run: ToolRun)
      modifies `log
      ensures run.call == call && Ran(run, k, setup.env)
      ensures run.result.Ok? && call.name == "send" && ToolSendSucceeded(run.result.value) <==>
                run.sent.Some? && run.sent.value.result.Ok?
      ensures call.name !in {"send", "update_memory", "create_issue"} || call.arguments.Undecodable? ==> run.result.Err?
      ensures run.sent.None? ==> log == old(log)
      ensures run.sent.Some? ==>
                var a := run.sent.value;
                && a.result == SendResult(setup, a.body, |old(log).sends|)
                && log == WithSend(old(log), a, setup)
    {
      if call.name == "send" {
        if !call.arguments.ForSend? {
          return ToolRun(call, None, Err(Error("invalid send args")));
        }
        var r := ToolSend(Tool, call.arguments.body, call.arguments.subject);
        var sent := SendAttempt(Tool, call.arguments.body, call.arguments.subject, r);
        if r.Err? && setup.env.unavailable(r.error) {
          r := Ok(Unavailable);
        }
        return ToolRun(call, Some(sent), r);
      }
      if call.name == "update_memory" {
        if !call.arguments.ForMemory? {
          return ToolRun(call, None, Err(Error("invalid update_memory args")));
        }
        var r := UpdateMemory(call.arguments.user, call.arguments.blob, k);
        return ToolRun(call, None, r);
      }
      if call.name == "create_issue" {
        if !call.arguments.ForIssue? {
          return ToolRun(call, None, Err(Error("invalid create_issue args")));
        }
        var r := CreateIssue(call.arguments, k);
        return ToolRun(call, None, r);
      }
      return ToolRun(call, None, Err(Error("unknown function: " + call.name)));
    }

    method UpdateMemory(user: Option<Uuid>, blob: string, k: nat) returns (r: Result<ToolStatus, Error>)
      ensures r.Ok? <==> user.Some? && user.value != NIL && !Blank(blob) && setup.env.memory(k).None?
      ensures r.Ok? ==> r.value == Updated
      ensures r.Err? ==> Some(r.error) == MemoryRefusal(user, blob, setup.env.memory(k))
    {
      if user.None? {
        return Err(Error("invalid user_id"));
      }
      if user.value == NIL {
        return Err(Error("user_id required"));
      }
      if Blank(blob) {
        return Err(Error("memory_blob required"));
      }
      var failure := setup.env.memory(k);
      return if failure.Some? then Err(failure.value) else Ok(Updated);
    }

    method CreateIssue(args: Arguments, k: nat) returns (r: Result<ToolStatus, Error>)
      requires args.ForIssue?
      ensures r.Ok? <==> !Blank(args.issueType) && !Blank(args.title) && !Blank(args.text) && setup.env.issue(k).Ok?
      ensures r.Ok? ==> r.value == if setup.env.issue(k).value then IssueCreated else IssueUpdated
      ensures r.Err? ==> Some(r.error) == IssueRefusal(args.issueType, args.title, args.text, setup.env.issue(k))
    {
      if Blank(args.issueType) || Blank(args.title) || Blank(args.text) {
        return Err(Error("issue_type, title, and body are required"));
      }
      var stored := setup.env.issue(k);
      return if stored.Err? then Err(stored.error) else Ok(if stored.value then IssueCreated else IssueUpdated);
    }

    // ---- The step loop ----

    /** One function call of a response: a success is counted and reported, a failure reported as the end. */
    method RunCall(id: string, call: FunctionCall, ghost ping: seq<SendAttempt>, ghost runs: seq<ToolRun>,
                   ghost heard: seq<Event>)
      returns (run: ToolRun)
      requires Now(ping, runs, heard) && AllOk(runs)
      modifies `log, `result, `replySent
      ensures run.call == call && log.steps == old(log).steps
      ensures Now(ping, runs + [run], heard + [Reported(id, run)])
      ensures result.outputText == old(result).outputText
    {
      hide Going, Ran, SendResult, AllOk;
      run := ExecuteTool(call, result.toolCalls);
      CallKeepsGoing(Left(old(log), result, replySent), setup, ping, runs, heard, run, id);
      if run.result.Err? {
        Emit(ResponseFailed(run.result.error));
        return;
      }
      if call.name == "send" && ToolSendSucceeded(run.result.value) {
        replySent := true;
      }
      result := result.(toolCalls := result.toolCalls + 1);
      Emit(CallCompleted(id, call.callId, call.name));
    }

    /** All function calls of a response in order, up to the first that fails. */
    method RunCalls(resp: Response, ghost ping: seq<SendAttempt>, ghost heard: seq<Event>)
      returns (failure: Option<Error>, runs: seq<ToolRun>)
      requires Now(ping, [], heard)
      modifies `log, `result, `replySent
      ensures log.steps == old(log).steps && result.outputText == old(result).outputText
      ensures Made(runs, ExtractFunctionCalls(resp.output), failure)
      ensures failure.None? ==> Now(ping, runs, heard + RunEvents(resp.id, runs))
      ensures failure.Some? ==> Now(ping, runs, heard + RunEvents(resp.id, runs) + [ResponseFailed(failure.value)])
    {
      hide Going, ExtractFunctionCalls;
      var calls := ExtractFunctionCalls(resp.output);
      runs := [];
      assert heard + RunEvents(resp.id, runs) == heard;
      for i := 0 to |calls|
        invariant log.steps == old(log).steps && result.outputText == old(result).outputText
        invariant |runs| == i && AllOk(runs) && forall j :: 0 <= j < i ==> runs[j].call == calls[j]
        invariant Now(ping, runs, heard + RunEvents(resp.id, runs))
      {
        var run := RunCall(resp.id, calls[i], ping, runs, heard + RunEvents(resp.id, runs));
        OneMoreRun(runs, run, resp.id);
        assert (runs + [run])[..i] == runs;
        runs := runs + [run];
        if run.result.Err? {
          assert RunEvents(resp.id, runs) == RunEvents(resp.id, runs[..i]);
          return Some(run.result.error), runs;
        }
        Regroup(heard, RunEvents(resp.id, runs[..i]), Reported(resp.id, run));
      }
      failure := None;
    }

    lemma {:induction false} Regroup(heard: seq<Event>, before: seq<Event>, e: Event)
      ensures heard + before + [e] == heard + (before + [e])
    {
    }

    /** The model call of step k. */
    method Ask(k: nat, request: ModelRequest) returns (step: Step)
      ensures step == Step(request, setup.env.model(k), [])
    {
      step := Step(request, setup.env.model(k), []);
    }

    /** Text in a response becomes the run's output text. */
    method NoteText(step: Step, ghost ping: seq<SendAttempt>) returns (ghost heard: seq<Event>)
      requires step.reply.Ok? && step.runs == []
      requires Now(ping, [], []) && result.outputText == LatestText(log.steps)
      modifies `log, `result
      ensures Now(ping, [], heard) && log.steps == old(log).steps
      ensures result.outputText == LatestText(log.steps + [step])
      ensures heard == StepEvents(step)
    {
      hide StepsAreFair, SendsKept, ExtractAssistantText, EventsOf, SendsOf, OkRunsOf, EntriesOf, Ran, LatestText,
           Calls;
      var text := ExtractAssistantText(step.reply.value);
      heard := [];
      OneMoreStep(log.steps, step);
      if text != "" {
        result := result.(outputText := text);
        Emit(TextDelta(step.reply.value.id, text));
        heard := [TextDelta(step.reply.value.id, text)];
      }
      assert StepEvents(step) == heard;
    }

    // ---- The ways out ----

    method FailOnCall(step: Step, ghost ping: seq<SendAttempt>)
      requires Ready(ping) && |log.steps| < setup.cfg.maxSteps
      requires IsNext(step, log.steps, setup) && step.reply.Err? && step.runs == []
      modifies `log, `trace
      ensures Judged(Some(step.reply.error)) && log.steps == old(log).steps + [step]
      ensures log.events == Emitted(old(log), ResponseFailed(step.reply.error), setup.emitting).events
    {
      hide Going, IsNext, JudgedRun, PingTried, EntriesOf, LatestText, Answered;
      CallFailureIsJudged(Left(log, result, replySent), setup, ping, trace, step);
      assert log.completions == [] by {
        NothingCompleted(ping, [], []);
      }
      Emit(ResponseFailed(step.reply.error));
      trace := trace + [CallFailed(|log.steps| + 1, step.request.previousId, step.reply.error)];
      log := log.(steps := log.steps + [step]);
      CompleteRun(Failed, "", step.request.previousId, result.outputText, Some(step.reply.error));
    }

    lemma {:induction false} NothingCompleted(ping: seq<SendAttempt>, runs: seq<ToolRun>, heard: seq<Event>)
      requires Now(ping, runs, heard)
      ensures log.completions == []
    {
      hide StepsAreFair, SendsKept, RunsAreFairFrom;
    }

    method FailOnTool(step: Step, ghost ping: seq<SendAttempt>, error: Error)
      requires Now(ping, step.runs, StepEvents(step) + [ResponseFailed(error)]) && PingTried(ping, setup)
      requires log.steps != [] ==> Answered(log.steps[|log.steps| - 1])
      requires trace == PingEntries(ping) + EntriesOf(log.steps) && result.outputText == LatestText(log.steps + [step])
      requires |log.steps| < setup.cfg.maxSteps && IsNext(step, log.steps, setup) && step.reply.Ok? && RunsInOrder(step)
      requires step.runs != [] && step.runs[|step.runs| - 1].result == Err(error)
      modifies `log, `trace
      ensures Judged(Some(error)) && log.steps == old(log).steps + [step]
      ensures trace == old(trace) + [EntryOf(|log.steps|, step)]
      ensures log.completions[0].responseId == step.reply.value.id
      ensures log.completions[0].previousId == step.request.previousId
    {
      hide Going, IsNext, JudgedRun, PingTried, Answered, EntriesOf, LatestText, RunsInOrder, StepEvents;
      NothingCompleted(ping, step.runs, StepEvents(step) + [ResponseFailed(error)]);
      ToolFailureIsJudged(Left(log, result, replySent), setup, ping, trace, step, error);
      trace := trace + [StepDone(|log.steps| + 1, step.reply.value.id, step.request.previousId,
                                 TraceCallsOf(step.runs))];
      log := log.(steps := log.steps + [step]);
      CompleteRun(Failed, step.reply.value.id, step.request.previousId, result.outputText, Some(error));
    }

    method FailOnSteps(previousId: string, ghost ping: seq<SendAttempt>)
      requires Ready(ping) && |log.steps| == setup.cfg.maxSteps > 0 && previousId == LastId(log.steps)
      modifies `log
      ensures Judged(Some(STEPS_ERROR)) && log.steps == old(log).steps
      ensures log.completions[0].responseId == "" && log.completions[0].previousId == previousId
      ensures log.events == Emitted(old(log), ResponseFailed(STEPS_ERROR), setup.emitting).events
    {
      hide Going, JudgedRun, LastId, PingTried, EntriesOf, LatestText, Answered;
      StepsRunOutIsJudged(Left(log, result, replySent), setup, ping, trace);
      assert log.completions == [] by {
        NothingCompleted(ping, [], []);
      }
      Emit(ResponseFailed(STEPS_ERROR));
      CompleteRun(Failed, "", previousId, result.outputText, Some(STEPS_ERROR));
    }

    /** The automatic reply: the run's text, tried just when the run has one and nothing has been sent.
        Only an absent provider is forgiven. */
    method AutoReply() returns (failure: Option<Error>, ghost reply: Option<SendAttempt>)
      requires replySent <==> SomeSendSucceeded(log.sends)
      modifies `log, `trace, `replySent
      ensures reply.Some? <==> result.outputText != "" && !SomeSendSucceeded(old(log).sends)
      ensures reply.Some? ==>
                && reply.value.origin == Auto && reply.value.body == result.outputText && reply.value.subject == ""
                && reply.value.result == SendResult(setup, result.outputText, |old(log).sends|)
      ensures log == WithReply(old(log), reply, setup)
      ensures replySent == (old(replySent) || (reply.Some? && reply.value.result.Ok?))
      ensures failure == ErrorOf(ConclusionOf(reply, setup.env.unavailable))
      ensures trace == old(trace) + ReplyEntries(reply, setup.env.unavailable)
    {
      hide SendResult, SendEffects, SomeSendSucceeded;
      failure, reply := None, None;
      if result.outputText != "" && !replySent {
        var r := ToolSend(Auto, result.outputText, "");
        reply := Some(SendAttempt(Auto, result.outputText, "", r));
        if r.Err? {
          if setup.env.unavailable(r.error) {
            trace := trace + [AutoSendSkipped(r.error)];
          } else {
            trace := trace + [AutoSendFailed(r.error)];
            failure := Some(r.error);
          }
        } else if ToolSendSucceeded(r.value) {
          replySent := true;
        }
      }
    }

    /** A response without function calls ends the run. */
    method Conclude(step: Step, ghost ping: seq<SendAttempt>) returns (err: Option<Error>)
      requires Now(ping, [], StepEvents(step)) && PingTried(ping, setup)
      requires log.steps != [] ==> Answered(log.steps[|log.steps| - 1])
      requires trace == PingEntries(ping) + EntriesOf(log.steps) && result.outputText == LatestText(log.steps + [step])
      requires |log.steps| < setup.cfg.maxSteps && IsNext(step, log.steps, setup)
      requires step.reply.Ok? && step.runs == [] && Calls(step) == []
      modifies this
      ensures Judged(err) && log.steps == old(log).steps + [step]
      ensures err.Some? ==> log.events == old(log).events
      ensures err.None? && setup.emitting ==>
                log.events == old(log).events + [ResponseCompleted(step.reply.value.id, result.outputText)]
    {
      hide JudgedRun, Going, PingTried, Answered, EntriesOf, LatestText, StepEvents, Calls, SomeSendSucceeded,
           SendResult, SendEffects, IsNext, PingEntries, ReplyEntries;
      ghost var settled := log.(steps := log.steps + [step]);
      StepRests(ping, step);
      log := log.(steps := log.steps + [step]);
      FlagIsTrue(ping);
      ghost var reply;
      ghost var before, was := replySent, trace;
      err, reply := AutoReply();
      RestIsJudged(Left(settled, result, before), setup, ping, was, step, reply);
      Finish(step, err);
    }

    method Finish(step: Step, failure: Option<Error>)
      requires step.reply.Ok? && log.completions == []
      requires var id, previousId, text := step.reply.value.id, step.request.previousId, result.outputText;
               if failure.Some? then
                 var c := Completion(Failed, id, previousId, text, trace, failure);
                 JudgedRun(Left(log.(completions := [c]), result, replySent), failure, setup)
               else
                 var entries := trace + [StepDone(|log.steps|, id, previousId, [])];
                 var c := Completion(Completed, id, previousId, text, entries, None);
                 var told := Emitted(log, ResponseCompleted(id, text), setup.emitting).(completions := [c]);
                 JudgedRun(Left(told, result.(enabled := true, completed := true, responseId := id), replySent),
                           None, setup)
      modifies `log, `trace, `result
      ensures Judged(failure) && log.steps == old(log).steps
      ensures failure.Some? ==> log.events == old(log).events
      ensures failure.None? ==>
                var completed := ResponseCompleted(step.reply.value.id, result.outputText);
                log.events == Emitted(old(log), completed, setup.emitting).events
    {
      hide JudgedRun;
      if failure.Some? {
        CompleteRun(Failed, step.reply.value.id, step.request.previousId, result.outputText, failure);
        return;
      }
      trace := trace + [StepDone(|log.steps|, step.reply.value.id, step.request.previousId, [])];
      result := result.(enabled := true, completed := true, responseId := step.reply.value.id);
      Emit(ResponseCompleted(step.reply.value.id, result.outputText));
      CompleteRun(Completed, step.reply.value.id, step.request.previousId, result.outputText, None);
    }

    lemma {:induction false} StepRests(ping: seq<SendAttempt>, step: Step)
      requires Now(ping, [], StepEvents(step)) && |log.steps| < setup.cfg.maxSteps
      requires log.steps != [] ==> Answered(log.steps[|log.steps| - 1])
      requires IsNext(step, log.steps, setup) && step.runs == []
      ensures Going(Left(log.(steps := log.steps + [step]), result, replySent), setup, ping, [], [])
      ensures log.completions == []
    {
      hide StepsAreFair, SendsKept, Answered, StepEvents, NextRequest, Calls, EventsOf, SendsOf, OkRunsOf;
      assert StepEvents(step) + [] == StepEvents(step);
      StepSettles(Left(log, result, replySent), setup, ping, step, []);
    }

    lemma {:induction false} FlagIsTrue(ping: seq<SendAttempt>)
      requires Now(ping, [], [])
      ensures replySent <==> SomeSendSucceeded(log.sends)
    {
      hide StepsAreFair, SendsAreFair, EffectsOf, SomeSendSucceeded;
    }

    // ---- The loop ----

    /** One request to the model and all it entails; when the run goes on, the next request is at hand. */
    method OneStep(request: ModelRequest, ghost ping: seq<SendAttempt>)
      returns (done: bool, err: Option<Error>, next: ModelRequest)
      requires Ready(ping) && |log.steps| < setup.cfg.maxSteps && request == NextRequest(log.steps, OpeningOf(setup))
      modifies this
      ensures |log.steps| == |old(log).steps| + 1
      ensures done ==> Judged(err)
      ensures !done ==> Ready(ping) && next == NextRequest(log.steps, OpeningOf(setup))
    {
      hide Going, PingTried, Answered, EntriesOf, LatestText, StepEvents, Judged, NextRequest, RunsInOrder;
      next := request;
      var step := Ask(|log.steps|, request);
      if step.reply.Err? {
        FailOnCall(step, ping);
        return true, Some(step.reply.error), next;
      }
      ghost var heard := NoteText(step, ping);
      if ExtractFunctionCalls(step.reply.value.output) == [] {
        err := Conclude(step, ping);
        return true, err, next;
      }
      err, next := UseTools(step, ping);
      done := err.Some?;
    }

    /** A response's function calls are made, traced and answered. */
    method UseTools(step: Step, ghost ping: seq<SendAttempt>) returns (err: Option<Error>, next: ModelRequest)
      requires Now(ping, [], StepEvents(step)) && PingTried(ping, setup)
      requires log.steps != [] ==> Answered(log.steps[|log.steps| - 1])
      requires trace == PingEntries(ping) + EntriesOf(log.steps) && result.outputText == LatestText(log.steps + [step])
      requires |log.steps| < setup.cfg.maxSteps && IsNext(step, log.steps, setup)
      requires step.reply.Ok? && step.runs == [] && Calls(step) != []
      modifies this
      ensures |log.steps| == |old(log).steps| + 1
      ensures err.Some? ==> Judged(err)
      ensures err.None? ==> Ready(ping) && next == NextRequest(log.steps, OpeningOf(setup))
    {
      hide Going, PingTried, Answered, EntriesOf, LatestText, StepEvents, Judged, NextRequest, RunsInOrder, RunEvents,
           PingEntries, OutputsOf, TraceCallsOf, ExtractFunctionCalls;
      var resp := step.reply.value;
      var failure, runs := RunCalls(resp, ping, StepEvents(step));
      var ran := step.(runs := runs);
      MadeRunsAreInPlace(log.steps, step, runs, failure);
      next := ModelRequest(Answers(OutputsOf(runs)), resp.id);
      if failure.Some? {
        FailOnTool(ran, ping, failure.value);
        return failure, next;
      }
      // Some call was made, so there is an output for it: the loop's own check for none cannot fail.
      AnsweredStepIsReady(Left(log, result, replySent), setup, ping, trace, ran);
      trace := trace + [StepDone(|log.steps| + 1, resp.id, step.request.previousId, TraceCallsOf(runs))];
      log := log.(steps := log.steps + [ran]);
      return None, next;
    }

    method ModelLoop(messages: seq<StoredMessage>, ghost ping: seq<SendAttempt>) returns (err: Option<Error>)
      requires Ready(ping) && log.steps == [] && setup.cfg.maxSteps > 0 && setup.env.list == Ok(messages)
      modifies this
      ensures Judged(err) && log.steps != []
    {
      hide BetweenSteps, Judged;
      var next := ModelRequest(Opening(messages, setup.req.channel), "");
      var step := 0;
      while step < setup.cfg.maxSteps
        invariant 0 <= step <= setup.cfg.maxSteps && |log.steps| == step
        invariant Ready(ping) && next == NextRequest(log.steps, OpeningOf(setup))
      {
        var done, e, following := OneStep(next, ping);
        if done {
          return e;
        }
        next := following;
        step := step + 1;
      }
      assert next.previousId == LastId(log.steps);
      FailOnSteps(next.previousId, ping);
      return Some(STEPS_ERROR);
    }

    // ---- The lock body ----

    /** A bare "ping" is answered without the model; when that reply cannot be sent the model is asked after all. */
    method SimplePingPong(messages: seq<StoredMessage>) returns (handled: bool, ghost ping: seq<SendAttempt>)
      requires Untouched() && setup.env.list == Ok(messages) && EligibleInbound(messages, setup.req.message)
      modifies this
      ensures handled ==>
                && IsPing(messages, setup.req.message)
                && ping == [SendAttempt(Ping, "pong", "", SendResult(setup, "pong", 0))]
                && ping[0].result.Ok? && trace == [PingPong(None)] && replySent
                && result == ProcessResult(true, false, PING_RESPONSE, "pong", 0, true)
                && log == WithSend(EMPTY_LOG, ping[0], setup).(events := log.events)
                && log.events == if setup.emitting then
                                   [TextDelta(PING_RESPONSE, "pong"), ResponseCompleted(PING_RESPONSE, "pong")]
                                 else []
      ensures !handled ==> Ready(ping) && log.steps == []
      ensures handled <==> IsPing(messages, setup.req.message) && SendResult(setup, "pong", 0).Ok?
    {
      hide EligibleInbound, IsPing, SendResult, SendEffects, BetweenSteps;
      if !IsPing(messages, setup.req.message) {
        NoPingIsReady(setup);
        return false, [];
      }
      var r := ToolSend(Ping, "pong", "");
      ping := [SendAttempt(Ping, "pong", "", r)];
      if r.Err? {
        trace := trace + [PingPong(Some(r.error))];
        assert trace == [PingPong(Some(r.error))];
        FailedPingIsReady(setup, ping[0]);
        return false, ping;
      }
      trace := trace + [PingPong(None)];
      replySent := true;
      result := result.(enabled := true, completed := true, outputText := "pong", responseId := PING_RESPONSE);
      Emit(TextDelta(PING_RESPONSE, "pong"));
      Emit(ResponseCompleted(PING_RESPONSE, "pong"));
      return true, ping;
    }

    method Skip()
      requires Untouched() && setup.env.list.Ok? && !EligibleInbound(setup.env.list.value, setup.req.message)
      modifies this
      ensures Judged(None) && log.completions[0].status == Skipped
    {
      hide JudgedRun, EligibleInbound;
      UnansweredIsJudged(setup);
      trace := trace + [EligibilitySkip];
      assert trace == [EligibilitySkip];
      result := result.(enabled := true);
      CompleteRun(Skipped, "", "", "", None);
    }

    /** An eligible message is answered by the local ping reply or by the model. */
    method AnswerMessage(messages: seq<StoredMessage>) returns (err: Option<Error>)
      requires Untouched() && setup.env.list == Ok(messages) && EligibleInbound(messages, setup.req.message)
      requires setup.cfg.maxSteps > 0
      modifies this
      ensures Judged(err)
      ensures log.steps == [] <==>
              IsPing(messages, setup.req.message) && SendResult(setup, "pong", 0).Ok?
    {
      hide JudgedRun, EligibleInbound, IsPing, SendResult, SendEffects, BetweenSteps;
      var handled, ping := SimplePingPong(messages);
      if handled {
        PongIsJudged(setup, ping[0]);
        CompleteRun(Completed, PING_RESPONSE, "", result.outputText, None);
        return None;
      }
      err := ModelLoop(messages, ping);
    }

    /** What a claimed run does under the conversation's lock. */
    method Body() returns (err: Option<Error>)
      requires Untouched() && setup.cfg.maxSteps > 0
      modifies this
      ensures Judged(err)
    {
      hide JudgedRun, EligibleInbound, IsPing, SendResult;
      if setup.env.list.Err? {
        UnansweredIsJudged(setup);
        CompleteRun(Failed, "", "", "", Some(setup.env.list.error));
        return Some(setup.env.list.error);
      }
      var messages := setup.env.list.value;
      if !EligibleInbound(messages, setup.req.message) {
        Skip();
        return None;
      }
      err := AnswerMessage(messages);
    }
  }

  /** What a caller of ProcessSync learns, and everything the call did to the outside. */
  datatype Outcome = Outcome(left: Left, err: Option<Error>)

  predicate ValidProcessRequest(req: ProcessRequest) {
    req.conversation != NIL && req.message != NIL && !Blank(req.channel)
  }

  // Whether the call gets as far as a run body: it is enabled and well-formed, holds the lock and
  // has claimed the message.
  predicate EntersBody(setup: Setup) {
    setup.cfg.enabled && ValidProcessRequest(setup.req) && setup.env.lock.None? && setup.env.start == Claimed
  }

  method ProcessSync(setup: Setup) returns (o: Outcome)
    requires setup.cfg.maxSteps > 0
    ensures EntersBody(setup) ==> JudgedRun(o.left, o.err, setup)
    ensures !EntersBody(setup) ==>
              && o.left.log == EMPTY_LOG && !o.left.replySent
              && o.left.result ==
                 EMPTY_RESULT.(enabled := o.left.result.enabled, deduped := o.left.result.deduped)
    ensures !setup.cfg.enabled ==> o.err.None? && !o.left.result.enabled
    ensures setup.cfg.enabled ==>
              && (o.err.Some? <==> !o.left.result.enabled)
              && var valid := ValidProcessRequest(setup.req);
                 && (o.left.result.deduped <==> valid && setup.env.lock.None? && setup.env.start == AlreadyStarted)
                 && (!valid ==> o.err.Some?)
                 && (valid && setup.env.lock.Some? ==> o.err == setup.env.lock)
                 && (valid && setup.env.lock.None? && setup.env.start.StartFails? ==>
                       o.err == Some(setup.env.start.error))
  {
    hide JudgedRun;
    var nothing := Left(EMPTY_LOG, EMPTY_RESULT, false);
    if !setup.cfg.enabled {
      return Outcome(nothing, None);
    }
    if setup.req.conversation == NIL {
      return Outcome(nothing, Some(Error("conversation_id required")));
    }
    if setup.req.message == NIL {
      return Outcome(nothing, Some(Error("message_id required")));
    }
    if Blank(setup.req.channel) {
      return Outcome(nothing, Some(Error("source_channel required")));
    }
    if setup.env.lock.Some? {
      return Outcome(nothing, setup.env.lock);
    }
    match setup.env.start
    case StartFails(error) =>
      return Outcome(nothing, Some(error));
    case AlreadyStarted =>
      return Outcome(nothing.(result := EMPTY_RESULT.(enabled := true, deduped := true)), None);
    case Claimed =>
      var run := new Run(setup);
      var err := run.Body();
      var left := Left(run.log, run.result, run.replySent);
      AgentTheorems.ResultTellsError(left, err, setup);
      return Outcome(left, err);
  }
}
