/** What the verdict on a run means: the promises of ProcessSync, each read off JudgedRun alone. */
module AgentTheorems {
  import opened Text
  import opened Model
  import opened AgentRun
  import opened AgentVerdict
  import opened AgentStory

  lemma {:induction false} ResultTellsError(left: Left, err: Option<Error>, setup: Setup)
    requires JudgedRun(left, err, setup)
    ensures (err.Some? <==> !left.result.enabled) && !left.result.deduped
  {
    hide Fair, EndingOf, CompletionOf, EventsUpTo, SomeSendSucceeded, OutputTextOf, OkRunsOf, ResponseIdOf;
  }

  /** A run is skipped exactly when the messages could be listed and show that it should not be answered. */
  predicate StatusFollowsList(status: RunStatus, list: Result<seq<StoredMessage>, Error>, req: ProcessRequest) {
    if list.Err? then status == Failed
    else status == Skipped <==> !EligibleInbound(list.value, req.message)
  }

  lemma {:induction false} CompletedOnceAsListed(left: Left, err: Option<Error>, setup: Setup)
    requires JudgedRun(left, err, setup)
    ensures |left.log.completions| == 1 && StatusFollowsList(left.log.completions[0].status, setup.env.list, setup.req)
  {
    hide Fair, EligibleInbound, EventsUpTo, SomeSendSucceeded, OutputTextOf, OkRunsOf, ResponseIdOf, Calls, TraceOf,
         PreviousIdOf, IsReplyRefused, Answered;
  }

  /** A listed, eligible message is answered by the model or by a ping reply that went out; no other has any effect. */
  lemma {:induction false} AskedOrAnswered(left: Left, err: Option<Error>, setup: Setup)
    requires JudgedRun(left, err, setup)
    ensures setup.env.list.Ok? && EligibleInbound(setup.env.list.value, setup.req.message) ==>
              || (left.log.steps != [] &&
                  left.log.steps[0].request == ModelRequest(Opening(setup.env.list.value, setup.req.channel), ""))
              || (IsPing(setup.env.list.value, setup.req.message) &&
                  |left.log.sends| == 1 && left.log.sends[0].origin == Ping && left.log.sends[0].result.Ok?)
    ensures setup.env.list.Err? || !EligibleInbound(setup.env.list.value, setup.req.message) ==>
              left.log.steps == [] && left.log.sends == [] && left.log.effects == [] && left.log.events == []
  {
    hide EligibleInbound, IsPing, SomeSendSucceeded, OutputTextOf, OkRunsOf, ResponseIdOf, TraceOf, PreviousIdOf,
         SendsAreFair, RunsAreFair, SendsInPlace, IsReplyRefused, Answered;
    if left.log.steps != [] {
      assert StepInPlace(left.log.steps, 0, OpeningOf(setup), setup.env);
    } else {
      assert EventsOf([]) == [];
    }
  }

  // ---- One verdict ----

  predicate IsTerminal(e: Event) {
    e.ResponseFailed? || e.ResponseCompleted?
  }

  lemma {:induction false} RunsEmitNothingTerminal(id: string, runs: seq<ToolRun>)
    ensures forall e :: e in RunEvents(id, runs) ==> !IsTerminal(e)
  {
    if runs != [] {
      RunsEmitNothingTerminal(id, runs[..|runs| - 1]);
    }
  }

  lemma {:induction false} StepsEmitNothingTerminal(steps: seq<Step>)
    ensures forall e :: e in EventsOf(steps) ==> !IsTerminal(e)
  {
    hide TextOf;
    if steps != [] {
      var step := steps[|steps| - 1];
      StepsEmitNothingTerminal(steps[..|steps| - 1]);
      if step.reply.Ok? {
        RunsEmitNothingTerminal(step.reply.value.id, step.runs);
      }
    }
  }

  /** Status, error, completed flag and terminal event agree: there is at most one terminal event and it comes
      last, and a listener hears of every end but a skip, a failed list and a refused automatic reply. */
  lemma {:induction false} VerdictsAgree(left: Left, err: Option<Error>, setup: Setup)
    requires JudgedRun(left, err, setup)
    ensures |left.log.completions| == 1
    ensures var c := left.log.completions[0];
            && (err.Some? <==> c.status == Failed) && c.error == err
            && (left.result.completed <==> c.status == Completed) && c.outputText == left.result.outputText
            && (setup.emitting && c.status == Completed ==>
                  left.log.events != [] &&
                  left.log.events[|left.log.events| - 1] == ResponseCompleted(c.responseId, c.outputText))
            && (setup.emitting && c.status == Failed && left.log.steps != []
                && !AtRest(left.log.steps) ==>
                  left.log.events != [] && left.log.events[|left.log.events| - 1] == ResponseFailed(err.value))
            && (setup.emitting && c.status == Failed && (left.log.steps == [] || AtRest(left.log.steps)) ==>
                  forall e :: e in left.log.events ==> !IsTerminal(e))
    ensures forall i :: 0 <= i < |left.log.events| - 1 ==> !IsTerminal(left.log.events[i])
  {
    hide Fair, EligibleInbound, SomeSendSucceeded, OkRunsOf, Calls, TraceOf, PreviousIdOf, EventsOf, LatestText,
         IsReplyRefused, Answered, ResponseIdOf;
    var ending := EndingOf(left.log.steps, left.log.sends, setup);
    AskedOrAnswered(left, err, setup);
    StepsEmitNothingTerminal(left.log.steps);
    var told := if ending.Ponged? then [TextDelta(PING_RESPONSE, "pong")] else EventsOf(left.log.steps);
    forall i | 0 <= i < |told| ensures !IsTerminal(told[i]) {
      assert told[i] in told;
    }
  }

  // ---- One tally ----

  /** Call id and name of each completed call, as the events report them. */
  function CompletedCalls(events: seq<Event>): seq<(string, string)> {
    if events == [] then [] else
    var last := events[|events| - 1];
    CompletedCalls(events[..|events| - 1]) + if last.CallCompleted? then [(last.callId, last.name)] else []
  }

  function OkCalls(calls: seq<TraceCall>): seq<(string, string)> {
    if calls == [] then [] else
    var last := calls[|calls| - 1];
    OkCalls(calls[..|calls| - 1]) + if last.status.Some? then [(last.call.callId, last.call.name)] else []
  }

  /** The calls the stored trace marks "ok". */
  function OkCallsIn(trace: seq<TraceEntry>): seq<(string, string)> {
    if trace == [] then [] else
    var last := trace[|trace| - 1];
    OkCallsIn(trace[..|trace| - 1]) + if last.StepDone? then OkCalls(last.calls) else []
  }

  lemma {:induction false} TalliesJoin(a: seq<Event>, b: seq<Event>)
    ensures CompletedCalls(a + b) == CompletedCalls(a) + CompletedCalls(b)
  {
    if b == [] {
      assert a + b == a;
    } else {
      var n := |b| - 1;
      assert a + b == (a + b[..n]) + [b[n]] && b == b[..n] + [b[n]];
      TalliesJoin(a, b[..n]);
      OneMoreEvent(a + b[..n], b[n]);
    }
  }

  lemma {:induction false} OneMoreEvent(a: seq<Event>, e: Event)
    ensures CompletedCalls(a + [e]) == CompletedCalls(a) + if e.CallCompleted? then [(e.callId, e.name)] else []
  {
    assert (a + [e])[..|a|] == a;
  }

  lemma {:induction false} OneMoreEntry(trace: seq<TraceEntry>, e: TraceEntry)
    ensures OkCallsIn(trace + [e]) == OkCallsIn(trace) + if e.StepDone? then OkCalls(e.calls) else []
  {
    assert (trace + [e])[..|trace|] == trace;
  }

  lemma {:induction false} RunsAgree(id: string, runs: seq<ToolRun>)
    ensures CompletedCalls(RunEvents(id, runs)) == OkCalls(TraceCallsOf(runs))
    ensures |OkCalls(TraceCallsOf(runs))| == OkRuns(runs)
  {
    if runs != [] {
      var n := |runs| - 1;
      RunsAgree(id, runs[..n]);
      assert runs[..n] + [runs[n]] == runs;
      OneMoreRunAgrees(id, runs[..n], runs[n]);
    }
  }

  lemma {:induction false} OneMoreRunAgrees(id: string, runs: seq<ToolRun>, run: ToolRun)
    requires CompletedCalls(RunEvents(id, runs)) == OkCalls(TraceCallsOf(runs))
    requires |OkCalls(TraceCallsOf(runs))| == OkRuns(runs)
    ensures CompletedCalls(RunEvents(id, runs + [run])) == OkCalls(TraceCallsOf(runs + [run]))
    ensures |OkCalls(TraceCallsOf(runs + [run]))| == OkRuns(runs + [run])
  {
    hide CompletedCalls, OkCalls, RunEvents, TraceCallsOf, OkRuns, SendsIn;
    OneMoreRun(runs, run, id);
    OneMoreTraced(runs, run);
    if run.result.Ok? {
      OneMoreEvent(RunEvents(id, runs), CallCompleted(id, run.call.callId, run.call.name));
    } else {
      assert RunEvents(id, runs) + [] == RunEvents(id, runs);
    }
  }

  lemma {:induction false} OneMoreTraced(runs: seq<ToolRun>, run: ToolRun)
    ensures OkCalls(TraceCallsOf(runs + [run])) ==
            OkCalls(TraceCallsOf(runs)) + if run.result.Ok? then [(run.call.callId, run.call.name)] else []
  {
    assert (runs + [run])[..|runs|] == runs;
    var calls := TraceCallsOf(runs);
    assert (calls + [TraceCallOf(run)])[..|calls|] == calls;
  }

  lemma {:induction false} TraceTalliesJoin(a: seq<TraceEntry>, b: seq<TraceEntry>)
    ensures OkCallsIn(a + b) == OkCallsIn(a) + OkCallsIn(b)
  {
    if b == [] {
      assert a + b == a;
    } else {
      var n := |b| - 1;
      assert a + b == (a + b[..n]) + [b[n]] && b == b[..n] + [b[n]];
      TraceTalliesJoin(a, b[..n]);
      OneMoreEntry(a + b[..n], b[n]);
    }
  }

  lemma {:induction false} NothingToTally()
    ensures OkCalls(TraceCallsOf([])) == [] && OkCallsIn([]) == [] && CompletedCalls([]) == []
  {
  }

  lemma {:induction false} StepAgrees(n: nat, step: Step)
    requires step.reply.Ok? || step.runs == []
    ensures CompletedCalls(StepEvents(step)) == OkCalls(TraceCallsOf(step.runs))
    ensures |OkCalls(TraceCallsOf(step.runs))| == OkRuns(step.runs)
  {
    hide TextOf;
    if step.reply.Ok? {
      var id := step.reply.value.id;
      var deltas: seq<Event> := if TextOf(step) == "" then [] else [TextDelta(id, TextOf(step))];
      assert CompletedCalls(deltas) == [] by {
        if deltas != [] {
          OneMoreEvent([], deltas[0]);
        }
      }
      TalliesJoin(deltas, RunEvents(id, step.runs));
      RunsAgree(id, step.runs);
    } else {
      RunsAgree("", []);
    }
  }

  lemma {:induction false} StepsAgree(steps: seq<Step>)
    requires forall k :: 0 <= k < |steps| ==> steps[k].reply.Ok? || steps[k].runs == []
    ensures CompletedCalls(EventsOf(steps)) == OkCallsIn(EntriesOf(steps))
    ensures |OkCallsIn(EntriesOf(steps))| == OkRunsOf(steps)
  {
    if steps == [] {
    } else {
      var n := |steps| - 1;
      assert steps[..n] + [steps[n]] == steps;
      StepsAgree(steps[..n]);
      OneMoreStepAgrees(steps[..n], steps[n]);
    }
  }

  lemma {:induction false} OneMoreStepAgrees(steps: seq<Step>, step: Step)
    requires CompletedCalls(EventsOf(steps)) == OkCallsIn(EntriesOf(steps)) &&
             |OkCallsIn(EntriesOf(steps))| == OkRunsOf(steps)
    requires step.reply.Ok? || step.runs == []
    ensures CompletedCalls(EventsOf(steps + [step])) == OkCallsIn(EntriesOf(steps + [step]))
    ensures |OkCallsIn(EntriesOf(steps + [step]))| == OkRunsOf(steps + [step])
  {
    hide StepEvents, EventsOf, EntriesOf, OkRunsOf, OkCallsIn, CompletedCalls, TraceCallsOf, OkCalls, OkRuns;
    var entry := EntryOf(|steps| + 1, step);
    OneMoreStep(steps, step);
    StepAgrees(|steps| + 1, step);
    TalliesJoin(EventsOf(steps), StepEvents(step));
    OneMoreEntry(EntriesOf(steps), entry);
    NothingToTally();
    if step.reply.Err? {
      assert TraceCallsOf(step.runs) == TraceCallsOf([]);
      assert OkCallsIn(EntriesOf(steps + [step])) == OkCallsIn(EntriesOf(steps));
    }
  }

  lemma {:induction false} StepsAreOrderly(steps: seq<Step>, opening: Input, env: Env, maxSteps: nat)
    requires StepsAreFair(steps, opening, env, maxSteps)
    ensures forall k :: 0 <= k < |steps| ==> RunsInOrder(steps[k]) && (steps[k].reply.Ok? || steps[k].runs == [])
  {
    hide RunsAreFair, NextRequest, ExtractFunctionCalls, Answered;
    forall k | 0 <= k < |steps| ensures RunsInOrder(steps[k]) && (steps[k].reply.Ok? || steps[k].runs == []) {
      assert StepInPlace(steps, k, opening, env);
    }
  }

  /** An automatic reply is the last send, only follows a response at rest, and nothing was sent before it. */
  lemma {:induction false} AutoRepliesAreLast(steps: seq<Step>, sends: seq<SendAttempt>, setup: Setup)
    requires AskedOrPonged(steps, sends, setup) && RunsAreFair(steps, setup.env)
    ensures forall i :: 0 <= i < |sends| && sends[i].origin == Auto ==>
              i == |sends| - 1 && AtRest(steps) && !SomeSendSucceeded(sends[..i]) && sends[i].body == LatestText(steps)
    ensures forall i :: 0 <= i < |sends| && sends[i].origin == Ping ==> i == 0
    ensures AtRest(steps) && LatestText(steps) != "" && (forall i :: 0 <= i < |sends| ==> sends[i].origin != Auto) ==>
              SomeSendSucceeded(sends)
  {
    hide EligibleInbound, IsPing, Calls, LatestText, SomeSendSucceeded, RunsAreFair;
    StepsSendByTool(steps, setup.env);
    if setup.env.list.Ok? && EligibleInbound(setup.env.list.value, setup.req.message) {
      var ping := PingsOf(sends);
      var before := ping + SendsOf(steps);
      assert forall i :: |ping| <= i < |before| ==> before[i] == SendsOf(steps)[i - |ping|];
      assert forall i :: 0 <= i < |before| ==> sends[i] == before[i];
    }
  }

  /** The result, the events and the stored trace report the same tool calls in the same order. */
  lemma {:induction false} TalliesAgree(left: Left, err: Option<Error>, setup: Setup)
    requires JudgedRun(left, err, setup)
    ensures |left.log.completions| == 1 && left.result.toolCalls == |OkCallsIn(left.log.completions[0].trace)|
    ensures setup.emitting ==> CompletedCalls(left.log.events) == OkCallsIn(left.log.completions[0].trace)
  {
    hide EligibleInbound, IsPing, SomeSendSucceeded, OutputTextOf, ResponseIdOf, PreviousIdOf, SendsAreFair,
         RunsAreFair, StepsAreFair, AskedOrPonged, IsReplyRefused, Answered, EventsOf, EntriesOf, OkRunsOf, TraceOf,
         EffectsOf, EndingOf, EventsUpTo, CompletedCalls, OkCallsIn;
    StepsAreOrderly(left.log.steps, OpeningOf(setup), setup.env, setup.cfg.maxSteps);
    StepsAgree(left.log.steps);
    TraceTellsSteps(left, err, setup);
    PongMeansNoSteps(left, err, setup);
    EventsTellSteps(EndingOf(left.log.steps, left.log.sends, setup), left.log.steps);
  }

  lemma {:induction false} EventsTellSteps(ending: Ending, steps: seq<Step>)
    requires ending.Ponged? ==> CompletedCalls(EventsOf(steps)) == []
    ensures CompletedCalls(EventsUpTo(ending, steps)) == CompletedCalls(EventsOf(steps))
  {
    hide EventsOf, CompletedCalls, LatestText, ResponseIdOf;
    var told := if ending.Ponged? then [TextDelta(PING_RESPONSE, "pong")] else EventsOf(steps);
    TalliesJoin(told, TerminalOf(ending, steps));
    OneEvent(TextDelta(PING_RESPONSE, "pong"));
    if TerminalOf(ending, steps) != [] {
      OneEvent(TerminalOf(ending, steps)[0]);
    } else {
      TalliesJoin(told, []);
    }
  }

  lemma {:induction false} OneEvent(e: Event)
    ensures CompletedCalls([]) == []
    ensures CompletedCalls([e]) == if e.CallCompleted? then [(e.callId, e.name)] else []
  {
    OneMoreEvent([], e);
    assert [] + [e] == [e];
  }

  lemma {:induction false} PongMeansNoSteps(left: Left, err: Option<Error>, setup: Setup)
    requires JudgedRun(left, err, setup)
    ensures EndingOf(left.log.steps, left.log.sends, setup).Ponged? ==> left.log.steps == []
    ensures left.log.steps == [] ==>
              CompletedCalls(EventsOf(left.log.steps)) == [] && OkCallsIn(EntriesOf(left.log.steps)) == []
  {
    hide Fair, EligibleInbound, TraceOf, EventsUpTo, IsReplyRefused, Calls;
  }

  /** An entry for the automatic reply, and a last step without calls, leave the tally alone. */
  lemma {:induction false} RestTellsSteps(head: seq<TraceEntry>, steps: seq<Step>, noted: TraceEntry,
                                          rest: seq<TraceEntry>)
    requires OkCallsIn(head) == [] && !noted.StepDone?
    requires steps != [] && steps[|steps| - 1].runs == [] &&
             (rest == [] || rest == [EntryOf(|steps|, steps[|steps| - 1])])
    ensures OkCallsIn(head + EntriesOf(steps[..|steps| - 1]) + ([noted] + rest)) == OkCallsIn(EntriesOf(steps))
  {
    hide EntriesOf, OkCallsIn, TraceCallsOf, OkCalls, EventsOf, SendsOf, OkRunsOf, LatestText, TextOf, StepEvents,
         SendsIn, OkRuns;
    var n := |steps| - 1;
    var before := EntriesOf(steps[..n]);
    assert steps[..n] + [steps[n]] == steps;
    OneMoreStep(steps[..n], steps[n]);
    NothingToTally();
    OneMoreEntry(before, EntryOf(n + 1, steps[n]));
    TraceTalliesJoin(head, before);
    OneMoreEntry([], noted);
    assert OkCallsIn(rest) == [] by {
      if rest != [] {
        OneMoreEntry([], rest[0]);
        assert [] + [rest[0]] == rest;
      }
    }
    assert [] + [noted] == [noted];
    TraceTalliesJoin([noted], rest);
    TraceTalliesJoin(head + before, [noted] + rest);
  }

  lemma {:induction false} TraceTellsSteps(left: Left, err: Option<Error>, setup: Setup)
    requires JudgedRun(left, err, setup)
    ensures var ending := EndingOf(left.log.steps, left.log.sends, setup);
            OkCallsIn(TraceOf(ending, left.log.steps, left.log.sends)) == OkCallsIn(EntriesOf(left.log.steps))
  {
    hide EligibleInbound, IsPing, SomeSendSucceeded, EventsUpTo, SendsAreFair, RunsAreFair, AskedOrPonged,
         IsReplyRefused, Answered, EffectsOf, EndingOf, StepsAreFair, CompletionOf, ResultOf, LatestText, EntriesOf,
         OkCallsIn, EntryOf, PingsOf, ExtractFunctionCalls;
    var steps, sends := left.log.steps, left.log.sends;
    var ending := EndingOf(steps, sends, setup);
    var head := PingEntries(PingsOf(sends));
    PingTellsNothing(PingsOf(sends));
    if ending.Ineligible? {
      IneligibleMeansNoSteps(left, err, setup);
    } else if steps != [] && sends != [] && sends[|sends| - 1].origin == Auto && sends[|sends| - 1].result.Err? {
      var e := sends[|sends| - 1].result.error;
      StepsFair(left.log, setup);
      AutoRepliesAreLast(steps, sends, setup);
      StepsAreOrderly(steps, OpeningOf(setup), setup.env, setup.cfg.maxSteps);
      assert steps[|steps| - 1].runs == [];
      if ending.ReplyRefused? {
        RestTellsSteps(head, steps, AutoSendFailed(ending.error), []);
        assert [AutoSendFailed(ending.error)] + [] == [AutoSendFailed(ending.error)];
      } else {
        var last := EntryOf(|steps|, steps[|steps| - 1]);
        RestTellsSteps(head, steps, AutoSendSkipped(e), [last]);
        assert [AutoSendSkipped(e)] + [last] == [AutoSendSkipped(e), last];
      }
    } else {
      TraceTalliesJoin(head, EntriesOf(steps));
    }
  }

  lemma {:induction false} PingTellsNothing(ping: seq<SendAttempt>)
    ensures OkCallsIn(PingEntries(ping)) == []
  {
    if ping != [] {
      OneMoreEntry([], PingEntries(ping)[0]);
    }
  }

  lemma {:induction false} StepsFair(log: Log, setup: Setup)
    requires Fair(log.steps, log.sends, log.effects, setup)
    ensures RunsAreFair(log.steps, setup.env)
  {
    hide RunsAreFair, AskedOrPonged, SendsAreFair, EffectsOf, StepInPlace;
  }

  lemma {:induction false} IneligibleMeansNoSteps(left: Left, err: Option<Error>, setup: Setup)
    requires JudgedRun(left, err, setup)
    ensures EndingOf(left.log.steps, left.log.sends, setup).Ineligible? ==> left.log.steps == []
    ensures OkCallsIn([EligibilitySkip]) == OkCallsIn(EntriesOf([]))
  {
    hide EligibleInbound, TraceOf, EventsUpTo, IsReplyRefused, Calls, StepsAreFair, SendsAreFair, EffectsOf,
         SendsInPlace, IsPing;
  }

  // ---- One chain ----

  lemma {:induction false} OutputAt(runs: seq<ToolRun>, i: nat)
    requires i < |runs|
    ensures |OutputsOf(runs)| == |runs| && OutputsOf(runs)[i] == OutputOf(runs[i])
  {
    var n := |runs| - 1;
    if n > 0 {
      OutputAt(runs[..n], if i < n then i else 0);
    }
  }

  /** Request k carries the id of the response before it and answers exactly that response's function calls:
      one output each, same call id, same order, and it is what the call came to. */
  ghost predicate Answers(before: Step, request: ModelRequest) {
    && before.reply.Ok? && request.previousId == before.reply.value.id && request.input.Answers?
    && var outputs, calls := request.input.outputs, Calls(before);
       |outputs| == |calls| > 0
       && forall i :: 0 <= i < |calls| ==>
            && outputs[i].callId == calls[i].callId
            && i < |before.runs| && before.runs[i].call == calls[i] && before.runs[i].result == Ok(outputs[i].status)
  }

  lemma {:induction false} ChainIsFaithful(left: Left, err: Option<Error>, setup: Setup, k: nat)
    requires JudgedRun(left, err, setup)
    requires k < |left.log.steps|
    ensures |left.log.steps| <= setup.cfg.maxSteps && left.log.steps[k].reply == setup.env.model(k)
    ensures k == 0 ==> left.log.steps[0].request.previousId == "" && left.log.steps[0].request.input.Opening?
    ensures k > 0 ==> Answers(left.log.steps[k - 1], left.log.steps[k].request)
  {
    hide AskedOrPonged, SendsAreFair, EffectsOf, EndingOf, CompletionOf, EventsUpTo, ResultOf, RunsAreFair,
         ExtractFunctionCalls;
    var steps, opening := left.log.steps, OpeningOf(setup);
    assert StepInPlace(steps, k, opening, setup.env);
    if k > 0 {
      assert StepInPlace(steps, k - 1, opening, setup.env);
      var before := steps[k - 1];
      assert steps[..k][k - 1] == before;
      forall i | 0 <= i < |before.runs| ensures |OutputsOf(before.runs)| == |before.runs|
                                                && OutputsOf(before.runs)[i] == OutputOf(before.runs[i]) {
        OutputAt(before.runs, i);
      }
    }
  }

  /** The ids written at completion are the tail of the chain: those of the last exchange, or, when there was no
      answer or no step left to use it in, the id the next request would have carried. */
  lemma {:induction false} IdsAreTheTail(left: Left, err: Option<Error>, setup: Setup)
    requires JudgedRun(left, err, setup)
    ensures |left.log.completions| == 1
    ensures var c, n := left.log.completions[0], |left.log.steps|;
            if n == 0 then c.previousId == "" && c.responseId == if c.status == Completed then PING_RESPONSE else ""
            else
              var last := left.log.steps[n - 1];
              if last.reply.Err? then
                c.status == Failed && c.responseId == "" && c.previousId == last.request.previousId
              else if Calls(last) != [] && Answered(last) then
                && n == setup.cfg.maxSteps && c.status == Failed
                && c.responseId == "" && c.previousId == last.reply.value.id
              else c.responseId == last.reply.value.id && c.previousId == last.request.previousId
    ensures left.result.responseId == if left.result.completed then left.log.completions[0].responseId else ""
  {
    hide EligibleInbound, IsPing, SendsAreFair, EffectsOf, EventsUpTo, RunsAreFair, ExtractFunctionCalls, SendsInPlace,
         TraceOf, IsReplyRefused, StepsAreFair, OkRunsOf, LatestText, NextRequest;
    AskedOrAnswered(left, err, setup);
    if left.log.steps != [] {
      LastStepIsOrderly(left, err, setup);
    }
  }

  lemma {:induction false} LastStepIsOrderly(left: Left, err: Option<Error>, setup: Setup)
    requires JudgedRun(left, err, setup) && left.log.steps != []
    ensures RunsInOrder(left.log.steps[|left.log.steps| - 1])
  {
    hide AskedOrPonged, SendsAreFair, EffectsOf, EndingOf, CompletionOf, EventsUpTo, ResultOf, RunsAreFair, NextRequest,
         RunsInOrder;
    assert StepInPlace(left.log.steps, |left.log.steps| - 1, OpeningOf(setup), setup.env);
  }

  // ---- Replies and effects ----

  /** The flag is the truth about the sends; at most one automatic reply is tried, last, and none after a success; and
      a run that completes with something to say has said it, unless the provider is absent. */
  lemma {:induction false} RepliesAreAccounted(left: Left, err: Option<Error>, setup: Setup)
    requires JudgedRun(left, err, setup)
    ensures left.replySent <==> SomeSendSucceeded(left.log.sends)
    ensures forall i :: 0 <= i < |left.log.sends| && left.log.sends[i].origin == Auto ==>
              i == |left.log.sends| - 1 && !SomeSendSucceeded(left.log.sends[..i])
    ensures left.result.completed && left.result.outputText != "" && !left.replySent ==>
              left.log.sends != []
              && var last := left.log.sends[|left.log.sends| - 1];
                 last.origin == Auto && last.result.Err? && setup.env.unavailable(last.result.error)
  {
    hide EligibleInbound, IsPing, SendsAreFair, EffectsOf, EventsUpTo, RunsAreFair, Calls, SendsInPlace, TraceOf,
         StepsAreFair, OkRunsOf, LatestText, SomeSendSucceeded, AutoReplyDue, PreviousIdOf, ResponseIdOf, Answered;
    StepsFair(left.log, setup);
    AskedOrAnswered(left, err, setup);
    AutoRepliesAreLast(left.log.steps, left.log.sends, setup);
    if left.log.steps == [] && setup.env.list.Ok? && EligibleInbound(setup.env.list.value, setup.req.message) {
      PongSucceeds(left.log.sends);
    }
    if !SomeSendSucceeded(left.log.sends) && left.log.sends != [] {
      NoSuccess(left.log.sends);
    }
  }

  lemma {:induction false} PongSucceeds(sends: seq<SendAttempt>)
    requires |sends| == 1 && sends[0].result.Ok?
    ensures SomeSendSucceeded(sends)
  {
  }

  lemma {:induction false} NoSuccess(sends: seq<SendAttempt>)
    requires !SomeSendSucceeded(sends)
    ensures forall i :: 0 <= i < |sends| ==> sends[i].result.Err?
  {
  }

  /** Everything a run tells the outside about where it is sent stays with its own conversation and channel. */
  predicate Own(e: Effect, req: ProcessRequest) {
    match e
    case SmsSent(_, body) => req.channel == TWILIO_SMS && body != []
    case EmailSent(_, _, body) => req.channel == TWILIO_MAIL && body != []
    case Enqueued(conversation, body) => conversation == req.conversation && req.channel == DISCORD && body != []
    case Recorded(conversation, channel, body, _) =>
      conversation == req.conversation && channel == req.channel && channel != DISCORD && body != []
  }

  lemma {:induction false} SendStaysHome(setup: Setup, body: string, subject: string, k: nat)
    ensures forall x :: x in SendEffects(setup, body, subject, k) ==> Own(x, setup.req)
  {
    hide TrimSpace;
  }

  lemma {:induction false} EffectsStayHome(sends: seq<SendAttempt>, setup: Setup)
    ensures forall x :: x in EffectsOf(sends, setup) ==> Own(x, setup.req)
  {
    hide SendEffects, Own;
    if sends != [] {
      var n := |sends| - 1;
      EffectsStayHome(sends[..n], setup);
      SendStaysHome(setup, sends[n].body, sends[n].subject, n);
    }
  }
}
