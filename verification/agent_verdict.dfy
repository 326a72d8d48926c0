/** What a started run owes: how it must end, and what it must leave behind, read off the steps it took
    and the sends it made. */
module AgentVerdict {
  import opened Text
  import opened Model
  import opened AgentRun

  // ---- Sends ----

  function Or(a: Option<Error>, b: Option<Error>): Option<Error> {
    if a.Some? then a else b
  }

  function Failure<T>(r: Result<T, Error>): Option<Error> {
    if r.Err? then Some(r.error) else None
  }

  function Unless(present: bool, text: string): Option<Error> {
    if present then None else Some(Error(text))
  }

  /** The first thing that stands in the way of a send. */
  function Refusal(cfg: Config, channel: string, body: string, e: SendEnv): Option<Error> {
    var twilio := Unless(cfg.hasTwilio, "twilio sender is unavailable");
    Or(Unless(!Blank(body), "body_text is required"),
       if channel == TWILIO_SMS then Or(Failure(e.route), Or(twilio, Or(Failure(e.sms), e.record)))
       else if channel == TWILIO_MAIL then Or(Failure(e.route), Or(twilio, Or(e.email, e.record)))
       else if channel == DISCORD then Or(Unless(cfg.hasDiscord, "discord runtime is unavailable"), e.enqueue)
       else if channel == WEB then e.record
       else Some(Error("unsupported source_channel: " + channel)))
  }

  function StatusFor(channel: string): ToolStatus {
    if channel == DISCORD then Queued else if channel == WEB then Stored else Sent
  }

  /** What send k of the run comes to. */
  function SendResult(setup: Setup, body: string, k: nat): Result<ToolStatus, Error> {
    var refusal := Refusal(setup.cfg, setup.req.channel, body, setup.env.send(k));
    if refusal.Some? then Err(refusal.value) else Ok(StatusFor(setup.req.channel))
  }

  function SubjectOf(subject: string): string {
    if Blank(subject) then "Re: message" else TrimSpace(subject)
  }

  function Outgoing(req: ProcessRequest, text: seq<Byte>, subject: string, e: SendEnv): seq<Effect> {
    if req.channel == TWILIO_SMS && e.route.Ok? then [SmsSent(TrimSpace(e.route.value), text)]
    else if req.channel == TWILIO_MAIL && e.route.Ok? then
      [EmailSent(TrimSpace(e.route.value), SubjectOf(subject), text)]
    else if req.channel == DISCORD then [Enqueued(req.conversation, text)]
    else []
  }

  function Recording(req: ProcessRequest, text: seq<Byte>, e: SendEnv): seq<Effect> {
    if req.channel == DISCORD then []
    else [Recorded(req.conversation, req.channel, text,
                   if req.channel == TWILIO_SMS && e.sms.Ok? then Some(e.sms.value) else None)]
  }

  /** A message goes out when at most its recording stands in the way, and is recorded when nothing does. */
  function SendEffects(setup: Setup, body: string, subject: string, k: nat): seq<Effect> {
    var guarded := GuardOutboundBody(body, setup.cfg.maxReplyChars);
    if guarded.Err? then [] else
    var Setup(cfg, req, _, env) := setup;
    var e := env.send(k);
    (if Refusal(cfg, req.channel, body, e.(record := None)).None? then Outgoing(req, guarded.value, subject, e) else [])
    + (if Refusal(cfg, req.channel, body, e).None? then Recording(req, guarded.value, e) else [])
  }

  /** The k-th send has met the k-th answer of the outside. */
  ghost predicate SendsAreFair(sends: seq<SendAttempt>, setup: Setup) {
    forall k :: 0 <= k < |sends| ==> sends[k].result == SendResult(setup, sends[k].body, k)
  }

  function EffectsOf(sends: seq<SendAttempt>, setup: Setup): seq<Effect> {
    if sends == [] then [] else
    var n := |sends| - 1;
    EffectsOf(sends[..n], setup) + SendEffects(setup, sends[n].body, sends[n].subject, n)
  }

  ghost predicate SomeSendSucceeded(sends: seq<SendAttempt>) {
    exists i :: 0 <= i < |sends| && sends[i].result.Ok?
  }

  // ---- Tool calls ----

  /** The first thing that stands in the way of storing a user's memory. */
  function MemoryRefusal(user: Option<Uuid>, blob: string, failure: Option<Error>): Option<Error> {
    Or(Unless(user.Some?, "invalid user_id"),
       Or(Unless(user != Some(NIL), "user_id required"),
          Or(Unless(!Blank(blob), "memory_blob required"), failure)))
  }

  /** The first thing that stands in the way of reporting an issue. */
  function IssueRefusal(issueType: string, title: string, text: string, stored: Result<bool, Error>): Option<Error> {
    Or(Unless(!Blank(issueType) && !Blank(title) && !Blank(text), "issue_type, title, and body are required"),
       Failure(stored))
  }

  /** The first thing that stands in the way of a tool call that sends nothing; `k` numbers the calls of the run. */
  function ToolRefusal(call: FunctionCall, k: nat, env: Env): Option<Error> {
    var a := call.arguments;
    if call.name == "update_memory" then
      if a.ForMemory? then MemoryRefusal(a.user, a.blob, env.memory(k)) else Some(Error("invalid update_memory args"))
    else if call.name == "create_issue" then
      if a.ForIssue? then IssueRefusal(a.issueType, a.title, a.text, env.issue(k))
      else Some(Error("invalid create_issue args"))
    else if call.name == "send" then Some(Error("invalid send args"))
    else Some(Error("unknown function: " + call.name))
  }

  function StoreStatus(call: FunctionCall, k: nat, env: Env): ToolStatus {
    if call.name == "update_memory" then Updated
    else if env.issue(k) == Ok(true) then IssueCreated
    else IssueUpdated
  }

  /** A tool call has done what its name says: a send came to a send, and only an absent provider is forgiven;
      anything else succeeds just when nothing stands in its way, and fails with what does. */
  predicate Ran(run: ToolRun, k: nat, env: Env) {
    var call := run.call;
    if call.name == "send" && call.arguments.ForSend? then
      && run.sent.Some? && run.sent.value.origin == Tool
      && run.sent.value.body == call.arguments.body && run.sent.value.subject == call.arguments.subject
      && var r := run.sent.value.result;
         run.result == if r.Err? && env.unavailable(r.error) then Ok(Unavailable) else r
    else
      && run.sent.None?
      && var refusal := ToolRefusal(call, k, env);
         run.result == if refusal.Some? then Err(refusal.value) else Ok(StoreStatus(call, k, env))
  }

  // ---- Steps ----

  function Calls(step: Step): seq<FunctionCall> {
    if step.reply.Ok? then ExtractFunctionCalls(step.reply.value.output) else []
  }

  /** The calls made are the first of the response's calls, in order, and only the last may have failed. */
  ghost predicate RunsInOrder(step: Step) {
    && |step.runs| <= |Calls(step)|
    && forall i :: 0 <= i < |step.runs| ==>
         step.runs[i].call == Calls(step)[i] && (i < |step.runs| - 1 ==> step.runs[i].result.Ok?)
  }

  ghost predicate AllOk(runs: seq<ToolRun>) {
    forall i :: 0 <= i < |runs| ==> runs[i].result.Ok?
  }

  /** Every call of the response has been made and has succeeded, and there was one. */
  ghost predicate Answered(step: Step) {
    step.reply.Ok? && step.runs != [] && |step.runs| == |Calls(step)| && AllOk(step.runs)
  }

  function OutputOf(run: ToolRun): CallOutput {
    CallOutput(run.call.callId, if run.result.Ok? then run.result.value else Unavailable)
  }

  function OutputsOf(runs: seq<ToolRun>): seq<CallOutput> {
    if runs == [] then [] else OutputsOf(runs[..|runs| - 1]) + [OutputOf(runs[|runs| - 1])]
  }

  /** The request after a step: it carries the id of the response and the outputs of its calls. */
  function NextRequest(steps: seq<Step>, opening: Input): ModelRequest {
    if steps == [] then ModelRequest(opening, "") else
    var last := steps[|steps| - 1];
    ModelRequest(Answers(OutputsOf(last.runs)), if last.reply.Ok? then last.reply.value.id else "")
  }

  ghost predicate StepInPlace(steps: seq<Step>, k: nat, opening: Input, env: Env)
    requires k < |steps|
  {
    && steps[k].request == NextRequest(steps[..k], opening)
    && steps[k].reply == env.model(k) && RunsInOrder(steps[k])
    && (k < |steps| - 1 ==> Answered(steps[k]))
  }

  function OkRuns(runs: seq<ToolRun>): nat {
    if runs == [] then 0 else OkRuns(runs[..|runs| - 1]) + if runs[|runs| - 1].result.Ok? then 1 else 0
  }

  function OkRunsOf(steps: seq<Step>): nat {
    if steps == [] then 0 else OkRunsOf(steps[..|steps| - 1]) + OkRuns(steps[|steps| - 1].runs)
  }

  ghost predicate RunsAreFair(steps: seq<Step>, env: Env) {
    steps == [] ||
    var n := |steps| - 1;
    && RunsAreFair(steps[..n], env)
    && forall i :: 0 <= i < |steps[n].runs| ==> Ran(steps[n].runs[i], OkRunsOf(steps[..n]) + i, env)
  }

  ghost predicate StepsAreFair(steps: seq<Step>, opening: Input, env: Env, maxSteps: nat) {
    && |steps| <= maxSteps && RunsAreFair(steps, env)
    && forall k :: 0 <= k < |steps| ==> StepInPlace(steps, k, opening, env)
  }

  // ---- What steps leave behind ----

  function TextOf(step: Step): string {
    if step.reply.Ok? then ExtractAssistantText(step.reply.value) else ""
  }

  function LatestText(steps: seq<Step>): string {
    if steps == [] then "" else
    var text := TextOf(steps[|steps| - 1]);
    if text != "" then text else LatestText(steps[..|steps| - 1])
  }

  function RunEvents(responseId: string, runs: seq<ToolRun>): seq<Event> {
    if runs == [] then [] else
    var last := runs[|runs| - 1];
    RunEvents(responseId, runs[..|runs| - 1]) +
    if last.result.Ok? then [CallCompleted(responseId, last.call.callId, last.call.name)] else []
  }

  function StepEvents(step: Step): seq<Event> {
    if step.reply.Err? then [] else
    var id := step.reply.value.id;
    (if TextOf(step) == "" then [] else [TextDelta(id, TextOf(step))]) + RunEvents(id, step.runs)
  }

  function EventsOf(steps: seq<Step>): seq<Event> {
    if steps == [] then [] else EventsOf(steps[..|steps| - 1]) + StepEvents(steps[|steps| - 1])
  }

  function SendsIn(runs: seq<ToolRun>): seq<SendAttempt> {
    if runs == [] then [] else
    SendsIn(runs[..|runs| - 1]) + if runs[|runs| - 1].sent.Some? then [runs[|runs| - 1].sent.value] else []
  }

  function SendsOf(steps: seq<Step>): seq<SendAttempt> {
    if steps == [] then [] else SendsOf(steps[..|steps| - 1]) + SendsIn(steps[|steps| - 1].runs)
  }

  function TraceCallOf(run: ToolRun): TraceCall {
    TraceCall(run.call, if run.result.Ok? then Some(run.result.value) else None)
  }

  function TraceCallsOf(runs: seq<ToolRun>): seq<TraceCall> {
    if runs == [] then [] else TraceCallsOf(runs[..|runs| - 1]) + [TraceCallOf(runs[|runs| - 1])]
  }

  function EntryOf(n: nat, step: Step): TraceEntry {
    if step.reply.Err? then CallFailed(n, step.request.previousId, step.reply.error)
    else StepDone(n, step.reply.value.id, step.request.previousId, TraceCallsOf(step.runs))
  }

  function EntriesOf(steps: seq<Step>): seq<TraceEntry> {
    if steps == [] then [] else EntriesOf(steps[..|steps| - 1]) + [EntryOf(|steps|, steps[|steps| - 1])]
  }

  // ---- How a run ends ----

  datatype Ending =
    | ListFailed(error: Error)
    | Ineligible
    | Ponged
    | ModelFailed(error: Error)
    | ToolFailed(error: Error)
    | ReplyRefused(error: Error)
    | Concluded
    | StepsRanOut

  const STEPS_ERROR := Error("max steps reached")

  predicate IsReplyRefused(sends: seq<SendAttempt>, unavailable: Error -> bool) {
    sends != []
    && var last := sends[|sends| - 1];
       last.origin == Auto && last.result.Err? && !unavailable(last.result.error)
  }

  /** Why the run ended, by what it was told: nothing else may end it. */
  function EndingOf(steps: seq<Step>, sends: seq<SendAttempt>, setup: Setup): Ending {
    if setup.env.list.Err? then ListFailed(setup.env.list.error)
    else if !EligibleInbound(setup.env.list.value, setup.req.message) then Ineligible
    else if steps == [] then Ponged
    else
      var last := steps[|steps| - 1];
      if last.reply.Err? then ModelFailed(last.reply.error)
      else if Calls(last) == [] then
        if IsReplyRefused(sends, setup.env.unavailable) then ReplyRefused(sends[|sends| - 1].result.error)
        else Concluded
      else if last.runs != [] && last.runs[|last.runs| - 1].result.Err? then
        ToolFailed(last.runs[|last.runs| - 1].result.error)
      else StepsRanOut
  }

  function StatusOf(ending: Ending): RunStatus {
    match ending
    case Ineligible => Skipped
    case Ponged => Completed
    case Concluded => Completed
    case _ => Failed
  }

  function ErrorOf(ending: Ending): Option<Error> {
    match ending
    case Ineligible => None
    case Ponged => None
    case Concluded => None
    case StepsRanOut => Some(STEPS_ERROR)
    case ListFailed(e) => Some(e)
    case ModelFailed(e) => Some(e)
    case ToolFailed(e) => Some(e)
    case ReplyRefused(e) => Some(e)
  }

  /** Failures the listener hears of: not that of the list, nor that of the automatic reply. */
  predicate IsAnnounced(ending: Ending) {
    ending.ModelFailed? || ending.ToolFailed? || ending.StepsRanOut?
  }

  function LastId(steps: seq<Step>): string {
    if steps != [] && steps[|steps| - 1].reply.Ok? then steps[|steps| - 1].reply.value.id else ""
  }

  function LastPreviousId(steps: seq<Step>): string {
    if steps == [] then "" else steps[|steps| - 1].request.previousId
  }

  function ResponseIdOf(ending: Ending, steps: seq<Step>): string {
    if ending.Ponged? then PING_RESPONSE else if ending.StepsRanOut? then "" else LastId(steps)
  }

  function PreviousIdOf(ending: Ending, steps: seq<Step>): string {
    if ending.StepsRanOut? then LastId(steps) else LastPreviousId(steps)
  }

  function OutputTextOf(ending: Ending, steps: seq<Step>): string {
    if ending.Ponged? then "pong" else LatestText(steps)
  }

  function TerminalOf(ending: Ending, steps: seq<Step>): seq<Event> {
    if StatusOf(ending) == Completed then [ResponseCompleted(ResponseIdOf(ending, steps), OutputTextOf(ending, steps))]
    else if IsAnnounced(ending) then [ResponseFailed(ErrorOf(ending).value)]
    else []
  }

  function EventsUpTo(ending: Ending, steps: seq<Step>): seq<Event> {
    (if ending.Ponged? then [TextDelta(PING_RESPONSE, "pong")] else EventsOf(steps)) + TerminalOf(ending, steps)
  }

  function PingsOf(sends: seq<SendAttempt>): seq<SendAttempt> {
    if sends != [] && sends[0].origin == Ping then sends[..1] else []
  }

  /** A ping reply leaves an entry ahead of the steps. */
  function PingEntries(ping: seq<SendAttempt>): seq<TraceEntry> {
    if ping == [] then []
    else [PingPong(if ping[0].result.Err? then Some(ping[0].result.error) else None)]
  }

  /** A failed automatic reply leaves one before the last step, or in its place when it fails the run. */
  function TraceOf(ending: Ending, steps: seq<Step>, sends: seq<SendAttempt>): seq<TraceEntry> {
    if ending.Ineligible? then [EligibilitySkip]
    else if steps != [] && sends != [] && sends[|sends| - 1].origin == Auto && sends[|sends| - 1].result.Err? then
      var n := |steps| - 1;
      PingEntries(PingsOf(sends)) + EntriesOf(steps[..n]) +
      if ending.ReplyRefused? then [AutoSendFailed(ending.error)]
      else [AutoSendSkipped(sends[|sends| - 1].result.error), EntryOf(n + 1, steps[n])]
    else PingEntries(PingsOf(sends)) + EntriesOf(steps)
  }

  function CompletionOf(ending: Ending, steps: seq<Step>, sends: seq<SendAttempt>): Completion {
    Completion(StatusOf(ending), ResponseIdOf(ending, steps), PreviousIdOf(ending, steps), OutputTextOf(ending, steps),
               TraceOf(ending, steps, sends), ErrorOf(ending))
  }

  function ResultOf(ending: Ending, steps: seq<Step>): ProcessResult {
    var completed := StatusOf(ending) == Completed;
    ProcessResult(StatusOf(ending) != Failed, false, if completed then ResponseIdOf(ending, steps) else "",
                  OutputTextOf(ending, steps), OkRunsOf(steps), completed)
  }

  // ---- The verdict on a started run ----

  /** The run has text to reply with, its last response asks for nothing more, and nothing has been sent. */
  ghost predicate AutoReplyDue(steps: seq<Step>, before: seq<SendAttempt>) {
    steps != []
    && var last := steps[|steps| - 1];
       last.reply.Ok? && Calls(last) == [] && LatestText(steps) != "" && !SomeSendSucceeded(before)
  }

  /** A ping is answered first, the model's sends follow, and an automatic reply comes last, just when it is due. */
  ghost predicate SendsInPlace(steps: seq<Step>, sends: seq<SendAttempt>, ping: seq<SendAttempt>) {
    var before := ping + SendsOf(steps);
    if AutoReplyDue(steps, before) then
      && |sends| == |before| + 1 && sends[..|before|] == before
      && sends[|before|].origin == Auto && sends[|before|].body == LatestText(steps) && sends[|before|].subject == ""
    else sends == before
  }

  /** Just an eligible "ping" is answered on the spot, and just when that reply fails or is not called for
      is the model asked. */
  ghost predicate AskedOrPonged(steps: seq<Step>, sends: seq<SendAttempt>, setup: Setup) {
    var ping := PingsOf(sends);
    if setup.env.list.Err? || !EligibleInbound(setup.env.list.value, setup.req.message) then steps == [] && sends == []
    else
      && (ping != [] <==> IsPing(setup.env.list.value, setup.req.message))
      && (ping != [] ==> ping[0].body == "pong" && ping[0].subject == "")
      && (steps == [] <==> ping != [] && ping[0].result.Ok?)
      && (steps == [] ==> sends == ping)
      && SendsInPlace(steps, sends, ping)
  }

  function OpeningOf(setup: Setup): Input {
    Opening(if setup.env.list.Ok? then setup.env.list.value else [], setup.req.channel)
  }

  /** What the run did is what it was called to do and what the outside let it do. */
  ghost predicate Fair(steps: seq<Step>, sends: seq<SendAttempt>, effects: seq<Effect>, setup: Setup) {
    && StepsAreFair(steps, OpeningOf(setup), setup.env, setup.cfg.maxSteps)
    && AskedOrPonged(steps, sends, setup)
    && SendsAreFair(sends, setup)
    && effects == EffectsOf(sends, setup)
  }

  /** Everything a started run owes: it did what it had to, ended for the reason its steps and sends show and no
      other, and its one completion, its events, its result and its error all tell of that ending. */
  ghost predicate JudgedRun(left: Left, err: Option<Error>, setup: Setup)
  {
    var ending := EndingOf(left.log.steps, left.log.sends, setup);
    && Fair(left.log.steps, left.log.sends, left.log.effects, setup)
    && (ending.StepsRanOut? ==>
          |left.log.steps| == setup.cfg.maxSteps && Answered(left.log.steps[|left.log.steps| - 1]))
    && err == ErrorOf(ending)
    && left.log.completions == [CompletionOf(ending, left.log.steps, left.log.sends)]
    && left.log.events == (if setup.emitting then EventsUpTo(ending, left.log.steps) else [])
    && left.result == ResultOf(ending, left.log.steps)
    && (left.replySent <==> SomeSendSucceeded(left.log.sends))
  }
}
