/** One agent run from the inside: eligibility, the local ping reply, the bounded model and tool loop,
    and a log of everything the run does to the outside. */
module AgentRun {
  import opened Text
  import opened Model

  datatype Error = Error(text: string)

  datatype RunStatus = Completed | Failed | Skipped

  datatype ProcessRequest = ProcessRequest(conversation: Uuid, message: Uuid, channel: string)

  datatype ProcessResult = ProcessResult(
    enabled: bool,
    deduped: bool,
    responseId: string,
    outputText: string,
    toolCalls: nat,
    completed: bool)

  const EMPTY_RESULT := ProcessResult(false, false, "", "", 0, false)

  // ---- The model's side ----

  /** Tool arguments as decoding them for the named tool finds them. */
  datatype Arguments =
    | Undecodable
    | ForSend(body: string, subject: string)
    | ForMemory(user: Option<Uuid>, blob: string)
    | ForIssue(issueType: string, title: string, text: string, hash: string)

  datatype FunctionCall = FunctionCall(callId: string, name: string, arguments: Arguments)

  datatype Content = Content(kind: string, text: string)

  datatype OutputItem = OutputItem(kind: string, callId: string, name: string, arguments: Arguments,
                                   content: seq<Content>)

  datatype Response = Response(id: string, outputText: string, output: seq<OutputItem>)

  datatype ToolStatus = Sent | Queued | Stored | Unavailable | Updated | IssueCreated | IssueUpdated

  datatype CallOutput = CallOutput(callId: string, status: ToolStatus)

  datatype Input = Opening(messages: seq<StoredMessage>, channel: string) | Answers(outputs: seq<CallOutput>)

  datatype ModelRequest = ModelRequest(input: Input, previousId: string)

  function ExtractFunctionCalls(items: seq<OutputItem>): (calls: seq<FunctionCall>)
    ensures |calls| <= |items|
  {
    if items == [] then [] else
    var last := items[|items| - 1];
    var before := ExtractFunctionCalls(items[..|items| - 1]);
    if TrimSpace(last.kind) != "function_call" then before
    else before + [FunctionCall(TrimSpace(last.callId), TrimSpace(last.name), last.arguments)]
  }

  lemma {:induction false} CallNamesAreTrimmed(items: seq<OutputItem>)
    ensures forall c :: c in ExtractFunctionCalls(items) ==> Trimmed(c.name) && Trimmed(c.callId)
  {
    if items != [] {
      CallNamesAreTrimmed(items[..|items| - 1]);
    }
  }

  /** A response's calls are those of its parts, in order: with AFunctionCallIsKept this fixes them all. */
  lemma {:induction false} CallsConcatenate(a: seq<OutputItem>, b: seq<OutputItem>)
    ensures ExtractFunctionCalls(a + b) == ExtractFunctionCalls(a) + ExtractFunctionCalls(b)
  {
    if b == [] {
      assert a + b == a;
    } else {
      var n := |b| - 1;
      assert b == b[..n] + [b[n]] && a + b == (a + b[..n]) + [b[n]];
      CallsConcatenate(a, b[..n]);
      OneMoreItem(b[..n], b[n]);
      OneMoreItem(a + b[..n], b[n]);
    }
  }

  lemma OneMoreItem(items: seq<OutputItem>, last: OutputItem)
    ensures ExtractFunctionCalls(items + [last]) ==
            ExtractFunctionCalls(items) +
            if TrimSpace(last.kind) == "function_call"
            then [FunctionCall(TrimSpace(last.callId), TrimSpace(last.name), last.arguments)] else []
  {
    assert (items + [last])[..|items|] == items;
  }

  lemma AFunctionCallIsKept(item: OutputItem)
    ensures TrimSpace(item.kind) == "function_call" ==>
              ExtractFunctionCalls([item]) ==
              [FunctionCall(TrimSpace(item.callId), TrimSpace(item.name), item.arguments)]
    ensures TrimSpace(item.kind) != "function_call" ==> ExtractFunctionCalls([item]) == []
  {
    assert [item][..0] == [];
  }

  predicate IsTextKind(kind: string) {
    var k := ToLower(TrimSpace(kind));
    k == "output_text" || k == "text"
  }

  function JoinTexts(contents: seq<Content>, soFar: string): string {
    if contents == [] then soFar else
    var c := contents[0];
    var text := TrimSpace(c.text);
    JoinTexts(contents[1..],
              if !IsTextKind(c.kind) || text == "" then soFar else if soFar == "" then text else soFar + "\n" + text)
  }

  function JoinMessages(items: seq<OutputItem>, soFar: string): string {
    if items == [] then soFar
    else JoinMessages(items[1..], if items[0].kind == "message" then JoinTexts(items[0].content, soFar) else soFar)
  }

  function ExtractAssistantText(r: Response): (text: string)
    ensures Trimmed(text)
  {
    if !Blank(r.outputText) then TrimSpace(r.outputText) else TrimSpace(JoinMessages(r.output, ""))
  }

  predicate HasText(contents: seq<Content>) {
    exists i :: 0 <= i < |contents| && IsTextKind(contents[i].kind) && !Blank(contents[i].text)
  }

  lemma {:induction false} JoinedTexts(contents: seq<Content>, soFar: string)
    requires Trimmed(soFar)
    ensures Trimmed(JoinTexts(contents, soFar))
    ensures JoinTexts(contents, soFar) == "" <==> soFar == "" && !HasText(contents)
  {
    if contents != [] {
      var c, rest := contents[0], contents[1..];
      var text := TrimSpace(c.text);
      var longer := if !IsTextKind(c.kind) || text == "" then soFar
                    else if soFar == "" then text
                    else soFar + "\n" + text;
      JoinedTexts(rest, longer);
      assert HasText(contents) <==> (IsTextKind(c.kind) && text != "") || HasText(rest) by {
        assert forall i :: 0 <= i < |rest| ==> rest[i] == contents[i + 1];
        if HasText(contents) {
          var i :| 0 <= i < |contents| && IsTextKind(contents[i].kind) && !Blank(contents[i].text);
          assert i > 0 ==> rest[i - 1] == contents[i];
        }
      }
    }
  }

  predicate SaysSomething(items: seq<OutputItem>) {
    exists i :: 0 <= i < |items| && items[i].kind == "message" && HasText(items[i].content)
  }

  lemma {:induction false} JoinedMessages(items: seq<OutputItem>, soFar: string)
    requires Trimmed(soFar)
    ensures Trimmed(JoinMessages(items, soFar))
    ensures JoinMessages(items, soFar) == "" <==> soFar == "" && !SaysSomething(items)
  {
    if items != [] {
      var item, rest := items[0], items[1..];
      JoinedTexts(item.content, soFar);
      JoinedMessages(rest, if item.kind == "message" then JoinTexts(item.content, soFar) else soFar);
      assert SaysSomething(items) <==> (item.kind == "message" && HasText(item.content)) || SaysSomething(rest) by {
        assert forall i :: 0 <= i < |rest| ==> rest[i] == items[i + 1];
        if SaysSomething(items) {
          var i :| 0 <= i < |items| && items[i].kind == "message" && HasText(items[i].content);
          assert i > 0 ==> rest[i - 1] == items[i];
        }
      }
    }
  }

  /** A run gets a text to reply with from a response exactly when the response says something anywhere. */
  lemma TextIffAnythingIsSaid(r: Response)
    ensures ExtractAssistantText(r) != "" <==> !Blank(r.outputText) || SaysSomething(r.output)
  {
    JoinedMessages(r.output, "");
  }

  // ---- What the run leaves behind ----

  datatype TraceCall = TraceCall(call: FunctionCall, status: Option<ToolStatus>)

  datatype TraceEntry =
    | EligibilitySkip
    | PingPong(failure: Option<Error>)
    | CallFailed(step: nat, previousId: string, error: Error)
    | StepDone(step: nat, responseId: string, previousId: string, calls: seq<TraceCall>)
    | AutoSendSkipped(error: Error)
    | AutoSendFailed(error: Error)

  datatype Event =
    | TextDelta(responseId: string, delta: string)
    | CallCompleted(responseId: string, callId: string, name: string)
    | ResponseFailed(error: Error)
    | ResponseCompleted(responseId: string, outputText: string)

  /** Who asked for a send: the local ping reply, the automatic reply at the end, or the model. */
  datatype Origin = Ping | Auto | Tool

  datatype SendAttempt = SendAttempt(origin: Origin, body: string, subject: string, result: Result<ToolStatus, Error>)

  /** One tool call made, with the send it came to, if it came to one. */
  datatype ToolRun = ToolRun(call: FunctionCall, sent: Option<SendAttempt>, result: Result<ToolStatus, Error>)

  /** A request to the model, what came back, and the tool calls made for it. */
  datatype Step = Step(request: ModelRequest, reply: Result<Response, Error>, runs: seq<ToolRun>)

  datatype Effect =
    | SmsSent(to: string, body: seq<Byte>)
    | EmailSent(to: string, subject: string, body: seq<Byte>)
    | Enqueued(conversation: Uuid, body: seq<Byte>)
    | Recorded(conversation: Uuid, channel: string, body: seq<Byte>, provider: Option<string>)

  datatype Completion = Completion(
    status: RunStatus,
    responseId: string,
    previousId: string,
    outputText: string,
    trace: seq<TraceEntry>,
    error: Option<Error>)

  datatype Log = Log(
    steps: seq<Step>,
    events: seq<Event>,
    sends: seq<SendAttempt>,
    effects: seq<Effect>,
    completions: seq<Completion>)

  const EMPTY_LOG := Log([], [], [], [], [])

  // ---- The outside ----

  /** How the outside answers one send. */
  datatype SendEnv = SendEnv(
    route: Result<string, Error>,
    sms: Result<string, Error>,
    email: Option<Error>,
    enqueue: Option<Error>,
    record: Option<Error>)

  datatype StartReply = StartFails(error: Error) | AlreadyStarted | Claimed

  /** The k-th model call, send and store call of the run get the k-th answer; `unavailable` is the test
      on an error's text that tells an absent provider from a failing one. */
  datatype Env = Env(
    lock: Option<Error>,
    start: StartReply,
    list: Result<seq<StoredMessage>, Error>,
    model: nat -> Result<Response, Error>,
    send: nat -> SendEnv,
    memory: nat -> Option<Error>,
    issue: nat -> Result<bool, Error>,
    unavailable: Error -> bool)

  datatype Config = Config(enabled: bool, maxSteps: nat, hasTwilio: bool, hasDiscord: bool, maxReplyChars: nat)

  /** What one call is given: its configuration and request, whether anybody listens to its events, and how the outside
      answers it. */
  datatype Setup = Setup(cfg: Config, req: ProcessRequest, emitting: bool, env: Env)

  /** What a call has left so far: its log, its result, and whether it has sent anything. */
  datatype Left = Left(log: Log, result: ProcessResult, replySent: bool)

  const PING_RESPONSE := "local:ping-pong"

  // ---- Pure decisions ----

  function GuardOutboundBody(body: string, maxReplyChars: nat): (r: Result<seq<Byte>, Error>)
    ensures r.Ok? <==> !Blank(body)
    ensures r.Ok? ==> r.value != [] && r.value <= Encode(TrimSpace(body))
                      && (maxReplyChars > 0 ==> |r.value| <= maxReplyChars)
                      && (r.value != Encode(TrimSpace(body)) ==> |r.value| == maxReplyChars)
  {
    var bytes := Encode(TrimSpace(body));
    if bytes == [] then Err(Error("empty outbound body"))
    else Ok(if maxReplyChars > 0 && |bytes| > maxReplyChars then bytes[..maxReplyChars] else bytes)
  }

  /** The limit, for all its name, counts bytes: what goes out is whole characters exactly when the body fits, or the
      first byte left out starts a character. */
  lemma {:induction false} WholeCharactersIff(body: string, maxReplyChars: nat)
    requires !Blank(body) && maxReplyChars > 0
    ensures var text, out := TrimSpace(body), GuardOutboundBody(body, maxReplyChars).value;
            (exists k :: 0 <= k <= |text| && out == Encode(text[..k])) <==>
            |Encode(text)| <= maxReplyChars || !IsContinuation(Encode(text)[maxReplyChars])
  {
    hide TrimSpace, Encode, IsContinuation;
    var text, out := TrimSpace(body), GuardOutboundBody(body, maxReplyChars).value;
    assert text[..|text|] == text;
    if |Encode(text)| > maxReplyChars {
      CharactersMeetAtStarts(text, maxReplyChars);
    }
    forall k | 0 <= k <= |text| ensures Encode(text[..k]) <= Encode(text) {
      EncodesPrefixes(text, k);
    }
  }

  /** An "a" and n letters of two bytes each. */
  function OddText(n: nat): string {
    "a" + seq(n, _ => '\U{00E9}')
  }

  lemma {:induction false} OddTextIsOdd(n: nat)
    ensures Trimmed(OddText(n)) && !Blank(OddText(n))
    ensures |Encode(OddText(n))| == 2 * n + 1
    ensures n > 0 ==> IsContinuation(Encode(OddText(n))[2 * n])
  {
    if n > 0 {
      OddTextIsOdd(n - 1);
      assert OddText(n)[..n] == OddText(n - 1) && OddText(n)[n] == '\U{00E9}';
    } else {
      assert OddText(0) == "a" && "a"[..0] == "";
    }
  }

  /** Such a text, cut at an even limit, as the service's own 2000 is, ends in half a letter. */
  lemma {:induction false} HalfALetterIsSent(n: nat, k: nat)
    requires n > 0 && k <= |OddText(n)|
    ensures GuardOutboundBody(OddText(n), 2 * n).Ok?
    ensures GuardOutboundBody(OddText(n), 2 * n).value != Encode(OddText(n)[..k])
  {
    hide Encode, OddText, IsContinuation, GuardOutboundBody;
    OddTextIsOdd(n);
    WholeCharactersIff(OddText(n), 2 * n);
  }

  /** A body in ASCII is never cut inside a character. */
  lemma {:induction false} AsciiIsCutBetweenCharacters(body: string, maxReplyChars: nat)
    requires !Blank(body) && forall i :: 0 <= i < |body| ==> body[i] < '\U{0080}'
    ensures exists k :: 0 <= k <= |TrimSpace(body)| &&
                        GuardOutboundBody(body, maxReplyChars).value == Encode(TrimSpace(body)[..k])
  {
    var text, bytes := TrimSpace(body), Encode(TrimSpace(body));
    AsciiIsOneByteEach(text);
    var k := if maxReplyChars > 0 && |bytes| > maxReplyChars then maxReplyChars else |text|;
    EncodesPrefixes(text, k);
    AsciiIsOneByteEach(text[..k]);
    assert GuardOutboundBody(body, maxReplyChars).value == Encode(text[..k]);
  }

  predicate ToolSendSucceeded(status: ToolStatus) {
    status.Sent? || status.Queued? || status.Stored?
  }

  predicate IsOwnNewest(messages: seq<StoredMessage>, message: Uuid) {
    messages != [] && messages[|messages| - 1].id == message && messages[|messages| - 1].direction == Inbound
  }

  predicate EligibleInbound(messages: seq<StoredMessage>, message: Uuid) {
    IsOwnNewest(messages, message)
    && var last := messages[|messages| - 1];
       var body := ToLower(TrimSpace(last.body));
       var source := ToLower(TrimSpace(last.identity));
       && body != ""
       && !HasPrefix(body, "[system]") && !HasPrefix(body, "[internal]")
       && !HasPrefix(source, "system:") && !HasPrefix(source, "internal:")
  }

  predicate IsPing(messages: seq<StoredMessage>, message: Uuid) {
    IsOwnNewest(messages, message) && ToLower(TrimSpace(messages[|messages| - 1].body)) == "ping"
  }
}
