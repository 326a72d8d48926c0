# Verification of the user-intelligence message and agent core

user-intelligence takes messages from web, SMS, mail and Discord, keeps them in Postgres, and lets an agent
answer them. This project models the parts of it that keep promises across concurrent callers, failing
statements, crashes and retries, and proves those promises for every run.

## What is modelled

- **Agent runs.** `agent_run.dfy` has the entities and pure decisions of a `ProcessSync` call. `agent_service.dfy`
  holds one call from the inside: an object with the variables the lock body shares (`result`, `trace`,
  `replySent`, and a log of steps, events, sends, effects and completions) and a method per piece of the body. The
  model, the senders and the store answer as they like, through an `Env`. `agent_verdict.dfy` says from the steps
  and sends alone how the run must have ended and what it must have left behind; `agent_story.dfy` has the proofs
  that every way through the body meets that verdict; `agent_theorems.dfy` draws the consequences.
  `agent_protocol.dfy` and `agent_protocol_theorems.dfy` hold any number of calls around one database: lock, claim,
  list, verdict, work, completion, unlock, with messages arriving in between and statements that fail or whose
  answer is lost. The two levels meet twice: `agent_refinement.dfy` shows that a call run alone is a run of the
  protocol, and in every interleaving each caller ends its run as its own list calls for, which is what one call
  is proved to do.
- **Ingest.** `ingest.dfy` is `Receive` and `RecordOutbound` statement by statement, any number of them
  interleaved, with unique keys, waiting inserts, aborted transactions and commits whose answer is lost.
  `ingest_proofs.dfy` has the invariant, `ingest_theorems.dfy` the results. `store.dfy` is the same two calls as
  methods that change the tables, with every statement free to fail; each ends in the tables and the answer of
  its own statements in the machine of `ingest.dfy`, after any run that leaves no transaction open.
- **Discord.** `routing.dfy` leads from a gateway event to a conversation key and from a stored message back to
  a channel; `send_queue.dfy` is the reply queue with its retries; `discord_paths.dfy` puts ingest and routing
  together; `limiter.dfy` is the rate limiter.
- **Shards.** `leases.dfy` is the lease row per shard, `shards.dfy` one runtime's reconcile pass and `Stop`,
  `shard_protocol.dfy` many processes with failing calls, lost answers and crashes.
- **The rest.** `issues.dfy` (deduplicated issue reports), `read.dfy` (the tail of a conversation),
  `signature.dfy` (the text under a Twilio signature), with `text.dfy` and `model.dfy` underneath.

State machines are total functions `Do(state, action)` folded over a sequence of actions by `Run`; "every run"
is every sequence of actions. Code that changes variables, maps or arrays in place is methods on classes and
arrays.

## What came out that the code or its documentation does not say

- The limiter's bound is sharper than twice the limit: an interval of one window's length lets through at most
  `2 * max - 1` calls, which every limit reaches whose window is longer than the smallest unit of time. At the zero
  instant of `time.Time` it limits nothing, and that is the only exception.
- A denied call has exactly `max` acceptances behind it since its window opened. Counted over the window's length before
  the call itself it is exactly `max` only for a limit of one call or a window of the smallest unit; otherwise there
  can be `2 * max - 1`.
- The look-ups before and after the insert use the raw provider id, the insert stores the trimmed one: a call
  repeated with an untrimmed id is never recognised as a duplicate. It fails instead, in every run. The normalisers
  trim, so Discord events are safe.
- The re-read after a lost race for a new conversation runs in an aborted transaction, so the loser's call
  fails. The same holds for a participant the host does not know: the foreign-key error is swallowed, the commit
  then fails.
- A failing list and a failing automatic reply end a run without a `response.failed` event; every other failure has
  one.
- An issue report that ends in an error may have been counted, when the connection went before the answer came.
- Of the ids in a conversation key only the guild id has to be free of colons. With a colon there, two channels
  can share a conversation and a reply can be posted in the wrong one: exactly when one of the two guild ids extends
  the other by a colon and a thread or channel label.
- The limit on reply characters counts bytes, so a reply outside ASCII can end in half a character: exactly when it
  is over the limit and the first byte left out does not start a character, as with an "a" and a thousand letters
  of two bytes each under the service's own limit of 2000.
- A send job that fails for good waits nine more seconds after its last attempt: 14 seconds in all.
- `RecordOutbound` never compares the channel of the conversation with the one it is given. That they agree in
  every reachable state rests on its callers alone: two calls suffice to break it.

## Model

| member | source | states |
|---|---|---|
| `AgentService.ProcessSync` | internal/agent/service.go:156-402 | a call that claims its message does exactly what its list, the model, the tools and the senders call for: a listed, eligible message is answered by a ping reply that went out or by asking the model; the run fails exactly for a failed list, model call, tool call or automatic reply or for running out of steps, with that very error, and is skipped exactly for an ineligible message; its one completion, its events, its result, its sends and its effects are determined by the steps it took; a call that gets no claim leaves nothing, and says by its error and flags why |
| `AgentService.Run.constructor` | internal/agent/service.go:177-193 | a run starts with an empty result, trace and log and no reply sent |
| `AgentService.Run.Body` | internal/agent/service.go:204-222 | the lock body of a claimed run ends judged on every path, whatever the list, the model, the tools and the senders answer |
| `AgentService.Run.AnswerMessage` | internal/agent/service.go:219-250 | an eligible message is answered without the model exactly when it is a bare ping whose reply goes out; otherwise the model is asked, and the run ends judged |
| `AgentService.Run.ModelLoop` | internal/agent/service.go:224-377 | at most MaxSteps requests, and running out of them is a judged failure |
| `AgentService.Run.OneStep` | internal/agent/service.go:229-371 | one request to the model: the run ends judged, or the next request carries this response's id and answers its calls |
| `AgentService.Run.UseTools` | internal/agent/service.go:310-371 | a response's function calls are made, traced and answered, or the run ends judged with the first failure |
| `AgentService.Run.RunCalls` | internal/agent/service.go:310-360 | the calls made are the first of the response, in order, up to the first that fails; each success is reported, and a failure is followed by its failure event and nothing else |
| `AgentService.Run.RunCall` | internal/agent/service.go:313-347 | one tool call: counted, reported by a completion event and flagged when it sent something, or answered by one failure event |
| `AgentService.Run.ExecuteTool` | internal/agent/service.go:427-458 | only "send" with decodable arguments sends; unknown names and undecodable arguments are errors; a send refused for an absent provider is a skipped send, no error and no reply; the other tools succeed exactly when nothing stands in their way, and fail with the first thing that does, the store's own error last |
| `AgentService.Run.ToolSend` | internal/agent/service.go:460-545 | a send succeeds exactly when nothing stands in its way, fails with the first thing that does, and leaves the effects of just the steps it got to: the message goes out before it is recorded, with the guarded body |
| `AgentService.Run.SendSms` | internal/agent/service.go:472-495 | succeeds exactly with a route, a sender, an accepting provider and a record, else fails with the first that is missing; the SMS goes to the trimmed route and is recorded with the provider's id only when all went well |
| `AgentService.Run.SendMail` | internal/agent/service.go:496-521 | the same for mail, with the trimmed subject or the default one and no provider id |
| `AgentService.Run.SendDiscord` | internal/agent/service.go:522-529 | succeeds exactly with a runtime that takes the job, which is then queued for the request's conversation and not recorded |
| `AgentService.Run.StoreForWeb` | internal/agent/service.go:530-541 | succeeds exactly when the record is made, and does nothing else |
| `AgentService.Run.UpdateMemory` | internal/agent/service.go:547-561 | succeeds exactly for a parsed, non-nil user, a non-blank blob and a store that takes it, and fails with the first of these that is missing or the store's own error |
| `AgentService.Run.CreateIssue` | internal/agent/service.go:563-590 | succeeds exactly for non-blank fields and a store that takes it, tells new from repeated, and otherwise fails with the first reason or the store's own error |
| `AgentService.Run.SimplePingPong` | internal/agent/service.go:766-820 | handled exactly when the eligible message is a bare ping and the reply goes out; then the result, trace, flag and two events are those of a completed run; otherwise the model loop finds everything ready, with only the failed try to its account |
| `AgentService.Run.AutoReply` | internal/agent/service.go:273-293 | tried exactly when the run has text and nothing has been sent, with that text and no subject; only an absent provider is forgiven, and the trace notes it |
| `AgentService.Run.Conclude` | internal/agent/service.go:272-308 | a response without function calls ends the run judged; a failed automatic reply ends it without a terminal event, otherwise the completion event is the last |
| `AgentService.Run.Finish` | internal/agent/service.go:295-307 | completion, result and last event of a completed run agree; a failed one gets neither result nor event |
| `AgentService.Run.FailOnCall` | internal/agent/service.go:241-250 | a failed model call ends the run judged, with one failure event last |
| `AgentService.Run.FailOnTool` | internal/agent/service.go:331-334 | a failed tool call ends the run judged, with the response's id, the id before it and the trace of the calls made so far |
| `AgentService.Run.FailOnSteps` | internal/agent/service.go:374-377 | running out of steps ends the run judged, with one failure event last, no response id and the last response's id as previous id |
| `AgentService.Run.Skip` | internal/agent/service.go:209-217 | an ineligible message is completed as skipped, without error |
| `AgentService.Run.NoteText` | internal/agent/service.go:259-269 | text replaces the run's output text, no text leaves it |
| `AgentRun.CallsConcatenate` | internal/agent/service.go:704-717 | function calls are extracted item by item, in order |
| `AgentRun.AFunctionCallIsKept` | internal/agent/service.go:706-714 | an item is a function call exactly by its trimmed type, and is kept with trimmed id and name |
| `AgentRun.CallNamesAreTrimmed` | internal/agent/service.go:710-713 | names and call ids are trimmed, so comparing with "send" before and after trimming agrees |
| `AgentRun.TextIffAnythingIsSaid` | internal/agent/service.go:679-702 | a response yields a text exactly when its output text or some text content of a message item is not blank |
| `AgentRun.GuardOutboundBody` | internal/agent/service.go:822-831 | refuses exactly blank bodies; otherwise the trimmed body's UTF-8 bytes or a prefix of them, cut only at the limit |
| `AgentRun.WholeCharactersIff` | internal/agent/service.go:827-829 | what is sent is whole characters exactly when the body fits or the first byte left out starts a character |
| `AgentRun.HalfALetterIsSent` | internal/agent/service.go:827-829 | an "a" and n two-byte letters, under a limit of 2n, are sent with the last letter cut in half, for every n > 0 |
| `Text.CharactersMeetAtStarts` | internal/agent/service.go:827-829 | a place in the bytes of a text lies between two characters exactly when the byte there starts one |
| `AgentRun.AsciiIsCutBetweenCharacters` | internal/agent/service.go:827-829 | an ASCII body is never cut inside a character |
| `AgentTheorems.AskedOrAnswered` | internal/agent/service.go:204-240 | a listed, eligible message is put to the model with the listed messages as its opening or answered by one ping reply that went out; any other leaves no request, send, effect or event |
| `AgentTheorems.CompletedOnceAsListed` | internal/agent/service.go:194-222 | a claimed run completes exactly once: failed when the list failed, skipped exactly when the list does not end in its own eligible message |
| `AgentTheorems.VerdictsAgree` | internal/agent/service.go:194-402 | error, status and result flag agree; a completed run has its completion event last; a failing model call, tool call or step limit has its failure event last; a failed list and a failed automatic reply have no terminal event; no other event is terminal |
| `AgentTheorems.TalliesAgree` | internal/agent/service.go:310-362 | the result's count, the completion events and the stored trace report the same successful tool calls in the same order |
| `AgentTheorems.ChainIsFaithful` | internal/agent/service.go:224-240 | request k + 1 carries the id of response k and answers exactly its function calls, one output each, same call id, same order, with what the call came to; at most MaxSteps requests |
| `AgentTheorems.IdsAreTheTail` | internal/agent/service.go:241-377 | the ids completed are those of the last exchange; without an answer, or without a step left to use it in, they are the id the next request would have carried |
| `AgentTheorems.RepliesAreAccounted` | internal/agent/service.go:272-293 | the sent flag is true exactly when some send succeeded; an automatic reply comes last and only when nothing was sent; a completed run with text has sent something unless the provider is absent |
| `AgentTheorems.EffectsStayHome` | internal/agent/service.go:460-545 | nothing ever goes to another conversation or channel, or with an empty body |
| `AgentStory.AnsweredStepIsReady` | internal/agent/service.go:361-371 | a step whose calls all succeeded leaves trace, text, events, sends and next request as the loop needs them |
| `AgentStory.CallFailureIsJudged` | internal/agent/service.go:241-250 | from any state between two steps, what the code does after a failed model call meets the whole verdict |
| `AgentStory.ToolFailureIsJudged` | internal/agent/service.go:314-335 | the same after a failed tool call |
| `AgentStory.StepsRunOutIsJudged` | internal/agent/service.go:374-377 | the same after the last step |
| `AgentStory.RestIsJudged` | internal/agent/service.go:272-307 | the same after a response without function calls, for every outcome of the automatic reply |
| `AgentProtocol.LockIsSharedIffFirstHalfAgrees` | internal/db/agent.go:251-255 | two conversations share an advisory lock exactly when the first eight bytes of their ids agree, and the key is a signed 64-bit number |
| `AgentProtocol.EveryRunKeepsInv` | internal/db/agent.go:45-107 | in every run the holder of a lock is the one inside, a claimed row is its caller's, and inbound messages and run ids are claimed once |
| `AgentProtocolTheorems.EveryRunKeepsOrder` | internal/agent/service.go:204-217 | in every run each message that has passed eligibility precedes the next one of its conversation |
| `AgentProtocolTheorems.LockBodiesNeverOverlap` | internal/db/agent.go:59-66 | the lock bodies of one conversation never overlap |
| `AgentProtocolTheorems.PassedRunsAdvance` | internal/agent/service.go:833-840 | runs pass eligibility in strictly increasing (created_at, id) order of their inbound messages |
| `AgentProtocolTheorems.OneRunPerMessage` | internal/db/agent.go:80-88 | one inbound message is claimed by at most one caller, whatever conversation and timing the callers use |
| `AgentProtocolTheorems.PassedMessagesAreDistinct` | internal/agent/service.go:180-190 | no message passes eligibility twice |
| `AgentProtocolTheorems.CompletedExactlyOnce` | internal/agent/service.go:194-222 | a claimed run has been completed once when its caller leaves, and never twice |
| `AgentProtocolTheorems.TerminalIsFinal` | internal/db/agent.go:128-139 | a run row stays, and once terminal never changes, although the UPDATE asks for no status |
| `AgentProtocolTheorems.EveryCallEndsAsListed` | internal/agent/service.go:204-222 | however calls interleave, a call that has completed its run gave it the status that its own list calls for, and its row shows that status or, if it could not be written, still runs |
| `AgentProtocolTheorems.ListedTail` | internal/db/read.go:15-21 | the last listed message is the newest of the conversation at that moment, and an empty list means an empty conversation |
| `AgentRefinement.UndisturbedCallIsARunOfTheProtocol` | internal/agent/service.go:179-222 | a claimed call with the verdict of `ProcessSync`, run alone, is the protocol's moves: same claim, same final status, as many completions, same passing of eligibility, lock given back; an unclaimed one leaves nothing |
| `IngestProofs.EveryRunKeepsInv` | internal/db/store.go:69-114 | in every interleaving the unique keys hold, uncommitted rows clash with nothing, and every answer names a stored row of its request |
| `IngestTheorems.DuplicatesShareOneRow` | internal/db/store.go:58-91 | calls with one channel and one trimmed provider id have at most one row; all successes return that row and its conversation; at most one says it is new |
| `IngestTheorems.DuplicateRecognisedIffTrimmed` | internal/db/store.go:58-67 | a look-up for an id that is already stored succeeds exactly when the id given is trimmed |
| `IngestTheorems.TablesChangeByWholeRequests` | internal/db/store.go:69-114 | the tables change only by the commit of one whole request of a call that had written nothing |
| `IngestTheorems.CommitWritesTheRequest` | internal/db/store.go:75-114 | a commit adds one message under the unique conversation for its key, with that conversation's time stamp and participant, and changes nothing else |
| `IngestTheorems.WroteCountsCommits` | internal/db/store.go:106-108 | no call writes twice |
| `IngestTheorems.AnswersMatchWrites` | internal/db/store.go:106-114 | a new success has written once; a duplicate or an error never, unless the commit's answer was lost |
| `IngestTheorems.DoomedCallsFail` | internal/db/store.go:106-149 | over every run, a call whose transaction is aborted with statements to come, or which has failed, never writes and never succeeds |
| `IngestTheorems.LosersOfConversationRaceFail` | internal/db/store.go:129-149 | an insert of a conversation that is carried out loses exactly when the key has been committed meanwhile; then the call fails in every continuation, although it reads the conversation again |
| `IngestTheorems.UnknownUsersFailTheirCall` | internal/db/store.go:191-205 | a participant statement leaves its call able to succeed exactly when it is carried out: a foreign-key error is swallowed, and the call fails in every continuation |
| `IngestTheorems.UntrimmedRepeatsFail` | internal/db/store.go:58-91 | over every run, a call that starts with an untrimmed id whose trimmed form is stored never writes and can only return an error |
| `IngestTheorems.StoredMessagesMatchTheirConversation` | internal/db/discord.go:60-98 | with outbound requests built from earlier answers, every stored message has its conversation's channel |
| `IngestTheorems.OutboundKeepsAgreementIffItsChannelMatches` | internal/db/discord.go:75-98 | whether an outbound commit keeps channel agreement depends on its request alone, both ways |
| `IngestTheorems.AgreementCanBreak` | internal/db/discord.go:60-98 | for any two channels, a first message through one and then an outbound message through the other for its conversation both succeed, and break channel agreement |
| `Ingest.StoredProvider` | internal/db/store.go:221-226 | a stored provider id is trimmed and not empty |
| `StoreCalls.Store.Receive` | internal/db/store.go:47-115 | all or nothing; with every statement carried out it succeeds exactly for a well-formed request that repeats an id as stored, or brings a new one from a known user or nobody; an error has one of the listed reasons; tables and answer are those of the statement machine of `ingest.dfy` run alone |
| `StoreCalls.Store.RecordOutbound` | internal/db/discord.go:29-127 | the same for an outbound message, which brings a new id exactly to a conversation that exists |
| `StoreCalls.Store.GetOrCreateConversation` | internal/db/store.go:117-151 | the conversation with the channel and key, found or made in the transaction |
| `StoreCalls.Store.InsertRow` | internal/db/store.go:153-189 | a unique violation exactly when the trimmed id is already stored; otherwise the row is the request's |
| `StoreCalls.Store.PreCheckDuplicate` | internal/db/store.go:58-67 | with the query carried out, an answer exactly when the raw id is stored, and then the stored row; an error only from a failed query |
| `StoreCalls.Store.FindExistingByProviderMessageId` | internal/db/store.go:207-219 | the row with the channel and provider id, if there is one |
| `StoreCalls.Store.Finish` | internal/db/store.go:80-114 | insert, time stamp, participant and commit: everything or nothing; with every statement carried out, success exactly for a new trimmed id and a known user |
| `StoreCalls.Store.RecoverDuplicate` | internal/db/store.go:80-91 | after a unique violation, an error whenever the raw id is not itself stored |
| `StoreCalls.Store.LinkAndCommit` | internal/db/store.go:97-114 | participant and commit: with both carried out, success exactly for a known user; an unknown one leaves the tables alone |
| `StoreCalls.UntrimmedRepeatFails` | internal/db/store.go:58-91 | a call that keeps `Atomic` and repeats a stored id with white space around it fails and leaves the tables as they were |
| `StoreCalls.CallIsARunOfTheMachine` | internal/db/store.go:47-115 | after any run that leaves no transaction open, the statements of a call alone lead the machine of all calls to the tables and the answer that `Store.Receive` and `Store.RecordOutbound` end with, again with none open |
| `Routing.LatestDiscordReplyTarget` | internal/db/discord.go:129-184 | the target of some newest inbound Discord message of the conversation; none exactly when there is no such message |
| `Routing.AcceptedIsWellKeyed` | internal/providers/discord/normalize.go:20-82 | every accepted event yields trimmed ids and body, a provider id equal to the message id, and a key made of exactly the context it stores |
| `Routing.WhoIsHeard` | internal/providers/discord/normalize.go:20-122 | a message is accepted exactly when it is a person's, not a bot's or blank, and is direct, or comes from an allowed guild (all, when none is listed) and addresses the bot in its mention list, by its name after an "@" or by its tag |
| `Routing.AnsweredWhereItWasPosted` | internal/providers/discord/normalize.go:49-56 | a message's destination is its thread, else the thread's parent, else its channel |
| `Routing.SameKeySameKind` | internal/providers/discord/normalize.go:84-97 | direct and guild messages never share a conversation |
| `Routing.SameKeySameAuthor` | internal/providers/discord/normalize.go:90-92 | a direct conversation has one author |
| `Routing.SameDestinationIffSameGuild` | internal/providers/discord/normalize.go:93-96 | guild messages of one conversation have one destination exactly when they come from one guild |
| `Routing.ColonFreeGuildsShareDestination` | internal/providers/discord/normalize.go:84-97 | guild ids without a colon keep a conversation in one channel or thread |
| `Routing.GuildsAreDivertedIff` | internal/providers/discord/normalize.go:84-97 | accepted messages of two guild ids can share a conversation and be answered in different places exactly when one id is the other, a colon, and a text that opens as a thread or channel label |
| `Routing.PlanFollowsContext` | internal/providers/discord/runtime.go:473-486 | the plan for a stored message goes to its destination and refers to that message there |
| `Routing.ReplyCannotBeDiverted` | internal/providers/discord/runtime.go:443-470 | any two candidate targets of one conversation lead to one place, or for a direct conversation to one author |
| `Routing.GuildPlanIsStable` | internal/providers/discord/runtime.go:466-471 | the plan for any candidate goes where a given message was written |
| `DiscordPaths.RedeliveredEventIsStoredOnce` | internal/providers/discord/runtime.go:311-354 | an event delivered twice, even to different processes, is stored once |
| `DiscordPaths.EveryDiscordRowIsFromAnEvent` | internal/providers/discord/runtime.go:345-349 | over every run of the ingest calls, every inbound Discord row keeps what was made of some event, under the conversation with its key |
| `DiscordPaths.ReplyIsPostedWhereTheQuestionWas` | internal/providers/discord/runtime.go:372-384 | over every run of the ingest calls, each attempt of a guild reply is posted where the message it answers was posted |
| `DiscordPaths.DirectReplyGoesToItsAuthor` | internal/providers/discord/runtime.go:372-384 | the same for direct conversations: every attempt is for the author of the message it answers |
| `SendQueue.SendRuntime.constructor` | internal/providers/discord/runtime.go:105-115 | a new runtime has an empty queue and nothing enqueued or finished |
| `SendQueue.SendRuntime.EnqueueReply` | internal/providers/discord/runtime.go:192-208 | queued exactly when conversation and body are given, the caller has not given up and there is room; the trimmed job then goes to the end, otherwise nothing changes |
| `SendQueue.SendRuntime.ProcessSendJob` | internal/providers/discord/runtime.go:372-435 | the job is given up without a send exactly when the query fails or finds no target; otherwise attempts go to the latest target, meet the given answers one by one, end at the first success, the first stop or the third failure, and the fate, the waits and the one record follow |
| `SendQueue.SendRuntime.SendWithRetries` | internal/providers/discord/runtime.go:382-407 | the same for a given target: no attempt after a success or a stop, and the waits add up to the squares of the failed attempts |
| `SendQueue.SendRuntime.TakeNext` | internal/providers/discord/runtime.go:360-371 | the oldest job leaves the queue and has been seen through with the turn's own table and answers |
| `SendQueue.SendRuntime.SendLoop` | internal/providers/discord/runtime.go:360-370 | queue, arrivals and attempts are exactly those the turns make of the queue: each turn that meets a job sees that job through with its own answers, in order, and nothing is attempted or queued once the runtime stops |
| `SendQueue.NothingAfterStop` | internal/providers/discord/runtime.go:360-370 | once the runtime has stopped no turn has any effect |
| `SendQueue.TakesEmptyTheQueue` | internal/providers/discord/runtime.go:360-370 | a loop that keeps running works its queue off, one job a turn, oldest first |
| `SendQueue.FateIsDetermined` | internal/providers/discord/runtime.go:382-428 | target and answers determine a finished job: its attempts, its fate, its waits and its record |
| `SendQueue.FinishedInOrderOfArrival` | internal/providers/discord/runtime.go:201-207 | the k-th job finished is the k-th enqueued |
| `SendQueue.BackoffIsPyramidal` | internal/providers/discord/runtime.go:388-399 | n failed attempts wait n(n+1)(2n+1)/6 seconds |
| `SendQueue.FailingJobWaits14Seconds` | internal/providers/discord/runtime.go:383-407 | a job that fails every time has waited 14 seconds |
| `SendQueue.RecordReadsBackAsItsTarget` | internal/providers/discord/runtime.go:409-428 | the record of a reply reads back as the very target it was sent to, with the reply's id and the bot as author |
| `SendQueue.GuildReplyReachesItsQuestion` | internal/providers/discord/runtime.go:372-384 | whichever message is the latest at dequeue time, every attempt goes where the question was written |
| `Limiter.SlidingCounter.constructor` | internal/providers/discord/policy.go:27-31 | a new limiter has no buckets |
| `Limiter.NewSlidingCounter` | internal/providers/discord/policy.go:20-32 | no limiter exactly for a limit that is not positive; a window that is not positive becomes a minute |
| `Limiter.SlidingCounter.Allow` | internal/providers/discord/policy.go:38-55 | over the calls a limiter has had, the verdict is whether the call is among the first max of its window; an empty key always passes |
| `Limiter.AllowOn` | internal/providers/discord/policy.go:34-37 | a nil limiter lets everything through, any other decides |
| `Limiter.BucketIsWindow` | internal/providers/discord/policy.go:44-54 | a bucket holds the start of the key's window and its calls, capped at the limit |
| `Limiter.AcceptedIffAmongFirstOfWindow` | internal/providers/discord/policy.go:45-55 | a call is let through exactly when it is among the first max of its window |
| `Limiter.LessThanTwiceTheLimit` | internal/providers/discord/policy.go:34-56 | when no call on the key comes at the zero instant, every interval of one window's length lets through fewer than 2*max calls on it |
| `Limiter.OneLessThanTwiceTheLimitIsReached` | internal/providers/discord/policy.go:34-56 | for every limit whose window is longer than the smallest unit, 2*max - 1 is reached, by the run given |
| `Limiter.ZeroInstantIsNeverLimited` | internal/providers/discord/policy.go:45-48 | any number of calls at the zero instant is let through, whatever the limit and the interval around it |
| `Limiter.BoundHoldsAwayFromZero` | internal/providers/discord/policy.go:45-48 | over all orderly calls, the zero instant admitted, the bound holds of an interval exactly when the interval does not hold the zero instant |
| `Limiter.NoMoreThanTheLimitInAUnitWindow` | internal/providers/discord/policy.go:45-55 | with a window of the smallest unit an interval lets through at most max |
| `Limiter.DeniedAfterMaxAcceptances` | internal/providers/discord/policy.go:49-52 | a denied call has exactly max acceptances on its key since its window opened, less than one window before it |
| `Limiter.ExactlyMaxBeforeDenialsIff` | internal/providers/discord/policy.go:45-52 | every denial has exactly max acceptances less than one window before it just for a limit of one call or a window of the smallest unit |
| `Limiter.NearlyTwiceMaxBeforeDenial` | internal/providers/discord/policy.go:45-52 | with any longer window there are runs with 2*max - 1 acceptances less than one window before a denial |
| `Limiter.KeysAreIndependent` | internal/providers/discord/policy.go:44-54 | the verdict on a call depends only on the calls on its own key |
| `Leases.IntervalSeconds` | internal/db/discord_leases.go:52-61 | whole seconds, rounded down, one below a second, 45 when not positive |
| `Leases.LeaseTable.AcquireOrRenewDiscordShard` | internal/db/discord_leases.go:13-42 | the row and the answer are those of the insert on conflict; a lost answer is an error although the row changed |
| `Leases.LeaseTable.ReleaseDiscordShard` | internal/db/discord_leases.go:44-50 | the shard's row is gone exactly when its trimmed owner asks and the statement is carried out, even if its answer is lost; every other row stays as it was |
| `Leases.EveryRunKeepsTheHolder` | internal/db/discord_leases.go:22-34 | over every run of calls the row is the only grant that is neither expired nor given back |
| `Leases.GrantedIffNobodyElseHolds` | internal/db/discord_leases.go:27-32 | a request is granted exactly when no other owner holds a grant neither expired nor released |
| `Leases.NobodyElseUntilExpiry` | internal/db/discord_leases.go:22-41 | after a grant nobody else is granted the shard up to and including the expiry of that owner's latest grant, unless it released |
| `Shards.ShardRuntime.constructor` | internal/providers/discord/runtime.go:105-115 | a new runtime is stopped and has no sessions |
| `Shards.ShardRuntime.ReconcileShards` | internal/providers/discord/runtime.go:250-275 | a pass does to each shard's session what its lease answer calls for, in order of shards |
| `Shards.ShardRuntime.ReconcileShard` | internal/providers/discord/runtime.go:252-274 | one shard: open when granted and closed, close then release when denied and open, else nothing; other shards untouched |
| `Shards.ShardRuntime.Stop` | internal/providers/discord/runtime.go:167-190 | every session, each once, is closed and then released, and the map is emptied; a stopped runtime is left alone |
| `Shards.PassFollowsLeases` | internal/providers/discord/runtime.go:250-275 | keys stay in range, and sessions equal the granted shards exactly when no lease call failed on an open one and no needed opening failed |
| `Shards.SessionsAreNotSwapped` | internal/providers/discord/runtime.go:253-274 | an open session stays the same until its lease is denied |
| `Shards.StopClosesFirst` | internal/providers/discord/runtime.go:184-187 | Stop closes each session right before it releases that shard |
| `ShardProtocol.EveryRunKeepsInv` | internal/providers/discord/runtime.go:250-275 | in every run each known grant that has not expired is backed by the row |
| `ShardProtocol.LiveSessionsAreExclusive` | internal/providers/discord/runtime.go:182-188 | no shard ever has two processes with open sessions whose last known grant is unexpired; every session goes back to a grant its process saw |
| `ShardProtocol.PassBodyIsARunOfTheProtocol` | internal/providers/discord/runtime.go:252-274 | the pass body, uninterrupted, is a run of the protocol with the same session afterwards, also when an answer is lost or a release is not carried out |
| `ShardProtocol.StopIsARunOfTheProtocol` | internal/providers/discord/runtime.go:167-190 | Stop, in any order of its sessions and whichever releases are carried out, is a run of the protocol that leaves no session open and gives up every grant behind one |
| `Issues.IssueTable.UpsertAgentIssue` | internal/db/agent.go:162-231 | success exactly when the writing statement is carried out and answered, by whichever path; the rows then are the upsert's; an error has changed nothing unless that statement's answer was lost; one open issue per hash |
| `Issues.IssueTable.Statements` | internal/db/agent.go:185-230 | the same for the cleaned report |
| `Issues.UpsertShowsTheReport` | internal/db/agent.go:186-198 | the returned row is the open issue for the hash and shows this report; new exactly when none was open; other rows stay |
| `Issues.OpenIssueIsFound` | internal/db/agent.go:203-212 | an open issue is the one that is found for its hash |
| `Issues.ReportsAreConserved` | internal/db/agent.go:185-230 | over any interleaving of upserts, fallbacks and closings the counts of a hash's issues sum to its successful reports and those whose answer was lost, and at most one is open |
| `Read.SelectNewest` | internal/db/read.go:15-21 | newest first, and none left out is newer than one kept |
| `Read.ListMessagesByConversation` | internal/db/read.go:12-62 | the newest messages of the conversation, oldest first, as many as the clamped limit; an error only when the query, a scan or the iteration failed |
| `Read.Reverse` | internal/db/read.go:57-60 | the two-index loop reverses the slice in place |
| `Read.LastListedIsNewest` | internal/db/read.go:57-61 | whatever the limit, the last message listed is the newest |
| `Read.TailIsUnique` | internal/db/read.go:15-21 | the list is determined by the messages and the limit |
| `Signature.ComputeSignature` | internal/providers/twilio/verifier.go:57-76 | the signature is the MAC of the canonical payload, whatever order the map yields its keys in |
| `Signature.CollectKeys` | internal/providers/twilio/verifier.go:58-61 | every key once, in any order |
| `Signature.AppendAllPairs` | internal/providers/twilio/verifier.go:64-71 | key by key, each with its values in ascending order |
| `Signature.AppendPairs` | internal/providers/twilio/verifier.go:66-70 | one key's values are appended in ascending order; the form is left alone |
| `Signature.SortedPermutationIsUnique` | internal/providers/twilio/verifier.go:62-67 | byte order leaves one sorted arrangement |
| `Signature.ValueOrderIsIrrelevant` | internal/providers/twilio/verifier.go:66-70 | the payload depends only on the multiset of values per key |
| `Signature.AnyArrangementGivesThePayload` | internal/providers/twilio/verifier.go:62-71 | any sorted arrangement of the keys spells the same payload |

## Left out

- HTTP handlers, the OpenAI client, Twilio and Discord calls, server-sent events and logging: they are outcomes given to the model.
- JSON encoding and decoding: a source context is a record, tool arguments arrive decoded or undecodable, trace entries keep what the model's statements need (no output items, and of a tool's output its status).
- SHA-1, SHA-256, HMAC and Base64: the MAC is a function parameter, a dedupe hash a given string.
- The text test for an absent provider (internal/agent/service.go:864-870): a predicate on errors given to the model.
- How the database driver converts column values; a failed conversion is a failed statement.
- Loss of the lock connection, a failing unlock, pool exhaustion, fairness and timeouts; a failed completion write, which leaves a row running, is in the model.
- Deletion of conversations, messages and users by cascade: rows only grow.
- Host tables and user look-up: whether a user is known is an outcome.
- That `last_message_at` never decreases: a commit stamps its own message's time, whatever was stamped before (`IngestTheorems.CommitWritesTheRequest`).
- Prompt text, tool definitions, configuration defaults, schema-name validation, session choice and route prefixes: they would add only easy members.
- ExtractFunctionCalls and ExtractAssistantText are functions by recursion where the source loops; their contracts are the lemmas named above.
- AgentService.ProcessSync: the enqueue of a Discord reply is one effect; the queue it goes to is modelled apart, in `send_queue.dfy`.
- AgentProtocol.EveryRunKeepsInv: the lock is taken by statement, so a caller whose lock statement is lost is taken not to hold it.
- SendQueue.SendRuntime.SendLoop: enqueues during a job's attempts are ordered before or after it; a blocked enqueue is an answer, not a waiting caller.
- SendQueue.SendRuntime.SendWithRetries: a direct message's second try through a newly made channel counts as part of its attempt.
- Routing.LatestDiscordReplyTarget: a loop over the rows stands for the query; the same holds for Read.SelectNewest and the look-ups of `store.dfy`.
- StoreCalls.Store.Receive: other calls do not run in between here; interleavings are in `ingest.dfy`, on values, without update in place.
- Signature.SortStrings: an insertion sort stands for the library's sort, of which only the outcome matters.
- Signature.ComputeSignature: the order among equal strings does not exist, so stability is not a question.
- Limiter.SlidingCounter.Allow: times are integers in nanoseconds, calls on one limiter come one after another, and the mutex is not modelled.
- Limiter.LessThanTwiceTheLimit: call times do not decrease.
- Leases.IntervalSeconds: integer division stands for the float conversion.
- ShardProtocol.LiveSessionsAreExclusive: owner ids are distinct and each process keeps its TTL, as the configuration gives it; a crash closes the sessions.
- Shards.ShardRuntime.ReconcileShards: shard numbers are naturals, and a pass's answers are given up front.
- Issues.ReportsAreConserved: an issue's id is its position, since rows are never deleted; each statement is atomic.
- Text.ToLower follows Go only as far as comparisons with ASCII text can see.
