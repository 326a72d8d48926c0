/** The Discord runtime's reply queue: first in, first out, a few attempts per job, one record per sent job. */
module SendQueue {
  import opened Text
  import opened Model
  import Routing

  datatype Job = Job(conversation: Uuid, body: string)

  datatype SendResult = Sent(id: string) | SendFailed

  datatype Attempt = Attempt(target: Routing.ReplyTarget, body: string, result: SendResult)

  datatype OutboundRecord = OutboundRecord(
    conversation: Uuid,
    channel: string,
    identity: string,
    context: SourceContext,
    security: SecurityClass,
    body: string,
    provider: Option<string>)

  datatype Fate = Delivered | NoTarget | AllFailed | Abandoned

  /** A job the runtime is done with, what it tried, and the one record it asked the store to keep, if any.
      `waited` counts seconds. */
  datatype Finished = Finished(job: Job, fate: Fate, attempts: seq<Attempt>, record: Option<OutboundRecord>,
                               waited: nat)

  /** How the outside treats one job: the target query, each send, and whether the runtime is stopped
      during the wait after a given attempt. */
  datatype JobEnv = JobEnv(queryFails: bool, sends: nat -> SendResult, stopped: nat -> bool)

  const SEND_MAX_ATTEMPTS: nat := 3
  const QUEUE_CAPACITY: nat := 256

  /** Seconds waited after n failed attempts. */
  function Backoff(n: nat): nat {
    if n == 0 then 0 else Backoff(n - 1) + n * n
  }

  lemma {:induction false} BackoffIsPyramidal(n: nat)
    ensures 6 * Backoff(n) == n * (n + 1) * (2 * n + 1)
  {
    if n > 0 {
      BackoffIsPyramidal(n - 1);
      PyramidGrows(n - 1);
    }
  }

  lemma PyramidGrows(m: nat)
    ensures (m + 1) * (m + 2) * (2 * m + 3) == m * (m + 1) * (2 * m + 1) + 6 * ((m + 1) * (m + 1))
  {
    var p := m + 1;
    assert (p * (m + 2)) * (2 * m + 3) == p * ((m + 2) * (2 * m + 3));
    assert (m * p) * (2 * m + 1) == p * (m * (2 * m + 1));
    assert (m + 2) * (2 * m + 3) == m * (2 * m + 1) + 6 * p;
    assert p * (m * (2 * m + 1) + 6 * p) == p * (m * (2 * m + 1)) + 6 * (p * p);
  }

  function RecordFor(target: Routing.ReplyTarget, body: string, id: string, bot: string): OutboundRecord {
    var provider := TrimSpace(id);
    OutboundRecord(
      target.conversation,
      DISCORD,
      "discord_bot:" + bot,
      SourceContext(target.guildId, target.channelId, target.threadId, provider, bot, target.mentionTarget,
                    target.isDM),
      Secure,
      body,
      Some(provider))
  }

  /** Every attempt is for the job's own conversation and body, all to one target. */
  ghost predicate OwnAttempts(f: Finished) {
    forall i :: 0 <= i < |f.attempts| ==>
      && f.attempts[i].body == f.job.body
      && f.attempts[i].target.conversation == f.job.conversation
      && f.attempts[i].target == f.attempts[0].target
  }

  ghost predicate FailedBefore(attempts: seq<Attempt>, n: nat) {
    n <= |attempts| && forall i :: 0 <= i < n ==> attempts[i].result == SendFailed
  }

  /** What each fate means for attempts, waiting and the record. */
  ghost predicate Accounted(f: Finished, bot: string) {
    var n := |f.attempts|;
    && OwnAttempts(f) && n <= SEND_MAX_ATTEMPTS
    && match f.fate
       case Delivered =>
         && n > 0 && FailedBefore(f.attempts, n - 1) && f.attempts[n - 1].result.Sent?
         && f.waited == Backoff(n - 1)
         && f.record == Some(RecordFor(f.attempts[n - 1].target, f.job.body, f.attempts[n - 1].result.id, bot))
       case NoTarget => n == 0 && f.record.None? && f.waited == 0
       case AllFailed => n == SEND_MAX_ATTEMPTS && FailedBefore(f.attempts, n) && f.record.None? &&
           f.waited == Backoff(n)
       case Abandoned => n > 0 && FailedBefore(f.attempts, n) && f.record.None? && f.waited == Backoff(n - 1)
  }

  /** The attempts met the outside's answers one by one; each but the last was followed by an undisturbed wait, and the
      last answer, with the wait after it, made the fate. */
  ghost predicate AsAnswered(f: Finished, env: JobEnv) {
    var n := |f.attempts|;
    && (forall i :: 0 <= i < n ==> f.attempts[i].result == env.sends(i + 1))
    && (forall i :: 1 <= i < n ==> !env.stopped(i))
    && (n > 0 ==> f.fate == if env.sends(n).Sent? then Delivered else if env.stopped(n) then Abandoned else AllFailed)
  }

  /** A job was seen through: without a target exactly when the query failed or found none, else with attempts at
      the latest target as the outside answered them. */
  ghost predicate SeenThrough(f: Finished, table: MessageTable, env: JobEnv, bot: string) {
    && Accounted(f, bot) && AsAnswered(f, env)
    && (env.queryFails ==> f.fate == NoTarget)
    && (!env.queryFails && f.fate == NoTarget ==> NoTargetIn(table, f.job.conversation))
    && (f.fate != NoTarget ==> f.attempts != [] && LatestTarget(table, f.job.conversation, f.attempts[0].target))
  }

  function JobsOf(finished: seq<Finished>): seq<Job> {
    if finished == [] then [] else JobsOf(finished[..|finished| - 1]) + [finished[|finished| - 1].job]
  }

  datatype EnqueueResult = Queued | ConversationRequired | BodyRequired | Cancelled | Waiting

  /** One turn of the outside: a caller enqueues, the loop takes the next job, or the runtime is stopped. */
  datatype Turn =
    | Arrive(conversation: Uuid, body: string, cancelled: bool)
    | Take(table: MessageTable, env: JobEnv)
    | StopLoop

  class SendRuntime {
    const botUserId: string
    var sendQueue: seq<Job>
    ghost var enqueued: seq<Job>
    ghost var finished: seq<Finished>

    /** Every job ever enqueued is finished or still queued, in the order of enqueuing. */
    ghost predicate Valid()
      reads this
    {
      && enqueued == JobsOf(finished) + sendQueue
      && |sendQueue| <= QUEUE_CAPACITY
      && forall f :: f in finished ==> Accounted(f, botUserId)
    }

    constructor (botUserId: string)
      ensures Valid() && this.botUserId == botUserId && enqueued == [] && finished == []
    {
      this.botUserId := botUserId;
      sendQueue, enqueued, finished := [], [], [];
    }

    /** `Waiting` is a call still blocked on a full queue. */
    method EnqueueReply(conversation: Uuid, body: string, cancelled: bool) returns (r: EnqueueResult)
      requires Valid()
      modifies `sendQueue, `enqueued
      ensures Valid()
      ensures r == Queued <==>
                conversation != NIL && !Blank(body) && !cancelled && |old(sendQueue)| < QUEUE_CAPACITY
      ensures var joins := if r == Queued then [Job(conversation, TrimSpace(body))] else [];
              enqueued == old(enqueued) + joins && sendQueue == old(sendQueue) + joins
    {
      var text := TrimSpace(body);
      if conversation == NIL {
        return ConversationRequired;
      }
      if text == "" {
        return BodyRequired;
      }
      if cancelled {
        return Cancelled;
      }
      if |sendQueue| >= QUEUE_CAPACITY {
        return Waiting;
      }
      var job := Job(conversation, text);
      sendQueue := sendQueue + [job];
      enqueued := enqueued + [job];
      return Queued;
    }

    method ProcessSendJob(job: Job, table: MessageTable, env: JobEnv) returns (f: Finished)
      ensures f.job == job && SeenThrough(f, table, env, botUserId)
    {
      hide Accounted, RecordFor, TrimSpace;
      var found := Routing.LatestDiscordReplyTarget(table, job.conversation);
      if env.queryFails || found.Err? {
        f := Finished(job, NoTarget, [], None, 0);
        NothingTried(f, botUserId);
        return;
      }
      f := SendWithRetries(job, found.value, env);
    }

    method SendWithRetries(job: Job, target: Routing.ReplyTarget, env: JobEnv) returns (f: Finished)
      requires target.conversation == job.conversation
      ensures f.job == job && f.fate != NoTarget && Accounted(f, botUserId) && AsAnswered(f, env)
      ensures f.attempts != [] && f.attempts[0].target == target
    {
      hide RecordFor, Accounted, AsAnswered;
      var attempts: seq<Attempt> := [];
      var waited := 0;
      var attempt := 1;
      while attempt <= SEND_MAX_ATTEMPTS
        invariant 1 <= attempt <= SEND_MAX_ATTEMPTS + 1
        invariant attempts == Failures(job, target, attempt - 1) && waited == Backoff(attempt - 1)
        invariant forall i :: 1 <= i < attempt ==> env.sends(i) == SendFailed && !env.stopped(i)
      {
        var result := env.sends(attempt);
        attempts := attempts + [Attempt(target, job.body, result)];
        if result.Sent? {
          var record := RecordFor(target, job.body, result.id, botUserId);
          f := Finished(job, Delivered, attempts, Some(record), waited);
          EndIsAccounted(f, target, env, botUserId);
          return;
        }
        if env.stopped(attempt) {
          f := Finished(job, Abandoned, attempts, None, waited);
          EndIsAccounted(f, target, env, botUserId);
          return;
        }
        waited := waited + attempt * attempt;
        attempt := attempt + 1;
      }
      f := Finished(job, AllFailed, attempts, None, waited);
      EndIsAccounted(f, target, env, botUserId);
    }

    /** One turn of the loop: the oldest job leaves the queue and is seen through. */
    method TakeNext(table: MessageTable, env: JobEnv)
      requires Valid()
      modifies `sendQueue, `finished
      ensures Valid() && enqueued == old(enqueued)
      ensures old(sendQueue) == [] ==> finished == old(finished) && sendQueue == []
      ensures old(sendQueue) != [] ==>
                && sendQueue == old(sendQueue)[1..]
                && |finished| == |old(finished)| + 1 && old(finished) <= finished
                && var f := finished[|old(finished)|];
                   f.job == old(sendQueue)[0] && SeenThrough(f, table, env, botUserId)
    {
      hide Accounted, AsAnswered, NoTargetIn, LatestTarget, JobsOf;
      if sendQueue == [] {
        return;
      }
      var job := sendQueue[0];
      sendQueue := sendQueue[1..];
      var f := ProcessSendJob(job, table, env);
      OneMoreFinished(finished, f);
      finished := finished + [f];
    }

    /** The loop ends when the runtime stops; jobs still queued then are never attempted. What arrives, what waits in
        the end and which jobs are attempted, with which answers, is what the turns make of the queue. */
    method SendLoop(turns: seq<Turn>)
      requires Valid()
      modifies `sendQueue, `enqueued, `finished
      ensures Valid()
      ensures var p := Over(old(sendQueue), turns);
              && sendQueue == p.queue && enqueued == old(enqueued) + p.arrived
              && Attempted(old(finished), finished, p.takes, botUserId)
    {
      hide SeenThrough, JobsOf, Accounted, Attempted, Advance;
      NothingAttempted(finished, botUserId);
      for i := 0 to |turns|
        invariant Valid()
        invariant var p := Over(old(sendQueue), turns[..i]);
                  && !p.stopped && sendQueue == p.queue && enqueued == old(enqueued) + p.arrived
                  && Attempted(old(finished), finished, p.takes, botUserId)
      {
        assert turns[..i + 1][..i] == turns[..i];
        ghost var p, was := Over(old(sendQueue), turns[..i]), finished;
        TurnAdvances(p, turns[i]);
        match turns[i] {
          case Arrive(conversation, body, cancelled) =>
            var _ := EnqueueReply(conversation, body, cancelled);
          case Take(table, env) =>
            ghost var queue := sendQueue;
            TakeNext(table, env);
            if queue != [] {
              OneMoreAttempted(old(finished), was, finished, p.takes, turns[i], botUserId);
            }
          case StopLoop =>
            assert turns[..i + 1] + turns[i + 1..] == turns;
            NothingAfterStop(old(sendQueue), turns[..i + 1], turns[i + 1..]);
            return;
        }
      }
      assert turns[..|turns|] == turns;
    }
  }

  // ---- What a loop's turns come to ----

  /** The queue, the jobs that have joined it, the turns that took one, and whether the loop has ended. */
  datatype Progress = Progress(queue: seq<Job>, arrived: seq<Job>, takes: seq<Turn>, stopped: bool)

  function Advance(p: Progress, turn: Turn): Progress {
    if p.stopped then p else
    match turn
    case Arrive(conversation, body, cancelled) =>
      var joins := if conversation != NIL && !Blank(body) && !cancelled && |p.queue| < QUEUE_CAPACITY then
                     [Job(conversation, TrimSpace(body))]
                   else [];
      p.(queue := p.queue + joins, arrived := p.arrived + joins)
    case Take(_, _) => if p.queue == [] then p else p.(queue := p.queue[1..], takes := p.takes + [turn])
    case StopLoop => p.(stopped := true)
  }

  function Over(queue: seq<Job>, turns: seq<Turn>): Progress {
    if turns == [] then Progress(queue, [], [], false)
    else Advance(Over(queue, turns[..|turns| - 1]), turns[|turns| - 1])
  }

  /** Each turn that took a job has seen one through, with its own table and answers, and nothing else has. */
  ghost predicate Attempted(before: seq<Finished>, after: seq<Finished>, takes: seq<Turn>, bot: string) {
    && |after| == |before| + |takes| && before <= after
    && forall k :: 0 <= k < |takes| ==>
         takes[k].Take? && SeenThrough(after[|before| + k], takes[k].table, takes[k].env, bot)
  }

  lemma {:induction false} TurnAdvances(p: Progress, turn: Turn)
    requires !p.stopped
    ensures match turn
            case Arrive(conversation, body, cancelled) =>
              if conversation != NIL && !Blank(body) && !cancelled && |p.queue| < QUEUE_CAPACITY then
                var job := Job(conversation, TrimSpace(body));
                Advance(p, turn) == p.(queue := p.queue + [job], arrived := p.arrived + [job])
              else Advance(p, turn) == p
            case Take(_, _) =>
              Advance(p, turn) == if p.queue == [] then p else p.(queue := p.queue[1..], takes := p.takes + [turn])
            case StopLoop => Advance(p, turn) == p.(stopped := true)
  {
    hide TrimSpace;
    assert p.queue + [] == p.queue && p.arrived + [] == p.arrived;
  }

  lemma {:induction false} NothingAttempted(finished: seq<Finished>, bot: string)
    ensures Attempted(finished, finished, [], bot)
  {
  }

  lemma {:induction false} OneMoreAttempted(before: seq<Finished>, was: seq<Finished>, after: seq<Finished>,
                                            takes: seq<Turn>, turn: Turn, bot: string)
    requires Attempted(before, was, takes, bot) && turn.Take? && |after| == |was| + 1 && was <= after
    requires SeenThrough(after[|was|], turn.table, turn.env, bot)
    ensures Attempted(before, after, takes + [turn], bot)
  {
    hide SeenThrough;
  }

  /** Once the runtime has stopped no turn has any effect. */
  lemma {:induction false} NothingAfterStop(queue: seq<Job>, turns: seq<Turn>, more: seq<Turn>)
    requires Over(queue, turns).stopped
    ensures Over(queue, turns + more) == Over(queue, turns)
  {
    if more == [] {
      assert turns + more == turns;
    } else {
      var n := |more| - 1;
      NothingAfterStop(queue, turns, more[..n]);
      assert (turns + more)[..|turns + more| - 1] == turns + more[..n];
    }
  }

  /** A loop that keeps running works its queue off: as many takes as there are jobs leave none. */
  lemma {:induction false} TakesEmptyTheQueue(queue: seq<Job>, turns: seq<Turn>)
    requires forall i :: 0 <= i < |turns| ==> turns[i].Take?
    ensures var p, n := Over(queue, turns), if |turns| < |queue| then |turns| else |queue|;
            !p.stopped && p.arrived == [] && p.queue == queue[n..] && p.takes == turns[..n]
  {
    if turns != [] {
      TakesEmptyTheQueue(queue, turns[..|turns| - 1]);
    }
  }

  // ---- One job ----

  function Failures(job: Job, target: Routing.ReplyTarget, n: nat): seq<Attempt> {
    seq(n, _ => Attempt(target, job.body, SendFailed))
  }

  lemma {:induction false} NothingTried(f: Finished, bot: string)
    requires f.fate == NoTarget && f.attempts == [] && f.record.None? && f.waited == 0
    ensures Accounted(f, bot)
  {
  }

  /** Failures up to the last attempt, the right waits and the right record account for a job. */
  lemma {:induction false} EndIsAccounted(f: Finished, target: Routing.ReplyTarget, env: JobEnv, bot: string)
    requires target.conversation == f.job.conversation && 0 < |f.attempts| <= SEND_MAX_ATTEMPTS
    requires var n := |f.attempts|;
             && f.attempts == Failures(f.job, target, n - 1) + [Attempt(target, f.job.body, env.sends(n))]
             && (forall i :: 1 <= i < n ==> env.sends(i) == SendFailed && !env.stopped(i))
             && f.fate == (if env.sends(n).Sent? then Delivered else if env.stopped(n) then Abandoned else AllFailed)
             && (f.fate == AllFailed ==> n == SEND_MAX_ATTEMPTS)
             && f.waited == Backoff(if f.fate == AllFailed then n else n - 1)
             && f.record == if env.sends(n).SendFailed? then None
                            else Some(RecordFor(target, f.job.body, env.sends(n).id, bot))
    ensures Accounted(f, bot) && AsAnswered(f, env) && f.attempts[0].target == target
  {
    hide RecordFor, Backoff;
    var n := |f.attempts|;
    assert forall i :: 0 <= i < n - 1 ==> f.attempts[i] == Attempt(target, f.job.body, SendFailed);
  }

  /** Target and answers determine everything about a finished job: how often it is tried, its fate, its waits and its
      record. */
  lemma {:induction false} FateIsDetermined(f: Finished, g: Finished, env: JobEnv, bot: string)
    requires f.job == g.job && Accounted(f, bot) && Accounted(g, bot) && AsAnswered(f, env) && AsAnswered(g, env)
    requires f.attempts != [] && g.attempts != [] && f.attempts[0].target == g.attempts[0].target
    ensures f == g
  {
    hide RecordFor, Backoff;
    NoMoreAttempts(f, g, env, bot);
    NoMoreAttempts(g, f, env, bot);
    assert |f.attempts| == |g.attempts| && f.attempts == g.attempts;
  }

  lemma {:induction false} NoMoreAttempts(f: Finished, g: Finished, env: JobEnv, bot: string)
    requires Accounted(f, bot) && Accounted(g, bot) && AsAnswered(f, env) && AsAnswered(g, env)
    requires f.attempts != []
    ensures |g.attempts| <= |f.attempts|
  {
    hide RecordFor, Backoff, OwnAttempts;
    var n := |f.attempts|;
    if n <= |g.attempts| {
      assert g.attempts[n - 1].result == env.sends(n);
    }
  }

  ghost predicate LatestTarget(table: MessageTable, conversation: Uuid, target: Routing.ReplyTarget) {
    exists id :: Routing.IsLatest(table, conversation, id) && Routing.TargetOf(table[id]) == Ok(target)
  }

  ghost predicate NoTargetIn(table: MessageTable, conversation: Uuid) {
    || (forall id :: id in table ==> !Routing.IsCandidate(table[id], conversation))
    || (exists id :: Routing.IsLatest(table, conversation, id) && Routing.TargetOf(table[id]).Err?)
  }

  lemma OneMoreFinished(finished: seq<Finished>, f: Finished)
    ensures JobsOf(finished + [f]) == JobsOf(finished) + [f.job]
  {
    assert (finished + [f])[..|finished|] == finished;
  }

  lemma {:induction false} JobsOfAt(finished: seq<Finished>, i: nat)
    requires i < |finished|
    ensures |JobsOf(finished)| == |finished| && JobsOf(finished)[i] == finished[i].job
  {
    var n := |finished| - 1;
    if n > 0 {
      JobsOfAt(finished[..n], if i < n then i else 0);
    }
  }

  /** The k-th job finished is the k-th job enqueued: no job overtakes another, none is finished twice. */
  lemma FinishedInOrderOfArrival(finished: seq<Finished>, queue: seq<Job>, enqueued: seq<Job>, k: nat)
    requires enqueued == JobsOf(finished) + queue && k < |finished|
    ensures |enqueued| == |finished| + |queue| && enqueued[k] == finished[k].job
  {
    JobsOfAt(finished, k);
  }

  /** A job that fails every time has waited 1 + 4 + 9 seconds, the last of them for nothing. */
  lemma FailingJobWaits14Seconds(f: Finished, bot: string)
    requires Accounted(f, bot) && f.fate == AllFailed
    ensures f.waited == 14
  {
    BackoffIsPyramidal(3);
  }

  /** The record of a reply, once stored, reads back as the target it was sent to, except that it shows
      the reply's own id and the bot as its author. */
  lemma {:induction false} RecordReadsBackAsItsTarget(m: StoredMessage, target: Routing.ReplyTarget, body: string,
                                                      id: string, bot: string, row: StoredMessage)
    requires Routing.TargetOf(m) == Ok(target) && !Blank(bot)
    requires var record := RecordFor(target, body, id, bot);
             && row.conversation == record.conversation && row.identity == record.identity
             && row.context == record.context
             && row.provider == (if Blank(record.provider.value) then None else record.provider)
    ensures Routing.TargetOf(row) == Ok(target.(messageId := TrimSpace(id), authorId := TrimSpace(bot)))
  {
  }

  /** A guild reply is posted where the message it answers was written, whichever message of the
      conversation is the latest when the job's turn comes. */
  lemma {:induction false} GuildReplyReachesItsQuestion(f: Finished, bot: string, table: MessageTable, question: Uuid,
                                                        key: string)
    requires Accounted(f, bot) && f.attempts != [] && LatestTarget(table, f.job.conversation, f.attempts[0].target)
    requires question in table && Routing.IsCandidate(table[question], f.job.conversation)
    requires Routing.TargetOf(table[question]).Ok? && !table[question].context.isDM
    requires forall id :: id in table && Routing.IsCandidate(table[id], f.job.conversation) ==>
               Routing.StoredFrom(table[id], key)
    ensures forall i :: 0 <= i < |f.attempts| ==>
              Routing.BuildSendPlan(f.attempts[i].target).0 == Routing.Destination(table[question].context)
  {
    var target := f.attempts[0].target;
    var destination := Routing.Destination(table[question].context);
    assert Routing.BuildSendPlan(target).0 == destination by {
      CandidateLeadsToQuestion(table, f.job.conversation, target, question, key);
    }
    assert forall i :: 0 <= i < |f.attempts| ==> f.attempts[i].target == target;
  }

  lemma {:induction false} CandidateLeadsToQuestion(table: MessageTable, conversation: Uuid,
                                                    target: Routing.ReplyTarget, question: Uuid, key: string)
    requires LatestTarget(table, conversation, target)
    requires question in table && Routing.IsCandidate(table[question], conversation)
    requires Routing.TargetOf(table[question]).Ok? && !table[question].context.isDM
    requires forall id :: id in table && Routing.IsCandidate(table[id], conversation) ==>
               Routing.StoredFrom(table[id], key)
    ensures Routing.BuildSendPlan(target).0 == Routing.Destination(table[question].context)
  {
    var id :| Routing.IsLatest(table, conversation, id) && Routing.TargetOf(table[id]) == Ok(target);
    Routing.GuildPlanIsStable(table[question], table[id], key, target);
  }
}
