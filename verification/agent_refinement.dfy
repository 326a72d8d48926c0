/** The sequential run and the protocol agree: a call of ProcessSync that nobody disturbs is seven moves of the
    protocol, those that do not apply being idle, and leaves the run row the protocol says. */
module AgentRefinement {
  import opened Model
  import AgentRun
  import AgentTheorems
  import AgentVerdict
  import opened AgentProtocol

  /** The lock is free, and the database and `env` agree on whether the message is already taken and on what
      it lists; `id` is what a new run row would get. */
  ghost predicate Ready(s: State, c: nat, req: AgentRun.ProcessRequest, id: Uuid, env: AgentRun.Env) {
    && c in s.callers && s.callers[c] == NewCaller(req)
    && AdvisoryLockKey(req.conversation) !in s.locks
    && req.message in s.messages && FreshRun(s, id)
    && (env.start.Claimed? ==> req.message !in s.runs)
    && (env.start.AlreadyStarted? ==> req.message in s.runs)
    && (env.list.Ok? ==> Lists(s, req.conversation, env.list.value))
  }

  ghost function Claiming(s: State, c: nat, id: Uuid, env: AgentRun.Env): State {
    var locked := Do(s, By(c, Lock(if env.lock.None? then Fine else Broken)));
    Do(locked, By(c, Start(if env.start.StartFails? then Broken else Fine, id)))
  }

  ghost function Judging(s: State, c: nat, env: AgentRun.Env): State {
    var listed := Do(s, By(c, if env.list.Ok? then List(Fine, env.list.value) else List(Broken, [])));
    Do(listed, By(c, Judge))
  }

  ghost function Ending(s: State, c: nat, succeeds: bool, luck: Luck): State {
    Do(Do(Do(s, By(c, Work(succeeds))), By(c, Complete(luck))), By(c, Unlock))
  }

  /** The row once the run has ended: still running if the completion could not be written. */
  function EndedRow(id: Uuid, status: AgentRun.RunStatus, luck: Luck): RunRow {
    RunRow(id, if luck.Broken? then Running else Done(status))
  }

  function Unclaimed(req: AgentRun.ProcessRequest, pc: Pc): Caller {
    NewCaller(req).(pc := pc)
  }

  function Holding(req: AgentRun.ProcessRequest, pc: Pc, id: Uuid): Caller {
    NewCaller(req).(pc := pc, run := Some(id))
  }

  function ListedOf(env: AgentRun.Env): Option<seq<StoredMessage>> {
    if env.list.Ok? then Some(env.list.value) else None
  }

  function Judged(req: AgentRun.ProcessRequest, env: AgentRun.Env, status: AgentRun.RunStatus, id: Uuid): Caller {
    Holding(req, if env.list.Ok? && !status.Skipped? then Working else Completing(status), id).(listed := ListedOf(env))
  }

  /** A call that has completed its run and left. */
  function Over(req: AgentRun.ProcessRequest, id: Uuid, listed: Option<seq<StoredMessage>>,
                status: AgentRun.RunStatus): Caller {
    Caller(req, Gone, Some(id), 1, listed, Some(status))
  }

  lemma {:induction false} LockingGoes(s: State, c: nat, req: AgentRun.ProcessRequest, luck: Luck)
    requires c in s.callers && s.callers[c] == NewCaller(req) && AdvisoryLockKey(req.conversation) !in s.locks
    ensures Do(s, By(c, Lock(luck))) ==
            if !luck.Fine? then With(s, c, Unclaimed(req, Gone))
            else With(s.(locks := s.locks[AdvisoryLockKey(req.conversation) := c]), c, Unclaimed(req, Locked))
  {
  }

  lemma {:induction false} StartingGoes(s: State, c: nat, req: AgentRun.ProcessRequest, id: Uuid, luck: Luck)
    requires c in s.callers && s.callers[c] == Unclaimed(req, Locked)
    requires req.message in s.messages && FreshRun(s, id) && !luck.Lost?
    ensures Do(s, By(c, Start(luck, id))) ==
            if luck.Broken? || req.message in s.runs then With(s, c, Unclaimed(req, Leaving))
            else With(s.(runs := s.runs[req.message := RunRow(id, Running)]), c, Holding(req, Claimed, id))
  {
  }

  lemma {:induction false} ClaimingGoes(s: State, c: nat, req: AgentRun.ProcessRequest, id: Uuid, env: AgentRun.Env)
    requires Ready(s, c, req, id, env)
    ensures var t, key := Claiming(s, c, id, env), AdvisoryLockKey(req.conversation);
            if env.lock.Some? then t == With(s, c, Unclaimed(req, Gone))
            else if !env.start.Claimed? then t == With(s.(locks := s.locks[key := c]), c, Unclaimed(req, Leaving))
            else t == With(s.(locks := s.locks[key := c], runs := s.runs[req.message := RunRow(id, Running)]), c,
                           Holding(req, Claimed, id))
  {
    LockingGoes(s, c, req, if env.lock.None? then Fine else Broken);
    if env.lock.None? {
      var key := AdvisoryLockKey(req.conversation);
      var locked := With(s.(locks := s.locks[key := c]), c, Unclaimed(req, Locked));
      StartingGoes(locked, c, req, id, if env.start.StartFails? then Broken else Fine);
    }
  }

  /** The entry a run makes in the history of those that pass eligibility. */
  function PassedBy(c: nat, env: AgentRun.Env, status: AgentRun.RunStatus): seq<Passed> {
    if env.list.Err? || status.Skipped? || env.list.value == [] then []
    else [Passed(c, env.list.value[|env.list.value| - 1])]
  }

  lemma {:induction false} ListingGoes(s: State, c: nat, messages: seq<StoredMessage>)
    requires c in s.callers && s.callers[c].pc.Claimed? && Lists(s, s.callers[c].request.conversation, messages)
    ensures Do(s, By(c, List(Fine, messages))) ==
            With(s, c, s.callers[c].(pc := Listed(messages), listed := Some(messages)))
  {
  }

  lemma {:induction false} VerdictGoes(s: State, c: nat, messages: seq<StoredMessage>, status: AgentRun.RunStatus)
    requires c in s.callers && s.callers[c].pc == Listed(messages)
    requires status.Skipped? <==> !AgentRun.EligibleInbound(messages, s.callers[c].request.message)
    ensures Do(s, By(c, Judge)) ==
            if status.Skipped? then With(s, c, s.callers[c].(pc := Completing(status)))
            else With(s.(passed := s.passed + [Passed(c, messages[|messages| - 1])]), c, s.callers[c].(pc := Working))
  {
  }

  lemma {:induction false} ListedStatus(env: AgentRun.Env, req: AgentRun.ProcessRequest, status: AgentRun.RunStatus)
    requires AgentTheorems.StatusFollowsList(status, env.list, req)
    ensures env.list.Err? ==> status == AgentRun.Failed
    ensures env.list.Ok? ==> (status.Skipped? <==> !AgentRun.EligibleInbound(env.list.value, req.message))
    ensures env.list.Ok? && AgentRun.EligibleInbound(env.list.value, req.message) ==> env.list.value != []
  {
  }

  lemma {:induction false} FailedListGoes(s: State, c: nat)
    requires c in s.callers && s.callers[c].pc.Claimed?
    ensures Do(Do(s, By(c, List(Broken, []))), By(c, Judge)) ==
            With(s, c, s.callers[c].(pc := Completing(AgentRun.Failed)))
  {
    hide AgentRun.EligibleInbound, Lists;
  }

  lemma {:induction false} JudgingGoes(s: State, c: nat, req: AgentRun.ProcessRequest, id: Uuid, env: AgentRun.Env,
                                       status: AgentRun.RunStatus)
    requires c in s.callers && s.callers[c] == Holding(req, Claimed, id)
    requires env.list.Ok? ==> Lists(s, req.conversation, env.list.value)
    requires AgentTheorems.StatusFollowsList(status, env.list, req)
    ensures Judging(s, c, env) ==
            With(s.(passed := s.passed + PassedBy(c, env, status)), c,
                 Judged(req, env, status, id))
  {
    hide AgentRun.EligibleInbound, AgentTheorems.StatusFollowsList, Lists, Do;
    ListedStatus(env, req, status);
    if env.list.Ok? {
      ListingGoes(s, c, env.list.value);
      var x := Holding(req, Listed(env.list.value), id).(listed := ListedOf(env));
      VerdictGoes(With(s, c, x), c, env.list.value, status);
    } else {
      FailedListGoes(s, c);
    }
  }

  lemma {:induction false} CompletingGoes(s: State, c: nat, req: AgentRun.ProcessRequest, id: Uuid,
                                          status: AgentRun.RunStatus, luck: Luck)
    requires c in s.callers && s.callers[c] == Holding(req, Completing(status), id).(listed := s.callers[c].listed)
    requires req.message in s.runs && s.runs[req.message] == RunRow(id, Running)
    requires forall m :: m in s.runs && m != req.message ==> s.runs[m].id != id
    ensures Do(Do(s, By(c, Complete(luck))), By(c, Unlock)) ==
            State(s.messages, s.locks - {AdvisoryLockKey(req.conversation)},
                  s.runs[req.message := EndedRow(id, status, luck)],
                  s.callers[c := Over(req, id, s.callers[c].listed, status)], s.passed)
  {
    assert Updated(s.runs, id, status) == s.runs[req.message := RunRow(id, Done(status))];
  }

  lemma {:induction false} EndingGoes(s: State, c: nat, req: AgentRun.ProcessRequest, id: Uuid,
                                      status: AgentRun.RunStatus, luck: Luck)
    requires c in s.callers && s.callers[c] == Holding(req, s.callers[c].pc, id).(listed := s.callers[c].listed)
    requires s.callers[c].pc == Completing(status) || (s.callers[c].pc.Working? && !status.Skipped?)
    requires req.message in s.runs && s.runs[req.message] == RunRow(id, Running)
    requires forall m :: m in s.runs && m != req.message ==> s.runs[m].id != id
    ensures Ending(s, c, status.Completed?, luck) ==
            State(s.messages, s.locks - {AdvisoryLockKey(req.conversation)},
                  s.runs[req.message := EndedRow(id, status, luck)],
                  s.callers[c := Over(req, id, s.callers[c].listed, status)], s.passed)
  {
    var worked := Do(s, By(c, Work(status.Completed?)));
    assert worked == With(s, c, s.callers[c].(pc := Completing(status)));
    CompletingGoes(worked, c, req, id, status, luck);
  }

  /** A call that has claimed nothing only gives the lock back, if it holds it. */
  lemma {:induction false} NothingToDo(s: State, c: nat, env: AgentRun.Env, succeeds: bool, luck: Luck)
    requires c in s.callers && (s.callers[c].pc.Gone? || s.callers[c].pc.Leaving?)
    ensures Judging(s, c, env) == s
    ensures s.callers[c].pc.Gone? ==> Ending(s, c, succeeds, luck) == s
    ensures s.callers[c].pc.Leaving? ==>
              Ending(s, c, succeeds, luck) ==
              With(s.(locks := s.locks - {AdvisoryLockKey(s.callers[c].request.conversation)}), c,
                   s.callers[c].(pc := Gone))
  {
  }

  lemma {:induction false} GivenBack(locks: map<int, nat>, key: int, c: nat)
    requires key !in locks
    ensures locks[key := c] - {key} == locks
  {
    assert (locks[key := c] - {key}).Keys == locks.Keys;
  }

  lemma {:induction false} UnclaimedCallLeavesNothing(s: State, c: nat, req: AgentRun.ProcessRequest, id: Uuid,
                                                      env: AgentRun.Env, succeeds: bool, luck: Luck)
    requires Ready(s, c, req, id, env) && (env.lock.Some? || !env.start.Claimed?)
    ensures Ending(Judging(Claiming(s, c, id, env), c, env), c, succeeds, luck) == With(s, c, Unclaimed(req, Gone))
  {
    ClaimingGoes(s, c, req, id, env);
    GivenBack(s.locks, AdvisoryLockKey(req.conversation), c);
    NothingToDo(Claiming(s, c, id, env), c, env, succeeds, luck);
  }

  lemma {:induction false} ClaimedRunEnds(s: State, c: nat, req: AgentRun.ProcessRequest, id: Uuid, env: AgentRun.Env,
                                          status: AgentRun.RunStatus, luck: Luck)
    requires c in s.callers && s.callers[c] == Holding(req, Claimed, id)
    requires req.message in s.runs && s.runs[req.message] == RunRow(id, Running)
    requires forall m :: m in s.runs && m != req.message ==> s.runs[m].id != id
    requires env.list.Ok? ==> Lists(s, req.conversation, env.list.value)
    requires AgentTheorems.StatusFollowsList(status, env.list, req)
    ensures Ending(Judging(s, c, env), c, status.Completed?, luck) ==
            State(s.messages, s.locks - {AdvisoryLockKey(req.conversation)},
                  s.runs[req.message := EndedRow(id, status, luck)],
                  s.callers[c := Over(req, id, ListedOf(env), status)], s.passed + PassedBy(c, env, status))
  {
    JudgingGoes(s, c, req, id, env, status);
    var judged := With(s.(passed := s.passed + PassedBy(c, env, status)), c,
                       Judged(req, env, status, id));
    EndingGoes(judged, c, req, id, status, luck);
  }

  lemma {:induction false} ClaimedCallEnds(s: State, c: nat, req: AgentRun.ProcessRequest, id: Uuid, env: AgentRun.Env,
                                           status: AgentRun.RunStatus, luck: Luck)
    requires Ready(s, c, req, id, env) && env.lock.None? && env.start.Claimed?
    requires AgentTheorems.StatusFollowsList(status, env.list, req)
    ensures Ending(Judging(Claiming(s, c, id, env), c, env), c, status.Completed?, luck) ==
            State(s.messages, s.locks, s.runs[req.message := EndedRow(id, status, luck)],
                  s.callers[c := Over(req, id, ListedOf(env), status)], s.passed + PassedBy(c, env, status))
  {
    ClaimingGoes(s, c, req, id, env);
    var key := AdvisoryLockKey(req.conversation);
    GivenBack(s.locks, key, c);
    var claimed := With(s.(locks := s.locks[key := c], runs := s.runs[req.message := RunRow(id, Running)]), c,
                        Holding(req, Claimed, id));
    if env.list.Ok? {
      SameList(s, claimed, req.conversation, env.list.value);
    }
    ClaimedRunEnds(claimed, c, req, id, env, status, luck);
    Overwritten(s.runs, req.message, RunRow(id, Running), EndedRow(id, status, luck));
    Overwritten(s.callers, c, Holding(req, Claimed, id), Over(req, id, ListedOf(env), status));
  }

  lemma {:induction false} Overwritten<K, V>(m: map<K, V>, k: K, a: V, b: V)
    ensures m[k := a][k := b] == m[k := b]
  {
  }

  lemma {:induction false} SameList(s: State, t: State, conversation: Uuid, messages: seq<StoredMessage>)
    requires Lists(s, conversation, messages) && t.messages == s.messages
    ensures Lists(t, conversation, messages)
  {
  }

  /** Alone, ProcessSync and the protocol do the same: who claims, with which status the row ends,
      how often it is completed, and that the lock is given back. */
  lemma {:induction false} UndisturbedCallIsARunOfTheProtocol(s: State, c: nat, id: Uuid, luck: Luck,
                                                              left: AgentRun.Left, err: Option<AgentRun.Error>,
                                                              setup: AgentRun.Setup)
    requires Ready(s, c, setup.req, id, setup.env)
    requires setup.env.lock.None? && setup.env.start.Claimed? ==> AgentVerdict.JudgedRun(left, err, setup)
    ensures var req, env := setup.req, setup.env;
            if env.lock.None? && env.start.Claimed? then
              && |left.log.completions| == 1
              && var status := left.log.completions[0].status;
                 Ending(Judging(Claiming(s, c, id, env), c, env), c, status.Completed?, luck) ==
                 State(s.messages, s.locks, s.runs[req.message := EndedRow(id, status, luck)],
                       s.callers[c := Over(req, id, ListedOf(env), status)], s.passed + PassedBy(c, env, status))
            else
              Ending(Judging(Claiming(s, c, id, env), c, env), c, false, luck) == With(s, c, Unclaimed(req, Gone))
  {
    hide Ready, Claiming, Judging, Ending, AgentVerdict.JudgedRun, AgentTheorems.StatusFollowsList;
    if setup.env.lock.None? && setup.env.start.Claimed? {
      AgentTheorems.CompletedOnceAsListed(left, err, setup);
      ClaimedCallEnds(s, c, setup.req, id, setup.env, left.log.completions[0].status, luck);
    } else {
      UnclaimedCallLeavesNothing(s, c, setup.req, id, setup.env, false, luck);
    }
  }
}
