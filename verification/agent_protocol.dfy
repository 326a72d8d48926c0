/** Any number of ProcessSync calls around one database: the advisory lock, the claim of a run, the list,
    the verdict on eligibility and the completion, while messages keep arriving. */
module AgentProtocol {
  import opened Text
  import opened Model
  import Read
  import AgentRun
  import AgentTheorems

  /** The lock key: the first eight bytes of the id as a signed 64-bit number. */
  function AdvisoryLockKey(id: Uuid): int {
    var high := id / 0x1_0000_0000_0000_0000 % 0x1_0000_0000_0000_0000;
    if high < 0x8000_0000_0000_0000 then high else high - 0x1_0000_0000_0000_0000
  }

  /** Two conversations share a lock exactly when their ids agree in the first half; a key fits a bigint. */
  lemma LockIsSharedIffFirstHalfAgrees(a: Uuid, b: Uuid)
    requires a < 0x1_0000_0000_0000_0000 * 0x1_0000_0000_0000_0000
    requires b < 0x1_0000_0000_0000_0000 * 0x1_0000_0000_0000_0000
    ensures AdvisoryLockKey(a) == AdvisoryLockKey(b) <==> a / 0x1_0000_0000_0000_0000 == b / 0x1_0000_0000_0000_0000
    ensures -0x8000_0000_0000_0000 <= AdvisoryLockKey(a) < 0x8000_0000_0000_0000
  {
  }

  datatype Status = Running | Done(outcome: AgentRun.RunStatus)

  datatype RunRow = RunRow(id: Uuid, status: Status)

  datatype Pc =
    | Waiting                                                  // for the lock
    | Locked
    | Claimed                                                  // the run row is this call's
    | Listed(messages: seq<StoredMessage>)
    | Working                                                  // past eligibility
    | Completing(outcome: AgentRun.RunStatus)
    | Leaving                                                  // about to unlock
    | Gone

  /** `run` is the id of the run row once claimed; `completions` counts the CompleteAgentRun calls made. `listed` and
      `ended` are history: the messages a list call has returned and the status the completion was given. */
  datatype Caller = Caller(
    request: AgentRun.ProcessRequest,
    pc: Pc,
    run: Option<Uuid>,
    completions: nat,
    listed: Option<seq<StoredMessage>>,
    ended: Option<AgentRun.RunStatus>)

  function NewCaller(request: AgentRun.ProcessRequest): Caller {
    Caller(request, Waiting, None, 0, None, None)
  }

  /** A run that got past eligibility, with the inbound message it answers. */
  datatype Passed = Passed(caller: nat, message: StoredMessage)

  /** `runs` is keyed by inbound message, its unique key. `passed` is history. */
  datatype State = State(
    messages: MessageTable,
    locks: map<int, nat>,
    runs: map<Uuid, RunRow>,
    callers: map<nat, Caller>,
    passed: seq<Passed>)

  /** How a database call fares: it may take effect although the caller sees an error. */
  datatype Luck = Fine | Lost | Broken

  datatype Action =
    | Store(message: StoredMessage)                            // Receive or RecordOutbound commits
    | Enter(c: nat, request: AgentRun.ProcessRequest)
    | By(c: nat, move: Move)

  datatype Move =
    | Lock(luck: Luck)
    | Start(luck: Luck, runId: Uuid)
    | List(luck: Luck, messages: seq<StoredMessage>)
    | Judge
    | Work(succeeds: bool)
    | Complete(luck: Luck)
    | Unlock

  ghost function With(s: State, c: nat, x: Caller): State {
    s.(callers := s.callers[c := x])
  }

  /** gen_random_uuid yields an id no run has. */
  ghost predicate FreshRun(s: State, id: Uuid) {
    forall m :: m in s.runs ==> s.runs[m].id != id
  }

  /** What ListMessagesByConversation may return now, for some positive limit. */
  ghost predicate Lists(s: State, conversation: Uuid, messages: seq<StoredMessage>) {
    exists n: nat :: n > 0 && Read.Chronological(messages)
                     && Read.IsTailOf(messages, OfConversation(s.messages, conversation), n)
  }

  /** The completion's UPDATE: every row with the id, whatever its status. */
  function Updated(runs: map<Uuid, RunRow>, id: Uuid, outcome: AgentRun.RunStatus): map<Uuid, RunRow> {
    map m | m in runs :: if runs[m].id == id then RunRow(id, Done(outcome)) else runs[m]
  }

  ghost function MoveOf(s: State, c: nat, x: Caller, move: Move): State {
    var key := AdvisoryLockKey(x.request.conversation);
    match move
    case Lock(luck) =>
      if !x.pc.Waiting? then s
      else if !luck.Fine? then With(s, c, x.(pc := Gone))
      else if key in s.locks then s
      else With(s.(locks := s.locks[key := c]), c, x.(pc := Locked))
    case Start(luck, id) =>
      if !x.pc.Locked? then s
      else if luck.Broken? || x.request.message in s.runs || x.request.message !in s.messages then
        With(s, c, x.(pc := Leaving))
      else if !FreshRun(s, id) then s
      else
        var claimed := s.(runs := s.runs[x.request.message := RunRow(id, Running)]);
        With(claimed, c, if luck.Lost? then x.(pc := Leaving) else x.(pc := Claimed, run := Some(id)))
    case List(luck, messages) =>
      if !x.pc.Claimed? then s
      else if !luck.Fine? then With(s, c, x.(pc := Completing(AgentRun.Failed)))
      else if !Lists(s, x.request.conversation, messages) then s
      else With(s, c, x.(pc := Listed(messages), listed := Some(messages)))
    case Judge =>
      if !x.pc.Listed? then s
      else if !AgentRun.EligibleInbound(x.pc.messages, x.request.message) then
        With(s, c, x.(pc := Completing(AgentRun.Skipped)))
      else With(s.(passed := s.passed + [Passed(c, x.pc.messages[|x.pc.messages| - 1])]), c, x.(pc := Working))
    case Work(succeeds) =>
      if !x.pc.Working? then s
      else With(s, c, x.(pc := Completing(if succeeds then AgentRun.Completed else AgentRun.Failed)))
    case Complete(luck) =>
      if !x.pc.Completing? || x.run.None? then s
      else
        With(if luck.Broken? then s else s.(runs := Updated(s.runs, x.run.value, x.pc.outcome)), c,
             x.(pc := Leaving, completions := x.completions + 1, ended := Some(x.pc.outcome)))
    case Unlock =>
      if !x.pc.Leaving? then s
      else With(s.(locks := s.locks - {key}), c, x.(pc := Gone))
  }

  ghost function Do(s: State, a: Action): State {
    match a
    case Store(m) => if m.id in s.messages then s else s.(messages := s.messages[m.id := m])
    case Enter(c, request) => if c in s.callers then s else With(s, c, NewCaller(request))
    case By(c, move) => if c in s.callers then MoveOf(s, c, s.callers[c], move) else s
  }

  const EMPTY := State(map[], map[], map[], map[], [])

  ghost function Run(actions: seq<Action>): State {
    if actions == [] then EMPTY else Do(Run(actions[..|actions| - 1]), actions[|actions| - 1])
  }

  // ---- The invariant ----

  /** Between taking the lock and giving it back. */
  predicate Inside(x: Caller) {
    !x.pc.Waiting? && !x.pc.Gone?
  }

  /** Holds a run that it has not completed yet. */
  predicate OwesCompletion(x: Caller) {
    x.pc.Claimed? || x.pc.Listed? || x.pc.Working? || x.pc.Completing?
  }

  ghost predicate LockInv(s: State, c: nat, x: Caller) {
    var key := AdvisoryLockKey(x.request.conversation);
    Inside(x) ==> key in s.locks && s.locks[key] == c
  }

  ghost predicate RunInv(s: State, x: Caller) {
    && (x.run.Some? ==> x.request.message in s.runs && s.runs[x.request.message].id == x.run.value)
    && (OwesCompletion(x) ==> x.run.Some? && x.completions == 0 && s.runs[x.request.message].status == Running)
    && (!OwesCompletion(x) ==> x.completions == if x.run.Some? then 1 else 0)
    && (x.pc.Waiting? || x.pc.Locked? ==> x.run.None?)
    && (x.ended.Some? <==> x.completions == 1)
    && (x.ended.Some? ==>
          s.runs[x.request.message].status == Running || s.runs[x.request.message].status == Done(x.ended.value))
  }

  /** What a list call that failed, or returned these messages, makes of a run. */
  predicate EndsAsListed(status: AgentRun.RunStatus, x: Caller) {
    AgentTheorems.StatusFollowsList(status, if x.listed.Some? then Ok(x.listed.value) else Err(AgentRun.Error("")),
                                    x.request)
  }

  /** A call goes the way its own list call has shown it. */
  ghost predicate ListInv(x: Caller) {
    && (x.pc.Waiting? || x.pc.Locked? || x.pc.Claimed? ==> x.listed.None? && x.ended.None?)
    && (x.pc.Listed? ==> x.listed == Some(x.pc.messages) && x.ended.None?)
    && (x.pc.Working? ==> x.listed.Some? && AgentRun.EligibleInbound(x.listed.value, x.request.message))
    && (x.pc.Completing? ==> EndsAsListed(x.pc.outcome, x))
    && (x.ended.Some? ==> EndsAsListed(x.ended.value, x))
  }

  ghost predicate Inv(s: State) {
    && (forall c :: c in s.callers ==> LockInv(s, c, s.callers[c]) && RunInv(s, s.callers[c]))
    && (forall c, d | c in s.callers && d in s.callers && c != d && s.callers[c].run.Some? && s.callers[d].run.Some? ::
          s.callers[c].request.message != s.callers[d].request.message)
    && (forall m, n | m in s.runs && n in s.runs && m != n :: s.runs[m].id != s.runs[n].id)
  }

  // ---- Order of the runs that pass eligibility ----

  /** Everything that has passed in the conversation is the last message listed or comes before it. */
  ghost predicate ListedAfterPassed(s: State, x: Caller) {
    x.pc.Listed? ==>
      forall i :: 0 <= i < |s.passed| && s.passed[i].message.conversation == x.request.conversation ==>
        x.pc.messages != []
        && var last := x.pc.messages[|x.pc.messages| - 1];
           last.conversation == x.request.conversation
           && (s.passed[i].message == last || Before(s.passed[i].message, last))
  }

  ghost predicate PassedInv(s: State, p: Passed) {
    && p.message.id in s.messages && s.messages[p.message.id] == p.message
    && p.caller in s.callers
    && var x := s.callers[p.caller];
       x.run.Some? && x.request.message == p.message.id && x.request.conversation == p.message.conversation
       && !x.pc.Claimed? && !x.pc.Listed?
  }

  ghost predicate OrderInv(s: State) {
    && (forall i :: 0 <= i < |s.passed| ==> PassedInv(s, s.passed[i]))
    && (forall i, j ::
          0 <= i < j < |s.passed| && s.passed[i].message.conversation == s.passed[j].message.conversation ==>
          Before(s.passed[i].message, s.passed[j].message))
    && (forall i, j :: 0 <= i < j < |s.passed| ==> s.passed[i].caller != s.passed[j].caller)
    && (forall c :: c in s.callers ==> ListedAfterPassed(s, s.callers[c]))
    && (forall c :: c in s.callers && s.callers[c].pc.Listed? ==>
          forall m :: m in s.callers[c].pc.messages ==> m.conversation == s.callers[c].request.conversation
                                                        && m.id in s.messages && s.messages[m.id] == m)
  }

  // ---- Steps keep the first invariant ----

  /** A caller that changes neither its request nor its run, and leaves locks and rows alone. */
  lemma LocalMoveKeepsInv(s: State, c: nat, y: Caller)
    requires Inv(s) && c in s.callers && LockInv(s, c, y) && RunInv(s, y)
    requires y.request == s.callers[c].request && y.run == s.callers[c].run
    ensures Inv(With(s, c, y))
  {
  }

  lemma LockKeepsInv(s: State, c: nat)
    requires Inv(s) && c in s.callers && s.callers[c].pc.Waiting?
    ensures Inv(Do(s, By(c, Lock(Fine))))
  {
    hide AdvisoryLockKey;
    var t := Do(s, By(c, Lock(Fine)));
    forall d | d in t.callers ensures LockInv(t, d, t.callers[d]) && RunInv(t, t.callers[d]) {
      assert LockInv(s, d, s.callers[d]) && RunInv(s, s.callers[d]);
    }
  }

  /** The claim of message m by caller c, whether c gets to know it or not. */
  lemma ClaimKeepsInv(s: State, c: nat, y: Caller, id: Uuid)
    requires Inv(s) && c in s.callers && s.callers[c].pc.Locked? && y.request == s.callers[c].request
    requires y.request.message !in s.runs && FreshRun(s, id) && y.completions == 0 && y.ended.None?
    requires (y.pc.Leaving? && y.run.None?) || (y.pc.Claimed? && y.run == Some(id))
    ensures Inv(With(s.(runs := s.runs[y.request.message := RunRow(id, Running)]), c, y))
  {
    hide AdvisoryLockKey;
    var t := With(s.(runs := s.runs[y.request.message := RunRow(id, Running)]), c, y);
    forall d | d in t.callers ensures LockInv(t, d, t.callers[d]) && RunInv(t, t.callers[d]) {
      assert LockInv(s, d, s.callers[d]) && RunInv(s, s.callers[d]);
    }
  }

  lemma StartKeepsInv(s: State, c: nat, luck: Luck, id: Uuid)
    requires Inv(s) && c in s.callers && s.callers[c].pc.Locked?
    ensures Inv(Do(s, By(c, Start(luck, id))))
  {
    var x := s.callers[c];
    assert LockInv(s, c, x) && RunInv(s, x);
    if luck.Broken? || x.request.message in s.runs || x.request.message !in s.messages {
      LocalMoveKeepsInv(s, c, x.(pc := Leaving));
    } else if FreshRun(s, id) {
      ClaimKeepsInv(s, c, if luck.Lost? then x.(pc := Leaving) else x.(pc := Claimed, run := Some(id)), id);
    }
  }

  lemma CompleteKeepsInv(s: State, c: nat, luck: Luck)
    requires Inv(s) && c in s.callers && s.callers[c].pc.Completing?
    ensures Inv(Do(s, By(c, Complete(luck))))
  {
    var t := Do(s, By(c, Complete(luck)));
    var x := s.callers[c];
    assert LockInv(s, c, x) && RunInv(s, x);
    forall d | d in t.callers ensures LockInv(t, d, t.callers[d]) && RunInv(t, t.callers[d]) {
      assert LockInv(s, d, s.callers[d]) && RunInv(s, s.callers[d]);
      if d != c && s.callers[d].run.Some? {
        assert s.callers[d].request.message != x.request.message;
      }
    }
  }

  lemma UnlockKeepsInv(s: State, c: nat)
    requires Inv(s) && c in s.callers && s.callers[c].pc.Leaving?
    ensures Inv(Do(s, By(c, Unlock)))
  {
    hide AdvisoryLockKey;
    var t := Do(s, By(c, Unlock));
    assert LockInv(s, c, s.callers[c]);
    forall d | d in t.callers ensures LockInv(t, d, t.callers[d]) && RunInv(t, t.callers[d]) {
      assert LockInv(s, d, s.callers[d]) && RunInv(s, s.callers[d]);
    }
  }

  lemma {:induction false} StepKeepsInv(s: State, a: Action)
    requires Inv(s)
    ensures Inv(Do(s, a))
  {
    match a
    case Store(m) =>
      var t := Do(s, a);
      forall d | d in t.callers ensures LockInv(t, d, t.callers[d]) && RunInv(t, t.callers[d]) {
        assert LockInv(s, d, s.callers[d]) && RunInv(s, s.callers[d]);
      }
    case Enter(c, request) =>
      if c !in s.callers {
        var t := Do(s, a);
        forall d | d in t.callers ensures LockInv(t, d, t.callers[d]) && RunInv(t, t.callers[d]) {
          if d != c {
            assert LockInv(s, d, s.callers[d]) && RunInv(s, s.callers[d]);
          }
        }
      }
    case By(c, move) =>
      if c in s.callers {
        MoveKeepsInv(s, c, move);
      }
  }

  lemma {:induction false} MoveKeepsInv(s: State, c: nat, move: Move)
    requires Inv(s) && c in s.callers
    ensures Inv(Do(s, By(c, move)))
  {
    var x := s.callers[c];
    assert LockInv(s, c, x) && RunInv(s, x);
    match move
    case Lock(luck) =>
      if x.pc.Waiting? {
        if luck.Fine? {
          LockKeepsInv(s, c);
        } else {
          LocalMoveKeepsInv(s, c, x.(pc := Gone));
        }
      }
    case Start(luck, id) =>
      if x.pc.Locked? {
        StartKeepsInv(s, c, luck, id);
      }
    case List(luck, messages) =>
      if x.pc.Claimed? {
        LocalMoveKeepsInv(s, c, if luck.Fine? then x.(pc := Listed(messages), listed := Some(messages))
                                  else x.(pc := Completing(AgentRun.Failed)));
      }
    case Judge =>
      if x.pc.Listed? {
        JudgeKeepsInv(s, c);
      }
    case Work(succeeds) =>
      if x.pc.Working? {
        LocalMoveKeepsInv(s, c, x.(pc := Completing(if succeeds then AgentRun.Completed else AgentRun.Failed)));
      }
    case Complete(luck) =>
      if x.pc.Completing? {
        CompleteKeepsInv(s, c, luck);
      }
    case Unlock =>
      if x.pc.Leaving? {
        UnlockKeepsInv(s, c);
      }
  }

  lemma JudgeKeepsInv(s: State, c: nat)
    requires Inv(s) && c in s.callers && s.callers[c].pc.Listed?
    ensures Inv(Do(s, By(c, Judge)))
  {
    hide AgentRun.EligibleInbound, AdvisoryLockKey;
    var t := Do(s, By(c, Judge));
    forall d | d in t.callers ensures LockInv(t, d, t.callers[d]) && RunInv(t, t.callers[d]) {
      assert LockInv(s, d, s.callers[d]) && RunInv(s, s.callers[d]);
    }
  }

  lemma {:induction false} EveryRunKeepsInv(actions: seq<Action>)
    ensures Inv(Run(actions))
  {
    if actions != [] {
      EveryRunKeepsInv(actions[..|actions| - 1]);
      StepKeepsInv(Run(actions[..|actions| - 1]), actions[|actions| - 1]);
    }
  }
}
