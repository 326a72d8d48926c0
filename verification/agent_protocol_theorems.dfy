/** Exclusion, order, uniqueness and finality over every interleaving of agent runs. */
module AgentProtocolTheorems {
  import opened Model
  import Read
  import AgentRun
  import opened AgentProtocol

  // ---- Order ----

  /** A caller changes while messages, rows of passed runs and the history stay. */
  lemma LocalMoveKeepsOrder(s: State, t: State, c: nat)
    requires OrderInv(s) && c in s.callers && c in t.callers && t.callers == s.callers[c := t.callers[c]]
    requires t.messages == s.messages && t.passed == s.passed
    requires var x, y := s.callers[c], t.callers[c];
             && y.request == x.request && (x.run.Some? ==> y.run == x.run)
             && !y.pc.Listed? && (y.pc.Claimed? ==> x.run.None?)
    ensures OrderInv(t)
  {
    forall i | 0 <= i < |t.passed| ensures PassedInv(t, t.passed[i]) {
      assert PassedInv(s, s.passed[i]);
    }
    forall d | d in t.callers ensures ListedAfterPassed(t, t.callers[d]) {
      if d != c {
        assert ListedAfterPassed(s, s.callers[d]);
      }
    }
  }

  lemma ListedTail(s: State, conversation: Uuid, messages: seq<StoredMessage>)
    requires Lists(s, conversation, messages)
    ensures forall m :: m in messages ==> m.conversation == conversation && m.id in s.messages && s.messages[m.id] == m
    ensures messages == [] <==> OfConversation(s.messages, conversation) == {}
    ensures messages != [] ==> IsNewest(messages[|messages| - 1], OfConversation(s.messages, conversation))
  {
    var n: nat :|
      n > 0 && Read.Chronological(messages) && Read.IsTailOf(messages, OfConversation(s.messages, conversation), n);
    Read.LastListedIsNewest(messages, OfConversation(s.messages, conversation), n);
  }

  lemma ListKeepsOrder(s: State, c: nat, messages: seq<StoredMessage>)
    requires Inv(s) && OrderInv(s) && c in s.callers && s.callers[c].pc.Claimed?
    requires Lists(s, s.callers[c].request.conversation, messages)
    ensures OrderInv(With(s, c, s.callers[c].(pc := Listed(messages), listed := Some(messages))))
  {
    var x := s.callers[c];
    var conv := x.request.conversation;
    var t := With(s, c, x.(pc := Listed(messages), listed := Some(messages)));
    ListedTail(s, conv, messages);
    forall i | 0 <= i < |t.passed| ensures PassedInv(t, t.passed[i]) {
      assert PassedInv(s, s.passed[i]);
    }
    assert ListedAfterPassed(t, t.callers[c]) by {
      forall i | 0 <= i < |s.passed| && s.passed[i].message.conversation == conv
        ensures messages != []
                && (s.passed[i].message == messages[|messages| - 1] ||
                    Before(s.passed[i].message, messages[|messages| - 1]))
      {
        assert PassedInv(s, s.passed[i]);
        assert s.passed[i].message in OfConversation(s.messages, conv);
      }
    }
    forall d | d in t.callers ensures ListedAfterPassed(t, t.callers[d]) {
      if d != c {
        assert ListedAfterPassed(s, s.callers[d]);
      }
    }
  }

  /** Who is inside with the same key is the same caller. */
  lemma InsideIsUnique(s: State, c: nat, d: nat)
    requires Inv(s) && c in s.callers && d in s.callers && Inside(s.callers[c]) && Inside(s.callers[d])
    requires AdvisoryLockKey(s.callers[c].request.conversation) == AdvisoryLockKey(s.callers[d].request.conversation)
    ensures c == d
  {
    assert LockInv(s, c, s.callers[c]) && LockInv(s, d, s.callers[d]);
  }

  /** From s to t caller c passes eligibility: its own message is the newest it has listed. */
  ghost predicate Passes(s: State, t: State, c: nat) {
    && c in s.callers && s.callers[c].pc.Listed?
    && AgentRun.IsOwnNewest(s.callers[c].pc.messages, s.callers[c].request.message)
    && t == With(s.(passed := s.passed + [Passed(c, NewestListed(s, c))]), c, s.callers[c].(pc := Working))
  }

  ghost function NewestListed(s: State, c: nat): StoredMessage
    requires c in s.callers && s.callers[c].pc.Listed? && s.callers[c].pc.messages != []
  {
    s.callers[c].pc.messages[|s.callers[c].pc.messages| - 1]
  }

  /** The run about to pass comes after everything that has passed in its conversation. */
  lemma NextPassesLater(s: State, t: State, c: nat, i: nat)
    requires Inv(s) && OrderInv(s) && Passes(s, t, c) && i < |s.passed|
    requires s.passed[i].message.conversation == s.callers[c].request.conversation
    ensures Before(s.passed[i].message, NewestListed(s, c))
  {
    var x := s.callers[c];
    var p := s.passed[i];
    assert ListedAfterPassed(s, x) && PassedInv(s, p) && RunInv(s, x);
    assert p.caller != c;
    assert x.request.message != s.callers[p.caller].request.message;
  }

  lemma PassingKeepsPassed(s: State, t: State, c: nat)
    requires Inv(s) && OrderInv(s) && Passes(s, t, c)
    ensures NewestListed(s, c).conversation == s.callers[c].request.conversation
    ensures forall i :: 0 <= i < |t.passed| ==> PassedInv(t, t.passed[i])
  {
    assert RunInv(s, s.callers[c]);
    assert NewestListed(s, c) in s.callers[c].pc.messages;
    forall i | 0 <= i < |t.passed| ensures PassedInv(t, t.passed[i]) {
      if i < |s.passed| {
        assert PassedInv(s, s.passed[i]);
      }
    }
  }

  /** Nobody else has listed the conversation in the meantime: the lock is held. */
  lemma NobodyElseHasListed(s: State, c: nat, d: nat)
    requires Inv(s) && c in s.callers && s.callers[c].pc.Listed? && d in s.callers && d != c && s.callers[d].pc.Listed?
    ensures s.callers[d].request.conversation != s.callers[c].request.conversation
  {
    if s.callers[d].request.conversation == s.callers[c].request.conversation {
      InsideIsUnique(s, c, d);
    }
  }

  lemma PassingKeepsListed(s: State, t: State, c: nat, d: nat)
    requires Inv(s) && Passes(s, t, c) && NewestListed(s, c).conversation == s.callers[c].request.conversation
    requires d in s.callers && d != c && ListedAfterPassed(s, s.callers[d])
    ensures ListedAfterPassed(t, t.callers[d])
  {
    if s.callers[d].pc.Listed? {
      NobodyElseHasListed(s, c, d);
    }
  }

  lemma PassingKeepsOrder(s: State, t: State, c: nat)
    requires Inv(s) && OrderInv(s) && Passes(s, t, c)
    ensures OrderInv(t)
  {
    var n := |s.passed|;
    PassingKeepsPassed(s, t, c);
    forall i, j | 0 <= i < j < |t.passed| && t.passed[i].message.conversation == t.passed[j].message.conversation
      ensures Before(t.passed[i].message, t.passed[j].message)
    {
      if j == n {
        NextPassesLater(s, t, c, i);
      }
    }
    forall i, j | 0 <= i < j < |t.passed| ensures t.passed[i].caller != t.passed[j].caller {
      assert PassedInv(s, s.passed[i]);
    }
    forall d | d in t.callers ensures ListedAfterPassed(t, t.callers[d]) {
      if d != c {
        PassingKeepsListed(s, t, c, d);
      }
    }
  }

  lemma StoreKeepsOrder(s: State, m: StoredMessage)
    requires OrderInv(s)
    ensures OrderInv(Do(s, Store(m)))
  {
    var t := Do(s, Store(m));
    forall i | 0 <= i < |t.passed| ensures PassedInv(t, t.passed[i]) {
      assert PassedInv(s, s.passed[i]);
    }
    forall d | d in t.callers ensures ListedAfterPassed(t, t.callers[d]) {
      assert ListedAfterPassed(s, s.callers[d]);
    }
  }

  lemma EnterKeepsOrder(s: State, c: nat, x: Caller)
    requires OrderInv(s) && c !in s.callers && x.pc.Waiting?
    ensures OrderInv(With(s, c, x))
  {
    var t := With(s, c, x);
    forall i | 0 <= i < |t.passed| ensures PassedInv(t, t.passed[i]) {
      assert PassedInv(s, s.passed[i]);
    }
    forall d | d in t.callers ensures ListedAfterPassed(t, t.callers[d]) {
      if d in s.callers {
        assert ListedAfterPassed(s, s.callers[d]);
      }
    }
  }

  lemma {:induction false} StepKeepsOrder(s: State, a: Action)
    requires Inv(s) && OrderInv(s)
    ensures OrderInv(Do(s, a))
  {
    match a
    case Store(m) => StoreKeepsOrder(s, m);
    case Enter(c, request) =>
      if c !in s.callers {
        EnterKeepsOrder(s, c, NewCaller(request));
      }
    case By(c, move) =>
      if c in s.callers {
        MoveKeepsOrder(s, c, move);
      }
  }

  lemma {:induction false} MoveKeepsOrder(s: State, c: nat, move: Move)
    requires Inv(s) && OrderInv(s) && c in s.callers
    ensures OrderInv(MoveOf(s, c, s.callers[c], move))
  {
    var x := s.callers[c];
    var t := MoveOf(s, c, x, move);
    if move.List? && move.luck.Fine? && x.pc.Claimed? && Lists(s, x.request.conversation, move.messages) {
      ListKeepsOrder(s, c, move.messages);
    } else if move.Judge? && x.pc.Listed? && AgentRun.EligibleInbound(x.pc.messages, x.request.message) {
      PassingKeepsOrder(s, t, c);
    } else if t != s {
      QuietMove(s, c, move);
      LocalMoveKeepsOrder(s, t, c);
    }
  }

  /** What every move but a listing and a passing leaves as it was. */
  lemma QuietMove(s: State, c: nat, move: Move)
    requires c in s.callers && RunInv(s, s.callers[c]) && MoveOf(s, c, s.callers[c], move) != s
    requires move.List? ==> !move.luck.Fine?
    requires move.Judge? ==> !AgentRun.EligibleInbound(s.callers[c].pc.messages, s.callers[c].request.message)
    ensures var x, t := s.callers[c], MoveOf(s, c, s.callers[c], move);
            && t.messages == s.messages && t.passed == s.passed
            && c in t.callers && t.callers == s.callers[c := t.callers[c]]
            && var y := t.callers[c];
               && y.request == x.request && (x.run.Some? ==> y.run == x.run)
               && !y.pc.Listed? && (y.pc.Claimed? ==> x.run.None?)
  {
  }

  lemma {:induction false} EveryRunKeepsOrder(actions: seq<Action>)
    ensures Inv(Run(actions)) && OrderInv(Run(actions))
  {
    EveryRunKeepsInv(actions);
    if actions != [] {
      var before := actions[..|actions| - 1];
      EveryRunKeepsOrder(before);
      StepKeepsOrder(Run(before), actions[|actions| - 1]);
    }
  }

  // ---- The theorems ----

  /** Two lock bodies of one conversation never overlap. */
  lemma {:induction false} LockBodiesNeverOverlap(actions: seq<Action>, c: nat, d: nat)
    requires var s := Run(actions);
             && c in s.callers && d in s.callers && Inside(s.callers[c]) && Inside(s.callers[d])
             && s.callers[c].request.conversation == s.callers[d].request.conversation
    ensures c == d
  {
    EveryRunKeepsInv(actions);
    InsideIsUnique(Run(actions), c, d);
  }

  /** Runs that get past eligibility do so in strictly increasing order of their inbound messages. */
  lemma {:induction false} PassedRunsAdvance(actions: seq<Action>, i: nat, j: nat)
    requires i < j < |Run(actions).passed|
    requires Run(actions).passed[i].message.conversation == Run(actions).passed[j].message.conversation
    ensures Before(Run(actions).passed[i].message, Run(actions).passed[j].message)
  {
    EveryRunKeepsOrder(actions);
  }

  /** Whatever conversation and timing the callers use, one inbound message is claimed by one caller and passes once. */
  lemma {:induction false} OneRunPerMessage(actions: seq<Action>, c: nat, d: nat)
    requires var s := Run(actions);
             && c in s.callers && d in s.callers && s.callers[c].run.Some? && s.callers[d].run.Some?
             && s.callers[c].request.message == s.callers[d].request.message
    ensures c == d
  {
    EveryRunKeepsInv(actions);
  }

  lemma PassedMessagesAreDistinct(actions: seq<Action>, i: nat, j: nat)
    requires i < j < |Run(actions).passed|
    ensures Run(actions).passed[i].message.id != Run(actions).passed[j].message.id
  {
    EveryRunKeepsOrder(actions);
    var s := Run(actions);
    var p, q := s.passed[i], s.passed[j];
    assert PassedInv(s, p) && PassedInv(s, q) && p.caller != q.caller;
  }

  /** A claimed run is completed exactly once by the time its caller leaves, and never before it is due. */
  lemma {:induction false} CompletedExactlyOnce(actions: seq<Action>, c: nat)
    requires c in Run(actions).callers
    ensures var x := Run(actions).callers[c];
            && (x.pc.Gone? || x.pc.Leaving? ==> x.completions == if x.run.Some? then 1 else 0)
            && x.completions <= 1
  {
    EveryRunKeepsInv(actions);
    assert RunInv(Run(actions), Run(actions).callers[c]);
  }

  lemma StepKeepsRows(s: State, a: Action, m: Uuid)
    requires Inv(s) && m in s.runs
    ensures var t := Do(s, a);
            && m in t.runs && t.runs[m].id == s.runs[m].id
            && (s.runs[m].status.Done? ==> t.runs[m] == s.runs[m])
  {
    hide AgentRun.EligibleInbound, Lists, AdvisoryLockKey;
    if a.By? && a.c in s.callers && a.move.Complete? && s.callers[a.c].pc.Completing? {
      var x := s.callers[a.c];
      assert RunInv(s, x);
    }
  }

  /** A run row, once made, stays; it goes from running to one terminal status at most and then never changes,
      although the UPDATE that completes it asks for no status. */
  lemma {:induction false} TerminalIsFinal(actions: seq<Action>, n: nat, m: Uuid)
    requires n <= |actions| && m in Run(actions[..n]).runs
    ensures var s, t := Run(actions[..n]), Run(actions);
            && m in t.runs && t.runs[m].id == s.runs[m].id
            && (s.runs[m].status.Done? ==> t.runs[m] == s.runs[m])
    decreases |actions| - n
  {
    if n == |actions| {
      assert actions[..n] == actions;
    } else {
      assert actions[..n + 1][..n] == actions[..n];
      EveryRunKeepsInv(actions[..n]);
      StepKeepsRows(Run(actions[..n]), actions[n], m);
      TerminalIsFinal(actions, n + 1, m);
    }
  }

  // ---- Each call by its own list ----

  /** A move changes the callers only by replacing its own. */
  ghost predicate IsOwn(before: map<nat, Caller>, after: map<nat, Caller>, c: nat) {
    c in after && after == before[c := after[c]]
  }

  lemma {:induction false} UpdatesAreOwn(callers: map<nat, Caller>, c: nat)
    ensures forall x {:trigger callers[c := x]} :: IsOwn(callers, callers[c := x], c)
    ensures c in callers ==> IsOwn(callers, callers, c)
  {
    assert c in callers ==> callers == callers[c := callers[c]];
  }

  lemma {:induction false} MoveIsOwn(s: State, c: nat, move: Move)
    requires c in s.callers
    ensures IsOwn(s.callers, MoveOf(s, c, s.callers[c], move).callers, c)
  {
    hide AgentRun.EligibleInbound, Lists, Updated, AdvisoryLockKey, FreshRun, IsOwn;
    UpdatesAreOwn(s.callers, c);
  }

  lemma {:induction false} MoveKeepsList(s: State, c: nat, move: Move)
    requires c in s.callers && ListInv(s.callers[c]) && c in MoveOf(s, c, s.callers[c], move).callers
    ensures ListInv(MoveOf(s, c, s.callers[c], move).callers[c])
  {
    hide ListInv, AgentRun.EligibleInbound, Lists, Updated, AdvisoryLockKey, FreshRun;
    var x, y := s.callers[c], MoveOf(s, c, s.callers[c], move).callers[c];
    assert y == x || Moved(x, y);
    if y != x {
      MovedKeepsList(x, y);
    }
  }

  /** What a move may make of its own caller. */
  ghost predicate Moved(x: Caller, y: Caller) {
    && y.request == x.request
    && match x.pc
       case Waiting => y.pc in {Locked, Gone} && y.listed == x.listed && y.ended == x.ended
       case Locked => y.pc in {Leaving, Claimed} && y.listed == x.listed && y.ended == x.ended
       case Claimed =>
         && y.ended == x.ended
         && (if y.pc.Listed? then y.listed == Some(y.pc.messages)
             else y.pc == Completing(AgentRun.Failed) && y.listed == x.listed)
       case Listed(messages) =>
         && y.listed == x.listed && y.ended == x.ended
         && (y.pc == if AgentRun.EligibleInbound(messages, x.request.message) then Working
                     else Completing(AgentRun.Skipped))
       case Working =>
         && y.listed == x.listed && y.ended == x.ended
         && y.pc in {Completing(AgentRun.Completed), Completing(AgentRun.Failed)}
       case Completing(outcome) => y.listed == x.listed && y.ended == Some(outcome) && y.pc == Leaving
       case _ => y.listed == x.listed && y.ended == x.ended && y.pc == Gone
  }

  lemma {:induction false} MovedKeepsList(x: Caller, y: Caller)
    requires ListInv(x) && Moved(x, y)
    ensures ListInv(y)
  {
    hide AgentRun.EligibleInbound;
  }

  lemma {:induction false} EveryRunKeepsLists(actions: seq<Action>)
    ensures forall c :: c in Run(actions).callers ==> ListInv(Run(actions).callers[c])
  {
    hide MoveOf, ListInv;
    if actions != [] {
      var s, a := Run(actions[..|actions| - 1]), actions[|actions| - 1];
      EveryRunKeepsLists(actions[..|actions| - 1]);
      if a.By? && a.c in s.callers {
        MoveIsOwn(s, a.c, a.move);
        MoveKeepsList(s, a.c, a.move);
      } else if a.Enter? {
        NewCallerHasNoList(a.request);
      }
    }
  }

  lemma {:induction false} NewCallerHasNoList(request: AgentRun.ProcessRequest)
    ensures ListInv(NewCaller(request))
  {
  }

  /** However the calls interleave, a call that has completed its run gave it the status that its own list calls for,
      as ProcessSync does by itself, and its row shows that status or, if it could not be written, still runs. */
  lemma {:induction false} EveryCallEndsAsListed(actions: seq<Action>, c: nat)
    requires c in Run(actions).callers && Run(actions).callers[c].completions > 0
    ensures var s, x := Run(actions), Run(actions).callers[c];
            && x.ended.Some? && EndsAsListed(x.ended.value, x)
            && x.run.Some? && x.request.message in s.runs && s.runs[x.request.message].id == x.run.value
            && (s.runs[x.request.message].status == Running || s.runs[x.request.message].status == Done(x.ended.value))
  {
    hide AgentRun.EligibleInbound, EndsAsListed;
    EveryRunKeepsInv(actions);
    EveryRunKeepsLists(actions);
    var x := Run(actions).callers[c];
    assert RunInv(Run(actions), x) && ListInv(x);
  }
}
