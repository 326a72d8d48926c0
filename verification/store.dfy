/** Receive and RecordOutbound as their callers run them, one call with nobody else at work: every statement
    may fail, and a transaction that is not committed leaves nothing behind. */
module StoreCalls {
  import opened Text
  import opened Model
  import opened Ingest
  import opened IngestProofs
  import opened IngestTheorems

  datatype CommitLuck = Committed | NotCommitted | AnswerLost

  /** How the statements of one call fare, and what a new row would get. */
  datatype StoreEnv = StoreEnv(
    fails: nat -> bool,
    conversationId: Uuid,
    messageId: Uuid,
    now: int,
    userKnown: bool,
    commit: CommitLuck)

  datatype Inserted = Row(tx: Tx) | Violation | StatementError

  // ---- One call in the machine of all calls ----

  /** How the statement at `pc` fares. */
  function LuckAt(pc: Pc, env: StoreEnv): Luck {
    match pc
    case PreCheck => if env.fails(0) then Broken else Fine(NIL, env.now)
    case Begin => if env.fails(1) then Broken else Fine(NIL, env.now)
    case FindConversation => if env.fails(2) then Broken else Fine(NIL, env.now)
    case CheckConversation => if env.fails(2) then Broken else Fine(NIL, env.now)
    case MakeConversation => if env.fails(3) then Broken else Fine(env.conversationId, env.now)
    case InsertMessage(_) => if env.fails(4) then Broken else Fine(env.messageId, env.now)
    case Recover => if env.fails(5) then Broken else Fine(NIL, env.now)
    case Touch(_) => if env.fails(6) then Broken else Fine(NIL, env.now)
    case Link(_) => if env.fails(7) then Broken else if env.userKnown then Fine(NIL, env.now) else UnknownUser
    case Commit(_) =>
      if env.commit == Committed then Fine(NIL, env.now) else if env.commit == AnswerLost then Lost else Broken
    case _ => Broken
  }

  /** The one caller of the machine, alone with the tables. */
  function Only(t: Tables, x: Caller): State {
    State(t, map[0 := x])
  }

  ghost function StepAlone(t: Tables, x: Caller, env: StoreEnv): (Tables, Caller) {
    var luck := LuckAt(x.pc, env);
    (if TakesEffect(x, luck) then Applied(t, x.tx) else t, Next(Only(t, x), 0, x, luck))
  }

  ghost function Alone(t: Tables, x: Caller, env: StoreEnv, n: nat): (Tables, Caller)
    decreases n
  {
    if n == 0 then (t, x) else
    var (u, y) := StepAlone(t, x, env);
    Alone(u, y, env, n - 1)
  }

  /** Statement by statement the machine takes the one caller from x to y, and the tables from t to u. */
  ghost predicate Reaches(t: Tables, x: Caller, u: Tables, y: Caller, env: StoreEnv) {
    exists n: nat :: Alone(t, x, env, n) == (u, y)
  }

  lemma {:induction false} ReachesItself(t: Tables, x: Caller, env: StoreEnv)
    ensures Reaches(t, x, t, x, env)
  {
    assert Alone(t, x, env, 0) == (t, x);
  }

  /** One statement more. */
  lemma {:induction false} ReachesOn(t: Tables, x: Caller, u: Tables, y: Caller, env: StoreEnv)
    requires Reaches(t, x, u, y, env)
    ensures var (v, z) := StepAlone(u, y, env); Reaches(t, x, v, z, env)
  {
    hide StepAlone;
    var n: nat :| Alone(t, x, env, n) == (u, y);
    AloneOnce(t, x, env, n);
    var (v, z) := StepAlone(u, y, env);
    assert Alone(t, x, env, n + 1) == (v, z);
  }

  lemma {:induction false} AloneOnce(t: Tables, x: Caller, env: StoreEnv, n: nat)
    ensures var (u, y) := Alone(t, x, env, n); Alone(t, x, env, n + 1) == StepAlone(u, y, env)
    decreases n
  {
    hide StepAlone;
    if n > 0 {
      var (u, y) := StepAlone(t, x, env);
      AloneOnce(u, y, env, n - 1);
    } else {
      var (u, y) := StepAlone(t, x, env);
      assert Alone(u, y, env, 0) == (u, y);
    }
  }

  lemma {:induction false} ReachesThrough(t: Tables, x: Caller, u: Tables, y: Caller, v: Tables, z: Caller,
                                          env: StoreEnv)
    requires Reaches(t, x, u, y, env) && Reaches(u, y, v, z, env)
    ensures Reaches(t, x, v, z, env)
  {
    var n: nat :| Alone(t, x, env, n) == (u, y);
    var m: nat :| Alone(u, y, env, m) == (v, z);
    AloneAdds(t, x, env, n, m);
    assert Alone(t, x, env, n + m) == (v, z);
  }

  lemma {:induction false} AloneAdds(t: Tables, x: Caller, env: StoreEnv, n: nat, m: nat)
    ensures var (u, y) := Alone(t, x, env, n); Alone(t, x, env, n + m) == Alone(u, y, env, m)
    decreases n
  {
    hide StepAlone;
    if n > 0 {
      var (u, y) := StepAlone(t, x, env);
      AloneAdds(u, y, env, n - 1, m);
    }
  }

  /** A call on its way. */
  function At(r: Request, pc: Pc, tx: Tx): Caller {
    Caller(r, pc, tx, false, false)
  }

  function Called(r: Request): Caller {
    Caller(r, if ValidRequest(r) then PreCheck else Returned(Failure), NoTx, false, false)
  }

  /** The machine of all calls, with this one alone, ends with this answer and these tables. */
  ghost predicate EndsIn(t: Tables, x: Caller, u: Tables, answer: Answer, env: StoreEnv) {
    exists y: Caller :: y.pc == Returned(answer) && Reaches(t, x, u, y, env)
  }

  lemma {:induction false} EndsLater(t: Tables, x: Caller, u: Tables, y: Caller, v: Tables, answer: Answer,
                                     env: StoreEnv)
    requires Reaches(t, x, u, y, env) && EndsIn(u, y, v, answer, env)
    ensures EndsIn(t, x, v, answer, env)
  {
    hide Reaches;
    var z: Caller :| z.pc == Returned(answer) && Reaches(u, y, v, z, env);
    ReachesThrough(t, x, u, y, v, z, env);
  }

  // ---- One call among calls that are over ----

  /** No other call has a transaction open. */
  ghost predicate NobodyElseIsOpen(s: State, c: nat) {
    forall d :: d in s.callers && d != c ==> !s.callers[d].tx.Open?
  }

  lemma {:induction false} NextIsAsAlone(s: State, c: nat, luck: Luck)
    requires c in s.callers && NobodyElseIsOpen(s, c)
    ensures Next(s, c, s.callers[c], luck) == Next(Only(s.tables, s.callers[c]), 0, s.callers[c], luck)
  {
    hide FindMessage, FindConv, StoredProvider, NewRow, Existing;
    var only := Only(s.tables, s.callers[c]);
    assert only.callers[0] == s.callers[c];
    assert FreshConversation(s, if luck.Fine? then luck.id else NIL) <==>
           FreshConversation(only, if luck.Fine? then luck.id else NIL);
    assert FreshMessage(s, if luck.Fine? then luck.id else NIL) <==>
           FreshMessage(only, if luck.Fine? then luck.id else NIL);
  }

  /** A statement of such a call is the machine's own step. */
  lemma {:induction false} StepAloneIsAStep(s: State, c: nat, env: StoreEnv)
    requires c in s.callers && NobodyElseIsOpen(s, c)
    ensures var (u, y) := StepAlone(s.tables, s.callers[c], env);
            Do(s, Statement(c, LuckAt(s.callers[c].pc, env))) == State(u, s.callers[c := y])
  {
    hide Next, Applied, TakesEffect, LuckAt;
    NextIsAsAlone(s, c, LuckAt(s.callers[c].pc, env));
  }

  lemma {:induction false} AloneIsARun(history: seq<Action>, c: nat, env: StoreEnv, n: nat) returns (more: seq<Action>)
    requires c in Run(history).callers && NobodyElseIsOpen(Run(history), c)
    ensures var s := Run(history);
            var (u, y) := Alone(s.tables, s.callers[c], env, n);
            Run(history + more) == State(u, s.callers[c := y])
    decreases n
  {
    hide StepAlone, Do, LuckAt;
    var s := Run(history);
    if n == 0 {
      more := [];
      assert history + [] == history && s.callers[c := s.callers[c]] == s.callers;
    } else {
      var a := Statement(c, LuckAt(s.callers[c].pc, env));
      StepAloneIsAStep(s, c, env);
      assert (history + [a])[..|history|] == history;
      var (u, y) := StepAlone(s.tables, s.callers[c], env);
      var rest := AloneIsARun(history + [a], c, env, n - 1);
      more := [a] + rest;
      assert history + more == (history + [a]) + rest;
      var (v, z) := Alone(u, y, env, n - 1);
      assert s.callers[c := y][c := z] == s.callers[c := z];
    }
  }

  /** What a call comes to on its own is a run of the machine: after any run that leaves no transaction open, the call's
      own statements lead to its tables and its answer, and again none is open. */
  lemma {:induction false} CallIsARunOfTheMachine(history: seq<Action>, c: nat, r: Request, u: Tables, answer: Answer,
                                                  env: StoreEnv) returns (more: seq<Action>)
    requires c !in Run(history).callers && NobodyElseIsOpen(Run(history), c)
    requires EndsIn(Run(history).tables, Called(r), u, answer, env)
    ensures var s, t := Run(history), Run(history + more);
            && t.tables == u && c in t.callers && t.callers == s.callers[c := t.callers[c]]
            && t.callers[c].pc == Returned(answer) && t.callers[c].request == r
    ensures forall d :: d in Run(history + more).callers ==> !Run(history + more).callers[d].tx.Open?
  {
    hide Alone, Do, Run, ValidRequest;
    var s, a := Run(history), Invoke(c, r);
    var y: Caller :| y.pc == Returned(answer) && Reaches(s.tables, Called(r), u, y, env);
    var n: nat :| Alone(s.tables, Called(r), env, n) == (u, y);
    Invoked(history, c, r);
    var rest := AloneIsARun(history + [a], c, env, n);
    more := [a] + rest;
    assert history + more == (history + [a]) + rest;
    assert s.callers[c := Called(r)][c := y] == s.callers[c := y];
    RequestOfInvoked(history, a, rest);
    ReturnedIsClosed(history + more, c);
  }

  lemma {:induction false} Invoked(history: seq<Action>, c: nat, r: Request)
    requires c !in Run(history).callers
    ensures Run(history + [Invoke(c, r)]) == State(Run(history).tables, Run(history).callers[c := Called(r)])
  {
    hide Next;
    assert (history + [Invoke(c, r)])[..|history|] == history;
  }

  lemma {:induction false} ReturnedIsClosed(actions: seq<Action>, c: nat)
    requires c in Run(actions).callers && Run(actions).callers[c].pc.Returned?
    ensures !Run(actions).callers[c].tx.Open?
  {
    hide Run;
    EveryRunKeepsInv(actions);
    assert CallerInv(Run(actions).tables, Run(actions).callers[c]);
  }

  lemma {:induction false} RequestOfInvoked(history: seq<Action>, a: Action, rest: seq<Action>)
    requires a.Invoke? && a.caller !in Run(history).callers
    ensures var s := Run(history + ([a] + rest)); a.caller in s.callers && s.callers[a.caller].request == a.request
    decreases |rest|
  {
    hide Next, Applied, TakesEffect;
    var all := history + ([a] + rest);
    if rest == [] {
      assert all[..|history|] == history && all[|history|] == a && |all| == |history| + 1;
    } else {
      var n := |rest| - 1;
      RequestOfInvoked(history, a, rest[..n]);
      assert all[..|all| - 1] == history + ([a] + rest[..n]) && all[|all| - 1] == rest[n];
      RequestKept(Run(history + ([a] + rest[..n])), rest[n], a.caller);
    }
  }

  // ---- The statements one by one ----

  lemma {:induction false} BeginStep(t: Tables, r: Request, env: StoreEnv)
    ensures StepAlone(t, At(r, Begin, NoTx), env) ==
            (t, if env.fails(1) then At(r, Returned(Failure), NoTx)
                else At(r, if r.Receive? then FindConversation else CheckConversation, Open(None, None, None, None)))
  {
  }

  lemma {:induction false} CheckStep(t: Tables, r: Request, env: StoreEnv)
    requires r.RecordOutbound?
    ensures StepAlone(t, At(r, CheckConversation, Open(None, None, None, None)), env) ==
            (t, if env.fails(2) || r.conversation !in t.conversations then At(r, Returned(Failure), NoTx)
                else At(r, InsertMessage(r.conversation), Open(None, None, None, None)))
  {
  }

  lemma {:induction false} FindStep(t: Tables, r: Request, env: StoreEnv)
    requires r.Receive?
    ensures var found := FindConv(t, r.channel, r.key);
            StepAlone(t, At(r, Pc.FindConversation, Open(None, None, None, None)), env) ==
            (t, if env.fails(2) then At(r, Returned(Failure), NoTx)
                else
                  var next := if found.Some? then InsertMessage(found.value) else MakeConversation;
                  At(r, next, Open(None, None, None, None)))
  {
    hide FindConv;
  }

  lemma {:induction false} MakeStep(t: Tables, r: Request, env: StoreEnv)
    requires r.Receive? && FindConv(t, r.channel, r.key).None?
    requires env.conversationId != NIL && env.conversationId !in t.conversations
    ensures StepAlone(t, At(r, MakeConversation, Open(None, None, None, None)), env) ==
            (t, if env.fails(3) then At(r, Returned(Failure), NoTx)
                else At(r, InsertMessage(env.conversationId),
                        Open(Some((env.conversationId, Conversation(r.channel, r.key, env.now))), None, None, None)))
  {
    hide FindConv, HoldsProvider, FreshMessage;
    var x := At(r, MakeConversation, Open(None, None, None, None));
    assert FreshConversation(Only(t, x), env.conversationId);
  }

  lemma {:induction false} InsertStep(t: Tables, r: Request, conv: Uuid, tx: Tx, env: StoreEnv)
    requires tx.Open? && tx.message.None? && env.messageId != NIL && env.messageId !in t.messages
    ensures var row := NewRow(r, env.messageId, conv, env.now);
            StepAlone(t, At(r, InsertMessage(conv), tx), env) ==
            (t, if env.fails(4) then At(r, Returned(Failure), NoTx)
                else if KnownByTrimmedId(t, r) then At(r, Recover, Aborted)
                else At(r, Touch(conv), tx.(message := Some(row))))
  {
    hide FindMessage, StoredProvider, HoldsKey, FreshConversation, NewRow;
    var x := At(r, InsertMessage(conv), tx);
    assert FreshMessage(Only(t, x), env.messageId);
  }

  lemma {:induction false} RecoverStep(t: Tables, r: Request, env: StoreEnv)
    requires r.provider.Some?
    ensures var found := FindMessage(t, r.channel, r.provider.value);
            StepAlone(t, At(r, Recover, Aborted), env) ==
            (t, At(r, Returned(if env.fails(5) || found.None? then Failure else Existing(t, found.value)), NoTx))
  {
    hide FindMessage;
  }

  lemma {:induction false} TouchStep(t: Tables, r: Request, conv: Uuid, tx: Tx, env: StoreEnv)
    requires tx.Open? && tx.message.Some?
    ensures StepAlone(t, At(r, Touch(conv), tx), env) ==
            (t, if env.fails(6) then At(r, Returned(Failure), NoTx)
                else At(r, if r.Receive? && r.user.Some? then Link(conv) else Commit(conv),
                        tx.(touched := Some((conv, tx.message.value.createdAt)))))
  {
  }

  lemma {:induction false} LinkStep(t: Tables, r: Request, conv: Uuid, tx: Tx, env: StoreEnv)
    requires tx.Open? && r.Receive? && r.user.Some?
    ensures StepAlone(t, At(r, Link(conv), tx), env) ==
            (t, if env.fails(7) then At(r, Returned(Failure), NoTx)
                else
                  var joined := if env.userKnown then tx.(participant := Some((conv, r.user.value))) else Aborted;
                  At(r, Commit(conv), joined))
  {
  }

  lemma {:induction false} AbortedCommitStep(t: Tables, r: Request, conv: Uuid, env: StoreEnv)
    ensures StepAlone(t, At(r, Commit(conv), Aborted), env) == (t, At(r, Returned(Failure), NoTx))
  {
  }

  lemma {:induction false} CommitStep(t: Tables, r: Request, conv: Uuid, tx: Tx, env: StoreEnv)
    requires tx.Open? && tx.message.Some?
    ensures var m := tx.message.value;
            var (u, y) := StepAlone(t, At(r, Commit(conv), tx), env);
            && u == (if env.commit == NotCommitted then t else Applied(t, tx))
            && y.pc == Returned(if env.commit != Committed then Failure
                                else Success(IngestResult(conv, m.id, m.createdAt, false)))
  {
    hide Applied;
  }

  // ---- The calls ----

  class Store {
    var tables: Tables

    /** The new ids are no row's. */
    ghost predicate Fresh(env: StoreEnv)
      reads this
    {
      && env.conversationId != NIL && env.conversationId !in tables.conversations
      && env.messageId != NIL && env.messageId !in tables.messages
    }

    method FindExistingByProviderMessageId(channel: string, provider: string) returns (r: Option<Uuid>)
      requires TablesInv(tables)
      ensures r == FindMessage(tables, channel, provider)
    {
      var rest := tables.messages.Keys;
      while rest != {}
        invariant rest <= tables.messages.Keys
        invariant forall id :: id in tables.messages && id !in rest ==> !Carries(tables.messages[id], channel, provider)
        decreases rest
      {
        var id :| id in rest;
        var m := tables.messages[id];
        if m.channel == channel && m.provider == Some(provider) {
          return Some(id);
        }
        rest := rest - {id};
      }
      return None;
    }

    method FindConversation(channel: string, key: string) returns (r: Option<Uuid>)
      requires TablesInv(tables)
      ensures r == FindConv(tables, channel, key)
    {
      var rest := tables.conversations.Keys;
      while rest != {}
        invariant rest <= tables.conversations.Keys
        invariant forall id :: id in tables.conversations && id !in rest ==>
                    !Keyed(tables.conversations[id], channel, key)
        decreases rest
      {
        var id :| id in rest;
        var c := tables.conversations[id];
        if c.channel == channel && c.key == key {
          return Some(id);
        }
        rest := rest - {id};
      }
      return None;
    }

    /** Alone, the insert of a conversation that was not found cannot violate the key. */
    method GetOrCreateConversation(r: Request, env: StoreEnv) returns (conv: Option<Uuid>, tx: Tx)
      requires TablesInv(tables) && Fresh(env) && r.Receive?
      ensures conv.Some? ==> tx.Open? && tx.message.None? && tx.touched.None? && tx.participant.None?
      ensures conv.Some? ==>
                if FindConv(tables, r.channel, r.key).Some? then
                  conv == FindConv(tables, r.channel, r.key) && tx.conversation.None?
                else conv == Some(env.conversationId)
                     && tx.conversation == Some((env.conversationId, Conversation(r.channel, r.key, env.now)))
      ensures conv.None? ==> env.fails(2) || env.fails(3)
      ensures Reaches(tables, At(r, Pc.FindConversation, Open(None, None, None, None)), tables,
                      if conv.None? then At(r, Returned(Failure), NoTx) else At(r, InsertMessage(conv.value), tx), env)
    {
      hide StepAlone, Reaches;
      ghost var x := At(r, Pc.FindConversation, Open(None, None, None, None));
      ReachesItself(tables, x, env);
      ReachesOn(tables, x, tables, x, env);
      FindStep(tables, r, env);
      tx := Open(None, None, None, None);
      if env.fails(2) {
        return None, tx;
      }
      conv := FindConversation(r.channel, r.key);
      if conv.Some? {
        return;
      }
      ReachesOn(tables, x, tables, At(r, MakeConversation, tx), env);
      MakeStep(tables, r, env);
      if env.fails(3) {
        return None, tx;
      }
      var made := (env.conversationId, Conversation(r.channel, r.key, env.now));
      return Some(env.conversationId), tx.(conversation := Some(made));
    }

    method InsertRow(r: Request, conv: Uuid, tx: Tx, env: StoreEnv) returns (result: Inserted)
      requires TablesInv(tables) && tx.Open? && tx.message.None?
      requires env.messageId != NIL && env.messageId !in tables.messages
      ensures result.Row? ==> result.tx == tx.(message := Some(NewRow(r, env.messageId, conv, env.now)))
      ensures result.Violation? <==> !env.fails(4) && KnownByTrimmedId(tables, r)
      ensures result.Violation? ==> r.provider.Some?
      ensures result.StatementError? <==> env.fails(4)
      ensures StepAlone(tables, At(r, InsertMessage(conv), tx), env) ==
              (tables, match result
                       case Row(longer) => At(r, Touch(conv), longer)
                       case Violation => At(r, Recover, Aborted)
                       case StatementError => At(r, Returned(Failure), NoTx))
    {
      hide StepAlone, FindMessage, NewRow;
      InsertStep(tables, r, conv, tx, env);
      if env.fails(4) {
        return StatementError;
      }
      var provider := StoredProvider(r.provider);
      if provider.Some? {
        var holder := FindExistingByProviderMessageId(r.channel, provider.value);
        if holder.Some? {
          return Violation;
        }
      }
      return Row(tx.(message := Some(NewRow(r, env.messageId, conv, env.now))));
    }

    /** The look-up before the transaction, by the raw provider id. */
    method PreCheckDuplicate(r: Request, env: StoreEnv) returns (answer: Option<Answer>)
      requires TablesInv(tables)
      ensures answer.Some? && answer.value.Success? ==> IsDuplicateAnswer(tables, r, answer.value.result)
      ensures answer == Some(Failure) ==> env.fails(0)
      ensures answer.None? ==> !KnownByRawId(tables, r)
      ensures !env.fails(0) ==> (answer.Some? <==> KnownByRawId(tables, r))
      ensures StepAlone(tables, At(r, PreCheck, NoTx), env) ==
              (tables, if answer.Some? then At(r, Returned(answer.value), NoTx) else At(r, Begin, NoTx))
    {
      hide FindMessage;
      if r.provider.None? || Blank(r.provider.value) {
        return None;
      }
      if env.fails(0) {
        return Some(Failure);
      }
      var found := FindExistingByProviderMessageId(r.channel, r.provider.value);
      if found.Some? {
        return Some(Success(AnswerFor(found.value)));
      }
      return None;
    }

    function AnswerFor(id: Uuid): IngestResult
      requires id in tables.messages
      reads this
    {
      IngestResult(tables.messages[id].conversation, id, tables.messages[id].createdAt, true)
    }

    /** Insert, time stamp, participant and commit, in a transaction that has its conversation. */
    method Finish(r: Request, conv: Uuid, tx: Tx, env: StoreEnv) returns (answer: Answer)
      requires TablesInv(tables) && ReadyFor(tables, r, conv, tx)
      requires env.messageId != NIL && env.messageId !in tables.messages
      modifies this
      ensures TablesInv(tables)
      ensures Atomic(old(tables), tables, r, answer, env)
      ensures answer.Failure? ==> Excused(old(tables), r, env)
      ensures Undisturbed(env) && !KnownByRawId(old(tables), r) ==>
                (answer.Success? <==> !KnownByTrimmedId(old(tables), r) && UserIsKnown(r, env))
      ensures EndsIn(old(tables), At(r, InsertMessage(conv), tx), tables, answer, env)
    {
      hide StepAlone, Reaches, NewRow, KnownByTrimmedId, KnownByRawId, TablesInv, ReadyFor, Atomic, Excused,
           UserIsKnown;
      ghost var t, x := tables, At(r, InsertMessage(conv), tx);
      assert tx.Open? && tx.message.None? by {
        OpenWhenReady(t, r, conv, tx);
      }
      ReachesItself(t, x, env);
      ReachesOn(t, x, t, x, env);
      var inserted := InsertRow(r, conv, tx, env);
      if inserted.Violation? && r.provider.Some? {
        answer := RecoverDuplicate(r, env);
        EndsLater(t, x, t, At(r, Recover, Aborted), tables, answer, env);
        return;
      }
      if !inserted.Row? {
        FailedStatement(t, r, env, 4);
        return Failure;
      }
      ReachesOn(t, x, t, At(r, Touch(conv), inserted.tx), env);
      TouchStep(t, r, conv, inserted.tx, env);
      if env.fails(6) {
        FailedStatement(t, r, env, 6);
        return Failure;
      }
      assert NewRow(r, env.messageId, conv, env.now).createdAt == env.now by {
        RowIsStamped(r, env.messageId, conv, env.now);
      }
      answer := LinkAndCommit(r, conv, inserted.tx, tx, env);
      EndsLater(t, x, t, At(r, if r.Receive? && r.user.Some? then Link(conv) else Commit(conv),
                            inserted.tx.(touched := Some((conv, env.now)))), tables, answer, env);
    }

    /** The look-up after a unique violation: for the raw id, not for the trimmed one that was in the way. */
    method RecoverDuplicate(r: Request, env: StoreEnv) returns (answer: Answer)
      requires TablesInv(tables) && r.provider.Some? && KnownByTrimmedId(tables, r)
      ensures Atomic(tables, tables, r, answer, env)
      ensures answer.Failure? ==> Excused(tables, r, env)
      ensures !KnownByRawId(tables, r) ==> answer == Failure
      ensures EndsIn(tables, At(r, Recover, Aborted), tables, answer, env)
    {
      hide StepAlone, Reaches;
      ReachesItself(tables, At(r, Recover, Aborted), env);
      ReachesOn(tables, At(r, Recover, Aborted), tables, At(r, Recover, Aborted), env);
      RecoverStep(tables, r, env);
      if env.fails(5) {
        return Failure;
      }
      var found := FindExistingByProviderMessageId(r.channel, r.provider.value);
      return if found.Some? then Success(AnswerFor(found.value)) else Failure;
    }

    /** The participant and the commit, for a transaction with its message in it. */
    method LinkAndCommit(r: Request, conv: Uuid, tx: Tx, ghost before: Tx, env: StoreEnv) returns (answer: Answer)
      requires TablesInv(tables) && env.messageId !in tables.messages && ReadyFor(tables, r, conv, before)
      requires before.Open? && tx == before.(message := Some(NewRow(r, env.messageId, conv, env.now)))
      requires !KnownByTrimmedId(tables, r)
      modifies this
      ensures TablesInv(tables)
      ensures Atomic(old(tables), tables, r, answer, env)
      ensures answer.Failure? ==> Excused(old(tables), r, env)
      ensures Undisturbed(env) ==> (answer.Success? <==> UserIsKnown(r, env))
      ensures EndsIn(old(tables), At(r, if r.Receive? && r.user.Some? then Link(conv) else Commit(conv),
                                     tx.(touched := Some((conv, env.now)))), tables, answer, env)
    {
      hide StepAlone, Reaches, WrittenAs, TablesInv, ReadyFor, StoredProvider, KnownByTrimmedId, Applied;
      var open := tx.(touched := Some((conv, env.now)));
      OpenWhenReady(tables, r, conv, before);
      ghost var t, linking := tables, r.Receive? && r.user.Some?;
      ghost var x := At(r, if linking then Link(conv) else Commit(conv), open);
      ReachesItself(t, x, env);
      ReachesOn(t, x, t, x, env);
      if r.Receive? && r.user.Some? {
        LinkStep(t, r, conv, open, env);
        if env.fails(7) {
          return Failure;
        }
        if !env.userKnown {
          // A foreign-key error is swallowed, but the transaction is aborted and the commit fails.
          ReachesOn(t, x, t, At(r, Commit(conv), Aborted), env);
          AbortedCommitStep(t, r, conv, env);
          return Failure;
        }
        open := open.(participant := Some((conv, r.user.value)));
        ReachesOn(t, x, t, At(r, Commit(conv), open), env);
      }
      CommitStep(t, r, conv, open, env);
      ghost var (u, y) := StepAlone(t, At(r, Commit(conv), open), env);
      assert Reaches(t, x, u, y, env);
      FullTransactionIsSound(t, r, conv, before, open, env);
      if env.commit == NotCommitted {
        return Failure;
      }
      tables := Applied(tables, open);
      return if env.commit == AnswerLost then Failure else Success(IngestResult(conv, env.messageId, env.now, false));
    }

    method Receive(r: Request, env: StoreEnv) returns (answer: Answer)
      requires TablesInv(tables) && Fresh(env) && r.Receive?
      modifies this
      ensures TablesInv(tables)
      ensures Atomic(old(tables), tables, r, answer, env)
      ensures answer.Failure? ==> Excused(old(tables), r, env)
      ensures Undisturbed(env) ==> (answer.Success? <==> ShouldSucceed(old(tables), r, env))
      ensures EndsIn(old(tables), Called(r), tables, answer, env)
    {
      hide WrittenAs, StoredProvider, Carries, StepAlone, Reaches, ValidRequest;
      ghost var t, x := tables, Called(r);
      ReachesItself(t, x, env);
      if !ValidRequest(r) {
        return Failure;
      }
      ReachesOn(t, x, t, x, env);
      var duplicate := PreCheckDuplicate(r, env);
      if duplicate.Some? {
        return duplicate.value;
      }
      ReachesOn(t, x, t, At(r, Begin, NoTx), env);
      BeginStep(t, r, env);
      if env.fails(1) {
        return Failure;
      }
      var conv, tx := GetOrCreateConversation(r, env);
      ghost var found := At(r, Pc.FindConversation, Open(None, None, None, None));
      ReachesThrough(t, x, t, found, t,
                     if conv.None? then At(r, Returned(Failure), NoTx) else At(r, InsertMessage(conv.value), tx), env);
      if conv.None? {
        return Failure;
      }
      answer := Finish(r, conv.value, tx, env);
      EndsLater(t, x, t, At(r, InsertMessage(conv.value), tx), tables, answer, env);
    }

    method RecordOutbound(r: Request, env: StoreEnv) returns (answer: Answer)
      requires TablesInv(tables) && Fresh(env) && r.RecordOutbound?
      modifies this
      ensures TablesInv(tables)
      ensures Atomic(old(tables), tables, r, answer, env)
      ensures answer.Failure? ==> Excused(old(tables), r, env)
      ensures Undisturbed(env) ==> (answer.Success? <==> ShouldSucceed(old(tables), r, env))
      ensures EndsIn(old(tables), Called(r), tables, answer, env)
    {
      hide WrittenAs, StoredProvider, Carries, StepAlone, Reaches, ValidRequest;
      ghost var t, x, none := tables, Called(r), Open(None, None, None, None);
      ReachesItself(t, x, env);
      if !ValidRequest(r) {
        return Failure;
      }
      ReachesOn(t, x, t, x, env);
      var duplicate := PreCheckDuplicate(r, env);
      if duplicate.Some? {
        return duplicate.value;
      }
      ReachesOn(t, x, t, At(r, Begin, NoTx), env);
      BeginStep(t, r, env);
      if env.fails(1) {
        return Failure;
      }
      ReachesOn(t, x, t, At(r, CheckConversation, none), env);
      CheckStep(t, r, env);
      if env.fails(2) || r.conversation !in tables.conversations {
        return Failure;
      }
      answer := Finish(r, r.conversation, Open(None, None, None, None), env);
      EndsLater(t, x, t, At(r, InsertMessage(r.conversation), none), tables, answer, env);
    }
  }

  /** The transaction has found or made the conversation the request belongs to, and nothing else. */
  ghost predicate ReadyFor(t: Tables, r: Request, conv: Uuid, tx: Tx) {
    && tx.Open? && tx.message.None? && tx.touched.None? && tx.participant.None?
    && match r
       case Receive(channel, key, _, _, _, _, _) =>
         if tx.conversation.Some? then
           && conv == tx.conversation.value.0 && conv !in t.conversations
           && Keyed(tx.conversation.value.1, channel, key) && FindConv(t, channel, key).None?
         else conv in t.conversations && Keyed(t.conversations[conv], channel, key)
       case RecordOutbound(named, _, _, _, _, _) => conv == named && named in t.conversations && tx.conversation.None?
  }

  ghost predicate IsDuplicateAnswer(t: Tables, r: Request, res: IngestResult) {
    && res.deduped && r.provider.Some? && res.message in t.messages
    && Carries(t.messages[res.message], r.channel, r.provider.value)
    && res.conversation == t.messages[res.message].conversation && res.createdAt == t.messages[res.message].createdAt
  }

  /** All or nothing: a new message with everything that belongs to it, or the tables as they were; an error
      has left something only when the commit took effect and its answer was lost. */
  ghost predicate Atomic(before: Tables, after: Tables, r: Request, answer: Answer, env: StoreEnv) {
    match answer
    case Success(res) =>
      if res.deduped then after == before && IsDuplicateAnswer(before, r, res)
      else
        && res.message == env.messageId && res.createdAt == env.now
        && WrittenAs(before, after, r, NewRow(r, res.message, res.conversation, res.createdAt))
    case Failure =>
      || after == before
      || (env.commit == AnswerLost && WrittenFor(before, after, r))
  }

  /** The reasons an error can have: the request, a statement, the commit, an unknown user or conversation, or
      a stored message that carries the trimmed form of an untrimmed provider id. */
  ghost predicate Excused(t: Tables, r: Request, env: StoreEnv) {
    || !ValidRequest(r)
    || (exists k :: 0 <= k < 8 && env.fails(k))
    || env.commit != Committed
    || (r.Receive? && r.user.Some? && !env.userKnown)
    || (r.RecordOutbound? && r.conversation !in t.conversations)
    || (r.provider.Some? && !Trimmed(r.provider.value)
        && FindMessage(t, r.channel, TrimSpace(r.provider.value)).Some?)
  }

  // ---- When a call succeeds ----

  /** Every statement is carried out and so is the commit. */
  ghost predicate Undisturbed(env: StoreEnv) {
    env.commit == Committed && forall k :: 0 <= k < 8 ==> !env.fails(k)
  }

  ghost predicate KnownByRawId(t: Tables, r: Request) {
    r.provider.Some? && !Blank(r.provider.value) && FindMessage(t, r.channel, r.provider.value).Some?
  }

  ghost predicate KnownByTrimmedId(t: Tables, r: Request) {
    StoredProvider(r.provider).Some? && FindMessage(t, r.channel, StoredProvider(r.provider).value).Some?
  }

  predicate UserIsKnown(r: Request, env: StoreEnv) {
    r.Receive? && r.user.Some? ==> env.userKnown
  }

  /** A call that nothing disturbs succeeds exactly when it is well-formed and either repeats an id as it is stored,
      or brings a new one to a conversation that exists or can be made, from a user who is known or nobody. */
  ghost predicate ShouldSucceed(t: Tables, r: Request, env: StoreEnv) {
    && ValidRequest(r)
    && (KnownByRawId(t, r)
        || (!KnownByTrimmedId(t, r) && UserIsKnown(r, env) &&
            (r.RecordOutbound? ==> r.conversation in t.conversations)))
  }

  lemma {:induction false} WrittenIdIsNew(t: Tables, u: Tables, r: Request)
    requires TablesInv(u) && WrittenFor(t, u, r)
    ensures !KnownByTrimmedId(t, r)
  {
    hide StoredProvider, WrittenAs, FindMessage, TablesInv;
    var id, conv, at :| WrittenAs(t, u, r, NewRow(r, id, conv, at));
    WrittenRowIsNew(t, u, r, NewRow(r, id, conv, at));
    if KnownByTrimmedId(t, r) {
      var provider := StoredProvider(r.provider).value;
      var holder := FindMessage(t, r.channel, provider).value;
      assert Carries(u.messages[holder], r.channel, provider) && Carries(u.messages[id], r.channel, provider);
      OneRowPerId(u, holder, id, r.channel, provider);
    }
  }

  lemma {:induction false} WrittenRowIsNew(t: Tables, u: Tables, r: Request, m: StoredMessage)
    requires WrittenAs(t, u, r, m)
    ensures m.id !in t.messages && m.id in u.messages && u.messages[m.id] == m
    ensures forall k :: k in t.messages ==> k in u.messages && u.messages[k] == t.messages[k]
  {
  }

  lemma {:induction false} OneRowPerId(u: Tables, a: Uuid, b: Uuid, channel: string, provider: string)
    requires TablesInv(u) && a in u.messages && b in u.messages
    requires Carries(u.messages[a], channel, provider) && Carries(u.messages[b], channel, provider)
    ensures a == b
  {
  }

  /** A call that repeats a stored id with white space around it fails and leaves everything as it was. */
  lemma {:induction false} UntrimmedRepeatFails(t: Tables, u: Tables, r: Request, answer: Answer, env: StoreEnv)
    requires TablesInv(t) && TablesInv(u) && Atomic(t, u, r, answer, env) && RepeatsUntrimmed(t, r)
    ensures answer == Failure && u == t
  {
    hide WrittenAs;
    if WrittenFor(t, u, r) {
      WrittenIdIsNew(t, u, r);
    }
  }

  lemma {:induction false} OpenWhenReady(t: Tables, r: Request, conv: Uuid, tx: Tx)
    requires ReadyFor(t, r, conv, tx)
    ensures tx.Open? && tx.message.None? && tx.touched.None? && tx.participant.None?
  {
  }

  lemma {:induction false} FailedStatement(t: Tables, r: Request, env: StoreEnv, k: nat)
    requires k < 8 && env.fails(k)
    ensures Atomic(t, t, r, Failure, env) && Excused(t, r, env) && !Undisturbed(env)
  {
  }

  lemma {:induction false} RowIsStamped(r: Request, id: Uuid, conv: Uuid, at: int)
    ensures NewRow(r, id, conv, at).createdAt == at && NewRow(r, id, conv, at).id == id
            && NewRow(r, id, conv, at).conversation == conv
  {
  }

  /** A transaction that holds the whole request keeps the tables sound when committed, and writes the request. */
  lemma {:induction false} FullTransactionIsSound(t: Tables, r: Request, conv: Uuid, before: Tx, tx: Tx, env: StoreEnv)
    requires TablesInv(t) && ReadyFor(t, r, conv, before) && env.messageId !in t.messages && !KnownByTrimmedId(t, r)
    requires tx == Open(before.conversation, Some(NewRow(r, env.messageId, conv, env.now)), Some((conv, env.now)),
                        if r.Receive? && r.user.Some? then Some((conv, r.user.value)) else None)
    ensures var u := Applied(t, tx);
            && TablesInv(u) && WrittenFor(t, u, r)
            && WrittenAs(t, u, r, NewRow(r, env.messageId, conv, env.now))
  {
    var x := Caller(r, Commit(conv), tx, false, false);
    assert CallerInv(t, x);
    CommitKeepsTables(t, x);
    CommitWritesTheRow(t, x);
  }

  lemma CommitWritesTheRow(t: Tables, x: Caller)
    requires TablesInv(t) && CallerInv(t, x) && x.pc.Commit? && x.tx.Open?
    ensures var m := x.tx.message.value;
            && WrittenAs(t, Applied(t, x.tx), x.request, NewRow(x.request, m.id, m.conversation, m.createdAt))
            && WrittenFor(t, Applied(t, x.tx), x.request)
  {
    CommitWritesTheRequest(t, x);
    CommitAddsConversation(t, x);
    var conv := x.pc.conversation;
    if x.request.Receive? && conv in t.conversations {
      assert Keyed(t.conversations[conv], x.request.channel, x.request.key);
    }
  }
}
