/** What every interleaving of Receive and RecordOutbound keeps. */
module IngestProofs {
  import opened Text
  import opened Model
  import opened Ingest

  // ---- The invariant ----

  /** The unique keys and the foreign key of the tables, and that provider ids are stored trimmed. */
  ghost predicate TablesInv(t: Tables) {
    && (forall a, b | a in t.conversations && b in t.conversations ::
          Keyed(t.conversations[a], t.conversations[b].channel, t.conversations[b].key) ==> a == b)
    && (forall a, b | a in t.messages && b in t.messages && t.messages[b].provider.Some? ::
          Carries(t.messages[a], t.messages[b].channel, t.messages[b].provider.value) ==> a == b)
    && (forall id :: id in t.messages ==> t.messages[id].id == id && t.messages[id].conversation in t.conversations)
    && (forall id :: id in t.messages && t.messages[id].provider.Some? ==> Trimmed(t.messages[id].provider.value))
  }

  /** The conversation a call works on is committed, or its own transaction has just made it. */
  ghost predicate KnowsConversation(t: Tables, x: Caller, conv: Uuid) {
    if x.request.RecordOutbound? then conv == x.request.conversation && conv in t.conversations
    else
      || (conv in t.conversations && Keyed(t.conversations[conv], x.request.channel, x.request.key))
      || (x.tx.Open? && x.tx.conversation.Some? && x.tx.conversation.value.0 == conv)
  }

  /** Uncommitted rows are new and clash with nothing committed. */
  ghost predicate PendingInv(t: Tables, x: Caller) {
    x.tx.Open? ==>
      && (x.tx.conversation.Some? ==>
            && x.request.Receive?
            && x.tx.conversation.value.0 !in t.conversations
            && Keyed(x.tx.conversation.value.1, x.request.channel, x.request.key)
            && FindConv(t, x.request.channel, x.request.key).None?)
      && (x.tx.message.Some? ==>
            var m := x.tx.message.value;
            && m == NewRow(x.request, m.id, m.conversation, m.createdAt)
            && m.id !in t.messages
            && KnowsConversation(t, x, m.conversation)
            && (m.provider.Some? ==> FindMessage(t, m.channel, m.provider.value).None?))
  }

  /** At the commit the transaction holds the whole of the request and nothing else. */
  ghost predicate CompleteTx(x: Caller, conv: Uuid) {
    && x.tx.Open? && x.tx.message.Some? && x.tx.message.value.conversation == conv
    && x.tx.touched == Some((conv, x.tx.message.value.createdAt))
    && x.tx.participant == (if x.request.Receive? && x.request.user.Some? then Some((conv, x.request.user.value))
                            else None)
  }

  ghost predicate PcInv(t: Tables, x: Caller) {
    match x.pc
    case PreCheck => x.tx.NoTx?
    case Begin => x.tx.NoTx?
    case FindConversation => x.tx == Open(None, None, None, None)
    case MakeConversation => x.tx == Open(None, None, None, None)
    case RefetchConversation => x.tx.Aborted?
    case CheckConversation => x.tx == Open(None, None, None, None)
    case InsertMessage(conv) =>
      && x.tx.Open? && x.tx.message.None? && x.tx.touched.None? && x.tx.participant.None?
      && KnowsConversation(t, x, conv) && (x.tx.conversation.Some? ==> x.tx.conversation.value.0 == conv)
    case Recover => x.tx.Aborted?
    case Touch(conv) =>
      && x.tx.Open? && x.tx.message.Some? && x.tx.message.value.conversation == conv
      && x.tx.touched.None? && x.tx.participant.None?
      && (x.tx.conversation.Some? ==> x.tx.conversation.value.0 == conv)
    case Link(conv) =>
      && x.tx.Open? && x.tx.message.Some? && x.tx.message.value.conversation == conv
      && x.tx.touched == Some((conv, x.tx.message.value.createdAt)) && x.tx.participant.None?
      && (x.tx.conversation.Some? ==> x.tx.conversation.value.0 == conv)
    case Commit(conv) =>
      x.tx.Aborted? || (x.tx.Open? && CompleteTx(x, conv) &&
                        (x.tx.conversation.Some? ==> x.tx.conversation.value.0 == conv))
    case Returned(_) => x.tx.NoTx?
  }

  ghost predicate AnswerInv(t: Tables, x: Caller) {
    x.pc.Returned? && x.pc.answer.Success? ==>
      var res := x.pc.answer.result;
      && res.message in t.messages
      && var m := t.messages[res.message];
         && m.conversation == res.conversation && m.createdAt == res.createdAt && m.channel == x.request.channel
         && (res.deduped ==> x.request.provider.Some? && m.provider == x.request.provider)
         && (!res.deduped ==> m == NewRow(x.request, m.id, m.conversation, m.createdAt)
                              && m.conversation in t.conversations
                              && (x.request.Receive? ==>
                                    Keyed(t.conversations[m.conversation], x.request.channel, x.request.key)))
  }

  /** A call writes at most once, and exactly when it answers with a new message or loses that answer. */
  ghost predicate HistoryInv(x: Caller) {
    && (x.wrote ==> x.pc.Returned? && (x.lost || (x.pc.answer.Success? && !x.pc.answer.result.deduped)))
    && (x.lost ==> x.wrote && x.pc.Returned? && x.pc.answer.Failure?)
    && (x.pc.Returned? && x.pc.answer.Success? && !x.pc.answer.result.deduped ==> x.wrote)
  }

  ghost predicate CallerInv(t: Tables, x: Caller) {
    PendingInv(t, x) && PcInv(t, x) && AnswerInv(t, x) && HistoryInv(x)
  }

  ghost predicate PendingApart(x: Caller, y: Caller) {
    x.tx.Open? && y.tx.Open? ==>
      && (x.tx.conversation.Some? && y.tx.conversation.Some? ==>
            && x.tx.conversation.value.0 != y.tx.conversation.value.0
            && !Keyed(x.tx.conversation.value.1, y.tx.conversation.value.1.channel, y.tx.conversation.value.1.key))
      && (x.tx.message.Some? && y.tx.message.Some? ==>
            && x.tx.message.value.id != y.tx.message.value.id
            && (y.tx.message.value.provider.Some? ==>
                  !Carries(x.tx.message.value, y.tx.message.value.channel, y.tx.message.value.provider.value)))
  }

  ghost predicate NewAnswer(x: Caller) {
    x.pc.Returned? && x.pc.answer.Success? && !x.pc.answer.result.deduped
  }

  ghost predicate Apart(x: Caller, y: Caller) {
    && PendingApart(x, y)
    && (NewAnswer(x) && NewAnswer(y) ==> x.pc.answer.result.message != y.pc.answer.result.message)
  }

  ghost predicate Inv(s: State) {
    && TablesInv(s.tables)
    && (forall c :: c in s.callers ==> CallerInv(s.tables, s.callers[c]))
    && (forall c, d :: c in s.callers && d in s.callers && c != d ==> Apart(s.callers[c], s.callers[d]))
  }

  // ---- Steps that leave the tables alone ----

  lemma LocalStepKeepsInv(s: State, c: nat, y: Caller)
    requires Inv(s) && CallerInv(s.tables, y)
    requires forall d :: d in s.callers && d != c ==> Apart(y, s.callers[d]) && Apart(s.callers[d], y)
    ensures Inv(s.(callers := s.callers[c := y]))
  {
  }

  /** A caller that has gained neither an uncommitted row nor a new answer is as far apart as before. */
  lemma NothingNewStaysApart(x: Caller, y: Caller, z: Caller)
    requires Apart(x, z) && Apart(z, x)
    requires y.tx.Open? ==> x.tx.Open? && y.tx.conversation == x.tx.conversation && y.tx.message == x.tx.message
    requires !NewAnswer(y) || y == x
    ensures Apart(y, z) && Apart(z, y)
  {
  }

  /** Statements that add no uncommitted row. */
  predicate Quiet(pc: Pc) {
    !(pc.MakeConversation? || pc.InsertMessage? || pc.Commit?)
  }

  /** What a quiet step makes of its caller: sound, and with no uncommitted row or new answer it did not have. */
  ghost predicate SoundAfter(t: Tables, x: Caller, y: Caller) {
    && CallerInv(t, y)
    && (!x.pc.Begin? && y.tx.Open? ==>
          x.tx.Open? && y.tx.conversation == x.tx.conversation && y.tx.message == x.tx.message)
    && (x.pc.Begin? && y.tx.Open? ==> y.tx == Open(None, None, None, None))
    && (!NewAnswer(y) || y == x)
  }

  lemma LookupIsSound(s: State, c: nat, x: Caller, luck: Luck)
    requires TablesInv(s.tables) && CallerInv(s.tables, x) && (x.pc.PreCheck? || x.pc.Recover?)
    ensures SoundAfter(s.tables, x, Next(s, c, x, luck))
  {
  }

  lemma EarlyStatementIsSound(s: State, c: nat, x: Caller, luck: Luck)
    requires CallerInv(s.tables, x)
    requires x.pc.Begin? || x.pc.FindConversation? || x.pc.RefetchConversation? || x.pc.CheckConversation?
    ensures SoundAfter(s.tables, x, Next(s, c, x, luck))
  {
  }

  lemma LateStatementIsSound(s: State, c: nat, x: Caller, luck: Luck)
    requires CallerInv(s.tables, x) && (x.pc.Touch? || x.pc.Link? || x.pc.Returned?)
    ensures SoundAfter(s.tables, x, Next(s, c, x, luck))
  {
  }

  lemma {:induction false} QuietStepKeepsInv(s: State, c: nat, luck: Luck)
    requires Inv(s) && c in s.callers && Quiet(s.callers[c].pc)
    ensures Inv(Do(s, Statement(c, luck)))
  {
    var x := s.callers[c];
    var y := Next(s, c, x, luck);
    assert CallerInv(s.tables, x);
    if x.pc.PreCheck? || x.pc.Recover? {
      LookupIsSound(s, c, x, luck);
    } else if x.pc.Touch? || x.pc.Link? || x.pc.Returned? {
      LateStatementIsSound(s, c, x, luck);
    } else {
      EarlyStatementIsSound(s, c, x, luck);
    }
    forall d | d in s.callers && d != c
      ensures Apart(y, s.callers[d]) && Apart(s.callers[d], y)
    {
      assert Apart(x, s.callers[d]) && Apart(s.callers[d], x);
      if !x.pc.Begin? {
        NothingNewStaysApart(x, y, s.callers[d]);
      }
    }
    LocalStepKeepsInv(s, c, y);
  }

  lemma MakeConversationKeepsInv(s: State, c: nat, luck: Luck)
    requires Inv(s) && c in s.callers && s.callers[c].pc.MakeConversation?
    ensures Inv(Do(s, Statement(c, luck)))
  {
    var x := s.callers[c];
    var y := Next(s, c, x, luck);
    assert CallerInv(s.tables, x);
    assert CallerInv(s.tables, y);
    forall d | d in s.callers && d != c
      ensures Apart(y, s.callers[d]) && Apart(s.callers[d], y)
    {
      assert Apart(x, s.callers[d]) && Apart(s.callers[d], x);
      if y.tx.Open? && y != x {
        assert !HoldsKey(s.callers[d], x.request.channel, x.request.key);
      }
    }
    LocalStepKeepsInv(s, c, y);
  }

  lemma {:induction false} InsertMessageKeepsInv(s: State, c: nat, luck: Luck)
    requires Inv(s) && c in s.callers && s.callers[c].pc.InsertMessage?
    ensures Inv(Do(s, Statement(c, luck)))
  {
    var x := s.callers[c];
    var y := Next(s, c, x, luck);
    assert CallerInv(s.tables, x);
    assert CallerInv(s.tables, y);
    forall d | d in s.callers && d != c
      ensures Apart(y, s.callers[d]) && Apart(s.callers[d], y)
    {
      assert Apart(x, s.callers[d]) && Apart(s.callers[d], x);
      if y.tx.Open? && y != x {
        assert !HoldsProvider(s.callers[d], x.request.channel, StoredProvider(x.request.provider));
      }
    }
    LocalStepKeepsInv(s, c, y);
  }

  // ---- The commit ----

  /** Rows are only added, and a conversation keeps its channel and key. */
  ghost predicate Grows(t: Tables, u: Tables) {
    && (forall id :: id in t.messages ==> id in u.messages && u.messages[id] == t.messages[id])
    && (forall id :: id in t.conversations ==>
          id in u.conversations && Keyed(u.conversations[id], t.conversations[id].channel, t.conversations[id].key))
  }

  lemma CommitKeepsMessageKey(t: Tables, x: Caller)
    requires TablesInv(t) && CallerInv(t, x) && x.pc.Commit? && x.tx.Open?
    ensures var u := Applied(t, x.tx);
            forall a, b | a in u.messages && b in u.messages && u.messages[b].provider.Some? ::
              Carries(u.messages[a], u.messages[b].channel, u.messages[b].provider.value) ==> a == b
  {
    var u := Applied(t, x.tx);
    var m := x.tx.message.value;
    assert u.messages == t.messages[m.id := m];
    forall a, b | a in u.messages && b in u.messages && u.messages[b].provider.Some?
                  && Carries(u.messages[a], u.messages[b].channel, u.messages[b].provider.value)
      ensures a == b
    {
      assert a == m.id || b == m.id || a in t.messages;
    }
  }

  lemma CommitKeepsConversationKey(t: Tables, x: Caller)
    requires TablesInv(t) && CallerInv(t, x) && x.pc.Commit? && x.tx.Open?
    ensures var u := Applied(t, x.tx);
            forall a, b | a in u.conversations && b in u.conversations ::
              Keyed(u.conversations[a], u.conversations[b].channel, u.conversations[b].key) ==> a == b
  {
    CommitAddsConversation(t, x);
  }

  lemma CommitKeepsTables(t: Tables, x: Caller)
    requires TablesInv(t) && CallerInv(t, x) && x.pc.Commit? && x.tx.Open?
    ensures TablesInv(Applied(t, x.tx)) && Grows(t, Applied(t, x.tx))
  {
    var u := Applied(t, x.tx);
    var m := x.tx.message.value;
    assert u.messages == t.messages[m.id := m];
    CommitAddsConversation(t, x);
    CommitKeepsConversationKey(t, x);
    CommitKeepsMessageKey(t, x);
  }

  /** The conversations after the commit: one added or none, and the one written to carries the new time. */
  lemma CommitAddsConversation(t: Tables, x: Caller)
    requires TablesInv(t) && CallerInv(t, x) && x.pc.Commit? && x.tx.Open?
    ensures var u := Applied(t, x.tx);
            var conv := x.tx.message.value.conversation;
            && u.conversations.Keys == t.conversations.Keys + {conv}
            && (forall id :: id in t.conversations && id != conv ==> u.conversations[id] == t.conversations[id])
            && u.conversations[conv].lastMessageAt == x.tx.message.value.createdAt
            && (conv in t.conversations ==>
                  Keyed(u.conversations[conv], t.conversations[conv].channel, t.conversations[conv].key))
            && (x.request.Receive? ==> Keyed(u.conversations[conv], x.request.channel, x.request.key))
            && (conv !in t.conversations ==> x.request.Receive? && FindConv(t, x.request.channel, x.request.key).None?)
            && (x.tx.conversation.Some? ==> conv !in t.conversations)
  {
  }

  lemma GrowthKeepsKnowledge(t: Tables, u: Tables, z: Caller)
    requires Grows(t, u) && PcInv(t, z) && AnswerInv(t, z)
    ensures PcInv(u, z) && AnswerInv(u, z)
    ensures forall conv :: KnowsConversation(t, z, conv) ==> KnowsConversation(u, z, conv)
  {
  }

  /** Uncommitted rows of others do not clash with what was just committed: their inserts would have waited. */
  lemma CommitLeavesPendingApart(t: Tables, x: Caller, z: Caller)
    requires TablesInv(t) && CallerInv(t, x) && x.pc.Commit? && x.tx.Open?
    requires PendingInv(t, z) && Apart(x, z)
    ensures PendingInv(Applied(t, x.tx), z)
  {
    CommitKeepsTables(t, x);
    CommitAddsConversation(t, x);
    if z.tx.Open? {
      if z.tx.message.Some? {
        CommitLeavesMessageApart(t, x, z);
      }
      if z.tx.conversation.Some? {
        CommitLeavesConversationApart(t, x, z);
      }
    }
  }

  lemma CommitLeavesMessageApart(t: Tables, x: Caller, z: Caller)
    requires TablesInv(t) && CallerInv(t, x) && x.pc.Commit? && x.tx.Open? && z.tx.Open? && z.tx.message.Some?
    requires PendingInv(t, z) && Apart(x, z)
    ensures var u, m := Applied(t, x.tx), z.tx.message.value;
            m.id !in u.messages && (m.provider.Some? ==> FindMessage(u, m.channel, m.provider.value).None?)
  {
  }

  lemma CommitLeavesConversationApart(t: Tables, x: Caller, z: Caller)
    requires TablesInv(t) && CallerInv(t, x) && x.pc.Commit? && x.tx.Open? && z.tx.Open? && z.tx.conversation.Some?
    requires PendingInv(t, z) && Apart(x, z)
    ensures var u := Applied(t, x.tx);
            && z.tx.conversation.value.0 !in u.conversations
            && FindConv(u, z.request.channel, z.request.key).None?
  {
  }

  lemma CommitLeavesOthersSound(t: Tables, x: Caller, z: Caller)
    requires TablesInv(t) && CallerInv(t, x) && x.pc.Commit? && x.tx.Open?
    requires CallerInv(t, z) && Apart(x, z)
    ensures CallerInv(Applied(t, x.tx), z)
  {
    CommitKeepsTables(t, x);
    GrowthKeepsKnowledge(t, Applied(t, x.tx), z);
    CommitLeavesPendingApart(t, x, z);
  }

  lemma FailedCommitKeepsInv(s: State, c: nat, luck: Luck)
    requires Inv(s) && c in s.callers && s.callers[c].pc.Commit? && !TakesEffect(s.callers[c], luck)
    ensures Inv(Do(s, Statement(c, luck)))
  {
    var y := Next(s, c, s.callers[c], luck);
    assert CallerInv(s.tables, s.callers[c]);
    assert CallerInv(s.tables, y);
    forall d | d in s.callers && d != c ensures Apart(y, s.callers[d]) && Apart(s.callers[d], y) {
    }
    LocalStepKeepsInv(s, c, y);
  }

  lemma CommittedCallerIsSound(s: State, c: nat, luck: Luck)
    requires Inv(s) && c in s.callers && TakesEffect(s.callers[c], luck)
    ensures CallerInv(Applied(s.tables, s.callers[c].tx), Next(s, c, s.callers[c], luck))
  {
    assert CallerInv(s.tables, s.callers[c]);
    CommitKeepsTables(s.tables, s.callers[c]);
    CommitAddsConversation(s.tables, s.callers[c]);
  }

  lemma SharedStepKeepsInv(s: State, u: Tables, c: nat, y: Caller)
    requires Inv(s) && TablesInv(u) && CallerInv(u, y)
    requires forall d :: d in s.callers && d != c ==>
               CallerInv(u, s.callers[d]) && Apart(y, s.callers[d]) && Apart(s.callers[d], y)
    ensures Inv(State(u, s.callers[c := y]))
  {
  }

  lemma {:induction false} CommittedStaysApart(s: State, c: nat, luck: Luck, z: Caller)
    requires c in s.callers && TakesEffect(s.callers[c], luck) && CallerInv(s.tables, s.callers[c])
    requires CallerInv(s.tables, z) && Apart(s.callers[c], z) && Apart(z, s.callers[c])
    ensures var y := Next(s, c, s.callers[c], luck); Apart(y, z) && Apart(z, y)
  {
    hide TablesInv, Applied, FindMessage, FindConv, NewRow;
  }

  lemma {:induction false} CommitStepKeepsInv(s: State, c: nat, luck: Luck)
    requires Inv(s) && c in s.callers && TakesEffect(s.callers[c], luck)
    ensures Inv(Do(s, Statement(c, luck)))
  {
    hide CallerInv, TablesInv, Applied, Next, Apart;
    var x := s.callers[c];
    var y := Next(s, c, x, luck);
    var u := Applied(s.tables, x.tx);
    SoundAtCommit(s.tables, x, luck);
    CommitKeepsTables(s.tables, x);
    CommittedCallerIsSound(s, c, luck);
    forall d | d in s.callers && d != c
      ensures CallerInv(u, s.callers[d]) && Apart(y, s.callers[d]) && Apart(s.callers[d], y)
    {
      CommittedStaysApart(s, c, luck, s.callers[d]);
      CommitLeavesOthersSound(s.tables, x, s.callers[d]);
    }
    SharedStepKeepsInv(s, u, c, y);
  }

  lemma {:induction false} SoundAtCommit(t: Tables, x: Caller, luck: Luck)
    requires TakesEffect(x, luck)
    ensures x.pc.Commit? && x.tx.Open?
  {
  }

  lemma {:induction false} InvokeKeepsInv(s: State, c: nat, r: Request)
    requires Inv(s) && c !in s.callers
    ensures Inv(Do(s, Invoke(c, r)))
  {
    hide ValidRequest, TablesInv;
    var y := Do(s, Invoke(c, r)).callers[c];
    LocalStepKeepsInv(s, c, y);
  }

  lemma {:induction false} StepKeepsInv(s: State, a: Action)
    requires Inv(s)
    ensures Inv(Do(s, a))
  {
    hide Next, Applied, TakesEffect, CallerInv, TablesInv, Apart, ValidRequest;
    match a
    case Invoke(c, r) =>
      if c !in s.callers {
        InvokeKeepsInv(s, c, r);
      }
    case Statement(c, luck) =>
      if c in s.callers {
        var pc := s.callers[c].pc;
        if pc.MakeConversation? {
          MakeConversationKeepsInv(s, c, luck);
        } else if pc.InsertMessage? {
          InsertMessageKeepsInv(s, c, luck);
        } else if pc.Commit? {
          if TakesEffect(s.callers[c], luck) {
            CommitStepKeepsInv(s, c, luck);
          } else {
            FailedCommitKeepsInv(s, c, luck);
          }
        } else {
          QuietStepKeepsInv(s, c, luck);
        }
      }
  }

  lemma {:induction false} EveryRunKeepsInv(actions: seq<Action>)
    ensures Inv(Run(actions))
  {
    if actions != [] {
      var n := |actions| - 1;
      EveryRunKeepsInv(actions[..n]);
      StepKeepsInv(Run(actions[..n]), actions[n]);
    }
  }
}
