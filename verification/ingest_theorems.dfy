/** Idempotence, atomicity and channel agreement over every run of the ingest calls. */
module IngestTheorems {
  import opened Text
  import opened Model
  import opened Ingest
  import opened IngestProofs

  // ---- Idempotence ----

  ghost predicate Succeeded(s: State, c: nat) {
    c in s.callers && s.callers[c].pc.Returned? && s.callers[c].pc.answer.Success?
  }

  /** A channel and a trimmed provider id name at most one row ever; every success of a call that carries
      them returns that row and its conversation, and at most one of them says it is new. */
  lemma DuplicatesShareOneRow(actions: seq<Action>, channel: string, provider: string, c: nat, d: nat)
    requires Trimmed(provider) && provider != ""
    requires var s := Run(actions);
             && Succeeded(s, c) && Succeeded(s, d)
             && s.callers[c].request.channel == channel && s.callers[c].request.provider == Some(provider)
             && s.callers[d].request.channel == channel && s.callers[d].request.provider == Some(provider)
    ensures var s := Run(actions);
            var x, y := s.callers[c].pc.answer.result, s.callers[d].pc.answer.result;
            && FindMessage(s.tables, channel, provider) == Some(x.message)
            && (forall id :: id in s.tables.messages && Carries(s.tables.messages[id], channel, provider) ==>
                  id == x.message)
            && x.message == y.message && x.conversation == y.conversation && x.createdAt == y.createdAt
            && (c != d ==> x.deduped || y.deduped)
  {
    EveryRunKeepsInv(actions);
    var s := Run(actions);
    assert CallerInv(s.tables, s.callers[c]) && CallerInv(s.tables, s.callers[d]);
    if c != d {
      assert Apart(s.callers[c], s.callers[d]);
    }
  }

  lemma RawLookupNeedsTrimmedId(t: Tables, channel: string, raw: string)
    requires TablesInv(t) && FindMessage(t, channel, TrimSpace(raw)).Some?
    ensures FindMessage(t, channel, raw).Some? <==> Trimmed(raw)
  {
    var found := FindMessage(t, channel, raw);
    if found.Some? {
      assert Trimmed(t.messages[found.value].provider.value);
    }
  }

  lemma LookupAnswers(s: State, c: nat, x: Caller, luck: Luck)
    requires (x.pc.PreCheck? || x.pc.Recover?) && luck.Fine?
    requires x.request.provider.Some? && !Blank(x.request.provider.value)
    ensures var y := Next(s, c, x, luck);
            (y.pc.Returned? && y.pc.answer.Success?) <==>
            FindMessage(s.tables, x.request.channel, x.request.provider.value).Some?
  {
  }

  /** In any reachable state, a call whose provider id is already stored is answered with that row
      exactly when its id is trimmed: the look-ups use the raw id, the insert the trimmed one. */
  lemma {:induction false} DuplicateRecognisedIffTrimmed(actions: seq<Action>, c: nat, luck: Luck)
    requires var s := Run(actions);
             && c in s.callers && (s.callers[c].pc.PreCheck? || s.callers[c].pc.Recover?)
             && s.callers[c].request.provider.Some? && !Blank(s.callers[c].request.provider.value)
             && FindMessage(s.tables, s.callers[c].request.channel,
                            TrimSpace(s.callers[c].request.provider.value)).Some?
    requires luck.Fine?
    ensures var s := Run(actions);
            var y := Do(s, Statement(c, luck)).callers[c];
            (y.pc.Returned? && y.pc.answer.Success?) <==> Trimmed(s.callers[c].request.provider.value)
  {
    EveryRunKeepsInv(actions);
    var s := Run(actions);
    var x := s.callers[c];
    RawLookupNeedsTrimmedId(s.tables, x.request.channel, x.request.provider.value);
    LookupAnswers(s, c, x, luck);
  }

  // ---- All or nothing ----

  /** The tables after one request has been written: one new message under its conversation, which is the one
      with the request's channel and key or the one named, stamped with the message's time, and the participant. */
  ghost predicate WrittenFor(t: Tables, u: Tables, r: Request) {
    exists id, conv, at :: WrittenAs(t, u, r, NewRow(r, id, conv, at))
  }

  ghost predicate WrittenAs(t: Tables, u: Tables, r: Request, m: StoredMessage) {
    && m.id !in t.messages && u.messages == t.messages[m.id := m]
    && u.conversations.Keys == t.conversations.Keys + {m.conversation}
    && (forall k :: k in t.conversations && k != m.conversation ==> u.conversations[k] == t.conversations[k])
    && u.conversations[m.conversation].lastMessageAt == m.createdAt
    && (m.conversation in t.conversations ==>
          Keyed(u.conversations[m.conversation], t.conversations[m.conversation].channel,
                t.conversations[m.conversation].key))
    && match r
       case Receive(channel, key, _, _, _, user, _) =>
         && Keyed(u.conversations[m.conversation], channel, key)
         && (m.conversation in t.conversations <==> FindConv(t, channel, key).Some?)
         && u.participants == if user.Some? then t.participants + {(m.conversation, user.value)} else t.participants
       case RecordOutbound(named, _, _, _, _, _) =>
         m.conversation == named && named in t.conversations && u.participants == t.participants
  }

  /** No step changes the tables except the commit of one whole request, by a call that had written nothing. */
  lemma TablesChangeByWholeRequests(actions: seq<Action>, a: Action)
    requires Do(Run(actions), a).tables != Run(actions).tables
    ensures a.Statement? && a.caller in Run(actions).callers
    ensures var s, t := Run(actions), Do(Run(actions), a);
            var x := s.callers[a.caller];
            && TakesEffect(x, a.luck) && !x.wrote && t.callers[a.caller].wrote
            && WrittenFor(s.tables, t.tables, x.request)
  {
    EveryRunKeepsInv(actions);
    var s := Run(actions);
    var x := s.callers[a.caller];
    assert CallerInv(s.tables, x);
    CommitWritesTheRequest(s.tables, x);
  }

  lemma CommitWritesTheRequest(t: Tables, x: Caller)
    requires TablesInv(t) && CallerInv(t, x) && x.pc.Commit? && x.tx.Open?
    ensures WrittenFor(t, Applied(t, x.tx), x.request)
  {
    CommitAddsConversation(t, x);
    var m := x.tx.message.value;
    var conv := x.pc.conversation;
    if x.request.Receive? && conv in t.conversations {
      assert Keyed(t.conversations[conv], x.request.channel, x.request.key);
    }
    assert WrittenAs(t, Applied(t, x.tx), x.request, NewRow(x.request, m.id, m.conversation, m.createdAt));
  }

  ghost predicate HasWritten(s: State, c: nat) {
    c in s.callers && s.callers[c].wrote
  }

  ghost predicate Writes(s: State, a: Action, c: nat) {
    a.Statement? && a.caller == c && c in s.callers && TakesEffect(s.callers[c], a.luck)
  }

  /** How many times a call has changed the tables during the run. */
  ghost function CommitsBy(actions: seq<Action>, c: nat): nat {
    if actions == [] then 0 else
    var before := actions[..|actions| - 1];
    CommitsBy(before, c) + if Writes(Run(before), actions[|actions| - 1], c) then 1 else 0
  }

  lemma WriteIsRecorded(s: State, a: Action, c: nat)
    requires Inv(s)
    ensures HasWritten(Do(s, a), c) <==> HasWritten(s, c) || Writes(s, a, c)
    ensures !(HasWritten(s, c) && Writes(s, a, c))
  {
    if c in s.callers {
      assert CallerInv(s.tables, s.callers[c]);
      if a.Statement? && a.caller == c {
        NextWrites(s, c, s.callers[c], a.luck);
      }
    }
  }

  lemma NextWrites(s: State, c: nat, x: Caller, luck: Luck)
    requires HistoryInv(x)
    ensures Next(s, c, x, luck).wrote <==> x.wrote || TakesEffect(x, luck)
    ensures !(x.wrote && TakesEffect(x, luck))
  {
  }

  lemma {:induction false} WroteCountsCommits(actions: seq<Action>, c: nat)
    ensures CommitsBy(actions, c) == if HasWritten(Run(actions), c) then 1 else 0
  {
    if actions != [] {
      var before := actions[..|actions| - 1];
      WroteCountsCommits(before, c);
      EveryRunKeepsInv(before);
      WriteIsRecorded(Run(before), actions[|actions| - 1], c);
    }
  }

  /** A success that is new has written once, a duplicate or an error never, unless the commit's answer was lost. */
  lemma AnswersMatchWrites(actions: seq<Action>, c: nat)
    requires c in Run(actions).callers && Run(actions).callers[c].pc.Returned?
    ensures var x := Run(actions).callers[c];
            CommitsBy(actions, c) == match x.pc.answer
                                     case Success(res) => if res.deduped then 0 else 1
                                     case Failure => if x.lost then 1 else 0
  {
    WroteCountsCommits(actions, c);
    EveryRunKeepsInv(actions);
    assert HistoryInv(Run(actions).callers[c]);
  }

  // ---- What an aborted transaction does to a call ----

  /** A call that can only fail: its transaction is aborted with statements still to run in it, or it has failed. */
  ghost predicate Doomed(x: Caller) {
    && !x.wrote
    && (((x.pc.RefetchConversation? || x.pc.Commit?) && x.tx.Aborted?) || x.pc == Returned(Failure))
  }

  lemma {:induction false} DoomedStaysDoomed(s: State, a: Action, c: nat)
    requires c in s.callers && Doomed(s.callers[c])
    ensures c in Do(s, a).callers && Doomed(Do(s, a).callers[c])
  {
    hide Applied, FindMessage, FindConv, FreshMessage, FreshConversation, StoredProvider;
  }

  /** Whatever else happens, a call that is doomed never writes and never succeeds. */
  lemma {:induction false} DoomedCallsFail(actions: seq<Action>, n: nat, c: nat)
    requires n <= |actions| && c in Run(actions[..n]).callers && Doomed(Run(actions[..n]).callers[c])
    ensures c in Run(actions).callers && Doomed(Run(actions).callers[c])
    decreases |actions| - n
  {
    hide Do, Doomed;
    if n == |actions| {
      assert actions[..n] == actions;
    } else {
      assert actions[..n + 1][..n] == actions[..n];
      DoomedStaysDoomed(Run(actions[..n]), actions[n], c);
      DoomedCallsFail(actions, n + 1, c);
    }
  }

  ghost predicate KeyTaken(t: Tables, r: Request) {
    r.Receive? && FindConv(t, r.channel, r.key).Some?
  }

  /** A call whose insert of a conversation is carried out loses the race exactly when another has committed the key
      meanwhile; then it fails for good, although it reads the conversation again: the transaction is aborted. */
  lemma {:induction false} LosersOfConversationRaceFail(actions: seq<Action>, n: nat, c: nat, luck: Luck)
    requires n < |actions| && actions[n] == Statement(c, luck) && luck.Fine?
    requires c in Run(actions[..n]).callers && Run(actions[..n]).callers[c].pc.MakeConversation?
    requires c in Run(actions[..n + 1]).callers && Run(actions[..n + 1]).callers[c] != Run(actions[..n]).callers[c]
    ensures Doomed(Run(actions[..n + 1]).callers[c]) <==>
            KeyTaken(Run(actions[..n]).tables, Run(actions[..n]).callers[c].request)
    ensures KeyTaken(Run(actions[..n]).tables, Run(actions[..n]).callers[c].request) ==>
              c in Run(actions).callers && Doomed(Run(actions).callers[c])
  {
    var s := Run(actions[..n]);
    assert actions[..n + 1][..n] == actions[..n];
    MakingLosesIffKeyIsTaken(s, c, luck, actions[..n]);
    if Doomed(Run(actions[..n + 1]).callers[c]) {
      DoomedCallsFail(actions, n + 1, c);
    }
  }

  lemma {:induction false} MakingLosesIffKeyIsTaken(s: State, c: nat, luck: Luck, actions: seq<Action>)
    requires s == Run(actions) && c in s.callers && s.callers[c].pc.MakeConversation? && luck.Fine?
    requires Next(s, c, s.callers[c], luck) != s.callers[c]
    ensures Doomed(Next(s, c, s.callers[c], luck)) <==> KeyTaken(s.tables, s.callers[c].request)
  {
    hide Run, FindConv, FreshConversation;
    EveryRunKeepsInv(actions);
    var x := s.callers[c];
    assert CallerInv(s.tables, x);
    EveryRunFitsRoles(actions);
  }

  /** A participant statement leaves its call able to succeed exactly when it is carried out: a user the host does not
      know fails the call for good, although that statement's error is swallowed. */
  lemma {:induction false} UnknownUsersFailTheirCall(actions: seq<Action>, n: nat, c: nat, luck: Luck)
    requires n < |actions| && actions[n] == Statement(c, luck)
    requires c in Run(actions[..n]).callers && Run(actions[..n]).callers[c].pc.Link?
    ensures c in Run(actions[..n + 1]).callers
    ensures luck.UnknownUser? ==> Run(actions[..n + 1]).callers[c].pc.Commit?
    ensures Doomed(Run(actions[..n + 1]).callers[c]) <==> !luck.Fine?
    ensures !luck.Fine? ==> c in Run(actions).callers && Doomed(Run(actions).callers[c])
  {
    var s := Run(actions[..n]);
    assert actions[..n + 1][..n] == actions[..n];
    LinkDoomsUnlessFine(s, c, luck, actions[..n]);
    if !luck.Fine? {
      DoomedCallsFail(actions, n + 1, c);
    }
  }

  lemma {:induction false} LinkDoomsUnlessFine(s: State, c: nat, luck: Luck, actions: seq<Action>)
    requires s == Run(actions) && c in s.callers && s.callers[c].pc.Link?
    ensures var y := Next(s, c, s.callers[c], luck);
            (luck.UnknownUser? ==> y.pc.Commit?) && (Doomed(y) <==> !luck.Fine?)
  {
    hide Run, FindConv;
    EveryRunKeepsInv(actions);
    var x := s.callers[c];
    assert CallerInv(s.tables, x);
    EveryRunFitsRoles(actions);
  }

  /** Only Receive looks for a conversation, and only for a known user does it link a participant. */
  predicate RoleFits(x: Caller) {
    && (x.pc.FindConversation? || x.pc.MakeConversation? || x.pc.RefetchConversation? ==> x.request.Receive?)
    && (x.pc.Link? ==> x.request.Receive? && x.request.user.Some?)
  }

  lemma {:induction false} NextFitsRole(s: State, c: nat, x: Caller, luck: Luck)
    requires RoleFits(x)
    ensures RoleFits(Next(s, c, x, luck))
  {
    hide FindMessage, FindConv, FreshConversation, FreshMessage, StoredProvider, HoldsKey, HoldsProvider, Blank,
         Existing;
  }

  lemma {:induction false} EveryRunFitsRoles(actions: seq<Action>)
    ensures forall c :: c in Run(actions).callers ==> RoleFits(Run(actions).callers[c])
  {
    hide Next, Applied, TakesEffect;
    if actions != [] {
      var s, a := Run(actions[..|actions| - 1]), actions[|actions| - 1];
      EveryRunFitsRoles(actions[..|actions| - 1]);
      if a.Statement? && a.caller in s.callers {
        NextFitsRole(s, a.caller, s.callers[a.caller], a.luck);
      }
    }
  }

  // ---- Repeats with an untrimmed id ----

  /** The id of the request is not trimmed, and a stored message of its channel has the trimmed one. */
  ghost predicate RepeatsUntrimmed(t: Tables, r: Request) {
    r.provider.Some? && !Blank(r.provider.value) && !Trimmed(r.provider.value)
    && FindMessage(t, r.channel, TrimSpace(r.provider.value)).Some?
  }

  lemma {:induction false} RowsStay(s: State, a: Action, channel: string, provider: string)
    requires Inv(s) && FindMessage(s.tables, channel, provider).Some?
    ensures FindMessage(Do(s, a).tables, channel, provider).Some?
  {
    hide Next, StoredProvider;
    if a.Statement? && a.caller in s.callers && TakesEffect(s.callers[a.caller], a.luck) {
      var x := s.callers[a.caller];
      assert CallerInv(s.tables, x);
      CommitKeepsTables(s.tables, x);
      var id := FindMessage(s.tables, channel, provider).value;
      assert Carries(Applied(s.tables, x.tx).messages[id], channel, provider);
    }
  }

  /** No step lets such a call write: its commit would break the key. */
  lemma {:induction false} UntrimmedRepeatCannotWrite(s: State, a: Action, c: nat)
    requires Inv(s) && c in s.callers && RepeatsUntrimmed(s.tables, s.callers[c].request) && !s.callers[c].wrote
    ensures c in Do(s, a).callers && !Do(s, a).callers[c].wrote
  {
    hide Applied;
    if a.Statement? && a.caller == c {
      var x := s.callers[c];
      assert CallerInv(s.tables, x);
      NextWrites(s, c, x, a.luck);
    }
  }

  /** Over every run: a call that starts when its trimmed id is already stored, and gives the id untrimmed, never writes
      and never succeeds. */
  lemma {:induction false} UntrimmedRepeatsFail(actions: seq<Action>, n: nat, c: nat)
    requires n <= |actions| && c !in Run(actions[..n]).callers && c in Run(actions).callers
    requires RepeatsUntrimmed(Run(actions[..n]).tables, Run(actions).callers[c].request)
    ensures var x := Run(actions).callers[c];
            !x.wrote && (x.pc.Returned? ==> x.pc.answer == Failure) && RepeatsUntrimmed(Run(actions).tables, x.request)
  {
    hide Next, Applied, TakesEffect;
    assert actions[..|actions|] == actions;
    if n == |actions| {
      assert false;
    } else {
      var before, a := actions[..|actions| - 1], actions[|actions| - 1];
      assert before[..n] == actions[..n];
      var s := Run(before);
      EveryRunKeepsInv(before);
      if c in s.callers {
        RequestKept(s, a, c);
        UntrimmedRepeatsFail(before, n, c);
        UntrimmedRepeatCannotWrite(s, a, c);
        RowsStay(s, a, s.callers[c].request.channel, TrimSpace(s.callers[c].request.provider.value));
      } else {
        RowsKept(before, n, Run(actions).callers[c].request);
        RowsStay(s, a, Run(actions).callers[c].request.channel,
                 TrimSpace(Run(actions).callers[c].request.provider.value));
      }
      UntrimmedAnswerIsFailure(actions, c);
    }
  }

  lemma {:induction false} RequestKept(s: State, a: Action, c: nat)
    requires c in s.callers
    ensures c in Do(s, a).callers && Do(s, a).callers[c].request == s.callers[c].request
  {
    hide Next;
    if a.Statement? && a.caller in s.callers {
      RequestsStay(s, a.caller, a.luck);
    }
  }

  lemma {:induction false} RowsKept(actions: seq<Action>, n: nat, r: Request)
    requires n <= |actions| && RepeatsUntrimmed(Run(actions[..n]).tables, r)
    ensures RepeatsUntrimmed(Run(actions).tables, r)
  {
    hide Do;
    if n == |actions| {
      assert actions[..n] == actions;
    } else {
      var before := actions[..|actions| - 1];
      assert before[..n] == actions[..n];
      RowsKept(before, n, r);
      EveryRunKeepsInv(before);
      RowsStay(Run(before), actions[|actions| - 1], r.channel, TrimSpace(r.provider.value));
    }
  }

  lemma {:induction false} UntrimmedAnswerIsFailure(actions: seq<Action>, c: nat)
    requires c in Run(actions).callers && !Run(actions).callers[c].wrote
    requires Run(actions).callers[c].request.provider.Some? && !Trimmed(Run(actions).callers[c].request.provider.value)
    ensures Run(actions).callers[c].pc.Returned? ==> Run(actions).callers[c].pc.answer == Failure
  {
    hide Run;
    EveryRunKeepsInv(actions);
    assert CallerInv(Run(actions).tables, Run(actions).callers[c]);
  }

  // ---- Channel agreement ----

  ghost predicate ChannelsAgree(t: Tables) {
    forall id :: id in t.messages ==>
      t.messages[id].conversation in t.conversations
      && t.conversations[t.messages[id].conversation].channel == t.messages[id].channel
  }

  /** An outbound record names a conversation and channel that some Receive has answered with, as the callers do. */
  ghost predicate BuiltFromReceive(s: State, r: Request) {
    r.RecordOutbound? ==>
      exists d :: Succeeded(s, d) && s.callers[d].request.Receive?
                  && s.callers[d].pc.answer.result.conversation == r.conversation
                  && s.callers[d].request.channel == r.channel
  }

  ghost predicate Disciplined(actions: seq<Action>) {
    forall i :: 0 <= i < |actions| && actions[i].Invoke? ==> BuiltFromReceive(Run(actions[..i]), actions[i].request)
  }

  /** Every outbound call in progress carries the channel of its conversation. */
  ghost predicate OutboundsAgree(s: State) {
    forall c :: c in s.callers && s.callers[c].request.RecordOutbound? ==>
      var r := s.callers[c].request;
      r.conversation in s.tables.conversations && s.tables.conversations[r.conversation].channel == r.channel
  }

  lemma AnswerNamesItsChannel(s: State, d: nat)
    requires Inv(s) && ChannelsAgree(s.tables) && Succeeded(s, d)
    ensures var res := s.callers[d].pc.answer.result;
            res.conversation in s.tables.conversations
            && s.tables.conversations[res.conversation].channel == s.callers[d].request.channel
  {
    assert AnswerInv(s.tables, s.callers[d]);
  }

  lemma {:induction false} StoredMessagesMatchTheirConversation(actions: seq<Action>)
    requires Disciplined(actions)
    ensures ChannelsAgree(Run(actions).tables) && OutboundsAgree(Run(actions))
  {
    if actions != [] {
      var before := actions[..|actions| - 1];
      var a := actions[|actions| - 1];
      forall i | 0 <= i < |before| && before[i].Invoke? ensures BuiltFromReceive(Run(before[..i]), before[i].request) {
        assert before[..i] == actions[..i] && before[i] == actions[i];
      }
      StoredMessagesMatchTheirConversation(before);
      EveryRunKeepsInv(before);
      var s := Run(before);
      match a
      case Invoke(c, r) =>
        assert BuiltFromReceive(s, r);
        InvokeKeepsChannels(s, c, r);
      case Statement(c, luck) =>
        StatementKeepsChannels(s, c, luck);
    }
  }

  lemma InvokeKeepsChannels(s: State, c: nat, r: Request)
    requires Inv(s) && ChannelsAgree(s.tables) && OutboundsAgree(s) && BuiltFromReceive(s, r)
    ensures ChannelsAgree(Do(s, Invoke(c, r)).tables) && OutboundsAgree(Do(s, Invoke(c, r)))
  {
    if c !in s.callers && r.RecordOutbound? {
      var d :| Succeeded(s, d) && s.callers[d].request.Receive?
               && s.callers[d].pc.answer.result.conversation == r.conversation
               && s.callers[d].request.channel == r.channel;
      AnswerNamesItsChannel(s, d);
    }
  }

  lemma {:induction false} StatementKeepsChannels(s: State, c: nat, luck: Luck)
    requires Inv(s) && ChannelsAgree(s.tables) && OutboundsAgree(s)
    ensures ChannelsAgree(Do(s, Statement(c, luck)).tables) && OutboundsAgree(Do(s, Statement(c, luck)))
  {
    if c in s.callers {
      if TakesEffect(s.callers[c], luck) {
        CommitKeepsChannels(s, c, luck);
      } else {
        RequestsStay(s, c, luck);
      }
    }
  }

  lemma RequestsStay(s: State, c: nat, luck: Luck)
    requires c in s.callers
    ensures Next(s, c, s.callers[c], luck).request == s.callers[c].request
  {
  }

  lemma CommitKeepsChannels(s: State, c: nat, luck: Luck)
    requires Inv(s) && ChannelsAgree(s.tables) && OutboundsAgree(s)
    requires c in s.callers && TakesEffect(s.callers[c], luck)
    ensures ChannelsAgree(Do(s, Statement(c, luck)).tables) && OutboundsAgree(Do(s, Statement(c, luck)))
  {
    var x := s.callers[c];
    assert CallerInv(s.tables, x);
    CommitAddsConversation(s.tables, x);
    CommitKeepsTables(s.tables, x);
  }

  /** RecordOutbound itself compares nothing: whether agreement survives its commit rests on the request alone. */
  lemma OutboundKeepsAgreementIffItsChannelMatches(s: State, c: nat, luck: Luck)
    requires Inv(s) && ChannelsAgree(s.tables)
    requires c in s.callers && TakesEffect(s.callers[c], luck) && s.callers[c].request.RecordOutbound?
    ensures var r := s.callers[c].request;
            r.conversation in s.tables.conversations
            && (ChannelsAgree(Do(s, Statement(c, luck)).tables) <==>
                s.tables.conversations[r.conversation].channel == r.channel)
  {
    var x := s.callers[c];
    assert CallerInv(s.tables, x);
    CommitAddsConversation(s.tables, x);
    CommitKeepsTables(s.tables, x);
    var u := Do(s, Statement(c, luck)).tables;
    var m := x.tx.message.value;
    assert u.messages[m.id] == m;
  }

  // ---- A run that breaks agreement ----

  lemma {:induction false} OneMoreAction(actions: seq<Action>, a: Action)
    ensures Run(actions + [a]) == Do(Run(actions), a)
  {
    hide Do;
    assert (actions + [a])[..|actions|] == actions;
  }

  function Ended(r: Request, conversation: Uuid, message: Uuid): Caller {
    Caller(r, Returned(Success(IngestResult(conversation, message, 0, false))), NoTx, true, false)
  }

  /** The tables once caller 0 has brought the first message there is, in a conversation of its own. */
  function FirstTables(r: Request): Tables
    requires r.Receive?
  {
    Tables(map[1 := Conversation(r.channel, r.key, 0)], map[2 := NewRow(r, 2, 1, 0)], {})
  }

  /** One caller's statements, each carried out. */
  function Statements(c: nat, ids: seq<Uuid>): seq<Action> {
    if ids == [] then [] else Statements(c, ids[..|ids| - 1]) + [Statement(c, Fine(ids[|ids| - 1], 0))]
  }

  /** A caller's statements lead from state to state. */
  lemma {:induction false} StatementsLead(actions: seq<Action>, c: nat, ids: seq<Uuid>, states: seq<State>)
    requires |states| == |ids| + 1 && Run(actions) == states[0]
    requires forall k :: 0 <= k < |ids| ==> Do(states[k], Statement(c, Fine(ids[k], 0))) == states[k + 1]
    ensures Run(actions + Statements(c, ids)) == states[|ids|]
  {
    hide Do, Run;
    if ids == [] {
      assert actions + Statements(c, ids) == actions;
    } else {
      var n := |ids| - 1;
      StatementsLead(actions, c, ids[..n], states[..n + 1]);
      OneMoreAction(actions + Statements(c, ids[..n]), Statement(c, Fine(ids[n], 0)));
      assert actions + Statements(c, ids) == actions + Statements(c, ids[..n]) + [Statement(c, Fine(ids[n], 0))];
    }
  }

  function Doing(r: Request, pc: Pc, tx: Tx): Caller {
    Caller(r, pc, tx, false, false)
  }

  function Just(x: Caller): State {
    State(EMPTY.tables, map[0 := x])
  }

  const BEGUN := Open(None, None, None, None)

  /** What a call without provider id and user has written before its commit. */
  function Full(r: Request, conv: Uuid, made: Option<(Uuid, Conversation)>, id: Uuid): Tx {
    Open(made, Some(NewRow(r, id, conv, 0)), Some((conv, 0)), None)
  }

  lemma {:induction false} FirstReceiveGoes(r: Request)
    requires r.Receive? && ValidRequest(r) && r.provider.None? && r.user.None?
    ensures Do(EMPTY, Invoke(0, r)) == Just(Doing(r, PreCheck, NoTx))
    ensures Do(Just(Doing(r, PreCheck, NoTx)), Statement(0, Fine(1, 0))) == Just(Doing(r, Begin, NoTx))
    ensures Do(Just(Doing(r, Begin, NoTx)), Statement(0, Fine(1, 0))) == Just(Doing(r, FindConversation, BEGUN))
    ensures Do(Just(Doing(r, FindConversation, BEGUN)), Statement(0, Fine(1, 0))) ==
            Just(Doing(r, MakeConversation, BEGUN))
  {
    hide ValidRequest, NewRow, Applied, HoldsProvider, HoldsKey, StoredProvider;
  }

  lemma {:induction false} FirstReceiveWrites(r: Request)
    requires r.Receive? && r.provider.None? && r.user.None?
    ensures var made := Some((1, Conversation(r.channel, r.key, 0)));
            var written := Open(made, Some(NewRow(r, 2, 1, 0)), None, None);
            && Do(Just(Doing(r, MakeConversation, BEGUN)), Statement(0, Fine(1, 0))) ==
               Just(Doing(r, InsertMessage(1), BEGUN.(conversation := made)))
            && Do(Just(Doing(r, InsertMessage(1), BEGUN.(conversation := made))), Statement(0, Fine(2, 0))) ==
               Just(Doing(r, Touch(1), written))
            && Do(Just(Doing(r, Touch(1), written)), Statement(0, Fine(2, 0))) ==
               Just(Doing(r, Commit(1), Full(r, 1, made, 2)))
  {
    hide ValidRequest, Applied;
  }

  lemma {:induction false} FirstReceiveCommits(r: Request)
    requires r.Receive?
    ensures var made := Some((1, Conversation(r.channel, r.key, 0)));
            Do(Just(Doing(r, Commit(1), Full(r, 1, made, 2))), Statement(0, Fine(2, 0))) ==
            State(FirstTables(r), map[0 := Ended(r, 1, 2)])
  {
  }

  function FirstActions(r: Request): seq<Action> {
    [Invoke(0, r)] + Statements(0, [1, 1, 1, 1, 2, 2, 2])
  }

  lemma {:induction false} FirstReceive(r: Request)
    requires r.Receive? && ValidRequest(r) && r.provider.None? && r.user.None?
    ensures Run(FirstActions(r)) == State(FirstTables(r), map[0 := Ended(r, 1, 2)])
  {
    hide ValidRequest, NewRow, Statements, Do;
    var call := [Invoke(0, r)];
    assert Run(call) == Do(EMPTY, Invoke(0, r)) by {
      assert call[..0] == [];
    }
    hide Run;
    FirstReceiveGoes(r);
    FirstReceiveWrites(r);
    FirstReceiveCommits(r);
    var made := Some((1, Conversation(r.channel, r.key, 0)));
    StatementsLead(call, 0, [1, 1, 1, 1, 2, 2, 2],
                   [Just(Doing(r, PreCheck, NoTx)), Just(Doing(r, Begin, NoTx)),
                    Just(Doing(r, FindConversation, BEGUN)), Just(Doing(r, MakeConversation, BEGUN)),
                    Just(Doing(r, InsertMessage(1), BEGUN.(conversation := made))),
                    Just(Doing(r, Touch(1), Open(made, Some(NewRow(r, 2, 1, 0)), None, None))),
                    Just(Doing(r, Commit(1), Full(r, 1, made, 2))),
                    State(FirstTables(r), map[0 := Ended(r, 1, 2)])]);
  }

  /** Caller 1 after the first one is through. */
  function Second(first: Request, x: Caller): State
    requires first.Receive?
  {
    State(FirstTables(first), map[0 := Ended(first, 1, 2), 1 := x])
  }

  lemma {:induction false} SecondCallGoes(first: Request, r: Request)
    requires first.Receive? && r.RecordOutbound? && ValidRequest(r) && r.provider.None? && r.conversation == 1
    ensures Do(State(FirstTables(first), map[0 := Ended(first, 1, 2)]), Invoke(1, r)) ==
            Second(first, Doing(r, PreCheck, NoTx))
    ensures Do(Second(first, Doing(r, PreCheck, NoTx)), Statement(1, Fine(3, 0))) ==
            Second(first, Doing(r, Begin, NoTx))
    ensures Do(Second(first, Doing(r, Begin, NoTx)), Statement(1, Fine(3, 0))) ==
            Second(first, Doing(r, CheckConversation, BEGUN))
    ensures Do(Second(first, Doing(r, CheckConversation, BEGUN)), Statement(1, Fine(3, 0))) ==
            Second(first, Doing(r, InsertMessage(1), BEGUN))
  {
    hide ValidRequest, NewRow, Applied, StoredProvider;
  }

  lemma {:induction false} SecondCallWrites(first: Request, r: Request)
    requires first.Receive? && r.RecordOutbound? && r.provider.None?
    ensures var written := BEGUN.(message := Some(NewRow(r, 3, 1, 0)));
            && Do(Second(first, Doing(r, InsertMessage(1), BEGUN)), Statement(1, Fine(3, 0))) ==
               Second(first, Doing(r, Touch(1), written))
            && Do(Second(first, Doing(r, Touch(1), written)), Statement(1, Fine(3, 0))) ==
               Second(first, Doing(r, Commit(1), Full(r, 1, None, 3)))
  {
    hide ValidRequest, Applied;
  }

  /** For any two channels: a first message through one, then an outbound message through the other for the
      conversation that made. Both calls go through, and agreement is broken. */
  lemma {:induction false} AgreementCanBreak(first: Request, r: Request)
    requires first.Receive? && ValidRequest(first) && first.provider.None? && first.user.None?
    requires r.RecordOutbound? && ValidRequest(r) && r.provider.None? && r.conversation == 1
    requires r.channel != first.channel
    ensures ChannelsAgree(Run(FirstActions(first)).tables)
    ensures var actions := (FirstActions(first) + [Invoke(1, r)]) + Statements(1, [3, 3, 3, 3, 3, 3]);
            !ChannelsAgree(Run(actions).tables) && Succeeded(Run(actions), 1)
  {
    hide ValidRequest, NewRow, Statements, Do, Run, FirstActions;
    var call := FirstActions(first) + [Invoke(1, r)];
    FirstReceive(first);
    SecondCallGoes(first, r);
    SecondCallWrites(first, r);
    OneMoreAction(FirstActions(first), Invoke(1, r));
    var written := BEGUN.(message := Some(NewRow(r, 3, 1, 0)));
    var s := Second(first, Doing(r, Commit(1), Full(r, 1, None, 3)));
    var states := [Second(first, Doing(r, PreCheck, NoTx)), Second(first, Doing(r, Begin, NoTx)),
                   Second(first, Doing(r, CheckConversation, BEGUN)), Second(first, Doing(r, InsertMessage(1), BEGUN)),
                   Second(first, Doing(r, Touch(1), written)), s];
    StatementsLead(call, 1, [3, 3, 3, 3, 3], states);
    StatementsLead(call, 1, [3, 3, 3, 3, 3, 3], states + [Do(s, Statement(1, Fine(3, 0)))]);
    EveryRunKeepsInv(call + Statements(1, [3, 3, 3, 3, 3]));
    FirstTablesAgree(first);
    OutboundKeepsAgreementIffItsChannelMatches(s, 1, Fine(3, 0));
    LastCommitSucceeds(first, r);
  }

  lemma {:induction false} FirstTablesAgree(first: Request)
    requires first.Receive?
    ensures ChannelsAgree(FirstTables(first))
  {
  }

  lemma {:induction false} LastCommitSucceeds(first: Request, r: Request)
    requires first.Receive?
    ensures Succeeded(Do(Second(first, Doing(r, Commit(1), Full(r, 1, None, 3))), Statement(1, Fine(3, 0))), 1)
  {
  }
}
