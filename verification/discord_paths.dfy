/** The way of a Discord message through the parts: from the gateway event into the tables, and from there
    to the place a reply is posted. */
module DiscordPaths {
  import opened Text
  import opened Model
  import opened Ingest
  import opened IngestProofs
  import opened IngestTheorems
  import Routing
  import SendQueue

  /** The Receive call the gateway handler makes of an accepted event. */
  function RequestFor(msg: Routing.InboundMessage, user: Option<Uuid>): Request {
    Receive(msg.channel, msg.key, msg.body, msg.identity, msg.context, user, msg.provider)
  }

  // ---- Delivered twice, stored once ----

  /** An event that is delivered twice, be it to processes with different filters and user look-ups, has one
      message row; both calls that succeed name it, and only one can say it is new. */
  lemma {:induction false} RedeliveredEventIsStoredOnce(actions: seq<Action>, e: Routing.Event, here: Routing.Filter,
                                                        there: Routing.Filter, u: Option<Uuid>, v: Option<Uuid>, c: nat,
                                                        d: nat)
    requires !Blank(e.id) && c != d
    requires Routing.NormalizeMessageCreate(Some(e), here).Some? && Routing.NormalizeMessageCreate(Some(e), there).Some?
    requires var s := Run(actions);
             && Succeeded(s, c) && Succeeded(s, d)
             && s.callers[c].request == RequestFor(Routing.NormalizeMessageCreate(Some(e), here).value, u)
             && s.callers[d].request == RequestFor(Routing.NormalizeMessageCreate(Some(e), there).value, v)
    ensures var s := Run(actions);
            var x, y := s.callers[c].pc.answer.result, s.callers[d].pc.answer.result;
            && x.message == y.message && x.conversation == y.conversation && (x.deduped || y.deduped)
            && forall id :: id in s.tables.messages && Carries(s.tables.messages[id], DISCORD, TrimSpace(e.id)) ==>
                  id == x.message
  {
    DuplicatesShareOneRow(actions, DISCORD, TrimSpace(e.id), c, d);
  }

  // ---- Every Discord row comes from an event ----

  ghost predicate FromEvent(r: Request) {
    r.Receive? && r.channel == DISCORD ==>
      exists msg: Routing.InboundMessage, user ::
        Routing.Accepted(msg) && ':' !in msg.context.guildId && r == RequestFor(msg, user)
  }

  /** Only the gateway handler receives on the Discord channel, and guild ids hold no colon. */
  ghost predicate DiscordOnlyFromEvents(actions: seq<Action>) {
    forall i :: 0 <= i < |actions| && actions[i].Invoke? ==> FromEvent(actions[i].request)
  }

  ghost predicate CallersFromEvents(s: State) {
    forall c :: c in s.callers ==> FromEvent(s.callers[c].request)
  }

  /** Every inbound Discord message keeps what was made of some event, under the conversation with its key. */
  ghost predicate RowsFromEvents(t: Tables) {
    forall id :: id in t.messages && t.messages[id].channel == DISCORD && t.messages[id].direction == Inbound ==>
      && t.messages[id].conversation in t.conversations
      && Routing.StoredFrom(t.messages[id], t.conversations[t.messages[id].conversation].key)
  }

  lemma WriteKeepsRowsFromEvents(t: Tables, u: Tables, r: Request, m: StoredMessage)
    requires TablesInv(t) && RowsFromEvents(t) && FromEvent(r)
    requires WrittenAs(t, u, r, m) && m == NewRow(r, m.id, m.conversation, m.createdAt)
    ensures RowsFromEvents(u)
  {
    forall id | id in u.messages && u.messages[id].channel == DISCORD && u.messages[id].direction == Inbound
      ensures u.messages[id].conversation in u.conversations
      ensures Routing.StoredFrom(u.messages[id], u.conversations[u.messages[id].conversation].key)
    {
      if id == m.id {
        NewRowIsFromEvent(r, m);
      } else {
        assert u.messages[id] == t.messages[id];
        var conv := t.messages[id].conversation;
        assert conv in t.conversations && u.conversations[conv].key == t.conversations[conv].key;
      }
    }
  }

  lemma {:induction false} NewRowIsFromEvent(r: Request, m: StoredMessage)
    requires FromEvent(r) && r.Receive? && r.channel == DISCORD && m == NewRow(r, m.id, m.conversation, m.createdAt)
    ensures Routing.StoredFrom(m, r.key)
  {
    var msg: Routing.InboundMessage, user :|
      Routing.Accepted(msg) && ':' !in msg.context.guildId && r == RequestFor(msg, user);
  }

  lemma {:induction false} EveryDiscordRowIsFromAnEvent(actions: seq<Action>)
    requires DiscordOnlyFromEvents(actions)
    ensures CallersFromEvents(Run(actions)) && RowsFromEvents(Run(actions).tables)
  {
    if actions != [] {
      var before := actions[..|actions| - 1];
      var a := actions[|actions| - 1];
      assert forall i :: 0 <= i < |before| ==> before[i] == actions[i];
      EveryDiscordRowIsFromAnEvent(before);
      var s := Run(before);
      StepKeepsCallersFromEvents(s, a);
      if Do(s, a).tables != s.tables {
        TablesChangeByWholeRequests(before, a);
        EveryRunKeepsInv(before);
        var r := s.callers[a.caller].request;
        var id, conv, at :| WrittenAs(s.tables, Do(s, a).tables, r, NewRow(r, id, conv, at));
        WriteKeepsRowsFromEvents(s.tables, Do(s, a).tables, r, NewRow(r, id, conv, at));
      }
    }
  }

  lemma {:induction false} StepKeepsCallersFromEvents(s: State, a: Action)
    requires CallersFromEvents(s) && (a.Invoke? ==> FromEvent(a.request))
    ensures CallersFromEvents(Do(s, a))
  {
    if a.Statement? && a.caller in s.callers {
      RequestsStay(s, a.caller, a.luck);
    }
  }

  // ---- From the tables back to the channel ----

  /** Over every run of the ingest calls: a reply to a guild conversation is posted, at every attempt, where a
      given message of the conversation was posted, whichever message is the latest when its turn comes. */
  lemma {:induction false} ReplyIsPostedWhereTheQuestionWas(actions: seq<Action>, table: MessageTable,
                                                            f: SendQueue.Finished, bot: string, question: Uuid)
    requires DiscordOnlyFromEvents(actions) && table == Run(actions).tables.messages
    requires SendQueue.Accounted(f, bot) && f.attempts != []
    requires SendQueue.LatestTarget(table, f.job.conversation, f.attempts[0].target)
    requires question in table && Routing.IsCandidate(table[question], f.job.conversation)
    requires Routing.TargetOf(table[question]).Ok? && !table[question].context.isDM
    ensures forall i :: 0 <= i < |f.attempts| ==>
              Routing.BuildSendPlan(f.attempts[i].target).0 == Routing.Destination(table[question].context)
  {
    EveryDiscordRowIsFromAnEvent(actions);
    var key := Run(actions).tables.conversations[f.job.conversation].key;
    SendQueue.GuildReplyReachesItsQuestion(f, bot, table, question, key);
  }

  /** The same for a direct conversation: every attempt is for the person who wrote the message it answers. */
  lemma {:induction false} DirectReplyGoesToItsAuthor(actions: seq<Action>, table: MessageTable, f: SendQueue.Finished,
                                                      bot: string, question: Uuid)
    requires DiscordOnlyFromEvents(actions) && table == Run(actions).tables.messages
    requires SendQueue.Accounted(f, bot) && f.attempts != []
    requires SendQueue.LatestTarget(table, f.job.conversation, f.attempts[0].target)
    requires question in table && Routing.IsCandidate(table[question], f.job.conversation)
    requires Routing.TargetOf(table[question]).Ok? && table[question].context.isDM
    ensures forall i :: 0 <= i < |f.attempts| ==>
              f.attempts[i].target.isDM && f.attempts[i].target.authorId == table[question].context.authorId
  {
    hide Run, Routing.TargetOf, Routing.Accepted, Routing.BuildSendPlan;
    EveryDiscordRowIsFromAnEvent(actions);
    var target := f.attempts[0].target;
    var key := Run(actions).tables.conversations[f.job.conversation].key;
    var id :| Routing.IsLatest(table, f.job.conversation, id) && Routing.TargetOf(table[id]) == Ok(target);
    Routing.ReplyCannotBeDiverted(table[question], table[id], key);
    Routing.TargetShowsContext(table[question], key);
    assert forall i :: 0 <= i < |f.attempts| ==> f.attempts[i].target == target;
  }
}
