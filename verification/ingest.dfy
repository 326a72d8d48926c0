/** Recording messages: any number of Receive and RecordOutbound calls, interleaved statement by statement
    over tables with unique keys, under Postgres's rules for waiting, unique violations and aborted transactions. */
module Ingest {
  import opened Text
  import opened Model

  datatype Conversation = Conversation(channel: string, key: string, lastMessageAt: int)

  /** The committed rows. */
  datatype Tables = Tables(
    conversations: map<Uuid, Conversation>,
    messages: map<Uuid, StoredMessage>,
    participants: set<(Uuid, Uuid)>)

  datatype Request =
    | Receive(channel: string, key: string, body: string, identity: string, context: SourceContext,
              user: Option<Uuid>, provider: Option<string>)
    | RecordOutbound(conversation: Uuid, channel: string, body: string, identity: string, context: SourceContext,
                     provider: Option<string>)

  datatype IngestResult = IngestResult(conversation: Uuid, message: Uuid, createdAt: int, deduped: bool)

  datatype Answer = Success(result: IngestResult) | Failure

  /** What a transaction has written and nobody else sees yet. */
  datatype Tx =
    | NoTx
    | Open(conversation: Option<(Uuid, Conversation)>, message: Option<StoredMessage>,
           touched: Option<(Uuid, int)>, participant: Option<(Uuid, Uuid)>)
    | Aborted

  /** The statement a call has reached. */
  datatype Pc =
    | PreCheck
    | Begin
    | FindConversation
    | MakeConversation
    | RefetchConversation
    | CheckConversation
    | InsertMessage(conversation: Uuid)
    | Recover
    | Touch(conversation: Uuid)
    | Link(conversation: Uuid)
    | Commit(conversation: Uuid)
    | Returned(answer: Answer)

  /** `wrote` and `lost` are history: the commit took effect; its answer did not arrive. */
  datatype Caller = Caller(request: Request, pc: Pc, tx: Tx, wrote: bool, lost: bool)

  datatype State = State(tables: Tables, callers: map<nat, Caller>)

  /** How a statement fares. Fine carries the id and time a new row would get. */
  datatype Luck = Fine(id: Uuid, at: int) | UnknownUser | Broken | Lost

  datatype Action = Invoke(caller: nat, request: Request) | Statement(caller: nat, luck: Luck)

  // ---- The statements ----

  /** The stored form of a provider id: trimmed, and null when nothing is left. */
  function StoredProvider(provider: Option<string>): (r: Option<string>)
    ensures r.Some? ==> r.value != "" && Trimmed(r.value)
  {
    if provider.Some? && !Blank(provider.value) then Some(TrimSpace(provider.value)) else None
  }

  ghost predicate Carries(m: StoredMessage, channel: string, provider: string) {
    m.channel == channel && m.provider == Some(provider)
  }

  ghost function FindMessage(t: Tables, channel: string, provider: string): (r: Option<Uuid>)
    ensures r.Some? ==> r.value in t.messages && Carries(t.messages[r.value], channel, provider)
    ensures r.None? ==> forall id :: id in t.messages ==> !Carries(t.messages[id], channel, provider)
  {
    if exists id :: id in t.messages && Carries(t.messages[id], channel, provider)
    then var id :| id in t.messages && Carries(t.messages[id], channel, provider); Some(id)
    else None
  }

  ghost predicate Keyed(c: Conversation, channel: string, key: string) {
    c.channel == channel && c.key == key
  }

  ghost function FindConv(t: Tables, channel: string, key: string): (r: Option<Uuid>)
    ensures r.Some? ==> r.value in t.conversations && Keyed(t.conversations[r.value], channel, key)
    ensures r.None? ==> forall id :: id in t.conversations ==> !Keyed(t.conversations[id], channel, key)
  {
    if exists id :: id in t.conversations && Keyed(t.conversations[id], channel, key)
    then var id :| id in t.conversations && Keyed(t.conversations[id], channel, key); Some(id)
    else None
  }

  /** An open transaction holds an uncommitted conversation with this key: an insert has to wait for it. */
  ghost predicate HoldsKey(x: Caller, channel: string, key: string) {
    x.tx.Open? && x.tx.conversation.Some? && Keyed(x.tx.conversation.value.1, channel, key)
  }

  ghost predicate HoldsProvider(x: Caller, channel: string, provider: Option<string>) {
    x.tx.Open? && x.tx.message.Some? && provider.Some? && Carries(x.tx.message.value, channel, provider.value)
  }

  /** gen_random_uuid yields an id no row has, committed or not. */
  ghost predicate FreshConversation(s: State, id: Uuid) {
    id != NIL && id !in s.tables.conversations
    && forall d :: d in s.callers && s.callers[d].tx.Open? && s.callers[d].tx.conversation.Some? ==>
                     s.callers[d].tx.conversation.value.0 != id
  }

  ghost predicate FreshMessage(s: State, id: Uuid) {
    id != NIL && id !in s.tables.messages
    && forall d :: d in s.callers && s.callers[d].tx.Open? && s.callers[d].tx.message.Some? ==>
                     s.callers[d].tx.message.value.id != id
  }

  function NewRow(r: Request, id: Uuid, conversation: Uuid, at: int): StoredMessage {
    StoredMessage(id, conversation, r.channel, if r.Receive? then Inbound else Outbound, r.identity, r.context, r.body,
                  StoredProvider(r.provider), at)
  }

  /** The tables once an open transaction is committed. */
  function Applied(t: Tables, tx: Tx): Tables
    requires tx.Open?
  {
    var convs := if tx.conversation.Some? then t.conversations[tx.conversation.value.0 := tx.conversation.value.1]
                 else t.conversations;
    var touched := if tx.touched.Some? && tx.touched.value.0 in convs
                   then convs[tx.touched.value.0 := convs[tx.touched.value.0].(lastMessageAt := tx.touched.value.1)]
                   else convs;
    Tables(touched,
           if tx.message.Some? then t.messages[tx.message.value.id := tx.message.value] else t.messages,
           if tx.participant.Some? then t.participants + {tx.participant.value} else t.participants)
  }

  predicate ValidRequest(r: Request) {
    && !Blank(r.channel) && !Blank(r.body)
    && (r.Receive? ==> !Blank(r.key))
    && (r.RecordOutbound? ==> r.conversation != NIL && !Blank(r.identity))
  }

  // ---- One call, statement by statement ----

  /** Whatever is returned, a transaction still open is rolled back on the way out. */
  function Return(x: Caller, answer: Answer): Caller {
    x.(pc := Returned(answer), tx := NoTx)
  }

  ghost function Existing(t: Tables, id: Uuid): Answer
    requires id in t.messages
  {
    Success(IngestResult(t.messages[id].conversation, id, t.messages[id].createdAt, true))
  }

  /** The caller's state after its next statement; tables change only with Commit. In an aborted transaction every
      statement fails, whatever it asks for: only the look-up of Recover runs outside. */
  ghost function Next(s: State, c: nat, x: Caller, luck: Luck): Caller {
    var t, r := s.tables, x.request;
    match x.pc
    case PreCheck =>
      if r.provider.None? || Blank(r.provider.value) then x.(pc := Begin)
      else if !luck.Fine? then Return(x, Failure)
      else
        var found := FindMessage(t, r.channel, r.provider.value);
        if found.Some? then Return(x, Existing(t, found.value)) else x.(pc := Begin)
    case Begin =>
      if !luck.Fine? then Return(x, Failure)
      else x.(pc := if r.Receive? then FindConversation else CheckConversation, tx := Open(None, None, None, None))
    case FindConversation =>
      if !luck.Fine? || !r.Receive? || !x.tx.Open? then Return(x, Failure)
      else
        var found := FindConv(t, r.channel, r.key);
        x.(pc := if found.Some? then InsertMessage(found.value) else MakeConversation)
    case MakeConversation =>
      if !luck.Fine? || !r.Receive? || !x.tx.Open? then Return(x, Failure)
      else if (exists d :: d in s.callers && d != c && HoldsKey(s.callers[d], r.channel, r.key))
              || !FreshConversation(s, luck.id) then x
      else if FindConv(t, r.channel, r.key).Some? then x.(pc := RefetchConversation, tx := Aborted)
      else
        var made := Some((luck.id, Conversation(r.channel, r.key, luck.at)));
        x.(pc := InsertMessage(luck.id), tx := x.tx.(conversation := made))
    case RefetchConversation =>
      if !luck.Fine? || !r.Receive? || !x.tx.Open? then Return(x, Failure)
      else
        var found := FindConv(t, r.channel, r.key);
        if found.Some? then x.(pc := InsertMessage(found.value)) else Return(x, Failure)
    case CheckConversation =>
      if luck.Fine? && x.tx.Open? && r.RecordOutbound? && r.conversation in t.conversations then
        x.(pc := InsertMessage(r.conversation))
      else Return(x, Failure)
    case InsertMessage(conv) =>
      var provider := StoredProvider(r.provider);
      if !luck.Fine? || !x.tx.Open? then Return(x, Failure)
      else if (exists d :: d in s.callers && d != c && HoldsProvider(s.callers[d], r.channel, provider))
              || !FreshMessage(s, luck.id) then x
      else if provider.Some? && FindMessage(t, r.channel, provider.value).Some? then x.(pc := Recover, tx := Aborted)
      else x.(pc := Touch(conv), tx := x.tx.(message := Some(NewRow(r, luck.id, conv, luck.at))))
    case Recover =>
      if !luck.Fine? || r.provider.None? then Return(x, Failure)
      else
        var found := FindMessage(t, r.channel, r.provider.value);
        Return(x, if found.Some? then Existing(t, found.value) else Failure)
    case Touch(conv) =>
      if !luck.Fine? || !x.tx.Open? || x.tx.message.None? then Return(x, Failure)
      else x.(pc := if r.Receive? && r.user.Some? then Link(conv) else Commit(conv),
              tx := x.tx.(touched := Some((conv, x.tx.message.value.createdAt))))
    case Link(conv) =>
      if luck.UnknownUser? then x.(pc := Commit(conv), tx := Aborted)
      else if !luck.Fine? || !x.tx.Open? || !r.Receive? || r.user.None? then Return(x, Failure)
      else x.(pc := Commit(conv), tx := x.tx.(participant := Some((conv, r.user.value))))
    case Commit(conv) =>
      if !TakesEffect(x, luck) then Return(x, Failure)
      else if luck.Lost? then Return(x, Failure).(wrote := true, lost := true)
      else
        var m := x.tx.message.value;
        Return(x, Success(IngestResult(conv, m.id, m.createdAt, false))).(wrote := true)
    case Returned(_) => x
  }

  /** A commit of a transaction that is not aborted may take effect without the answer arriving. */
  predicate TakesEffect(x: Caller, luck: Luck) {
    x.pc.Commit? && x.tx.Open? && x.tx.message.Some? && (luck.Fine? || luck.Lost?)
  }

  ghost function Do(s: State, a: Action): State {
    match a
    case Invoke(c, r) =>
      if c in s.callers then s
      else
        var pc := if ValidRequest(r) then PreCheck else Returned(Failure);
        s.(callers := s.callers[c := Caller(r, pc, NoTx, false, false)])
    case Statement(c, luck) =>
      if c !in s.callers then s else
      var x := s.callers[c];
      State(if TakesEffect(x, luck) then Applied(s.tables, x.tx) else s.tables, s.callers[c := Next(s, c, x, luck)])
  }

  const EMPTY := State(Tables(map[], map[], {}), map[])

  ghost function Run(actions: seq<Action>): State {
    if actions == [] then EMPTY else Do(Run(actions[..|actions| - 1]), actions[|actions| - 1])
  }
}
