/** The values that pass between the parts: identifiers, messages and results. */
module Model {
  import opened Text

  /** A 128-bit identifier read as a big-endian number, so that Postgres's byte order is numeric order. */
  type Uuid = nat

  /** uuid.Nil */
  const NIL: Uuid := 0

  datatype Option<+T> = None | Some(value: T)

  datatype Result<+T, +E> = Ok(value: T) | Err(error: E)

  const WEB := "web"
  const TWILIO_SMS := "twilio_sms"
  const TWILIO_MAIL := "twilio_email"
  const DISCORD := "discord"

  datatype Direction = Inbound | Outbound

  datatype SecurityClass = Secure | Insecure

  function ClassifySecurity(channel: string): SecurityClass {
    if channel == WEB || channel == DISCORD then Secure else Insecure
  }

  /** The source_context column of a Discord message. Its JSON form is not modelled. */
  datatype SourceContext = SourceContext(
    guildId: string,
    channelId: string,
    threadId: string,
    messageId: string,
    authorId: string,
    mentionTarget: string,
    isDM: bool)

  /** A row of the messages table, as far as the queries read it. */
  datatype StoredMessage = StoredMessage(
    id: Uuid,
    conversation: Uuid,
    channel: string,
    direction: Direction,
    identity: string,
    context: SourceContext,
    body: string,
    provider: Option<string>,
    createdAt: int)

  /** The messages table: the key of a row is its id. */
  type MessageTable = m: map<Uuid, StoredMessage> | forall id :: id in m ==> m[id].id == id witness map[]

  /** The order of a conversation: by creation time, then by id. */
  predicate Before(a: StoredMessage, b: StoredMessage) {
    a.createdAt < b.createdAt || (a.createdAt == b.createdAt && a.id < b.id)
  }

  function OfConversation(table: MessageTable, conversation: Uuid): set<StoredMessage> {
    set id | id in table && table[id].conversation == conversation :: table[id]
  }

  /** `m` is the message of the set that no other follows. */
  ghost predicate IsNewest(m: StoredMessage, ms: set<StoredMessage>) {
    m in ms && forall x :: x in ms && x != m ==> Before(x, m)
  }
}
