/** From a Discord event to a stored conversation, and from a conversation back to a channel. */
module Routing {
  import opened Text
  import opened Model

  datatype Author = Author(id: string, bot: bool)

  datatype Thread = Thread(id: string, parentId: string)

  /** A MessageCreate event; what may be nil is an option. */
  datatype Event = Event(
    id: string,
    guildId: string,
    channelId: string,
    content: string,
    author: Option<Author>,
    thread: Option<Thread>,
    mentions: seq<Option<string>>)

  datatype Filter = Filter(botUserId: string, mentionTarget: string, allowedGuilds: set<string>)

  datatype InboundMessage = InboundMessage(
    channel: string,
    key: string,
    body: string,
    identity: string,
    context: SourceContext,
    security: SecurityClass,
    provider: Option<string>)

  const DEFAULT_MENTION_TARGET := "doujins"

  predicate IsMentioned(e: Event, botUserId: string, mentionTarget: string) {
    var bot := TrimSpace(botUserId);
    var target := TrimSpace(mentionTarget);
    var content := ToLower(e.content);
    || (bot != "" && exists i :: 0 <= i < |e.mentions| && e.mentions[i].Some? && TrimSpace(e.mentions[i].value) == bot)
    || (target != "" && Contains(content, ToLower("@" + target)))
    || (bot != "" && (Contains(content, "<@" + bot + ">") || Contains(content, "<@!" + bot + ">")))
  }

  const DM_PREFIX := "discord:dm:"
  const GUILD_PREFIX := "discord:guild:"

  /** What follows the guild in a guild conversation's key. */
  function Place(channelId: string, threadId: string): string {
    if threadId != "" then "thread:" + threadId else "channel:" + channelId
  }

  function BuildConversationKey(guildId: string, channelId: string, threadId: string, authorId: string): string {
    var guild := TrimSpace(guildId);
    if guild == "" then DM_PREFIX + TrimSpace(authorId)
    else GUILD_PREFIX + guild + ":" + Place(TrimSpace(channelId), TrimSpace(threadId))
  }

  /** The message made of an event once it has passed the filter. */
  function MessageOf(e: Event, author: string, mention: string): InboundMessage {
    var isDM := Blank(e.guildId);
    var threadId := if e.thread.Some? then TrimSpace(e.thread.value.id) else "";
    var channelId := if e.thread.Some? && !Blank(e.thread.value.parentId) then TrimSpace(e.thread.value.parentId)
                     else TrimSpace(e.channelId);
    var messageId := TrimSpace(e.id);
    InboundMessage(
      DISCORD,
      BuildConversationKey(e.guildId, channelId, threadId, author),
      TrimSpace(e.content),
      TrimSpace(author),
      SourceContext(TrimSpace(e.guildId), channelId, threadId, messageId, TrimSpace(author),
                    if isDM then "" else mention, isDM),
      ClassifySecurity(DISCORD),
      if messageId == "" then None else Some(messageId))
  }

  predicate PassesFilter(e: Event, cfg: Filter, mention: string) {
    && !Blank(e.content)
    && (Blank(e.guildId) || ((cfg.allowedGuilds == {} || e.guildId in cfg.allowedGuilds) &&
                             IsMentioned(e, cfg.botUserId, mention)))
  }

  /** None is a rejected event. */
  function NormalizeMessageCreate(event: Option<Event>, cfg: Filter): Option<InboundMessage> {
    if event.None? || event.value.author.None? || event.value.author.value.bot then None else
    var mention := if Blank(cfg.mentionTarget) then DEFAULT_MENTION_TARGET else TrimSpace(cfg.mentionTarget);
    if PassesFilter(event.value, cfg, mention) then Some(MessageOf(event.value, event.value.author.value.id, mention))
    else None
  }

  /** The part stands somewhere in the text. */
  ghost predicate Says(text: string, part: string) {
    exists i :: 0 <= i <= |text| && part <= text[i..]
  }

  lemma {:induction false} ContainsWhatItSays(text: string, part: string)
    ensures Contains(text, part) <==> Says(text, part)
  {
    assert text[0..] == text;
    if text != "" {
      ContainsWhatItSays(text[1..], part);
      assert forall i :: 0 < i <= |text| ==> text[i..] == text[1..][i - 1..];
      assert forall i :: 0 <= i <= |text[1..]| ==> text[1..][i..] == text[i + 1..];
    }
  }

  /** A message mentions the bot: in its list of mentions, by the name it listens to after an "@", or by its tag. */
  ghost predicate Addresses(e: Event, bot: string, name: string) {
    var content := ToLower(e.content);
    || (bot != "" && exists i :: 0 <= i < |e.mentions| && e.mentions[i].Some? && TrimSpace(e.mentions[i].value) == bot)
    || Says(content, ToLower("@" + name))
    || (bot != "" && (Says(content, "<@" + bot + ">") || Says(content, "<@!" + bot + ">")))
  }

  lemma {:induction false} MentionedIffAddressed(e: Event, botUserId: string, name: string)
    requires Trimmed(name) && name != ""
    ensures IsMentioned(e, botUserId, name) <==> Addresses(e, TrimSpace(botUserId), name)
  {
    hide ToLower, Contains, Says, IsSpace;
    var bot, content := TrimSpace(botUserId), ToLower(e.content);
    ContainsWhatItSays(content, ToLower("@" + name));
    ContainsWhatItSays(content, "<@" + bot + ">");
    ContainsWhatItSays(content, "<@!" + bot + ">");
  }

  /** Who is heard: people, never bots, with something to say; in private always, in a guild just when it is allowed,
      as all are when none is listed, and the message addresses the bot. */
  lemma {:induction false} WhoIsHeard(e: Event, cfg: Filter)
    ensures var person := e.author.Some? && !e.author.value.bot && !Blank(e.content);
            var name := if Blank(cfg.mentionTarget) then DEFAULT_MENTION_TARGET else TrimSpace(cfg.mentionTarget);
            NormalizeMessageCreate(Some(e), cfg).Some? <==>
              && person
              && (Blank(e.guildId) || ((cfg.allowedGuilds == {} || e.guildId in cfg.allowedGuilds) &&
                                       Addresses(e, TrimSpace(cfg.botUserId), name)))
  {
    hide IsMentioned, Addresses, MessageOf;
    MentionedIffAddressed(e, cfg.botUserId,
                          if Blank(cfg.mentionTarget) then DEFAULT_MENTION_TARGET else TrimSpace(cfg.mentionTarget));
  }

  // ---- Back from a stored message to a destination ----

  datatype ReplyTarget = ReplyTarget(
    conversation: Uuid,
    guildId: string,
    channelId: string,
    threadId: string,
    messageId: string,
    authorId: string,
    mentionTarget: string,
    isDM: bool)

  datatype TargetError = NoRows | MissingChannel

  function TargetOf(m: StoredMessage): Result<ReplyTarget, TargetError> {
    var c := m.context;
    if Blank(c.channelId) then Err(MissingChannel) else
    Ok(ReplyTarget(
         m.conversation,
         TrimSpace(c.guildId),
         TrimSpace(c.channelId),
         TrimSpace(c.threadId),
         if Blank(c.messageId) && m.provider.Some? then TrimSpace(m.provider.value) else TrimSpace(c.messageId),
         if Blank(c.authorId) then TrimSpace(m.identity) else TrimSpace(c.authorId),
         TrimSpace(c.mentionTarget),
         c.isDM || Blank(c.guildId)))
  }

  predicate IsCandidate(m: StoredMessage, conversation: Uuid) {
    m.conversation == conversation && m.channel == DISCORD && m.direction == Inbound
  }

  /** No candidate of the conversation is newer. */
  ghost predicate IsLatest(table: MessageTable, conversation: Uuid, id: Uuid) {
    && id in table && IsCandidate(table[id], conversation)
    && forall x :: x in table && IsCandidate(table[x], conversation) ==> table[x].createdAt <= table[id].createdAt
  }

  /** The query orders by creation time only: among equally new messages it may return any. */
  method LatestDiscordReplyTarget(table: MessageTable, conversation: Uuid) returns (r: Result<ReplyTarget, TargetError>)
    ensures r == Err(NoRows) <==> forall id :: id in table ==> !IsCandidate(table[id], conversation)
    ensures r != Err(NoRows) ==>
              exists id :: IsLatest(table, conversation, id) && r == TargetOf(table[id])
  {
    var rest := set id | id in table && IsCandidate(table[id], conversation);
    assert forall id :: id in table && IsCandidate(table[id], conversation) ==> id in rest;
    if rest == {} {
      return Err(NoRows);
    }
    var latest :| latest in rest;
    ghost var all := rest;
    while rest != {}
      invariant rest <= all && latest in all
      invariant forall x :: x in all - rest ==> table[x].createdAt <= table[latest].createdAt
      decreases rest
    {
      var x :| x in rest;
      if table[x].createdAt > table[latest].createdAt {
        latest := x;
      }
      rest := rest - {x};
    }
    assert IsLatest(table, conversation, latest);
    return TargetOf(table[latest]);
  }

  datatype Reference = Reference(messageId: string, channelId: string, guildId: string)

  function BuildSendPlan(target: ReplyTarget): (string, Option<Reference>) {
    var to := if Blank(target.threadId) then TrimSpace(target.channelId) else target.threadId;
    (to, if Blank(target.messageId) then None else Some(Reference(target.messageId, to, target.guildId)))
  }

  /** Where the reply to a message with this context is posted when it came from a guild. */
  function Destination(c: SourceContext): string {
    if c.threadId != "" then c.threadId else c.channelId
  }

  // ---- The key of a conversation determines where its replies go ----

  ghost predicate Accepted(msg: InboundMessage) {
    exists e, cfg :: NormalizeMessageCreate(Some(e), cfg) == Some(msg)
  }

  /** What normalisation guarantees about key and context, whatever the event and the filter. */
  ghost predicate WellKeyed(msg: InboundMessage) {
    var c := msg.context;
    && Trimmed(c.guildId) && Trimmed(c.channelId) && Trimmed(c.threadId) && Trimmed(c.authorId) && Trimmed(c.messageId)
    && msg.channel == DISCORD && Trimmed(msg.body) && msg.body != ""
    && msg.provider == (if c.messageId == "" then None else Some(c.messageId))
    && c.isDM == (c.guildId == "") && c.authorId == msg.identity
    && msg.key == if c.isDM then DM_PREFIX + c.authorId
                  else GUILD_PREFIX + c.guildId + ":" + Place(c.channelId, c.threadId)
  }

  lemma {:induction false} AcceptedIsWellKeyed(msg: InboundMessage)
    requires Accepted(msg)
    ensures WellKeyed(msg)
  {
    var e, cfg :| NormalizeMessageCreate(Some(e), cfg) == Some(msg);
  }

  /** A message is answered where it was posted: in its thread, else in the thread's parent or the channel. */
  lemma AnsweredWhereItWasPosted(e: Event, author: string, mention: string)
    ensures var c := MessageOf(e, author, mention).context;
            Destination(c) == if e.thread.None? then TrimSpace(e.channelId)
                              else if !Blank(e.thread.value.id) then TrimSpace(e.thread.value.id)
                              else if !Blank(e.thread.value.parentId) then TrimSpace(e.thread.value.parentId)
                              else TrimSpace(e.channelId)
  {
  }

  lemma KeyShowsKind(msg: InboundMessage)
    requires WellKeyed(msg)
    ensures |msg.key| > 8 && (msg.context.isDM <==> msg.key[8] == 'd')
  {
    var c := msg.context;
    if c.isDM {
      assert msg.key[8] == DM_PREFIX[8];
    } else {
      assert msg.key[8] == GUILD_PREFIX[8];
    }
  }

  /** Direct messages and guild messages never share a conversation. */
  lemma SameKeySameKind(a: InboundMessage, b: InboundMessage)
    requires WellKeyed(a) && WellKeyed(b) && a.key == b.key
    ensures a.context.isDM == b.context.isDM
  {
    KeyShowsKind(a);
    KeyShowsKind(b);
  }

  /** One direct conversation has one author. */
  lemma SameKeySameAuthor(a: InboundMessage, b: InboundMessage)
    requires WellKeyed(a) && WellKeyed(b) && a.key == b.key && a.context.isDM
    ensures a.context.authorId == b.context.authorId
  {
    SameKeySameKind(a, b);
    assert a.context.authorId == a.key[|DM_PREFIX|..];
    assert b.context.authorId == b.key[|DM_PREFIX|..];
  }

  lemma PlaceDeterminesDestination(a: SourceContext, b: SourceContext)
    requires Place(a.channelId, a.threadId) == Place(b.channelId, b.threadId)
    ensures Destination(a) == Destination(b)
  {
    var p := Place(a.channelId, a.threadId);
    assert p[0] == if a.threadId != "" then 't' else 'c';
    assert p[0] == if b.threadId != "" then 't' else 'c';
    if a.threadId != "" {
      assert a.threadId == p[7..] && b.threadId == p[7..];
    } else {
      assert a.channelId == p[8..] && b.channelId == p[8..];
    }
  }

  /** The part of a guild conversation's key after its fixed prefix. */
  function KeyTail(c: SourceContext): string {
    c.guildId + ":" + Place(c.channelId, c.threadId)
  }

  /** What stands between the guild and the destination in a guild conversation's key. */
  function Label(c: SourceContext): string {
    if c.threadId != "" then ":thread:" else ":channel:"
  }

  lemma {:induction false} TailIsLabelled(c: SourceContext)
    ensures KeyTail(c) == c.guildId + (Label(c) + Destination(c))
  {
    var word := if c.threadId != "" then "thread:" else "channel:";
    assert Place(c.channelId, c.threadId) == word + Destination(c);
    assert Label(c) == ":" + word;
  }

  /** The character two before the destination ends "thread" or "channel". */
  lemma {:induction false} SuffixShowsLabel(g: string, mark: string, d: string)
    requires |mark| >= 2
    ensures var tail := g + (mark + d);
            |tail| >= |d| + 2 && tail[|tail| - |d| - 2] == mark[|mark| - 2]
  {
  }

  lemma {:induction false} SameSuffix(g: string, h: string, p: string)
    requires g + p == h + p
    ensures g == h
  {
    assert g == (g + p)[..|g|] && h == (h + p)[..|h|];
  }

  lemma {:induction false} SameTailSameGuild(a: SourceContext, b: SourceContext)
    requires KeyTail(a) == KeyTail(b) && Destination(a) == Destination(b)
    ensures a.guildId == b.guildId
  {
    hide KeyTail, Destination, Place;
    TailIsLabelled(a);
    TailIsLabelled(b);
    SuffixShowsLabel(a.guildId, Label(a), Destination(a));
    SuffixShowsLabel(b.guildId, Label(b), Destination(b));
    assert ":thread:"[6] == 'd' && ":channel:"[7] == 'l';
    assert Label(a) == Label(b);
    SameSuffix(a.guildId, b.guildId, Label(a) + Destination(a));
  }

  lemma SameTailSameDestination(a: SourceContext, b: SourceContext)
    requires KeyTail(a) == KeyTail(b) && a.guildId == b.guildId
    ensures Destination(a) == Destination(b)
  {
    var g := |a.guildId| + 1;
    assert KeyTail(a)[g..] == Place(a.channelId, a.threadId);
    assert KeyTail(b)[g..] == Place(b.channelId, b.threadId);
    PlaceDeterminesDestination(a, b);
  }

  lemma SameKeySameTail(a: InboundMessage, b: InboundMessage)
    requires WellKeyed(a) && WellKeyed(b) && a.key == b.key && !a.context.isDM
    ensures !b.context.isDM && KeyTail(a.context) == KeyTail(b.context)
  {
    SameKeySameKind(a, b);
    KeyEndsInTail(a);
    KeyEndsInTail(b);
  }

  lemma KeyEndsInTail(msg: InboundMessage)
    requires WellKeyed(msg) && !msg.context.isDM
    ensures |msg.key| >= |GUILD_PREFIX| && msg.key[|GUILD_PREFIX|..] == KeyTail(msg.context)
  {
    WithoutPrefix(GUILD_PREFIX, msg.context.guildId, ":", Place(msg.context.channelId, msg.context.threadId));
  }

  lemma WithoutPrefix(p: string, g: string, colon: string, place: string)
    ensures |p + g + colon + place| >= |p| && (p + g + colon + place)[|p|..] == g + colon + place
  {
  }

  /** Exactly when two guild messages of one conversation are answered in the same channel or thread. */
  lemma SameDestinationIffSameGuild(a: InboundMessage, b: InboundMessage)
    requires WellKeyed(a) && WellKeyed(b) && a.key == b.key && !a.context.isDM
    ensures Destination(a.context) == Destination(b.context) <==> a.context.guildId == b.context.guildId
  {
    SameKeySameTail(a, b);
    if a.context.guildId == b.context.guildId {
      SameTailSameDestination(a.context, b.context);
    } else if Destination(a.context) == Destination(b.context) {
      SameTailSameGuild(a.context, b.context);
    }
  }

  /** Guild ids without a colon, as Discord's numeric ids are, keep every conversation in one place. */
  lemma ColonFreeGuildsShareDestination(a: InboundMessage, b: InboundMessage)
    requires WellKeyed(a) && WellKeyed(b) && a.key == b.key && !a.context.isDM
    requires ':' !in a.context.guildId && ':' !in b.context.guildId
    ensures a.context.guildId == b.context.guildId && Destination(a.context) == Destination(b.context)
  {
    SameKeySameTail(a, b);
    var placeA := Place(a.context.channelId, a.context.threadId);
    var placeB := Place(b.context.channelId, b.context.threadId);
    assert KeyTail(a.context) == a.context.guildId + [':'] + placeA;
    assert KeyTail(b.context) == b.context.guildId + [':'] + placeB;
    FirstSeparatorIsUnique(a.context.guildId, b.context.guildId, placeA, placeB, ':');
    SameDestinationIffSameGuild(a, b);
  }

  // ---- Which guild ids can share a conversation ----

  /** A message posted in a guild's channel or, when there is a thread id, thread, that mentions the bot. */
  function Post(guildId: string, channelId: string, threadId: string): Event {
    Event("1", guildId, channelId, "hi", Some(Author("1", false)),
          if threadId == "" then None else Some(Thread(threadId, "")), [Some("1")])
  }

  const OPEN_FILTER := Filter("1", "", {})

  lemma {:induction false} PostIsAccepted(guildId: string, channelId: string, threadId: string)
    requires Trimmed(guildId) && guildId != "" && Trimmed(channelId) && Trimmed(threadId)
    ensures var e := Post(guildId, channelId, threadId);
            && NormalizeMessageCreate(Some(e), OPEN_FILTER) == Some(MessageOf(e, "1", DEFAULT_MENTION_TARGET))
            && var c := MessageOf(e, "1", DEFAULT_MENTION_TARGET).context;
               c.guildId == guildId && c.channelId == channelId && c.threadId == threadId
  {
    hide IsMentioned, MessageOf;
    PostMentions(guildId, channelId, threadId);
    PostKeepsIds(guildId, channelId, threadId);
  }

  lemma {:induction false} PostMentions(guildId: string, channelId: string, threadId: string)
    ensures IsMentioned(Post(guildId, channelId, threadId), "1", DEFAULT_MENTION_TARGET)
    ensures !Blank("hi") && Blank("")
  {
    hide ToLower, Contains;
    assert TrimSpace("1") == "1";
    assert Post(guildId, channelId, threadId).mentions[0] == Some("1");
  }

  lemma {:induction false} PostKeepsIds(guildId: string, channelId: string, threadId: string)
    requires Trimmed(guildId) && guildId != "" && Trimmed(channelId) && Trimmed(threadId)
    ensures var c := MessageOf(Post(guildId, channelId, threadId), "1", DEFAULT_MENTION_TARGET).context;
            c.guildId == guildId && c.channelId == channelId && c.threadId == threadId
  {
    hide BuildConversationKey;
  }

  /** Some message of guild g and some message of guild h, both accepted, are kept in one conversation although
      they are answered in different places. */
  ghost predicate CanBeDiverted(g: string, h: string) {
    exists a: InboundMessage, b: InboundMessage ::
      && Accepted(a) && Accepted(b) && a.context.guildId == g && b.context.guildId == h
      && a.key == b.key && Destination(a.context) != Destination(b.context)
  }

  /** A text that, followed by a colon and a place, can be read as a place itself. */
  predicate Opens(u: string) {
    || u == "thread" || u == "channel"
    || (|u| >= 7 && u[..7] == "thread:" && (|u| == 7 || !IsSpace(u[7])))
    || (|u| >= 8 && u[..8] == "channel:" && (|u| == 8 || !IsSpace(u[8])))
  }

  /** h is g, a colon, and a text that opens a place. */
  predicate Extends(h: string, g: string) {
    |h| > |g| && h[..|g|] == g && h[|g|] == ':' && Opens(h[|g| + 1..])
  }

  /** Two guild ids can share a conversation exactly when one extends the other; no pair of colon-free ids does. */
  lemma {:induction false} GuildsAreDivertedIff(g: string, h: string)
    requires Trimmed(g) && g != "" && Trimmed(h) && h != "" && g != h
    ensures CanBeDiverted(g, h) <==> Extends(h, g) || Extends(g, h)
  {
    hide Extends, Accepted, Destination;
    if CanBeDiverted(g, h) {
      var a: InboundMessage, b: InboundMessage :|
        Accepted(a) && Accepted(b) && a.context.guildId == g && b.context.guildId == h
        && a.key == b.key && Destination(a.context) != Destination(b.context);
      SharedKeyExtends(a, b);
    }
    if Extends(h, g) {
      ExtensionIsDiverted(g, h);
    }
    if Extends(g, h) {
      ExtensionIsDiverted(h, g);
      var a: InboundMessage, b: InboundMessage :|
        Accepted(a) && Accepted(b) && a.context.guildId == h && b.context.guildId == g
        && a.key == b.key && Destination(a.context) != Destination(b.context);
      assert CanBeDiverted(g, h);
    }
  }

  lemma {:induction false} SharedKeyExtends(a: InboundMessage, b: InboundMessage)
    requires Accepted(a) && Accepted(b) && a.key == b.key
    requires a.context.guildId != "" && b.context.guildId != "" && a.context.guildId != b.context.guildId
    ensures Extends(b.context.guildId, a.context.guildId) || Extends(a.context.guildId, b.context.guildId)
  {
    hide Extends, Accepted;
    AcceptedIsWellKeyed(a);
    AcceptedIsWellKeyed(b);
    SameKeySameTail(a, b);
    if |a.context.guildId| <= |b.context.guildId| {
      LongerGuildExtends(a.context, b.context);
    } else {
      LongerGuildExtends(b.context, a.context);
    }
  }

  lemma {:induction false} LongerGuildExtends(a: SourceContext, b: SourceContext)
    requires KeyTail(a) == KeyTail(b) && |a.guildId| <= |b.guildId| && a.guildId != b.guildId
    requires Trimmed(a.channelId) && Trimmed(a.threadId)
    ensures Extends(b.guildId, a.guildId)
  {
    hide Place, Opens;
    var g, h, s := a.guildId, b.guildId, KeyTail(a);
    assert s[..|g|] == g && s[..|h|] == h;
    assert h[..|g|] == s[..|h|][..|g|] == s[..|g|];
    assert |g| < |h|;
    assert s[|g|] == ':';
    var u := h[|g| + 1..];
    var here, there := Place(a.channelId, a.threadId), Place(b.channelId, b.threadId);
    assert s[|g| + 1..] == here;
    assert s == h + ":" + there;
    assert h == g + ":" + u;
    assert s[|g| + 1..] == u + ":" + there;
    PlaceOpens(u, there, a.channelId, a.threadId);
  }

  lemma {:induction false} PlaceOpens(u: string, there: string, channelId: string, threadId: string)
    requires Place(channelId, threadId) == u + ":" + there && Trimmed(channelId) && Trimmed(threadId)
    ensures Opens(u)
  {
    var place := u + ":" + there;
    assert place[|u|] == ':' && place[..|u|] == u;
    if threadId != "" {
      assert place == "thread:" + threadId && place[..7] == "thread:";
      assert |u| >= 6 by {
        assert forall i :: 0 <= i < 6 ==> "thread:"[i] != ':';
        assert forall i :: 0 <= i < 6 ==> place[i] == place[..7][i];
      }
      if |u| == 6 {
        assert u == place[..7][..6] == "thread";
      } else {
        assert u[..7] == place[..|u|][..7] == "thread:";
        assert |u| > 7 ==> u[7] == place[7] == threadId[0];
      }
    } else {
      assert place == "channel:" + channelId && place[..8] == "channel:";
      assert |u| >= 7 by {
        assert forall i :: 0 <= i < 7 ==> "channel:"[i] != ':';
        assert forall i :: 0 <= i < 7 ==> place[i] == place[..8][i];
      }
      if |u| == 7 {
        assert u == place[..8][..7] == "channel";
      } else {
        assert u[..8] == place[..|u|][..8] == "channel:";
        assert |u| > 8 ==> u[8] == place[8] == channelId[0];
      }
    }
  }

  /** A label comes off a text that opens with it and goes on with a colon and a place. */
  lemma {:induction false} LabelComesOff(u: string, word: string, place: string)
    requires place != "" && !IsSpace(place[0]) && !IsSpace(place[|place| - 1])
    requires u + ":" == word || (|u| >= |word| && u[..|word|] == word && (|u| == |word| || !IsSpace(u[|word|])))
    ensures var rest := u + ":" + place;
            |rest| > |word| && rest == word + rest[|word|..] && Trimmed(rest[|word|..])
  {
    hide IsSpace;
    var rest := u + ":" + place;
    if u + ":" == word {
      assert rest[|word|..] == place;
    } else {
      assert rest[..|word|] == u[..|word|];
      assert rest[|word|] == if |u| == |word| then ':' else u[|word|];
      assert !IsSpace(':') by {
        ColonIsNoSpace();
      }
    }
  }

  lemma {:induction false} ColonIsNoSpace()
    ensures !IsSpace(':') && !IsSpace('1') && !IsSpace('c')
  {
  }

  /** What is left of a text that opens a place, once its first label is taken off and a channel follows. */
  lemma {:induction false} OpenedPlace(u: string) returns (channelId: string, threadId: string)
    requires Opens(u)
    ensures Trimmed(channelId) && Trimmed(threadId) && Place(channelId, threadId) == u + ":" + Place("1", "")
  {
    hide IsSpace;
    ColonIsNoSpace();
    var rest := u + ":" + "channel:1";
    if u == "thread" || (|u| >= 7 && u[..7] == "thread:") {
      LabelComesOff(u, "thread:", "channel:1");
      channelId, threadId := "1", rest[7..];
    } else {
      LabelComesOff(u, "channel:", "channel:1");
      channelId, threadId := rest[8..], "";
    }
  }

  lemma {:induction false} ExtensionIsDiverted(g: string, h: string)
    requires Trimmed(g) && g != "" && Trimmed(h) && h != "" && Extends(h, g)
    ensures CanBeDiverted(g, h)
  {
    hide Opens, Place, Accepted, MessageOf, NormalizeMessageCreate, Destination, Extends, TrimSpace;
    var u := RestOfExtension(h, g);
    var channelId, threadId := OpenedPlace(u);
    PostIsAccepted(g, channelId, threadId);
    PostIsAccepted(h, "1", "");
    var a := MessageOf(Post(g, channelId, threadId), "1", DEFAULT_MENTION_TARGET);
    var b := MessageOf(Post(h, "1", ""), "1", DEFAULT_MENTION_TARGET);
    NormalizedIsAccepted(Post(g, channelId, threadId), a);
    NormalizedIsAccepted(Post(h, "1", ""), b);
    AcceptedIsWellKeyed(a);
    AcceptedIsWellKeyed(b);
    CutElsewhere(GUILD_PREFIX, g, ":", u, Place("1", ""));
    SameDestinationIffSameGuild(a, b);
    assert Destination(a.context) != Destination(b.context);
  }

  lemma {:induction false} NormalizedIsAccepted(e: Event, msg: InboundMessage)
    requires NormalizeMessageCreate(Some(e), OPEN_FILTER) == Some(msg)
    ensures Accepted(msg)
  {
    hide NormalizeMessageCreate;
  }

  lemma {:induction false} RestOfExtension(h: string, g: string) returns (u: string)
    requires Extends(h, g) && Trimmed(h)
    ensures h == g + ":" + u && Opens(u) && u != "" && !IsSpace(u[|u| - 1])
  {
    hide IsSpace;
    u := h[|g| + 1..];
  }

  lemma {:induction false} CutElsewhere(p: string, g: string, x: string, u: string, place: string)
    ensures p + g + x + (u + x + place) == p + (g + x + u) + x + place
  {
  }

  // ---- Stored conversations ----

  /** The row keeps what normalisation made of some event, under a conversation with that event's key. */
  ghost predicate StoredFrom(m: StoredMessage, key: string) {
    exists msg: InboundMessage ::
      Accepted(msg) && msg.key == key && msg.context == m.context && msg.identity == m.identity
      && ':' !in msg.context.guildId
  }

  /** Any two messages of one conversation that could be picked as the one to answer lead to one place:
      for a guild the same channel or thread, for a direct conversation the same author. */
  lemma {:induction false} ReplyCannotBeDiverted(a: StoredMessage, b: StoredMessage, key: string)
    requires StoredFrom(a, key) && StoredFrom(b, key)
    requires TargetOf(a).Ok? && TargetOf(b).Ok?
    ensures var s, t := TargetOf(a).value, TargetOf(b).value;
            && s.isDM == t.isDM
            && (s.isDM ==> s.authorId == t.authorId)
            && (!s.isDM ==>
                  && s.guildId == t.guildId
                  && BuildSendPlan(s).0 == BuildSendPlan(t).0 == Destination(a.context))
            && (!s.isDM && BuildSendPlan(s).1.Some? ==> BuildSendPlan(s).1.value.channelId == Destination(a.context))
  {
    var x: InboundMessage :| Accepted(x) && x.key == key && x.context == a.context && x.identity == a.identity
                             && ':' !in x.context.guildId;
    var y: InboundMessage :| Accepted(y) && y.key == key && y.context == b.context && y.identity == b.identity
                             && ':' !in y.context.guildId;
    AcceptedIsWellKeyed(x);
    AcceptedIsWellKeyed(y);
    SameKeySameKind(x, y);
    PlanFollowsContext(a, x);
    PlanFollowsContext(b, y);
    if x.context.isDM {
      SameKeySameAuthor(x, y);
    } else {
      ColonFreeGuildsShareDestination(x, y);
    }
  }

  lemma {:induction false} PlanFollowsContext(m: StoredMessage, msg: InboundMessage)
    requires WellKeyed(msg) && msg.context == m.context && msg.identity == m.identity
    requires TargetOf(m).Ok?
    ensures var t := TargetOf(m).value;
            && t.isDM == m.context.isDM && t.guildId == m.context.guildId
            && t.authorId == m.context.authorId
            && BuildSendPlan(t).0 == Destination(m.context)
            && (BuildSendPlan(t).1.Some? ==> BuildSendPlan(t).1.value.channelId == Destination(m.context))
            && (m.context.messageId != "" ==>
                  BuildSendPlan(t).1 == Some(Reference(m.context.messageId, Destination(m.context), m.context.guildId)))
  {
  }

  lemma {:induction false} TargetShowsContext(m: StoredMessage, key: string)
    requires StoredFrom(m, key) && TargetOf(m).Ok?
    ensures TargetOf(m).value.isDM == m.context.isDM && TargetOf(m).value.authorId == m.context.authorId
  {
    hide Accepted;
    var msg: InboundMessage :| Accepted(msg) && msg.key == key && msg.context == m.context && msg.identity == m.identity
                               && ':' !in msg.context.guildId;
    AcceptedIsWellKeyed(msg);
    PlanFollowsContext(m, msg);
  }

  /** The plan made for any candidate of a guild conversation goes where a given candidate was written. */
  lemma {:induction false} GuildPlanIsStable(a: StoredMessage, b: StoredMessage, key: string, target: ReplyTarget)
    requires StoredFrom(a, key) && StoredFrom(b, key) && !a.context.isDM
    requires TargetOf(a).Ok? && TargetOf(b) == Ok(target)
    ensures BuildSendPlan(target).0 == Destination(a.context)
  {
    ReplyCannotBeDiverted(a, b, key);
    var x: InboundMessage :| Accepted(x) && x.key == key && x.context == a.context && x.identity == a.identity
                             && ':' !in x.context.guildId;
    AcceptedIsWellKeyed(x);
    PlanFollowsContext(a, x);
  }
}
