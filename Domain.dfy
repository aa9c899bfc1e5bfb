/** The backend's persistent entities, the DTOs its services return, the
    events they publish, and the in-memory store that stands for the JPA
    repositories and the STOMP messaging template.

    Every table is a map from id to row; memberships are the list of
    (channel id, user id) rows of `channel_memberships`, so that the unique
    constraint on the pair is an invariant the services must keep rather
    than a property of the type. Timestamps are abstract clock readings and
    fresh ids are chosen by the caller: `UUID.randomUUID`, `@GeneratedValue`
    and `Instant.now` are outside the model. */
module Domain {
  import opened Common

  /** An `Instant` / `LocalDateTime` reading. */
  type Time = int

  /** `User.Role` / `UserRole`. */
  datatype Role = Admin | Regular

  function RoleName(role: Role): string
  {
    match role
    case Admin => "ADMIN"
    case Regular => "USER"
  }

  /** The Spring Security authority granted for a role. */
  function Authority(role: Role): (r: string)
    ensures StartsWith(r, "ROLE_") && r[5..] == RoleName(role)
  {
    "ROLE_" + RoleName(role)
  }

  /** `Channel.Type`. */
  datatype ChannelType = Public | Private | DirectMessage

  datatype User = User(userId: string, username: string, email: string, role: Role, createdAt: Time)

  datatype Channel = Channel(id: string, name: string, description: Option<string>, kind: ChannelType,
                             createdBy: string, createdAt: Time)

  datatype Message = Message(id: string, content: string, channelId: string, createdBy: string,
                             parent: Option<string>, createdAt: Time, editedAt: Option<Time>, isEdited: bool)

  datatype Reaction = Reaction(id: string, emoji: string, userId: string, messageId: string, createdAt: Time)

  /** A row of `files`. */
  datatype StoredFile = StoredFile(id: string, fileUrl: string, filename: string, uploadedBy: string, channelId: string,
                                  uploadedAt: Time)

  /** The exception a service throws, by class, with its message. */
  datatype ErrorKind =
    | IllegalArgument
    | IllegalState
    | EntityNotFound
    | AccessDenied
    | Validation
    | Runtime
    | StringIndexOutOfBounds
    | DataIntegrityViolation
    | IncorrectResultSize
    | NullPointer

  datatype Error = Error(kind: ErrorKind, message: string)

  /** `ReactionDto`. */
  datatype ReactionDto = ReactionDto(id: string, emoji: string, userId: string, username: string,
                                     createdAt: Time, messageId: Option<string>)

  /** `ReactionDTO`, the builder-made reaction view without a timestamp. */
  datatype ReactionSummary = ReactionSummary(id: string, emoji: string, userId: string, username: string, messageId: string)

  /** `MessageDto`, as `MessageService.toDto` fills it. */
  datatype MessageDto = MessageDto(id: string, content: string, channelId: string, createdById: string,
                                   createdByUsername: string, createdAt: Time, parentMessageId: Option<string>,
                                   replyCount: nat, reactions: set<ReactionDto>)

  /** `ChannelDTO`. */
  datatype ChannelDto = ChannelDto(id: string, name: string, description: Option<string>, kind: ChannelType,
                                   createdBy: string, createdAt: Time, memberIds: set<string>)

  /** `WebSocketEventDto.EventType`, the members the services use. */
  datatype EventType = MessageNew | MessageEdit | MessageDelete | ReactionAdd | ReactionRemove | Notification

  /** The `payload` map of a `WebSocketEventDto`: absent, or its single entry. */
  datatype Payload =
    | NoPayload
    | MessagePayload(message: MessageDto)   // key "message"
    | ReactionPayload(reaction: ReactionDto) // key "reaction"
    | EmojiPayload(emoji: string)            // key "emoji"

  /** What was sent: a `WebSocketEventDto` (its timestamp left out), a
      channel event of `WebSocketEventHandler`, or a bare channel DTO. */
  datatype Event =
    | WsEvent(eventType: EventType, channelId: string, messageId: string, entityId: Option<string>,
              userId: string, payload: Payload)
    | ChannelEvent(kind: string, channel: ChannelDto)
    | ChannelSnapshot(channel: ChannelDto)

  /** One `messagingTemplate.convertAndSend(destination, event)`. */
  datatype Envelope = Envelope(destination: string, event: Event)

  const NotificationsTopic := "/topic/notifications"
  const ChannelEventsTopic := "/topic/channels/events"
  const ChannelsTopic := "/topic/channels"

  /** The contents of every repository, and everything published so far. */
  datatype Db = Db(users: map<string, User>, channels: map<string, Channel>,
                   memberships: seq<(string, string)>, messages: map<string, Message>,
                   reactions: map<string, Reaction>, files: map<string, StoredFile>,
                   published: seq<Envelope>)

  const EmptyDb := Db(map[], map[], [], map[], map[], map[], [])

  /** What a transactional service call leaves behind: its result, and the
      store after commit (or, on an exception, after rollback). */
  datatype Outcome<T> = Outcome(result: Result<T, Error>, db: Db)

  /** The exception `Error(kind, message)`, thrown before anything was written. */
  function Fail<T>(db: Db, kind: ErrorKind, message: string): (o: Outcome<T>)
    ensures o.result.Err? && o.result.error == Error(kind, message) && o.db == db
  {
    Outcome(Err(Error(kind, message)), db)
  }

  /** `existsByChannelIdAndUserUserId`. */
  predicate IsMember(db: Db, channelId: string, userId: string)
  {
    (channelId, userId) in db.memberships
  }

  /** No (channel, user) pair is stored twice. */
  predicate MembershipsUnique(memberships: seq<(string, string)>)
  {
    forall i, j :: 0 <= i < j < |memberships| ==> memberships[i] != memberships[j]
  }

  /** Rows are stored under their own ids, and the unique constraints on
      (channel, user) memberships and on (message, user, emoji) reactions
      hold. Foreign keys are not part of it: see `ChannelDeleted`. */
  predicate Valid(db: Db)
  {
    (forall k :: k in db.users ==> db.users[k].userId == k)
    && (forall k :: k in db.channels ==> db.channels[k].id == k)
    && (forall k :: k in db.messages ==> db.messages[k].id == k)
    && (forall k :: k in db.reactions ==> db.reactions[k].id == k)
    && (forall k :: k in db.files ==> db.files[k].id == k)
    && MembershipsUnique(db.memberships)
    && ReactionsUnique(db.reactions)
  }

  /** The unique constraint `uk_reactions_message_user_emoji`. */
  predicate ReactionsUnique(reactions: map<string, Reaction>)
  {
    forall a, b :: a in reactions && b in reactions && a != b ==>
      (reactions[a].messageId, reactions[a].userId, reactions[a].emoji)
      != (reactions[b].messageId, reactions[b].userId, reactions[b].emoji)
  }

  /** The reactions left once a message is gone: `orphanRemoval` on `Message.reactions`. */
  function ReactionsNotOn(reactions: map<string, Reaction>, messageId: string): (r: map<string, Reaction>)
    ensures forall k :: k in r <==> k in reactions && reactions[k].messageId != messageId
    ensures forall k :: k in r ==> r[k] == reactions[k]
  {
    map k | k in reactions && reactions[k].messageId != messageId :: reactions[k]
  }

  /** The reaction ids of a (message, user, emoji) triple. */
  function ReactionsOf(reactions: map<string, Reaction>, messageId: string, userId: string, emoji: string): set<string>
  {
    set k | k in reactions && reactions[k].messageId == messageId && reactions[k].userId == userId
      && reactions[k].emoji == emoji
  }

  /** The reactions other than those of a (message, user, emoji) triple:
      `deleteByUserUserIdAndMessageIdAndEmoji`. */
  function WithoutTriple(reactions: map<string, Reaction>, messageId: string, userId: string, emoji: string)
    : (r: map<string, Reaction>)
    ensures forall k :: k in r <==> k in reactions && k !in ReactionsOf(reactions, messageId, userId, emoji)
    ensures forall k :: k in r ==> r[k] == reactions[k]
  {
    map k | k in reactions && !(reactions[k].messageId == messageId && reactions[k].userId == userId
                                && reactions[k].emoji == emoji) :: reactions[k]
  }

  /** The builder-made `ReactionDTO` of a stored reaction. */
  function Summary(db: Db, reaction: Reaction): (r: ReactionSummary)
    ensures r.id == reaction.id && r.emoji == reaction.emoji && r.userId == reaction.userId
    ensures r.messageId == reaction.messageId && r.username == UsernameOf(db, reaction.userId)
  {
    ReactionSummary(reaction.id, reaction.emoji, reaction.userId, UsernameOf(db, reaction.userId), reaction.messageId)
  }

  /** `ReactionService.toDto`. */
  function ToReactionDto(db: Db, reaction: Reaction): (r: ReactionDto)
    ensures r.id == reaction.id && r.emoji == reaction.emoji && r.userId == reaction.userId
    ensures r.createdAt == reaction.createdAt
    ensures r.messageId.Some? <==> reaction.messageId in db.messages
    ensures r.messageId.Some? ==> r.messageId.value == reaction.messageId
  {
    ReactionDto(reaction.id, reaction.emoji, reaction.userId, UsernameOf(db, reaction.userId), reaction.createdAt,
                if reaction.messageId in db.messages then Some(reaction.messageId) else None)
  }

  /** The username behind a user id (empty for an id the store does not hold). */
  function UsernameOf(db: Db, userId: string): string
  {
    if userId in db.users then db.users[userId].username else ""
  }

  /** The ids of the replies to `messageId`. */
  function RepliesOf(messages: map<string, Message>, messageId: string): set<string>
  {
    set k | k in messages && messages[k].parent == Some(messageId)
  }

  /** `MessageService.toDto`. */
  function ToMessageDto(db: Db, message: Message): (r: MessageDto)
    ensures r.id == message.id && r.content == message.content && r.channelId == message.channelId
    ensures r.createdById == message.createdBy && r.createdAt == message.createdAt
    ensures r.parentMessageId == message.parent
    ensures r.replyCount == |RepliesOf(db.messages, message.id)|
    ensures forall d :: d in r.reactions <==>
      exists k :: k in db.reactions && db.reactions[k].messageId == message.id && d == ToReactionDto(db, db.reactions[k])
  {
    MessageDto(message.id, message.content, message.channelId, message.createdBy, UsernameOf(db, message.createdBy),
               message.createdAt, message.parent, |RepliesOf(db.messages, message.id)|,
               set k | k in db.reactions && db.reactions[k].messageId == message.id :: ToReactionDto(db, db.reactions[k]))
  }

  /** The member ids of a channel. */
  function MemberIds(memberships: seq<(string, string)>, channelId: string): (r: set<string>)
    ensures forall u :: u in r <==> (channelId, u) in memberships
  {
    set m | m in memberships && m.0 == channelId :: m.1
  }

  /** `ChannelServiceImpl.toDTO`. */
  function ToChannelDto(db: Db, channel: Channel): (r: ChannelDto)
    ensures r.id == channel.id && r.name == channel.name && r.description == channel.description
    ensures r.kind == channel.kind && r.createdBy == channel.createdBy && r.createdAt == channel.createdAt
    ensures forall u :: u in r.memberIds <==> IsMember(db, channel.id, u)
  {
    ChannelDto(channel.id, channel.name, channel.description, channel.kind, channel.createdBy, channel.createdAt,
               MemberIds(db.memberships, channel.id))
  }

  /** A membership pair is added unless it is already stored:
      `addMemberInternal`'s check-then-save. */
  function WithMember(memberships: seq<(string, string)>, channelId: string, userId: string)
    : (r: seq<(string, string)>)
    ensures forall m :: m in r <==> m in memberships || m == (channelId, userId)
    ensures (channelId, userId) in memberships ==> r == memberships
    ensures MembershipsUnique(memberships) ==> MembershipsUnique(r)
  {
    if (channelId, userId) in memberships then memberships else memberships + [(channelId, userId)]
  }

  /** The memberships other than the pair: `deleteByChannelIdAndUserUserId`. */
  function WithoutMember(memberships: seq<(string, string)>, channelId: string, userId: string)
    : (r: seq<(string, string)>)
    ensures forall m :: m in r <==> m in memberships && m != (channelId, userId)
    ensures MembershipsUnique(memberships) ==> MembershipsUnique(r)
  {
    KeepsUnique(memberships, (m: (string, string)) => m != (channelId, userId));
    Filter(memberships, (m: (string, string)) => m != (channelId, userId))
  }

  /** Dropping rows from a list of distinct pairs leaves distinct pairs. */
  lemma {:induction false} KeepsUnique(memberships: seq<(string, string)>, keep: ((string, string)) -> bool)
    ensures MembershipsUnique(memberships) ==> MembershipsUnique(Filter(memberships, keep))
    decreases |memberships|
  {
    if memberships != [] && MembershipsUnique(memberships) {
      var rest := memberships[1..];
      assert MembershipsUnique(rest) by {
        forall i, j | 0 <= i < j < |rest|
          ensures rest[i] != rest[j]
        {
          assert rest[i] == memberships[i + 1] && rest[j] == memberships[j + 1];
        }
      }
      KeepsUnique(rest, keep);
      var tail := Filter(rest, keep);
      forall x | x in tail
        ensures x != memberships[0]
      {
        var k :| 0 <= k < |rest| && rest[k] == x;
        assert memberships[k + 1] == x;
      }
    }
  }

  /** The store once a channel is deleted: `Channel.memberships` and
      `Channel.messages` cascade, and each deleted message takes its
      reactions along. Rows of other tables that name the channel (files)
      are left as they are. */
  function ChannelDeleted(db: Db, channelId: string): (r: Db)
    ensures r.users == db.users && r.files == db.files && r.published == db.published
    ensures forall k :: k in r.channels <==> k in db.channels && k != channelId
    ensures forall m :: m in r.memberships <==> m in db.memberships && m.0 != channelId
    ensures forall k :: k in r.messages <==> k in db.messages && db.messages[k].channelId != channelId
    ensures forall k :: k in r.reactions <==>
      (k in db.reactions
       && !(db.reactions[k].messageId in db.messages && db.messages[db.reactions[k].messageId].channelId == channelId))
    ensures forall k :: k in r.channels ==> r.channels[k] == db.channels[k]
    ensures forall k :: k in r.messages ==> r.messages[k] == db.messages[k]
    ensures forall k :: k in r.reactions ==> r.reactions[k] == db.reactions[k]
    ensures MembershipsUnique(db.memberships) ==> MembershipsUnique(r.memberships)
  {
    KeepsUnique(db.memberships, (m: (string, string)) => m.0 != channelId);
    db.(channels := db.channels - {channelId},
        memberships := Filter(db.memberships, (m: (string, string)) => m.0 != channelId),
        messages := map k | k in db.messages && db.messages[k].channelId != channelId :: db.messages[k],
        reactions := ReactionsKept(db.reactions, db.messages, channelId))
  }

  /** The reactions whose message is not one of the channel's. */
  function ReactionsKept(reactions: map<string, Reaction>, messages: map<string, Message>, channelId: string)
    : (r: map<string, Reaction>)
    ensures forall k :: k in r <==>
      (k in reactions && !(reactions[k].messageId in messages && messages[reactions[k].messageId].channelId == channelId))
    ensures forall k :: k in r ==> r[k] == reactions[k]
  {
    map k | k in reactions && !(reactions[k].messageId in messages && messages[reactions[k].messageId].channelId == channelId)
      :: reactions[k]
  }

  /** The repositories and the messaging template, as one mutable store. */
  class Store {
    var users: map<string, User>
    var channels: map<string, Channel>
    var memberships: seq<(string, string)>
    var messages: map<string, Message>
    var reactions: map<string, Reaction>
    var files: map<string, StoredFile>
    var published: seq<Envelope>

    function State(): Db
      reads this
    {
      Db(users, channels, memberships, messages, reactions, files, published)
    }

    constructor ()
      ensures State() == EmptyDb
    {
      users := map[];
      channels := map[];
      memberships := [];
      messages := map[];
      reactions := map[];
      files := map[];
      published := [];
    }

    /** Transaction rollback: the store goes back to a snapshot. */
    method Restore(db: Db)
      modifies this
      ensures State() == db
    {
      users, channels, memberships, messages := db.users, db.channels, db.memberships, db.messages;
      reactions, files, published := db.reactions, db.files, db.published;
    }

    method Publish(envelope: Envelope)
      modifies this
      ensures State() == old(State()).(published := old(State()).published + [envelope])
    {
      published := published + [envelope];
    }

    method SaveUser(user: User)
      modifies this
      ensures State() == old(State()).(users := old(State()).users[user.userId := user])
    {
      users := users[user.userId := user];
    }

    method DeleteUser(userId: string)
      modifies this
      ensures State() == old(State()).(users := old(State()).users - {userId})
    {
      users := users - {userId};
    }

    method SaveChannel(channel: Channel)
      modifies this
      ensures State() == old(State()).(channels := old(State()).channels[channel.id := channel])
    {
      channels := channels[channel.id := channel];
    }

    method SaveMessage(message: Message)
      modifies this
      ensures State() == old(State()).(messages := old(State()).messages[message.id := message])
    {
      messages := messages[message.id := message];
    }

    /** `messageRepository.delete(message)`, with the cascade to its reactions. */
    method DeleteMessage(id: string)
      modifies this
      ensures State() == old(State()).(messages := old(State()).messages - {id},
                                       reactions := ReactionsNotOn(old(State()).reactions, id))
    {
      messages := messages - {id};
      reactions := ReactionsNotOn(reactions, id);
    }

    method SaveReaction(reaction: Reaction)
      modifies this
      ensures State() == old(State()).(reactions := old(State()).reactions[reaction.id := reaction])
    {
      reactions := reactions[reaction.id := reaction];
    }

    method DeleteReaction(id: string)
      modifies this
      ensures State() == old(State()).(reactions := old(State()).reactions - {id})
    {
      reactions := reactions - {id};
    }

    method DeleteReactionsOf(messageId: string, userId: string, emoji: string)
      modifies this
      ensures State() == old(State()).(reactions := WithoutTriple(old(State()).reactions, messageId, userId, emoji))
    {
      reactions := WithoutTriple(reactions, messageId, userId, emoji);
    }

    method SaveFile(file: StoredFile)
      modifies this
      ensures State() == old(State()).(files := old(State()).files[file.id := file])
    {
      files := files[file.id := file];
    }

    method DeleteFile(id: string)
      modifies this
      ensures State() == old(State()).(files := old(State()).files - {id})
    {
      files := files - {id};
    }

    /** `channelRepository.delete(channel)`, with its cascades. */
    method DeleteChannel(id: string)
      modifies this
      ensures State() == ChannelDeleted(old(State()), id)
    {
      var after := ChannelDeleted(State(), id);
      channels, memberships, messages, reactions := after.channels, after.memberships, after.messages, after.reactions;
    }

    method DeleteMembership(channelId: string, userId: string)
      modifies this
      ensures State() == old(State()).(memberships := WithoutMember(old(State()).memberships, channelId, userId))
    {
      memberships := WithoutMember(memberships, channelId, userId);
    }

    method AppendMembership(channelId: string, userId: string)
      modifies this
      ensures State() == old(State()).(memberships := old(State()).memberships + [(channelId, userId)])
    {
      memberships := memberships + [(channelId, userId)];
    }
  }
}
