/** `ChannelServiceImpl`: creating, updating and deleting channels, joining
    and leaving them, direct-message channels, and the channel DTO.

    The generated channel id and the creation time are parameters. The
    `memberIds` set of a creation request is given as a sequence in the
    order its stream visits it; `findDirectMessageChannelBetweenUsers`
    (a query the repository does not declare) is given as its answer. */
module ChannelServiceImpl {
  import opened Common
  import opened Domain

  /** The fields of the incoming `ChannelDTO` that `createChannel` reads;
      `memberIds` is `None` for a null set. */
  datatype ChannelRequest = ChannelRequest(name: string, description: Option<string>, kind: ChannelType,
                                           memberIds: Option<seq<string>>)

  /** `addMemberInternal`: save the membership unless the pair exists. */
  method AddMemberInternal(store: Store, channelId: string, userId: string)
    modifies store
    ensures store.State() == old(store.State()).(memberships := WithMember(old(store.memberships), channelId, userId))
  {
    if (channelId, userId) !in store.memberships {
      store.AppendMembership(channelId, userId);
    }
  }

  /** `addMemberInternal` is idempotent. */
  lemma AddMemberInternalIdempotent(ms: seq<(string, string)>, channelId: string, userId: string)
    ensures WithMember(WithMember(ms, channelId, userId), channelId, userId) == WithMember(ms, channelId, userId)
    ensures (channelId, userId) in WithMember(ms, channelId, userId)
  {
  }

  /** The listed members other than the creator, in stream order. */
  function Invitees(request: ChannelRequest, userId: string): (r: seq<string>)
    ensures forall u :: u in r <==> request.memberIds.Some? && u in request.memberIds.value && u != userId
  {
    if request.memberIds.None? then [] else Filter(request.memberIds.value, (u: string) => u != userId)
  }

  /** The `forEach` over the invitees: each is looked up and added, and the
      first unknown id throws. */
  function AddMembers(db: Db, channelId: string, candidates: seq<string>): (o: Outcome<()>)
    ensures o.db == db.(memberships := o.db.memberships)
    ensures o.result.Ok? <==> forall i :: 0 <= i < |candidates| ==> candidates[i] in db.users
    ensures o.result.Err? ==>
      exists i :: 0 <= i < |candidates| && candidates[i] !in db.users
        && (forall j :: 0 <= j < i ==> candidates[j] in db.users)
        && o.result.error == Error(EntityNotFound, "User not found: " + candidates[i])
    ensures o.result.Ok? ==> forall m :: m in o.db.memberships <==>
      m in db.memberships || (m.0 == channelId && m.1 in candidates)
    ensures MembershipsUnique(db.memberships) ==> MembershipsUnique(o.db.memberships)
    decreases |candidates|
  {
    if candidates == [] then Outcome(Ok(()), db)
    else if candidates[0] !in db.users then Fail(db, EntityNotFound, "User not found: " + candidates[0])
    else
      var next := db.(memberships := WithMember(db.memberships, channelId, candidates[0]));
      var o := AddMembers(next, channelId, candidates[1..]);
      FirstUnknownShift(db.users, candidates, o.result);
      AllKnownShift(db.users, candidates);
      assert forall u :: u in candidates <==> u == candidates[0] || u in candidates[1..] by {
        assert candidates == [candidates[0]] + candidates[1..];
      }
      o
  }

  /** `error` is the one thrown for the first unknown invitee. */
  predicate FirstUnknownIs(users: map<string, User>, candidates: seq<string>, error: Error)
  {
    exists i :: 0 <= i < |candidates| && candidates[i] !in users
      && (forall j :: 0 <= j < i ==> candidates[j] in users)
      && error == Error(EntityNotFound, "User not found: " + candidates[i])
  }

  /** The first unknown invitee after a known one is the first unknown of the whole list. */
  lemma FirstUnknownShift(users: map<string, User>, candidates: seq<string>, result: Result<(), Error>)
    requires |candidates| >= 1 && candidates[0] in users
    ensures result.Err? && FirstUnknownIs(users, candidates[1..], result.error) ==>
      FirstUnknownIs(users, candidates, result.error)
  {
    if result.Err? && FirstUnknownIs(users, candidates[1..], result.error) {
      var rest := candidates[1..];
      var i :| 0 <= i < |rest| && rest[i] !in users
        && (forall j :: 0 <= j < i ==> rest[j] in users)
        && result.error == Error(EntityNotFound, "User not found: " + rest[i]);
      assert candidates[i + 1] == rest[i];
      forall j | 0 <= j < i + 1
        ensures candidates[j] in users
      {
        if j > 0 {
          assert candidates[j] == rest[j - 1];
        }
      }
    }
  }

  lemma AllKnownShift(users: map<string, User>, candidates: seq<string>)
    requires |candidates| >= 1
    ensures (forall i :: 0 <= i < |candidates| ==> candidates[i] in users)
      <==> candidates[0] in users && (forall i :: 0 <= i < |candidates[1..]| ==> candidates[1..][i] in users)
  {
    forall i | 1 <= i < |candidates|
      ensures candidates[i] == candidates[1..][i - 1]
    {
    }
  }

  /** The stored channel of a successful creation. */
  function NewChannel(request: ChannelRequest, userId: string, id: string, now: Time): Channel
  {
    Channel(id, request.name, request.description, request.kind, userId, now)
  }

  /** `broadcastChannelCreated` / `broadcastChannelDeleted`: the event on
      the events topic, then the bare DTO on the channels topic. */
  function Broadcast(kind: string, dto: ChannelDto): (r: seq<Envelope>)
    ensures |r| == 2
    ensures r[0] == Envelope(ChannelEventsTopic, ChannelEvent(kind, dto))
    ensures r[1] == Envelope(ChannelsTopic, ChannelSnapshot(dto))
  {
    [Envelope(ChannelEventsTopic, ChannelEvent(kind, dto)), Envelope(ChannelsTopic, ChannelSnapshot(dto))]
  }

  /** `toDTO` on the channel entity that the creating unit of work still
      holds: its `memberships` collection starts empty and
      `addMemberInternal` saves memberships through the repository without
      adding them to it, so the DTO lists no member whatever the store
      holds. */
  function FreshChannelDto(channel: Channel): (r: ChannelDto)
    ensures r.id == channel.id && r.memberIds == {}
  {
    ChannelDto(channel.id, channel.name, channel.description, channel.kind, channel.createdBy, channel.createdAt, {})
  }

  /** The fresh DTO is the stored channel's DTO with the member set emptied,
      whatever the store holds. */
  lemma FreshDtoOmitsMembers(db: Db, channel: Channel)
    ensures FreshChannelDto(channel) == ToChannelDto(db, channel).(memberIds := {})
  {
  }

  /** `createChannel`: the channel, the creator's membership, the invitees'
      memberships, all or nothing, and then one broadcast of the read-back
      DTO. As written the read-back finds the entity the unit of work holds,
      so the returned and broadcast DTO lists no member (see
      `CreateChannelListingMembers`). */
  function CreateChannelSpec(db: Db, request: ChannelRequest, userId: string, id: string, now: Time)
    : (o: Outcome<ChannelDto>)
    ensures o.result.Err? ==> o.db == db
    ensures userId !in db.users ==> o.result == Err(Error(EntityNotFound, "User not found: " + userId))
    ensures o.result.Ok? <==> userId in db.users && forall u :: u in Invitees(request, userId) ==> u in db.users
    ensures o.result.Ok? ==>
      var dto := o.result.value;
      dto == FreshChannelDto(NewChannel(request, userId, id, now)) && dto.memberIds == {}
      && (forall u :: IsMember(o.db, id, u) <==> IsMember(db, id, u) || u == userId || u in Invitees(request, userId))
      && (forall c, u :: c != id ==> (IsMember(o.db, c, u) <==> IsMember(db, c, u)))
      && o.db.channels == db.channels[id := NewChannel(request, userId, id, now)]
      && o.db.users == db.users && o.db.messages == db.messages && o.db.reactions == db.reactions
      && o.db.files == db.files
      && o.db.published == db.published + Broadcast("CREATED", dto)
  {
    if userId !in db.users then Fail(db, EntityNotFound, "User not found: " + userId)
    else
      var channel := NewChannel(request, userId, id, now);
      var saved := db.(channels := db.channels[id := channel]);
      var withCreator := saved.(memberships := WithMember(saved.memberships, id, userId));
      var added := AddMembers(withCreator, id, Invitees(request, userId));
      if added.result.Err? then Outcome(Err(added.result.error), db)
      else
        var dto := FreshChannelDto(channel);
        Outcome(Ok(dto), added.db.(published := added.db.published + Broadcast("CREATED", dto)))
  }

  method CreateChannel(store: Store, request: ChannelRequest, userId: string, id: string, now: Time)
    returns (r: Result<ChannelDto, Error>)
    modifies store
    ensures r == CreateChannelSpec(old(store.State()), request, userId, id, now).result
    ensures store.State() == CreateChannelSpec(old(store.State()), request, userId, id, now).db
  {
    var snapshot := store.State();
    if userId !in store.users {
      return Err(Error(EntityNotFound, "User not found: " + userId));
    }
    var channel := NewChannel(request, userId, id, now);
    store.SaveChannel(channel);
    AddMemberInternal(store, id, userId);
    ghost var withCreator := store.State();
    var candidates := Invitees(request, userId);
    var i := 0;
    while i < |candidates|
      invariant 0 <= i <= |candidates|
      invariant AddMembers(store.State(), id, candidates[i..]) == AddMembers(withCreator, id, candidates)
      invariant store.State() == withCreator.(memberships := store.memberships)
    {
      var memberId := candidates[i];
      assert candidates[i..][1..] == candidates[i + 1..];
      if memberId !in store.users {
        store.Restore(snapshot);
        return Err(Error(EntityNotFound, "User not found: " + memberId));
      }
      AddMemberInternal(store, id, memberId);
      i := i + 1;
    }
    var dto := FreshChannelDto(channel);
    var events := Broadcast("CREATED", dto);
    store.Publish(events[0]);
    store.Publish(events[1]);
    assert store.published == old(store.published) + events;
    r := Ok(dto);
  }

  /** As written, a created channel's DTO, returned and broadcast, lists no
      member although the store holds the creator's membership. */
  lemma CreatedChannelListsNoMembers(db: Db, request: ChannelRequest, userId: string, id: string, now: Time)
    requires CreateChannelSpec(db, request, userId, id, now).result.Ok?
    ensures var o := CreateChannelSpec(db, request, userId, id, now);
      o.result.value.memberIds == {} && IsMember(o.db, id, userId)
      && o.db.published[|o.db.published| - 1] == Envelope(ChannelsTopic, ChannelSnapshot(o.result.value))
  {
  }

  /** `createChannel` as intended: the same rows, with the DTO read from the
      store, so it lists the memberships just saved. */
  function CreateChannelListingMembers(db: Db, request: ChannelRequest, userId: string, id: string, now: Time)
    : (o: Outcome<ChannelDto>)
    ensures o.result.Ok? <==> CreateChannelSpec(db, request, userId, id, now).result.Ok?
    ensures o.result.Err? ==> o == CreateChannelSpec(db, request, userId, id, now)
    ensures o.result.Ok? ==>
      var written := CreateChannelSpec(db, request, userId, id, now).db;
      o.result.value == ToChannelDto(written, NewChannel(request, userId, id, now))
      && o.db == written.(published := db.published + Broadcast("CREATED", o.result.value))
  {
    var o := CreateChannelSpec(db, request, userId, id, now);
    if o.result.Err? then o
    else
      var dto := ToChannelDto(o.db, NewChannel(request, userId, id, now));
      Outcome(Ok(dto), o.db.(published := db.published + Broadcast("CREATED", dto)))
  }

  /** A new channel id starts with no memberships, so the corrected created
      channel's members are exactly the creator and the listed users. */
  lemma CreatedChannelMembers(db: Db, request: ChannelRequest, userId: string, id: string, now: Time)
    requires forall m :: m in db.memberships ==> m.0 != id
    requires CreateChannelListingMembers(db, request, userId, id, now).result.Ok?
    ensures forall u :: u in CreateChannelListingMembers(db, request, userId, id, now).result.value.memberIds <==>
      u == userId || (request.memberIds.Some? && u in request.memberIds.value)
  {
  }

  /** Creating a channel keeps `Valid`: the id keys the new row, and no
      membership pair is stored twice. */
  lemma CreateKeepsValid(db: Db, request: ChannelRequest, userId: string, id: string, now: Time)
    requires Valid(db)
    ensures Valid(CreateChannelSpec(db, request, userId, id, now).db)
  {
  }

  /** `updateChannel`: the creator renames and re-describes the channel;
      no event is published. */
  function UpdateChannelSpec(db: Db, channelId: string, name: string, description: Option<string>, userId: string)
    : (o: Outcome<ChannelDto>)
    ensures o.result.Err? ==> o.db == db
    ensures channelId !in db.channels ==> o.result == Err(Error(EntityNotFound, "Channel not found: " + channelId))
    ensures channelId in db.channels && db.channels[channelId].createdBy != userId ==>
      o.result == Err(Error(AccessDenied, "Only channel creator can update the channel"))
    ensures o.result.Ok? <==> channelId in db.channels && db.channels[channelId].createdBy == userId
    ensures o.result.Ok? ==>
      var channel := db.channels[channelId];
      o.db == db.(channels := db.channels[channel.id := channel.(name := name, description := description)])
      && o.result.value == ToChannelDto(o.db, channel.(name := name, description := description))
  {
    if channelId !in db.channels then Fail(db, EntityNotFound, "Channel not found: " + channelId)
    else if db.channels[channelId].createdBy != userId then
      Fail(db, AccessDenied, "Only channel creator can update the channel")
    else
      var updated := db.channels[channelId].(name := name, description := description);
      var after := db.(channels := db.channels[updated.id := updated]);
      Outcome(Ok(ToChannelDto(after, updated)), after)
  }

  method UpdateChannel(store: Store, channelId: string, name: string, description: Option<string>, userId: string)
    returns (r: Result<ChannelDto, Error>)
    modifies store
    ensures r == UpdateChannelSpec(old(store.State()), channelId, name, description, userId).result
    ensures store.State() == UpdateChannelSpec(old(store.State()), channelId, name, description, userId).db
  {
    if channelId !in store.channels {
      return Err(Error(EntityNotFound, "Channel not found: " + channelId));
    }
    var channel := store.channels[channelId];
    if channel.createdBy != userId {
      return Err(Error(AccessDenied, "Only channel creator can update the channel"));
    }
    var updated := channel.(name := name, description := description);
    store.SaveChannel(updated);
    r := Ok(ToChannelDto(store.State(), updated));
  }

  /** An update keeps the channel's id, type, creator, creation time and
      members, and every other channel. */
  lemma UpdateOnlyRenames(db: Db, channelId: string, name: string, description: Option<string>, userId: string)
    requires Valid(db)
    requires UpdateChannelSpec(db, channelId, name, description, userId).result.Ok?
    ensures var o := UpdateChannelSpec(db, channelId, name, description, userId);
      var before := db.channels[channelId];
      o.db.channels.Keys == db.channels.Keys
      && o.db.channels[channelId] == before.(name := name, description := description)
      && o.result.value.kind == before.kind && o.result.value.createdBy == before.createdBy
      && o.result.value.createdAt == before.createdAt
      && o.result.value.memberIds == ToChannelDto(db, before).memberIds
      && (forall k :: k in db.channels && k != channelId ==> o.db.channels[k] == db.channels[k])
      && Valid(o.db)
  {
  }

  /** `deleteChannel`: the creator deletes the channel with its memberships,
      messages and their reactions, and the DTO taken before the delete is
      broadcast. */
  function DeleteChannelSpec(db: Db, channelId: string, userId: string): (o: Outcome<()>)
    ensures o.result.Err? ==> o.db == db
    ensures channelId !in db.channels ==> o.result == Err(Error(EntityNotFound, "Channel not found: " + channelId))
    ensures channelId in db.channels && db.channels[channelId].createdBy != userId ==>
      o.result == Err(Error(AccessDenied, "Only channel creator can delete the channel"))
    ensures o.result.Ok? <==> channelId in db.channels && db.channels[channelId].createdBy == userId
    ensures o.result.Ok? ==>
      var channel := db.channels[channelId];
      o.db == ChannelDeleted(db, channel.id).(published := db.published
                                               + Broadcast("DELETED", ToChannelDto(db, channel)))
  {
    if channelId !in db.channels then Fail(db, EntityNotFound, "Channel not found: " + channelId)
    else if db.channels[channelId].createdBy != userId then
      Fail(db, AccessDenied, "Only channel creator can delete the channel")
    else
      var channel := db.channels[channelId];
      var deleted := ChannelDeleted(db, channel.id);
      Outcome(Ok(()), deleted.(published := db.published + Broadcast("DELETED", ToChannelDto(db, channel))))
  }

  method DeleteChannel(store: Store, channelId: string, userId: string) returns (r: Result<(), Error>)
    modifies store
    ensures r == DeleteChannelSpec(old(store.State()), channelId, userId).result
    ensures store.State() == DeleteChannelSpec(old(store.State()), channelId, userId).db
  {
    if channelId !in store.channels {
      return Err(Error(EntityNotFound, "Channel not found: " + channelId));
    }
    var channel := store.channels[channelId];
    if channel.createdBy != userId {
      return Err(Error(AccessDenied, "Only channel creator can delete the channel"));
    }
    var dto := ToChannelDto(store.State(), channel);
    store.DeleteChannel(channel.id);
    var events := Broadcast("DELETED", dto);
    store.Publish(events[0]);
    store.Publish(events[1]);
    assert store.published == old(store.published) + events;
    r := Ok(());
  }

  /** After a delete nothing of the channel is left: no row, no membership,
      no message, no reaction on one of its messages; the broadcast DTO
      still lists the members it had; `Valid` is kept. */
  lemma DeleteLeavesNothing(db: Db, channelId: string, userId: string)
    requires Valid(db)
    requires DeleteChannelSpec(db, channelId, userId).result.Ok?
    ensures var after := DeleteChannelSpec(db, channelId, userId).db;
      channelId !in after.channels
      && (forall u :: !IsMember(after, channelId, u))
      && (forall k :: k in after.messages ==> after.messages[k].channelId != channelId)
      && (forall k :: k in after.reactions && after.reactions[k].messageId in db.messages
            ==> db.messages[after.reactions[k].messageId].channelId != channelId)
      && after.published[|db.published|].event == ChannelEvent("DELETED", ToChannelDto(db, db.channels[channelId]))
      && Valid(after)
  {
  }

  /** `findById`. */
  function FindById(db: Db, channelId: string): (r: Option<ChannelDto>)
    ensures r.Some? <==> channelId in db.channels
    ensures r.Some? ==>
      r.value.createdBy == db.channels[channelId].createdBy
      && forall u :: u in r.value.memberIds <==> IsMember(db, db.channels[channelId].id, u)
  {
    if channelId in db.channels then Some(ToChannelDto(db, db.channels[channelId])) else None
  }

  /** `findAllPublicChannels`: the DTOs of the public channels. */
  function FindAllPublicChannels(db: Db): (r: set<ChannelDto>)
    ensures forall d :: d in r ==> d.kind == Public
    ensures forall k :: k in db.channels && db.channels[k].kind == Public ==> ToChannelDto(db, db.channels[k]) in r
  {
    set k | k in db.channels && db.channels[k].kind == Public :: ToChannelDto(db, db.channels[k])
  }

  /** `findUserChannels`: the DTOs of the channels the user is a member of;
      the user is listed in each one's members. */
  function FindUserChannels(db: Db, userId: string): (r: set<ChannelDto>)
    ensures forall d :: d in r ==> userId in d.memberIds
    ensures forall k :: k in db.channels && IsMember(db, db.channels[k].id, userId) ==>
      ToChannelDto(db, db.channels[k]) in r
  {
    set k | k in db.channels && IsMember(db, db.channels[k].id, userId) :: ToChannelDto(db, db.channels[k])
  }

  /** `addMember`: joining a channel; a private one only for its creator. */
  function AddMemberSpec(db: Db, channelId: string, userId: string): (o: Outcome<()>)
    ensures o.result.Err? ==> o.db == db
    ensures channelId !in db.channels ==> o.result == Err(Error(EntityNotFound, "Channel not found: " + channelId))
    ensures channelId in db.channels && userId !in db.users ==>
      o.result == Err(Error(EntityNotFound, "User not found: " + userId))
    ensures channelId in db.channels && userId in db.users && db.channels[channelId].kind == Private
            && db.channels[channelId].createdBy != userId
      ==> o.result == Err(Error(AccessDenied, "Cannot join private channel without invitation"))
    ensures o.result.Ok? <==>
      channelId in db.channels && userId in db.users
      && (db.channels[channelId].kind == Private ==> db.channels[channelId].createdBy == userId)
    ensures o.result.Ok? ==> o.db == db.(memberships := WithMember(db.memberships, db.channels[channelId].id, userId))
  {
    if channelId !in db.channels then Fail(db, EntityNotFound, "Channel not found: " + channelId)
    else if userId !in db.users then Fail(db, EntityNotFound, "User not found: " + userId)
    else if db.channels[channelId].kind == Private && db.channels[channelId].createdBy != userId then
      Fail(db, AccessDenied, "Cannot join private channel without invitation")
    else Outcome(Ok(()), db.(memberships := WithMember(db.memberships, db.channels[channelId].id, userId)))
  }

  method AddMember(store: Store, channelId: string, userId: string) returns (r: Result<(), Error>)
    modifies store
    ensures r == AddMemberSpec(old(store.State()), channelId, userId).result
    ensures store.State() == AddMemberSpec(old(store.State()), channelId, userId).db
  {
    if channelId !in store.channels {
      return Err(Error(EntityNotFound, "Channel not found: " + channelId));
    }
    var channel := store.channels[channelId];
    if userId !in store.users {
      return Err(Error(EntityNotFound, "User not found: " + userId));
    }
    if channel.kind == Private && channel.createdBy != userId {
      return Err(Error(AccessDenied, "Cannot join private channel without invitation"));
    }
    AddMemberInternal(store, channel.id, userId);
    r := Ok(());
  }

  /** Joining makes the user a member; joining again changes nothing; the
      unique constraint on memberships is kept. */
  lemma JoinIsIdempotent(db: Db, channelId: string, userId: string)
    requires Valid(db)
    requires AddMemberSpec(db, channelId, userId).result.Ok?
    ensures var once := AddMemberSpec(db, channelId, userId);
      IsMember(once.db, channelId, userId)
      && AddMemberSpec(once.db, channelId, userId) == once.(db := once.db)
      && Valid(once.db)
  {
  }

  /** `removeMember`: only the creator passes the check, and the pair
      deleted is (channel, requester), so the call removes the creator's
      own membership. */
  function RemoveMemberSpec(db: Db, channelId: string, userId: string): (o: Outcome<()>)
    ensures o.result.Err? ==> o.db == db
    ensures channelId !in db.channels ==> o.result == Err(Error(EntityNotFound, "Channel not found: " + channelId))
    ensures channelId in db.channels && db.channels[channelId].createdBy != userId ==>
      o.result == Err(Error(AccessDenied, "Only channel creator can remove members"))
    ensures o.result.Ok? <==> channelId in db.channels && db.channels[channelId].createdBy == userId
    ensures o.result.Ok? ==> o.db == db.(memberships := WithoutMember(db.memberships, channelId, userId))
  {
    if channelId !in db.channels then Fail(db, EntityNotFound, "Channel not found: " + channelId)
    else if db.channels[channelId].createdBy != userId then
      Fail(db, AccessDenied, "Only channel creator can remove members")
    else Outcome(Ok(()), db.(memberships := WithoutMember(db.memberships, channelId, userId)))
  }

  method RemoveMember(store: Store, channelId: string, userId: string) returns (r: Result<(), Error>)
    modifies store
    ensures r == RemoveMemberSpec(old(store.State()), channelId, userId).result
    ensures store.State() == RemoveMemberSpec(old(store.State()), channelId, userId).db
  {
    if channelId !in store.channels {
      return Err(Error(EntityNotFound, "Channel not found: " + channelId));
    }
    if store.channels[channelId].createdBy != userId {
      return Err(Error(AccessDenied, "Only channel creator can remove members"));
    }
    store.DeleteMembership(channelId, userId);
    r := Ok(());
  }

  /** A successful removal leaves the requester outside the channel, every
      other membership in place, and `Valid` kept. */
  lemma RemoveLeavesOthers(db: Db, channelId: string, userId: string)
    requires Valid(db)
    requires RemoveMemberSpec(db, channelId, userId).result.Ok?
    ensures var after := RemoveMemberSpec(db, channelId, userId).db;
      !IsMember(after, channelId, userId)
      && (forall c, u :: (c, u) != (channelId, userId) ==> (IsMember(after, c, u) <==> IsMember(db, c, u)))
      && Valid(after)
  {
  }

  /** `getChannelMembers`: the user ids of the channel's memberships. */
  function GetChannelMembers(db: Db, channelId: string): (r: set<string>)
    ensures forall u :: u in r <==> IsMember(db, channelId, u)
  {
    MemberIds(db.memberships, channelId)
  }

  /** `isUserMember` agrees with `getChannelMembers`. */
  lemma IsUserMemberAgrees(db: Db, channelId: string, userId: string)
    requires Valid(db)
    ensures IsMember(db, channelId, userId) <==> userId in GetChannelMembers(db, channelId)
    ensures channelId in db.channels ==>
      (IsMember(db, channelId, userId) <==> userId in ToChannelDto(db, db.channels[channelId]).memberIds)
  {
  }

  /** `generateDmChannelName`. */
  function DmChannelName(user1: User, user2: User): (r: string)
    ensures StartsWith(r, "DM:") && |r| == 4 + |user1.username| + |user2.username|
    ensures r[3..3 + |user1.username|] == user1.username && r[3 + |user1.username|] == ':'
    ensures r[4 + |user1.username|..] == user2.username
  {
    "DM:" + user1.username + ":" + user2.username
  }

  /** While the first username holds no `:`, a DM channel's name gives back
      both usernames. */
  lemma DmChannelNameSplits(user1: User, user2: User, other1: User, other2: User)
    requires ':' !in user1.username && ':' !in other1.username
    requires DmChannelName(user1, user2) == DmChannelName(other1, other2)
    ensures user1.username == other1.username && user2.username == other2.username
  {
  }

  /** `createDirectMessageChannel`. `existing` is the DM channel the
      repository finds between the two users, if any. An existing channel is
      loaded from the store and lists its members; a new one is converted
      from the entity just saved, whose `memberships` collection is still
      empty (see `CreateDirectMessageChannelListingMembers`). */
  function CreateDirectMessageChannelSpec(db: Db, userId1: string, userId2: string, existing: Option<Channel>,
                                          id: string, now: Time)
    : (o: Outcome<ChannelDto>)
    ensures o.result.Err? ==> o.db == db
    ensures existing.Some? ==> o == Outcome(Ok(ToChannelDto(db, existing.value)), db)
    ensures existing.None? && userId1 !in db.users ==>
      o.result == Err(Error(EntityNotFound, "User not found: " + userId1))
    ensures existing.None? && userId1 in db.users && userId2 !in db.users ==>
      o.result == Err(Error(EntityNotFound, "User not found: " + userId2))
    ensures existing.None? ==> (o.result.Ok? <==> userId1 in db.users && userId2 in db.users)
    ensures existing.None? && o.result.Ok? ==>
      var channel := Channel(id, DmChannelName(db.users[userId1], db.users[userId2]), None, DirectMessage, userId1, now);
      o.db.channels == db.channels[id := channel]
      && o.db.memberships == WithMember(WithMember(db.memberships, id, userId1), id, userId2)
      && o.db == db.(channels := o.db.channels, memberships := o.db.memberships)
      && o.result.value == FreshChannelDto(channel) && o.result.value.memberIds == {}
  {
    if existing.Some? then Outcome(Ok(ToChannelDto(db, existing.value)), db)
    else if userId1 !in db.users then Fail(db, EntityNotFound, "User not found: " + userId1)
    else if userId2 !in db.users then Fail(db, EntityNotFound, "User not found: " + userId2)
    else
      var channel := Channel(id, DmChannelName(db.users[userId1], db.users[userId2]), None, DirectMessage, userId1, now);
      var after := db.(channels := db.channels[id := channel],
                       memberships := WithMember(WithMember(db.memberships, id, userId1), id, userId2));
      Outcome(Ok(FreshChannelDto(channel)), after)
  }

  method CreateDirectMessageChannel(store: Store, userId1: string, userId2: string, existing: Option<Channel>,
                                    id: string, now: Time)
    returns (r: Result<ChannelDto, Error>)
    modifies store
    ensures r == CreateDirectMessageChannelSpec(old(store.State()), userId1, userId2, existing, id, now).result
    ensures store.State() == CreateDirectMessageChannelSpec(old(store.State()), userId1, userId2, existing, id, now).db
  {
    if existing.Some? {
      return Ok(ToChannelDto(store.State(), existing.value));
    }
    if userId1 !in store.users {
      return Err(Error(EntityNotFound, "User not found: " + userId1));
    }
    if userId2 !in store.users {
      return Err(Error(EntityNotFound, "User not found: " + userId2));
    }
    var channel := Channel(id, DmChannelName(store.users[userId1], store.users[userId2]), None, DirectMessage,
                           userId1, now);
    store.SaveChannel(channel);
    AddMemberInternal(store, id, userId1);
    AddMemberInternal(store, id, userId2);
    r := Ok(FreshChannelDto(channel));
  }

  /** `createDirectMessageChannel` as intended: the same rows, with the new
      channel's DTO read from the store. */
  function CreateDirectMessageChannelListingMembers(db: Db, userId1: string, userId2: string,
                                                    existing: Option<Channel>, id: string, now: Time)
    : (o: Outcome<ChannelDto>)
    ensures o.db == CreateDirectMessageChannelSpec(db, userId1, userId2, existing, id, now).db
    ensures o.result.Ok? <==> CreateDirectMessageChannelSpec(db, userId1, userId2, existing, id, now).result.Ok?
    ensures existing.Some? || o.result.Err? ==> o == CreateDirectMessageChannelSpec(db, userId1, userId2, existing, id, now)
    ensures existing.None? && o.result.Ok? ==>
      o.result.value == ToChannelDto(o.db, o.db.channels[id])
  {
    var o := CreateDirectMessageChannelSpec(db, userId1, userId2, existing, id, now);
    if existing.Some? || o.result.Err? then o
    else Outcome(Ok(ToChannelDto(o.db, o.db.channels[id])), o.db)
  }

  /** As written, a new direct-message channel's DTO lists no member,
      although both users are stored as members; the corrected DTO lists
      them. */
  lemma NewDirectMessageListsNoMembers(db: Db, userId1: string, userId2: string, id: string, now: Time)
    requires CreateDirectMessageChannelSpec(db, userId1, userId2, None, id, now).result.Ok?
    ensures var o := CreateDirectMessageChannelSpec(db, userId1, userId2, None, id, now);
      o.result.value.memberIds == {} && IsMember(o.db, id, userId1) && IsMember(o.db, id, userId2)
  {
  }

  /** A corrected new direct-message channel under a fresh id has exactly
      the two users as members (one, when a user messages themself). */
  lemma DirectMessageMembers(db: Db, userId1: string, userId2: string, id: string, now: Time)
    requires forall m :: m in db.memberships ==> m.0 != id
    requires CreateDirectMessageChannelListingMembers(db, userId1, userId2, None, id, now).result.Ok?
    ensures CreateDirectMessageChannelListingMembers(db, userId1, userId2, None, id, now).result.value.memberIds
      == {userId1, userId2}
  {
    var dto := CreateDirectMessageChannelListingMembers(db, userId1, userId2, None, id, now).result.value;
    forall u | u in dto.memberIds
      ensures u == userId1 || u == userId2
    {
    }
  }
}
