/** `ChannelEventBuilder`: the validated channel-lifecycle envelopes. Each
    builder checks its arguments with Spring's `Assert` (every failure an
    `IllegalArgumentException`), then builds an event whose payload is a
    string-keyed map. The two `LocalDateTime.now()` readings of a builder
    are the parameters `payloadTime` and `eventTime`. */
module ChannelEventBuilder {
  import opened Common
  import opened Domain

  /** `ChannelMemberDto`. */
  datatype MemberDto = MemberDto(userId: string, username: string, joinedAt: Time)

  /** The `dto.ChannelDto` these events carry; `None` stands for null. */
  datatype EventChannel = EventChannel(id: Option<string>, name: Option<string>, isDirectMessage: bool,
                                       createdById: Option<string>, createdByUsername: Option<string>,
                                       createdAt: Option<Time>, members: Option<set<MemberDto>>,
                                       messageCount: int, fileCount: int)

  /** `ChannelEventType`. */
  datatype ChannelEventType = ChannelCreate | ChannelDelete | ChannelUpdate | ChannelMemberAdd | ChannelMemberRemove

  /** A payload value: the channel, or a timestamp. */
  datatype PayloadValue = ChannelValue(channel: EventChannel) | TimestampValue(time: Time)

  /** `ChannelWebSocketEventDto`. */
  datatype ChannelWebSocketEvent = ChannelWebSocketEvent(kind: ChannelEventType, channelId: Option<string>,
                                                         userId: string, timestamp: Time,
                                                         payload: map<string, PayloadValue>)

  function Invalid(message: string): Result<ChannelWebSocketEvent, Error>
  {
    Err(Error(IllegalArgument, message))
  }

  /** The first failed check of `createChannelEvent`, in source order. */
  function CreateCheck(channel: Option<EventChannel>, userId: Option<string>): (r: Option<string>)
    ensures r.None? <==>
      channel.Some? && channel.value.id.Some? && HasText(userId) && channel.value.members.Some?
      && channel.value.createdAt.Some?
  {
    if channel.None? then Some("Channel cannot be null")
    else if channel.value.id.None? then Some("Channel ID cannot be null")
    else if !HasText(userId) then Some("User ID cannot be empty")
    else if channel.value.members.None? then Some("Channel members cannot be null")
    else if channel.value.createdAt.None? then Some("Channel creation time cannot be null")
    else None
  }

  /** `createChannelEvent`. */
  function CreateChannelEvent(channel: Option<EventChannel>, userId: Option<string>, payloadTime: Time,
                              eventTime: Time)
    : (r: Result<ChannelWebSocketEvent, Error>)
    ensures r.Err? <==> CreateCheck(channel, userId).Some?
    ensures channel.None? ==> r == Invalid("Channel cannot be null")
    ensures channel.Some? && channel.value.id.None? ==> r == Invalid("Channel ID cannot be null")
    ensures channel.Some? && channel.value.id.Some? && !HasText(userId) ==> r == Invalid("User ID cannot be empty")
    ensures channel.Some? && channel.value.id.Some? && HasText(userId) && channel.value.members.None? ==>
      r == Invalid("Channel members cannot be null")
    ensures channel.Some? && channel.value.id.Some? && HasText(userId) && channel.value.members.Some?
            && channel.value.createdAt.None? ==>
      r == Invalid("Channel creation time cannot be null")
    ensures r.Err? ==> r.error.kind == IllegalArgument
    ensures r.Ok? ==>
      var e := r.value;
      e.kind == ChannelCreate && e.channelId == channel.value.id && e.userId == userId.value
      && e.timestamp == eventTime
      && e.payload.Keys == {"channel", "timestamp"}
      && e.payload["channel"] == ChannelValue(channel.value)
      && e.payload["timestamp"] == TimestampValue(payloadTime)
  {
    var failed := CreateCheck(channel, userId);
    if failed.Some? then Invalid(failed.value)
    else
      Ok(ChannelWebSocketEvent(ChannelCreate, channel.value.id, userId.value, eventTime,
                               map["channel" := ChannelValue(channel.value), "timestamp" := TimestampValue(payloadTime)]))
  }

  /** `deleteChannelEvent`. */
  function DeleteChannelEvent(channelId: Option<string>, userId: Option<string>, payloadTime: Time, eventTime: Time)
    : (r: Result<ChannelWebSocketEvent, Error>)
    ensures r.Err? <==> channelId.None? || !HasText(userId)
    ensures channelId.None? ==> r == Invalid("Channel ID cannot be null")
    ensures channelId.Some? && !HasText(userId) ==> r == Invalid("User ID cannot be empty")
    ensures r.Ok? ==>
      var e := r.value;
      e.kind == ChannelDelete && e.channelId == channelId && e.userId == userId.value && e.timestamp == eventTime
      && e.payload == map["timestamp" := TimestampValue(payloadTime)]
  {
    if channelId.None? then Invalid("Channel ID cannot be null")
    else if !HasText(userId) then Invalid("User ID cannot be empty")
    else Ok(ChannelWebSocketEvent(ChannelDelete, channelId, userId.value, eventTime,
                                  map["timestamp" := TimestampValue(payloadTime)]))
  }

  /** A channel whose creation event can be built also has a deletion event
      from the same user, for the same channel id, and that event's payload
      is the creation payload without the channel. */
  lemma DeleteMatchesCreate(channel: Option<EventChannel>, userId: Option<string>, payloadTime: Time, eventTime: Time)
    requires CreateChannelEvent(channel, userId, payloadTime, eventTime).Ok?
    ensures var created := CreateChannelEvent(channel, userId, payloadTime, eventTime).value;
      var deleted := DeleteChannelEvent(channel.value.id, userId, payloadTime, eventTime);
      deleted.Ok? && deleted.value.channelId == created.channelId && deleted.value.userId == created.userId
      && deleted.value.payload == created.payload - {"channel"}
  {
    var created := CreateChannelEvent(channel, userId, payloadTime, eventTime).value;
    assert created.payload - {"channel"} == map["timestamp" := TimestampValue(payloadTime)];
  }
}
