/** The older message list: reactions grouped per message for the chips,
    and the toggle that decides between removing the user's own reaction
    and adding a new one. */
module MessageList {
  import opened Common
  import opened FrontendTypes
  import opened ReactionGroups

  /** `groupReactions`: the accumulator is filled by `push`, creating a
      group the first time an emoji is seen. */
  method GroupReactions(reactions: seq<Reaction>) returns (groups: Groups)
    ensures groups == Grouping(reactions)
  {
    groups := [];
    var i := 0;
    while i < |reactions|
      invariant 0 <= i <= |reactions|
      invariant groups == Grouping(reactions[..i])
    {
      var reaction := reactions[i];
      var key := reaction.emoji;
      ghost var before := groups;
      var j := KeyIndex(groups, key);
      if j == |groups| {
        groups := groups + [(key, [])];
      }
      groups := groups[j := (key, groups[j].1 + [reaction])];
      assert groups == Insert(before, reaction) by {
        if j == |before| {
          assert [] + [reaction] == [reaction];
          assert groups == before + [(key, [reaction])];
        }
      }
      InsertStep(reactions[..i], reaction);
      assert reactions[..i + 1] == reactions[..i] + [reaction];
      i := i + 1;
    }
    assert reactions[..i] == reactions;
  }

  /** The chip of a group shows its size. */
  function ChipCount(group: (string, seq<Reaction>)): nat
  {
    |group.1|
  }

  /** A chip's count is the number of reactions with its emoji. */
  lemma ChipCountIsEmojiCount(reactions: seq<Reaction>, i: nat)
    requires i < |Grouping(reactions)|
    ensures ChipCount(Grouping(reactions)[i]) == |GroupOf(reactions, Grouping(reactions)[i].0)|
  {
  }

  /** `Array.prototype.find` on messages by id. */
  function FindMessage(messages: seq<Message>, id: string): (r: Option<Message>)
    ensures r.None? <==> forall m :: m in messages ==> m.id != id
    ensures r.Some? ==> r.value in messages && r.value.id == id
  {
    if messages == [] then None
    else if messages[0].id == id then Some(messages[0])
    else FindMessage(messages[1..], id)
  }

  /** The first reaction by `userId` with `emoji`. */
  function FindOwnReaction(reactions: seq<Reaction>, userId: string, emoji: string): (r: Option<Reaction>)
    ensures r.None? <==> forall x :: x in reactions ==> !(x.userId == userId && x.emoji == emoji)
    ensures r.Some? ==> r.value in reactions && r.value.userId == userId && r.value.emoji == emoji
  {
    if reactions == [] then None
    else if reactions[0].userId == userId && reactions[0].emoji == emoji then Some(reactions[0])
    else FindOwnReaction(reactions[1..], userId, emoji)
  }

  /** The service call `handleReaction` makes. */
  datatype ReactionCall =
    | NoCall
    | RemoveReaction(messageId: string, reactionId: string)
    | AddReaction(messageId: string, emoji: string)

  function HandleReaction(messages: seq<Message>, messageId: string, emoji: string, userId: Option<string>): (r: ReactionCall)
    ensures userId.None? ==> r == NoCall
    ensures userId.Some? ==> !r.NoCall?
    ensures r.RemoveReaction? ==>
      r.messageId == messageId && userId.Some? && FindMessage(messages, messageId).Some?
      && exists x :: x in FindMessage(messages, messageId).value.reactions && x.id == r.reactionId
                     && x.userId == userId.value && x.emoji == emoji
    ensures userId.Some? && r.AddReaction? ==> r == AddReaction(messageId, emoji)
    ensures userId.Some? ==> (r.AddReaction? <==>
      FindMessage(messages, messageId).None?
      || forall x :: x in FindMessage(messages, messageId).value.reactions ==> !(x.userId == userId.value && x.emoji == emoji))
  {
    if userId.None? then NoCall
    else
      var message := FindMessage(messages, messageId);
      var existing := if message.Some? then FindOwnReaction(message.value.reactions, userId.value, emoji) else None;
      if existing.Some? then RemoveReaction(messageId, existing.value.id)
      else AddReaction(messageId, emoji)
  }

  /** A reaction the user added is the one the next toggle on the same emoji
      removes, once the message holds it. */
  lemma ToggleFindsAddedReaction(messages: seq<Message>, messageId: string, emoji: string, userId: string, added: Reaction)
    requires FindMessage(messages, messageId).Some?
    requires added in FindMessage(messages, messageId).value.reactions
    requires added.userId == userId && added.emoji == emoji
    ensures HandleReaction(messages, messageId, emoji, Some(userId)).RemoveReaction?
  {
  }

  /** The open picker after `handleReaction`: closed once the call succeeded,
      unchanged when there is no user or the call failed. */
  function PickerAfterReaction(picker: Option<string>, userId: Option<string>, callSucceeded: bool): (r: Option<string>)
    ensures r.Some? ==> r == picker
    ensures userId.Some? && callSucceeded ==> r.None?
  {
    if userId.Some? && callSucceeded then None else picker
  }

  /** The `[more]` button: opens this message's picker, or closes it if open. */
  function TogglePicker(picker: Option<string>, messageId: string): (r: Option<string>)
    ensures r.None? <==> picker == Some(messageId)
    ensures r.Some? ==> r.value == messageId
  {
    if picker == Some(messageId) then None else Some(messageId)
  }
}
