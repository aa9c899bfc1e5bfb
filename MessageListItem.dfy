/** One message row of the newer list: reactions grouped per emoji by a
    `reduce` with `concat`, the chip click, the picker selection and the
    chip's title. */
module MessageListItem {
  import opened Common
  import opened FrontendTypes
  import opened ReactionGroups

  /** `groupedReactions`: `acc[r.emoji] = (acc[r.emoji] || []).concat(r)` for each reaction. */
  function GroupedReactions(reactions: seq<Reaction>): Groups
    decreases |reactions|
  {
    if reactions == [] then []
    else Insert(GroupedReactions(reactions[..|reactions| - 1]), reactions[|reactions| - 1])
  }

  /** The fold builds exactly the reference grouping. */
  lemma {:induction false} GroupedReactionsIsGrouping(reactions: seq<Reaction>)
    ensures GroupedReactions(reactions) == Grouping(reactions)
    decreases |reactions|
  {
    if reactions == [] {
      assert Grouping(reactions) == [];
    } else {
      var init := reactions[..|reactions| - 1];
      var last := reactions[|reactions| - 1];
      GroupedReactionsIsGrouping(init);
      InsertStep(init, last);
      assert init + [last] == reactions;
    }
  }

  /** What a chip click or a picker selection calls. */
  datatype ItemCall = AddCalled(emoji: string) | RemoveCalled(emoji: string)

  /** `handleReactionClick`: remove if anyone reacted with this emoji, otherwise add. */
  function HandleReactionClick(reactions: seq<Reaction>, emoji: string): (r: ItemCall)
    ensures r.RemoveCalled? <==> exists x :: x in reactions && x.emoji == emoji
    ensures r.emoji == emoji
  {
    if exists x :: x in reactions && x.emoji == emoji then RemoveCalled(emoji) else AddCalled(emoji)
  }

  /** The click does not look at who reacted: a chip made only of other
      users' reactions still calls remove. */
  lemma ClickIgnoresAuthor(reactions: seq<Reaction>, emoji: string, currentUserId: string)
    requires emoji in EmojisOf(reactions)
    requires forall x :: x in reactions ==> x.userId != currentUserId
    ensures HandleReactionClick(reactions, emoji) == RemoveCalled(emoji)
    ensures !Highlighted(GroupOf(reactions, emoji), Some(currentUserId))
  {
  }

  /** `handleEmojiSelect`: always an add, and the picker closes. */
  function HandleEmojiSelect(native: string): (r: (ItemCall, bool))
    ensures r.0 == AddCalled(native)
    ensures !r.1
  {
    (AddCalled(native), false)
  }

  function Usernames(group: seq<Reaction>): (r: seq<string>)
    ensures |r| == |group|
    ensures forall i :: 0 <= i < |group| ==> r[i] == group[i].username
  {
    if group == [] then [] else [group[0].username] + Usernames(group[1..])
  }

  /** The chip's title: the group's usernames joined by ", ". */
  function ChipTitle(group: seq<Reaction>): string
  {
    Join(Usernames(group), ", ")
  }

  /** The title names every reactor once per reaction: its length is the
      usernames' total plus two per separator. */
  lemma ChipTitleLength(group: seq<Reaction>)
    requires group != []
    ensures |ChipTitle(group)| == SumLengths(Usernames(group)) + 2 * (|group| - 1)
    ensures |group| == 1 ==> ChipTitle(group) == group[0].username
  {
    JoinLength(Usernames(group), ", ");
  }
}
