/** Grouping a message's reactions by emoji, as both reaction lists of the
    chat panel render them: one chip per emoji, in the order the emojis
    first appear, each holding that emoji's reactions in their input order.

    The `reduce` builds a JavaScript object keyed by emoji, whose properties
    are created in first-appearance order, so a grouping is a sequence of
    (emoji, reactions) pairs in creation order. `Grouping` is the reference
    definition; `Insert` is one step of the accumulating `reduce` that both
    components use, and `InsertStep` connects the two. The chips come from
    `Object.entries`, which lists the keys that are array indices first, in
    ascending numeric order, and the other keys in creation order
    (OrdinaryOwnPropertyKeys, section 10.1.11.1 of ECMA-262): `Chips`. */
module ReactionGroups {
  import opened Common
  import opened FrontendTypes

  type Groups = seq<(string, seq<Reaction>)>

  /** The reactions with emoji `emoji`, in input order. */
  function GroupOf(reactions: seq<Reaction>, emoji: string): (r: seq<Reaction>)
    ensures |r| <= |reactions|
    ensures forall x :: x in r <==> x in reactions && x.emoji == emoji
    decreases |reactions|
  {
    if reactions == [] then []
    else
      var init := reactions[..|reactions| - 1];
      var last := reactions[|reactions| - 1];
      assert reactions == init + [last];
      GroupOf(init, emoji) + (if last.emoji == emoji then [last] else [])
  }

  /** The distinct emojis, in the order they first appear. */
  function EmojisOf(reactions: seq<Reaction>): (r: seq<string>)
    ensures forall e :: e in r <==> exists x :: x in reactions && x.emoji == e
    ensures forall i, j :: 0 <= i < j < |r| ==> r[i] != r[j]
    decreases |reactions|
  {
    if reactions == [] then []
    else
      var init := reactions[..|reactions| - 1];
      var last := reactions[|reactions| - 1];
      assert reactions == init + [last];
      var before := EmojisOf(init);
      if last.emoji in before then before else before + [last.emoji]
  }

  /** The reference grouping. */
  function Grouping(reactions: seq<Reaction>): (r: Groups)
    ensures |r| == |EmojisOf(reactions)|
    ensures forall i :: 0 <= i < |r| ==> r[i] == (EmojisOf(reactions)[i], GroupOf(reactions, EmojisOf(reactions)[i]))
  {
    var emojis := EmojisOf(reactions);
    seq(|emojis|, i requires 0 <= i < |emojis| => (emojis[i], GroupOf(reactions, emojis[i])))
  }

  /** Where the accumulator holds `key`: the first such index, or `|groups|` when absent. */
  function KeyIndex(groups: Groups, key: string): (r: nat)
    ensures r <= |groups|
    ensures r < |groups| ==> groups[r].0 == key
    ensures forall i :: 0 <= i < r ==> groups[i].0 != key
  {
    if groups == [] then 0
    else if groups[0].0 == key then 0
    else 1 + KeyIndex(groups[1..], key)
  }

  /** One step of the `reduce`: the reaction goes last in its emoji's group,
      which is created (last) if it does not exist yet. */
  function Insert(groups: Groups, reaction: Reaction): Groups
  {
    var j := KeyIndex(groups, reaction.emoji);
    if j < |groups| then groups[j := (reaction.emoji, groups[j].1 + [reaction])]
    else groups + [(reaction.emoji, [reaction])]
  }

  /** The index of an emoji in EmojisOf. */
  lemma EmojiIndex(reactions: seq<Reaction>, emoji: string) returns (j: nat)
    requires emoji in EmojisOf(reactions)
    ensures j < |EmojisOf(reactions)| && EmojisOf(reactions)[j] == emoji
    ensures KeyIndex(Grouping(reactions), emoji) == j
  {
    var emojis := EmojisOf(reactions);
    j :| 0 <= j < |emojis| && emojis[j] == emoji;
  }

  lemma GroupOfSnoc(reactions: seq<Reaction>, reaction: Reaction, emoji: string)
    ensures GroupOf(reactions + [reaction], emoji) == GroupOf(reactions, emoji) + (if reaction.emoji == emoji then [reaction] else [])
  {
    var next := reactions + [reaction];
    assert next[..|next| - 1] == reactions;
  }

  lemma EmojisOfSnoc(reactions: seq<Reaction>, reaction: Reaction)
    ensures EmojisOf(reactions + [reaction])
      == if reaction.emoji in EmojisOf(reactions) then EmojisOf(reactions) else EmojisOf(reactions) + [reaction.emoji]
  {
    var next := reactions + [reaction];
    assert next[..|next| - 1] == reactions;
  }

  lemma NoGroupWithoutEmoji(reactions: seq<Reaction>, emoji: string)
    requires emoji !in EmojisOf(reactions)
    ensures GroupOf(reactions, emoji) == []
  {
  }

  /** The accumulator step and the reference definition agree. */
  lemma InsertStep(reactions: seq<Reaction>, reaction: Reaction)
    ensures Insert(Grouping(reactions), reaction) == Grouping(reactions + [reaction])
  {
    var next := reactions + [reaction];
    var emojis := EmojisOf(reactions);
    var g := Grouping(reactions);
    var h := Grouping(next);
    EmojisOfSnoc(reactions, reaction);
    if reaction.emoji in emojis {
      var j := EmojiIndex(reactions, reaction.emoji);
      var inserted := g[j := (reaction.emoji, g[j].1 + [reaction])];
      forall i | 0 <= i < |h|
        ensures h[i] == inserted[i]
      {
        GroupOfSnoc(reactions, reaction, emojis[i]);
        if i != j {
          assert GroupOf(reactions, emojis[i]) + [] == GroupOf(reactions, emojis[i]);
        }
      }
    } else {
      var inserted := g + [(reaction.emoji, [reaction])];
      NoGroupWithoutEmoji(reactions, reaction.emoji);
      forall i | 0 <= i < |h|
        ensures h[i] == inserted[i]
      {
        GroupOfSnoc(reactions, reaction, EmojisOf(next)[i]);
        if i == |g| {
          assert GroupOf(reactions, reaction.emoji) + [reaction] == [reaction];
        } else {
          assert EmojisOf(next)[i] == emojis[i] != reaction.emoji;
          assert GroupOf(reactions, emojis[i]) + [] == GroupOf(reactions, emojis[i]);
        }
      }
    }
  }

  /** Each reaction sits in exactly the group of its emoji. */
  lemma GroupingPartitions(reactions: seq<Reaction>, x: Reaction)
    requires x in reactions
    ensures exists i :: 0 <= i < |Grouping(reactions)| && Grouping(reactions)[i].0 == x.emoji
    ensures forall i :: 0 <= i < |Grouping(reactions)| ==> (x in Grouping(reactions)[i].1 <==> Grouping(reactions)[i].0 == x.emoji)
    ensures forall i, j :: 0 <= i < j < |Grouping(reactions)| ==> Grouping(reactions)[i].0 != Grouping(reactions)[j].0
  {
    var j := EmojiIndex(reactions, x.emoji);
    assert Grouping(reactions)[j].0 == x.emoji;
  }

  function SumSizes(groups: Groups): nat
  {
    if groups == [] then 0 else |groups[0].1| + SumSizes(groups[1..])
  }

  lemma {:induction false} SumSizesGrow(groups: Groups, j: nat, reaction: Reaction, key: string)
    requires j < |groups|
    ensures SumSizes(groups[j := (key, groups[j].1 + [reaction])]) == SumSizes(groups) + 1
    decreases |groups|
  {
    if j > 0 {
      assert groups[j := (key, groups[j].1 + [reaction])][1..] == groups[1..][j - 1 := (key, groups[j].1 + [reaction])];
      SumSizesGrow(groups[1..], j - 1, reaction, key);
    }
  }

  lemma {:induction false} SumSizesAppend(groups: Groups, g: (string, seq<Reaction>))
    ensures SumSizes(groups + [g]) == SumSizes(groups) + |g.1|
    decreases |groups|
  {
    if groups != [] {
      assert (groups + [g])[1..] == groups[1..] + [g];
      SumSizesAppend(groups[1..], g);
    }
  }

  /** No reaction is lost or duplicated: the group sizes add up to the input length. */
  lemma {:induction false} GroupSizesSum(reactions: seq<Reaction>)
    ensures SumSizes(Grouping(reactions)) == |reactions|
    decreases |reactions|
  {
    if reactions != [] {
      var init := reactions[..|reactions| - 1];
      var last := reactions[|reactions| - 1];
      assert reactions == init + [last];
      GroupSizesSum(init);
      InsertStep(init, last);
      var g := Grouping(init);
      var j := KeyIndex(g, last.emoji);
      if j < |g| {
        SumSizesGrow(g, j, last, last.emoji);
      } else {
        SumSizesAppend(g, (last.emoji, [last]));
      }
    }
  }

  /** A chip is highlighted iff some reaction in its group is by the current user. */
  predicate Highlighted(group: seq<Reaction>, currentUserId: Option<string>)
  {
    exists x :: x in group && Some(x.userId) == currentUserId
  }

  /** With no signed-in user no chip is highlighted; otherwise the chip of
      `emoji` is highlighted iff the user reacted with that emoji. */
  lemma HighlightMeansOwnReaction(reactions: seq<Reaction>, emoji: string, currentUserId: Option<string>)
    ensures currentUserId.None? ==> !Highlighted(GroupOf(reactions, emoji), currentUserId)
    ensures Highlighted(GroupOf(reactions, emoji), currentUserId)
      <==> exists x :: x in reactions && x.emoji == emoji && Some(x.userId) == currentUserId
  {
  }

  /** An array index: a canonical numeral below 2^32 - 1 (section 6.1.7 of
      ECMA-262). */
  predicate IsArrayIndex(key: string)
  {
    IsCanonicalNumeral(key) && DigitsValue(key) < 0xFFFF_FFFF
  }

  predicate AllIndices(groups: Groups)
  {
    forall i :: 0 <= i < |groups| ==> IsArrayIndex(groups[i].0)
  }

  /** The numeric value of an index key (0 for any other key). */
  function IndexValue(entry: (string, seq<Reaction>)): nat
  {
    if IsArrayIndex(entry.0) then DigitsValue(entry.0) else 0
  }

  /** The entries whose key is an array index, in creation order. */
  function IndexEntries(groups: Groups): (r: Groups)
    ensures |r| <= |groups|
    ensures AllIndices(r)
  {
    if groups == [] then []
    else (if IsArrayIndex(groups[0].0) then [groups[0]] else []) + IndexEntries(groups[1..])
  }

  /** The other entries, in creation order. */
  function NamedEntries(groups: Groups): (r: Groups)
    ensures forall i :: 0 <= i < |r| ==> !IsArrayIndex(r[i].0)
  {
    if groups == [] then []
    else (if IsArrayIndex(groups[0].0) then [] else [groups[0]]) + NamedEntries(groups[1..])
  }

  /** Splitting the entries into the two kinds loses and adds nothing. */
  lemma {:induction false} SplitPermutes(groups: Groups)
    ensures multiset(IndexEntries(groups)) + multiset(NamedEntries(groups)) == multiset(groups)
  {
    if groups != [] {
      var rest := groups[1..];
      SplitPermutes(rest);
      assert groups == [groups[0]] + rest;
      assert multiset(groups) == multiset{groups[0]} + multiset(rest);
      if IsArrayIndex(groups[0].0) {
        assert IndexEntries(groups) == [groups[0]] + IndexEntries(rest);
        assert NamedEntries(groups) == NamedEntries(rest);
      } else {
        assert IndexEntries(groups) == IndexEntries(rest);
        assert NamedEntries(groups) == [groups[0]] + NamedEntries(rest);
      }
    }
  }

  /** An object without index keys has only named entries. */
  lemma {:induction false} NoIndexKeys(groups: Groups)
    ensures (forall i :: 0 <= i < |groups| ==> !IsArrayIndex(groups[i].0)) ==>
      IndexEntries(groups) == [] && NamedEntries(groups) == groups
  {
    if groups != [] && forall i :: 0 <= i < |groups| ==> !IsArrayIndex(groups[i].0) {
      var rest := groups[1..];
      forall i | 0 <= i < |rest|
        ensures !IsArrayIndex(rest[i].0)
      {
        assert rest[i] == groups[i + 1];
      }
      NoIndexKeys(rest);
      assert !IsArrayIndex(groups[0].0);
      assert IndexEntries(groups) == [] + IndexEntries(rest);
      assert NamedEntries(groups) == [groups[0]] + NamedEntries(rest);
      assert groups == [groups[0]] + rest;
    }
  }

  /** The index entries in ascending numeric order. */
  function SortByIndex(groups: Groups): (r: Groups)
    requires AllIndices(groups)
    ensures multiset(r) == multiset(groups) && |r| == |groups|
    ensures AllIndices(r) && AscendingBy(r, IndexValue)
  {
    var r := SortBy(groups, IndexValue);
    assert |r| == |multiset(r)| == |multiset(groups)| == |groups|;
    assert forall i :: 0 <= i < |r| ==> r[i] in multiset(groups);
    r
  }

  /** `Object.entries` of the grouping object: the index entries in
      ascending numeric order, then the others in creation order. It lists
      every entry once, and lists them in creation order when no key is an
      array index. */
  function Displayed(groups: Groups): (r: Groups)
    ensures multiset(r) == multiset(groups)
    ensures AllIndices(r[..|IndexEntries(groups)|]) && AscendingBy(r[..|IndexEntries(groups)|], IndexValue)
    ensures r[|IndexEntries(groups)|..] == NamedEntries(groups)
    ensures (forall i :: 0 <= i < |groups| ==> !IsArrayIndex(groups[i].0)) ==> r == groups
  {
    SplitPermutes(groups);
    NoIndexKeys(groups);
    var sorted := SortByIndex(IndexEntries(groups));
    assert |sorted| == |IndexEntries(groups)|;
    var r := sorted + NamedEntries(groups);
    assert r[..|sorted|] == sorted && r[|sorted|..] == NamedEntries(groups);
    r
  }

  /** A listing with the same multiset of entries holds the same entries. */
  lemma SameEntries(listed: Groups, groups: Groups)
    requires multiset(listed) == multiset(groups)
    ensures |listed| == |groups|
    ensures forall i :: 0 <= i < |listed| ==> listed[i] in groups
    ensures forall j :: 0 <= j < |groups| ==> groups[j] in listed
  {
    assert |listed| == |multiset(listed)| == |multiset(groups)| == |groups|;
    forall i | 0 <= i < |listed|
      ensures listed[i] in groups
    {
      assert listed[i] in multiset(groups);
    }
    forall j | 0 <= j < |groups|
      ensures groups[j] in listed
    {
      assert groups[j] in multiset(listed);
    }
  }

  /** The chips as rendered, in `Object.entries` order. */
  function Chips(reactions: seq<Reaction>): Groups
  {
    Displayed(Grouping(reactions))
  }

  /** One chip per distinct emoji, each holding exactly that emoji's group. */
  lemma ChipsAreGroups(reactions: seq<Reaction>)
    ensures var r := Chips(reactions);
      |r| == |EmojisOf(reactions)|
      && (forall i :: 0 <= i < |r| ==> r[i].0 in EmojisOf(reactions) && r[i].1 == GroupOf(reactions, r[i].0))
      && (forall e :: e in EmojisOf(reactions) ==> exists i :: 0 <= i < |r| && r[i].0 == e)
  {
    var g := Grouping(reactions);
    var r := Displayed(g);
    SameEntries(r, g);
    forall e | e in EmojisOf(reactions)
      ensures exists i :: 0 <= i < |r| && r[i].0 == e
    {
      var j := EmojiIndex(reactions, e);
      assert g[j] in r;
    }
  }

  /** Without an emoji that is an array index, the chips follow the order in
      which the emojis first appear. */
  lemma ChipsInCreationOrder(reactions: seq<Reaction>)
    requires forall e :: e in EmojisOf(reactions) ==> !IsArrayIndex(e)
    ensures Chips(reactions) == Grouping(reactions)
  {
    var g := Grouping(reactions);
    assert forall i :: 0 <= i < |g| ==> g[i].0 == EmojisOf(reactions)[i];
  }

  /** How a named entry and a later index entry are split. */
  lemma SplitPair(x: (string, seq<Reaction>), y: (string, seq<Reaction>))
    requires !IsArrayIndex(x.0) && IsArrayIndex(y.0)
    ensures IndexEntries([x, y]) == [y] && NamedEntries([x, y]) == [x]
  {
    var g := [x, y];
    assert g[1..] == [y] && g[1..][1..] == [];
    assert IndexEntries(g[1..]) == [y] + [] && NamedEntries(g[1..]) == [] + [];
  }

  /** A named entry created before an index entry is listed after it. */
  lemma DisplayedPair(x: (string, seq<Reaction>), y: (string, seq<Reaction>))
    requires !IsArrayIndex(x.0) && IsArrayIndex(y.0)
    ensures Displayed([x, y]) == [y, x]
  {
    SplitPair(x, y);
    var sorted := SortByIndex([y]);
    assert |sorted| == 1 && sorted[0] in multiset(sorted);
    assert sorted == [y];
  }
}
