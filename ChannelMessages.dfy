/** The `useChannelMessages` hook: each message delivered for a channel is
    appended to the cached first page of that channel's parent messages. The
    cache of the query client is modelled as a map from query keys to pages. */
module ChannelMessages {
  import opened Common
  import opened FrontendTypes

  /** A page of messages as the backend returns it (Spring's `Page` shape). */
  datatype Page = Page(content: seq<Message>, totalPages: int, totalElements: int, size: int, number: int)

  type QueryCache = map<seq<string>, Page>

  /** The query key `['messages', channelId, 'parents']`. */
  function ParentsKey(channelId: string): seq<string>
  {
    ["messages", channelId, "parents"]
  }

  lemma ParentsKeyInjective(a: string, b: string)
    ensures ParentsKey(a) == ParentsKey(b) <==> a == b
  {
    if ParentsKey(a) == ParentsKey(b) {
      assert ParentsKey(a)[1] == ParentsKey(b)[1];
    }
  }

  /** The updater passed to `setQueryData`. */
  function AppendMessage(cached: Option<Page>, message: Message): (r: Page)
    ensures cached.None? ==> r == Page([message], 1, 1, 20, 0)
    ensures cached.Some? ==>
      r.content == cached.value.content + [message]
      && r.totalElements == cached.value.totalElements + 1
      && r.totalPages == cached.value.totalPages && r.size == cached.value.size && r.number == cached.value.number
  {
    match cached
    case None => Page([message], 1, 1, 20, 0)
    case Some(page) => page.(content := page.content + [message], totalElements := page.totalElements + 1)
  }

  /** `handleMessage`: the cache after a message arrives for `channelId`. */
  function HandleMessage(cache: QueryCache, channelId: string, message: Message): (r: QueryCache)
    ensures r.Keys == cache.Keys + {ParentsKey(channelId)}
    ensures r[ParentsKey(channelId)] == AppendMessage(if ParentsKey(channelId) in cache then Some(cache[ParentsKey(channelId)]) else None, message)
    ensures forall k :: k in cache && k != ParentsKey(channelId) ==> r[k] == cache[k]
  {
    var key := ParentsKey(channelId);
    cache[key := AppendMessage(if key in cache then Some(cache[key]) else None, message)]
  }

  /** Another channel's entry is never touched. */
  lemma OtherChannelUntouched(cache: QueryCache, channelId: string, other: string, message: Message)
    requires other != channelId && ParentsKey(other) in cache
    ensures HandleMessage(cache, channelId, message)[ParentsKey(other)] == cache[ParentsKey(other)]
  {
    ParentsKeyInjective(other, channelId);
  }

  /** No dedup and no sort: the same message delivered twice sits twice at
      the end of the page, after everything that was there. */
  lemma DeliveredTwiceAppearsTwice(cache: QueryCache, channelId: string, message: Message)
    requires ParentsKey(channelId) in cache
    ensures var after := HandleMessage(HandleMessage(cache, channelId, message), channelId, message);
            after[ParentsKey(channelId)].content == cache[ParentsKey(channelId)].content + [message, message]
            && multiset(after[ParentsKey(channelId)].content)[message] == multiset(cache[ParentsKey(channelId)].content)[message] + 2
            && after[ParentsKey(channelId)].totalElements == cache[ParentsKey(channelId)].totalElements + 2
  {
    var key := ParentsKey(channelId);
    var before := cache[key].content;
    assert before + [message] + [message] == before + [message, message];
  }

  /** The subscription's `enabled` flag: `enabled && !!channelId`. */
  function SubscriptionEnabled(enabled: bool, channelId: string): (r: bool)
    ensures r ==> channelId != ""
    ensures enabled && channelId != "" ==> r
  {
    enabled && channelId != ""
  }
}
