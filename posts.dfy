/**
 * The fetcher's output records and the mapping of playlist items into them.
 */
module Posts {
  import opened Upstream

  const EmbedPrefix := "https://www.youtube.com/embed/"
  const WatchPrefix := "https://www.youtube.com/watch?v="

  /** A normalised video summary. */
  datatype VideoPost = VideoPost(id: string, title: string, embedUrl: string, url: string)

  /** One page of posts, and whether the platform reported a page after it. */
  datatype Response = Response(posts: seq<VideoPost>, hasMore: bool)

  /** The derived URLs of `p` are the embed and watch links of its own id. */
  predicate LinksToOwnId(p: VideoPost)
  {
    p.embedUrl == EmbedPrefix + p.id && p.url == WatchPrefix + p.id
  }

  /** The post for one playlist item. */
  function MapItem(item: PlaylistItem): (p: VideoPost)
    ensures p.id == item.videoId && p.title == item.title
    ensures LinksToOwnId(p)
  {
    VideoPost(item.videoId, item.title, EmbedPrefix + item.videoId, WatchPrefix + item.videoId)
  }

  /** The posts for a page of items, one per item, in the items' order. */
  function MapItems(items: seq<PlaylistItem>): (posts: seq<VideoPost>)
    ensures |posts| == |items|
    ensures forall i :: 0 <= i < |items| ==>
      posts[i].id == items[i].videoId && posts[i].title == items[i].title && LinksToOwnId(posts[i])
  {
    if items == [] then [] else [MapItem(items[0])] + MapItems(items[1..])
  }

  /** Mapping a concatenation maps each part and keeps them in order. */
  lemma MapItemsDistributes(a: seq<PlaylistItem>, b: seq<PlaylistItem>)
    ensures MapItems(a + b) == MapItems(a) + MapItems(b)
  {
  }

  /** Each post of a page is exactly the post of the item at the same position. */
  lemma MapItemsAt(items: seq<PlaylistItem>, i: nat)
    requires i < |items|
    ensures MapItems(items)[i] == MapItem(items[i])
  {
  }

  /** The id is recovered from either URL by dropping the fixed prefix. */
  lemma UrlsYieldId(p: VideoPost)
    requires LinksToOwnId(p)
    ensures |p.url| >= |WatchPrefix| && p.url[..|WatchPrefix|] == WatchPrefix && p.url[|WatchPrefix|..] == p.id
    ensures |p.embedUrl| >= |EmbedPrefix| && p.embedUrl[..|EmbedPrefix|] == EmbedPrefix && p.embedUrl[|EmbedPrefix|..] == p.id
  {
  }

  /** Two items get the same watch URL, or the same embed URL, exactly when they share a video id. */
  lemma UrlsAreInjective(a: PlaylistItem, b: PlaylistItem)
    ensures MapItem(a).url == MapItem(b).url <==> a.videoId == b.videoId
    ensures MapItem(a).embedUrl == MapItem(b).embedUrl <==> a.videoId == b.videoId
  {
    UrlsYieldId(MapItem(a));
    UrlsYieldId(MapItem(b));
  }
}
