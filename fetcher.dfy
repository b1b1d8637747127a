/**
 * FetchVideos: resolve a channel's uploads playlist, walk its pages by
 * continuation token up to the requested 1-based page, and map that page's
 * items into posts.
 *
 * `Fetch` is the reference definition of one call: its result and the log of
 * requests it issues. `FetchVideos` is the imperative procedure, proved equal
 * to it; the lemmas state what the reference promises.
 */
module Fetcher {
  import opened Upstream
  import opened Posts

  /** Which upstream call failed; the two carry different messages. */
  datatype Stage = ChannelDetails | PlaylistItems

  datatype FetchError =
    | InvalidArgument            // "page number must be greater than 0"
    | UpstreamError(stage: Stage, cause: string)
    | NotFound                   // "channel not found"
    | OutOfRange(page: int)      // "page %d is beyond the available results"

  datatype Result<T> = Success(value: T) | Failure(error: FetchError)

  /** One call of FetchVideos: what it returns and the requests it issued, in order. */
  datatype Run = Run(result: Result<Response>, requests: seq<Request>)

  /** Where the skip calls left the walk. */
  datatype WalkStatus =
    | Reached(token: string)     // every skip succeeded; `token` asks for the target page
    | WalkFailed(cause: string)  // a skip call returned an error
    | Exhausted                  // a skip call returned an empty continuation token

  /** The walk's outcome and the page tokens it requested, in order. */
  datatype Walk = Walk(status: WalkStatus, tokens: seq<string>)

  /**
   * Up to `skips` skip calls on `playlistId`, starting from `token`, each
   * presenting the previous reply's continuation token; `used` holds the
   * tokens already requested and the walk appends to it.
   */
  function SkipWalk(list: (string, string) -> ItemsReply, playlistId: string, token: string, skips: nat, used: seq<string>): (w: Walk)
    ensures |used| <= |w.tokens| <= |used| + skips && w.tokens[..|used|] == used
    decreases skips
  {
    if skips == 0 then Walk(Reached(token), used)
    else
      match list(playlistId, token)
      case ItemsFailed(cause) => Walk(WalkFailed(cause), used + [token])
      case ItemsPage(_, next) =>
        if next == "" then Walk(Exhausted, used + [token])
        else SkipWalk(list, playlistId, next, skips - 1, used + [token])
  }

  /**
   * The walk keeps the tokens already used, requests `token` first, presents
   * each reply's continuation token to the next call, and stops at the first
   * call that fails or whose reply has an empty continuation token; it reaches
   * the target only after all `skips` calls succeeded with a non-empty token.
   */
  lemma {:induction false} SkipWalkFollowsTokens(list: (string, string) -> ItemsReply, playlistId: string, token: string, skips: nat, used: seq<string>)
    ensures var w := SkipWalk(list, playlistId, token, skips, used);
      && |used| <= |w.tokens| <= |used| + skips
      && w.tokens[..|used|] == used
      && (skips > 0 ==> |w.tokens| > |used| && w.tokens[|used|] == token)
      && (forall k :: |used| <= k < |w.tokens| - 1 ==> Continues(list, playlistId, w.tokens[k], w.tokens[k + 1]))
      && (w.status.Reached? ==>
            |w.tokens| == |used| + skips &&
            (skips == 0 ==> w.status.token == token) &&
            (skips > 0 ==> Continues(list, playlistId, w.tokens[|w.tokens| - 1], w.status.token)))
      && (w.status.WalkFailed? ==>
            |w.tokens| > |used| && list(playlistId, w.tokens[|w.tokens| - 1]) == ItemsFailed(w.status.cause))
      && (w.status.Exhausted? ==>
            |w.tokens| > |used| && list(playlistId, w.tokens[|w.tokens| - 1]).ItemsPage? &&
            list(playlistId, w.tokens[|w.tokens| - 1]).nextPageToken == "")
    decreases skips
  {
    if skips > 0 && list(playlistId, token).ItemsPage? && list(playlistId, token).nextPageToken != "" {
      var next := list(playlistId, token).nextPageToken;
      var used' := used + [token];
      SkipWalkFollowsTokens(list, playlistId, next, skips - 1, used');
      var w := SkipWalk(list, playlistId, token, skips, used);
      assert w == SkipWalk(list, playlistId, next, skips - 1, used');
      assert w.tokens[..|used|] == w.tokens[..|used'|][..|used|];
      if skips - 1 > 0 {
        assert Continues(list, playlistId, w.tokens[|used|], w.tokens[|used| + 1]);
      }
    }
  }

  /** The reference definition of FetchVideos(channelId, page) against `service`. */
  function Fetch(service: Service, channelId: string, page: int): (run: Run)
    ensures page < 1 ==> run.requests == []
    ensures page >= 1 ==> 1 <= |run.requests| <= page + 1 && run.requests[0] == ChannelsList(channelId)
  {
    if page < 1 then Run(Failure(InvalidArgument), [])
    else
      match service.channels(channelId)
      case ChannelsFailed(cause) => Run(Failure(UpstreamError(ChannelDetails, cause)), [ChannelsList(channelId)])
      case Channels(uploads) =>
        if |uploads| == 0 then Run(Failure(NotFound), [ChannelsList(channelId)])
        else FetchFromPlaylist(service.playlistItems, channelId, uploads[0], page)
  }

  /** The part of Fetch after the channel resolved to the uploads playlist `playlistId`. */
  function FetchFromPlaylist(list: (string, string) -> ItemsReply, channelId: string, playlistId: string, page: int): (run: Run)
    requires page >= 1
    ensures 2 <= |run.requests| <= page + 1 && run.requests[0] == ChannelsList(channelId)
    ensures forall k :: 1 <= k < |run.requests| ==> run.requests[k].PlaylistItemsList? && run.requests[k].playlistId == playlistId
  {
    var walk := SkipWalk(list, playlistId, "", page - 1, []);
    SkipWalkFollowsTokens(list, playlistId, "", page - 1, []);
    var skipped := [ChannelsList(channelId)] + ItemsRequests(playlistId, walk.tokens);
    match walk.status
    case WalkFailed(cause) => Run(Failure(UpstreamError(PlaylistItems, cause)), skipped)
    case Exhausted => Run(Failure(OutOfRange(page)), skipped)
    case Reached(token) =>
      var requests := skipped + [PlaylistItemsList(playlistId, token)];
      match list(playlistId, token)
      case ItemsFailed(cause) => Run(Failure(UpstreamError(PlaylistItems, cause)), requests)
      case ItemsPage(items, next) => Run(Success(Response(MapItems(items), next != "")), requests)
  }

  /** The range loop of FetchVideos: appends one post per item, in order. */
  method AppendPosts(posts: seq<VideoPost>, items: seq<PlaylistItem>) returns (posts': seq<VideoPost>)
    ensures posts' == posts + MapItems(items)
  {
    posts' := posts;
    var k := 0;
    while k < |items|
      invariant 0 <= k <= |items|
      invariant posts' == posts + MapItems(items[..k])
    {
      assert items[..k + 1] == items[..k] + [items[k]];
      MapItemsDistributes(items[..k], [items[k]]);
      posts' := posts' + [MapItem(items[k])];
      k := k + 1;
    }
    assert items[..k] == items;
  }

  /**
   * Fetches page `page` (1-based) of the uploads of `channelId`. `requests` is
   * the log of the upstream calls made, in order.
   */
  method FetchVideos(service: Service, channelId: string, page: int)
    returns (res: Result<Response>, ghost requests: seq<Request>)
    ensures res == Fetch(service, channelId, page).result
    ensures requests == Fetch(service, channelId, page).requests
  {
    if page < 1 {
      return Failure(InvalidArgument), [];
    }

    requests := [ChannelsList(channelId)];
    var channelResponse := service.channels(channelId);
    if channelResponse.ChannelsFailed? {
      return Failure(UpstreamError(ChannelDetails, channelResponse.cause)), requests;
    }
    if |channelResponse.uploads| == 0 {
      return Failure(NotFound), requests;
    }

    var uploadsPlaylistId := channelResponse.uploads[0];
    assert Fetch(service, channelId, page) == FetchFromPlaylist(service.playlistItems, channelId, uploadsPlaylistId, page);
    var posts: seq<VideoPost> := [];
    var hasMore := false;

    // Skip calls: walk to the token of the requested page.
    var nextPageToken := "";
    ghost var tokens: seq<string> := [];
    var i := 1;
    while i < page
      invariant 1 <= i <= page
      invariant requests == [ChannelsList(channelId)] + ItemsRequests(uploadsPlaylistId, tokens)
      invariant SkipWalk(service.playlistItems, uploadsPlaylistId, "", page - 1, []) ==
        SkipWalk(service.playlistItems, uploadsPlaylistId, nextPageToken, page - i, tokens)
    {
      ItemsRequestsAppend(uploadsPlaylistId, tokens, nextPageToken);
      requests := requests + [PlaylistItemsList(uploadsPlaylistId, nextPageToken)];
      tokens := tokens + [nextPageToken];
      var tempResponse := service.playlistItems(uploadsPlaylistId, nextPageToken);
      if tempResponse.ItemsFailed? {
        return Failure(UpstreamError(PlaylistItems, tempResponse.cause)), requests;
      }
      nextPageToken := tempResponse.nextPageToken;
      if nextPageToken == "" {
        return Failure(OutOfRange(page)), requests;
      }
      i := i + 1;
    }

    // The requested page.
    requests := requests + [PlaylistItemsList(uploadsPlaylistId, nextPageToken)];
    var playlistResponse := service.playlistItems(uploadsPlaylistId, nextPageToken);
    if playlistResponse.ItemsFailed? {
      return Failure(UpstreamError(PlaylistItems, playlistResponse.cause)), requests;
    }

    posts := AppendPosts(posts, playlistResponse.items);
    assert posts == MapItems(playlistResponse.items);
    hasMore := playlistResponse.nextPageToken != "";
    res := Success(Response(posts, hasMore));
  }
}
