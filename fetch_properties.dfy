/**
 * What one FetchVideos call promises, stated over the reference definition
 * `Fetch` (which FetchVideos is proved equal to): the error cases, the
 * requests issued and the order of the page tokens, and the response built
 * from the last page.
 */
module FetchProperties {
  import opened Upstream
  import opened Posts
  import opened Fetcher

  /** Along a chain of continuation tokens the walk takes exactly those tokens. */
  lemma {:induction false} WalkFollowsChain(list: (string, string) -> ItemsReply, playlistId: string, tokens: seq<string>, skips: nat, used: seq<string>)
    requires 1 <= |tokens| <= skips + 1
    requires Chained(list, playlistId, tokens)
    ensures SkipWalk(list, playlistId, tokens[0], skips, used) ==
      SkipWalk(list, playlistId, tokens[|tokens| - 1], skips - (|tokens| - 1), used + tokens[..|tokens| - 1])
    decreases |tokens|
  {
    if |tokens| == 1 {
      assert used + tokens[..0] == used;
    } else {
      assert Continues(list, playlistId, tokens[0], tokens[1]);
      var rest := tokens[1..];
      forall k | 0 <= k < |rest| - 1
        ensures Continues(list, playlistId, rest[k], rest[k + 1])
      {
        assert Continues(list, playlistId, tokens[k + 1], tokens[k + 2]);
      }
      WalkFollowsChain(list, playlistId, rest, skips - 1, used + [tokens[0]]);
      assert (used + [tokens[0]]) + rest[..|rest| - 1] == used + tokens[..|tokens| - 1];
    }
  }

  /** A page number below one is rejected, and only then, before any request is made. */
  lemma InvalidPageIsRejectedFirst(service: Service, channelId: string, page: int)
    ensures Fetch(service, channelId, page).result == Failure(InvalidArgument) <==> page < 1
    ensures Fetch(service, channelId, page).requests == [] <==> page < 1
  {
  }

  /**
   * The channel lookup decides the two channel errors: a lookup error becomes
   * an upstream error carrying its cause, and a lookup with no items becomes
   * NotFound; either way the lookup is the only request made.
   */
  lemma ChannelLookupDecidesChannelErrors(service: Service, channelId: string, page: int)
    requires page >= 1
    ensures Fetch(service, channelId, page).result == Failure(NotFound) <==> service.channels(channelId) == Channels([])
    ensures forall cause :: Fetch(service, channelId, page).result == Failure(UpstreamError(ChannelDetails, cause)) <==>
      service.channels(channelId) == ChannelsFailed(cause)
    ensures !(service.channels(channelId).Channels? && |service.channels(channelId).uploads| > 0) ==>
      Fetch(service, channelId, page).requests == [ChannelsList(channelId)]
  {
  }

  /** After the lookup, every request lists items of the channel's first uploads playlist. */
  lemma PlaylistRequestsUseUploads(service: Service, channelId: string, page: int)
    ensures var requests := Fetch(service, channelId, page).requests;
      |requests| > 1 ==>
        service.channels(channelId).Channels? && |service.channels(channelId).uploads| > 0 &&
        forall k :: 1 <= k < |requests| ==>
          requests[k].PlaylistItemsList? && requests[k].playlistId == service.channels(channelId).uploads[0]
  {
  }

  /**
   * An upstream error aborts the call: every request but the last got a
   * reply, and the result is an upstream error exactly when the last request
   * failed, carrying that failure's cause.
   */
  lemma OnlyTheLastRequestFails(service: Service, channelId: string, page: int)
    ensures var run := Fetch(service, channelId, page);
      forall k :: 0 <= k < |run.requests| - 1 ==> !Fails(service, run.requests[k])
    ensures var run := Fetch(service, channelId, page);
      (run.result.Failure? && run.result.error.UpstreamError?) <==>
        (|run.requests| > 0 && Fails(service, run.requests[|run.requests| - 1]))
    ensures var run := Fetch(service, channelId, page);
      run.result.Failure? && run.result.error.UpstreamError? ==>
        FailsWith(service, run.requests[|run.requests| - 1], run.result.error.cause)
  {
    var run := Fetch(service, channelId, page);
    if page >= 1 && service.channels(channelId).Channels? && |service.channels(channelId).uploads| > 0 {
      var list := service.playlistItems;
      var pl := service.channels(channelId).uploads[0];
      var walk := SkipWalk(list, pl, "", page - 1, []);
      SkipWalkFollowsTokens(list, pl, "", page - 1, []);
      var n := |walk.tokens|;
      assert !Fails(service, run.requests[0]);
      forall k | 1 <= k < 1 + n - 1
        ensures !Fails(service, run.requests[k])
      {
        assert run.requests[k] == PlaylistItemsList(pl, walk.tokens[k - 1]);
        assert Continues(list, pl, walk.tokens[k - 1], walk.tokens[k]);
      }
      if walk.status.Reached? {
        assert |run.requests| == n + 2;
        if n > 0 {
          assert run.requests[n] == PlaylistItemsList(pl, walk.tokens[n - 1]);
          assert Continues(list, pl, walk.tokens[n - 1], walk.status.token);
        }
        assert run.requests[n + 1] == PlaylistItemsList(pl, walk.status.token);
      } else {
        assert |run.requests| == n + 1;
        assert run.requests[n] == PlaylistItemsList(pl, walk.tokens[n - 1]);
      }
    }
  }

  /**
   * A successful fetch made the lookup and then exactly `page` playlist
   * requests: the first with the empty token, each later one with the
   * non-empty continuation token of the reply before it. The response holds
   * the last reply's items as posts, and `hasMore` says whether that reply
   * carried a continuation token.
   */
  lemma SuccessWalksEveryPage(service: Service, channelId: string, page: int) returns (playlistId: string, tokens: seq<string>)
    requires Fetch(service, channelId, page).result.Success?
    ensures page >= 1
    ensures service.channels(channelId).Channels? && |service.channels(channelId).uploads| > 0
    ensures playlistId == service.channels(channelId).uploads[0]
    ensures Fetch(service, channelId, page).requests == [ChannelsList(channelId)] + ItemsRequests(playlistId, tokens)
    ensures |tokens| == page && tokens[0] == ""
    ensures Chained(service.playlistItems, playlistId, tokens)
    ensures var last := service.playlistItems(playlistId, tokens[page - 1]);
      last.ItemsPage? &&
      Fetch(service, channelId, page).result.value == Response(MapItems(last.items), last.nextPageToken != "")
  {
    var list := service.playlistItems;
    playlistId := service.channels(channelId).uploads[0];
    var walk := SkipWalk(list, playlistId, "", page - 1, []);
    SkipWalkFollowsTokens(list, playlistId, "", page - 1, []);
    var token := walk.status.token;
    tokens := walk.tokens + [token];
    ItemsRequestsAppend(playlistId, walk.tokens, token);
    forall k | 0 <= k < |tokens| - 1
      ensures Continues(list, playlistId, tokens[k], tokens[k + 1])
    {
      if k < |walk.tokens| - 1 {
        assert Continues(list, playlistId, walk.tokens[k], walk.tokens[k + 1]);
      }
    }
  }

  /**
   * Page `page` is out of range only when a skip request (one of the first
   * `page - 1`, the last of them included) got a reply with an empty
   * continuation token; the requests stop there.
   */
  lemma OutOfRangeMeansTokensRanOut(service: Service, channelId: string, page: int) returns (playlistId: string, tokens: seq<string>)
    requires Fetch(service, channelId, page).result.Failure?
    requires Fetch(service, channelId, page).result.error.OutOfRange?
    ensures Fetch(service, channelId, page).result.error.page == page
    ensures service.channels(channelId).Channels? && |service.channels(channelId).uploads| > 0
    ensures playlistId == service.channels(channelId).uploads[0]
    ensures Fetch(service, channelId, page).requests == [ChannelsList(channelId)] + ItemsRequests(playlistId, tokens)
    ensures 1 <= |tokens| <= page - 1 && tokens[0] == ""
    ensures Chained(service.playlistItems, playlistId, tokens)
    ensures var last := service.playlistItems(playlistId, tokens[|tokens| - 1]);
      last.ItemsPage? && last.nextPageToken == ""
  {
    playlistId := service.channels(channelId).uploads[0];
    SkipWalkFollowsTokens(service.playlistItems, playlistId, "", page - 1, []);
    tokens := SkipWalk(service.playlistItems, playlistId, "", page - 1, []).tokens;
  }

  /**
   * Conversely, the chain of pages decides the outcome: once the channel
   * resolves, following continuation tokens from the empty one, an empty
   * token on a skip reply gives OutOfRange, an error gives an upstream error,
   * and a `page`-th reply gives the response built from it.
   */
  lemma ChainDecidesFetch(service: Service, channelId: string, page: int, tokens: seq<string>)
    requires page >= 1
    requires service.channels(channelId).Channels? && |service.channels(channelId).uploads| > 0
    requires 1 <= |tokens| <= page && tokens[0] == ""
    requires Chained(service.playlistItems, service.channels(channelId).uploads[0], tokens)
    ensures var pl := service.channels(channelId).uploads[0];
      var last := service.playlistItems(pl, tokens[|tokens| - 1]);
      var run := Fetch(service, channelId, page);
      && (last.ItemsFailed? ==>
            run.result == Failure(UpstreamError(PlaylistItems, last.cause)) &&
            run.requests == [ChannelsList(channelId)] + ItemsRequests(pl, tokens))
      && (|tokens| < page && last.ItemsPage? && last.nextPageToken == "" ==>
            run.result == Failure(OutOfRange(page)) &&
            run.requests == [ChannelsList(channelId)] + ItemsRequests(pl, tokens))
      && (|tokens| == page && last.ItemsPage? ==>
            run.result == Success(Response(MapItems(last.items), last.nextPageToken != "")) &&
            run.requests == [ChannelsList(channelId)] + ItemsRequests(pl, tokens))
  {
    var list := service.playlistItems;
    var pl := service.channels(channelId).uploads[0];
    var n := |tokens|;
    WalkFollowsChain(list, pl, tokens, page - 1, []);
    assert [] + tokens[..n - 1] == tokens[..n - 1];
    assert tokens[..n - 1] + [tokens[n - 1]] == tokens;
    ItemsRequestsAppend(pl, tokens[..n - 1], tokens[n - 1]);
  }

  /** A channel "UCabc" whose uploads playlist "PLxyz" holds a single page of two videos. */
  function OnePageChannel(): Service
  {
    Service(
      c => if c == "UCabc" then Channels(["PLxyz"]) else Channels([]),
      (pl, t) => if pl == "PLxyz" && t == "" then
                   ItemsPage([PlaylistItem("a1", "first"), PlaylistItem("a2", "second")], "")
                 else ItemsFailed("unexpected request"))
  }

  /** Page one of that channel: both videos, nothing more, after two requests. */
  lemma FirstPageExample()
    ensures Fetch(OnePageChannel(), "UCabc", 1) == Run(
      Success(Response([MapItem(PlaylistItem("a1", "first")), MapItem(PlaylistItem("a2", "second"))], false)),
      [ChannelsList("UCabc"), PlaylistItemsList("PLxyz", "")])
  {
    var service := OnePageChannel();
    var items := [PlaylistItem("a1", "first"), PlaylistItem("a2", "second")];
    assert service.channels("UCabc") == Channels(["PLxyz"]);
    assert service.playlistItems("PLxyz", "") == ItemsPage(items, "");
    assert SkipWalk(service.playlistItems, "PLxyz", "", 0, []) == Walk(Reached(""), []);
    assert ItemsRequests("PLxyz", []) == [];
    assert MapItems(items) == [MapItem(items[0])] + MapItems(items[1..]);
    assert MapItems(items[1..]) == [MapItem(items[1])] + MapItems(items[2..]);
    assert items[2..] == [];
    assert MapItems(items) == [MapItem(items[0]), MapItem(items[1])];
    assert FetchFromPlaylist(service.playlistItems, "UCabc", "PLxyz", 1).result == Success(Response(MapItems(items), false));
  }

  /** Page three when the second skip reply has no continuation token. */
  lemma BeyondLastPageExample()
    ensures var service := Service(
        c => Channels(["PLxyz"]),
        (pl, t) => if t == "" then ItemsPage([], "T1") else ItemsPage([], ""));
      Fetch(service, "UCabc", 3) == Run(
        Failure(OutOfRange(3)),
        [ChannelsList("UCabc"), PlaylistItemsList("PLxyz", ""), PlaylistItemsList("PLxyz", "T1")])
  {
  }
}
