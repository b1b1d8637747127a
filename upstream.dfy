/**
 * The video platform's API client, as the fetcher sees it: two deterministic
 * request/reply capabilities. Transport, authentication and JSON decoding are
 * behind these functions; only the fields the fetcher reads are kept.
 */
module Upstream {

  /** One playlist item: the snippet's resource video id and its title. */
  datatype PlaylistItem = PlaylistItem(videoId: string, title: string)

  /** Reply to a channel lookup requesting the content-details facet. */
  datatype ChannelsReply =
    | ChannelsFailed(cause: string)
      /** One uploads-playlist id per channel item returned, in returned order. */
    | Channels(uploads: seq<string>)

  /** Reply to a "list playlist items" request. */
  datatype ItemsReply =
    | ItemsFailed(cause: string)
    | ItemsPage(items: seq<PlaylistItem>, nextPageToken: string)

  /** A request the fetcher issues, as recorded in its call log. */
  datatype Request =
    | ChannelsList(channelId: string)
    | PlaylistItemsList(playlistId: string, pageToken: string)

  /**
   * The collaborator: a channel lookup by channel id, and a playlist page
   * lookup by playlist id and continuation token ("" asks for the first page).
   */
  datatype Service = Service(
    channels: string -> ChannelsReply,
    playlistItems: (string, string) -> ItemsReply)

  /** The reply the service gives to `req` is an error carrying `cause`. */
  predicate FailsWith(service: Service, req: Request, cause: string)
  {
    match req
    case ChannelsList(id) => service.channels(id) == ChannelsFailed(cause)
    case PlaylistItemsList(pl, token) => service.playlistItems(pl, token) == ItemsFailed(cause)
  }

  /** The reply the service gives to `req` is an error. */
  predicate Fails(service: Service, req: Request)
  {
    match req
    case ChannelsList(id) => service.channels(id).ChannelsFailed?
    case PlaylistItemsList(pl, token) => service.playlistItems(pl, token).ItemsFailed?
  }

  /** The page behind `token` exists and continues at the non-empty token `next`. */
  predicate Continues(list: (string, string) -> ItemsReply, playlistId: string, token: string, next: string)
  {
    list(playlistId, token).ItemsPage? && list(playlistId, token).nextPageToken == next && next != ""
  }

  /** Each token in `tokens` is the continuation token of the page before it. */
  predicate Chained(list: (string, string) -> ItemsReply, playlistId: string, tokens: seq<string>)
  {
    forall k :: 0 <= k < |tokens| - 1 ==> Continues(list, playlistId, tokens[k], tokens[k + 1])
  }

  /** The playlist requests for `tokens`, in order. */
  function ItemsRequests(playlistId: string, tokens: seq<string>): seq<Request>
  {
    seq(|tokens|, k requires 0 <= k < |tokens| => PlaylistItemsList(playlistId, tokens[k]))
  }

  /** Requesting one more token appends its request to the log. */
  lemma ItemsRequestsAppend(playlistId: string, tokens: seq<string>, token: string)
    ensures ItemsRequests(playlistId, tokens + [token]) == ItemsRequests(playlistId, tokens) + [PlaylistItemsList(playlistId, token)]
  {
  }
}
