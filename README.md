# youtube-data fetcher, modelled in Dafny

`YouTubeFetcher.FetchVideos(channelID, page)` returns page `page` (1-based)
of a YouTube channel's uploaded videos. It first looks up the channel's
uploads playlist. It then walks the playlist's pages by presenting each
reply's continuation token to the next "list playlist items" request:
`page - 1` skip requests, then one request for the wanted page. It maps that
page's items to `VideoPost` records, which carry derived embed and watch
URLs, and sets `HasMore` when the platform reported a further page.

The model has four modules:

- `Upstream` (`upstream.dfy`): the API client as a deterministic
  collaborator. `Service` holds two total functions: the channel lookup
  (an error, or the uploads-playlist id of each channel item returned) and
  the playlist page lookup by playlist id and page token (an error, or the
  items with the next page token). `Request` is one entry of the call log.
- `Posts` (`posts.dfy`): `VideoPost`, `Response`, and the pure per-item
  mapping `MapItem` / `MapItems`, with lemmas on order and on the URLs.
- `Fetcher` (`fetcher.dfy`): the error kinds and `Fetch`, the reference
  definition of one call, which gives the result and the log of requests.
  It builds on `SkipWalk`, the skip loop as a function that accumulates the
  tokens it requested. `FetchVideos` is the imperative procedure: the
  skip loop is a `while` loop that overwrites `nextPageToken`, and the
  range loop appends to the posts (`AppendPosts`). It returns the call log
  as a ghost out-parameter and is proved equal to `Fetch`.
- `FetchProperties` (`fetch_properties.dfy`): what a call promises, proved
  about `Fetch`. This covers the error cases, the requests made and the
  order of the page tokens, and the response built from the last reply.

The fetcher's receiver holds the API key and the client. Only the client
is used, and it becomes the `service` parameter. Errors are kinds:

- `InvalidArgument`;
- `UpstreamError(stage, cause)`: the stage tells the channel lookup from a
  playlist request (they carry different messages), and `cause` is the
  wrapped upstream message;
- `NotFound`;
- `OutOfRange(page)`.

## Model

| member | source | states |
|---|---|---|
| `Posts.MapItem` | main.go:93-100 | a post carries its item's video id and title, and its embed and watch URLs are the fixed embed and watch prefixes followed by that id |
| `Posts.MapItems` | main.go:92-102 | one post per item, in item order: post i has item i's id and title and links to its own id |
| `Posts.MapItemsDistributes` | main.go:92-102 | mapping keeps order: mapping a concatenation is the concatenation of the mapped parts |
| `Posts.MapItemsAt` | main.go:92-102 | post i of a page is exactly the post for item i |
| `Posts.UrlsYieldId` | main.go:98-99 | the video id is recovered from either URL by removing its prefix |
| `Posts.UrlsAreInjective` | main.go:98-99 | two items share a watch URL, or an embed URL, if and only if they share a video id |
| `Fetcher.SkipWalk` | main.go:64-79 | the skip loop as a function: it keeps the tokens already requested as a prefix of its token log, and adds at most `skips` more (its full meaning is stated by `SkipWalkFollowsTokens` and `WalkFollowsChain`) |
| `Fetcher.SkipWalkFollowsTokens` | main.go:64-79 | the skip walk requests the start token first and presents each reply's continuation token next; it stops at the first error or empty token, and reaches the target token only after all skips succeeded with non-empty tokens |
| `Fetcher.Fetch` | main.go:41-105 | a page below one makes no request; otherwise the channel lookup comes first, and at most `page + 1` requests are made |
| `Fetcher.FetchFromPlaylist` | main.go:57-105 | once the channel has resolved, the lookup is followed by at least one and at most `page` requests, every one of them a playlist request on `playlistId` |
| `Fetcher.AppendPosts` | main.go:92-102 | the range loop appends exactly the mapped items, in order, to the posts already there |
| `Fetcher.FetchVideos` | main.go:41-106 | the procedure returns the result of `Fetch`, and its call log is the request sequence of `Fetch` |
| `FetchProperties.WalkFollowsChain` | main.go:64-79 | along any chain of continuation tokens, the walk requests exactly those tokens, in order |
| `FetchProperties.InvalidPageIsRejectedFirst` | main.go:42-44 | the result is InvalidArgument if and only if page < 1, and no request is made if and only if page < 1 |
| `FetchProperties.ChannelLookupDecidesChannelErrors` | main.go:47-55 | NotFound if and only if the lookup returned zero items; a channel-stage upstream error with cause c if and only if the lookup failed with c; in both cases the lookup is the only request |
| `FetchProperties.PlaylistRequestsUseUploads` | main.go:57-86 | every request after the lookup is a playlist request on the first channel item's uploads playlist |
| `FetchProperties.OnlyTheLastRequestFails` | main.go:47-89 | every request except the last got a reply; the result is an upstream error if and only if the last request failed, and it carries that failure's cause |
| `FetchProperties.SuccessWalksEveryPage` | main.go:64-105 | success means exactly `page` playlist requests: the first uses the empty token, each later one uses the non-empty continuation token of the previous reply, posts map the last reply's items, and `hasMore` holds if and only if that reply's token is non-empty |
| `FetchProperties.OutOfRangeMeansTokensRanOut` | main.go:65-78 | OutOfRange carries the requested page and happens only when one of the `page - 1` skip replies (the last included) had an empty token; requests stop there |
| `FetchProperties.ChainDecidesFetch` | main.go:64-105 | conversely, along the token chain from the empty token: an empty token on a skip reply gives OutOfRange, an error gives an upstream error, and reaching the `page`-th reply gives the response built from it |
| `FetchProperties.FirstPageExample` | main.go:41-105 | page one of a one-page channel with two videos: both posts, `hasMore` false, two requests |
| `FetchProperties.BeyondLastPageExample` | main.go:65-78 | page three when the second skip reply has no token: OutOfRange(3) after three requests |

## Left out

- `NewYouTubeFetcher` and the `apiKey` / `service` fields (main.go:23-39) are not modelled. They build the Google API client, a foreign library call with nothing to state. The client becomes the `service` parameter.
- The request builders and `.Do()` (HTTP transport, JSON decoding) are not modelled. They are replaced by the two functions of `Service`. `MaxResults(50)` and the facet names (`contentDetails`, `snippet`) only matter to the server and are not recorded in the call log.
- The upstream is deterministic: two identical requests in one call get the same reply. The real service could answer differently over time, for example while a playlist changes.
- The exact `fmt.Errorf` texts are not modelled. Errors are kinds, and `%v` wrapping is modelled by carrying the upstream cause string.
- A nil-pointer panic is not modelled. It could happen if a channel item had no content details, or a playlist item no snippet or resource id. The model assumes every item carries the fields its facet promises.
- The JSON struct tags of `VideoPost` and `Response` (main.go:11-21) are not modelled: serialisation is out of scope.
- Go's `int` is 64-bit and Dafny's `int` is unbounded. This makes no difference here, because the loop counter stays below `page`.
- `context.Background()` is not modelled: the fetcher has no cancellation, and `context.Background()` is used only in `NewYouTubeFetcher`.
- The call log returned by `FetchVideos` is ghost: the source keeps no such log.
- The range loop over the final page's items is its own method, `AppendPosts`, called where the loop stands. Its loop and effect are the same.
- On the boundary check in the skip loop, the model follows the code. Any skip reply with an empty continuation token gives OutOfRange, including the reply to the last skip request. So asking for the page just past the last one is OutOfRange, and so is every page beyond it.
