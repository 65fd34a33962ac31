# scrapy_weibo crawl callbacks, modelled in Dafny

This project models the two crawl callbacks of scrapy_weibo. Both spiders read the Sina Weibo API.

- **The repost-tree spider** (`repost_timeline_spider.py`) starts from a post id.
  - It requests the post and maps it into a user item and a post item with `resp_to_item`.
  - It then requests every page of 200 reposts. Each page request carries the same post item: the *source post*.
  - The page callback maps each repost and appends it, in place, to the source post's `reposts` list.
  - The page callback then yields the source post again.
- **The friend-id spider** (`friends_uids_spider.py`) starts from a user id.
  - It requests the user and maps the response into items with a library call.
  - With at least two items, it follows the friend-id cursor from 0.
  - Each batch extends the first item's `friends` list in place.
  - When the cursor comes back as 0, it emits that item.

Files:

- `runtime.dfy` (module `Runtime`): the Python semantics the callbacks depend on.
  - Decoded JSON values.
  - The exceptions that decide a callback's fate: `KeyError`, `TypeError`, `ValueError`, `NameError`.
  - `d[k]`, `k in v`, iteration, a number used in arithmetic, `x != 0`.
  - How a generator callback ends:
    - `Done`: it runs to the end.
    - `Abort`: it raises `CloseSpider`.
    - `Crash`: any other exception escapes it.
- `repost_timeline.dfy` (module `RepostTimeline`): the repost-tree spider.
  - The source post is a class, `SourceWeibo`. Every page request holds a reference to it, and `OnRepostPage` changes its `reposts` field in place.
  - Each callback is a function from its request and response to a `Step`. A `Step` is everything the callback yields, in order, plus how it ends.
  - Each state-changing callback is also a method that is proved equal to that function.
- `friends_uids.dfy` (module `FriendsUids`): the friend-id spider.
  - The user item is a class, `Item`, with a `friends` field.
  - `OnFriendsPage` extends that field in place.

Both callbacks of the repost spider call `resp_to_item`. In the model they take it as a parameter `mapPost`, which the spider fixes to `PostMapper(local2unix)`. Properties of the callbacks are proved for every mapper. `MappedFanOutFields` and `PostFanOut` bring them back to `RespToItem` itself.

## Model

Source paths are relative to the repository root.

| member | source | states |
|---|---|---|
| RepostTimeline.StartRequests | scrapy_weibo/spiders/repost_timeline_spider.py:24-33 | the i-th seed request is the post request for the i-th seed id, with retry counter 0 and dedup on |
| RepostTimeline.StartRequestsRoundTrip | scrapy_weibo/spiders/repost_timeline_spider.py:24-33 | one post request per seed id, in seed order; the ids come back out unchanged; every request has retry counter 0 and dedup on |
| RepostTimeline.CopyKeys | scrapy_weibo/spiders/repost_timeline_spider.py:80-86 | copying a key list succeeds iff the value is a dict holding every key; the copy holds exactly those keys with the dict's own values; a missing key is a KeyError naming it, and a non-dict is a TypeError |
| RepostTimeline.MapWeibo | scrapy_weibo/spiders/repost_timeline_spider.py:80-102 | a post object maps iff it has the 9 post keys, a parseable `created_at` and a `user` with the 14 user keys; the post and user fields are verbatim copies and the timestamp is the parsed `created_at` |
| RepostTimeline.MapRetweeted | scrapy_weibo/spiders/repost_timeline_spider.py:104-117 | a nested reposted post is kept iff it is present and not marked `deleted`; a deleted one is dropped; a kept one is a verbatim copy with its author and no `reposts` field |
| RepostTimeline.RespToItem | scrapy_weibo/spiders/repost_timeline_spider.py:74-119 | `resp_to_item` succeeds iff the post and the kept reposted post are well formed; it returns the author, the post (empty `reposts`, author attached, keys copied verbatim, timestamp parsed from `created_at`) and the reposted post's author exactly when that post is kept; a kept reposted post is a verbatim copy with its own author and parsed timestamp and no `reposts` |
| RepostTimeline.MissingPostKeyIsKeyError | scrapy_weibo/spiders/repost_timeline_spider.py:80-86 | a post object missing any of the 9 post keys fails with KeyError, the error both callers catch |
| RepostTimeline.MissingUserIsKeyError | scrapy_weibo/spiders/repost_timeline_spider.py:92-100 | a post object with the 9 post keys and a parseable `created_at` but no `user` fails with KeyError("user") |
| RepostTimeline.MissingUserKeyIsKeyError | scrapy_weibo/spiders/repost_timeline_spider.py:96-100 | a `user` dict missing any of the 14 user keys fails with KeyError |
| RepostTimeline.MissingNestedKeyIsKeyError | scrapy_weibo/spiders/repost_timeline_spider.py:105-110 | a kept reposted post (a dict not marked `deleted`) missing any of the 9 post keys fails with KeyError, though the outer post is well formed |
| RepostTimeline.MalformedTimestampIsNotKeyError | scrapy_weibo/spiders/repost_timeline_spider.py:88 | a `created_at` that does not parse fails with ValueError, which neither caller catches |
| RepostTimeline.ItemOutputs | scrapy_weibo/spiders/repost_timeline_spider.py:56-59 | a mapped post yields its author, then the post, then the reposted post's author exactly when there is one |
| RepostTimeline.ItemOutputsFilters | scrapy_weibo/spiders/repost_timeline_spider.py:56-59 | a mapped post yields no request and exactly one post item, the post itself |
| RepostTimeline.PageCount | scrapy_weibo/spiders/repost_timeline_spider.py:63 | the page count is the ceiling of reposts/200: 200·(n−1) < r ≤ 200·n, and no pages for r ≤ 0 |
| RepostTimeline.PageFanOut | scrapy_weibo/spiders/repost_timeline_spider.py:63-72 | the page loop for n pages issues n requests, none for n ≤ 0 |
| RepostTimeline.PageFanOutShape | scrapy_weibo/spiders/repost_timeline_spider.py:63-72 | the fan-out for n pages is n requests, the i-th for page i+1, counter 0, same post id and shared source post |
| RepostTimeline.FanOutPages | scrapy_weibo/spiders/repost_timeline_spider.py:63-72 | the page loop builds exactly the fan-out for ⌈count/200⌉ pages |
| RepostTimeline.MappedFanOutFields | scrapy_weibo/spiders/repost_timeline_spider.py:61-62 | the `reposts_count` and `id` read back from a mapped post item are those of the post object |
| RepostTimeline.TokenInvalid | scrapy_weibo/spiders/repost_timeline_spider.py:39 | the token check is true iff the response is a dict whose `error_code` is one of 21314–21317; on a dict it never raises, otherwise it is a TypeError |
| RepostTimeline.SourceWeiboStep | scrapy_weibo/spiders/repost_timeline_spider.py:35-72 | the post callback raises CloseSpider iff the token check is true, and then yields nothing; when the post does not map it yields at most one output and no post item |
| RepostTimeline.OnSourceWeibo | scrapy_weibo/spiders/repost_timeline_spider.py:35-72 | the post callback creates a fresh source post (empty `reposts`, the mapped post) exactly when the response passes the token check and maps; what it yields, and how it ends, is the step function |
| RepostTimeline.TokenErrorAbortsSource | scrapy_weibo/spiders/repost_timeline_spider.py:39-40 | error codes 21314–21317 on the post response stop the whole run before anything is yielded |
| RepostTimeline.FanOutOutputs | scrapy_weibo/spiders/repost_timeline_spider.py:56-72 | the items of a mapped post followed by its fan-out contain one post item and exactly the page requests, in page order |
| RepostTimeline.SourceFanOut | scrapy_weibo/spiders/repost_timeline_spider.py:56-72 | for any mapper, a post item with `reposts_count` r yields itself once and ⌈r/200⌉ page requests, for pages 1, 2, … in order, carrying its id and the shared source post |
| RepostTimeline.PostFanOut | scrapy_weibo/spiders/repost_timeline_spider.py:56-72 | with `resp_to_item` as the mapper, a post object with `reposts_count` r fans out into ⌈r/200⌉ page requests carrying the object's own `id` |
| RepostTimeline.SourceShapeFailureRetries | scrapy_weibo/spiders/repost_timeline_spider.py:42-56 | a KeyError while mapping re-issues the post request once (counter + 1, dedup bypassed) and then fails on the unbound `user`; at counter 3 the callback yields nothing |
| RepostTimeline.SourceAttemptsBounded | scrapy_weibo/spiders/repost_timeline_spider.py:44-54 | following re-issued post requests from counter t, at most 4 − t responses are consumed |
| RepostTimeline.SourceAttemptsExhausted | scrapy_weibo/spiders/repost_timeline_spider.py:44-54 | a post that never maps is requested exactly 4 − t times, then dropped |
| RepostTimeline.MapReposts | scrapy_weibo/spiders/repost_timeline_spider.py:150-159 | the repost loop appends at most one post per repost, and an error that escapes it is never a KeyError |
| RepostTimeline.MapRepostsStopsAtError | scrapy_weibo/spiders/repost_timeline_spider.py:150-159 | once a repost raises something other than KeyError, the rest of the page is never looked at |
| RepostTimeline.MapRepostsYieldsAppended | scrapy_weibo/spiders/repost_timeline_spider.py:150-159 | the repost loop yields exactly the appended reposts as post items, in order, and no request |
| RepostTimeline.MapRepostsAllMapped | scrapy_weibo/spiders/repost_timeline_spider.py:150-155 | when every repost maps, every one is appended, in page order |
| RepostTimeline.MapRepostsSkipsShapeFailures | scrapy_weibo/spiders/repost_timeline_spider.py:151-154 | reposts that all fail with KeyError are skipped: nothing appended, nothing yielded |
| RepostTimeline.MapRepostsMatchesKept | scrapy_weibo/spiders/repost_timeline_spider.py:150-159 | on any page the repost loop runs to the end iff every repost maps or fails with KeyError; then it has appended exactly the reposts that map, in page order, and yielded each one's items in that order |
| RepostTimeline.AppendReposts | scrapy_weibo/spiders/repost_timeline_spider.py:150-159 | the repost loop, run in place, leaves the source post's list as the old list followed by the mapped reposts, and yields and raises what the loop's specification says |
| RepostTimeline.EmptyPage | scrapy_weibo/spiders/repost_timeline_spider.py:135 | the empty-page test is true iff the response is a dict whose `reposts` is the empty list; on a dict it never raises |
| RepostTimeline.RepostPageStep | scrapy_weibo/spiders/repost_timeline_spider.py:125-161 | the page callback raises CloseSpider iff the token check is true, and then yields nothing and appends nothing |
| RepostTimeline.OnRepostPage | scrapy_weibo/spiders/repost_timeline_spider.py:125-161 | the page callback changes only the shared source post's `reposts`: the old list followed by what the page contributes, as the page step gives; it yields what the page step gives |
| RepostTimeline.TokenErrorAbortsPage | scrapy_weibo/spiders/repost_timeline_spider.py:132-133 | error codes 21314–21317 on a page stop the whole run; nothing is appended or yielded |
| RepostTimeline.EmptyPageRetries | scrapy_weibo/spiders/repost_timeline_spider.py:135-148 | an empty `reposts` page re-issues the same page (counter + 1, dedup bypassed) below counter 3 and yields nothing at 3; nothing is appended |
| RepostTimeline.PageAppends | scrapy_weibo/spiders/repost_timeline_spider.py:150-155 | a page only appends: the new list is the old list followed by what that page's response contributes |
| RepostTimeline.PageYieldsSourceOnce | scrapy_weibo/spiders/repost_timeline_spider.py:150-161 | a non-empty page that raises nothing appends exactly the reposts that map, in page order; it yields each one's author, post and reposted post's author in that order, then the source post once, last, showing the list after the append, and no request |
| RepostTimeline.AppendOnlyAccumulates | scrapy_weibo/spiders/repost_timeline_spider.py:150-155 | steps that only append their own contribution, run one after another, leave the old list followed by every contribution in turn |
| RepostTimeline.RepostsAccumulate | scrapy_weibo/spiders/repost_timeline_spider.py:150-155 | across any sequence of page callbacks the shared list grows monotonically, ending as the old list followed by each page's reposts in handling order |
| RepostTimeline.HandlePages | scrapy_weibo/spiders/repost_timeline_spider.py:150-155 | page callbacks run one after another on one shared source post leave its list as the old list followed by each page's reposts in handling order |
| RepostTimeline.EmptyPageAttempt | scrapy_weibo/spiders/repost_timeline_spider.py:135-148 | a page reported empty costs one response, then, below counter 3, the attempts of the same page at the next counter |
| RepostTimeline.PageAttemptsBounded | scrapy_weibo/spiders/repost_timeline_spider.py:135-148 | following re-issued page requests from counter t, at most 4 − t responses are consumed |
| RepostTimeline.PageAttemptsExhausted | scrapy_weibo/spiders/repost_timeline_spider.py:135-148 | a page reported empty every time is requested exactly 4 − t times, then dropped |
| FriendsUids.StartRequests | scrapy_weibo/spiders/friends_uids_spider.py:23-30 | the i-th seed request is the user request for the i-th seed id, with no retry counter and dedup on |
| FriendsUids.StartRequestsRoundTrip | scrapy_weibo/spiders/friends_uids_spider.py:23-30 | one user request per seed id, in seed order; the ids come back out unchanged; no retry counter, dedup on |
| FriendsUids.SourceUserStep | scrapy_weibo/spiders/friends_uids_spider.py:32-57 | the user callback always runs to the end; every request it issues is for the same user; with fewer than two items it yields at most one output |
| FriendsUids.UserFailureRetries | scrapy_weibo/spiders/friends_uids_spider.py:32-46 | fewer than two items emit nothing; the request is re-issued once (counter + 1, dedup bypassed) unless the raised counter is above 2, in which case nothing goes out |
| FriendsUids.UserSuccess | scrapy_weibo/spiders/friends_uids_spider.py:48-57 | two items or more are all emitted in order, followed by exactly one request, the last output, for the same user's friend ids from cursor 0, accumulating into the first item |
| FriendsUids.UserAttemptsBounded | scrapy_weibo/spiders/friends_uids_spider.py:33-44 | following re-issued user requests from counter t, at most 3 − t responses are consumed |
| FriendsUids.UserAttemptsExhausted | scrapy_weibo/spiders/friends_uids_spider.py:33-44 | a user whose response never gives two items is requested exactly 3 − t times, then dropped |
| FriendsUids.FriendsPageStep | scrapy_weibo/spiders/friends_uids_spider.py:59-71 | a batch only extends `friends`: the old list is a prefix of the new one; without `friends` it raises and changes nothing; it yields at most one output |
| FriendsUids.OnFriendsPage | scrapy_weibo/spiders/friends_uids_spider.py:59-71 | the batch callback changes only the user item's `friends`, to the list the batch step gives, and yields what the batch step gives |
| FriendsUids.BatchExtends | scrapy_weibo/spiders/friends_uids_spider.py:59-71 | a batch appends exactly its `ids`, in order; a zero cursor emits the user item, and any other cursor issues one follow-up carrying that cursor |
| FriendsUids.FollowUpKeepsUrl | scrapy_weibo/spiders/friends_uids_spider.py:65-69 | the follow-up copy keeps the user id, the URL's cursor, the user item and the dedup flag; only the carried cursor moves |
| FriendsUids.MissingFriendsIsKeyError | scrapy_weibo/spiders/friends_uids_spider.py:60-63 | a user item without a `friends` field fails with KeyError and is left unchanged |
| FriendsUids.WalkFriends | scrapy_weibo/spiders/friends_uids_spider.py:59-71 | following batch after batch only extends `friends`, and a user item without `friends` stays without |
| FriendsUids.FriendsAccumulate | scrapy_weibo/spiders/friends_uids_spider.py:59-71 | over a cursor run, `friends` ends as the old list followed by every batch's `ids`, concatenated in order |
| FriendsUids.UserEmittedOnceAtEnd | scrapy_weibo/spiders/friends_uids_spider.py:59-71 | over a cursor run, the user item is emitted exactly once, as the last output |
| FriendsUids.FollowUpsCarryCursors | scrapy_weibo/spiders/friends_uids_spider.py:65-69 | over a cursor run of n batches, exactly n − 1 follow-ups are issued; the i-th carries the i-th batch's cursor and is otherwise the first request |
| FriendsUids.TwoBatchExample | scrapy_weibo/spiders/friends_uids_spider.py:63-71 | batches [1,2,3] (cursor 50) and then [4,5] (cursor 0) give [1,2,3,4,5], and the user item is emitted once |

## Behaviour kept as written

These behaviours are modelled exactly as the code has them. None is corrected.

- After a `KeyError` in the post callback below the retry ceiling, the retry request is yielded. The callback then falls through to `yield user` with `user` unbound, so the step ends in `Crash(NameError)`. It has already issued the retry (`SourceShapeFailureRetries`).
- The retry ceilings differ:
  - a post request is dropped when its raised counter exceeds 3 (four attempts);
  - an empty page is dropped the same way;
  - a user request is dropped when its raised counter exceeds 2 (three attempts).
- The source post is yielded after every non-empty page, each time showing the list as it is then. It is not yielded once at the end of the crawl (`PageYieldsSourceOnce`).
- The friend-id follow-up is a copy of the previous request. It keeps the URL built with cursor 0, and it does not set the dedup bypass. Only the cursor carried beside the request changes (`FollowUpKeepsUrl`). Under Scrapy's default duplicate filter, that copy has the URL of a request already seen, so it is dropped. The multi-batch walks (`FriendsAccumulate`, `FollowUpsCarryCursors`) therefore describe a crawl with that filter off.
- `ValueError` from parsing `created_at` is not caught by either callback (`MalformedTimestampIsNotKeyError`).
- `UserKeys` lists `verified` twice, as the code does. This is harmless for a map.

## Left out

- `prepare` in both spiders reads seed ids from a Redis set. The seeds are a parameter of `StartRequests`.
- `local2unix`, which parses local time, is a parameter `string -> Option<int>`. `None` stands for the `ValueError` from `time.strptime`. A non-string `created_at` is a `TypeError`.
- `resp2item_v2` (utils4scrapy) is not part of this model. The user callback takes the items it returns as a parameter.
- `json.loads` is not modelled. Callbacks receive the decoded value.
- Floating-point JSON numbers are not modelled. `reposts_count` is an integer or a bool, and anything else makes the division a `TypeError`.
- Iterating over a string or a dict, where `reposts` or `ids` is not a list, is modelled as a `TypeError`. Python would iterate its characters or keys.
- `scrapy_weibo/items.py` is not part of this model. Items are maps of the copied fields, and a field assignment never fails.
- URLs are not modelled. A request is identified by its callback and its metadata. The one URL detail that matters, the cursor written into the friend-id URL, is the field `urlCursor`.
- The Scrapy engine is left out: scheduling order, duplicate filtering, concurrency, and how `CloseSpider` stops the run. The model only records what each callback yields and how it ends.
- Scrapy's RetryMiddleware also writes `retry_times`. That interaction is not modelled.
- The post items are values. The source post's `reposts` field is the one object updated in place, and each yield of it is a snapshot of that moment. In Python every yield hands out the same mutable item, so a consumer that keeps it sees later appends too. That aliasing is not modelled.
- The friend-id follow-up is issued as the callback yields it. Whether Scrapy's duplicate filter drops it is engine behaviour, left out as above.
