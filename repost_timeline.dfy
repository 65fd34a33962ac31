/**
 * The repost-tree crawl (scrapy_weibo/spiders/repost_timeline_spider.py).
 *
 * A seed post id becomes a request for the post itself. Its response is mapped into a user
 * item and a post item; the post item becomes the shared "source post", and one request per
 * page of 200 reposts is issued, all of them carrying that same object. Each page response
 * maps its reposts and appends them, in place, to the shared object's `reposts` list.
 */
module RepostTimeline {
  import opened Runtime

  /** API error codes saying the access token is invalid, expired or revoked. */
  const TokenErrorCodes: set<int> := {21314, 21315, 21316, 21317}

  /** The keys copied from a post object into a post item, in the order they are read. */
  const WeiboKeys: seq<string> :=
    ["created_at", "id", "mid", "text", "source", "reposts_count",
     "comments_count", "attitudes_count", "geo"]

  /** The keys copied from a post's `user` object; "verified" is listed twice, as in the source. */
  const UserKeys: seq<string> :=
    ["id", "name", "gender", "province", "city", "location",
     "description", "verified", "followers_count",
     "statuses_count", "friends_count", "profile_image_url",
     "bi_followers_count", "verified"]

  /** Reposts asked for per page. */
  const PageSize: int := 200

  /** A retry counter above this value drops the request. */
  const MaxRetry: nat := 3

  datatype UserItem = UserItem(fields: map<string, Json>)

  /**
   * A post item. `reposts` is None when the item has no `reposts` field at all, as for the
   * nested reposted post; `retweeted` is the nested post the item reposts, if it was kept.
   */
  datatype WeiboItem = WeiboItem(
    fields: map<string, Json>,
    timestamp: int,
    user: UserItem,
    reposts: Option<seq<WeiboItem>>,
    retweeted: Option<WeiboItem>)

  /** What mapping one post object gives: its author, the post, and the reposted post's author. */
  datatype Mapped = Mapped(user: UserItem, weibo: WeiboItem, retweetedUser: Option<UserItem>)

  /**
   * The source post shared by every page request of one seed. Only its `reposts` list
   * changes after it is created; `post` holds everything else it was mapped with.
   */
  class SourceWeibo {
    const post: WeiboItem
    var reposts: seq<WeiboItem>

    constructor (post: WeiboItem)
      ensures this.post == post && reposts == []
    {
      this.post := post;
      reposts := [];
    }

    /** The item as a consumer sees it at the moment it is yielded. */
    function Item(): WeiboItem
      reads this
    {
      post.(reposts := Some(reposts))
    }
  }

  datatype Request =
    /** A request for one post, handled by the source-post callback. */
    | ShowRequest(wid: Json, retry: nat, dontFilter: bool)
    /** A request for one page of a post's reposts, handled by the page callback. */
    | PageRequest(wid: Json, page: nat, retry: nat, source: SourceWeibo, dontFilter: bool)

  /** What a callback yields: an item for the pipeline or a request for the scheduler. */
  datatype Output = EmitUser(user: UserItem) | EmitWeibo(weibo: WeiboItem) | Issue(request: Request)

  /** Everything one callback invocation yields, in order, and how it stops. */
  datatype Step = Step(outputs: seq<Output>, ending: Ending)

  // ---------------------------------------------------------------------------------------
  // Seeds

  /** One request per seed post id, in seed order, with a zero retry counter. */
  function StartRequests(wids: seq<Json>): (r: seq<Request>)
    ensures |r| == |wids|
    ensures forall i | 0 <= i < |r| :: r[i] == ShowRequest(wids[i], 0, false)
  {
    if wids == [] then [] else [ShowRequest(wids[0], 0, false)] + StartRequests(wids[1..])
  }

  /** The post ids a sequence of requests asks for. */
  function Wids(requests: seq<Request>): seq<Json>
  {
    if requests == [] then [] else [requests[0].wid] + Wids(requests[1..])
  }

  lemma {:induction false} StartRequestsRoundTrip(wids: seq<Json>)
    ensures Wids(StartRequests(wids)) == wids
    ensures forall r | r in StartRequests(wids) :: r.ShowRequest? && r.retry == 0 && !r.dontFilter
  {
    if wids != [] {
      StartRequestsRoundTrip(wids[1..]);
    }
  }

  // ---------------------------------------------------------------------------------------
  // Mapping a post object into items

  /** `value` is a dict holding every key of `keys`. */
  predicate HasKeys(value: Json, keys: seq<string>)
  {
    value.JObj? && forall k | k in keys :: k in value.fields
  }

  /** `copy` holds exactly the keys of `keys`, each with the value `value` has for it. */
  ghost predicate Copied(copy: map<string, Json>, value: Json, keys: seq<string>)
  {
    && (forall k :: k in copy <==> k in keys)
    && (forall k | k in copy :: value.JObj? && k in value.fields && copy[k] == value.fields[k])
  }

  /** A key of `keys` is in the copy, with the value `value` has for it. */
  lemma CopiedKey(copy: map<string, Json>, value: Json, keys: seq<string>, k: string)
    requires Copied(copy, value, keys) && k in keys
    ensures value.JObj? && k in copy && k in value.fields && copy[k] == value.fields[k]
  {
  }

  /**
   * Copies `value[k]` for every k of `keys`, in order; the first lookup that fails decides
   * the error: KeyError on a dict without that key, TypeError on anything but a dict.
   */
  function CopyKeys(value: Json, keys: seq<string>): (r: Result<map<string, Json>>)
    decreases |keys|
    ensures r.Ok? <==> keys == [] || HasKeys(value, keys)
    ensures r.Ok? ==> Copied(r.value, value, keys)
    ensures r.Err? ==> (r.error.KeyError? <==> value.JObj?) && (r.error.KeyError? || r.error == TypeError)
    ensures r.Err? && r.error.KeyError? ==> r.error.key in keys && r.error.key !in value.fields
  {
    if keys == [] then Ok(map[])
    else
      match Subscript(value, keys[0])
      case Err(e) => Err(e)
      case Ok(v) =>
        match CopyKeys(value, keys[1..])
        case Err(e) => Err(e)
        case Ok(rest) => Ok(rest[keys[0] := v])
  }

  /** The numeric timestamp of a creation-time string; local2unix gives None when parsing fails. */
  function Timestamp(createdAt: Json, local2unix: string -> Option<int>): Result<int>
  {
    match createdAt
    case JStr(s) =>
      (match local2unix(s)
       case Some(t) => Ok(t)
       case None => Err(ValueError))
    case _ => Err(TypeError)
  }

  /** What mapping a post object needs: every post key, a parseable time, a complete `user`. */
  predicate WellFormedPost(value: Json, local2unix: string -> Option<int>)
  {
    && HasKeys(value, WeiboKeys)
    && "created_at" in value.fields
    && Timestamp(value.fields["created_at"], local2unix).Ok?
    && "user" in value.fields
    && HasKeys(value.fields["user"], UserKeys)
  }

  /** The post keys, the timestamp and the author of one post object, read in that order. */
  function MapWeibo(value: Json, local2unix: string -> Option<int>): (r: Result<WeiboItem>)
    ensures r.Ok? <==> WellFormedPost(value, local2unix)
    ensures r.Ok? ==> && Copied(r.value.fields, value, WeiboKeys)
                      && Copied(r.value.user.fields, value.fields["user"], UserKeys)
                      && r.value.reposts.None? && r.value.retweeted.None?
    ensures r.Ok? ==> Timestamp(value.fields["created_at"], local2unix) == Ok(r.value.timestamp)
  {
    match CopyKeys(value, WeiboKeys)
    case Err(e) => Err(e)
    case Ok(fields) =>
      assert fields["created_at"] == value.fields["created_at"];
      match Timestamp(fields["created_at"], local2unix)
      case Err(e) => Err(e)
      case Ok(timestamp) =>
        match Subscript(value, "user")
        case Err(e) => Err(e)
        case Ok(author) =>
          match CopyKeys(author, UserKeys)
          case Err(e) => Err(e)
          case Ok(user) => Ok(WeiboItem(fields, timestamp, UserItem(user), None, None))
  }

  /** The nested reposted post is kept: present and not marked `deleted`. */
  predicate KeepsRetweeted(resp: Json)
  {
    resp.JObj? && "retweeted_status" in resp.fields
    && Contains(resp.fields["retweeted_status"], "deleted") == Ok(false)
  }

  /** The nested reposted post, when present, can be tested for `deleted` and, when kept, maps. */
  predicate WellFormedRetweeted(resp: Json, local2unix: string -> Option<int>)
    requires resp.JObj?
  {
    "retweeted_status" in resp.fields ==>
      && Contains(resp.fields["retweeted_status"], "deleted").Ok?
      && (KeepsRetweeted(resp) ==> WellFormedPost(resp.fields["retweeted_status"], local2unix))
  }

  /** The nested reposted post of a post object, when there is one that is not deleted. */
  function MapRetweeted(resp: Json, local2unix: string -> Option<int>): (r: Result<Option<WeiboItem>>)
    requires resp.JObj?
    ensures r.Ok? <==> WellFormedRetweeted(resp, local2unix)
    ensures r.Ok? ==> (r.value.Some? <==> KeepsRetweeted(resp))
    ensures r.Ok? && r.value.Some? ==>
              var nested := resp.fields["retweeted_status"];
              && Copied(r.value.value.fields, nested, WeiboKeys)
              && Copied(r.value.value.user.fields, nested.fields["user"], UserKeys)
              && r.value.value.reposts.None?
              && Timestamp(nested.fields["created_at"], local2unix) == Ok(r.value.value.timestamp)
  {
    match Contains(resp, "retweeted_status")
    case Err(e) => Err(e)
    case Ok(present) =>
      if !present then Ok(None)
      else
        match Subscript(resp, "retweeted_status")
        case Err(e) => Err(e)
        case Ok(nested) =>
          match Contains(nested, "deleted")
          case Err(e) => Err(e)
          case Ok(deleted) =>
            if deleted then Ok(None)
            else
              match MapWeibo(nested, local2unix)
              case Err(e) => Err(e)
              case Ok(w) => Ok(Some(w))
  }

  /** What mapping a whole post object needs, nested reposted post included. */
  predicate WellFormedResp(resp: Json, local2unix: string -> Option<int>)
  {
    WellFormedPost(resp, local2unix) && WellFormedRetweeted(resp, local2unix)
  }

  /**
   * resp_to_item: a post object becomes its author, the post (with an empty `reposts` list
   * and its author attached) and, when the reposted post is kept, that post's author.
   */
  function RespToItem(resp: Json, local2unix: string -> Option<int>): (r: Result<Mapped>)
    ensures r.Ok? <==> WellFormedResp(resp, local2unix)
    ensures r.Ok? ==> && r.value.weibo.reposts == Some([])
                      && r.value.weibo.user == r.value.user
                      && Copied(r.value.weibo.fields, resp, WeiboKeys)
                      && Copied(r.value.user.fields, resp.fields["user"], UserKeys)
                      && (r.value.retweetedUser.Some? <==> KeepsRetweeted(resp))
                      && (r.value.weibo.retweeted.Some? <==> KeepsRetweeted(resp))
    ensures r.Ok? ==> Timestamp(resp.fields["created_at"], local2unix) == Ok(r.value.weibo.timestamp)
    ensures r.Ok? && KeepsRetweeted(resp) ==>
              var nested := resp.fields["retweeted_status"];
              && r.value.weibo.retweeted.value.user == r.value.retweetedUser.value
              && r.value.weibo.retweeted.value.reposts.None?
              && Copied(r.value.weibo.retweeted.value.fields, nested, WeiboKeys)
              && Copied(r.value.retweetedUser.value.fields, nested.fields["user"], UserKeys)
              && Timestamp(nested.fields["created_at"], local2unix) == Ok(r.value.weibo.retweeted.value.timestamp)
  {
    match MapWeibo(resp, local2unix)
    case Err(e) => Err(e)
    case Ok(weibo) =>
      match MapRetweeted(resp, local2unix)
      case Err(e) => Err(e)
      case Ok(None) => Ok(Mapped(weibo.user, weibo.(reposts := Some([])), None))
      case Ok(Some(nested)) =>
        Ok(Mapped(weibo.user, weibo.(reposts := Some([]), retweeted := Some(nested)), Some(nested.user)))
  }

  /** A post object missing one of the post keys fails with KeyError, the error the callers catch. */
  lemma MissingPostKeyIsKeyError(resp: Json, local2unix: string -> Option<int>, k: string)
    requires resp.JObj? && k in WeiboKeys && k !in resp.fields
    ensures RespToItem(resp, local2unix).Err? && RespToItem(resp, local2unix).error.KeyError?
  {
  }

  /** A post object without a `user` fails with KeyError("user") once the post keys are copied. */
  lemma MissingUserIsKeyError(resp: Json, local2unix: string -> Option<int>)
    requires HasKeys(resp, WeiboKeys) && "user" !in resp.fields
    requires Timestamp(resp.fields["created_at"], local2unix).Ok?
    ensures RespToItem(resp, local2unix) == Err(KeyError("user"))
  {
    assert "created_at" in WeiboKeys;
  }

  /** A `user` dict missing one of the user keys fails with KeyError. */
  lemma MissingUserKeyIsKeyError(resp: Json, local2unix: string -> Option<int>, k: string)
    requires HasKeys(resp, WeiboKeys) && "user" in resp.fields
    requires Timestamp(resp.fields["created_at"], local2unix).Ok?
    requires resp.fields["user"].JObj? && k in UserKeys && k !in resp.fields["user"].fields
    ensures RespToItem(resp, local2unix).Err? && RespToItem(resp, local2unix).error.KeyError?
  {
    assert "created_at" in WeiboKeys;
  }

  /** A kept reposted post (a dict, not deleted) missing one of the post keys fails with KeyError. */
  lemma MissingNestedKeyIsKeyError(resp: Json, local2unix: string -> Option<int>, k: string)
    requires WellFormedPost(resp, local2unix) && KeepsRetweeted(resp)
    requires resp.fields["retweeted_status"].JObj? && k in WeiboKeys
    requires k !in resp.fields["retweeted_status"].fields
    ensures RespToItem(resp, local2unix).Err? && RespToItem(resp, local2unix).error.KeyError?
  {
    var nested := resp.fields["retweeted_status"];
    assert MapWeibo(resp, local2unix).Ok?;
    assert !HasKeys(nested, WeiboKeys);
    assert MapWeibo(nested, local2unix).Err? && MapWeibo(nested, local2unix).error.KeyError?;
    assert MapRetweeted(resp, local2unix) == Err(MapWeibo(nested, local2unix).error) by {
      assert Contains(resp, "retweeted_status") == Ok(true);
    }
  }

  /** A creation time that does not parse raises ValueError, which no caller catches. */
  lemma MalformedTimestampIsNotKeyError(resp: Json, local2unix: string -> Option<int>)
    requires HasKeys(resp, WeiboKeys)
    requires resp.fields["created_at"].JStr? && local2unix(resp.fields["created_at"].s).None?
    ensures RespToItem(resp, local2unix) == Err(ValueError)
  {
    assert "created_at" in WeiboKeys;
  }

  // ---------------------------------------------------------------------------------------
  // Outputs

  /** What a mapped post yields: its author, the post, then the reposted post's author if any. */
  function ItemOutputs(m: Mapped): (r: seq<Output>)
    ensures |r| == (if m.retweetedUser.Some? then 3 else 2)
    ensures r[0] == EmitUser(m.user) && r[1] == EmitWeibo(m.weibo)
    ensures m.retweetedUser.Some? ==> r[2] == EmitUser(m.retweetedUser.value)
  {
    [EmitUser(m.user), EmitWeibo(m.weibo)] + if m.retweetedUser.Some? then [EmitUser(m.retweetedUser.value)] else []
  }

  function Issues(requests: seq<Request>): (r: seq<Output>)
    ensures |r| == |requests|
    ensures forall i | 0 <= i < |r| :: r[i] == Issue(requests[i])
  {
    if requests == [] then [] else [Issue(requests[0])] + Issues(requests[1..])
  }

  /** The requests among some outputs, in order. */
  function Requests(outputs: seq<Output>): seq<Request>
  {
    if outputs == [] then []
    else (if outputs[0].Issue? then [outputs[0].request] else []) + Requests(outputs[1..])
  }

  /** The post items among some outputs, in order. */
  function Weibos(outputs: seq<Output>): seq<WeiboItem>
  {
    if outputs == [] then []
    else (if outputs[0].EmitWeibo? then [outputs[0].weibo] else []) + Weibos(outputs[1..])
  }

  lemma {:induction false} RequestsAppend(a: seq<Output>, b: seq<Output>)
    ensures Requests(a + b) == Requests(a) + Requests(b)
  {
    if a == [] {
      assert a + b == b;
    } else {
      var head := if a[0].Issue? then [a[0].request] else [];
      assert (a + b)[0] == a[0] && (a + b)[1..] == a[1..] + b;
      RequestsAppend(a[1..], b);
      assert Requests(a + b) == head + (Requests(a[1..]) + Requests(b));
      assert head + (Requests(a[1..]) + Requests(b)) == (head + Requests(a[1..])) + Requests(b);
    }
  }

  lemma {:induction false} WeibosAppend(a: seq<Output>, b: seq<Output>)
    ensures Weibos(a + b) == Weibos(a) + Weibos(b)
  {
    if a == [] {
      assert a + b == b;
    } else {
      var head := if a[0].EmitWeibo? then [a[0].weibo] else [];
      assert (a + b)[0] == a[0] && (a + b)[1..] == a[1..] + b;
      WeibosAppend(a[1..], b);
      assert Weibos(a + b) == head + (Weibos(a[1..]) + Weibos(b));
      assert head + (Weibos(a[1..]) + Weibos(b)) == (head + Weibos(a[1..])) + Weibos(b);
    }
  }

  /** Filtering distributes over concatenation. */
  lemma FiltersAppend(a: seq<Output>, b: seq<Output>)
    ensures Requests(a + b) == Requests(a) + Requests(b)
    ensures Weibos(a + b) == Weibos(a) + Weibos(b)
  {
    RequestsAppend(a, b);
    WeibosAppend(a, b);
  }

  lemma {:induction false} IssuesAreRequests(requests: seq<Request>)
    ensures Requests(Issues(requests)) == requests
    ensures Weibos(Issues(requests)) == []
  {
    if requests != [] {
      IssuesAreRequests(requests[1..]);
    }
  }

  /** A mapped post yields no request and exactly one post item, the post itself. */
  lemma ItemOutputsFilters(m: Mapped)
    ensures Requests(ItemOutputs(m)) == []
    ensures Weibos(ItemOutputs(m)) == [m.weibo]
  {
    var tail: seq<Output> := if m.retweetedUser.Some? then [EmitUser(m.retweetedUser.value)] else [];
    assert ItemOutputs(m) == [EmitUser(m.user)] + ([EmitWeibo(m.weibo)] + tail);
    FiltersAppend([EmitUser(m.user)], [EmitWeibo(m.weibo)] + tail);
    FiltersAppend([EmitWeibo(m.weibo)], tail);
  }

  // ---------------------------------------------------------------------------------------
  // The fatal-error check

  /** The response carries one of the token error codes. */
  function TokenInvalid(resp: Json): (r: Result<bool>)
    ensures r == Ok(true) <==> (resp.JObj? && "error_code" in resp.fields
                                && resp.fields["error_code"].JNum? && resp.fields["error_code"].n in TokenErrorCodes)
    ensures resp.JObj? ==> r.Ok?
    ensures r.Err? ==> r.error == TypeError
  {
    match Contains(resp, "error_code")
    case Err(e) => Err(e)
    case Ok(present) =>
      if !present then Ok(false)
      else
        match Subscript(resp, "error_code")
        case Err(e) => Err(e)
        case Ok(code) => Ok(code.JNum? && code.n in TokenErrorCodes)
  }

  // ---------------------------------------------------------------------------------------
  // Page fan-out

  /** Pages of PageSize reposts needed for `count` reposts; Python's ceiling of count / 200.0. */
  function PageCount(count: int): (n: int)
    ensures PageSize * (n - 1) < count <= PageSize * n
    ensures count <= 0 ==> n <= 0
  {
    (count + PageSize - 1) / PageSize
  }

  /** Requests for pages 1 to `pages` of one post, in increasing order. */
  function PageFanOut(wid: Json, pages: int, source: SourceWeibo): (r: seq<Request>)
    ensures |r| == if pages <= 0 then 0 else pages
    decreases pages
  {
    if pages <= 0 then [] else PageFanOut(wid, pages - 1, source) + [PageRequest(wid, pages, 0, source, false)]
  }

  lemma {:induction false} PageFanOutShape(wid: Json, pages: int, source: SourceWeibo)
    ensures |PageFanOut(wid, pages, source)| == if pages <= 0 then 0 else pages
    ensures forall i | 0 <= i < |PageFanOut(wid, pages, source)| ::
              PageFanOut(wid, pages, source)[i] == PageRequest(wid, i + 1, 0, source, false)
  {
    if pages > 0 {
      PageFanOutShape(wid, pages - 1, source);
    }
  }

  /** The page loop of the source-post callback: one request per page, pages 1 to ⌈count/200⌉. */
  method FanOutPages(wid: Json, count: int, source: SourceWeibo) returns (requests: seq<Request>)
    ensures requests == PageFanOut(wid, PageCount(count), source)
  {
    requests := [];
    var page := 1;
    while page <= PageCount(count)
      invariant 1 <= page
      invariant page <= PageCount(count) + 1 || page == 1
      invariant requests == PageFanOut(wid, page - 1, source)
    {
      requests := requests + [PageRequest(wid, page, 0, source, false)];
      page := page + 1;
    }
  }

  // ---------------------------------------------------------------------------------------
  // The source-post callback
  //
  // Both callbacks call `resp_to_item`; here it is the parameter `mapPost`, which the spider
  // fixes to PostMapper(local2unix), so that what a callback does with a mapping is stated
  // apart from how the mapping is computed.

  /** `resp_to_item` with the timestamp parser fixed, as a function value. */
  function PostMapper(local2unix: string -> Option<int>): Json -> Result<Mapped>
  {
    resp => RespToItem(resp, local2unix)
  }

  /** `item[key]` on a post item, for the keys copied from the post object. */
  function ItemField(weibo: WeiboItem, key: string): Result<Json>
  {
    Subscript(JObj(weibo.fields), key)
  }

  /** The two fields the fan-out reads from a post `resp_to_item` mapped are those of the post object. */
  lemma MappedFanOutFields(resp: Json, local2unix: string -> Option<int>)
    requires WellFormedResp(resp, local2unix)
    ensures RespToItem(resp, local2unix).Ok?
    ensures var weibo := RespToItem(resp, local2unix).value.weibo;
            && resp.JObj? && "reposts_count" in resp.fields && "id" in resp.fields
            && ItemField(weibo, "reposts_count") == Ok(resp.fields["reposts_count"])
            && ItemField(weibo, "id") == Ok(resp.fields["id"])
  {
    var weibo := RespToItem(resp, local2unix).value.weibo;
    CopiedKey(weibo.fields, resp, WeiboKeys, "reposts_count");
    CopiedKey(weibo.fields, resp, WeiboKeys, "id");
  }

  /** The post response passes the fatal check and maps. */
  predicate SourceMaps(resp: Json, mapPost: Json -> Result<Mapped>)
  {
    TokenInvalid(resp) == Ok(false) && mapPost(resp).Ok?
  }

  /** The post response passes the fatal check and fails to map with KeyError. */
  predicate ShapeFailure(resp: Json, mapPost: Json -> Result<Mapped>)
  {
    TokenInvalid(resp) == Ok(false) && mapPost(resp).Err? && mapPost(resp).error.KeyError?
  }

  /**
   * The source-post callback on a request with counter `retry` for post `wid`. `shared` is
   * the object the mapped post becomes; every page request carries it. The items go out
   * before `reposts_count` and `id` are read back from the post item, and both are read
   * before the count is divided.
   */
  function SourceWeiboStep(retry: nat, wid: Json, resp: Json, mapPost: Json -> Result<Mapped>,
                           shared: SourceWeibo?): (r: Step)
    requires SourceMaps(resp, mapPost) ==> shared != null
    ensures r.ending == Abort <==> TokenInvalid(resp) == Ok(true)
    ensures r.ending == Abort ==> r.outputs == []
    ensures mapPost(resp).Err? ==> |r.outputs| <= 1 && Weibos(r.outputs) == []
  {
    match TokenInvalid(resp)
    case Err(e) => Step([], Crash(e))
    case Ok(invalid) =>
      if invalid then Step([], Abort)
      else
        match mapPost(resp)
        case Err(e) =>
          if !e.KeyError? then Step([], Crash(e))
          else if retry + 1 > MaxRetry then Step([], Done)
          // the retry request goes out, then the callback reads the unbound `user`
          else Step([Issue(ShowRequest(wid, retry + 1, true))], Crash(NameError))
        case Ok(m) =>
          match ItemField(m.weibo, "reposts_count")
          case Err(e) => Step(ItemOutputs(m), Crash(e))
          case Ok(reposts) =>
            match ItemField(m.weibo, "id")
            case Err(e) => Step(ItemOutputs(m), Crash(e))
            case Ok(id) =>
              match AsNumber(reposts)
              case Err(e) => Step(ItemOutputs(m), Crash(e))
              case Ok(count) => Step(ItemOutputs(m) + Issues(PageFanOut(id, PageCount(count), shared)), Done)
  }

  /** The source-post callback: maps the post, creates the shared source post, fans out pages. */
  method OnSourceWeibo(retry: nat, wid: Json, resp: Json, mapPost: Json -> Result<Mapped>)
    returns (step: Step, shared: SourceWeibo?)
    ensures (shared != null) == SourceMaps(resp, mapPost)
    ensures shared != null ==> fresh(shared) && shared.reposts == [] && shared.post == mapPost(resp).value.weibo
    ensures step == SourceWeiboStep(retry, wid, resp, mapPost, shared)
  {
    shared := null;
    var invalid := TokenInvalid(resp);
    if invalid.Err? {
      step := Step([], Crash(invalid.error));
      return;
    }
    if invalid.value {
      step := Step([], Abort);
      return;
    }
    var mapped := mapPost(resp);
    if mapped.Err? {
      var retried := retry + 1;
      if !mapped.error.KeyError? {
        step := Step([], Crash(mapped.error));
      } else if retried > MaxRetry {
        step := Step([], Done);
      } else {
        step := Step([Issue(ShowRequest(wid, retried, true))], Crash(NameError));
      }
      return;
    }
    var m := mapped.value;
    shared := new SourceWeibo(m.weibo);
    var reposts := ItemField(m.weibo, "reposts_count");
    if reposts.Err? {
      step := Step(ItemOutputs(m), Crash(reposts.error));
      return;
    }
    var id := ItemField(m.weibo, "id");
    if id.Err? {
      step := Step(ItemOutputs(m), Crash(id.error));
      return;
    }
    var count := AsNumber(reposts.value);
    if count.Err? {
      step := Step(ItemOutputs(m), Crash(count.error));
      return;
    }
    var pages := FanOutPages(id.value, count.value, shared);
    step := Step(ItemOutputs(m) + Issues(pages), Done);
  }

  /** A token error code aborts the run before the post is mapped: nothing is yielded. */
  lemma TokenErrorAbortsSource(retry: nat, wid: Json, resp: Json, mapPost: Json -> Result<Mapped>,
                               shared: SourceWeibo?)
    requires resp.JObj? && "error_code" in resp.fields
    requires resp.fields["error_code"].JNum? && resp.fields["error_code"].n in TokenErrorCodes
    ensures SourceWeiboStep(retry, wid, resp, mapPost, shared) == Step([], Abort)
  {
  }

  /** A mapped post's items followed by the fan-out for `pages` pages, filtered back apart. */
  lemma FanOutOutputs(m: Mapped, id: Json, pages: int, shared: SourceWeibo)
    ensures var outputs := ItemOutputs(m) + Issues(PageFanOut(id, pages, shared));
            && Weibos(outputs) == [m.weibo]
            && |Requests(outputs)| == (if pages <= 0 then 0 else pages)
            && forall i | 0 <= i < |Requests(outputs)| :: Requests(outputs)[i] == PageRequest(id, i + 1, 0, shared, false)
  {
    var requests := PageFanOut(id, pages, shared);
    var outputs := ItemOutputs(m) + Issues(requests);
    FiltersAppend(ItemOutputs(m), Issues(requests));
    ItemOutputsFilters(m);
    IssuesAreRequests(requests);
    assert Requests(outputs) == [] + requests == requests;
    assert Weibos(outputs) == [m.weibo] + [] == [m.weibo];
    PageFanOutShape(id, pages, shared);
  }

  /**
   * A post that maps to an item whose `reposts_count` is r yields exactly one post item,
   * itself, and exactly ⌈r/200⌉ page requests, for pages 1, 2, ... in order, each with
   * counter 0, the item's own id and the shared source post; r <= 0 gives none.
   */
  lemma SourceFanOut(retry: nat, wid: Json, resp: Json, mapPost: Json -> Result<Mapped>,
                     shared: SourceWeibo, m: Mapped, r: int, id: Json)
    requires TokenInvalid(resp) == Ok(false) && mapPost(resp) == Ok(m)
    requires ItemField(m.weibo, "reposts_count") == Ok(JNum(r)) && ItemField(m.weibo, "id") == Ok(id)
    ensures var step := SourceWeiboStep(retry, wid, resp, mapPost, shared);
            && step.ending == Done
            && Weibos(step.outputs) == [m.weibo]
            && |Requests(step.outputs)| == (if r <= 0 then 0 else PageCount(r))
            && forall i | 0 <= i < |Requests(step.outputs)| ::
                 Requests(step.outputs)[i] == PageRequest(id, i + 1, 0, shared, false)
  {
    FanOutOutputs(m, id, PageCount(r), shared);
  }

  /**
   * The spider's own mapping: a post object with `reposts_count` r fans out into ⌈r/200⌉
   * page requests carrying the object's own `id`.
   */
  lemma PostFanOut(retry: nat, wid: Json, resp: Json, local2unix: string -> Option<int>,
                   shared: SourceWeibo, r: int)
    requires TokenInvalid(resp) == Ok(false) && WellFormedResp(resp, local2unix)
    requires resp.JObj? && "reposts_count" in resp.fields && resp.fields["reposts_count"] == JNum(r)
    ensures "id" in resp.fields
    ensures var step := SourceWeiboStep(retry, wid, resp, PostMapper(local2unix), shared);
            && step.ending == Done
            && Weibos(step.outputs) == [RespToItem(resp, local2unix).value.weibo]
            && |Requests(step.outputs)| == (if r <= 0 then 0 else PageCount(r))
            && forall i | 0 <= i < |Requests(step.outputs)| ::
                 Requests(step.outputs)[i] == PageRequest(resp.fields["id"], i + 1, 0, shared, false)
  {
    MappedFanOutFields(resp, local2unix);
    SourceFanOut(retry, wid, resp, PostMapper(local2unix), shared, RespToItem(resp, local2unix).value,
                 r, resp.fields["id"]);
  }

  /**
   * A shape failure below the ceiling yields exactly one request for the same post, with the
   * counter raised by one and dedup bypassed, and then fails on the unbound `user`; at the
   * ceiling it yields nothing.
   */
  lemma SourceShapeFailureRetries(retry: nat, wid: Json, resp: Json, mapPost: Json -> Result<Mapped>,
                                  shared: SourceWeibo?)
    requires ShapeFailure(resp, mapPost)
    ensures var step := SourceWeiboStep(retry, wid, resp, mapPost, shared);
            if retry < MaxRetry then step == Step([Issue(ShowRequest(wid, retry + 1, true))], Crash(NameError))
            else step == Step([], Done)
  {
  }

  /** The source-post request a step re-issued, if it re-issued one. */
  function ReissuedShow(step: Step): Option<Request>
  {
    if |step.outputs| > 0 && step.outputs[0].Issue? && step.outputs[0].request.ShowRequest?
    then Some(step.outputs[0].request)
    else None
  }

  /** How many responses a chain of source-post attempts consumes, following its retries. */
  function SourceAttempts(retry: nat, wid: Json, resps: seq<Json>, mapPost: Json -> Result<Mapped>,
                          shared: SourceWeibo): nat
    decreases |resps|
  {
    if resps == [] then 0
    else
      match ReissuedShow(SourceWeiboStep(retry, wid, resps[0], mapPost, shared))
      case None => 1
      case Some(next) => 1 + SourceAttempts(next.retry, next.wid, resps[1..], mapPost, shared)
  }

  /** From counter `retry`, at most MaxRetry + 1 - retry attempts: from a seed, 3 retries at most. */
  lemma {:induction false} SourceAttemptsBounded(retry: nat, wid: Json, resps: seq<Json>,
                                                 mapPost: Json -> Result<Mapped>, shared: SourceWeibo)
    requires retry <= MaxRetry
    ensures SourceAttempts(retry, wid, resps, mapPost, shared) <= MaxRetry + 1 - retry
    decreases |resps|
  {
    if resps != [] {
      var step := SourceWeiboStep(retry, wid, resps[0], mapPost, shared);
      match ReissuedShow(step)
      case None =>
      case Some(next) =>
        assert next == ShowRequest(wid, retry + 1, true);
        SourceAttemptsBounded(next.retry, next.wid, resps[1..], mapPost, shared);
    }
  }

  /** Responses that keep failing to map are tried exactly MaxRetry + 1 - retry times, then dropped. */
  lemma {:induction false} SourceAttemptsExhausted(retry: nat, wid: Json, resps: seq<Json>,
                                                   mapPost: Json -> Result<Mapped>, shared: SourceWeibo)
    requires retry <= MaxRetry
    requires |resps| > MaxRetry - retry
    requires forall i | 0 <= i < |resps| :: ShapeFailure(resps[i], mapPost)
    ensures SourceAttempts(retry, wid, resps, mapPost, shared) == MaxRetry + 1 - retry
    decreases |resps|
  {
    SourceShapeFailureRetries(retry, wid, resps[0], mapPost, shared);
    if retry < MaxRetry {
      SourceAttemptsExhausted(retry + 1, wid, resps[1..], mapPost, shared);
    }
  }

  // ---------------------------------------------------------------------------------------
  // The repost-page callback

  /** What the reposts of one page give, up to the first error that is not KeyError. */
  datatype RepostsFold = RepostsFold(posts: seq<WeiboItem>, outputs: seq<Output>, error: Option<PyError>)

  /**
   * The repost loop, `mapPost` mapping one repost: each repost that maps is appended and
   * its items yielded; one that fails with KeyError is skipped; any other error stops the
   * loop and escapes the callback.
   */
  function MapReposts(reposts: seq<Json>, mapPost: Json -> Result<Mapped>): (r: RepostsFold)
    ensures |r.posts| <= |reposts|
    ensures r.error.Some? ==> !r.error.value.KeyError?
    decreases |reposts|
  {
    if reposts == [] then RepostsFold([], [], None)
    else
      var before := MapReposts(reposts[..|reposts| - 1], mapPost);
      if before.error.Some? then before
      else
        match mapPost(reposts[|reposts| - 1])
        case Err(e) => if e.KeyError? then before else before.(error := Some(e))
        case Ok(m) => RepostsFold(before.posts + [m.weibo], before.outputs + ItemOutputs(m), None)
  }

  /** Once a repost has raised, the rest of the page is never looked at. */
  lemma {:induction false} MapRepostsStopsAtError(reposts: seq<Json>, i: nat, mapPost: Json -> Result<Mapped>)
    requires i <= |reposts|
    requires MapReposts(reposts[..i], mapPost).error.Some?
    ensures MapReposts(reposts, mapPost) == MapReposts(reposts[..i], mapPost)
    decreases |reposts| - i
  {
    if i < |reposts| {
      var init := reposts[..|reposts| - 1];
      assert init[..i] == reposts[..i];
      MapRepostsStopsAtError(init, i, mapPost);
    } else {
      assert reposts[..i] == reposts;
    }
  }

  /** Every appended repost is yielded as a post item, and nothing else is: no requests, no other post. */
  lemma {:induction false} MapRepostsYieldsAppended(reposts: seq<Json>, mapPost: Json -> Result<Mapped>)
    ensures Weibos(MapReposts(reposts, mapPost).outputs) == MapReposts(reposts, mapPost).posts
    ensures Requests(MapReposts(reposts, mapPost).outputs) == []
    decreases |reposts|
  {
    if reposts != [] {
      var init := reposts[..|reposts| - 1];
      MapRepostsYieldsAppended(init, mapPost);
      var before := MapReposts(init, mapPost);
      if before.error.None? {
        match mapPost(reposts[|reposts| - 1])
        case Err(e) =>
        case Ok(m) =>
          FiltersAppend(before.outputs, ItemOutputs(m));
          ItemOutputsFilters(m);
      }
    }
  }

  /** When every repost maps, every one is appended, in page order. */
  lemma {:induction false} MapRepostsAllMapped(reposts: seq<Json>, mapPost: Json -> Result<Mapped>)
    requires forall i | 0 <= i < |reposts| :: mapPost(reposts[i]).Ok?
    ensures var f := MapReposts(reposts, mapPost);
            && f.error.None?
            && |f.posts| == |reposts|
            && forall i | 0 <= i < |reposts| :: f.posts[i] == mapPost(reposts[i]).value.weibo
    decreases |reposts|
  {
    if reposts != [] {
      var init := reposts[..|reposts| - 1];
      assert forall i | 0 <= i < |init| :: init[i] == reposts[i];
      MapRepostsAllMapped(init, mapPost);
      var before := MapReposts(init, mapPost);
      var last := mapPost(reposts[|reposts| - 1]);
      assert last.Ok?;
      assert MapReposts(reposts, mapPost).posts == before.posts + [last.value.weibo];
    }
  }

  /** Reposts that all fail with KeyError are all skipped: nothing appended, nothing yielded. */
  lemma {:induction false} MapRepostsSkipsShapeFailures(reposts: seq<Json>, mapPost: Json -> Result<Mapped>)
    requires forall i | 0 <= i < |reposts| ::
               mapPost(reposts[i]).Err? && mapPost(reposts[i]).error.KeyError?
    ensures MapReposts(reposts, mapPost) == RepostsFold([], [], None)
    decreases |reposts|
  {
    if reposts != [] {
      var init := reposts[..|reposts| - 1];
      assert forall i | 0 <= i < |init| :: init[i] == reposts[i];
      MapRepostsSkipsShapeFailures(init, mapPost);
    }
  }

  /** A repost the loop gets past: it maps, or it fails with the KeyError the loop catches. */
  predicate Tolerated(mapped: Result<Mapped>)
  {
    mapped.Ok? || mapped.error.KeyError?
  }

  /** The reposts that map, mapped, in page order: the reference the repost loop is held to. */
  function Kept(reposts: seq<Json>, mapPost: Json -> Result<Mapped>): seq<Mapped>
    decreases |reposts|
  {
    if reposts == [] then []
    else (if mapPost(reposts[0]).Ok? then [mapPost(reposts[0]).value] else []) + Kept(reposts[1..], mapPost)
  }

  /** The post items of some mapped reposts, in order. */
  function KeptPosts(ms: seq<Mapped>): seq<WeiboItem>
  {
    if ms == [] then [] else [ms[0].weibo] + KeptPosts(ms[1..])
  }

  /** What some mapped reposts yield, one after another. */
  function KeptOutputs(ms: seq<Mapped>): seq<Output>
  {
    if ms == [] then [] else ItemOutputs(ms[0]) + KeptOutputs(ms[1..])
  }

  lemma {:induction false} KeptSnoc(reposts: seq<Json>, x: Json, mapPost: Json -> Result<Mapped>)
    ensures Kept(reposts + [x], mapPost)
            == Kept(reposts, mapPost) + (if mapPost(x).Ok? then [mapPost(x).value] else [])
    decreases |reposts|
  {
    var last: seq<Mapped> := if mapPost(x).Ok? then [mapPost(x).value] else [];
    if reposts == [] {
      assert reposts + [x] == [x] && [x][1..] == [];
      assert Kept([x], mapPost) == last + [];
    } else {
      var head: seq<Mapped> := if mapPost(reposts[0]).Ok? then [mapPost(reposts[0]).value] else [];
      assert (reposts + [x])[0] == reposts[0] && (reposts + [x])[1..] == reposts[1..] + [x];
      KeptSnoc(reposts[1..], x, mapPost);
      assert Kept(reposts + [x], mapPost) == head + (Kept(reposts[1..], mapPost) + last);
      assert head + (Kept(reposts[1..], mapPost) + last) == (head + Kept(reposts[1..], mapPost)) + last;
    }
  }

  lemma {:induction false} KeptPostsAppend(a: seq<Mapped>, b: seq<Mapped>)
    ensures KeptPosts(a + b) == KeptPosts(a) + KeptPosts(b)
  {
    if a == [] {
      assert a + b == b;
    } else {
      assert (a + b)[0] == a[0] && (a + b)[1..] == a[1..] + b;
      KeptPostsAppend(a[1..], b);
      assert KeptPosts(a + b) == [a[0].weibo] + (KeptPosts(a[1..]) + KeptPosts(b));
      assert [a[0].weibo] + (KeptPosts(a[1..]) + KeptPosts(b)) == ([a[0].weibo] + KeptPosts(a[1..])) + KeptPosts(b);
    }
  }

  lemma {:induction false} KeptOutputsAppend(a: seq<Mapped>, b: seq<Mapped>)
    ensures KeptOutputs(a + b) == KeptOutputs(a) + KeptOutputs(b)
  {
    if a == [] {
      assert a + b == b;
    } else {
      assert (a + b)[0] == a[0] && (a + b)[1..] == a[1..] + b;
      KeptOutputsAppend(a[1..], b);
      assert KeptOutputs(a + b) == ItemOutputs(a[0]) + (KeptOutputs(a[1..]) + KeptOutputs(b));
      assert ItemOutputs(a[0]) + (KeptOutputs(a[1..]) + KeptOutputs(b))
             == (ItemOutputs(a[0]) + KeptOutputs(a[1..])) + KeptOutputs(b);
    }
  }

  /**
   * The repost loop on any page: it runs to the end iff every repost maps or fails with
   * KeyError, and then it has appended exactly the reposts that map, in page order, skipping
   * the others, and yielded each one's items in that order.
   */
  lemma {:induction false} MapRepostsMatchesKept(reposts: seq<Json>, mapPost: Json -> Result<Mapped>)
    ensures MapReposts(reposts, mapPost).error.None?
            <==> forall i | 0 <= i < |reposts| :: Tolerated(mapPost(reposts[i]))
    ensures MapReposts(reposts, mapPost).error.None? ==>
              && MapReposts(reposts, mapPost).posts == KeptPosts(Kept(reposts, mapPost))
              && MapReposts(reposts, mapPost).outputs == KeptOutputs(Kept(reposts, mapPost))
    decreases |reposts|
  {
    if reposts != [] {
      var init := reposts[..|reposts| - 1];
      var x := reposts[|reposts| - 1];
      assert reposts == init + [x];
      assert forall i | 0 <= i < |init| :: init[i] == reposts[i];
      MapRepostsMatchesKept(init, mapPost);
      KeptSnoc(init, x, mapPost);
      var before := MapReposts(init, mapPost);
      var kept := Kept(init, mapPost);
      if before.error.None? && mapPost(x).Ok? {
        var m := mapPost(x).value;
        KeptPostsAppend(kept, [m]);
        KeptOutputsAppend(kept, [m]);
        assert [m][1..] == [];
        assert KeptPosts([m]) == [m.weibo] + [];
        assert KeptOutputs([m]) == ItemOutputs(m) + [];
      } else if before.error.None? && Tolerated(mapPost(x)) {
        assert kept + [] == kept;
      }
    }
  }

  /** The page reports an empty `reposts` list. */
  function EmptyPage(resp: Json): (r: Result<bool>)
    ensures r == Ok(true) <==> resp.JObj? && "reposts" in resp.fields && resp.fields["reposts"] == JArr([])
    ensures resp.JObj? ==> r.Ok?
  {
    match Contains(resp, "reposts")
    case Err(e) => Err(e)
    case Ok(present) =>
      if !present then Ok(false)
      else
        match Subscript(resp, "reposts")
        case Err(e) => Err(e)
        case Ok(v) => Ok(v == JArr([]))
  }

  /** The reposts list after a page callback, and what it yielded. */
  datatype PageOutcome = PageOutcome(reposts: seq<WeiboItem>, step: Step)

  /**
   * The page callback on page `page` of post `wid` with counter `retry`, when the shared
   * source post's `reposts` list holds `prior`.
   */
  function RepostPageStep(page: nat, retry: nat, wid: Json, source: SourceWeibo, prior: seq<WeiboItem>,
                          resp: Json, mapPost: Json -> Result<Mapped>): (r: PageOutcome)
    ensures r.step.ending == Abort <==> TokenInvalid(resp) == Ok(true)
    ensures r.step.ending == Abort ==> r.step.outputs == [] && r.reposts == prior
  {
    match TokenInvalid(resp)
    case Err(e) => PageOutcome(prior, Step([], Crash(e)))
    case Ok(invalid) =>
      if invalid then PageOutcome(prior, Step([], Abort))
      else
        match EmptyPage(resp)
        case Err(e) => PageOutcome(prior, Step([], Crash(e)))
        case Ok(empty) =>
          if empty then
            if retry + 1 > MaxRetry then PageOutcome(prior, Step([], Done))
            else PageOutcome(prior, Step([Issue(PageRequest(wid, page, retry + 1, source, true))], Done))
          else
            match Subscript(resp, "reposts")
            case Err(e) => PageOutcome(prior, Step([], Crash(e)))
            case Ok(listed) =>
              match Elements(listed)
              case Err(e) => PageOutcome(prior, Step([], Crash(e)))
              case Ok(reposts) =>
                var f := MapReposts(reposts, mapPost);
                var now := prior + f.posts;
                if f.error.Some? then PageOutcome(now, Step(f.outputs, Crash(f.error.value)))
                else PageOutcome(now, Step(f.outputs + [EmitWeibo(source.post.(reposts := Some(now)))], Done))
  }

  /** The page callback: appends the page's mapped reposts to the shared source post in place. */
  method OnRepostPage(page: nat, retry: nat, wid: Json, source: SourceWeibo, resp: Json,
                      mapPost: Json -> Result<Mapped>) returns (step: Step)
    modifies source
    ensures source.reposts == RepostPageStep(page, retry, wid, source, old(source.reposts), resp, mapPost).reposts
    ensures step == RepostPageStep(page, retry, wid, source, old(source.reposts), resp, mapPost).step
    ensures source.reposts == old(source.reposts) + PageReposts(resp, mapPost)
  {
    PageAppends(page, retry, wid, source, source.reposts, resp, mapPost);
    var invalid := TokenInvalid(resp);
    if invalid.Err? {
      return Step([], Crash(invalid.error));
    }
    if invalid.value {
      return Step([], Abort);
    }
    var empty := EmptyPage(resp);
    if empty.Err? {
      return Step([], Crash(empty.error));
    }
    if empty.value {
      var retried := retry + 1;
      if retried > MaxRetry {
        return Step([], Done);
      }
      return Step([Issue(PageRequest(wid, page, retried, source, true))], Done);
    }
    var listed := Subscript(resp, "reposts");
    if listed.Err? {
      return Step([], Crash(listed.error));
    }
    var elements := Elements(listed.value);
    if elements.Err? {
      return Step([], Crash(elements.error));
    }
    var reposts := elements.value;
    var outputs, error := AppendReposts(source, reposts, mapPost);
    if error.Some? {
      step := Step(outputs, Crash(error.value));
    } else {
      step := Step(outputs + [EmitWeibo(source.Item())], Done);
    }
  }

  /**
   * The repost loop of the page callback, in place: maps each repost with `mapPost`, appends
   * what maps to the shared list and stops at the first error that is not KeyError.
   */
  method AppendReposts(source: SourceWeibo, reposts: seq<Json>, mapPost: Json -> Result<Mapped>)
    returns (outputs: seq<Output>, error: Option<PyError>)
    modifies source
    ensures source.reposts == old(source.reposts) + MapReposts(reposts, mapPost).posts
    ensures outputs == MapReposts(reposts, mapPost).outputs
    ensures error == MapReposts(reposts, mapPost).error
  {
    outputs := [];
    error := None;
    var i := 0;
    while i < |reposts| && error.None?
      invariant 0 <= i <= |reposts|
      invariant source.reposts == old(source.reposts) + MapReposts(reposts[..i], mapPost).posts
      invariant outputs == MapReposts(reposts[..i], mapPost).outputs
      invariant error == MapReposts(reposts[..i], mapPost).error
    {
      assert reposts[..i + 1][..i] == reposts[..i];
      var mapped := mapPost(reposts[i]);
      if mapped.Ok? {
        source.reposts := source.reposts + [mapped.value.weibo];
        outputs := outputs + ItemOutputs(mapped.value);
      } else if !mapped.error.KeyError? {
        error := Some(mapped.error);
      }
      i := i + 1;
    }
    if error.Some? {
      MapRepostsStopsAtError(reposts, i, mapPost);
    } else {
      assert reposts[..i] == reposts;
    }
  }

  /** A token error code aborts the run before the page is read: nothing appended or yielded. */
  lemma TokenErrorAbortsPage(page: nat, retry: nat, wid: Json, source: SourceWeibo, prior: seq<WeiboItem>,
                             resp: Json, mapPost: Json -> Result<Mapped>)
    requires resp.JObj? && "error_code" in resp.fields
    requires resp.fields["error_code"].JNum? && resp.fields["error_code"].n in TokenErrorCodes
    ensures RepostPageStep(page, retry, wid, source, prior, resp, mapPost) == PageOutcome(prior, Step([], Abort))
  {
  }

  /** The page reports an empty `reposts` list (and carries no token error). */
  predicate EmptyPageReported(resp: Json)
  {
    TokenInvalid(resp) == Ok(false) && EmptyPage(resp) == Ok(true)
  }

  /**
   * An empty page is re-requested (same page, post and source post, counter raised by one,
   * dedup bypassed) while the raised counter is at most MaxRetry, and dropped after; either
   * way nothing is appended and no item is yielded.
   */
  lemma EmptyPageRetries(page: nat, retry: nat, wid: Json, source: SourceWeibo, prior: seq<WeiboItem>,
                         resp: Json, mapPost: Json -> Result<Mapped>)
    requires EmptyPageReported(resp)
    ensures var o := RepostPageStep(page, retry, wid, source, prior, resp, mapPost);
            && o.reposts == prior
            && o.step.ending == Done
            && o.step.outputs == if retry < MaxRetry then [Issue(PageRequest(wid, page, retry + 1, source, true))] else []
  {
  }

  /** The reposts listed on a page response, when it lists them as an array. */
  function PageEntries(resp: Json): seq<Json>
  {
    if Subscript(resp, "reposts").Ok? && Elements(Subscript(resp, "reposts").value).Ok?
    then Elements(Subscript(resp, "reposts").value).value
    else []
  }

  /** The reposts a page response adds to the source post, whatever the list held before. */
  function PageReposts(resp: Json, mapPost: Json -> Result<Mapped>): seq<WeiboItem>
  {
    if TokenInvalid(resp) == Ok(false) && EmptyPage(resp) == Ok(false) && Subscript(resp, "reposts").Ok?
       && Elements(Subscript(resp, "reposts").value).Ok?
    then MapReposts(PageEntries(resp), mapPost).posts
    else []
  }

  /** A page only ever appends to the shared list: the old list is a prefix of the new one. */
  lemma PageAppends(page: nat, retry: nat, wid: Json, source: SourceWeibo, prior: seq<WeiboItem>,
                    resp: Json, mapPost: Json -> Result<Mapped>)
    ensures RepostPageStep(page, retry, wid, source, prior, resp, mapPost).reposts
            == prior + PageReposts(resp, mapPost)
  {
  }

  /**
   * A page that is not empty and raises nothing appends the reposts that map, in page order,
   * yields each one's author, post and reposted post's author in that order, then the source
   * post once, as its last output, showing the list after the append; it issues no request.
   */
  lemma {:induction false} PageYieldsSourceOnce(page: nat, retry: nat, wid: Json, source: SourceWeibo,
                                                prior: seq<WeiboItem>, resp: Json,
                                                mapPost: Json -> Result<Mapped>)
    requires TokenInvalid(resp) == Ok(false) && EmptyPage(resp) == Ok(false)
    requires RepostPageStep(page, retry, wid, source, prior, resp, mapPost).step.ending == Done
    ensures var o := RepostPageStep(page, retry, wid, source, prior, resp, mapPost);
            var kept := Kept(PageEntries(resp), mapPost);
            && o.reposts == prior + PageReposts(resp, mapPost)
            && PageReposts(resp, mapPost) == KeptPosts(kept)
            && o.step.outputs == KeptOutputs(kept) + [EmitWeibo(source.post.(reposts := Some(o.reposts)))]
            && Requests(o.step.outputs) == []
            && Weibos(o.step.outputs) == PageReposts(resp, mapPost) + [source.post.(reposts := Some(o.reposts))]
  {
    var reposts := PageEntries(resp);
    var f := MapReposts(reposts, mapPost);
    var now := prior + f.posts;
    var last := EmitWeibo(source.post.(reposts := Some(now)));
    MapRepostsYieldsAppended(reposts, mapPost);
    MapRepostsMatchesKept(reposts, mapPost);
    FiltersAppend(f.outputs, [last]);
  }

  /** The list after each handled (request, response) pair has gone through `pageStep` in turn. */
  function AfterPages(prior: seq<WeiboItem>, handled: seq<(Request, Json)>,
                      pageStep: (Request, seq<WeiboItem>, Json) -> seq<WeiboItem>): seq<WeiboItem>
    decreases |handled|
  {
    if handled == [] then prior
    else AfterPages(pageStep(handled[0].0, prior, handled[0].1), handled[1..], pageStep)
  }

  /** What the page callback does to the shared list, as a function value; other requests leave it be. */
  function PageCallbackReposts(mapPost: Json -> Result<Mapped>): (Request, seq<WeiboItem>, Json) -> seq<WeiboItem>
  {
    (request: Request, prior: seq<WeiboItem>, resp: Json) =>
      if request.PageRequest?
      then RepostPageStep(request.page, request.retry, request.wid, request.source, prior, resp, mapPost).reposts
      else prior
  }

  /** What the handled responses contribute one after another, `contrib` giving one response's part. */
  function Contributions(handled: seq<(Request, Json)>, contrib: Json -> seq<WeiboItem>): seq<WeiboItem>
    decreases |handled|
  {
    if handled == [] then [] else contrib(handled[0].1) + Contributions(handled[1..], contrib)
  }

  /** A step that only appends its own contribution, repeated, appends all contributions in order. */
  lemma {:induction false} AppendOnlyAccumulates(prior: seq<WeiboItem>, handled: seq<(Request, Json)>,
                                                 pageStep: (Request, seq<WeiboItem>, Json) -> seq<WeiboItem>,
                                                 contrib: Json -> seq<WeiboItem>)
    requires forall request, p, resp | (request, resp) in handled :: pageStep(request, p, resp) == p + contrib(resp)
    ensures AfterPages(prior, handled, pageStep) == prior + Contributions(handled, contrib)
    decreases |handled|
  {
    if handled != [] {
      assert handled[0] in handled;
      assert forall x | x in handled[1..] :: x in handled;
      AppendOnlyAccumulates(pageStep(handled[0].0, prior, handled[0].1), handled[1..], pageStep, contrib);
    }
  }

  /**
   * Across any sequence of page callbacks on source posts, the reposts list grows
   * monotonically: it ends as the old list followed by every page's contribution in turn.
   */
  lemma RepostsAccumulate(prior: seq<WeiboItem>, handled: seq<(Request, Json)>,
                          mapPost: Json -> Result<Mapped>)
    requires forall request, resp | (request, resp) in handled :: request.PageRequest?
    ensures AfterPages(prior, handled, PageCallbackReposts(mapPost))
            == prior + Contributions(handled, resp => PageReposts(resp, mapPost))
  {
    var step := PageCallbackReposts(mapPost);
    var contrib := (resp: Json) => PageReposts(resp, mapPost);
    forall request, p, resp | (request, resp) in handled
      ensures step(request, p, resp) == p + contrib(resp)
    {
      PageAppends(request.page, request.retry, request.wid, request.source, p, resp, mapPost);
    }
    AppendOnlyAccumulates(prior, handled, step, contrib);
  }

  /** One page response's contribution to the list, as a function value. */
  function PageContribution(mapPost: Json -> Result<Mapped>): Json -> seq<WeiboItem>
  {
    resp => PageReposts(resp, mapPost)
  }

  lemma {:induction false} ContributionsSnoc(handled: seq<(Request, Json)>, last: (Request, Json),
                                             contrib: Json -> seq<WeiboItem>)
    ensures Contributions(handled + [last], contrib) == Contributions(handled, contrib) + contrib(last.1)
    decreases |handled|
  {
    if handled == [] {
      assert handled + [last] == [last] && [last][1..] == [];
      assert Contributions([last], contrib) == contrib(last.1) + [];
    } else {
      var head := contrib(handled[0].1);
      assert (handled + [last])[0] == handled[0] && (handled + [last])[1..] == handled[1..] + [last];
      ContributionsSnoc(handled[1..], last, contrib);
      assert Contributions(handled + [last], contrib)
             == head + (Contributions(handled[1..], contrib) + contrib(last.1));
      assert head + (Contributions(handled[1..], contrib) + contrib(last.1))
             == (head + Contributions(handled[1..], contrib)) + contrib(last.1);
    }
  }

  /** Adding the i-th response's contribution to the list after the first i extends it by one response. */
  lemma ContributionsStep(handled: seq<(Request, Json)>, i: nat, contrib: Json -> seq<WeiboItem>,
                          base: seq<WeiboItem>, before: seq<WeiboItem>)
    requires i < |handled| && before == base + Contributions(handled[..i], contrib)
    ensures before + contrib(handled[i].1) == base + Contributions(handled[..i + 1], contrib)
  {
    ContributionsSnoc(handled[..i], handled[i], contrib);
    assert handled[..i + 1] == handled[..i] + [handled[i]];
  }

  /**
   * The page callbacks of one seed's post, run one after another on the source post they all
   * share: each appends to the same object, so the list ends as the old list followed by every
   * page's reposts in handling order.
   */
  method HandlePages(source: SourceWeibo, handled: seq<(Request, Json)>, mapPost: Json -> Result<Mapped>)
    returns (steps: seq<Step>)
    requires forall i | 0 <= i < |handled| :: handled[i].0.PageRequest? && handled[i].0.source == source
    modifies source
    ensures |steps| == |handled|
    ensures source.reposts == old(source.reposts) + Contributions(handled, PageContribution(mapPost))
  {
    var contrib := PageContribution(mapPost);
    steps := [];
    var i := 0;
    while i < |handled|
      invariant 0 <= i <= |handled|
      invariant |steps| == i
      invariant source.reposts == old(source.reposts) + Contributions(handled[..i], contrib)
    {
      var request := handled[i].0;
      ghost var prior := source.reposts;
      var step := OnRepostPage(request.page, request.retry, request.wid, source, handled[i].1, mapPost);
      ContributionsStep(handled, i, contrib, old(source.reposts), prior);
      steps := steps + [step];
      i := i + 1;
    }
    assert handled[..i] == handled;
  }

  /** The page request a step re-issued, if it re-issued one. */
  function ReissuedPage(step: Step): Option<Request>
  {
    if step.ending == Done && |step.outputs| == 1 && step.outputs[0].Issue? && step.outputs[0].request.PageRequest?
    then Some(step.outputs[0].request)
    else None
  }

  /** How many responses a chain of attempts at one page consumes, following its retries. */
  function PageAttempts(page: nat, retry: nat, wid: Json, source: SourceWeibo, prior: seq<WeiboItem>,
                        resps: seq<Json>, mapPost: Json -> Result<Mapped>): nat
    decreases |resps|
  {
    if resps == [] then 0
    else
      var o := RepostPageStep(page, retry, wid, source, prior, resps[0], mapPost);
      match ReissuedPage(o.step)
      case None => 1
      case Some(next) =>
        1 + PageAttempts(next.page, next.retry, next.wid, next.source, o.reposts, resps[1..], mapPost)
  }

  /** From counter `retry`, at most MaxRetry + 1 - retry attempts: from the fan-out, 3 retries at most. */
  lemma {:induction false} PageAttemptsBounded(page: nat, retry: nat, wid: Json, source: SourceWeibo,
                                               prior: seq<WeiboItem>, resps: seq<Json>,
                                               mapPost: Json -> Result<Mapped>)
    requires retry <= MaxRetry
    ensures PageAttempts(page, retry, wid, source, prior, resps, mapPost) <= MaxRetry + 1 - retry
    decreases |resps|
  {
    if resps != [] {
      var o := RepostPageStep(page, retry, wid, source, prior, resps[0], mapPost);
      match ReissuedPage(o.step)
      case None =>
      case Some(next) =>
        assert next == PageRequest(wid, page, retry + 1, source, true);
        PageAttemptsBounded(next.page, next.retry, next.wid, next.source, o.reposts, resps[1..], mapPost);
    }
  }

  /** One empty-page response takes one attempt and, below the ceiling, hands the page on with counter + 1. */
  lemma EmptyPageAttempt(page: nat, retry: nat, wid: Json, source: SourceWeibo, prior: seq<WeiboItem>,
                         resps: seq<Json>, mapPost: Json -> Result<Mapped>)
    requires |resps| > 0 && EmptyPageReported(resps[0])
    ensures PageAttempts(page, retry, wid, source, prior, resps, mapPost)
            == if retry < MaxRetry then 1 + PageAttempts(page, retry + 1, wid, source, prior, resps[1..], mapPost) else 1
  {
    var o := RepostPageStep(page, retry, wid, source, prior, resps[0], mapPost);
    EmptyPageRetries(page, retry, wid, source, prior, resps[0], mapPost);
    if retry < MaxRetry {
      assert ReissuedPage(o.step) == Some(PageRequest(wid, page, retry + 1, source, true));
    } else {
      assert ReissuedPage(o.step).None?;
    }
  }

  /** A page reported empty every time is tried exactly MaxRetry + 1 - retry times, then dropped. */
  lemma {:induction false} PageAttemptsExhausted(page: nat, retry: nat, wid: Json, source: SourceWeibo,
                                                 prior: seq<WeiboItem>, resps: seq<Json>,
                                                 mapPost: Json -> Result<Mapped>)
    requires retry <= MaxRetry
    requires |resps| > MaxRetry - retry
    requires forall i | 0 <= i < |resps| :: EmptyPageReported(resps[i])
    ensures PageAttempts(page, retry, wid, source, prior, resps, mapPost) == MaxRetry + 1 - retry
    decreases |resps|
  {
    EmptyPageAttempt(page, retry, wid, source, prior, resps, mapPost);
    if retry < MaxRetry {
      var rest := resps[1..];
      assert forall i | 0 <= i < |rest| :: rest[i] == resps[i + 1];
      PageAttemptsExhausted(page, retry + 1, wid, source, prior, rest, mapPost);
      var later := PageAttempts(page, retry + 1, wid, source, prior, rest, mapPost);
      assert later == MaxRetry - retry;
      assert PageAttempts(page, retry, wid, source, prior, resps, mapPost) == 1 + later;
    }
  }

}
