/**
 * The friend-id crawl (scrapy_weibo/spiders/friends_uids_spider.py).
 *
 * A seed user id becomes a request for the user. Its response is mapped into items by a
 * library call; with at least two items the first one, the user, is attached to a request
 * for the first batch of friend ids. Each batch response extends the user's `friends` list
 * in place and either follows the cursor to the next batch or, once the cursor is 0, emits
 * the user.
 */
module FriendsUids {
  import opened Runtime

  /** A retry counter above this value drops the user request. */
  const MaxRetry: nat := 2

  /**
   * An item built from a user response. Only the `friends` list is modelled; it is None when
   * the item has no `friends` field.
   */
  class Item {
    var friends: Option<seq<Json>>

    constructor (friends: Option<seq<Json>>)
      ensures this.friends == friends
    {
      this.friends := friends;
    }
  }

  datatype Request =
    /** A request for one user; `retryTimes` is absent until the request is retried. */
    | UserRequest(uid: string, retryTimes: Option<int>, dontFilter: bool)
    /**
     * A request for one batch of friend ids: `urlCursor` is the cursor written into the URL,
     * `cursor` the one carried beside it, `sourceUser` the item the batches accumulate into.
     */
    | FriendsRequest(uid: string, urlCursor: int, cursor: Json, sourceUser: Item, dontFilter: bool)

  /** What a callback yields: an item for the pipeline or a request for the scheduler. */
  datatype Output = Emit(item: Item) | Issue(request: Request)

  /** Everything one callback invocation yields, in order, and how it stops. */
  datatype Step = Step(outputs: seq<Output>, ending: Ending)

  // ---------------------------------------------------------------------------------------
  // Seeds

  /** One user request per seed id, in seed order, with no retry counter. */
  function StartRequests(uids: seq<string>): (r: seq<Request>)
    ensures |r| == |uids|
    ensures forall i | 0 <= i < |r| :: r[i] == UserRequest(uids[i], None, false)
  {
    if uids == [] then [] else [UserRequest(uids[0], None, false)] + StartRequests(uids[1..])
  }

  /** The user ids a sequence of requests asks for. */
  function Uids(requests: seq<Request>): seq<string>
  {
    if requests == [] then [] else [requests[0].uid] + Uids(requests[1..])
  }

  lemma {:induction false} StartRequestsRoundTrip(uids: seq<string>)
    ensures Uids(StartRequests(uids)) == uids
    ensures forall r | r in StartRequests(uids) :: r.UserRequest? && r.retryTimes.None? && !r.dontFilter
  {
    if uids != [] {
      StartRequestsRoundTrip(uids[1..]);
    }
  }

  // ---------------------------------------------------------------------------------------
  // Outputs

  function Emits(items: seq<Item>): (r: seq<Output>)
    ensures |r| == |items|
    ensures forall i | 0 <= i < |r| :: r[i] == Emit(items[i])
  {
    if items == [] then [] else [Emit(items[0])] + Emits(items[1..])
  }

  /** The items among some outputs, in order. */
  function Emitted(outputs: seq<Output>): seq<Item>
  {
    if outputs == [] then []
    else (if outputs[0].Emit? then [outputs[0].item] else []) + Emitted(outputs[1..])
  }

  /** The requests among some outputs, in order. */
  function Requests(outputs: seq<Output>): seq<Request>
  {
    if outputs == [] then []
    else (if outputs[0].Issue? then [outputs[0].request] else []) + Requests(outputs[1..])
  }

  lemma {:induction false} EmittedAppend(a: seq<Output>, b: seq<Output>)
    ensures Emitted(a + b) == Emitted(a) + Emitted(b)
  {
    if a == [] {
      assert a + b == b;
    } else {
      var head := if a[0].Emit? then [a[0].item] else [];
      assert (a + b)[0] == a[0] && (a + b)[1..] == a[1..] + b;
      EmittedAppend(a[1..], b);
      assert Emitted(a + b) == head + (Emitted(a[1..]) + Emitted(b));
      assert head + (Emitted(a[1..]) + Emitted(b)) == (head + Emitted(a[1..])) + Emitted(b);
    }
  }

  lemma {:induction false} RequestsAppend(a: seq<Output>, b: seq<Output>)
    ensures Requests(a + b) == Requests(a) + Requests(b)
  {
    if a == [] {
      assert a + b == b;
    } else {
      var head := if a[0].Issue? then [a[0].request] else [];
      assert (a + b)[0] == a[0] && (a + b)[1..] == a[1..] + b;
      RequestsAppend(a[1..], b);
      assert Requests(a + b) == head + (Requests(a[1..]) + Requests(b));
      assert head + (Requests(a[1..]) + Requests(b)) == (head + Requests(a[1..])) + Requests(b);
    }
  }

  /** Filtering distributes over concatenation. */
  lemma FiltersAppend(a: seq<Output>, b: seq<Output>)
    ensures Emitted(a + b) == Emitted(a) + Emitted(b)
    ensures Requests(a + b) == Requests(a) + Requests(b)
  {
    EmittedAppend(a, b);
    RequestsAppend(a, b);
  }

  lemma {:induction false} EmitsAreItems(items: seq<Item>)
    ensures Emitted(Emits(items)) == items
    ensures Requests(Emits(items)) == []
  {
    if items != [] {
      EmitsAreItems(items[1..]);
    }
  }

  // ---------------------------------------------------------------------------------------
  // The user callback

  /**
   * The user callback on `request`, whose response the item library mapped into `items`:
   * with fewer than two items the request is re-issued with a raised counter, unless the
   * counter is past MaxRetry; otherwise every item is yielded and the first batch of
   * friend ids is requested for the first item.
   */
  function SourceUserStep(request: Request, items: seq<Item>): (r: Step)
    requires request.UserRequest?
    ensures r.ending == Done
    ensures forall o | o in r.outputs && o.Issue? :: o.request.uid == request.uid
    ensures |items| < 2 ==> |r.outputs| <= 1
  {
    var retries := request.retryTimes.GetOr(0) + 1;
    if |items| < 2 then
      if retries > MaxRetry then Step([], Done)
      else Step([Issue(request.(retryTimes := Some(retries), dontFilter := true))], Done)
    else
      Step(Emits(items) + [Issue(FriendsRequest(request.uid, 0, JNum(0), items[0], false))], Done)
  }

  /**
   * Fewer than two items: nothing is emitted, and exactly one copy of the request goes out,
   * with the counter raised by one and dedup bypassed, unless the raised counter is past
   * MaxRetry, when nothing goes out.
   */
  lemma UserFailureRetries(request: Request, items: seq<Item>)
    requires request.UserRequest? && |items| < 2
    ensures var step := SourceUserStep(request, items);
            var retries := request.retryTimes.GetOr(0) + 1;
            && step.ending == Done
            && Emitted(step.outputs) == []
            && Requests(step.outputs) == (if retries > MaxRetry then []
                                          else [UserRequest(request.uid, Some(retries), true)])
  {
  }

  /**
   * Two items or more: every item is emitted in order, then exactly one request, the last
   * output, for the friend ids of the same user from cursor 0, accumulating into the first item.
   */
  lemma UserSuccess(request: Request, items: seq<Item>)
    requires request.UserRequest? && |items| >= 2
    ensures var step := SourceUserStep(request, items);
            && step.ending == Done
            && Emitted(step.outputs) == items
            && Requests(step.outputs) == [FriendsRequest(request.uid, 0, JNum(0), items[0], false)]
            && step.outputs[|step.outputs| - 1].Issue?
  {
    var last := [Issue(FriendsRequest(request.uid, 0, JNum(0), items[0], false))];
    FiltersAppend(Emits(items), last);
    EmitsAreItems(items);
  }

  /** The user request a step re-issued, if it re-issued one. */
  function ReissuedUser(step: Step): (r: Option<Request>)
    ensures r.Some? ==> r.value.UserRequest?
  {
    if |step.outputs| == 1 && step.outputs[0].Issue? && step.outputs[0].request.UserRequest?
    then Some(step.outputs[0].request)
    else None
  }

  /** How many responses a chain of attempts at one user consumes, following its retries. */
  function UserAttempts(request: Request, responses: seq<seq<Item>>): nat
    requires request.UserRequest?
    decreases |responses|
  {
    if responses == [] then 0
    else
      match ReissuedUser(SourceUserStep(request, responses[0]))
      case None => 1
      case Some(next) => 1 + UserAttempts(next, responses[1..])
  }

  /** From counter t, at most MaxRetry + 1 - t attempts: from a seed, 3 attempts at most. */
  lemma {:induction false} UserAttemptsBounded(request: Request, responses: seq<seq<Item>>)
    requires request.UserRequest?
    requires 0 <= request.retryTimes.GetOr(0) <= MaxRetry
    ensures UserAttempts(request, responses) <= MaxRetry + 1 - request.retryTimes.GetOr(0)
    decreases |responses|
  {
    if responses != [] {
      match ReissuedUser(SourceUserStep(request, responses[0]))
      case None =>
      case Some(next) =>
        assert next.retryTimes == Some(request.retryTimes.GetOr(0) + 1);
        UserAttemptsBounded(next, responses[1..]);
    }
  }

  /** Responses that keep mapping to fewer than two items are tried exactly MaxRetry + 1 - t times. */
  lemma {:induction false} UserAttemptsExhausted(request: Request, responses: seq<seq<Item>>)
    requires request.UserRequest?
    requires 0 <= request.retryTimes.GetOr(0) <= MaxRetry
    requires |responses| > MaxRetry - request.retryTimes.GetOr(0)
    requires forall i | 0 <= i < |responses| :: |responses[i]| < 2
    ensures UserAttempts(request, responses) == MaxRetry + 1 - request.retryTimes.GetOr(0)
    decreases |responses|
  {
    var t := request.retryTimes.GetOr(0);
    if t < MaxRetry {
      var next := request.(retryTimes := Some(t + 1), dontFilter := true);
      assert ReissuedUser(SourceUserStep(request, responses[0])) == Some(next);
      UserAttemptsExhausted(next, responses[1..]);
    } else {
      assert ReissuedUser(SourceUserStep(request, responses[0])).None?;
    }
  }

  // ---------------------------------------------------------------------------------------
  // The friend-id batch callback

  /** The user's `friends` list after a batch callback, and what it yielded. */
  datatype CursorOutcome = CursorOutcome(friends: Option<seq<Json>>, step: Step)

  /**
   * The batch callback on `request` when the user item's `friends` is `friends`: the batch
   * `ids` extends the list before the next cursor is read; a non-zero cursor is followed with
   * a copy of the request changed only in its carried cursor, a zero cursor emits the user.
   */
  function FriendsPageStep(request: Request, friends: Option<seq<Json>>, resp: Json): (r: CursorOutcome)
    requires request.FriendsRequest?
    ensures friends.Some? ==> r.friends.Some? && friends.value <= r.friends.value
    ensures friends.None? ==> r.friends == friends && r.step.ending.Crash?
    ensures |r.step.outputs| <= 1
  {
    match friends
    case None => CursorOutcome(friends, Step([], Crash(KeyError("friends"))))
    case Some(known) =>
      match Subscript(resp, "ids")
      case Err(e) => CursorOutcome(friends, Step([], Crash(e)))
      case Ok(ids) =>
        match Elements(ids)
        case Err(e) => CursorOutcome(friends, Step([], Crash(e)))
        case Ok(batch) =>
          var now := Some(known + batch);
          match Subscript(resp, "next_cursor")
          case Err(e) => CursorOutcome(now, Step([], Crash(e)))
          case Ok(next) =>
            if IsZero(next) then CursorOutcome(now, Step([Emit(request.sourceUser)], Done))
            else CursorOutcome(now, Step([Issue(request.(cursor := next))], Done))
  }

  /** The batch callback: extends the user item's `friends` in place, then follows or emits. */
  method OnFriendsPage(request: Request, resp: Json) returns (step: Step)
    requires request.FriendsRequest?
    modifies request.sourceUser
    ensures request.sourceUser.friends == FriendsPageStep(request, old(request.sourceUser.friends), resp).friends
    ensures step == FriendsPageStep(request, old(request.sourceUser.friends), resp).step
  {
    var user := request.sourceUser;
    if user.friends.None? {
      return Step([], Crash(KeyError("friends")));
    }
    var ids := Subscript(resp, "ids");
    if ids.Err? {
      return Step([], Crash(ids.error));
    }
    var batch := Elements(ids.value);
    if batch.Err? {
      return Step([], Crash(batch.error));
    }
    user.friends := Some(user.friends.value + batch.value);
    var next := Subscript(resp, "next_cursor");
    if next.Err? {
      return Step([], Crash(next.error));
    }
    if !IsZero(next.value) {
      step := Step([Issue(request.(cursor := next.value))], Done);
    } else {
      step := Step([Emit(user)], Done);
    }
  }

  /** A batch response with an `ids` array and a `next_cursor`. */
  predicate BatchPage(resp: Json)
  {
    resp.JObj? && "ids" in resp.fields && resp.fields["ids"].JArr? && "next_cursor" in resp.fields
  }

  /** Each batch step appends exactly that batch's ids to the list, in order, and keeps the rest. */
  lemma BatchExtends(request: Request, known: seq<Json>, resp: Json)
    requires request.FriendsRequest? && BatchPage(resp)
    ensures var o := FriendsPageStep(request, Some(known), resp);
            && o.friends == Some(known + resp.fields["ids"].items)
            && o.step.ending == Done
            && if IsZero(resp.fields["next_cursor"])
               then o.step.outputs == [Emit(request.sourceUser)]
               else o.step.outputs == [Issue(request.(cursor := resp.fields["next_cursor"]))]
  {
  }

  /**
   * The follow-up request keeps the user id, the cursor written into the URL, the user item
   * and the dedup flag: only the carried cursor moves.
   */
  lemma FollowUpKeepsUrl(request: Request, known: seq<Json>, resp: Json)
    requires request.FriendsRequest? && BatchPage(resp) && !IsZero(resp.fields["next_cursor"])
    ensures var o := FriendsPageStep(request, Some(known), resp);
            && Requests(o.step.outputs) == [FriendsRequest(request.uid, request.urlCursor, resp.fields["next_cursor"],
                                                           request.sourceUser, request.dontFilter)]
            && Emitted(o.step.outputs) == []
  {
  }

  /** An item without a `friends` field fails with KeyError and is left as it was. */
  lemma MissingFriendsIsKeyError(request: Request, resp: Json)
    requires request.FriendsRequest?
    ensures FriendsPageStep(request, None, resp) == CursorOutcome(None, Step([], Crash(KeyError("friends"))))
  {
  }

  // ---------------------------------------------------------------------------------------
  // A whole cursor walk

  /** The `friends` list at the end of a walk, everything yielded along it, and how it stopped. */
  datatype Walk = Walk(friends: Option<seq<Json>>, outputs: seq<Output>, ending: Ending)

  /** The batch request a step followed up with, if it yielded exactly one. */
  function FollowUp(step: Step): (r: Option<Request>)
    ensures r.Some? ==> r.value.FriendsRequest?
  {
    if step.ending == Done && |step.outputs| == 1 && step.outputs[0].Issue? && step.outputs[0].request.FriendsRequest?
    then Some(step.outputs[0].request)
    else None
  }

  /** Hands the responses to the batch callback one after another, following the cursor. */
  function WalkFriends(request: Request, friends: Option<seq<Json>>, resps: seq<Json>): (r: Walk)
    requires request.FriendsRequest?
    ensures friends.Some? ==> r.friends.Some? && friends.value <= r.friends.value
    ensures friends.None? ==> r.friends == friends
    decreases |resps|
  {
    if resps == [] then Walk(friends, [], Done)
    else
      var o := FriendsPageStep(request, friends, resps[0]);
      match FollowUp(o.step)
      case None => Walk(o.friends, o.step.outputs, o.step.ending)
      case Some(next) =>
        var rest := WalkFriends(next, o.friends, resps[1..]);
        Walk(rest.friends, o.step.outputs + rest.outputs, rest.ending)
  }

  /** All `ids` batches of some batch responses, concatenated in order. */
  function ConcatBatches(resps: seq<Json>): seq<Json>
    requires forall i | 0 <= i < |resps| :: BatchPage(resps[i])
  {
    if resps == [] then []
    else
      assert BatchPage(resps[0]);
      resps[0].fields["ids"].items + ConcatBatches(resps[1..])
  }

  /** Batch responses whose cursor is non-zero on every page but the last, where it is zero. */
  predicate CursorRun(resps: seq<Json>)
  {
    && |resps| > 0
    && (forall i | 0 <= i < |resps| :: BatchPage(resps[i]))
    && (forall i | 0 <= i < |resps| - 1 :: !IsZero(resps[i].fields["next_cursor"]))
    && IsZero(resps[|resps| - 1].fields["next_cursor"])
  }

  /** The first step of a cursor run, and the walk from there. */
  lemma {:induction false} CursorRunFirstStep(request: Request, known: seq<Json>, resps: seq<Json>)
    requires request.FriendsRequest? && CursorRun(resps)
    ensures var o := FriendsPageStep(request, Some(known), resps[0]);
            var batch := resps[0].fields["ids"].items;
            var w := WalkFriends(request, Some(known), resps);
            && ConcatBatches(resps) == batch + ConcatBatches(resps[1..])
            && o.friends == Some(known + batch)
            && (|resps| == 1 ==> w == Walk(o.friends, [Emit(request.sourceUser)], Done))
            && (|resps| > 1 ==>
                  var next := request.(cursor := resps[0].fields["next_cursor"]);
                  var rest := WalkFriends(next, o.friends, resps[1..]);
                  && CursorRun(resps[1..])
                  && w == Walk(rest.friends, [Issue(next)] + rest.outputs, rest.ending))
  {
    BatchExtends(request, known, resps[0]);
    var tail := resps[1..];
    assert forall i | 0 <= i < |tail| :: tail[i] == resps[i + 1];
    if |resps| > 1 {
      assert CursorRun(tail);
    }
  }

  /** Over a cursor run, the user's `friends` ends as the old list followed by every batch in order. */
  lemma {:induction false} FriendsAccumulate(request: Request, known: seq<Json>, resps: seq<Json>)
    requires request.FriendsRequest? && CursorRun(resps)
    ensures var w := WalkFriends(request, Some(known), resps);
            && w.friends == Some(known + ConcatBatches(resps))
            && w.ending == Done
    decreases |resps|
  {
    CursorRunFirstStep(request, known, resps);
    var batch := resps[0].fields["ids"].items;
    if |resps| == 1 {
      assert ConcatBatches(resps[1..]) == [];
      assert batch + [] == batch;
    } else {
      var next := request.(cursor := resps[0].fields["next_cursor"]);
      FriendsAccumulate(next, known + batch, resps[1..]);
      assert known + (batch + ConcatBatches(resps[1..])) == (known + batch) + ConcatBatches(resps[1..]);
    }
  }

  /** A follow-up request put before some outputs adds that request and no item. */
  lemma FollowUpPrepended(next: Request, rest: seq<Output>)
    ensures Emitted([Issue(next)] + rest) == Emitted(rest)
    ensures Requests([Issue(next)] + rest) == [next] + Requests(rest)
  {
    FiltersAppend([Issue(next)], rest);
    assert Emitted([Issue(next)]) == [];
    assert Requests([Issue(next)]) == [next];
  }

  /** Over a cursor run, the user item is emitted exactly once, as the last output. */
  lemma {:induction false} UserEmittedOnceAtEnd(request: Request, known: seq<Json>, resps: seq<Json>)
    requires request.FriendsRequest? && CursorRun(resps)
    ensures var w := WalkFriends(request, Some(known), resps);
            && Emitted(w.outputs) == [request.sourceUser]
            && |w.outputs| > 0 && w.outputs[|w.outputs| - 1] == Emit(request.sourceUser)
    decreases |resps|
  {
    CursorRunFirstStep(request, known, resps);
    if |resps| > 1 {
      var next := request.(cursor := resps[0].fields["next_cursor"]);
      var o := FriendsPageStep(request, Some(known), resps[0]);
      var rest := WalkFriends(next, o.friends, resps[1..]);
      var outputs := [Issue(next)] + rest.outputs;
      assert WalkFriends(request, Some(known), resps).outputs == outputs;
      UserEmittedOnceAtEnd(next, known + resps[0].fields["ids"].items, resps[1..]);
      FollowUpPrepended(next, rest.outputs);
      assert outputs[|outputs| - 1] == rest.outputs[|rest.outputs| - 1];
    }
  }

  /** The follow-ups of a run's tail, led by the first follow-up, are the follow-ups of the whole run. */
  lemma FollowUpsShift(request: Request, resps: seq<Json>, reqs: seq<Request>)
    requires request.FriendsRequest? && CursorRun(resps) && |resps| > 1
    requires var next := request.(cursor := resps[0].fields["next_cursor"]);
             && |reqs| == |resps| - 2
             && forall i | 0 <= i < |resps| - 2 :: reqs[i] == next.(cursor := resps[1..][i].fields["next_cursor"])
    ensures var all := [request.(cursor := resps[0].fields["next_cursor"])] + reqs;
            && |all| == |resps| - 1
            && forall i | 0 <= i < |resps| - 1 :: all[i] == request.(cursor := resps[i].fields["next_cursor"])
  {
    var all := [request.(cursor := resps[0].fields["next_cursor"])] + reqs;
    forall i | 0 < i < |resps| - 1
      ensures all[i] == request.(cursor := resps[i].fields["next_cursor"])
    {
      assert all[i] == reqs[i - 1];
      assert resps[1..][i - 1] == resps[i];
    }
  }

  /**
   * Over a cursor run, every page but the last issues one follow-up; the i-th carries the
   * i-th page's cursor and is otherwise equal to the first request.
   */
  lemma {:induction false} FollowUpsCarryCursors(request: Request, known: seq<Json>, resps: seq<Json>)
    requires request.FriendsRequest? && CursorRun(resps)
    ensures var w := WalkFriends(request, Some(known), resps);
            && |Requests(w.outputs)| == |resps| - 1
            && forall i | 0 <= i < |resps| - 1 ::
                 Requests(w.outputs)[i] == request.(cursor := resps[i].fields["next_cursor"])
    decreases |resps|
  {
    CursorRunFirstStep(request, known, resps);
    if |resps| == 1 {
      assert Requests([Emit(request.sourceUser)]) == [];
    } else {
      var next := request.(cursor := resps[0].fields["next_cursor"]);
      var o := FriendsPageStep(request, Some(known), resps[0]);
      var rest := WalkFriends(next, o.friends, resps[1..]);
      assert WalkFriends(request, Some(known), resps).outputs == [Issue(next)] + rest.outputs;
      FollowUpsCarryCursors(next, known + resps[0].fields["ids"].items, resps[1..]);
      FollowUpPrepended(next, rest.outputs);
      FollowUpsShift(request, resps, Requests(rest.outputs));
    }
  }

  /** Two batches, [1, 2, 3] with cursor 50 and then [4, 5] with cursor 0, give [1, 2, 3, 4, 5]. */
  lemma TwoBatchExample(request: Request)
    requires request.FriendsRequest?
    ensures var first := JObj(map["ids" := JArr([JNum(1), JNum(2), JNum(3)]), "next_cursor" := JNum(50)]);
            var second := JObj(map["ids" := JArr([JNum(4), JNum(5)]), "next_cursor" := JNum(0)]);
            var w := WalkFriends(request, Some([]), [first, second]);
            && w.friends == Some([JNum(1), JNum(2), JNum(3), JNum(4), JNum(5)])
            && Emitted(w.outputs) == [request.sourceUser]
  {
    var first := JObj(map["ids" := JArr([JNum(1), JNum(2), JNum(3)]), "next_cursor" := JNum(50)]);
    var second := JObj(map["ids" := JArr([JNum(4), JNum(5)]), "next_cursor" := JNum(0)]);
    assert CursorRun([first, second]);
    FriendsAccumulate(request, [], [first, second]);
    UserEmittedOnceAtEnd(request, [], [first, second]);
    assert [first, second][1..] == [second] && [second][1..] == [];
    assert first.fields["ids"].items == [JNum(1), JNum(2), JNum(3)];
    assert second.fields["ids"].items == [JNum(4), JNum(5)];
    assert ConcatBatches([second]) == [JNum(4), JNum(5)] + ConcatBatches([]);
    assert ConcatBatches([first, second]) == [JNum(1), JNum(2), JNum(3)] + ConcatBatches([second]);
    assert [] + ConcatBatches([first, second]) == [JNum(1), JNum(2), JNum(3), JNum(4), JNum(5)];
  }
}
