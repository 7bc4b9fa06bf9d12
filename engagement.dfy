/**
 * The like and subscribe buttons. Each keeps a flag and a counter seeded
 * from its props, refuses clicks from anonymous users, lets at most one
 * toggle call be in flight, and changes the flag and counter only after
 * the call has succeeded. A click is modelled in two steps: the handler up
 * to the awaited call (`HandleToggle...`), and the rest of the handler once
 * the call settles (`Settle`). The value of the flag the handler closed
 * over at the click is kept, because the two buttons read it after the
 * await.
 */
module Engagement {
  import opened Js
  import opened Remote

  /** What a toggle button shows: the flag and the counter next to it. */
  datatype Counter = Counter(on: bool, count: int)

  /** The like-toggle endpoints, one per entity type. */
  datatype LikeCall =
    | ToggleVideoLike(videoId: string)
    | ToggleCommentLike(commentId: string)
    | ToggleTweetLike(tweetId: string)

  /** The `switch (type)` of the like handler: `video`, `comment` and
      `tweet` pick their endpoint; any other type has none. */
  function LikeEndpoint(kind: string, entityId: string): (r: Option<LikeCall>)
    ensures r.Some? <==> kind == "video" || kind == "comment" || kind == "tweet"
    ensures r.Some? ==> match r.value
                        case ToggleVideoLike(id) => kind == "video" && id == entityId
                        case ToggleCommentLike(id) => kind == "comment" && id == entityId
                        case ToggleTweetLike(id) => kind == "tweet" && id == entityId
  {
    if kind == "video" then Some(ToggleVideoLike(entityId))
    else if kind == "comment" then Some(ToggleCommentLike(entityId))
    else if kind == "tweet" then Some(ToggleTweetLike(entityId))
    else None
  }

  /** The like button after a successful call: the flag flips from its
      current value; the counter moves down if the flag was set at the click
      and up otherwise, with no floor at zero. */
  function LikeSettled(now: Counter, likedAtClick: bool): (r: Counter)
    ensures r.on != now.on
    ensures r.count - now.count == (if likedAtClick then -1 else 1)
  {
    Counter(!now.on, if likedAtClick then now.count - 1 else now.count + 1)
  }

  /** Two successful likes with nothing in between give back what was
      shown: (false, 5) goes to (true, 6) and back to (false, 5). */
  lemma LikeTwiceRestores(c: Counter)
    ensures LikeSettled(LikeSettled(c, c.on), !c.on) == c
  {
  }

  /** The counter is not clamped: unliking at zero shows -1. */
  lemma LikeCountCanGoNegative()
    ensures LikeSettled(Counter(true, 0), true) == Counter(false, -1)
  {
  }

  /** A prop sync that lands while a like is in flight is not reconciled:
      the handler flips the synced flag but moves the count by the flag it
      saw at the click, so (true, 6) synced over a click made at false
      settles to (false, 7). */
  lemma LikeStaleClickDrifts()
    ensures LikeSettled(Counter(true, 6), false) == Counter(false, 7)
  {
  }

  /** `res?.data?.data?.isSubscribed` */
  function ServerSubscribed(body: Json): Json {
    Get(Get(body, "data"), "isSubscribed")
  }

  /** `res?.data?.data?.isSubscribed ?? !isSubscribed`, as the button reads
      it (for truthiness): the server's value when it sent one (anything but
      null and undefined), otherwise the flag at the click negated. */
  function SubscribeStatus(body: Json, subscribedAtClick: bool): (r: bool)
    ensures !Nullish(ServerSubscribed(body)) ==> r == Truthy(ServerSubscribed(body))
    ensures Nullish(ServerSubscribed(body)) ==> r == !subscribedAtClick
  {
    Truthy(Coalesce(ServerSubscribed(body), Bool(!subscribedAtClick)))
  }

  /** The subscribe button after a successful call: it shows the new status,
      and the counter moves by exactly one, up exactly when the new status
      is "subscribed", whatever the status was before. */
  function SubscribeSettled(now: Counter, status: bool): (r: Counter)
    ensures r.on == status
    ensures r.count == now.count + 1 || r.count == now.count - 1
    ensures r.count > now.count <==> status
  {
    Counter(status, if status then now.count + 1 else now.count - 1)
  }

  /** When the server leaves the status out, two successful clicks give
      back what was shown. */
  lemma SubscribeTwiceRestores(c: Counter, first: Json, second: Json)
    requires Nullish(ServerSubscribed(first)) && Nullish(ServerSubscribed(second))
    ensures var once := SubscribeSettled(c, SubscribeStatus(first, c.on));
            SubscribeSettled(once, SubscribeStatus(second, once.on)) == c
  {
  }

  /** The counter follows the new status alone: a server that answers
      "subscribed" to an already subscribed user adds a subscriber. */
  lemma SubscribeRepeatedStatusDrifts()
    ensures var body := Obj(map["data" := Obj(map["isSubscribed" := Bool(true)])]);
            SubscribeSettled(Counter(true, 10), SubscribeStatus(body, true)) == Counter(true, 11)
  {
  }

  class LikeButton {
    var isLiked: bool
    var likesCount: int
    var isProcessing: bool
    /** The `isLiked` the pending handler closed over at its click. */
    var likedAtClick: bool

    function View(): Counter
      reads this
    {
      Counter(isLiked, likesCount)
    }

    constructor (initialIsLiked: bool, initialLikesCount: int)
      ensures View() == Counter(initialIsLiked, initialLikesCount)
      ensures !isProcessing
    {
      isLiked, likesCount := initialIsLiked, initialLikesCount;
      isProcessing, likedAtClick := false, initialIsLiked;
    }

    /** The effect that copies new `initialIsLiked`/`initialLikesCount`
        props into the state. */
    method SyncProps(initialIsLiked: bool, initialLikesCount: int)
      modifies this`isLiked, this`likesCount
      ensures View() == Counter(initialIsLiked, initialLikesCount)
    {
      isLiked := initialIsLiked;
      likesCount := initialLikesCount;
    }

    /** `handleToggleLike` up to its awaited call: nothing happens for an
        anonymous user or while a call is pending; otherwise the call for
        the entity type is issued and marks the button busy, and an unknown
        type issues nothing and leaves it idle. */
    method HandleToggleLike(isAuthenticated: bool, kind: string, entityId: string)
      returns (call: Option<LikeCall>)
      modifies this`isProcessing, this`likedAtClick
      ensures !isAuthenticated || old(isProcessing) ==>
                call == None && isProcessing == old(isProcessing) && likedAtClick == old(likedAtClick)
      ensures isAuthenticated && !old(isProcessing) ==>
                call == LikeEndpoint(kind, entityId) && isProcessing == call.Some?
      ensures call.Some? ==> likedAtClick == isLiked
    {
      if !isAuthenticated {
        return None;
      }
      if isProcessing {
        return None;
      }
      isProcessing := true;
      call := LikeEndpoint(kind, entityId);
      if call.None? {
        isProcessing := false;
        return;
      }
      likedAtClick := isLiked;
    }

    /** The rest of `handleToggleLike` once the call settles: success
        applies `LikeSettled`, failure changes nothing shown, and the
        button is idle afterwards either way. */
    method Settle(outcome: Outcome)
      requires isProcessing
      modifies this`isLiked, this`likesCount, this`isProcessing
      ensures !isProcessing
      ensures outcome.Ok? ==> View() == LikeSettled(old(View()), likedAtClick)
      ensures outcome.Fail? ==> View() == old(View())
    {
      if outcome.Ok? {
        isLiked := !isLiked;
        likesCount := if likedAtClick then likesCount - 1 else likesCount + 1;
      }
      isProcessing := false;
    }
  }

  class SubscribeButton {
    var isSubscribed: bool
    var subscribersCount: int
    var isProcessing: bool
    /** The `isSubscribed` the pending handler closed over at its click. */
    var subscribedAtClick: bool

    function View(): Counter
      reads this
    {
      Counter(isSubscribed, subscribersCount)
    }

    constructor (initialIsSubscribed: bool, initialSubscribersCount: int)
      ensures View() == Counter(initialIsSubscribed, initialSubscribersCount)
      ensures !isProcessing
    {
      isSubscribed, subscribersCount := initialIsSubscribed, initialSubscribersCount;
      isProcessing, subscribedAtClick := false, initialIsSubscribed;
    }

    /** The effect that copies new props into the state. */
    method SyncProps(initialIsSubscribed: bool, initialSubscribersCount: int)
      modifies this`isSubscribed, this`subscribersCount
      ensures View() == Counter(initialIsSubscribed, initialSubscribersCount)
    {
      isSubscribed := initialIsSubscribed;
      subscribersCount := initialSubscribersCount;
    }

    /** `handleToggleSubscription` up to its awaited call: nothing happens
        for an anonymous user, without a channel name, or while a call is
        pending; otherwise the toggle for that channel is issued. */
    method HandleToggleSubscription(isAuthenticated: bool, channelName: string)
      returns (call: Option<string>)
      modifies this`isProcessing, this`subscribedAtClick
      ensures !isAuthenticated || channelName == "" || old(isProcessing) ==>
                call == None && isProcessing == old(isProcessing)
                && subscribedAtClick == old(subscribedAtClick)
      ensures isAuthenticated && channelName != "" && !old(isProcessing) ==>
                call == Some(channelName) && isProcessing && subscribedAtClick == isSubscribed
    {
      if !isAuthenticated {
        return None;
      }
      if channelName == "" {
        return None;
      }
      if isProcessing {
        return None;
      }
      isProcessing := true;
      subscribedAtClick := isSubscribed;
      call := Some(channelName);
    }

    /** The rest of the handler once the call settles: success applies
        `SubscribeSettled` with the server-preferred status, failure changes
        nothing shown, and the button is idle afterwards either way. */
    method Settle(outcome: Outcome)
      requires isProcessing
      modifies this`isSubscribed, this`subscribersCount, this`isProcessing
      ensures !isProcessing
      ensures outcome.Ok? ==>
                View() == SubscribeSettled(old(View()), SubscribeStatus(outcome.body, subscribedAtClick))
      ensures outcome.Fail? ==> View() == old(View())
    {
      if outcome.Ok? {
        var newStatus := Coalesce(ServerSubscribed(outcome.body), Bool(!subscribedAtClick));
        isSubscribed := Truthy(newStatus);
        subscribersCount := if Truthy(newStatus) then subscribersCount + 1 else subscribersCount - 1;
      }
      isProcessing := false;
    }
  }

  /** A button seeded with (false, 5) shows (true, 6) after one successful
      like and (false, 5) after a second. */
  method LikeTwiceFromFive() returns (first: Counter, second: Counter)
    ensures first == Counter(true, 6) && second == Counter(false, 5)
  {
    var button := new LikeButton(false, 5);
    var call := button.HandleToggleLike(true, "video", "v1");
    button.Settle(Ok(Null));
    first := button.View();
    call := button.HandleToggleLike(true, "video", "v1");
    button.Settle(Ok(Null));
    second := button.View();
  }

  /** Two clicks before the first call settles issue one call, and a click
      by an anonymous user issues none. */
  method RapidClicksIssueOneCall() returns (first: Option<LikeCall>, second: Option<LikeCall>, anonymous: Option<LikeCall>)
    ensures first == Some(ToggleVideoLike("v1")) && second == None && anonymous == None
  {
    var button := new LikeButton(false, 5);
    first := button.HandleToggleLike(true, "video", "v1");
    second := button.HandleToggleLike(true, "video", "v1");
    var idle := new LikeButton(false, 5);
    anonymous := idle.HandleToggleLike(false, "video", "v1");
  }
}
