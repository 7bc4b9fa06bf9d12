/**
 * The "your tweets" page: the signed-in user's tweets, one text box used
 * both for a new tweet and for editing one, and the tweet being edited, if
 * any. Submitting updates that tweet while one is being edited and creates
 * a tweet otherwise; either way a success clears the box and refetches.
 */
module Tweet {
  import opened Js
  import opened Remote
  import opened Resources

  /** `newTweet` holds what the box shows: typed text, or the `content` of
      the tweet being edited, whatever its type. */
  datatype Feed = Feed(tweets: seq<Json>, newTweet: Json, editTweet: Json, loading: bool)

  const Initial := Feed([], Str(""), Null, false)

  /** `fetchTweets`: without a user id nothing happens; a response with the
      success flag replaces the list with its payload, one without empties
      it, and a rejected call leaves it alone. */
  function Fetched(f: Feed, user: Json, o: Outcome): (r: Feed)
    ensures FetchRequest(user).None? ==> r == f
    ensures FetchRequest(user).Some? ==> !r.loading && r.newTweet == f.newTweet && r.editTweet == f.editTweet
    ensures FetchRequest(user).Some? && o.Ok? && Truthy(Get(o.body, "success")) ==>
              r.tweets == AsList(Get(o.body, "data"))
    ensures FetchRequest(user).Some? && o.Ok? && !Truthy(Get(o.body, "success")) ==> r.tweets == []
    ensures FetchRequest(user).Some? && o.Fail? ==> r.tweets == f.tweets
  {
    if FetchRequest(user).None? then f
    else match o
      case Fail(_) => f.(loading := false)
      case Ok(body) =>
        if Truthy(Get(body, "success")) then f.(tweets := AsList(Get(body, "data")), loading := false)
        else f.(tweets := [], loading := false)
  }

  datatype SubmitCall = CreateTweet(content: Json) | UpdateTweet(tweetId: Json, content: Json)

  /** The call `handleSubmit` makes: update the tweet being edited with the
      box's text, or create one from it. */
  function SubmitRequest(f: Feed): (r: SubmitCall)
    ensures r.content == f.newTweet
    ensures r.UpdateTweet? <==> Truthy(f.editTweet)
    ensures r.UpdateTweet? ==> r.tweetId == IdOf(f.editTweet)
  {
    if Truthy(f.editTweet) then UpdateTweet(IdOf(f.editTweet), f.newTweet) else CreateTweet(f.newTweet)
  }

  /** `handleSubmit` once its call settles: a success empties the box and
      ends editing (a refetch follows); a failure keeps both. */
  function Submitted(f: Feed, o: Outcome): (r: Feed)
    ensures o.Fail? ==> r == f
    ensures o.Ok? ==> r.newTweet == Str("") && r.editTweet == (if Truthy(f.editTweet) then Null else f.editTweet)
    ensures r.tweets == f.tweets && r.loading == f.loading
  {
    if o.Fail? then f
    else if Truthy(f.editTweet) then f.(newTweet := Str(""), editTweet := Null)
    else f.(newTweet := Str(""))
  }

  /** `handleDelete`: nothing without confirmation; on success every tweet
      with that id goes and the rest keep their order. */
  function Deleted(f: Feed, id: Json, confirmed: bool, o: Outcome): (r: Feed)
    ensures !confirmed || o.Fail? ==> r == f
    ensures confirmed && o.Ok? ==> r == f.(tweets := RemoveById(f.tweets, id))
  {
    if confirmed && o.Ok? then f.(tweets := RemoveById(f.tweets, id)) else f
  }

  /** `handleEdit`: the tweet's content goes into the box and the tweet
      becomes the one being edited; reading `.content` of null or undefined
      throws and changes nothing. */
  function EditStarted(f: Feed, tweet: Json): (r: Feed)
    ensures Nullish(tweet) ==> r == f
    ensures !Nullish(tweet) ==> r == f.(newTweet := Get(tweet, "content"), editTweet := tweet)
  {
    match Member(tweet, "content")
    case None => f
    case Some(content) => f.(newTweet := content, editTweet := tweet)
  }

  /** The Cancel button: editing ends but the box keeps its text. */
  function EditCancelled(f: Feed): (r: Feed)
    ensures r.editTweet == Null && r.newTweet == f.newTweet && r.tweets == f.tweets
    ensures r == f.(editTweet := Null)
  {
    f.(editTweet := Null)
  }

  /** Editing a tweet and submitting sends that tweet's id with its
      content as it stands in the box. */
  lemma EditThenSubmitUpdates(f: Feed, tweet: map<string, Json>)
    ensures SubmitRequest(EditStarted(f, Obj(tweet))) == UpdateTweet(IdOf(Obj(tweet)), Get(Obj(tweet), "content"))
  {
  }

  /** Cancelling an edit turns the next submit into a create of the text
      left in the box. */
  lemma CancelThenSubmitCreates(f: Feed, tweet: map<string, Json>)
    ensures var g := EditCancelled(EditStarted(f, Obj(tweet)));
            SubmitRequest(g) == CreateTweet(Get(Obj(tweet), "content"))
  {
  }

  /** After a successful submit the next one creates, from an empty box. */
  lemma SubmitThenCreates(f: Feed, body: Json)
    ensures SubmitRequest(Submitted(f, Ok(body))) == CreateTweet(Str(""))
  {
  }

  class TweetPage {
    var tweets: seq<Json>
    var newTweet: Json
    var editTweet: Json
    var loading: bool

    function State(): Feed
      reads this
    {
      Feed(tweets, newTweet, editTweet, loading)
    }

    constructor ()
      ensures State() == Initial
    {
      tweets, newTweet, editTweet, loading := [], Str(""), Null, false;
    }

    /** Returns the user id asked for, or None when no call was made. */
    method FetchTweets(user: Json, o: Outcome) returns (call: Option<Json>)
      modifies this
      ensures call == FetchRequest(user)
      ensures State() == Fetched(old(State()), user, o)
    {
      if !Truthy(Get(user, "_id")) {
        return None;
      }
      call := Some(Get(user, "_id"));
      loading := true;
      if o.Ok? {
        if Truthy(Get(o.body, "success")) {
          tweets := AsList(Get(o.body, "data"));
        } else {
          tweets := [];
        }
      }
      loading := false;
    }

    /** Returns the call made and whether a refetch follows. */
    method HandleSubmit(o: Outcome) returns (call: SubmitCall, refetch: bool)
      modifies this
      ensures call == SubmitRequest(old(State()))
      ensures refetch == o.Ok?
      ensures State() == Submitted(old(State()), o)
    {
      refetch := false;
      if Truthy(editTweet) {
        call := UpdateTweet(IdOf(editTweet), newTweet);
        if o.Fail? {
          return;
        }
        editTweet := Null;
      } else {
        call := CreateTweet(newTweet);
        if o.Fail? {
          return;
        }
      }
      newTweet := Str("");
      refetch := true;
    }

    method HandleDelete(id: Json, confirmed: bool, o: Outcome)
      modifies this
      ensures State() == Deleted(old(State()), id, confirmed, o)
    {
      if !confirmed {
        return;
      }
      if o.Ok? {
        tweets := RemoveById(tweets, id);
      }
    }

    method HandleEdit(tweet: Json)
      modifies this
      ensures State() == EditStarted(old(State()), tweet)
    {
      var content := Member(tweet, "content");
      if content.None? {
        return;
      }
      newTweet := content.value;
      editTweet := tweet;
    }

    method CancelEdit()
      modifies this
      ensures State() == EditCancelled(old(State()))
    {
      editTweet := Null;
    }
  }
}
