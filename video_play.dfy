/**
 * The video page: it loads one video by id, refreshes the session user when
 * someone is signed in, and offers "save to playlist", a chain of checks
 * (signed in, a user id, at least one playlist, a 1-based choice typed
 * into a prompt, not already in the playlist) that ends in at most one
 * add call. The page's state is the `VideoPage` class; the save chain is
 * first given as the function `SaveToPlaylist`.
 */
module VideoPlay {
  import opened Js
  import opened JsText
  import opened Remote
  import opened Resources
  import AuthContext

  /** `currentUser?.data || currentUser || null`: the session may hold the
      user record itself or a response envelope around it. */
  function ActualUser(currentUser: Json): (r: Json)
    ensures Truthy(Get(currentUser, "data")) ==> r == Get(currentUser, "data")
    ensures !Truthy(Get(currentUser, "data")) && Truthy(currentUser) ==> r == currentUser
    ensures !Truthy(currentUser) ==> r == Null
    ensures Truthy(r) <==> Truthy(currentUser)
  {
    Or(Or(Get(currentUser, "data"), currentUser), Null)
  }

  /** `actualUser?._id` */
  function CurrentUserId(currentUser: Json): Json {
    Get(ActualUser(currentUser), "_id")
  }

  /** A user record (one without a truthy `data` field of its own) and the
      same record wrapped in a `data` envelope both give the record's id. */
  lemma WrappedUserSameId(u: map<string, Json>)
    requires !Truthy(Get(Obj(u), "data"))
    ensures CurrentUserId(Obj(map["data" := Obj(u)])) == Get(Obj(u), "_id")
    ensures CurrentUserId(Obj(u)) == Get(Obj(u), "_id")
  {
  }

  /** What the page shows of the video and the save button. */
  datatype Viewer = Viewer(videoDetails: Json, videoLoading: bool, error: Option<string>, isSaving: bool)

  const InitialViewer := Viewer(Null, true, None, false)

  const InvalidId := "Invalid video ID."
  const NoVideoData := "No video data found."

  /** `fetchVideoDetails`: an empty id and a response without a first
      record are errors, as is a rejected call (shown by its reason); only
      a first record that is truthy becomes the video. Loading ends false
      on every path. */
  function Fetched(v: Viewer, videoId: string, o: Outcome): (r: Viewer)
    ensures !r.videoLoading && r.isSaving == v.isSaving
    ensures videoId == "" ==> r.error == Some(InvalidId) && r.videoDetails == v.videoDetails
    ensures videoId != "" && o.Fail? ==> r.error == Some(Reason(o.error)) && r.videoDetails == v.videoDetails
    ensures videoId != "" && o.Ok? && !Truthy(FirstRecord(o.body)) ==>
              r.error == Some(NoVideoData) && r.videoDetails == v.videoDetails
    ensures VideoFound(videoId, o) ==> r.videoDetails == FirstRecord(o.body) && r.error == v.error
  {
    if videoId == "" then v.(error := Some(InvalidId), videoLoading := false)
    else match o
      case Fail(e) => v.(error := Some(Reason(e)), videoLoading := false)
      case Ok(body) =>
        var videoData := FirstRecord(body);
        if !Truthy(videoData) then v.(error := Some(NoVideoData), videoLoading := false)
        else v.(videoDetails := videoData, videoLoading := false)
  }

  /** The fetch found a video: the only path that refreshes the session. */
  predicate VideoFound(videoId: string, o: Outcome) {
    videoId != "" && o.Ok? && Truthy(FirstRecord(o.body))
  }

  /** From the first render, a fetch either shows a video and no error or
      shows an error and no video. */
  lemma FetchShowsVideoOrError(videoId: string, o: Outcome)
    ensures var r := Fetched(InitialViewer, videoId, o);
            (Truthy(r.videoDetails) && r.error == None) != (r.error.Some? && r.videoDetails == Null)
  {
  }

  /** The remote calls the save button can make. */
  datatype Call = GetUserPlaylists(userId: Json) | AddVideoToPlaylist(videoId: string, playlistId: Json)

  /** How a save attempt ends (each ends in an alert except `Cancelled`). */
  datatype Verdict =
    | NeedsLogin
    | MissingUserId
    | NoPlaylists
    | Cancelled
    | InvalidSelection
    | AlreadyInPlaylist(name: Json)
    | Saved(name: Json)
    | Failed(reason: string)

  /** The calls made in order, whether the prompt was shown, and the end. */
  datatype SaveRun = SaveRun(calls: seq<Call>, prompted: bool, verdict: Verdict)

  /** `playlists[parseInt(selection) - 1]`: the entry the typed number
      names counting from 1, or undefined. */
  function Selected(list: seq<Json>, selection: string): (r: Json)
    ensures r != Undefined ==> r in list
  {
    match ParseInt(selection)
    case None => Undefined
    case Some(k) => if 1 <= k <= |list| then list[k - 1] else Undefined
  }

  /** Whether `needle` occurs in `hay` as a block of consecutive characters. */
  predicate Occurs(needle: string, hay: string)
    decreases |hay|
  {
    needle <= hay || (hay != [] && Occurs(needle, hay[1..]))
  }

  /** `videos.includes(videoId)`: membership for an array, substring search
      for a string, and None (a TypeError) for anything else. */
  function Includes(videos: Json, videoId: string): (r: Option<bool>)
    ensures r.Some? <==> videos.Arr? || videos.Str?
    ensures videos.Arr? ==> r == Some(Str(videoId) in videos.items)
  {
    match videos
    case Arr(items) => Some(Str(videoId) in items)
    case Str(s) => Some(Occurs(videoId, s))
    case _ => None
  }

  /** Every entry can have its `.name` read (the prompt text does so). */
  predicate AllPresent(list: seq<Json>) {
    forall i :: 0 <= i < |list| ==> !Nullish(list[i])
  }

  /** Whether the two guards before `setIsSaving(true)` pass. */
  predicate SetsSaving(session: AuthContext.Session) {
    session.IsAuthenticated() && Truthy(CurrentUserId(session.user))
  }

  /** `handleSaveToPlaylist`, given how its two calls settle and what the
      user types into the prompt (None when it is cancelled). */
  function SaveToPlaylist(session: AuthContext.Session, videoId: string, playlists: Outcome,
                          selection: Option<string>, added: Outcome): (r: SaveRun)
    ensures |r.calls| <= 2
    ensures r.calls == [] <==> !SetsSaving(session)
    ensures !session.IsAuthenticated() ==> r.verdict == NeedsLogin
    ensures r.calls != [] ==> r.calls[0] == GetUserPlaylists(CurrentUserId(session.user))
    ensures |r.calls| == 2 ==> r.calls[1].AddVideoToPlaylist? && r.calls[1].videoId == videoId && r.prompted
    ensures r.verdict.Saved? ==> |r.calls| == 2 && added.Ok?
    ensures r.prompted ==> |r.calls| >= 1 && playlists.Ok?
  {
    if !session.IsAuthenticated() then SaveRun([], false, NeedsLogin)
    else
      var userId := CurrentUserId(session.user);
      if !Truthy(userId) then SaveRun([], false, MissingUserId)
      else
        var first := [GetUserPlaylists(userId)];
        match playlists
        case Fail(e) => SaveRun(first, false, Failed(Reason(e)))
        case Ok(body) =>
          match ListToMap(Get(body, "data"))
          case None => SaveRun(first, false, Failed(TypeErrorText))
          case Some(list) =>
            if |list| == 0 then SaveRun(first, false, NoPlaylists)
            else if !AllPresent(list) then SaveRun(first, false, Failed(TypeErrorText))
            else if selection.None? || selection.value == "" then SaveRun(first, true, Cancelled)
            else
              var chosen := Selected(list, selection.value);
              if !Truthy(chosen) then SaveRun(first, true, InvalidSelection)
              else match Includes(Get(chosen, "videos"), videoId)
                case None => SaveRun(first, true, Failed(TypeErrorText))
                case Some(true) => SaveRun(first, true, AlreadyInPlaylist(Get(chosen, "name")))
                case Some(false) =>
                  var both := first + [AddVideoToPlaylist(videoId, IdOf(chosen))];
                  match added
                  case Ok(_) => SaveRun(both, true, Saved(Get(chosen, "name")))
                  case Fail(e) => SaveRun(both, true, Failed(Reason(e)))
  }

  /** The add call is made exactly when every check passes: a list of
      playlists that is an array of present entries, a non-empty answer
      naming one of them counting from 1, and a `videos` array or string
      that does not yet hold the video. It then adds to that playlist. */
  lemma AddIffSelectionValid(session: AuthContext.Session, videoId: string, playlists: Outcome,
                             selection: Option<string>, added: Outcome)
    ensures var r := SaveToPlaylist(session, videoId, playlists, selection, added);
            |r.calls| == 2 <==>
              SetsSaving(session) && playlists.Ok?
              && ListToMap(Get(playlists.body, "data")).Some?
              && var list := ListToMap(Get(playlists.body, "data")).value;
              |list| > 0 && AllPresent(list) && selection.Some? && selection.value != ""
              && Truthy(Selected(list, selection.value))
              && Includes(Get(Selected(list, selection.value), "videos"), videoId) == Some(false)
    ensures var r := SaveToPlaylist(session, videoId, playlists, selection, added);
            |r.calls| == 2 ==>
              var list := ListToMap(Get(playlists.body, "data")).value;
              r.calls[1] == AddVideoToPlaylist(videoId, IdOf(Selected(list, selection.value)))
  {
  }

  /** Typing the number k picks the k-th playlist, for k from 1 to the
      number of playlists. */
  lemma SelectionIsOneBased(list: seq<Json>, k: int)
    requires 1 <= k <= |list|
    ensures Selected(list, IntText(k)) == list[k - 1]
  {
    ParseIntText(k);
  }

  /** Typing a number outside 1 to n picks nothing. */
  lemma SelectionOutOfRange(list: seq<Json>, k: int)
    requires k < 1 || |list| < k
    ensures Selected(list, IntText(k)) == Undefined
  {
    ParseIntText(k);
  }

  /** A video already in the chosen playlist's array is never added again. */
  lemma NoDuplicateAdd(session: AuthContext.Session, videoId: string, body: Json,
                       k: int, added: Outcome)
    requires SetsSaving(session)
    requires Get(body, "data").Arr? && AllPresent(Get(body, "data").items)
    requires 1 <= k <= |Get(body, "data").items|
    requires var p := Get(body, "data").items[k - 1];
             Truthy(p) && Get(p, "videos").Arr? && Str(videoId) in Get(p, "videos").items
    ensures var r := SaveToPlaylist(session, videoId, Ok(body), Some(IntText(k)), added);
            |r.calls| == 1 && r.verdict == AlreadyInPlaylist(Get(Get(body, "data").items[k - 1], "name"))
  {
    SelectionIsOneBased(Get(body, "data").items, k);
  }

  class VideoPage {
    var videoDetails: Json
    var videoLoading: bool
    var error: Option<string>
    var isSaving: bool

    function State(): Viewer
      reads this
    {
      Viewer(videoDetails, videoLoading, error, isSaving)
    }

    constructor ()
      ensures State() == InitialViewer
    {
      videoDetails, videoLoading, error, isSaving := Null, true, None, false;
    }

    /** `fetchVideoDetails`; when a video is found and someone is signed
        in, the session is refreshed with `refresh` (whose failures the
        session store absorbs). */
    method FetchVideoDetails(videoId: string, o: Outcome, auth: AuthContext.AuthProvider, refresh: Outcome)
      modifies this, auth
      ensures State() == Fetched(old(State()), videoId, o)
      ensures VideoFound(videoId, o) && old(auth.IsAuthenticated()) ==>
                auth.State() == AuthContext.Rehydrated(old(auth.State()), refresh)
      ensures !(VideoFound(videoId, o) && old(auth.IsAuthenticated())) ==> auth.State() == old(auth.State())
    {
      if videoId == "" {
        error := Some(InvalidId);
        videoLoading := false;
        return;
      }
      if o.Fail? {
        error := Some(Reason(o.error));
      } else {
        var videoData := FirstRecord(o.body);
        if !Truthy(videoData) {
          error := Some(NoVideoData);
        } else {
          videoDetails := videoData;
          if auth.IsAuthenticated() {
            auth.FetchUser(refresh);
          }
        }
      }
      videoLoading := false;
    }

    /** `handleSaveToPlaylist`: the button is busy from the first call on
        and idle again when the chain ends. */
    method HandleSaveToPlaylist(session: AuthContext.Session, videoId: string, playlists: Outcome,
                                selection: Option<string>, added: Outcome) returns (run: SaveRun)
      modifies this`isSaving
      ensures run == SaveToPlaylist(session, videoId, playlists, selection, added)
      ensures isSaving == (old(isSaving) && run.calls == [])
    {
      if !session.IsAuthenticated() {
        return SaveRun([], false, NeedsLogin);
      }
      var userId := CurrentUserId(session.user);
      if !Truthy(userId) {
        return SaveRun([], false, MissingUserId);
      }
      isSaving := true;
      run := SaveChain(userId, videoId, playlists, selection, added);
      isSaving := false;
    }
  }

  /** The body of the `try` block, from the playlists call on. */
  method SaveChain(userId: Json, videoId: string, playlists: Outcome,
                   selection: Option<string>, added: Outcome) returns (run: SaveRun)
    requires Truthy(userId)
    ensures forall session: AuthContext.Session | session.IsAuthenticated() && CurrentUserId(session.user) == userId ::
              run == SaveToPlaylist(session, videoId, playlists, selection, added)
  {
    var calls := [GetUserPlaylists(userId)];
    if playlists.Fail? {
      return SaveRun(calls, false, Failed(Reason(playlists.error)));
    }
    var list := ListToMap(Get(playlists.body, "data"));
    if list.None? {
      return SaveRun(calls, false, Failed(TypeErrorText));
    }
    if |list.value| == 0 {
      return SaveRun(calls, false, NoPlaylists);
    }
    if !AllPresent(list.value) {
      return SaveRun(calls, false, Failed(TypeErrorText));
    }
    if selection.None? || selection.value == "" {
      return SaveRun(calls, true, Cancelled);
    }
    var chosen := Selected(list.value, selection.value);
    if !Truthy(chosen) {
      return SaveRun(calls, true, InvalidSelection);
    }
    var already := Includes(Get(chosen, "videos"), videoId);
    if already.None? {
      return SaveRun(calls, true, Failed(TypeErrorText));
    }
    if already.value {
      return SaveRun(calls, true, AlreadyInPlaylist(Get(chosen, "name")));
    }
    calls := calls + [AddVideoToPlaylist(videoId, IdOf(chosen))];
    if added.Fail? {
      return SaveRun(calls, true, Failed(Reason(added.error)));
    }
    run := SaveRun(calls, true, Saved(Get(chosen, "name")));
  }
}
