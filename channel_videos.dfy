/**
 * The channel's own video list: the videos, the one selected for editing
 * with its edited title and description, and the flags for edit mode and
 * saving. Publishing and saving never patch a video locally; after a
 * success the whole list is fetched again.
 */
module ChannelVideos {
  import opened Js
  import opened Remote
  import opened Resources

  datatype Studio = Studio(
    videos: seq<Json>,
    loading: bool,
    selectedVideo: Json,
    editMode: bool,
    editTitle: Json,
    editDescription: Json,
    saving: bool)

  const Initial := Studio([], false, Null, false, Str(""), Str(""), false)

  /** The list a channel-videos response gives: `res.data.data` when it is
      an array, and the empty list otherwise. */
  function ChannelList(body: Json): (r: seq<Json>)
    ensures Get(body, "data").Arr? ==> r == Get(body, "data").items
    ensures !Get(body, "data").Arr? ==> r == []
  {
    AsList(Get(body, "data"))
  }

  /** The mount effect: a success shows the response's array (or nothing),
      a failure shows nothing. */
  function Fetched(s: Studio, o: Outcome): (r: Studio)
    ensures o.Ok? ==> r == s.(videos := ChannelList(o.body), loading := false)
    ensures o.Fail? ==> r == s.(videos := [], loading := false)
  {
    match o
    case Ok(body) => s.(videos := ChannelList(body), loading := false)
    case Fail(_) => s.(videos := [], loading := false)
  }

  /** `handleEditClick`: the video is selected and its title and
      description are copied into the edit form, which opens. For null or
      undefined the selection is made and reading `.title` throws. */
  function EditClicked(s: Studio, video: Json): (r: Studio)
    ensures r.selectedVideo == video && r.videos == s.videos
    ensures !Nullish(video) ==>
              r.editMode && r.editTitle == Get(video, "title") && r.editDescription == Get(video, "description")
    ensures !Nullish(video) ==>
              r == s.(selectedVideo := video, editTitle := Get(video, "title"),
                      editDescription := Get(video, "description"), editMode := true)
    ensures Nullish(video) ==> r == s.(selectedVideo := video)
  {
    if Nullish(video) then s.(selectedVideo := video)
    else s.(selectedVideo := video, editTitle := Get(video, "title"),
            editDescription := Get(video, "description"), editMode := true)
  }

  /** The update call `handleSaveChanges` makes: none without a selected
      video. */
  datatype UpdateCall = UpdateVideo(videoId: Json, title: Json, description: Json)

  function SaveRequest(s: Studio): (r: Option<UpdateCall>)
    ensures r.Some? <==> Truthy(s.selectedVideo)
    ensures r.Some? ==> r.value == UpdateVideo(IdOf(s.selectedVideo), s.editTitle, s.editDescription)
  {
    if Truthy(s.selectedVideo) then Some(UpdateVideo(IdOf(s.selectedVideo), s.editTitle, s.editDescription))
    else None
  }

  /** `handleSaveChanges`, given how the update and the refetch settle: a
      success closes the edit form and, if the refetch succeeds too,
      replaces the list; saving is off at the end. */
  function Saved(s: Studio, update: Outcome, refresh: Outcome): (r: Studio)
    ensures SaveRequest(s).None? ==> r == s
    ensures SaveRequest(s).Some? ==> !r.saving && r.selectedVideo == s.selectedVideo
    ensures SaveRequest(s).Some? && update.Fail? ==> r == s.(saving := false)
    ensures SaveRequest(s).Some? && update.Ok? ==> !r.editMode
    ensures SaveRequest(s).Some? && update.Ok? && refresh.Ok? ==>
              r == s.(editMode := false, videos := AsList(Get(refresh.body, "data")), saving := false)
    ensures SaveRequest(s).Some? && update.Ok? && refresh.Fail? ==>
              r == s.(editMode := false, saving := false)
  {
    if SaveRequest(s).None? then s
    else if update.Fail? then s.(saving := false)
    else if refresh.Fail? then s.(editMode := false, saving := false)
    else s.(editMode := false, videos := AsList(Get(refresh.body, "data")), saving := false)
  }

  /** `handleTogglePublish`: the list is only ever replaced by what the
      server sends after the toggle; it is never edited locally. */
  function PublishToggled(s: Studio, toggle: Outcome, refresh: Outcome): (r: Studio)
    ensures toggle.Ok? && refresh.Ok? ==> r == s.(videos := AsList(Get(refresh.body, "data")))
    ensures toggle.Fail? || refresh.Fail? ==> r == s
  {
    if toggle.Ok? && refresh.Ok? then s.(videos := AsList(Get(refresh.body, "data"))) else s
  }

  /** `handleDelete`: nothing without confirmation; on success every video
      with that id goes and the rest keep their order. */
  function Deleted(s: Studio, videoId: Json, confirmed: bool, o: Outcome): (r: Studio)
    ensures !confirmed || o.Fail? ==> r == s
    ensures confirmed && o.Ok? ==> r == s.(videos := RemoveById(s.videos, videoId))
  {
    if confirmed && o.Ok? then s.(videos := RemoveById(s.videos, videoId)) else s
  }

  /** Whatever was shown, toggling publish shows either the old list or
      exactly the server's refetched array: no video's flag is flipped in
      place. */
  lemma TogglePublishOnlyRefetches(s: Studio, toggle: Outcome, refresh: Outcome)
    ensures var r := PublishToggled(s, toggle, refresh);
            r.videos == s.videos || (refresh.Ok? && r.videos == AsList(Get(refresh.body, "data")))
  {
  }

  /** Clicking Edit on a video and saving sends that video's id with its
      own title and description when nothing was typed in between. */
  lemma EditThenSaveSendsVideo(s: Studio, video: map<string, Json>)
    ensures SaveRequest(EditClicked(s, Obj(video)))
            == Some(UpdateVideo(IdOf(Obj(video)), Get(Obj(video), "title"), Get(Obj(video), "description")))
  {
  }

  /** A deleted video is gone from the list, and the rest keep their order. */
  lemma DeleteRemovesVideo(s: Studio, videoId: Json, o: Outcome, a: seq<Json>, b: seq<Json>)
    requires o.Ok? && s.videos == a + b
    ensures var r := Deleted(s, videoId, true, o);
            (forall v :: v in r.videos ==> IdOf(v) != videoId)
            && r.videos == RemoveById(a, videoId) + RemoveById(b, videoId)
  {
    RemoveByIdKeepsOrder(a, b, videoId);
    RemoveByIdMembers(s.videos, videoId);
  }

  class ChannelVideosPanel {
    var videos: seq<Json>
    var loading: bool
    var selectedVideo: Json
    var editMode: bool
    var editTitle: Json
    var editDescription: Json
    var saving: bool

    function State(): Studio
      reads this
    {
      Studio(videos, loading, selectedVideo, editMode, editTitle, editDescription, saving)
    }

    constructor ()
      ensures State() == Initial
    {
      videos, loading, selectedVideo, editMode := [], false, Null, false;
      editTitle, editDescription, saving := Str(""), Str(""), false;
    }

    method FetchChannelVideos(o: Outcome)
      modifies this
      ensures State() == Fetched(old(State()), o)
    {
      loading := true;
      if o.Ok? && Get(o.body, "data").Arr? {
        videos := Get(o.body, "data").items;
      } else {
        videos := [];
      }
      loading := false;
    }

    method HandleEditClick(video: Json)
      modifies this
      ensures State() == EditClicked(old(State()), video)
    {
      selectedVideo := video;
      if Nullish(video) {
        return;
      }
      editTitle, editDescription := Get(video, "title"), Get(video, "description");
      editMode := true;
    }

    /** Returns the update call made, if any. */
    method HandleSaveChanges(update: Outcome, refresh: Outcome) returns (call: Option<UpdateCall>)
      modifies this
      ensures call == SaveRequest(old(State()))
      ensures State() == Saved(old(State()), update, refresh)
    {
      if !Truthy(selectedVideo) {
        return None;
      }
      saving := true;
      call := Some(UpdateVideo(IdOf(selectedVideo), editTitle, editDescription));
      if update.Ok? {
        editMode := false;
        if refresh.Ok? {
          videos := AsList(Get(refresh.body, "data"));
        }
      }
      saving := false;
    }

    method HandleTogglePublish(videoId: Json, toggle: Outcome, refresh: Outcome)
      modifies this
      ensures State() == PublishToggled(old(State()), toggle, refresh)
    {
      if toggle.Fail? || refresh.Fail? {
        return;
      }
      videos := AsList(Get(refresh.body, "data"));
    }

    method HandleDelete(videoId: Json, confirmed: bool, o: Outcome)
      modifies this
      ensures State() == Deleted(old(State()), videoId, confirmed, o)
    {
      if !confirmed {
        return;
      }
      if o.Ok? {
        videos := RemoveById(videos, videoId);
      }
    }
  }
}
