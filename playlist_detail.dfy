/**
 * The playlist detail page: it loads one playlist, then every video the
 * playlist lists, and shows either all of them or an error. The awaited
 * fan-out over the video ids is taken one id after another; it succeeds
 * only when every call does, and then keeps each response's first record
 * in id order, dropping the undefined ones.
 */
module PlaylistDetail {
  import opened Js
  import opened Remote
  import opened Resources

  /** The end of the fan-out: every response body in id order, or the
      error that stops it. */
  datatype FanOutResult = AllFetched(bodies: seq<Json>) | FirstFailure(error: ApiError)

  /** `Promise.all(ids.map(id => getVideoById(id)))`, where `reply` says how
      the call for each id settles. */
  function FanOut(ids: seq<Json>, reply: Json -> Outcome): (r: FanOutResult)
    ensures r.AllFetched? <==> forall i :: 0 <= i < |ids| ==> reply(ids[i]).Ok?
    ensures r.AllFetched? ==>
              |r.bodies| == |ids| && forall i :: 0 <= i < |ids| ==> r.bodies[i] == reply(ids[i]).body
    ensures r.FirstFailure? ==>
              exists i :: 0 <= i < |ids| && reply(ids[i]) == Fail(r.error)
                          && forall j :: 0 <= j < i ==> reply(ids[j]).Ok?
    decreases |ids|
  {
    if ids == [] then AllFetched([])
    else match reply(ids[0])
      case Fail(e) => FirstFailure(e)
      case Ok(body) =>
        match FanOut(ids[1..], reply)
        case FirstFailure(e) =>
          ghost var i :| 0 <= i < |ids[1..]| && reply(ids[1..][i]) == Fail(e)
                         && forall j :: 0 <= j < i ==> reply(ids[1..][j]).Ok?;
          assert reply(ids[i + 1]) == Fail(e);
          FirstFailure(e)
        case AllFetched(rest) => AllFetched([body] + rest)
  }

  /** `.map(res => res.data?.data?.[0]).filter(video => video !== undefined)` */
  function ExtractVideos(bodies: seq<Json>): (r: seq<Json>)
    ensures |r| <= |bodies|
    ensures forall v :: v in r ==> v != Undefined
    ensures forall v :: v in r <==> v != Undefined && exists i :: 0 <= i < |bodies| && FirstRecord(bodies[i]) == v
  {
    if bodies == [] then []
    else
      var rest := ExtractVideos(bodies[1..]);
      var v := FirstRecord(bodies[0]);
      assert forall i :: 0 <= i < |bodies[1..]| ==> bodies[1..][i] == bodies[i + 1];
      assert forall w :: w in rest ==> exists i :: 0 <= i < |bodies| && FirstRecord(bodies[i]) == w by {
        forall w | w in rest ensures exists i :: 0 <= i < |bodies| && FirstRecord(bodies[i]) == w {
          var k :| 0 <= k < |bodies[1..]| && FirstRecord(bodies[1..][k]) == w;
          assert FirstRecord(bodies[k + 1]) == w;
        }
      }
      (if v != Undefined then [v] else []) + rest
  }

  /** Extraction keeps the order of the responses: extracting from two runs
      of responses one after the other is extracting from each. */
  lemma {:induction false} ExtractKeepsOrder(a: seq<Json>, b: seq<Json>)
    ensures ExtractVideos(a + b) == ExtractVideos(a) + ExtractVideos(b)
  {
    if a == [] {
      assert a + b == b;
    } else {
      assert (a + b)[1..] == a[1..] + b;
      ExtractKeepsOrder(a[1..], b);
    }
  }

  /** When every response carries a record, nothing is dropped and the
      records come out in id order. */
  lemma {:induction false} ExtractAllPresent(bodies: seq<Json>)
    requires forall i :: 0 <= i < |bodies| ==> FirstRecord(bodies[i]) != Undefined
    ensures |ExtractVideos(bodies)| == |bodies|
    ensures forall i :: 0 <= i < |bodies| ==> ExtractVideos(bodies)[i] == FirstRecord(bodies[i])
  {
    if bodies != [] {
      ExtractAllPresent(bodies[1..]);
    }
  }

  datatype Detail = Detail(playlist: Json, videos: seq<Json>, loading: bool, error: Option<string>)

  const Initial := Detail(Null, [], true, None)

  const NotFound := "Playlist not found."

  function LoadFailure(e: ApiError): string {
    "Failed to load playlist: " + Reason(e)
  }

  /** The video ids a fetch asks for, all at once: none unless the
      playlist arrived with a non-empty list of ids. */
  function VideoRequests(playlistId: string, o: Outcome): (r: seq<Json>)
    ensures playlistId == "" || o.Fail? ==> r == []
    ensures r != [] ==> Get(Get(o.body, "data"), "videos").Arr? && r == Get(Get(o.body, "data"), "videos").items
  {
    if playlistId == "" || o.Fail? then []
    else
      var data := Get(o.body, "data");
      if !Truthy(data) then []
      else match ListToMap(Get(data, "videos"))
        case None => []
        case Some(ids) => ids
  }

  /** `fetchPlaylistDetails`, given how the playlist call settles and how
      the call for each video id would. */
  function Fetched(d: Detail, playlistId: string, o: Outcome, reply: Json -> Outcome): (r: Detail)
    ensures playlistId == "" ==> r == d
    ensures playlistId != "" ==> !r.loading
    ensures playlistId != "" && o.Fail? ==>
              r == d.(videos := [], loading := false, error := Some(LoadFailure(o.error)))
    ensures playlistId != "" && o.Ok? && !Truthy(Get(o.body, "data")) ==>
              r == d.(loading := false, error := Some(NotFound))
    ensures playlistId != "" && o.Ok? && Truthy(Get(o.body, "data")) ==> r.playlist == Get(o.body, "data")
    ensures r.error.None? && playlistId != "" ==>
              FanOut(VideoRequests(playlistId, o), reply).AllFetched? &&
              r.videos == ExtractVideos(FanOut(VideoRequests(playlistId, o), reply).bodies)
    ensures r.error.Some? && playlistId != "" && r.error != Some(NotFound) ==> r.videos == []
  {
    if playlistId == "" then d
    else match o
      case Fail(e) => d.(videos := [], loading := false, error := Some(LoadFailure(e)))
      case Ok(body) =>
        var data := Get(body, "data");
        if !Truthy(data) then d.(loading := false, error := Some(NotFound))
        else match ListToMap(Get(data, "videos"))
          case None => Detail(data, [], false, Some(LoadFailure(LocalError(TypeErrorText))))
          case Some(ids) =>
            if ids == [] then Detail(data, [], false, None)
            else match FanOut(ids, reply)
              case FirstFailure(e) => Detail(data, [], false, Some(LoadFailure(e)))
              case AllFetched(bodies) => Detail(data, ExtractVideos(bodies), false, None)
  }

  /** A playlist whose id list is empty makes no video call and shows no
      videos. */
  lemma EmptyPlaylistNoCalls(d: Detail, playlistId: string, data: map<string, Json>, reply: Json -> Outcome)
    requires playlistId != ""
    ensures var o := Ok(Obj(map["data" := Obj(data["videos" := Arr([])])]));
            VideoRequests(playlistId, o) == [] && Fetched(d, playlistId, o, reply).videos == []
            && Fetched(d, playlistId, o, reply).error == None
  {
  }

  /** One failed video call leaves no partial result: no videos and one
      error, the failed call's. */
  lemma NoPartialResults(d: Detail, playlistId: string, o: Outcome, reply: Json -> Outcome, k: nat)
    requires playlistId != "" && k < |VideoRequests(playlistId, o)|
    requires reply(VideoRequests(playlistId, o)[k]).Fail?
    ensures var r := Fetched(d, playlistId, o, reply);
            r.videos == [] && r.error.Some?
            && r.error.value == LoadFailure(FanOut(VideoRequests(playlistId, o), reply).error)
  {
  }

  /** When every call succeeds and every response carries a record, the
      page shows one video per id, in id order. */
  lemma AllVideosInIdOrder(d: Detail, playlistId: string, o: Outcome, reply: Json -> Outcome)
    requires playlistId != ""
    requires var ids := VideoRequests(playlistId, o);
             ids != [] && forall i :: 0 <= i < |ids| ==> reply(ids[i]).Ok? && FirstRecord(reply(ids[i]).body) != Undefined
    ensures var ids := VideoRequests(playlistId, o);
            var r := Fetched(d, playlistId, o, reply);
            r.error == None && |r.videos| == |ids|
            && forall i :: 0 <= i < |ids| ==> r.videos[i] == FirstRecord(reply(ids[i]).body)
  {
    var ids := VideoRequests(playlistId, o);
    var bodies := FanOut(ids, reply).bodies;
    ExtractAllPresent(bodies);
  }

  class DetailPage {
    var playlist: Json
    var videos: seq<Json>
    var loading: bool
    var error: Option<string>

    function State(): Detail
      reads this
    {
      Detail(playlist, videos, loading, error)
    }

    constructor ()
      ensures State() == Initial
    {
      playlist, videos, loading, error := Null, [], true, None;
    }

    /** Returns the video ids requested. */
    method FetchPlaylistDetails(playlistId: string, o: Outcome, reply: Json -> Outcome)
      returns (requested: seq<Json>)
      modifies this
      ensures requested == VideoRequests(playlistId, o)
      ensures State() == Fetched(old(State()), playlistId, o, reply)
    {
      requested := [];
      if playlistId == "" {
        return;
      }
      loading := true;
      error := None;
      if o.Fail? {
        error := Some(LoadFailure(o.error));
        videos := [];
        loading := false;
        return;
      }
      var data := Get(o.body, "data");
      if !Truthy(data) {
        error := Some(NotFound);
        loading := false;
        return;
      }
      playlist := data;
      var ids := ListToMap(Get(data, "videos"));
      if ids.None? {
        error := Some(LoadFailure(LocalError(TypeErrorText)));
        videos := [];
      } else if ids.value == [] {
        videos := [];
      } else {
        requested := ids.value;
        var responses := FanOut(ids.value, reply);
        if responses.FirstFailure? {
          error := Some(LoadFailure(responses.error));
          videos := [];
        } else {
          videos := ExtractVideos(responses.bodies);
        }
      }
      loading := false;
    }
  }
}
