/**
 * The "your playlists" page: the signed-in user's playlists, a form for a
 * new playlist (name and description), and the playlist being edited, if
 * any. The form submits to "update" while a playlist is being edited and
 * to "create" otherwise; both refetch the list after a success.
 */
module Playlist {
  import opened Js
  import opened Remote
  import opened Resources

  datatype Shelf = Shelf(
    playlists: seq<Json>,
    newName: string,
    newDescription: string,
    loading: bool,
    editPlaylist: Json)

  const Initial := Shelf([], "", "", false, Null)

  /** `res.data?.success` */
  predicate Succeeded(o: Outcome) {
    o.Ok? && Truthy(Get(o.body, "success"))
  }

  /** `fetchPlaylists`: without a user id nothing happens; a response with
      the success flag replaces the list with its payload, one without
      empties it, and a rejected call leaves it alone. */
  function Fetched(s: Shelf, user: Json, o: Outcome): (r: Shelf)
    ensures FetchRequest(user).None? ==> r == s
    ensures FetchRequest(user).Some? ==>
              !r.loading && r.editPlaylist == s.editPlaylist && r.newName == s.newName && r.newDescription == s.newDescription
    ensures FetchRequest(user).Some? && Succeeded(o) ==> r.playlists == AsList(Get(o.body, "data"))
    ensures FetchRequest(user).Some? && o.Ok? && !Succeeded(o) ==> r.playlists == []
    ensures FetchRequest(user).Some? && o.Fail? ==> r.playlists == s.playlists
  {
    if FetchRequest(user).None? then s
    else match o
      case Fail(_) => s.(loading := false)
      case Ok(body) =>
        if Truthy(Get(body, "success")) then s.(playlists := AsList(Get(body, "data")), loading := false)
        else s.(playlists := [], loading := false)
  }

  /** The call the form's submit makes. */
  datatype SubmitCall =
    | CreatePlaylist(name: string, description: string)
    | UpdatePlaylist(playlistId: Json, editedName: Json, editedDescription: Json)

  /** `editPlaylist ? handleUpdate : handleCreate`, as the call it makes. */
  function SubmitRequest(s: Shelf): (r: SubmitCall)
    ensures r.UpdatePlaylist? <==> Truthy(s.editPlaylist)
    ensures r.CreatePlaylist? ==> r == CreatePlaylist(s.newName, s.newDescription)
    ensures r.UpdatePlaylist? ==> r.playlistId == IdOf(s.editPlaylist)
  {
    if Truthy(s.editPlaylist) then
      UpdatePlaylist(IdOf(s.editPlaylist), Get(s.editPlaylist, "name"), Get(s.editPlaylist, "description"))
    else CreatePlaylist(s.newName, s.newDescription)
  }

  /** `handleCreate`: the success flag clears the form; anything else
      keeps it. */
  function Created(s: Shelf, o: Outcome): (r: Shelf)
    ensures Succeeded(o) ==> r == s.(newName := "", newDescription := "")
    ensures !Succeeded(o) ==> r == s
  {
    if Succeeded(o) then s.(newName := "", newDescription := "") else s
  }

  /** `handleUpdate`: the success flag ends editing; anything else keeps
      the playlist being edited. */
  function Updated(s: Shelf, o: Outcome): (r: Shelf)
    ensures Succeeded(o) ==> r == s.(editPlaylist := Null)
    ensures !Succeeded(o) ==> r == s
  {
    if Succeeded(o) then s.(editPlaylist := Null) else s
  }

  /** The form's submit: update while editing, create otherwise. A refetch
      follows exactly when the response carries the success flag. */
  function Submitted(s: Shelf, o: Outcome): (r: Shelf)
    ensures Truthy(s.editPlaylist) ==> r == Updated(s, o)
    ensures !Truthy(s.editPlaylist) ==> r == Created(s, o)
  {
    if Truthy(s.editPlaylist) then Updated(s, o) else Created(s, o)
  }

  /** `handleDelete`: nothing without confirmation; on success every
      playlist with that id goes and the rest keep their order. */
  function Deleted(s: Shelf, id: Json, confirmed: bool, o: Outcome): (r: Shelf)
    ensures !confirmed || o.Fail? ==> r == s
    ensures confirmed && o.Ok? ==> r == s.(playlists := RemoveById(s.playlists, id))
  {
    if confirmed && o.Ok? then s.(playlists := RemoveById(s.playlists, id)) else s
  }

  /** After a successful update the next submit creates. */
  lemma UpdateThenCreate(s: Shelf, o: Outcome)
    requires Truthy(s.editPlaylist) && Succeeded(o)
    ensures SubmitRequest(Submitted(s, o)) == CreatePlaylist(s.newName, s.newDescription)
  {
  }

  /** A failed or unflagged submit keeps everything typed, so the same
      submit can be sent again. */
  lemma FailedSubmitIsRepeatable(s: Shelf, o: Outcome)
    requires !Succeeded(o)
    ensures Submitted(s, o) == s && SubmitRequest(Submitted(s, o)) == SubmitRequest(s)
  {
  }

  /** Deleting the same playlist twice leaves what deleting it once left. */
  lemma DeleteTwice(s: Shelf, id: Json, o1: Outcome, o2: Outcome)
    requires o1.Ok?
    ensures Deleted(Deleted(s, id, true, o1), id, true, o2) == Deleted(s, id, true, o1)
  {
    RemoveByIdIdempotent(s.playlists, id);
  }

  class PlaylistPage {
    var playlists: seq<Json>
    var newName: string
    var newDescription: string
    var loading: bool
    var editPlaylist: Json

    function State(): Shelf
      reads this
    {
      Shelf(playlists, newName, newDescription, loading, editPlaylist)
    }

    constructor ()
      ensures State() == Initial
    {
      playlists, newName, newDescription, loading, editPlaylist := [], "", "", false, Null;
    }

    /** Returns the user id asked for, or None when no call was made. */
    method FetchPlaylists(user: Json, o: Outcome) returns (call: Option<Json>)
      modifies this
      ensures call == FetchRequest(user)
      ensures State() == Fetched(old(State()), user, o)
    {
      if !Truthy(Get(user, "_id")) {
        return None;
      }
      call := Some(Get(user, "_id"));
      loading := true;
      if o.Ok? {
        if Truthy(Get(o.body, "success")) {
          playlists := AsList(Get(o.body, "data"));
        } else {
          playlists := [];
        }
      }
      loading := false;
    }

    /** The form's submit; returns the call made and whether a refetch
        follows. */
    method HandleSubmit(o: Outcome) returns (call: SubmitCall, refetch: bool)
      modifies this
      ensures call == SubmitRequest(old(State()))
      ensures refetch == Succeeded(o)
      ensures State() == Submitted(old(State()), o)
    {
      refetch := o.Ok? && Truthy(Get(o.body, "success"));
      if Truthy(editPlaylist) {
        call := UpdatePlaylist(IdOf(editPlaylist), Get(editPlaylist, "name"), Get(editPlaylist, "description"));
        if refetch {
          editPlaylist := Null;
        }
      } else {
        call := CreatePlaylist(newName, newDescription);
        if refetch {
          newName, newDescription := "", "";
        }
      }
    }

    method HandleDelete(id: Json, confirmed: bool, o: Outcome)
      modifies this
      ensures State() == Deleted(old(State()), id, confirmed, o)
    {
      if !confirmed {
        return;
      }
      if o.Ok? {
        playlists := RemoveById(playlists, id);
      }
    }

    /** The Edit button on a playlist card. */
    method StartEdit(p: Json)
      modifies this`editPlaylist
      ensures editPlaylist == p
    {
      editPlaylist := p;
    }

    /** The Cancel button: the next submit creates again. */
    method CancelEdit()
      modifies this`editPlaylist
      ensures editPlaylist == Null
      ensures SubmitRequest(State()) == CreatePlaylist(newName, newDescription)
    {
      editPlaylist := Null;
    }
  }
}
