/**
 * The comment section under a video. It keeps the video's comments as a
 * list of records keyed by `_id`, the text of a new comment, and the id and
 * text of the comment being edited. Each handler is first given as a
 * function on a `Panel` value, then carried out by the `CommentSection`
 * class whose methods update its fields.
 */
module Comments {
  import opened Js
  import opened JsText
  import opened Remote
  import opened Resources

  datatype Panel = Panel(
    comments: seq<Json>,
    newComment: string,
    editingId: Json,
    editingText: Json,
    loading: bool,
    error: string)

  /** The state before the first fetch. */
  const Initial := Panel([], "", Null, Str(""), true, "")

  const LoadError := "Could not load comments."

  /** `res.data?.data?.comments || []`, read as a list. */
  function FetchedComments(body: Json): (r: seq<Json>)
    ensures Get(Get(body, "data"), "comments").Arr? ==> r == Get(Get(body, "data"), "comments").items
    ensures !Truthy(Get(Get(body, "data"), "comments")) ==> r == []
  {
    AsList(Get(Get(body, "data"), "comments"))
  }

  /** The effect that fetches the comments when there is a video id: a
      success replaces the list and leaves any earlier error standing; a
      failure keeps the list and sets the error. Loading ends false once a
      fetch has run. */
  function Fetched(p: Panel, videoId: string, o: Outcome): (r: Panel)
    ensures videoId == "" ==> r == p
    ensures videoId != "" ==>
              !r.loading && r.newComment == p.newComment && r.editingId == p.editingId && r.editingText == p.editingText
    ensures videoId != "" && o.Ok? ==> r.comments == FetchedComments(o.body) && r.error == p.error
    ensures videoId != "" && o.Fail? ==> r.comments == p.comments && r.error == LoadError
  {
    if videoId == "" then p
    else match o
      case Ok(body) => p.(comments := FetchedComments(body), loading := false)
      case Fail(_) => p.(error := LoadError, loading := false)
  }

  /** The request `handleAddComment` sends: none for blank text. */
  function AddRequest(p: Panel): (r: Option<string>)
    ensures r.None? <==> Trim(p.newComment) == ""
    ensures r.Some? ==> r.value == p.newComment
  {
    if Trim(p.newComment) == "" then None else Some(p.newComment)
  }

  /** `handleAddComment` once its call settles: on success the returned
      comment goes in front of the others and the input is cleared;
      anything else changes nothing. */
  function Added(p: Panel, o: Outcome): (r: Panel)
    ensures AddRequest(p).None? || o.Fail? ==> r == p
    ensures AddRequest(p).Some? && o.Ok? && !Nullish(o.body) ==>
              r == p.(comments := Prepend(Get(o.body, "data"), p.comments), newComment := "")
  {
    if AddRequest(p).None? then p
    else match o
      case Fail(_) => p
      case Ok(body) =>
        match Member(body, "data")
        case None => p
        case Some(c) => p.(comments := Prepend(c, p.comments), newComment := "")
  }

  /** `handleDelete`: a success removes every comment with that id and
      keeps the rest in order; a failure changes nothing. */
  function Deleted(p: Panel, commentId: Json, o: Outcome): (r: Panel)
    ensures o.Ok? ==> r == p.(comments := RemoveById(p.comments, commentId))
    ensures o.Fail? ==> r == p
  {
    if o.Ok? then p.(comments := RemoveById(p.comments, commentId)) else p
  }

  /** The Edit button: the comment's id and content enter edit mode. */
  function EditStarted(p: Panel, c: Json): (r: Panel)
    ensures r.editingId == IdOf(c) && r.editingText == Get(c, "content")
    ensures r == p.(editingId := IdOf(c), editingText := Get(c, "content"))
  {
    p.(editingId := IdOf(c), editingText := Get(c, "content"))
  }

  /** The Cancel button: edit mode ends with empty text. */
  function EditCancelled(p: Panel): (r: Panel)
    ensures r.editingId == Null && r.editingText == Str("")
    ensures r == p.(editingId := Null, editingText := Str(""))
  {
    p.(editingId := Null, editingText := Str(""))
  }

  /** Starting an edit and cancelling it gives back the panel as it was
      when no edit was open: list, input, loading and error untouched. */
  lemma CancelUndoesStart(p: Panel, c: Json)
    requires p.editingId == Null && p.editingText == Str("")
    ensures EditCancelled(EditStarted(p, c)) == p
  {
  }

  /** The request `handleEdit` sends: none for blank text, and none when
      the text is not a string (where `.trim()` throws). */
  function EditRequest(p: Panel): (r: Option<string>)
    ensures r.Some? <==> p.editingText.Str? && Trim(p.editingText.s) != ""
    ensures r.Some? ==> r.value == p.editingText.s
  {
    if p.editingText.Str? && Trim(p.editingText.s) != "" then Some(p.editingText.s) else None
  }

  /** `handleEdit` once its call settles: on success every comment with
      that id becomes the returned record, the others stay where they are,
      and edit mode ends; anything else changes nothing. */
  function Edited(p: Panel, commentId: Json, o: Outcome): (r: Panel)
    ensures EditRequest(p).None? || o.Fail? ==> r == p
    ensures EditRequest(p).Some? && o.Ok? && !Nullish(o.body) ==>
              r == p.(comments := ReplaceById(p.comments, commentId, Get(o.body, "data")),
                      editingId := Null, editingText := Str(""))
    ensures |r.comments| == |p.comments|
  {
    if EditRequest(p).None? then p
    else match o
      case Fail(_) => p
      case Ok(body) =>
        match Member(body, "data")
        case None => p
        case Some(c) => p.(comments := ReplaceById(p.comments, commentId, c),
                           editingId := Null, editingText := Str(""))
  }

  /** Whitespace-only text is never sent, whatever the server would say. */
  lemma BlankCommentChangesNothing(p: Panel, o: Outcome)
    requires IsBlank(p.newComment)
    ensures AddRequest(p) == None && Added(p, o) == p
  {
    TrimEmptyIffBlank(p.newComment);
  }

  /** Text with any visible character is sent as typed. */
  lemma VisibleCommentIsSent(p: Panel)
    requires !IsBlank(p.newComment)
    ensures AddRequest(p) == Some(p.newComment)
  {
    TrimEmptyIffBlank(p.newComment);
  }

  /** Deleting a comment that was just added, whose id no older comment
      shares, gives back the earlier list. */
  lemma AddThenDelete(p: Panel, comment: Json, ok: Json)
    requires AddRequest(p).Some?
    requires forall c :: c in p.comments ==> IdOf(c) != IdOf(comment)
    ensures var added := Added(p, Ok(Obj(map["data" := comment])));
            Deleted(added, IdOf(comment), Ok(ok)).comments == p.comments
  {
    var body := Obj(map["data" := comment]);
    assert Get(body, "data") == comment;
    assert Added(p, Ok(body)).comments == Prepend(comment, p.comments);
    PrependThenRemove(comment, p.comments);
  }

  /** An edit, as the server confirms it, does not change what a later
      delete of that comment leaves. */
  lemma EditThenDelete(p: Panel, id: Json, rec: Json, ok: Json)
    requires EditRequest(p).Some? && IdOf(rec) == id
    ensures var edited := Edited(p, id, Ok(Obj(map["data" := rec])));
            Deleted(edited, id, Ok(ok)).comments == Deleted(p, id, Ok(ok)).comments
  {
    var body := Obj(map["data" := rec]);
    assert Get(body, "data") == rec;
    assert Edited(p, id, Ok(body)).comments == ReplaceById(p.comments, id, rec);
    RemoveAfterReplace(p.comments, id, rec);
  }

  class CommentSection {
    var comments: seq<Json>
    var newComment: string
    var editingId: Json
    var editingText: Json
    var loading: bool
    var error: string

    function State(): Panel
      reads this
    {
      Panel(comments, newComment, editingId, editingText, loading, error)
    }

    constructor ()
      ensures State() == Initial
    {
      comments, newComment, editingId, editingText := [], "", Null, Str("");
      loading, error := true, "";
    }

    method FetchComments(videoId: string, o: Outcome)
      modifies this
      ensures State() == Fetched(old(State()), videoId, o)
    {
      if videoId == "" {
        return;
      }
      loading := true;
      if o.Ok? {
        comments := AsList(Get(Get(o.body, "data"), "comments"));
      } else {
        error := LoadError;
      }
      loading := false;
    }

    /** Returns the text sent, or None when no call was made. */
    method HandleAddComment(o: Outcome) returns (call: Option<string>)
      modifies this
      ensures call == AddRequest(old(State()))
      ensures State() == Added(old(State()), o)
    {
      if Trim(newComment) == "" {
        return None;
      }
      call := Some(newComment);
      if o.Ok? {
        var c := Member(o.body, "data");
        if c.Some? {
          comments := [c.value] + comments;
          newComment := "";
        }
      }
    }

    method HandleDelete(commentId: Json, o: Outcome)
      modifies this
      ensures State() == Deleted(old(State()), commentId, o)
    {
      if o.Ok? {
        comments := RemoveById(comments, commentId);
      }
    }

    method StartEdit(c: Json)
      modifies this
      ensures State() == EditStarted(old(State()), c)
    {
      editingId := IdOf(c);
      editingText := Get(c, "content");
    }

    method CancelEdit()
      modifies this
      ensures State() == EditCancelled(old(State()))
    {
      editingId := Null;
      editingText := Str("");
    }

    /** Returns the text sent, or None when no call was made. */
    method HandleEdit(commentId: Json, o: Outcome) returns (call: Option<string>)
      modifies this
      ensures call == EditRequest(old(State()))
      ensures State() == Edited(old(State()), commentId, o)
    {
      ghost var before := State();
      if !editingText.Str? || Trim(editingText.s) == "" {
        return None;
      }
      call := Some(editingText.s);
      if o.Ok? {
        var c := Member(o.body, "data");
        if c.Some? {
          comments := ReplaceById(comments, commentId, c.value);
          editingId := Null;
          editingText := Str("");
          assert State() == before.(comments := ReplaceById(before.comments, commentId, c.value),
                                    editingId := Null, editingText := Str(""));
        }
      }
    }
  }
}
