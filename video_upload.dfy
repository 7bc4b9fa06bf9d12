/**
 * The upload form: title, description, video file and thumbnail, and the
 * status of an upload (uploading, progress, error, success). An upload
 * starts only with all four fields given; a success schedules navigation
 * to the new video, or to the channel when the response has no id.
 */
module VideoUpload {
  import opened Js
  import opened Remote

  /** A chosen file, by name; the file's contents are never read here. */
  datatype File = File(name: string)

  datatype Form = Form(
    title: string,
    description: string,
    videoFile: Option<File>,
    thumbnail: Option<File>,
    uploading: bool,
    uploadProgress: int,
    error: Option<string>,
    success: bool)

  const Initial := Form("", "", None, None, false, 0, None, false)

  const MissingFields := "All fields (Title, Description, Video, Thumbnail) are required."
  const UnknownError := "An unknown error occurred during upload."

  /** All four fields are given: the test before any call is made. */
  predicate Complete(f: Form) {
    f.title != "" && f.description != "" && f.videoFile.Some? && f.thumbnail.Some?
  }

  /** `handleUpload` once the publish call settles: an incomplete form only
      shows the missing-fields error; otherwise success is set exactly when
      the call succeeds, a failure shows the server's message (or a fixed
      one) and resets the progress, and uploading is off at the end. */
  function Uploaded(f: Form, o: Outcome): (r: Form)
    ensures !Complete(f) ==> r == f.(error := Some(MissingFields))
    ensures Complete(f) ==> !r.uploading && (r.success <==> o.Ok?)
    ensures Complete(f) && o.Ok? ==> r.error == None && r.uploadProgress == f.uploadProgress
    ensures Complete(f) && o.Fail? ==>
              r.uploadProgress == 0 && r.error.Some?
              && (o.error.serverMessage != "" ==> r.error.value == o.error.serverMessage)
              && (o.error.serverMessage == "" ==> r.error.value == UnknownError)
    ensures r.title == f.title && r.description == f.description
    ensures r.videoFile == f.videoFile && r.thumbnail == f.thumbnail
  {
    if !Complete(f) then f.(error := Some(MissingFields))
    else match o
      case Ok(_) => f.(error := None, uploading := false, success := true)
      case Fail(e) =>
        var message := if e.serverMessage != "" then e.serverMessage else UnknownError;
        f.(error := Some(message), uploadProgress := 0, uploading := false, success := false)
  }

  /** Where the app goes two seconds after a successful upload. */
  function Destination(o: Outcome): (r: Option<string>)
    ensures r.Some? <==> o.Ok?
    ensures o.Ok? && Truthy(Get(Get(o.body, "data"), "_id")) ==>
              r == Some("/video/" + ToText(Get(Get(o.body, "data"), "_id")))
    ensures o.Ok? && !Truthy(Get(Get(o.body, "data"), "_id")) ==> r == Some("/channel/me")
  {
    match o
    case Fail(_) => None
    case Ok(body) =>
      var newVideoId := Get(Get(body, "data"), "_id");
      if Truthy(newVideoId) then Some("/video/" + ToText(newVideoId)) else Some("/channel/me")
  }

  /** `resetForm`: every field empty, no progress, no error, no success. */
  function Reset(f: Form): (r: Form)
    ensures r.title == "" && r.description == "" && r.videoFile.None? && r.thumbnail.None?
    ensures r.uploadProgress == 0 && r.error.None? && !r.success
    ensures r.uploading == f.uploading
  {
    Form("", "", None, None, f.uploading, 0, None, false)
  }

  /** A reset form cannot be uploaded: it is incomplete and the next
      attempt only reports the missing fields. */
  lemma ResetThenUploadIsRefused(f: Form, o: Outcome)
    ensures var r := Uploaded(Reset(f), o);
            !Complete(Reset(f)) && r.error == Some(MissingFields) && !r.success
  {
  }

  /** An upload whose response carries a string id goes to that video's
      page. */
  lemma NavigatesToNewVideo(fields: map<string, Json>, id: string)
    requires id != ""
    ensures Destination(Ok(Obj(map["data" := Obj(fields["_id" := Str(id)])]))) == Some("/video/" + id)
  {
  }

  /** A failed upload leaves the form as typed, so it can be sent again as
      it is. */
  lemma FailedUploadKeepsFields(f: Form, e: ApiError)
    requires Complete(f)
    ensures Complete(Uploaded(f, Fail(e)))
  {
  }

  class UploadForm {
    var title: string
    var description: string
    var videoFile: Option<File>
    var thumbnail: Option<File>
    var uploading: bool
    var uploadProgress: int
    var error: Option<string>
    var success: bool

    function State(): Form
      reads this
    {
      Form(title, description, videoFile, thumbnail, uploading, uploadProgress, error, success)
    }

    constructor ()
      ensures State() == Initial
    {
      title, description, videoFile, thumbnail := "", "", None, None;
      uploading, uploadProgress, error, success := false, 0, None, false;
    }

    /** Returns whether the publish call was made and where the app is
        sent afterwards. */
    method HandleUpload(o: Outcome) returns (called: bool, navigateTo: Option<string>)
      modifies this
      ensures called == Complete(old(State()))
      ensures State() == Uploaded(old(State()), o)
      ensures navigateTo == (if called then Destination(o) else None)
    {
      error := None;
      if title == "" || description == "" || videoFile.None? || thumbnail.None? {
        error := Some(MissingFields);
        return false, None;
      }
      called := true;
      uploading := true;
      success := false;
      if o.Ok? {
        success := true;
        var newVideoId := Get(Get(o.body, "data"), "_id");
        if Truthy(newVideoId) {
          navigateTo := Some("/video/" + ToText(newVideoId));
        } else {
          navigateTo := Some("/channel/me");
        }
      } else {
        error := Some(if o.error.serverMessage != "" then o.error.serverMessage else UnknownError);
        uploadProgress := 0;
        navigateTo := None;
      }
      uploading := false;
    }

    method ResetForm()
      modifies this
      ensures State() == Reset(old(State()))
    {
      title, description, videoFile, thumbnail := "", "", None, None;
      uploadProgress, error, success := 0, None, false;
    }
  }
}
