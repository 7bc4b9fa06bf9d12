# YT-Clone client: a verified model of its state machines

This project models the logic in the event handlers of the YT-Clone React client, the web front end of a video-sharing site. The markup and the REST plumbing are not modelled. What is covered:

- **Session store** (`AuthContext`): the signed-in user and the start-up `loading` flag, changed by rehydrate, login, register and logout, and by any page that calls the exported `setUser` setter directly (the profile page does, with a refreshed user record).
- **Route table**: the `PrivateRoute` guard.
- **Like and subscribe buttons**: auth and in-flight guards, and how each reconciles its flag and counter after the toggle call.
- **Page-local lists**: comments, playlists, tweets and channel videos, each held as a list of backend records keyed by `_id`.
- **Validation chains**: save-to-playlist, the all-or-nothing video fan-out of the playlist page, and the upload form.
- **`formatDuration`** from the home feed.

Every remote call is settled by an outcome the caller supplies (`Remote.Outcome`):

- `Ok(body)` carries the response body.
- `Fail(ApiError(serverMessage, message))` carries the server message and the error message.

Every dialog is a parameter. `confirm` is a `bool`, and `prompt` is an `Option<string>` where `None` means cancelled. Each handler is then a deterministic transition.

For each component, the transitions are first given as functions on a value holding its state, with contracts saying what they do. A class then holds the component's state as fields, and its methods update those fields. Each method is proved to take the state from `old(State())` to the function's result.

JavaScript values are modelled by `Js.Json`, which also defines truthiness, `?.`, strict `.`, `||`, `??` and template-literal text. A strict `.` on null or undefined throws a TypeError. The model follows that failure path for the response bodies and records the handlers read. Reads of `_id` on list elements inside `filter` and `map` are the exception (see "## Left out").

`logout` clears the user only when the call succeeds; a failed call keeps the session (`AuthContext.LoggedOut`, `AuthContext.FailedLogoutKeepsIdentity`).

## Model

| member | source | states |
|---|---|---|
| JsText.TrimEmptyIffBlank | src/components/Comments/Comments.jsx:39 | `s.trim()` is empty exactly when every character of `s` is ECMAScript white space or a line terminator |
| JsText.ParseIntText | src/pages/VideoPlay/VideoPlay.jsx:87 | `parseInt` reads back the decimal text of every integer as that integer |
| Remote.Reason | src/pages/VideoPlay/VideoPlay.jsx:50 | the text shown for an error is the server's message when there is one, else the error's own message |
| Resources.FetchRequest | src/pages/Playlist/Playlist.jsx:17 | a list fetch asks for the user's `_id` and is skipped when it is falsy; the tweet page's guard at src/pages/Tweet/Tweet.jsx:14 is the same |
| Resources.AsList | src/components/Channel/ChannelVideos.jsx:21-25 | an array payload gives its elements, anything else gives the empty list |
| Resources.ListToMap | src/pages/VideoPlay/VideoPlay.jsx:76-83 | `x \|\| []` checked for length 0 and then mapped: an array's elements, empty for falsy values and objects whose `length` is 0, a TypeError (None) for every other value |
| Resources.Prepend | src/components/Comments/Comments.jsx:44 | the new record comes first and the old list follows unchanged |
| Resources.RemoveById | src/components/Comments/Comments.jsx:55 | a delete never lengthens the list |
| Resources.RemoveByIdMembers | src/components/Comments/Comments.jsx:55 | a record survives exactly when its `_id` differs from the deleted id |
| Resources.RemoveByIdAbsent | src/components/Comments/Comments.jsx:55 | deleting an id that no record carries leaves the list unchanged |
| Resources.ReplaceById | src/components/Comments/Comments.jsx:68-70 | the length is kept; records with the id become the new record and all others are untouched at their positions |
| Resources.RemoveByIdKeepsOrder | src/components/Comments/Comments.jsx:55 | filtering distributes over concatenation, so the survivors keep their relative order |
| Resources.RemoveByIdIdempotent | src/pages/Playlist/Playlist.jsx:54 | deleting the same id twice equals deleting it once |
| Resources.PrependThenRemove | src/components/Comments/Comments.jsx:44 | deleting a just-prepended record whose id is new restores the previous list |
| Resources.RemoveAfterReplace | src/components/Comments/Comments.jsx:68-70 | an edit whose returned record keeps its id does not change what a later delete leaves |
| Engagement.LikeEndpoint | src/components/EngagementButton/LikeButton.jsx:32-47 | `video`, `comment` and `tweet` map to their own toggle endpoint with the entity id; any other type has no endpoint |
| Engagement.LikeSettled | src/components/EngagementButton/LikeButton.jsx:53-54 | a successful like flips the flag and moves the counter by exactly one: down if the flag was set at the click, up otherwise |
| Engagement.LikeTwiceRestores | src/components/EngagementButton/LikeButton.jsx:53-54 | two successful toggles with nothing in between restore the shown flag and count |
| Engagement.LikeCountCanGoNegative | src/components/EngagementButton/LikeButton.jsx:54 | the counter is not clamped at zero |
| Engagement.LikeStaleClickDrifts | src/components/EngagementButton/LikeButton.jsx:20-54 | a prop sync during a pending like is not reconciled: the count moves by the flag seen at the click |
| Engagement.SubscribeStatus | src/components/EngagementButton/SubscribeButton.jsx:35 | the server's `isSubscribed` is used when present (not null or undefined), otherwise the negated flag from the click |
| Engagement.SubscribeSettled | src/components/EngagementButton/SubscribeButton.jsx:37-38 | the flag becomes the new status and the count moves by exactly one, up exactly when the new status is set |
| Engagement.SubscribeTwiceRestores | src/components/EngagementButton/SubscribeButton.jsx:35-38 | when the server omits the status, two successful clicks restore flag and count |
| Engagement.SubscribeRepeatedStatusDrifts | src/components/EngagementButton/SubscribeButton.jsx:37-38 | a server that confirms an existing subscription still adds a subscriber |
| Engagement.LikeButton.constructor | src/components/EngagementButton/LikeButton.jsx:15-17 | the button starts with the props' flag and count and idle |
| Engagement.LikeButton.SyncProps | src/components/EngagementButton/LikeButton.jsx:20-23 | new props overwrite both the flag and the count |
| Engagement.LikeButton.HandleToggleLike | src/components/EngagementButton/LikeButton.jsx:26-47 | anonymous users and clicks while busy make no call and change nothing; otherwise the type's endpoint is called and the button is busy exactly when a call was made |
| Engagement.LikeButton.Settle | src/components/EngagementButton/LikeButton.jsx:49-62 | success applies `LikeSettled`, failure leaves flag and count, and the button is idle afterwards |
| Engagement.SubscribeButton.constructor | src/components/EngagementButton/SubscribeButton.jsx:14-16 | the button starts with the props' flag and count and idle |
| Engagement.SubscribeButton.SyncProps | src/components/EngagementButton/SubscribeButton.jsx:19-22 | new props overwrite both the flag and the count |
| Engagement.SubscribeButton.HandleToggleSubscription | src/components/EngagementButton/SubscribeButton.jsx:25-29 | no call and no change for anonymous users, a missing channel name or a pending call; otherwise one call for the channel and the button is busy |
| Engagement.SubscribeButton.Settle | src/components/EngagementButton/SubscribeButton.jsx:31-46 | success applies `SubscribeSettled` with the server-preferred status, failure leaves flag and count, and the button is idle afterwards |
| Engagement.LikeTwiceFromFive | src/components/EngagementButton/LikeButton.jsx:53-54 | (false, 5) shows (true, 6) after one successful like and (false, 5) after two |
| Engagement.RapidClicksIssueOneCall | src/components/EngagementButton/LikeButton.jsx:27-29 | a second click before the first call settles makes no call, and an anonymous click makes none |
| AuthContext.Rehydrated | src/context/AuthContext.jsx:14-23 | success stores the raw body as the user, failure stores null, and loading is false afterwards |
| AuthContext.LoginIdentity | src/context/AuthContext.jsx:36 | the identity is `body.user` when truthy, else the body; reading `.user` of a nullish body fails |
| AuthContext.LoggedIn | src/context/AuthContext.jsx:30-44 | login completes, navigating to "/", exactly when the call succeeds with a readable body; otherwise it re-throws and the user is untouched; loading ends false |
| AuthContext.Registered | src/context/AuthContext.jsx:47-62 | like login but the user is exactly `body.user`, with no fallback |
| AuthContext.LoggedOut | src/context/AuthContext.jsx:65-73 | only a successful call clears the user and navigates to /login; a failure changes nothing; loading is never touched |
| AuthContext.SettledAfterRehydration | src/context/AuthContext.jsx:14-62 | after the initial rehydration, no sequence of operations sets loading back to true |
| AuthContext.SettledAfter | src/context/AuthContext.jsx:14-85 | from any settled session, no sequence of rehydrate, login, register, logout and setter calls sets loading to true |
| AuthContext.UserSet | src/context/AuthContext.jsx:85 | the exported setter replaces the user with the given value as it is, leaves loading alone, and authenticates exactly when the value is truthy |
| AuthContext.OnlySuccessAuthenticates | src/context/AuthContext.jsx:14-85 | an anonymous session stays anonymous through any run of failed calls, logouts and setter calls with a falsy value |
| AuthContext.LogoutEndsAnonymous | src/context/AuthContext.jsx:65-69 | whatever came before, a successful logout ends anonymous |
| AuthContext.FailedLogoutKeepsIdentity | src/context/AuthContext.jsx:70-72 | a failed logout leaves the session exactly as it was |
| AuthContext.LoginWithObjectAuthenticates | src/context/AuthContext.jsx:36 | a login answered with any object authenticates |
| AuthContext.RegisterWithoutUserIsAnonymous | src/context/AuthContext.jsx:54-55 | a register reply without `user` navigates to "/" yet leaves the session anonymous |
| AuthContext.AuthProvider.IsAuthenticated | src/context/AuthContext.jsx:80 | authenticated exactly when the user is truthy |
| AuthContext.AuthProvider.constructor | src/context/AuthContext.jsx:10-11 | the store starts with no user and loading |
| AuthContext.AuthProvider.FetchUser | src/context/AuthContext.jsx:14-23 | the fields become `Rehydrated` of the old state |
| AuthContext.AuthProvider.Login | src/context/AuthContext.jsx:30-44 | the fields and the completion are those of `LoggedIn` |
| AuthContext.AuthProvider.Register | src/context/AuthContext.jsx:47-62 | the fields and the completion are those of `Registered` |
| AuthContext.AuthProvider.SetUser | src/context/AuthContext.jsx:85 | the fields become `UserSet` of the old state |
| AuthContext.AuthProvider.Logout | src/context/AuthContext.jsx:65-73 | the fields and the completion are those of `LoggedOut` |
| Home.Truncate | src/pages/Home/Home.jsx:13 | the seconds passed to `setSeconds` are truncated toward zero |
| Home.FormatDuration | src/pages/Home/Home.jsx:9-19 | non-numbers and NaN give "0:00", an infinity throws (None), and every finite number in range gives a text |
| Home.ShortDurationRoundTrip | src/pages/Home/Home.jsx:18 | below one hour the text is "MM:SS" with MM the whole minutes and SS the seconds left over, and reads back as the number of seconds |
| Home.LongDurationRoundTrip | src/pages/Home/Home.jsx:15-16 | from one hour on the text is "HH:MM:SS" with the hour of the day, the minute of the hour and the second of the minute, and reads back as the seconds modulo one day |
| Home.LongDurationWrapsAtOneDay | src/pages/Home/Home.jsx:12-16 | from one hour on, a day more prints the same text |
| Home.FormatDurationLength | src/pages/Home/Home.jsx:10-18 | numbers give 5 characters below 3600 and 8 from 3600 on; non-numbers give 4 |
| Home.FormatDurationExamples | src/pages/Home/Home.jsx:12-18 | 0 → "00:00", 125.9 → "02:05" (truncated), -5 → "59:55" (the time of day before the epoch) |
| Home.FormatLongDurationExamples | src/pages/Home/Home.jsx:12-16 | 3661 → "01:01:01", 90000 → "01:00:00" (a day wraps round) |
| Routes.PrivateRoute | src/routes/index.jsx:19-26 | loading shows the loading screen whatever the session; otherwise the page exactly when authenticated, else a redirect to /login |
| Routes.Render | src/routes/index.jsx:31-65 | unknown paths are replaced by "/", public routes render their page, gated routes go through `PrivateRoute` |
| Routes.GatedRoutes | src/routes/index.jsx:39-64 | /, /profile, /upload, /playlist, /tweet and /playlist/:playlistId redirect a settled anonymous session to /login |
| Routes.PublicRoutes | src/routes/index.jsx:33-50 | /login, /register, /channel/:username and /video/:videoId render for any session, loading or not |
| Routes.RoutesIgnoreCase | src/routes/index.jsx:31-65 | literal path segments match regardless of ASCII case |
| Routes.NoLoadingScreenAfterRehydration | src/routes/index.jsx:22 | once the initial rehydration has settled, no path shows the loading screen again |
| Comments.FetchedComments | src/components/Comments/Comments.jsx:22 | the list is `data.comments` when it is an array and empty when it is absent or falsy |
| Comments.Fetched | src/components/Comments/Comments.jsx:16-34 | without a video id nothing happens; success replaces the list and keeps any old error; failure keeps the list and sets "Could not load comments."; loading ends false |
| Comments.AddRequest | src/components/Comments/Comments.jsx:39 | no call for text that trims to empty; otherwise the text as typed |
| Comments.Added | src/components/Comments/Comments.jsx:37-49 | on success the returned comment is prepended and the input cleared; otherwise nothing changes |
| Comments.Deleted | src/components/Comments/Comments.jsx:52-59 | success removes every comment with the id and keeps the rest in order; failure changes nothing |
| Comments.EditStarted | src/components/Comments/Comments.jsx:158-161 | edit mode takes the comment's id and content; every other field, list, input, loading and error, is unchanged |
| Comments.EditCancelled | src/components/Comments/Comments.jsx:140-143 | edit mode ends with empty text; every other field is unchanged |
| Comments.CancelUndoesStart | src/components/Comments/Comments.jsx:140-161 | starting an edit and cancelling it gives back the panel as it was with no edit open |
| Comments.EditRequest | src/components/Comments/Comments.jsx:63 | no call for blank or non-string edit text; otherwise the text |
| Comments.Edited | src/components/Comments/Comments.jsx:62-76 | on success comments with the id become the returned record, the length is kept and edit mode ends; otherwise nothing changes |
| Comments.BlankCommentChangesNothing | src/components/Comments/Comments.jsx:39 | whitespace-only text makes no call and changes nothing, whatever the server would reply |
| Comments.VisibleCommentIsSent | src/components/Comments/Comments.jsx:39-43 | text with a visible character is sent exactly as typed |
| Comments.AddThenDelete | src/components/Comments/Comments.jsx:44-55 | deleting a comment just added with a new id restores the earlier list |
| Comments.EditThenDelete | src/components/Comments/Comments.jsx:68-70 | a confirmed edit does not change what a later delete of that comment leaves |
| Comments.CommentSection.constructor | src/components/Comments/Comments.jsx:8-13 | empty list, empty input, no edit, loading, no error |
| Comments.CommentSection.FetchComments | src/components/Comments/Comments.jsx:16-30 | the fields become `Fetched` of the old state |
| Comments.CommentSection.HandleAddComment | src/components/Comments/Comments.jsx:37-49 | the call made is `AddRequest` and the fields become `Added` |
| Comments.CommentSection.HandleDelete | src/components/Comments/Comments.jsx:52-59 | the fields become `Deleted` |
| Comments.CommentSection.StartEdit | src/components/Comments/Comments.jsx:158-161 | the fields become `EditStarted` |
| Comments.CommentSection.CancelEdit | src/components/Comments/Comments.jsx:140-143 | the fields become `EditCancelled` |
| Comments.CommentSection.HandleEdit | src/components/Comments/Comments.jsx:62-76 | the call made is `EditRequest` and the fields become `Edited` |
| VideoPlay.ActualUser | src/pages/VideoPlay/VideoPlay.jsx:28 | the user is `currentUser.data` when truthy, else `currentUser`, else null, and is truthy exactly when `currentUser` is |
| VideoPlay.WrappedUserSameId | src/pages/VideoPlay/VideoPlay.jsx:28-29 | a user record and the same record in a `data` envelope give the same id |
| VideoPlay.Fetched | src/pages/VideoPlay/VideoPlay.jsx:31-54 | an empty id gives "Invalid video ID.", a rejected call its reason, a missing first record "No video data found."; only a truthy first record becomes the video; loading ends false |
| VideoPlay.FetchShowsVideoOrError | src/pages/VideoPlay/VideoPlay.jsx:31-54 | from the first render a fetch shows either a video and no error or an error and no video |
| VideoPlay.Selected | src/pages/VideoPlay/VideoPlay.jsx:87-88 | a selection names an entry of the list or nothing |
| VideoPlay.Includes | src/pages/VideoPlay/VideoPlay.jsx:94 | `videos.includes` is membership for arrays, substring search for strings, and a TypeError otherwise |
| VideoPlay.SaveToPlaylist | src/pages/VideoPlay/VideoPlay.jsx:61-108 | at most two calls; none exactly when the auth or user-id guard fails; the first is the playlist fetch for the user id; a second is an add of this video after the prompt; a save is reported only after a successful add |
| VideoPlay.AddIffSelectionValid | src/pages/VideoPlay/VideoPlay.jsx:78-100 | the add call is made exactly when the list is non-empty, the answer names an entry from 1 to n, and the video is not already in it; it adds to that playlist |
| VideoPlay.SelectionIsOneBased | src/pages/VideoPlay/VideoPlay.jsx:87-88 | typing k picks the k-th playlist for 1 ≤ k ≤ n |
| VideoPlay.SelectionOutOfRange | src/pages/VideoPlay/VideoPlay.jsx:87-92 | typing a number outside 1..n picks nothing |
| VideoPlay.NoDuplicateAdd | src/pages/VideoPlay/VideoPlay.jsx:94-98 | a video already in the chosen playlist is reported and not added again |
| VideoPlay.VideoPage.constructor | src/pages/VideoPlay/VideoPlay.jsx:22-25 | no video, loading, no error, not saving |
| VideoPlay.VideoPage.FetchVideoDetails | src/pages/VideoPlay/VideoPlay.jsx:31-54 | the fields become `Fetched`; the session is rehydrated exactly when a video was found for a signed-in user |
| VideoPlay.VideoPage.HandleSaveToPlaylist | src/pages/VideoPlay/VideoPlay.jsx:61-108 | the run is `SaveToPlaylist`; saving is off at the end, and unchanged when the guards stop the handler first |
| VideoPlay.SaveChain | src/pages/VideoPlay/VideoPlay.jsx:74-107 | the steps after the guards give the same run as `SaveToPlaylist` for every session with that user id |
| PlaylistDetail.FanOut | src/components/PlaylistDetail/PlaylistDetail.jsx:43-46 | all bodies in id order exactly when every call succeeds; otherwise the error of the first failing id |
| PlaylistDetail.ExtractVideos | src/components/PlaylistDetail/PlaylistDetail.jsx:49-51 | the kept records are exactly the defined first records, never more than the responses |
| PlaylistDetail.ExtractKeepsOrder | src/components/PlaylistDetail/PlaylistDetail.jsx:49-51 | extraction distributes over concatenation, so records keep response order |
| PlaylistDetail.ExtractAllPresent | src/components/PlaylistDetail/PlaylistDetail.jsx:49-51 | when every response carries a record, nothing is dropped and the i-th video is the i-th response's record |
| PlaylistDetail.VideoRequests | src/components/PlaylistDetail/PlaylistDetail.jsx:34-43 | video calls are made only for a loaded playlist whose `videos` is a non-empty array, one per id |
| PlaylistDetail.Fetched | src/components/PlaylistDetail/PlaylistDetail.jsx:15-62 | no id changes nothing; a rejected playlist call and any failed video call clear the videos and set one error; a missing playlist sets "Playlist not found."; otherwise the videos are the extracted records |
| PlaylistDetail.EmptyPlaylistNoCalls | src/components/PlaylistDetail/PlaylistDetail.jsx:34-40 | an empty id list makes no video call and shows no videos and no error |
| PlaylistDetail.NoPartialResults | src/components/PlaylistDetail/PlaylistDetail.jsx:43-58 | one failed video call leaves no videos and the failure's error |
| PlaylistDetail.AllVideosInIdOrder | src/components/PlaylistDetail/PlaylistDetail.jsx:43-53 | all calls succeeding with records shows one video per id, in id order |
| PlaylistDetail.DetailPage.constructor | src/components/PlaylistDetail/PlaylistDetail.jsx:9-12 | no playlist, no videos, loading, no error |
| PlaylistDetail.DetailPage.FetchPlaylistDetails | src/components/PlaylistDetail/PlaylistDetail.jsx:15-62 | the ids requested are `VideoRequests` and the fields become `Fetched` |
| Playlist.Fetched | src/pages/Playlist/Playlist.jsx:16-28 | no user id changes nothing; the success flag stores the payload, no flag empties the list, a rejected call keeps it |
| Playlist.SubmitRequest | src/pages/Playlist/Playlist.jsx:89 | the form updates the playlist being edited when there is one and creates from the form otherwise |
| Playlist.Created | src/pages/Playlist/Playlist.jsx:35-47 | the success flag clears the form; otherwise it is kept |
| Playlist.Updated | src/pages/Playlist/Playlist.jsx:62-77 | the success flag ends editing; otherwise it is kept |
| Playlist.Submitted | src/pages/Playlist/Playlist.jsx:89 | submit is update while editing and create otherwise |
| Playlist.Deleted | src/pages/Playlist/Playlist.jsx:50-59 | nothing without confirmation; success removes every playlist with the id |
| Playlist.UpdateThenCreate | src/pages/Playlist/Playlist.jsx:69-71 | after a successful update the next submit creates |
| Playlist.FailedSubmitIsRepeatable | src/pages/Playlist/Playlist.jsx:38-46 | a failed or unflagged submit changes nothing, so the same call can be sent again |
| Playlist.DeleteTwice | src/pages/Playlist/Playlist.jsx:54 | deleting the same playlist twice equals deleting it once |
| Playlist.PlaylistPage.constructor | src/pages/Playlist/Playlist.jsx:10-13 | no playlists, an empty form, not loading, nothing being edited |
| Playlist.PlaylistPage.FetchPlaylists | src/pages/Playlist/Playlist.jsx:16-28 | the call is `FetchRequest` and the fields become `Fetched` |
| Playlist.PlaylistPage.HandleSubmit | src/pages/Playlist/Playlist.jsx:35-77 | the call is `SubmitRequest`, a refetch follows exactly on the success flag, and the fields become `Submitted` |
| Playlist.PlaylistPage.HandleDelete | src/pages/Playlist/Playlist.jsx:50-59 | the fields become `Deleted` |
| Playlist.PlaylistPage.StartEdit | src/pages/Playlist/Playlist.jsx:137 | the clicked playlist becomes the one being edited |
| Playlist.PlaylistPage.CancelEdit | src/pages/Playlist/Playlist.jsx:115 | editing ends and the next submit creates |
| Tweet.Fetched | src/pages/Tweet/Tweet.jsx:13-25 | no user id changes nothing; the success flag stores the payload, no flag empties the list, a rejected call keeps it |
| Tweet.SubmitRequest | src/pages/Tweet/Tweet.jsx:34-39 | while editing, the edited tweet is updated with the box's text; otherwise a tweet is created from it |
| Tweet.Submitted | src/pages/Tweet/Tweet.jsx:31-45 | success empties the box and ends editing; failure keeps both |
| Tweet.Deleted | src/pages/Tweet/Tweet.jsx:47-55 | nothing without confirmation; success removes every tweet with the id |
| Tweet.EditStarted | src/pages/Tweet/Tweet.jsx:57-60 | the tweet's content goes into the box and the tweet is being edited; a nullish tweet changes nothing |
| Tweet.EditCancelled | src/pages/Tweet/Tweet.jsx:75 | editing ends; the box keeps its text and every other field is unchanged |
| Tweet.EditThenSubmitUpdates | src/pages/Tweet/Tweet.jsx:31-60 | editing a tweet and submitting updates that tweet with its content |
| Tweet.CancelThenSubmitCreates | src/pages/Tweet/Tweet.jsx:75 | after a cancel the next submit creates a tweet from the text left in the box |
| Tweet.SubmitThenCreates | src/pages/Tweet/Tweet.jsx:36-40 | after a successful submit the next one creates from an empty box |
| Tweet.TweetPage.constructor | src/pages/Tweet/Tweet.jsx:8-11 | no tweets, an empty box, nothing being edited, not loading |
| Tweet.TweetPage.FetchTweets | src/pages/Tweet/Tweet.jsx:13-25 | the call is `FetchRequest` and the fields become `Fetched` |
| Tweet.TweetPage.HandleSubmit | src/pages/Tweet/Tweet.jsx:31-45 | the call is `SubmitRequest`, a refetch follows exactly on success, and the fields become `Submitted` |
| Tweet.TweetPage.HandleDelete | src/pages/Tweet/Tweet.jsx:47-55 | the fields become `Deleted` |
| Tweet.TweetPage.HandleEdit | src/pages/Tweet/Tweet.jsx:57-60 | the fields become `EditStarted` |
| Tweet.TweetPage.CancelEdit | src/pages/Tweet/Tweet.jsx:75 | the fields become `EditCancelled` |
| ChannelVideos.ChannelList | src/components/Channel/ChannelVideos.jsx:21-25 | the list is `data` when it is an array, and empty otherwise |
| ChannelVideos.Fetched | src/components/Channel/ChannelVideos.jsx:15-32 | success shows the response's array or nothing; failure shows nothing |
| ChannelVideos.EditClicked | src/components/Channel/ChannelVideos.jsx:38-45 | the video is selected, its title and description are copied and edit mode opens; the list, loading and saving are unchanged |
| ChannelVideos.SaveRequest | src/components/Channel/ChannelVideos.jsx:49-52 | no call without a selected video; otherwise an update of that video with the edited fields |
| ChannelVideos.Saved | src/components/Channel/ChannelVideos.jsx:48-65 | no selection changes nothing; a successful update closes the form and a successful refetch replaces the list; saving ends off; the selection, the edited fields and loading are kept |
| ChannelVideos.PublishToggled | src/components/Channel/ChannelVideos.jsx:68-77 | the list changes only to the refetched payload after a successful toggle and refetch |
| ChannelVideos.Deleted | src/components/Channel/ChannelVideos.jsx:80-90 | nothing without confirmation; success removes every video with the id |
| ChannelVideos.TogglePublishOnlyRefetches | src/components/Channel/ChannelVideos.jsx:68-77 | after a toggle the list is either the old one or exactly the server's array: no flag is flipped locally |
| ChannelVideos.EditThenSaveSendsVideo | src/components/Channel/ChannelVideos.jsx:38-52 | editing a video and saving sends that video's id, title and description |
| ChannelVideos.DeleteRemovesVideo | src/components/Channel/ChannelVideos.jsx:85 | a deleted video is gone and the rest keep their order |
| ChannelVideos.ChannelVideosPanel.constructor | src/components/Channel/ChannelVideos.jsx:6-11 | no videos, nothing selected, form closed, not saving |
| ChannelVideos.ChannelVideosPanel.FetchChannelVideos | src/components/Channel/ChannelVideos.jsx:15-32 | the fields become `Fetched` |
| ChannelVideos.ChannelVideosPanel.HandleEditClick | src/components/Channel/ChannelVideos.jsx:38-45 | the fields become `EditClicked` |
| ChannelVideos.ChannelVideosPanel.HandleSaveChanges | src/components/Channel/ChannelVideos.jsx:48-65 | the call is `SaveRequest` and the fields become `Saved` |
| ChannelVideos.ChannelVideosPanel.HandleTogglePublish | src/components/Channel/ChannelVideos.jsx:68-77 | the fields become `PublishToggled` |
| ChannelVideos.ChannelVideosPanel.HandleDelete | src/components/Channel/ChannelVideos.jsx:80-90 | the fields become `Deleted` |
| VideoUpload.Uploaded | src/components/VideoUpload/VideoUpload.jsx:30-86 | an incomplete form only shows the required-fields error; otherwise success is set exactly when the call succeeds, a failure shows the server message or the fixed one and resets progress, and uploading ends off; the fields are kept |
| VideoUpload.Destination | src/components/VideoUpload/VideoUpload.jsx:70-75 | after a success the app goes to /video/<id> when the response has a truthy id, else /channel/me; nowhere after a failure |
| VideoUpload.Reset | src/components/VideoUpload/VideoUpload.jsx:20-28 | every field empty, progress 0, no error, no success |
| VideoUpload.ResetThenUploadIsRefused | src/components/VideoUpload/VideoUpload.jsx:20-37 | a reset form is incomplete, so uploading it only reports the missing fields |
| VideoUpload.NavigatesToNewVideo | src/components/VideoUpload/VideoUpload.jsx:70-72 | a response carrying a string id leads to that video's page |
| VideoUpload.FailedUploadKeepsFields | src/components/VideoUpload/VideoUpload.jsx:77-82 | a failed upload keeps the form complete, so it can be sent again |
| VideoUpload.UploadForm.constructor | src/components/VideoUpload/VideoUpload.jsx:9-17 | an empty, idle form |
| VideoUpload.UploadForm.HandleUpload | src/components/VideoUpload/VideoUpload.jsx:30-86 | the call is made exactly for a complete form, the fields become `Uploaded`, and navigation is `Destination` after a call |
| VideoUpload.UploadForm.ResetForm | src/components/VideoUpload/VideoUpload.jsx:20-28 | the fields become `Reset` |

## Left out

- src/services/apiService.js and src/services/axiosInstance.js are not part of this model. Every call they make is an outcome the caller supplies, and their logging changes no state.
- Markup, styling, alert and console texts, and the timing of effects are not modelled. Effects are method calls. Navigation and the two-second `setTimeout` before it are returned as values.
- The Channel, Profile, Login and Register pages, the Navbar and the Sidebar are not part of this model.
- `formatViews` and the rest of the home feed are left out, because they use floating-point arithmetic. Only `formatDuration` is modelled.
- Home.FormatDuration: assumes a time zone whose offset is a whole number of minutes and does not change. `setSeconds` works in local time.
- Home.FormatDuration: requires the truncated value to stay within four-digit ISO years. Outside that range the ISO string has an expanded year and the substring positions shift.
- VideoUpload.UploadForm.HandleUpload: the progress callback (`Math.round` of a float ratio) is not modelled. Progress is only ever reset to 0.
- PlaylistDetail.FanOut: the awaited calls run concurrently. The model takes them one after another, and reports the first failure in id order rather than the first in time. There is no cancellation or timeout to capture.
- Comments.FetchedComments: a truthy non-array value is stored raw by the source and makes rendering throw. The model stores the empty list.
- Playlist.Fetched: a flagged response whose payload is not an array is stored raw by the source. The model stores the empty list.
- Tweet.Fetched: a flagged response whose payload is not an array is stored raw by the source. The model stores the empty list.
- ChannelVideos.Saved: the refetched `data \|\| []` is stored raw when it is a truthy non-array. The model stores the empty list.
- ChannelVideos.PublishToggled: the refetched `data \|\| []` is stored raw when it is a truthy non-array. The model stores the empty list.
- Comments.Added: for a success whose body is null or undefined, the source's state updater throws during rendering. The model leaves the panel unchanged.
- Comments.Edited: for a success whose body is null or undefined, the source's state updater throws during rendering. The model leaves the panel unchanged.
- Engagement.SubscribeButton.Settle: stores the truthiness of the server's status. The source stores the raw value, which is only ever read for truthiness.
- Remote.TypeErrorText: the engine's text for a TypeError is a fixed constant.
- JsText.ParseInt: yields exact integers. The source's `parseInt` rounds to a double beyond 2^53.
- `Js.Json` numbers are integers. No fraction reaches the modelled handlers except the duration, which `Home.Seconds` models as a real.
- Ids are compared by value. The source's `===` compares objects by reference.
- AuthContext.AuthProvider.Login: the transient `loading = true` while the call is pending is not a separate state. Only the settled state is specified.
- AuthContext.AuthProvider.Register: the transient `loading = true` while the call is pending is not a separate state. Only the settled state is specified.
- Routes.Render: paths are given as segments. URL parsing (query, hash, percent-encoding, empty segments) and non-ASCII case folding are not modelled.
- VideoPlay.SaveToPlaylist: the prompt's text is not modelled, except that building it reads `.name` of every entry.
- The browser's `required` checks on form inputs are not modelled.
- Playlist.Deleted: the source filters the list captured when the delete was clicked, so a refetch that settles while the delete is pending is overwritten. The model filters the list current when the call settles.
- Tweet.Deleted: the source filters the list captured when the delete was clicked, so a refetch that settles while the delete is pending is overwritten. The model filters the list current when the call settles.
- Resources.RemoveById, Resources.ReplaceById and Comments.EditStarted read `_id` (and `content`) of a list element with `?.`. The source uses a strict `.` there, which throws on a null or undefined element. Lists from the backend hold records only.
- PlaylistDetail.FanOut: the answer is a function of the id. Two requests for the same id in one playlist therefore get the same outcome, while the source makes two independent calls.
- The profile page's own state, and when it calls `setUser`, are not modelled. Only the setter's effect on the session is (`AuthContext.UserSet`).
