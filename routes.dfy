/**
 * The route table and its `PrivateRoute` guard. A pathname is taken as its
 * list of non-empty segments; literal segments match without regard to
 * ASCII case (the router's default), and a `:param` segment matches any
 * one segment.
 */
module Routes {
  import opened Js
  import AuthContext
  import Remote

  datatype Page =
    | LoginPage
    | RegisterPage
    | HomePage
    | ChannelPage(username: string)
    | VideoPlayPage(videoId: string)
    | ProfilePage
    | UploadPage
    | PlaylistsPage
    | TweetsPage
    | PlaylistDetailPage(playlistId: string)

  /** What a route renders: the loading screen, a page, or a `<Navigate>`. */
  datatype Screen = LoadingScreen | Show(page: Page) | Redirect(to: string, replace: bool)

  /** `PrivateRoute`: the loading screen while the session is loading, then
      the page for a signed-in user and a redirect to /login otherwise. */
  function PrivateRoute(loading: bool, isAuthenticated: bool, page: Page): (r: Screen)
    ensures loading ==> r == LoadingScreen
    ensures !loading ==> (r == Show(page) <==> isAuthenticated)
    ensures !loading ==> (r == Redirect("/login", false) <==> !isAuthenticated)
  {
    if loading then LoadingScreen
    else if isAuthenticated then Show(page)
    else Redirect("/login", false)
  }

  /** ASCII lower-casing of one character. */
  function LowerChar(c: char): (r: char)
    ensures 'A' <= c <= 'Z' ==> r as int == c as int + 32
    ensures !('A' <= c <= 'Z') ==> r == c
  {
    if 'A' <= c <= 'Z' then (c as int + 32) as char else c
  }

  /** A path segment matches a lower-case route literal when it spells the
      literal up to ASCII case. */
  predicate Is(segment: string, literal: string) {
    |segment| == |literal| && forall i :: 0 <= i < |segment| ==> LowerChar(segment[i]) == literal[i]
  }

  /** A literal with no upper-case letter matches itself. */
  lemma MatchesItself(literal: string)
    requires forall i :: 0 <= i < |literal| ==> !('A' <= literal[i] <= 'Z')
    ensures Is(literal, literal)
  {
  }

  /** A matched route: the page and whether it sits behind `PrivateRoute`. */
  datatype Match = Match(page: Page, gated: bool)

  /** The `<Route>` elements; None is the catch-all `*`. */
  function MatchRoute(segments: seq<string>): Option<Match> {
    if segments == [] then Some(Match(HomePage, true))
    else if |segments| == 1 then
      var s := segments[0];
      if Is(s, "login") then Some(Match(LoginPage, false))
      else if Is(s, "register") then Some(Match(RegisterPage, false))
      else if Is(s, "profile") then Some(Match(ProfilePage, true))
      else if Is(s, "upload") then Some(Match(UploadPage, true))
      else if Is(s, "playlist") then Some(Match(PlaylistsPage, true))
      else if Is(s, "tweet") then Some(Match(TweetsPage, true))
      else None
    else if |segments| == 2 then
      var s, param := segments[0], segments[1];
      if Is(s, "channel") then Some(Match(ChannelPage(param), false))
      else if Is(s, "video") then Some(Match(VideoPlayPage(param), false))
      else if Is(s, "playlist") then Some(Match(PlaylistDetailPage(param), true))
      else None
    else None
  }

  /** What the app shows at a path for a given session: a gated page goes
      through `PrivateRoute`, a public page renders as is, and any other
      path is replaced by "/". */
  function Render(segments: seq<string>, session: AuthContext.Session): (r: Screen)
    ensures MatchRoute(segments).None? ==> r == Redirect("/", true)
    ensures MatchRoute(segments).Some? && !MatchRoute(segments).value.gated ==>
              r == Show(MatchRoute(segments).value.page)
    ensures MatchRoute(segments).Some? && MatchRoute(segments).value.gated ==>
              r == PrivateRoute(session.loading, session.IsAuthenticated(), MatchRoute(segments).value.page)
  {
    match MatchRoute(segments)
    case None => Redirect("/", true)
    case Some(m) =>
      if m.gated then PrivateRoute(session.loading, session.IsAuthenticated(), m.page)
      else Show(m.page)
  }

  /** "/", "/profile", "/upload", "/playlist", "/tweet" and
      "/playlist/:playlistId" send a settled anonymous session to /login. */
  lemma GatedRoutes(session: AuthContext.Session, playlistId: string)
    requires !session.loading && !session.IsAuthenticated()
    ensures Render([], session) == Redirect("/login", false)
    ensures Render(["profile"], session) == Redirect("/login", false)
    ensures Render(["upload"], session) == Redirect("/login", false)
    ensures Render(["playlist"], session) == Redirect("/login", false)
    ensures Render(["tweet"], session) == Redirect("/login", false)
    ensures Render(["playlist", playlistId], session) == Redirect("/login", false)
  {
    MatchesItself("profile");
    MatchesItself("upload");
    MatchesItself("playlist");
    MatchesItself("tweet");
    assert !Is("playlist", "register") by {
      assert LowerChar("playlist"[0]) != "register"[0];
    }
    assert !Is("playlist", "channel") && !Is("playlist", "video");
    assert !Is("tweet", "login") by {
      assert LowerChar("tweet"[0]) != "login"[0];
    }
  }

  /** "/login", "/register", "/channel/:username" and "/video/:videoId"
      render for everyone, even while the session is loading. */
  lemma PublicRoutes(session: AuthContext.Session, username: string, videoId: string)
    ensures Render(["login"], session) == Show(LoginPage)
    ensures Render(["register"], session) == Show(RegisterPage)
    ensures Render(["channel", username], session) == Show(ChannelPage(username))
    ensures Render(["video", videoId], session) == Show(VideoPlayPage(videoId))
  {
    MatchesItself("login");
    MatchesItself("register");
    MatchesItself("channel");
    MatchesItself("video");
  }

  /** Literal segments match whatever their ASCII case: "/Login" and
      "/PLAYLIST/:playlistId" reach the same pages as "/login" and
      "/playlist/:playlistId". */
  lemma RoutesIgnoreCase(playlistId: string)
    ensures MatchRoute(["Login"]) == MatchRoute(["login"])
    ensures MatchRoute(["PLAYLIST", playlistId]) == MatchRoute(["playlist", playlistId])
  {
    MatchesItself("login");
    MatchesItself("playlist");
    assert Is("Login", "login");
    assert Is("PLAYLIST", "playlist");
    assert !Is("PLAYLIST", "channel");
  }

  /** Once the start-up rehydration has settled, no later sequence of
      session operations brings the loading screen back. */
  lemma NoLoadingScreenAfterRehydration(segments: seq<string>, o: Remote.Outcome, events: seq<AuthContext.Event>)
    ensures Render(segments, AuthContext.Run(AuthContext.Initial, [AuthContext.Rehydrate(o)] + events)) != LoadingScreen
  {
    AuthContext.SettledAfterRehydration(events, o);
  }
}
