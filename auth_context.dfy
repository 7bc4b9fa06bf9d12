/**
 * The session store (`AuthProvider`): who is signed in (`user`, the raw
 * identity record or null) and whether the start-up rehydration is still
 * running (`loading`). Its four operations change it, and so does any
 * page that calls the exported `setUser` setter directly. The transitions
 * are first given as functions on a `Session` value, then carried out by
 * the `AuthProvider` class whose methods update the two fields.
 */
module AuthContext {
  import opened Js
  import opened Remote

  datatype Session = Session(user: Json, loading: bool) {
    /** `isAuthenticated: !!user` */
    predicate IsAuthenticated() {
      Truthy(user)
    }
  }

  /** `useState(null)` and `useState(true)` */
  const Initial := Session(Null, true)

  /** How an operation ends for its caller: normally, possibly asking the
      router to navigate, or by re-throwing an error to the calling form. */
  datatype Completion = Completed(navigateTo: Option<string>) | Threw(error: ApiError)

  datatype Step = Step(session: Session, completion: Completion)

  /** `fetchUser`: the response body becomes the user on success, null on
      failure; loading ends false either way. */
  function Rehydrated(s: Session, o: Outcome): (r: Session)
    ensures !r.loading
    ensures o.Ok? ==> r.user == o.body
    ensures o.Fail? ==> r.user == Null && !r.IsAuthenticated()
  {
    match o
    case Ok(body) => Session(body, false)
    case Fail(_) => Session(Null, false)
  }

  /** `res.data.user || res.data`: None when the body is null or undefined,
      where reading `.user` throws. */
  function LoginIdentity(body: Json): (r: Option<Json>)
    ensures r.None? <==> Nullish(body)
    ensures r.Some? && Truthy(Get(body, "user")) ==> r.value == Get(body, "user")
    ensures r.Some? && !Truthy(Get(body, "user")) ==> r.value == body
  {
    match Member(body, "user")
    case None => None
    case Some(u) => Some(Or(u, body))
  }

  /** `login`: on success the identity is stored and the app goes to "/";
      on failure (a rejected call, or a body whose `.user` cannot be read)
      the error is re-thrown and the user is left as it was. Loading is
      false afterwards whatever happened. */
  function LoggedIn(s: Session, o: Outcome): (r: Step)
    ensures !r.session.loading
    ensures r.completion.Completed? <==> o.Ok? && !Nullish(o.body)
    ensures r.completion.Completed? ==>
              r.completion.navigateTo == Some("/") && r.session.user == LoginIdentity(o.body).value
    ensures r.completion.Threw? ==> r.session.user == s.user
    ensures o.Fail? ==> r.completion == Threw(o.error)
  {
    match o
    case Fail(e) => Step(Session(s.user, false), Threw(e))
    case Ok(body) =>
      match LoginIdentity(body)
      case None => Step(Session(s.user, false), Threw(LocalError(TypeErrorText)))
      case Some(u) => Step(Session(u, false), Completed(Some("/")))
  }

  /** `register`: like `login`, but the user becomes `res.data.user`
      exactly, with no fallback to the body. */
  function Registered(s: Session, o: Outcome): (r: Step)
    ensures !r.session.loading
    ensures r.completion.Completed? <==> o.Ok? && !Nullish(o.body)
    ensures r.completion.Completed? ==>
              r.completion.navigateTo == Some("/") && r.session.user == Get(o.body, "user")
    ensures r.completion.Threw? ==> r.session.user == s.user
    ensures o.Fail? ==> r.completion == Threw(o.error)
  {
    match o
    case Fail(e) => Step(Session(s.user, false), Threw(e))
    case Ok(body) =>
      match Member(body, "user")
      case None => Step(Session(s.user, false), Threw(LocalError(TypeErrorText)))
      case Some(u) => Step(Session(u, false), Completed(Some("/")))
  }

  /** `logout`: only a successful call clears the user and sends the app to
      "/login"; a failed one is swallowed and changes nothing. Loading is
      never touched. */
  function LoggedOut(s: Session, o: Outcome): (r: Step)
    ensures r.session.loading == s.loading
    ensures o.Ok? ==> r.session.user == Null && r.completion == Completed(Some("/login"))
    ensures o.Fail? ==> r.session == s && r.completion == Completed(None)
  {
    match o
    case Ok(_) => Step(Session(Null, s.loading), Completed(Some("/login")))
    case Fail(_) => Step(s, Completed(None))
  }

  /** The exported `setUser` setter, as the profile page calls it with a
      refreshed record: the user becomes that value as it is, loading is
      left alone. */
  function UserSet(s: Session, value: Json): (r: Session)
    ensures r.user == value && r.loading == s.loading
    ensures r.IsAuthenticated() <==> Truthy(value)
  {
    Session(value, s.loading)
  }

  /** One call of one of the four operations, with how its request settled,
      or a direct call of the exported setter. */
  datatype Event =
    | Rehydrate(o: Outcome)
    | LogIn(o: Outcome)
    | SignUp(o: Outcome)
    | LogOut(o: Outcome)
    | SetUser(value: Json)

  function Apply(s: Session, e: Event): Session {
    match e
    case Rehydrate(o) => Rehydrated(s, o)
    case LogIn(o) => LoggedIn(s, o).session
    case SignUp(o) => Registered(s, o).session
    case LogOut(o) => LoggedOut(s, o).session
    case SetUser(value) => UserSet(s, value)
  }

  /** The session after a sequence of operations, one after another. */
  function Run(s: Session, events: seq<Event>): Session
    decreases |events|
  {
    if events == [] then s else Run(Apply(s, events[0]), events[1..])
  }

  lemma {:induction false} RunAppend(s: Session, events: seq<Event>, e: Event)
    ensures Run(s, events + [e]) == Apply(Run(s, events), e)
    decreases |events|
  {
    if events != [] {
      assert (events + [e])[1..] == events[1..] + [e];
      RunAppend(Apply(s, events[0]), events[1..], e);
    }
  }

  /** Once any operation has run after the initial rehydration, loading
      stays false: only rehydrate, login and register write it, and each
      leaves it false. */
  lemma {:induction false} SettledAfterRehydration(events: seq<Event>, o: Outcome)
    ensures !Run(Initial, [Rehydrate(o)] + events).loading
  {
    SettledAfter(Rehydrated(Initial, o), events);
    assert ([Rehydrate(o)] + events)[1..] == events;
  }

  lemma {:induction false} SettledAfter(s: Session, events: seq<Event>)
    requires !s.loading
    ensures !Run(s, events).loading
    decreases |events|
  {
    if events != [] {
      SettledAfter(Apply(s, events[0]), events[1..]);
    }
  }

  /** Whether an event can put an identity in the session: a successful
      rehydrate, login or register, or the setter given a truthy value. */
  predicate MayAuthenticate(e: Event) {
    match e
    case SetUser(value) => Truthy(value)
    case LogOut(_) => false
    case _ => e.o.Ok?
  }

  /** An anonymous session stays anonymous through any run of failed calls,
      logouts and setter calls with a falsy value. */
  lemma {:induction false} OnlySuccessAuthenticates(s: Session, events: seq<Event>)
    requires !s.IsAuthenticated()
    requires forall i :: 0 <= i < |events| ==> !MayAuthenticate(events[i])
    ensures !Run(s, events).IsAuthenticated()
    decreases |events|
  {
    if events != [] {
      OnlySuccessAuthenticates(Apply(s, events[0]), events[1..]);
    }
  }

  /** Whatever came before, a successful logout ends anonymous. */
  lemma LogoutEndsAnonymous(events: seq<Event>, body: Json)
    ensures !Run(Initial, events + [LogOut(Ok(body))]).IsAuthenticated()
  {
    RunAppend(Initial, events, LogOut(Ok(body)));
  }

  /** A failed logout leaves the session exactly as it was: the identity
      survives, unlike what a local-first logout would do. */
  lemma FailedLogoutKeepsIdentity(events: seq<Event>, e: ApiError)
    ensures Run(Initial, events + [LogOut(Fail(e))]) == Run(Initial, events)
  {
    RunAppend(Initial, events, LogOut(Fail(e)));
  }

  /** A login answered with any object authenticates. */
  lemma LoginWithObjectAuthenticates(s: Session, fields: map<string, Json>)
    ensures LoggedIn(s, Ok(Obj(fields))).session.IsAuthenticated()
  {
  }

  /** A register answered without a `user` field "succeeds", navigates to
      "/", and leaves the session anonymous. */
  lemma RegisterWithoutUserIsAnonymous(s: Session)
    ensures var r := Registered(s, Ok(Obj(map[])));
            r.completion == Completed(Some("/")) && !r.session.IsAuthenticated()
  {
  }

  class AuthProvider {
    var user: Json
    var loading: bool

    function State(): Session
      reads this
    {
      Session(user, loading)
    }

    /** `isAuthenticated` as the context exposes it. */
    function IsAuthenticated(): (r: bool)
      reads this
      ensures r <==> State().IsAuthenticated()
    {
      Truthy(user)
    }

    constructor ()
      ensures State() == Initial
    {
      user := Null;
      loading := true;
    }

    method FetchUser(o: Outcome)
      modifies this
      ensures State() == Rehydrated(old(State()), o)
    {
      if o.Ok? {
        user := o.body;
      } else {
        user := Null;
      }
      loading := false;
    }

    method Login(o: Outcome) returns (c: Completion)
      modifies this
      ensures Step(State(), c) == LoggedIn(old(State()), o)
    {
      loading := true;
      if o.Fail? {
        c := Threw(o.error);
      } else {
        var u := Member(o.body, "user");
        if u.None? {
          c := Threw(LocalError(TypeErrorText));
        } else {
          user := Or(u.value, o.body);
          c := Completed(Some("/"));
        }
      }
      loading := false;
    }

    method Register(o: Outcome) returns (c: Completion)
      modifies this
      ensures Step(State(), c) == Registered(old(State()), o)
    {
      loading := true;
      if o.Fail? {
        c := Threw(o.error);
      } else {
        var u := Member(o.body, "user");
        if u.None? {
          c := Threw(LocalError(TypeErrorText));
        } else {
          user := u.value;
          c := Completed(Some("/"));
        }
      }
      loading := false;
    }

    /** The exported `setUser`. */
    method SetUser(value: Json)
      modifies this
      ensures State() == UserSet(old(State()), value)
    {
      user := value;
    }

    method Logout(o: Outcome) returns (c: Completion)
      modifies this
      ensures Step(State(), c) == LoggedOut(old(State()), o)
    {
      if o.Ok? {
        user := Null;
        c := Completed(Some("/login"));
      } else {
        c := Completed(None);
      }
    }
  }
}
