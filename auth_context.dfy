/**
 * The client's session provider: the signed-in user, whether the session
 * check that runs when the provider mounts is still pending, and the token
 * slot of the browser's local storage. Each network call is replaced by its
 * outcome, passed in as a parameter.
 */
module AuthContext {
  import opened Wrappers
  import opened JsValues

  /** The user object the client keeps; its contents are opaque to the session logic. */
  datatype Identity = Identity(id: int, name: string, email: string, avatar: Option<string>)

  /**
   * The two properties the client reads from a response body,
   * `response.data.token` and `response.data.user`; either may be absent.
   */
  datatype ResponseData = ResponseData(token: Option<string>, user: Option<Identity>)

  /** How a request ended: with a response body, or with a rejection that carries an error. */
  datatype Call = Resolved(data: ResponseData) | Rejected(error: string)

  /** The session's observable state: `user`, `loading` and the stored token. */
  datatype Session = Session(user: Option<Identity>, loading: bool, token: Option<string>)

  /** What `localStorage.setItem` stores: the value converted to a string, so a missing value becomes "undefined". */
  function Stored(v: Option<string>): (s: string)
    ensures v.Some? ==> s == v.value
    ensures v.None? ==> s == "undefined"
  {
    match v
    case Some(x) => x
    case None => "undefined"
  }

  /** A signed-in user always comes with a stored token. */
  predicate UserHasToken(s: Session)
  {
    s.user.Some? ==> s.token.Some?
  }

  /**
   * The session once the token check has finished: a successful check
   * takes `response.data.user`, a failed one removes the stored token;
   * either way `loading` ends false.
   */
  function AfterValidate(s: Session, validation: Call): (r: Session)
    ensures !r.loading
    ensures validation.Resolved? ==> r.user == validation.data.user && r.token == s.token
    ensures validation.Rejected? ==> r.user == s.user && r.token == None
  {
    match validation
    case Resolved(data) => Session(data.user, false, s.token)
    case Rejected(_) => Session(s.user, false, None)
  }

  /**
   * The session after the mount-time check: with no truthy stored token,
   * only `loading` changes; otherwise the token check decides.
   */
  function AfterMount(s: Session, validation: Call): (r: Session)
    ensures !r.loading
    ensures !Truthy(s.token) ==> r == s.(loading := false)
    ensures Truthy(s.token) && validation.Rejected? ==> r.token == None && r.user == s.user
    ensures Truthy(s.token) && validation.Resolved? ==> r.token == s.token && r.user == validation.data.user
  {
    if Truthy(s.token) then AfterValidate(s, validation) else s.(loading := false)
  }

  /** The session after a login call: a success stores the token and takes the user, a failure changes nothing. */
  function AfterLogin(s: Session, response: Call): (r: Session)
    ensures response.Rejected? ==> r == s
    ensures response.Resolved? ==>
      r == Session(response.data.user, s.loading, Some(Stored(response.data.token)))
    ensures r.loading == s.loading
  {
    match response
    case Resolved(data) => Session(data.user, s.loading, Some(Stored(data.token)))
    case Rejected(_) => s
  }

  /** The session after logout: no user, no stored token. */
  function AfterLogout(s: Session): (r: Session)
    ensures r.user == None && r.token == None && r.loading == s.loading
  {
    s.(user := None, token := None)
  }

  /** Logging out twice is the same as logging out once. */
  lemma LogoutIdempotent(s: Session)
    ensures AfterLogout(AfterLogout(s)) == AfterLogout(s)
  {
  }

  /**
   * Every transition keeps a signed-in user paired with a stored token. The
   * mount check runs once, on the first render, when there is no user yet.
   */
  lemma TransitionsKeepUserHasToken(s: Session, call: Call)
    requires UserHasToken(s)
    ensures s.user == None ==> UserHasToken(AfterMount(s, call))
    ensures UserHasToken(AfterLogin(s, call))
    ensures UserHasToken(AfterLogout(s))
  {
  }

  /**
   * A signed-in user does not imply a signed-in session the other way round:
   * a successful check whose body has no `user` property leaves the token
   * stored and the user null.
   */
  lemma TokenWithoutUser(t: string)
    requires t != ""
    ensures var r := AfterMount(Session(None, true, Some(t)), Resolved(ResponseData(None, None)));
      r.token == Some(t) && r.user == None && !r.loading
  {
  }

  class AuthProvider {
    var user: Option<Identity>
    var loading: bool
    /** The `token` entry of local storage. */
    var storedToken: Option<string>

    function State(): Session
      reads this
    {
      Session(user, loading, storedToken)
    }

    ghost predicate Valid()
      reads this
    {
      UserHasToken(State())
    }

    /** The provider's first render: no user, still loading, whatever storage already holds. */
    constructor (stored: Option<string>)
      ensures Valid()
      ensures user == None && loading && storedToken == stored
    {
      user := None;
      loading := true;
      storedToken := stored;
    }

    /**
     * The mount effect: reads the stored token and checks it when truthy,
     * otherwise just stops loading. Returns the token the check request
     * carried, or none when no request was made.
     */
    method Mount(validation: Call) returns (requested: Option<string>)
      requires Valid() && loading && user == None
      modifies this
      ensures Valid()
      ensures State() == AfterMount(old(State()), validation)
      ensures requested.Some? <==> Truthy(old(storedToken))
      ensures requested.Some? ==> requested == old(storedToken)
    {
      var token := storedToken;
      if Truthy(token) {
        ValidateToken(token.value, validation);
        requested := token;
      } else {
        loading := false;
        requested := None;
      }
    }

    /** validateToken: the `/api/auth/validate` call with `token`, then its try/catch/finally. */
    method ValidateToken(token: string, validation: Call)
      requires Valid() && storedToken == Some(token) && user == None
      modifies this
      ensures Valid()
      ensures State() == AfterValidate(old(State()), validation)
    {
      match validation {
        case Resolved(data) =>
          user := data.user;
        case Rejected(_) =>
          storedToken := None;
      }
      loading := false;
    }

    /**
     * login: on success stores the token, sets the user and returns the
     * response body; on failure rethrows the error and changes nothing.
     */
    method Login(response: Call) returns (r: Result<ResponseData, string>)
      requires Valid()
      modifies this
      ensures Valid()
      ensures State() == AfterLogin(old(State()), response)
      ensures response.Resolved? ==> r == Success(response.data)
      ensures response.Rejected? ==> r == Failure(response.error)
    {
      match response {
        case Resolved(data) =>
          storedToken := Some(Stored(data.token));
          user := data.user;
          r := Success(data);
        case Rejected(e) =>
          r := Failure(e);
      }
    }

    /** logout: removes the stored token and the user, with no request. */
    method Logout()
      requires Valid()
      modifies this
      ensures Valid()
      ensures State() == AfterLogout(old(State()))
    {
      storedToken := None;
      user := None;
    }

    /**
     * register: returns the response body or rethrows the error; it never
     * touches the session.
     */
    method Register(response: Call) returns (r: Result<ResponseData, string>)
      ensures response.Resolved? <==> r.Success?
      ensures response.Resolved? ==> r.value == response.data
      ensures response.Rejected? ==> r.error == response.error
    {
      match response {
        case Resolved(data) => r := Success(data);
        case Rejected(e) => r := Failure(e);
      }
    }

    /** What the provider renders below itself: the children once loading is over, nothing before. */
    function Rendered<C>(children: C): (r: Option<C>)
      reads this
      ensures r.Some? <==> !loading
      ensures r.Some? ==> r.value == children
    {
      if loading then None else Some(children)
    }
  }
}
