/**
 * The HTTP client of app/plugins/axios.ts: a request interceptor that
 * attaches the access token, and a response-error interceptor that, on the
 * first 401 of a request, exchanges the refresh token for a new access
 * token and replays the request once.
 *
 * The pure functions below say what one interceptor call does to the two
 * cookies and to the request; the classes `Request` and `Client` perform the
 * same steps in place and are proved to agree with them.
 */
module AxiosPlugin {
  import opened Wrappers
  import Routing

  const AuthorizationHeader: string := "Authorization"
  const Unauthorized: int := 401

  /** JavaScript truthiness of a cookie or response field holding a string. */
  predicate Truthy(v: Option<string>)
  {
    v.Some? && v.value != ""
  }

  function Bearer(token: string): string
  {
    "Bearer " + token
  }

  /** The `token` and `refreshToken` cookies. */
  datatype Session = Session(accessToken: Option<string>, refreshToken: Option<string>)

  /** Both cookies set to `null`: the forced logout. */
  const LoggedOut: Session := Session(None, None)

  /** A rejected request: the HTTP status when a response arrived at all, and an opaque description. */
  datatype ApiError = ApiError(status: Option<int>, message: string)

  /** What the transport gave back for one send of a request. */
  datatype Reply = Answered(data: string) | Failed(error: ApiError)

  /** What `POST /auth/refresh` gave back: new tokens (the refresh token optional), or an error. */
  datatype RefreshOutcome = Refreshed(accessToken: string, refreshToken: Option<string>) | RefreshFailed(error: ApiError)

  /** How the error interceptor settles: replay the request, or reject with an error. */
  datatype Settlement = Replay | Reject(error: ApiError)

  /** The parts of an axios request config the interceptors touch. */
  datatype RequestState = RequestState(headers: map<string, string>, retry: bool)

  /** The request interceptor's effect on the headers. */
  function WithBearer(headers: map<string, string>, token: Option<string>): (h: map<string, string>)
    ensures Truthy(token) ==> AuthorizationHeader in h && h[AuthorizationHeader] == Bearer(token.value)
    ensures !Truthy(token) ==> h == headers
    ensures h.Keys == headers.Keys + (if Truthy(token) then {AuthorizationHeader} else {})
    ensures forall k :: k in headers && k != AuthorizationHeader ==> h[k] == headers[k]
  {
    if Truthy(token) then headers[AuthorizationHeader := Bearer(token.value)] else headers
  }

  /** Whether the error interceptor takes the refresh path for this error and request. */
  predicate Handles(error: ApiError, request: RequestState)
  {
    error.status == Some(Unauthorized) && !request.retry
  }

  /** One call of the error interceptor, with every effect it has. */
  datatype ErrorStep = ErrorStep(
    session: Session,
    request: RequestState,
    navigation: Option<string>,   // the `navigateTo` it issues, if any
    refreshPost: Option<string>,  // the refresh token it posts, if it calls the refresh endpoint
    settlement: Settlement)

  function OnResponseError(s: Session, request: RequestState, error: ApiError, refresh: RefreshOutcome): (st: ErrorStep)
    // the retry flag is raised by a handled 401 and never lowered
    ensures st.request.retry == (request.retry || Handles(error, request))
    // anything else passes through untouched
    ensures !Handles(error, request) ==> st == ErrorStep(s, request, None, None, Reject(error))
    // the refresh endpoint is called only for a request not yet retried, with the stored refresh token
    ensures st.refreshPost.Some? <==> Handles(error, request) && Truthy(s.refreshToken)
    ensures st.refreshPost.Some? ==> st.refreshPost == s.refreshToken
    // every navigation is a forced logout to the login page, and the request fails
    ensures st.navigation.Some? ==> st.navigation == Some(Routing.LoginPath) && st.session == LoggedOut && st.settlement.Reject?
    ensures Handles(error, request) && !st.settlement.Replay? ==> st.navigation == Some(Routing.LoginPath)
    // no refresh token: the original error
    ensures Handles(error, request) && !Truthy(s.refreshToken) ==> st.settlement == Reject(error)
    // refresh failure: the refresh error, not the original one
    ensures Handles(error, request) && Truthy(s.refreshToken) && refresh.RefreshFailed? ==> st.settlement == Reject(refresh.error)
    // refresh success: new access token, refresh token rotated only when a new one came back, replay with the new bearer
    ensures st.settlement.Replay? <==> Handles(error, request) && Truthy(s.refreshToken) && refresh.Refreshed?
    ensures st.settlement.Replay? ==>
      && st.session.accessToken == Some(refresh.accessToken)
      && st.session.refreshToken == (if Truthy(refresh.refreshToken) then refresh.refreshToken else s.refreshToken)
      && st.request.headers == request.headers[AuthorizationHeader := Bearer(refresh.accessToken)]
      && st.navigation.None?
    ensures !st.settlement.Replay? ==> st.request.headers == request.headers
  {
    if Handles(error, request) then
      var marked := request.(retry := true);
      var refreshToken := s.refreshToken;
      if !Truthy(refreshToken) then
        ErrorStep(LoggedOut, marked, Some(Routing.LoginPath), None, Reject(error))
      else
        match refresh
        case Refreshed(accessToken, newRefreshToken) =>
          var s' := Session(Some(accessToken), if Truthy(newRefreshToken) then newRefreshToken else refreshToken);
          var replayed := marked.(headers := marked.headers[AuthorizationHeader := Bearer(accessToken)]);
          ErrorStep(s', replayed, None, Some(refreshToken.value), Replay)
        case RefreshFailed(refreshError) =>
          ErrorStep(LoggedOut, marked, Some(Routing.LoginPath), Some(refreshToken.value), Reject(refreshError))
    else
      ErrorStep(s, request, None, None, Reject(error))
  }

  /** The effects of one request from first send to final answer. */
  datatype Exchanged = Exchanged(
    session: Session,
    request: RequestState,
    navigations: seq<string>,
    refreshPosts: seq<string>,
    reply: Reply)

  /**
   * One request through the client: request interceptor, send, and on an
   * error the error interceptor; on a replay the request interceptor and the
   * send once more, and on a second error the error interceptor again. The
   * transport's answers `first` and `second` and the refresh endpoint's
   * answer `refresh` are inputs, each consulted only when reached.
   */
  function Exchange(s: Session, request: RequestState, first: Reply, refresh: RefreshOutcome, second: Reply): (x: Exchanged)
    // at most one refresh and at most one navigation per request
    ensures |x.refreshPosts| <= 1 && |x.navigations| <= 1
    ensures x.navigations != [] ==> x.navigations == [Routing.LoginPath] && x.session == LoggedOut && x.reply.Failed?
    // a request already marked as retried never refreshes
    ensures request.retry ==> x.refreshPosts == [] && x.navigations == [] && x.session == s
    // a success passes through unchanged
    ensures first.Answered? ==> x.reply == first && x.session == s && x.refreshPosts == []
    // errors other than a first 401 reach the caller unchanged
    ensures first.Failed? && (first.error.status != Some(Unauthorized) || request.retry) ==> x.reply == first && x.session == s
    ensures first.Failed? && !Handles(first.error, request) ==> x.refreshPosts == [] && x.navigations == []
    // a first 401 without a refresh token: forced logout, and the caller gets the original error
    ensures first.Failed? && Handles(first.error, request) && !Truthy(s.refreshToken) ==>
      && x.reply == first
      && x.session == LoggedOut
      && x.navigations == [Routing.LoginPath]
      && x.refreshPosts == []
    // a first 401 whose refresh fails: forced logout, and the caller gets the refresh error
    ensures first.Failed? && Handles(first.error, request) && Truthy(s.refreshToken) && refresh.RefreshFailed? ==>
      && x.reply == Failed(refresh.error)
      && x.session == LoggedOut
      && x.navigations == [Routing.LoginPath]
      && x.refreshPosts == [s.refreshToken.value]
    // after a successful refresh the caller gets the replay's answer, even a second 401
    ensures first.Failed? && first.error.status == Some(Unauthorized) && !request.retry
            && Truthy(s.refreshToken) && refresh.Refreshed? ==>
      && x.reply == second
      && x.refreshPosts == [s.refreshToken.value]
      && x.session.accessToken == Some(refresh.accessToken)
      && x.session.refreshToken == (if Truthy(refresh.refreshToken) then refresh.refreshToken else s.refreshToken)
      && x.navigations == []
      && AuthorizationHeader in x.request.headers
      && x.request.headers[AuthorizationHeader] == Bearer(refresh.accessToken)
    ensures x.request.retry == (request.retry || (first.Failed? && first.error.status == Some(Unauthorized)))
  {
    var sent := request.(headers := WithBearer(request.headers, s.accessToken));
    match first
    case Answered(_) => Exchanged(s, sent, [], [], first)
    case Failed(error) =>
      var st := OnResponseError(s, sent, error, refresh);
      match st.settlement
      case Reject(e) => Exchanged(st.session, st.request, ToSeq(st.navigation), ToSeq(st.refreshPost), Failed(e))
      case Replay =>
        var resent := st.request.(headers := WithBearer(st.request.headers, st.session.accessToken));
        match second
        case Answered(_) => Exchanged(st.session, resent, [], ToSeq(st.refreshPost), second)
        case Failed(error2) =>
          var st2 := OnResponseError(st.session, resent, error2, refresh);
          Exchanged(st2.session, st2.request, ToSeq(st2.navigation), ToSeq(st.refreshPost) + ToSeq(st2.refreshPost),
                    Failed(st2.settlement.error))
  }

  /** One request handed to the client, with the answers it will meet. */
  datatype Call = Call(request: RequestState, first: Reply, refresh: RefreshOutcome, second: Reply)

  /** The effects of a series of requests, one after another, on the shared cookies. */
  datatype Ran = Ran(session: Session, navigations: seq<string>, refreshPosts: seq<string>, replies: seq<Reply>)

  function Run(s: Session, calls: seq<Call>): (r: Ran)
    decreases |calls|
  {
    if calls == [] then Ran(s, [], [], [])
    else
      var c := calls[0];
      var x := Exchange(s, c.request, c.first, c.refresh, c.second);
      var rest := Run(x.session, calls[1..]);
      Ran(rest.session, x.navigations + rest.navigations, x.refreshPosts + rest.refreshPosts, [x.reply] + rest.replies)
  }

  /** Every request gets exactly one answer, and the refresh endpoint is called at most once per request. */
  lemma {:induction false} RefreshAtMostOncePerRequest(s: Session, calls: seq<Call>)
    ensures |Run(s, calls).replies| == |calls|
    ensures |Run(s, calls).refreshPosts| <= |calls|
    ensures |Run(s, calls).navigations| <= |calls|
    decreases |calls|
  {
    if calls != [] {
      var c := calls[0];
      RefreshAtMostOncePerRequest(Exchange(s, c.request, c.first, c.refresh, c.second).session, calls[1..]);
    }
  }

  /**
   * Without a refresh token the client never calls the refresh endpoint and
   * never acquires one: only a login, outside this client, starts a session again.
   */
  lemma {:induction false} NoRefreshTokenStaysOut(s: Session, calls: seq<Call>)
    requires !Truthy(s.refreshToken)
    ensures Run(s, calls).refreshPosts == []
    ensures !Truthy(Run(s, calls).session.refreshToken)
    decreases |calls|
  {
    if calls != [] {
      var c := calls[0];
      NoRefreshTokenStaysOut(Exchange(s, c.request, c.first, c.refresh, c.second).session, calls[1..]);
    }
  }

  /** An axios request config, whose headers and `_retry` flag the interceptors change in place. */
  class Request {
    var headers: map<string, string>
    var retry: bool

    constructor (headers: map<string, string>)
      ensures State() == RequestState(headers, false)
    {
      this.headers := headers;
      this.retry := false;
    }

    function State(): RequestState
      reads this
    {
      RequestState(headers, retry)
    }
  }

  /** The plugin's client: the two cookies it shares with the rest of the app, and a record of its outside effects. */
  class Client {
    var accessToken: Option<string>
    var refreshToken: Option<string>
    var navigations: seq<string>   // `navigateTo` calls, oldest first
    var refreshPosts: seq<string>  // refresh tokens posted to the refresh endpoint, oldest first

    constructor (cookies: Session)
      ensures Cookies() == cookies && navigations == [] && refreshPosts == []
    {
      accessToken := cookies.accessToken;
      refreshToken := cookies.refreshToken;
      navigations := [];
      refreshPosts := [];
    }

    function Cookies(): Session
      reads this
    {
      Session(accessToken, refreshToken)
    }

    /** The request interceptor: attach the access token, if there is one, and pass the config on. */
    method InterceptRequest(config: Request) returns (sent: Request)
      modifies config`headers
      ensures sent == config
      ensures config.headers == WithBearer(old(config.headers), accessToken)
    {
      var token := accessToken;
      if Truthy(token) {
        config.headers := config.headers[AuthorizationHeader := Bearer(token.value)];
      }
      sent := config;
    }

    /** The response-error interceptor. */
    method InterceptError(error: ApiError, config: Request, refresh: RefreshOutcome) returns (settlement: Settlement)
      modifies this, config
      ensures var st := OnResponseError(old(Cookies()), old(config.State()), error, refresh);
        && Cookies() == st.session
        && config.State() == st.request
        && settlement == st.settlement
        && navigations == old(navigations) + ToSeq(st.navigation)
        && refreshPosts == old(refreshPosts) + ToSeq(st.refreshPost)
    {
      if error.status == Some(Unauthorized) && !config.retry {
        config.retry := true;
        var stored := refreshToken;
        if !Truthy(stored) {
          accessToken := None;
          refreshToken := None;
          navigations := navigations + [Routing.LoginPath];
          return Reject(error);
        }
        refreshPosts := refreshPosts + [stored.value];
        match refresh {
          case Refreshed(newAccessToken, newRefreshToken) =>
            accessToken := Some(newAccessToken);
            if Truthy(newRefreshToken) {
              refreshToken := newRefreshToken;
            }
            config.headers := config.headers[AuthorizationHeader := Bearer(newAccessToken)];
            return Replay;
          case RefreshFailed(refreshError) =>
            accessToken := None;
            refreshToken := None;
            navigations := navigations + [Routing.LoginPath];
            return Reject(refreshError);
        }
      }
      return Reject(error);
    }

    /** One request through the client, replayed at most once. */
    method Send(config: Request, first: Reply, refresh: RefreshOutcome, second: Reply) returns (reply: Reply)
      modifies this, config
      ensures var x := Exchange(old(Cookies()), old(config.State()), first, refresh, second);
        && Cookies() == x.session
        && config.State() == x.request
        && reply == x.reply
        && navigations == old(navigations) + x.navigations
        && refreshPosts == old(refreshPosts) + x.refreshPosts
      ensures |refreshPosts| <= |old(refreshPosts)| + 1
    {
      var _ := InterceptRequest(config);
      if first.Answered? {
        return first;
      }
      var settlement := InterceptError(first.error, config, refresh);
      if settlement.Reject? {
        return Failed(settlement.error);
      }
      var _ := InterceptRequest(config);
      if second.Answered? {
        return second;
      }
      var final := InterceptError(second.error, config, refresh);
      return Failed(final.error);
    }
  }
}
