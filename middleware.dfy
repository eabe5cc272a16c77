/**
 * The route guard of the session middleware: who is authorised, and where a
 * request is redirected. The user and the two configured values are inputs;
 * an unset environment variable is None.
 */
module RouteGuard {
  import opened Common

  /** A signed-in user; the email is optional on the auth provider's user. */
  datatype User = User(id: string, email: Option<string>)

  /** The configured single user: the authorised email and the authorised id. */
  datatype Config = Config(authorizedEmail: Option<string>, authorizedUserId: Option<string>)

  datatype Decision = Pass | Redirect(pathname: string)

  /** A user exists and its email or its id is the configured one (strict equality, so two unset values match). */
  predicate IsAuthorized(user: Option<User>, config: Config)
  {
    user.Some? && (user.value.email == config.authorizedEmail || Some(user.value.id) == config.authorizedUserId)
  }

  /** The three redirect rules, tried in order; otherwise the request passes. */
  function RouteDecision(user: Option<User>, config: Config, pathname: string): (r: Decision)
    ensures r.Redirect? ==> r.pathname == "/login" || r.pathname == "/unauthorized" || r.pathname == "/"
    ensures StartsWith(pathname, "/api/auth") ==> r == Pass
  {
    assert StartsWith(pathname, "/api/auth") ==> pathname[1] == 'a';
    assert StartsWith(pathname, "/login") ==> pathname[1] == 'l';
    if user.None? && !StartsWith(pathname, "/login") && !StartsWith(pathname, "/api/auth") then
      Redirect("/login")
    else if user.Some? && !IsAuthorized(user, config)
            && !StartsWith(pathname, "/unauthorized") && !StartsWith(pathname, "/login")
            && !StartsWith(pathname, "/api/auth") then
      Redirect("/unauthorized")
    else if user.Some? && IsAuthorized(user, config) && StartsWith(pathname, "/login") then
      Redirect("/")
    else
      Pass
  }

  /** checkAuthorization: the middleware's test, on a user given by id and a known email. */
  function CheckAuthorization(userId: string, email: string, config: Config): (r: bool)
    ensures r <==> IsAuthorized(Some(User(userId, Some(email))), config)
  {
    Some(email) == config.authorizedEmail || Some(userId) == config.authorizedUserId
  }

  /** Without a user, every path outside "/login" and "/api/auth" goes to the login page, and nothing else does. */
  lemma NoUserGoesToLogin(user: Option<User>, config: Config, pathname: string)
    ensures RouteDecision(user, config, pathname) == Redirect("/login") <==>
      user.None? && !StartsWith(pathname, "/login") && !StartsWith(pathname, "/api/auth")
  {
    assert "/login" != "/unauthorized" && "/login" != "/";
  }

  /** A present but unauthorised user is sent to "/unauthorized" from every path outside the three exempt prefixes. */
  lemma UnauthorisedUserGoesToUnauthorized(user: Option<User>, config: Config, pathname: string)
    ensures RouteDecision(user, config, pathname) == Redirect("/unauthorized") <==>
      user.Some? && !IsAuthorized(user, config)
      && !StartsWith(pathname, "/unauthorized") && !StartsWith(pathname, "/login")
      && !StartsWith(pathname, "/api/auth")
  {
    assert "/unauthorized" != "/login" && "/unauthorized" != "/";
  }

  /** An authorised user on a "/login" path is sent to the dashboard, and that is the only redirect to "/". */
  lemma AuthorisedUserLeavesLogin(user: Option<User>, config: Config, pathname: string)
    ensures RouteDecision(user, config, pathname) == Redirect("/") <==>
      IsAuthorized(user, config) && StartsWith(pathname, "/login")
  {
    assert "/" != "/login" && "/" != "/unauthorized";
  }

  /** Every other request passes through. */
  lemma OtherwisePass(user: Option<User>, config: Config, pathname: string)
    ensures RouteDecision(user, config, pathname) == Pass <==>
      (user.None? ==> StartsWith(pathname, "/login") || StartsWith(pathname, "/api/auth"))
      && (user.Some? && !IsAuthorized(user, config) ==>
            StartsWith(pathname, "/unauthorized") || StartsWith(pathname, "/login") || StartsWith(pathname, "/api/auth"))
      && (IsAuthorized(user, config) ==> !StartsWith(pathname, "/login"))
  {
  }

  /** No redirect loop: the target of a redirect passes for the same user. */
  lemma RedirectTargetPasses(user: Option<User>, config: Config, pathname: string)
    requires RouteDecision(user, config, pathname).Redirect?
    ensures RouteDecision(user, config, RouteDecision(user, config, pathname).pathname) == Pass
  {
    assert StartsWith("/login", "/login");
    assert StartsWith("/unauthorized", "/unauthorized");
    assert !StartsWith("/", "/login");
    assert !StartsWith("/", "/api/auth") && !StartsWith("/", "/unauthorized");
  }

  /** Matching is by prefix: "/login-x" is handled exactly like "/login". */
  lemma PrefixMatching(user: Option<User>, config: Config)
    ensures RouteDecision(user, config, "/login-x") == RouteDecision(user, config, "/login")
  {
    assert StartsWith("/login-x", "/login") && StartsWith("/login", "/login");
    assert !StartsWith("/login-x", "/api/auth") && !StartsWith("/login-x", "/unauthorized");
    assert !StartsWith("/login", "/api/auth") && !StartsWith("/login", "/unauthorized");
  }

  /** With the authorised email unset, any signed-in user without an email counts as authorised. */
  lemma UnsetEmailAdmitsEmaillessUser(id: string, config: Config, pathname: string)
    requires config.authorizedEmail == None
    ensures IsAuthorized(Some(User(id, None)), config)
    ensures !StartsWith(pathname, "/login") ==> RouteDecision(Some(User(id, None)), config, pathname) == Pass
  {
  }

  /** checkAuthorization agrees with the middleware's test for a user whose email is known. */
  lemma CheckAgreesWithMiddleware(user: User, email: string, config: Config)
    requires user.email == Some(email)
    ensures CheckAuthorization(user.id, email, config) <==> IsAuthorized(Some(user), config)
  {
  }
}
