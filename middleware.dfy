/** Route protection for the admin area: the `authorized` callback that
    decides whether a request may proceed at all, the middleware body that
    sends non-admins home, and the matcher that limits both to `/admin`
    paths. */
module Middleware {
  import opened Common
  import opened Session

  const AdminPrefix := "/admin"
  const SignInPage := "/auth/login"
  const HomePage := "/"

  /** What happens to a request. */
  datatype Outcome = PassThrough | Redirect(location: string)

  /** `pathname.startsWith('/admin')`: a plain string prefix, so
      `/administrator` counts too. */
  predicate IsAdminRoute(path: string)
  {
    StartsWith(path, AdminPrefix)
  }

  /** `!!token?.isAdmin` */
  predicate AdminClaim(token: Option<Claims>)
  {
    token.Some? && token.value.isAdmin == Some(true)
  }

  /** The `authorized` callback. */
  function Authorized(token: Option<Claims>, path: string): (ok: bool)
    ensures ok ==> token.Some?
    ensures IsAdminRoute(path) ==> (ok <==> AdminClaim(token))
    ensures !IsAdminRoute(path) ==> (ok <==> token.Some?)
  {
    if IsAdminRoute(path) then AdminClaim(token) else token.Some?
  }

  /** The matcher `/admin/:path*`: `/admin` itself or anything below it. */
  predicate Matched(path: string)
  {
    path == AdminPrefix || StartsWith(path, AdminPrefix + "/")
  }

  lemma MatchedIsAdminRoute(path: string)
    requires Matched(path)
    ensures IsAdminRoute(path)
  {
    if path != AdminPrefix {
      assert path[..|AdminPrefix|] == (AdminPrefix + "/")[..|AdminPrefix|];
    }
  }

  /** The middleware body, run only once `Authorized` holds. */
  function Body(token: Option<Claims>, path: string): Outcome
  {
    if IsAdminRoute(path) && !AdminClaim(token) then Redirect(HomePage) else PassThrough
  }

  /** A request as a whole: unmatched paths are not intercepted; a matched
      path that is not authorized goes to the sign-in page; otherwise the
      body decides. Only admins get through, and the redirect home in the
      body can never be taken. */
  function Handle(token: Option<Claims>, path: string): (r: Outcome)
    ensures !Matched(path) ==> r == PassThrough
    ensures Matched(path) ==> (r == PassThrough <==> AdminClaim(token))
    ensures Matched(path) && !AdminClaim(token) ==> r == Redirect(SignInPage)
    ensures r != Redirect(HomePage)
  {
    if !Matched(path) then PassThrough
    else if !Authorized(token, path) then Redirect(SignInPage)
    else
      MatchedIsAdminRoute(path);
      Body(token, path)
  }

  /** A path that merely starts with the letters of the prefix is an admin
      route to the callbacks, but the matcher never hands it to them. */
  lemma PrefixWithoutSlashUnprotected(path: string, token: Option<Claims>)
    requires path == "/administrator"
    ensures IsAdminRoute(path) && !Matched(path)
    ensures Handle(token, path) == PassThrough
  {
    assert path[..|AdminPrefix|] == AdminPrefix;
    assert path[..|AdminPrefix| + 1] != AdminPrefix + "/" by {
      assert path[6] == 'i';
    }
  }

  /** The token filled by the `jwt` callback at sign-in is what the
      middleware reads: on a matched path, an admin passes and anyone else
      is sent to the sign-in page. */
  method SignedInVisit(token: Token, user: AuthUser, path: string) returns (r: Outcome)
    requires Matched(path)
    modifies token
    ensures token.AsClaims() == Claims(Some(user.id), Some(user.isAdmin), Some(user.emailVerified))
    ensures r == (if user.isAdmin then PassThrough else Redirect(SignInPage))
  {
    token.Jwt(Some(user), SignIn, None);
    r := Handle(Some(token.AsClaims()), path);
  }
}
