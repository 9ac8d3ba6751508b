/** The request middleware: a visitor who is not signed in and asks for a
    saved-homes, saved-searches or account page is sent to `/login`; every
    other request continues with the session's response. */
module Middleware {
  import opened Wrappers
  import opened Text

  /** A request URL, split into the parts a redirect may change. */
  datatype Url = Url(origin: string, pathname: string, search: string, hash: string)

  /** What the middleware answers: a redirect, or the session response `R`. */
  datatype Outcome<R> = Redirect(location: Url) | PassThrough(response: R)

  /** Pages that need a signed-in user, matched by prefix. */
  predicate IsGuarded(path: string) {
    StartsWith(path, "/saved-homes") || StartsWith(path, "/saved-searches") || StartsWith(path, "/account")
  }

  /** Pages that never redirect, matched by prefix. */
  predicate IsSignInPage(path: string) {
    StartsWith(path, "/login") || StartsWith(path, "/auth")
  }

  /** The redirect condition as the middleware writes it. */
  predicate MustSignIn(signedIn: bool, path: string) {
    !signedIn && !StartsWith(path, "/login") && !StartsWith(path, "/auth") && IsGuarded(path)
  }

  /** `middleware(request)`: `user` is the signed-in user's id, if any, and
      `session` the response the session client prepared. */
  function HandleRequest<R>(user: Option<string>, url: Url, session: R): (r: Outcome<R>)
    ensures r.Redirect? <==> user.None? && IsGuarded(url.pathname)
    ensures r.Redirect? ==> r.location.pathname == "/login" && r.location.origin == url.origin
                            && r.location.search == url.search && r.location.hash == url.hash
    ensures r.PassThrough? ==> r.response == session
  {
    SignInPagesAreNotGuarded(url.pathname);
    if MustSignIn(user.Some?, url.pathname) then Redirect(url.(pathname := "/login"))
    else PassThrough(session)
  }

  /** No sign-in page is guarded, so the exclusion of `/login` and `/auth`
      never changes the outcome. */
  lemma SignInPagesAreNotGuarded(path: string)
    ensures IsSignInPage(path) ==> !IsGuarded(path)
    ensures MustSignIn(false, path) <==> IsGuarded(path)
  {
    if StartsWith(path, "/login") || StartsWith(path, "/auth") {
      assert path[1] == (if StartsWith(path, "/login") then "/login"[1] else "/auth"[1]);
      assert "/saved-homes"[1] == 's' && "/saved-searches"[1] == 's' && "/account"[1] == 'a';
      assert StartsWith(path, "/auth") ==> path[2] == 'u' != "/account"[2];
    }
  }

  /** The redirect target is not guarded, so following the redirect does
      not redirect again. */
  lemma RedirectDoesNotLoop<R>(url: Url, session: R)
    requires HandleRequest(None, url, session).Redirect?
    ensures HandleRequest(None, HandleRequest(None, url, session).location, session).PassThrough?
  {
    var login := HandleRequest(None, url, session).location;
    assert login.pathname == "/login";
    assert !StartsWith(login.pathname, "/saved-homes") && !StartsWith(login.pathname, "/saved-searches");
    assert !StartsWith(login.pathname, "/account") by {
      assert login.pathname[1] != "/account"[1];
    }
  }

  /** Guarding is by prefix: `/accounting` is guarded too. */
  lemma AccountingIsGuarded<R>(origin: string, session: R)
    ensures HandleRequest(None, Url(origin, "/accounting", "", ""), session).Redirect?
  {
    assert "/accounting"[..|"/account"|] == "/account";
  }

  /** The dashboard and the admin pages are not guarded. */
  lemma DashboardAndAdminPass<R>(origin: string, session: R)
    ensures HandleRequest(None, Url(origin, "/dashboard", "", ""), session).PassThrough?
    ensures HandleRequest(None, Url(origin, "/admin", "", ""), session).PassThrough?
  {
    assert "/dashboard"[1] == 'd' && "/admin"[1] == 'a' && "/admin"[2] == 'd';
    assert !StartsWith("/dashboard", "/account") by { assert "/dashboard"[1] != "/account"[1]; }
    assert !StartsWith("/admin", "/account") by { assert "/admin"[2] != "/account"[2]; }
  }
}
