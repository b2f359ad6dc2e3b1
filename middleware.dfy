/**
 * The authentication gate run on dashboard and login requests: a request is
 * sent to `/login`, sent to `/dashboard`, or let through, depending on its
 * path and on the value of its `auth` cookie (None when the cookie is absent).
 */
module Middleware {
  import opened Collections
  import opened JsText

  datatype Decision = Redirect(location: string) | Next

  /** `middleware(request)` */
  function Gate(path: string, auth: Option<string>): (r: Decision)
    ensures r.Redirect? ==> r.location in {"/login", "/dashboard"} && r.location != path
  {
    if StartsWith(path, "/dashboard") && auth != Some("true") then Redirect("/login")
    else if path == "/login" && auth == Some("true") then Redirect("/dashboard")
    else Next
  }

  /**
   * The three outcomes: dashboard paths without the cookie value `true` go to
   * `/login`; `/login` with it goes to `/dashboard`; nothing else is redirected.
   */
  lemma GateOutcomes(path: string, auth: Option<string>)
    ensures Gate(path, auth) == Redirect("/login") <==> StartsWith(path, "/dashboard") && auth != Some("true")
    ensures Gate(path, auth) == Redirect("/dashboard") <==> path == "/login" && auth == Some("true")
    ensures Gate(path, auth).Next? <==>
              !(StartsWith(path, "/dashboard") && auth != Some("true"))
              && !(path == "/login" && auth == Some("true"))
  {
  }

  /** No path takes both redirect branches: `/login` is no dashboard path. */
  lemma RedirectBranchesExclusive(path: string, auth: Option<string>)
    ensures !(StartsWith(path, "/dashboard") && path == "/login")
  {
    if path == "/login" {
      assert |path| < |"/dashboard"|;
    }
  }

  /** Following a redirect with the same cookie is let through: there is no redirect loop. */
  lemma NoRedirectLoop(path: string, auth: Option<string>)
    ensures Gate(path, auth).Redirect? ==> Gate(Gate(path, auth).location, auth) == Next
  {
    assert StartsWith("/dashboard", "/dashboard");
    assert !StartsWith("/login", "/dashboard");
  }
}
