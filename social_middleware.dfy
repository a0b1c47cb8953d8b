/**
 * `LoginRequiredMiddleware` (social_network/middleware.py): anonymous
 * requests are sent to the login page unless they ask for the login or the
 * registration page. The social_network URLs are mounted under
 * `/social_network/` (the login URL fbv.py passes to `login_required`).
 */
module SocialMiddleware {

  const LoginPath: string := "/social_network/login/"
  const RegisterPath: string := "/social_network/api/register/"

  /** `EXEMPT_URLS`: `reverse('login_page')` and `reverse('register_user')`. */
  const ExemptUrls: seq<string> := [LoginPath, RegisterPath]

  datatype Request = Request(authenticated: bool, path: string)

  /** Either the downstream handler ran and its response is returned, or the login redirect is. */
  datatype Outcome<R> = Forwarded(response: R) | Redirected(location: string)

  /** `__call__`; `getResponse` is the rest of the request pipeline. */
  function Handle<R>(req: Request, getResponse: Request -> R): (o: Outcome<R>)
    ensures o.Redirected? <==> !req.authenticated && req.path !in ExemptUrls
    ensures o.Forwarded? ==> o.response == getResponse(req)
    ensures o.Redirected? ==> o.location == LoginPath
  {
    if !req.authenticated && req.path !in ExemptUrls then Redirected(LoginPath)
    else Forwarded(getResponse(req))
  }

  /** An authenticated request always reaches the handler, whatever its path. */
  lemma AuthenticatedPassesThrough<R>(path: string, getResponse: Request -> R)
    ensures Handle(Request(true, path), getResponse) == Forwarded(getResponse(Request(true, path)))
  {
  }

  /**
   * Exactly two paths are open to anonymous users: an anonymous request is
   * forwarded iff it asks for the login or the registration page.
   */
  lemma ExactlyTwoExemptPaths<R>(path: string, getResponse: Request -> R)
    ensures Handle(Request(false, path), getResponse).Forwarded? <==> path == LoginPath || path == RegisterPath
    ensures LoginPath != RegisterPath
  {
    assert LoginPath[16] == 'l' && RegisterPath[16] == 'a';
  }
}
