/**
 * The route guard (components/AuthGuard.tsx): public paths render without a session token;
 * any other path needs one, and without it the guard redirects to the login page.
 */
module AuthGuard {
  import opened Wrappers
  import Session

  const PublicPaths: seq<string> := ["/", "/signup"]

  const LoginPath := "/"

  predicate IsPublicPath(path: string) {
    path in PublicPaths
  }

  /** `if (!token)`: a token counts when present and non-empty. */
  predicate HasToken(token: Option<string>) {
    token.Some? && token.value != ""
  }

  /** What the guard's effect does. */
  datatype EffectAction = RedirectTo(target: string) | Authorize

  function EffectDecision(token: Option<string>, path: string): (d: EffectAction)
    ensures d.RedirectTo? <==> !HasToken(token) && !IsPublicPath(path)
    ensures d.RedirectTo? ==> d.target == LoginPath
  {
    if !HasToken(token) && !IsPublicPath(path) then RedirectTo(LoginPath) else Authorize
  }

  /** isAuthorized after the effect: set by Authorize, never cleared. */
  function AuthorizedAfter(isAuthorized: bool, token: Option<string>, path: string): (r: bool)
    ensures r <==> isAuthorized || HasToken(token) || IsPublicPath(path)
  {
    if EffectDecision(token, path) == Authorize then true else isAuthorized
  }

  /** The render rule: children are shown unless the guard is unauthorized on a protected path. */
  function ShowsChildren(isAuthorized: bool, path: string): (r: bool)
    ensures IsPublicPath(path) ==> r
    ensures isAuthorized ==> r
    ensures !isAuthorized && !IsPublicPath(path) ==> !r
  {
    !(!isAuthorized && !IsPublicPath(path))
  }

  /** The public paths are exactly the login page and the signup page. */
  lemma PublicPathsExact(path: string)
    ensures IsPublicPath(path) <==> path == "/" || path == "/signup"
  {
  }

  /** The redirect target is itself public, so following a redirect never redirects again. */
  lemma RedirectTargetIsPublic(token: Option<string>, path: string)
    requires EffectDecision(token, path).RedirectTo?
    ensures var target := EffectDecision(token, path).target;
            EffectDecision(token, target) == Authorize && ShowsChildren(false, target)
  {
  }

  /** Before its effect has run, a fresh guard hides a protected path and shows a public one. */
  lemma FirstRender(path: string)
    ensures ShowsChildren(false, path) <==> IsPublicPath(path)
  {
  }

  /** After a logout removes the token, every protected path redirects to the login page. */
  lemma LoggedOutIsRedirected(items: map<string, string>, path: string)
    requires !IsPublicPath(path)
    ensures EffectDecision(Session.GetItem(items - {Session.TokenKey}, Session.TokenKey), path) == RedirectTo(LoginPath)
  {
  }

  /**
   * isAuthorized is never reset: a guard instance that once authorized keeps showing a protected
   * path after the token is gone, while its effect still asks for the redirect.
   */
  lemma AuthorizationIsSticky(token: Option<string>, path: string, later: string)
    requires HasToken(token) && !IsPublicPath(later)
    ensures var a := AuthorizedAfter(AuthorizedAfter(false, token, path), None, later);
            a && ShowsChildren(a, later) && EffectDecision(None, later) == RedirectTo(LoginPath)
  {
  }

  class AuthGuard {
    var isAuthorized: bool

    constructor ()
      ensures !isAuthorized
    {
      isAuthorized := false;
    }

    /** The effect on [pathname]: read the token, then redirect or authorize. */
    method RunEffect(store: Session.SessionStore, path: string) returns (redirect: Option<string>)
      modifies this
      ensures var d := EffectDecision(Session.GetItem(store.items, Session.TokenKey), path);
              && isAuthorized == AuthorizedAfter(old(isAuthorized), Session.GetItem(store.items, Session.TokenKey), path)
              && (redirect.Some? <==> d.RedirectTo?)
              && (redirect.Some? ==> redirect.value == LoginPath)
    {
      var token := Session.GetItem(store.items, Session.TokenKey);
      if !HasToken(token) && !IsPublicPath(path) {
        redirect := Some(LoginPath);
      } else {
        redirect := None;
        isAuthorized := true;
      }
    }

    /** Whether the guard renders its children on path. */
    method Render(path: string) returns (shown: bool)
      ensures shown == ShowsChildren(isAuthorized, path)
    {
      shown := isAuthorized || IsPublicPath(path);
    }
  }
}
