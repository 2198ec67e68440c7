/** The root layout's auth redirect rule (app/_layout.tsx).

    On every change of the signed-in user, the loading flag or the route
    segments, the layout's effect decides whether to replace the current
    route: a visitor without a user outside the "(auth)" route group is sent
    to "/sign-in", a signed-in user inside it is sent to "/". While loading,
    the effect does nothing and the layout renders nothing.

    `loading` is read from the auth context, whose type carries only `user`
    and `signOut` (context/auth.tsx:10-13), so at run time it is `undefined`.
    The model therefore takes it as an optional flag and applies JavaScript
    truthiness to it. Navigation itself is not performed: the rule returns
    the route it would replace the current one with.
 */
module RootLayout {
  import opened Wrappers

  /** The route group of the sign-in and sign-up screens. */
  const AuthGroup := "(auth)"

  const SignInRoute := "/sign-in"
  const HomeRoute := "/"

  /** What the effect does: nothing, or `router.replace(route)`. */
  datatype Redirect = Stay | ReplaceWith(route: string)

  /** What the layout produces: the redirect its effect performs, and whether
      it renders the screen stack (`false` for `return null`). */
  datatype Layout = Layout(redirect: Redirect, rendersStack: bool)

  /** JavaScript truthiness of the loading flag; `None` is `undefined`. */
  predicate Truthy(flag: Option<bool>) {
    flag == Some(true)
  }

  /** `segments[0] === group`: false for an empty segment list, where
      `segments[0]` is `undefined`. */
  predicate InGroup(segments: seq<string>, group: string) {
    |segments| > 0 && segments[0] == group
  }

  /** The decision inside the effect. A redirect happens exactly when nothing
      is loading and the user's presence matches the "(auth)" group (no user
      outside it, or a user inside it); the target is "/sign-in" in the first
      case and "/" in the second, so the rule never issues both. */
  function RedirectDecision(signedIn: bool, loading: Option<bool>, segments: seq<string>): (r: Redirect)
    ensures r != Stay <==> !Truthy(loading) && signedIn == InGroup(segments, AuthGroup)
    ensures r == ReplaceWith(SignInRoute) <==>
      !Truthy(loading) && !signedIn && !InGroup(segments, AuthGroup)
    ensures r == ReplaceWith(HomeRoute) <==>
      !Truthy(loading) && signedIn && InGroup(segments, AuthGroup)
  {
    if Truthy(loading) then
      Stay
    else
      var inAuthGroup := InGroup(segments, AuthGroup);
      if !signedIn && !inAuthGroup then ReplaceWith(SignInRoute)
      else if signedIn && inAuthGroup then ReplaceWith(HomeRoute)
      else Stay
  }

  /** `RootLayoutNav`: while loading it performs no redirect and renders
      nothing; otherwise it renders the stack and its effect applies the
      redirect rule. */
  function RootLayoutNav(signedIn: bool, loading: Option<bool>, segments: seq<string>): (v: Layout)
    ensures Truthy(loading) ==> v == Layout(Stay, false)
    ensures !Truthy(loading) ==> v.rendersStack && v.redirect == RedirectDecision(signedIn, Some(false), segments)
  {
    Layout(RedirectDecision(signedIn, loading, segments), !Truthy(loading))
  }

  /** The decision reads the segments only through their first element:
      lists that agree on whether they start with "(auth)" get the same
      decision. In particular the "(tabs)" test computed beside it has no
      effect. */
  lemma DependsOnFirstSegmentOnly(signedIn: bool, loading: Option<bool>, a: seq<string>, b: seq<string>)
    requires InGroup(a, AuthGroup) == InGroup(b, AuthGroup)
    ensures RedirectDecision(signedIn, loading, a) == RedirectDecision(signedIn, loading, b)
  {
  }

  /** With the auth context as it is typed, `loading` is `undefined`, and
      the layout behaves as if loading were over. */
  lemma UndefinedLoadingIsNotLoading(signedIn: bool, segments: seq<string>)
    ensures RootLayoutNav(signedIn, None, segments) == RootLayoutNav(signedIn, Some(false), segments)
  {
  }

  /** The rule is idempotent: once its own target is reached it asks for no
      further redirect. This rests on the route layout, stated as the
      precondition: "/sign-in" lies in the "(auth)" group and "/" does not. */
  lemma RedirectSettles(signedIn: bool, loading: Option<bool>, segments: seq<string>,
                        signInSegments: seq<string>, homeSegments: seq<string>)
    requires InGroup(signInSegments, AuthGroup)
    requires !InGroup(homeSegments, AuthGroup)
    ensures var r := RedirectDecision(signedIn, loading, segments);
      (r == ReplaceWith(SignInRoute) ==> RedirectDecision(signedIn, loading, signInSegments) == Stay) &&
      (r == ReplaceWith(HomeRoute) ==> RedirectDecision(signedIn, loading, homeSegments) == Stay)
  {
  }
}
