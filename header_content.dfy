/** The header slot that hides its children on the sign-in pages
    (src/components/header-content.tsx). The children are any value; the
    rendered output is None for "nothing". */
module HeaderContent {
  import opened Basics

  const AuthPaths: seq<string> := ["/login", "/signup", "/forgot-password"]

  /** `AUTH_PATHS.includes(pathname)`: an exact match, not a prefix. */
  predicate HideContent(pathname: string) {
    pathname in AuthPaths
  }

  /** Hidden exactly on the three authentication pages. */
  lemma HideContentIff(pathname: string)
    ensures HideContent(pathname) <==>
      pathname == "/login" || pathname == "/signup" || pathname == "/forgot-password"
  {
  }

  /** A page below an authentication path still shows the content. */
  lemma SubpathNotHidden()
    ensures !HideContent("/login/reset")
  {
    assert "/login/reset" != "/login" by { assert |"/login/reset"| != |"/login"|; }
    assert "/login/reset" != "/signup" by { assert |"/login/reset"| != |"/signup"|; }
    assert "/login/reset" != "/forgot-password" by { assert |"/login/reset"| != |"/forgot-password"|; }
  }

  /** The component: nothing on an authentication page, otherwise the
      children unchanged. */
  function Render<C>(pathname: string, children: C): (r: Option<C>)
    ensures r.None? <==> HideContent(pathname)
    ensures r.Some? ==> r.value == children
  {
    if HideContent(pathname) then None else Some(children)
  }
}
