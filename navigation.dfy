/** The navigation bar's choice of which link to highlight. */
module Navigation {
  import opened Text

  /**
   * `isActive(path)` on the current `pathname`: the home link only on "/"
   * itself, any other link on every pathname it is a prefix of.
   */
  predicate IsActive(pathname: string, path: string) {
    (path == "/" && pathname == "/") || (path != "/" && StartsWith(pathname, path))
  }

  /** The home link is highlighted exactly on "/". */
  lemma HomeActiveOnlyAtRoot(pathname: string)
    ensures IsActive(pathname, "/") <==> pathname == "/"
  {
  }

  /** Any other link is highlighted on itself and on every extension of it, separator or not. */
  lemma {:induction false} ActiveOnExtensions(path: string, rest: string)
    requires path != "/"
    ensures IsActive(path + rest, path)
  {
    assert (path + rest)[..|path|] == path;
  }

  /** A link is only highlighted on pathnames that begin with it. */
  lemma ActiveMeansPrefix(pathname: string, path: string)
    requires IsActive(pathname, path)
    ensures exists rest :: pathname == path + rest
  {
    assert pathname == path + pathname[|path|..];
  }

  /** "/issues" stays highlighted on an issue's page. */
  lemma IssuesActiveOnIssuePage()
    ensures IsActive("/issues/42", "/issues")
  {
    var p := "/issues";
    assert "/issues/42" == p + "/42";
    ActiveOnExtensions(p, "/42");
  }

  /** The prefix is raw, not by path segment: "/users" is highlighted on "/usersX". */
  lemma UsersActiveOnUsersX()
    ensures IsActive("/usersX", "/users")
  {
    var p := "/users";
    assert "/usersX" == p + "X";
    ActiveOnExtensions(p, "X");
  }
}
