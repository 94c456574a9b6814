/** middleware.ts: the `authorized` callback that decides whether a request may proceed. */
module Middleware {
  import opened Common

  const AuthPrefix := "/auth"
  const Home := "/"

  /** The path prefixes that need a session token. */
  const ProtectedPrefixes := ["/dashboard", "/api/recipes", "/api/ingredients", "/api/food-waste", "/api/household"]

  predicate IsProtected(pathname: string) {
    exists k :: 0 <= k < |ProtectedPrefixes| && StartsWith(pathname, ProtectedPrefixes[k])
  }

  /** No protected path starts with "/auth" or is "/": the five prefixes all differ from "/auth"
    * within their first three characters and are longer than "/". */
  lemma ProtectedIsNotPublic(pathname: string)
    ensures IsProtected(pathname) ==> !StartsWith(pathname, AuthPrefix) && pathname != Home
  {
    if IsProtected(pathname) {
      var k :| 0 <= k < |ProtectedPrefixes| && StartsWith(pathname, ProtectedPrefixes[k]);
      var p := ProtectedPrefixes[k];
      assert pathname[..|p|] == p;
      assert pathname[1] == p[1] && pathname[2] == p[2];
      assert k == 0 || k == 1 || k == 2 || k == 3 || k == 4;
      assert p[1] == 'd' || p[2] == 'p';
    }
  }

  /** `authorized({ req, token })`, with `hasToken` for `!!token`: the checks run in source order. */
  function Authorized(pathname: string, hasToken: bool): (r: bool)
    ensures hasToken ==> r
    ensures !hasToken ==> (r <==> !IsProtected(pathname))
  {
    ProtectedIsNotPublic(pathname);
    if StartsWith(pathname, AuthPrefix) then true
    else if pathname == Home then true
    else if IsProtected(pathname) then hasToken
    else true
  }

  /** Any path starting with "/auth", and the exact path "/", are open with or without a token. */
  lemma PublicPaths(pathname: string, hasToken: bool)
    requires StartsWith(pathname, AuthPrefix) || pathname == Home
    ensures Authorized(pathname, hasToken)
  {
    ProtectedIsNotPublic(pathname);
  }

  /** Matching is on raw prefixes, not path segments: "/dashboardX" needs a token, "/authors" does not. */
  lemma RawPrefixMatching()
    ensures !Authorized("/dashboardX", false)
    ensures Authorized("/authors", false)
  {
    assert StartsWith("/dashboardX", ProtectedPrefixes[0]);
  }
}
