/** The request guard of goddessgpt-ui/middleware.ts, as a decision on
    (authenticated?, pathname, development mode?). Whether a session token
    exists comes from next-auth and is an input here. The exported matcher
    decides which requests reach the guard at all. */
module RouteGuard {
  import opened Js

  datatype Decision = Next | Redirect(to: string)

  const ProtectedRoutes: seq<string> := ["/chat", "/community"]

  /** `protectedRoutes.some(route => pathname.startsWith(route))`: a prefix
      test, so `/chatroom` counts as protected too. */
  predicate IsProtected(pathname: string) {
    exists k :: 0 <= k < |ProtectedRoutes| && StartsWith(pathname, ProtectedRoutes[k])
  }

  /** `middleware`. */
  function Middleware(isAuthenticated: bool, pathname: string, isDevelopment: bool): (d: Decision)
    ensures d == Redirect("/") <==> !isAuthenticated && IsProtected(pathname) && !isDevelopment
    ensures d == Redirect("/chat") <==> isAuthenticated && pathname == "/"
    ensures d.Redirect? ==> d.to == "/" || d.to == "/chat"
  {
    if !isAuthenticated && IsProtected(pathname) then
      if isDevelopment then Next else Redirect("/")
    else if isAuthenticated && pathname == "/" then
      Redirect("/chat")
    else
      Next
  }

  /** `config.matcher`: `'/'`, `'/chat/:path*'` and `'/community/:path*'`,
      where `:path*` is zero or more further path segments. */
  predicate Matched(pathname: string) {
    || pathname == "/"
    || pathname == "/chat" || StartsWith(pathname, "/chat/")
    || pathname == "/community" || StartsWith(pathname, "/community/")
  }

  /** A request as the application handles it: the guard runs on matched
      paths only. */
  function Handle(isAuthenticated: bool, pathname: string, isDevelopment: bool): (d: Decision)
    ensures !Matched(pathname) ==> d == Next
    ensures Matched(pathname) ==> d == Middleware(isAuthenticated, pathname, isDevelopment)
  {
    if Matched(pathname) then Middleware(isAuthenticated, pathname, isDevelopment) else Next
  }

  /** Among the paths the matcher lets through, the prefix test protects
      exactly `/chat` and `/community` and the paths below them. */
  lemma MatchedProtectedAreSections(pathname: string)
    ensures Matched(pathname) && IsProtected(pathname) <==>
              || pathname == "/chat" || StartsWith(pathname, "/chat/")
              || pathname == "/community" || StartsWith(pathname, "/community/")
  {
    ProtectedPrefixes(pathname);
    if pathname == "/chat" || StartsWith(pathname, "/chat/") {
      assert pathname[..5] == "/chat";
    }
    if pathname == "/community" || StartsWith(pathname, "/community/") {
      assert pathname[..10] == "/community";
    }
    if pathname == "/" {
      assert !StartsWith(pathname, "/chat") && !StartsWith(pathname, "/community");
    }
  }

  /** The two prefix tests, spelled out. */
  lemma ProtectedPrefixes(pathname: string)
    ensures IsProtected(pathname) <==> StartsWith(pathname, "/chat") || StartsWith(pathname, "/community")
  {
    if StartsWith(pathname, "/chat") {
      assert StartsWith(pathname, ProtectedRoutes[0]);
    }
    if StartsWith(pathname, "/community") {
      assert StartsWith(pathname, ProtectedRoutes[1]);
    }
  }

  /** An authenticated user is never sent away from a protected page, and
      `/` itself is not protected. */
  lemma AuthenticatedKeepsProtectedPages(pathname: string, isDevelopment: bool)
    requires IsProtected(pathname)
    ensures Middleware(true, pathname, isDevelopment) == Next
  {
    var k :| 0 <= k < |ProtectedRoutes| && StartsWith(pathname, ProtectedRoutes[k]);
    assert |pathname| >= 5;
  }

  /** Development mode lets every request through except the authenticated
      visit to `/`, which goes to `/chat`. */
  lemma DevelopmentOnlyRedirectsHome(isAuthenticated: bool, pathname: string)
    ensures Middleware(isAuthenticated, pathname, true)
         == if isAuthenticated && pathname == "/" then Redirect("/chat") else Next
  {
  }

  /** Every request that is not one of the two redirect cases passes through. */
  lemma OtherwiseNext(isAuthenticated: bool, pathname: string, isDevelopment: bool)
    requires !(!isAuthenticated && IsProtected(pathname) && !isDevelopment)
    requires !(isAuthenticated && pathname == "/")
    ensures Middleware(isAuthenticated, pathname, isDevelopment) == Next
  {
  }

  /** The prefix test alone admits paths that only begin like a protected
      route; the matcher keeps them from reaching it. */
  lemma PrefixQuirk()
    ensures IsProtected("/chatroom") && IsProtected("/community-guidelines")
    ensures !IsProtected("/") && !IsProtected("/pricing")
    ensures Handle(false, "/chatroom", false) == Next
  {
    assert !StartsWith("/chatroom", "/chat/") by { assert "/chatroom"[5] != '/'; }
    assert !StartsWith("/chatroom", "/community/");
    assert !Matched("/chatroom");
    ProtectedPrefixes("/chatroom");
    ProtectedPrefixes("/community-guidelines");
    ProtectedPrefixes("/");
    ProtectedPrefixes("/pricing");
    assert "/pricing"[..5] != "/chat" by { assert "/pricing"[1] != "/chat"[1]; }
  }
}
