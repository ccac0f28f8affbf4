/**
 The route table and the global navigation guard of the front-end router.

 A navigation resolves the requested path against the table, then asks the
 guard; the guard either lets it through or names a path to go to instead,
 which the router treats as a fresh navigation (and guards again).
 */
module Router {
  import opened Wrappers
  import opened Credential

  const RootPath: string := "/"
  const LoginPath: string := "/login"
  const RegisterPath: string := "/register"
  const LoadingPath: string := "/loading"
  const LobbyPath: string := "/lobby"
  const GamePath: string := "/game"

  /** One record of the route table: a named screen, or a plain redirect. */
  datatype RouteRecord =
    | View(path: string, name: string, requiresAuth: bool)
    | Redirect(path: string, target: string)

  /** The application's route table, in declaration order. */
  const Routes: seq<RouteRecord> := [
    Redirect(RootPath, LoginPath),
    View(LoginPath, "login", false),
    View(RegisterPath, "register", false),
    View(LoadingPath, "loading", true),
    View(LobbyPath, "lobby", true),
    View(GamePath, "game", true)
  ]

  /** What the guard sees of a navigation: `to.path` and `to.meta.requiresAuth`. */
  datatype Target = Target(path: string, requiresAuth: bool)

  /** ASCII lower-casing of one character. */
  function LowerChar(c: char): char {
    if 'A' <= c <= 'Z' then (c as int + 32) as char else c
  }

  /** Equal up to ASCII letter case, compared character by character. */
  predicate SameLetters(a: string, b: string)
    decreases |a|
  {
    && |a| == |b|
    && (|a| == 0 || (LowerChar(a[0]) == LowerChar(b[0]) && SameLetters(a[1..], b[1..])))
  }

  /**
   Whether a record declared at `recordPath` matches the requested `path`.
   The router's default matcher is neither case-sensitive nor strict: letter
   case is ignored and the declared path may be followed by one `/`. So the
   root record `/` matches `/` and `//` but not the empty path.
   */
  predicate Matches(recordPath: string, path: string) {
    SameLetters(recordPath, path) || SameLetters(recordPath + "/", path)
  }

  /** Index of the first record matching `path`, if there is one. */
  function Lookup(routes: seq<RouteRecord>, path: string): (r: Option<nat>)
    ensures r.Some? ==> r.value < |routes| && Matches(routes[r.value].path, path)
    ensures r.Some? ==> forall j | 0 <= j < r.value :: !Matches(routes[j].path, path)
    ensures r.None? <==> forall j | 0 <= j < |routes| :: !Matches(routes[j].path, path)
  {
    if |routes| == 0 then None
    else if Matches(routes[0].path, path) then Some(0)
    else
      match Lookup(routes[1..], path)
      case None => None
      case Some(i) => Some(i + 1)
  }

  /** The `requiresAuth` flag of the record matching `path`; unmatched paths and redirects carry none. */
  function MetaAt(path: string): bool {
    match Lookup(Routes, path)
    case None => false
    case Some(i) => Routes[i].View? && Routes[i].requiresAuth
  }

  /**
   The navigation target a requested path resolves to: a redirect record is
   followed before any guard runs; a path matched by a screen keeps the
   spelling it was requested with; an unmatched path has an empty `meta`.
   */
  function Resolve(path: string): (t: Target)
    ensures Lookup(Routes, path).None? ==> t == Target(path, false)
    ensures t.path == path || (Matches(RootPath, path) && t == Target(LoginPath, false))
    ensures t.requiresAuth ==>
      exists i | 0 <= i < |Routes| :: Routes[i].View? && Routes[i].requiresAuth && Matches(Routes[i].path, path)
  {
    match Lookup(Routes, path)
    case None => Target(path, false)
    case Some(i) =>
      match Routes[i]
      case Redirect(_, target) =>
        assert i == 0 && target == LoginPath;
        LoginIsOpen();
        Target(target, MetaAt(target))
      case View(_, _, requiresAuth) =>
        assert requiresAuth ==> Routes[i].View? && Routes[i].requiresAuth && Matches(Routes[i].path, path);
        Target(path, requiresAuth)
  }

  /** The screens meant only for visitors without a session. */
  predicate GuestOnly(path: string) {
    path == LoginPath || path == RegisterPath
  }

  /**
   The access policy the guard enforces: a protected page needs a session,
   and a guest-only page is for visitors without one.
   */
  predicate Permitted(to: Target, token: Option<string>) {
    && (to.requiresAuth ==> Present(token))
    && (GuestOnly(to.path) ==> !Present(token))
  }

  /** The `beforeEach` hook: `None` lets the navigation proceed, `Some(p)` redirects to `p`. */
  function Guard(to: Target, token: Option<string>): (r: Option<string>)
    ensures r == Some(LoginPath) <==> to.requiresAuth && !Present(token)
    ensures r == Some(LobbyPath) <==> GuestOnly(to.path) && Present(token)
    ensures r.None? <==> Permitted(to, token)
  {
    if to.requiresAuth && !Present(token) then Some(LoginPath)
    else if (to.path == LoginPath || to.path == RegisterPath) && Present(token) then Some(LobbyPath)
    else None
  }

  /** The lookup finds the first record matching the path, and only that one. */
  lemma LookupFirst(routes: seq<RouteRecord>, path: string, k: nat)
    requires k < |routes| && Matches(routes[k].path, path)
    requires forall j | 0 <= j < k :: !Matches(routes[j].path, path)
    ensures Lookup(routes, path) == Some(k)
  {
  }

  /** Letters equal up to case agree, up to case, at every position. */
  lemma {:induction false} SameLettersAt(a: string, b: string, i: nat)
    requires SameLetters(a, b) && i < |a|
    ensures LowerChar(a[i]) == LowerChar(b[i])
    decreases i
  {
    if i > 0 {
      SameLettersAt(a[1..], b[1..], i - 1);
    }
  }

  /** A matched path is the declared path, perhaps with one more `/`, and agrees with it letter by letter. */
  lemma MatchesAt(recordPath: string, path: string, i: nat)
    requires Matches(recordPath, path) && i < |recordPath|
    ensures |recordPath| <= |path| <= |recordPath| + 1
    ensures LowerChar(path[i]) == LowerChar(recordPath[i])
  {
    if SameLetters(recordPath, path) {
      SameLettersAt(recordPath, path, i);
    } else {
      SameLettersAt(recordPath + "/", path, i);
    }
  }

  /** No path matches two records of the table. */
  lemma RecordsDisjoint(j: nat, k: nat, path: string)
    requires j < k < |Routes|
    ensures !(Matches(Routes[j].path, path) && Matches(Routes[k].path, path))
  {
    if Matches(Routes[j].path, path) && Matches(Routes[k].path, path) {
      MatchesAt(Routes[j].path, path, 0);
      MatchesAt(Routes[k].path, path, 1);
      if j > 0 {
        MatchesAt(Routes[j].path, path, 1);
        if j == 1 && k == 4 {
          MatchesAt(Routes[j].path, path, 3);
          MatchesAt(Routes[k].path, path, 3);
        }
      }
      assert false;
    }
  }

  /** Every path matches a record declared at that very path. */
  lemma {:induction false} MatchesItself(path: string)
    ensures Matches(path, path)
  {
    SameLettersItself(path);
  }

  /** Equality up to letter case is reflexive. */
  lemma {:induction false} SameLettersItself(a: string)
    ensures SameLetters(a, a)
    decreases |a|
  {
    if |a| > 0 {
      SameLettersItself(a[1..]);
    }
  }

  /** The redirect target `/login` is an open screen. */
  lemma LoginIsOpen()
    ensures MetaAt(LoginPath) == false
  {
    LookupFirst(Routes, LoginPath, 1);
  }

  /** What every path of the table resolves to, and where the root redirects. */
  lemma ResolveTable()
    ensures Resolve(RootPath) == Target(LoginPath, false)
    ensures forall k | 1 <= k < |Routes| :: Resolve(Routes[k].path) == Target(Routes[k].path, Routes[k].requiresAuth)
  {
    MatchesItself(RootPath);
    LookupFirst(Routes, RootPath, 0);
    LoginIsOpen();
    forall k | 1 <= k < |Routes|
      ensures Resolve(Routes[k].path) == Target(Routes[k].path, Routes[k].requiresAuth)
    {
      MatchesItself(Routes[k].path);
      MatchedScreen(Routes[k].path, k);
    }
  }

  /**
   A requested path is protected exactly when the matcher takes it for
   `/loading`, `/lobby` or `/game`, in any letter case and with or without a
   trailing `/`; every other path, matched or not, is open.
   */
  lemma ProtectedRoutes(path: string)
    ensures Resolve(path).requiresAuth <==>
      Matches(LoadingPath, path) || Matches(LobbyPath, path) || Matches(GamePath, path)
  {
    if Resolve(path).requiresAuth {
      var i :| 0 <= i < |Routes| && Routes[i].View? && Routes[i].requiresAuth && Matches(Routes[i].path, path);
      assert 3 <= i;
    } else if Matches(LoadingPath, path) {
      MatchedScreen(path, 3);
    } else if Matches(LobbyPath, path) {
      MatchedScreen(path, 4);
    } else if Matches(GamePath, path) {
      MatchedScreen(path, 5);
    }
  }

  /** A path the matcher takes for a screen's path resolves to that screen, in its own spelling. */
  lemma MatchedScreen(path: string, k: nat)
    requires 1 <= k < |Routes| && Matches(Routes[k].path, path)
    ensures Resolve(path) == Target(path, Routes[k].requiresAuth)
  {
    MatchedRecord(path, k);
    assert Routes[k].View?;
  }

  /** A path the matcher takes for a record's path is looked up to that record. */
  lemma MatchedRecord(path: string, k: nat)
    requires k < |Routes| && Matches(Routes[k].path, path)
    ensures Lookup(Routes, path) == Some(k)
  {
    forall j | 0 <= j < k
      ensures !Matches(Routes[j].path, path)
    {
      RecordsDisjoint(j, k, path);
    }
    LookupFirst(Routes, path, k);
  }

  /** The two redirect targets resolve to themselves: `/login` open, `/lobby` protected. */
  lemma RedirectTargets()
    ensures Resolve(LoginPath) == Target(LoginPath, false)
    ensures Resolve(LobbyPath) == Target(LobbyPath, true)
  {
    MatchesItself(LoginPath);
    MatchedScreen(LoginPath, 1);
    MatchesItself(LobbyPath);
    MatchedScreen(LobbyPath, 4);
  }

  /**
   Another spelling of a protected path reaches the same screen, keeps its
   own spelling, and without a session is sent to the login screen.
   */
  lemma ProtectedSpelling()
    ensures Resolve("/Lobby/") == Target("/Lobby/", true)
    ensures Navigate("/Lobby/", None) == Target(LoginPath, false)
  {
    var p := "/Lobby/";
    assert LobbyPath + "/" == "/lobby/";
    assert SameLetters("/lobby/", p);
    MatchedScreen(p, 4);
    assert !Permitted(Resolve(p), None);
  }

  /**
   The guard tests the literal path `/login`, so `/Login` reaches the login
   screen yet a visitor with a session is not sent on to the lobby.
   */
  lemma GuestSpelling()
    ensures Navigate("/Login", Some("t")) == Target("/Login", false)
  {
    var p := "/Login";
    MatchedScreen(p, 1);
  }

  /**
   The root pattern accepts `/` followed by one optional `/`: `//` is sent to
   `/login` (and on to the lobby with a session), while the empty path
   matches no record.
   */
  lemma RootSpellings()
    ensures Resolve("//") == Target(LoginPath, false)
    ensures Navigate("//", Some("t")) == Target(LobbyPath, true)
    ensures Resolve("") == Target("", false)
  {
    assert SameLetters(RootPath + "/", "//");
    LookupFirst(Routes, "//", 0);
    LoginIsOpen();
    RedirectTargets();
    forall j | 0 <= j < |Routes|
      ensures !Matches(Routes[j].path, "")
    {
      if Matches(Routes[j].path, "") {
        MatchesAt(Routes[j].path, "", 0);
      }
    }
  }

  /** A redirect never leads to another: the guard lets the redirect target through under the same token. */
  lemma NoRedirectLoop(to: Target, token: Option<string>)
    requires Guard(to, token).Some?
    ensures Guard(Resolve(Guard(to, token).value), token).None?
  {
    RedirectTargets();
  }

  /** The decision depends on the token's presence only, never on its contents. */
  lemma GuardIgnoresTokenContents(to: Target, token1: Option<string>, token2: Option<string>)
    requires Present(token1) == Present(token2)
    ensures Guard(to, token1) == Guard(to, token2)
  {
  }

  /**
   Where a navigation to `path` finally lands: the guard runs on the resolved
   target, and a redirect is a new navigation that the guard checks again.
   The result is always a permitted page, and it is the requested one
   whenever that page is permitted.
   */
  function Navigate(path: string, token: Option<string>): (dest: Target)
    ensures Permitted(dest, token)
    ensures Permitted(Resolve(path), token) ==> dest == Resolve(path)
    ensures !Permitted(Resolve(path), token) && Present(token) ==> dest == Target(LobbyPath, true)
    ensures !Permitted(Resolve(path), token) && !Present(token) ==> dest == Target(LoginPath, false)
  {
    var to := Resolve(path);
    match Guard(to, token)
    case None => to
    case Some(redirect) =>
      NoRedirectLoop(to, token);
      RedirectTargets();
      Resolve(redirect)
  }
}
