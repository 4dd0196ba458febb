/** The application shell: the route table, the sign-in gate in front of the private
    pages, the sidebar's item/path mapping and the language preference effect. */
module App {
  import opened Common
  import Auth

  // ---------------------------------------------------------------- routes

  datatype Page =
    | Home | Login | SignUp | ForgotPassword | Success
    | Attendance | Admin | LeaveRequest | Profile | Settings

  /** A route: the page it shows and whether it sits behind the sign-in gate. */
  datatype Route = Route(page: Page, gated: bool)

  const PrivatePages := {Attendance, Admin, LeaveRequest, Profile, Settings}

  /** Drops every trailing '/' but keeps the first character, so that "///" becomes "/". */
  function DropTrailingSlashes(s: string): (r: string)
    ensures r <= s
    ensures forall i :: |r| <= i < |s| ==> s[i] == '/'
    ensures s != [] ==> r != []
    ensures |r| > 1 ==> r[|r| - 1] != '/'
  {
    if |s| > 1 && s[|s| - 1] == '/' then DropTrailingSlashes(s[..|s| - 1]) else s
  }

  /** The form a path is matched in. React Router v6 builds each route pattern without
      `caseSensitive`, so it ignores case, and it accepts any number of trailing '/'. */
  function RouteKey(path: string): (k: string)
    ensures k <= Lower(path)
    ensures forall i :: |k| <= i < |path| ==> path[i] == '/'
    ensures path != [] ==> k != []
  {
    DropTrailingSlashes(Lower(path))
  }

  /** The `<Routes>` table, keyed by the matched form of the path. */
  function RouteOfKey(key: string): (r: Option<Route>)
    ensures r.Some? ==> (r.value.gated <==> r.value.page in PrivatePages)
  {
    match key
    case "/" => Some(Route(Home, false))
    case "/login" => Some(Route(Login, false))
    case "/signup" => Some(Route(SignUp, false))
    case "/forgot-password" => Some(Route(ForgotPassword, false))
    case "/success" => Some(Route(Success, false))
    case "/dashboard" => Some(Route(Attendance, true))
    case "/admin" => Some(Route(Admin, true))
    case "/leave-request" => Some(Route(LeaveRequest, true))
    case "/profile" => Some(Route(Profile, true))
    case "/settings" => Some(Route(Settings, true))
    case _ => None
  }

  function RouteFor(path: string): (r: Option<Route>)
    ensures r.Some? ==> (r.value.gated <==> r.value.page in PrivatePages)
  {
    RouteOfKey(RouteKey(path))
  }

  /** The route table: which paths are public and which are behind the gate, up to case
      and trailing '/'. */
  lemma RouteTable(path: string)
    ensures RouteFor(path).Some? && !RouteFor(path).value.gated <==>
              RouteKey(path) in {"/", "/login", "/signup", "/forgot-password", "/success"}
    ensures RouteFor(path).Some? && RouteFor(path).value.gated <==>
              RouteKey(path) in {"/dashboard", "/admin", "/leave-request", "/profile", "/settings"}
  {
  }

  lemma LowerIdempotent(s: string)
    ensures Lower(Lower(s)) == Lower(s)
  {
    assert forall i :: 0 <= i < |s| ==> Lower(Lower(s))[i] == Lower(s)[i];
  }

  /** A path matches the same route whatever the case of its letters. */
  lemma RouteIgnoresCase(path: string)
    ensures RouteKey(Lower(path)) == RouteKey(path)
    ensures RouteFor(Lower(path)) == RouteFor(path)
  {
    LowerIdempotent(path);
  }

  /** One more trailing '/' matches the same route, on any non-empty path. */
  lemma RouteIgnoresTrailingSlash(path: string)
    ensures path != [] ==> RouteKey(path + "/") == RouteKey(path)
    ensures path != [] ==> RouteFor(path + "/") == RouteFor(path)
  {
    if path != [] {
      var s := path + "/";
      assert Lower(s) == Lower(path) + "/" by {
        assert forall i :: 0 <= i < |s| ==> Lower(s)[i] == (Lower(path) + "/")[i];
      }
      assert (Lower(path) + "/")[..|Lower(path)|] == Lower(path);
    }
  }

  /** What a private route renders. */
  datatype Gated = LoadingScreen | RedirectTo(path: string) | InLayout

  /** `PrivateRoute`: the loading screen while the session is being read, then a redirect
      home without a user, and the page inside the layout with one. */
  function Gate(loading: bool, user: Option<Auth.User>): (g: Gated)
    ensures loading <==> g == LoadingScreen
    ensures g.RedirectTo? <==> !loading && user.None?
    ensures g.RedirectTo? ==> g.path == "/"
    ensures g == InLayout <==> !loading && user.Some?
  {
    if loading then LoadingScreen
    else if user.None? then RedirectTo("/")
    else InLayout
  }

  /** What a path shows: nothing for an unknown path, a public page as it is, a private
      page through the gate. */
  datatype Screen = NoMatch | Loading | Redirect(path: string) | Show(page: Page)

  function ScreenFor(path: string, loading: bool, user: Option<Auth.User>): (sc: Screen)
    ensures sc.NoMatch? <==> RouteFor(path).None?
    ensures sc.Show? ==> sc.page == RouteFor(path).value.page
    ensures sc.Loading? <==> RouteFor(path).Some? && RouteFor(path).value.gated && loading
    ensures sc.Redirect? <==> RouteFor(path).Some? && RouteFor(path).value.gated && !loading && user.None?
    ensures sc.Redirect? ==> sc.path == "/"
  {
    match RouteFor(path)
    case None => NoMatch
    case Some(r) =>
      if !r.gated then Show(r.page)
      else match Gate(loading, user)
        case LoadingScreen => Loading
        case RedirectTo(p) => Redirect(p)
        case InLayout => Show(r.page)
  }

  /** A private page is shown only to a signed-in user once loading is over; a public
      page is shown whatever the session. */
  lemma PrivatePagesNeedUser(path: string, loading: bool, user: Option<Auth.User>)
    ensures RouteFor(path).Some? && RouteFor(path).value.gated ==>
              (ScreenFor(path, loading, user).Show? <==> !loading && user.Some?)
    ensures RouteFor(path).Some? && !RouteFor(path).value.gated ==>
              ScreenFor(path, loading, user) == Show(RouteFor(path).value.page)
  {
  }

  // ---------------------------------------------------------------- sidebar

  const SidebarLabels: seq<string> := ["Dashboard", "Leave Request", "Profile", "Settings"]

  /** `getActiveItem`: the item highlighted for a path; any other path highlights
      "Dashboard". */
  function ActiveItem(path: string): (item: string)
    ensures item in SidebarLabels
    ensures path !in {"/dashboard", "/leave-request", "/profile", "/settings"} ==> item == "Dashboard"
  {
    match path
    case "/dashboard" => "Dashboard"
    case "/leave-request" => "Leave Request"
    case "/profile" => "Profile"
    case "/settings" => "Settings"
    case _ => "Dashboard"
  }

  /** `String.replace(' ', '-')` with a string pattern: only the first space is replaced. */
  function ReplaceFirstSpace(s: string): (r: string)
    ensures |r| == |s|
    ensures ' ' !in s ==> r == s
  {
    if s == [] then []
    else if s[0] == ' ' then ['-'] + s[1..]
    else [s[0]] + ReplaceFirstSpace(s[1..])
  }

  /** Each character is kept, or is a space turned into a dash. */
  lemma {:induction false} ReplaceFirstSpaceChars(s: string)
    ensures forall i :: 0 <= i < |s| ==>
              ReplaceFirstSpace(s)[i] == s[i] || (s[i] == ' ' && ReplaceFirstSpace(s)[i] == '-')
  {
    if s != [] && s[0] != ' ' {
      ReplaceFirstSpaceChars(s[1..]);
      assert forall i :: 1 <= i < |s| ==> ReplaceFirstSpace(s)[i] == ReplaceFirstSpace(s[1..])[i - 1];
    }
  }

  /** The first space becomes a dash and everything after it is kept as it is. */
  lemma {:induction false} ReplaceFirstSpaceSplits(a: string, b: string)
    requires ' ' !in a
    ensures ReplaceFirstSpace(a + [' '] + b) == a + ['-'] + b
  {
    if a != [] {
      assert (a + [' '] + b)[1..] == a[1..] + [' '] + b;
      ReplaceFirstSpaceSplits(a[1..], b);
    }
  }

  /** The path a sidebar click navigates to: `/` and the lower-cased item with its first
      space turned into a dash. */
  function PathOf(item: string): (path: string)
    ensures |path| == |item| + 1 && path[0] == '/'
  {
    "/" + ReplaceFirstSpace(Lower(item))
  }

  lemma LowerAroundSpace(a: string, b: string)
    ensures Lower(a + [' '] + b) == Lower(a) + [' '] + Lower(b)
  {
    var s := a + [' '] + b;
    assert forall i :: 0 <= i < |s| ==> s[i] == if i < |a| then a[i] else if i == |a| then ' ' else b[i - |a| - 1];
  }

  lemma LowerKeepsSpaceFree(a: string)
    requires ' ' !in a
    ensures ' ' !in Lower(a)
  {
    forall i | 0 <= i < |a| ensures Lower(a)[i] != ' ' {
      assert a[i] in a;
    }
  }

  /** A word with only its first letter capitalised loses just that capital. */
  lemma LowerCapitalized(s: string)
    requires s != [] && forall i :: 1 <= i < |s| ==> !IsUpper(s[i])
    ensures Lower(s) == [LowerChar(s[0])] + s[1..]
  {
    assert forall i :: 1 <= i < |s| ==> Lower(s)[i] == s[i];
  }

  /** The path of a two-word item: both words lower-cased, joined by a dash. */
  lemma PathOfTwoWords(a: string, b: string)
    requires ' ' !in a
    ensures PathOf(a + [' '] + b) == "/" + (Lower(a) + ['-'] + Lower(b))
  {
    LowerAroundSpace(a, b);
    LowerKeepsSpaceFree(a);
    ReplaceFirstSpaceSplits(Lower(a), Lower(b));
  }

  /** A word with no space and only its first letter capitalised. */
  predicate Capitalized(s: string) {
    s != [] && ' ' !in s && forall i :: 1 <= i < |s| ==> !IsUpper(s[i])
  }

  lemma PathOfCapitalized(s: string)
    requires Capitalized(s)
    ensures PathOf(s) == "/" + ([LowerChar(s[0])] + s[1..])
  {
    LowerCapitalized(s);
    LowerKeepsSpaceFree(s);
  }

  // The fixed paths below take their item as a parameter pinned by `requires`: with the
  // literal written into the ensures, the verifier unfolds `PathOf` on it character by
  // character and runs out of resource.

  lemma DashboardPath(s: string)
    requires s == "Dashboard"
    ensures PathOf(s) == "/dashboard"
  {
    assert Capitalized(s);
    PathOfCapitalized(s);
  }

  lemma ProfilePath(s: string)
    requires s == "Profile"
    ensures PathOf(s) == "/profile"
  {
    assert Capitalized(s);
    PathOfCapitalized(s);
  }

  lemma SettingsPath(s: string)
    requires s == "Settings"
    ensures PathOf(s) == "/settings"
  {
    assert Capitalized(s);
    PathOfCapitalized(s);
  }

  lemma LowerLeave(a: string)
    requires a == "Leave"
    ensures ' ' !in a && Lower(a) == "leave"
  {
    assert Capitalized(a);
    LowerCapitalized(a);
  }

  lemma LowerRequest(b: string)
    requires b == "Request"
    ensures Lower(b) == "request"
  {
    assert Capitalized(b);
    LowerCapitalized(b);
  }

  lemma LeaveRequestPath(a: string, b: string)
    requires a == "Leave" && b == "Request"
    ensures PathOf(a + [' '] + b) == "/leave-request"
  {
    LowerLeave(a);
    LowerRequest(b);
    PathOfTwoWords(a, b);
    DashJoined(Lower(a), Lower(b));
  }

  lemma DashJoined(x: string, y: string)
    requires x == "leave" && y == "request"
    ensures "/" + (x + ['-'] + y) == "/leave-request"
  {
  }

  /** The path of an item that does not end in '/' is already in the form routes are
      matched in: lower case, with no trailing '/'. */
  lemma PathIsOwnRouteKey(item: string)
    requires item != [] && item[|item| - 1] != '/'
    ensures RouteKey(PathOf(item)) == PathOf(item)
  {
    var p := PathOf(item);
    var t := ReplaceFirstSpace(Lower(item));
    ReplaceFirstSpaceChars(Lower(item));
    forall j | 1 <= j < |p| ensures !IsUpper(p[j]) {
      assert p[j] == t[j - 1];
    }
    assert Lower(p) == p by {
      forall j | 0 <= j < |p| ensures Lower(p)[j] == p[j] {
      }
    }
    assert p[|p| - 1] == t[|item| - 1];
  }

  lemma LowerAfterSlash(w: string)
    ensures Lower("/" + w) == "/" + Lower(w)
  {
    assert forall i :: 1 <= i <= |w| ==> ("/" + w)[i] == w[i - 1];
  }

  /** The router and the sidebar disagree on case: "/Settings" shows the settings page,
      while the exact `switch` of `getActiveItem` highlights "Dashboard". */
  lemma HighlightIsExact(w: string)
    requires w == "Settings"
    ensures RouteFor("/" + w) == Some(Route(Settings, true))
    ensures ActiveItem("/" + w) == "Dashboard"
  {
    CapitalizedSettingsRoute(w);
    CapitalizedSettingsHighlight(w);
  }

  lemma CapitalizedSettingsRoute(w: string)
    requires w == "Settings"
    ensures RouteFor("/" + w) == Some(Route(Settings, true))
  {
    var p := "/" + w;
    assert Capitalized(w);
    LowerAfterSlash(w);
    LowerKeepsSpaceFree(w);
    assert Lower(p) == PathOf(w);
    RouteIgnoresCase(p);
    PathIsOwnRouteKey(w);
    SettingsPath(w);
    SettingsKey(RouteKey(p));
  }

  lemma SettingsKey(k: string)
    requires k == "/settings"
    ensures RouteOfKey(k) == Some(Route(Settings, true))
  {
  }

  lemma CapitalizedSettingsHighlight(w: string)
    requires w == "Settings"
    ensures ActiveItem("/" + w) == "Dashboard"
  {
    var p := "/" + w;
    assert p[1] == 'S';
    assert p !in {"/dashboard", "/leave-request", "/profile", "/settings"} by {
      assert "/dashboard"[1] != 'S' && "/leave-request"[1] != 'S';
      assert "/profile"[1] != 'S' && "/settings"[1] != 'S';
    }
  }

  /** The four sidebar paths highlight their own items and are private routes. */
  lemma SidebarPathFacts(p: string, item: string)
    requires || (p == "/dashboard" && item == "Dashboard")
             || (p == "/leave-request" && item == "Leave Request")
             || (p == "/profile" && item == "Profile")
             || (p == "/settings" && item == "Settings")
    ensures ActiveItem(p) == item && RouteOfKey(p).Some? && RouteOfKey(p).value.gated
  {
  }

  /** Every sidebar item leads to a page that highlights that same item, and that page
      is a private route. */
  lemma SidebarRoundTrip(item: string)
    requires item in SidebarLabels
    ensures ActiveItem(PathOf(item)) == item
    ensures RouteFor(PathOf(item)).Some? && RouteFor(PathOf(item)).value.gated
  {
    SidebarPath(item);
    PathIsOwnRouteKey(item);
    var p := PathOf(item);
    assert RouteFor(p) == RouteOfKey(p);
  }

  /** The path of a sidebar item highlights it, and as a route key it is a gated route. */
  lemma SidebarPath(item: string)
    requires item in SidebarLabels
    ensures ActiveItem(PathOf(item)) == item
    ensures RouteOfKey(PathOf(item)).Some? && RouteOfKey(PathOf(item)).value.gated
    ensures item != [] && item[|item| - 1] != '/'
  {
    if item == "Leave Request" {
      assert item == "Leave" + [' '] + "Request";
      LeaveRequestPath("Leave", "Request");
    } else if item == "Dashboard" {
      DashboardPath(item);
    } else if item == "Profile" {
      ProfilePath(item);
    } else {
      SettingsPath(item);
    }
    SidebarPathFacts(PathOf(item), item);
  }

  /** The language to switch to: the user's stored preference, when it is set and differs
      from the current language. */
  function PreferredLanguage(user: Option<Auth.User>, current: string): (r: Option<string>)
    ensures r.Some? <==> user.Some? && Truthy(user.value.metadata.languagePreference)
                         && user.value.metadata.languagePreference.value != current
    ensures r.Some? ==> r.value == user.value.metadata.languagePreference.value && r.value != current
  {
    if user.Some? && Truthy(user.value.metadata.languagePreference)
       && user.value.metadata.languagePreference.value != current
    then Some(user.value.metadata.languagePreference.value)
    else None
  }

  /** The state of the private layout: whether the sidebar is open, and the language the
      translation instance is set to. */
  class Shell {
    var sidebarOpen: bool
    var language: string

    constructor (language: string)
      ensures !sidebarOpen && this.language == language
    {
      sidebarOpen := false;
      this.language := language;
    }

    /** The top-bar button and the sidebar's own toggle. */
    method ToggleSidebar()
      modifies this
      ensures sidebarOpen == !old(sidebarOpen) && language == old(language)
    {
      sidebarOpen := !sidebarOpen;
    }

    /** `handleItemClick`: navigates to the item's path and always closes the sidebar. */
    method HandleItemClick(item: string) returns (navigateTo: string)
      modifies this
      ensures navigateTo == PathOf(item)
      ensures !sidebarOpen && language == old(language)
    {
      navigateTo := PathOf(item);
      sidebarOpen := false;
    }

    /** The language effect: switches only to a set preference that differs from the
        current language. */
    method ApplyLanguagePreference(user: Option<Auth.User>) returns (changed: bool)
      modifies this
      ensures changed <==> PreferredLanguage(user, old(language)).Some?
      ensures changed ==> language == PreferredLanguage(user, old(language)).value
      ensures !changed ==> language == old(language)
      ensures sidebarOpen == old(sidebarOpen)
    {
      changed := false;
      if user.Some? && Truthy(user.value.metadata.languagePreference) {
        var preferred := user.value.metadata.languagePreference.value;
        if language != preferred {
          language := preferred;
          changed := true;
        }
      }
    }
  }
}
