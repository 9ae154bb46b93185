/** Page access (frontend/src/App.js, `ProtectedRoute` and the route table of
    `AppStructure`). A practice-mode user is the guest account started from the
    login page. */
module Routes {
  import opened Wrappers
  import opened Text

  datatype User = User(username: string, isPracticeMode: bool)

  /** What a route renders. */
  datatype View =
    | LoginPage                                 // `AuthPage`
    | RedirectToLogin(from: string)             // `<Navigate to="/login" state={{ from }}>`
    | GuestPrompt                               // "this feature needs an account"
    | Page(path: string)                        // the guarded page itself
    | Redirect(to: string)                      // the catch-all route

  /** `ProtectedRoute`: without a user, go to the login page remembering where the
      user was; a practice user sees the guest prompt unless the route allows
      practice mode; everyone else sees the page. */
  function Guard(user: Option<User>, practiceAllowed: bool, path: string): (v: View)
    ensures v == RedirectToLogin(path) <==> user.None?
    ensures v == GuestPrompt <==> user.Some? && user.value.isPracticeMode && !practiceAllowed
    ensures v == Page(path) <==> user.Some? && (practiceAllowed || !user.value.isPracticeMode)
  {
    if user.None? then RedirectToLogin(path)
    else if !practiceAllowed && user.value.isPracticeMode then GuestPrompt
    else Page(path)
  }

  /** The guarded routes and whether each allows practice mode. */
  const Table: seq<(string, bool)> := [
    ("/funds", true), ("/transactions", true), ("/", true), ("/chart", true),
    ("/indicators", false), ("/prediction", false), ("/news", true), ("/portfolio", true),
    ("/track", false), ("/export", false), ("/backtest", false), ("/bot", false), ("/sip", false)
  ]

  /** Trailing slashes are optional in a route match; the root keeps its one slash. */
  function TrimSlashes(s: string): (r: string)
    ensures |r| <= |s| && r == s[..|r|]
    ensures |r| <= 1 || r[|r| - 1] != '/'
    ensures forall i :: |r| <= i < |s| ==> s[i] == '/'
  {
    if |s| > 1 && s[|s| - 1] == '/' then TrimSlashes(s[..|s| - 1]) else s
  }

  /** The form in which a location is compared with the route table: route paths
      match without regard to case and with or without trailing slashes. */
  function Key(path: string): string {
    ToLower(TrimSlashes(path))
  }

  /** Whether `key` is in the table, and with which flag. */
  function Lookup(table: seq<(string, bool)>, key: string): (r: Option<bool>)
    ensures r.Some? <==> exists i :: 0 <= i < |table| && table[i].0 == key
    ensures r.Some? ==> (key, r.value) in table
  {
    if table == [] then None
    else if table[0].0 == key then Some(table[0].1)
    else Lookup(table[1..], key)
  }

  /** The view for a location. */
  function Route(path: string, user: Option<User>): (v: View)
    ensures Key(path) == "/login" ==> v == LoginPage
    ensures Key(path) != "/login" && Lookup(Table, Key(path)).None? ==> v == Redirect(if user.Some? then "/" else "/login")
    ensures Key(path) != "/login" && Lookup(Table, Key(path)).Some? ==> v == Guard(user, Lookup(Table, Key(path)).value, path)
    ensures v.Redirect? ==> v.to == (if user.Some? then "/" else "/login")
  {
    var key := Key(path);
    if key == "/login" then LoginPage
    else
      match Lookup(Table, key)
      case Some(practiceAllowed) => Guard(user, practiceAllowed, path)
      case None => Redirect(if user.Some? then "/" else "/login")
  }

  /** A guarded page is shown to a signed-in user exactly when the user is not in
      practice mode or the route allows it, and never to a visitor. */
  lemma GuardedPages(path: string, practiceAllowed: bool, user: Option<User>)
    requires (Key(path), practiceAllowed) in Table
    ensures Route(path, user) == Page(path) <==> user.Some? && (practiceAllowed || !user.value.isPracticeMode)
    ensures user.None? ==> Route(path, user) == RedirectToLogin(path)
  {
    var i :| 0 <= i < |Table| && Table[i] == (Key(path), practiceAllowed);
    UniquePaths(i);
    LookupFinds(Table, i);
    NoLoginEntry(i);
    assert Route(path, user) == Guard(user, practiceAllowed, path);
  }

  /** The login page is not a guarded route. */
  lemma NoLoginEntry(i: nat)
    requires i < |Table|
    ensures Table[i].0 != "/login"
  {
  }

  /** No path appears twice in the table. */
  lemma UniquePaths(i: nat)
    requires i < |Table|
    ensures forall j :: 0 <= j < |Table| && j != i ==> Table[j].0 != Table[i].0
  {
  }

  /** With distinct paths, the lookup returns the entry's own flag. */
  lemma {:induction false} LookupFinds(table: seq<(string, bool)>, i: nat)
    requires i < |table|
    requires forall j :: 0 <= j < |table| && j != i ==> table[j].0 != table[i].0
    ensures Lookup(table, table[i].0) == Some(table[i].1)
  {
    if i > 0 {
      LookupFinds(table[1..], i - 1);
    }
  }

  /** The guest account can open the simulator pages but not the SIP calculator,
      however the location is capitalised or slashed. */
  lemma GuestAccess()
    ensures Route("/funds", Some(User("guest", true))) == Page("/funds")
    ensures Route("/Funds/", Some(User("guest", true))) == Page("/Funds/")
    ensures Route("/sip", Some(User("guest", true))) == GuestPrompt
  {
    GuestFunds("/funds");
    GuestFunds("/Funds/");
    GuestSip();
  }

  lemma GuestFunds(path: string)
    requires path == "/funds" || path == "/Funds/"
    ensures Route(path, Some(User("guest", true))) == Page(path)
  {
    FundsKeys();
    GuardedPages(path, true, Some(User("guest", true)));
  }

  lemma GuestSip()
    ensures Route("/sip", Some(User("guest", true))) == GuestPrompt
  {
    assert Key("/sip") == "/sip";
    GuardedPages("/sip", false, Some(User("guest", true)));
  }

  lemma FundsKeys()
    ensures Key("/funds") == "/funds" && Key("/Funds/") == "/funds"
  {
    assert TrimSlashes("/Funds/") == "/Funds";
    assert ToLower("/Funds") == "/funds";
  }
}
