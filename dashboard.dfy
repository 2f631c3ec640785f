/** The logic of src/pages/Dashboard.jsx: the operating-system classifier
    shown in the footer and the logout handler. */
module Dashboard {
  import opened TodoData
  import opened Text
  import opened Session
  import Routes

  const OsNames: set<string> := {"Windows", "Mac OS", "Linux", "iOS", "Android", "Unknown"}

  /** `getOperatingSystem()` on `navigator.platform` and `navigator.userAgent`;
      both are lower-cased before any rule is tried. */
  function OperatingSystem(platform: string, userAgent: string): (os: string)
    ensures os in OsNames
  {
    Classify(ToLower(platform), ToLower(userAgent))
  }

  /** The rule chain on lower-cased inputs, first match wins. */
  function Classify(p: string, u: string): (os: string)
    ensures os in OsNames
  {
    if Contains(p, "win") then "Windows"
    else if Contains(p, "mac") then "Mac OS"
    else if Contains(p, "linux") then "Linux"
    else if Contains(p, "iphone") || Contains(p, "ipad") then "iOS"
    else if Contains(u, "android") then "Android"
    else "Unknown"
  }

  /** The platform rules as an ordered table (pattern, name). */
  const PlatformRules: seq<(string, string)> :=
    [("win", "Windows"), ("mac", "Mac OS"), ("linux", "Linux"), ("iphone", "iOS"), ("ipad", "iOS")]

  /** The name of the first rule whose pattern occurs in `s`. */
  function FirstMatch(rules: seq<(string, string)>, s: string): Option<string> {
    if rules == [] then None
    else if Contains(s, rules[0].0) then Some(rules[0].1)
    else FirstMatch(rules[1..], s)
  }

  /** The classifier is the first-match search over the platform rules, with
      the user agent consulted only when no platform rule matches. */
  lemma OsIsFirstMatch(platform: string, userAgent: string)
    ensures OperatingSystem(platform, userAgent) ==
      match FirstMatch(PlatformRules, ToLower(platform))
      case Some(name) => name
      case None => if Contains(ToLower(userAgent), "android") then "Android" else "Unknown"
  {
    var p := ToLower(platform);
    var rules := PlatformRules;
    assert rules[1..][1..][1..][1..][1..] == [];
    assert FirstMatch(rules[1..][1..][1..][1..], p) ==
      if Contains(p, "ipad") then Some("iOS") else None;
    assert FirstMatch(rules[1..][1..][1..], p) ==
      if Contains(p, "iphone") then Some("iOS") else FirstMatch(rules[1..][1..][1..][1..], p);
    assert FirstMatch(rules[1..][1..], p) ==
      if Contains(p, "linux") then Some("Linux") else FirstMatch(rules[1..][1..][1..], p);
    assert FirstMatch(rules[1..], p) ==
      if Contains(p, "mac") then Some("Mac OS") else FirstMatch(rules[1..][1..], p);
  }

  /** Some platform rule matches the lower-cased platform. */
  predicate PlatformMatches(platform: string) {
    var p := ToLower(platform);
    Contains(p, "win") || Contains(p, "mac") || Contains(p, "linux") ||
    Contains(p, "iphone") || Contains(p, "ipad")
  }

  /** Matching ignores case: lower-casing either input first changes nothing. */
  lemma OsIgnoresCase(platform: string, userAgent: string)
    ensures OperatingSystem(ToLower(platform), ToLower(userAgent)) == OperatingSystem(platform, userAgent)
  {
    ToLowerIdempotent(platform);
    ToLowerIdempotent(userAgent);
    assert OperatingSystem(ToLower(platform), ToLower(userAgent)) ==
      Classify(ToLower(ToLower(platform)), ToLower(ToLower(userAgent)));
  }

  /** A matching platform decides alone: the user agent is not looked at. */
  lemma PlatformTakesPrecedence(platform: string, userAgent1: string, userAgent2: string)
    requires PlatformMatches(platform)
    ensures OperatingSystem(platform, userAgent1) == OperatingSystem(platform, userAgent2)
    ensures OperatingSystem(platform, userAgent1) != "Android"
    ensures OperatingSystem(platform, userAgent1) != "Unknown"
  {
  }

  /** "Android" exactly when no platform rule matches and the user agent
      mentions it; "Unknown" exactly when nothing matches. */
  lemma AndroidAndUnknownCases(platform: string, userAgent: string)
    ensures OperatingSystem(platform, userAgent) == "Android" <==>
      !PlatformMatches(platform) && Contains(ToLower(userAgent), "android")
    ensures OperatingSystem(platform, userAgent) == "Unknown" <==>
      !PlatformMatches(platform) && !Contains(ToLower(userAgent), "android")
  {
  }

  /** `handleLogout`: removes the token and the user record, raises a toast
      and navigates to the login page. */
  method HandleLogout(session: SessionStore) returns (notice: Notice, target: string)
    modifies session
    ensures session.items == LoggedOut(old(session.items))
    ensures notice == InfoNotice("Logged out successfully!")
    ensures target == Routes.LoginPath
  {
    session.RemoveItem(AccessTokenKey);
    session.RemoveItem(UserDetailsKey);
    notice := InfoNotice("Logged out successfully!");
    target := Routes.LoginPath;
  }

  /** Logout keeps every other session key with its value. */
  lemma LogoutKeepsOtherKeys(items: map<string, string>)
    ensures forall k :: k in items && k != AccessTokenKey && k != UserDetailsKey ==>
      k in LoggedOut(items) && LoggedOut(items)[k] == items[k]
    ensures LoggedOut(items).Keys == items.Keys - {AccessTokenKey, UserDetailsKey}
  {
  }

  /** After logout the dashboard is closed: the token lookup fails and the
      guard redirects to the login page. */
  lemma LogoutLocksDashboard(items: map<string, string>)
    ensures TokenOf(LoggedOut(items)) == None
    ensures Routes.Route(Routes.DashboardPath, TokenOf(LoggedOut(items))) == Routes.Redirect(Routes.LoginPath)
  {
    var token := TokenOf(LoggedOut(items));
    assert AccessTokenKey !in LoggedOut(items);
    Routes.RouteTargets(token);
  }

  /** The session left by `HandleLogout`. */
  function LoggedOut(items: map<string, string>): map<string, string> {
    items - {AccessTokenKey, UserDetailsKey}
  }
}
