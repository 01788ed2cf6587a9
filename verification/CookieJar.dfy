/** The persistent cookie jar: what it stores, what it sends, and how its file is read and written. */
module CookieJar {
  import opened Results
  import opened Sequences
  import opened Text
  import opened NetscapeFile

  /** A request target; path is the decoded path and escapedPath the one sent. */
  datatype Url = Url(scheme: string, hostname: string, path: string, escapedPath: string)

  /** A cookie as a response sets it. */
  datatype SetCookie = SetCookie(name: string, value: string, domain: string, path: string, secure: bool,
                                 httpOnly: bool,
                                 expires: Option<int>, maxAge: int)

  datatype JarError = OutsideScope | EmptyName | InvalidPath | WidensDomain | ConvertsHostOnly | WriteFailed

  // ------------------------------------------------------------ matching

  predicate DomainMatches(host: string, domain: string) {
    Under(NormalizedHost(host), NormalizedHost(domain))
  }

  predicate CookieDomainMatches(c: Cookie, host: string) {
    if c.hostOnly then host == c.domain else DomainMatches(host, c.domain)
  }

  /** Path match of section 5.1.4 of RFC 6265. */
  predicate PathMatches(cookiePath: string, requestPath: string) {
    var c, r := if cookiePath == "" then "/" else cookiePath, if requestPath == "" then "/" else requestPath;
    r == c || (HasPrefix(r, c) && (HasSuffix(c, "/") || (|r| > |c| && r[|c|] == '/')))
  }

  /** The index of the last slash, or -1. */
  function LastSlash(s: string): (i: int)
    ensures -1 <= i < |s|
    ensures i >= 0 ==> s[i] == '/'
    ensures forall k :: i < k < |s| ==> s[k] != '/'
  {
    if s == [] then -1 else if s[|s| - 1] == '/' then |s| - 1 else LastSlash(s[..|s| - 1])
  }

  function DefaultPath(requestPath: string): string {
    if !HasPrefix(requestPath, "/") || LastSlash(requestPath) <= 0 then "/" else requestPath[..LastSlash(requestPath)]
  }

  /** A path matches its own default path. A request, however, takes the default path from its decoded path
      and is matched by its escaped one: see SentBack. */
  lemma DefaultPathMatches(p: string)
    requires HasPrefix(p, "/")
    ensures PathMatches(DefaultPath(p), p) && HasPrefix(DefaultPath(p), "/")
  {
    var i := LastSlash(p);
    if i > 0 { assert p[..i][0] == p[0] && p[..i] <= p; }
  }

  predicate HostAllowed(host: string, allowed: seq<string>) {
    exists a :: a in allowed && Under(host, a)
  }

  // ------------------------------------------------------------- storing

  /** What identifies a stored cookie. */
  datatype Key = Key(name: string, path: string, domain: string, hostOnly: bool)

  function KeyOf(c: Cookie): Key { Key(c.name, c.path, c.domain, c.hostOnly) }

  function IndexOf(cs: seq<Cookie>, k: Key): (i: int)
    ensures -1 <= i < |cs|
    ensures i >= 0 ==> KeyOf(cs[i]) == k
    ensures i == -1 ==> forall c :: c in cs ==> KeyOf(c) != k
  {
    if cs == [] then -1 else if KeyOf(cs[0]) == k then 0 else var i := IndexOf(cs[1..], k); if i < 0 then -1 else i + 1
  }

  predicate ActiveHostOnly(cs: seq<Cookie>, name: string, path: string, host: string, now: int) {
    exists c :: c in cs && c.name == name && c.path == path && c.hostOnly && c.domain == host && Live(now, c)
  }

  /** The cookie to store for what a response from host sets, or why it is refused. */
  function Accepted(cs: seq<Cookie>, s: SetCookie, host: string, urlPath: string, allowed: seq<string>,
                    now: int): Result<Cookie, JarError> {
    var path := if s.path == "" then DefaultPath(urlPath) else s.path;
    var domain := if s.domain == "" then host else NormalizedHost(s.domain);
    if !HostAllowed(host, allowed) then Err(OutsideScope)
    else if s.name == "" then Err(EmptyName)
    else if !HasPrefix(path, "/") then Err(InvalidPath)
    else if s.domain != "" && (!HostAllowed(NormalizedHost(domain), allowed) || domain != host) then Err(WidensDomain)
    else if s.domain != "" && ActiveHostOnly(cs, s.name, path, host, now) then Err(ConvertsHostOnly)
    else Ok(Cookie(s.name, s.value, domain, path, s.secure, s.httpOnly, s.expires, s.domain == ""))
  }

  predicate Deletes(s: SetCookie, now: int) {
    s.maxAge < 0 || (s.expires.Some? && s.expires.value <= now)
  }

  function Stored(cs: seq<Cookie>, c: Cookie, deletes: bool): seq<Cookie> {
    var i := IndexOf(cs, KeyOf(c));
    if deletes then (if i >= 0 then cs[..i] + cs[i + 1..] else cs)
    else if i >= 0 then cs[i := c]
    else cs + [c]
  }

  /** A call in progress: the cookies so far, whether they changed, and the errors noted. */
  datatype Progress = Progress(cookies: seq<Cookie>, changed: bool, errors: seq<JarError>)

  function StoreOne(p: Progress, s: SetCookie, host: string, urlPath: string, allowed: seq<string>,
                    now: int): Progress {
    match Accepted(p.cookies, s, host, urlPath, allowed, now)
    case Err(e) => p.(errors := if p.errors == [] then [e] else p.errors)
    case Ok(c) =>
      var after := Stored(p.cookies, c, Deletes(s, now));
      p.(cookies := after, changed := p.changed || after != p.cookies)
  }

  function StoreAll(p: Progress, incoming: seq<SetCookie>, host: string, urlPath: string, allowed: seq<string>,
                    now: int): Progress {
    if incoming == [] then p
    else StoreOne(StoreAll(p, incoming[..|incoming| - 1], host, urlPath, allowed, now), incoming[|incoming| - 1], host,
                  urlPath, allowed, now)
  }

  /** A positive Max-Age has no effect. */
  lemma MaxAgeIgnored(p: Progress, s: SetCookie, age: nat, host: string, urlPath: string, allowed: seq<string>,
                      now: int)
    requires s.maxAge >= 0
    ensures StoreOne(p, s.(maxAge := age), host, urlPath, allowed, now) == StoreOne(p, s, host, urlPath, allowed, now)
  {
  }

  ghost predicate DistinctKeys(cs: seq<Cookie>) {
    forall i, j :: 0 <= i < j < |cs| ==> KeyOf(cs[i]) != KeyOf(cs[j])
  }

  lemma RemovedExact(cs: seq<Cookie>, i: nat)
    requires DistinctKeys(cs) && i < |cs|
    ensures var after := cs[..i] + cs[i + 1..];
      DistinctKeys(after) && forall x :: x in after <==> x in cs && KeyOf(x) != KeyOf(cs[i])
  {
    hide KeyOf;
    var after := cs[..i] + cs[i + 1..];
    RemovedDistinct(cs, i);
    hide DistinctKeys;
    forall x ensures x in after <==> x in cs && KeyOf(x) != KeyOf(cs[i]) { RemovedHas(cs, i, x); }
  }

  lemma RemovedDistinct(cs: seq<Cookie>, i: nat)
    requires DistinctKeys(cs) && i < |cs|
    ensures DistinctKeys(cs[..i] + cs[i + 1..])
  {
    hide KeyOf;
    var after := cs[..i] + cs[i + 1..];
    forall j, k | 0 <= j < k < |after| ensures KeyOf(after[j]) != KeyOf(after[k]) {
      assert after[j] == cs[if j < i then j else j + 1] && after[k] == cs[if k < i then k else k + 1];
    }
  }

  lemma RemovedHas(cs: seq<Cookie>, i: nat, x: Cookie)
    requires DistinctKeys(cs) && i < |cs|
    ensures x in cs[..i] + cs[i + 1..] <==> x in cs && KeyOf(x) != KeyOf(cs[i])
  {
    hide KeyOf;
    var after := cs[..i] + cs[i + 1..];
    if x in cs && KeyOf(x) != KeyOf(cs[i]) {
      var k :| 0 <= k < |cs| && cs[k] == x;
      assert after[if k < i then k else k - 1] == x;
    }
    if x in after {
      var k :| 0 <= k < |after| && after[k] == x;
      assert x == cs[if k < i then k else k + 1];
    }
  }

  lemma ReplacedExact(cs: seq<Cookie>, i: nat, c: Cookie)
    requires DistinctKeys(cs) && i < |cs| && KeyOf(c) == KeyOf(cs[i])
    ensures var after := cs[i := c];
      DistinctKeys(after) && forall x :: x in after <==> (x in cs && KeyOf(x) != KeyOf(c)) || x == c
  {
    hide KeyOf;
    var after := cs[i := c];
    forall x ensures x in after <==> (x in cs && KeyOf(x) != KeyOf(c)) || x == c {
      if x in cs && KeyOf(x) != KeyOf(c) {
        var k :| 0 <= k < |cs| && cs[k] == x;
        assert after[k] == x;
      }
      assert after[i] == c;
    }
  }

  /** Storing replaces, adds or removes the one cookie with its key; every other cookie stays,
      and keys stay distinct. */
  lemma StoredExact(cs: seq<Cookie>, c: Cookie, deletes: bool)
    requires DistinctKeys(cs)
    ensures DistinctKeys(Stored(cs, c, deletes))
    ensures forall x :: x in Stored(cs, c, deletes) <==> (x in cs && KeyOf(x) != KeyOf(c)) || (x == c && !deletes)
  {
    var i := IndexOf(cs, KeyOf(c));
    if i >= 0 {
      if deletes { RemovedExact(cs, i); } else { ReplacedExact(cs, i, c); }
    }
  }

  // ------------------------------------------------------------- the jar

  datatype Jar = Jar(cookies: seq<Cookie>, file: Option<string>, errors: seq<JarError>)

  datatype Settings = Settings(allowed: seq<string>, persists: bool)

  /** Reading the file into a fresh jar. */
  function Load(file: Option<string>, settings: Settings, now: int): Result<seq<Cookie>, FileError> {
    if !settings.persists || file.None? then Ok([]) else
      match Parsed(file.value, now)
      case Err(e) => Err(e)
      case Ok(cs) =>
        if exists c :: c in cs && !HostAllowed(NormalizedHost(c.domain), settings.allowed) then Err(BadCookie)
        else Ok(cs)
  }

  predicate SendsTo(u: Url, c: Cookie) {
    CookieDomainMatches(c, NormalizedHost(u.hostname)) && PathMatches(c.path, u.escapedPath)
        && (c.secure ==> u.scheme == "https")
  }

  function SentTo(u: Url): Cookie -> bool { (c: Cookie) => SendsTo(u, c) }

  /** A path is a directory, or lies below it. */
  predicate AtOrBelow(dir: string, path: string) {
    var d, p := if dir == "" then "/" else dir, if path == "" then "/" else path;
    p == d || HasPrefix(p, if HasSuffix(d, "/") then d else d + "/")
  }

  lemma BelowIsMatch(dir: string, path: string)
    ensures AtOrBelow(dir, path) <==> PathMatches(dir, path)
  {
    var d, p := if dir == "" then "/" else dir, if path == "" then "/" else path;
    if HasPrefix(p, d + "/") { assert p[..|d|] == d && p[|d|] == '/'; }
    if |p| > |d| && HasPrefix(p, d) && p[|d|] == '/' { assert p[..|d| + 1] == d + "/"; }
  }

  /** The escaped path of a request is, or lies below, the directory of its decoded path. */
  predicate BelowOwnDirectory(u: Url) { AtOrBelow(DefaultPath(u.path), u.escapedPath) }

  lemma BelowUnescaped(u: Url)
    requires HasPrefix(u.path, "/") && u.escapedPath == u.path
    ensures BelowOwnDirectory(u)
  {
    DefaultPathMatches(u.path);
    BelowIsMatch(DefaultPath(u.path), u.escapedPath);
  }

  /** A cookie set by host without a Domain attribute is for that host alone, one with it also for the hosts below;
      both for the directory of the Path attribute, or of the request that set it, and what lies below, and a secure
      one for https only. */
  predicate MeantFor(s: SetCookie, host: string, urlPath: string, u: Url) {
    var g := NormalizedHost(u.hostname);
    && (if s.domain == "" then g == host
        else NormalizedHost(g) == NormalizedHost(host)
             || HasSuffix(NormalizedHost(g), "." + NormalizedHost(host)))
    && AtOrBelow(if s.path == "" then DefaultPath(urlPath) else s.path, u.escapedPath)
    && (s.secure ==> u.scheme == "https")
  }

  lemma AcceptedSends(cs: seq<Cookie>, s: SetCookie, host: string, urlPath: string, allowed: seq<string>, now: int,
                      u: Url)
    requires Accepted(cs, s, host, urlPath, allowed, now).Ok?
    ensures SendsTo(u, Accepted(cs, s, host, urlPath, allowed, now).value) <==> MeantFor(s, host, urlPath, u)
  {
    hide DefaultPath, NormalizedHost, HostAllowed, ActiveHostOnly, PathMatches, AtOrBelow;
    BelowIsMatch(if s.path == "" then DefaultPath(urlPath) else s.path, u.escapedPath);
  }

  /** A host is in scope if it is one of the allowed ones, or lies below one. */
  ghost predicate InScope(host: string, allowed: seq<string>) {
    exists a :: a in allowed
      && (host == a || (|host| > |a| && host[|host| - |a| - 1] == '.' && host[|host| - |a|..] == a))
  }

  lemma BelowAllowed(host: string, a: string)
    ensures Under(host, a) <==>
            host == a || (|host| > |a| && host[|host| - |a| - 1] == '.' && host[|host| - |a|..] == a)
  {
    if |host| > |a| { assert host[|host| - |a| - 1..] == [host[|host| - |a| - 1]] + host[|host| - |a|..]; }
    var dotted := "." + a;
    if HasSuffix(host, dotted) { assert host[|host| - |a|..] == dotted[1..] && dotted[0] == '.'; }
  }

  lemma ScopeIsAllowed(host: string, allowed: seq<string>)
    ensures InScope(host, allowed) <==> HostAllowed(host, allowed)
  {
    forall a | a in allowed
      ensures Under(host, a) <==>
              host == a || (|host| > |a| && host[|host| - |a| - 1] == '.' && host[|host| - |a|..] == a)
    {
      BelowAllowed(host, a);
    }
    hide Under;
  }

  /** What a response may set: in scope, with a name, for a path from the root, and, if it names a domain, for its own
      host and not in the place of a live cookie of that host alone. The first fault is the one noted. */
  lemma RefusedExactly(cs: seq<Cookie>, s: SetCookie, host: string, urlPath: string, allowed: seq<string>, now: int)
    ensures var r, named := Accepted(cs, s, host, urlPath, allowed, now), s.name != "";
      && (r == Err(OutsideScope) <==> !InScope(host, allowed))
      && (r == Err(EmptyName) <==> InScope(host, allowed) && s.name == "")
      && (r == Err(InvalidPath) <==> InScope(host, allowed) && named && s.path != "" && s.path[0] != '/')
      && (r.Ok? || r == Err(WidensDomain) || r == Err(ConvertsHostOnly) <==>
            InScope(host, allowed) && named && (s.path != "" ==> s.path[0] == '/'))
      && (r == Err(WidensDomain) ==>
            s.domain != "" && (NormalizedHost(s.domain) != host || !InScope(NormalizedHost(host), allowed)))
      && (r == Err(ConvertsHostOnly) || (r.Ok? && s.domain != "") ==>
            NormalizedHost(s.domain) == host && InScope(NormalizedHost(host), allowed))
      && (s.domain != "" && (r.Ok? || r == Err(ConvertsHostOnly)) ==>
            (r == Err(ConvertsHostOnly) <==>
               exists c :: c in cs && c.hostOnly && c.domain == host && c.name == s.name
                 && c.path == (if s.path == "" then DefaultPath(urlPath) else s.path)
                 && (c.expires.Some? ==> c.expires.value > now)))
      && (r == Err(ConvertsHostOnly) ==> s.domain != "")
  {
    ScopeIsAllowed(host, allowed);
    ScopeIsAllowed(NormalizedHost(host), allowed);
    DefaultIsRooted(urlPath);
    hide DefaultPath, NormalizedHost, HostAllowed, InScope;
  }

  /** The default path is what stands before the last slash of a path from the root, if anything does. */
  lemma DefaultPathCuts(dir: string, rest: string)
    requires '/' !in rest && (dir != "" ==> dir[0] == '/')
    ensures DefaultPath(dir + "/" + rest) == if dir == "" then "/" else dir
  {
    var p := dir + "/" + rest;
    assert p[|dir|] == '/' && forall k :: |dir| < k < |p| ==> p[k] == rest[k - |dir| - 1];
    assert p[..|dir|] == dir && p[0] == '/';
  }

  lemma DefaultIsRooted(p: string)
    ensures HasPrefix(DefaultPath(p), "/")
  {
    if HasPrefix(p, "/") { DefaultPathMatches(p); }
  }

  function AcceptedAt(p: Progress, incoming: seq<SetCookie>, i: nat, host: string, urlPath: string,
                      allowed: seq<string>, now: int): Result<Cookie, JarError>
    requires i < |incoming|
  {
    Accepted(StoreAll(p, incoming[..i], host, urlPath, allowed, now).cookies, incoming[i], host, urlPath, allowed, now)
  }

  predicate AllAccepted(p: Progress, incoming: seq<SetCookie>, host: string, urlPath: string, allowed: seq<string>,
                        now: int)
  {
    forall i :: 0 <= i < |incoming| ==> AcceptedAt(p, incoming, i, host, urlPath, allowed, now).Ok?
  }

  /** Some cookie is the first that is refused, for that reason. */
  predicate FirstFault(p: Progress, incoming: seq<SetCookie>, host: string, urlPath: string, allowed: seq<string>,
                       now: int, e: JarError)
  {
    exists i | 0 <= i < |incoming| ::
      && AllAccepted(p, incoming[..i], host, urlPath, allowed, now)
      && AcceptedAt(p, incoming, i, host, urlPath, allowed, now) == Err(e)
  }

  /** A response has nothing noted exactly if all it sets is accepted, and else only its first fault, and that only if
      nothing was noted before. */
  lemma {:induction false} FirstFaultNoted(p: Progress, incoming: seq<SetCookie>, host: string, urlPath: string,
                                           allowed: seq<string>, now: int)
    ensures var q := StoreAll(p, incoming, host, urlPath, allowed, now);
      && (p.errors != [] ==> q.errors == p.errors)
      && (p.errors == [] && AllAccepted(p, incoming, host, urlPath, allowed, now) ==> q.errors == [])
      && (p.errors == [] && !AllAccepted(p, incoming, host, urlPath, allowed, now) ==>
            |q.errors| == 1 && FirstFault(p, incoming, host, urlPath, allowed, now, q.errors[0]))
  {
    if incoming != [] {
      var n := |incoming| - 1;
      FirstFaultNoted(p, incoming[..n], host, urlPath, allowed, now);
      AllAcceptedSnoc(p, incoming, host, urlPath, allowed, now);
      forall e | FirstFault(p, incoming[..n], host, urlPath, allowed, now, e)
        ensures FirstFault(p, incoming, host, urlPath, allowed, now, e)
      {
        FirstFaultSnoc(p, incoming, host, urlPath, allowed, now, e);
      }
      LastFault(p, incoming, host, urlPath, allowed, now);
      hide Accepted, Stored, Deletes, AllAccepted, FirstFault;
    }
  }

  lemma LastFault(p: Progress, incoming: seq<SetCookie>, host: string, urlPath: string, allowed: seq<string>, now: int)
    requires incoming != []
    ensures var n := |incoming| - 1;
      var r := AcceptedAt(p, incoming, n, host, urlPath, allowed, now);
      AllAccepted(p, incoming[..n], host, urlPath, allowed, now) && r.Err? ==>
        FirstFault(p, incoming, host, urlPath, allowed, now, r.error)
  {
    hide AcceptedAt, AllAccepted;
  }

  lemma FirstFaultSnoc(p: Progress, incoming: seq<SetCookie>, host: string, urlPath: string, allowed: seq<string>,
                       now: int, e: JarError)
    requires incoming != [] && FirstFault(p, incoming[..|incoming| - 1], host, urlPath, allowed, now, e)
    ensures FirstFault(p, incoming, host, urlPath, allowed, now, e)
  {
    var before := incoming[..|incoming| - 1];
    var i :| 0 <= i < |before| && AllAccepted(p, before[..i], host, urlPath, allowed, now)
             && AcceptedAt(p, before, i, host, urlPath, allowed, now) == Err(e);
    assert before[..i] == incoming[..i] && before[i] == incoming[i];
    hide AllAccepted, Accepted, StoreAll;
    assert AcceptedAt(p, incoming, i, host, urlPath, allowed, now) == Err(e);
  }

  lemma AllAcceptedSnoc(p: Progress, incoming: seq<SetCookie>, host: string, urlPath: string, allowed: seq<string>,
                        now: int)
    requires incoming != []
    ensures var n := |incoming| - 1;
      AllAccepted(p, incoming, host, urlPath, allowed, now) <==>
        AllAccepted(p, incoming[..n], host, urlPath, allowed, now)
            && AcceptedAt(p, incoming, n, host, urlPath, allowed, now).Ok?
  {
    hide Accepted, StoreAll;
    var n := |incoming| - 1;
    forall i | 0 <= i < n
      ensures AcceptedAt(p, incoming[..n], i, host, urlPath, allowed, now)
           == AcceptedAt(p, incoming, i, host, urlPath, allowed, now)
    {
      assert incoming[..n][..i] == incoming[..i];
    }
  }

  /** What is accepted is stored as it was set. */
  lemma AcceptedAs(cs: seq<Cookie>, s: SetCookie, host: string, urlPath: string, allowed: seq<string>, now: int)
    requires Accepted(cs, s, host, urlPath, allowed, now).Ok?
    ensures Accepted(cs, s, host, urlPath, allowed, now).value
         == Cookie(s.name, s.value, host, if s.path == "" then DefaultPath(urlPath) else s.path, s.secure, s.httpOnly,
                   s.expires, s.domain == "")
  {
    hide DefaultPath, NormalizedHost, HostAllowed, ActiveHostOnly;
  }

  /** A response that sets one cookie stores it as one. */
  lemma SetOne(j: Jar, settings: Settings, u: Url, s: SetCookie, now: int, writeFails: bool)
    requires Accepted(j.cookies, s, NormalizedHost(u.hostname), u.path, settings.allowed, now).Ok?
    ensures Effect(j, settings, Set(u, [s], now, writeFails)).cookies
         == Stored(j.cookies, Accepted(j.cookies, s, NormalizedHost(u.hostname), u.path, settings.allowed, now).value,
                   Deletes(s, now))
  {
    hide Accepted, Serialized, NormalizedHost, Stored, Deletes;
    var host, start := NormalizedHost(u.hostname), Progress(j.cookies, false, j.errors);
    assert StoreAll(start, [], host, u.path, settings.allowed, now) == start && [s][..0] == [];
  }

  /** To which later requests a cookie goes that a response has set: while it lives, exactly to those that it is meant
      for. */
  lemma SentExactly(j: Jar, settings: Settings, u: Url, s: SetCookie, now: int, writeFails: bool, later: Url, t: int)
    requires !Deletes(s, now)
    requires Accepted(j.cookies, s, NormalizedHost(u.hostname), u.path, settings.allowed, now).Ok?
    ensures var c, after := Accepted(j.cookies, s, NormalizedHost(u.hostname), u.path, settings.allowed, now).value,
        Effect(j, settings, Set(u, [s], now, writeFails));
      && c in after.cookies
      && (c in Filter(SentTo(later), Filter(LiveAt(t), after.cookies)) <==>
          (s.expires.None? || s.expires.value > t) && MeantFor(s, NormalizedHost(u.hostname), u.path, later))
  {
    hide Accepted, MeantFor, SendsTo, Effect, NormalizedHost, Stored, Filter;
    var host := NormalizedHost(u.hostname);
    AcceptedAs(j.cookies, s, host, u.path, settings.allowed, now);
    AcceptedSends(j.cookies, s, host, u.path, settings.allowed, now, later);
    StoredHas(j.cookies, Accepted(j.cookies, s, host, u.path, settings.allowed, now).value);
    SetOne(j, settings, u, s, now, writeFails);
  }

  /** A cookie set without a path goes back to the request that set it if and only if it is allowed on the scheme
      and the escaped path of that request lies below the directory of the decoded one. */
  lemma SentBack(j: Jar, settings: Settings, u: Url, s: SetCookie, now: int, writeFails: bool)
    requires s.path == "" && !Deletes(s, now)
    requires Accepted(j.cookies, s, NormalizedHost(u.hostname), u.path, settings.allowed, now).Ok?
    ensures var c, after := Accepted(j.cookies, s, NormalizedHost(u.hostname), u.path, settings.allowed, now).value,
        Effect(j, settings, Set(u, [s], now, writeFails));
      && c in after.cookies
      && (c in Filter(SentTo(u), Filter(LiveAt(now), after.cookies)) <==>
          (s.secure ==> u.scheme == "https") && BelowOwnDirectory(u))
    ensures HasPrefix(u.path, "/") && u.escapedPath == u.path ==> BelowOwnDirectory(u)
  {
    hide Accepted, Effect, NormalizedHost, DefaultPath, AtOrBelow, Filter;
    SentExactly(j, settings, u, s, now, writeFails, u, now);
    if HasPrefix(u.path, "/") && u.escapedPath == u.path { BelowUnescaped(u); }
  }

  lemma StoredHas(cs: seq<Cookie>, c: Cookie)
    ensures c in Stored(cs, c, false)
  {
    var i := IndexOf(cs, KeyOf(c));
    hide KeyOf, IndexOf;
    if i >= 0 { assert cs[i := c][i] == c; }
  }

  datatype Call =
    | Serve(now: int)
    | Set(url: Url, incoming: seq<SetCookie>, now: int, writeFails: bool)
    | Reload(now: int)

  /** What a call does to jar and file. A reload starts a new jar from the file, if that can be read. */
  function Effect(j: Jar, settings: Settings, call: Call): Jar {
    match call
    case Serve(now) => j.(cookies := Filter(LiveAt(now), j.cookies))
    case Reload(now) => (match Load(j.file, settings, now) case Err(_) => j case Ok(cs) => Jar(cs, j.file, []))
    case Set(u, incoming, now, writeFails) =>
      var p := StoreAll(Progress(j.cookies, false, j.errors), incoming, NormalizedHost(u.hostname), u.path,
                        settings.allowed, now);
      if !p.changed || !settings.persists then Jar(p.cookies, j.file, p.errors)
      else
        var data := Serialized(p.cookies, settings.allowed);
        if data.Err? || writeFails then Jar(p.cookies, j.file, p.errors + [WriteFailed])
        else Jar(p.cookies, Some(data.value), p.errors)
  }

  /** A request leaves exactly the live cookies in the jar, and the file alone. */
  lemma ServingDropsExpired(j: Jar, settings: Settings, now: int, c: Cookie)
    ensures var after := Effect(j, settings, Serve(now));
      && (c in after.cookies <==> c in j.cookies && (c.expires.Some? ==> c.expires.value > now))
      && after.file == j.file && after.errors == j.errors
  {
    hide Filter;
  }

  /** Cookies are sent in the order of the jar, whatever the lengths of their paths. */
  lemma SentInJarOrder(u: Url, cs: seq<Cookie>, i: nat, j: nat)
    requires i < j < |cs| && SendsTo(u, cs[i]) && SendsTo(u, cs[j])
    ensures var f := SentTo(u);
      Filter(f, cs) == Filter(f, cs[..i]) + [cs[i]] + (Filter(f, cs[i + 1..j]) + [cs[j]] + Filter(f, cs[j + 1..]))
  {
    FilterAroundBoth(SentTo(u), cs, i, j);
  }

  lemma FilterAroundBoth(f: Cookie -> bool, cs: seq<Cookie>, i: nat, j: nat)
    requires i < j < |cs| && f(cs[i]) && f(cs[j])
    ensures Filter(f, cs) == Filter(f, cs[..i]) + [cs[i]] + (Filter(f, cs[i + 1..j]) + [cs[j]] + Filter(f, cs[j + 1..]))
  {
    hide *;
    var behind := cs[i + 1..];
    FilterAround(f, cs, i);
    assert behind[..j - i - 1] == cs[i + 1..j] && behind[j - i..] == cs[j + 1..] && behind[j - i - 1] == cs[j];
    FilterAround(f, behind, j - i - 1);
  }

  /** One pass over the cookies: the live ones, and those of them to send. */
  method Select(cs: seq<Cookie>, live: Cookie -> bool, sends: Cookie -> bool)
    returns (active: seq<Cookie>, matched: seq<Cookie>)
    ensures active == Filter(live, cs) && matched == Filter(sends, active)
  {
    active, matched := [], [];
    for i := 0 to |cs|
      invariant active == Filter(live, cs[..i]) && matched == Filter(sends, active)
    {
      var item := cs[i];
      assert cs[..i + 1] == cs[..i] + [item];
      FilterSnoc(live, cs[..i], item);
      FilterSnoc(sends, active, item);
      if !live(item) { continue; }
      active := active + [item];
      if !sends(item) { continue; }
      matched := matched + [item];
    }
    assert cs[..|cs|] == cs;
  }

  class PersistentJar {
    const settings: Settings
    var cookies: seq<Cookie>
    /** The file's content, if there is one. */
    var file: Option<string>
    /** An unsafe cookie is noted only if nothing is noted yet, a failed write always. */
    var errors: seq<JarError>

    ghost function State(): Jar
      reads this
    {
      Jar(cookies, file, errors)
    }

    constructor (settings: Settings, file: Option<string>, cookies: seq<Cookie>)
      ensures this.settings == settings && State() == Jar(cookies, file, [])
    {
      this.settings, this.file, this.cookies, this.errors := settings, file, cookies, [];
    }

    /** A fresh jar from the file; a row that cannot be read or a domain that is not allowed is refused. */
    static method Open(settings: Settings, file: Option<string>, now: int) returns (r: Result<PersistentJar, FileError>)
      ensures match Load(file, settings, now)
              case Err(e) => r == Err(e)
              case Ok(cs) =>
                r.Ok? && fresh(r.value) && r.value.settings == settings && r.value.State() == Jar(cs, file, [])
    {
      hide Parsed, HostAllowed, NormalizedHost;
      if !settings.persists || file.None? {
        var empty := new PersistentJar(settings, file, []);
        return Ok(empty);
      }
      var parsed := ParseNetscapeCookies(file.value, now);
      if parsed.Err? { return Err(parsed.error); }
      for i := 0 to |parsed.value|
        invariant forall k :: 0 <= k < i ==> HostAllowed(NormalizedHost(parsed.value[k].domain), settings.allowed)
      {
        if !HostAllowed(NormalizedHost(parsed.value[i].domain), settings.allowed) { return Err(BadCookie); }
      }
      var jar := new PersistentJar(settings, file, parsed.value);
      return Ok(jar);
    }

    /** The cookies to send; expired ones leave the jar. */
    method Cookies(u: Url, now: int) returns (matched: seq<Cookie>)
      modifies this
      ensures State() == Effect(old(State()), settings, Serve(now))
      ensures matched == Filter(SentTo(u), cookies)
    {
      var active;
      active, matched := Select(cookies, LiveAt(now), SentTo(u));
      cookies := active;
    }

    /** Store one incoming cookie; the result says whether anything has changed so far. */
    method StoreIncoming(s: SetCookie, host: string, urlPath: string, now: int, changedBefore: bool)
      returns (changed: bool)
      modifies this`cookies, this`errors
      ensures Progress(cookies, changed, errors)
           == StoreOne(Progress(old(cookies), changedBefore, old(errors)), s, host, urlPath, settings.allowed, now)
    {
      hide Accepted, Deletes, KeyOf;
      changed := changedBefore;
      var accepted := Accepted(cookies, s, host, urlPath, settings.allowed, now);
      if accepted.Err? {
        if errors == [] { errors := [accepted.error]; }
        return;
      }
      var item := accepted.value;
      changed := StoreItem(item, Deletes(s, now), changedBefore);
    }

    /** Delete, replace or append one accepted cookie. */
    method StoreItem(item: Cookie, deletes: bool, changedBefore: bool) returns (changed: bool)
      modifies this`cookies
      ensures cookies == Stored(old(cookies), item, deletes)
      ensures changed == (changedBefore || cookies != old(cookies))
    {
      hide KeyOf;
      changed := changedBefore;
      var index := IndexOf(cookies, KeyOf(item));
      if deletes {
        if index >= 0 {
          cookies := cookies[..index] + cookies[index + 1..];
          assert |cookies| < |old(cookies)|;
          changed := true;
        }
      } else if index >= 0 {
        if cookies[index] != item {
          cookies := cookies[index := item];
          assert cookies[index] != old(cookies)[index];
          changed := true;
        } else {
          assert cookies[index := item] == cookies;
        }
      } else {
        cookies := cookies + [item];
        assert |cookies| > |old(cookies)|;
        changed := true;
      }
    }

    method SetCookies(u: Url, incoming: seq<SetCookie>, now: int, writeFails: bool)
      modifies this
      ensures State() == Effect(old(State()), settings, Set(u, incoming, now, writeFails))
    {
      var host, changed := NormalizedHost(u.hostname), false;
      ghost var start := Progress(cookies, false, errors);
      for i := 0 to |incoming|
        invariant Progress(cookies, changed, errors)
               == StoreAll(start, incoming[..i], host, u.path, settings.allowed, now)
        invariant file == old(file)
      {
        StoreAllStep(start, incoming, i, host, u.path, settings.allowed, now);
        changed := StoreIncoming(incoming[i], host, u.path, now, changed);
      }
      assert incoming[..|incoming|] == incoming;
      if changed && settings.persists {
        var data := SerializeNetscapeCookies(cookies, settings.allowed);
        if data.Err? || writeFails { errors := errors + [WriteFailed]; } else { file := Some(data.value); }
      }
    }
  }

  lemma StoreAllStep(p: Progress, incoming: seq<SetCookie>, i: nat, host: string, urlPath: string,
                     allowed: seq<string>, now: int)
    requires i < |incoming|
    ensures StoreAll(p, incoming[..i + 1], host, urlPath, allowed, now)
         == StoreOne(StoreAll(p, incoming[..i], host, urlPath, allowed, now), incoming[i], host, urlPath, allowed, now)
  {
    assert incoming[..i + 1][..i] == incoming[..i];
  }
}
