/** When a cookie jar and its file stay in step, and exactly which cookies break the step. */
module JarTheorems {
  import opened Results
  import opened Sequences
  import opened Ordering
  import opened Text
  import opened NetscapeFile
  import opened NetscapeTheorems
  import opened CookieJar

  // ------------------------------------------------------------ settings

  /** The jar writes its file, and its configured hosts are non-empty normal forms, under hh.ru or not. */
  ghost predicate GoodSettings(settings: Settings) {
    settings.persists && forall a :: a in settings.allowed ==> a != "" && NormalizedHost(a) == a
  }

  /** A cookie that a clean call can store. Neither its host nor its path need be readable. */
  ghost predicate Storable(c: Cookie, settings: Settings) {
    Shaped(c) && WholeSeconds(c) && HostAllowed(c.domain, settings.allowed)
  }

  ghost predicate GoodCookies(cs: seq<Cookie>, settings: Settings) {
    DistinctKeys(cs) && forall c :: c in cs ==> Storable(c, settings)
  }

  /** A response as the http library delivers it: names, values and path attributes without tab and line break,
      expiries in whole seconds. The decoded path of the request may hold any character. */
  ghost predicate CleanCall(call: Call) {
    call.Set? ==>
      && call.now >= 0 && ShapedDomain(NormalizedHost(call.url.hostname))
      && forall s :: s in call.incoming ==> CleanCookie(s)
  }

  predicate CleanCookie(s: SetCookie) {
    && Clean(s.name) && Clean(s.value) && Clean(s.path)
    && (s.expires.Some? ==> s.expires.value % SECOND == 0 && s.expires.value / SECOND <= MAX_INT64)
  }

  lemma NormalEndsPlain(a: string)
    requires a != "" && NormalizedHost(a) == a
    ensures a[|a| - 1] != '.'
  {
    hide NormalizedHost;
    if a[|a| - 1] == '.' { FinalDotIsDropped(a); }
  }

  lemma FinalDotIsDropped(a: string)
    requires a != "" && a[|a| - 1] == '.'
    ensures |NormalizedHost(a)| < |a|
  {
    TrimShortens(a);
    TrimKeepsLast(a);
    assert HasSuffix(Trim(a), ".");
  }

  lemma {:induction false} TrimLeftShortens(s: string)
    ensures |TrimLeft(s)| <= |s| && TrimLeft(s) == s[|s| - |TrimLeft(s)|..]
  {
    if s != [] && IsSpace(s[0]) { TrimLeftShortens(s[1..]); }
  }

  lemma {:induction false} TrimRightShortens(s: string)
    ensures |TrimRight(s)| <= |s|
  {
    if s != [] && IsSpace(s[|s| - 1]) { TrimRightShortens(s[..|s| - 1]); }
  }

  lemma TrimShortens(s: string)
    ensures |Trim(s)| <= |s|
  {
    TrimLeftShortens(s);
    TrimRightShortens(TrimLeft(s));
  }

  lemma TrimKeepsLast(s: string)
    requires s != "" && !IsSpace(s[|s| - 1])
    ensures Trim(s) != "" && Trim(s)[|Trim(s)| - 1] == s[|s| - 1]
  {
    TrimLeftKeepsLast(s);
  }

  lemma {:induction false} TrimLeftKeepsLast(s: string)
    requires s != "" && !IsSpace(s[|s| - 1])
    ensures TrimLeft(s) != "" && TrimLeft(s)[|TrimLeft(s)| - 1] == s[|s| - 1]
  {
    if IsSpace(s[0]) { TrimLeftKeepsLast(s[1..]); }
  }

  lemma UnderEndsAlike(d: string, a: string)
    requires Under(d, a) && a != ""
    ensures d != "" && d[|d| - 1] == a[|a| - 1]
  {
    if d != a { assert d[|d| - |"." + a|..][|a|] == a[|a| - 1]; }
  }

  lemma ShapedIsNormal(d: string)
    requires ShapedDomain(d) && d[|d| - 1] != '.'
    ensures NormalizedHost(d) == d && TrimPrefix(Lower(d), ".") == d
  {
    assert d[0] in d && d[|d| - 1] in d;
    TrimNothing(d);
  }

  /** An allowed host is its own normal form, so the writer accepts it. */
  lemma AllowedHostPlain(d: string, settings: Settings)
    requires GoodSettings(settings) && ShapedDomain(d) && HostAllowed(d, settings.allowed)
    ensures NormalizedHost(d) == d && TrimPrefix(Lower(d), ".") == d && MatchesAllowed(d, settings.allowed)
  {
    var a :| a in settings.allowed && Under(d, a);
    NormalEndsPlain(a);
    UnderEndsAlike(d, a);
    ShapedIsNormal(d);
    assert Under(NormalizedHost(d), NormalizedHost(a));
  }

  lemma {:induction false} RowsSucceed(cs: seq<Cookie>, settings: Settings)
    requires GoodSettings(settings) && forall c :: c in cs ==> Storable(c, settings)
    ensures Rows(cs, RowFor(settings.allowed)).Ok?
  {
    hide NormalizedHost, MatchesAllowed, Fields, HostAllowed, Join, ShapedDomain;
    if cs != [] {
      assert cs[0] in cs;
      AllowedHostPlain(cs[0].domain, settings);
      RowsSucceed(cs[1..], settings);
    }
  }

  lemma SerializeSucceeds(cs: seq<Cookie>, settings: Settings)
    requires GoodSettings(settings) && forall c :: c in cs ==> Storable(c, settings)
    ensures Serialized(cs, settings.allowed).Ok?
  {
    hide Rows, Storable, GoodSettings, Header;
    SameElements(StableSort(CookieLess, cs), cs);
    RowsSucceed(StableSort(CookieLess, cs), settings);
  }

  // ------------------------------------------------- a jar and its file

  /** The live cookies are the same. */
  ghost predicate SameLive(t: int, a: seq<Cookie>, b: seq<Cookie>) {
    multiset(Filter(LiveAt(t), a)) == multiset(Filter(LiveAt(t), b))
  }

  /** Loading the file at time t gives exactly the live cookies of the jar. */
  ghost predicate LoadsRight(j: Jar, settings: Settings, t: int) {
    var loaded := Load(j.file, settings, t);
    loaded.Ok? && multiset(loaded.value) == multiset(Filter(LiveAt(t), j.cookies))
  }

  /** From now on, loading the file gives exactly the live cookies of the jar. */
  ghost predicate InStep(j: Jar, settings: Settings, now: int) {
    forall t :: t >= now ==> LoadsRight(j, settings, t)
  }

  /** The file is what was written last; without a file nothing was written. */
  ghost predicate FileHolds(file: Option<string>, settings: Settings, written: seq<Cookie>) {
    if file.None? then written == []
    else Serialized(written, settings.allowed) == Ok(file.value)
  }

  /** What was written last still agrees with the live cookies of the jar. */
  ghost predicate Tracks(j: Jar, settings: Settings, written: seq<Cookie>, now: int) {
    && GoodCookies(j.cookies, settings) && GoodCookies(written, settings)
    && FileHolds(j.file, settings, written)
    && forall t :: t >= now ==> SameLive(t, written, j.cookies)
  }

  lemma LoadsParsed(file: Option<string>, settings: Settings, t: int, cs: seq<Cookie>)
    requires settings.persists && file.Some? && Parsed(file.value, t) == Ok(cs)
    requires forall c :: c in cs ==> HostAllowed(NormalizedHost(c.domain), settings.allowed)
    ensures Load(file, settings, t) == Ok(cs)
  {
  }

  lemma AllowedWhenLoaded(cs: seq<Cookie>, settings: Settings)
    requires GoodSettings(settings) && forall c :: c in cs ==> Storable(c, settings)
    ensures forall c :: c in cs ==> HostAllowed(NormalizedHost(c.domain), settings.allowed)
  {
    hide NormalizedHost, HostAllowed, MatchesAllowed, ShapedDomain;
    forall c | c in cs ensures HostAllowed(NormalizedHost(c.domain), settings.allowed) {
      AllowedHostPlain(c.domain, settings);
    }
  }

  /** A file of readable cookies loads as its live ones. */
  lemma ReadableLoads(file: Option<string>, settings: Settings, written: seq<Cookie>, t: int)
    requires GoodSettings(settings) && FileHolds(file, settings, written)
    requires forall c :: c in written ==> Storable(c, settings) && Readable(c)
    ensures Load(file, settings, t) == Ok(Filter(LiveAt(t), StableSort(CookieLess, written)))
  {
    hide Parsed, Header, Rows, Storable, Readable;
    if file.Some? {
      var ordered := StableSort(CookieLess, written);
      forall c | c in written ensures Shaped(c) && WholeSeconds(c) && Readable(c) { StorableParts(c, settings); }
      RoundTrip(written, settings.allowed, t);
      SameElements(ordered, written);
      AllowedWhenLoaded(Filter(LiveAt(t), ordered), settings);
      LoadsParsed(file, settings, t, Filter(LiveAt(t), ordered));
    }
  }

  lemma StorableParts(c: Cookie, settings: Settings)
    requires Storable(c, settings)
    ensures Shaped(c) && WholeSeconds(c)
  {
  }

  /** A file with a cookie that is neither readable nor disguised does not load. */
  lemma UnreadableFails(file: Option<string>, settings: Settings, written: seq<Cookie>, c: Cookie, t: int)
    requires GoodSettings(settings) && FileHolds(file, settings, written) && c in written
    requires (forall x :: x in written ==> Shaped(x)) && !Readable(c) && !Disguised(c)
    ensures var r := Load(file, settings, t); r == Err(BadRow) || r == Err(LineTooLong)
  {
    hide Parsed, Shaped, Readable, Disguised, ReadBack;
    FileReadsBack(written, settings.allowed, t);
  }

  lemma LoadsTheParsed(file: Option<string>, settings: Settings, t: int)
    requires settings.persists && file.Some? && Load(file, settings, t).Ok?
    ensures Parsed(file.value, t) == Load(file, settings, t)
  {
  }

  lemma KeptIsAll(cs: seq<Cookie>, settings: Settings, now: int)
    requires forall c :: c in cs ==> Storable(c, settings)
    ensures EachIfLive(now, cs) == Filter(LiveAt(now), cs)
  {
    hide Shaped, HostAllowed;
    MapKeptWhole(cs);
  }

  /** A file with an unreadable cookie does not give the cookies back, if the disguised ones live. */
  lemma UnreadableIsWrong(text: string, cs: seq<Cookie>, settings: Settings, c: Cookie, now: int)
    requires Serialized(cs, settings.allowed) == Ok(text) && c in cs && !Readable(c)
    requires forall x :: x in cs ==> Storable(x, settings) && (Live(now, x) || !Disguised(x))
    ensures var back := Parsed(text, now);
      !(back.Ok? && multiset(back.value) == multiset(Filter(LiveAt(now), StableSort(CookieLess, cs))))
  {
    hide Readable, Disguised, Shaped, HostAllowed, Parsed, Serialized, StableSort, Live;
    forall x | x in cs ensures Live(now, Kept(x)) || !Disguised(x) { WholeSecondsKept(x); }
    ReadsRight(cs, settings.allowed, now);
    SameElements(StableSort(CookieLess, cs), cs);
    KeptIsAll(StableSort(CookieLess, cs), settings, now);
  }

  /** A jar just written, whatever it holds: reloading the file at once gives its live cookies exactly when every
      cookie is readable. */
  lemma WrittenLoadsRight(j: Jar, settings: Settings, now: int)
    requires GoodSettings(settings) && FileHolds(j.file, settings, j.cookies)
    requires forall c :: c in j.cookies ==> Storable(c, settings) && (Live(now, c) || !Disguised(c))
    ensures LoadsRight(j, settings, now) <==> forall c :: c in j.cookies ==> Readable(c)
  {
    hide Readable, Disguised, Storable, Parsed, Serialized, Load, Live, StableSort;
    FilterOfPermutation(LiveAt(now), StableSort(CookieLess, j.cookies), j.cookies);
    if forall c :: c in j.cookies ==> Readable(c) {
      ReadableLoads(j.file, settings, j.cookies, now);
    } else {
      var c :| c in j.cookies && !Readable(c);
      UnreadableIsWrong(j.file.value, j.cookies, settings, c, now);
      if Load(j.file, settings, now).Ok? { LoadsTheParsed(j.file, settings, now); }
    }
  }

  lemma ReadableInStep(j: Jar, settings: Settings, written: seq<Cookie>, now: int)
    requires GoodSettings(settings) && Tracks(j, settings, written, now)
    requires forall c :: c in written ==> Readable(c)
    ensures InStep(j, settings, now)
  {
    hide FileHolds, Load, Storable, Readable, GoodSettings;
    forall t | t >= now ensures LoadsRight(j, settings, t) {
      ReadableLoads(j.file, settings, written, t);
      assert SameLive(t, written, j.cookies);
      FilterOfPermutation(LiveAt(t), StableSort(CookieLess, written), written);
    }
  }

  lemma UnreadableOutOfStep(j: Jar, settings: Settings, written: seq<Cookie>, c: Cookie, now: int)
    requires GoodSettings(settings) && Tracks(j, settings, written, now)
    requires c in written && !Readable(c) && forall x :: x in written ==> Live(now, x) || !Disguised(x)
    ensures !LoadsRight(j, settings, now)
  {
    hide Load, Storable, Readable, Disguised, Live, Serialized, Parsed, StableSort;
    assert SameLive(now, written, j.cookies);
    FilterOfPermutation(LiveAt(now), StableSort(CookieLess, written), written);
    UnreadableIsWrong(j.file.value, written, settings, c, now);
    if Load(j.file, settings, now).Ok? { LoadsTheParsed(j.file, settings, now); }
  }

  /** A jar whose writes all succeeded is in step with its file if every cookie in the file is readable: its host is
      under hh.ru, its path holds neither tab nor line feed, and its row is shorter than the reader's limit. As long
      as the disguised cookies live, it is in step only then. */
  lemma InStepIffReadable(j: Jar, settings: Settings, written: seq<Cookie>, now: int)
    requires GoodSettings(settings) && Tracks(j, settings, written, now)
    ensures (forall c :: c in written ==> Readable(c)) ==> InStep(j, settings, now)
    ensures (forall c :: c in written ==> Live(now, c) || !Disguised(c)) ==>
      (InStep(j, settings, now) <==> forall c :: c in written ==> Readable(c))
  {
    hide Tracks, LoadsRight, Readable, GoodSettings, Disguised, Live;
    if forall c :: c in written ==> Readable(c) {
      ReadableInStep(j, settings, written, now);
    } else if forall c :: c in written ==> Live(now, c) || !Disguised(c) {
      var c :| c in written && !Readable(c);
      UnreadableOutOfStep(j, settings, written, c, now);
    }
  }

  // ---------------------------------------------------------- every call

  lemma AcceptedStorable(cs: seq<Cookie>, s: SetCookie, host: string, urlPath: string, settings: Settings, now: int)
    requires now >= 0 && ShapedDomain(host) && CleanCookie(s)
    requires Accepted(cs, s, host, urlPath, settings.allowed, now).Ok? && !Deletes(s, now)
    ensures Storable(Accepted(cs, s, host, urlPath, settings.allowed, now).value, settings)
  {
    hide DefaultPath, Lower, IsHHHost, NormalizedHost, ActiveHostOnly;
  }

  lemma {:induction false} StoreAllGood(p: Progress, incoming: seq<SetCookie>, u: Url, settings: Settings, now: int)
    requires CleanCall(Set(u, incoming, now, false)) && GoodCookies(p.cookies, settings)
    ensures var q := StoreAll(p, incoming, NormalizedHost(u.hostname), u.path, settings.allowed, now);
      GoodCookies(q.cookies, settings) && (!q.changed ==> q.cookies == p.cookies)
  {
    hide Accepted, Stored, Deletes, Storable, DefaultPath, ShapedDomain, NormalizedHost, CleanCookie;
    if incoming != [] {
      var before, s := incoming[..|incoming| - 1], incoming[|incoming| - 1];
      assert s in incoming && forall x :: x in before ==> x in incoming;
      var host := NormalizedHost(u.hostname);
      StoreAllGood(p, before, u, settings, now);
      var q := StoreAll(p, before, host, u.path, settings.allowed, now);
      var accepted := Accepted(q.cookies, s, host, u.path, settings.allowed, now);
      if accepted.Ok? {
        StoredExact(q.cookies, accepted.value, Deletes(s, now));
        if !Deletes(s, now) { AcceptedStorable(q.cookies, s, host, u.path, settings, now); }
      }
    }
  }

  lemma FilterLater(cs: seq<Cookie>, now: int, t: int)
    requires now <= t
    ensures Filter(LiveAt(t), Filter(LiveAt(now), cs)) == Filter(LiveAt(t), cs)
  {
    FilterTwice(LiveAt(now), LiveAt(t), LiveAt(t), cs);
  }

  lemma {:induction false} FilterDistinctKeys(cs: seq<Cookie>, p: Cookie -> bool)
    requires DistinctKeys(cs)
    ensures DistinctKeys(Filter(p, cs))
  {
    hide KeyOf;
    if cs != [] {
      FilterDistinctKeys(cs[1..], p);
      var rest := Filter(p, cs[1..]);
      forall c | c in rest ensures KeyOf(c) != KeyOf(cs[0]) { assert c in cs[1..]; }
      ConsDistinctKeys(cs[0], rest);
      assert Filter(p, cs) == if p(cs[0]) then [cs[0]] + rest else rest;
    }
  }

  lemma ConsDistinctKeys(c: Cookie, rest: seq<Cookie>)
    requires DistinctKeys(rest) && forall x :: x in rest ==> KeyOf(x) != KeyOf(c)
    ensures DistinctKeys([c] + rest)
  {
  }

  lemma PermutedDistinctKeys(cs: seq<Cookie>, ds: seq<Cookie>)
    requires DistinctKeys(cs) && multiset(cs) == multiset(ds)
    ensures DistinctKeys(ds)
  {
    hide KeyOf;
    DistinctPermutation(cs, ds);
    SameElements(cs, ds);
    forall i, j | 0 <= i < j < |ds| ensures KeyOf(ds[i]) != KeyOf(ds[j]) {
      assert ds[i] in cs && ds[j] in cs && ds[i] != ds[j];
    }
  }

  /** What the file holds after a call. */
  function WrittenBy(j: Jar, settings: Settings, written: seq<Cookie>, call: Call): seq<Cookie> {
    if !call.Set? then written else
      var start := Progress(j.cookies, false, j.errors);
      var p := StoreAll(start, call.incoming, NormalizedHost(call.url.hostname), call.url.path, settings.allowed,
                        call.now);
      if p.changed then p.cookies else written
  }

  lemma SetTracks(j: Jar, settings: Settings, written: seq<Cookie>, call: Call, now: int)
    requires GoodSettings(settings) && Tracks(j, settings, written, now) && CleanCall(call) && now <= call.now
    requires call.Set? && !call.writeFails
    ensures Tracks(Effect(j, settings, call), settings, WrittenBy(j, settings, written, call), call.now)
  {
    hide StoreAll, Serialized, GoodCookies, CleanCall, NormalizedHost;
    var start := Progress(j.cookies, false, j.errors);
    StoreAllGood(start, call.incoming, call.url, settings, call.now) by { CleanWithoutFailure(call); }
    var p := StoreAll(start, call.incoming, NormalizedHost(call.url.hostname), call.url.path, settings.allowed,
                      call.now);
    if p.changed {
      GoodStorable(p.cookies, settings);
      SerializeSucceeds(p.cookies, settings);
    }
  }

  lemma CleanWithoutFailure(call: Call)
    requires CleanCall(call) && call.Set?
    ensures CleanCall(Set(call.url, call.incoming, call.now, false))
  {
  }

  lemma GoodStorable(cs: seq<Cookie>, settings: Settings)
    requires GoodCookies(cs, settings)
    ensures forall c :: c in cs ==> Storable(c, settings)
  {
  }

  lemma ServeTracks(j: Jar, settings: Settings, written: seq<Cookie>, at: int, now: int)
    requires Tracks(j, settings, written, now) && now <= at
    ensures Tracks(Effect(j, settings, Serve(at)), settings, written, at)
  {
    hide Live, Serialized, Storable, DistinctKeys;
    FilterDistinctKeys(j.cookies, LiveAt(at));
    var kept := Filter(LiveAt(at), j.cookies);
    forall t | t >= at ensures SameLive(t, written, kept) {
      FilterLater(j.cookies, at, t);
      assert SameLive(t, written, j.cookies);
    }
  }

  lemma LoadedTracks(settings: Settings, file: Option<string>, written: seq<Cookie>, at: int)
    requires GoodCookies(written, settings) && FileHolds(file, settings, written)
    ensures Tracks(Jar(Filter(LiveAt(at), StableSort(CookieLess, written)), file, []), settings, written, at)
  {
    hide Live, Serialized, Storable, DistinctKeys, FileHolds, StableSort;
    var ordered := StableSort(CookieLess, written);
    PermutedDistinctKeys(written, ordered);
    SameElements(written, ordered);
    FilterDistinctKeys(ordered, LiveAt(at));
    var loaded := Filter(LiveAt(at), ordered);
    forall t | t >= at ensures SameLive(t, written, loaded) {
      FilterLater(ordered, at, t);
      FilterOfPermutation(LiveAt(t), ordered, written);
    }
  }

  ghost predicate NoneDisguised(cs: seq<Cookie>) { forall c :: c in cs ==> !Disguised(c) }

  lemma ReloadTracks(j: Jar, settings: Settings, written: seq<Cookie>, at: int, now: int)
    requires GoodSettings(settings) && Tracks(j, settings, written, now) && now <= at && NoneDisguised(written)
    ensures Tracks(Effect(j, settings, Reload(at)), settings, written, at)
  {
    hide Readable, Storable, Disguised, Load, GoodSettings, DistinctKeys, FileHolds, StableSort, SameLive;
    if forall c :: c in written ==> Readable(c) {
      ReadableLoads(j.file, settings, written, at);
      LoadedTracks(settings, j.file, written, at);
    } else {
      var c :| c in written && !Readable(c);
      forall x | x in written ensures Shaped(x) { StorableParts(x, settings); }
      UnreadableFails(j.file, settings, written, c, at);
    }
  }

  /** One call, made no earlier than the jar last agreed with what was written. */
  lemma CallTracks(j: Jar, settings: Settings, written: seq<Cookie>, call: Call, now: int)
    requires GoodSettings(settings) && Tracks(j, settings, written, now) && CleanCall(call) && now <= call.now
    requires (call.Set? ==> !call.writeFails) && (call.Reload? ==> NoneDisguised(written))
    ensures Tracks(Effect(j, settings, call), settings, WrittenBy(j, settings, written, call), call.now)
  {
    hide NoneDisguised, Tracks, Effect, CleanCall, GoodSettings;
    match call
    case Serve(at) => ServeTracks(j, settings, written, at, now);
    case Reload(at) => ReloadTracks(j, settings, written, at, now);
    case Set(_, _, _, _) => SetTracks(j, settings, written, call, now);
  }

  // ----------------------------------------------------------- every run

  function AfterCalls(j: Jar, settings: Settings, calls: seq<Call>): Jar
    decreases |calls|
  {
    if calls == [] then j else AfterCalls(Effect(j, settings, calls[0]), settings, calls[1..])
  }

  function WrittenAfter(j: Jar, settings: Settings, written: seq<Cookie>, calls: seq<Call>): seq<Cookie>
    decreases |calls|
  {
    if calls == [] then written
    else WrittenAfter(Effect(j, settings, calls[0]), settings, WrittenBy(j, settings, written, calls[0]), calls[1..])
  }

  /** The calls come in the order of their times, the first not before now. */
  ghost predicate InTimeOrder(now: int, calls: seq<Call>)
    decreases |calls|
  {
    calls != [] ==> now <= calls[0].now && InTimeOrder(calls[0].now, calls[1..])
  }

  function LastTime(now: int, calls: seq<Call>): int
    decreases |calls|
  {
    if calls == [] then now else LastTime(calls[0].now, calls[1..])
  }

  /** No restart reads a file that holds a disguised cookie. */
  ghost predicate PlainReloads(j: Jar, settings: Settings, written: seq<Cookie>, calls: seq<Call>)
    decreases |calls|
  {
    calls != [] ==>
      && (calls[0].Reload? ==> NoneDisguised(written))
      && PlainReloads(Effect(j, settings, calls[0]), settings, WrittenBy(j, settings, written, calls[0]), calls[1..])
  }

  lemma {:induction false} RunTracks(j: Jar, settings: Settings, written: seq<Cookie>, calls: seq<Call>, now: int)
    requires GoodSettings(settings) && Tracks(j, settings, written, now)
    requires InTimeOrder(now, calls) && forall c :: c in calls ==> CleanCall(c) && (c.Set? ==> !c.writeFails)
    requires PlainReloads(j, settings, written, calls)
    ensures Tracks(AfterCalls(j, settings, calls), settings, WrittenAfter(j, settings, written, calls),
                   LastTime(now, calls))
    decreases |calls|
  {
    hide NoneDisguised, Tracks, Effect, CleanCall, GoodSettings, WrittenBy;
    if calls != [] {
      CallTracks(j, settings, written, calls[0], now);
      var next := WrittenBy(j, settings, written, calls[0]);
      RunTracks(Effect(j, settings, calls[0]), settings, next, calls[1..], calls[0].now);
    }
  }

  /** The jar refines its file: over every run of responses, requests and restarts in time order, as long as no
      write fails and no restart reads a disguised cookie, keys stay distinct, and reloading the file gives exactly
      the live cookies of the jar if, and as long as its disguised cookies live only if, every cookie in the file
      has an hh.ru host, a path without tab and line feed, and a row below the reader's limit. */
  lemma JarStaysInStep(settings: Settings, calls: seq<Call>, now: int)
    requires GoodSettings(settings) && PlainReloads(EmptyJar(), settings, [], calls)
    requires InTimeOrder(now, calls) && forall c :: c in calls ==> CleanCall(c) && (c.Set? ==> !c.writeFails)
    ensures var j, written, end := AfterCalls(EmptyJar(), settings, calls),
        WrittenAfter(EmptyJar(), settings, [], calls), LastTime(now, calls);
      && DistinctKeys(j.cookies)
      && FileHolds(j.file, settings, written)
      && ((forall c :: c in written ==> Readable(c)) ==> InStep(j, settings, end))
      && ((forall c :: c in written ==> Live(end, c) || !Disguised(c)) ==>
          (InStep(j, settings, end) <==> forall c :: c in written ==> Readable(c)))
  {
    hide AfterCalls, WrittenAfter, InTimeOrder, LastTime, CleanCall, Readable, InStep, FileHolds, PlainReloads, Live,
        Disguised;
    EmptyJarTracks(settings, now);
    RunTracks(EmptyJar(), settings, [], calls, now);
    var j, written := AfterCalls(EmptyJar(), settings, calls), WrittenAfter(EmptyJar(), settings, [], calls);
    InStepIffReadable(j, settings, written, LastTime(now, calls));
  }

  function EmptyJar(): Jar { Jar([], None, []) }

  lemma EmptyJarTracks(settings: Settings, now: int)
    ensures Tracks(EmptyJar(), settings, [], now)
  {
  }

  // ------------------------------------------------------ ordinary paths

  /** A response to a request whose directory disguises no row, with path attributes that are one line. */
  ghost predicate OrdinaryPaths(call: Call) {
    call.Set? ==> !DisguisedPath(DefaultPath(call.url.path)) && forall s :: s in call.incoming ==> Clean(s.path)
  }

  lemma StoredWithin(cs: seq<Cookie>, c: Cookie, deletes: bool)
    ensures forall x :: x in Stored(cs, c, deletes) ==> x in cs || x == c
  {
    var i := IndexOf(cs, KeyOf(c));
    hide IndexOf, KeyOf;
    if i >= 0 { SplicedWithin(cs, i, c); }
  }

  lemma SplicedWithin(cs: seq<Cookie>, i: nat, c: Cookie)
    requires i < |cs|
    ensures forall x :: x in cs[..i] + cs[i + 1..] ==> x in cs
    ensures forall x :: x in cs[i := c] ==> x in cs || x == c
  {
    forall x | x in cs[i := c] ensures x in cs || x == c {
      var k :| 0 <= k < |cs| && cs[i := c][k] == x;
      if k != i { assert cs[k] == x; }
    }
  }

  lemma {:induction false} StoreAllOrdinary(p: Progress, incoming: seq<SetCookie>, host: string, urlPath: string,
                                            allowed: seq<string>, now: int)
    requires NoneDisguised(p.cookies) && !DisguisedPath(DefaultPath(urlPath))
    requires forall s :: s in incoming ==> Clean(s.path)
    ensures NoneDisguised(StoreAll(p, incoming, host, urlPath, allowed, now).cookies)
  {
    hide Accepted, Stored, Deletes, Disguised, DisguisedPath, DefaultPath, Clean;
    if incoming != [] {
      var before, s := incoming[..|incoming| - 1], incoming[|incoming| - 1];
      assert s in incoming && forall x :: x in before ==> x in incoming;
      StoreAllOrdinary(p, before, host, urlPath, allowed, now);
      var q := StoreAll(p, before, host, urlPath, allowed, now);
      var accepted := Accepted(q.cookies, s, host, urlPath, allowed, now);
      if accepted.Ok? {
        StoredWithin(q.cookies, accepted.value, Deletes(s, now));
        AcceptedOrdinary(q.cookies, s, host, urlPath, allowed, now);
      }
    }
  }

  lemma AcceptedOrdinary(cs: seq<Cookie>, s: SetCookie, host: string, urlPath: string, allowed: seq<string>, now: int)
    requires Accepted(cs, s, host, urlPath, allowed, now).Ok?
    requires !DisguisedPath(DefaultPath(urlPath)) && Clean(s.path)
    ensures !Disguised(Accepted(cs, s, host, urlPath, allowed, now).value)
  {
    hide DefaultPath, Lower, IsHHHost, NormalizedHost, BeforeLineFeed, Times, ActiveHostOnly;
  }

  lemma CallOrdinary(j: Jar, settings: Settings, written: seq<Cookie>, call: Call)
    requires NoneDisguised(j.cookies) && NoneDisguised(written) && OrdinaryPaths(call)
    ensures NoneDisguised(Effect(j, settings, call).cookies) && NoneDisguised(WrittenBy(j, settings, written, call))
  {
    hide Disguised, DisguisedPath, DefaultPath, StoreAll, Serialized, Parsed, Live, NormalizedHost, Clean, HostAllowed;
    match call
    case Serve(_) =>
    case Set(u, incoming, now, _) =>
      StoreAllOrdinary(Progress(j.cookies, false, j.errors), incoming, NormalizedHost(u.hostname), u.path,
                       settings.allowed, now);
    case Reload(now) =>
      if j.file.Some? {
        TextInFormat(j.file.value, now);
        forall c: Cookie { DisguisedOutOfFormat(c); }
        hide InFormat;
      }
  }

  /** Without disguising paths no restart reads a disguised cookie. */
  lemma {:induction false} OrdinaryRun(j: Jar, settings: Settings, written: seq<Cookie>, calls: seq<Call>)
    requires NoneDisguised(j.cookies) && NoneDisguised(written) && forall c :: c in calls ==> OrdinaryPaths(c)
    ensures PlainReloads(j, settings, written, calls) && NoneDisguised(WrittenAfter(j, settings, written, calls))
    decreases |calls|
  {
    hide NoneDisguised, OrdinaryPaths, Effect, WrittenBy;
    if calls != [] {
      var c := calls[0];
      CallOrdinary(j, settings, written, c);
      OrdinaryRun(Effect(j, settings, c), settings, WrittenBy(j, settings, written, c), calls[1..]);
    }
  }

  // ----------------------------------------------- what breaks the step

  /** A cookie as most responses set it: with neither domain nor path. */
  function PlainSet(name: string, value: string): SetCookie { SetCookie(name, value, "", "", false, false, None, 0) }

  lemma DefaultPathRooted(p: string)
    ensures HasPrefix(DefaultPath(p), "/")
  {
    var i := LastSlash(p);
    if HasPrefix(p, "/") && i > 0 { assert p[..i][0] == p[0]; }
  }

  /** The cookie that is stored for a plain one. */
  function PlainCookie(u: Url, name: string, value: string): Cookie {
    Cookie(name, value, NormalizedHost(u.hostname), DefaultPath(u.path), false, false, None, true)
  }

  lemma FirstStored(settings: Settings, u: Url, name: string, value: string, now: int)
    requires HostAllowed(NormalizedHost(u.hostname), settings.allowed) && name != ""
    ensures var host := NormalizedHost(u.hostname);
      StoreAll(Progress([], false, []), [PlainSet(name, value)], host, u.path, settings.allowed, now)
        == Progress([PlainCookie(u, name, value)], true, [])
  {
    var host, start, s := NormalizedHost(u.hostname), Progress([], false, []), PlainSet(name, value);
    DefaultPathRooted(u.path);
    hide DefaultPath, NormalizedHost, HostAllowed, LastSlash;
    assert [s][..0] == [] && StoreAll(start, [], host, u.path, settings.allowed, now) == start;
    assert Accepted([], s, host, u.path, settings.allowed, now) == Ok(PlainCookie(u, name, value));
  }

  lemma PlainStorable(settings: Settings, u: Url, name: string, value: string)
    requires HostAllowed(NormalizedHost(u.hostname), settings.allowed)
    requires ShapedDomain(NormalizedHost(u.hostname)) && name != "" && Clean(name) && Clean(value)
    ensures Storable(PlainCookie(u, name, value), settings)
    ensures forall c :: c in [PlainCookie(u, name, value)] ==> Storable(c, settings)
  {
    DefaultPathRooted(u.path);
    hide DefaultPath, NormalizedHost, HostAllowed, ShapedDomain, Clean;
  }

  /** The first cookie that an empty jar stores. Its path is the decoded path of the request up to the last slash;
      jar and file agree at once exactly if the cookie is readable. A cookie that does not expire lives, so this
      holds for every path. */
  lemma FirstCookieLoads(settings: Settings, u: Url, name: string, value: string, now: int)
    requires GoodSettings(settings) && HostAllowed(NormalizedHost(u.hostname), settings.allowed)
    requires ShapedDomain(NormalizedHost(u.hostname)) && name != "" && Clean(name) && Clean(value)
    ensures var j := Effect(EmptyJar(), settings, Set(u, [PlainSet(name, value)], now, false));
      && j.cookies == [PlainCookie(u, name, value)] && j.errors == []
      && j.file.Some? && FileHolds(j.file, settings, j.cookies)
      && (LoadsRight(j, settings, now) <==> Readable(PlainCookie(u, name, value)))
  {
    var c := PlainCookie(u, name, value);
    FirstStored(settings, u, name, value, now);
    PlainStorable(settings, u, name, value);
    SerializeSucceeds([c], settings);
    hide StoreAll, Serialized, Storable, LoadsRight, DefaultPath, NormalizedHost, Readable, PlainSet;
    var j := Effect(EmptyJar(), settings, Set(u, [PlainSet(name, value)], now, false));
    assert GoodSettings(settings) && settings.persists;
    assert j.cookies == [c] && FileHolds(j.file, settings, [c]);
    WrittenLoadsRight(j, settings, now);
    assert forall x :: x in [c] ==> x == c;
    assert c in [c];
  }

  lemma PathUpTo(dir: string, leaf: string)
    requires dir != "" && dir[0] == '/' && '/' !in leaf
    ensures DefaultPath(dir + "/" + leaf) == dir
  {
    var p := dir + "/" + leaf;
    var i := LastSlash(p);
    hide LastSlash;
    assert p[|dir|] == '/' && p[..|dir|] == dir;
    assert forall k :: |dir| < k < |p| ==> p[k] == leaf[k - |dir| - 1];
  }

  /** A host of lower-case letters and inner dots. */
  predicate LetterHost(d: string) {
    && d != "" && 'a' <= d[0] <= 'z' && 'a' <= d[|d| - 1] <= 'z'
    && forall i :: 0 <= i < |d| ==> 'a' <= d[i] <= 'z' || d[i] == '.'
  }

  lemma LetterHostPlain(d: string)
    requires LetterHost(d)
    ensures ShapedDomain(d) && NormalizedHost(d) == d && Lower(TrimSuffix(Trim(d), ".")) == d
  {
    hide Lower;
    assert Lower(d) == d;
    TrimNothing(d);
    ShapedIsNormal(d);
  }

  lemma HHIsPlain()
    ensures LetterHost("hh.ru")
  {
  }

  lemma OtherHost()
    ensures LetterHost("x.org") && !Under("x.org", "hh.ru")
  {
  }

  /** A session with one configured host. */
  function OneHost(host: string): Settings { Settings([host], true) }

  lemma OneHostGood(host: string)
    requires LetterHost(host)
    ensures GoodSettings(OneHost(host)) && HostAllowed(NormalizedHost(host), OneHost(host).allowed)
    ensures ShapedDomain(NormalizedHost(host)) && NormalizedHost(host) == host
            && (IsHHHost(host) <==> Under(host, "hh.ru"))
  {
    LetterHostPlain(host);
    hide NormalizedHost, ShapedDomain, LetterHost, Lower, Trim, TrimSuffix;
    assert host in OneHost(host).allowed;
  }

  /** The jar after the first response to a request for dir/leaf has set one cookie. */
  function FirstJar(host: string, dir: string, leaf: string, escaped: string, s: SetCookie, now: int): Jar {
    Effect(EmptyJar(), OneHost(host), Set(Url("https", host, dir + "/" + leaf, escaped), [s], now, false))
  }

  /** What the first response to a request for dir/leaf makes the jar store. */
  function FirstCookie(host: string, dir: string, name: string, value: string): Cookie {
    Cookie(name, value, host, dir, false, false, None, true)
  }

  lemma FirstCookiePlain(host: string, dir: string, leaf: string, escaped: string, name: string, value: string)
    requires LetterHost(host) && dir != "" && dir[0] == '/' && '/' !in leaf
    ensures PlainCookie(Url("https", host, dir + "/" + leaf, escaped), name, value)
         == FirstCookie(host, dir, name, value)
  {
    OneHostGood(host);
    PathUpTo(dir, leaf);
  }

  lemma TabBytes(s: string, t: string)
    ensures Bytes(s + "\t" + t) == Bytes(s) + 1 + Bytes(t)
  {
    BytesAppend(s + "\t", t);
    BytesAppend(s, "\t");
  }

  lemma FalseIsFive()
    ensures Flag(false) == "FALSE" && Bytes("FALSE") == 5
  {
    var f := "FALSE";
    assert f[1..] == "ALSE" && f[2..] == "LSE" && f[3..] == "SE" && f[4..] == "E" && f[5..] == "";
    assert Bytes("E") == 1 && Bytes("SE") == 2 && Bytes("LSE") == 3 && Bytes("ALSE") == 4;
  }

  lemma JoinFour(a: string, b: string, c: string, d: string)
    ensures Join([a, b, c, d], '\t') == a + "\t" + (b + "\t" + (c + "\t" + d))
  {
    assert [a, b, c, d][1..] == [b, c, d] && [b, c, d][1..] == [c, d] && [c, d][1..] == [d];
    assert Join([d], '\t') == d;
    assert Join([c, d], '\t') == c + "\t" + d;
    assert Join([b, c, d], '\t') == b + "\t" + (c + "\t" + d);
  }

  lemma FirstEnding(host: string, dir: string, name: string, value: string)
    ensures Join(Ending(FirstCookie(host, dir, name, value)), '\t')
         == "FALSE" + "\t" + ("0" + "\t" + (name + "\t" + value))
  {
    var ending := Ending(FirstCookie(host, dir, name, value));
    FalseIsFive();
    ZeroIsOne();
    assert ending == ["FALSE", "0", name, value];
    hide *;
    JoinFour("FALSE", "0", name, value);
  }

  /** The row of such a cookie is 17 bytes longer than its four texts. */
  lemma FirstRowBytes(host: string, dir: string, name: string, value: string)
    requires LetterHost(host) && dir != "" && dir[0] == '/'
    ensures Bytes(Join(Fields(FirstCookie(host, dir, name, value)), '\t'))
         == Bytes(host) + Bytes(dir) + Bytes(name) + Bytes(value) + 17
  {
    hide DomainField, Fields, Join, Ending, Bytes, Flag, RowTail, LetterHost;
    var c := FirstCookie(host, dir, name, value);
    FirstDomainField(host, dir, name, value);
    RowInParts(c);
    FirstEnding(host, dir, name, value);
    FalseIsFive();
    RowTailOf(c);
    ZeroIsOne();
    SevenBytes(host, "FALSE", dir, "FALSE", "0", name, value);
  }

  lemma RowTailOf(c: Cookie)
    ensures RowTail(c) == Flag(!c.hostOnly) + "\t" + (c.path + "\t" + Join(Ending(c), '\t'))
  {
  }

  lemma FirstDomainField(host: string, dir: string, name: string, value: string)
    requires LetterHost(host)
    ensures DomainField(FirstCookie(host, dir, name, value)) == host
  {
    LetterHostPlain(host);
    ShapedDomainPlain(host, false);
  }

  lemma ZeroIsOne()
    ensures FormatInt(0) == "0" && Bytes("0") == 1
  {
    assert "0"[1..] == "";
  }

  lemma SevenBytes(a: string, b: string, c: string, d: string, e: string, f: string, g: string)
    ensures Bytes(a + "\t" + (b + "\t" + (c + "\t" + (d + "\t" + (e + "\t" + (f + "\t" + g))))))
         == Bytes(a) + Bytes(b) + Bytes(c) + Bytes(d) + Bytes(e) + Bytes(f) + Bytes(g) + 6
  {
    hide *;
    var fg := f + "\t" + g;
    var eg := e + "\t" + fg;
    var dg := d + "\t" + eg;
    var cg := c + "\t" + dg;
    TabBytes(f, g);
    TabBytes(e, fg);
    TabBytes(d, eg);
    TabBytes(c, dg);
    TabBytes(b, cg);
    TabBytes(a, b + "\t" + cg);
  }

  lemma FirstReadable(host: string, dir: string, name: string, value: string)
    requires LetterHost(host) && dir != "" && dir[0] == '/'
    ensures Readable(FirstCookie(host, dir, name, value)) <==>
      Under(host, "hh.ru") && Plain(dir) && Bytes(host) + Bytes(dir) + Bytes(name) + Bytes(value) + 17 < MAX_LINE
  {
    OneHostGood(host);
    FirstRowBytes(host, dir, name, value);
    hide LetterHost, Bytes, Join, Fields, Under, IsHHHost, Plain;
  }

  /** The cookie is always stored and written without an error; whether the file can be loaded again depends
      on the host, the directory of the request and the length of the row. */
  lemma FirstJarLoads(host: string, dir: string, leaf: string, escaped: string, name: string, value: string, now: int)
    requires LetterHost(host) && dir != "" && dir[0] == '/' && '/' !in leaf
    requires name != "" && Clean(name) && Clean(value)
    ensures var j := FirstJar(host, dir, leaf, escaped, PlainSet(name, value), now);
      && j.cookies == [FirstCookie(host, dir, name, value)] && j.errors == []
      && j.file.Some? && FileHolds(j.file, OneHost(host), j.cookies)
      && (LoadsRight(j, OneHost(host), now) <==>
          Under(host, "hh.ru") && Plain(dir) && Bytes(host) + Bytes(dir) + Bytes(name) + Bytes(value) + 17 < MAX_LINE)
  {
    OneHostGood(host);
    FirstCookiePlain(host, dir, leaf, escaped, name, value);
    FirstReadable(host, dir, name, value);
    hide Effect, LoadsRight, NormalizedHost, DefaultPath, IsHHHost, ShapedDomain, PlainSet, Plain, Clean, LetterHost;
    hide HostAllowed, Under, GoodSettings, OneHost, Bytes, Readable, FirstCookie, FileHolds, PlainCookie;
    FirstCookieLoads(OneHost(host), Url("https", host, dir + "/" + leaf, escaped), name, value, now);
  }

  /** A text of n letters. */
  function Letters(n: nat): (s: string)
    ensures |s| == n && Clean(s)
  {
    seq(n, _ => 'x')
  }

  /** The requests for /a%09b/c and /a%0Ab/c on hh.ru, any request on a configured host outside it, and a value of
      64 KB store a cookie that the written file cannot give back. */
  lemma StepCanBeLost(s: SetCookie, long: SetCookie, now: int)
    requires s == PlainSet("n", "v") && long == PlainSet("n", Letters(MAX_LINE))
    ensures !LoadsRight(FirstJar("hh.ru", "/a\tb", "c", "/a%09b/c", s, now), OneHost("hh.ru"), now)
    ensures !LoadsRight(FirstJar("hh.ru", "/a\nb", "c", "/a%0Ab/c", s, now), OneHost("hh.ru"), now)
    ensures !LoadsRight(FirstJar("x.org", "/a", "c", "/a/c", s, now), OneHost("x.org"), now)
    ensures !LoadsRight(FirstJar("hh.ru", "/a", "c", "/a/c", long, now), OneHost("hh.ru"), now)
  {
    HHIsPlain();
    OtherHost();
    assert "/a\tb"[2] == '\t' && "/a\nb"[2] == '\n' && '/' !in "c" && Clean("n") && Clean("v");
    var value := Letters(MAX_LINE);
    BytesBound(value);
    hide FirstJar, LoadsRight, PlainSet, LetterHost, Under, Bytes, Letters;
    FirstJarLoads("hh.ru", "/a\tb", "c", "/a%09b/c", "n", "v", now);
    FirstJarLoads("hh.ru", "/a\nb", "c", "/a%0Ab/c", "n", "v", now);
    FirstJarLoads("x.org", "/a", "c", "/a/c", "n", "v", now);
    FirstJarLoads("hh.ru", "/a", "c", "/a/c", "n", value, now);
  }

  /** The responses to /a%20b/c and /a%2Fb/c on hh.ru store a cookie that goes back to neither. */
  lemma SetterCanBeForgotten(s: SetCookie, now: int)
    requires s == PlainSet("n", "v")
    ensures var j := FirstJar("hh.ru", "/a b", "c", "/a%20b/c", s, now);
      j.cookies != [] && Filter(SentTo(Url("https", "hh.ru", "/a b" + "/" + "c", "/a%20b/c")), j.cookies) == []
    ensures var j := FirstJar("hh.ru", "/a/b", "c", "/a%2Fb/c", s, now);
      j.cookies != [] && Filter(SentTo(Url("https", "hh.ru", "/a/b" + "/" + "c", "/a%2Fb/c")), j.cookies) == []
  {
    assert "/a%20b/c"[2] == '%' && "/a%2Fb/c"[2] == '%';
    NeverSentBack("/a b", "c", "/a%20b/c", now);
    NeverSentBack("/a/b", "c", "/a%2Fb/c", now);
  }

  lemma NeverSentBack(dir: string, leaf: string, escaped: string, now: int)
    requires dir != "" && dir[0] == '/' && '/' !in leaf && |escaped| >= |dir| && !HasPrefix(escaped, dir)
    ensures var j := FirstJar("hh.ru", dir, leaf, escaped, PlainSet("n", "v"), now);
      j.cookies != [] && Filter(SentTo(Url("https", "hh.ru", dir + "/" + leaf, escaped)), j.cookies) == []
  {
    HHIsPlain();
    assert Clean("n") && Clean("v");
    hide FirstJar, PlainSet, LetterHost, CookieDomainMatches, LoadsRight, FileHolds, Plain, Under, Bytes, Clean;
    FirstJarLoads("hh.ru", dir, leaf, escaped, "n", "v", now);
    var c := FirstCookie("hh.ru", dir, "n", "v");
    assert !PathMatches(dir, escaped);
    assert [c][1..] == [];
  }

  /** The same cookie with a Domain attribute. */
  function DomainSet(name: string, value: string, domain: string): SetCookie {
    PlainSet(name, value).(domain := domain)
  }

  lemma FirstAccepted(host: string, dir: string, leaf: string, s: SetCookie, now: int)
    requires LetterHost(host) && dir != "" && dir[0] == '/' && '/' !in leaf
    requires s == PlainSet("n", "v") || s == DomainSet("n", "v", host)
    ensures Accepted([], s, NormalizedHost(host), dir + "/" + leaf, OneHost(host).allowed, now)
         == Ok(FirstCookie(host, dir, "n", "v").(hostOnly := s.domain == ""))
  {
    OneHostGood(host);
    PathUpTo(dir, leaf);
    hide DefaultPath, NormalizedHost, HostAllowed, LetterHost;
    assert s.domain == host ==> s.domain != "";
  }

  lemma OneStored(settings: Settings, u: Url, s: SetCookie, c: Cookie, now: int)
    requires Accepted([], s, NormalizedHost(u.hostname), u.path, settings.allowed, now) == Ok(c) && !Deletes(s, now)
    ensures Effect(EmptyJar(), settings, Set(u, [s], now, false)).cookies == [c]
  {
    var host, start := NormalizedHost(u.hostname), Progress([], false, []);
    hide Accepted, NormalizedHost, Serialized, KeyOf;
    assert [s][..0] == [] && StoreAll(start, [], host, u.path, settings.allowed, now) == start;
    assert Stored([], c, false) == [] + [c];
  }

  lemma OnePasses(p: Cookie -> bool, c: Cookie)
    ensures Filter(p, [c]) == if p(c) then [c] else []
  {
    assert [c][1..] == [];
  }

  /** What the first response from host makes the jar send to another request at once. */
  lemma FirstServed(host: string, s: SetCookie, now: int, later: Url)
    requires LetterHost(host) && (s == PlainSet("n", "v") || s == DomainSet("n", "v", host))
    ensures var cookies := FirstJar(host, "/a", "c", "/a/c", s, now).cookies;
      |cookies| == 1 && Filter(SentTo(later), cookies) == if MeantFor(s, host, "/a/c", later) then cookies else []
  {
    var u := Url("https", host, "/a" + "/" + "c", "/a/c");
    var c := FirstCookie(host, "/a", "n", "v").(hostOnly := s.domain == "");
    assert '/' !in "c" && u.path == "/a/c" && !Deletes(s, now);
    OneHostGood(host);
    FirstAccepted(host, "/a", "c", s, now);
    AcceptedSends([], s, host, u.path, OneHost(host).allowed, now, later);
    hide *;
    OneStored(OneHost(host), u, s, c, now);
    OnePasses(SentTo(later), c);
    FirstJarIs(host, "/a", "c", "/a/c", s, now);
    SendsIs(later, c);
  }

  lemma FirstJarIs(host: string, dir: string, leaf: string, escaped: string, s: SetCookie, now: int)
    ensures FirstJar(host, dir, leaf, escaped, s, now)
         == Effect(EmptyJar(), OneHost(host), Set(Url("https", host, dir + "/" + leaf, escaped), [s], now, false))
  {
  }

  lemma SendsIs(u: Url, c: Cookie)
    ensures SentTo(u)(c) <==> SendsTo(u, c)
  {
  }

  /** A cookie that hh.ru sets without a Domain attribute is not sent to api.hh.ru; with the attribute it is. */
  lemma SubdomainNeedsDomain(now: int)
    ensures var api, site := Url("https", "api.hh.ru", "/a/c", "/a/c"), Url("https", "hh.ru", "/a/c", "/a/c");
      var own, shared := FirstJar("hh.ru", "/a", "c", "/a/c", PlainSet("n", "v"), now).cookies,
          FirstJar("hh.ru", "/a", "c", "/a/c", DomainSet("n", "v", "hh.ru"), now).cookies;
      && |own| == 1 && Filter(SentTo(site), own) == own && Filter(SentTo(api), own) == []
      && |shared| == 1 && Filter(SentTo(site), shared) == shared && Filter(SentTo(api), shared) == shared
  {
    var api, site := Url("https", "api.hh.ru", "/a/c", "/a/c"), Url("https", "hh.ru", "/a/c", "/a/c");
    HHIsPlain();
    ApiHost();
    LetterHostPlain("hh.ru");
    LetterHostPlain("api.hh.ru");
    SameDirectory();
    hide FirstJar, LetterHost, NormalizedHost, AtOrBelow, DefaultPath;
    FirstServed("hh.ru", PlainSet("n", "v"), now, site);
    FirstServed("hh.ru", PlainSet("n", "v"), now, api);
    FirstServed("hh.ru", DomainSet("n", "v", "hh.ru"), now, site);
    FirstServed("hh.ru", DomainSet("n", "v", "hh.ru"), now, api);
  }

  lemma ApiHost()
    ensures LetterHost("api.hh.ru") && HasSuffix("api.hh.ru", "." + "hh.ru") && "api.hh.ru" != "hh.ru"
  {
    assert "api.hh.ru"[3..] == ".hh.ru";
    assert "." + "hh.ru" == ".hh.ru";
  }

  lemma SameDirectory()
    ensures AtOrBelow(DefaultPath("/a/c"), "/a/c")
  {
    assert "/a" + "/" + "c" == "/a/c";
    PathUpTo("/a", "c");
    hide DefaultPath;
    assert HasPrefix("/a/c", "/a" + "/");
  }

  // ---------------------------------------------------- the wrong cookie

  /** The directory that disguises a row of d, as a host-only cookie, as the path of another cookie. */
  function DisguiseOf(d: Cookie): string { d.path + "\t" + Join(Ending(d), '\t') + "\n" + "#" }

  /** A file of one cookie is its header and its row. */
  lemma OneRowFile(c: Cookie, allowed: seq<string>, text: string)
    requires Serialized([c], allowed) == Ok(text)
    ensures text == Header() + (Join(Fields(c), '\t') + "\n")
  {
    hide Join, Fields, Header, MatchesAllowed;
    assert [c][1..] == [] && StableSort(CookieLess, []) == [] && Rows([], RowFor(allowed)) == Ok("");
    assert StableSort(CookieLess, [c]) == [c];
    assert Join(Fields(c), '\t') + "\n" + "" == Join(Fields(c), '\t') + "\n";
  }

  lemma OneRowLoads(file: Option<string>, settings: Settings, c: Cookie, found: seq<Cookie>, now: int)
    requires settings.persists && file.Some? && FileHolds(file, settings, [c])
    requires Block(Join(Fields(c), '\t'), ParseRowAt(now)) == Ok(found)
    requires forall x :: x in found ==> HostAllowed(NormalizedHost(x.domain), settings.allowed)
    ensures Load(file, settings, now) == Ok(found)
  {
    hide Join, Fields, Header, Serialized, Parsed, HostAllowed, NormalizedHost, Lines, ParseRows;
    OneRowFile(c, settings.allowed, file.value);
    HeaderIsNoRow(Join(Fields(c), '\t') + "\n", now);
  }

  /** What follows the line feed in the row of a disguised first cookie is a short comment. */
  lemma CommentFits(host: string, dir: string, name: string, value: string)
    requires Bytes(name) + Bytes(value) + 11 < MAX_LINE
    ensures Bytes("#" + "\t" + Join(Ending(FirstCookie(host, dir, name, value)), '\t')) < MAX_LINE
  {
    hide Ending, Join, Bytes, FirstCookie;
    FirstEnding(host, dir, name, value);
    FalseIsFive();
    ZeroIsOne();
    SignIsOne();
    FiveBytes("#", "FALSE", "0", name, value);
  }

  lemma SignIsOne()
    ensures Bytes("#") == 1
  {
    assert "#"[1..] == "";
  }

  lemma FiveBytes(a: string, b: string, c: string, d: string, e: string)
    ensures Bytes(a + "\t" + (b + "\t" + (c + "\t" + (d + "\t" + e))))
         == Bytes(a) + Bytes(b) + Bytes(c) + Bytes(d) + Bytes(e) + 4
  {
    hide *;
    var de := d + "\t" + e;
    var ce := c + "\t" + de;
    TabBytes(d, e);
    TabBytes(c, de);
    TabBytes(b, ce);
    TabBytes(a, b + "\t" + ce);
  }

  /** A jar can store one cookie without an error, write it without an error, and load another one: any readable
      host-only cookie d of the host whose row the directory of the request spells out. */
  lemma JarLoadsAnother(host: string, d: Cookie, leaf: string, escaped: string, name: string, value: string, now: int)
    requires LetterHost(host) && '/' !in leaf && name != "" && Clean(name) && Clean(value)
    requires Shaped(d) && Readable(d) && (d.domain, d.hostOnly, d.httpOnly) == (host, true, false)
    requires Bytes(name) + Bytes(value) + 11 < MAX_LINE
    ensures var j := FirstJar(host, DisguiseOf(d), leaf, escaped, PlainSet(name, value), now);
      && j.cookies == [FirstCookie(host, DisguiseOf(d), name, value)] && j.errors == []
      && Load(j.file, OneHost(host), now) == Ok(IfLive(now, Kept(d)))
  {
    var dir := DisguiseOf(d);
    assert dir[0] == '/';
    DisguisedBlock(host, d, name, value, now);
    KeptIsAllowed(host, d, now);
    hide *;
    FirstJarLoads(host, dir, leaf, escaped, name, value, now);
    var j := FirstJar(host, dir, leaf, escaped, PlainSet(name, value), now);
    OneRowLoads(j.file, OneHost(host), FirstCookie(host, dir, name, value), IfLive(now, Kept(d)), now);
  }

  lemma KeptIsAllowed(host: string, d: Cookie, now: int)
    requires LetterHost(host) && d.domain == host
    ensures OneHost(host).persists
    ensures forall x :: x in IfLive(now, Kept(d)) ==> HostAllowed(NormalizedHost(x.domain), OneHost(host).allowed)
  {
    OneHostGood(host);
    hide HostAllowed, NormalizedHost, LetterHost, GoodSettings, Live;
  }

  lemma DisguisedBlock(host: string, d: Cookie, name: string, value: string, now: int)
    requires LetterHost(host) && name != "" && Clean(name) && Clean(value)
    requires Shaped(d) && Readable(d) && (d.domain, d.hostOnly, d.httpOnly) == (host, true, false)
    requires Bytes(name) + Bytes(value) + 11 < MAX_LINE
    ensures Block(Join(Fields(FirstCookie(host, DisguiseOf(d), name, value)), '\t'), ParseRowAt(now))
         == Ok(IfLive(now, Kept(d)))
  {
    var dir := DisguiseOf(d);
    assert dir[0] == '/';
    FirstIsShaped(host, dir, name, value);
    CommentFits(host, dir, name, value);
    hide LetterHost, Shaped, Readable, Clean, Bytes, Join, Fields, Block, Ending, IfLive, Kept;
    ReadAsAnother(FirstCookie(host, dir, name, value), d, now);
  }

  lemma FirstIsShaped(host: string, dir: string, name: string, value: string)
    requires LetterHost(host) && dir != "" && dir[0] == '/' && name != "" && Clean(name) && Clean(value)
    ensures Shaped(FirstCookie(host, dir, name, value))
  {
    LetterHostPlain(host);
  }

  /** So the first request below /a%09FALSE%090%09m%09w%0A%23 on hh.ru, whatever its response sets, leaves a file
      that loads as the cookie m for /a. */
  lemma WrongCookieLoaded(s: SetCookie, now: int)
    requires s == PlainSet("n", "v")
    ensures var dir := "/a" + "\t" + ("FALSE" + "\t" + ("0" + "\t" + ("m" + "\t" + "w"))) + "\n" + "#";
      var j := FirstJar("hh.ru", dir, "c", "/a%09FALSE%090%09m%09w%0A%23/c", s, now);
      && j.cookies == [FirstCookie("hh.ru", dir, "n", "v")] && j.errors == []
      && Load(j.file, OneHost("hh.ru"), now) == Ok([FirstCookie("hh.ru", "/a", "m", "w")])
  {
    var d := FirstCookie("hh.ru", "/a", "m", "w");
    HHIsPlain();
    ShortTexts();
    FirstIsShaped("hh.ru", "/a", "m", "w");
    FirstReadable("hh.ru", "/a", "m", "w");
    FirstEnding("hh.ru", "/a", "m", "w");
    assert Kept(d) == d && IfLive(now, d) == [d];
    hide FirstJar, PlainSet, Load, Bytes, Join, Ending, Readable, Shaped, LetterHost, IfLive;
    JarLoadsAnother("hh.ru", d, "c", "/a%09FALSE%090%09m%09w%0A%23/c", "n", "v", now);
  }

  lemma ShortTexts()
    ensures Clean("m") && Clean("w") && Clean("n") && Clean("v") && Plain("/a") && Under("hh.ru", "hh.ru")
    ensures Bytes("hh.ru") + Bytes("/a") + Bytes("m") + Bytes("w") + 17 < MAX_LINE
    ensures Bytes("n") + Bytes("v") + 11 < MAX_LINE && '/' !in "c"
  {
    BytesBound("hh.ru");
    BytesBound("/a");
    BytesBound("m");
    BytesBound("w");
    BytesBound("n");
    BytesBound("v");
    hide Bytes;
  }
}
