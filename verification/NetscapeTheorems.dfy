/** What a written cookie file gives back when it is read: exactly which cookies survive. */
module NetscapeTheorems {
  import opened Results
  import opened Sequences
  import opened Ordering
  import opened Text
  import opened NetscapeFile

  predicate ShapedDomain(d: string) {
    d != "" && Lower(d) == d && (forall c :: c in d ==> !IsSpace(c)) && d[0] != '.' && d[0] != '#'
  }

  /** What a jar of http cookies holds: names and values are clean, hosts are as requests have them, and the
      expiry fits the file's format. A path may hold any character, as decoded request paths do. */
  predicate Shaped(c: Cookie) {
    && c.name != "" && Clean(c.name) && Clean(c.value)
    && HasPrefix(c.path, "/")
    && ShapedDomain(c.domain)
    && (c.expires.Some? ==> SECOND <= c.expires.value && c.expires.value / SECOND <= MAX_INT64)
  }

  /** No tab and no line feed: the path stays one field of one line. */
  predicate Plain(s: string) { '\t' !in s && '\n' !in s }

  /** The reader accepts the host, and the cookie is one row. */
  predicate InFormat(c: Cookie) { IsHHHost(c.domain) && Plain(c.path) }

  /** The row is short enough for the reader. */
  predicate RowFits(c: Cookie) { Bytes(Join(Fields(c), '\t')) < MAX_LINE }

  /** The file can give the cookie back. */
  predicate Readable(c: Cookie) { InFormat(c) && RowFits(c) }

  /** A path with line feeds whose first line holds four tabs: the first line of the row then has the
      seven fields of a row by itself, and may be read as another cookie. */
  predicate DisguisedPath(path: string) { '\n' in path && Times(BeforeLineFeed(path), '\t') == 4 }

  predicate Disguised(c: Cookie) { IsHHHost(c.domain) && DisguisedPath(c.path) }

  /** What the file keeps of a cookie: its expiry only to the second. */
  function Kept(c: Cookie): Cookie {
    if c.expires.None? then c else c.(expires := Some(c.expires.value / SECOND * SECOND))
  }

  predicate WholeSeconds(c: Cookie) { c.expires.Some? ==> c.expires.value % SECOND == 0 }

  lemma WholeSecondsKept(c: Cookie)
    ensures Kept(c) == c <==> WholeSeconds(c)
  {
  }

  lemma {:induction false} TrimKeepsFirst(s: string)
    requires s != "" && !IsSpace(s[0])
    ensures !Blank(s)
  {
    TrimRightKeepsFirst(s);
  }

  lemma {:induction false} TrimRightKeepsFirst(s: string)
    requires s != "" && !IsSpace(s[0])
    ensures TrimRight(s) != ""
  {
    if |s| > 1 { TrimRightKeepsFirst(s[..|s| - 1]); }
  }

  lemma ShapedDomainPlain(d: string, dotted: bool)
    requires ShapedDomain(d)
    ensures var raw := (if dotted then "." else "") + d;
      Trim(raw) == raw && TrimPrefix(Lower(Trim(raw)), ".") == d && TrimPrefix(Lower(d), ".") == d
  {
    var raw := (if dotted then "." else "") + d;
    assert d[0] in d && d[|d| - 1] in d;
    assert raw[|raw| - 1] == d[|d| - 1];
    TrimNothing(raw);
    assert Lower(raw) == raw by {
      forall i | 0 <= i < |raw| ensures Lower(raw)[i] == raw[i] {
        if dotted && i > 0 { assert Lower(d)[i - 1] == d[i - 1] == raw[i]; }
        if !dotted { assert Lower(d)[i] == d[i]; }
      }
    }
    assert dotted ==> raw[1..] == d;
  }

  predicate ShapedTag(tag: string) { tag != "" && tag[0] == '#' && Clean(tag) }

  lemma TagIsShaped()
    ensures ShapedTag(HTTP_ONLY)
  {
  }

  lemma TagReadsBack(tag: string, tagged: bool, raw: string)
    requires ShapedTag(tag) && raw != "" && raw[0] != '#'
    ensures var f := (if tagged then tag else "") + raw;
      && (HasPrefix(f, tag) <==> tagged) && TrimPrefix(f, tag) == raw
      && (f[0] == '#' ==> HasPrefix(f, tag)) && (Clean(raw) ==> Clean(f)) && (!IsSpace(raw[0]) ==> !IsSpace(f[0]))
  {
    var f := (if tagged then tag else "") + raw;
    if tagged { assert f[|tag|..] == raw; } else { assert f == raw; }
  }

  /** The domain as a row shows it, without the tag. */
  function RawDomain(c: Cookie): string { (if c.hostOnly then "" else ".") + c.domain }

  lemma RawDomainPlain(c: Cookie)
    requires ShapedDomain(c.domain)
    ensures var raw := RawDomain(c);
      raw != "" && raw[0] != '#' && !IsSpace(raw[0]) && Clean(raw) && (HasPrefix(raw, ".") <==> !c.hostOnly)
  {
    assert c.domain[0] in c.domain;
    forall x | x in RawDomain(c) ensures !IsSpace(x) { assert x == '.' || x in c.domain; }
  }

  lemma DomainParses(tag: string, field: string, raw: string, tagged: bool, domain: string)
    requires (HasPrefix(field, tag) <==> tagged) && TrimPrefix(field, tag) == raw && raw != ""
    requires TrimPrefix(Lower(Trim(raw)), ".") == domain
    ensures ParseDomainFor(tag, field) == if IsHHHost(domain)
      then Some(ParsedDomain(domain, !HasPrefix(raw, "."), tagged)) else None
  {
  }

  lemma DomainFieldReadsBack(tag: string, c: Cookie)
    requires ShapedDomain(c.domain) && ShapedTag(tag)
    ensures var f := DomainFieldFor(tag, c);
      && f != "" && !IsSpace(f[0]) && (f[0] == '#' ==> HasPrefix(f, tag)) && Clean(f)
      && ParseDomainFor(tag, f) == if IsHHHost(c.domain) then Some(ParsedDomain(c.domain, c.hostOnly, c.httpOnly))
          else None
  {
    ShapedDomainPlain(c.domain, !c.hostOnly);
    RawDomainPlain(c);
    TagReadsBack(tag, c.httpOnly, RawDomain(c));
    DomainParses(tag, DomainFieldFor(tag, c), RawDomain(c), c.httpOnly, c.domain);
  }

  lemma NumberClean(n: nat)
    ensures Clean(FormatInt(n))
  {
  }

  lemma CookieReadsBack(domain: Option<ParsedDomain>, parts: seq<string>, n: int, c: Cookie, now: int)
    requires c.name != "" && Clean(c.name) && HasPrefix(c.path, "/")
    requires |parts| == 7 && parts[1..4] == [Flag(!c.hostOnly), c.path, Flag(c.secure)]
             && parts[5..] == [c.name, c.value]
    requires domain.Some? ==> domain.value == ParsedDomain(c.domain, c.hostOnly, c.httpOnly)
    requires n >= 0 && Kept(c).expires == if n == 0 then None else Some(n * SECOND)
    ensures CookieFrom(domain, parts, Some(n), now) ==
      if domain.None? then Err(BadRow) else Ok(if Live(now, Kept(c)) then Some(Kept(c)) else None)
  {
    assert parts[1] == parts[1..4][0] && parts[2] == parts[1..4][1] && parts[3] == parts[1..4][2];
    assert parts[5] == parts[5..][0] && parts[6] == parts[5..][1];
    assert Flag(true) == "TRUE" && "TRUE"[0] != "FALSE"[0];
  }

  lemma FieldsReadBack(domainField: string, c: Cookie, now: int)
    requires Shaped(c)
    requires ParseDomain(domainField) == if IsHHHost(c.domain)
      then Some(ParsedDomain(c.domain, c.hostOnly, c.httpOnly)) else None
    ensures ParseFields(FieldsWith(domainField, c), now) ==
      if !IsHHHost(c.domain) then Err(BadRow) else Ok(if Live(now, Kept(c)) then Some(Kept(c)) else None)
  {
    ExpiryReadsBack(c);
    var parts := FieldsWith(domainField, c);
    assert parts[1..4] == [Flag(!c.hostOnly), c.path, Flag(c.secure)] && parts[5..] == [c.name, c.value];
    CookieReadsBack(ParseDomain(domainField), parts, UnixSeconds(c), c, now);
  }

  lemma ExpiryReadsBack(c: Cookie)
    requires Shaped(c)
    ensures var n := UnixSeconds(c);
      && n >= 0 && ParseInt(FormatInt(n)) == Some(n)
      && Kept(c).expires == if n == 0 then None else Some(n * SECOND)
  {
    ParseFormatInt(UnixSeconds(c));
  }

  /** The two header lines and the blank line are no rows. */
  lemma HeaderIsSkipped(first: string, second: string, body: string, parse: RowParser)
    requires '\n' !in first + second && '\r' !in first + second && Bytes(first) < MAX_LINE && Bytes(second) < MAX_LINE
    requires parse(first) == parse(second) == parse("") == Ok(None)
    ensures ParseRows(Lines(HeaderOf(first, second) + body), parse) == ParseRows(Lines(body), parse)
  {
    var tail2, tail3 := second + "\n" + ("\n" + body), "\n" + body;
    assert HeaderOf(first, second) + body == first + "\n" + tail2;
    LinesFirst(first, tail2);
    LinesFirst(second, tail3);
    assert "" + "\n" + body == tail3;
    LinesFirst("", body);
    NoReturn(first);
    NoReturn(second);
    RowsSkip([first] + Lines(tail2), parse);
    RowsSkip([second] + Lines(tail3), parse);
    RowsSkip([""] + Lines(body), parse);
  }

  lemma NoReturn(line: string)
    requires '\r' !in line
    ensures DropCarriageReturn(line) == line
  {
    if line != "" { assert line[|line| - 1] in line; }
  }

  lemma RowsSkip(lines: seq<string>, parse: RowParser)
    requires lines != [] && ReadLine(lines[0], parse) == Ok(None)
    ensures ParseRows(lines, parse) == ParseRows(lines[1..], parse)
  {
    var rest := ParseRows(lines[1..], parse);
    assert rest.Ok? ==> [] + rest.value == rest.value;
  }

  lemma CommentSkipped(line: string, now: int)
    requires HasPrefix(line, "# ")
    ensures ParseRow(line, now) == Ok(None)
  {
    assert line[1] == ' ' && HTTP_ONLY[1] == 'H';
  }

  lemma FirstHeaderClean()
    ensures '\n' !in HEADER_1 && '\r' !in HEADER_1 && Bytes(HEADER_1) < MAX_LINE
  {
    BytesBound(HEADER_1);
  }

  lemma FirstHeaderLine(now: int)
    ensures ParseRow(HEADER_1, now) == Ok(None)
  {
    CommentSkipped(HEADER_1, now);
  }

  lemma SecondHeaderClean()
    ensures '\n' !in HEADER_2 && '\r' !in HEADER_2 && Bytes(HEADER_2) < MAX_LINE
  {
    BytesBound(HEADER_2);
    assert '\n' !in "# This is a generated " && '\r' !in "# This is a generated ";
    assert '\n' !in "file! Do not edit." && '\r' !in "file! Do not edit.";
  }

  lemma SecondHeaderLine(now: int)
    ensures ParseRow(HEADER_2, now) == Ok(None)
  {
    CommentSkipped(HEADER_2, now);
  }

  lemma HeaderIsNoRow(body: string, now: int)
    ensures Parsed(Header() + body, now) == ParseRows(Lines(body), ParseRowAt(now))
  {
    FirstHeaderClean();
    FirstHeaderLine(now);
    SecondHeaderClean();
    SecondHeaderLine(now);
    HeaderIsSkipped(HEADER_1, HEADER_2, body, ParseRowAt(now));
  }

  /** The file lists cookies by domain, then by path, then by name. */
  lemma FileOrder(cs: seq<Cookie>, i: nat, j: nat)
    requires i < j < |StableSort(CookieLess, cs)|
    ensures var a, b := StableSort(CookieLess, cs)[i], StableSort(CookieLess, cs)[j];
      && !StringLess(b.domain, a.domain)
      && (a.domain == b.domain ==> !StringLess(b.path, a.path))
      && (a.domain == b.domain && a.path == b.path ==> !StringLess(b.name, a.name))
  {
    CookieLessIsStrict();
    StableSortSorted(CookieLess, cs);
    var sorted := StableSort(CookieLess, cs);
    hide StableSort, StringLess;
    assert !CookieLess(sorted[j], sorted[i]);
    StringLessIrreflexive(sorted[i].domain);
    StringLessIrreflexive(sorted[i].path);
  }

  /** A cookie is not written exactly if it has no name, no allowed host, or a path that is not from the root. */
  lemma RowRefused(c: Cookie, allowed: seq<string>)
    ensures Row(c, allowed).Err? <==>
      c.name == "" || (c.path != "" && c.path[0] != '/')
          || forall a :: a in allowed ==> !Under(NormalizedHost(TrimPrefix(Lower(c.domain), ".")), NormalizedHost(a))
  {
    hide NormalizedHost, Lower, Join, Under;
  }

  /** A cookie that is read has a name on one line, a path from the root, and an expiry, if any, in whole seconds and
      yet to come. */
  lemma RowReadsCookie(line: string, now: int)
    requires ParseRow(line, now).Ok? && ParseRow(line, now).value.Some?
    ensures var c := ParseRow(line, now).value.value;
      && c.name != "" && Clean(c.name) && HasPrefix(c.path, "/")
      && (c.expires.Some? ==> c.expires.value > now && c.expires.value > 0 && c.expires.value % SECOND == 0)
  {
    hide Split, Blank, IsComment, ParseInt, Clean, IsHHHost;
  }

  /** Cookies that tie in domain, path and name are written in the order of the jar. */
  lemma TiesKeepOrder(cs: seq<Cookie>, c: Cookie)
    ensures var ties := (x: Cookie) => x.domain == c.domain && x.path == c.path && x.name == c.name;
      Filter(ties, StableSort(CookieLess, cs)) == Filter(ties, cs)
  {
    CookieLessIsStrict();
    StringLessIrreflexive(c.name);
    var ties := (x: Cookie) => x.domain == c.domain && x.path == c.path && x.name == c.name;
    StableSortStable(CookieLess, cs, ties);
  }

  lemma {:induction false} MapKeptWhole(cs: seq<Cookie>)
    requires forall c :: c in cs ==> WholeSeconds(c)
    ensures Map(Kept, cs) == cs
  {
    forall i | 0 <= i < |cs| ensures Map(Kept, cs)[i] == cs[i] { WholeSecondsKept(cs[i]); }
  }

  // ----------------------------------------------------- one written row

  /** The lines of a written row end where the next row begins. */
  function Block(line: string, parse: RowParser): Result<seq<Cookie>, FileError> {
    ParseRows(Lines(line + "\n"), parse)
  }

  lemma {:induction false} LastFieldEnds(fields: seq<string>, sep: char)
    requires |fields| >= 2 && sep != '\r' && '\r' !in fields[|fields| - 1]
    ensures Join(fields, sep) != "" && DropCarriageReturn(Join(fields, sep)) == Join(fields, sep)
  {
    var rest, all := fields[1..], Join(fields, sep);
    assert all == fields[0] + [sep] + Join(rest, sep);
    if |fields| == 2 {
      assert all[|all| - 1] == if rest[0] == "" then sep else rest[0][|rest[0]| - 1];
      assert rest[0] == fields[1];
    } else {
      LastFieldEnds(rest, sep);
      assert all[|all| - 1] == Join(rest, sep)[|Join(rest, sep)| - 1];
    }
  }

  lemma OneLine(line: string, parse: RowParser, c: Option<Cookie>)
    requires '\n' !in line && Bytes(line) < MAX_LINE && DropCarriageReturn(line) == line && parse(line) == Ok(c)
    ensures Block(line, parse) == Ok(if c.Some? then [c.value] else [])
  {
    assert line + "\n" + "" == line + "\n";
    LinesFirst(line, "");
    LinesNothing();
    assert Lines(line + "\n") == [line] && [line][1..] == [];
    var found := if c.Some? then [c.value] else [];
    assert ParseRows([], parse) == Ok([]) && found + [] == found;
  }

  /** A first line that is no row makes the whole unreadable. */
  lemma BadFirstLine(line: string, parse: RowParser, e: FileError)
    requires ReadLine(BeforeLineFeed(line), parse) == Err(e)
    ensures Block(line, parse) == Err(e)
  {
    FirstLine(line);
  }

  lemma DropKeepsTabs(s: string)
    ensures Times(DropCarriageReturn(s), '\t') == Times(s, '\t')
  {
    var d := DropCarriageReturn(s);
    if d != s {
      assert s == d + "\r";
      TimesAppend(d, "\r", '\t');
      TimesNone("\r", '\t');
    }
  }

  lemma DropBehind(head: string, tail: string)
    ensures DropCarriageReturn(head + "\t" + tail) == head + "\t" + DropCarriageReturn(tail)
  {
    var s := head + "\t" + tail;
    if tail == "" {
      assert s[|s| - 1] == '\t';
    } else {
      assert s[|s| - 1] == tail[|tail| - 1];
      if HasSuffix(tail, "\r") { assert HasSuffix(s, "\r"); } else { assert !HasSuffix(s, "\r"); }
    }
  }

  /** The first field of a row as the format writes it: it marks no comment. */
  predicate StartsRow(f: string) {
    f != "" && !IsSpace(f[0]) && (f[0] == '#' ==> HasPrefix(f, HTTP_ONLY)) && Clean(f)
  }

  lemma StartedLine(f: string, tail: string, now: int)
    requires StartsRow(f)
    ensures var line := f + "\t" + tail; ParseRow(line, now) == ParseFields(Split(line, '\t'), now)
  {
    var line := f + "\t" + tail;
    assert line[0] == f[0];
    TrimKeepsFirst(line);
  }

  /** A line that starts a row is refused if it has no seven fields or its host is outside hh.ru. */
  lemma StartedLineBad(f: string, tail: string, now: int)
    requires StartsRow(f) && (Times(tail, '\t') != 5 || ParseDomain(f).None?)
    ensures ParseRow(f + "\t" + tail, now) == Err(BadRow)
  {
    StartedLine(f, tail, now);
    SplitFirst(f, '\t', tail);
    SplitTimes(tail, '\t');
    hide ParseDomain, ParseInt, Split, Times;
    var parts := Split(f + "\t" + tail, '\t');
    assert parts == [f] + Split(tail, '\t');
  }

  lemma BadStart(f: string, tail: string, now: int)
    requires StartsRow(f)
    requires Times(BeforeLineFeed(tail), '\t') != 5 || ParseDomain(f).None?
    requires Bytes(BeforeLineFeed(f + "\t" + tail)) < MAX_LINE
    ensures Block(f + "\t" + tail, ParseRowAt(now)) == Err(BadRow)
  {
    var first := BeforeLineFeed(tail);
    var once, twice := DropCarriageReturn(first), DropCarriageReturn(DropCarriageReturn(first));
    FirstLineBehind(f, tail);
    DropBehind(f, first);
    DropBehind(f, once);
    DropKeepsTabs(first);
    DropKeepsTabs(once);
    StartedLineBad(f, twice, now);
    assert ParseRowAt(now)(f + "\t" + twice) == Err(BadRow);
    assert ReadLine(f + "\t" + first, ParseRowAt(now)) == Err(BadRow);
    hide *;
    BadFirstLine(f + "\t" + tail, ParseRowAt(now), BadRow);
  }

  lemma FirstLineBehind(head: string, tail: string)
    requires '\n' !in head
    ensures BeforeLineFeed(head + "\t" + tail) == head + "\t" + BeforeLineFeed(tail)
  {
    hide BeforeLineFeed;
    var s, rest := head + "\t" + tail, BeforeLineFeed(tail);
    var line, other := BeforeLineFeed(s), head + "\t" + rest;
    assert s[..|other|] == other && '\n' !in other;
    assert |other| < |s| ==> s[|other|] == tail[|rest|];
    assert forall k :: 0 <= k < |other| ==> s[k] == other[k];
    assert forall k :: 0 <= k < |line| ==> s[k] == line[k];
  }

  lemma FirstLineWithin(s: string, t: string)
    requires '\n' in s
    ensures BeforeLineFeed(s + t) == BeforeLineFeed(s)
  {
    hide BeforeLineFeed;
    var line, other := BeforeLineFeed(s + t), BeforeLineFeed(s);
    assert |other| < |s|;
    assert (s + t)[|other|] == s[|other|];
    assert forall k :: 0 <= k < |other| ==> (s + t)[k] == other[k];
    assert forall k :: 0 <= k < |line| ==> (s + t)[k] == line[k];
  }

  lemma FirstLineWhole(s: string)
    requires '\n' !in s
    ensures BeforeLineFeed(s) == s
  {
    hide BeforeLineFeed;
    var line := BeforeLineFeed(s);
    assert forall k :: 0 <= k < |s| ==> s[k] != '\n';
  }

  lemma {:induction false} JoinTimes(fields: seq<string>, sep: char)
    requires fields != [] && forall f :: f in fields ==> sep !in f
    ensures Times(Join(fields, sep), sep) == |fields| - 1
  {
    TimesNone(fields[0], sep);
    if |fields| > 1 {
      var rest := Join(fields[1..], sep);
      JoinTimes(fields[1..], sep);
      TimesAround(fields[0], rest, sep);
    }
  }

  lemma TimesAround(s: string, t: string, sep: char)
    ensures Times(s + [sep] + t, sep) == Times(s, sep) + 1 + Times(t, sep)
  {
    TimesAppend(s + [sep], t, sep);
    TimesAppend(s, [sep], sep);
    assert [sep][1..] == "";
  }

  /** What a row holds behind its path. */
  function Ending(c: Cookie): seq<string> { [Flag(c.secure), FormatInt(UnixSeconds(c)), c.name, c.value] }

  /** What a row holds behind its domain. */
  function RowTail(c: Cookie): string {
    Flag(!c.hostOnly) + "\t" + (c.path + "\t" + Join(Ending(c), '\t'))
  }

  lemma RowInParts(c: Cookie)
    requires HasPrefix(c.path, "/")
    ensures Join(Fields(c), '\t') == DomainField(c) + "\t" + RowTail(c)
  {
    var all := Fields(c);
    hide DomainField, Flag, FormatInt, UnixSeconds;
    assert all[1..][1..][1..] == Ending(c);
    hide Ending;
    assert Join(all[1..][1..], '\t') == c.path + "\t" + Join(Ending(c), '\t');
    assert Join(all[1..], '\t') == RowTail(c);
  }

  lemma EndingClean(c: Cookie)
    requires Shaped(c)
    ensures forall f :: f in Ending(c) ==> Clean(f)
  {
    hide FormatInt;
    assert Clean("TRUE") && Clean("FALSE");
    ExpiryReadsBack(c);
    NumberClean(UnixSeconds(c));
  }

  lemma TabBetween(s: string, t: string)
    ensures Times(s + "\t" + t, '\t') == Times(s, '\t') + 1 + Times(t, '\t')
  {
    TimesAround(s, t, '\t');
    hide Times;
    assert s + "\t" + t == s + ['\t'] + t;
  }

  lemma FirstLineBeforeEnding(path: string, ending: string)
    requires '\n' !in ending && Times(ending, '\t') == 3
    ensures Times(BeforeLineFeed(path + "\t" + ending), '\t')
         == if '\n' in path then Times(BeforeLineFeed(path), '\t') else 4 + Times(path, '\t')
  {
    hide *;
    if '\n' in path {
      assert path + "\t" + ending == path + ("\t" + ending);
      FirstLineWithin(path, "\t" + ending);
    } else {
      FirstLineBehind(path, ending);
      FirstLineWhole(ending);
      TabBetween(path, ending);
    }
  }

  lemma TabsBehind(flag: string, path: string, ending: string)
    requires '\t' !in flag && '\n' !in flag && '\n' !in ending && Times(ending, '\t') == 3
    ensures Times(BeforeLineFeed(flag + "\t" + (path + "\t" + ending)), '\t')
         == if '\n' in path then 1 + Times(BeforeLineFeed(path), '\t') else 5 + Times(path, '\t')
  {
    hide *;
    TimesNone(flag, '\t');
    FirstLineBeforeEnding(path, ending);
    FirstLineBehind(flag, path + "\t" + ending);
    TabBetween(flag, BeforeLineFeed(path + "\t" + ending));
  }

  /** The tabs in the first line of what follows the domain. */
  lemma TailTabs(c: Cookie)
    requires Shaped(c)
    ensures Times(BeforeLineFeed(RowTail(c)), '\t')
         == if '\n' in c.path then 1 + Times(BeforeLineFeed(c.path), '\t') else 5 + Times(c.path, '\t')
  {
    var ending := Ending(c);
    EndingClean(c);
    FlagClean(!c.hostOnly);
    assert |ending| == 4;
    hide Times, BeforeLineFeed, Join, Flag, Ending, Shaped;
    JoinTimes(ending, '\t');
    JoinHolds(ending, '\t', '\n');
    TabsBehind(Flag(!c.hostOnly), c.path, Join(ending, '\t'));
  }

  lemma FlagClean(b: bool)
    ensures Clean(Flag(b))
  {
  }

  lemma DomainFieldStartsRow(c: Cookie)
    requires ShapedDomain(c.domain)
    ensures StartsRow(DomainField(c))
    ensures ParseDomain(DomainField(c)) ==
      if IsHHHost(c.domain) then Some(ParsedDomain(c.domain, c.hostOnly, c.httpOnly)) else None
  {
    TagIsShaped();
    DomainFieldReadsBack(HTTP_ONLY, c);
  }

  function IfLive(now: int, c: Cookie): seq<Cookie> { if Live(now, c) then [c] else [] }

  lemma FieldsOnOneLine(fields: seq<string>)
    requires |fields| >= 2 && (forall f :: f in fields ==> Plain(f)) && '\r' !in fields[|fields| - 1]
    ensures var line := Join(fields, '\t');
      '\n' !in line && DropCarriageReturn(line) == line && Split(line, '\t') == fields
  {
    hide Join, Split, DropCarriageReturn;
    SplitJoin(fields, '\t');
    JoinHolds(fields, '\t', '\n');
    LastFieldEnds(fields, '\t');
  }

  lemma FieldsInParts(c: Cookie)
    requires HasPrefix(c.path, "/")
    ensures Fields(c) == [DomainField(c), Flag(!c.hostOnly), c.path] + Ending(c)
  {
    hide DomainField, Flag, FormatInt, UnixSeconds;
  }

  lemma FieldsPlain(c: Cookie)
    requires Shaped(c) && Plain(c.path)
    ensures forall f :: f in Fields(c) ==> Plain(f)
  {
    DomainFieldStartsRow(c);
    EndingClean(c);
    FlagClean(!c.hostOnly);
    FieldsInParts(c);
    assert Plain(DomainField(c)) && Plain(Flag(!c.hostOnly)) && forall f :: f in Ending(c) ==> Plain(f);
    hide *;
    AllPlain(DomainField(c), Flag(!c.hostOnly), c.path, Ending(c));
  }

  lemma AllPlain(f: string, g: string, h: string, more: seq<string>)
    requires Plain(f) && Plain(g) && Plain(h) && forall x :: x in more ==> Plain(x)
    ensures forall x :: x in [f, g, h] + more ==> Plain(x)
  {
    hide *;
  }

  /** A readable cookie's row gives the cookie back, to the second, while it lives. */
  lemma RowReadsBack(c: Cookie, now: int)
    requires Shaped(c) && Readable(c)
    ensures Block(Join(Fields(c), '\t'), ParseRowAt(now)) == Ok(IfLive(now, Kept(c)))
  {
    var fields, line := Fields(c), Join(Fields(c), '\t');
    DomainFieldStartsRow(c);
    FieldsReadBack(DomainField(c), c, now);
    FieldsPlain(c);
    assert |fields| == 7 && fields[6] == c.value;
    hide Fields, FieldsWith, DomainField, ParseDomain, Join, Split, Lines, ParseRow, ParseFields, Block, Bytes,
        DropCarriageReturn;
    FieldsOnOneLine(fields);
    RowInParts(c);
    StartedLine(DomainField(c), RowTail(c), now);
    OneLine(line, ParseRowAt(now), if Live(now, Kept(c)) then Some(Kept(c)) else None);
  }

  /** What the reader says to the row of a cookie that is not readable. */
  function RowError(c: Cookie): FileError {
    if Bytes(BeforeLineFeed(Join(Fields(c), '\t'))) >= MAX_LINE then LineTooLong else BadRow
  }

  lemma RowOnOneLine(c: Cookie)
    requires Shaped(c) && InFormat(c)
    ensures BeforeLineFeed(Join(Fields(c), '\t')) == Join(Fields(c), '\t')
  {
    var fields := Fields(c);
    FieldsPlain(c);
    hide *;
    JoinHolds(fields, '\t', '\n');
    FirstLineWhole(Join(fields, '\t'));
  }

  lemma LongFirstLine(line: string, parse: RowParser)
    requires Bytes(BeforeLineFeed(line)) >= MAX_LINE
    ensures Block(line, parse) == Err(LineTooLong)
  {
    hide Block, Bytes, BeforeLineFeed;
    BadFirstLine(line, parse, LineTooLong);
  }

  lemma RowOutOfFormat(c: Cookie, now: int)
    requires Shaped(c) && !InFormat(c) && !Disguised(c) && RowError(c) == BadRow
    ensures Block(Join(Fields(c), '\t'), ParseRowAt(now)) == Err(BadRow)
  {
    DomainFieldStartsRow(c);
    RowInParts(c);
    TailTabs(c);
    TimesNone(c.path, '\t');
    hide BeforeLineFeed, Times, RowTail, DomainField, ParseDomain, Block, Bytes, Fields;
    BadStart(DomainField(c), RowTail(c), now);
  }

  /** Any other cookie's row cannot be read, unless it is disguised. */
  lemma RowUnreadable(c: Cookie, now: int)
    requires Shaped(c) && !Readable(c) && !Disguised(c)
    ensures Block(Join(Fields(c), '\t'), ParseRowAt(now)) == Err(RowError(c))
  {
    hide Shaped, InFormat, Disguised, Block, Bytes, BeforeLineFeed, Fields, Join;
    if RowError(c) == LineTooLong {
      LongFirstLine(Join(Fields(c), '\t'), ParseRowAt(now));
    } else {
      if InFormat(c) { RowOnOneLine(c); }
      RowOutOfFormat(c, now);
    }
  }

  // ------------------------------------------------------- a whole file

  /** A line's cookies stand before those of the lines behind it. */
  lemma RowsStep(lines: seq<string>, parse: RowParser)
    requires lines != []
    ensures ParseRows(lines, parse) ==
      match ReadLine(lines[0], parse)
      case Err(e) => Err(e)
      case Ok(c) => Behind(if c.Some? then [c.value] else [], ParseRows(lines[1..], parse))
  {
  }

  lemma BehindBehind(a: seq<Cookie>, b: seq<Cookie>, rest: Result<seq<Cookie>, FileError>)
    ensures Behind(a, Behind(b, rest)) == Behind(a + b, rest)
  {
    assert rest.Ok? ==> a + (b + rest.value) == a + b + rest.value;
  }

  lemma {:induction false} RowsAppend(a: seq<string>, b: seq<string>, parse: RowParser)
    ensures ParseRows(a + b, parse) ==
      match ParseRows(a, parse) case Err(e) => Err(e) case Ok(cs) => Behind(cs, ParseRows(b, parse))
  {
    var rest := ParseRows(b, parse);
    if a == [] {
      assert a + b == b;
      assert rest.Ok? ==> [] + rest.value == rest.value;
    } else {
      hide ParseRows, ReadLine;
      assert (a + b)[1..] == a[1..] + b && (a + b)[0] == a[0];
      RowsStep(a, parse);
      RowsStep(a + b, parse);
      RowsAppend(a[1..], b, parse);
      var first, more := ReadLine(a[0], parse), ParseRows(a[1..], parse);
      if first.Ok? && more.Ok? {
        BehindBehind(if first.value.Some? then [first.value.value] else [], more.value, rest);
      }
    }
  }

  type RowWriter = Cookie -> Result<string, FileError>

  /** A written text is read row by row. */
  lemma FirstRowRead(cs: seq<Cookie>, row: RowWriter, parse: RowParser)
    requires cs != [] && Rows(cs, row).Ok?
    ensures ParseRows(Lines(Rows(cs, row).value), parse) ==
      match Block(row(cs[0]).value, parse)
      case Err(e) => Err(e)
      case Ok(found) => Behind(found, ParseRows(Lines(Rows(cs[1..], row).value), parse))
  {
    var line, rest := row(cs[0]).value, Rows(cs[1..], row).value;
    hide Lines, ParseRows, Behind;
    LinesAppend(line, rest);
    RowsAppend(Lines(line + "\n"), Lines(rest), parse);
  }

  function EachIfLive(now: int, cs: seq<Cookie>): seq<Cookie> {
    Filter(LiveAt(now), Map(Kept, cs))
  }

  lemma EachIfLiveStep(now: int, cs: seq<Cookie>)
    requires cs != []
    ensures EachIfLive(now, cs) == IfLive(now, Kept(cs[0])) + EachIfLive(now, cs[1..])
  {
    assert Map(Kept, cs)[1..] == Map(Kept, cs[1..]);
  }

  /** What a written file gives back, row by row: the cookies that still live, or what the first row that is not
      readable makes the reader say. */
  function ReadBack(cs: seq<Cookie>, now: int): Result<seq<Cookie>, FileError> {
    if cs == [] then Ok([])
    else if !Readable(cs[0]) then Err(RowError(cs[0]))
    else Behind(IfLive(now, Kept(cs[0])), ReadBack(cs[1..], now))
  }

  lemma {:induction false} ReadBackWhole(cs: seq<Cookie>, now: int)
    requires forall c :: c in cs ==> Readable(c)
    ensures ReadBack(cs, now) == Ok(EachIfLive(now, cs))
  {
    hide Readable, IfLive;
    if cs != [] {
      assert cs[0] in cs;
      ReadBackWhole(cs[1..], now);
      EachIfLiveStep(now, cs);
    }
  }

  lemma {:induction false} RowsReadBack(cs: seq<Cookie>, row: RowWriter, now: int)
    requires Rows(cs, row).Ok?
    requires forall c :: c in cs && row(c).Ok? ==>
      Block(row(c).value, ParseRowAt(now)) == if Readable(c) then Ok(IfLive(now, Kept(c))) else Err(RowError(c))
    ensures ParseRows(Lines(Rows(cs, row).value), ParseRowAt(now)) == ReadBack(cs, now)
  {
    hide Readable, RowError, IfLive, Block, Lines, Behind;
    if cs == [] {
      LinesNothing();
    } else {
      assert cs[0] in cs && row(cs[0]).Ok?;
      FirstRowRead(cs, row, ParseRowAt(now));
      RowsReadBack(cs[1..], row, now);
    }
  }

  /** One row that cannot be read makes the file unreadable. */
  lemma {:induction false} UnreadableRow(cs: seq<Cookie>, row: RowWriter, parse: RowParser, i: nat)
    requires Rows(cs, row).Ok? && i < |cs|
    requires row(cs[i]).Ok? ==> Block(row(cs[i]).value, parse).Err?
    ensures ParseRows(Lines(Rows(cs, row).value), parse).Err?
  {
    hide Lines, ParseRows, Block;
    FirstRowRead(cs, row, parse);
    if i > 0 { UnreadableRow(cs[1..], row, parse, i - 1); }
  }

  lemma {:induction false} OnlyReadErrors(lines: seq<string>, now: int)
    ensures var r := ParseRows(lines, ParseRowAt(now)); r.Err? ==> r.error == BadRow || r.error == LineTooLong
  {
    hide ParseDomain, ParseInt, Split, IsComment, Blank, Bytes, DropCarriageReturn;
    if lines != [] { OnlyReadErrors(lines[1..], now); }
  }

  lemma BodyReadsBack(cs: seq<Cookie>, allowed: seq<string>, now: int)
    requires Rows(cs, RowFor(allowed)).Ok? && forall c :: c in cs ==> Shaped(c) && !Disguised(c)
    ensures ParseRows(Lines(Rows(cs, RowFor(allowed)).value), ParseRowAt(now)) == ReadBack(cs, now)
  {
    hide Readable, Disguised, Shaped, Rows, ParseRows, Block, RowError, Fields, Join, MatchesAllowed;
    forall c | c in cs && RowFor(allowed)(c).Ok?
      ensures Block(RowFor(allowed)(c).value, ParseRowAt(now))
           == if Readable(c) then Ok(IfLive(now, Kept(c))) else Err(RowError(c))
    {
      if Readable(c) { RowReadsBack(c, now); } else { RowUnreadable(c, now); }
    }
    RowsReadBack(cs, RowFor(allowed), now);
  }

  lemma BodyFails(cs: seq<Cookie>, allowed: seq<string>, now: int, i: nat)
    requires Rows(cs, RowFor(allowed)).Ok? && i < |cs| && Shaped(cs[i]) && !Readable(cs[i]) && !Disguised(cs[i])
    ensures var back := ParseRows(Lines(Rows(cs, RowFor(allowed)).value), ParseRowAt(now));
      back == Err(BadRow) || back == Err(LineTooLong)
  {
    hide Rows, ParseRows, Block, Lines, Readable, Disguised, Shaped, RowError, Fields, Join, MatchesAllowed;
    RowUnreadable(cs[i], now);
    UnreadableRow(cs, RowFor(allowed), ParseRowAt(now), i);
    OnlyReadErrors(Lines(Rows(cs, RowFor(allowed)).value), now);
  }

  lemma DisguisedOutOfFormat(c: Cookie)
    ensures Disguised(c) ==> !InFormat(c)
  {
  }

  /** What a written file gives back. Without a disguised cookie, that is what its rows say one by one; if every
      cookie is readable, every cookie that still lives, in the order of the file and to the second. One cookie
      that is neither readable nor disguised makes the whole file unreadable. */
  lemma FileReadsBack(cs: seq<Cookie>, allowed: seq<string>, now: int)
    requires (forall c :: c in cs ==> Shaped(c)) && Serialized(cs, allowed).Ok?
    ensures var back, ordered := Parsed(Serialized(cs, allowed).value, now), StableSort(CookieLess, cs);
      && ((forall c :: c in cs ==> !Disguised(c)) ==> back == ReadBack(ordered, now))
      && ((forall c :: c in cs ==> Readable(c)) ==> back == Ok(EachIfLive(now, ordered)))
      && ((exists c :: c in cs && !Readable(c) && !Disguised(c)) ==> back == Err(BadRow) || back == Err(LineTooLong))
  {
    var ordered := StableSort(CookieLess, cs);
    hide Shaped, InFormat, RowFits, Disguised, StableSort, Rows, Parsed, Header, ReadBack;
    HeaderIsNoRow(Rows(ordered, RowFor(allowed)).value, now);
    SameElements(ordered, cs);
    if forall c :: c in cs ==> Readable(c) {
      forall c | c in cs ensures !Disguised(c) { DisguisedOutOfFormat(c); }
      ReadBackWhole(ordered, now);
    }
    if forall c :: c in cs ==> !Disguised(c) { BodyReadsBack(ordered, allowed, now); }
    if c :| c in cs && !Readable(c) && !Disguised(c) {
      assert c in ordered;
      var i :| 0 <= i < |ordered| && ordered[i] == c;
      BodyFails(ordered, allowed, now, i);
    }
  }

  /** Whatever the reader returns has an hh.ru host and a plain path. */
  lemma {:induction false} ParsedInFormat(lines: seq<string>, now: int)
    requires forall l :: l in lines ==> '\n' !in l
    ensures var r := ParseRows(lines, ParseRowAt(now)); r.Ok? ==> forall c :: c in r.value ==> InFormat(c)
  {
    hide ParseRow, InFormat;
    if lines != [] {
      ParsedInFormat(lines[1..], now);
      assert lines[0] in lines;
      RowInFormat(DropCarriageReturn(DropCarriageReturn(lines[0])), now);
    }
  }

  lemma RowInFormat(line: string, now: int)
    requires '\n' !in line
    ensures var r := ParseRow(line, now); r.Ok? && r.value.Some? ==> InFormat(r.value.value)
  {
    var parts := Split(line, '\t');
    if |parts| == 7 { SplitPieces(line, '\t', parts[2]); }
    hide Split, Blank, IsComment, ParseInt;
  }

  lemma TextInFormat(text: string, now: int)
    ensures Parsed(text, now).Ok? ==> forall c :: c in Parsed(text, now).value ==> InFormat(c)
  {
    forall l | l in Lines(text) ensures '\n' !in l { LinesPieces(text, 0, l); }
    hide Lines, ParseRows, InFormat;
    ParsedInFormat(Lines(text), now);
  }

  lemma LiveUnreadable(cs: seq<Cookie>, c: Cookie, now: int)
    requires c in cs && Live(now, Kept(c)) && !InFormat(c)
    ensures exists k :: k in EachIfLive(now, cs) && !InFormat(k)
  {
    EachIfLiveHas(cs, c, now);
    assert Kept(c) in EachIfLive(now, cs) && !InFormat(Kept(c));
  }

  /** The read-back is right exactly when every cookie is readable. A disguised cookie may vanish without
      harm once it has expired, and only then. */
  lemma ReadsRight(cs: seq<Cookie>, allowed: seq<string>, now: int)
    requires (forall c :: c in cs ==> Shaped(c) && (Live(now, Kept(c)) || !Disguised(c))) && Serialized(cs, allowed).Ok?
    ensures var back, right := Parsed(Serialized(cs, allowed).value, now), EachIfLive(now, StableSort(CookieLess, cs));
      (back.Ok? && multiset(back.value) == multiset(right)) <==> forall c :: c in cs ==> Readable(c)
  {
    var text, ordered := Serialized(cs, allowed).value, StableSort(CookieLess, cs);
    var back := Parsed(text, now);
    hide Shaped, RowFits, DisguisedPath, StableSort, Parsed, Serialized, ReadBack, Live, EachIfLive, Kept, IsHHHost;
    FileReadsBack(cs, allowed, now);
    TextInFormat(text, now);
    if !(forall c :: c in cs ==> Readable(c)) && back.Ok? {
      var c :| c in cs && !Readable(c);
      assert Disguised(c);
      DisguisedOutOfFormat(c);
      SameElements(ordered, cs);
      LiveUnreadable(ordered, c, now);
      hide *;
      if multiset(back.value) == multiset(EachIfLive(now, ordered)) {
        SameElements(back.value, EachIfLive(now, ordered));
        assert false;
      }
    }
  }

  lemma EachIfLiveHas(cs: seq<Cookie>, c: Cookie, now: int)
    requires c in cs && Live(now, Kept(c))
    ensures Kept(c) in EachIfLive(now, cs)
  {
    var i :| 0 <= i < |cs| && cs[i] == c;
    assert Map(Kept, cs)[i] == Kept(c);
  }

  /** For readable cookies with whole-second expiries nothing is lost. */
  lemma RoundTrip(cs: seq<Cookie>, allowed: seq<string>, now: int)
    requires Serialized(cs, allowed).Ok?
    requires forall c :: c in cs ==> Shaped(c) && WholeSeconds(c) && Readable(c)
    ensures Parsed(Serialized(cs, allowed).value, now) == Ok(Filter(LiveAt(now), StableSort(CookieLess, cs)))
  {
    FileReadsBack(cs, allowed, now);
    MapKeptWhole(StableSort(CookieLess, cs));
  }

  // ------------------------------------------------- a disguised cookie

  lemma OneComment(line: string, parse: RowParser)
    requires '\n' !in line && ReadLine(line, parse) == Ok(None)
    ensures Block(line, parse) == Ok([])
  {
    hide ReadLine, Lines;
    assert line + "\n" + "" == line + "\n";
    LinesFirst(line, "");
    LinesNothing();
    var lines := [line];
    assert Lines(line + "\n") == lines && lines[1..] == [];
    RowsSkip(lines, parse);
  }

  lemma CommentLine(text: string, now: int)
    requires '\n' !in text && Bytes("#" + "\t" + text) < MAX_LINE
    ensures Block("#" + "\t" + text, ParseRowAt(now)) == Ok([])
  {
    hide DropCarriageReturn, Block, ParseRow, Bytes;
    var once := DropCarriageReturn(text);
    DropBehind("#", text);
    DropBehind("#", once);
    CommentSkippedToo(DropCarriageReturn(once), now);
    OneComment("#" + "\t" + text, ParseRowAt(now));
  }

  /** Two lines are read one after the other. */
  lemma BlockAppend(line: string, more: string, parse: RowParser, found: seq<Cookie>)
    requires Block(line, parse) == Ok(found) && Block(more, parse) == Ok([])
    ensures Block(line + "\n" + more, parse) == Ok(found)
  {
    hide Lines, ParseRows;
    assert line + "\n" + more + "\n" == line + "\n" + (more + "\n");
    LinesAppend(line, more + "\n");
    RowsAppend(Lines(line + "\n"), Lines(more + "\n"), parse);
    assert found + [] == found;
  }

  lemma CommentSkippedToo(text: string, now: int)
    ensures ParseRow("#" + "\t" + text, now) == Ok(None)
  {
    var line := "#" + "\t" + text;
    assert line[1] == '\t' && HTTP_ONLY[1] == 'H';
  }

  /** A cookie whose path holds the rest of another cookie's row, a line feed and a comment sign is read back as
      that other cookie: the file can be read, and is wrong. */
  lemma ReadAsAnother(c: Cookie, d: Cookie, now: int)
    requires Shaped(c) && Shaped(d) && Readable(d)
    requires (c.domain, c.hostOnly, c.httpOnly) == (d.domain, d.hostOnly, d.httpOnly)
    requires c.path == d.path + "\t" + Join(Ending(d), '\t') + "\n" + "#"
    requires Bytes("#" + "\t" + Join(Ending(c), '\t')) < MAX_LINE
    ensures Block(Join(Fields(c), '\t'), ParseRowAt(now)) == Ok(IfLive(now, Kept(d)))
  {
    hide *;
    EndingOnOneLine(c);
    RowOfDisguised(c, d);
    RowReadsBack(d, now);
    CommentLine(Join(Ending(c), '\t'), now);
    BlockAppend(Join(Fields(d), '\t'), "#" + "\t" + Join(Ending(c), '\t'), ParseRowAt(now), IfLive(now, Kept(d)));
  }

  lemma RowOfDisguised(c: Cookie, d: Cookie)
    requires Shaped(c) && Shaped(d)
    requires (c.domain, c.hostOnly, c.httpOnly) == (d.domain, d.hostOnly, d.httpOnly)
    requires c.path == d.path + "\t" + Join(Ending(d), '\t') + "\n" + "#"
    ensures Join(Fields(c), '\t') == Join(Fields(d), '\t') + "\n" + ("#" + "\t" + Join(Ending(c), '\t'))
  {
    hide Fields, DomainField, RowTail, Join, Shaped, Ending;
    RowsInParts(c, d);
    TailOfDisguised(c, d);
    SameDomainField(c, d);
    RegroupRow(DomainField(d), RowTail(d), "#" + "\t" + Join(Ending(c), '\t'));
  }

  lemma RegroupRow(first: string, tail: string, more: string)
    ensures first + "\t" + (tail + "\n" + more) == (first + "\t" + tail) + "\n" + more
  {
  }

  lemma EndingOnOneLine(c: Cookie)
    requires Shaped(c)
    ensures '\n' !in Join(Ending(c), '\t')
  {
    EndingClean(c);
    hide Ending, Join, Shaped;
    JoinHolds(Ending(c), '\t', '\n');
  }

  lemma RowsInParts(c: Cookie, d: Cookie)
    requires Shaped(c) && Shaped(d)
    ensures Join(Fields(c), '\t') == DomainField(c) + "\t" + RowTail(c)
    ensures Join(Fields(d), '\t') == DomainField(d) + "\t" + RowTail(d)
  {
    hide Fields, DomainField, RowTail, Join;
    RowInParts(c);
    RowInParts(d);
  }

  lemma SameDomainField(c: Cookie, d: Cookie)
    requires (c.domain, c.hostOnly, c.httpOnly) == (d.domain, d.hostOnly, d.httpOnly)
    ensures DomainField(c) == DomainField(d)
  {
  }

  lemma TailOfDisguised(c: Cookie, d: Cookie)
    requires c.hostOnly == d.hostOnly && c.path == d.path + "\t" + Join(Ending(d), '\t') + "\n" + "#"
    ensures RowTail(c) == RowTail(d) + "\n" + ("#" + "\t" + Join(Ending(c), '\t'))
  {
    hide Join, Flag, Ending;
    var flag, one, two := Flag(c.hostOnly), Join(Ending(c), '\t'), Join(Ending(d), '\t');
    assert c.path + "\t" + one == (d.path + "\t" + two) + "\n" + ("#" + "\t" + one);
  }
}
