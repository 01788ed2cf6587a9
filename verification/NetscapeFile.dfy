/** The cookie file: one tab-separated row per cookie, as other tools read it. */
module NetscapeFile {
  import opened Results
  import opened Ordering
  import opened Text

  /** Instants are nanoseconds since the Unix epoch; the file keeps whole seconds. */
  const SECOND := 1_000_000_000

  datatype Cookie = Cookie(
    name: string,
    value: string,
    domain: string,
    path: string,
    secure: bool,
    httpOnly: bool,
    expires: Option<int>,
    hostOnly: bool)

  datatype FileError = BadRow | BadCookie | LineTooLong

  predicate Live(now: int, c: Cookie) { c.expires.None? || c.expires.value > now }

  function LiveAt(now: int): Cookie -> bool { (c: Cookie) => Live(now, c) }

  // --------------------------------------------------------------- hosts

  function NormalizedHost(host: string): string {
    TrimPrefix(Lower(TrimSuffix(Trim(host), ".")), ".")
  }

  predicate Under(host: string, parent: string) {
    host == parent || HasSuffix(host, "." + parent)
  }

  predicate IsHHHost(host: string) {
    Under(Lower(TrimSuffix(Trim(host), ".")), "hh.ru")
  }

  predicate MatchesAllowed(host: string, allowed: seq<string>) {
    exists a :: a in allowed && Under(NormalizedHost(host), NormalizedHost(a))
  }

  // ------------------------------------------------------------- writing

  predicate CookieLess(a: Cookie, b: Cookie) {
    if a.domain != b.domain then StringLess(a.domain, b.domain)
    else if a.path != b.path then StringLess(a.path, b.path)
    else StringLess(a.name, b.name)
  }

  lemma CookieLessIsStrict()
    ensures StrictWeakOrder(CookieLess)
  {
    StringLessStrict();
    forall a: Cookie, b: Cookie, c: Cookie
      ensures !CookieLess(a, a)
      ensures CookieLess(a, b) && CookieLess(b, c) ==> CookieLess(a, c)
      ensures !CookieLess(a, b) && !CookieLess(b, c) ==> !CookieLess(a, c)
    {
    }
  }

  const HTTP_ONLY := "#HttpOnly_"
  const HEADER_1 := "# Netscape HTTP " + "Cookie File"
  const HEADER_2 := "# This is a generated " + "file! Do not edit."

  function Flag(b: bool): string { if b then "TRUE" else "FALSE" }

  function DomainFieldFor(tag: string, c: Cookie): string {
    (if c.httpOnly then tag else "") + ((if c.hostOnly then "" else ".") + TrimPrefix(Lower(c.domain), "."))
  }

  function DomainField(c: Cookie): string { DomainFieldFor(HTTP_ONLY, c) }

  function Fields(c: Cookie): seq<string> { FieldsWith(DomainField(c), c) }

  function UnixSeconds(c: Cookie): int { if c.expires.None? then 0 else c.expires.value / SECOND }

  function FieldsWith(domainField: string, c: Cookie): seq<string> {
    [domainField, Flag(!c.hostOnly), if c.path == "" then "/" else c.path, Flag(c.secure),
     FormatInt(UnixSeconds(c)), c.name, c.value]
  }

  function Row(c: Cookie, allowed: seq<string>): Result<string, FileError> {
    if c.name == "" || !MatchesAllowed(TrimPrefix(Lower(c.domain), "."), allowed)
        || (c.path != "" && !HasPrefix(c.path, "/"))
    then Err(BadCookie)
    else Ok(Join(Fields(c), '\t'))
  }

  function RowFor(allowed: seq<string>): Cookie -> Result<string, FileError> { (c: Cookie) => Row(c, allowed) }

  function Rows(cs: seq<Cookie>, row: Cookie -> Result<string, FileError>): Result<string, FileError> {
    if cs == [] then Ok("") else
      match row(cs[0])
      case Err(e) => Err(e)
      case Ok(first) =>
        match Rows(cs[1..], row)
        case Err(e) => Err(e)
        case Ok(rest) => Ok(first + "\n" + rest)
  }

  function HeaderOf(first: string, second: string): string { first + "\n" + (second + "\n" + "\n") }

  function Header(): string { HeaderOf(HEADER_1, HEADER_2) }

  function After(header: string, body: Result<string, FileError>): Result<string, FileError> {
    match body case Err(e) => Err(e) case Ok(rows) => Ok(header + rows)
  }

  function Serialized(cs: seq<Cookie>, allowed: seq<string>): Result<string, FileError> {
    After(Header(), Rows(StableSort(CookieLess, cs), RowFor(allowed)))
  }

  method AppendRows(header: string, ordered: seq<Cookie>, row: Cookie -> Result<string, FileError>)
    returns (r: Result<string, FileError>)
    ensures r == After(header, Rows(ordered, row))
  {
    var builder := header;
    for i := 0 to |ordered|
      invariant After(header, Rows(ordered, row)) == After(builder, Rows(ordered[i..], row))
    {
      assert ordered[i..][1..] == ordered[i + 1..];
      var line := row(ordered[i]);
      if line.Err? { return Err(line.error); }
      ghost var rest := Rows(ordered[i + 1..], row);
      assert rest.Ok? ==> builder + (line.value + "\n" + rest.value) == (builder + line.value + "\n") + rest.value;
      builder := builder + line.value + "\n";
    }
    assert ordered[|ordered|..] == [] && builder + "" == builder;
    return Ok(builder);
  }

  method SerializeNetscapeCookies(cs: seq<Cookie>, allowed: seq<string>) returns (r: Result<string, FileError>)
    ensures r == Serialized(cs, allowed)
  {
    r := AppendRows(Header(), StableSort(CookieLess, cs), RowFor(allowed));
  }

  // ------------------------------------------------------------- reading

  datatype ParsedDomain = ParsedDomain(domain: string, hostOnly: bool, httpOnly: bool)

  function ParseDomainFor(tag: string, field: string): Option<ParsedDomain> {
    var httpOnly := HasPrefix(field, tag);
    var raw := TrimPrefix(field, tag);
    var domain := TrimPrefix(Lower(Trim(raw)), ".");
    if raw == "" || !IsHHHost(domain) then None else Some(ParsedDomain(domain, !HasPrefix(raw, "."), httpOnly))
  }

  function ParseDomain(field: string): Option<ParsedDomain> { ParseDomainFor(HTTP_ONLY, field) }

  predicate IsFlag(s: string) { s == "TRUE" || s == "FALSE" }

  predicate Clean(s: string) { '\t' !in s && '\n' !in s && '\r' !in s }

  predicate IsComment(line: string) {
    HasPrefix(line, "#") && !HasPrefix(line, HTTP_ONLY)
  }

  function CookieFrom(domain: Option<ParsedDomain>, parts: seq<string>, expires: Option<int>,
                      now: int): Result<Option<Cookie>, FileError>
    requires |parts| == 7
  {
    if domain.None? || !IsFlag(parts[1]) || (parts[1] == "TRUE") == domain.value.hostOnly
       || !HasPrefix(parts[2], "/") || !IsFlag(parts[3]) || expires.None? || expires.value < 0
       || parts[5] == "" || !Clean(parts[5])
    then Err(BadRow)
    else
      var c := Cookie(parts[5], parts[6], domain.value.domain, parts[2], parts[3] == "TRUE", domain.value.httpOnly,
                      if expires.value == 0 then None else Some(expires.value * SECOND), domain.value.hostOnly);
      Ok(if Live(now, c) then Some(c) else None)
  }

  function ParseFields(parts: seq<string>, now: int): Result<Option<Cookie>, FileError> {
    if |parts| != 7 then Err(BadRow) else CookieFrom(ParseDomain(parts[0]), parts, ParseInt(parts[4]), now)
  }

  /** A row's cookie; None for a comment, a blank line or an expired cookie. */
  function ParseRow(line: string, now: int): Result<Option<Cookie>, FileError> {
    if Blank(line) || IsComment(line) then Ok(None) else ParseFields(Split(line, '\t'), now)
  }

  type RowParser = string -> Result<Option<Cookie>, FileError>

  function ParseRowAt(now: int): RowParser { (line: string) => ParseRow(line, now) }

  /** The scanner's buffer: a line must be shorter. */
  const MAX_LINE := 65_536

  /** A line as the scanner delivers it, without a carriage return at its end, of which the reader drops one more. */
  function ReadLine(line: string, parse: RowParser): Result<Option<Cookie>, FileError> {
    if Bytes(line) >= MAX_LINE then Err(LineTooLong) else parse(DropCarriageReturn(DropCarriageReturn(line)))
  }

  function ParseRows(lines: seq<string>, parse: RowParser): Result<seq<Cookie>, FileError> {
    if lines == [] then Ok([]) else
      match ReadLine(lines[0], parse)
      case Err(e) => Err(e)
      case Ok(c) =>
        match ParseRows(lines[1..], parse)
        case Err(e) => Err(e)
        case Ok(rest) => Ok((if c.Some? then [c.value] else []) + rest)
  }

  function Parsed(text: string, now: int): Result<seq<Cookie>, FileError> {
    ParseRows(Lines(text), ParseRowAt(now))
  }

  function Behind(cs: seq<Cookie>, rest: Result<seq<Cookie>, FileError>): Result<seq<Cookie>, FileError> {
    match rest case Err(e) => Err(e) case Ok(more) => Ok(cs + more)
  }

  method CollectRows(lines: seq<string>, parse: RowParser) returns (r: Result<seq<Cookie>, FileError>)
    ensures r == ParseRows(lines, parse)
  {
    hide ReadLine, Bytes, Live;
    var result: seq<Cookie> := [];
    ghost var whole := ParseRows(lines, parse);
    assert whole.Ok? ==> [] + whole.value == whole.value;
    assert lines[0..] == lines;
    for i := 0 to |lines|
      invariant whole == Behind(result, ParseRows(lines[i..], parse))
    {
      assert lines[i..][1..] == lines[i + 1..];
      var row := ReadLine(lines[i], parse);
      if row.Err? { return Err(row.error); }
      var found := if row.value.Some? then [row.value.value] else [];
      ghost var rest := ParseRows(lines[i + 1..], parse);
      assert rest.Ok? ==> result + (found + rest.value) == (result + found) + rest.value;
      result := result + found;
    }
    assert lines[|lines|..] == [] && result + [] == result;
    return Ok(result);
  }

  method ParseNetscapeCookies(text: string, now: int) returns (r: Result<seq<Cookie>, FileError>)
    ensures r == Parsed(text, now)
  {
    r := CollectRows(Lines(text), ParseRowAt(now));
  }
}
