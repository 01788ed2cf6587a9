/** String operations of the source's standard library, on sequences of characters. */
module Text {
  import opened Results

  /** Unicode white space, as the library's trimming functions see it. */
  predicate IsSpace(c: char) {
    var n := c as int;
    9 <= n <= 13 || n == 32 || n == 0x85 || n == 0xA0 || n == 0x1680 || 0x2000 <= n <= 0x200A
    || n == 0x2028 || n == 0x2029 || n == 0x202F || n == 0x205F || n == 0x3000
  }

  function TrimLeft(s: string): string {
    if s != [] && IsSpace(s[0]) then TrimLeft(s[1..]) else s
  }

  function TrimRight(s: string): string {
    if s != [] && IsSpace(s[|s| - 1]) then TrimRight(s[..|s| - 1]) else s
  }

  function Trim(s: string): string {
    TrimRight(TrimLeft(s))
  }

  predicate Blank(s: string) {
    Trim(s) == ""
  }

  predicate HasPrefix(s: string, prefix: string) {
    prefix <= s
  }

  predicate HasSuffix(s: string, suffix: string) {
    |suffix| <= |s| && s[|s| - |suffix|..] == suffix
  }

  function TrimPrefix(s: string, prefix: string): string {
    if HasPrefix(s, prefix) then s[|prefix|..] else s
  }

  function TrimSuffix(s: string, suffix: string): string {
    if HasSuffix(s, suffix) then s[..|s| - |suffix|] else s
  }

  /** Lower case of ASCII letters; host names have no others. */
  function LowerChar(c: char): char {
    if 'A' <= c <= 'Z' then (c as int + 32) as char else c
  }

  function Lower(s: string): (r: string)
    ensures |r| == |s|
    ensures forall i :: 0 <= i < |s| ==> r[i] == LowerChar(s[i])
  {
    if s == [] then [] else [LowerChar(s[0])] + Lower(s[1..])
  }

  /** A string without white space at either end is its own trimmed form. */
  lemma TrimNothing(s: string)
    requires s == "" || (!IsSpace(s[0]) && !IsSpace(s[|s| - 1]))
    ensures Trim(s) == s
  {
  }

  lemma {:induction false} TrimLeftCuts(s: string) returns (i: nat)
    ensures i <= |s| && TrimLeft(s) == s[i..] && forall k :: 0 <= k < i ==> IsSpace(s[k])
    ensures TrimLeft(s) != "" ==> !IsSpace(TrimLeft(s)[0])
  {
    i := 0;
    if s != [] && IsSpace(s[0]) {
      var j := TrimLeftCuts(s[1..]);
      i := j + 1;
    }
  }

  lemma {:induction false} TrimRightCuts(s: string) returns (j: nat)
    ensures j <= |s| && TrimRight(s) == s[..j] && forall k :: j <= k < |s| ==> IsSpace(s[k])
    ensures TrimRight(s) != "" ==> !IsSpace(TrimRight(s)[|TrimRight(s)| - 1])
  {
    j := |s|;
    if s != [] && IsSpace(s[|s| - 1]) {
      j := TrimRightCuts(s[..|s| - 1]);
      assert s[..|s| - 1][..j] == s[..j];
    }
  }

  /** Trimming cuts white space off both ends, and all of it. */
  lemma TrimCuts(s: string) returns (i: nat, j: nat)
    ensures i <= j <= |s| && Trim(s) == s[i..j]
    ensures forall k :: 0 <= k < i || j <= k < |s| ==> IsSpace(s[k])
    ensures i < j ==> !IsSpace(s[i]) && !IsSpace(s[j - 1])
  {
    i := TrimLeftCuts(s);
    var t := TrimLeft(s);
    var n := TrimRightCuts(t);
    j := i + n;
    assert s[i..][..n] == s[i..j];
    assert forall k :: j <= k < |s| ==> s[k] == t[k - i];
    if i < j { assert t[..n] != "" && t[..n][0] == t[0]; }
  }

  /** So it leaves nothing for a second time, and is empty exactly for white space. */
  lemma TrimTwice(s: string)
    ensures Trim(Trim(s)) == Trim(s)
    ensures Blank(s) <==> forall c :: c in s ==> IsSpace(c)
  {
    var i, j := TrimCuts(s);
    hide Trim;
    var t := Trim(s);
    if t != "" { assert t[0] == s[i] && t[|t| - 1] == s[j - 1]; }
    TrimNothing(t);
    assert forall k :: 0 <= k < |s| ==> s[k] in s;
    if i < j { assert s[i] in s && !IsSpace(s[i]); }
  }

  // --------------------------------------------------------------- fields

  /** Split at every separator. */
  function Split(s: string, sep: char): (r: seq<string>)
    ensures r != []
  {
    if s == [] then [""]
    else if s[0] == sep then [""] + Split(s[1..], sep)
    else
      var rest := Split(s[1..], sep);
      [[s[0]] + rest[0]] + rest[1..]
  }

  lemma {:induction false} SplitOne(s: string, sep: char)
    requires sep !in s
    ensures Split(s, sep) == [s]
  {
    if s != [] {
      SplitOne(s[1..], sep);
      assert [s[0]] + s[1..] == s;
    }
  }

  lemma {:induction false} SplitFirst(s: string, sep: char, rest: string)
    requires sep !in s
    ensures Split(s + [sep] + rest, sep) == [s] + Split(rest, sep)
  {
    var all := s + [sep] + rest;
    if s == [] {
      assert all == [sep] + rest && all[1..] == rest;
    } else {
      SplitFirst(s[1..], sep, rest);
      assert all[1..] == s[1..] + [sep] + rest;
      assert [s[0]] + s[1..] == s;
    }
  }

  /** How often a character occurs. */
  function Times(s: string, c: char): nat {
    if s == "" then 0 else (if s[0] == c then 1 else 0) + Times(s[1..], c)
  }

  lemma {:induction false} TimesAppend(s: string, t: string, c: char)
    ensures Times(s + t, c) == Times(s, c) + Times(t, c)
  {
    if s == "" {
      assert s + t == t;
    } else {
      assert (s + t)[1..] == s[1..] + t;
      TimesAppend(s[1..], t, c);
    }
  }

  lemma {:induction false} TimesNone(s: string, c: char)
    ensures Times(s, c) == 0 <==> c !in s
  {
    if s != "" { TimesNone(s[1..], c); }
  }

  /** Splitting makes one field more than there are separators. */
  lemma {:induction false} SplitTimes(s: string, sep: char)
    ensures |Split(s, sep)| == Times(s, sep) + 1
  {
    if s != "" { SplitTimes(s[1..], sep); }
  }

  /** The fields of a split hold no separator, and nothing that was not there. */
  lemma {:induction false} SplitPieces(s: string, sep: char, f: string)
    requires f in Split(s, sep)
    ensures sep !in f && forall x :: x in f ==> x in s
  {
    if s != "" {
      var rest := Split(s[1..], sep);
      if s[0] == sep {
        if f != "" { SplitPieces(s[1..], sep, f); }
      } else {
        var g := if f in rest[1..] then f else rest[0];
        assert g in rest;
        SplitPieces(s[1..], sep, g);
      }
    }
  }

  function Join(fields: seq<string>, sep: char): string {
    if fields == [] then "" else if |fields| == 1 then fields[0] else fields[0] + [sep] + Join(fields[1..], sep)
  }

  /** Joining and splitting fields that do not hold the separator gives the fields back. */
  lemma {:induction false} SplitJoin(fields: seq<string>, sep: char)
    requires fields != [] && forall f :: f in fields ==> sep !in f
    ensures Split(Join(fields, sep), sep) == fields
  {
    if |fields| == 1 {
      SplitOne(fields[0], sep);
    } else {
      SplitFirst(fields[0], sep, Join(fields[1..], sep));
      SplitJoin(fields[1..], sep);
    }
  }

  lemma {:induction false} JoinHolds(fields: seq<string>, sep: char, c: char)
    requires c != sep && forall f :: f in fields ==> c !in f
    ensures c !in Join(fields, sep)
  {
    if |fields| > 1 { JoinHolds(fields[1..], sep, c); }
  }

  // ---------------------------------------------------------------- lines

  function DropCarriageReturn(s: string): string {
    TrimSuffix(s, "\r")
  }

  /** What stands between line feeds; no empty line after the last one. */
  function Lines(text: string): seq<string>
    decreases |text|, |text| + 1
  {
    if text == "" then [] else LinesFrom(text, 0)
  }

  function LinesFrom(text: string, i: nat): seq<string>
    requires i <= |text| && text != ""
    decreases |text|, |text| - i
  {
    if i == |text| then [text]
    else if text[i] == '\n' then [text[..i]] + Lines(text[i + 1..])
    else LinesFrom(text, i + 1)
  }

  lemma {:induction false} LinesSkip(line: string, rest: string, i: nat)
    requires '\n' !in line && i <= |line|
    ensures LinesFrom(line + "\n" + rest, i) == [line] + Lines(rest)
    decreases |line| - i
  {
    var text := line + "\n" + rest;
    if i < |line| {
      assert text[i] == line[i];
      LinesSkip(line, rest, i + 1);
    } else {
      assert text[..i] == line && text[i + 1..] == rest;
    }
  }

  lemma LinesFirst(line: string, rest: string)
    requires '\n' !in line
    ensures Lines(line + "\n" + rest) == [line] + Lines(rest)
  {
    LinesSkip(line, rest, 0);
  }

  function BeforeLineFeed(s: string): (line: string)
    ensures '\n' !in line
    ensures |line| <= |s| && s[..|line|] == line && (|line| < |s| ==> s[|line|] == '\n')
  {
    if s == "" || s[0] == '\n' then "" else [s[0]] + BeforeLineFeed(s[1..])
  }

  lemma Regroup(line: string, more: string, rest: string)
    ensures (line + "\n" + more) + "\n" + rest == line + "\n" + (more + "\n" + rest)
  {
  }

  /** The lines of a text that ends a line are followed by those of the rest. */
  lemma {:induction false} LinesAppend(text: string, rest: string)
    ensures Lines(text + "\n" + rest) == Lines(text + "\n") + Lines(rest)
    decreases |text|
  {
    var line := BeforeLineFeed(text);
    hide *;
    assert text + "\n" + "" == text + "\n";
    LinesNothing();
    if |line| == |text| {
      LinesFirst(text, rest);
      LinesFirst(text, "");
    } else {
      var more := text[|line| + 1..];
      assert text == line + "\n" + more;
      Regroup(line, more, rest);
      Regroup(line, more, "");
      assert more + "\n" + "" == more + "\n";
      LinesFirst(line, more + "\n" + rest);
      LinesFirst(line, more + "\n");
      LinesAppend(more, rest);
    }
  }

  lemma LinesNothing()
    ensures Lines("") == []
  {
  }

  /** What a reader sees of a text first. */
  lemma FirstLine(text: string)
    ensures Lines(text + "\n") != [] && Lines(text + "\n")[0] == BeforeLineFeed(text)
  {
    var line := BeforeLineFeed(text);
    hide *;
    if |line| == |text| {
      assert text == line && text + "\n" + "" == text + "\n";
      LinesFirst(text, "");
    } else {
      var more := text[|line| + 1..] + "\n";
      assert text + "\n" == line + "\n" + more;
      LinesFirst(line, more);
    }
  }

  /** Lines hold no line feed. */
  lemma {:induction false} LinesPieces(text: string, i: nat, line: string)
    requires text != "" && i <= |text| && '\n' !in text[..i] && line in LinesFrom(text, i)
    ensures '\n' !in line
    decreases |text|, |text| - i
  {
    if i == |text| {
      assert text[..i] == text;
    } else if text[i] == '\n' {
      var rest := text[i + 1..];
      if line != text[..i] { LinesPieces(rest, 0, line); }
    } else {
      assert text[..i + 1] == text[..i] + [text[i]];
      LinesPieces(text, i + 1, line);
    }
  }

  // ---------------------------------------------------------------- bytes

  /** The length of a character in UTF-8, section 3 of RFC 3629. */
  function CharBytes(c: char): nat {
    var n := c as int;
    if n < 0x80 then 1 else if n < 0x800 then 2 else if n < 0x1_0000 then 3 else 4
  }

  function Bytes(s: string): nat {
    if s == "" then 0 else CharBytes(s[0]) + Bytes(s[1..])
  }

  lemma {:induction false} BytesAppend(s: string, t: string)
    ensures Bytes(s + t) == Bytes(s) + Bytes(t)
  {
    if s == "" {
      assert s + t == t;
    } else {
      assert (s + t)[1..] == s[1..] + t;
      BytesAppend(s[1..], t);
    }
  }

  lemma {:induction false} BytesBound(s: string)
    ensures |s| <= Bytes(s) <= 4 * |s|
  {
    if s != "" { BytesBound(s[1..]); }
  }

  // -------------------------------------------------------------- numbers

  function Digit(n: nat): char
    requires n < 10
  {
    ('0' as int + n) as char
  }

  predicate IsDigit(c: char) { '0' <= c <= '9' }

  function DigitValue(c: char): nat
    requires IsDigit(c)
  {
    c as int - '0' as int
  }

  function FormatNat(n: nat): (s: string)
    ensures s != [] && forall c :: c in s ==> IsDigit(c)
  {
    if n < 10 then [Digit(n)] else FormatNat(n / 10) + [Digit(n % 10)]
  }

  function FormatInt(n: int): string {
    if n < 0 then "-" + FormatNat(-n) else FormatNat(n)
  }

  function ParseNat(s: string): nat
    requires forall c :: c in s ==> IsDigit(c)
  {
    if s == [] then 0 else
      assert IsDigit(s[|s| - 1]);
      10 * ParseNat(s[..|s| - 1]) + DigitValue(s[|s| - 1])
  }

  const MAX_INT64 := 0x7FFF_FFFF_FFFF_FFFF

  /** A decimal 64-bit integer with an optional sign. */
  function ParseInt(s: string): Option<int> {
    var negative := HasPrefix(s, "-");
    var digits := if negative || HasPrefix(s, "+") then s[1..] else s;
    if digits == [] || exists c :: c in digits && !IsDigit(c) then None
    else
      var magnitude: int := ParseNat(digits);
      var n := if negative then -magnitude else magnitude;
      if -MAX_INT64 - 1 <= n <= MAX_INT64 then Some(n) else None
  }

  lemma {:induction false} ParseFormatNat(n: nat)
    ensures ParseNat(FormatNat(n)) == n
  {
    if n >= 10 {
      ParseFormatNat(n / 10);
      var s := FormatNat(n);
      assert s[..|s| - 1] == FormatNat(n / 10);
    }
  }

  /** Every 64-bit integer survives being written and read back. */
  lemma ParseFormatInt(n: int)
    requires -MAX_INT64 - 1 <= n <= MAX_INT64
    ensures ParseInt(FormatInt(n)) == Some(n)
  {
    if n < 0 {
      ParseFormatNat(-n);
      assert FormatInt(n)[1..] == FormatNat(-n);
    } else {
      ParseFormatNat(n);
      assert IsDigit(FormatNat(n)[0]);
    }
  }
}
