/** Decimal numbers and white space, as Go's `strconv`, `fmt` and `strings`
    treat them. */
module Text {
  import opened Accounting

  const MAX32: nat := 0xFFFF_FFFF
  const MAX_INT: int := 0x7FFF_FFFF_FFFF_FFFF

  // ---------- decimal numbers ----------

  predicate IsDigit(c: char) { '0' <= c <= '9' }

  function Digit(n: nat): (c: char)
    requires n < 10
    ensures IsDigit(c) && DigitValue(c) == n
  {
    '0' + n as char
  }

  function DigitValue(c: char): (n: nat)
    requires IsDigit(c)
    ensures n < 10
  {
    (c - '0') as int
  }

  predicate AllDigits(s: string) { forall i :: 0 <= i < |s| ==> IsDigit(s[i]) }

  function Value(s: string): nat
    requires AllDigits(s)
  {
    if s == "" then 0 else 10 * Value(s[..|s| - 1]) + DigitValue(s[|s| - 1])
  }

  /** `strconv.ParseUint(s, 10, bits)` */
  function ParseUint(s: string, max: nat): Option<nat> {
    if s == "" || !AllDigits(s) || Value(s) > max then None else Some(Value(s))
  }

  /** `strconv.Atoi` */
  function Atoi(s: string): Option<int> {
    var signed := s != "" && (s[0] == '-' || s[0] == '+');
    var digits := if signed then s[1..] else s;
    if digits == "" || !AllDigits(digits) then None
    else if signed && s[0] == '-' then
      if Value(digits) > MAX_INT + 1 then None else Some(0 - (Value(digits) as int))
    else
      if Value(digits) > MAX_INT then None else Some(Value(digits))
  }

  function Decimal(n: nat): (s: string)
    ensures s != "" && AllDigits(s)
  {
    if n < 10 then [Digit(n)] else Decimal(n / 10) + [Digit(n % 10)]
  }

  /** `strconv.Itoa`, and what `%d` prints before padding. */
  function Itoa(n: int): string {
    if n < 0 then "-" + Decimal(-n) else Decimal(n)
  }

  lemma {:induction false} DecimalValue(n: nat)
    ensures Value(Decimal(n)) == n
  {
    if n < 10 {
      assert Decimal(n)[..0] == "";
    } else {
      DecimalValue(n / 10);
      var s := Decimal(n);
      assert s[..|s| - 1] == Decimal(n / 10);
    }
  }

  lemma ParseDecimal(n: nat, max: nat)
    requires n <= max
    ensures ParseUint(Decimal(n), max) == Some(n)
  {
    DecimalValue(n);
  }

  lemma AtoiItoa(n: int)
    requires -MAX_INT - 1 <= n <= MAX_INT
    ensures Atoi(Itoa(n)) == Some(n)
  {
    if n < 0 {
      DecimalValue(-n);
      assert Itoa(n)[1..] == Decimal(-n);
    } else {
      DecimalValue(n);
    }
  }

  // ---------- white space ----------

  /** `unicode.IsSpace` */
  predicate IsSpace(c: char) {
    || c == ' ' || ('\t' <= c <= '\r') || c == '\U{85}' || c == '\U{A0}'
    || c == '\U{1680}' || ('\U{2000}' <= c <= '\U{200A}') || c == '\U{2028}' || c == '\U{2029}'
    || c == '\U{202F}' || c == '\U{205F}' || c == '\U{3000}'
  }

  predicate Solid(s: string) { forall i :: 0 <= i < |s| ==> !IsSpace(s[i]) }

  predicate Blank(s: string) { forall i :: 0 <= i < |s| ==> IsSpace(s[i]) }

  lemma ItoaSolid(n: int)
    ensures Solid(Itoa(n)) && Itoa(n) != ""
  {
  }

  function TrimLeft(s: string): string {
    if s != "" && IsSpace(s[0]) then TrimLeft(s[1..]) else s
  }

  function TrimRight(s: string): string {
    if s != "" && IsSpace(s[|s| - 1]) then TrimRight(s[..|s| - 1]) else s
  }

  /** `strings.TrimSpace` */
  function Trim(s: string): string { TrimRight(TrimLeft(s)) }

  lemma {:induction false} TrimLeftShorter(s: string)
    ensures |TrimLeft(s)| <= |s| && (TrimLeft(s) != "" ==> !IsSpace(TrimLeft(s)[0]))
  {
    if s != "" && IsSpace(s[0]) { TrimLeftShorter(s[1..]); }
  }

  lemma {:induction false} VisibleTrim(s: string)
    requires !Blank(s)
    ensures TrimLeft(s) != ""
  {
    if IsSpace(s[0]) {
      assert !Blank(s[1..]) by {
        var i :| 0 <= i < |s| && !IsSpace(s[i]);
        assert s[1..][i - 1] == s[i];
      }
      VisibleTrim(s[1..]);
    }
  }

  lemma {:induction false} TrimLeftSpaces(sp: string, w: string)
    requires Blank(sp) && (w != "" ==> !IsSpace(w[0]))
    ensures TrimLeft(sp + w) == w
  {
    if sp == "" {
      assert sp + w == w;
    } else {
      assert (sp + w)[1..] == sp[1..] + w;
      TrimLeftSpaces(sp[1..], w);
    }
  }

  lemma {:induction false} TrimRightVisible(a: string, b: string)
    requires !Blank(b)
    ensures TrimRight(a + b) == a + TrimRight(b) && !Blank(TrimRight(b))
  {
    var n := |b| - 1;
    if IsSpace(b[n]) {
      assert !Blank(b[..n]) by {
        var i :| 0 <= i < |b| && !IsSpace(b[i]);
        assert b[..n][i] == b[i];
      }
      assert (a + b)[..|a + b| - 1] == a + b[..n];
      TrimRightVisible(a, b[..n]);
    }
  }

  lemma {:induction false} TrimRightBlank(a: string, b: string)
    requires Blank(b) && a != "" && !IsSpace(a[|a| - 1])
    ensures TrimRight(a + b) == a
  {
    if b == "" {
      assert a + b == a;
    } else {
      assert (a + b)[..|a + b| - 1] == a + b[..|b| - 1];
      TrimRightBlank(a, b[..|b| - 1]);
    }
  }

  /** A name that is printed as nothing but white space. */
  predicate Invisible(name: string) { name != "" && Blank(name) }

  lemma {:induction false} TrimLeftBlank(s: string)
    requires Blank(s)
    ensures TrimLeft(s) == ""
  {
    if s != "" { TrimLeftBlank(s[1..]); }
  }

  lemma {:induction false} TrimRightEnds(s: string)
    ensures var t := TrimRight(s);
            |t| <= |s| && t == s[..|t|] && (t != "" ==> !IsSpace(t[|t| - 1]))
  {
    if s != "" && IsSpace(s[|s| - 1]) { TrimRightEnds(s[..|s| - 1]); }
  }

  lemma {:induction false} TrimRightRest(s: string)
    ensures |TrimRight(s)| <= |s| && Blank(s[|TrimRight(s)|..])
  {
    if s != "" && IsSpace(s[|s| - 1]) {
      var n := |s| - 1;
      TrimRightRest(s[..n]);
      TrimRightEnds(s[..n]);
      var k := |TrimRight(s)|;
      assert s[k..] == s[..n][k..] + [s[n]];
    } else {
      assert s[|s|..] == "";
    }
  }

  lemma {:induction false} TrimLeftPart(s: string)
    ensures |TrimLeft(s)| <= |s| && TrimLeft(s) == s[|s| - |TrimLeft(s)|..]
  {
    if s != "" && IsSpace(s[0]) { TrimLeftPart(s[1..]); }
  }

  /** Trimming leaves no white space at either end. */
  lemma TrimEnds(s: string)
    ensures var t := Trim(s); t != "" ==> !IsSpace(t[0]) && !IsSpace(t[|t| - 1])
  {
    TrimLeftShorter(s);
    TrimRightEnds(TrimLeft(s));
  }

  lemma TrimmedAlready(t: string)
    requires t != "" ==> !IsSpace(t[0]) && !IsSpace(t[|t| - 1])
    ensures Trim(t) == t
  {
  }

  lemma TrimTwice(s: string)
    ensures Trim(Trim(s)) == Trim(s)
  {
    TrimEnds(s);
    TrimmedAlready(Trim(s));
  }

  lemma TrimInvisible(s: string)
    requires Blank(s)
    ensures Trim(s) == ""
  {
    TrimLeftBlank(s);
  }

  // ---------- names on one line of comma-separated values ----------

  /** A name the process listing can carry: no comma, and no line break with
      anything visible after it. */
  predicate Readable(name: string) { ',' !in name && '\n' !in TrimRight(name) }

  lemma {:induction false} TrimRightOfTail(s: string, c: char)
    requires s != "" && c in TrimRight(s[1..])
    ensures c in TrimRight(s)
  {
    var b := s[1..];
    if Blank(b) {
      TrimRightBlankOnly(b);
    } else {
      TrimRightVisible([s[0]], b);
      assert s == [s[0]] + b;
    }
  }

  lemma {:induction false} TrimRightBlankOnly(b: string)
    requires Blank(b)
    ensures TrimRight(b) == ""
  {
    if b != "" { TrimRightBlankOnly(b[..|b| - 1]); }
  }

  lemma {:induction false} TrimInsideTrimRight(s: string, c: char)
    requires c in Trim(s)
    ensures c in TrimRight(s)
  {
    if s != "" && IsSpace(s[0]) {
      TrimInsideTrimRight(s[1..], c);
      TrimRightOfTail(s, c);
    }
  }

  /** A readable name is read back as another readable name. */
  lemma TrimReadable(s: string)
    requires Readable(s)
    ensures Readable(Trim(s))
  {
    TrimTwice(s);
    TrimEnds(s);
    TrimLeftPart(s);
    TrimRightEnds(TrimLeft(s));
    TrimRightEnds(Trim(s));
    if '\n' in TrimRight(Trim(s)) {
      assert '\n' in Trim(s);
      TrimInsideTrimRight(s, '\n');
    }
  }

  // ---------- lines ----------

  /** `strings.Split(s, sep)` for a separator of one character. */
  function SplitOn(s: string, sep: char): (r: seq<string>)
    ensures r != []
    decreases |s|
  {
    if s == "" then [""]
    else
      var rest := SplitOn(s[1..], sep);
      if s[0] == sep then [""] + rest else [[s[0]] + rest[0]] + rest[1..]
  }

  /** What is left of some lines once they are trimmed and empty ones dropped. */
  function TrimmedLines(lines: seq<string>): seq<string>
    decreases |lines|
  {
    if lines == [] then []
    else (if Trim(lines[0]) == "" then [] else [Trim(lines[0])]) + TrimmedLines(lines[1..])
  }

  /** `nonEmptyLines` */
  function NonEmptyLines(raw: string): seq<string> { TrimmedLines(SplitOn(raw, '\n')) }

  method ReadLines(raw: string) returns (out: seq<string>)
    ensures out == NonEmptyLines(raw)
  {
    var lines := SplitOn(raw, '\n');
    out := [];
    assert lines[0..] == lines;
    for i := 0 to |lines|
      invariant out + TrimmedLines(lines[i..]) == NonEmptyLines(raw)
    {
      NextLine(out, lines, i);
      var line := Trim(lines[i]);
      if line != "" { out := out + [line]; }
    }
    assert out + [] == out;
  }

  lemma NextLine(out: seq<string>, lines: seq<string>, i: nat)
    requires i < |lines|
    ensures var more := if Trim(lines[i]) == "" then out else out + [Trim(lines[i])];
            out + TrimmedLines(lines[i..]) == more + TrimmedLines(lines[i + 1..])
  {
    assert lines[i..][0] == lines[i] && lines[i..][1..] == lines[i + 1..];
  }

  lemma {:induction false} SplitAt(a: string, sep: char, b: string)
    requires sep !in a
    ensures SplitOn(a + [sep] + b, sep) == [a] + SplitOn(b, sep)
  {
    var s := a + [sep] + b;
    if a == "" {
      assert s[1..] == b;
    } else {
      assert s[1..] == a[1..] + [sep] + b;
      SplitAt(a[1..], sep, b);
      assert s[0] == a[0] && [a[0]] + a[1..] == a;
    }
  }

  lemma {:induction false} SplitNone(a: string, sep: char)
    requires sep !in a
    ensures SplitOn(a, sep) == [a]
  {
    if a != "" {
      SplitNone(a[1..], sep);
      assert [a[0]] + a[1..] == a;
    }
  }

  /** A line by itself. */
  function OneLine(line: string): seq<string> { if Trim(line) == "" then [] else [Trim(line)] }

  lemma LineThen(line: string, rest: string)
    requires '\n' !in line
    ensures NonEmptyLines(line + "\n" + rest) == OneLine(line) + NonEmptyLines(rest)
  {
    SplitAt(line, '\n', rest);
    assert ([line] + SplitOn(rest, '\n'))[1..] == SplitOn(rest, '\n');
  }

  lemma {:induction false} TrimRightTail(a: string, t: string)
    requires Blank(t)
    ensures TrimRight(a + t) == TrimRight(a)
  {
    if t == "" {
      assert a + t == a;
    } else {
      var n := |t| - 1;
      assert (a + t)[..|a + t| - 1] == a + t[..n];
      TrimRightTail(a, t[..n]);
    }
  }

  lemma {:induction false} TrimLeftTail(a: string, t: string)
    requires !Blank(a)
    ensures TrimLeft(a + t) == TrimLeft(a) + t
  {
    if IsSpace(a[0]) {
      assert (a + t)[1..] == a[1..] + t;
      assert !Blank(a[1..]) by {
        var i :| 0 <= i < |a| && !IsSpace(a[i]);
        assert a[1..][i - 1] == a[i];
      }
      TrimLeftTail(a[1..], t);
    }
  }

  /** White space at the end makes no difference. */
  lemma TrimTail(a: string, t: string)
    requires Blank(t)
    ensures Trim(a + t) == Trim(a)
  {
    if Blank(a) {
      TrimInvisible(a);
      TrimInvisible(a + t);
    } else {
      TrimLeftTail(a, t);
      TrimRightTail(TrimLeft(a), t);
    }
  }

  /** Where a text has its first line break. */
  lemma {:induction false} FirstBreak(t: string) returns (i: nat)
    requires '\n' in t
    ensures i < |t| && t[i] == '\n' && '\n' !in t[..i]
  {
    if t[0] == '\n' {
      i := 0;
    } else {
      assert '\n' in t[1..] by {
        var k :| 0 <= k < |t| && t[k] == '\n';
        assert t[1..][k - 1] == '\n';
      }
      var j := FirstBreak(t[1..]);
      i := j + 1;
      assert t[..i] == [t[0]] + t[1..][..j];
    }
  }

  /** A line followed by white space, line breaks included. */
  lemma {:induction false} LineWithTail(line: string, t: string, rest: string)
    requires '\n' !in line && Blank(t)
    ensures NonEmptyLines(line + t + "\n" + rest) == OneLine(line) + NonEmptyLines(rest)
    decreases |t|
  {
    if '\n' !in t {
      assert '\n' !in line + t;
      LineThen(line + t, rest);
      TrimTail(line, t);
    } else {
      var i := FirstBreak(t);
      var t0, t1 := t[..i], t[i + 1..];
      assert line + t + "\n" + rest == (line + t0) + "\n" + (t1 + "\n" + rest) by {
        assert t == t0 + "\n" + t1;
      }
      assert '\n' !in line + t0;
      LineThen(line + t0, t1 + "\n" + rest);
      TrimTail(line, t0);
      assert "" + t1 == t1;
      LineWithTail("", t1, rest);
      assert OneLine("") == [];
      assert [] + NonEmptyLines(rest) == NonEmptyLines(rest);
    }
  }

  lemma NotIn(c: char, a: string, b: string)
    requires c !in a && c !in b
    ensures c !in a + b
  {
  }

  lemma Regrouped(a: string, b: string, c: string)
    ensures a + (b + c) == (a + b) + c
  {
  }

  /** A line that ends in a name with no line break before anything visible. */
  lemma NamedLine(start: string, name: string, rest: string)
    requires '\n' !in start && '\n' !in TrimRight(name)
    ensures NonEmptyLines(start + name + "\n" + rest) == OneLine(start + name) + NonEmptyLines(rest)
  {
    var seen := TrimRight(name);
    var tail := TailOf(name);
    NotIn('\n', start, seen);
    LineWithTail(start + seen, tail, rest);
    TrimTail(start + seen, tail);
    Regrouped(start, seen, tail);
  }

  /** The white space a text ends with. */
  lemma TailOf(name: string) returns (tail: string)
    ensures name == TrimRight(name) + tail && Blank(tail)
  {
    TrimRightEnds(name);
    TrimRightRest(name);
    tail := name[|TrimRight(name)|..];
  }
}
