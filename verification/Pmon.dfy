/** The one-shot `nvidia-smi pmon` table: printing it and reading it back. */
module Pmon {
  import opened Accounting
  import opened Text

  datatype Sample = Sample(gpu: int, pid: u32, kind: string, sm: u32, mem: u32, enc: u32, dec: u32, name: string)

  /** One observed device, as far as telemetry is concerned. */
  datatype Shown = Shown(index: int, procs: seq<Process>)

  // ---------- which command lines are taken over ----------

  ghost predicate OneShot(args: seq<string>) {
    || args == ["pmon", "-c", "1"]
    || args == ["pmon", "-c", "1", "-s", "u"]
    || args == ["pmon", "-s", "u", "-c", "1"]
  }

  lemma OneShotPairs(args: seq<string>, i: nat)
    requires OneShot(args) && (i == 1 || i == 3) && i < |args|
    ensures i + 1 < |args| <= 5
    ensures (args[i] == "-c" && args[i + 1] == "1") || (args[i] == "-s" && args[i + 1] == "u")
    ensures i == 3 ==> args[1] != args[3]
  {
  }

  /** Exactly three command lines are. */
  method Matches(args: seq<string>) returns (ok: bool)
    ensures ok <==> OneShot(args)
  {
    if |args| < 3 || args[0] != "pmon" { return false; }
    var countSeen, selectorSeen := false, false;
    var i := 1;
    while i < |args|
      invariant 1 <= i <= |args|
      invariant !countSeen && !selectorSeen ==> i == 1
      invariant countSeen && !selectorSeen ==> i == 3 && args[1..3] == ["-c", "1"]
      invariant !countSeen && selectorSeen ==> i == 3 && args[1..3] == ["-s", "u"]
      invariant countSeen && selectorSeen ==>
                i == 5 && (args[1..5] == ["-c", "1", "-s", "u"] || args[1..5] == ["-s", "u", "-c", "1"])
    {
      if OneShot(args) && i < 5 { OneShotPairs(args, i); }
      if countSeen || selectorSeen { assert args[1] == args[1..i][0]; }
      if i + 1 >= |args| { return false; }
      assert args[1..i + 2] == args[1..i] + [args[i], args[i + 1]];
      if args[i] == "-c" {
        if countSeen || args[i + 1] != "1" { return false; }
        countSeen := true;
      } else if args[i] == "-s" {
        if selectorSeen || args[i + 1] != "u" { return false; }
        selectorSeen := true;
      } else {
        return false;
      }
      i := i + 2;
    }
    assert args == ["pmon"] + args[1..i];
    assert countSeen && !selectorSeen ==> args == ["pmon", "-c", "1"];
    assert countSeen && selectorSeen ==>
      args == ["pmon", "-c", "1", "-s", "u"] || args == ["pmon", "-s", "u", "-c", "1"];
    assert !countSeen ==> i == |args| == 3 && args[1] == args[1..3][0] == "-s";
    return countSeen;
  }

  // ---------- printing ----------

  function Spaces(n: int): (s: string)
    ensures Blank(s) && |s| == (if n < 0 then 0 else n)
  {
    if n <= 0 then "" else " " + Spaces(n - 1)
  }

  function Kind(s: Sample): string { if s.kind == "" then "C" else s.kind }

  function ShownName(s: Sample): string { if s.name == "" then "-" else s.name }

  /** The seven columns before the name. */
  function Columns(s: Sample): (r: seq<string>)
    ensures |r| == 7
  {
    [Itoa(s.gpu), Decimal(s.pid), Kind(s), Decimal(s.sm), Decimal(s.mem), Decimal(s.enc), Decimal(s.dec)]
  }

  const WIDTHS: seq<int> := [5, 11, 5, 5, 5, 5, 5]

  /** The blanks before column `k`: a separator, and right alignment as `%5d` and
      `%5s` do it. */
  function Lead(cols: seq<string>, k: nat): (s: string)
    requires k < |cols| == 7
    ensures Blank(s) && (k > 0 ==> s != "")
  {
    (if k == 0 then "" else " ") + Spaces(WIDTHS[k] - |cols[k]|)
  }

  /** Columns `k` to the end. */
  function Table(cols: seq<string>, k: nat): string
    requires k <= |cols| == 7
    decreases 7 - k
  {
    if k == 7 then "" else Lead(cols, k) + cols[k] + Table(cols, k + 1)
  }

  function Row(s: Sample): string { Table(Columns(s), 0) + "   " + ShownName(s) }

  function Joined(pieces: seq<string>): string {
    if pieces == [] then "" else pieces[0] + Joined(pieces[1..])
  }

  // The two header lines, cut into pieces of eight characters.
  const PIECES1: seq<string> :=
    ["# gpu   ", "      pi", "d  type ", "   sm   ", "mem   en", "c   dec ", "  comman", "d"]
  const PIECES2: seq<string> := ["# Idx   ", "        ", "#   C/G ", "    %   ", "  %     ", "%     % ", "  name"]
  const HEADER1 := Joined(PIECES1)
  const HEADER2 := Joined(PIECES2)

  function Rows(samples: seq<Sample>): string {
    if samples == [] then "" else Row(samples[0]) + "\n" + Rows(samples[1..])
  }

  function Rendered(ordered: seq<Sample>): string { HEADER1 + "\n" + HEADER2 + "\n" + Rows(ordered) }

  predicate Before(a: Sample, b: Sample) { if a.gpu != b.gpu then a.gpu < b.gpu else a.pid < b.pid }

  ghost predicate Ordered(s: seq<Sample>) { forall i, j :: 0 <= i < j < |s| ==> !Before(s[j], s[i]) }

  /** By GPU number, and on one GPU by PID. */
  lemma OrderedIff(s: seq<Sample>)
    ensures Ordered(s) <==>
              forall i, j :: 0 <= i < j < |s| ==>
                s[i].gpu <= s[j].gpu && (s[i].gpu == s[j].gpu ==> s[i].pid <= s[j].pid)
  {
  }

  /** Inserts one sample into an ordered list. */
  method Insert(sorted: seq<Sample>, x: Sample) returns (r: seq<Sample>)
    requires Ordered(sorted)
    ensures Ordered(r) && multiset(r) == multiset(sorted) + multiset{x}
  {
    var i := 0;
    while i < |sorted| && !Before(x, sorted[i])
      invariant 0 <= i <= |sorted|
      invariant forall j :: 0 <= j < i ==> !Before(x, sorted[j])
    {
      i := i + 1;
    }
    r := sorted[..i] + [x] + sorted[i..];
    InsertOrdered(sorted, i, x);
    assert multiset(sorted) == multiset(sorted[..i]) + multiset(sorted[i..]) by {
      assert sorted == sorted[..i] + sorted[i..];
    }
  }

  lemma InsertOrdered(s: seq<Sample>, i: nat, x: Sample)
    requires Ordered(s) && i <= |s|
    requires forall j :: 0 <= j < i ==> !Before(x, s[j])
    requires i < |s| ==> Before(x, s[i])
    ensures Ordered(s[..i] + [x] + s[i..])
  {
    var r := s[..i] + [x] + s[i..];
    forall k | i <= k < |s| ensures !Before(s[k], x) {
      assert k > i ==> !Before(s[k], s[i]);
    }
    forall a, b | 0 <= a < b < |r| ensures !Before(r[b], r[a]) {
      assert r[a] == (if a < i then s[a] else if a == i then x else s[a - 1]);
      assert r[b] == (if b < i then s[b] else if b == i then x else s[b - 1]);
    }
  }

  method Sort(samples: seq<Sample>) returns (sorted: seq<Sample>)
    ensures Ordered(sorted) && multiset(sorted) == multiset(samples)
  {
    sorted := [];
    for i := 0 to |samples|
      invariant Ordered(sorted) && multiset(sorted) == multiset(samples[..i])
    {
      sorted := Insert(sorted, samples[i]);
      assert samples[..i + 1] == samples[..i] + [samples[i]];
    }
    assert samples[..|samples|] == samples;
  }

  lemma RowsStep(text: string, s: seq<Sample>, i: nat)
    requires i < |s|
    ensures text + Rows(s[i..]) == (text + Row(s[i]) + "\n") + Rows(s[i + 1..])
  {
    assert Rows(s[i..]) == Row(s[i]) + "\n" + Rows(s[i + 1..]) by { assert s[i..][1..] == s[i + 1..]; }
    Regroup(text, Row(s[i]), "\n", Rows(s[i + 1..]));
    Associative(Row(s[i]), "\n", Rows(s[i + 1..]));
  }

  /** Sorts a copy by GPU and PID, then prints header and rows. */
  method Render(samples: seq<Sample>) returns (text: string)
    ensures exists ordered: seq<Sample> :: Ordered(ordered) && multiset(ordered) == multiset(samples)
             && text == Rendered(ordered)
  {
    var sorted := Sort(samples);
    text := HEADER1 + "\n" + HEADER2 + "\n";
    assert sorted[0..] == sorted;
    for i := 0 to |sorted|
      invariant text + Rows(sorted[i..]) == Rendered(sorted)
    {
      RowsStep(text, sorted, i);
      text := text + Row(sorted[i]) + "\n";
    }
    assert text + Rows(sorted[|sorted|..]) == text;
  }

  // ---------- reading ----------

  /** Length of the leading run without white space. */
  function SolidPrefix(s: string): (n: nat)
    ensures n <= |s| && Solid(s[..n]) && (n < |s| ==> IsSpace(s[n]))
  {
    if s == "" || IsSpace(s[0]) then 0
    else
      var n := 1 + SolidPrefix(s[1..]);
      assert s[..n] == [s[0]] + s[1..][..n - 1];
      n
  }

  /** `strings.Fields` */
  function Fields(s: string): seq<string>
    decreases |s|
  {
    var t := TrimLeft(s);
    TrimLeftShorter(s);
    if t == "" then []
    else
      var n := SolidPrefix(t);
      [t[..n]] + Fields(t[n..])
  }

  /** One table row, or nothing if the line is not one. */
  function ParseRow(line: string): Option<Sample> {
    if line != "" && line[0] == '#' then None
    else
      var f := Fields(line);
      if |f| < 8 then None
      else
        var gpu, pid := Atoi(f[0]), ParseUint(f[1], MAX32);
        var sm, mem, enc, dec := ParseUint(f[3], MAX32), ParseUint(f[4], MAX32), ParseUint(f[5], MAX32),
            ParseUint(f[6], MAX32);
        if gpu.None? || pid.None? || sm.None? || mem.None? || enc.None? || dec.None? then None
        else if sm.value > 100 || mem.value > 100 || enc.value > 100 || dec.value > 100 then None
        else Some(Sample(gpu.value, pid.value, f[2], sm.value, mem.value, enc.value, dec.value, ""))
  }

  function Taken(p: Process, s: Sample): Process {
    if p.pid == s.pid then p.(kind := s.kind, sm := s.sm, mem := s.mem, enc := s.enc, dec := s.dec) else p
  }

  function TakenAll(d: Shown, s: Sample): (r: Shown)
    ensures r.index == d.index && |r.procs| == |d.procs|
    ensures forall i :: 0 <= i < |d.procs| ==>
             r.procs[i] == if d.index == s.gpu then Taken(d.procs[i], s) else d.procs[i]
  {
    if d.index != s.gpu then d
    else Shown(d.index, seq(|d.procs|, i requires 0 <= i < |d.procs| => Taken(d.procs[i], s)))
  }

  function AttachLine(d: Shown, line: string): Shown {
    var row := ParseRow(line);
    if row.None? then d else TakenAll(d, row.value)
  }

  /** All the lines in turn. */
  function AttachLines(d: Shown, lines: seq<string>): Shown
    decreases |lines|
  {
    if lines == [] then d else AttachLines(AttachLine(d, lines[0]), lines[1..])
  }

  function Attached(d: Shown, text: string): Shown { AttachLines(d, NonEmptyLines(text)) }

  /** One row against one device's processes. */
  method TakeRow(device: Shown, row: Sample) returns (r: Shown)
    ensures r == TakenAll(device, row)
  {
    if device.index != row.gpu { return device; }
    var procs := device.procs;
    for p := 0 to |procs|
      invariant |procs| == |device.procs|
      invariant forall q :: 0 <= q < p ==> procs[q] == Taken(device.procs[q], row)
      invariant forall q :: p <= q < |procs| ==> procs[q] == device.procs[q]
    {
      if procs[p].pid != row.pid { continue; }
      procs := procs[p := procs[p].(kind := row.kind, sm := row.sm, mem := row.mem, enc := row.enc, dec := row.dec)];
    }
    r := Shown(device.index, procs);
    assert r.procs == TakenAll(device, row).procs;
  }

  /** One row against every device, in place. */
  method TakeRowEverywhere(devices: array<Shown>, row: Sample)
    modifies devices
    ensures forall d :: 0 <= d < devices.Length ==> devices[d] == TakenAll(old(devices[d]), row)
  {
    for d := 0 to devices.Length
      invariant forall e :: 0 <= e < d ==> devices[e] == TakenAll(old(devices[e]), row)
      invariant forall e :: d <= e < devices.Length ==> devices[e] == old(devices[e])
    {
      devices[d] := TakeRow(devices[d], row);
    }
  }

  lemma AttachNext(d: Shown, lines: seq<string>, n: nat)
    requires n < |lines|
    ensures AttachLines(d, lines[n..]) == AttachLines(AttachLine(d, lines[n]), lines[n + 1..])
  {
    assert lines[n..][0] == lines[n] && lines[n..][1..] == lines[n + 1..];
  }

  /** The parser: every line of the output against every device. */
  method AttachPmon(devices: array<Shown>, out: string)
    modifies devices
    ensures forall d :: 0 <= d < devices.Length ==> devices[d] == Attached(old(devices[d]), out)
  {
    var lines := ReadLines(out);
    assert lines[0..] == lines;
    for n := 0 to |lines|
      invariant forall d :: 0 <= d < devices.Length ==>
                  AttachLines(devices[d], lines[n..]) == Attached(old(devices[d]), out)
    {
      forall d | 0 <= d < devices.Length
        ensures AttachLines(AttachLine(devices[d], lines[n]), lines[n + 1..]) == Attached(old(devices[d]), out)
      {
        AttachNext(devices[d], lines, n);
      }
      var row := ParseRow(lines[n]);
      if row.None? { continue; }
      TakeRowEverywhere(devices, row.value);
    }
  }

  // ---------- reading back what was printed ----------

  ghost predicate ValidSample(s: Sample) {
    && -MAX_INT - 1 <= s.gpu <= MAX_INT
    && (s.kind == "" || s.kind == "C" || s.kind == "G")
    && '\n' !in TrimRight(s.name)
  }

  /** The parser takes its row: the name shows, and the utilizations are percentages. */
  predicate Reads(s: Sample) {
    !Invisible(s.name) && s.sm <= 100 && s.mem <= 100 && s.enc <= 100 && s.dec <= 100
  }

  lemma {:induction false} SolidRun(w: string, rest: string)
    requires Solid(w) && (rest != "" ==> IsSpace(rest[0]))
    ensures SolidPrefix(w + rest) == |w|
  {
    if w == "" {
      assert w + rest == rest;
    } else {
      assert (w + rest)[1..] == w[1..] + rest;
      SolidRun(w[1..], rest);
    }
  }

  /** One word behind blanks and before a blank or the end. */
  lemma FieldsOne(sp: string, w: string, rest: string)
    requires Blank(sp) && w != "" && Solid(w) && (rest != "" ==> IsSpace(rest[0]))
    ensures Fields(sp + w + rest) == [w] + Fields(rest)
  {
    assert sp + w + rest == sp + (w + rest);
    TrimLeftSpaces(sp, w + rest);
    SolidRun(w, rest);
    assert (w + rest)[..|w|] == w && (w + rest)[|w|..] == rest;
  }

  lemma FieldsVisible(s: string)
    requires !Blank(s)
    ensures Fields(s) != []
  {
    VisibleTrim(s);
  }

  ghost predicate Words(cols: seq<string>) { forall i :: 0 <= i < |cols| ==> cols[i] != "" && Solid(cols[i]) }

  lemma Associative(a: string, b: string, c: string)
    ensures a + b + c == a + (b + c)
  {
  }

  lemma Regroup(a: string, b: string, c: string, d: string)
    ensures (a + b + c) + d == a + b + (c + d) == a + (b + (c + d))
  {
  }

  lemma TableStarts(cols: seq<string>, k: nat, tail: string)
    requires 0 < k <= |cols| == 7 && (tail != "" ==> IsSpace(tail[0]))
    ensures var s := Table(cols, k) + tail; s != "" ==> IsSpace(s[0])
  {
    if k < 7 {
      Regroup(Lead(cols, k), cols[k], Table(cols, k + 1), tail);
      assert (Table(cols, k) + tail)[0] == Lead(cols, k)[0];
    } else {
      assert Table(cols, k) + tail == tail;
    }
  }

  lemma {:induction false} TableFields(cols: seq<string>, k: nat, tail: string)
    requires k <= |cols| == 7 && Words(cols) && (tail != "" ==> IsSpace(tail[0]))
    ensures Fields(Table(cols, k) + tail) == cols[k..] + Fields(tail)
    decreases 7 - k
  {
    if k == 7 {
      assert Table(cols, k) + tail == tail;
    } else {
      TableStarts(cols, k + 1, tail);
      TableFields(cols, k + 1, tail);
      var rest := Table(cols, k + 1) + tail;
      FieldsOne(Lead(cols, k), cols[k], rest);
      assert Table(cols, k) + tail == Lead(cols, k) + cols[k] + rest by {
        Regroup(Lead(cols, k), cols[k], Table(cols, k + 1), tail);
      }
      ConsConcat(cols, k, Fields(tail));
    }
  }

  lemma ConsConcat(cols: seq<string>, k: nat, more: seq<string>)
    requires k < |cols|
    ensures [cols[k]] + (cols[k + 1..] + more) == cols[k..] + more
  {
    assert cols[k..] == [cols[k]] + cols[k + 1..];
  }

  lemma ColumnsWords(s: Sample)
    requires ValidSample(s)
    ensures Words(Columns(s))
  {
    ItoaSolid(s.gpu);
    ItoaSolid(s.pid);
    ItoaSolid(s.sm);
    ItoaSolid(s.mem);
    ItoaSolid(s.enc);
    ItoaSolid(s.dec);
  }

  /** A trimmed word is left alone by trimming again. */
  lemma FieldsTrimmed(sp: string, w: string)
    requires Blank(sp) && w != "" && !IsSpace(w[0])
    ensures TrimLeft(sp + w) == w && Fields(w) == Fields(sp + w)
  {
    TrimLeftSpaces(sp, w);
    TrimLeftSpaces("", w);
    assert "" + w == w;
  }

  /** The table from its first column on, without the blanks before it. */
  function Core(s: Sample): string { Itoa(s.gpu) + Table(Columns(s), 1) }

  /** Taking blanks off the left leaves the fields. */
  lemma TrimmedTable(s: Sample, tail: string)
    requires ValidSample(s)
    ensures TrimLeft(Table(Columns(s), 0) + tail) == Core(s) + tail
    ensures Core(s) + tail != "" && (Core(s) + tail)[0] != '#'
    ensures Fields(Core(s) + tail) == Fields(Table(Columns(s), 0) + tail)
  {
    var w, lead := Itoa(s.gpu), Lead(Columns(s), 0);
    ItoaSolid(s.gpu);
    Regroup(lead, w, Table(Columns(s), 1), tail);
    assert w + (Table(Columns(s), 1) + tail) == Core(s) + tail;
    assert (Core(s) + tail)[0] == w[0] && (w[0] == '-' || IsDigit(w[0]));
    FieldsTrimmed(lead, Core(s) + tail);
  }

  lemma CoreFields(s: Sample)
    requires ValidSample(s)
    ensures Fields(Core(s)) == Columns(s)
  {
    TrimmedTable(s, "");
    assert Core(s) + "" == Core(s);
    ColumnsWords(s);
    TableFields(Columns(s), 0, "");
    assert Columns(s)[0..] + Fields("") == Columns(s);
  }

  lemma TrimmedInvisible(s: Sample)
    requires ValidSample(s) && Invisible(s.name)
    ensures Trim(Row(s)) == Core(s)
  {
    TrimmedTable(s, "   " + s.name);
    TableEnds(s);
    TrimBlankTail(Table(Columns(s), 0), Core(s), "   ", s.name);
  }

  /** Trimming a text whose part `x` trims to `core`, followed by blanks only. */
  lemma TrimBlankTail(x: string, core: string, gap: string, name: string)
    requires TrimLeft(x + (gap + name)) == core + (gap + name) && Blank(gap) && Blank(name)
    requires core != "" && !IsSpace(core[|core| - 1])
    ensures Trim(x + gap + name) == core
  {
    Associative(x, gap, name);
    TrimRightBlank(core, gap + name);
  }

  /** ... or followed by something visible. */
  lemma TrimVisibleTail(x: string, core: string, gap: string, name: string)
    requires TrimLeft(x + (gap + name)) == core + (gap + name) && !Blank(name)
    ensures Trim(x + gap + name) == core + (gap + TrimRight(name)) && !Blank(gap + TrimRight(name))
  {
    Associative(x, gap, name);
    Associative(core, gap, name);
    TrimRightVisible(core + gap, name);
    Associative(core, gap, TrimRight(name));
    VisibleTail(gap, TrimRight(name));
  }

  lemma TrimmedVisible(s: Sample)
    requires ValidSample(s) && !Invisible(s.name)
    ensures var line, rest := Trim(Row(s)), "   " + TrimRight(ShownName(s));
            line == Core(s) + rest && Fields(rest) != [] && Fields(line) == Columns(s) + Fields(rest)
  {
    var name := ShownName(s);
    var rest := "   " + TrimRight(name);
    VisibleName(s);
    TrimmedTable(s, "   " + name);
    TrimVisibleTail(Table(Columns(s), 0), Core(s), "   ", name);
    TrimmedTable(s, rest);
    ColumnsWords(s);
    TableFields(Columns(s), 0, rest);
    assert Columns(s)[0..] == Columns(s);
    FieldsVisible(rest);
  }

  /** What is left of a printed row once the parser has trimmed it. */
  lemma TrimmedRow(s: Sample)
    requires ValidSample(s)
    ensures var line := Trim(Row(s));
            && line != "" && line[0] != '#'
            && (!Invisible(s.name) ==> |Fields(line)| >= 8 && Fields(line)[..7] == Columns(s))
            && (Invisible(s.name) ==> Fields(line) == Columns(s))
  {
    if Invisible(s.name) {
      TrimmedInvisible(s);
      CoreFields(s);
      TrimmedTable(s, "");
      assert Core(s) + "" == Core(s);
    } else {
      TrimmedVisible(s);
      var rest := "   " + TrimRight(ShownName(s));
      TrimmedTable(s, rest);
      assert (Columns(s) + Fields(rest))[..7] == Columns(s);
    }
  }

  lemma VisibleName(s: Sample)
    requires !Invisible(s.name)
    ensures !Blank(ShownName(s))
  {
    if s.name == "" { assert !IsSpace("-"[0]); }
  }

  lemma VisibleTail(a: string, b: string)
    requires !Blank(b)
    ensures !Blank(a + b)
  {
    var i :| 0 <= i < |b| && !IsSpace(b[i]);
    assert (a + b)[|a| + i] == b[i];
  }

  /** The last printed column ends the table with a digit. */
  lemma TableEnds(s: Sample)
    requires ValidSample(s)
    ensures Core(s) != "" && !IsSpace(Core(s)[|Core(s)| - 1])
  {
    var cols := Columns(s);
    TableLast(cols, 1);
    ItoaSolid(s.dec);
    assert Core(s)[|Core(s)| - 1] == Table(cols, 1)[|Table(cols, 1)| - 1];
  }

  lemma {:induction false} TableLast(cols: seq<string>, k: nat)
    requires k < |cols| == 7 && cols[6] != ""
    ensures Table(cols, k) != "" && Table(cols, k)[|Table(cols, k)| - 1] == cols[6][|cols[6]| - 1]
    decreases 7 - k
  {
    if k == 6 {
      assert Table(cols, 6) == Lead(cols, 6) + cols[6];
    } else {
      TableLast(cols, k + 1);
    }
  }

  /** What a reader makes of a sample. */
  function Read(s: Sample): Sample { s.(kind := Kind(s), name := "") }

  /** A printed row is read back exactly, unless its name is invisible or one of its
      utilizations is over 100: then it is skipped. */
  lemma RowReadsBack(s: Sample)
    requires ValidSample(s)
    ensures ParseRow(Trim(Row(s)))
         == if !Reads(s) then None else Some(s.(kind := if s.kind == "" then "C" else s.kind, name := ""))
  {
    TrimmedRow(s);
    var line := Trim(Row(s));
    if !Invisible(s.name) {
      var f, c := Fields(line), Columns(s);
      assert forall i :: 0 <= i < 7 ==> f[i] == f[..7][i];
      assert f[0] == c[0] && f[1] == c[1] && f[2] == c[2] && f[3] == c[3] && f[4] == c[4] && f[5] == c[5]
          && f[6] == c[6];
      AtoiItoa(s.gpu);
      ParseDecimal(s.pid, MAX32);
      ParseDecimal(s.sm, MAX32);
      ParseDecimal(s.mem, MAX32);
      ParseDecimal(s.enc, MAX32);
      ParseDecimal(s.dec, MAX32);
    }
  }

  // ---------- the layout of a row ----------

  /** Where the columns end, and where column `k` may begin. */
  const ENDS: seq<nat> := [5, 17, 23, 29, 35, 41, 47]

  function Begin(k: nat): nat
    requires k <= 7
  {
    if k == 0 then 0 else ENDS[k - 1]
  }

  ghost predicate Fit(cols: seq<string>) { |cols| == 7 && forall j :: 0 <= j < 7 ==> |cols[j]| <= WIDTHS[j] }

  lemma {:induction false} TableWidth(cols: seq<string>, k: nat)
    requires Fit(cols) && k <= 7
    ensures |Table(cols, k)| == 47 - Begin(k)
    decreases 7 - k
  {
    if k < 7 { TableWidth(cols, k + 1); }
  }

  lemma {:induction false} ColumnPlace(cols: seq<string>, k: nat, j: nat)
    requires Fit(cols) && k <= j < 7
    ensures var end := ENDS[j] - Begin(k);
            |cols[j]| <= end <= |Table(cols, k)| && Table(cols, k)[end - |cols[j]|..end] == cols[j]
    decreases j - k
  {
    TableWidth(cols, k);
    TableWidth(cols, k + 1);
    var lead, rest := Lead(cols, k) + cols[k], Table(cols, k + 1);
    assert Table(cols, k) == lead + rest && |lead| == ENDS[k] - Begin(k);
    if k == j {
      assert lead[|lead| - |cols[j]|..] == cols[j];
    } else {
      ColumnPlace(cols, k + 1, j);
    }
  }

  /** As long as every value fits its column, the columns of all rows end at the
      same seven places, and the name begins behind the fiftieth. */
  lemma RowLayout(s: Sample, j: nat)
    requires Fit(Columns(s)) && j < 7
    ensures var row, c := Row(s), Columns(s)[j];
            && |c| <= ENDS[j] <= |row| && row[ENDS[j] - |c|..ENDS[j]] == c
            && |row| > 50 && row[47..50] == "   " && row[50..] == (if s.name == "" then "-" else s.name)
  {
    var table, name := Table(Columns(s), 0), ShownName(s);
    TableWidth(Columns(s), 0);
    ColumnPlace(Columns(s), 0, j);
    InFront(table, "   ", name, ENDS[j] - |Columns(s)[j]|, ENDS[j]);
  }

  lemma InFront(a: string, b: string, c: string, i: nat, j: nat)
    requires i <= j <= |a|
    ensures var s := a + b + c; s[i..j] == a[i..j] && s[|a|..|a| + |b|] == b && s[|a| + |b|..] == c
  {
  }

  /** The columns are GPU number, PID, type and the four utilizations. */
  lemma ColumnsAre(s: Sample)
    ensures Columns(s) == [Itoa(s.gpu), Itoa(s.pid), if s.kind == "" then "C" else s.kind,
                           Itoa(s.sm), Itoa(s.mem), Itoa(s.enc), Itoa(s.dec)]
  {
  }

  /** A row ends with the name after three blanks, or with a dash for no name. */
  lemma RowEnds(s: Sample)
    ensures var row, end := Row(s), "   " + (if s.name == "" then "-" else s.name);
            |row| >= |end| && row[|row| - |end|..] == end
  {
    assert Row(s) == Table(Columns(s), 0) + ("   " + ShownName(s));
  }

  /** Such a sample: a process called by two blanks. */
  lemma BlankNameNotRead()
    ensures var s := Sample(0, 8, "C", 50, 0, 0, 0, "  ");
            ValidSample(s) && ParseRow(Trim(Row(s))).None?
  {
    var s := Sample(0, 8, "C", 50, 0, 0, 0, "  ");
    TrimRightBlankOnly(s.name);
    RowReadsBack(s);
  }

  // ---------- the whole table ----------

  lemma {:induction false} NoBreakConcat(a: string, b: string)
    requires '\n' !in a && '\n' !in b
    ensures '\n' !in a + b
  {
  }

  lemma SolidNoBreak(s: string)
    requires Solid(s)
    ensures '\n' !in s
  {
    assert forall i :: 0 <= i < |s| ==> s[i] != '\n';
  }

  lemma {:induction false} SpacesNoBreak(n: int)
    ensures '\n' !in Spaces(n)
  {
    if n > 0 {
      SpacesNoBreak(n - 1);
      NoBreakConcat(" ", Spaces(n - 1));
    }
  }

  lemma {:induction false} TableNoBreak(cols: seq<string>, k: nat)
    requires k <= |cols| == 7 && Words(cols)
    ensures '\n' !in Table(cols, k)
    decreases 7 - k
  {
    if k < 7 {
      TableNoBreak(cols, k + 1);
      SpacesNoBreak(WIDTHS[k] - |cols[k]|);
      SolidNoBreak(cols[k]);
      NoBreakConcat(if k == 0 then "" else " ", Spaces(WIDTHS[k] - |cols[k]|));
      NoBreakConcat(Lead(cols, k), cols[k]);
      NoBreakConcat(Lead(cols, k) + cols[k], Table(cols, k + 1));
    }
  }

  /** A printed row is one line, whatever white space its name ends with. */
  lemma RowLines(s: Sample, rest: string)
    requires ValidSample(s) && Trim(Row(s)) != ""
    ensures NonEmptyLines(Row(s) + "\n" + rest) == [Trim(Row(s))] + NonEmptyLines(rest)
  {
    ColumnsWords(s);
    TableNoBreak(Columns(s), 0);
    NoBreakConcat(Table(Columns(s), 0), "   ");
    assert '\n' !in TrimRight(ShownName(s));
    NamedLine(Table(Columns(s), 0) + "   ", ShownName(s), rest);
  }

  /** The samples, in order, each taken if its row is. */
  function TakenSeq(d: Shown, samples: seq<Sample>): Shown
    decreases |samples|
  {
    if samples == [] then d
    else TakenSeq(if Reads(samples[0]) then TakenAll(d, Read(samples[0])) else d, samples[1..])
  }

  lemma {:induction false} RowsReadBack(d: Shown, samples: seq<Sample>)
    requires forall i :: 0 <= i < |samples| ==> ValidSample(samples[i])
    ensures Attached(d, Rows(samples)) == TakenSeq(d, samples)
    decreases |samples|
  {
    if samples == [] {
      assert NonEmptyLines("") == [] by { assert TrimmedLines([""]) == [] + TrimmedLines([]); }
    } else {
      var s, rest := samples[0], samples[1..];
      TrimmedRow(s);
      RowLines(s, Rows(rest));
      RowReadsBack(s);
      assert ([Trim(Row(s))] + NonEmptyLines(Rows(rest)))[1..] == NonEmptyLines(Rows(rest));
      RowsReadBack(if Reads(s) then TakenAll(d, Read(s)) else d, rest);
    }
  }

  /** A line the parser takes for a comment. */
  ghost predicate Comment(line: string) {
    line != "" && line[0] == '#' && !IsSpace(line[|line| - 1]) && '\n' !in line
  }

  lemma CommentLine(d: Shown, line: string, rest: string)
    requires Comment(line)
    ensures Attached(d, line + "\n" + rest) == Attached(d, rest)
  {
    LineThen(line, rest);
    TrimLeftSpaces("", line);
    assert "" + line == line;
    assert Trim(line) == line;
    assert ([line] + NonEmptyLines(rest))[1..] == NonEmptyLines(rest);
  }

  lemma TwoComments(d: Shown, one: string, two: string, rest: string)
    requires Comment(one) && Comment(two)
    ensures Attached(d, one + "\n" + two + "\n" + rest) == Attached(d, rest)
  {
    CommentLine(d, two, rest);
    CommentLine(d, one, two + "\n" + rest);
    assert one + "\n" + two + "\n" + rest == one + "\n" + (two + "\n" + rest);
  }

  lemma {:induction false} JoinedPlain(pieces: seq<string>)
    requires forall i :: 0 <= i < |pieces| ==> '\n' !in pieces[i]
    ensures '\n' !in Joined(pieces)
  {
    if pieces != [] {
      JoinedPlain(pieces[1..]);
      NoBreakConcat(pieces[0], Joined(pieces[1..]));
    }
  }

  lemma {:induction false} JoinedEnds(pieces: seq<string>)
    requires pieces != [] && pieces[0] != "" && pieces[|pieces| - 1] != ""
    ensures var s, last := Joined(pieces), pieces[|pieces| - 1];
            s != "" && s[0] == pieces[0][0] && s[|s| - 1] == last[|last| - 1]
  {
    if |pieces| == 1 {
      assert Joined(pieces) == pieces[0] + "" == pieces[0];
    } else {
      JoinedLast(pieces);
    }
  }

  lemma {:induction false} JoinedLast(pieces: seq<string>)
    requires pieces != [] && pieces[|pieces| - 1] != ""
    ensures var s, last := Joined(pieces), pieces[|pieces| - 1]; s != "" && s[|s| - 1] == last[|last| - 1]
  {
    if |pieces| == 1 {
      assert Joined(pieces) == pieces[0] + "" == pieces[0];
    } else {
      JoinedLast(pieces[1..]);
    }
  }

  lemma JoinedComment(pieces: seq<string>)
    requires |pieces| > 1 && pieces[0] != "" && pieces[0][0] == '#'
    requires var last := pieces[|pieces| - 1]; last != "" && !IsSpace(last[|last| - 1])
    requires forall i :: 0 <= i < |pieces| ==> '\n' !in pieces[i]
    ensures Comment(Joined(pieces))
  {
    JoinedPlain(pieces);
    JoinedEnds(pieces);
  }

  lemma FirstHeader()
    ensures Comment(HEADER1)
  {
    JoinedComment(PIECES1);
  }

  lemma SecondHeader()
    ensures Comment(HEADER2)
  {
    JoinedComment(PIECES2);
  }

  lemma TableReadsBack(d: Shown, ordered: seq<Sample>)
    requires forall i :: 0 <= i < |ordered| ==> ValidSample(ordered[i])
    ensures Attached(d, Rendered(ordered)) == TakenSeq(d, ordered)
  {
    RowsReadBack(d, ordered);
    FirstHeader();
    SecondHeader();
    TwoComments(d, HEADER1, HEADER2, Rows(ordered));
  }

  ghost predicate Matching(s: Sample, d: Shown, p: Process) { s.gpu == d.index && s.pid == p.pid && Reads(s) }

  /** No two samples are for the same process on the same GPU. */
  ghost predicate OnePerProcess(samples: seq<Sample>) {
    forall i, j :: 0 <= i < j < |samples| ==> samples[i].gpu != samples[j].gpu || samples[i].pid != samples[j].pid
  }

  lemma {:induction false} TakenSeqAt(d: Shown, samples: seq<Sample>, i: nat)
    requires i < |d.procs| && OnePerProcess(samples)
    ensures var r := TakenSeq(d, samples);
            && r.index == d.index && |r.procs| == |d.procs|
            && (forall k :: 0 <= k < |samples| && Matching(samples[k], d, d.procs[i]) ==>
              r.procs[i] == Taken(d.procs[i], Read(samples[k])))
            && ((forall k :: 0 <= k < |samples| ==> !Matching(samples[k], d, d.procs[i])) ==> r.procs[i] == d.procs[i])
    decreases |samples|
  {
    if samples != [] {
      var s, rest := samples[0], samples[1..];
      var d1 := if Reads(s) then TakenAll(d, Read(s)) else d;
      assert forall k :: 0 <= k < |rest| ==> rest[k] == samples[k + 1];
      TakenSeqAt(d1, rest, i);
      assert d1.procs[i].pid == d.procs[i].pid;
      assert forall k :: 0 <= k < |rest| ==>
        (Matching(rest[k], d1, d1.procs[i]) <==> Matching(samples[k + 1], d, d.procs[i]));
      if Matching(s, d, d.procs[i]) {
        assert forall k :: 0 <= k < |rest| ==> !Matching(rest[k], d1, d1.procs[i]);
      } else {
        assert d1.procs[i] == d.procs[i];
      }
    }
  }

  /** Round trip: reading the printed table gives each process with a sample
      exactly that sample's type (compute if it had none) and four utilizations,
      and leaves every other process as it was.  Samples whose name is nothing but
      white space, or that have a utilization over 100, are the exact exception: they
      are printed but not read. */
  lemma RoundTrip(d: Shown, samples: seq<Sample>, ordered: seq<Sample>, i: nat)
    requires i < |d.procs| && OnePerProcess(samples) && multiset(ordered) == multiset(samples)
    requires forall k :: 0 <= k < |samples| ==> ValidSample(samples[k])
    ensures var p, q := d.procs[i], Attached(d, Rendered(ordered));
            && |q.procs| == |d.procs|
            && (forall s :: s in samples && Matching(s, d, p) ==>
                  q.procs[i] == p.(kind := if s.kind == "" then "C" else s.kind, sm := s.sm, mem := s.mem,
                                   enc := s.enc, dec := s.dec))
            && ((forall s :: s in samples ==> !Matching(s, d, p)) ==> q.procs[i] == p)
  {
    SameMembers(ordered, samples);
    OnePerProcessAnyOrder(samples, ordered);
    forall k | 0 <= k < |ordered| ensures ValidSample(ordered[k]) {
      assert ordered[k] in samples;
    }
    TableReadsBack(d, ordered);
    TakenSeqAt(d, ordered, i);
  }

  lemma SameMembers(a: seq<Sample>, b: seq<Sample>)
    requires multiset(a) == multiset(b)
    ensures forall s :: s in a <==> s in b
  {
    forall s ensures s in a <==> s in b {
      assert s in a <==> s in multiset(a);
      assert s in b <==> s in multiset(b);
    }
  }

  lemma OnePerProcessAnyOrder(a: seq<Sample>, b: seq<Sample>)
    requires OnePerProcess(a) && multiset(a) == multiset(b)
    ensures OnePerProcess(b)
  {
    forall i, j | 0 <= i < j < |b| ensures b[i].gpu != b[j].gpu || b[i].pid != b[j].pid {
      SameMembers(a, b);
      assert b[i] in b && b[j] in b;
      var x :| 0 <= x < |a| && a[x] == b[i];
      var y :| 0 <= y < |a| && a[y] == b[j];
      if b[i] == b[j] {
        CountTwice(b, i, j);
        CountOnce(a, x);
        assert false;
      }
    }
  }

  lemma CountTwice(s: seq<Sample>, i: nat, j: nat)
    requires i < j < |s| && s[i] == s[j]
    ensures multiset(s)[s[i]] >= 2
  {
    assert s == s[..i] + [s[i]] + s[i + 1..j] + [s[j]] + s[j + 1..];
  }

  lemma {:induction false} CountOnce(s: seq<Sample>, x: nat)
    requires OnePerProcess(s) && x < |s|
    ensures multiset(s)[s[x]] == 1
  {
    assert s == s[..x] + [s[x]] + s[x + 1..];
    assert forall k :: 0 <= k < x ==> s[..x][k] == s[k];
    assert s[x] !in s[..x] && s[x] !in s[x + 1..];
  }
}
