/** How a device comes to be observed: the process listing and the pmon table as
    text, and their parsers.  The listing's printer is an external program; it is
    taken to print one unquoted line per process. */
module Observer {
  import opened Accounting
  import opened Text
  import opened Rebase
  import opened Operations
  import opened Pmon

  // ---------- the process listing ----------

  /** A process on the GPU with that number. */
  type Entry = (nat, Process)

  function EntryStart(pid: nat, uuid: string, miB: nat): string {
    Decimal(pid) + "," + (" " + uuid) + "," + (" " + Decimal(miB)) + ","
  }

  /** One line of the listing. */
  function EntryLine(uuid: string, p: Process): string { EntryStart(p.pid, uuid, p.memMiB) + (" " + p.name) }

  function Listing(uuids: seq<string>, entries: seq<Entry>): string
    requires forall i :: 0 <= i < |entries| ==> entries[i].0 < |uuids|
  {
    if entries == [] then ""
    else EntryLine(uuids[entries[0].0], entries[0].1) + "\n" + Listing(uuids, entries[1..])
  }

  /** The trimmed fields of a line. */
  function Parts(line: string): (r: seq<string>)
    ensures |r| == |SplitOn(line, ',')| && forall i :: 0 <= i < |r| ==> r[i] == Trim(SplitOn(line, ',')[i])
  {
    var raw := SplitOn(line, ',');
    seq(|raw|, i requires 0 <= i < |raw| => Trim(raw[i]))
  }

  /** The GPU with that UUID (the last one, if several have it), or -1. */
  function UuidIndex(uuids: seq<string>, uuid: string): (r: int)
    ensures -1 <= r < |uuids| && (r >= 0 ==> uuids[r] == uuid)
    ensures r < 0 ==> uuid !in uuids
    ensures forall g :: r < g < |uuids| ==> uuids[g] != uuid
  {
    if uuids == [] then -1
    else if uuids[|uuids| - 1] == uuid then |uuids| - 1
    else UuidIndex(uuids[..|uuids| - 1], uuid)
  }

  function ParseEntry(uuids: seq<string>, line: string): (r: Option<Entry>)
    ensures r.Some? ==> r.value.0 < |uuids|
  {
    var parts := Parts(line);
    if |parts| != 4 then None
    else
      var pid, used, gpu := ParseUint(parts[0], MAX32), ParseUint(parts[2], MAX64), UuidIndex(uuids, parts[1]);
      if pid.None? || pid.value == 0 || used.None? || gpu < 0 then None
      else Some((gpu, Process(pid.value, "C", parts[3], used.value, 0, 0, 0, 0)))
  }

  function Appended(lists: seq<Procs>, e: Entry): (r: seq<Procs>)
    requires e.0 < |lists|
    ensures |r| == |lists|
  {
    lists[e.0 := lists[e.0] + [e.1]]
  }

  /** The processes per GPU after all lines, or failure at the first bad one. */
  function AttachEntries(uuids: seq<string>, lists: seq<Procs>, lines: seq<string>): (r: Option<seq<Procs>>)
    requires |lists| == |uuids|
    ensures r.Some? ==> |r.value| == |uuids|
    decreases |lines|
  {
    if lines == [] then Some(lists)
    else
      var e := ParseEntry(uuids, lines[0]);
      if e.None? then None else AttachEntries(uuids, Appended(lists, e.value), lines[1..])
  }

  function NoProcs(n: nat): (r: seq<Procs>)
    ensures |r| == n && forall i :: 0 <= i < n ==> r[i] == []
  {
    seq(n, i => [])
  }

  function Listed(uuids: seq<string>, text: string): Option<seq<Procs>> {
    AttachEntries(uuids, NoProcs(|uuids|), NonEmptyLines(text))
  }

  /** `attachProcesses` */
  method AttachProcesses(uuids: seq<string>, out: string) returns (r: Result<seq<Procs>>)
    ensures Listed(uuids, out) == if r.Ok? then Some(r.value) else None
  {
    var lines := ReadLines(out);
    var lists := NoProcs(|uuids|);
    assert lines[0..] == lines;
    for i := 0 to |lines|
      invariant |lists| == |uuids| && AttachEntries(uuids, lists, lines[i..]) == Listed(uuids, out)
    {
      assert lines[i..][0] == lines[i] && lines[i..][1..] == lines[i + 1..];
      var e := ParseEntry(uuids, lines[i]);
      if e.None? { return Err(Unreadable); }
      var (gpu, p) := e.value;
      lists := lists[gpu := lists[gpu] + [p]];
    }
    return Ok(lists);
  }

  // ---------- reading one line back ----------

  ghost predicate PlainUuid(uuid: string) { uuid != "" && Solid(uuid) && ',' !in uuid }

  lemma DecimalPlain(n: nat)
    ensures Solid(Decimal(n)) && ',' !in Decimal(n) && '\n' !in Decimal(n)
  {
    var s := Decimal(n);
    assert forall i :: 0 <= i < |s| ==> IsDigit(s[i]);
  }

  lemma TrimSolid(w: string)
    requires w != "" && Solid(w)
    ensures Trim(w) == w && Trim(" " + w) == w
  {
    TrimmedAlready(w);
    TrimLeftSpaces(" ", w);
  }

  lemma TrimLedName(name: string)
    ensures Trim(TrimRight(" " + name)) == Trim(name)
  {
    var led := " " + name;
    var tail := TailOf(led);
    TrimTail(TrimRight(led), tail);
    assert led[1..] == name;
  }

  lemma {:induction false} TrimRightKeeps(s: string, c: char)
    requires !IsSpace(c)
    ensures c in s <==> c in TrimRight(s)
  {
    if s != "" && IsSpace(s[|s| - 1]) {
      TrimRightKeeps(s[..|s| - 1], c);
      assert s == s[..|s| - 1] + [s[|s| - 1]];
    }
  }

  lemma {:induction false} SplitMany(s: string, sep: char)
    requires sep in s
    ensures |SplitOn(s, sep)| >= 2
  {
    if s[0] != sep {
      assert s == [s[0]] + s[1..];
      SplitMany(s[1..], sep);
    }
  }

  /** The line as the parser gets it: trimmed, so cut behind the name. */
  lemma TrimmedEntry(pid: nat, uuid: string, miB: nat, name: string)
    requires PlainUuid(uuid)
    ensures Trim(EntryStart(pid, uuid, miB) + (" " + name)) == EntryStart(pid, uuid, miB) + TrimRight(" " + name)
    ensures EntryStart(pid, uuid, miB) != ""
  {
    var start, led := EntryStart(pid, uuid, miB), " " + name;
    DecimalPlain(pid);
    assert start[0] == Decimal(pid)[0] && !IsSpace(start[0]);
    assert start[|start| - 1] == ',';
    TrimLeftSpaces("", start + led);
    assert "" + (start + led) == start + led;
    if Blank(led) {
      TrimRightBlank(start, led);
      TrimRightBlankOnly(led);
      assert start + "" == start;
    } else {
      TrimRightVisible(start, led);
    }
  }

  /** Three fields without a comma, then the rest. */
  lemma SplitThree(a: string, b: string, c: string, d: string)
    requires ',' !in a && ',' !in b && ',' !in c
    ensures SplitOn(a + "," + b + "," + c + "," + d, ',') == [a, b, c] + SplitOn(d, ',')
  {
    SplitAt(c, ',', d);
    SplitAt(b, ',', c + "," + d);
    SplitAt(a, ',', b + "," + (c + "," + d));
    Regrouped(a + "," + b + ",", c, "," + d);
    Regrouped(c, ",", d);
    Regrouped(a + ",", b, "," + (c + "," + d));
    Regrouped(b, ",", c + "," + d);
    Regrouped(a + "," + b, ",", c + "," + d);
    Regrouped(a + "," + b + "," + c, ",", d);
    assert [a] + ([b] + ([c] + SplitOn(d, ','))) == [a, b, c] + SplitOn(d, ',');
  }

  lemma EntryFields(pid: nat, uuid: string, miB: nat, name: string)
    requires PlainUuid(uuid)
    ensures SplitOn(Trim(EntryStart(pid, uuid, miB) + (" " + name)), ',')
         == [Decimal(pid), " " + uuid, " " + Decimal(miB)] + SplitOn(TrimRight(" " + name), ',')
  {
    TrimmedEntry(pid, uuid, miB, name);
    DecimalPlain(pid);
    DecimalPlain(miB);
    NotIn(',', " ", uuid);
    NotIn(',', " ", Decimal(miB));
    SplitThree(Decimal(pid), " " + uuid, " " + Decimal(miB), TrimRight(" " + name));
  }

  /** Whatever numbers, UUID and name a line has: it is read exactly if the PID is
      positive and fits in 32 bits, the memory fits in 64, a GPU has the UUID and the
      name has no comma. */
  lemma EntryIff(uuids: seq<string>, pid: nat, uuid: string, miB: nat, name: string)
    requires PlainUuid(uuid)
    ensures var e := ParseEntry(uuids, Trim(EntryStart(pid, uuid, miB) + (" " + name)));
            && (e.Some? <==> 0 < pid <= MAX32 && miB <= MAX64 && uuid in uuids && ',' !in name)
            && (e.Some? ==>
                  && uuids[e.value.0] == uuid && (forall g :: e.value.0 < g < |uuids| ==> uuids[g] != uuid)
                  && e.value.1 == Process(pid, "C", Trim(name), miB, 0, 0, 0, 0))
  {
    var led, line := " " + name, Trim(EntryStart(pid, uuid, miB) + (" " + name));
    EntryFields(pid, uuid, miB, name);
    TrimRightKeeps(led, ',');
    assert ',' in led <==> ',' in name by { assert led[1..] == name; }
    if ',' in name {
      SplitMany(TrimRight(led), ',');
    } else {
      SplitNone(TrimRight(led), ',');
      FieldsParse(uuids, pid, uuid, miB, name, line);
    }
  }

  lemma FieldsParse(uuids: seq<string>, pid: nat, uuid: string, miB: nat, name: string, line: string)
    requires PlainUuid(uuid)
    requires SplitOn(line, ',') == [Decimal(pid), " " + uuid, " " + Decimal(miB)] + [TrimRight(" " + name)]
    ensures var e := ParseEntry(uuids, line);
            && (e.Some? <==> 0 < pid <= MAX32 && miB <= MAX64 && uuid in uuids)
            && (e.Some? ==>
                  && uuids[e.value.0] == uuid && (forall g :: e.value.0 < g < |uuids| ==> uuids[g] != uuid)
                  && e.value.1 == Process(pid, "C", Trim(name), miB, 0, 0, 0, 0))
  {
    DecimalPlain(pid);
    DecimalPlain(miB);
    TrimSolid(Decimal(pid));
    TrimSolid(uuid);
    TrimSolid(Decimal(miB));
    TrimLedName(name);
    DecimalValue(pid);
    DecimalValue(miB);
    var parts := Parts(line);
    assert parts[0] == Decimal(pid) && parts[1] == uuid;
    assert parts[2] == Decimal(miB) && parts[3] == Trim(name);
  }

  /** A line without a comma in the name is read back as the plain record, with a
      comma it is refused. */
  lemma EntryReadsBack(uuids: seq<string>, gpu: nat, p: Process)
    requires gpu < |uuids| && PlainUuid(uuids[gpu]) && UuidIndex(uuids, uuids[gpu]) == gpu && p.pid != 0
    ensures ParseEntry(uuids, Trim(EntryLine(uuids[gpu], p))) == if ',' in p.name then None else Some((gpu, Plain(p)))
  {
    EntryIff(uuids, p.pid, uuids[gpu], p.memMiB, p.name);
    var e := ParseEntry(uuids, Trim(EntryLine(uuids[gpu], p)));
    if e.Some? { assert e.value.0 == gpu; }
  }

  /** A line with other than four fields is refused. */
  lemma FourFields(uuids: seq<string>, line: string)
    requires |SplitOn(line, ',')| != 4
    ensures ParseEntry(uuids, line).None?
  {
  }

  // ---------- reading the listing back ----------

  ghost predicate AllPlainUuids(uuids: seq<string>) {
    forall i :: 0 <= i < |uuids| ==> PlainUuid(uuids[i]) && UuidIndex(uuids, uuids[i]) == i
  }

  ghost predicate Listable(uuids: seq<string>, entries: seq<Entry>) {
    forall i :: 0 <= i < |entries| ==> entries[i].0 < |uuids| && entries[i].1.pid != 0
  }

  /** A name with a comma and a line break could pass for lines of its own. */
  ghost predicate NotBoth(name: string) { ',' !in name || '\n' !in TrimRight(name) }

  function AllAppended(lists: seq<Procs>, entries: seq<Entry>): (r: seq<Procs>)
    requires forall i :: 0 <= i < |entries| ==> entries[i].0 < |lists|
    ensures |r| == |lists|
    decreases |entries|
  {
    if entries == [] then lists
    else AllAppended(Appended(lists, (entries[0].0, Plain(entries[0].1))), entries[1..])
  }

  lemma {:induction false} OneBadLine(uuids: seq<string>, lists: seq<Procs>, lines: seq<string>, k: nat)
    requires |lists| == |uuids| && k < |lines| && ParseEntry(uuids, lines[k]).None?
    ensures AttachEntries(uuids, lists, lines).None?
    decreases k
  {
    if k > 0 && ParseEntry(uuids, lines[0]).Some? {
      OneBadLine(uuids, Appended(lists, ParseEntry(uuids, lines[0]).value), lines[1..], k - 1);
    }
  }

  lemma NoCommaNoEntry(uuids: seq<string>, line: string)
    requires ',' !in line
    ensures ParseEntry(uuids, line).None?
  {
    SplitNone(line, ',');
  }

  lemma TrimNoComma(s: string)
    requires ',' !in s
    ensures ',' !in Trim(s)
  {
    TrimLeftPart(s);
    TrimRightEnds(TrimLeft(s));
  }

  /** Something visible without a comma, left over behind a line break, makes a
      line that is not an entry. */
  lemma {:induction false} LeftoverLine(uuids: seq<string>, s: string, rest: string) returns (k: nat)
    requires !Blank(s) && ',' !in s
    ensures k < |NonEmptyLines(s + "\n" + rest)| && ParseEntry(uuids, NonEmptyLines(s + "\n" + rest)[k]).None?
    decreases |s|
  {
    if '\n' !in s {
      LineThen(s, rest);
      VisibleLine(uuids, s);
      k := 0;
    } else {
      var i := FirstBreak(s);
      var a, b := s[..i], s[i + 1..];
      Broken(s, i, rest);
      LineThen(a, b + "\n" + rest);
      if !Blank(a) {
        VisibleLine(uuids, a);
        k := 0;
      } else {
        TrimInvisible(a);
        assert !Blank(b) by {
          assert forall j :: 0 <= j < i ==> s[j] == a[j];
          assert forall j :: i < j < |s| ==> s[j] == b[j - i - 1];
        }
        k := LeftoverLine(uuids, b, rest);
        assert [] + NonEmptyLines(b + "\n" + rest) == NonEmptyLines(b + "\n" + rest);
      }
    }
  }

  lemma Broken(s: string, i: nat, rest: string)
    requires i < |s| && s[i] == '\n'
    ensures s + "\n" + rest == s[..i] + "\n" + (s[i + 1..] + "\n" + rest)
  {
    assert s == s[..i] + "\n" + s[i + 1..];
  }

  lemma VisibleLine(uuids: seq<string>, s: string)
    requires !Blank(s) && ',' !in s
    ensures Trim(s) != "" && ParseEntry(uuids, Trim(s)).None?
  {
    VisibleTrim(s);
    TrimLeftShorter(s);
    TrimRightVisible("", TrimLeft(s));
    assert "" + TrimLeft(s) == TrimLeft(s);
    TrimNoComma(s);
    NoCommaNoEntry(uuids, Trim(s));
  }

  /** One entry and what follows it. */
  lemma EntryThen(uuids: seq<string>, lists: seq<Procs>, gpu: nat, p: Process, rest: string)
    requires |lists| == |uuids| && AllPlainUuids(uuids) && gpu < |uuids| && p.pid != 0 && NotBoth(p.name)
    ensures AttachEntries(uuids, lists, NonEmptyLines(EntryLine(uuids[gpu], p) + "\n" + rest))
         == if Readable(p.name) then AttachEntries(uuids, Appended(lists, (gpu, Plain(p))), NonEmptyLines(rest))
             else None
  {
    var uuid, led := uuids[gpu], " " + p.name;
    var start, lines := EntryStart(p.pid, uuid, p.memMiB), NonEmptyLines(EntryLine(uuid, p) + "\n" + rest);
    LedBreak(p.name);
    StartNoBreak(uuid, p);
    if '\n' !in TrimRight(p.name) {
      NamedLine(start, led, rest);
      TrimmedEntry(p.pid, uuid, p.memMiB, p.name);
      EntryReadsBack(uuids, gpu, p);
      assert lines == [Trim(EntryLine(uuid, p))] + NonEmptyLines(rest);
      assert lines[1..] == NonEmptyLines(rest);
    } else {
      var k := BrokenEntry(uuids, start, led, rest);
      OneBadLine(uuids, lists, lines, k);
    }
  }

  lemma StartNoBreak(uuid: string, p: Process)
    requires PlainUuid(uuid)
    ensures '\n' !in EntryStart(p.pid, uuid, p.memMiB)
  {
    DecimalPlain(p.pid);
    DecimalPlain(p.memMiB);
    assert '\n' !in uuid by { assert forall i :: 0 <= i < |uuid| ==> uuid[i] != '\n'; }
    NotIn('\n', Decimal(p.pid), ",");
    NotIn('\n', " ", uuid);
    NotIn('\n', Decimal(p.pid) + ",", " " + uuid);
    NotIn('\n', Decimal(p.pid) + "," + (" " + uuid), ",");
    NotIn('\n', " ", Decimal(p.memMiB));
    NotIn('\n', Decimal(p.pid) + "," + (" " + uuid) + ",", " " + Decimal(p.memMiB));
    NotIn('\n', Decimal(p.pid) + "," + (" " + uuid) + "," + (" " + Decimal(p.memMiB)), ",");
  }

  lemma LedBreak(name: string)
    ensures '\n' in TrimRight(name) <==> '\n' in TrimRight(" " + name)
  {
    var led := " " + name;
    assert led[1..] == name;
    if Blank(name) {
      TrimRightBlankOnly(name);
      TrimRightBlankOnly(led);
    } else {
      TrimRightVisible(" ", name);
      assert '\n' !in " ";
    }
  }

  /** A name with a line break in the middle and no comma leaves a bad line. */
  lemma BrokenEntry(uuids: seq<string>, start: string, led: string, rest: string) returns (k: nat)
    requires '\n' !in start && ',' !in led && '\n' in TrimRight(led)
    ensures k < |NonEmptyLines(start + led + "\n" + rest)|
    ensures ParseEntry(uuids, NonEmptyLines(start + led + "\n" + rest)[k]).None?
  {
    TrimRightEnds(led);
    var i := FirstBreak(led);
    var a, b := led[..i], led[i + 1..];
    VisibleAfterBreak(led, i);
    Broken(led, i, rest);
    assert start + led + "\n" + rest == (start + a) + "\n" + (b + "\n" + rest) by {
      Regrouped(start, led, "\n" + rest);
      assert led + ("\n" + rest) == led + "\n" + rest;
      assert start + led + "\n" + rest == start + (led + ("\n" + rest));
      assert start + (a + "\n" + (b + "\n" + rest)) == (start + a) + "\n" + (b + "\n" + rest);
    }
    NotIn('\n', start, a);
    LineThen(start + a, b + "\n" + rest);
    var j := LeftoverLine(uuids, b, rest);
    k := |OneLine(start + a)| + j;
  }

  lemma VisibleAfterBreak(led: string, i: nat)
    requires i < |led| && led[i] == '\n' && '\n' !in led[..i] && '\n' in TrimRight(led)
    ensures !Blank(led[i + 1..])
  {
    var t := TrimRight(led);
    TrimRightEnds(led);
    var m :| 0 <= m < |t| && t[m] == '\n';
    assert led[m] == '\n';
    assert m >= i by { assert forall k :: 0 <= k < i ==> led[..i][k] == led[k]; }
    assert |t| - 1 > i;
    assert led[i + 1..][|t| - 2 - i] == t[|t| - 1];
  }

  lemma AllReadableSplit(entries: seq<Entry>)
    requires entries != []
    ensures AllReadable(entries) <==> Readable(entries[0].1.name) && AllReadable(entries[1..])
  {
    if Readable(entries[0].1.name) && AllReadable(entries[1..]) {
      forall i | 0 < i < |entries| ensures Readable(entries[i].1.name) { assert entries[i] == entries[1..][i - 1]; }
    }
  }

  lemma {:induction false} EntriesReadBack(uuids: seq<string>, lists: seq<Procs>, entries: seq<Entry>)
    requires |lists| == |uuids| && AllPlainUuids(uuids) && Listable(uuids, entries)
    requires forall i :: 0 <= i < |entries| ==> NotBoth(entries[i].1.name)
    ensures AttachEntries(uuids, lists, NonEmptyLines(Listing(uuids, entries)))
         == if AllReadable(entries) then Some(AllAppended(lists, entries)) else None
    decreases |entries|
  {
    if entries == [] {
      assert NonEmptyLines("") == [] by { assert TrimmedLines([""]) == [] + TrimmedLines([]); }
    } else {
      var (gpu, p) := entries[0];
      EntryThen(uuids, lists, gpu, p, Listing(uuids, entries[1..]));
      EntriesReadBack(uuids, Appended(lists, (gpu, Plain(p))), entries[1..]);
      AllReadableSplit(entries);
    }
  }

  // ---------- all GPUs ----------

  /** The entries of one GPU, and of the first `n`. */
  function EntriesOf(gpu: nat, procs: Procs): (r: seq<Entry>)
    ensures |r| == |procs| && forall i :: 0 <= i < |r| ==> r[i] == (gpu, procs[i])
  {
    seq(|procs|, i requires 0 <= i < |procs| => (gpu, procs[i]))
  }

  function AllEntries(devices: seq<Device>, n: nat): (r: seq<Entry>)
    requires n <= |devices|
    ensures forall i :: 0 <= i < |r| ==> r[i].0 < n
  {
    if n == 0 then [] else AllEntries(devices, n - 1) + EntriesOf(n - 1, devices[n - 1].procs)
  }

  /** They are the processes of those GPUs, ... */
  lemma {:induction false} EntryIs(devices: seq<Device>, n: nat, i: nat) returns (k: nat)
    requires n <= |devices| && i < |AllEntries(devices, n)|
    ensures var e := AllEntries(devices, n)[i];
            e.0 < n && k < |devices[e.0].procs| && e.1 == devices[e.0].procs[k]
  {
    var before := if n == 0 then [] else AllEntries(devices, n - 1);
    if i < |before| { k := EntryIs(devices, n - 1, i); } else { k := i - |before|; }
  }

  /** ... all of them. */
  lemma {:induction false} EntryFor(devices: seq<Device>, n: nat, g: nat, k: nat) returns (i: nat)
    requires g < n <= |devices| && k < |devices[g].procs|
    ensures i < |AllEntries(devices, n)| && AllEntries(devices, n)[i] == (g, devices[g].procs[k])
  {
    var before := AllEntries(devices, n - 1);
    if g == n - 1 { i := |before| + k; } else { i := EntryFor(devices, n - 1, g, k); }
  }

  function PlainAll(procs: Procs): (r: Procs)
    ensures |r| == |procs| && forall i :: 0 <= i < |r| ==> r[i] == Plain(procs[i])
  {
    seq(|procs|, i requires 0 <= i < |procs| => Plain(procs[i]))
  }

  /** The records of one GPU among some entries. */
  function Only(entries: seq<Entry>, g: nat): Procs
    decreases |entries|
  {
    if entries == [] then []
    else (if entries[0].0 == g then [Plain(entries[0].1)] else []) + Only(entries[1..], g)
  }

  lemma {:induction false} AppendedOnly(lists: seq<Procs>, entries: seq<Entry>, g: nat)
    requires g < |lists| && forall i :: 0 <= i < |entries| ==> entries[i].0 < |lists|
    ensures AllAppended(lists, entries)[g] == lists[g] + Only(entries, g)
    decreases |entries|
  {
    if entries == [] {
      assert lists[g] + [] == lists[g];
    } else {
      var first := (entries[0].0, Plain(entries[0].1));
      AppendedOnly(Appended(lists, first), entries[1..], g);
      OnlyFirst(lists, entries, g);
    }
  }

  lemma OnlyFirst(lists: seq<Procs>, entries: seq<Entry>, g: nat)
    requires g < |lists| && entries != [] && entries[0].0 < |lists|
    ensures Appended(lists, (entries[0].0, Plain(entries[0].1)))[g] + Only(entries[1..], g)
             == lists[g] + Only(entries, g)
  {
    if entries[0].0 == g {
      assert lists[g] + [Plain(entries[0].1)] + Only(entries[1..], g)
          == lists[g] + ([Plain(entries[0].1)] + Only(entries[1..], g));
    } else {
      assert [] + Only(entries[1..], g) == Only(entries[1..], g);
    }
  }

  lemma {:induction false} OnlyConcat(a: seq<Entry>, b: seq<Entry>, g: nat)
    ensures Only(a + b, g) == Only(a, g) + Only(b, g)
    decreases |a|
  {
    if a == [] {
      assert a + b == b;
    } else {
      assert (a + b)[1..] == a[1..] + b;
      OnlyConcat(a[1..], b, g);
    }
  }

  lemma {:induction false} OnlyOf(gpu: nat, procs: Procs, g: nat)
    ensures Only(EntriesOf(gpu, procs), g) == if gpu == g then PlainAll(procs) else []
    decreases |procs|
  {
    if procs != [] {
      assert EntriesOf(gpu, procs)[1..] == EntriesOf(gpu, procs[1..]);
      OnlyOf(gpu, procs[1..], g);
      assert [Plain(procs[0])] + PlainAll(procs[1..]) == PlainAll(procs);
    }
  }

  lemma {:induction false} OnlyAll(devices: seq<Device>, n: nat, g: nat)
    requires n <= |devices|
    ensures Only(AllEntries(devices, n), g) == if g < n then PlainAll(devices[g].procs) else []
  {
    if n > 0 {
      OnlyAll(devices, n - 1, g);
      OnlyConcat(AllEntries(devices, n - 1), EntriesOf(n - 1, devices[n - 1].procs), g);
      OnlyOf(n - 1, devices[n - 1].procs, g);
    }
  }

  ghost predicate Sane(devices: seq<Device>) {
    forall g :: 0 <= g < |devices| ==> Distinct(devices[g].procs) && AllValid(devices[g].procs)
  }

  ghost predicate Numbered(devices: seq<Device>) {
    forall g, k :: 0 <= g < |devices| && 0 <= k < |devices[g].procs| ==> devices[g].procs[k].pid != 0
  }

  /** No name holds both a comma and a line break. */
  ghost predicate NoForgery(devices: seq<Device>) {
    forall g, k :: 0 <= g < |devices| && 0 <= k < |devices[g].procs| ==> NotBoth(devices[g].procs[k].name)
  }

  /** The listing of all GPUs is read if every name on every GPU is readable, and
      then gives each GPU its records with trimmed names and no telemetry; with an
      unreadable name that holds no comma, or no line break, it is refused. */
  lemma ListingReadsBack(uuids: seq<string>, devices: seq<Device>)
    requires |uuids| == |devices| && AllPlainUuids(uuids) && Numbered(devices)
    ensures var read := Listed(uuids, Listing(uuids, AllEntries(devices, |devices|)));
            && (AllLegible(devices) ==>
                  read.Some? && forall g :: 0 <= g < |devices| ==> read.value[g] == Observed(devices[g], false).procs)
            && (NoForgery(devices) ==> (read.Some? <==> AllLegible(devices)))
  {
    if AllLegible(devices) { LegibleNoForgery(devices); }
    if NoForgery(devices) { ListingFor(uuids, devices, AllEntries(devices, |devices|)); }
    forall g | 0 <= g < |devices|
      ensures AllAppended(NoProcs(|uuids|), AllEntries(devices, |devices|))[g] == Observed(devices[g], false).procs
    {
      AppendedObserved(devices, g);
    }
  }

  lemma LegibleNoForgery(devices: seq<Device>)
    requires AllLegible(devices)
    ensures NoForgery(devices)
  {
    forall g, k | 0 <= g < |devices| && 0 <= k < |devices[g].procs| ensures NotBoth(devices[g].procs[k].name) {
      assert Legible(devices[g]);
    }
  }

  lemma ListingFor(uuids: seq<string>, devices: seq<Device>, entries: seq<Entry>)
    requires |uuids| == |devices| && AllPlainUuids(uuids) && Numbered(devices) && NoForgery(devices)
    requires entries == AllEntries(devices, |devices|)
    ensures Listed(uuids, Listing(uuids, entries))
         == if AllLegible(devices) then Some(AllAppended(NoProcs(|uuids|), entries)) else None
  {
    EntriesNumbered(devices);
    ReadableEverywhere(devices);
    ListedEntries(uuids, entries);
  }

  lemma AppendedObserved(devices: seq<Device>, g: nat)
    requires g < |devices|
    ensures AllAppended(NoProcs(|devices|), AllEntries(devices, |devices|))[g] == Observed(devices[g], false).procs
  {
    var entries := AllEntries(devices, |devices|);
    AppendedOnly(NoProcs(|devices|), entries, g);
    OnlyAll(devices, |devices|, g);
    PlainObserved(devices[g]);
    assert [] + PlainAll(devices[g].procs) == PlainAll(devices[g].procs);
  }

  lemma PlainObserved(d: Device)
    ensures PlainAll(d.procs) == Observed(d, false).procs
  {
  }

  ghost predicate AllReadable(entries: seq<Entry>) {
    forall i :: 0 <= i < |entries| ==> Readable(entries[i].1.name)
  }

  lemma ListedEntries(uuids: seq<string>, entries: seq<Entry>)
    requires AllPlainUuids(uuids) && Listable(uuids, entries)
    requires forall i :: 0 <= i < |entries| ==> NotBoth(entries[i].1.name)
    ensures Listed(uuids, Listing(uuids, entries))
         == if AllReadable(entries) then Some(AllAppended(NoProcs(|uuids|), entries)) else None
  {
    EntriesReadBack(uuids, NoProcs(|uuids|), entries);
  }

  lemma EntriesNumbered(devices: seq<Device>)
    requires Numbered(devices) && NoForgery(devices)
    ensures var entries := AllEntries(devices, |devices|);
            forall i :: 0 <= i < |entries| ==> entries[i].1.pid != 0 && NotBoth(entries[i].1.name)
  {
    var entries := AllEntries(devices, |devices|);
    forall i | 0 <= i < |entries| ensures entries[i].1.pid != 0 && NotBoth(entries[i].1.name) {
      var g := entries[i].0;
      var k := EntryIs(devices, |devices|, i);
      assert devices[g].procs[k].pid != 0 && NotBoth(devices[g].procs[k].name);
    }
  }

  lemma ReadableEverywhere(devices: seq<Device>)
    ensures var entries := AllEntries(devices, |devices|);
            AllLegible(devices) <==> AllReadable(entries)
  {
    var entries := AllEntries(devices, |devices|);
    if AllLegible(devices) {
      forall i | 0 <= i < |entries| ensures Readable(entries[i].1.name) {
        var k := EntryIs(devices, |devices|, i);
        assert Legible(devices[entries[i].0]);
      }
    } else {
      var g :| 0 <= g < |devices| && !Legible(devices[g]);
      var k :| 0 <= k < |devices[g].procs| && !Readable(devices[g].procs[k].name);
      var i := EntryFor(devices, |devices|, g, k);
    }
  }

  // ---------- telemetry ----------

  function SampleOf(e: Entry): Sample {
    Sample(e.0, e.1.pid, "C", e.1.sm, e.1.mem, e.1.enc, e.1.dec, e.1.name)
  }

  function Samples(entries: seq<Entry>): (r: seq<Sample>)
    ensures |r| == |entries| && forall i :: 0 <= i < |r| ==> r[i] == SampleOf(entries[i])
  {
    seq(|entries|, i requires 0 <= i < |entries| => SampleOf(entries[i]))
  }

  lemma {:induction false} EntriesApart(devices: seq<Device>, n: nat)
    requires n <= |devices| && Sane(devices)
    ensures OnePerProcess(Samples(AllEntries(devices, n)))
  {
    if n > 0 {
      EntriesApart(devices, n - 1);
      var before, here := AllEntries(devices, n - 1), EntriesOf(n - 1, devices[n - 1].procs);
      assert Samples(AllEntries(devices, n)) == Samples(before) + Samples(here);
      assert Distinct(devices[n - 1].procs);
      assert OnePerProcess(Samples(here));
    }
  }

  /** The one model of the observer: reading the listing, and over it the telemetry
      table, whatever order its rows are printed in, gives each GPU exactly the
      records of `Observed`; with the telemetry query failing, those without it. */
  lemma ObserverAgrees(uuids: seq<string>, devices: seq<Device>, ordered: seq<Sample>, g: nat)
    requires |uuids| == |devices| <= MAX_INT && AllPlainUuids(uuids) && Sane(devices)
    requires AllLegible(devices) && g < |devices|
    requires multiset(ordered) == multiset(Samples(AllEntries(devices, |devices|)))
    ensures var read := Listed(uuids, Listing(uuids, AllEntries(devices, |devices|)));
            && read.Some? && read.value[g] == Observed(devices[g], false).procs
            && Attached(Shown(g, read.value[g]), Rendered(ordered)).procs == Observed(devices[g], true).procs
  {
    forall h, k | 0 <= h < |devices| && 0 <= k < |devices[h].procs| ensures devices[h].procs[k].pid != 0 {
      assert AllValid(devices[h].procs) && ValidProcess(devices[h].procs[k]);
    }
    ListingReadsBack(uuids, devices);
    TelemetryReadsBack(devices, ordered, g);
  }

  lemma TelemetryReadsBack(devices: seq<Device>, ordered: seq<Sample>, g: nat)
    requires |devices| <= MAX_INT && Sane(devices) && AllLegible(devices) && g < |devices|
    requires multiset(ordered) == multiset(Samples(AllEntries(devices, |devices|)))
    ensures Attached(Shown(g, Observed(devices[g], false).procs), Rendered(ordered)).procs
         == Observed(devices[g], true).procs
  {
    var d, want := Shown(g, Observed(devices[g], false).procs), Observed(devices[g], true).procs;
    var got := Attached(d, Rendered(ordered)).procs;
    if want == [] {
      AttachNone(d, NonEmptyLines(Rendered(ordered)));
    } else {
      TelemetryReads(devices, ordered, g, 0);
      forall k | 0 <= k < |want| ensures got[k] == want[k] { TelemetryReads(devices, ordered, g, k); }
      SameSeq(got, want);
    }
  }

  lemma SameSeq(a: Procs, b: Procs)
    requires |a| == |b| && forall k :: 0 <= k < |b| ==> a[k] == b[k]
    ensures a == b
  {
  }

  lemma TelemetryReads(devices: seq<Device>, ordered: seq<Sample>, g: nat, k: nat)
    requires |devices| <= MAX_INT && Sane(devices) && AllLegible(devices) && g < |devices| && k < |devices[g].procs|
    requires multiset(ordered) == multiset(Samples(AllEntries(devices, |devices|)))
    ensures var q := Attached(Shown(g, Observed(devices[g], false).procs), Rendered(ordered));
            |q.procs| == |devices[g].procs| && q.procs[k] == Observed(devices[g], true).procs[k]
  {
    var p, d := devices[g].procs[k], Shown(g, Observed(devices[g], false).procs);
    var samples := Samples(AllEntries(devices, |devices|));
    EntriesApart(devices, |devices|);
    forall i | 0 <= i < |samples| ensures ValidSample(samples[i]) { SampleValid(devices, i); }
    SampleFor(devices, g, k);
    RoundTrip(d, samples, ordered, k);
    assert Observed(devices[g], true).procs[k] == Canon(p) by {
      assert Distinct(devices[g].procs);
      ViewAt(devices[g].procs, true);
    }
    var s := SampleOf((g, p));
    if !Invisible(p.name) {
      assert Attached(d, Rendered(ordered)).procs[k] == WithTelemetry(p, p);
    } else {
      NoSample(devices, g, k, d);
    }
  }

  /** A process with an invisible name has no row that is read. */
  lemma NoSample(devices: seq<Device>, g: nat, k: nat, d: Shown)
    requires Sane(devices) && g < |devices| && k < |devices[g].procs| && Invisible(devices[g].procs[k].name)
    requires d == Shown(g, Observed(devices[g], false).procs)
    ensures forall t :: t in Samples(AllEntries(devices, |devices|)) ==> !Matching(t, d, d.procs[k])
  {
    var samples := Samples(AllEntries(devices, |devices|));
    forall t | t in samples ensures !Matching(t, d, d.procs[k]) {
      var i :| 0 <= i < |samples| && samples[i] == t;
      if t.gpu == g && t.pid == devices[g].procs[k].pid { OnlySample(devices, g, k, i); }
    }
  }

  lemma {:induction false} AttachNone(d: Shown, lines: seq<string>)
    requires d.procs == []
    ensures AttachLines(d, lines).procs == []
    decreases |lines|
  {
    if lines != [] { AttachNone(AttachLine(d, lines[0]), lines[1..]); }
  }

  lemma SampleValid(devices: seq<Device>, i: nat)
    requires Sane(devices) && AllLegible(devices) && |devices| <= MAX_INT && i < |AllEntries(devices, |devices|)|
    ensures ValidSample(SampleOf(AllEntries(devices, |devices|)[i]))
  {
    var e := AllEntries(devices, |devices|)[i];
    var k := EntryIs(devices, |devices|, i);
    assert Legible(devices[e.0]) && Distinct(devices[e.0].procs) && ValidProcess(devices[e.0].procs[k]);
  }

  /** A process's row is its own sample, ... */
  lemma SampleFor(devices: seq<Device>, g: nat, k: nat)
    requires Sane(devices) && g < |devices| && k < |devices[g].procs|
    ensures var p, d := devices[g].procs[k], Shown(g, Observed(devices[g], false).procs);
            && d.procs[k] == Plain(p) && SampleOf((g, p)) in Samples(AllEntries(devices, |devices|))
            && (Matching(SampleOf((g, p)), d, d.procs[k]) <==> !Invisible(p.name)) && (Shows(p) <==> !Invisible(p.name))
  {
    var procs, entries := devices[g].procs, AllEntries(devices, |devices|);
    assert Distinct(procs) && ValidProcess(procs[k]);
    ViewAt(procs, false);
    var i := EntryFor(devices, |devices|, g, k);
    assert Samples(entries)[i] == SampleOf((g, procs[k]));
  }

  /** ... and no other. */
  lemma OnlySample(devices: seq<Device>, g: nat, k: nat, i: nat)
    requires Sane(devices) && g < |devices| && k < |devices[g].procs| && i < |AllEntries(devices, |devices|)|
    requires AllEntries(devices, |devices|)[i].0 == g
    requires AllEntries(devices, |devices|)[i].1.pid == devices[g].procs[k].pid
    ensures AllEntries(devices, |devices|)[i] == (g, devices[g].procs[k])
  {
    var m := EntryIs(devices, |devices|, i);
    assert Distinct(devices[g].procs) && devices[g].procs[m].pid == devices[g].procs[k].pid;
  }
}
