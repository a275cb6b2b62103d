/** The three-way merge of process lists (`rebaseProcesses`). */
module Rebase {
  import opened Accounting

  type Procs = seq<Process>

  // ---------- rewriting a list record by record ----------

  /** Drops a record, or puts one with the same PID in its place. */
  ghost predicate Local(f: Process -> Procs) {
    forall p :: |f(p)| <= 1 && (f(p) != [] ==> f(p)[0].pid == p.pid)
  }

  function Rewrite(f: Process -> Procs, c: Procs): Procs {
    if c == [] then [] else Rewrite(f, c[..|c| - 1]) + f(c[|c| - 1])
  }

  ghost function Record(r: Procs): Option<Process> {
    if r == [] then None else Some(r[0])
  }

  lemma {:induction false} RewriteConcat(f: Process -> Procs, a: Procs, b: Procs)
    ensures Rewrite(f, a + b) == Rewrite(f, a) + Rewrite(f, b)
  {
    if b == [] {
      assert a + b == a;
    } else {
      var n := |b| - 1;
      assert (a + b)[..|a| + n] == a + b[..n];
      RewriteConcat(f, a, b[..n]);
    }
  }

  lemma {:induction false} RewriteSame(f: Process -> Procs, g: Process -> Procs, c: Procs)
    requires forall i :: 0 <= i < |c| ==> f(c[i]) == g(c[i])
    ensures Rewrite(f, c) == Rewrite(g, c)
  {
    if c != [] {
      RewriteSame(f, g, c[..|c| - 1]);
    }
  }

  lemma {:induction false} RewriteNothing(f: Process -> Procs, c: Procs)
    requires forall i :: 0 <= i < |c| ==> f(c[i]) == [c[i]]
    ensures Rewrite(f, c) == c
  {
    if c != [] {
      RewriteNothing(f, c[..|c| - 1]);
    }
  }

  lemma {:induction false} RewriteFind(f: Process -> Procs, c: Procs, pid: u32)
    requires Local(f) && Distinct(c)
    ensures Find(Rewrite(f, c), pid) == if Find(c, pid).None? then None else Record(f(Find(c, pid).value))
  {
    if c != [] {
      var n := |c| - 1;
      var slot := f(c[n]);
      RewriteFind(f, c[..n], pid);
      FindConcat(Rewrite(f, c[..n]), slot, pid);
      assert c == c[..n] + [c[n]];
      FindConcat(c[..n], [c[n]], pid);
      assert slot == [] || slot == [slot[0]];
    }
  }

  lemma {:induction false} RewriteDistinct(f: Process -> Procs, c: Procs)
    requires Local(f) && Distinct(c)
    ensures Distinct(Rewrite(f, c))
  {
    if c != [] {
      var n := |c| - 1;
      RewriteDistinct(f, c[..n]);
      RewriteFind(f, c[..n], c[n].pid);
      assert Find(c[..n], c[n].pid).None?;
    }
  }

  lemma Around<T>(left: seq<T>, x: T, right: seq<T>)
    ensures var s := left + [x] + right; s[|left|] == x && s[..|left|] == left && s[|left| + 1..] == right
  {
  }

  lemma RewriteSplit(f: Process -> Procs, c: Procs, k: nat)
    requires k < |c|
    ensures Rewrite(f, c) == Rewrite(f, c[..k]) + f(c[k]) + Rewrite(f, c[k + 1..])
  {
    assert c == c[..k + 1] + c[k + 1..] && c[..k + 1][..k] == c[..k];
    RewriteConcat(f, c[..k + 1], c[k + 1..]);
  }

  /** Two rewrites that differ on one PID only differ at that PID's position. */
  lemma RewriteAt(f: Process -> Procs, g: Process -> Procs, c: Procs, k: nat, x: Process)
    requires Local(f) && Distinct(c) && k < |c| && f(c[k]) == [x]
    requires forall i :: 0 <= i < |c| && i != k ==> f(c[i]) == g(c[i])
    ensures var e, at := Rewrite(f, c), IndexOf(Rewrite(f, c), c[k].pid);
            && at >= 0 && e[at] == x
            && Rewrite(g, c) == e[..at] + g(c[k]) + e[at + 1..]
  {
    RewriteSplit(f, c, k);
    RewriteSplit(g, c, k);
    RewriteSame(f, g, c[..k]);
    RewriteSame(f, g, c[k + 1..]);
    Around(Rewrite(f, c[..k]), x, Rewrite(f, c[k + 1..]));
    RewriteDistinct(f, c);
    FindAt(Rewrite(f, c), |Rewrite(f, c[..k])|);
  }

  lemma RewriteDrop(f: Process -> Procs, g: Process -> Procs, c: Procs, k: nat)
    requires Local(f) && Distinct(c) && k < |c| && f(c[k]) == [c[k]] && g(c[k]) == []
    requires forall i :: 0 <= i < |c| && i != k ==> f(c[i]) == g(c[i])
    ensures var e, at := Rewrite(f, c), IndexOf(Rewrite(f, c), c[k].pid);
            at >= 0 && Rewrite(g, c) == e[..at] + e[at + 1..]
  {
    RewriteAt(f, g, c, k, c[k]);
    var e, at := Rewrite(f, c), IndexOf(Rewrite(f, c), c[k].pid);
    assert e[..at] + [] == e[..at];
  }

  lemma RewritePut(f: Process -> Procs, g: Process -> Procs, c: Procs, k: nat, x: Process)
    requires Local(f) && Distinct(c) && k < |c| && f(c[k]) == [c[k]] && g(c[k]) == [x]
    requires forall i :: 0 <= i < |c| && i != k ==> f(c[i]) == g(c[i])
    ensures var e, at := Rewrite(f, c), IndexOf(Rewrite(f, c), c[k].pid);
            at >= 0 && Rewrite(g, c) == e[at := x]
  {
    RewriteAt(f, g, c, k, c[k]);
    Splice(Rewrite(f, c), IndexOf(Rewrite(f, c), c[k].pid), x);
  }

  lemma Splice<T>(s: seq<T>, i: nat, x: T)
    requires i < |s|
    ensures s[i := x] == s[..i] + [x] + s[i + 1..]
  {
  }

  // ---------- what the merge means ----------

  /** The caller's edit, read off its snapshot and its desired list. */
  ghost predicate Touched(before: Procs, desired: Procs, pid: u32) {
    Find(before, pid) != Find(desired, pid)
  }

  /** Nobody else changed a PID that the caller edits. */
  ghost predicate Compatible(before: Procs, desired: Procs, current: Procs) {
    forall pid: u32 :: Touched(before, desired, pid) ==> Find(current, pid) == Find(before, pid)
  }

  ghost predicate AllDistinct(before: Procs, desired: Procs, current: Procs) {
    Distinct(before) && Distinct(desired) && Distinct(current)
  }

  // ---------- the merged list, in order ----------

  /** What becomes of one current record once the snapshot entries `gone` have
      been considered for removal and the entries `wanted` for overwriting. */
  function Slot(before: Procs, desired: Procs, gone: Procs, wanted: Procs, p: Process): (r: Procs)
    ensures |r| <= 1 && (r != [] ==> r[0].pid == p.pid)
  {
    var b, w := Find(before, p.pid), Find(wanted, p.pid);
    if Find(gone, p.pid).Some? && Find(desired, p.pid).None? then []
    else if w.Some? && b.Some? && w != b then [w.value]
    else [p]
  }

  function Slots(before: Procs, desired: Procs, gone: Procs, wanted: Procs): (f: Process -> Procs)
    ensures Local(f)
  {
    p => Slot(before, desired, gone, wanted, p)
  }

  function Edited(before: Procs, desired: Procs, gone: Procs, wanted: Procs, c: Procs): Procs {
    Rewrite(Slots(before, desired, gone, wanted), c)
  }

  /** Entries of `desired` for PIDs the snapshot does not have. */
  function Added(before: Procs, desired: Procs): Procs {
    if desired == [] then []
    else
      var n := |desired| - 1;
      Added(before, desired[..n])
      + if Find(before, desired[n].pid).None? then [desired[n]] else []
  }

  /** Current order with the edits in place, then the additions in desired order. */
  function Merged(before: Procs, desired: Procs, current: Procs): Procs {
    Edited(before, desired, before, desired, current) + Added(before, desired)
  }

  /** The outcome of a merge: a list, or a refusal. */
  ghost function Rebased(before: Procs, desired: Procs, current: Procs): Option<Procs> {
    if AllDistinct(before, desired, current) && Compatible(before, desired, current)
    then Some(Merged(before, desired, current))
    else None
  }

  // ---------- facts about the pieces ----------

  lemma SlotsAfterRemoval(before: Procs, desired: Procs, gone: Procs, x: Process)
    ensures var f, g := Slots(before, desired, gone, []), Slots(before, desired, gone + [x], []);
            forall p: Process :: g(p) == if p.pid == x.pid && Find(desired, x.pid).None? then [] else f(p)
  {
    forall p: Process
      ensures Slot(before, desired, gone + [x], [], p)
           == if p.pid == x.pid && Find(desired, x.pid).None? then [] else Slot(before, desired, gone, [], p)
    {
      FindConcat(gone, [x], p.pid);
    }
  }

  lemma SlotsAfterOverwrite(before: Procs, desired: Procs, wanted: Procs, x: Process)
    requires Find(wanted, x.pid).None? && Find(desired, x.pid).Some?
    ensures var f, g := Slots(before, desired, before, wanted), Slots(before, desired, before, wanted + [x]);
            var b := Find(before, x.pid);
            forall p: Process :: g(p) == if p.pid == x.pid && b.Some? && b != Some(x) then [x] else f(p)
  {
    var b := Find(before, x.pid);
    forall p: Process
      ensures Slot(before, desired, before, wanted + [x], p)
           == if p.pid == x.pid && b.Some? && b != Some(x) then [x] else Slot(before, desired, before, wanted, p)
    {
      FindConcat(wanted, [x], p.pid);
    }
  }

  lemma RemoveOne(before: Procs, desired: Procs, gone: Procs, x: Process, c: Procs, k: nat)
    requires Distinct(c) && Find(gone, x.pid).None? && Find(desired, x.pid).None?
    requires k < |c| && c[k].pid == x.pid
    ensures var e, at := Edited(before, desired, gone, [], c), IndexOf(Edited(before, desired, gone, [], c), x.pid);
            at >= 0 && Edited(before, desired, gone + [x], [], c) == e[..at] + e[at + 1..]
  {
    SlotsAfterRemoval(before, desired, gone, x);
    RewriteDrop(Slots(before, desired, gone, []), Slots(before, desired, gone + [x], []), c, k);
  }

  lemma RemoveNone(before: Procs, desired: Procs, gone: Procs, x: Process, c: Procs)
    requires Find(desired, x.pid).Some?
    ensures Edited(before, desired, gone + [x], [], c) == Edited(before, desired, gone, [], c)
  {
    SlotsAfterRemoval(before, desired, gone, x);
    RewriteSame(Slots(before, desired, gone + [x], []), Slots(before, desired, gone, []), c);
  }

  /** The state of the first loop, and what one iteration does to it. */
  lemma RemoveStep(before: Procs, desired: Procs, i: nat, c: Procs)
    requires Distinct(c) && Distinct(before) && i < |before|
    ensures var x, e, e' := before[i], Edited(before, desired, before[..i], [], c),
             Edited(before, desired, before[..i + 1], [], c);
            && Find(before, x.pid) == Some(x)
            && Find(e, x.pid) == Find(c, x.pid)
            && (Find(desired, x.pid).Some? ==> e' == e)
            && (Find(desired, x.pid).None? && IndexOf(c, x.pid) >= 0 ==>
                  var at := IndexOf(e, x.pid);
                  at >= 0 && e' == e[..at] + e[at + 1..])
  {
    FindAt(before, i);
    assert before[..i + 1] == before[..i] + [before[i]];
    var x, gone := before[i], before[..i];
    assert forall j :: 0 <= j < i ==> gone[j] == before[j];
    RewriteFind(Slots(before, desired, gone, []), c, x.pid);
    if Find(desired, x.pid).Some? {
      RemoveNone(before, desired, gone, x, c);
    } else if IndexOf(c, x.pid) >= 0 {
      RemoveOne(before, desired, gone, x, c, IndexOf(c, x.pid));
    }
  }

  lemma OverwriteOne(before: Procs, desired: Procs, wanted: Procs, x: Process, c: Procs, k: nat)
    requires Distinct(c) && Find(wanted, x.pid).None? && Find(desired, x.pid).Some?
    requires Find(before, x.pid).Some? && Find(before, x.pid) != Some(x) && k < |c| && c[k].pid == x.pid
    ensures var e, at := Edited(before, desired, before, wanted, c),
             IndexOf(Edited(before, desired, before, wanted, c), x.pid);
            at >= 0 && Edited(before, desired, before, wanted + [x], c) == e[at := x]
  {
    SlotsAfterOverwrite(before, desired, wanted, x);
    RewritePut(Slots(before, desired, before, wanted), Slots(before, desired, before, wanted + [x]), c, k, x);
  }

  lemma OverwriteNone(before: Procs, desired: Procs, wanted: Procs, x: Process, c: Procs)
    requires Find(wanted, x.pid).None? && Find(desired, x.pid).Some?
    requires Find(before, x.pid).None? || Find(before, x.pid) == Some(x)
    ensures Edited(before, desired, before, wanted + [x], c) == Edited(before, desired, before, wanted, c)
  {
    SlotsAfterOverwrite(before, desired, wanted, x);
    RewriteSame(Slots(before, desired, before, wanted + [x]), Slots(before, desired, before, wanted), c);
  }

  /** The second loop passes over an entry that is new or unchanged, ... */
  lemma OverwriteSkip(before: Procs, desired: Procs, i: nat, c: Procs)
    requires Distinct(desired) && i < |desired|
    requires Find(before, desired[i].pid).None? || Find(before, desired[i].pid) == Some(desired[i])
    ensures Edited(before, desired, before, desired[..i + 1], c) == Edited(before, desired, before, desired[..i], c)
    ensures ChangeFits(before, c, desired[i])
  {
    FindAt(desired, i);
    assert desired[..i + 1] == desired[..i] + [desired[i]];
    assert forall j :: 0 <= j < i ==> desired[..i][j] == desired[j];
    OverwriteNone(before, desired, desired[..i], desired[i], c);
  }

  /** ... and overwrites a changed one where it still stands. */
  lemma OverwriteHit(before: Procs, desired: Procs, i: nat, c: Procs, previous: Process)
    requires Distinct(c) && Distinct(desired) && i < |desired|
    requires Find(before, desired[i].pid) == Some(previous) && previous != desired[i]
    ensures var e, pid := Edited(before, desired, before, desired[..i], c), desired[i].pid;
            && (Find(e, pid) == Some(previous) <==> ChangeFits(before, c, desired[i]))
            && (ChangeFits(before, c, desired[i]) ==>
                  && IndexOf(e, pid) >= 0
                  && Edited(before, desired, before, desired[..i + 1], c) == e[IndexOf(e, pid) := desired[i]])
  {
    FindAt(desired, i);
    var x, wanted := desired[i], desired[..i];
    assert desired[..i + 1] == wanted + [x];
    assert forall j :: 0 <= j < i ==> wanted[j] == desired[j];
    RewriteFind(Slots(before, desired, before, wanted), c, x.pid);
    if ChangeFits(before, c, x) { OverwriteOne(before, desired, wanted, x, c, IndexOf(c, x.pid)); }
  }

  /** The state of the third loop, and what one iteration does to it. */
  lemma AddStep(before: Procs, desired: Procs, i: nat, c: Procs)
    requires Distinct(c) && Distinct(desired) && i < |desired|
    ensures var x, e := desired[i], Edited(before, desired, before, desired, c);
            && Find(desired, x.pid) == Some(x)
            && (Find(before, x.pid).Some? ==> Added(before, desired[..i + 1]) == Added(before, desired[..i]))
            && (Find(before, x.pid).None? ==>
                  && Added(before, desired[..i + 1]) == Added(before, desired[..i]) + [x]
                  && Find(e + Added(before, desired[..i]), x.pid) == Find(c, x.pid))
  {
    var x := desired[i];
    FindAt(desired, i);
    assert desired[..i + 1][..i] == desired[..i];
    assert Find(desired[..i], x.pid).None?;
    RewriteFind(Slots(before, desired, before, desired), c, x.pid);
    AddedFind(before, desired[..i], x.pid);
    FindConcat(Edited(before, desired, before, desired, c), Added(before, desired[..i]), x.pid);
  }

  lemma {:induction false} AddedFind(before: Procs, desired: Procs, pid: u32)
    ensures Find(Added(before, desired), pid) == if Find(before, pid).None? then Find(desired, pid) else None
  {
    if desired != [] {
      var n := |desired| - 1;
      var last := if Find(before, desired[n].pid).None? then [desired[n]] else [];
      AddedFind(before, desired[..n], pid);
      assert desired == desired[..n] + [desired[n]];
      FindConcat(desired[..n], [desired[n]], pid);
      FindConcat(Added(before, desired[..n]), last, pid);
    }
  }

  lemma {:induction false} AddedDistinct(before: Procs, desired: Procs)
    requires Distinct(desired)
    ensures Distinct(Added(before, desired))
  {
    if desired != [] {
      var n := |desired| - 1;
      AddedDistinct(before, desired[..n]);
      AddedFind(before, desired[..n], desired[n].pid);
      assert Find(desired[..n], desired[n].pid).None?;
    }
  }

  // ---------- the order of the merged list ----------

  lemma {:induction false} AddedConcat(before: Procs, a: Procs, b: Procs)
    ensures Added(before, a + b) == Added(before, a) + Added(before, b)
  {
    if b == [] {
      assert a + b == a;
    } else {
      var n, all := |b| - 1, a + b;
      var last := if Find(before, b[n].pid).None? then [b[n]] else [];
      assert all[..|all| - 1] == a + b[..n] && all[|all| - 1] == b[n];
      AddedConcat(before, a, b[..n]);
      assert Added(before, all) == Added(before, a + b[..n]) + last;
      assert Added(before, b) == Added(before, b[..n]) + last;
    }
  }

  lemma FirstBefore(a: Procs, b: Procs, p: u32, q: u32)
    requires Find(a, p).Some? && Find(a, q).None? && Find(b, q).Some?
    ensures 0 <= IndexOf(a + b, p) < |a| <= IndexOf(a + b, q)
  {
    var i, j := IndexOf(a, p), IndexOf(b, q);
    assert (a + b)[i] == a[i] && (a + b)[|a| + j] == b[j];
    assert forall k :: 0 <= k < |a| ==> (a + b)[k] == a[k];
  }

  /** Additions come in the order in which the caller lists them. */
  lemma AddedInOrder(before: Procs, desired: Procs, i: nat, j: nat)
    requires Distinct(desired) && i < j < |desired|
    requires Find(before, desired[i].pid).None? && Find(before, desired[j].pid).None?
    ensures 0 <= IndexOf(Added(before, desired), desired[i].pid) < IndexOf(Added(before, desired), desired[j].pid)
  {
    var a, b := desired[..j], desired[j..];
    assert desired == a + b && a[i] == desired[i] && b[0] == desired[j];
    AddedConcat(before, a, b);
    AddedFind(before, a, desired[i].pid);
    AddedFind(before, a, desired[j].pid);
    AddedFind(before, b, desired[j].pid);
    FirstBefore(Added(before, a), Added(before, b), desired[i].pid, desired[j].pid);
  }

  /** The caller does not take this PID out. */
  ghost predicate Stays(before: Procs, desired: Procs, pid: u32) {
    Find(before, pid).None? || Find(desired, pid).Some?
  }

  /** Current records that stay keep their order, and ... */
  lemma EditedInOrder(before: Procs, desired: Procs, current: Procs, i: nat, j: nat)
    requires Distinct(current) && i < j < |current|
    requires Stays(before, desired, current[i].pid) && Stays(before, desired, current[j].pid)
    ensures var e := Edited(before, desired, before, desired, current);
            0 <= IndexOf(e, current[i].pid) < IndexOf(e, current[j].pid)
  {
    var f, a, b := Slots(before, desired, before, desired), current[..j], current[j..];
    assert current == a + b && a[i] == current[i] && b[0] == current[j];
    RewriteConcat(f, a, b);
    StaysIn(before, desired, a, i);
    StaysIn(before, desired, b, 0);
    assert Find(a, current[j].pid).None?;
    RewriteFind(f, a, current[j].pid);
    FirstBefore(Rewrite(f, a), Rewrite(f, b), current[i].pid, current[j].pid);
  }

  lemma StaysIn(before: Procs, desired: Procs, c: Procs, i: nat)
    requires Distinct(c) && i < |c| && Stays(before, desired, c[i].pid)
    ensures Find(Edited(before, desired, before, desired, c), c[i].pid).Some?
  {
    FindAt(c, i);
    RewriteFind(Slots(before, desired, before, desired), c, c[i].pid);
  }

  /** ... additions come after them. */
  lemma AddedLast(before: Procs, desired: Procs, current: Procs, p: u32, q: u32)
    requires AllDistinct(before, desired, current) && Compatible(before, desired, current)
    requires Find(current, p).Some? && Stays(before, desired, p)
    requires Find(before, q).None? && Find(desired, q).Some?
    ensures 0 <= IndexOf(Merged(before, desired, current), p) < IndexOf(Merged(before, desired, current), q)
  {
    var f := Slots(before, desired, before, desired);
    RewriteFind(f, current, p);
    RewriteFind(f, current, q);
    AddedFind(before, desired, q);
    assert Touched(before, desired, q);
    FirstBefore(Rewrite(f, current), Added(before, desired), p, q);
  }

  // ---------- the main result about the merge ----------

  /** The merged list is the current one overlaid with the caller's edit: on an
      edited PID it holds what the caller asked for, on every other PID what the
      current list holds, and no PID twice. */
  lemma MergeIsThreeWay(before: Procs, desired: Procs, current: Procs)
    requires AllDistinct(before, desired, current) && Compatible(before, desired, current)
    ensures Distinct(Merged(before, desired, current))
    ensures forall pid: u32 :: Find(Merged(before, desired, current), pid)
              == if Touched(before, desired, pid) then Find(desired, pid) else Find(current, pid)
  {
    var e, a := Edited(before, desired, before, desired, current), Added(before, desired);
    RewriteDistinct(Slots(before, desired, before, desired), current);
    AddedDistinct(before, desired);
    forall pid: u32 ensures Find(e + a, pid)
              == if Touched(before, desired, pid) then Find(desired, pid) else Find(current, pid)
    {
      assert Touched(before, desired, pid) ==> Find(current, pid) == Find(before, pid);
      RewriteFind(Slots(before, desired, before, desired), current, pid);
      AddedFind(before, desired, pid);
      FindConcat(e, a, pid);
    }
    forall i, j | 0 <= i < |e| && 0 <= j < |a| ensures e[i].pid != a[j].pid {
      var pid := a[j].pid;
      assert Find(a, pid).Some?;
      AddedFind(before, desired, pid);
      assert Touched(before, desired, pid);
      RewriteFind(Slots(before, desired, before, desired), current, pid);
    }
  }

  // ---------- the code ----------

  method ProcessIndex(processes: Procs, pid: u32) returns (index: int)
    ensures index == IndexOf(processes, pid)
  {
    index := 0;
    while index < |processes|
      invariant 0 <= index <= |processes|
      invariant forall j :: 0 <= j < index ==> processes[j].pid != pid
    {
      if processes[index].pid == pid {
        return;
      }
      index := index + 1;
    }
    index := -1;
  }

  method ProcessesByPid(processes: Procs) returns (r: Result<map<u32, Process>>)
    ensures r.Err? ==> r.error.DuplicatePid?
    ensures r.Ok? <==> Distinct(processes)
    ensures r.Ok? ==> forall pid: u32 :: Find(processes, pid) == if pid in r.value then Some(r.value[pid]) else None
  {
    var out: map<u32, Process> := map[];
    for i := 0 to |processes|
      invariant Distinct(processes[..i])
      invariant forall pid: u32 :: Find(processes[..i], pid) == if pid in out then Some(out[pid]) else None
    {
      var process := processes[i];
      assert processes[..i + 1] == processes[..i] + [process];
      if process.pid in out {
        assert Find(processes[..i], process.pid).Some?;
        var j :| 0 <= j < i && processes[..i][j].pid == process.pid;
        assert processes[j].pid == processes[i].pid;
        return Err(DuplicatePid(process.pid));
      }
      assert Find(processes[..i], process.pid).None?;
      forall pid: u32 ensures Find(processes[..i + 1], pid) ==
          if pid == process.pid then Some(process) else Find(processes[..i], pid)
      {
        FindConcat(processes[..i], [process], pid);
      }
      out := out[process.pid := process];
    }
    assert processes[..|processes|] == processes;
    return Ok(out);
  }

  /** The check each loop makes on one of its entries, ... */
  ghost predicate RemovalFits(desired: Procs, current: Procs, x: Process) {
    Find(desired, x.pid).None? ==> Find(current, x.pid) == Some(x)
  }

  ghost predicate ChangeFits(before: Procs, current: Procs, x: Process) {
    Find(before, x.pid).Some? && Find(before, x.pid) != Some(x) ==> Find(current, x.pid) == Find(before, x.pid)
  }

  ghost predicate AdditionFits(before: Procs, current: Procs, x: Process) {
    Find(before, x.pid).None? ==> Find(current, x.pid).None?
  }

  /** ... and on the first `n` of them. */
  ghost predicate RemovalsFit(before: Procs, desired: Procs, current: Procs, n: nat) {
    forall j :: 0 <= j < n <= |before| ==> RemovalFits(desired, current, before[j])
  }

  ghost predicate ChangesFit(before: Procs, desired: Procs, current: Procs, n: nat) {
    forall j :: 0 <= j < n <= |desired| ==> ChangeFits(before, current, desired[j])
  }

  ghost predicate AdditionsFit(before: Procs, desired: Procs, current: Procs, n: nat) {
    forall j :: 0 <= j < n <= |desired| ==> AdditionFits(before, current, desired[j])
  }

  /** Where `previous` still stands unchanged in `result`. */
  method Unchanged(result: Procs, previous: Process) returns (r: Result<nat>)
    ensures r.Ok? <==> Find(result, previous.pid) == Some(previous)
    ensures r.Ok? ==> r.value == IndexOf(result, previous.pid)
    ensures r.Err? ==> r.error.ChangedConcurrently?
  {
    var index := ProcessIndex(result, previous.pid);
    if index < 0 {
      return Err(ChangedConcurrently(previous.pid));
    }
    if result[index] != previous {
      return Err(ChangedConcurrently(previous.pid));
    }
    return Ok(index);
  }

  /** First loop: takes out the PIDs the caller removed. */
  method DropRemoved(before: Procs, desired: Procs, current: Procs, desiredByPid: map<u32, Process>)
    returns (r: Result<Procs>)
    requires AllDistinct(before, desired, current)
    requires forall pid: u32 :: pid in desiredByPid <==> Find(desired, pid).Some?
    ensures r.Err? ==> r.error.ChangedConcurrently?
    ensures r.Ok? <==> RemovalsFit(before, desired, current, |before|)
    ensures r.Ok? ==> r.value == Edited(before, desired, before, [], current)
  {
    var result := current;
    RewriteNothing(Slots(before, desired, [], []), current);
    for i := 0 to |before|
      invariant result == Edited(before, desired, before[..i], [], current)
      invariant RemovalsFit(before, desired, current, i)
    {
      var previous := before[i];
      RemoveStep(before, desired, i, current);
      if previous.pid in desiredByPid {
        continue;
      }
      var at := Unchanged(result, previous);
      assert at.Ok? <==> RemovalFits(desired, current, before[i]);
      if at.Err? { return Err(at.error); }
      result := result[..at.value] + result[at.value + 1..];
    }
    assert before[..|before|] == before;
    return Ok(result);
  }

  /** Second loop: overwrites the PIDs the caller changed, in place. */
  method OverwriteChanged(before: Procs, desired: Procs, current: Procs, beforeByPid: map<u32, Process>, dropped: Procs)
    returns (r: Result<Procs>)
    requires AllDistinct(before, desired, current) && dropped == Edited(before, desired, before, [], current)
    requires forall pid: u32 :: Find(before, pid) == if pid in beforeByPid then Some(beforeByPid[pid]) else None
    ensures r.Err? ==> r.error.ChangedConcurrently?
    ensures r.Ok? <==> ChangesFit(before, desired, current, |desired|)
    ensures r.Ok? ==> r.value == Edited(before, desired, before, desired, current)
  {
    var result := dropped;
    for i := 0 to |desired|
      invariant result == Edited(before, desired, before, desired[..i], current)
      invariant ChangesFit(before, desired, current, i)
    {
      var wanted := desired[i];
      if wanted.pid !in beforeByPid || wanted == beforeByPid[wanted.pid] {
        OverwriteSkip(before, desired, i, current);
        continue;
      }
      var previous := beforeByPid[wanted.pid];
      OverwriteHit(before, desired, i, current, previous);
      var at := Unchanged(result, previous);
      if at.Err? { return Err(at.error); }
      result := result[at.value := wanted];
    }
    assert desired[..|desired|] == desired;
    return Ok(result);
  }

  /** Third loop: appends the PIDs the caller added. */
  method AppendAdded(before: Procs, desired: Procs, current: Procs, beforeByPid: map<u32, Process>, edited: Procs)
    returns (r: Result<Procs>)
    requires AllDistinct(before, desired, current) && edited == Edited(before, desired, before, desired, current)
    requires forall pid: u32 :: pid in beforeByPid <==> Find(before, pid).Some?
    ensures r.Err? ==> r.error.ChangedConcurrently?
    ensures r.Ok? <==> AdditionsFit(before, desired, current, |desired|)
    ensures r.Ok? ==> r.value == Merged(before, desired, current)
  {
    var result := edited;
    for i := 0 to |desired|
      invariant result == edited + Added(before, desired[..i])
      invariant AdditionsFit(before, desired, current, i)
    {
      var wanted := desired[i];
      AddStep(before, desired, i, current);
      if wanted.pid in beforeByPid {
        continue;
      }
      var index := ProcessIndex(result, wanted.pid);
      assert index >= 0 ==> !AdditionFits(before, current, desired[i]);
      if index >= 0 {
        return Err(ChangedConcurrently(wanted.pid));
      }
      result := result + [wanted];
    }
    assert desired[..|desired|] == desired;
    return Ok(result);
  }

  /** Succeeds exactly when the lists are duplicate-free and nobody else touched
      an edited PID; the result is the merged list. */
  method RebaseProcesses(before: Procs, desired: Procs, current: Procs) returns (r: Result<Procs>)
    ensures r.Err? ==> r.error.DuplicatePid? || r.error.ChangedConcurrently?
    ensures r.Ok? <==> AllDistinct(before, desired, current) && Compatible(before, desired, current)
    ensures r.Ok? ==> r.value == Merged(before, desired, current)
  {
    var beforeByPid := ProcessesByPid(before);
    if beforeByPid.Err? { return Err(beforeByPid.error); }
    var desiredByPid := ProcessesByPid(desired);
    if desiredByPid.Err? { return Err(desiredByPid.error); }
    var currentByPid := ProcessesByPid(current);
    if currentByPid.Err? { return Err(currentByPid.error); }
    EditsCovered(before, desired, current);
    r := DropRemoved(before, desired, current, desiredByPid.value);
    if r.Err? { return; }
    r := OverwriteChanged(before, desired, current, beforeByPid.value, r.value);
    if r.Err? { return; }
    r := AppendAdded(before, desired, current, beforeByPid.value, r.value);
  }

  /** The checks of the three loops cover exactly the PIDs the edit touches. */
  lemma EditsCovered(before: Procs, desired: Procs, current: Procs)
    requires AllDistinct(before, desired, current)
    ensures Compatible(before, desired, current) <==>
              && RemovalsFit(before, desired, current, |before|)
              && ChangesFit(before, desired, current, |desired|)
              && AdditionsFit(before, desired, current, |desired|)
  {
    forall j | 0 <= j < |before| ensures Find(before, before[j].pid) == Some(before[j]) { FindAt(before, j); }
    forall j | 0 <= j < |desired| ensures Find(desired, desired[j].pid) == Some(desired[j]) { FindAt(desired, j); }
    if Compatible(before, desired, current) {
      forall j | 0 <= j < |before| ensures RemovalFits(desired, current, before[j]) {
        assert Find(desired, before[j].pid).None? ==> Touched(before, desired, before[j].pid);
      }
      forall j | 0 <= j < |desired|
        ensures ChangeFits(before, current, desired[j]) && AdditionFits(before, current, desired[j])
      {
        assert Find(before, desired[j].pid) != Some(desired[j]) ==> Touched(before, desired, desired[j].pid);
      }
    } else {
      var pid: u32 :| Touched(before, desired, pid) && Find(current, pid) != Find(before, pid);
      var i, j := IndexOf(before, pid), IndexOf(desired, pid);
      assert j >= 0 ==> !ChangeFits(before, current, desired[j]) || !AdditionFits(before, current, desired[j]);
      assert j < 0 ==> !RemovalFits(desired, current, before[i]);
    }
  }
}
