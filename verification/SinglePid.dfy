/** Edits of one PID: what the registry and the command line feed to the merge. */
module SinglePid {
  import opened Accounting
  import opened Rebase

  function Dropper(pid: u32): (f: Process -> Procs)
    ensures Local(f)
  {
    (p: Process) => if p.pid == pid then [] else [p]
  }

  /** The list without any record for `pid`. */
  function Without(s: Procs, pid: u32): Procs { Rewrite(Dropper(pid), s) }

  /** The list with `rec` in the place of its PID's record, or at the end. */
  function Put(s: Procs, rec: Process): Procs {
    var i := IndexOf(s, rec.pid);
    if i < 0 then s + [rec] else s[i := rec]
  }

  ghost function HeldMiB(s: Procs, pid: u32): nat {
    if Find(s, pid).None? then 0 else Find(s, pid).value.memMiB
  }

  /** The two records agree except on `pid`. */
  ghost predicate OnlyPid(before: Procs, desired: Procs, pid: u32) {
    forall q: u32 :: Touched(before, desired, q) ==> q == pid
  }

  lemma WithoutFind(s: Procs, pid: u32, q: u32)
    requires Distinct(s)
    ensures Find(Without(s, pid), q) == if q == pid then None else Find(s, q)
  {
    RewriteFind(Dropper(pid), s, q);
  }

  lemma WithoutDistinct(s: Procs, pid: u32)
    requires Distinct(s)
    ensures Distinct(Without(s, pid))
  {
    RewriteDistinct(Dropper(pid), s);
  }

  lemma WithoutAbsent(s: Procs, pid: u32)
    requires Find(s, pid).None?
    ensures Without(s, pid) == s
  {
    RewriteNothing(Dropper(pid), s);
  }

  /** Cutting one record out of a duplicate-free list. */
  lemma WithoutCut(s: Procs, k: nat)
    requires Distinct(s) && k < |s|
    ensures Without(s, s[k].pid) == s[..k] + s[k + 1..]
  {
    var f := Dropper(s[k].pid);
    RewriteSplit(f, s, k);
    RewriteNothing(f, s[..k]);
    RewriteNothing(f, s[k + 1..]);
    assert s[..k] + [] == s[..k];
  }

  lemma WithoutAppended(s: Procs, rec: Process)
    requires Find(s, rec.pid).None?
    ensures Without(s + [rec], rec.pid) == s
  {
    RewriteConcat(Dropper(rec.pid), s, [rec]);
    WithoutAbsent(s, rec.pid);
    assert [rec][..0] == [];
  }

  lemma PutDistinct(s: Procs, rec: Process)
    requires Distinct(s)
    ensures Distinct(Put(s, rec))
  {
  }

  lemma PutFind(s: Procs, rec: Process, q: u32)
    requires Distinct(s)
    ensures Find(Put(s, rec), q) == if q == rec.pid then Some(rec) else Find(s, q)
  {
    var i, t := IndexOf(s, rec.pid), Put(s, rec);
    if i < 0 {
      FindConcat(s, [rec], q);
    } else {
      PutDistinct(s, rec);
      var j := IndexOf(s, q);
      if q == rec.pid {
        FindAt(t, i);
      } else if j >= 0 {
        assert t[j] == s[j];
        FindAt(t, j);
      } else {
        assert forall x :: 0 <= x < |t| ==> t[x].pid == s[x].pid;
      }
    }
  }

  /** Putting a record and then restoring the old one is no change at all; so is
      adding a record and removing it. */
  lemma PutUndone(s: Procs, rec: Process)
    requires Distinct(s)
    ensures Find(s, rec.pid).Some? ==> Put(Put(s, rec), Find(s, rec.pid).value) == s
    ensures Find(s, rec.pid).None? ==> Without(Put(s, rec), rec.pid) == s
  {
    var i := IndexOf(s, rec.pid);
    if i < 0 {
      WithoutAppended(s, rec);
    } else {
      PutDistinct(s, rec);
      FindAt(Put(s, rec), i);
    }
  }

  /** Everything but the PID's own record is as before. */
  lemma PutApart(s: Procs, rec: Process)
    requires Distinct(s)
    ensures Without(Put(s, rec), rec.pid) == Without(s, rec.pid)
  {
    var i := IndexOf(s, rec.pid);
    if i < 0 {
      WithoutAppended(s, rec);
      WithoutAbsent(s, rec.pid);
    } else {
      PutDistinct(s, rec);
      WithoutCut(s, i);
      WithoutCut(Put(s, rec), i);
      assert Put(s, rec)[..i] == s[..i] && Put(s, rec)[i + 1..] == s[i + 1..];
    }
  }

  lemma WithoutTwice(s: Procs, pid: u32)
    requires Distinct(s)
    ensures Without(Without(s, pid), pid) == Without(s, pid)
  {
    WithoutFind(s, pid, pid);
    WithoutAbsent(Without(s, pid), pid);
  }

  lemma PutOwned(s: Procs, rec: Process)
    ensures OwnedMiB(Put(s, rec)) == OwnedMiB(s) - HeldMiB(s, rec.pid) + rec.memMiB
  {
    var i := IndexOf(s, rec.pid);
    if i < 0 {
      assert Put(s, rec)[..|s|] == s;
    } else {
      OwnedSplit(s, i);
      OwnedSplit(s[i := rec], i);
      assert s[i := rec][..i] == s[..i] && s[i := rec][i + 1..] == s[i + 1..];
    }
  }

  lemma WithoutOwned(s: Procs, pid: u32)
    requires Distinct(s)
    ensures OwnedMiB(Without(s, pid)) == OwnedMiB(s) - HeldMiB(s, pid)
  {
    var i := IndexOf(s, pid);
    if i < 0 {
      WithoutAbsent(s, pid);
    } else {
      WithoutCut(s, i);
      OwnedSplit(s, i);
      OwnedConcat(s[..i], s[i + 1..]);
    }
  }

  lemma PutValid(s: Procs, rec: Process)
    requires AllValid(s)
    ensures AllValid(Put(s, rec)) <==> ValidProcess(rec)
  {
    var i, t := IndexOf(s, rec.pid), Put(s, rec);
    if i < 0 {
      assert t[|s|] == rec;
    } else {
      assert t[i] == rec;
    }
  }

  lemma WithoutValid(s: Procs, pid: u32)
    requires AllValid(s) && Distinct(s)
    ensures AllValid(Without(s, pid))
  {
    var i := IndexOf(s, pid);
    if i < 0 { WithoutAbsent(s, pid); } else { WithoutCut(s, i); }
  }

  // ---------- through the merge ----------

  lemma {:induction false} AddedNone(before: Procs, desired: Procs)
    requires forall i :: 0 <= i < |desired| ==> Find(before, desired[i].pid).Some?
    ensures Added(before, desired) == []
  {
    if desired != [] { AddedNone(before, desired[..|desired| - 1]); }
  }

  lemma DesiredFind(s: Procs, rec: Process, q: u32)
    requires Distinct(s)
    ensures Find(Without(s, rec.pid) + [rec], q) == if q == rec.pid then Some(rec) else Find(s, q)
  {
    WithoutFind(s, rec.pid, q);
    FindConcat(Without(s, rec.pid), [rec], q);
  }

  lemma DesiredDistinct(s: Procs, rec: Process)
    requires Distinct(s)
    ensures Distinct(Without(s, rec.pid) + [rec])
  {
    WithoutDistinct(s, rec.pid);
    WithoutFind(s, rec.pid, rec.pid);
  }

  /** "Take my record out and append it again" is, merged into the list it came
      from, an overwrite in place or a plain addition. */
  lemma MergePut(s: Procs, rec: Process)
    requires Distinct(s)
    ensures var desired := Without(s, rec.pid) + [rec];
            && Rebased(s, desired, s) == Some(Put(s, rec)) && OnlyPid(s, desired, rec.pid)
  {
    var desired := Without(s, rec.pid) + [rec];
    assert Distinct(desired) by { DesiredDistinct(s, rec); }
    assert forall q: u32 :: Find(desired, q) == if q == rec.pid then Some(rec) else Find(s, q) by {
      forall q: u32 ensures Find(desired, q) == if q == rec.pid then Some(rec) else Find(s, q) {
        DesiredFind(s, rec, q);
      }
    }
    assert Merged(s, desired, s) == Put(s, rec) by { PutMerged(s, desired, rec); }
    assert Compatible(s, desired, s);
  }

  lemma PutMerged(s: Procs, desired: Procs, rec: Process)
    requires Distinct(s) && desired == Without(s, rec.pid) + [rec]
    requires forall q: u32 :: Find(desired, q) == if q == rec.pid then Some(rec) else Find(s, q)
    ensures Merged(s, desired, s) == Put(s, rec)
  {
    var edited, added := Edited(s, desired, s, desired, s), Added(s, desired);
    assert edited == if Find(s, rec.pid).None? then s else Put(s, rec) by { PutEdited(s, desired, rec); }
    assert added == if Find(s, rec.pid).None? then [rec] else [] by { PutAdded(s, rec); }
    assert Put(s, rec) + [] == Put(s, rec);
  }

  lemma PutEdited(s: Procs, desired: Procs, rec: Process)
    requires Distinct(s)
    requires forall q: u32 :: Find(desired, q) == if q == rec.pid then Some(rec) else Find(s, q)
    ensures Edited(s, desired, s, desired, s) == if Find(s, rec.pid).None? then s else Put(s, rec)
  {
    var g := Slots(s, desired, s, desired);
    forall i | 0 <= i < |s| ensures g(s[i]) == if s[i].pid == rec.pid then [rec] else [s[i]] {
      FindAt(s, i);
    }
    var k := IndexOf(s, rec.pid);
    if k < 0 {
      RewriteNothing(g, s);
    } else {
      KeepAllBut(g, s, k, rec);
    }
  }

  lemma KeepAllBut(g: Process -> Procs, s: Procs, k: nat, rec: Process)
    requires k < |s| && g(s[k]) == [rec] && forall i :: 0 <= i < |s| && i != k ==> g(s[i]) == [s[i]]
    ensures Rewrite(g, s) == s[k := rec]
  {
    RewriteSplit(g, s, k);
    RewriteNothing(g, s[..k]);
    RewriteNothing(g, s[k + 1..]);
    Splice(s, k, rec);
  }

  lemma PutAdded(s: Procs, rec: Process)
    requires Distinct(s)
    ensures Added(s, Without(s, rec.pid) + [rec]) == if Find(s, rec.pid).None? then [rec] else []
  {
    var w := Without(s, rec.pid);
    WithoutAdded(s, rec.pid);
    assert (w + [rec])[..|w|] == w;
  }

  lemma WithoutEdited(s: Procs, pid: u32)
    requires Distinct(s)
    ensures Edited(s, Without(s, pid), s, Without(s, pid), s) == Without(s, pid)
  {
    var desired := Without(s, pid);
    forall i | 0 <= i < |s|
      ensures Slot(s, desired, s, desired, s[i]) == if s[i].pid == pid then [] else [s[i]]
    {
      FindAt(s, i);
      WithoutFind(s, pid, s[i].pid);
    }
    RewriteSame(Slots(s, desired, s, desired), Dropper(pid), s);
  }

  lemma WithoutAdded(s: Procs, pid: u32)
    requires Distinct(s)
    ensures Added(s, Without(s, pid)) == []
  {
    var w := Without(s, pid);
    forall i | 0 <= i < |w| ensures Find(s, w[i].pid).Some? {
      WithoutFind(s, pid, w[i].pid);
      assert Find(w, w[i].pid).Some?;
    }
    AddedNone(s, w);
  }

  lemma MergeWithout(s: Procs, pid: u32)
    requires Distinct(s)
    ensures Rebased(s, Without(s, pid), s) == Some(Without(s, pid)) && OnlyPid(s, Without(s, pid), pid)
  {
    WithoutDistinct(s, pid);
    forall q: u32 ensures Find(Without(s, pid), q) == if q == pid then None else Find(s, q) {
      WithoutFind(s, pid, q);
    }
    WithoutEdited(s, pid);
    WithoutAdded(s, pid);
    assert Without(s, pid) + [] == Without(s, pid);
  }

  // ---------- one PID, whatever the current list ----------

  /** The list asked for: `rec` as the PID's record, or no record at all. */
  function Desired(s: Procs, pid: u32, rec: Option<Process>): Procs {
    if rec.Some? then Without(s, pid) + [rec.value] else Without(s, pid)
  }

  /** The list that results if nothing else happened. */
  function Changed(s: Procs, pid: u32, rec: Option<Process>): Procs {
    if rec.Some? then Put(s, rec.value) else Without(s, pid)
  }

  ghost predicate Names(rec: Option<Process>, pid: u32) { rec.Some? ==> rec.value.pid == pid }

  lemma DesiredOnly(s: Procs, pid: u32, rec: Option<Process>)
    requires Distinct(s) && Names(rec, pid)
    ensures Distinct(Desired(s, pid, rec)) && OnlyPid(s, Desired(s, pid, rec), pid)
    ensures Find(Desired(s, pid, rec), pid) == rec
    ensures Touched(s, Desired(s, pid, rec), pid) <==> Find(s, pid) != rec
  {
    if rec.Some? {
      MergePut(s, rec.value);
      DesiredDistinct(s, rec.value);
      DesiredFind(s, rec.value, pid);
    } else {
      MergeWithout(s, pid);
      WithoutDistinct(s, pid);
      WithoutFind(s, pid, pid);
    }
  }

  /** An edit of one PID is refused as a conflict exactly when it changes that
      PID's record and the current list holds another one than the snapshot. */
  lemma OnePidConflictIff(before: Procs, pid: u32, rec: Option<Process>, current: Procs)
    requires Distinct(before) && Names(rec, pid)
    ensures Compatible(before, Desired(before, pid, rec), current)
       <==> Find(before, pid) == rec || Find(current, pid) == Find(before, pid)
  {
    DesiredOnly(before, pid, rec);
  }

  /** The merge looks at a snapshot's PID record only: an edit of one PID that is
      no conflict does to the current list what it would do if it had been made
      from it, or nothing if it asked for what the snapshot showed. */
  lemma MergeOnePid(before: Procs, pid: u32, rec: Option<Process>, current: Procs)
    requires Distinct(before) && Distinct(current) && Names(rec, pid)
    requires Find(before, pid) == rec || Find(current, pid) == Find(before, pid)
    ensures Rebased(before, Desired(before, pid, rec), current)
         == Some(if Find(before, pid) == rec then current else Changed(current, pid, rec))
  {
    var desired := Desired(before, pid, rec);
    assert Compatible(before, desired, current) by { OnePidConflictIff(before, pid, rec, current); }
    assert Distinct(desired) by { DesiredOnly(before, pid, rec); }
    assert Merged(before, desired, current)
        == if Find(before, pid) == rec then current else Changed(current, pid, rec) by {
      if Find(before, pid) == rec {
        MergeNothing(before, pid, rec, current);
      } else {
        MergeFromCurrent(before, pid, rec, current);
        MergeChanged(current, pid, rec);
      }
    }
  }

  lemma MergeChanged(s: Procs, pid: u32, rec: Option<Process>)
    requires Distinct(s) && Names(rec, pid)
    ensures Merged(s, Desired(s, pid, rec), s) == Changed(s, pid, rec)
  {
    if rec.Some? { MergePut(s, rec.value); } else { MergeWithout(s, pid); }
  }

  lemma MergeNothing(before: Procs, pid: u32, rec: Option<Process>, current: Procs)
    requires Distinct(before) && Names(rec, pid) && Find(before, pid) == rec
    ensures Merged(before, Desired(before, pid, rec), current) == current
  {
    var desired := Desired(before, pid, rec);
    AddedOnePid(before, pid, rec);
    SlotsOnePid(before, pid, rec, current);
    RewriteNothing(Slots(before, desired, before, desired), current);
    assert current + [] == current;
  }

  lemma MergeFromCurrent(before: Procs, pid: u32, rec: Option<Process>, current: Procs)
    requires Distinct(before) && Distinct(current) && Names(rec, pid) && Find(current, pid) == Find(before, pid)
    ensures Merged(before, Desired(before, pid, rec), current) == Merged(current, Desired(current, pid, rec), current)
  {
    SlotsSame(before, pid, rec, current);
    AddedOnePid(before, pid, rec);
    AddedOnePid(current, pid, rec);
  }

  /** What an edit of one PID makes of one record. */
  function SlotOf(prior: Option<Process>, pid: u32, rec: Option<Process>, p: Process): Procs {
    if p.pid != pid || prior == rec || prior.None? then [p]
    else if rec.None? then []
    else [rec.value]
  }

  lemma SlotsOnePid(before: Procs, pid: u32, rec: Option<Process>, current: Procs)
    requires Distinct(before) && Names(rec, pid)
    ensures var desired := Desired(before, pid, rec);
            forall i :: 0 <= i < |current| ==>
              Slots(before, desired, before, desired)(current[i]) == SlotOf(Find(before, pid), pid, rec, current[i])
  {
    var desired := Desired(before, pid, rec);
    DesiredOnly(before, pid, rec);
    forall i | 0 <= i < |current|
      ensures Slot(before, desired, before, desired, current[i])
           == SlotOf(Find(before, pid), pid, rec, current[i])
    {
      assert Touched(before, desired, current[i].pid) ==> current[i].pid == pid;
    }
  }

  lemma SlotsSame(before: Procs, pid: u32, rec: Option<Process>, current: Procs)
    requires Distinct(before) && Distinct(current) && Names(rec, pid) && Find(current, pid) == Find(before, pid)
    ensures var desired, again := Desired(before, pid, rec), Desired(current, pid, rec);
            Edited(before, desired, before, desired, current) == Edited(current, again, current, again, current)
  {
    var desired, again := Desired(before, pid, rec), Desired(current, pid, rec);
    SlotsOnePid(before, pid, rec, current);
    SlotsOnePid(current, pid, rec, current);
    RewriteSame(Slots(before, desired, before, desired), Slots(current, again, current, again), current);
  }

  lemma AddedOnePid(s: Procs, pid: u32, rec: Option<Process>)
    requires Distinct(s) && Names(rec, pid)
    ensures Added(s, Desired(s, pid, rec)) == if rec.Some? && Find(s, pid).None? then [rec.value] else []
  {
    if rec.Some? { PutAdded(s, rec.value); } else { WithoutAdded(s, pid); }
  }

  lemma {:induction false} DropAfterRewrite(f: Process -> Procs, pid: u32, c: Procs)
    requires Local(f) && forall i :: 0 <= i < |c| && c[i].pid != pid ==> f(c[i]) == [c[i]]
    ensures Without(Rewrite(f, c), pid) == Without(c, pid)
  {
    if c != [] {
      var n := |c| - 1;
      DropAfterRewrite(f, pid, c[..n]);
      RewriteConcat(Dropper(pid), Rewrite(f, c[..n]), f(c[n]));
      if f(c[n]) == [] {
        assert Rewrite(Dropper(pid), []) == [];
      } else {
        var x := f(c[n])[0];
        assert f(c[n]) == [x] && [x][..0] == [];
        assert x.pid == c[n].pid;
      }
    }
  }

  lemma {:induction false} DropAll(pid: u32, s: Procs)
    requires forall i :: 0 <= i < |s| ==> s[i].pid == pid
    ensures Without(s, pid) == []
  {
    if s != [] { DropAll(pid, s[..|s| - 1]); }
  }

  /** Merging an edit of one PID into any list leaves the rest of that list as it
      is, order included. */
  lemma MergeApart(before: Procs, desired: Procs, current: Procs, pid: u32)
    requires Distinct(before) && Distinct(desired) && OnlyPid(before, desired, pid)
    ensures Without(Merged(before, desired, current), pid) == Without(current, pid)
  {
    var f, added := Slots(before, desired, before, desired), Added(before, desired);
    forall i | 0 <= i < |current| && current[i].pid != pid ensures f(current[i]) == [current[i]] {
      assert !Touched(before, desired, current[i].pid);
    }
    DropAfterRewrite(f, pid, current);
    forall i | 0 <= i < |added| ensures added[i].pid == pid {
      AddedFind(before, desired, added[i].pid);
      assert Find(added, added[i].pid).Some?;
      assert Touched(before, desired, added[i].pid);
    }
    DropAll(pid, added);
    RewriteConcat(Dropper(pid), Rewrite(f, current), added);
    assert Without(current, pid) + [] == Without(current, pid);
  }

  // ---------- the code ----------

  /** `withoutPID`, and the loop of `removeProcess`. */
  method WithoutPid(processes: Procs, pid: u32) returns (out: Procs, found: bool)
    ensures out == Without(processes, pid) && (found <==> Find(processes, pid).Some?)
  {
    out, found := [], false;
    for i := 0 to |processes|
      invariant out == Without(processes[..i], pid)
      invariant found <==> exists j :: 0 <= j < i && processes[j].pid == pid
    {
      assert processes[..i + 1][..i] == processes[..i];
      if processes[i].pid == pid {
        found := true;
        continue;
      }
      out := out + [processes[i]];
    }
    assert processes[..|processes|] == processes;
  }

  datatype Mode = Add | Update

  /** The memory flag: not given, given empty, given and malformed, or an amount. */
  datatype MemoryFlag = NoMemory | EmptyMemory | BadMemory | Memory(miB: u64)

  datatype Flags = Flags(
    memory: MemoryFlag, name: Option<string>, kind: Option<string>,
    sm: Option<u32>, mem: Option<u32>, enc: Option<u32>, dec: Option<u32>)

  function Or<T>(given: Option<T>, otherwise: T): T { if given.Some? then given.value else otherwise }

  /** The flags as a record: what is not given comes from `base`. */
  function Filled(base: Process, f: Flags): Process {
    Process(base.pid, Or(f.kind, base.kind), Or(f.name, base.name),
            if f.memory.Memory? then f.memory.miB else base.memMiB,
            Or(f.sm, base.sm), Or(f.mem, base.mem), Or(f.enc, base.enc), Or(f.dec, base.dec))
  }

  predicate GoodFlags(mode: Mode, f: Flags) {
    && (f.kind.Some? ==> f.kind.value == "C" || f.kind.value == "G")
    && !f.memory.BadMemory? && (mode.Update? ==> !f.memory.EmptyMemory?)
    && Or(f.sm, 0) <= 100 && Or(f.mem, 0) <= 100 && Or(f.enc, 0) <= 100 && Or(f.dec, 0) <= 100
  }

  const BARE := Process(0, "C", "", 0, 0, 0, 0, 0)

  /** No flag at all changes nothing, ... */
  lemma NothingGiven(base: Process)
    ensures Filled(base, Flags(NoMemory, None, None, None, None, None, None)) == base
  {
  }

  /** ... each flag sets its own field and no other, ... */
  lemma EachGiven(base: Process, n: u64, s: string, u: u32)
    ensures var none := Flags(NoMemory, None, None, None, None, None, None);
            && Filled(base, none.(memory := Memory(n))) == base.(memMiB := n)
            && Filled(base, none.(memory := EmptyMemory)) == base
            && Filled(base, none.(name := Some(s))) == base.(name := s)
            && Filled(base, none.(kind := Some(s))) == base.(kind := s)
            && Filled(base, none.(sm := Some(u))) == base.(sm := u)
            && Filled(base, none.(mem := Some(u))) == base.(mem := u)
            && Filled(base, none.(enc := Some(u))) == base.(enc := u)
            && Filled(base, none.(dec := Some(u))) == base.(dec := u)
  {
  }

  /** The flags of a later call over those of an earlier one. */
  function Over(later: Flags, f: Flags): Flags {
    Flags(if later.memory.Memory? then later.memory else f.memory, Later(later.name, f.name), Later(later.kind, f.kind),
          Later(later.sm, f.sm), Later(later.mem, f.mem), Later(later.enc, f.enc), Later(later.dec, f.dec))
  }

  function Later<T>(later: Option<T>, given: Option<T>): Option<T> { if later.Some? then later else given }

  /** ... and adding with some flags and updating with others is adding with the
      others over the first. */
  lemma FilledTwice(base: Process, f: Flags, later: Flags)
    ensures Filled(Filled(base, f), later) == Filled(base, Over(later, f))
  {
  }

  /** Flags that pass never make an invalid record of a valid one; a record added is
      valid exactly if its PID is not 0. */
  lemma GoodFlagsValid(mode: Mode, base: Process, f: Flags)
    requires GoodFlags(mode, f)
    ensures ValidProcess(base) ==> ValidProcess(Filled(base, f))
    ensures ValidProcess(Filled(BARE.(pid := base.pid), f)) <==> base.pid != 0
  {
  }

  /** And the flags refused are those that would, or that give no memory to be read. */
  lemma BadFlagsIff(mode: Mode, base: Process, f: Flags)
    requires ValidProcess(base) && f.kind != Some("")
    ensures GoodFlags(mode, f) <==>
              && ValidProcess(Filled(base, f)) && !f.memory.BadMemory?
              && (mode.Update? ==> !f.memory.EmptyMemory?)
  {
  }

  /** The flag is as wide as the machine; a PID is positive and fits in 32 bits. */
  predicate GivesPid(given: u64) { given != 0 && given <= 0xFFFF_FFFF }

  /** The list the command line asks for.  `add` refuses a PID that is there and
      starts from a bare record; `update` refuses one that is not and changes just
      the fields given; the edit touches that PID and no other. */
  method UpsertProcess(mode: Mode, listed: Procs, given: u64, flags: Flags) returns (r: Result<Procs>)
    ensures r.Ok? <==> GivesPid(given) && (mode.Add? <==> Find(listed, given).None?) && GoodFlags(mode, flags)
    ensures r.Ok? && Distinct(listed) ==>
              var base := if mode.Add? then BARE.(pid := given) else Find(listed, given).value;
              r.value == Put(listed, Filled(base, flags)) && OnlyPid(listed, r.value, given)
  {
    if given == 0 || given > 0xFFFF_FFFF { return Err(InvalidRequest); }
    var pid: u32 := given;
    if flags.kind.Some? && flags.kind.value != "C" && flags.kind.value != "G" { return Err(InvalidRequest); }
    var index := ProcessIndex(listed, pid);
    if mode.Add? && index >= 0 { return Err(InvalidRequest); }
    if mode.Update? && index < 0 { return Err(InvalidRequest); }
    if flags.memory.BadMemory? { return Err(InvalidRequest); }
    var process := NewProcess(pid, flags);
    if mode.Update? {
      if flags.memory.EmptyMemory? { return Err(InvalidRequest); }
      process := UpdatedProcess(listed[index], flags);
    }
    if Or(flags.sm, 0) > 100 || Or(flags.mem, 0) > 100 { return Err(InvalidRequest); }
    if Or(flags.enc, 0) > 100 || Or(flags.dec, 0) > 100 { return Err(InvalidRequest); }
    if mode.Add? { r := Ok(listed + [process]); } else { r := Ok(listed[index := process]); }
    if Distinct(listed) { PutOnly(listed, process); }
  }

  /** The record `add` starts from. */
  method NewProcess(pid: u32, flags: Flags) returns (process: Process)
    ensures process == Filled(BARE.(pid := pid), flags)
  {
    process := Process(pid, Or(flags.kind, "C"), Or(flags.name, ""), 0, Or(flags.sm, 0), Or(flags.mem, 0),
                       Or(flags.enc, 0), Or(flags.dec, 0));
    if flags.memory.Memory? { process := process.(memMiB := flags.memory.miB); }
  }

  /** What `update` makes of the record it found. */
  method UpdatedProcess(found: Process, flags: Flags) returns (process: Process)
    ensures process == Filled(found, flags)
  {
    process := found;
    if flags.memory.Memory? { process := process.(memMiB := flags.memory.miB); }
    if flags.name.Some? { process := process.(name := flags.name.value); }
    if flags.kind.Some? { process := process.(kind := flags.kind.value); }
    if flags.sm.Some? { process := process.(sm := flags.sm.value); }
    if flags.mem.Some? { process := process.(mem := flags.mem.value); }
    if flags.enc.Some? { process := process.(enc := flags.enc.value); }
    if flags.dec.Some? { process := process.(dec := flags.dec.value); }
  }

  lemma PutOnly(s: Procs, rec: Process)
    requires Distinct(s)
    ensures OnlyPid(s, Put(s, rec), rec.pid)
  {
    forall q: u32 ensures Find(Put(s, rec), q) == if q == rec.pid then Some(rec) else Find(s, q) {
      PutFind(s, rec, q);
    }
  }

  method RemoveProcess(listed: Procs, given: u64) returns (r: Result<Procs>)
    ensures r.Ok? <==> GivesPid(given) && Find(listed, given).Some?
    ensures r.Ok? && Distinct(listed) ==> r.value == Without(listed, given) && OnlyPid(listed, r.value, given)
  {
    if given == 0 || given > 0xFFFF_FFFF { return Err(InvalidRequest); }
    var pid: u32 := given;
    var filtered, found := WithoutPid(listed, pid);
    if !found { return Err(InvalidRequest); }
    if Distinct(listed) {
      MergeWithout(listed, pid);
      WithoutFind(listed, pid, pid);
    }
    return Ok(filtered);
  }
}
