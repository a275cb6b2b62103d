/** Concurrent edits that do not meet, and the locked path against the direct one. */
module Commuting {
  import opened Accounting
  import opened Text
  import opened Rebase
  import opened Operations
  import opened SinglePid
  import opened History

  ghost predicate Disjoint(before: Procs, one: Procs, two: Procs) {
    forall pid: u32 :: !(Touched(before, one, pid) && Touched(before, two, pid))
  }

  /** An edit that fits the current list still fits after a disjoint one. */
  lemma StillCompatible(before: Procs, one: Procs, two: Procs, current: Procs)
    requires AllDistinct(before, one, current) && Distinct(two) && Disjoint(before, one, two)
    requires Compatible(before, one, current) && Compatible(before, two, current)
    ensures AllDistinct(before, two, Merged(before, one, current))
    ensures Compatible(before, two, Merged(before, one, current))
  {
    MergeIsThreeWay(before, one, current);
    forall pid: u32 | Touched(before, two, pid)
      ensures Find(Merged(before, one, current), pid) == Find(before, pid)
    {
      assert !Touched(before, one, pid);
    }
  }

  /** Two edits from one snapshot that touch different PIDs both succeed, in
      either order, and leave the same records. */
  lemma DisjointEditsCommute(before: Procs, one: Procs, two: Procs, current: Procs)
    requires AllDistinct(before, one, current) && Distinct(two) && Disjoint(before, one, two)
    requires Compatible(before, one, current) && Compatible(before, two, current)
    ensures Compatible(before, two, Merged(before, one, current))
    ensures Compatible(before, one, Merged(before, two, current))
    ensures var oneTwo := Merged(before, two, Merged(before, one, current));
            var twoOne := Merged(before, one, Merged(before, two, current));
            && Distinct(oneTwo) && Distinct(twoOne)
            && (forall pid: u32 :: Find(oneTwo, pid) == Find(twoOne, pid))
            && multiset(oneTwo) == multiset(twoOne) && Owned(oneTwo) == Owned(twoOne)
  {
    StillCompatible(before, one, two, current);
    StillCompatible(before, two, one, current);
    MergeIsThreeWay(before, one, current);
    MergeIsThreeWay(before, two, current);
    var m1, m2 := Merged(before, one, current), Merged(before, two, current);
    MergeIsThreeWay(before, two, m1);
    MergeIsThreeWay(before, one, m2);
    var oneTwo, twoOne := Merged(before, two, m1), Merged(before, one, m2);
    forall pid: u32 ensures Find(oneTwo, pid) == Find(twoOne, pid) {
      assert !(Touched(before, one, pid) && Touched(before, two, pid));
    }
    SameRecordsSamePermutation(oneTwo, twoOne);
  }

  // ---------- on a device ----------

  /** A PID's record after a committed edit, as the next reader sees it. */
  lemma SeenAfterEdit(before: Procs, desired: Procs, d: Device, works: bool, again: bool, pid: u32)
    requires Succeeds(Edit(before, desired), d, works)
    ensures Find(Observed(Atomic(Edit(before, desired), d, works), again).procs, pid)
         == if Touched(before, desired, pid) then SeenOf(Find(desired, pid), again)
            else SeenOf(Find(d.procs, pid), works && again)
  {
    EditByPid(before, desired, d, works, pid);
    ViewFind(d.procs, works, pid);
    ViewFind(Atomic(Edit(before, desired), d, works).procs, again, pid);
    if Find(d.procs, pid).Some? { SeenAgain(Find(d.procs, pid).value, works, again); }
  }

  /** No utilization to lose. */
  predicate Idle(p: Process) { p.sm == 0 && p.mem == 0 && p.enc == 0 && p.dec == 0 }

  /** A second disjoint edit from the same snapshot is refused as a conflict
      exactly when its own telemetry query fails after the first one's worked, and
      it edits a PID whose utilization the snapshot had. */
  lemma DisjointConflictIff(before: Procs, one: Procs, two: Procs, d: Device, works: bool, again: bool)
    requires WellFormed(d) && Distinct(two) && Disjoint(before, one, two)
    requires Succeeds(Edit(before, one), d, works) && Compatible(before, two, Observed(d, works).procs)
    ensures var now := Observed(Atomic(Edit(before, one), d, works), again).procs;
            && AllDistinct(before, two, now)
            && (Compatible(before, two, now) <==>
                  again || forall pid: u32 :: Touched(before, two, pid) && Find(before, pid).Some? ==>
                            Idle(Find(before, pid).value))
  {
    var d' := Atomic(Edit(before, one), d, works);
    AtomicKeeps(Edit(before, one), d, works);
    ObservedWellFormed(d', again);
    forall pid: u32 | Touched(before, two, pid)
      ensures Find(Observed(d', again).procs, pid) == Find(before, pid)
         <==> again || Find(before, pid).None? || Idle(Find(before, pid).value)
    {
      SeenAfterEdit(before, one, d, works, again, pid);
      assert !Touched(before, one, pid);
      ViewFind(d.procs, works, pid);
      var p := Find(d.procs, pid);
      if p.Some? && !again { PlainIffIdle(p.value, works); }
    }
  }

  lemma PlainIffIdle(p: Process, works: bool)
    ensures Plain(p) == Seen(p, works) <==> Idle(Seen(p, works))
  {
  }

  /** It happens with nobody else around: a removal of the busy PID 7 made from a
      good snapshot is refused because the fresh read has no telemetry. */
  lemma ConflictWithoutChange()
    ensures var d := Device(4 * MIB, MIB, 3 * MIB, [BUSY]);
            && WellFormed(d) && Observed(d, true).procs == d.procs
            && !Compatible(d.procs, Without(d.procs, 7), Observed(d, false).procs)
  {
    var d := Device(4 * MIB, MIB, 3 * MIB, [BUSY]);
    assert OwnedMiB(d.procs) == 1 by { assert d.procs[..0] == []; }
    ViewAt(d.procs, true);
    TrimmedAlready(BUSY.name);
    SeenExactIff(BUSY, true);
    assert Observed(d, true).procs == d.procs;
    FindAt(d.procs, 0);
    ViewFind(d.procs, false, 7);
    assert Find(Observed(d, false).procs, 7) == Some(Plain(BUSY));
    OnePidConflictIff(d.procs, 7, None, Observed(d, false).procs);
  }

  /** Two disjoint edits in both orders, each with its own telemetry outcomes: if
      all four commits go through, used and free memory end up the same, and so do
      all records apart from telemetry; telemetry too if every query worked. */
  lemma DisjointEditsOnDevice(before: Procs, one: Procs, two: Procs, d: Device, a: bool, b: bool, x: bool, y: bool)
    requires WellFormed(d) && Disjoint(before, one, two)
    requires Succeeds(Edit(before, one), d, a) && Succeeds(Edit(before, two), Atomic(Edit(before, one), d, a), b)
    requires Succeeds(Edit(before, two), d, x) && Succeeds(Edit(before, one), Atomic(Edit(before, two), d, x), y)
    ensures var oneTwo := Atomic(Edit(before, two), Atomic(Edit(before, one), d, a), b);
            var twoOne := Atomic(Edit(before, one), Atomic(Edit(before, two), d, x), y);
            && oneTwo.used == twoOne.used && oneTwo.free == twoOne.free
            && multiset(Observed(oneTwo, false).procs) == multiset(Observed(twoOne, false).procs)
            && (a && b && x && y ==> multiset(Observed(oneTwo, true).procs) == multiset(Observed(twoOne, true).procs))
  {
    TwoEdits(before, one, two, d, a, b);
    TwoEdits(before, two, one, d, x, y);
    SameAfterBoth(before, one, two, d, a, b, x, y, false);
    if a && b && x && y { SameAfterBoth(before, one, two, d, a, b, x, y, true); }
  }

  lemma SameAfterBoth(before: Procs, one: Procs, two: Procs, d: Device, a: bool, b: bool, x: bool, y: bool, again: bool)
    requires WellFormed(d) && Disjoint(before, one, two) && (again ==> a && b && x && y)
    requires Succeeds(Edit(before, one), d, a) && Succeeds(Edit(before, two), Atomic(Edit(before, one), d, a), b)
    requires Succeeds(Edit(before, two), d, x) && Succeeds(Edit(before, one), Atomic(Edit(before, two), d, x), y)
    ensures var oneTwo := Atomic(Edit(before, two), Atomic(Edit(before, one), d, a), b);
            var twoOne := Atomic(Edit(before, one), Atomic(Edit(before, two), d, x), y);
            && multiset(Observed(oneTwo, again).procs) == multiset(Observed(twoOne, again).procs)
            && Owned(oneTwo.procs) == Owned(twoOne.procs)
  {
    var oneTwo := Atomic(Edit(before, two), Atomic(Edit(before, one), d, a), b);
    var twoOne := Atomic(Edit(before, one), Atomic(Edit(before, two), d, x), y);
    AtomicKeeps(Edit(before, one), d, a);
    AtomicKeeps(Edit(before, two), d, x);
    AtomicKeeps(Edit(before, two), Atomic(Edit(before, one), d, a), b);
    AtomicKeeps(Edit(before, one), Atomic(Edit(before, two), d, x), y);
    ObservedWellFormed(oneTwo, again);
    ObservedWellFormed(twoOne, again);
    forall pid: u32 ensures Find(Observed(oneTwo, again).procs, pid) == Find(Observed(twoOne, again).procs, pid) {
      assert !(Touched(before, one, pid) && Touched(before, two, pid));
      SeenAfterBoth(before, one, two, d, a, b, again, pid);
      SeenAfterBoth(before, two, one, d, x, y, again, pid);
    }
    SameRecordsSamePermutation(Observed(oneTwo, again).procs, Observed(twoOne, again).procs);
  }

  lemma SeenAfterBoth(before: Procs, one: Procs, two: Procs, d: Device, a: bool, b: bool, again: bool, pid: u32)
    requires !(Touched(before, one, pid) && Touched(before, two, pid)) && (again ==> a && b)
    requires Succeeds(Edit(before, one), d, a)
    requires Succeeds(Edit(before, two), Atomic(Edit(before, one), d, a), b)
    ensures Find(Observed(Atomic(Edit(before, two), Atomic(Edit(before, one), d, a), b), again).procs, pid)
         == if Touched(before, two, pid) then SeenOf(Find(two, pid), again)
            else if Touched(before, one, pid) then SeenOf(Find(one, pid), again)
            else SeenOf(Find(d.procs, pid), again)
  {
    var d1 := Atomic(Edit(before, one), d, a);
    SeenAfterEdit(before, one, d, a, b && again, pid);
    SeenAfterEdit(before, two, d1, b, again, pid);
    ViewFind(d1.procs, b && again, pid);
  }

  /** The counters after two edits depend on the first read and the final list. */
  lemma TwoEdits(before: Procs, one: Procs, two: Procs, d: Device, a: bool, b: bool)
    requires WellFormed(d) && Succeeds(Edit(before, one), d, a)
    requires Succeeds(Edit(before, two), Atomic(Edit(before, one), d, a), b)
    ensures var o, d2 := Observed(d, a), Atomic(Edit(before, two), Atomic(Edit(before, one), d, a), b);
            && WellFormed(d2)
            && d2.used == NonProcess(Observed(d, false)) + Owned(d2.procs)
                && d2.free == Pool(Observed(d, false)) - d2.used
  {
    var d1 := Atomic(Edit(before, one), d, a);
    AtomicKeeps(Edit(before, one), d, a);
    AtomicKeeps(Edit(before, two), d1, b);
    CountersWhole(Edit(before, one), d, a, b);
    ObservedWellFormed(d, a);
    ObservedWellFormed(d, false);
    ObservedWellFormed(d1, b);
  }

  lemma CountersWhole(op: Op, d: Device, works: bool, again: bool)
    requires WellFormed(d) && op.Edit? && Succeeds(op, d, works)
    ensures var d', o := Atomic(op, d, works), Observed(Atomic(op, d, works), again);
            o.used == d'.used && o.free == d'.free
  {
    ObservedWellFormed(d, works);
    PlanWhole(op, Observed(d, works));
    FloorExact(Atomic(op, d, works).used);
    FloorExact(Atomic(op, d, works).free);
  }

  // ---------- an edit of one PID over a whole trace ----------

  /** A snapshot is taken at `k`, and an edit of one PID made from it commits at
      `n`, nobody having edited that PID in between.  It is refused as a conflict
      exactly when it changes a record with utilization and the telemetry is there
      in one of the two reads only: the snapshot's query worked, and the fresh read
      failed or another edit in between had wiped it; or the other way round. */
  lemma TelemetryConflictIff(t: Trace, k: nat, n: nat, g: Gpu, pid: u32, rec: Option<Process>, works: bool, again: bool)
    requires t.Valid() && k <= n < |t.devs| && g < |t.devs[k]| && Quietly(t, k, n, g, pid)
    requires Distinct(t.devs[k][g].procs) && Names(rec, pid)
    ensures g < |t.devs[n]|
    ensures var before, p := Observed(t.devs[k][g], works).procs, Find(t.devs[k][g].procs, pid);
            !Compatible(before, Desired(before, pid, rec), Observed(t.devs[n][g], again).procs)
            <==> && rec != SeenOf(p, works) && works != (again && PmonWorked(t, k, n, g))
                 && p.Some? && !Idle(Canon(p.value))
  {
    RecordPersists(t, k, n, g, pid);
    var before, p := Observed(t.devs[k][g], works).procs, Find(t.devs[k][g].procs, pid);
    ViewDistinct(t.devs[k][g].procs, Telemetry(t.devs[k][g].procs, works));
    OnePidConflictIff(before, pid, rec, Observed(t.devs[n][g], again).procs);
    ViewFind(t.devs[k][g].procs, works, pid);
    ViewFind(t.devs[n][g].procs, again, pid);
    if p.Some? { PlainIffIdle(p.value, true); }
  }

  // ---------- the locked path and the direct path ----------

  /** Merging an edit into the very list it was made from gives the desired
      records, perhaps in another order. */
  lemma SelfMerge(s: Procs, desired: Procs)
    requires Distinct(s) && Distinct(desired)
    ensures Rebased(s, desired, s) == Some(Merged(s, desired, s))
    ensures multiset(Merged(s, desired, s)) == multiset(desired)
    ensures OwnedMiB(Merged(s, desired, s)) == OwnedMiB(desired)
  {
    var merged := Merged(s, desired, s);
    MergeIsThreeWay(s, desired, s);
    forall pid: u32 ensures Find(merged, pid) == Find(desired, pid) {
      assert !Touched(s, desired, pid) ==> Find(s, pid) == Find(desired, pid);
    }
    SameRecordsSamePermutation(merged, desired);
  }

  /** When nothing changed since the snapshot `o`, merging and writing directly
      accept the same duplicate-free lists, with the same counters and the same
      records up to order.  A repeated PID is refused by the merge alone. */
  lemma DirectPathAgrees(o: Device, desired: Procs)
    requires Distinct(o.procs)
    ensures Distinct(desired) ==>
              var locked, direct := Plan(Edit(o.procs, desired), o), Reconciled(o, desired);
              && (locked.Some? <==> direct.Some?)
              && (locked.Some? ==>
                    && locked.value.used == direct.value.used && locked.value.free == direct.value.free
                    && multiset(locked.value.procs) == multiset(direct.value.procs))
    ensures !Distinct(desired) ==> Plan(Edit(o.procs, desired), o).None?
  {
    if Distinct(desired) {
      SelfMerge(o.procs, desired);
      ValidPermutation(Merged(o.procs, desired, o.procs), desired);
      ReconciledAlike(o, Merged(o.procs, desired, o.procs), desired);
    }
  }

  lemma ReconciledAlike(o: Device, a: Procs, b: Procs)
    requires OwnedMiB(a) == OwnedMiB(b) && (AllValid(a) <==> AllValid(b))
    ensures Reconciled(o, a).Some? <==> Reconciled(o, b).Some?
    ensures Reconciled(o, a).Some? ==>
              && Reconciled(o, a).value.used == Reconciled(o, b).value.used
              && Reconciled(o, a).value.free == Reconciled(o, b).value.free
              && Reconciled(o, a).value.procs == a && Reconciled(o, b).value.procs == b
  {
  }

  lemma ValidPermutation(a: Procs, b: Procs)
    requires multiset(a) == multiset(b)
    ensures AllValid(a) <==> AllValid(b)
  {
    forall i | 0 <= i < |b| ensures b[i] in a {
      assert b[i] in multiset(a);
    }
    forall i | 0 <= i < |a| ensures a[i] in b {
      assert a[i] in multiset(b);
    }
  }
}
