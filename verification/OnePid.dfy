/** One edit of one PID on one device: what it shows afterwards, and what it
    leaves alone whatever fails. */
module OnePid {
  import opened Accounting
  import opened Text
  import opened Rebase
  import opened Operations
  import opened SinglePid
  import opened Commuting

  // ---------- records as a reader reports them ----------

  function SeenAll(s: Procs, works: bool): (r: Procs)
    ensures |r| == |s| && forall i :: 0 <= i < |s| ==> r[i] == Seen(s[i], works)
  {
    seq(|s|, i requires 0 <= i < |s| => Seen(s[i], works))
  }

  lemma ObservedProcs(d: Device, works: bool)
    requires Distinct(d.procs)
    ensures Observed(d, works).procs == SeenAll(d.procs, works)
  {
    ViewAt(d.procs, works);
  }

  lemma SeenAllAgain(s: Procs, first: bool, second: bool)
    ensures SeenAll(SeenAll(s, first), second) == SeenAll(s, first && second)
  {
    forall i | 0 <= i < |s| ensures SeenAll(SeenAll(s, first), second)[i] == SeenAll(s, first && second)[i] {
      SeenAgain(s[i], first, second);
    }
  }

  lemma {:induction false} SeenAllWithout(s: Procs, works: bool, pid: u32)
    ensures Without(SeenAll(s, works), pid) == SeenAll(Without(s, pid), works)
  {
    if s != [] {
      var n := |s| - 1;
      SeenAllWithout(s[..n], works, pid);
      assert SeenAll(s, works)[..n] == SeenAll(s[..n], works);
      var kept := if s[n].pid == pid then [] else [s[n]];
      assert Without(s, pid) == Without(s[..n], pid) + kept;
      assert SeenAll(Without(s[..n], pid) + kept, works) == SeenAll(Without(s[..n], pid), works) + SeenAll(kept, works);
    }
  }

  /** Every record is as a reader would report it. */
  predicate Canonical(s: Procs) { forall i :: 0 <= i < |s| ==> Canon(s[i]) == s[i] }

  ghost predicate CanonicalRecord(rec: Option<Process>) { rec.Some? ==> Canon(rec.value) == rec.value }

  /** Counters and records that read back as they are. */
  ghost predicate Plainly(o: Device) { WellFormed(o) && Aligned(o) && Canonical(o.procs) }

  lemma SeePlainly(d: Device)
    requires WellFormed(d)
    ensures Plainly(Observed(d, true))
  {
    ObservedWellFormed(d, true);
    ObservedProcs(d, true);
    SeenAllAgain(d.procs, true, true);
    var once := SeenAll(d.procs, true);
    forall i | 0 <= i < |once| ensures Canon(once[i]) == once[i] {
      assert SeenAll(once, true)[i] == Canon(once[i]);
    }
  }

  // ---------- a device with another record for one PID ----------

  /** `o` with another process list, non-process usage and pool as they are. */
  ghost function Settled(o: Device, procs: Procs): Device
    requires WellFormed(o) && Owned(procs) <= o.free + Owned(o.procs)
  {
    Device(o.total, NonProcess(o) + Owned(procs), Pool(o) - (NonProcess(o) + Owned(procs)), procs)
  }

  ghost predicate Room(o: Device, pid: u32, rec: Option<Process>) {
    Owned(Changed(o.procs, pid, rec)) <= o.free + Owned(o.procs)
  }

  ghost predicate Fits(o: Device, pid: u32, rec: Option<Process>) {
    (rec.Some? ==> ValidProcess(rec.value)) && Room(o, pid, rec)
  }

  /** `o` holding `rec` for `pid`, or no record. */
  ghost function Held(o: Device, pid: u32, rec: Option<Process>): Device
    requires WellFormed(o) && Room(o, pid, rec)
  {
    Settled(o, Changed(o.procs, pid, rec))
  }

  function MemoryOf(rec: Option<Process>): nat { if rec.None? then 0 else rec.value.memMiB }

  lemma ChangedOwned(s: Procs, pid: u32, rec: Option<Process>)
    requires Distinct(s) && Names(rec, pid)
    ensures OwnedMiB(Changed(s, pid, rec)) == OwnedMiB(s) - HeldMiB(s, pid) + MemoryOf(rec)
  {
    if rec.Some? { PutOwned(s, rec.value); } else { WithoutOwned(s, pid); }
  }

  lemma ChangedFacts(s: Procs, pid: u32, rec: Option<Process>)
    requires Distinct(s) && AllValid(s) && Names(rec, pid)
    ensures Rebased(s, Desired(s, pid, rec), s) == Some(Changed(s, pid, rec))
    ensures Distinct(Changed(s, pid, rec)) && Find(Changed(s, pid, rec), pid) == rec
    ensures AllValid(Changed(s, pid, rec)) <==> (rec.Some? ==> ValidProcess(rec.value))
    ensures Without(Changed(s, pid, rec), pid) == Without(s, pid)
  {
    if rec.Some? { PutFacts(s, rec.value); } else { WithoutFacts(s, pid); }
  }

  lemma PutFacts(s: Procs, rec: Process)
    requires Distinct(s) && AllValid(s)
    ensures var r := Put(s, rec);
            && Rebased(s, Without(s, rec.pid) + [rec], s) == Some(r) && Distinct(r)
            && (AllValid(r) <==> ValidProcess(rec))
            && Without(r, rec.pid) == Without(s, rec.pid) && Find(r, rec.pid) == Some(rec)
  {
    MergePut(s, rec);
    PutDistinct(s, rec);
    PutValid(s, rec);
    PutApart(s, rec);
    PutFind(s, rec, rec.pid);
  }

  lemma WithoutFacts(s: Procs, pid: u32)
    requires Distinct(s) && AllValid(s)
    ensures var r := Without(s, pid);
            && Rebased(s, r, s) == Some(r) && Distinct(r) && AllValid(r)
            && Without(r, pid) == r && Find(r, pid).None?
  {
    MergeWithout(s, pid);
    WithoutDistinct(s, pid);
    WithoutValid(s, pid);
    WithoutTwice(s, pid);
    WithoutFind(s, pid, pid);
  }

  /** A record written raw into a canonical list is read as its canonical form. */
  lemma ChangedSeen(s: Procs, pid: u32, rec: Option<Process>)
    requires Distinct(s) && Canonical(s) && Names(rec, pid)
    ensures SeenAll(Changed(s, pid, rec), true) == Changed(s, pid, SeenOf(rec, true))
    ensures CanonicalRecord(SeenOf(rec, true)) && Canonical(Changed(s, pid, SeenOf(rec, true)))
  {
    if rec.Some? {
      SeenAgain(rec.value, true, true);
      assert SeenAll(Put(s, rec.value), true) == Put(s, Canon(rec.value));
    } else {
      SeenAllWithout(s, true, pid);
      assert SeenAll(s, true) == s;
      assert forall i :: 0 <= i < |Without(s, pid)| ==>
          SeenAll(Without(s, pid), true)[i] == Seen(Without(s, pid)[i], true);
    }
  }

  /** The memory of the PID's record, and nothing else, decides whether it fits. */
  lemma RoomOfSeen(o: Device, pid: u32, rec: Option<Process>)
    requires Distinct(o.procs) && Names(rec, pid)
    ensures Room(o, pid, rec) <==> Room(o, pid, SeenOf(rec, true))
    ensures Fits(o, pid, rec) ==> Fits(o, pid, SeenOf(rec, true))
    ensures Owned(Changed(o.procs, pid, rec)) == Owned(Changed(o.procs, pid, SeenOf(rec, true)))
  {
    ChangedOwned(o.procs, pid, rec);
    ChangedOwned(o.procs, pid, SeenOf(rec, true));
  }

  lemma SettledPlainly(o: Device, procs: Procs)
    requires Plainly(o) && Distinct(procs) && AllValid(procs) && Canonical(procs)
    requires Owned(procs) <= o.free + Owned(o.procs)
    ensures var s := Settled(o, procs); Plainly(s) && NonProcess(s) == NonProcess(o) && Pool(s) == Pool(o)
  {
    WholeSum(o.used, Owned(o.procs));
    WholeSum(NonProcess(o), Owned(procs));
    WholeSum(o.used, o.free);
    WholeSum(Pool(o), NonProcess(o) + Owned(procs));
  }

  lemma HeldPlainly(o: Device, pid: u32, rec: Option<Process>)
    requires Plainly(o) && Names(rec, pid) && CanonicalRecord(rec) && Fits(o, pid, rec)
    ensures var h := Held(o, pid, rec);
            Plainly(h) && Find(h.procs, pid) == rec && NonProcess(h) == NonProcess(o) && Pool(h) == Pool(o)
  {
    var list := Changed(o.procs, pid, rec);
    assert Distinct(list) && AllValid(list) && Find(list, pid) == rec by { ChangedFacts(o.procs, pid, rec); }
    assert Canonical(list) by {
      ChangedSeen(o.procs, pid, rec);
      assert SeenOf(rec, true) == rec;
    }
    SettledPlainly(o, list);
  }

  lemma PutAgain(s: Procs, first: Process, second: Process)
    requires Distinct(s) && first.pid == second.pid
    ensures Put(Put(s, first), second) == Put(s, second)
  {
    var i, t := IndexOf(s, first.pid), Put(s, first);
    PutDistinct(s, first);
    FindAt(t, if i < 0 then |s| else i);
  }

  lemma ChangedAgain(s: Procs, pid: u32, first: Option<Process>, second: Option<Process>)
    requires Distinct(s) && Names(first, pid) && Names(second, pid)
    requires first.Some? || Find(s, pid).None?
    ensures Changed(Changed(s, pid, first), pid, second) == Changed(s, pid, second)
  {
    if first.None? {
      WithoutAbsent(s, pid);
    } else if second.None? {
      PutApart(s, first.value);
    } else {
      PutAgain(s, first.value, second.value);
    }
  }

  /** Holding one record and then another is holding the other: that is what makes
      compensation exact, however often the same GPU comes up. */
  lemma HeldAgain(o: Device, pid: u32, first: Option<Process>, second: Option<Process>)
    requires Plainly(o) && Names(first, pid) && Names(second, pid) && CanonicalRecord(first)
    requires Fits(o, pid, first) && (first.Some? || Find(o.procs, pid).None?)
    ensures WellFormed(Held(o, pid, first))
    ensures Room(Held(o, pid, first), pid, second) <==> Room(o, pid, second)
    ensures Room(o, pid, second) ==> Held(Held(o, pid, first), pid, second) == Held(o, pid, second)
  {
    assert WellFormed(Held(o, pid, first)) by { HeldPlainly(o, pid, first); }
    ChangedAgain(o.procs, pid, first, second);
    SettledAgain(o, Changed(o.procs, pid, first), Changed(o.procs, pid, second));
  }

  lemma SettledAgain(o: Device, first: Procs, second: Procs)
    requires WellFormed(o) && Owned(first) <= o.free + Owned(o.procs) && WellFormed(Settled(o, first))
    ensures var h := Settled(o, first);
            && (Owned(second) <= h.free + Owned(h.procs) <==> Owned(second) <= o.free + Owned(o.procs))
            && (Owned(second) <= o.free + Owned(o.procs) ==> Settled(h, second) == Settled(o, second))
  {
  }

  /** A device holds what it holds. */
  lemma HeldSelf(o: Device, pid: u32)
    requires Plainly(o)
    ensures var rec := Find(o.procs, pid);
            Names(rec, pid) && CanonicalRecord(rec) && Fits(o, pid, rec) && Held(o, pid, rec) == o
  {
    var i := IndexOf(o.procs, pid);
    if i < 0 {
      WithoutAbsent(o.procs, pid);
    } else {
      assert ValidProcess(o.procs[i]) && o.procs[i := o.procs[i]] == o.procs;
    }
  }

  // ---------- with and without telemetry ----------

  /** What is shown plainly is the same without telemetry but for the records, and
      those are shown plainly too. */
  lemma SeenPlainly(o: Device, works: bool)
    requires Plainly(o)
    ensures Plainly(Observed(o, works)) && Observed(o, works) == o.(procs := SeenAll(o.procs, works))
    ensures Owned(Observed(o, works).procs) == Owned(o.procs) && Observed(o, true) == o
  {
    ObservedWellFormed(o, works);
    ObservedProcs(o, works);
    ObservedProcs(o, true);
    FloorExact(o.total);
    FloorExact(o.used);
    FloorExact(o.free);
    assert SeenAll(o.procs, true) == o.procs;
    var s := SeenAll(o.procs, works);
    SeenAllAgain(o.procs, works, true);
    forall i | 0 <= i < |s| ensures Canon(s[i]) == s[i] {
      assert SeenAll(s, true)[i] == Canon(s[i]);
    }
  }

  lemma ObservedAgain(d: Device, first: bool, second: bool)
    requires Distinct(d.procs)
    ensures Observed(Observed(d, first), second) == Observed(d, first && second)
  {
    ViewDistinct(d.procs, Telemetry(d.procs, first));
    ObservedProcs(d, first);
    ObservedProcs(Observed(d, first), second);
    ObservedProcs(d, first && second);
    SeenAllAgain(d.procs, first, second);
    FloorExact(Floor(d.total));
    FloorExact(Floor(d.used));
    FloorExact(Floor(d.free));
  }

  lemma RoomSeen(o: Device, works: bool, pid: u32, rec: Option<Process>)
    requires Plainly(o) && Names(rec, pid)
    ensures Room(Observed(o, works), pid, rec) <==> Room(o, pid, rec)
  {
    SeenPlainly(o, works);
    ViewFind(o.procs, works, pid);
    ChangedOwned(o.procs, pid, rec);
    ChangedOwned(Observed(o, works).procs, pid, rec);
  }

  lemma ChangedSeenBy(s: Procs, pid: u32, rec: Option<Process>, works: bool)
    requires Distinct(s) && Names(rec, pid)
    ensures SeenAll(Changed(s, pid, rec), works) == Changed(SeenAll(s, works), pid, SeenOf(rec, works))
  {
    if rec.Some? {
      SamePids(SeenAll(s, works), s, pid);
      assert SeenAll(Put(s, rec.value), works) == Put(SeenAll(s, works), Seen(rec.value, works));
    } else {
      SeenAllWithout(s, works, pid);
    }
  }

  lemma SettledSeenBy(o: Device, list: Procs, works: bool)
    requires Plainly(o) && Owned(list) <= o.free + Owned(o.procs) && Plainly(Settled(o, list))
    ensures var now := Observed(o, works); Plainly(now) && Owned(SeenAll(list, works)) <= now.free + Owned(now.procs)
    ensures Observed(Settled(o, list), works) == Settled(Observed(o, works), SeenAll(list, works))
  {
    SeenPlainly(o, works);
    SeenPlainly(Settled(o, list), works);
  }

  /** Holding a record and being seen without telemetry is holding that record
      without telemetry. */
  lemma HeldSeen(o: Device, pid: u32, rec: Option<Process>, works: bool)
    requires Plainly(o) && Names(rec, pid) && CanonicalRecord(rec) && Fits(o, pid, rec)
    ensures Plainly(Observed(o, works)) && Fits(Observed(o, works), pid, SeenOf(rec, works))
    ensures Observed(Held(o, pid, rec), works) == Held(Observed(o, works), pid, SeenOf(rec, works))
  {
    var list := Changed(o.procs, pid, rec);
    assert Plainly(Settled(o, list)) by { HeldPlainly(o, pid, rec); }
    SettledSeenBy(o, list, works);
    assert Observed(o, works).procs == SeenAll(o.procs, works) by { SeenPlainly(o, works); }
    assert SeenAll(list, works) == Changed(SeenAll(o.procs, works), pid, SeenOf(rec, works)) by {
      ChangedSeenBy(o.procs, pid, rec, works);
    }
  }

  // ---------- the edit made from what is shown right now ----------

  /** The PID's record after an edit asked for `rec`: with `held` there, the
      snapshot was read with telemetry or not (`first`), and so was the fresh state
      the edit is merged into (`again`). */
  ghost function RecordAfter(held: Option<Process>, first: bool, rec: Option<Process>, again: bool): Option<Process> {
    if SeenOf(held, first) == rec then SeenOf(held, again) else SeenOf(rec, true)
  }

  /** It looks as if somebody else had changed the record in between. */
  ghost predicate Contested(held: Option<Process>, first: bool, rec: Option<Process>, again: bool) {
    SeenOf(held, first) != rec && SeenOf(held, again) != SeenOf(held, first)
  }

  lemma ReconciledSettles(o: Device, list: Procs)
    requires WellFormed(o)
    ensures Reconciled(o, list).Some? <==> AllValid(list) && Owned(list) <= o.free + Owned(o.procs)
    ensures Reconciled(o, list).Some? ==>
              var s := Settled(o, list);
              Reconciled(o, list).value == SetProcesses(list, s.used, s.free)
  {
  }

  lemma PlanOfMerged(o: Device, before: Procs, desired: Procs)
    ensures var merged := Rebased(before, desired, o.procs);
            Plan(Edit(before, desired), o) == if merged.None? then None else Reconciled(o, merged.value)
  {
  }

  /** Asking for what is there anyway fits. */
  lemma AsSeenFits(o: Device, pid: u32, works: bool)
    requires Plainly(o)
    ensures var rec := SeenOf(Find(o.procs, pid), works); Names(rec, pid) && Fits(o, pid, rec)
  {
    var held := Find(o.procs, pid);
    var rec := SeenOf(held, works);
    HeldSelf(o, pid);
    ChangedOwned(o.procs, pid, held);
    ChangedOwned(o.procs, pid, rec);
  }

  /** An edit that asks for what its snapshot showed writes the fresh state back, ... */
  lemma PlanUnchanged(before: Procs, now: Device, pid: u32, rec: Option<Process>)
    requires Distinct(before) && WellFormed(now) && Names(rec, pid) && Find(before, pid) == rec
    ensures Plan(Edit(before, Desired(before, pid, rec)), now) == Some(SetProcesses(now.procs, now.used, now.free))
  {
    MergeOnePid(before, pid, rec, now.procs);
    PlanOfMerged(now, before, Desired(before, pid, rec));
    ReconciledSettles(now, now.procs);
  }

  /** ... and any other is planned exactly when it fits and the fresh state has the
      same record as the snapshot. */
  lemma PlanChanged(before: Procs, now: Device, pid: u32, rec: Option<Process>)
    requires Distinct(before) && WellFormed(now) && Names(rec, pid) && Find(before, pid) != rec
    ensures var plan := Plan(Edit(before, Desired(before, pid, rec)), now);
            && (plan.Some? <==> Find(now.procs, pid) == Find(before, pid) && Fits(now, pid, rec))
            && (plan.Some? ==>
                  var h := Held(now, pid, rec);
                  plan.value == SetProcesses(Changed(now.procs, pid, rec), h.used, h.free))
  {
    OnePidConflictIff(before, pid, rec, now.procs);
    PlanOfMerged(now, before, Desired(before, pid, rec));
    if Find(now.procs, pid) == Find(before, pid) {
      MergeOnePid(before, pid, rec, now.procs);
      ChangedFacts(now.procs, pid, rec);
      ReconciledSettles(now, Changed(now.procs, pid, rec));
    }
  }

  lemma FitsSeen(o: Device, works: bool, pid: u32, rec: Option<Process>)
    requires Plainly(o) && Names(rec, pid)
    ensures Fits(Observed(o, works), pid, rec) <==> Fits(o, pid, rec)
  {
    RoomSeen(o, works, pid, rec);
  }

  /** Exactly when an edit of one PID made from what is shown goes through, and what
      is shown then: the PID's record as `RecordAfter` tells, and everything else
      as it was read. */
  lemma EditOnePid(d: Device, pid: u32, rec: Option<Process>, first: bool, again: bool)
    requires WellFormed(d) && Names(rec, pid)
    ensures var o, before := Observed(d, true), Observed(d, first).procs;
            var op, held := Edit(before, Desired(before, pid, rec)), Find(o.procs, pid);
            && Plainly(o)
            && (Succeeds(op, d, again) <==> Fits(o, pid, rec) && !Contested(held, first, rec, again))
            && (Succeeds(op, d, again) ==>
                  Settles(o, pid, held, first, rec, again, Observed(Atomic(op, d, again), true)))
  {
    var o, before, now := Observed(d, true), Observed(d, first).procs, Observed(d, again);
    var held := Find(o.procs, pid);
    SeePlainly(d);
    ObservedAgain(d, true, first);
    ObservedAgain(d, true, again);
    ViewFind(o.procs, first, pid);
    ViewFind(o.procs, again, pid);
    assert Distinct(before) by { ObservedWellFormed(d, first); }
    assert Plainly(now) by { SeenPlainly(o, again); }
    if SeenOf(held, first) == rec {
      AsSeenFits(o, pid, first);
      PlanUnchanged(before, now, pid, rec);
      AsItWas(d, before, Desired(before, pid, rec), now, pid, again);
    } else {
      PlanChanged(before, now, pid, rec);
      FitsSeen(o, again, pid, rec);
      if Succeeds(Edit(before, Desired(before, pid, rec)), d, again) { WrittenSeen(d, now, pid, rec); }
    }
  }

  lemma AsItWas(d: Device, before: Procs, desired: Procs, now: Device, pid: u32, again: bool)
    requires now == Observed(d, again) && Plainly(now)
    requires Plan(Edit(before, desired), now) == Some(SetProcesses(now.procs, now.used, now.free))
    ensures var rec, shown := Find(now.procs, pid), Observed(Atomic(Edit(before, desired), d, again), true);
            Room(now, pid, rec) && shown == Held(now, pid, rec)
  {
    HeldSelf(now, pid);
    assert SeenAll(now.procs, true) == now.procs;
    SettledSeen(d, now.procs, now);
  }

  /** `shown` is `o` as last read, holding the PID's record. */
  ghost predicate Settles(o: Device, pid: u32, held: Option<Process>, first: bool, rec: Option<Process>, again: bool,
                          shown: Device) {
    var now, after := Observed(o, again), RecordAfter(held, first, rec, again);
    WellFormed(now) && Room(now, pid, after) && shown == Held(now, pid, after)
  }

  lemma WrittenSeen(d: Device, o: Device, pid: u32, rec: Option<Process>)
    requires Plainly(o) && o.total == Floor(d.total) && Names(rec, pid) && Fits(o, pid, rec)
    ensures Room(o, pid, SeenOf(rec, true))
    ensures var list, h := Changed(o.procs, pid, rec), Held(o, pid, rec);
            Observed(Commit(d, SetProcesses(list, h.used, h.free)), true) == Held(o, pid, SeenOf(rec, true))
  {
    var seen, list := SeenOf(rec, true), Changed(o.procs, pid, rec);
    RoomOfSeen(o, pid, rec);
    assert Distinct(list) by { ChangedFacts(o.procs, pid, rec); }
    assert CanonicalRecord(seen) && SeenAll(list, true) == Changed(o.procs, pid, seen) by {
      ChangedSeen(o.procs, pid, rec);
    }
    var h, h' := Held(o, pid, rec), Held(o, pid, seen);
    assert Plainly(h') by { HeldPlainly(o, pid, seen); }
    assert h.used == h'.used && h.free == h'.free;
    SettledSeen(d, list, h');
  }

  /** A plainly readable state, written with raw records that read as its own, is
      what is shown. */
  lemma SettledSeen(d: Device, list: Procs, h: Device)
    requires Plainly(h) && h.total == Floor(d.total) && Distinct(list) && SeenAll(list, true) == h.procs
    ensures Observed(Commit(d, SetProcesses(list, h.used, h.free)), true) == h
  {
    ObservedProcs(Commit(d, SetProcesses(list, h.used, h.free)), true);
    FloorExact(h.used);
    FloorExact(h.free);
  }

  /** The early capacity test, made on the snapshot, fires exactly when the final
      one would. */
  lemma EarlyTestIff(o: Device, rec: Process)
    requires WellFormed(o)
    ensures Room(o, rec.pid, Some(rec)) <==>
              !(rec.memMiB * MIB > HeldMiB(o.procs, rec.pid) * MIB
                && rec.memMiB * MIB - HeldMiB(o.procs, rec.pid) * MIB > o.free)
  {
    PutOwned(o.procs, rec);
  }

  lemma OwnedAtLeast(s: Procs, pid: u32)
    ensures HeldMiB(s, pid) <= OwnedMiB(s)
  {
    var i := IndexOf(s, pid);
    if i >= 0 { OwnedSplit(s, i); }
  }

  /** The capacity test made on the snapshot, before anything is written. */
  method EarlyTest(before: Device, prior: Option<Process>, rec: Process) returns (r: Result<()>)
    requires WellFormed(before) && prior == Find(before.procs, rec.pid)
    ensures r == if rec.memMiB * MIB > MAX64 then Err(Overflow)
                 else if Room(before, rec.pid, Some(rec)) then Ok(()) else Err(OutOfMemory)
    ensures r.Ok? <==> Room(before, rec.pid, Some(rec))
  {
    OwnedAtLeast(before.procs, rec.pid);
    EarlyTestIff(before, rec);
    var oldBytes: u64 := 0;
    if prior.Some? {
      if prior.value.memMiB > MAX64 / MIB { return Err(Overflow); }
      oldBytes := prior.value.memMiB * MIB;
    }
    if rec.memMiB > MAX64 / MIB { return Err(Overflow); }
    var newBytes: u64 := rec.memMiB * MIB;
    if newBytes > oldBytes && newBytes - oldBytes > before.free { return Err(OutOfMemory); }
    return Ok(());
  }

  // ---------- whatever fails ----------

  /** Everything on the device except `pid`'s own record and memory. */
  ghost predicate Apart(o: Device, o': Device, pid: u32) {
    && Without(o'.procs, pid) == Without(o.procs, pid)
    && NonProcess(o') == NonProcess(o) && Pool(o') == Pool(o) && o'.total == o.total
  }

  /** Apart from `pid` nothing changed; with `pid` absent before and after,
      nothing changed at all. */
  lemma ApartAbsent(o: Device, o': Device, pid: u32)
    requires Apart(o, o', pid) && Find(o.procs, pid).None? && Find(o'.procs, pid).None?
    ensures o' == o
  {
    WithoutAbsent(o.procs, pid);
    WithoutAbsent(o'.procs, pid);
  }

  lemma AbsentShown(d: Device, works: bool, pid: u32)
    ensures Find(Observed(d, works).procs, pid).None? <==> Find(d.procs, pid).None?
  {
    ViewFind(d.procs, works, pid);
  }

  /** A committed edit of one PID, however stale its snapshot and whatever became
      of the telemetry queries, shows nothing different apart from that PID: other
      records keep PID, name, memory and order, and their telemetry if its read had
      any; non-process usage, pool and total are shown as before. */
  lemma EditLeavesRest(d: Device, before: Procs, pid: u32, rec: Option<Process>, works: bool, again: bool)
    requires WellFormed(d) && Names(rec, pid) && (again ==> works)
    requires Succeeds(Edit(before, Desired(before, pid, rec)), d, works)
    ensures Apart(Observed(d, again), Observed(Atomic(Edit(before, Desired(before, pid, rec)), d, works), again), pid)
  {
    var op := Edit(before, Desired(before, pid, rec));
    var d' := Atomic(op, d, works);
    AtomicKeeps(op, d, works);
    CountersWhole(op, d, works, again);
    ObservedWellFormed(d, works);
    ObservedWellFormed(d, again);
    ObservedWellFormed(d', again);
    RecordsLeft(d, before, pid, rec, works, again);
  }

  lemma RecordsLeft(d: Device, before: Procs, pid: u32, rec: Option<Process>, works: bool, again: bool)
    requires WellFormed(d) && Names(rec, pid) && (again ==> works)
    requires Succeeds(Edit(before, Desired(before, pid, rec)), d, works)
    ensures Without(Observed(Atomic(Edit(before, Desired(before, pid, rec)), d, works), again).procs, pid)
         == Without(Observed(d, again).procs, pid)
  {
    var desired, o := Desired(before, pid, rec), Observed(d, works);
    var merged := Merged(before, desired, o.procs);
    var d' := Atomic(Edit(before, desired), d, works);
    assert d'.procs == merged && Distinct(merged) by { AtomicKeeps(Edit(before, desired), d, works); }
    assert Without(merged, pid) == SeenAll(Without(d.procs, pid), works) by {
      DesiredOnly(before, pid, rec);
      MergeApart(before, desired, o.procs, pid);
      ObservedProcs(d, works);
      SeenAllWithout(d.procs, works, pid);
    }
    ObservedProcs(d, again);
    ObservedProcs(d', again);
    SeenAllWithout(merged, again, pid);
    SeenAllWithout(d.procs, again, pid);
    SeenAllAgain(Without(d.procs, pid), works, again);
  }

  /** After the edit the device is legible exactly when the record's name is. */
  lemma RecordLegibleIff(d: Device, before: Procs, pid: u32, rec: Option<Process>, works: bool)
    requires Legible(d) && Distinct(before) && Names(rec, pid)
    requires forall i :: 0 <= i < |before| ==> Readable(before[i].name)
    requires Succeeds(Edit(before, Desired(before, pid, rec)), d, works)
    ensures Legible(Atomic(Edit(before, Desired(before, pid, rec)), d, works))
       <==> (rec.Some? ==> Readable(rec.value.name))
  {
    var desired := Desired(before, pid, rec);
    DesiredOnly(before, pid, rec);
    EditLegibleIff(before, desired, d, works);
    assert WritesReadable(before, desired, pid) <==> (rec.Some? ==> Readable(rec.value.name));
    assert forall q: u32 :: q != pid ==> WritesReadable(before, desired, q);
  }
}
