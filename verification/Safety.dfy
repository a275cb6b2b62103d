/** What holds in every state of every run of the lock protocol, late writes
    included, and the one thing a late write can break. */
module Safety {
  import opened Accounting
  import opened Rebase
  import opened Operations
  import opened History
  import opened Protocol

  /** The accounting invariant without "process-owned memory is in use". */
  ghost predicate Sound(d: Device) { d.used + d.free <= d.total && Distinct(d.procs) && AllValid(d.procs) }

  ghost predicate AllSound(devs: seq<Device>) {
    forall g :: 0 <= g < |devs| ==> Sound(devs[g])
  }

  lemma WellFormedIsSound(devs: seq<Device>)
    requires AllWellFormed(devs)
    ensures AllSound(devs)
  {
    forall g | 0 <= g < |devs| ensures Sound(devs[g]) { assert WellFormed(devs[g]); }
  }

  /** How a device, or what somebody once read of it, relates to the device `start`:
      the total is its total, and the pool is no larger; `exactly` the same, in
      whole MiB, if it was so at the start and all amounts are whole. */
  ghost predicate PoolOf(used: u64, free: u64, start: Device, exactly: bool) {
    && used + free <= Pool(start)
    && (exactly ==> used + free == Pool(start) && used % MIB == 0 && free % MIB == 0)
  }

  ghost predicate Within(d: Device, start: Device, exactly: bool) {
    Sound(d) && d.total == start.total && PoolOf(d.used, d.free, start, exactly)
  }

  ghost predicate ReadFrom(total: u64, used: u64, free: u64, start: Device, exactly: bool) {
    total == Floor(start.total) && used + free <= total && PoolOf(used, free, start, exactly)
  }

  /** Whatever a process has read was so once, be it still so or not. */
  ghost predicate KnowsOnce(pc: Pc, start: seq<Device>, exactly: bool) {
    match pc
    case ReadCounters(g, _, total, used, free) => g < |start| && ReadFrom(total, used, free, start[g], exactly)
    case ReadProcesses(g, _, total, used, free, _) => g < |start| && ReadFrom(total, used, free, start[g], exactly)
    case ReadAll(g, _, seen, _) => g < |start| && ReadFrom(seen.total, seen.used, seen.free, start[g], exactly)
    case Writing(g, _, seen, _) => g < |start| && ReadFrom(seen.total, seen.used, seen.free, start[g], exactly)
    case _ => true
  }

  ghost predicate OrphanKnew(o: Orphan, start: seq<Device>, exactly: bool) {
    o.gpu < |start| && ReadFrom(o.seen.total, o.seen.used, o.seen.free, start[o.gpu], exactly)
  }

  ghost predicate DevicesWithin(devs: seq<Device>, start: seq<Device>, exactly: bool) {
    |devs| == |start| && forall g :: 0 <= g < |devs| ==> Within(devs[g], start[g], exactly)
  }

  ghost predicate Bounded(s: System, start: seq<Device>, exactly: bool) {
    && DevicesWithin(s.devs, start, exactly)
    && (forall a :: a in s.pcs ==> KnowsOnce(s.pcs[a], start, exactly))
    && forall o :: o in s.orphans ==> OrphanKnew(o, start, exactly)
  }

  /** An operation within the terms of the result: no unchecked repetition of a
      PID, and whole amounts if exactness is wanted. */
  ghost predicate Admissible(op: Op, exactly: bool) { Checked(op) && (exactly ==> Whole(op)) }

  lemma CountersRead(d: Device, start: Device, exactly: bool)
    requires Within(d, start, exactly)
    ensures ReadFrom(Floor(d.total), Floor(d.used), Floor(d.free), start, exactly)
  {
    FloorMonotone(Floor(d.used) + Floor(d.free), d.total);
    if exactly {
      FloorExact(d.used);
      FloorExact(d.free);
    }
  }

  /** A write leaves the pool its operation read, in whatever state it lands. */
  lemma PlanKeepsPool(op: Op, seen: Device)
    requires seen.used + seen.free <= seen.total && Plan(op, seen).Some?
    ensures Plan(op, seen).value.used + Plan(op, seen).value.free == Pool(seen)
  {
  }

  /** So it keeps all that does not depend on when it lands. */
  lemma LandsWithin(op: Op, seen: Device, d: Device, start: Device, exactly: bool)
    requires Within(d, start, exactly) && ReadFrom(seen.total, seen.used, seen.free, start, exactly)
    requires Plan(op, seen).Some? && Admissible(op, exactly)
    ensures Within(Commit(d, Plan(op, seen).value), start, exactly)
  {
    PlanKeepsPool(op, seen);
    if exactly { PlanWhole(op, seen); }
    if op.Edit? { MergedValid(op.before, op.desired, seen); }
  }

  // ---------- steps ----------

  lemma ActorKnows(s: System, s': System, a: Actor, e: Event, start: seq<Device>, exactly: bool)
    requires Bounded(s, start, exactly) && ActorStep(s, s', a, e)
    ensures a in s'.pcs && KnowsOnce(s'.pcs[a], start, exactly)
  {
    var pc := PcOf(s, a);
    assert KnowsOnce(pc, start, exactly);
    if QueryCounters(s, s', a, pc, e) { CountersRead(s.devs[pc.gpu], start[pc.gpu], exactly); }
  }

  lemma ActorOrphans(s: System, s': System, a: Actor, e: Event, start: seq<Device>, exactly: bool)
    requires Bounded(s, start, exactly) && ActorStep(s, s', a, e)
    ensures forall o :: o in s'.orphans ==> OrphanKnew(o, start, exactly)
  {
    assert KnowsOnce(PcOf(s, a), start, exactly);
  }

  lemma ActorDevices(s: System, s': System, a: Actor, e: Event, start: seq<Device>, exactly: bool)
    requires Bounded(s, start, exactly) && ActorStep(s, s', a, e) && (!e.Quiet? ==> Admissible(e.op, exactly))
    ensures DevicesWithin(s'.devs, start, exactly)
  {
    var pc := PcOf(s, a);
    assert KnowsOnce(pc, start, exactly);
    if WriteLands(s, s', a, pc, e) {
      LandsWithin(pc.op, pc.seen, s.devs[pc.gpu], start[pc.gpu], exactly);
    }
  }

  lemma ActorBounded(s: System, s': System, a: Actor, e: Event, start: seq<Device>, exactly: bool)
    requires Bounded(s, start, exactly) && ActorStep(s, s', a, e) && (!e.Quiet? ==> Admissible(e.op, exactly))
    ensures Bounded(s', start, exactly)
  {
    ActorKnows(s, s', a, e, start, exactly);
    ActorOrphans(s, s', a, e, start, exactly);
    ActorDevices(s, s', a, e, start, exactly);
    OthersStay(s, s', a, e);
  }

  lemma OrphanBounded(s: System, s': System, o: Orphan, e: Event, start: seq<Device>, exactly: bool)
    requires Bounded(s, start, exactly) && OrphanStep(s, s', o, e) && (!e.Quiet? ==> Admissible(e.op, exactly))
    ensures Bounded(s', start, exactly)
  {
    assert forall x :: x in s'.orphans ==> x in s.orphans;
    if OrphanLands(s, s', o, e) && !e.Quiet? {
      assert OrphanKnew(o, start, exactly);
      LandsWithin(o.op, o.seen, s.devs[o.gpu], start[o.gpu], exactly);
    }
  }

  lemma {:induction false} RunBounded(r: Run, n: nat, exactly: bool)
    requires r.Valid() && n < |r.states| && AllSound(r.states[0].devs)
    requires exactly ==> AllAligned(r.states[0].devs)
    requires AllChecked(r.events[..n]) && (exactly ==> AllWhole(r.events[..n]))
    ensures Bounded(r.states[n], r.states[0].devs, exactly)
  {
    var start := r.states[0].devs;
    if n == 0 {
      forall g | 0 <= g < |start| ensures Within(start[g], start[g], exactly) {
        assert Sound(start[g]) && (exactly ==> Aligned(start[g]));
      }
    } else {
      RunBounded(r, n - 1, exactly);
      var s, s', e := r.states[n - 1], r.states[n], r.events[n - 1];
      assert r.events[..n][n - 1] == e;
      assert Step(s, s', e);
      if a :| ActorStep(s, s', a, e) {
        ActorBounded(s, s', a, e, start, exactly);
      } else {
        var o :| OrphanStep(s, s', o, e);
        OrphanBounded(s, s', o, e, start, exactly);
      }
    }
  }

  // ---------- every state of every run ----------

  /** Safety in every reachable state, for all amounts, whoever is killed and
      whenever writes land: used and free fit in the total, PIDs are unique,
      records valid, totals constant and no pool larger than at the start; with
      whole-MiB amounts every pool is constant. */
  lemma RunSafe(r: Run, n: nat)
    requires r.Valid() && n < |r.states| && AllSound(r.states[0].devs) && AllChecked(r.events[..n])
    ensures AllSound(r.states[n].devs) && NoMore(r.states[0].devs, r.states[n].devs)
    ensures AllAligned(r.states[0].devs) && AllWhole(r.events[..n]) ==>
              AllAligned(r.states[n].devs) && SamePools(r.states[0].devs, r.states[n].devs)
  {
    RunBounded(r, n, false);
    BoundedSafe(r.states[n].devs, r.states[0].devs, false);
    if AllAligned(r.states[0].devs) && AllWhole(r.events[..n]) {
      RunBounded(r, n, true);
      BoundedSafe(r.states[n].devs, r.states[0].devs, true);
    }
  }

  lemma BoundedSafe(devs: seq<Device>, start: seq<Device>, exactly: bool)
    requires DevicesWithin(devs, start, exactly)
    ensures AllSound(devs) && NoMore(start, devs)
    ensures exactly && AllAligned(start) ==> AllAligned(devs) && SamePools(start, devs)
  {
    forall g | 0 <= g < |devs|
      ensures Sound(devs[g]) && devs[g].total == start[g].total && Pool(devs[g]) <= Pool(start[g])
      ensures exactly && AllAligned(start) ==> Aligned(devs[g]) && Pool(devs[g]) == Pool(start[g])
    {
      assert Within(devs[g], start[g], exactly);
    }
  }

  // ---------- process-owned memory ----------

  predicate MovesMemory(op: Op) { op.SetUsed? || op.Reserve? || op.Release? }

  /** A memory operation's write has put less in use than the listed processes own. */
  ghost predicate Undercuts(op: Op, d: Device, d': Device) { MovesMemory(op) && d'.used < Owned(d.procs) }

  /** The fourth part of the invariant, process-owned memory being in use, holds
      after a write has landed, in whatever state, exactly if it does not undercut. */
  lemma LandingOwnedIff(op: Op, seen: Device, d: Device)
    requires Plan(op, seen).Some?
    ensures var d' := Commit(d, Plan(op, seen).value);
            && (Owned(d'.procs) <= d'.used <==> !Undercuts(op, d, d'))
            && (MovesMemory(op) ==> d'.procs == d.procs)
  {
  }

  ghost predicate LandsOn(e: Event, g: Gpu) { !e.Quiet? && e.gpu == g }

  /** Every event is a write landing on one GPU; nothing else changes a device. */
  lemma EventLands(r: Run, i: nat, g: Gpu)
    requires r.Valid() && i < |r.events| && g < |r.states[i].devs|
    ensures g < |r.states[i + 1].devs|
    ensures var d, d', e := r.states[i].devs[g], r.states[i + 1].devs[g], r.events[i];
            && (!LandsOn(e, g) ==> d' == d)
            && (LandsOn(e, g) ==> (Owned(d'.procs) <= d'.used <==> !Undercuts(e.op, d, d')))
  {
    var s, s', e := r.states[i], r.states[i + 1], r.events[i];
    assert Step(s, s', e);
    if a :| ActorStep(s, s', a, e) {
      var pc := PcOf(s, a);
      if WriteLands(s, s', a, pc, e) { LandingOwnedIff(pc.op, pc.seen, s.devs[pc.gpu]); }
    } else {
      var o :| OrphanStep(s, s', o, e);
      if OrphanLands(s, s', o, e) { LandingOwnedIff(o.op, o.seen, s.devs[o.gpu]); }
    }
  }

  /** Nothing landed on `g` between `k` and `n`. */
  ghost predicate NothingLands(r: Run, k: nat, n: nat, g: Gpu) {
    forall i :: k <= i < n <= |r.events| ==> !LandsOn(r.events[i], g)
  }

  lemma {:induction false} StaysSame(r: Run, k: nat, n: nat, g: Gpu)
    requires r.Valid() && k <= n < |r.states| && g < |r.states[k].devs| && NothingLands(r, k, n, g)
    ensures g < |r.states[n].devs| && r.states[n].devs[g] == r.states[k].devs[g]
  {
    if k < n {
      StaysSame(r, k, n - 1, g);
      StepSame(r, n - 1, g);
    }
  }

  lemma StepSame(r: Run, i: nat, g: Gpu)
    requires r.Valid() && i < |r.events| && g < |r.states[i].devs| && !LandsOn(r.events[i], g)
    ensures g < |r.states[i + 1].devs| && r.states[i + 1].devs[g] == r.states[i].devs[g]
  {
    EventLands(r, i, g);
  }

  /** In every run, late writes or not, a GPU on which something has landed is
      well-formed exactly if the last write that landed there did not undercut. */
  lemma WellFormedIff(r: Run, i: nat, n: nat, g: Gpu)
    requires r.Valid() && i < n < |r.states| && AllSound(r.states[0].devs) && AllChecked(r.events[..n])
    requires g < |r.states[0].devs| && LandsOn(r.events[i], g) && NothingLands(r, i + 1, n, g)
    ensures g < |r.states[i].devs| && g < |r.states[i + 1].devs| && g < |r.states[n].devs|
    ensures WellFormed(r.states[n].devs[g])
       <==> !Undercuts(r.events[i].op, r.states[i].devs[g], r.states[i + 1].devs[g])
  {
    assert r.events[..i] == r.events[..n][..i];
    RunSafe(r, i);
    RunSafe(r, n);
    EventLands(r, i, g);
    StaysSame(r, i + 1, n, g);
    assert Sound(r.states[n].devs[g]);
  }

  /** In a stretch without an overwriting no write undercuts: a well-formed start
      stays well-formed. */
  lemma StretchWellFormed(r: Run, k: nat, n: nat)
    requires r.Valid() && Timely(r, k, n) && AllWellFormed(r.states[k].devs) && AllChecked(r.events[k..n])
    ensures AllWellFormed(r.states[n].devs)
  {
    RunRefinesAtomic(r, k, n);
    var t := TraceOf(r, k, n);
    assert t.events[..n - k] == t.events;
    TraceSafe(t, n - k);
  }

  /** On an undercut device every release and every change of the process list is
      refused, whatever it asks for. */
  lemma UndercutRefuses(op: Op, d: Device, works: bool)
    requires Owned(d.procs) > d.used && (op.Release? || op.Edit? || op.Replace?)
    ensures !Succeeds(op, d, works)
  {
    ViewOwned(d.procs, Telemetry(d.procs, works));
  }
}
