/** Runs in which the write of a killed process lands too late. */
module LateWrites {
  import opened Accounting
  import opened Text
  import opened Rebase
  import opened Operations
  import opened History
  import opened Protocol
  import opened Safety

  // ---------- building runs ----------

  ghost predicate Linked(r: Run) {
    |r.states| == |r.events| + 1 && forall i :: 0 <= i < |r.events| ==> Step(r.states[i], r.states[i + 1], r.events[i])
  }

  ghost function Last(r: Run): System
    requires r.states != []
  {
    r.states[|r.states| - 1]
  }

  ghost function Then(r: Run, s': System, e: Event): Run { Run(r.states + [s'], r.events + [e]) }

  lemma ThenLinked(r: Run, s': System, e: Event)
    requires Linked(r) && Step(Last(r), s', e)
    ensures Linked(Then(r, s', e)) && Last(Then(r, s', e)) == s' && Then(r, s', e).states[0] == r.states[0]
  {
    var r' := Then(r, s', e);
    forall i | 0 <= i < |r'.events| ensures Step(r'.states[i], r'.states[i + 1], r'.events[i]) {
      if i < |r.events| { assert Step(r.states[i], r.states[i + 1], r.events[i]); }
    }
  }

  /** One more step of `a`, to `pc`, the lock as given. */
  ghost function Onward(r: Run, a: Actor, lock: Option<Actor>, pc: Pc): Run
    requires r.states != []
  {
    Then(r, Last(r).(lock := lock, pcs := Last(r).pcs[a := pc]), Quiet)
  }

  lemma OnwardLinked(r: Run, a: Actor, lock: Option<Actor>, pc: Pc)
    requires Linked(r) && ActorStep(Last(r), Last(r).(lock := lock, pcs := Last(r).pcs[a := pc]), a, Quiet)
    ensures var r' := Onward(r, a, lock, pc);
            && Linked(r') && Last(r') == Last(r).(lock := lock, pcs := Last(r).pcs[a := pc])
            && r'.states[0] == r.states[0] && r'.events == r.events + [Quiet]
  {
    ThenLinked(r, Last(r).(lock := lock, pcs := Last(r).pcs[a := pc]), Quiet);
  }

  /** Up to the lock, up to the end of the queries, and up to the write. */
  ghost function AtLock(r: Run, a: Actor, g: Gpu, op: Op): Run
    requires r.states != []
  {
    Onward(Onward(r, a, Last(r).lock, Waiting(g, op)), a, Some(a), Holding(g, op))
  }

  ghost function AtRead(r: Run, a: Actor, g: Gpu, op: Op): Run
    requires r.states != [] && g < |Last(r).devs|
  {
    var d, lock := Last(r).devs[g], Last(r).lock;
    var total, used, free := Floor(d.total), Floor(d.used), Floor(d.free);
    var r1 := Onward(r, a, lock, ReadCounters(g, op, total, used, free));
    var r2 := Onward(r1, a, lock, ReadProcesses(g, op, total, used, free, d.procs));
    Onward(r2, a, lock, ReadAll(g, op, Observed(d, true), true))
  }

  ghost function AtWrite(r: Run, a: Actor, g: Gpu, op: Op): Run
    requires r.states != [] && g < |Last(r).devs|
  {
    Onward(AtRead(AtLock(r, a, g, op), a, g, op), a, Some(a), Writing(g, op, Observed(Last(r).devs[g], true), true))
  }

  lemma ReachesLock(r: Run, a: Actor, g: Gpu, op: Op)
    requires Linked(r) && Last(r).lock.None? && PcOf(Last(r), a).Idle? && g < |Last(r).devs|
    ensures var r' := AtLock(r, a, g, op);
            && Linked(r') && r'.states[0] == r.states[0] && r'.events == r.events + [Quiet, Quiet]
            && Last(r') == Last(r).(lock := Some(a), pcs := Last(r).pcs[a := Holding(g, op)])
  {
    OnwardLinked(r, a, Last(r).lock, Waiting(g, op));
    OnwardLinked(Onward(r, a, Last(r).lock, Waiting(g, op)), a, Some(a), Holding(g, op));
  }

  lemma ReachesRead(r: Run, a: Actor, g: Gpu, op: Op)
    requires Linked(r) && PcOf(Last(r), a) == Holding(g, op) && g < |Last(r).devs| && AllLegible(Last(r).devs)
    ensures var r' := AtRead(r, a, g, op);
            && Linked(r') && r'.states[0] == r.states[0] && r'.events == r.events + [Quiet, Quiet, Quiet]
            && Last(r') == Last(r).(pcs := Last(r).pcs[a := ReadAll(g, op, Observed(Last(r).devs[g], true), true)])
  {
    var d, lock := Last(r).devs[g], Last(r).lock;
    var total, used, free := Floor(d.total), Floor(d.used), Floor(d.free);
    var r1 := Onward(r, a, lock, ReadCounters(g, op, total, used, free));
    OnwardLinked(r, a, lock, ReadCounters(g, op, total, used, free));
    var r2 := Onward(r1, a, lock, ReadProcesses(g, op, total, used, free, d.procs));
    OnwardLinked(r1, a, lock, ReadProcesses(g, op, total, used, free, d.procs));
    OnwardLinked(r2, a, lock, ReadAll(g, op, Observed(d, true), true));
  }

  lemma Launches(r: Run, a: Actor, g: Gpu, op: Op, seen: Device)
    requires Linked(r) && Last(r).lock == Some(a) && Plan(op, seen).Some?
    requires PcOf(Last(r), a) == ReadAll(g, op, seen, true)
    ensures var r' := Onward(r, a, Some(a), Writing(g, op, seen, true));
            && Linked(r') && r'.states[0] == r.states[0]
            && Last(r') == Last(r).(pcs := Last(r).pcs[a := Writing(g, op, seen, true)])
  {
    OnwardLinked(r, a, Some(a), Writing(g, op, seen, true));
  }

  /** A control process can always get as far as having its write under way. */
  lemma ReachesWrite(r: Run, a: Actor, g: Gpu, op: Op)
    requires Linked(r) && Last(r).lock.None? && PcOf(Last(r), a).Idle?
    requires g < |Last(r).devs| && AllLegible(Last(r).devs) && Succeeds(op, Last(r).devs[g], true)
    ensures var r', s := AtWrite(r, a, g, op), Last(r);
            && Linked(r') && r'.states[0] == r.states[0]
            && Last(r') == s.(lock := Some(a), pcs := s.pcs[a := Writing(g, op, Observed(s.devs[g], true), true)])
  {
    var locked := AtLock(r, a, g, op);
    ReachesLock(r, a, g, op);
    ReachesRead(locked, a, g, op);
    Launches(AtRead(locked, a, g, op), a, g, op, Observed(Last(r).devs[g], true));
  }

  // ---------- two processes and one GPU ----------

  /** Process 0 plans `late` and is killed while writing, process 1 plans `other`;
      both have read the GPU as `start`. */
  datatype Duel = Duel(start: Device, late: Op, other: Op) {
    ghost predicate Fair() { Legible(start) && Succeeds(late, start, true) && Succeeds(other, start, true) }

    ghost function Seen(): Device { Observed(start, true) }

    ghost function Orphaned(): Orphan { Orphan(0, 0, late, Seen(), true) }

    /** After the first write landed on `d`, and the second. */
    ghost function LateOn(d: Device): Device
      requires Fair()
    {
      Commit(d, Plan(late, Seen()).value)
    }

    ghost function OtherOn(d: Device): Device
      requires Fair()
    {
      Commit(d, Plan(other, Seen()).value)
    }

    ghost function Begin(): Run { Run([System([start], None, map[], multiset{})], []) }

    /** Process 0 is dead and its write under way. */
    ghost function Killed(): System { System([start], None, map[0 := Idle], multiset{Orphaned()}) }

    ghost function KilledRun(): Run { Then(AtWrite(Begin(), 0, 0, late), Killed(), Quiet) }

    /** Process 1 has its write under way, too. */
    ghost function Both(): System {
      Killed().(lock := Some(1), pcs := Killed().pcs[1 := Writing(0, other, Seen(), true)])
    }

    ghost function BothRun(): Run
    {
      AtWrite(KilledRun(), 1, 0, other)
    }

    ghost function Committing(): Event { Committed(1, 0, other, true) }
  }

  lemma KilledReached(d: Duel)
    requires d.Fair()
    ensures Linked(d.KilledRun()) && d.KilledRun().states[0] == d.Begin().states[0] && Last(d.KilledRun()) == d.Killed()
  {
    assert AllLegible([d.start]);
    ReachesWrite(d.Begin(), 0, 0, d.late);
    KillLinked(d, AtWrite(d.Begin(), 0, 0, d.late));
  }

  lemma KillLinked(d: Duel, r: Run)
    requires Linked(r)
    requires Last(r) == System([d.start], Some(0), map[0 := Writing(0, d.late, d.Seen(), true)], multiset{})
    ensures Linked(Then(r, d.Killed(), Quiet)) && Last(Then(r, d.Killed(), Quiet)) == d.Killed()
    ensures Then(r, d.Killed(), Quiet).states[0] == r.states[0]
  {
    assert Protocol.Killed(Last(r), d.Killed(), 0, PcOf(Last(r), 0), Quiet);
    assert ActorStep(Last(r), d.Killed(), 0, Quiet);
    ThenLinked(r, d.Killed(), Quiet);
  }

  lemma BothReached(d: Duel)
    requires d.Fair()
    ensures Linked(d.BothRun()) && d.BothRun().states[0] == d.Begin().states[0] && Last(d.BothRun()) == d.Both()
  {
    KilledReached(d);
    assert AllLegible([d.start]);
    ReachesWrite(d.KilledRun(), 1, 0, d.other);
  }

  /** Process 1's write lands on whatever is there. */
  ghost function OtherLanded(d: Duel, s: System): System
    requires d.Fair() && s.devs != []
  {
    s.(devs := [d.OtherOn(s.devs[0])], pcs := s.pcs[1 := Leaving])
  }

  lemma OtherLands(d: Duel, r: Run)
    requires d.Fair() && Linked(r) && |Last(r).devs| == 1 && PcOf(Last(r), 1) == d.Both().pcs[1]
    ensures var r' := Then(r, OtherLanded(d, Last(r)), d.Committing());
            && Linked(r') && Last(r') == OtherLanded(d, Last(r)) && r'.states[0] == r.states[0]
            && r'.events == r.events + [d.Committing()]
  {
    var s, s' := Last(r), OtherLanded(d, Last(r));
    assert s'.devs == s.devs[0 := d.OtherOn(s.devs[0])];
    assert WriteLands(s, s', 1, PcOf(s, 1), d.Committing());
    assert ActorStep(s, s', 1, d.Committing());
    ThenLinked(r, s', d.Committing());
  }

  /** Process 0's write lands on whatever is there. */
  ghost function LateLanded(d: Duel, s: System): System
    requires d.Fair() && s.devs != []
  {
    s.(devs := [d.LateOn(s.devs[0])], orphans := multiset{})
  }

  lemma LateLands(d: Duel, r: Run)
    requires d.Fair() && Linked(r) && |Last(r).devs| == 1 && Last(r).orphans == multiset{d.Orphaned()}
    ensures var e := LandingEvent(Last(r), d.Orphaned());
            var r' := Then(r, LateLanded(d, Last(r)), e);
            && Linked(r') && Last(r') == LateLanded(d, Last(r)) && r'.states[0] == r.states[0]
            && r'.events == r.events + [e]
  {
    var s, s', o := Last(r), LateLanded(d, Last(r)), d.Orphaned();
    var e := LandingEvent(s, o);
    assert s'.devs == Landed(s, o) by { assert Landed(s, o) == s.devs[0 := d.LateOn(s.devs[0])]; }
    assert OrphanLands(s, s', o, e);
    assert OrphanStep(s, s', o, e);
    ThenLinked(r, s', e);
  }

  /** A run that starts from one GPU and ends with it as `d`, its last events being
      as given. */
  ghost predicate Ends(r: Run, start: Device, e1: Event, e2: Event, last: Device) {
    && r.Valid() && |r.events| >= 2 && r.states[0].devs == [start] && Last(r).devs == [last]
    && r.events[|r.events| - 2] == e1 && r.events[|r.events| - 1] == e2
  }

  /** Process 1 commits, then the late write lands while process 1 still holds the
      lock, having nothing more to read. */
  lemma CommitThenLate(d: Duel)
    requires d.Fair()
    ensures var s := OtherLanded(d, d.Both());
            exists r: Run ::
              Ends(r, d.start, d.Committing(), LandingEvent(s, d.Orphaned()), d.LateOn(d.OtherOn(d.start)))
  {
    BothReached(d);
    OtherLands(d, d.BothRun());
    var r1 := Then(d.BothRun(), OtherLanded(d, d.Both()), d.Committing());
    LateLands(d, r1);
    var e := LandingEvent(OtherLanded(d, d.Both()), d.Orphaned());
    var r2 := Then(r1, LateLanded(d, Last(r1)), e);
    assert Ends(r2, d.start, d.Committing(), e, d.LateOn(d.OtherOn(d.start)));
  }

  /** The late write lands after process 1 has read, and then process 1 commits. */
  lemma LateThenCommit(d: Duel)
    requires d.Fair()
    ensures exists r: Run ::
              Ends(r, d.start, LandingEvent(d.Both(), d.Orphaned()), d.Committing(), d.OtherOn(d.LateOn(d.start)))
  {
    BothReached(d);
    LateLands(d, d.BothRun());
    var e := LandingEvent(d.Both(), d.Orphaned());
    var r1 := Then(d.BothRun(), LateLanded(d, d.Both()), e);
    OtherLands(d, r1);
    var r2 := Then(r1, OtherLanded(d, Last(r1)), d.Committing());
    assert Ends(r2, d.start, e, d.Committing(), d.OtherOn(d.LateOn(d.start)));
  }

  // ---------- three late writes ----------

  const IDLE_GPU := Device(4 * MIB, 0, 4 * MIB, [])

  /** `used` MiB of four in use and nothing listed. */
  function InUse(used: nat): Device
    requires used <= 4
  {
    Device(4 * MIB, MIB * used, MIB * (4 - used), [])
  }

  lemma InUseRead(used: nat)
    requires used <= 4
    ensures Observed(InUse(used), true) == InUse(used) && Legible(InUse(used))
    ensures used <= 3 ==> Plan(Reserve(MIB), InUse(used)) == Some(SetMemory(MIB * (used + 1), MIB * (3 - used)))
    ensures used <= 2 ==> Plan(Reserve(2 * MIB), InUse(used)) == Some(SetMemory(MIB * (used + 2), MIB * (2 - used)))
  {
    FloorExact(4 * MIB);
    FloorOf(used, 0);
    FloorOf(4 - used, 0);
  }

  const RESERVES := Duel(IDLE_GPU, Reserve(2 * MIB), Reserve(MIB))

  /** Process 1's reservation of one MiB commits, then the late one of two lands:
      the committed MiB is lost. */
  lemma LateWriteLosesUpdate()
    ensures exists r: Run ::
              Ends(r, IDLE_GPU, Committed(1, 0, Reserve(MIB), true), Overwritten(0, Reserve(2 * MIB)), InUse(2))
  {
    var d := RESERVES;
    InUseRead(0);
    InUseRead(1);
    assert IDLE_GPU == InUse(0) && d.Fair() && d.Seen() == InUse(0);
    assert d.OtherOn(d.start) == InUse(1) && d.LateOn(InUse(1)) == InUse(2);
    var s, o := OtherLanded(d, d.Both()), d.Orphaned();
    assert s.devs[0] == InUse(1) && !InTime(s, o);
    assert Landed(s, o)[0] == InUse(2) && Landed(s, o) != s.devs;
    CommitThenLate(d);
  }

  /** The late reservation of two MiB lands while its operation would still plan it,
      but process 1 has read by then; its own write leaves one MiB in use, though
      both writes landed. */
  lemma StaleReadLosesUpdate()
    ensures Plan(Reserve(2 * MIB), Observed(IDLE_GPU, true)) == Plan(Reserve(2 * MIB), RESERVES.Orphaned().seen)
    ensures exists r: Run ::
              Ends(r, IDLE_GPU, Overwritten(0, Reserve(2 * MIB)), Committed(1, 0, Reserve(MIB), true), InUse(1))
  {
    var d := RESERVES;
    InUseRead(0);
    assert IDLE_GPU == InUse(0) && d.Fair() && d.Seen() == InUse(0);
    assert d.LateOn(d.start) == InUse(2) && d.OtherOn(InUse(2)) == InUse(1);
    var s, o := d.Both(), d.Orphaned();
    assert Landed(s, o)[0] == InUse(2) && Landed(s, o) != s.devs;
    assert PcOf(s, 1) == Writing(0, d.other, InUse(0), true);
    assert !Fresh(Landed(s, o), PcOf(s, 1)) by { assert Observed(InUse(2), true).used == 2 * MIB by { InUseRead(2); } }
    assert !InTime(s, o);
    LateThenCommit(d);
  }

  const WORKER := Process(9, "C", "w", 1, 0, 0, 0, 0)
  const ADDS := Duel(Device(4 * MIB, MIB, 3 * MIB, []), Release(MIB), Edit([], [WORKER]))

  /** One MiB is in use and about to be released when process 0 is killed; process 1
      adds a process that owns one MiB; then the release lands.  Nothing is in use
      and one MiB is owned, and every release and edit is refused from then on. */
  lemma LateReleaseUndercuts()
    ensures var d := Device(4 * MIB, 0, 4 * MIB, [WORKER]);
            && Owned(d.procs) > d.used && !WellFormed(d)
            && (exists r: Run ::
                  Ends(r, InUse(1), Committed(1, 0, Edit([], [WORKER]), true), Overwritten(0, Release(MIB)), d))
            && forall op: Op, works: bool :: op.Release? || op.Edit? || op.Replace? ==> !Succeeds(op, d, works)
  {
    var d, before: Procs := ADDS, [];
    InUseRead(1);
    assert d.start == InUse(1) && d.Seen() == InUse(1);
    WorkerOwns();
    AddMerged(before, WORKER);
    assert before + [WORKER] == [WORKER];
    assert Plan(d.other, d.Seen()) == Some(SetProcesses([WORKER], 2 * MIB, 2 * MIB));
    assert Plan(d.late, d.Seen()) == Some(SetMemory(0, 4 * MIB));
    assert d.Fair();
    var last := Device(4 * MIB, 0, 4 * MIB, [WORKER]);
    assert d.LateOn(d.OtherOn(d.start)) == last;
    var s, o := OtherLanded(d, d.Both()), d.Orphaned();
    assert s.devs[0] == Device(4 * MIB, 2 * MIB, 2 * MIB, [WORKER]);
    LateReleaseIsLate(s.devs[0]);
    assert !InTime(s, o);
    assert Landed(s, o)[0] == last && Landed(s, o) != s.devs;
    CommitThenLate(d);
    forall op: Op, works: bool | op.Release? || op.Edit? || op.Replace? ensures !Succeeds(op, last, works) {
      UndercutRefuses(op, last, works);
    }
  }

  lemma WorkerOwns()
    ensures OwnedMiB([WORKER]) == 1 && AllValid([WORKER])
  {
    assert [WORKER][..0] == [];
  }

  lemma LateReleaseIsLate(d: Device)
    requires d == Device(4 * MIB, 2 * MIB, 2 * MIB, [WORKER])
    ensures Plan(Release(MIB), Observed(d, true)) == Some(SetMemory(MIB, 3 * MIB))
  {
    WorkerOwns();
    FloorExact(d.used);
    FloorExact(d.free);
    ViewOwned(d.procs, Telemetry(d.procs, true));
  }
}
