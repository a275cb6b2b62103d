/** Any number of control processes working on the same GPUs.  Lock, queries,
    write and unlock are separate steps.  The write is a child process: when its
    parent is killed the lock is dropped at once, while the child may still land. */
module Protocol {
  import opened Accounting
  import opened Rebase
  import opened Operations
  import opened History

  /** Where one control process stands.  The snapshot an `Edit` starts from was
      taken before the lock, with its queries torn apart by other writers, so its
      `before` list is arbitrary. */
  datatype Pc =
    | Idle
    | Waiting(gpu: Gpu, op: Op)
    | Holding(gpu: Gpu, op: Op)
    | ReadCounters(gpu: Gpu, op: Op, total: u64, used: u64, free: u64)
    | ReadProcesses(gpu: Gpu, op: Op, total: u64, used: u64, free: u64, rows: Procs)
    | ReadAll(gpu: Gpu, op: Op, seen: Device, pmonWorks: bool)
    | Writing(gpu: Gpu, op: Op, seen: Device, pmonWorks: bool)
    | Leaving

  predicate InCriticalSection(pc: Pc) { !pc.Idle? && !pc.Waiting? }

  /** A write whose parent was killed. */
  datatype Orphan = Orphan(actor: Actor, gpu: Gpu, op: Op, seen: Device, pmonWorks: bool)

  datatype System = System(
    devs: seq<Device>, lock: Option<Actor>, pcs: map<Actor, Pc>, orphans: multiset<Orphan>)

  predicate Moves(s: System, s': System, a: Actor, pc: Pc) {
    s' == s.(pcs := s.pcs[a := pc])
  }

  predicate Start(s: System, s': System, a: Actor, pc: Pc, e: Event) {
    && e.Quiet? && pc.Idle?
    && a in s'.pcs && s'.pcs[a].Waiting? && s'.pcs[a].gpu < |s.devs|
    && Moves(s, s', a, s'.pcs[a])
  }

  predicate Acquire(s: System, s': System, a: Actor, pc: Pc, e: Event) {
    && e.Quiet? && pc.Waiting? && s.lock.None?
    && s' == s.(lock := Some(a), pcs := s.pcs[a := Holding(pc.gpu, pc.op)])
  }

  predicate QueryFails(s: System, s': System, a: Actor, pc: Pc, e: Event) {
    e.Quiet? && (pc.Holding? || pc.ReadCounters?) && Moves(s, s', a, Leaving)
  }

  predicate QueryCounters(s: System, s': System, a: Actor, pc: Pc, e: Event) {
    && e.Quiet? && pc.Holding? && pc.gpu < |s.devs|
    && var d := s.devs[pc.gpu];
       Moves(s, s', a, ReadCounters(pc.gpu, pc.op, Floor(d.total), Floor(d.used), Floor(d.free)))
  }

  /** The process listing is for all GPUs; one unreadable name anywhere spoils it. */
  predicate QueryProcesses(s: System, s': System, a: Actor, pc: Pc, e: Event) {
    && e.Quiet? && pc.ReadCounters? && pc.gpu < |s.devs| && AllLegible(s.devs)
    && Moves(s, s', a, ReadProcesses(pc.gpu, pc.op, pc.total, pc.used, pc.free, s.devs[pc.gpu].procs))
  }

  /** The optional telemetry query; its failure goes unnoticed. */
  predicate QueryPmon(s: System, s': System, a: Actor, pc: Pc, e: Event) {
    && e.Quiet? && pc.ReadProcesses? && pc.gpu < |s.devs|
    && a in s'.pcs && s'.pcs[a].ReadAll?
    && var works := s'.pcs[a].pmonWorks;
       var seen := Device(pc.total, pc.used, pc.free, View(pc.rows, Telemetry(s.devs[pc.gpu].procs, works)));
       Moves(s, s', a, ReadAll(pc.gpu, pc.op, seen, works))
  }

  ghost predicate Refuse(s: System, s': System, a: Actor, pc: Pc, e: Event) {
    e.Quiet? && pc.ReadAll? && Plan(pc.op, pc.seen).None? && Moves(s, s', a, Leaving)
  }

  ghost predicate Launch(s: System, s': System, a: Actor, pc: Pc, e: Event) {
    && e.Quiet? && pc.ReadAll? && Plan(pc.op, pc.seen).Some?
    && Moves(s, s', a, Writing(pc.gpu, pc.op, pc.seen, pc.pmonWorks))
  }

  predicate WriteFails(s: System, s': System, a: Actor, pc: Pc, e: Event) {
    e.Quiet? && pc.Writing? && Moves(s, s', a, Leaving)
  }

  ghost predicate WriteLands(s: System, s': System, a: Actor, pc: Pc, e: Event) {
    && pc.Writing? && pc.gpu < |s.devs|
    && var plan := Plan(pc.op, pc.seen);
       && plan.Some?
       && e == Committed(a, pc.gpu, pc.op, pc.pmonWorks)
       && s' == s.(devs := s.devs[pc.gpu := Commit(s.devs[pc.gpu], plan.value)], pcs := s.pcs[a := Leaving])
  }

  predicate Unlock(s: System, s': System, a: Actor, pc: Pc, e: Event) {
    e.Quiet? && pc.Leaving? && s' == s.(lock := None, pcs := s.pcs[a := Idle])
  }

  /** The kernel drops a dead process's lock; a write under way goes on alone. */
  predicate Killed(s: System, s': System, a: Actor, pc: Pc, e: Event) {
    && e.Quiet?
    && s' == s.(lock := if s.lock == Some(a) then None else s.lock, pcs := s.pcs[a := Idle],
                orphans := if pc.Writing? then s.orphans + multiset{Orphan(a, pc.gpu, pc.op, pc.seen, pc.pmonWorks)}
                           else s.orphans)
  }

  predicate OrphanDies(s: System, s': System, o: Orphan, e: Event) {
    e.Quiet? && o in s.orphans && s' == s.(orphans := s.orphans - multiset{o})
  }

  /** The devices once the orphan's write has landed. */
  ghost function Landed(s: System, o: Orphan): seq<Device>
    requires o.gpu < |s.devs| && Plan(o.op, o.seen).Some?
  {
    s.devs[o.gpu := Commit(s.devs[o.gpu], Plan(o.op, o.seen).value)]
  }

  /** An orphan lands in time when its operation, begun now, could read the GPUs
      and would plan the very same write, and when what the process past the lock
      has read, if anything, still holds afterwards. */
  ghost predicate InTime(s: System, o: Orphan)
    requires o.gpu < |s.devs| && Plan(o.op, o.seen).Some?
  {
    && AllLegible(s.devs) && Plan(o.op, Observed(s.devs[o.gpu], o.pmonWorks)) == Plan(o.op, o.seen)
    && (s.lock.Some? ==> Fresh(Landed(s, o), PcOf(s, s.lock.value)))
  }

  ghost function LandingEvent(s: System, o: Orphan): Event
    requires o.gpu < |s.devs| && Plan(o.op, o.seen).Some?
  {
    if InTime(s, o) then Committed(o.actor, o.gpu, o.op, o.pmonWorks)
    else if Landed(s, o) == s.devs then Quiet
    else Overwritten(o.gpu, o.op)
  }

  ghost predicate OrphanLands(s: System, s': System, o: Orphan, e: Event) {
    && o in s.orphans && o.gpu < |s.devs| && Plan(o.op, o.seen).Some?
    && e == LandingEvent(s, o)
    && s' == s.(devs := Landed(s, o), orphans := s.orphans - multiset{o})
  }

  ghost predicate ActorStep(s: System, s': System, a: Actor, e: Event) {
    var pc := PcOf(s, a);
    || Start(s, s', a, pc, e) || Acquire(s, s', a, pc, e)
    || QueryFails(s, s', a, pc, e) || QueryCounters(s, s', a, pc, e)
    || QueryProcesses(s, s', a, pc, e) || QueryPmon(s, s', a, pc, e)
    || Refuse(s, s', a, pc, e) || Launch(s, s', a, pc, e)
    || WriteFails(s, s', a, pc, e) || WriteLands(s, s', a, pc, e)
    || Unlock(s, s', a, pc, e) || Killed(s, s', a, pc, e)
  }

  function PcOf(s: System, a: Actor): Pc { if a in s.pcs then s.pcs[a] else Idle }

  ghost predicate OrphanStep(s: System, s': System, o: Orphan, e: Event) {
    OrphanDies(s, s', o, e) || OrphanLands(s, s', o, e)
  }

  ghost predicate Step(s: System, s': System, e: Event) {
    (exists a :: ActorStep(s, s', a, e)) || (exists o :: OrphanStep(s, s', o, e))
  }

  ghost predicate Initial(s: System) {
    s.lock.None? && s.orphans == multiset{} && forall a :: a in s.pcs ==> s.pcs[a].Idle?
  }

  // ---------- mutual exclusion, and what a reader knows ----------

  predicate InRange(pc: Pc, count: nat) { pc.Idle? || pc.Leaving? || pc.gpu < count }

  /** At most one process is past the lock. */
  ghost predicate Exclusive(s: System) {
    && (s.lock.Some? ==> s.lock.value in s.pcs)
    && forall a :: a in s.pcs ==> InRange(s.pcs[a], |s.devs|) && (InCriticalSection(s.pcs[a]) <==> s.lock == Some(a))
  }

  ghost predicate Fresh(devs: seq<Device>, pc: Pc) {
    && InRange(pc, |devs|)
    && match pc
       case ReadCounters(g, _, total, used, free) =>
         var d := devs[g];
         total == Floor(d.total) && used == Floor(d.used) && free == Floor(d.free)
       case ReadProcesses(g, _, total, used, free, rows) =>
         var d := devs[g];
         && total == Floor(d.total) && used == Floor(d.used) && free == Floor(d.free)
         && rows == d.procs && AllLegible(devs)
       case ReadAll(g, _, seen, works) => seen == Observed(devs[g], works) && AllLegible(devs)
       case Writing(g, _, seen, works) => seen == Observed(devs[g], works) && AllLegible(devs)
       case _ => true
  }

  /** At most one process is past the lock, and what it has read still holds. */
  ghost predicate Inv(s: System) {
    Exclusive(s) && forall a :: a in s.pcs ==> Fresh(s.devs, s.pcs[a])
  }

  /** One process moves, taking or giving up the lock at most for itself. */
  lemma ExclusiveMove(s: System, s': System, a: Actor, pc': Pc)
    requires Exclusive(s) && s'.pcs == s.pcs[a := pc'] && |s'.devs| == |s.devs| && InRange(pc', |s.devs|)
    requires InCriticalSection(pc') <==> s'.lock == Some(a)
    requires s'.lock == s.lock || (s.lock.None? && s'.lock == Some(a)) || (s.lock == Some(a) && s'.lock.None?)
    ensures Exclusive(s')
  {
    assert forall b :: b in s'.pcs && b != a ==> b in s.pcs && s'.pcs[b] == s.pcs[b];
  }

  /** Every step of every process, killed or not, keeps mutual exclusion. */
  lemma ExclusiveStep(s: System, s': System, a: Actor, e: Event)
    requires Exclusive(s) && ActorStep(s, s', a, e)
    ensures Exclusive(s')
  {
    assert InRange(PcOf(s, a), |s.devs|) && (InCriticalSection(PcOf(s, a)) <==> s.lock == Some(a));
    ExclusiveMove(s, s', a, s'.pcs[a]);
  }

  /** Steps that leave the devices alone. */
  lemma InvQuiet(s: System, s': System, a: Actor, e: Event)
    requires Inv(s) && ActorStep(s, s', a, e) && !WriteLands(s, s', a, PcOf(s, a), e)
    ensures Inv(s') && AtomicStep(s.devs, s'.devs, e)
  {
    assert Exclusive(s') by { ExclusiveStep(s, s', a, e); }
    assert Fresh(s.devs, PcOf(s, a));
    FreshStep(s, s', a, e);
    OthersStay(s, s', a, e);
  }

  lemma OthersStay(s: System, s': System, a: Actor, e: Event)
    requires ActorStep(s, s', a, e)
    ensures forall b :: b in s'.pcs && b != a ==> b in s.pcs && s'.pcs[b] == s.pcs[b]
  {
  }

  lemma FreshStep(s: System, s': System, a: Actor, e: Event)
    requires Fresh(s.devs, PcOf(s, a)) && ActorStep(s, s', a, e) && !WriteLands(s, s', a, PcOf(s, a), e)
    ensures s'.devs == s.devs && a in s'.pcs && Fresh(s.devs, s'.pcs[a]) && e.Quiet?
  {
  }

  /** The one step of a process that changes a device: nobody else is past the
      lock. */
  lemma InvWrite(s: System, s': System, a: Actor, e: Event)
    requires Inv(s) && WriteLands(s, s', a, PcOf(s, a), e)
    ensures Inv(s') && AtomicStep(s.devs, s'.devs, e)
  {
    assert InCriticalSection(s.pcs[a]) && s.lock == Some(a);
    assert forall b :: b in s.pcs && b != a ==> !InCriticalSection(s.pcs[b]);
    ExclusiveMove(s, s', a, Leaving);
  }

  lemma InvStep(s: System, s': System, a: Actor, e: Event)
    requires Inv(s) && ActorStep(s, s', a, e)
    ensures Inv(s') && AtomicStep(s.devs, s'.devs, e)
  {
    if WriteLands(s, s', a, PcOf(s, a), e) { InvWrite(s, s', a, e); } else { InvQuiet(s, s', a, e); }
  }

  /** Orphans keep mutual exclusion, and unless they overwrite something, all the
      rest. */
  lemma InvOrphan(s: System, s': System, o: Orphan, e: Event)
    requires Exclusive(s) && OrphanStep(s, s', o, e)
    ensures Exclusive(s')
    ensures Inv(s) && !e.Overwritten? ==> Inv(s') && AtomicStep(s.devs, s'.devs, e)
  {
    if Inv(s) && OrphanLands(s, s', o, e) && !e.Overwritten? { LateWriteIff(s, s', o, e); }
  }

  /** A landing write of a killed process is harmless (what is past the lock stays
      informed, and the devices see one atomic operation) exactly when it lands in
      time; and it passes unnoticed exactly when it changes nothing.  Otherwise it
      overwrites something. */
  lemma LateWriteIff(s: System, s': System, o: Orphan, e: Event)
    requires Inv(s) && OrphanLands(s, s', o, e)
    ensures Inv(s') && AtomicStep(s.devs, s'.devs, Committed(o.actor, o.gpu, o.op, o.pmonWorks)) <==> InTime(s, o)
    ensures Inv(s') && AtomicStep(s.devs, s'.devs, Quiet) <==> Landed(s, o) == s.devs
    ensures Inv(s') && AtomicStep(s.devs, s'.devs, e) <==> !e.Overwritten?
  {
    SamePlanIff(o.op, o.seen, s.devs[o.gpu], o.pmonWorks);
    if s.lock.Some? ==> Fresh(s'.devs, PcOf(s, s.lock.value)) { LandingInv(s, s'); }
    var d' := Commit(s.devs[o.gpu], Plan(o.op, o.seen).value);
    assert s'.devs[o.gpu] == d';
  }

  /** Whoever is not past the lock has read nothing. */
  lemma LandingInv(s: System, s': System)
    requires Inv(s) && s'.lock == s.lock && s'.pcs == s.pcs && |s'.devs| == |s.devs|
    requires s.lock.Some? ==> Fresh(s'.devs, PcOf(s, s.lock.value))
    ensures Inv(s')
  {
    forall a | a in s'.pcs ensures Fresh(s'.devs, s'.pcs[a]) {
      if s.lock != Some(a) { assert !InCriticalSection(s.pcs[a]) && InRange(s.pcs[a], |s.devs|); }
    }
  }

  /** A planned write is what its operation would do now iff it would plan it now. */
  lemma SamePlanIff(op: Op, seen: Device, d: Device, works: bool)
    requires Plan(op, seen).Some?
    ensures Succeeds(op, d, works) && Commit(d, Plan(op, seen).value) == Atomic(op, d, works)
       <==> Plan(op, Observed(d, works)) == Plan(op, seen)
  {
  }

  /** While the lock is free nobody has read anything, so nothing read is stale. */
  lemma FreeIsInv(s: System)
    requires Exclusive(s) && s.lock.None?
    ensures Inv(s)
  {
    forall a | a in s.pcs ensures Fresh(s.devs, s.pcs[a]) {
      assert !InCriticalSection(s.pcs[a]) && InRange(s.pcs[a], |s.devs|);
    }
  }

  // ---------- whole runs ----------

  datatype Run = Run(states: seq<System>, events: seq<Event>) {
    ghost predicate Valid() {
      && |states| == |events| + 1
      && Initial(states[0])
      && forall i :: 0 <= i < |events| ==> Step(states[i], states[i + 1], events[i])
    }
  }

  /** A stretch of a run that begins with the lock free and in which no write of a
      killed process overwrites anything.  Every run is one from its start to its
      first overwriting, and again from the next moment the lock is free. */
  ghost predicate Timely(r: Run, k: nat, n: nat) {
    k <= n < |r.states| && r.states[k].lock.None? && forall i :: k <= i < n <= |r.events| ==> !r.events[i].Overwritten?
  }

  /** Mutual exclusion holds in every reachable state of every run, whoever is
      killed and whenever their writes land. */
  lemma {:induction false} RunExclusive(r: Run, n: nat)
    requires r.Valid() && n < |r.states|
    ensures Exclusive(r.states[n])
  {
    if n > 0 {
      RunExclusive(r, n - 1);
      var s, s', e := r.states[n - 1], r.states[n], r.events[n - 1];
      assert Step(s, s', e);
      if a :| ActorStep(s, s', a, e) {
        ExclusiveStep(s, s', a, e);
      } else {
        var o :| OrphanStep(s, s', o, e);
        InvOrphan(s, s', o, e);
      }
    }
  }

  /** In such a stretch, what the process past the lock has read still holds. */
  lemma {:induction false} RunInvariant(r: Run, k: nat, n: nat)
    requires r.Valid() && Timely(r, k, n)
    ensures Inv(r.states[n])
  {
    if n == k {
      RunExclusive(r, n);
      FreeIsInv(r.states[n]);
    } else {
      RunInvariant(r, k, n - 1);
      AtomicAt(r, n - 1);
    }
  }

  lemma AtomicAt(r: Run, i: nat)
    requires r.Valid() && i < |r.events| && Inv(r.states[i]) && !r.events[i].Overwritten?
    ensures Inv(r.states[i + 1]) && AtomicStep(r.states[i].devs, r.states[i + 1].devs, r.events[i])
  {
    var s, s', e := r.states[i], r.states[i + 1], r.events[i];
    assert Step(s, s', e);
    if a :| ActorStep(s, s', a, e) {
      InvStep(s, s', a, e);
    } else {
      var o :| OrphanStep(s, s', o, e);
      InvOrphan(s, s', o, e);
    }
  }

  /** The devices and events from state `k` to state `n`. */
  ghost function TraceOf(r: Run, k: nat, n: nat): (t: Trace)
    requires k <= n < |r.states| == |r.events| + 1
    ensures |t.devs| == n - k + 1 && t.events == r.events[k..n]
    ensures forall i :: 0 <= i <= n - k ==> t.devs[i] == r.states[k + i].devs
  {
    Trace(seq(n - k + 1, i requires 0 <= i <= n - k => r.states[k + i].devs), r.events[k..n])
  }

  /** Refinement: every interleaving of the small steps is, on the devices, a
      trace of operations that take effect one at a time. */
  lemma RunRefinesAtomic(r: Run, k: nat, n: nat)
    requires r.Valid() && Timely(r, k, n)
    ensures TraceOf(r, k, n).Valid()
  {
    var t := TraceOf(r, k, n);
    forall i | 0 <= i < n - k ensures t.StepAt(i) {
      var j := k + i;
      StretchStep(r, k, n, j);
      TraceStep(r, k, n, i, j);
    }
  }

  lemma TraceStep(r: Run, k: nat, n: nat, i: nat, j: nat)
    requires j == k + i && j < n < |r.states| == |r.events| + 1
    requires AtomicStep(r.states[j].devs, r.states[j + 1].devs, r.events[j])
    ensures |TraceOf(r, k, n).devs| == |TraceOf(r, k, n).events| + 1 && i < |TraceOf(r, k, n).events|
    ensures TraceOf(r, k, n).StepAt(i)
  {
  }

  lemma StretchStep(r: Run, k: nat, n: nat, i: nat)
    requires r.Valid() && Timely(r, k, n) && k <= i < n
    ensures i < |r.events| && AtomicStep(r.states[i].devs, r.states[i + 1].devs, r.events[i])
  {
    RunInvariant(r, k, i);
    AtomicAt(r, i);
  }

  /** No lost update in any interleaving: what a commit wrote for a PID is still
      there as long as no later commit edits that PID, however stale or torn the
      snapshots of the commits in between. */
  lemma RunKeepsUpdates(r: Run, k: nat, i: nat, n: nat, pid: u32)
    requires r.Valid() && Timely(r, k, n) && k <= i < n
    requires r.events[i].Committed? && r.events[i].op.Edit?
    requires Touched(r.events[i].op.before, r.events[i].op.desired, pid)
    requires forall j :: i < j < n ==> !EditsPid(r.events[j], r.events[i].gpu, pid)
    ensures var g := r.events[i].gpu;
            && g < |r.states[n].devs|
            && Core(Find(r.states[n].devs[g].procs, pid)) == Core(Find(r.events[i].op.desired, pid))
  {
    RunRefinesAtomic(r, k, n);
    NoLostUpdate(TraceOf(r, k, n), i - k, n - k, pid);
  }
}
