/** What one manager operation does to one device: the state as the observer
    reports it, the update each operation plans from it, and the invariants
    every operation keeps. */
module Operations {
  import opened Accounting
  import opened Rebase
  import opened Text

  // ---------- the observer ----------

  /** Counters are read in whole MiB. */
  function Floor(x: u64): (r: u64)
    ensures r <= x < r + MIB && r % MIB == 0
  {
    x / MIB * MIB
  }

  predicate Aligned(d: Device) {
    d.total % MIB == 0 && d.used % MIB == 0 && d.free % MIB == 0
  }

  /** A row of the process query: a trimmed name, no telemetry, and always a
      compute process. */
  function Plain(p: Process): Process {
    p.(kind := "C", name := Trim(p.name), sm := 0, mem := 0, enc := 0, dec := 0)
  }

  function WithTelemetry(p: Process, t: Process): Process {
    Plain(p).(sm := t.sm, mem := t.mem, enc := t.enc, dec := t.dec)
  }

  /** Its telemetry row is printed with a visible name and percentages. */
  predicate Shows(t: Process) {
    !Invisible(t.name) && t.sm <= 100 && t.mem <= 100 && t.enc <= 100 && t.dec <= 100
  }

  /** A record as it is read when the telemetry query works. */
  function Canon(p: Process): Process { if Shows(p) then WithTelemetry(p, p) else Plain(p) }

  function Seen(p: Process, pmonWorks: bool): Process { if pmonWorks then Canon(p) else Plain(p) }

  function SeenOf(p: Option<Process>, pmonWorks: bool): Option<Process> {
    if p.None? then None else Some(Seen(p.value, pmonWorks))
  }

  /** A row of the process query with the telemetry of its pmon row, if the pmon
      query worked and has one that is read. */
  function Overlay(p: Process, pmon: Option<Procs>): Process {
    if pmon.None? || Find(pmon.value, p.pid).None? || !Shows(Find(pmon.value, p.pid).value) then Plain(p)
    else WithTelemetry(p, Find(pmon.value, p.pid).value)
  }

  function View(procs: Procs, pmon: Option<Procs>): (r: Procs)
    ensures |r| == |procs|
    ensures forall i :: 0 <= i < |r| ==> r[i] == Overlay(procs[i], pmon)
  {
    seq(|procs|, i requires 0 <= i < |procs| => Overlay(procs[i], pmon))
  }

  function Telemetry(procs: Procs, pmonWorks: bool): Option<Procs> { if pmonWorks then Some(procs) else None }

  /** A device as read while nobody writes it. */
  function Observed(d: Device, pmonWorks: bool): Device {
    Device(Floor(d.total), Floor(d.used), Floor(d.free), View(d.procs, Telemetry(d.procs, pmonWorks)))
  }

  /** The process listing can carry every name. */
  predicate Legible(d: Device) {
    forall i :: 0 <= i < |d.procs| ==> Readable(d.procs[i].name)
  }

  /** One unreadable name on any GPU fails every read of every GPU. */
  predicate AllLegible(devices: seq<Device>) {
    forall i :: 0 <= i < |devices| ==> Legible(devices[i])
  }

  lemma SamePids(a: Procs, b: Procs, pid: u32)
    requires |a| == |b| && forall i :: 0 <= i < |a| ==> a[i].pid == b[i].pid
    ensures IndexOf(a, pid) == IndexOf(b, pid)
  {
    var i, k := IndexOf(a, pid), IndexOf(b, pid);
    if i >= 0 { assert b[i].pid == pid; }
    if k >= 0 { assert a[k].pid == pid; }
  }

  lemma OverlayFind(procs: Procs, pmon: Option<Procs>, pid: u32)
    ensures Find(View(procs, pmon), pid)
         == if Find(procs, pid).None? then None else Some(Overlay(Find(procs, pid).value, pmon))
  {
    SamePids(View(procs, pmon), procs, pid);
  }

  /** What a reader finds for a PID depends on that PID's record alone. */
  lemma ViewFind(procs: Procs, pmonWorks: bool, pid: u32)
    ensures Find(View(procs, Telemetry(procs, pmonWorks)), pid) == SeenOf(Find(procs, pid), pmonWorks)
  {
    OverlayFind(procs, Telemetry(procs, pmonWorks), pid);
  }

  lemma {:induction false} ViewOwned(procs: Procs, pmon: Option<Procs>)
    ensures OwnedMiB(View(procs, pmon)) == OwnedMiB(procs)
  {
    if procs != [] {
      var n := |procs| - 1;
      ViewOwned(procs[..n], pmon);
      assert View(procs, pmon)[..n] == View(procs[..n], pmon);
    }
  }

  /** A duplicate-free list is read record by record. */
  lemma ViewAt(procs: Procs, pmonWorks: bool)
    requires Distinct(procs)
    ensures forall i :: 0 <= i < |procs| ==> View(procs, Telemetry(procs, pmonWorks))[i] == Seen(procs[i], pmonWorks)
  {
    forall i | 0 <= i < |procs|
      ensures View(procs, Telemetry(procs, pmonWorks))[i] == Seen(procs[i], pmonWorks)
    {
      FindAt(procs, i);
    }
  }

  /** What reading once more makes of a record that was read already. */
  lemma SeenAgain(p: Process, first: bool, second: bool)
    ensures Seen(Seen(p, first), second) == Seen(p, first && second)
  {
    TrimTwice(p.name);
    if Invisible(p.name) { TrimInvisible(p.name); }
    TrimVisible(p.name);
  }

  lemma TrimVisible(name: string)
    ensures !Invisible(Trim(name))
  {
    TrimEnds(name);
  }

  /** A record reads back as it is exactly when it is a compute process with a
      trimmed name and (the telemetry query having worked, percentages, or else)
      no utilization. */
  lemma SeenExactIff(p: Process, pmonWorks: bool)
    ensures Seen(p, pmonWorks) == p <==>
              && p.kind == "C" && Trim(p.name) == p.name
              && if pmonWorks then p.sm <= 100 && p.mem <= 100 && p.enc <= 100 && p.dec <= 100
                 else p.sm == 0 && p.mem == 0 && p.enc == 0 && p.dec == 0
  {
    TrimVisible(p.name);
  }

  lemma ViewDistinct(procs: Procs, pmon: Option<Procs>)
    ensures Distinct(View(procs, pmon)) <==> Distinct(procs)
  {
    var v := View(procs, pmon);
    assert forall i :: 0 <= i < |v| ==> v[i].pid == procs[i].pid;
  }

  lemma ViewValid(procs: Procs, pmon: Option<Procs>)
    requires AllValid(procs)
    ensures AllValid(View(procs, pmon))
  {
    var v := View(procs, pmon);
    forall i | 0 <= i < |v| ensures ValidProcess(v[i]) {
      assert ValidProcess(procs[i]) && v[i] == Overlay(procs[i], pmon);
    }
  }

  /** What was read from a legible device could be read again. */
  lemma ObservedLegible(d: Device, pmonWorks: bool)
    requires Legible(d)
    ensures Legible(Observed(d, pmonWorks))
  {
    var v := View(d.procs, Telemetry(d.procs, pmonWorks));
    forall i | 0 <= i < |v| ensures Readable(v[i].name) {
      assert Readable(d.procs[i].name) && v[i] == Overlay(d.procs[i], Telemetry(d.procs, pmonWorks));
      TrimReadable(d.procs[i].name);
    }
  }

  // ---------- operations ----------

  datatype Op =
    | SetUsed(bytes: u64)
    | Reserve(delta: u64)
    | Release(delta: u64)
    | Replace(processes: Procs)
    | Edit(before: Procs, desired: Procs)

  datatype Write =
    | SetMemory(used: u64, free: u64)
    | SetProcesses(procs: Procs, used: u64, free: u64)

  /** The update `reconcileProcessesFromState` sends for a replacement list. */
  ghost function Reconciled(d: Device, processes: Procs): Option<Write> {
    var owned, visible, wanted := Owned(d.procs), d.used + d.free, Owned(processes);
    if owned > d.used || visible > MAX64 then None
    else
      var nonProcess := d.used - owned;
      var available: nat := if visible <= d.total then visible else d.total;
      if !AllValid(processes) || nonProcess > available || wanted > available - nonProcess then None
      else Some(SetProcesses(processes, nonProcess + wanted, available - (nonProcess + wanted)))
  }

  /** The update an operation sends after reading `d`, or nothing if it refuses. */
  ghost function Plan(op: Op, d: Device): Option<Write> {
    match op
    case SetUsed(bytes) =>
      var pool := d.used + d.free;
      if pool > MAX64 || bytes > pool || bytes < Owned(d.procs) then None
      else Some(SetMemory(bytes, pool - bytes))
    case Reserve(delta) =>
      if delta > d.free || d.used + delta > MAX64 then None
      else Some(SetMemory(d.used + delta, d.free - delta))
    case Release(delta) =>
      if Owned(d.procs) > d.used || delta > d.used - Owned(d.procs) || d.free + delta > MAX64 then None
      else Some(SetMemory(d.used - delta, d.free + delta))
    case Replace(processes) => Reconciled(d, processes)
    case Edit(before, desired) =>
      var merged := Rebased(before, desired, d.procs);
      if merged.None? then None else Reconciled(d, merged.value)
  }

  function Commit(d: Device, w: Write): Device {
    match w
    case SetMemory(used, free) => d.(used := used, free := free)
    case SetProcesses(procs, used, free) => d.(procs := procs, used := used, free := free)
  }

  ghost predicate Succeeds(op: Op, d: Device, pmonWorks: bool) {
    Plan(op, Observed(d, pmonWorks)).Some?
  }

  /** One whole operation with nothing in between. */
  ghost function Atomic(op: Op, d: Device, pmonWorks: bool): Device {
    var w := Plan(op, Observed(d, pmonWorks));
    if w.Some? then Commit(d, w.value) else d
  }

  // ---------- invariants ----------

  ghost predicate WellFormed(d: Device) {
    && d.used + d.free <= d.total
    && Owned(d.procs) <= d.used
    && Distinct(d.procs)
    && AllValid(d.procs)
  }

  ghost function NonProcess(d: Device): int { d.used - Owned(d.procs) }

  function Pool(d: Device): nat { d.used + d.free }

  predicate Whole(op: Op) {
    match op
    case SetUsed(n) => n % MIB == 0
    case Reserve(n) => n % MIB == 0
    case Release(n) => n % MIB == 0
    case _ => true
  }

  /** `Replace` is the one entry point that takes a list nobody checked for
      repeated PIDs. */
  predicate Checked(op: Op) {
    op.Replace? ==> Distinct(op.processes)
  }

  lemma FloorMonotone(x: u64, y: u64)
    requires x <= y && x % MIB == 0
    ensures x <= Floor(y)
  {
    assert x == MIB * (x / MIB);
  }

  lemma FloorExact(x: u64)
    ensures x % MIB == 0 <==> Floor(x) == x
  {
  }

  /** A read keeps the invariant and never reports more than there is. */
  lemma ObservedWellFormed(d: Device, pmonWorks: bool)
    requires WellFormed(d)
    ensures WellFormed(Observed(d, pmonWorks)) && Aligned(Observed(d, pmonWorks))
    ensures Owned(Observed(d, pmonWorks).procs) == Owned(d.procs)
    ensures Pool(Observed(d, pmonWorks)) <= Pool(d)
  {
    var pmon := Telemetry(d.procs, pmonWorks);
    ViewDistinct(d.procs, pmon);
    ViewValid(d.procs, pmon);
    ViewOwned(d.procs, pmon);
    FloorMonotone(Floor(d.used) + Floor(d.free), d.total);
    assert Owned(d.procs) % MIB == 0;
    FloorMonotone(Owned(d.procs), d.used);
  }

  /** The heart of reconciliation: non-process usage and the used+free pool come
      out as they were read, whatever the replacement list. */
  lemma ReconcileConserves(d: Device, processes: Procs)
    requires WellFormed(d) && Reconciled(d, processes).Some?
    ensures var d' := Commit(d, Reconciled(d, processes).value);
            && d'.procs == processes && NonProcess(d') == NonProcess(d) && Pool(d') == Pool(d)
            && (Distinct(processes) ==> WellFormed(d'))
  {
  }

  /** A replacement list is refused exactly for an invalid record or for asking
      for more than the free memory plus what the old list gives back. */
  lemma ReconcileRefusal(d: Device, processes: Procs)
    requires WellFormed(d)
    ensures Reconciled(d, processes).None? <==> !AllValid(processes) || Owned(processes) > d.free + Owned(d.procs)
  {
  }

  /** On any device at all: a replacement is refused if the records already own more
      than is in use, if used and free overflow, if a record is invalid, or if it
      does not fit besides the non-process usage; otherwise that usage comes out as
      it was, and the pool too, cut down to the total if it was larger. */
  lemma ReconcileIff(d: Device, processes: Procs)
    ensures Reconciled(d, processes).Some? <==>
              && Owned(d.procs) <= d.used && d.used + d.free <= MAX64 && AllValid(processes)
              && NonProcess(d) + Owned(processes) <= d.used + d.free
              && NonProcess(d) + Owned(processes) <= d.total
    ensures Reconciled(d, processes).Some? ==>
              var d' := Commit(d, Reconciled(d, processes).value);
              && d'.procs == processes && d'.total == d.total && NonProcess(d') == NonProcess(d)
              && (Pool(d) <= d.total ==> Pool(d') == Pool(d)) && (Pool(d) > d.total ==> Pool(d') == d.total)
  {
  }

  lemma MergedValid(before: Procs, desired: Procs, d: Device)
    requires Plan(Edit(before, desired), d).Some?
    ensures Distinct(Merged(before, desired, d.procs))
  {
    MergeIsThreeWay(before, desired, d.procs);
  }

  /** Every operation, for every amount and every list, keeps the invariant; the
      pool it leaves is the pool it read. */
  lemma AtomicKeeps(op: Op, d: Device, pmonWorks: bool)
    requires WellFormed(d) && Checked(op)
    ensures var d' := Atomic(op, d, pmonWorks);
            && WellFormed(d') && d'.total == d.total
            && Pool(d') == (if Succeeds(op, d, pmonWorks) then Pool(Observed(d, pmonWorks)) else Pool(d))
            && (op.Replace? || op.Edit? ==> Succeeds(op, d, pmonWorks) ==>
              NonProcess(d') == NonProcess(Observed(d, pmonWorks)))
            && (!op.Replace? && !op.Edit? ==> d'.procs == d.procs)
  {
    var o := Observed(d, pmonWorks);
    ObservedWellFormed(d, pmonWorks);
    var w := Plan(op, o);
    if w.Some? {
      match op
      case SetUsed(_) =>
      case Reserve(_) =>
      case Release(_) =>
      case Replace(processes) => ReconcileConserves(o, processes);
      case Edit(before, desired) =>
        MergedValid(before, desired, o);
        ReconcileConserves(o, Merged(before, desired, o.procs));
    }
  }

  /** When each operation is accepted, in terms of what it reads; on a well-formed
      device none of the 64-bit overflow checks can fire. */
  lemma AcceptedIff(op: Op, d: Device, pmonWorks: bool)
    requires WellFormed(d)
    ensures var o := Observed(d, pmonWorks);
            Succeeds(op, d, pmonWorks) <==>
              match op
              case SetUsed(n) => Owned(d.procs) <= n <= Pool(o)
              case Reserve(n) => n <= o.free
              case Release(n) => n <= NonProcess(o)
              case Replace(ps) => AllValid(ps) && Owned(ps) <= o.free + Owned(d.procs)
              case Edit(before, desired) =>
                && AllDistinct(before, desired, o.procs) && Compatible(before, desired, o.procs)
                && AllValid(Merged(before, desired, o.procs))
                && Owned(Merged(before, desired, o.procs)) <= o.free + Owned(d.procs)
    ensures op.SetUsed? && Succeeds(op, d, pmonWorks) ==> Atomic(op, d, pmonWorks).used == op.bytes
  {
    var o := Observed(d, pmonWorks);
    ObservedWellFormed(d, pmonWorks);
    match op
    case Replace(ps) => ReconcileRefusal(o, ps);
    case Edit(before, desired) => ReconcileRefusal(o, Merged(before, desired, o.procs));
    case _ =>
  }

  /** The record an edit writes for `pid` on purpose, if any, can be read back. */
  ghost predicate WritesReadable(before: Procs, desired: Procs, pid: u32) {
    Touched(before, desired, pid) && Find(desired, pid).Some? ==> Readable(Find(desired, pid).value.name)
  }

  /** A device stays legible exactly when the names written to it are readable. */
  lemma EditLegibleIff(before: Procs, desired: Procs, d: Device, pmonWorks: bool)
    requires Legible(d) && Succeeds(Edit(before, desired), d, pmonWorks)
    ensures Legible(Atomic(Edit(before, desired), d, pmonWorks))
       <==> forall pid: u32 :: WritesReadable(before, desired, pid)
  {
    var o := Observed(d, pmonWorks);
    var merged := Merged(before, desired, o.procs);
    ObservedLegible(d, pmonWorks);
    MergeIsThreeWay(before, desired, o.procs);
    if forall pid: u32 :: WritesReadable(before, desired, pid) {
      forall i | 0 <= i < |merged| ensures Readable(merged[i].name) {
        FindAt(merged, i);
        assert WritesReadable(before, desired, merged[i].pid);
        assert Find(o.procs, merged[i].pid).Some? ==> Find(o.procs, merged[i].pid).value in o.procs;
      }
    } else {
      var pid: u32 :| !WritesReadable(before, desired, pid);
      var i := IndexOf(merged, pid);
      assert Find(merged, pid) == Find(desired, pid) && merged[i] == Find(desired, pid).value;
    }
  }

  lemma WholeSum(a: int, b: int)
    requires a % MIB == 0 && b % MIB == 0
    ensures (a + b) % MIB == 0 && (a - b) % MIB == 0
  {
  }

  lemma AlignedObserved(d: Device, pmonWorks: bool)
    requires Aligned(d)
    ensures var o := Observed(d, pmonWorks); o.total == d.total && o.used == d.used && o.free == d.free
    ensures Owned(Observed(d, pmonWorks).procs) == Owned(d.procs)
  {
    FloorExact(d.total);
    FloorExact(d.used);
    FloorExact(d.free);
    ViewOwned(d.procs, Telemetry(d.procs, pmonWorks));
  }

  /** A plan made from whole counters and amounts writes whole counters. */
  lemma PlanWhole(op: Op, o: Device)
    requires Aligned(o) && Whole(op) && o.used + o.free <= o.total && Plan(op, o).Some?
    ensures Plan(op, o).value.used % MIB == 0 && Plan(op, o).value.free % MIB == 0
  {
    WholeSum(o.used, o.free);
    match op
    case SetUsed(n) => WholeSum(Pool(o), n);
    case Reserve(n) => WholeSum(o.used, n); WholeSum(o.free, n);
    case Release(n) => WholeSum(o.used, n); WholeSum(o.free, n);
    case Replace(ps) => ReconcileWhole(o, ps);
    case Edit(before, desired) => ReconcileWhole(o, Merged(before, desired, o.procs));
  }

  lemma ReconcileWhole(o: Device, ps: Procs)
    requires Aligned(o) && Owned(o.procs) <= o.used && o.used + o.free <= o.total && Reconciled(o, ps).Some?
    ensures Reconciled(o, ps).value.used % MIB == 0 && Reconciled(o, ps).value.free % MIB == 0
  {
    WholeSum(o.used, o.free);
    WholeSum(o.used, Owned(o.procs));
    WholeSum(NonProcess(o), Owned(ps));
    WholeSum(Pool(o), NonProcess(o) + Owned(ps));
  }

  /** On whole-MiB devices and amounts the accounting is exact to the byte. */
  lemma AtomicExact(op: Op, d: Device, pmonWorks: bool)
    requires WellFormed(d) && Checked(op) && Aligned(d) && Whole(op)
    ensures var d' := Atomic(op, d, pmonWorks);
            && Aligned(d') && Pool(d') == Pool(d)
            && (op.Replace? || op.Edit? ==> NonProcess(d') == NonProcess(d))
            && (op.Reserve? && Succeeds(op, d, pmonWorks) ==> NonProcess(d') == NonProcess(d) + op.delta)
            && (op.Release? && Succeeds(op, d, pmonWorks) ==> NonProcess(d') == NonProcess(d) - op.delta)
  {
    AtomicKeeps(op, d, pmonWorks);
    AlignedObserved(d, pmonWorks);
    if Succeeds(op, d, pmonWorks) {
      PlanWhole(op, Observed(d, pmonWorks));
    }
  }

  lemma FloorOf(n: int, r: int)
    requires 0 <= r < MIB && 0 <= MIB * n + r <= MAX64
    ensures Floor(MIB * n + r) == MIB * n
  {
  }

  /** Counters after adding `MIB * q + r` to whole used and taking it from whole free. */
  lemma FloorShift(used: u64, free: u64, q: nat, r: nat)
    requires used % MIB == 0 && free % MIB == 0
    requires r < MIB && MIB * q + r <= free && used + MIB * q + r <= MAX64
    ensures Floor(used + (MIB * q + r)) == used + MIB * q
    ensures Floor(free - (MIB * q + r)) == free - MIB * q - (if r == 0 then 0 else MIB)
  {
    var a, b := used / MIB, free / MIB;
    FloorOf(a + q, r);
    if r == 0 {
      FloorOf(b - q, 0);
    } else {
      FloorOf(b - q - 1, MIB - r);
    }
  }

  /** What a reservation leaves, in terms of what was shown before it. */
  lemma ShownAfterReserve(d: Device, delta: u64, pmonWorks: bool)
    requires Succeeds(Reserve(delta), d, pmonWorks)
    ensures var o, o' := Observed(d, pmonWorks), Observed(Atomic(Reserve(delta), d, pmonWorks), pmonWorks);
            && o'.used == o.used + delta - delta % MIB && o'.procs == o.procs
            && o'.free == o.free - (delta - delta % MIB) - (if delta % MIB == 0 then 0 else MIB)
  {
    var o := Observed(d, pmonWorks);
    FloorShift(o.used, o.free, delta / MIB, delta % MIB);
  }

  /** The pool is not kept for every amount: a reservation that is not a whole
      number of MiB costs the visible pool exactly one MiB, every time. */
  lemma ReservePoolIff(d: Device, delta: u64, pmonWorks: bool)
    requires Succeeds(Reserve(delta), d, pmonWorks)
    ensures var visible := Pool(Observed(Atomic(Reserve(delta), d, pmonWorks), pmonWorks));
            && (visible == Pool(Observed(d, pmonWorks)) <==> delta % MIB == 0)
            && (delta % MIB != 0 ==> visible == Pool(Observed(d, pmonWorks)) - MIB)
  {
    ShownAfterReserve(d, delta, pmonWorks);
  }

  /** Releasing what was just reserved succeeds exactly when the amount's odd
      bytes were already seen in use outside the process records: with the odd
      part rounded away, a live reservation may be refused its own release. */
  lemma ReleaseAfterReserveIff(d: Device, delta: u64, pmonWorks: bool)
    requires WellFormed(d) && Succeeds(Reserve(delta), d, pmonWorks)
    ensures Succeeds(Release(delta), Atomic(Reserve(delta), d, pmonWorks), pmonWorks)
       <==> delta % MIB <= NonProcess(Observed(d, pmonWorks))
  {
    ShownAfterReserve(d, delta, pmonWorks);
    ObservedWellFormed(d, pmonWorks);
    ReleaseIff(delta, Observed(Atomic(Reserve(delta), d, pmonWorks), pmonWorks));
  }

  /** It happens: one byte reserved on an idle device cannot be released again. */
  lemma OneByteStaysReserved()
    ensures var d := Device(MIB, 0, MIB, []);
            && WellFormed(d) && Aligned(d) && Succeeds(Reserve(1), d, true)
            && !Succeeds(Release(1), Atomic(Reserve(1), d, true), true)
  {
    var d := Device(MIB, 0, MIB, []);
    AlignedObserved(d, true);
    ReleaseAfterReserveIff(d, 1, true);
  }

  lemma ReleaseIff(delta: u64, o: Device)
    requires o.free + delta <= MAX64
    ensures Plan(Release(delta), o).Some? <==> Owned(o.procs) <= o.used && delta <= NonProcess(o)
  {
  }
}
