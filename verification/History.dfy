/** Traces of operations that take effect one at a time on the shared GPUs, and
    what holds all along them. */
module History {
  import opened Accounting
  import opened Text
  import opened Rebase
  import opened Operations

  type Actor = nat
  type Gpu = nat

  /** What a step does that others can see: an operation takes effect, or a late
      write overwrites what it should not. */
  datatype Event =
    | Quiet
    | Committed(actor: Actor, gpu: Gpu, op: Op, pmonWorks: bool)
    | Overwritten(gpu: Gpu, op: Op)

  /** The event of a machine whose operations take one step. */
  ghost predicate AtomicStep(devs: seq<Device>, devs': seq<Device>, e: Event) {
    match e
    case Quiet => devs' == devs
    case Committed(_, g, op, works) =>
      && g < |devs| && AllLegible(devs) && Succeeds(op, devs[g], works)
      && devs' == devs[g := Atomic(op, devs[g], works)]
    case Overwritten(_, _) => false
  }

  /** The devices before, between and after the events. */
  datatype Trace = Trace(devs: seq<seq<Device>>, events: seq<Event>) {
    ghost predicate Valid() {
      && |devs| == |events| + 1
      && forall i :: 0 <= i < |events| ==> StepAt(i)
    }

    ghost predicate StepAt(i: nat)
      requires i < |events| && |devs| == |events| + 1
    {
      AtomicStep(devs[i], devs[i + 1], events[i])
    }
  }

  ghost predicate AllWellFormed(devs: seq<Device>) {
    forall g :: 0 <= g < |devs| ==> WellFormed(devs[g])
  }

  ghost predicate AllAligned(devs: seq<Device>) {
    forall g :: 0 <= g < |devs| ==> Aligned(devs[g])
  }

  /** Same GPUs, same totals, and no GPU's pool has grown. */
  ghost predicate NoMore(devs: seq<Device>, devs': seq<Device>) {
    && |devs'| == |devs|
    && forall g :: 0 <= g < |devs| ==> devs'[g].total == devs[g].total && Pool(devs'[g]) <= Pool(devs[g])
  }

  ghost predicate SamePools(devs: seq<Device>, devs': seq<Device>) {
    |devs'| == |devs| && forall g :: 0 <= g < |devs| ==> Pool(devs'[g]) == Pool(devs[g])
  }

  ghost predicate AllChecked(events: seq<Event>) {
    forall i :: 0 <= i < |events| && !events[i].Quiet? ==> Checked(events[i].op)
  }

  ghost predicate AllWhole(events: seq<Event>) {
    forall i :: 0 <= i < |events| && !events[i].Quiet? ==> Whole(events[i].op)
  }

  lemma StepSafe(devs: seq<Device>, devs': seq<Device>, e: Event)
    requires AllWellFormed(devs) && AtomicStep(devs, devs', e)
    requires e.Committed? ==> Checked(e.op)
    ensures AllWellFormed(devs') && NoMore(devs, devs')
  {
    if e.Committed? {
      AtomicKeeps(e.op, devs[e.gpu], e.pmonWorks);
      ObservedWellFormed(devs[e.gpu], e.pmonWorks);
    }
  }

  lemma NoMoreChain(a: seq<Device>, b: seq<Device>, c: seq<Device>)
    requires NoMore(a, b) && NoMore(b, c)
    ensures NoMore(a, c)
  {
  }

  lemma SamePoolsChain(a: seq<Device>, b: seq<Device>, c: seq<Device>)
    requires SamePools(a, b) && SamePools(b, c)
    ensures SamePools(a, c)
  {
  }

  lemma StepConserves(devs: seq<Device>, devs': seq<Device>, e: Event)
    requires AllWellFormed(devs) && AllAligned(devs) && AtomicStep(devs, devs', e)
    requires e.Committed? ==> Checked(e.op) && Whole(e.op)
    ensures AllAligned(devs') && SamePools(devs, devs')
  {
    if e.Committed? {
      AtomicExact(e.op, devs[e.gpu], e.pmonWorks);
    }
  }

  /** Safety in every reachable state, whatever the amounts: the accounting
      invariant holds on every GPU, totals never change and no pool ever grows. */
  lemma {:induction false} TraceSafe(t: Trace, n: nat)
    requires t.Valid() && n < |t.devs|
    requires AllWellFormed(t.devs[0]) && AllChecked(t.events[..n])
    ensures AllWellFormed(t.devs[n]) && NoMore(t.devs[0], t.devs[n])
  {
    if n > 0 {
      TraceSafe(t, n - 1);
      assert t.StepAt(n - 1);
      StepSafe(t.devs[n - 1], t.devs[n], t.events[n - 1]);
      NoMoreChain(t.devs[0], t.devs[n - 1], t.devs[n]);
    }
  }

  /** With whole-MiB amounts the used+free pool of every GPU is constant. */
  lemma {:induction false} TraceConservesPool(t: Trace, n: nat)
    requires t.Valid() && n < |t.devs|
    requires AllWellFormed(t.devs[0]) && AllChecked(t.events[..n]) && AllWhole(t.events[..n])
    requires AllAligned(t.devs[0])
    ensures AllAligned(t.devs[n]) && SamePools(t.devs[0], t.devs[n])
  {
    if n > 0 {
      assert t.events[..n][..n - 1] == t.events[..n - 1];
      TraceConservesPool(t, n - 1);
      TraceSafe(t, n - 1);
      assert t.StepAt(n - 1) && t.events[..n][n - 1] == t.events[n - 1];
      StepConserves(t.devs[n - 1], t.devs[n], t.events[n - 1]);
      SamePoolsChain(t.devs[0], t.devs[n - 1], t.devs[n]);
    }
  }

  // ---------- no lost updates ----------

  /** What a process record keeps whatever happens to its telemetry: PID, trimmed
      name and memory. */
  function Core(p: Option<Process>): Option<(u32, string, u64)> {
    if p.None? then None else Some((p.value.pid, Trim(p.value.name), p.value.memMiB))
  }

  /** This event rewrites the record of `pid` on `g` on purpose. */
  ghost predicate EditsPid(e: Event, g: Gpu, pid: u32) {
    e.Committed? && e.gpu == g && (e.op.Replace? || (e.op.Edit? && Touched(e.op.before, e.op.desired, pid)))
  }

  /** What a committed edit does to each PID: an edited one gets what the caller
      asked for, any other one is written back as it was read. */
  lemma EditByPid(before: Procs, desired: Procs, d: Device, works: bool, pid: u32)
    requires Succeeds(Edit(before, desired), d, works)
    ensures Find(Atomic(Edit(before, desired), d, works).procs, pid)
         == if Touched(before, desired, pid) then Find(desired, pid) else Find(Observed(d, works).procs, pid)
  {
    MergeIsThreeWay(before, desired, Observed(d, works).procs);
  }

  lemma CoreSeen(p: Option<Process>, works: bool)
    ensures Core(SeenOf(p, works)) == Core(p)
  {
    if p.Some? { TrimTwice(p.value.name); }
  }

  /** An operation that does not edit `pid` leaves a record that is the old one as
      it was read.  PID, trimmed name and memory survive always; what a reader
      with telemetry sees survives exactly if the telemetry query worked or there
      was nothing to lose; and the record itself exactly if it reads back as it is. */
  lemma UntouchedPid(op: Op, d: Device, works: bool, pid: u32)
    requires Succeeds(op, d, works) && !op.Replace?
    requires op.Edit? ==> !Touched(op.before, op.desired, pid)
    ensures var now, was := Find(Atomic(op, d, works).procs, pid), Find(d.procs, pid);
            && Core(now) == Core(was)
            && now == (if op.Edit? then SeenOf(was, works) else was)
            && (SeenOf(now, true) == SeenOf(was, true) <==>
                  !op.Edit? || works || was.None? || Plain(was.value) == Canon(was.value))
            && (now == was <==> !op.Edit? || was.None? || Seen(was.value, works) == was.value)
  {
    if op.Edit? {
      EditByPid(op.before, op.desired, d, works, pid);
      ViewFind(d.procs, works, pid);
      var was := Find(d.procs, pid);
      CoreSeen(was, works);
      if was.Some? { SeenAgain(was.value, works, true); }
    }
  }

  const BUSY := Process(7, "C", "worker", 1, 50, 0, 0, 0)
  const GRAPHICS := Process(8, "G", "display", 1, 0, 0, 0, 0)
  const PADDED := Process(7, "C", " w", 1, 0, 0, 0, 0)
  const BLANK := Process(8, "C", "  ", 1, 50, 0, 0, 0)
  const NEWCOMER := Process(9, "C", "new", 0, 0, 0, 0, 0)

  /** Each exception happens.  Adding PID 9 while the telemetry query fails wipes
      the utilization of a busy PID 7; even with it working it turns a graphics
      PID 8 into a compute process. */
  lemma UntouchedPidMayChange()
    ensures var d, add := Device(4 * MIB, 2 * MIB, 2 * MIB, [BUSY, GRAPHICS]), Edit([], [NEWCOMER]);
            && WellFormed(d) && Legible(d)
            && Succeeds(add, d, false) && Find(Atomic(add, d, false).procs, 7) != Some(BUSY)
            && Succeeds(add, d, true) && Find(Atomic(add, d, true).procs, 8) != Some(GRAPHICS)
  {
    AddingNine(BUSY, GRAPHICS, false);
    AddingNine(BUSY, GRAPHICS, true);
    PlainNames();
  }

  /** With the telemetry query working, adding PID 9 also trims the name of PID 7,
      and takes from PID 8 a name of two blanks together with its utilization. */
  lemma UntouchedNameMayChange()
    ensures var d, add := Device(4 * MIB, 2 * MIB, 2 * MIB, [PADDED, BLANK]), Edit([], [NEWCOMER]);
            && WellFormed(d) && Legible(d) && Succeeds(add, d, true)
            && Find(Atomic(add, d, true).procs, 7) == Some(PADDED.(name := "w"))
            && Find(Atomic(add, d, true).procs, 8) == Some(BLANK.(name := "", sm := 0))
  {
    AddingNine(PADDED, BLANK, true);
    PaddedNames();
  }

  lemma PlainNames()
    ensures Readable(BUSY.name) && Readable(GRAPHICS.name)
  {
  }

  lemma PaddedNames()
    ensures Readable(PADDED.name) && Canon(PADDED) == PADDED.(name := "w")
    ensures Readable(BLANK.name) && Canon(BLANK) == BLANK.(name := "", sm := 0)
  {
    assert Trim(" w") == "w" && TrimRight(" w") == " w" by { TrimLeftSpaces(" ", "w"); }
    TrimInvisible(BLANK.name);
    TrimRightBlankOnly(BLANK.name);
  }

  /** Adding PID 9 to a device that holds just PIDs 7 and 8. */
  lemma AddingNine(seven: Process, eight: Process, works: bool)
    requires ValidProcess(seven) && ValidProcess(eight) && seven.pid == 7 && eight.pid == 8
    requires seven.memMiB == 1 && eight.memMiB == 1
    ensures var d, add := Device(4 * MIB, 2 * MIB, 2 * MIB, [seven, eight]), Edit([], [NEWCOMER]);
            && WellFormed(d) && Succeeds(add, d, works)
            && Find(Atomic(add, d, works).procs, 7) == Some(Seen(seven, works))
            && Find(Atomic(add, d, works).procs, 8) == Some(Seen(eight, works))
  {
    var d, before: Procs := Device(4 * MIB, 2 * MIB, 2 * MIB, [seven, eight]), [];
    var add := Edit(before, [NEWCOMER]);
    TwoOwned(seven, eight);
    assert Find(d.procs, 7) == Some(seven) by { FindAt(d.procs, 0); }
    assert Find(d.procs, 8) == Some(eight) by { FindAt(d.procs, 1); }
    assert Find(d.procs, 9).None?;
    forall pid: u32 | Touched(before, [NEWCOMER], pid) ensures pid == 9 {
    }
    AddFits(d, NEWCOMER, works);
    UntouchedPid(add, d, works, 7);
    UntouchedPid(add, d, works, 8);
  }

  /** Adding a PID nobody has, with no memory, is always accepted. */
  lemma AddFits(d: Device, newcomer: Process, works: bool)
    requires WellFormed(d) && Find(d.procs, newcomer.pid).None? && ValidProcess(newcomer) && newcomer.memMiB == 0
    ensures Succeeds(Edit([], [newcomer]), d, works)
  {
    var o := Observed(d, works);
    ObservedWellFormed(d, works);
    ViewFind(d.procs, works, newcomer.pid);
    AddMerged(o.procs, newcomer);
    var merged := o.procs + [newcomer];
    assert merged[..|o.procs|] == o.procs;
    ReconcileRefusal(o, merged);
  }

  lemma AddMerged(s: Procs, newcomer: Process)
    requires Distinct(s) && Find(s, newcomer.pid).None?
    ensures Rebased([], [newcomer], s) == Some(s + [newcomer])
  {
    var none: Procs := [];
    assert Compatible(none, [newcomer], s) by {
      assert forall pid: u32 :: Touched(none, [newcomer], pid) ==> pid == newcomer.pid;
    }
    assert Edited(none, [newcomer], none, [newcomer], s) == s by {
      RewriteNothing(Slots(none, [newcomer], none, [newcomer]), s);
    }
    assert Added(none, [newcomer]) == [newcomer] by { assert [newcomer][..0] == []; }
  }

  lemma TwoOwned(p: Process, q: Process)
    ensures OwnedMiB([p, q]) == p.memMiB + q.memMiB
  {
    OwnedConcat([p], [q]);
    assert [p] + [q] == [p, q] && [p][..0] == [] && [q][..0] == [];
  }

  ghost predicate Quietly(t: Trace, k: nat, n: nat, g: Gpu, pid: u32) {
    forall i :: k <= i < n <= |t.events| ==> !EditsPid(t.events[i], g, pid)
  }

  /** If this event rewrites the records of `g`, it read their telemetry. */
  ghost predicate PmonAt(e: Event, g: Gpu) { e.Committed? && e.gpu == g && e.op.Edit? ==> e.pmonWorks }

  ghost predicate PmonWorked(t: Trace, k: nat, n: nat, g: Gpu) {
    forall i :: k <= i < n <= |t.events| ==> PmonAt(t.events[i], g)
  }

  lemma StepPersists(devs: seq<Device>, devs': seq<Device>, e: Event, g: Gpu, pid: u32)
    requires AtomicStep(devs, devs', e) && g < |devs| && !EditsPid(e, g, pid)
    ensures var works := PmonAt(e, g);
            && g < |devs'| && Core(Find(devs'[g].procs, pid)) == Core(Find(devs[g].procs, pid))
            && forall w: bool :: SeenOf(Find(devs'[g].procs, pid), w) == SeenOf(Find(devs[g].procs, pid), w && works)
  {
    if e.Committed? && e.gpu == g {
      UntouchedPid(e.op, devs[g], e.pmonWorks, pid);
      var was := Find(devs[g].procs, pid);
      if was.Some? {
        SeenAgain(was.value, e.pmonWorks, true);
        SeenAgain(was.value, e.pmonWorks, false);
      }
    }
  }

  /** Between two states of any trace, a PID that no commit edited keeps its
      record; its telemetry too, exactly as far as all telemetry queries of the
      edits in between worked. */
  lemma {:induction false} RecordPersists(t: Trace, k: nat, n: nat, g: Gpu, pid: u32)
    requires t.Valid() && k <= n < |t.devs|
    requires g < |t.devs[k]| && Quietly(t, k, n, g, pid)
    ensures g < |t.devs[n]|
    ensures Core(Find(t.devs[n][g].procs, pid)) == Core(Find(t.devs[k][g].procs, pid))
    ensures forall w: bool :: SeenOf(Find(t.devs[n][g].procs, pid), w)
                           == SeenOf(Find(t.devs[k][g].procs, pid), w && PmonWorked(t, k, n, g))
  {
    if k < n {
      RecordPersists(t, k, n - 1, g, pid);
      assert t.StepAt(n - 1);
      StepPersists(t.devs[n - 1], t.devs[n], t.events[n - 1], g, pid);
      assert PmonWorked(t, k, n, g) <==> PmonWorked(t, k, n - 1, g) && PmonAt(t.events[n - 1], g);
    }
  }

  /** No lost update: what a commit wrote for a PID is still there as long as no
      later commit edits that PID. */
  lemma NoLostUpdate(t: Trace, k: nat, n: nat, pid: u32)
    requires t.Valid() && k < n < |t.devs|
    requires t.events[k].Committed? && t.events[k].op.Edit?
    requires Touched(t.events[k].op.before, t.events[k].op.desired, pid)
    requires Quietly(t, k + 1, n, t.events[k].gpu, pid)
    ensures var g, wrote := t.events[k].gpu, Find(t.events[k].op.desired, pid);
            && g < |t.devs[n]|
            && Core(Find(t.devs[n][g].procs, pid)) == Core(wrote)
            && SeenOf(Find(t.devs[n][g].procs, pid), true) == SeenOf(wrote, PmonWorked(t, k + 1, n, g))
  {
    var e, devs := t.events[k], t.devs[k];
    assert t.StepAt(k);
    EditByPid(e.op.before, e.op.desired, devs[e.gpu], e.pmonWorks, pid);
    RecordPersists(t, k + 1, n, e.gpu, pid);
  }

  // ---------- unreadable names ----------

  /** A commit makes the GPUs unreadable exactly when it writes an unreadable name
      on purpose. */
  lemma CommitLegibleIff(devs: seq<Device>, devs': seq<Device>, e: Event)
    requires AtomicStep(devs, devs', e) && e.Committed?
    ensures AllLegible(devs') <==>
              match e.op
              case Replace(ps) => forall i :: 0 <= i < |ps| ==> Readable(ps[i].name)
              case Edit(before, desired) => forall pid: u32 :: WritesReadable(before, desired, pid)
              case _ => true
  {
    assert AllLegible(devs') <==> Legible(devs'[e.gpu]);
    if e.op.Edit? { EditLegibleIff(e.op.before, e.op.desired, devs[e.gpu], e.pmonWorks); }
  }

  /** Once one name on one GPU is unreadable, nothing commits on any GPU for the
      rest of the run. */
  lemma {:induction false} UnreadableBlocksAll(t: Trace, k: nat, n: nat)
    requires t.Valid() && k <= n < |t.devs|  && !AllLegible(t.devs[k])
    ensures t.devs[n] == t.devs[k]
    ensures forall i :: k <= i < n ==> !t.events[i].Committed?
  {
    if k < n {
      UnreadableBlocksAll(t, k, n - 1);
      assert t.StepAt(n - 1);
    }
  }

  /** Such a name is accepted: one with a comma in it. */
  lemma UnreadableAccepted()
    ensures var d, add := Device(MIB, 0, MIB, []), Edit([], [NEWCOMER.(name := "a,b")]);
            WellFormed(d) && Legible(d) && Succeeds(add, d, true) && !Legible(Atomic(add, d, true))
  {
    var d, newcomer := Device(MIB, 0, MIB, []), NEWCOMER.(name := "a,b");
    var before: Procs := [];
    AddFits(d, newcomer, true);
    EditLegibleIff(before, [newcomer], d, true);
    assert Find([newcomer], 9) == Some(newcomer) by { FindAt([newcomer], 0); }
    assert "a,b"[1] == ',';
    assert !WritesReadable(before, [newcomer], 9);
  }

  // ---------- the unchecked entry point ----------

  /** Replacing the whole list keeps PIDs unique exactly when the caller's list
      has them unique. */
  lemma ReplaceUniqueIff(ps: Procs, d: Device, works: bool)
    requires WellFormed(d) && Succeeds(Replace(ps), d, works)
    ensures WellFormed(Atomic(Replace(ps), d, works)) <==> Distinct(ps)
  {
    ObservedWellFormed(d, works);
    ReconcileConserves(Observed(d, works), ps);
  }

  /** Such a list is accepted: the same record twice. */
  lemma RepeatedPidAccepted()
    ensures var d := Device(4 * MIB, 0, 4 * MIB, []);
            WellFormed(d) && Succeeds(Replace([BUSY, BUSY]), d, true)
                && !WellFormed(Atomic(Replace([BUSY, BUSY]), d, true))
  {
    var d, twice := Device(4 * MIB, 0, 4 * MIB, []), [BUSY, BUSY];
    TwoOwned(BUSY, BUSY);
    ObservedWellFormed(d, true);
    FloorExact(d.free);
    ReconcileRefusal(Observed(d, true), twice);
    assert twice[0].pid == twice[1].pid;
    ReplaceUniqueIff(twice, d, true);
  }

  lemma StepBlocked(devs: seq<Device>, devs': seq<Device>, e: Event, g: Gpu)
    requires AtomicStep(devs, devs', e) && g < |devs| && !Distinct(devs[g].procs)
    requires e.Committed? && e.gpu == g ==> !e.op.Replace?
    ensures e.Committed? && e.gpu == g ==> !e.op.Edit?
    ensures g < |devs'| && devs'[g].procs == devs[g].procs
  {
    if e.Committed? && e.gpu == g {
      ViewDistinct(devs[g].procs, Telemetry(devs[g].procs, e.pmonWorks));
    }
  }

  /** Once a GPU lists a PID twice, no edit on it commits and the repetition
      stays, in every run, until someone replaces the whole list. */
  lemma {:induction false} RepeatedPidBlocksEdits(t: Trace, k: nat, n: nat, g: Gpu)
    requires t.Valid() && k <= n < |t.devs|
    requires g < |t.devs[k]| && !Distinct(t.devs[k][g].procs)
    requires forall i :: k <= i < n && t.events[i].Committed? && t.events[i].gpu == g ==> !t.events[i].op.Replace?
    ensures forall i :: k <= i < n && t.events[i].Committed? && t.events[i].gpu == g ==> !t.events[i].op.Edit?
    ensures g < |t.devs[n]| && t.devs[n][g].procs == t.devs[k][g].procs
  {
    if k < n {
      RepeatedPidBlocksEdits(t, k, n - 1, g);
      assert t.StepAt(n - 1);
      StepBlocked(t.devs[n - 1], t.devs[n], t.events[n - 1], g);
    }
  }
}
