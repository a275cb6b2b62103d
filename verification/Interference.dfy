/** A registry among other clients: its commits in any run of the lock protocol,
    with everybody else acting in between. */
module Interference {
  import opened Accounting
  import opened Rebase
  import opened Operations
  import opened SinglePid
  import opened History
  import opened Protocol

  /** The edit of one PID that the registry and the command line send, made from
      whatever snapshot. */
  ghost predicate OnePidEdit(op: Op, pid: u32) {
    op.Edit? && exists rec: Option<Process> :: Names(rec, pid) && op.desired == Desired(op.before, pid, rec)
  }

  /** From `k` to `n`, actor `a` edits no PID but its own, and nobody else edits
      that one on `g`. */
  ghost predicate Registering(t: Trace, k: nat, n: nat, g: Gpu, a: Actor, pid: u32) {
    forall i :: k <= i < n <= |t.events| ==> RegisteringAt(t.events[i], g, a, pid)
  }

  ghost predicate RegisteringAt(e: Event, g: Gpu, a: Actor, pid: u32) {
    e.Committed? ==> if e.actor == a then OnePidEdit(e.op, pid) else !EditsPid(e, g, pid)
  }

  /** Nobody but `a` edits `q` on `g`. */
  ghost predicate OthersLeave(t: Trace, k: nat, n: nat, g: Gpu, a: Actor, q: u32) {
    forall i :: k <= i < n <= |t.events| && t.events[i].Committed? && t.events[i].actor != a ==>
      !EditsPid(t.events[i], g, q)
  }

  /** A commit of the registry edits its own PID and no other. */
  lemma OwnPidOnly(devs: seq<Device>, devs': seq<Device>, e: Event, g: Gpu, pid: u32, q: u32)
    requires AtomicStep(devs, devs', e) && e.Committed? && OnePidEdit(e.op, pid) && q != pid
    ensures !EditsPid(e, g, q)
  {
    var rec :| Names(rec, pid) && e.op.desired == Desired(e.op.before, pid, rec);
    assert Distinct(e.op.before);
    DesiredOnly(e.op.before, pid, rec);
  }

  lemma RegistryIsQuiet(t: Trace, k: nat, n: nat, g: Gpu, a: Actor, pid: u32, q: u32)
    requires t.Valid() && k <= n < |t.devs| && q != pid
    requires Registering(t, k, n, g, a, pid) && OthersLeave(t, k, n, g, a, q)
    ensures Quietly(t, k, n, g, q)
  {
    forall i | k <= i < n ensures !EditsPid(t.events[i], g, q) {
      assert t.StepAt(i) && RegisteringAt(t.events[i], g, a, pid);
      if t.events[i].Committed? && t.events[i].actor == a {
        OwnPidOnly(t.devs[i], t.devs[i + 1], t.events[i], g, pid, q);
      }
    }
  }

  /** Whatever a registry does in between, another PID holds what its last editor
      wrote. */
  lemma OthersWritesStay(t: Trace, k: nat, n: nat, a: Actor, pid: u32, q: u32)
    requires t.Valid() && k < n < |t.devs| && q != pid
    requires t.events[k].Committed? && t.events[k].op.Edit?
    requires Touched(t.events[k].op.before, t.events[k].op.desired, q)
    requires Registering(t, k + 1, n, t.events[k].gpu, a, pid) && OthersLeave(t, k + 1, n, t.events[k].gpu, a, q)
    ensures var g := t.events[k].gpu;
            && g < |t.devs[n]|
            && Core(Find(t.devs[n][g].procs, q)) == Core(Find(t.events[k].op.desired, q))
  {
    RegistryIsQuiet(t, k + 1, n, t.events[k].gpu, a, pid, q);
    NoLostUpdate(t, k, n, q);
  }

  // ---------- counters ----------

  ghost function Delta(e: Event, g: Gpu): int {
    if !e.Committed? || e.gpu != g then 0
    else if e.op.Reserve? then e.op.delta
    else if e.op.Release? then 0 - e.op.delta
    else 0
  }

  /** What the memory operations on `g` add up to. */
  ghost function Net(t: Trace, k: nat, n: nat, g: Gpu): int
    requires k <= n <= |t.events|
  {
    if k == n then 0 else Net(t, k, n - 1, g) + Delta(t.events[n - 1], g)
  }

  ghost predicate OrderlyAt(e: Event, g: Gpu) {
    e.Committed? ==> Checked(e.op) && (e.gpu == g ==> Whole(e.op) && !e.op.SetUsed?)
  }

  ghost predicate Orderly(t: Trace, k: nat, n: nat, g: Gpu) {
    forall i :: k <= i < n <= |t.events| ==> OrderlyAt(t.events[i], g)
  }

  lemma StepNet(devs: seq<Device>, devs': seq<Device>, e: Event, g: Gpu)
    requires AtomicStep(devs, devs', e) && OrderlyAt(e, g) && g < |devs| && WellFormed(devs[g]) && Aligned(devs[g])
    ensures g < |devs'| && WellFormed(devs'[g]) && Aligned(devs'[g])
    ensures NonProcess(devs'[g]) == NonProcess(devs[g]) + Delta(e, g) && Pool(devs'[g]) == Pool(devs[g])
  {
    if e.Committed? && e.gpu == g {
      AtomicKeeps(e.op, devs[g], e.pmonWorks);
      AtomicExact(e.op, devs[g], e.pmonWorks);
    }
  }

  /** Non-process usage moves by the memory operations alone, and the pool not at
      all: edits of process records, the registry's among them, count for nothing. */
  lemma {:induction false} UsageIsNet(t: Trace, k: nat, n: nat, g: Gpu)
    requires t.Valid() && k <= n < |t.devs| && g < |t.devs[k]| && Orderly(t, k, n, g)
    requires WellFormed(t.devs[k][g]) && Aligned(t.devs[k][g])
    ensures g < |t.devs[n]| && WellFormed(t.devs[n][g]) && Aligned(t.devs[n][g])
    ensures NonProcess(t.devs[n][g]) == NonProcess(t.devs[k][g]) + Net(t, k, n, g)
    ensures Pool(t.devs[n][g]) == Pool(t.devs[k][g])
  {
    if k < n {
      UsageIsNet(t, k, n - 1, g);
      assert t.StepAt(n - 1) && OrderlyAt(t.events[n - 1], g);
      StepNet(t.devs[n - 1], t.devs[n], t.events[n - 1], g);
    }
  }

  // ---------- register, resize, release ----------

  /** This event took `pid` off `g`. */
  ghost predicate TakesOff(e: Event, g: Gpu, pid: u32) {
    EditsPid(e, g, pid) && e.op.Edit? && Find(e.op.desired, pid).None?
  }

  /** From some point on nobody edits `pid` on `g`, and there it is off: it was not
      listed, or had just been taken off. */
  ghost predicate LeftOff(t: Trace, k: nat, n: nat, g: Gpu, pid: u32) {
    exists m :: k <= m <= n < |t.devs| && OffFrom(t, m, n, g, pid)
  }

  ghost predicate OffFrom(t: Trace, m: nat, n: nat, g: Gpu, pid: u32)
    requires m <= n < |t.devs|
  {
    || (g < |t.devs[m]| && Find(t.devs[m][g].procs, pid).None? && Quietly(t, m, n, g, pid))
    || (m < n <= |t.events| && TakesOff(t.events[m], g, pid) && Quietly(t, m + 1, n, g, pid))
  }

  lemma AbsentAfter(t: Trace, k: nat, n: nat, g: Gpu, pid: u32)
    requires t.Valid() && LeftOff(t, k, n, g, pid)
    ensures g < |t.devs[n]| && Find(t.devs[n][g].procs, pid).None?
  {
    var m :| k <= m <= n < |t.devs| && OffFrom(t, m, n, g, pid);
    if g < |t.devs[m]| && Find(t.devs[m][g].procs, pid).None? && Quietly(t, m, n, g, pid) {
      RecordPersists(t, m, n, g, pid);
    } else {
      NoLostUpdate(t, m, n, pid);
    }
  }

  ghost predicate ActsOn(e: Event, a: Actor, g: Gpu) { e.Committed? && e.actor == a && e.gpu == g }

  /** A release of `pid` on `g` that succeeds: at `m` the registry has read the list
      `before`.  Not finding the PID it is done; otherwise its one commit there takes
      the PID out of that list. */
  ghost predicate Releases(t: Trace, m: nat, n: nat, g: Gpu, a: Actor, pid: u32, before: Procs) {
    && m <= n < |t.devs| == |t.events| + 1 && g < |t.devs[m]|
    && (Find(before, pid).None? <==> Find(t.devs[m][g].procs, pid).None?)
    && if Find(before, pid).None? then forall i :: m <= i < n ==> !ActsOn(t.events[i], a, g)
       else exists j :: m <= j < n && ReleasingCommit(t, m, n, j, g, a, pid, before)
  }

  ghost predicate ReleasingCommit(t: Trace, m: nat, n: nat, j: nat, g: Gpu, a: Actor, pid: u32, before: Procs)
    requires m <= j < n <= |t.events|
  {
    && ActsOn(t.events[j], a, g) && t.events[j].op == Edit(before, Desired(before, pid, None))
    && forall i :: m <= i < n && i != j ==> !ActsOn(t.events[i], a, g)
  }

  /** Such a release leaves the PID off, whatever the other clients do meanwhile. */
  lemma ReleaseLeavesOff(t: Trace, k: nat, m: nat, n: nat, g: Gpu, a: Actor, pid: u32, before: Procs)
    requires t.Valid() && k <= m <= n < |t.devs| && Registering(t, m, n, g, a, pid)
    requires Releases(t, m, n, g, a, pid, before)
    ensures LeftOff(t, k, n, g, pid)
  {
    if Find(before, pid).None? {
      QuietWithout(t, m, n, g, a, pid);
      assert OffFrom(t, m, n, g, pid);
    } else {
      var j :| m <= j < n && ReleasingCommit(t, m, n, j, g, a, pid, before);
      QuietWithout(t, j + 1, n, g, a, pid);
      assert t.StepAt(j);
      DesiredOnly(before, pid, None);
      assert TakesOff(t.events[j], g, pid);
      assert OffFrom(t, j, n, g, pid);
    }
  }

  /** While the registry does nothing on `g`, nobody edits its PID there. */
  lemma QuietWithout(t: Trace, m: nat, n: nat, g: Gpu, a: Actor, pid: u32)
    requires n <= |t.events| && Registering(t, m, n, g, a, pid)
    requires forall i :: m <= i < n ==> !ActsOn(t.events[i], a, g)
    ensures Quietly(t, m, n, g, pid)
  {
    forall i | m <= i < n ensures !EditsPid(t.events[i], g, pid) {
      assert RegisteringAt(t.events[i], g, a, pid) && !ActsOn(t.events[i], a, g);
    }
  }

  /** Registering, resizing and releasing one PID among other clients.  In every
      trace in which its registry ends with a successful release and nobody else
      edits that PID: the PID is gone; every other PID that nobody else edited has
      the record it had, telemetry aside; non-process usage has changed by what
      others reserved and released, and the pool not at all. */
  lemma RegistrationLeavesNoTrace(t: Trace, k: nat, m: nat, n: nat, g: Gpu, a: Actor, pid: u32, before: Procs)
    requires t.Valid() && k <= m <= n < |t.devs| && g < |t.devs[k]|
    requires Registering(t, k, n, g, a, pid) && Releases(t, m, n, g, a, pid, before) && Orderly(t, k, n, g)
    requires WellFormed(t.devs[k][g]) && Aligned(t.devs[k][g])
    ensures g < |t.devs[n]| && Find(t.devs[n][g].procs, pid).None?
    ensures WellFormed(t.devs[n][g]) && Aligned(t.devs[n][g])
    ensures NonProcess(t.devs[n][g]) == NonProcess(t.devs[k][g]) + Net(t, k, n, g)
    ensures Pool(t.devs[n][g]) == Pool(t.devs[k][g])
    ensures forall q: u32 :: q != pid && OthersLeave(t, k, n, g, a, q) ==>
              SeenOf(Find(t.devs[n][g].procs, q), false) == SeenOf(Find(t.devs[k][g].procs, q), false)
  {
    ReleaseLeavesOff(t, k, m, n, g, a, pid, before);
    AbsentAfter(t, k, n, g, pid);
    UsageIsNet(t, k, n, g);
    forall q: u32 | q != pid && OthersLeave(t, k, n, g, a, q)
      ensures SeenOf(Find(t.devs[n][g].procs, q), false) == SeenOf(Find(t.devs[k][g].procs, q), false)
    {
      RegistryIsQuiet(t, k, n, g, a, pid, q);
      RecordPersists(t, k, n, g, q);
    }
  }

  /** Nobody but `a` commits anything on `g`. */
  ghost predicate Alone(t: Trace, k: nat, n: nat, g: Gpu, a: Actor) {
    forall i :: k <= i < n <= |t.events| && t.events[i].Committed? && t.events[i].gpu == g ==> t.events[i].actor == a
  }

  lemma {:induction false} AloneNet(t: Trace, k: nat, n: nat, g: Gpu, a: Actor, pid: u32)
    requires k <= n <= |t.events| && Alone(t, k, n, g, a) && Registering(t, k, n, g, a, pid)
    ensures Net(t, k, n, g) == 0
  {
    if k < n {
      AloneNet(t, k, n - 1, g, a, pid);
      assert RegisteringAt(t.events[n - 1], g, a, pid);
    }
  }

  /** With nobody else on that GPU, and the PID absent at first, it ends up with the
      same counters and the same records, telemetry aside. */
  lemma RegistrationAloneIsIdentity(t: Trace, k: nat, m: nat, n: nat, g: Gpu, a: Actor, pid: u32, before: Procs)
    requires t.Valid() && k <= m <= n < |t.devs| && g < |t.devs[k]|
    requires Registering(t, k, n, g, a, pid) && Releases(t, m, n, g, a, pid, before) && Orderly(t, k, n, g)
    requires Alone(t, k, n, g, a)
    requires WellFormed(t.devs[k][g]) && Aligned(t.devs[k][g]) && Find(t.devs[k][g].procs, pid).None?
    ensures g < |t.devs[n]|
    ensures t.devs[n][g].used == t.devs[k][g].used && t.devs[n][g].free == t.devs[k][g].free
    ensures multiset(Observed(t.devs[n][g], false).procs) == multiset(Observed(t.devs[k][g], false).procs)
  {
    RegistrationLeavesNoTrace(t, k, m, n, g, a, pid, before);
    AloneNet(t, k, n, g, a, pid);
    var d, d' := t.devs[k][g], t.devs[n][g];
    ObservedWellFormed(d, false);
    ObservedWellFormed(d', false);
    forall q: u32 ensures Find(Observed(d', false).procs, q) == Find(Observed(d, false).procs, q) {
      assert OthersLeave(t, k, n, g, a, q);
      ViewFind(d.procs, false, q);
      ViewFind(d'.procs, false, q);
    }
    SameRecordsSamePermutation(Observed(d', false).procs, Observed(d, false).procs);
  }

  /** All of this in every interleaving of the small steps, over any stretch
      without an overwriting (`k`, `m` and `n` count from its start). */
  lemma RegistrationInRun(r: Run, from: nat, to: nat, k: nat, m: nat, n: nat, g: Gpu, a: Actor, pid: u32, before: Procs)
    requires r.Valid() && Timely(r, from, to) && k <= m <= n <= to - from
    requires var t := TraceOf(r, from, to);
             && Registering(t, k, n, g, a, pid) && Releases(t, m, n, g, a, pid, before) && Orderly(t, k, n, g)
             && g < |t.devs[k]| && WellFormed(t.devs[k][g]) && Aligned(t.devs[k][g])
    ensures var t, devs := TraceOf(r, from, to), r.states[from + n].devs;
            && g < |devs| && Find(devs[g].procs, pid).None?
            && NonProcess(devs[g]) == NonProcess(r.states[from + k].devs[g]) + Net(t, k, n, g)
            && Pool(devs[g]) == Pool(r.states[from + k].devs[g])
            && forall q: u32 :: q != pid && OthersLeave(t, k, n, g, a, q) ==>
                 Core(Find(devs[g].procs, q)) == Core(Find(r.states[from + k].devs[g].procs, q))
  {
    RunRefinesAtomic(r, from, to);
    var t := TraceOf(r, from, to);
    RegistrationLeavesNoTrace(t, k, m, n, g, a, pid, before);
    forall q: u32 | q != pid && OthersLeave(t, k, n, g, a, q)
      ensures Core(Find(t.devs[n][g].procs, q)) == Core(Find(t.devs[k][g].procs, q))
    {
      CoreSeen(Find(t.devs[n][g].procs, q), false);
      CoreSeen(Find(t.devs[k][g].procs, q), false);
    }
  }
}
