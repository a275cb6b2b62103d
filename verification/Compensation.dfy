/** Registering one PID on several GPUs, as a function of what the GPUs show and
    of how the upstream commands end: how far it gets, what its rollback restores,
    and on which GPUs the PID is left behind. */
module Compensation {
  import opened Accounting
  import opened Text
  import opened Rebase
  import opened Operations
  import opened SinglePid
  import opened OnePid
  import opened Control

  /** What a GPU shows of a registration: the PID's record, and whether the other
      records still have the telemetry they had. */
  datatype Place = Place(rec: Option<Process>, lit: bool)

  /** A registration under way: the PID's places, how the commands to come end, and
      whether reads can succeed. */
  datatype State = State(held: seq<Place>, script: seq<Fault>, legible: bool)

  /** One registration: the GPUs' names and what they show, the PID, a record for
      each target, and whether a GPU has room for a record. */
  datatype Batch = Batch(
    names: seq<Name>, o: seq<Device>, pid: u32, targets: seq<string>, recs: seq<Process>,
    room: (int, Option<Process>) -> bool)
  {
    ghost predicate Valid() {
      && |recs| == |targets| && OwnRecords(pid, recs) && Honest()
      && forall i :: 0 <= i < |o| ==> Plainly(o[i])
    }

    ghost predicate Honest() {
      forall i: int, rec: Option<Process> :: room(i, rec) <==> 0 <= i < |o| && Room(o[i], pid, rec)
    }

    predicate Admits(i: int, rec: Option<Process>) { (rec.Some? ==> ValidProcess(rec.value)) && room(i, rec) }

    ghost predicate ReadableNames() { forall j :: 0 <= j < |recs| ==> Readable(recs[j].name) }
  }

  ghost function NewBatch(names: seq<Name>, o: seq<Device>, pid: u32, targets: seq<string>,
                          recs: seq<Process>): (b: Batch)
    ensures b.names == names && b.o == o && b.pid == pid && b.targets == targets && b.recs == recs && b.Honest()
  {
    Batch(names, o, pid, targets, recs, (i: int, rec: Option<Process>) => 0 <= i < |o| && Room(o[i], pid, rec))
  }

  datatype PriorProcess = PriorProcess(target: string, process: Option<Process>)

  ghost predicate ReadableRecord(rec: Option<Process>) { rec.Some? ==> Readable(rec.value.name) }

  ghost function PlacesOf(o: seq<Device>, pid: u32): (h: seq<Place>)
    ensures |h| == |o| && forall i :: 0 <= i < |o| ==> h[i] == Place(Find(o[i].procs, pid), true)
  {
    seq(|o|, i requires 0 <= i < |o| => Place(Find(o[i].procs, pid), true))
  }

  ghost predicate OwnRecords(pid: u32, recs: seq<Process>) {
    forall i :: 0 <= i < |recs| ==> recs[i].pid == pid
  }

  // ---------- scripts ----------

  ghost predicate AllFine(script: seq<Fault>) {
    forall i :: 0 <= i < |script| ==> script[i].Fine?
  }

  lemma RestFine(script: seq<Fault>)
    requires AllFine(script)
    ensures AllFine(Rest(script)) && Next(script).Fine?
  {
  }

  /** How many commands of a script do not simply work. */
  function Faults(script: seq<Fault>): nat {
    if script == [] then 0 else (if script[0].Fine? then 0 else 1) + Faults(script[1..])
  }

  lemma FaultsRest(script: seq<Fault>)
    ensures Faults(script) == Faults(Rest(script)) + if Next(script).Fine? then 0 else 1
  {
  }

  lemma {:induction false} FaultsNone(script: seq<Fault>)
    ensures Faults(script) == 0 <==> AllFine(script)
  {
    if script != [] {
      FaultsNone(script[1..]);
      assert AllFine(script) <==> script[0].Fine? && AllFine(script[1..]);
    }
  }

  /** Nothing in the outcome script is a failed telemetry query. */
  ghost predicate NoPmonFault(script: seq<Fault>) {
    forall i :: 0 <= i < |script| ==> !script[i].PmonFails?
  }

  lemma RestCalm(script: seq<Fault>)
    requires NoPmonFault(script)
    ensures NoPmonFault(Rest(script)) && !Next(script).PmonFails?
  {
  }

  lemma FineIsCalm(script: seq<Fault>)
    requires AllFine(script)
    ensures NoPmonFault(script)
  {
  }

  // ---------- one target ----------

  /** Whether it worked, or stopped for want of memory; the PID's record as first read;
      and the state afterwards. */
  datatype Tried = Tried(ok: bool, short: bool, prior: Option<Process>, next: State)

  /** Its bytes fit in 64 bits. */
  predicate Countable(rec: Option<Process>) { rec.Some? ==> rec.value.memMiB * MIB <= MAX64 }

  /** One read, check and commit of `rec` on the GPU `target` names. */
  ghost function Try(b: Batch, s: State, target: string, rec: Option<Process>): (t: Tried)
    ensures |t.next.held| == |s.held|
    ensures !t.ok ==> t.next == s.(script := t.next.script)
  {
    var i, read, rest := Resolve(b.names, target), Next(s.script), Rest(s.script);
    if read.ReadFails? || !s.legible || !(0 <= i < |s.held|) then Tried(false, false, None, s.(script := rest))
    else if !b.room(i, rec) then Tried(false, Countable(rec), None, s.(script := rest))
    else TryCommit(b, s.(script := rest), i, !read.PmonFails?, rec)
  }

  /** The commit on GPU `i`, its snapshot read with telemetry or not (`first`).  The
      fresh read may lack what the snapshot had, or the other way round; then the
      edit looks contested. */
  ghost function TryCommit(b: Batch, s: State, i: nat, first: bool, rec: Option<Process>): (t: Tried)
    requires i < |s.held|
    ensures |t.next.held| == |s.held|
    ensures !t.ok ==> t.next == s.(script := t.next.script)
  {
    var place, again, rest := s.held[i], !Next(s.script).PmonFails?, Rest(s.script);
    if Next(s.script).ReadFails? || !b.Admits(i, rec) || Contested(place.rec, first, rec, again)
    then Tried(false, false, None, s.(script := rest))
    else if Next(rest).WriteFails? then Tried(false, false, None, s.(script := Rest(rest)))
    else
      var after := Place(RecordAfter(place.rec, first, rec, again), place.lit && again);
      Tried(true, false, SeenOf(place.rec, first), State(s.held[i := after], Rest(rest), ReadableRecord(rec)))
  }

  // ---------- the way forward ----------

  /** `short` if it stopped for want of memory. */
  datatype Progress = Progress(applied: seq<PriorProcess>, state: State, short: bool)

  /** Registers target after target up to the first that fails; those in `applied`
      are registered already. */
  ghost function Reach(b: Batch, s: State, applied: seq<PriorProcess>): (r: Progress)
    requires |applied| <= |b.targets| == |b.recs|
    ensures |applied| <= |r.applied| <= |b.targets| && |r.state.held| == |s.held|
    decreases |b.targets| - |applied|
  {
    var n := |applied|;
    if n == |b.targets| then Progress(applied, s, false)
    else
      var t := Try(b, s, b.targets[n], Some(b.recs[n]));
      if t.ok then Reach(b, t.next, applied + [PriorProcess(b.targets[n], t.prior)])
      else Progress(applied, t.next, t.short)
  }

  lemma ReachStep(b: Batch, s: State, applied: seq<PriorProcess>, t: Tried)
    requires |applied| < |b.targets| == |b.recs|
    requires t == Try(b, s, b.targets[|applied|], Some(b.recs[|applied|]))
    ensures Reach(b, s, applied)
         == if t.ok then Reach(b, t.next, applied + [PriorProcess(b.targets[|applied|], t.prior)])
            else Progress(applied, t.next, t.short)
  {
  }

  // ---------- the way back ----------

  /** Which of the first `n` entries of the log a rollback, last entry first,
      manages to restore. */
  ghost function Restores(b: Batch, s: State, applied: seq<PriorProcess>, n: nat): (r: seq<bool>)
    requires n <= |applied|
    ensures |r| == n
    decreases n
  {
    if n == 0 then []
    else
      var t := Try(b, s, applied[n - 1].target, applied[n - 1].process);
      Restores(b, t.next, applied, n - 1) + [t.ok]
  }

  ghost function Back(b: Batch, s: State, item: PriorProcess): State { Try(b, s, item.target, item.process).next }

  /** The state after that rollback. */
  ghost function RolledBack(b: Batch, s: State, applied: seq<PriorProcess>, n: nat): (r: State)
    requires n <= |applied|
    ensures |r.held| == |s.held|
    decreases n
  {
    if n == 0 then s
    else RolledBack(b, Back(b, s, applied[n - 1]), applied, n - 1)
  }

  // ---------- the whole registration ----------

  /** The log, the state when it turned back (or was done) and whether that was for
      want of memory, what the rollback restored, and the state in the end. */
  datatype Outcome = Outcome(applied: seq<PriorProcess>, turned: State, short: bool, restored: seq<bool>, end: State)

  ghost function Registered(b: Batch, s: State): (r: Outcome)
    requires |b.recs| == |b.targets|
    ensures |r.applied| <= |b.targets| && |r.end.held| == |s.held| && |r.restored| == |r.applied|
  {
    var p := Reach(b, s, []);
    var n := |p.applied|;
    Outcome(p.applied, p.state, p.short, Restores(b, p.state, p.applied, n),
            if n == |b.targets| then p.state else RolledBack(b, p.state, p.applied, n))
  }

  // ---------- what can be held ----------

  /** Whatever a GPU held at any point on the way fits it. */
  ghost predicate Holdable(o: Device, pid: u32, rec: Option<Process>) {
    && Names(rec, pid) && CanonicalRecord(rec) && Fits(o, pid, rec)
    && (rec.None? ==> Find(o.procs, pid).None?)
  }

  ghost predicate Tenable(b: Batch, s: State) {
    && |s.held| == |b.o|
    && forall i :: 0 <= i < |b.o| ==>
         Holdable(b.o[i], b.pid, s.held[i].rec) && (s.legible ==> ReadableRecord(s.held[i].rec))
  }

  ghost predicate Restorable(b: Batch, item: PriorProcess) {
    var i := Resolve(b.names, item.target);
    0 <= i < |b.o| && Holdable(b.o[i], b.pid, item.process) && ReadableRecord(item.process)
  }

  ghost predicate RestorableLog(b: Batch, applied: seq<PriorProcess>) {
    forall j :: 0 <= j < |applied| ==> Restorable(b, applied[j])
  }

  /** The state a registration starts from. */
  ghost predicate Opens(b: Batch, s: State) {
    && b.Valid() && s.held == PlacesOf(b.o, b.pid)
    && (s.legible ==> forall i :: 0 <= i < |b.o| ==> ReadableRecord(s.held[i].rec))
  }

  lemma OpensTenable(b: Batch, s: State)
    requires Opens(b, s)
    ensures Tenable(b, s)
  {
    forall i | 0 <= i < |b.o| ensures Holdable(b.o[i], b.pid, s.held[i].rec) {
      HeldSelf(b.o[i], b.pid);
    }
  }

  lemma SeenHoldable(o: Device, pid: u32, rec: Option<Process>, works: bool)
    requires Plainly(o) && Names(rec, pid) && Fits(o, pid, rec) && (rec.None? ==> Find(o.procs, pid).None?)
    ensures Holdable(o, pid, SeenOf(rec, works))
  {
    ChangedOwned(o.procs, pid, rec);
    ChangedOwned(o.procs, pid, SeenOf(rec, works));
    if rec.Some? { SeenAgain(rec.value, works, true); }
  }

  lemma SeenReadable(rec: Option<Process>, works: bool)
    requires ReadableRecord(rec)
    ensures ReadableRecord(SeenOf(rec, works))
  {
    if rec.Some? { TrimReadable(rec.value.name); }
  }

  lemma SeenTenable(o: Device, pid: u32, held: Option<Process>, works: bool)
    requires Plainly(o) && Holdable(o, pid, held) && ReadableRecord(held)
    ensures Holdable(o, pid, SeenOf(held, works)) && ReadableRecord(SeenOf(held, works))
  {
    SeenHoldable(o, pid, held, works);
    SeenReadable(held, works);
  }

  lemma AfterTenable(o: Device, pid: u32, held: Option<Process>, first: bool, rec: Option<Process>, again: bool)
    requires Plainly(o) && Holdable(o, pid, held) && ReadableRecord(held)
    requires Names(rec, pid) && Fits(o, pid, rec) && (rec.None? ==> Find(o.procs, pid).None?)
    ensures var after := RecordAfter(held, first, rec, again);
            Holdable(o, pid, after) && (ReadableRecord(rec) ==> ReadableRecord(after))
  {
    SeenTenable(o, pid, held, again);
    SeenHoldable(o, pid, rec, true);
    if ReadableRecord(rec) { SeenReadable(rec, true); }
  }

  /** An attempt leaves what can be held, and logs what can be restored. */
  lemma TryTenable(b: Batch, s: State, target: string, rec: Option<Process>)
    requires b.Valid() && Tenable(b, s) && Names(rec, b.pid)
    requires rec.None? ==> Restorable(b, PriorProcess(target, rec))
    ensures var t := Try(b, s, target, rec);
            && Tenable(b, t.next) && (t.ok ==> Restorable(b, PriorProcess(target, t.prior)))
  {
    var t, i := Try(b, s, target, rec), Resolve(b.names, target);
    if t.ok {
      var held, first, again := s.held[i].rec, !Next(s.script).PmonFails?, !Next(Rest(s.script)).PmonFails?;
      assert Holdable(b.o[i], b.pid, held) && ReadableRecord(held) && Fits(b.o[i], b.pid, rec);
      assert t.prior == SeenOf(held, first);
      SeenTenable(b.o[i], b.pid, held, first);
      AfterTenable(b.o[i], b.pid, held, first, rec, again);
      TenableNext(b, s, i, RecordAfter(held, first, rec, again), t.next);
    }
  }

  lemma TenableNext(b: Batch, s: State, i: nat, after: Option<Process>, next: State)
    requires Tenable(b, s) && s.legible && i < |b.o| == |next.held| && next.held == s.held[i := next.held[i]]
    requires next.held[i].rec == after && Holdable(b.o[i], b.pid, after)
    requires next.legible ==> ReadableRecord(after)
    ensures Tenable(b, next)
  {
  }

  /** Two records that read the same, telemetry aside or not. */
  ghost predicate Alike(a: Option<Process>, b: Option<Process>, fully: bool) { SeenOf(a, fully) == SeenOf(b, fully) }

  lemma AlikeSeen(rec: Option<Process>, works: bool, fully: bool)
    requires fully ==> works
    ensures Alike(SeenOf(rec, works), rec, fully)
  {
    if rec.Some? { SeenAgain(rec.value, works, fully); }
  }

  /** What an attempt does: on its GPU the PID's record is `rec` now and was the one
      logged, with its telemetry if no telemetry query failed; nothing else moved. */
  lemma TryLeaves(b: Batch, s: State, target: string, rec: Option<Process>, fully: bool)
    requires fully ==> NoPmonFault(s.script)
    ensures var t, i := Try(b, s, target, rec), Resolve(b.names, target);
            && (fully ==> NoPmonFault(t.next.script))
            && (t.ok ==>
                  && 0 <= i < |s.held| && t.next.held == s.held[i := t.next.held[i]]
                  && Alike(t.prior, s.held[i].rec, fully) && Alike(t.next.held[i].rec, rec, fully)
                  && (fully ==> t.next.held[i].lit == s.held[i].lit))
  {
    var t, i := Try(b, s, target, rec), Resolve(b.names, target);
    var first, again := !Next(s.script).PmonFails?, !Next(Rest(s.script)).PmonFails?;
    if fully {
      RestCalm(s.script);
      RestCalm(Rest(s.script));
      RestCalm(Rest(Rest(s.script)));
    }
    if t.ok {
      AlikeSeen(s.held[i].rec, first, fully);
      AlikeSeen(s.held[i].rec, again, fully);
      AlikeSeen(rec, true, fully);
    }
  }

  // ---------- how far it gets ----------

  /** The target names a GPU on which its record fits. */
  ghost predicate FitsAt(b: Batch, j: nat)
    requires j < |b.targets| == |b.recs|
  {
    var i := Resolve(b.names, b.targets[j]);
    0 <= i < |b.o| && b.Admits(i, Some(b.recs[j]))
  }

  /** The target names a GPU that has no room for its record. */
  ghost predicate ShortAt(b: Batch, j: nat)
    requires j < |b.targets| == |b.recs|
  {
    var i := Resolve(b.names, b.targets[j]);
    0 <= i < |b.o| && !b.room(i, Some(b.recs[j])) && b.recs[j].memMiB * MIB <= MAX64
  }

  /** What a step of the way forward keeps, from any state that can be held. */
  lemma {:induction false} ReachTenable(b: Batch, s: State, applied: seq<PriorProcess>)
    requires b.Valid() && Tenable(b, s) && |applied| <= |b.targets| && RestorableLog(b, applied)
    ensures var r := Reach(b, s, applied); Tenable(b, r.state) && RestorableLog(b, r.applied)
    decreases |b.targets| - |applied|
  {
    var n := |applied|;
    if n < |b.targets| {
      var t := Try(b, s, b.targets[n], Some(b.recs[n]));
      TryTenable(b, s, b.targets[n], Some(b.recs[n]));
      if t.ok { ReachTenable(b, t.next, applied + [PriorProcess(b.targets[n], t.prior)]); }
    }
  }

  lemma {:induction false} ReachFits(b: Batch, s: State, applied: seq<PriorProcess>, r: Progress, j: nat)
    requires |s.held| == |b.o| && |applied| <= |b.targets| == |b.recs| && r == Reach(b, s, applied)
    requires |applied| <= j < |r.applied|
    ensures FitsAt(b, j)
    decreases |b.targets| - |applied|
  {
    var n := |applied|;
    var t := Try(b, s, b.targets[n], Some(b.recs[n]));
    if n == j {
      assert t.ok;
    } else {
      ReachFits(b, t.next, applied + [PriorProcess(b.targets[n], t.prior)], r, j);
    }
  }

  /** Reads can succeed where it stops if they could before and the last record's
      name is readable. */
  lemma {:induction false} ReachLegible(b: Batch, s: State, applied: seq<PriorProcess>, r: Progress)
    requires |applied| <= |b.targets| == |b.recs| && r == Reach(b, s, applied)
    ensures var n := |r.applied|;
            r.state.legible == if n == |applied| then s.legible else Readable(b.recs[n - 1].name)
    decreases |b.targets| - |applied|
  {
    var n := |applied|;
    if n < |b.targets| {
      var t := Try(b, s, b.targets[n], Some(b.recs[n]));
      if t.ok {
        assert t.next.legible == Readable(b.recs[n].name);
        ReachLegible(b, t.next, applied + [PriorProcess(b.targets[n], t.prior)], r);
      }
    }
  }

  /** Without faults an attempt works exactly when the record fits a GPU. */
  lemma TryFine(b: Batch, s: State, target: string, rec: Option<Process>)
    requires AllFine(s.script) && s.legible && |s.held| == |b.o|
    ensures var t, i := Try(b, s, target, rec), Resolve(b.names, target);
            && (t.ok <==> 0 <= i < |b.o| && b.Admits(i, rec)) && AllFine(t.next.script)
            && (t.short <==> 0 <= i < |b.o| && !b.room(i, rec) && Countable(rec))
            && (t.ok ==> t.next.legible == ReadableRecord(rec))
  {
    RestFine(s.script);
    RestFine(Rest(s.script));
    RestFine(Rest(Rest(s.script)));
  }

  /** Without faults it stops only at a target that names no GPU or whose record
      does not fit; for want of memory exactly if there is a GPU and no room. */
  lemma {:induction false} StopsIff(b: Batch, s: State, applied: seq<PriorProcess>)
    requires |s.held| == |b.o| && |applied| <= |b.targets| == |b.recs|
    requires AllFine(s.script) && s.legible && b.ReadableNames()
    ensures var r := Reach(b, s, applied);
            && AllFine(r.state.script)
            && (|r.applied| < |b.targets| ==>
                  !FitsAt(b, |r.applied|) && (r.short <==> ShortAt(b, |r.applied|)))
    decreases |b.targets| - |applied|
  {
    var n := |applied|;
    if n < |b.targets| {
      var t := Try(b, s, b.targets[n], Some(b.recs[n]));
      TryFine(b, s, b.targets[n], Some(b.recs[n]));
      if t.ok { StopsIff(b, t.next, applied + [PriorProcess(b.targets[n], t.prior)]); }
    }
  }

  lemma FineLeft(b: Batch, s: State)
    requires |s.held| == |b.o| && |b.recs| == |b.targets| && AllFine(s.script) && b.ReadableNames()
    ensures AllFine(Registered(b, s).turned.script)
  {
    if s.legible {
      StopsIff(b, s, []);
    } else {
      RestFine(s.script);
    }
  }

  // ---------- what a rollback leaves ----------

  /** The first of the first `n` targets that names GPU `i`, or `n`. */
  function FirstFor(b: Batch, n: nat, i: nat): (j: nat)
    requires n <= |b.targets|
    ensures j <= n && (j < n ==> Resolve(b.names, b.targets[j]) == i)
    ensures forall k :: 0 <= k < j ==> Resolve(b.names, b.targets[k]) != i
  {
    if n == 0 then 0
    else
      var j := FirstFor(b, n - 1, i);
      if j < n - 1 then j else if Resolve(b.names, b.targets[n - 1]) == i then n - 1 else n
  }

  /** On the way forward: a GPU that no target so far named is as it was; on any
      other the PID is held, and the log has what was there before its first
      target, and a record for each later one. */
  ghost predicate Chronicle(b: Batch, was: seq<Place>, p: Progress, fully: bool) {
    && |p.applied| <= |b.targets| && |p.state.held| == |was|
    && (forall j :: 0 <= j < |p.applied| ==> p.applied[j].target == b.targets[j])
    && (fully ==> NoPmonFault(p.state.script))
    && forall i :: 0 <= i < |was| ==> ChronicleAt(b, was[i], p.applied, p.state.held[i], i, fully)
  }

  ghost predicate ChronicleAt(b: Batch, was: Place, applied: seq<PriorProcess>, now: Place, i: nat, fully: bool)
    requires |applied| <= |b.targets|
  {
    var n, first := |applied|, FirstFor(b, |applied|, i);
    && (fully ==> now.lit == was.lit)
    && (if first == n then now == was else now.rec.Some? && Alike(applied[first].process, was.rec, fully))
    && forall j :: first < j < n && Resolve(b.names, b.targets[j]) == i ==> applied[j].process.Some?
  }

  lemma {:induction false} ReachChronicle(b: Batch, was: seq<Place>, s: State, applied: seq<PriorProcess>, fully: bool)
    requires |applied| <= |b.targets| == |b.recs| && Chronicle(b, was, Progress(applied, s, false), fully)
    ensures Chronicle(b, was, Reach(b, s, applied), fully)
    decreases |b.targets| - |applied|
  {
    var n := |applied|;
    if n < |b.targets| {
      var t := Try(b, s, b.targets[n], Some(b.recs[n]));
      TryLeaves(b, s, b.targets[n], Some(b.recs[n]), fully);
      if t.ok {
        ChronicleStep(b, was, s, applied, t, fully);
        ReachChronicle(b, was, t.next, applied + [PriorProcess(b.targets[n], t.prior)], fully);
      }
    }
  }

  lemma ChronicleStep(b: Batch, was: seq<Place>, s: State, applied: seq<PriorProcess>, t: Tried, fully: bool)
    requires |applied| < |b.targets| == |b.recs| && Chronicle(b, was, Progress(applied, s, false), fully)
    requires fully ==> NoPmonFault(t.next.script)
    requires var i := Resolve(b.names, b.targets[|applied|]);
             && 0 <= i < |s.held| == |t.next.held| && t.next.held == s.held[i := t.next.held[i]]
             && Alike(t.prior, s.held[i].rec, fully) && t.next.held[i].rec.Some?
             && (fully ==> t.next.held[i].lit == s.held[i].lit)
    ensures Chronicle(b, was, Progress(applied + [PriorProcess(b.targets[|applied|], t.prior)], t.next, false), fully)
  {
    var n, more := |applied|, applied + [PriorProcess(b.targets[|applied|], t.prior)];
    forall i | 0 <= i < |was| ensures ChronicleAt(b, was[i], more, t.next.held[i], i, fully) {
      assert ChronicleAt(b, was[i], applied, s.held[i], i, fully);
      assert more[..n] == applied;
    }
  }

  /** On one GPU a rollback leaves the prior record of the first entry restored
      there, or the place it found. */
  ghost predicate LeftAt(b: Batch, found: Place, applied: seq<PriorProcess>, restored: seq<bool>, i: nat, now: Place,
                         fully: bool)
    requires |restored| <= |applied|
  {
    && (fully ==> now.lit == found.lit)
    && (|| (now == found && forall j :: 0 <= j < |restored| && For(b, applied, i, j) ==> !restored[j])
        || exists j :: 0 <= j < |restored| && RestoredAt(b, applied, restored, i, j)
                    && Alike(now.rec, applied[j].process, fully))
  }

  ghost predicate For(b: Batch, applied: seq<PriorProcess>, i: nat, j: nat)
    requires j < |applied|
  {
    Resolve(b.names, applied[j].target) == i
  }

  ghost predicate RestoredAt(b: Batch, applied: seq<PriorProcess>, restored: seq<bool>, i: nat, j: nat)
    requires j < |restored| <= |applied|
  {
    restored[j] && For(b, applied, i, j) && forall k :: 0 <= k < j && For(b, applied, i, k) ==> !restored[k]
  }

  lemma {:induction false} RolledLeaves(b: Batch, s: State, applied: seq<PriorProcess>, n: nat, i: nat, now: Place,
                                        fully: bool)
    requires n <= |applied| && i < |s.held| && now == RolledBack(b, s, applied, n).held[i]
    requires fully ==> NoPmonFault(s.script)
    ensures LeftAt(b, s.held[i], applied, Restores(b, s, applied, n), i, now, fully)
    decreases n
  {
    if n > 0 {
      var t := Try(b, s, applied[n - 1].target, applied[n - 1].process);
      TryLeaves(b, s, applied[n - 1].target, applied[n - 1].process, fully);
      RolledLeaves(b, t.next, applied, n - 1, i, now, fully);
      LeftMore(b, s.held[i], t.next.held[i], applied, Restores(b, t.next, applied, n - 1), t.ok, i, now, fully);
    }
  }

  lemma LeftMore(b: Batch, found: Place, next: Place, applied: seq<PriorProcess>, restored: seq<bool>, ok: bool, i: nat,
                 now: Place, fully: bool)
    requires |restored| < |applied| && LeftAt(b, next, applied, restored, i, now, fully)
    requires fully ==> next.lit == found.lit
    requires if ok && For(b, applied, i, |restored|) then Alike(next.rec, applied[|restored|].process, fully)
             else next == found
    ensures LeftAt(b, found, applied, restored + [ok], i, now, fully)
  {
    var n, all := |restored|, restored + [ok];
    if j :| 0 <= j < n && RestoredAt(b, applied, restored, i, j) && Alike(now.rec, applied[j].process, fully) {
      assert RestoredAt(b, applied, all, i, j);
    } else if ok && For(b, applied, i, n) {
      assert RestoredAt(b, applied, all, i, n);
    }
  }

  lemma LeftMeans(b: Batch, was: Place, found: Place, applied: seq<PriorProcess>, restored: seq<bool>, i: nat,
                  now: Place, fully: bool)
    requires |applied| == |restored| <= |b.targets|
    requires forall j :: 0 <= j < |applied| ==> applied[j].target == b.targets[j]
    requires ChronicleAt(b, was, applied, found, i, fully) && LeftAt(b, found, applied, restored, i, now, fully)
    ensures var n, first := |applied|, FirstFor(b, |applied|, i);
            && (fully ==> now.lit == was.lit)
            && if first == n then now == was
               else if restored[first] then Alike(now.rec, was.rec, fully)
               else now.rec.Some?
  {
    var n, first := |applied|, FirstFor(b, |applied|, i);
    assert first < n ==> For(b, applied, i, first);
    if j :| 0 <= j < n && RestoredAt(b, applied, restored, i, j) && Alike(now.rec, applied[j].process, fully) {
      assert first <= j;
    }
  }

  /** Where a failed registration leaves its mark, with telemetry or without. */
  lemma PlaceLeft(b: Batch, s: State, i: nat, fully: bool)
    requires |b.recs| == |b.targets| && i < |s.held| && (fully ==> NoPmonFault(s.script))
    requires |Registered(b, s).applied| < |b.targets|
    ensures var r := Registered(b, s);
            var n, first, now := |r.applied|, FirstFor(b, |r.applied|, i), r.end.held[i];
            && (fully ==> now.lit == s.held[i].lit)
            && if first == n then now == s.held[i]
               else if r.restored[first] then Alike(now.rec, s.held[i].rec, fully)
               else now.rec.Some?
  {
    var r := Registered(b, s);
    ReachChronicle(b, s.held, s, [], fully);
    RolledLeaves(b, r.turned, r.applied, |r.applied|, i, r.end.held[i], fully);
    LeftMeans(b, s.held[i], r.turned.held[i], r.applied, r.restored, i, r.end.held[i], fully);
  }

  /** A rollback may begin or go on. */
  ghost predicate Rollable(b: Batch, s: State, applied: seq<PriorProcess>) {
    b.Valid() && Tenable(b, s) && RestorableLog(b, applied)
  }

  lemma RollableNext(b: Batch, s: State, applied: seq<PriorProcess>, j: nat, next: State)
    requires Rollable(b, s, applied) && j < |applied|
    requires next == Back(b, s, applied[j])
    ensures Rollable(b, next, applied)
  {
    assert Restorable(b, applied[j]);
    TryTenable(b, s, applied[j].target, applied[j].process);
  }

  /** What every attempt of a rollback keeps, the rollback keeps. */
  lemma {:induction false} RollbackKeeps(b: Batch, s: State, applied: seq<PriorProcess>, n: nat, kept: State -> bool)
    requires n <= |applied| && kept(s)
    requires forall t: State, j :: 0 <= j < |applied| && kept(t) ==> kept(Back(b, t, applied[j]))
    ensures kept(RolledBack(b, s, applied, n))
    decreases n
  {
    if n > 0 { RollbackKeeps(b, Back(b, s, applied[n - 1]), applied, n - 1, kept); }
  }

  lemma RolledTenable(b: Batch, s: State, applied: seq<PriorProcess>)
    requires Rollable(b, s, applied)
    ensures Rollable(b, RolledBack(b, s, applied, |applied|), applied)
  {
    var kept := (t: State) => Rollable(b, t, applied);
    forall t: State, j | 0 <= j < |applied| && kept(t) ensures kept(Back(b, t, applied[j])) {
      RollableNext(b, t, applied, j, Back(b, t, applied[j]));
    }
    RollbackKeeps(b, s, applied, |applied|, kept);
  }

  lemma RolledLegible(b: Batch, s: State, applied: seq<PriorProcess>)
    requires s.legible && RestorableLog(b, applied)
    ensures RolledBack(b, s, applied, |applied|).legible
  {
    var kept := (t: State) => t.legible;
    forall t: State, j | 0 <= j < |applied| && kept(t) ensures kept(Back(b, t, applied[j])) {
      assert Restorable(b, applied[j]);
    }
    RollbackKeeps(b, s, applied, |applied|, kept);
  }

  lemma RegisteredTenable(b: Batch, s: State)
    requires b.Valid() && Tenable(b, s)
    ensures var r := Registered(b, s); Tenable(b, r.turned) && RestorableLog(b, r.applied) && Tenable(b, r.end)
  {
    var r := Registered(b, s);
    ReachTenable(b, s, []);
    if |r.applied| < |b.targets| { RolledTenable(b, r.turned, r.applied); }
  }

  lemma AlikeIsSame(o: Device, pid: u32, a: Option<Process>, b: Option<Process>)
    requires Holdable(o, pid, a) && Holdable(o, pid, b) && Alike(a, b, true)
    ensures a == b
  {
  }

  /** Exactly where a failed registration leaves its mark, whatever failed.  A GPU
      is as it was if no registered target named it; it has its old record back,
      telemetry aside, if the first target that named it was restored; on any other
      GPU the PID stays.  If no telemetry query failed, restored means as it was. */
  lemma PidLeftIff(b: Batch, s: State, i: nat)
    requires Opens(b, s) && i < |b.o| && |Registered(b, s).applied| < |b.targets|
    ensures var r := Registered(b, s);
            var n, first, now := |r.applied|, FirstFor(b, |r.applied|, i), r.end.held[i];
            if first == n then now == s.held[i]
            else if r.restored[first] then
              && Alike(now.rec, Find(b.o[i].procs, b.pid), false)
              && (NoPmonFault(s.script) ==> now == s.held[i])
            else now.rec.Some?
  {
    PlaceLeft(b, s, i, false);
    if NoPmonFault(s.script) {
      PlaceLeft(b, s, i, true);
      OpensTenable(b, s);
      RegisteredTenable(b, s);
      var r := Registered(b, s);
      if Alike(r.end.held[i].rec, s.held[i].rec, true) {
        AlikeIsSame(b.o[i], b.pid, r.end.held[i].rec, s.held[i].rec);
      }
    }
  }

  // ---------- all or nothing ----------

  lemma {:induction false} AllRestored(b: Batch, s: State, applied: seq<PriorProcess>, n: nat, j: nat)
    requires b.Honest() && j < n <= |applied| && AllFine(s.script) && s.legible && |s.held| == |b.o|
    requires RestorableLog(b, applied)
    ensures Restores(b, s, applied, n)[j]
    decreases n
  {
    var item := applied[n - 1];
    var t := Try(b, s, item.target, item.process);
    assert Restorable(b, item);
    TryFine(b, s, item.target, item.process);
    if j < n - 1 { AllRestored(b, t.next, applied, n - 1, j); }
  }

  /** All or nothing: if the commands left when a registration turns back all work,
      and the record's name can be read, every GPU has its old record again, with
      its telemetry and everybody else's if no telemetry query failed before. */
  lemma AllOrNothing(b: Batch, s: State)
    requires Opens(b, s) && b.ReadableNames()
    ensures var r := Registered(b, s);
            |r.applied| < |b.targets| && AllFine(r.turned.script) ==>
              && (forall i :: 0 <= i < |b.o| ==> Alike(r.end.held[i].rec, Find(b.o[i].procs, b.pid), false))
              && (NoPmonFault(s.script) ==> r.end.held == s.held)
  {
    var r := Registered(b, s);
    if |r.applied| < |b.targets| && AllFine(r.turned.script) {
      OpensTenable(b, s);
      RegisteredTenable(b, s);
      ReachLegible(b, s, [], Reach(b, s, []));
      forall i | 0 <= i < |b.o|
        ensures Alike(r.end.held[i].rec, Find(b.o[i].procs, b.pid), false)
        ensures NoPmonFault(s.script) ==> r.end.held[i] == s.held[i]
      {
        PidLeftIff(b, s, i);
        var n, first := |r.applied|, FirstFor(b, |r.applied|, i);
        if first < n { AllRestored(b, r.turned, r.applied, n, first); }
      }
    }
  }

  /** A record name that cannot be read spoils the rollback as well: nothing is
      restored. */
  lemma UnreadableNeverRestored(b: Batch, s: State)
    requires |b.recs| == |b.targets|
    ensures var r := Registered(b, s);
            var n := |r.applied|;
            n > 0 && !Readable(b.recs[n - 1].name) ==> forall j :: 0 <= j < n ==> !r.restored[j]
  {
    var r := Registered(b, s);
    ReachLegible(b, s, [], Reach(b, s, []));
    if !r.turned.legible { NoneRestored(b, r.turned, r.applied, |r.applied|); }
  }

  lemma {:induction false} NoneRestored(b: Batch, s: State, applied: seq<PriorProcess>, n: nat)
    requires n <= |applied| && !s.legible
    ensures forall j :: 0 <= j < n ==> !Restores(b, s, applied, n)[j]
    decreases n
  {
    if n > 0 { NoneRestored(b, Try(b, s, applied[n - 1].target, applied[n - 1].process).next, applied, n - 1); }
  }

  /** With targets that name different GPUs, each of them ends up holding exactly
      the record made for it, telemetry aside if a telemetry query failed. */
  lemma {:induction false} EachTargetHolds(b: Batch, s: State, applied: seq<PriorProcess>, k: nat, i: nat, fully: bool)
    requires |applied| <= |b.targets| == |b.recs| && (fully ==> NoPmonFault(s.script))
    requires i < |s.held| && k < |Reach(b, s, applied).applied| && Resolve(b.names, b.targets[k]) == i
    requires forall x, y :: 0 <= x < y < |b.targets| ==>
               Resolve(b.names, b.targets[x]) != Resolve(b.names, b.targets[y])
    requires k < |applied| ==> Alike(s.held[i].rec, Some(b.recs[k]), fully)
    ensures Alike(Reach(b, s, applied).state.held[i].rec, Some(b.recs[k]), fully)
    decreases |b.targets| - |applied|
  {
    var n := |applied|;
    if n < |b.targets| {
      var t := Try(b, s, b.targets[n], Some(b.recs[n]));
      TryLeaves(b, s, b.targets[n], Some(b.recs[n]), fully);
      assert k < n ==> Resolve(b.names, b.targets[k]) != Resolve(b.names, b.targets[n]);
      if t.ok { EachTargetHolds(b, t.next, applied + [PriorProcess(b.targets[n], t.prior)], k, i, fully); }
    }
  }

  // ---------- three inputs that leave the PID behind ----------

  const EMPTY := Device(4 * MIB, 0, 4 * MIB, [])

  function Loaded(name: string, sm: u32): Process { Process(7, "C", name, 1, sm, 0, 0, 0) }

  /** PID 7 with one MiB on each of two targets; there are two empty GPUs. */
  ghost function Pair(name: string, sm: u32, second: string): Batch {
    NewBatch([Name("0", "A"), Name("1", "B")], [EMPTY, EMPTY], 7, ["0", second], [Loaded(name, sm), Loaded(name, sm)])
  }

  ghost function Opening(b: Batch, script: seq<Fault>): State { State(PlacesOf(b.o, b.pid), script, true) }

  lemma PairFits(name: string, sm: u32, second: string)
    requires sm <= 100
    ensures var b := Pair(name, sm, second);
            && Resolve(b.names, "0") == 0 && FitsAt(b, 0) && Find(EMPTY.procs, 7).None?
  {
    var rec := Loaded(name, sm);
    assert Put(EMPTY.procs, rec) == [rec] && [rec][..0] == [];
    assert OwnedMiB([rec]) == 1;
  }

  /** An attempt with three working commands. */
  lemma TryWorks(b: Batch, s: State, target: string, rec: Option<Process>, i: nat, rest: seq<Fault>)
    requires s.script == [Fine, Fine, Fine] + rest && s.legible
    requires Resolve(b.names, target) == i < |s.held| && b.Admits(i, rec)
    ensures var place := s.held[i];
            var after := Place(RecordAfter(place.rec, true, rec, true), place.lit);
            var next := State(s.held[i := after], rest, ReadableRecord(rec));
            Try(b, s, target, rec) == Tried(true, false, SeenOf(place.rec, true), next)
  {
    assert Rest(s.script) == [Fine, Fine] + rest && Rest(Rest(s.script)) == [Fine] + rest;
    assert Rest(Rest(Rest(s.script))) == rest;
  }

  /** The first target goes through. */
  lemma FirstLands(name: string, sm: u32, second: string, rest: seq<Fault>, s: State)
    requires sm <= 100 && s == Opening(Pair(name, sm, second), [Fine, Fine, Fine] + rest)
    ensures var b, seen := Pair(name, sm, second), Some(Canon(Loaded(name, sm)));
            var t := Try(b, s, "0", Some(b.recs[0]));
            && t.ok && t.prior.None? && t.next.script == rest && t.next.legible == Readable(name)
            && t.next.held[0] == Place(seen, true) && t.next.held[1] == Place(None, true)
  {
    PairFits(name, sm, second);
    TryWorks(Pair(name, sm, second), s, "0", Some(Loaded(name, sm)), 0, rest);
  }

  /** The second target fails on its first command. */
  lemma StopsAtSecond(b: Batch, s: State, t: Tried)
    requires |b.targets| == |b.recs| == 2
    requires t == Try(b, s, b.targets[0], Some(b.recs[0])) && t.ok
    requires || Next(t.next.script).ReadFails? || !t.next.legible
             || !(0 <= Resolve(b.names, b.targets[1]) < |s.held|)
    ensures var r := Registered(b, s);
            && r.applied == [PriorProcess(b.targets[0], t.prior)]
            && r.turned == t.next.(script := Rest(t.next.script))
  {
    var applied := [PriorProcess(b.targets[0], t.prior)];
    assert [] + applied == applied;
    assert Reach(b, t.next, applied).applied == applied
        && Reach(b, t.next, applied).state == t.next.(script := Rest(t.next.script));
  }

  /** What a rollback of one entry leaves when it works or not. */
  lemma RollsBackOne(b: Batch, s: State, first: PriorProcess)
    requires |b.recs| == |b.targets| == 2 && Registered(b, s).applied == [first]
    ensures var r := Registered(b, s);
            var t := Try(b, r.turned, first.target, first.process);
            r.restored == [t.ok] && r.end == t.next
  {
    var r := Registered(b, s);
    assert Restores(b, r.turned, [first], 1) == [] + [Try(b, r.turned, first.target, first.process).ok];
    assert RolledBack(b, r.turned, [first], 1) == RolledBack(b, Back(b, r.turned, first), [first], 0);
  }

  /** Two failed reads in a row: the second target's, and the rollback's.  GPU 0
      keeps the PID. */
  lemma SecondFaultLeavesPid(name: string, s: State)
    requires s == Opening(Pair(name, 0, "1"), [Fine, Fine, Fine] + [ReadFails, ReadFails])
    ensures var r := Registered(Pair(name, 0, "1"), s);
            |r.applied| == 1 && r.restored == [false] && r.end.held[0].rec.Some? && r.end.held[1].rec.None?
  {
    var b := Pair(name, 0, "1");
    var t := Try(b, s, "0", Some(b.recs[0]));
    FirstLands(name, 0, "1", [ReadFails, ReadFails], s);
    StopsAtSecond(b, s, t);
    RollsBackOne(b, s, PriorProcess("0", t.prior));
  }

  /** Nothing fails at all, but the process is called "a,b": with that name on GPU
      0 nothing can be read, so GPU 1 is not reached and GPU 0 not restored. */
  lemma UnreadableNameLeavesPid(s: State)
    requires s == Opening(Pair("a,b", 0, "1"), [Fine, Fine, Fine] + [])
    ensures var r := Registered(Pair("a,b", 0, "1"), s);
            |r.applied| == 1 && r.restored == [false] && r.end.held[0].rec.Some?
  {
    var b := Pair("a,b", 0, "1");
    var t := Try(b, s, "0", Some(b.recs[0]));
    assert "a,b"[1] == ',';
    FirstLands("a,b", 0, "1", [], s);
    StopsAtSecond(b, s, t);
    RollsBackOne(b, s, PriorProcess("0", t.prior));
  }

  /** Only one telemetry query fails, and a registration does without telemetry: the
      second target names no GPU, and the rollback's first read of GPU 0 lacks the
      utilization its second one has.  That looks contested; GPU 0 keeps the PID. */
  lemma TelemetryFaultLeavesPid(s: State)
    requires s == Opening(Pair("llama", 50, "9"), [Fine, Fine, Fine] + [Fine, PmonFails])
    ensures var r := Registered(Pair("llama", 50, "9"), s);
            |r.applied| == 1 && r.restored == [false] && r.end.held[0].rec.Some?
  {
    var b := Pair("llama", 50, "9");
    var t, rec := Try(b, s, "0", Some(b.recs[0])), Loaded("llama", 50);
    FirstLands("llama", 50, "9", [Fine, PmonFails], s);
    assert Resolve(b.names, "9") < 0;
    StopsAtSecond(b, s, t);
    RollsBackOne(b, s, PriorProcess("0", t.prior));
    Busy();
  }

  lemma Busy()
    ensures var rec := Loaded("llama", 50); Canon(rec) == rec && Plain(rec) != rec
    ensures Readable("llama") && Contested(Some(Loaded("llama", 50)), false, None, true)
  {
    assert TrimRight("llama") == "llama";
  }
}
