/** The process registry: one PID registered across several GPUs, device by
    device, with compensation in reverse order when a later device fails. */
module Registry {
  import opened Accounting
  import opened Text
  import opened Rebase
  import opened Operations
  import opened SinglePid
  import opened OnePid
  import opened Control
  import opened Compensation
  import opened Split

  // ---------- the devices as they are shown ----------

  /** With telemetry, and without. */
  ghost function Shown(devices: seq<Device>, works: bool): (o: seq<Device>)
    ensures |o| == |devices| && forall i :: 0 <= i < |o| ==> o[i] == Observed(devices[i], works)
  {
    seq(|devices|, i requires 0 <= i < |devices| => Observed(devices[i], works))
  }

  ghost predicate AllWellFormed(devices: seq<Device>) {
    forall i :: 0 <= i < |devices| ==> WellFormed(devices[i])
  }

  /** No more faults are to come than before. */
  ghost predicate NoWorse(rest: seq<Fault>, script: seq<Fault>) {
    && (NoPmonFault(script) ==> NoPmonFault(rest)) && (AllFine(script) ==> AllFine(rest))
    && Faults(rest) <= Faults(script)
  }

  lemma RestNoWorse(script: seq<Fault>)
    ensures NoWorse(Rest(script), script)
  {
    FaultsRest(script);
  }

  ghost predicate AllApart(o: seq<Device>, o': seq<Device>, pid: u32) {
    |o'| == |o| && forall i :: 0 <= i < |o| ==> Apart(o[i], o'[i], pid)
  }

  /** What every registry call leaves alone, whatever fails: everything shown apart
      from `pid` (other records' PID, name, memory and order, non-process usage,
      pool and total); and other records' telemetry too, as long as no telemetry
      query fails. */
  ghost predicate Kept(w: World, w': World, pid: u32) {
    && |w'.devices| == |w.devices| && NoWorse(w'.script, w.script)
    && AllApart(Shown(w.devices, false), Shown(w'.devices, false), pid)
    && (NoPmonFault(w.script) ==> AllApart(Shown(w.devices, true), Shown(w'.devices, true), pid))
  }

  lemma KeptSame(w: World, w': World, pid: u32)
    requires w'.devices == w.devices && NoWorse(w'.script, w.script)
    ensures Kept(w, w', pid)
  {
  }

  lemma ApartChain(a: seq<Device>, b: seq<Device>, c: seq<Device>, pid: u32)
    requires AllApart(a, b, pid) && AllApart(b, c, pid)
    ensures AllApart(a, c, pid)
  {
  }

  lemma KeptChain(a: World, b: World, c: World, pid: u32)
    requires Kept(a, b, pid) && Kept(b, c, pid)
    ensures Kept(a, c, pid)
  {
    ApartChain(Shown(a.devices, false), Shown(b.devices, false), Shown(c.devices, false), pid);
    if NoPmonFault(a.script) {
      ApartChain(Shown(a.devices, true), Shown(b.devices, true), Shown(c.devices, true), pid);
    }
  }

  // ---------- one call of the manager ----------

  lemma OneApart(devices: seq<Device>, i: nat, d: Device, works: bool, pid: u32)
    requires i < |devices| && Apart(Observed(devices[i], works), Observed(d, works), pid)
    ensures AllApart(Shown(devices, works), Shown(devices[i := d], works), pid)
  {
  }

  /** Whatever fails, and however stale its snapshot, an edit of one PID keeps
      every device well-formed, touches at most its target, and leaves the rest
      alone. */
  lemma PerformedAnyFault(names: seq<Name>, w: World, target: string, before: Procs, pid: u32, rec: Option<Process>)
    requires |names| == |w.devices| && AllWellFormed(w.devices) && Names(rec, pid)
    ensures var (w', ok) := Performed(names, w, target, Edit(before, Desired(before, pid, rec)));
            var i := Resolve(names, target);
            && AllWellFormed(w'.devices) && Kept(w, w', pid)
            && (!ok ==> w'.devices == w.devices)
            && (ok ==> i >= 0 && w'.devices == w.devices[i := w'.devices[i]])
  {
    var op, i := Edit(before, Desired(before, pid, rec)), Resolve(names, target);
    var (w', ok) := Performed(names, w, target, op);
    PerformedIsAtomic(names, w, target, op);
    PerformedScript(names, w, target, op);
    if ok {
      var d, works := w.devices[i], !Next(w.script).PmonFails?;
      assert WellFormed(w'.devices[i]) by { AtomicKeeps(op, d, works); }
      EditKept(w, w', i, before, pid, rec, works);
    } else {
      KeptSame(w, w', pid);
    }
  }

  lemma PerformedWithin(names: seq<Name>, w: World, target: string, before: Procs, pid: u32, rec: Option<Process>)
    requires |names| == |w.devices| && AllWellFormed(w.devices) && Names(rec, pid)
    ensures var (w', ok) := Performed(names, w, target, Edit(before, Desired(before, pid, rec)));
            AllWellFormed(w'.devices) && Within(names, [target], pid, w, w') && (!ok ==> w'.devices == w.devices)
  {
    PerformedAnyFault(names, w, target, before, pid, rec);
    assert target in [target];
  }

  lemma EditKept(w: World, w': World, i: nat, before: Procs, pid: u32, rec: Option<Process>, works: bool)
    requires i < |w.devices| && WellFormed(w.devices[i]) && Names(rec, pid) && works == !Next(w.script).PmonFails?
    requires Succeeds(Edit(before, Desired(before, pid, rec)), w.devices[i], works)
    requires w'.devices == w.devices[i := Atomic(Edit(before, Desired(before, pid, rec)), w.devices[i], works)]
    requires NoWorse(w'.script, w.script)
    ensures Kept(w, w', pid)
  {
    EditLeavesRest(w.devices[i], before, pid, rec, works, false);
    OneApart(w.devices, i, w'.devices[i], false, pid);
    if NoPmonFault(w.script) {
      EditLeavesRest(w.devices[i], before, pid, rec, works, true);
      OneApart(w.devices, i, w'.devices[i], true, pid);
    }
  }

  /** A committed edit that changes the PID's record leaves just that record. */
  lemma PerformedWrites(names: seq<Name>, w: World, target: string, before: Procs, pid: u32, rec: Option<Process>)
    requires |names| == |w.devices| && Names(rec, pid) && Find(before, pid) != rec
    requires Performed(names, w, target, Edit(before, Desired(before, pid, rec))).1
    ensures Resolve(names, target) >= 0
    ensures var w' := Performed(names, w, target, Edit(before, Desired(before, pid, rec))).0;
            Find(w'.devices[Resolve(names, target)].procs, pid) == rec
  {
    var op, i, works := Edit(before, Desired(before, pid, rec)), Resolve(names, target), !Next(w.script).PmonFails?;
    PerformedIsAtomic(names, w, target, op);
    DesiredOnly(before, pid, rec);
    MergeIsThreeWay(before, Desired(before, pid, rec), Observed(w.devices[i], works).procs);
  }

  lemma PerformedScript(names: seq<Name>, w: World, target: string, op: Op)
    requires |names| == |w.devices|
    ensures var (w', _) := Performed(names, w, target, op);
            && (w'.script == Rest(w.script) || w'.script == Rest(Rest(w.script))) && NoWorse(w'.script, w.script)
  {
    RestNoWorse(w.script);
    RestNoWorse(Rest(w.script));
  }

  /** The exact effect of an edit of one PID made from what GPU `i` shows right now,
      read with telemetry or not (`first`). */
  ghost predicate Landed(w: World, w': World, i: nat, pid: u32, first: bool, rec: Option<Process>, ok: bool)
    requires i < |w.devices|
  {
    var o, again := Shown(w.devices, true)[i], !Next(w.script).PmonFails?;
    var held := Find(o.procs, pid);
    var planned := && !Next(w.script).ReadFails? && AllLegible(w.devices) && Fits(o, pid, rec)
                   && !Contested(held, first, rec, again);
    && Plainly(o) && |w'.devices| == |w.devices|
    && (ok <==> planned && !Next(Rest(w.script)).WriteFails?)
    && w'.script == (if planned then Rest(Rest(w.script)) else Rest(w.script))
    && (!ok ==> w'.devices == w.devices)
    && (ok ==>
          && w'.devices == w.devices[i := w'.devices[i]]
          && Settles(o, pid, held, first, rec, again, Observed(w'.devices[i], true))
          && (AllLegible(w'.devices) <==> ReadableRecord(rec)))
  }

  lemma PerformedOnePid(names: seq<Name>, w: World, target: string, pid: u32, first: bool, rec: Option<Process>)
    requires |names| == |w.devices| && AllWellFormed(w.devices) && Names(rec, pid) && Resolve(names, target) >= 0
    ensures var i := Resolve(names, target);
            var before := Observed(w.devices[i], first).procs;
            var (w', ok) := Performed(names, w, target, Edit(before, Desired(before, pid, rec)));
            Landed(w, w', i, pid, first, rec, ok)
  {
    var i, again := Resolve(names, target), !Next(w.script).PmonFails?;
    var before := Observed(w.devices[i], first).procs;
    var op := Edit(before, Desired(before, pid, rec));
    EditOnePid(w.devices[i], pid, rec, first, again);
    PerformedIsAtomic(names, w, target, op);
    var (w', ok) := Performed(names, w, target, op);
    if ok { EditLegible(w.devices, w'.devices, i, pid, first, rec, again); }
  }

  lemma EditLegible(devices: seq<Device>, devices': seq<Device>, i: nat, pid: u32, first: bool, rec: Option<Process>,
                    again: bool)
    requires i < |devices| && WellFormed(devices[i]) && AllLegible(devices) && Names(rec, pid)
    requires var before := Observed(devices[i], first).procs;
             && Succeeds(Edit(before, Desired(before, pid, rec)), devices[i], again)
             && devices' == devices[i := Atomic(Edit(before, Desired(before, pid, rec)), devices[i], again)]
    ensures AllLegible(devices') <==> ReadableRecord(rec)
  {
    ObservedLegible(devices[i], first);
    ObservedWellFormed(devices[i], first);
    RecordLegibleIff(devices[i], Observed(devices[i], first).procs, pid, rec, again);
    assert AllLegible(devices') <==> Legible(devices'[i]);
  }

  // ---------- the GPUs shown, during a registration ----------

  /** A GPU shows what it showed at first, with or without telemetry, and the PID's
      record of its place. */
  ghost predicate ShowingAt(o: Device, pid: u32, place: Place, shown: Device) {
    && Plainly(o) && Holdable(o, pid, place.rec)
    && var now := Observed(o, place.lit);
       Plainly(now) && Room(now, pid, place.rec) && shown == Held(now, pid, place.rec)
  }

  ghost predicate Showing(o: seq<Device>, pid: u32, held: seq<Place>, shown: seq<Device>) {
    && |held| == |shown| == |o|
    && forall i :: 0 <= i < |o| ==> ShowingAt(o[i], pid, held[i], shown[i])
  }

  lemma ShowingStart(o: seq<Device>, pid: u32)
    requires forall i :: 0 <= i < |o| ==> Plainly(o[i])
    ensures Showing(o, pid, PlacesOf(o, pid), o)
  {
    forall i | 0 <= i < |o| ensures ShowingAt(o[i], pid, PlacesOf(o, pid)[i], o[i]) {
      HeldSelf(o[i], pid);
      SeenPlainly(o[i], true);
    }
  }

  /** With the places of the start, what is shown is what was shown at first. */
  lemma ShowingBack(o: seq<Device>, pid: u32, shown: seq<Device>)
    requires Showing(o, pid, PlacesOf(o, pid), shown)
    ensures shown == o
  {
    forall i | 0 <= i < |o| ensures shown[i] == o[i] {
      assert ShowingAt(o[i], pid, PlacesOf(o, pid)[i], shown[i]);
      HeldSelf(o[i], pid);
      SeenPlainly(o[i], true);
    }
  }

  /** What fits a GPU is the same all along. */
  lemma PlaceFits(o: Device, pid: u32, place: Place, shown: Device, rec: Option<Process>)
    requires ShowingAt(o, pid, place, shown) && Names(rec, pid)
    ensures Plainly(shown) && Find(shown.procs, pid) == place.rec
    ensures Room(shown, pid, rec) <==> Room(o, pid, rec)
  {
    var now := Observed(o, place.lit);
    PlaceHeld(o, pid, place);
    HeldPlainly(now, pid, place.rec);
    HeldAgain(now, pid, place.rec, rec);
    RoomSeen(o, place.lit, pid, rec);
  }

  lemma PlaceHeld(o: Device, pid: u32, place: Place)
    requires Plainly(o) && Holdable(o, pid, place.rec)
    ensures Fits(Observed(o, place.lit), pid, place.rec)
    ensures place.rec.None? ==> Find(Observed(o, place.lit).procs, pid).None?
  {
    FitsSeen(o, place.lit, pid, place.rec);
    ViewFind(o.procs, place.lit, pid);
  }

  /** An edit that went through leaves the place that `RecordAfter` tells. */
  lemma PlaceSettles(o: Device, pid: u32, place: Place, shown: Device, first: bool, rec: Option<Process>, again: bool,
                     after: Option<Process>, shown': Device)
    requires ShowingAt(o, pid, place, shown) && Settles(shown, pid, place.rec, first, rec, again, shown')
    requires after == RecordAfter(place.rec, first, rec, again) && Holdable(o, pid, after)
    ensures ShowingAt(o, pid, Place(after, place.lit && again), shown')
  {
    var now, seen := Observed(o, place.lit), SeenOf(place.rec, again);
    PlaceHeld(o, pid, place);
    HeldSeen(now, pid, place.rec, again);
    ObservedAgain(o, place.lit, again);
    var dim := Observed(o, place.lit && again);
    assert shown' == Held(Held(dim, pid, seen), pid, after);
    ViewFind(o.procs, place.lit && again, pid);
    SeenCanonical(place.rec, again);
    HeldAgain(dim, pid, seen, after);
  }

  lemma SeenCanonical(rec: Option<Process>, works: bool)
    ensures CanonicalRecord(SeenOf(rec, works))
  {
    if rec.Some? { SeenAgain(rec.value, works, true); }
  }

  // ---------- a registration and the world ----------

  /** The world is in state `s` of a registration. */
  ghost predicate Mirrors(b: Batch, s: State, w: World) {
    && b.Valid() && |b.names| == |w.devices| && w.script == s.script && AllLegible(w.devices) == s.legible
    && Showing(b.o, b.pid, s.held, Shown(w.devices, true))
  }

  ghost function StateOf(b: Batch, w: World): State {
    State(PlacesOf(b.o, b.pid), w.script, AllLegible(w.devices))
  }

  lemma MirrorsStart(b: Batch, w: World)
    requires AllWellFormed(w.devices) && |b.names| == |w.devices| && b.o == Shown(w.devices, true)
    requires |b.recs| == |b.targets| && OwnRecords(b.pid, b.recs) && b.Honest()
    ensures Mirrors(b, StateOf(b, w), w) && Opens(b, StateOf(b, w))
  {
    ShownPlainly(w.devices);
    ShowingStart(b.o, b.pid);
    MirrorsTenable(b, StateOf(b, w), w);
  }

  lemma MirrorsTenable(b: Batch, s: State, w: World)
    requires Mirrors(b, s, w)
    ensures Tenable(b, s)
  {
    forall i | 0 <= i < |b.o|
      ensures Holdable(b.o[i], b.pid, s.held[i].rec) && (s.legible ==> ReadableRecord(s.held[i].rec))
    {
      assert ShowingAt(b.o[i], b.pid, s.held[i], Shown(w.devices, true)[i]);
      PlaceFits(b.o[i], b.pid, s.held[i], Shown(w.devices, true)[i], None);
      if s.legible { ShownReadable(w.devices[i], b.pid); }
    }
  }

  lemma ShownReadable(d: Device, pid: u32)
    requires Legible(d)
    ensures ReadableRecord(Find(Observed(d, true).procs, pid))
  {
    ObservedLegible(d, true);
    var o := Observed(d, true);
    assert Find(o.procs, pid).Some? ==> Find(o.procs, pid).value in o.procs;
  }

  lemma ShownPlainly(devices: seq<Device>)
    requires AllWellFormed(devices)
    ensures forall i :: 0 <= i < |devices| ==> Plainly(Shown(devices, true)[i])
  {
    forall i | 0 <= i < |devices| ensures Plainly(Shown(devices, true)[i]) {
      SeePlainly(devices[i]);
    }
  }

  /** A step whose outcome `Try` tells: a registration's own record, or one from its
      log, which fits. */
  ghost predicate Told(b: Batch, s: State, w: World, target: string, rec: Option<Process>, test: bool) {
    Mirrors(b, s, w) && Names(rec, b.pid) && if test then rec.Some? else Restorable(b, PriorProcess(target, rec))
  }

  /** It ended as `Try` tells. */
  ghost predicate AsTold(b: Batch, t: Tried, w': World, r: Result<Option<Process>>) {
    && (r.Ok? <==> t.ok) && (r.Ok? ==> r.value == t.prior) && Mirrors(b, t.next, w')
    && (r == Err(OutOfMemory) <==> t.short)
  }

  /** A refused read, ... */
  lemma ReadRefused(b: Batch, s: State, w: World, target: string, rec: Option<Process>, error: Error)
    requires Mirrors(b, s, w)
    requires Next(w.script).ReadFails? || !AllLegible(w.devices) || Resolve(b.names, target) < 0
    requires !error.OutOfMemory?
    ensures AsTold(b, Try(b, s, target, rec), World(w.devices, Rest(w.script)), Err(error))
  {
  }

  /** ... or what was read: the record the state has, and the room the GPU always
      had for `rec`. */
  lemma ReadAsTold(b: Batch, s: State, w: World, target: string, rec: Option<Process>, first: bool)
    requires Mirrors(b, s, w) && Names(rec, b.pid) && first == !Next(w.script).PmonFails?
    requires !Next(w.script).ReadFails? && AllLegible(w.devices) && Resolve(b.names, target) >= 0
    ensures var i := Resolve(b.names, target);
            var before, s1 := Observed(w.devices[i], first), s.(script := Rest(s.script));
            && i < |s.held| == |b.o| && Mirrors(b, s1, World(w.devices, Rest(w.script)))
            && Find(before.procs, b.pid) == SeenOf(s.held[i].rec, first)
            && (Room(before, b.pid, rec) <==> b.room(i, rec))
            && Try(b, s, target, rec)
            == if b.room(i, rec) then TryCommit(b, s1, i, first, rec)
               else Tried(false, Countable(rec), None, s1)
  {
    var i := Resolve(b.names, target);
    var o := Observed(w.devices[i], true);
    assert ShowingAt(b.o[i], b.pid, s.held[i], Shown(w.devices, true)[i]);
    PlaceFits(b.o[i], b.pid, s.held[i], o, rec);
    SeenOnce(w.devices[i], first);
    ViewFind(o.procs, first, b.pid);
    RoomSeen(o, first, b.pid, rec);
  }

  lemma SeenOnce(d: Device, works: bool)
    requires Plainly(Observed(d, true))
    ensures Observed(Observed(d, true), works) == Observed(d, works)
  {
    ViewDistinct(d.procs, Telemetry(d.procs, true));
    ObservedAgain(d, true, works);
  }

  /** The commit ends as `TryCommit` tells. */
  lemma CommitAsTold(b: Batch, s: State, w: World, i: nat, first: bool, rec: Option<Process>, w': World,
                     r: Result<Option<Process>>)
    requires Mirrors(b, s, w) && s.legible && Names(rec, b.pid) && i < |b.o|
    requires rec.None? ==> Find(b.o[i].procs, b.pid).None?
    requires Landed(w, w', i, b.pid, first, rec, r.Ok?) && (r.Ok? ==> r.value == SeenOf(s.held[i].rec, first))
    requires r != Err(OutOfMemory)
    ensures AsTold(b, TryCommit(b, s, i, first, rec), w', r)
  {
    var place, again := s.held[i], !Next(w.script).PmonFails?;
    var o := Observed(w.devices[i], true);
    assert ShowingAt(b.o[i], b.pid, place, Shown(w.devices, true)[i]);
    PlaceFits(b.o[i], b.pid, place, o, rec);
    if r.Ok? {
      var after := RecordAfter(place.rec, first, rec, again);
      SeenHoldable(b.o[i], b.pid, place.rec, again);
      SeenHoldable(b.o[i], b.pid, rec, true);
      PlaceSettles(b.o[i], b.pid, place, o, first, rec, again, after, Observed(w'.devices[i], true));
      ShowingMore(b, s.held, w.devices, i, Place(after, place.lit && again), w'.devices);
    }
  }

  lemma NoRoomAsTold(b: Batch, s: State, w: World, target: string, rec: Option<Process>, before: Device, first: bool,
                     error: Error)
    requires Told(b, s, w, target, rec, true) && ReadWorks(b, w, target, before, first)
    requires !Room(before, b.pid, rec) && (error.OutOfMemory? <==> Countable(rec))
    ensures AsTold(b, Try(b, s, target, rec), World(w.devices, Rest(w.script)), Err(error))
  {
    ReadAsTold(b, s, w, target, rec, first);
  }

  ghost predicate ReadWorks(b: Batch, w: World, target: string, before: Device, first: bool) {
    && !Next(w.script).ReadFails? && first == !Next(w.script).PmonFails? && AllLegible(w.devices)
    && 0 <= Resolve(b.names, target) < |w.devices| && before == Observed(w.devices[Resolve(b.names, target)], first)
  }

  /** A read and a commit. */
  lemma PutAsTold(b: Batch, s: State, w: World, target: string, rec: Option<Process>, test: bool, before: Device,
                  first: bool, w': World, r: Result<Option<Process>>)
    requires Told(b, s, w, target, rec, test) && ReadWorks(b, w, target, before, first)
    requires test ==> Room(before, b.pid, rec)
    requires Landed(World(w.devices, Rest(w.script)), w', Resolve(b.names, target), b.pid, first, rec, r.Ok?)
    requires (r.Ok? ==> r.value == Find(before.procs, b.pid)) && r != Err(OutOfMemory)
    ensures AsTold(b, Try(b, s, target, rec), w', r)
  {
    var s1, w1, i := s.(script := Rest(s.script)), World(w.devices, Rest(w.script)), Resolve(b.names, target);
    ReadAsTold(b, s, w, target, rec, first);
    if !test { assert Restorable(b, PriorProcess(target, rec)); }
    CommitAsTold(b, s1, w1, i, first, rec, w', r);
  }

  lemma ShowingMore(b: Batch, held: seq<Place>, devices: seq<Device>, i: nat, place: Place, devices': seq<Device>)
    requires Showing(b.o, b.pid, held, Shown(devices, true)) && i < |devices| == |devices'|
    requires devices' == devices[i := devices'[i]]
    requires ShowingAt(b.o[i], b.pid, place, Observed(devices'[i], true))
    ensures Showing(b.o, b.pid, held[i := place], Shown(devices', true))
  {
    forall k | 0 <= k < |b.o| ensures ShowingAt(b.o[k], b.pid, held[i := place][k], Shown(devices', true)[k]) {
      assert ShowingAt(b.o[k], b.pid, held[k], Shown(devices, true)[k]);
    }
  }

  class NvmlRegistry {
    const manager: Manager

    constructor (manager: Manager)
      ensures this.manager == manager
    {
      this.manager := manager;
    }

    ghost predicate Ready()
      reads this, manager
    {
      manager.Valid() && manager.locked && AllWellFormed(manager.devices)
    }

    method DeviceAndProcess(target: string, pid: u32) returns (r: Result<(Device, Option<Process>)>)
      requires Ready()
      modifies manager`script
      ensures manager.script == Rest(old(manager.script))
      ensures r.Ok? <==> && !Next(old(manager.script)).ReadFails? && AllLegible(manager.devices)
                         && Resolve(manager.names, target) >= 0
      ensures r.Ok? ==>
                var i, works := Resolve(manager.names, target), !Next(old(manager.script)).PmonFails?;
                r.value.0 == Observed(manager.devices[i], works)
      ensures r.Ok? ==> r.value.1 == Find(r.value.0.procs, pid)
      ensures r != Err(OutOfMemory)
    {
      var read := manager.Observe(target);
      if read.Err? { return Err(read.error); }
      var state := read.value.1;
      var index := ProcessIndex(state.procs, pid);
      return Ok((state, if index < 0 then None else Some(state.procs[index])));
    }

    /** Sends one edit of `pid` made from the snapshot `before`. */
    method SendEdit(target: string, pid: u32, before: Device, rec: Option<Process>) returns (r: Result<()>)
      requires Ready() && Names(rec, pid)
      modifies manager
      ensures manager.Valid() && r != Err(OutOfMemory)
      ensures (manager.Now(), r.Ok?)
           == Performed(manager.names, old(manager.Now()), target, Edit(before.procs, Desired(before.procs, pid, rec)))
    {
      var desired, found := WithoutPid(before.procs, pid);
      if rec.Some? { desired := desired + [rec.value]; }
      r := manager.ReplaceProcessesFromState(target, before, desired);
    }

    /** What such an edit does. */
    method CommitRecord(target: string, pid: u32, before: Device, ghost first: bool, rec: Option<Process>)
      returns (r: Result<()>)
      requires Ready() && Names(rec, pid) && Resolve(manager.names, target) >= 0
      modifies manager
      ensures Ready() && Within(manager.names, [target], pid, old(manager.Now()), manager.Now())
      ensures r.Err? ==> manager.devices == old(manager.devices) && !r.error.OutOfMemory?
      ensures r.Ok? && Find(before.procs, pid) != rec ==>
                Find(manager.devices[Resolve(manager.names, target)].procs, pid) == rec
      ensures var i := Resolve(manager.names, target);
              before == Observed(old(manager.devices)[i], first) ==>
                Landed(old(manager.Now()), manager.Now(), i, pid, first, rec, r.Ok?)
    {
      ghost var w, i := manager.Now(), Resolve(manager.names, target);
      r := SendEdit(target, pid, before, rec);
      PerformedWithin(manager.names, w, target, before.procs, pid, rec);
      if r.Ok? && Find(before.procs, pid) != rec { PerformedWrites(manager.names, w, target, before.procs, pid, rec); }
      PerformedOnePid(manager.names, w, target, pid, first, rec);
    }

    /** Reads one target and, if there is room, puts `rec` there (or takes the PID
        off): the prior record, or an error that left every device alone.  It ends
        as `Try` tells. */
    method PutRecord(ghost b: Batch, ghost s: State, target: string, pid: u32, rec: Option<Process>, test: bool)
      returns (r: Result<Option<Process>>)
      requires Ready() && Names(rec, pid) && b.names == manager.names && b.pid == pid && (test ==> rec.Some?)
      modifies manager
      ensures Ready() && Within(manager.names, [target], pid, old(manager.Now()), manager.Now())
      ensures r.Err? ==> manager.devices == old(manager.devices)
      ensures r.Ok? ==> Names(r.value, pid)
      ensures Told(b, s, old(manager.Now()), target, rec, test) ==> AsTold(b, Try(b, s, target, rec), manager.Now(), r)
    {
      ghost var was := manager.Now();
      ghost var told := Told(b, s, was, target, rec, test);
      WithinRead(manager.names, [target], pid, was);
      var read := DeviceAndProcess(target, pid);
      ghost var now := manager.Now();
      if read.Err? {
        if told { ReadRefused(b, s, was, target, rec, read.error); }
        return Err(read.error);
      }
      var (before, prior) := read.value;
      ghost var i, first := Resolve(manager.names, target), !Next(was.script).PmonFails?;
      ObservedWellFormed(manager.devices[i], first);
      if test {
        var early := EarlyTest(before, prior, rec.value);
        if early.Err? {
          if told { NoRoomAsTold(b, s, was, target, rec, before, first, early.error); }
          return Err(early.error);
        }
      }
      var done := CommitRecord(target, pid, before, first, rec);
      WithinMore(manager.names, [target], [target], pid, was, now, manager.Now());
      r := if done.Err? then Err(done.error) else Ok(prior);
      if told { PutAsTold(b, s, was, target, rec, test, before, first, manager.Now(), r); }
    }

    /** Restores entry `i` of the compensation log, if that works. */
    method RestoreEntry(ghost b: Batch, ghost start: State, ghost s: State, pid: u32, applied: seq<PriorProcess>,
                        i: nat)
      returns (ghost next: State)
      requires Ready() && b.names == manager.names && b.pid == pid && i < |applied| && LogOf(applied, pid)
      modifies manager
      ensures Ready() && Within(manager.names, [applied[i].target], pid, old(manager.Now()), manager.Now())
      ensures Rolling(b, start, applied, i + 1, s, old(manager.Now())) ==>
                Rolling(b, start, applied, i, next, manager.Now())
    {
      ghost var was := manager.Now();
      ghost var rolling := Rolling(b, start, applied, i + 1, s, was);
      if rolling { RollingTold(b, start, applied, i, s, was); }
      var done := PutRecord(b, s, applied[i].target, pid, applied[i].process, false);
      next := Back(b, s, applied[i]);
    }

    /** Walks the compensation log backwards, as `RolledBack` tells; whatever fails,
        everything apart from `pid` on the logged GPUs is still as it was. */
    method Rollback(ghost b: Batch, ghost s: State, pid: u32, applied: seq<PriorProcess>)
      requires Ready() && b.names == manager.names && b.pid == pid && LogOf(applied, pid)
      modifies manager
      ensures Ready() && Within(manager.names, LogTargets(applied), pid, old(manager.Now()), manager.Now())
      ensures Mirrors(b, s, old(manager.Now())) && RestorableLog(b, applied) ==>
                Mirrors(b, RolledBack(b, s, applied, |applied|), manager.Now())
    {
      ghost var start, now := manager.Now(), s;
      WithinSelf(manager.names, LogTargets(applied), pid, start);
      ghost var rolling := Mirrors(b, s, start) && RestorableLog(b, applied);
      if rolling { RollingStart(b, s, applied, start); }
      var i := |applied|;
      while i > 0
        invariant 0 <= i <= |applied| && Ready()
        invariant Within(manager.names, LogTargets(applied), pid, start, manager.Now())
        invariant rolling ==> Rolling(b, s, applied, i, now, manager.Now())
      {
        i := i - 1;
        ghost var was := manager.Now();
        now := RestoreEntry(b, s, now, pid, applied, i);
        LogHas(applied, i);
        WithinMore(manager.names, [applied[i].target], LogTargets(applied), pid, start, was, manager.Now());
      }
      if rolling { RollingDone(b, s, applied, now, manager.Now()); }
    }

    /** Registers one target: its log entry, or the error that stops the
        registration. */
    method ApplyTarget(ghost b: Batch, ghost start: State, ghost s: State, pid: u32, target: string, rec: Process,
                       ghost applied: seq<PriorProcess>)
      returns (r: Result<PriorProcess>, ghost next: State)
      requires Ready() && b.names == manager.names && b.pid == pid == rec.pid && |b.recs| == |b.targets|
      requires |applied| < |b.targets| && b.targets[|applied|] == target && b.recs[|applied|] == rec
      modifies manager
      ensures Ready() && Within(manager.names, [target], pid, old(manager.Now()), manager.Now())
      ensures r.Ok? ==> r.value.target == target && Names(r.value.process, pid)
      ensures Forward(b, start, s, applied, old(manager.Now())) ==>
                if r.Ok? then Forward(b, start, next, applied + [r.value], manager.Now())
                else Stopped(b, start, next, applied, manager.Now(), r == Err(OutOfMemory))
    {
      ghost var was := manager.Now();
      var done := PutRecord(b, s, target, pid, Some(rec), true);
      ghost var t := Try(b, s, target, Some(rec));
      next := t.next;
      if Forward(b, start, s, applied, was) {
        if t.ok {
          ForwardStep(b, start, s, applied, was, t, manager.Now());
        } else {
          ForwardStops(b, start, s, applied, was, t, manager.Now());
        }
      }
      if done.Err? { return Err(done.error), next; }
      return Ok(PriorProcess(target, done.value)), next;
    }

    /** Registers target after target up to the first that fails; the log of those
        that did not. */
    method Advance(ghost b: Batch, ghost start: State, pid: u32, targets: seq<string>, recs: seq<Process>)
      returns (r: Result<()>, applied: seq<PriorProcess>, ghost s: State)
      requires Ready() && |recs| == |targets| && OwnRecords(pid, recs)
      requires b.names == manager.names && b.pid == pid && b.targets == targets && b.recs == recs
      requires Mirrors(b, start, manager.Now())
      modifies manager
      ensures Ready() && Within(manager.names, targets, pid, old(manager.Now()), manager.Now())
      ensures LogOf(applied, pid) && LogWithin(applied, targets) && RestorableLog(b, applied)
      ensures Mirrors(b, s, manager.Now()) && Reach(b, start, []) == Progress(applied, s, r == Err(OutOfMemory))
      ensures r.Ok? <==> |applied| == |targets|
    {
      ghost var w := manager.Now();
      WithinSelf(manager.names, targets, pid, w);
      applied, s := [], start;
      for n := 0 to |targets|
        invariant Ready() && |applied| == n && Advancing(b, start, s, applied, w, manager.Now())
      {
        ghost var was, before := manager.Now(), s;
        var done;
        done, s := ApplyTarget(b, start, s, pid, targets[n], recs[n], applied);
        if done.Err? {
          AdvancingEnds(b, start, before, s, applied, w, was, manager.Now(), done == Err(OutOfMemory));
          return Err(done.error), applied, s;
        }
        AdvancingStep(b, start, before, s, applied, done.value, w, was, manager.Now());
        applied := applied + [done.value];
      }
      ForwardEnds(b, start, s, applied, manager.Now(), false);
      return Ok(()), applied, s;
    }

    /** Registers the records on their targets, or rolls back. */
    method ApplyAll(ghost b: Batch, pid: u32, targets: seq<string>, recs: seq<Process>) returns (r: Result<()>)
      requires Ready() && |recs| == |targets| && OwnRecords(pid, recs)
      requires b.names == manager.names && b.o == Shown(manager.devices, true) && b.Honest()
      requires b.pid == pid && b.targets == targets && b.recs == recs
      modifies manager
      ensures Ready() && Within(manager.names, targets, pid, old(manager.Now()), manager.Now())
      ensures EndsAsTold(b, old(manager.Now()), manager.Now(), r.Ok?)
      ensures r == Err(OutOfMemory) <==> Registered(b, StateOf(b, old(manager.Now()))).short
    {
      ghost var w := manager.Now();
      MirrorsStart(b, w);
      var applied;
      ghost var s;
      r, applied, s := Advance(b, StateOf(b, w), pid, targets, recs);
      if r.Ok? { return; }
      ghost var failed := manager.Now();
      Rollback(b, s, pid, applied);
      WithinMore(manager.names, LogTargets(applied), targets, pid, w, failed, manager.Now());
    }

    /** Registers `pid` on every target, or turns back: the records sent are the shares
        of the split, and the outcome is exactly `Registered`'s, whatever fails.
        Nothing apart from `pid` changes and no GPU but the targets is touched. */
    method Apply(pid: u32, name: string, targets: seq<string>, totalBytes: u64, tensorSplit: seq<real>,
                 noise: seq<real>, smUtil: u32, memUtil: u32)
      returns (r: Result<()>, ghost recs: seq<Process>)
      requires Ready() && Tolerable(totalBytes, targets, tensorSplit, noise)
      modifies manager
      ensures Ready() && Within(manager.names, targets, pid, old(manager.Now()), manager.Now())
      ensures pid == 0 || targets == [] ==> r == Err(InvalidRequest) && manager.Now() == old(manager.Now())
      ensures pid != 0 && targets != [] ==>
                && |recs| == |targets| && OwnRecords(pid, recs) && OwnedMiB(recs) == CeilMiB(totalBytes)
                && Shares(totalBytes, targets, tensorSplit, noise, Amounts(recs))
                && recs == NewRecords(pid, name, Amounts(recs), smUtil, memUtil)
      ensures pid != 0 && targets != [] ==>
                var b := NewBatch(manager.names, Shown(old(manager.devices), true), pid, targets, recs);
                && EndsAsTold(b, old(manager.Now()), manager.Now(), r.Ok?)
                && (r == Err(OutOfMemory) <==> Registered(b, StateOf(b, old(manager.Now()))).short)
    {
      recs := [];
      WithinSelf(manager.names, targets, pid, manager.Now());
      if pid == 0 { return Err(InvalidRequest), recs; }
      if |targets| == 0 { return Err(InvalidRequest), recs; }
      var amounts := SplitProcessMiB(totalBytes, targets, tensorSplit, noise);
      var records := NewRecords(pid, name, amounts.value, smUtil, memUtil);
      NewRecordsTotal(pid, name, amounts.value, smUtil, memUtil);
      assert Amounts(records) == amounts.value;
      recs := records;
      ghost var b := NewBatch(manager.names, Shown(manager.devices, true), pid, targets, records);
      r := ApplyAll(b, pid, targets, records);
    }

    /** Takes `pid` off one target: exactly when it works, and what it costs. */
    method ReleaseOne(pid: u32, target: string) returns (r: Result<()>)
      requires Ready()
      modifies manager
      ensures Ready() && Within(manager.names, [target], pid, old(manager.Now()), manager.Now())
      ensures Attempted(manager.names, target, pid, Attempt(old(manager.Now()), manager.Now(), r.Ok?))
    {
      ghost var was := manager.Now();
      var read := DeviceAndProcess(target, pid);
      ghost var now := manager.Now();
      WithinRead(manager.names, [target], pid, was);
      if read.Err? { return Err(read.error); }
      ghost var i, works := Resolve(manager.names, target), !Next(was.script).PmonFails?;
      AbsentShown(manager.devices[i], works, pid);
      AbsentShown(manager.devices[i], true, pid);
      if read.value.1.None? { return Ok(()); }
      r := CommitRecord(target, pid, read.value.0, works, None);
      WithinMore(manager.names, [target], [target], pid, was, now, manager.Now());
      RemovalAttempted(manager.names, target, pid, was, manager.Now(), r.Ok?);
    }

    /** Takes `pid` off every target, going on past failures: `log` has one attempt
        for each target, in order, and each ends as `Attempted` tells.  It succeeds
        exactly if all of them do.  Wherever an attempt worked, the PID is off in the
        end; no GPU that lacked it gains it; nothing apart from it changes. */
    method Release(pid: u32, targets: seq<string>) returns (r: Result<()>, ghost log: seq<Attempt>)
      requires Ready()
      modifies manager
      ensures Ready() && Within(manager.names, targets, pid, old(manager.Now()), manager.Now())
      ensures |log| == |targets| && (r.Ok? <==> AllOk(log))
      ensures Releasing(manager.names, targets, pid, old(manager.Now()), log, manager.Now())
      ensures AllFine(old(manager.script)) ==>
                (r.Ok? <==>
                   targets == [] || (AllLegible(old(manager.devices)) && AllNamed(manager.names, targets, |targets|)))
    {
      ghost var start := manager.Now();
      WithinSelf(manager.names, targets, pid, start);
      r, log := Ok(()), [];
      for k := 0 to |targets|
        invariant Ready() && |log| == k && (r.Ok? <==> AllOk(log))
        invariant Releasing(manager.names, targets, pid, start, log, manager.Now())
      {
        ghost var now := manager.Now();
        var done := ReleaseOne(pid, targets[k]);
        ghost var a := Attempt(now, manager.Now(), done.Ok?);
        ReleasingStep(manager.names, targets, pid, start, log, a);
        OkMore(log, a);
        log := log + [a];
        if done.Err? { r := done; }
      }
      if AllFine(start.script) { FineRelease(manager.names, targets, pid, start, log, manager.Now()); }
    }

    /** Register, any number of resizes, release.  If all of them succeed, each went
        as told, in the worlds `worlds`; and if the PID was on no GPU before, every
        GPU shows what it showed before, its telemetry too unless a telemetry query
        failed on the way. */
    method RegisterResizeRelease(pid: u32, name: string, targets: seq<string>, sizes: seq<u64>,
                                 tensorSplit: seq<real>, noises: seq<seq<real>>, smUtil: u32, memUtil: u32)
      returns (r: Result<()>, ghost worlds: seq<World>)
      requires Ready() && |noises| == |sizes|
      requires forall k :: 0 <= k < |sizes| ==> Tolerable(sizes[k], targets, tensorSplit, noises[k])
      modifies manager
      ensures Ready() && Kept(old(manager.Now()), manager.Now(), pid)
      ensures r.Ok? ==>
                && AllSteps(worlds, SizedStep(manager.names, pid, name, targets, sizes, tensorSplit, noises, smUtil,
                                              memUtil))
                && |worlds| == |sizes| + 1 && worlds[0] == old(manager.Now())
                && forall k :: 0 <= k < |targets| ==> GoneFrom(manager.names, targets[k], pid, manager.devices)
      ensures r.Ok? && Absent(old(manager.devices), pid) ==>
                && Shown(manager.devices, false) == Shown(old(manager.devices), false)
                && (NoPmonFault(old(manager.script)) ==>
                  Shown(manager.devices, true) == Shown(old(manager.devices), true))
    {
      ghost var start := manager.Now();
      r, worlds := ApplyEach(pid, name, targets, sizes, tensorSplit, noises, smUtil, memUtil);
      if r.Err? { return; }
      r := ReleaseLast(pid, targets, start);
    }

    /** Register and resize. */
    method ApplyEach(pid: u32, name: string, targets: seq<string>, sizes: seq<u64>, tensorSplit: seq<real>,
                     noises: seq<seq<real>>, smUtil: u32, memUtil: u32)
      returns (r: Result<()>, ghost worlds: seq<World>)
      requires Ready() && |noises| == |sizes|
      requires forall k :: 0 <= k < |sizes| ==> Tolerable(sizes[k], targets, tensorSplit, noises[k])
      modifies manager
      ensures Ready() && Within(manager.names, targets, pid, old(manager.Now()), manager.Now())
      ensures r.Ok? ==>
                && AllSteps(worlds, SizedStep(manager.names, pid, name, targets, sizes, tensorSplit, noises, smUtil,
                                              memUtil))
                && |worlds| == |sizes| + 1 && worlds[0] == old(manager.Now())
    {
      ghost var start := manager.Now();
      WithinSelf(manager.names, targets, pid, start);
      r, worlds := Ok(()), [start];
      ghost var step := SizedStep(manager.names, pid, name, targets, sizes, tensorSplit, noises, smUtil, memUtil);
      for k := 0 to |sizes|
        invariant Ready() && Within(manager.names, targets, pid, start, manager.Now()) && r.Ok?
        invariant |worlds| == k + 1 && worlds[0] == start && worlds[k] == manager.Now()
        invariant AllSteps(worlds, step)
      {
        r := ApplyOnce(pid, name, targets, sizes, k, tensorSplit, noises, smUtil, memUtil, start);
        if r.Err? { return; }
        AllStepsMore(worlds, step, manager.Now());
        worlds := worlds + [manager.Now()];
      }
    }

    /** The release, in a run that began in world `start`. */
    method ReleaseLast(pid: u32, targets: seq<string>, ghost start: World) returns (r: Result<()>)
      requires Ready() && Within(manager.names, targets, pid, start, manager.Now())
      modifies manager
      ensures Ready() && Kept(start, manager.Now(), pid)
      ensures r.Ok? ==> forall k :: 0 <= k < |targets| ==> GoneFrom(manager.names, targets[k], pid, manager.devices)
      ensures r.Ok? && Absent(start.devices, pid) ==>
                && Shown(manager.devices, false) == Shown(start.devices, false)
                && (NoPmonFault(start.script) ==> Shown(manager.devices, true) == Shown(start.devices, true))
    {
      ghost var before := manager.Now();
      ghost var log;
      r, log := Release(pid, targets);
      WithinMore(manager.names, targets, targets, pid, start, before, manager.Now());
      if r.Ok? && Absent(start.devices, pid) {
        NothingRemains(manager.names, targets, start.devices, manager.devices, pid, false);
        if NoPmonFault(start.script) {
          NothingRemains(manager.names, targets, start.devices, manager.devices, pid, true);
        }
      }
    }

    /** Registration or resize `k`, in a run that began in world `start`. */
    method ApplyOnce(pid: u32, name: string, targets: seq<string>, sizes: seq<u64>, k: nat, tensorSplit: seq<real>,
                     noises: seq<seq<real>>, smUtil: u32, memUtil: u32, ghost start: World)
      returns (r: Result<()>)
      requires Ready() && k < |sizes| == |noises| && Tolerable(sizes[k], targets, tensorSplit, noises[k])
      requires Within(manager.names, targets, pid, start, manager.Now())
      modifies manager
      ensures Ready() && Within(manager.names, targets, pid, start, manager.Now())
      ensures r.Ok? ==>
                var step := SizedStep(manager.names, pid, name, targets, sizes, tensorSplit, noises, smUtil, memUtil);
                step(k, old(manager.Now()), manager.Now())
    {
      ghost var now := manager.Now();
      ghost var recs;
      r, recs := Apply(pid, name, targets, sizes[k], tensorSplit, noises[k], smUtil, memUtil);
      WithinMore(manager.names, targets, targets, pid, start, now, manager.Now());
      if r.Ok? {
        assert Sized(manager.names, pid, name, targets, sizes[k], tensorSplit, noises[k], smUtil, memUtil, now,
                     manager.Now());
      }
    }
  }

  /** Step `k` is a registration or resize to the size `k`. */
  ghost function SizedStep(names: seq<Name>, pid: u32, name: string, targets: seq<string>, sizes: seq<u64>,
                           tensorSplit: seq<real>, noises: seq<seq<real>>, sm: u32, mem: u32)
    : (int, World, World) -> bool
    requires |noises| == |sizes|
  {
    (k: int, w: World, w': World) =>
      0 <= k < |sizes| && Sized(names, pid, name, targets, sizes[k], tensorSplit, noises[k], sm, mem, w, w')
  }

  ghost predicate AllSteps(worlds: seq<World>, step: (int, World, World) -> bool) {
    forall k :: 0 <= k < |worlds| - 1 ==> step(k, worlds[k], worlds[k + 1])
  }

  lemma AllStepsMore(worlds: seq<World>, step: (int, World, World) -> bool, w: World)
    requires worlds != [] && AllSteps(worlds, step) && step(|worlds| - 1, worlds[|worlds| - 1], w)
    ensures AllSteps(worlds + [w], step)
  {
  }

  /** A registration or resize to `bytes` went through, as told. */
  ghost predicate Sized(names: seq<Name>, pid: u32, name: string, targets: seq<string>, bytes: u64,
                        tensorSplit: seq<real>, noise: seq<real>, sm: u32, mem: u32, w: World, w': World) {
    && pid != 0 && targets != []
    && exists recs: seq<Process> ::
         && recs == NewRecords(pid, name, Amounts(recs), sm, mem)
         && Shares(bytes, targets, tensorSplit, noise, Amounts(recs))
         && EndsAsTold(NewBatch(names, Shown(w.devices, true), pid, targets, recs), w, w', true)
  }

  // ---------- the whole registration ----------

  /** A registration from world `w` ended in world `w'` as `Registered` tells. */
  ghost predicate EndsAsTold(b: Batch, w: World, w': World, ok: bool) {
    && |b.recs| == |b.targets|
    && var r := Registered(b, StateOf(b, w));
       (ok <==> |r.applied| == |b.targets|) && Mirrors(b, r.end, w')
  }

  /** Whatever fails, a registration under a readable name leaves the GPUs readable
      if they were, and in any case if it succeeds; then all its targets name one. */
  lemma EndsReadable(b: Batch, w: World, w': World, ok: bool)
    requires EndsAsTold(b, w, w', ok) && Opens(b, StateOf(b, w)) && b.ReadableNames()
    ensures ok ==> AllNamed(b.names, b.targets, |b.targets|)
    ensures AllLegible(w.devices) || (ok && b.targets != []) ==> AllLegible(w'.devices)
  {
    var s := StateOf(b, w);
    var r := Registered(b, s);
    ReachLegible(b, s, [], Reach(b, s, []));
    if ok {
      forall k | 0 <= k < |b.targets| ensures Resolve(b.names, b.targets[k]) >= 0 {
        ReachFits(b, s, [], Reach(b, s, []), k);
      }
    } else {
      OpensTenable(b, s);
      RegisteredTenable(b, s);
      if r.turned.legible { RolledLegible(b, r.turned, r.applied); }
    }
  }

  /** Without faults, and with a readable name, a registration that fails leaves
      everything shown as it was; one that succeeds had all its targets named. */
  lemma FineEnds(b: Batch, w: World, w': World, ok: bool)
    requires EndsAsTold(b, w, w', ok) && Opens(b, StateOf(b, w)) && b.ReadableNames() && AllFine(w.script)
    ensures ok ==> AllNamed(b.names, b.targets, |b.targets|)
    ensures !ok ==> Shown(w'.devices, true) == b.o
    ensures AllLegible(w.devices) || (ok && b.targets != []) ==> AllLegible(w'.devices)
  {
    EndsReadable(b, w, w', ok);
    if !ok {
      FineIsCalm(w.script);
      FineLeft(b, StateOf(b, w));
      AllOrNothing(b, StateOf(b, w));
      ShowingBack(b.o, b.pid, Shown(w'.devices, true));
    }
  }

  // ---------- one step of the registration ----------

  /** The forward phase: the world is in state `s`, and what is to come is what the
      whole registration had to come. */
  ghost predicate Forward(b: Batch, start: State, s: State, applied: seq<PriorProcess>, w: World) {
    && |applied| <= |b.targets| == |b.recs| && Mirrors(b, s, w) && RestorableLog(b, applied)
    && Reach(b, start, []) == Reach(b, s, applied)
  }

  /** It stops and turns back. */
  ghost predicate Stopped(b: Batch, start: State, s: State, applied: seq<PriorProcess>, w: World, short: bool) {
    && |applied| < |b.targets| == |b.recs| && Mirrors(b, s, w) && RestorableLog(b, applied)
    && Reach(b, start, []) == Progress(applied, s, short)
  }

  lemma ForwardEnds(b: Batch, start: State, s: State, applied: seq<PriorProcess>, w: World, short: bool)
    requires || Stopped(b, start, s, applied, w, short)
             || (Forward(b, start, s, applied, w) && |applied| == |b.targets| && !short)
    ensures Mirrors(b, s, w) && RestorableLog(b, applied) && Reach(b, start, []) == Progress(applied, s, short)
  {
  }

  lemma RestorableMore(b: Batch, applied: seq<PriorProcess>, item: PriorProcess)
    requires RestorableLog(b, applied) && Restorable(b, item)
    ensures RestorableLog(b, applied + [item])
  {
  }

  lemma ForwardStep(b: Batch, start: State, s: State, applied: seq<PriorProcess>, w: World, t: Tried, w': World)
    requires Forward(b, start, s, applied, w) && |applied| < |b.targets| && t.ok && Mirrors(b, t.next, w')
    requires t == Try(b, s, b.targets[|applied|], Some(b.recs[|applied|]))
    ensures Forward(b, start, t.next, applied + [PriorProcess(b.targets[|applied|], t.prior)], w')
  {
    assert Restorable(b, PriorProcess(b.targets[|applied|], t.prior)) by {
      MirrorsTenable(b, s, w);
      TryTenable(b, s, b.targets[|applied|], Some(b.recs[|applied|]));
    }
    RestorableMore(b, applied, PriorProcess(b.targets[|applied|], t.prior));
    ReachStep(b, s, applied, t);
  }

  lemma ForwardStops(b: Batch, start: State, s: State, applied: seq<PriorProcess>, w: World, t: Tried, w': World)
    requires Forward(b, start, s, applied, w) && |applied| < |b.targets| && !t.ok && Mirrors(b, t.next, w')
    requires t == Try(b, s, b.targets[|applied|], Some(b.recs[|applied|]))
    ensures Stopped(b, start, t.next, applied, w', t.short)
  {
    ReachStep(b, s, applied, t);
  }

  // ---------- taking the PID off, target by target ----------

  datatype Attempt = Attempt(before: World, after: World, ok: bool)

  /** One removal.  It works exactly if its target names a GPU, the GPUs can be read
      and are, and the PID is not there, or the second read and the write work as well
      and do not look contested.  It spends up to three commands.  The PID is off
      then; otherwise nothing has changed.  What could be read still can. */
  ghost predicate Attempted(names: seq<Name>, target: string, pid: u32, a: Attempt) {
    var i, s, s' := Resolve(names, target), a.before.script, a.after.script;
    && |a.before.devices| == |names| == |a.after.devices|
    && (a.ok <==> i >= 0 && AllLegible(a.before.devices) && !Next(s).ReadFails?
                  && (var held := Find(Observed(a.before.devices[i], true).procs, pid);
                      held.None? || Removes(held, s)))
    && (s' == Rest(s) || s' == Rest(Rest(s)) || s' == Rest(Rest(Rest(s))))
    && (a.ok ==> GoneFrom(names, target, pid, a.after.devices))
    && (a.ok || a.after.devices == a.before.devices)
    && (a.ok || i < 0 || !AllLegible(a.before.devices) || Faults(s') < Faults(s))
    && (AllLegible(a.before.devices) ==> AllLegible(a.after.devices))
    && (a.after.devices == a.before.devices || GoneFrom(names, target, pid, a.after.devices))
  }

  /** The three commands of a removal work out. */
  ghost predicate Removes(held: Option<Process>, s: seq<Fault>) {
    && !Next(Rest(s)).ReadFails? && !Next(Rest(Rest(s))).WriteFails?
    && !Contested(held, !Next(s).PmonFails?, None, !Next(Rest(s)).PmonFails?)
  }

  lemma RemovalAttempted(names: seq<Name>, target: string, pid: u32, was: World, w': World, ok: bool)
    requires |names| == |was.devices| && Resolve(names, target) >= 0 && AllLegible(was.devices)
    requires !Next(was.script).ReadFails?
    requires var i := Resolve(names, target);
             && Find(Observed(was.devices[i], true).procs, pid).Some?
             && Landed(World(was.devices, Rest(was.script)), w', i, pid, !Next(was.script).PmonFails?, None, ok)
             && (ok ==> Find(w'.devices[i].procs, pid).None?)
    ensures Attempted(names, target, pid, Attempt(was, w', ok))
  {
    var i, s := Resolve(names, target), was.script;
    AbsenceFits(Observed(was.devices[i], true), pid);
    FaultsRest(s);
    FaultsRest(Rest(s));
    FaultsRest(Rest(Rest(s)));
  }

  ghost predicate Chained(start: World, log: seq<Attempt>, end: World) {
    if log == [] then end == start
    else
      && log[0].before == start && log[|log| - 1].after == end
      && forall k :: 0 <= k < |log| - 1 ==> log[k].after == log[k + 1].before
  }

  ghost predicate AllAttempted(names: seq<Name>, targets: seq<string>, pid: u32, log: seq<Attempt>) {
    |log| <= |targets| && forall k :: 0 <= k < |log| ==> Attempted(names, targets[k], pid, log[k])
  }

  ghost predicate AllOk(log: seq<Attempt>) { forall k :: 0 <= k < |log| ==> log[k].ok }

  lemma OkMore(log: seq<Attempt>, a: Attempt)
    ensures AllOk(log + [a]) <==> AllOk(log) && a.ok
  {
    if AllOk(log + [a]) {
      assert (log + [a])[|log|] == a;
      assert forall k :: 0 <= k < |log| ==> (log + [a])[k] == log[k];
    }
  }

  /** A release up to some target: one attempt after the other, each as `Attempted`
      tells; wherever one worked the PID is off, no GPU that lacked it has it, and
      nothing apart from it changed. */
  ghost predicate Releasing(names: seq<Name>, targets: seq<string>, pid: u32, start: World, log: seq<Attempt>,
                            now: World) {
    && AllAttempted(names, targets, pid, log) && Chained(start, log, now)
    && Cleared(names, targets, pid, start, log, now)
  }

  ghost predicate Cleared(names: seq<Name>, targets: seq<string>, pid: u32, start: World, log: seq<Attempt>,
                          now: World) {
    && |log| <= |targets| && |names| == |now.devices|
    && Within(names, targets, pid, start, now) && NoNewHolder(pid, start.devices, now.devices)
    && forall j :: 0 <= j < |log| && log[j].ok ==> GoneFrom(names, targets[j], pid, now.devices)
  }

  lemma ReleasingStep(names: seq<Name>, targets: seq<string>, pid: u32, start: World, log: seq<Attempt>, a: Attempt)
    requires |log| < |targets| && Releasing(names, targets, pid, start, log, a.before)
    requires Attempted(names, targets[|log|], pid, a) && Within(names, [targets[|log|]], pid, a.before, a.after)
    ensures Releasing(names, targets, pid, start, log + [a], a.after)
  {
    AttemptedMore(names, targets, pid, log, a);
    ChainMore(start, log, a);
    ClearedStep(names, targets, pid, start, log, a);
  }

  lemma AttemptedMore(names: seq<Name>, targets: seq<string>, pid: u32, log: seq<Attempt>, a: Attempt)
    requires |log| < |targets| && AllAttempted(names, targets, pid, log) && Attempted(names, targets[|log|], pid, a)
    ensures AllAttempted(names, targets, pid, log + [a])
  {
  }

  lemma ClearedStep(names: seq<Name>, targets: seq<string>, pid: u32, start: World, log: seq<Attempt>, a: Attempt)
    requires |log| < |targets| && Cleared(names, targets, pid, start, log, a.before)
    requires Within(names, [targets[|log|]], pid, a.before, a.after)
    requires a.after.devices == a.before.devices || GoneFrom(names, targets[|log|], pid, a.after.devices)
    requires a.ok ==> GoneFrom(names, targets[|log|], pid, a.after.devices)
    ensures Cleared(names, targets, pid, start, log + [a], a.after)
  {
    var n := |log|;
    WithinMore(names, [targets[n]], targets, pid, start, a.before, a.after);
    OthersKept(names, targets[n], pid, a.before.devices, a.after.devices);
    forall j | 0 <= j < n && log[j].ok ensures GoneFrom(names, targets[j], pid, a.after.devices) {
      StaysGone(names, targets[j], pid, a.before.devices, a.after.devices);
    }
  }

  lemma ChainMore(start: World, log: seq<Attempt>, a: Attempt)
    requires Chained(start, log, a.before)
    ensures Chained(start, log + [a], a.after)
  {
  }

  /** One removal puts the PID on no GPU. */
  lemma OthersKept(names: seq<Name>, target: string, pid: u32, before: seq<Device>, after: seq<Device>)
    requires TouchesOnly(names, [target], before, after) && |names| == |before|
    requires after == before || GoneFrom(names, target, pid, after)
    ensures NoNewHolder(pid, before, after)
  {
    forall i | 0 <= i < |before| && i != Resolve(names, target) ensures after[i] == before[i] {
      assert Untargeted(names, [target], i);
    }
  }

  lemma StaysGone(names: seq<Name>, gone: string, pid: u32, before: seq<Device>, after: seq<Device>)
    requires GoneFrom(names, gone, pid, before) && NoNewHolder(pid, before, after)
    ensures GoneFrom(names, gone, pid, after)
  {
  }

  /** What a release costs: with readable GPUs and named targets, each failed
      attempt uses up at least one command that did not simply work, and the GPUs
      stay readable. */
  lemma {:induction false} ReleaseCosts(names: seq<Name>, targets: seq<string>, pid: u32, start: World,
                                        log: seq<Attempt>, end: World)
    requires AllAttempted(names, targets, pid, log) && Chained(start, log, end)
    requires AllLegible(start.devices) && AllNamed(names, targets, |targets|)
    ensures AllLegible(end.devices) && Faults(end.script) + Failed(log) <= Faults(start.script)
  {
    if log != [] {
      var n := |log| - 1;
      assert Chained(start, log[..n], log[n].before);
      ReleaseCosts(names, targets, pid, start, log[..n], log[n].before);
      AttemptCosts(names, targets[n], pid, log[n]);
    }
  }

  /** How many attempts failed. */
  ghost function Failed(log: seq<Attempt>): (n: nat)
    ensures n == 0 <==> AllOk(log)
  {
    if log == [] then 0 else Failed(log[..|log| - 1]) + if log[|log| - 1].ok then 0 else 1
  }

  lemma AttemptCosts(names: seq<Name>, target: string, pid: u32, a: Attempt)
    requires Attempted(names, target, pid, a) && Resolve(names, target) >= 0 && AllLegible(a.before.devices)
    ensures AllLegible(a.after.devices)
    ensures Faults(a.after.script) + (if a.ok then 0 else 1) <= Faults(a.before.script)
  {
    var s := a.before.script;
    FaultsRest(s);
    FaultsRest(Rest(s));
    FaultsRest(Rest(Rest(s)));
  }

  /** With no fault a release succeeds exactly when the GPUs can be read and every
      target names one. */
  lemma FineRelease(names: seq<Name>, targets: seq<string>, pid: u32, start: World, log: seq<Attempt>, end: World)
    requires |log| == |targets| && Chained(start, log, end) && AllFine(start.script)
    requires AllAttempted(names, targets, pid, log)
    ensures AllOk(log) <==> targets == [] || (AllLegible(start.devices) && AllNamed(names, targets, |targets|))
  {
    if targets != [] {
      if AllLegible(start.devices) && AllNamed(names, targets, |targets|) {
        FaultsNone(start.script);
        ReleaseCosts(names, targets, pid, start, log, end);
      } else if AllOk(log) {
        assert log[0].ok && log[0].before == start;
        forall k | 0 <= k < |targets| ensures Resolve(names, targets[k]) >= 0 {
          assert log[k].ok;
        }
      }
    }
  }

  /** A target whose own commands all simply work is cleared, whatever failed before
      it. */
  lemma OwnCommandsDecide(names: seq<Name>, target: string, pid: u32, a: Attempt)
    requires Attempted(names, target, pid, a) && Resolve(names, target) >= 0 && AllLegible(a.before.devices)
    requires var s := a.before.script; Next(s).Fine? && Next(Rest(s)).Fine? && Next(Rest(Rest(s))).Fine?
    ensures a.ok
  {
  }

  ghost predicate LogOf(applied: seq<PriorProcess>, pid: u32) {
    forall j :: 0 <= j < |applied| ==> Names(applied[j].process, pid)
  }

  ghost predicate LogWithin(applied: seq<PriorProcess>, targets: seq<string>) {
    forall t :: t in LogTargets(applied) ==> t in targets
  }

  /** The forward phase, begun in world `start`. */
  ghost predicate Advancing(b: Batch, start: State, s: State, applied: seq<PriorProcess>, w: World, now: World) {
    && Within(b.names, b.targets, b.pid, w, now) && LogOf(applied, b.pid) && LogWithin(applied, b.targets)
    && Forward(b, start, s, applied, now)
  }

  lemma AdvancingStep(b: Batch, start: State, s: State, next: State, applied: seq<PriorProcess>, item: PriorProcess,
                      w: World, was: World, now: World)
    requires Advancing(b, start, s, applied, w, was) && |applied| < |b.targets|
    requires item.target == b.targets[|applied|] && Names(item.process, b.pid)
    requires Within(b.names, [item.target], b.pid, was, now) && Forward(b, start, next, applied + [item], now)
    ensures Advancing(b, start, next, applied + [item], w, now)
  {
    WithinMore(b.names, [item.target], b.targets, b.pid, w, was, now);
    LogNext(applied, b.pid, b.targets, item);
  }

  lemma AdvancingEnds(b: Batch, start: State, s: State, next: State, applied: seq<PriorProcess>, w: World, was: World,
                      now: World, short: bool)
    requires Advancing(b, start, s, applied, w, was) && |applied| < |b.targets|
    requires Within(b.names, [b.targets[|applied|]], b.pid, was, now) && Stopped(b, start, next, applied, now, short)
    ensures Within(b.names, b.targets, b.pid, w, now) && LogOf(applied, b.pid) && LogWithin(applied, b.targets)
    ensures Mirrors(b, next, now) && RestorableLog(b, applied) && Reach(b, start, []) == Progress(applied, next, short)
  {
    WithinMore(b.names, [b.targets[|applied|]], b.targets, b.pid, w, was, now);
    ForwardEnds(b, start, next, applied, now, short);
  }

  lemma LogNext(applied: seq<PriorProcess>, pid: u32, targets: seq<string>, item: PriorProcess)
    requires LogOf(applied, pid) && Names(item.process, pid)
    requires LogWithin(applied, targets) && item.target in targets
    ensures LogOf(applied + [item], pid) && LogWithin(applied + [item], targets)
  {
    assert LogTargets(applied + [item]) == LogTargets(applied) + [item.target];
  }

  // ---------- one step of the rollback ----------

  /** A rollback with `n` entries to go: the world is in state `s`, and what is to
      come is what the whole rollback had to come. */
  ghost predicate Rolling(b: Batch, start: State, applied: seq<PriorProcess>, n: nat, s: State, w: World) {
    && n <= |applied| && Mirrors(b, s, w) && RestorableLog(b, applied)
    && RolledBack(b, start, applied, |applied|) == RolledBack(b, s, applied, n)
  }

  lemma RollingStart(b: Batch, s: State, applied: seq<PriorProcess>, w: World)
    requires Mirrors(b, s, w) && RestorableLog(b, applied)
    ensures Rolling(b, s, applied, |applied|, s, w)
  {
  }

  lemma RollingDone(b: Batch, start: State, applied: seq<PriorProcess>, s: State, w: World)
    requires Rolling(b, start, applied, 0, s, w)
    ensures Mirrors(b, RolledBack(b, start, applied, |applied|), w)
  {
  }

  lemma LogHas(applied: seq<PriorProcess>, i: nat)
    requires i < |applied|
    ensures forall t :: t in [applied[i].target] ==> t in LogTargets(applied)
  {
    assert LogTargets(applied)[i] == applied[i].target;
  }

  lemma RollingTold(b: Batch, start: State, applied: seq<PriorProcess>, i: nat, s: State, w: World)
    requires i < |applied| && Rolling(b, start, applied, i + 1, s, w)
    ensures Told(b, s, w, applied[i].target, applied[i].process, false)
  {
    assert Restorable(b, applied[i]);
  }

  // ---------- which GPUs are touched ----------

  ghost predicate Untargeted(names: seq<Name>, targets: seq<string>, i: nat) {
    forall t :: t in targets ==> Resolve(names, t) != i
  }

  ghost predicate TouchesOnly(names: seq<Name>, targets: seq<string>, devices: seq<Device>, devices': seq<Device>) {
    && |devices'| == |devices|
    && forall i :: 0 <= i < |devices| && Untargeted(names, targets, i) ==> devices'[i] == devices[i]
  }

  function LogTargets(applied: seq<PriorProcess>): (r: seq<string>)
    ensures |r| == |applied| && forall j :: 0 <= j < |r| ==> r[j] == applied[j].target
  {
    seq(|applied|, j requires 0 <= j < |applied| => applied[j].target)
  }

  /** Nothing apart from `pid` on the targets' GPUs is different. */
  ghost predicate Within(names: seq<Name>, targets: seq<string>, pid: u32, w: World, w': World) {
    Kept(w, w', pid) && TouchesOnly(names, targets, w.devices, w'.devices)
  }

  lemma WithinSelf(names: seq<Name>, targets: seq<string>, pid: u32, w: World)
    ensures Within(names, targets, pid, w, w)
  {
    KeptSame(w, w, pid);
  }

  lemma WithinRead(names: seq<Name>, targets: seq<string>, pid: u32, w: World)
    ensures Within(names, targets, pid, w, World(w.devices, Rest(w.script)))
  {
    RestNoWorse(w.script);
    KeptSame(w, World(w.devices, Rest(w.script)), pid);
  }

  lemma WithinMore(names: seq<Name>, few: seq<string>, targets: seq<string>, pid: u32, a: World, b: World, c: World)
    requires Within(names, targets, pid, a, b) && Within(names, few, pid, b, c)
    requires forall t :: t in few ==> t in targets
    ensures Within(names, targets, pid, a, c)
  {
    KeptChain(a, b, c, pid);
    forall i | 0 <= i < |a.devices| && Untargeted(names, targets, i) ensures c.devices[i] == a.devices[i] {
      assert Untargeted(names, few, i);
    }
  }

  // ---------- taking the PID off ----------

  lemma AbsenceFits(o: Device, pid: u32)
    requires Plainly(o)
    ensures Fits(o, pid, None)
  {
    ChangedOwned(o.procs, pid, None);
  }

  ghost predicate AllNamed(names: seq<Name>, targets: seq<string>, n: nat) {
    forall k :: 0 <= k < n <= |targets| ==> Resolve(names, targets[k]) >= 0
  }

  ghost predicate GoneFrom(names: seq<Name>, target: string, pid: u32, devices: seq<Device>) {
    var i := Resolve(names, target);
    0 <= i < |devices| && Find(devices[i].procs, pid).None?
  }

  ghost predicate NoNewHolder(pid: u32, devices: seq<Device>, devices': seq<Device>) {
    && |devices| == |devices'|
    && forall i :: 0 <= i < |devices| && Find(devices[i].procs, pid).None? ==> Find(devices'[i].procs, pid).None?
  }

  ghost predicate Absent(devices: seq<Device>, pid: u32) {
    forall i :: 0 <= i < |devices| ==> Find(devices[i].procs, pid).None?
  }

  /** A PID that was nowhere, is now on no target, and left everything apart from
      itself alone, left everything alone. */
  lemma NothingRemains(names: seq<Name>, targets: seq<string>, devices: seq<Device>, devices': seq<Device>, pid: u32,
                       works: bool)
    requires Absent(devices, pid) && TouchesOnly(names, targets, devices, devices')
    requires AllApart(Shown(devices, works), Shown(devices', works), pid)
    requires forall k :: 0 <= k < |targets| ==> GoneFrom(names, targets[k], pid, devices')
    ensures Shown(devices', works) == Shown(devices, works)
  {
    forall i | 0 <= i < |devices| ensures Shown(devices', works)[i] == Shown(devices, works)[i] {
      if !Untargeted(names, targets, i) {
        var t :| t in targets && Resolve(names, t) == i;
        var k :| 0 <= k < |targets| && targets[k] == t;
        assert GoneFrom(names, targets[k], pid, devices');
        AbsentShown(devices[i], works, pid);
        AbsentShown(devices'[i], works, pid);
        ApartAbsent(Shown(devices, works)[i], Shown(devices', works)[i], pid);
      }
    }
  }

  // ---------- the records of a registration ----------

  function NewRecords(pid: u32, name: string, amounts: seq<u64>, sm: u32, mem: u32): (r: seq<Process>)
    ensures |r| == |amounts|
    ensures forall i :: 0 <= i < |r| ==> r[i] == Process(pid, "C", name, amounts[i], sm, mem, 0, 0)
  {
    seq(|amounts|, i requires 0 <= i < |amounts| => Process(pid, "C", name, amounts[i], sm, mem, 0, 0))
  }

  function Amounts(recs: seq<Process>): (a: seq<u64>)
    ensures |a| == |recs| && forall k :: 0 <= k < |a| ==> a[k] == recs[k].memMiB
  {
    seq(|recs|, k requires 0 <= k < |recs| => recs[k].memMiB)
  }

  lemma {:induction false} NewRecordsTotal(pid: u32, name: string, amounts: seq<u64>, sm: u32, mem: u32)
    ensures OwnedMiB(NewRecords(pid, name, amounts, sm, mem)) == NatSum(amounts)
  {
    if amounts != [] {
      var n := |amounts| - 1;
      NewRecordsTotal(pid, name, amounts[..n], sm, mem);
      assert NewRecords(pid, name, amounts, sm, mem)[..n] == NewRecords(pid, name, amounts[..n], sm, mem);
    }
  }
}
