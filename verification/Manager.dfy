/** The control manager: read-modify-write operations on the shared device
    state.  Upstream commands can fail; a script of outcomes stands for them, one
    entry consumed per command, and once it is used up everything works. */
module Control {
  import opened Accounting
  import opened Rebase
  import opened Operations

  /** How one upstream command ends.  `PmonFails` concerns a read whose optional
      telemetry query fails while the rest of it succeeds. */
  datatype Fault = Fine | ReadFails | PmonFails | WriteFails

  /** A GPU answers to its index and to its UUID. */
  datatype Name = Name(index: string, uuid: string)

  predicate Answers(n: Name, target: string) { n.index == target || n.uuid == target }

  /** The first GPU that answers to `target`, or -1. */
  function ResolveFrom(names: seq<Name>, target: string, i: nat): (r: int)
    requires i <= |names|
    ensures r == -1 || i <= r < |names|
    ensures r >= 0 ==> Answers(names[r], target) && forall j :: i <= j < r ==> !Answers(names[j], target)
    ensures r < 0 ==> forall j :: i <= j < |names| ==> !Answers(names[j], target)
    decreases |names| - i
  {
    if i == |names| then -1
    else if Answers(names[i], target) then i
    else ResolveFrom(names, target, i + 1)
  }

  function Resolve(names: seq<Name>, target: string): int { ResolveFrom(names, target, 0) }

  function Next(script: seq<Fault>): Fault { if script == [] then Fine else script[0] }

  function Rest(script: seq<Fault>): seq<Fault> { if script == [] then [] else script[1..] }

  // ---------- the specification of one call ----------

  datatype World = World(devices: seq<Device>, script: seq<Fault>)

  /** Sends one update to GPU `i`. */
  ghost function Sent(w: World, i: nat, update: Write): (World, bool)
    requires i < |w.devices|
  {
    if Next(w.script).WriteFails? then (World(w.devices, Rest(w.script)), false)
    else (World(w.devices[i := Commit(w.devices[i], update)], Rest(w.script)), true)
  }

  /** One operation as a whole: read, plan, write. */
  ghost function Performed(names: seq<Name>, w: World, target: string, op: Op): (World, bool)
    requires |names| == |w.devices|
  {
    var i, w1 := Resolve(names, target), World(w.devices, Rest(w.script));
    if Next(w.script).ReadFails? || !AllLegible(w.devices) || i < 0 then (w1, false)
    else
      var plan := Plan(op, Observed(w.devices[i], !Next(w.script).PmonFails?));
      if plan.None? then (w1, false) else Sent(w1, i, plan.value)
  }

  /** A call is one atomic operation on the GPU its target names, or nothing. */
  lemma PerformedIsAtomic(names: seq<Name>, w: World, target: string, op: Op)
    requires |names| == |w.devices|
    ensures var (w', ok) := Performed(names, w, target, op);
            var i, works := Resolve(names, target), !Next(w.script).PmonFails?;
            && (ok <==> && !Next(w.script).ReadFails? && AllLegible(w.devices) && i >= 0
                        && Succeeds(op, w.devices[i], works) && !Next(Rest(w.script)).WriteFails?)
            && w'.devices == if ok then w.devices[i := Atomic(op, w.devices[i], works)] else w.devices
  {
  }

  // ---------- uint64 arithmetic ----------

  method AddBytes(a: u64, b: u64) returns (r: Result<u64>)
    ensures r.Ok? <==> a + b <= MAX64
    ensures r.Err? ==> r.error.Overflow?
    ensures r.Ok? ==> r.value == a + b
  {
    if b > MAX64 - a { return Err(Overflow); }
    return Ok(a + b);
  }

  /** The bytes a process list owns, or a refusal exactly when they do not fit in
      64 bits. */
  method ProcessBytes(processes: Procs) returns (r: Result<u64>)
    ensures r.Err? ==> r.error.Overflow?
    ensures r.Ok? <==> Owned(processes) <= MAX64
    ensures r.Ok? ==> r.value == Owned(processes)
  {
    var total: u64 := 0;
    for i := 0 to |processes|
      invariant total == Owned(processes[..i])
    {
      assert processes[..i + 1][..i] == processes[..i];
      OwnedPrefix(processes, i + 1);
      if processes[i].memMiB > MAX64 / MIB { return Err(Overflow); }
      var bytes: u64 := processes[i].memMiB * MIB;
      var sum := AddBytes(total, bytes);
      if sum.Err? { return Err(sum.error); }
      total := sum.value;
    }
    assert processes[..|processes|] == processes;
    return Ok(total);
  }

  /** `validateProcess` */
  method CheckProcess(p: Process) returns (ok: bool)
    ensures ok <==> ValidProcess(p)
  {
    if p.pid == 0 { return false; }
    if p.kind != "" && p.kind != "C" && p.kind != "G" { return false; }
    if p.sm > 100 || p.mem > 100 || p.enc > 100 || p.dec > 100 { return false; }
    return true;
  }

  /** As `ProcessBytes`, also refusing any invalid record. */
  method ValidatedProcessBytes(processes: Procs) returns (r: Result<u64>)
    ensures r.Err? ==> r.error.Overflow? || r.error.InvalidProcess?
    ensures r.Ok? <==> AllValid(processes) && Owned(processes) <= MAX64
    ensures r.Ok? ==> r.value == Owned(processes)
  {
    var processBytes: u64 := 0;
    for i := 0 to |processes|
      invariant processBytes == Owned(processes[..i])
      invariant forall j :: 0 <= j < i ==> ValidProcess(processes[j])
    {
      assert processes[..i + 1][..i] == processes[..i];
      OwnedPrefix(processes, i + 1);
      var valid := CheckProcess(processes[i]);
      if !valid { return Err(InvalidProcess); }
      if processes[i].memMiB > MAX64 / MIB { return Err(Overflow); }
      var bytes: u64 := processes[i].memMiB * MIB;
      if bytes > MAX64 - processBytes { return Err(Overflow); }
      processBytes := processBytes + bytes;
    }
    assert processes[..|processes|] == processes;
    return Ok(processBytes);
  }

  /** The counters after a release, refused beyond the non-process usage. */
  method PlanRelease(device: Device, delta: u64) returns (r: Result<Write>)
    ensures r.Ok? <==> Plan(Release(delta), device).Some?
    ensures r.Ok? ==> r.value == Plan(Release(delta), device).value
  {
    var owned := ProcessBytes(device.procs);
    if owned.Err? { return Err(owned.error); }
    if owned.value > device.used { return Err(OwnedExceedsUsed); }
    var releasable: u64 := device.used - owned.value;
    if delta > releasable { return Err(NotReleasable); }
    var free := AddBytes(device.free, delta);
    if free.Err? { return Err(free.error); }
    return Ok(SetMemory(device.used - delta, free.value));
  }

  /** A write error is only reported for a write that failed. */
  ghost predicate UpstreamError(r: Result<()>, before: seq<Fault>, after: seq<Fault>) {
    && r != Err(ReadFailed) && r != Err(OutOfMemory)
    && (r == Err(WriteFailed) ==> Next(before).WriteFails? && after == Rest(before))
  }

  class Manager {
    const names: seq<Name>
    const locked: bool
    var devices: seq<Device>
    var script: seq<Fault>

    ghost predicate Valid()
      reads this
    {
      |names| == |devices|
    }

    ghost function Now(): World
      reads this
    {
      World(devices, script)
    }

    constructor (names: seq<Name>, devices: seq<Device>, locked: bool, script: seq<Fault>)
      requires |names| == |devices|
      ensures Valid() && this.names == names && this.locked == locked && Now() == World(devices, script)
    {
      this.names, this.devices, this.locked, this.script := names, devices, locked, script;
    }

    /** Other processes change the shared devices. */
    method OthersAct(now: seq<Device>)
      requires Valid() && |now| == |devices|
      modifies this`devices
      ensures devices == now && Valid()
    {
      devices := now;
    }

    method PopFault() returns (f: Fault)
      modifies this`script
      ensures f == Next(old(script)) && script == Rest(old(script))
    {
      if script == [] { return Fine; }
      f := script[0];
      script := script[1..];
    }

    /** Reads one device through the observer. */
    method Observe(target: string) returns (r: Result<(nat, Device)>)
      requires Valid()
      modifies this`script
      ensures script == Rest(old(script))
      ensures r.Ok? <==> !Next(old(script)).ReadFails? && AllLegible(devices) && Resolve(names, target) >= 0
      ensures r == Err(ReadFailed) <==> Next(old(script)).ReadFails?
      ensures r.Ok? ==> r.value.0 == Resolve(names, target)
      ensures r.Err? ==> r.error.ReadFailed? || r.error.Unreadable? || r.error.GpuNotFound?
      ensures r.Ok? ==> r.value.1 == Observed(devices[r.value.0], !Next(old(script)).PmonFails?)
    {
      var f := PopFault();
      if f.ReadFails? { return Err(ReadFailed); }
      if !AllLegible(devices) { return Err(Unreadable); }
      var i := 0;
      while i < |names|
        invariant 0 <= i <= |names|
        invariant forall j :: 0 <= j < i ==> !Answers(names[j], target)
      {
        if names[i].index == target || names[i].uuid == target {
          return Ok((i, Observed(devices[i], !f.PmonFails?)));
        }
        i := i + 1;
      }
      return Err(GpuNotFound);
    }

    /** Sends one update to the upstream control program. */
    method Send(i: nat, update: Write) returns (r: Result<()>)
      requires Valid() && i < |devices|
      modifies this
      ensures Valid() && (Now(), r.Ok?) == Sent(old(Now()), i, update)
      ensures r.Err? ==> r.error.WriteFailed? && Next(old(script)).WriteFails?
    {
      var f := PopFault();
      if f.WriteFails? { return Err(WriteFailed); }
      devices := devices[i := Commit(devices[i], update)];
      return Ok(());
    }

    method SetUsedMemory(target: string, usedBytes: u64) returns (r: Result<()>)
      requires Valid()
      modifies this
      ensures Valid() && (Now(), r.Ok?) == Performed(names, old(Now()), target, SetUsed(usedBytes))
    {
      var read := Observe(target);
      if read.Err? { return Err(read.error); }
      var (i, device) := read.value;
      var pool := AddBytes(device.used, device.free);
      if pool.Err? { return Err(pool.error); }
      if usedBytes > pool.value { return Err(ExceedsPool); }
      var owned := ProcessBytes(device.procs);
      if owned.Err? { return Err(owned.error); }
      if usedBytes < owned.value { return Err(BelowOwned); }
      assert Plan(SetUsed(usedBytes), device) == Some(SetMemory(usedBytes, pool.value - usedBytes));
      r := Send(i, SetMemory(usedBytes, pool.value - usedBytes));
    }

    method ReserveMemory(target: string, delta: u64) returns (r: Result<()>)
      requires Valid()
      modifies this
      ensures Valid() && (Now(), r.Ok?) == Performed(names, old(Now()), target, Reserve(delta))
      ensures r == Err(InsufficientMemory) <==>
                && !Next(old(script)).ReadFails? && AllLegible(old(devices)) && Resolve(names, target) >= 0
                && delta > Floor(old(devices)[Resolve(names, target)].free)
    {
      var read := Observe(target);
      if read.Err? { return Err(read.error); }
      var (i, device) := read.value;
      if delta > device.free { return Err(InsufficientMemory); }
      var used := AddBytes(device.used, delta);
      if used.Err? { return Err(used.error); }
      r := Send(i, SetMemory(used.value, device.free - delta));
    }

    method ReleaseMemory(target: string, delta: u64) returns (r: Result<()>)
      requires Valid()
      modifies this
      ensures Valid() && (Now(), r.Ok?) == Performed(names, old(Now()), target, Release(delta))
    {
      var read := Observe(target);
      if read.Err? { return Err(read.error); }
      var (i, device) := read.value;
      var plan := PlanRelease(device, delta);
      if plan.Err? { return Err(plan.error); }
      r := Send(i, plan.value);
    }

    method ReplaceProcesses(target: string, processes: Procs) returns (r: Result<()>)
      requires Valid()
      modifies this
      ensures Valid() && (Now(), r.Ok?) == Performed(names, old(Now()), target, Replace(processes))
    {
      var read := Observe(target);
      if read.Err? { return Err(read.error); }
      r := ReconcileProcessesFromState(read.value.0, read.value.1, processes);
    }

    /** Locked: merges the caller's edit into a fresh read.  Unlocked: trusts the
        caller's snapshot and writes its list as it is. */
    method ReplaceProcessesFromState(target: string, before: Device, desired: Procs) returns (r: Result<()>)
      requires Valid()
      modifies this
      ensures Valid()
      ensures locked ==> (Now(), r.Ok?) == Performed(names, old(Now()), target, Edit(before.procs, desired))
      ensures !locked ==> var i := Resolve(names, target);
                (Now(), r.Ok?) == if i < 0 || Reconciled(before, desired).None? then (old(Now()), false)
                                  else Sent(old(Now()), i, Reconciled(before, desired).value)
      ensures r != Err(OutOfMemory)
      ensures locked && r == Err(ReadFailed) ==> Next(old(script)).ReadFails? && script == Rest(old(script))
      ensures locked && r == Err(WriteFailed) ==>
               Next(Rest(old(script))).WriteFails? && script == Rest(Rest(old(script)))
    {
      if !locked {
        var i := Resolve(names, target);
        if i < 0 { return Err(GpuNotFound); }
        r := ReconcileProcessesFromState(i, before, desired);
        return;
      }
      var read := Observe(target);
      if read.Err? { return Err(read.error); }
      var (i, current) := read.value;
      var rebased := RebaseProcesses(before.procs, desired, current.procs);
      if rebased.Err? { return Err(rebased.error); }
      r := ReconcileProcessesFromState(i, current, rebased.value);
    }

    method ReconcileProcessesFromState(i: nat, device: Device, processes: Procs) returns (r: Result<()>)
      requires Valid() && i < |devices|
      modifies this
      ensures Valid()
      ensures (Now(), r.Ok?) == if Reconciled(device, processes).None? then (old(Now()), false)
                                else Sent(old(Now()), i, Reconciled(device, processes).value)
      ensures UpstreamError(r, old(script), script)
    {
      var current := ProcessBytes(device.procs);
      if current.Err? { return Err(current.error); }
      if current.value > device.used { return Err(OwnedExceedsUsed); }
      var nonProcessUsed: u64 := device.used - current.value;
      var reservedBytes: u64 := 0;
      var visible := AddBytes(device.used, device.free);
      if visible.Err? { return Err(visible.error); }
      if visible.value <= device.total {
        reservedBytes := device.total - visible.value;
      }
      r := SetProcessesReconciled(i, processes, device.total, reservedBytes, nonProcessUsed);
    }

    method SetProcessesReconciled(i: nat, processes: Procs, totalBytes: u64, reservedBytes: u64,
                                  nonProcessUsedBytes: u64)
      returns (r: Result<()>)
      requires Valid() && i < |devices|
      modifies this
      ensures Valid()
      ensures var available := totalBytes - reservedBytes;
              (Now(), r.Ok?) ==
                if !AllValid(processes) || nonProcessUsedBytes > available
                    || Owned(processes) > available - nonProcessUsedBytes
                then (old(Now()), false)
                else Sent(old(Now()), i, SetProcesses(processes, nonProcessUsedBytes + Owned(processes),
                                                      available - (nonProcessUsedBytes + Owned(processes))))
      ensures UpstreamError(r, old(script), script)
    {
      var owned := ValidatedProcessBytes(processes);
      if owned.Err? { return Err(owned.error); }
      if reservedBytes > totalBytes { return Err(OverCapacity); }
      var available: u64 := totalBytes - reservedBytes;
      if nonProcessUsedBytes > available { return Err(OverCapacity); }
      if owned.value > available - nonProcessUsedBytes { return Err(OverCapacity); }
      var usedBytes: u64 := nonProcessUsedBytes + owned.value;
      r := Send(i, SetProcesses(processes, usedBytes, available - usedBytes));
    }
  }
}
