/** The CUDA allocation engine over the control backend. */
module Engine {
  import opened Accounting
  import opened Rebase
  import opened Operations
  import opened Control
  import opened Text

  datatype Status = Success | InvalidValue | OutOfMemoryStatus | Initialization | InvalidDevice | Unknown

  datatype Allocation = Allocation(size: u64, device: int)

  // ---------- sums over an allocation table ----------

  ghost function On(a: Allocation, device: int): nat { if a.device == device then a.size else 0 }

  /** Bytes a table holds on one device. */
  ghost function SumOn<K>(m: map<K, Allocation>, device: int): nat {
    if m == map[] then 0
    else var k :| k in m; On(m[k], device) + SumOn(m - {k}, device)
  }

  lemma {:induction false} SumRemove<K>(m: map<K, Allocation>, k: K, device: int)
    requires k in m
    ensures SumOn(m, device) == On(m[k], device) + SumOn(m - {k}, device)
    decreases m
  {
    var j :| j in m && SumOn(m, device) == On(m[j], device) + SumOn(m - {j}, device);
    if j != k {
      SumRemove(m - {j}, k, device);
      assert m - {j} - {k} == m - {k} - {j};
      SumRemove(m - {k}, j, device);
    }
  }

  lemma SumAdd<K>(m: map<K, Allocation>, k: K, a: Allocation, device: int)
    requires k !in m
    ensures SumOn(m[k := a], device) == On(a, device) + SumOn(m, device)
  {
    SumRemove(m[k := a], k, device);
    assert m[k := a] - {k} == m;
  }

  lemma {:induction false} SumElsewhere<K>(m: map<K, Allocation>, device: int)
    requires forall k :: k in m ==> m[k].device != device
    ensures SumOn(m, device) == 0
    decreases m
  {
    if m != map[] {
      var k :| k in m;
      SumRemove(m, k, device);
      SumElsewhere(m - {k}, device);
    }
  }

  // ---------- the specification of each call ----------

  datatype State = State(current: int, allocs: map<nat, Allocation>, successes: nat)

  /** Devices are numbered from zero and answer to their numbers. */
  ghost predicate Indexed(names: seq<Name>) {
    forall i: int :: Resolve(names, Itoa(i)) == if 0 <= i < |names| then i else -1
  }

  /** The names the GPUs really have: their numbers, and UUIDs that start with a
      letter. */
  function NumberedNames(uuids: seq<string>): (r: seq<Name>)
    ensures |r| == |uuids| && forall i :: 0 <= i < |r| ==> r[i] == Name(Itoa(i), uuids[i])
  {
    seq(|uuids|, i requires 0 <= i < |uuids| => Name(Itoa(i), uuids[i]))
  }

  lemma NumberedIsIndexed(uuids: seq<string>)
    requires forall i :: 0 <= i < |uuids| ==> uuids[i] != "" && uuids[i][0] == 'G'
    ensures Indexed(NumberedNames(uuids))
  {
    var names := NumberedNames(uuids);
    forall i: int ensures Resolve(names, Itoa(i)) == if 0 <= i < |names| then i else -1 {
      forall k | 0 <= k < |names| ensures Answers(names[k], Itoa(i)) <==> k == i {
        ItoaApart(k, i);
        assert Itoa(i)[0] != 'G';
      }
      var r := Resolve(names, Itoa(i));
    }
  }

  /** They answer to their UUIDs as well, the first one if several have the same. */
  lemma NumberedByUuid(uuids: seq<string>, i: nat)
    requires i < |uuids| && uuids[i] != "" && uuids[i][0] == 'G'
    requires forall k :: 0 <= k < i ==> uuids[k] != uuids[i]
    ensures Resolve(NumberedNames(uuids), uuids[i]) == i
  {
    var names := NumberedNames(uuids);
    forall k | 0 <= k <= i ensures Answers(names[k], uuids[i]) <==> k == i {
      assert Itoa(k)[0] != 'G';
    }
    var r := Resolve(names, uuids[i]);
  }

  /** Nothing else is answered to. */
  lemma NumberedNoOther(uuids: seq<string>, target: string)
    requires target !in uuids && forall i: nat :: target != Itoa(i)
    ensures Resolve(NumberedNames(uuids), target) == -1
  {
    var r := Resolve(NumberedNames(uuids), target);
  }

  /** Different numbers are printed differently. */
  lemma ItoaApart(i: nat, j: int)
    ensures Itoa(i) == Itoa(j) <==> i == j
  {
    if j >= 0 {
      DecimalValue(i);
      DecimalValue(j);
    } else {
      assert Itoa(j)[0] == '-' && IsDigit(Itoa(i)[0]);
    }
  }

  ghost predicate Injected(oomAfter: int, e: State) { oomAfter >= 0 && e.successes >= oomAfter }

  /** Where allocations are reserved: in the shared GPUs through the manager, or in
      counters of one's own that are exact to the byte. */
  datatype Backend = Shared(names: seq<Name>) | Exact

  ghost predicate Serves(b: Backend, devices: seq<Device>) {
    b.Shared? ==> |b.names| == |devices| && Indexed(b.names)
  }

  datatype Grant = Granted | Insufficient | Broken

  /** The device list can be read. */
  ghost predicate Lists(b: Backend, w: World) {
    b.Shared? ==> !Next(w.script).ReadFails? && AllLegible(w.devices)
  }

  ghost function AfterList(b: Backend, w: World): World {
    if b.Shared? then World(w.devices, Rest(w.script)) else w
  }

  ghost function FreeShown(b: Backend, d: Device): u64 { if b.Shared? then Floor(d.free) else d.free }

  ghost function Moved(d: Device, n: int): Device
    requires 0 <= d.used + n <= MAX64 && 0 <= d.free - n <= MAX64
  {
    d.(used := d.used + n, free := d.free - n)
  }

  ghost function Reserving(b: Backend, w: World, device: int, n: u64): (World, Grant)
    requires Serves(b, w.devices)
  {
    if b.Shared? then
      var (w', ok) := Performed(b.names, w, Itoa(device), Reserve(n));
      var short := Lists(b, w) && 0 <= device < |w.devices| && n > Floor(w.devices[device].free);
      (w', if ok then Granted else if short then Insufficient else Broken)
    else if !(0 <= device < |w.devices|) then (w, Broken)
    else
      var d := w.devices[device];
      if n > d.free then (w, Insufficient)
      else if d.used + n > MAX64 then (w, Broken)
      else (w.(devices := w.devices[device := Moved(d, n)]), Granted)
  }

  ghost function Returning(b: Backend, w: World, device: int, n: u64): (World, bool)
    requires Serves(b, w.devices)
  {
    if b.Shared? then Performed(b.names, w, Itoa(device), Release(n))
    else if !(0 <= device < |w.devices|) then (w, false)
    else
      var d, back: int := w.devices[device], n;
      if n > d.used || d.free + n > MAX64 then (w, false)
      else (w.(devices := w.devices[device := Moved(d, -back)]), true)
  }

  /** `between` is what others have made of the devices by the time the memory is
      reserved, after the capacity check. */
  ghost function Tracked(b: Backend, oomAfter: int, e: State, w: World, token: nat, size: u64, between: seq<Device>)
    : (State, World, Status)
    requires Serves(b, w.devices) && |between| == |w.devices|
  {
    if token == 0 || size == 0 || token in e.allocs then (e, w, InvalidValue)
    else if Injected(oomAfter, e) then (e, w, OutOfMemoryStatus)
    else
      var w1 := AfterList(b, w);
      if !Lists(b, w) then (e, w1, Unknown)
      else if !(0 <= e.current < |w.devices|) then (e, w1, InvalidDevice)
      else if size > FreeShown(b, w.devices[e.current]) then (e, w1, OutOfMemoryStatus)
      else
        var (w2, grant) := Reserving(b, w1.(devices := between), e.current, size);
        match grant
        case Granted => (State(e.current, e.allocs[token := Allocation(size, e.current)], e.successes + 1), w2, Success)
        case Insufficient => (e, w2, OutOfMemoryStatus)
        case Broken => (e, w2, Unknown)
  }

  ghost function Freed(b: Backend, e: State, w: World, token: nat): (State, World, Status)
    requires Serves(b, w.devices)
  {
    if token == 0 then (e, w, Success)
    else if token !in e.allocs then (e, w, InvalidValue)
    else
      var (w1, ok) := Returning(b, w, e.allocs[token].device, e.allocs[token].size);
      if ok then (e.(allocs := e.allocs - {token}), w1, Success) else (e, w1, Unknown)
  }

  /** The tokens of one device. */
  ghost function TokensOn(m: map<nat, Allocation>, device: int): set<nat> {
    set t | t in m && m[t].device == device
  }

  ghost function WithoutDevice(e: State): State { e.(allocs := e.allocs - TokensOn(e.allocs, e.current)) }

  ghost function ResetOf(b: Backend, e: State, w: World): (State, World, Status)
    requires Serves(b, w.devices)
  {
    var total := SumOn(e.allocs, e.current);
    if total > MAX64 then (e, w, Unknown)
    else if total == 0 then (WithoutDevice(e), w, Success)
    else
      var (w1, ok) := Returning(b, w, e.current, total);
      if ok then (WithoutDevice(e), w1, Success) else (e, w1, Unknown)
  }

  // ---------- the code ----------

  class Engine {
    const manager: Manager
    const oomAfter: int
    var currentDevice: int
    var allocations: map<nat, Allocation>
    var successfulAllocations: nat

    ghost predicate Valid()
      reads this, manager
    {
      manager.Valid() && Indexed(manager.names)
    }

    ghost function Now(): State
      reads this
    {
      State(currentDevice, allocations, successfulAllocations)
    }

    constructor (manager: Manager, oomAfter: int)
      requires manager.Valid() && Indexed(manager.names) && oomAfter >= -1
      ensures Valid() && this.manager == manager && this.oomAfter == oomAfter && Now() == State(0, map[], 0)
    {
      this.manager, this.oomAfter := manager, oomAfter;
      currentDevice, allocations, successfulAllocations := 0, map[], 0;
    }

    /** The device counters as the backend lists them. */
    method Devices() returns (r: Result<seq<Device>>)
      requires Valid()
      modifies manager`script
      ensures manager.script == Rest(old(manager.script))
      ensures r.Ok? <==> !Next(old(manager.script)).ReadFails? && AllLegible(manager.devices)
      ensures r.Ok? ==> |r.value| == |manager.devices|
      ensures r.Ok? ==> forall i :: 0 <= i < |manager.devices| ==>
               r.value[i] == Observed(manager.devices[i], !Next(old(manager.script)).PmonFails?)
    {
      var f := manager.PopFault();
      if f.ReadFails? { return Err(ReadFailed); }
      if !AllLegible(manager.devices) { return Err(Unreadable); }
      var devices := manager.devices;
      return Ok(seq(|devices|, i requires 0 <= i < |devices| => Observed(devices[i], !f.PmonFails?)));
    }

    method SetDevice(index: int) returns (s: Status)
      requires Valid()
      modifies this`currentDevice, manager`script
      ensures s.Success? <==> && !Next(old(manager.script)).ReadFails? && AllLegible(manager.devices)
                              && 0 <= index < |manager.devices|
      ensures currentDevice == if s.Success? then index else old(currentDevice)
      ensures s.Unknown? <==> Next(old(manager.script)).ReadFails? || !AllLegible(manager.devices)
      ensures s.Success? || s.Unknown? || s.InvalidDevice?
    {
      var devices := Devices();
      if devices.Err? { return Unknown; }
      if !(0 <= index < |devices.value|) { return InvalidDevice; }
      currentDevice := index;
      return Success;
    }

    ghost function Store(): Backend
      reads this
    {
      Shared(manager.names)
    }

    /** Between the capacity check and the reservation other processes may act. */
    method TrackAllocation(token: nat, size: u64, between: seq<Device>) returns (s: Status)
      requires Valid() && |between| == |manager.devices|
      modifies this, manager
      ensures Valid()
      ensures (Now(), manager.Now(), s)
           == Tracked(Store(), oomAfter, old(Now()), old(manager.Now()), token, size, between)
    {
      if token == 0 || size == 0 { return InvalidValue; }
      if token in allocations { return InvalidValue; }
      if oomAfter >= 0 && successfulAllocations >= oomAfter { return OutOfMemoryStatus; }
      var devices := Devices();
      if devices.Err? { return Unknown; }
      if !(0 <= currentDevice < |devices.value|) { return InvalidDevice; }
      if size > devices.value[currentDevice].free { return OutOfMemoryStatus; }
      manager.OthersAct(between);
      var reserved := manager.ReserveMemory(Itoa(currentDevice), size);
      if reserved.Err? {
        if reserved.error.InsufficientMemory? { return OutOfMemoryStatus; }
        return Unknown;
      }
      allocations := allocations[token := Allocation(size, currentDevice)];
      successfulAllocations := successfulAllocations + 1;
      return Success;
    }

    method FreeAllocation(token: nat) returns (s: Status)
      requires Valid()
      modifies this`allocations, manager
      ensures Valid() && (Now(), manager.Now(), s) == Freed(Store(), old(Now()), old(manager.Now()), token)
    {
      if token == 0 { return Success; }
      if token !in allocations { return InvalidValue; }
      var allocation := allocations[token];
      var released := manager.ReleaseMemory(Itoa(allocation.device), allocation.size);
      if released.Err? { return Unknown; }
      allocations := allocations - {token};
      return Success;
    }

    /** Adds up the current device's allocations, in whatever order the table
        yields them; refuses exactly when the sum does not fit in 64 bits. */
    method TotalOnCurrent() returns (total: Option<u64>)
      requires Valid()
      ensures total == if SumOn(allocations, currentDevice) > MAX64 then None
               else Some(SumOn(allocations, currentDevice))
    {
      var rest, sum: u64 := allocations, 0;
      while rest != map[]
        invariant sum + SumOn(rest, currentDevice) == SumOn(allocations, currentDevice)
        decreases rest
      {
        var token :| token in rest;
        SumRemove(rest, token, currentDevice);
        var allocation := rest[token];
        rest := rest - {token};
        if allocation.device != currentDevice { continue; }
        if allocation.size > MAX64 - sum { return None; }
        sum := sum + allocation.size;
      }
      return Some(sum);
    }

    method ResetDevice() returns (s: Status)
      requires Valid()
      modifies this`allocations, manager
      ensures Valid() && (Now(), manager.Now(), s) == ResetOf(Store(), old(Now()), old(manager.Now()))
    {
      var total := TotalOnCurrent();
      if total.None? { return Unknown; }
      if total.value != 0 {
        var released := manager.ReleaseMemory(Itoa(currentDevice), total.value);
        if released.Err? { return Unknown; }
      }
      DropCurrent();
      return Success;
    }

    method DropCurrent()
      modifies this`allocations
      ensures allocations == old(allocations) - TokensOn(old(allocations), currentDevice)
    {
      var rest := allocations;
      ghost var before := allocations;
      while rest != map[]
        invariant forall t :: t in rest ==> t in before && rest[t] == before[t]
        invariant allocations == map t | t in before && (before[t].device != currentDevice || t in rest) :: before[t]
        decreases rest
      {
        var token :| token in rest;
        if rest[token].device == currentDevice { allocations := allocations - {token}; }
        rest := rest - {token};
      }
    }
  }
}
