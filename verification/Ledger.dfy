/** What the engine promises over whole runs, against either backend. */
module Ledger {
  import opened Accounting
  import opened Operations
  import opened Control
  import opened Engine
  import opened Text

  // ---------- refusals change nothing ----------

  lemma RefusedReserve(b: Backend, w: World, device: int, n: u64)
    requires Serves(b, w.devices)
    ensures var (w', grant) := Reserving(b, w, device, n); !grant.Granted? ==> w'.devices == w.devices
  {
    if b.Shared? { PerformedIsAtomic(b.names, w, Itoa(device), Reserve(n)); }
  }

  lemma RefusedReturn(b: Backend, w: World, device: int, n: u64)
    requires Serves(b, w.devices)
    ensures var (w', ok) := Returning(b, w, device, n); !ok ==> w'.devices == w.devices
  {
    if b.Shared? { PerformedIsAtomic(b.names, w, Itoa(device), Release(n)); }
  }

  /** A refused allocation leaves the table, the success count and the counters as
      they were, or as others have made them meanwhile. */
  lemma RefusedTrack(b: Backend, oomAfter: int, e: State, w: World, token: nat, size: u64, between: seq<Device>)
    requires Serves(b, w.devices) && |between| == |w.devices|
    ensures var (e', w', s) := Tracked(b, oomAfter, e, w, token, size, between);
            s != Success ==> e' == e && (w'.devices == w.devices || w'.devices == between)
  {
    RefusedReserve(b, AfterList(b, w).(devices := between), e.current, size);
  }

  lemma RefusedFree(b: Backend, e: State, w: World, token: nat)
    requires Serves(b, w.devices)
    ensures var (e', w', s) := Freed(b, e, w, token); s != Success ==> e' == e && w'.devices == w.devices
  {
    if token in e.allocs { RefusedReturn(b, w, e.allocs[token].device, e.allocs[token].size); }
  }

  lemma RefusedReset(b: Backend, e: State, w: World)
    requires Serves(b, w.devices)
    ensures var (e', w', s) := ResetOf(b, e, w); s != Success ==> e' == e && w'.devices == w.devices
  {
    if SumOn(e.allocs, e.current) <= MAX64 { RefusedReturn(b, w, e.current, SumOn(e.allocs, e.current)); }
  }

  // ---------- which refusal it is ----------

  ghost function UsedShown(b: Backend, d: Device): u64 { if b.Shared? then Floor(d.used) else d.used }

  ghost predicate SendFails(b: Backend, w: World) { b.Shared? && Next(Rest(w.script)).WriteFails? }

  /** A reservation, on a device that exists, is granted, refused for lack of memory,
      or broken off because upstream fails or the counter overflows. */
  lemma GrantIff(b: Backend, w: World, device: int, n: u64)
    requires Serves(b, w.devices) && 0 <= device < |w.devices|
    ensures var d, grant := w.devices[device], Reserving(b, w, device, n).1;
            && (grant.Insufficient? <==> Lists(b, w) && n > FreeShown(b, d))
            && (grant.Broken? <==>
                  !Lists(b, w) || (n <= FreeShown(b, d) && (UsedShown(b, d) + n > MAX64 || SendFails(b, w))))
  {
    if b.Shared? { PerformedIsAtomic(b.names, w, Itoa(device), Reserve(n)); }
  }

  /** What an allocation answers, for any input and any failures: whether its token
      and size are good, its budget is left, its device is there and the memory is
      enough, at the first look and when it is reserved, comes in this order. */
  lemma TrackStatusIff(b: Backend, oomAfter: int, e: State, w: World, token: nat, size: u64, between: seq<Device>)
    requires Serves(b, w.devices) && |between| == |w.devices|
    ensures var s, w1 := Tracked(b, oomAfter, e, w, token, size, between).2, AfterList(b, w).(devices := between);
            var good, spent := token != 0 && size != 0 && token !in e.allocs, 0 <= oomAfter <= e.successes;
            var there := 0 <= e.current < |w.devices|;
            var short := there && size > FreeShown(b, w.devices[e.current]);
            var looks := good && !spent && Lists(b, w);
            && (s == InvalidValue <==> !good)
            && (s == InvalidDevice <==> looks && !there)
            && (s == OutOfMemoryStatus <==>
                  (good && spent)
                  || (looks && there && (short || (Lists(b, w1) && size > FreeShown(b, between[e.current])))))
            && (s == Unknown <==>
                  (good && !spent && !Lists(b, w))
                  || (looks && there && !short
                      && (!Lists(b, w1)
                          || (size <= FreeShown(b, between[e.current])
                              && (UsedShown(b, between[e.current]) + size > MAX64 || SendFails(b, w1))))))
            && s != Initialization
  {
    var w1 := AfterList(b, w).(devices := between);
    if 0 <= e.current < |w.devices| { GrantIff(b, w1, e.current, size); }
  }

  /** What a free answers. */
  lemma FreeStatusIff(b: Backend, e: State, w: World, token: nat)
    requires Serves(b, w.devices)
    ensures var s := Freed(b, e, w, token).2;
            && (s == InvalidValue <==> token != 0 && token !in e.allocs)
            && (s == Unknown <==>
                  token != 0 && token in e.allocs
                  && !Returning(b, w, e.allocs[token].device, e.allocs[token].size).1)
            && (s == Success || s == InvalidValue || s == Unknown)
  {
  }

  /** What a reset answers. */
  lemma ResetStatusIff(b: Backend, e: State, w: World)
    requires Serves(b, w.devices)
    ensures var s, total := ResetOf(b, e, w).2, SumOn(e.allocs, e.current);
            && (s == Success <==> total == 0 || (total <= MAX64 && Returning(b, w, e.current, total).1))
            && (s == Success || s == Unknown)
  {
  }

  /** Memory is taken back exactly if the device is there and the commands work, and
      it does not exceed what is in use besides the listed processes. */
  lemma ReturnIff(b: Backend, w: World, device: int, n: u64)
    requires Serves(b, w.devices)
    ensures Returning(b, w, device, n).1 <==>
              && 0 <= device < |w.devices| && Lists(b, w) && !SendFails(b, w)
              && var d := w.devices[device];
                 && n <= UsedShown(b, d) - (if b.Shared? then Owned(d.procs) else 0)
                 && FreeShown(b, d) + n <= MAX64
  {
    if b.Shared? {
      PerformedIsAtomic(b.names, w, Itoa(device), Release(n));
      if 0 <= device < |w.devices| {
        var d, works := w.devices[device], !Next(w.script).PmonFails?;
        ViewOwned(d.procs, Telemetry(d.procs, works));
      }
    }
  }

  // ---------- the injected out-of-memory budget ----------

  datatype Call =
    | Track(token: nat, size: u64, between: seq<Device>)
    | Free(token: nat)
    | Reset
    | Select(device: int)

  /** One call of an engine.  Other processes may have changed the devices since
      the call before, so each call finds its own world. */
  datatype Turn = Turn(call: Call, w: World)

  ghost predicate Playable(b: Backend, t: Turn) {
    Serves(b, t.w.devices) && (t.call.Track? ==> |t.call.between| == |t.w.devices|)
  }

  ghost function After(b: Backend, oomAfter: int, e: State, t: Turn): (State, Status)
    requires Playable(b, t)
  {
    match t.call
    case Track(token, size, between) =>
      var (e', _, s) := Tracked(b, oomAfter, e, t.w, token, size, between); (e', s)
    case Free(token) => var (e', _, s) := Freed(b, e, t.w, token); (e', s)
    case Reset => var (e', _, s) := ResetOf(b, e, t.w); (e', s)
    case Select(device) =>
      if !Lists(b, t.w) then (e, Unknown)
      else if 0 <= device < |t.w.devices| then (e.(current := device), Success)
      else (e, InvalidDevice)
  }

  /** How many allocations succeed over a run. */
  ghost function GrantedIn(b: Backend, oomAfter: int, e: State, turns: seq<Turn>): nat
    requires forall i :: 0 <= i < |turns| ==> Playable(b, turns[i])
    decreases |turns|
  {
    if turns == [] then 0
    else
      var (e', s) := After(b, oomAfter, e, turns[0]);
      (if turns[0].call.Track? && s.Success? then 1 else 0) + GrantedIn(b, oomAfter, e', turns[1..])
  }

  /** With a budget of N, no run of calls, whatever it frees or resets and
      whatever others do in between, sees more than N allocations succeed. */
  lemma {:induction false} BudgetHolds(b: Backend, oomAfter: int, e: State, turns: seq<Turn>)
    requires forall i :: 0 <= i < |turns| ==> Playable(b, turns[i])
    requires 0 <= e.successes <= oomAfter
    ensures GrantedIn(b, oomAfter, e, turns) <= oomAfter - e.successes
    decreases |turns|
  {
    if turns != [] {
      var (e', s) := After(b, oomAfter, e, turns[0]);
      BudgetStep(b, oomAfter, e, turns[0]);
      BudgetHolds(b, oomAfter, e', turns[1..]);
    }
  }

  lemma BudgetStep(b: Backend, oomAfter: int, e: State, t: Turn)
    requires Playable(b, t) && 0 <= e.successes <= oomAfter
    ensures var (e', s) := After(b, oomAfter, e, t);
            && e'.successes == e.successes + (if t.call.Track? && s.Success? then 1 else 0)
            && e'.successes <= oomAfter
  {
  }

  // ---------- one engine against the counters ----------

  /** The unit in which a backend is exact. */
  function Grain(b: Backend): nat { if b.Shared? then MIB else 1 }

  ghost predicate Sound(b: Backend, d: Device) {
    if b.Shared? then WellFormed(d) && Aligned(d) else Pool(d) <= MAX64
  }

  /** What a backend lets go on a device. */
  ghost function Releasable(b: Backend, d: Device): int { if b.Shared? then NonProcess(d) else d.used }

  ghost predicate SoundAt(b: Backend, e: State, devices: seq<Device>, i: nat)
    requires i < |devices|
  {
    Sound(b, devices[i]) && SumOn(e.allocs, i) <= Releasable(b, devices[i])
  }

  /** Every allocation is in the backend's units and covered on its device. */
  ghost predicate Backed(b: Backend, e: State, devices: seq<Device>) {
    && Serves(b, devices)
    && (forall i :: 0 <= i < |devices| ==> SoundAt(b, e, devices, i))
    && forall t :: t in e.allocs ==> 0 <= e.allocs[t].device < |devices| && e.allocs[t].size % Grain(b) == 0
  }

  /** On a whole device a whole release is accepted exactly up to the non-process
      usage. */
  lemma WholeRelease(d: Device, n: u64, works: bool)
    requires WellFormed(d) && Aligned(d) && n % MIB == 0
    ensures Succeeds(Release(n), d, works) <==> n <= NonProcess(d)
    ensures n <= NonProcess(d) ==> Atomic(Release(n), d, works) == d.(used := d.used - n, free := d.free + n)
    ensures n <= NonProcess(d) ==> WellFormed(Atomic(Release(n), d, works)) && Aligned(Atomic(Release(n), d, works))
  {
    AlignedObserved(d, works);
    WholeSum(d.used, n);
    WholeSum(d.free, n);
  }

  lemma WholeReserve(d: Device, n: u64, works: bool)
    requires WellFormed(d) && Aligned(d) && n % MIB == 0
    ensures Succeeds(Reserve(n), d, works) <==> n <= d.free
    ensures n <= d.free ==> d.used + n <= MAX64 && Atomic(Reserve(n), d, works) == Moved(d, n)
    ensures n <= d.free ==> WellFormed(Atomic(Reserve(n), d, works)) && Aligned(Atomic(Reserve(n), d, works))
  {
    AlignedObserved(d, works);
    WholeSum(d.used, n);
    WholeSum(d.free, n);
  }

  /** Nothing goes wrong upstream. */
  ghost predicate Works(b: Backend, w: World) { b.Shared? ==> w.script == [] && AllLegible(w.devices) }

  ghost function Lowered(d: Device, n: int): Device
    requires 0 <= n <= d.used && d.free + n <= MAX64
  {
    Moved(d, -n)
  }

  /** A covered release in the backend's units goes through and moves exactly its
      amount. */
  lemma CoveredReturn(b: Backend, w: World, gpu: int, n: u64)
    requires Serves(b, w.devices) && Works(b, w) && 0 <= gpu < |w.devices|
    requires Sound(b, w.devices[gpu]) && n % Grain(b) == 0 && n <= Releasable(b, w.devices[gpu])
    ensures var d := w.devices[gpu];
            && n <= d.used && d.free + n <= MAX64
            && Returning(b, w, gpu, n) == (w.(devices := w.devices[gpu := Lowered(d, n)]), true)
            && Sound(b, Lowered(d, n)) && Releasable(b, Lowered(d, n)) == Releasable(b, d) - n
  {
    if b.Shared? {
      PerformedIsAtomic(b.names, w, Itoa(gpu), Release(n));
      WholeRelease(w.devices[gpu], n, true);
    }
  }

  lemma CoveredReserve(b: Backend, w: World, gpu: int, n: u64)
    requires Serves(b, w.devices) && Works(b, w) && 0 <= gpu < |w.devices|
    requires Sound(b, w.devices[gpu]) && n % Grain(b) == 0
    ensures var d := w.devices[gpu];
            && (Reserving(b, w, gpu, n).1.Granted? <==> n <= d.free) && FreeShown(b, d) == d.free
            && (n <= d.free ==> d.used + n <= MAX64)
            && (n <= d.free ==> Reserving(b, w, gpu, n) == (w.(devices := w.devices[gpu := Moved(d, n)]), Granted))
            && (n <= d.free ==> Sound(b, Moved(d, n)) && Releasable(b, Moved(d, n)) == Releasable(b, d) + n)
  {
    if b.Shared? {
      PerformedIsAtomic(b.names, w, Itoa(gpu), Reserve(n));
      WholeReserve(w.devices[gpu], n, true);
      FloorExact(w.devices[gpu].free);
    }
  }

  /** Only counters changed, so what could be read still can. */
  lemma StillWorks(b: Backend, w: World, gpu: nat, d: Device)
    requires Works(b, w) && gpu < |w.devices| && d.procs == w.devices[gpu].procs
    ensures Works(b, w.(devices := w.devices[gpu := d]))
  {
    if b.Shared? { assert Legible(w.devices[gpu]); }
  }

  lemma BackedMove(b: Backend, e: State, e': State, devices: seq<Device>, gpu: nat, d: Device, delta: int)
    requires Backed(b, e, devices) && gpu < |devices| && Sound(b, d)
    requires Releasable(b, d) == Releasable(b, devices[gpu]) + delta
    requires forall i :: 0 <= i < |devices| ==>
             SumOn(e'.allocs, i) == SumOn(e.allocs, i) + if i == gpu then delta else 0
    requires forall t :: t in e'.allocs ==> 0 <= e'.allocs[t].device < |devices| && e'.allocs[t].size % Grain(b) == 0
    ensures Backed(b, e', devices[gpu := d])
  {
    var moved := devices[gpu := d];
    forall i | 0 <= i < |devices| ensures SoundAt(b, e', moved, i) {
      assert SoundAt(b, e, devices, i);
    }
  }

  /** Freeing a live token never fails, and the table stays backed. */
  lemma LiveTokenFrees(b: Backend, e: State, w: World, token: nat)
    requires Backed(b, e, w.devices) && Works(b, w) && token != 0 && token in e.allocs
    ensures var (e', w', s) := Freed(b, e, w, token);
            var a := e.allocs[token];
            && s == Success && e' == e.(allocs := e.allocs - {token})
            && a.size <= w.devices[a.device].used && w.devices[a.device].free + a.size <= MAX64
            && w' == w.(devices := w.devices[a.device := Lowered(w.devices[a.device], a.size)])
            && Works(b, w') && Backed(b, e', w'.devices)
  {
    var a := e.allocs[token];
    assert SoundAt(b, e, w.devices, a.device);
    SumRemove(e.allocs, token, a.device);
    CoveredReturn(b, w, a.device, a.size);
    var d := Lowered(w.devices[a.device], a.size);
    StillWorks(b, w, a.device, d);
    var e' := e.(allocs := e.allocs - {token});
    forall i | 0 <= i < |w.devices|
      ensures SumOn(e'.allocs, i) == SumOn(e.allocs, i) + if i == a.device then -(a.size as int) else 0
    {
      SumRemove(e.allocs, token, i);
    }
    BackedMove(b, e, e', w.devices, a.device, d, -(a.size as int));
  }

  /** When an allocation goes through: a new non-null token, a non-zero size, budget
      left, a device that exists, and enough free memory. */
  ghost predicate Allocatable(oomAfter: int, e: State, devices: seq<Device>, token: nat, size: u64) {
    && token != 0 && size != 0 && token !in e.allocs && !Injected(oomAfter, e)
    && 0 <= e.current < |devices| && size <= devices[e.current].free
  }

  /** With nothing going wrong upstream an allocation in the backend's units
      succeeds exactly then; it moves exactly its size from free to used and keeps
      the table backed. */
  lemma TrackReserves(b: Backend, oomAfter: int, e: State, w: World, token: nat, size: u64)
    requires Backed(b, e, w.devices) && Works(b, w) && size % Grain(b) == 0
    ensures var (e', w', s) := Tracked(b, oomAfter, e, w, token, size, w.devices);
            && (s == Success <==> Allocatable(oomAfter, e, w.devices, token, size))
            && (s == Success ==>
                  var d := w.devices[e.current];
                  && e' == State(e.current, e.allocs[token := Allocation(size, e.current)], e.successes + 1)
                  && d.used + size <= MAX64 && w' == w.(devices := w.devices[e.current := Moved(d, size)])
                  && Works(b, w') && Backed(b, e', w'.devices))
  {
    if 0 <= e.current < |w.devices| {
      var d := w.devices[e.current];
      assert SoundAt(b, e, w.devices, e.current);
      assert AfterList(b, w).(devices := w.devices) == w;
      CoveredReserve(b, w, e.current, size);
      if Allocatable(oomAfter, e, w.devices, token, size) {
        StillWorks(b, w, e.current, Moved(d, size));
        TrackedBacked(b, e, w.devices, token, size);
      }
    }
  }

  /** With nothing going wrong upstream, in the backend's units: a bad token or size,
      a used-up budget, a missing device and missing memory each have their answer,
      tried in this order, and there is no other refusal. */
  lemma TrackAnswers(b: Backend, oomAfter: int, e: State, w: World, token: nat, size: u64)
    requires Backed(b, e, w.devices) && Works(b, w) && size % Grain(b) == 0
    ensures Tracked(b, oomAfter, e, w, token, size, w.devices).2
         == if token == 0 || size == 0 || token in e.allocs then InvalidValue
            else if 0 <= oomAfter <= e.successes then OutOfMemoryStatus
            else if e.current < 0 || e.current >= |w.devices| then InvalidDevice
            else if size > w.devices[e.current].free then OutOfMemoryStatus
            else Success
  {
    TrackReserves(b, oomAfter, e, w, token, size);
    TrackStatusIff(b, oomAfter, e, w, token, size, w.devices);
    if 0 <= e.current < |w.devices| {
      assert SoundAt(b, e, w.devices, e.current);
      CoveredReserve(b, w, e.current, size);
    }
  }

  lemma TrackedBacked(b: Backend, e: State, devices: seq<Device>, token: nat, size: u64)
    requires Backed(b, e, devices) && size % Grain(b) == 0 && token !in e.allocs
    requires 0 <= e.current < |devices| && size <= devices[e.current].free && devices[e.current].used + size <= MAX64
    requires var d := Moved(devices[e.current], size);
             Sound(b, d) && Releasable(b, d) == Releasable(b, devices[e.current]) + size
    ensures Backed(b, State(e.current, e.allocs[token := Allocation(size, e.current)], e.successes + 1),
                   devices[e.current := Moved(devices[e.current], size)])
  {
    var e' := State(e.current, e.allocs[token := Allocation(size, e.current)], e.successes + 1);
    forall i | 0 <= i < |devices|
      ensures SumOn(e'.allocs, i) == SumOn(e.allocs, i) + if i == e.current then size else 0
    {
      SumAdd(e.allocs, token, Allocation(size, e.current), i);
    }
    BackedMove(b, e, e', devices, e.current, Moved(devices[e.current], size), size);
  }

  /** Allocating and freeing again is the identity on the table and on all
      counters; only the budget remembers it. */
  lemma TrackThenFree(b: Backend, oomAfter: int, e: State, w: World, token: nat, size: u64)
    requires Backed(b, e, w.devices) && Works(b, w) && size % Grain(b) == 0
    requires Allocatable(oomAfter, e, w.devices, token, size)
    ensures var (e1, w1, s1) := Tracked(b, oomAfter, e, w, token, size, w.devices);
            var (e2, w2, s2) := Freed(b, e1, w1, token);
            s1 == Success && s2 == Success && e2 == e.(successes := e.successes + 1) && w2 == w
  {
    TrackReserves(b, oomAfter, e, w, token, size);
    var (e1, w1, s1) := Tracked(b, oomAfter, e, w, token, size, w.devices);
    LiveTokenFrees(b, e1, w1, token);
    assert e1.allocs - {token} == e.allocs;
    var d := w.devices[e.current];
    assert Lowered(Moved(d, size), size) == d;
    assert w1.devices[e.current := d] == w.devices;
  }

  // ---------- reset against freeing one by one ----------

  ghost function FreeAll(b: Backend, e: State, w: World, tokens: seq<nat>): (r: (State, World))
    requires Serves(b, w.devices)
    ensures |r.1.devices| == |w.devices|
    decreases |tokens|
  {
    if tokens == [] then (e, w)
    else
      var (e', w', _) := Freed(b, e, w, tokens[0]);
      FreeAll(b, e', w', tokens[1..])
  }

  /** `tokens` lists the current device's tokens, each once, in any order. */
  ghost predicate Enumerates(tokens: seq<nat>, e: State) {
    && (forall i, j :: 0 <= i < j < |tokens| ==> tokens[i] != tokens[j])
    && (forall t :: t in tokens <==> t in TokensOn(e.allocs, e.current))
    && 0 !in tokens
  }

  ghost predicate Emptiable(b: Backend, e: State, w: World) {
    && 0 <= e.current < |w.devices| && SumOn(e.allocs, e.current) <= w.devices[e.current].used
    && w.devices[e.current].free + SumOn(e.allocs, e.current) <= MAX64
  }

  /** Where both end up: the device's tokens gone, their total given back. */
  ghost function Emptied(b: Backend, e: State, w: World): (State, World)
    requires Emptiable(b, e, w)
  {
    (WithoutDevice(e),
     w.(devices := w.devices[e.current := Lowered(w.devices[e.current], SumOn(e.allocs, e.current))]))
  }

  lemma BackedEmptiable(b: Backend, e: State, w: World)
    requires Backed(b, e, w.devices) && 0 <= e.current < |w.devices|
    ensures Emptiable(b, e, w)
  {
    assert SoundAt(b, e, w.devices, e.current);
  }

  lemma EmptiedNothing(b: Backend, e: State, w: World)
    requires Emptiable(b, e, w) && TokensOn(e.allocs, e.current) == {}
    ensures Emptied(b, e, w) == (e, w)
  {
    assert forall t :: t in e.allocs ==> t in TokensOn(e.allocs, e.current) || e.allocs[t].device != e.current;
    SumElsewhere(e.allocs, e.current);
    assert e.allocs - {} == e.allocs;
    assert w.devices[e.current := w.devices[e.current]] == w.devices;
  }

  /** Freeing one token first makes no difference to the emptied state. */
  lemma EmptiedStep(b: Backend, e: State, w: World, token: nat)
    requires token in e.allocs && e.allocs[token].device == e.current && Emptiable(b, e, w)
    ensures e.allocs[token].size <= SumOn(e.allocs, e.current)
    ensures var e' := e.(allocs := e.allocs - {token});
            var w' := w.(devices := w.devices[e.current := Lowered(w.devices[e.current], e.allocs[token].size)]);
            Emptiable(b, e', w') && Emptied(b, e', w') == Emptied(b, e, w)
  {
    SumRemove(e.allocs, token, e.current);
    var e' := e.(allocs := e.allocs - {token});
    assert e'.allocs - TokensOn(e'.allocs, e.current) == e.allocs - TokensOn(e.allocs, e.current);
    var w' := w.(devices := w.devices[e.current := Lowered(w.devices[e.current], e.allocs[token].size)]);
    assert Emptied(b, e', w').1.devices == Emptied(b, e, w).1.devices;
  }

  /** Freeing the current device's tokens one at a time, in any order, ends in the
      emptied state. */
  lemma {:induction false} FreeAllEmpties(b: Backend, e: State, w: World, tokens: seq<nat>)
    requires Backed(b, e, w.devices) && Works(b, w) && 0 <= e.current < |w.devices| && Enumerates(tokens, e)
    ensures Emptiable(b, e, w) && FreeAll(b, e, w, tokens) == Emptied(b, e, w)
    decreases |tokens|
  {
    BackedEmptiable(b, e, w);
    if tokens == [] {
      assert TokensOn(e.allocs, e.current) == {};
      EmptiedNothing(b, e, w);
    } else {
      var t := tokens[0];
      assert t in tokens;
      LiveTokenFrees(b, e, w, t);
      var (e', w', _) := Freed(b, e, w, t);
      EmptiedStep(b, e, w, t);
      EnumeratesRest(tokens, e, e');
      FreeAllEmpties(b, e', w', tokens[1..]);
    }
  }

  lemma EnumeratesRest(tokens: seq<nat>, e: State, e': State)
    requires tokens != [] && Enumerates(tokens, e) && e' == e.(allocs := e.allocs - {tokens[0]})
    ensures Enumerates(tokens[1..], e')
  {
    var rest := tokens[1..];
    assert forall i :: 0 <= i < |rest| ==> rest[i] == tokens[i + 1];
    forall t ensures t in rest <==> t in TokensOn(e'.allocs, e'.current) {
      assert t in tokens <==> t == tokens[0] || t in rest;
      assert t in tokens <==> t in TokensOn(e.allocs, e.current);
    }
  }

  /** A reset does in one release what the frees do one by one; it cannot overflow
      and is never refused while the table is backed. */
  lemma ResetEqualsFrees(b: Backend, e: State, w: World, tokens: seq<nat>)
    requires Backed(b, e, w.devices) && Works(b, w) && 0 <= e.current < |w.devices| && Enumerates(tokens, e)
    ensures SumOn(e.allocs, e.current) <= MAX64
    ensures ResetOf(b, e, w) == (FreeAll(b, e, w, tokens).0, FreeAll(b, e, w, tokens).1, Success)
    ensures forall i :: 0 <= i < |w.devices| && i != e.current ==> ResetOf(b, e, w).1.devices[i] == w.devices[i]
  {
    FreeAllEmpties(b, e, w, tokens);
    ResetEmpties(b, e, w);
  }

  lemma ResetEmpties(b: Backend, e: State, w: World)
    requires Backed(b, e, w.devices) && Works(b, w) && Emptiable(b, e, w)
    ensures SumOn(e.allocs, e.current) <= MAX64
    ensures var (e', w') := Emptied(b, e, w); ResetOf(b, e, w) == (e', w', Success)
  {
    var total, d := SumOn(e.allocs, e.current), w.devices[e.current];
    assert SoundAt(b, e, w.devices, e.current);
    assert total % Grain(b) == 0 by { SumWhole(b, e.allocs, e.current); }
    CoveredReturn(b, w, e.current, total);
    if total == 0 { assert w.devices[e.current := Lowered(d, 0)] == w.devices; }
  }

  lemma {:induction false} SumWhole<K>(b: Backend, m: map<K, Allocation>, device: int)
    requires forall k :: k in m ==> m[k].size % Grain(b) == 0
    ensures SumOn(m, device) % Grain(b) == 0
    decreases m
  {
    if b.Shared? && m != map[] {
      var k :| k in m;
      SumRemove(m, k, device);
      SumWhole(b, m - {k}, device);
      WholeSum(On(m[k], device), SumOn(m - {k}, device));
    }
  }
}
