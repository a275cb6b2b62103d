/** Any number of CUDA processes and other clients on the shared GPUs: how the
    engines' tables and the clients' balances add up to the counters, over whole
    runs of the lock protocol. */
module Fleet {
  import opened Accounting
  import opened Text
  import opened Operations
  import opened Control
  import opened History
  import opened Protocol
  import opened Engine
  import opened Ledger

  /** The running balance of a client that reserves and releases through the
      manager, on one GPU. */
  datatype Holder = Holder(client: Actor, gpu: Gpu)

  datatype Accounts = Accounts(engines: map<Actor, State>, balances: map<Holder, Allocation>)

  // ---------- who may do what ----------

  /** The calls of an engine that change a device when they succeed. */
  datatype EngineCall =
    | Allocates(oomAfter: int, w: World, token: nat, size: u64)
    | Frees(token: nat, script: seq<Fault>)
    | Resets(script: seq<Fault>)

  /** The call succeeds on the devices as they are when it commits, and takes
      engine and devices from one state to the next.  (An allocation has looked at
      the devices before, in the world `w`.) */
  ghost predicate Does(names: seq<Name>, call: EngineCall, e: State, e': State, devs: seq<Device>, devs': seq<Device>)
    requires |names| == |devs| && Indexed(names)
  {
    match call
    case Allocates(oomAfter, w, token, size) =>
      && |w.devices| == |devs| && size % MIB == 0
      && var (e1, w1, s) := Tracked(Shared(names), oomAfter, e, w, token, size, devs);
         s == Success && e1 == e' && w1.devices == devs'
    case Frees(token, script) =>
      && token != 0
      && var (e1, w1, s) := Freed(Shared(names), e, World(devs, script), token);
         s == Success && e1 == e' && w1.devices == devs'
    case Resets(script) =>
      var (e1, w1, s) := ResetOf(Shared(names), e, World(devs, script));
      s == Success && e1 == e' && w1.devices == devs'
  }

  function HeldBy(balances: map<Holder, Allocation>, h: Holder): u64 {
    if h in balances then balances[h].size else 0
  }

  /** Other clients release no more than they have reserved, edit process records
      as they like, and leave `SetUsedMemory` alone. */
  ghost predicate ClientDoes(balances: map<Holder, Allocation>, balances': map<Holder, Allocation>, h: Holder, op: Op) {
    match op
    case Reserve(n) =>
      && n % MIB == 0 && HeldBy(balances, h) + n <= MAX64
      && balances' == balances[h := Allocation(HeldBy(balances, h) + n, h.gpu)]
    case Release(n) =>
      && n % MIB == 0 && n <= HeldBy(balances, h)
      && balances' == balances[h := Allocation(HeldBy(balances, h) - n, h.gpu)]
    case Edit(_, _) => balances' == balances
    case Replace(ps) => Distinct(ps) && balances' == balances
    case SetUsed(_) => false
  }

  /** Without a commit tables do not change; engines may start, empty, and select
      devices. */
  ghost predicate SameTables(engines: map<Actor, State>, engines': map<Actor, State>) {
    && engines.Keys <= engines'.Keys
    && forall a :: a in engines' ==> engines'[a].allocs == if a in engines then engines[a].allocs else map[]
  }

  ghost predicate AccountStep(names: seq<Name>, devs: seq<Device>, acc: Accounts, devs': seq<Device>, acc': Accounts,
                              e: Event)
    requires |names| == |devs| && Indexed(names)
  {
    match e
    case Quiet => acc'.balances == acc.balances && SameTables(acc.engines, acc'.engines)
    case Committed(a, g, op, _) =>
      if a in acc.engines then
        && acc'.balances == acc.balances && a in acc'.engines
        && acc'.engines == acc.engines[a := acc'.engines[a]]
        && exists call :: Does(names, call, acc.engines[a], acc'.engines[a], devs, devs')
      else acc'.engines == acc.engines && ClientDoes(acc.balances, acc'.balances, Holder(a, g), op)
    case Overwritten(_, _) => false
  }

  /** A trace of the shared devices with the accounts of all who act on them. */
  datatype FleetTrace = FleetTrace(names: seq<Name>, t: Trace, accounts: seq<Accounts>) {
    ghost predicate Valid() {
      && t.Valid() && |accounts| == |t.devs| && Indexed(names)
      && (forall i :: 0 <= i < |t.devs| ==> |t.devs[i]| == |names|)
      && forall i :: 0 <= i < |t.events| ==> KeepsAccounts(i)
    }

    ghost predicate KeepsAccounts(i: nat)
      requires i < |t.events| && |accounts| == |t.devs| == |t.events| + 1 && Indexed(names) && |t.devs[i]| == |names|
    {
      AccountStep(names, t.devs[i], accounts[i], t.devs[i + 1], accounts[i + 1], t.events[i])
    }
  }

  // ---------- what is outstanding ----------

  /** Bytes all engines hold on one device. */
  ghost function EnginesOn(engines: map<Actor, State>, device: int): nat {
    if engines == map[] then 0
    else var a :| a in engines; SumOn(engines[a].allocs, device) + EnginesOn(engines - {a}, device)
  }

  lemma {:induction false} EnginesRemove(engines: map<Actor, State>, a: Actor, device: int)
    requires a in engines
    ensures EnginesOn(engines, device) == SumOn(engines[a].allocs, device) + EnginesOn(engines - {a}, device)
    decreases engines
  {
    var c :| c in engines
          && EnginesOn(engines, device) == SumOn(engines[c].allocs, device) + EnginesOn(engines - {c}, device);
    if c != a {
      EnginesRemove(engines - {c}, a, device);
      assert engines - {c} - {a} == engines - {a} - {c};
      EnginesRemove(engines - {a}, c, device);
    }
  }

  lemma EnginesChange(engines: map<Actor, State>, a: Actor, e: State, device: int)
    requires a in engines
    ensures EnginesOn(engines[a := e], device)
         == EnginesOn(engines, device) - SumOn(engines[a].allocs, device) + SumOn(e.allocs, device)
  {
    EnginesRemove(engines, a, device);
    EnginesRemove(engines[a := e], a, device);
    assert engines[a := e] - {a} == engines - {a};
  }

  lemma {:induction false} EnginesSame(engines: map<Actor, State>, engines': map<Actor, State>, device: int)
    requires SameTables(engines, engines')
    ensures EnginesOn(engines', device) == EnginesOn(engines, device)
    decreases engines'
  {
    if engines' != map[] {
      var a :| a in engines';
      EnginesRemove(engines', a, device);
      if a in engines {
        EnginesRemove(engines, a, device);
        EnginesSame(engines - {a}, engines' - {a}, device);
      } else {
        EnginesSame(engines, engines' - {a}, device);
      }
    }
  }

  lemma SumChange<K>(m: map<K, Allocation>, k: K, a: Allocation, device: int)
    ensures SumOn(m[k := a], device) == SumOn(m - {k}, device) + On(a, device)
    ensures SumOn(m, device) == SumOn(m - {k}, device) + if k in m then On(m[k], device) else 0
  {
    SumRemove(m[k := a], k, device);
    assert m[k := a] - {k} == m - {k};
    if k in m { SumRemove(m, k, device); } else { assert m - {k} == m; }
  }

  lemma {:induction false} SumWithout(m: map<nat, Allocation>, gone: int, device: int)
    ensures SumOn(m - TokensOn(m, gone), device) == if device == gone then 0 else SumOn(m, device)
    decreases m
  {
    if m == map[] {
      assert m - TokensOn(m, gone) == m;
    } else {
      var k :| k in m;
      var rest, kept := m - {k}, m - TokensOn(m, gone);
      SumRemove(m, k, device);
      SumWithout(rest, gone, device);
      if m[k].device == gone {
        assert rest - TokensOn(rest, gone) == kept;
      } else {
        SumRemove(kept, k, device);
        assert rest - TokensOn(rest, gone) == kept - {k};
      }
    }
  }

  ghost function Outstanding(acc: Accounts, device: int): nat {
    EnginesOn(acc.engines, device) + SumOn(acc.balances, device)
  }

  // ---------- the books ----------

  ghost predicate Good(d: Device) { WellFormed(d) && Aligned(d) }

  ghost predicate InBalance(devs: seq<Device>, acc: Accounts, base: seq<nat>, i: nat)
    requires i < |devs| == |base|
  {
    Good(devs[i]) && NonProcess(devs[i]) == base[i] + Outstanding(acc, i)
  }

  ghost predicate WholeTable(e: State, count: nat) {
    forall t :: t in e.allocs ==> t != 0 && 0 <= e.allocs[t].device < count && e.allocs[t].size % MIB == 0
  }

  ghost predicate WholeBalances(balances: map<Holder, Allocation>) {
    forall h :: h in balances ==> balances[h].device == h.gpu && balances[h].size % MIB == 0
  }

  /** Non-process usage on each device is its base plus what is outstanding. */
  ghost predicate Balanced(devs: seq<Device>, acc: Accounts, base: seq<nat>) {
    && |base| == |devs| && (forall i :: 0 <= i < |devs| ==> InBalance(devs, acc, base, i))
    && (forall a :: a in acc.engines ==> WholeTable(acc.engines[a], |devs|))
    && WholeBalances(acc.balances)
  }

  /** Device `g` changes by `delta` in non-process usage, and no other. */
  ghost predicate Shifts(devs: seq<Device>, devs': seq<Device>, g: int, delta: int) {
    && |devs'| == |devs|
    && forall i :: 0 <= i < |devs| ==> ShiftsAt(devs[i], devs'[i], if i == g then delta else 0)
  }

  ghost predicate ShiftsAt(d: Device, d': Device, delta: int) {
    Good(d) ==> Good(d') && NonProcess(d') == NonProcess(d) + delta
  }

  ghost predicate TableShifts(e: State, e': State, g: int, delta: int) {
    forall i: int :: SumOn(e'.allocs, i) == SumOn(e.allocs, i) + if i == g then delta else 0
  }

  lemma ReserveShifts(d: Device, n: u64, works: bool)
    requires Succeeds(Reserve(n), d, works) && n % MIB == 0
    ensures ShiftsAt(d, Atomic(Reserve(n), d, works), n)
  {
    if Good(d) { WholeReserve(d, n, works); }
  }

  lemma ReleaseShifts(d: Device, n: u64, works: bool)
    requires Succeeds(Release(n), d, works) && n % MIB == 0
    ensures ShiftsAt(d, Atomic(Release(n), d, works), 0 - n)
  {
    if Good(d) { WholeRelease(d, n, works); }
  }

  lemma EditShifts(d: Device, op: Op, works: bool)
    requires Succeeds(op, d, works) && (op.Edit? || op.Replace?) && Checked(op)
    ensures ShiftsAt(d, Atomic(op, d, works), 0)
  {
    if Good(d) {
      AtomicKeeps(op, d, works);
      AtomicExact(op, d, works);
    }
  }

  /** A manager call that succeeds shifts the device its target names. */
  lemma PerformedShifts(names: seq<Name>, w: World, device: int, op: Op, delta: int)
    requires |names| == |w.devices| && Indexed(names) && Whole(op)
    requires (op.Reserve? && delta == op.delta) || (op.Release? && delta == 0 - op.delta)
    ensures var (w', ok) := Performed(names, w, Itoa(device), op);
            ok ==> 0 <= device < |w.devices| && Shifts(w.devices, w'.devices, device, delta)
  {
    var (w', ok) := Performed(names, w, Itoa(device), op);
    PerformedIsAtomic(names, w, Itoa(device), op);
    if ok {
      var works := !Next(w.script).PmonFails?;
      if op.Reserve? { ReserveShifts(w.devices[device], op.delta, works); }
      else { ReleaseShifts(w.devices[device], op.delta, works); }
    }
  }

  /** Every successful engine call moves its table and the counters together. */
  lemma CallShifts(names: seq<Name>, call: EngineCall, e: State, e': State, devs: seq<Device>, devs': seq<Device>)
    returns (g: int, delta: int)
    requires |names| == |devs| && Indexed(names) && Does(names, call, e, e', devs, devs') && WholeTable(e, |devs|)
    ensures Shifts(devs, devs', g, delta) && TableShifts(e, e', g, delta) && WholeTable(e', |devs|)
  {
    match call
    case Allocates(oomAfter, w, token, size) =>
      g, delta := e.current, size;
      PerformedShifts(names, AfterList(Shared(names), w).(devices := devs), g, Reserve(size), delta);
      forall i: int ensures SumOn(e'.allocs, i) == SumOn(e.allocs, i) + if i == g then delta else 0 {
        SumAdd(e.allocs, token, Allocation(size, g), i);
      }
    case Frees(token, script) =>
      g, delta := e.allocs[token].device, 0 - e.allocs[token].size;
      PerformedShifts(names, World(devs, script), g, Release(e.allocs[token].size), delta);
      forall i: int ensures SumOn(e'.allocs, i) == SumOn(e.allocs, i) + if i == g then delta else 0 {
        SumRemove(e.allocs, token, i);
      }
    case Resets(script) =>
      g, delta := e.current, 0 - SumOn(e.allocs, e.current);
      SumWhole(Shared(names), e.allocs, g);
      if delta != 0 { PerformedShifts(names, World(devs, script), g, Release(SumOn(e.allocs, g)), delta); }
      forall i: int ensures SumOn(e'.allocs, i) == SumOn(e.allocs, i) + if i == g then delta else 0 {
        SumWithout(e.allocs, g, i);
      }
  }

  lemma EngineKeepsBooks(devs: seq<Device>, acc: Accounts, devs': seq<Device>, acc': Accounts, a: Actor, base: seq<nat>,
                         g: int, delta: int)
    requires Balanced(devs, acc, base) && a in acc.engines && a in acc'.engines && acc'.balances == acc.balances
    requires acc'.engines == acc.engines[a := acc'.engines[a]] && WholeTable(acc'.engines[a], |devs|)
    requires Shifts(devs, devs', g, delta) && TableShifts(acc.engines[a], acc'.engines[a], g, delta)
    ensures Balanced(devs', acc', base)
  {
    forall i | 0 <= i < |devs| ensures InBalance(devs', acc', base, i) {
      assert InBalance(devs, acc, base, i) && ShiftsAt(devs[i], devs'[i], if i == g then delta else 0);
      EnginesChange(acc.engines, a, acc'.engines[a], i);
    }
  }

  lemma ClientShifts(balances: map<Holder, Allocation>, balances': map<Holder, Allocation>, h: Holder, op: Op,
                     d: Device, works: bool)
    returns (delta: int)
    requires ClientDoes(balances, balances', h, op) && Succeeds(op, d, works) && WholeBalances(balances)
    ensures ShiftsAt(d, Atomic(op, d, works), delta) && WholeBalances(balances')
    ensures forall i: int :: SumOn(balances', i) == SumOn(balances, i) + if i == h.gpu then delta else 0
  {
    delta := if op.Reserve? then op.delta else if op.Release? then 0 - op.delta else 0;
    match op {
      case Reserve(n) => ReserveShifts(d, n, works); WholeSum(HeldBy(balances, h), n);
      case Release(n) => ReleaseShifts(d, n, works); WholeSum(HeldBy(balances, h), n);
      case _ => EditShifts(d, op, works);
    }
    if op.Reserve? || op.Release? {
      forall i: int ensures SumOn(balances', i) == SumOn(balances, i) + if i == h.gpu then delta else 0 {
        BalanceSum(balances, h, balances'[h].size, i);
      }
    }
  }

  lemma BalanceSum(balances: map<Holder, Allocation>, h: Holder, size: u64, i: int)
    requires WholeBalances(balances)
    ensures SumOn(balances[h := Allocation(size, h.gpu)], i)
         == SumOn(balances, i) + if i == h.gpu then size - HeldBy(balances, h) else 0
  {
    SumChange(balances, h, Allocation(size, h.gpu), i);
    assert h in balances ==> balances[h].device == h.gpu;
  }

  lemma ClientKeepsBooks(devs: seq<Device>, acc: Accounts, devs': seq<Device>, acc': Accounts, e: Event, base: seq<nat>)
    requires Balanced(devs, acc, base) && AtomicStep(devs, devs', e) && e.Committed? && acc'.engines == acc.engines
    requires ClientDoes(acc.balances, acc'.balances, Holder(e.actor, e.gpu), e.op)
    ensures Balanced(devs', acc', base)
  {
    var delta := ClientShifts(acc.balances, acc'.balances, Holder(e.actor, e.gpu), e.op, devs[e.gpu], e.pmonWorks);
    forall i | 0 <= i < |devs| ensures InBalance(devs', acc', base, i) {
      assert InBalance(devs, acc, base, i);
    }
  }

  lemma StepKeepsBooks(names: seq<Name>, devs: seq<Device>, acc: Accounts, devs': seq<Device>, acc': Accounts, e: Event,
                       base: seq<nat>)
    requires |names| == |devs| && Indexed(names) && AtomicStep(devs, devs', e)
    requires AccountStep(names, devs, acc, devs', acc', e) && Balanced(devs, acc, base)
    ensures Balanced(devs', acc', base)
  {
    if e.Quiet? {
      forall i | 0 <= i < |devs| ensures InBalance(devs', acc', base, i) {
        assert InBalance(devs, acc, base, i);
        EnginesSame(acc.engines, acc'.engines, i);
      }
    } else if e.actor in acc.engines {
      var a := e.actor;
      var call :| Does(names, call, acc.engines[a], acc'.engines[a], devs, devs');
      var g, delta := CallShifts(names, call, acc.engines[a], acc'.engines[a], devs, devs');
      EngineKeepsBooks(devs, acc, devs', acc', a, base, g, delta);
    } else {
      ClientKeepsBooks(devs, acc, devs', acc', e, base);
    }
  }

  /** Over every run: non-process usage on each GPU is its base plus the live CUDA
      allocations of all engines and everybody else's outstanding reservations. */
  lemma {:induction false} BooksBalance(f: FleetTrace, base: seq<nat>, n: nat)
    requires f.Valid() && n < |f.t.devs| && Balanced(f.t.devs[0], f.accounts[0], base)
    ensures Balanced(f.t.devs[n], f.accounts[n], base)
  {
    if n > 0 {
      BooksBalance(f, base, n - 1);
      assert f.t.StepAt(n - 1) && f.KeepsAccounts(n - 1);
      StepKeepsBooks(f.names, f.t.devs[n - 1], f.accounts[n - 1], f.t.devs[n], f.accounts[n], f.t.events[n - 1], base);
    }
  }

  /** With balanced books every engine's table is backed. */
  lemma BalancedBacked(names: seq<Name>, devs: seq<Device>, acc: Accounts, base: seq<nat>, a: Actor)
    requires |names| == |devs| && Indexed(names) && Balanced(devs, acc, base) && a in acc.engines
    ensures Backed(Shared(names), acc.engines[a], devs)
  {
    forall i | 0 <= i < |devs| ensures SoundAt(Shared(names), acc.engines[a], devs, i) {
      assert InBalance(devs, acc, base, i);
      EnginesRemove(acc.engines, a, i);
    }
    assert WholeTable(acc.engines[a], |devs|);
  }

  /** The upstream commands of one manager call succeed. */
  ghost predicate UpstreamWorks(devs: seq<Device>, script: seq<Fault>) {
    !Next(script).ReadFails? && AllLegible(devs) && !Next(Rest(script)).WriteFails?
  }

  /** A covered release fails for no other reason than an upstream failure. */
  lemma CoveredReleaseIff(names: seq<Name>, w: World, gpu: int, n: u64)
    requires |names| == |w.devices| && Indexed(names) && 0 <= gpu < |w.devices| && Good(w.devices[gpu])
    requires n % MIB == 0 && n <= NonProcess(w.devices[gpu])
    ensures Performed(names, w, Itoa(gpu), Release(n)).1 <==> UpstreamWorks(w.devices, w.script)
  {
    PerformedIsAtomic(names, w, Itoa(gpu), Release(n));
    WholeRelease(w.devices[gpu], n, !Next(w.script).PmonFails?);
  }

  /** In every run of engines and disciplined clients, freeing a live token
      succeeds exactly when the upstream commands do: the releasable check never
      refuses it. */
  lemma LiveTokenAlwaysFrees(f: FleetTrace, base: seq<nat>, n: nat, a: Actor, token: nat, script: seq<Fault>)
    requires f.Valid() && n < |f.t.devs| && Balanced(f.t.devs[0], f.accounts[0], base)
    requires a in f.accounts[n].engines && token in f.accounts[n].engines[a].allocs
    ensures Freed(Shared(f.names), f.accounts[n].engines[a], World(f.t.devs[n], script), token).2 == Success
       <==> UpstreamWorks(f.t.devs[n], script)
  {
    BooksBalance(f, base, n);
    var devs, e := f.t.devs[n], f.accounts[n].engines[a];
    BalancedBacked(f.names, devs, f.accounts[n], base, a);
    var held := e.allocs[token];
    assert WholeTable(e, |devs|) && SoundAt(Shared(f.names), e, devs, held.device);
    SumRemove(e.allocs, token, held.device);
    CoveredReleaseIff(f.names, World(devs, script), held.device, held.size);
  }

  /** The same for a reset, whose sum never overflows. */
  lemma ResetAlwaysWorks(f: FleetTrace, base: seq<nat>, n: nat, a: Actor, script: seq<Fault>)
    requires f.Valid() && n < |f.t.devs| && Balanced(f.t.devs[0], f.accounts[0], base)
    requires a in f.accounts[n].engines && 0 <= f.accounts[n].engines[a].current < |f.t.devs[n]|
    ensures var e, devs := f.accounts[n].engines[a], f.t.devs[n];
            && SumOn(e.allocs, e.current) <= MAX64
            && (ResetOf(Shared(f.names), e, World(devs, script)).2 == Success
                <==> SumOn(e.allocs, e.current) == 0 || UpstreamWorks(devs, script))
  {
    BooksBalance(f, base, n);
    var devs, e := f.t.devs[n], f.accounts[n].engines[a];
    BalancedBacked(f.names, devs, f.accounts[n], base, a);
    assert SoundAt(Shared(f.names), e, devs, e.current);
    SumWhole(Shared(f.names), e.allocs, e.current);
    CoveredReleaseIff(f.names, World(devs, script), e.current, SumOn(e.allocs, e.current));
  }

  /** Nor is another client refused what it holds. */
  lemma BalanceIsReleasable(f: FleetTrace, base: seq<nat>, n: nat, h: Holder, bytes: u64, works: bool)
    requires f.Valid() && n < |f.t.devs| && Balanced(f.t.devs[0], f.accounts[0], base)
    requires h.gpu < |f.t.devs[n]| && bytes <= HeldBy(f.accounts[n].balances, h) && bytes % MIB == 0
    ensures Succeeds(Release(bytes), f.t.devs[n][h.gpu], works)
  {
    BooksBalance(f, base, n);
    var devs, balances := f.t.devs[n], f.accounts[n].balances;
    assert InBalance(devs, f.accounts[n], base, h.gpu);
    if h in balances { SumRemove(balances, h, h.gpu); }
    WholeRelease(devs[h.gpu], bytes, works);
  }

  /** The guard on a client's reservation is no restriction: with balanced books a
      balance never outgrows 64 bits. */
  lemma BalanceFits(devs: seq<Device>, acc: Accounts, base: seq<nat>, h: Holder, n: u64, works: bool)
    requires Balanced(devs, acc, base) && h.gpu < |devs| && Succeeds(Reserve(n), devs[h.gpu], works)
    ensures HeldBy(acc.balances, h) + n <= MAX64
  {
    assert InBalance(devs, acc, base, h.gpu);
    AlignedObserved(devs[h.gpu], works);
    if h in acc.balances { SumRemove(acc.balances, h, h.gpu); }
  }

  /** The same in every interleaving of the lock protocol: a stretch of a run with
      its accounts is a fleet trace, so no live token is ever refused its free. */
  lemma LiveTokenFreesInRun(r: Run, k: nat, n: nat, names: seq<Name>, accounts: seq<Accounts>, base: seq<nat>, a: Actor,
                            token: nat, script: seq<Fault>)
    requires r.Valid() && Timely(r, k, n) && KeepsAccountsIn(r, k, n, names, accounts)
    requires Balanced(r.states[k].devs, accounts[0], base)
    requires a in accounts[n - k].engines && token in accounts[n - k].engines[a].allocs
    ensures Freed(Shared(names), accounts[n - k].engines[a], World(r.states[n].devs, script), token).2 == Success
       <==> UpstreamWorks(r.states[n].devs, script)
  {
    var t := TraceOf(r, k, n);
    assert t.Valid() && t.devs[0] == r.states[k].devs && t.devs[n - k] == r.states[n].devs by {
      RunRefinesAtomic(r, k, n);
    }
    RunIsFleetTrace(r, k, n, FleetTrace(names, t, accounts));
    LiveTokenAlwaysFrees(FleetTrace(names, t, accounts), base, n - k, a, token, script);
  }

  /** From state `k` to state `n` every event is accounted for. */
  ghost predicate KeepsAccountsIn(r: Run, k: nat, n: nat, names: seq<Name>, accounts: seq<Accounts>) {
    && k <= n < |r.states| == |r.events| + 1 && |accounts| == n - k + 1 && Indexed(names)
    && (forall i :: k <= i <= n ==> |r.states[i].devs| == |names|)
    && forall i :: k <= i < n ==> AccountedAt(r, k, i, names, accounts)
  }

  ghost predicate AccountedAt(r: Run, k: nat, i: nat, names: seq<Name>, accounts: seq<Accounts>)
    requires k <= i < |r.events| && |r.states| == |r.events| + 1 && i + 1 - k < |accounts| && Indexed(names)
    requires |r.states[i].devs| == |names|
  {
    AccountStep(names, r.states[i].devs, accounts[i - k], r.states[i + 1].devs, accounts[i + 1 - k], r.events[i])
  }

  lemma RunIsFleetTrace(r: Run, k: nat, n: nat, f: FleetTrace)
    requires KeepsAccountsIn(r, k, n, f.names, f.accounts) && f.t == TraceOf(r, k, n) && f.t.Valid()
    ensures f.Valid()
  {
    forall i | 0 <= i < n - k ensures f.KeepsAccounts(i) {
      var j := k + i;
      assert AccountedAt(r, k, j, f.names, f.accounts);
    }
  }
}
