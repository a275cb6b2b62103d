/** One native call of the CUDA bridge from start to end, with the engine under
    it.  `Bridge` has the same calls cut into steps and interleaved. */
module NativeBridge {
  import opened Accounting
  import opened Operations
  import opened Control
  import opened Engine
  import opened Ledger

  class CudaBridge {
    const engine: Engine
    var live: set<nat>

    /** Every tracked token is an address malloc handed out. */
    ghost predicate Valid()
      reads this, engine, engine.manager
    {
      engine.Valid() && engine.allocations.Keys <= live && 0 !in live
    }

    constructor (engine: Engine)
      requires engine.Valid() && engine.allocations == map[]
      ensures Valid() && this.engine == engine && live == {}
    {
      this.engine, live := engine, {};
    }

    /** `cuMemAlloc`/`cudaMalloc`: `address` is what malloc returns, if anything,
        and `between` what other processes do to the devices meanwhile.  Success
        hands out a live, tracked token of the requested size; any failure leaves
        tokens and table as they were, and changes no counter itself. */
    method MemAlloc(bytes: u64, address: Option<nat>, between: seq<Device>) returns (s: Status, out: nat)
      requires Valid() && |between| == |engine.manager.devices|
      requires address.Some? ==> address.value != 0 && address.value !in live
      modifies this, engine, engine.manager
      ensures Valid()
      ensures s == Success ==>
                && address == Some(out) && out !in old(engine.allocations) && live == old(live) + {out}
                && engine.allocations == old(engine.allocations)[out := Allocation(bytes, engine.currentDevice)]
      ensures s != Success ==>
                && live == old(live) && engine.Now() == old(engine.Now())
                && (engine.manager.devices == old(engine.manager.devices) || engine.manager.devices == between)
      ensures s == InvalidValue <==> bytes == 0
      ensures bytes != 0 && address.None? ==> s == OutOfMemoryStatus
      ensures bytes != 0 && address.Some? ==>
                s == Tracked(engine.Store(), engine.oomAfter, old(engine.Now()), old(engine.manager.Now()),
                             address.value, bytes, between).2
    {
      out := 0;
      if bytes == 0 { return InvalidValue, 0; }
      if address.None? { return OutOfMemoryStatus, 0; }
      var token := address.value;
      live := live + {token};
      RefusedTrack(engine.Store(), engine.oomAfter, engine.Now(), engine.manager.Now(), token, bytes, between);
      TrackStatusIff(engine.Store(), engine.oomAfter, engine.Now(), engine.manager.Now(), token, bytes, between);
      s := engine.TrackAllocation(token, bytes, between);
      if s != Success {
        live := live - {token};
        return s, 0;
      }
      return Success, token;
    }

    /** `cuMemFree`/`cudaFree` of any pointer: the native token goes exactly when
        the engine let go of it. */
    method MemFree(pointer: nat) returns (s: Status)
      requires Valid()
      modifies this, engine`allocations, engine.manager
      ensures Valid()
      ensures pointer == 0 ==> s == Success
      ensures s == Success && pointer != 0 ==>
                && pointer in old(engine.allocations) && live == old(live) - {pointer}
                && engine.allocations == old(engine.allocations) - {pointer}
      ensures s != Success || pointer == 0 ==>
                live == old(live) && engine.Now() == old(engine.Now())
                    && engine.manager.devices == old(engine.manager.devices)
      ensures s == InvalidValue <==> pointer != 0 && pointer !in old(engine.allocations)
      ensures s == Freed(engine.Store(), old(engine.Now()), old(engine.manager.Now()), pointer).2
    {
      FreeStatusIff(engine.Store(), engine.Now(), engine.manager.Now(), pointer);
      if pointer == 0 { return Success; }
      RefusedFree(engine.Store(), engine.Now(), engine.manager.Now(), pointer);
      s := engine.FreeAllocation(pointer);
      if s == Success { live := live - {pointer}; }
    }

    /** `cudaDeviceReset`: the tokens of the current device leave the table and
        stay allocated. */
    method DeviceReset() returns (s: Status)
      requires Valid()
      modifies engine`allocations, engine.manager
      ensures Valid()
      ensures s == Success ==>
                engine.allocations == old(engine.allocations) - TokensOn(old(engine.allocations), engine.currentDevice)
      ensures s != Success ==>
                engine.Now() == old(engine.Now()) && engine.manager.devices == old(engine.manager.devices)
      ensures s == ResetOf(engine.Store(), old(engine.Now()), old(engine.manager.Now())).2
    {
      RefusedReset(engine.Store(), engine.Now(), engine.manager.Now());
      s := engine.ResetDevice();
    }
  }
}
