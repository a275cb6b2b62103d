/** Composing the base configuration: the initial state of the accounting. */
module Config {
  import opened Accounting
  import opened Text
  import opened Rebase
  import opened Operations
  import opened Control
  import opened Fleet

  const MAX_MIB: nat := MAX64 / MIB
  const MAX_DEVICES: nat := 8

  datatype Profile = Profile(totalMiB: u64, reservedMiB: u64, temperatureC: int)

  datatype Failure = Failure(mode: string, probability: real, afterCalls: int)

  datatype Request = Request(
    profile: string, vramMiB: u64, usedMiB: u64, gpuUtil: u32, memoryUtil: u32,
    temperatureC: Option<int>, processes: Procs, failure: Option<Failure>)

  predicate ValidFailure(f: Failure) {
    && (f.mode == "lost" || f.mode == "fallen_off_bus" || f.mode == "ecc_uncorrectable")
    && 0.0 <= f.probability <= 1.0 && f.afterCalls >= 0
  }

  function TotalMiB(p: Profile, req: Request): u64 { if req.vramMiB != 0 then req.vramMiB else p.totalMiB }

  function Temperature(p: Profile, req: Request): int {
    if req.temperatureC.Some? then req.temperatureC.value else p.temperatureC
  }

  /** Everything a request is checked for. */
  ghost predicate Acceptable(p: Profile, req: Request) {
    && TotalMiB(p, req) <= MAX_MIB && p.reservedMiB < TotalMiB(p, req)
    && req.usedMiB <= TotalMiB(p, req) - p.reservedMiB
    && req.gpuUtil <= 100 && req.memoryUtil <= 100
    && AllValid(req.processes) && OwnedMiB(req.processes) <= req.usedMiB
    && (req.failure.Some? ==> ValidFailure(req.failure.value))
    && 0 <= Temperature(p, req) <= 200
  }

  /** Accepts exactly the acceptable requests.  What it composes adds up: used,
      free and reserved make the total, the processes fit in the used part, all in
      whole MiB.  It is a well-formed accounting state exactly when the request
      lists no PID twice, which nothing here checks. */
  method ComposeDevice(p: Profile, req: Request) returns (r: Result<Device>)
    ensures r.Ok? <==> Acceptable(p, req)
    ensures r.Ok? ==>
              var d := r.value;
              && d.total == TotalMiB(p, req) * MIB && d.used == req.usedMiB * MIB && d.procs == req.processes
              && d.used + d.free + p.reservedMiB * MIB == d.total
              && Aligned(d) && (WellFormed(d) <==> Distinct(req.processes))
  {
    var totalMiB := p.totalMiB;
    if req.vramMiB != 0 { totalMiB := req.vramMiB; }
    if totalMiB > MAX_MIB || p.reservedMiB > MAX_MIB || req.usedMiB > MAX_MIB { return Err(Overflow); }
    if totalMiB <= p.reservedMiB { return Err(OverCapacity); }
    if req.usedMiB > totalMiB - p.reservedMiB { return Err(OverCapacity); }
    if req.gpuUtil > 100 || req.memoryUtil > 100 { return Err(InvalidRequest); }
    var processUsedMiB: u64 := 0;
    for i := 0 to |req.processes|
      invariant processUsedMiB == OwnedMiB(req.processes[..i]) <= req.usedMiB
      invariant forall j :: 0 <= j < i ==> ValidProcess(req.processes[j])
    {
      var proc := req.processes[i];
      assert req.processes[..i + 1][..i] == req.processes[..i];
      OwnedPrefix(req.processes, i + 1);
      var valid := CheckProcess(proc);
      if !valid { return Err(InvalidProcess); }
      if processUsedMiB > req.usedMiB || proc.memMiB > req.usedMiB - processUsedMiB { return Err(OverCapacity); }
      processUsedMiB := processUsedMiB + proc.memMiB;
    }
    assert req.processes[..|req.processes|] == req.processes;
    if req.failure.Some? {
      var f := req.failure.value;
      if f.mode != "lost" && f.mode != "fallen_off_bus" && f.mode != "ecc_uncorrectable" {
        return Err(InvalidRequest);
      }
      if f.probability < 0.0 || f.probability > 1.0 || f.afterCalls < 0 { return Err(InvalidRequest); }
    }
    var temp := p.temperatureC;
    if req.temperatureC.Some? { temp := req.temperatureC.value; }
    if temp < 0 || temp > 200 { return Err(InvalidRequest); }
    var total: u64 := totalMiB * MIB;
    var reserved: u64 := p.reservedMiB * MIB;
    var used: u64 := req.usedMiB * MIB;
    var free: u64 := total - reserved - used;
    WholeSum(total, reserved);
    WholeSum(total - reserved, used);
    return Ok(Device(total, used, free, req.processes));
  }

  // ---------- the system block ----------

  datatype System = System(driverVersion: string, cudaVersion: string)

  datatype MockSystem = MockSystem(driverVersion: string, cudaVersion: string, major: int, minor: int)

  const DRIVER_VERSION := "580.173.02"
  const CUDA_VERSION := "13.0"

  /** The first two of the numbers between dots, whatever follows them. */
  function Version(v: string): Option<(int, int)> {
    var parts := SplitOn(v, '.');
    if |parts| < 2 then None
    else
      var major, minor := Atoi(parts[0]), Atoi(parts[1]);
      if major.None? || minor.None? || major.value < 0 || minor.value < 0 then None
      else Some((major.value, minor.value))
  }

  /** A printed version, with or without a third part, is read back. */
  lemma VersionReadsBack(major: nat, minor: nat, patch: string)
    requires major <= MAX_INT && minor <= MAX_INT
    ensures Version(Itoa(major) + "." + Itoa(minor)) == Some((major, minor))
    ensures Version(Itoa(major) + "." + (Itoa(minor) + "." + patch)) == Some((major, minor))
  {
    DecimalNoDot(major);
    DecimalNoDot(minor);
    AtoiItoa(major);
    AtoiItoa(minor);
    SplitNone(Itoa(minor), '.');
    SplitAt(Itoa(minor), '.', patch);
    SplitAt(Itoa(major), '.', Itoa(minor));
    SplitAt(Itoa(major), '.', Itoa(minor) + "." + patch);
  }

  lemma DecimalNoDot(n: nat)
    ensures '.' !in Decimal(n)
  {
    assert forall i :: 0 <= i < |Decimal(n)| ==> IsDigit(Decimal(n)[i]);
  }

  /** The versions given, or their defaults, and the numbers in the CUDA version. */
  ghost predicate Normalized(system: System, mock: MockSystem) {
    && mock.driverVersion == (if system.driverVersion == "" then "580.173.02" else system.driverVersion)
    && mock.cudaVersion == (if system.cudaVersion == "" then "13.0" else system.cudaVersion)
    && Version(mock.cudaVersion) == Some((mock.major, mock.minor))
  }

  method NormalizeSystem(system: System) returns (r: Result<MockSystem>)
    ensures r.Ok? <==> Version(if system.cudaVersion == "" then "13.0" else system.cudaVersion).Some?
    ensures r.Ok? ==> Normalized(system, r.value)
  {
    var driver, version := system.driverVersion, system.cudaVersion;
    if driver == "" { driver := DRIVER_VERSION; }
    if version == "" { version := CUDA_VERSION; }
    var parts := SplitOn(version, '.');
    if |parts| < 2 { return Err(InvalidRequest); }
    var major := Atoi(parts[0]);
    if major.None? || major.value < 0 { return Err(InvalidRequest); }
    var minor := Atoi(parts[1]);
    if minor.None? || minor.value < 0 { return Err(InvalidRequest); }
    return Ok(MockSystem(driver, version, major.value, minor.value));
  }

  /** Leaving the block empty is fine. */
  lemma DefaultSystem()
    ensures Version(CUDA_VERSION) == Some((13, 0))
  {
    assert Decimal(13) == Decimal(1) + ['3'] && Decimal(0) == "0";
    assert CUDA_VERSION == Itoa(13) + "." + Itoa(0);
    VersionReadsBack(13, 0, "");
  }

  // ---------- the whole configuration ----------

  ghost predicate Composable(catalog: map<string, Profile>, req: Request) {
    req.profile in catalog && Acceptable(catalog[req.profile], req)
  }

  ghost function BaseUsage(devices: seq<Device>): (base: seq<int>)
    ensures |base| == |devices| && forall i :: 0 <= i < |base| ==> base[i] == NonProcess(devices[i])
  {
    seq(|devices|, i requires 0 <= i < |devices| => NonProcess(devices[i]))
  }

  ghost predicate NoRepeatedPid(reqs: seq<Request>) {
    forall i :: 0 <= i < |reqs| ==> Distinct(reqs[i].processes)
  }

  /** The accounts before anybody has reserved anything. */
  const NOTHING := Accounts(map[], map[])

  ghost predicate OpensBalanced(devices: seq<Device>) {
    && (forall i :: 0 <= i < |devices| ==> BaseUsage(devices)[i] >= 0)
    && Balanced(devices, NOTHING, BaseUsage(devices))
  }

  lemma GoodOpensBalanced(devices: seq<Device>)
    requires forall i :: 0 <= i < |devices| ==> WellFormed(devices[i]) && Aligned(devices[i])
    ensures OpensBalanced(devices)
  {
    forall i | 0 <= i < |devices| ensures BaseUsage(devices)[i] >= 0 {
      assert WellFormed(devices[i]);
    }
    var base: seq<nat> := BaseUsage(devices);
    forall i | 0 <= i < |devices| ensures InBalance(devices, NOTHING, base, i) {
      assert WellFormed(devices[i]);
    }
  }

  /** One to eight devices, each from its own profile and request, and a system
      block whose CUDA version can be read.  With no PID listed twice they open
      balanced books: nothing is outstanding, and all non-process usage is the base. */
  method Compose(catalog: map<string, Profile>, system: System, reqs: seq<Request>)
    returns (r: Result<(MockSystem, seq<Device>)>)
    ensures r.Ok? <==>
              && 0 < |reqs| <= 8
              && Version(if system.cudaVersion == "" then "13.0" else system.cudaVersion).Some?
              && forall i :: 0 <= i < |reqs| ==> Composable(catalog, reqs[i])
    ensures r.Ok? ==>
              && Normalized(system, r.value.0) && |r.value.1| == |reqs|
              && forall i :: 0 <= i < |reqs| ==> ComposedFrom(r.value.1[i], catalog[reqs[i].profile], reqs[i])
    ensures r.Ok? && NoRepeatedPid(reqs) ==> OpensBalanced(r.value.1)
  {
    if |reqs| == 0 { return Err(InvalidRequest); }
    if |reqs| > MAX_DEVICES { return Err(InvalidRequest); }
    var normalized := NormalizeSystem(system);
    if normalized.Err? { return Err(normalized.error); }
    var devices := ComposeDevices(catalog, reqs);
    if devices.Err? { return Err(devices.error); }
    return Ok((normalized.value, devices.value));
  }

  /** The loop over the requests. */
  method ComposeDevices(catalog: map<string, Profile>, reqs: seq<Request>) returns (r: Result<seq<Device>>)
    ensures r.Ok? <==> forall i :: 0 <= i < |reqs| ==> Composable(catalog, reqs[i])
    ensures r.Ok? ==>
              && |r.value| == |reqs|
              && forall i :: 0 <= i < |reqs| ==> ComposedFrom(r.value[i], catalog[reqs[i].profile], reqs[i])
    ensures r.Ok? && NoRepeatedPid(reqs) ==> OpensBalanced(r.value)
  {
    var out: seq<Device> := [];
    for i := 0 to |reqs|
      invariant |out| == i
      invariant forall j :: 0 <= j < i ==> Composable(catalog, reqs[j])
      invariant forall j :: 0 <= j < i ==> ComposedFrom(out[j], catalog[reqs[j].profile], reqs[j])
    {
      if reqs[i].profile !in catalog { return Err(InvalidRequest); }
      var device := ComposeDevice(catalog[reqs[i].profile], reqs[i]);
      if device.Err? { return Err(device.error); }
      out := out + [device.value];
    }
    if NoRepeatedPid(reqs) {
      forall i | 0 <= i < |out| ensures WellFormed(out[i]) && Aligned(out[i]) {
        assert ComposedFrom(out[i], catalog[reqs[i].profile], reqs[i]) && Distinct(reqs[i].processes);
      }
      GoodOpensBalanced(out);
    }
    return Ok(out);
  }

  /** The total asked for, or else the profile's; used as asked for, the reserved
      part set aside and the rest free; the processes as listed. */
  ghost predicate ComposedFrom(d: Device, p: Profile, req: Request) {
    && d.total == MIB * (if req.vramMiB == 0 then p.totalMiB else req.vramMiB)
    && d.used == MIB * req.usedMiB && d.used + d.free + MIB * p.reservedMiB == d.total
    && d.procs == req.processes && Aligned(d) && (WellFormed(d) <==> Distinct(req.processes))
  }

  /** A request with the same PID twice is acceptable all the same. */
  lemma RepeatedPidComposes()
    ensures var p := Process(7, "C", "w", 1, 0, 0, 0, 0);
            var req := Request("profile", 4, 2, 0, 0, None, [p, p], None);
            Acceptable(Profile(4, 0, 40), req) && !Distinct(req.processes)
  {
    var p := Process(7, "C", "w", 1, 0, 0, 0, 0);
    assert [p, p][..1] == [p] && [p][..0] == [];
    assert OwnedMiB([p, p]) == OwnedMiB([p]) + 1 && OwnedMiB([p]) == 1;
    assert [p, p][0].pid == [p, p][1].pid;
  }
}
