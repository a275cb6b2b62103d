/** The fake llama-server's lifecycle: register, become ready, grow, and on every
    way out release what was registered. */
module Server {
  import opened Accounting
  import opened Text
  import opened Operations
  import opened SinglePid
  import opened OnePid
  import opened Split
  import opened Control
  import opened Compensation
  import opened Registry

  datatype Config = Config(
    targets: seq<string>, tensorSplit: seq<real>, smUtil: u32, memUtil: u32,
    startupFail: bool, forceOom: bool, growthBytes: u64, growthAfter: bool, crashAfterReady: bool)

  /** What the timers, the socket and the context do during one run. */
  datatype LoadPhase = NoDelay | Elapsed | CancelledWhileLoading | StoppedWhileLoading

  datatype Event = Cancelled | ServeStopped | GrowthDue | CrashDue

  /** `attempts` is how many releases fit before the cleanup deadline, after the
      first one. */
  datatype Environment = Environment(
    required: Option<u64>, listens: bool, load: LoadPhase, events: seq<Event>, attempts: nat,
    registerNoise: seq<real>, growthNoise: seq<real>)

  datatype Cause =
    | CleanExit
    | NotStarted
    | ForcedOom
    | RegisterFailed(error: Error)
    | LoadFailed
    | ServeFailed
    | GrowthOverflow
    | GrowthFailed
    | Crashed

  const SERVER_NAME := "fake-llama-server"

  lemma ServerNameReadable()
    ensures Readable(SERVER_NAME)
  {
    assert TrimRight(SERVER_NAME) == SERVER_NAME;
  }

  lemma ClaimEnds(b: Batch, w: World, w': World, ok: bool, sm: u32, mem: u32)
    requires EndsAsTold(b, w, w', ok) && AllWellFormed(w.devices) && b.targets != []
    requires |b.names| == |w.devices| && b.o == Shown(w.devices, true) && OwnRecords(b.pid, b.recs) && b.Honest()
    requires b.recs == NewRecords(b.pid, SERVER_NAME, Amounts(b.recs), sm, mem)
    ensures ok ==> AllNamed(b.names, b.targets, |b.targets|) && AllLegible(w'.devices)
    ensures AllFine(w.script) && !ok ==> Shown(w'.devices, true) == b.o
    ensures AllLegible(w.devices) ==> AllLegible(w'.devices)
  {
    ServerNameReadable();
    assert b.ReadableNames();
    MirrorsStart(b, w);
    EndsReadable(b, w, w', ok);
    if AllFine(w.script) { FineEnds(b, w, w', ok); }
  }

  /** The rounding errors of the splits the run may make are small. */
  ghost predicate CalmNoise(cfg: Config, env: Environment) {
    && (forall n: u64 :: env.required == Some(n) ==> Tolerable(n, cfg.targets, cfg.tensorSplit, env.registerNoise))
    && (forall n: u64 :: env.required.Some? && n == env.required.value + cfg.growthBytes ==>
          Tolerable(n, cfg.targets, cfg.tensorSplit, env.growthNoise))
  }

  class Server {
    const cfg: Config
    const registry: NvmlRegistry
    const pid: u32
    var ready: bool
    var registered: bool

    /** The flag invariant: a ready server is a registered one. */
    ghost predicate Valid()
      reads this, registry, registry.manager
    {
      registry.Ready() && (ready ==> registered)
    }

    ghost function World(): World
      reads registry.manager
    {
      registry.manager.Now()
    }

    constructor (cfg: Config, registry: NvmlRegistry, pid: u32)
      requires registry.Ready()
      ensures Valid() && !ready && !registered && this.cfg == cfg && this.registry == registry && this.pid == pid
    {
      this.cfg, this.registry, this.pid, ready, registered := cfg, registry, pid, false, false;
    }

    /** Every store to a flag goes through one of these two, so the flag invariant
        holds after each of them, not only between calls. */
    method StoreReady(value: bool)
      requires value ==> registered
      modifies this`ready
      ensures ready == value
    {
      ready := value;
    }

    method StoreRegistered(value: bool)
      requires ready ==> value
      modifies this`registered
      ensures registered == value
    {
      registered := value;
    }

    /** The PID is on none of the targets. */
    ghost predicate Gone()
      reads registry.manager
    {
      forall k :: 0 <= k < |cfg.targets| ==>
        GoneFrom(registry.manager.names, cfg.targets[k], pid, registry.manager.devices)
    }

    ghost predicate TargetsNamed()
    {
      AllNamed(registry.manager.names, cfg.targets, |cfg.targets|)
    }

    /** The GPUs can be read and every target names one: what a removal needs. */
    ghost predicate Removable()
      reads registry.manager
    {
      AllLegible(World().devices) && TargetsNamed()
    }

    /** Releases once.  Success means nothing is registered, and if something was,
        the PID is on none of the targets; failure keeps the registration, and has
        used up a command that did not simply work. */
    method ReleaseResources() returns (r: Result<()>)
      requires Valid()
      modifies this, registry.manager
      ensures Valid() && Within(registry.manager.names, cfg.targets, pid, old(World()), World())
      ensures r.Ok? <==> !registered
      ensures r.Err? ==> old(registered)
      ensures old(registered) ==> !ready
      ensures !old(registered) ==> World() == old(World()) && ready == old(ready)
      ensures old(registered) && r.Ok? ==> Gone()
      ensures NoNewHolder(pid, old(registry.manager.devices), registry.manager.devices)
      ensures old(Removable()) ==>
                Removable() && Faults(World().script) + (if r.Ok? then 0 else 1) <= Faults(old(World()).script)
    {
      WithinSelf(registry.manager.names, cfg.targets, pid, World());
      if !registered { return Ok(()); }
      StoreReady(false);
      r := TakeOff();
      if r.Err? { return; }
      StoreRegistered(false);
    }

    /** The registry's release, and what it costs. */
    method TakeOff() returns (r: Result<()>)
      requires registry.Ready()
      modifies registry.manager
      ensures registry.Ready() && Within(registry.manager.names, cfg.targets, pid, old(World()), World())
      ensures r.Ok? ==> Gone()
      ensures NoNewHolder(pid, old(registry.manager.devices), registry.manager.devices)
      ensures old(Removable()) ==>
                Removable() && Faults(World().script) + (if r.Ok? then 0 else 1) <= Faults(old(World()).script)
    {
      ghost var start, removable := World(), Removable();
      ghost var log;
      r, log := registry.Release(pid, cfg.targets);
      if removable { ReleaseCosts(registry.manager.names, cfg.targets, pid, start, log, World()); }
    }

    /** Retries the release until it works or the deadline passes, `attempts` times
        at most.  Each failed attempt uses up a command that did not simply work; so
        with readable GPUs and named targets it succeeds if no more than `attempts`
        of those are left.  The set of GPUs holding the PID never grows on the way. */
    method ReleaseResourcesWithRetry(attempts: nat) returns (r: Result<()>, ghost tries: nat)
      requires Valid()
      modifies this, registry.manager
      ensures Valid() && Within(registry.manager.names, cfg.targets, pid, old(World()), World())
      ensures r.Ok? <==> !registered
      ensures r.Err? ==> old(registered)
      ensures old(registered) ==> !ready
      ensures !old(registered) ==> World() == old(World()) && ready == old(ready)
      ensures old(registered) && r.Ok? ==> Gone()
      ensures NoNewHolder(pid, old(registry.manager.devices), registry.manager.devices)
      ensures 0 < tries <= attempts + 1 && (r.Err? ==> tries == attempts + 1)
      ensures old(Removable()) && Faults(old(World()).script) <= attempts ==> r.Ok?
    {
      ghost var start, was := World(), registered;
      ghost var removable := Removable();
      r := ReleaseResources();
      var left := attempts;
      tries := 1;
      while r.Err? && left > 0
        invariant Valid() && Within(registry.manager.names, cfg.targets, pid, start, World())
        invariant (r.Ok? <==> !registered) && (r.Err? ==> was) && (was ==> !ready)
        invariant !was ==> World() == start && ready == old(ready)
        invariant was && r.Ok? ==> Gone()
        invariant NoNewHolder(pid, start.devices, registry.manager.devices)
        invariant tries + left == attempts + 1
        invariant removable ==>
                    Removable() && Faults(World().script) + tries <= Faults(start.script) + if r.Ok? then 1 else 0
        decreases left
      {
        ghost var now := World();
        r := ReleaseResources();
        WithinMore(registry.manager.names, cfg.targets, cfg.targets, pid, start, now, World());
        left := left - 1;
        tries := tries + 1;
      }
    }

    /** Register or Resize: the records sent are this server's, with the shares of
        `bytes`, and whatever fails it ends exactly as the registry's specification
        tells.  Without any fault a failure leaves no trace. */
    method Claim(bytes: u64, noise: seq<real>) returns (r: Result<()>, ghost recs: seq<Process>)
      requires Valid() && pid != 0 && Tolerable(bytes, cfg.targets, cfg.tensorSplit, noise)
      modifies registry.manager
      ensures Valid() && Within(registry.manager.names, cfg.targets, pid, old(World()), World())
      ensures ClaimedAsTold(bytes, noise, old(World()), World(), recs, r.Ok?)
      ensures r == Err(OutOfMemory) <==> ShortOfMemory(old(World()), recs)
      ensures r.Ok? ==> Removable()
      ensures AllLegible(old(World()).devices) ==> AllLegible(World().devices)
      ensures AllFine(old(World()).script) && r.Err? ==>
                Shown(World().devices, true) == Shown(old(World()).devices, true)
    {
      ghost var start := World();
      r, recs := registry.Apply(pid, SERVER_NAME, cfg.targets, bytes, cfg.tensorSplit, noise, cfg.smUtil, cfg.memUtil);
      if cfg.targets != [] { ClaimEnds(BatchAt(start, recs), start, World(), r.Ok?, cfg.smUtil, cfg.memUtil); }
    }

    /** The registration of `recs` on the targets, from world `w`. */
    ghost function BatchAt(w: World, recs: seq<Process>): Batch
    {
      NewBatch(registry.manager.names, Shown(w.devices, true), pid, cfg.targets, recs)
    }

    ghost predicate ClaimedAsTold(bytes: u64, noise: seq<real>, w: World, w': World, recs: seq<Process>, ok: bool)
    {
      if cfg.targets == [] then !ok && w' == w
      else
        && recs == NewRecords(pid, SERVER_NAME, Amounts(recs), cfg.smUtil, cfg.memUtil)
        && Shares(bytes, cfg.targets, cfg.tensorSplit, noise, Amounts(recs))
        && EndsAsTold(BatchAt(w, recs), w, w', ok)
    }

    /** That registration stops for want of memory. */
    ghost predicate ShortOfMemory(w: World, recs: seq<Process>) {
      && cfg.targets != [] && |recs| == |cfg.targets|
      && Registered(BatchAt(w, recs), StateOf(BatchAt(w, recs), w)).short
    }

    // ---------- what a run does once its socket is open ----------

    /** How a run that got past its registration goes on. */
    ghost predicate LoadedAsTold(env: Environment, required: u64, story: Story, cause: Cause, end: World)
    {
      match env.load
      case CancelledWhileLoading => cause.CleanExit? && !story.up && end == story.claimed
      case StoppedWhileLoading => cause.LoadFailed? && !story.up && end == story.claimed
      case _ => LivesTo(cfg, env.events, required, story, cause) && GrownAsTold(env, required, story, end)
    }

    ghost predicate GrownAsTold(env: Environment, required: u64, story: Story, end: World)
    {
      if story.growth.Ungrown? then end == story.claimed
      else
        required + cfg.growthBytes <= MAX64
        && ClaimedAsTold(required + cfg.growthBytes, env.growthNoise, story.claimed, end, story.grown,
                         story.growth.Grew?)
    }

    /** Everything `Run` does between opening its socket and its cleanup. */
    method Serve(env: Environment, required: u64) returns (cause: Cause, ghost story: Story)
      requires Valid() && pid != 0 && !ready && !registered && env.required == Some(required) && CalmNoise(cfg, env)
      modifies this, registry.manager
      ensures Valid() && Within(registry.manager.names, cfg.targets, pid, old(World()), World())
      ensures registered <==> !cause.ForcedOom? && !cause.RegisterFailed?
      ensures !cause.NotStarted? && (cause.ForcedOom? <==> cfg.forceOom)
      ensures cause.ForcedOom? ==> World() == old(World())
      ensures !cfg.forceOom ==>
                && ClaimedAsTold(required, env.registerNoise, old(World()), story.claimed, story.first, registered)
                && (cause == RegisterFailed(OutOfMemory) <==> ShortOfMemory(old(World()), story.first))
                && (if registered then LoadedAsTold(env, required, story, cause, World())
                    else World() == story.claimed)
      ensures ready == story.up
      ensures registered ==> Removable()
      ensures AllFine(old(World()).script) && !registered ==>
                Shown(World().devices, true) == Shown(old(World()).devices, true)
    {
      ghost var start := World();
      story := Story([], start, [], 0, Ungrown, false);
      WithinSelf(registry.manager.names, cfg.targets, pid, start);
      if cfg.forceOom { return ForcedOom, story; }
      var done;
      ghost var first;
      done, first := Claim(required, env.registerNoise);
      story := Story(first, World(), [], 0, Ungrown, false);
      if done.Err? { return RegisterFailed(done.error), story; }
      cause, story := Load(env, required, start, story);
    }

    /** A registered server, from loading its model to the end. */
    method Load(env: Environment, required: u64, ghost start: World, ghost before: Story)
      returns (cause: Cause, ghost story: Story)
      requires Valid() && pid != 0 && !ready && env.required == Some(required) && CalmNoise(cfg, env)
      requires Within(registry.manager.names, cfg.targets, pid, start, World()) && Removable()
      requires before.claimed == World() && before.growth.Ungrown? && !before.up
      modifies this, registry.manager
      ensures Valid() && registered && Within(registry.manager.names, cfg.targets, pid, start, World()) && Removable()
      ensures !cause.ForcedOom? && !cause.RegisterFailed? && !cause.NotStarted?
      ensures story.first == before.first && story.claimed == before.claimed
      ensures LoadedAsTold(env, required, story, cause, World()) && ready == story.up
    {
      story := before;
      StoreRegistered(true);
      match env.load {
        case CancelledWhileLoading => return CleanExit, story;
        case StoppedWhileLoading => return LoadFailed, story;
        case _ =>
      }
      StoreReady(true);
      cause, story := Live(env, required, start, story);
    }

    /** A ready server before event `i`, in a run that began in world `start`. */
    ghost predicate Living(env: Environment, required: u64, start: World, i: nat, armed: bool, bytes: u64, story: Story)
      reads this, registry, registry.manager
    {
      && Valid() && registered && ready && Removable() && (armed ==> bytes == required)
      && Within(registry.manager.names, cfg.targets, pid, start, World())
      && LivesOn(cfg, env.events, required, i, armed, story.growth) && GrownAsTold(env, required, story, World())
    }

    /** The same server at its end. */
    ghost predicate Ended(env: Environment, required: u64, start: World, story: Story, cause: Cause)
      reads this, registry, registry.manager
    {
      && Valid() && registered && ready == story.up && Removable() && Lived(cause)
      && Within(registry.manager.names, cfg.targets, pid, start, World())
      && LivesTo(cfg, env.events, required, story, cause) && GrownAsTold(env, required, story, World())
    }

    /** The loop of a ready server, up to the event that ends it. */
    method Live(env: Environment, required: u64, ghost start: World, ghost before: Story)
      returns (cause: Cause, ghost story: Story)
      requires Valid() && pid != 0 && registered && ready && env.required == Some(required) && CalmNoise(cfg, env)
      requires Within(registry.manager.names, cfg.targets, pid, start, World()) && Removable()
      requires before.claimed == World() && before.growth.Ungrown?
      modifies this`ready, registry.manager
      ensures story.first == before.first && story.claimed == before.claimed
      ensures Ended(env, required, start, story, cause)
    {
      story := before;
      var growthArmed := cfg.growthAfter && cfg.growthBytes > 0;
      var currentBytes := required;
      for i := 0 to |env.events|
        invariant story.first == before.first && story.claimed == before.claimed
        invariant Living(env, required, start, i, growthArmed, currentBytes, story)
      {
        match env.events[i] {
          case Cancelled =>
            story := Stop(env, required, start, i, growthArmed, currentBytes, story, CleanExit);
            return CleanExit, story;
          case ServeStopped =>
            story := Stop(env, required, start, i, growthArmed, currentBytes, story, ServeFailed);
            return ServeFailed, story;
          case CrashDue =>
            if cfg.crashAfterReady {
              story := Stop(env, required, start, i, growthArmed, currentBytes, story, Crashed);
              return Crashed, story;
            }
            LivesPast(cfg, env.events, required, i, growthArmed, story.growth);
          case GrowthDue =>
            if growthArmed {
              if currentBytes > MAX64 - cfg.growthBytes {
                story := Overflows(env, required, start, i, story);
                return GrowthOverflow, story;
              }
              currentBytes := currentBytes + cfg.growthBytes;
              var done;
              done, story := Grow(env, required, currentBytes, start, i, story);
              if done.Err? { return GrowthFailed, story; }
              growthArmed := false;
            } else {
              LivesPast(cfg, env.events, required, i, growthArmed, story.growth);
            }
        }
      }
      story := story.(at := |env.events|, up := true);
      return CleanExit, story;
    }

    /** Event `i` ends it; a crash takes its readiness at once. */
    method Stop(env: Environment, required: u64, ghost start: World, ghost i: nat, ghost armed: bool, ghost bytes: u64,
                ghost before: Story, cause: Cause)
      returns (ghost story: Story)
      requires Living(env, required, start, i, armed, bytes, before)
      requires i < |env.events| && EndsIt(cfg, env.events[i]) && Causes(env.events[i], cause)
      modifies this`ready
      ensures story == before.(at := i, up := !cause.Crashed?)
      ensures Ended(env, required, start, story, cause)
    {
      story := before.(at := i, up := !cause.Crashed?);
      StopsAt(cfg, env.events, required, i, armed, story, cause);
      if cause.Crashed? { StoreReady(false); }
    }

    /** It is to grow at event `i`, and cannot count that far. */
    method Overflows(env: Environment, required: u64, ghost start: World, ghost i: nat, ghost before: Story)
      returns (ghost story: Story)
      requires Living(env, required, start, i, true, required, before) && required + cfg.growthBytes > MAX64
      requires i < |env.events| && env.events[i].GrowthDue?
      ensures story == before.(at := i, up := true)
      ensures Ended(env, required, start, story, GrowthOverflow)
    {
      story := before.(at := i, up := true);
      GrowthStops(cfg, env.events, required, i, before.growth, story, GrowthOverflow);
    }

    /** The growth, at event `i`. */
    method Grow(env: Environment, required: u64, bytes: u64, ghost start: World, ghost i: nat, ghost before: Story)
      returns (r: Result<()>, ghost story: Story)
      requires pid != 0 && env.required == Some(required) && CalmNoise(cfg, env) && bytes == required + cfg.growthBytes
      requires Living(env, required, start, i, true, required, before)
      requires i < |env.events| && env.events[i].GrowthDue?
      modifies registry.manager
      ensures story.first == before.first && story.claimed == before.claimed
      ensures r.Ok? ==> Living(env, required, start, i + 1, false, bytes, story)
      ensures r.Err? ==> Ended(env, required, start, story, GrowthFailed)
    {
      ghost var grown;
      r, grown := Resize(bytes, env.growthNoise, start);
      story := before.(at := i, up := true, grown := grown, growth := if r.Ok? then Grew else Refused);
      if r.Ok? {
        GrowsHere(cfg, env.events, required, i, before.growth);
      } else {
        GrowthStops(cfg, env.events, required, i, before.growth, story, GrowthFailed);
      }
    }

    /** A resize, in a run that began in world `start`. */
    method Resize(bytes: u64, noise: seq<real>, ghost start: World) returns (r: Result<()>, ghost recs: seq<Process>)
      requires Valid() && pid != 0 && Tolerable(bytes, cfg.targets, cfg.tensorSplit, noise)
      requires Within(registry.manager.names, cfg.targets, pid, start, World()) && Removable()
      modifies registry.manager
      ensures Valid() && Within(registry.manager.names, cfg.targets, pid, start, World()) && Removable()
      ensures ClaimedAsTold(bytes, noise, old(World()), World(), recs, r.Ok?)
    {
      ghost var now := World();
      r, recs := Claim(bytes, noise);
      WithinMore(registry.manager.names, cfg.targets, cfg.targets, pid, start, now, World());
    }

    /** One run of the server.  However it ends, it is not ready, and either
        nothing is registered or the failed release is part of the result; once
        registered and released, the PID is on none of its targets, and if it was
        new, every GPU shows what it showed before, telemetry aside, whatever failed
        on the way.  The release works if no more commands are to fail, from its
        beginning on, than it has retries.  If upstream never fails all that holds on
        every exit path.  A failed registration is the one way out that releases
        nothing: what its own rollback left behind stays, and the result does not
        tell. */
    method Run(env: Environment) returns (cause: Cause, releaseError: Option<Error>, ghost story: Story,
                                          ghost served: World)
      requires Valid() && !ready && !registered && CalmNoise(cfg, env)
      modifies this, registry.manager
      ensures Valid() && !ready && Within(registry.manager.names, cfg.targets, pid, old(World()), World())
      ensures registered <==> releaseError.Some?
      ensures cause.NotStarted? <==> pid == 0 || cfg.startupFail || env.required.None? || !env.listens
      ensures cause.ForcedOom? <==> !cause.NotStarted? && cfg.forceOom
      ensures cause.NotStarted? || cause.ForcedOom? ==> World() == old(World())
      ensures Registers(cause) || cause.RegisterFailed? ==>
                ClaimedAsTold(env.required.value, env.registerNoise, old(World()), story.claimed, story.first,
                              Registers(cause))
      ensures cause.RegisterFailed? ==> releaseError.None? && World() == story.claimed
      ensures Registers(cause) || cause.RegisterFailed? ==>
                (cause == RegisterFailed(OutOfMemory) <==> ShortOfMemory(old(World()), story.first))
      ensures Registers(cause) ==> LoadedAsTold(env, env.required.value, story, cause, served)
      ensures releaseError.None? && Registers(cause) ==>
                Gone() && (Absent(old(World()).devices, pid) ==>
                  Shown(World().devices, false) == Shown(old(World()).devices, false))
      ensures Faults(served.script) <= Faults(old(World()).script)
      ensures Faults(served.script) <= env.attempts ==> releaseError.None?
      ensures AllFine(old(World()).script) && Absent(old(World()).devices, pid) ==>
                releaseError.None? && Shown(World().devices, true) == Shown(old(World()).devices, true)
    {
      releaseError, story, served := None, Story([], World(), [], 0, Ungrown, false), World();
      WithinSelf(registry.manager.names, cfg.targets, pid, World());
      if pid == 0 { return NotStarted, None, story, served; }
      if cfg.startupFail { return NotStarted, None, story, served; }
      if env.required.None? { return NotStarted, None, story, served; }
      if !env.listens { return NotStarted, None, story, served; }
      cause, releaseError, story, served := Session(env);
    }

    /** From the open socket to the deferred release. */
    method Session(env: Environment) returns (cause: Cause, releaseError: Option<Error>, ghost story: Story,
                                              ghost served: World)
      requires Valid() && !ready && !registered && CalmNoise(cfg, env) && pid != 0 && env.required.Some?
      modifies this, registry.manager
      ensures Valid() && !ready && Within(registry.manager.names, cfg.targets, pid, old(World()), World())
      ensures registered <==> releaseError.Some?
      ensures !cause.NotStarted? && (cause.ForcedOom? <==> cfg.forceOom)
      ensures cause.ForcedOom? ==> releaseError.None? && World() == old(World())
      ensures !cause.ForcedOom? ==>
                ClaimedAsTold(env.required.value, env.registerNoise, old(World()), story.claimed, story.first,
                              Registers(cause))
      ensures cause.RegisterFailed? ==> releaseError.None? && World() == story.claimed
      ensures Registers(cause) || cause.RegisterFailed? ==>
                (cause == RegisterFailed(OutOfMemory) <==> ShortOfMemory(old(World()), story.first))
      ensures Registers(cause) ==> LoadedAsTold(env, env.required.value, story, cause, served)
      ensures releaseError.None? && Registers(cause) ==>
                Gone() && (Absent(old(World()).devices, pid) ==>
                  Shown(World().devices, false) == Shown(old(World()).devices, false))
      ensures Faults(served.script) <= Faults(old(World()).script)
      ensures Faults(served.script) <= env.attempts ==> releaseError.None?
      ensures AllFine(old(World()).script) && Absent(old(World()).devices, pid) ==>
                releaseError.None? && Shown(World().devices, true) == Shown(old(World()).devices, true)
    {
      ghost var start := World();
      cause, story := Serve(env, env.required.value);
      served := World();
      releaseError := CleanUp(env, start);
    }

    /** The deferred release, in a run that began in world `start`. */
    method CleanUp(env: Environment, ghost start: World) returns (releaseError: Option<Error>)
      requires Valid() && (registered ==> Removable())
      requires Within(registry.manager.names, cfg.targets, pid, start, World())
      requires AllFine(start.script) && !registered ==> Shown(World().devices, true) == Shown(start.devices, true)
      modifies this, registry.manager
      ensures Valid() && !ready && Within(registry.manager.names, cfg.targets, pid, start, World())
      ensures registered <==> releaseError.Some?
      ensures !old(registered) ==> releaseError.None? && World() == old(World())
      ensures releaseError.None? && old(registered) ==>
                Gone() && (Absent(start.devices, pid) ==> Shown(World().devices, false) == Shown(start.devices, false))
      ensures Faults(old(World()).script) <= env.attempts ==> releaseError.None?
      ensures AllFine(start.script) && Absent(start.devices, pid) ==>
                releaseError.None? && Shown(World().devices, true) == Shown(start.devices, true)
    {
      StoreReady(false);
      ghost var served, was := World(), registered;
      if AllFine(start.script) { FaultsNone(World().script); }
      releaseError := None;
      var released;
      ghost var tries;
      released, tries := ReleaseResourcesWithRetry(env.attempts);
      WithinMore(registry.manager.names, cfg.targets, cfg.targets, pid, start, served, World());
      if released.Err? { releaseError := Some(released.error); }
      if was && released.Ok? && Absent(start.devices, pid) { LeavesNothing(start); }
    }

    lemma LeavesNothing(start: World)
      requires Valid() && Gone() && Absent(start.devices, pid)
      requires Within(registry.manager.names, cfg.targets, pid, start, World())
      ensures Shown(World().devices, false) == Shown(start.devices, false)
      ensures AllFine(start.script) ==> Shown(World().devices, true) == Shown(start.devices, true)
    {
      NothingRemains(registry.manager.names, cfg.targets, start.devices, World().devices, pid, false);
      if AllFine(start.script) {
        FineIsCalm(start.script);
        NothingRemains(registry.manager.names, cfg.targets, start.devices, World().devices, pid, true);
      }
    }
  }

  /** The run got as far as holding a registration. */
  predicate Registers(cause: Cause) { !cause.NotStarted? && !cause.ForcedOom? && !cause.RegisterFailed? }

  datatype Growth = Ungrown | Grew | Refused

  /** The records registered first, the world after that, the records it was to grow
      to and whether it did, which event came last, and whether it was ready when
      the cleanup began. */
  datatype Story = Story(first: seq<Process>, claimed: World, grown: seq<Process>, at: nat, growth: Growth, up: bool)

  /** An event that ends a ready server, growing aside. */
  predicate EndsIt(cfg: Config, e: Event) { e.Cancelled? || e.ServeStopped? || (e.CrashDue? && cfg.crashAfterReady) }

  /** It is to grow, and that comes up before event `n`. */
  ghost predicate GrowsBefore(cfg: Config, events: seq<Event>, n: nat) {
    && cfg.growthAfter && cfg.growthBytes > 0
    && exists i :: 0 <= i < n <= |events| && events[i].GrowthDue?
  }

  /** A ready server before event `n`: nothing has ended it, and it has grown if it
      was to. */
  ghost predicate LivesOn(cfg: Config, events: seq<Event>, required: u64, n: nat, armed: bool, growth: Growth) {
    && n <= |events| && (forall i :: 0 <= i < n ==> !EndsIt(cfg, events[i]))
    && (armed <==> cfg.growthAfter && cfg.growthBytes > 0 && !GrowsBefore(cfg, events, n))
    && growth == (if GrowsBefore(cfg, events, n) then Grew else Ungrown)
    && (GrowsBefore(cfg, events, n) ==> required + cfg.growthBytes <= MAX64)
  }

  /** It did not end before it was ready to live. */
  predicate Lived(cause: Cause) { !cause.ForcedOom? && !cause.RegisterFailed? && !cause.NotStarted? }

  ghost predicate Causes(e: Event, cause: Cause) {
    match e
    case Cancelled => cause.CleanExit?
    case ServeStopped => cause.ServeFailed?
    case CrashDue => cause.Crashed?
    case GrowthDue => false
  }

  /** An event that does not end it, and at which it does not grow. */
  lemma LivesPast(cfg: Config, events: seq<Event>, required: u64, i: nat, armed: bool, growth: Growth)
    requires i < |events| && LivesOn(cfg, events, required, i, armed, growth)
    requires !EndsIt(cfg, events[i]) && (events[i].GrowthDue? ==> !armed)
    ensures LivesOn(cfg, events, required, i + 1, armed, growth)
  {
    if cfg.growthAfter && cfg.growthBytes > 0 && events[i].GrowthDue? { assert GrowsBefore(cfg, events, i); }
    GrowsNext(cfg, events, i);
  }

  lemma GrowsNext(cfg: Config, events: seq<Event>, i: nat)
    requires i < |events|
    ensures GrowsBefore(cfg, events, i + 1)
       <==> GrowsBefore(cfg, events, i) || (cfg.growthAfter && cfg.growthBytes > 0 && events[i].GrowthDue?)
  {
  }

  /** The event at which it is to grow. */
  lemma GrowsHere(cfg: Config, events: seq<Event>, required: u64, i: nat, growth: Growth)
    requires i < |events| && LivesOn(cfg, events, required, i, true, growth) && events[i].GrowthDue?
    ensures growth.Ungrown? && GrowsBefore(cfg, events, i + 1) && !GrowsBefore(cfg, events, i)
    ensures required + cfg.growthBytes <= MAX64 ==> LivesOn(cfg, events, required, i + 1, false, Grew)
  {
    GrowsNext(cfg, events, i);
  }

  /** A ready server lives up to the first event that ends it, or the one at which
      it is to grow and cannot, or as long as there are events. */
  ghost predicate LivesTo(cfg: Config, events: seq<Event>, required: u64, story: Story, cause: Cause) {
    var at := story.at;
    && at <= |events| && (forall i :: 0 <= i < at ==> !EndsIt(cfg, events[i]))
    && (story.up <==> !cause.Crashed?)
    && (GrowsBefore(cfg, events, at) ==> required + cfg.growthBytes <= MAX64)
    && if at == |events| then
         cause.CleanExit? && story.growth == (if GrowsBefore(cfg, events, at) then Grew else Ungrown)
       else if events[at].GrowthDue? then
         && GrowsBefore(cfg, events, at + 1) && !GrowsBefore(cfg, events, at)
         && if required + cfg.growthBytes > MAX64 then cause.GrowthOverflow? && story.growth.Ungrown?
            else cause.GrowthFailed? && story.growth.Refused?
       else
         && EndsIt(cfg, events[at]) && Causes(events[at], cause)
         && story.growth == (if GrowsBefore(cfg, events, at) then Grew else Ungrown)
  }

  lemma StopsAt(cfg: Config, events: seq<Event>, required: u64, i: nat, armed: bool, story: Story, cause: Cause)
    requires i < |events| && LivesOn(cfg, events, required, i, armed, story.growth)
    requires EndsIt(cfg, events[i]) && Causes(events[i], cause) && story.at == i && story.up == !cause.Crashed?
    ensures LivesTo(cfg, events, required, story, cause) && Lived(cause)
  {
  }

  lemma GrowthStops(cfg: Config, events: seq<Event>, required: u64, i: nat, growth: Growth, story: Story, cause: Cause)
    requires i < |events| && LivesOn(cfg, events, required, i, true, growth) && events[i].GrowthDue?
    requires story.at == i && story.up
    requires if required + cfg.growthBytes > MAX64 then cause.GrowthOverflow? && story.growth == growth
             else cause.GrowthFailed? && story.growth.Refused?
    ensures growth.Ungrown? && LivesTo(cfg, events, required, story, cause)
  {
    GrowsNext(cfg, events, i);
  }
}
