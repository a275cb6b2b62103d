/** The native token protocol of the CUDA bridge: every allocation is a one-byte
    malloc whose address stands for simulated device memory.  Any number of
    threads; the engine's own calls are atomic (it holds a mutex), the mallocs and
    frees around them are separate steps. */
module Bridge {

  type Thread = nat
  type Address = nat

  datatype Pc =
    | Outside
    | Allocated(token: Address)   // malloc done, engine not asked yet
    | Rejected(token: Address)    // engine refused, native free to come
    | Untracked(token: Address)   // engine released it, native free to come

  datatype Action = Malloc(token: Address) | NativeFree(token: Address)

  /** `live` is what malloc has handed out and free has not taken back; `table`
      is what the engine tracks; `dropped` is what resets took out of the table;
      `trace` is the history of native calls. */
  datatype System = System(live: set<Address>, table: set<Address>, dropped: set<Address>, pcs: map<Thread, Pc>,
                           trace: seq<Action>)

  function PcOf(s: System, a: Thread): Pc { if a in s.pcs then s.pcs[a] else Outside }

  function Goes(s: System, a: Thread, pc: Pc): System { s.(pcs := s.pcs[a := pc]) }

  /** What a thread can do next.  `Frees(p)` is called with any pointer at all. */
  datatype Move =
    | Mallocs(token: Address)
    | TrackAccepted
    | TrackRefused
    | FreesRejected
    | Frees(pointer: Address, released: bool)
    | FreesUntracked
    | Resets(onDevice: set<Address>)

  predicate Enabled(s: System, a: Thread, m: Move) {
    match m
    case Mallocs(t) => PcOf(s, a).Outside? && t != 0 && t !in s.live
    case TrackAccepted => PcOf(s, a).Allocated? && PcOf(s, a).token !in s.table
    case TrackRefused => PcOf(s, a).Allocated?
    case FreesRejected => PcOf(s, a).Rejected?
    case Frees(_, _) => PcOf(s, a).Outside?
    case FreesUntracked => PcOf(s, a).Untracked?
    case Resets(onDevice) => PcOf(s, a).Outside? && onDevice <= s.table
  }

  function Next(s: System, a: Thread, m: Move): System
    requires Enabled(s, a, m)
  {
    match m
    case Mallocs(t) => Goes(s, a, Allocated(t)).(live := s.live + {t}, trace := s.trace + [Malloc(t)])
    case TrackAccepted => Goes(s, a, Outside).(table := s.table + {PcOf(s, a).token})
    case TrackRefused => Goes(s, a, Rejected(PcOf(s, a).token))
    case FreesRejected =>
      var t := PcOf(s, a).token;
      Goes(s, a, Outside).(live := s.live - {t}, trace := s.trace + [NativeFree(t)])
    case Frees(p, released) =>
      if p != 0 && p in s.table && released then Goes(s, a, Untracked(p)).(table := s.table - {p}) else s
    case FreesUntracked =>
      var t := PcOf(s, a).token;
      Goes(s, a, Outside).(live := s.live - {t}, trace := s.trace + [NativeFree(t)])
    case Resets(onDevice) => s.(table := s.table - onDevice, dropped := s.dropped + onDevice)
  }

  // ---------- the partition ----------

  /** The token a thread has in hand, if any. */
  predicate Owns(pc: Pc, t: Address) { !pc.Outside? && pc.token == t }

  ghost predicate InHand(s: System, t: Address) { exists a :: a in s.pcs && Owns(s.pcs[a], t) }

  /** Every live token is in exactly one place: in one thread's hand (fresh,
      rejected or awaiting its native free), tracked, or dropped by a reset. */
  ghost predicate Partitioned(s: System) {
    && (forall t :: t in s.live <==> InHand(s, t) || t in s.table || t in s.dropped)
    && (forall t :: InHand(s, t) ==> t !in s.table && t !in s.dropped)
    && s.table !! s.dropped
    && (forall a, b, t :: a in s.pcs && b in s.pcs && Owns(s.pcs[a], t) && Owns(s.pcs[b], t) ==> a == b)
    && 0 !in s.live
  }

  lemma HandAfter(s: System, a: Thread, pc: Pc, t: Address)
    requires forall x, y, u :: x in s.pcs && y in s.pcs && Owns(s.pcs[x], u) && Owns(s.pcs[y], u) ==> x == y
    ensures InHand(Goes(s, a, pc), t) <==> Owns(pc, t) || (InHand(s, t) && !Owns(PcOf(s, a), t))
  {
    var s' := Goes(s, a, pc);
    if Owns(pc, t) { assert Owns(s'.pcs[a], t); }
    if InHand(s, t) && !Owns(PcOf(s, a), t) {
      var b :| b in s.pcs && Owns(s.pcs[b], t);
      assert b in s'.pcs && s'.pcs[b] == s.pcs[b];
    }
    if InHand(s', t) && !Owns(pc, t) {
      var b :| b in s'.pcs && Owns(s'.pcs[b], t);
      assert b != a && b in s.pcs && Owns(s.pcs[b], t);
    }
  }

  lemma PartitionStep(s: System, a: Thread, m: Move)
    requires Partitioned(s) && Enabled(s, a, m)
    ensures Partitioned(Next(s, a, m))
  {
    var s', pc := Next(s, a, m), PcOf(s, a);
    if s' == s || m.Resets? {
      assert forall t :: InHand(s', t) <==> InHand(s, t);
    } else {
      var pc' := s'.pcs[a];
      assert pc.Outside? || InHand(s, pc.token);
      forall t ensures InHand(s', t) <==> Owns(pc', t) || (InHand(s, t) && !Owns(pc, t)) {
        HandAfter(s, a, pc', t);
        assert InHand(s', t) <==> InHand(Goes(s, a, pc'), t);
      }
      forall z, t | z in s.pcs && z != a && Owns(s.pcs[z], t) ensures !Owns(pc', t) {
        assert InHand(s, t);
      }
    }
  }

  // ---------- native calls are balanced ----------

  function Mallocd(trace: seq<Action>, t: Address): nat {
    if trace == [] then 0 else Mallocd(trace[..|trace| - 1], t) + if trace[|trace| - 1] == Malloc(t) then 1 else 0
  }

  function Freed(trace: seq<Action>, t: Address): nat {
    if trace == [] then 0 else Freed(trace[..|trace| - 1], t) + if trace[|trace| - 1] == NativeFree(t) then 1 else 0
  }

  /** Each address: as many frees as mallocs, or one malloc ahead while live. */
  ghost predicate Even(s: System) {
    forall t :: Mallocd(s.trace, t) == Freed(s.trace, t) + if t in s.live then 1 else 0
  }

  lemma EvenStep(s: System, a: Thread, m: Move)
    requires Partitioned(s) && Even(s) && Enabled(s, a, m)
    ensures Even(Next(s, a, m))
  {
    var s' := Next(s, a, m);
    if s'.trace != s.trace {
      var t0 := s'.trace[|s.trace|].token;
      assert s'.trace[..|s.trace|] == s.trace;
      assert m.FreesRejected? || m.FreesUntracked? ==> InHand(s, t0);
      forall t ensures Mallocd(s'.trace, t) == Freed(s'.trace, t) + if t in s'.live then 1 else 0 {
        assert Mallocd(s.trace, t) == Freed(s.trace, t) + if t in s.live then 1 else 0;
      }
    }
  }

  // ---------- whole runs ----------

  datatype Run = Run(states: seq<System>, threads: seq<Thread>, moves: seq<Move>) {
    ghost predicate Valid() {
      && |states| == |moves| + 1 && |threads| == |moves|
      && states[0] == System({}, {}, {}, map[], [])
      && forall i :: 0 <= i < |moves| ==>
        Enabled(states[i], threads[i], moves[i]) && states[i + 1] == Next(states[i], threads[i], moves[i])
    }
  }

  /** In every interleaving: live tokens are partitioned, native calls balanced. */
  lemma {:induction false} RunInvariant(r: Run, n: nat)
    requires r.Valid() && n < |r.states|
    ensures Partitioned(r.states[n]) && Even(r.states[n])
  {
    if n > 0 {
      RunInvariant(r, n - 1);
      PartitionStep(r.states[n - 1], r.threads[n - 1], r.moves[n - 1]);
      EvenStep(r.states[n - 1], r.threads[n - 1], r.moves[n - 1]);
    }
  }

  /** No native free ever hits an address that is not live, and the engine never
      sees a token it already tracks. */
  lemma NativeCallsSafe(r: Run, n: nat)
    requires r.Valid() && n < |r.moves|
    ensures r.moves[n].FreesRejected? || r.moves[n].FreesUntracked? ==>
              PcOf(r.states[n], r.threads[n]).token in r.states[n].live
    ensures PcOf(r.states[n], r.threads[n]).Allocated? ==>
              PcOf(r.states[n], r.threads[n]).token !in r.states[n].table
    ensures forall t :: Freed(r.states[n].trace, t) <= Mallocd(r.states[n].trace, t) <= Freed(r.states[n].trace, t) + 1
  {
    RunInvariant(r, n);
    var s, pc := r.states[n], PcOf(r.states[n], r.threads[n]);
    if !pc.Outside? {
      assert Owns(s.pcs[r.threads[n]], pc.token);
      assert InHand(s, pc.token);
    }
  }

  // ---------- what a reset drops ----------

  /** What a reset drops is never given back: it stays live, untracked and out of
      every thread's hand for the rest of the run, whatever pointers are freed. */
  lemma {:induction false} DroppedForGood(r: Run, k: nat, n: nat, t: Address)
    requires r.Valid() && k <= n < |r.states| && t in r.states[k].dropped
    ensures t in r.states[n].dropped && t in r.states[n].live && t !in r.states[n].table && !InHand(r.states[n], t)
  {
    RunInvariant(r, n);
    if k < n { DroppedForGood(r, k, n - 1, t); }
  }

  ghost predicate AtRest(s: System) {
    s.table == {} && forall a :: a in s.pcs ==> s.pcs[a].Outside?
  }

  /** Once every thread is outside and nothing is tracked any more, what is still
      allocated is exactly what resets dropped. */
  lemma LeakIsDropped(r: Run, n: nat)
    requires r.Valid() && n < |r.states| && AtRest(r.states[n])
    ensures r.states[n].live == r.states[n].dropped
  {
    RunInvariant(r, n);
    assert forall t :: !InHand(r.states[n], t);
  }

  lemma {:induction false} DroppedByResets(r: Run, n: nat)
    requires r.Valid() && n < |r.states|
    ensures r.states[n].dropped == {} <==> forall i :: 0 <= i < n && r.moves[i].Resets? ==> r.moves[i].onDevice == {}
  {
    if n > 0 {
      DroppedByResets(r, n - 1);
      assert Enabled(r.states[n - 1], r.threads[n - 1], r.moves[n - 1]);
    }
  }

  /** So a run gives all its native memory back exactly when no reset ever found a
      token on its device. */
  lemma NoLeakIff(r: Run, n: nat)
    requires r.Valid() && n < |r.states| && AtRest(r.states[n])
    ensures r.states[n].live == {} <==> forall i :: 0 <= i < n && r.moves[i].Resets? ==> r.moves[i].onDevice == {}
  {
    LeakIsDropped(r, n);
    DroppedByResets(r, n);
  }

  const RESET_MOVES: seq<Move> := [Mallocs(1), TrackAccepted, Resets({1})]

  /** One allocation and one reset. */
  ghost function ResetRun(): Run {
    var s0 := System({}, {}, {}, map[], []);
    var s1 := Next(s0, 0, Mallocs(1));
    var s2 := Next(s1, 0, TrackAccepted);
    Run([s0, s1, s2, Next(s2, 0, Resets({1}))], [0, 0, 0], RESET_MOVES)
  }

  /** After it everything is at rest and the token is lost. */
  lemma ResetLeaks()
    ensures ResetRun().Valid() && AtRest(ResetRun().states[3]) && ResetRun().states[3].live == {1}
  {
    var r := ResetRun();
    assert r.states[1].live == {1} && r.states[2].table == {1} && r.states[3].table == {};
  }
}
