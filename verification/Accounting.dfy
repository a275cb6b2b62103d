/** Shared vocabulary of the VRAM accounting system: process records, device
    counters, lookups by PID and the process-owned memory of a list. */
module Accounting {

  const MIB: nat := 1048576
  const MAX64: nat := 0xFFFF_FFFF_FFFF_FFFF

  // Go's unsigned integers.  A value of one of these types can only be built
  // from an expression proved to be in range, so no operation below wraps.
  type u64 = x: int | 0 <= x <= 0xFFFF_FFFF_FFFF_FFFF
  type u32 = x: int | 0 <= x <= 0xFFFF_FFFF

  datatype Option<+T> = None | Some(value: T)

  datatype Result<+T> = Ok(value: T) | Err(error: Error)

  datatype Error =
    | Overflow
    | InsufficientMemory
    | ExceedsPool
    | BelowOwned
    | NotReleasable
    | OwnedExceedsUsed
    | DuplicatePid(pid: u32)
    | ChangedConcurrently(pid: u32)
    | InvalidProcess
    | OverCapacity
    | GpuNotFound
    | ReadFailed
    | Unreadable
    | WriteFailed
    | InvalidRequest
    | OutOfMemory

  datatype Process = Process(
    pid: u32, kind: string, name: string, memMiB: u64,
    sm: u32, mem: u32, enc: u32, dec: u32)

  /** One simulated GPU; the counters are bytes. */
  datatype Device = Device(total: u64, used: u64, free: u64, procs: seq<Process>)

  predicate ValidProcess(p: Process) {
    && p.pid != 0
    && (p.kind == "" || p.kind == "C" || p.kind == "G")
    && p.sm <= 100 && p.mem <= 100 && p.enc <= 100 && p.dec <= 100
  }

  predicate AllValid(s: seq<Process>) {
    forall i :: 0 <= i < |s| ==> ValidProcess(s[i])
  }

  // ---------- lookup by PID ----------

  predicate Distinct(s: seq<Process>) {
    forall i, j :: 0 <= i < j < |s| ==> s[i].pid != s[j].pid
  }

  /** Position of the first record for `pid` at or after `i`, or -1. */
  function IndexFrom(s: seq<Process>, pid: u32, i: nat): (r: int)
    requires i <= |s|
    ensures r == -1 || i <= r < |s|
    ensures r >= 0 ==> s[r].pid == pid && forall j :: i <= j < r ==> s[j].pid != pid
    ensures r < 0 ==> forall j :: i <= j < |s| ==> s[j].pid != pid
    decreases |s| - i
  {
    if i == |s| then -1
    else if s[i].pid == pid then i
    else IndexFrom(s, pid, i + 1)
  }

  function IndexOf(s: seq<Process>, pid: u32): int {
    IndexFrom(s, pid, 0)
  }

  /** The record a list holds for `pid`. */
  function Find(s: seq<Process>, pid: u32): (r: Option<Process>)
    ensures r.Some? ==> r.value in s && r.value.pid == pid
    ensures r.None? <==> forall j :: 0 <= j < |s| ==> s[j].pid != pid
  {
    var i := IndexOf(s, pid);
    if i < 0 then None else Some(s[i])
  }

  lemma FindAt(s: seq<Process>, i: nat)
    requires Distinct(s) && i < |s|
    ensures IndexOf(s, s[i].pid) == i && Find(s, s[i].pid) == Some(s[i])
  {
    var k := IndexOf(s, s[i].pid);
  }

  lemma FindIff(s: seq<Process>, p: Process)
    requires Distinct(s)
    ensures p in s <==> Find(s, p.pid) == Some(p)
  {
    if p in s {
      var i :| 0 <= i < |s| && s[i] == p;
      FindAt(s, i);
    }
  }

  lemma FindConcat(a: seq<Process>, b: seq<Process>, pid: u32)
    ensures Find(a + b, pid) == if Find(a, pid).Some? then Find(a, pid) else Find(b, pid)
  {
    var s := a + b;
    var i, j, k := IndexOf(a, pid), IndexOf(b, pid), IndexOf(s, pid);
    if i >= 0 {
      assert s[i] == a[i];
      assert k <= i && s[k] == a[k];
    } else if j >= 0 {
      assert s[|a| + j] == b[j];
      assert forall x :: 0 <= x < |a| ==> s[x] == a[x];
      assert s[k] == b[k - |a|];
    }
  }

  // ---------- process-owned memory ----------

  ghost function OwnedMiB(s: seq<Process>): nat {
    if s == [] then 0 else OwnedMiB(s[..|s| - 1]) + s[|s| - 1].memMiB
  }

  ghost function Owned(s: seq<Process>): nat { MIB * OwnedMiB(s) }

  lemma {:induction false} OwnedConcat(a: seq<Process>, b: seq<Process>)
    ensures OwnedMiB(a + b) == OwnedMiB(a) + OwnedMiB(b)
  {
    if b == [] {
      assert a + b == a;
    } else {
      var n := |b| - 1;
      assert (a + b)[..|a + b| - 1] == a + b[..n];
      OwnedConcat(a, b[..n]);
    }
  }

  lemma OwnedPrefix(s: seq<Process>, i: nat)
    requires i <= |s|
    ensures OwnedMiB(s[..i]) <= OwnedMiB(s)
  {
    assert s == s[..i] + s[i..];
    OwnedConcat(s[..i], s[i..]);
  }

  lemma OwnedSplit(s: seq<Process>, i: nat)
    requires i < |s|
    ensures OwnedMiB(s) == OwnedMiB(s[..i]) + s[i].memMiB + OwnedMiB(s[i + 1..])
  {
    assert s == s[..i + 1] + s[i + 1..];
    OwnedConcat(s[..i + 1], s[i + 1..]);
    assert s[..i + 1][..i] == s[..i];
  }

  lemma {:induction false} OwnedPermutation(a: seq<Process>, b: seq<Process>)
    requires multiset(a) == multiset(b)
    ensures OwnedMiB(a) == OwnedMiB(b)
  {
    if a == [] {
      assert |multiset(a)| == 0 && |multiset(b)| == |b|;
    } else {
      var n := |a| - 1;
      assert a[n] in multiset(b);
      var i :| 0 <= i < |b| && b[i] == a[n];
      OnePermuted(a, b, i);
      OwnedPermutation(a[..n], b[..i] + b[i + 1..]);
      OwnedConcat(b[..i], b[i + 1..]);
      OwnedSplit(b, i);
    }
  }

  lemma OnePermuted<T>(a: seq<T>, b: seq<T>, i: nat)
    requires a != [] && multiset(a) == multiset(b) && i < |b| && b[i] == a[|a| - 1]
    ensures multiset(a[..|a| - 1]) == multiset(b[..i] + b[i + 1..])
  {
    assert a == a[..|a| - 1] + [b[i]];
    assert b == b[..i] + [b[i]] + b[i + 1..];
    assert multiset(a[..|a| - 1]) == multiset(a) - multiset{b[i]};
    assert multiset(b[..i] + b[i + 1..]) == multiset(b) - multiset{b[i]};
  }

  lemma {:induction false} DistinctCount(s: seq<Process>, p: Process)
    requires Distinct(s)
    ensures multiset(s)[p] == if p in s then 1 else 0
  {
    if s != [] {
      var n := |s| - 1;
      assert s == s[..n] + [s[n]];
      DistinctCount(s[..n], p);
    }
  }

  /** Duplicate-free lists that agree on every PID are permutations of each
      other, so they own the same memory. */
  lemma SameRecordsSamePermutation(a: seq<Process>, b: seq<Process>)
    requires Distinct(a) && Distinct(b)
    requires forall pid: u32 :: Find(a, pid) == Find(b, pid)
    ensures multiset(a) == multiset(b)
    ensures OwnedMiB(a) == OwnedMiB(b)
  {
    forall p ensures multiset(a)[p] == multiset(b)[p] {
      DistinctCount(a, p);
      DistinctCount(b, p);
      FindIff(a, p);
      FindIff(b, p);
    }
    assert multiset(a) == multiset(b);
    OwnedPermutation(a, b);
  }
}
