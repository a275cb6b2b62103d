/** Scenario documents and the runner that executes them. */
module Scenario {
  import opened Accounting
  import opened Text

  type Args = seq<string>

  /** A step's delay, as `time.ParseDuration` reads it. */
  datatype Delay = NoDelay | Nanoseconds(n: int) | Malformed

  datatype Step = Step(name: string, after: Delay, event: string, args: Args)

  datatype Base = Base(profile: string, count: int, topology: string, devices: nat)

  datatype Document = Document(version: int, base: Option<Base>, initial: seq<Args>, steps: seq<Step>,
                               cleanup: seq<Args>)

  // ---------- validity ----------

  ghost predicate ValidBase(b: Base) {
    var profile, topology, devices := b.profile != "", b.topology != "", b.devices > 0;
    && (profile || topology || devices)
    && !(profile && topology) && !(profile && devices) && !(topology && devices)
    && (profile ==> b.count >= 0)
  }

  ghost predicate ValidStep(s: Step) {
    && (s.after.NoDelay? || s.event == "")
    && (s.after.NoDelay? || (s.after.Nanoseconds? && s.after.n >= 0))
    && s.args != []
  }

  ghost predicate ValidDocument(doc: Document) {
    && doc.version == 1
    && (doc.base.Some? ==> ValidBase(doc.base.value))
    && (forall i :: 0 <= i < |doc.initial| ==> doc.initial[i] != [])
    && (forall i :: 0 <= i < |doc.steps| ==> ValidStep(doc.steps[i]))
    && (forall i :: 0 <= i < |doc.cleanup| ==> doc.cleanup[i] != [])
  }

  method Validate(doc: Document) returns (ok: bool)
    ensures ok <==> ValidDocument(doc)
  {
    if doc.version != 1 { return false; }
    if doc.base.Some? {
      var b := doc.base.value;
      var selected := 0;
      if b.profile != "" { selected := selected + 1; }
      if b.topology != "" { selected := selected + 1; }
      if b.devices > 0 { selected := selected + 1; }
      if selected != 1 { return false; }
      if b.profile != "" && b.count < 0 { return false; }
    }
    for i := 0 to |doc.initial|
      invariant forall j :: 0 <= j < i ==> doc.initial[j] != []
    {
      if |doc.initial[i]| == 0 { return false; }
    }
    for i := 0 to |doc.steps|
      invariant forall j :: 0 <= j < i ==> ValidStep(doc.steps[j])
    {
      var step := doc.steps[i];
      if !step.after.NoDelay? && step.event != "" { return false; }
      if !step.after.NoDelay? {
        if step.after.Malformed? { return false; }
        if step.after.n < 0 { return false; }
      }
      if |step.args| == 0 { return false; }
    }
    for i := 0 to |doc.cleanup|
      invariant forall j :: 0 <= j < i ==> doc.cleanup[j] != []
    {
      if |doc.cleanup[i]| == 0 { return false; }
    }
    return true;
  }

  // ---------- events ----------

  /** What the event reader delivers: a line, a read error, or the news that the
      context was cancelled first. */
  datatype Line = Line(text: string) | ReadError | ContextDone

  predicate Named(l: Line, name: string) { l.Line? && Trim(l.text) == name }

  /** White space around a name does not matter, anything else does. */
  lemma NamedIff(a: string, text: string, b: string, name: string)
    requires Blank(a) && Blank(b) && text != "" && !IsSpace(text[0]) && !IsSpace(text[|text| - 1])
    ensures Named(Line(a + text + b), name) <==> name == text
  {
    TrimTail(a + text, b);
    TrimLeftSpaces(a, text);
    TrimmedAlready(text);
  }

  /** Position of the first line with that name before any interruption, or -1. */
  function FirstNamed(lines: seq<Line>, name: string): (r: int)
    ensures -1 <= r < |lines|
    ensures r >= 0 ==> Named(lines[r], name) && forall j :: 0 <= j < r ==> lines[j].Line? && !Named(lines[j], name)
    ensures r < 0 ==> forall k :: 0 <= k < |lines| && Named(lines[k], name) ==>
             exists j :: 0 <= j < k && !lines[j].Line?
  {
    if lines == [] || !lines[0].Line? then -1
    else if Named(lines[0], name) then 0
    else
      var r := FirstNamed(lines[1..], name);
      assert forall j :: 1 <= j < |lines| ==> lines[j] == lines[1..][j - 1];
      if r < 0 then
        assert forall k :: 0 <= k < |lines| && Named(lines[k], name) ==> exists j :: 0 <= j < k && !lines[j].Line? by {
          forall k | 0 <= k < |lines| && Named(lines[k], name) ensures exists j :: 0 <= j < k && !lines[j].Line? {
            assert Named(lines[1..][k - 1], name);
            var j :| 0 <= j < k - 1 && !lines[1..][j].Line?;
            assert !lines[j + 1].Line?;
          }
        }
        -1
      else r + 1
  }

  /** Waiting for the names one after the other, each on the first line that has
      it; what is left of the input, or failure. */
  function Awaited(lines: seq<Line>, names: seq<string>): Option<seq<Line>>
    decreases |names|
  {
    if names == [] then Some(lines)
    else
      var i := FirstNamed(lines, names[0]);
      if i < 0 then None else Awaited(lines[i + 1..], names[1..])
  }

  /** The names occur in the lines, in order, at the positions `at`. */
  ghost predicate Embeds(names: seq<string>, lines: seq<Line>, at: seq<nat>) {
    && |at| == |names|
    && (forall i, j :: 0 <= i < j < |at| ==> at[i] < at[j])
    && forall i :: 0 <= i < |at| ==> at[i] < |lines| && Named(lines[at[i]], names[i])
  }

  ghost predicate Subsequence(names: seq<string>, lines: seq<Line>) { exists at :: Embeds(names, lines, at) }

  ghost predicate AllLines(lines: seq<Line>) { forall i :: 0 <= i < |lines| ==> lines[i].Line? }

  /** Taking the first match every time misses nothing: it gets through exactly
      when the names are a subsequence of the (trimmed) lines. */
  lemma {:induction false} GreedyIsComplete(names: seq<string>, lines: seq<Line>)
    requires AllLines(lines)
    ensures Awaited(lines, names).Some? <==> Subsequence(names, lines)
    decreases |names|
  {
    if names == [] {
      assert Embeds(names, lines, []);
    } else {
      var i := FirstNamed(lines, names[0]);
      if i >= 0 {
        GreedyIsComplete(names[1..], lines[i + 1..]);
        if Subsequence(names[1..], lines[i + 1..]) {
          var at :| Embeds(names[1..], lines[i + 1..], at);
          Prepend(names, lines, i, at);
        }
        if Subsequence(names, lines) {
          var at :| Embeds(names, lines, at);
          Behead(names, lines, i, at);
        }
      } else {
        assert forall k :: 0 <= k < |lines| ==> !Named(lines[k], names[0]);
      }
    }
  }

  lemma Prepend(names: seq<string>, lines: seq<Line>, i: nat, at: seq<nat>)
    requires names != [] && i < |lines| && Named(lines[i], names[0]) && Embeds(names[1..], lines[i + 1..], at)
    ensures Subsequence(names, lines)
  {
    var all := [i] + seq(|at|, k requires 0 <= k < |at| => at[k] + i + 1);
    forall k | 0 <= k < |all| ensures all[k] < |lines| && Named(lines[all[k]], names[k]) {
      if k > 0 {
        assert Named(lines[i + 1..][at[k - 1]], names[1..][k - 1]);
      }
    }
    assert Embeds(names, lines, all);
  }

  lemma Behead(names: seq<string>, lines: seq<Line>, i: nat, at: seq<nat>)
    requires names != [] && i < |lines| && Embeds(names, lines, at) && AllLines(lines)
    requires forall j :: 0 <= j < i ==> !Named(lines[j], names[0])
    ensures Subsequence(names[1..], lines[i + 1..])
  {
    assert at[0] >= i;
    var rest := seq(|at| - 1, k requires 0 <= k < |at| - 1 => at[k + 1] - (i + 1));
    forall k | 0 <= k < |rest| ensures rest[k] < |lines[i + 1..]| && Named(lines[i + 1..][rest[k]], names[1..][k]) {
      assert at[0] < at[k + 1];
      assert lines[i + 1..][rest[k]] == lines[at[k + 1]];
    }
    assert Embeds(names[1..], lines[i + 1..], rest);
  }

  // ---------- how far a document gets ----------

  /** The names the steps wait for, in order. */
  function EventNames(steps: seq<Step>): seq<string> {
    if steps == [] then []
    else (if steps[0].event != "" then [steps[0].event] else []) + EventNames(steps[1..])
  }

  function StepArgs(steps: seq<Step>): (r: seq<Args>)
    ensures |r| == |steps| && forall i :: 0 <= i < |r| ==> r[i] == steps[i].args
  {
    seq(|steps|, i requires 0 <= i < |steps| => steps[i].args)
  }

  function MainOps(doc: Document): seq<Args> { doc.initial + StepArgs(doc.steps) }

  /** The next outcome of a script, and the outcomes after it; a used-up script
      means success. */
  function Head(s: seq<bool>): bool { s == [] || s[0] }

  function Tail(s: seq<bool>): seq<bool> { if s == [] then [] else s[1..] }

  /** The outcomes after the first `n`. */
  function Unspent(s: seq<bool>, n: nat): seq<bool> { if n <= |s| then s[n..] else [] }

  /** Outcome `i`. */
  function Outcome(s: seq<bool>, i: nat): bool { i >= |s| || s[i] }

  ghost predicate AllTrue(s: seq<bool>) { forall i :: 0 <= i < |s| ==> s[i] }

  lemma UnspentNext(s: seq<bool>, n: nat)
    ensures Tail(Unspent(s, n)) == Unspent(s, n + 1) && Head(Unspent(s, n)) == Outcome(s, n)
  {
  }

  lemma UnspentMore(s: seq<bool>, n: nat, m: nat)
    ensures Unspent(Unspent(s, n), m) == Unspent(s, n + m)
  {
  }

  /** A step's delay or event, out of the clock's outcomes and the input lines:
      what is left of both, or failure. */
  function Waited(step: Step, clock: seq<bool>, events: Option<seq<Line>>): Option<(seq<bool>, Option<seq<Line>>)> {
    var timed := step.after.Nanoseconds? && step.after.n > 0;
    if timed && !Head(clock) then None
    else
      var left := if timed then Tail(clock) else clock;
      if step.event == "" then Some((left, events))
      else if events.None? then None
      else
        var i := FirstNamed(events.value, step.event);
        if i < 0 then None else Some((left, Some(events.value[i + 1..])))
  }

  function Advanced(n: nat, r: (nat, bool)): (nat, bool) { (n + r.0, r.1) }

  /** How many operations of a list are sent, and whether all of them work: none
      is sent after one that failed. */
  function ListGets(ops: seq<Args>, executes: seq<bool>): (r: (nat, bool))
    ensures r.0 <= |ops| && (r.1 ==> r.0 == |ops|)
    decreases |ops|
  {
    if ops == [] then (0, true)
    else if !Head(executes) then (1, false)
    else
      var (n, ok) := ListGets(ops[1..], Tail(executes));
      (n + 1, ok)
  }

  /** The same for the steps: none is begun after a wait or an operation that
      failed. */
  function StepsGet(steps: seq<Step>, executes: seq<bool>, clock: seq<bool>,
                    events: Option<seq<Line>>): (r: (nat, bool))
    ensures r.0 <= |steps| && (r.1 ==> r.0 == |steps|)
    decreases |steps|
  {
    if steps == [] then (0, true)
    else
      var left := Waited(steps[0], clock, events);
      if left.None? then (0, false)
      else if !Head(executes) then (1, false)
      else
        var (n, ok) := StepsGet(steps[1..], Tail(executes), left.value.0, left.value.1);
        (n + 1, ok)
  }

  lemma StepsUnfold(steps: seq<Step>, i: nat, executes: seq<bool>, clock: seq<bool>, events: Option<seq<Line>>)
    requires i < |steps|
    ensures var left := Waited(steps[i], clock, events);
            StepsGet(steps[i..], executes, clock, events) ==
              if left.None? then (0, false)
              else if !Head(executes) then (1, false)
              else
                var (n, ok) := StepsGet(steps[i + 1..], Tail(executes), left.value.0, left.value.1);
                (n + 1, ok)
  {
    assert steps[i..][0] == steps[i] && steps[i..][1..] == steps[i + 1..];
  }

  /** What one step makes of a goal `i` steps ahead. */
  lemma StepsNext(goal: (nat, bool), steps: seq<Step>, i: nat, executes: seq<bool>, clock: seq<bool>,
                  events: Option<seq<Line>>)
    requires i < |steps| && goal == Advanced(i, StepsGet(steps[i..], executes, clock, events))
    ensures var left := Waited(steps[i], clock, events);
            && (left.None? ==> goal == (i, false)) && (left.Some? && !Head(executes) ==> goal == (i + 1, false))
            && (left.Some? && Head(executes) ==>
                  goal == Advanced(i + 1, StepsGet(steps[i + 1..], Tail(executes), left.value.0, left.value.1)))
  {
    StepsUnfold(steps, i, executes, clock, events);
  }

  /** The initial operations, then the steps. */
  function MainGets(doc: Document, executes: seq<bool>, clock: seq<bool>, events: Option<seq<Line>>): (r: (nat, bool))
    ensures r.0 <= |MainOps(doc)| && (r.1 ==> r.0 == |MainOps(doc)|)
  {
    var (n, ok) := ListGets(doc.initial, executes);
    if !ok then (n, false)
    else
      var (m, met) := StepsGet(doc.steps, Unspent(executes, n), clock, events);
      (n + m, met)
  }

  lemma {:induction false} ListOutcomes(ops: seq<Args>, executes: seq<bool>)
    ensures var (n, ok) := ListGets(ops, executes);
            && (forall i :: 0 <= i < n - 1 ==> Outcome(executes, i))
            && (n > 0 ==> Outcome(executes, n - 1) == ok) && (n == 0 ==> ok)
    decreases |ops|
  {
    if ops != [] && Head(executes) {
      ListOutcomes(ops[1..], Tail(executes));
      forall i | 0 < i ensures Outcome(executes, i) == Outcome(Tail(executes), i - 1) {
      }
    }
  }

  lemma {:induction false} StepsOutcomes(steps: seq<Step>, executes: seq<bool>, clock: seq<bool>,
                                         events: Option<seq<Line>>)
    ensures var (n, ok) := StepsGet(steps, executes, clock, events);
            && (forall i :: 0 <= i < n - 1 ==> Outcome(executes, i))
            && (n > 0 && !Outcome(executes, n - 1) ==> !ok)
            && (!ok && n > 0 && Outcome(executes, n - 1) ==> n < |steps|) && (!ok && n == 0 ==> steps != [])
    decreases |steps|
  {
    if steps != [] {
      var left := Waited(steps[0], clock, events);
      if left.Some? && Head(executes) {
        StepsOutcomes(steps[1..], Tail(executes), left.value.0, left.value.1);
        forall i | 0 < i ensures Outcome(executes, i) == Outcome(Tail(executes), i - 1) {
        }
      }
    }
  }

  /** A document stops at its first failure: every operation sent but the last
      worked; and if it did not get through, either the last one sent failed, or it
      worked and a wait of the next step failed. */
  lemma StopsAtFirstFailure(doc: Document, executes: seq<bool>, clock: seq<bool>, events: Option<seq<Line>>)
    ensures var (n, ok) := MainGets(doc, executes, clock, events);
            && (forall i :: 0 <= i < n - 1 ==> Outcome(executes, i))
            && (ok ==> n == |MainOps(doc)| && (n > 0 ==> Outcome(executes, n - 1)))
            && (!ok ==> (n > 0 && !Outcome(executes, n - 1)) || |doc.initial| <= n < |MainOps(doc)|)
  {
    var (n, ok) := ListGets(doc.initial, executes);
    ListOutcomes(doc.initial, executes);
    if ok {
      var rest := Unspent(executes, n);
      StepsOutcomes(doc.steps, rest, clock, events);
      var (m, met) := StepsGet(doc.steps, rest, clock, events);
      InitialThenSteps(executes, n, rest, m, met, |doc.steps|);
    }
  }

  /** `n` outcomes that work, then those of `m` steps. */
  lemma InitialThenSteps(executes: seq<bool>, n: nat, rest: seq<bool>, m: nat, met: bool, steps: nat)
    requires rest == Unspent(executes, n) && (forall i :: 0 <= i < n ==> Outcome(executes, i))
    requires (forall i :: 0 <= i < m - 1 ==> Outcome(rest, i)) && (m > 0 && !Outcome(rest, m - 1) ==> !met)
    requires (!met && m > 0 && Outcome(rest, m - 1) ==> m < steps) && (!met && m == 0 ==> steps > 0)
    ensures forall i :: 0 <= i < n + m - 1 ==> Outcome(executes, i)
    ensures met && n + m > 0 ==> Outcome(executes, n + m - 1)
    ensures !met ==> (n + m > 0 && !Outcome(executes, n + m - 1)) || m < steps
  {
    forall i | 0 <= i < m ensures Outcome(executes, n + i) == Outcome(rest, i) {
      UnspentOutcome(executes, n, i);
    }
    forall i | 0 <= i < n + m - 1 ensures Outcome(executes, i) {
      if i >= n { assert Outcome(executes, n + (i - n)) == Outcome(rest, i - n); }
    }
    if m > 0 { assert Outcome(executes, n + (m - 1)) == Outcome(rest, m - 1); }
  }

  lemma UnspentOutcome(s: seq<bool>, n: nat, i: nat)
    ensures Outcome(Unspent(s, n), i) == Outcome(s, n + i)
  {
  }

  /** The events can all be awaited. */
  ghost predicate Reachable(events: Option<seq<Line>>, names: seq<string>) {
    if events.None? then names == [] else Awaited(events.value, names).Some?
  }

  lemma ReachableIff(events: Option<seq<Line>>, names: seq<string>)
    ensures events.None? ==> (Reachable(events, names) <==> names == [])
    ensures events.Some? && AllLines(events.value) ==> (Reachable(events, names) <==> Subsequence(names, events.value))
  {
    if events.Some? && AllLines(events.value) { GreedyIsComplete(names, events.value); }
  }

  /** How many timed waits the steps have. */
  function Delays(steps: seq<Step>): nat {
    if steps == [] then 0
    else (if steps[0].after.Nanoseconds? && steps[0].after.n > 0 then 1 else 0) + Delays(steps[1..])
  }

  /** Each timed wait, up to the `n`-th, comes to its end. */
  ghost predicate WaitsOut(clock: seq<bool>, n: nat) { forall i :: 0 <= i < n ==> Outcome(clock, i) }

  /** With operations working, the steps get through exactly when each timed wait
      comes to its end and their events can be awaited one after the other. */
  lemma {:induction false} StepsGetThrough(steps: seq<Step>, executes: seq<bool>, clock: seq<bool>,
                                           events: Option<seq<Line>>)
    requires AllTrue(executes)
    ensures StepsGet(steps, executes, clock, events).1
       <==> WaitsOut(clock, Delays(steps)) && Reachable(events, EventNames(steps))
    decreases |steps|
  {
    if steps != [] {
      var left, later := Waited(steps[0], clock, events), EventNames(steps[1..]);
      if steps[0].event == "" {
        assert [] + later == later;
      } else {
        assert ([steps[0].event] + later)[1..] == later;
      }
      WaitsNext(steps[0], clock, Delays(steps[1..]));
      if left.Some? { StepsGetThrough(steps[1..], Tail(executes), left.value.0, left.value.1); }
    }
  }

  lemma WaitsNext(step: Step, clock: seq<bool>, n: nat)
    ensures var timed := step.after.Nanoseconds? && step.after.n > 0;
            timed ==> (WaitsOut(clock, n + 1) <==> Head(clock) && WaitsOut(Tail(clock), n))
  {
    if Head(clock) && WaitsOut(Tail(clock), n) {
      forall i | 0 <= i < n + 1 ensures Outcome(clock, i) {
        if i > 0 { assert Outcome(Tail(clock), i - 1); }
      }
    }
    if WaitsOut(clock, n + 1) {
      assert Outcome(clock, 0);
      forall i | 0 <= i < n ensures Outcome(Tail(clock), i) { assert Outcome(clock, i + 1); }
    }
  }

  /** ... and a document exactly when, besides, its steps' events are a subsequence
      of the input lines. */
  lemma GetsThroughIff(doc: Document, executes: seq<bool>, clock: seq<bool>, events: Option<seq<Line>>)
    requires AllTrue(executes)
    ensures var met, names := MainGets(doc, executes, clock, events).1, EventNames(doc.steps);
            var waits := WaitsOut(clock, Delays(doc.steps));
            && (events.None? ==> (met <==> waits && names == []))
            && (events.Some? && AllLines(events.value) ==> (met <==> waits && Subsequence(names, events.value)))
  {
    ListOutcomes(doc.initial, executes);
    var (n, ok) := ListGets(doc.initial, executes);
    StepsGetThrough(doc.steps, Unspent(executes, n), clock, events);
    ReachableIff(events, EventNames(doc.steps));
  }

  // ---------- the runner ----------

  /** `executes` and `clock` say how the coming operations and timed waits end;
      used-up scripts mean success.  `log` is every operation sent out. */
  class Runner {
    var executes: seq<bool>
    var clock: seq<bool>
    var events: Option<seq<Line>>
    var log: seq<Args>

    constructor (executes: seq<bool>, clock: seq<bool>, events: Option<seq<Line>>)
      ensures this.executes == executes && this.clock == clock && this.events == events && log == []
    {
      this.executes, this.clock, this.events, log := executes, clock, events, [];
    }

    method Execute(args: Args) returns (ok: bool)
      modifies this`executes, this`log
      ensures log == old(log) + [args]
      ensures ok == Head(old(executes)) && executes == Tail(old(executes))
    {
      log := log + [args];
      if executes == [] { return true; }
      ok := executes[0];
      executes := executes[1..];
    }

    method ClockWait(nanoseconds: int) returns (ok: bool)
      modifies this`clock
      ensures ok == (nanoseconds <= 0 || Head(old(clock)))
      ensures clock == if nanoseconds <= 0 then old(clock) else Tail(old(clock))
    {
      if nanoseconds <= 0 || clock == [] { return true; }
      ok := clock[0];
      clock := clock[1..];
    }

    /** Reads lines until one, trimmed, is the wanted name. */
    method EventWait(name: string) returns (ok: bool)
      modifies this`events
      ensures old(events).None? ==> !ok && events == old(events)
      ensures old(events).Some? ==>
                var i := FirstNamed(old(events).value, name);
                events.Some? && (ok <==> i >= 0) && (ok ==> events.value == old(events).value[i + 1..])
    {
      ok := false;
      if events.None? { return; }
      var lines := events.value;
      var i := 0;
      while i < |lines| && lines[i].Line? && !ok
        invariant 0 <= i <= |lines|
        invariant !ok ==> forall j :: 0 <= j < i ==> lines[j].Line? && !Named(lines[j], name)
        invariant ok ==> 0 < i && Named(lines[i - 1], name)
                         && forall j :: 0 <= j < i - 1 ==> lines[j].Line? && !Named(lines[j], name)
        decreases |lines| - i, !ok
      {
        ok := Trim(lines[i].text) == name;
        i := i + 1;
      }
      events := Some(lines[if !ok && i < |lines| then i + 1 else i..]);
    }

    /** A list of operations, up to and including the first that fails. */
    method ExecuteAll(ops: seq<Args>) returns (ok: bool, ghost sent: nat)
      modifies this`executes, this`log
      ensures (sent, ok) == ListGets(ops, old(executes))
      ensures executes == Unspent(old(executes), sent) && log == old(log) + ops[..sent]
    {
      ok, sent := true, 0;
      assert ops[0..] == ops;
      for i := 0 to |ops|
        invariant sent == i && log == old(log) + ops[..i] && ok && executes == Unspent(old(executes), i)
        invariant ListGets(ops, old(executes)) == Advanced(i, ListGets(ops[i..], executes))
      {
        assert ops[i..][1..] == ops[i + 1..];
        UnspentNext(old(executes), i);
        ok := Execute(ops[i]);
        sent := i + 1;
        OneMoreOp(old(log), ops, i);
        if !ok { return; }
      }
    }

    /** A step's delay or its event. */
    method AwaitStep(step: Step) returns (ok: bool)
      requires ValidStep(step)
      modifies this`clock, this`events
      ensures var left := Waited(step, old(clock), old(events));
              (ok <==> left.Some?) && (ok ==> left.value == (clock, events))
    {
      ok := true;
      if !step.after.NoDelay? {
        ok := ClockWait(step.after.n);
        if !ok { return; }
      }
      if step.event != "" { ok := EventWait(step.event); }
    }

    /** One step: its wait, then its operation. */
    method PerformStep(step: Step) returns (ok: bool, ghost sent: bool)
      requires ValidStep(step)
      modifies this
      ensures var left := Waited(step, old(clock), old(events));
              && sent == left.Some? && ok == (sent && Head(old(executes)))
              && (sent ==> left.value == (clock, events))
      ensures executes == if sent then Tail(old(executes)) else old(executes)
      ensures log == if sent then old(log) + [step.args] else old(log)
    {
      ok := AwaitStep(step);
      sent := ok;
      if ok { ok := Execute(step.args); }
    }

    /** The steps, up to the first that fails. */
    method PerformSteps(steps: seq<Step>) returns (ok: bool, ghost sent: nat)
      requires forall i :: 0 <= i < |steps| ==> ValidStep(steps[i])
      modifies this
      ensures (sent, ok) == StepsGet(steps, old(executes), old(clock), old(events))
      ensures executes == Unspent(old(executes), sent) && log == old(log) + StepArgs(steps)[..sent]
    {
      ok, sent := true, 0;
      ghost var goal := StepsGet(steps, executes, clock, events);
      assert steps[0..] == steps;
      for i := 0 to |steps|
        invariant sent == i && log == old(log) + StepArgs(steps)[..i] && ok && executes == Unspent(old(executes), i)
        invariant goal == Advanced(i, StepsGet(steps[i..], executes, clock, events))
      {
        StepsNext(goal, steps, i, executes, clock, events);
        UnspentNext(old(executes), i);
        OneMoreOp(old(log), StepArgs(steps), i);
        ghost var done;
        ok, done := PerformStep(steps[i]);
        sent := if done then i + 1 else i;
        if !ok { return; }
      }
    }

    /** The initial operations, then the steps, up to the first failure. */
    method Perform(doc: Document) returns (ok: bool, ghost sent: nat)
      requires ValidDocument(doc)
      modifies this
      ensures (sent, ok) == MainGets(doc, old(executes), old(clock), old(events))
      ensures executes == Unspent(old(executes), sent) && log == old(log) + MainOps(doc)[..sent]
    {
      ok, sent := ExecuteAll(doc.initial);
      InitialPrefix(old(log), doc, sent);
      if !ok { return; }
      ghost var more;
      ok, more := PerformSteps(doc.steps);
      UnspentMore(old(executes), sent, more);
      StepsPrefix(old(log), doc, more);
      sent := sent + more;
    }

    /** Every operation of the list, also after one has failed. */
    method CleanUp(ops: seq<Args>) returns (ok: bool)
      modifies this`executes, this`log
      ensures log == old(log) + ops && executes == Unspent(old(executes), |ops|)
      ensures ok <==> forall i :: 0 <= i < |ops| ==> Outcome(old(executes), i)
    {
      ok := true;
      for i := 0 to |ops|
        invariant log == old(log) + ops[..i] && executes == Unspent(old(executes), i)
        invariant ok <==> forall j :: 0 <= j < i ==> Outcome(old(executes), j)
      {
        UnspentNext(old(executes), i);
        var done := Execute(ops[i]);
        OneMoreOp(old(log), ops, i);
        ok := ok && done;
      }
      assert ops[..|ops|] == ops;
    }

    /** Runs a document.  An invalid one does nothing.  Of a valid one, the main
        operations are sent in order exactly as far as `MainGets` tells, and then
        every cleanup operation once, in order, whatever happened; the run succeeds
        exactly when the main part got through and every cleanup operation worked. */
    method Run(doc: Document) returns (ok: bool, ghost sent: nat)
      modifies this
      ensures !ValidDocument(doc) ==> !ok && log == old(log) && executes == old(executes)
      ensures ValidDocument(doc) ==>
                var (n, met) := MainGets(doc, old(executes), old(clock), old(events));
                && sent == n && log == old(log) + MainOps(doc)[..n] + doc.cleanup
                && executes == Unspent(old(executes), n + |doc.cleanup|)
                && (ok <==> met && forall i :: 0 <= i < |doc.cleanup| ==> Outcome(Unspent(old(executes), n), i))
    {
      sent := 0;
      var valid := Validate(doc);
      if !valid { return false, 0; }
      ok, sent := Perform(doc);
      UnspentMore(old(executes), sent, |doc.cleanup|);
      var cleaned := CleanUp(doc.cleanup);
      ok := ok && cleaned;
    }
  }

  lemma InitialPrefix(log: seq<Args>, doc: Document, sent: nat)
    requires sent <= |doc.initial|
    ensures log + doc.initial[..sent] == log + MainOps(doc)[..sent]
  {
    assert doc.initial[..sent] == MainOps(doc)[..sent];
  }

  lemma StepsPrefix(log: seq<Args>, doc: Document, more: nat)
    requires more <= |doc.steps|
    ensures log + doc.initial[..|doc.initial|] + StepArgs(doc.steps)[..more]
         == log + MainOps(doc)[..|doc.initial| + more]
  {
    assert doc.initial + StepArgs(doc.steps)[..more] == MainOps(doc)[..|doc.initial| + more];
  }

  lemma OneMoreOp(log: seq<Args>, ops: seq<Args>, i: nat)
    requires i < |ops|
    ensures log + ops[..i] + [ops[i]] == log + ops[..i + 1]
  {
    assert ops[..i] + [ops[i]] == ops[..i + 1];
  }
}
