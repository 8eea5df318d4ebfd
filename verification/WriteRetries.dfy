/** Concurrent persistence writes under retry and the degradation they share
    (src/engine/receive-engine.ts:424-434, 498-532, 1612-1613, 1637-1638): any
    number of calls of withPersistenceRetry, resuming in any order, with
    sessions starting and ending between any two steps. */

module WriteRetries {
  const MAX_ATTEMPTS: nat := 8

  datatype Phase = Attempting | BackingOff | Succeeded | Exhausted | Abandoned

  /** One call of withPersistenceRetry; `marked`: it has failed and been counted. */
  datatype Call = Call(gen: nat, attempt: nat, marked: bool, phase: Phase)

  /** `carried` is the count a start has taken over from before it, and
      `drainFailed` says that the same reason was also set by a failed drain;
      both are recorded for the statements only. */
  datatype State = State(generation: nat, failures: nat, degraded: bool, calls: seq<Call>, carried: nat, drainFailed: bool)

  const INITIAL := State(0, 0, false, [], 0, false)

  datatype Label = Begin | Lands(i: nat) | Fails(i: nat) | Wakes(i: nat) | Starts | Ends | DrainFails

  function WithCall(s: State, i: nat, c: Call): (r: State)
    requires i < |s.calls|
  {
    s.(calls := s.calls[i := c])
  }

  /** Math.max(0, n - 1), as it is written. */
  function Lowered(n: nat): (r: nat) {
    if n == 0 then 0 else n - 1
  }

  function OnLands(s: State, i: nat): (r: State)
    requires i < |s.calls|
  {
    var c := s.calls[i];
    if !c.phase.Attempting? then s
    else if c.gen != s.generation then WithCall(s, i, c.(phase := Abandoned))
    else
      var s1 := WithCall(s, i, c.(phase := Succeeded));
      if !c.marked then s1
      else
        var left := Lowered(s.failures);
        if left == 0 then s1.(failures := 0, degraded := false, drainFailed := false) else s1.(failures := left)
  }

  function OnFails(s: State, i: nat): (r: State)
    requires i < |s.calls|
  {
    var c := s.calls[i];
    if !c.phase.Attempting? then s
    else if c.gen != s.generation then WithCall(s, i, c.(phase := Abandoned))
    else
      var s1 := if c.marked then s else s.(failures := s.failures + 1, degraded := true);
      WithCall(s1, i, c.(marked := true, phase := if c.attempt >= MAX_ATTEMPTS then Exhausted else BackingOff))
  }

  function OnWakes(s: State, i: nat): (r: State)
    requires i < |s.calls|
  {
    var c := s.calls[i];
    if !c.phase.BackingOff? then s
    else if c.gen != s.generation then WithCall(s, i, c.(phase := Abandoned))
    else WithCall(s, i, c.(phase := Attempting, attempt := c.attempt + 1))
  }

  /** stop() and reset() zero the count and the reasons; start() does not. */
  function Step(s: State, l: Label): (r: State) {
    match l
    case Begin => s.(calls := s.calls + [Call(s.generation, 1, false, Attempting)])
    case Lands(i) => if i < |s.calls| then OnLands(s, i) else s
    case Fails(i) => if i < |s.calls| then OnFails(s, i) else s
    case Wakes(i) => if i < |s.calls| then OnWakes(s, i) else s
    case Starts => s.(generation := s.generation + 1, carried := s.failures)
    case Ends => s.(generation := s.generation + 1, failures := 0, degraded := false, carried := 0, drainFailed := false)
    case DrainFails => s.(degraded := true, drainFailed := true)
  }

  function Run(s: State, ls: seq<Label>): (r: State)
    decreases ls
  {
    if |ls| == 0 then s else Run(Step(s, ls[0]), ls[1..])
  }

  // ------------------------------------------------ the count

  predicate Outstanding(c: Call, gen: nat) {
    c.gen == gen && c.marked && !c.phase.Succeeded?
  }

  /** The current generation's writes that have failed and not yet succeeded,
      those that have given up included. */
  function Count(calls: seq<Call>, gen: nat): (r: nat) {
    if |calls| == 0 then 0 else (if Outstanding(calls[0], gen) then 1 else 0) + Count(calls[1..], gen)
  }

  lemma {:induction false} CountAppend(calls: seq<Call>, c: Call, gen: nat)
    ensures Count(calls + [c], gen) == Count(calls, gen) + if Outstanding(c, gen) then 1 else 0
  {
    if |calls| == 0 {
      assert (calls + [c])[1..] == [];
    } else {
      assert (calls + [c])[1..] == calls[1..] + [c];
      CountAppend(calls[1..], c, gen);
    }
  }

  lemma {:induction false} CountUpdate(calls: seq<Call>, i: nat, c: Call, gen: nat)
    requires i < |calls|
    ensures Count(calls[i := c], gen) ==
            Count(calls, gen) - (if Outstanding(calls[i], gen) then 1 else 0) + if Outstanding(c, gen) then 1 else 0
  {
    if i == 0 {
      assert calls[0 := c][1..] == calls[1..];
    } else {
      assert calls[i := c][1..] == calls[1..][i - 1 := c];
      CountUpdate(calls[1..], i - 1, c, gen);
    }
  }

  lemma {:induction false} NothingOutstanding(calls: seq<Call>, gen: nat)
    requires forall i :: 0 <= i < |calls| ==> calls[i].gen < gen
    ensures Count(calls, gen) == 0
  {
    if |calls| > 0 { NothingOutstanding(calls[1..], gen); }
  }

  /** The count is exact up to what a start has carried over; the reason is set
      exactly when the count is positive or a drain has failed. */
  predicate Counted(s: State) {
    (forall i :: 0 <= i < |s.calls| ==>
      s.calls[i].gen <= s.generation && 1 <= s.calls[i].attempt <= MAX_ATTEMPTS &&
      (s.calls[i].phase.BackingOff? ==> s.calls[i].attempt < MAX_ATTEMPTS) &&
      (s.calls[i].phase.Exhausted? ==> s.calls[i].attempt == MAX_ATTEMPTS)) &&
    s.failures == Count(s.calls, s.generation) + s.carried &&
    (s.degraded <==> s.failures > 0 || s.drainFailed)
  }

  lemma LandsCounted(s: State, i: nat)
    requires Counted(s) && i < |s.calls|
    ensures Counted(OnLands(s, i))
  {
    var c := s.calls[i];
    CountUpdate(s.calls, i, c.(phase := Abandoned), s.generation);
    CountUpdate(s.calls, i, c.(phase := Succeeded), s.generation);
    if Outstanding(c, s.generation) { CountPositive(s.calls, i, s.generation); }
    hide Count;
  }

  lemma FailsCounted(s: State, i: nat)
    requires Counted(s) && i < |s.calls|
    ensures Counted(OnFails(s, i))
  {
    var c := s.calls[i];
    CountUpdate(s.calls, i, c.(phase := Abandoned), s.generation);
    CountUpdate(s.calls, i, c.(marked := true, phase := if c.attempt >= MAX_ATTEMPTS then Exhausted else BackingOff), s.generation);
    hide Count;
  }

  lemma WakesCounted(s: State, i: nat)
    requires Counted(s) && i < |s.calls|
    ensures Counted(OnWakes(s, i))
  {
    var c := s.calls[i];
    CountUpdate(s.calls, i, c.(phase := Abandoned), s.generation);
    CountUpdate(s.calls, i, c.(phase := Attempting, attempt := c.attempt + 1), s.generation);
    hide Count;
  }

  lemma StepCounted(s: State, l: Label)
    requires Counted(s)
    ensures Counted(Step(s, l))
  {
    hide OnLands, OnFails, OnWakes;
    match l
    case Begin => CountAppend(s.calls, Call(s.generation, 1, false, Attempting), s.generation);
    case Starts => NothingOutstanding(s.calls, s.generation + 1);
    case Ends => NothingOutstanding(s.calls, s.generation + 1);
    case DrainFails =>
    case Lands(i) => if i < |s.calls| { LandsCounted(s, i); }
    case Fails(i) => if i < |s.calls| { FailsCounted(s, i); }
    case Wakes(i) => if i < |s.calls| { WakesCounted(s, i); }
  }

  lemma {:induction false} RunCounted(s: State, ls: seq<Label>)
    requires Counted(s)
    ensures Counted(Run(s, ls))
    decreases ls
  {
    hide Counted, Step;
    if |ls| > 0 {
      StepCounted(s, ls[0]);
      RunCounted(Step(s, ls[0]), ls[1..]);
    }
  }

  /** In every run: the failure count is the number of outstanding writes plus
      what the last start carried over, so it is exact if and only if that start
      found it at zero; the reason is set whenever the count is positive; and no
      write makes more than eight attempts. */
  lemma DegradationIsCounted(ls: seq<Label>)
    ensures var s := Run(INITIAL, ls);
            (s.failures == Count(s.calls, s.generation) <==> s.carried == 0) &&
            (s.failures > 0 ==> s.degraded) && (s.degraded ==> s.failures > 0 || s.drainFailed) &&
            forall i :: 0 <= i < |s.calls| ==>
              s.calls[i].attempt <= 8 && (s.calls[i].phase.Exhausted? ==> s.calls[i].attempt == 8)
  {
    hide Run, Count;
    EveryRunCounted(ls);
  }

  lemma EveryRunCounted(ls: seq<Label>)
    ensures Counted(Run(INITIAL, ls))
  {
    assert Counted(INITIAL);
    hide Counted, Run;
    RunCounted(INITIAL, ls);
  }

  lemma {:induction false} CountPositive(calls: seq<Call>, i: nat, gen: nat)
    requires i < |calls| && Outstanding(calls[i], gen)
    ensures Count(calls, gen) > 0
  {
    if i > 0 { CountPositive(calls[1..], i - 1, gen); }
  }

  /** A write that fails before its eighth attempt waits and is tried again. */
  lemma FailedWritesGoOn(s: State, i: nat)
    requires i < |s.calls| && s.calls[i].phase.Attempting? && s.calls[i].gen == s.generation && s.calls[i].attempt < 8
    ensures var t := Step(Step(s, Fails(i)), Wakes(i));
            t.calls[i].phase.Attempting? && t.calls[i].attempt == s.calls[i].attempt + 1
  {
  }

  /** Lowering the count never needs its floor at zero. */
  lemma FloorIsNeverNeeded(ls: seq<Label>, i: nat)
    requires var s := Run(INITIAL, ls);
             i < |s.calls| && s.calls[i].gen == s.generation && s.calls[i].marked && s.calls[i].phase.Attempting?
    ensures Run(INITIAL, ls).failures > 0
  {
    hide Run;
    EveryRunCounted(ls);
    CountPositive(Run(INITIAL, ls).calls, i, Run(INITIAL, ls).generation);
  }

  predicate SameSession(ls: seq<Label>) {
    forall l :: l in ls ==> !l.Starts? && !l.Ends?
  }

  lemma {:induction false} SessionKeepsCarried(s: State, ls: seq<Label>)
    requires Counted(s) && SameSession(ls)
    ensures Counted(Run(s, ls)) && Run(s, ls).carried == s.carried
    decreases ls
  {
    if |ls| > 0 {
      StepCounted(s, ls[0]);
      assert ls[0] in ls;
      assert Step(s, ls[0]).carried == s.carried;
      hide Counted, Step;
      SessionKeepsCarried(Step(s, ls[0]), ls[1..]);
    }
  }

  /** A write that failed before start() (a local edit, say) and is still counted
      when start() runs keeps the whole session degraded: start() gives its call
      a stale generation but leaves its count, and nothing but the session's end
      takes it back. A session started at zero has no such remainder. */
  lemma StartCarriesExactly(ls: seq<Label>, session: seq<Label>)
    requires SameSession(session)
    ensures var s := Run(INITIAL, ls);
            var t := Run(Step(s, Starts), session);
            t.failures >= s.failures && (s.failures > 0 ==> t.degraded) &&
            (t.failures == Count(t.calls, t.generation) <==> s.failures == 0)
  {
    hide Run, Step, Count;
    EveryRunCounted(ls);
    var s := Run(INITIAL, ls);
    StepCounted(s, Starts);
    assert Step(s, Starts).carried == s.failures by { StartsCarries(s); }
    SessionKeepsCarried(Step(s, Starts), session);
  }

  lemma StartsCarries(s: State)
    ensures Step(s, Starts).carried == s.failures
  {
  }

  /** A local edit's write fails before start(); the session's own write lands at
      once, none of its writes is outstanding, and it is degraded all the same. */
  lemma CarriedFailure()
    ensures var s := Run(INITIAL, [Begin, Fails(0)]);
            var t := Run(Step(s, Starts), [Wakes(0), Begin, Lands(1)]);
            s.failures == 1 && t.failures == 1 && t.degraded && Count(t.calls, t.generation) == 0 &&
            t.calls[0].phase.Abandoned? && t.calls[1].phase.Succeeded?
  {
    var s1 := Step(INITIAL, Begin);
    var s := Step(s1, Fails(0));
    assert [Begin, Fails(0)][1..] == [Fails(0)] && [Fails(0)][1..] == [];
    assert Run(INITIAL, [Begin, Fails(0)]) == Run(s1, [Fails(0)]) == s;
    assert s.calls == [Call(0, 1, true, BackingOff)];
    var t1 := Step(Step(s, Starts), Wakes(0));
    assert t1.calls == [Call(0, 1, true, Abandoned)];
    var t2 := Step(t1, Begin);
    assert t2.calls == [Call(0, 1, true, Abandoned), Call(1, 1, false, Attempting)];
    var t := Step(t2, Lands(1));
    assert t.calls == [Call(0, 1, true, Abandoned), Call(1, 1, false, Succeeded)];
    assert [Wakes(0), Begin, Lands(1)][1..] == [Begin, Lands(1)] && [Begin, Lands(1)][1..] == [Lands(1)] && [Lands(1)][1..] == [];
    assert Run(Step(s, Starts), [Wakes(0), Begin, Lands(1)]) == Run(t1, [Begin, Lands(1)]) == Run(t2, [Lands(1)]) == t;
    assert t.calls[1..] == [t.calls[1]] && [t.calls[1]][1..] == [];
    assert Count(t.calls, 1) == Count([t.calls[1]], 1) == 0;
  }
}
