/** The periodic checkpoint save: while live there is always one on its way, and
    there may be more than one (src/engine/receive-engine.ts:666-714). */

module CutoverTicks {
  import opened EngineTypes
  import opened CutoverProtocol

  /** The timer is armed, or the save that will arm it again is under way. */
  predicate Pending(v: Saver, g: nat) {
    v.gen == g && (v.pc.Tick? || v.pc.LooseTick? || v.pc.TickSave?)
  }

  predicate Ticks(s: State) {
    exists k :: 0 <= k < |s.savers| && Pending(s.savers[k], s.generation)
  }

  /** The current generation has announced a phase: the lifecycle is its own, and not
      what a reset that is still clearing the stores has found. */
  predicate Announced(s: State) {
    exists k :: 0 <= k < |s.effects| && s.effects[k].kind.PhaseChange? && s.effects[k].during == s.generation
  }

  predicate TicksWhileLive(s: State) {
    (forall k :: 0 <= k < |s.effects| ==> s.effects[k].during <= s.generation) &&
    (s.lifecycle.Live? && Announced(s) ==> Ticks(s))
  }

  /** No phase is announced and no periodic save of the current generation ends. */
  predicate Steady(s: State, t: State) {
    t.generation == s.generation && t.lifecycle == s.lifecycle && Longer(s, t) &&
    (forall k :: |s.effects| <= k < |t.effects| ==> t.effects[k].during == s.generation && !t.effects[k].kind.PhaseChange?) &&
    |s.savers| <= |t.savers| &&
    forall k :: 0 <= k < |s.savers| && Pending(s.savers[k], s.generation) ==> Pending(t.savers[k], s.generation)
  }

  predicate Longer(s: State, t: State) {
    |s.effects| <= |t.effects| && forall k :: 0 <= k < |s.effects| ==> t.effects[k] == s.effects[k]
  }

  /** A phase is announced, and if it is live, a periodic save is on its way. */
  predicate Phased(s: State, t: State) {
    t.generation == s.generation && Longer(s, t) &&
    (forall k :: |s.effects| <= k < |t.effects| ==> t.effects[k].during == s.generation) && (t.lifecycle.Live? ==> Ticks(t))
  }

  predicate Moves(s: State, t: State) {
    Steady(s, t) || Phased(s, t)
  }

  lemma MovesKeep(s: State, t: State)
    requires TicksWhileLive(s) && Moves(s, t)
    ensures TicksWhileLive(t)
  {
    if Steady(s, t) && Announced(t) {
      var k :| 0 <= k < |t.effects| && t.effects[k].kind.PhaseChange? && t.effects[k].during == t.generation;
      assert k < |s.effects| && s.effects[k] == t.effects[k];
      if t.lifecycle.Live? {
        var j :| 0 <= j < |s.savers| && Pending(s.savers[j], s.generation);
        assert Pending(t.savers[j], t.generation);
      }
    }
  }

  /** A phase change by the current generation, before or after a steady step. */
  lemma SetPhaseMoves(s: State, s1: State, l: Lifecycle, t: State)
    requires Steady(s, s1) && var u := SetPhase(s1, s.generation, l);
             t == u.(threads := t.threads, chain := t.chain, seen := t.seen)
    ensures Moves(s, t)
  {
    if l.Live? { assert Pending(t.savers[|s1.savers| + 1], t.generation); }
  }

  lemma EntersMove(s: State, s1: State, i: nat)
    requires Steady(s, s1) && i < |s1.threads|
    ensures Moves(s, EnterCatchingUp(s1, i)) && Moves(s, EnterBufferingLive(s1, i)) && Moves(s, EnterLive(s1, i))
    ensures Moves(s, EnterJoining(s1, i)) && Moves(s, EnterRecovering(s1, i))
  {
    if !Stale(s1, i) {
      hide Moves, SetPhase;
      SetPhaseMoves(s, s1, CatchingUp, EnterCatchingUp(s1, i));
      SetPhaseMoves(s, s1, BufferingLive, EnterBufferingLive(s1, i));
      SetPhaseMoves(s, s1, Live, EnterLive(s1, i));
      SetPhaseMoves(s, s1.(bootstrapCompleted := false), Joining, EnterJoining(s1, i));
      SetPhaseMoves(s, s1.(bootstrapCompleted := true), Recovering, EnterRecovering(s1, i));
    }
  }

  /** What a periodic save does not look at. */
  lemma SameIsSteady(s: State, t: State)
    requires t.generation == s.generation && t.lifecycle == s.lifecycle && t.effects == s.effects && t.savers == s.savers
    ensures Steady(s, t) && Moves(s, t)
  {
  }

  /** One act that is not a phase change. */
  lemma ActIsSteady(s: State, t: State, doer: nat, kind: Kind)
    requires t.generation == s.generation && t.lifecycle == s.lifecycle && t.savers == s.savers && !kind.PhaseChange?
    requires t.effects == s.effects || t.effects == Act(s, doer, kind).effects
    ensures Moves(s, t)
  {
  }

  lemma DrainBufferMoves(s: State, i: nat)
    requires i < |s.threads|
    ensures Moves(s, DrainBuffer(s, i))
  {
    SameIsSteady(s, s);
    hide Moves, Steady;
    EntersMove(s, s, i);
    hide EnterLive;
    if |s.liveBuffer| > 0 { SameIsSteady(s, DrainBuffer(s, i)); }
  }

  lemma ThenSame(s: State, s1: State, t: State)
    requires Steady(s, s1)
    requires t.generation == s1.generation && t.lifecycle == s1.lifecycle && t.effects == s1.effects && t.savers == s1.savers
    ensures Steady(s, t) && Moves(s, t)
  {
  }

  lemma ThrowMoves(s: State, s1: State, i: nat)
    requires i < |s1.threads| && Steady(s, s1)
    ensures Moves(s, Throw(s1, i))
  {
    var open := s1.generation in s1.subscriptions;
    var s2 := s1.(seen := s1.seen.(reentered := open, reopened := !open));
    ThenSame(s, s1, s2);
    ThenSame(s, s1, Finish(s1, i));
    hide Moves, Steady;
    EntersMove(s, s2, i);
    hide EnterCatchingUp;
  }

  lemma OpenMoves(s: State, i: nat, a: Answer)
    requires i < |s.threads|
    ensures Moves(s, OpenAndCatchUp(s, i, a))
  {
    hide Moves, Steady;
    var s0 := s.(liveBuffer := []);
    var s1 := s.(liveBuffer := [], subscriptions := s.subscriptions + {s.threads[i].gen}, catchUps := s.catchUps + 1);
    SameIsSteady(s, s0);
    SameIsSteady(s, s1);
    ThrowMoves(s, s0, i);
    ThrowMoves(s, s1, i);
    hide Throw;
    if !a.Failed? && s1.catchUps <= 1 { SameIsSteady(s, OpenAndCatchUp(s, i, a)); }
  }

  lemma BootstrapMoves(s: State, i: nat)
    requires i < |s.threads|
    ensures Moves(s, BootstrapEnded(s, i)) && Moves(s, BootstrapFailed(s, i))
  {
    if !Stale(s, i) && s.timerFired { LateIsSteady(s, i); }
    hide Moves, Steady;
    var s1 := ClearTimer(s, s.threads[i].gen);
    var s2 := s1.(bootstrapCompleted := true, seen := s.seen.(drained := true));
    SameIsSteady(s, Finish(s, i));
    SameIsSteady(s, s1);
    SameIsSteady(s, s2);
    hide ClearTimer;
    EntersMove(s, s1, i);
    EntersMove(s, s2, i);
    hide EnterCatchingUp;
  }

  lemma LateIsSteady(s: State, i: nat)
    requires i < |s.threads| && !Stale(s, i) && s.timerFired
    ensures Moves(s, BootstrapEnded(s, i))
  {
  }

  lemma NextMoves(s: State, i: nat, x: Signal)
    requires i < |s.threads| && s.threads[i].pc.Draining?
    ensures Moves(s, OnDraining(s, i, Next(x)))
  {
    hide Moves;
    SameIsSteady(s, OnDraining(s, i, Next(x)));
  }

  lemma DrainingMoves(s: State, i: nat, a: Answer)
    requires i < |s.threads| && s.threads[i].pc.Draining?
    ensures Moves(s, OnDraining(s, i, a))
  {
    hide Moves, Steady;
    SameIsSteady(s, s);
    SameIsSteady(s, Finish(s, i));
    EntersMove(s, s, i);
    BootstrapMoves(s, i);
    hide EnterCatchingUp, EnterBufferingLive, BootstrapEnded, BootstrapFailed;
    if a.Next? { NextMoves(s, i, a.signal); }
  }

  lemma AwaitedMoves(s: State, i: nat)
    requires i < |s.threads| && s.threads[i].pc.AwaitingJob?
    ensures Moves(s, OnAwaited(s, i))
  {
    hide Moves;
    DrainBufferMoves(s, i);
    hide DrainBuffer;
    var t := OnAwaited(s, i);
    if Stale(s, i) || !s.threads[i].pc.drain.BufferDrain? || t == s { SameIsSteady(s, t); }
  }

  lemma LiveRetryMoves(s: State, i: nat, a: Answer)
    requires i < |s.threads| && s.threads[i].pc.LiveRetry?
    ensures Moves(s, OnLiveRetry(s, i, a))
  {
    hide Moves, Steady;
    var due, gen, t := s.threads[i].pc.due, s.threads[i].gen, OnLiveRetry(s, i, a);
    SameIsSteady(s, s);
    if LooksAtNothing(due) {
      ActIsSteady(s, t, gen, if due.ReportDue? then ExhaustedReport else SecondWrite);
    } else if a.Failed? {
      ThrowMoves(s, s, i);
    } else if !Stale(s, i) && (a.Retry? || a.Ended?) {
      SetPhaseMoves(s, s, if a.Retry? then RetryingDeferred else Live, t);
    } else {
      ActIsSteady(s, t, gen, if a.Next? then Emission else Write);
    }
  }

  lemma ClearingMoves(s: State, i: nat, a: Answer)
    requires i < |s.threads| && s.threads[i].pc.Clearing?
    ensures Moves(s, OnClearing(s, i, a))
  {
  }

  lemma LiveMoves(s: State, i: nat, a: Answer)
    requires i < |s.threads|
    ensures Moves(s, OnLive(s, i, a))
  {
    hide Moves;
    ActIsSteady(s, OnLive(s, i, a), s.threads[i].gen, Emission);
  }

  lemma ResumeMoves(s: State, i: nat, a: Answer)
    requires i < |s.threads|
    ensures Moves(s, OnResume(s, i, a))
  {
    hide Moves, Steady;
    var fired := if Stale(s, i) then s else s.(timerFired := true);
    SameIsSteady(s, s);
    SameIsSteady(s, fired);
    SameIsSteady(s, Finish(s, i));
    EntersMove(s, s, i);
    EntersMove(s, fired, i);
    hide EnterCatchingUp, EnterBufferingLive, EnterLive, EnterJoining, EnterRecovering, OpenAndCatchUp, DrainBuffer, OnDraining,
      OnAwaited, OnLiveRetry, OnLive, OnClearing;
    match s.threads[i].pc
    case Loading =>
    case Draining(_) => DrainingMoves(s, i, a);
    case AwaitingJob(_, _) => AwaitedMoves(s, i);
    case CatchSave => OpenMoves(s, i, a);
    case BufferSave => DrainBufferMoves(s, i);
    case LiveSave => LiveMoves(s, i, a);
    case LiveRetry(_) => LiveRetryMoves(s, i, a);
    case Clearing(_) => ClearingMoves(s, i, a);
    case JoinTimer =>
    case _ => SameIsSteady(s, OnResume(s, i, a));
  }

  lemma JobStepMoves(s: State, k: JobAction)
    ensures Moves(s, OnJobStep(s, k))
  {
    hide Moves, Steady;
    var t := OnJobStep(s, k);
    SameIsSteady(s, s);
    if s.chain.running.Some? && (k.EnterRetry? || k.ExitRetry?) && t.lifecycle != s.lifecycle {
      SetPhaseMoves(s, s, t.lifecycle, t);
    } else if s.chain.running.Some? {
      hide SetPhase;
      JobActs(s, k);
    }
  }

  lemma JobActs(s: State, k: JobAction)
    requires s.chain.running.Some? && OnJobStep(s, k).lifecycle == s.lifecycle
    ensures Moves(s, OnJobStep(s, k))
  {
    hide Moves, Steady;
    var run := s.chain.running.value;
    SameIsSteady(s, s);
    if k.ExitRetry? && run.retrying && !run.job.origin.Local? && Resumes(run.due) && run.due.Idle? && run.job.gen == s.generation {
      SetPhaseMoves(s, s, Live, OnJobStep(s, k));
    } else {
      ActIsSteady(s, OnJobStep(s, k), run.job.gen, if run.due.AnnounceDue? || k.DoEmit? then Emission else Write);
    }
  }

  lemma SaverMoves(s: State, k: nat, a: SaveAnswer)
    requires k < |s.savers|
    ensures Moves(s, OnSaver(s, k, a))
  {
    if s.savers[k].gen == s.generation && s.savers[k].pc.TickSave? {
      TickSaveMoves(s, k, a);
    } else if Pending(s.savers[k], s.generation) {
      TickMoves(s, k, a);
    } else {
      hide Phased;
    }
  }

  lemma TickSaveMoves(s: State, k: nat, a: SaveAnswer)
    requires k < |s.savers| && s.savers[k].gen == s.generation && s.savers[k].pc.TickSave?
    ensures Moves(s, OnSaver(s, k, a))
  {
    if s.lifecycle.Live? { hide Phased; } else { hide Steady; }
  }

  lemma TickMoves(s: State, k: nat, a: SaveAnswer)
    requires k < |s.savers| && Pending(s.savers[k], s.generation) && !s.savers[k].pc.TickSave?
    ensures Moves(s, OnSaver(s, k, a))
  {
    hide Phased;
  }

  lemma DueIsSteady(s: State, lands: bool)
    ensures Steady(s, OnJobDue(s, lands))
  {
  }

  lemma OldJobMoves(s: State, c: nat, k: OldAction)
    ensures Moves(s, OnOldJob(s, c, k))
  {
    SameIsSteady(s, s);
    hide Phased;
  }

  /** A new generation has announced nothing yet, or has just announced a phase
      that is not live. */
  lemma NewGeneration(s: State, t: State)
    requires TicksWhileLive(s) && t.generation == s.generation + 1 && Longer(s, t)
    requires forall k :: |s.effects| <= k < |t.effects| ==> t.effects[k].during == t.generation
    requires t.lifecycle.Live? ==> forall k :: |s.effects| <= k < |t.effects| ==> !t.effects[k].kind.PhaseChange?
    ensures TicksWhileLive(t)
  {
  }

  lemma StepTicks(s: State, l: Label)
    requires TicksWhileLive(s)
    ensures TicksWhileLive(Step(s, l))
  {
    var t := Step(s, l);
    match l
    case Start(welcome) => if t != s { NewGeneration(s, t); }
    case Stop => if t != s { NewGeneration(s, t); }
    case Reset => NewGeneration(s, t);
    case _ => OtherMoves(s, l); MovesKeep(s, t);
  }

  lemma OtherMoves(s: State, l: Label)
    requires !l.Start? && !l.Stop? && !l.Reset?
    ensures Moves(s, Step(s, l))
  {
    SameIsSteady(s, s);
    hide Steady, Phased, OnResume, OnJobStep, OnSaver, OnOldJob;
    match l
    case Resume(i, a) => if i < |s.threads| { ResumeMoves(s, i, a); }
    case JobStep(k) => JobStepMoves(s, k);
    case SaverStep(k, a) => if k < |s.savers| { SaverMoves(s, k, a); }
    case OldJob(c, k) => OldJobMoves(s, c, k);
    case JobDue(lands) => DueIsSteady(s, lands);
    case _ => SameIsSteady(s, Step(s, l));
  }

  lemma {:induction false} RunTicks(s: State, ls: seq<Label>)
    requires TicksWhileLive(s)
    ensures TicksWhileLive(Run(s, ls))
    decreases ls
  {
    hide Step, TicksWhileLive;
    if |ls| > 0 {
      StepTicks(s, ls[0]);
      RunTicks(Step(s, ls[0]), ls[1..]);
    }
  }

  /** In every run: while the current generation is live, the timer of a periodic save
      is armed or the save that will arm it again is under way. */
  lemma AlwaysTicksWhileLive(ls: seq<Label>)
    requires Run(INITIAL, ls).lifecycle.Live? && Announced(Run(INITIAL, ls))
    ensures Ticks(Run(INITIAL, ls))
  {
    hide Run;
    RunTicks(INITIAL, ls);
  }

  /** There may be two: the timer fires, a handler on the queue makes its retry pass
      while the save is under way, and the save then arms a second timer. The first
      one has lost its handle, so that no later phase change clears it. */
  lemma TimerDoubles(s: State, k: nat, l: Lifecycle)
    requires s.lifecycle.Live? && k < |s.savers| && s.savers[k] == Saver(s.generation, Tick)
    requires s.chain.running.Some? && var run := s.chain.running.value;
             run.job.gen == s.generation && !run.job.origin.Local? && run.due.Idle? && !run.retrying
    ensures var t := Run(s, [SaverStep(k, Saved), JobStep(EnterRetry), JobStep(ExitRetry), SaverStep(k, Saved)]);
            t.lifecycle.Live? && k < |t.savers| && t.savers[k] == Saver(s.generation, Tick) &&
            exists j :: 0 <= j < |t.savers| && j != k && t.savers[j] == Saver(s.generation, LooseTick) &&
                        SetPhase(t, s.generation, l).savers[j] == Saver(s.generation, LooseTick)
  {
    var s1 := Step(s, SaverStep(k, Saved));
    var s3 := Step(Step(s1, JobStep(EnterRetry)), JobStep(ExitRetry));
    Four(s, SaverStep(k, Saved), JobStep(EnterRetry), JobStep(ExitRetry), SaverStep(k, Saved));
    TimerFires(s, k);
    PassArms(s1, k);
    hide Run, Step, SetPhase;
    SaveArms(s3, k, |s3.savers| - 1, l);
  }

  lemma TimerFires(s: State, k: nat)
    requires k < |s.savers| && s.savers[k] == Saver(s.generation, Tick)
    ensures var t := Step(s, SaverStep(k, Saved));
            t.lifecycle == s.lifecycle && t.generation == s.generation && t.chain == s.chain && k < |t.savers| &&
            t.savers[k] == Saver(s.generation, TickSave)
  {
  }

  /** The save arms a timer beside another that is armed already. */
  lemma SaveArms(s: State, k: nat, j: nat, l: Lifecycle)
    requires s.lifecycle.Live? && k < |s.savers| && s.savers[k] == Saver(s.generation, TickSave)
    requires j < |s.savers| && s.savers[j] == Saver(s.generation, Tick)
    ensures var t := Step(s, SaverStep(k, Saved));
            t.lifecycle.Live? && |t.savers| == |s.savers| && t.savers[k] == Saver(s.generation, Tick) &&
            t.savers[j] == Saver(s.generation, LooseTick) && SetPhase(t, s.generation, l).savers[j] == Saver(s.generation, LooseTick)
  {
  }

  /** A retry pass on the queue while the save of slot `k` is under way. */
  lemma PassArms(s: State, k: nat)
    requires s.lifecycle.Live? && k < |s.savers| && s.savers[k] == Saver(s.generation, TickSave)
    requires s.chain.running.Some? && var run := s.chain.running.value;
             run.job.gen == s.generation && !run.job.origin.Local? && run.due.Idle? && !run.retrying
    ensures var t := Step(Step(s, JobStep(EnterRetry)), JobStep(ExitRetry));
            t.lifecycle.Live? && t.generation == s.generation && |t.savers| > |s.savers| && t.savers[k] == s.savers[k] &&
            t.savers[|t.savers| - 1] == Saver(s.generation, Tick)
  {
  }

  lemma Four(s: State, a: Label, b: Label, c: Label, d: Label)
    ensures Run(s, [a, b, c, d]) == Step(Step(Step(Step(s, a), b), c), d)
  {
    hide Step;
    assert [a, b, c, d][1..] == [b, c, d] && [b, c, d][1..] == [c, d] && [c, d][1..] == [d] && [d][1..] == [];
    assert Run(s, [a, b, c, d]) == Run(Step(s, a), [b, c, d]);
    assert Run(Step(s, a), [b, c, d]) == Run(Step(Step(s, a), b), [c, d]);
    assert Run(Step(Step(s, a), b), [c, d]) == Run(Step(Step(Step(s, a), b), c), [d]);
  }
}
