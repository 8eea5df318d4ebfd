/** When catching_up is entered a second time in one start, and what that does
    (src/engine/receive-engine.ts:1241-1422, 1547-1596). */

module CutoverReentry {
  import opened Wrappers
  import opened EngineTypes
  import opened CutoverProtocol
  import opened CutoverSafety
  import opened CutoverFlow

  // ------------------------------------------------ past the bootstrap drain

  /** On its way to a bootstrap drain, in it, or its timer. */
  predicate Drains(t: Thread) {
    Early(t) || t.pc.JoinTimer? || Fetching(t)
  }

  /** No continuation of this start can open or end a bootstrap drain any more. */
  predicate Past(s: State) {
    forall i :: 0 <= i < |s.threads| && Current(s.threads[i], s.generation) ==> !Drains(s.threads[i])
  }

  /** Nothing but continuation `i` has moved, and not to a bootstrap drain. */
  predicate MovesOn(s: State, t: State, i: nat)
    requires i < |s.threads|
  {
    |t.threads| == |s.threads| && t.threads == s.threads[i := t.threads[i]] && t.threads[i].gen == s.threads[i].gen &&
    t.generation == s.generation && t.timerFired == s.timerFired && t.seen.drained == s.seen.drained &&
    (Current(t.threads[i], t.generation) ==> !Drains(t.threads[i]))
  }

  lemma EntryMovesOn(s: State, i: nat)
    requires i < |s.threads|
    ensures MovesOn(s, EnterCatchingUp(s, i), i) && MovesOn(s, EnterBufferingLive(s, i), i)
    ensures MovesOn(s, Finish(s, i), i)
  {
  }

  lemma BufferMovesOn(s: State, i: nat)
    requires i < |s.threads|
    ensures MovesOn(s, DrainBuffer(s, i), i)
  {
  }

  lemma ThrowMovesOn(s: State, i: nat)
    requires i < |s.threads|
    ensures MovesOn(s, Throw(s, i), i)
  {
    hide EnterCatchingUp;
    EntryMovesOn(s, i);
    var open := s.generation in s.subscriptions;
    var s1 := s.(seen := s.seen.(reentered := open, reopened := !open));
    EntryMovesOn(s1, i);
  }

  lemma OpenMovesOn(s: State, i: nat, a: Answer)
    requires i < |s.threads|
    ensures MovesOn(s, OpenAndCatchUp(s, i, a), i)
  {
    hide Throw;
    ThrowMovesOn(s.(liveBuffer := []), i);
    ThrowMovesOn(s.(liveBuffer := [], subscriptions := s.subscriptions + {s.threads[i].gen}, catchUps := s.catchUps + 1), i);
  }

  lemma DrainingMovesOn(s: State, i: nat, a: Answer)
    requires i < |s.threads| && s.threads[i].pc.Draining? && !Drains(s.threads[i])
    ensures MovesOn(s, OnDraining(s, i, a), i)
  {
    hide EnterCatchingUp, EnterBufferingLive, BootstrapEnded, BootstrapFailed;
    EntryMovesOn(s, i);
  }

  lemma LiveMovesOn(s: State, i: nat, a: Answer)
    requires i < |s.threads|
    ensures MovesOn(s, OnLive(s, i, a), i)
  {
  }

  lemma RetryMovesOn(s: State, i: nat, a: Answer)
    requires i < |s.threads| && s.threads[i].pc.LiveRetry?
    ensures MovesOn(s, OnLiveRetry(s, i, a), i)
  {
    hide Throw;
    var t := OnLiveRetry(s, i, a);
    if LooksAtNothing(s.threads[i].pc.due) {
      DueShape(s, t, i, a);
      hide OnLiveRetry;
    } else if a.Failed? {
      ThrowMovesOn(s, i);
    } else if !Stale(s, i) {
      PassShape(s, t, i, a);
      hide OnLiveRetry;
    }
  }

  lemma AwaitedMovesOn(s: State, i: nat)
    requires i < |s.threads| && s.threads[i].pc.AwaitingJob? && !Drains(s.threads[i])
    ensures MovesOn(s, OnAwaited(s, i), i)
  {
    hide DrainBuffer;
    EntryMovesOn(s, i);
    BufferMovesOn(s, i);
  }

  lemma ResumeMovesOn(s: State, i: nat, a: Answer)
    requires i < |s.threads| && Current(s.threads[i], s.generation) && !Drains(s.threads[i])
    ensures MovesOn(s, OnResume(s, i, a), i)
  {
    hide MovesOn, OnDraining, OnLive, OnLiveRetry, OpenAndCatchUp, DrainBuffer, OnAwaited;
    EntryMovesOn(s, i);
    BufferMovesOn(s, i);
    match s.threads[i].pc
    case Draining(_) => DrainingMovesOn(s, i, a);
    case AwaitingJob(_, _) => AwaitedMovesOn(s, i);
    case CatchSave => OpenMovesOn(s, i, a);
    case LiveSave => LiveMovesOn(s, i, a);
    case LiveRetry(_) => RetryMovesOn(s, i, a);
    case RecoverSave => RecoverMovesOn(s, i);
    case _ =>
  }

  lemma RecoverMovesOn(s: State, i: nat)
    requires i < |s.threads|
    ensures MovesOn(s, Goto(s, i, Draining(ReplayDrain)), i)
  {
  }

  /** A stale continuation moves where nobody looks. */
  predicate Aside(s: State, t: State, i: nat)
    requires i < |s.threads|
  {
    t.generation == s.generation && t.timerFired == s.timerFired && t.seen == s.seen && |t.threads| == |s.threads| &&
    t.threads == s.threads[i := t.threads[i]] && t.threads[i].gen == s.threads[i].gen
  }

  lemma StaleMoves(s: State, i: nat, a: Answer)
    requires i < |s.threads| && Stale(s, i)
    ensures Aside(s, OnResume(s, i, a), i)
  {
    hide OnDraining, OnAwaited, OnLiveRetry, OnClearing, OpenAndCatchUp, DrainBuffer;
    match s.threads[i].pc
    case Draining(_) => StaleDrain(s, i, a);
    case AwaitingJob(_, _) => StaleDrain(s, i, a);
    case LiveRetry(_) => StaleRetry(s, i, a);
    case Clearing(_) => StaleRetry(s, i, a);
    case _ =>
  }

  lemma StaleDrain(s: State, i: nat, a: Answer)
    requires i < |s.threads| && Stale(s, i)
    ensures s.threads[i].pc.Draining? ==> Aside(s, OnDraining(s, i, a), i)
    ensures s.threads[i].pc.AwaitingJob? ==> Aside(s, OnAwaited(s, i), i)
  {
  }

  lemma StaleRetry(s: State, i: nat, a: Answer)
    requires i < |s.threads| && Stale(s, i)
    ensures s.threads[i].pc.LiveRetry? ==> Aside(s, OnLiveRetry(s, i, a), i)
    ensures s.threads[i].pc.Clearing? ==> Aside(s, OnClearing(s, i, a), i)
  {
    StaleThrow(s, i);
    hide Throw;
  }

  lemma ResumeStaysPast(s: State, i: nat, a: Answer)
    requires Past(s) && i < |s.threads|
    ensures var t := OnResume(s, i, a);
            Past(t) && t.timerFired == s.timerFired && t.seen.drained == s.seen.drained
  {
    if Stale(s, i) {
      StaleMoves(s, i, a);
    } else if !s.threads[i].pc.Done? {
      ResumeMovesOn(s, i, a);
    }
    hide OnResume, Drains;
  }

  /** Past the drain, a start stays past it until its generation ends. */
  lemma StepStaysPast(s: State, l: Label)
    requires Past(s) && !Bumps(s, l)
    ensures var t := Step(s, l);
            Past(t) && t.timerFired == s.timerFired && t.seen.drained == s.seen.drained
  {
    hide Past, OnResume, OnOldJob, OnSaver, OnJobStep;
    match l
    case Resume(i, a) => if i < |s.threads| { ResumeStaysPast(s, i, a); }
    case OldJob(c, k) => OldIsBeside(s, c, k); SameThreads(s, OnOldJob(s, c, k));
    case SaverStep(k, a) => if k < |s.savers| { SaverIsBeside(s, k, a); SameThreads(s, OnSaver(s, k, a)); }
    case JobStep(k) => JobsNeverReenter(s, k); SameThreads(s, OnJobStep(s, k));
    case _ => SameThreads(s, Step(s, l));
  }

  lemma SameThreads(s: State, t: State)
    requires t.threads == s.threads && t.generation == s.generation
    ensures Past(s) <==> Past(t)
  {
  }

  lemma JobsNeverReenter(s: State, k: JobAction)
    ensures var t := OnJobStep(s, k);
            t.seen == s.seen && t.threads == s.threads && t.generation == s.generation && t.timerFired == s.timerFired
  {
  }

  // ------------------------------------------------ who has a handler around it

  /** A drain that has ended normally did so before its timer, and nothing of the
      start's first part is left; only after it is catching_up entered again. */
  predicate DrainedFirst(s: State) {
    (s.seen.drained ==> Past(s) && !s.timerFired) && (s.seen.reentered || s.seen.reopened ==> s.seen.drained)
  }

  lemma StepDrainedFirst(s: State, l: Label)
    requires OneWinner(s) && DrainedFirst(s)
    ensures DrainedFirst(Step(s, l))
  {
    if Bumps(s, l) {
      BumpForgets(s, l);
    } else if s.seen.drained {
      StepStaysPast(s, l);
    } else if EndsDrain(s, l) {
      DrainEnds(s, l.thread);
    } else {
      OnlyDrainsDrain(s, l);
      NoHandlerNoReentry(s, l);
    }
  }

  lemma BumpForgets(s: State, l: Label)
    requires Bumps(s, l)
    ensures Step(s, l).seen == NOTHING_SEEN
  {
  }

  /** The bootstrap drain of this start ends normally, before its timer. */
  predicate EndsDrain(s: State, l: Label) {
    l.Resume? && l.thread < |s.threads| && !Stale(s, l.thread) && l.answer.Ended? &&
    s.threads[l.thread].pc == Draining(FetchDrain) && !s.timerFired
  }

  lemma DrainEnds(s: State, i: nat)
    requires OneWinner(s) && EndsDrain(s, Resume(i, Ended))
    ensures DrainedFirst(Step(s, Resume(i, Ended)))
  {
    var t := Step(s, Resume(i, Ended));
    assert Main(s.threads[i], s.generation, false) && Fetcher(s.threads[i], s.generation);
    forall j | 0 <= j < |t.threads| && Current(t.threads[j], t.generation) ensures !Drains(t.threads[j]) {
      if j != i { assert t.threads[j] == s.threads[j] && Current(s.threads[j], s.generation); }
    }
  }

  lemma OnlyDrainsDrain(s: State, l: Label)
    requires !s.seen.drained && !EndsDrain(s, l) && !Bumps(s, l)
    ensures !Step(s, l).seen.drained
  {
    hide OnResume, OnOldJob, OnSaver, OnJobStep;
    match l
    case Resume(i, a) => if i < |s.threads| { ResumeDrainsNot(s, i, a); }
    case OldJob(c, k) => OldIsBeside(s, c, k);
    case SaverStep(k, a) => if k < |s.savers| { SaverIsBeside(s, k, a); }
    case JobStep(k) => JobsNeverReenter(s, k);
    case _ =>
  }

  lemma ResumeDrainsNot(s: State, i: nat, a: Answer)
    requires i < |s.threads| && !s.seen.drained && !EndsDrain(s, Resume(i, a))
    ensures !OnResume(s, i, a).seen.drained
  {
    hide OnDraining, EnterCatchingUp, EnterJoining, EnterRecovering, DrainBuffer, OnJoined, OnAwaited, OnLive, OnClearing, OpenAndCatchUp, OnLiveRetry;
    match s.threads[i].pc
    case Draining(_) => DrainingDrainsNot(s, i, a);
    case CatchSave => ThrowDrainsNot(s, i, a);
    case LiveRetry(_) => ThrowDrainsNot(s, i, a);
    case JoinTimer =>
      EntryNeverReenters(s, i);
      EntryNeverReenters(s.(timerFired := true), i);
    case _ => EntryNeverReenters(s, i); RestNeverReenters(s, i, a);
  }

  lemma ThrowDrainsNot(s: State, i: nat, a: Answer)
    requires i < |s.threads| && !s.seen.drained
    ensures !OpenAndCatchUp(s, i, a).seen.drained
    ensures s.threads[i].pc.LiveRetry? ==> !OnLiveRetry(s, i, a).seen.drained
  {
    hide OpenAndCatchUp, OnLiveRetry;
    OpenMovesOn(s, i, a);
    if s.threads[i].pc.LiveRetry? { RetryMovesOn(s, i, a); }
  }

  lemma DrainingDrainsNot(s: State, i: nat, a: Answer)
    requires i < |s.threads| && s.threads[i].pc.Draining? && !s.seen.drained && !EndsDrain(s, Resume(i, a))
    ensures !OnDraining(s, i, a).seen.drained
  {
    hide EnterCatchingUp, EnterBufferingLive;
    EntryNeverReenters(s, i);
    EntryNeverReenters(ClearTimer(s, s.threads[i].gen), i);
  }

  lemma {:induction false} RunDrainedFirst(s: State, ls: seq<Label>)
    requires OneWinner(s) && Flow(s) && DrainedFirst(s)
    ensures DrainedFirst(Run(s, ls))
    decreases ls
  {
    hide OneWinner, Flow, Step, DrainedFirst;
    if |ls| > 0 {
      StepFlow(s, ls[0]);
      StepDrainedFirst(s, ls[0]);
      RunDrainedFirst(Step(s, ls[0]), ls[1..]);
    }
  }

  lemma EveryRunDrainedFirst(ls: seq<Label>)
    ensures OneWinner(Run(INITIAL, ls)) && Flow(Run(INITIAL, ls)) && DrainedFirst(Run(INITIAL, ls))
  {
    EveryRunKeeps(ls);
    InitialKeeps();
    hide Run, OneWinner, Flow;
    RunDrainedFirst(INITIAL, ls);
  }

  // ------------------------------------------------ the second entry

  /** A continuation is at a point where an exception goes back to the handler
      around the bootstrap drain: that drain has ended normally before its timer,
      and this has not happened before. */
  predicate GoesBack(s: State, i: nat, a: Answer) {
    i < |s.threads| && a.Failed? && !Stale(s, i) && s.seen.drained && !s.seen.reentered && !s.seen.reopened &&
    (s.threads[i].pc.CatchSave? || (s.threads[i].pc.LiveRetry? && !LooksAtNothing(s.threads[i].pc.due)))
  }

  /** catching_up is entered again exactly when that continuation fails: after
      live input has been opened, if the retry pass of enterLive throws, and
      before that, if openLive itself does. */
  lemma ReentryExactly(ls: seq<Label>, l: Label)
    ensures var s := Run(INITIAL, ls);
            var t := Step(s, l);
            (t.seen.reentered && !s.seen.reentered <==>
              l.Resume? && GoesBack(s, l.thread, l.answer) && s.threads[l.thread].pc.LiveRetry?) &&
            (t.seen.reopened && !s.seen.reopened <==>
              l.Resume? && GoesBack(s, l.thread, l.answer) && s.threads[l.thread].pc.CatchSave?)
  {
    hide Run;
    EveryRunDrainedFirst(ls);
    var s := Run(INITIAL, ls);
    hide OneWinner, Flow, GoesBack, OnResume, OnOldJob, OnSaver, OnJobStep, OnStart, OnStop, OnReset;
    match l
    case Resume(i, a) => if i < |s.threads| { ReentersOnlyThere(s, i, a); } else { NobodyThere(s, i, a); }
    case OldJob(c, k) => OldIsBeside(s, c, k);
    case SaverStep(k, a) => if k < |s.savers| { SaverIsBeside(s, k, a); }
    case JobStep(k) => JobsNeverReenter(s, k);
    case Start(welcome) => CallersNeverReenter(s, welcome);
    case Stop => CallersNeverReenter(s, false);
    case Reset => CallersNeverReenter(s, false);
    case _ =>
  }

  lemma CallersNeverReenter(s: State, welcome: bool)
    ensures (OnStart(s, welcome).seen.reentered ==> s.seen.reentered) && (OnStart(s, welcome).seen.reopened ==> s.seen.reopened)
    ensures (OnStop(s).seen.reentered ==> s.seen.reentered) && (OnStop(s).seen.reopened ==> s.seen.reopened)
    ensures !OnReset(s).seen.reentered && !OnReset(s).seen.reopened
  {
  }

  lemma NobodyThere(s: State, i: nat, a: Answer)
    requires i >= |s.threads|
    ensures !GoesBack(s, i, a)
  {
  }

  /** Where a continuation is when it can fail, live input is open or it is not. */
  lemma OpenOrNot(s: State, i: nat)
    requires OneWinner(s) && Flow(s) && !s.seen.reentered && i < |s.threads| && !Stale(s, i)
    ensures s.threads[i].pc.CatchSave? ==> s.generation !in s.subscriptions && s.catchUps == 0
    ensures s.threads[i].pc.LiveRetry? ==> s.generation in s.subscriptions
  {
    if s.threads[i].pc.CatchSave? || s.threads[i].pc.LiveRetry? {
      assert Current(s.threads[i], s.generation);
      QuietBefore(s, i);
    }
  }

  lemma ReentersOnlyThere(s: State, i: nat, a: Answer)
    requires OneWinner(s) && Flow(s) && DrainedFirst(s) && i < |s.threads|
    ensures var t := OnResume(s, i, a);
            (t.seen.reentered && !s.seen.reentered <==> GoesBack(s, i, a) && s.threads[i].pc.LiveRetry?) &&
            (t.seen.reopened && !s.seen.reopened <==> GoesBack(s, i, a) && s.threads[i].pc.CatchSave?)
  {
    if !Stale(s, i) && !s.seen.reentered { OpenOrNot(s, i); }
    assert s.seen.drained ==> !s.timerFired;
    hide OneWinner, Flow, DrainedFirst;
    match s.threads[i].pc
    case CatchSave => CatchReenters(s, i, a);
    case LiveRetry(_) => RetryReenters(s, i, a);
    case _ => OtherwiseNever(s, i, a);
  }

  lemma CatchReenters(s: State, i: nat, a: Answer)
    requires i < |s.threads| && s.threads[i].pc.CatchSave? && (s.seen.drained ==> !s.timerFired)
    requires !Stale(s, i) && !s.seen.reentered ==> s.generation !in s.subscriptions && s.catchUps == 0
    ensures var t := OnResume(s, i, a);
            t.seen.reentered == s.seen.reentered && (t.seen.reopened && !s.seen.reopened <==> GoesBack(s, i, a))
  {
  }

  lemma RetryReenters(s: State, i: nat, a: Answer)
    requires i < |s.threads| && s.threads[i].pc.LiveRetry? && (s.seen.drained ==> !s.timerFired)
    requires !Stale(s, i) && !s.seen.reentered ==> s.generation in s.subscriptions
    ensures var t := OnResume(s, i, a);
            (t.seen.reentered && !s.seen.reentered <==> GoesBack(s, i, a)) && (t.seen.reopened ==> s.seen.reopened)
  {
  }

  lemma OtherwiseNever(s: State, i: nat, a: Answer)
    requires i < |s.threads| && !s.threads[i].pc.LiveRetry? && !s.threads[i].pc.CatchSave?
    ensures OnResume(s, i, a).seen.reentered == s.seen.reentered && OnResume(s, i, a).seen.reopened == s.seen.reopened
  {
    hide OnDraining, EnterCatchingUp, EnterJoining, EnterRecovering, DrainBuffer, OnJoined, OnAwaited, OnLive, OnClearing;
    match s.threads[i].pc
    case Draining(_) => DrainingNeverReenters(s, i, a);
    case JoinTimer =>
      EntryNeverReenters(s, i);
      EntryNeverReenters(s.(timerFired := true), i);
    case _ => EntryNeverReenters(s, i); RestNeverReenters(s, i, a);
  }

  lemma RestNeverReenters(s: State, i: nat, a: Answer)
    requires i < |s.threads|
    ensures OnJoined(s, i).seen == s.seen
    ensures s.threads[i].pc.AwaitingJob? ==> OnAwaited(s, i).seen == s.seen
    ensures s.threads[i].pc.Clearing? ==> OnClearing(s, i, a).seen == s.seen
    ensures OnLive(s, i, a).seen == s.seen
  {
    hide DrainBuffer, OnLive, OnClearing;
    EntryNeverReenters(s, i);
    LiveNeverReenters(s, i, a);
  }

  lemma LiveNeverReenters(s: State, i: nat, a: Answer)
    requires i < |s.threads|
    ensures OnLive(s, i, a).seen == s.seen
    ensures s.threads[i].pc.Clearing? ==> OnClearing(s, i, a).seen == s.seen
  {
  }

  lemma EntryNeverReenters(s: State, i: nat)
    requires i < |s.threads|
    ensures EnterCatchingUp(s, i).seen == s.seen && DrainBuffer(s, i).seen == s.seen
    ensures EnterJoining(s, i).seen == s.seen && EnterRecovering(s, i).seen == s.seen && EnterBufferingLive(s, i).seen == s.seen
  {
  }

  lemma DrainingNeverReenters(s: State, i: nat, a: Answer)
    requires i < |s.threads| && s.threads[i].pc.Draining?
    ensures OnDraining(s, i, a).seen.reentered == s.seen.reentered && OnDraining(s, i, a).seen.reopened == s.seen.reopened
  {
    hide EnterCatchingUp, EnterBufferingLive, BootstrapEnded, BootstrapFailed;
    EntryNeverReenters(s, i);
    BootstrapNeverReenters(s, i);
  }

  lemma BootstrapNeverReenters(s: State, i: nat)
    requires i < |s.threads|
    ensures BootstrapEnded(s, i).seen == s.seen.(drained := BootstrapEnded(s, i).seen.drained) && BootstrapFailed(s, i).seen == s.seen
  {
  }

  // ------------------------------------------------ one run for each case

  const DRAINED := [Start(true), Resume(0, Ready), Resume(0, Ended)]

  lemma DrainedRun()
    ensures var s := Run(INITIAL, DRAINED);
            |s.threads| > 0 && s.threads[0] == Thread(1, CatchSave, true) && s.generation == 1 && s.chain == Chain([], None) && s.liveBuffer == [] &&
            s.seen == NOTHING_SEEN.(drained := true) && s.lifecycle.CatchingUp? && !s.timerFired && s.catchUps == 0 && s.subscriptions == {}
  {
    RunThree(INITIAL, Start(true), Resume(0, Ready), Resume(0, Ended));
    var s1 := Step(INITIAL, Start(true));
    assert s1.threads == [Thread(1, JoinSave, true)];
    var s2 := Step(s1, Resume(0, Ready));
    assert s2.threads == [Thread(1, Draining(FetchDrain), true), Thread(1, JoinTimer, false)];
    assert Step(s2, Resume(0, Ended)).threads[0] == Thread(1, CatchSave, true);
  }

  /** The drain has ended and openLive throws. */
  lemma OpenLiveThrows()
    ensures var t := Step(Run(INITIAL, DRAINED), Resume(0, Failed));
            t.seen.reopened && t.threads[0].pc.CatchSave?
  {
    DrainedRun();
  }

  /** The drain has ended, the cutover is over, and the retry pass of enterLive throws. */
  lemma RetryPassThrows()
    ensures var live := Run(Run(INITIAL, DRAINED), [Resume(0, Ready), Resume(0, Ended), Resume(0, Ready)]);
            var t := Step(Step(live, Resume(0, Retry)), Resume(0, Failed));
            live.lifecycle.Live? && t.seen.reentered && t.threads[0].pc.CatchSave?
  {
    DrainedRun();
    hide Run;
    var s := Run(INITIAL, DRAINED);
    RunThree(s, Resume(0, Ready), Resume(0, Ended), Resume(0, Ready));
    var s1 := Step(s, Resume(0, Ready));
    assert s1.threads[0] == Thread(1, Draining(HistoryDrain), true) && s1.subscriptions == {1};
    var s2 := Step(s1, Resume(0, Ended));
    assert s2.threads[0] == Thread(1, BufferSave, true) && s2.liveBuffer == [];
    var s3 := Step(s2, Resume(0, Ready));
    assert s3.threads[0] == Thread(1, LiveSave, true) && s3.subscriptions == {1} && s3.seen.drained && !s3.timerFired;
    var s4 := Step(s3, Resume(0, Retry));
    assert s4.threads[0] == Thread(1, LiveRetry(Idle), true);
  }

  // ------------------------------------------------ who never enters twice

  /** A start that is past its drain without a normal end of it never enters
      catching_up twice, whatever fails. */
  lemma {:induction false} UnguardedNeverReenters(s: State, ls: seq<Label>)
    requires Past(s) && !s.seen.drained && Run(s, ls).generation == s.generation
    ensures Run(s, ls).seen.reentered == s.seen.reentered && Run(s, ls).seen.reopened == s.seen.reopened
    decreases ls
  {
    if |ls| > 0 {
      GenerationMovesExactly(s, ls[0]);
      GenerationGrows(Step(s, ls[0]), ls[1..]);
      StepStaysPast(s, ls[0]);
      NoHandlerNoReentry(s, ls[0]);
      hide Past, Step, Bumps;
      UnguardedNeverReenters(Step(s, ls[0]), ls[1..]);
    }
  }

  lemma {:induction false} GenerationGrows(s: State, ls: seq<Label>)
    ensures Run(s, ls).generation >= s.generation
    decreases ls
  {
    hide Step;
    if |ls| > 0 {
      GenerationMovesExactly(s, ls[0]);
      GenerationGrows(Step(s, ls[0]), ls[1..]);
    }
  }

  lemma NoHandlerNoReentry(s: State, l: Label)
    requires !s.seen.drained && !Bumps(s, l)
    ensures Step(s, l).seen.reentered == s.seen.reentered && Step(s, l).seen.reopened == s.seen.reopened
  {
    hide OnResume, OnOldJob, OnSaver, OnJobStep;
    match l
    case Resume(i, a) => if i < |s.threads| { ResumeWithoutHandler(s, i, a); }
    case OldJob(c, k) => OldIsBeside(s, c, k);
    case SaverStep(k, a) => if k < |s.savers| { SaverIsBeside(s, k, a); }
    case JobStep(k) => JobsNeverReenter(s, k);
    case _ =>
  }

  lemma ResumeWithoutHandler(s: State, i: nat, a: Answer)
    requires !s.seen.drained && i < |s.threads|
    ensures OnResume(s, i, a).seen.reentered == s.seen.reentered && OnResume(s, i, a).seen.reopened == s.seen.reopened
  {
    hide OnResume;
    match s.threads[i].pc
    case CatchSave => OpenWithoutHandler(s, i, a);
    case LiveRetry(_) => RetryWithoutHandler(s, i, a);
    case _ => OtherwiseNever(s, i, a);
  }

  lemma OpenWithoutHandler(s: State, i: nat, a: Answer)
    requires !s.seen.drained && i < |s.threads| && s.threads[i].pc.CatchSave?
    ensures OnResume(s, i, a).seen.reentered == s.seen.reentered && OnResume(s, i, a).seen.reopened == s.seen.reopened
  {
    hide EnterCatchingUp;
  }

  lemma RetryWithoutHandler(s: State, i: nat, a: Answer)
    requires !s.seen.drained && i < |s.threads| && s.threads[i].pc.LiveRetry?
    ensures OnResume(s, i, a).seen.reentered == s.seen.reentered && OnResume(s, i, a).seen.reopened == s.seen.reopened
  {
    hide EnterCatchingUp;
  }

  /** A start that is still in its first part has not entered catching_up twice. */
  lemma UntouchedBy(s: State, l: Label)
    requires DrainedFirst(s) && !Bumps(s, l) && !EndsDrain(s, l)
    requires exists i :: 0 <= i < |s.threads| && Current(s.threads[i], s.generation) && Drains(s.threads[i])
    ensures !Step(s, l).seen.drained && !Step(s, l).seen.reentered && !Step(s, l).seen.reopened
  {
    OnlyDrainsDrain(s, l);
    NoHandlerNoReentry(s, l);
  }

  /** A start that recovers has no handler around it. */
  lemma RecoveringNeverReenters(ls: seq<Label>, i: nat, rest: seq<Label>)
    requires var s := Run(INITIAL, ls); i < |s.threads| && s.threads[i].pc.Loading? && !Stale(s, i)
    requires Run(Step(Run(INITIAL, ls), Resume(i, RouteRecover)), rest).generation == Run(INITIAL, ls).generation
    ensures var t := Run(Step(Run(INITIAL, ls), Resume(i, RouteRecover)), rest);
            !t.seen.reentered && !t.seen.reopened
  {
    hide Run;
    EveryRunDrainedFirst(ls);
    var s := Run(INITIAL, ls);
    assert Current(s.threads[i], s.generation) && Early(s.threads[i]) && Drains(s.threads[i]);
    var t := Step(s, Resume(i, RouteRecover));
    forall j | 0 <= j < |t.threads| && Current(t.threads[j], t.generation) ensures !Drains(t.threads[j]) {
      assert j == i;
    }
    UntouchedBy(s, Resume(i, RouteRecover));
    UnguardedNeverReenters(t, rest);
  }

  /** Neither has a start whose bootstrap drain fails before its timer: it enters
      catching_up from within the handler. */
  lemma FailedDrainNeverReenters(ls: seq<Label>, i: nat, rest: seq<Label>)
    requires var s := Run(INITIAL, ls);
             i < |s.threads| && s.threads[i].pc == Draining(FetchDrain) && !Stale(s, i) && !s.timerFired
    requires Run(Step(Run(INITIAL, ls), Resume(i, Failed)), rest).generation == Run(INITIAL, ls).generation
    ensures var t := Run(Step(Run(INITIAL, ls), Resume(i, Failed)), rest);
            !t.seen.reentered && !t.seen.reopened
  {
    hide Run;
    EveryRunDrainedFirst(ls);
    var s := Run(INITIAL, ls);
    assert Main(s.threads[i], s.generation, false) && Fetcher(s.threads[i], s.generation) && Drains(s.threads[i]);
    var t := Step(s, Resume(i, Failed));
    forall j | 0 <= j < |t.threads| && Current(t.threads[j], t.generation) ensures !Drains(t.threads[j]) {
      if j != i { assert t.threads[j] == s.threads[j] && Current(s.threads[j], s.generation); }
    }
    UntouchedBy(s, Resume(i, Failed));
    UnguardedNeverReenters(t, rest);
  }

  /** A failed opening loses nothing: nothing had arrived and nothing can, until
      the second attempt opens live input and the sole historical drain. */
  lemma ReopeningLosesNothing(ls: seq<Label>, i: nat, g: nat, x: Signal)
    requires GoesBack(Run(INITIAL, ls), i, Failed) && Run(INITIAL, ls).threads[i].pc.CatchSave?
    ensures var s := Run(INITIAL, ls);
            var t := Step(s, Resume(i, Failed));
            var u := Step(t, Resume(i, Ready));
            t.seen.arrived == [] && t.liveBuffer == [] && Step(t, Arrive(g, x)) == t &&
            u.threads[i].pc == Draining(HistoryDrain) && u.generation in u.subscriptions && u.catchUps == 1 && u.seen.arrived == []
  {
    hide Run;
    EveryRunDrainedFirst(ls);
    var s := Run(INITIAL, ls);
    OpenOrNot(s, i);
    assert Unopened(s);
    hide OneWinner, Flow;
  }

  /** After a re-entry the first signal that arrives before the second opening is
      gone: it counts as arrived, and is neither handled, queued nor buffered. */
  lemma ReentryLosesASignal(ls: seq<Label>, i: nat, x: Signal)
    requires var s := Run(INITIAL, ls);
             GoesBack(s, i, Failed) && s.threads[i].pc.LiveRetry?
    ensures var s := Run(INITIAL, ls);
            var t := Step(Step(Step(s, Resume(i, Failed)), Arrive(s.generation, x)), Resume(i, Ready));
            t.seen.arrived == s.seen.arrived + [x] &&
            t.seen.handledLive + Underway(t.chain, t.generation, Pushed) + t.liveBuffer == s.seen.arrived
  {
    hide Run;
    EveryRunDrainedFirst(ls);
    var s := Run(INITIAL, ls);
    LiveIsOpen(s, i);
    assert s.catchUps > 0 && s.liveBuffer == [];
    hide OneWinner, Flow, Underway;
    assert s.seen.arrived == s.seen.handledLive + Underway(s.chain, s.generation, Pushed);
    var s1 := Step(s, Resume(i, Failed));
    assert s1.threads[i].pc.CatchSave? && s1.seen.reentered && s1.chain == s.chain && s1.generation == s.generation;
    var s2 := Step(s1, Arrive(s.generation, x));
    var s3 := Step(s2, Resume(i, Ready));
    assert s3.chain == s.chain && s3.liveBuffer == [] && s3.seen.handledLive == s.seen.handledLive;
    var live := s.seen.handledLive + Underway(s.chain, s.generation, Pushed);
    assert live + [] == live;
  }
}
