/** What every run of the cutover machine keeps: the generation fence, one
    winner of the join race, and a cutover that loses, repeats and reorders
    nothing. */

module CutoverSafety {
  import opened Wrappers
  import opened EngineTypes
  import opened CutoverProtocol

  // ------------------------------------------------ the generation fence

  /** The three acts that come after a wait without a second look. */
  predicate Unchecked(k: Kind) {
    k.ExhaustedReport? || k.SecondWrite? || k.Removal?
  }

  /** No continuation acts in a later generation than its own, save for those. */
  predicate Fenced(s: State) {
    forall k :: 0 <= k < |s.effects| ==> s.effects[k].doer == s.effects[k].during || Unchecked(s.effects[k].kind)
  }

  /** Everything a step has added is an act of the current generation. */
  predicate ActsOwn(s: State, t: State) {
    s.effects <= t.effects &&
    forall k :: |s.effects| <= k < |t.effects| ==> t.effects[k].doer == t.effects[k].during
  }

  /** A step adds one act, and it is unchecked. */
  predicate ActsUnchecked(s: State, t: State, doer: nat) {
    |t.effects| == |s.effects| + 1 && s.effects <= t.effects &&
    t.effects[|s.effects|].doer == doer && t.effects[|s.effects|].during == s.generation && Unchecked(t.effects[|s.effects|].kind)
  }

  lemma ActsOnce(s: State, t: State, doer: nat, kind: Kind)
    requires t.effects == s.effects || (t.effects == s.effects + [Effect(doer, s.generation, kind)] && doer == s.generation)
    ensures ActsOwn(s, t)
  {
  }

  lemma ThrowActsOwn(s: State, i: nat, a: Answer)
    requires i < |s.threads|
    ensures ActsOwn(s, Throw(s, i)) && ActsOwn(s, OpenAndCatchUp(s, i, a))
  {
    hide ActsOwn;
    ActsOnce(s, Throw(s, i), s.threads[i].gen, PhaseChange);
    ActsOnce(s, OpenAndCatchUp(s, i, a), s.threads[i].gen, PhaseChange);
  }

  lemma DrainingActsOwn(s: State, i: nat, a: Answer)
    requires i < |s.threads| && s.threads[i].pc.Draining?
    ensures ActsOwn(s, OnDraining(s, i, a))
  {
    hide ActsOwn;
    var late := a.Ended? && s.timerFired && s.threads[i].pc.drain.FetchDrain?;
    ActsOnce(s, OnDraining(s, i, a), s.threads[i].gen, if late then Write else PhaseChange);
  }

  lemma LiveActsOwn(s: State, i: nat, a: Answer)
    requires i < |s.threads|
    ensures ActsOwn(s, OnLive(s, i, a))
  {
  }

  /** The unchecked acts of a continuation: what is due in the retry pass of
      enterLive, and the later removals of a reset. */
  predicate ResumesUnchecked(t: Thread, a: Answer) {
    match t.pc
    case Clearing(restIssued) => !restIssued && !a.Failed?
    case LiveRetry(due) => due.ReportDue? || (due.SecondDue? && !a.Failed?)
    case _ => false
  }

  lemma LiveRetryActs(s: State, i: nat, a: Answer)
    requires i < |s.threads| && s.threads[i].pc.LiveRetry?
    ensures if ResumesUnchecked(s.threads[i], a) then ActsUnchecked(s, OnLiveRetry(s, i, a), s.threads[i].gen)
            else ActsOwn(s, OnLiveRetry(s, i, a))
  {
    if !ResumesUnchecked(s.threads[i], a) {
      hide ActsOwn, Throw;
      ThrowActsOwn(s, i, a);
      if !LooksAtNothing(s.threads[i].pc.due) && !a.Failed? {
        LiveRetryActsOnce(s, i, a);
      } else if LooksAtNothing(s.threads[i].pc.due) {
        ActsOnce(s, OnLiveRetry(s, i, a), 0, Write);
      }
    }
  }

  lemma LiveRetryActsOnce(s: State, i: nat, a: Answer)
    requires i < |s.threads| && s.threads[i].pc.LiveRetry? && !LooksAtNothing(s.threads[i].pc.due) && !a.Failed?
    ensures ActsOwn(s, OnLiveRetry(s, i, a))
  {
    hide ActsOwn;
    var kind := if a.Ended? || a.Retry? then PhaseChange else if a.Next? then Emission else Write;
    ActsOnce(s, OnLiveRetry(s, i, a), s.threads[i].gen, kind);
  }

  lemma ClearingActs(s: State, i: nat, a: Answer)
    requires i < |s.threads| && s.threads[i].pc.Clearing?
    ensures if ResumesUnchecked(s.threads[i], a) then ActsUnchecked(s, OnClearing(s, i, a), s.threads[i].gen)
            else ActsOwn(s, OnClearing(s, i, a))
  {
  }

  lemma ResumeActs(s: State, i: nat, a: Answer)
    requires i < |s.threads|
    ensures if ResumesUnchecked(s.threads[i], a) then ActsUnchecked(s, OnResume(s, i, a), s.threads[i].gen)
            else ActsOwn(s, OnResume(s, i, a))
  {
    hide ActsOwn, ActsUnchecked, OnDraining, OpenAndCatchUp, OnLive, OnLiveRetry, OnClearing, EnterCatchingUp, DrainBuffer, OnAwaited;
    match s.threads[i].pc
    case Draining(_) => DrainingActsOwn(s, i, a);
    case CatchSave => ThrowActsOwn(s, i, a); ActsOnce(s, Finish(s, i), 0, Write);
    case LiveRetry(_) => LiveRetryActs(s, i, a);
    case LiveSave => LiveActsOwn(s, i, a);
    case Clearing(_) => ClearingActs(s, i, a);
    case JoinTimer => EntriesAct(s, i); EntriesAct(s.(timerFired := true), i); SameActs(s, s.(timerFired := true), OnResume(s, i, a));
    case AwaitingJob(_, _) => EntriesAct(s, i);
    case BufferSave => EntriesAct(s, i); ActsOnce(s, Finish(s, i), 0, Write);
    case _ => ActsOnce(s, OnResume(s, i, a), s.threads[i].gen, PhaseChange);
  }

  lemma EntriesAct(s: State, i: nat)
    requires i < |s.threads|
    ensures ActsOwn(s, EnterCatchingUp(s, i)) && ActsOwn(s, DrainBuffer(s, i))
    ensures s.threads[i].pc.AwaitingJob? ==> ActsOwn(s, OnAwaited(s, i))
  {
    hide ActsOwn;
    ActsOnce(s, EnterCatchingUp(s, i), s.threads[i].gen, PhaseChange);
    ActsOnce(s, DrainBuffer(s, i), s.threads[i].gen, PhaseChange);
    hide DrainBuffer;
    if s.threads[i].pc.AwaitingJob? && OnAwaited(s, i) != DrainBuffer(s, i) { ActsOnce(s, OnAwaited(s, i), 0, Write); }
  }

  lemma SameActs(s: State, s1: State, t: State)
    requires s1.effects == s.effects
    ensures ActsOwn(s1, t) <==> ActsOwn(s, t)
  {
  }

  lemma JobActsOwn(s: State, k: JobAction)
    ensures ActsOwn(s, OnJobStep(s, k))
  {
    hide ActsOwn;
    var gen := if s.chain.running.Some? then s.chain.running.value.job.gen else 0;
    var announces := s.chain.running.Some? && s.chain.running.value.due.AnnounceDue?;
    var kind := if announces || k.DoEmit? then Emission else if k.DoWrite? || k.HalfAccept? then Write else PhaseChange;
    ActsOnce(s, OnJobStep(s, k), gen, kind);
  }

  /** The unchecked act of a handler that is due, by its own generation. */
  predicate DueIs(running: Option<Running>, lands: bool) {
    running.Some? && Overdue(running.value, lands).Some?
  }

  lemma DueActs(s: State, run: Running, lands: bool)
    ensures if Overdue(run, lands).Some? then ActsUnchecked(s, ActDue(s, run, lands), run.job.gen)
            else ActDue(s, run, lands) == s
  {
  }

  lemma OldStepActsOwn(s: State, c: nat, k: JobAction)
    requires c < |s.oldChains|
    ensures ActsOwn(s, OnOldStep(s, c, k)) && ActsOwn(s, OnOldStart(s, c))
  {
    hide ActsOwn;
    var running := s.oldChains[c].running;
    ActsOnce(s, OnOldStep(s, c, k), if running.Some? then running.value.job.gen else 0,
             if running.Some? && running.value.due.AnnounceDue? then Emission else Write);
    ActsOnce(s, OnOldStart(s, c), 0, Write);
  }

  lemma OldJobActsOwn(s: State, c: nat, k: OldAction)
    requires !(c < |s.oldChains| && k.OldDue? && DueIs(s.oldChains[c].running, k.lands))
    ensures ActsOwn(s, OnOldJob(s, c, k))
  {
    hide ActsOwn, OnOldStart, OnOldStep;
    if c < |s.oldChains| { OldStepActsOwn(s, c, if k.OldStep? then k.kind else DoWrite); }
    if k.OldDue? || k.OldEnd? || c >= |s.oldChains| { ActsOnce(s, OnOldJob(s, c, k), 0, Write); }
  }

  lemma SaverActsOwn(s: State, k: nat, a: SaveAnswer)
    requires k < |s.savers|
    ensures ActsOwn(s, OnSaver(s, k, a))
  {
    hide ActsOwn;
    ActsOnce(s, OnSaver(s, k, a), s.savers[k].gen, if s.savers[k].pc.Retrying? then Emission else Write);
  }

  lemma CallerActsOwn(s: State, welcome: bool)
    ensures ActsOwn(s, OnStart(s, welcome)) && ActsOwn(s, OnStop(s)) && ActsOwn(s, OnReset(s))
  {
  }

  /** The continuation whose unchecked act a step is. */
  function UncheckedDoer(s: State, l: Label): (r: Option<nat>) {
    match l
    case Resume(i, a) => if i < |s.threads| && ResumesUnchecked(s.threads[i], a) then Some(s.threads[i].gen) else None
    case JobDue(lands) => if DueIs(s.chain.running, lands) then Some(s.chain.running.value.job.gen) else None
    case OldJob(c, OldDue(lands)) =>
      if c < |s.oldChains| && DueIs(s.oldChains[c].running, lands) then Some(s.oldChains[c].running.value.job.gen) else None
    case _ => None
  }

  lemma StepActs(s: State, l: Label)
    ensures if UncheckedDoer(s, l).Some? then ActsUnchecked(s, Step(s, l), UncheckedDoer(s, l).value)
            else ActsOwn(s, Step(s, l))
  {
    hide ActsOwn, ActsUnchecked, ResumesUnchecked, OnResume, OnJobStep, OnOldJob, OnStart, OnStop, OnReset, OnSaver;
    match l
    case Start(welcome) => CallerActsOwn(s, welcome);
    case Stop => CallerActsOwn(s, false);
    case Reset => CallerActsOwn(s, false);
    case Resume(i, a) => if i < |s.threads| { ResumeActs(s, i, a); } else { ActsOnce(s, s, 0, Write); }
    case JobStep(k) => JobActsOwn(s, k);
    case JobDue(lands) => JobDueActs(s, lands);
    case OldJob(c, k) => if UncheckedDoer(s, l).Some? { OldDueActs(s, c, k.lands); } else { OldJobActsOwn(s, c, k); }
    case SaverStep(k, a) => if k < |s.savers| { SaverActsOwn(s, k, a); } else { ActsOnce(s, s, 0, Write); }
    case Arrive(_, _) => ActsOnce(s, Step(s, l), 0, Write);
    case AcceptLocal(_) => ActsOnce(s, Step(s, l), 0, Write);
    case JobStart => ActsOnce(s, Step(s, l), 0, Write);
    case JobEnd => ActsOnce(s, Step(s, l), 0, Write);
  }

  lemma JobDueActs(s: State, lands: bool)
    ensures if DueIs(s.chain.running, lands) then ActsUnchecked(s, OnJobDue(s, lands), s.chain.running.value.job.gen)
            else ActsOwn(s, OnJobDue(s, lands))
  {
    if s.chain.running.Some? { DueActs(s, s.chain.running.value, lands); }
  }

  lemma OldDueActs(s: State, c: nat, lands: bool)
    requires c < |s.oldChains| && DueIs(s.oldChains[c].running, lands)
    ensures ActsUnchecked(s, OnOldJob(s, c, OldDue(lands)), s.oldChains[c].running.value.job.gen)
  {
    DueActs(s, s.oldChains[c].running.value, lands);
  }

  /** The generation fence, in every run: nothing that a continuation does after
      its generation is over is anything but an unchecked act. */
  lemma {:induction false} EveryRunIsFenced(s: State, ls: seq<Label>)
    requires Fenced(s)
    ensures Fenced(Run(s, ls))
    decreases ls
  {
    hide Step, UncheckedDoer;
    if |ls| > 0 {
      StepActs(s, ls[0]);
      EveryRunIsFenced(Step(s, ls[0]), ls[1..]);
    }
  }

  /** The fence is broken exactly by an unchecked act whose generation is over: the
      rejection of a write that has run out of retries, the second write of an
      acceptance, the later removals of a reset. */
  lemma FenceBreaksExactly(s: State, l: Label)
    ensures var t := Step(s, l);
            (exists k :: |s.effects| <= k < |t.effects| && t.effects[k].doer != t.effects[k].during) <==>
            UncheckedDoer(s, l).Some? && UncheckedDoer(s, l).value != s.generation
  {
    StepActs(s, l);
    hide Step, UncheckedDoer;
    var t := Step(s, l);
    if UncheckedDoer(s, l).Some? { assert t.effects[|s.effects|].during == s.generation; }
  }

  /** A reset that is overtaken by a start removes the new session's logs. */
  lemma ResetOvertaken()
    ensures var t := Run(INITIAL, [Reset, Start(false), Resume(0, Ready)]);
            t.generation == 2 && t.effects[|t.effects| - 1] == Effect(1, 2, Removal)
  {
    var s1 := Step(INITIAL, Reset);
    assert s1.threads[0] == Thread(1, Clearing(false), false);
    var s2 := Step(s1, Start(false));
    assert s2.threads[0] == s1.threads[0] && s2.generation == 2;
    var s3 := Step(s2, Resume(0, Ready));
    RunThree(INITIAL, Reset, Start(false), Resume(0, Ready));
  }

  lemma RunThree(s: State, a: Label, b: Label, c: Label)
    ensures Run(s, [a, b, c]) == Step(Step(Step(s, a), b), c)
  {
    hide Step;
    assert [a, b, c][1..] == [b, c] && [b, c][1..] == [c] && [c][1..] == [];
    assert Run(s, [a, b, c]) == Run(Step(s, a), [b, c]);
    assert Run(Step(s, a), [b, c]) == Run(Step(Step(s, a), b), [c]);
  }

  /** A stop between the two writes of an acceptance does not stop the second. */
  lemma AcceptanceOvertaken(s: State)
    requires s.chain.running.Some? && s.chain.running.value.job.gen == s.generation && s.chain.running.value.due.Idle?
    requires !s.chain.running.value.job.origin.Local? && !s.lifecycle.Stopped? && !s.lifecycle.Uninitialized?
    ensures var t := Run(s, [JobStep(HalfAccept), Stop, JobDue(true)]);
            t.generation == s.generation + 1 && t.effects[|t.effects| - 1] == Effect(s.generation, s.generation + 1, SecondWrite)
  {
    RunThree(s, JobStep(HalfAccept), Stop, JobDue(true));
    hide Step, Run;
    var run := s.chain.running.value.(due := SecondDue);
    var s1 := Step(s, JobStep(HalfAccept));
    HalfAccepted(s);
    StopKeepsChain(s1);
    SecondIssued(Step(s1, Stop), run);
  }

  lemma HalfAccepted(s: State)
    requires s.chain.running.Some? && s.chain.running.value.job.gen == s.generation && s.chain.running.value.due.Idle?
    requires !s.chain.running.value.job.origin.Local?
    ensures var t := Step(s, JobStep(HalfAccept));
            t.chain.running == Some(s.chain.running.value.(due := SecondDue)) && t.generation == s.generation && t.lifecycle == s.lifecycle
  {
  }

  lemma StopKeepsChain(s: State)
    requires !s.lifecycle.Stopped? && !s.lifecycle.Uninitialized?
    ensures Step(s, Stop).chain == s.chain && Step(s, Stop).generation == s.generation + 1
  {
  }

  lemma SecondIssued(s: State, run: Running)
    requires s.chain.running == Some(run) && run.due.SecondDue?
    ensures var t := Step(s, JobDue(true));
            t.generation == s.generation && |t.effects| > 0 && t.effects[|t.effects| - 1] == Effect(run.job.gen, s.generation, SecondWrite)
  {
  }

  /** Such a handler runs in a session that has joined. */
  lemma SomeHandlerRuns(x: Signal)
    ensures var s := Run(Run(INITIAL, [Start(true), Resume(0, Ready), Resume(0, Next(x))]), [JobStart]);
            s.chain.running == Some(Running(Job(0, 1, Bootstrap, x), false, Idle)) && s.generation == 1 && s.lifecycle.Joining?
  {
    RunThree(INITIAL, Start(true), Resume(0, Ready), Resume(0, Next(x)));
    var s1 := Step(INITIAL, Start(true));
    assert s1.threads == [Thread(1, JoinSave, true)] && s1.chain == Chain([], None) && s1.lifecycle.Joining?;
    var s2 := Step(s1, Resume(0, Ready));
    assert s2.threads[0] == Thread(1, Draining(FetchDrain), true) && s2.chain == s1.chain && s2.lifecycle.Joining?;
    var s3 := Step(s2, Resume(0, Next(x)));
    assert s3.chain == Chain([Job(0, 1, Bootstrap, x)], None) && s3.generation == 1;
    assert [JobStart][1..] == [] && Run(s3, [JobStart]) == Step(s3, JobStart);
  }

  // ------------------------------------------------ local edits

  /** A local edit is announced exactly when its append had landed and the
      generation is still the one its handler took when it started. */
  predicate EditsTold(s: State) {
    forall k :: 0 <= k < |s.edits| ==>
      (s.edits[k].announced <==> s.edits[k].landed && s.edits[k].ended == s.edits[k].taken)
  }

  lemma StepTells(s: State, l: Label)
    requires EditsTold(s)
    ensures EditsTold(Step(s, l)) && s.edits <= Step(s, l).edits
  {
    hide OnResume, OnStart, OnStop, OnReset, OnOldJob, OnJobStep, OnSaver;
    match l
    case Resume(i, a) => if i < |s.threads| { ResumeTellsNothing(s, i, a); }
    case OldJob(c, k) => OldJobTells(s, c, k);
    case JobStep(k) => JobStepTells(s, k);
    case Start(welcome) => CallersTellNothing(s, welcome);
    case Stop => CallersTellNothing(s, false);
    case Reset => CallersTellNothing(s, false);
    case SaverStep(k, a) => if k < |s.savers| { SaverTellsNothing(s, k, a); }
    case _ =>
  }

  lemma SaverTellsNothing(s: State, k: nat, a: SaveAnswer)
    requires k < |s.savers|
    ensures OnSaver(s, k, a).edits == s.edits
  {
  }

  lemma CallersTellNothing(s: State, welcome: bool)
    ensures OnStart(s, welcome).edits == OnStop(s).edits == OnReset(s).edits == s.edits
  {
  }

  /** What ends a generation: a start from uninitialized with no other start under
      way, a stop from anywhere else but stopped, and every reset. */
  predicate Bumps(s: State, l: Label) {
    match l
    case Start(_) => s.lifecycle.Uninitialized? && !Starting(s)
    case Stop => !s.lifecycle.Uninitialized? && !s.lifecycle.Stopped?
    case Reset => true
    case _ => false
  }

  lemma GenerationMovesExactly(s: State, l: Label)
    ensures Step(s, l).generation == if Bumps(s, l) then s.generation + 1 else s.generation
  {
    hide OnResume, OnStart, OnStop, OnReset, OnOldJob, OnJobStep, OnSaver;
    match l
    case Resume(i, a) => if i < |s.threads| { ResumeTellsNothing(s, i, a); }
    case OldJob(c, k) => OldIsBeside(s, c, k);
    case SaverStep(k, a) => if k < |s.savers| { SaverIsBeside(s, k, a); }
    case JobStep(k) => JobStepStays(s, k);
    case Start(welcome) => CallersBump(s, welcome);
    case Stop => CallersBump(s, false);
    case Reset => CallersBump(s, false);
    case _ =>
  }

  lemma JobStepStays(s: State, k: JobAction)
    ensures OnJobStep(s, k).generation == s.generation
  {
  }

  lemma CallersBump(s: State, welcome: bool)
    ensures OnStart(s, welcome).generation == if s.lifecycle.Uninitialized? && !Starting(s) then s.generation + 1 else s.generation
    ensures OnStop(s).generation == if s.lifecycle.Uninitialized? || s.lifecycle.Stopped? then s.generation else s.generation + 1
    ensures OnReset(s).generation == s.generation + 1
  {
  }

  lemma JobStepTells(s: State, k: JobAction)
    requires EditsTold(s)
    ensures EditsTold(OnJobStep(s, k)) && s.edits <= OnJobStep(s, k).edits
  {
  }

  lemma OldJobTells(s: State, c: nat, k: OldAction)
    requires EditsTold(s)
    ensures EditsTold(OnOldJob(s, c, k)) && s.edits <= OnOldJob(s, c, k).edits
  {
  }

  /** No handler of a local edit ends, and the generation stays. */
  predicate TellsNothing(s: State, t: State) {
    t.edits == s.edits && t.generation == s.generation
  }

  lemma ResumeTellsNothing(s: State, i: nat, a: Answer)
    requires i < |s.threads|
    ensures TellsNothing(s, OnResume(s, i, a))
  {
    hide OnDraining, OnLiveRetry, OpenAndCatchUp, DrainBuffer, EnterCatchingUp, EnterJoining, EnterRecovering;
    EntriesTellNothing(s, i);
    match s.threads[i].pc
    case Draining(_) => DrainTellsNothing(s, i, a);
    case CatchSave => OpenTellsNothing(s, i, a);
    case LiveRetry(_) => RetryTellsNothing(s, i, a);
    case JoinTimer => EntriesTellNothing(s.(timerFired := true), i);
    case _ =>
  }

  lemma EntriesTellNothing(s: State, i: nat)
    requires i < |s.threads|
    ensures TellsNothing(s, DrainBuffer(s, i)) && TellsNothing(s, EnterCatchingUp(s, i))
    ensures TellsNothing(s, EnterJoining(s, i)) && TellsNothing(s, EnterRecovering(s, i))
  {
  }

  lemma DrainTellsNothing(s: State, i: nat, a: Answer)
    requires i < |s.threads| && s.threads[i].pc.Draining?
    ensures TellsNothing(s, OnDraining(s, i, a))
  {
  }

  lemma OpenTellsNothing(s: State, i: nat, a: Answer)
    requires i < |s.threads|
    ensures TellsNothing(s, OpenAndCatchUp(s, i, a)) && TellsNothing(s, Throw(s, i))
  {
  }

  lemma RetryTellsNothing(s: State, i: nat, a: Answer)
    requires i < |s.threads| && s.threads[i].pc.LiveRetry?
    ensures TellsNothing(s, OnLiveRetry(s, i, a))
  {
    hide Throw;
    OpenTellsNothing(s, i, a);
  }

  /** In every run, for every local edit whose handler has ended; and what is
      recorded of it never changes. */
  lemma {:induction false} LocalEditsExactly(s: State, ls: seq<Label>)
    requires EditsTold(s)
    ensures EditsTold(Run(s, ls)) && s.edits <= Run(s, ls).edits
    decreases ls
  {
    hide Step, EditsTold;
    if |ls| > 0 {
      StepTells(s, ls[0]);
      LocalEditsExactly(Step(s, ls[0]), ls[1..]);
    }
  }

  /** An edit whose append is still running at start() is stored and never announced. */
  lemma EditOvertaken(x: Signal, ls: seq<Label>)
    ensures var before := [AcceptLocal(x), JobStart, JobStep(DoWrite), Start(false), JobDue(true), JobStep(DoWrite)];
            var t := Run(Run(INITIAL, before), ls);
            |t.edits| > 0 && t.edits[0] == Edit(x, 0, true, 1, false)
  {
    var s3 := Step(Step(Step(INITIAL, AcceptLocal(x)), JobStart), JobStep(DoWrite));
    var s6 := Step(Step(Step(s3, Start(false)), JobDue(true)), JobStep(DoWrite));
    OvertakenSteps(x);
    hide Step, Run, EditsTold;
    RunThree(INITIAL, AcceptLocal(x), JobStart, JobStep(DoWrite));
    RunThree(s3, Start(false), JobDue(true), JobStep(DoWrite));
    RunSplit(INITIAL, [AcceptLocal(x), JobStart, JobStep(DoWrite)], [Start(false), JobDue(true), JobStep(DoWrite)]);
    assert [AcceptLocal(x), JobStart, JobStep(DoWrite)] + [Start(false), JobDue(true), JobStep(DoWrite)] ==
           [AcceptLocal(x), JobStart, JobStep(DoWrite), Start(false), JobDue(true), JobStep(DoWrite)];
    LocalEditsExactly(s6, ls);
  }

  lemma OvertakenSteps(x: Signal)
    ensures var s3 := Step(Step(Step(INITIAL, AcceptLocal(x)), JobStart), JobStep(DoWrite));
            var s6 := Step(Step(Step(s3, Start(false)), JobDue(true)), JobStep(DoWrite));
            s6.edits == [Edit(x, 0, true, 1, false)] && EditsTold(s6)
  {
    var s2 := Step(Step(INITIAL, AcceptLocal(x)), JobStart);
    assert s2.chain.running == Some(Running(Job(0, 0, Local, x), false, Idle));
    var s4 := Step(Step(s2, JobStep(DoWrite)), Start(false));
    assert s4.generation == 1 && s4.chain.running == Some(Running(Job(0, 0, Local, x), false, AppendDue)) && s4.edits == [];
  }

  // ------------------------------------------------ the right to cut over

  predicate Fetching(t: Thread) {
    t.pc == Draining(FetchDrain) || (t.pc.AwaitingJob? && t.pc.drain.FetchDrain?)
  }

  predicate Current(t: Thread, gen: nat) {
    t.gen == gen && !t.pc.Done?
  }

  predicate Timing(t: Thread, gen: nat) {
    Current(t, gen) && t.pc.JoinTimer?
  }

  predicate Early(t: Thread) {
    t.pc.Clearing? || t.pc.Loading? || t.pc.JoinSave?
  }

  predicate Fetcher(t: Thread, gen: nat) {
    Current(t, gen) && Fetching(t)
  }

  /** A continuation that is on its way to the cutover, or in it. */
  predicate Main(t: Thread, gen: nat, timerFired: bool) {
    Current(t, gen) && !t.pc.LateSave? && !t.pc.JoinTimer? && !t.pc.Clearing? && (Fetching(t) ==> !timerFired)
  }

  predicate BeforeCut(t: Thread) {
    t.pc.Loading? || t.pc.JoinSave? || t.pc.RecoverSave? || t.pc.CatchSave? || Fetching(t) ||
    t.pc == Draining(ReplayDrain) || (t.pc.AwaitingJob? && t.pc.drain.ReplayDrain?)
  }

  predicate InPhase(t: Thread, l: Lifecycle) {
    match t.pc
    case Loading => l.Uninitialized?
    case JoinSave => l.Joining?
    case RecoverSave => l.Recovering?
    case CatchSave => l.CatchingUp?
    case BufferSave => l.BufferingLive?
    case LiveSave => l.Live? || l.RetryingDeferred?
    case LiveRetry(_) => l.Live? || l.RetryingDeferred?
    case Draining(d) => if d.FetchDrain? then l.Joining? else if d.ReplayDrain? then l.Recovering? else l.CatchingUp?
    case AwaitingJob(d, _) =>
      if d.FetchDrain? then l.Joining? else if d.ReplayDrain? then l.Recovering?
      else if d.HistoryDrain? then l.CatchingUp? else l.BufferingLive?
    case _ => true
  }

  /** One continuation at most holds the right to enter catching_up; while the
      join timer is pending, that one is the bootstrap drain. */
  predicate Exclusive(ts: seq<Thread>, g: nat, timerFired: bool) {
    (forall i :: 0 <= i < |ts| ==> ts[i].gen <= g && ts[i].pc != Draining(BufferDrain)) &&
    (forall i, j :: 0 <= i < j < |ts| ==> !(Main(ts[i], g, timerFired) && Main(ts[j], g, timerFired))) &&
    (forall i, j :: 0 <= i < j < |ts| ==> !(Fetcher(ts[i], g) && Fetcher(ts[j], g))) &&
    (forall i, j :: 0 <= i < j < |ts| ==> !(Timing(ts[i], g) && Timing(ts[j], g))) &&
    (forall i, j :: 0 <= i < |ts| && 0 <= j < |ts| && Timing(ts[i], g) && Main(ts[j], g, timerFired) ==> Fetching(ts[j])) &&
    (forall i, j :: 0 <= i < |ts| && 0 <= j < |ts| && i != j ==> !(Current(ts[i], g) && Early(ts[i]) && Current(ts[j], g)))
  }

  /** Whoever holds it is in the phase of its step, and the sole historical drain
      has not been opened before. */
  predicate Tallied(s: State) {
    var ts, g := s.threads, s.generation;
    (forall i :: 0 <= i < |ts| && Timing(ts[i], g) ==>
      !s.timerFired && s.catchUps == 0 && !s.seen.reentered && s.lifecycle.Joining?) &&
    (forall i :: 0 <= i < |ts| && Current(ts[i], g) && Early(ts[i]) ==> s.catchUps == 0 && !s.seen.reentered) &&
    (forall i :: 0 <= i < |ts| && Main(ts[i], g, s.timerFired) && !s.seen.reentered ==>
      InPhase(ts[i], s.lifecycle) && (BeforeCut(ts[i]) ==> s.catchUps == 0)) &&
    (forall i :: 0 <= i < |ts| && Main(ts[i], g, s.timerFired) && !ts[i].pc.Loading? ==> !s.lifecycle.Uninitialized?) &&
    (s.lifecycle.Uninitialized? ==> s.catchUps == 0) &&
    s.seen.drains <= s.catchUps && s.seen.drains <= 1
  }

  predicate OneWinner(s: State) {
    Exclusive(s.threads, s.generation, s.timerFired) && Tallied(s)
  }

  /** Some continuations end. */
  predicate SomeEnd(ts: seq<Thread>, us: seq<Thread>) {
    |us| == |ts| &&
    forall i :: 0 <= i < |ts| ==> us[i] == ts[i] || (us[i].pc.Done? && us[i].gen == ts[i].gen)
  }

  lemma ExclusiveFewer(ts: seq<Thread>, us: seq<Thread>, g: nat, timerFired: bool)
    requires Exclusive(ts, g, timerFired) && SomeEnd(ts, us)
    ensures Exclusive(us, g, timerFired)
  {
    assert forall i :: 0 <= i < |ts| && Current(us[i], g) ==> us[i] == ts[i];
    assert forall i :: 0 <= i < |ts| ==> us[i].pc != Draining(BufferDrain) && us[i].gen <= g;
    hide Current, Early, Fetching;
  }

  lemma FewerKeeps(s: State, t: State)
    requires OneWinner(s) && SomeEnd(s.threads, t.threads) && t == s.(threads := t.threads)
    ensures OneWinner(t)
  {
    ExclusiveFewer(s.threads, t.threads, s.generation, s.timerFired);
    assert forall i :: 0 <= i < |s.threads| && Current(t.threads[i], s.generation) ==> t.threads[i] == s.threads[i];
    hide Exclusive, Current, InPhase, BeforeCut, Early, Fetching;
  }

  lemma FinishKeeps(s: State, i: nat)
    requires OneWinner(s) && i < |s.threads|
    ensures OneWinner(Finish(s, i))
  {
    hide OneWinner;
    FewerKeeps(s, Finish(s, i));
  }

  /** The continuation with the right to cut over moves on. */
  lemma MoveKeeps(s: State, t: State, i: nat)
    requires OneWinner(s) && i < |s.threads| && Main(s.threads[i], s.generation, s.timerFired)
    requires |t.threads| == |s.threads| && t.threads == s.threads[i := t.threads[i]]
    requires t.threads[i].gen == s.threads[i].gen && Main(t.threads[i], t.generation, t.timerFired)
    requires t.generation == s.generation && t.timerFired == s.timerFired && t.catchUps == s.catchUps && t.seen.drains == s.seen.drains
    requires t.seen.reentered == s.seen.reentered || (t.seen.reentered && NoTimer(s) && !Early(t.threads[i]))
    requires !t.lifecycle.Uninitialized? && (Early(t.threads[i]) ==> Early(s.threads[i]))
    requires Fetching(s.threads[i]) == Fetching(t.threads[i]) || (!Fetching(t.threads[i]) && NoTimer(s))
    requires t.threads[i].pc != Draining(BufferDrain)
    requires !t.seen.reentered ==> InPhase(t.threads[i], t.lifecycle) && (BeforeCut(t.threads[i]) ==> BeforeCut(s.threads[i]))
    ensures OneWinner(t)
  {
  }

  predicate NoTimer(s: State) {
    forall i :: 0 <= i < |s.threads| ==> !Timing(s.threads[i], s.generation)
  }

  lemma OnlyFetchersHaveTimers(s: State, i: nat)
    requires OneWinner(s) && i < |s.threads| && Main(s.threads[i], s.generation, s.timerFired) && !Fetching(s.threads[i])
    ensures NoTimer(s)
  {
  }

  lemma ClearKeeps(s: State)
    requires OneWinner(s)
    ensures OneWinner(ClearTimer(s, s.generation)) && NoTimer(ClearTimer(s, s.generation))
  {
    hide OneWinner;
    FewerKeeps(s, ClearTimer(s, s.generation));
  }

  /** A late bootstrap drain moves on beside the cutover. */
  lemma LateKeeps(s: State, t: State, i: nat)
    requires OneWinner(s) && i < |s.threads| && Fetcher(s.threads[i], s.generation) && s.timerFired
    requires |t.threads| == |s.threads| && t.threads == s.threads[i := t.threads[i]]
    requires t.threads[i].gen == s.threads[i].gen && (Fetching(t.threads[i]) || t.threads[i].pc.LateSave?)
    requires t.generation == s.generation && t.timerFired && t.catchUps == s.catchUps && t.lifecycle == s.lifecycle
    requires t.seen.drains == s.seen.drains && t.seen.reentered == s.seen.reentered
    ensures OneWinner(t)
  {
    assert !Main(t.threads[i], t.generation, true) && !Timing(t.threads[i], t.generation) && !Early(t.threads[i]);
    assert Current(s.threads[i], s.generation) && !Early(s.threads[i]);
    hide InPhase, BeforeCut, Early;
  }

  /** A continuation in its retry pass or its clearing stays there. */
  lemma StayKeeps(s: State, t: State, i: nat)
    requires OneWinner(s) && i < |s.threads| && |t.threads| == |s.threads|
    requires t.threads == s.threads[i := s.threads[i].(pc := t.threads[i].pc)]
    requires (s.threads[i].pc.Clearing? && t.threads[i].pc.Clearing?) || (s.threads[i].pc.LiveRetry? && t.threads[i].pc.LiveRetry?)
    requires t.generation == s.generation && t.timerFired == s.timerFired && t.catchUps == s.catchUps
    requires t.seen == s.seen && t.lifecycle == s.lifecycle
    ensures OneWinner(t)
  {
    var g := s.generation;
    forall j | 0 <= j < |s.threads| ensures Alike(s.threads[j], t.threads[j], g, s.timerFired, s.lifecycle) { }
    AlikeExclusive(s.threads, t.threads, g, s.timerFired, s.lifecycle);
    hide Exclusive;
    AlikeTallied(s, t);
  }

  /** Two continuations that the invariant cannot tell apart. */
  predicate Alike(a: Thread, b: Thread, g: nat, timerFired: bool, l: Lifecycle) {
    a.gen == b.gen && (a.pc == Draining(BufferDrain) <==> b.pc == Draining(BufferDrain)) && (a.pc.Loading? <==> b.pc.Loading?) &&
    (Current(a, g) <==> Current(b, g)) && (Early(a) <==> Early(b)) && (Fetching(a) <==> Fetching(b)) &&
    (Timing(a, g) <==> Timing(b, g)) && (Main(a, g, timerFired) <==> Main(b, g, timerFired)) &&
    (InPhase(a, l) <==> InPhase(b, l)) && (BeforeCut(a) <==> BeforeCut(b))
  }

  lemma AlikeExclusive(ts: seq<Thread>, us: seq<Thread>, g: nat, timerFired: bool, l: Lifecycle)
    requires Exclusive(ts, g, timerFired) && |us| == |ts|
    requires forall j :: 0 <= j < |ts| ==> Alike(ts[j], us[j], g, timerFired, l)
    ensures Exclusive(us, g, timerFired)
  {
    assert forall j :: 0 <= j < |ts| ==> us[j].gen <= g && us[j].pc != Draining(BufferDrain);
    hide Current, Early, Fetching, Timing, Main, InPhase, BeforeCut;
  }

  lemma AlikeTallied(s: State, t: State)
    requires Tallied(s) && |t.threads| == |s.threads|
    requires forall j :: 0 <= j < |s.threads| ==> Alike(s.threads[j], t.threads[j], s.generation, s.timerFired, s.lifecycle)
    requires t.generation == s.generation && t.timerFired == s.timerFired && t.catchUps == s.catchUps
    requires t.seen == s.seen && t.lifecycle == s.lifecycle
    ensures Tallied(t)
  {
    hide Current, Early, Fetching, Timing, Main, InPhase, BeforeCut;
  }

  /** Nothing that OneWinner looks at has changed. */
  lemma SameKeeps(s: State, t: State)
    requires OneWinner(s) && t.threads == s.threads && t.generation == s.generation && t.timerFired == s.timerFired
    requires t.catchUps == s.catchUps && t.seen.drains == s.seen.drains && t.seen.reentered == s.seen.reentered
    requires t.lifecycle == s.lifecycle
    ensures OneWinner(t)
  {
  }

  /** Between live and retrying_deferred the cutover is over or in its last steps. */
  lemma ToggleKeeps(s: State, t: State)
    requires OneWinner(s) && t.threads == s.threads && t.generation == s.generation && t.timerFired == s.timerFired
    requires t.catchUps == s.catchUps && t.seen.drains == s.seen.drains && t.seen.reentered == s.seen.reentered
    requires (t.lifecycle.Live? || t.lifecycle.RetryingDeferred?) && !s.lifecycle.Uninitialized?
    requires s.seen.reentered || s.lifecycle.Live? || s.lifecycle.RetryingDeferred?
    ensures OneWinner(t)
  {
  }

  /** A bootstrap drain and its timer, with nobody beside them, exclude each other. */
  lemma DrainAndTimer(ts: seq<Thread>, g: nat, i: nat, n: nat)
    requires i < n < |ts| && forall j :: 0 <= j < |ts| ==> ts[j].gen <= g && ts[j].pc != Draining(BufferDrain)
    requires forall j :: 0 <= j < |ts| && Current(ts[j], g) ==> j == i || j == n
    requires ts[i].pc == Draining(FetchDrain) && ts[n].pc.JoinTimer?
    ensures Exclusive(ts, g, false)
  {
    assert !Early(ts[i]) && Fetching(ts[i]) && !Timing(ts[i], g);
    assert !Main(ts[n], g, false) && !Early(ts[n]) && !Fetching(ts[n]);
    hide Current, Early, Fetching;
  }

  /** The bootstrap drain begins and its timer is armed. */
  lemma ArmKeeps(s: State, t: State, i: nat, timer: Thread)
    requires OneWinner(s) && i < |s.threads| && s.threads[i].pc.JoinSave? && s.threads[i].gen == s.generation
    requires t.threads == s.threads[i := s.threads[i].(pc := Draining(FetchDrain))] + [timer]
    requires timer.gen == s.generation && timer.pc.JoinTimer? && !t.timerFired
    requires t == s.(threads := t.threads, timerFired := false)
    ensures OneWinner(t)
  {
    var n, g := |s.threads|, s.generation;
    assert Current(s.threads[i], g) && Early(s.threads[i]) && Main(s.threads[i], g, s.timerFired);
    forall j | 0 <= j < n && j != i ensures t.threads[j] == s.threads[j] && !Current(t.threads[j], g) { }
    assert !s.seen.reentered && s.catchUps == 0 && s.lifecycle.Joining?;
    assert Exclusive(t.threads, g, false) by { hide Tallied; DrainAndTimer(t.threads, g, i, n); }
    hide Exclusive;
    assert !Early(t.threads[i]) && !Timing(t.threads[i], g) && InPhase(t.threads[i], t.lifecycle);
    assert !Main(t.threads[n], g, false) && !Early(t.threads[n]);
    hide Current, InPhase, BeforeCut, Early, Fetching;
  }

  lemma WinnerJoined(s: State, i: nat)
    requires OneWinner(s) && i < |s.threads| && s.threads[i].pc.JoinSave?
    ensures OneWinner(OnJoined(s, i))
  {
    FinishKeeps(s, i);
    hide OneWinner;
    if !Stale(s, i) { ArmKeeps(s, OnJoined(s, i), i, Thread(s.generation, JoinTimer, false)); }
  }

  /** The timer wins: the bootstrap drain loses the right to cut over. */
  lemma FireKeeps(s: State, t: State, i: nat)
    requires OneWinner(s) && i < |s.threads| && s.threads[i].pc.JoinTimer? && s.threads[i].gen == s.generation
    requires t.threads == s.threads[i := s.threads[i].(pc := CatchSave)] && t.timerFired && t.lifecycle.CatchingUp?
    requires t == s.(threads := t.threads, timerFired := true, lifecycle := CatchingUp, effects := t.effects, savers := t.savers)
    ensures OneWinner(t)
  {
    var g := s.generation;
    assert Timing(s.threads[i], g) && !s.seen.reentered && s.catchUps == 0;
    forall j | 0 <= j < |s.threads| && j != i
      ensures t.threads[j] == s.threads[j] && !Timing(t.threads[j], g) && !Main(t.threads[j], g, true)
    {
      if Main(s.threads[j], g, s.timerFired) { assert Fetching(s.threads[j]); }
    }
    assert Current(t.threads[i], g) && Main(t.threads[i], g, true) && !Timing(t.threads[i], g) && !Fetching(t.threads[i]);
    assert Exclusive(t.threads, g, true) by { hide Tallied, InPhase, BeforeCut; }
    hide Exclusive, Current, Early, Fetching;
  }

  lemma WinnerTimer(s: State, i: nat)
    requires OneWinner(s) && i < |s.threads| && s.threads[i].pc.JoinTimer?
    ensures OneWinner(OnResume(s, i, Ready))
  {
    FinishKeeps(s, i);
    hide OneWinner;
    if !Stale(s, i) { FireKeeps(s, OnResume(s, i, Ready), i); }
  }

  lemma WinnerThrow(s: State, i: nat)
    requires OneWinner(s) && i < |s.threads| && Main(s.threads[i], s.generation, s.timerFired) && !Fetching(s.threads[i])
    requires s.generation in s.subscriptions || s.threads[i].pc.CatchSave?
    ensures OneWinner(Throw(s, i))
  {
    FinishKeeps(s, i);
    OnlyFetchersHaveTimers(s, i);
    PhaseOf(s, i);
    hide OneWinner;
    if Throw(s, i) != Finish(s, i) { MoveKeeps(s, Throw(s, i), i); }
  }

  lemma OpenKeeps(s: State, t: State, i: nat)
    requires OneWinner(s) && i < |s.threads| && s.threads[i].pc.CatchSave? && s.threads[i].gen == s.generation && s.catchUps == 0
    requires t.threads == s.threads[i := s.threads[i].(pc := Draining(HistoryDrain))]
    requires t.generation == s.generation && t.timerFired == s.timerFired && t.lifecycle == s.lifecycle
    requires t.catchUps == 1 && t.seen == s.seen.(drains := s.seen.drains + 1)
    ensures OneWinner(t)
  {
    assert Main(s.threads[i], s.generation, s.timerFired) && Main(t.threads[i], t.generation, t.timerFired);
    assert !Early(t.threads[i]) && !Fetching(t.threads[i]) && !BeforeCut(t.threads[i]);
    assert !s.seen.reentered ==> InPhase(t.threads[i], t.lifecycle);
    OnlyFetchersHaveTimers(s, i);
    MainIsNotAlone(s, i);
    hide InPhase, BeforeCut, Early, Fetching;
  }

  lemma MainIsNotAlone(s: State, i: nat)
    requires OneWinner(s) && i < |s.threads| && Main(s.threads[i], s.generation, s.timerFired) && !Early(s.threads[i])
    ensures forall j :: 0 <= j < |s.threads| && Current(s.threads[j], s.generation) ==> !Early(s.threads[j])
    ensures forall j :: 0 <= j < |s.threads| && j != i ==> !Main(s.threads[j], s.generation, s.timerFired)
  {
  }

  lemma WinnerCatchSave(s: State, i: nat, a: Answer)
    requires OneWinner(s) && i < |s.threads| && s.threads[i].pc.CatchSave? && !Stale(s, i)
    ensures OneWinner(OpenAndCatchUp(s, i, a))
  {
    hide OneWinner;
    var s1 := s.(liveBuffer := [], subscriptions := s.subscriptions + {s.threads[i].gen}, catchUps := s.catchUps + 1);
    if a.Failed? {
      SameKeeps(s, s.(liveBuffer := []));
      WinnerThrow(s.(liveBuffer := []), i);
    } else if s1.catchUps > 1 {
      MoreCatchUps(s, s1, i);
      WinnerThrow(s1, i);
    } else {
      OpenKeeps(s, OpenAndCatchUp(s, i, a), i);
    }
  }

  /** The guard against a second drain trips only after a re-entry. */
  lemma MoreCatchUps(s: State, s1: State, i: nat)
    requires OneWinner(s) && i < |s.threads| && s.threads[i].pc.CatchSave? && !Stale(s, i) && s.catchUps > 0
    requires s1 == s.(liveBuffer := s1.liveBuffer, subscriptions := s1.subscriptions, catchUps := s.catchUps + 1)
    ensures s.seen.reentered && OneWinner(s1)
  {
  }

  lemma WinnerEnterCatchingUp(s: State, i: nat)
    requires OneWinner(s) && i < |s.threads| && BeforeCut(s.threads[i])
    requires !Stale(s, i) ==> Main(s.threads[i], s.generation, s.timerFired) && (Fetching(s.threads[i]) ==> NoTimer(s))
    ensures OneWinner(EnterCatchingUp(s, i))
  {
    FinishKeeps(s, i);
    hide OneWinner, NoTimer;
    if !Stale(s, i) { MoveKeeps(s, EnterCatchingUp(s, i), i); }
  }

  lemma WinnerEnterLate(s: State, i: nat)
    requires OneWinner(s) && i < |s.threads|
    requires !Stale(s, i) ==> Main(s.threads[i], s.generation, s.timerFired) && !Fetching(s.threads[i])
    ensures OneWinner(EnterBufferingLive(s, i)) && OneWinner(EnterLive(s, i))
  {
    FinishKeeps(s, i);
    hide OneWinner, NoTimer;
    if !Stale(s, i) {
      MoveKeeps(s, EnterBufferingLive(s, i), i);
      MoveKeeps(s, EnterLive(s, i), i);
    }
  }

  lemma WinnerRoute(s: State, i: nat)
    requires OneWinner(s) && i < |s.threads| && s.threads[i].pc.Loading?
    ensures OneWinner(EnterJoining(s, i)) && OneWinner(EnterRecovering(s, i))
  {
    FinishKeeps(s, i);
    hide OneWinner;
    if !Stale(s, i) {
      MoveKeeps(s, EnterJoining(s, i), i);
      MoveKeeps(s, EnterRecovering(s, i), i);
    }
  }

  lemma WinnerFetch(s: State, i: nat, a: Answer)
    requires OneWinner(s) && i < |s.threads| && s.threads[i].pc == Draining(FetchDrain)
    ensures OneWinner(OnDraining(s, i, a))
  {
    FinishKeeps(s, i);
    if !Stale(s, i) {
      ClearKeeps(s);
      hide OneWinner;
      var t := OnDraining(s, i, a);
      if s.timerFired {
        if t != s && t != Finish(s, i) { LateKeeps(s, t, i); }
      } else if a.Ended? || a.Failed? {
        var s1 := ClearTimer(s, s.generation);
        var s2 := if a.Ended? then s1.(bootstrapCompleted := true, seen := s.seen.(drained := true)) else s1;
        SameKeeps(s1, s2);
        WinnerEnterCatchingUp(s2, i);
      } else if a.Next? {
        PhaseOf(s, i);
        MoveKeeps(s, t, i);
      }
    } else {
      SameKeeps(s, s);
    }
  }

  lemma PhaseOf(s: State, i: nat)
    requires OneWinner(s) && i < |s.threads| && Main(s.threads[i], s.generation, s.timerFired)
    ensures !s.seen.reentered ==> InPhase(s.threads[i], s.lifecycle)
  {
  }

  lemma WinnerDraining(s: State, i: nat, a: Answer)
    requires OneWinner(s) && i < |s.threads| && s.threads[i].pc.Draining?
    ensures OneWinner(OnDraining(s, i, a))
  {
    if s.threads[i].pc.drain.FetchDrain? {
      WinnerFetch(s, i, a);
    } else {
      FinishKeeps(s, i);
      assert !s.threads[i].pc.drain.BufferDrain?;
      WinnerDrained(s, i);
      hide OneWinner, EnterCatchingUp, EnterBufferingLive;
      if !Stale(s, i) && a.Next? { WinnerNext(s, i, a.signal); }
    }
  }

  lemma WinnerDrained(s: State, i: nat)
    requires OneWinner(s) && i < |s.threads| && (s.threads[i].pc == Draining(ReplayDrain) || s.threads[i].pc == Draining(HistoryDrain))
    ensures OneWinner(EnterBufferingLive(s, i))
    ensures s.threads[i].pc == Draining(ReplayDrain) ==> OneWinner(EnterCatchingUp(s, i))
  {
    hide OneWinner;
    WinnerEnterLate(s, i);
    if s.threads[i].pc.drain.ReplayDrain? { WinnerEnterCatchingUp(s, i); }
  }

  lemma WinnerNext(s: State, i: nat, x: Signal)
    requires OneWinner(s) && i < |s.threads| && !Stale(s, i)
    requires s.threads[i].pc == Draining(ReplayDrain) || s.threads[i].pc == Draining(HistoryDrain)
    ensures OneWinner(OnDraining(s, i, Next(x)))
  {
    PhaseOf(s, i);
    hide OneWinner;
    MoveKeeps(s, OnDraining(s, i, Next(x)), i);
  }

  lemma WinnerAwaited(s: State, i: nat)
    requires OneWinner(s) && i < |s.threads| && s.threads[i].pc.AwaitingJob?
    ensures OneWinner(OnAwaited(s, i))
  {
    FinishKeeps(s, i);
    hide OneWinner;
    var t := OnAwaited(s, i);
    if !Stale(s, i) && t != s {
      if Fetching(s.threads[i]) && s.timerFired {
        LateKeeps(s, t, i);
      } else if s.threads[i].pc.drain.BufferDrain? {
        WinnerBuffer(s, i);
      } else {
        PhaseOf(s, i);
        MoveKeeps(s, t, i);
      }
    }
  }

  lemma WinnerBuffer(s: State, i: nat)
    requires OneWinner(s) && i < |s.threads| && Main(s.threads[i], s.generation, s.timerFired)
    requires s.threads[i].pc.BufferSave? || (s.threads[i].pc.AwaitingJob? && s.threads[i].pc.drain.BufferDrain?)
    ensures OneWinner(DrainBuffer(s, i))
  {
    PhaseOf(s, i);
    hide OneWinner;
    WinnerEnterLate(s, i);
    if |s.liveBuffer| > 0 { MoveKeeps(s, DrainBuffer(s, i), i); }
  }

  lemma WinnerLive(s: State, i: nat, a: Answer)
    requires OneWinner(s) && i < |s.threads| && s.threads[i].pc.LiveSave?
    ensures OneWinner(OnLive(s, i, a))
  {
    FinishKeeps(s, i);
    if !Stale(s, i) {
      PhaseOf(s, i);
      hide OneWinner;
      if a.Retry? {
        MoveKeeps(s, OnLive(s, i, a), i);
      } else {
        SameKeeps(Finish(s, i), OnLive(s, i, a));
      }
    }
  }

  lemma WinnerLiveRetry(s: State, i: nat, a: Answer)
    requires OneWinner(s) && RetriesOpened(s) && i < |s.threads| && s.threads[i].pc.LiveRetry?
    ensures OneWinner(OnLiveRetry(s, i, a))
  {
    FinishKeeps(s, i);
    hide OneWinner, Throw;
    var t := OnLiveRetry(s, i, a);
    if LooksAtNothing(s.threads[i].pc.due) {
      DueShape(s, t, i, a);
      hide OnLiveRetry;
      StayKeeps(s, t, i);
    } else if Stale(s, i) {
      StaleThrow(s, i);
    } else if a.Failed? {
      WinnerThrow(s, i);
    } else {
      PassShape(s, t, i, a);
      hide OnLiveRetry;
      WinnerPass(s, t, i);
    }
  }

  /** What is due is done, and the continuation stays where it is. */
  lemma DueShape(s: State, t: State, i: nat, a: Answer)
    requires i < |s.threads| && s.threads[i].pc.LiveRetry? && t == OnLiveRetry(s, i, a) && LooksAtNothing(s.threads[i].pc.due)
    ensures t == s.(threads := s.threads[i := s.threads[i].(pc := LiveRetry(Idle))], effects := t.effects)
  {
  }

  /** The pass goes on, or ends in live. */
  lemma PassShape(s: State, t: State, i: nat, a: Answer)
    requires i < |s.threads| && s.threads[i].pc.LiveRetry? && t == OnLiveRetry(s, i, a)
    requires !LooksAtNothing(s.threads[i].pc.due) && !Stale(s, i) && !a.Failed?
    ensures |t.threads| == |s.threads| && t.threads == s.threads[i := s.threads[i].(pc := t.threads[i].pc)]
    ensures t == s.(threads := t.threads, effects := t.effects, savers := t.savers, lifecycle := t.lifecycle)
    ensures t.threads[i].pc.LiveRetry? || t.threads[i].pc.Done?
    ensures t.lifecycle == s.lifecycle || t.lifecycle.Live? || t.lifecycle.RetryingDeferred?
  {
  }

  lemma WinnerPass(s: State, t: State, i: nat)
    requires OneWinner(s) && i < |s.threads| && s.threads[i].pc.LiveRetry? && !Stale(s, i)
    requires |t.threads| == |s.threads| && t.threads == s.threads[i := s.threads[i].(pc := t.threads[i].pc)]
    requires t == s.(threads := t.threads, effects := t.effects, savers := t.savers, lifecycle := t.lifecycle)
    requires t.threads[i].pc.LiveRetry? || t.threads[i].pc.Done?
    requires t.lifecycle == s.lifecycle || t.lifecycle.Live? || t.lifecycle.RetryingDeferred?
    ensures OneWinner(t)
  {
    PhaseOf(s, i);
    var u := s.(lifecycle := t.lifecycle, effects := t.effects, savers := t.savers);
    assert !s.lifecycle.Uninitialized?;
    hide OneWinner;
    MoveKeeps(s, u, i);
    if t.threads[i].pc.LiveRetry? {
      StayKeeps(u, t, i);
    } else {
      FinishKeeps(u, i);
      assert t == Finish(u, i);
    }
  }

  lemma StaleThrow(s: State, i: nat)
    requires i < |s.threads| && Stale(s, i)
    ensures Throw(s, i) == Finish(s, i)
  {
  }

  lemma WinnerClearing(s: State, i: nat, a: Answer)
    requires OneWinner(s) && i < |s.threads| && s.threads[i].pc.Clearing?
    ensures OneWinner(OnClearing(s, i, a))
  {
    FinishKeeps(s, i);
    var t := OnClearing(s, i, a);
    if !s.threads[i].pc.restIssued && !a.Failed? {
      hide OneWinner;
      StayKeeps(s, t, i);
    } else if !Stale(s, i) && !a.Failed? {
      assert Current(s.threads[i], s.generation) && Early(s.threads[i]);
      assert forall j :: 0 <= j < |t.threads| ==> !Current(t.threads[j], t.generation);
      ExclusiveFewer(s.threads, t.threads, s.generation, s.timerFired);
      assert s.catchUps == 0;
      hide Exclusive, Current;
    }
  }

  lemma WinnerResume(s: State, i: nat, a: Answer)
    requires OneWinner(s) && RetriesOpened(s) && i < |s.threads|
    ensures OneWinner(OnResume(s, i, a))
  {
    FinishKeeps(s, i);
    hide OneWinner, RetriesOpened;
    match s.threads[i].pc
    case Loading => WinnerRoute(s, i);
    case JoinSave => WinnerJoined(s, i);
    case RecoverSave => if !Stale(s, i) { PhaseOf(s, i); MoveKeeps(s, OnResume(s, i, a), i); }
    case Draining(_) => WinnerDraining(s, i, a);
    case AwaitingJob(_, _) => WinnerAwaited(s, i);
    case JoinTimer => WinnerTimer(s, i);
    case CatchSave => if !Stale(s, i) { WinnerCatchSave(s, i, a); }
    case BufferSave => if !Stale(s, i) { WinnerBuffer(s, i); }
    case LiveSave => WinnerLive(s, i, a);
    case LiveRetry(_) => WinnerLiveRetry(s, i, a);
    case LateSave =>
    case Clearing(_) => WinnerClearing(s, i, a);
    case Done =>
  }

  /** The retry pass of enterLive comes after live input has been opened. */
  predicate RetriesOpened(s: State) {
    forall i :: 0 <= i < |s.threads| && Current(s.threads[i], s.generation) && s.threads[i].pc.LiveRetry? ==>
      s.generation in s.subscriptions
  }

  /** A new generation begins with at most one continuation of its own. */
  lemma FreshGeneration(s: State, t: State)
    requires OneWinner(s) && t.generation == s.generation + 1 && t.seen == NOTHING_SEEN
    requires |t.threads| == |s.threads| || |t.threads| == |s.threads| + 1
    requires forall i :: 0 <= i < |s.threads| ==>
      t.threads[i].gen == s.threads[i].gen && t.threads[i].pc != Draining(BufferDrain)
    requires |t.threads| > |s.threads| ==>
      var n := t.threads[|s.threads|];
      n.gen == t.generation && t.catchUps == 0 && ((n.pc.Loading? && t.lifecycle.Uninitialized?) || n.pc.Clearing?)
    requires t.lifecycle.Uninitialized? ==> t.catchUps == 0
    ensures OneWinner(t)
  {
    forall i | 0 <= i < |s.threads| ensures t.threads[i].gen <= s.generation && !Current(t.threads[i], t.generation) {
      assert s.threads[i].gen <= s.generation;
    }
    ExclusiveFresh(t.threads, |s.threads|, t.generation, t.timerFired);
    TalliedFresh(t, |s.threads|);
  }

  lemma ExclusiveFresh(us: seq<Thread>, n: nat, g: nat, timerFired: bool)
    requires n <= |us| <= n + 1 && forall i :: 0 <= i < n ==> us[i].gen < g && us[i].pc != Draining(BufferDrain)
    requires |us| > n ==> us[n].gen == g && us[n].pc != Draining(BufferDrain) && !us[n].pc.JoinTimer?
    ensures Exclusive(us, g, timerFired)
  {
    assert forall i :: 0 <= i < n ==> !Current(us[i], g);
    assert forall i :: 0 <= i < |us| ==> !Timing(us[i], g);
    hide Current, Early, Fetching, Timing;
  }

  lemma TalliedFresh(t: State, n: nat)
    requires n <= |t.threads| <= n + 1 && forall i :: 0 <= i < n ==> t.threads[i].gen < t.generation
    requires t.seen == NOTHING_SEEN && (t.lifecycle.Uninitialized? ==> t.catchUps == 0)
    requires |t.threads| > n ==>
      t.catchUps == 0 && ((t.threads[n].pc.Loading? && t.lifecycle.Uninitialized?) || t.threads[n].pc.Clearing?)
    ensures Tallied(t)
  {
    assert forall i :: 0 <= i < n ==> !Current(t.threads[i], t.generation);
  }

  lemma WinnerStart(s: State, welcome: bool)
    requires OneWinner(s)
    ensures OneWinner(OnStart(s, welcome))
  {
    hide OneWinner, EnterJoining, EnterRecovering;
    if s.lifecycle.Uninitialized? && !Starting(s) {
      var s1 := s.(generation := s.generation + 1, seen := NOTHING_SEEN);
      var s2 := Spawn(s1, Thread(s1.generation, Loading, true));
      StartIsFresh(s, s2);
      WinnerRoute(s2, |s.threads|);
    }
  }

  lemma StartIsFresh(s: State, t: State)
    requires OneWinner(s) && s.lifecycle.Uninitialized?
    requires t == Spawn(s.(generation := s.generation + 1, seen := NOTHING_SEEN), Thread(s.generation + 1, Loading, true))
    ensures OneWinner(t)
  {
    assert s.catchUps == 0;
    assert forall i :: 0 <= i < |s.threads| ==> t.threads[i] == s.threads[i] && s.threads[i].pc != Draining(BufferDrain);
    hide OneWinner;
    FreshGeneration(s, t);
  }

  lemma WinnerStop(s: State)
    requires OneWinner(s)
    ensures OneWinner(OnStop(s))
  {
    if !s.lifecycle.Stopped? && !s.lifecycle.Uninitialized? { FreshGeneration(s, OnStop(s)); }
  }

  lemma WinnerReset(s: State)
    requires OneWinner(s)
    ensures OneWinner(OnReset(s))
  {
    FreshGeneration(s, OnReset(s));
  }

  lemma WinnerJobStep(s: State, k: JobAction)
    requires OneWinner(s) && Toggles(s)
    ensures OneWinner(OnJobStep(s, k))
  {
    hide OneWinner;
    var t := OnJobStep(s, k);
    if t.lifecycle == s.lifecycle { SameKeeps(s, t); } else { ToggleKeeps(s, t); }
  }

  /** What the cutover does not look at. */
  predicate Beside(s: State, t: State) {
    t == s.(savers := t.savers, oldChains := t.oldChains, finishedElsewhere := t.finishedElsewhere, effects := t.effects, edits := t.edits)
  }

  lemma OldIsBeside(s: State, c: nat, k: OldAction)
    ensures Beside(s, OnOldJob(s, c, k))
  {
    hide OnOldStart, OnOldStep;
    if c < |s.oldChains| { OldStepIsBeside(s, c, if k.OldStep? then k.kind else DoWrite); }
  }

  lemma OldStepIsBeside(s: State, c: nat, k: JobAction)
    requires c < |s.oldChains|
    ensures Beside(s, OnOldStart(s, c)) && Beside(s, OnOldStep(s, c, k))
  {
  }

  lemma SaverIsBeside(s: State, k: nat, a: SaveAnswer)
    requires k < |s.savers|
    ensures Beside(s, OnSaver(s, k, a))
  {
    match s.savers[k].pc
    case Tick =>
    case _ =>
  }

  lemma WinnerOther(s: State, l: Label)
    requires OneWinner(s)
    requires l.Arrive? || l.AcceptLocal? || l.JobStart? || l.JobDue? || l.JobEnd? || l.OldJob? || l.SaverStep?
    ensures OneWinner(Step(s, l))
  {
    hide OneWinner, OnOldJob, OnSaver;
    match l
    case OldJob(c, k) => OldIsBeside(s, c, k); SameKeeps(s, OnOldJob(s, c, k));
    case SaverStep(k, a) =>
      if k < |s.savers| { SaverIsBeside(s, k, a); SameKeeps(s, OnSaver(s, k, a)); }
    case _ => SameKeeps(s, Step(s, l));
  }

  /** A handler that is retrying was live when it began, and nothing but its own
      session's end or a re-entry has taken that away. */
  predicate Toggles(s: State) {
    s.chain.running.Some? && s.chain.running.value.retrying && s.chain.running.value.job.gen == s.generation ==>
      !s.lifecycle.Uninitialized? && (s.seen.reentered || s.lifecycle.Live? || s.lifecycle.RetryingDeferred?)
  }

  lemma WinnerStep(s: State, l: Label)
    requires OneWinner(s) && Toggles(s) && RetriesOpened(s)
    ensures OneWinner(Step(s, l))
  {
    hide OneWinner, OnResume, OnStart, OnStop, OnReset, OnJobStep, OnJobStart, OnJobEnd, OnOldJob, OnArrive;
    match l
    case Start(welcome) => WinnerStart(s, welcome);
    case Resume(i, a) => if i < |s.threads| { WinnerResume(s, i, a); }
    case Stop => WinnerStop(s);
    case Reset => WinnerReset(s);
    case JobStep(k) => WinnerJobStep(s, k);
    case _ => WinnerOther(s, l);
  }
}
