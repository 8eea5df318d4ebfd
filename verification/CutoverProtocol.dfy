/** The cutover from history to live input, the join race and the generation
    fence: the engine's concurrency as a step machine. Any number of suspended
    continuations (the drains, the join timer, the handlers on the serial queue)
    may resume in any order, and stop, reset and start may come between any two
    steps (src/engine/receive-engine.ts:386-408, 498-579, 630-723, 1241-1340,
    1343-1422, 1547-1711; src/persistence/deferred-store.ts:139-204). */

module CutoverProtocol {
  import opened Wrappers
  import opened EngineTypes

  type Signal = string

  datatype Origin = Bootstrap | Replayed | Historical | Pushed | Local

  datatype Job = Job(id: nat, gen: nat, origin: Origin, signal: Signal)

  /** What comes next whatever has happened in between: the rejection of a write
      that has run out of retries, the second write of an acceptance, the end of
      a local edit's append, its announcement. The first two look at nothing. */
  datatype Due = Idle | ReportDue | SecondDue | AppendDue | AnnounceDue

  /** A handler between two awaits. */
  datatype Running = Running(job: Job, retrying: bool, due: Due)

  datatype Chain = Chain(pending: seq<Job>, running: Option<Running>)

  datatype Drain = FetchDrain | ReplayDrain | HistoryDrain | BufferDrain

  /** Where a continuation is suspended. */
  datatype Pc =
    | Loading | JoinSave | RecoverSave | CatchSave | BufferSave | LiveSave | LateSave
    | Draining(drain: Drain)
    | AwaitingJob(drain: Drain, id: nat)
    | JoinTimer | LiveRetry(due: Due) | Clearing(restIssued: bool) | Done

  /** `starter`: the call of start() itself. */
  datatype Thread = Thread(gen: nat, pc: Pc, starter: bool)

  /** A phase change carries the checkpoint save that it issues. */
  datatype Kind = PhaseChange | Emission | Write | ExhaustedReport | SecondWrite | Removal

  /** Something visible: done by a continuation of generation `doer` during generation `during`. */
  datatype Effect = Effect(doer: nat, during: nat, kind: Kind)

  /** What has happened in the current generation. `drained`: the bootstrap drain
      has ended normally before its timer. `reentered`: catching_up was entered
      again after live input had been opened; `reopened`: before that. */
  datatype Seen = Seen(arrived: seq<Signal>, handledLive: seq<Signal>, yielded: seq<Signal>,
                       handledBootstrap: seq<Signal>, order: seq<Origin>, drains: nat,
                       drained: bool, reentered: bool, reopened: bool)

  const NOTHING_SEEN := Seen([], [], [], [], [], 0, false, false, false)

  /** A local edit whose handler has ended: the generation it took when it
      started, whether its append had landed, the generation in which the
      handler ended, and whether it announced the edit. */
  datatype Edit = Edit(signal: Signal, taken: nat, landed: bool, ended: nat, announced: bool)

  /** A checkpoint save with its detached retry, or the periodic save: its timer is
      armed and its handle kept, armed with the handle overwritten, or it has fired. */
  datatype SaverPc = FirstTry | Retrying | BackingOff | Tick | LooseTick | TickSave | Settled

  datatype Saver = Saver(gen: nat, pc: SaverPc)

  datatype State = State(
    generation: nat, lifecycle: Lifecycle, catchUps: nat, bootstrapCompleted: bool, timerFired: bool,
    liveBuffer: seq<Signal>, subscriptions: set<nat>, threads: seq<Thread>, savers: seq<Saver>,
    chain: Chain, oldChains: seq<Chain>, nextJob: nat, finished: set<nat>, finishedElsewhere: set<nat>,
    seen: Seen, effects: seq<Effect>, edits: seq<Edit>)

  const INITIAL :=
    State(0, Uninitialized, 0, false, false, [], {}, [], [], Chain([], None), [], 0, {}, {}, NOTHING_SEEN, [], [])

  /** What the environment answers to a suspended continuation. */
  datatype Answer = Ready | Next(signal: Signal) | Ended | Failed | RouteJoin | RouteRecover | Retry | Unneeded | Halfway | Exhausted

  /** How a save attempt ends; `Over`: overtaken by a newer save, or out of attempts.
      A timer fires whatever the answer. */
  datatype SaveAnswer = Saved | Refused | Over

  datatype Label =
    | Start(welcome: bool)
    | Resume(thread: nat, answer: Answer)
    | Arrive(subscription: nat, signal: Signal)
    | AcceptLocal(signal: Signal)
    | JobStart
    | JobStep(kind: JobAction)
    | JobDue(lands: bool)
    | JobEnd
    | OldJob(index: nat, action: OldAction)
    | SaverStep(index: nat, end: SaveAnswer)
    | Stop
    | Reset

  datatype JobAction = DoWrite | DoEmit | EnterRetry | ExitRetry | GiveUp | HalfAccept

  datatype OldAction = OldStart | OldStep(kind: JobAction) | OldDue(lands: bool) | OldEnd

  // ------------------------------------------------ small moves

  function Act(s: State, doer: nat, kind: Kind): (r: State) {
    s.(effects := s.effects + [Effect(doer, s.generation, kind)])
  }

  /** The timer whose handle is kept is cleared, or loses its handle to another. */
  function Disarmed(vs: seq<Saver>, to: SaverPc): (r: seq<Saver>)
    ensures |r| == |vs|
    ensures forall k :: 0 <= k < |vs| ==> r[k] == if vs[k].pc.Tick? then vs[k].(pc := to) else vs[k]
  {
    seq(|vs|, k requires 0 <= k < |vs| => if vs[k].pc.Tick? then vs[k].(pc := to) else vs[k])
  }

  /** transitionTo: the phase changes, the periodic save's timer is cleared, and
      armed anew on the way to live, and a checkpoint save is issued. */
  function SetPhase(s: State, doer: nat, l: Lifecycle): (r: State) {
    var saves := [Saver(doer, FirstTry)] + if l.Live? then [Saver(doer, Tick)] else [];
    Act(s.(lifecycle := l, savers := Disarmed(s.savers, Settled) + saves), doer, PhaseChange)
  }

  function Goto(s: State, i: nat, pc: Pc): (r: State)
    requires i < |s.threads|
    ensures |r.threads| == |s.threads|
  {
    s.(threads := s.threads[i := s.threads[i].(pc := pc)])
  }

  function Finish(s: State, i: nat): (r: State)
    requires i < |s.threads|
  {
    Goto(s, i, Done)
  }

  function Spawn(s: State, t: Thread): (r: State) {
    s.(threads := s.threads + [t])
  }

  function Enqueue(s: State, gen: nat, origin: Origin, x: Signal): (r: State) {
    s.(chain := s.chain.(pending := s.chain.pending + [Job(s.nextJob, gen, origin, x)]), nextJob := s.nextJob + 1)
  }

  /** Enqueue a job and suspend until it is done. */
  function EnqueueAndWait(s: State, i: nat, drain: Drain, origin: Origin, x: Signal): (r: State)
    requires i < |s.threads|
  {
    Goto(Enqueue(s, s.threads[i].gen, origin, x), i, AwaitingJob(drain, s.nextJob))
  }

  function Stale(s: State, i: nat): (r: bool)
    requires i < |s.threads|
  {
    s.threads[i].gen != s.generation
  }

  function WithoutTimers(ts: seq<Thread>, gen: nat): (r: seq<Thread>)
    ensures |r| == |ts|
    ensures forall i :: 0 <= i < |ts| ==>
      r[i] == if ts[i].pc.JoinTimer? && ts[i].gen == gen then ts[i].(pc := Done) else ts[i]
  {
    seq(|ts|, i requires 0 <= i < |ts| =>
      if ts[i].pc.JoinTimer? && ts[i].gen == gen then ts[i].(pc := Done) else ts[i])
  }

  function ClearTimer(s: State, gen: nat): (r: State) {
    s.(threads := WithoutTimers(s.threads, gen))
  }

  // ------------------------------------------------ entry actions

  function EnterCatchingUp(s: State, i: nat): (r: State)
    requires i < |s.threads|
  {
    if Stale(s, i) then Finish(s, i)
    else Goto(SetPhase(s, s.threads[i].gen, CatchingUp), i, CatchSave)
  }

  function EnterBufferingLive(s: State, i: nat): (r: State)
    requires i < |s.threads|
  {
    if Stale(s, i) then Finish(s, i)
    else Goto(SetPhase(s, s.threads[i].gen, BufferingLive), i, BufferSave)
  }

  function EnterLive(s: State, i: nat): (r: State)
    requires i < |s.threads|
  {
    if Stale(s, i) then Finish(s, i)
    else Goto(SetPhase(s, s.threads[i].gen, Live), i, LiveSave)
  }

  function EnterJoining(s: State, i: nat): (r: State)
    requires i < |s.threads|
  {
    if Stale(s, i) then Finish(s, i)
    else Goto(SetPhase(s.(bootstrapCompleted := false), s.threads[i].gen, Joining), i, JoinSave)
  }

  function EnterRecovering(s: State, i: nat): (r: State)
    requires i < |s.threads|
  {
    if Stale(s, i) then Finish(s, i)
    else Goto(SetPhase(s.(bootstrapCompleted := true), s.threads[i].gen, Recovering), i, RecoverSave)
  }

  /** The head of the buffer-drain loop. */
  function DrainBuffer(s: State, i: nat): (r: State)
    requires i < |s.threads|
  {
    if |s.liveBuffer| == 0 then EnterLive(s, i)
    else EnqueueAndWait(s.(liveBuffer := s.liveBuffer[1..]), i, BufferDrain, Pushed, s.liveBuffer[0])
  }

  /** An exception that leaves enterCatchingUp. The one handler around it is the
      bootstrap drain's: it is there if that drain has ended normally before the
      timer (a drain that failed enters from the handler itself), and it enters
      catching_up once more, this time with nothing around. */
  function Throw(s: State, i: nat): (r: State)
    requires i < |s.threads|
  {
    if Stale(s, i) || !s.seen.drained || s.seen.reentered || s.seen.reopened || s.timerFired then Finish(s, i)
    else
      var open := s.generation in s.subscriptions;
      EnterCatchingUp(s.(seen := s.seen.(reentered := open, reopened := !open)), i)
  }

  /** openLive, which may throw before it has subscribed, then catchUp, which
      must not be called twice in one start. */
  function OpenAndCatchUp(s: State, i: nat, a: Answer): (r: State)
    requires i < |s.threads|
  {
    if a.Failed? then Throw(s.(liveBuffer := []), i)
    else
      var s1 := s.(liveBuffer := [], subscriptions := s.subscriptions + {s.threads[i].gen}, catchUps := s.catchUps + 1);
      if s1.catchUps > 1 then Throw(s1, i)
      else Goto(s1.(seen := s1.seen.(drains := s1.seen.drains + 1)), i, Draining(HistoryDrain))
  }

  // ------------------------------------------------ resuming a continuation

  function BootstrapEnded(s: State, i: nat): (r: State)
    requires i < |s.threads|
  {
    if Stale(s, i) then Finish(s, i)
    else if !s.timerFired then
      EnterCatchingUp(ClearTimer(s, s.threads[i].gen).(bootstrapCompleted := true, seen := s.seen.(drained := true)), i)
    else Goto(Act(s.(bootstrapCompleted := true, savers := s.savers + [Saver(s.generation, FirstTry)]),
                  s.threads[i].gen, Write), i, LateSave)
  }

  function BootstrapFailed(s: State, i: nat): (r: State)
    requires i < |s.threads|
  {
    if Stale(s, i) then Finish(s, i)
    else if !s.timerFired then EnterCatchingUp(ClearTimer(s, s.threads[i].gen), i)
    else Finish(s, i)
  }

  function OnDraining(s: State, i: nat, a: Answer): (r: State)
    requires i < |s.threads| && s.threads[i].pc.Draining?
  {
    var d := s.threads[i].pc.drain;
    match a
    case Next(x) =>
      if Stale(s, i) then Finish(s, i)
      else if d.FetchDrain? then
        EnqueueAndWait(s.(seen := s.seen.(yielded := s.seen.yielded + [x])), i, FetchDrain, Bootstrap, x)
      else if d.ReplayDrain? then EnqueueAndWait(s, i, ReplayDrain, Replayed, x)
      else EnqueueAndWait(s, i, HistoryDrain, Origin.Historical, x)
    case Ended =>
      if d.FetchDrain? then BootstrapEnded(s, i)
      else if d.ReplayDrain? then EnterCatchingUp(s, i)
      else EnterBufferingLive(s, i)
    case Failed =>
      if d.FetchDrain? then BootstrapFailed(s, i) else Finish(s, i)
    case _ => s
  }

  function OnAwaited(s: State, i: nat): (r: State)
    requires i < |s.threads| && s.threads[i].pc.AwaitingJob?
  {
    var pc := s.threads[i].pc;
    if pc.id !in s.finished && !(Stale(s, i) && pc.id in s.finishedElsewhere) then s
    else if Stale(s, i) then Finish(s, i)
    else if pc.drain.BufferDrain? then DrainBuffer(s, i)
    else Goto(s, i, Draining(pc.drain))
  }

  function OnJoined(s: State, i: nat): (r: State)
    requires i < |s.threads|
  {
    if Stale(s, i) then Finish(s, i)
    else Spawn(Goto(s.(timerFired := false), i, Draining(FetchDrain)), Thread(s.generation, JoinTimer, false))
  }

  function OnLive(s: State, i: nat, a: Answer): (r: State)
    requires i < |s.threads|
  {
    if Stale(s, i) then Finish(s, i)
    else
      var s1 := Act(s, s.threads[i].gen, Emission);
      if a.Retry? then Goto(s1, i, LiveRetry(Idle)) else Finish(s1, i)
  }

  /** The retry pass that enterLive runs itself: it prunes while still live, enters
      retrying_deferred only for a batch, and goes back to live if it did. What is
      due is done first, and without a look at the generation. */
  function OnLiveRetry(s: State, i: nat, a: Answer): (r: State)
    requires i < |s.threads| && s.threads[i].pc.LiveRetry?
  {
    var gen := s.threads[i].gen;
    match s.threads[i].pc.due
    case ReportDue => Goto(Act(s, gen, ExhaustedReport), i, LiveRetry(Idle))
    case SecondDue => Goto(if a.Failed? then s else Act(s, gen, SecondWrite), i, LiveRetry(Idle))
    case _ =>
      if a.Failed? then Throw(s, i)
      else if Stale(s, i) then Finish(s, i)
      else
        match a
        case Retry => SetPhase(s, gen, RetryingDeferred)
        case Ended => Finish(SetPhase(s, gen, Live), i)
        case Unneeded => Finish(s, i)
        case Next(_) => Act(s, gen, Emission)
        case Halfway => Goto(Act(s, gen, Write), i, LiveRetry(SecondDue))
        case Exhausted => Goto(s, i, LiveRetry(ReportDue))
        case _ => Act(s, gen, Write)
  }

  /** clearGroupState and the end of reset: once the checkpoint is removed, the
      other three keys are, with no look at the generation in between. */
  function OnClearing(s: State, i: nat, a: Answer): (r: State)
    requires i < |s.threads| && s.threads[i].pc.Clearing?
  {
    var gen := s.threads[i].gen;
    if a.Failed? then Finish(s, i)
    else if !s.threads[i].pc.restIssued then Goto(Act(s, gen, Removal), i, Clearing(true))
    else if Stale(s, i) then Finish(s, i)
    else Finish(Act(s.(lifecycle := Uninitialized), gen, PhaseChange), i)
  }

  function OnResume(s: State, i: nat, a: Answer): (r: State)
    requires i < |s.threads|
  {
    match s.threads[i].pc
    case Loading =>
      if Stale(s, i) then Finish(s, i) else if a.RouteRecover? then EnterRecovering(s, i) else EnterJoining(s, i)
    case JoinSave => OnJoined(s, i)
    case RecoverSave => if Stale(s, i) then Finish(s, i) else Goto(s, i, Draining(ReplayDrain))
    case Draining(_) => OnDraining(s, i, a)
    case AwaitingJob(_, _) => OnAwaited(s, i)
    case JoinTimer => EnterCatchingUp(if Stale(s, i) then s else s.(timerFired := true), i)
    case CatchSave => if Stale(s, i) then Finish(s, i) else OpenAndCatchUp(s, i, a)
    case BufferSave => if Stale(s, i) then Finish(s, i) else DrainBuffer(s, i)
    case LiveSave => OnLive(s, i, a)
    case LiveRetry(_) => OnLiveRetry(s, i, a)
    case LateSave => Finish(s, i)
    case Clearing(_) => OnClearing(s, i, a)
    case Done => s
  }

  // ------------------------------------------------ the serial queue

  /** A job's turn: a guarded job of an older generation is skipped; a local
      accept takes the generation it finds. */
  function OnJobStart(s: State): (r: State) {
    if s.chain.running.Some? || |s.chain.pending| == 0 then s
    else
      var job := s.chain.pending[0];
      var rest := s.chain.pending[1..];
      if !job.origin.Local? && job.gen != s.generation then
        s.(chain := Chain(rest, None), finished := s.finished + {job.id})
      else
        s.(chain := Chain(rest, Some(Running(if job.origin.Local? then job.(gen := s.generation) else job, false, Idle))))
  }

  function WithRunning(s: State, r: Running): (t: State) {
    s.(chain := s.chain.(running := Some(r)))
  }

  /** The record of a local edit whose handler ends. */
  function EditOf(s: State, run: Running, announced: bool): (r: seq<Edit>) {
    if run.job.origin.Local? then [Edit(run.job.signal, run.job.gen, run.due.AnnounceDue?, s.generation, announced)] else []
  }

  function EndJob(s: State, announced: bool): (r: State)
    requires s.chain.running.Some?
  {
    var run := s.chain.running.value;
    s.(chain := s.chain.(running := None), finished := s.finished + {run.job.id}, edits := s.edits + EditOf(s, run, announced))
  }

  predicate LooksAtNothing(d: Due) {
    d.ReportDue? || d.SecondDue?
  }

  /** The handler is not waiting for an act of its own that is under way. */
  predicate Resumes(d: Due) {
    d.Idle? || d.AnnounceDue?
  }

  /** A handler resumes after an await: stale, it only ends. A local edit whose
      append has landed is announced. */
  function OnJobStep(s: State, k: JobAction): (r: State) {
    if s.chain.running.None? || !Resumes(s.chain.running.value.due) then s
    else
      var run := s.chain.running.value;
      if run.job.gen != s.generation then EndJob(s, false)
      else if run.due.AnnounceDue? then EndJob(Act(s, run.job.gen, Emission), true)
      else if run.job.origin.Local? then
        match k
        case DoWrite => WithRunning(Act(s, run.job.gen, Write), run.(due := AppendDue))
        case GiveUp => WithRunning(s, run.(due := ReportDue))
        case _ => s
      else
        match k
        case DoWrite => Act(s, run.job.gen, Write)
        case DoEmit => Act(s, run.job.gen, Emission)
        case EnterRetry =>
          if s.lifecycle.Live? && !run.retrying then
            WithRunning(SetPhase(s, run.job.gen, RetryingDeferred), run.(retrying := true)) else s
        case ExitRetry =>
          if run.retrying then WithRunning(SetPhase(s, run.job.gen, Live), run.(retrying := false)) else s
        case GiveUp => WithRunning(s, run.(due := ReportDue))
        case HalfAccept => WithRunning(Act(s, run.job.gen, Write), run.(due := SecondDue))
  }

  /** What is due happens without a look at the generation: the rejection is
      emitted, the second write is issued once the first has landed, a local
      edit's append lands or fails. */
  function Overdue(run: Running, lands: bool): (r: Option<Kind>) {
    match run.due
    case ReportDue => Some(ExhaustedReport)
    case SecondDue => if lands then Some(SecondWrite) else None
    case _ => None
  }

  function AfterDue(run: Running, lands: bool): (r: Running) {
    match run.due
    case AppendDue => run.(due := if lands then AnnounceDue else Idle)
    case AnnounceDue => run
    case _ => run.(due := Idle)
  }

  function ActDue(s: State, run: Running, lands: bool): (r: State) {
    var k := Overdue(run, lands);
    if k.Some? then Act(s, run.job.gen, k.value) else s
  }

  function OnJobDue(s: State, lands: bool): (r: State) {
    if s.chain.running.None? then s
    else WithRunning(ActDue(s, s.chain.running.value, lands), AfterDue(s.chain.running.value, lands))
  }

  function Handled(seen: Seen, job: Job): (r: Seen) {
    seen.(order := seen.order + [job.origin],
          handledLive := if job.origin.Pushed? then seen.handledLive + [job.signal] else seen.handledLive,
          handledBootstrap := if job.origin.Bootstrap? then seen.handledBootstrap + [job.signal] else seen.handledBootstrap)
  }

  function OnJobEnd(s: State): (r: State) {
    if s.chain.running.None? || !s.chain.running.value.due.Idle? || s.chain.running.value.retrying then s
    else
      var job := s.chain.running.value.job;
      if job.gen != s.generation then EndJob(s, false) else EndJob(s, false).(seen := Handled(s.seen, job))
  }

  function WithOld(s: State, c: nat, running: Option<Running>): (r: State)
    requires c < |s.oldChains|
  {
    s.(oldChains := s.oldChains[c := s.oldChains[c].(running := running)])
  }

  function EndOld(s: State, c: nat, announced: bool): (r: State)
    requires c < |s.oldChains| && s.oldChains[c].running.Some?
  {
    var run := s.oldChains[c].running.value;
    WithOld(s, c, None).(finishedElsewhere := s.finishedElsewhere + {run.job.id}, edits := s.edits + EditOf(s, run, announced))
  }

  /** The turn of the next job of a chain that a reset has left behind. */
  function OnOldStart(s: State, c: nat): (r: State)
    requires c < |s.oldChains|
  {
    var chain := s.oldChains[c];
    if chain.running.Some? || |chain.pending| == 0 then s
    else
      var job := chain.pending[0];
      if !job.origin.Local? && job.gen != s.generation then
        s.(oldChains := s.oldChains[c := Chain(chain.pending[1..], None)], finishedElsewhere := s.finishedElsewhere + {job.id})
      else s.(oldChains := s.oldChains[c :=
        Chain(chain.pending[1..], Some(Running(if job.origin.Local? then job.(gen := s.generation) else job, false, Idle)))])
  }

  function OnOldStep(s: State, c: nat, k: JobAction): (r: State)
    requires c < |s.oldChains|
  {
    var running := s.oldChains[c].running;
    if running.None? || !Resumes(running.value.due) then s
    else
      var run := running.value;
      if run.job.gen != s.generation then EndOld(s, c, false)
      else if run.due.AnnounceDue? then EndOld(Act(s, run.job.gen, Emission), c, true)
      else
        match k
        case DoWrite => WithOld(Act(s, run.job.gen, Write), c, Some(run.(due := if run.job.origin.Local? then AppendDue else Idle)))
        case GiveUp => WithOld(s, c, Some(run.(due := ReportDue)))
        case _ => s
  }

  /** A chain that a reset has left behind: its guarded jobs and its handlers are
      stale; only local accepts still act. */
  function OnOldJob(s: State, c: nat, k: OldAction): (r: State) {
    if c >= |s.oldChains| then s
    else
      var running := s.oldChains[c].running;
      match k
      case OldStart => OnOldStart(s, c)
      case OldStep(kind) => OnOldStep(s, c, kind)
      case OldDue(lands) =>
        if running.None? then s
        else WithOld(ActDue(s, running.value, lands), c, Some(AfterDue(running.value, lands)))
      case OldEnd => if running.None? || !running.value.due.Idle? then s else EndOld(s, c, false)
  }

  // ------------------------------------------------ checkpoint saves

  function WithSaver(s: State, k: nat, pc: SaverPc): (r: State)
    requires k < |s.savers|
  {
    s.(savers := s.savers[k := s.savers[k].(pc := pc)])
  }

  /** A failed save goes on in the background; the periodic save arms itself
      again while live, whether or not a timer is armed already. Every resumption
      looks at the generation first. */
  function OnSaver(s: State, k: nat, a: SaveAnswer): (r: State)
    requires k < |s.savers|
  {
    var gen, pc := s.savers[k].gen, s.savers[k].pc;
    if gen != s.generation then WithSaver(s, k, Settled)
    else if pc.Tick? || pc.LooseTick? then
      WithSaver(Act(s.(savers := s.savers + [Saver(gen, FirstTry)]), gen, Write), k, TickSave)
    else if pc.TickSave? then
      if s.lifecycle.Live? then WithSaver(s.(savers := Disarmed(s.savers, LooseTick)), k, Tick) else WithSaver(s, k, Settled)
    else if a.Over? then WithSaver(s, k, Settled)
    else
      match pc
      case FirstTry => if a.Saved? then WithSaver(s, k, Settled) else WithSaver(Act(s, gen, Write), k, Retrying)
      case Retrying => WithSaver(Act(s, gen, Emission), k, if a.Saved? then Settled else BackingOff)
      case BackingOff => WithSaver(Act(s, gen, Write), k, Retrying)
      case _ => s
  }

  // ------------------------------------------------ callers

  /** startInFlight: an earlier call of start() has not come back yet. */
  predicate Starting(s: State) {
    exists i :: 0 <= i < |s.threads| && s.threads[i].starter && !s.threads[i].pc.Done?
  }

  function OnStart(s: State, welcome: bool): (r: State) {
    if !s.lifecycle.Uninitialized? || Starting(s) then s
    else
      var s1 := s.(generation := s.generation + 1, seen := NOTHING_SEEN);
      var s2 := Spawn(s1, Thread(s1.generation, Loading, true));
      if welcome then EnterJoining(s2, |s.threads|) else s2
  }

  function OnStop(s: State): (r: State) {
    if s.lifecycle.Stopped? || s.lifecycle.Uninitialized? then s
    else
      var s1 := s.(generation := s.generation + 1, seen := NOTHING_SEEN, subscriptions := {});
      SetPhase(ClearTimer(s1, s.generation), s1.generation, Stopped)
  }

  /** The removal of the checkpoint is issued at once. */
  function OnReset(s: State): (r: State) {
    var s1 := s.(generation := s.generation + 1, seen := NOTHING_SEEN, subscriptions := {}, liveBuffer := [],
                 savers := Disarmed(s.savers, Settled), bootstrapCompleted := false, catchUps := 0, chain := Chain([], None), oldChains := s.oldChains + [s.chain]);
    Spawn(Act(ClearTimer(s1, s.generation), s1.generation, Removal), Thread(s1.generation, Clearing(false), false))
  }

  function OnArrive(s: State, g: nat, x: Signal): (r: State) {
    if g !in s.subscriptions || g != s.generation then s
    else
      var s1 := s.(seen := s.seen.(arrived := s.seen.arrived + [x]));
      if s.lifecycle.CatchingUp? || s.lifecycle.BufferingLive? then s1.(liveBuffer := s1.liveBuffer + [x])
      else Enqueue(s1, g, Pushed, x)
  }

  function Step(s: State, l: Label): (r: State) {
    match l
    case Start(welcome) => OnStart(s, welcome)
    case Resume(i, a) => if i < |s.threads| then OnResume(s, i, a) else s
    case Arrive(g, x) => OnArrive(s, g, x)
    case AcceptLocal(x) => Enqueue(s, s.generation, Local, x)
    case JobStart => OnJobStart(s)
    case JobStep(k) => OnJobStep(s, k)
    case JobDue(lands) => OnJobDue(s, lands)
    case JobEnd => OnJobEnd(s)
    case OldJob(c, k) => OnOldJob(s, c, k)
    case SaverStep(k, a) => if k < |s.savers| then OnSaver(s, k, a) else s
    case Stop => OnStop(s)
    case Reset => OnReset(s)
  }

  function Run(s: State, ls: seq<Label>): (r: State)
    decreases ls
  {
    if |ls| == 0 then s else Run(Step(s, ls[0]), ls[1..])
  }

  lemma {:induction false} RunSplit(s: State, a: seq<Label>, b: seq<Label>)
    ensures Run(s, a + b) == Run(Run(s, a), b)
    decreases a
  {
    hide Step;
    if |a| == 0 {
      assert a + b == b;
    } else {
      assert (a + b)[0] == a[0] && (a + b)[1..] == a[1..] + b;
      RunSplit(Step(s, a[0]), a[1..], b);
    }
  }
}
