/** What each handler of the receive engine does, as functions from a state to
    its trace: the states at its awaits (when a durable write is issued and when
    it has landed) in order, and the state at the end. A crash can strike at any
    state of a trace. Handlers run one at a time (the serial queue of src/engine/receive-engine.ts:386-408). */

module EngineSpec {
  import opened Wrappers
  import opened TaskDomain
  import opened EngineTypes
  import opened EventLog
  import opened DeferredQueue

  datatype Signal =
    | Message(fact: FactInput, rumorId: string, payload: TaskEvent, epoch: string, source: ReceiptSource)
    | Deferred(fact: FactInput, reason: DeferredReason)
    | Skipped(fact: FactInput)
    | Malformed(fact: FactInput)
    | EpochAdvanced(newEpoch: string, prevEpoch: string)

  datatype RejectReason = ParseError | RetryExhausted | DeferredTtlExpired | PersistenceExhausted

  datatype Output =
    | EnvelopeReceived(factId: string)
    | EnvelopeDeferred(factId: string, reason: DeferredReason)
    | Accepted(event: AcceptedEvent)
    | Rejected(factId: string, why: RejectReason)
    | GroupEpochAdvanced(newEpoch: string, prevEpoch: string)
    | RatchetAdvanced
    | StateChanged(lifecycle: Lifecycle)
    | RetryStarted(count: nat)
    | Recovered

  datatype Memory = Memory(
    lifecycle: Lifecycle, lastEpoch: Option<string>, lastIngestedSeq: nat, lastAccepted: Option<string>,
    bootstrapCompleted: bool, pendingRetry: bool, processed: set<string>, queue: seq<Parked>)

  const FRESH_MEMORY := Memory(Uninitialized, None, 0, None, false, false, {}, [])

  /** What has become of facts, recorded for the statements only: which event a
      fact was decoded to, which facts have a terminal verdict (skipped,
      malformed, expired, out of budget, evicted at the cap), and which parked
      ids a reset that was cut short has left without a fact. */
  datatype Ledger = Ledger(decoded: set<(string, string)>, terminal: set<string>, strays: set<string>)

  datatype State = State(disk: Disk, mem: Memory, out: seq<Output>, ledger: Ledger)

  datatype Config = Config(groupId: string, options: Options)

  /** How one persistence call ends: it lands; or its retry budget runs out,
      with or without its first durable step having landed. */
  datatype Write = Landed | HalfLanded | GaveUp

  datatype Delivery = Delivery(signal: Signal, now: int, first: Write, second: Write, third: Write)

  datatype Pass = Pass(now: int, afterPrune: Write, reply: seq<Delivery>, afterExhausted: Write)

  datatype Command =
    | Deliver(delivery: Delivery, passes: seq<Pass>)
    | LocalEdit(rumorId: string, payload: TaskEvent, now: int, write: Write)
    | Enter(phase: Lifecycle, passes: seq<Pass>)
    | BootstrapResolved

  // ------------------------------------------------ single steps

  function Emit(s: State, o: Output): (r: State) {
    s.(out := s.out + [o])
  }

  function RejectAll(s: State, entries: seq<Parked>, why: RejectReason): (r: State)
    decreases entries
  {
    if |entries| == 0 then s else RejectAll(Emit(s, Rejected(entries[0].factId, why)), entries[1..], why)
  }

  function Advance(s: State, seqNo: nat): (r: State) {
    if seqNo > s.mem.lastIngestedSeq then s.(mem := s.mem.(lastIngestedSeq := seqNo)) else s
  }

  function PutFact(s: State, fact: FactInput): (r: State) {
    s.(disk := s.disk.(facts := AppendFact(s.disk.facts, fact)))
  }

  function Decode(s: State, factId: string, eventId: string): (r: State) {
    s.(ledger := s.ledger.(decoded := s.ledger.decoded + {(factId, eventId)}))
  }

  function PutEvent(s: State, e: AcceptedEvent): (r: State) {
    Decode(s.(disk := s.disk.(accepted := AppendEvent(s.disk.accepted, e))), e.factId, e.id)
  }

  function DropDeferredId(s: State, id: string): (r: State) {
    s.(disk := s.disk.(deferred := Without(s.disk.deferred, id)))
  }

  function SaveDeferred(s: State, w: Write): (r: State) {
    if w.GaveUp? then s else s.(disk := s.disk.(deferred := Ids(s.mem.queue)))
  }

  function WithQueue(s: State, q: seq<Parked>): (r: State) {
    s.(mem := s.mem.(queue := q))
  }

  function Settle(s: State, ids: set<string>): (r: State) {
    s.(ledger := s.ledger.(terminal := s.ledger.terminal + ids))
  }

  function CheckpointOf(m: Memory): (r: Checkpoint) {
    Checkpoint(m.lifecycle, m.lastEpoch, m.lastIngestedSeq, m.lastAccepted, m.bootstrapCompleted)
  }

  function SaveCheckpoint(s: State): (r: State) {
    s.(disk := s.disk.(checkpoint := Some(CheckpointOf(s.mem))))
  }

  /** transitionTo: the new lifecycle is announced, then the checkpoint is written. */
  function Transition(s: State, l: Lifecycle): (r: State) {
    SaveCheckpoint(Emit(s.(mem := s.mem.(lifecycle := l)), StateChanged(l)))
  }

  function GaveUpOn(s: State, factId: string): (r: State) {
    Emit(s, Rejected(factId, PersistenceExhausted))
  }

  function Accept(s: State, e: AcceptedEvent): (r: State) {
    Emit(s.(mem := s.mem.(processed := s.mem.processed + {e.id}, lastAccepted := Some(e.id))), Accepted(e))
  }

  function EventOf(cfg: Config, sig: Signal, now: int): (r: AcceptedEvent)
    requires sig.Message?
  {
    var bootstrap := sig.source.BootstrapSnapshot?;
    AcceptedEvent(
      if bootstrap then BootstrapEventId(cfg.groupId, TaskIdOf(sig.payload)) else MlsEventId(sig.rumorId),
      sig.fact.id, if bootstrap then Bootstrap else Mls, cfg.groupId, now, sig.epoch, sig.payload)
  }

  function LocalEvent(cfg: Config, lastEpoch: Option<string>, rumorId: string, payload: TaskEvent, now: int)
    : (r: AcceptedEvent)
  {
    AcceptedEvent(MlsEventId(rumorId), "local:" + rumorId, Mls, cfg.groupId, now, lastEpoch.GetOr("unknown"), payload)
  }

  function SeqOf(log: seq<RawFact>, id: string): (r: nat) {
    var f := FindFact(log, id);
    if f.Some? then f.value.seqNo else 0
  }

  function End(s: State, t: seq<State>): (r: State) {
    if |t| == 0 then s else t[|t| - 1]
  }

  lemma EndAppend(s: State, a: seq<State>, b: seq<State>)
    ensures End(s, a + b) == End(End(s, a), b)
  {
  }

  // ------------------------------------------------ processSignal

  /** handleMessage, once its event is known to be new: the event becomes durable,
      a parked fact leaves the queue, the watermark moves, the event is announced. */
  function Acceptance(s: State, e: AcceptedEvent, d: Delivery): (r: seq<State>)
    ensures |r| > 0
  {
    var id := e.factId;
    if d.second.GaveUp? then [GaveUpOn(s, id)]
    else
      var s1 := PutEvent(s, e);
      if d.second.HalfLanded? then [s1, GaveUpOn(s1, id)]
      else if Holds(s.mem.queue, id) then
        var s2 := DropDeferredId(s1, id);
        var s3 := WithQueue(s2, Unpark(s2.mem.queue, id));
        var s4 := SaveDeferred(s3, d.third);
        [s1, s2, s3, s4, Accept(Advance(s4, SeqOf(s4.disk.facts, id)), e)]
      else [s1, Accept(Advance(s1, SeqOf(s1.disk.facts, id)), e)]
  }

  function OnMessage(cfg: Config, s: State, d: Delivery): (r: seq<State>)
    requires d.signal.Message?
  {
    var id := d.signal.fact.id;
    if !d.first.Landed? then [GaveUpOn(if d.first.GaveUp? then s else PutFact(s, d.signal.fact), id)]
    else
      var s1 := PutFact(s, d.signal.fact);
      var s2 := Emit(s1, EnvelopeReceived(id));
      var e := EventOf(cfg, d.signal, d.now);
      if e.id in s.mem.processed then [s1, Advance(Decode(s2, id, e.id), SeqOf(s1.disk.facts, id))]
      else [s1, s2] + Acceptance(s2, e, d)
  }

  /** Entries the cap pushes out when `e` is parked. */
  function Evicted(q: seq<Parked>, e: Parked, cap: nat): (r: set<string>) {
    if Holds(q, e.factId) || |q| + 1 <= cap then {}
    else set i | 0 <= i < |q| + 1 - cap :: (q + [e])[i].factId
  }

  function ParkIn(s: State, cap: nat, e: Parked): (r: State) {
    Settle(WithQueue(s, Park(s.mem.queue, e, cap)), Evicted(s.mem.queue, e, cap))
  }

  function OnDeferred(cfg: Config, s: State, d: Delivery): (r: seq<State>)
    requires d.signal.Deferred? && ValidOptions(cfg.options)
  {
    var id := d.signal.fact.id;
    if !d.first.Landed? then [GaveUpOn(if d.first.GaveUp? then s else PutFact(s, d.signal.fact), id)]
    else
      var s1 := PutFact(s, d.signal.fact);
      var s2 := Emit(s1, EnvelopeReceived(id));
      if Holds(s.mem.queue, id) then
        [s1, Emit(Advance(s2, SeqOf(s2.disk.facts, id)), EnvelopeDeferred(id, d.signal.reason))]
      else
        var stored := FindFact(s1.disk.facts, id);
        var fact := if stored.Some? then stored.value else RawFact(0, d.signal.fact);
        var s3 := ParkIn(s2, cfg.options.maxDeferredSize, Parked(id, fact, d.signal.reason, d.now, 0));
        var s4 := SaveDeferred(s3, d.second);
        var s5 := if d.second.Landed? then Advance(s4, SeqOf(s4.disk.facts, id)) else s4;
        [s1, s3, s4, Emit(s5, EnvelopeDeferred(id, d.signal.reason))]
  }

  function OnSkipped(s: State, d: Delivery): (r: seq<State>)
    requires d.signal.Skipped?
  {
    var id := d.signal.fact.id;
    if !d.first.Landed? then [GaveUpOn(if d.first.GaveUp? then s else PutFact(s, d.signal.fact), id)]
    else
      var s1 := PutFact(s, d.signal.fact);
      [s1, Emit(Emit(Advance(Settle(s1, {id}), SeqOf(s1.disk.facts, id)), EnvelopeReceived(id)), RatchetAdvanced)]
  }

  /** A fact that decodes to nothing leaves the queue, if it was parked, and is rejected. */
  function Rejection(s: State, id: string, w: Write): (r: seq<State>)
    ensures |r| > 0
  {
    if Holds(s.mem.queue, id) then
      var s1 := WithQueue(s, Unpark(s.mem.queue, id));
      var s2 := SaveDeferred(s1, w);
      [s1, s2, Emit(s2, Rejected(id, ParseError))]
    else [Emit(s, Rejected(id, ParseError))]
  }

  function OnMalformed(s: State, d: Delivery): (r: seq<State>)
    requires d.signal.Malformed?
  {
    var id := d.signal.fact.id;
    if !d.first.Landed? then [GaveUpOn(if d.first.GaveUp? then s else PutFact(s, d.signal.fact), id)]
    else
      var s1 := PutFact(s, d.signal.fact);
      [s1] + Rejection(Emit(Advance(Settle(s1, {id}), SeqOf(s1.disk.facts, id)), EnvelopeReceived(id)), id, d.second)
  }

  function OnEpoch(cfg: Config, s: State, sig: Signal, passes: seq<Pass>): (r: seq<State>)
    requires sig.EpochAdvanced? && ValidOptions(cfg.options)
  {
    var s1 := Emit(s.(mem := s.mem.(lastEpoch := Some(sig.newEpoch))), GroupEpochAdvanced(sig.newEpoch, sig.prevEpoch));
    if !s.mem.lifecycle.Live? then [s1.(mem := s1.mem.(pendingRetry := true))]
    else if |s1.mem.queue| > 0 then [s1] + RetryLoop(cfg, s1, passes, false)
    else [s1]
  }

  function ProcessSignal(cfg: Config, s: State, d: Delivery, passes: seq<Pass>): (r: seq<State>)
    requires ValidOptions(cfg.options)
  {
    match d.signal
    case Message(_, _, _, _, _) => OnMessage(cfg, s, d)
    case Deferred(_, _) => OnDeferred(cfg, s, d)
    case Skipped(_) => OnSkipped(s, d)
    case Malformed(_) => OnMalformed(s, d)
    case EpochAdvanced(_, _) => OnEpoch(cfg, s, d.signal, passes)
  }

  // ------------------------------------------------ the deferred-retry pass

  /** removeDeferred, then saveDeferredIds. */
  function LeaveQueue(s: State, id: string, w: Write): (r: seq<State>)
    ensures |r| == 2
  {
    var s1 := WithQueue(s, Unpark(s.mem.queue, id));
    [s1, SaveDeferred(s1, w)]
  }

  /** The same in a retry pass: acceptDeferredFact, then out of the queue; a
      refused write gives the entry its attempt back. */
  function RetriedAcceptance(s: State, e: AcceptedEvent, d: Delivery): (r: seq<State>)
    ensures |r| > 0
  {
    var id := e.factId;
    if d.second.GaveUp? then
      var s1 := GaveUpOn(s, id);
      [WithQueue(s1, Refunded(s1.mem.queue, id))]
    else
      var s1 := PutEvent(s, e);
      if d.second.HalfLanded? then
        var s2 := GaveUpOn(s1, id);
        [s1, WithQueue(s2, Refunded(s2.mem.queue, id))]
      else
        var s2 := DropDeferredId(s1, id);
        [s1, s2] + LeaveQueue(Accept(Advance(s2, SeqOf(s2.disk.facts, id)), e), id, d.third)
  }

  function OnRetryMessage(cfg: Config, s: State, d: Delivery): (r: seq<State>)
    requires d.signal.Message?
  {
    var id := d.signal.fact.id;
    if !d.first.Landed? then [GaveUpOn(if d.first.GaveUp? then s else PutFact(s, d.signal.fact), id)]
    else
      var s1 := PutFact(s, d.signal.fact);
      var s2 := Emit(s1, EnvelopeReceived(id));
      var e := EventOf(cfg, d.signal, d.now);
      if e.id in s.mem.processed then
        [s1] + LeaveQueue(Advance(Decode(s2, id, e.id), SeqOf(s1.disk.facts, id)), id, d.third)
      else [s1, s2] + RetriedAcceptance(s2, e, d)
  }

  function OnRetrySignal(cfg: Config, s: State, d: Delivery): (r: seq<State>) {
    match d.signal
    case Message(_, _, _, _, _) => OnRetryMessage(cfg, s, d)
    case EpochAdvanced(newEpoch, prevEpoch) =>
      // The lifecycle is retrying_deferred for the whole pass: the request is latched.
      [Emit(s.(mem := s.mem.(lastEpoch := Some(newEpoch), pendingRetry := true)), GroupEpochAdvanced(newEpoch, prevEpoch))]
    case _ =>
      var id := d.signal.fact.id;
      if !d.first.Landed? then [GaveUpOn(if d.first.GaveUp? then s else PutFact(s, d.signal.fact), id)]
      else
        var s1 := PutFact(s, d.signal.fact);
        match d.signal
        case Deferred(_, reason) =>
          [s1, Emit(Emit(Advance(s1, SeqOf(s1.disk.facts, id)), EnvelopeReceived(id)), EnvelopeDeferred(id, reason))]
        case Skipped(_) =>
          var s2 := Emit(Emit(Advance(Settle(s1, {id}), SeqOf(s1.disk.facts, id)), EnvelopeReceived(id)), RatchetAdvanced);
          [s1] + LeaveQueue(s2, id, d.second)
        case Malformed(_) =>
          var s2 := Emit(Emit(Advance(Settle(s1, {id}), SeqOf(s1.disk.facts, id)), EnvelopeReceived(id)), Rejected(id, ParseError));
          [s1] + LeaveQueue(s2, id, d.second)
  }

  function DrainRetry(cfg: Config, s: State, ds: seq<Delivery>): (r: seq<State>)
    decreases ds
  {
    if |ds| == 0 then []
    else
      var t := OnRetrySignal(cfg, s, ds[0]);
      t + DrainRetry(cfg, End(s, t), ds[1..])
  }

  function IdSet(q: seq<Parked>): (r: set<string>)
    ensures forall x :: x in r <==> Holds(q, x)
  {
    set i | 0 <= i < |q| :: q[i].factId
  }

  /** pruneAndReportTtlExpired. */
  function Prune(cfg: Config, s: State, now: int, w: Write): (r: seq<State>) {
    var gone := Expired(s.mem.queue, now, cfg.options.maxDeferredAgeSec);
    if |gone| == 0 then []
    else
      var s1 := Settle(WithQueue(s, Fresh(s.mem.queue, now, cfg.options.maxDeferredAgeSec)), IdSet(gone));
      var s2 := SaveDeferred(s1, w);
      [s1, s2, RejectAll(s2, gone, DeferredTtlExpired)]
  }

  /** reportAndRemoveExhausted. */
  function Retire(cfg: Config, s: State, w: Write): (r: seq<State>) {
    var gone := Exhausted(s.mem.queue, cfg.options.maxRetryAttempts);
    if |gone| == 0 then []
    else
      var s1 := Settle(WithQueue(s, UnparkedAll(s.mem.queue, gone)), IdSet(gone));
      var s2 := SaveDeferred(s1, w);
      [s1, s2, RejectAll(s2, gone, RetryExhausted)]
  }

  /** One pass over a non-empty batch, entering retrying_deferred if need be. */
  function RunBatch(cfg: Config, s: State, batch: seq<Parked>, reply: seq<Delivery>, entered: bool): (r: seq<State>) {
    var s1 := if entered then s else Transition(s, RetryingDeferred);
    var s2 := Emit(s1, RetryStarted(|batch|));
    var s3 := WithQueue(s2, ChargedAll(s2.mem.queue, batch));
    (if entered then [] else [s1]) + [s3] + DrainRetry(cfg, s3, reply)
  }

  /** One iteration of the loop in enterRetryingDeferred. */
  function Iteration(cfg: Config, s: State, p: Pass, entered: bool): (r: seq<State>) {
    var t1 := Prune(cfg, s, p.now, p.afterPrune);
    var s1 := End(s, t1);
    var batch := Eligible(s1.mem.queue, cfg.options.maxRetryAttempts);
    var t2 := if |batch| > 0 then RunBatch(cfg, s1, batch, p.reply, entered) else [];
    var s2 := End(s1, t2);
    t1 + t2 + Retire(cfg, s2, p.afterExhausted)
  }

  predicate EntersIn(cfg: Config, s: State, p: Pass) {
    |Eligible(End(s, Prune(cfg, s, p.now, p.afterPrune)).mem.queue, cfg.options.maxRetryAttempts)| > 0
  }

  function Unlatched(s: State): (r: State) {
    s.(mem := s.mem.(pendingRetry := false))
  }

  /** enterRetryingDeferred; the run is cut short where `passes` ends. */
  function RetryLoop(cfg: Config, s: State, passes: seq<Pass>, entered: bool): (r: seq<State>)
    requires ValidOptions(cfg.options)
    decreases passes
  {
    if |passes| == 0 then []
    else
      var t := Iteration(cfg, s, passes[0], entered);
      var s1 := End(s, t);
      var entered' := entered || EntersIn(cfg, s, passes[0]);
      var s2 := Unlatched(s1);
      if s1.mem.pendingRetry && |s1.mem.queue| > 0 then t + [s2] + RetryLoop(cfg, s2, passes[1..], entered')
      else t + [s2] + if entered' then [Transition(s2, Live)] else []
  }

  // ------------------------------------------------ local edits and phases

  function OnLocalEdit(cfg: Config, s: State, rumorId: string, payload: TaskEvent, now: int, w: Write): (r: seq<State>) {
    var e := LocalEvent(cfg, s.mem.lastEpoch, rumorId, payload, now);
    if e.id in s.mem.processed then []
    else if w.GaveUp? then [GaveUpOn(s, e.factId)]
    else
      var s1 := PutEvent(s, e);
      if w.HalfLanded? then [s1, GaveUpOn(s1, e.factId)] else [s1, Accept(s1, e)]
  }

  /** enterCatchingUp, enterBufferingLive and enterLive, as far as the stores can tell. */
  function OnEnter(cfg: Config, s: State, phase: Lifecycle, passes: seq<Pass>): (r: seq<State>)
    requires ValidOptions(cfg.options)
  {
    var s1 := Transition(s, phase);
    if !phase.Live? then [s1]
    else
      var s2 := Emit(s1, Recovered);
      if !s2.mem.pendingRetry then [s1, s2]
      else
        var s3 := Unlatched(s2);
        [s1, s3] + if |s3.mem.queue| > 0 then RetryLoop(cfg, s3, passes, false) else []
  }

  function OnCommand(cfg: Config, s: State, c: Command): (r: seq<State>)
    requires ValidOptions(cfg.options)
  {
    match c
    case Deliver(d, passes) => ProcessSignal(cfg, s, d, passes)
    case LocalEdit(rumorId, payload, now, w) => OnLocalEdit(cfg, s, rumorId, payload, now, w)
    case Enter(phase, passes) => OnEnter(cfg, s, phase, passes)
    case BootstrapResolved => [SaveCheckpoint(s.(mem := s.mem.(bootstrapCompleted := true)))]
  }

  function OnCommands(cfg: Config, s: State, cs: seq<Command>): (r: seq<State>)
    requires ValidOptions(cfg.options)
    decreases cs
  {
    if |cs| == 0 then []
    else
      var t := OnCommand(cfg, s, cs[0]);
      t + OnCommands(cfg, End(s, t), cs[1..])
  }

  // ------------------------------------------------ start

  datatype Route = Join | Recover(checkpoint: Checkpoint) | PreserveAndReplay

  /** start({origin: "restored"}): which way a restart goes. */
  function RouteOf(d: Disk): (r: Route) {
    match d.checkpoint
    case Some(c) => if c.bootstrapCompleted then Recover(c) else Join
    case None => if |d.facts| == 0 && |d.accepted| == 0 then Join else PreserveAndReplay
  }

  function EventIds(log: seq<AcceptedEvent>): (r: set<string>)
    ensures forall x :: x in r <==> HasEvent(log, x)
  {
    set i | 0 <= i < |log| :: log[i].id
  }

  function AcceptedFactIds(log: seq<AcceptedEvent>): (r: set<string>) {
    set i | 0 <= i < |log| :: log[i].factId
  }

  /** R2a: parked ids whose fact is already in the accepted log are stale. */
  function Unaccepted(ids: seq<string>, done: set<string>): (r: seq<string>)
    ensures |r| <= |ids|
    ensures forall x :: x in r <==> x in ids && x !in done
  {
    if |ids| == 0 then [] else (if ids[0] !in done then [ids[0]] else []) + Unaccepted(ids[1..], done)
  }

  /** R2: re-park each id whose fact is in the log, in stored order. */
  function Rebuild(s: State, ids: seq<string>, cap: nat, now: int): (r: State)
    decreases ids
  {
    if |ids| == 0 then s
    else
      var f := FindFact(s.disk.facts, ids[0]);
      var s1 := if f.None? then s else ParkIn(s, cap, Parked(ids[0], f.value, Unreadable, now, 0));
      Rebuild(s1, ids[1..], cap, now)
  }

  function RecoveredMemory(route: Route): (r: Memory)
    requires !route.Join?
  {
    if route.Recover? then
      FRESH_MEMORY.(lastIngestedSeq := route.checkpoint.lastIngestedSeq, lastEpoch := route.checkpoint.lastEpoch,
                    lastAccepted := route.checkpoint.lastAcceptedDomainEventId, bootstrapCompleted := true)
    else FRESH_MEMORY.(bootstrapCompleted := true)
  }

  /** R1, R2a and R2, up to the point where R3 starts. */
  function LoadAndRebuild(cfg: Config, s: State, now: int, w: Write): (r: seq<State>)
    requires ValidOptions(cfg.options)
  {
    var s1 := s.(mem := s.mem.(processed := s.mem.processed + EventIds(s.disk.accepted)));
    var live := Unaccepted(s.disk.deferred, AcceptedFactIds(s.disk.accepted));
    var s2 := if |live| != |s.disk.deferred| && !w.GaveUp? then s1.(disk := s1.disk.(deferred := live)) else s1;
    [s1, s2, Rebuild(s2, live, cfg.options.maxDeferredSize, now)]
  }

  function DrainSignals(cfg: Config, s: State, ds: seq<Delivery>): (r: seq<State>)
    requires ValidOptions(cfg.options)
    decreases ds
  {
    if |ds| == 0 then []
    else
      var t := ProcessSignal(cfg, s, ds[0], []);
      t + DrainSignals(cfg, End(s, t), ds[1..])
  }

  /** One session of an engine object: how it starts on a disk and what it then handles. */
  datatype Session = Session(now: int, afterPrune: Write, replay: seq<Delivery>, commands: seq<Command>)

  function StartState(d: Disk, ledger: Ledger): (r: State) {
    var m := if RouteOf(d).Join? then FRESH_MEMORY else RecoveredMemory(RouteOf(d));
    Transition(State(d, m, [], ledger), if RouteOf(d).Join? then Joining else Recovering)
  }

  /** What a recovering start does after its first transition: R1 to R4. */
  function Recovery(cfg: Config, s: State, ses: Session): (r: seq<State>)
    requires ValidOptions(cfg.options)
  {
    var t1 := LoadAndRebuild(cfg, s, ses.now, ses.afterPrune);
    var t2 := DrainSignals(cfg, End(s, t1), ses.replay);
    t1 + t2 + [Transition(End(End(s, t1), t2), CatchingUp)]
  }

  /** The trace of start(): joining only announces itself; recovering goes on. */
  function StartTrace(cfg: Config, d: Disk, ledger: Ledger, ses: Session): (r: seq<State>)
    requires ValidOptions(cfg.options)
  {
    var s := StartState(d, ledger);
    [s] + if RouteOf(d).Join? then [] else Recovery(cfg, s, ses)
  }

  function SessionTrace(cfg: Config, d: Disk, ledger: Ledger, ses: Session): (r: seq<State>)
    requires ValidOptions(cfg.options)
  {
    var t := StartTrace(cfg, d, ledger, ses);
    t + OnCommands(cfg, End(StartState(d, ledger), t), ses.commands)
  }
}
