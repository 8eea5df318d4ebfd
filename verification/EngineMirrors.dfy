/** The engine's memory against what it has announced: at every await the
    lifecycle, the epoch and the last accepted id are those of the latest such
    announcement, and bootstrapCompleted changes on one command only
    (src/engine/receive-engine.ts:408-434, 654-714, 753-1238). */

module EngineMirrors {
  import opened Wrappers
  import opened TaskDomain
  import opened EngineTypes
  import opened EventLog
  import opened DeferredQueue
  import opened EngineSpec

  function LatestPhase(out: seq<Output>, start: Lifecycle): (r: Lifecycle) {
    if |out| == 0 then start
    else match out[|out| - 1]
      case StateChanged(l) => l
      case _ => LatestPhase(out[..|out| - 1], start)
  }

  function LatestEpoch(out: seq<Output>, start: Option<string>): (r: Option<string>) {
    if |out| == 0 then start
    else match out[|out| - 1]
      case GroupEpochAdvanced(newEpoch, _) => Some(newEpoch)
      case _ => LatestEpoch(out[..|out| - 1], start)
  }

  function LatestAccepted(out: seq<Output>, start: Option<string>): (r: Option<string>) {
    if |out| == 0 then start
    else match out[|out| - 1]
      case Accepted(e) => Some(e.id)
      case _ => LatestAccepted(out[..|out| - 1], start)
  }

  /** What a session starts from. */
  datatype Base = Base(out: seq<Output>, phase: Lifecycle, epoch: Option<string>, accepted: Option<string>, bootstrapped: bool,
                       checkpoint: Option<Checkpoint>)

  /** The cells that a checkpoint keeps are those of memory. */
  predicate Kept(c: Option<Checkpoint>, b: Base) {
    c == b.checkpoint || (c.Some? && c.value.bootstrapCompleted == b.bootstrapped)
  }

  predicate Mirrors(s: State, b: Base) {
    b.out <= s.out && s.mem.lifecycle == LatestPhase(s.out[|b.out|..], b.phase) &&
    s.mem.lastEpoch == LatestEpoch(s.out[|b.out|..], b.epoch) &&
    s.mem.lastAccepted == LatestAccepted(s.out[|b.out|..], b.accepted) &&
    s.mem.bootstrapCompleted == b.bootstrapped && Kept(s.disk.checkpoint, b)
  }

  predicate AllMirror(t: seq<State>, b: Base) {
    forall k :: 0 <= k < |t| ==> Mirrors(t[k], b)
  }

  lemma OneMore(out: seq<Output>, o: Output, b: Base)
    requires b.out <= out
    ensures b.out <= out + [o]
    ensures var was, since := out[|b.out|..], (out + [o])[|b.out|..];
            LatestPhase(since, b.phase) == (if o.StateChanged? then o.lifecycle else LatestPhase(was, b.phase)) &&
            LatestEpoch(since, b.epoch) == (if o.GroupEpochAdvanced? then Some(o.newEpoch) else LatestEpoch(was, b.epoch)) &&
            LatestAccepted(since, b.accepted) == if o.Accepted? then Some(o.event.id) else LatestAccepted(was, b.accepted)
  {
    var since := out[|b.out|..];
    assert (out + [o])[|b.out|..] == since + [o] && (since + [o])[..|since|] == since;
  }

  /** Every state mirrors itself, so what is shown for any base holds from any state on. */
  function BaseAt(s: State): (r: Base)
    ensures Mirrors(s, r) && r.out == s.out
  {
    Base(s.out, s.mem.lifecycle, s.mem.lastEpoch, s.mem.lastAccepted, s.mem.bootstrapCompleted, s.disk.checkpoint)
  }

  /** Two states that the mirror cannot tell apart. */
  predicate SameCells(s: State, u: State) {
    u.out == s.out && u.mem.lifecycle == s.mem.lifecycle && u.mem.lastEpoch == s.mem.lastEpoch &&
    u.mem.lastAccepted == s.mem.lastAccepted && u.mem.bootstrapCompleted == s.mem.bootstrapCompleted &&
    u.disk.checkpoint == s.disk.checkpoint
  }

  lemma SameMirrors(s: State, u: State, b: Base)
    requires Mirrors(s, b) && SameCells(s, u)
    ensures Mirrors(u, b)
  {
  }

  predicate Plain(o: Output) {
    !o.StateChanged? && !o.GroupEpochAdvanced? && !o.Accepted?
  }

  lemma EmitMirrors(s: State, o: Output, b: Base)
    requires Mirrors(s, b) && Plain(o)
    ensures Mirrors(Emit(s, o), b)
  {
    OneMore(s.out, o, b);
  }

  lemma AcceptMirrors(s: State, e: AcceptedEvent, b: Base)
    requires Mirrors(s, b)
    ensures Mirrors(Accept(s, e), b)
  {
    OneMore(s.out, Accepted(e), b);
  }

  lemma TransitionMirrors(s: State, l: Lifecycle, b: Base)
    requires Mirrors(s, b)
    ensures Mirrors(Transition(s, l), b)
  {
    OneMore(s.out, StateChanged(l), b);
  }

  lemma EpochMirrors(s: State, newEpoch: string, prevEpoch: string, pending: bool, b: Base)
    requires Mirrors(s, b)
    ensures Mirrors(Emit(s.(mem := s.mem.(lastEpoch := Some(newEpoch), pendingRetry := pending)), GroupEpochAdvanced(newEpoch, prevEpoch)), b)
  {
    OneMore(s.out, GroupEpochAdvanced(newEpoch, prevEpoch), b);
  }

  lemma AppendMirrors(t: seq<State>, u: seq<State>, b: Base)
    requires AllMirror(t, b) && AllMirror(u, b)
    ensures AllMirror(t + u, b)
  {
  }

  lemma EndMirrors(s: State, t: seq<State>, b: Base)
    requires Mirrors(s, b) && AllMirror(t, b)
    ensures Mirrors(End(s, t), b)
  {
  }

  /** A trace all of whose states have the cells of `s`. */
  lemma LevelMirrors(s: State, t: seq<State>, b: Base)
    requires Mirrors(s, b) && forall k :: 0 <= k < |t| ==> SameCells(s, t[k])
    ensures AllMirror(t, b)
  {
    forall k | 0 <= k < |t| ensures Mirrors(t[k], b) { SameMirrors(s, t[k], b); }
  }

  // ------------------------------------------------ handlers

  lemma AcceptanceMirrors(s: State, e: AcceptedEvent, d: Delivery, b: Base)
    requires Mirrors(s, b)
    ensures AllMirror(Acceptance(s, e, d), b)
  {
    hide Mirrors, AppendEvent, SeqOf, Holds, Unpark, Without, Ids;
    var id := e.factId;
    EmitMirrors(s, Rejected(id, PersistenceExhausted), b);
    var s1 := PutEvent(s, e);
    SameMirrors(s, s1, b);
    EmitMirrors(s1, Rejected(id, PersistenceExhausted), b);
    var s2 := DropDeferredId(s1, id);
    var s3 := WithQueue(s2, Unpark(s2.mem.queue, id));
    var s4 := SaveDeferred(s3, d.third);
    SameMirrors(s, s2, b);
    SameMirrors(s, s3, b);
    SameMirrors(s, s4, b);
    SameMirrors(s, Advance(s4, SeqOf(s4.disk.facts, id)), b);
    AcceptMirrors(Advance(s4, SeqOf(s4.disk.facts, id)), e, b);
    SameMirrors(s, Advance(s1, SeqOf(s1.disk.facts, id)), b);
    AcceptMirrors(Advance(s1, SeqOf(s1.disk.facts, id)), e, b);
  }

  lemma NotStored(s: State, fact: FactInput, w: Write, b: Base)
    requires Mirrors(s, b)
    ensures Mirrors(GaveUpOn(if w.GaveUp? then s else PutFact(s, fact), fact.id), b)
  {
    hide Mirrors, AppendFact;
    var s1 := if w.GaveUp? then s else PutFact(s, fact);
    SameMirrors(s, s1, b);
    EmitMirrors(s1, Rejected(fact.id, PersistenceExhausted), b);
  }

  lemma StoredMirrors(s: State, fact: FactInput, b: Base)
    requires Mirrors(s, b)
    ensures Mirrors(PutFact(s, fact), b) && Mirrors(Emit(PutFact(s, fact), EnvelopeReceived(fact.id)), b)
  {
    hide Mirrors, AppendFact;
    SameMirrors(s, PutFact(s, fact), b);
    EmitMirrors(PutFact(s, fact), EnvelopeReceived(fact.id), b);
  }

  lemma MessageMirrors(cfg: Config, s: State, d: Delivery, b: Base)
    requires d.signal.Message? && Mirrors(s, b)
    ensures AllMirror(OnMessage(cfg, s, d), b)
  {
    hide Mirrors, AppendFact, SeqOf, Acceptance;
    var id := d.signal.fact.id;
    NotStored(s, d.signal.fact, d.first, b);
    StoredMirrors(s, d.signal.fact, b);
    var s1 := PutFact(s, d.signal.fact);
    var s2 := Emit(s1, EnvelopeReceived(id));
    var e := EventOf(cfg, d.signal, d.now);
    SameMirrors(s2, Advance(Decode(s2, id, e.id), SeqOf(s1.disk.facts, id)), b);
    AcceptanceMirrors(s2, e, d, b);
    AppendMirrors([s1, s2], Acceptance(s2, e, d), b);
  }

  lemma DeferredMirrors(cfg: Config, s: State, d: Delivery, b: Base)
    requires ValidOptions(cfg.options) && d.signal.Deferred? && Mirrors(s, b)
    ensures AllMirror(OnDeferred(cfg, s, d), b)
  {
    hide Mirrors, AppendFact, SeqOf, FindFact, Park, Evicted, Ids, Holds;
    var id, note := d.signal.fact.id, EnvelopeDeferred(d.signal.fact.id, d.signal.reason);
    NotStored(s, d.signal.fact, d.first, b);
    StoredMirrors(s, d.signal.fact, b);
    var s1 := PutFact(s, d.signal.fact);
    var s2 := Emit(s1, EnvelopeReceived(id));
    SameMirrors(s2, Advance(s2, SeqOf(s2.disk.facts, id)), b);
    EmitMirrors(Advance(s2, SeqOf(s2.disk.facts, id)), note, b);
    var stored := FindFact(s1.disk.facts, id);
    var s3 := ParkIn(s2, cfg.options.maxDeferredSize,
                     Parked(id, if stored.Some? then stored.value else RawFact(0, d.signal.fact), d.signal.reason, d.now, 0));
    var s4 := SaveDeferred(s3, d.second);
    var s5 := if d.second.Landed? then Advance(s4, SeqOf(s4.disk.facts, id)) else s4;
    SameMirrors(s2, s3, b);
    SameMirrors(s2, s4, b);
    SameMirrors(s2, s5, b);
    EmitMirrors(s5, note, b);
  }

  lemma VerdictMirrors(s: State, d: Delivery, b: Base)
    requires (d.signal.Skipped? || d.signal.Malformed?) && Mirrors(s, b)
    ensures AllMirror(if d.signal.Skipped? then OnSkipped(s, d) else OnMalformed(s, d), b)
  {
    hide Mirrors, AppendFact, SeqOf, Unpark, Ids, Holds;
    var id := d.signal.fact.id;
    NotStored(s, d.signal.fact, d.first, b);
    StoredMirrors(s, d.signal.fact, b);
    var s1 := PutFact(s, d.signal.fact);
    var s2 := Advance(Settle(s1, {id}), SeqOf(s1.disk.facts, id));
    SameMirrors(s1, s2, b);
    EmitMirrors(s2, EnvelopeReceived(id), b);
    var s3 := Emit(s2, EnvelopeReceived(id));
    EmitMirrors(s3, RatchetAdvanced, b);
    var s4 := WithQueue(s3, Unpark(s3.mem.queue, id));
    var s5 := SaveDeferred(s4, d.second);
    SameMirrors(s3, s4, b);
    SameMirrors(s3, s5, b);
    EmitMirrors(s3, Rejected(id, ParseError), b);
    EmitMirrors(s5, Rejected(id, ParseError), b);
  }

  // ------------------------------------------------ the retry pass

  lemma LeaveMirrors(s: State, id: string, w: Write, b: Base)
    requires Mirrors(s, b)
    ensures AllMirror(LeaveQueue(s, id, w), b)
  {
    hide Mirrors, Unpark, Ids;
    LevelMirrors(s, LeaveQueue(s, id, w), b);
  }

  lemma RetriedAcceptanceMirrors(s: State, e: AcceptedEvent, d: Delivery, b: Base)
    requires Mirrors(s, b)
    ensures AllMirror(RetriedAcceptance(s, e, d), b)
  {
    hide Mirrors, AppendEvent, SeqOf, Unpark, Refunded, Without, Ids, LeaveQueue;
    var id := e.factId;
    EmitMirrors(s, Rejected(id, PersistenceExhausted), b);
    SameMirrors(GaveUpOn(s, id), WithQueue(GaveUpOn(s, id), Refunded(s.mem.queue, id)), b);
    var s1 := PutEvent(s, e);
    SameMirrors(s, s1, b);
    EmitMirrors(s1, Rejected(id, PersistenceExhausted), b);
    SameMirrors(GaveUpOn(s1, id), WithQueue(GaveUpOn(s1, id), Refunded(s1.mem.queue, id)), b);
    var s2 := DropDeferredId(s1, id);
    SameMirrors(s, s2, b);
    SameMirrors(s, Advance(s2, SeqOf(s2.disk.facts, id)), b);
    AcceptMirrors(Advance(s2, SeqOf(s2.disk.facts, id)), e, b);
    var s3 := Accept(Advance(s2, SeqOf(s2.disk.facts, id)), e);
    LeaveMirrors(s3, id, d.third, b);
    AppendMirrors([s1, s2], LeaveQueue(s3, id, d.third), b);
  }

  lemma RetriedMessageMirrors(cfg: Config, s: State, d: Delivery, b: Base)
    requires d.signal.Message? && Mirrors(s, b)
    ensures AllMirror(OnRetryMessage(cfg, s, d), b)
  {
    hide Mirrors, AppendFact, SeqOf, RetriedAcceptance, LeaveQueue;
    var id := d.signal.fact.id;
    NotStored(s, d.signal.fact, d.first, b);
    StoredMirrors(s, d.signal.fact, b);
    var s1 := PutFact(s, d.signal.fact);
    var s2 := Emit(s1, EnvelopeReceived(id));
    var e := EventOf(cfg, d.signal, d.now);
    var s3 := Advance(Decode(s2, id, e.id), SeqOf(s1.disk.facts, id));
    SameMirrors(s2, s3, b);
    LeaveMirrors(s3, id, d.third, b);
    AppendMirrors([s1], LeaveQueue(s3, id, d.third), b);
    RetriedAcceptanceMirrors(s2, e, d, b);
    AppendMirrors([s1, s2], RetriedAcceptance(s2, e, d), b);
  }

  lemma RetrySignalMirrors(cfg: Config, s: State, d: Delivery, b: Base)
    requires Mirrors(s, b)
    ensures AllMirror(OnRetrySignal(cfg, s, d), b)
  {
    hide Mirrors, AppendFact, SeqOf, LeaveQueue, OnRetryMessage;
    match d.signal
    case Message(_, _, _, _, _) => RetriedMessageMirrors(cfg, s, d, b);
    case EpochAdvanced(newEpoch, prevEpoch) => EpochMirrors(s, newEpoch, prevEpoch, true, b);
    case _ => RetriedVerdictMirrors(cfg, s, d, b);
  }

  lemma RetriedVerdictMirrors(cfg: Config, s: State, d: Delivery, b: Base)
    requires !d.signal.Message? && !d.signal.EpochAdvanced? && Mirrors(s, b)
    ensures AllMirror(OnRetrySignal(cfg, s, d), b)
  {
    hide Mirrors, AppendFact, SeqOf, LeaveQueue;
    var id := d.signal.fact.id;
    NotStored(s, d.signal.fact, d.first, b);
    StoredMirrors(s, d.signal.fact, b);
    var s1 := PutFact(s, d.signal.fact);
    var s2 := Advance(if d.signal.Deferred? then s1 else Settle(s1, {id}), SeqOf(s1.disk.facts, id));
    SameMirrors(s1, s2, b);
    EmitMirrors(s2, EnvelopeReceived(id), b);
    var s3 := Emit(s2, EnvelopeReceived(id));
    if d.signal.Deferred? { EmitMirrors(s3, EnvelopeDeferred(id, d.signal.reason), b); }
    EmitMirrors(s3, RatchetAdvanced, b);
    EmitMirrors(s3, Rejected(id, ParseError), b);
    LeaveMirrors(Emit(s3, RatchetAdvanced), id, d.second, b);
    LeaveMirrors(Emit(s3, Rejected(id, ParseError)), id, d.second, b);
    AppendMirrors([s1], LeaveQueue(Emit(s3, RatchetAdvanced), id, d.second), b);
    AppendMirrors([s1], LeaveQueue(Emit(s3, Rejected(id, ParseError)), id, d.second), b);
  }

  lemma {:induction false} DrainRetryMirrors(cfg: Config, s: State, ds: seq<Delivery>, b: Base)
    requires Mirrors(s, b)
    ensures AllMirror(DrainRetry(cfg, s, ds), b)
    decreases ds
  {
    hide Mirrors, OnRetrySignal;
    if |ds| > 0 {
      var t := OnRetrySignal(cfg, s, ds[0]);
      RetrySignalMirrors(cfg, s, ds[0], b);
      EndMirrors(s, t, b);
      DrainRetryMirrors(cfg, End(s, t), ds[1..], b);
      AppendMirrors(t, DrainRetry(cfg, End(s, t), ds[1..]), b);
    }
  }

  lemma {:induction false} RejectAllMirrors(s: State, entries: seq<Parked>, why: RejectReason, b: Base)
    requires Mirrors(s, b)
    ensures Mirrors(RejectAll(s, entries, why), b)
    decreases entries
  {
    hide Mirrors;
    if |entries| > 0 {
      EmitMirrors(s, Rejected(entries[0].factId, why), b);
      RejectAllMirrors(Emit(s, Rejected(entries[0].factId, why)), entries[1..], why, b);
    }
  }

  lemma PruneMirrors(cfg: Config, s: State, now: int, w: Write, b: Base)
    requires Mirrors(s, b)
    ensures AllMirror(Prune(cfg, s, now, w), b) && AllMirror(Retire(cfg, s, w), b)
  {
    hide Mirrors, Fresh, Expired, Exhausted, UnparkedAll, Ids, IdSet, RejectAll;
    var gone, spent := Expired(s.mem.queue, now, cfg.options.maxDeferredAgeSec), Exhausted(s.mem.queue, cfg.options.maxRetryAttempts);
    if |gone| > 0 {
      var t := Prune(cfg, s, now, w);
      SameMirrors(s, t[0], b);
      SameMirrors(s, t[1], b);
      RejectAllMirrors(t[1], gone, DeferredTtlExpired, b);
    }
    if |spent| > 0 {
      var t := Retire(cfg, s, w);
      SameMirrors(s, t[0], b);
      SameMirrors(s, t[1], b);
      RejectAllMirrors(t[1], spent, RetryExhausted, b);
    }
  }

  lemma RunBatchMirrors(cfg: Config, s: State, batch: seq<Parked>, reply: seq<Delivery>, entered: bool, b: Base)
    requires Mirrors(s, b)
    ensures AllMirror(RunBatch(cfg, s, batch, reply, entered), b)
  {
    hide Mirrors, ChargedAll, DrainRetry;
    var s1 := if entered then s else Transition(s, RetryingDeferred);
    TransitionMirrors(s, RetryingDeferred, b);
    var s2 := Emit(s1, RetryStarted(|batch|));
    EmitMirrors(s1, RetryStarted(|batch|), b);
    var s3 := WithQueue(s2, ChargedAll(s2.mem.queue, batch));
    SameMirrors(s2, s3, b);
    DrainRetryMirrors(cfg, s3, reply, b);
    AppendMirrors((if entered then [] else [s1]) + [s3], DrainRetry(cfg, s3, reply), b);
  }

  lemma IterationMirrors(cfg: Config, s: State, p: Pass, entered: bool, b: Base)
    requires Mirrors(s, b)
    ensures AllMirror(Iteration(cfg, s, p, entered), b)
  {
    hide Mirrors, Prune, RunBatch, Retire, Eligible;
    var t1 := Prune(cfg, s, p.now, p.afterPrune);
    var s1 := End(s, t1);
    PruneMirrors(cfg, s, p.now, p.afterPrune, b);
    EndMirrors(s, t1, b);
    var batch := Eligible(s1.mem.queue, cfg.options.maxRetryAttempts);
    var t2 := if |batch| > 0 then RunBatch(cfg, s1, batch, p.reply, entered) else [];
    if |batch| > 0 { RunBatchMirrors(cfg, s1, batch, p.reply, entered, b); }
    EndMirrors(s1, t2, b);
    var s2 := End(s1, t2);
    PruneMirrors(cfg, s2, p.now, p.afterExhausted, b);
    AppendMirrors(t1, t2, b);
    AppendMirrors(t1 + t2, Retire(cfg, s2, p.afterExhausted), b);
  }

  lemma {:induction false} RetryLoopMirrors(cfg: Config, s: State, passes: seq<Pass>, entered: bool, b: Base)
    requires ValidOptions(cfg.options) && Mirrors(s, b)
    ensures AllMirror(RetryLoop(cfg, s, passes, entered), b)
    decreases passes
  {
    hide Mirrors, Iteration, EntersIn;
    if |passes| > 0 {
      var t := Iteration(cfg, s, passes[0], entered);
      var s1 := End(s, t);
      var s2 := Unlatched(s1);
      var entered' := entered || EntersIn(cfg, s, passes[0]);
      IterationMirrors(cfg, s, passes[0], entered, b);
      EndMirrors(s, t, b);
      SameMirrors(s1, s2, b);
      TransitionMirrors(s2, Live, b);
      AppendMirrors(t, [s2], b);
      if s1.mem.pendingRetry && |s1.mem.queue| > 0 {
        RetryLoopMirrors(cfg, s2, passes[1..], entered', b);
        AppendMirrors(t + [s2], RetryLoop(cfg, s2, passes[1..], entered'), b);
      }
    }
  }

  // ------------------------------------------------ commands and sessions

  lemma SignalMirrors(cfg: Config, s: State, d: Delivery, passes: seq<Pass>, b: Base)
    requires ValidOptions(cfg.options) && Mirrors(s, b)
    ensures AllMirror(ProcessSignal(cfg, s, d, passes), b)
  {
    hide Mirrors, RetryLoop, OnMessage, OnDeferred, OnSkipped, OnMalformed;
    match d.signal
    case Message(_, _, _, _, _) => MessageMirrors(cfg, s, d, b);
    case Deferred(_, _) => DeferredMirrors(cfg, s, d, b);
    case Skipped(_) => VerdictMirrors(s, d, b);
    case Malformed(_) => VerdictMirrors(s, d, b);
    case EpochAdvanced(newEpoch, prevEpoch) =>
      EpochMirrors(s, newEpoch, prevEpoch, s.mem.pendingRetry, b);
      var s1 := Emit(s.(mem := s.mem.(lastEpoch := Some(newEpoch))), GroupEpochAdvanced(newEpoch, prevEpoch));
      SameMirrors(s1, s1.(mem := s1.mem.(pendingRetry := true)), b);
      RetryLoopMirrors(cfg, s1, passes, false, b);
      AppendMirrors([s1], RetryLoop(cfg, s1, passes, false), b);
  }

  lemma LocalEditMirrors(cfg: Config, s: State, rumorId: string, payload: TaskEvent, now: int, w: Write, b: Base)
    requires Mirrors(s, b)
    ensures AllMirror(OnLocalEdit(cfg, s, rumorId, payload, now, w), b)
  {
    hide Mirrors, AppendEvent;
    var e := LocalEvent(cfg, s.mem.lastEpoch, rumorId, payload, now);
    var s1 := PutEvent(s, e);
    EmitMirrors(s, Rejected(e.factId, PersistenceExhausted), b);
    SameMirrors(s, s1, b);
    EmitMirrors(s1, Rejected(e.factId, PersistenceExhausted), b);
    AcceptMirrors(s1, e, b);
  }

  lemma CommandMirrors(cfg: Config, s: State, c: Command, b: Base)
    requires ValidOptions(cfg.options) && Mirrors(s, b) && !c.BootstrapResolved?
    ensures AllMirror(OnCommand(cfg, s, c), b)
  {
    hide Mirrors, ProcessSignal, OnLocalEdit, RetryLoop;
    match c
    case Deliver(d, passes) => SignalMirrors(cfg, s, d, passes, b);
    case LocalEdit(rumorId, payload, now, w) => LocalEditMirrors(cfg, s, rumorId, payload, now, w, b);
    case Enter(phase, passes) =>
      TransitionMirrors(s, phase, b);
      var s1 := Transition(s, phase);
      EmitMirrors(s1, Recovered, b);
      var s3 := Unlatched(Emit(s1, Recovered));
      SameMirrors(Emit(s1, Recovered), s3, b);
      RetryLoopMirrors(cfg, s3, passes, false, b);
      AppendMirrors([s1, s3], RetryLoop(cfg, s3, passes, false), b);
  }

  lemma {:induction false} CommandsMirror(cfg: Config, s: State, cs: seq<Command>, b: Base)
    requires ValidOptions(cfg.options) && Mirrors(s, b) && forall c :: c in cs ==> !c.BootstrapResolved?
    ensures AllMirror(OnCommands(cfg, s, cs), b)
    decreases cs
  {
    hide Mirrors, OnCommand;
    if |cs| > 0 {
      var t := OnCommand(cfg, s, cs[0]);
      CommandMirrors(cfg, s, cs[0], b);
      EndMirrors(s, t, b);
      CommandsMirror(cfg, End(s, t), cs[1..], b);
      AppendMirrors(t, OnCommands(cfg, End(s, t), cs[1..]), b);
    }
  }

  lemma {:induction false} DrainMirrors(cfg: Config, s: State, ds: seq<Delivery>, b: Base)
    requires ValidOptions(cfg.options) && Mirrors(s, b)
    ensures AllMirror(DrainSignals(cfg, s, ds), b)
    decreases ds
  {
    hide Mirrors, ProcessSignal;
    if |ds| > 0 {
      var t := ProcessSignal(cfg, s, ds[0], []);
      SignalMirrors(cfg, s, ds[0], [], b);
      EndMirrors(s, t, b);
      DrainMirrors(cfg, End(s, t), ds[1..], b);
      AppendMirrors(t, DrainSignals(cfg, End(s, t), ds[1..]), b);
    }
  }

  lemma {:induction false} RebuildSame(s: State, ids: seq<string>, cap: nat, now: int)
    ensures SameCells(s, Rebuild(s, ids, cap, now))
    decreases ids
  {
    hide FindFact, ParkIn;
    if |ids| > 0 {
      var f := FindFact(s.disk.facts, ids[0]);
      if f.Some? { ParkInSame(s, cap, Parked(ids[0], f.value, Unreadable, now, 0)); }
      RebuildSame(if f.None? then s else ParkIn(s, cap, Parked(ids[0], f.value, Unreadable, now, 0)), ids[1..], cap, now);
    }
  }

  lemma ParkInSame(s: State, cap: nat, e: Parked)
    ensures SameCells(s, ParkIn(s, cap, e))
  {
  }

  lemma RecoveryMirrors(cfg: Config, s: State, ses: Session, b: Base)
    requires ValidOptions(cfg.options) && Mirrors(s, b)
    ensures AllMirror(Recovery(cfg, s, ses), b)
  {
    hide Mirrors, Rebuild, DrainSignals, Unaccepted, EventIds, AcceptedFactIds;
    var t1 := LoadAndRebuild(cfg, s, ses.now, ses.afterPrune);
    RebuildSame(t1[1], Unaccepted(s.disk.deferred, AcceptedFactIds(s.disk.accepted)), cfg.options.maxDeferredSize, ses.now);
    LevelMirrors(s, t1, b);
    EndMirrors(s, t1, b);
    var s1 := End(s, t1);
    DrainMirrors(cfg, s1, ses.replay, b);
    EndMirrors(s1, DrainSignals(cfg, s1, ses.replay), b);
    TransitionMirrors(End(s1, DrainSignals(cfg, s1, ses.replay)), CatchingUp, b);
    AppendMirrors(t1, DrainSignals(cfg, s1, ses.replay), b);
    AppendMirrors(t1 + DrainSignals(cfg, s1, ses.replay), [Transition(End(s1, DrainSignals(cfg, s1, ses.replay)), CatchingUp)], b);
  }

  // ------------------------------------------------ how a start announces itself

  /** When a restored start joins, in terms of what is stored. */
  predicate Joins(d: Disk) {
    (d.checkpoint.Some? && d.checkpoint.value.bootstrapCompleted == false) ||
    (d.checkpoint == None && d.facts == [] && d.accepted == [])
  }

  /** The cells of a session on `d`, after its first announcement. */
  function BaseOf(d: Disk, s: State): (r: Base) {
    var recovers := d.checkpoint.Some? && d.checkpoint.value.bootstrapCompleted;
    Base(s.out, if Joins(d) then Joining else Recovering, if recovers then d.checkpoint.value.lastEpoch else None,
         if recovers then d.checkpoint.value.lastAcceptedDomainEventId else None, !Joins(d), s.disk.checkpoint)
  }

  lemma FirstAnnouncement(d: Disk, l: Ledger)
    ensures var s := StartState(d, l);
            s.out == [StateChanged(if Joins(d) then Joining else Recovering)] && Mirrors(s, BaseOf(d, s)) &&
            s.disk.checkpoint.Some? && s.disk.checkpoint.value.bootstrapCompleted == !Joins(d) &&
            s.disk == d.(checkpoint := s.disk.checkpoint)
  {
    var s := StartState(d, l);
    assert [] + [s.out[0]] == s.out && s.out[|s.out|..] == [];
  }

  lemma StartMirrors(cfg: Config, d: Disk, l: Ledger, ses: Session)
    requires ValidOptions(cfg.options)
    ensures AllMirror(StartTrace(cfg, d, l, ses), BaseOf(d, StartState(d, l)))
    ensures |StartTrace(cfg, d, l, ses)| > 0 && (Joins(d) <==> StartTrace(cfg, d, l, ses) == [StartState(d, l)])
  {
    var s := StartState(d, l);
    FirstAnnouncement(d, l);
    RecoveryMirrors(cfg, s, ses, BaseOf(d, s));
    hide Mirrors, Recovery, StartState;
    if !Joins(d) {
      RecoverySome(cfg, s, ses);
      AppendMirrors([s], Recovery(cfg, s, ses), BaseOf(d, s));
    }
  }

  lemma RecoverySome(cfg: Config, s: State, ses: Session)
    requires ValidOptions(cfg.options)
    ensures |Recovery(cfg, s, ses)| > 0 && LastOf(Recovery(cfg, s, ses)).mem.lifecycle.CatchingUp?
  {
    hide LoadAndRebuild, DrainSignals;
  }

  function LastOf(t: seq<State>): (r: State)
    requires |t| > 0
  {
    t[|t| - 1]
  }

  /** For every disk: a start announces joining, and nothing else, exactly if the
      checkpoint says that the bootstrap is not complete, or nothing is stored;
      every other start announces recovering first and ends in catching_up. */
  lemma StartAnnounces(cfg: Config, d: Disk, l: Ledger, ses: Session)
    requires ValidOptions(cfg.options)
    ensures var out := LastOf(StartTrace(cfg, d, l, ses)).out;
            (out == [StateChanged(Joining)] <==> Joins(d)) &&
            (!Joins(d) ==> |out| > 0 && out[0] == StateChanged(Recovering) && LastOf(StartTrace(cfg, d, l, ses)).mem.lifecycle.CatchingUp?)
  {
    var s := StartState(d, l);
    FirstAnnouncement(d, l);
    StartMirrors(cfg, d, l, ses);
    var t := StartTrace(cfg, d, l, ses);
    assert Mirrors(t[|t| - 1], BaseOf(d, s));
    if !Joins(d) { RecoverySome(cfg, s, ses); }
  }

  /** Whatever a session is given short of the end of its bootstrap, at every await
      memory and checkpoint say of the bootstrap what the start said. A session on
      an empty disk is never complete without it. */
  lemma CompleteOnlyIfResolved(cfg: Config, d: Disk, l: Ledger, ses: Session, k: nat)
    requires ValidOptions(cfg.options) && (forall c :: c in ses.commands ==> !c.BootstrapResolved?)
    requires k < |SessionTrace(cfg, d, l, ses)|
    ensures var s := SessionTrace(cfg, d, l, ses)[k];
            s.mem.bootstrapCompleted == !Joins(d) &&
            s.disk.checkpoint.Some? && s.disk.checkpoint.value.bootstrapCompleted == !Joins(d)
  {
    SessionMirrors(cfg, d, l, ses);
    FirstAnnouncement(d, l);
    hide SessionTrace;
    assert Mirrors(SessionTrace(cfg, d, l, ses)[k], BaseOf(d, StartState(d, l)));
  }

  /** And at every await the lifecycle, the epoch and the last accepted id are the
      latest announced ones, or else those of the checkpoint it recovered from. */
  lemma SessionMirrors(cfg: Config, d: Disk, l: Ledger, ses: Session)
    requires ValidOptions(cfg.options) && forall c :: c in ses.commands ==> !c.BootstrapResolved?
    ensures AllMirror(SessionTrace(cfg, d, l, ses), BaseOf(d, StartState(d, l)))
  {
    var b := BaseOf(d, StartState(d, l));
    StartMirrors(cfg, d, l, ses);
    hide Mirrors, StartTrace, OnCommands, StartState, BaseOf;
    var t := StartTrace(cfg, d, l, ses);
    var s := End(StartState(d, l), t);
    assert Mirrors(s, b) by { assert s == t[|t| - 1]; }
    CommandsMirror(cfg, s, ses.commands, b);
    AppendMirrors(t, OnCommands(cfg, s, ses.commands), b);
  }

  /** Memory and checkpoint both say that the bootstrap is complete. */
  predicate Completed(s: State) {
    s.mem.bootstrapCompleted && s.disk.checkpoint.Some? && s.disk.checkpoint.value.bootstrapCompleted
  }

  lemma CommandKeepsCompleted(cfg: Config, s: State, c: Command)
    requires ValidOptions(cfg.options) && (Completed(s) || c.BootstrapResolved?)
    ensures Completed(End(s, OnCommand(cfg, s, c)))
  {
    if !c.BootstrapResolved? {
      CommandMirrors(cfg, s, c, BaseAt(s));
      EndMirrors(s, OnCommand(cfg, s, c), BaseAt(s));
      hide OnCommand;
    }
  }

  /** The end of the bootstrap, once handled, is in memory and in the checkpoint, and
      stays there whatever the session is given next. */
  lemma {:induction false} ResolvedIsKept(cfg: Config, s: State, cs: seq<Command>)
    requires ValidOptions(cfg.options) && (Completed(s) || exists c :: c in cs && c.BootstrapResolved?)
    ensures Completed(End(s, OnCommands(cfg, s, cs)))
    decreases cs
  {
    hide Completed, OnCommand;
    if |cs| > 0 {
      var t := OnCommand(cfg, s, cs[0]);
      if Completed(s) || cs[0].BootstrapResolved? { CommandKeepsCompleted(cfg, s, cs[0]); } else { assert cs == [cs[0]] + cs[1..]; }
      ResolvedIsKept(cfg, End(s, t), cs[1..]);
      EndAppend(s, t, OnCommands(cfg, End(s, t), cs[1..]));
    }
  }

  /** A stop, then a recovering start: every cell of the checkpoint is back. */
  lemma StopThenRecover(s: State, d: Disk, l: Ledger)
    requires s.mem.bootstrapCompleted
    requires d.checkpoint == Some(CheckpointOf(s.mem.(lifecycle := Stopped)))
    ensures var r := StartState(d, l).mem;
            r.lastEpoch == s.mem.lastEpoch && r.lastAccepted == s.mem.lastAccepted && r.lastIngestedSeq == s.mem.lastIngestedSeq &&
            r.bootstrapCompleted && r.lifecycle.Recovering?
  {
  }
}
