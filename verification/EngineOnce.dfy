/** Exactly-once acceptance, whatever the persistence calls do: the invariant
    holds with writes that land, half land or give up, in any session. */

module EngineOnce {
  import opened Wrappers
  import opened TaskDomain
  import opened EngineTypes
  import opened EventLog
  import opened DeferredQueue
  import opened EngineSpec
  import opened EngineSafety

  /** `known` are the ids a recovery has read from the accepted log. No id is
      announced twice, none of `known` is announced at all, and each announced
      id is in the accepted log, which holds no id twice. */
  predicate Once(s: State, known: set<string>) {
    UniqueEvents(s.disk.accepted) && known <= s.mem.processed &&
    (forall x :: x in s.mem.processed ==> HasEvent(s.disk.accepted, x)) &&
    (forall i :: 0 <= i < |s.out| && s.out[i].Accepted? ==>
      s.out[i].event.id in s.mem.processed && s.out[i].event.id !in known) &&
    (forall i, j :: 0 <= i < j < |s.out| && s.out[i].Accepted? && s.out[j].Accepted? ==>
      s.out[i].event.id != s.out[j].event.id)
  }

  predicate AllOnce(t: seq<State>, known: set<string>) {
    forall k :: 0 <= k < |t| ==> Once(t[k], known)
  }

  /** From `a` to `b` nothing was accepted or announced as accepted. */
  predicate Quiet(a: State, b: State) {
    b.disk.accepted == a.disk.accepted && b.mem.processed == a.mem.processed && a.out <= b.out &&
    forall i :: |a.out| <= i < |b.out| ==> !b.out[i].Accepted?
  }

  lemma QuietOnce(a: State, b: State, known: set<string>)
    requires Once(a, known) && Quiet(a, b)
    ensures Once(b, known)
  {
  }

  lemma PutOnce(s: State, e: AcceptedEvent, known: set<string>)
    requires Once(s, known)
    ensures Once(PutEvent(s, e), known) && HasEvent(PutEvent(s, e).disk.accepted, e.id)
  {
    AppendKeepsUnique(s.disk.accepted, e);
  }

  /** Announcing is safe for a durable event whose id was not processed before. */
  lemma AcceptOnce(s: State, e: AcceptedEvent, known: set<string>)
    requires Once(s, known) && HasEvent(s.disk.accepted, e.id) && e.id !in s.mem.processed
    ensures Once(Accept(s, e), known)
  {
  }

  lemma OnceAppend(a: seq<State>, b: seq<State>, known: set<string>)
    requires AllOnce(a, known) && AllOnce(b, known)
    ensures AllOnce(a + b, known)
  {
  }

  lemma OnceEnd(s: State, t: seq<State>, known: set<string>)
    requires Once(s, known) && AllOnce(t, known)
    ensures Once(End(s, t), known)
  {
  }

  /** A trace on which every step is quiet. */
  predicate AllQuiet(s: State, t: seq<State>) {
    forall k :: 0 <= k < |t| ==> Quiet(s, t[k])
  }

  lemma QuietTrace(s: State, t: seq<State>, known: set<string>)
    requires Once(s, known) && AllQuiet(s, t)
    ensures AllOnce(t, known)
  {
    hide Once, Quiet;
    forall k | 0 <= k < |t| ensures Once(t[k], known) { QuietOnce(s, t[k], known); }
  }

  // ------------------------------------------------ handlers

  /** A durable event is announced at the end of what may come between. */
  lemma PutThenAccept(s: State, e: AcceptedEvent, mid: State, known: set<string>)
    requires Once(s, known) && e.id !in s.mem.processed && Quiet(PutEvent(s, e), mid)
    ensures Once(mid, known) && Once(Accept(mid, e), known)
  {
    PutOnce(s, e, known);
    QuietOnce(PutEvent(s, e), mid, known);
    AcceptOnce(mid, e, known);
  }

  lemma AcceptanceOnce(cfg: Config, s: State, e: AcceptedEvent, d: Delivery, known: set<string>)
    requires Once(s, known) && e.id !in s.mem.processed
    ensures AllOnce(Acceptance(s, e, d), known) && AllOnce(RetriedAcceptance(s, e, d), known)
  {
    hide AppendEvent, Unpark, Refunded, Without, SeqOf, Ids, Holds, Once;
    var t, u := Acceptance(s, e, d), RetriedAcceptance(s, e, d);
    if d.second.GaveUp? {
      QuietTrace(s, t, known);
      QuietTrace(s, u, known);
    } else {
      var s1 := PutEvent(s, e);
      PutThenAccept(s, e, s1, known);
      if d.second.HalfLanded? {
        QuietTrace(s1, t, known);
        QuietTrace(s1, u, known);
      } else {
        BeforeAccept(cfg, s, e, d, known);
        LeaveAfterAccept(s, e, d, known);
      }
    }
  }

  lemma BeforeAccept(cfg: Config, s: State, e: AcceptedEvent, d: Delivery, known: set<string>)
    requires Once(s, known) && e.id !in s.mem.processed && d.second.Landed?
    ensures AllOnce(Acceptance(s, e, d), known)
  {
    hide AppendEvent, Unpark, Without, SeqOf, Ids, Holds, Once;
    var s1 := PutEvent(s, e);
    var s2 := DropDeferredId(s1, e.factId);
    var s4 := if Holds(s.mem.queue, e.factId) then SaveDeferred(WithQueue(s2, Unpark(s2.mem.queue, e.factId)), d.third) else s1;
    var s5 := Advance(s4, SeqOf(s4.disk.facts, e.factId));
    var t := Acceptance(s, e, d);
    PutThenAccept(s, e, s1, known);
    PutThenAccept(s, e, s5, known);
    assert t[|t| - 1] == Accept(s5, e);
    QuietTrace(s1, t[..|t| - 1], known);
    assert t == t[..|t| - 1] + [Accept(s5, e)];
  }

  lemma LeaveAfterAccept(s: State, e: AcceptedEvent, d: Delivery, known: set<string>)
    requires Once(s, known) && e.id !in s.mem.processed && d.second.Landed?
    ensures AllOnce(RetriedAcceptance(s, e, d), known)
  {
    hide AppendEvent, Unpark, Without, SeqOf, Ids, Once;
    var s1 := PutEvent(s, e);
    var s2 := DropDeferredId(s1, e.factId);
    var s3 := Advance(s2, SeqOf(s2.disk.facts, e.factId));
    PutThenAccept(s, e, s1, known);
    PutThenAccept(s, e, s2, known);
    PutThenAccept(s, e, s3, known);
    QuietTrace(Accept(s3, e), LeaveQueue(Accept(s3, e), e.factId, d.third), known);
    OnceAppend([s1, s2], LeaveQueue(Accept(s3, e), e.factId, d.third), known);
  }

  lemma OnMessageOnce(cfg: Config, s: State, d: Delivery, known: set<string>)
    requires Once(s, known) && d.signal.Message?
    ensures AllOnce(OnMessage(cfg, s, d), known) && AllOnce(OnRetryMessage(cfg, s, d), known)
  {
    hide AppendFact, Unpark, SeqOf, Ids, Once, Acceptance, RetriedAcceptance;
    var e := EventOf(cfg, d.signal, d.now);
    if !d.first.Landed? || e.id in s.mem.processed {
      QuietTrace(s, OnMessage(cfg, s, d), known);
      QuietTrace(s, OnRetryMessage(cfg, s, d), known);
    } else {
      var s1 := PutFact(s, d.signal.fact);
      var s2 := Emit(s1, EnvelopeReceived(d.signal.fact.id));
      QuietOnce(s, s1, known);
      QuietOnce(s, s2, known);
      AcceptanceOnce(cfg, s2, e, d, known);
      OnceAppend([s1, s2], Acceptance(s2, e, d), known);
      OnceAppend([s1, s2], RetriedAcceptance(s2, e, d), known);
    }
  }

  lemma OtherSignalsOnce(cfg: Config, s: State, d: Delivery, known: set<string>)
    requires ValidOptions(cfg.options) && Once(s, known) && !d.signal.Message? && !d.signal.EpochAdvanced?
    ensures AllOnce(ProcessSignal(cfg, s, d, []), known)
  {
    hide Once, OnDeferred, OnSkipped, OnMalformed;
    match d.signal
    case Deferred(_, _) => OnDeferredQuiet(cfg, s, d); QuietTrace(s, OnDeferred(cfg, s, d), known);
    case Skipped(_) => VerdictsQuiet(s, d); QuietTrace(s, OnSkipped(s, d), known);
    case Malformed(_) => VerdictsQuiet(s, d); QuietTrace(s, OnMalformed(s, d), known);
  }

  lemma OnDeferredQuiet(cfg: Config, s: State, d: Delivery)
    requires ValidOptions(cfg.options) && d.signal.Deferred?
    ensures AllQuiet(s, OnDeferred(cfg, s, d))
  {
    hide AppendFact, Park, Evicted, SeqOf, FindFact, Ids, Holds;
  }

  lemma VerdictsQuiet(s: State, d: Delivery)
    ensures d.signal.Skipped? ==> AllQuiet(s, OnSkipped(s, d))
    ensures d.signal.Malformed? ==> AllQuiet(s, OnMalformed(s, d))
  {
    hide AppendFact, Unpark, SeqOf, Ids, Holds;
  }

  lemma OnRetrySignalOnce(cfg: Config, s: State, d: Delivery, known: set<string>)
    requires Once(s, known)
    ensures AllOnce(OnRetrySignal(cfg, s, d), known)
  {
    hide Once, OnRetryMessage, AllQuiet;
    if d.signal.Message? {
      OnMessageOnce(cfg, s, d, known);
    } else {
      RetriedIsQuiet(cfg, s, d);
      QuietTrace(s, OnRetrySignal(cfg, s, d), known);
    }
  }

  lemma RetriedIsQuiet(cfg: Config, s: State, d: Delivery)
    requires !d.signal.Message?
    ensures AllQuiet(s, OnRetrySignal(cfg, s, d))
  {
    hide AppendFact, Unpark, SeqOf, Ids;
  }

  lemma {:induction false} DrainRetryOnce(cfg: Config, s: State, ds: seq<Delivery>, known: set<string>)
    requires Once(s, known)
    ensures AllOnce(DrainRetry(cfg, s, ds), known)
    decreases ds
  {
    hide Once, OnRetrySignal;
    if |ds| > 0 {
      var t := OnRetrySignal(cfg, s, ds[0]);
      OnRetrySignalOnce(cfg, s, ds[0], known);
      OnceEnd(s, t, known);
      DrainRetryOnce(cfg, End(s, t), ds[1..], known);
    }
  }

  lemma {:induction false} RejectAllQuiet(s: State, entries: seq<Parked>, why: RejectReason)
    ensures Quiet(s, RejectAll(s, entries, why))
    decreases entries
  {
    if |entries| > 0 { RejectAllQuiet(Emit(s, Rejected(entries[0].factId, why)), entries[1..], why); }
  }

  lemma PruneAndRetireQuiet(cfg: Config, s: State, now: int, w: Write)
    ensures AllQuiet(s, Prune(cfg, s, now, w)) && AllQuiet(s, Retire(cfg, s, w))
  {
    hide Fresh, Expired, Exhausted, UnparkedAll, Ids, IdSet;
    var t := Prune(cfg, s, now, w);
    var u := Retire(cfg, s, w);
    if |t| > 0 { RejectAllQuiet(t[1], Expired(s.mem.queue, now, cfg.options.maxDeferredAgeSec), DeferredTtlExpired); }
    if |u| > 0 { RejectAllQuiet(u[1], Exhausted(s.mem.queue, cfg.options.maxRetryAttempts), RetryExhausted); }
  }

  lemma RunBatchOnce(cfg: Config, s: State, batch: seq<Parked>, reply: seq<Delivery>, entered: bool, known: set<string>)
    requires Once(s, known)
    ensures AllOnce(RunBatch(cfg, s, batch, reply, entered), known)
  {
    hide Once, ChargedAll, DrainRetry;
    var s1 := if entered then s else Transition(s, RetryingDeferred);
    var s2 := Emit(s1, RetryStarted(|batch|));
    var s3 := WithQueue(s2, ChargedAll(s2.mem.queue, batch));
    var t1 := (if entered then [] else [s1]) + [s3];
    QuietTrace(s, t1, known);
    QuietOnce(s, s3, known);
    DrainRetryOnce(cfg, s3, reply, known);
    OnceAppend(t1, DrainRetry(cfg, s3, reply), known);
  }

  lemma IterationOnce(cfg: Config, s: State, p: Pass, entered: bool, known: set<string>)
    requires Once(s, known)
    ensures AllOnce(Iteration(cfg, s, p, entered), known)
  {
    hide Once, AllQuiet, Prune, RunBatch, Retire, Eligible;
    var t1 := Prune(cfg, s, p.now, p.afterPrune);
    var s1 := End(s, t1);
    PruneAndRetireQuiet(cfg, s, p.now, p.afterPrune);
    QuietTrace(s, t1, known);
    OnceEnd(s, t1, known);
    var batch := Eligible(s1.mem.queue, cfg.options.maxRetryAttempts);
    var t2 := if |batch| > 0 then RunBatch(cfg, s1, batch, p.reply, entered) else [];
    if |batch| > 0 { RunBatchOnce(cfg, s1, batch, p.reply, entered, known); }
    var s2 := End(s1, t2);
    OnceEnd(s1, t2, known);
    PruneAndRetireQuiet(cfg, s2, p.now, p.afterExhausted);
    QuietTrace(s2, Retire(cfg, s2, p.afterExhausted), known);
    OnceAppend(t1, t2, known);
    OnceAppend(t1 + t2, Retire(cfg, s2, p.afterExhausted), known);
  }

  lemma {:induction false} RetryLoopOnce(cfg: Config, s: State, passes: seq<Pass>, entered: bool, known: set<string>)
    requires ValidOptions(cfg.options) && Once(s, known)
    ensures AllOnce(RetryLoop(cfg, s, passes, entered), known)
    decreases passes
  {
    hide Once, Iteration, EntersIn;
    if |passes| > 0 {
      var t := Iteration(cfg, s, passes[0], entered);
      var s1 := End(s, t);
      var s2 := Unlatched(s1);
      var entered' := entered || EntersIn(cfg, s, passes[0]);
      IterationOnce(cfg, s, passes[0], entered, known);
      OnceEnd(s, t, known);
      QuietOnce(s1, s2, known);
      QuietOnce(s1, Transition(s2, Live), known);
      OnceAppend(t, [s2], known);
      if s1.mem.pendingRetry && |s1.mem.queue| > 0 {
        RetryLoopOnce(cfg, s2, passes[1..], entered', known);
        OnceAppend(t + [s2], RetryLoop(cfg, s2, passes[1..], entered'), known);
      }
    }
  }

  // ------------------------------------------------ commands and sessions

  lemma SignalOnce(cfg: Config, s: State, d: Delivery, passes: seq<Pass>, known: set<string>)
    requires ValidOptions(cfg.options) && Once(s, known)
    ensures AllOnce(ProcessSignal(cfg, s, d, passes), known)
  {
    hide Once, RetryLoop, OnMessage, OnDeferred, OnSkipped, OnMalformed;
    match d.signal
    case Message(_, _, _, _, _) => OnMessageOnce(cfg, s, d, known);
    case EpochAdvanced(newEpoch, prevEpoch) =>
      var s1 := Emit(s.(mem := s.mem.(lastEpoch := Some(newEpoch))), GroupEpochAdvanced(newEpoch, prevEpoch));
      QuietOnce(s, s1, known);
      QuietOnce(s, s1.(mem := s1.mem.(pendingRetry := true)), known);
      RetryLoopOnce(cfg, s1, passes, false, known);
      OnceAppend([s1], RetryLoop(cfg, s1, passes, false), known);
    case _ => OtherSignalsOnce(cfg, s, d, known);
  }

  lemma LocalEditOnce(cfg: Config, s: State, rumorId: string, payload: TaskEvent, now: int, w: Write, known: set<string>)
    requires Once(s, known)
    ensures AllOnce(OnLocalEdit(cfg, s, rumorId, payload, now, w), known)
  {
    hide Once, AppendEvent;
    var e := LocalEvent(cfg, s.mem.lastEpoch, rumorId, payload, now);
    if e.id !in s.mem.processed {
      if w.GaveUp? {
        QuietOnce(s, GaveUpOn(s, e.factId), known);
      } else {
        PutThenAccept(s, e, PutEvent(s, e), known);
        QuietOnce(PutEvent(s, e), GaveUpOn(PutEvent(s, e), e.factId), known);
      }
    }
  }

  lemma CommandOnce(cfg: Config, s: State, c: Command, known: set<string>)
    requires ValidOptions(cfg.options) && Once(s, known)
    ensures AllOnce(OnCommand(cfg, s, c), known)
  {
    hide Once, ProcessSignal, OnLocalEdit, RetryLoop;
    match c
    case Deliver(d, passes) => SignalOnce(cfg, s, d, passes, known);
    case LocalEdit(rumorId, payload, now, w) => LocalEditOnce(cfg, s, rumorId, payload, now, w, known);
    case Enter(phase, passes) =>
      var s1 := Transition(s, phase);
      var s2 := Emit(s1, Recovered);
      var s3 := Unlatched(s2);
      QuietOnce(s, s1, known);
      QuietOnce(s, s2, known);
      QuietOnce(s, s3, known);
      RetryLoopOnce(cfg, s3, passes, false, known);
      OnceAppend([s1, s3], RetryLoop(cfg, s3, passes, false), known);
    case BootstrapResolved =>
      QuietOnce(s, SaveCheckpoint(s.(mem := s.mem.(bootstrapCompleted := true))), known);
  }

  lemma {:induction false} CommandsOnce(cfg: Config, s: State, cs: seq<Command>, known: set<string>)
    requires ValidOptions(cfg.options) && Once(s, known)
    ensures AllOnce(OnCommands(cfg, s, cs), known)
    decreases cs
  {
    hide Once, OnCommand;
    if |cs| > 0 {
      var t := OnCommand(cfg, s, cs[0]);
      CommandOnce(cfg, s, cs[0], known);
      OnceEnd(s, t, known);
      CommandsOnce(cfg, End(s, t), cs[1..], known);
    }
  }

  lemma {:induction false} DrainOnce(cfg: Config, s: State, ds: seq<Delivery>, known: set<string>)
    requires ValidOptions(cfg.options) && Once(s, known)
    ensures AllOnce(DrainSignals(cfg, s, ds), known)
    decreases ds
  {
    hide Once, ProcessSignal;
    if |ds| > 0 {
      var t := ProcessSignal(cfg, s, ds[0], []);
      SignalOnce(cfg, s, ds[0], [], known);
      OnceEnd(s, t, known);
      DrainOnce(cfg, End(s, t), ds[1..], known);
    }
  }

  lemma {:induction false} RebuildQuiet(s: State, ids: seq<string>, cap: nat, now: int)
    ensures Quiet(s, Rebuild(s, ids, cap, now)) && Rebuild(s, ids, cap, now).disk == s.disk
    decreases ids
  {
    hide Park, Evicted, FindFact;
    if |ids| > 0 {
      var f := FindFact(s.disk.facts, ids[0]);
      var s1 := if f.None? then s else ParkIn(s, cap, Parked(ids[0], f.value, Unreadable, now, 0));
      RebuildQuiet(s1, ids[1..], cap, now);
    }
  }

  /** R1 makes every id of the accepted log known before anything is replayed. */
  lemma LoadOnce(cfg: Config, s: State, now: int, w: Write)
    requires ValidOptions(cfg.options) && Once(s, {}) && s.out == [StateChanged(Recovering)]
    ensures AllOnce(LoadAndRebuild(cfg, s, now, w), EventIds(s.disk.accepted))
  {
    hide Rebuild, Unaccepted, AcceptedFactIds;
    var known := EventIds(s.disk.accepted);
    var t := LoadAndRebuild(cfg, s, now, w);
    assert Once(t[0], known);
    assert Quiet(t[0], t[1]);
    RebuildQuiet(t[1], Unaccepted(s.disk.deferred, AcceptedFactIds(s.disk.accepted)), cfg.options.maxDeferredSize, now);
    hide Once, Quiet;
    QuietOnce(t[0], t[1], known);
    QuietOnce(t[1], t[2], known);
  }

  /** The ids a start has learnt before it handles its first signal. */
  function KnownAtStart(d: Disk): (r: set<string>) {
    if RouteOf(d).Join? then {} else EventIds(d.accepted)
  }

  lemma RecoveryOnce(cfg: Config, s: State, ses: Session)
    requires ValidOptions(cfg.options) && Once(s, {}) && s.out == [StateChanged(Recovering)]
    ensures AllOnce(Recovery(cfg, s, ses), EventIds(s.disk.accepted))
  {
    LoadOnce(cfg, s, ses.now, ses.afterPrune);
    var known := EventIds(s.disk.accepted);
    var t1 := LoadAndRebuild(cfg, s, ses.now, ses.afterPrune);
    var s1 := End(s, t1);
    assert |t1| == 3;
    hide Once, LoadAndRebuild, DrainSignals;
    assert Once(s1, known);
    var t2 := DrainSignals(cfg, s1, ses.replay);
    DrainOnce(cfg, s1, ses.replay, known);
    var s2 := End(s1, t2);
    OnceEnd(s1, t2, known);
    QuietOnce(s2, Transition(s2, CatchingUp), known);
    OnceAppend(t1, t2, known);
  }

  lemma StartOnce(cfg: Config, d: Disk, l: Ledger, ses: Session)
    requires ValidOptions(cfg.options) && UniqueEvents(d.accepted)
    ensures var t := StartTrace(cfg, d, l, ses);
            |t| > 0 && Once(t[0], {}) && AllOnce(t[1..], KnownAtStart(d)) && Once(End(StartState(d, l), t), KnownAtStart(d)) &&
            t[0].out == [StateChanged(if RouteOf(d).Join? then Joining else Recovering)]
  {
    var s := StartState(d, l);
    assert Once(s, {}) && s.out == [StateChanged(if RouteOf(d).Join? then Joining else Recovering)];
    if !RouteOf(d).Join? {
      RecoveryOnce(cfg, s, ses);
      hide Once, Recovery, StartState, RouteOf;
      assert StartTrace(cfg, d, l, ses) == [s] + Recovery(cfg, s, ses);
    }
  }

  /** The first state of a session has announced nothing, and every later one
      keeps to what was known at the start. */
  lemma AwaitOnce(cfg: Config, d: Disk, l: Ledger, ses: Session, k: nat)
    requires ValidOptions(cfg.options) && UniqueEvents(d.accepted) && k < |SessionTrace(cfg, d, l, ses)|
    ensures var s := SessionTrace(cfg, d, l, ses)[k];
            Once(s, KnownAtStart(d)) || (Once(s, {}) && |s.out| == 1 && s.out[0].StateChanged?)
  {
    StartOnce(cfg, d, l, ses);
    hide StartTrace, OnCommands, StartState, Once, KnownAtStart;
    var t := StartTrace(cfg, d, l, ses);
    CommandsOnce(cfg, End(StartState(d, l), t), ses.commands, KnownAtStart(d));
    if 0 < k < |t| { assert t[k] == t[1..][k - 1]; }
  }

  /** Exactly once, at every await of every session and whatever the writes do:
      no id is announced twice across replay, history, live input, retries,
      bootstrap and local edits; each announced id is durable; and a recovery
      announces no id that was in the log before. */
  lemma ExactlyOnce(cfg: Config, d: Disk, l: Ledger, ses: Session, k: nat)
    requires ValidOptions(cfg.options) && UniqueEvents(d.accepted) && k < |SessionTrace(cfg, d, l, ses)|
    ensures var s := SessionTrace(cfg, d, l, ses)[k];
            UniqueEvents(s.disk.accepted) &&
            (forall i :: 0 <= i < |s.out| && s.out[i].Accepted? ==>
              HasEvent(s.disk.accepted, s.out[i].event.id) &&
              (!RouteOf(d).Join? ==> !HasEvent(d.accepted, s.out[i].event.id))) &&
            (forall i, j :: 0 <= i < j < |s.out| && s.out[i].Accepted? && s.out[j].Accepted? ==>
              s.out[i].event.id != s.out[j].event.id)
  {
    AwaitOnce(cfg, d, l, ses, k);
    hide SessionTrace, RouteOf;
  }

  /** A joining start has not read the log: an id that is in it is announced
      again, although the log itself keeps one copy. */
  lemma JoinAnnouncesAgain(cfg: Config, d: Disk, l: Ledger, delivery: Delivery)
    requires ValidOptions(cfg.options) && RouteOf(d).Join? && delivery.signal.Message? && AllLanded(delivery)
    requires HasEvent(d.accepted, EventOf(cfg, delivery.signal, delivery.now).id)
    ensures var s := StartState(d, l);
            var r := End(s, OnMessage(cfg, s, delivery));
            r.disk.accepted == d.accepted && r.out[|r.out| - 1] == Accepted(EventOf(cfg, delivery.signal, delivery.now))
  {
    hide AppendFact, SeqOf;
    assert !Holds([], delivery.signal.fact.id);
  }
}
