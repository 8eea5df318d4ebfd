/** The receive engine in its own form: an object whose handlers update its
    fields and its stores in place (src/engine/receive-engine.ts). Each handler
    is proved to produce exactly the trace that EngineSpec gives it, so what is
    proved about those traces holds of this object at every await. */

module ReceiveEngines {
  import opened Wrappers
  import opened TaskDomain
  import opened EngineTypes
  import opened EventLog
  import opened DeferredQueue
  import opened IngestPolicies
  import opened EngineSpec
  import Persistence

  class ReceiveEngine {
    const groupId: GroupId
    const options: Options
    const persistence: Persistence.PersistenceAdapter
    const ingestPolicy: IngestPolicy

    var lifecycle: Lifecycle
    var lastEpoch: Option<string>
    var lastIngestedSeq: nat
    var lastAcceptedDomainEventId: Option<string>
    var bootstrapCompleted: bool
    var pendingDeferredRetry: bool
    var outputs: seq<Output>

    ghost var ledger: Ledger
    /** The states at the awaits so far. */
    ghost var trace: seq<State>

    constructor (g: GroupId, o: Options, p: Persistence.PersistenceAdapter, ghost l: Ledger)
      requires ValidOptions(o)
      ensures Valid() && groupId == g && options == o && persistence == p && trace == [] && fresh(ingestPolicy)
      ensures View() == State(p.DiskOf(g), FRESH_MEMORY, [], l)
    {
      groupId, options, persistence := g, o, p;
      ingestPolicy := new IngestPolicy(o);
      lifecycle, lastEpoch, lastIngestedSeq, lastAcceptedDomainEventId := Uninitialized, None, 0, None;
      bootstrapCompleted, pendingDeferredRetry, outputs := false, false, [];
      ledger, trace := l, [];
    }

    ghost predicate Valid() {
      ValidOptions(options) && ingestPolicy.options == options
    }

    ghost function Cfg(): (r: Config) {
      Config(groupId, options)
    }

    ghost function View(): (r: State)
      reads this, persistence, ingestPolicy
    {
      State(persistence.DiskOf(groupId),
            Memory(lifecycle, lastEpoch, lastIngestedSeq, lastAcceptedDomainEventId, bootstrapCompleted,
                   pendingDeferredRetry, ingestPolicy.processed, ingestPolicy.deferred),
            outputs, ledger)
    }

    /** The method in which this is claimed has gone through exactly the states of `t`. */
    twostate predicate Ran(t: seq<State>)
      reads this, persistence, ingestPolicy
    {
      trace == old(trace) + t && View() == End(old(View()), t)
    }

    ghost method Await()
      modifies this`trace
      ensures trace == old(trace) + [View()] && View() == old(View())
    {
      trace := trace + [View()];
    }

    method EmitOutput(o: Output)
      modifies this`outputs
      ensures View() == Emit(old(View()), o)
    {
      outputs := outputs + [o];
    }

    method AdvanceWatermark(seqNo: nat)
      modifies this`lastIngestedSeq
      ensures View() == Advance(old(View()), seqNo)
    {
      if seqNo > lastIngestedSeq { lastIngestedSeq := seqNo; }
    }

    method SaveCheckpointNow()
      modifies persistence
      ensures View() == SaveCheckpoint(old(View()))
    {
      var _ := persistence.SaveCheckpoint(groupId,
        Checkpoint(lifecycle, lastEpoch, lastIngestedSeq, lastAcceptedDomainEventId, bootstrapCompleted));
    }

    method TransitionTo(l: Lifecycle)
      modifies this`lifecycle, this`outputs, this`trace, persistence
      ensures Ran([Transition(old(View()), l)]) && lifecycle == l
    {
      lifecycle := l;
      EmitOutput(StateChanged(l));
      SaveCheckpointNow();
      Await();
    }

    // -------------------------------------------- writes with retry

    method AppendFactWithRetry(fact: FactInput, w: Write) returns (stored: Option<RawFact>)
      requires fact.groupId == groupId && (!w.GaveUp? ==> fact.id != "")
      modifies persistence, this`outputs
      ensures stored.Some? <==> w.Landed?
      ensures w.Landed? ==>
        View() == PutFact(old(View()), fact) && stored == FindFact(View().disk.facts, fact.id) &&
        stored.value.id == fact.id && stored.value.seqNo == SeqOf(View().disk.facts, fact.id)
      ensures !w.Landed? ==>
        View() == GaveUpOn(if w.GaveUp? then old(View()) else PutFact(old(View()), fact), fact.id)
    {
      stored := None;
      if !w.GaveUp? {
        var _, f, _ := persistence.AppendFact(fact);
        if w.Landed? { return Some(f); }
      }
      EmitOutput(Rejected(fact.id, PersistenceExhausted));
    }

    ghost method NoteDecoded(factId: string, eventId: string)
      modifies this`ledger
      ensures View() == Decode(old(View()), factId, eventId)
    {
      ledger := ledger.(decoded := ledger.decoded + {(factId, eventId)});
    }

    ghost method NoteTerminal(ids: set<string>)
      modifies this`ledger
      ensures View() == Settle(old(View()), ids)
    {
      ledger := ledger.(terminal := ledger.terminal + ids);
    }

    method AppendAcceptedEventWithRetry(e: AcceptedEvent, w: Write) returns (ok: bool)
      requires e.groupId == groupId && (!w.GaveUp? ==> e.id != "")
      modifies persistence, this`outputs, this`ledger, this`trace
      ensures ok == w.Landed?
      ensures w.Landed? ==> Ran([PutEvent(old(View()), e)])
      ensures w.GaveUp? ==> trace == old(trace) && View() == GaveUpOn(old(View()), e.factId)
      ensures w.HalfLanded? ==> var s1 := PutEvent(old(View()), e);
        trace == old(trace) + [s1] && View() == GaveUpOn(s1, e.factId)
    {
      if !w.GaveUp? {
        var _ := persistence.AppendAcceptedEvent(e);
        NoteDecoded(e.factId, e.id);
        Await();
        if w.Landed? { return true; }
      }
      EmitOutput(Rejected(e.factId, PersistenceExhausted));
      ok := false;
    }

    method AcceptDeferredFactWithRetry(e: AcceptedEvent, w: Write) returns (ok: bool)
      requires e.groupId == groupId && (!w.GaveUp? ==> e.id != "" && e.factId != "")
      modifies persistence, this`outputs, this`ledger, this`trace
      ensures ok == w.Landed?
      ensures w.Landed? ==> var s1 := PutEvent(old(View()), e); Ran([s1, DropDeferredId(s1, e.factId)])
      ensures w.GaveUp? ==> trace == old(trace) && View() == GaveUpOn(old(View()), e.factId)
      ensures w.HalfLanded? ==> var s1 := PutEvent(old(View()), e);
        trace == old(trace) + [s1] && View() == GaveUpOn(s1, e.factId)
    {
      ghost var s := View();
      if !w.GaveUp? {
        var _, mid := persistence.AcceptDeferredFact(groupId, e.factId, e, w.HalfLanded?);
        NoteDecoded(e.factId, e.id);
        trace := trace + [View().(disk := mid)];
        assert View().(disk := mid) == PutEvent(s, e);
        if w.Landed? {
          Await();
          return true;
        }
      }
      EmitOutput(Rejected(e.factId, PersistenceExhausted));
      ok := false;
    }

    /** saveDeferredIdsWithRetry: a give-up is not announced. */
    method SaveDeferredIdsWithRetry(w: Write) returns (ok: bool)
      modifies persistence
      ensures ok == w.Landed? && View() == SaveDeferred(old(View()), w)
    {
      if !w.GaveUp? { var _ := persistence.SaveDeferredIds(groupId, ingestPolicy.DeferredFactIds()); }
      ok := w.Landed?;
    }

    method RemoveParked(factId: string)
      modifies ingestPolicy
      ensures View() == WithQueue(old(View()), Unpark(old(View()).mem.queue, factId))
    {
      ingestPolicy.RemoveDeferred(factId);
    }

    method AnnounceAccepted(e: AcceptedEvent)
      modifies ingestPolicy, this`lastAcceptedDomainEventId, this`lastIngestedSeq, this`outputs
      ensures View() == Accept(old(View()), e)
    {
      ingestPolicy.MarkProcessed(e.id);
      lastAcceptedDomainEventId := Some(e.id);
      EmitOutput(Accepted(e));
    }

    method IsProcessed(eventId: string) returns (r: bool)
      ensures r == (eventId in View().mem.processed)
    {
      r := ingestPolicy.HasProcessed(eventId);
    }

    method IsParked(factId: string) returns (r: bool)
      ensures r == Holds(View().mem.queue, factId)
    {
      r := ingestPolicy.HasDeferred(factId);
    }

    /** enqueueDeferred, with what the cap pushes out noted. */
    method ParkFact(fact: RawFact, reason: DeferredReason, now: int) returns (isNew: bool)
      requires Valid()
      modifies ingestPolicy, this`ledger
      ensures isNew == !Holds(old(View()).mem.queue, fact.id)
      ensures View() == ParkIn(old(View()), options.maxDeferredSize, Parked(fact.id, fact, reason, now, 0))
      ensures !isNew ==> View() == old(View())
    {
      assert ledger.terminal + {} == ledger.terminal;
      ghost var before := ingestPolicy.deferred;
      isNew := ingestPolicy.EnqueueDeferred(fact.id, fact, reason, now);
      if isNew { NoteTerminal(Evicted(before, Parked(fact.id, fact, reason, now, 0), options.maxDeferredSize)); }
    }

    method RefundParked(factId: string)
      modifies ingestPolicy
      ensures View() == WithQueue(old(View()), Refunded(old(View()).mem.queue, factId))
    {
      ingestPolicy.RefundAttempt(factId);
    }

    // -------------------------------------------- signal handlers

    predicate Plausible(d: Delivery) {
      match d.signal
      case EpochAdvanced(_, _) => true
      case Message(fact, rumorId, _, _, source) =>
        fact.groupId == groupId && (!d.first.GaveUp? ==> fact.id != "") &&
        (d.first.Landed? && !d.second.GaveUp? && !source.BootstrapSnapshot? ==> rumorId != "")
      case _ => d.signal.fact.groupId == groupId && (!d.first.GaveUp? ==> d.signal.fact.id != "")
    }

    method BuildEvent(d: Delivery) returns (e: AcceptedEvent)
      requires d.signal.Message?
      ensures e == EventOf(Cfg(), d.signal, d.now)
    {
      var kind := if d.signal.source.BootstrapSnapshot? then Bootstrap else Mls;
      var eventId := if kind.Bootstrap? then BootstrapEventId(groupId, TaskIdOf(d.signal.payload)) else MlsEventId(d.signal.rumorId);
      e := AcceptedEvent(eventId, d.signal.fact.id, kind, groupId, d.now, d.signal.epoch, d.signal.payload);
    }

    method HandleMessage(d: Delivery)
      requires Valid() && Plausible(d) && d.signal.Message?
      modifies this, persistence, ingestPolicy
      ensures Ran(OnMessage(Cfg(), old(View()), d))
    {
      hide View, AppendFact, Acceptance, SeqOf, FindFact;
      var stored := AppendFactWithRetry(d.signal.fact, d.first);
      Await();
      if stored.None? { return; }
      var fact := stored.value;
      EmitOutput(EnvelopeReceived(fact.id));
      var event := BuildEvent(d);
      var known := IsProcessed(event.id);
      if known {
        NoteDecoded(fact.id, event.id);
        AdvanceWatermark(fact.seqNo);
        Await();
        return;
      }
      Await();
      AcceptMessage(event, fact.seqNo, d);
    }

    /** The second half of handleMessage: accept, un-parking the fact if it was parked. */
    method AcceptMessage(event: AcceptedEvent, seqNo: nat, d: Delivery)
      requires event.groupId == groupId && (!d.second.GaveUp? ==> event.id != "" && event.factId != "")
      requires seqNo == SeqOf(View().disk.facts, event.factId)
      modifies this, persistence, ingestPolicy
      ensures Ran(Acceptance(old(View()), event, d))
    {
      hide View, AppendEvent, Unpark, SeqOf, Ids, Holds, Without;
      var wasParked := IsParked(event.factId);
      if wasParked {
        var accepted := AcceptDeferredFactWithRetry(event, d.second);
        if !accepted {
          Await();
          return;
        }
        RemoveParked(event.factId);
        Await();
        var _ := SaveDeferredIdsWithRetry(d.third);
        Await();
      } else {
        var appended := AppendAcceptedEventWithRetry(event, d.second);
        if !appended {
          Await();
          return;
        }
      }
      AdvanceWatermark(seqNo);
      AnnounceAccepted(event);
      Await();
    }

    method HandleDeferred(d: Delivery)
      requires Valid() && Plausible(d) && d.signal.Deferred?
      modifies this, persistence, ingestPolicy
      ensures Ran(OnDeferred(Cfg(), old(View()), d))
    {
      hide View, AppendFact, SeqOf, FindFact, Ids, Holds, Park, Evicted, Unpark;
      var stored := AppendFactWithRetry(d.signal.fact, d.first);
      Await();
      if stored.None? { return; }
      var fact := stored.value;
      EmitOutput(EnvelopeReceived(fact.id));
      var isNew := ParkFact(fact, d.signal.reason, d.now);
      var deferredDurable := !isNew;
      if isNew {
        Await();
        deferredDurable := SaveDeferredIdsWithRetry(d.second);
        Await();
      }
      if deferredDurable { AdvanceWatermark(fact.seqNo); }
      EmitOutput(EnvelopeDeferred(fact.id, d.signal.reason));
      Await();
    }

    method HandleSkipped(d: Delivery)
      requires Valid() && Plausible(d) && d.signal.Skipped?
      modifies this, persistence, ingestPolicy
      ensures Ran(OnSkipped(old(View()), d))
    {
      hide View, AppendFact, SeqOf, FindFact;
      var stored := AppendFactWithRetry(d.signal.fact, d.first);
      Await();
      if stored.None? { return; }
      var fact := stored.value;
      NoteTerminal({fact.id});
      AdvanceWatermark(fact.seqNo);
      EmitOutput(EnvelopeReceived(fact.id));
      EmitOutput(RatchetAdvanced);
      Await();
    }

    method HandleMalformed(d: Delivery)
      requires Valid() && Plausible(d) && d.signal.Malformed?
      modifies this, persistence, ingestPolicy
      ensures Ran(OnMalformed(old(View()), d))
    {
      hide View, AppendFact, SeqOf, FindFact, Rejection;
      var stored := AppendFactWithRetry(d.signal.fact, d.first);
      Await();
      if stored.None? { return; }
      var fact := stored.value;
      NoteTerminal({fact.id});
      AdvanceWatermark(fact.seqNo);
      EmitOutput(EnvelopeReceived(fact.id));
      RejectMalformed(fact.id, d.second);
    }

    /** The second half of handleMalformed: a defensive un-park, then the rejection. */
    method RejectMalformed(factId: string, w: Write)
      modifies this, persistence, ingestPolicy
      ensures Ran(Rejection(old(View()), factId, w))
    {
      hide View, Ids, Holds, Unpark;
      var wasParked := IsParked(factId);
      if wasParked {
        RemoveParked(factId);
        Await();
        var _ := SaveDeferredIdsWithRetry(w);
        Await();
      }
      EmitOutput(Rejected(factId, ParseError));
      Await();
    }

    method HandleEpochAdvanced(newEpoch: string, prevEpoch: string, passes: seq<Pass>)
      requires Valid() && AllPlausible(passes)
      modifies this, persistence, ingestPolicy
      ensures Ran(OnEpoch(Cfg(), old(View()), EpochAdvanced(newEpoch, prevEpoch), passes))
      decreases |passes|, 2
    {
      hide RetryLoop;
      lastEpoch := Some(newEpoch);
      EmitOutput(GroupEpochAdvanced(newEpoch, prevEpoch));
      if lifecycle.Live? {
        Await();
        if |ingestPolicy.deferred| > 0 { EnterRetryingDeferred(passes); }
      } else {
        pendingDeferredRetry := true;
        Await();
      }
    }

    method ProcessOne(d: Delivery, passes: seq<Pass>)
      requires Valid() && Plausible(d) && AllPlausible(passes)
      modifies this, persistence, ingestPolicy
      ensures Ran(ProcessSignal(Cfg(), old(View()), d, passes))
    {
      hide OnMessage, OnDeferred, OnSkipped, OnMalformed, OnEpoch;
      match d.signal
      case Message(_, _, _, _, _) => HandleMessage(d);
      case Deferred(_, _) => HandleDeferred(d);
      case Skipped(_) => HandleSkipped(d);
      case Malformed(_) => HandleMalformed(d);
      case EpochAdvanced(newEpoch, prevEpoch) => HandleEpochAdvanced(newEpoch, prevEpoch, passes);
    }

    // -------------------------------------------- the deferred-retry pass

    predicate PlausiblePass(p: Pass) {
      forall d :: d in p.reply ==> Plausible(d)
    }

    predicate AllPlausible(passes: seq<Pass>) {
      forall p :: p in passes ==> PlausiblePass(p)
    }

    method UnparkAndSave(factId: string, w: Write)
      modifies this`trace, persistence, ingestPolicy
      ensures Ran(LeaveQueue(old(View()), factId, w))
    {
      hide Unpark, Ids;
      RemoveParked(factId);
      Await();
      var _ := SaveDeferredIdsWithRetry(w);
      Await();
    }

    method HandleRetriedMessage(d: Delivery)
      requires Valid() && Plausible(d) && d.signal.Message?
      modifies this, persistence, ingestPolicy
      ensures Ran(OnRetryMessage(Cfg(), old(View()), d))
    {
      hide View, AppendFact, SeqOf, FindFact, LeaveQueue, RetriedAcceptance;
      var stored := AppendFactWithRetry(d.signal.fact, d.first);
      Await();
      if stored.None? { return; }
      var fact := stored.value;
      EmitOutput(EnvelopeReceived(fact.id));
      var event := BuildEvent(d);
      var known := IsProcessed(event.id);
      if known {
        CoverKnownEvent(fact, event.id, d.third);
      } else {
        Await();
        AcceptRetriedMessage(event, fact.seqNo, d);
      }
    }

    /** A retried message whose event is durable already only leaves the queue. */
    method CoverKnownEvent(fact: RawFact, eventId: string, w: Write)
      modifies this, persistence, ingestPolicy
      ensures Ran(LeaveQueue(Advance(Decode(old(View()), fact.id, eventId), fact.seqNo), fact.id, w))
    {
      hide View, LeaveQueue;
      NoteDecoded(fact.id, eventId);
      AdvanceWatermark(fact.seqNo);
      UnparkAndSave(fact.id, w);
    }

    /** acceptDeferredFact for a retried message; a give-up refunds the attempt. */
    method AcceptRetriedMessage(event: AcceptedEvent, seqNo: nat, d: Delivery)
      requires event.groupId == groupId && (!d.second.GaveUp? ==> event.id != "" && event.factId != "")
      requires seqNo == SeqOf(View().disk.facts, event.factId)
      modifies this, persistence, ingestPolicy
      ensures Ran(RetriedAcceptance(old(View()), event, d))
    {
      hide View, AppendEvent, SeqOf, Without, Refunded, LeaveQueue;
      var accepted := AcceptDeferredFactWithRetry(event, d.second);
      if !accepted {
        RefundParked(event.factId);
        Await();
        return;
      }
      AdvanceWatermark(seqNo);
      AnnounceAccepted(event);
      UnparkAndSave(event.factId, d.third);
    }

    method HandleDeferredRetrySignal(d: Delivery)
      requires Valid() && Plausible(d) && !lifecycle.Live?
      modifies this, persistence, ingestPolicy
      ensures Ran(OnRetrySignal(Cfg(), old(View()), d))
      decreases 0, 3
    {
      assert !View().mem.lifecycle.Live?;
      hide View, AppendFact, SeqOf, LeaveQueue, OnRetryMessage;
      match d.signal
      case Message(_, _, _, _, _) => HandleRetriedMessage(d);
      case EpochAdvanced(newEpoch, prevEpoch) => HandleEpochAdvanced(newEpoch, prevEpoch, []);
      case Deferred(_, _) => HandleRetriedDeferred(d);
      case _ => HandleRetriedVerdict(d);
    }

    method HandleRetriedDeferred(d: Delivery)
      requires Valid() && Plausible(d) && d.signal.Deferred?
      modifies this, persistence, ingestPolicy
      ensures Ran(OnRetrySignal(Cfg(), old(View()), d))
    {
      hide View, AppendFact, SeqOf, FindFact;
      var stored := AppendFactWithRetry(d.signal.fact, d.first);
      Await();
      if stored.None? { return; }
      var fact := stored.value;
      AdvanceWatermark(fact.seqNo);
      EmitOutput(EnvelopeReceived(fact.id));
      EmitOutput(EnvelopeDeferred(fact.id, d.signal.reason));
      Await();
    }

    /** The skipped and malformed cases of a retry pass. */
    method HandleRetriedVerdict(d: Delivery)
      requires Valid() && Plausible(d) && (d.signal.Skipped? || d.signal.Malformed?)
      modifies this, persistence, ingestPolicy
      ensures Ran(OnRetrySignal(Cfg(), old(View()), d))
    {
      hide View, AppendFact, SeqOf, FindFact, LeaveQueue;
      var stored := AppendFactWithRetry(d.signal.fact, d.first);
      Await();
      if stored.None? { return; }
      var fact := stored.value;
      NoteTerminal({fact.id});
      AdvanceWatermark(fact.seqNo);
      EmitOutput(EnvelopeReceived(fact.id));
      EmitOutput(if d.signal.Skipped? then RatchetAdvanced else Rejected(fact.id, ParseError));
      UnparkAndSave(fact.id, d.second);
    }

    method DrainRetries(reply: seq<Delivery>)
      requires Valid() && !lifecycle.Live? && forall d :: d in reply ==> Plausible(d)
      modifies this, persistence, ingestPolicy
      ensures Ran(DrainRetry(Cfg(), old(View()), reply)) && lifecycle == old(lifecycle)
      decreases 0, 4
    {
      hide OnRetrySignal;
      ghost var s0, before := View(), trace;
      for i := 0 to |reply|
        invariant Valid() && lifecycle == old(lifecycle) && before <= trace
        invariant DrainRetry(Cfg(), s0, reply) == trace[|before|..] + DrainRetry(Cfg(), View(), reply[i..])
        invariant View() == End(s0, trace[|before|..])
      {
        ghost var s := View();
        RetryKeepsLifecycle(Cfg(), s, reply[i]);
        HandleDeferredRetrySignal(reply[i]);
        assert reply[i..][0] == reply[i] && reply[i..][1..] == reply[i + 1..];
      }
    }

    /** recordAttempt for the whole batch. */
    method ChargeBatch(batch: seq<Parked>)
      modifies ingestPolicy
      ensures View() == WithQueue(old(View()), ChargedAll(old(View()).mem.queue, batch))
    {
      ghost var q := ingestPolicy.deferred;
      for i := 0 to |batch|
        invariant View() == WithQueue(old(View()), ingestPolicy.deferred)
        invariant ChargedAll(q, batch) == ChargedAll(ingestPolicy.deferred, batch[i..])
      {
        ingestPolicy.RecordAttempt(batch[i].factId);
        assert batch[i..][1..] == batch[i + 1..];
      }
    }

    method RejectEach(entries: seq<Parked>, why: RejectReason)
      modifies this`outputs
      ensures View() == RejectAll(old(View()), entries, why)
    {
      ghost var s0 := View();
      for i := 0 to |entries|
        invariant RejectAll(s0, entries, why) == RejectAll(View(), entries[i..], why)
      {
        EmitOutput(Rejected(entries[i].factId, why));
        assert entries[i..][1..] == entries[i + 1..];
      }
    }

    method PruneAndReportTtlExpired(now: int, w: Write)
      requires Valid()
      modifies this, persistence, ingestPolicy
      ensures Ran(Prune(Cfg(), old(View()), now, w)) && lifecycle == old(lifecycle)
    {
      hide View, RejectAll, Ids, IdSet, Expired, Fresh;
      var pruned := PruneParked(now);
      if |pruned| == 0 { return; }
      Await();
      var _ := SaveDeferredIdsWithRetry(w);
      Await();
      RejectEach(pruned, DeferredTtlExpired);
      Await();
    }

    /** pruneDeferred, with the expired entries noted. */
    method PruneParked(now: int) returns (pruned: seq<Parked>)
      requires Valid()
      modifies ingestPolicy, this`ledger
      ensures pruned == Expired(old(View()).mem.queue, now, options.maxDeferredAgeSec)
      ensures |pruned| == 0 ==> View() == old(View())
      ensures |pruned| > 0 ==>
        View() == Settle(WithQueue(old(View()), Fresh(old(View()).mem.queue, now, options.maxDeferredAgeSec)), IdSet(pruned))
    {
      hide Expired, Fresh, IdSet;
      FreshWhenNoneAged(ingestPolicy.deferred, now, options.maxDeferredAgeSec);
      pruned := ingestPolicy.PruneDeferred(now);
      if |pruned| > 0 { NoteTerminal(IdSet(pruned)); }
    }

    /** exhaustedEntries, each of them removed and noted. */
    method RemoveExhausted() returns (exhausted: seq<Parked>)
      requires Valid()
      modifies ingestPolicy, this`ledger
      ensures exhausted == Exhausted(old(View()).mem.queue, options.maxRetryAttempts)
      ensures |exhausted| == 0 ==> View() == old(View())
      ensures |exhausted| > 0 ==>
        View() == Settle(WithQueue(old(View()), UnparkedAll(old(View()).mem.queue, exhausted)), IdSet(exhausted))
    {
      hide Exhausted, IdSet, Unpark;
      exhausted := ingestPolicy.ExhaustedEntries();
      ghost var q := ingestPolicy.deferred;
      for i := 0 to |exhausted|
        invariant View() == WithQueue(old(View()), ingestPolicy.deferred)
        invariant UnparkedAll(q, exhausted) == UnparkedAll(ingestPolicy.deferred, exhausted[i..])
      {
        RemoveParked(exhausted[i].factId);
        assert exhausted[i..][1..] == exhausted[i + 1..];
      }
      if |exhausted| > 0 { NoteTerminal(IdSet(exhausted)); }
    }

    method ReportAndRemoveExhausted(w: Write)
      requires Valid()
      modifies this, persistence, ingestPolicy
      ensures Ran(Retire(Cfg(), old(View()), w)) && lifecycle == old(lifecycle)
    {
      hide View, RejectAll, Ids, IdSet, Exhausted, UnparkedAll;
      var exhausted := RemoveExhausted();
      if |exhausted| == 0 { return; }
      Await();
      var _ := SaveDeferredIdsWithRetry(w);
      Await();
      RejectEach(exhausted, RetryExhausted);
      Await();
    }

    method RunDeferredRetryPass(batch: seq<Parked>, reply: seq<Delivery>, entered: bool)
      requires Valid() && (entered ==> !lifecycle.Live?) && forall d :: d in reply ==> Plausible(d)
      modifies this, persistence, ingestPolicy
      ensures Ran(RunBatch(Cfg(), old(View()), batch, reply, entered)) && !lifecycle.Live?
      decreases 0, 5
    {
      hide View, DrainRetry, ChargedAll;
      if !entered { TransitionTo(RetryingDeferred); }
      EmitOutput(RetryStarted(|batch|));
      ChargeBatch(batch);
      Await();
      DrainRetries(reply);
    }

    /** The body of the loop in enterRetryingDeferred, up to its test of the latch. */
    method RunIteration(p: Pass, everEnteredRetrying: bool) returns (entered: bool)
      requires Valid() && PlausiblePass(p) && (everEnteredRetrying ==> !lifecycle.Live?)
      modifies this, persistence, ingestPolicy
      ensures Ran(Iteration(Cfg(), old(View()), p, everEnteredRetrying))
      ensures entered == (everEnteredRetrying || EntersIn(Cfg(), old(View()), p))
      ensures entered ==> !lifecycle.Live?
      decreases 0, 6
    {
      hide View, Prune, RunBatch, Retire, Eligible;
      PruneAndReportTtlExpired(p.now, p.afterPrune);
      var batch := CurrentBatch();
      entered := everEnteredRetrying || |batch| > 0;
      if |batch| > 0 { RunDeferredRetryPass(batch, p.reply, everEnteredRetrying); }
      ReportAndRemoveExhausted(p.afterExhausted);
    }

    method CurrentBatch() returns (r: seq<Parked>)
      requires Valid()
      ensures r == Eligible(View().mem.queue, options.maxRetryAttempts)
    {
      r := ingestPolicy.RetryBatch();
    }

    /** Reads the latch and clears it. */
    method TakeLatch() returns (again: bool)
      modifies this`pendingDeferredRetry, this`trace
      ensures again == (old(View()).mem.pendingRetry && |old(View()).mem.queue| > 0)
      ensures Ran([Unlatched(old(View()))])
    {
      again := pendingDeferredRetry && |ingestPolicy.deferred| > 0;
      pendingDeferredRetry := false;
      Await();
    }

    /** One turn of the loop: the pass, the test of the latch, and the way back to live if it is the last. */
    method RunTurn(p: Pass, everEnteredRetrying: bool) returns (entered: bool, again: bool)
      requires Valid() && PlausiblePass(p) && (everEnteredRetrying ==> !lifecycle.Live?)
      modifies this, persistence, ingestPolicy
      ensures Ran(Turn(Cfg(), old(View()), p, everEnteredRetrying))
      ensures again == TurnsAgain(Cfg(), old(View()), p, everEnteredRetrying)
      ensures entered == (everEnteredRetrying || EntersIn(Cfg(), old(View()), p))
      ensures again && entered ==> !lifecycle.Live?
      decreases 0, 7
    {
      hide View, Iteration, EntersIn;
      entered := RunIteration(p, everEnteredRetrying);
      again := TakeLatch();
      if !again && entered { TransitionTo(Live); }
    }

    /** enterRetryingDeferred: pass after pass while a nested epoch advance asks
        for another one. */
    method EnterRetryingDeferred(passes: seq<Pass>)
      requires Valid() && AllPlausible(passes)
      modifies this, persistence, ingestPolicy
      ensures Ran(RetryLoop(Cfg(), old(View()), passes, false))
      decreases |passes|, 1
    {
      hide View, Turn, TurnsAgain, EntersIn, RetryLoop, PlausiblePass, End;
      assert View() == End(View(), []) by { NoStates(View()); }
      ghost var s0, before, done := View(), trace, [];
      var everEnteredRetrying := false;
      var i := 0;
      while i < |passes|
        invariant i <= |passes| && Valid() && trace == before + done && (everEnteredRetrying ==> !lifecycle.Live?)
        invariant RetryLoop(Cfg(), s0, passes, false) == done + RetryLoop(Cfg(), View(), passes[i..], everEnteredRetrying)
        invariant View() == End(s0, done)
      {
        assert passes[i] in passes;
        RetryLoopUnrolls(Cfg(), View(), passes, i, everEnteredRetrying);
        ghost var t := Turn(Cfg(), View(), passes[i], everEnteredRetrying);
        var entered, again := RunTurn(passes[i], everEnteredRetrying);
        EndAppend(s0, done, t);
        assert done + (t + []) == done + t;
        done, everEnteredRetrying, i := done + t, entered, i + 1;
        if !again { return; }
      }
      assert passes[i..] == [] && done + [] == done;
      RetryLoopEnds(Cfg(), View(), everEnteredRetrying);
    }

    // -------------------------------------------- local edits, phases, commands

    /** acceptLocal: an optimistic local accept, on the same queue as the signals. */
    method AcceptLocal(rumorId: string, payload: TaskEvent, now: int, w: Write)
      requires !w.GaveUp? ==> rumorId != ""
      modifies this, persistence, ingestPolicy
      ensures Ran(OnLocalEdit(Cfg(), old(View()), rumorId, payload, now, w))
    {
      var event := AcceptedEvent(MlsEventId(rumorId), "local:" + rumorId, Mls, groupId, now, lastEpoch.GetOr("unknown"), payload);
      assert event == LocalEvent(Cfg(), View().mem.lastEpoch, rumorId, payload, now);
      hide View, AppendEvent, LocalEvent;
      var known := IsProcessed(event.id);
      if known { return; }
      var appended := AppendAcceptedEventWithRetry(event, w);
      if appended { AnnounceAccepted(event); }
      Await();
    }

    /** enterLive: announce, then take the retry that was asked for on the way. */
    method EnterLive(passes: seq<Pass>)
      requires Valid() && AllPlausible(passes)
      modifies this, persistence, ingestPolicy
      ensures Ran(OnEnter(Cfg(), old(View()), Live, passes))
    {
      hide View, RetryLoop;
      TransitionTo(Live);
      EmitOutput(Recovered);
      var again := TakeLatch();
      if again { EnterRetryingDeferred(passes); }
    }

    method ResolveBootstrap()
      modifies this, persistence
      ensures Ran([SaveCheckpoint(old(View()).(mem := old(View()).mem.(bootstrapCompleted := true)))])
    {
      bootstrapCompleted := true;
      SaveCheckpointNow();
      Await();
    }

    predicate PlausibleCommand(c: Command) {
      match c
      case Deliver(d, passes) => Plausible(d) && AllPlausible(passes)
      case LocalEdit(rumorId, _, _, w) => !w.GaveUp? ==> rumorId != ""
      case Enter(_, passes) => AllPlausible(passes)
      case BootstrapResolved => true
    }

    method RunCommand(c: Command)
      requires Valid() && PlausibleCommand(c)
      modifies this, persistence, ingestPolicy
      ensures Ran(OnCommand(Cfg(), old(View()), c))
    {
      hide View, ProcessSignal, OnLocalEdit, Transition, RetryLoop;
      match c
      case Deliver(d, passes) => ProcessOne(d, passes);
      case LocalEdit(rumorId, payload, now, w) => AcceptLocal(rumorId, payload, now, w);
      case Enter(phase, passes) => if phase.Live? { EnterLive(passes); } else { TransitionTo(phase); }
      case BootstrapResolved => ResolveBootstrap();
    }

    method RunCommands(cs: seq<Command>)
      requires Valid() && forall c :: c in cs ==> PlausibleCommand(c)
      modifies this, persistence, ingestPolicy
      ensures Ran(OnCommands(Cfg(), old(View()), cs))
    {
      hide View, OnCommand;
      ghost var s0, before, done := View(), trace, [];
      for i := 0 to |cs|
        invariant Valid() && trace == before + done && View() == End(s0, done)
        invariant OnCommands(Cfg(), s0, cs) == done + OnCommands(Cfg(), View(), cs[i..])
      {
        assert cs[i..][0] == cs[i] && cs[i..][1..] == cs[i + 1..];
        ghost var t := OnCommand(Cfg(), View(), cs[i]);
        RunCommand(cs[i]);
        done := done + t;
      }
    }

    // -------------------------------------------- recovery and start

    /** R1 to R3's selection: the processed set, the rebuilt queue, the gap. */
    method RebuildFromStores(now: int, w: Write) returns (gap: seq<RawFact>)
      requires Valid() && Numbered(View().disk.facts)
      modifies this`ledger, this`trace, persistence, ingestPolicy
      ensures Ran(LoadAndRebuild(Cfg(), old(View()), now, w))
      ensures gap == GapFacts(old(View()).disk.facts, old(lastIngestedSeq))
      ensures lastIngestedSeq == old(lastIngestedSeq) && lifecycle == old(lifecycle)
    {
      hide View, Rebuild, EventIds, AcceptedFactIds, Unaccepted, GapFacts, Numbered;
      var rawLog, acceptedLog, deferredIds := LoadStores();
      MarkAll(acceptedLog);
      Await();
      var live := Unaccepted(deferredIds, AcceptedFactIds(acceptedLog));
      if |live| != |deferredIds| { SaveLiveIds(live, w); }
      Await();
      Repark(rawLog, live, now);
      Await();
      gap := GapFacts(rawLog, lastIngestedSeq);
    }

    /** R1: the three logs; reading sorts the facts, which changes nothing. */
    method LoadStores() returns (rawLog: seq<RawFact>, acceptedLog: seq<AcceptedEvent>, deferredIds: seq<string>)
      requires Numbered(View().disk.facts)
      ensures rawLog == View().disk.facts && acceptedLog == View().disk.accepted && deferredIds == View().disk.deferred
    {
      SortedLog(persistence.DiskOf(groupId).facts);
      rawLog := persistence.LoadFacts(groupId);
      acceptedLog := persistence.LoadAcceptedEvents(groupId);
      deferredIds := persistence.LoadDeferredIds(groupId);
    }

    method SaveLiveIds(live: seq<string>, w: Write)
      modifies persistence
      ensures View() == if w.GaveUp? then old(View()) else old(View()).(disk := old(View()).disk.(deferred := live))
    {
      if !w.GaveUp? { var _ := persistence.SaveDeferredIds(groupId, live); }
    }

    method MarkAll(log: seq<AcceptedEvent>)
      modifies ingestPolicy
      ensures View() == old(View()).(mem := old(View()).mem.(processed := old(View()).mem.processed + EventIds(log)))
    {
      for i := 0 to |log|
        invariant View() == old(View()).(mem := old(View()).mem.(processed := old(View()).mem.processed + EventIds(log[..i])))
      {
        ingestPolicy.MarkProcessed(log[i].id);
        assert EventIds(log[..i + 1]) == EventIds(log[..i]) + {log[i].id} by {
          assert log[..i + 1] == log[..i] + [log[i]];
          assert HasEvent(log[..i + 1], log[i].id) by { assert log[..i + 1][i].id == log[i].id; }
          forall x | HasEvent(log[..i], x) ensures HasEvent(log[..i + 1], x) {
            var j :| 0 <= j < i && log[..i][j].id == x;
            assert log[..i + 1][j].id == x;
          }
        }
      }
      assert log[..|log|] == log;
    }

    method Repark(rawLog: seq<RawFact>, ids: seq<string>, now: int)
      requires Valid() && rawLog == View().disk.facts
      modifies ingestPolicy, this`ledger
      ensures View() == Rebuild(old(View()), ids, options.maxDeferredSize, now)
    {
      hide View, FindFact, Park, Evicted;
      ghost var s0 := View();
      for i := 0 to |ids|
        invariant rawLog == View().disk.facts
        invariant Rebuild(s0, ids, options.maxDeferredSize, now) == Rebuild(View(), ids[i..], options.maxDeferredSize, now)
      {
        assert ids[i..][0] == ids[i] && ids[i..][1..] == ids[i + 1..];
        var fact := FindFact(rawLog, ids[i]);
        if fact.Some? { var _ := ParkFact(fact.value, Unreadable, now); }
      }
    }

    /** R3: each answer to the resubmission goes through the ordinary handlers. */
    method Resubmit(replay: seq<Delivery>)
      requires Valid() && forall d :: d in replay ==> Plausible(d)
      modifies this, persistence, ingestPolicy
      ensures Ran(DrainSignals(Cfg(), old(View()), replay))
    {
      hide View, ProcessSignal;
      ghost var s0, before, done := View(), trace, [];
      for i := 0 to |replay|
        invariant Valid() && trace == before + done && View() == End(s0, done)
        invariant DrainSignals(Cfg(), s0, replay) == done + DrainSignals(Cfg(), View(), replay[i..])
      {
        assert replay[i..][0] == replay[i] && replay[i..][1..] == replay[i + 1..];
        ghost var t := ProcessSignal(Cfg(), View(), replay[i], []);
        ProcessOne(replay[i], []);
        done := done + t;
      }
    }

    /** The cells a recovering start takes over, or resets when there is no checkpoint. */
    method Adopt(checkpoint: Option<Checkpoint>)
      requires View().mem == FRESH_MEMORY
      modifies this`lastIngestedSeq, this`lastEpoch, this`lastAcceptedDomainEventId, this`bootstrapCompleted
      ensures View() == old(View()).(mem := RecoveredMemory(RouteFor(checkpoint)))
      ensures lastIngestedSeq == if checkpoint.Some? then checkpoint.value.lastIngestedSeq else 0
    {
      if checkpoint.Some? {
        lastIngestedSeq, lastEpoch := checkpoint.value.lastIngestedSeq, checkpoint.value.lastEpoch;
        lastAcceptedDomainEventId := checkpoint.value.lastAcceptedDomainEventId;
      }
      bootstrapCompleted := true;
    }

    /** R1 to R4, after the transition to recovering. */
    method Recover(ses: Session) returns (gap: seq<RawFact>)
      requires Valid() && Numbered(View().disk.facts)
      requires forall d :: d in ses.replay ==> Plausible(d)
      modifies this, persistence, ingestPolicy
      ensures gap == GapFacts(old(View()).disk.facts, old(lastIngestedSeq))
      ensures Ran(Recovery(Cfg(), old(View()), if gap == [] then ses.(replay := []) else ses))
    {
      hide View, LoadAndRebuild, DrainSignals, GapFacts;
      ghost var s := View();
      gap := RebuildFromStores(ses.now, ses.afterPrune);
      ghost var t1, s1 := LoadAndRebuild(Cfg(), s, ses.now, ses.afterPrune), View();
      ghost var replay := if gap == [] then [] else ses.replay;
      if |gap| > 0 { Resubmit(ses.replay); }
      assert trace == old(trace) + t1 + DrainSignals(Cfg(), s1, replay) by { NoReplay(Cfg(), s1); }
      assert View() == End(s1, DrainSignals(Cfg(), s1, replay)) by { NoReplay(Cfg(), s1); }
      TransitionTo(CatchingUp);
    }

    /** enterRecovering. */
    method EnterRecovering(checkpoint: Option<Checkpoint>, ses: Session) returns (gap: seq<RawFact>)
      requires Valid() && View().mem == FRESH_MEMORY && Numbered(View().disk.facts)
      requires forall d :: d in ses.replay ==> Plausible(d)
      modifies this, persistence, ingestPolicy
      ensures gap == GapFacts(old(View()).disk.facts, if checkpoint.Some? then checkpoint.value.lastIngestedSeq else 0)
      ensures var s := Transition(old(View()).(mem := RecoveredMemory(RouteFor(checkpoint))), Recovering);
              Ran([s] + Recovery(Cfg(), s, if gap == [] then ses.(replay := []) else ses))
    {
      hide View, Recovery, RecoveredMemory, GapFacts, Numbered, RouteFor;
      Adopt(checkpoint);
      TransitionTo(Recovering);
      gap := Recover(ses);
    }

    /** start({origin: "restored"}), from an engine that has not run yet. */
    method Start(ses: Session) returns (gap: seq<RawFact>)
      requires Valid() && View().mem == FRESH_MEMORY && View().out == [] && Numbered(View().disk.facts)
      requires forall d :: d in ses.replay ==> Plausible(d)
      modifies this, persistence, ingestPolicy
      ensures var s := old(View());
              Ran(StartTrace(Cfg(), s.disk, s.ledger, if gap == [] then ses.(replay := []) else ses)) &&
              gap == match RouteOf(s.disk)
                     case Join => []
                     case Recover(c) => GapFacts(s.disk.facts, c.lastIngestedSeq)
                     case PreserveAndReplay => GapFacts(s.disk.facts, 0)
    {
      hide View, Recovery, GapFacts, Numbered;
      ghost var s := View();
      gap := [];
      var loaded := LoadCheckpoint();
      var rawLog, acceptedLog, _ := LoadStores();
      if loaded.Some? && loaded.value.bootstrapCompleted {
        gap := EnterRecovering(loaded, ses);
      } else if loaded.Some? || (|rawLog| == 0 && |acceptedLog| == 0) {
        TransitionTo(Joining);
      } else {
        gap := EnterRecovering(None, ses);
      }
    }

    method LoadCheckpoint() returns (r: Option<Checkpoint>)
      ensures r == View().disk.checkpoint
    {
      r := persistence.LoadCheckpoint(groupId);
    }
  }

  function RouteFor(checkpoint: Option<Checkpoint>): (r: Route)
    ensures !r.Join?
  {
    if checkpoint.Some? then Route.Recover(checkpoint.value) else PreserveAndReplay
  }

  lemma NoReplay(cfg: Config, s: State)
    requires ValidOptions(cfg.options)
    ensures DrainSignals(cfg, s, []) == []
  {
  }

  lemma SortedLog(log: seq<RawFact>)
    requires Numbered(log)
    ensures SortBySeq(log) == log
  {
    GapIsSuffix(log, 0);
  }

  predicate TurnsAgain(cfg: Config, s: State, p: Pass, entered: bool) {
    var s1 := End(s, Iteration(cfg, s, p, entered));
    s1.mem.pendingRetry && |s1.mem.queue| > 0
  }

  function Turn(cfg: Config, s: State, p: Pass, entered: bool): (r: seq<State>)
    ensures |r| > 0
  {
    var t := Iteration(cfg, s, p, entered);
    var s2 := Unlatched(End(s, t));
    t + [s2] + if !TurnsAgain(cfg, s, p, entered) && (entered || EntersIn(cfg, s, p)) then [Transition(s2, Live)] else []
  }

  lemma RetryLoopUnrolls(cfg: Config, s: State, passes: seq<Pass>, i: nat, entered: bool)
    requires ValidOptions(cfg.options) && i < |passes|
    ensures var t := Turn(cfg, s, passes[i], entered);
            RetryLoop(cfg, s, passes[i..], entered) ==
            t + if TurnsAgain(cfg, s, passes[i], entered)
                then RetryLoop(cfg, End(s, t), passes[i + 1..], entered || EntersIn(cfg, s, passes[i])) else []
  {
    hide Iteration, EntersIn, Unlatched, Transition;
    assert passes[i..][1..] == passes[i + 1..];
  }

  lemma NoStates(s: State)
    ensures End(s, []) == s
  {
  }

  lemma RetryLoopEnds(cfg: Config, s: State, entered: bool)
    requires ValidOptions(cfg.options)
    ensures RetryLoop(cfg, s, [], entered) == []
  {
  }

  lemma RetryKeepsLifecycle(cfg: Config, s: State, d: Delivery)
    ensures End(s, OnRetrySignal(cfg, s, d)).mem.lifecycle == s.mem.lifecycle
  {
    hide AppendFact, AppendEvent, SeqOf, Unpark, Without, Ids;
  }

  lemma {:induction false} FreshWhenNoneAged(q: seq<Parked>, now: int, ageSec: int)
    ensures |Expired(q, now, ageSec)| == 0 ==> Fresh(q, now, ageSec) == q
  {
    if |q| > 0 { FreshWhenNoneAged(q[1..], now, ageSec); }
  }
}
