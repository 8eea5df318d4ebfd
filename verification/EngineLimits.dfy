/** Where the no-loss argument stops: the assumptions of EngineHistory cannot be
    dropped, and by exactly how much each of them is needed. */

module EngineLimits {
  import opened TaskDomain
  import opened EngineTypes
  import opened EventLog
  import opened DeferredQueue
  import opened EngineSpec
  import opened EngineSafety
  import opened EngineRuns
  import opened EngineHistory

  /** Nothing is known about `id`: never decoded, no verdict, not parked. */
  predicate Unknown(s: State, id: string) {
    id !in s.ledger.terminal && id !in s.disk.deferred && !Holds(s.mem.queue, id) &&
    forall p :: p in s.ledger.decoded ==> p.0 != id
  }

  lemma UncoveredIsUnknown(cfg: Config, s: State, upto: nat, id: string)
    requires Inv(cfg, s, upto, true)
    ensures Covered(s.disk, s.ledger, id) <==> !Unknown(s, id)
  {
    IdsOf(s.mem.queue);
    if p :| p in s.ledger.decoded && p.0 == id { assert HasEvent(s.disk.accepted, p.1); }
  }

  /** Handling one fact says nothing about another. */
  lemma UnknownStays(cfg: Config, s: State, d: Delivery, id: string)
    requires ValidOptions(cfg.options) && UniqueIds(s.mem.queue) && |s.mem.queue| <= cfg.options.maxDeferredSize
    requires AllLanded(d) && !d.signal.EpochAdvanced? && id != d.signal.fact.id && Unknown(s, id)
    ensures Unknown(End(s, ProcessSignal(cfg, s, d, [])), id)
  {
    UnparkMembers(s.mem.queue, d.signal.fact.id);
    match d.signal
    case Message(_, _, _, _, _) => MessageUnknown(cfg, s, d, id);
    case Deferred(_, _) => ParkUnknown(cfg, s, d, id);
    case Skipped(_) => VerdictUnknown(s, d, id);
    case Malformed(_) => VerdictUnknown(s, d, id);
  }

  lemma MessageUnknown(cfg: Config, s: State, d: Delivery, id: string)
    requires d.signal.Message? && AllLanded(d) && id != d.signal.fact.id && Unknown(s, id)
    requires !Holds(Unpark(s.mem.queue, d.signal.fact.id), id)
    ensures Unknown(End(s, OnMessage(cfg, s, d)), id)
  {
    HoldsMember(Unpark(s.mem.queue, d.signal.fact.id), id);
    hide AppendFact, AppendEvent, SeqOf, Holds, Unpark, Ids, Acceptance;
    var s2 := Emit(PutFact(s, d.signal.fact), EnvelopeReceived(d.signal.fact.id));
    AcceptanceUnknown(s2, EventOf(cfg, d.signal, d.now), d, id);
  }

  lemma AcceptanceUnknown(s: State, e: AcceptedEvent, d: Delivery, id: string)
    requires d.second.Landed? && d.third.Landed? && id != e.factId && Unknown(s, id)
    requires !Holds(Unpark(s.mem.queue, e.factId), id) && id !in Ids(Unpark(s.mem.queue, e.factId))
    ensures Unknown(End(s, Acceptance(s, e, d)), id)
  {
    hide AppendEvent, SeqOf, Holds, Unpark, Ids;
  }

  lemma VerdictUnknown(s: State, d: Delivery, id: string)
    requires (d.signal.Skipped? || d.signal.Malformed?) && AllLanded(d) && id != d.signal.fact.id && Unknown(s, id)
    requires !Holds(Unpark(s.mem.queue, d.signal.fact.id), id)
    ensures Unknown(End(s, if d.signal.Skipped? then OnSkipped(s, d) else OnMalformed(s, d)), id)
  {
    HoldsMember(Unpark(s.mem.queue, d.signal.fact.id), id);
    hide AppendFact, SeqOf, Holds, Unpark, Ids;
  }

  lemma ParkUnknown(cfg: Config, s: State, d: Delivery, id: string)
    requires ValidOptions(cfg.options) && UniqueIds(s.mem.queue) && |s.mem.queue| <= cfg.options.maxDeferredSize
    requires AllLanded(d) && d.signal.Deferred? && id != d.signal.fact.id && Unknown(s, id)
    ensures Unknown(End(s, OnDeferred(cfg, s, d)), id)
  {
    hide AppendFact, SeqOf, FindFact, UniqueIds;
    var r := End(s, OnDeferred(cfg, s, d));
    HoldsMember(r.mem.queue, id);
    if !Holds(s.mem.queue, d.signal.fact.id) {
      var stored := FindFact(AppendFact(s.disk.facts, d.signal.fact), d.signal.fact.id);
      var fact := if stored.Some? then stored.value else RawFact(0, d.signal.fact);
      var e := Parked(d.signal.fact.id, fact, d.signal.reason, d.now, 0);
      StrangerStaysOut(s.mem.queue, e, cfg.options.maxDeferredSize, id);
    }
  }

  lemma StrangerStaysOut(q: seq<Parked>, e: Parked, cap: nat, id: string)
    requires UniqueIds(q) && |q| <= cap && cap > 0 && !Holds(q, e.factId) && !Holds(q, id) && id != e.factId
    ensures !Holds(Park(q, e, cap), id) && id !in Evicted(q, e, cap)
  {
    ParkKeeps(q, e, cap);
    HoldsMember(q, id);
    HoldsMember(Park(q, e, cap), id);
    forall x | x in Evicted(q, e, cap) ensures x != id {
      var i :| 0 <= i < |q| + 1 - cap && (q + [e])[i].factId == x;
      assert i < |q|;
    }
  }

  // ------------------------------------------------ out-of-turn resubmission

  /** The number the log gives the signal's fact. */
  function SlotOf(s: State, d: Delivery): (r: nat)
    requires !d.signal.EpochAdvanced?
  {
    SeqOf(AppendFact(s.disk.facts, d.signal.fact), d.signal.fact.id)
  }

  /** The fact of a signal may as well have been stored before. */
  lemma StoredFirst(cfg: Config, s: State, d: Delivery)
    requires ValidOptions(cfg.options) && AllLanded(d) && !d.signal.EpochAdvanced?
    ensures ProcessSignal(cfg, PutFact(s, d.signal.fact), d, []) == ProcessSignal(cfg, s, d, [])
    ensures SlotOf(PutFact(s, d.signal.fact), d) == SlotOf(s, d)
  {
    AppendTwice(s.disk.facts, d.signal.fact);
    hide SeqOf, FindFact, AppendFact, AppendEvent, Holds, Unpark, Park, Ids;
    assert PutFact(PutFact(s, d.signal.fact), d.signal.fact) == PutFact(s, d.signal.fact);
  }

  lemma AppendTwice(log: seq<RawFact>, fact: FactInput)
    ensures AppendFact(AppendFact(log, fact), fact) == AppendFact(log, fact)
  {
    if !HasFact(log, fact.id) { assert AppendFact(log, fact)[|log|].id == fact.id; }
  }

  predicate CoveredFrom(s: State, from: nat, to: nat) {
    forall i :: from <= i < to && i < |s.disk.facts| ==> Covered(s.disk, s.ledger, s.disk.facts[i].id)
  }

  lemma CoverMore(cfg: Config, s: State, from: nat, to: nat)
    requires Inv(cfg, s, from, true) && from <= to <= |s.disk.facts| && CoveredFrom(s, from, to)
    ensures Inv(cfg, s, to, true)
  {
    IdsOf(s.mem.queue);
    forall k | from <= k < to
      ensures Concluded(s.disk.accepted, s.ledger, s.disk.facts[k].id) || Holds(s.mem.queue, s.disk.facts[k].id)
    {
      assert Covered(s.disk, s.ledger, s.disk.facts[k].id);
    }
  }

  /** A landed signal ends with the watermark at its fact or beyond. */
  lemma WatermarkReaches(cfg: Config, s: State, d: Delivery)
    requires ValidOptions(cfg.options) && AllLanded(d) && !d.signal.EpochAdvanced?
    ensures End(s, ProcessSignal(cfg, s, d, [])).mem.lastIngestedSeq >= SlotOf(s, d)
    ensures |ProcessSignal(cfg, s, d, [])| > 0
  {
    hide SeqOf, FindFact, AppendFact, AppendEvent, Holds, Unpark, Park, Ids;
  }

  /** When a fact is handled before the facts stored in front of it, the watermark
      jumps over them: the state stays safe exactly when each of those was
      covered already. This is how much the order of R3's replies matters. */
  lemma OutOfTurnIsSafeExactly(cfg: Config, s: State, d: Delivery, upto: nat)
    requires ValidOptions(cfg.options) && Inv(cfg, s, upto, true) && AllLanded(d) && !d.signal.EpochAdvanced?
    requires upto < SlotOf(s, d)
    ensures var r := End(s, ProcessSignal(cfg, s, d, []));
            NothingLost(r.disk, r.ledger, r.mem.lastIngestedSeq) <==> CoveredFrom(s, upto, SlotOf(s, d) - 1)
  {
    hide ProcessSignal, Covered, Inv, SlotOf, NothingLost, Unknown;
    if CoveredFrom(s, upto, SlotOf(s, d) - 1) {
      CoveredIsSafe(cfg, s, d, upto);
    } else {
      var i :| upto <= i < SlotOf(s, d) - 1 && i < |s.disk.facts| && !Covered(s.disk, s.ledger, s.disk.facts[i].id);
      UncoveredIsLost(cfg, s, d, upto, i);
    }
  }

  lemma CoveredIsSafe(cfg: Config, s: State, d: Delivery, upto: nat)
    requires ValidOptions(cfg.options) && Inv(cfg, s, upto, true) && AllLanded(d) && !d.signal.EpochAdvanced?
    requires upto < SlotOf(s, d) && CoveredFrom(s, upto, SlotOf(s, d) - 1)
    ensures var r := End(s, ProcessSignal(cfg, s, d, []));
            NothingLost(r.disk, r.ledger, r.mem.lastIngestedSeq)
  {
    assert |AppendFact(s.disk.facts, d.signal.fact)| <= |s.disk.facts| + 1;
    hide ProcessSignal, Covered, Inv, SeqOf, AppendFact, NothingLost, Numbered, HasFact;
    var s1 := PutFact(s, d.signal.fact);
    PutFactInv(cfg, s, d.signal.fact, upto, true);
    StoredPosition(cfg, s1, d, upto);
    StoredFirst(cfg, s, d);
    AppendTwice(s.disk.facts, d.signal.fact);
    forall i | upto <= i < SlotOf(s, d) - 1 ensures Covered(s1.disk, s1.ledger, s1.disk.facts[i].id) {
      CoveredAfterStoring(s, d.signal.fact, i);
    }
    WatermarkReaches(cfg, s1, d);
    InOrderIsSafe(cfg, s1, d, upto);
  }

  lemma UncoveredIsLost(cfg: Config, s: State, d: Delivery, upto: nat, i: nat)
    requires ValidOptions(cfg.options) && Inv(cfg, s, upto, true) && AllLanded(d) && !d.signal.EpochAdvanced?
    requires i < |s.disk.facts| && i + 1 < SlotOf(s, d) && !Covered(s.disk, s.ledger, s.disk.facts[i].id)
    ensures var r := End(s, ProcessSignal(cfg, s, d, []));
            !NothingLost(r.disk, r.ledger, r.mem.lastIngestedSeq)
  {
    hide ProcessSignal, Covered, Inv, SeqOf, AppendFact, NothingLost, Numbered, HasFact, Unknown;
    var s1 := PutFact(s, d.signal.fact);
    PutFactInv(cfg, s, d.signal.fact, upto, true);
    StoredFirst(cfg, s, d);
    AppendTwice(s.disk.facts, d.signal.fact);
    UncoveredIsUnknown(cfg, s, upto, s.disk.facts[i].id);
    SameKnowledge(s, s1, s.disk.facts[i].id);
    assert s1.disk.facts[i] == s.disk.facts[i];
    WatermarkReaches(cfg, s1, d);
    OvertakenIsLost(cfg, s1, d, upto, i);
  }

  lemma StoredPosition(cfg: Config, s: State, d: Delivery, upto: nat)
    requires Inv(cfg, s, upto, true) && !d.signal.EpochAdvanced? && HasFact(s.disk.facts, d.signal.fact.id)
    ensures SlotOf(s, d) <= |s.disk.facts|
  {
    FactPosition(s, d.signal.fact.id);
  }

  lemma InOrderIsSafe(cfg: Config, s: State, d: Delivery, upto: nat)
    requires ValidOptions(cfg.options) && Inv(cfg, s, upto, true) && AllLanded(d) && !d.signal.EpochAdvanced?
    requires AppendFact(s.disk.facts, d.signal.fact) == s.disk.facts
    requires upto < SlotOf(s, d) <= |s.disk.facts| && CoveredFrom(s, upto, SlotOf(s, d) - 1)
    ensures var r := End(s, ProcessSignal(cfg, s, d, []));
            NothingLost(r.disk, r.ledger, r.mem.lastIngestedSeq)
  {
    CoverMore(cfg, s, upto, SlotOf(s, d) - 1);
    WatermarkReaches(cfg, s, d);
    hide ProcessSignal, Inv, SeqOf, AppendFact;
    SignalInv(cfg, s, d, SlotOf(s, d) - 1, true);
    assert Safe(cfg, End(s, ProcessSignal(cfg, s, d, [])));
  }

  lemma OvertakenIsLost(cfg: Config, s: State, d: Delivery, upto: nat, i: nat)
    requires ValidOptions(cfg.options) && Inv(cfg, s, upto, true) && AllLanded(d) && !d.signal.EpochAdvanced?
    requires AppendFact(s.disk.facts, d.signal.fact) == s.disk.facts && HasFact(s.disk.facts, d.signal.fact.id)
    requires i < |s.disk.facts| && i + 1 < SlotOf(s, d) && Unknown(s, s.disk.facts[i].id)
    ensures var r := End(s, ProcessSignal(cfg, s, d, []));
            !NothingLost(r.disk, r.ledger, r.mem.lastIngestedSeq)
  {
    QueueIsSmall(cfg, s, upto, true);
    DifferentSlot(s, d.signal.fact.id, i);
    WatermarkReaches(cfg, s, d);
    SignalFacts(cfg, s, d);
    hide ProcessSignal, Inv, SeqOf, AppendFact, Covered, Unknown;
    var r := End(s, ProcessSignal(cfg, s, d, []));
    UnknownStays(cfg, s, d, s.disk.facts[i].id);
    UnknownIsUncovered(r, s.disk.facts[i].id);
    assert r.disk.facts[i].id == s.disk.facts[i].id;
  }

  lemma UnknownIsUncovered(s: State, id: string)
    requires Unknown(s, id)
    ensures !Covered(s.disk, s.ledger, id)
  {
  }

  lemma SameKnowledge(a: State, b: State, id: string)
    requires Unknown(a, id) && b.ledger == a.ledger && b.disk.deferred == a.disk.deferred && b.mem.queue == a.mem.queue
    ensures Unknown(b, id)
  {
  }

  lemma QueueIsSmall(cfg: Config, s: State, upto: nat, agree: bool)
    requires Inv(cfg, s, upto, agree)
    ensures UniqueIds(s.mem.queue) && |s.mem.queue| <= cfg.options.maxDeferredSize
    ensures Numbered(s.disk.facts)
  {
  }

  lemma CoveredAfterStoring(s: State, fact: FactInput, i: nat)
    requires i < |s.disk.facts| && s.disk.facts <= PutFact(s, fact).disk.facts
    requires Covered(s.disk, s.ledger, s.disk.facts[i].id)
    ensures Covered(PutFact(s, fact).disk, s.ledger, PutFact(s, fact).disk.facts[i].id)
  {
    hide AppendFact;
  }

  lemma DifferentSlot(s: State, id: string, i: nat)
    requires Numbered(s.disk.facts) && HasFact(s.disk.facts, id) && i < |s.disk.facts| && i + 1 < SeqOf(s.disk.facts, id)
    ensures s.disk.facts[i].id != id
  {
    FactPosition(s, id);
  }

  // ------------------------------------------------ a write that gives up

  /** A message whose accepted-log write runs out of retries is skipped by the
      watermark as soon as the next fact succeeds: nothing is lost then exactly
      when the write had in truth landed. */
  lemma GivenUpMessageIsLostExactly(cfg: Config, s: State, d: Delivery, next: Delivery)
    requires ValidOptions(cfg.options) && Steady(cfg, s, true) && d.signal.Message?
    requires d.first.Landed? && d.third.Landed? && AllLanded(next) && !next.signal.EpochAdvanced?
    requires !HasFact(s.disk.facts, d.signal.fact.id) && Unknown(s, d.signal.fact.id)
    requires !HasFact(s.disk.facts, next.signal.fact.id) && next.signal.fact.id != d.signal.fact.id
    requires EventOf(cfg, d.signal, d.now).id !in s.mem.processed
    ensures var r1 := End(s, ProcessSignal(cfg, s, d, []));
            var r2 := End(r1, ProcessSignal(cfg, r1, next, []));
            NothingLost(r2.disk, r2.ledger, r2.mem.lastIngestedSeq) <==> !d.second.GaveUp?
  {
    hide Inv, Covered, Unknown, NothingLost, ProcessSignal, HasFact;
    if d.second.Landed? {
      DeliverInv(cfg, s, d, true);
      hide Fine;
      SteadyAfter(cfg, s, d);
      ThenSafe(cfg, End(s, ProcessSignal(cfg, s, d, [])), next);
    } else if d.second.HalfLanded? {
      HalfLandedIsSteady(cfg, s, d);
      ThenSafe(cfg, End(s, ProcessSignal(cfg, s, d, [])), next);
    } else {
      GaveUpIsPassed(cfg, s, d, next);
    }
  }

  lemma SteadyAfter(cfg: Config, s: State, d: Delivery)
    requires ValidOptions(cfg.options) && Fine(cfg, s, ProcessSignal(cfg, s, d, []), true)
    ensures Steady(cfg, End(s, ProcessSignal(cfg, s, d, [])), true)
  {
    hide ProcessSignal;
  }

  /** What is left of a message whose accept call failed: the fact, and perhaps the event. */
  lemma UnacceptedMessage(cfg: Config, s: State, d: Delivery)
    requires ValidOptions(cfg.options) && d.signal.Message? && d.first.Landed? && !d.second.Landed?
    requires EventOf(cfg, d.signal, d.now).id !in s.mem.processed
    ensures var s2 := Emit(PutFact(s, d.signal.fact), EnvelopeReceived(d.signal.fact.id));
            End(s, ProcessSignal(cfg, s, d, [])) ==
            GaveUpOn(if d.second.GaveUp? then s2 else PutEvent(s2, EventOf(cfg, d.signal, d.now)), d.signal.fact.id)
  {
    hide AppendFact, AppendEvent;
  }

  lemma HalfLandedIsSteady(cfg: Config, s: State, d: Delivery)
    requires ValidOptions(cfg.options) && Steady(cfg, s, true) && d.signal.Message? && d.first.Landed? && d.second.HalfLanded?
    requires !HasFact(s.disk.facts, d.signal.fact.id) && EventOf(cfg, d.signal, d.now).id !in s.mem.processed
    ensures Steady(cfg, End(s, ProcessSignal(cfg, s, d, [])), true)
  {
    var n := |s.disk.facts|;
    var id := d.signal.fact.id;
    var e := EventOf(cfg, d.signal, d.now);
    FreshFact(s, d.signal.fact);
    UnacceptedMessage(cfg, s, d);
    hide Inv, Covered, Concluded, AppendFact, AppendEvent, ProcessSignal;
    var s1 := PutFact(s, d.signal.fact);
    var s2 := Emit(s1, EnvelopeReceived(id));
    PutFactInv(cfg, s, d.signal.fact, n, true);
    InvSame(cfg, s1, s2, n, true);
    PutEventInv(cfg, s2, e, n, true);
    var r := GaveUpOn(PutEvent(s2, e), id);
    InvSame(cfg, PutEvent(s2, e), r, n, true);
    ConcludedIsCovered(r, id);
    CoverMore(cfg, r, n, n + 1);
  }

  lemma FreshFact(s: State, fact: FactInput)
    requires !HasFact(s.disk.facts, fact.id)
    ensures var log := PutFact(s, fact).disk.facts; |log| == |s.disk.facts| + 1 && log[|s.disk.facts|].id == fact.id
  {
  }

  lemma GaveUpIsPassed(cfg: Config, s: State, d: Delivery, next: Delivery)
    requires ValidOptions(cfg.options) && Steady(cfg, s, true) && d.signal.Message? && d.first.Landed? && d.second.GaveUp?
    requires AllLanded(next) && !next.signal.EpochAdvanced?
    requires !HasFact(s.disk.facts, d.signal.fact.id) && Unknown(s, d.signal.fact.id)
    requires !HasFact(s.disk.facts, next.signal.fact.id) && next.signal.fact.id != d.signal.fact.id
    requires EventOf(cfg, d.signal, d.now).id !in s.mem.processed
    ensures var r1 := End(s, ProcessSignal(cfg, s, d, []));
            var r2 := End(r1, ProcessSignal(cfg, r1, next, []));
            !NothingLost(r2.disk, r2.ledger, r2.mem.lastIngestedSeq)
  {
    var n := |s.disk.facts|;
    var id := d.signal.fact.id;
    var s1 := PutFact(s, d.signal.fact);
    FreshFact(s, d.signal.fact);
    UnacceptedMessage(cfg, s, d);
    AppendKeepsNumbering(s.disk.facts, d.signal.fact);
    FreshPosition(s1.disk.facts, next.signal.fact);
    PutFactInv(cfg, s, d.signal.fact, n, true);
    hide Inv, Covered, Unknown, NothingLost, AppendFact, ProcessSignal, HasFact, SeqOf;
    var r1 := GaveUpOn(Emit(s1, EnvelopeReceived(id)), id);
    InvSame(cfg, s1, r1, n, true);
    SameKnowledge(s, r1, id);
    UnknownIsUncovered(r1, id);
    UncoveredIsLost(cfg, r1, next, n, n);
  }

  lemma ConcludedIsCovered(s: State, id: string)
    requires Concluded(s.disk.accepted, s.ledger, id)
    ensures Covered(s.disk, s.ledger, id)
  {
  }

  lemma ThenSafe(cfg: Config, s: State, d: Delivery)
    requires ValidOptions(cfg.options) && Steady(cfg, s, true) && AllLanded(d) && !d.signal.EpochAdvanced?
    ensures var r := End(s, ProcessSignal(cfg, s, d, []));
            NothingLost(r.disk, r.ledger, r.mem.lastIngestedSeq)
  {
    hide ProcessSignal, Inv;
    DeliverInv(cfg, s, d, true);
    var r := End(s, ProcessSignal(cfg, s, d, []));
    InvIsSafe(cfg, r, |r.disk.facts|, true);
  }

  // ------------------------------------------------ a joining restart

  /** One joining session on a disk that already holds facts: it parks one new
      fact, completes its bootstrap and crashes. */
  function JoinThenPark(fact: FactInput, reason: DeferredReason, now: int): (r: Session) {
    Session(now, Landed, [],
            [Deliver(Delivery(Deferred(fact, reason), now, Landed, Landed, Landed), []), BootstrapResolved])
  }

  /** Such a session forgets what the earlier one had only parked or not yet
      worked on: the next start skips every stored fact, and one of them
      survives exactly when it was concluded before the restart. */
  lemma JoinForgetsExactly(cfg: Config, d: Disk, l: Ledger, fact: FactInput, reason: DeferredReason, now: int, k: nat)
    requires ValidOptions(cfg.options) && DiskOk(cfg, d, l) && RouteOf(d).Join?
    requires !HasFact(d.facts, fact.id) && k < |d.facts|
    ensures var t := SessionTrace(cfg, d, l, JoinThenPark(fact, reason, now));
            var r := t[|t| - 1];
            |t| > 0 && Watermark(r.disk) == |d.facts| + 1 &&
            (Covered(r.disk, r.ledger, d.facts[k].id) <==> Concluded(d.accepted, l, d.facts[k].id))
  {
    var s := StartState(d, l);
    var dl := Delivery(Deferred(fact, reason), now, Landed, Landed, Landed);
    FreshPosition(d.facts, fact);
    assert d.facts[k].id != fact.id;
    ParkAlone(cfg, s, dl);
    hide OnDeferred, SeqOf, AppendFact, HasFact, Numbered, DiskOk, Concluded;
    var s1 := End(s, OnDeferred(cfg, s, dl));
    TwoCommands(cfg, s, dl);
    assert s1.disk.deferred == [fact.id] && s1.ledger == l && s1.mem.lastIngestedSeq == |d.facts| + 1;
  }

  /** Parking into an empty queue leaves exactly that id in the store. */
  lemma ParkAlone(cfg: Config, s: State, d: Delivery)
    requires ValidOptions(cfg.options) && d.signal.Deferred? && AllLanded(d) && s.mem.queue == []
    ensures var r := End(s, OnDeferred(cfg, s, d));
            r.disk.deferred == [d.signal.fact.id] && r.ledger == s.ledger && r.disk.accepted == s.disk.accepted &&
            r.mem.lastIngestedSeq == if SlotOf(s, d) > s.mem.lastIngestedSeq then SlotOf(s, d) else s.mem.lastIngestedSeq
  {
    hide SeqOf, AppendFact, HasFact;
    assert !Holds([], d.signal.fact.id);
    assert s.ledger.terminal + {} == s.ledger.terminal;
    assert forall e: Parked :: Ids([e]) == [e.factId];
    assert forall e: Parked :: [] + [e] == [e];
  }

  lemma TwoCommands(cfg: Config, s: State, dl: Delivery)
    requires ValidOptions(cfg.options) && dl.signal.Deferred?
    ensures var s1 := End(s, OnDeferred(cfg, s, dl));
            OnCommands(cfg, s, [Deliver(dl, []), BootstrapResolved]) ==
            OnDeferred(cfg, s, dl) + [SaveCheckpoint(s1.(mem := s1.mem.(bootstrapCompleted := true)))]
  {
    hide OnDeferred;
    var s1 := End(s, OnDeferred(cfg, s, dl));
    assert [Deliver(dl, []), BootstrapResolved][1..] == [BootstrapResolved];
    assert [BootstrapResolved][1..] == [];
    assert OnCommands(cfg, s1, [BootstrapResolved]) == [SaveCheckpoint(s1.(mem := s1.mem.(bootstrapCompleted := true)))];
  }
}
