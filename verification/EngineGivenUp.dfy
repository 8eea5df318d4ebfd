/** What a persistence call that gives up costs, for every kind of signal and every
    outcome of its calls (src/engine/receive-engine.ts:520-525, 717-925). */

module EngineGivenUp {
  import opened Wrappers
  import opened TaskDomain
  import opened EngineTypes
  import opened EventLog
  import opened DeferredQueue
  import opened EngineSpec
  import opened EngineSafety
  import opened EngineRuns
  import opened EngineLimits

  /** After the signal its fact is stored, and nothing durable says what is to
      become of it: the append landed but its call gave up, or the accept write
      or the save of the parked ids gave up without landing. */
  predicate Leaves(cfg: Config, s: State, d: Delivery) {
    d.first.HalfLanded? ||
    (d.first.Landed? && d.second.GaveUp? &&
     (d.signal.Deferred? || (d.signal.Message? && EventOf(cfg, d.signal, d.now).id !in s.mem.processed)))
  }

  /** The signal has the ids of the whole queue written: a fact is parked anew, or
      a parked one leaves. */
  predicate Rewrites(cfg: Config, s: State, d: Delivery)
    requires !d.signal.EpochAdvanced?
  {
    match d.signal
    case Message(_, _, _, _, _) => Holds(s.mem.queue, d.signal.fact.id) && EventOf(cfg, d.signal, d.now).id !in s.mem.processed
    case Deferred(_, _) => !Holds(s.mem.queue, d.signal.fact.id)
    case Skipped(_) => false
    case Malformed(_) => Holds(s.mem.queue, d.signal.fact.id)
  }

  /** The signal settles `id` itself, or, if `id` is queued, has the queue written. */
  predicate Rescues(cfg: Config, s: State, id: string, d: Delivery)
    requires !d.signal.EpochAdvanced?
  {
    (d.signal.fact.id == id && !(d.signal.Deferred? && Holds(s.mem.queue, id))) ||
    (Holds(s.mem.queue, id) && Rewrites(cfg, s, d))
  }

  function Handled(cfg: Config, s: State, d: Delivery): (r: State)
    requires ValidOptions(cfg.options)
  {
    End(s, ProcessSignal(cfg, s, d, []))
  }

  // ------------------------------------------------ the stored list beside the rest

  /** What a landed signal does depends on the stored list nowhere but in that list. */
  lemma Beside(cfg: Config, a: State, b: State, d: Delivery)
    requires ValidOptions(cfg.options) && AllLanded(d) && !d.signal.EpochAdvanced?
    requires b == a.(disk := a.disk.(deferred := b.disk.deferred))
    ensures if Rewrites(cfg, a, d) then Handled(cfg, b, d) == Handled(cfg, a, d)
            else Handled(cfg, a, d).disk.deferred == a.disk.deferred &&
                 Handled(cfg, b, d) == Handled(cfg, a, d).(disk := Handled(cfg, a, d).disk.(deferred := b.disk.deferred))
  {
    hide AppendFact, AppendEvent, SeqOf, FindFact, Holds, Park, Evicted, Unpark, Without, Ids;
    match d.signal
    case Message(_, _, _, _, _) => MessageBeside(cfg, a, b, d);
    case _ =>
  }

  lemma MessageBeside(cfg: Config, a: State, b: State, d: Delivery)
    requires d.signal.Message? && AllLanded(d) && b == a.(disk := a.disk.(deferred := b.disk.deferred))
    ensures var ra, rb := End(a, OnMessage(cfg, a, d)), End(b, OnMessage(cfg, b, d));
            if Rewrites(cfg, a, d) then rb == ra
            else ra.disk.deferred == a.disk.deferred && rb == ra.(disk := ra.disk.(deferred := b.disk.deferred))
  {
    hide AppendFact, AppendEvent, SeqOf, Holds, Unpark, Without, Ids;
  }

  lemma WatermarkIs(cfg: Config, s: State, d: Delivery)
    requires ValidOptions(cfg.options) && AllLanded(d) && !d.signal.EpochAdvanced?
    ensures Handled(cfg, s, d).mem.lastIngestedSeq ==
            if SlotOf(s, d) > s.mem.lastIngestedSeq then SlotOf(s, d) else s.mem.lastIngestedSeq
  {
    hide AppendFact, AppendEvent, SeqOf, FindFact, Holds, Park, Evicted, Unpark, Without, Ids;
  }

  predicate Undecided(l: Ledger, id: string) {
    id !in l.terminal && forall p :: p in l.decoded ==> p.0 != id
  }

  /** A signal that does not have the queue written concludes its own fact, unless
      it only meets it again in the queue, and no other. */
  lemma ConcludesItsOwn(cfg: Config, s: State, d: Delivery, id: string)
    requires ValidOptions(cfg.options) && AllLanded(d) && !d.signal.EpochAdvanced? && !Rewrites(cfg, s, d)
    requires Undecided(s.ledger, id) && forall x :: x in s.mem.processed ==> HasEvent(s.disk.accepted, x)
    ensures var r := Handled(cfg, s, d);
            Concluded(r.disk.accepted, r.ledger, id) <==> d.signal.fact.id == id && !d.signal.Deferred?
  {
    var r := Handled(cfg, s, d);
    match d.signal
    case Message(_, _, _, _, _) => MessageConcludes(cfg, s, d, id);
    case Deferred(_, _) =>
      hide AppendFact, SeqOf, FindFact, Holds;
      assert r.ledger == s.ledger;
    case Skipped(_) => VerdictConcludes(cfg, s, d);
    case Malformed(_) => VerdictConcludes(cfg, s, d);
  }

  lemma VerdictConcludes(cfg: Config, s: State, d: Delivery)
    requires ValidOptions(cfg.options) && AllLanded(d) && (d.signal.Skipped? || d.signal.Malformed?) && !Rewrites(cfg, s, d)
    ensures Handled(cfg, s, d).ledger == s.ledger.(terminal := s.ledger.terminal + {d.signal.fact.id})
  {
    hide AppendFact, SeqOf, Holds;
  }

  lemma MessageConcludes(cfg: Config, s: State, d: Delivery, id: string)
    requires ValidOptions(cfg.options) && AllLanded(d) && d.signal.Message? && !Rewrites(cfg, s, d)
    requires Undecided(s.ledger, id) && forall x :: x in s.mem.processed ==> HasEvent(s.disk.accepted, x)
    ensures var r := Handled(cfg, s, d);
            Concluded(r.disk.accepted, r.ledger, id) <==> d.signal.fact.id == id
  {
    var r := Handled(cfg, s, d);
    var e := EventOf(cfg, d.signal, d.now);
    MessageLedger(cfg, s, d);
    AppendedIsThere(s.disk.accepted, e);
    assert (d.signal.fact.id, e.id) in r.ledger.decoded;
    hide ProcessSignal, AppendEvent;
  }

  lemma MessageLedger(cfg: Config, s: State, d: Delivery)
    requires ValidOptions(cfg.options) && AllLanded(d) && d.signal.Message? && !Rewrites(cfg, s, d)
    ensures var r := Handled(cfg, s, d);
            var e := EventOf(cfg, d.signal, d.now);
            r.ledger == s.ledger.(decoded := s.ledger.decoded + {(d.signal.fact.id, e.id)}) &&
            r.disk.accepted == if e.id in s.mem.processed then s.disk.accepted else AppendEvent(s.disk.accepted, e)
  {
    hide AppendFact, AppendEvent, SeqOf, Holds;
  }

  lemma AppendedIsThere(log: seq<AcceptedEvent>, e: AcceptedEvent)
    ensures HasEvent(AppendEvent(log, e), e.id)
  {
    if !HasEvent(log, e.id) { assert AppendEvent(log, e)[|log|].id == e.id; }
  }

  // ------------------------------------------------ parked in memory only

  /** A new unreadable fact: the state with its id parked, before the save. */
  function ParkedNow(cfg: Config, s: State, d: Delivery): (r: State)
    requires ValidOptions(cfg.options) && d.signal.Deferred?
  {
    var id := d.signal.fact.id;
    var s2 := Emit(PutFact(s, d.signal.fact), EnvelopeReceived(id));
    var stored := FindFact(s2.disk.facts, id);
    ParkIn(s2, cfg.options.maxDeferredSize,
           Parked(id, if stored.Some? then stored.value else RawFact(0, d.signal.fact), d.signal.reason, d.now, 0))
  }

  lemma DeferredShape(cfg: Config, s: State, d: Delivery)
    requires ValidOptions(cfg.options) && d.signal.Deferred? && d.first.Landed? && !Holds(s.mem.queue, d.signal.fact.id)
    ensures var s3 := ParkedNow(cfg, s, d);
            var note := EnvelopeDeferred(d.signal.fact.id, d.signal.reason);
            (d.second.GaveUp? ==> Handled(cfg, s, d) == Emit(s3, note)) &&
            (d.second.HalfLanded? ==> Handled(cfg, s, d) == Emit(SaveDeferred(s3, Landed), note))
  {
    hide AppendFact, SeqOf, FindFact, Holds, Park, Evicted, Ids;
  }

  /** Had the save landed, all would be well. */
  lemma SavedIsSteady(cfg: Config, s: State, d: Delivery)
    requires ValidOptions(cfg.options) && Steady(cfg, s, true) && d.signal.Deferred?
    requires !HasFact(s.disk.facts, d.signal.fact.id) && !Holds(s.mem.queue, d.signal.fact.id)
    ensures var id := d.signal.fact.id;
            var r := Emit(SaveDeferred(ParkedNow(cfg, s, d), Landed), EnvelopeDeferred(id, d.signal.reason));
            Steady(cfg, r, true) && Holds(r.mem.queue, id) && r.disk.facts == PutFact(s, d.signal.fact).disk.facts
  {
    var id, n := d.signal.fact.id, |s.disk.facts|;
    var s1 := PutFact(s, d.signal.fact);
    var s2 := Emit(s1, EnvelopeReceived(id));
    var stored := FindFact(s2.disk.facts, id);
    var e := Parked(id, if stored.Some? then stored.value else RawFact(0, d.signal.fact), d.signal.reason, d.now, 0);
    FreshFact(s, d.signal.fact);
    PutFactInv(cfg, s, d.signal.fact, n, true);
    InvSame(cfg, s1, s2, n, true);
    ParkInv(cfg, s2, e, n, true);
    var s4 := SaveDeferred(ParkedNow(cfg, s, d), Landed);
    var r := Emit(s4, EnvelopeDeferred(id, d.signal.reason));
    hide AppendFact, FindFact, HasFact, Park, Evicted;
    InvSame(cfg, s4, r, n, true);
    QueueIsSmall(cfg, r, n, true);
    IdsOf(r.mem.queue);
    hide Inv;
    assert CoveredFrom(r, n, n + 1) by { assert r.disk.facts[n].id == id; }
    CoverMore(cfg, r, n, n + 1);
  }

  /** Of the queue, only the new id is not in the stored list; of the facts, only the new one is undecided so. */
  lemma OnlyTheNewOne(cfg: Config, s: State, d: Delivery)
    requires ValidOptions(cfg.options) && Steady(cfg, s, true) && d.signal.Deferred?
    requires !Holds(s.mem.queue, d.signal.fact.id) && Undecided(s.ledger, d.signal.fact.id)
    ensures var r := ParkedNow(cfg, s, d);
            (forall x :: x in Ids(r.mem.queue) ==> x == d.signal.fact.id || x in s.disk.deferred) &&
            Undecided(r.ledger, d.signal.fact.id)
  {
    var id := d.signal.fact.id;
    var stored := FindFact(PutFact(s, d.signal.fact).disk.facts, id);
    var e := Parked(id, if stored.Some? then stored.value else RawFact(0, d.signal.fact), d.signal.reason, d.now, 0);
    SteadyMeans(cfg, s);
    QueueIsSmall(cfg, s, |s.disk.facts|, true);
    hide Steady, Park, Evicted, Holds, UniqueIds, Ids, FindFact, AppendFact;
    ParkAddsOne(s.mem.queue, e, cfg.options.maxDeferredSize);
  }

  lemma ParkAddsOne(q: seq<Parked>, e: Parked, cap: nat)
    requires UniqueIds(q) && |q| <= cap && cap > 0 && !Holds(q, e.factId)
    ensures forall x :: x in Ids(Park(q, e, cap)) ==> x == e.factId || x in Ids(q)
    ensures e.factId !in Evicted(q, e, cap)
  {
    var r := Park(q, e, cap);
    ParkKeeps(q, e, cap);
    forall x | x in Ids(r) ensures x == e.factId || x in Ids(q) {
      var i :| 0 <= i < |r| && Ids(r)[i] == x;
      assert r[i] in r;
      if r[i] != e { var j :| 0 <= j < |q| && q[j] == r[i]; assert Ids(q)[j] == x; }
    }
    forall x | x in Evicted(q, e, cap) ensures x != e.factId {
      var i :| 0 <= i < |q| + 1 - cap && (q + [e])[i].factId == x;
      assert i < |q|;
    }
  }

  lemma ParkedOnlyExactly(cfg: Config, s: State, d: Delivery, next: Delivery)
    requires ValidOptions(cfg.options) && Steady(cfg, s, true) && AllLanded(next) && !next.signal.EpochAdvanced?
    requires d.signal.Deferred? && d.first.Landed? && d.second.GaveUp?
    requires !HasFact(s.disk.facts, d.signal.fact.id) && Unknown(s, d.signal.fact.id)
    ensures var r1 := Handled(cfg, s, d);
            var r2 := Handled(cfg, r1, next);
            NothingLost(r2.disk, r2.ledger, r2.mem.lastIngestedSeq) <==>
            HasFact(s.disk.facts, next.signal.fact.id) || Rescues(cfg, r1, d.signal.fact.id, next)
  {
    var id := d.signal.fact.id;
    var note := EnvelopeDeferred(id, d.signal.reason);
    var r1 := Handled(cfg, s, d);
    var saved := Emit(SaveDeferred(ParkedNow(cfg, s, d), Landed), note);
    DeferredShape(cfg, s, d);
    SavedIsSteady(cfg, s, d);
    OnlyTheNewOne(cfg, s, d);
    ParkedNowKeeps(cfg, s, d);
    SteadyMeans(cfg, saved);
    ThenSafe(cfg, saved, next);
    Beside(cfg, saved, r1, next);
    if !Rewrites(cfg, saved, next) {
      hide ParkedNow, ProcessSignal, Steady, Rewrites, HasFact;
      ConcludesItsOwn(cfg, saved, next, id);
      NotWritten(cfg, s, saved, r1, next, id);
    }
  }

  lemma ParkedNowKeeps(cfg: Config, s: State, d: Delivery)
    requires ValidOptions(cfg.options) && d.signal.Deferred?
    ensures var r := ParkedNow(cfg, s, d);
            r.disk == s.disk.(facts := AppendFact(s.disk.facts, d.signal.fact)) && r.mem == s.mem.(queue := r.mem.queue)
  {
    hide AppendFact, Park, Evicted;
  }

  lemma SteadyMeans(cfg: Config, s: State)
    requires Steady(cfg, s, true)
    ensures Numbered(s.disk.facts) && s.mem.lastIngestedSeq <= |s.disk.facts| && s.disk.deferred == Ids(s.mem.queue)
    ensures forall x :: x in s.mem.processed ==> HasEvent(s.disk.accepted, x)
  {
  }

  /** The list stays as it was: everything but the new fact is covered as it would have been. */
  lemma NotWritten(cfg: Config, s: State, saved: State, r1: State, next: Delivery, id: string)
    requires ValidOptions(cfg.options) && AllLanded(next) && !next.signal.EpochAdvanced? && Numbered(saved.disk.facts)
    requires !HasFact(s.disk.facts, id) && s.mem.lastIngestedSeq <= |s.disk.facts| == |saved.disk.facts| - 1
    requires saved.disk.facts[|s.disk.facts|].id == id && saved.mem.lastIngestedSeq == s.mem.lastIngestedSeq
    requires s.disk.facts == saved.disk.facts[..|s.disk.facts|]
    requires forall x :: x in saved.disk.deferred ==> x == id || x in s.disk.deferred
    requires id !in s.disk.deferred
    requires var a, b := Handled(cfg, saved, next), Handled(cfg, r1, next);
             a.disk.deferred == saved.disk.deferred && b == a.(disk := a.disk.(deferred := s.disk.deferred)) &&
             NothingLost(a.disk, a.ledger, a.mem.lastIngestedSeq)
    ensures var b := Handled(cfg, r1, next);
            NothingLost(b.disk, b.ledger, b.mem.lastIngestedSeq) <==>
            HasFact(s.disk.facts, next.signal.fact.id) || Concluded(b.disk.accepted, b.ledger, id)
  {
    var n := |s.disk.facts|;
    var a, b := Handled(cfg, saved, next), Handled(cfg, r1, next);
    WatermarkIs(cfg, saved, next);
    SignalFacts(cfg, saved, next);
    SlotAgainstLog(s, saved, next);
    assert a.disk.facts[..n + 1] == saved.disk.facts;
    assert a.disk.facts[n].id == id;
    forall k | 0 <= k < a.mem.lastIngestedSeq && k != n ensures a.disk.facts[k].id != id {
      assert Numbered(a.disk.facts) by { AppendKeepsNumbering(saved.disk.facts, next.signal.fact); }
    }
    hide ProcessSignal, AppendFact, Numbered, Concluded, HasFact;
  }

  lemma SlotAgainstLog(s: State, saved: State, next: Delivery)
    requires Numbered(saved.disk.facts) && |s.disk.facts| == |saved.disk.facts| - 1 && !next.signal.EpochAdvanced?
    requires s.disk.facts == saved.disk.facts[..|s.disk.facts|]
    ensures SlotOf(saved, next) <= |s.disk.facts| <==> HasFact(s.disk.facts, next.signal.fact.id)
  {
    var id, n := next.signal.fact.id, |s.disk.facts|;
    var t := PutFact(saved, next.signal.fact);
    AppendKeepsNumbering(saved.disk.facts, next.signal.fact);
    if HasFact(s.disk.facts, id) {
      var k :| 0 <= k < n && s.disk.facts[k].id == id;
      assert saved.disk.facts[k].id == id;
    }
    FactPosition(t, id);
    if SlotOf(saved, next) <= n {
      var k := SlotOf(saved, next) - 1;
      assert t.disk.facts[k] == saved.disk.facts[k] == s.disk.facts[k];
    }
  }

  // ------------------------------------------------ stored, and nothing more

  lemma StoredOnlyExactly(cfg: Config, s: State, r1: State, fact: FactInput, next: Delivery)
    requires ValidOptions(cfg.options) && Steady(cfg, s, true) && AllLanded(next) && !next.signal.EpochAdvanced?
    requires !HasFact(s.disk.facts, fact.id) && Unknown(s, fact.id)
    requires r1.disk == PutFact(s, fact).disk && r1.mem == s.mem && r1.ledger == s.ledger
    ensures var r2 := Handled(cfg, r1, next);
            NothingLost(r2.disk, r2.ledger, r2.mem.lastIngestedSeq) <==>
            HasFact(s.disk.facts, next.signal.fact.id) || next.signal.fact.id == fact.id
  {
    var n := |s.disk.facts|;
    FreshFact(s, fact);
    PutFactInv(cfg, s, fact, n, true);
    InvSame(cfg, PutFact(s, fact), r1, n, true);
    AppendKeepsNumbering(s.disk.facts, fact);
    SlotOfKnown(cfg, r1, next, n);
    if HasFact(r1.disk.facts, next.signal.fact.id) {
      hide ProcessSignal, Inv, AppendFact, HasFact;
      SignalInv(cfg, r1, next, n, true);
      assert Safe(cfg, Handled(cfg, r1, next));
    } else {
      UnknownIsUncovered(r1, fact.id);
      hide ProcessSignal, Inv, AppendFact, HasFact, NothingLost, Covered;
      UncoveredIsLost(cfg, r1, next, n, n);
    }
  }

  lemma SlotOfKnown(cfg: Config, s: State, next: Delivery, n: nat)
    requires Inv(cfg, s, n, true) && |s.disk.facts| == n + 1 && !next.signal.EpochAdvanced?
    ensures if HasFact(s.disk.facts, next.signal.fact.id) then InTurn(s, next, n) else SlotOf(s, next) == n + 2
  {
    if HasFact(s.disk.facts, next.signal.fact.id) {
      FactPosition(s, next.signal.fact.id);
    } else {
      FreshPosition(s.disk.facts, next.signal.fact);
    }
  }

  // ------------------------------------------------ every outcome

  function Spared(d: Delivery): (r: Delivery) {
    d.(first := Landed, second := Landed, third := Landed)
  }

  /** Writes that a signal of a new fact does not make cannot fail. */
  lemma UnmadeWrites(cfg: Config, s: State, d: Delivery)
    requires ValidOptions(cfg.options) && !d.signal.EpochAdvanced? && d.first.Landed? && !Holds(s.mem.queue, d.signal.fact.id)
    requires d.second.Landed? || d.signal.Skipped? || d.signal.Malformed? ||
             (d.signal.Message? && EventOf(cfg, d.signal, d.now).id in s.mem.processed)
    ensures Handled(cfg, s, d) == Handled(cfg, s, Spared(d))
  {
    hide AppendFact, AppendEvent, SeqOf, FindFact, Holds, Park, Evicted, Ids;
  }

  lemma SteadyUnlessLeft(cfg: Config, s: State, d: Delivery)
    requires ValidOptions(cfg.options) && Steady(cfg, s, true) && !d.signal.EpochAdvanced? && !Leaves(cfg, s, d)
    requires !HasFact(s.disk.facts, d.signal.fact.id) && Unknown(s, d.signal.fact.id)
    ensures Steady(cfg, Handled(cfg, s, d), true)
  {
    if d.first.GaveUp? {
      NothingDone(cfg, s, d);
      InvSame(cfg, s, Handled(cfg, s, d), |s.disk.facts|, true);
    } else if d.second.HalfLanded? && d.signal.Deferred? {
      DeferredShape(cfg, s, d);
      SavedIsSteady(cfg, s, d);
    } else if d.second.HalfLanded? && d.signal.Message? && EventOf(cfg, d.signal, d.now).id !in s.mem.processed {
      HalfLandedIsSteady(cfg, s, d);
    } else {
      UnmadeWrites(cfg, s, d);
      hide Steady, ProcessSignal;
      DeliverInv(cfg, s, Spared(d), true);
      SteadyAfter(cfg, s, Spared(d));
    }
  }

  lemma NothingDone(cfg: Config, s: State, d: Delivery)
    requires ValidOptions(cfg.options) && !d.signal.EpochAdvanced? && d.first.GaveUp?
    ensures Handled(cfg, s, d) == GaveUpOn(s, d.signal.fact.id)
  {
  }

  lemma StoredOnly(cfg: Config, s: State, d: Delivery)
    requires ValidOptions(cfg.options) && !d.signal.EpochAdvanced? && Leaves(cfg, s, d) && (d.first.HalfLanded? || d.signal.Message?)
    ensures var r1 := Handled(cfg, s, d);
            r1.disk == PutFact(s, d.signal.fact).disk && r1.mem == s.mem && r1.ledger == s.ledger
  {
    hide AppendFact;
  }

  /** What giving up costs, for every signal of a new fact, every outcome of its
      calls, and every landed signal that follows it: nothing is lost if and only
      if the signal left its fact decided, or the next one is of an old fact (the
      watermark does not pass then), or it settles the fact or has the queue that
      holds it written. */
  lemma GivenUpIsLostExactly(cfg: Config, s: State, d: Delivery, next: Delivery)
    requires ValidOptions(cfg.options) && Steady(cfg, s, true) && !d.signal.EpochAdvanced?
    requires !HasFact(s.disk.facts, d.signal.fact.id) && Unknown(s, d.signal.fact.id)
    requires AllLanded(next) && !next.signal.EpochAdvanced?
    ensures var r1 := Handled(cfg, s, d);
            var r2 := Handled(cfg, r1, next);
            NothingLost(r2.disk, r2.ledger, r2.mem.lastIngestedSeq) <==>
            !Leaves(cfg, s, d) || HasFact(s.disk.facts, next.signal.fact.id) || Rescues(cfg, r1, d.signal.fact.id, next)
  {
    var r1 := Handled(cfg, s, d);
    if !Leaves(cfg, s, d) {
      SteadyUnlessLeft(cfg, s, d);
      hide Steady, NothingLost;
      ThenSafe(cfg, r1, next);
    } else if d.first.HalfLanded? || d.signal.Message? {
      StoredOnly(cfg, s, d);
      assert !Holds(r1.mem.queue, d.signal.fact.id);
      hide Steady, NothingLost, HasFact, Unknown;
      StoredOnlyExactly(cfg, s, r1, d.signal.fact, next);
    } else {
      hide Steady, NothingLost, HasFact, Unknown;
      ParkedOnlyExactly(cfg, s, d, next);
    }
  }

  // ------------------------------------------------ two inputs

  const FRESH := State(EMPTY_DISK, FRESH_MEMORY, [], Ledger({}, {}, {}))

  /** On an empty disk the save of the first parked fact gives up. The fact comes
      again: it is found in the queue, the watermark passes it, and it is lost;
      or the next fact is skipped, with the same result. */
  lemma RedeliveryLoses(cfg: Config, fact: FactInput, other: FactInput, reason: DeferredReason, now: int)
    requires ValidOptions(cfg.options) && fact.id != other.id
    ensures var r1 := Handled(cfg, FRESH, Delivery(Deferred(fact, reason), now, Landed, GaveUp, Landed));
            var again := Handled(cfg, r1, Delivery(Deferred(fact, reason), now, Landed, Landed, Landed));
            var skipped := Handled(cfg, r1, Delivery(Skipped(other), now, Landed, Landed, Landed));
            !NothingLost(again.disk, again.ledger, again.mem.lastIngestedSeq) &&
            !NothingLost(skipped.disk, skipped.ledger, skipped.mem.lastIngestedSeq)
  {
    var d := Delivery(Deferred(fact, reason), now, Landed, GaveUp, Landed);
    FreshIsSteady(cfg, fact.id);
    QueuedHandled(cfg, FRESH, d);
    hide ProcessSignal, Steady, NothingLost, Unknown, Holds, HasFact;
    GivenUpIsLostExactly(cfg, FRESH, d, Delivery(Deferred(fact, reason), now, Landed, Landed, Landed));
    GivenUpIsLostExactly(cfg, FRESH, d, Delivery(Skipped(other), now, Landed, Landed, Landed));
  }

  lemma QueuedHandled(cfg: Config, s: State, d: Delivery)
    requires ValidOptions(cfg.options) && Steady(cfg, s, true) && d.signal.Deferred? && d.first.Landed? && d.second.GaveUp?
    requires !HasFact(s.disk.facts, d.signal.fact.id) && !Holds(s.mem.queue, d.signal.fact.id)
    ensures Holds(Handled(cfg, s, d).mem.queue, d.signal.fact.id)
  {
    DeferredShape(cfg, s, d);
    SavedIsSteady(cfg, s, d);
    hide ProcessSignal, Steady, ParkedNow;
  }

  lemma FreshIsSteady(cfg: Config, id: string)
    requires ValidOptions(cfg.options)
    ensures Steady(cfg, FRESH, true) && Unknown(FRESH, id) && forall x :: !HasFact(FRESH.disk.facts, x)
  {
  }

  // ------------------------------------------------ a joining restart

  predicate Tidy(cfg: Config, s: State) {
    UniqueIds(s.mem.queue) && |s.mem.queue| <= cfg.options.maxDeferredSize &&
    (forall p :: p in s.ledger.decoded ==> HasEvent(s.disk.accepted, p.1)) &&
    (forall x :: x in s.mem.processed ==> HasEvent(s.disk.accepted, x))
  }

  /** A landed signal of another fact decides nothing about one that is not queued;
      it drops that one from the stored list exactly if it has the queue written. */
  lemma Foreign(cfg: Config, s: State, d: Delivery, id: string)
    requires ValidOptions(cfg.options) && Tidy(cfg, s) && AllLanded(d) && !d.signal.EpochAdvanced?
    requires d.signal.fact.id != id && !Holds(s.mem.queue, id)
    ensures var r := Handled(cfg, s, d);
            Tidy(cfg, r) && !Holds(r.mem.queue, id) &&
            (Concluded(r.disk.accepted, r.ledger, id) <==> Concluded(s.disk.accepted, s.ledger, id)) &&
            (id in r.disk.deferred <==> id in s.disk.deferred && !Rewrites(cfg, s, d))
  {
    UnparkMembers(s.mem.queue, d.signal.fact.id);
    FilterUnique(s.mem.queue, Other(d.signal.fact.id));
    match d.signal
    case Message(_, _, _, _, _) => ForeignMessage(cfg, s, d, id);
    case Deferred(_, _) => ForeignPark(cfg, s, d, id);
    case Skipped(_) => ForeignVerdict(cfg, s, d, id);
    case Malformed(_) => ForeignVerdict(cfg, s, d, id);
  }

  /** What is known about `id` is the same: nothing about it is recorded or withdrawn. */
  lemma SameVerdict(a: State, b: State, id: string)
    requires id in a.ledger.terminal <==> id in b.ledger.terminal
    requires forall p: (string, string) :: p.0 == id ==> (p in a.ledger.decoded <==> p in b.ledger.decoded)
    requires forall p :: p in a.ledger.decoded ==> HasEvent(a.disk.accepted, p.1)
    requires forall p :: p in b.ledger.decoded ==> HasEvent(b.disk.accepted, p.1)
    ensures Concluded(a.disk.accepted, a.ledger, id) <==> Concluded(b.disk.accepted, b.ledger, id)
  {
    if p :| p in a.ledger.decoded && p.0 == id { assert p in b.ledger.decoded; }
    if p :| p in b.ledger.decoded && p.0 == id { assert p in a.ledger.decoded; }
  }

  lemma MessageShape(cfg: Config, s: State, d: Delivery)
    requires ValidOptions(cfg.options) && AllLanded(d) && d.signal.Message?
    ensures var r := Handled(cfg, s, d);
            var e := EventOf(cfg, d.signal, d.now);
            r.ledger == s.ledger.(decoded := s.ledger.decoded + {(d.signal.fact.id, e.id)}) &&
            r.disk.accepted == (if e.id in s.mem.processed then s.disk.accepted else AppendEvent(s.disk.accepted, e)) &&
            r.mem.processed == (if e.id in s.mem.processed then s.mem.processed else s.mem.processed + {e.id}) &&
            r.mem.queue == (if Rewrites(cfg, s, d) then Unpark(s.mem.queue, d.signal.fact.id) else s.mem.queue) &&
            r.disk.deferred == if Rewrites(cfg, s, d) then Ids(r.mem.queue) else s.disk.deferred
  {
    hide AppendFact, AppendEvent, SeqOf, Holds, Unpark, Without, Ids;
  }

  lemma AppendedKeeps(log: seq<AcceptedEvent>, e: AcceptedEvent)
    ensures forall x :: HasEvent(log, x) ==> HasEvent(AppendEvent(log, e), x)
    ensures HasEvent(AppendEvent(log, e), e.id)
  {
    AppendedIsThere(log, e);
    forall x | HasEvent(log, x) ensures HasEvent(AppendEvent(log, e), x) {
      var i :| 0 <= i < |log| && log[i].id == x;
      assert AppendEvent(log, e)[i].id == x;
    }
  }

  lemma ForeignMessage(cfg: Config, s: State, d: Delivery, id: string)
    requires ValidOptions(cfg.options) && Tidy(cfg, s) && AllLanded(d) && d.signal.Message?
    requires d.signal.fact.id != id && !Holds(s.mem.queue, id)
    ensures var r := Handled(cfg, s, d);
            Tidy(cfg, r) && !Holds(r.mem.queue, id) &&
            (Concluded(r.disk.accepted, r.ledger, id) <==> Concluded(s.disk.accepted, s.ledger, id)) &&
            (id in r.disk.deferred <==> id in s.disk.deferred && !Rewrites(cfg, s, d))
  {
    var r := Handled(cfg, s, d);
    MessageShape(cfg, s, d);
    AppendedKeeps(s.disk.accepted, EventOf(cfg, d.signal, d.now));
    UnparkMembers(s.mem.queue, d.signal.fact.id);
    HoldsMember(r.mem.queue, id);
    hide ProcessSignal, AppendEvent, Unpark, Holds, Rewrites, HasEvent, UniqueIds, Concluded;
    assert |Unpark(s.mem.queue, d.signal.fact.id)| <= |s.mem.queue| by { UnparkShrinks(s.mem.queue, d.signal.fact.id); }
    SameVerdict(s, r, id);
  }

  lemma {:induction false} UnparkShrinks(q: seq<Parked>, id: string)
    ensures |Unpark(q, id)| <= |q|
  {
    if |q| > 0 { UnparkShrinks(q[1..], id); }
  }

  lemma ForeignVerdict(cfg: Config, s: State, d: Delivery, id: string)
    requires ValidOptions(cfg.options) && Tidy(cfg, s) && AllLanded(d) && (d.signal.Skipped? || d.signal.Malformed?)
    requires d.signal.fact.id != id && !Holds(s.mem.queue, id)
    ensures var r := Handled(cfg, s, d);
            Tidy(cfg, r) && !Holds(r.mem.queue, id) &&
            (Concluded(r.disk.accepted, r.ledger, id) <==> Concluded(s.disk.accepted, s.ledger, id)) &&
            (id in r.disk.deferred <==> id in s.disk.deferred && !Rewrites(cfg, s, d))
  {
    var r := Handled(cfg, s, d);
    UnparkMembers(s.mem.queue, d.signal.fact.id);
    UnparkShrinks(s.mem.queue, d.signal.fact.id);
    HoldsMember(r.mem.queue, id);
    VerdictShape(cfg, s, d);
    hide ProcessSignal, Unpark, Holds, Rewrites, HasEvent, UniqueIds, Concluded;
    SameVerdict(s, r, id);
  }

  lemma VerdictShape(cfg: Config, s: State, d: Delivery)
    requires ValidOptions(cfg.options) && AllLanded(d) && (d.signal.Skipped? || d.signal.Malformed?)
    ensures var r := Handled(cfg, s, d);
            r.ledger == s.ledger.(terminal := s.ledger.terminal + {d.signal.fact.id}) &&
            r.disk.accepted == s.disk.accepted && r.mem.processed == s.mem.processed &&
            r.mem.queue == (if Rewrites(cfg, s, d) then Unpark(s.mem.queue, d.signal.fact.id) else s.mem.queue) &&
            r.disk.deferred == if Rewrites(cfg, s, d) then Ids(r.mem.queue) else s.disk.deferred
  {
    hide AppendFact, SeqOf, Holds, Unpark, Ids;
  }

  lemma ForeignPark(cfg: Config, s: State, d: Delivery, id: string)
    requires ValidOptions(cfg.options) && Tidy(cfg, s) && AllLanded(d) && d.signal.Deferred?
    requires d.signal.fact.id != id && !Holds(s.mem.queue, id)
    ensures var r := Handled(cfg, s, d);
            Tidy(cfg, r) && !Holds(r.mem.queue, id) &&
            (Concluded(r.disk.accepted, r.ledger, id) <==> Concluded(s.disk.accepted, s.ledger, id)) &&
            (id in r.disk.deferred <==> id in s.disk.deferred && !Rewrites(cfg, s, d))
  {
    var r := Handled(cfg, s, d);
    var e := ParkShape(cfg, s, d);
    if Rewrites(cfg, s, d) {
      ParkKeeps(s.mem.queue, e, cfg.options.maxDeferredSize);
      StrangerStaysOut(s.mem.queue, e, cfg.options.maxDeferredSize, id);
      HoldsMember(r.mem.queue, id);
    }
    hide ProcessSignal, Park, Evicted, Holds, Rewrites, HasEvent, UniqueIds, Concluded;
    SameVerdict(s, r, id);
  }

  lemma ParkShape(cfg: Config, s: State, d: Delivery) returns (e: Parked)
    requires ValidOptions(cfg.options) && AllLanded(d) && d.signal.Deferred?
    ensures e.factId == d.signal.fact.id
    ensures var r := Handled(cfg, s, d);
            var cap := cfg.options.maxDeferredSize;
            r.disk.accepted == s.disk.accepted && r.mem.processed == s.mem.processed &&
            if Rewrites(cfg, s, d) then
              r.mem.queue == Park(s.mem.queue, e, cap) && r.disk.deferred == Ids(r.mem.queue) &&
              r.ledger == s.ledger.(terminal := s.ledger.terminal + Evicted(s.mem.queue, e, cap))
            else r.mem.queue == s.mem.queue && r.disk.deferred == s.disk.deferred && r.ledger == s.ledger
  {
    var stored := FindFact(AppendFact(s.disk.facts, d.signal.fact), d.signal.fact.id);
    e := Parked(d.signal.fact.id, if stored.Some? then stored.value else RawFact(0, d.signal.fact), d.signal.reason, d.now, 0);
    hide AppendFact, SeqOf, FindFact, Holds, Park, Evicted, Ids;
  }

  /** Some signal of the session has the queue written. */
  predicate EverRewrites(cfg: Config, s: State, ds: seq<Delivery>)
    requires ValidOptions(cfg.options) && forall d :: d in ds ==> !d.signal.EpochAdvanced?
    decreases ds
  {
    |ds| > 0 && (Rewrites(cfg, s, ds[0]) || EverRewrites(cfg, Handled(cfg, s, ds[0]), ds[1..]))
  }

  lemma {:induction false} ForeignSession(cfg: Config, s: State, ds: seq<Delivery>, id: string)
    requires ValidOptions(cfg.options) && Tidy(cfg, s) && !Holds(s.mem.queue, id)
    requires forall d :: d in ds ==> AllLanded(d) && !d.signal.EpochAdvanced? && d.signal.fact.id != id
    ensures var r := End(s, DrainSignals(cfg, s, ds));
            (Concluded(r.disk.accepted, r.ledger, id) <==> Concluded(s.disk.accepted, s.ledger, id)) &&
            (id in r.disk.deferred <==> id in s.disk.deferred && !EverRewrites(cfg, s, ds))
    decreases ds
  {
    if |ds| > 0 {
      Foreign(cfg, s, ds[0], id);
      hide Tidy, Holds, Rewrites, Concluded, ProcessSignal;
      var s1 := Handled(cfg, s, ds[0]);
      ForeignSession(cfg, s1, ds[1..], id);
      EndAppend(s, ProcessSignal(cfg, s, ds[0], []), DrainSignals(cfg, s1, ds[1..]));
    }
  }

  /** A joining start forgets the watermark and the queue. After any session of
      landed signals that does not meet a stored fact again, that fact is covered
      if and only if it was concluded before, or was parked and no signal of the
      session has had the queue written; once the watermark has passed it, it is
      lost otherwise. */
  lemma JoiningForgetsExactly(cfg: Config, d: Disk, l: Ledger, ds: seq<Delivery>, k: nat)
    requires ValidOptions(cfg.options) && DiskOk(cfg, d, l) && RouteOf(d).Join? && k < |d.facts|
    requires forall x :: x in ds ==> AllLanded(x) && !x.signal.EpochAdvanced? && x.signal.fact.id != d.facts[k].id
    ensures var s := StartState(d, l);
            var r := End(s, DrainSignals(cfg, s, ds));
            Covered(r.disk, r.ledger, d.facts[k].id) <==>
            Concluded(d.accepted, l, d.facts[k].id) || (d.facts[k].id in d.deferred && !EverRewrites(cfg, s, ds))
  {
    var s := StartState(d, l);
    assert Tidy(cfg, s) && !Holds(s.mem.queue, d.facts[k].id);
    hide Tidy, Holds, Concluded, DiskOk;
    ForeignSession(cfg, s, ds, d.facts[k].id);
  }
}
