/** From single handlers to whole runs: retry passes, sessions, and any number
    of sessions cut by crashes. */

module EngineRuns {
  import opened Wrappers
  import opened TaskDomain
  import opened EngineTypes
  import opened EventLog
  import opened DeferredQueue
  import opened EngineSpec
  import opened EngineSafety

  /** The invariant between handlers once no fact waits for resubmission. */
  predicate Steady(cfg: Config, s: State, agree: bool) {
    Inv(cfg, s, |s.disk.facts|, agree)
  }

  // ------------------------------------------------ the retry pass

  predicate KnownFact(facts: seq<RawFact>, d: Delivery) {
    d.signal.EpochAdvanced? || HasFact(facts, d.signal.fact.id)
  }

  lemma KnownStays(facts: seq<RawFact>, d: Delivery)
    requires Numbered(facts) && !d.signal.EpochAdvanced? && KnownFact(facts, d)
    ensures AppendFact(facts, d.signal.fact) == facts && SeqOf(facts, d.signal.fact.id) <= |facts|
  {
    var f := FindFact(facts, d.signal.fact.id).value;
    var k :| 0 <= k < |facts| && facts[k] == f;
  }

  /** A fact at or below the covered prefix is concluded or in the queue. */
  lemma KnownIsCovered(cfg: Config, s: State, id: string, agree: bool)
    requires Steady(cfg, s, agree) && HasFact(s.disk.facts, id)
    ensures Concluded(s.disk.accepted, s.ledger, id) || Holds(s.mem.queue, id)
    ensures SeqOf(s.disk.facts, id) <= |s.disk.facts|
  {
    FactPosition(s, id);
  }

  lemma LeaveQueueInv(cfg: Config, s: State, id: string, upto: nat, agree: bool)
    requires Inv(cfg, s, upto, agree) && Concluded(s.disk.accepted, s.ledger, id)
    ensures AllSafe(cfg, LeaveQueue(s, id, Landed)) && Climbs(s, LeaveQueue(s, id, Landed))
    ensures Inv(cfg, End(s, LeaveQueue(s, id, Landed)), upto, agree)
    ensures End(s, LeaveQueue(s, id, Landed)).disk.facts == s.disk.facts
  {
    hide Inv, Safe, Concluded;
    var s1 := WithQueue(s, Unpark(s.mem.queue, id));
    LeaveInv(cfg, s, id, upto, agree);
    InvIsSafe(cfg, s, upto, agree);
    SafeSame(cfg, s, s1);
    InvIsSafe(cfg, SaveDeferred(s1, Landed), upto, agree);
  }

  lemma RetryKnownEvent(cfg: Config, s: State, d: Delivery, agree: bool)
    requires Steady(cfg, s, agree) && d.signal.Message? && AllLanded(d) && KnownFact(s.disk.facts, d)
    requires EventOf(cfg, d.signal, d.now).id in s.mem.processed
    ensures Fine(cfg, s, OnRetryMessage(cfg, s, d), agree)
    ensures End(s, OnRetryMessage(cfg, s, d)).disk.facts == s.disk.facts
  {
    KnownStays(s.disk.facts, d);
    hide Inv, Safe, Concluded, HasFact, HasEvent, AppendFact, SeqOf, LeaveQueue, AllSafe, Climbs;
    var n := |s.disk.facts|;
    var id := d.signal.fact.id;
    var s1 := PutFact(s, d.signal.fact);
    var s2 := Emit(s1, EnvelopeReceived(id));
    var e := EventOf(cfg, d.signal, d.now);
    PutFactInv(cfg, s, d.signal.fact, n, agree);
    FineOne(cfg, s, s1, agree);
    InvSame(cfg, s1, s2, n, agree);
    ProcessedIsDurable(cfg, s1, e.id, n, agree);
    DecodeInv(cfg, s2, id, e.id, n, agree);
    var _ := AdvanceInv(cfg, Decode(s2, id, e.id), id, n, agree);
    var s3 := Advance(Decode(s2, id, e.id), SeqOf(s1.disk.facts, id));
    LeaveQueueInv(cfg, s3, id, n, agree);
    FineFrom(cfg, s1, s3, LeaveQueue(s3, id, Landed), agree);
    FineAppend(cfg, s, [s1], LeaveQueue(s3, id, Landed), agree);
  }

  lemma RetriedAcceptanceInv(cfg: Config, s: State, e: AcceptedEvent, d: Delivery, n: nat, agree: bool)
    requires Inv(cfg, s, n, agree) && HasFact(s.disk.facts, e.factId) && SeqOf(s.disk.facts, e.factId) <= n
    requires d.second.Landed? && d.third.Landed?
    ensures var t := RetriedAcceptance(s, e, d);
            AllSafe(cfg, t) && Climbs(s, t) && Inv(cfg, End(s, t), n, agree) && End(s, t).disk.facts == s.disk.facts
  {
    hide Inv, Safe, Concluded, HasFact, HasEvent, AppendEvent, Unpark, Without, SeqOf, Ids;
    var id := e.factId;
    var s1 := PutEvent(s, e);
    PutEventInv(cfg, s, e, n, agree);
    InvIsSafe(cfg, s1, n, agree);
    var s2 := DropDeferredId(s1, id);
    var gone := WithQueue(s2, Unpark(s2.mem.queue, id));
    LeaveInv(cfg, s1, id, n, agree);
    InvIsSafe(cfg, gone, n, agree);
    SafeSame(cfg, gone, s2);
    var _ := AdvanceInv(cfg, gone, id, n, agree);
    var s3 := Accept(Advance(gone, SeqOf(gone.disk.facts, id)), e);
    InvSame(cfg, Advance(gone, SeqOf(gone.disk.facts, id)), s3, n, agree);
    SaveInv(cfg, s3, n, agree);
    InvIsSafe(cfg, SaveDeferred(s3, Landed), n, agree);
    assert RetriedAcceptance(s, e, d) == [s1, s2, s3, SaveDeferred(s3, Landed)];
  }

  lemma RetryNewEvent(cfg: Config, s: State, d: Delivery, agree: bool)
    requires Steady(cfg, s, agree) && d.signal.Message? && AllLanded(d) && KnownFact(s.disk.facts, d)
    requires EventOf(cfg, d.signal, d.now).id !in s.mem.processed
    ensures Fine(cfg, s, OnRetryMessage(cfg, s, d), agree)
    ensures End(s, OnRetryMessage(cfg, s, d)).disk.facts == s.disk.facts
  {
    KnownStays(s.disk.facts, d);
    hide Inv, Safe, Concluded, HasFact, HasEvent, AppendFact, SeqOf, RetriedAcceptance, Climbs, AllSafe;
    var n := |s.disk.facts|;
    var s1 := PutFact(s, d.signal.fact);
    var s2 := Emit(s1, EnvelopeReceived(d.signal.fact.id));
    var e := EventOf(cfg, d.signal, d.now);
    PutFactInv(cfg, s, d.signal.fact, n, agree);
    InvIsSafe(cfg, s1, n, agree);
    InvSame(cfg, s1, s2, n, agree);
    TwoSafe(cfg, s, s1, s2);
    RetriedAcceptanceInv(cfg, s2, e, d, n, agree);
    SafeAppend(cfg, [s1, s2], RetriedAcceptance(s2, e, d));
    ClimbsAppend(s, [s1, s2], RetriedAcceptance(s2, e, d));
  }

  /** A trace that is safe everywhere and ends between handlers. */
  predicate Fine(cfg: Config, s: State, t: seq<State>, agree: bool) {
    AllSafe(cfg, t) && Climbs(s, t) && Steady(cfg, End(s, t), agree)
  }

  lemma FineAppend(cfg: Config, s: State, a: seq<State>, b: seq<State>, agree: bool)
    requires Fine(cfg, s, a, agree) && Fine(cfg, End(s, a), b, agree)
    ensures Fine(cfg, s, a + b, agree) && End(s, a + b) == End(End(s, a), b)
  {
    hide Safe, Inv;
    ClimbsAppend(s, a, b);
    SafeAppend(cfg, a, b);
  }

  lemma FineEmpty(cfg: Config, s: State, agree: bool)
    requires Steady(cfg, s, agree)
    ensures Fine(cfg, s, [], agree)
  {
  }

  lemma FineOne(cfg: Config, s: State, a: State, agree: bool)
    requires Steady(cfg, a, agree) && Grows(s, a)
    ensures Fine(cfg, s, [a], agree)
  {
    hide Inv, Safe;
    InvIsSafe(cfg, a, |a.disk.facts|, agree);
  }

  lemma FineTwo(cfg: Config, s: State, a: State, b: State, agree: bool)
    requires Safe(cfg, a) && Steady(cfg, b, agree)
    requires Grows(s, a) && Grows(a, b)
    ensures Fine(cfg, s, [a, b], agree)
  {
    hide Inv, Safe;
    InvIsSafe(cfg, b, |b.disk.facts|, agree);
    TwoSafe(cfg, s, a, b);
  }

  lemma RetryDeferred(cfg: Config, s: State, d: Delivery, agree: bool)
    requires Steady(cfg, s, agree) && AllLanded(d) && KnownFact(s.disk.facts, d) && d.signal.Deferred?
    ensures Fine(cfg, s, OnRetrySignal(cfg, s, d), agree)
    ensures End(s, OnRetrySignal(cfg, s, d)).disk.facts == s.disk.facts
  {
    KnownStays(s.disk.facts, d);
    KnownIsCovered(cfg, s, d.signal.fact.id, agree);
    hide Inv, Safe, Concluded, HasFact, AppendFact, SeqOf, Fine;
    var n := |s.disk.facts|;
    var id := d.signal.fact.id;
    var s1 := PutFact(s, d.signal.fact);
    PutFactInv(cfg, s, d.signal.fact, n, agree);
    FineOne(cfg, s, s1, agree);
    var _ := AdvanceInv(cfg, s1, id, n, agree);
    var s2 := Emit(Emit(Advance(s1, SeqOf(s1.disk.facts, id)), EnvelopeReceived(id)), EnvelopeDeferred(id, d.signal.reason));
    InvSame(cfg, Advance(s1, SeqOf(s1.disk.facts, id)), s2, n, agree);
    FineOne(cfg, s1, s2, agree);
    FineAppend(cfg, s, [s1], [s2], agree);
  }

  /** The verdicts of a retry pass: skipped and malformed. */
  lemma RetryVerdict(cfg: Config, s: State, d: Delivery, agree: bool)
    requires Steady(cfg, s, agree) && AllLanded(d) && KnownFact(s.disk.facts, d)
    requires d.signal.Skipped? || d.signal.Malformed?
    ensures Fine(cfg, s, OnRetrySignal(cfg, s, d), agree)
    ensures End(s, OnRetrySignal(cfg, s, d)).disk.facts == s.disk.facts
  {
    KnownStays(s.disk.facts, d);
    hide Inv, Safe, Concluded, HasFact, AppendFact, SeqOf, LeaveQueue, AllSafe, Climbs;
    var n := |s.disk.facts|;
    var id := d.signal.fact.id;
    var s1 := PutFact(s, d.signal.fact);
    PutFactInv(cfg, s, d.signal.fact, n, agree);
    FineOne(cfg, s, s1, agree);
    var r, _ := SettledAdvance(cfg, s1, id, n, agree);
    var s2 := Emit(Emit(r, EnvelopeReceived(id)), if d.signal.Skipped? then RatchetAdvanced else Rejected(id, ParseError));
    InvSame(cfg, r, s2, n, agree);
    LeaveQueueInv(cfg, s2, id, n, agree);
    FineFrom(cfg, s1, s2, LeaveQueue(s2, id, Landed), agree);
    hide Fine;
    FineAppend(cfg, s, [s1], LeaveQueue(s2, id, Landed), agree);
  }

  lemma FineFrom(cfg: Config, a: State, b: State, t: seq<State>, agree: bool)
    requires AllSafe(cfg, t) && Climbs(b, t) && |t| > 0 && Steady(cfg, End(b, t), agree)
    requires Grows(a, b)
    ensures Fine(cfg, a, t, agree)
  {
  }

  lemma OnRetrySignalInv(cfg: Config, s: State, d: Delivery, agree: bool)
    requires Steady(cfg, s, agree) && AllLanded(d) && KnownFact(s.disk.facts, d)
    ensures Fine(cfg, s, OnRetrySignal(cfg, s, d), agree)
    ensures End(s, OnRetrySignal(cfg, s, d)).disk.facts == s.disk.facts
  {
    hide Inv, Safe, Fine, Unpark, AppendFact, SeqOf, OnRetryMessage, LeaveQueue;
    match d.signal
    case Message(_, _, _, _, _) =>
      if EventOf(cfg, d.signal, d.now).id in s.mem.processed {
        RetryKnownEvent(cfg, s, d, agree);
      } else {
        RetryNewEvent(cfg, s, d, agree);
      }
    case EpochAdvanced(_, _) =>
      var r := End(s, OnRetrySignal(cfg, s, d));
      InvSame(cfg, s, r, |s.disk.facts|, agree);
      FineOne(cfg, s, r, agree);
    case Deferred(_, _) => RetryDeferred(cfg, s, d, agree);
    case _ => RetryVerdict(cfg, s, d, agree);
  }

  predicate ReplyOk(facts: seq<RawFact>, ds: seq<Delivery>) {
    forall d :: d in ds ==> AllLanded(d) && KnownFact(facts, d)
  }

  lemma {:induction false} DrainRetryInv(cfg: Config, s: State, ds: seq<Delivery>, agree: bool)
    requires Steady(cfg, s, agree) && ReplyOk(s.disk.facts, ds)
    ensures Fine(cfg, s, DrainRetry(cfg, s, ds), agree)
    ensures End(s, DrainRetry(cfg, s, ds)).disk.facts == s.disk.facts
    decreases ds
  {
    hide Inv, Safe, OnRetrySignal;
    if |ds| == 0 {
      FineEmpty(cfg, s, agree);
    } else {
      var t := OnRetrySignal(cfg, s, ds[0]);
      OnRetrySignalInv(cfg, s, ds[0], agree);
      DrainRetryInv(cfg, End(s, t), ds[1..], agree);
      FineAppend(cfg, s, t, DrainRetry(cfg, End(s, t), ds[1..]), agree);
    }
  }

  // ------------------------------------------------ prune, retire, charge

  lemma {:induction false} RejectAllKeeps(s: State, entries: seq<Parked>, why: RejectReason)
    ensures var r := RejectAll(s, entries, why); r.disk == s.disk && r.mem == s.mem && r.ledger == s.ledger
    decreases entries
  {
    if |entries| > 0 { RejectAllKeeps(Emit(s, Rejected(entries[0].factId, why)), entries[1..], why); }
  }

  /** Some entries leave the queue with a terminal verdict, and the rest is saved. */
  lemma ShrinkInv(cfg: Config, s: State, q: seq<Parked>, gone: seq<Parked>, agree: bool)
    requires Steady(cfg, s, agree) && UniqueIds(q) && |q| <= |s.mem.queue|
    requires forall e :: e in q ==> e in s.mem.queue
    requires forall x :: Holds(s.mem.queue, x) ==> Holds(q, x) || Holds(gone, x)
    ensures var r := Settle(WithQueue(s, q), IdSet(gone));
            Safe(cfg, r) && Steady(cfg, SaveDeferred(r, Landed), agree)
  {
    forall i | 0 <= i < |q| ensures HasFact(s.disk.facts, q[i].factId) {
      assert q[i] in q;
      var j :| 0 <= j < |s.mem.queue| && s.mem.queue[j] == q[i];
    }
    hide Inv, Safe, UniqueIds, HasFact, Holds, IdSet;
    var n := |s.disk.facts|;
    SettleInv(cfg, s, IdSet(gone), n, agree);
    InvIsSafe(cfg, Settle(s, IdSet(gone)), n, agree);
    SafeSame(cfg, Settle(s, IdSet(gone)), Settle(WithQueue(s, q), IdSet(gone)));
    RequeueInv(cfg, Settle(s, IdSet(gone)), q, n, agree);
  }

  lemma Shrunk(cfg: Config, s: State, q: seq<Parked>, gone: seq<Parked>, why: RejectReason, agree: bool)
    requires Steady(cfg, s, agree) && UniqueIds(q) && |q| <= |s.mem.queue|
    requires forall e :: e in q ==> e in s.mem.queue
    requires forall x :: Holds(s.mem.queue, x) ==> Holds(q, x) || Holds(gone, x)
    ensures var s1 := Settle(WithQueue(s, q), IdSet(gone));
            var s2 := SaveDeferred(s1, Landed);
            Fine(cfg, s, [s1, s2, RejectAll(s2, gone, why)], agree) && RejectAll(s2, gone, why).disk.facts == s.disk.facts &&
            RejectAll(s2, gone, why).mem == s1.mem
  {
    ShrinkInv(cfg, s, q, gone, agree);
    hide Inv, Safe, Holds, UniqueIds, IdSet;
    var s1 := Settle(WithQueue(s, q), IdSet(gone));
    var s2 := SaveDeferred(s1, Landed);
    var s3 := RejectAll(s2, gone, why);
    RejectAllKeeps(s2, gone, why);
    InvSame(cfg, s2, s3, |s.disk.facts|, agree);
    FineTwo(cfg, s, s1, s2, agree);
    FineOne(cfg, s2, s3, agree);
    FineAppend(cfg, s, [s1, s2], [s3], agree);
    assert [s1, s2] + [s3] == [s1, s2, s3];
  }

  lemma PruneInv(cfg: Config, s: State, now: int, agree: bool)
    requires Steady(cfg, s, agree)
    ensures Fine(cfg, s, Prune(cfg, s, now, Landed), agree)
    ensures End(s, Prune(cfg, s, now, Landed)).disk.facts == s.disk.facts
  {
    var age := cfg.options.maxDeferredAgeSec;
    var gone := Expired(s.mem.queue, now, age);
    if |gone| == 0 {
      FineEmpty(cfg, s, agree);
    } else {
      var q := Fresh(s.mem.queue, now, age);
      FilterUnique(s.mem.queue, Young(now, age));
      forall x | Holds(s.mem.queue, x) ensures Holds(q, x) || Holds(gone, x) {
        HoldsMember(s.mem.queue, x);
        HoldsMember(q, x);
        HoldsMember(gone, x);
        var e :| e in s.mem.queue && e.factId == x;
        assert e in q || e in gone;
      }
      Shrunk(cfg, s, q, gone, DeferredTtlExpired, agree);
    }
  }

  lemma RetireInv(cfg: Config, s: State, agree: bool)
    requires Steady(cfg, s, agree)
    ensures Fine(cfg, s, Retire(cfg, s, Landed), agree)
    ensures End(s, Retire(cfg, s, Landed)).disk.facts == s.disk.facts
  {
    var gone := Exhausted(s.mem.queue, cfg.options.maxRetryAttempts);
    if |gone| == 0 {
      FineEmpty(cfg, s, agree);
    } else {
      var q := UnparkedAll(s.mem.queue, gone);
      UnparkedAllMembers(s.mem.queue, gone);
      forall x | Holds(s.mem.queue, x) ensures Holds(q, x) || Holds(gone, x) {
        HoldsMember(s.mem.queue, x);
        HoldsMember(q, x);
        var e :| e in s.mem.queue && e.factId == x;
        assert e in q || Holds(gone, x);
      }
      Shrunk(cfg, s, q, gone, RetryExhausted, agree);
    }
  }

  lemma {:induction false} ChargedAllIds(q: seq<Parked>, batch: seq<Parked>)
    ensures Ids(ChargedAll(q, batch)) == Ids(q)
    ensures forall i :: 0 <= i < |q| ==> ChargedAll(q, batch)[i].factId == q[i].factId
    decreases batch
  {
    if |batch| > 0 { ChargedAllIds(Charged(q, batch[0].factId), batch[1..]); }
  }

  lemma ChargeInv(cfg: Config, s: State, batch: seq<Parked>, agree: bool)
    requires Steady(cfg, s, agree)
    ensures Steady(cfg, WithQueue(s, ChargedAll(s.mem.queue, batch)), agree)
  {
    var q := ChargedAll(s.mem.queue, batch);
    ChargedAllIds(s.mem.queue, batch);
    forall x ensures Holds(s.mem.queue, x) <==> Holds(q, x) {
      HoldsMember(s.mem.queue, x);
      HoldsMember(q, x);
    }
  }

  // ------------------------------------------------ the retry loop

  predicate PassOk(facts: seq<RawFact>, p: Pass) {
    p.afterPrune.Landed? && p.afterExhausted.Landed? && ReplyOk(facts, p.reply)
  }

  lemma RunBatchInv(cfg: Config, s: State, batch: seq<Parked>, reply: seq<Delivery>, entered: bool, agree: bool)
    requires Steady(cfg, s, agree) && ReplyOk(s.disk.facts, reply)
    ensures Fine(cfg, s, RunBatch(cfg, s, batch, reply, entered), agree)
    ensures End(s, RunBatch(cfg, s, batch, reply, entered)).disk.facts == s.disk.facts
  {
    hide Inv, Safe, ChargedAll, DrainRetry, ReplyOk;
    var s1 := if entered then s else Transition(s, RetryingDeferred);
    var t1 := if entered then [] else [s1];
    var s2 := Emit(s1, RetryStarted(|batch|));
    var s3 := WithQueue(s2, ChargedAll(s2.mem.queue, batch));
    InvSame(cfg, s, s1, |s.disk.facts|, agree);
    if entered { FineEmpty(cfg, s, agree); } else { FineOne(cfg, s, s1, agree); }
    InvSame(cfg, s1, s2, |s.disk.facts|, agree);
    ChargeInv(cfg, s2, batch, agree);
    FineOne(cfg, s1, s3, agree);
    FineAppend(cfg, s, t1, [s3], agree);
    DrainRetryInv(cfg, s3, reply, agree);
    FineAppend(cfg, s, t1 + [s3], DrainRetry(cfg, s3, reply), agree);
  }

  lemma IterationInv(cfg: Config, s: State, p: Pass, entered: bool, agree: bool)
    requires Steady(cfg, s, agree) && PassOk(s.disk.facts, p)
    ensures Fine(cfg, s, Iteration(cfg, s, p, entered), agree)
    ensures End(s, Iteration(cfg, s, p, entered)).disk.facts == s.disk.facts
  {
    hide Inv, Safe, Fine, Prune, RunBatch, Retire, Eligible, ReplyOk;
    var t1 := Prune(cfg, s, p.now, p.afterPrune);
    var s1 := End(s, t1);
    PruneInv(cfg, s, p.now, agree);
    FineEnds(cfg, s, t1, agree);
    var batch := Eligible(s1.mem.queue, cfg.options.maxRetryAttempts);
    var t2 := if |batch| > 0 then RunBatch(cfg, s1, batch, p.reply, entered) else [];
    if |batch| > 0 { RunBatchInv(cfg, s1, batch, p.reply, entered, agree); } else { FineEmpty(cfg, s1, agree); }
    var s2 := End(s1, t2);
    FineEnds(cfg, s1, t2, agree);
    RetireInv(cfg, s2, agree);
    FineAppend(cfg, s, t1, t2, agree);
    FineAppend(cfg, s, t1 + t2, Retire(cfg, s2, p.afterExhausted), agree);
  }

  lemma FineEnds(cfg: Config, s: State, t: seq<State>, agree: bool)
    requires Fine(cfg, s, t, agree)
    ensures Steady(cfg, End(s, t), agree)
  {
  }

  predicate PassesOk(facts: seq<RawFact>, ps: seq<Pass>) {
    forall p :: p in ps ==> PassOk(facts, p)
  }

  lemma {:induction false} RetryLoopInv(cfg: Config, s: State, passes: seq<Pass>, entered: bool, agree: bool)
    requires ValidOptions(cfg.options) && Steady(cfg, s, agree) && PassesOk(s.disk.facts, passes)
    ensures Fine(cfg, s, RetryLoop(cfg, s, passes, entered), agree)
    ensures End(s, RetryLoop(cfg, s, passes, entered)).disk.facts == s.disk.facts
    decreases passes
  {
    hide Inv, Safe, Fine, Iteration, EntersIn, PassOk;
    if |passes| == 0 {
      FineEmpty(cfg, s, agree);
    } else {
      var t := Iteration(cfg, s, passes[0], entered);
      var s1 := End(s, t);
      var s2 := Unlatched(s1);
      var entered' := entered || EntersIn(cfg, s, passes[0]);
      IterationInv(cfg, s, passes[0], entered, agree);
      FineEnds(cfg, s, t, agree);
      InvSame(cfg, s1, s2, |s1.disk.facts|, agree);
      FineOne(cfg, s1, s2, agree);
      FineAppend(cfg, s, t, [s2], agree);
      if s1.mem.pendingRetry && |s1.mem.queue| > 0 {
        RetryLoopInv(cfg, s2, passes[1..], entered', agree);
        FineAppend(cfg, s, t + [s2], RetryLoop(cfg, s2, passes[1..], entered'), agree);
      } else if entered' {
        var s3 := Transition(s2, Live);
        InvSame(cfg, s2, s3, |s1.disk.facts|, agree);
        FineOne(cfg, s2, s3, agree);
        FineAppend(cfg, s, t + [s2], [s3], agree);
      } else {
        assert t + [s2] + [] == t + [s2];
      }
    }
  }

  // ------------------------------------------------ commands

  predicate CommandOk(facts: seq<RawFact>, c: Command) {
    match c
    case Deliver(d, passes) => AllLanded(d) && PassesOk(facts, passes)
    case LocalEdit(_, _, _, w) => w.Landed?
    case Enter(_, passes) => PassesOk(facts, passes)
    case BootstrapResolved => true
  }

  lemma DeliverInv(cfg: Config, s: State, d: Delivery, agree: bool)
    requires ValidOptions(cfg.options) && Steady(cfg, s, agree) && AllLanded(d) && !d.signal.EpochAdvanced?
    ensures Fine(cfg, s, ProcessSignal(cfg, s, d, []), agree)
  {
    var n := |s.disk.facts|;
    var id := d.signal.fact.id;
    var s1 := PutFact(s, d.signal.fact);
    PutFactInv(cfg, s, d.signal.fact, n, agree);
    FactPosition(s1, id);
    assert InTurn(s, d, n);
    SignalInv(cfg, s, d, n, agree);
    SignalFacts(cfg, s, d);
    if HasFact(s.disk.facts, id) { KnownStays(s.disk.facts, d); } else { FreshPosition(s.disk.facts, d.signal.fact); }
  }

  lemma FreshPosition(log: seq<RawFact>, fact: FactInput)
    requires Numbered(log) && !HasFact(log, fact.id)
    ensures SeqOf(AppendFact(log, fact), fact.id) == |log| + 1 == |AppendFact(log, fact)|
  {
    AppendKeepsNumbering(log, fact);
    var r := AppendFact(log, fact);
    var f := FindFact(r, fact.id).value;
    var k :| 0 <= k < |r| && r[k] == f;
    forall j | 0 <= j < |log| ensures r[j].id != fact.id {
      assert r[j] == log[j];
    }
  }

  lemma SignalInv(cfg: Config, s: State, d: Delivery, upto: nat, agree: bool)
    requires ValidOptions(cfg.options) && !d.signal.EpochAdvanced?
    requires Inv(cfg, s, upto, agree) && AllLanded(d) && InTurn(s, d, upto)
    ensures var t := ProcessSignal(cfg, s, d, []);
            Inv(cfg, End(s, t), After(s, d, upto), agree) && AllSafe(cfg, t) && Climbs(s, t)
  {
    hide Inv, Safe, InTurn, After;
    match d.signal
    case Message(_, _, _, _, _) => OnMessageInv(cfg, s, d, upto, agree);
    case Deferred(_, _) => OnDeferredInv(cfg, s, d, upto, agree);
    case Skipped(_) => OnSkippedInv(cfg, s, d, upto, agree);
    case Malformed(_) => OnMalformedInv(cfg, s, d, upto, agree);
  }

  lemma SignalFacts(cfg: Config, s: State, d: Delivery)
    requires ValidOptions(cfg.options) && !d.signal.EpochAdvanced? && AllLanded(d)
    ensures End(s, ProcessSignal(cfg, s, d, [])).disk.facts == AppendFact(s.disk.facts, d.signal.fact)
  {
    hide AppendFact, AppendEvent, SeqOf, FindFact, Holds, Park, Evicted, Unpark, Without, Ids;
  }

  lemma EpochInv(cfg: Config, s: State, d: Delivery, passes: seq<Pass>, agree: bool)
    requires ValidOptions(cfg.options) && Steady(cfg, s, agree) && d.signal.EpochAdvanced? && PassesOk(s.disk.facts, passes)
    ensures Fine(cfg, s, OnEpoch(cfg, s, d.signal, passes), agree)
  {
    hide Inv, Safe, Fine, RetryLoop, PassesOk;
    var s1 := Emit(s.(mem := s.mem.(lastEpoch := Some(d.signal.newEpoch))),
                   GroupEpochAdvanced(d.signal.newEpoch, d.signal.prevEpoch));
    var s2 := s1.(mem := s1.mem.(pendingRetry := true));
    InvSame(cfg, s, s1, |s.disk.facts|, agree);
    InvSame(cfg, s, s2, |s.disk.facts|, agree);
    FineOne(cfg, s, s1, agree);
    FineOne(cfg, s, s2, agree);
    RetryLoopInv(cfg, s1, passes, false, agree);
    FineAppend(cfg, s, [s1], RetryLoop(cfg, s1, passes, false), agree);
  }

  lemma LocalEditInv(cfg: Config, s: State, rumorId: string, payload: TaskEvent, now: int, agree: bool)
    requires Steady(cfg, s, agree)
    ensures Fine(cfg, s, OnLocalEdit(cfg, s, rumorId, payload, now, Landed), agree)
  {
    hide Inv, Safe, AppendEvent;
    var e := LocalEvent(cfg, s.mem.lastEpoch, rumorId, payload, now);
    if e.id in s.mem.processed {
      FineEmpty(cfg, s, agree);
    } else {
      var s1 := PutEvent(s, e);
      PutEventInv(cfg, s, e, |s.disk.facts|, agree);
      InvSame(cfg, s1, Accept(s1, e), |s.disk.facts|, agree);
      InvIsSafe(cfg, s1, |s.disk.facts|, agree);
      FineTwo(cfg, s, s1, Accept(s1, e), agree);
    }
  }

  lemma EnterInv(cfg: Config, s: State, phase: Lifecycle, passes: seq<Pass>, agree: bool)
    requires ValidOptions(cfg.options) && Steady(cfg, s, agree) && PassesOk(s.disk.facts, passes)
    ensures Fine(cfg, s, OnEnter(cfg, s, phase, passes), agree)
  {
    hide Inv, Safe, Fine, RetryLoop, PassesOk;
    var n := |s.disk.facts|;
    var s1 := Transition(s, phase);
    InvSame(cfg, s, s1, n, agree);
    FineOne(cfg, s, s1, agree);
    if phase.Live? {
      var s2 := Emit(s1, Recovered);
      InvSame(cfg, s1, s2, n, agree);
      FineTwo(cfg, s, s1, s2, agree);
      if s2.mem.pendingRetry {
        var s3 := Unlatched(s2);
        InvSame(cfg, s2, s3, n, agree);
        FineTwo(cfg, s, s1, s3, agree);
        RetryLoopInv(cfg, s3, passes, false, agree);
        FineAppend(cfg, s, [s1, s3], RetryLoop(cfg, s3, passes, false), agree);
        assert [s1, s3] + [] == [s1, s3];
      }
    }
  }

  lemma CommandInv(cfg: Config, s: State, c: Command, agree: bool)
    requires ValidOptions(cfg.options) && Steady(cfg, s, agree) && CommandOk(s.disk.facts, c)
    ensures Fine(cfg, s, OnCommand(cfg, s, c), agree)
  {
    hide Inv, Safe, Fine;
    match c
    case Deliver(d, passes) =>
      if d.signal.EpochAdvanced? {
        EpochInv(cfg, s, d, passes, agree);
      } else {
        DeliverInv(cfg, s, d, agree);
        assert ProcessSignal(cfg, s, d, passes) == ProcessSignal(cfg, s, d, []);
      }
    case LocalEdit(rumorId, payload, now, _) => LocalEditInv(cfg, s, rumorId, payload, now, agree);
    case Enter(phase, passes) => EnterInv(cfg, s, phase, passes, agree);
    case BootstrapResolved =>
      var s1 := SaveCheckpoint(s.(mem := s.mem.(bootstrapCompleted := true)));
      InvSame(cfg, s, s1, |s.disk.facts|, agree);
      FineOne(cfg, s, s1, agree);
  }

  /** Each command is acceptable in the state it meets. */
  predicate CommandsOk(cfg: Config, s: State, cs: seq<Command>)
    requires ValidOptions(cfg.options)
    decreases cs
  {
    |cs| > 0 ==> CommandOk(s.disk.facts, cs[0]) && CommandsOk(cfg, End(s, OnCommand(cfg, s, cs[0])), cs[1..])
  }

  lemma {:induction false} CommandsInv(cfg: Config, s: State, cs: seq<Command>, agree: bool)
    requires ValidOptions(cfg.options) && Steady(cfg, s, agree) && CommandsOk(cfg, s, cs)
    ensures Fine(cfg, s, OnCommands(cfg, s, cs), agree)
    decreases cs
  {
    hide Inv, Safe, Fine, OnCommand, CommandOk;
    if |cs| == 0 {
      FineEmpty(cfg, s, agree);
    } else {
      var t := OnCommand(cfg, s, cs[0]);
      CommandInv(cfg, s, cs[0], agree);
      FineEnds(cfg, s, t, agree);
      CommandsInv(cfg, End(s, t), cs[1..], agree);
      FineAppend(cfg, s, t, OnCommands(cfg, End(s, t), cs[1..]), agree);
    }
  }
}
