/** The deferred-retry loop ends: one call of enterRetryingDeferred makes at most
    maxRetryAttempts passes, even when every pass latches another one. */

module EngineRetry {
  import opened TaskDomain
  import opened EngineTypes
  import opened EventLog
  import opened DeferredQueue
  import opened EngineSpec
  import opened EngineRuns

  /** The one case in which an attempt is given back: the fact is stored, and the
      accept write gives up. */
  predicate Refunds(d: Delivery) {
    d.signal.Message? && d.first.Landed? && !d.second.Landed?
  }

  predicate NoRefunds(ds: seq<Delivery>) {
    forall d :: d in ds ==> !Refunds(d)
  }

  /** No fact gets its attempt back twice in one pass. */
  predicate RefundsOnce(ds: seq<Delivery>) {
    forall i, j :: 0 <= i < j < |ds| && Refunds(ds[i]) && Refunds(ds[j]) ==> ds[i].signal.fact.id != ds[j].signal.fact.id
  }

  predicate Tried(q: seq<Parked>, n: int) {
    forall e :: e in q ==> e.attempts >= n
  }

  predicate WithinBudget(q: seq<Parked>, budget: int) {
    forall e :: e in q ==> e.attempts < budget
  }

  predicate Within(q: seq<Parked>, all: seq<Parked>) {
    UniqueIds(q) && forall e :: e in q ==> e in all
  }

  /** The loop stops within the given passes. */
  predicate Completes(cfg: Config, s: State, passes: seq<Pass>, entered: bool)
    requires ValidOptions(cfg.options)
    decreases passes
  {
    |passes| > 0 &&
    var s1 := End(s, Iteration(cfg, s, passes[0], entered));
    s1.mem.pendingRetry && |s1.mem.queue| > 0 ==>
      Completes(cfg, Unlatched(s1), passes[1..], entered || EntersIn(cfg, s, passes[0]))
  }

  // ------------------------------------------------ one pass

  lemma UnparkWithin(q: seq<Parked>, id: string)
    requires UniqueIds(q)
    ensures Within(Unpark(q, id), q)
  {
    FilterUnique(q, Other(id));
  }

  lemma MessageOnlyRemoves(cfg: Config, s: State, d: Delivery)
    requires d.signal.Message?
    ensures var q := End(s, OnRetryMessage(cfg, s, d)).mem.queue;
            q == s.mem.queue || q == Unpark(s.mem.queue, d.signal.fact.id) ||
            (Refunds(d) && q == Refunded(s.mem.queue, d.signal.fact.id))
  {
    hide AppendFact, AppendEvent, SeqOf, Unpark, Refunded, Without, Ids;
  }

  lemma SignalOnlyRemoves(cfg: Config, s: State, d: Delivery)
    requires UniqueIds(s.mem.queue) && !Refunds(d)
    ensures Within(End(s, OnRetrySignal(cfg, s, d)).mem.queue, s.mem.queue)
  {
    hide AppendFact, SeqOf, Unpark, Ids, UniqueIds, OnRetryMessage;
    if !d.signal.EpochAdvanced? { UnparkWithin(s.mem.queue, d.signal.fact.id); }
    if d.signal.Message? { MessageOnlyRemoves(cfg, s, d); }
  }

  lemma {:induction false} DrainOnlyRemoves(cfg: Config, s: State, ds: seq<Delivery>)
    requires UniqueIds(s.mem.queue) && NoRefunds(ds)
    ensures Within(End(s, DrainRetry(cfg, s, ds)).mem.queue, s.mem.queue)
    decreases ds
  {
    hide OnRetrySignal;
    if |ds| > 0 {
      var t := OnRetrySignal(cfg, s, ds[0]);
      var s1 := End(s, t);
      SignalOnlyRemoves(cfg, s, ds[0]);
      DrainOnlyRemoves(cfg, s1, ds[1..]);
      EndAppend(s, t, DrainRetry(cfg, s1, ds[1..]));
    }
  }

  /** Charging the eligible entries brings every entry one attempt further, or
      leaves it where it was already out of budget. */
  lemma ChargeTries(q: seq<Parked>, budget: int, n: int)
    requires UniqueIds(q) && Tried(q, n)
    ensures var r := ChargedAll(q, Eligible(q, budget));
            UniqueIds(r) && forall e :: e in r ==> e.attempts >= n + 1 || e.attempts >= budget
  {
    var batch := Eligible(q, budget);
    var r := ChargedAll(q, batch);
    FilterUnique(q, UnderBudget(budget));
    ChargedAllExactly(q, batch);
    ChargedAllIds(q, batch);
    forall i | 0 <= i < |q| ensures r[i].attempts >= n + 1 || r[i].attempts >= budget {
      if q[i].attempts < budget {
        assert q[i] in batch;
        HoldsMember(batch, q[i].factId);
      }
    }
  }

  lemma RetireLeaves(cfg: Config, s: State, w: Write)
    requires UniqueIds(s.mem.queue)
    ensures var q := End(s, Retire(cfg, s, w)).mem.queue;
            Within(q, s.mem.queue) && WithinBudget(q, cfg.options.maxRetryAttempts) &&
            End(s, Retire(cfg, s, w)).mem == s.mem.(queue := q)
  {
    var gone := Exhausted(s.mem.queue, cfg.options.maxRetryAttempts);
    if |gone| > 0 {
      UnparkedAllMembers(s.mem.queue, gone);
      var s2 := Retire(cfg, s, w)[1];
      RejectAllKeeps(s2, gone, RetryExhausted);
      forall e | e in s2.mem.queue ensures e.attempts < cfg.options.maxRetryAttempts {
        HoldsMember(gone, e.factId);
      }
    } else {
      forall e | e in s.mem.queue ensures e.attempts < cfg.options.maxRetryAttempts {
        assert e !in gone;
      }
    }
  }

  lemma PruneLeaves(cfg: Config, s: State, now: int, w: Write)
    requires UniqueIds(s.mem.queue)
    ensures Within(End(s, Prune(cfg, s, now, w)).mem.queue, s.mem.queue)
  {
    var gone := Expired(s.mem.queue, now, cfg.options.maxDeferredAgeSec);
    FilterUnique(s.mem.queue, Young(now, cfg.options.maxDeferredAgeSec));
    if |gone| > 0 { RejectAllKeeps(Prune(cfg, s, now, w)[1], gone, DeferredTtlExpired); }
  }

  lemma BatchTries(cfg: Config, s: State, reply: seq<Delivery>, entered: bool, n: int)
    requires UniqueIds(s.mem.queue) && Tried(s.mem.queue, n) && NoRefunds(reply)
    ensures var budget := cfg.options.maxRetryAttempts;
            var q := End(s, RunBatch(cfg, s, Eligible(s.mem.queue, budget), reply, entered)).mem.queue;
            UniqueIds(q) && forall e :: e in q ==> e.attempts >= n + 1 || e.attempts >= budget
  {
    var budget := cfg.options.maxRetryAttempts;
    var batch := Eligible(s.mem.queue, budget);
    ChargeTries(s.mem.queue, budget, n);
    hide ChargedAll, DrainRetry, UniqueIds;
    var s1 := if entered then s else Transition(s, RetryingDeferred);
    var s2 := Emit(s1, RetryStarted(|batch|));
    var s3 := WithQueue(s2, ChargedAll(s2.mem.queue, batch));
    DrainOnlyRemoves(cfg, s3, reply);
    EndAppend(s, (if entered then [] else [s1]) + [s3], DrainRetry(cfg, s3, reply));
  }

  /** One pass leaves only entries with one attempt more and still under budget. */
  lemma IterationTries(cfg: Config, s: State, p: Pass, entered: bool, n: int)
    requires UniqueIds(s.mem.queue) && Tried(s.mem.queue, n) && NoRefunds(p.reply)
    ensures var q := End(s, Iteration(cfg, s, p, entered)).mem.queue;
            UniqueIds(q) && Tried(q, n + 1) && WithinBudget(q, cfg.options.maxRetryAttempts)
  {
    hide UniqueIds, Prune, RunBatch, Retire;
    var t1 := Prune(cfg, s, p.now, p.afterPrune);
    var s1 := End(s, t1);
    PruneLeaves(cfg, s, p.now, p.afterPrune);
    var batch := Eligible(s1.mem.queue, cfg.options.maxRetryAttempts);
    var t2 := if |batch| > 0 then RunBatch(cfg, s1, batch, p.reply, entered) else [];
    var s2 := End(s1, t2);
    if |batch| > 0 {
      BatchTries(cfg, s1, p.reply, entered, n);
    } else {
      forall e | e in s2.mem.queue ensures e.attempts >= cfg.options.maxRetryAttempts {
        assert e !in batch;
      }
    }
    RetireLeaves(cfg, s2, p.afterExhausted);
    EndAppend(s, t1, t2);
    EndAppend(s, t1 + t2, Retire(cfg, s2, p.afterExhausted));
  }

  // ------------------------------------------------ the loop

  lemma {:induction false} LoopStops(cfg: Config, s: State, passes: seq<Pass>, entered: bool, n: nat)
    requires ValidOptions(cfg.options) && UniqueIds(s.mem.queue) && Tried(s.mem.queue, n)
    requires forall p :: p in passes ==> NoRefunds(p.reply)
    requires |passes| > 0 && |passes| >= cfg.options.maxRetryAttempts - n
    ensures Completes(cfg, s, passes, entered)
    decreases passes
  {
    hide Iteration, UniqueIds, EntersIn, NoRefunds;
    var s1 := End(s, Iteration(cfg, s, passes[0], entered));
    IterationTries(cfg, s, passes[0], entered, n);
    if s1.mem.pendingRetry && |s1.mem.queue| > 0 {
      assert s1.mem.queue[0] in s1.mem.queue;
      LoopStops(cfg, Unlatched(s1), passes[1..], entered || EntersIn(cfg, s, passes[0]), n + 1);
    }
  }

  // ------------------------------------------------ passes that give attempts back

  /** Every entry has had `n` attempts, and one more if it may still be given one back. */
  predicate TriedBut(q: seq<Parked>, n: int, ds: seq<Delivery>) {
    UniqueIds(q) && forall e :: e in q ==> e.attempts >= n && (RefundIn(ds, e.factId) ==> e.attempts >= n + 1)
  }

  predicate RefundIn(ds: seq<Delivery>, id: string) {
    exists i :: 0 <= i < |ds| && Refunds(ds[i]) && ds[i].signal.fact.id == id
  }

  /** `e` is `f`, with one attempt given back at most if it is the fact's. */
  predicate GivenBack(f: Parked, e: Parked, id: string) {
    f.factId == e.factId && e.attempts >= if f.factId == id then f.attempts - 1 else f.attempts
  }

  lemma RefundedMembers(q: seq<Parked>, id: string)
    ensures UniqueIds(q) ==> UniqueIds(Refunded(q, id))
    ensures forall e :: e in Refunded(q, id) ==> exists f :: f in q && GivenBack(f, e, id)
  {
    var r := Refunded(q, id);
    forall e | e in r ensures exists f :: f in q && GivenBack(f, e, id) {
      var i :| 0 <= i < |r| && r[i] == e;
      assert q[i] in q && GivenBack(q[i], e, id);
    }
  }

  lemma SignalTries(cfg: Config, s: State, d: Delivery, ds: seq<Delivery>, n: int)
    requires TriedBut(s.mem.queue, n, [d] + ds) && RefundsOnce([d] + ds)
    ensures TriedBut(End(s, OnRetrySignal(cfg, s, d)).mem.queue, n, ds)
  {
    var q, id := s.mem.queue, if d.signal.EpochAdvanced? then "" else d.signal.fact.id;
    FewerRefunds(d, ds);
    hide RefundsOnce, RefundIn, OnRetrySignal;
    if !Refunds(d) {
      SignalOnlyRemoves(cfg, s, d);
    } else {
      RetriesMessage(cfg, s, d);
      MessageOnlyRemoves(cfg, s, d);
      UnparkWithin(q, id);
      RefundedMembers(q, id);
    }
  }

  lemma RetriesMessage(cfg: Config, s: State, d: Delivery)
    requires d.signal.Message?
    ensures OnRetrySignal(cfg, s, d) == OnRetryMessage(cfg, s, d)
  {
  }

  lemma FewerRefunds(d: Delivery, ds: seq<Delivery>)
    requires RefundsOnce([d] + ds)
    ensures RefundsOnce(ds)
    ensures forall id :: RefundIn(ds, id) ==> RefundIn([d] + ds, id)
    ensures Refunds(d) ==> RefundIn([d] + ds, d.signal.fact.id) && !RefundIn(ds, d.signal.fact.id)
  {
    var all := [d] + ds;
    assert forall i :: 0 <= i < |ds| ==> all[i + 1] == ds[i];
    assert all[0] == d;
  }

  lemma {:induction false} DrainTries(cfg: Config, s: State, ds: seq<Delivery>, n: int)
    requires TriedBut(s.mem.queue, n, ds) && RefundsOnce(ds)
    ensures var q := End(s, DrainRetry(cfg, s, ds)).mem.queue;
            UniqueIds(q) && Tried(q, n)
    decreases ds
  {
    hide OnRetrySignal, TriedBut, RefundsOnce;
    if |ds| > 0 {
      var t := OnRetrySignal(cfg, s, ds[0]);
      var s1 := End(s, t);
      assert ds == [ds[0]] + ds[1..];
      SignalTries(cfg, s, ds[0], ds[1..], n);
      FewerRefunds(ds[0], ds[1..]);
      DrainTries(cfg, s1, ds[1..], n);
      EndAppend(s, t, DrainRetry(cfg, s1, ds[1..]));
    } else {
      assert TriedBut(s.mem.queue, n, ds);
      TriedAlready(s.mem.queue, n, ds);
    }
  }

  lemma TriedAlready(q: seq<Parked>, n: int, ds: seq<Delivery>)
    requires TriedBut(q, n, ds)
    ensures UniqueIds(q) && Tried(q, n)
  {
  }

  /** A pass that gives attempts back takes no entry below where the loop has got to. */
  lemma RefundingIterationTries(cfg: Config, s: State, p: Pass, entered: bool, n: int)
    requires UniqueIds(s.mem.queue) && Tried(s.mem.queue, n) && RefundsOnce(p.reply) && n < cfg.options.maxRetryAttempts
    ensures var q := End(s, Iteration(cfg, s, p, entered)).mem.queue;
            UniqueIds(q) && Tried(q, n) && WithinBudget(q, cfg.options.maxRetryAttempts)
  {
    hide UniqueIds, Prune, RunBatch, Retire, RefundsOnce;
    var t1 := Prune(cfg, s, p.now, p.afterPrune);
    var s1 := End(s, t1);
    PruneLeaves(cfg, s, p.now, p.afterPrune);
    var batch := Eligible(s1.mem.queue, cfg.options.maxRetryAttempts);
    var t2 := if |batch| > 0 then RunBatch(cfg, s1, batch, p.reply, entered) else [];
    var s2 := End(s1, t2);
    if |batch| > 0 { RefundingBatchTries(cfg, s1, p.reply, entered, n); }
    RetireLeaves(cfg, s2, p.afterExhausted);
    EndAppend(s, t1, t2);
    EndAppend(s, t1 + t2, Retire(cfg, s2, p.afterExhausted));
  }

  lemma RefundingBatchTries(cfg: Config, s: State, reply: seq<Delivery>, entered: bool, n: int)
    requires UniqueIds(s.mem.queue) && Tried(s.mem.queue, n) && RefundsOnce(reply) && n < cfg.options.maxRetryAttempts
    ensures var q := End(s, RunBatch(cfg, s, Eligible(s.mem.queue, cfg.options.maxRetryAttempts), reply, entered)).mem.queue;
            UniqueIds(q) && Tried(q, n)
  {
    var batch := Eligible(s.mem.queue, cfg.options.maxRetryAttempts);
    ChargeTries(s.mem.queue, cfg.options.maxRetryAttempts, n);
    hide ChargedAll, DrainRetry, UniqueIds, RefundsOnce, RefundIn;
    var s1 := if entered then s else Transition(s, RetryingDeferred);
    var s2 := Emit(s1, RetryStarted(|batch|));
    var s3 := WithQueue(s2, ChargedAll(s2.mem.queue, batch));
    assert TriedBut(s3.mem.queue, n, reply);
    DrainTries(cfg, s3, reply, n);
    EndAppend(s, (if entered then [] else [s1]) + [s3], DrainRetry(cfg, s3, reply));
  }

  /** How many of the passes carry a refund. */
  function RefundingPasses(passes: seq<Pass>): (r: nat) {
    if |passes| == 0 then 0 else (if NoRefunds(passes[0].reply) then 0 else 1) + RefundingPasses(passes[1..])
  }

  /** Every pass that carries a refund costs one pass more, and nothing else does:
      the loop stops within maxRetryAttempts passes and those. A loop that never
      stops has refunds in infinitely many passes. */
  lemma {:induction false} RefundsCostAPassEach(cfg: Config, s: State, passes: seq<Pass>, entered: bool, n: nat)
    requires ValidOptions(cfg.options) && UniqueIds(s.mem.queue) && Tried(s.mem.queue, n)
    requires forall p :: p in passes ==> RefundsOnce(p.reply)
    requires n < cfg.options.maxRetryAttempts && |passes| >= cfg.options.maxRetryAttempts - n + RefundingPasses(passes)
    ensures Completes(cfg, s, passes, entered)
    decreases passes
  {
    hide Iteration, UniqueIds, EntersIn, NoRefunds, RefundsOnce;
    var p := passes[0];
    var s1 := End(s, Iteration(cfg, s, p, entered));
    var n1 := if NoRefunds(p.reply) then n + 1 else n;
    if NoRefunds(p.reply) { IterationTries(cfg, s, p, entered, n); } else { RefundingIterationTries(cfg, s, p, entered, n); }
    if s1.mem.pendingRetry && |s1.mem.queue| > 0 {
      assert s1.mem.queue[0] in s1.mem.queue;
      assert n1 <= s1.mem.queue[0].attempts < cfg.options.maxRetryAttempts;
      RefundsCostAPassEach(cfg, Unlatched(s1), passes[1..], entered || EntersIn(cfg, s, p), n1);
    }
  }

  // ------------------------------------------------ the loop, once more

  /** Once the loop has stopped, further passes are never asked for. */
  lemma {:induction false} StoppedIgnoresRest(cfg: Config, s: State, passes: seq<Pass>, entered: bool, n: nat)
    requires ValidOptions(cfg.options) && n <= |passes| && Completes(cfg, s, passes[..n], entered)
    ensures RetryLoop(cfg, s, passes, entered) == RetryLoop(cfg, s, passes[..n], entered)
    decreases n
  {
    hide Iteration, EntersIn;
    var s1 := End(s, Iteration(cfg, s, passes[0], entered));
    if s1.mem.pendingRetry && |s1.mem.queue| > 0 {
      assert passes[..n][1..] == passes[1..][..n - 1];
      StoppedIgnoresRest(cfg, Unlatched(s1), passes[1..], entered || EntersIn(cfg, s, passes[0]), n - 1);
    }
  }

  /** However many passes the adapter could answer, and whatever nested epoch
      advances its answers carry, at most maxRetryAttempts of them are run. */
  lemma AtMostBudgetPasses(cfg: Config, s: State, passes: seq<Pass>, entered: bool)
    requires ValidOptions(cfg.options) && UniqueIds(s.mem.queue)
    requires forall p :: p in passes ==> NoRefunds(p.reply)
    requires |passes| >= cfg.options.maxRetryAttempts
    ensures Completes(cfg, s, passes[..cfg.options.maxRetryAttempts], entered)
    ensures RetryLoop(cfg, s, passes, entered) == RetryLoop(cfg, s, passes[..cfg.options.maxRetryAttempts], entered)
  {
    LoopStops(cfg, s, passes[..cfg.options.maxRetryAttempts], entered, 0);
    StoppedIgnoresRest(cfg, s, passes, entered, cfg.options.maxRetryAttempts);
  }

  predicate SomePassRuns(cfg: Config, s: State, passes: seq<Pass>, entered: bool)
    requires ValidOptions(cfg.options)
    decreases passes
  {
    |passes| > 0 &&
    var s1 := End(s, Iteration(cfg, s, passes[0], entered));
    EntersIn(cfg, s, passes[0]) ||
    (s1.mem.pendingRetry && |s1.mem.queue| > 0 &&
     SomePassRuns(cfg, Unlatched(s1), passes[1..], entered || EntersIn(cfg, s, passes[0])))
  }

  lemma LastPass(cfg: Config, s: State, p: Pass, entered: bool)
    requires UniqueIds(s.mem.queue) && NoRefunds(p.reply)
    ensures var s1 := End(s, Iteration(cfg, s, p, entered));
            UniqueIds(s1.mem.queue) && WithinBudget(s1.mem.queue, cfg.options.maxRetryAttempts)
  {
    IterationTries(cfg, s, p, entered, 0);
  }

  /** When the loop has stopped, the latch is clear, every entry that is left is
      under budget, and if any pass ran the engine is live again. */
  lemma {:induction false} ExitState(cfg: Config, s: State, passes: seq<Pass>, entered: bool)
    requires ValidOptions(cfg.options) && UniqueIds(s.mem.queue)
    requires forall p :: p in passes ==> NoRefunds(p.reply)
    requires Completes(cfg, s, passes, entered)
    ensures var r := End(s, RetryLoop(cfg, s, passes, entered));
            !r.mem.pendingRetry && WithinBudget(r.mem.queue, cfg.options.maxRetryAttempts) &&
            (entered || SomePassRuns(cfg, s, passes, entered) ==> r.mem.lifecycle.Live?)
    decreases passes
  {
    hide Iteration, UniqueIds, EntersIn, NoRefunds, WithinBudget;
    var t := Iteration(cfg, s, passes[0], entered);
    var s1 := End(s, t);
    var s2 := Unlatched(s1);
    var entered' := entered || EntersIn(cfg, s, passes[0]);
    LastPass(cfg, s, passes[0], entered);
    if s1.mem.pendingRetry && |s1.mem.queue| > 0 {
      ExitState(cfg, s2, passes[1..], entered');
      EndAppend(s, t + [s2], RetryLoop(cfg, s2, passes[1..], entered'));
    }
  }

  // ------------------------------------------------ without the assumption

  /** A pass in which the one parked fact decrypts, its writes end in the given
      ways, and the epoch advances once more or does not. */
  function RepeatedPass(e: Parked, m: Retried, now: int): (r: Pass) {
    Pass(now, Landed, [Delivery(MessageOf(e, m), now, m.first, m.second, Landed)] + AdvanceOf(m, now), Landed)
  }

  datatype Retried = Retried(rumorId: string, payload: TaskEvent, epoch: string, first: Write, second: Write, advances: bool)

  function MessageOf(e: Parked, m: Retried): (r: Signal) {
    Message(e.fact.input.(id := e.factId), m.rumorId, m.payload, m.epoch, Historical)
  }

  function AdvanceOf(m: Retried, now: int): (r: seq<Delivery>) {
    if m.advances then [Delivery(EpochAdvanced(m.epoch, m.epoch), now, Landed, Landed, Landed)] else []
  }

  function Copies(p: Pass, n: nat): (r: seq<Pass>)
    ensures |r| == n && forall x :: x in r ==> x == p
  {
    if n == 0 then [] else [p] + Copies(p, n - 1)
  }

  ghost predicate EverStops(cfg: Config, s: State, p: Pass, entered: bool)
    requires ValidOptions(cfg.options)
  {
    exists n: nat :: Completes(cfg, s, Copies(p, n), entered)
  }

  /** The accept write gives up, and an epoch advance asks for another pass. */
  predicate Spins(m: Retried) {
    m.first.Landed? && !m.second.Landed? && m.advances
  }

  /** With one parked fact and the same reply over and over, the loop stops if and
      only if the accept write lands, or is not reached, or nothing asks for
      another pass. */
  lemma RepeatedPassesStopExactly(cfg: Config, s: State, e: Parked, m: Retried, now: int, entered: bool)
    requires ValidOptions(cfg.options) && s.mem.queue == [e] && m.rumorId !in s.mem.processed
    requires e.attempts < cfg.options.maxRetryAttempts && now - e.queuedAt <= cfg.options.maxDeferredAgeSec * 1000
    ensures EverStops(cfg, s, RepeatedPass(e, m, now), entered) <==> !Spins(m)
  {
    var p := RepeatedPass(e, m, now);
    if Spins(m) {
      forall n: nat ensures !Completes(cfg, s, Copies(p, n), entered) { RefundsNeverStop(cfg, s, e, m, now, n, entered); }
    } else if m.first.Landed? && !m.second.Landed? {
      StopsUnasked(cfg, s, e, m, now, entered);
    } else {
      assert UniqueIds(s.mem.queue) && NoRefunds(p.reply);
      LoopStops(cfg, s, Copies(p, cfg.options.maxRetryAttempts), entered, 0);
    }
  }

  /** The refunded attempt keeps the entry eligible for ever: such passes never
      let the loop stop, however many there are. */
  lemma {:induction false} RefundsNeverStop(cfg: Config, s: State, e: Parked, m: Retried, now: int, n: nat, entered: bool)
    requires ValidOptions(cfg.options) && s.mem.queue == [e] && m.rumorId !in s.mem.processed && Spins(m)
    requires e.attempts < cfg.options.maxRetryAttempts && now - e.queuedAt <= cfg.options.maxDeferredAgeSec * 1000
    ensures !Completes(cfg, s, Copies(RepeatedPass(e, m, now), n), entered)
    decreases n
  {
    var p := RepeatedPass(e, m, now);
    if n > 0 {
      RefundedPassRepeats(cfg, s, e, m, now, entered);
      hide Iteration, EntersIn, RepeatedPass;
      var s1 := End(s, Iteration(cfg, s, p, entered));
      assert Copies(p, n)[0] == p && Copies(p, n)[1..] == Copies(p, n - 1);
      RefundsNeverStop(cfg, Unlatched(s1), e, m, now, n - 1, entered || EntersIn(cfg, s, p));
    }
  }

  /** Without an advance the loop stops after this pass, or after the next one if
      the latch was set before. */
  lemma StopsUnasked(cfg: Config, s: State, e: Parked, m: Retried, now: int, entered: bool)
    requires ValidOptions(cfg.options) && s.mem.queue == [e] && m.rumorId !in s.mem.processed
    requires m.first.Landed? && !m.second.Landed? && !m.advances
    requires e.attempts < cfg.options.maxRetryAttempts && now - e.queuedAt <= cfg.options.maxDeferredAgeSec * 1000
    ensures Completes(cfg, s, Copies(RepeatedPass(e, m, now), 2), entered)
  {
    var p := RepeatedPass(e, m, now);
    RefundedPassRepeats(cfg, s, e, m, now, entered);
    var s1 := Unlatched(End(s, Iteration(cfg, s, p, entered)));
    RefundedPassRepeats(cfg, s1, e, m, now, entered || EntersIn(cfg, s, p));
    hide Iteration, EntersIn, RepeatedPass;
    assert Copies(p, 2)[1..] == Copies(p, 1) && Copies(p, 1)[1..] == [];
  }

  lemma RefundedPassRepeats(cfg: Config, s: State, e: Parked, m: Retried, now: int, entered: bool)
    requires ValidOptions(cfg.options) && s.mem.queue == [e] && m.rumorId !in s.mem.processed
    requires m.first.Landed? && !m.second.Landed?
    requires e.attempts < cfg.options.maxRetryAttempts && now - e.queuedAt <= cfg.options.maxDeferredAgeSec * 1000
    ensures var r := End(s, Iteration(cfg, s, RepeatedPass(e, m, now), entered));
            r.mem.queue == [e] && r.mem.pendingRetry == (m.advances || s.mem.pendingRetry) && r.mem.processed == s.mem.processed
  {
    hide DrainRetry, Iteration;
    var s3 := ChargedFor(s, e, entered);
    RefundedReply(cfg, s3, e, m, now);
    OneEntryIteration(cfg, s, RepeatedPass(e, m, now), e, entered);
  }

  /** The state in which a one-entry batch is handed to the adapter. */
  function ChargedFor(s: State, e: Parked, entered: bool): (r: State) {
    var s1 := if entered then s else Transition(s, RetryingDeferred);
    WithQueue(Emit(s1, RetryStarted(1)), [e.(attempts := e.attempts + 1)])
  }

  lemma OneEntryIteration(cfg: Config, s: State, p: Pass, e: Parked, entered: bool)
    requires s.mem.queue == [e] && e.attempts < cfg.options.maxRetryAttempts
    requires p.now - e.queuedAt <= cfg.options.maxDeferredAgeSec * 1000
    requires var s3 := ChargedFor(s, e, entered); End(s3, DrainRetry(cfg, s3, p.reply)).mem.queue == [e]
    ensures var s3 := ChargedFor(s, e, entered);
            End(s, Iteration(cfg, s, p, entered)) == End(s3, DrainRetry(cfg, s3, p.reply))
  {
    hide Prune, Retire, RunBatch, DrainRetry, ChargedFor, Filter;
    var s3 := ChargedFor(s, e, entered);
    NothingToPrune(cfg, s, e, p);
    NothingToRetire(cfg, End(s3, DrainRetry(cfg, s3, p.reply)), e, p);
    OneEntryBatch(cfg, s, p.reply, e, entered);
    FilterOne(e, UnderBudget(cfg.options.maxRetryAttempts));
    var run := RunBatch(cfg, s, [e], p.reply, entered);
    assert Iteration(cfg, s, p, entered) == [] + run + Retire(cfg, End(s, run), p.afterExhausted);
    assert [] + run + [] == run;
  }

  lemma NothingToPrune(cfg: Config, s: State, e: Parked, p: Pass)
    requires s.mem.queue == [e] && p.now - e.queuedAt <= cfg.options.maxDeferredAgeSec * 1000
    ensures Prune(cfg, s, p.now, p.afterPrune) == []
  {
    FilterOne(e, Aged(p.now, cfg.options.maxDeferredAgeSec));
  }

  lemma NothingToRetire(cfg: Config, s: State, e: Parked, p: Pass)
    requires s.mem.queue == [e] && e.attempts < cfg.options.maxRetryAttempts
    ensures Retire(cfg, s, p.afterExhausted) == []
  {
    FilterOne(e, Spent(cfg.options.maxRetryAttempts));
  }

  lemma OneEntryBatch(cfg: Config, s: State, reply: seq<Delivery>, e: Parked, entered: bool)
    requires s.mem.queue == [e]
    ensures var s3 := ChargedFor(s, e, entered);
            End(s, RunBatch(cfg, s, [e], reply, entered)) == End(s3, DrainRetry(cfg, s3, reply))
  {
    hide DrainRetry, ChargedAll;
    ChargeOne(e);
    var s3 := ChargedFor(s, e, entered);
    EndAppend(s, (if entered then [] else [Transition(s, RetryingDeferred)]) + [s3], DrainRetry(cfg, s3, reply));
  }

  lemma ChargeOne(e: Parked)
    ensures ChargedAll([e], [e]) == [e.(attempts := e.attempts + 1)]
  {
    assert [e][1..] == [];
  }

  /** The reply of such a pass: the charge is taken back. */
  lemma RefundedReply(cfg: Config, s: State, e: Parked, m: Retried, now: int)
    requires s.mem.queue == [e.(attempts := e.attempts + 1)] && m.rumorId !in s.mem.processed
    requires m.first.Landed? && !m.second.Landed?
    ensures var p := RepeatedPass(e, m, now);
            var r := End(s, DrainRetry(cfg, s, p.reply));
            r.mem.queue == [e] && r.mem.pendingRetry == (m.advances || s.mem.pendingRetry) && r.mem.processed == s.mem.processed &&
            p.now == now && p.afterPrune.Landed? && p.afterExhausted.Landed?
  {
    hide AppendFact, AppendEvent, SeqOf;
    var p := RepeatedPass(e, m, now);
    assert Refunded([e.(attempts := e.attempts + 1)], e.factId) == [e];
    var s1 := End(s, OnRetrySignal(cfg, s, p.reply[0]));
    assert s1.mem.queue == [e] && s1.mem.processed == s.mem.processed && s1.mem.pendingRetry == s.mem.pendingRetry;
    if m.advances { TwoReplies(cfg, s, p.reply); } else { OneReply(cfg, s, p.reply); }
  }

  lemma OneReply(cfg: Config, s: State, ds: seq<Delivery>)
    requires |ds| == 1
    ensures End(s, DrainRetry(cfg, s, ds)) == End(s, OnRetrySignal(cfg, s, ds[0]))
  {
    hide OnRetrySignal;
    var t := OnRetrySignal(cfg, s, ds[0]);
    assert ds[1..] == [] && DrainRetry(cfg, s, ds) == t + [] && t + [] == t;
  }

  lemma FilterOne(e: Parked, t: Test)
    ensures Filter([e], t) == if Passes(e, t) then [e] else []
  {
    assert [e][1..] == [];
  }

  lemma TwoReplies(cfg: Config, s: State, ds: seq<Delivery>)
    requires |ds| == 2
    ensures var s1 := End(s, OnRetrySignal(cfg, s, ds[0]));
            End(s, DrainRetry(cfg, s, ds)) == End(s1, OnRetrySignal(cfg, s1, ds[1]))
  {
    hide OnRetrySignal;
    var t1 := OnRetrySignal(cfg, s, ds[0]);
    var s1 := End(s, t1);
    var t2 := OnRetrySignal(cfg, s1, ds[1]);
    assert ds[1..][0] == ds[1] && ds[1..][1..] == [];
    assert DrainRetry(cfg, s1, ds[1..]) == t2 + DrainRetry(cfg, End(s1, t2), []) == t2;
    EndAppend(s, t1, t2);
  }
}
