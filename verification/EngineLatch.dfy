/** A retry that was asked for is made: the request survives until the engine goes
    live, the first entry into live makes a pass over what is parked, and no
    request is taken back otherwise (src/engine/receive-engine.ts:927-960,
    1192-1238, 1326-1340). */

module EngineLatch {
  import opened Wrappers
  import opened TaskDomain
  import opened EngineTypes
  import opened EventLog
  import opened DeferredQueue
  import opened EngineSpec
  import opened EngineRetry
  import opened EngineMirrors

  // ------------------------------------------------ the request is kept

  lemma SignalKeepsLatch(cfg: Config, s: State, d: Delivery, passes: seq<Pass>)
    requires ValidOptions(cfg.options) && !s.mem.lifecycle.Live?
    ensures var r := End(s, ProcessSignal(cfg, s, d, passes));
            r.mem.lifecycle == s.mem.lifecycle && (d.signal.EpochAdvanced? || s.mem.pendingRetry ==> r.mem.pendingRetry)
  {
    hide AppendFact, AppendEvent, SeqOf, FindFact, Holds, Park, Evicted, Unpark, Without, Ids, RetryLoop;
    if d.signal.Message? { MessageKeepsLatch(cfg, s, d); }
  }

  lemma MessageKeepsLatch(cfg: Config, s: State, d: Delivery)
    requires d.signal.Message?
    ensures var r := End(s, OnMessage(cfg, s, d));
            r.mem.lifecycle == s.mem.lifecycle && r.mem.pendingRetry == s.mem.pendingRetry
  {
    hide AppendFact, AppendEvent, SeqOf, Holds, Unpark, Without, Ids;
  }

  lemma CommandKeepsLatch(cfg: Config, s: State, c: Command)
    requires ValidOptions(cfg.options) && !s.mem.lifecycle.Live? && !(c.Enter? && c.phase.Live?)
    ensures var r := End(s, OnCommand(cfg, s, c));
            !r.mem.lifecycle.Live? &&
            (s.mem.pendingRetry || (c.Deliver? && c.delivery.signal.EpochAdvanced?) ==> r.mem.pendingRetry)
  {
    hide ProcessSignal, AppendEvent;
    if c.Deliver? { SignalKeepsLatch(cfg, s, c.delivery, c.passes); }
  }

  /** An epoch advance that is handled before live is asked for until live. */
  lemma {:induction false} RequestIsKept(cfg: Config, s: State, cs: seq<Command>)
    requires ValidOptions(cfg.options) && !s.mem.lifecycle.Live? && forall c :: c in cs ==> !(c.Enter? && c.phase.Live?)
    ensures var r := End(s, OnCommands(cfg, s, cs));
            !r.mem.lifecycle.Live? &&
            (s.mem.pendingRetry || (exists c :: c in cs && c.Deliver? && c.delivery.signal.EpochAdvanced?) ==> r.mem.pendingRetry)
    decreases cs
  {
    hide OnCommand;
    if |cs| > 0 {
      var t := OnCommand(cfg, s, cs[0]);
      CommandKeepsLatch(cfg, s, cs[0]);
      RequestIsKept(cfg, End(s, t), cs[1..]);
      EndAppend(s, t, OnCommands(cfg, End(s, t), cs[1..]));
      assert cs == [cs[0]] + cs[1..];
    }
  }

  // ------------------------------------------------ one pass

  /** Under budget and not too old. */
  predicate Due(cfg: Config, e: Parked, now: int) {
    e.attempts < cfg.options.maxRetryAttempts && now - e.queuedAt <= cfg.options.maxDeferredAgeSec * 1000
  }

  lemma {:induction false} Kept(q: seq<Parked>, t: Test)
    ensures forall e :: e in Filter(q, t) <==> e in q && Passes(e, t)
  {
    if |q| > 0 { Kept(q[1..], t); }
  }

  /** An entry expires exactly when it is too old. */
  lemma ExpiresExactly(q: seq<Parked>, now: int, ageSec: int)
    ensures forall e :: e in Expired(q, now, ageSec) <==> e in q && now - e.queuedAt > ageSec * 1000
    ensures forall e :: e in Fresh(q, now, ageSec) <==> e in q && now - e.queuedAt <= ageSec * 1000
  {
    Kept(q, Aged(now, ageSec));
    Kept(q, Young(now, ageSec));
  }

  /** It is retried exactly while it has attempts left, and retired exactly when it has none. */
  lemma EligibleExactly(q: seq<Parked>, budget: int)
    ensures forall e :: e in Eligible(q, budget) <==> e in q && e.attempts < budget
    ensures forall e :: e in Exhausted(q, budget) <==> e in q && e.attempts >= budget
  {
    Kept(q, UnderBudget(budget));
    Kept(q, Spent(budget));
  }

  /** What a prune leaves, and whom it tells. */
  lemma PruneLeavesFresh(cfg: Config, s: State, now: int, w: Write)
    ensures var r := End(s, Prune(cfg, s, now, w));
            r.mem == s.mem.(queue := Fresh(s.mem.queue, now, cfg.options.maxDeferredAgeSec)) &&
            r.out == s.out + Told(Expired(s.mem.queue, now, cfg.options.maxDeferredAgeSec), DeferredTtlExpired)
  {
    var gone := Expired(s.mem.queue, now, cfg.options.maxDeferredAgeSec);
    if |gone| > 0 {
      RejectAllTells(Prune(cfg, s, now, w)[1], gone, DeferredTtlExpired);
    } else {
      NothingExpired(s.mem.queue, now, cfg.options.maxDeferredAgeSec);
      assert s.out + [] == s.out;
    }
  }

  lemma {:induction false} NothingExpired(q: seq<Parked>, now: int, ageSec: int)
    requires |Expired(q, now, ageSec)| == 0
    ensures Fresh(q, now, ageSec) == q
  {
    if |q| > 0 { NothingExpired(q[1..], now, ageSec); }
  }

  /** One rejection for each entry, in order. */
  function Told(q: seq<Parked>, why: RejectReason): (r: seq<Output>)
    ensures |r| == |q| && forall i :: 0 <= i < |q| ==> r[i] == Rejected(q[i].factId, why)
  {
    seq(|q|, i requires 0 <= i < |q| => Rejected(q[i].factId, why))
  }

  lemma {:induction false} RejectAllTells(s: State, q: seq<Parked>, why: RejectReason)
    ensures RejectAll(s, q, why) == s.(out := s.out + Told(q, why))
    decreases q
  {
    if |q| == 0 {
      assert s.out + [] == s.out;
    } else {
      var s1 := Emit(s, Rejected(q[0].factId, why));
      RejectAllTells(s1, q[1..], why);
      assert RejectAll(s, q, why) == RejectAll(s1, q[1..], why);
      ToldCons(q, why);
      hide RejectAll, Told;
      ConcatAssociates(s.out, [Rejected(q[0].factId, why)], Told(q[1..], why));
    }
  }

  lemma ToldCons(q: seq<Parked>, why: RejectReason)
    requires |q| > 0
    ensures Told(q, why) == [Rejected(q[0].factId, why)] + Told(q[1..], why)
  {
  }

  /** The state in which the batch of a pass is handed over. */
  function HandedOver(cfg: Config, s: State, p: Pass, entered: bool): (r: State) {
    var s1 := End(s, Prune(cfg, s, p.now, p.afterPrune));
    var batch := Eligible(s1.mem.queue, cfg.options.maxRetryAttempts);
    var s2 := if entered then s1 else Transition(s1, RetryingDeferred);
    WithQueue(Emit(s2, RetryStarted(|batch|)), ChargedAll(s1.mem.queue, batch))
  }

  /** A pass over what is due: the prune, the announcement with the size of the
      batch, and the charge of one attempt to each entry in it, are on the trace. */
  lemma PassIsMade(cfg: Config, s: State, p: Pass, entered: bool, e: Parked)
    requires UniqueIds(s.mem.queue) && e in s.mem.queue && Due(cfg, e, p.now)
    ensures var u := HandedOver(cfg, s, p, entered);
            u in Iteration(cfg, s, p, entered) && e.(attempts := e.attempts + 1) in u.mem.queue &&
            |u.out| > |s.out| && s.out <= u.out && u.out[|u.out| - 1].RetryStarted? && u.out[|u.out| - 1].count > 0
  {
    var s1 := End(s, Prune(cfg, s, p.now, p.afterPrune));
    PruneLeavesFresh(cfg, s, p.now, p.afterPrune);
    ExpiresExactly(s.mem.queue, p.now, cfg.options.maxDeferredAgeSec);
    var q := s1.mem.queue;
    var batch := Eligible(q, cfg.options.maxRetryAttempts);
    EligibleExactly(q, cfg.options.maxRetryAttempts);
    FilterUnique(s.mem.queue, Young(p.now, cfg.options.maxDeferredAgeSec));
    FilterUnique(q, UnderBudget(cfg.options.maxRetryAttempts));
    assert e in batch;
    ChargedMember(q, batch, e);
    hide Prune, Retire, ChargedAll, Filter, DrainRetry;
    var u := HandedOver(cfg, s, p, entered);
    var run := RunBatch(cfg, s1, batch, p.reply, entered);
    assert u in run by { assert run[if entered then 0 else 1] == u; }
  }

  lemma ChargedMember(q: seq<Parked>, batch: seq<Parked>, e: Parked)
    requires UniqueIds(batch) && e in q && e in batch
    ensures e.(attempts := e.attempts + 1) in ChargedAll(q, batch)
  {
    ChargedAllExactly(q, batch);
    var i :| 0 <= i < |q| && q[i] == e;
    HoldsMember(batch, e.factId);
    assert ChargedAll(q, batch)[i] == e.(attempts := e.attempts + 1);
  }

  /** A pass that is not made leaves nothing parked. */
  lemma NothingDueEmpties(cfg: Config, s: State, p: Pass, entered: bool)
    requires UniqueIds(s.mem.queue) && !EntersIn(cfg, s, p)
    ensures End(s, Iteration(cfg, s, p, entered)).mem.queue == []
  {
    var t1 := Prune(cfg, s, p.now, p.afterPrune);
    var s1 := End(s, t1);
    PruneLeaves(cfg, s, p.now, p.afterPrune);
    EligibleExactly(s1.mem.queue, cfg.options.maxRetryAttempts);
    RetireLeaves(cfg, s1, p.afterExhausted);
    hide Prune, Retire;
    assert t1 + [] == t1;
    EndAppend(s, t1, Retire(cfg, s1, p.afterExhausted));
    var q := End(s1, Retire(cfg, s1, p.afterExhausted)).mem.queue;
    assert forall e :: e in s1.mem.queue ==> e.attempts >= cfg.options.maxRetryAttempts;
    if |q| > 0 { FirstIsIn(q); }
  }

  lemma FirstIsIn<T>(q: seq<T>)
    requires |q| > 0
    ensures exists x :: x in q
  {
    assert q[0] in q;
  }

  // ------------------------------------------------ going live

  /** What the loop goes through: its first turn, the latch, and what follows. */
  lemma LoopShape(cfg: Config, s: State, passes: seq<Pass>, entered: bool) returns (rest: seq<State>)
    requires ValidOptions(cfg.options) && |passes| > 0
    ensures var it := Iteration(cfg, s, passes[0], entered);
            var s1 := End(s, it);
            var s2 := Unlatched(s1);
            var entered' := entered || EntersIn(cfg, s, passes[0]);
            RetryLoop(cfg, s, passes, entered) == it + ([s2] + rest) &&
            rest == if s1.mem.pendingRetry && |s1.mem.queue| > 0 then RetryLoop(cfg, s2, passes[1..], entered')
                    else if entered' then [Transition(s2, Live)] else []
  {
    hide Iteration, EntersIn, Transition;
    var it := Iteration(cfg, s, passes[0], entered);
    var s2 := Unlatched(End(s, it));
    var entered' := entered || EntersIn(cfg, s, passes[0]);
    rest := if End(s, it).mem.pendingRetry && |End(s, it).mem.queue| > 0 then RetryLoop(cfg, s2, passes[1..], entered')
            else if entered' then [Transition(s2, Live)] else [];
    ConcatAssociates(it, [s2], rest);
  }

  lemma InFront(t: seq<State>, a: seq<State>, b: seq<State>, u: State) returns (k: nat)
    requires t == a + b && u in a
    ensures k < |a| && k < |t| && t[k] == u
  {
    k :| 0 <= k < |a| && a[k] == u;
  }

  /** The first entry into live after a request makes a pass over what is due: it
      is announced after live and recovered, and charges the entry one attempt. */
  lemma LiveMakesThePass(cfg: Config, s: State, passes: seq<Pass>, e: Parked)
    requires ValidOptions(cfg.options) && s.mem.pendingRetry && UniqueIds(s.mem.queue) && e in s.mem.queue
    requires |passes| > 0 && Due(cfg, e, passes[0].now)
    ensures var t := OnEnter(cfg, s, Live, passes);
            exists k :: 0 <= k < |t| && Retries(s, t[k], e) && t[k].out <= End(s, t).out
  {
    var s3 := LiveLoop(cfg, s, passes);
    hide OnEnter, RetryLoop, HandedOver, UniqueIds, Due;
    StaysOnRecord(cfg, s3, passes, false, e);
    var i := LoopMakesThePass(cfg, s3, passes, e);
    RetriesSince(s, s3, RetryLoop(cfg, s3, passes, false)[i], e);
    hide Retries;
    assert OnEnter(cfg, s, Live, passes)[i + 2] == RetryLoop(cfg, s3, passes, false)[i];
  }

  /** The entry into live, up to its loop. */
  lemma LiveLoop(cfg: Config, s: State, passes: seq<Pass>) returns (s3: State)
    requires ValidOptions(cfg.options) && s.mem.pendingRetry && |s.mem.queue| > 0
    ensures s3.out == s.out + [StateChanged(Live), Recovered] && s3.mem.queue == s.mem.queue
    ensures var t := OnEnter(cfg, s, Live, passes);
            var loop := RetryLoop(cfg, s3, passes, false);
            |t| == |loop| + 2 && t[2..] == loop && End(s, t) == End(s3, loop)
  {
    hide RetryLoop;
    s3 := Unlatched(Emit(Transition(s, Live), Recovered));
    var loop := RetryLoop(cfg, s3, passes, false);
    assert OnEnter(cfg, s, Live, passes) == [Transition(s, Live), s3] + loop;
    EndAppend(s, [Transition(s, Live), s3], loop);
    assert s.out + [StateChanged(Live)] + [Recovered] == s.out + [StateChanged(Live), Recovered];
  }

  /** What a pass has announced up to its batch stays announced. */
  lemma StaysOnRecord(cfg: Config, s: State, passes: seq<Pass>, entered: bool, e: Parked)
    requires ValidOptions(cfg.options) && |passes| > 0 && UniqueIds(s.mem.queue) && e in s.mem.queue && Due(cfg, e, passes[0].now)
    ensures HandedOver(cfg, s, passes[0], entered).out <= End(s, RetryLoop(cfg, s, passes, entered)).out
  {
    var p := passes[0];
    var u := HandedOver(cfg, s, p, entered);
    var b := BaseAt(u);
    var s2 := AfterBatch(cfg, s, p, entered, e);
    DrainRetryMirrors(cfg, u, p.reply, b);
    EndMirrors(u, DrainRetry(cfg, u, p.reply), b);
    PruneMirrors(cfg, s2, p.now, p.afterExhausted, b);
    EndMirrors(s2, Retire(cfg, s2, p.afterExhausted), b);
    hide DrainRetry, Retire, Mirrors, HandedOver, BaseAt, UniqueIds;
    var it := Iteration(cfg, s, p, entered);
    var s3 := Unlatched(End(s, it));
    SameMirrors(End(s, it), s3, b);
    var rest := LoopShape(cfg, s, passes, entered);
    RetryLoopMirrors(cfg, s3, passes[1..], entered || EntersIn(cfg, s, p), b);
    TransitionMirrors(s3, Live, b);
    hide Iteration, RetryLoop;
    EndMirrors(s3, rest, b);
    EndAppend(s, it, [s3] + rest);
    EndAppend(End(s, it), [s3], rest);
    MirrorsGrows(End(s3, rest), b);
  }

  lemma MirrorsGrows(s: State, b: Base)
    requires Mirrors(s, b)
    ensures b.out <= s.out
  {
  }

  /** Where the batch of a pass has been answered. */
  lemma AfterBatch(cfg: Config, s: State, p: Pass, entered: bool, e: Parked) returns (r: State)
    requires UniqueIds(s.mem.queue) && e in s.mem.queue && Due(cfg, e, p.now)
    ensures var u := HandedOver(cfg, s, p, entered);
            r == End(u, DrainRetry(cfg, u, p.reply)) &&
            End(s, Iteration(cfg, s, p, entered)) == End(r, Retire(cfg, r, p.afterExhausted))
  {
    var t1 := Prune(cfg, s, p.now, p.afterPrune);
    var s1 := End(s, t1);
    var batch := Eligible(s1.mem.queue, cfg.options.maxRetryAttempts);
    DueIsInBatch(cfg, s, p, e);
    hide Prune, Retire, Eligible, DrainRetry, UniqueIds, Due;
    var u := HandedOver(cfg, s, p, entered);
    r := End(u, DrainRetry(cfg, u, p.reply));
    var run := RunBatch(cfg, s1, batch, p.reply, entered);
    BatchEnds(cfg, s1, batch, p.reply, entered, u);
    hide RunBatch, HandedOver;
    EndAppend(s, t1, run);
    EndAppend(s, t1 + run, Retire(cfg, r, p.afterExhausted));
  }

  lemma DueIsInBatch(cfg: Config, s: State, p: Pass, e: Parked)
    requires e in s.mem.queue && Due(cfg, e, p.now)
    ensures |Eligible(End(s, Prune(cfg, s, p.now, p.afterPrune)).mem.queue, cfg.options.maxRetryAttempts)| > 0
  {
    var s1 := End(s, Prune(cfg, s, p.now, p.afterPrune));
    PruneLeavesFresh(cfg, s, p.now, p.afterPrune);
    ExpiresExactly(s.mem.queue, p.now, cfg.options.maxDeferredAgeSec);
    EligibleExactly(s1.mem.queue, cfg.options.maxRetryAttempts);
    hide Prune;
    assert e in Eligible(s1.mem.queue, cfg.options.maxRetryAttempts);
  }

  lemma BatchEnds(cfg: Config, s: State, batch: seq<Parked>, reply: seq<Delivery>, entered: bool, u: State)
    requires var s1 := if entered then s else Transition(s, RetryingDeferred);
             u == WithQueue(Emit(s1, RetryStarted(|batch|)), ChargedAll(s.mem.queue, batch))
    ensures End(s, RunBatch(cfg, s, batch, reply, entered)) == End(u, DrainRetry(cfg, u, reply))
  {
    hide ChargedAll, DrainRetry;
    var front := (if entered then [] else [Transition(s, RetryingDeferred)]) + [u];
    assert RunBatch(cfg, s, batch, reply, entered) == front + DrainRetry(cfg, u, reply);
    EndAppend(s, front, DrainRetry(cfg, u, reply));
  }

  lemma RetriesSince(s: State, s3: State, u: State, e: Parked)
    requires s3.out == s.out + [StateChanged(Live), Recovered] && s3.out <= u.out && |u.out| > |s3.out|
    requires u.out[|u.out| - 1].RetryStarted? && u.out[|u.out| - 1].count > 0 && e.(attempts := e.attempts + 1) in u.mem.queue
    ensures Retries(s, u, e)
  {
    assert u.out[..|s3.out|] == s3.out;
    assert u.out[|s.out|] == s3.out[|s.out|] && u.out[|s.out| + 1] == s3.out[|s.out| + 1];
    assert s.out == s3.out[..|s.out|] == u.out[..|s.out|];
  }

  /** Since `s` the engine has gone live, recovered, and handed over a batch in
      which `e` has one attempt more. */
  predicate Retries(s: State, u: State, e: Parked) {
    |u.out| >= |s.out| + 3 && s.out <= u.out && u.out[|s.out|] == StateChanged(Live) && u.out[|s.out| + 1] == Recovered &&
    u.out[|u.out| - 1].RetryStarted? && u.out[|u.out| - 1].count > 0 && e.(attempts := e.attempts + 1) in u.mem.queue
  }

  /** An epoch advance while live makes the pass at once. */
  lemma LiveEpochMakesThePass(cfg: Config, s: State, d: Delivery, passes: seq<Pass>, e: Parked)
    requires ValidOptions(cfg.options) && s.mem.lifecycle.Live? && d.signal.EpochAdvanced? && UniqueIds(s.mem.queue) && e in s.mem.queue
    requires |passes| > 0 && Due(cfg, e, passes[0].now)
    ensures var t := ProcessSignal(cfg, s, d, passes);
            exists k :: 0 <= k < |t| && Charges(s, t[k], e)
  {
    hide ProcessSignal, RetryLoop, Due, UniqueIds, HandedOver;
    var s1 := EpochLoop(cfg, s, d, passes);
    var i := LoopMakesThePass(cfg, s1, passes, e);
    assert Charges(s, RetryLoop(cfg, s1, passes, false)[i], e);
    hide Charges;
    assert ProcessSignal(cfg, s, d, passes)[i + 1] == RetryLoop(cfg, s1, passes, false)[i];
  }

  /** Since `s` a batch has been handed over in which `e` has one attempt more. */
  predicate Charges(s: State, u: State, e: Parked) {
    |u.out| > |s.out| && s.out <= u.out && u.out[|u.out| - 1].RetryStarted? && u.out[|u.out| - 1].count > 0 &&
    e.(attempts := e.attempts + 1) in u.mem.queue
  }

  /** The epoch advance while live, up to its loop. */
  lemma EpochLoop(cfg: Config, s: State, d: Delivery, passes: seq<Pass>) returns (s1: State)
    requires ValidOptions(cfg.options) && s.mem.lifecycle.Live? && d.signal.EpochAdvanced? && |s.mem.queue| > 0
    ensures s.out <= s1.out && |s1.out| > |s.out| && s1.mem.queue == s.mem.queue
    ensures ProcessSignal(cfg, s, d, passes) == [s1] + RetryLoop(cfg, s1, passes, false)
  {
    hide RetryLoop;
    s1 := Emit(s.(mem := s.mem.(lastEpoch := Some(d.signal.newEpoch))), GroupEpochAdvanced(d.signal.newEpoch, d.signal.prevEpoch));
  }

  lemma LoopMakesThePass(cfg: Config, s: State, passes: seq<Pass>, e: Parked) returns (i: nat)
    requires ValidOptions(cfg.options) && UniqueIds(s.mem.queue) && e in s.mem.queue && |passes| > 0 && Due(cfg, e, passes[0].now)
    ensures var t := RetryLoop(cfg, s, passes, false);
            i < |t| && t[i] == HandedOver(cfg, s, passes[0], false) && s.out <= t[i].out && |t[i].out| > |s.out| &&
            t[i].out[|t[i].out| - 1].RetryStarted? && t[i].out[|t[i].out| - 1].count > 0 &&
            e.(attempts := e.attempts + 1) in t[i].mem.queue
  {
    PassIsMade(cfg, s, passes[0], false, e);
    var rest := LoopShape(cfg, s, passes, false);
    hide RetryLoop, Iteration, EntersIn, HandedOver, UniqueIds, Unlatched, Due;
    var it := Iteration(cfg, s, passes[0], false);
    i := InFront(RetryLoop(cfg, s, passes, false), it, [Unlatched(End(s, it))] + rest, HandedOver(cfg, s, passes[0], false));
  }

  /** A pass retires exactly the entries without attempts left, and tells each. */
  lemma RetiresExactly(cfg: Config, s: State, w: Write)
    requires UniqueIds(s.mem.queue)
    ensures var r := End(s, Retire(cfg, s, w));
            (forall e :: e in r.mem.queue <==> e in s.mem.queue && e.attempts < cfg.options.maxRetryAttempts) &&
            r.out == s.out + Told(Exhausted(s.mem.queue, cfg.options.maxRetryAttempts), RetryExhausted)
  {
    var gone := Exhausted(s.mem.queue, cfg.options.maxRetryAttempts);
    EligibleExactly(s.mem.queue, cfg.options.maxRetryAttempts);
    if |gone| > 0 {
      RejectAllTells(Retire(cfg, s, w)[1], gone, RetryExhausted);
      UnparkedAllMembers(s.mem.queue, gone);
      forall e | e in s.mem.queue ensures Holds(gone, e.factId) <==> e in gone { OneOfThem(s.mem.queue, gone, e); }
    } else {
      assert s.out + [] == s.out;
      forall e | e in s.mem.queue ensures e.attempts < cfg.options.maxRetryAttempts { assert e !in gone; }
    }
  }

  lemma OneOfThem(q: seq<Parked>, gone: seq<Parked>, e: Parked)
    requires UniqueIds(q) && e in q && forall x :: x in gone ==> x in q
    ensures Holds(gone, e.factId) <==> e in gone
  {
    HoldsMember(gone, e.factId);
    if Holds(gone, e.factId) {
      var x :| x in gone && x.factId == e.factId;
      assert x in q;
    }
  }

  /** From the epoch advance to the pass: whatever is handled in between. */
  lemma RequestIsHonoured(cfg: Config, s: State, before: seq<Command>, passes: seq<Pass>, e: Parked)
    requires ValidOptions(cfg.options) && !s.mem.lifecycle.Live? && forall c :: c in before ==> !(c.Enter? && c.phase.Live?)
    requires exists c :: c in before && c.Deliver? && c.delivery.signal.EpochAdvanced?
    requires var s1 := End(s, OnCommands(cfg, s, before));
             UniqueIds(s1.mem.queue) && e in s1.mem.queue && |passes| > 0 && Due(cfg, e, passes[0].now)
    ensures var s1 := End(s, OnCommands(cfg, s, before));
            var t := OnCommand(cfg, s1, Enter(Live, passes));
            exists k :: 0 <= k < |t| && Retries(s1, t[k], e) && t[k].out <= End(s1, t).out
  {
    RequestIsKept(cfg, s, before);
    EntersLive(cfg, End(s, OnCommands(cfg, s, before)), passes);
    hide OnCommands, OnCommand, OnEnter, Retries, UniqueIds, Due;
    LiveMakesThePass(cfg, End(s, OnCommands(cfg, s, before)), passes, e);
  }

  lemma EntersLive(cfg: Config, s: State, passes: seq<Pass>)
    requires ValidOptions(cfg.options)
    ensures OnCommand(cfg, s, Enter(Live, passes)) == OnEnter(cfg, s, Live, passes)
  {
    hide OnEnter;
  }

  // ------------------------------------------------ no request is dropped

  /** Between two states of a loop the request has been taken back. */
  predicate TakenBack(a: State, b: State) {
    a.mem.pendingRetry && !b.mem.pendingRetry
  }

  /** At `u` a request may be taken back: nothing is parked, or a pass is announced
      later on the trace, or nothing is left parked at its end. */
  predicate Answered(u: State, t: seq<State>, end: State) {
    u.mem.queue == [] || end.mem.queue == [] ||
    exists k :: 0 <= k < |t| && u.out < t[k].out && t[k].out[|t[k].out| - 1].RetryStarted?
  }

  /** One turn of the loop that goes on has its request answered by the next turn. */
  lemma NextTurnAnswers(cfg: Config, s: State, passes: seq<Pass>, entered: bool)
    requires ValidOptions(cfg.options) && UniqueIds(s.mem.queue) && |passes| > 0
    requires Completes(cfg, s, passes, entered)
    ensures var t := RetryLoop(cfg, s, passes, entered);
            Answered(s, t, End(s, t))
  {
    var p := passes[0];
    var it := Iteration(cfg, s, p, entered);
    var rest := LoopShape(cfg, s, passes, entered);
    var t := RetryLoop(cfg, s, passes, entered);
    hide RetryLoop, Completes;
    if EntersIn(cfg, s, p) {
      var e := SomeoneIsDue(cfg, s, p);
      PassIsMade(cfg, s, p, entered, e);
      hide Iteration, HandedOver, EntersIn, UniqueIds;
      var u := HandedOver(cfg, s, p, entered);
      var i := InFront(t, it, [Unlatched(End(s, it))] + rest, u);
      assert s.out < u.out;
    } else {
      NothingDueEmpties(cfg, s, p, entered);
      hide Iteration, EntersIn, UniqueIds;
      NothingLeft(t, it, s, rest);
    }
  }

  lemma NothingLeft(t: seq<State>, it: seq<State>, s: State, rest: seq<State>)
    requires End(s, it).mem.queue == []
    requires t == it + ([Unlatched(End(s, it))] + rest) && (rest == [] || rest == [Transition(Unlatched(End(s, it)), Live)])
    ensures End(s, t).mem.queue == []
  {
  }

  lemma SomeoneIsDue(cfg: Config, s: State, p: Pass) returns (e: Parked)
    requires EntersIn(cfg, s, p)
    ensures e in s.mem.queue && Due(cfg, e, p.now)
  {
    var s1 := End(s, Prune(cfg, s, p.now, p.afterPrune));
    PruneLeavesFresh(cfg, s, p.now, p.afterPrune);
    ExpiresExactly(s.mem.queue, p.now, cfg.options.maxDeferredAgeSec);
    EligibleExactly(s1.mem.queue, cfg.options.maxRetryAttempts);
    e := Eligible(s1.mem.queue, cfg.options.maxRetryAttempts)[0];
    assert e in Eligible(s1.mem.queue, cfg.options.maxRetryAttempts);
  }

  /** No request is dropped by the loop: wherever it is taken back, nothing is
      parked there, or a pass follows, or nothing is parked at the end. */
  lemma {:induction false} NoRequestIsDropped(cfg: Config, s: State, passes: seq<Pass>, entered: bool, k: nat)
    requires ValidOptions(cfg.options) && UniqueIds(s.mem.queue) && (forall p :: p in passes ==> NoRefunds(p.reply))
    requires Completes(cfg, s, passes, entered)
    requires var t := RetryLoop(cfg, s, passes, entered); 0 < k < |t| && TakenBack(t[k - 1], t[k])
    ensures var t := RetryLoop(cfg, s, passes, entered);
            Answered(t[k], t[k..], End(s, t))
    decreases passes
  {
    hide Iteration, EntersIn, UniqueIds, NoRefunds, RetryLoop, TakenBack, Answered, Latches, End, Unlatched, Transition;
    var rest := TurnFacts(cfg, s, passes, entered);
    var it := Iteration(cfg, s, passes[0], entered);
    var s1 := End(s, it);
    var s2 := Unlatched(s1);
    var t := RetryLoop(cfg, s, passes, entered);
    var entered' := entered || EntersIn(cfg, s, passes[0]);
    hide Completes;
    if s1.mem.pendingRetry && |s1.mem.queue| > 0 {
      GoesOn(s, t, it, s2, rest, k);
      EndOfRest(s, s2, it, rest);
      if k == |it| {
        NextTurnAnswers(cfg, s2, passes[1..], entered');
        AnsweredLater(s2, [s2], rest, End(s2, rest));
      } else {
        NoRequestIsDropped(cfg, s2, passes[1..], entered', k - 1 - |it|);
      }
    } else {
      LastTurnOf(s, t, it, s1, s2, rest, k);
    }
  }

  lemma TurnFacts(cfg: Config, s: State, passes: seq<Pass>, entered: bool) returns (rest: seq<State>)
    requires ValidOptions(cfg.options) && UniqueIds(s.mem.queue) && |passes| > 0 && (forall p :: p in passes ==> NoRefunds(p.reply))
    requires Completes(cfg, s, passes, entered)
    ensures var it := Iteration(cfg, s, passes[0], entered);
            var s1 := End(s, it);
            var s2 := Unlatched(s1);
            var entered' := entered || EntersIn(cfg, s, passes[0]);
            var again := s1.mem.pendingRetry && |s1.mem.queue| > 0;
            RetryLoop(cfg, s, passes, entered) == it + ([s2] + rest) && Latches(s, it) && !s2.mem.pendingRetry &&
            UniqueIds(s2.mem.queue) && (again ==> |passes| > 1 && Completes(cfg, s2, passes[1..], entered')) &&
            (again ==> rest == RetryLoop(cfg, s2, passes[1..], entered')) &&
            (!again ==> rest == [] || rest == [Transition(s2, Live)])
  {
    LastPass(cfg, s, passes[0], entered);
    IterationTakesNothingBack(cfg, s, passes[0], entered);
    rest := LoopShape(cfg, s, passes, entered);
    hide Iteration, EntersIn, UniqueIds, NoRefunds, RetryLoop, Latches;
  }

  lemma GoesOn(s: State, t: seq<State>, it: seq<State>, s2: State, rest: seq<State>, k: nat)
    requires t == it + ([s2] + rest) && !s2.mem.pendingRetry && Latches(s, it)
    requires 0 < k < |t| && TakenBack(t[k - 1], t[k])
    ensures k >= |it| && (k == |it| ==> t[k] == s2 && t[k..] == [s2] + rest)
    ensures k > |it| ==>
      k - 1 - |it| > 0 && rest[k - 2 - |it|] == t[k - 1] && rest[k - 1 - |it|] == t[k] && t[k..] == rest[k - 1 - |it|..]
  {
    assert forall j :: 0 <= j < |it| ==> t[j] == it[j];
    assert t[|it|] == s2;
  }

  lemma EndOfRest(s: State, s2: State, it: seq<State>, rest: seq<State>)
    ensures End(s, it + ([s2] + rest)) == End(s2, rest)
  {
  }

  lemma LastTurnOf(s: State, t: seq<State>, it: seq<State>, s1: State, s2: State, rest: seq<State>, k: nat)
    requires s1 == End(s, it) && s2 == Unlatched(s1) && !(s1.mem.pendingRetry && |s1.mem.queue| > 0)
    requires t == it + ([s2] + rest) && (rest == [] || rest == [Transition(s2, Live)])
    requires 0 < k < |t| && TakenBack(t[k - 1], t[k]) && Latches(s, it)
    ensures Answered(t[k], t[k..], End(s, t))
  {
    if rest == [] { assert t == it + [s2]; } else { assert t == it + [s2] + [Transition(s2, Live)]; }
    LastTurn(s, t, it, s1, s2, k);
  }

  /** The loop's last turn takes nothing back from an entry that is parked. */
  lemma LastTurn(s: State, t: seq<State>, it: seq<State>, s1: State, s2: State, k: nat)
    requires s1 == End(s, it) && s2 == Unlatched(s1) && !(s1.mem.pendingRetry && |s1.mem.queue| > 0)
    requires t == it + [s2] || t == it + [s2] + [Transition(s2, Live)]
    requires 0 < k < |t| && TakenBack(t[k - 1], t[k])
    requires forall j :: 0 < j < |it| ==> !TakenBack(it[j - 1], it[j])
    ensures Answered(t[k], t[k..], End(s, t))
  {
    assert forall j :: 0 <= j < |it| ==> t[j] == it[j];
    assert t[|it|] == s2;
    if k == |it| { assert t[k - 1] == s1; }
  }

  lemma AnsweredLater(u: State, a: seq<State>, b: seq<State>, end: State)
    requires Answered(u, b, end)
    ensures Answered(u, a + b, end)
  {
    if k :| 0 <= k < |b| && u.out < b[k].out && b[k].out[|b[k].out| - 1].RetryStarted? { assert (a + b)[|a| + k] == b[k]; }
  }

  // ------------------------------------------------ only the loop's turn takes it back

  predicate Latches(s: State, t: seq<State>) {
    (|t| > 0 ==> !TakenBack(s, t[0])) && forall j :: 0 < j < |t| ==> !TakenBack(t[j - 1], t[j])
  }

  lemma LatchesAppend(s: State, a: seq<State>, b: seq<State>)
    requires Latches(s, a) && Latches(End(s, a), b)
    ensures Latches(s, a + b)
  {
    forall j | 0 < j < |a + b| ensures !TakenBack((a + b)[j - 1], (a + b)[j]) {
      if j == |a| { assert (a + b)[j] == b[0]; } else if j > |a| { assert (a + b)[j] == b[j - |a|]; }
    }
  }

  lemma RetrySignalLatches(cfg: Config, s: State, d: Delivery)
    ensures Latches(s, OnRetrySignal(cfg, s, d))
  {
    hide AppendFact, AppendEvent, SeqOf, Unpark, Without, Ids, Refunded, OnRetryMessage;
    if d.signal.Message? { RetryMessageLatches(cfg, s, d); }
  }

  lemma RetryMessageLatches(cfg: Config, s: State, d: Delivery)
    requires d.signal.Message?
    ensures Latches(s, OnRetryMessage(cfg, s, d))
  {
    hide AppendFact, AppendEvent, SeqOf, Unpark, Without, Ids, Refunded;
  }

  lemma {:induction false} DrainRetryLatches(cfg: Config, s: State, ds: seq<Delivery>)
    ensures Latches(s, DrainRetry(cfg, s, ds))
    decreases ds
  {
    hide OnRetrySignal, TakenBack;
    if |ds| > 0 {
      var t := OnRetrySignal(cfg, s, ds[0]);
      RetrySignalLatches(cfg, s, ds[0]);
      DrainRetryLatches(cfg, End(s, t), ds[1..]);
      LatchesAppend(s, t, DrainRetry(cfg, End(s, t), ds[1..]));
    }
  }

  lemma PruneLatches(cfg: Config, s: State, now: int, w: Write)
    ensures Latches(s, Prune(cfg, s, now, w)) && Latches(s, Retire(cfg, s, w))
  {
    hide Fresh, Expired, Exhausted, UnparkedAll, Ids, IdSet, RejectAll;
    var gone, spent := Expired(s.mem.queue, now, cfg.options.maxDeferredAgeSec), Exhausted(s.mem.queue, cfg.options.maxRetryAttempts);
    if |gone| > 0 { RejectAllTells(Prune(cfg, s, now, w)[1], gone, DeferredTtlExpired); }
    if |spent| > 0 { RejectAllTells(Retire(cfg, s, w)[1], spent, RetryExhausted); }
  }

  lemma RunBatchLatches(cfg: Config, s: State, batch: seq<Parked>, reply: seq<Delivery>, entered: bool)
    ensures Latches(s, RunBatch(cfg, s, batch, reply, entered))
  {
    hide ChargedAll, DrainRetry;
    var s1 := if entered then s else Transition(s, RetryingDeferred);
    var s3 := WithQueue(Emit(s1, RetryStarted(|batch|)), ChargedAll(s1.mem.queue, batch));
    DrainRetryLatches(cfg, s3, reply);
    LatchesAppend(s, (if entered then [] else [s1]) + [s3], DrainRetry(cfg, s3, reply));
  }

  lemma IterationTakesNothingBack(cfg: Config, s: State, p: Pass, entered: bool)
    ensures Latches(s, Iteration(cfg, s, p, entered))
  {
    hide Prune, RunBatch, Retire, Eligible, TakenBack;
    var t1 := Prune(cfg, s, p.now, p.afterPrune);
    var s1 := End(s, t1);
    PruneLatches(cfg, s, p.now, p.afterPrune);
    var batch := Eligible(s1.mem.queue, cfg.options.maxRetryAttempts);
    var t2 := if |batch| > 0 then RunBatch(cfg, s1, batch, p.reply, entered) else [];
    if |batch| > 0 { RunBatchLatches(cfg, s1, batch, p.reply, entered); }
    var s2 := End(s1, t2);
    PruneLatches(cfg, s2, p.now, p.afterExhausted);
    LatchesAppend(s, t1, t2);
    EndAppend(s, t1, t2);
    LatchesAppend(s, t1 + t2, Retire(cfg, s2, p.afterExhausted));
  }
}
