/** What a handler tells and what it leaves parked, on first delivery and in a retry
    alike: the receipt, then one verdict, and no final verdict leaves its fact
    parked (src/engine/receive-engine.ts:753-924, 966-1119). */

module EngineVerdicts {
  import opened Wrappers
  import opened TaskDomain
  import opened EngineTypes
  import opened EventLog
  import opened DeferredQueue
  import opened EngineSpec
  import EngineLatch

  predicate Known(cfg: Config, s: State, d: Delivery) {
    d.signal.Message? && EventOf(cfg, d.signal, d.now).id in s.mem.processed
  }

  /** What a signal is answered by: a fact that could not be stored is given up; a
      stored one is received first, and then answered once, or not at all if its
      event is known. */
  function Answer(cfg: Config, s: State, d: Delivery): (r: seq<Output>)
    requires !d.signal.EpochAdvanced?
  {
    var id := d.signal.fact.id;
    if !d.first.Landed? then [Rejected(id, PersistenceExhausted)]
    else if Known(cfg, s, d) then [EnvelopeReceived(id)]
    else
      [EnvelopeReceived(id),
       match d.signal
       case Message(_, _, _, _, _) => if d.second.Landed? then Accepted(EventOf(cfg, d.signal, d.now)) else Rejected(id, PersistenceExhausted)
       case Deferred(_, reason) => EnvelopeDeferred(id, reason)
       case Skipped(_) => RatchetAdvanced
       case Malformed(_) => Rejected(id, ParseError)]
  }

  lemma Pair(out: seq<Output>, a: Output, b: Output)
    ensures out + [a] + [b] == out + [a, b]
  {
  }

  lemma FirstAnswer(cfg: Config, s: State, d: Delivery, passes: seq<Pass>)
    requires ValidOptions(cfg.options) && !d.signal.EpochAdvanced?
    ensures End(s, ProcessSignal(cfg, s, d, passes)).out == s.out + Answer(cfg, s, d)
  {
    hide AppendFact, AppendEvent, SeqOf, FindFact, Holds, Park, Evicted, Unpark, Without, Ids, EventOf, OnMessage;
    if d.first.Landed? && !Known(cfg, s, d) { Pair(s.out, Answer(cfg, s, d)[0], Answer(cfg, s, d)[1]); }
    if d.signal.Message? { FirstMessageAnswer(cfg, s, d); }
  }

  lemma FirstMessageAnswer(cfg: Config, s: State, d: Delivery)
    requires d.signal.Message?
    ensures End(s, OnMessage(cfg, s, d)).out == s.out + Answer(cfg, s, d)
  {
    assert EventOf(cfg, d.signal, d.now).factId == d.signal.fact.id;
    hide AppendFact, AppendEvent, SeqOf, Holds, Unpark, Without, Ids, EventOf;
    if d.first.Landed? && !Known(cfg, s, d) { Pair(s.out, Answer(cfg, s, d)[0], Answer(cfg, s, d)[1]); }
  }

  lemma RetryAnswer(cfg: Config, s: State, d: Delivery)
    requires !d.signal.EpochAdvanced?
    ensures End(s, OnRetrySignal(cfg, s, d)).out == s.out + Answer(cfg, s, d)
  {
    hide AppendFact, AppendEvent, SeqOf, Unpark, Without, Ids, EventOf, Refunded, OnRetryMessage;
    if d.first.Landed? && !Known(cfg, s, d) { Pair(s.out, Answer(cfg, s, d)[0], Answer(cfg, s, d)[1]); }
    if d.signal.Message? { RetryMessageAnswer(cfg, s, d); }
  }

  lemma RetryMessageAnswer(cfg: Config, s: State, d: Delivery)
    requires d.signal.Message?
    ensures End(s, OnRetryMessage(cfg, s, d)).out == s.out + Answer(cfg, s, d)
  {
    assert EventOf(cfg, d.signal, d.now).factId == d.signal.fact.id;
    hide AppendFact, AppendEvent, SeqOf, Unpark, Without, Ids, EventOf, Refunded;
    if d.first.Landed? && !Known(cfg, s, d) { Pair(s.out, Answer(cfg, s, d)[0], Answer(cfg, s, d)[1]); }
  }

  /** A fact is answered in the same words on its first delivery and in a retry. */
  lemma RetriesAnswerAlike(cfg: Config, s: State, d: Delivery, passes: seq<Pass>)
    requires ValidOptions(cfg.options) && !d.signal.EpochAdvanced?
    ensures var r := End(s, ProcessSignal(cfg, s, d, passes)).out;
            r == s.out + Answer(cfg, s, d) && End(s, OnRetrySignal(cfg, s, d)).out == r
  {
    FirstAnswer(cfg, s, d, passes);
    RetryAnswer(cfg, s, d);
    hide ProcessSignal, OnRetrySignal;
  }

  // ------------------------------------------------ what stays parked

  /** All writes of the delivery have landed. */
  predicate AllLand(d: Delivery) {
    d.first.Landed? && d.second.Landed? && d.third.Landed?
  }

  /** Fact `id` is parked no more, in memory or on disk; every other entry stays as it is. */
  ghost predicate TakenOut(s: State, id: string, r: State) {
    !Holds(r.mem.queue, id) && id !in r.disk.deferred && forall e :: e in r.mem.queue <==> e in s.mem.queue && e.factId != id
  }

  lemma UnparkTakesOut(q: seq<Parked>, id: string)
    requires UniqueIds(q)
    ensures !Holds(Unpark(q, id), id) && id !in Ids(Unpark(q, id))
    ensures forall e :: e in Unpark(q, id) <==> e in q && e.factId != id
  {
    UnparkMembers(q, id);
    EngineLatch.Kept(q, Other(id));
  }

  /** A retried message, skip or malformed fact leaves the queue and the stored list. */
  lemma RetryTakesOut(cfg: Config, s: State, d: Delivery)
    requires UniqueIds(s.mem.queue) && AllLand(d) && (d.signal.Message? || d.signal.Skipped? || d.signal.Malformed?)
    ensures TakenOut(s, d.signal.fact.id, End(s, OnRetrySignal(cfg, s, d)))
  {
    UnparkTakesOut(s.mem.queue, d.signal.fact.id);
    hide AppendFact, AppendEvent, SeqOf, Unpark, Without, EventOf, Refunded, Holds, UniqueIds, OnRetryMessage, Ids;
    if d.signal.Message? { RetryMessageTakesOut(cfg, s, d); }
  }

  lemma LeavingTakesOut(s: State, id: string, w: Write, from: State)
    requires UniqueIds(from.mem.queue) && s.mem.queue == from.mem.queue && w.Landed?
    ensures TakenOut(from, id, LeaveQueue(s, id, w)[1])
  {
    UnparkTakesOut(s.mem.queue, id);
    hide Unpark, Holds, UniqueIds, Ids;
  }

  lemma RetryMessageTakesOut(cfg: Config, s: State, d: Delivery)
    requires UniqueIds(s.mem.queue) && AllLand(d) && d.signal.Message?
    ensures TakenOut(s, d.signal.fact.id, End(s, OnRetryMessage(cfg, s, d)))
  {
    var id := d.signal.fact.id;
    var e := EventOf(cfg, d.signal, d.now);
    assert e.factId == id;
    hide AppendFact, AppendEvent, SeqOf, Without, EventOf, UniqueIds, LeaveQueue, TakenOut;
    var s1 := PutFact(s, d.signal.fact);
    var s2 := Emit(s1, EnvelopeReceived(id));
    if Known(cfg, s, d) {
      LeavingTakesOut(Advance(Decode(s2, id, e.id), SeqOf(s1.disk.facts, id)), id, d.third, s);
    } else {
      var s3 := DropDeferredId(PutEvent(s2, e), id);
      LeavingTakesOut(Accept(Advance(s3, SeqOf(s3.disk.facts, id)), e), id, d.third, s);
    }
  }

  /** So does a parked fact that is delivered again as a new message or as malformed. */
  lemma RedeliveryTakesOut(cfg: Config, s: State, d: Delivery, passes: seq<Pass>)
    requires ValidOptions(cfg.options) && UniqueIds(s.mem.queue) && AllLand(d)
    requires (d.signal.Message? && !Known(cfg, s, d)) || d.signal.Malformed?
    requires Holds(s.mem.queue, d.signal.fact.id)
    ensures TakenOut(s, d.signal.fact.id, End(s, ProcessSignal(cfg, s, d, passes)))
  {
    UnparkTakesOut(s.mem.queue, d.signal.fact.id);
    hide AppendFact, AppendEvent, SeqOf, Unpark, Without, EventOf, Holds, UniqueIds, OnMessage, Ids;
    if d.signal.Message? { RedeliveredMessage(cfg, s, d); }
  }

  lemma RedeliveredMessage(cfg: Config, s: State, d: Delivery)
    requires UniqueIds(s.mem.queue) && AllLand(d) && d.signal.Message? && !Known(cfg, s, d) && Holds(s.mem.queue, d.signal.fact.id)
    ensures TakenOut(s, d.signal.fact.id, End(s, OnMessage(cfg, s, d)))
  {
    UnparkTakesOut(s.mem.queue, d.signal.fact.id);
    assert EventOf(cfg, d.signal, d.now).factId == d.signal.fact.id;
    hide AppendFact, AppendEvent, SeqOf, Unpark, Without, EventOf, Holds, UniqueIds, Ids;
  }

  // ------------------------------------------------ what is parked

  /** An entry that has not been tried, with its fact as the log has it. */
  predicate New(e: Parked, facts: seq<RawFact>, now: int) {
    e.attempts == 0 && e.queuedAt == now && e.fact in facts && e.fact.id == e.factId
  }

  /** A fact that cannot be read yet is parked last, untried, with its stored fact. */
  lemma ParksAsNew(cfg: Config, s: State, d: Delivery, passes: seq<Pass>)
    requires ValidOptions(cfg.options) && d.signal.Deferred? && AllLand(d)
    requires UniqueIds(s.mem.queue) && |s.mem.queue| <= cfg.options.maxDeferredSize && !Holds(s.mem.queue, d.signal.fact.id)
    ensures var r := End(s, ProcessSignal(cfg, s, d, passes));
            |r.mem.queue| > 0 && r.disk.deferred == Ids(r.mem.queue) &&
            var e := r.mem.queue[|r.mem.queue| - 1];
            e.factId == d.signal.fact.id && e.reason == d.signal.reason && New(e, r.disk.facts, d.now)
  {
    var id := d.signal.fact.id;
    AppendHas(s.disk.facts, d.signal.fact);
    var f := FindFact(AppendFact(s.disk.facts, d.signal.fact), id).value;
    ParkKeeps(s.mem.queue, Parked(id, f, d.signal.reason, d.now, 0), cfg.options.maxDeferredSize);
    hide AppendFact, FindFact, SeqOf, Park, Evicted, Holds, Ids, UniqueIds;
  }

  lemma AppendHas(log: seq<RawFact>, fact: FactInput)
    ensures HasFact(AppendFact(log, fact), fact.id)
  {
    if !HasFact(log, fact.id) { assert AppendFact(log, fact)[|log|].id == fact.id; }
  }

  /** A rebuilt queue holds such entries only. */
  lemma {:induction false} RebuildParksAsNew(s: State, ids: seq<string>, cap: nat, now: int, before: seq<Parked>)
    requires forall e :: e in s.mem.queue ==> e in before || New(e, s.disk.facts, now)
    ensures forall e :: e in Rebuild(s, ids, cap, now).mem.queue ==> e in before || New(e, s.disk.facts, now)
    decreases ids
  {
    if |ids| > 0 {
      var f := FindFact(s.disk.facts, ids[0]);
      var s1 := if f.None? then s else ParkIn(s, cap, Parked(ids[0], f.value, Unreadable, now, 0));
      RebuildParksAsNew(s1, ids[1..], cap, now, before);
    }
  }

  // ------------------------------------------------ how far the watermark has moved

  /** A handled fact whose writes have landed is behind the watermark, which has
      moved no further than to it. */
  lemma WatermarkReaches(cfg: Config, s: State, d: Delivery, passes: seq<Pass>)
    requires ValidOptions(cfg.options) && AllLand(d) && !d.signal.EpochAdvanced?
    ensures var r := End(s, ProcessSignal(cfg, s, d, passes));
            var n := SeqOf(AppendFact(s.disk.facts, d.signal.fact), d.signal.fact.id);
            r.disk.facts == AppendFact(s.disk.facts, d.signal.fact) &&
            r.mem.lastIngestedSeq == if n > s.mem.lastIngestedSeq then n else s.mem.lastIngestedSeq
  {
    hide AppendFact, AppendEvent, SeqOf, FindFact, Holds, Park, Evicted, Unpark, Without, Ids, OnMessage;
    if d.signal.Message? { MessageReaches(cfg, s, d); }
  }

  lemma MessageReaches(cfg: Config, s: State, d: Delivery)
    requires AllLand(d) && d.signal.Message?
    ensures var r := End(s, OnMessage(cfg, s, d));
            var n := SeqOf(AppendFact(s.disk.facts, d.signal.fact), d.signal.fact.id);
            r.disk.facts == AppendFact(s.disk.facts, d.signal.fact) &&
            r.mem.lastIngestedSeq == if n > s.mem.lastIngestedSeq then n else s.mem.lastIngestedSeq
  {
    assert EventOf(cfg, d.signal, d.now).factId == d.signal.fact.id;
    hide AppendFact, AppendEvent, SeqOf, Holds, Unpark, Without, Ids, EventOf;
  }
}
