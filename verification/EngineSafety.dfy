/** No fact is lost, and the queue agrees with its durable copy: invariants of
    the handlers of EngineSpec when no persistence call gives up. */

module EngineSafety {
  import opened TaskDomain
  import opened EngineTypes
  import opened EventLog
  import opened DeferredQueue
  import opened EngineSpec

  // ------------------------------------------------ vocabulary

  predicate Decoded(accepted: seq<AcceptedEvent>, l: Ledger, id: string) {
    exists p :: p in l.decoded && p.0 == id && HasEvent(accepted, p.1)
  }

  /** A fact whose outcome needs no further work: its event is in the accepted
      log, or it has a terminal verdict. */
  predicate Concluded(accepted: seq<AcceptedEvent>, l: Ledger, id: string) {
    id in l.terminal || Decoded(accepted, l, id)
  }

  /** Nothing is lost about `id`: concluded, or durably parked. */
  predicate Covered(d: Disk, l: Ledger, id: string) {
    Concluded(d.accepted, l, id) || id in d.deferred
  }

  predicate DistinctIds(ids: seq<string>) {
    forall i, j :: 0 <= i < j < |ids| ==> ids[i] != ids[j]
  }

  predicate DiskOk(cfg: Config, d: Disk, l: Ledger) {
    Numbered(d.facts) && UniqueEvents(d.accepted) &&
    DistinctIds(d.deferred) && |d.deferred| <= cfg.options.maxDeferredSize &&
    (forall id :: id in d.deferred ==> HasFact(d.facts, id) || id in l.strays) &&
    (forall i :: 0 <= i < |d.accepted| ==> (d.accepted[i].factId, d.accepted[i].id) in l.decoded) &&
    (forall p :: p in l.decoded ==> HasEvent(d.accepted, p.1))
  }

  /** The statement about one durable state and a watermark: every fact at or
      below the watermark is covered. */
  predicate NothingLost(d: Disk, l: Ledger, watermark: nat) {
    watermark <= |d.facts| && forall k :: 0 <= k < watermark ==> Covered(d, l, d.facts[k].id)
  }

  /** What holds at every await, hence at every crash. */
  predicate Safe(cfg: Config, s: State) {
    DiskOk(cfg, s.disk, s.ledger) && NothingLost(s.disk, s.ledger, s.mem.lastIngestedSeq)
  }

  predicate AllSafe(cfg: Config, t: seq<State>) {
    forall k :: 0 <= k < |t| ==> Safe(cfg, t[k])
  }

  /** What a session never takes back: its watermark and its two logs. */
  predicate Grows(a: State, b: State) {
    a.mem.lastIngestedSeq <= b.mem.lastIngestedSeq && a.ledger.strays == b.ledger.strays &&
    a.disk.facts <= b.disk.facts && a.disk.accepted <= b.disk.accepted
  }

  predicate Climbs(s: State, t: seq<State>) {
    (|t| > 0 ==> Grows(s, t[0])) && forall k :: 0 < k < |t| ==> Grows(t[k - 1], t[k])
  }

  /** What holds between handlers. The first `upto` facts are concluded or in
      the queue; with `agree`, the stored id list is the queue's, in order. */
  predicate Inv(cfg: Config, s: State, upto: nat, agree: bool) {
    DiskOk(cfg, s.disk, s.ledger) &&
    s.mem.lastIngestedSeq <= upto <= |s.disk.facts| &&
    UniqueIds(s.mem.queue) && |s.mem.queue| <= cfg.options.maxDeferredSize &&
    (forall i :: 0 <= i < |s.mem.queue| ==>
      HasFact(s.disk.facts, s.mem.queue[i].factId) && s.mem.queue[i].factId in s.disk.deferred) &&
    (forall x :: x in s.mem.processed ==> HasEvent(s.disk.accepted, x)) &&
    (forall k :: 0 <= k < upto ==>
      Concluded(s.disk.accepted, s.ledger, s.disk.facts[k].id) || Holds(s.mem.queue, s.disk.facts[k].id)) &&
    (agree ==> s.disk.deferred == Ids(s.mem.queue))
  }

  lemma InvIsSafe(cfg: Config, s: State, upto: nat, agree: bool)
    requires Inv(cfg, s, upto, agree)
    ensures Safe(cfg, s)
  {
  }

  /** Emitting, remembering an id or changing the lifecycle does not touch the invariants. */
  lemma InvSame(cfg: Config, a: State, b: State, upto: nat, agree: bool)
    requires Inv(cfg, a, upto, agree)
    requires b.disk == a.disk.(checkpoint := b.disk.checkpoint) && b.ledger == a.ledger && b.mem.queue == a.mem.queue
    requires b.mem.lastIngestedSeq == a.mem.lastIngestedSeq
    requires forall x :: x in b.mem.processed ==> x in a.mem.processed || HasEvent(a.disk.accepted, x)
    ensures Inv(cfg, b, upto, agree) && Safe(cfg, b)
  {
  }

  lemma SafeSame(cfg: Config, a: State, b: State)
    requires Safe(cfg, a)
    requires b.disk == a.disk.(checkpoint := b.disk.checkpoint) && b.ledger == a.ledger
    requires b.mem.lastIngestedSeq == a.mem.lastIngestedSeq
    ensures Safe(cfg, b)
  {
  }

  lemma ClimbsAppend(s: State, a: seq<State>, b: seq<State>)
    requires Climbs(s, a) && Climbs(End(s, a), b)
    ensures Climbs(s, a + b) && End(s, a + b) == End(End(s, a), b)
  {
    hide Grows;
    forall k | 0 < k < |a + b| ensures Grows((a + b)[k - 1], (a + b)[k]) {
      if k == |a| { assert (a + b)[k] == b[0]; } else if k > |a| { assert (a + b)[k] == b[k - |a|]; }
    }
  }

  /** Along a climbing trace every later state has grown from every earlier one. */
  lemma {:induction false} ClimbsPairwise(s: State, t: seq<State>, j: nat, k: nat)
    requires Climbs(s, t) && j <= k < |t|
    ensures Grows(s, t[k]) && Grows(t[j], t[k])
    decreases k
  {
    if k > 0 { ClimbsPairwise(s, t, if j < k then j else k - 1, k - 1); }
  }

  lemma SafeAppend(cfg: Config, a: seq<State>, b: seq<State>)
    requires AllSafe(cfg, a) && AllSafe(cfg, b)
    ensures AllSafe(cfg, a + b)
  {
  }

  // ------------------------------------------------ single steps

  lemma FactPosition(s: State, id: string)
    requires Numbered(s.disk.facts) && HasFact(s.disk.facts, id)
    ensures 0 < SeqOf(s.disk.facts, id) <= |s.disk.facts| && s.disk.facts[SeqOf(s.disk.facts, id) - 1].id == id
  {
    var f := FindFact(s.disk.facts, id).value;
    var k :| 0 <= k < |s.disk.facts| && s.disk.facts[k] == f;
    assert s.disk.facts[k].seqNo == k + 1;
  }

  lemma PutFactInv(cfg: Config, s: State, fact: FactInput, upto: nat, agree: bool)
    requires Inv(cfg, s, upto, agree)
    ensures Inv(cfg, PutFact(s, fact), upto, agree) && HasFact(PutFact(s, fact).disk.facts, fact.id)
    ensures Grows(s, PutFact(s, fact))
  {
    AppendKeepsNumbering(s.disk.facts, fact);
    var r := PutFact(s, fact);
    forall k | 0 <= k < upto ensures r.disk.facts[k].id == s.disk.facts[k].id {
      assert r.disk.facts[k] == s.disk.facts[k];
    }
  }

  lemma PutEventInv(cfg: Config, s: State, e: AcceptedEvent, upto: nat, agree: bool)
    requires Inv(cfg, s, upto, agree)
    ensures Inv(cfg, PutEvent(s, e), upto, agree) && HasEvent(PutEvent(s, e).disk.accepted, e.id)
    ensures Grows(s, PutEvent(s, e))
    ensures Concluded(PutEvent(s, e).disk.accepted, PutEvent(s, e).ledger, e.factId)
  {
    var r := PutEvent(s, e);
    AppendKeepsUnique(s.disk.accepted, e);
    assert (e.factId, e.id) in r.ledger.decoded;
    forall id | Concluded(s.disk.accepted, s.ledger, id) ensures Concluded(r.disk.accepted, r.ledger, id) {
      if id !in s.ledger.terminal {
        var p :| p in s.ledger.decoded && p.0 == id && HasEvent(s.disk.accepted, p.1);
        assert p in r.ledger.decoded;
      }
    }
    forall i | 0 <= i < |r.disk.accepted| ensures (r.disk.accepted[i].factId, r.disk.accepted[i].id) in r.ledger.decoded {
    }
  }

  /** Recording a decoding whose event is already durable concludes the fact. */
  lemma DecodeInv(cfg: Config, s: State, factId: string, eventId: string, upto: nat, agree: bool)
    requires Inv(cfg, s, upto, agree) && HasEvent(s.disk.accepted, eventId)
    ensures Inv(cfg, Decode(s, factId, eventId), upto, agree)
    ensures Concluded(Decode(s, factId, eventId).disk.accepted, Decode(s, factId, eventId).ledger, factId)
  {
    var r := Decode(s, factId, eventId);
    assert (factId, eventId) in r.ledger.decoded;
    forall id | Concluded(s.disk.accepted, s.ledger, id) ensures Concluded(r.disk.accepted, r.ledger, id) {
      if id !in s.ledger.terminal {
        var p :| p in s.ledger.decoded && p.0 == id && HasEvent(s.disk.accepted, p.1);
        assert p in r.ledger.decoded;
      }
    }
  }

  lemma SettleInv(cfg: Config, s: State, ids: set<string>, upto: nat, agree: bool)
    requires Inv(cfg, s, upto, agree)
    ensures Inv(cfg, Settle(s, ids), upto, agree)
  {
  }

  /** Covering one more fact lets the covered prefix, and the watermark, move over it. */
  lemma AdvanceInv(cfg: Config, s: State, id: string, upto: nat, agree: bool) returns (upto': nat)
    requires Inv(cfg, s, upto, agree) && HasFact(s.disk.facts, id) && SeqOf(s.disk.facts, id) <= upto + 1
    requires Concluded(s.disk.accepted, s.ledger, id) || Holds(s.mem.queue, id)
    ensures upto' == (if SeqOf(s.disk.facts, id) == upto + 1 then upto + 1 else upto)
    ensures Inv(cfg, Advance(s, SeqOf(s.disk.facts, id)), upto', agree)
  {
    FactPosition(s, id);
    upto' := if SeqOf(s.disk.facts, id) == upto + 1 then upto + 1 else upto;
  }

  /** A concluded fact leaves the stored list and the queue together. */
  lemma LeaveInv(cfg: Config, s: State, id: string, upto: nat, agree: bool)
    requires Inv(cfg, s, upto, agree) && Concluded(s.disk.accepted, s.ledger, id)
    ensures var r := WithQueue(DropDeferredId(s, id), Unpark(s.mem.queue, id));
            Inv(cfg, r, upto, agree)
    ensures var r := SaveDeferred(WithQueue(s, Unpark(s.mem.queue, id)), Landed);
            Inv(cfg, r, upto, true) && Inv(cfg, r, upto, agree)
    ensures var r := SaveDeferred(WithQueue(DropDeferredId(s, id), Unpark(s.mem.queue, id)), Landed);
            Inv(cfg, r, upto, true) && Inv(cfg, r, upto, agree)
  {
    var q := Unpark(s.mem.queue, id);
    UnparkMembers(s.mem.queue, id);
    FilterIds(s.mem.queue, id);
    WithoutDistinct(s.disk.deferred, id);
    QueueFactsKept(s.mem.queue, q, s.disk.facts, s.disk.deferred, id);
    IdsOf(q);
  }

  /** Saving the queue's ids keeps every queued fact durably parked. */
  lemma SaveInv(cfg: Config, s: State, upto: nat, agree: bool)
    requires Inv(cfg, s, upto, agree)
    ensures Inv(cfg, SaveDeferred(s, Landed), upto, true) && Inv(cfg, SaveDeferred(s, Landed), upto, agree)
  {
    IdsOf(s.mem.queue);
  }

  lemma {:induction false} WithoutDistinct(ids: seq<string>, id: string)
    requires DistinctIds(ids)
    ensures DistinctIds(Without(ids, id)) && |Without(ids, id)| <= |ids|
  {
    if |ids| > 0 {
      WithoutDistinct(ids[1..], id);
      var r := Without(ids[1..], id);
      forall i | 0 <= i < |r| ensures r[i] != ids[0] {
        assert r[i] in r;
        assert r[i] in ids[1..];
      }
    }
  }

  lemma QueueFactsKept(q: seq<Parked>, r: seq<Parked>, facts: seq<RawFact>, stored: seq<string>, id: string)
    requires forall i :: 0 <= i < |q| ==> HasFact(facts, q[i].factId) && q[i].factId in stored
    requires r == Unpark(q, id)
    ensures forall i :: 0 <= i < |r| ==> HasFact(facts, r[i].factId) && r[i].factId in stored && r[i].factId in Without(stored, id)
  {
    forall i | 0 <= i < |r|
      ensures HasFact(facts, r[i].factId) && r[i].factId in stored && r[i].factId in Without(stored, id)
    {
      assert r[i] in r;
      var j :| 0 <= j < |q| && q[j] == r[i];
    }
  }

  lemma IdsOf(q: seq<Parked>)
    requires UniqueIds(q)
    ensures DistinctIds(Ids(q)) && forall x :: x in Ids(q) <==> Holds(q, x)
  {
    forall x ensures x in Ids(q) <==> Holds(q, x) { HoldsMember(q, x); }
  }

  /** Replacing the queue and saving it keeps the invariant if whatever leaves is concluded. */
  lemma RequeueInv(cfg: Config, s: State, q: seq<Parked>, upto: nat, agree: bool)
    requires Inv(cfg, s, upto, agree) && UniqueIds(q) && |q| <= cfg.options.maxDeferredSize
    requires forall i :: 0 <= i < |q| ==> HasFact(s.disk.facts, q[i].factId)
    requires forall x :: Holds(s.mem.queue, x) ==> Holds(q, x) || Concluded(s.disk.accepted, s.ledger, x)
    ensures var r := SaveDeferred(WithQueue(s, q), Landed);
            Inv(cfg, r, upto, true) && Inv(cfg, r, upto, agree)
  {
    hide Concluded, HasEvent, HasFact, UniqueIds;
    IdsOf(q);
    forall x | x in Ids(q) ensures HasFact(s.disk.facts, x) {
      var i :| 0 <= i < |Ids(q)| && Ids(q)[i] == x;
    }
    forall i | 0 <= i < |q| ensures q[i].factId in Ids(q) { assert Ids(q)[i] == q[i].factId; }
  }

  /** An entry that parking drops is an evicted one. */
  lemma ParkOrEvict(q: seq<Parked>, e: Parked, cap: nat, x: string)
    requires UniqueIds(q) && |q| <= cap && cap > 0 && !Holds(q, e.factId) && Holds(q, x)
    ensures Holds(Park(q, e, cap), x) || x in Evicted(q, e, cap)
  {
    ParkKeeps(q, e, cap);
    var j :| 0 <= j < |q| && q[j].factId == x;
    if q[j] in Park(q, e, cap) {
      HoldsMember(Park(q, e, cap), x);
    } else {
      assert (q + [e])[0].factId == x;
    }
  }

  /** Parking: the cap's victims get their verdict, and the save makes it durable. */
  lemma ParkInv(cfg: Config, s: State, e: Parked, upto: nat, agree: bool)
    requires ValidOptions(cfg.options)
    requires Inv(cfg, s, upto, agree) && HasFact(s.disk.facts, e.factId) && !Holds(s.mem.queue, e.factId)
    ensures Safe(cfg, ParkIn(s, cfg.options.maxDeferredSize, e))
    ensures var r := SaveDeferred(ParkIn(s, cfg.options.maxDeferredSize, e), Landed);
            Inv(cfg, r, upto, true) && Inv(cfg, r, upto, agree) && Holds(r.mem.queue, e.factId)
  {
    var cap := cfg.options.maxDeferredSize;
    var q := Park(s.mem.queue, e, cap);
    var gone := Evicted(s.mem.queue, e, cap);
    ParkKeeps(s.mem.queue, e, cap);
    forall i | 0 <= i < |q| ensures HasFact(s.disk.facts, q[i].factId) {
      assert q[i] in q;
      if q[i] != e { var j :| 0 <= j < |s.mem.queue| && s.mem.queue[j] == q[i]; }
    }
    forall x | Holds(s.mem.queue, x) ensures Holds(q, x) || x in gone {
      ParkOrEvict(s.mem.queue, e, cap, x);
    }
    hide Inv, Safe, Park, Evicted, UniqueIds, HasFact;
    SettleInv(cfg, s, gone, upto, agree);
    InvIsSafe(cfg, Settle(s, gone), upto, agree);
    SafeSame(cfg, Settle(s, gone), ParkIn(s, cap, e));
    RequeueInv(cfg, Settle(s, gone), q, upto, agree);
  }

  // ------------------------------------------------ handlers

  predicate AllLanded(d: Delivery) {
    d.first.Landed? && d.second.Landed? && d.third.Landed?
  }

  /** A fact signal's fact is one already considered or the next one in the log. */
  predicate InTurn(s: State, d: Delivery, upto: nat) {
    d.signal.EpochAdvanced? || SeqOf(AppendFact(s.disk.facts, d.signal.fact), d.signal.fact.id) <= upto + 1
  }

  function After(s: State, d: Delivery, upto: nat): (r: nat)
    requires !d.signal.EpochAdvanced?
  {
    if SeqOf(AppendFact(s.disk.facts, d.signal.fact), d.signal.fact.id) == upto + 1 then upto + 1 else upto
  }

  lemma AcceptanceInv(cfg: Config, s: State, e: AcceptedEvent, d: Delivery, upto: nat, agree: bool)
    requires Inv(cfg, s, upto, agree) && d.second.Landed? && d.third.Landed?
    requires HasFact(s.disk.facts, e.factId) && SeqOf(s.disk.facts, e.factId) <= upto + 1
    ensures var t := Acceptance(s, e, d);
            Inv(cfg, End(s, t), if SeqOf(s.disk.facts, e.factId) == upto + 1 then upto + 1 else upto, agree) &&
            AllSafe(cfg, t) && Climbs(s, t)
  {
    hide Inv, Safe, Concluded, HasFact, HasEvent, Holds, AppendEvent, Unpark, Without, SeqOf, Ids;
    var id := e.factId;
    var s1 := PutEvent(s, e);
    PutEventInv(cfg, s, e, upto, agree);
    InvIsSafe(cfg, s1, upto, agree);
    var s4 := s1;
    if Holds(s.mem.queue, id) {
      var s2 := DropDeferredId(s1, id);
      var s3 := WithQueue(s2, Unpark(s2.mem.queue, id));
      s4 := SaveDeferred(s3, Landed);
      LeaveInv(cfg, s1, id, upto, agree);
      InvIsSafe(cfg, s3, upto, agree);
      SafeSame(cfg, s3, s2);
      InvIsSafe(cfg, s4, upto, agree);
    }
    var upto' := AdvanceInv(cfg, s4, id, upto, agree);
    InvSame(cfg, Advance(s4, SeqOf(s4.disk.facts, id)), End(s, Acceptance(s, e, d)), upto', agree);
  }

  lemma TwoSafe(cfg: Config, s: State, a: State, b: State)
    requires Safe(cfg, a) && Safe(cfg, b) && Grows(s, a) && Grows(a, b)
    ensures AllSafe(cfg, [a, b]) && Climbs(s, [a, b])
  {
  }

  lemma OnMessageInv(cfg: Config, s: State, d: Delivery, upto: nat, agree: bool)
    requires Inv(cfg, s, upto, agree) && d.signal.Message? && AllLanded(d) && InTurn(s, d, upto)
    ensures var t := OnMessage(cfg, s, d);
            Inv(cfg, End(s, t), After(s, d, upto), agree) && AllSafe(cfg, t) && Climbs(s, t)
  {
    hide Inv, Safe, Concluded, HasFact, HasEvent, AppendFact, SeqOf, Acceptance, AllSafe, Climbs;
    var id := d.signal.fact.id;
    var s1 := PutFact(s, d.signal.fact);
    var s2 := Emit(s1, EnvelopeReceived(id));
    var e := EventOf(cfg, d.signal, d.now);
    PutFactInv(cfg, s, d.signal.fact, upto, agree);
    InvIsSafe(cfg, s1, upto, agree);
    InvSame(cfg, s1, s2, upto, agree);
    if e.id in s.mem.processed {
      ProcessedIsDurable(cfg, s1, e.id, upto, agree);
      DecodeInv(cfg, s2, id, e.id, upto, agree);
      var upto' := AdvanceInv(cfg, Decode(s2, id, e.id), id, upto, agree);
      var s3 := Advance(Decode(s2, id, e.id), SeqOf(s1.disk.facts, id));
      InvIsSafe(cfg, s3, upto', agree);
      TwoSafe(cfg, s, s1, s3);
    } else {
      TwoSafe(cfg, s, s1, s2);
      AcceptanceInv(cfg, s2, e, d, upto, agree);
      SafeAppend(cfg, [s1, s2], Acceptance(s2, e, d));
      ClimbsAppend(s, [s1, s2], Acceptance(s2, e, d));
    }
  }

  lemma ProcessedIsDurable(cfg: Config, s: State, id: string, upto: nat, agree: bool)
    requires Inv(cfg, s, upto, agree) && id in s.mem.processed
    ensures HasEvent(s.disk.accepted, id)
  {
  }

  lemma OnDeferredInv(cfg: Config, s: State, d: Delivery, upto: nat, agree: bool)
    requires ValidOptions(cfg.options)
    requires Inv(cfg, s, upto, agree) && d.signal.Deferred? && AllLanded(d) && InTurn(s, d, upto)
    ensures var t := OnDeferred(cfg, s, d);
            Inv(cfg, End(s, t), After(s, d, upto), agree) && AllSafe(cfg, t) && Climbs(s, t)
  {
    hide Inv, Safe;
    var id := d.signal.fact.id;
    var s1 := PutFact(s, d.signal.fact);
    var s2 := Emit(s1, EnvelopeReceived(id));
    var last := EnvelopeDeferred(id, d.signal.reason);
    PutFactInv(cfg, s, d.signal.fact, upto, agree);
    InvIsSafe(cfg, s1, upto, agree);
    InvSame(cfg, s1, s2, upto, agree);
    if Holds(s.mem.queue, id) {
      var upto' := AdvanceInv(cfg, s2, id, upto, agree);
      InvSame(cfg, Advance(s2, SeqOf(s2.disk.facts, id)), Emit(Advance(s2, SeqOf(s2.disk.facts, id)), last), upto', agree);
    } else {
      var e := Parked(id, FindFact(s1.disk.facts, id).value, d.signal.reason, d.now, 0);
      var s3 := ParkIn(s2, cfg.options.maxDeferredSize, e);
      var s4 := SaveDeferred(s3, Landed);
      ParkInv(cfg, s2, e, upto, agree);
      InvIsSafe(cfg, s4, upto, agree);
      var upto' := AdvanceInv(cfg, s4, id, upto, agree);
      InvSame(cfg, Advance(s4, SeqOf(s4.disk.facts, id)), Emit(Advance(s4, SeqOf(s4.disk.facts, id)), last), upto', agree);
    }
  }

  lemma OnSkippedInv(cfg: Config, s: State, d: Delivery, upto: nat, agree: bool)
    requires Inv(cfg, s, upto, agree) && d.signal.Skipped? && AllLanded(d) && InTurn(s, d, upto)
    ensures var t := OnSkipped(s, d);
            Inv(cfg, End(s, t), After(s, d, upto), agree) && AllSafe(cfg, t) && Climbs(s, t)
  {
    hide Inv, Safe;
    var s1 := PutFact(s, d.signal.fact);
    PutFactInv(cfg, s, d.signal.fact, upto, agree);
    InvIsSafe(cfg, s1, upto, agree);
    var s2, upto' := SettledAdvance(cfg, s1, d.signal.fact.id, upto, agree);
    InvSame(cfg, s2, End(s, OnSkipped(s, d)), upto', agree);
  }

  /** A terminal verdict is recorded and the watermark moves over the fact. */
  lemma SettledAdvance(cfg: Config, s: State, id: string, upto: nat, agree: bool) returns (r: State, upto': nat)
    requires Inv(cfg, s, upto, agree) && HasFact(s.disk.facts, id) && SeqOf(s.disk.facts, id) <= upto + 1
    ensures r == Advance(Settle(s, {id}), SeqOf(s.disk.facts, id)) && Inv(cfg, r, upto', agree)
    ensures upto' == if SeqOf(s.disk.facts, id) == upto + 1 then upto + 1 else upto
    ensures Concluded(r.disk.accepted, r.ledger, id)
  {
    hide Inv;
    SettleInv(cfg, s, {id}, upto, agree);
    upto' := AdvanceInv(cfg, Settle(s, {id}), id, upto, agree);
    r := Advance(Settle(s, {id}), SeqOf(s.disk.facts, id));
  }

  lemma OnMalformedInv(cfg: Config, s: State, d: Delivery, upto: nat, agree: bool)
    requires Inv(cfg, s, upto, agree) && d.signal.Malformed? && AllLanded(d) && InTurn(s, d, upto)
    ensures var t := OnMalformed(s, d);
            Inv(cfg, End(s, t), After(s, d, upto), agree) && AllSafe(cfg, t) && Climbs(s, t)
  {
    hide Inv, Safe, AppendFact, SeqOf, Unpark, Holds, Ids, Concluded;
    var id := d.signal.fact.id;
    var s1 := PutFact(s, d.signal.fact);
    PutFactInv(cfg, s, d.signal.fact, upto, agree);
    InvIsSafe(cfg, s1, upto, agree);
    var r, upto' := SettledAdvance(cfg, s1, id, upto, agree);
    var s2 := Emit(r, EnvelopeReceived(id));
    InvSame(cfg, r, s2, upto', agree);
    if Holds(s.mem.queue, id) {
      var s3 := WithQueue(s2, Unpark(s2.mem.queue, id));
      LeaveInv(cfg, s2, id, upto', agree);
      SafeSame(cfg, s2, s3);
      InvSame(cfg, SaveDeferred(s3, Landed), End(s, OnMalformed(s, d)), upto', agree);
      InvIsSafe(cfg, SaveDeferred(s3, Landed), upto', agree);
    } else {
      InvSame(cfg, s2, Emit(s2, Rejected(id, ParseError)), upto', agree);
    }
  }
}
