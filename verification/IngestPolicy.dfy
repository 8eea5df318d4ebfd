/** The deferred queue as a value: entries in insertion order
    (src/engine/ingest-policy.ts). */

module DeferredQueue {
  import opened Wrappers
  import opened EngineTypes

  datatype DeferredReason = Unreadable | EpochMismatch

  datatype Parked = Parked(factId: string, fact: RawFact, reason: DeferredReason, queuedAt: int, attempts: nat)

  datatype Options = Options(maxDeferredSize: int, maxDeferredAgeSec: int, maxRetryAttempts: int)

  predicate ValidOptions(o: Options) {
    o.maxDeferredSize > 0 && o.maxDeferredAgeSec > 0 && o.maxRetryAttempts > 0
  }

  function Ids(q: seq<Parked>): (r: seq<string>)
    ensures |r| == |q| && forall i :: 0 <= i < |q| ==> r[i] == q[i].factId
  {
    seq(|q|, i requires 0 <= i < |q| => q[i].factId)
  }

  predicate Holds(q: seq<Parked>, id: string) {
    exists i :: 0 <= i < |q| && q[i].factId == id
  }

  predicate UniqueIds(q: seq<Parked>) {
    forall i, j :: 0 <= i < j < |q| ==> q[i].factId != q[j].factId
  }

  datatype Test =
    | Other(id: string)
    | UnderBudget(budget: int)
    | Spent(budget: int)
    | Aged(now: int, ageSec: int)
    | Young(now: int, ageSec: int)

  predicate Passes(e: Parked, t: Test) {
    match t
    case Other(id) => e.factId != id
    case UnderBudget(budget) => e.attempts < budget
    case Spent(budget) => e.attempts >= budget
    case Aged(now, ageSec) => now - e.queuedAt > ageSec * 1000
    case Young(now, ageSec) => now - e.queuedAt <= ageSec * 1000
  }

  function Filter(q: seq<Parked>, t: Test): (r: seq<Parked>)
    ensures forall e :: e in r <==> e in q && Passes(e, t)
    ensures |r| <= |q|
  {
    if |q| == 0 then [] else (if Passes(q[0], t) then [q[0]] else []) + Filter(q[1..], t)
  }

  /** The newest `cap` entries survive an insertion. */
  function Trim(q: seq<Parked>, cap: nat): (r: seq<Parked>) {
    if |q| > cap then q[|q| - cap..] else q
  }

  function Park(q: seq<Parked>, e: Parked, cap: nat): (r: seq<Parked>) {
    if Holds(q, e.factId) then q else Trim(q + [e], cap)
  }

  function Unpark(q: seq<Parked>, id: string): (r: seq<Parked>) {
    Filter(q, Other(id))
  }

  function Charged(q: seq<Parked>, id: string): (r: seq<Parked>)
    ensures |r| == |q|
  {
    seq(|q|, i requires 0 <= i < |q| => if q[i].factId == id then q[i].(attempts := q[i].attempts + 1) else q[i])
  }

  function Refunded(q: seq<Parked>, id: string): (r: seq<Parked>)
    ensures |r| == |q|
  {
    seq(|q|, i requires 0 <= i < |q| =>
      if q[i].factId == id && q[i].attempts > 0 then q[i].(attempts := q[i].attempts - 1) else q[i])
  }

  function Eligible(q: seq<Parked>, budget: int): (r: seq<Parked>) {
    Filter(q, UnderBudget(budget))
  }

  function Exhausted(q: seq<Parked>, budget: int): (r: seq<Parked>) {
    Filter(q, Spent(budget))
  }

  function Expired(q: seq<Parked>, now: int, ageSec: int): (r: seq<Parked>) {
    Filter(q, Aged(now, ageSec))
  }

  function Fresh(q: seq<Parked>, now: int, ageSec: int): (r: seq<Parked>) {
    Filter(q, Young(now, ageSec))
  }

  function ChargedAll(q: seq<Parked>, batch: seq<Parked>): (r: seq<Parked>)
    ensures |r| == |q|
    decreases batch
  {
    if |batch| == 0 then q else ChargedAll(Charged(q, batch[0].factId), batch[1..])
  }

  function UnparkedAll(q: seq<Parked>, gone: seq<Parked>): (r: seq<Parked>)
    decreases gone
  {
    if |gone| == 0 then q else UnparkedAll(Unpark(q, gone[0].factId), gone[1..])
  }

  // ------------------------------------------------ facts about the queue

  lemma {:induction false} FilterAppend(a: seq<Parked>, b: seq<Parked>, t: Test)
    ensures Filter(a + b, t) == Filter(a, t) + Filter(b, t)
  {
    if |a| == 0 {
      assert a + b == b;
    } else {
      assert (a + b)[0] == a[0] && (a + b)[1..] == a[1..] + b;
      FilterAppend(a[1..], b, t);
      var head := if Passes(a[0], t) then [a[0]] else [];
      assert Filter(a + b, t) == head + (Filter(a[1..], t) + Filter(b, t));
      ConcatAssociates(head, Filter(a[1..], t), Filter(b, t));
    }
  }

  lemma FilterStep(q: seq<Parked>, i: nat, t: Test)
    requires i < |q|
    ensures Filter(q[..i + 1], t) == Filter(q[..i], t) + if Passes(q[i], t) then [q[i]] else []
  {
    assert q[..i + 1] == q[..i] + [q[i]];
    FilterAppend(q[..i], [q[i]], t);
    assert Filter([q[i]][1..], t) == [];
  }

  /** An entry expires or stays. */
  lemma PruneStep(q: seq<Parked>, i: nat, now: int, ageSec: int)
    requires i < |q|
    ensures Expired(q[..i + 1], now, ageSec) ==
            Expired(q[..i], now, ageSec) + if now - q[i].queuedAt > ageSec * 1000 then [q[i]] else []
    ensures Fresh(q[..i + 1], now, ageSec) ==
            Fresh(q[..i], now, ageSec) + if now - q[i].queuedAt > ageSec * 1000 then [] else [q[i]]
  {
    FilterStep(q, i, Aged(now, ageSec));
    FilterStep(q, i, Young(now, ageSec));
  }

  lemma {:induction false} FilterUnique(q: seq<Parked>, t: Test)
    requires UniqueIds(q)
    ensures UniqueIds(Filter(q, t))
  {
    if |q| > 0 {
      FilterUnique(q[1..], t);
      var r := Filter(q[1..], t);
      forall i | 0 <= i < |r| ensures r[i].factId != q[0].factId {
        assert r[i] in r;
        assert r[i] in q[1..];
      }
    }
  }

  lemma HoldsMember(q: seq<Parked>, id: string)
    ensures Holds(q, id) <==> exists e :: e in q && e.factId == id
    ensures Holds(q, id) <==> id in Ids(q)
  {
    if Holds(q, id) {
      var i :| 0 <= i < |q| && q[i].factId == id;
      assert q[i] in q && Ids(q)[i] == id;
    }
  }

  lemma ParkKeeps(q: seq<Parked>, e: Parked, cap: nat)
    requires UniqueIds(q) && |q| <= cap && cap > 0
    ensures var r := Park(q, e, cap);
            UniqueIds(r) && |r| <= cap && Holds(r, e.factId) &&
            (forall x :: x in r ==> x in q || x == e) &&
            (forall x :: x in q && x !in r ==> |q| == cap && x == q[0]) &&
            (!Holds(q, e.factId) ==> r[|r| - 1] == e)
  {
    var r := Park(q, e, cap);
    if !Holds(q, e.factId) {
      assert r[|r| - 1] == e;
      forall i | 0 <= i < |q| ensures q[i] in r || (|q| == cap && i == 0) {
        if |q| < cap {
          assert r[i] == q[i];
        } else if i > 0 {
          assert r[i - 1] == q[i];
        }
      }
    }
  }

  lemma UnparkMembers(q: seq<Parked>, id: string)
    requires UniqueIds(q)
    ensures UniqueIds(Unpark(q, id)) && !Holds(Unpark(q, id), id)
    ensures forall x :: Holds(Unpark(q, id), x) <==> Holds(q, x) && x != id
  {
    FilterUnique(q, Other(id));
    forall x ensures Holds(Unpark(q, id), x) <==> Holds(q, x) && x != id {
      HoldsMember(q, x);
      HoldsMember(Unpark(q, id), x);
    }
  }

  /** Charging every entry of a batch of distinct members adds exactly one
      attempt to each member and none to the others. */
  lemma {:induction false} ChargedAllExactly(q: seq<Parked>, batch: seq<Parked>)
    requires UniqueIds(batch)
    ensures forall i :: 0 <= i < |q| ==>
      ChargedAll(q, batch)[i] == q[i].(attempts := q[i].attempts + if Holds(batch, q[i].factId) then 1 else 0)
    decreases batch
  {
    if |batch| > 0 {
      var once := Charged(q, batch[0].factId);
      ChargedAllExactly(once, batch[1..]);
      forall i | 0 <= i < |q| ensures Holds(batch, q[i].factId) <==>
        batch[0].factId == q[i].factId || Holds(batch[1..], q[i].factId)
      {
        HoldsMember(batch, q[i].factId);
        HoldsMember(batch[1..], q[i].factId);
        assert batch == [batch[0]] + batch[1..];
      }
      forall i | 0 <= i < |q| && batch[0].factId == q[i].factId ensures !Holds(batch[1..], q[i].factId) {
        assert forall j :: 0 <= j < |batch[1..]| ==> batch[1..][j] == batch[j + 1];
      }
    }
  }

  lemma {:induction false} FilterIds(q: seq<Parked>, id: string)
    ensures Ids(Unpark(q, id)) == Without(Ids(q), id)
  {
    if |q| > 0 {
      FilterIds(q[1..], id);
      IdsFromHead(q);
      if q[0].factId != id { IdsFromHead([q[0]] + Unpark(q[1..], id)); }
    }
  }

  lemma IdsFromHead(q: seq<Parked>)
    requires |q| > 0
    ensures Ids(q)[0] == q[0].factId && Ids(q)[1..] == Ids(q[1..])
    ensures Ids(q) == [q[0].factId] + Ids(q[1..])
  {
  }

  /** Removing the exhausted entries one by one leaves the eligible ones. */
  lemma {:induction false} UnparkedAllMembers(q: seq<Parked>, gone: seq<Parked>)
    requires UniqueIds(q)
    ensures UniqueIds(UnparkedAll(q, gone)) && |UnparkedAll(q, gone)| <= |q|
    ensures forall e :: e in UnparkedAll(q, gone) <==> e in q && !Holds(gone, e.factId)
    decreases gone
  {
    if |gone| > 0 {
      UnparkMembers(q, gone[0].factId);
      UnparkedAllMembers(Unpark(q, gone[0].factId), gone[1..]);
      forall e: Parked ensures Holds(gone, e.factId) <==> gone[0].factId == e.factId || Holds(gone[1..], e.factId) {
        HoldsMember(gone, e.factId);
        HoldsMember(gone[1..], e.factId);
        assert gone == [gone[0]] + gone[1..];
      }
    }
  }
}

/** The policy object: dedupe set and retry budget, updated in place. */
module IngestPolicies {
  import opened EngineTypes
  import opened DeferredQueue

  class IngestPolicy {
    const options: Options
    var processed: set<string>
    var deferred: seq<Parked>

    constructor (o: Options)
      requires ValidOptions(o)
      ensures options == o && processed == {} && deferred == []
    {
      options, processed, deferred := o, {}, [];
    }

    predicate HasProcessed(eventId: string)
      reads this
    {
      eventId in processed
    }

    method MarkProcessed(eventId: string)
      modifies this`processed
      ensures processed == old(processed) + {eventId}
    {
      processed := processed + {eventId};
    }

    method HasDeferred(factId: string) returns (r: bool)
      ensures r == Holds(deferred, factId)
    {
      r := false;
      for i := 0 to |deferred|
        invariant r <==> exists j :: 0 <= j < i && deferred[j].factId == factId
      {
        if deferred[i].factId == factId { r := true; }
      }
    }

    method EnqueueDeferred(factId: string, fact: RawFact, reason: DeferredReason, now: int) returns (isNew: bool)
      requires ValidOptions(options)
      modifies this`deferred
      ensures isNew == !Holds(old(deferred), factId)
      ensures deferred == Park(old(deferred), Parked(factId, fact, reason, now, 0), options.maxDeferredSize)
    {
      var present := HasDeferred(factId);
      if present { return false; }
      ghost var all := deferred + [Parked(factId, fact, reason, now, 0)];
      deferred := deferred + [Parked(factId, fact, reason, now, 0)];
      while |deferred| > options.maxDeferredSize
        invariant |deferred| <= |all| && deferred == all[|all| - |deferred|..]
        invariant |deferred| >= options.maxDeferredSize || deferred == all
      {
        deferred := deferred[1..];
      }
      isNew := true;
    }

    method RemoveDeferred(factId: string)
      modifies this`deferred
      ensures deferred == Unpark(old(deferred), factId)
    {
      deferred := Unpark(deferred, factId);
    }

    function DeferredFactIds(): (r: seq<string>)
      reads this
    {
      Ids(deferred)
    }

    function RetryBatch(): (r: seq<Parked>)
      reads this
      ensures forall e :: e in r <==> e in deferred && e.attempts < options.maxRetryAttempts
    {
      Eligible(deferred, options.maxRetryAttempts)
    }

    function ExhaustedEntries(): (r: seq<Parked>)
      reads this
      ensures forall e :: e in r <==> e in deferred && e.attempts >= options.maxRetryAttempts
    {
      Exhausted(deferred, options.maxRetryAttempts)
    }

    method RecordAttempt(factId: string)
      modifies this`deferred
      ensures deferred == Charged(old(deferred), factId)
    {
      ghost var before := deferred;
      for i := 0 to |deferred|
        invariant |deferred| == |before|
        invariant forall j :: 0 <= j < i ==> deferred[j] == Charged(before, factId)[j]
        invariant forall j :: i <= j < |before| ==> deferred[j] == before[j]
      {
        if deferred[i].factId == factId {
          deferred := deferred[i := deferred[i].(attempts := deferred[i].attempts + 1)];
        }
      }
    }

    method RefundAttempt(factId: string)
      modifies this`deferred
      ensures deferred == Refunded(old(deferred), factId)
    {
      ghost var before := deferred;
      for i := 0 to |deferred|
        invariant |deferred| == |before|
        invariant forall j :: 0 <= j < i ==> deferred[j] == Refunded(before, factId)[j]
        invariant forall j :: i <= j < |before| ==> deferred[j] == before[j]
      {
        if deferred[i].factId == factId && deferred[i].attempts > 0 {
          deferred := deferred[i := deferred[i].(attempts := deferred[i].attempts - 1)];
        }
      }
    }

    /** Both halves of a prune: what is removed and what stays, each in order. */
    method PruneDeferred(now: int) returns (removed: seq<Parked>)
      modifies this`deferred
      ensures removed == Expired(old(deferred), now, options.maxDeferredAgeSec)
      ensures deferred == Fresh(old(deferred), now, options.maxDeferredAgeSec)
    {
      var age := options.maxDeferredAgeSec;
      var cutoff := age * 1000;
      removed := [];
      var kept := [];
      for i := 0 to |deferred|
        invariant deferred == old(deferred)
        invariant removed == Expired(deferred[..i], now, age) && kept == Fresh(deferred[..i], now, age)
      {
        PruneStep(deferred, i, now, age);
        if now - deferred[i].queuedAt > cutoff {
          removed := removed + [deferred[i]];
        } else {
          kept := kept + [deferred[i]];
        }
      }
      assert deferred[..|deferred|] == deferred;
      deferred := kept;
    }
  }
}
