/** Shapes shared by the engine and the stores (src/engine/engine-types.ts). */

module EngineTypes {
  import opened Wrappers
  import opened TaskDomain

  datatype ReceiptSource = Historical | LivePush | BootstrapSnapshot

  datatype FactInput = FactInput(
    id: string, groupId: string, nostrEventId: string, nostrEvent: string, receivedAt: int,
    receiptSource: ReceiptSource, epochAtReceipt: string)

  /** A fact as stored: the input plus the number the log minted for it. */
  datatype RawFact = RawFact(seqNo: nat, input: FactInput) {
    const id := input.id
  }

  datatype Lifecycle =
    | Uninitialized | Joining | Recovering | CatchingUp | BufferingLive | Live | RetryingDeferred | Stopped

  datatype Checkpoint = Checkpoint(
    engineState: Lifecycle, lastEpoch: Option<string>, lastIngestedSeq: nat,
    lastAcceptedDomainEventId: Option<string>, bootstrapCompleted: bool)

  /** Everything durable for one group; an absent key reads as empty. */
  datatype Disk = Disk(
    facts: seq<RawFact>, accepted: seq<AcceptedEvent>, deferred: seq<string>, checkpoint: Option<Checkpoint>)

  const EMPTY_DISK := Disk([], [], [], None)

  datatype Outcome = Resolved | Threw

  /** The engine is created for a group with a name. */
  type GroupId = g: string | g != "" witness "group"

  function Without(ids: seq<string>, id: string): (r: seq<string>)
    ensures forall x :: x in r <==> x in ids && x != id
  {
    if |ids| == 0 then []
    else (if ids[0] != id then [ids[0]] else []) + Without(ids[1..], id)
  }
}

/** The raw-fact log (src/persistence/raw-event-log-store.ts), as functions on the stored arrays. */
module EventLog {
  import opened Wrappers
  import opened TaskDomain
  import opened EngineTypes

  predicate HasFact(log: seq<RawFact>, id: string) {
    exists i :: 0 <= i < |log| && log[i].id == id
  }

  function FindFact(log: seq<RawFact>, id: string): (r: Option<RawFact>)
    ensures r.Some? <==> HasFact(log, id)
    ensures r.Some? ==> r.value in log && r.value.id == id
  {
    if |log| == 0 then None
    else if log[0].id == id then Some(log[0])
    else
      var r := FindFact(log[1..], id);
      assert HasFact(log[1..], id) ==> HasFact(log, id) by {
        if HasFact(log[1..], id) {
          var i :| 0 <= i < |log[1..]| && log[1..][i].id == id;
          assert log[i + 1].id == id;
        }
      }
      assert HasFact(log, id) ==> HasFact(log[1..], id) by {
        if HasFact(log, id) {
          var i :| 0 <= i < |log| && log[i].id == id;
          assert log[1..][i - 1].id == id;
        }
      }
      r
  }

  function NextSeq(log: seq<RawFact>): (r: nat) {
    if |log| == 0 then 1 else log[|log| - 1].seqNo + 1
  }

  /** One atomic append: a known id changes nothing, a new one is numbered and added at the end. */
  function AppendFact(log: seq<RawFact>, fact: FactInput): (r: seq<RawFact>) {
    if HasFact(log, fact.id) then log else log + [RawFact(NextSeq(log), fact)]
  }

  predicate HasEvent(log: seq<AcceptedEvent>, id: string) {
    exists i :: 0 <= i < |log| && log[i].id == id
  }

  function AppendEvent(log: seq<AcceptedEvent>, event: AcceptedEvent): (r: seq<AcceptedEvent>) {
    if HasEvent(log, event.id) then log else log + [event]
  }

  // ------------------------------------------------ exact numbering

  /** Facts are numbered 1..n in array order and no id occurs twice. */
  predicate Numbered(log: seq<RawFact>) {
    (forall i :: 0 <= i < |log| ==> log[i].seqNo == i + 1) &&
    (forall i, j :: 0 <= i < j < |log| ==> log[i].id != log[j].id)
  }

  predicate UniqueEvents(log: seq<AcceptedEvent>) {
    forall i, j :: 0 <= i < j < |log| ==> log[i].id != log[j].id
  }

  lemma AppendKeepsNumbering(log: seq<RawFact>, fact: FactInput)
    requires Numbered(log)
    ensures var r := AppendFact(log, fact);
            Numbered(r) && log <= r && HasFact(r, fact.id) &&
            (forall id :: HasFact(r, id) <==> HasFact(log, id) || id == fact.id)
  {
    var r := AppendFact(log, fact);
    forall id | HasFact(log, id) ensures HasFact(r, id) {
      var i :| 0 <= i < |log| && log[i].id == id;
      assert r[i].id == id;
    }
    if !HasFact(log, fact.id) { assert r[|log|].id == fact.id; }
  }

  lemma AppendKeepsUnique(log: seq<AcceptedEvent>, event: AcceptedEvent)
    requires UniqueEvents(log)
    ensures var r := AppendEvent(log, event);
            UniqueEvents(r) && log <= r && HasEvent(r, event.id) &&
            (forall id :: HasEvent(r, id) <==> HasEvent(log, id) || id == event.id)
  {
    var r := AppendEvent(log, event);
    forall id | HasEvent(log, id) ensures HasEvent(r, id) {
      var i :| 0 <= i < |log| && log[i].id == id;
      assert r[i].id == id;
    }
    if !HasEvent(log, event.id) { assert r[|log|].id == event.id; }
  }

  function AppendAll(log: seq<RawFact>, facts: seq<FactInput>): (r: seq<RawFact>)
    decreases facts
  {
    if |facts| == 0 then log else AppendAll(AppendFact(log, facts[0]), facts[1..])
  }

  /** However appends of one group are interleaved and repeated, the stored facts
      are numbered 1..n without gaps, and what was stored is never disturbed. */
  lemma {:induction false} NumberingIsExact(log: seq<RawFact>, facts: seq<FactInput>)
    requires Numbered(log)
    ensures Numbered(AppendAll(log, facts)) && log <= AppendAll(log, facts)
    ensures forall f :: f in facts ==> HasFact(AppendAll(log, facts), f.id)
    decreases facts
  {
    if |facts| > 0 {
      var next := AppendFact(log, facts[0]);
      var r := AppendAll(next, facts[1..]);
      AppendKeepsNumbering(log, facts[0]);
      NumberingIsExact(next, facts[1..]);
      var i :| 0 <= i < |next| && next[i].id == facts[0].id;
      assert r[i].id == facts[0].id;
      assert facts == [facts[0]] + facts[1..];
    }
  }

  // ------------------------------------------------ reading the log back

  function InsertBySeq(f: RawFact, sorted: seq<RawFact>): (r: seq<RawFact>) {
    if |sorted| == 0 || f.seqNo <= sorted[0].seqNo then [f] + sorted
    else [sorted[0]] + InsertBySeq(f, sorted[1..])
  }

  function SortBySeq(log: seq<RawFact>): (r: seq<RawFact>) {
    if |log| == 0 then [] else InsertBySeq(log[0], SortBySeq(log[1..]))
  }

  predicate Ascending(log: seq<RawFact>) {
    forall i, j :: 0 <= i < j < |log| ==> log[i].seqNo < log[j].seqNo
  }

  lemma {:induction false} SortIsIdentity(log: seq<RawFact>)
    requires Ascending(log)
    ensures SortBySeq(log) == log
  {
    if |log| > 0 {
      SortIsIdentity(log[1..]);
      if |log| > 1 { assert log[0].seqNo < log[1].seqNo; }
    }
  }

  /** rawLog.filter(seq > watermark). */
  function GapFacts(log: seq<RawFact>, watermark: nat): (r: seq<RawFact>) {
    if |log| == 0 then []
    else (if log[0].seqNo > watermark then [log[0]] else []) + GapFacts(log[1..], watermark)
  }

  lemma {:induction false} GapFactsFrom(log: seq<RawFact>, watermark: nat, n: nat)
    requires forall i :: 0 <= i < |log| ==> log[i].seqNo == n + i + 1
    ensures GapFacts(log, watermark) ==
            log[if watermark <= n then 0 else if watermark - n <= |log| then watermark - n else |log|..]
  {
    if |log| > 0 {
      GapFactsFrom(log[1..], watermark, n + 1);
      if watermark <= n { assert log == [log[0]] + log[1..]; }
    }
  }

  /** The facts a recovery resubmits are exactly the end of the log behind the watermark. */
  lemma GapIsSuffix(log: seq<RawFact>, watermark: nat)
    requires Numbered(log)
    ensures SortBySeq(log) == log
    ensures GapFacts(log, watermark) == if watermark <= |log| then log[watermark..] else []
  {
    SortIsIdentity(log);
    GapFactsFrom(log, watermark, 0);
  }
}

/** The composed persistence adapter: src/persistence/raw-event-log-store.ts,
    checkpoint-store.ts and deferred-store.ts over atomic per-key updates. */
module Persistence {
  import opened Wrappers
  import opened TaskDomain
  import opened EngineTypes
  import opened EventLog

  class PersistenceAdapter {
    var rawFacts: map<string, seq<RawFact>>
    var acceptedEvents: map<string, seq<AcceptedEvent>>
    var deferredIds: map<string, seq<string>>
    var checkpoints: map<string, Checkpoint>

    constructor ()
      ensures forall g :: DiskOf(g) == EMPTY_DISK
    {
      rawFacts, acceptedEvents, deferredIds, checkpoints := map[], map[], map[], map[];
    }

    ghost function DiskOf(g: string): (r: Disk)
      reads this
    {
      Disk(if g in rawFacts then rawFacts[g] else [],
           if g in acceptedEvents then acceptedEvents[g] else [],
           if g in deferredIds then deferredIds[g] else [],
           if g in checkpoints then Some(checkpoints[g]) else None)
    }

    twostate predicate OthersKept(g: string)
      reads this
    {
      forall h :: h != g ==> DiskOf(h) == old(DiskOf(h))
    }

    method PutFacts(g: string, log: seq<RawFact>)
      modifies this
      ensures OthersKept(g) && DiskOf(g) == old(DiskOf(g)).(facts := log)
    {
      rawFacts := rawFacts[g := log];
    }

    /** A malformed producer (an empty id) throws; otherwise the stored fact is
        returned, and `duplicate` says that it was there already. */
    method AppendFact(fact: FactInput) returns (outcome: Outcome, stored: RawFact, duplicate: bool)
      modifies this
      ensures OthersKept(fact.groupId)
      ensures outcome.Threw? <==> fact.id == "" || fact.groupId == ""
      ensures outcome.Threw? ==> DiskOf(fact.groupId) == old(DiskOf(fact.groupId))
      ensures outcome.Resolved? ==>
        var before := old(DiskOf(fact.groupId));
        DiskOf(fact.groupId) == before.(facts := EventLog.AppendFact(before.facts, fact)) &&
        FindFact(DiskOf(fact.groupId).facts, fact.id) == Some(stored) &&
        duplicate == HasFact(before.facts, fact.id)
    {
      if fact.id == "" || fact.groupId == "" {
        return Threw, RawFact(0, fact), false;
      }
      hide FindFact, HasFact;
      var existing := if fact.groupId in rawFacts then rawFacts[fact.groupId] else [];
      var found := FindFact(existing, fact.id);
      if found.Some? {
        PutFacts(fact.groupId, existing);
        return Resolved, found.value, true;
      }
      stored := RawFact(if |existing| == 0 then 1 else existing[|existing| - 1].seqNo + 1, fact);
      FindLast(existing, stored);
      PutFacts(fact.groupId, existing + [stored]);
      outcome, duplicate := Resolved, false;
    }

    method LoadFacts(g: string) returns (r: seq<RawFact>)
      ensures r == SortBySeq(DiskOf(g).facts)
    {
      r := SortBySeq(if g in rawFacts then rawFacts[g] else []);
    }

    method AppendAcceptedEvent(event: AcceptedEvent) returns (outcome: Outcome)
      modifies this
      ensures OthersKept(event.groupId)
      ensures outcome.Threw? <==> event.id == "" || event.groupId == ""
      ensures outcome.Threw? ==> DiskOf(event.groupId) == old(DiskOf(event.groupId))
      ensures outcome.Resolved? ==>
        var before := old(DiskOf(event.groupId));
        DiskOf(event.groupId) == before.(accepted := AppendEvent(before.accepted, event))
    {
      if event.id == "" || event.groupId == "" { return Threw; }
      var existing := if event.groupId in acceptedEvents then acceptedEvents[event.groupId] else [];
      var present := false;
      for i := 0 to |existing|
        invariant present <==> exists j :: 0 <= j < i && existing[j].id == event.id
      {
        if existing[i].id == event.id { present := true; }
      }
      acceptedEvents := acceptedEvents[event.groupId := if present then existing else existing + [event]];
      outcome := Resolved;
    }

    method LoadAcceptedEvents(g: string) returns (r: seq<AcceptedEvent>)
      ensures r == DiskOf(g).accepted
    {
      r := if g in acceptedEvents then acceptedEvents[g] else [];
    }

    method SaveCheckpoint(g: string, c: Checkpoint) returns (outcome: Outcome)
      modifies this
      ensures OthersKept(g) && (outcome.Threw? <==> g == "")
      ensures DiskOf(g) == if g == "" then old(DiskOf(g)) else old(DiskOf(g)).(checkpoint := Some(c))
    {
      if g == "" { return Threw; }
      checkpoints := checkpoints[g := c];
      outcome := Resolved;
    }

    method LoadCheckpoint(g: string) returns (r: Option<Checkpoint>)
      ensures r == DiskOf(g).checkpoint
    {
      r := if g in checkpoints then Some(checkpoints[g]) else None;
    }

    method SaveDeferredIds(g: string, ids: seq<string>) returns (outcome: Outcome)
      modifies this
      ensures OthersKept(g) && (outcome.Threw? <==> g == "")
      ensures DiskOf(g) == if g == "" then old(DiskOf(g)) else old(DiskOf(g)).(deferred := ids)
    {
      if g == "" { return Threw; }
      deferredIds := deferredIds[g := ids];
      outcome := Resolved;
    }

    method LoadDeferredIds(g: string) returns (r: seq<string>)
      ensures r == DiskOf(g).deferred
    {
      r := if g in deferredIds then deferredIds[g] else [];
    }

    /** Accepted first, un-parked second; `mid` is what is durable in between.
        `half` models a call that fails after its first write has landed. */
    method AcceptDeferredFact(g: string, factId: string, event: AcceptedEvent, half: bool)
      returns (outcome: Outcome, ghost mid: Disk)
      requires event.groupId == g
      modifies this
      ensures OthersKept(g)
      ensures outcome.Threw? <==> half || g == "" || factId == "" || event.id == ""
      ensures g == "" || factId == "" || event.id == "" ==> mid == old(DiskOf(g)) && DiskOf(g) == mid
      ensures g != "" && factId != "" && event.id != "" ==>
        mid == old(DiskOf(g)).(accepted := AppendEvent(old(DiskOf(g)).accepted, event)) &&
        DiskOf(g) == if half then mid else mid.(deferred := Without(mid.deferred, factId))
    {
      mid := DiskOf(g);
      if g == "" || factId == "" { return Threw, mid; }
      outcome := AppendAcceptedEvent(event);
      mid := DiskOf(g);
      if outcome.Threw? { return; }
      if half { return Threw, mid; }
      var existing := if g in deferredIds then deferredIds[g] else [];
      deferredIds := deferredIds[g := Without(existing, factId)];
    }

    method ClearCheckpoint(g: string) returns (outcome: Outcome)
      modifies this
      ensures OthersKept(g) && (outcome.Threw? <==> g == "")
      ensures DiskOf(g) == if g == "" then old(DiskOf(g)) else old(DiskOf(g)).(checkpoint := None)
    {
      if g == "" { return Threw; }
      checkpoints := checkpoints - {g};
      outcome := Resolved;
    }

    /** removeItem on one of the remaining three keys. */
    method RemoveKey(g: string, key: StoreKey)
      modifies this
      ensures OthersKept(g) && DiskOf(g) == Cleared(old(DiskOf(g)), {key})
    {
      match key
      case FactsKey => rawFacts := rawFacts - {g};
      case AcceptedKey => acceptedEvents := acceptedEvents - {g};
      case DeferredKey => deferredIds := deferredIds - {g};
    }

    /** The checkpoint goes first; then the other three keys, in any order.
        `images` are the durable states after each removal. */
    method ClearGroupState(g: string) returns (outcome: Outcome, ghost images: seq<Disk>)
      modifies this
      ensures OthersKept(g) && (outcome.Threw? <==> g == "")
      ensures outcome.Threw? ==> DiskOf(g) == old(DiskOf(g)) && images == []
      ensures outcome.Resolved? ==> DiskOf(g) == EMPTY_DISK
      ensures outcome.Resolved? ==>
        |images| > 0 && images[0] == old(DiskOf(g)).(checkpoint := None) && images[|images| - 1] == EMPTY_DISK
      ensures forall i :: 0 <= i < |images| ==> PartlyCleared(images[i], old(DiskOf(g)))
    {
      ghost var before := DiskOf(g);
      outcome := ClearCheckpoint(g);
      if outcome.Threw? { return outcome, []; }
      ghost var start := DiskOf(g);
      images := [start];
      var left: set<StoreKey> := {FactsKey, AcceptedKey, DeferredKey};
      ghost var gone: set<StoreKey> := {};
      while left != {}
        invariant left + gone == {FactsKey, AcceptedKey, DeferredKey}
        invariant DiskOf(g) == Cleared(start, gone) && OthersKept(g)
        invariant |images| > 0 && images[0] == start && images[|images| - 1] == DiskOf(g)
        invariant forall i :: 0 <= i < |images| ==> PartlyCleared(images[i], before)
        decreases left
      {
        var key :| key in left;
        ClearedStep(start, gone, key);
        left, gone := left - {key}, gone + {key};
        hide Cleared, PartlyCleared;
        RemoveKey(g, key);
        images := images + [DiskOf(g)];
      }
    }
  }

  datatype StoreKey = FactsKey | AcceptedKey | DeferredKey

  function Cleared(d: Disk, keys: set<StoreKey>): (r: Disk) {
    Disk(if FactsKey in keys then [] else d.facts, if AcceptedKey in keys then [] else d.accepted,
         if DeferredKey in keys then [] else d.deferred, d.checkpoint)
  }

  lemma ClearedStep(d: Disk, keys: set<StoreKey>, key: StoreKey)
    ensures Cleared(Cleared(d, keys), {key}) == Cleared(d, keys + {key})
    ensures d.checkpoint == None ==> PartlyCleared(Cleared(d, keys + {key}), d)
  {
  }

  predicate PartlyCleared(d: Disk, before: Disk) {
    d.checkpoint == None && (d.facts == before.facts || d.facts == []) &&
    (d.accepted == before.accepted || d.accepted == []) && (d.deferred == before.deferred || d.deferred == [])
  }

  lemma {:induction false} FindLast(log: seq<RawFact>, f: RawFact)
    requires !HasFact(log, f.id)
    ensures FindFact(log + [f], f.id) == Some(f)
  {
    if |log| > 0 {
      assert log[0].id != f.id;
      assert (log + [f])[1..] == log[1..] + [f];
      forall i | 0 <= i < |log[1..]| ensures log[1..][i].id != f.id { assert log[i + 1].id != f.id; }
      FindLast(log[1..], f);
    }
  }
}
