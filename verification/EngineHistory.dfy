/** Whole histories of one group: sessions cut by a crash at any await, clean
    stops, and resets cut short, in any number and order. */

module EngineHistory {
  import opened Wrappers
  import opened EngineTypes
  import opened EventLog
  import opened DeferredQueue
  import opened EngineSpec
  import opened EngineSafety
  import opened EngineRuns
  import Persistence

  // ------------------------------------------------ R3: the resubmission

  /** The reply to a resubmission: one fact signal per submitted fact, in order,
      with epoch advances anywhere between them. */
  predicate Replays(ds: seq<Delivery>, gap: seq<RawFact>)
    decreases ds
  {
    if |ds| == 0 then |gap| == 0
    else if ds[0].signal.EpochAdvanced? then Replays(ds[1..], gap)
    else |gap| > 0 && ds[0].signal.fact.id == gap[0].id && AllLanded(ds[0]) && Replays(ds[1..], gap[1..])
  }

  lemma PositionOf(log: seq<RawFact>, k: nat)
    requires Numbered(log) && k < |log|
    ensures HasFact(log, log[k].id) && SeqOf(log, log[k].id) == k + 1
  {
    var f := FindFact(log, log[k].id).value;
    var j :| 0 <= j < |log| && log[j] == f;
  }

  /** Resubmitting the next fact of the log covers it. */
  lemma NextFactInv(cfg: Config, s: State, d: Delivery, upto: nat, agree: bool)
    requires ValidOptions(cfg.options) && Inv(cfg, s, upto, agree) && AllLanded(d) && !d.signal.EpochAdvanced?
    requires upto < |s.disk.facts| && d.signal.fact.id == s.disk.facts[upto].id
    ensures var t := ProcessSignal(cfg, s, d, []);
            AllSafe(cfg, t) && Climbs(s, t) && Inv(cfg, End(s, t), upto + 1, agree) &&
            End(s, t).disk.facts == s.disk.facts && End(s, t).mem.lifecycle == s.mem.lifecycle
  {
    PositionOf(s.disk.facts, upto);
    SignalFacts(cfg, s, d);
    SignalLifecycle(cfg, s, d);
    hide Inv, ProcessSignal, AllSafe, Climbs;
    SignalInv(cfg, s, d, upto, agree);
  }

  lemma SignalLifecycle(cfg: Config, s: State, d: Delivery)
    requires ValidOptions(cfg.options) && !d.signal.EpochAdvanced?
    ensures End(s, ProcessSignal(cfg, s, d, [])).mem.lifecycle == s.mem.lifecycle
  {
    hide AppendFact, AppendEvent, SeqOf, FindFact, Holds, Park, Evicted, Unpark, Without, Ids;
  }

  lemma {:induction false} DrainInv(cfg: Config, s: State, ds: seq<Delivery>, upto: nat, agree: bool)
    requires ValidOptions(cfg.options) && Inv(cfg, s, upto, agree) && !s.mem.lifecycle.Live?
    requires upto <= |s.disk.facts| && Replays(ds, s.disk.facts[upto..])
    ensures Fine(cfg, s, DrainSignals(cfg, s, ds), agree)
    decreases ds
  {
    hide Inv, Safe, OnMessage, OnDeferred, OnSkipped, OnMalformed, RetryLoop;
    if |ds| > 0 {
      var t := ProcessSignal(cfg, s, ds[0], []);
      var s1 := End(s, t);
      if ds[0].signal.EpochAdvanced? {
        InvSame(cfg, s, s1, upto, agree);
        DrainInv(cfg, s1, ds[1..], upto, agree);
      } else {
        NextFactInv(cfg, s, ds[0], upto, agree);
        assert s.disk.facts[upto..][1..] == s.disk.facts[upto + 1..];
        DrainInv(cfg, s1, ds[1..], upto + 1, agree);
      }
      ClimbsAppend(s, t, DrainSignals(cfg, s1, ds[1..]));
      SafeAppend(cfg, t, DrainSignals(cfg, s1, ds[1..]));
    }
  }

  // ------------------------------------------------ R1 and R2: the rebuild

  lemma {:induction false} UnacceptedSame(ids: seq<string>, done: set<string>)
    ensures DistinctIds(ids) ==> DistinctIds(Unaccepted(ids, done))
    ensures |Unaccepted(ids, done)| == |ids| ==> Unaccepted(ids, done) == ids
  {
    if |ids| > 0 {
      UnacceptedSame(ids[1..], done);
      var r := Unaccepted(ids[1..], done);
      assert ids == [ids[0]] + ids[1..];
      if DistinctIds(ids) {
        RestIsDistinct(ids);
        hide Unaccepted;
        OneMoreDistinct(ids[0], r);
      }
    }
  }

  lemma OneMoreDistinct(id: string, ids: seq<string>)
    requires DistinctIds(ids) && id !in ids
    ensures DistinctIds([id] + ids)
  {
  }

  /** The rebuilt queue holds the ids whose fact is stored, nothing is evicted,
      and when every id has its fact the queue is the list, in its order. */
  lemma {:induction false} RebuildKeeps(s: State, ids: seq<string>, cap: nat, now: int)
    requires UniqueIds(s.mem.queue) && DistinctIds(ids) && |s.mem.queue| + |ids| <= cap
    requires forall id :: id in ids ==> !Holds(s.mem.queue, id)
    ensures var r := Rebuild(s, ids, cap, now);
            r == WithQueue(s, r.mem.queue) && UniqueIds(r.mem.queue) && |r.mem.queue| <= cap &&
            (forall x :: Holds(r.mem.queue, x) <==> Holds(s.mem.queue, x) || (x in ids && HasFact(s.disk.facts, x))) &&
            ((forall id :: id in ids ==> HasFact(s.disk.facts, id)) ==> Ids(r.mem.queue) == Ids(s.mem.queue) + ids)
    decreases ids
  {
    hide UniqueIds, Holds, HasFact, ParkIn, Ids, DistinctIds;
    if |ids| == 0 {
      assert Ids(s.mem.queue) + ids == Ids(s.mem.queue);
    } else {
      var f := FindFact(s.disk.facts, ids[0]);
      var rest := ids[1..];
      RestIsDistinct(ids);
      assert ids == [ids[0]] + rest;
      if f.Some? {
        var e := Parked(ids[0], f.value, Unreadable, now, 0);
        var q := s.mem.queue + [e];
        ParkWithRoom(s, cap, e);
        HoldsOneMore(s.mem.queue, e);
        RebuildKeeps(WithQueue(s, q), rest, cap, now);
        assert Ids(s.mem.queue) + [ids[0]] + rest == Ids(s.mem.queue) + ids;
      } else {
        RebuildKeeps(s, rest, cap, now);
      }
    }
  }

  lemma RestIsDistinct(ids: seq<string>)
    requires DistinctIds(ids) && |ids| > 0
    ensures DistinctIds(ids[1..]) && ids[0] !in ids[1..]
  {
  }

  /** Below the cap, parking only adds at the end. */
  lemma ParkWithRoom(s: State, cap: nat, e: Parked)
    requires UniqueIds(s.mem.queue) && !Holds(s.mem.queue, e.factId) && |s.mem.queue| < cap
    ensures var q := s.mem.queue + [e];
            ParkIn(s, cap, e) == WithQueue(s, q) && UniqueIds(q) && Ids(q) == Ids(s.mem.queue) + [e.factId]
  {
    assert s.ledger.terminal + {} == s.ledger.terminal;
  }

  lemma HoldsOneMore(q: seq<Parked>, e: Parked)
    ensures forall x :: Holds(q + [e], x) <==> Holds(q, x) || x == e.factId
  {
    forall x ensures Holds(q + [e], x) <==> Holds(q, x) || x == e.factId {
      if Holds(q, x) {
        var i :| 0 <= i < |q| && q[i].factId == x;
        assert (q + [e])[i].factId == x;
      }
      if x == e.factId { assert (q + [e])[|q|].factId == x; }
    }
  }

  /** The fact number up to which the next start trusts that nothing is missing. */
  function Watermark(d: Disk): (r: nat) {
    if RouteOf(d).Recover? then RouteOf(d).checkpoint.lastIngestedSeq else 0
  }

  predicate AllStored(ids: seq<string>, facts: seq<RawFact>) {
    forall id :: id in ids ==> HasFact(facts, id)
  }

  /** Every parked id that R2a keeps has its fact in the log. */
  predicate ParkedAreStored(d: Disk) {
    AllStored(Unaccepted(d.deferred, AcceptedFactIds(d.accepted)), d.facts)
  }

  /** An id dropped by R2a belongs to a fact whose event is in the accepted log. */
  lemma AcceptedIsConcluded(cfg: Config, d: Disk, l: Ledger, id: string)
    requires DiskOk(cfg, d, l) && id in AcceptedFactIds(d.accepted)
    ensures Concluded(d.accepted, l, id)
  {
    var i :| 0 <= i < |d.accepted| && d.accepted[i].factId == id;
    assert (d.accepted[i].factId, d.accepted[i].id) in l.decoded;
  }

  /** After R2a, a fact that was covered is concluded or still parked. */
  lemma LiveCovers(cfg: Config, d: Disk, l: Ledger, id: string)
    requires DiskOk(cfg, d, l) && Covered(d, l, id)
    ensures Concluded(d.accepted, l, id) || id in Unaccepted(d.deferred, AcceptedFactIds(d.accepted))
  {
    if id in AcceptedFactIds(d.accepted) { AcceptedIsConcluded(cfg, d, l, id); }
  }

  lemma LiveIsSafe(cfg: Config, s: State)
    requires Safe(cfg, s)
    ensures Safe(cfg, s.(disk := s.disk.(deferred := Unaccepted(s.disk.deferred, AcceptedFactIds(s.disk.accepted)))))
  {
    UnacceptedSame(s.disk.deferred, AcceptedFactIds(s.disk.accepted));
    forall k | 0 <= k < s.mem.lastIngestedSeq
      ensures Concluded(s.disk.accepted, s.ledger, s.disk.facts[k].id) ||
              s.disk.facts[k].id in Unaccepted(s.disk.deferred, AcceptedFactIds(s.disk.accepted))
    {
      LiveCovers(cfg, s.disk, s.ledger, s.disk.facts[k].id);
    }
  }

  /** The queue rebuilt from a safe disk meets the invariant. */
  lemma RebuiltInv(cfg: Config, s: State, now: int)
    requires Safe(cfg, s) && s.mem.queue == [] && forall x :: x in s.mem.processed ==> HasEvent(s.disk.accepted, x)
    requires forall k :: 0 <= k < s.mem.lastIngestedSeq ==>
      Concluded(s.disk.accepted, s.ledger, s.disk.facts[k].id) || s.disk.facts[k].id in s.disk.deferred
    ensures var r := Rebuild(s, s.disk.deferred, cfg.options.maxDeferredSize, now);
            r == WithQueue(s, r.mem.queue) && Inv(cfg, r, s.mem.lastIngestedSeq, AllStored(s.disk.deferred, s.disk.facts))
  {
    hide Concluded, HasEvent, UniqueEvents, Rebuild;
    var r := Rebuild(s, s.disk.deferred, cfg.options.maxDeferredSize, now);
    var q := r.mem.queue;
    assert forall x :: !Holds([], x);
    RebuildKeeps(s, s.disk.deferred, cfg.options.maxDeferredSize, now);
    assert Ids([]) + s.disk.deferred == s.disk.deferred;
    assert forall k :: 0 <= k < s.mem.lastIngestedSeq ==> HasFact(s.disk.facts, s.disk.facts[k].id);
    hide HasFact, UniqueIds, Numbered;
    forall i | 0 <= i < |q| ensures HasFact(s.disk.facts, q[i].factId) && q[i].factId in s.disk.deferred {
      assert Holds(q, q[i].factId);
    }
  }

  lemma LoadInv(cfg: Config, s: State, now: int)
    requires ValidOptions(cfg.options) && Safe(cfg, s) && s.mem.queue == [] && s.mem.processed == {}
    ensures var t := LoadAndRebuild(cfg, s, now, Landed);
            var r := End(s, t);
            AllSafe(cfg, t) && Climbs(s, t) && r.disk.facts == s.disk.facts &&
            r.mem == s.mem.(processed := r.mem.processed, queue := r.mem.queue) && r.ledger == s.ledger &&
            Inv(cfg, r, s.mem.lastIngestedSeq, ParkedAreStored(s.disk))
  {
    var t := LoadAndRebuild(cfg, s, now, Landed);
    LoadShape(cfg, s, now);
    assert {} + EventIds(s.disk.accepted) == EventIds(s.disk.accepted);
    hide Safe, Inv, Rebuild, LoadAndRebuild, Unaccepted, EventIds, AcceptedFactIds, ParkedAreStored, AllSafe, Climbs;
    SafeSame(cfg, s, t[0]);
    LiveIsSafe(cfg, t[0]);
    assert Safe(cfg, t[1]);
    LiveInv(cfg, s, t[1], now);
    InvIsSafe(cfg, t[2], s.mem.lastIngestedSeq, ParkedAreStored(s.disk));
    LevelAwaits(cfg, s, t);
  }

  lemma LevelAwaits(cfg: Config, s: State, t: seq<State>)
    requires |t| == 3 && Safe(cfg, t[0]) && Safe(cfg, t[1]) && Safe(cfg, t[2])
    requires forall k :: 0 <= k < 3 ==>
      t[k].disk.facts == s.disk.facts && t[k].disk.accepted == s.disk.accepted &&
      t[k].ledger == s.ledger && t[k].mem.lastIngestedSeq == s.mem.lastIngestedSeq
    ensures AllSafe(cfg, t) && Climbs(s, t)
  {
    hide Safe;
  }

  lemma LiveInv(cfg: Config, s: State, s1: State, now: int)
    requires Safe(cfg, s) && Safe(cfg, s1) && s.mem.queue == [] && s.mem.processed == {}
    requires s1.mem == s.mem.(processed := EventIds(s.disk.accepted)) && s1.ledger == s.ledger
    requires s1.disk == s.disk.(deferred := Unaccepted(s.disk.deferred, AcceptedFactIds(s.disk.accepted)))
    ensures var r := Rebuild(s1, s1.disk.deferred, cfg.options.maxDeferredSize, now);
            r == WithQueue(s1, r.mem.queue) && Inv(cfg, r, s.mem.lastIngestedSeq, ParkedAreStored(s.disk))
  {
    LiveConcludes(cfg, s);
    hide Safe, Inv, Rebuild, Concluded, AllStored;
    RebuiltInv(cfg, s1, now);
  }

  lemma LoadShape(cfg: Config, s: State, now: int)
    requires ValidOptions(cfg.options)
    ensures var t := LoadAndRebuild(cfg, s, now, Landed);
            var live := Unaccepted(s.disk.deferred, AcceptedFactIds(s.disk.accepted));
            |t| == 3 && t[0] == s.(mem := s.mem.(processed := s.mem.processed + EventIds(s.disk.accepted))) &&
            t[1] == t[0].(disk := s.disk.(deferred := live)) &&
            t[2] == Rebuild(t[1], live, cfg.options.maxDeferredSize, now)
  {
    UnacceptedSame(s.disk.deferred, AcceptedFactIds(s.disk.accepted));
  }

  /** The rebuilt queue agrees with the stored list if and only if every parked id
      that R2a keeps has its fact in the log. */
  lemma RebuiltAgreesExactly(cfg: Config, s: State, now: int)
    requires ValidOptions(cfg.options) && Safe(cfg, s) && s.mem.queue == []
    ensures var r := End(s, LoadAndRebuild(cfg, s, now, Landed));
            r.disk.deferred == Ids(r.mem.queue) <==> ParkedAreStored(s.disk)
  {
    var t := LoadAndRebuild(cfg, s, now, Landed);
    UnacceptedSame(s.disk.deferred, AcceptedFactIds(s.disk.accepted));
    assert DistinctIds(s.disk.deferred) && |s.disk.deferred| <= cfg.options.maxDeferredSize;
    assert t[1].disk == s.disk.(deferred := Unaccepted(s.disk.deferred, AcceptedFactIds(s.disk.accepted)));
    hide Safe, Rebuild, Unaccepted, DistinctIds;
    RebuildAgrees(t[1], cfg.options.maxDeferredSize, now);
  }

  lemma RebuildAgrees(s: State, cap: nat, now: int)
    requires s.mem.queue == [] && DistinctIds(s.disk.deferred) && |s.disk.deferred| <= cap
    ensures var r := Rebuild(s, s.disk.deferred, cap, now);
            r.disk.deferred == Ids(r.mem.queue) <==> AllStored(s.disk.deferred, s.disk.facts)
  {
    var ids := s.disk.deferred;
    assert forall x :: !Holds([], x);
    RebuildKeeps(s, ids, cap, now);
    hide Rebuild, UniqueIds, DistinctIds, HasFact, Holds;
    var q := Rebuild(s, ids, cap, now).mem.queue;
    assert Ids([]) + ids == ids;
    if Ids(q) == ids {
      forall id | id in ids ensures HasFact(s.disk.facts, id) { ListedIsHeld(q, id); }
    }
  }

  lemma ListedIsHeld(q: seq<Parked>, id: string)
    requires id in Ids(q)
    ensures Holds(q, id)
  {
    var i :| 0 <= i < |Ids(q)| && Ids(q)[i] == id;
    assert q[i].factId == id;
  }

  lemma LiveConcludes(cfg: Config, s: State)
    requires Safe(cfg, s)
    ensures s.mem.lastIngestedSeq <= |s.disk.facts|
    ensures forall k :: 0 <= k < s.mem.lastIngestedSeq ==>
      Concluded(s.disk.accepted, s.ledger, s.disk.facts[k].id) ||
      s.disk.facts[k].id in Unaccepted(s.disk.deferred, AcceptedFactIds(s.disk.accepted))
  {
    forall k | 0 <= k < s.mem.lastIngestedSeq
      ensures Concluded(s.disk.accepted, s.ledger, s.disk.facts[k].id) ||
              s.disk.facts[k].id in Unaccepted(s.disk.deferred, AcceptedFactIds(s.disk.accepted))
    {
      LiveCovers(cfg, s.disk, s.ledger, s.disk.facts[k].id);
    }
  }

  // ------------------------------------------------ one session

  predicate AllConcluded(d: Disk, l: Ledger) {
    forall k :: 0 <= k < |d.facts| ==> Concluded(d.accepted, l, d.facts[k].id)
  }

  /** The assumptions on a session: no write gives up; a recovering start gets
      its gap back in order; a joining start (which forgets the watermark and
      the parked ids) finds no fact with work left. */
  predicate SessionOk(cfg: Config, d: Disk, l: Ledger, ses: Session)
    requires ValidOptions(cfg.options)
  {
    ses.afterPrune.Landed? &&
    (RouteOf(d).Join? ==> AllConcluded(d, l)) &&
    (!RouteOf(d).Join? ==> Watermark(d) <= |d.facts| && Replays(ses.replay, d.facts[Watermark(d)..])) &&
    CommandsOk(cfg, End(StartState(d, l), StartTrace(cfg, d, l, ses)), ses.commands)
  }

  /** When the queue and its durable copy agree from the start of a session on. */
  predicate Agrees(d: Disk) {
    if RouteOf(d).Join? then d.deferred == [] else ParkedAreStored(d)
  }

  lemma StartInv(cfg: Config, d: Disk, l: Ledger, ses: Session)
    requires ValidOptions(cfg.options) && DiskOk(cfg, d, l) && NothingLost(d, l, Watermark(d))
    requires SessionOk(cfg, d, l, ses)
    ensures Fine(cfg, StartState(d, l), StartTrace(cfg, d, l, ses), Agrees(d))
  {
    var s := StartState(d, l);
    assert s.mem.lastIngestedSeq == Watermark(d);
    if RouteOf(d).Join? {
      assert Steady(cfg, s, Agrees(d));
      FineOne(cfg, s, s, Agrees(d));
    } else {
      assert Safe(cfg, s);
      RecoveryInv(cfg, s, ses);
      hide Inv, Safe, Recovery, StartState;
      assert Climbs(s, [s]) && AllSafe(cfg, [s]);
      ClimbsAppend(s, [s], Recovery(cfg, s, ses));
      SafeAppend(cfg, [s], Recovery(cfg, s, ses));
    }
  }

  lemma RecoveryInv(cfg: Config, s: State, ses: Session)
    requires ValidOptions(cfg.options) && Safe(cfg, s) && s.mem.queue == [] && s.mem.processed == {} && s.mem.lifecycle.Recovering?
    requires ses.afterPrune.Landed? && s.mem.lastIngestedSeq <= |s.disk.facts|
    requires Replays(ses.replay, s.disk.facts[s.mem.lastIngestedSeq..])
    ensures Fine(cfg, s, Recovery(cfg, s, ses), ParkedAreStored(s.disk))
  {
    hide Inv, Safe, LoadAndRebuild, DrainSignals, ParkedAreStored, Replays;
    var agree := ParkedAreStored(s.disk);
    LoadInv(cfg, s, ses.now);
    var t1 := LoadAndRebuild(cfg, s, ses.now, Landed);
    var s1 := End(s, t1);
    DrainInv(cfg, s1, ses.replay, s.mem.lastIngestedSeq, agree);
    var t2 := DrainSignals(cfg, s1, ses.replay);
    var s2 := End(s1, t2);
    var s3 := Transition(s2, CatchingUp);
    InvSame(cfg, s2, s3, |s2.disk.facts|, agree);
    FineOne(cfg, s2, s3, agree);
    ClimbsAppend(s, t1, t2);
    SafeAppend(cfg, t1, t2);
    FineAppend(cfg, s, t1 + t2, [s3], agree);
  }

  lemma SessionInv(cfg: Config, d: Disk, l: Ledger, ses: Session)
    requires ValidOptions(cfg.options) && DiskOk(cfg, d, l) && NothingLost(d, l, Watermark(d))
    requires SessionOk(cfg, d, l, ses)
    ensures Fine(cfg, StartState(d, l), SessionTrace(cfg, d, l, ses), Agrees(d))
  {
    hide Inv, Safe, Fine, StartTrace, OnCommands, CommandsOk;
    var s := StartState(d, l);
    var t := StartTrace(cfg, d, l, ses);
    StartInv(cfg, d, l, ses);
    FineEnds(cfg, s, t, Agrees(d));
    CommandsInv(cfg, End(s, t), ses.commands, Agrees(d));
    FineAppend(cfg, s, t, OnCommands(cfg, End(s, t), ses.commands), Agrees(d));
  }

  // ------------------------------------------------ histories

  /** Which checkpoint is durable when a session ends: the one it started from,
      one built at an earlier await, or the one a clean stop writes. */
  datatype Saved = Untouched | BuiltAt(j: nat) | Stop

  datatype History =
    | Empty
    | Ran(past: History, session: Session, at: nat, saved: Saved)
    | ResetAt(past: History, image: Disk)

  datatype Remains = Remains(disk: Disk, ledger: Ledger)

  const NOTHING := Remains(EMPTY_DISK, Ledger({}, {}, {}))

  function SavedCheckpoint(d: Disk, t: seq<State>, at: nat, saved: Saved): (r: Option<Checkpoint>)
    requires at < |t| && (saved.BuiltAt? ==> saved.j <= at)
  {
    match saved
    case Untouched => d.checkpoint
    case BuiltAt(j) => Some(CheckpointOf(t[j].mem))
    case Stop => Some(CheckpointOf(t[at].mem.(lifecycle := Stopped)))
  }

  function LedgerAfterReset(l: Ledger, image: Disk): (r: Ledger) {
    Ledger(set p | p in l.decoded && HasEvent(image.accepted, p.1), {}, set id | id in image.deferred)
  }

  /** What is durable after a history, and what the ledger says about it. */
  function Left(cfg: Config, h: History): (r: Remains)
    requires ValidOptions(cfg.options)
  {
    match h
    case Empty => NOTHING
    case Ran(past, ses, at, saved) =>
      var before := Left(cfg, past);
      var t := SessionTrace(cfg, before.disk, before.ledger, ses);
      if at < |t| && (saved.BuiltAt? ==> saved.j <= at) then
        Remains(t[at].disk.(checkpoint := SavedCheckpoint(before.disk, t, at, saved)), t[at].ledger)
      else before
    case ResetAt(past, image) => Remains(image, LedgerAfterReset(Left(cfg, past).ledger, image))
  }

  predicate Possible(cfg: Config, h: History)
    requires ValidOptions(cfg.options)
  {
    match h
    case Empty => true
    case Ran(past, ses, at, saved) =>
      var before := Left(cfg, past);
      Possible(cfg, past) && SessionOk(cfg, before.disk, before.ledger, ses) &&
      at < |SessionTrace(cfg, before.disk, before.ledger, ses)| && (saved.BuiltAt? ==> saved.j <= at)
    case ResetAt(past, image) =>
      Possible(cfg, past) && Persistence.PartlyCleared(image, Left(cfg, past).disk)
  }

  /** The state of affairs a restart relies on. */
  predicate Sound(cfg: Config, r: Remains) {
    DiskOk(cfg, r.disk, r.ledger) && NothingLost(r.disk, r.ledger, Watermark(r.disk))
  }

  lemma LowerWatermark(d: Disk, l: Ledger, high: nat, low: nat)
    requires NothingLost(d, l, high) && low <= high
    ensures NothingLost(d, l, low)
  {
  }

  /** A cut of a sound session leaves a sound disk. */
  lemma CutIsSound(cfg: Config, before: Remains, ses: Session, at: nat, saved: Saved)
    requires ValidOptions(cfg.options) && Sound(cfg, before) && SessionOk(cfg, before.disk, before.ledger, ses)
    requires at < |SessionTrace(cfg, before.disk, before.ledger, ses)| && (saved.BuiltAt? ==> saved.j <= at)
    ensures var t := SessionTrace(cfg, before.disk, before.ledger, ses);
            Sound(cfg, Remains(t[at].disk.(checkpoint := SavedCheckpoint(before.disk, t, at, saved)), t[at].ledger)) &&
            t[at].ledger.strays == before.ledger.strays &&
            before.disk.facts <= t[at].disk.facts && before.disk.accepted <= t[at].disk.accepted
  {
    SessionInv(cfg, before.disk, before.ledger, ses);
    hide SessionTrace, SessionOk, DiskOk, NothingLost, Inv;
    var s := StartState(before.disk, before.ledger);
    var t := SessionTrace(cfg, before.disk, before.ledger, ses);
    ClimbsPairwise(s, t, if saved.BuiltAt? then saved.j else at, at);
    assert Safe(cfg, t[at]);
    var d := t[at].disk.(checkpoint := SavedCheckpoint(before.disk, t, at, saved));
    SameButCheckpoint(cfg, t[at].disk, d, t[at].ledger);
    LowerWatermark(d, t[at].ledger, t[at].mem.lastIngestedSeq, Watermark(d));
  }

  lemma SameButCheckpoint(cfg: Config, a: Disk, b: Disk, l: Ledger)
    requires b == a.(checkpoint := b.checkpoint)
    ensures DiskOk(cfg, a, l) == DiskOk(cfg, b, l)
    ensures forall w :: NothingLost(a, l, w) == NothingLost(b, l, w)
  {
  }

  lemma ResetIsSound(cfg: Config, before: Remains, image: Disk)
    requires Sound(cfg, before) && Persistence.PartlyCleared(image, before.disk)
    ensures Sound(cfg, Remains(image, LedgerAfterReset(before.ledger, image)))
  {
  }

  lemma {:induction false} HistoryIsSound(cfg: Config, h: History)
    requires ValidOptions(cfg.options) && Possible(cfg, h)
    ensures Sound(cfg, Left(cfg, h))
  {
    hide SessionTrace, SessionOk, Sound, StartState;
    match h
    case Empty => assert Sound(cfg, NOTHING) by { EmptyIsSound(cfg); }
    case Ran(past, ses, at, saved) =>
      HistoryIsSound(cfg, past);
      CutIsSound(cfg, Left(cfg, past), ses, at, saved);
    case ResetAt(past, image) =>
      HistoryIsSound(cfg, past);
      ResetIsSound(cfg, Left(cfg, past), image);
  }

  lemma EmptyIsSound(cfg: Config)
    requires ValidOptions(cfg.options)
    ensures Sound(cfg, NOTHING)
  {
  }

  /** No fact is lost: after any history, each stored fact up to the watermark the
      next start will use is concluded (its event is in the accepted log, or it
      has a terminal verdict) or parked, and the others are exactly the facts
      that R3 resubmits, in order. */
  lemma NoFactIsLost(cfg: Config, h: History)
    requires ValidOptions(cfg.options) && Possible(cfg, h)
    ensures var d, l := Left(cfg, h).disk, Left(cfg, h).ledger;
            Watermark(d) <= |d.facts| &&
            (forall k :: 0 <= k < Watermark(d) ==>
              d.facts[k].id in l.terminal || Decoded(d.accepted, l, d.facts[k].id) || d.facts[k].id in d.deferred) &&
            GapFacts(SortBySeq(d.facts), Watermark(d)) == d.facts[Watermark(d)..]
  {
    hide Left;
    HistoryIsSound(cfg, h);
    var r := Left(cfg, h);
    assert NothingLost(r.disk, r.ledger, Watermark(r.disk));
    GapIsSuffix(r.disk.facts, Watermark(r.disk));
    forall k | 0 <= k < Watermark(r.disk)
      ensures r.disk.facts[k].id in r.ledger.terminal || Decoded(r.disk.accepted, r.ledger, r.disk.facts[k].id) ||
              r.disk.facts[k].id in r.disk.deferred
    {
      assert Covered(r.disk, r.ledger, r.disk.facts[k].id);
    }
  }

  // ------------------------------------------------ the queue and its durable copy

  predicate NeverReset(h: History) {
    match h
    case Empty => true
    case Ran(past, _, _, _) => NeverReset(past)
    case ResetAt(_, _) => false
  }

  lemma {:induction false} WithoutResetNoStrays(cfg: Config, h: History)
    requires ValidOptions(cfg.options) && Possible(cfg, h) && NeverReset(h)
    ensures Left(cfg, h).ledger.strays == {} && ParkedAreStored(Left(cfg, h).disk)
  {
    HistoryIsSound(cfg, h);
    hide SessionTrace, SessionOk, StartState, NothingLost;
    if h.Ran? {
      WithoutResetNoStrays(cfg, h.past);
      HistoryIsSound(cfg, h.past);
      CutIsSound(cfg, Left(cfg, h.past), h.session, h.at, h.saved);
    }
  }

  /** After any history, resets included, a session that starts in agreement keeps
      the stored id list equal to the queue's ids, in order, whenever it is between
      handlers. RebuiltAgreesExactly says which starts are. */
  lemma QueueAgreesWithStore(cfg: Config, h: History, ses: Session, n: nat)
    requires ValidOptions(cfg.options) && Possible(cfg, h) && Agrees(Left(cfg, h).disk)
    requires SessionOk(cfg, Left(cfg, h).disk, Left(cfg, h).ledger, ses) && n <= |ses.commands|
    ensures var b := Left(cfg, h);
            var s := End(StartState(b.disk, b.ledger), SessionTrace(cfg, b.disk, b.ledger, ses.(commands := ses.commands[..n])));
            s.disk.deferred == Ids(s.mem.queue)
  {
    HistoryIsSound(cfg, h);
    var b := Left(cfg, h);
    var cut := ses.(commands := ses.commands[..n]);
    var s := End(StartState(b.disk, b.ledger), StartTrace(cfg, b.disk, b.ledger, ses));
    assert StartTrace(cfg, b.disk, b.ledger, cut) == StartTrace(cfg, b.disk, b.ledger, ses);
    FewerCommandsOk(cfg, s, ses.commands, n);
    assert SessionOk(cfg, b.disk, b.ledger, cut);
    SessionInv(cfg, b.disk, b.ledger, cut);
  }

  /** The condition is met after every history without a reset, for a start that recovers. */
  lemma WithoutResetAgrees(cfg: Config, h: History)
    requires ValidOptions(cfg.options) && Possible(cfg, h) && NeverReset(h)
    requires RouteOf(Left(cfg, h).disk).Join? ==> Left(cfg, h).disk.deferred == []
    ensures Agrees(Left(cfg, h).disk)
  {
    WithoutResetNoStrays(cfg, h);
  }

  lemma {:induction false} FewerCommandsOk(cfg: Config, s: State, cs: seq<Command>, n: nat)
    requires ValidOptions(cfg.options) && CommandsOk(cfg, s, cs) && n <= |cs|
    ensures CommandsOk(cfg, s, cs[..n])
    decreases n
  {
    hide OnCommand, CommandOk;
    if n > 0 {
      FewerCommandsOk(cfg, End(s, OnCommand(cfg, s, cs[0])), cs[1..], n - 1);
      assert cs[..n][1..] == cs[1..][..n - 1];
    }
  }

  /** Once a session has caught up with its log, no crash inside a later handler
      finds a stored fact in neither place: not while it is being accepted,
      un-parked, expired or retired. */
  lemma StoredFactsStayCovered(cfg: Config, s: State, c: Command, agree: bool, k: nat, i: nat)
    requires ValidOptions(cfg.options) && Steady(cfg, s, agree) && CommandOk(s.disk.facts, c)
    requires s.mem.lastIngestedSeq == |s.disk.facts|
    requires k < |OnCommand(cfg, s, c)| && i < |s.disk.facts|
    ensures var crash := OnCommand(cfg, s, c)[k];
            Covered(crash.disk, crash.ledger, s.disk.facts[i].id)
  {
    CommandInv(cfg, s, c, agree);
    hide OnCommand, Covered;
    var t := OnCommand(cfg, s, c);
    ClimbsPairwise(s, t, k, k);
    assert Safe(cfg, t[k]);
    assert t[k].disk.facts[i] == s.disk.facts[i];
  }
}
