/** The hook's incrementally folded projection against a full replay of the
    durable log, while rebuilds race with accepts and with each other
    (src/integration/react-engine-hooks.ts:344-480). */

module ProjectionHooks {
  import opened Wrappers
  import opened TaskDomain
  import opened TaskProjector
  import EventLog

  /** The effect-local variables. */
  datatype Hook = Hook(
    projection: Projection, generation: nat, active: Option<nat>, queue: seq<AcceptedEvent>, cancelled: bool)

  const MOUNTED := Hook(EMPTY_PROJECTION, 0, None, [], false)

  function Folded(h: Hook, e: AcceptedEvent): (r: Hook) {
    h.(projection := ApplyEvent(h.projection, e), queue := if h.active.Some? then h.queue + [e] else h.queue)
  }

  /** rebuildFromPersistence up to its read. */
  function Begun(h: Hook): (r: Hook) {
    h.(generation := h.generation + 1, active := Some(h.generation + 1), queue := [])
  }

  /** The queued events that the snapshot does not hold, applied in order. */
  function Caught(p: Projection, queue: seq<AcceptedEvent>, snapshot: seq<AcceptedEvent>): (r: Projection)
    decreases queue
  {
    if |queue| == 0 then p
    else Caught(if EventLog.HasEvent(snapshot, queue[0].id) then p else ApplyEvent(p, queue[0]), queue[1..], snapshot)
  }

  /** rebuildFromPersistence after its read, which may have failed. */
  function Resolved(h: Hook, g: nat, loaded: Option<seq<AcceptedEvent>>): (r: Hook) {
    if loaded.None? then
      if h.active == Some(g) then h.(active := None, queue := []) else h
    else if h.cancelled || h.active != Some(g) then h
    else h.(projection := Caught(Replay(loaded.value), h.queue, loaded.value), active := None, queue := [])
  }

  class ProjectionHook {
    var currentProjection: Projection
    var rebuildGeneration: nat
    var activeRebuildGeneration: Option<nat>
    var eventsSinceRebuildStart: seq<AcceptedEvent>
    var cancelled: bool

    constructor ()
      ensures View() == MOUNTED
    {
      currentProjection, rebuildGeneration, activeRebuildGeneration := EMPTY_PROJECTION, 0, None;
      eventsSinceRebuildStart, cancelled := [], false;
    }

    function View(): (r: Hook)
      reads this
    {
      Hook(currentProjection, rebuildGeneration, activeRebuildGeneration, eventsSinceRebuildStart, cancelled)
    }

    method FoldAccepted(event: AcceptedEvent)
      modifies this
      ensures View() == Folded(old(View()), event)
    {
      currentProjection := ApplyEvent(currentProjection, event);
      if activeRebuildGeneration != None {
        eventsSinceRebuildStart := eventsSinceRebuildStart + [event];
      }
    }

    method BeginRebuild() returns (myGeneration: nat)
      modifies this
      ensures View() == Begun(old(View())) && myGeneration == rebuildGeneration
    {
      rebuildGeneration := rebuildGeneration + 1;
      myGeneration := rebuildGeneration;
      activeRebuildGeneration := Some(myGeneration);
      eventsSinceRebuildStart := [];
    }

    method ResolveRebuild(myGeneration: nat, loaded: Option<seq<AcceptedEvent>>)
      modifies this
      ensures View() == Resolved(old(View()), myGeneration, loaded)
    {
      if loaded.None? {
        if activeRebuildGeneration == Some(myGeneration) {
          activeRebuildGeneration, eventsSinceRebuildStart := None, [];
        }
        return;
      }
      if cancelled || activeRebuildGeneration != Some(myGeneration) { return; }
      var events := loaded.value;
      var rebuilt := Replay(events);
      var seenIds := set i | 0 <= i < |events| :: events[i].id;
      ghost var target := Caught(rebuilt, eventsSinceRebuildStart, events);
      for i := 0 to |eventsSinceRebuildStart|
        invariant target == Caught(rebuilt, eventsSinceRebuildStart[i..], events)
      {
        var event := eventsSinceRebuildStart[i];
        assert event.id in seenIds <==> EventLog.HasEvent(events, event.id);
        if event.id !in seenIds { rebuilt := ApplyEvent(rebuilt, event); }
        assert eventsSinceRebuildStart[i..][1..] == eventsSinceRebuildStart[i + 1..];
      }
      assert eventsSinceRebuildStart[|eventsSinceRebuildStart|..] == [];
      activeRebuildGeneration, eventsSinceRebuildStart := None, [];
      currentProjection := rebuilt;
    }

    method Unmount()
      modifies this`cancelled
      ensures View() == old(View()).(cancelled := true)
    {
      cancelled := true;
    }
  }
}

module ProjectionRaces {
  import opened Wrappers
  import opened TaskDomain
  import opened TaskProjector
  import opened ProjectionHooks
  import EventLog

  datatype Load = Waiting | Took(n: nat) | Failed

  /** The hook, the durable log it reads, and how many of the log's events the
      engine has emitted; `caughtUp` turns true when a rebuild commits. */
  datatype State = State(hook: Hook, log: seq<AcceptedEvent>, emitted: nat, loads: seq<Load>, caughtUp: bool)

  datatype Label =
    | Persist(event: AcceptedEvent)
    | EmitNext
    | Invalidate
    | ReadStore(g: nat)
    | ReadFails(g: nat)
    | Resolve(g: nat)
    | Unmount

  /** Rebuild number g is at position g - 1. The engine persists an event, then
      emits it, then goes on to the next. */
  function Step(s: State, l: Label): (r: State) {
    match l
    case Persist(e) =>
      if s.emitted == |s.log| && !EventLog.HasEvent(s.log, e.id) then s.(log := s.log + [e]) else s
    case EmitNext =>
      if s.emitted < |s.log| then s.(hook := Folded(s.hook, s.log[s.emitted]), emitted := s.emitted + 1) else s
    case Invalidate => s.(hook := Begun(s.hook), loads := s.loads + [Waiting])
    case ReadStore(g) =>
      if 0 < g <= |s.loads| && s.loads[g - 1].Waiting? then s.(loads := s.loads[g - 1 := Took(|s.log|)]) else s
    case ReadFails(g) =>
      if 0 < g <= |s.loads| && s.loads[g - 1].Waiting? then s.(loads := s.loads[g - 1 := Failed]) else s
    case Resolve(g) =>
      if !(0 < g <= |s.loads|) || s.loads[g - 1].Waiting? then s
      else if s.loads[g - 1].Failed? then s.(hook := Resolved(s.hook, g, None))
      else
        var n := if s.loads[g - 1].n <= |s.log| then s.loads[g - 1].n else |s.log|;
        s.(hook := Resolved(s.hook, g, Some(s.log[..n])),
           caughtUp := s.caughtUp || (!s.hook.cancelled && s.hook.active == Some(g)))
    case Unmount => s.(hook := s.hook.(cancelled := true))
  }

  function Run(s: State, ls: seq<Label>): (r: State)
    decreases ls
  {
    if |ls| == 0 then s else Run(Step(s, ls[0]), ls[1..])
  }

  /** A mount on a log whose events were all emitted to earlier mounts. */
  predicate Mounts(s: State) {
    s == State(MOUNTED, s.log, |s.log|, [], false) && EventLog.UniqueEvents(s.log)
  }

  // ------------------------------------------------ when folding is replaying

  /** No bootstrap event comes after an MLS event of the same record. */
  predicate BootstrapFirst(log: seq<AcceptedEvent>) {
    forall i, j :: 0 <= i < j < |log| && log[i].sourceKind.Mls? && log[j].sourceKind.Bootstrap? ==>
      TaskIdOf(log[i].payload) != TaskIdOf(log[j].payload)
  }

  lemma OtherRecordsCommute(p: Projection, a: TaskEvent, b: TaskEvent)
    requires TaskIdOf(a) != TaskIdOf(b)
    ensures ApplyPayload(ApplyPayload(p, a), b) == ApplyPayload(ApplyPayload(p, b), a)
  {
    SameElsewhere(p, a, TaskIdOf(b));
    SameElsewhere(p, b, TaskIdOf(a));
    AtOwnRecord(p, ApplyPayload(p, b), a);
    AtOwnRecord(p, ApplyPayload(p, a), b);
    var x, y := ApplyPayload(ApplyPayload(p, a), b), ApplyPayload(ApplyPayload(p, b), a);
    forall id ensures (id in x <==> id in y) && (id in x ==> x[id] == y[id]) {
      SameElsewhere(p, a, id);
      SameElsewhere(p, b, id);
      SameElsewhere(ApplyPayload(p, a), b, id);
      SameElsewhere(ApplyPayload(p, b), a, id);
    }
  }

  /** An event touches no record but its own. */
  lemma SameElsewhere(p: Projection, e: TaskEvent, id: string)
    ensures id != TaskIdOf(e) ==>
      (id in ApplyPayload(p, e) <==> id in p) && (id in p ==> ApplyPayload(p, e)[id] == p[id])
  {
  }

  /** What it does to its own record depends on that record only. */
  lemma AtOwnRecord(p: Projection, q: Projection, e: TaskEvent)
    requires var id := TaskIdOf(e); (id in p <==> id in q) && (id in p ==> p[id] == q[id])
    ensures var id := TaskIdOf(e);
            (id in ApplyPayload(p, e) <==> id in ApplyPayload(q, e)) &&
            (id in ApplyPayload(p, e) ==> ApplyPayload(p, e)[id] == ApplyPayload(q, e)[id])
  {
  }

  lemma {:induction false} FoldPast(p: Projection, es: seq<AcceptedEvent>, e: AcceptedEvent)
    requires forall i :: 0 <= i < |es| ==> TaskIdOf(es[i].payload) != TaskIdOf(e.payload)
    ensures FoldFrom(ApplyEvent(p, e), es) == ApplyEvent(FoldFrom(p, es), e)
    decreases es
  {
    if |es| > 0 {
      OtherRecordsCommute(p, e.payload, es[0].payload);
      FoldPast(ApplyEvent(p, es[0]), es[1..], e);
    }
  }

  lemma {:induction false} OfKindMembers(log: seq<AcceptedEvent>, k: SourceKind)
    ensures forall e :: e in OfKind(log, k) ==> e in log && e.sourceKind == k
  {
    if |log| > 0 { OfKindMembers(log[1..], k); }
  }

  lemma ReplayInPhases(log: seq<AcceptedEvent>)
    ensures Replay(log) == FoldFrom(FoldFrom(EMPTY_PROJECTION, OfKind(log, Bootstrap)), OfKind(log, Mls))
  {
    ReplayOrderIsTwoPhases(log);
    FoldAppend(EMPTY_PROJECTION, OfKind(log, Bootstrap), OfKind(log, Mls));
  }

  lemma PhasesOfLonger(log: seq<AcceptedEvent>, e: AcceptedEvent)
    ensures e.sourceKind.Mls? ==>
      OfKind(log + [e], Bootstrap) == OfKind(log, Bootstrap) && OfKind(log + [e], Mls) == OfKind(log, Mls) + [e]
    ensures e.sourceKind.Bootstrap? ==>
      OfKind(log + [e], Bootstrap) == OfKind(log, Bootstrap) + [e] && OfKind(log + [e], Mls) == OfKind(log, Mls)
  {
    OfKindAppend(log, [e], Bootstrap);
    OfKindAppend(log, [e], Mls);
    OfOne(e, Bootstrap);
    OfOne(e, Mls);
  }

  /** One more event: folding it in equals replaying the longer log, for every
      MLS event, and for a bootstrap event whose record no MLS event has touched. */
  lemma FoldingIsReplaying(log: seq<AcceptedEvent>, e: AcceptedEvent)
    requires BootstrapFirst(log + [e])
    ensures Replay(log + [e]) == ApplyEvent(Replay(log), e)
  {
    var boot, mls := OfKind(log, Bootstrap), OfKind(log, Mls);
    ReplayInPhases(log);
    ReplayInPhases(log + [e]);
    PhasesOfLonger(log, e);
    if e.sourceKind.Mls? {
      FoldAppend(FoldFrom(EMPTY_PROJECTION, boot), mls, [e]);
      FoldOne(FoldFrom(FoldFrom(EMPTY_PROJECTION, boot), mls), e);
    } else {
      FoldAppend(EMPTY_PROJECTION, boot, [e]);
      FoldOne(FoldFrom(EMPTY_PROJECTION, boot), e);
      NoMlsBefore(log, e);
      FoldPast(FoldFrom(EMPTY_PROJECTION, boot), mls, e);
    }
  }

  lemma NoMlsBefore(log: seq<AcceptedEvent>, e: AcceptedEvent)
    requires BootstrapFirst(log + [e]) && e.sourceKind.Bootstrap?
    ensures var mls := OfKind(log, Mls);
            forall i :: 0 <= i < |mls| ==> TaskIdOf(mls[i].payload) != TaskIdOf(e.payload)
  {
    var mls := OfKind(log, Mls);
    OfKindMembers(log, Mls);
    forall i | 0 <= i < |mls| ensures TaskIdOf(mls[i].payload) != TaskIdOf(e.payload) {
      assert mls[i] in mls;
      var j :| 0 <= j < |log| && log[j] == mls[i];
      assert (log + [e])[j] == mls[i] && (log + [e])[|log|] == e;
    }
  }

  lemma FoldOne(p: Projection, e: AcceptedEvent)
    ensures FoldFrom(p, [e]) == ApplyEvent(p, e)
  {
    assert [e][1..] == [];
  }

  /** A bootstrap event after an MLS event that created the same record: folding
      keeps the MLS record, a replay puts the bootstrap record first. */
  lemma LateBootstrapDiffersExactly(c: AcceptedEvent, b: AcceptedEvent)
    requires c.payload.Created? && b.payload.Created? && c.sourceKind.Mls? && b.sourceKind.Bootstrap?
    requires c.payload.task.id == b.payload.task.id
    ensures Replay([c, b]) == ApplyEvent(Replay([c]), b) <==> c.payload.task == b.payload.task
  {
    ReplayOrderIsTwoPhases([c, b]);
    ReplayOrderIsTwoPhases([c]);
    assert [c, b] == [c] + [b];
    OfKindAppend([c], [b], Bootstrap);
    OfKindAppend([c], [b], Mls);
    OfOne(c, Bootstrap);
    OfOne(c, Mls);
    OfOne(b, Bootstrap);
    OfOne(b, Mls);
    assert [] + [c] == [c] && [b] + [c] == [b, c];
    FoldAppend(EMPTY_PROJECTION, [b], [c]);
    FoldOne(EMPTY_PROJECTION, b);
    FoldOne(EMPTY_PROJECTION, c);
    FoldOne(ApplyEvent(EMPTY_PROJECTION, b), c);
    assert c.payload.task.id in Replay([c, b]) && Replay([c, b])[c.payload.task.id] == b.payload.task;
    assert ApplyEvent(Replay([c]), b)[c.payload.task.id] == c.payload.task;
  }

  /** A bootstrap creation of a record that the bootstrap phase of the log already
      holds: a replay ignores it, and so does folding exactly if no MLS event has
      deleted the record. */
  lemma LateBootstrapOfHeldExactly(log: seq<AcceptedEvent>, b: AcceptedEvent)
    requires b.payload.Created? && b.sourceKind.Bootstrap?
    requires b.payload.task.id in BuildProjection(OfKind(log, Bootstrap))
    ensures Replay(log + [b]) == ApplyEvent(Replay(log), b) <==> b.payload.task.id in Replay(log)
  {
    var boot := OfKind(log, Bootstrap);
    ReplayInPhases(log);
    ReplayInPhases(log + [b]);
    PhasesOfLonger(log, b);
    FoldAppend(EMPTY_PROJECTION, boot, [b]);
    FoldOne(FoldFrom(EMPTY_PROJECTION, boot), b);
    assert Replay(log + [b]) == Replay(log);
    if b.payload.task.id !in Replay(log) { assert b.payload.task.id in ApplyEvent(Replay(log), b); }
  }

  // ------------------------------------------------ every interleaving

  predicate RaceInv(s: State) {
    EventLog.UniqueEvents(s.log) && s.emitted <= |s.log| <= s.emitted + 1 &&
    (forall i :: 0 <= i < |s.loads| && s.loads[i].Took? ==> s.loads[i].n <= |s.log|) &&
    (s.hook.active.None? ==> s.hook.queue == []) &&
    (s.hook.active.Some? ==>
      var g := s.hook.active.value;
      0 < g <= |s.loads| && |s.hook.queue| <= s.emitted &&
      s.hook.queue == s.log[s.emitted - |s.hook.queue|..s.emitted] &&
      (s.loads[g - 1].Took? ==> s.emitted - |s.hook.queue| <= s.loads[g - 1].n)) &&
    s.hook.generation == |s.loads| &&
    (s.caughtUp && BootstrapFirst(s.log) ==> Agrees(s))
  }

  /** The projection is the replay of all emitted events, or of those and the
      single one that is persisted but not yet emitted. */
  predicate Agrees(s: State)
    requires s.emitted <= |s.log|
  {
    s.hook.projection == Replay(s.log[..s.emitted]) || s.hook.projection == Replay(s.log)
  }

  lemma ShorterIsFirst(log: seq<AcceptedEvent>, n: nat)
    requires BootstrapFirst(log) && n <= |log|
    ensures BootstrapFirst(log[..n])
  {
  }

  /** Folding the end of the log onto the replay of its beginning. */
  lemma {:induction false} FoldingOn(log: seq<AcceptedEvent>, n: nat, m: nat)
    requires BootstrapFirst(log) && n <= m <= |log|
    ensures FoldFrom(Replay(log[..n]), log[n..m]) == Replay(log[..m])
    decreases m - n
  {
    if n < m {
      var e := log[n];
      assert log[..n] + [e] == log[..n + 1];
      ShorterIsFirst(log, n + 1);
      FoldingIsReplaying(log[..n], e);
      assert log[n..m][0] == e && log[n..m][1..] == log[n + 1..m];
      FoldingOn(log, n + 1, m);
    }
  }

  /** With unique ids, skipping what the snapshot holds leaves what comes after it. */
  lemma {:induction false} CaughtIsRest(p: Projection, log: seq<AcceptedEvent>, q: nat, m: nat, n: nat)
    requires EventLog.UniqueEvents(log) && q <= m <= |log| && q <= n <= |log|
    ensures Caught(p, log[q..m], log[..n]) == FoldFrom(p, if n <= m then log[n..m] else [])
    decreases m - q
  {
    if q < m {
      var e := log[q];
      assert log[q..m][0] == e && log[q..m][1..] == log[q + 1..m];
      if q < n {
        assert log[..n][q].id == e.id;
        CaughtIsRest(p, log, q + 1, m, n);
      } else {
        forall i | 0 <= i < n ensures log[..n][i].id != e.id {
        }
        NothingSeen(p, log, q, m, n);
      }
    } else {
      assert log[q..m] == [];
      if n <= m { assert log[n..m] == []; }
    }
  }

  lemma {:induction false} NothingSeen(p: Projection, log: seq<AcceptedEvent>, q: nat, m: nat, n: nat)
    requires EventLog.UniqueEvents(log) && n <= q <= m <= |log|
    ensures Caught(p, log[q..m], log[..n]) == FoldFrom(p, log[q..m])
    decreases m - q
  {
    if q < m {
      assert log[q..m][0] == log[q] && log[q..m][1..] == log[q + 1..m];
      forall i | 0 <= i < n ensures log[..n][i].id != log[q].id {
      }
      NothingSeen(ApplyEvent(p, log[q]), log, q + 1, m, n);
    }
  }

  lemma EmitKeeps(s: State)
    requires RaceInv(s) && s.emitted < |s.log|
    ensures RaceInv(Step(s, EmitNext))
  {
    var t := Step(s, EmitNext);
    var e := s.log[s.emitted];
    var before := s.log[..s.emitted];
    assert before + [e] == s.log && s.log[..t.emitted] == s.log;
    if s.hook.active.Some? {
      var q := s.emitted - |s.hook.queue|;
      assert s.log[q..s.emitted] + [e] == s.log[q..t.emitted];
    }
    if s.caughtUp && BootstrapFirst(s.log) {
      FoldingIsReplaying(before, e);
      ApplyTwiceIsApplyOnce(Replay(before), e);
    }
  }

  lemma ResolveKeeps(s: State, g: nat)
    requires RaceInv(s) && 0 < g <= |s.loads|
    ensures RaceInv(Step(s, Resolve(g)))
  {
    if s.loads[g - 1].Took? && s.hook.active == Some(g) && BootstrapFirst(s.log) { CommitAgrees(s, g); }
    hide Replay, BootstrapFirst, Caught, EventLog.UniqueEvents;
  }

  /** The snapshot and what was queued since make up the emitted log, or the whole. */
  lemma CommitAgrees(s: State, g: nat)
    requires RaceInv(s) && 0 < g <= |s.loads| && s.loads[g - 1].Took? && s.hook.active == Some(g) && BootstrapFirst(s.log)
    ensures var n := s.loads[g - 1].n;
            var p := Caught(Replay(s.log[..n]), s.hook.queue, s.log[..n]);
            p == Replay(s.log[..s.emitted]) || p == Replay(s.log)
  {
    var n := s.loads[g - 1].n;
    CaughtIsRest(Replay(s.log[..n]), s.log, s.emitted - |s.hook.queue|, s.emitted, n);
    hide Replay, BootstrapFirst;
    if n <= s.emitted {
      FoldingOn(s.log, n, s.emitted);
    } else {
      assert s.log[..n] == s.log;
    }
  }

  lemma PersistKeeps(s: State, e: AcceptedEvent)
    requires RaceInv(s)
    ensures RaceInv(Step(s, Persist(e)))
  {
    var t := Step(s, Persist(e));
    if t != s {
      assert t.log[..s.emitted] == s.log == s.log[..s.emitted];
      if s.hook.active.Some? {
        var q := s.emitted - |s.hook.queue|;
        assert t.log[q..s.emitted] == s.log[q..s.emitted];
      }
      if BootstrapFirst(t.log) { ShorterIsFirst(t.log, |s.log|); }
    }
  }

  lemma LoadKeeps(s: State, l: Label)
    requires RaceInv(s) && (l.Invalidate? || l.ReadStore? || l.ReadFails? || l.Unmount?)
    ensures RaceInv(Step(s, l))
  {
    hide Replay, BootstrapFirst, Begun;
    if l.Invalidate? { InvalidateKeeps(s); }
  }

  lemma InvalidateKeeps(s: State)
    requires RaceInv(s)
    ensures RaceInv(Step(s, Invalidate))
  {
    hide Replay, BootstrapFirst, EventLog.UniqueEvents;
    var t := Step(s, Invalidate);
    assert t.log == s.log && t.hook.queue == [] && t.hook.projection == s.hook.projection;
    assert t.log[s.emitted..s.emitted] == [];
    assert t.loads[|s.loads|] == Waiting && t.hook.active == Some(|s.loads| + 1);
    assert forall i :: 0 <= i < |s.loads| ==> t.loads[i] == s.loads[i];
  }

  lemma StepKeeps(s: State, l: Label)
    requires RaceInv(s)
    ensures RaceInv(Step(s, l))
  {
    match l
    case Persist(e) => PersistKeeps(s, e);
    case EmitNext => if s.emitted < |s.log| { EmitKeeps(s); }
    case Resolve(g) => if 0 < g <= |s.loads| { ResolveKeeps(s, g); }
    case _ => hide RaceInv, Step; LoadKeeps(s, l);
  }

  lemma {:induction false} RunKeeps(s: State, ls: seq<Label>)
    requires RaceInv(s)
    ensures RaceInv(Run(s, ls))
    decreases ls
  {
    hide RaceInv, Step;
    if |ls| > 0 {
      StepKeeps(s, ls[0]);
      RunKeeps(Step(s, ls[0]), ls[1..]);
    }
  }

  /** Racing rebuilds refine the simple replay: once any rebuild has committed,
      under every interleaving of accepts, reads, failed reads and superseding
      rebuilds, the hook shows the replay of the emitted events, or of those and
      the one event persisted but not yet emitted, as long as no bootstrap event
      follows an MLS event of its record. */
  lemma RebuildsRefineReplay(mount: State, ls: seq<Label>)
    requires Mounts(mount)
    ensures var s := Run(mount, ls);
            s.emitted <= |s.log| <= s.emitted + 1 &&
            (s.caughtUp && BootstrapFirst(s.log) ==>
              s.hook.projection == Replay(s.log[..s.emitted]) || s.hook.projection == Replay(s.log))
  {
    assert RaceInv(mount);
    hide Run;
    RunKeeps(mount, ls);
  }

  /** Nothing is queued unless a rebuild is under way. */
  predicate IdleIsEmpty(h: Hook) {
    h.active.None? ==> h.queue == []
  }

  lemma {:induction false} RunIdles(s: State, ls: seq<Label>)
    requires IdleIsEmpty(s.hook)
    ensures IdleIsEmpty(Run(s, ls).hook)
    decreases ls
  {
    if |ls| > 0 {
      assert IdleIsEmpty(Step(s, ls[0]).hook) by { hide Replay, Caught, ApplyEvent; }
      hide Step, IdleIsEmpty;
      RunIdles(Step(s, ls[0]), ls[1..]);
    }
  }

  /** In every run a rebuild whose read has failed, or has succeeded while mounted,
      is over once it resolves; and the queue is empty unless another is under way. */
  lemma ResolvedIsOver(mount: State, ls: seq<Label>, g: nat)
    requires Mounts(mount)
    requires var s := Run(mount, ls);
             0 < g <= |s.loads| && (s.loads[g - 1].Failed? || (s.loads[g - 1].Took? && !s.hook.cancelled))
    ensures var h := Step(Run(mount, ls), Resolve(g)).hook;
            h.active != Some(g) && (h.active.None? ==> h.queue == [])
  {
    assert IdleIsEmpty(mount.hook);
    RunIdles(mount, ls);
    hide Run, Replay, Caught;
  }

  /** A rebuild that is not superseded, whose read succeeds before the mount is
      gone, commits; one that has been superseded changes nothing. */
  lemma OnlyTheNewestCommits(s: State, g: nat)
    requires RaceInv(s) && 0 < g <= |s.loads| && s.loads[g - 1].Took? && !s.hook.cancelled
    ensures s.hook.active == Some(g) ==> Step(s, Resolve(g)).caughtUp
    ensures s.hook.active != Some(g) ==> Step(s, Resolve(g)) == s
  {
  }

  // ------------------------------------------------ the hook object

  /** The object, driven through any interleaving, is the hook of the run, and so
      shows what RebuildsRefineReplay says. */
  method RunHook(mount: State, ls: seq<Label>) returns (hook: ProjectionHook, end: State)
    requires Mounts(mount)
    ensures fresh(hook) && end == Run(mount, ls) && hook.View() == end.hook
    ensures end.emitted <= |end.log| && (end.caughtUp && BootstrapFirst(end.log) ==>
      hook.currentProjection == Replay(end.log[..end.emitted]) || hook.currentProjection == Replay(end.log))
  {
    hook := new ProjectionHook();
    end := mount;
    for i := 0 to |ls|
      invariant fresh(hook) && hook.View() == end.hook && Run(end, ls[i..]) == Run(mount, ls)
    {
      assert ls[i..][0] == ls[i] && ls[i..][1..] == ls[i + 1..];
      DriveHook(hook, end, ls[i]);
      end := Step(end, ls[i]);
    }
    assert ls[|ls|..] == [];
    RebuildsRefineReplay(mount, ls);
  }

  method DriveHook(hook: ProjectionHook, s: State, l: Label)
    requires hook.View() == s.hook
    modifies hook
    ensures hook.View() == Step(s, l).hook
  {
    hide Resolved;
    match l
    case EmitNext => if s.emitted < |s.log| { hook.FoldAccepted(s.log[s.emitted]); }
    case Invalidate => var _ := hook.BeginRebuild();
    case Resolve(g) =>
      if 0 < g <= |s.loads| && !s.loads[g - 1].Waiting? {
        if s.loads[g - 1].Failed? {
          hook.ResolveRebuild(g, None);
        } else {
          hook.ResolveRebuild(g, Some(s.log[..if s.loads[g - 1].n <= |s.log| then s.loads[g - 1].n else |s.log|]));
        }
      }
    case Unmount => hook.Unmount();
    case _ =>
  }
}
