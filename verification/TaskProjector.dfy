/** The projector (src/domain/task-projector.ts) and the replay order it folds in. */

module TaskProjector {
  import opened Wrappers
  import opened TaskDomain

  type Projection = map<string, Task>

  const EMPTY_PROJECTION: Projection := map[]

  // ---------------------------------------------------------------- applyEvent

  /** The record an edit leaves when it wins: its own field plus its stamp. */
  function Edited(existing: Task, e: TaskEvent): (r: Task)
    requires !e.Created? && !e.Deleted?
  {
    var base := match e
      case Updated(_, changes, _, _, _) =>
        existing.(title := changes.title.GetOr(existing.title),
                  description := changes.description.GetOr(existing.description))
      case StatusChanged(_, status, _, _, _) => existing.(status := status)
      case Assigned(_, assignee, _, _, _) => existing.(assignee := assignee);
    base.(updatedAt := e.updatedAt, updatedBy := e.updatedBy,
          updatedByDevice := Some(e.updatedByDevice.GetOr("")))
  }

  function ApplyPayload(p: Projection, e: TaskEvent): (r: Projection) {
    if e.Created? then
      if e.task.id in p then p else p[e.task.id := e.task]
    else if e.taskId !in p || !WinsOver(StampOfEvent(e), StampOfTask(p[e.taskId])) then p
    else if e.Deleted? then p - {e.taskId}
    else p[e.taskId := Edited(p[e.taskId], e)]
  }

  function ApplyEvent(p: Projection, event: AcceptedEvent): (r: Projection) {
    ApplyPayload(p, event.payload)
  }

  function PayloadsOf(log: seq<AcceptedEvent>): (r: seq<TaskEvent>)
    ensures |r| == |log| && forall i :: 0 <= i < |log| ==> r[i] == log[i].payload
  {
    seq(|log|, i requires 0 <= i < |log| => log[i].payload)
  }

  function FoldFrom(p: Projection, events: seq<AcceptedEvent>): (r: Projection)
    decreases events
  {
    if |events| == 0 then p else FoldFrom(ApplyEvent(p, events[0]), events[1..])
  }

  function BuildProjection(events: seq<AcceptedEvent>): (r: Projection) {
    FoldFrom(EMPTY_PROJECTION, events)
  }

  lemma {:induction false} FoldAppend(p: Projection, a: seq<AcceptedEvent>, b: seq<AcceptedEvent>)
    ensures FoldFrom(p, a + b) == FoldFrom(FoldFrom(p, a), b)
    decreases a
  {
    if |a| == 0 {
      assert a + b == b;
    } else {
      assert (a + b)[0] == a[0] && (a + b)[1..] == a[1..] + b;
      FoldAppend(ApplyEvent(p, a[0]), a[1..], b);
    }
  }

  /** Applying the same event twice in a row changes nothing the second time:
      a created record is already there, an edit ties with the stamp it wrote,
      a deleted record is gone. */
  lemma ApplyTwiceIsApplyOnce(p: Projection, event: AcceptedEvent)
    ensures ApplyEvent(ApplyEvent(p, event), event) == ApplyEvent(p, event)
  {
    if !event.payload.Created? { WinsOverIrreflexive(StampOfEvent(event.payload)); }
  }

  /** Applying it twice with other events in between is not safe: a record
      that was created, deleted and created again by the same event returns. */
  lemma ApplyTwiceApartResurrects(c: AcceptedEvent, d: AcceptedEvent)
    requires c.payload.Created? && d.payload.Deleted? && d.payload.taskId == c.payload.task.id
    requires WinsOver(StampOfEvent(d.payload), StampOfTask(c.payload.task))
    ensures BuildProjection([c, d]) == EMPTY_PROJECTION
    ensures BuildProjection([c, d, c]) == map[c.payload.task.id := c.payload.task]
  {
    var one := ApplyEvent(EMPTY_PROJECTION, c);
    var none := ApplyEvent(one, d);
    assert none == EMPTY_PROJECTION;
    FoldAppend(EMPTY_PROJECTION, [c], [d]);
    FoldAppend(EMPTY_PROJECTION, [c, d], [c]);
    assert [c] + [d] == [c, d] && [c, d] + [c] == [c, d, c];
    assert FoldFrom(EMPTY_PROJECTION, [c]) == one by { assert [c][1..] == []; }
    assert FoldFrom(one, [d]) == none by { assert [d][1..] == []; }
  }

  // ---------------------------------------------------------------- replayOrder

  function OfKind(events: seq<AcceptedEvent>, k: SourceKind): (r: seq<AcceptedEvent>) {
    if |events| == 0 then []
    else (if events[0].sourceKind == k then [events[0]] else []) + OfKind(events[1..], k)
  }

  lemma {:induction false} OfKindAppend(a: seq<AcceptedEvent>, b: seq<AcceptedEvent>, k: SourceKind)
    ensures OfKind(a + b, k) == OfKind(a, k) + OfKind(b, k)
  {
    if |a| == 0 {
      assert a + b == b;
    } else {
      assert (a + b)[0] == a[0] && (a + b)[1..] == a[1..] + b;
      OfKindAppend(a[1..], b, k);
      ConcatAssociates(if a[0].sourceKind == k then [a[0]] else [], OfKind(a[1..], k), OfKind(b, k));
    }
  }

  predicate PhaseSorted(events: seq<AcceptedEvent>) {
    forall i, j :: 0 <= i < j < |events| ==> Phase(events[i].sourceKind) <= Phase(events[j].sourceKind)
  }

  /** What Array.prototype.sort promises for the phase comparator: the output
      ascends by phase, and events of one phase keep their order. */
  predicate IsStableSort(events: seq<AcceptedEvent>, out: seq<AcceptedEvent>) {
    PhaseSorted(out) &&
    OfKind(out, Bootstrap) == OfKind(events, Bootstrap) &&
    OfKind(out, Mls) == OfKind(events, Mls)
  }

  /** One insertion of a stable sort: before the first event of a later phase. */
  function Insert(e: AcceptedEvent, sorted: seq<AcceptedEvent>): (r: seq<AcceptedEvent>) {
    if |sorted| == 0 || Phase(e.sourceKind) <= Phase(sorted[0].sourceKind) then [e] + sorted
    else [sorted[0]] + Insert(e, sorted[1..])
  }

  function ReplayOrder(events: seq<AcceptedEvent>): (r: seq<AcceptedEvent>) {
    if |events| == 0 then [] else Insert(events[0], ReplayOrder(events[1..]))
  }

  lemma {:induction false} InsertKeepsSorted(e: AcceptedEvent, sorted: seq<AcceptedEvent>)
    requires PhaseSorted(sorted)
    ensures PhaseSorted(Insert(e, sorted))
    ensures forall x :: x in Insert(e, sorted) ==> x == e || x in sorted
  {
    if |sorted| > 0 && Phase(e.sourceKind) > Phase(sorted[0].sourceKind) {
      var rest := Insert(e, sorted[1..]);
      InsertKeepsSorted(e, sorted[1..]);
      forall i | 0 <= i < |rest| ensures Phase(sorted[0].sourceKind) <= Phase(rest[i].sourceKind) {
        assert rest[i] in rest;
      }
    }
  }

  lemma {:induction false} InsertIsStable(e: AcceptedEvent, sorted: seq<AcceptedEvent>, k: SourceKind)
    requires PhaseSorted(sorted)
    ensures OfKind(Insert(e, sorted), k) == OfKind([e], k) + OfKind(sorted, k)
  {
    OfOne(e, k);
    if |sorted| == 0 || Phase(e.sourceKind) <= Phase(sorted[0].sourceKind) {
      OfKindAppend([e], sorted, k);
    } else {
      var first, rest := sorted[0], Insert(e, sorted[1..]);
      assert Insert(e, sorted) == [first] + rest && sorted == [first] + sorted[1..];
      InsertIsStable(e, sorted[1..], k);
      hide Insert, PhaseSorted;
      OfKindAppend([first], rest, k);
      OfKindAppend([first], sorted[1..], k);
      OfOne(first, k);
      hide OfKind;
      var x, y, z := OfKind([first], k), OfKind([e], k), OfKind(sorted[1..], k);
      FrontsSwap(x, y, z);
    }
  }

  lemma FrontsSwap<T>(x: seq<T>, y: seq<T>, z: seq<T>)
    requires x == [] || y == []
    ensures x + (y + z) == y + (x + z)
  {
    assert [] + z == z && [] + (y + z) == y + z && [] + (x + z) == x + z;
  }

  lemma OfOne(e: AcceptedEvent, k: SourceKind)
    ensures OfKind([e], k) == if e.sourceKind == k then [e] else []
  {
    assert [e][1..] == [];
  }

  lemma {:induction false} ReplayOrderIsStableSort(events: seq<AcceptedEvent>)
    ensures IsStableSort(events, ReplayOrder(events))
  {
    if |events| > 0 {
      ReplayOrderIsStableSort(events[1..]);
      InsertKeepsSorted(events[0], ReplayOrder(events[1..]));
      assert events == [events[0]] + events[1..];
      forall k ensures OfKind(ReplayOrder(events), k) == OfKind(events, k) {
        InsertIsStable(events[0], ReplayOrder(events[1..]), k);
        OfKindAppend([events[0]], events[1..], k);
      }
    }
  }

  /** Any stable sort by phase, whatever its algorithm, is the bootstrap
      subsequence followed by the MLS subsequence, each in log order. */
  lemma {:induction false} StableSortIsTwoPhases(events: seq<AcceptedEvent>, out: seq<AcceptedEvent>)
    requires IsStableSort(events, out)
    ensures out == OfKind(events, Bootstrap) + OfKind(events, Mls)
  {
    SortedSplits(out);
  }

  lemma {:induction false} SortedSplits(out: seq<AcceptedEvent>)
    requires PhaseSorted(out)
    ensures out == OfKind(out, Bootstrap) + OfKind(out, Mls)
    decreases out
  {
    hide OfKind, PhaseSorted;
    if |out| == 0 || out[0].sourceKind == Mls {
      MlsFromHere(out);
      AllMls(out);
      assert [] + out == out;
    } else {
      RestSorted(out);
      SortedSplits(out[1..]);
      BootstrapInFront(out);
      var b, m := OfKind(out[1..], Bootstrap), OfKind(out[1..], Mls);
      assert out == [out[0]] + out[1..];
      ConcatAssociates([out[0]], b, m);
    }
  }

  lemma RestSorted(out: seq<AcceptedEvent>)
    requires PhaseSorted(out) && |out| > 0
    ensures PhaseSorted(out[1..])
  {
  }

  lemma MlsFromHere(out: seq<AcceptedEvent>)
    requires PhaseSorted(out) && (|out| > 0 ==> out[0].sourceKind == Mls)
    ensures forall i :: 0 <= i < |out| ==> out[i].sourceKind == Mls
  {
  }

  lemma BootstrapInFront(out: seq<AcceptedEvent>)
    requires |out| > 0 && out[0].sourceKind == Bootstrap
    ensures OfKind(out, Bootstrap) == [out[0]] + OfKind(out[1..], Bootstrap)
    ensures OfKind(out, Mls) == OfKind(out[1..], Mls)
  {
  }

  lemma {:induction false} AllMls(out: seq<AcceptedEvent>)
    requires forall i :: 0 <= i < |out| ==> out[i].sourceKind == Mls
    ensures OfKind(out, Bootstrap) == [] && OfKind(out, Mls) == out
  {
    if |out| > 0 {
      AllMls(out[1..]);
      assert out == [out[0]] + out[1..];
    }
  }

  lemma ReplayOrderIsTwoPhases(events: seq<AcceptedEvent>)
    ensures ReplayOrder(events) == OfKind(events, Bootstrap) + OfKind(events, Mls)
  {
    ReplayOrderIsStableSort(events);
    StableSortIsTwoPhases(events, ReplayOrder(events));
  }

  /** What a consumer must show for the whole log: buildProjection(replayOrder(log)). */
  function Replay(log: seq<AcceptedEvent>): (r: Projection) {
    BuildProjection(ReplayOrder(log))
  }
}

/** The legacy reducer (src/store/task-reducer.ts), with its inlined comparator. */
module TaskReducer {
  import opened Wrappers
  import opened TaskDomain
  import P = TaskProjector

  type State = map<string, Task>

  /** The comparator the reducer writes out four times. */
  predicate Accepts(e: TaskEvent, existing: Task)
    requires !e.Created?
  {
    e.updatedAt > existing.updatedAt ||
    (e.updatedAt == existing.updatedAt &&
     (Before(e.updatedBy, existing.updatedBy) ||
      (e.updatedBy == existing.updatedBy &&
       Before(e.updatedByDevice.GetOr(""), existing.updatedByDevice.GetOr("")))))
  }

  function ApplyEvent(state: State, e: TaskEvent): (r: State) {
    match e
    case Created(task) =>
      if task.id in state then state else state[task.id := task]
    case Updated(id, changes, at, author, device) =>
      if id in state && Accepts(e, state[id]) then
        var t := state[id];
        state[id := t.(title := changes.title.GetOr(t.title), description := changes.description.GetOr(t.description),
                       updatedAt := at, updatedBy := author, updatedByDevice := Some(device.GetOr("")))]
      else state
    case StatusChanged(id, status, at, author, device) =>
      if id in state && Accepts(e, state[id]) then
        state[id := state[id].(status := status, updatedAt := at, updatedBy := author,
                               updatedByDevice := Some(device.GetOr("")))]
      else state
    case Assigned(id, assignee, at, author, device) =>
      if id in state && Accepts(e, state[id]) then
        state[id := state[id].(assignee := assignee, updatedAt := at, updatedBy := author,
                               updatedByDevice := Some(device.GetOr("")))]
      else state
    case Deleted(id, _, _, _) =>
      if id in state && Accepts(e, state[id]) then state - {id} else state
  }

  /** The cascading comparator decides exactly like the written-out one. */
  lemma ComparatorsAgree(e: TaskEvent, existing: Task)
    requires !e.Created?
    ensures Accepts(e, existing) <==> WinsOver(StampOfEvent(e), StampOfTask(existing))
  {
    BeforeIrreflexive(e.updatedBy);
  }

  lemma StepsAgree(state: State, e: TaskEvent)
    ensures ApplyEvent(state, e) == P.ApplyPayload(state, e)
  {
    if !e.Created? && e.taskId in state { ComparatorsAgree(e, state[e.taskId]); }
  }

  function Reduced(state: State, events: seq<TaskEvent>): (r: State)
    decreases events
  {
    if |events| == 0 then state else Reduced(ApplyEvent(state, events[0]), events[1..])
  }

  method ReplayEvents(events: seq<TaskEvent>) returns (state: State)
    ensures state == Reduced(map[], events)
  {
    state := map[];
    for i := 0 to |events|
      invariant Reduced(state, events[i..]) == Reduced(map[], events)
    {
      assert events[i..][0] == events[i] && events[i..][1..] == events[i + 1..];
      state := ApplyEvent(state, events[i]);
    }
  }

  lemma {:induction false} FoldsAgree(p: State, log: seq<AcceptedEvent>)
    ensures P.FoldFrom(p, log) == Reduced(p, P.PayloadsOf(log))
    decreases log
  {
    if |log| > 0 {
      var es := P.PayloadsOf(log);
      StepsAgree(p, es[0]);
      FoldsAgree(P.ApplyEvent(p, log[0]), log[1..]);
      assert es[1..] == P.PayloadsOf(log[1..]);
    }
  }

  /** The projector refines the reducer: for every log, the projection is what the
      legacy loop makes of the log's payloads. */
  lemma ProjectorRefinesReducer(log: seq<AcceptedEvent>)
    ensures P.BuildProjection(log) == Reduced(map[], P.PayloadsOf(log))
  {
    FoldsAgree(map[], log);
  }
}
