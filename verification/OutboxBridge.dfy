/** The outbox bridge (src/integration/marmot-adapter.ts:509-799): the tracked
    entries, and the counting window that decides which relay event belongs to
    which local edit. A group's h-tag stands for the group. */

module OutboxBridges {
  import opened Wrappers
  import opened OutboxStore

  datatype Window = Window(count: nat, firstEventId: Option<string>)

  /** The module-level maps; entries are in insertion order. */
  datatype Bridge = Bridge(
    entries: seq<Entry>, inFlight: map<string, nat>, windows: map<string, Window>, expected: map<string, seq<string>>)

  const EMPTY_BRIDGE := Bridge([], map[], map[], map[])

  function Find(es: seq<Entry>, id: string): (r: Option<Entry>)
    ensures r.Some? <==> Tracks(es, id)
    ensures r.Some? ==> r.value in es && r.value.rumorId == id
  {
    if IndexOf(es, id) < |es| then Some(es[IndexOf(es, id)]) else None
  }

  function Registered(b: Bridge, e: Entry): (r: Bridge) {
    b.(entries := Capped(Put(b.entries, e), e.groupId))
  }

  function AttemptStarted(b: Bridge, id: string, now: int): (r: Bridge) {
    var f := Find(b.entries, id);
    if f.None? then b
    else b.(entries := Put(b.entries, f.value.(status := Pending, attempts := f.value.attempts + 1,
                                               lastAttemptAt := Some(now), lastError := None)))
  }

  function MarkedSent(b: Bridge, id: string, eventId: string, now: int): (r: Bridge) {
    var f := Find(b.entries, id);
    if f.None? || !f.value.status.Pending? then b
    else b.(entries := Put(b.entries, f.value.(status := Sent, sentEventId := Some(eventId), lastAttemptAt := Some(now))))
  }

  function SentFallback(b: Bridge, id: string, now: int): (r: Bridge) {
    var f := Find(b.entries, id);
    if f.None? || !f.value.status.Pending? then b
    else b.(entries := Put(b.entries, f.value.(status := Sent, lastAttemptAt := Some(now))))
  }

  function MarkedFailed(b: Bridge, id: string, error: string, now: int): (r: Bridge) {
    var f := Find(b.entries, id);
    if f.None? then b
    else b.(entries := Put(b.entries, f.value.(status := Failed, lastAttemptAt := Some(now), lastError := Some(error))))
  }

  function Begun(b: Bridge, tag: string, id: string): (r: Bridge) {
    b.(inFlight := b.inFlight[tag := (if tag in b.inFlight then b.inFlight[tag] else 0) + 1],
       windows := if tag in b.windows then b.windows else b.windows[tag := Window(0, None)],
       expected := b.expected[tag := (if tag in b.expected then b.expected[tag] else []) + [id]])
  }

  /** A queue that runs empty is deleted. */
  function WithQueue(m: map<string, seq<string>>, tag: string, q: seq<string>): (r: map<string, seq<string>>) {
    if |q| == 0 then m - {tag} else m[tag := q]
  }

  function Ended(b: Bridge, tag: string, now: int): (r: Bridge) {
    var cur := if tag in b.inFlight then b.inFlight[tag] else 0;
    if cur > 1 then b.(inFlight := b.inFlight[tag := cur - 1])
    else
      var b1 := b.(inFlight := b.inFlight - {tag}, windows := b.windows - {tag});
      if tag !in b.windows then b1
      else if tag !in b.expected || |b.expected[tag]| == 0 then b1.(expected := b.expected - {tag})
      else
        var rumorId := b.expected[tag][0];
        var b2 := b1.(expected := WithQueue(b.expected, tag, b.expected[tag][1..]));
        var w := b.windows[tag];
        if rumorId != "" && w.count == 1 && w.firstEventId.Some? then MarkedSent(b2, rumorId, w.firstEventId.value, now) else b2
  }

  function Dropped(q: seq<string>, id: string): (r: seq<string>) {
    if |q| == 0 then [] else if q[0] == id then q[1..] else [q[0]] + Dropped(q[1..], id)
  }

  function Removed(b: Bridge, tag: string, id: string): (r: Bridge) {
    if tag !in b.expected || id !in b.expected[tag] then b
    else b.(expected := WithQueue(b.expected, tag, Dropped(b.expected[tag], id)))
  }

  /** The wrapped network.publish sees a group event. */
  function Observed(b: Bridge, tag: string, eventId: string): (r: Bridge) {
    if tag in b.inFlight && b.inFlight[tag] > 0 && tag in b.windows then
      var w := b.windows[tag];
      b.(windows := b.windows[tag := Window(w.count + 1, if w.count == 0 then Some(eventId) else w.firstEventId)])
    else b
  }

  predicate Echoes(e: Entry, factId: string, groupId: string) {
    e.sentEventId == Some(factId) && e.groupId == groupId && !e.status.Reconciled?
  }

  /** Position of the first entry that the returning fact matches, or the length. */
  function EchoIndex(es: seq<Entry>, factId: string, groupId: string): (r: nat)
    ensures r <= |es|
    ensures r < |es| ==> Echoes(es[r], factId, groupId)
    ensures forall i :: 0 <= i < r ==> !Echoes(es[i], factId, groupId)
  {
    if |es| == 0 || Echoes(es[0], factId, groupId) then 0 else 1 + EchoIndex(es[1..], factId, groupId)
  }

  function EchoReconciled(b: Bridge, factId: string, groupId: string): (r: Bridge) {
    var k := EchoIndex(b.entries, factId, groupId);
    if k == |b.entries| then b else b.(entries := Without(b.entries, b.entries[k].rumorId))
  }

  class OutboxBridge {
    var outboxEntries: seq<Entry>
    var outboxDispatchInFlight: map<string, nat>
    var outboxWindowState: map<string, Window>
    var outboxExpectedByHTag: map<string, seq<string>>

    constructor ()
      ensures View() == EMPTY_BRIDGE
    {
      outboxEntries, outboxDispatchInFlight, outboxWindowState, outboxExpectedByHTag := [], map[], map[], map[];
    }

    function View(): (r: Bridge)
      reads this
    {
      Bridge(outboxEntries, outboxDispatchInFlight, outboxWindowState, outboxExpectedByHTag)
    }

    /** The hook of the group is told the evicted rumors. */
    method RegisterOutboxEntry(entry: Entry) returns (evicted: seq<string>)
      modifies this`outboxEntries
      ensures View() == Registered(old(View()), entry)
      ensures |evicted| == |Victims(Put(old(outboxEntries), entry), entry.groupId)| &&
              forall i :: 0 <= i < |evicted| ==> evicted[i] == Victims(Put(old(outboxEntries), entry), entry.groupId)[i].rumorId
    {
      hide Put, Victims, Capped;
      outboxEntries, evicted := EnforceOutboxCap(Put(outboxEntries, entry), entry.groupId);
    }

    method MarkOutboxAttemptStarted(rumorId: string, now: int)
      modifies this`outboxEntries
      ensures View() == AttemptStarted(old(View()), rumorId, now)
    {
      var k := IndexOf(outboxEntries, rumorId);
      if k == |outboxEntries| { return; }
      var entry := outboxEntries[k];
      entry := entry.(status := Pending, attempts := entry.attempts + 1, lastAttemptAt := Some(now), lastError := None);
      outboxEntries := outboxEntries[k := entry];
    }

    method MarkOutboxSent(rumorId: string, sentEventId: string, now: int)
      modifies this`outboxEntries
      ensures View() == MarkedSent(old(View()), rumorId, sentEventId, now)
    {
      var k := IndexOf(outboxEntries, rumorId);
      if k == |outboxEntries| || outboxEntries[k].status != Pending { return; }
      var entry := outboxEntries[k].(status := Sent, sentEventId := Some(sentEventId), lastAttemptAt := Some(now));
      outboxEntries := outboxEntries[k := entry];
    }

    method MarkOutboxSentFallback(rumorId: string, now: int)
      modifies this`outboxEntries
      ensures View() == SentFallback(old(View()), rumorId, now)
    {
      var k := IndexOf(outboxEntries, rumorId);
      if k == |outboxEntries| || outboxEntries[k].status != Pending { return; }
      outboxEntries := outboxEntries[k := outboxEntries[k].(status := Sent, lastAttemptAt := Some(now))];
    }

    method MarkOutboxFailed(rumorId: string, error: string, now: int)
      modifies this`outboxEntries
      ensures View() == MarkedFailed(old(View()), rumorId, error, now)
    {
      var k := IndexOf(outboxEntries, rumorId);
      if k == |outboxEntries| { return; }
      var entry := outboxEntries[k].(status := Failed, lastAttemptAt := Some(now), lastError := Some(error));
      outboxEntries := outboxEntries[k := entry];
    }

    method BeginOutboxPublishWindow(hTag: string, rumorId: string)
      modifies this
      ensures View() == Begun(old(View()), hTag, rumorId)
    {
      var prev := if hTag in outboxDispatchInFlight then outboxDispatchInFlight[hTag] else 0;
      outboxDispatchInFlight := outboxDispatchInFlight[hTag := prev + 1];
      if hTag !in outboxWindowState { outboxWindowState := outboxWindowState[hTag := Window(0, None)]; }
      if hTag in outboxExpectedByHTag {
        outboxExpectedByHTag := outboxExpectedByHTag[hTag := outboxExpectedByHTag[hTag] + [rumorId]];
      } else {
        outboxExpectedByHTag := outboxExpectedByHTag[hTag := [rumorId]];
        assert [] + [rumorId] == [rumorId];
      }
    }

    method EndOutboxPublishWindow(hTag: string, now: int)
      modifies this
      ensures View() == Ended(old(View()), hTag, now)
    {
      hide MarkedSent;
      var cur := if hTag in outboxDispatchInFlight then outboxDispatchInFlight[hTag] else 0;
      if cur > 1 {
        outboxDispatchInFlight := outboxDispatchInFlight[hTag := cur - 1];
        return;
      }
      outboxDispatchInFlight := outboxDispatchInFlight - {hTag};
      if hTag !in outboxWindowState {
        assert outboxWindowState == outboxWindowState - {hTag};
        return;
      }
      var state := outboxWindowState[hTag];
      outboxWindowState := outboxWindowState - {hTag};
      if hTag !in outboxExpectedByHTag || |outboxExpectedByHTag[hTag]| == 0 {
        outboxExpectedByHTag := outboxExpectedByHTag - {hTag};
        return;
      }
      var queue := outboxExpectedByHTag[hTag];
      var rumorId := queue[0];
      if |queue| == 1 {
        outboxExpectedByHTag := outboxExpectedByHTag - {hTag};
      } else {
        outboxExpectedByHTag := outboxExpectedByHTag[hTag := queue[1..]];
      }
      if rumorId != "" && state.count == 1 && state.firstEventId.Some? {
        MarkOutboxSent(rumorId, state.firstEventId.value, now);
      }
    }

    method RemoveOutboxExpectation(hTag: string, rumorId: string)
      modifies this`outboxExpectedByHTag
      ensures View() == Removed(old(View()), hTag, rumorId)
    {
      if hTag !in outboxExpectedByHTag || rumorId !in outboxExpectedByHTag[hTag] { return; }
      var queue := Dropped(outboxExpectedByHTag[hTag], rumorId);
      outboxExpectedByHTag := if |queue| == 0 then outboxExpectedByHTag - {hTag} else outboxExpectedByHTag[hTag := queue];
    }

    method ObservePublish(hTag: string, eventId: string)
      modifies this`outboxWindowState
      ensures View() == Observed(old(View()), hTag, eventId)
    {
      if hTag in outboxDispatchInFlight && outboxDispatchInFlight[hTag] > 0 && hTag in outboxWindowState {
        var state := outboxWindowState[hTag];
        outboxWindowState := outboxWindowState[hTag :=
          Window(state.count + 1, if state.count + 1 == 1 then Some(eventId) else state.firstEventId)];
      }
    }

    /** Returns the reconciled entry, which leaves the registry. */
    method ReconcileOwnEcho(factId: string, groupId: string, now: int) returns (r: Option<Entry>)
      modifies this`outboxEntries
      ensures View() == EchoReconciled(old(View()), factId, groupId)
      ensures r.Some? <==> exists e :: e in old(outboxEntries) && Echoes(e, factId, groupId)
      ensures r.Some? ==>
        var k := EchoIndex(old(outboxEntries), factId, groupId);
        k < |old(outboxEntries)| && r.value == old(outboxEntries)[k].(status := Reconciled, ownEchoObservedAt := Some(now))
    {
      var i := 0;
      while i < |outboxEntries|
        invariant i <= |outboxEntries| && outboxEntries == old(outboxEntries)
        invariant forall j :: 0 <= j < i ==> !Echoes(outboxEntries[j], factId, groupId)
      {
        if Echoes(outboxEntries[i], factId, groupId) {
          var entry := outboxEntries[i].(status := Reconciled, ownEchoObservedAt := Some(now));
          assert i == EchoIndex(outboxEntries, factId, groupId);
          outboxEntries := Without(outboxEntries, entry.rumorId);
          return Some(entry);
        }
        i := i + 1;
      }
      r := None;
    }
  }
}
