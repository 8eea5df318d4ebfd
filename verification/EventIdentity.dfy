/** Which event a message or a local edit becomes, and where it shows
    (src/domain/domain-events.ts:117-145, src/engine/receive-engine.ts:753-827,
    1683-1711, src/integration/marmot-adapter.ts:951-969). */

module EventIdentity {
  import opened Wrappers
  import opened TaskDomain
  import opened TaskProjector
  import opened EngineTypes
  import opened EventLog
  import opened DeferredQueue
  import opened EngineSpec
  import ProjectionRaces

  // ------------------------------------------------ identities

  /** Two bootstrap events of a group share an id only if they are of one record. */
  lemma BootstrapIdsTellRecordsApart(g: string, a: string, b: string)
    requires BootstrapEventId(g, a) == BootstrapEventId(g, b)
    ensures a == b
  {
    var prefix := "bootstrap:" + g + ":";
    assert BootstrapEventId(g, a)[|prefix|..] == a && BootstrapEventId(g, b)[|prefix|..] == b;
  }

  /** Two MLS events share one only if they come from one rumor. */
  lemma MlsIdsTellRumorsApart(a: string, b: string)
    requires MlsEventId(a) == MlsEventId(b)
    ensures a == b
  {
  }

  // ------------------------------------------------ a landed message

  /** One event joins the log: it carries the payload, the fact and the kind. */
  predicate Joined(before: seq<AcceptedEvent>, after: seq<AcceptedEvent>, factId: string, kind: SourceKind, payload: TaskEvent) {
    |after| == |before| + 1 && before <= after &&
    after[|before|].factId == factId && after[|before|].sourceKind == kind && after[|before|].payload == payload
  }

  predicate From(e: AcceptedEvent, groupId: string, epoch: string, acceptedAt: int) {
    e.groupId == groupId && e.epoch == epoch && e.acceptedAt == acceptedAt
  }

  /** A landed message that is new leaves its payload in the log, as a bootstrap
      event if it came with a snapshot and as an MLS event otherwise, and is
      announced; parked before or not. */
  lemma MessageJoins(cfg: Config, s: State, d: Delivery)
    requires d.signal.Message? && d.first.Landed? && d.second.Landed?
    requires EventOf(cfg, d.signal, d.now).id !in s.mem.processed && !HasEvent(s.disk.accepted, EventOf(cfg, d.signal, d.now).id)
    ensures var r := End(s, OnMessage(cfg, s, d));
            var kind := if d.signal.source.BootstrapSnapshot? then Bootstrap else Mls;
            Joined(s.disk.accepted, r.disk.accepted, d.signal.fact.id, kind, d.signal.payload) &&
            r.out == s.out + [EnvelopeReceived(d.signal.fact.id), Accepted(r.disk.accepted[|s.disk.accepted|])] &&
            r.mem.processed == s.mem.processed + {r.disk.accepted[|s.disk.accepted|].id} &&
            From(r.disk.accepted[|s.disk.accepted|], cfg.groupId, d.signal.epoch, d.now)
  {
    hide AppendFact, SeqOf, Holds, Unpark, Without, Ids;
    var e := EventOf(cfg, d.signal, d.now);
    AppendedLast(s.disk.accepted, e);
    hide AppendEvent;
    assert s.out + [EnvelopeReceived(d.signal.fact.id)] + [Accepted(e)] == s.out + [EnvelopeReceived(d.signal.fact.id), Accepted(e)];
  }

  /** The same in a retry pass. */
  lemma RetriedMessageJoins(cfg: Config, s: State, d: Delivery)
    requires d.signal.Message? && d.first.Landed? && d.second.Landed?
    requires EventOf(cfg, d.signal, d.now).id !in s.mem.processed && !HasEvent(s.disk.accepted, EventOf(cfg, d.signal, d.now).id)
    ensures var r := End(s, OnRetryMessage(cfg, s, d));
            var kind := if d.signal.source.BootstrapSnapshot? then Bootstrap else Mls;
            Joined(s.disk.accepted, r.disk.accepted, d.signal.fact.id, kind, d.signal.payload) &&
            r.out == s.out + [EnvelopeReceived(d.signal.fact.id), Accepted(r.disk.accepted[|s.disk.accepted|])] &&
            r.mem.queue == Unpark(s.mem.queue, d.signal.fact.id) &&
            From(r.disk.accepted[|s.disk.accepted|], cfg.groupId, d.signal.epoch, d.now)
  {
    hide AppendFact, SeqOf, Unpark, Without, Ids;
    var e := EventOf(cfg, d.signal, d.now);
    AppendedLast(s.disk.accepted, e);
    hide AppendEvent;
    assert s.out + [EnvelopeReceived(d.signal.fact.id)] + [Accepted(e)] == s.out + [EnvelopeReceived(d.signal.fact.id), Accepted(e)];
  }

  lemma AppendedLast(log: seq<AcceptedEvent>, e: AcceptedEvent)
    requires !HasEvent(log, e.id)
    ensures AppendEvent(log, e) == log + [e]
  {
  }

  /** A landed local edit is an MLS event, under its rumor's id, and is announced. */
  lemma LocalEditJoins(cfg: Config, s: State, rumorId: string, payload: TaskEvent, now: int)
    requires MlsEventId(rumorId) !in s.mem.processed && !HasEvent(s.disk.accepted, MlsEventId(rumorId))
    ensures var r := End(s, OnLocalEdit(cfg, s, rumorId, payload, now, Landed));
            Joined(s.disk.accepted, r.disk.accepted, "local:" + rumorId, Mls, payload) &&
            r.out == s.out + [Accepted(r.disk.accepted[|s.disk.accepted|])] &&
            From(r.disk.accepted[|s.disk.accepted|], cfg.groupId, if s.mem.lastEpoch.Some? then s.mem.lastEpoch.value else "unknown", now)
  {
    var e := LocalEvent(cfg, s.mem.lastEpoch, rumorId, payload, now);
    AppendedLast(s.disk.accepted, e);
  }

  /** An MLS event at the end of the log is applied last: the replay shows it. */
  lemma MlsEventShows(before: seq<AcceptedEvent>, after: seq<AcceptedEvent>, factId: string, payload: TaskEvent)
    requires Joined(before, after, factId, Mls, payload)
    ensures Replay(after) == ApplyPayload(Replay(before), payload)
  {
    var e := after[|before|];
    assert after == before + [e];
    ProjectionRaces.PhasesOfLonger(before, e);
    ProjectionRaces.ReplayInPhases(before);
    ProjectionRaces.ReplayInPhases(after);
    var boot := FoldFrom(EMPTY_PROJECTION, OfKind(before, Bootstrap));
    FoldAppend(boot, OfKind(before, Mls), [e]);
    ProjectionRaces.FoldOne(FoldFrom(boot, OfKind(before, Mls)), e);
  }

  /** A landed MLS message shows in the replay of the log, whatever the log holds. */
  lemma MessageShows(cfg: Config, s: State, d: Delivery)
    requires d.signal.Message? && d.first.Landed? && d.second.Landed? && !d.signal.source.BootstrapSnapshot?
    requires MlsEventId(d.signal.rumorId) !in s.mem.processed && !HasEvent(s.disk.accepted, MlsEventId(d.signal.rumorId))
    ensures var r := End(s, OnMessage(cfg, s, d));
            Replay(r.disk.accepted) == ApplyPayload(Replay(s.disk.accepted), d.signal.payload)
  {
    MessageJoins(cfg, s, d);
    hide OnMessage, Replay, ApplyPayload;
    MlsEventShows(s.disk.accepted, End(s, OnMessage(cfg, s, d)).disk.accepted, d.signal.fact.id, d.signal.payload);
  }

  /** So does a landed local edit. */
  lemma LocalEditShows(cfg: Config, s: State, rumorId: string, payload: TaskEvent, now: int)
    requires MlsEventId(rumorId) !in s.mem.processed && !HasEvent(s.disk.accepted, MlsEventId(rumorId))
    ensures var r := End(s, OnLocalEdit(cfg, s, rumorId, payload, now, Landed));
            Replay(r.disk.accepted) == ApplyPayload(Replay(s.disk.accepted), payload)
  {
    LocalEditJoins(cfg, s, rumorId, payload, now);
    hide OnLocalEdit, Replay, ApplyPayload;
    MlsEventShows(s.disk.accepted, End(s, OnLocalEdit(cfg, s, rumorId, payload, now, Landed)).disk.accepted, "local:" + rumorId, payload);
  }

  // ------------------------------------------------ a whole fetch

  /** The landed messages of a bootstrap fetch: one per winner, on one fact. */
  function Fetched(groupId: string, fact: FactInput, epoch: string, now: int, winners: seq<Task>): (r: seq<Delivery>)
    ensures |r| == |winners|
  {
    seq(|winners|, i requires 0 <= i < |winners| =>
      Delivery(Message(fact, BootstrapEventId(groupId, winners[i].id), Created(winners[i]), epoch, BootstrapSnapshot), now, Landed, Landed, Landed))
  }

  predicate DistinctRecords(winners: seq<Task>) {
    forall i, j :: 0 <= i < j < |winners| ==> winners[i].id != winners[j].id
  }

  /** One bootstrap creation per winner, in order. */
  predicate HoldsExactly(log: seq<AcceptedEvent>, winners: seq<Task>) {
    |log| == |winners| && forall i :: 0 <= i < |log| ==> log[i].sourceKind.Bootstrap? && log[i].payload == Created(winners[i])
  }

  /** Nothing of the given records has been accepted. */
  predicate NewToIt(cfg: Config, s: State, winners: seq<Task>) {
    forall i :: 0 <= i < |winners| ==>
      BootstrapEventId(cfg.groupId, winners[i].id) !in s.mem.processed &&
      !HasEvent(s.disk.accepted, BootstrapEventId(cfg.groupId, winners[i].id))
  }

  lemma OneFetched(cfg: Config, s: State, fact: FactInput, epoch: string, now: int, w: Task)
    requires ValidOptions(cfg.options) && NewToIt(cfg, s, [w])
    ensures var d := Delivery(Message(fact, BootstrapEventId(cfg.groupId, w.id), Created(w), epoch, BootstrapSnapshot), now, Landed, Landed, Landed);
            var r := End(s, ProcessSignal(cfg, s, d, []));
            Joined(s.disk.accepted, r.disk.accepted, fact.id, Bootstrap, Created(w)) &&
            r.disk.accepted[|s.disk.accepted|].id == BootstrapEventId(cfg.groupId, w.id) &&
            r.mem.processed == s.mem.processed + {BootstrapEventId(cfg.groupId, w.id)}
  {
    var d := Delivery(Message(fact, BootstrapEventId(cfg.groupId, w.id), Created(w), epoch, BootstrapSnapshot), now, Landed, Landed, Landed);
    assert [w][0] == w;
    var e := EventOf(cfg, d.signal, d.now);
    MessageJoins(cfg, s, d);
    MessageAppends(cfg, s, d);
  }

  lemma MessageAppends(cfg: Config, s: State, d: Delivery)
    requires d.signal.Message? && d.first.Landed? && d.second.Landed?
    requires EventOf(cfg, d.signal, d.now).id !in s.mem.processed
    ensures End(s, OnMessage(cfg, s, d)).disk.accepted == AppendEvent(s.disk.accepted, EventOf(cfg, d.signal, d.now))
  {
    hide AppendFact, AppendEvent, SeqOf, Holds, Unpark, Without, Ids;
  }

  lemma {:induction false} FetchJoins(cfg: Config, s: State, fact: FactInput, epoch: string, now: int, winners: seq<Task>)
    requires ValidOptions(cfg.options) && DistinctRecords(winners) && NewToIt(cfg, s, winners)
    ensures var r := End(s, DrainSignals(cfg, s, Fetched(cfg.groupId, fact, epoch, now, winners)));
            s.disk.accepted <= r.disk.accepted && HoldsExactly(r.disk.accepted[|s.disk.accepted|..], winners)
    decreases winners
  {
    hide ProcessSignal;
    var ds := Fetched(cfg.groupId, fact, epoch, now, winners);
    if |winners| > 0 {
      var w, rest := winners[0], winners[1..];
      assert NewToIt(cfg, s, [w]);
      OneFetched(cfg, s, fact, epoch, now, w);
      var t := ProcessSignal(cfg, s, ds[0], []);
      var s1 := End(s, t);
      assert ds[1..] == Fetched(cfg.groupId, fact, epoch, now, rest);
      StillNew(cfg, s, s1, w, rest);
      FetchJoins(cfg, s1, fact, epoch, now, rest);
      EndAppend(s, t, DrainSignals(cfg, s1, ds[1..]));
      var r := End(s, DrainSignals(cfg, s, ds));
      assert r == End(s1, DrainSignals(cfg, s1, ds[1..]));
      OneMoreHeld(s.disk.accepted, s1.disk.accepted, r.disk.accepted, winners, fact.id);
    } else {
      assert DrainSignals(cfg, s, ds) == [];
      assert s.disk.accepted[|s.disk.accepted|..] == [];
    }
  }

  lemma StillNew(cfg: Config, s: State, s1: State, w: Task, rest: seq<Task>)
    requires DistinctRecords([w] + rest) && NewToIt(cfg, s, [w] + rest)
    requires |s1.disk.accepted| == |s.disk.accepted| + 1 && s.disk.accepted <= s1.disk.accepted
    requires s1.disk.accepted[|s.disk.accepted|].id == BootstrapEventId(cfg.groupId, w.id)
    requires s1.mem.processed == s.mem.processed + {BootstrapEventId(cfg.groupId, w.id)}
    ensures DistinctRecords(rest) && NewToIt(cfg, s1, rest)
  {
    var all := [w] + rest;
    forall i | 0 <= i < |rest|
      ensures BootstrapEventId(cfg.groupId, rest[i].id) !in s1.mem.processed &&
              !HasEvent(s1.disk.accepted, BootstrapEventId(cfg.groupId, rest[i].id))
    {
      assert all[i + 1] == rest[i] && all[0] == w;
      if BootstrapEventId(cfg.groupId, rest[i].id) == BootstrapEventId(cfg.groupId, w.id) {
        BootstrapIdsTellRecordsApart(cfg.groupId, rest[i].id, w.id);
      }
      assert s1.disk.accepted == s.disk.accepted + [s1.disk.accepted[|s.disk.accepted|]];
    }
    assert forall i :: 0 <= i < |rest| ==> all[i + 1] == rest[i];
  }

  lemma OneMoreHeld(a: seq<AcceptedEvent>, b: seq<AcceptedEvent>, c: seq<AcceptedEvent>, winners: seq<Task>, factId: string)
    requires |winners| > 0 && Joined(a, b, factId, Bootstrap, Created(winners[0]))
    requires b <= c && HoldsExactly(c[|b|..], winners[1..])
    ensures a <= c && HoldsExactly(c[|a|..], winners)
  {
    var log := c[|a|..];
    assert c[|a|] == b[|a|];
    assert forall i :: 0 < i < |log| ==> log[i] == c[|b|..][i - 1] && winners[i] == winners[1..][i - 1];
  }

  lemma {:induction false} CreationsShow(p: Projection, log: seq<AcceptedEvent>, winners: seq<Task>)
    requires HoldsExactly(log, winners) && DistinctRecords(winners) && forall i :: 0 <= i < |winners| ==> winners[i].id !in p
    ensures var r := FoldFrom(p, log);
            (forall id :: id in r <==> id in p || exists i :: 0 <= i < |winners| && winners[i].id == id) &&
            (forall id :: id in p ==> r[id] == p[id]) && forall i :: 0 <= i < |winners| ==> r[winners[i].id] == winners[i]
    decreases log
  {
    if |log| > 0 {
      var q := ApplyEvent(p, log[0]);
      assert q == p[winners[0].id := winners[0]];
      assert forall i :: 0 <= i < |winners[1..]| ==> winners[1..][i] == winners[i + 1];
      CreationsShow(q, log[1..], winners[1..]);
      var r := FoldFrom(p, log);
      forall id ensures id in r <==> id in p || exists i :: 0 <= i < |winners| && winners[i].id == id {
        if i :| 0 <= i < |winners| && winners[i].id == id { if i > 0 { assert winners[1..][i - 1].id == id; } }
      }
      forall i | 0 <= i < |winners| ensures r[winners[i].id] == winners[i] {
        if i > 0 { assert winners[1..][i - 1] == winners[i]; }
      }
    }
  }

  /** A fetch from an empty log: whatever the number of winners, one accepted event
      for each, and the replay of the log is exactly the winners. */
  lemma FetchIsShown(cfg: Config, s: State, fact: FactInput, epoch: string, now: int, winners: seq<Task>)
    requires ValidOptions(cfg.options) && DistinctRecords(winners) && s.disk.accepted == [] && s.mem.processed == {}
    ensures var log := End(s, DrainSignals(cfg, s, Fetched(cfg.groupId, fact, epoch, now, winners))).disk.accepted;
            HoldsExactly(log, winners) &&
            (forall id :: id in Replay(log) <==> exists i :: 0 <= i < |winners| && winners[i].id == id) &&
            forall i :: 0 <= i < |winners| ==> Replay(log)[winners[i].id] == winners[i]
  {
    FetchJoins(cfg, s, fact, epoch, now, winners);
    var log := End(s, DrainSignals(cfg, s, Fetched(cfg.groupId, fact, epoch, now, winners))).disk.accepted;
    hide DrainSignals;
    assert log[0..] == log;
    assert PhaseSorted(log);
    SortedIsReplayed(log);
    CreationsShow(EMPTY_PROJECTION, log, winners);
  }

  lemma SortedIsReplayed(log: seq<AcceptedEvent>)
    requires PhaseSorted(log)
    ensures Replay(log) == FoldFrom(EMPTY_PROJECTION, log)
  {
    StableSortIsTwoPhases(log, log);
    ReplayOrderIsTwoPhases(log);
  }
}
