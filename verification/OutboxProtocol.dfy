/** Which relay event is attributed to which local edit, under every interleaving
    of sends, retries, failed sends and foreign publishes
    (src/integration/publish-outbox.ts:82-104, 404-461). The per-group publish
    lock is modelled as it is written: a chain of promises with a cleanup. */

module OutboxProtocol {
  import opened Wrappers
  import opened OutboxStore
  import opened OutboxBridges

  datatype Phase = Waiting | Sending | Released

  /** One call of attemptSend: the lock tail it found, and, for the statements,
      how many publishes its own send has made inside its window. */
  datatype Attempt = Attempt(group: string, rumorId: string, previous: Option<nat>, phase: Phase, own: nat)

  /** A kind-445 publish seen in a window, with the attempt whose send made it. */
  datatype Sighting = Sighting(eventId: string, author: Option<nat>)

  /** `tails` is the lock map, `cleanups` the pending deletions; `sending`, `seen`
      and `published` record who holds a group's lock, what its window has seen
      and which events are publishes of which rumor. */
  datatype State = State(
    bridge: Bridge, attempts: seq<Attempt>, tails: map<string, nat>, cleanups: seq<(string, nat)>,
    sending: map<string, nat>, seen: map<string, seq<Sighting>>, published: set<(string, string)>)

  datatype Label =
    | Register(entry: Entry)
    | Ask(group: string, rumorId: string)
    | Begin(i: nat, now: int)
    | OwnPublish(i: nat, eventId: string)
    | Foreign(group: string, eventId: string)
    | Finish(i: nat, ok: bool, error: string, now: int)
    | Cleanup(k: nat)
    | Echo(factId: string, group: string)

  function WithPhase(s: State, i: nat, p: Phase): (r: State)
    requires i < |s.attempts|
  {
    s.(attempts := s.attempts[i := s.attempts[i].(phase := p)])
  }

  predicate IsTurn(s: State, i: nat) {
    i < |s.attempts| && s.attempts[i].phase.Waiting? &&
    (s.attempts[i].previous.None? ||
     (s.attempts[i].previous.value < |s.attempts| && s.attempts[s.attempts[i].previous.value].phase.Released?))
  }

  /** doAttemptSend up to its send. */
  function OnBegin(s: State, i: nat, now: int): (r: State)
    requires i < |s.attempts|
  {
    var a := s.attempts[i];
    WithPhase(s, i, Sending).(
      bridge := Begun(AttemptStarted(s.bridge, a.rumorId, now), a.group, a.rumorId),
      sending := s.sending[a.group := i], seen := s.seen[a.group := []])
  }

  function See(s: State, g: string, eventId: string, author: Option<nat>): (r: State) {
    s.(bridge := Observed(s.bridge, g, eventId),
       seen := if g in s.seen then s.seen[g := s.seen[g] + [Sighting(eventId, author)]] else s.seen)
  }

  /** A send publishes, inside its window or, after it has failed, too late. */
  function OnOwnPublish(s: State, i: nat, eventId: string): (r: State)
    requires i < |s.attempts|
  {
    var a := s.attempts[i];
    var s1 := See(s, a.group, eventId, Some(i)).(published := s.published + {(eventId, a.rumorId)});
    if a.phase.Sending? then s1.(attempts := s1.attempts[i := a.(own := a.own + 1)]) else s1
  }

  /** doAttemptSend after its send, and the lock's release. */
  function OnFinish(s: State, i: nat, ok: bool, error: string, now: int): (r: State)
    requires i < |s.attempts|
  {
    var a := s.attempts[i];
    var b1 := if ok then s.bridge else Removed(s.bridge, a.group, a.rumorId);
    var b2 := Ended(b1, a.group, now);
    var b3 := if ok then SentFallback(b2, a.rumorId, now) else MarkedFailed(b2, a.rumorId, error, now);
    var s1 := WithPhase(s, i, Released).(bridge := b3, sending := s.sending - {a.group}, seen := s.seen - {a.group});
    if a.group in s.tails then s1.(cleanups := s1.cleanups + [(a.group, s.tails[a.group])]) else s1
  }

  /** The tail is removed once it has resolved, if it is still the tail. */
  function OnCleanup(s: State, k: nat): (r: State)
    requires k < |s.cleanups|
  {
    var (g, t) := s.cleanups[k];
    if t < |s.attempts| && s.attempts[t].phase.Released? && g in s.tails && s.tails[g] == t then s.(tails := s.tails - {g})
    else s
  }

  function Step(s: State, l: Label): (r: State) {
    match l
    case Register(e) => s.(bridge := Registered(s.bridge, e))
    case Ask(g, rumorId) =>
      s.(attempts := s.attempts + [Attempt(g, rumorId, if g in s.tails then Some(s.tails[g]) else None, Waiting, 0)],
         tails := s.tails[g := |s.attempts|])
    case Begin(i, now) => if IsTurn(s, i) then OnBegin(s, i, now) else s
    case OwnPublish(i, ev) => if i < |s.attempts| && !s.attempts[i].phase.Waiting? then OnOwnPublish(s, i, ev) else s
    case Foreign(g, ev) => See(s, g, ev, None)
    case Finish(i, ok, error, now) => if i < |s.attempts| && s.attempts[i].phase.Sending? then OnFinish(s, i, ok, error, now) else s
    case Cleanup(k) => if k < |s.cleanups| then OnCleanup(s, k) else s
    case Echo(factId, g) => s.(bridge := EchoReconciled(s.bridge, factId, g))
  }

  function Run(s: State, ls: seq<Label>): (r: State)
    decreases ls
  {
    if |ls| == 0 then s else Run(Step(s, ls[0]), ls[1..])
  }

  const INITIAL := State(EMPTY_BRIDGE, [], map[], [], map[], map[], {})

  // ------------------------------------------------ the lock

  predicate SameGroup(s: State, i: nat, j: nat)
    requires i < |s.attempts| && j < |s.attempts|
  {
    s.attempts[i].group == s.attempts[j].group
  }

  /** The chain of promises is a queue per group: whoever has had its turn comes
      after nothing unreleased, and whoever waits, waits for the attempt just before it. */
  predicate Queued(s: State) {
    Tails(s) && Turns(s) && Links(s)
  }

  predicate Tails(s: State) {
    (forall g :: g in s.tails ==>
      s.tails[g] < |s.attempts| && s.attempts[s.tails[g]].group == g &&
      forall i :: s.tails[g] < i < |s.attempts| ==> s.attempts[i].group != g) &&
    (forall i :: 0 <= i < |s.attempts| && s.attempts[i].group !in s.tails ==> s.attempts[i].phase.Released?)
  }

  predicate Turns(s: State) {
    (forall i, j :: 0 <= j < i < |s.attempts| && !s.attempts[i].phase.Waiting? && SameGroup(s, j, i) ==>
      s.attempts[j].phase.Released?) &&
    (forall i, j :: 0 <= j < i < |s.attempts| && s.attempts[i].phase.Waiting? && s.attempts[i].previous.None? && SameGroup(s, j, i) ==>
      s.attempts[j].phase.Released?)
  }

  predicate Links(s: State) {
    forall i :: 0 <= i < |s.attempts| && s.attempts[i].previous.Some? ==>
      s.attempts[i].previous.value < i && SameGroup(s, s.attempts[i].previous.value, i) &&
      forall j :: s.attempts[i].previous.value < j < i ==> !SameGroup(s, j, i)
  }

  /** A turn comes only when every earlier attempt of the group is released. */
  lemma TurnIsLast(s: State, i: nat)
    requires Queued(s) && IsTurn(s, i)
    ensures forall j :: 0 <= j < |s.attempts| && j != i && SameGroup(s, j, i) ==> !s.attempts[j].phase.Sending?
    ensures forall j :: 0 <= j < i && SameGroup(s, j, i) ==> s.attempts[j].phase.Released?
  {
    if s.attempts[i].previous.Some? {
      var p := s.attempts[i].previous.value;
      forall j | 0 <= j < i && SameGroup(s, j, i) ensures s.attempts[j].phase.Released? {
        assert j <= p;
        if j < p { assert SameGroup(s, j, p); }
      }
    }
  }

  lemma AskQueues(s: State, g: string, rumorId: string)
    requires Queued(s)
    ensures Queued(Step(s, Ask(g, rumorId)))
  {
    var t := Step(s, Ask(g, rumorId));
    var last := t.attempts[|s.attempts|];
    assert t.attempts == s.attempts + [last] && t.tails == s.tails[g := |s.attempts|];
    hide Tails, Turns, Links, Step;
    AskTails(s, t, last);
    AskTurns(s, t, last);
    AskLinks(s, t, last);
  }

  /** `t` is `s` with one attempt more, which is the new tail of its group. */
  predicate Asked(s: State, t: State, last: Attempt) {
    t.attempts == s.attempts + [last] && t.tails == s.tails[last.group := |s.attempts|] && last.phase.Waiting? &&
    last.previous == if last.group in s.tails then Some(s.tails[last.group]) else None
  }

  lemma AskTails(s: State, t: State, last: Attempt)
    requires Tails(s) && Asked(s, t, last)
    ensures Tails(t)
  {
    assert forall i :: 0 <= i < |s.attempts| ==> t.attempts[i] == s.attempts[i];
  }

  lemma AskTurns(s: State, t: State, last: Attempt)
    requires Tails(s) && Turns(s) && Asked(s, t, last)
    ensures Turns(t)
  {
    var n := |s.attempts|;
    assert forall i :: 0 <= i < n ==> t.attempts[i] == s.attempts[i];
    forall i, j | 0 <= j < i < |t.attempts| && SameGroup(t, j, i) && (!t.attempts[i].phase.Waiting? || t.attempts[i].previous.None?)
      ensures t.attempts[j].phase.Released?
    {
      if i < n { assert SameGroup(s, j, i); } else { assert last.group !in s.tails; }
    }
  }

  lemma AskLinks(s: State, t: State, last: Attempt)
    requires Tails(s) && Links(s) && Asked(s, t, last)
    ensures Links(t)
  {
    var n := |s.attempts|;
    assert forall i :: 0 <= i < n ==> t.attempts[i] == s.attempts[i];
    forall i | 0 <= i < |t.attempts| && t.attempts[i].previous.Some?
      ensures var p := t.attempts[i].previous.value;
              p < i && SameGroup(t, p, i) && forall j :: p < j < i ==> !SameGroup(t, j, i)
    {
      if i < n {
        var p := s.attempts[i].previous.value;
        assert SameGroup(s, p, i);
        forall j | p < j < i ensures !SameGroup(t, j, i) { assert !SameGroup(s, j, i); }
      }
    }
  }

  /** An attempt changes phase and nothing of the lock. */
  lemma PhaseQueues(s: State, t: State, i: nat)
    requires Queued(s) && i < |s.attempts| && t.tails == s.tails
    requires |t.attempts| == |s.attempts| && t.attempts == s.attempts[i := t.attempts[i]]
    requires t.attempts[i].group == s.attempts[i].group && t.attempts[i].previous == s.attempts[i].previous
    requires t.attempts[i].phase == s.attempts[i].phase ||
      (t.attempts[i].phase.Released? && s.attempts[i].phase.Sending?) ||
      (t.attempts[i].phase.Sending? && IsTurn(s, i))
    ensures Queued(t)
  {
    if IsTurn(s, i) { TurnIsLast(s, i); }
    assert forall j, k :: 0 <= j < |s.attempts| && 0 <= k < |s.attempts| ==> SameGroup(t, j, k) == SameGroup(s, j, k);
  }

  lemma CleanupQueues(s: State, k: nat)
    requires Queued(s) && k < |s.cleanups|
    ensures Queued(OnCleanup(s, k))
  {
    var t := OnCleanup(s, k);
    if t != s {
      var last := s.cleanups[k].1;
      forall i | 0 <= i < |s.attempts| && s.attempts[i].group !in t.tails ensures s.attempts[i].phase.Released? {
        if s.attempts[i].group in s.tails { assert i <= last; if i < last { assert SameGroup(s, i, last); } }
      }
      assert forall j, i :: 0 <= j < |s.attempts| && 0 <= i < |s.attempts| ==> SameGroup(t, j, i) == SameGroup(s, j, i);
    }
  }

  lemma FinishQueues(s: State, i: nat, ok: bool, error: string, now: int)
    requires Queued(s) && i < |s.attempts| && s.attempts[i].phase.Sending?
    ensures Queued(OnFinish(s, i, ok, error, now))
  {
    hide Queued, Removed, Ended, SentFallback, MarkedFailed;
    PhaseQueues(s, OnFinish(s, i, ok, error, now), i);
  }

  lemma BeginQueues(s: State, i: nat, now: int)
    requires Queued(s) && IsTurn(s, i)
    ensures Queued(OnBegin(s, i, now))
  {
    hide Queued, Begun, AttemptStarted;
    PhaseQueues(s, OnBegin(s, i, now), i);
  }

  lemma PublishQueues(s: State, i: nat, ev: string)
    requires Queued(s) && i < |s.attempts|
    ensures Queued(OnOwnPublish(s, i, ev))
  {
    hide Queued, Observed;
    PhaseQueues(s, OnOwnPublish(s, i, ev), i);
  }

  lemma StepQueues(s: State, l: Label)
    requires Queued(s)
    ensures Queued(Step(s, l))
  {
    hide Queued, OnBegin, OnOwnPublish, OnFinish, OnCleanup, IsTurn;
    match l
    case Ask(g, rumorId) => AskQueues(s, g, rumorId);
    case Begin(i, now) => if IsTurn(s, i) { BeginQueues(s, i, now); }
    case OwnPublish(i, ev) => if i < |s.attempts| { PublishQueues(s, i, ev); }
    case Finish(i, ok, error, now) => if i < |s.attempts| && s.attempts[i].phase.Sending? { FinishQueues(s, i, ok, error, now); }
    case Cleanup(k) => if k < |s.cleanups| { CleanupQueues(s, k); }
    case _ => SameQueues(s, Step(s, l));
  }

  lemma SameQueues(s: State, t: State)
    requires Queued(s) && t.attempts == s.attempts && t.tails == s.tails
    ensures Queued(t)
  {
    assert forall i, j :: 0 <= i < |s.attempts| && 0 <= j < |s.attempts| ==> SameGroup(t, i, j) == SameGroup(s, i, j);
  }

  lemma {:induction false} RunQueues(s: State, ls: seq<Label>)
    requires Queued(s)
    ensures Queued(Run(s, ls))
    decreases ls
  {
    hide Queued, Step;
    if |ls| > 0 {
      StepQueues(s, ls[0]);
      RunQueues(Step(s, ls[0]), ls[1..]);
    }
  }

  /** The publish lock, in every run: at most one attempt of a group is past its
      lock and not yet released, and attempts get the lock in the order in which
      they asked for it. */
  lemma LockExcludesInOrder(ls: seq<Label>, i: nat, j: nat)
    requires j < i < |Run(INITIAL, ls).attempts| && SameGroup(Run(INITIAL, ls), j, i)
    ensures var s := Run(INITIAL, ls);
            !s.attempts[i].phase.Waiting? ==> s.attempts[j].phase.Released?
  {
    hide Run;
    RunQueues(INITIAL, ls);
  }

  // ------------------------------------------------ the window

  function Own(seen: seq<Sighting>, i: nat): (r: nat) {
    if |seen| == 0 then 0 else Own(seen[..|seen| - 1], i) + if seen[|seen| - 1].author == Some(i) then 1 else 0
  }

  function Tally(seen: seq<Sighting>): (r: Window) {
    Window(|seen|, if |seen| == 0 then None else Some(seen[0].eventId))
  }

  /** While attempt `i` holds the lock of its group, the group's window is open
      once, expects its rumor alone, and has counted exactly what was seen. */
  predicate OpenFor(b: Bridge, seen: map<string, seq<Sighting>>, a: Attempt, i: nat, g: string) {
    a.group == g && a.phase.Sending? && g in seen &&
    g in b.windows && b.windows[g] == Tally(seen[g]) && g in b.inFlight && b.inFlight[g] == 1 &&
    g in b.expected && b.expected[g] == [a.rumorId] && a.own == Own(seen[g], i)
  }

  predicate ClosedFor(b: Bridge, seen: map<string, seq<Sighting>>, g: string) {
    g !in b.windows && g !in b.inFlight && g !in b.expected && g !in seen
  }

  ghost predicate Windowed(s: State) {
    (forall g :: g in s.sending ==>
      s.sending[g] < |s.attempts| && OpenFor(s.bridge, s.seen, s.attempts[s.sending[g]], s.sending[g], g)) &&
    (forall i :: 0 <= i < |s.attempts| && s.attempts[i].phase.Sending? ==>
      s.attempts[i].group in s.sending && s.sending[s.attempts[i].group] == i) &&
    (forall g :: g !in s.sending ==> ClosedFor(s.bridge, s.seen, g))
  }

  /** Two moments agree about a group's window. */
  predicate SameFor(b: Bridge, seen: map<string, seq<Sighting>>, c: Bridge, also: map<string, seq<Sighting>>, g: string) {
    (g in b.windows <==> g in c.windows) && (g in b.windows ==> c.windows[g] == b.windows[g]) &&
    (g in b.inFlight <==> g in c.inFlight) && (g in b.inFlight ==> c.inFlight[g] == b.inFlight[g]) &&
    (g in b.expected <==> g in c.expected) && (g in b.expected ==> c.expected[g] == b.expected[g]) &&
    (g in seen <==> g in also) && (g in seen ==> also[g] == seen[g])
  }

  lemma SameWindow(b: Bridge, seen: map<string, seq<Sighting>>, c: Bridge, also: map<string, seq<Sighting>>, a: Attempt, i: nat, g: string)
    requires SameFor(b, seen, c, also, g)
    ensures OpenFor(b, seen, a, i, g) ==> OpenFor(c, also, a, i, g)
    ensures ClosedFor(b, seen, g) ==> ClosedFor(c, also, g)
  {
  }

  /** One attempt, and its group's window, change; every other group stays as it is. */
  lemma OneGroupChanges(s: State, t: State, i: nat)
    requires Windowed(s) && i < |s.attempts| && |t.attempts| == |s.attempts| && t.attempts == s.attempts[i := t.attempts[i]]
    requires t.attempts[i].group == s.attempts[i].group
    requires forall g :: g != s.attempts[i].group ==>
      SameFor(s.bridge, s.seen, t.bridge, t.seen, g) && (g in t.sending <==> g in s.sending) &&
      (g in s.sending ==> t.sending[g] == s.sending[g])
    requires var g := s.attempts[i].group;
             if g in t.sending then t.sending[g] < |t.attempts| && OpenFor(t.bridge, t.seen, t.attempts[t.sending[g]], t.sending[g], g)
             else ClosedFor(t.bridge, t.seen, g)
    requires t.attempts[i].phase.Sending? ==> t.attempts[i].group in t.sending && t.sending[t.attempts[i].group] == i
    requires forall j :: 0 <= j < |s.attempts| && j != i && s.attempts[j].phase.Sending? && s.attempts[j].group == s.attempts[i].group ==>
      t.attempts[i].group in t.sending && t.sending[t.attempts[i].group] == j
    ensures Windowed(t)
  {
    var own := s.attempts[i].group;
    forall g | g in t.sending
      ensures t.sending[g] < |t.attempts| && OpenFor(t.bridge, t.seen, t.attempts[t.sending[g]], t.sending[g], g)
    {
      if g != own {
        assert OpenFor(s.bridge, s.seen, s.attempts[s.sending[g]], s.sending[g], g);
        SameWindow(s.bridge, s.seen, t.bridge, t.seen, s.attempts[s.sending[g]], s.sending[g], g);
      }
    }
    hide SameFor, OpenFor;
    forall g | g !in t.sending ensures ClosedFor(t.bridge, t.seen, g) {
      if g != own { SameWindow(s.bridge, s.seen, t.bridge, t.seen, s.attempts[i], i, g); }
    }
  }

  /** What was seen of an attempt's own send is a publish of its rumor. */
  predicate Authored(s: State) {
    forall g, k :: g in s.seen && 0 <= k < |s.seen[g]| && s.seen[g][k].author.Some? ==>
      var j := s.seen[g][k].author.value;
      j < |s.attempts| && (s.seen[g][k].eventId, s.attempts[j].rumorId) in s.published
  }

  /** Every attributed event is a publish of the entry's own rumor. */
  predicate Attributed(s: State) {
    UniqueRumors(s.bridge.entries) &&
    forall e :: e in s.bridge.entries && e.sentEventId.Some? ==> (e.sentEventId.value, e.rumorId) in s.published
  }

  lemma OwnAppend(seen: seq<Sighting>, o: Sighting, i: nat)
    ensures Own(seen + [o], i) == Own(seen, i) + if o.author == Some(i) then 1 else 0
  {
    assert (seen + [o])[..|seen|] == seen;
  }

  lemma BeginWindows(s: State, i: nat, now: int)
    requires Queued(s) && Windowed(s) && IsTurn(s, i)
    requires s.attempts[i].own == 0
    ensures Windowed(OnBegin(s, i, now))
  {
    var a := s.attempts[i];
    FreeGroup(s, i);
    hide Queued, Windowed, IsTurn, AttemptStarted, OpenFor;
    MarksKeepWindows(s.bridge, a.rumorId, "", now);
    var t := OnBegin(s, i, now);
    BegunIsOpen(AttemptStarted(s.bridge, a.rumorId, now), s.seen, t.attempts[i], i);
    assert AttemptStarted(s.bridge, a.rumorId, now) == s.bridge.(entries := AttemptStarted(s.bridge, a.rumorId, now).entries);
    forall g | g != a.group ensures SameFor(s.bridge, s.seen, t.bridge, t.seen, g) {
      BegunElsewhere(AttemptStarted(s.bridge, a.rumorId, now), s.seen, a.group, a.rumorId, g);
    }
    OneGroupChanges(s, t, i);
  }

  lemma FreeGroup(s: State, i: nat)
    requires Queued(s) && Windowed(s) && IsTurn(s, i)
    ensures s.attempts[i].group !in s.sending && ClosedFor(s.bridge, s.seen, s.attempts[i].group)
    ensures forall j :: 0 <= j < |s.attempts| && j != i && s.attempts[j].phase.Sending? ==> s.attempts[j].group != s.attempts[i].group
  {
    TurnIsLast(s, i);
    if s.attempts[i].group in s.sending { assert SameGroup(s, s.sending[s.attempts[i].group], i); }
    forall j | 0 <= j < |s.attempts| && j != i && s.attempts[j].phase.Sending? ensures s.attempts[j].group != s.attempts[i].group {
      assert s.attempts[j].group in s.sending;
    }
  }

  lemma BegunIsOpen(b: Bridge, seen: map<string, seq<Sighting>>, a: Attempt, i: nat)
    requires ClosedFor(b, seen, a.group) && a.phase.Sending? && a.own == 0
    ensures OpenFor(Begun(b, a.group, a.rumorId), seen[a.group := []], a, i, a.group)
  {
    assert [] + [a.rumorId] == [a.rumorId] && Own([], i) == 0;
  }

  lemma BegunElsewhere(b: Bridge, seen: map<string, seq<Sighting>>, tag: string, id: string, g: string)
    requires g != tag
    ensures SameFor(b, seen, Begun(b, tag, id), seen[tag := []], g)
  {
  }

  /** The bridge with a group's window gone. */
  function Shut(b: Bridge, g: string): (r: Bridge) {
    b.(windows := b.windows - {g}, inFlight := b.inFlight - {g}, expected := b.expected - {g})
  }

  lemma ShutElsewhere(b: Bridge, c: Bridge, seen: map<string, seq<Sighting>>, tag: string)
    requires c == Shut(b, tag).(entries := c.entries)
    ensures ClosedFor(c, seen - {tag}, tag)
    ensures forall g :: g != tag ==> SameFor(b, seen, c, seen - {tag}, g)
  {
  }

  lemma OpenOf(s: State, i: nat)
    requires Windowed(s) && i < |s.attempts| && s.attempts[i].phase.Sending?
    ensures OpenFor(s.bridge, s.seen, s.attempts[i], i, s.attempts[i].group)
    ensures s.attempts[i].group in s.sending && s.sending[s.attempts[i].group] == i
    ensures forall j :: 0 <= j < |s.attempts| && j != i && s.attempts[j].phase.Sending? ==> s.attempts[j].group != s.attempts[i].group
  {
  }

  /** A publish that is not one of the holder's own is counted in the open window. */
  lemma SeeWindows(s: State, g: string, eventId: string, author: Option<nat>)
    requires Windowed(s) && (author.Some? ==> author.value < |s.attempts| && !s.attempts[author.value].phase.Sending?)
    ensures Windowed(See(s, g, eventId, author))
  {
    var t := See(s, g, eventId, author);
    if g in s.sending {
      var i := s.sending[g];
      OpenOf(s, i);
      OwnAppend(s.seen[g], Sighting(eventId, author), i);
      assert OpenFor(t.bridge, t.seen, t.attempts[i], i, g);
      hide OpenFor, ClosedFor, Windowed;
      OneGroupChanges(s, t, i);
    } else {
      assert ClosedFor(s.bridge, s.seen, g);
      assert t == s;
    }
  }

  lemma OwnPublishWindows(s: State, i: nat, eventId: string)
    requires Windowed(s) && i < |s.attempts| && !s.attempts[i].phase.Waiting?
    ensures Windowed(OnOwnPublish(s, i, eventId))
  {
    var a := s.attempts[i];
    var t := OnOwnPublish(s, i, eventId);
    if a.phase.Sending? {
      OpenOf(s, i);
      OwnAppend(s.seen[a.group], Sighting(eventId, Some(i)), i);
      assert OpenFor(t.bridge, t.seen, t.attempts[i], i, a.group);
      hide OpenFor, ClosedFor, Windowed;
      OneGroupChanges(s, t, i);
    } else {
      hide Windowed, See;
      SeeWindows(s, a.group, eventId, Some(i));
      SamePublished(See(s, a.group, eventId, Some(i)), t);
    }
  }

  lemma SamePublished(s: State, t: State)
    requires Windowed(s) && t == s.(published := t.published)
    ensures Windowed(t)
  {
    hide OpenFor, ClosedFor;
  }

  /** The bridge after a send: the window is gone, and an event was attributed
      exactly if the send returned normally and its window saw one event. */
  lemma FinishBridge(s: State, i: nat, ok: bool, error: string, now: int)
    requires Windowed(s) && i < |s.attempts| && s.attempts[i].phase.Sending?
    ensures var a := s.attempts[i];
            var b := OnFinish(s, i, ok, error, now).bridge;
            var b0 := Shut(s.bridge, a.group);
            b == if !ok then MarkedFailed(b0, a.rumorId, error, now)
                 else if |s.seen[a.group]| == 1 && a.rumorId != ""
                 then SentFallback(MarkedSent(b0, a.rumorId, s.seen[a.group][0].eventId, now), a.rumorId, now)
                 else SentFallback(b0, a.rumorId, now)
  {
    var a := s.attempts[i];
    OpenOf(s, i);
    hide MarkedSent, SentFallback, MarkedFailed, Windowed;
    assert [a.rumorId][1..] == [];
    assert Dropped([a.rumorId], a.rumorId) == [];
    assert (s.bridge.expected - {a.group}) - {a.group} == s.bridge.expected - {a.group};
  }

  /** Marking an entry touches neither windows nor queues. */
  lemma MarksKeepWindows(b: Bridge, id: string, x: string, now: int)
    ensures MarkedSent(b, id, x, now) == b.(entries := MarkedSent(b, id, x, now).entries)
    ensures SentFallback(b, id, now) == b.(entries := SentFallback(b, id, now).entries)
    ensures MarkedFailed(b, id, x, now) == b.(entries := MarkedFailed(b, id, x, now).entries)
    ensures AttemptStarted(b, id, now) == b.(entries := AttemptStarted(b, id, now).entries)
  {
  }

  lemma FinishWindows(s: State, i: nat, ok: bool, error: string, now: int)
    requires Windowed(s) && i < |s.attempts| && s.attempts[i].phase.Sending?
    ensures Windowed(OnFinish(s, i, ok, error, now))
  {
    var a := s.attempts[i];
    var t := OnFinish(s, i, ok, error, now);
    FinishBridge(s, i, ok, error, now);
    OpenOf(s, i);
    var b0 := Shut(s.bridge, a.group);
    MarksKeepWindows(b0, a.rumorId, error, now);
    if |s.seen[a.group]| == 1 {
      MarksKeepWindows(b0, a.rumorId, s.seen[a.group][0].eventId, now);
      MarksKeepWindows(MarkedSent(b0, a.rumorId, s.seen[a.group][0].eventId, now), a.rumorId, error, now);
    }
    assert t.bridge == b0.(entries := t.bridge.entries);
    hide MarkedSent, SentFallback, MarkedFailed, Ended, Removed, Windowed, OpenFor, Shut;
    ShutElsewhere(s.bridge, t.bridge, s.seen, a.group);
    hide ClosedFor, SameFor;
    OneGroupChanges(s, t, i);
  }

  predicate Unstarted(s: State) {
    forall i :: 0 <= i < |s.attempts| && s.attempts[i].phase.Waiting? ==> s.attempts[i].own == 0
  }

  lemma OtherWindows(s: State, l: Label)
    requires Windowed(s) && (l.Register? || l.Ask? || l.Cleanup? || l.Echo? || l.Foreign?)
    ensures Windowed(Step(s, l))
  {
    match l
    case Foreign(g, ev) => SeeWindows(s, g, ev, None);
    case Ask(g, rumorId) => AskWindows(s, g, rumorId);
    case _ => hide Capped, Put, Windowed; SameWindows(s, Step(s, l));
  }

  lemma AskWindows(s: State, g: string, rumorId: string)
    requires Windowed(s)
    ensures Windowed(Step(s, Ask(g, rumorId)))
  {
    hide OpenFor, ClosedFor;
    var t := Step(s, Ask(g, rumorId));
    assert forall i :: 0 <= i < |s.attempts| ==> t.attempts[i] == s.attempts[i];
  }

  lemma SameWindows(s: State, t: State)
    requires Windowed(s) && t.attempts == s.attempts && t.sending == s.sending && t.seen == s.seen
    requires t.bridge == s.bridge.(entries := t.bridge.entries)
    ensures Windowed(t)
  {
    forall g ensures SameFor(s.bridge, s.seen, t.bridge, t.seen, g) {
    }
    hide OpenFor, ClosedFor, SameFor;
    forall g | g in t.sending ensures OpenFor(t.bridge, t.seen, t.attempts[t.sending[g]], t.sending[g], g) {
      SameWindow(s.bridge, s.seen, t.bridge, t.seen, s.attempts[s.sending[g]], s.sending[g], g);
    }
    forall g | g !in t.sending ensures ClosedFor(t.bridge, t.seen, g) {
      SameWindow(s.bridge, s.seen, t.bridge, t.seen, Attempt("", "", None, Waiting, 0), 0, g);
    }
  }

  lemma StepWindows(s: State, l: Label)
    requires Queued(s) && Windowed(s) && Unstarted(s)
    ensures Windowed(Step(s, l)) && Unstarted(Step(s, l))
  {
    StepUnstarted(s, l);
    hide Queued, Windowed, OnBegin, OnOwnPublish, OnFinish, OnCleanup, See;
    match l
    case Begin(i, now) => if IsTurn(s, i) { BeginWindows(s, i, now); }
    case OwnPublish(i, ev) => if i < |s.attempts| && !s.attempts[i].phase.Waiting? { OwnPublishWindows(s, i, ev); }
    case Finish(i, ok, error, now) => if i < |s.attempts| && s.attempts[i].phase.Sending? { FinishWindows(s, i, ok, error, now); }
    case _ => OtherWindows(s, l);
  }

  lemma StepUnstarted(s: State, l: Label)
    requires Unstarted(s)
    ensures Unstarted(Step(s, l))
  {
    hide Observed, Begun, AttemptStarted, Removed, Ended, SentFallback, MarkedFailed, Registered, EchoReconciled;
  }

  // ------------------------------------------------ attribution

  /** The assumptions: a send that returns normally has published exactly once
      inside its window, and an entry is registered without an event or with
      one of its own. */
  predicate Allowed(s: State, l: Label) {
    match l
    case Finish(i, ok, _, _) => i < |s.attempts| && ok ==> s.attempts[i].own == 1
    case Register(e) => e.sentEventId.Some? ==> (e.sentEventId.value, e.rumorId) in s.published
    case _ => true
  }

  lemma OnlyOwnSeen(s: State, i: nat)
    requires Windowed(s) && Authored(s) && i < |s.attempts| && s.attempts[i].phase.Sending? && s.attempts[i].own == 1
    requires |s.seen[s.attempts[i].group]| == 1
    ensures (s.seen[s.attempts[i].group][0].eventId, s.attempts[i].rumorId) in s.published
  {
    OpenOf(s, i);
    var seen := s.seen[s.attempts[i].group];
    assert seen[..0] == [] && Own([], i) == 0;
    assert Own(seen, i) == Own(seen[..0], i) + if seen[0].author == Some(i) then 1 else 0;
    assert seen[0].author == Some(i);
  }

  /** Putting back an entry with the same or an own event keeps attributions right. */
  lemma PutAttributes(es: seq<Entry>, e: Entry, published: set<(string, string)>)
    requires UniqueRumors(es) && forall x :: x in es && x.sentEventId.Some? ==> (x.sentEventId.value, x.rumorId) in published
    requires e.sentEventId.Some? ==> (e.sentEventId.value, e.rumorId) in published
    ensures UniqueRumors(Put(es, e))
    ensures forall x :: x in Put(es, e) && x.sentEventId.Some? ==> (x.sentEventId.value, x.rumorId) in published
  {
    PutKeeps(es, e);
  }

  predicate WellAttributed(es: seq<Entry>, published: set<(string, string)>) {
    UniqueRumors(es) && forall x :: x in es && x.sentEventId.Some? ==> (x.sentEventId.value, x.rumorId) in published
  }

  lemma MarksAttribute(b: Bridge, id: string, x: string, now: int, published: set<(string, string)>)
    requires WellAttributed(b.entries, published)
    ensures (x, id) in published ==> WellAttributed(MarkedSent(b, id, x, now).entries, published)
    ensures WellAttributed(SentFallback(b, id, now).entries, published)
    ensures WellAttributed(MarkedFailed(b, id, x, now).entries, published)
    ensures WellAttributed(AttemptStarted(b, id, now).entries, published)
  {
    var f := Find(b.entries, id);
    if f.Some? {
      hide Put, UniqueRumors, Find;
      var e := f.value;
      PutAttributes(b.entries, e.(status := Sent, lastAttemptAt := Some(now)), published);
      PutAttributes(b.entries, e.(status := Failed, lastAttemptAt := Some(now), lastError := Some(x)), published);
      PutAttributes(b.entries, e.(status := Pending, attempts := e.attempts + 1, lastAttemptAt := Some(now), lastError := None), published);
      if (x, id) in published {
        PutAttributes(b.entries, e.(status := Sent, sentEventId := Some(x), lastAttemptAt := Some(now)), published);
      }
    }
  }

  lemma FinishAttributes(s: State, i: nat, ok: bool, error: string, now: int)
    requires Windowed(s) && Authored(s) && Attributed(s) && i < |s.attempts| && s.attempts[i].phase.Sending?
    requires ok ==> s.attempts[i].own == 1
    ensures Attributed(OnFinish(s, i, ok, error, now))
  {
    var a := s.attempts[i];
    FinishBridge(s, i, ok, error, now);
    if ok && |s.seen[a.group]| == 1 { OnlyOwnSeen(s, i); }
    hide Windowed, MarkedSent, SentFallback, MarkedFailed, Ended, Removed, UniqueRumors;
    var b0 := Shut(s.bridge, a.group);
    MarksAttribute(b0, a.rumorId, error, now, s.published);
    if ok && |s.seen[a.group]| == 1 && a.rumorId != "" {
      var x := s.seen[a.group][0].eventId;
      MarksAttribute(b0, a.rumorId, x, now, s.published);
      MarksAttribute(MarkedSent(b0, a.rumorId, x, now), a.rumorId, x, now, s.published);
    }
  }

  lemma StepAttributes(s: State, l: Label)
    requires Windowed(s) && Authored(s) && Attributed(s) && Allowed(s, l)
    ensures Attributed(Step(s, l))
  {
    match l
    case Finish(i, ok, error, now) => if i < |s.attempts| && s.attempts[i].phase.Sending? { FinishAttributes(s, i, ok, error, now); }
    case Begin(i, now) => if IsTurn(s, i) { MarksAttribute(s.bridge, s.attempts[i].rumorId, "", now, s.published); }
    case Register(e) =>
      PutAttributes(s.bridge.entries, e, s.published);
      CapKeepsNewest(Put(s.bridge.entries, e), e.groupId, e.groupId);
    case Echo(factId, g) =>
      var k := EchoIndex(s.bridge.entries, factId, g);
      if k < |s.bridge.entries| { WithoutUnique(s.bridge.entries, s.bridge.entries[k].rumorId); }
    case _ =>
  }

  /** Sightings go, publishes and attempts are added. */
  lemma FewerSeenAuthors(s: State, t: State)
    requires Authored(s) && s.published <= t.published && |s.attempts| <= |t.attempts|
    requires forall i :: 0 <= i < |s.attempts| ==> t.attempts[i].rumorId == s.attempts[i].rumorId
    requires forall g :: g in t.seen ==> t.seen[g] == [] || (g in s.seen && t.seen[g] == s.seen[g])
    ensures Authored(t)
  {
  }

  lemma SeeAuthors(s: State, g: string, ev: string, author: Option<nat>)
    requires Authored(s)
    requires author.Some? ==> author.value < |s.attempts| && (ev, s.attempts[author.value].rumorId) in s.published
    ensures Authored(See(s, g, ev, author))
  {
    hide Observed;
  }

  lemma PublishAuthors(s: State, i: nat, ev: string)
    requires Authored(s) && i < |s.attempts|
    ensures Authored(OnOwnPublish(s, i, ev))
  {
    var a := s.attempts[i];
    var s1 := s.(published := s.published + {(ev, a.rumorId)});
    FewerSeenAuthors(s, s1);
    SeeAuthors(s1, a.group, ev, Some(i));
    hide Authored, Observed;
    FewerSeenAuthors(See(s1, a.group, ev, Some(i)), OnOwnPublish(s, i, ev));
  }

  lemma StepAuthors(s: State, l: Label)
    requires Authored(s)
    ensures Authored(Step(s, l))
  {
    hide Authored, AttemptStarted, MarkedSent, SentFallback, MarkedFailed, Ended, Removed, Begun, Registered, EchoReconciled;
    match l
    case OwnPublish(i, ev) => if i < |s.attempts| { PublishAuthors(s, i, ev); }
    case Foreign(g, ev) => SeeAuthors(s, g, ev, None);
    case _ => FewerSeenAuthors(s, Step(s, l));
  }

  predicate AllAllowed(s: State, ls: seq<Label>)
    decreases ls
  {
    |ls| > 0 ==> Allowed(s, ls[0]) && AllAllowed(Step(s, ls[0]), ls[1..])
  }

  lemma {:induction false} RunAttributes(s: State, ls: seq<Label>)
    requires Queued(s) && Windowed(s) && Unstarted(s) && Authored(s) && Attributed(s) && AllAllowed(s, ls)
    ensures Attributed(Run(s, ls))
    decreases ls
  {
    hide Queued, Windowed, Unstarted, Authored, Attributed, Allowed, Step;
    if |ls| > 0 {
      StepQueues(s, ls[0]);
      StepWindows(s, ls[0]);
      StepAuthors(s, ls[0]);
      StepAttributes(s, ls[0]);
      RunAttributes(Step(s, ls[0]), ls[1..]);
    }
  }

  /** The outbox never misattributes: under every interleaving of sends, retries,
      failed and belated sends and foreign publishes, an entry's sentEventId is
      the id of a publish of that entry's own rumor. */
  lemma NeverMisattributed(ls: seq<Label>, e: Entry)
    requires AllAllowed(INITIAL, ls) && e in Run(INITIAL, ls).bridge.entries && e.sentEventId.Some?
    ensures (e.sentEventId.value, e.rumorId) in Run(INITIAL, ls).published
  {
    InitialHolds();
    hide Run, Queued, Windowed, Unstarted, Authored;
    RunAttributes(INITIAL, ls);
  }

  lemma InitialHolds()
    ensures Queued(INITIAL) && Windowed(INITIAL) && Unstarted(INITIAL) && Authored(INITIAL) && Attributed(INITIAL)
  {
  }

  lemma {:induction false} RunWindows(s: State, ls: seq<Label>)
    requires Queued(s) && Windowed(s) && Unstarted(s)
    ensures Queued(Run(s, ls)) && Windowed(Run(s, ls))
    decreases ls
  {
    hide Queued, Windowed, Unstarted, Step;
    if |ls| > 0 {
      StepQueues(s, ls[0]);
      StepWindows(s, ls[0]);
      RunWindows(Step(s, ls[0]), ls[1..]);
    }
  }

  lemma FinishAttributesExactly(s: State, i: nat, ok: bool, error: string, now: int)
    requires Windowed(s) && i < |s.attempts| && s.attempts[i].phase.Sending? && s.attempts[i].rumorId != ""
    requires Find(s.bridge.entries, s.attempts[i].rumorId).Some?
    requires Find(s.bridge.entries, s.attempts[i].rumorId).value.status.Pending?
    ensures var a := s.attempts[i];
            var after := Find(OnFinish(s, i, ok, error, now).bridge.entries, a.rumorId);
            a.group in s.seen && after.Some? &&
            after.value.sentEventId ==
              if ok && |s.seen[a.group]| == 1 then Some(s.seen[a.group][0].eventId)
              else Find(s.bridge.entries, a.rumorId).value.sentEventId
  {
    var a := s.attempts[i];
    OpenOf(s, i);
    FinishBridge(s, i, ok, error, now);
    hide Windowed, Find, MarkedSent, SentFallback, MarkedFailed, OnFinish;
    MarkedIsFound(Shut(s.bridge, a.group), a.rumorId, if |s.seen[a.group]| == 1 then s.seen[a.group][0].eventId else "", error, now);
  }

  /** What an attempt's end does to its entry, in every run and without any
      assumption on the sends: a normal return with exactly one event in the
      window attributes that event; any other end leaves the attribution as it
      was. So a foreign event is attributed exactly when a send returns normally
      without a publish of its own while one foreign publish falls in its window. */
  lemma AttributionExactly(ls: seq<Label>, i: nat, ok: bool, error: string, now: int)
    requires var s := Run(INITIAL, ls);
             i < |s.attempts| && s.attempts[i].phase.Sending? && s.attempts[i].rumorId != "" &&
             Find(s.bridge.entries, s.attempts[i].rumorId).Some? &&
             Find(s.bridge.entries, s.attempts[i].rumorId).value.status.Pending?
    ensures var s := Run(INITIAL, ls);
            var a := s.attempts[i];
            var after := Find(Step(s, Finish(i, ok, error, now)).bridge.entries, a.rumorId);
            a.group in s.seen && after.Some? &&
            after.value.sentEventId ==
              if ok && |s.seen[a.group]| == 1 then Some(s.seen[a.group][0].eventId)
              else Find(s.bridge.entries, a.rumorId).value.sentEventId
  {
    hide Run, Queued, Unstarted, Windowed, Authored, Attributed, Find, OnFinish;
    InitialHolds();
    RunWindows(INITIAL, ls);
    FinishAttributesExactly(Run(INITIAL, ls), i, ok, error, now);
  }

  lemma MarkedIsFound(b: Bridge, id: string, x: string, error: string, now: int)
    requires Find(b.entries, id).Some? && Find(b.entries, id).value.status.Pending?
    ensures var f := Find(SentFallback(MarkedSent(b, id, x, now), id, now).entries, id);
            f.Some? && f.value.sentEventId == Some(x)
    ensures var f := Find(SentFallback(b, id, now).entries, id);
            f.Some? && f.value.sentEventId == Find(b.entries, id).value.sentEventId
    ensures var f := Find(MarkedFailed(b, id, error, now).entries, id);
            f.Some? && f.value.sentEventId == Find(b.entries, id).value.sentEventId
  {
    var e := Find(b.entries, id).value;
    PutIsFound(b.entries, e.(status := Sent, sentEventId := Some(x), lastAttemptAt := Some(now)));
    PutIsFound(b.entries, e.(status := Sent, lastAttemptAt := Some(now)));
    PutIsFound(b.entries, e.(status := Failed, lastAttemptAt := Some(now), lastError := Some(error)));
  }

  lemma PutIsFound(es: seq<Entry>, e: Entry)
    ensures Find(Put(es, e), e.rumorId) == Some(e)
  {
    var k := IndexOf(es, e.rumorId);
    var r := Put(es, e);
    assert r[k] == e && forall i :: 0 <= i < k ==> r[i].rumorId != e.rumorId;
    assert IndexOf(r, e.rumorId) == k;
  }

  // ------------------------------------------------ the bridge object

  /** The object, driven through any interleaving, is the bridge of the run: its
      attributed events are publishes of the entries' own rumors. */
  method RunBridge(ls: seq<Label>) returns (bridge: OutboxBridge, end: State)
    ensures fresh(bridge) && end == Run(INITIAL, ls) && bridge.View() == end.bridge
    ensures AllAllowed(INITIAL, ls) ==>
      forall e :: e in bridge.outboxEntries && e.sentEventId.Some? ==> (e.sentEventId.value, e.rumorId) in end.published
  {
    bridge := new OutboxBridge();
    end := INITIAL;
    for i := 0 to |ls|
      invariant fresh(bridge) && bridge.View() == end.bridge && Run(end, ls[i..]) == Run(INITIAL, ls)
    {
      assert ls[i..][0] == ls[i] && ls[i..][1..] == ls[i + 1..];
      DriveBridge(bridge, end, ls[i]);
      end := Step(end, ls[i]);
    }
    assert ls[|ls|..] == [];
    hide Run;
    if AllAllowed(INITIAL, ls) {
      forall e | e in bridge.outboxEntries && e.sentEventId.Some? ensures (e.sentEventId.value, e.rumorId) in end.published {
        NeverMisattributed(ls, e);
      }
    }
  }

  method DriveBridge(bridge: OutboxBridge, s: State, l: Label)
    requires bridge.View() == s.bridge
    modifies bridge
    ensures bridge.View() == Step(s, l).bridge
  {
    hide Registered, AttemptStarted, Begun, Observed, Removed, Ended, SentFallback, MarkedFailed, EchoReconciled;
    match l
    case Register(e) => var _ := bridge.RegisterOutboxEntry(e);
    case Begin(i, now) =>
      if IsTurn(s, i) {
        bridge.MarkOutboxAttemptStarted(s.attempts[i].rumorId, now);
        bridge.BeginOutboxPublishWindow(s.attempts[i].group, s.attempts[i].rumorId);
      }
    case OwnPublish(i, ev) => if i < |s.attempts| && !s.attempts[i].phase.Waiting? { bridge.ObservePublish(s.attempts[i].group, ev); }
    case Foreign(g, ev) => bridge.ObservePublish(g, ev);
    case Finish(i, ok, error, now) =>
      if i < |s.attempts| && s.attempts[i].phase.Sending? {
        var a := s.attempts[i];
        if !ok { bridge.RemoveOutboxExpectation(a.group, a.rumorId); }
        bridge.EndOutboxPublishWindow(a.group, now);
        if ok { bridge.MarkOutboxSentFallback(a.rumorId, now); } else { bridge.MarkOutboxFailed(a.rumorId, error, now); }
      }
    case Echo(factId, g) => var _ := bridge.ReconcileOwnEcho(factId, g, 0);
    case _ =>
  }
}
