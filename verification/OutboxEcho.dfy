/** The relay echo of an own edit: once a send has been attributed an event, that
    event's return takes exactly that edit out of the registry, whatever has
    happened to the edit in between (src/integration/marmot-adapter.ts:654-672;
    src/integration/publish-outbox.ts:404-461). */

module OutboxEchoes {
  import opened Wrappers
  import opened OutboxStore
  import opened OutboxBridges
  import opened OutboxProtocol

  /** A live entry of group `g` that has been attributed the event `ev`: it waits
      for a send, has been sent, or has failed since. */
  predicate Carries(e: Entry, ev: string, g: string) {
    e.sentEventId == Some(ev) && e.groupId == g && (e.status.Pending? || e.status.Sent? || e.status.Failed?)
  }

  // ------------------------------------------------ one echo

  lemma {:induction false} WithoutOne(es: seq<Entry>, k: nat)
    requires UniqueRumors(es) && k < |es|
    ensures Without(es, es[k].rumorId) == es[..k] + es[k + 1..]
  {
    var id := es[k].rumorId;
    if k == 0 {
      NothingToDrop(es[1..], id);
      assert es[..0] + es[1..] == es[1..];
    } else {
      WithoutOne(es[1..], k - 1);
      HeadKept(es, k);
    }
  }

  lemma HeadKept(es: seq<Entry>, k: nat)
    requires 0 < k < |es|
    ensures es[..k] + es[k + 1..] == [es[0]] + (es[1..][..k - 1] + es[1..][k..])
  {
  }

  /** Of the entries that carry the event the eldest in the registry leaves it. */
  lemma EchoTakesTheFirst(b: Bridge, ev: string, g: string, k: nat)
    requires UniqueRumors(b.entries) && k < |b.entries| && Carries(b.entries[k], ev, g)
    requires forall j :: 0 <= j < k ==> !Carries(b.entries[j], ev, g)
    ensures EchoReconciled(b, ev, g) == b.(entries := b.entries[..k] + b.entries[k + 1..])
  {
    assert EchoIndex(b.entries, ev, g) == k;
    WithoutOne(b.entries, k);
  }

  /** An echo changes nothing exactly if no entry carries its event. */
  lemma EchoIsIdleExactly(b: Bridge, ev: string, g: string)
    requires UniqueRumors(b.entries)
    ensures EchoReconciled(b, ev, g) == b <==> forall e :: e in b.entries ==> !Carries(e, ev, g)
  {
    var k := EchoIndex(b.entries, ev, g);
    if k < |b.entries| {
      assert b.entries[k] in b.entries;
      EchoTakesTheFirst(b, ev, g, k);
      assert |b.entries[..k] + b.entries[k + 1..]| < |b.entries|;
    } else {
      forall e | e in b.entries ensures !Carries(e, ev, g) {
        var j :| 0 <= j < |b.entries| && b.entries[j] == e;
        assert !Echoes(b.entries[j], ev, g);
      }
    }
  }

  // ------------------------------------------------ from the attribution to the echo

  /** The edit `id` is tracked, and carries the event. */
  predicate Held(b: Bridge, id: string, ev: string, g: string) {
    UniqueRumors(b.entries) && exists e :: e in b.entries && e.rumorId == id && Carries(e, ev, g)
  }

  lemma PutUnique(es: seq<Entry>, e: Entry)
    requires UniqueRumors(es)
    ensures UniqueRumors(Put(es, e))
  {
    PutKeeps(es, e);
  }

  lemma StepUnique(s: State, l: Label)
    requires Windowed(s) && UniqueRumors(s.bridge.entries)
    ensures UniqueRumors(Step(s, l).bridge.entries)
  {
    hide Put, UniqueRumors, Windowed;
    match l
    case Register(e) =>
      PutUnique(s.bridge.entries, e);
      CapKeepsNewest(Put(s.bridge.entries, e), e.groupId, e.groupId);
    case Begin(i, now) => if IsTurn(s, i) { MarksUnique(s.bridge, s.attempts[i].rumorId, "", "", now); }
    case Finish(i, ok, error, now) =>
      if i < |s.attempts| && s.attempts[i].phase.Sending? { FinishUnique(s, i, ok, error, now); }
    case Echo(ev, g) =>
      var k := EchoIndex(s.bridge.entries, ev, g);
      if k < |s.bridge.entries| { WithoutUnique(s.bridge.entries, s.bridge.entries[k].rumorId); }
    case _ =>
  }

  lemma MarksUnique(b: Bridge, id: string, ev: string, error: string, now: int)
    requires UniqueRumors(b.entries)
    ensures UniqueRumors(AttemptStarted(b, id, now).entries) && UniqueRumors(MarkedFailed(b, id, error, now).entries)
    ensures UniqueRumors(MarkedSent(b, id, ev, now).entries) && UniqueRumors(SentFallback(b, id, now).entries)
  {
    var f := Find(b.entries, id);
    if f.Some? {
      hide Put, UniqueRumors, Find;
      var e := f.value;
      PutUnique(b.entries, e.(status := Pending, attempts := e.attempts + 1, lastAttemptAt := Some(now), lastError := None));
      PutUnique(b.entries, e.(status := Failed, lastAttemptAt := Some(now), lastError := Some(error)));
      PutUnique(b.entries, e.(status := Sent, sentEventId := Some(ev), lastAttemptAt := Some(now)));
      PutUnique(b.entries, e.(status := Sent, lastAttemptAt := Some(now)));
    }
  }

  lemma FinishUnique(s: State, i: nat, ok: bool, error: string, now: int)
    requires Windowed(s) && i < |s.attempts| && s.attempts[i].phase.Sending? && UniqueRumors(s.bridge.entries)
    ensures UniqueRumors(OnFinish(s, i, ok, error, now).bridge.entries)
  {
    var a := s.attempts[i];
    OpenOf(s, i);
    FinishBridge(s, i, ok, error, now);
    hide Windowed, UniqueRumors, MarkedSent, SentFallback, MarkedFailed, OnFinish;
    var b0 := Shut(s.bridge, a.group);
    var ev := if |s.seen[a.group]| == 1 then s.seen[a.group][0].eventId else "";
    MarksUnique(b0, a.rumorId, ev, error, now);
    MarksUnique(MarkedSent(b0, a.rumorId, ev, now), a.rumorId, ev, error, now);
  }

  /** What leaves the attribution of `id` alone: anything but its eviction, a
      registration of the same rumor, an echo of the event itself, and an attempt
      of the same rumor that ends normally with exactly one event seen. */
  predicate Spares(s: State, l: Label, id: string, ev: string, g: string) {
    match l
    case Register(e) => e.rumorId != id && exists x :: x in Registered(s.bridge, e).entries && x.rumorId == id
    case Finish(i, ok, _, _) =>
      i < |s.attempts| && ok && s.attempts[i].rumorId == id && s.attempts[i].group in s.seen ==> |s.seen[s.attempts[i].group]| != 1
    case Echo(f, h) => f != ev || h != g
    case _ => true
  }

  predicate AllSpare(s: State, ls: seq<Label>, id: string, ev: string, g: string)
    decreases ls
  {
    |ls| > 0 ==> Spares(s, ls[0], id, ev, g) && AllSpare(Step(s, ls[0]), ls[1..], id, ev, g)
  }

  /** An entry is put back under its own id: who carries what otherwise stays. */
  lemma PutHolds(b: Bridge, e: Entry, id: string, ev: string, g: string)
    requires Held(b, id, ev, g) && (e.rumorId == id ==> Carries(e, ev, g))
    ensures Held(b.(entries := Put(b.entries, e)), id, ev, g)
  {
    PutKeeps(b.entries, e);
    hide Put, UniqueRumors;
    if e.rumorId != id {
      var x :| x in b.entries && x.rumorId == id && Carries(x, ev, g);
      assert x in Put(b.entries, e);
    }
  }

  lemma OnlyOne(es: seq<Entry>, x: Entry, y: Entry)
    requires UniqueRumors(es) && x in es && y in es && x.rumorId == y.rumorId
    ensures x == y
  {
  }

  /** Every mark but the attribution of another event. */
  lemma MarksHold(b: Bridge, to: string, error: string, now: int, id: string, ev: string, g: string)
    requires Held(b, id, ev, g)
    ensures Held(AttemptStarted(b, to, now), id, ev, g) && Held(MarkedFailed(b, to, error, now), id, ev, g)
    ensures Held(SentFallback(b, to, now), id, ev, g)
    ensures forall f: string :: to != id ==> Held(MarkedSent(b, to, f, now), id, ev, g)
  {
    var found := Find(b.entries, to);
    if found.Some? {
      var e := found.value;
      var x :| x in b.entries && x.rumorId == id && Carries(x, ev, g);
      if to == id { OnlyOne(b.entries, x, e); }
      hide Put, UniqueRumors, Find, Held;
      PutHolds(b, e.(status := Pending, attempts := e.attempts + 1, lastAttemptAt := Some(now), lastError := None), id, ev, g);
      PutHolds(b, e.(status := Failed, lastAttemptAt := Some(now), lastError := Some(error)), id, ev, g);
      PutHolds(b, e.(status := Sent, lastAttemptAt := Some(now)), id, ev, g);
      forall f: string | to != id ensures Held(MarkedSent(b, to, f, now), id, ev, g) {
        PutHolds(b, e.(status := Sent, sentEventId := Some(f), lastAttemptAt := Some(now)), id, ev, g);
      }
    }
  }

  lemma FinishHolds(s: State, i: nat, ok: bool, error: string, now: int, id: string, ev: string, g: string)
    requires Windowed(s) && i < |s.attempts| && s.attempts[i].phase.Sending? && Held(s.bridge, id, ev, g)
    requires Spares(s, Finish(i, ok, error, now), id, ev, g)
    ensures Held(OnFinish(s, i, ok, error, now).bridge, id, ev, g)
  {
    var a := s.attempts[i];
    OpenOf(s, i);
    FinishBridge(s, i, ok, error, now);
    var b0 := Shut(s.bridge, a.group);
    assert Held(b0, id, ev, g);
    hide Windowed, UniqueRumors, MarkedSent, SentFallback, MarkedFailed, OnFinish, Held;
    MarksHold(b0, a.rumorId, error, now, id, ev, g);
    if ok && |s.seen[a.group]| == 1 && a.rumorId != "" {
      var b1 := MarkedSent(b0, a.rumorId, s.seen[a.group][0].eventId, now);
      MarksHold(b1, a.rumorId, error, now, id, ev, g);
    }
  }

  /** A registration of another rumor that does not evict the edit. */
  lemma RegisterHolds(s: State, e: Entry, id: string, ev: string, g: string)
    requires Held(s.bridge, id, ev, g) && Spares(s, Register(e), id, ev, g)
    ensures Held(Registered(s.bridge, e), id, ev, g)
  {
    var es := Put(s.bridge.entries, e);
    PutHolds(s.bridge, e, id, ev, g);
    var x :| x in es && x.rumorId == id && Carries(x, ev, g);
    CapKeepsNewest(es, e.groupId, e.groupId);
    var y :| y in Capped(es, e.groupId) && y.rumorId == id;
    hide Put, Capped;
    OnlyOne(es, x, y);
  }

  lemma EchoHolds(b: Bridge, f: string, h: string, id: string, ev: string, g: string)
    requires Held(b, id, ev, g) && (f != ev || h != g)
    ensures Held(EchoReconciled(b, f, h), id, ev, g)
  {
    var x :| x in b.entries && x.rumorId == id && Carries(x, ev, g);
    var k := EchoIndex(b.entries, f, h);
    if k < |b.entries| {
      var e := b.entries[k];
      WithoutUnique(b.entries, e.rumorId);
      if e.rumorId == id { OnlyOne(b.entries, e, x); }
      assert x in Without(b.entries, e.rumorId);
    }
  }

  lemma StepHolds(s: State, l: Label, id: string, ev: string, g: string)
    requires Windowed(s) && Held(s.bridge, id, ev, g) && Spares(s, l, id, ev, g)
    ensures Held(Step(s, l).bridge, id, ev, g)
  {
    match l
    case Register(e) => RegisterHolds(s, e, id, ev, g);
    case Begin(i, now) => if IsTurn(s, i) { hide Windowed, UniqueRumors; MarksHold(s.bridge, s.attempts[i].rumorId, "", now, id, ev, g); }
    case Finish(i, ok, error, now) =>
      if i < |s.attempts| && s.attempts[i].phase.Sending? { hide OnFinish; FinishHolds(s, i, ok, error, now, id, ev, g); }
    case Echo(f, h) => EchoHolds(s.bridge, f, h, id, ev, g);
    case _ => hide Windowed, UniqueRumors;
  }

  lemma {:induction false} RunHolds(s: State, ls: seq<Label>, id: string, ev: string, g: string)
    requires Queued(s) && Windowed(s) && Unstarted(s) && Held(s.bridge, id, ev, g) && AllSpare(s, ls, id, ev, g)
    ensures Held(Run(s, ls).bridge, id, ev, g)
    decreases ls
  {
    hide Queued, Windowed, Unstarted, Held, Spares, Step;
    if |ls| > 0 {
      StepQueues(s, ls[0]);
      StepWindows(s, ls[0]);
      StepHolds(s, ls[0], id, ev, g);
      RunHolds(Step(s, ls[0]), ls[1..], id, ev, g);
    }
  }

  /** What every run keeps. */
  lemma {:induction false} RunKeeps(s: State, ls: seq<Label>)
    requires Queued(s) && Windowed(s) && Unstarted(s) && UniqueRumors(s.bridge.entries)
    ensures var t := Run(s, ls);
            Queued(t) && Windowed(t) && Unstarted(t) && UniqueRumors(t.bridge.entries)
    decreases ls
  {
    hide Queued, Windowed, Unstarted, UniqueRumors, Step;
    if |ls| > 0 {
      StepQueues(s, ls[0]);
      StepWindows(s, ls[0]);
      StepUnique(s, ls[0]);
      RunKeeps(Step(s, ls[0]), ls[1..]);
    }
  }

  /** A normal return with exactly one event seen: the pending edit now carries it. */
  lemma FinishAttaches(s: State, i: nat, error: string, now: int)
    requires Windowed(s) && UniqueRumors(s.bridge.entries) && Attaches(s, i)
    ensures Held(OnFinish(s, i, true, error, now).bridge, s.attempts[i].rumorId, s.seen[s.attempts[i].group][0].eventId, s.attempts[i].group)
  {
    var a := s.attempts[i];
    OpenOf(s, i);
    FinishBridge(s, i, true, error, now);
    FinishUnique(s, i, true, error, now);
    var b0 := Shut(s.bridge, a.group);
    var e := Find(s.bridge.entries, a.rumorId).value;
    var sent := e.(status := Sent, sentEventId := Some(s.seen[a.group][0].eventId), lastAttemptAt := Some(now));
    PutIsFound(s.bridge.entries, sent);
    PutKeeps(s.bridge.entries, sent);
    hide Windowed, UniqueRumors, Put, OnFinish, Find;
    assert SentFallback(MarkedSent(b0, a.rumorId, s.seen[a.group][0].eventId, now), a.rumorId, now) ==
      MarkedSent(b0, a.rumorId, s.seen[a.group][0].eventId, now);
    assert sent in MarkedSent(b0, a.rumorId, s.seen[a.group][0].eventId, now).entries;
  }

  /** An attempt that is about to end has seen one event for its tracked edit. */
  predicate Attaches(s: State, i: nat) {
    i < |s.attempts| && s.attempts[i].phase.Sending? && s.attempts[i].rumorId != "" &&
    s.attempts[i].group in s.seen && |s.seen[s.attempts[i].group]| == 1 &&
    var f := Find(s.bridge.entries, s.attempts[i].rumorId);
    f.Some? && f.value.status.Pending? && f.value.groupId == s.attempts[i].group
  }

  /** The main result, in every run: an attempt ends normally with its window having
      seen one event; then whatever happens that spares the attribution, further
      attempts that fail included; and then the event's echo takes exactly that
      edit out of the registry, if no other live entry of the group carries it. */
  lemma EchoReconcilesItsEdit(ls: seq<Label>, i: nat, error: string, now: int, more: seq<Label>)
    requires var s := Run(INITIAL, ls);
             Attaches(s, i) &&
             var a := s.attempts[i];
             var ev := s.seen[a.group][0].eventId;
             var t := Step(s, Finish(i, true, error, now));
             AllSpare(t, more, a.rumorId, ev, a.group) &&
             forall x :: x in Run(t, more).bridge.entries && Carries(x, ev, a.group) ==> x.rumorId == a.rumorId
    ensures var s := Run(INITIAL, ls);
            var a := s.attempts[i];
            Taken(Run(Step(s, Finish(i, true, error, now)), more), a.rumorId, s.seen[a.group][0].eventId, a.group)
  {
    InitialHolds();
    RunKeeps(INITIAL, ls);
    hide Queued, Unstarted, Windowed, UniqueRumors, Run, AllSpare, Step, Carries, Find;
    AttachedThenEchoed(Run(INITIAL, ls), i, error, now, more);
  }

  lemma AttachedThenEchoed(s: State, i: nat, error: string, now: int, more: seq<Label>)
    requires Queued(s) && Windowed(s) && Unstarted(s) && UniqueRumors(s.bridge.entries) && Attaches(s, i)
    requires var a := s.attempts[i];
             var ev := s.seen[a.group][0].eventId;
             var t := Step(s, Finish(i, true, error, now));
             AllSpare(t, more, a.rumorId, ev, a.group) &&
             forall x :: x in Run(t, more).bridge.entries && Carries(x, ev, a.group) ==> x.rumorId == a.rumorId
    ensures var a := s.attempts[i];
            Taken(Run(Step(s, Finish(i, true, error, now)), more), a.rumorId, s.seen[a.group][0].eventId, a.group)
  {
    hide Queued, Unstarted, Windowed, UniqueRumors, Run, AllSpare, Step, Carries, Find;
    var a := s.attempts[i];
    var ev := s.seen[a.group][0].eventId;
    var l := Finish(i, true, error, now);
    StepQueues(s, l);
    StepWindows(s, l);
    FinishAttaches(s, i, error, now);
    var t := Step(s, l);
    FinishIsStep(s, i, true, error, now);
    hide Attaches, OnFinish, Held;
    RunHolds(t, more, a.rumorId, ev, a.group);
    EchoTakes(Run(t, more), a.rumorId, ev, a.group);
  }

  lemma FinishIsStep(s: State, i: nat, ok: bool, error: string, now: int)
    requires i < |s.attempts| && s.attempts[i].phase.Sending?
    ensures Step(s, Finish(i, ok, error, now)) == OnFinish(s, i, ok, error, now)
  {
    hide OnFinish;
  }

  /** The echo takes the edit `id` out of the registry, and does nothing else. */
  predicate Taken(u: State, id: string, ev: string, g: string) {
    var es := u.bridge.entries;
    exists k :: 0 <= k < |es| && es[k].rumorId == id &&
                Step(u, Echo(ev, g)) == u.(bridge := u.bridge.(entries := es[..k] + es[k + 1..]))
  }

  lemma EchoTakes(u: State, id: string, ev: string, g: string)
    requires Held(u.bridge, id, ev, g) && forall x :: x in u.bridge.entries && Carries(x, ev, g) ==> x.rumorId == id
    ensures Taken(u, id, ev, g)
  {
    hide EchoReconciled, Find;
    var es := u.bridge.entries;
    var e :| e in es && e.rumorId == id && Carries(e, ev, g);
    var k :| 0 <= k < |es| && es[k] == e;
    forall j | 0 <= j < k ensures !Carries(es[j], ev, g) { assert es[j] in es; }
    EchoTakesTheFirst(u.bridge, ev, g, k);
  }

  /** An attributed edit whose later attempt fails is reconciled by the echo as well. */
  lemma FailedEditIsReconciled(ls: seq<Label>, i: nat, error: string, now: int, e: Entry)
    requires var s := Run(INITIAL, ls);
             i < |s.attempts| && s.attempts[i].phase.Sending? && e in s.bridge.entries && e.rumorId == s.attempts[i].rumorId &&
             e.sentEventId.Some? && !e.status.Reconciled? &&
             forall x :: x in Step(s, Finish(i, false, error, now)).bridge.entries && Carries(x, e.sentEventId.value, e.groupId) ==>
               x.rumorId == e.rumorId
    ensures var t := Step(Run(INITIAL, ls), Finish(i, false, error, now));
            Taken(t, e.rumorId, e.sentEventId.value, e.groupId) &&
            forall x :: x in t.bridge.entries && x.rumorId == e.rumorId ==> x.status.Failed?
  {
    InitialHolds();
    RunKeeps(INITIAL, ls);
    hide Queued, Unstarted, Run, Step, Find;
    var s := Run(INITIAL, ls);
    FinishIsStep(s, i, false, error, now);
    var ev := e.sentEventId.value;
    assert Held(s.bridge, e.rumorId, ev, e.groupId);
    FinishHolds(s, i, false, error, now, e.rumorId, ev, e.groupId);
    FailedIsFailed(s, i, error, now);
    FinishUnique(s, i, false, error, now);
    hide Windowed, OnFinish, UniqueRumors, Held, Taken;
    var t := Step(s, Finish(i, false, error, now));
    EchoTakes(t, e.rumorId, ev, e.groupId);
  }

  lemma FailedIsFailed(s: State, i: nat, error: string, now: int)
    requires Windowed(s) && i < |s.attempts| && s.attempts[i].phase.Sending? && UniqueRumors(s.bridge.entries)
    ensures forall x :: x in OnFinish(s, i, false, error, now).bridge.entries && x.rumorId == s.attempts[i].rumorId ==> x.status.Failed?
  {
    var a := s.attempts[i];
    FinishBridge(s, i, false, error, now);
    var f := Find(s.bridge.entries, a.rumorId);
    if f.Some? { PutKeeps(s.bridge.entries, f.value.(status := Failed, lastAttemptAt := Some(now), lastError := Some(error))); }
    hide Put, UniqueRumors;
  }

  /** An echo of an event that no live entry of the group carries changes nothing,
      and any other echo changes something. */
  lemma OtherEchoesAreIdle(ls: seq<Label>, ev: string, g: string)
    ensures var s := Run(INITIAL, ls);
            Step(s, Echo(ev, g)) == s <==> forall e :: e in s.bridge.entries ==> !Carries(e, ev, g)
  {
    InitialHolds();
    RunKeeps(INITIAL, ls);
    hide Run, Queued, Windowed, Unstarted, UniqueRumors, EchoReconciled;
    EchoIsIdleExactly(Run(INITIAL, ls).bridge, ev, g);
  }

  // ------------------------------------------------ windows that overlap

  function BegunAll(b: Bridge, tag: string, ids: seq<string>): (r: Bridge)
    decreases |ids|
  {
    if |ids| == 0 then b else Begun(BegunAll(b, tag, ids[..|ids| - 1]), tag, ids[|ids| - 1])
  }

  function EndedTimes(b: Bridge, tag: string, n: nat, now: int): (r: Bridge)
    decreases n
  {
    if n == 0 then b else EndedTimes(Ended(b, tag, now), tag, n - 1, now)
  }

  /** The window of the group is open `n` times over, and expects `ids`. */
  predicate OpenTimes(b: Bridge, tag: string, n: nat, w: Window, ids: seq<string>) {
    n > 0 && tag in b.inFlight && b.inFlight[tag] == n && tag in b.windows && b.windows[tag] == w && tag in b.expected &&
    b.expected[tag] == ids
  }

  lemma {:induction false} BeginsNest(b: Bridge, tag: string, ids: seq<string>)
    requires tag !in b.inFlight && tag !in b.windows && tag !in b.expected && |ids| > 0
    ensures OpenTimes(BegunAll(b, tag, ids), tag, |ids|, Window(0, None), ids) && BegunAll(b, tag, ids).entries == b.entries
    decreases |ids|
  {
    var n := |ids| - 1;
    assert ids[..n] + [ids[n]] == ids;
    if n > 0 { BeginsNest(b, tag, ids[..n]); } else { assert BegunAll(b, tag, ids[..0]) == b; }
  }

  lemma {:induction false} EndsNest(b: Bridge, tag: string, n: nat, w: Window, ids: seq<string>, now: int)
    requires OpenTimes(b, tag, n, w, ids)
    ensures OpenTimes(EndedTimes(b, tag, n - 1, now), tag, 1, w, ids) && EndedTimes(b, tag, n - 1, now).entries == b.entries
    decreases n
  {
    if n > 1 { EndsNest(Ended(b, tag, now), tag, n - 1, w, ids, now); }
  }

  /** The bridge does not rely on the lock: however many sends of a group overlap, a
      sole event is attributed when the last of them ends, to the first that began,
      and the others are still expected in their order. */
  lemma SoleEventGoesToTheFirst(b: Bridge, tag: string, ids: seq<string>, ev: string, now: int)
    requires tag !in b.inFlight && tag !in b.windows && tag !in b.expected && |ids| > 0 && ids[0] != ""
    ensures var r := EndedTimes(Observed(BegunAll(b, tag, ids), tag, ev), tag, |ids| - 1, now);
            r.entries == b.entries && LastEnds(r, Ended(r, tag, now), tag, ids, ev, now)
  {
    BeginsNest(b, tag, ids);
    hide BegunAll, EndedTimes, LastEnds;
    var seen := Observed(BegunAll(b, tag, ids), tag, ev);
    EndsNest(seen, tag, |ids|, Window(1, Some(ev)), ids, now);
    FirstIsAttributed(EndedTimes(seen, tag, |ids| - 1, now), tag, ids, ev, now);
  }

  predicate LastEnds(b: Bridge, r: Bridge, tag: string, ids: seq<string>, ev: string, now: int)
    requires |ids| > 0
  {
    r.entries == MarkedSent(b, ids[0], ev, now).entries &&
    if |ids| == 1 then tag !in r.expected else tag in r.expected && r.expected[tag] == ids[1..]
  }

  lemma FirstIsAttributed(b: Bridge, tag: string, ids: seq<string>, ev: string, now: int)
    requires |ids| > 0 && ids[0] != "" && OpenTimes(b, tag, 1, Window(1, Some(ev)), ids)
    ensures LastEnds(b, Ended(b, tag, now), tag, ids, ev, now)
  {
    hide Put, Find;
  }

  /** A failed send gives up one expectation, the first of its own rumor, if it has any. */
  lemma {:induction false} DropsTheFirst(q: seq<string>, id: string, k: nat)
    requires k <= |q| && (forall j :: 0 <= j < k ==> q[j] != id) && (k < |q| ==> q[k] == id)
    ensures Dropped(q, id) == if k < |q| then q[..k] + q[k + 1..] else q
  {
    if k > 0 {
      DropsTheFirst(q[1..], id, k - 1);
      if k < |q| { assert q[..k] + q[k + 1..] == [q[0]] + (q[1..][..k - 1] + q[1..][k..]); } else { assert q == [q[0]] + q[1..]; }
    }
  }

  // ------------------------------------------------ attempts are counted

  function AttemptsOf(b: Bridge, id: string): (r: Option<nat>) {
    match Find(b.entries, id)
    case Some(e) => Some(e.attempts)
    case None => None
  }

  function OneTurn(s: State, l: Label, id: string): (r: nat) {
    if l.Begin? && IsTurn(s, l.i) && s.attempts[l.i].rumorId == id then 1 else 0
  }

  /** The sends of `id` that have got their turn. */
  function Turns(s: State, ls: seq<Label>, id: string): (r: nat)
    decreases ls
  {
    if |ls| == 0 then 0 else OneTurn(s, ls[0], id) + Turns(Step(s, ls[0]), ls[1..], id)
  }

  /** The edit is neither registered anew nor dropped. */
  predicate Tracked(s: State, ls: seq<Label>, id: string)
    decreases ls
  {
    |ls| > 0 ==>
      !(ls[0].Register? && ls[0].entry.rumorId == id) && Tracks(Step(s, ls[0]).bridge.entries, id) && Tracked(Step(s, ls[0]), ls[1..], id)
  }

  lemma PutFinds(es: seq<Entry>, e: Entry, id: string)
    ensures Find(Put(es, e), id) == if e.rumorId == id then Some(e) else Find(es, id)
  {
    PutIsFound(es, e);
    if e.rumorId != id {
      var r := Put(es, e);
      var k := IndexOf(es, id);
      assert forall i :: 0 <= i < k ==> r[i].rumorId != id;
      if k < |es| { assert r[k] == es[k]; } else { assert forall i :: 0 <= i < |r| ==> r[i].rumorId != id; }
    }
  }

  lemma FewerFind(es: seq<Entry>, r: seq<Entry>, id: string)
    requires UniqueRumors(es) && Tracks(r, id) && forall x :: x in r ==> x in es
    ensures Find(r, id) == Find(es, id)
  {
    var x := Find(r, id).value;
    var k :| 0 <= k < |es| && es[k] == x;
    assert Tracks(es, id);
    OnlyOne(es, x, Find(es, id).value);
  }

  lemma MarksCount(b: Bridge, to: string, ev: string, error: string, now: int, id: string)
    ensures AttemptsOf(MarkedSent(b, to, ev, now), id) == AttemptsOf(b, id)
    ensures AttemptsOf(SentFallback(b, to, now), id) == AttemptsOf(b, id)
    ensures AttemptsOf(MarkedFailed(b, to, error, now), id) == AttemptsOf(b, id)
    ensures AttemptsOf(b, id).Some? ==>
            AttemptsOf(AttemptStarted(b, to, now), id) == Some(AttemptsOf(b, id).value + if to == id then 1 else 0)
  {
    var f := Find(b.entries, to);
    hide Put, Find;
    if f.Some? {
      var e := f.value;
      PutFinds(b.entries, e.(status := Sent, sentEventId := Some(ev), lastAttemptAt := Some(now)), id);
      PutFinds(b.entries, e.(status := Sent, lastAttemptAt := Some(now)), id);
      PutFinds(b.entries, e.(status := Failed, lastAttemptAt := Some(now), lastError := Some(error)), id);
      PutFinds(b.entries, e.(status := Pending, attempts := e.attempts + 1, lastAttemptAt := Some(now), lastError := None), id);
    }
  }

  lemma FinishCounts(s: State, i: nat, ok: bool, error: string, now: int, id: string)
    requires Windowed(s) && i < |s.attempts| && s.attempts[i].phase.Sending?
    ensures AttemptsOf(OnFinish(s, i, ok, error, now).bridge, id) == AttemptsOf(s.bridge, id)
  {
    var a := s.attempts[i];
    OpenOf(s, i);
    FinishBridge(s, i, ok, error, now);
    var b0 := Shut(s.bridge, a.group);
    var ev := if |s.seen[a.group]| == 1 then s.seen[a.group][0].eventId else "";
    assert AttemptsOf(b0, id) == AttemptsOf(s.bridge, id);
    hide Windowed, MarkedSent, SentFallback, MarkedFailed, OnFinish, Find, AttemptsOf;
    MarksCount(b0, a.rumorId, ev, error, now, id);
    MarksCount(MarkedSent(b0, a.rumorId, ev, now), a.rumorId, ev, error, now, id);
  }

  lemma RegisterCounts(b: Bridge, e: Entry, id: string)
    requires UniqueRumors(b.entries) && Tracks(Registered(b, e).entries, id)
    ensures Find(Registered(b, e).entries, id) == if e.rumorId == id then Some(e) else Find(b.entries, id)
  {
    var es := Put(b.entries, e);
    PutKeeps(b.entries, e);
    PutFinds(b.entries, e, id);
    CapKeepsNewest(es, e.groupId, e.groupId);
    hide Put, Capped, UniqueRumors, Find;
    FewerFind(es, Capped(es, e.groupId), id);
  }

  lemma EchoCounts(b: Bridge, ev: string, g: string, id: string)
    requires UniqueRumors(b.entries) && Tracks(EchoReconciled(b, ev, g).entries, id)
    ensures Find(EchoReconciled(b, ev, g).entries, id) == Find(b.entries, id)
  {
    hide UniqueRumors, Find;
    FewerFind(b.entries, EchoReconciled(b, ev, g).entries, id);
  }

  lemma StepCounts(s: State, l: Label, id: string)
    requires Windowed(s) && UniqueRumors(s.bridge.entries) && AttemptsOf(s.bridge, id).Some?
    requires !(l.Register? && l.entry.rumorId == id) && Tracks(Step(s, l).bridge.entries, id)
    ensures AttemptsOf(Step(s, l).bridge, id) == Some(AttemptsOf(s.bridge, id).value + OneTurn(s, l, id))
  {
    hide Windowed, UniqueRumors, Find, AttemptStarted, Registered, EchoReconciled, OnFinish;
    match l
    case Register(e) => RegisterCounts(s.bridge, e, id);
    case Begin(i, now) => if IsTurn(s, i) { BeginCounts(s, i, now, id); }
    case Finish(i, ok, error, now) => if i < |s.attempts| && s.attempts[i].phase.Sending? { FinishCounts(s, i, ok, error, now, id); }
    case Echo(ev, g) => EchoCounts(s.bridge, ev, g, id);
    case _ =>
  }

  lemma BeginCounts(s: State, i: nat, now: int, id: string)
    requires i < |s.attempts| && AttemptsOf(s.bridge, id).Some?
    ensures AttemptsOf(OnBegin(s, i, now).bridge, id) ==
            Some(AttemptsOf(s.bridge, id).value + if s.attempts[i].rumorId == id then 1 else 0)
  {
    hide Find, AttemptStarted;
    MarksCount(s.bridge, s.attempts[i].rumorId, "", "", now, id);
  }

  /** Over any interleaving, a tracked edit's attempts are the turns its sends have had. */
  lemma {:induction false} RunCounts(s: State, ls: seq<Label>, id: string)
    requires Queued(s) && Windowed(s) && Unstarted(s) && UniqueRumors(s.bridge.entries) && AttemptsOf(s.bridge, id).Some?
    requires Tracked(s, ls, id)
    ensures AttemptsOf(Run(s, ls).bridge, id) == Some(AttemptsOf(s.bridge, id).value + Turns(s, ls, id))
    decreases ls
  {
    hide Queued, Windowed, Unstarted, UniqueRumors, AttemptsOf, Step, OneTurn;
    if |ls| > 0 {
      StepQueues(s, ls[0]);
      StepWindows(s, ls[0]);
      StepUnique(s, ls[0]);
      StepCounts(s, ls[0], id);
      RunCounts(Step(s, ls[0]), ls[1..], id);
    }
  }

  lemma AttemptsAreCounted(ls: seq<Label>, e: Entry, more: seq<Label>)
    requires Tracks(Step(Run(INITIAL, ls), Register(e)).bridge.entries, e.rumorId)
    requires Tracked(Step(Run(INITIAL, ls), Register(e)), more, e.rumorId)
    ensures var s := Step(Run(INITIAL, ls), Register(e));
            var f := Find(Run(s, more).bridge.entries, e.rumorId);
            f.Some? && f.value.attempts == e.attempts + Turns(s, more, e.rumorId)
  {
    InitialHolds();
    RunKeeps(INITIAL, ls);
    var s0 := Run(INITIAL, ls);
    var s := Step(s0, Register(e));
    PutKeeps(s0.bridge.entries, e);
    PutFinds(s0.bridge.entries, e, e.rumorId);
    CapKeepsNewest(Put(s0.bridge.entries, e), e.groupId, e.groupId);
    FewerFind(Put(s0.bridge.entries, e), s.bridge.entries, e.rumorId);
    hide Queued, Windowed, Unstarted, UniqueRumors, Run, Step, Find;
    StepQueues(s0, Register(e));
    StepWindows(s0, Register(e));
    StepUnique(s0, Register(e));
    RunCounts(s, more, e.rumorId);
  }

  /** How an attempt ends is what its entry then says. */
  lemma EndIsTold(ls: seq<Label>, i: nat, ok: bool, error: string, now: int, e: Entry)
    requires var s := Run(INITIAL, ls);
             i < |s.attempts| && s.attempts[i].phase.Sending? && Find(s.bridge.entries, s.attempts[i].rumorId) == Some(e) && e.status.Pending?
    ensures Told(Find(Step(Run(INITIAL, ls), Finish(i, ok, error, now)).bridge.entries, e.rumorId), e, ok, error, now)
  {
    InitialHolds();
    RunKeeps(INITIAL, ls);
    hide Run, Queued, Unstarted, UniqueRumors, Windowed, Find, OnFinish, Told;
    FinishIsStep(Run(INITIAL, ls), i, ok, error, now);
    FinishTells(Run(INITIAL, ls), i, ok, error, now, e);
  }

  predicate Told(f: Option<Entry>, e: Entry, ok: bool, error: string, now: int) {
    f.Some? && f.value.lastAttemptAt == Some(now) && f.value.attempts == e.attempts && f.value.groupId == e.groupId &&
    if ok then f.value.status.Sent? && f.value.lastError == e.lastError else f.value.status.Failed? && f.value.lastError == Some(error)
  }

  lemma FinishTells(s: State, i: nat, ok: bool, error: string, now: int, e: Entry)
    requires Windowed(s) && i < |s.attempts| && s.attempts[i].phase.Sending?
    requires Find(s.bridge.entries, s.attempts[i].rumorId) == Some(e) && e.status.Pending?
    ensures Told(Find(OnFinish(s, i, ok, error, now).bridge.entries, e.rumorId), e, ok, error, now)
  {
    var a := s.attempts[i];
    OpenOf(s, i);
    FinishBridge(s, i, ok, error, now);
    hide Windowed, OnFinish, Find, MarkedSent, SentFallback, MarkedFailed;
    MarksTell(Shut(s.bridge, a.group), e, if |s.seen[a.group]| == 1 then s.seen[a.group][0].eventId else "", error, now);
  }

  lemma MarksTell(b: Bridge, e: Entry, ev: string, error: string, now: int)
    requires Find(b.entries, e.rumorId) == Some(e) && e.status.Pending?
    ensures Told(Find(SentFallback(MarkedSent(b, e.rumorId, ev, now), e.rumorId, now).entries, e.rumorId), e, true, error, now)
    ensures Told(Find(SentFallback(b, e.rumorId, now).entries, e.rumorId), e, true, error, now)
    ensures Told(Find(MarkedFailed(b, e.rumorId, error, now).entries, e.rumorId), e, false, error, now)
  {
    hide Put, Find;
    var sent := e.(status := Sent, lastAttemptAt := Some(now));
    PutFinds(b.entries, sent, e.rumorId);
    PutFinds(b.entries, sent.(sentEventId := Some(ev)), e.rumorId);
    PutFinds(b.entries, e.(status := Failed, lastAttemptAt := Some(now), lastError := Some(error)), e.rumorId);
  }

  // ------------------------------------------------ nobody waits for nothing

  /** The lock is never stuck: who waits while every earlier attempt of its group has
      been released has its turn, and its turn starts its send. */
  lemma NextHasItsTurn(ls: seq<Label>, i: nat, now: int)
    requires var s := Run(INITIAL, ls);
             i < |s.attempts| && s.attempts[i].phase.Waiting? &&
             forall j :: 0 <= j < i && SameGroup(s, j, i) ==> s.attempts[j].phase.Released?
    ensures var s := Run(INITIAL, ls);
            IsTurn(s, i) && Step(s, Begin(i, now)).attempts == s.attempts[i := s.attempts[i].(phase := Sending)]
  {
    InitialHolds();
    RunKeeps(INITIAL, ls);
    hide Run, Begun, AttemptStarted, Windowed, Unstarted;
  }
}
