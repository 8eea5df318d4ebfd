/** What the cutover gets done: a start whose calls all succeed handles everything
    it is given and goes live, and a local edit whose append lands is announced. */

module CutoverProgress {
  import opened Wrappers
  import opened EngineTypes
  import opened CutoverProtocol

  lemma RunOne(s: State, l: Label)
    ensures Run(s, [l]) == Step(s, l)
  {
    hide Step;
    assert [l][1..] == [];
  }

  /** Continuation `i` of the current generation stands at `pc`, and the queue is idle. */
  predicate Stands(s: State, i: nat, pc: Pc) {
    i < |s.threads| && s.threads[i].gen == s.generation && s.threads[i].pc == pc && s.chain == Chain([], None)
  }

  function OriginOf(d: Drain): (r: Origin) {
    match d
    case FetchDrain => Bootstrap
    case ReplayDrain => Replayed
    case HistoryDrain => Origin.Historical
    case BufferDrain => Pushed
  }

  // ------------------------------------------------ one signal of a drain

  const HANDLED: seq<Label> := [JobStart, JobEnd]

  lemma JobRuns(s: State, job: Job)
    requires s.chain == Chain([job], None) && !job.origin.Local? && job.gen == s.generation
    ensures Run(s, HANDLED) == s.(chain := Chain([], None), finished := s.finished + {job.id}, seen := Handled(s.seen, job))
  {
    hide Handled;
    var s1 := Step(s, JobStart);
    assert [job][1..] == [];
    assert s1 == s.(chain := Chain([], Some(Running(job, false, Idle))));
    var s2 := Step(s1, JobEnd);
    assert s1.edits + [] == s.edits;
    assert s2 == s.(chain := Chain([], None), finished := s.finished + {job.id}, seen := Handled(s.seen, job));
    assert HANDLED == [JobStart] + [JobEnd];
    hide Step;
    RunSplit(s, [JobStart], [JobEnd]);
    RunOne(s, JobStart);
    RunOne(s1, JobEnd);
  }

  function Offered(i: nat, x: Signal): (r: seq<Label>) {
    [Resume(i, Next(x))] + HANDLED + [Resume(i, Ready)]
  }

  /** What a drain's signal leaves in the record. */
  function Taken(seen: Seen, d: Drain, x: Signal): (r: Seen) {
    seen.(yielded := if d.FetchDrain? then seen.yielded + [x] else seen.yielded, order := seen.order + [OriginOf(d)],
          handledBootstrap := if d.FetchDrain? then seen.handledBootstrap + [x] else seen.handledBootstrap)
  }

  lemma OneIsOffered(s: State, i: nat, d: Drain, x: Signal)
    requires Stands(s, i, Draining(d)) && !d.BufferDrain?
    ensures Step(s, Resume(i, Next(x))) ==
            s.(chain := Chain([Job(s.nextJob, s.generation, OriginOf(d), x)], None), nextJob := s.nextJob + 1,
               seen := s.seen.(yielded := if d.FetchDrain? then s.seen.yielded + [x] else s.seen.yielded),
               threads := s.threads[i := s.threads[i].(pc := AwaitingJob(d, s.nextJob))])
  {
    var job := Job(s.nextJob, s.generation, OriginOf(d), x);
    assert [] + [job] == [job];
  }

  lemma DrainGoesOn(s: State, i: nat, d: Drain, id: nat)
    requires i < |s.threads| && s.threads[i].gen == s.generation && s.threads[i].pc == AwaitingJob(d, id) && id in s.finished
    requires !d.BufferDrain?
    ensures Step(s, Resume(i, Ready)) == s.(threads := s.threads[i := s.threads[i].(pc := Draining(d))])
  {
  }

  lemma HandledIsTaken(seen: Seen, d: Drain, x: Signal, job: Job)
    requires job.origin == OriginOf(d) && job.signal == x && !d.BufferDrain?
    ensures Handled(seen.(yielded := if d.FetchDrain? then seen.yielded + [x] else seen.yielded), job) == Taken(seen, d, x)
  {
  }

  lemma OneIsTaken(s: State, i: nat, d: Drain, x: Signal)
    requires Stands(s, i, Draining(d)) && !d.BufferDrain?
    ensures Run(s, Offered(i, x)) == s.(nextJob := s.nextJob + 1, finished := s.finished + {s.nextJob}, seen := Taken(s.seen, d, x))
  {
    var job := Job(s.nextJob, s.generation, OriginOf(d), x);
    var s1 := Step(s, Resume(i, Next(x)));
    OneIsOffered(s, i, d, x);
    JobRuns(s1, job);
    HandledIsTaken(s.seen, d, x, job);
    hide Step, Run, Handled, Taken;
    var s2 := Run(s1, HANDLED);
    DrainGoesOn(s2, i, d, s.nextJob);
    assert s2.threads[i := s2.threads[i].(pc := Draining(d))] == s.threads;
    RunSplit(s, [Resume(i, Next(x))] + HANDLED, [Resume(i, Ready)]);
    RunSplit(s, [Resume(i, Next(x))], HANDLED);
    RunOne(s, Resume(i, Next(x)));
    RunOne(s2, Resume(i, Ready));
  }

  function AllOffered(i: nat, xs: seq<Signal>): (r: seq<Label>) {
    if |xs| == 0 then [] else Offered(i, xs[0]) + AllOffered(i, xs[1..])
  }

  function Times(o: Origin, n: nat): (r: seq<Origin>)
    ensures |r| == n
  {
    seq(n, k => o)
  }

  lemma OneMoreHandled(order: seq<Origin>, o: Origin, n: nat)
    requires n > 0
    ensures order + [o] + Times(o, n - 1) == order + Times(o, n)
  {
    assert [o] + Times(o, n - 1) == Times(o, n);
    ConcatAssociates(order, [o], Times(o, n - 1));
  }

  lemma HeadFirst(before: seq<Signal>, xs: seq<Signal>)
    requires |xs| > 0
    ensures before + [xs[0]] + xs[1..] == before + xs
  {
    assert [xs[0]] + xs[1..] == xs;
    ConcatAssociates(before, [xs[0]], xs[1..]);
  }

  /** After a drain has handled `xs`, beside the queue's numbering. */
  predicate Drained(s: State, t: State, d: Drain, xs: seq<Signal>) {
    t == s.(nextJob := t.nextJob, finished := t.finished, seen := t.seen) &&
    t.seen == s.seen.(yielded := if d.FetchDrain? then s.seen.yielded + xs else s.seen.yielded,
                      order := s.seen.order + Times(OriginOf(d), |xs|),
                      handledBootstrap := if d.FetchDrain? then s.seen.handledBootstrap + xs else s.seen.handledBootstrap)
  }

  /** A drain handles all it is offered, in order. */
  lemma {:induction false} DrainTakesAll(s: State, i: nat, d: Drain, xs: seq<Signal>)
    requires Stands(s, i, Draining(d)) && !d.BufferDrain?
    ensures Drained(s, Run(s, AllOffered(i, xs)), d, xs)
    decreases xs
  {
    if |xs| == 0 {
      assert s.seen.order + Times(OriginOf(d), 0) == s.seen.order;
      assert s.seen.yielded + xs == s.seen.yielded && s.seen.handledBootstrap + xs == s.seen.handledBootstrap;
    } else {
      OneIsTaken(s, i, d, xs[0]);
      hide Run, Offered;
      var s1 := Run(s, Offered(i, xs[0]));
      DrainTakesAll(s1, i, d, xs[1..]);
      RunSplit(s, Offered(i, xs[0]), AllOffered(i, xs[1..]));
      OneMoreHandled(s.seen.order, OriginOf(d), |xs|);
      HeadFirst(s.seen.yielded, xs);
      HeadFirst(s.seen.handledBootstrap, xs);
    }
  }

  // ------------------------------------------------ live input and its buffer

  function AllArrive(g: nat, zs: seq<Signal>): (r: seq<Label>) {
    if |zs| == 0 then [] else [Arrive(g, zs[0])] + AllArrive(g, zs[1..])
  }

  /** What arrives before live is buffered in order. */
  lemma {:induction false} ArrivalsAreBuffered(s: State, zs: seq<Signal>)
    requires s.lifecycle.CatchingUp? && s.generation in s.subscriptions
    ensures Run(s, AllArrive(s.generation, zs)) ==
            s.(liveBuffer := s.liveBuffer + zs, seen := s.seen.(arrived := s.seen.arrived + zs))
    decreases zs
  {
    if |zs| == 0 {
      assert s.liveBuffer + zs == s.liveBuffer && s.seen.arrived + zs == s.seen.arrived;
    } else {
      var l := Arrive(s.generation, zs[0]);
      var s1 := Step(s, l);
      assert s1 == s.(liveBuffer := s.liveBuffer + [zs[0]], seen := s.seen.(arrived := s.seen.arrived + [zs[0]]));
      hide Step, Run;
      ArrivalsAreBuffered(s1, zs[1..]);
      RunSplit(s, [l], AllArrive(s.generation, zs[1..]));
      RunOne(s, l);
      HeadFirst(s.liveBuffer, zs);
      HeadFirst(s.seen.arrived, zs);
    }
  }

  function BufferTurns(i: nat, n: nat): (r: seq<Label>) {
    if n == 0 then [] else (HANDLED + [Resume(i, Ready)]) + BufferTurns(i, n - 1)
  }

  /** One turn of the buffer loop. */
  function Turned(s: State, i: nat): (r: State)
    requires i < |s.threads| && |s.liveBuffer| > 0
  {
    s.(liveBuffer := s.liveBuffer[1..], nextJob := s.nextJob + 1, finished := s.finished + {s.nextJob},
       threads := s.threads[i := s.threads[i].(pc := AwaitingJob(BufferDrain, s.nextJob))],
       seen := s.seen.(order := s.seen.order + [Pushed], handledLive := s.seen.handledLive + [s.liveBuffer[0]]))
  }

  lemma BufferTurn(s: State, i: nat)
    requires i < |s.threads| && s.threads[i].gen == s.generation && s.chain == Chain([], None) && |s.liveBuffer| > 0
    ensures Run(DrainBuffer(s, i), HANDLED + [Resume(i, Ready)]) == DrainBuffer(Turned(s, i), i)
  {
    var u := DrainBuffer(s, i);
    var job := Job(s.nextJob, s.generation, Pushed, s.liveBuffer[0]);
    assert [] + [job] == [job];
    assert u.chain == Chain([job], None);
    JobRuns(u, job);
    var v := Run(u, HANDLED);
    hide Run, DrainBuffer;
    assert Step(v, Resume(i, Ready)) == DrainBuffer(v, i);
    hide Step;
    RunSplit(u, HANDLED, [Resume(i, Ready)]);
    RunOne(v, Resume(i, Ready));
  }

  /** The whole buffer has been handled, in order. */
  function Emptied(s: State, nextJob: nat, finished: set<nat>): (r: State) {
    s.(liveBuffer := [], nextJob := nextJob, finished := finished,
       seen := s.seen.(order := s.seen.order + Times(Pushed, |s.liveBuffer|), handledLive := s.seen.handledLive + s.liveBuffer))
  }

  lemma TurnedThenEmptied(s: State, i: nat, n: nat, f: set<nat>)
    requires i < |s.threads| && |s.liveBuffer| > 0
    ensures Emptied(Turned(s, i), n, f) ==
            Emptied(s, n, f).(threads := s.threads[i := s.threads[i].(pc := AwaitingJob(BufferDrain, s.nextJob))])
  {
    OneMoreHandled(s.seen.order, Pushed, |s.liveBuffer|);
    HeadFirst(s.seen.handledLive, s.liveBuffer);
  }

  /** The loop handles the buffer in order and then goes live. */
  lemma {:induction false} BufferDrains(s: State, i: nat)
    requires i < |s.threads| && s.threads[i].gen == s.generation && s.chain == Chain([], None)
    ensures var t := Run(DrainBuffer(s, i), BufferTurns(i, |s.liveBuffer|));
            t == EnterLive(Emptied(s, t.nextJob, t.finished), i)
    decreases |s.liveBuffer|
  {
    var n := |s.liveBuffer|;
    if n == 0 {
      assert Emptied(s, s.nextJob, s.finished) == s by {
        assert s.seen.order + Times(Pushed, 0) == s.seen.order && s.seen.handledLive + s.liveBuffer == s.seen.handledLive;
      }
      hide Emptied;
    } else {
      BufferTurn(s, i);
      TurnedFacts(s, i);
      hide Run, DrainBuffer, EnterLive, Emptied, Turned;
      var s1 := Turned(s, i);
      BufferDrains(s1, i);
      RunSplit(DrainBuffer(s, i), HANDLED + [Resume(i, Ready)], BufferTurns(i, n - 1));
      var t := Run(DrainBuffer(s, i), BufferTurns(i, n));
      TurnedThenEmptied(s, i, t.nextJob, t.finished);
      EmptiedThreads(s, t.nextJob, t.finished);
      SameLive(Emptied(s, t.nextJob, t.finished), i, AwaitingJob(BufferDrain, s.nextJob));
    }
  }

  lemma TurnedFacts(s: State, i: nat)
    requires i < |s.threads| && |s.liveBuffer| > 0
    ensures var t := Turned(s, i);
            |t.threads| == |s.threads| && t.threads[i].gen == s.threads[i].gen && t.generation == s.generation && t.chain == s.chain &&
            |t.liveBuffer| == |s.liveBuffer| - 1
  {
  }

  lemma EmptiedThreads(s: State, n: nat, f: set<nat>)
    ensures var r := Emptied(s, n, f);
            r.threads == s.threads && r.generation == s.generation
  {
  }

  /** Where the continuation stood does not matter once it enters live. */
  lemma SameLive(s: State, i: nat, pc: Pc)
    requires i < |s.threads|
    ensures EnterLive(s.(threads := s.threads[i := s.threads[i].(pc := pc)]), i) == EnterLive(s, i) || Stale(s, i)
  {
    if !Stale(s, i) {
      var u := s.threads[i := s.threads[i].(pc := pc)];
      assert u[i := u[i].(pc := LiveSave)] == s.threads[i := s.threads[i].(pc := LiveSave)];
    }
  }

  // ------------------------------------------------ whole starts

  /** How far a first start has got: its continuations are `ts` but for `i`, which
      stands at `pc`; `complete`: the bootstrap is. */
  datatype Station = Station(ts: seq<Thread>, i: nat, phase: Lifecycle, pc: Pc, fired: bool, subscribed: bool, complete: bool,
                             buffer: seq<Signal>, seen: Seen)

  predicate Reached(s: State, a: Station) {
    a.i < |a.ts| && a.ts[a.i].gen == 1 && s.threads == a.ts[a.i := a.ts[a.i].(pc := a.pc)] && s.generation == 1 &&
    s.chain == Chain([], None) && s.lifecycle == a.phase && s.timerFired == a.fired && s.bootstrapCompleted == a.complete &&
    s.catchUps == (if a.subscribed then 1 else 0) && s.subscriptions == (if a.subscribed then {1} else {}) &&
    s.liveBuffer == a.buffer && s.seen == a.seen
  }

  lemma ReachedStands(s: State, a: Station)
    requires Reached(s, a)
    ensures Stands(s, a.i, a.pc)
  {
  }

  function Fed(a: Station, d: Drain, xs: seq<Signal>): (r: Station) {
    a.(seen := a.seen.(yielded := if d.FetchDrain? then a.seen.yielded + xs else a.seen.yielded,
                       order := a.seen.order + Times(OriginOf(d), |xs|),
                       handledBootstrap := if d.FetchDrain? then a.seen.handledBootstrap + xs else a.seen.handledBootstrap))
  }

  lemma DrainReaches(s: State, a: Station, d: Drain, xs: seq<Signal>)
    requires Reached(s, a) && a.pc == Draining(d) && !d.BufferDrain?
    ensures Reached(Run(s, AllOffered(a.i, xs)), Fed(a, d, xs))
  {
    ReachedStands(s, a);
    DrainTakesAll(s, a.i, d, xs);
    hide Run;
  }

  // From catching_up to live, whoever has entered it.

  function HistoryPart(i: nat, zs: seq<Signal>, ys: seq<Signal>): (r: seq<Label>) {
    [Resume(i, Ready)] + AllArrive(1, zs) + AllOffered(i, ys) + [Resume(i, Ended)]
  }

  function LivePart(i: nat, n: nat): (r: seq<Label>) {
    [Resume(i, Ready)] + BufferTurns(i, n) + [Resume(i, Unneeded)]
  }

  /** The station after the history `ys`, while `zs` arrived. */
  function Buffering(a: Station, zs: seq<Signal>, ys: seq<Signal>): (r: Station) {
    a.(phase := BufferingLive, pc := BufferSave, subscribed := true, buffer := zs,
       seen := a.seen.(drains := a.seen.drains + 1, arrived := zs, order := a.seen.order + Times(Origin.Historical, |ys|)))
  }

  lemma Opens(s: State, a: Station)
    requires Reached(s, a) && a.phase.CatchingUp? && a.pc.CatchSave? && !a.subscribed && a.buffer == []
    ensures Reached(Step(s, Resume(a.i, Ready)),
                    a.(pc := Draining(HistoryDrain), subscribed := true, seen := a.seen.(drains := a.seen.drains + 1)))
  {
    assert {} + {s.threads[a.i].gen} == {1};
    hide Throw;
  }

  lemma ArrivalsReach(s: State, a: Station, zs: seq<Signal>)
    requires Reached(s, a) && a.phase.CatchingUp? && a.subscribed && a.buffer == [] && a.seen.arrived == []
    ensures Reached(Run(s, AllArrive(1, zs)), a.(buffer := zs, seen := a.seen.(arrived := zs)))
  {
    ArrivalsAreBuffered(s, zs);
    hide Run;
    assert [] + zs == zs;
  }

  lemma HistoryDone(s: State, a: Station)
    requires Reached(s, a) && a.pc == Draining(HistoryDrain)
    ensures Reached(Step(s, Resume(a.i, Ended)), a.(phase := BufferingLive, pc := BufferSave))
  {
  }

  lemma HistoryReaches(s: State, a: Station, zs: seq<Signal>, ys: seq<Signal>)
    requires Reached(s, a) && a.phase.CatchingUp? && a.pc.CatchSave? && !a.subscribed && a.buffer == [] && a.seen.arrived == []
    ensures Reached(Run(s, HistoryPart(a.i, zs, ys)), Buffering(a, zs, ys))
  {
    var open, arrive, feed := [Resume(a.i, Ready)], AllArrive(1, zs), AllOffered(a.i, ys);
    Opens(s, a);
    hide Step, Run, Reached;
    RunSplit(s, open, arrive);
    RunSplit(s, open + arrive, feed);
    RunSplit(s, open + arrive + feed, [Resume(a.i, Ended)]);
    RunOne(s, Resume(a.i, Ready));
    var a1 := a.(pc := Draining(HistoryDrain), subscribed := true, seen := a.seen.(drains := a.seen.drains + 1));
    var s1 := Run(s, open);
    ArrivalsReach(s1, a1, zs);
    var a2 := a1.(buffer := zs, seen := a1.seen.(arrived := zs));
    var s2 := Run(s1, arrive);
    DrainReaches(s2, a2, HistoryDrain, ys);
    var s3 := Run(s2, feed);
    HistoryDone(s3, Fed(a2, HistoryDrain, ys));
    RunOne(s3, Resume(a.i, Ended));
  }

  lemma BufferReaches(s: State, a: Station, n: nat, f: set<nat>)
    requires Reached(s, a) && a.pc.BufferSave?
    ensures a.i < |Emptied(s, n, f).threads| &&
            Reached(EnterLive(Emptied(s, n, f), a.i), InLive(a).(pc := LiveSave))
  {
  }

  lemma LiveEnds(s: State, a: Station)
    requires Reached(s, a) && a.pc.LiveSave?
    ensures Reached(Step(s, Resume(a.i, Unneeded)), a.(pc := Done))
  {
  }

  /** Live, with the buffer handled. */
  function InLive(a: Station): (r: Station) {
    a.(phase := Live, pc := Done, buffer := [],
       seen := a.seen.(order := a.seen.order + Times(Pushed, |a.buffer|), handledLive := a.seen.handledLive + a.buffer))
  }

  lemma BufferBegins(s: State, a: Station)
    requires Reached(s, a) && a.pc.BufferSave?
    ensures a.i < |s.threads| && Step(s, Resume(a.i, Ready)) == DrainBuffer(s, a.i)
  {
    hide DrainBuffer;
  }

  lemma GoesLive(s: State, a: Station)
    requires Reached(s, a) && a.pc.BufferSave?
    ensures Reached(Run(s, LivePart(a.i, |a.buffer|)), InLive(a))
  {
    BufferBegins(s, a);
    var start, turns := [Resume(a.i, Ready)], BufferTurns(a.i, |a.buffer|);
    var u := DrainBuffer(s, a.i);
    RunOne(s, Resume(a.i, Ready));
    BufferDrains(s, a.i);
    hide Step, Run, DrainBuffer, EnterLive, Emptied;
    RunSplit(s, start, turns);
    RunSplit(s, start + turns, [Resume(a.i, Unneeded)]);
    var t := Run(u, turns);
    BufferReaches(s, a, t.nextJob, t.finished);
    hide Reached;
    LiveEnds(t, InLive(a).(pc := LiveSave));
    RunOne(t, Resume(a.i, Unneeded));
  }

  /** From the moment catching_up has been entered: the whole history and all that
      arrives meanwhile is handled, in this order, and the engine is live. */
  lemma CatchesUp(s: State, a: Station, zs: seq<Signal>, ys: seq<Signal>)
    requires Reached(s, a) && a.phase.CatchingUp? && a.pc.CatchSave? && !a.subscribed && a.buffer == [] && a.seen.arrived == []
    ensures Reached(Run(s, HistoryPart(a.i, zs, ys) + LivePart(a.i, |zs|)), InLive(Buffering(a, zs, ys)))
  {
    HistoryReaches(s, a, zs, ys);
    hide Run, Reached, HistoryPart, LivePart;
    GoesLive(Run(s, HistoryPart(a.i, zs, ys)), Buffering(a, zs, ys));
    RunSplit(s, HistoryPart(a.i, zs, ys), LivePart(a.i, |zs|));
  }

  // The three ways into catching_up.

  /** A start's own continuation, and a join's timer beside it. */
  const ALONE := [Thread(1, Done, true)]
  const TIMED := [Thread(1, Draining(FetchDrain), true), Thread(1, JoinTimer, false)]

  const FETCHING := Station(TIMED, 0, Joining, Draining(FetchDrain), false, false, false, [], NOTHING_SEEN)

  function JoinPart(xs: seq<Signal>): (r: seq<Label>) {
    [Start(true), Resume(0, Ready)] + AllOffered(0, xs)
  }

  lemma JoinBegins()
    ensures Reached(Run(INITIAL, [Start(true), Resume(0, Ready)]), FETCHING)
  {
    var s1 := Step(INITIAL, Start(true));
    assert Reached(s1, Station(ALONE, 0, Joining, JoinSave, false, false, false, [], NOTHING_SEEN));
    assert Reached(Step(s1, Resume(0, Ready)), FETCHING);
    Two(INITIAL, Start(true), Resume(0, Ready));
  }

  lemma JoinReaches(xs: seq<Signal>)
    ensures Reached(Run(INITIAL, JoinPart(xs)), Fed(FETCHING, FetchDrain, xs))
  {
    JoinBegins();
    hide Run, Reached;
    RunSplit(INITIAL, [Start(true), Resume(0, Ready)], AllOffered(0, xs));
    DrainReaches(Run(INITIAL, [Start(true), Resume(0, Ready)]), FETCHING, FetchDrain, xs);
  }

  /** The snapshot is exhausted before the timer, which is cleared. */
  lemma SnapshotDone(s: State, a: Station)
    requires Reached(s, a) && a.ts == TIMED && a.i == 0 && a.pc == Draining(FetchDrain) && !a.fired
    ensures Reached(Step(s, Resume(0, Ended)),
                    a.(ts := TIMED[1 := Thread(1, Done, false)], phase := CatchingUp, pc := CatchSave, complete := true,
                       seen := a.seen.(drained := true)))
  {
  }

  /** Or the timer fires first, and catches up in its place. */
  lemma TimerFires(s: State, a: Station)
    requires Reached(s, a) && a.ts == TIMED && a.i == 0 && a.pc == Draining(FetchDrain)
    ensures Reached(Step(s, Resume(1, Ready)), a.(i := 1, phase := CatchingUp, pc := CatchSave, fired := true))
  {
  }

  /** The record of a snapshot, a history and live input, handled in this order. */
  predicate HandledAll(e: Seen, xs: seq<Signal>, ys: seq<Signal>, zs: seq<Signal>, late: seq<Signal>) {
    e.yielded == xs + late && e.handledBootstrap == xs + late && e.arrived == zs && e.handledLive == zs && e.drains == 1 &&
    e.order == Times(Bootstrap, |xs|) + Times(Origin.Historical, |ys|) + Times(Pushed, |zs|) + Times(Bootstrap, |late|) &&
    !e.reentered && !e.reopened
  }

  /** A whole join, for any snapshot, any history and any live input that arrives
      before live: everything is handled, the snapshot first, then the history, then
      the live input, each in order; and the bootstrap is complete. */
  lemma JoinGoesLive(xs: seq<Signal>, ys: seq<Signal>, zs: seq<Signal>)
    ensures var t := Run(INITIAL, JoinPart(xs) + [Resume(0, Ended)] + (HistoryPart(0, zs, ys) + LivePart(0, |zs|)));
            t.lifecycle.Live? && t.bootstrapCompleted && t.liveBuffer == [] && HandledAll(t.seen, xs, ys, zs, [])
  {
    JoinReaches(xs);
    hide Run, HistoryPart, LivePart, JoinPart, Step;
    var a := Fed(FETCHING, FetchDrain, xs);
    var s := Run(INITIAL, JoinPart(xs));
    SnapshotDone(s, a);
    var a1 := a.(ts := TIMED[1 := Thread(1, Done, false)], phase := CatchingUp, pc := CatchSave, complete := true,
                 seen := a.seen.(drained := true));
    CatchesUp(Step(s, Resume(0, Ended)), a1, zs, ys);
    RunOne(s, Resume(0, Ended));
    RunSplit(INITIAL, JoinPart(xs), [Resume(0, Ended)]);
    RunSplit(INITIAL, JoinPart(xs) + [Resume(0, Ended)], HistoryPart(0, zs, ys) + LivePart(0, |zs|));
    WholeRecord(a1, xs, ys, zs);
  }

  lemma WholeRecord(a: Station, xs: seq<Signal>, ys: seq<Signal>, zs: seq<Signal>)
    requires a.seen == Fed(FETCHING, FetchDrain, xs).seen.(drained := a.seen.drained)
    ensures HandledAll(InLive(Buffering(a, zs, ys)).seen, xs, ys, zs, [])
  {
    assert [] + xs == xs && xs + [] == xs && [] + zs == zs && [] + Times(Bootstrap, |xs|) == Times(Bootstrap, |xs|);
    var o := Times(Bootstrap, |xs|) + Times(Origin.Historical, |ys|) + Times(Pushed, |zs|);
    assert o + Times(Bootstrap, 0) == o;
  }

  /** A join overtaken by its timer after `xs`: it catches up and goes live at once,
      with the bootstrap incomplete; the rest of the snapshot is handled while live,
      and its end completes the bootstrap. */
  lemma SlowJoinGoesLive(xs: seq<Signal>, ys: seq<Signal>, zs: seq<Signal>, late: seq<Signal>)
    ensures var t := Run(INITIAL, JoinPart(xs) + [Resume(1, Ready)] + (HistoryPart(1, zs, ys) + LivePart(1, |zs|)));
            t.lifecycle.Live? && !t.bootstrapCompleted && t.liveBuffer == [] && HandledAll(t.seen, xs, ys, zs, []) &&
            var u := Run(t, AllOffered(0, late) + [Resume(0, Ended)]);
            u.lifecycle.Live? && u.bootstrapCompleted && HandledAll(u.seen, xs, ys, zs, late)
  {
    JoinReaches(xs);
    hide Run, HistoryPart, LivePart, JoinPart, Step;
    var a := Fed(FETCHING, FetchDrain, xs);
    var s := Run(INITIAL, JoinPart(xs));
    TimerFires(s, a);
    var a1 := a.(i := 1, phase := CatchingUp, pc := CatchSave, fired := true);
    CatchesUp(Step(s, Resume(1, Ready)), a1, zs, ys);
    RunOne(s, Resume(1, Ready));
    RunSplit(INITIAL, JoinPart(xs), [Resume(1, Ready)]);
    RunSplit(INITIAL, JoinPart(xs) + [Resume(1, Ready)], HistoryPart(1, zs, ys) + LivePart(1, |zs|));
    WholeRecord(a1, xs, ys, zs);
    var t := Run(INITIAL, JoinPart(xs) + [Resume(1, Ready)] + (HistoryPart(1, zs, ys) + LivePart(1, |zs|)));
    RestOfSnapshot(t, InLive(Buffering(a1, zs, ys)), xs, ys, zs, late);
  }

  lemma RestOfSnapshot(s: State, a: Station, xs: seq<Signal>, ys: seq<Signal>, zs: seq<Signal>, late: seq<Signal>)
    requires Reached(s, a) && a.ts == TIMED && a.i == 1 && a.pc.Done? && a.fired && a.phase.Live?
    requires HandledAll(a.seen, xs, ys, zs, [])
    ensures var u := Run(s, AllOffered(0, late) + [Resume(0, Ended)]);
            u.lifecycle.Live? && u.bootstrapCompleted && HandledAll(u.seen, xs, ys, zs, late)
  {
    assert Stands(s, 0, Draining(FetchDrain));
    DrainTakesAll(s, 0, FetchDrain, late);
    var t := Run(s, AllOffered(0, late));
    hide Run;
    assert xs + [] == xs;
    var o := Times(Bootstrap, |xs|) + Times(Origin.Historical, |ys|) + Times(Pushed, |zs|);
    assert o + Times(Bootstrap, 0) == o;
    RunSplit(s, AllOffered(0, late), [Resume(0, Ended)]);
    RunOne(t, Resume(0, Ended));
  }

  /** A recovering start: the facts past the watermark are replayed, then the history,
      then the live input; the bootstrap counts as complete throughout. */
  lemma RecoveryGoesLive(rs: seq<Signal>, ys: seq<Signal>, zs: seq<Signal>)
    ensures var begin := [Start(false), Resume(0, RouteRecover)] + [Resume(0, Ready)] + AllOffered(0, rs) + [Resume(0, Ended)];
            var t := Run(INITIAL, begin + (HistoryPart(0, zs, ys) + LivePart(0, |zs|)));
            t.lifecycle.Live? && t.bootstrapCompleted && t.liveBuffer == [] && t.seen.drains == 1 &&
            t.seen.arrived == zs && t.seen.handledLive == zs && t.seen.yielded == [] && t.seen.handledBootstrap == [] &&
            t.seen.order == Times(Replayed, |rs|) + Times(Origin.Historical, |ys|) + Times(Pushed, |zs|)
  {
    var begin := [Start(false), Resume(0, RouteRecover)] + [Resume(0, Ready)] + AllOffered(0, rs) + [Resume(0, Ended)];
    var a := RecoveryReaches(rs);
    hide Run, Reached, HistoryPart, LivePart;
    CatchesUp(Run(INITIAL, begin), a, zs, ys);
    RunSplit(INITIAL, begin, HistoryPart(0, zs, ys) + LivePart(0, |zs|));
    assert [] + zs == zs;
    LiveFacts(Run(INITIAL, begin + (HistoryPart(0, zs, ys) + LivePart(0, |zs|))), InLive(Buffering(a, zs, ys)));
  }

  lemma LiveFacts(s: State, a: Station)
    requires Reached(s, a)
    ensures s.lifecycle == a.phase && s.bootstrapCompleted == a.complete && s.liveBuffer == a.buffer && s.seen == a.seen
  {
  }

  const REPLAYING := Station(ALONE, 0, Recovering, Draining(ReplayDrain), false, false, true, [], NOTHING_SEEN)

  lemma RecoveryBegins()
    ensures Reached(Run(INITIAL, [Start(false), Resume(0, RouteRecover)] + [Resume(0, Ready)]), REPLAYING)
  {
    var s1 := Step(INITIAL, Start(false));
    var s2 := Step(s1, Resume(0, RouteRecover));
    assert Reached(s2, REPLAYING.(pc := RecoverSave));
    assert Reached(Step(s2, Resume(0, Ready)), REPLAYING);
    hide Step, Reached;
    Two(INITIAL, Start(false), Resume(0, RouteRecover));
    RunSplit(INITIAL, [Start(false), Resume(0, RouteRecover)], [Resume(0, Ready)]);
    RunOne(s2, Resume(0, Ready));
  }

  lemma ReplayDone(s: State, a: Station)
    requires Reached(s, a) && a.pc == Draining(ReplayDrain)
    ensures Reached(Step(s, Resume(a.i, Ended)), a.(phase := CatchingUp, pc := CatchSave))
  {
  }

  lemma RecoveryReaches(rs: seq<Signal>) returns (a: Station)
    ensures a.phase.CatchingUp? && a.pc.CatchSave? && !a.subscribed && a.complete && a.buffer == [] && a.i == 0
    ensures a.seen == NOTHING_SEEN.(order := Times(Replayed, |rs|))
    ensures Reached(Run(INITIAL, [Start(false), Resume(0, RouteRecover)] + [Resume(0, Ready)] + AllOffered(0, rs) + [Resume(0, Ended)]), a)
  {
    var begin := [Start(false), Resume(0, RouteRecover)] + [Resume(0, Ready)];
    RecoveryBegins();
    hide Run, Reached, Step;
    RunSplit(INITIAL, begin, AllOffered(0, rs));
    RunSplit(INITIAL, begin + AllOffered(0, rs), [Resume(0, Ended)]);
    DrainReaches(Run(INITIAL, begin), REPLAYING, ReplayDrain, rs);
    var s := Run(Run(INITIAL, begin), AllOffered(0, rs));
    ReplayDone(s, Fed(REPLAYING, ReplayDrain, rs));
    RunOne(s, Resume(0, Ended));
    assert [] + Times(Replayed, |rs|) == Times(Replayed, |rs|);
    a := Fed(REPLAYING, ReplayDrain, rs).(phase := CatchingUp, pc := CatchSave);
  }

  // ------------------------------------------------ stop, reset, and a start after it

  /** A stop ends its session at once: live input is closed, neither the join timer
      nor the periodic save's timer is left, and whatever arrives is dropped. */
  lemma StopEnds(s: State, g: nat, x: Signal)
    requires !s.lifecycle.Stopped? && !s.lifecycle.Uninitialized?
    ensures var t := Step(s, Stop);
            t.lifecycle.Stopped? && t.generation == s.generation + 1 && t.subscriptions == {} && t.seen == NOTHING_SEEN &&
            (forall i :: 0 <= i < |t.threads| && t.threads[i].gen == s.generation ==> !t.threads[i].pc.JoinTimer?) &&
            (forall k :: 0 <= k < |t.savers| ==> !t.savers[k].pc.Tick?) && Step(t, Arrive(g, x)) == t
  {
  }


  /** From any state, a reset that is left alone ends with nothing of its session left;
      and if no earlier start is still under way, the next one joins. */
  lemma ResetThenStart(s: State, x: Answer)
    requires !x.Failed?
    ensures var n := |s.threads|;
            var t := Run(s, [Reset] + [Resume(n, x), Resume(n, x)]);
            t.lifecycle.Uninitialized? && t.generation == s.generation + 1 && t.catchUps == 0 && t.subscriptions == {} &&
            t.liveBuffer == [] && !t.bootstrapCompleted && t.chain == Chain([], None) && t.seen == NOTHING_SEEN &&
            (!Starting(s) ==> Step(t, Start(true)).lifecycle.Joining? && Step(t, Start(true)).generation == s.generation + 2)
  {
    var n := |s.threads|;
    var s1 := Step(s, Reset);
    ResetBegins(s);
    ResetEnds(s1, x);
    var t := Step(Step(s1, Resume(n, x)), Resume(n, x));
    StartsAfter(s, t);
    hide Step, Run;
    Two(s1, Resume(n, x), Resume(n, x));
    RunOne(s, Reset);
    RunSplit(s, [Reset], [Resume(n, x), Resume(n, x)]);
  }

  /** Nothing of the session is left but the lifecycle. */
  predicate Cleared(s: State) {
    s.catchUps == 0 && s.subscriptions == {} && s.liveBuffer == [] && !s.bootstrapCompleted && s.chain == Chain([], None) &&
    s.seen == NOTHING_SEEN
  }

  lemma ResetBegins(s: State)
    ensures var t := Step(s, Reset);
            Cleared(t) && t.generation == s.generation + 1 &&
            t.threads == WithoutTimers(s.threads, s.generation) + [Thread(s.generation + 1, Clearing(false), false)]
  {
  }

  lemma ResetEnds(s: State, x: Answer)
    requires Cleared(s) && |s.threads| > 0 && s.threads[|s.threads| - 1] == Thread(s.generation, Clearing(false), false) && !x.Failed?
    ensures var n := |s.threads| - 1;
            var t := Step(Step(s, Resume(n, x)), Resume(n, x));
            Cleared(t) && t.lifecycle.Uninitialized? && t.generation == s.generation &&
            t.threads == s.threads[n := Thread(s.generation, Done, false)]
  {
    var n := |s.threads| - 1;
    var s1 := Step(s, Resume(n, x));
    assert s1 == s.(threads := s.threads[n := Thread(s.generation, Clearing(true), false)], effects := s1.effects);
    assert Step(s1, Resume(n, x)).threads == s.threads[n := Thread(s.generation, Done, false)];
  }

  lemma StartsAfter(s: State, t: State)
    requires t.lifecycle.Uninitialized? && t.generation == s.generation + 1 && |t.threads| == |s.threads| + 1
    requires var n := |s.threads|;
             !t.threads[n].starter && t.threads[..n] == WithoutTimers(s.threads, s.generation)
    ensures !Starting(s) ==> Step(t, Start(true)).lifecycle.Joining? && Step(t, Start(true)).generation == s.generation + 2
  {
    forall i | 0 <= i < |t.threads| && t.threads[i].starter && !t.threads[i].pc.Done? ensures Starting(s) {
      assert t.threads[i] == t.threads[..|s.threads|][i];
      assert s.threads[i].starter && !s.threads[i].pc.Done?;
    }
  }

  // ------------------------------------------------ a local edit

  /** The next local edit on the queue, whichever generation it was queued in: if its
      append lands with no end of the generation in between, it is written and then
      announced. */
  lemma EditIsAnnounced(s: State, job: Job, rest: seq<Job>, k: JobAction)
    requires s.chain == Chain([job] + rest, None) && job.origin.Local?
    ensures var t := Run(s, [JobStart] + [JobStep(DoWrite), JobDue(true)] + [JobStep(k)]);
            t.edits == s.edits + [Edit(job.signal, s.generation, true, s.generation, true)] && t.chain == Chain(rest, None) &&
            t.effects == s.effects + [Effect(s.generation, s.generation, Write), Effect(s.generation, s.generation, Emission)]
  {
    var now := job.(gen := s.generation);
    var s1 := s.(chain := Chain(rest, Some(Running(now, false, Idle))));
    var s2 := s1.(effects := s.effects + [Effect(s.generation, s.generation, Write)],
                  chain := Chain(rest, Some(Running(now, false, AnnounceDue))));
    assert ([job] + rest)[1..] == rest;
    assert Step(s, JobStart) == s1;
    EditLands(s1, now, rest);
    EditEnds(s2, now, rest, k);
    hide Step, Run;
    RunOne(s, JobStart);
    Two(s1, JobStep(DoWrite), JobDue(true));
    RunOne(s2, JobStep(k));
    RunSplit(s, [JobStart], [JobStep(DoWrite), JobDue(true)]);
    RunSplit(s, [JobStart] + [JobStep(DoWrite), JobDue(true)], [JobStep(k)]);
    assert [Effect(s.generation, s.generation, Write)] + [Effect(s.generation, s.generation, Emission)] ==
      [Effect(s.generation, s.generation, Write), Effect(s.generation, s.generation, Emission)];
    ConcatAssociates(s.effects, [Effect(s.generation, s.generation, Write)], [Effect(s.generation, s.generation, Emission)]);
  }

  lemma EditLands(s: State, job: Job, rest: seq<Job>)
    requires s.chain == Chain(rest, Some(Running(job, false, Idle))) && job.origin.Local? && job.gen == s.generation
    ensures Step(Step(s, JobStep(DoWrite)), JobDue(true)) ==
            s.(effects := s.effects + [Effect(s.generation, s.generation, Write)],
               chain := Chain(rest, Some(Running(job, false, AnnounceDue))))
  {
  }

  lemma EditEnds(s: State, job: Job, rest: seq<Job>, k: JobAction)
    requires s.chain == Chain(rest, Some(Running(job, false, AnnounceDue))) && job.origin.Local? && job.gen == s.generation
    ensures var t := Step(s, JobStep(k));
            t.edits == s.edits + [Edit(job.signal, s.generation, true, s.generation, true)] && t.chain == Chain(rest, None) &&
            t.effects == s.effects + [Effect(s.generation, s.generation, Emission)]
  {
  }

  lemma Two(s: State, a: Label, b: Label)
    ensures Run(s, [a, b]) == Step(Step(s, a), b)
  {
    hide Step;
    assert [a, b] == [a] + [b];
    RunSplit(s, [a], [b]);
    RunOne(s, a);
    RunOne(Step(s, a), b);
  }
}
