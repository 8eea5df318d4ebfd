/** The live signals and the bootstrap messages on their way through the cutover:
    conservation, order, and what bootstrapCompleted means. */

module CutoverFlow {
  import opened Wrappers
  import opened EngineTypes
  import opened CutoverProtocol
  import opened CutoverSafety

  // ------------------------------------------------ jobs on the queue

  predicate Matches(j: Job, gen: nat, o: Origin) {
    j.gen == gen && j.origin == o
  }

  function SignalsOf(jobs: seq<Job>, gen: nat, o: Origin): (r: seq<Signal>) {
    if |jobs| == 0 then []
    else (if Matches(jobs[0], gen, o) then [jobs[0].signal] else []) + SignalsOf(jobs[1..], gen, o)
  }

  function Own(j: Job, gen: nat, o: Origin): (r: seq<Signal>) {
    if Matches(j, gen, o) then [j.signal] else []
  }

  /** The signals of one origin that are in a handler or queued, in order. */
  function Underway(c: Chain, gen: nat, o: Origin): (r: seq<Signal>) {
    (if c.running.Some? then Own(c.running.value.job, gen, o) else []) + SignalsOf(c.pending, gen, o)
  }

  predicate NoneOf(c: Chain, gen: nat, o: Origin) {
    (c.running.Some? ==> !Matches(c.running.value.job, gen, o)) &&
    forall k :: 0 <= k < |c.pending| ==> !Matches(c.pending[k], gen, o)
  }

  predicate OnlyId(c: Chain, gen: nat, o: Origin, id: nat) {
    (c.running.Some? && Matches(c.running.value.job, gen, o) ==> c.running.value.job.id == id) &&
    forall k :: 0 <= k < |c.pending| && Matches(c.pending[k], gen, o) ==> c.pending[k].id == id
  }

  predicate OnlyLocal(c: Chain, gen: nat) {
    (c.running.Some? && c.running.value.job.gen == gen ==> c.running.value.job.origin.Local?) &&
    forall k :: 0 <= k < |c.pending| && c.pending[k].gen == gen ==> c.pending[k].origin.Local?
  }

  lemma {:induction false} SignalsAppend(jobs: seq<Job>, j: Job, gen: nat, o: Origin)
    ensures SignalsOf(jobs + [j], gen, o) == SignalsOf(jobs, gen, o) + if Matches(j, gen, o) then [j.signal] else []
  {
    if |jobs| == 0 {
      assert (jobs + [j])[1..] == [];
    } else {
      assert (jobs + [j])[1..] == jobs[1..] + [j];
      SignalsAppend(jobs[1..], j, gen, o);
      ConcatAssociates(Own(jobs[0], gen, o), SignalsOf(jobs[1..], gen, o), Own(j, gen, o));
    }
  }

  lemma {:induction false} NoSignals(jobs: seq<Job>, gen: nat, o: Origin)
    requires forall k :: 0 <= k < |jobs| ==> !Matches(jobs[k], gen, o)
    ensures SignalsOf(jobs, gen, o) == []
  {
    if |jobs| > 0 { NoSignals(jobs[1..], gen, o); }
  }

  lemma NoneUnderway(c: Chain, gen: nat, o: Origin)
    requires NoneOf(c, gen, o)
    ensures Underway(c, gen, o) == []
  {
    NoSignals(c.pending, gen, o);
  }

  /** Ids are handed out in order, and an unfinished job's id is not among the finished ones. */
  predicate JobsOk(s: State) {
    (forall id :: id in s.finished ==> id < s.nextJob) &&
    (s.chain.running.Some? ==>
      var j := s.chain.running.value.job;
      j.gen <= s.generation && j.id < s.nextJob && j.id !in s.finished &&
      forall k :: 0 <= k < |s.chain.pending| ==> j.id < s.chain.pending[k].id) &&
    (forall k :: 0 <= k < |s.chain.pending| ==>
      s.chain.pending[k].gen <= s.generation && s.chain.pending[k].id < s.nextJob && s.chain.pending[k].id !in s.finished) &&
    (forall k, m :: 0 <= k < m < |s.chain.pending| ==> s.chain.pending[k].id < s.chain.pending[m].id)
  }

  // ------------------------------------------------ the invariant

  predicate OpenPhase(l: Lifecycle) {
    l.CatchingUp? || l.BufferingLive? || l.Live? || l.RetryingDeferred?
  }

  predicate PushedAfterHistory(order: seq<Origin>) {
    forall a, b :: 0 <= a < b < |order| && order[a].Pushed? ==> !order[b].Historical?
  }

  /** What a suspended continuation says about the jobs it may be waiting for. */
  predicate Waits(t: Thread, c: Chain, g: nat) {
    match t.pc
    case Clearing(_) => OnlyLocal(c, g)
    case Loading => NoneOf(c, g, Bootstrap)
    case JoinSave => NoneOf(c, g, Bootstrap)
    case Draining(d) =>
      (d.FetchDrain? ==> NoneOf(c, g, Bootstrap)) && (d.HistoryDrain? ==> NoneOf(c, g, Origin.Historical))
    case AwaitingJob(d, id) =>
      (d.FetchDrain? ==> OnlyId(c, g, Bootstrap, id)) && (d.HistoryDrain? ==> OnlyId(c, g, Origin.Historical, id))
    case _ => true
  }

  predicate AfterOpen(t: Thread) {
    t.pc == Draining(HistoryDrain) || (t.pc.AwaitingJob? && (t.pc.drain.HistoryDrain? || t.pc.drain.BufferDrain?)) ||
    t.pc.BufferSave? || t.pc.LiveSave? || t.pc.LiveRetry?
  }

  /** Before live input is subscribed to, none of it and none of the history is about. */
  predicate Unopened(s: State) {
    s.seen.arrived == [] && s.seen.handledLive == [] && NoneOf(s.chain, s.generation, Pushed) &&
    NoneOf(s.chain, s.generation, Origin.Historical) && Pushed !in s.seen.order && Origin.Historical !in s.seen.order
  }

  /** Once it is: every arrived signal is handled, in a handler or queued, or
      buffered, in that order; the buffer is empty once live; no live signal is
      taken up while history is still drained, and no history after that. */
  predicate Opened(s: State) {
    s.seen.arrived == s.seen.handledLive + Underway(s.chain, s.generation, Pushed) + s.liveBuffer &&
    OpenPhase(s.lifecycle) &&
    (s.lifecycle.Live? || s.lifecycle.RetryingDeferred? ==> s.liveBuffer == []) &&
    (s.lifecycle.CatchingUp? ==>
      s.seen.handledLive == [] && NoneOf(s.chain, s.generation, Pushed) && Pushed !in s.seen.order) &&
    (!s.lifecycle.CatchingUp? ==> NoneOf(s.chain, s.generation, Origin.Historical)) &&
    PushedAfterHistory(s.seen.order)
  }

  /** The clauses about one suspended continuation of the current generation. */
  predicate Placed(t: Thread, subscribed: bool, reentered: bool) {
    (t.pc.Clearing? ==> !subscribed) && (reentered && BeforeCut(t) ==> t.pc.CatchSave?) &&
    (!reentered ==> (t.pc.CatchSave? ==> !subscribed) && (AfterOpen(t) ==> subscribed))
  }

  predicate Threads(s: State) {
    forall i :: 0 <= i < |s.threads| && Current(s.threads[i], s.generation) ==>
      Waits(s.threads[i], s.chain, s.generation) &&
      Placed(s.threads[i], s.generation in s.subscriptions, s.seen.reentered)
  }

  predicate Streams(s: State) {
    s.seen.yielded == s.seen.handledBootstrap + Underway(s.chain, s.generation, Bootstrap) &&
    (!s.seen.reentered ==> if s.generation in s.subscriptions then Opened(s) else Unopened(s))
  }

  /** Only handlers of input signals retry, and only local edits are announced in two steps. */
  predicate LocalOnly(run: Running) {
    (run.retrying ==> !run.job.origin.Local?) && (run.due.AppendDue? || run.due.AnnounceDue? ==> run.job.origin.Local?)
  }

  predicate Flow(s: State) {
    JobsOk(s) && Toggles(s) && Threads(s) && Streams(s) &&
    (s.chain.running.Some? ==> LocalOnly(s.chain.running.value)) &&
    (forall g :: g in s.subscriptions ==> g <= s.generation) &&
    (s.generation in s.subscriptions ==> s.catchUps > 0) && (s.seen.reentered ==> s.generation in s.subscriptions)
  }

  // ------------------------------------------------ moves of a continuation

  /** A continuation moves without touching the queue. */
  lemma MoveFlow(s: State, t: State, i: nat)
    requires Flow(s) && i < |s.threads| && |t.threads| == |s.threads| && t.threads == s.threads[i := t.threads[i]]
    requires t.generation == s.generation && t.chain == s.chain && t.finished == s.finished && t.nextJob == s.nextJob
    requires t.subscriptions == s.subscriptions && t.catchUps == s.catchUps && t.liveBuffer == s.liveBuffer
    requires t.seen == s.seen.(drained := t.seen.drained, reentered := t.seen.reentered, reopened := t.seen.reopened) && (s.seen.reentered ==> t.seen.reentered)
    requires t.seen.reentered ==> t.generation in t.subscriptions
    requires t.seen.reentered == s.seen.reentered || OthersPastCut(s, i)
    requires Current(t.threads[i], t.generation) ==>
      Waits(t.threads[i], t.chain, t.generation) && Placed(t.threads[i], t.generation in t.subscriptions, t.seen.reentered)
    requires t.lifecycle == s.lifecycle || (Toggles(t) && (t.seen.reentered || (if t.generation in t.subscriptions then Opened(t) else true)))
    ensures Flow(t)
  {
    hide Waits, Opened, Unopened, Underway;
    assert Threads(t);
    assert Streams(t) by { if !t.seen.reentered { OpenedBy(s, t); } }
  }

  predicate OthersPastCut(s: State, i: nat) {
    forall j :: 0 <= j < |s.threads| && j != i && Current(s.threads[j], s.generation) ==> !BeforeCut(s.threads[j])
  }

  lemma OpenedBy(s: State, t: State)
    requires t.generation == s.generation && t.chain == s.chain && t.liveBuffer == s.liveBuffer
    requires t.seen == s.seen.(drained := t.seen.drained, reopened := t.seen.reopened)
    ensures Unopened(s) == Unopened(t)
    ensures t.lifecycle == s.lifecycle ==> Opened(s) == Opened(t)
  {
  }

  lemma FinishFlow(s: State, i: nat)
    requires Flow(s) && i < |s.threads|
    ensures Flow(Finish(s, i))
  {
    assert s.seen.reentered ==> s.generation in s.subscriptions;
    hide Flow;
    MoveFlow(s, Finish(s, i), i);
  }

  /** The right to cut over implies the phase, so no handler is retrying before the cutover ends. */
  lemma QuietBefore(s: State, i: nat)
    requires OneWinner(s) && Flow(s) && i < |s.threads| && !Stale(s, i) && !s.seen.reentered
    requires Main(s.threads[i], s.generation, s.timerFired) || s.threads[i].pc.JoinTimer?
    ensures s.threads[i].pc.JoinTimer? ==> s.lifecycle.Joining?
    ensures !s.threads[i].pc.JoinTimer? ==> InPhase(s.threads[i], s.lifecycle)
    ensures !s.lifecycle.Live? && !s.lifecycle.RetryingDeferred? ==>
      !(s.chain.running.Some? && s.chain.running.value.retrying && s.chain.running.value.job.gen == s.generation)
  {
  }

  lemma EnterCatchingUpFlow(s: State, i: nat)
    requires OneWinner(s) && Flow(s) && i < |s.threads|
    requires !Stale(s, i) ==> !s.seen.reentered
    requires !Stale(s, i) && !s.threads[i].pc.JoinTimer? ==>
      Main(s.threads[i], s.generation, s.timerFired) && BeforeCut(s.threads[i]) && !s.threads[i].pc.CatchSave?
    ensures Flow(EnterCatchingUp(s, i))
  {
    FinishFlow(s, i);
    if !Stale(s, i) {
      QuietBefore(s, i);
      NotSubscribed(s, i);
      hide OneWinner, Opened, Unopened, JobsOk, Streams;
      MoveFlow(s, EnterCatchingUp(s, i), i);
    }
  }

  lemma NotSubscribed(s: State, i: nat)
    requires OneWinner(s) && Flow(s) && i < |s.threads| && !Stale(s, i) && !s.seen.reentered
    requires Main(s.threads[i], s.generation, s.timerFired) || s.threads[i].pc.JoinTimer?
    requires (BeforeCut(s.threads[i]) && !s.threads[i].pc.CatchSave?) || s.threads[i].pc.JoinTimer?
    ensures s.generation !in s.subscriptions
  {
    QuietBefore(s, i);
  }

  lemma EnterBufferingFlow(s: State, i: nat)
    requires OneWinner(s) && Flow(s) && i < |s.threads| && s.threads[i].pc == Draining(HistoryDrain)
    ensures Flow(EnterBufferingLive(s, i))
  {
    FinishFlow(s, i);
    if !Stale(s, i) {
      var t := EnterBufferingLive(s, i);
      if s.seen.reentered {
        assert !t.lifecycle.Uninitialized?;
      } else {
        QuietBefore(s, i);
        assert Current(s.threads[i], s.generation);
        assert Opened(s) && NoneOf(s.chain, s.generation, Origin.Historical);
        assert Opened(t);
      }
      hide OneWinner, Opened, Unopened, JobsOk, Streams;
      MoveFlow(s, t, i);
    }
  }

  lemma EnterLiveFlow(s: State, i: nat)
    requires OneWinner(s) && Flow(s) && i < |s.threads| && s.liveBuffer == []
    requires s.threads[i].pc.BufferSave? || (s.threads[i].pc.AwaitingJob? && s.threads[i].pc.drain.BufferDrain?)
    ensures Flow(EnterLive(s, i))
  {
    FinishFlow(s, i);
    if !Stale(s, i) {
      var t := EnterLive(s, i);
      if !s.seen.reentered {
        QuietBefore(s, i);
        assert Current(s.threads[i], s.generation) && AfterOpen(s.threads[i]);
        assert Opened(s) && Opened(t);
      }
      hide OneWinner, Opened, Unopened, JobsOk, Streams;
      MoveFlow(s, t, i);
    }
  }

  lemma RouteFlow(s: State, i: nat)
    requires OneWinner(s) && Flow(s) && i < |s.threads| && s.threads[i].pc.Loading?
    ensures Flow(EnterJoining(s, i)) && Flow(EnterRecovering(s, i))
  {
    FinishFlow(s, i);
    if !Stale(s, i) {
      assert Current(s.threads[i], s.generation) && Early(s.threads[i]) && !s.seen.reentered;
      QuietBefore(s, i);
      NotSubscribed(s, i);
      hide OneWinner, Opened, Unopened, JobsOk, Streams;
      MoveFlow(s, EnterJoining(s, i), i);
      MoveFlow(s, EnterRecovering(s, i), i);
    }
  }

  /** A new job of the current generation joins the queue. */
  lemma EnqueueFlow(s: State, t: State, o: Origin, x: Signal)
    requires JobsOk(s) && t == Enqueue(s, s.generation, o, x)
    ensures JobsOk(t) && (Toggles(s) ==> Toggles(t))
    ensures forall p :: Underway(t.chain, s.generation, p) == Underway(s.chain, s.generation, p) + if p == o then [x] else []
    ensures forall p :: p != o && NoneOf(s.chain, s.generation, p) ==> NoneOf(t.chain, s.generation, p)
    ensures forall p, id :: p != o && OnlyId(s.chain, s.generation, p, id) ==> OnlyId(t.chain, s.generation, p, id)
    ensures forall id :: id == s.nextJob && NoneOf(s.chain, s.generation, o) ==> OnlyId(t.chain, s.generation, o, id)
    ensures o.Local? && OnlyLocal(s.chain, s.generation) ==> OnlyLocal(t.chain, s.generation)
  {
    var j := Job(s.nextJob, s.generation, o, x);
    forall p ensures Underway(t.chain, s.generation, p) == Underway(s.chain, s.generation, p) + if p == o then [x] else [] {
      SignalsAppend(s.chain.pending, j, s.generation, p);
    }
  }

  /** The other continuations are not disturbed by a job that is not theirs. */
  lemma WaitsKept(t: Thread, c: Chain, d: Chain, gen: nat, o: Origin)
    requires Waits(t, c, gen)
    requires forall p :: p != o && NoneOf(c, gen, p) ==> NoneOf(d, gen, p)
    requires forall p, id :: p != o && OnlyId(c, gen, p, id) ==> OnlyId(d, gen, p, id)
    requires o == Bootstrap ==> !t.pc.Loading? && !t.pc.JoinSave? && !Fetching(t)
    requires o == Origin.Historical ==>
      t.pc != Draining(HistoryDrain) && !(t.pc.AwaitingJob? && t.pc.drain.HistoryDrain?)
    requires t.pc.Clearing? ==> o.Local? && (OnlyLocal(c, gen) ==> OnlyLocal(d, gen))
    ensures Waits(t, d, gen)
  {
    hide NoneOf, OnlyId, OnlyLocal;
  }

  /** A drain hands one signal to the queue and waits for it. */
  lemma FetchNextFlow(s: State, i: nat, x: Signal)
    requires OneWinner(s) && Flow(s) && i < |s.threads| && s.threads[i].pc == Draining(FetchDrain) && !Stale(s, i)
    ensures Flow(OnDraining(s, i, Next(x)))
  {
    var t := OnDraining(s, i, Next(x));
    var u := Enqueue(s, s.generation, Bootstrap, x);
    EnqueueFlow(s, u, Bootstrap, x);
    OthersAreNotFetching(s, i);
    assert Streams(t) by {
      if !s.seen.reentered { ChainOpened(s, t); }
      ConcatAssociates(s.seen.handledBootstrap, Underway(s.chain, s.generation, Bootstrap), [x]);
    }
    hide OneWinner, JobsOk, Opened, Unopened, Underway, NoneOf, OnlyId;
    forall j | 0 <= j < |s.threads| && Current(t.threads[j], t.generation)
      ensures Waits(t.threads[j], t.chain, t.generation) && Placed(t.threads[j], t.generation in t.subscriptions, t.seen.reentered)
    {
      if j != i { WaitsKept(s.threads[j], s.chain, t.chain, s.generation, Bootstrap); }
    }
  }

  lemma OthersAreNotFetching(s: State, i: nat)
    requires OneWinner(s) && i < |s.threads| && Fetcher(s.threads[i], s.generation)
    ensures forall j :: 0 <= j < |s.threads| && j != i && Current(s.threads[j], s.generation) ==>
      !Fetching(s.threads[j]) && !Early(s.threads[j])
  {
  }

  lemma OthersAreNotMain(s: State, i: nat)
    requires OneWinner(s) && i < |s.threads| && Main(s.threads[i], s.generation, s.timerFired) && !Early(s.threads[i])
    ensures forall j :: 0 <= j < |s.threads| && j != i && Current(s.threads[j], s.generation) ==>
      !Main(s.threads[j], s.generation, s.timerFired) && !Early(s.threads[j])
  {
  }

  /** Opened and Unopened look at the queue only through the live and the historical jobs. */
  lemma ChainOpened(s: State, t: State)
    requires t.generation == s.generation && t.liveBuffer == s.liveBuffer && t.lifecycle == s.lifecycle
    requires t.seen.arrived == s.seen.arrived && t.seen.handledLive == s.seen.handledLive && t.seen.order == s.seen.order
    requires Underway(t.chain, s.generation, Pushed) == Underway(s.chain, s.generation, Pushed)
    requires NoneOf(s.chain, s.generation, Pushed) ==> NoneOf(t.chain, s.generation, Pushed)
    requires NoneOf(s.chain, s.generation, Origin.Historical) ==> NoneOf(t.chain, s.generation, Origin.Historical)
    ensures Opened(s) ==> Opened(t)
    ensures Unopened(s) ==> Unopened(t)
  {
    hide Underway, NoneOf;
  }

  lemma ReplayNextFlow(s: State, i: nat, x: Signal)
    requires OneWinner(s) && Flow(s) && i < |s.threads| && s.threads[i].pc == Draining(ReplayDrain) && !Stale(s, i)
    ensures Flow(OnDraining(s, i, Next(x)))
  {
    var t := OnDraining(s, i, Next(x));
    EnqueueFlow(s, Enqueue(s, s.generation, Replayed, x), Replayed, x);
    OthersAreNotMain(s, i);
    hide OneWinner, Waits, Placed;
    assert Streams(t) by { if !s.seen.reentered { ChainOpened(s, t); } }
    hide JobsOk, Opened, Unopened, Underway, NoneOf, OnlyId;
    forall j | 0 <= j < |s.threads| && Current(t.threads[j], t.generation)
      ensures Waits(t.threads[j], t.chain, t.generation) && Placed(t.threads[j], t.generation in t.subscriptions, t.seen.reentered)
    {
      if j != i { WaitsKept(s.threads[j], s.chain, t.chain, s.generation, Replayed); }
    }
  }

  lemma HistoryNextStreams(s: State, t: State, i: nat, x: Signal)
    requires OneWinner(s) && Flow(s) && i < |s.threads| && s.threads[i].pc == Draining(HistoryDrain) && !Stale(s, i)
    requires t == s.(threads := t.threads, chain := t.chain, nextJob := t.nextJob)
    requires t.chain == Enqueue(s, s.generation, Origin.Historical, x).chain
    ensures Streams(t)
  {
    EnqueueFlow(s, Enqueue(s, s.generation, Origin.Historical, x), Origin.Historical, x);
    if !s.seen.reentered {
      QuietBefore(s, i);
      assert Current(s.threads[i], s.generation) && AfterOpen(s.threads[i]);
      assert s.generation in s.subscriptions && s.lifecycle.CatchingUp?;
      hide OneWinner, Underway, NoneOf, JobsOk, Threads;
      assert Opened(s) && Opened(t);
    }
  }

  lemma HistoryNextFlow(s: State, i: nat, x: Signal)
    requires OneWinner(s) && Flow(s) && i < |s.threads| && s.threads[i].pc == Draining(HistoryDrain) && !Stale(s, i)
    ensures Flow(OnDraining(s, i, Next(x)))
  {
    var t := OnDraining(s, i, Next(x));
    EnqueueFlow(s, Enqueue(s, s.generation, Origin.Historical, x), Origin.Historical, x);
    OthersAreNotMain(s, i);
    HistoryNextStreams(s, t, i, x);
    hide OneWinner, JobsOk, Streams, Underway, NoneOf, OnlyId, OnlyLocal;
    forall j | 0 <= j < |s.threads| && Current(t.threads[j], t.generation)
      ensures Waits(t.threads[j], t.chain, t.generation) && Placed(t.threads[j], t.generation in t.subscriptions, t.seen.reentered)
    {
      if j != i { WaitsKept(s.threads[j], s.chain, t.chain, s.generation, Origin.Historical); }
    }
  }

  lemma BufferNextStreams(s: State, t: State, i: nat, x: Signal)
    requires OneWinner(s) && Flow(s) && i < |s.threads| && |s.liveBuffer| > 0 && !Stale(s, i) && x == s.liveBuffer[0]
    requires s.threads[i].pc.BufferSave? || (s.threads[i].pc.AwaitingJob? && s.threads[i].pc.drain.BufferDrain?)
    requires t == s.(threads := t.threads, chain := t.chain, nextJob := t.nextJob, liveBuffer := s.liveBuffer[1..])
    requires t.chain == Enqueue(s, s.generation, Pushed, x).chain
    ensures Streams(t)
  {
    EnqueueFlow(s, Enqueue(s, s.generation, Pushed, x), Pushed, x);
    if !s.seen.reentered {
      QuietBefore(s, i);
      assert Current(s.threads[i], s.generation) && AfterOpen(s.threads[i]);
      assert s.generation in s.subscriptions && s.lifecycle.BufferingLive?;
      hide OneWinner, Underway, NoneOf, JobsOk, Threads;
      assert s.liveBuffer == [x] + s.liveBuffer[1..];
      ConcatAssociates(s.seen.handledLive, Underway(s.chain, s.generation, Pushed), [x]);
      ConcatAssociates(s.seen.handledLive + Underway(s.chain, s.generation, Pushed), [x], t.liveBuffer);
      assert Opened(s) && Opened(t);
    }
  }

  /** The buffer drain hands the eldest buffered signal to the queue. */
  lemma BufferNextFlow(s: State, i: nat)
    requires OneWinner(s) && Flow(s) && i < |s.threads| && |s.liveBuffer| > 0 && !Stale(s, i)
    requires s.threads[i].pc.BufferSave? || (s.threads[i].pc.AwaitingJob? && s.threads[i].pc.drain.BufferDrain?)
    ensures Flow(DrainBuffer(s, i))
  {
    var t := DrainBuffer(s, i);
    var x := s.liveBuffer[0];
    EnqueueFlow(s, Enqueue(s, s.generation, Pushed, x), Pushed, x);
    OthersAreNotMain(s, i);
    BufferNextStreams(s, t, i, x);
    hide OneWinner, JobsOk, Streams, Underway, NoneOf, OnlyId, OnlyLocal;
    forall j | 0 <= j < |s.threads| && Current(t.threads[j], t.generation)
      ensures Waits(t.threads[j], t.chain, t.generation) && Placed(t.threads[j], t.generation in t.subscriptions, t.seen.reentered)
    {
      if j != i { WaitsKept(s.threads[j], s.chain, t.chain, s.generation, Pushed); }
    }
  }

  lemma ThrowFlow(s: State, i: nat)
    requires OneWinner(s) && Flow(s) && i < |s.threads| && (s.generation in s.subscriptions || s.threads[i].pc.CatchSave?)
    requires !Stale(s, i) ==> Main(s.threads[i], s.generation, s.timerFired) && !Early(s.threads[i])
    ensures Flow(Throw(s, i))
  {
    FinishFlow(s, i);
    var t := Throw(s, i);
    if t != Finish(s, i) {
      OthersAreNotMain(s, i);
      assert OthersPastCut(s, i);
      if s.generation in s.subscriptions {
        hide OneWinner;
        assert !t.lifecycle.Uninitialized? && t.seen.reentered;
        assert Toggles(t);
      } else {
        assert !s.seen.reentered;
        QuietBefore(s, i);
        hide OneWinner;
        assert t.lifecycle == s.lifecycle;
      }
      hide Opened, Unopened, JobsOk, Streams, Threads, Toggles;
      MoveFlow(s, t, i);
    }
  }

  /** openLive has thrown: the buffer was emptied, and nothing else has happened. */
  lemma OpenFails(s: State, i: nat)
    requires OneWinner(s) && Flow(s) && i < |s.threads| && s.threads[i].pc.CatchSave? && !Stale(s, i)
    ensures Flow(OpenAndCatchUp(s, i, Failed))
  {
    var s1 := s.(liveBuffer := []);
    assert Current(s.threads[i], s.generation);
    assert !s.seen.reentered ==> s.generation !in s.subscriptions;
    assert Flow(s1) by { hide Waits, Placed, Underway, NoneOf; }
    SameKeeps(s, s1);
    hide Flow, OneWinner;
    ThrowFlow(s1, i);
  }

  lemma OpenFlow(s: State, i: nat, a: Answer)
    requires OneWinner(s) && Flow(s) && i < |s.threads| && s.threads[i].pc.CatchSave? && !Stale(s, i) && !a.Failed?
    ensures Flow(OpenAndCatchUp(s, i, a))
  {
    if s.catchUps > 0 {
      var s1 := s.(liveBuffer := [], subscriptions := s.subscriptions + {s.threads[i].gen}, catchUps := s.catchUps + 1);
      MoreCatchUps(s, s1, i);
      assert Flow(s1) by { hide OneWinner, Waits, Underway; }
      hide Flow, OneWinner;
      ThrowFlow(s1, i);
    } else {
      FirstOpenFlow(s, i, a);
    }
  }

  lemma FirstOpenFlow(s: State, i: nat, a: Answer)
    requires OneWinner(s) && Flow(s) && i < |s.threads| && s.threads[i].pc.CatchSave? && !Stale(s, i) && !a.Failed? && s.catchUps == 0
    ensures Flow(OpenAndCatchUp(s, i, a))
  {
    var t := OpenAndCatchUp(s, i, a);
    assert !s.seen.reentered;
    QuietBefore(s, i);
    OthersAreNotMain(s, i);
    assert Current(s.threads[i], s.generation);
    assert Unopened(s);
    NoneUnderway(s.chain, s.generation, Pushed);
    hide OneWinner;
    assert Opened(t) by { hide NoneOf; }
    assert Threads(t) by { hide NoneOf, OnlyId, OnlyLocal; }
    hide Waits, Placed, Opened, Unopened, Underway, NoneOf, Threads;
  }

  // ------------------------------------------------ resuming

  lemma DrainingFlow(s: State, i: nat, a: Answer)
    requires OneWinner(s) && Flow(s) && i < |s.threads| && s.threads[i].pc.Draining?
    ensures Flow(OnDraining(s, i, a))
  {
    FinishFlow(s, i);
    var d := s.threads[i].pc.drain;
    assert !d.BufferDrain?;
    if !Stale(s, i) && a.Next? {
      hide OneWinner, Flow, OnDraining;
      match d
      case FetchDrain => FetchNextFlow(s, i, a.signal);
      case ReplayDrain => ReplayNextFlow(s, i, a.signal);
      case HistoryDrain => HistoryNextFlow(s, i, a.signal);
    } else if d.HistoryDrain? {
      EnterBufferingFlow(s, i);
    } else if d.ReplayDrain? {
      CutNotReentered(s, i);
      hide OneWinner, Flow;
      EnterCatchingUpFlow(s, i);
    } else if !Stale(s, i) {
      FetchOverFlow(s, i, a);
    }
  }

  /** After a re-entry nobody is left who could still be on the way to a first entry. */
  lemma CutNotReentered(s: State, i: nat)
    requires OneWinner(s) && Flow(s) && i < |s.threads| && !s.threads[i].pc.CatchSave?
    requires !Stale(s, i) ==> Main(s.threads[i], s.generation, s.timerFired) && BeforeCut(s.threads[i])
    ensures !Stale(s, i) ==> !s.seen.reentered
  {
    if !Stale(s, i) { assert Current(s.threads[i], s.generation); }
  }

  lemma FetchOverFlow(s: State, i: nat, a: Answer)
    requires OneWinner(s) && Flow(s) && i < |s.threads| && s.threads[i].pc == Draining(FetchDrain) && !Stale(s, i) && !a.Next?
    ensures Flow(OnDraining(s, i, a))
  {
    FinishFlow(s, i);
    if s.timerFired {
      hide OneWinner, Opened, Unopened, JobsOk, Streams;
      if a.Ended? { MoveFlow(s, OnDraining(s, i, a), i); }
    } else if a.Ended? || a.Failed? {
      var s1 := ClearTimer(s, s.generation);
      var s2 := if a.Ended? then s1.(bootstrapCompleted := true, seen := s.seen.(drained := true)) else s1;
      CutNotReentered(s, i);
      ClearKeeps(s);
      ClearFlow(s, s2);
      hide Flow, OneWinner;
      SameKeeps(s1, s2);
      EnterCatchingUpFlow(s2, i);
    }
  }

  lemma ClearFlow(s: State, t: State)
    requires Flow(s) && t == ClearTimer(s, s.generation).(bootstrapCompleted := t.bootstrapCompleted, seen := s.seen.(drained := t.seen.drained))
    ensures Flow(t)
  {
    hide Waits, Underway, Placed;
    if !s.seen.reentered { OpenedBy(s, t); }
  }

  lemma AwaitedFlow(s: State, i: nat)
    requires OneWinner(s) && Flow(s) && i < |s.threads| && s.threads[i].pc.AwaitingJob?
    ensures Flow(OnAwaited(s, i))
  {
    FinishFlow(s, i);
    var t := OnAwaited(s, i);
    var pc := s.threads[i].pc;
    if !Stale(s, i) && t != s {
      assert Current(s.threads[i], s.generation);
      if pc.drain.BufferDrain? {
        BufferFlow(s, i);
      } else {
        assert pc.id in s.finished;
        if pc.drain.FetchDrain? { FinishedIsGone(s, pc.id, Bootstrap); }
        if pc.drain.HistoryDrain? { FinishedIsGone(s, pc.id, Origin.Historical); }
        assert Waits(s.threads[i], s.chain, s.generation) && Placed(s.threads[i], s.generation in s.subscriptions, s.seen.reentered);
        assert Waits(t.threads[i], s.chain, s.generation);
        hide OneWinner, Opened, Unopened, JobsOk, Streams, Waits;
        MoveFlow(s, t, i);
      }
    }
  }

  lemma FinishedIsGone(s: State, id: nat, o: Origin)
    requires JobsOk(s) && id in s.finished && OnlyId(s.chain, s.generation, o, id)
    ensures NoneOf(s.chain, s.generation, o)
  {
  }

  lemma BufferFlow(s: State, i: nat)
    requires OneWinner(s) && Flow(s) && i < |s.threads| && !Stale(s, i)
    requires s.threads[i].pc.BufferSave? || (s.threads[i].pc.AwaitingJob? && s.threads[i].pc.drain.BufferDrain?)
    ensures Flow(DrainBuffer(s, i))
  {
    hide Flow, OneWinner;
    if |s.liveBuffer| == 0 { EnterLiveFlow(s, i); } else { BufferNextFlow(s, i); }
  }

  lemma JoinedFlow(s: State, i: nat)
    requires OneWinner(s) && Flow(s) && i < |s.threads| && s.threads[i].pc.JoinSave?
    ensures Flow(OnJoined(s, i))
  {
    FinishFlow(s, i);
    if !Stale(s, i) {
      assert Current(s.threads[i], s.generation);
      var t := OnJoined(s, i);
      hide Underway, OneWinner;
      if !s.seen.reentered { OpenedBy(s, t); }
    }
  }

  lemma TimerFlow(s: State, i: nat)
    requires OneWinner(s) && Flow(s) && i < |s.threads| && s.threads[i].pc.JoinTimer?
    ensures Flow(OnResume(s, i, Ready))
  {
    FinishFlow(s, i);
    if !Stale(s, i) {
      assert Timing(s.threads[i], s.generation);
      QuietBefore(s, i);
      NotSubscribed(s, i);
      hide OneWinner, Opened, Unopened, JobsOk, Streams;
      MoveFlow(s, OnResume(s, i, Ready), i);
    }
  }

  lemma LiveFlow(s: State, i: nat, a: Answer)
    requires OneWinner(s) && Flow(s) && i < |s.threads| && s.threads[i].pc.LiveSave?
    ensures Flow(OnLive(s, i, a))
  {
    FinishFlow(s, i);
    if !Stale(s, i) {
      LiveIsOpen(s, i);
      var t := OnLive(s, i, a);
      assert !s.seen.reentered ==> Opened(t) by { hide Underway; }
      hide OneWinner, Opened, Unopened, JobsOk, Streams;
      MoveFlow(s, t, i);
    }
  }

  lemma LiveIsOpen(s: State, i: nat)
    requires OneWinner(s) && Flow(s) && i < |s.threads| && !Stale(s, i) && (s.threads[i].pc.LiveSave? || s.threads[i].pc.LiveRetry?)
    ensures s.generation in s.subscriptions
    ensures !s.seen.reentered ==> Opened(s) && (s.lifecycle.Live? || s.lifecycle.RetryingDeferred?)
  {
    assert Current(s.threads[i], s.generation);
    if !s.seen.reentered { QuietBefore(s, i); }
  }

  lemma LiveRetryFlow(s: State, i: nat, a: Answer)
    requires OneWinner(s) && Flow(s) && i < |s.threads| && s.threads[i].pc.LiveRetry?
    ensures Flow(OnLiveRetry(s, i, a))
  {
    FinishFlow(s, i);
    if !Stale(s, i) { LiveIsOpen(s, i); }
    hide OneWinner, Flow;
    var t := OnLiveRetry(s, i, a);
    if LooksAtNothing(s.threads[i].pc.due) {
      hide Throw;
      DueFlow(s, t, i);
    } else if Stale(s, i) {
      assert t == Finish(s, i);
    } else if a.Failed? {
      ThrowFlow(s, i);
      hide Throw;
    } else {
      PassShape(s, t, i, a);
      hide OnLiveRetry;
      PassFlow(s, t, i);
    }
  }

  /** What is due is done, and the continuation stays where it is. */
  lemma DueFlow(s: State, t: State, i: nat)
    requires Flow(s) && i < |s.threads| && s.threads[i].pc.LiveRetry?
    requires t == s.(threads := s.threads[i := s.threads[i].(pc := LiveRetry(Idle))], effects := t.effects)
    ensures Flow(t)
  {
    assert Current(t.threads[i], s.generation) <==> Current(s.threads[i], s.generation);
    hide Opened, Unopened, JobsOk, Streams;
    MoveFlow(s, t, i);
  }

  /** The retry pass of enterLive goes on or ends. */
  lemma PassFlow(s: State, t: State, i: nat)
    requires OneWinner(s) && Flow(s) && i < |s.threads| && s.threads[i].pc.LiveRetry? && !Stale(s, i)
    requires |t.threads| == |s.threads| && t.threads == s.threads[i := s.threads[i].(pc := t.threads[i].pc)]
    requires t.threads[i].pc.LiveRetry? || t.threads[i].pc.Done?
    requires t == s.(threads := t.threads, effects := t.effects, savers := t.savers, lifecycle := t.lifecycle)
    requires t.lifecycle == s.lifecycle || t.lifecycle.Live? || t.lifecycle.RetryingDeferred?
    ensures Flow(t)
  {
    LiveIsOpen(s, i);
    assert !s.seen.reentered ==> Opened(t) by { hide Underway, NoneOf; }
    assert Current(s.threads[i], s.generation);
    hide OneWinner, Opened, Unopened, JobsOk, Streams;
    MoveFlow(s, t, i);
  }

  lemma ClearingFlow(s: State, i: nat, a: Answer)
    requires OneWinner(s) && Flow(s) && i < |s.threads| && s.threads[i].pc.Clearing?
    ensures Flow(OnClearing(s, i, a))
  {
    FinishFlow(s, i);
    var t := OnClearing(s, i, a);
    if !s.threads[i].pc.restIssued && !a.Failed? {
      hide OneWinner, Opened, Unopened, JobsOk, Streams;
      MoveFlow(s, t, i);
    } else if !Stale(s, i) && !a.Failed? {
      assert Current(s.threads[i], s.generation) && Early(s.threads[i]);
      assert Toggles(t) by { RetryingIsGuarded(s); }
      hide OneWinner, Opened, Unopened, JobsOk, Streams, Toggles;
      MoveFlow(s, t, i);
    }
  }

  /** Only handlers of input signals retry. */
  lemma RetryingIsGuarded(s: State)
    requires Flow(s)
    ensures s.chain.running.Some? && s.chain.running.value.retrying ==> !s.chain.running.value.job.origin.Local?
  {
  }

  lemma ResumeFlow(s: State, i: nat, a: Answer)
    requires OneWinner(s) && Flow(s) && i < |s.threads|
    ensures Flow(OnResume(s, i, a))
  {
    FinishFlow(s, i);
    hide OneWinner, Flow;
    match s.threads[i].pc
    case Loading => RouteFlow(s, i);
    case JoinSave => JoinedFlow(s, i);
    case RecoverSave => if !Stale(s, i) { RecoverFlow(s, i); }
    case Draining(_) => DrainingFlow(s, i, a);
    case AwaitingJob(_, _) => AwaitedFlow(s, i);
    case JoinTimer => TimerFlow(s, i);
    case CatchSave => if !Stale(s, i) { if a.Failed? { OpenFails(s, i); } else { OpenFlow(s, i, a); } }
    case BufferSave => if !Stale(s, i) { BufferFlow(s, i); }
    case LiveSave => LiveFlow(s, i, a);
    case LiveRetry(_) => LiveRetryFlow(s, i, a);
    case LateSave =>
    case Clearing(_) => ClearingFlow(s, i, a);
    case Done =>
  }

  lemma RecoverFlow(s: State, i: nat)
    requires Flow(s) && i < |s.threads| && s.threads[i].pc.RecoverSave?
    ensures Flow(Goto(s, i, Draining(ReplayDrain)))
  {
    hide Opened, Unopened, JobsOk, Streams;
    MoveFlow(s, Goto(s, i, Draining(ReplayDrain)), i);
  }

  // ------------------------------------------------ the other steps

  lemma ArriveFlow(s: State, g: nat, x: Signal)
    requires Flow(s)
    ensures Flow(OnArrive(s, g, x))
  {
    if g in s.subscriptions && g == s.generation {
      if s.lifecycle.CatchingUp? || s.lifecycle.BufferingLive? { BufferedFlow(s, x); } else { PushedFlow(s, x); }
    }
  }

  lemma BufferedFlow(s: State, x: Signal)
    requires Flow(s) && s.generation in s.subscriptions && (s.lifecycle.CatchingUp? || s.lifecycle.BufferingLive?)
    ensures Flow(OnArrive(s, s.generation, x))
  {
    var t := OnArrive(s, s.generation, x);
    assert Streams(t) by {
      if !s.seen.reentered {
        ConcatAssociates(s.seen.handledLive + Underway(s.chain, s.generation, Pushed), s.liveBuffer, [x]);
        hide Underway;
      }
    }
    hide Underway, Opened, Unopened, Waits, Placed;
  }

  lemma PushedFlow(s: State, x: Signal)
    requires Flow(s) && s.generation in s.subscriptions && !s.lifecycle.CatchingUp? && !s.lifecycle.BufferingLive?
    ensures Flow(OnArrive(s, s.generation, x))
  {
    var t := OnArrive(s, s.generation, x);
    EnqueueFlow(s, Enqueue(s, s.generation, Pushed, x), Pushed, x);
    assert Streams(t) by {
      hide Underway, NoneOf, JobsOk, Threads;
      if !s.seen.reentered { assert Opened(s) && Opened(t); }
    }
    hide JobsOk, Streams, Underway, NoneOf, OnlyId, OnlyLocal;
    forall j | 0 <= j < |s.threads| && Current(t.threads[j], t.generation)
      ensures Waits(t.threads[j], t.chain, t.generation) && Placed(t.threads[j], true, t.seen.reentered)
    {
      WaitsKeptPushed(s.threads[j], s.chain, t.chain, s.generation);
    }
  }

  lemma WaitsKeptPushed(t: Thread, c: Chain, d: Chain, gen: nat)
    requires Waits(t, c, gen) && !t.pc.Clearing?
    requires forall p :: p != Pushed && NoneOf(c, gen, p) ==> NoneOf(d, gen, p)
    requires forall p, id :: p != Pushed && OnlyId(c, gen, p, id) ==> OnlyId(d, gen, p, id)
    ensures Waits(t, d, gen)
  {
    WaitsKept(t, c, d, gen, Pushed);
  }

  lemma LocalFlow(s: State, x: Signal)
    requires Flow(s)
    ensures Flow(Enqueue(s, s.generation, Local, x))
  {
    var t := Enqueue(s, s.generation, Local, x);
    EnqueueFlow(s, t, Local, x);
    assert Streams(t) by { if !s.seen.reentered { ChainOpened(s, t); } }
    hide JobsOk, Opened, Unopened, Underway, NoneOf, OnlyId, OnlyLocal;
    forall j | 0 <= j < |s.threads| && Current(t.threads[j], t.generation)
      ensures Waits(t.threads[j], t.chain, t.generation)
    {
      WaitsKept(s.threads[j], s.chain, t.chain, s.generation, Local);
    }
  }

  /** The queue shrinks or a job changes hands, with the same signals under way. */
  lemma ChainFlow(s: State, t: State)
    requires Flow(s) && JobsOk(t) && Toggles(t)
    requires t == s.(chain := t.chain, finished := t.finished, effects := t.effects, lifecycle := t.lifecycle,
                     savers := t.savers, edits := t.edits)
    requires t.chain.running.Some? ==> LocalOnly(t.chain.running.value)
    requires forall o :: o != Local ==> Underway(t.chain, s.generation, o) == Underway(s.chain, s.generation, o)
    requires forall o :: o != Local && NoneOf(s.chain, s.generation, o) ==> NoneOf(t.chain, s.generation, o)
    requires forall o, id :: OnlyId(s.chain, s.generation, o, id) && o != Local ==> OnlyId(t.chain, s.generation, o, id)
    requires OnlyLocal(s.chain, s.generation) ==> OnlyLocal(t.chain, s.generation)
    requires t.lifecycle == s.lifecycle || s.seen.reentered ||
      ((s.lifecycle.Live? || s.lifecycle.RetryingDeferred?) && (t.lifecycle.Live? || t.lifecycle.RetryingDeferred?))
    ensures Flow(t)
  {
    hide NoneOf, OnlyId, OnlyLocal, Underway, JobsOk;
    assert Streams(t);
    forall j | 0 <= j < |s.threads| && Current(t.threads[j], t.generation)
      ensures Waits(t.threads[j], t.chain, t.generation)
    {
      assert Waits(s.threads[j], s.chain, s.generation);
    }
  }

  /** The head of the queue starts or is skipped. */
  lemma JobStartKeeps(s: State)
    requires JobsOk(s) && OnJobStart(s) != s
    ensures JobsOk(OnJobStart(s))
    ensures forall o :: NoneOf(s.chain, s.generation, o) && o != Local ==> NoneOf(OnJobStart(s).chain, s.generation, o)
    ensures forall o, id :: OnlyId(s.chain, s.generation, o, id) && o != Local ==> OnlyId(OnJobStart(s).chain, s.generation, o, id)
    ensures OnlyLocal(s.chain, s.generation) ==> OnlyLocal(OnJobStart(s).chain, s.generation)
  {
    var head := s.chain.pending[0];
    assert s.chain.pending == [head] + s.chain.pending[1..];
    forall o, id | o != Local && OnlyId(s.chain, s.generation, o, id)
      ensures OnlyId(OnJobStart(s).chain, s.generation, o, id)
    {
      assert Matches(head, s.generation, o) ==> head.id == id;
    }
  }

  lemma JobStartFlow(s: State)
    requires Flow(s)
    ensures Flow(OnJobStart(s))
  {
    var t := OnJobStart(s);
    if t != s {
      JobStartKeeps(s);
      hide JobsOk, SignalsOf, NoneOf, OnlyId, OnlyLocal;
      forall o | o != Local ensures Underway(t.chain, s.generation, o) == Underway(s.chain, s.generation, o) {
        HeadSignal(s.chain.pending, s.generation, o);
      }
      ChainFlow(s, t);
    }
  }

  lemma HeadSignal(jobs: seq<Job>, gen: nat, o: Origin)
    requires |jobs| > 0
    ensures SignalsOf(jobs, gen, o) ==
            (if Matches(jobs[0], gen, o) then [jobs[0].signal] else []) + SignalsOf(jobs[1..], gen, o)
  {
  }

  /** The running handler's flags change, its job does not. */
  lemma SameJobFlow(s: State, t: State)
    requires Flow(s) && Toggles(t) && s.chain.running.Some? && t.chain.running.Some?
    requires t == s.(chain := t.chain, effects := t.effects, lifecycle := t.lifecycle, savers := t.savers)
    requires t.chain.pending == s.chain.pending && t.chain.running.value.job == s.chain.running.value.job
    requires LocalOnly(t.chain.running.value)
    requires t.lifecycle == s.lifecycle ||
      ((s.lifecycle.Live? || s.lifecycle.RetryingDeferred?) && (t.lifecycle.Live? || t.lifecycle.RetryingDeferred?)) ||
      s.seen.reentered
    ensures Flow(t)
  {
    assert JobsOk(t);
    assert forall o, id :: OnlyId(s.chain, s.generation, o, id) ==> OnlyId(t.chain, s.generation, o, id);
    assert forall o :: NoneOf(s.chain, s.generation, o) ==> NoneOf(t.chain, s.generation, o);
    assert OnlyLocal(s.chain, s.generation) ==> OnlyLocal(t.chain, s.generation);
    assert forall o :: Underway(t.chain, s.generation, o) == Underway(s.chain, s.generation, o) by { hide SignalsOf; }
    hide JobsOk, NoneOf, OnlyId, OnlyLocal, Underway;
    ChainFlow(s, t);
  }

  /** A handler that is stale, or a local edit's, leaves the queue. */
  lemma LeavingFlow(s: State, announced: bool)
    requires Flow(s) && s.chain.running.Some?
    requires s.chain.running.value.job.gen != s.generation || s.chain.running.value.job.origin.Local?
    ensures Flow(EndJob(s, announced))
  {
    EndJobKeeps(s, announced);
    var t := EndJob(s, announced);
    assert OnlyLocal(s.chain, s.generation) ==> OnlyLocal(t.chain, s.generation);
    forall o | o != Local ensures Underway(t.chain, s.generation, o) == Underway(s.chain, s.generation, o) {
      assert [] + Underway(t.chain, s.generation, o) == Underway(t.chain, s.generation, o);
    }
    hide JobsOk, NoneOf, OnlyId, OnlyLocal, Underway;
    ChainFlow(s, t);
  }

  lemma JobStepFlow(s: State, k: JobAction)
    requires Flow(s)
    ensures Flow(OnJobStep(s, k))
  {
    if s.chain.running.Some? && Resumes(s.chain.running.value.due) {
      var run := s.chain.running.value;
      if run.job.gen != s.generation {
        LeavingFlow(s, false);
      } else if run.due.AnnounceDue? {
        AnnounceFlow(s);
      } else {
        var t := OnJobStep(s, k);
        assert LocalOnly(t.chain.running.value);
        assert Toggles(t);
        hide Flow, Toggles;
        SameJobFlow(s, t);
      }
    }
  }

  /** Only a local edit is announced in this way. */
  lemma AnnounceFlow(s: State)
    requires Flow(s) && s.chain.running.Some? && s.chain.running.value.due.AnnounceDue?
    ensures Flow(EndJob(Act(s, s.chain.running.value.job.gen, Emission), true))
  {
    var s1 := Act(s, s.chain.running.value.job.gen, Emission);
    assert s.chain.running.value.job.origin.Local?;
    SameJobFlow(s, s1);
    hide Flow;
    LeavingFlow(s1, true);
  }

  lemma JobDueFlow(s: State, lands: bool)
    requires Flow(s)
    ensures Flow(OnJobDue(s, lands))
  {
    if s.chain.running.Some? { SameJobFlow(s, OnJobDue(s, lands)); }
  }

  /** A stale or finished handler leaves the queue. */
  lemma EndJobKeeps(s: State, announced: bool)
    requires JobsOk(s) && s.chain.running.Some?
    ensures JobsOk(EndJob(s, announced))
    ensures forall o :: NoneOf(s.chain, s.generation, o) ==> NoneOf(EndJob(s, announced).chain, s.generation, o)
    ensures forall o, id :: OnlyId(s.chain, s.generation, o, id) ==> OnlyId(EndJob(s, announced).chain, s.generation, o, id)
    ensures forall o :: Underway(s.chain, s.generation, o) ==
                        Own(s.chain.running.value.job, s.generation, o) + Underway(EndJob(s, announced).chain, s.generation, o)
  {
    forall o ensures Underway(s.chain, s.generation, o) ==
                     Own(s.chain.running.value.job, s.generation, o) + Underway(EndJob(s, announced).chain, s.generation, o)
    {
      assert [] + SignalsOf(s.chain.pending, s.generation, o) == SignalsOf(s.chain.pending, s.generation, o);
    }
  }

  lemma JobEndFlow(s: State)
    requires Flow(s)
    ensures Flow(OnJobEnd(s))
  {
    var t := OnJobEnd(s);
    if t != s {
      var job := s.chain.running.value.job;
      EndJobKeeps(s, false);
      assert OnlyLocal(s.chain, s.generation) ==> OnlyLocal(t.chain, s.generation);
      if job.gen != s.generation {
        LeavingFlow(s, false);
      } else {
        HandledStreams(s, t, job);
        assert forall j :: 0 <= j < |s.threads| && Current(t.threads[j], t.generation) ==>
          Waits(t.threads[j], t.chain, t.generation) by { hide Underway; }
      }
    }
  }

  lemma HandledStreams(s: State, t: State, job: Job)
    requires Streams(s) && s.chain.running.Some? && s.chain.running.value.job == job && job.gen == s.generation
    requires t == EndJob(s, false).(seen := Handled(s.seen, job))
    requires forall o :: NoneOf(s.chain, s.generation, o) ==> NoneOf(t.chain, s.generation, o)
    requires forall o :: Underway(s.chain, s.generation, o) == Own(job, s.generation, o) + Underway(t.chain, s.generation, o)
    ensures Streams(t)
  {
    assert NoneOf(s.chain, s.generation, Pushed) ==> job.origin != Pushed;
    assert NoneOf(s.chain, s.generation, Origin.Historical) ==> job.origin != Origin.Historical;
    hide NoneOf, Underway;
    assert Underway(s.chain, s.generation, Bootstrap) == Own(job, s.generation, Bootstrap) + Underway(t.chain, s.generation, Bootstrap);
    assert Underway(s.chain, s.generation, Pushed) == Own(job, s.generation, Pushed) + Underway(t.chain, s.generation, Pushed);
    if !s.seen.reentered {
      if s.generation in s.subscriptions { assert Opened(t); } else { assert Unopened(t); }
    }
  }

  lemma BesideFlow(s: State, t: State)
    requires Flow(s) && Beside(s, t)
    ensures Flow(t)
  {
    hide Underway, Waits, Placed;
    if !s.seen.reentered { OpenedBy(s, t); }
  }

  /** Every job is older than a new generation. */
  lemma NothingOfItsOwn(t: State)
    requires t.chain.running.Some? ==> t.chain.running.value.job.gen < t.generation
    requires forall k :: 0 <= k < |t.chain.pending| ==> t.chain.pending[k].gen < t.generation
    ensures OnlyLocal(t.chain, t.generation) && forall o :: NoneOf(t.chain, t.generation, o)
  {
  }

  lemma FreshStreams(t: State)
    requires t.seen == NOTHING_SEEN && t.generation !in t.subscriptions && forall o :: NoneOf(t.chain, t.generation, o)
    ensures Streams(t)
  {
    NoneUnderway(t.chain, t.generation, Bootstrap);
    hide NoneOf, Underway;
  }

  lemma FreshThreads(s: State, t: State)
    requires t.generation !in t.subscriptions && !t.seen.reentered
    requires OnlyLocal(t.chain, t.generation) && forall o :: NoneOf(t.chain, t.generation, o)
    requires |t.threads| == |s.threads| || |t.threads| == |s.threads| + 1
    requires forall i :: 0 <= i < |s.threads| ==> !Current(t.threads[i], t.generation)
    requires |t.threads| > |s.threads| ==> t.threads[|s.threads|].pc.Loading? || t.threads[|s.threads|].pc.Clearing?
    ensures Threads(t)
  {
    hide NoneOf, OnlyLocal;
  }

  /** A new generation starts with nothing seen and nothing of its own on the queue. */
  lemma FreshFlow(s: State, t: State)
    requires OneWinner(s) && Flow(s) && t.generation == s.generation + 1 && t.seen == NOTHING_SEEN
    requires (t.chain == s.chain && t.finished == s.finished && t.nextJob == s.nextJob) ||
             (t.chain == Chain([], None) && t.finished == s.finished && t.nextJob == s.nextJob)
    requires t.subscriptions <= s.subscriptions
    requires |t.threads| == |s.threads| || |t.threads| == |s.threads| + 1
    requires forall i :: 0 <= i < |s.threads| ==> t.threads[i].gen == s.threads[i].gen
    requires |t.threads| > |s.threads| ==> t.threads[|s.threads|].pc.Loading? || t.threads[|s.threads|].pc.Clearing?
    ensures Flow(t)
  {
    hide Streams, Waits, Placed, Tallied;
    assert t.generation !in t.subscriptions;
    forall i | 0 <= i < |s.threads| ensures !Current(t.threads[i], t.generation) {
      assert s.threads[i].gen <= s.generation;
    }
    assert JobsOk(t);
    hide OneWinner, Threads;
    NothingOfItsOwn(t);
    FreshStreams(t);
    FreshThreads(s, t);
    hide JobsOk;
  }

  lemma BumpFlow(s: State, welcome: bool)
    requires OneWinner(s) && Flow(s)
    ensures Flow(OnStart(s, welcome)) && Flow(OnStop(s)) && Flow(OnReset(s))
  {
    hide Flow, EnterJoining;
    if s.lifecycle.Uninitialized? && !Starting(s) {
      var s1 := s.(generation := s.generation + 1, seen := NOTHING_SEEN);
      var s2 := Spawn(s1, Thread(s1.generation, Loading, true));
      assert forall i :: 0 <= i < |s.threads| ==> s2.threads[i] == s.threads[i];
      FreshFlow(s, s2);
      StartIsFresh(s, s2);
      RouteFlow(s2, |s.threads|);
    }
    if !s.lifecycle.Stopped? && !s.lifecycle.Uninitialized? { FreshFlow(s, OnStop(s)); }
    FreshFlow(s, OnReset(s));
  }

  lemma StepFlow(s: State, l: Label)
    requires OneWinner(s) && Flow(s)
    ensures OneWinner(Step(s, l)) && Flow(Step(s, l))
  {
    assert Toggles(s);
    RetriesAreOpened(s);
    WinnerStep(s, l);
    hide OneWinner, Flow, OnStart, OnResume, OnArrive, OnJobStart, OnJobStep, OnJobDue, OnJobEnd, OnOldJob, OnSaver, OnStop, OnReset;
    match l
    case Start(welcome) => BumpFlow(s, welcome);
    case Resume(i, a) => if i < |s.threads| { ResumeFlow(s, i, a); }
    case Arrive(g, x) => ArriveFlow(s, g, x);
    case AcceptLocal(x) => LocalFlow(s, x);
    case JobStart => JobStartFlow(s);
    case JobStep(k) => JobStepFlow(s, k);
    case JobDue(lands) => JobDueFlow(s, lands);
    case JobEnd => JobEndFlow(s);
    case OldJob(c, k) => OldIsBeside(s, c, k); BesideFlow(s, OnOldJob(s, c, k));
    case SaverStep(k, a) => if k < |s.savers| { SaverIsBeside(s, k, a); BesideFlow(s, OnSaver(s, k, a)); }
    case Stop => BumpFlow(s, false);
    case Reset => BumpFlow(s, false);
  }

  lemma RetriesAreOpened(s: State)
    requires Flow(s)
    ensures RetriesOpened(s)
  {
  }

  // ------------------------------------------------ every run

  lemma {:induction false} RunKeeps(s: State, ls: seq<Label>)
    requires OneWinner(s) && Flow(s)
    ensures OneWinner(Run(s, ls)) && Flow(Run(s, ls))
    decreases ls
  {
    hide OneWinner, Flow, Step;
    if |ls| > 0 {
      StepFlow(s, ls[0]);
      RunKeeps(Step(s, ls[0]), ls[1..]);
    }
  }

  lemma EveryRunKeeps(ls: seq<Label>)
    ensures OneWinner(Run(INITIAL, ls)) && Flow(Run(INITIAL, ls))
  {
    InitialKeeps();
    hide Run, OneWinner, Flow;
    RunKeeps(INITIAL, ls);
  }

  lemma InitialKeeps()
    ensures OneWinner(INITIAL) && Flow(INITIAL)
  {
    NoneUnderway(INITIAL.chain, 0, Bootstrap);
  }

  /** Live cutover, in every run without a re-entry and at every moment: what has
      arrived is what has been handled, then what is in a handler or queued,
      then what is buffered; and no historical signal is handled after a live one. */
  lemma CutoverLosesNothing(ls: seq<Label>)
    requires !Run(INITIAL, ls).seen.reentered && Run(INITIAL, ls).generation in Run(INITIAL, ls).subscriptions
    ensures var s := Run(INITIAL, ls);
            s.seen.arrived == s.seen.handledLive + Underway(s.chain, s.generation, Pushed) + s.liveBuffer &&
            s.seen.handledLive <= s.seen.arrived && PushedAfterHistory(s.seen.order) &&
            (s.lifecycle.Live? || s.lifecycle.RetryingDeferred? ==> s.liveBuffer == [])
  {
    hide Run;
    EveryRunKeeps(ls);
    var s := Run(INITIAL, ls);
    assert Opened(s) by { assert Streams(s); }
    assert s.seen.arrived == s.seen.handledLive + (Underway(s.chain, s.generation, Pushed) + s.liveBuffer);
  }

  /** The sole historical drain is opened at most once per start, whichever of
      drain completion, drain failure and join timer comes first; the guard that
      would throw is never reached without a re-entry. */
  lemma DrainsOnce(ls: seq<Label>, i: nat)
    ensures Run(INITIAL, ls).seen.drains <= 1
    ensures var s := Run(INITIAL, ls);
            i < |s.threads| && s.threads[i].pc.CatchSave? && !Stale(s, i) && !s.seen.reentered ==> s.catchUps == 0
  {
    hide Run;
    EveryRunKeeps(ls);
  }

  /** The step that may set bootstrapCompleted: a bootstrap drain that has ended,
      before or after the timer, or a start that recovers. */
  predicate Completes(s: State, l: Label) {
    l.Resume? && l.thread < |s.threads| && !Stale(s, l.thread) &&
    ((s.threads[l.thread].pc == Draining(FetchDrain) && l.answer.Ended?) ||
     (s.threads[l.thread].pc.Loading? && l.answer.RouteRecover?))
  }

  lemma OnlyTheseComplete(s: State, l: Label)
    requires !s.bootstrapCompleted
    ensures Step(s, l).bootstrapCompleted <==> Completes(s, l)
  {
    hide OnResume, OnJobStart, OnJobStep, OnOldJob, OnSaver;
    match l
    case Resume(i, a) => if i < |s.threads| { ResumeCompletes(s, i, a); }
    case SaverStep(k, a) => if k < |s.savers| { SaverIsBeside(s, k, a); }
    case JobStart => QueueKeepsCompletion(s, DoWrite);
    case JobStep(k) => QueueKeepsCompletion(s, k);
    case OldJob(c, k) => OldIsBeside(s, c, k);
    case _ =>
  }

  lemma QueueKeepsCompletion(s: State, k: JobAction)
    ensures OnJobStart(s).bootstrapCompleted == OnJobStep(s, k).bootstrapCompleted == s.bootstrapCompleted
  {
  }

  lemma ResumeCompletes(s: State, i: nat, a: Answer)
    requires !s.bootstrapCompleted && i < |s.threads|
    ensures OnResume(s, i, a).bootstrapCompleted <==>
            !Stale(s, i) && ((s.threads[i].pc == Draining(FetchDrain) && a.Ended?) || (s.threads[i].pc.Loading? && a.RouteRecover?))
  {
    hide OnDraining, Throw, DrainBuffer, EnterCatchingUp;
    ThrowKeepsCompletion(s, i);
    match s.threads[i].pc
    case Draining(_) => DrainingCompletes(s, i, a);
    case CatchSave =>
      var s1 := s.(liveBuffer := [], subscriptions := s.subscriptions + {s.threads[i].gen}, catchUps := s.catchUps + 1);
      ThrowKeepsCompletion(s1, i);
      ThrowKeepsCompletion(s.(liveBuffer := []), i);
    case JoinTimer => ThrowKeepsCompletion(s.(timerFired := true), i);
    case _ =>
  }

  lemma ThrowKeepsCompletion(s: State, i: nat)
    requires i < |s.threads|
    ensures Throw(s, i).bootstrapCompleted == s.bootstrapCompleted
    ensures DrainBuffer(s, i).bootstrapCompleted == s.bootstrapCompleted
    ensures EnterCatchingUp(s, i).bootstrapCompleted == s.bootstrapCompleted
  {
  }

  lemma DrainingCompletes(s: State, i: nat, a: Answer)
    requires !s.bootstrapCompleted && i < |s.threads| && s.threads[i].pc.Draining?
    ensures OnDraining(s, i, a).bootstrapCompleted <==> !Stale(s, i) && s.threads[i].pc.drain.FetchDrain? && a.Ended?
  {
  }

  lemma CompletionSays(s: State, l: Label)
    requires Completes(s, l)
    ensures Step(s, l).seen == s.seen.(drained := Step(s, l).seen.drained)
  {
  }

  /** In every run, bootstrapCompleted becomes true exactly at such a step, and
      then every message the drain has yielded has been handled. */
  lemma BootstrapCompletesLast(ls: seq<Label>, l: Label)
    requires !Run(INITIAL, ls).bootstrapCompleted
    ensures var t := Step(Run(INITIAL, ls), l);
            (t.bootstrapCompleted <==> Completes(Run(INITIAL, ls), l)) &&
            (t.bootstrapCompleted ==> t.seen.handledBootstrap == t.seen.yielded)
  {
    EveryRunKeeps(ls);
    var s := Run(INITIAL, ls);
    hide Run;
    OnlyTheseComplete(s, l);
    if Completes(s, l) {
      assert Current(s.threads[l.thread], s.generation);
      NoneUnderway(s.chain, s.generation, Bootstrap);
      hide OneWinner, Flow;
      CompletionSays(s, l);
    }
  }
}
