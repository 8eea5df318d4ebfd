/** What the histories say of the engine object itself. */

module EngineSessions {
  import opened EngineTypes
  import opened EventLog
  import DeferredQueue
  import opened EngineSpec
  import opened EngineSafety
  import opened EngineRuns
  import opened EngineHistory
  import opened EngineMirrors
  import opened EngineLatch
  import opened ReceiveEngines

  /** A fresh engine object on a sound disk: whatever it is then given, it is
      safe to crash at every await, and between handlers its queue agrees with
      the stored list. The adapter answers a resubmission only if there is one. */
  method RunSession(engine: ReceiveEngine, ses: Session)
    requires engine.Valid() && engine.trace == [] && engine.View().mem == FRESH_MEMORY && engine.View().out == []
    requires var s := engine.View();
             DiskOk(engine.Cfg(), s.disk, s.ledger) && NothingLost(s.disk, s.ledger, Watermark(s.disk)) &&
             SessionOk(engine.Cfg(), s.disk, s.ledger, ses) &&
             (!RouteOf(s.disk).Join? && GapFacts(s.disk.facts, Watermark(s.disk)) == [] ==> ses.replay == [])
    requires forall d :: d in ses.replay ==> engine.Plausible(d)
    requires forall c :: c in ses.commands ==> engine.PlausibleCommand(c)
    modifies engine, engine.persistence, engine.ingestPolicy
    ensures var s := old(engine.View());
            engine.trace == SessionTrace(engine.Cfg(), s.disk, s.ledger, ses) &&
            AllSafe(engine.Cfg(), engine.trace) &&
            (Agrees(s.disk) ==> engine.View().disk.deferred == DeferredQueue.Ids(engine.View().mem.queue))
  {
    ghost var s, cfg := engine.View(), engine.Cfg();
    assert Numbered(s.disk.facts);
    SessionInv(cfg, s.disk, s.ledger, ses);
    hide SessionTrace, SessionOk, DiskOk, NothingLost, Agrees, Watermark;
    RunTrace(engine, ses);
    FineMeans(cfg, StartState(s.disk, s.ledger), engine.trace, Agrees(s.disk));
  }

  lemma FineMeans(cfg: Config, s: State, t: seq<State>, agree: bool)
    requires Fine(cfg, s, t, agree)
    ensures AllSafe(cfg, t) && (agree ==> End(s, t).disk.deferred == DeferredQueue.Ids(End(s, t).mem.queue))
  {
  }

  /** The object goes through exactly the states of the session's trace. */
  method RunTrace(engine: ReceiveEngine, ses: Session)
    requires engine.Valid() && engine.trace == [] && engine.View().mem == FRESH_MEMORY && engine.View().out == []
    requires Numbered(engine.View().disk.facts)
    requires !RouteOf(engine.View().disk).Join? && GapFacts(engine.View().disk.facts, Watermark(engine.View().disk)) == [] ==>
      ses.replay == []
    requires forall d :: d in ses.replay ==> engine.Plausible(d)
    requires forall c :: c in ses.commands ==> engine.PlausibleCommand(c)
    modifies engine, engine.persistence, engine.ingestPolicy
    ensures var s := old(engine.View());
            engine.trace == SessionTrace(engine.Cfg(), s.disk, s.ledger, ses) &&
            engine.View() == End(StartState(s.disk, s.ledger), engine.trace)
  {
    ghost var s, cfg := engine.View(), engine.Cfg();
    hide StartTrace, OnCommands, GapFacts, RouteOf, StartState, Watermark, Numbered, ReceiveEngine.View, End;
    StartIsNotEmpty(cfg, s.disk, s.ledger, ses);
    var gap := engine.Start(ses);
    ghost var t := StartTrace(cfg, s.disk, s.ledger, ses);
    SameStart(cfg, s.disk, s.ledger, ses, gap);
    assert engine.trace == [] + t == t;
    FirstFrom(s, StartState(s.disk, s.ledger), t);
    engine.RunCommands(ses.commands);
    EndAppend(StartState(s.disk, s.ledger), t, OnCommands(cfg, End(s, t), ses.commands));
  }

  lemma FirstFrom(a: State, b: State, t: seq<State>)
    requires |t| > 0
    ensures End(a, t) == End(b, t)
  {
  }

  lemma StartIsNotEmpty(cfg: Config, d: Disk, l: Ledger, ses: Session)
    requires DeferredQueue.ValidOptions(cfg.options)
    ensures |StartTrace(cfg, d, l, ses)| > 0
  {
  }

  lemma SameStart(cfg: Config, d: Disk, l: Ledger, ses: Session, gap: seq<RawFact>)
    requires DeferredQueue.ValidOptions(cfg.options)
    requires gap == match RouteOf(d)
                    case Join => []
                    case Recover(c) => GapFacts(d.facts, c.lastIngestedSeq)
                    case PreserveAndReplay => GapFacts(d.facts, 0)
    requires !RouteOf(d).Join? && GapFacts(d.facts, Watermark(d)) == [] ==> ses.replay == []
    ensures StartTrace(cfg, d, l, if gap == [] then ses.(replay := []) else ses) == StartTrace(cfg, d, l, ses)
  {
    hide GapFacts, Recovery;
    if !RouteOf(d).Join? && gap == [] { assert ses.(replay := []) == ses; }
  }

  /** start() on the object: it has announced joining, and nothing else, exactly if
      the checkpoint says that the bootstrap is not complete, or nothing is stored;
      otherwise it announces recovering first and ends in catching_up. Memory and
      checkpoint then say that the bootstrap is complete just if it did not join. */
  method StartRoute(engine: ReceiveEngine, ses: Session)
    requires engine.Valid() && engine.trace == [] && engine.View().mem == FRESH_MEMORY && engine.View().out == []
    requires Numbered(engine.View().disk.facts)
    requires forall d :: d in ses.replay ==> engine.Plausible(d)
    modifies engine, engine.persistence, engine.ingestPolicy
    ensures engine.outputs == [StateChanged(Joining)] <==> Joins(old(engine.View()).disk)
    ensures !Joins(old(engine.View()).disk) ==>
      |engine.outputs| > 0 && engine.outputs[0] == StateChanged(Recovering) && engine.lifecycle.CatchingUp?
    ensures engine.bootstrapCompleted == !Joins(old(engine.View()).disk)
    ensures engine.View().disk.checkpoint.Some? &&
            engine.View().disk.checkpoint.value.bootstrapCompleted == engine.bootstrapCompleted
  {
    ghost var s, cfg := engine.View(), engine.Cfg();
    hide StartTrace, GapFacts, RouteOf, Numbered, Joins;
    var gap := engine.Start(ses);
    ghost var ses' := if gap == [] then ses.(replay := []) else ses;
    StartAnnounces(cfg, s.disk, s.ledger, ses');
    StartMirrors(cfg, s.disk, s.ledger, ses');
    LastMirrors(cfg, s.disk, s.ledger, ses');
    ghost var t := StartTrace(cfg, s.disk, s.ledger, ses');
    assert engine.View() == LastOf(t);
  }

  lemma LastMirrors(cfg: Config, d: Disk, l: Ledger, ses: Session)
    requires DeferredQueue.ValidOptions(cfg.options)
    ensures |StartTrace(cfg, d, l, ses)| > 0
    ensures var s := LastOf(StartTrace(cfg, d, l, ses));
            s.mem.bootstrapCompleted == !Joins(d) && s.disk.checkpoint.Some? && s.disk.checkpoint.value.bootstrapCompleted == !Joins(d)
  {
    StartMirrors(cfg, d, l, ses);
    FirstAnnouncement(d, l);
    var t := StartTrace(cfg, d, l, ses);
    hide StartTrace, StartState;
    assert Mirrors(t[|t| - 1], BaseOf(d, StartState(d, l)));
  }

  /** The object, given commands among which is an epoch advance and then the entry
      into live: it announces live and recovered, and hands over a batch in which
      every entry that is parked and due has one attempt more. */
  method GoLive(engine: ReceiveEngine, before: seq<Command>, passes: seq<Pass>)
    requires engine.Valid() && !engine.lifecycle.Live? && forall c :: c in before ==> !(c.Enter? && c.phase.Live?)
    requires exists c :: c in before && c.Deliver? && c.delivery.signal.EpochAdvanced?
    requires |passes| > 0 && engine.AllPlausible(passes) && forall c :: c in before ==> engine.PlausibleCommand(c)
    modifies engine, engine.persistence, engine.ingestPolicy
    ensures var s := End(old(engine.View()), OnCommands(engine.Cfg(), old(engine.View()), before));
            DeferredQueue.UniqueIds(s.mem.queue) ==>
            forall e :: e in s.mem.queue && Due(engine.Cfg(), e, passes[0].now) ==>
              exists k :: 0 <= k < |engine.trace| && Retries(s, engine.trace[k], e) && engine.trace[k].out <= engine.outputs
  {
    ghost var s0, cfg := engine.View(), engine.Cfg();
    hide OnCommands, OnEnter, Due, DeferredQueue.UniqueIds, Retries;
    engine.RunCommands(before);
    ghost var s, was := engine.View(), engine.trace;
    RequestIsKept(cfg, s0, before);
    engine.EnterLive(passes);
    ghost var t := OnEnter(cfg, s, Live, passes);
    forall e | e in s.mem.queue && Due(cfg, e, passes[0].now) && DeferredQueue.UniqueIds(s.mem.queue)
      ensures exists k :: 0 <= k < |engine.trace| && Retries(s, engine.trace[k], e) && engine.trace[k].out <= engine.outputs
    {
      LiveMakesThePass(cfg, s, passes, e);
      var k :| 0 <= k < |t| && Retries(s, t[k], e) && t[k].out <= End(s, t).out;
      assert engine.trace[|was| + k] == t[k];
    }
  }
}
