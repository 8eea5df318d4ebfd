/** Overlapping checkpoint saves of one session
    (src/engine/receive-engine.ts:630-664, 717-719): each save tries once, a
    failed one retries in the background with whatever the engine's state then
    is, unless a newer save has been committed meanwhile. */

module CheckpointSaves {
  import opened Wrappers
  import Types = EngineTypes
  import Spec = EngineSpec

  /** The part of a checkpoint that must not go back. */
  datatype Snapshot = Snapshot(seqNo: nat, bootstrapped: bool)

  predicate Below(a: Snapshot, b: Snapshot) {
    a.seqNo <= b.seqNo && (a.bootstrapped ==> b.bootstrapped)
  }

  const MAX_RETRIES: nat := 8

  datatype Phase = InFlight | Landed | Failed | BackingOff | Done | GivenUp

  /** `asked`: the engine's state when the save was called; its counter is its position plus one. */
  datatype Save = Save(asked: Snapshot, phase: Phase, retries: nat)

  datatype Write = Write(save: nat, snapshot: Snapshot)

  datatype State = State(memory: Snapshot, saves: seq<Save>, queue: seq<Write>, store: Snapshot, lastCommitted: nat)

  datatype Label = Advance(seqNo: nat) | Complete | Call | Lands | Fails | Resumes(i: nat) | Wakes(i: nat)

  function WithPhase(s: State, i: nat, p: Phase): (r: State)
    requires i < |s.saves|
  {
    s.(saves := s.saves[i := s.saves[i].(phase := p)])
  }

  /** One background attempt: superseded, it ends without a write; otherwise it
      writes the state of this moment. */
  function TryAgain(s: State, i: nat): (r: State)
    requires i < |s.saves|
  {
    if i + 1 <= s.lastCommitted then WithPhase(s, i, Done)
    else
      s.(saves := s.saves[i := s.saves[i].(phase := InFlight, retries := s.saves[i].retries + 1)],
         queue := s.queue + [Write(i, s.memory)])
  }

  function OnResumes(s: State, i: nat): (r: State)
    requires i < |s.saves|
  {
    match s.saves[i].phase
    case Landed => WithPhase(s, i, Done).(lastCommitted := if i + 1 > s.lastCommitted then i + 1 else s.lastCommitted)
    case Failed =>
      if s.saves[i].retries == 0 then TryAgain(s, i)
      else WithPhase(s, i, if s.saves[i].retries >= MAX_RETRIES then GivenUp else BackingOff)
    case _ => s
  }

  /** The write at position k of those in flight reaches the store. */
  function LandsAt(s: State, k: nat): (r: State)
    requires k < |s.queue|
  {
    var w := s.queue[k];
    var s1 := s.(store := w.snapshot, queue := s.queue[..k] + s.queue[k + 1..]);
    if w.save < |s.saves| then WithPhase(s1, w.save, Landed) else s1
  }

  /** Writes land, or fail, in the order in which they were issued. */
  function Step(s: State, l: Label): (r: State) {
    match l
    case Advance(n) => if n > s.memory.seqNo then s.(memory := s.memory.(seqNo := n)) else s
    case Complete => s.(memory := s.memory.(bootstrapped := true))
    case Call => s.(saves := s.saves + [Save(s.memory, InFlight, 0)], queue := s.queue + [Write(|s.saves|, s.memory)])
    case Lands => if |s.queue| > 0 then LandsAt(s, 0) else s
    case Fails =>
      if |s.queue| == 0 then s
      else
        var s1 := s.(queue := s.queue[1..]);
        if s.queue[0].save < |s.saves| then WithPhase(s1, s.queue[0].save, Failed) else s1
    case Resumes(i) => if i < |s.saves| then OnResumes(s, i) else s
    case Wakes(i) => if i < |s.saves| && s.saves[i].phase.BackingOff? then TryAgain(s, i) else s
  }

  function Run(s: State, ls: seq<Label>): (r: State)
    decreases ls
  {
    if |ls| == 0 then s else Run(Step(s, ls[0]), ls[1..])
  }

  // ------------------------------------------------ what every run keeps

  /** The store lies below everything in flight, which ascends to the engine's state. */
  predicate Ascending(s: State) {
    Below(s.store, s.memory) &&
    (forall k :: 0 <= k < |s.queue| ==>
      Below(s.store, s.queue[k].snapshot) && Below(s.queue[k].snapshot, s.memory) &&
      s.queue[k].save < |s.saves| && Below(s.saves[s.queue[k].save].asked, s.queue[k].snapshot)) &&
    (forall k, m :: 0 <= k < m < |s.queue| ==> Below(s.queue[k].snapshot, s.queue[m].snapshot))
  }

  /** A landed, finished or superseded save has its own state, or a newer one, in the store. */
  predicate Committed(s: State) {
    s.lastCommitted <= |s.saves| &&
    (forall i :: 0 <= i < |s.saves| ==> Below(s.saves[i].asked, s.memory)) &&
    (forall i, j :: 0 <= i < j < |s.saves| ==> Below(s.saves[i].asked, s.saves[j].asked)) &&
    (forall i :: 0 <= i < |s.saves| && (s.saves[i].phase.Landed? || s.saves[i].phase.Done? || i < s.lastCommitted) ==>
      Below(s.saves[i].asked, s.store))
  }

  lemma IssueAscends(s: State, i: nat)
    requires Ascending(s) && Committed(s) && i < |s.saves|
    ensures Ascending(OnResumes(s, i)) && Ascending(TryAgain(s, i))
    ensures OnResumes(s, i).store == s.store == TryAgain(s, i).store
  {
    var t := TryAgain(s, i);
    assert forall k :: 0 <= k < |s.queue| ==> t.queue[k] == s.queue[k];
    assert forall j :: 0 <= j < |s.saves| ==> t.saves[j].asked == s.saves[j].asked;
    hide Committed;
  }

  /** The head of the queue is answered. */
  lemma HeadAscends(s: State, t: State)
    requires Ascending(s) && |s.queue| > 0 && t.queue == s.queue[1..] && t.memory == s.memory
    requires t.store == s.store || t.store == s.queue[0].snapshot
    requires |t.saves| == |s.saves| && forall j :: 0 <= j < |s.saves| ==> t.saves[j].asked == s.saves[j].asked
    ensures Ascending(t) && Below(s.store, t.store)
  {
    assert forall k :: 0 <= k < |t.queue| ==> t.queue[k] == s.queue[k + 1];
  }

  lemma LandingAscends(s: State)
    requires Ascending(s) && |s.queue| > 0
    ensures Ascending(Step(s, Lands)) && Ascending(Step(s, Fails))
    ensures Below(s.store, Step(s, Lands).store) && Step(s, Fails).store == s.store
  {
    assert s.queue[..0] + s.queue[1..] == s.queue[1..];
    hide Ascending;
    HeadAscends(s, Step(s, Lands));
    HeadAscends(s, Step(s, Fails));
  }

  lemma StepAscends(s: State, l: Label)
    requires Ascending(s) && Committed(s)
    ensures Ascending(Step(s, l)) && Below(s.store, Step(s, l).store)
  {
    match l
    case Lands => if |s.queue| > 0 { LandingAscends(s); }
    case Fails => if |s.queue| > 0 { LandingAscends(s); }
    case Resumes(i) => if i < |s.saves| { IssueAscends(s, i); }
    case Wakes(i) => if i < |s.saves| { IssueAscends(s, i); }
    case Call =>
      var t := Step(s, l);
      assert forall j :: 0 <= j < |s.saves| ==> t.saves[j] == s.saves[j];
      assert forall k :: 0 <= k < |s.queue| ==> t.queue[k] == s.queue[k];
    case _ =>
  }

  lemma LandingCommits(s: State)
    requires Ascending(s) && Committed(s) && |s.queue| > 0
    ensures Committed(Step(s, Lands)) && Committed(Step(s, Fails))
  {
  }

  lemma ResumingCommits(s: State, i: nat)
    requires Ascending(s) && Committed(s) && i < |s.saves|
    ensures Committed(OnResumes(s, i)) && Committed(TryAgain(s, i))
  {
  }

  lemma StepCommits(s: State, l: Label)
    requires Ascending(s) && Committed(s)
    ensures Committed(Step(s, l))
  {
    match l
    case Lands => if |s.queue| > 0 { LandingCommits(s); }
    case Fails => if |s.queue| > 0 { LandingCommits(s); }
    case Resumes(i) => if i < |s.saves| { ResumingCommits(s, i); }
    case Wakes(i) => if i < |s.saves| { ResumingCommits(s, i); }
    case _ =>
  }

  lemma {:induction false} RunRises(s: State, ls: seq<Label>)
    requires Ascending(s) && Committed(s)
    ensures Ascending(Run(s, ls)) && Committed(Run(s, ls)) && Below(s.store, Run(s, ls).store)
    decreases ls
  {
    hide Ascending, Committed, Step;
    if |ls| > 0 {
      StepAscends(s, ls[0]);
      StepCommits(s, ls[0]);
      RunRises(Step(s, ls[0]), ls[1..]);
    }
  }

  lemma {:induction false} RunInTwo(s: State, a: seq<Label>, b: seq<Label>)
    ensures Run(s, a + b) == Run(Run(s, a), b)
    decreases a
  {
    hide Step;
    if |a| == 0 {
      assert a + b == b;
    } else {
      assert (a + b)[0] == a[0] && (a + b)[1..] == a[1..] + b;
      RunInTwo(Step(s, a[0]), a[1..], b);
    }
  }

  predicate Fresh(s: State) {
    s.saves == [] && s.queue == [] && s.lastCommitted == 0
  }

  predicate Opens(s: State) {
    Fresh(s) && Below(s.store, s.memory)
  }

  /** In a session that starts at or above its stored checkpoint, with any
      overlap of saves, failures and background retries, the stored watermark
      never falls and bootstrapCompleted never turns back to false. */
  lemma CheckpointsNeverGoBack(start: State, earlier: seq<Label>, later: seq<Label>)
    requires Opens(start)
    ensures var a, b := Run(start, earlier).store, Run(start, earlier + later).store;
            a.seqNo <= b.seqNo && (a.bootstrapped ==> b.bootstrapped)
  {
    assert Ascending(start) && Committed(start);
    hide Run;
    RunRises(start, earlier);
    RunRises(Run(start, earlier), later);
    RunInTwo(start, earlier, later);
  }

  /** A save that is finished without giving up has made durable at least what
      the engine knew when it was called, also when it stood back for a newer one. */
  lemma FinishedSavesAreDurable(start: State, ls: seq<Label>, i: nat)
    requires Opens(start) && i < |Run(start, ls).saves| && Run(start, ls).saves[i].phase.Done?
    ensures Below(Run(start, ls).saves[i].asked, Run(start, ls).store)
  {
    assert Ascending(start) && Committed(start);
    hide Run;
    RunRises(start, ls);
  }

  // ------------------------------------------------ failures are retried

  /** Who has given up has failed in every one of its retries; who waits has some left. */
  predicate Persistent(s: State) {
    forall i :: 0 <= i < |s.saves| ==>
      (s.saves[i].phase.GivenUp? ==> s.saves[i].retries == MAX_RETRIES) &&
      (s.saves[i].phase.BackingOff? ==> s.saves[i].retries < MAX_RETRIES) && s.saves[i].retries <= MAX_RETRIES &&
      (s.saves[i].phase.Failed? ==> s.saves[i].retries <= MAX_RETRIES)
  }

  /** Every write in flight is of a save that is in flight. */
  predicate Afloat(s: State) {
    s.lastCommitted <= |s.saves| &&
    (forall k :: 0 <= k < |s.queue| ==> s.queue[k].save < |s.saves| && s.saves[s.queue[k].save].phase.InFlight?) &&
    forall k, m :: 0 <= k < m < |s.queue| ==> s.queue[k].save != s.queue[m].save
  }

  lemma StepPersists(s: State, l: Label)
    requires Persistent(s) && Afloat(s)
    ensures Persistent(Step(s, l))
  {
  }

  lemma StepFloats(s: State, l: Label)
    requires Afloat(s)
    ensures Afloat(Step(s, l))
  {
    match l
    case Lands => if |s.queue| > 0 { LeavesFloat(s, Landed); assert s.queue[..0] + s.queue[1..] == s.queue[1..]; }
    case Fails => if |s.queue| > 0 { LeavesFloat(s, Failed); }
    case Resumes(i) => if i < |s.saves| { hide TryAgain; IssueFloats(s, i); }
    case Wakes(i) => if i < |s.saves| { hide TryAgain; IssueFloats(s, i); }
    case _ =>
  }

  lemma IssueFloats(s: State, i: nat)
    requires Afloat(s) && i < |s.saves|
    ensures !s.saves[i].phase.InFlight? ==> Afloat(TryAgain(s, i))
  {
  }

  /** The first write in flight leaves. */
  lemma LeavesFloat(s: State, p: Phase)
    requires Afloat(s) && |s.queue| > 0
    ensures Afloat(WithPhase(s.(queue := s.queue[1..]), s.queue[0].save, p))
  {
  }

  lemma {:induction false} RunPersists(s: State, ls: seq<Label>)
    requires Persistent(s) && Afloat(s)
    ensures Persistent(Run(s, ls)) && Afloat(Run(s, ls))
    decreases ls
  {
    hide Persistent, Afloat, Step;
    if |ls| > 0 {
      StepPersists(s, ls[0]);
      StepFloats(s, ls[0]);
      RunPersists(Step(s, ls[0]), ls[1..]);
    }
  }

  /** A save gives up only after eight failed retries, in every run. */
  lemma GivesUpLate(start: State, ls: seq<Label>, i: nat)
    requires Fresh(start) && i < |Run(start, ls).saves| && Run(start, ls).saves[i].phase.GivenUp?
    ensures Run(start, ls).saves[i].retries == 8
  {
    hide Run;
    RunPersists(start, ls);
  }

  /** Before that, a failed save goes on: its first failure and every wake-up
      issue a write of the state of that moment, and every other failure waits,
      unless a newer save has been committed. */
  lemma FailuresAreRetried(s: State, i: nat)
    requires i < |s.saves| && i >= s.lastCommitted && s.saves[i].retries < MAX_RETRIES
    ensures s.saves[i].phase.Failed? && s.saves[i].retries == 0 ==> Step(s, Resumes(i)).queue == s.queue + [Write(i, s.memory)]
    ensures s.saves[i].phase.Failed? && s.saves[i].retries > 0 ==> Step(s, Resumes(i)).saves[i].phase.BackingOff?
    ensures s.saves[i].phase.BackingOff? ==> Step(s, Wakes(i)).queue == s.queue + [Write(i, s.memory)]
  {
  }

  /** A save that a newer one has overtaken in the store issues no further write. */
  lemma OvertakenSavesStop(start: State, ls: seq<Label>, l: Label)
    requires Fresh(start)
    ensures var s := Run(start, ls);
            var t := Step(s, l);
            forall k :: 0 <= k < |t.queue| ==> t.queue[k] in s.queue || t.queue[k].save >= s.lastCommitted
  {
    hide Run;
    RunPersists(start, ls);
    hide Persistent;
  }

  // ------------------------------------------------ where a session starts

  ghost predicate NeverGoesBack(start: State) {
    forall earlier, later :: Below(Run(start, earlier).store, Run(start, earlier + later).store)
  }

  /** The condition on the start is needed: no run takes the store back if and
      only if the session starts at or above its stored checkpoint. Otherwise
      the first save does, as soon as it lands. */
  lemma NeverGoesBackExactly(start: State)
    requires Fresh(start)
    ensures NeverGoesBack(start) <==> Below(start.store, start.memory)
    ensures Below(start.store, Run(start, [Call, Lands]).store) <==> Below(start.store, start.memory)
  {
    var first := [Call, Lands];
    assert first[1..] == [Lands] && [Lands][1..] == [];
    assert Run(start, first) == Step(Step(start, Call), Lands);
    assert Step(Step(start, Call), Lands).store == start.memory;
    if NeverGoesBack(start) { assert Below(Run(start, []).store, Run(start, [] + first).store) && [] + first == first; }
    if Below(start.store, start.memory) {
      forall earlier, later ensures Below(Run(start, earlier).store, Run(start, earlier + later).store) {
        CheckpointsNeverGoBack(start, earlier, later);
      }
    }
  }

  /** Two runs that differ in the store alone, and no longer once anything has landed. */
  predicate Shadows(s: State, t: State, first: Snapshot) {
    s == t.(store := s.store) && (s.store == t.store || s.store == first)
  }

  lemma {:induction false} RunShadows(s: State, t: State, first: Snapshot, ls: seq<Label>)
    requires Shadows(s, t, first)
    ensures Shadows(Run(s, ls), Run(t, ls), first) && (s.store == t.store ==> Run(s, ls).store == Run(t, ls).store)
    decreases ls
  {
    if |ls| > 0 {
      StepShadows(s, t, first, ls[0]);
      hide Step, Shadows;
      RunShadows(Step(s, ls[0]), Step(t, ls[0]), first, ls[1..]);
    }
  }

  lemma StepShadows(s: State, t: State, first: Snapshot, l: Label)
    requires Shadows(s, t, first)
    ensures Shadows(Step(s, l), Step(t, l), first) && (s.store == t.store ==> Step(s, l).store == Step(t, l).store)
  {
  }

  /** And only then: from any start, the store has its first value, or it never goes back again. */
  lemma OnlyTheFirstGoesBack(start: State, earlier: seq<Label>, later: seq<Label>)
    requires Fresh(start) && Run(start, earlier).store != start.store
    ensures Below(Run(start, earlier).store, Run(start, earlier + later).store)
  {
    var t := start.(store := start.memory);
    RunShadows(start, t, start.store, earlier);
    CheckpointsNeverGoBack(t, earlier, later);
    hide Run;
    RunShadows(Run(start, earlier), Run(t, earlier), start.store, later);
    RunInTwo(start, earlier, later);
    RunInTwo(t, earlier, later);
  }

  function Stored(c: Option<Types.Checkpoint>): (r: Snapshot) {
    if c.Some? then Snapshot(c.value.lastIngestedSeq, c.value.bootstrapCompleted) else Snapshot(0, false)
  }

  /** Which restored starts meet it: all but a joining one over a checkpoint whose
      watermark is above zero. Joining does not load the watermark. */
  lemma StartsBelowExactly(d: Types.Disk, l: Spec.Ledger)
    ensures var m := Spec.StartState(d, l).mem;
            Below(Stored(d.checkpoint), Snapshot(m.lastIngestedSeq, m.bootstrapCompleted)) <==>
            !(Spec.RouteOf(d).Join? && d.checkpoint.Some? && d.checkpoint.value.lastIngestedSeq > 0)
  {
  }

  /** The order of landing is what this rests on: when the later of two writes
      in flight lands first, the earlier one then takes the store back exactly
      if it carries less. The counters do not help, they are consulted before a
      write is issued. */
  lemma OverTakenWriteGoesBackExactly(s: State)
    requires Ascending(s) && Committed(s) && |s.queue| >= 2
    ensures var s1 := LandsAt(s, 1);
            var s2 := LandsAt(s1, 0);
            s1.queue[0] == s.queue[0] && (Below(s1.store, s2.store) <==> s.queue[0].snapshot == s.queue[1].snapshot)
  {
    var s1 := LandsAt(s, 1);
    assert s1.queue[0] == s.queue[0];
    assert Below(s.queue[0].snapshot, s.queue[1].snapshot);
  }
}
