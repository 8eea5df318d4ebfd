/** Handlers that accept at the same time: the retry pass that enterLive runs is
    not on the serial queue, so it may overlap a handler that is
    (src/engine/receive-engine.ts:753-827, 966-1039, 1326-1340). */

module AcceptanceOverlap {
  /** Between its look at the processed ids and its mark, a handler waits for its accept write. */
  datatype Handler = Resting | Writing(id: string)

  datatype State = State(processed: set<string>, log: seq<string>, handlers: seq<Handler>, announced: seq<string>)

  datatype Label = Check(h: nat, id: string) | Lands(h: nat) | GivesUp(h: nat)

  function Appended(log: seq<string>, id: string): (r: seq<string>) {
    if id in log then log else log + [id]
  }

  function Step(s: State, l: Label): (r: State) {
    match l
    case Check(h, id) =>
      if h < |s.handlers| && s.handlers[h].Resting? && id !in s.processed then s.(handlers := s.handlers[h := Writing(id)]) else s
    case Lands(h) =>
      if h < |s.handlers| && s.handlers[h].Writing? then
        var id := s.handlers[h].id;
        State(s.processed + {id}, Appended(s.log, id), s.handlers[h := Resting], s.announced + [id])
      else s
    case GivesUp(h) => if h < |s.handlers| then s.(handlers := s.handlers[h := Resting]) else s
  }

  function Run(s: State, ls: seq<Label>): (r: State)
    decreases ls
  {
    if |ls| == 0 then s else Run(Step(s, ls[0]), ls[1..])
  }

  /** Two handlers wait for the same id. */
  predicate Overlap(s: State) {
    exists g, h :: 0 <= g < h < |s.handlers| && s.handlers[g].Writing? && s.handlers[h] == s.handlers[g]
  }

  predicate NeverOverlaps(s: State, ls: seq<Label>)
    decreases ls
  {
    !Overlap(s) && (|ls| > 0 ==> NeverOverlaps(Step(s, ls[0]), ls[1..]))
  }

  predicate Once(s: State) {
    (forall i, j :: 0 <= i < j < |s.announced| ==> s.announced[i] != s.announced[j]) &&
    (forall i :: 0 <= i < |s.announced| ==> s.announced[i] in s.processed) &&
    (forall h :: 0 <= h < |s.handlers| && s.handlers[h].Writing? ==> s.handlers[h].id !in s.processed)
  }

  lemma StepOnce(s: State, l: Label)
    requires Once(s) && !Overlap(s)
    ensures Once(Step(s, l))
  {
    if l.Lands? && l.h < |s.handlers| && s.handlers[l.h].Writing? {
      var t := Step(s, l);
      forall g | 0 <= g < |t.handlers| && t.handlers[g].Writing? ensures t.handlers[g].id !in t.processed {
        assert g != l.h && t.handlers[g] == s.handlers[g];
        assert s.handlers[g] != s.handlers[l.h];
      }
    }
  }

  /** An id is announced twice only in a run in which two handlers wait for it at
      the same time; one handler alone, as on the serial queue, never does. */
  lemma {:induction false} TwiceOnlyByOverlap(s: State, ls: seq<Label>)
    requires Once(s) && NeverOverlaps(s, ls)
    ensures Once(Run(s, ls))
    decreases ls
  {
    if |ls| > 0 {
      StepOnce(s, ls[0]);
      hide Step, Once, Overlap;
      TwiceOnlyByOverlap(Step(s, ls[0]), ls[1..]);
    }
  }

  lemma {:induction false} AloneNeverOverlaps(s: State, ls: seq<Label>)
    requires |s.handlers| <= 1
    ensures NeverOverlaps(s, ls)
    decreases ls
  {
    if |ls| > 0 { AloneNeverOverlaps(Step(s, ls[0]), ls[1..]); }
  }

  /** And whenever they do, and both writes land, it is; the log keeps one copy. */
  lemma OverlapAnnouncesTwice(s: State, g: nat, h: nat)
    requires g < |s.handlers| && h < |s.handlers| && g != h && s.handlers[g].Writing? && s.handlers[h] == s.handlers[g]
    ensures var t := Step(Step(s, Lands(g)), Lands(h));
            var id := s.handlers[g].id;
            t.announced == s.announced + [id, id] && t.log == Appended(s.log, id) && !Once(t)
  {
    var t := Step(Step(s, Lands(g)), Lands(h));
    assert t.announced[|s.announced|] == t.announced[|s.announced| + 1];
  }
}
