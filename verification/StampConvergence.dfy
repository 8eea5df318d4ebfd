/** What concurrent edits of one record converge to
    (src/domain/task-crdt.ts:72-83, src/domain/task-projector.ts:106-152). */

module StampConvergence {
  import opened Wrappers
  import opened TaskDomain
  import opened TaskProjector

  /** An edit of an existing record: an update, a status change or an assignment. */
  predicate IsEdit(e: TaskEvent) {
    e.Updated? || e.StatusChanged? || e.Assigned?
  }

  predicate AreEdits(es: seq<TaskEvent>) {
    forall e :: e in es ==> IsEdit(e)
  }

  /** One edit against the record it names. */
  function Step(t: Task, e: TaskEvent): (r: Task)
    requires IsEdit(e)
  {
    if WinsOver(StampOfEvent(e), StampOfTask(t)) then Edited(t, e) else t
  }

  function Settle(t: Task, es: seq<TaskEvent>): (r: Task)
    requires AreEdits(es)
    decreases es
  {
    if |es| == 0 then t else Settle(Step(t, es[0]), es[1..])
  }

  /** Settle is what the projection does at the record's own key. */
  lemma {:induction false} SettleIsProjection(p: Projection, log: seq<AcceptedEvent>, es: seq<TaskEvent>, id: string)
    requires id in p && |log| == |es| && AreEdits(es)
    requires forall i :: 0 <= i < |log| ==> log[i].payload == es[i] && TaskIdOf(es[i]) == id
    ensures FoldFrom(p, log) == p[id := Settle(p[id], es)]
    decreases log
  {
    if |log| > 0 {
      var q := ApplyEvent(p, log[0]);
      assert q == p[id := Step(p[id], es[0])];
      SettleIsProjection(q, log[1..], es[1..], id);
    } else {
      assert p == p[id := p[id]];
    }
  }

  lemma {:induction false} SettleAppend(t: Task, a: seq<TaskEvent>, b: seq<TaskEvent>)
    requires AreEdits(a) && AreEdits(b)
    ensures AreEdits(a + b) && Settle(t, a + b) == Settle(Settle(t, a), b)
    decreases a
  {
    assert forall e :: e in a + b ==> e in a || e in b;
    if |a| == 0 {
      assert a + b == b;
    } else {
      assert (a + b)[0] == a[0] && (a + b)[1..] == a[1..] + b;
      SettleAppend(Step(t, a[0]), a[1..], b);
    }
  }

  /** The final stamp is one of the stamps offered, and none of them beats it. */
  lemma {:induction false} SettledStampIsMaximal(t: Task, es: seq<TaskEvent>)
    requires AreEdits(es)
    ensures var s := StampOfTask(Settle(t, es));
            (s == StampOfTask(t) || exists e :: e in es && s == StampOfEvent(e)) &&
            AtLeast(s, StampOfTask(t)) && (forall e :: e in es ==> AtLeast(s, StampOfEvent(e)))
    decreases es
  {
    WinsOverIrreflexive(StampOfTask(t));
    if |es| > 0 {
      var u := Step(t, es[0]);
      var s := StampOfTask(Settle(t, es));
      SettledStampIsMaximal(u, es[1..]);
      if WinsOver(StampOfEvent(es[0]), StampOfTask(t)) {
        WinsOverAsymmetric(StampOfEvent(es[0]), StampOfTask(t));
      }
      AtLeastTransitive(s, StampOfTask(u), StampOfTask(t));
      AtLeastTransitive(s, StampOfTask(u), StampOfEvent(es[0])) by { WinsOverIrreflexive(StampOfEvent(es[0])); }
      assert es == [es[0]] + es[1..];
    }
  }

  /** Stamps converge: any two orders of the same edits end with the same stamp. */
  lemma StampsConverge(t: Task, a: seq<TaskEvent>, b: seq<TaskEvent>)
    requires AreEdits(a) && multiset(a) == multiset(b)
    ensures AreEdits(b) && StampOfTask(Settle(t, a)) == StampOfTask(Settle(t, b))
  {
    SameMembers(a, b);
    SettledStampIsMaximal(t, a);
    SettledStampIsMaximal(t, b);
    AtLeastAntisymmetric(StampOfTask(Settle(t, a)), StampOfTask(Settle(t, b)));
  }

  /** Every event of the log edits record `id`. */
  ghost predicate EditsOnly(log: seq<AcceptedEvent>, id: string) {
    forall i :: 0 <= i < |log| ==> IsEdit(log[i].payload) && TaskIdOf(log[i].payload) == id
  }

  lemma EditsOnlyByPayload(a: seq<AcceptedEvent>, b: seq<AcceptedEvent>, id: string)
    requires EditsOnly(a, id) && multiset(PayloadsOf(a)) == multiset(PayloadsOf(b))
    ensures EditsOnly(b, id) && AreEdits(PayloadsOf(a))
  {
    var xs, ys := PayloadsOf(a), PayloadsOf(b);
    SameMembers(xs, ys);
    forall i | 0 <= i < |b| ensures IsEdit(b[i].payload) && TaskIdOf(b[i].payload) == id {
      assert ys[i] in ys;
      var j :| 0 <= j < |xs| && xs[j] == ys[i];
      assert xs[j] == a[j].payload;
    }
  }

  /** The same for whole projections: two logs that bring the same edits of one
      existing record, in any order and under any ids, leave it with the same
      stamp, and leave every other record alone. */
  lemma ProjectedStampsConverge(p: Projection, a: seq<AcceptedEvent>, b: seq<AcceptedEvent>, id: string)
    requires id in p && EditsOnly(a, id)
    requires multiset(PayloadsOf(a)) == multiset(PayloadsOf(b))
    ensures id in FoldFrom(p, a) && id in FoldFrom(p, b)
    ensures StampOfTask(FoldFrom(p, a)[id]) == StampOfTask(FoldFrom(p, b)[id])
    ensures FoldFrom(p, a) - {id} == p - {id} == FoldFrom(p, b) - {id}
  {
    var xs, ys := PayloadsOf(a), PayloadsOf(b);
    EditsOnlyByPayload(a, b, id);
    StampsConverge(p[id], xs, ys);
    SettleIsProjection(p, a, xs, id);
    SettleIsProjection(p, b, ys, id);
  }

  /** `w` beats the initial record and every other edit. */
  predicate UniqueWinner(t: Task, es: seq<TaskEvent>, w: TaskEvent) {
    w in es && IsEdit(w) && AreEdits(es) &&
    WinsOver(StampOfEvent(w), StampOfTask(t)) &&
    forall e :: e in es && e != w ==> WinsOver(StampOfEvent(w), StampOfEvent(e))
  }

  /** The fields an edit writes hold its values. */
  predicate Carries(t: Task, e: TaskEvent)
    requires IsEdit(e)
  {
    match e
    case Updated(_, changes, _, _, _) =>
      (changes.title.Some? ==> t.title == changes.title.value) &&
      (changes.description.Some? ==> t.description == changes.description.value)
    case StatusChanged(_, status, _, _, _) => t.status == status
    case Assigned(_, assignee, _, _, _) => t.assignee == assignee
  }

  /** Once a record holds the winner's stamp, nothing else gets in. */
  lemma {:induction false} WinnerStays(t: Task, es: seq<TaskEvent>)
    requires AreEdits(es) && forall e :: e in es ==> AtLeast(StampOfTask(t), StampOfEvent(e))
    ensures Settle(t, es) == t
    decreases es
  {
    if |es| > 0 { WinnerStays(t, es[1..]); }
  }

  /** The unique winner's fields survive every order of the edits. */
  lemma {:induction false} WinnersFieldsSurvive(t: Task, es: seq<TaskEvent>, w: TaskEvent)
    requires UniqueWinner(t, es, w)
    ensures Carries(Settle(t, es), w) && StampOfTask(Settle(t, es)) == StampOfEvent(w)
    decreases es
  {
    var u := Step(t, es[0]);
    if es[0] == w {
      forall e | e in es[1..] ensures IsEdit(e) && AtLeast(StampOfTask(u), StampOfEvent(e)) {
        assert e in es;
        WinsOverIrreflexive(StampOfEvent(w));
        if e != w { WinsOverAsymmetric(StampOfEvent(w), StampOfEvent(e)); }
      }
      WinnerStays(u, es[1..]);
    } else {
      assert es == [es[0]] + es[1..];
      WinnersFieldsSurvive(u, es[1..], w);
    }
  }

  lemma WinnersFieldsConverge(t: Task, a: seq<TaskEvent>, b: seq<TaskEvent>, w: TaskEvent)
    requires UniqueWinner(t, a, w) && multiset(a) == multiset(b)
    ensures AreEdits(b) && Carries(Settle(t, a), w) && Carries(Settle(t, b), w)
  {
    SameMembers(a, b);
    WinnersFieldsSurvive(t, a, w);
    WinnersFieldsSurvive(t, b, w);
  }

  // ------------------------------------------------ histories of one kind

  predicate OneKind(es: seq<TaskEvent>) {
    (forall e :: e in es ==> e.StatusChanged?) || (forall e :: e in es ==> e.Assigned?)
  }

  predicate DistinctStamps(es: seq<TaskEvent>)
    requires AreEdits(es)
  {
    forall e, f :: e in es && f in es && e != f ==> StampOfEvent(e) != StampOfEvent(f)
  }

  lemma RewrittenWhole(t: Task, e: TaskEvent, f: TaskEvent)
    requires (e.StatusChanged? && f.StatusChanged?) || (e.Assigned? && f.Assigned?)
    ensures Edited(Edited(t, e), f) == Edited(t, f)
  {
  }

  /** A history of status changes only (or assignments only) leaves either the
      initial record or the initial record with its last winner written over it. */
  lemma {:induction false} OneKindSettles(t: Task, es: seq<TaskEvent>)
    requires AreEdits(es) && OneKind(es)
    ensures (Settle(t, es) == t && forall e :: e in es ==> AtLeast(StampOfTask(t), StampOfEvent(e))) ||
            (exists e :: e in es && Settle(t, es) == Edited(t, e) && WinsOver(StampOfEvent(e), StampOfTask(t)))
    decreases es
  {
    if |es| > 0 {
      var u := Step(t, es[0]);
      OneKindSettles(u, es[1..]);
      assert es == [es[0]] + es[1..];
      if Settle(u, es[1..]) != u || !(forall e :: e in es[1..] ==> AtLeast(StampOfTask(u), StampOfEvent(e))) {
        var e :| e in es[1..] && Settle(u, es[1..]) == Edited(u, e) && WinsOver(StampOfEvent(e), StampOfTask(u));
        assert e in es && es[0] in es;
        RewrittenWhole(t, es[0], e);
        if u != t { WinsOverTransitive(StampOfEvent(e), StampOfTask(u), StampOfTask(t)); }
      } else if u != t {
        assert es[0] in es;
      }
    }
  }

  /** Whole records converge for such histories when no two edits share a stamp. */
  lemma OneKindConverges(t: Task, a: seq<TaskEvent>, b: seq<TaskEvent>)
    requires AreEdits(a) && OneKind(a) && DistinctStamps(a) && multiset(a) == multiset(b)
    ensures AreEdits(b) && Settle(t, a) == Settle(t, b)
  {
    SameMembers(a, b);
    OneKindSettles(t, a);
    OneKindSettles(t, b);
    StampsConverge(t, a, b);
    if Settle(t, a) != t && Settle(t, b) != t {
      var e :| e in a && Settle(t, a) == Edited(t, e);
      var f :| f in b && Settle(t, b) == Edited(t, f);
      assert StampOfEvent(e) == StampOfEvent(f);
    } else {
      WinsOverIrreflexive(StampOfTask(t));
    }
  }

  // ------------------------------------------------ histories of mixed kinds

  /** `w` beats the record, and no other edit beats `w`. */
  predicate Top(t: Task, es: seq<TaskEvent>, w: TaskEvent)
    requires AreEdits(es)
  {
    w in es && WinsOver(StampOfEvent(w), StampOfTask(t)) &&
    forall e :: e in es ==> AtLeast(StampOfEvent(w), StampOfEvent(e))
  }

  /** What `e` has done to the record does not show once `w` is written over it. */
  predicate Covers(t: Task, w: TaskEvent, e: TaskEvent)
    requires IsEdit(w) && IsEdit(e)
  {
    Edited(Edited(t, e), w) == Edited(t, w)
  }

  /** Every top edit leaves the same record, and covers every lesser edit that
      could be written before it. */
  ghost predicate TopsCover(t: Task, es: seq<TaskEvent>)
    requires AreEdits(es)
  {
    forall w, e :: Top(t, es, w) && e in es && WinsOver(StampOfEvent(e), StampOfTask(t)) ==>
      if StampOfEvent(e) == StampOfEvent(w) then Edited(t, e) == Edited(t, w) else Covers(t, w, e)
  }

  ghost predicate OrdersAgree(t: Task, es: seq<TaskEvent>)
    requires AreEdits(es)
  {
    forall us :: AreEdits(us) && multiset(us) == multiset(es) ==> Settle(t, us) == Settle(t, es)
  }

  /** A record that edits have led to from `t`, and in which they do not show. */
  ghost predicate Clean(t: Task, es: seq<TaskEvent>, u: Task)
    requires AreEdits(es)
  {
    AtLeast(StampOfTask(u), StampOfTask(t)) && forall v :: Top(t, es, v) ==> Edited(u, v) == Edited(t, v)
  }

  /** Field by field: what `v` writes is v's, and of the rest neither shows. */
  lemma CoveredTwice(t: Task, u: Task, e: TaskEvent, v: TaskEvent)
    requires IsEdit(e) && IsEdit(v) && Covers(t, v, e) && Edited(u, v) == Edited(t, v)
    ensures Edited(Edited(u, e), v) == Edited(t, v)
  {
  }

  lemma StepStaysClean(t: Task, es: seq<TaskEvent>, u: Task, e: TaskEvent)
    requires AreEdits(es) && TopsCover(t, es) && Clean(t, es, u) && e in es
    requires WinsOver(StampOfEvent(e), StampOfTask(u)) && !Top(t, es, e)
    ensures Clean(t, es, Edited(u, e))
  {
    WinsOverAsymmetric(StampOfEvent(e), StampOfTask(u));
    AtLeastTransitive(StampOfEvent(e), StampOfTask(u), StampOfTask(t));
    BeatsToo(StampOfEvent(e), StampOfTask(u), StampOfTask(t));
    forall v | Top(t, es, v) ensures Edited(Edited(u, e), v) == Edited(t, v) {
      assert StampOfEvent(e) != StampOfEvent(v);
      CoveredTwice(t, u, e, v);
    }
  }

  /** From a clean record, the edits that are left lead to what a top edit makes of `t`. */
  lemma {:induction false} CleanSettles(t: Task, es: seq<TaskEvent>, u: Task, rest: seq<TaskEvent>, w: TaskEvent)
    requires AreEdits(es) && TopsCover(t, es) && Clean(t, es, u) && AreEdits(rest) && (forall e :: e in rest ==> e in es)
    requires Top(t, es, w) && w in rest && WinsOver(StampOfEvent(w), StampOfTask(u))
    ensures Settle(u, rest) == Edited(t, w)
    decreases rest
  {
    var e := rest[0];
    var u1 := Step(u, e);
    assert rest == [e] + rest[1..];
    if StampOfEvent(e) == StampOfEvent(w) {
      assert Top(t, es, e);
      assert u1 == Edited(t, w);
      WinnerStays(u1, rest[1..]);
    } else {
      assert w in rest[1..];
      if WinsOver(StampOfEvent(e), StampOfTask(u)) {
        if Top(t, es, e) { AtLeastAntisymmetric(StampOfEvent(e), StampOfEvent(w)); }
        StepStaysClean(t, es, u, e);
        WinsOverTotal(StampOfEvent(w), StampOfEvent(e));
      }
      CleanSettles(t, es, u1, rest[1..], w);
    }
  }

  /** Where no edit beats the record, all orders leave it alone; otherwise some edit is on top. */
  lemma {:induction false} SomeTop(t: Task, es: seq<TaskEvent>)
    requires AreEdits(es)
    ensures (exists w :: Top(t, es, w)) || forall e :: e in es ==> AtLeast(StampOfTask(t), StampOfEvent(e))
  {
    SettledStampIsMaximal(t, es);
    var s := StampOfTask(Settle(t, es));
    if w :| w in es && WinsOver(StampOfEvent(w), StampOfTask(t)) {
      var v :| v in es && s == StampOfEvent(v);
      StillBeats(s, StampOfEvent(w), StampOfTask(t));
      assert Top(t, es, v);
    }
  }

  lemma CoveredOrdersAgree(t: Task, es: seq<TaskEvent>)
    requires AreEdits(es) && TopsCover(t, es)
    ensures OrdersAgree(t, es)
  {
    SomeTop(t, es);
    AtLeastSelf(StampOfTask(t));
    assert Clean(t, es, t);
    forall us | AreEdits(us) && multiset(us) == multiset(es) ensures Settle(t, us) == Settle(t, es) {
      SameMembers(us, es);
      if w :| Top(t, es, w) {
        CleanSettles(t, es, t, es, w);
        CleanSettles(t, es, t, us, w);
      } else {
        WinnerStays(t, es);
        WinnerStays(t, us);
      }
    }
  }

  lemma AtLeastSelf(s: Stamp)
    ensures AtLeast(s, s)
  {
    WinsOverIrreflexive(s);
  }

  /** Some order begins with any given edit. */
  lemma ToFront(es: seq<TaskEvent>, w: TaskEvent) returns (rest: seq<TaskEvent>)
    requires w in es
    ensures multiset([w] + rest) == multiset(es) && |rest| < |es|
    ensures forall e :: e in rest ==> e in es
    ensures forall e :: e in es && e != w ==> e in rest
  {
    var i :| 0 <= i < |es| && es[i] == w;
    rest := es[..i] + es[i + 1..];
    assert es == es[..i] + [w] + es[i + 1..];
    assert multiset(es) == multiset(es[..i]) + multiset{w} + multiset(es[i + 1..]);
    forall e | e in es && e != w ensures e in rest {
      var j :| 0 <= j < |es| && es[j] == e;
      if j < i { assert rest[j] == e; } else { assert rest[j - 1] == e; }
    }
  }

  lemma TwoToFront(es: seq<TaskEvent>, e: TaskEvent, w: TaskEvent) returns (rest: seq<TaskEvent>)
    requires e in es && w in es && e != w
    ensures multiset([e] + ([w] + rest)) == multiset(es) && forall x :: x in rest ==> x in es
  {
    var some := ToFront(es, e);
    rest := ToFront(some, w);
    assert multiset([e] + ([w] + rest)) == multiset{e} + multiset([w] + rest);
    assert multiset([e] + some) == multiset{e} + multiset(some);
  }

  lemma SettleCons(t: Task, e: TaskEvent, rest: seq<TaskEvent>)
    requires IsEdit(e) && AreEdits(rest)
    ensures AreEdits([e] + rest) && Settle(t, [e] + rest) == Settle(Step(t, e), rest)
  {
    assert ([e] + rest)[1..] == rest && forall x :: x in [e] + rest ==> x == e || x in rest;
  }

  /** An order that begins with a top edit ends in what that edit makes of `t`. */
  lemma TopFirst(t: Task, es: seq<TaskEvent>, w: TaskEvent)
    requires AreEdits(es) && OrdersAgree(t, es) && Top(t, es, w)
    ensures Settle(t, es) == Edited(t, w)
  {
    var rest := ToFront(es, w);
    SettleCons(t, w, rest);
    OrderGives(t, es, [w] + rest);
    RestIsLess(es, rest, t, w);
    WinnerStays(Edited(t, w), rest);
  }

  /** So does one that writes a lesser edit just before it. */
  lemma LesserFirst(t: Task, es: seq<TaskEvent>, w: TaskEvent, e: TaskEvent)
    requires AreEdits(es) && OrdersAgree(t, es) && Top(t, es, w)
    requires e in es && WinsOver(StampOfEvent(e), StampOfTask(t)) && StampOfEvent(e) != StampOfEvent(w)
    ensures Settle(t, es) == Edited(Edited(t, e), w)
  {
    var rest := TwoToFront(es, e, w);
    SettleTwo(t, e, w, rest);
    LesserThenTop(t, es, w, e);
    OrderGives(t, es, [e] + ([w] + rest));
    RestIsLess(es, rest, t, w);
    hide Edited, Step, Top, OrdersAgree, Settle;
    WinnerStays(Edited(Edited(t, e), w), rest);
  }

  lemma OrderGives(t: Task, es: seq<TaskEvent>, us: seq<TaskEvent>)
    requires AreEdits(es) && OrdersAgree(t, es) && AreEdits(us) && multiset(us) == multiset(es)
    ensures Settle(t, us) == Settle(t, es)
  {
  }

  lemma RestIsLess(es: seq<TaskEvent>, rest: seq<TaskEvent>, t: Task, w: TaskEvent)
    requires AreEdits(es) && Top(t, es, w) && forall x :: x in rest ==> x in es
    ensures AreEdits(rest) && forall x :: x in rest ==> AtLeast(StampOfEvent(w), StampOfEvent(x))
  {
  }

  lemma SettleTwo(t: Task, e: TaskEvent, w: TaskEvent, rest: seq<TaskEvent>)
    requires IsEdit(e) && IsEdit(w) && AreEdits(rest)
    ensures AreEdits([e] + ([w] + rest)) && Settle(t, [e] + ([w] + rest)) == Settle(Step(Step(t, e), w), rest)
  {
    hide Step;
    SettleCons(Step(t, e), w, rest);
    SettleCons(t, e, [w] + rest);
  }

  lemma LesserThenTop(t: Task, es: seq<TaskEvent>, w: TaskEvent, e: TaskEvent)
    requires AreEdits(es) && Top(t, es, w) && e in es && IsEdit(w) && IsEdit(e)
    requires WinsOver(StampOfEvent(e), StampOfTask(t)) && StampOfEvent(e) != StampOfEvent(w)
    ensures Step(Step(t, e), w) == Edited(Edited(t, e), w)
    ensures StampOfTask(Edited(Edited(t, e), w)) == StampOfEvent(w)
  {
    WinsOverTotal(StampOfEvent(w), StampOfEvent(e));
  }

  /** When whole records converge, for any mix of updates, status changes and
      assignments: all orders of the edits leave the same record if and only if
      the top edits agree and cover whatever lesser edit could come before them.
      The gate is one stamp per record, so a lesser edit is dropped when it comes
      late, and must not show when it comes early. */
  lemma OrdersAgreeExactly(t: Task, es: seq<TaskEvent>)
    requires AreEdits(es)
    ensures OrdersAgree(t, es) <==> TopsCover(t, es)
  {
    if TopsCover(t, es) { CoveredOrdersAgree(t, es); }
    if OrdersAgree(t, es) {
      forall w, e | Top(t, es, w) && e in es && WinsOver(StampOfEvent(e), StampOfTask(t))
        ensures if StampOfEvent(e) == StampOfEvent(w) then Edited(t, e) == Edited(t, w) else Covers(t, w, e)
      {
        TopFirst(t, es, w);
        if StampOfEvent(e) == StampOfEvent(w) { TopFirst(t, es, e); } else { LesserFirst(t, es, w, e); }
      }
    }
  }

  /** The smallest case: a status change that loses to an assignment shows exactly
      when it changes something. */
  lemma StatusLosesToAssignment(t: Task, s: TaskEvent, w: TaskEvent)
    requires s.StatusChanged? && w.Assigned?
    requires WinsOver(StampOfEvent(s), StampOfTask(t)) && WinsOver(StampOfEvent(w), StampOfEvent(s))
    ensures AreEdits([s, w]) && (OrdersAgree(t, [s, w]) <==> t.status == s.status)
  {
    WinsOverTransitive(StampOfEvent(w), StampOfEvent(s), StampOfTask(t));
    WinsOverAsymmetric(StampOfEvent(w), StampOfEvent(s));
    WinsOverIrreflexive(StampOfEvent(w));
    OrdersAgreeExactly(t, [s, w]);
    hide OrdersAgree, Settle;
    assert w in [s, w] && s in [s, w] && Top(t, [s, w], w);
    assert Covers(t, w, s) <==> t.status == s.status;
    assert forall v :: Top(t, [s, w], v) ==> v == w;
    if t.status == s.status {
      forall v, e | Top(t, [s, w], v) && e in [s, w] && WinsOver(StampOfEvent(e), StampOfTask(t))
        ensures if StampOfEvent(e) == StampOfEvent(v) then Edited(t, e) == Edited(t, v) else Covers(t, v, e)
      {
        assert v == w && (e == s || e == w);
      }
    }
  }
}
