/** Task records, task events and accepted events (src/domain/task-events.ts,
    src/domain/domain-events.ts) and the tie-break order between edits
    (src/domain/task-crdt.ts). */

module Wrappers {
  datatype Option<+T> = None | Some(value: T) {
    function GetOr(default: T): (r: T) {
      if Some? then value else default
    }
  }

  lemma SameMembers<T>(a: seq<T>, b: seq<T>)
    requires multiset(a) == multiset(b)
    ensures forall x :: x in a <==> x in b
  {
    assert forall x :: x in a <==> x in multiset(a);
    assert forall x :: x in b <==> x in multiset(b);
  }

  lemma ConcatAssociates<T>(x: seq<T>, y: seq<T>, z: seq<T>)
    ensures x + (y + z) == (x + y) + z
  {
  }
}

module TaskDomain {
  import opened Wrappers

  datatype Status = Open | InProgress | Done | Cancelled

  datatype Task = Task(
    id: string, title: string, description: string, status: Status, assignee: Option<string>,
    createdBy: string, createdAt: int, updatedAt: int, updatedBy: string, updatedByDevice: Option<string>)

  datatype Changes = Changes(title: Option<string>, description: Option<string>)

  datatype TaskEvent =
    | Created(task: Task)
    | Updated(taskId: string, changes: Changes, updatedAt: int, updatedBy: string, updatedByDevice: Option<string>)
    | StatusChanged(taskId: string, status: Status, updatedAt: int, updatedBy: string, updatedByDevice: Option<string>)
    | Assigned(taskId: string, assignee: Option<string>, updatedAt: int, updatedBy: string, updatedByDevice: Option<string>)
    | Deleted(taskId: string, updatedAt: int, updatedBy: string, updatedByDevice: Option<string>)

  datatype SourceKind = Bootstrap | Mls

  datatype AcceptedEvent = AcceptedEvent(
    id: string, factId: string, sourceKind: SourceKind, groupId: string, acceptedAt: int, epoch: string,
    payload: TaskEvent)

  /** SOURCE_KIND_PHASE_ORDER. */
  function Phase(k: SourceKind): (r: nat) {
    match k
    case Bootstrap => 0
    case Mls => 1
  }

  function TaskIdOf(payload: TaskEvent): (r: string) {
    match payload
    case Created(task) => task.id
    case _ => payload.taskId
  }

  function MlsEventId(rumorId: string): (r: string) {
    rumorId
  }

  function BootstrapEventId(groupId: string, taskId: string): (r: string) {
    "bootstrap:" + groupId + ":" + taskId
  }

  // ---------------------------------------------------------------- stamps

  /** The three compared fields; a missing device counts as "". */
  datatype Stamp = Stamp(at: int, author: string, device: string)

  function StampOfTask(t: Task): (r: Stamp) {
    Stamp(t.updatedAt, t.updatedBy, t.updatedByDevice.GetOr(""))
  }

  function StampOfEvent(e: TaskEvent): (r: Stamp)
    requires !e.Created?
  {
    Stamp(e.updatedAt, e.updatedBy, e.updatedByDevice.GetOr(""))
  }

  /** Lexicographic `<` on strings. */
  predicate Before(a: string, b: string) {
    if |b| == 0 then false
    else if |a| == 0 then true
    else if a[0] != b[0] then a[0] < b[0]
    else Before(a[1..], b[1..])
  }

  /** taskWinsOver: the cascading form. */
  predicate WinsOver(candidate: Stamp, existing: Stamp) {
    if candidate.at != existing.at then candidate.at > existing.at
    else if candidate.author != existing.author then Before(candidate.author, existing.author)
    else Before(candidate.device, existing.device)
  }

  /** `a` ends where `b` goes on, or has the lower character at the first place
      where they differ. */
  predicate Lower(a: string, b: string) {
    (|a| < |b| && a == b[..|a|]) ||
    exists i :: 0 <= i < |a| && i < |b| && a[..i] == b[..i] && a[i] < b[i]
  }

  /** Before is the order of dictionaries, ascending. */
  lemma {:induction false} BeforeExactly(a: string, b: string)
    ensures Before(a, b) <==> Lower(a, b)
  {
    if |a| > 0 && |b| > 0 {
      if a[0] == b[0] {
        BeforeExactly(a[1..], b[1..]);
        LowerBehind(a, b);
      } else {
        assert a[..0] == b[..0];
        forall i | 0 <= i < |a| && i < |b| && a[..i] == b[..i] ensures i == 0 {
          if i > 0 { SameHead(a, b, i); }
        }
        if |a| < |b| && a[..|a|] == b[..|a|] { SameHead(a, b, |a|); }
        assert a[..|a|] == a;
      }
    }
  }

  lemma SameHead(a: string, b: string, i: nat)
    requires 0 < i <= |a| && i <= |b| && a[..i] == b[..i]
    ensures a[0] == b[0]
  {
    assert a[..i][0] == b[..i][0];
  }

  lemma LowerBehind(a: string, b: string)
    requires |a| > 0 && |b| > 0 && a[0] == b[0]
    ensures Lower(a, b) <==> Lower(a[1..], b[1..])
  {
    var c, d := a[1..], b[1..];
    assert a == [a[0]] + c && b == [b[0]] + d;
    if |c| < |d| && c == d[..|c|] { assert b[..|a|] == [b[0]] + d[..|c|]; }
    if |a| < |b| && a == b[..|a|] { assert d[..|c|] == b[..|a|][1..]; }
    forall i | 0 <= i < |c| && i < |d| && c[..i] == d[..i] && c[i] < d[i] ensures a[..i + 1] == b[..i + 1] && a[i + 1] < b[i + 1] {
      assert a[..i + 1] == [a[0]] + c[..i] && b[..i + 1] == [b[0]] + d[..i];
    }
    forall i | 0 < i < |a| && i < |b| && a[..i] == b[..i] && a[i] < b[i]
      ensures c[..i - 1] == d[..i - 1] && c[i - 1] < d[i - 1]
    {
      assert c[..i - 1] == a[..i][1..] && d[..i - 1] == b[..i][1..];
    }
  }

  /** What the tie-break is for: the later edit wins; at equal times the lower
      author does; of one author's the lower device does. */
  lemma WinsOverExactly(s: Stamp, t: Stamp)
    ensures s.at > t.at ==> WinsOver(s, t) && !WinsOver(t, s)
    ensures s.at == t.at && s.author != t.author ==> (WinsOver(s, t) <==> Lower(s.author, t.author))
    ensures s.at == t.at && s.author == t.author ==> (WinsOver(s, t) <==> Lower(s.device, t.device))
  {
    BeforeExactly(s.author, t.author);
    BeforeExactly(s.device, t.device);
  }

  lemma {:induction false} BeforeIrreflexive(a: string)
    ensures !Before(a, a)
  {
    if |a| > 0 { BeforeIrreflexive(a[1..]); }
  }

  lemma {:induction false} BeforeTotal(a: string, b: string)
    ensures a == b || Before(a, b) || Before(b, a)
  {
    if |a| > 0 && |b| > 0 && a[0] == b[0] {
      BeforeTotal(a[1..], b[1..]);
      if a[1..] == b[1..] { assert a == [a[0]] + a[1..] && b == [b[0]] + b[1..]; }
    }
  }

  lemma {:induction false} BeforeTransitive(a: string, b: string, c: string)
    requires Before(a, b) && Before(b, c)
    ensures Before(a, c)
  {
    if |a| > 0 && a[0] == b[0] == c[0] { BeforeTransitive(a[1..], b[1..], c[1..]); }
  }

  lemma WinsOverIrreflexive(s: Stamp)
    ensures !WinsOver(s, s)
  {
    BeforeIrreflexive(s.device);
  }

  lemma WinsOverTotal(s: Stamp, t: Stamp)
    ensures s == t || WinsOver(s, t) || WinsOver(t, s)
  {
    BeforeTotal(s.author, t.author);
    BeforeTotal(s.device, t.device);
  }

  lemma WinsOverTransitive(s: Stamp, t: Stamp, u: Stamp)
    requires WinsOver(s, t) && WinsOver(t, u)
    ensures WinsOver(s, u)
  {
    if s.at == t.at == u.at {
      if s.author == t.author == u.author {
        BeforeTransitive(s.device, t.device, u.device);
      } else if s.author != t.author && t.author != u.author {
        BeforeTransitive(s.author, t.author, u.author);
        BeforeIrreflexive(s.author);
      }
    }
  }

  lemma WinsOverAsymmetric(s: Stamp, t: Stamp)
    requires WinsOver(s, t)
    ensures !WinsOver(t, s)
  {
    if WinsOver(t, s) {
      WinsOverTransitive(s, t, s);
      WinsOverIrreflexive(s);
    }
  }

  /** `s` is not beaten by `t`: the reflexive closure, as a readable name. */
  predicate AtLeast(s: Stamp, t: Stamp) {
    !WinsOver(t, s)
  }

  lemma AtLeastTransitive(s: Stamp, t: Stamp, u: Stamp)
    requires AtLeast(s, t) && AtLeast(t, u)
    ensures AtLeast(s, u)
  {
    WinsOverTotal(s, t);
    WinsOverTotal(t, u);
    if WinsOver(u, s) {
      if s == t || t == u {
      } else {
        WinsOverTransitive(s, t, u);
        WinsOverAsymmetric(s, u);
      }
    }
  }

  lemma BeatsToo(a: Stamp, b: Stamp, c: Stamp)
    requires WinsOver(a, b) && AtLeast(b, c)
    ensures WinsOver(a, c)
  {
    WinsOverTotal(b, c);
    if b != c { WinsOverTransitive(a, b, c); }
  }

  lemma StillBeats(a: Stamp, b: Stamp, c: Stamp)
    requires AtLeast(a, b) && WinsOver(b, c)
    ensures WinsOver(a, c)
  {
    WinsOverTotal(a, b);
    if a != b { WinsOverTransitive(a, b, c); }
  }

  lemma AtLeastAntisymmetric(s: Stamp, t: Stamp)
    requires AtLeast(s, t) && AtLeast(t, s)
    ensures s == t
  {
    WinsOverTotal(s, t);
  }
}
