/** Outbox records and the two independent bounds on their number: the durable
    list of a group (src/integration/publish-outbox.ts:334-348) and the
    in-memory registry (src/integration/marmot-adapter.ts:455-508). */

module OutboxStore {
  import opened Wrappers

  datatype Status = Pending | Sent | Failed | Reconciled

  datatype Entry = Entry(
    rumorId: string, groupId: string, createdAt: int, status: Status, attempts: nat, lastAttemptAt: Option<int>,
    lastError: Option<string>, sentEventId: Option<string>, ownEchoObservedAt: Option<int>)

  const MAX_ENTRIES: nat := 256

  predicate UniqueRumors(es: seq<Entry>) {
    forall i, j :: 0 <= i < j < |es| ==> es[i].rumorId != es[j].rumorId
  }

  predicate Tracks(es: seq<Entry>, id: string) {
    exists i :: 0 <= i < |es| && es[i].rumorId == id
  }

  /** Position of a record, or the length if there is none. */
  function IndexOf(es: seq<Entry>, id: string): (r: nat)
    ensures r <= |es|
    ensures r < |es| ==> es[r].rumorId == id
    ensures forall i :: 0 <= i < r ==> es[i].rumorId != id
    ensures r < |es| <==> Tracks(es, id)
  {
    if |es| == 0 then 0
    else if es[0].rumorId == id then 0
    else
      var r := IndexOf(es[1..], id);
      assert Tracks(es, id) ==> Tracks(es[1..], id) by {
        if Tracks(es, id) {
          var i :| 0 <= i < |es| && es[i].rumorId == id;
          assert es[1..][i - 1].rumorId == id;
        }
      }
      assert r < |es[1..]| ==> es[r + 1].rumorId == id;
      r + 1
  }

  /** Map.set and the durable upsert: an old key keeps its place, a new one goes last. */
  function Put(es: seq<Entry>, e: Entry): (r: seq<Entry>)
    ensures |es| <= |r| <= |es| + 1
  {
    var k := IndexOf(es, e.rumorId);
    if k < |es| then es[k := e] else es + [e]
  }

  lemma PutKeeps(es: seq<Entry>, e: Entry)
    requires UniqueRumors(es)
    ensures UniqueRumors(Put(es, e)) && e in Put(es, e)
    ensures forall x :: x in Put(es, e) <==> x == e || (x in es && x.rumorId != e.rumorId)
  {
    var k := IndexOf(es, e.rumorId);
    var r := Put(es, e);
    assert e in r by { assert r[if k < |es| then k else |es|] == e; }
    forall x | x in es && x.rumorId != e.rumorId ensures x in r {
      var i :| 0 <= i < |es| && es[i] == x;
      assert r[i] == x;
    }
  }

  // ------------------------------------------------ sorting by age

  function InsertByAge(e: Entry, es: seq<Entry>): (r: seq<Entry>)
    ensures |r| == |es| + 1
  {
    if |es| == 0 || e.createdAt <= es[0].createdAt then [e] + es else [es[0]] + InsertByAge(e, es[1..])
  }

  /** sort((a, b) => a.createdAt - b.createdAt), which is stable. */
  function SortByAge(es: seq<Entry>): (r: seq<Entry>)
    ensures |r| == |es|
  {
    if |es| == 0 then [] else InsertByAge(es[0], SortByAge(es[1..]))
  }

  predicate ByAge(es: seq<Entry>) {
    forall i, j :: 0 <= i < j < |es| ==> es[i].createdAt <= es[j].createdAt
  }

  lemma {:induction false} InsertPermutes(e: Entry, es: seq<Entry>)
    ensures multiset(InsertByAge(e, es)) == multiset([e] + es)
  {
    if |es| > 0 && e.createdAt > es[0].createdAt {
      InsertPermutes(e, es[1..]);
      assert es == [es[0]] + es[1..];
      assert multiset([e] + es[1..]) == multiset([e]) + multiset(es[1..]);
    }
  }

  lemma {:induction false} InsertSorts(e: Entry, es: seq<Entry>)
    requires ByAge(es)
    ensures ByAge(InsertByAge(e, es))
  {
    if |es| > 0 && e.createdAt > es[0].createdAt {
      var rest := InsertByAge(e, es[1..]);
      InsertSorts(e, es[1..]);
      InsertPermutes(e, es[1..]);
      hide InsertByAge;
      SameMembers(rest, [e] + es[1..]);
      forall x | x in rest ensures es[0].createdAt <= x.createdAt {
        assert x == e || x in es[1..];
      }
      EldestInFront(es[0], rest);
    }
  }

  lemma EldestInFront(e: Entry, es: seq<Entry>)
    requires ByAge(es) && forall x :: x in es ==> e.createdAt <= x.createdAt
    ensures ByAge([e] + es)
  {
  }

  lemma {:induction false} SortSorts(es: seq<Entry>)
    ensures ByAge(SortByAge(es)) && multiset(SortByAge(es)) == multiset(es)
  {
    if |es| > 0 {
      var rest := SortByAge(es[1..]);
      SortSorts(es[1..]);
      InsertSorts(es[0], rest);
      InsertPermutes(es[0], rest);
      hide InsertByAge, ByAge;
      assert es == [es[0]] + es[1..];
      assert multiset([es[0]] + rest) == multiset([es[0]]) + multiset(rest);
    }
  }

  /** Distinct rumors survive any reordering. */
  lemma UniqueReordered(a: seq<Entry>, b: seq<Entry>)
    requires UniqueRumors(a) && multiset(a) == multiset(b)
    ensures UniqueRumors(b)
  {
    SameMembers(a, b);
    forall i, j | 0 <= i < j < |b| ensures b[i].rumorId != b[j].rumorId {
      if b[i] == b[j] {
        TwiceIsTwo(b, i, j);
        OnceIsOne(a, b[i]);
      } else {
        assert b[i] in a && b[j] in a;
      }
    }
  }

  lemma TwiceIsTwo(b: seq<Entry>, i: nat, j: nat)
    requires i < j < |b| && b[i] == b[j]
    ensures multiset(b)[b[i]] >= 2
  {
    assert b == b[..j] + [b[j]] + b[j + 1..];
    assert b[..j][i] == b[i];
    assert multiset(b) == multiset(b[..j]) + multiset([b[j]]) + multiset(b[j + 1..]);
  }

  lemma {:induction false} OnceIsOne(a: seq<Entry>, e: Entry)
    requires UniqueRumors(a)
    ensures multiset(a)[e] <= 1
  {
    if |a| > 0 {
      OnceIsOne(a[1..], e);
      assert a == [a[0]] + a[1..];
      forall i | 0 <= i < |a[1..]| ensures a[1..][i] != a[0] {
        assert a[1..][i] == a[i + 1];
      }
      assert a[0] !in multiset(a[1..]);
    }
  }

  // ------------------------------------------------ the durable list

  /** persistEntry's transaction. */
  function Persisted(stored: seq<Entry>, e: Entry): (r: seq<Entry>) {
    var next := Put(stored, e);
    if |next| <= MAX_ENTRIES then next else SortByAge(next)[|next| - MAX_ENTRIES..]
  }

  method PersistEntry(stored: Option<seq<Entry>>, entry: Entry) returns (r: seq<Entry>)
    ensures r == Persisted(if stored.Some? then stored.value else [], entry)
  {
    var existing := if stored.Some? then stored.value else [];
    var idx := 0;
    while idx < |existing| && existing[idx].rumorId != entry.rumorId
      invariant idx <= |existing| && forall i :: 0 <= i < idx ==> existing[i].rumorId != entry.rumorId
    {
      idx := idx + 1;
    }
    var k := IndexOf(existing, entry.rumorId);
    assert idx == k;
    var next := if idx == |existing| then existing + [entry] else existing[idx := entry];
    if |next| <= MAX_ENTRIES { return next; }
    r := SortByAge(next)[|next| - MAX_ENTRIES..];
  }

  /** What is left out is no newer than anything kept. */
  predicate KeepsNewest(all: seq<Entry>, kept: seq<Entry>) {
    (forall x :: x in kept ==> x in all) &&
    forall x, y :: x in all && x !in kept && y in kept ==> x.createdAt <= y.createdAt
  }

  /** One write keeps the list unique and bounded; what it drops is no newer than
      anything it keeps, and it drops nothing unless the bound is exceeded. */
  lemma PersistedKeepsNewest(stored: seq<Entry>, e: Entry)
    requires UniqueRumors(stored) && |stored| <= 256
    ensures var r := Persisted(stored, e);
            UniqueRumors(r) && |r| <= 256 && KeepsNewest(Put(stored, e), r) &&
            (|r| < 256 ==> r == Put(stored, e))
  {
    var next := Put(stored, e);
    PutKeeps(stored, e);
    hide Put, UniqueRumors, SortByAge;
    if |next| > MAX_ENTRIES { NewestKept(next, |next| - MAX_ENTRIES); }
  }

  /** The end of the list sorted by age: distinct, and nothing dropped is newer. */
  lemma NewestKept(es: seq<Entry>, cut: nat)
    requires UniqueRumors(es) && cut <= |es|
    ensures var r := SortByAge(es)[cut..];
            UniqueRumors(r) && KeepsNewest(es, r)
  {
    var s := SortByAge(es);
    SortSorts(es);
    SameMembers(s, es);
    UniqueReordered(es, s);
    EndIsUnique(s, cut);
    hide SortByAge, UniqueRumors;
    forall x, y | x in es && x !in s[cut..] && y in s[cut..] ensures x.createdAt <= y.createdAt {
      DroppedIsOlder(s, cut, x, y);
    }
  }

  lemma EndIsUnique(s: seq<Entry>, cut: nat)
    requires UniqueRumors(s) && cut <= |s|
    ensures UniqueRumors(s[cut..]) && forall x :: x in s[cut..] ==> x in s
  {
  }

  lemma DroppedIsOlder(s: seq<Entry>, cut: nat, x: Entry, y: Entry)
    requires ByAge(s) && cut <= |s| && x in s && x !in s[cut..] && y in s[cut..]
    ensures x.createdAt <= y.createdAt
  {
    var i :| 0 <= i < |s| && s[i] == x;
    var j :| 0 <= j < |s[cut..]| && s[cut..][j] == y;
    forall m | cut <= m < |s| ensures s[m] != x { assert s[cut..][m - cut] == s[m]; }
    assert s[cut + j] == y;
  }

  function PersistAll(stored: seq<Entry>, writes: seq<Entry>): (r: seq<Entry>)
    decreases writes
  {
    if |writes| == 0 then stored else PersistAll(Persisted(stored, writes[0]), writes[1..])
  }

  /** A rumor's creation time is fixed when it is first published. */
  predicate Frozen(es: seq<Entry>) {
    forall x, y :: x in es && y in es && x.rumorId == y.rumorId ==> x.createdAt == y.createdAt
  }

  /** Whatever was ever written is in the list, or the list is full of entries no older. */
  predicate Newest(r: seq<Entry>, written: seq<Entry>) {
    forall x :: x in written ==>
      Tracks(r, x.rumorId) || (|r| == MAX_ENTRIES && forall y :: y in r ==> x.createdAt <= y.createdAt)
  }

  lemma TracksMember(es: seq<Entry>, id: string)
    ensures Tracks(es, id) <==> exists e :: e in es && e.rumorId == id
  {
    if Tracks(es, id) {
      var i :| 0 <= i < |es| && es[i].rumorId == id;
      assert es[i] in es;
    }
  }

  /** A listed rumor's new version is as old as the version it replaces. */
  lemma UpdateKeepsAge(r: seq<Entry>, written: seq<Entry>, e: Entry, x: Entry)
    requires Newest(r, written) && x in written && !Tracks(r, x.rumorId) && Tracks(r, e.rumorId)
    requires Frozen(written + [e]) && forall y :: y in r ==> y in written
    ensures x.createdAt <= e.createdAt
  {
    var i :| 0 <= i < |r| && r[i].rumorId == e.rumorId;
    assert r[i] in r && r[i] in written + [e] && e in written + [e];
  }

  /** An earlier write that is not listed stays older than everything listed. */
  lemma UnlistedStaysOlder(r: seq<Entry>, written: seq<Entry>, e: Entry, x: Entry)
    requires UniqueRumors(r) && |r| <= MAX_ENTRIES && Newest(r, written) && x in written
    requires Frozen(written + [e]) && forall y :: y in r ==> y in written
    requires !Tracks(r, x.rumorId) && x.rumorId != e.rumorId
    ensures |Persisted(r, e)| == MAX_ENTRIES && forall y :: y in Persisted(r, e) ==> x.createdAt <= y.createdAt
  {
    var next := Put(r, e);
    var r' := Persisted(r, e);
    PutKeeps(r, e);
    PersistedKeepsNewest(r, e);
    assert |r| == MAX_ENTRIES && forall y :: y in r ==> x.createdAt <= y.createdAt;
    assert |r'| == MAX_ENTRIES;
    if Tracks(r, e.rumorId) {
      UpdateKeepsAge(r, written, e, x);
    } else {
      hide Persisted, Newest, Frozen;
      assert |next| == MAX_ENTRIES + 1;
      SomeoneIsDropped(next, r');
      var d :| d in next && d !in r';
      if e in r' { assert d in r; }
    }
    hide Persisted, Put, Newest, Frozen, Tracks;
    assert forall y :: y in r' ==> y in next;
  }

  lemma SomeoneIsDropped(next: seq<Entry>, r: seq<Entry>)
    requires UniqueRumors(next) && |next| > |r|
    ensures exists d :: d in next && d !in r
  {
    if forall d :: d in next ==> d in r { FitsInto(next, r); }
  }

  /** Distinct entries that all occur in a list are no more than the list holds. */
  lemma {:induction false} FitsInto(a: seq<Entry>, b: seq<Entry>)
    requires UniqueRumors(a) && forall e :: e in a ==> e in b
    ensures |a| <= |b|
  {
    if |a| > 0 {
      var e := a[0];
      assert e in b;
      var i :| 0 <= i < |b| && b[i] == e;
      var rest := b[..i] + b[i + 1..];
      forall x | x in a[1..] ensures x in rest {
        var j :| 0 <= j < |a[1..]| && a[1..][j] == x;
        assert a[j + 1] == x && x in b;
        var m :| 0 <= m < |b| && b[m] == x;
        if m < i { assert rest[m] == x; } else { assert rest[m - 1] == x; }
      }
      FitsInto(a[1..], rest);
    }
  }

  lemma PersistedStaysNewest(r: seq<Entry>, written: seq<Entry>, e: Entry)
    requires UniqueRumors(r) && |r| <= MAX_ENTRIES && Newest(r, written)
    requires Frozen(written + [e]) && forall y :: y in r ==> y in written
    ensures Newest(Persisted(r, e), written + [e])
  {
    var r' := Persisted(r, e);
    PutKeeps(r, e);
    PersistedKeepsNewest(r, e);
    forall x | x in written + [e]
      ensures Tracks(r', x.rumorId) || (|r'| == MAX_ENTRIES && forall y :: y in r' ==> x.createdAt <= y.createdAt)
    {
      TracksMember(r, x.rumorId);
      TracksMember(r', x.rumorId);
      if x.rumorId == e.rumorId {
        assert x in written + [e] && e in written + [e];
      } else if Tracks(r, x.rumorId) {
        var z :| z in r && z.rumorId == x.rumorId;
        assert z in written + [e];
      } else {
        UnlistedStaysOlder(r, written, e, x);
      }
    }
  }

  /** After any sequence of writes the durable list holds distinct rumors, at
      most 256 of them, and they are the newest ever written: whatever is not
      listed is no newer than anything that is. */
  lemma {:induction false} DurableListKeepsNewest(stored: seq<Entry>, before: seq<Entry>, writes: seq<Entry>)
    requires UniqueRumors(stored) && |stored| <= MAX_ENTRIES && Frozen(before + writes)
    requires Newest(stored, before) && forall x :: x in stored ==> x in before
    ensures var r := PersistAll(stored, writes);
            UniqueRumors(r) && |r| <= MAX_ENTRIES && Newest(r, before + writes) && forall x :: x in r ==> x in before + writes
    decreases writes
  {
    if |writes| == 0 {
      assert before + writes == before;
    } else {
      var e := writes[0];
      assert before + [e] + writes[1..] == before + writes by { assert writes == [e] + writes[1..]; }
      forall x | x in before + [e] ensures x in before + writes { assert e in writes; }
      PersistedStaysNewest(stored, before, e);
      PersistedKeepsNewest(stored, e);
      PutKeeps(stored, e);
      hide Newest, UniqueRumors, Persisted;
      DurableListKeepsNewest(Persisted(stored, e), before + [e], writes[1..]);
    }
  }

  // ------------------------------------------------ the in-memory registry

  function OfGroup(es: seq<Entry>, g: string): (r: seq<Entry>)
    ensures forall e :: e in r <==> e in es && e.groupId == g
    ensures |r| <= |es|
  {
    if |es| == 0 then [] else (if es[0].groupId == g then [es[0]] else []) + OfGroup(es[1..], g)
  }

  function Without(es: seq<Entry>, id: string): (r: seq<Entry>)
    ensures forall e :: e in r <==> e in es && e.rumorId != id
    ensures |r| <= |es|
  {
    if |es| == 0 then [] else (if es[0].rumorId != id then [es[0]] else []) + Without(es[1..], id)
  }

  lemma {:induction false} WithoutUnique(es: seq<Entry>, id: string)
    requires UniqueRumors(es)
    ensures UniqueRumors(Without(es, id))
  {
    if |es| > 0 {
      WithoutUnique(es[1..], id);
      var r := Without(es[1..], id);
      forall i | 0 <= i < |r| ensures r[i].rumorId != es[0].rumorId {
        assert r[i] in r;
        assert r[i] in es[1..];
      }
    }
  }

  /** Dropping one entry shortens its own group's part by one and touches no other. */
  lemma {:induction false} WithoutOfGroup(es: seq<Entry>, v: Entry, g: string)
    requires UniqueRumors(es) && v in es
    ensures g != v.groupId ==> OfGroup(Without(es, v.rumorId), g) == OfGroup(es, g)
    ensures g == v.groupId ==> |OfGroup(Without(es, v.rumorId), g)| == |OfGroup(es, g)| - 1
  {
    if es[0] == v {
      forall i | 0 <= i < |es[1..]| ensures es[1..][i].rumorId != v.rumorId {
        assert es[1..][i] == es[i + 1];
      }
      NothingToDrop(es[1..], v.rumorId);
      assert Without(es, v.rumorId) == es[1..];
    } else {
      var i :| 0 <= i < |es| && es[i] == v;
      assert es[1..][i - 1] == v && es[0].rumorId != v.rumorId;
      WithoutOfGroup(es[1..], v, g);
      OfGroupHead(es[0], Without(es[1..], v.rumorId), g);
    }
  }

  lemma OfGroupHead(e: Entry, es: seq<Entry>, g: string)
    ensures OfGroup([e] + es, g) == (if e.groupId == g then [e] else []) + OfGroup(es, g)
  {
    assert ([e] + es)[1..] == es;
  }

  lemma {:induction false} NothingToDrop(es: seq<Entry>, id: string)
    requires forall i :: 0 <= i < |es| ==> es[i].rumorId != id
    ensures Without(es, id) == es
  {
    if |es| > 0 { NothingToDrop(es[1..], id); }
  }

  lemma {:induction false} OfGroupUnique(es: seq<Entry>, g: string)
    requires UniqueRumors(es)
    ensures UniqueRumors(OfGroup(es, g))
  {
    if |es| > 0 {
      OfGroupUnique(es[1..], g);
      var r := OfGroup(es[1..], g);
      forall i | 0 <= i < |r| ensures r[i].rumorId != es[0].rumorId {
        assert r[i] in r;
        assert r[i] in es[1..];
      }
    }
  }

  function Evict(es: seq<Entry>, victims: seq<Entry>): (r: seq<Entry>)
    decreases victims
  {
    if |victims| == 0 then es else Evict(Without(es, victims[0].rumorId), victims[1..])
  }

  predicate Named(victims: seq<Entry>, id: string) {
    exists i :: 0 <= i < |victims| && victims[i].rumorId == id
  }

  lemma {:induction false} EvictMembers(es: seq<Entry>, victims: seq<Entry>)
    requires UniqueRumors(es)
    ensures UniqueRumors(Evict(es, victims)) && forall e :: e in Evict(es, victims) <==> e in es && !Named(victims, e.rumorId)
    decreases victims
  {
    if |victims| > 0 {
      WithoutUnique(es, victims[0].rumorId);
      EvictMembers(Without(es, victims[0].rumorId), victims[1..]);
      forall id ensures Named(victims, id) <==> victims[0].rumorId == id || Named(victims[1..], id) {
        NamedFirst(victims, id);
      }
    }
  }

  /** Evicting distinct entries of one group: that part shrinks, the others stay. */
  lemma {:induction false} EvictCounts(es: seq<Entry>, victims: seq<Entry>, g: string, h: string)
    requires UniqueRumors(es) && UniqueRumors(victims)
    requires forall i :: 0 <= i < |victims| ==> victims[i] in es && victims[i].groupId == g
    ensures var r := Evict(es, victims);
            |OfGroup(r, g)| == |OfGroup(es, g)| - |victims| && (h != g ==> OfGroup(r, h) == OfGroup(es, h))
    decreases victims
  {
    if |victims| > 0 {
      var v := victims[0];
      var es1 := Without(es, v.rumorId);
      WithoutUnique(es, v.rumorId);
      WithoutOfGroup(es, v, g);
      WithoutOfGroup(es, v, h);
      forall i | 0 <= i < |victims[1..]| ensures victims[1..][i] in es1 && victims[1..][i].groupId == g {
        assert victims[1..][i] == victims[i + 1];
      }
      assert UniqueRumors(victims[1..]);
      hide OfGroup, Without, UniqueRumors;
      EvictCounts(es1, victims[1..], g, h);
    }
  }

  lemma NamedFirst(victims: seq<Entry>, id: string)
    requires |victims| > 0
    ensures Named(victims, id) <==> victims[0].rumorId == id || Named(victims[1..], id)
  {
    if Named(victims, id) && victims[0].rumorId != id {
      var i :| 0 <= i < |victims| && victims[i].rumorId == id;
      assert victims[1..][i - 1].rumorId == id;
    }
    if Named(victims[1..], id) {
      var i :| 0 <= i < |victims[1..]| && victims[1..][i].rumorId == id;
      assert victims[i + 1].rumorId == id;
    }
  }

  /** The eldest entries of a group beyond the bound. */
  function Victims(es: seq<Entry>, g: string): (r: seq<Entry>) {
    var own := OfGroup(es, g);
    if |own| <= MAX_ENTRIES then [] else SortByAge(own)[..|own| - MAX_ENTRIES]
  }

  function Capped(es: seq<Entry>, g: string): (r: seq<Entry>) {
    Evict(es, Victims(es, g))
  }

  /** enforceOutboxCap; the hook is told the evicted ids, eldest first. */
  method EnforceOutboxCap(entries: seq<Entry>, groupId: string) returns (kept: seq<Entry>, evicted: seq<string>)
    ensures kept == Capped(entries, groupId)
    ensures |evicted| == |Victims(entries, groupId)| &&
            forall i :: 0 <= i < |evicted| ==> evicted[i] == Victims(entries, groupId)[i].rumorId
  {
    kept, evicted := entries, [];
    var groupEntries := OfGroup(entries, groupId);
    if |groupEntries| <= MAX_ENTRIES { return; }
    var sorted := SortByAge(groupEntries);
    var evictCount := |groupEntries| - MAX_ENTRIES;
    ghost var victims := sorted[..evictCount];
    for i := 0 to evictCount
      invariant |evicted| == i && forall k :: 0 <= k < i ==> evicted[k] == victims[k].rumorId
      invariant Evict(kept, victims[i..]) == Evict(entries, victims)
    {
      assert victims[i..][0] == sorted[i] && victims[i..][1..] == victims[i + 1..];
      kept := Without(kept, sorted[i].rumorId);
      evicted := evicted + [sorted[i].rumorId];
    }
    assert victims[evictCount..] == [];
  }

  /** The cap bounds its group, leaves every other group as it was, evicts only
      entries no newer than any it keeps, and none unless the bound is exceeded. */
  lemma CapKeepsNewest(es: seq<Entry>, g: string, h: string)
    requires UniqueRumors(es)
    ensures var r := Capped(es, g);
            UniqueRumors(r) && (forall e :: e in r ==> e in es) &&
            |OfGroup(r, g)| == (if |OfGroup(es, g)| <= 256 then |OfGroup(es, g)| else 256) &&
            (h != g ==> OfGroup(r, h) == OfGroup(es, h)) &&
            (forall v, k :: v in es && v !in r && k in r && k.groupId == g ==> v.groupId == g && v.createdAt <= k.createdAt)
  {
    var own := OfGroup(es, g);
    if |own| > MAX_ENTRIES {
      var sorted := SortByAge(own);
      var cut := |own| - MAX_ENTRIES;
      var victims := sorted[..cut];
      OfGroupUnique(es, g);
      SortSorts(own);
      SameMembers(sorted, own);
      UniqueReordered(own, sorted);
      forall i | 0 <= i < cut ensures victims[i] in es && victims[i].groupId == g { assert sorted[i] in sorted; }
      EvictMembers(es, victims);
      EvictCounts(es, victims, g, h);
      hide UniqueRumors, SortByAge, ByAge, Named;
      forall v, k | v in es && v !in Capped(es, g) && k in Capped(es, g) && k.groupId == g
        ensures v.groupId == g && v.createdAt <= k.createdAt
      {
        EldestGo(es, sorted, cut, v, k);
      }
    }
  }

  lemma EldestGo(es: seq<Entry>, sorted: seq<Entry>, cut: nat, v: Entry, k: Entry)
    requires UniqueRumors(es) && ByAge(sorted) && cut <= |sorted| && forall e :: e in sorted ==> e in es
    requires v in es && Named(sorted[..cut], v.rumorId) && k in sorted && !Named(sorted[..cut], k.rumorId)
    ensures v in sorted && v.createdAt <= k.createdAt
  {
    var i :| 0 <= i < cut && sorted[..cut][i].rumorId == v.rumorId;
    assert sorted[i] in sorted && sorted[i] == v;
    var j :| 0 <= j < |sorted| && sorted[j] == k;
    forall m | 0 <= m < cut ensures sorted[m] != k { assert sorted[..cut][m].rumorId != k.rumorId; }
  }
}
