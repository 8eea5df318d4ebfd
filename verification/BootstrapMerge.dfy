/** The two merges of relay snapshots into one winner per record id:
    fetchBootstrap (src/integration/marmot-adapter.ts) and
    fetchAndApplyTaskBootstrap (src/marmot/device-sync.ts). */

module BootstrapMerge {
  import opened Wrappers
  import opened TaskDomain

  /** One element of a snapshot's `tasks` array. A member may have written null, or
      an object in which a field other than the id and the stamp is missing or
      mistyped (a status "archived", say): `task` then stands for what the order
      reads of it. */
  datatype Entry = Valid(task: Task) | Loose(task: Task) | Null

  /** A record as a merge holds it. */
  datatype Item = Item(task: Task, typed: bool) {
    const id := task.id
  }

  function StampOf(i: Item): (r: Stamp) {
    StampOfTask(i.task)
  }

  function ItemOf(e: Entry): (r: Item)
    requires !e.Null?
  {
    Item(e.task, e.Valid?)
  }

  /** fetchBootstrap checks every field; the other merge reads what it finds. */
  predicate Read(e: Entry, strict: bool) {
    e.Valid? || (e.Loose? && !strict)
  }

  /** A relay event; `payload` is None when decryption, parsing or the shape check fails. */
  datatype Snapshot = Snapshot(id: string, author: string, createdAt: int, payload: Option<seq<Entry>>)

  datatype BootstrapMessage = BootstrapMessage(factId: string, rumorId: string, payload: TaskEvent)

  // ------------------------------------------------ the merge, as a fold

  function Offer(m: map<string, Item>, t: Item): (r: map<string, Item>) {
    if t.id !in m || WinsOver(StampOf(t), StampOf(m[t.id])) then m[t.id := t] else m
  }

  function Merge(m: map<string, Item>, ts: seq<Item>): (r: map<string, Item>)
    decreases ts
  {
    if |ts| == 0 then m else Merge(Offer(m, ts[0]), ts[1..])
  }

  lemma {:induction false} MergeAppend(m: map<string, Item>, a: seq<Item>, b: seq<Item>)
    ensures Merge(m, a + b) == Merge(Merge(m, a), b)
    decreases a
  {
    if |a| == 0 {
      assert a + b == b;
    } else {
      assert (a + b)[0] == a[0] && (a + b)[1..] == a[1..] + b;
      MergeAppend(Offer(m, a[0]), a[1..], b);
    }
  }

  /** `t` is among the entries for its id and no entry for that id beats it. */
  predicate IsMaximal(t: Item, ts: seq<Item>) {
    t in ts && forall u :: u in ts && u.id == t.id ==> AtLeast(StampOf(t), StampOf(u))
  }

  /** Per id, the merge holds the initial record unless an entry beats it, and
      otherwise an entry that no entry beats. */
  lemma {:induction false} MergeKeepsMaximum(m: map<string, Item>, ts: seq<Item>)
    requires forall id :: id in m ==> m[id].id == id
    ensures var r := Merge(m, ts);
            (forall id :: id in r <==> id in m || exists t :: t in ts && t.id == id) &&
            (forall id :: id in r ==>
              r[id].id == id &&
              (r[id] in ts || (id in m && r[id] == m[id])) &&
              (id in m ==> AtLeast(StampOf(r[id]), StampOf(m[id]))) &&
              (id in m && r[id] != m[id] ==> WinsOver(StampOf(r[id]), StampOf(m[id]))) &&
              forall t :: t in ts && t.id == id ==> AtLeast(StampOf(r[id]), StampOf(t)))
    decreases ts
  {
    if |ts| == 0 {
      forall id | id in m { WinsOverIrreflexive(StampOf(m[id])); }
    } else {
      var t := ts[0];
      var m' := Offer(m, t);
      MergeKeepsMaximum(m', ts[1..]);
      var r := Merge(m, ts);
      assert ts == [t] + ts[1..];
      forall id | id in r
        ensures (id in m ==> AtLeast(StampOf(r[id]), StampOf(m[id])))
        ensures (id in m && r[id] != m[id] ==> WinsOver(StampOf(r[id]), StampOf(m[id])))
        ensures t.id == id ==> AtLeast(StampOf(r[id]), StampOf(t))
      {
        WinsOverIrreflexive(StampOf(t));
        if id in m {
          if m'[id] != m[id] {
            WinsOverAsymmetric(StampOf(t), StampOf(m[id]));
            if r[id] != m'[id] { WinsOverTransitive(StampOf(r[id]), StampOf(t), StampOf(m[id])); }
          }
          AtLeastTransitive(StampOf(r[id]), StampOf(m'[id]), StampOf(m[id])) by {
            WinsOverIrreflexive(StampOf(m[id]));
          }
        }
        if t.id == id { AtLeastTransitive(StampOf(r[id]), StampOf(m'[id]), StampOf(t)); }
      }
    }
  }

  // ------------------------------------------------ relay order

  /** For each id, the entries that no other entry beats are one and the same record. */
  ghost predicate MaximaAgree(ts: seq<Item>) {
    forall t, u :: IsMaximal(t, ts) && IsMaximal(u, ts) && t.id == u.id ==> t == u
  }

  ghost predicate OrderFree(ts: seq<Item>) {
    forall us: seq<Item> :: multiset(us) == multiset(ts) ==> Merge(map[], us) == Merge(map[], ts)
  }

  /** From an empty map the winner of each id is a maximal entry. */
  lemma WinnersAreMaximal(ts: seq<Item>, id: string)
    requires id in Merge(map[], ts)
    ensures IsMaximal(Merge(map[], ts)[id], ts) && Merge(map[], ts)[id].id == id
  {
    MergeKeepsMaximum(map[], ts);
  }

  lemma SameEntries(a: seq<Item>, b: seq<Item>)
    requires multiset(a) == multiset(b)
    ensures forall t :: t in a <==> t in b
    ensures forall t :: IsMaximal(t, a) <==> IsMaximal(t, b)
  {
    SameMembers(a, b);
  }

  lemma SameWinner(us: seq<Item>, ts: seq<Item>, id: string)
    requires MaximaAgree(ts) && multiset(us) == multiset(ts) && id in Merge(map[], us)
    ensures id in Merge(map[], ts) && Merge(map[], ts)[id] == Merge(map[], us)[id]
  {
    SameEntries(us, ts);
    MergeKeepsMaximum(map[], us);
    WinnersAreMaximal(us, id);
    MergeKeepsMaximum(map[], ts);
    WinnersAreMaximal(ts, id);
  }

  lemma MaximaAgreeImpliesOrderFree(ts: seq<Item>)
    requires MaximaAgree(ts)
    ensures OrderFree(ts)
  {
    forall us: seq<Item> | multiset(us) == multiset(ts) ensures Merge(map[], us) == Merge(map[], ts) {
      hide IsMaximal;
      SameEntries(us, ts);
      assert MaximaAgree(us);
      forall id | id in Merge(map[], us) ensures id in Merge(map[], ts) && Merge(map[], ts)[id] == Merge(map[], us)[id] {
        SameWinner(us, ts, id);
      }
      forall id | id in Merge(map[], ts) ensures id in Merge(map[], us) {
        SameWinner(ts, us, id);
      }
    }
  }

  /** A maximal entry that comes first is never displaced. */
  lemma {:induction false} FirstMaximalStays(m: map<string, Item>, t: Item, ts: seq<Item>)
    requires t.id in m && m[t.id] == t
    requires forall u :: u in ts && u.id == t.id ==> AtLeast(StampOf(t), StampOf(u))
    ensures t.id in Merge(m, ts) && Merge(m, ts)[t.id] == t
    decreases ts
  {
    if |ts| > 0 { FirstMaximalStays(Offer(m, ts[0]), t, ts[1..]); }
  }

  /** Moving a maximal entry to the front makes it the winner. */
  lemma SomeOrderPicks(t: Item, ts: seq<Item>) returns (us: seq<Item>)
    requires IsMaximal(t, ts)
    ensures multiset(us) == multiset(ts)
    ensures t.id in Merge(map[], us) && Merge(map[], us)[t.id] == t
  {
    var i :| 0 <= i < |ts| && ts[i] == t;
    var rest := ts[..i] + ts[i + 1..];
    us := [t] + rest;
    assert ts == ts[..i] + [t] + ts[i + 1..];
    assert multiset(us) == multiset(ts);
    assert us[1..] == rest;
    assert forall u :: u in rest ==> u in ts;
    FirstMaximalStays(map[t.id := t], t, rest);
  }

  /** The winners do not depend on relay order exactly when, per id, all
      unbeaten entries are equal. Two different records with the same id and the
      same stamp are enough to make relay order show. */
  lemma OrderFreeExactly(ts: seq<Item>)
    ensures OrderFree(ts) <==> MaximaAgree(ts)
  {
    if MaximaAgree(ts) {
      MaximaAgreeImpliesOrderFree(ts);
    } else {
      var t, u :| IsMaximal(t, ts) && IsMaximal(u, ts) && t.id == u.id && t != u;
      var a := SomeOrderPicks(t, ts);
      var b := SomeOrderPicks(u, ts);
      assert Merge(map[], a) != Merge(map[], b);
    }
  }

  // ------------------------------------------------ the entries a fetch looks at

  function ReadItems(entries: seq<Entry>, strict: bool): (r: seq<Item>) {
    if |entries| == 0 then []
    else (if Read(entries[0], strict) then [ItemOf(entries[0])] else []) + ReadItems(entries[1..], strict)
  }

  /** The entries that are read of the decodable snapshots of members, in relay order. */
  function Offered(events: seq<Snapshot>, members: seq<string>, strict: bool): (r: seq<Item>) {
    if |events| == 0 then []
    else
      (if events[0].author in members && events[0].payload.Some? then ReadItems(events[0].payload.value, strict) else [])
      + Offered(events[1..], members, strict)
  }

  lemma {:induction false} ReadItemsAppend(a: seq<Entry>, b: seq<Entry>, strict: bool)
    ensures ReadItems(a + b, strict) == ReadItems(a, strict) + ReadItems(b, strict)
  {
    if |a| == 0 {
      assert a + b == b;
    } else {
      assert (a + b)[0] == a[0] && (a + b)[1..] == a[1..] + b;
      ReadItemsAppend(a[1..], b, strict);
      ConcatAssociates(if Read(a[0], strict) then [ItemOf(a[0])] else [], ReadItems(a[1..], strict), ReadItems(b, strict));
    }
  }

  lemma {:induction false} OfferedAppend(a: seq<Snapshot>, b: seq<Snapshot>, members: seq<string>, strict: bool)
    ensures Offered(a + b, members, strict) == Offered(a, members, strict) + Offered(b, members, strict)
  {
    if |a| == 0 {
      assert a + b == b;
    } else {
      assert (a + b)[0] == a[0] && (a + b)[1..] == a[1..] + b;
      OfferedAppend(a[1..], b, members, strict);
      var head := if a[0].author in members && a[0].payload.Some? then ReadItems(a[0].payload.value, strict) else [];
      ConcatAssociates(head, Offered(a[1..], members, strict), Offered(b, members, strict));
    }
  }

  lemma MiddleOut<T>(x: seq<T>, y: seq<T>, z: seq<T>)
    ensures multiset(x + y + z) == multiset(y) + multiset(x + z)
  {
  }

  lemma OfferedWithout(b: seq<Snapshot>, i: nat, members: seq<string>, strict: bool)
    requires i < |b|
    ensures multiset(Offered(b, members, strict)) ==
            multiset(Offered([b[i]], members, strict)) + multiset(Offered(b[..i] + b[i + 1..], members, strict))
  {
    hide Offered;
    assert b == b[..i] + [b[i]] + b[i + 1..];
    OfferedAppend(b[..i] + [b[i]], b[i + 1..], members, strict);
    OfferedAppend(b[..i], [b[i]], members, strict);
    OfferedAppend(b[..i], b[i + 1..], members, strict);
    MiddleOut(Offered(b[..i], members, strict), Offered([b[i]], members, strict), Offered(b[i + 1..], members, strict));
  }

  lemma SameWithout<T>(a: seq<T>, b: seq<T>, i: nat)
    requires multiset(a) == multiset(b) && |a| > 0 && i < |b| && b[i] == a[0]
    ensures multiset(a[1..]) == multiset(b[..i] + b[i + 1..])
  {
    assert a == [a[0]] + a[1..];
    assert b == b[..i] + [b[i]] + b[i + 1..];
    assert multiset(a[1..]) == multiset(a) - multiset{a[0]};
    assert multiset(b[..i] + b[i + 1..]) == multiset(b) - multiset{b[i]};
  }

  /** Whole snapshots may arrive in any order: what is offered is the same multiset. */
  lemma {:induction false} OfferedIsOrderFree(a: seq<Snapshot>, b: seq<Snapshot>, members: seq<string>, strict: bool)
    requires multiset(a) == multiset(b)
    ensures multiset(Offered(a, members, strict)) == multiset(Offered(b, members, strict))
    decreases a
  {
    if |a| == 0 {
      assert |multiset(b)| == |b|;
    } else {
      assert a[0] in multiset(b);
      var i :| 0 <= i < |b| && b[i] == a[0];
      var rest := b[..i] + b[i + 1..];
      SameWithout(a, b, i);
      OfferedIsOrderFree(a[1..], rest, members, strict);
      OfferedWithout(b, i, members, strict);
      OfferedWithout(a, 0, members, strict);
      assert a[..0] + a[1..] == a[1..];
    }
  }

  /** Winners per id are independent of the order the relays answer in. */
  lemma SnapshotOrderIsIrrelevant(a: seq<Snapshot>, b: seq<Snapshot>, members: seq<string>, strict: bool)
    requires multiset(a) == multiset(b) && MaximaAgree(Offered(a, members, strict))
    ensures Merge(map[], Offered(a, members, strict)) == Merge(map[], Offered(b, members, strict))
  {
    OfferedIsOrderFree(a, b, members, strict);
    OrderFreeExactly(Offered(a, members, strict));
  }

  // ------------------------------------------------ ordered maps

  /** The values of an insertion-ordered map with keys `order`. */
  function Values(m: map<string, Item>, order: seq<string>): (r: seq<Item>)
    requires forall id :: id in order ==> id in m
    ensures |r| == |order| && forall i :: 0 <= i < |order| ==> r[i] == m[order[i]]
  {
    seq(|order|, i requires 0 <= i < |order| => m[order[i]])
  }

  predicate Distinct(order: seq<string>) {
    forall i, j :: 0 <= i < j < |order| ==> order[i] != order[j]
  }

  /** `out` lists the values of `m`, each key once. */
  predicate Lists(out: seq<Item>, m: map<string, Item>) {
    (forall i, j :: 0 <= i < j < |out| ==> out[i].id != out[j].id) &&
    (forall t :: t in out ==> t.id in m && m[t.id] == t) &&
    (forall id :: id in m ==> exists t :: t in out && t.id == id)
  }

  lemma ValuesList(m: map<string, Item>, order: seq<string>)
    requires Ordered(m, order)
    ensures Lists(Values(m, order), m)
  {
    var out := Values(m, order);
    forall id | id in m ensures exists t :: t in out && t.id == id {
      var i :| 0 <= i < |order| && order[i] == id;
      assert out[i] in out && out[i].id == id;
    }
  }

  // ------------------------------------------------ fetchBootstrap

  /** The most recently created qualifying event, the first one among equals. */
  predicate IsRepresentative(s: Snapshot, qualifying: seq<Snapshot>) {
    exists i :: 0 <= i < |qualifying| && qualifying[i] == s &&
                (forall j :: 0 <= j < i ==> qualifying[j].createdAt < s.createdAt) &&
                (forall j :: i <= j < |qualifying| ==> qualifying[j].createdAt <= s.createdAt)
  }

  function Qualifying(events: seq<Snapshot>, members: seq<string>): (r: seq<Snapshot>)
    ensures forall s :: s in r <==> s in events && s.author in members
  {
    if |events| == 0 then []
    else (if events[0].author in members then [events[0]] else []) + Qualifying(events[1..], members)
  }

  lemma {:induction false} OfferedQualifying(events: seq<Snapshot>, members: seq<string>, strict: bool)
    ensures Offered(Qualifying(events, members), members, strict) == Offered(events, members, strict)
  {
    if |events| > 0 {
      OfferedQualifying(events[1..], members, strict);
      var q := Qualifying(events[1..], members);
      if events[0].author in members {
        assert Qualifying(events, members)[1..] == q;
      } else {
        assert Qualifying(events, members) == q;
      }
    }
  }

  method Representative(qualifying: seq<Snapshot>) returns (latest: Snapshot)
    requires |qualifying| > 0
    ensures IsRepresentative(latest, qualifying)
  {
    latest := qualifying[0];
    ghost var at := 0;
    for i := 1 to |qualifying|
      invariant 0 <= at < i && qualifying[at] == latest
      invariant forall j :: 0 <= j < at ==> qualifying[j].createdAt < latest.createdAt
      invariant forall j :: at <= j < i ==> qualifying[j].createdAt <= latest.createdAt
    {
      if qualifying[i].createdAt > latest.createdAt {
        latest := qualifying[i];
        at := i;
      }
    }
  }

  function Messages(groupId: string, factId: string, winners: seq<Item>): (r: seq<BootstrapMessage>) {
    seq(|winners|, i requires 0 <= i < |winners| =>
      BootstrapMessage(factId, BootstrapEventId(groupId, winners[i].id), Created(winners[i].task)))
  }

  /** `reply` is None when the relay request fails. One message per winner, all
      on the representative event's fact; `winners` lists exactly the merge of
      the offered entries. */
  method FetchBootstrap(groupId: string, hasNip44: bool, reply: Option<seq<Snapshot>>, members: seq<string>)
    returns (out: seq<BootstrapMessage>, ghost winners: seq<Item>, ghost representative: Option<Snapshot>)
    ensures out == Messages(groupId, if representative.Some? then representative.value.id else "", winners)
    ensures !hasNip44 || reply.None? ==> out == []
    ensures hasNip44 && reply.Some? ==> Lists(winners, Merge(map[], Offered(reply.value, members, true)))
    ensures out != [] ==> reply.Some? && representative.Some? &&
                          IsRepresentative(representative.value, Qualifying(reply.value, members))
  {
    out, winners, representative := [], [], None;
    if !hasNip44 || reply.None? { return; }
    var qualifying := Qualifying(reply.value, members);
    OfferedQualifying(reply.value, members, true);
    var merged, order := MergeAll(qualifying, members);
    ValuesList(merged, order);
    if |order| == 0 { return; }
    assert |qualifying| > 0 by { assert order[0] in order; }
    var latest := Representative(qualifying);
    var values := Values(merged, order);
    representative, winners := Some(latest), values;
    out := Messages(groupId, latest.id, values);
  }

  method MergeAll(qualifying: seq<Snapshot>, members: seq<string>)
    returns (winners: map<string, Item>, order: seq<string>)
    requires forall s :: s in qualifying ==> s.author in members
    ensures winners == Merge(map[], Offered(qualifying, members, true)) && Ordered(winners, order)
  {
    winners, order := map[], [];
    for i := 0 to |qualifying|
      invariant winners == Merge(map[], Offered(qualifying[..i], members, true)) && Ordered(winners, order)
    {
      OfferedStep(qualifying, i, members, true);
      MergeAppend(map[], Offered(qualifying[..i], members, true), Offered([qualifying[i]], members, true));
      assert qualifying[i] in qualifying;
      if qualifying[i].payload.Some? {
        winners, order := MergeSnapshot(winners, order, qualifying[i].payload.value);
      }
    }
    assert qualifying[..|qualifying|] == qualifying;
  }

  /** An insertion-ordered map of records: the map and its keys in order. */
  ghost predicate Ordered(m: map<string, Item>, order: seq<string>) {
    Distinct(order) && (forall id :: id in order <==> id in m) && forall id :: id in m ==> m[id].id == id
  }

  lemma OfferedStep(events: seq<Snapshot>, i: nat, members: seq<string>, strict: bool)
    requires i < |events|
    ensures Offered(events[..i + 1], members, strict) == Offered(events[..i], members, strict) + Offered([events[i]], members, strict)
    ensures Offered([events[i]], members, strict) ==
            if events[i].author in members && events[i].payload.Some? then ReadItems(events[i].payload.value, strict) else []
  {
    assert events[..i + 1] == events[..i] + [events[i]];
    OfferedAppend(events[..i], [events[i]], members, strict);
    assert Offered([events[i]][1..], members, strict) == [];
  }

  lemma ReadItemsStep(entries: seq<Entry>, j: nat, strict: bool)
    requires j < |entries|
    ensures ReadItems(entries[..j + 1], strict) ==
            ReadItems(entries[..j], strict) + if Read(entries[j], strict) then [ItemOf(entries[j])] else []
  {
    assert entries[..j + 1] == entries[..j] + [entries[j]];
    ReadItemsAppend(entries[..j], [entries[j]], strict);
    assert ReadItems([entries[j]][1..], strict) == [];
  }

  lemma MergeOne(before: map<string, Item>, ts: seq<Item>, t: Item)
    ensures Merge(before, ts + [t]) == Offer(Merge(before, ts), t)
  {
    MergeAppend(before, ts, [t]);
    assert Merge(Offer(Merge(before, ts), t), [t][1..]) == Offer(Merge(before, ts), t);
  }

  method MergeSnapshot(winners: map<string, Item>, order: seq<string>, entries: seq<Entry>)
    returns (winners': map<string, Item>, order': seq<string>)
    requires Ordered(winners, order)
    ensures winners' == Merge(winners, ReadItems(entries, true)) && Ordered(winners', order')
  {
    winners', order' := winners, order;
    for j := 0 to |entries|
      invariant winners' == Merge(winners, ReadItems(entries[..j], true)) && Ordered(winners', order')
    {
      ReadItemsStep(entries, j, true);
      if entries[j].Valid? {
        var t := ItemOf(entries[j]);
        MergeOne(winners, ReadItems(entries[..j], true), t);
        if t.id !in winners' || WinsOver(StampOf(t), StampOf(winners'[t.id])) {
          if t.id !in winners' { order' := order' + [t.id]; }
          winners' := winners'[t.id := t];
        }
      } else {
        assert ReadItems(entries[..j], true) + [] == ReadItems(entries[..j], true);
      }
    }
    assert entries[..|entries|] == entries;
  }

  // ------------------------------------------------ fetchAndApplyTaskBootstrap

  predicate HasNull(entries: seq<Entry>) {
    exists i :: 0 <= i < |entries| && entries[i].Null?
  }

  /** The snapshots this merge reads: every one when the member list is unknown. */
  function Authors(members: Option<seq<string>>, events: seq<Snapshot>): (r: seq<string>) {
    if members.Some? then members.value else seq(|events|, i requires 0 <= i < |events| => events[i].author)
  }

  predicate Reads(s: Snapshot, members: Option<seq<string>>) {
    (members.None? || s.author in members.value) && s.payload.Some?
  }

  predicate Poisoned(events: seq<Snapshot>, members: Option<seq<string>>) {
    exists i :: 0 <= i < |events| && Reads(events[i], members) && HasNull(events[i].payload.value)
  }

  lemma ReadStep(m: map<string, Item>, events: seq<Snapshot>, i: nat, members: Option<seq<string>>)
    requires i < |events|
    ensures var authors := Authors(members, events);
            Merge(m, Offered(events[..i + 1], authors, false)) ==
              (var before := Merge(m, Offered(events[..i], authors, false));
               if Reads(events[i], members) then Merge(before, ReadItems(events[i].payload.value, false)) else before)
    ensures !Poisoned(events[..i], members) ==>
              (Poisoned(events[..i + 1], members) <==> Reads(events[i], members) && HasNull(events[i].payload.value))
    ensures Poisoned(events[..i + 1], members) ==> Poisoned(events, members)
  {
    var authors := Authors(members, events);
    OfferedStep(events, i, authors, false);
    MergeAppend(m, Offered(events[..i], authors, false), Offered([events[i]], authors, false));
    assert members.None? ==> authors[i] == events[i].author;
    if Poisoned(events[..i + 1], members) {
      var k :| 0 <= k < i + 1 && Reads(events[..i + 1][k], members) && HasNull(events[..i + 1][k].payload.value);
      assert events[..i + 1][k] == events[k];
      if k < i { assert events[..i][k] == events[k]; }
    }
    assert events[..i + 1][i] == events[i];
  }

  /** Which of the merged winners beat the current state. */
  function Won(current: map<string, Item>, merged: map<string, Item>): (r: map<string, Item>) {
    map id | id in merged && (id !in current || WinsOver(StampOf(merged[id]), StampOf(current[id]))) :: merged[id]
  }

  /** `merged` holds every current record or one that beats it. */
  predicate Raised(current: map<string, Item>, merged: map<string, Item>) {
    forall id :: id in current ==>
      id in merged && (merged[id] == current[id] || WinsOver(StampOf(merged[id]), StampOf(current[id])))
  }

  lemma WonStep(current: map<string, Item>, merged: map<string, Item>, t: Item)
    requires Raised(current, merged)
    ensures var next := Offer(merged, t);
            Raised(current, next) &&
            Won(current, next) == if next != merged then Won(current, merged)[t.id := t] else Won(current, merged)
  {
    var next := Offer(merged, t);
    if t.id !in merged || WinsOver(StampOf(t), StampOf(merged[t.id])) {
      if t.id in merged { WinsOverIrreflexive(StampOf(t)); }
      assert next != merged by { assert t.id in next && next[t.id] == t; }
      if t.id in current && merged[t.id] != current[t.id] {
        WinsOverTransitive(StampOf(t), StampOf(merged[t.id]), StampOf(current[t.id]));
      }
      assert Won(current, next) == Won(current, merged)[t.id := t];
    }
  }

  /** The state of the second merge: `accepted` starts from the current records,
      `won` collects what beat them, in first-win order. */
  ghost predicate Tracks(current: map<string, Item>, accepted: map<string, Item>, won: map<string, Item>, order: seq<string>) {
    won == Won(current, accepted) && Raised(current, accepted) && Ordered(won, order) &&
    forall id :: id in accepted ==> accepted[id].id == id
  }

  /** `threw` models the exception raised by reading the id of a null entry. */
  method ApplySnapshot(current: map<string, Item>, accepted: map<string, Item>, won: map<string, Item>,
                       order: seq<string>, entries: seq<Entry>)
    returns (accepted': map<string, Item>, won': map<string, Item>, order': seq<string>, threw: bool)
    requires Tracks(current, accepted, won, order)
    ensures threw == HasNull(entries)
    ensures !threw ==> accepted' == Merge(accepted, ReadItems(entries, false)) && Tracks(current, accepted', won', order')
  {
    accepted', won', order', threw := accepted, won, order, false;
    for j := 0 to |entries|
      invariant !threw && !HasNull(entries[..j])
      invariant accepted' == Merge(accepted, ReadItems(entries[..j], false)) && Tracks(current, accepted', won', order')
    {
      if entries[j].Null? {
        threw := true;
        return;
      }
      var t := ItemOf(entries[j]);
      ReadItemsStep(entries, j, false);
      MergeOne(accepted, ReadItems(entries[..j], false), t);
      WonStep(current, accepted', t);
      if t.id !in accepted' || WinsOver(StampOf(t), StampOf(accepted'[t.id])) {
        if t.id !in won' { order' := order' + [t.id]; }
        accepted' := accepted'[t.id := t];
        won' := won'[t.id := t];
      }
    }
    assert entries[..|entries|] == entries;
  }

  /** The result lists exactly the merged winners that beat the current state;
      a null entry makes the whole fetch return nothing. */
  method FetchAndApplyTaskBootstrap(reply: Option<seq<Snapshot>>, hasClient: bool, hasNip44: bool,
                                    members: Option<seq<string>>, currentState: map<string, Item>)
    returns (events: seq<TaskEvent>, ghost listed: seq<Item>)
    requires forall id :: id in currentState ==> currentState[id].id == id
    ensures |listed| == |events| && forall i :: 0 <= i < |events| ==> events[i] == Created(listed[i].task)
    ensures !hasClient || !hasNip44 || reply.None? || Poisoned(reply.value, members) ==> events == []
    ensures hasClient && hasNip44 && reply.Some? && !Poisoned(reply.value, members) ==>
      Lists(listed, Won(currentState, Merge(currentState, Offered(reply.value, Authors(members, reply.value), false))))
  {
    events, listed := [], [];
    if !hasClient || !hasNip44 || reply.None? { return; }
    var snapshots := reply.value;
    ghost var authors := Authors(members, snapshots);
    var accepted, won: map<string, Item>, order: seq<string> := currentState, map[], [];
    assert Won(currentState, currentState) == map[] by {
      forall id | id in currentState { WinsOverIrreflexive(StampOf(currentState[id])); }
    }
    for i := 0 to |snapshots|
      invariant accepted == Merge(currentState, Offered(snapshots[..i], authors, false))
      invariant Tracks(currentState, accepted, won, order)
      invariant !Poisoned(snapshots[..i], members)
    {
      ReadStep(currentState, snapshots, i, members);
      if Reads(snapshots[i], members) {
        var threw;
        accepted, won, order, threw := ApplySnapshot(currentState, accepted, won, order, snapshots[i].payload.value);
        if threw { return; }
      }
    }
    assert snapshots[..|snapshots|] == snapshots;
    ValuesList(won, order);
    var values := Values(won, order);
    listed := values;
    events := seq(|values|, i requires 0 <= i < |values| => Created(values[i].task));
  }

  // ------------------------------------------------ the two agree

  /** Against a current state, an id is emitted exactly when one of its entries
      beats what the state holds, and then with an unbeaten entry. */
  lemma EmittedExactly(current: map<string, Item>, ts: seq<Item>, id: string)
    requires forall k :: k in current ==> current[k].id == k
    ensures id in Won(current, Merge(current, ts)) <==>
            exists t :: t in ts && t.id == id && (id in current ==> WinsOver(StampOf(t), StampOf(current[id])))
    ensures id in Won(current, Merge(current, ts)) ==> IsMaximal(Won(current, Merge(current, ts))[id], ts)
  {
    var r := Merge(current, ts);
    MergeKeepsMaximum(current, ts);
    if t :| t in ts && t.id == id && (id in current ==> WinsOver(StampOf(t), StampOf(current[id]))) {
      assert id in r;
      if id in current && r[id] == current[id] { assert false; }
    }
    if id in Won(current, r) && id in current { WinsOverIrreflexive(StampOf(current[id])); }
  }

  /** What the two fetches list on the same relay reply, an empty state and a known member list. */
  function AdapterWinners(events: seq<Snapshot>, members: seq<string>): (r: map<string, Item>) {
    Merge(map[], Offered(events, members, true))
  }

  function DeviceSyncWinners(events: seq<Snapshot>, members: seq<string>): (r: map<string, Item>) {
    if Poisoned(events, Some(members)) then map[]
    else Won(map[], Merge(map[], Offered(events, members, false)))
  }

  function Typed(ts: seq<Item>): (r: seq<Item>)
    ensures forall t :: t in r <==> t in ts && t.typed
  {
    if |ts| == 0 then [] else (if ts[0].typed then [ts[0]] else []) + Typed(ts[1..])
  }

  lemma {:induction false} TypedAppend(a: seq<Item>, b: seq<Item>)
    ensures Typed(a + b) == Typed(a) + Typed(b)
  {
    if |a| == 0 {
      assert a + b == b;
    } else {
      assert (a + b)[0] == a[0] && (a + b)[1..] == a[1..] + b;
      TypedAppend(a[1..], b);
      ConcatAssociates(if a[0].typed then [a[0]] else [], Typed(a[1..]), Typed(b));
    }
  }

  lemma {:induction false} TypedEntries(entries: seq<Entry>)
    ensures ReadItems(entries, true) == Typed(ReadItems(entries, false))
  {
    if |entries| > 0 {
      TypedEntries(entries[1..]);
      var head := if Read(entries[0], false) then [ItemOf(entries[0])] else [];
      TypedAppend(head, ReadItems(entries[1..], false));
      assert Typed(head) == if Read(entries[0], true) then [ItemOf(entries[0])] else [];
    }
  }

  /** The strict merge is offered the well-typed part of what the other one reads. */
  lemma {:induction false} TypedOffered(events: seq<Snapshot>, members: seq<string>)
    ensures Offered(events, members, true) == Typed(Offered(events, members, false))
  {
    if |events| > 0 {
      TypedOffered(events[1..], members);
      var read := events[0].author in members && events[0].payload.Some?;
      if read { TypedEntries(events[0].payload.value); }
      TypedAppend(if read then ReadItems(events[0].payload.value, false) else [], Offered(events[1..], members, false));
    }
  }

  /** `v` holds what `m` holds wherever that is well typed, and nothing above `m`. */
  predicate TypedPart(m: map<string, Item>, v: map<string, Item>) {
    (forall id :: id in v ==> id in m && AtLeast(StampOf(m[id]), StampOf(v[id]))) &&
    forall id :: id in m && m[id].typed ==> id in v && v[id] == m[id]
  }

  lemma OfferTyped(m: map<string, Item>, v: map<string, Item>, t: Item)
    requires TypedPart(m, v)
    ensures TypedPart(Offer(m, t), if t.typed then Offer(v, t) else v)
  {
    WinsOverIrreflexive(StampOf(t));
    if t.id in v {
      if WinsOver(StampOf(t), StampOf(m[t.id])) {
        WinsOverAsymmetric(StampOf(t), StampOf(m[t.id]));
        AtLeastTransitive(StampOf(t), StampOf(m[t.id]), StampOf(v[t.id]));
        if !WinsOver(StampOf(t), StampOf(v[t.id])) { AtLeastTransitive(StampOf(m[t.id]), StampOf(v[t.id]), StampOf(t)); }
      }
    }
  }

  lemma {:induction false} MergeTyped(m: map<string, Item>, v: map<string, Item>, ts: seq<Item>)
    requires TypedPart(m, v)
    ensures TypedPart(Merge(m, ts), Merge(v, Typed(ts)))
    decreases ts
  {
    if |ts| > 0 {
      var t := ts[0];
      OfferTyped(m, v, t);
      hide TypedPart, Offer;
      MergeTyped(Offer(m, t), if t.typed then Offer(v, t) else v, ts[1..]);
      MergeAppend(v, if t.typed then [t] else [], Typed(ts[1..]));
      if t.typed { assert Merge(v, [t]) == Merge(Offer(v, t), [t][1..]) == Offer(v, t); }
    }
  }

  /** An entry that only the second merge reads comes out on top: it beats every
      earlier entry of its id, and no later one beats it. */
  predicate LooseWins(ts: seq<Item>) {
    exists k :: 0 <= k < |ts| && !ts[k].typed && OnTop(ts, k)
  }

  predicate OnTop(ts: seq<Item>, k: nat)
    requires k < |ts|
  {
    (forall j :: 0 <= j < k && ts[j].id == ts[k].id ==> WinsOver(StampOf(ts[k]), StampOf(ts[j]))) &&
    forall j :: k < j < |ts| && ts[j].id == ts[k].id ==> !WinsOver(StampOf(ts[j]), StampOf(ts[k]))
  }

  lemma OnTopSooner(ts: seq<Item>, k: nat)
    requires k < |ts| - 1
    ensures OnTop(ts, k) <==> OnTop(ts[..|ts| - 1], k) && !(ts[|ts| - 1].id == ts[k].id && WinsOver(StampOf(ts[|ts| - 1]), StampOf(ts[k])))
  {
    var p := ts[..|ts| - 1];
    assert forall j :: 0 <= j < |p| ==> p[j] == ts[j];
  }

  predicate WinsAt(ts: seq<Item>, r: map<string, Item>, k: nat) {
    k < |ts| && OnTop(ts, k) && ts[k].id in r && r[ts[k].id] == ts[k]
  }

  ghost predicate TopsAre(ts: seq<Item>, r: map<string, Item>) {
    (forall id :: id in r ==> r[id].id == id && exists k: nat :: WinsAt(ts, r, k) && ts[k].id == id) &&
    (forall k :: 0 <= k < |ts| && OnTop(ts, k) ==> WinsAt(ts, r, k)) &&
    (forall j :: 0 <= j < |ts| ==> ts[j].id in r && AtLeast(StampOf(r[ts[j].id]), StampOf(ts[j])))
  }

  /** The winner of an id is the entry on top. */
  lemma {:induction false} WinnerIsOnTop(ts: seq<Item>)
    ensures TopsAre(ts, Merge(map[], ts))
    decreases |ts|
  {
    if |ts| > 0 {
      var n := |ts| - 1;
      WinnerIsOnTop(ts[..n]);
      assert ts == ts[..n] + [ts[n]];
      MergeOne(map[], ts[..n], ts[n]);
      var m := Merge(map[], ts[..n]);
      if ts[n].id !in m || WinsOver(StampOf(ts[n]), StampOf(m[ts[n].id])) { NewcomerOnTop(ts, m); } else { OldOneOnTop(ts, m); }
    }
  }

  lemma NewcomerOnTop(ts: seq<Item>, m: map<string, Item>)
    requires |ts| > 0 && TopsAre(ts[..|ts| - 1], m)
    requires var t := ts[|ts| - 1]; t.id !in m || WinsOver(StampOf(t), StampOf(m[t.id]))
    ensures var t := ts[|ts| - 1]; TopsAre(ts, m[t.id := t])
  {
    var r := m[ts[|ts| - 1].id := ts[|ts| - 1]];
    NewcomerBeatsAll(ts, m);
    forall id | id in r ensures r[id].id == id && exists k: nat :: WinsAt(ts, r, k) && ts[k].id == id {
      var k := NewWinner(ts, m, id);
    }
    forall k | 0 <= k < |ts| && OnTop(ts, k) ensures WinsAt(ts, r, k) { NewTop(ts, m, k); }
    hide WinsAt, AtLeast, OnTop;
  }

  lemma NewWinner(ts: seq<Item>, m: map<string, Item>, id: string) returns (k: nat)
    requires |ts| > 0 && TopsAre(ts[..|ts| - 1], m)
    requires var t := ts[|ts| - 1]; t.id !in m || WinsOver(StampOf(t), StampOf(m[t.id]))
    requires var t := ts[|ts| - 1]; id in m[t.id := t]
    ensures var t := ts[|ts| - 1];
            var r := m[t.id := t];
            r[id].id == id && WinsAt(ts, r, k) && ts[k].id == id
  {
    var n := |ts| - 1;
    NewcomerBeatsAll(ts, m);
    if id == ts[n].id { return n; }
    var p := ts[..n];
    k :| WinsAt(p, m, k) && p[k].id == id;
    OnTopSooner(ts, k);
  }

  lemma NewTop(ts: seq<Item>, m: map<string, Item>, k: nat)
    requires |ts| > 0 && TopsAre(ts[..|ts| - 1], m) && k < |ts| && OnTop(ts, k)
    requires var t := ts[|ts| - 1]; t.id !in m || WinsOver(StampOf(t), StampOf(m[t.id]))
    ensures var t := ts[|ts| - 1]; WinsAt(ts, m[t.id := t], k)
  {
    NewcomerBeatsAll(ts, m);
    if k < |ts| - 1 {
      OnTopSooner(ts, k);
      assert WinsAt(ts[..|ts| - 1], m, k);
    }
  }

  lemma NewcomerBeatsAll(ts: seq<Item>, m: map<string, Item>)
    requires |ts| > 0 && TopsAre(ts[..|ts| - 1], m)
    requires var t := ts[|ts| - 1]; t.id !in m || WinsOver(StampOf(t), StampOf(m[t.id]))
    ensures var t := ts[|ts| - 1];
            OnTop(ts, |ts| - 1) && (forall j :: 0 <= j < |ts| - 1 && ts[j].id == t.id ==> WinsOver(StampOf(t), StampOf(ts[j]))) &&
            forall j :: 0 <= j < |ts| ==> ts[j].id in m[t.id := t] && AtLeast(StampOf(m[t.id := t][ts[j].id]), StampOf(ts[j]))
  {
    var n := |ts| - 1;
    var p, t := ts[..n], ts[n];
    WinsOverIrreflexive(StampOf(t));
    forall j | 0 <= j < n
      ensures ts[j].id in m && AtLeast(StampOf(m[ts[j].id]), StampOf(ts[j]))
      ensures ts[j].id == t.id ==> WinsOver(StampOf(t), StampOf(ts[j])) && AtLeast(StampOf(t), StampOf(ts[j]))
    {
      assert p[j] == ts[j] && p[j].id in m;
      if ts[j].id == t.id {
        BeatsToo(StampOf(t), StampOf(m[t.id]), StampOf(ts[j]));
        WinsOverAsymmetric(StampOf(t), StampOf(ts[j]));
      }
    }
  }

  lemma OldOneOnTop(ts: seq<Item>, m: map<string, Item>)
    requires |ts| > 0 && TopsAre(ts[..|ts| - 1], m)
    requires var t := ts[|ts| - 1]; t.id in m && !WinsOver(StampOf(t), StampOf(m[t.id]))
    ensures TopsAre(ts, m)
  {
    forall id | id in m ensures m[id].id == id && exists k: nat :: WinsAt(ts, m, k) && ts[k].id == id {
      var k := OldWinner(ts, m, id);
    }
    forall k | 0 <= k < |ts| && OnTop(ts, k) ensures WinsAt(ts, m, k) { OldTop(ts, m, k); }
    forall j | 0 <= j < |ts| ensures ts[j].id in m && AtLeast(StampOf(m[ts[j].id]), StampOf(ts[j])) {
      if j < |ts| - 1 { assert ts[..|ts| - 1][j] == ts[j]; }
    }
    hide WinsAt, AtLeast, OnTop;
  }

  lemma OldWinner(ts: seq<Item>, m: map<string, Item>, id: string) returns (k: nat)
    requires |ts| > 0 && TopsAre(ts[..|ts| - 1], m) && id in m
    requires var t := ts[|ts| - 1]; t.id in m && !WinsOver(StampOf(t), StampOf(m[t.id]))
    ensures m[id].id == id && WinsAt(ts, m, k) && ts[k].id == id && k < |ts| - 1
  {
    var p := ts[..|ts| - 1];
    k :| WinsAt(p, m, k) && p[k].id == id;
    StillOnTop(ts, m, k);
  }

  lemma OldTop(ts: seq<Item>, m: map<string, Item>, k: nat)
    requires |ts| > 0 && TopsAre(ts[..|ts| - 1], m) && k < |ts| && OnTop(ts, k)
    requires var t := ts[|ts| - 1]; t.id in m && !WinsOver(StampOf(t), StampOf(m[t.id]))
    ensures WinsAt(ts, m, k)
  {
    NotTheLast(ts, m);
    OnTopSooner(ts, k);
    assert WinsAt(ts[..|ts| - 1], m, k);
  }

  lemma NotTheLast(ts: seq<Item>, m: map<string, Item>)
    requires |ts| > 0 && TopsAre(ts[..|ts| - 1], m)
    requires var t := ts[|ts| - 1]; t.id in m && !WinsOver(StampOf(t), StampOf(m[t.id]))
    ensures !OnTop(ts, |ts| - 1)
  {
    var w := OldWinner(ts, m, ts[|ts| - 1].id);
    LoserIsNotOnTop(ts, w);
  }

  lemma StillOnTop(ts: seq<Item>, m: map<string, Item>, k: nat)
    requires |ts| > 0 && WinsAt(ts[..|ts| - 1], m, k)
    requires var t := ts[|ts| - 1]; t.id in m && !WinsOver(StampOf(t), StampOf(m[t.id]))
    ensures WinsAt(ts, m, k)
  {
    OnTopSooner(ts, k);
  }

  lemma LoserIsNotOnTop(ts: seq<Item>, w: nat)
    requires |ts| > 0 && w < |ts| - 1 && ts[w].id == ts[|ts| - 1].id && !WinsOver(StampOf(ts[|ts| - 1]), StampOf(ts[w]))
    ensures !OnTop(ts, |ts| - 1)
  {
  }

  /** The loose merge ends well typed, and then as the strict one, exactly when no
      loose entry wins. */
  lemma LooseShowsExactly(ts: seq<Item>)
    ensures Merge(map[], ts) == Merge(map[], Typed(ts)) <==> !LooseWins(ts)
  {
    var r, v := Merge(map[], ts), Merge(map[], Typed(ts));
    WinnerIsOnTop(ts);
    MergeTyped(map[], map[], ts);
    TypedWinners(ts);
    hide Merge, Typed;
    if LooseWins(ts) {
      var k :| 0 <= k < |ts| && !ts[k].typed && OnTop(ts, k);
      assert WinsAt(ts, r, k);
      assert !r[ts[k].id].typed;
    } else {
      forall id | id in r ensures r[id].typed {
        var k: nat :| WinsAt(ts, r, k) && ts[k].id == id;
      }
      hide TopsAre, AtLeast;
    }
  }

  lemma TypedWinners(ts: seq<Item>)
    ensures forall id :: id in Merge(map[], Typed(ts)) ==> Merge(map[], Typed(ts))[id].typed
  {
    MergeKeepsMaximum(map[], Typed(ts));
  }

  /** On an empty state the two fetches agree exactly when no entry that only the
      second one reads comes out on top; or, where a member snapshot holds a null
      entry and the second fetch gives up, when the first one has nothing to show. */
  lemma FetchesAgreeExactly(events: seq<Snapshot>, members: seq<string>)
    ensures AdapterWinners(events, members) == DeviceSyncWinners(events, members) <==>
            if Poisoned(events, Some(members)) then Offered(events, members, true) == []
            else !LooseWins(Offered(events, members, false))
  {
    var strict, all := Offered(events, members, true), Offered(events, members, false);
    TypedOffered(events, members);
    LooseShowsExactly(all);
    assert Won(map[], Merge(map[], all)) == Merge(map[], all);
    MergeKeepsMaximum(map[], strict);
    if strict != [] {
      assert strict[0] in strict;
      assert strict[0].id in Merge(map[], strict);
    }
  }
}
