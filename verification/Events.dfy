/** Histories given as a list of call and return events with arbitrary ids. */
module Events {
  import opened Linearizability
  import Search

  datatype Event<V> = Event(clientId: int, kind: Kind, value: V, id: int)

  ghost predicate Names(m: map<int, nat>, x: int, i: nat) { x in m && m[x] == i }

  ghost predicate Named(m: map<int, nat>, i: nat) { exists x :: Names(m, x, i) }

  /** New numbers for ids: different for different ids, and all of 0, 1, ... up to their count. */
  ghost predicate Numbers(m: map<int, nat>, count: nat) {
    && (forall x :: x in m ==> m[x] < count)
    && (forall x, y :: x in m && y in m && m[x] == m[y] ==> x == y)
    && (forall i: nat :: i < count ==> Named(m, i))
  }

  ghost predicate Occurs<V>(events: seq<Event<V>>, x: int) { exists p :: 0 <= p < |events| && events[p].id == x }

  ghost predicate Renumbered<V>(events: seq<Event<V>>, m: map<int, nat>, e: seq<Event<V>>) {
    && |e| == |events|
    && (forall x :: x in m ==> Occurs(events, x))
    && forall p :: 0 <= p < |events| ==> events[p].id in m && e[p] == events[p].(id := m[events[p].id])
  }

  lemma NumbersGrow(m: map<int, nat>, count: nat, x: int)
    requires Numbers(m, count) && x !in m
    ensures Numbers(m[x := count], count + 1)
  {
    var m' := m[x := count];
    forall i: nat | i < count + 1 ensures Named(m', i) {
      if i < count {
        assert Named(m, i);
        var y :| Names(m, y, i);
        assert Names(m', y, i);
      } else {
        assert Names(m', x, i);
      }
    }
  }

  lemma RenumberOne<V>(events: seq<Event<V>>, n: nat, m: map<int, nat>, c: nat, e: seq<Event<V>>)
    requires n < |events| && Renumbered(events[..n], m, e)
    requires events[n].id in m ==> c == m[events[n].id]
    ensures Renumbered(events[..n + 1], m[events[n].id := c], e + [events[n].(id := c)])
  {
    var m' := m[events[n].id := c];
    forall x | x in m' ensures Occurs(events[..n + 1], x) {
      if x in m {
        assert Occurs(events[..n], x);
        var p :| 0 <= p < n && events[..n][p].id == x;
        assert events[..n + 1][p].id == x;
      } else {
        assert events[..n + 1][n].id == x;
      }
    }
    forall p | 0 <= p < n ensures events[p].id in m' && e[p] == events[p].(id := m'[events[p].id]) {
      assert events[..n][p] == events[p];
    }
  }

  method Renumber<V>(events: seq<Event<V>>) returns (e: seq<Event<V>>, ghost renumbering: map<int, nat>, ghost count: nat)
    ensures Renumbered(events, renumbering, e) && Numbers(renumbering, count)
    ensures exists m, c :: Renumbered(events, m, e) && Numbers(m, c)
  {
    e := [];
    var m: map<int, nat> := map[];
    var id := 0;
    for i := 0 to |events|
      invariant id >= 0 && Renumbered(events[..i], m, e) && Numbers(m, id)
    {
      var v := events[i];
      if v.id in m {
        RenumberOne(events, i, m, m[v.id], e);
        assert m[v.id := m[v.id]] == m;
        e := e + [Event(v.clientId, v.kind, v.value, m[v.id])];
      } else {
        NumbersGrow(m, id, v.id);
        RenumberOne(events, i, m, id, e);
        e := e + [Event(v.clientId, v.kind, v.value, id)];
        m := m[v.id := id];
        id := id + 1;
      }
    }
    assert events[..|events|] == events;
    renumbering, count := m, id;
  }

  predicate AllNatural<V>(events: seq<Event<V>>) { forall p :: 0 <= p < |events| ==> events[p].id >= 0 }

  /** The entries of events, with their positions as times. */
  method ConvertEntries<V>(events: seq<Event<V>>) returns (entries: seq<Entry<V>>)
    requires AllNatural(events)
    ensures Converted(events, entries)
  {
    entries := [];
    for i := 0 to |events|
      invariant |entries| == i
      invariant forall p :: 0 <= p < i ==>
                  entries[p] == Entry(events[p].kind, events[p].value, events[p].id, p, events[p].clientId)
    {
      var kind := CallEntry;
      if events[i].kind == ReturnEntry {
        kind := ReturnEntry;
      }
      entries := entries + [Entry(kind, events[i].value, events[i].id, i, events[i].clientId)];
    }
  }

  /** Id x is called at c, returns at r, and occurs nowhere else. */
  ghost predicate CompleteAt<V>(events: seq<Event<V>>, x: int, c: int, r: int) {
    && 0 <= c < r < |events| && events[c].id == x && events[r].id == x
    && events[c].kind == CallEntry && events[r].kind == ReturnEntry
    && (forall p :: 0 <= p < |events| && events[p].id == x ==> p == c || p == r)
  }

  ghost predicate Complete<V>(events: seq<Event<V>>, x: int) { exists c, r :: CompleteAt(events, x, c, r) }

  /** Position p as one of 2 * count numbers: twice its operation, plus one for a return. */
  function Slot<V>(entries: seq<Entry<V>>, p: int): nat
    requires 0 <= p < |entries|
  {
    2 * entries[p].id + if entries[p].kind == CallEntry then 0 else 1
  }

  lemma SlotUnique<V>(entries: seq<Entry<V>>, p: int, q: int)
    requires 0 <= p < |entries| && 0 <= q < |entries| && Slot(entries, p) == Slot(entries, q)
    requires Paired(entries, entries[p].id)
    ensures p == q
  {
    var i := entries[p].id;
    assert entries[q].id == i && entries[q].kind == entries[p].kind;
    PosUnique(entries, i, p);
    PosUnique(entries, i, q);
  }

  function Slots<V>(entries: seq<Entry<V>>): (r: seq<nat>)
    ensures |r| == |entries| && forall p :: 0 <= p < |r| ==> r[p] == Slot(entries, p)
  {
    seq(|entries|, p requires 0 <= p < |entries| => Slot(entries, p))
  }

  lemma EverySlot<V>(entries: seq<Entry<V>>, s: nat)
    requires Paired(entries, s / 2)
    ensures s in Slots(entries)
  {
    var p := if s % 2 == 0 then CallPos(entries, s / 2) else ReturnPos(entries, s / 2);
    assert Slots(entries)[p] == s;
  }

  lemma TwiceAsMany<V>(entries: seq<Entry<V>>, count: nat)
    requires forall p :: 0 <= p < |entries| ==> entries[p].id < count
    requires forall i: nat :: i < count ==> Paired(entries, i)
    ensures |entries| == 2 * count
  {
    hide Paired;
    var slots := Slots(entries);
    forall p, q | 0 <= p < q < |entries| ensures slots[p] != slots[q] {
      if slots[p] == slots[q] {
        SlotUnique(entries, p, q);
      }
    }
    forall s: nat | s < 2 * count ensures s in slots {
      EverySlot(entries, s);
    }
    assert Search.Elements(slots) == Search.Ids(2 * count);
    Search.DistinctSize(slots);
    Search.IdsSize(2 * count);
  }

  ghost predicate Converted<V>(e: seq<Event<V>>, entries: seq<Entry<V>>) {
    |entries| == |e| && forall p :: 0 <= p < |e| ==>
      e[p].id >= 0 && entries[p] == Entry(e[p].kind, e[p].value, e[p].id, p, e[p].clientId)
  }

  lemma RenumberedPaired<V>(events: seq<Event<V>>, m: map<int, nat>, count: nat, e: seq<Event<V>>, entries: seq<Entry<V>>, x: int)
    requires Complete(events, x) && x in m
    requires Renumbered(events, m, e) && Numbers(m, count) && Converted(e, entries)
    ensures Paired(entries, m[x])
  {
    var c, r :| CompleteAt(events, x, c, r);
    var i := m[x];
    forall p | 0 <= p < |entries| && entries[p].id == i ensures p == c || p == r {
      assert entries[p].id == e[p].id == m[events[p].id];
    }
    assert entries[c].id == i && entries[r].id == i;
    assert CallAt(entries, i, c) && ReturnAt(entries, i, r);
  }

  /** Events of complete operations give the checker a well-formed history, in the order of
      the events. */
  lemma EventsWellFormed<V>(events: seq<Event<V>>, m: map<int, nat>, count: nat, e: seq<Event<V>>, entries: seq<Entry<V>>)
    requires forall p :: 0 <= p < |events| ==> Complete(events, events[p].id)
    requires Renumbered(events, m, e) && Numbers(m, count) && Converted(e, entries)
    ensures WellFormed(entries, count)
  {
    forall i: nat | i < count ensures Paired(entries, i) {
      assert Named(m, i);
      var x :| Names(m, x, i);
      assert Occurs(events, x);
      var q :| 0 <= q < |events| && events[q].id == x;
      assert Complete(events, events[q].id);
      RenumberedPaired(events, m, count, e, entries, x);
    }
    forall p | 0 <= p < |entries| ensures entries[p].id < count {
      assert events[p].id in m;
    }
    TwiceAsMany(entries, count);
  }
}
