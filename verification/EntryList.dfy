/** The doubly linked list of history entries, from which the search lifts operations and
    into which it puts them back. */
module EntryList {
  import opened Linearizability

  datatype Value<V> = NoValue | Value(v: V)

  /** A list node: a call when it has a matching return, else a return. */
  class Node<V> {
    const value: Value<V>
    const matching: Node?<V>
    const id: int
    var next: Node?<V>
    var prev: Node?<V>

    constructor (value: Value<V>, matching: Node?<V>, id: int)
      ensures this.value == value && this.matching == matching && this.id == id
      ensures next == null && prev == null
    {
      this.value := value;
      this.matching := matching;
      this.id := id;
      next := null;
      prev := null;
    }
  }

  // ---------------------------------------------------------------- links as values

  /** The next and prev links of nodes 0, 1, ...; the number of nodes stands for null. */
  datatype Links = Links(succ: seq<nat>, pred: seq<nat>)

  ghost predicate NoRepeats<V>(l: seq<Node<V>>) {
    forall i, j :: 0 <= i < j < |l| ==> l[i] != l[j]
  }

  ghost function NodeAt<V>(l: seq<Node<V>>, k: nat): Node?<V> { if k < |l| then l[k] else null }

  /** The fields of the nodes are the links `k`. */
  ghost predicate Mirrors<V>(nodes: seq<Node<V>>, k: Links)
    reads nodes
  {
    && |k.succ| == |nodes| && |k.pred| == |nodes| && NoRepeats(nodes)
    && (forall p {:trigger k.succ[p]} :: 0 <= p < |nodes| ==> nodes[p].next == NodeAt(nodes, k.succ[p]))
    && (forall p {:trigger k.pred[p]} :: 0 <= p < |nodes| ==> nodes[p].prev == NodeAt(nodes, k.pred[p]))
  }

  ghost function Unlinked(k: Links, p: nat): Links
    requires p < |k.succ| == |k.pred| && k.pred[p] < |k.succ|
  {
    Links(k.succ[k.pred[p] := k.succ[p]], if k.succ[p] < |k.pred| then k.pred[k.succ[p] := k.pred[p]] else k.pred)
  }

  ghost function Relinked(k: Links, p: nat): Links
    requires p < |k.succ| == |k.pred| && k.pred[p] < |k.succ|
  {
    Links(k.succ[k.pred[p] := p], if k.succ[p] < |k.pred| then k.pred[k.succ[p] := p] else k.pred)
  }

  /** q is the first live index after p, or the end. */
  ghost predicate IsSucc(live: set<nat>, size: nat, p: nat, q: nat) {
    p < q <= size && (q < size ==> q in live) && forall x :: p < x < q ==> x !in live
  }

  /** q is the last live index before p. */
  ghost predicate IsPred(live: set<nat>, p: nat, q: nat) {
    q < p && q in live && forall x :: q < x < p ==> x !in live
  }

  /** The links thread the live indices in order; index 0 is the head and stays. */
  ghost predicate Threads(k: Links, size: nat, live: set<nat>) {
    && |k.succ| == size && |k.pred| == size
    && 0 in live && (forall p :: p in live ==> p < size)
    && (forall p {:trigger IsSucc(live, size, p, k.succ[p])} :: p in live ==> IsSucc(live, size, p, k.succ[p]))
    && (forall p {:trigger IsPred(live, p, k.pred[p])} :: p in live && p > 0 ==> IsPred(live, p, k.pred[p]))
  }

  /** Index p is out of the list, but its links still name its neighbours among `live`. */
  ghost predicate Remembers(k: Links, size: nat, live: set<nat>, p: nat) {
    && p < |k.succ| == |k.pred| == size && 0 < p
    && IsSucc(live, size, p, k.succ[p]) && IsPred(live, p, k.pred[p])
  }

  /** The links of the indices that are not live do not change. */
  ghost predicate SameOutside(k: Links, k': Links, live: set<nat>) {
    && |k'.succ| == |k.succ| && |k'.pred| == |k.pred|
    && (forall x {:trigger k'.succ[x]} :: 0 <= x < |k.succ| && x !in live ==> k'.succ[x] == k.succ[x])
    && (forall x {:trigger k'.pred[x]} :: 0 <= x < |k.pred| && x !in live ==> k'.pred[x] == k.pred[x])
  }

  /** p follows x exactly when x precedes p. */
  lemma SuccPred(live: set<nat>, size: nat, x: nat, sx: nat, p: nat, pp: nat)
    requires x in live && p in live && p < size && IsSucc(live, size, x, sx) && IsPred(live, p, pp)
    ensures sx == p <==> x == pp
  {
  }

  /** The neighbours around p after it is gone. */
  lemma SuccWithout(live: set<nat>, size: nat, x: nat, sx: nat, p: nat, sp: nat)
    requires x in live && p in live && x != p && IsSucc(live, size, x, sx) && IsSucc(live, size, p, sp)
    ensures IsSucc(live - {p}, size, x, if sx == p then sp else sx)
  {
  }

  lemma PredWithout(live: set<nat>, x: nat, px: nat, p: nat, pp: nat)
    requires x in live && p in live && x != p && IsPred(live, x, px) && IsPred(live, p, pp)
    ensures IsPred(live - {p}, x, if px == p then pp else px)
  {
  }

  /** The neighbours around p once it is back. */
  lemma SuccWith(live: set<nat>, size: nat, x: nat, sx: nat, p: nat, pp: nat)
    requires x in live && p in live && x != p && p < size && IsSucc(live - {p}, size, x, sx) && IsPred(live, p, pp)
    ensures IsSucc(live, size, x, if x == pp then p else sx)
  {
    if x != pp {
      assert x < p < sx ==> x > pp || pp in live - {p};
      assert !(x < p < sx);
      forall y: nat | x < y < sx ensures y !in live {
        assert y !in live - {p};
      }
    }
  }

  lemma PredWith(live: set<nat>, size: nat, x: nat, px: nat, p: nat, sp: nat)
    requires x in live && p in live && x != p && x < size && IsPred(live - {p}, x, px) && IsSucc(live, size, p, sp)
    ensures IsPred(live, x, if x == sp then p else px)
  {
    if x != sp {
      assert px < p < x ==> x < sp || sp in live - {p};
      assert !(px < p < x);
      forall y: nat | px < y < x ensures y !in live {
        assert y !in live - {p};
      }
    }
  }

  /** Taking index p out. */
  lemma UnlinkThreads(k: Links, size: nat, live: set<nat>, p: nat)
    requires Threads(k, size, live) && p in live && p > 0
    ensures k.pred[p] < size && k.pred[p] != p && k.pred[p] in live
    ensures Threads(Unlinked(k, p), size, live - {p}) && Remembers(Unlinked(k, p), size, live, p)
    ensures SameOutside(k, Unlinked(k, p), live)
  {
    var pp, sp := k.pred[p], k.succ[p];
    assert IsPred(live, p, pp) && IsSucc(live, size, p, sp);
    var k' := Unlinked(k, p);
    forall x | x in live - {p} ensures x < size && IsSucc(live - {p}, size, x, k'.succ[x]) {
      assert IsSucc(live, size, x, k.succ[x]);
      SuccPred(live, size, x, k.succ[x], p, pp);
      SuccWithout(live, size, x, k.succ[x], p, sp);
    }
    forall x | x in live - {p} && x > 0 ensures x < size && IsPred(live - {p}, x, k'.pred[x]) {
      assert IsPred(live, x, k.pred[x]);
      SuccPred(live, size, p, sp, x, k.pred[x]);
      PredWithout(live, x, k.pred[x], p, pp);
    }
  }

  /** Putting index p back restores the links exactly. */
  lemma RelinkThreads(k: Links, size: nat, live: set<nat>, p: nat)
    requires Threads(k, size, live - {p}) && Remembers(k, size, live, p) && p in live
    ensures k.pred[p] < size && k.pred[p] != p
    ensures Threads(Relinked(k, p), size, live) && SameOutside(k, Relinked(k, p), live)
  {
    var pp, sp := k.pred[p], k.succ[p];
    var k' := Relinked(k, p);
    assert pp != p && sp != p;
    forall x | x in live ensures x < size && IsSucc(live, size, x, k'.succ[x]) {
      if x != p {
        assert x in live - {p} && IsSucc(live - {p}, size, x, k.succ[x]);
        SuccWith(live, size, x, k.succ[x], p, pp);
      }
    }
    forall x | x in live && x > 0 ensures x < size && IsPred(live, x, k'.pred[x]) {
      if x != p {
        assert x in live - {p} && IsPred(live - {p}, x, k.pred[x]);
        PredWith(live, size, x, k.pred[x], p, sp);
      }
    }
  }

  // ---------------------------------------------------------------- the links in memory

  method InsertBefore<V>(n: Node<V>, mark: Node?<V>) returns (r: Node<V>)
    requires n.next == null && n.prev == null && n != mark
    requires mark != null && mark.prev != null ==> n != mark.prev && mark != mark.prev
    modifies n, mark, if mark != null then {mark.prev} else {}
    ensures r == n
    ensures mark == null ==> n.next == null && n.prev == null
    ensures mark != null ==> n.next == mark && mark.prev == n && n.prev == old(mark.prev) && mark.next == old(mark.next)
    ensures mark != null && old(mark.prev) != null ==> old(mark.prev).next == n && old(mark.prev).prev == old(mark.prev.prev)
  {
    if mark != null {
      var beforeMark := mark.prev;
      mark.prev := n;
      n.next := mark;
      if beforeMark != null {
        n.prev := beforeMark;
        beforeMark.next := n;
      }
    }
    r := n;
  }

  ghost function Nodes<V>(l: seq<Node<V>>): set<Node<V>> { set x | x in l }

  /** Closes the gap around node p; the node itself keeps its links. */
  method Unlink<V>(n: Node<V>, ghost nodes: seq<Node<V>>, ghost k: Links, ghost p: nat)
    requires Mirrors(nodes, k) && p < |nodes| && nodes[p] == n && k.pred[p] < |nodes|
    modifies Nodes(nodes)
    ensures Mirrors(nodes, Unlinked(k, p))
  {
    assert n.prev == nodes[k.pred[p]] && n.next == NodeAt(nodes, k.succ[p]);
    n.prev.next := n.next;
    if n.next != null {
      n.next.prev := n.prev;
    }
  }

  /** Puts node p back between its old neighbours. */
  method Relink<V>(n: Node<V>, ghost nodes: seq<Node<V>>, ghost k: Links, ghost p: nat)
    requires Mirrors(nodes, k) && p < |nodes| && nodes[p] == n && k.pred[p] < |nodes| && k.pred[p] != p
    modifies Nodes(nodes)
    ensures Mirrors(nodes, Relinked(k, p))
  {
    assert n.prev == nodes[k.pred[p]] && n.next == NodeAt(nodes, k.succ[p]);
    n.prev.next := n;
    if n.next != null {
      n.next.prev := n;
    }
  }

  /** The links after taking out call c and then its return r, and after putting them back. */
  ghost predicate CanLift(k: Links, size: nat, live: set<nat>, c: nat, r: nat) {
    Threads(k, size, live) && c in live && r in live && 0 < c < r
  }

  ghost function LiftedLinks(k: Links, size: nat, live: set<nat>, c: nat, r: nat): (k': Links)
    requires CanLift(k, size, live, c, r)
    ensures Threads(k', size, live - {c, r})
    ensures Remembers(k', size, live, c) && Remembers(k', size, live - {c}, r)
    ensures SameOutside(k, k', live)
  {
    LiftThreads(k, size, live, c, r);
    Unlinked(Unlinked(k, c), r)
  }

  lemma LiftThreads(k: Links, size: nat, live: set<nat>, c: nat, r: nat)
    requires CanLift(k, size, live, c, r)
    ensures k.pred[c] < size && Unlinked(k, c).pred[r] < size
    ensures var k' := Unlinked(Unlinked(k, c), r);
            && Threads(k', size, live - {c, r})
            && Remembers(k', size, live, c) && Remembers(k', size, live - {c}, r)
            && SameOutside(k, k', live)
  {
    UnlinkThreads(k, size, live, c);
    var k1 := Unlinked(k, c);
    UnlinkThreads(k1, size, live - {c}, r);
    assert live - {c} - {r} == live - {c, r};
    StillRemembers(k1, Unlinked(k1, r), size, live, c, live - {c});
    SameOutsideTwice(k, k1, Unlinked(k1, r), live, live - {c});
  }

  lemma StillRemembers(k: Links, k': Links, size: nat, live: set<nat>, p: nat, touched: set<nat>)
    requires Remembers(k, size, live, p) && SameOutside(k, k', touched) && p !in touched
    ensures Remembers(k', size, live, p)
  {
  }

  lemma SameOutsideTwice(a: Links, b: Links, d: Links, live: set<nat>, live': set<nat>)
    requires SameOutside(a, b, live) && SameOutside(b, d, live') && live' <= live
    ensures SameOutside(a, d, live)
  {
  }

  ghost predicate CanUnlift(k: Links, size: nat, live: set<nat>, c: nat, r: nat) {
    && Threads(k, size, live - {c, r}) && c in live && r in live && 0 < c < r
    && Remembers(k, size, live, c) && Remembers(k, size, live - {c}, r)
  }

  ghost function UnliftedLinks(k: Links, size: nat, live: set<nat>, c: nat, r: nat): (k': Links)
    requires CanUnlift(k, size, live, c, r)
    ensures Threads(k', size, live) && SameOutside(k, k', live)
  {
    assert live - {c} - {r} == live - {c, r};
    RelinkThreads(k, size, live - {c}, r);
    RelinkThreads(Relinked(k, r), size, live, c);
    Relinked(Relinked(k, r), c)
  }

  /** Takes a call and its return out of the list. */
  method Lift<V>(entry: Node<V>, ghost nodes: seq<Node<V>>, ghost k: Links, ghost live: set<nat>, ghost c: nat, ghost r: nat)
    requires Mirrors(nodes, k) && CanLift(k, |nodes|, live, c, r)
    requires nodes[c] == entry && nodes[r] == entry.matching
    modifies Nodes(nodes)
    ensures Mirrors(nodes, LiftedLinks(k, |nodes|, live, c, r))
  {
    UnlinkThreads(k, |nodes|, live, c);
    UnlinkThreads(Unlinked(k, c), |nodes|, live - {c}, r);
    Unlink(entry, nodes, k, c);
    var matching := entry.matching;
    Unlink(matching, nodes, Unlinked(k, c), r);
  }

  /** Puts a call and its return back where they were, as long as everything lifted later
      has been put back before. */
  method Unlift<V>(entry: Node<V>, ghost nodes: seq<Node<V>>, ghost k: Links, ghost live: set<nat>, ghost c: nat, ghost r: nat)
    requires Mirrors(nodes, k) && CanUnlift(k, |nodes|, live, c, r)
    requires nodes[c] == entry && nodes[r] == entry.matching
    modifies Nodes(nodes)
    ensures Mirrors(nodes, UnliftedLinks(k, |nodes|, live, c, r))
  {
    assert live - {c} - {r} == live - {c, r};
    RelinkThreads(k, |nodes|, live - {c}, r);
    var matching := entry.matching;
    Relink(matching, nodes, k, r);
    Relink(entry, nodes, Relinked(k, r), c);
  }

  /** Threads determine the links of the live indices. */
  lemma ThreadsUnique(k: Links, k': Links, size: nat, live: set<nat>)
    requires Threads(k, size, live) && Threads(k', size, live)
    ensures forall p :: p in live ==> k.succ[p] == k'.succ[p]
    ensures forall p :: p in live && p > 0 ==> k.pred[p] == k'.pred[p]
  {
    forall p | p in live ensures k.succ[p] == k'.succ[p] {
      assert IsSucc(live, size, p, k.succ[p]) && IsSucc(live, size, p, k'.succ[p]);
    }
    forall p | p in live && p > 0 ensures k.pred[p] == k'.pred[p] {
      assert IsPred(live, p, k.pred[p]) && IsPred(live, p, k'.pred[p]);
    }
  }

  /** Unlift undoes Lift exactly: every link of every node is the old one again. */
  lemma UnliftUndoesLift(k: Links, size: nat, live: set<nat>, c: nat, r: nat)
    requires CanLift(k, size, live, c, r)
    ensures var k' := LiftedLinks(k, size, live, c, r);
            && CanUnlift(k', size, live, c, r)
            && UnliftedLinks(k', size, live, c, r).succ == k.succ
            && forall p :: 0 < p < size ==> UnliftedLinks(k', size, live, c, r).pred[p] == k.pred[p]
  {
    var k' := LiftedLinks(k, size, live, c, r);
    ThreadsUnique(k, UnliftedLinks(k', size, live, c, r), size, live);
  }

  // ---------------------------------------------------------------- building the list

  /** r is the first return of the operation called at p. */
  predicate FirstReturn<V>(entries: seq<Entry<V>>, p: int, r: int) {
    && 0 <= p < r < |entries| && ReturnAt(entries, entries[p].id, r)
    && forall q :: p < q < r ==> !ReturnAt(entries, entries[p].id, q)
  }

  /** The list is built from the back: built[j] stands for entry |entries| - 1 - j. */
  ghost function NodeOf<V>(entries: seq<Entry<V>>, built: seq<Node<V>>, p: int): Node<V>
    requires 0 <= |entries| - 1 - p < |built|
  {
    built[|entries| - 1 - p]
  }

  /** Node p carries entry p; a call knows the node of its return. */
  ghost predicate StandsFor<V>(entries: seq<Entry<V>>, built: seq<Node<V>>, p: int)
    requires |built| <= |entries| && |entries| - |built| <= p < |entries|
  {
    var node := NodeOf(entries, built, p);
    && node.value == Value(entries[p].value) && node.id == entries[p].id
    && (entries[p].kind == ReturnEntry ==> node.matching == null)
    && (forall r :: FirstReturn(entries, p, r) && entries[p].kind == CallEntry ==> node.matching == NodeOf(entries, built, r))
  }

  ghost predicate AllStand<V>(entries: seq<Entry<V>>, built: seq<Node<V>>) {
    |built| <= |entries| && forall p {:trigger StandsFor(entries, built, p)} :: |entries| - |built| <= p < |entries| ==> StandsFor(entries, built, p)
  }

  ghost predicate BackLinked<V>(built: seq<Node<V>>)
    reads built
  {
    && NoRepeats(built)
    && (forall j {:trigger built[j].next} :: 0 <= j < |built| ==> built[j].next == if j > 0 then built[j - 1] else null)
    && (forall j {:trigger built[j].prev} :: 0 <= j < |built| ==> built[j].prev == if j + 1 < |built| then built[j + 1] else null)
  }

  ghost predicate FirstHere<V>(entries: seq<Entry<V>>, from: int, r: int) {
    && 0 <= from <= r < |entries| && entries[r].kind == ReturnEntry
    && forall q :: from <= q < r ==> !ReturnAt(entries, entries[r].id, q)
  }

  /** `seen` holds, for every operation, the node of its first return among those built. */
  ghost predicate ReturnsSeen<V>(entries: seq<Entry<V>>, built: seq<Node<V>>, seen: map<nat, Node<V>>)
    requires |built| <= |entries|
  {
    forall r {:trigger FirstHere(entries, |entries| - |built|, r)} :: FirstHere(entries, |entries| - |built|, r) ==>
      entries[r].id in seen && seen[entries[r].id] == NodeOf(entries, built, r)
  }

  lemma OneMoreStands<V>(entries: seq<Entry<V>>, built: seq<Node<V>>, node: Node<V>, seen: map<nat, Node<V>>)
    requires |built| < |entries| && AllStand(entries, built) && ReturnsSeen(entries, built, seen)
    requires var e := entries[|entries| - 1 - |built|];
             && node.value == Value(e.value) && node.id == e.id
             && (e.kind == ReturnEntry ==> node.matching == null)
             && (e.kind == CallEntry ==> node.matching == if e.id in seen then seen[e.id] else null)
    ensures AllStand(entries, built + [node])
  {
    var more := built + [node];
    forall p | |entries| - |more| <= p < |entries| ensures StandsFor(entries, more, p) {
      if p > |entries| - |more| {
        assert StandsFor(entries, built, p);
        forall r | FirstReturn(entries, p, r) ensures NodeOf(entries, more, r) == NodeOf(entries, built, r) {
        }
      } else {
        forall r | FirstReturn(entries, p, r) && entries[p].kind == CallEntry ensures node.matching == NodeOf(entries, more, r) {
          assert FirstHere(entries, |entries| - |built|, r);
        }
      }
    }
  }

  lemma OneMoreSeen<V>(entries: seq<Entry<V>>, built: seq<Node<V>>, node: Node<V>, seen: map<nat, Node<V>>, seen': map<nat, Node<V>>)
    requires |built| < |entries| && ReturnsSeen(entries, built, seen)
    requires var e := entries[|entries| - 1 - |built|];
             seen' == if e.kind == ReturnEntry then seen[e.id := node] else seen
    ensures ReturnsSeen(entries, built + [node], seen')
  {
    var more := built + [node];
    var p := |entries| - |more|;
    forall r | FirstHere(entries, p, r) ensures entries[r].id in seen' && seen'[entries[r].id] == NodeOf(entries, more, r) {
      if r > p {
        assert FirstHere(entries, p + 1, r);
        assert !ReturnAt(entries, entries[r].id, p);
      }
    }
  }

  method MakeLinkedEntries<V>(entries: seq<Entry<V>>) returns (root: Node?<V>, ghost built: seq<Node<V>>)
    ensures |built| == |entries| && BackLinked(built) && AllStand(entries, built)
    ensures root == if |built| > 0 then built[|built| - 1] else null
    ensures fresh(built)
  {
    root := null;
    built := [];
    var seen: map<nat, Node<V>> := map[];
    var i := |entries|;
    while i > 0
      invariant 0 <= i <= |entries| && |built| == |entries| - i
      invariant BackLinked(built) && AllStand(entries, built) && ReturnsSeen(entries, built, seen)
      invariant root == if |built| > 0 then built[|built| - 1] else null
      invariant fresh(built)
    {
      i := i - 1;
      var elem := entries[i];
      var matching: Node?<V> := null;
      ghost var before := seen;
      if elem.kind == CallEntry && elem.id in seen {
        matching := seen[elem.id];
      }
      var node := new Node(Value(elem.value), matching, elem.id);
      if elem.kind == ReturnEntry {
        seen := seen[elem.id := node];
      }
      OneMoreStands(entries, built, node, before);
      OneMoreSeen(entries, built, node, before, seen);
      root := Prepend(node, root, built);
      built := built + [node];
    }
  }

  /** InsertBefore at the front of the list built so far. */
  method Prepend<V>(node: Node<V>, root: Node?<V>, ghost built: seq<Node<V>>) returns (r: Node<V>)
    requires BackLinked(built) && node !in built && node.next == null && node.prev == null
    requires root == if |built| > 0 then built[|built| - 1] else null
    modifies node, Nodes(built)
    ensures r == node && BackLinked(built + [node])
  {
    r := InsertBefore(node, root);
    ghost var more := built + [node];
    assert forall j {:trigger more[j]} :: 0 <= j < |built| ==> more[j] == built[j];
  }
}
