/** The checker's search over one partition, on linked entries, with its bit set of operations
    done, its stack of calls and its memory. */
module CheckSingle {
  import opened Linearizability
  import opened Search
  import opened SearchBound
  import opened SearchPartials
  import opened EntryList
  import opened Memo
  import Bitset

  // ---------------------------------------------------------------- the list during the search

  /** The list indices that are in the list: the head, and each entry of an operation not done. */
  ghost function LiveNodes<V>(hist: seq<Entry<V>>, done: set<nat>): set<nat> {
    set q: nat | q <= |hist| && InList(hist, done, q)
  }

  ghost predicate InList<V>(hist: seq<Entry<V>>, done: set<nat>, q: nat) {
    q == 0 || (q <= |hist| && hist[q - 1].id !in done)
  }

  lemma TakenOut<V>(hist: seq<Entry<V>>, n: nat, done: set<nat>, i: nat)
    requires WellFormed(hist, n) && i < n && i !in done
    ensures CallPos(hist, i) + 1 in LiveNodes(hist, done) && ReturnPos(hist, i) + 1 in LiveNodes(hist, done)
    ensures LiveNodes(hist, done + {i}) == LiveNodes(hist, done) - {CallPos(hist, i) + 1, ReturnPos(hist, i) + 1}
  {
    forall q: nat ensures q in LiveNodes(hist, done + {i})
                          <==> q in LiveNodes(hist, done) - {CallPos(hist, i) + 1, ReturnPos(hist, i) + 1} {
      if 0 < q <= |hist| {
        PosUnique(hist, i, q - 1);
      }
    }
  }

  /** The operation of frame f can be put back once all that was lifted after it has been. */
  ghost predicate FrameLinks<S, V>(hist: seq<Entry<V>>, n: nat, k: Links, f: Frame<S>)
    requires WellFormed(hist, n)
  {
    var live := LiveNodes(hist, f.done);
    && f.op < n && f.op !in f.done
    && Remembers(k, |hist| + 1, live, CallPos(hist, f.op) + 1)
    && Remembers(k, |hist| + 1, live - {CallPos(hist, f.op) + 1}, ReturnPos(hist, f.op) + 1)
  }

  /** The list is the history without the operations on the stack, and each of these
      remembers its place. */
  ghost predicate LinksOk<S, V>(hist: seq<Entry<V>>, n: nat, k: Links, d: Dfs<S>)
    requires WellFormed(hist, n)
  {
    && Threads(k, |hist| + 1, LiveNodes(hist, d.done))
    && forall j {:trigger d.stack[j]} :: 0 <= j < |d.stack| ==> FrameLinks(hist, n, k, d.stack[j])
  }

  lemma FrameLinksStay<S, V>(hist: seq<Entry<V>>, n: nat, k: Links, k': Links, f: Frame<S>, done: set<nat>)
    requires WellFormed(hist, n) && FrameLinks(hist, n, k, f) && f.op in done
    requires SameOutside(k, k', LiveNodes(hist, done))
    ensures FrameLinks(hist, n, k', f)
  {
    var live, c, r := LiveNodes(hist, f.done), CallPos(hist, f.op) + 1, ReturnPos(hist, f.op) + 1;
    assert c !in LiveNodes(hist, done) && r !in LiveNodes(hist, done);
    StillRemembers(k, k', |hist| + 1, live, c, LiveNodes(hist, done));
    StillRemembers(k, k', |hist| + 1, live - {c}, r, LiveNodes(hist, done));
  }

  ghost function TakeOut<V>(hist: seq<Entry<V>>, n: nat, k: Links, done: set<nat>, i: nat): (k': Links)
    requires WellFormed(hist, n) && i < n && i !in done && Threads(k, |hist| + 1, LiveNodes(hist, done))
    ensures Threads(k', |hist| + 1, LiveNodes(hist, done + {i})) && SameOutside(k, k', LiveNodes(hist, done))
    ensures var c, r := CallPos(hist, i) + 1, ReturnPos(hist, i) + 1;
            && CanLift(k, |hist| + 1, LiveNodes(hist, done), c, r)
            && k' == LiftedLinks(k, |hist| + 1, LiveNodes(hist, done), c, r)
  {
    TakenOut(hist, n, done, i);
    LiftedLinks(k, |hist| + 1, LiveNodes(hist, done), CallPos(hist, i) + 1, ReturnPos(hist, i) + 1)
  }

  /** Lifting an operation as it is pushed. */
  lemma PushLinks<S, V>(m: Model<S, V>, hist: seq<Entry<V>>, n: nat, k: Links, d: Dfs<S>, i: nat, at: nat)
    requires WellFormed(hist, n) && StackOk(m, hist, n, d) && LinksOk(hist, n, k, d) && i < n && i !in d.done
    ensures LinksOk(hist, n, TakeOut(hist, n, k, d.done, i), Pushed(m, hist, n, d, i, at))
  {
    hide WellFormed, StackOk, LiveNodes, Threads, CanLift, LiftedLinks;
    var k' := TakeOut(hist, n, k, d.done, i);
    var e := Pushed(m, hist, n, d, i, at);
    forall j | 0 <= j < |e.stack| ensures FrameLinks(hist, n, k', e.stack[j]) {
      if j < |d.stack| {
        OpDone(m, hist, n, d, j, |d.stack|);
        FrameLinksStay(hist, n, k, k', d.stack[j], d.done);
      }
    }
  }

  lemma TopFrame<S, V>(m: Model<S, V>, hist: seq<Entry<V>>, n: nat, d: Dfs<S>)
    requires WellFormed(hist, n) && StackOk(m, hist, n, d) && |d.stack| > 0
    ensures var f := d.stack[|d.stack| - 1]; f.op < n && f.op !in f.done && d.done == f.done + {f.op}
    ensures forall j :: 0 <= j < |d.stack| - 1 ==> d.stack[j].op in d.stack[|d.stack| - 1].done
  {
    var top := |d.stack| - 1;
    assert FrameOk(m, hist, n, d, top) && Level(d, top + 1) == (d.done, d.state);
    forall j | 0 <= j < top ensures d.stack[j].op in d.stack[top].done {
      OpDone(m, hist, n, d, j, top);
      assert Level(d, top) == (d.stack[top].done, d.stack[top].state);
    }
  }

  ghost function PutBack<S, V>(hist: seq<Entry<V>>, n: nat, k: Links, f: Frame<S>): (k': Links)
    requires WellFormed(hist, n) && FrameLinks(hist, n, k, f) && Threads(k, |hist| + 1, LiveNodes(hist, f.done + {f.op}))
    ensures Threads(k', |hist| + 1, LiveNodes(hist, f.done)) && SameOutside(k, k', LiveNodes(hist, f.done))
    ensures var c, r := CallPos(hist, f.op) + 1, ReturnPos(hist, f.op) + 1;
            && CanUnlift(k, |hist| + 1, LiveNodes(hist, f.done), c, r)
            && k' == UnliftedLinks(k, |hist| + 1, LiveNodes(hist, f.done), c, r)
  {
    TakenOut(hist, n, f.done, f.op);
    UnliftedLinks(k, |hist| + 1, LiveNodes(hist, f.done), CallPos(hist, f.op) + 1, ReturnPos(hist, f.op) + 1)
  }

  /** Putting the top operation back as it is popped. */
  lemma PopLinks<S, V>(hist: seq<Entry<V>>, n: nat, k: Links, d: Dfs<S>, at: nat)
    requires WellFormed(hist, n) && LinksOk(hist, n, k, d) && |d.stack| > 0
    requires d.done == d.stack[|d.stack| - 1].done + {d.stack[|d.stack| - 1].op}
    requires forall j :: 0 <= j < |d.stack| - 1 ==> d.stack[j].op in d.stack[|d.stack| - 1].done
    ensures FrameLinks(hist, n, k, d.stack[|d.stack| - 1])
    ensures LinksOk(hist, n, PutBack(hist, n, k, d.stack[|d.stack| - 1]), Popped(d, at))
  {
    var f := d.stack[|d.stack| - 1];
    assert FrameLinks(hist, n, k, f);
    var k' := PutBack(hist, n, k, f);
    var e := Popped(d, at);
    forall j | 0 <= j < |e.stack| ensures FrameLinks(hist, n, k', e.stack[j]) {
      FrameLinksStay(hist, n, k, k', d.stack[j], f.done);
    }
  }

  /** Following a link leads to the next remaining entry. */
  lemma FollowLink<V>(hist: seq<Entry<V>>, done: set<nat>, k: Links, q: nat)
    requires Threads(k, |hist| + 1, LiveNodes(hist, done)) && q in LiveNodes(hist, done)
    ensures q < k.succ[q] <= |hist| + 1
    ensures IsNext(hist, done, q, k.succ[q] - 1)
    ensures k.succ[q] - 1 < |hist| ==> Live(hist, done, k.succ[q] - 1)
  {
    assert IsSucc(LiveNodes(hist, done), |hist| + 1, q, k.succ[q]);
    forall p | q <= p < k.succ[q] - 1 && p < |hist| ensures !Live(hist, done, p) {
      assert p + 1 !in LiveNodes(hist, done);
    }
  }

  // ---------------------------------------------------------------- nodes and entries

  /** Node p + 1 stands for entry p; node 0 is the head. */
  ghost predicate NodesOk<V>(hist: seq<Entry<V>>, n: nat, nodes: seq<Node<V>>)
    requires WellFormed(hist, n)
  {
    |nodes| == |hist| + 1 && forall p {:trigger NodeOk(hist, n, nodes, p)} :: 0 <= p < |hist| ==> NodeOk(hist, n, nodes, p)
  }

  ghost predicate NodeOk<V>(hist: seq<Entry<V>>, n: nat, nodes: seq<Node<V>>, p: int)
    requires WellFormed(hist, n) && 0 <= p < |hist| && |nodes| == |hist| + 1
  {
    var node := nodes[p + 1];
    && node.value == Value(hist[p].value) && node.id == hist[p].id
    && node.matching == if hist[p].kind == ReturnEntry then null else nodes[ReturnPos(hist, hist[p].id) + 1]
  }

  ghost function Ordered<V>(head: Node<V>, built: seq<Node<V>>): (nodes: seq<Node<V>>)
    ensures |nodes| == |built| + 1 && nodes[0] == head
    ensures forall q :: 0 < q < |nodes| ==> nodes[q] == built[|built| - q]
  {
    [head] + seq(|built|, j requires 0 <= j < |built| => built[|built| - 1 - j])
  }

  lemma OrderedOk<V>(hist: seq<Entry<V>>, n: nat, head: Node<V>, built: seq<Node<V>>)
    requires WellFormed(hist, n) && |built| == |hist| && AllStand(hist, built)
    ensures NodesOk(hist, n, Ordered(head, built))
  {
    var nodes := Ordered(head, built);
    forall p | 0 <= p < |hist| ensures NodeOk(hist, n, nodes, p) {
      assert StandsFor(hist, built, p) && nodes[p + 1] == NodeOf(hist, built, p);
      if hist[p].kind == CallEntry {
        var i := hist[p].id;
        PosUnique(hist, i, p);
        var r := ReturnPos(hist, i);
        forall q | p < q < r ensures !ReturnAt(hist, i, q) {
          PosUnique(hist, i, q);
        }
        assert FirstReturn(hist, p, r);
        assert nodes[r + 1] == NodeOf(hist, built, r);
      }
    }
  }

  function FirstLinks(size: nat): Links {
    Links(seq(size, p requires 0 <= p < size => p + 1), seq(size, p requires 0 <= p < size => if p > 0 then p - 1 else size))
  }

  lemma FirstThreads<V>(hist: seq<Entry<V>>)
    ensures Threads(FirstLinks(|hist| + 1), |hist| + 1, LiveNodes(hist, {}))
  {
  }

  /** The whole list, once the head is in front. */
  lemma OrderedMirrors<V>(head: Node<V>, built: seq<Node<V>>)
    requires NoRepeats(built) && head !in built && head.prev == null
    requires head.next == if |built| > 0 then built[|built| - 1] else null
    requires forall j {:trigger built[j].next} :: 0 <= j < |built| ==> built[j].next == if j > 0 then built[j - 1] else null
    requires forall j {:trigger built[j].prev} :: 0 <= j < |built| ==> built[j].prev == if j + 1 < |built| then built[j + 1] else head
    ensures Mirrors(Ordered(head, built), FirstLinks(|built| + 1))
  {
    var nodes, k := Ordered(head, built), FirstLinks(|built| + 1);
    forall p | 0 <= p < |nodes| ensures nodes[p].next == NodeAt(nodes, k.succ[p]) && nodes[p].prev == NodeAt(nodes, k.pred[p]) {
      if p > 0 {
        assert nodes[p] == built[|built| - p];
        if p > 1 {
          assert nodes[p - 1] == built[|built| - (p - 1)];
        }
      }
      if p < |built| {
        assert nodes[p + 1] == built[|built| - (p + 1)];
      }
    }
    forall i, j | 0 <= i < j < |nodes| ensures nodes[i] != nodes[j] {
      assert nodes[j] == built[|built| - j];
      if i > 0 {
        assert nodes[i] == built[|built| - i];
      }
    }
  }

  /** The number of entries. */
  method Length<V>(first: Node?<V>, ghost built: seq<Node<V>>) returns (l: nat)
    requires BackLinked(built) && first == if |built| > 0 then built[|built| - 1] else null
    ensures l == |built|
  {
    l := 0;
    var n := first;
    while n != null
      invariant l <= |built| && n == if l < |built| then built[|built| - 1 - l] else null
      decreases |built| - l
    {
      n := n.next;
      l := l + 1;
    }
  }

  method AddHead<V>(first: Node?<V>, ghost built: seq<Node<V>>) returns (head: Node<V>)
    requires BackLinked(built) && first == if |built| > 0 then built[|built| - 1] else null
    modifies Nodes(built)
    ensures fresh(head) && Mirrors(Ordered(head, built), FirstLinks(|built| + 1))
  {
    head := new Node(NoValue, null, -1);
    assert head !in built;
    head := InsertBefore(head, first);
    OrderedMirrors(head, built);
  }

  // ---------------------------------------------------------------- the state of the search

  /** All that holds of the search, but for what is in memory: the list is threaded right, and
      the entry looked at is the next one that remains. */
  ghost predicate SearchOk<S(!new), V>(m: Model<S, V>, hist: seq<Entry<V>>, n: nat, all: set<(set<nat>, S)>, k: Links, d: Dfs<S>)
    requires WellFormed(hist, n)
  {
    && DfsOk(m, hist, n, d) && ExploredOk(m, hist, n, d) && LinksOk(hist, n, k, d)
    && 0 <= d.at <= |hist| && (d.at < |hist| ==> Live(hist, d.done, d.at))
    && HasEvery(m, hist, n, all) && d.memo <= all
  }

  lemma SearchStarts<S(!new), V>(m: Model<S, V>, hist: seq<Entry<V>>, n: nat, all: set<(set<nat>, S)>)
    requires WellFormed(hist, n) && HasEvery(m, hist, n, all)
    ensures SearchOk(m, hist, n, all, FirstLinks(|hist| + 1), Start(m, 0))
  {
    StartOk(m, hist, n);
    StartExplored(m, hist, n);
    FirstThreads(hist);
  }

  /** As long as an entry is left, one is looked at. */
  lemma EntryLeft<S(!new), V>(m: Model<S, V>, hist: seq<Entry<V>>, n: nat, all: set<(set<nat>, S)>, k: Links, d: Dfs<S>)
    requires WellFormed(hist, n) && SearchOk(m, hist, n, all, k, d)
    ensures |k.succ| == |hist| + 1
    ensures k.succ[0] < |hist| + 1 ==> d.at < |hist| && Live(hist, d.done, d.at) && hist[d.at].id < n
    ensures k.succ[0] == |hist| + 1 ==> forall p :: 0 <= p < |hist| ==> !Live(hist, d.done, p)
    ensures k.succ[0] <= |hist| + 1
  {
    hide StackOk, MemoOk, Tried, HasEvery, ExploredOk;
    FollowLink(hist, d.done, k, 0);
    if k.succ[0] < |hist| + 1 {
      var x := hist[k.succ[0] - 1].id;
      assert ReturnPos(hist, x) >= d.at;
    }
  }

  lemma SkipOk<S(!new), V>(m: Model<S, V>, hist: seq<Entry<V>>, n: nat, all: set<(set<nat>, S)>, k: Links, d: Dfs<S>)
    requires WellFormed(hist, n) && SearchOk(m, hist, n, all, k, d)
    requires d.at < |hist| && hist[d.at].kind == CallEntry
    requires Failed(m, hist, n, d.done, d.state, hist[d.at].id)
    requires Entered(m, hist, n, d.memo, d.done, d.state, hist[d.at].id)
    ensures |k.succ| == |hist| + 1 && d.at < k.succ[d.at + 1] - 1 <= |hist|
    ensures SearchOk(m, hist, n, all, k, d.(at := k.succ[d.at + 1] - 1))
  {
    hide ExploredOk, StackOk, MemoOk, Tried;
    NextPlace(hist, d.done, k, d.at);
    SkipBoth(m, hist, n, d, k.succ[d.at + 1] - 1);
  }

  lemma SkipBoth<S, V>(m: Model<S, V>, hist: seq<Entry<V>>, n: nat, d: Dfs<S>, next: nat)
    requires WellFormed(hist, n) && DfsOk(m, hist, n, d) && ExploredOk(m, hist, n, d)
    requires Live(hist, d.done, d.at) && hist[d.at].kind == CallEntry && hist[d.at].id < n
    requires Failed(m, hist, n, d.done, d.state, hist[d.at].id)
    requires Entered(m, hist, n, d.memo, d.done, d.state, hist[d.at].id) && IsNext(hist, d.done, d.at + 1, next)
    ensures DfsOk(m, hist, n, d.(at := next)) && ExploredOk(m, hist, n, d.(at := next))
  {
    hide ExploredOk, DfsOk, Failed, Entered, IsNext;
    CallIsMinimal(m, hist, n, d);
    SkipExplored(m, hist, n, d, hist[d.at].id, next);
    Skip(m, hist, n, d, next);
  }

  /** The link of a live entry leads to the next one. */
  lemma NextPlace<V>(hist: seq<Entry<V>>, done: set<nat>, k: Links, at: int)
    requires Threads(k, |hist| + 1, LiveNodes(hist, done)) && Live(hist, done, at)
    ensures |k.succ| == |hist| + 1 && at < k.succ[at + 1] - 1 <= |hist| && IsNext(hist, done, at + 1, k.succ[at + 1] - 1)
    ensures k.succ[at + 1] - 1 < |hist| ==> Live(hist, done, k.succ[at + 1] - 1)
  {
    assert at + 1 in LiveNodes(hist, done);
    FollowLink(hist, done, k, at + 1);
  }

  /** The links k' after taking out operation i, and the first entry left. */
  ghost predicate Taken<V>(hist: seq<Entry<V>>, n: nat, k: Links, done: set<nat>, i: nat, k': Links, at: nat)
    requires WellFormed(hist, n)
  {
    && i < n && i !in done && Threads(k, |hist| + 1, LiveNodes(hist, done))
    && k' == TakeOut(hist, n, k, done, i)
    && |k'.succ| == |hist| + 1 && at + 1 == k'.succ[0]
  }

  lemma PushPlace<V>(hist: seq<Entry<V>>, n: nat, k: Links, done: set<nat>, i: nat) returns (k': Links, at: nat)
    requires WellFormed(hist, n) && i < n && i !in done && Threads(k, |hist| + 1, LiveNodes(hist, done))
    ensures Taken(hist, n, k, done, i, k', at)
    ensures at <= |hist| && (at < |hist| ==> Live(hist, done + {i}, at)) && IsNext(hist, done + {i}, 0, at)
  {
    k' := TakeOut(hist, n, k, done, i);
    FollowLink(hist, done + {i}, k', 0);
    at := k'.succ[0] - 1;
  }

  lemma PushMemo<S(!new), V>(m: Model<S, V>, hist: seq<Entry<V>>, n: nat, all: set<(set<nat>, S)>, d: Dfs<S>, i: nat, at: nat)
    requires WellFormed(hist, n) && HasEvery(m, hist, n, all) && d.memo <= all && Enters(m, hist, n, d, i)
    ensures Pushed(m, hist, n, d, i, at).memo <= all
  {
  }

  lemma PushOk<S(!new), V>(m: Model<S, V>, hist: seq<Entry<V>>, n: nat, all: set<(set<nat>, S)>, k: Links, d: Dfs<S>, i: nat)
    returns (k': Links, at: nat)
    requires WellFormed(hist, n) && SearchOk(m, hist, n, all, k, d)
    requires d.at < |hist| && hist[d.at].kind == CallEntry && hist[d.at].id == i && i !in d.done
    requires Perform(m, hist, d.state, i).0
    ensures Taken(hist, n, k, d.done, i, k', at) && SearchOk(m, hist, n, all, k', Pushed(m, hist, n, d, i, at))
  {
    k', at := PushPlace(hist, n, k, d.done, i);
    hide ExploredOk;
    CallIsMinimal(m, hist, n, d);
    Push(m, hist, n, d, i, at);
    PushExplored(m, hist, n, d, i, at);
    PushLinks(m, hist, n, k, d, i, at);
    PushMemo(m, hist, n, all, d, i, at);
  }

  /** The links k' after putting back the operation of f, and the entry after its call. */
  ghost predicate Backed<S, V>(hist: seq<Entry<V>>, n: nat, k: Links, f: Frame<S>, k': Links, at: nat)
    requires WellFormed(hist, n)
  {
    && FrameLinks(hist, n, k, f) && Threads(k, |hist| + 1, LiveNodes(hist, f.done + {f.op}))
    && k' == PutBack(hist, n, k, f)
    && |k'.succ| == |hist| + 1 && at + 1 == k'.succ[CallPos(hist, f.op) + 1]
  }

  lemma PopPlace<S, V>(hist: seq<Entry<V>>, n: nat, k: Links, f: Frame<S>) returns (k': Links, at: nat)
    requires WellFormed(hist, n) && FrameLinks(hist, n, k, f) && Threads(k, |hist| + 1, LiveNodes(hist, f.done + {f.op}))
    ensures Backed(hist, n, k, f, k', at)
    ensures CallPos(hist, f.op) < at <= |hist| && (at < |hist| ==> Live(hist, f.done, at))
    ensures IsNext(hist, f.done, CallPos(hist, f.op) + 1, at)
  {
    TakenOut(hist, n, f.done, f.op);
    k' := PutBack(hist, n, k, f);
    FollowLink(hist, f.done, k', CallPos(hist, f.op) + 1);
    at := k'.succ[CallPos(hist, f.op) + 1] - 1;
  }

  lemma PopOk<S(!new), V>(m: Model<S, V>, hist: seq<Entry<V>>, n: nat, all: set<(set<nat>, S)>, k: Links, d: Dfs<S>, f: Frame<S>)
    returns (k': Links, at: nat)
    requires WellFormed(hist, n) && SearchOk(m, hist, n, all, k, d)
    requires d.at < |hist| && hist[d.at].kind == ReturnEntry && |d.stack| > 0 && f == d.stack[|d.stack| - 1]
    ensures Backed(hist, n, k, f, k', at) && f.op !in f.done && d.done == f.done + {f.op}
    ensures SearchOk(m, hist, n, all, k', Popped(d, at))
  {
    TopFrame(m, hist, n, d);
    assert FrameLinks(hist, n, k, f);
    k', at := PopPlace(hist, n, k, f);
    PopLinks(hist, n, k, d, at);
    hide ExploredOk;
    ReturnIsDead(m, hist, n, d);
    Pop(m, hist, n, d, at);
    PopExplored(m, hist, n, d, at);
  }

  // ---------------------------------------------------------------- partial results

  datatype CallsEntry<S, V> = CallsEntry(entry: Node<V>, state: S)

  datatype Partial = None | Some(order: seq<nat>)

  /** The stack of calls is the stack of the search, with the node of each call. */
  ghost predicate CallsOk<S, V>(hist: seq<Entry<V>>, n: nat, nodes: seq<Node<V>>, stack: seq<Frame<S>>, calls: seq<CallsEntry<S, V>>)
    requires WellFormed(hist, n)
  {
    |nodes| == |hist| + 1 && |calls| == |stack|
    && forall j {:trigger calls[j]} {:trigger stack[j]} :: 0 <= j < |stack| ==>
         stack[j].op < n && calls[j] == CallsEntry(nodes[CallPos(hist, stack[j].op) + 1], stack[j].state)
  }

  lemma CallIds<S, V>(hist: seq<Entry<V>>, n: nat, nodes: seq<Node<V>>, stack: seq<Frame<S>>, calls: seq<CallsEntry<S, V>>)
    requires WellFormed(hist, n) && NodesOk(hist, n, nodes) && CallsOk(hist, n, nodes, stack, calls)
    ensures |Ops(stack)| == |calls| && forall j :: 0 <= j < |calls| ==> calls[j].entry.id == Ops(stack)[j] && Ops(stack)[j] < n
  {
    forall j | 0 <= j < |calls| ensures calls[j].entry.id == Ops(stack)[j] && Ops(stack)[j] < n {
      assert stack[j].op < n;
      assert NodeOk(hist, n, nodes, CallPos(hist, stack[j].op));
    }
  }

  method IdsOf<S, V>(calls: seq<CallsEntry<S, V>>, ghost ops: seq<nat>) returns (order: seq<nat>)
    requires |ops| == |calls| && forall j :: 0 <= j < |calls| ==> calls[j].entry.id == ops[j]
    ensures order == ops
  {
    order := [];
    for i := 0 to |calls|
      invariant order == ops[..i]
    {
      order := order + [calls[i].entry.id];
    }
  }

  /** Keep the operations on the stack for each of them that has no longer record yet. */
  method Record<S, V>(calls: seq<CallsEntry<S, V>>, longest: array<Partial>, ghost ops: seq<nat>)
    requires |ops| == |calls| && forall j :: 0 <= j < |calls| ==> calls[j].entry.id == ops[j] && ops[j] < longest.Length
    modifies longest
    ensures forall i :: 0 <= i < longest.Length ==>
              longest[i] == if i in ops && (old(longest[i]) == None || |ops| > |old(longest[i]).order|) then Some(ops) else old(longest[i])
  {
    var order := None;
    for j := 0 to |calls|
      invariant order == None || order == Some(ops)
      invariant forall i :: 0 <= i < longest.Length ==>
                  longest[i] == if i in ops[..j] && (old(longest[i]) == None || |ops| > |old(longest[i]).order|) then Some(ops) else old(longest[i])
    {
      var id := calls[j].entry.id;
      assert ops[..j + 1] == ops[..j] + [ops[j]];
      if longest[id] == None || |calls| > |longest[id].order| {
        if order == None {
          var all := IdsOf(calls, ops);
          order := Some(all);
        }
        longest[id] := order;
      }
    }
    assert ops[..|calls|] == ops;
  }

  ghost predicate PartialsOk<S, V>(m: Model<S, V>, hist: seq<Entry<V>>, n: nat, longest: seq<Partial>)
    requires WellFormed(hist, n)
  {
    |longest| == n && forall i :: 0 <= i < n && longest[i].Some? ==> IsPartial(m, hist, n, i, longest[i].order)
  }

  /** The record of operation i is at least this long. */
  ghost predicate AsLong(longest: seq<Partial>, i: nat, length: nat) {
    i < |longest| && longest[i].Some? && |longest[i].order| >= length
  }

  /** Each operation done in the pair has a record at least as long as the pair. */
  ghost predicate PairRecorded<S>(longest: seq<Partial>, p: (set<nat>, S)) {
    forall i: nat {:trigger i in p.0} {:trigger AsLong(longest, i, |p.0|)} :: i in p.0 ==> AsLong(longest, i, |p.0|)
  }

  /** Every pair that was entered is recorded, or still on the path. */
  ghost predicate RecordedOk<S>(d: Dfs<S>, longest: seq<Partial>) {
    forall p {:trigger OnPath(d, p)} :: p in d.memo ==> OnPath(d, p) || PairRecorded(longest, p)
  }

  /** No record is longer than that of its operation, of all partial linearizations. */
  ghost predicate Longest<S, V>(m: Model<S, V>, hist: seq<Entry<V>>, n: nat, longest: seq<Partial>)
    requires WellFormed(hist, n)
  {
    forall i: nat, order {:trigger IsPartial(m, hist, n, i, order)} :: IsPartial(m, hist, n, i, order) ==> AsLong(longest, i, |order|)
  }

  /** What the search goes through without going back needs no record. */
  lemma RecordedOn<S>(d: Dfs<S>, e: Dfs<S>, longest: seq<Partial>)
    requires RecordedOk(d, longest) && PathKept(d, e, false)
    ensures RecordedOk(e, longest)
  {
    hide OnPath, PairRecorded;
  }

  /** No record has become shorter, and those on the stack are as long as the stack. */
  ghost predicate Recorded<S>(d: Dfs<S>, before: seq<Partial>, after: seq<Partial>) {
    && (forall i: nat, length: nat {:trigger AsLong(after, i, length)} :: AsLong(before, i, length) ==> AsLong(after, i, length))
    && (forall i: nat {:trigger AsLong(after, i, |d.stack|)} :: i in Ops(d.stack) ==> AsLong(after, i, |d.stack|))
  }

  lemma RecordRecords<S>(d: Dfs<S>, before: seq<Partial>, after: seq<Partial>)
    requires |after| == |before| && forall i :: 0 <= i < |Ops(d.stack)| ==> Ops(d.stack)[i] < |after|
    requires forall i :: 0 <= i < |after| ==>
               after[i] == if i in Ops(d.stack) && (before[i] == None || |d.stack| > |before[i].order|) then Some(Ops(d.stack)) else before[i]
    ensures Recorded(d, before, after)
  {
  }

  /** Before the search goes back, the pair it leaves is recorded. */
  lemma RecordedBack<S(!new), V>(m: Model<S, V>, hist: seq<Entry<V>>, n: nat, all: set<(set<nat>, S)>, k: Links, d: Dfs<S>, e: Dfs<S>,
                           before: seq<Partial>, after: seq<Partial>)
    requires WellFormed(hist, n) && SearchOk(m, hist, n, all, k, d)
    requires RecordedOk(d, before) && Recorded(d, before, after) && PathKept(d, e, true)
    ensures RecordedOk(e, after)
  {
    LevelDone(m, hist, n, d, |d.stack|);
    assert Ops(d.stack)[..|d.stack|] == Ops(d.stack) && |d.done| == |d.stack| by { assert |Level(d, |d.stack|).0| == |d.stack|; }
    hide OnPath, StackOk, SearchOk;
    forall p | p in e.memo && !OnPath(e, p) ensures PairRecorded(after, p) {
      if p != (d.done, d.state) {
        assert PairRecorded(before, p);
      }
      forall i: nat | i in p.0 ensures AsLong(after, i, |p.0|) {
        if p == (d.done, d.state) {
          assert i in Ops(d.stack);
        } else {
          assert AsLong(before, i, |p.0|);
        }
      }
    }
  }

  lemma NothingEntered<S, V>(m: Model<S, V>, longest: seq<Partial>)
    ensures RecordedOk(Start(m, 0), longest)
  {
  }

  /** When the search gives up, nothing longer is left to find. */
  lemma GivenUpLongest<S, V>(m: Model<S, V>, hist: seq<Entry<V>>, n: nat, d: Dfs<S>, longest: seq<Partial>)
    requires WellFormed(hist, n) && GivenUp(m, hist, n, d) && RecordedOk(d, longest)
    ensures Longest(m, hist, n, longest)
  {
    forall i: nat, order | IsPartial(m, hist, n, i, order) ensures AsLong(longest, i, |order|) {
      var last := PartialEntered(m, hist, n, d, i, order);
      var p := (Elements(order), last);
      assert PairSeen(m, hist, n, d, p);
      assert Level(d, 0).0 == {};
      assert !OnPath(d, p);
      assert PairRecorded(longest, p) && i in p.0;
    }
  }

  /** A linearization is as long as any partial one. */
  lemma WholeLongest<S, V>(m: Model<S, V>, hist: seq<Entry<V>>, n: nat, order: seq<nat>, longest: seq<Partial>)
    requires WellFormed(hist, n) && |longest| == n && |order| == n && forall i :: 0 <= i < n ==> longest[i] == Some(order)
    ensures Longest(m, hist, n, longest)
  {
    forall i: nat, other | IsPartial(m, hist, n, i, other) ensures AsLong(longest, i, |other|) {
      DistinctSize(other);
      IdsSize(n);
      assert Elements(other) <= Ids(n);
      assert |Ids(n) - Elements(other)| == |Ids(n)| - |Elements(other)|;
    }
  }

  // ---------------------------------------------------------------- the search

  /** What is in memory: the linked nodes, the set of operations done, the stack of calls. */
  ghost predicate InMemory<S, V>(hist: seq<Entry<V>>, n: nat, nodes: seq<Node<V>>, k: Links, d: Dfs<S>,
                                 entry: Node?<V>, state: S, linearized: Bitset.Bits, calls: seq<CallsEntry<S, V>>)
    requires WellFormed(hist, n)
    reads nodes, linearized.words
  {
    && NodesOk(hist, n, nodes) && Mirrors(nodes, k) && CallsOk(hist, n, nodes, d.stack, calls)
    && 0 <= d.at && entry == NodeAt(nodes, d.at + 1) && state == d.state
    && linearized.Elements() == d.done && n <= Bitset.WORD * linearized.words.Length
  }

  /** Node `entry` is the call of operation i, and carries its input and, through its match,
      its output. */
  ghost predicate IsCallOf<V>(hist: seq<Entry<V>>, n: nat, i: nat, entry: Node<V>)
    requires WellFormed(hist, n) && i < n
  {
    && entry.id == i && entry.value == Value(hist[CallPos(hist, i)].value)
    && entry.matching != null && entry.matching.value == Value(hist[ReturnPos(hist, i)].value)
  }

  /** Whether the call `entry` is allowed and leads to a pair not entered before, which is
      then remembered. */
  method Attempt<S(==), V>(m: Model<S, V>, state: S, entry: Node<V>, linearized: Bitset.Bits, cache: Cache<S>,
                           ghost input: V, ghost output: V, ghost pairs: set<(set<nat>, S)>, ghost contents: Contents)
    returns (taken: bool, newState: S, cache': Cache<S>, ghost contents': Contents)
    requires entry.value == Value(input) && entry.matching != null && entry.matching.value == Value(output)
    requires 0 <= entry.id < Bitset.WORD * linearized.words.Length
    requires Stores(cache, pairs, linearized.words.Length, contents) && Kept(contents)
    ensures newState == m.step(state, input, output).1
    ensures taken <==> m.step(state, input, output).0 && (linearized.Elements() + {entry.id}, newState) !in pairs
    ensures Stores(cache', if taken then pairs + {(linearized.Elements() + {entry.id}, newState)} else pairs,
                   linearized.words.Length, contents')
    ensures Kept(contents') && fresh(contents'.Keys - contents.Keys)
  {
    cache', contents' := cache, contents;
    var (allowed, next) := m.step(state, entry.value.v, entry.matching.value.v);
    newState := next;
    taken := false;
    if allowed {
      var newLinearized := linearized.Clone();
      newLinearized.Set(entry.id);
      taken, cache', contents' := Remember(cache, CacheEntry(newLinearized, newState), pairs, contents);
    }
  }

  /** The node looked at, when it is the call of an operation. */
  lemma EntryIsCall<V>(hist: seq<Entry<V>>, n: nat, nodes: seq<Node<V>>, p: nat)
    requires WellFormed(hist, n) && NodesOk(hist, n, nodes) && p < |hist| && hist[p].id < n
    ensures nodes[p + 1].matching != null <==> hist[p].kind == CallEntry
    ensures hist[p].kind == CallEntry ==> IsCallOf(hist, n, hist[p].id, nodes[p + 1]) && CallPos(hist, hist[p].id) == p
                                          && nodes[p + 1].matching == nodes[ReturnPos(hist, hist[p].id) + 1]
  {
    assert NodeOk(hist, n, nodes, p);
    if hist[p].kind == CallEntry {
      PosUnique(hist, hist[p].id, p);
      assert NodeOk(hist, n, nodes, ReturnPos(hist, hist[p].id));
    }
  }

  lemma PushCalls<S, V>(m: Model<S, V>, hist: seq<Entry<V>>, n: nat, nodes: seq<Node<V>>, d: Dfs<S>, i: nat, at: nat,
                        calls: seq<CallsEntry<S, V>>, entry: Node<V>)
    requires WellFormed(hist, n) && CallsOk(hist, n, nodes, d.stack, calls) && i < n && entry == nodes[CallPos(hist, i) + 1]
    ensures CallsOk(hist, n, nodes, Pushed(m, hist, n, d, i, at).stack, calls + [CallsEntry(entry, d.state)])
  {
  }

  lemma PopCalls<S, V>(hist: seq<Entry<V>>, n: nat, nodes: seq<Node<V>>, d: Dfs<S>, at: nat, calls: seq<CallsEntry<S, V>>)
    requires WellFormed(hist, n) && CallsOk(hist, n, nodes, d.stack, calls) && |calls| > 0
    ensures |d.stack| > 0
    ensures var f := d.stack[|d.stack| - 1];
            |nodes| == |hist| + 1 && |calls| == |d.stack| && f.op < n && calls[|calls| - 1] == CallsEntry(nodes[CallPos(hist, f.op) + 1], f.state)
    ensures CallsOk(hist, n, nodes, Popped(d, at).stack, calls[..|calls| - 1])
  {
  }

  lemma TakenLinks<V>(hist: seq<Entry<V>>, n: nat, k: Links, done: set<nat>, i: nat, k': Links, at: nat)
    requires WellFormed(hist, n) && Taken(hist, n, k, done, i, k', at)
    ensures var c, r := CallPos(hist, i) + 1, ReturnPos(hist, i) + 1;
            CanLift(k, |hist| + 1, LiveNodes(hist, done), c, r) && k' == LiftedLinks(k, |hist| + 1, LiveNodes(hist, done), c, r)
    ensures |k'.succ| > 0 && k'.succ[0] == at + 1
  {
  }

  lemma BackedLinks<S, V>(hist: seq<Entry<V>>, n: nat, k: Links, f: Frame<S>, k': Links, at: nat)
    requires WellFormed(hist, n) && Backed(hist, n, k, f, k', at)
    ensures var c, r := CallPos(hist, f.op) + 1, ReturnPos(hist, f.op) + 1;
            CanUnlift(k, |hist| + 1, LiveNodes(hist, f.done), c, r) && k' == UnliftedLinks(k, |hist| + 1, LiveNodes(hist, f.done), c, r)
    ensures |k'.succ| == |hist| + 1 && k'.succ[CallPos(hist, f.op) + 1] == at + 1
  {
    hide WellFormed, LiveNodes, Threads, CanUnlift, UnliftedLinks, FrameLinks;
  }

  lemma MirrorsNext<V>(nodes: seq<Node<V>>, k: Links, p: nat)
    requires Mirrors(nodes, k) && p < |nodes|
    ensures |k.succ| == |nodes| && nodes[p].next == NodeAt(nodes, k.succ[p])
  {
  }

  /** The call looked at is the node of an operation not yet done. */
  lemma CallLookedAt<S, V>(hist: seq<Entry<V>>, n: nat, nodes: seq<Node<V>>, d: Dfs<S>)
    requires WellFormed(hist, n) && NodesOk(hist, n, nodes) && 0 <= d.at < |hist| && Live(hist, d.done, d.at)
    requires |nodes| == |hist| + 1 && nodes[d.at + 1].matching != null
    ensures hist[d.at].id < n && hist[d.at].id !in d.done && hist[d.at].kind == CallEntry
    ensures CallPos(hist, hist[d.at].id) == d.at && IsCallOf(hist, n, hist[d.at].id, nodes[d.at + 1])
    ensures nodes[d.at + 1].matching == nodes[ReturnPos(hist, hist[d.at].id) + 1]
  {
    EntryIsCall(hist, n, nodes, d.at);
  }

  /** What is not taken leads nowhere. */
  lemma MustSkip<S(!new), V>(m: Model<S, V>, hist: seq<Entry<V>>, n: nat, all: set<(set<nat>, S)>, k: Links, d: Dfs<S>, i: nat)
    requires WellFormed(hist, n) && SearchOk(m, hist, n, all, k, d) && i < n && i !in d.done
    requires Perform(m, hist, d.state, i).0 ==> (d.done + {i}, Perform(m, hist, d.state, i).1) in d.memo
    ensures Failed(m, hist, n, d.done, d.state, i) && Entered(m, hist, n, d.memo, d.done, d.state, i)
  {
    if Perform(m, hist, d.state, i).0 {
      HitFails(m, hist, n, d, i);
    }
  }

  lemma AtStart<S, V>(m: Model<S, V>, hist: seq<Entry<V>>, n: nat, nodes: seq<Node<V>>, width: nat)
    requires WellFormed(hist, n) && NodesOk(hist, n, nodes)
    ensures |hist| / 2 == n && |nodes| == |hist| + 1
    ensures CallsOk(hist, n, nodes, Start(m, 0).stack, []) && Stores<S>(map[], Start(m, 0).memo, width, map[])
  {
  }

  /** With no entry left, the stack is a linearization. */
  lemma AtSuccess<S(!new), V>(m: Model<S, V>, hist: seq<Entry<V>>, n: nat, all: set<(set<nat>, S)>, k: Links, d: Dfs<S>)
    requires WellFormed(hist, n) && SearchOk(m, hist, n, all, k, d) && |k.succ| > 0 && k.succ[0] == |hist| + 1
    ensures IsLinearization(m, hist, n, Ops(d.stack)) && Linearizable(m, hist, n)
    ensures forall i: nat :: i < n ==> IsPartial(m, hist, n, i, Ops(d.stack))
  {
    EntryLeft(m, hist, n, all, k, d);
    StackIsLinearization(m, hist, n, d);
    CoversAll(n, Ops(d.stack));
    KeepPartials(m, hist, n, all, k, d);
  }

  /** At a return with nothing on the stack, there is no linearization. */
  lemma AtFailure<S(!new), V>(m: Model<S, V>, hist: seq<Entry<V>>, n: nat, all: set<(set<nat>, S)>, k: Links, d: Dfs<S>)
    requires WellFormed(hist, n) && SearchOk(m, hist, n, all, k, d) && |d.stack| == 0
    requires d.at < |hist| && Live(hist, d.done, d.at) && hist[d.at].kind == ReturnEntry
    ensures !Linearizable(m, hist, n) && GivenUp(m, hist, n, d)
  {
    EmptyStackFails(m, hist, n, d);
    assert Level(d, 0) == (d.done, d.state);
  }

  lemma KeepPartials<S(!new), V>(m: Model<S, V>, hist: seq<Entry<V>>, n: nat, all: set<(set<nat>, S)>, k: Links, d: Dfs<S>)
    requires WellFormed(hist, n) && SearchOk(m, hist, n, all, k, d)
    ensures forall i: nat :: i in Ops(d.stack) ==> IsPartial(m, hist, n, i, Ops(d.stack))
  {
    forall i: nat | i in Ops(d.stack) ensures IsPartial(m, hist, n, i, Ops(d.stack)) {
      StackIsPartial(m, hist, n, d, i);
    }
  }

  /** Everything that holds of the search while it runs. */
  ghost predicate Searching<S(!new), V>(m: Model<S, V>, hist: seq<Entry<V>>, n: nat, all: set<(set<nat>, S)>, nodes: seq<Node<V>>,
                                        k: Links, d: Dfs<S>, contents: Contents,
                                        headEntry: Node<V>, entry: Node?<V>, state: S, linearized: Bitset.Bits, cache: Cache<S>,
                                        calls: seq<CallsEntry<S, V>>)
    requires WellFormed(hist, n)
    reads nodes, linearized.words, contents.Keys
  {
    && SearchOk(m, hist, n, all, k, d) && InMemory(hist, n, nodes, k, d, entry, state, linearized, calls)
    && |nodes| == |hist| + 1 && nodes[0] == headEntry
    && Stores(cache, d.memo, linearized.words.Length, contents) && Kept(contents) && linearized.words !in contents
  }

  /** The measure of the search falls: more pairs entered, else a shorter stack, else a later
      entry. */
  ghost predicate Falls<S>(all: set<(set<nat>, S)>, size: nat, d: Dfs<S>, e: Dfs<S>) {
    && e.memo <= all && e.at <= size
    && (d.memo < e.memo || (d.memo == e.memo && (|e.stack| < |d.stack| || (|e.stack| == |d.stack| && d.at < e.at))))
  }

  lemma MemoFalls<S(!new), V>(m: Model<S, V>, hist: seq<Entry<V>>, n: nat, all: set<(set<nat>, S)>, k: Links, d: Dfs<S>, e: Dfs<S>)
    requires WellFormed(hist, n) && SearchOk(m, hist, n, all, k, e)
    requires d.memo < e.memo || (d.memo == e.memo && (|e.stack| < |d.stack| || (|e.stack| == |d.stack| && d.at < e.at)))
    ensures Falls(all, |hist|, d, e)
  {
  }

  /** The call looked at is taken, or passed over because it is not allowed or leads to a pair
      entered before. */
  method TryCall<S(==, !new), V(!new)>(m: Model<S, V>, headEntry: Node<V>, entry: Node<V>, state: S, linearized: Bitset.Bits, cache: Cache<S>,
                                       calls: seq<CallsEntry<S, V>>,
                                       ghost hist: seq<Entry<V>>, ghost n: nat, ghost all: set<(set<nat>, S)>, ghost nodes: seq<Node<V>>,
                                       ghost k: Links, ghost d: Dfs<S>, ghost contents: Contents)
    returns (entry': Node?<V>, state': S, cache': Cache<S>, calls': seq<CallsEntry<S, V>>,
             ghost k': Links, ghost e: Dfs<S>, ghost contents': Contents)
    requires WellFormed(hist, n)
    requires Searching(m, hist, n, all, nodes, k, d, contents, headEntry, entry, state, linearized, cache, calls)
    requires entry.matching != null && d.at < |hist| && Live(hist, d.done, d.at)
    modifies linearized.words, Nodes(nodes)
    ensures Searching(m, hist, n, all, nodes, k', e, contents', headEntry, entry', state', linearized, cache', calls')
    ensures Falls(all, |hist|, d, e) && fresh(contents'.Keys - contents.Keys) && PathKept(d, e, false)
    ensures |calls'| <= |calls| + 1
  {
    hide SearchOk, WellFormed, NodesOk, Mirrors, CallsOk, Stores, Bitset.Members, Failed, Taken, CanLift, LiftedLinks, LiveNodes, PathKept, Entered, Falls;
    ghost var i := hist[d.at].id;
    CallLookedAt(hist, n, nodes, d);
    var taken, newState;
    taken, newState, cache', contents' := Attempt(m, state, entry, linearized, cache, hist[CallPos(hist, i)].value,
                                                  hist[ReturnPos(hist, i)].value, d.memo, contents);
    if taken {
      calls' := calls + [CallsEntry(entry, state)];
      state' := newState;
      PushCalls(m, hist, n, nodes, d, i, 0, calls, entry);
      ghost var at;
      k', at := PushOk(m, hist, n, all, k, d, i);
      TakenLinks(hist, n, k, d.done, i, k', at);
      e := Pushed(m, hist, n, d, i, at);
      PushKeepsPath(m, hist, n, d, i, at);
      MemoFalls(m, hist, n, all, k', d, e);
      linearized.Set(entry.id);
      Lift(entry, nodes, k, LiveNodes(hist, d.done), CallPos(hist, i) + 1, ReturnPos(hist, i) + 1);
      MirrorsNext(nodes, k', 0);
      entry' := headEntry.next;
    } else {
      MustSkip(m, hist, n, all, k, d, i);
      SkipOk(m, hist, n, all, k, d);
      MemoFalls(m, hist, n, all, k, d, d.(at := k.succ[d.at + 1] - 1));
      SkipKeepsPath(d, k.succ[d.at + 1] - 1);
      MirrorsNext(nodes, k, d.at + 1);
      k', calls', state' := k, calls, state;
      entry' := entry.next;
      e := d.(at := k.succ[d.at + 1] - 1);
    }
  }

  /** Undoes the last call taken: off the stack, back into the list. */
  method Backtrack<S(==, !new), V(!new)>(headEntry: Node<V>, linearized: Bitset.Bits, cache: Cache<S>, calls: seq<CallsEntry<S, V>>,
                                         ghost m: Model<S, V>, ghost hist: seq<Entry<V>>, ghost n: nat, ghost all: set<(set<nat>, S)>,
                                         ghost nodes: seq<Node<V>>, ghost k: Links, ghost d: Dfs<S>, ghost contents: Contents,
                                         ghost entry: Node?<V>)
    returns (entry': Node?<V>, state: S, calls': seq<CallsEntry<S, V>>, ghost k': Links, ghost e: Dfs<S>)
    requires WellFormed(hist, n)
    requires Searching(m, hist, n, all, nodes, k, d, contents, headEntry, entry, d.state, linearized, cache, calls)
    requires d.at < |hist| && hist[d.at].kind == ReturnEntry && |calls| > 0
    modifies linearized.words, Nodes(nodes)
    ensures Searching(m, hist, n, all, nodes, k', e, contents, headEntry, entry', state, linearized, cache, calls')
    ensures Falls(all, |hist|, d, e) && PathKept(d, e, true) && |calls'| < |calls|
  {
    hide SearchOk, WellFormed, NodesOk, Mirrors, CallsOk, Stores, Backed, CanUnlift, UnliftedLinks, LiveNodes, Bitset.Members, PathKept, Falls;
    PopCalls(hist, n, nodes, d, 0, calls);
    ghost var f := d.stack[|d.stack| - 1];
    ghost var at;
    k', at := PopOk(m, hist, n, all, k, d, f);
    BackedLinks(hist, n, k, f, k', at);
    e := Popped(d, at);
    PopKeepsPath(d, at);
    MemoFalls(m, hist, n, all, k', d, e);
    PopCalls(hist, n, nodes, d, at, calls);
    ghost var c := CallPos(hist, f.op);
    EntryIsCall(hist, n, nodes, c);
    var callsTop := calls[|calls| - 1];
    state := callsTop.state;
    linearized.Clear(callsTop.entry.id);
    calls' := calls[..|calls| - 1];
    Unlift(callsTop.entry, nodes, k, LiveNodes(hist, f.done), c + 1, ReturnPos(hist, f.op) + 1);
    MirrorsNext(nodes, k', c + 1);
    entry' := callsTop.entry.next;
  }

  /** The linked list of a history, with its head. */
  method MakeList<V>(history: seq<Entry<V>>, ghost n: nat)
    returns (headEntry: Node<V>, entry: Node?<V>, size: nat, ghost nodes: seq<Node<V>>)
    requires WellFormed(history, n)
    ensures size == n && NodesOk(history, n, nodes) && nodes[0] == headEntry && entry == NodeAt(nodes, 1)
    ensures Mirrors(nodes, FirstLinks(|history| + 1)) && fresh(Nodes(nodes))
  {
    ghost var built;
    entry, built := MakeLinkedEntries(history);
    var entries := Length(entry, built);
    size := entries / 2;
    headEntry := AddHead(entry, built);
    nodes := Ordered(headEntry, built);
    OrderedOk(history, n, headEntry, built);
  }

  /** What the loop sees: whether an entry is left, and then the entry looked at. */
  lemma AtLoop<S(!new), V>(m: Model<S, V>, hist: seq<Entry<V>>, n: nat, all: set<(set<nat>, S)>, nodes: seq<Node<V>>,
                           k: Links, d: Dfs<S>, contents: Contents,
                           headEntry: Node<V>, entry: Node?<V>, state: S, linearized: Bitset.Bits, cache: Cache<S>,
                           calls: seq<CallsEntry<S, V>>)
    requires WellFormed(hist, n)
    requires Searching(m, hist, n, all, nodes, k, d, contents, headEntry, entry, state, linearized, cache, calls)
    ensures SearchOk(m, hist, n, all, k, d) && state == d.state && |calls| == |d.stack|
    ensures headEntry.next != null ==>
              && entry != null && 0 <= d.at < |hist| && Live(hist, d.done, d.at)
              && (entry.matching == null ==> hist[d.at].kind == ReturnEntry)
    ensures headEntry.next == null ==> |k.succ| > 0 && k.succ[0] == |hist| + 1
    ensures |Ops(d.stack)| == |calls| && forall j :: 0 <= j < |calls| ==> calls[j].entry.id == Ops(d.stack)[j] && Ops(d.stack)[j] < n
  {
    hide SearchOk, WellFormed, Mirrors, CallsOk, NodesOk, Stores, Kept, LiveNodes, Bitset.Members;
    MirrorsNext(nodes, k, 0);
    EntryLeft(m, hist, n, all, k, d);
    CallIds(hist, n, nodes, d.stack, calls);
    if headEntry.next != null {
      EntryIsCall(hist, n, nodes, d.at);
    }
  }

  lemma KeepRecord<S(!new), V>(m: Model<S, V>, hist: seq<Entry<V>>, n: nat, all: set<(set<nat>, S)>, k: Links, d: Dfs<S>,
                               before: seq<Partial>, after: seq<Partial>)
    requires WellFormed(hist, n) && SearchOk(m, hist, n, all, k, d) && PartialsOk(m, hist, n, before) && |after| == n
    requires forall i :: 0 <= i < n ==> after[i] == before[i] || (i in Ops(d.stack) && after[i] == Some(Ops(d.stack)))
    ensures PartialsOk(m, hist, n, after)
  {
    KeepPartials(m, hist, n, all, k, d);
  }

  /** Keeps the stack for its operations, where partial results are wanted, and goes back. */
  method Retreat<S(==, !new), V(!new)>(headEntry: Node<V>, linearized: Bitset.Bits, cache: Cache<S>, calls: seq<CallsEntry<S, V>>,
                                       computePartial: bool, longest: array<Partial>,
                                       ghost m: Model<S, V>, ghost hist: seq<Entry<V>>, ghost n: nat, ghost all: set<(set<nat>, S)>,
                                       ghost nodes: seq<Node<V>>, ghost k: Links, ghost d: Dfs<S>, ghost contents: Contents,
                                       ghost entry: Node?<V>)
    returns (entry': Node?<V>, state: S, calls': seq<CallsEntry<S, V>>, ghost k': Links, ghost e: Dfs<S>)
    requires WellFormed(hist, n) && longest !in Footprint(nodes, linearized, contents) && PartialsOk(m, hist, n, longest[..])
    requires Searching(m, hist, n, all, nodes, k, d, contents, headEntry, entry, d.state, linearized, cache, calls)
    requires d.at < |hist| && hist[d.at].kind == ReturnEntry && |calls| > 0
    requires |Ops(d.stack)| == |calls| && forall j :: 0 <= j < |calls| ==> calls[j].entry.id == Ops(d.stack)[j] && Ops(d.stack)[j] < n
    requires computePartial ==> RecordedOk(d, longest[..])
    modifies linearized.words, Nodes(nodes), longest
    ensures Searching(m, hist, n, all, nodes, k', e, contents, headEntry, entry', state, linearized, cache, calls')
    ensures Falls(all, |hist|, d, e) && PartialsOk(m, hist, n, longest[..])
    ensures computePartial ==> RecordedOk(e, longest[..])
    ensures |calls'| < |calls|
  {
    hide SearchOk, WellFormed, NodesOk, Mirrors, CallsOk, Stores, LiveNodes, Bitset.Members, PathKept, Falls, RecordedOk, Recorded, IsPartial;
    ghost var before := longest[..];
    if computePartial {
      Record(calls, longest, Ops(d.stack));
      RecordRecords(d, before, longest[..]);
      KeepRecord(m, hist, n, all, k, d, before, longest[..]);
    }
    ghost var after := longest[..];
    entry', state, calls', k', e := Backtrack(headEntry, linearized, cache, calls, m, hist, n, all, nodes, k, d, contents, entry);
    assert longest[..] == after;
    if computePartial {
      RecordedBack(m, hist, n, all, k, d, e, before, after);
    }
  }

  lemma WholePartials<S, V>(m: Model<S, V>, hist: seq<Entry<V>>, n: nat, order: seq<nat>, partials: seq<Partial>)
    requires WellFormed(hist, n) && |partials| == n && forall i: nat :: i < n ==> IsPartial(m, hist, n, i, order)
    requires forall i :: 0 <= i < n ==> partials[i] == Some(order)
    ensures PartialsOk(m, hist, n, partials)
  {
  }

  ghost function Footprint<V>(nodes: seq<Node<V>>, linearized: Bitset.Bits, contents: Contents): set<object> {
    Nodes(nodes) + {linearized.words} + contents.Keys
  }

  /** The list, the empty set of operations done, and the search before its first step. */
  method Begin<S(==, !new), V(!new)>(m: Model<S, V>, history: seq<Entry<V>>, ghost n: nat)
    returns (headEntry: Node<V>, entry: Node?<V>, size: nat, linearized: Bitset.Bits,
             ghost nodes: seq<Node<V>>, ghost k: Links, ghost all: set<(set<nat>, S)>)
    requires WellFormed(history, n)
    ensures size == n && fresh(Footprint(nodes, linearized, map[]))
    ensures Searching(m, history, n, all, nodes, k, Start(m, 0), map[], headEntry, entry, m.init, linearized, map[], [])
  {
    hide SearchOk, WellFormed, NodesOk, Mirrors, CallsOk, Stores, FirstLinks, Bitset.Members;
    headEntry, entry, size, nodes := MakeList(history, n);
    linearized := new Bitset.Bits(size);
    AtStart(m, history, n, nodes, linearized.words.Length);
    k := FirstLinks(|history| + 1);
    all := FinitelyMany(m, history, n);
    SearchStarts(m, history, n, all);
  }

  /** The stack of calls as the record of every operation, with no entry left. */
  method Found<S(==, !new), V(!new)>(ghost m: Model<S, V>, ghost history: seq<Entry<V>>, ghost n: nat, size: nat, calls: seq<CallsEntry<S, V>>,
                                     ghost all: set<(set<nat>, S)>, ghost k: Links, ghost d: Dfs<S>)
    returns (partials: seq<Partial>)
    requires WellFormed(history, n) && SearchOk(m, history, n, all, k, d) && |k.succ| > 0 && k.succ[0] == |history| + 1 && size == n
    requires |Ops(d.stack)| == |calls| && forall j :: 0 <= j < |calls| ==> calls[j].entry.id == Ops(d.stack)[j]
    ensures Linearizable(m, history, n) && |calls| == n
    ensures PartialsOk(m, history, n, partials) && Longest(m, history, n, partials)
    ensures forall i :: 0 <= i < n ==> partials[i].Some? && IsLinearization(m, history, n, partials[i].order)
  {
    AtSuccess(m, history, n, all, k, d);
    var order := IdsOf(calls, Ops(d.stack));
    partials := seq(size, _ => Some(order));
    WholePartials(m, history, n, order, partials);
    WholeLongest(m, history, n, order, partials);
  }

  /** The search.  `kill(t)` is what the t-th look at the kill flag sees. */
  method CheckSingle<S(==, !new), V(!new)>(m: Model<S, V>, history: seq<Entry<V>>, computePartial: bool, kill: nat -> bool, ghost n: nat)
    returns (ok: bool, partials: seq<Partial>)
    requires WellFormed(history, n)
    ensures ok ==> Linearizable(m, history, n)
    ensures (forall t :: !kill(t)) ==> (ok <==> Linearizable(m, history, n))
    ensures (exists t: nat :: t < n && kill(t)) ==> !ok
    ensures PartialsOk(m, history, n, partials)
    ensures ok ==> forall i :: 0 <= i < n ==> partials[i].Some? && IsLinearization(m, history, n, partials[i].order)
    ensures computePartial && (forall t :: !kill(t)) ==> Longest(m, history, n, partials)
  {
    hide SearchOk, WellFormed, Searching, IsPartial, IsLinearization, Linearizable, PathKept, GivenUp, Longest;
    var headEntry, entry, size, linearized, nodes, k, all := Begin(m, history, n);
    var cache: Cache<S> := map[];
    var calls: seq<CallsEntry<S, V>> := [];
    var longest := new Partial[size](_ => None);
    var state := m.init;
    ghost var d := Start(m, 0);
    ghost var contents: Contents := map[];
    var polls := 0;
    assert PartialsOk(m, history, n, longest[..]);
    NothingEntered(m, longest[..]);
    hide PartialsOk, RecordedOk;
    while headEntry.next != null
      invariant Searching(m, history, n, all, nodes, k, d, contents, headEntry, entry, state, linearized, cache, calls)
      invariant PartialsOk(m, history, n, longest[..]) && (computePartial ==> RecordedOk(d, longest[..]))
      invariant fresh(longest) && longest.Length == n
      invariant |calls| <= polls && forall t: nat :: t < polls ==> !kill(t)
      invariant fresh(Footprint(nodes, linearized, contents)) && longest !in Footprint(nodes, linearized, contents)
      decreases all - d.memo, |d.stack|, |history| - d.at
    {
      AtLoop(m, history, n, all, nodes, k, d, contents, headEntry, entry, state, linearized, cache, calls);
      if kill(polls) {
        return false, longest[..];
      }
      polls := polls + 1;
      if entry.matching != null {
        ghost var before, records := d, longest[..];
        entry, state, cache, calls, k, d, contents := TryCall(m, headEntry, entry, state, linearized, cache, calls,
                                                              history, n, all, nodes, k, d, contents);
        assert longest[..] == records;
        if computePartial {
          RecordedOn(before, d, records);
        }
      } else {
        if |calls| == 0 {
          AtFailure(m, history, n, all, k, d);
          if computePartial {
            GivenUpLongest(m, history, n, d, longest[..]);
          }
          return false, longest[..];
        }
        entry, state, calls, k, d := Retreat(headEntry, linearized, cache, calls, computePartial, longest,
                                             m, history, n, all, nodes, k, d, contents, entry);
      }
    }
    AtLoop(m, history, n, all, nodes, k, d, contents, headEntry, entry, state, linearized, cache, calls);
    partials := Found(m, history, n, size, calls, all, k, d);
    return true, partials;
  }
}
