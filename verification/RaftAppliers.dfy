/** The appliers of one peer: each takes the next committed entry under the lock and sends it
    after unlocking, so an entry can be on its way while the next one is taken. */
module RaftAppliers {
  import opened Commands
  import opened RaftPeer

  datatype Hand = Free | Holding(d: Delivery)

  /** hands: what each applier has taken and not sent.
      sent: what the service has received and not applied, in the order received. */
  datatype Appliers = Appliers(hands: seq<Hand>, sent: seq<Delivery>)

  function Resting(k: nat): Appliers { Appliers(seq(k, _ => Free), []) }

  predicate CanTake(x: Appliers, a: nat, p: Peer) { a < |x.hands| && x.hands[a].Free? && CanApply(p) }

  /** Under the lock: applier a takes the next entry. */
  function Take(x: Appliers, a: nat, p: Peer): (Peer, Appliers)
    requires CanTake(x, a, p)
  {
    var (q, command) := Apply(p);
    (q, x.(hands := x.hands[a := Holding(Delivery(q.lastApplied, command))]))
  }

  predicate CanSend(x: Appliers, a: nat) { a < |x.hands| && x.hands[a].Holding? }

  /** Without the lock: applier a sends what it holds. */
  function Send(x: Appliers, a: nat): Appliers
    requires CanSend(x, a)
  {
    x.(hands := x.hands[a := Free], sent := x.sent + [x.hands[a].d])
  }

  // ---------------------------------------------------------------- one applier

  /** With one applier: all that has been taken and not applied, oldest first. */
  function InFlight(x: Appliers): (r: seq<Delivery>)
    requires |x.hands| <= 1
    ensures x.sent <= r
  {
    x.sent + if |x.hands| == 1 && x.hands[0].Holding? then [x.hands[0].d] else []
  }

  lemma TakeFlies(x: Appliers, a: nat, p: Peer)
    requires |x.hands| <= 1 && CanTake(x, a, p)
    ensures var (q, y) := Take(x, a, p);
            && |y.hands| == |x.hands| && q == Apply(p).0
            && InFlight(y) == InFlight(x) + [Delivery(q.lastApplied, Apply(p).1)]
  {
  }

  lemma SendFlies(x: Appliers, a: nat)
    requires |x.hands| <= 1 && CanSend(x, a)
    ensures |Send(x, a).hands| == |x.hands| && InFlight(Send(x, a)) == InFlight(x)
  {
  }

  // ---------------------------------------------------------------- schedules

  /** Change: whatever else happens to the peer, short of a restart. */
  datatype Act = Change(q: Peer) | TakeNext(a: nat) | SendHeld(a: nat)

  predicate Enabled(p: Peer, x: Appliers, act: Act) {
    match act
    case Change(q) => q.lastApplied == p.lastApplied
    case TakeNext(a) => CanTake(x, a, p)
    case SendHeld(a) => CanSend(x, a)
  }

  function Do(p: Peer, x: Appliers, act: Act): (Peer, Appliers)
    requires Enabled(p, x, act)
  {
    match act
    case Change(q) => (q, x)
    case TakeNext(a) => Take(x, a, p)
    case SendHeld(a) => (p, Send(x, a))
  }

  predicate Legal(p: Peer, x: Appliers, acts: seq<Act>)
    decreases |acts|
  {
    |acts| > 0 ==> Enabled(p, x, acts[0]) && var (q, y) := Do(p, x, acts[0]); Legal(q, y, acts[1..])
  }

  function After(p: Peer, x: Appliers, acts: seq<Act>): (Peer, Appliers)
    requires Legal(p, x, acts)
    decreases |acts|
  {
    if |acts| == 0 then (p, x) else var (q, y) := Do(p, x, acts[0]); After(q, y, acts[1..])
  }

  predicate InOrder(ds: seq<Delivery>) {
    forall j :: 0 <= j < |ds| ==> ds[j].index == j + 1
  }

  /** With one applier, everything up to the last index taken is in order. */
  ghost predicate Single(p: Peer, x: Appliers) {
    |x.hands| <= 1 && InOrder(InFlight(x)) && |InFlight(x)| == p.lastApplied
  }

  lemma {:induction false} SingleStays(p: Peer, x: Appliers, acts: seq<Act>)
    requires Single(p, x) && Legal(p, x, acts)
    ensures var (q, y) := After(p, x, acts); Single(q, y) && InOrder(y.sent)
    decreases |acts|
  {
    if |acts| > 0 {
      var (q, y) := Do(p, x, acts[0]);
      match acts[0] {
        case Change(_) =>
        case TakeNext(a) => TakeFlies(x, a, p);
        case SendHeld(a) => SendFlies(x, a);
      }
      SingleStays(q, y, acts[1..]);
    }
  }

  /** Two appliers, both holding an entry: the later one may be sent first. */
  lemma Overtaken(p: Peer, k: nat) returns (acts: seq<Act>)
    requires k >= 2 && p.lastApplied == 0
    ensures Legal(p, Resting(k), acts)
    ensures var y := After(p, Resting(k), acts).1; |y.sent| == 1 && y.sent[0].index == 2
  {
    var x0 := Resting(k);
    acts := [Change(p.(commitIndex := 2)), TakeNext(0), TakeNext(1), SendHeld(1)];
    var (p1, x1) := Do(p, x0, acts[0]);
    var (p2, x2) := Do(p1, x1, acts[1]);
    var (p3, x3) := Do(p2, x2, acts[2]);
    var (p4, x4) := Do(p3, x3, acts[3]);
    assert acts[3..][1..] == [] && Legal(p4, x4, []) && After(p4, x4, []) == (p4, x4);
    assert acts[2..][1..] == acts[3..] && Legal(p3, x3, acts[3..]) && After(p3, x3, acts[3..]) == (p4, x4);
    assert acts[1..][1..] == acts[2..] && Legal(p2, x2, acts[2..]) && After(p2, x2, acts[2..]) == (p4, x4);
    assert Legal(p1, x1, acts[1..]) && After(p1, x1, acts[1..]) == (p4, x4);
  }

  /** Entries reach the service in order, whatever happens, exactly when no second applier
      runs beside the first. */
  lemma InOrderExactly(p: Peer, k: nat)
    requires p.lastApplied == 0
    ensures (forall acts :: Legal(p, Resting(k), acts) ==> InOrder(After(p, Resting(k), acts).1.sent)) <==> k <= 1
  {
    if k <= 1 {
      forall acts | Legal(p, Resting(k), acts) ensures InOrder(After(p, Resting(k), acts).1.sent) {
        SingleStays(p, Resting(k), acts);
      }
    } else {
      var acts := Overtaken(p, k);
      var y := After(p, Resting(k), acts).1;
      assert !InOrder(y.sent);
    }
  }
}
