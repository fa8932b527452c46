/** What callers of the service can see when a server has several appliers: it may execute two
    entries in the wrong order, and drop the earlier one, while another server executes both. */
module KvReordered {
  import opened Commands
  import opened KvState
  import opened KvService
  import opened KvUnsafe
  import RaftPeer
  import RaftCluster
  import RaftAppliers
  import RaftRuns
  import RaftInStep

  /** What all peers commit. */
  const LIST: seq<Command> := [Kv(Write(0)), Kv(Write(1)), Kv(Read(0)), Kv(Read(1))]

  // ---------------------------------------------------------------- in order

  /** The first server executes both writes. */
  lemma InOrderRemembered()
    ensures Remembers(Replay([Nil] + LIST, 4), 0)
  {
    var cmds := [Nil] + LIST;
    assert cmds[1] == LIST[0] && cmds[2] == LIST[1] && cmds[3] == LIST[2] && cmds[4] == LIST[3];
    assert Replay(cmds, 0) == EMPTY;
    var kv1, kv2, kv3, kv4 := Replay(cmds, 1), Replay(cmds, 2), Replay(cmds, 3), Replay(cmds, 4);
    assert kv1 == ApplyCommand(EMPTY, 1, Kv(Write(0))).0;
    assert "" + "1" == "1" && kv1.store == map[KEY := "1"] && kv1.lastSeq == map[1 := 1] && kv1.index == 1;
    assert kv2 == ApplyCommand(kv1, 2, Kv(Write(1))).0;
    assert "1" + "2" == "12" && kv2.store == map[KEY := "12"] && kv2.lastSeq == map[1 := 1, 2 := 1] && kv2.index == 2;
    assert kv3 == ApplyCommand(kv2, 3, Kv(Read(0))).0;
    assert kv3.lastResult == map[3 := "12"] && kv3.lastSeq == map[1 := 1, 2 := 1, 3 := 1] && kv3.index == 3;
    assert kv4 == ApplyCommand(kv3, 4, Kv(Read(1))).0;
  }

  // ---------------------------------------------------------------- out of order

  /** The second entry alone, with the first one too late. */
  function Swapped(): Replica { ApplyCommand(ApplyCommand(EMPTY, 2, LIST[1]).0, 1, LIST[0]).0 }

  function AfterReads(): Replica { ApplyCommand(ApplyCommand(Swapped(), 3, LIST[2]).0, 4, LIST[3]).0 }

  lemma SwappedRemembered()
    ensures Remembers(AfterReads(), 1)
  {
    var kv2 := Swapped();
    assert "" + "2" == "2" && kv2 == ApplyCommand(EMPTY, 2, Kv(Write(1))).0;
    assert kv2.store == map[KEY := "2"] && kv2.lastSeq == map[2 := 1] && kv2.index == 2;
    var kv3 := ApplyCommand(kv2, 3, Kv(Read(0))).0;
    assert kv3.store == map[KEY := "2"] && kv3.lastSeq == map[2 := 1, 3 := 1] && kv3.index == 3;
    assert AfterReads() == ApplyCommand(kv3, 4, Kv(Read(1))).0;
  }

  /** Two appliers take the first two entries, and the second is sent first. */
  lemma BothTaken(rules: RaftPeer.Rules, n: nat, k: nat, r: ServiceRun, s: nat) returns (r': ServiceRun)
    requires Runs(rules, n, k, r) && s < |Now(r).peers| && s < |View(r).servers| && k >= 2
    requires Took(Now(r).peers[s], LIST, 0) && View(r).servers[s] == NewServer(k)
    ensures Runs(rules, n, k, r') && OnlyServer(View(r), View(r'), s)
    ensures Now(r').peers == Now(r).peers[s := Now(r).peers[s].(lastApplied := 2)]
    ensures View(r').servers[s] == Server(EMPTY, RaftAppliers.Resting(k).(sent := [Delivery(2, LIST[1]), Delivery(1, LIST[0])]))
  {
    hide ApplyCommand;
    var p := Now(r).peers[s];
    assert p.log[1].command == LIST[0] && p.log[2].command == LIST[1];
    var r1 := Extend(rules, n, k, r, Take(s, 0));
    assert View(r1).servers[s].appliers.hands[0] == RaftAppliers.Holding(Delivery(1, LIST[0]));
    var r2 := Extend(rules, n, k, r1, Take(s, 1));
    assert View(r2).servers[s].appliers.hands[1] == RaftAppliers.Holding(Delivery(2, LIST[1]));
    assert View(r2).servers[s].appliers.hands[0] == RaftAppliers.Holding(Delivery(1, LIST[0]));
    var r3 := Extend(rules, n, k, r2, Send(s, 1));
    r' := Extend(rules, n, k, r3, Send(s, 0));
    assert View(r').servers[s].appliers.hands == RaftAppliers.Resting(k).hands;
  }

  lemma ExecutesSwapped(rules: RaftPeer.Rules, n: nat, k: nat, r: ServiceRun, s: nat) returns (r': ServiceRun)
    requires Runs(rules, n, k, r) && s < |Now(r).peers| && s < |View(r).servers| && k >= 2
    requires Took(Now(r).peers[s], LIST, 0) && View(r).servers[s] == NewServer(k)
    ensures Runs(rules, n, k, r') && OnlyServer(View(r), View(r'), s)
    ensures View(r').servers[s] == Idle(AfterReads(), k)
  {
    hide ApplyCommand;
    var r1 := BothTaken(rules, n, k, r, s);
    var r2 := Extend(rules, n, k, r1, Apply(s));
    var r3 := Extend(rules, n, k, r2, Apply(s));
    assert View(r3).servers[s] == Idle(Swapped(), k);
    var r4 := ExecutesNext(rules, n, k, r3, s, LIST, Swapped());
    r' := ExecutesNext(rules, n, k, r4, s, LIST, ApplyCommand(Swapped(), 3, LIST[2]).0);
  }

  /** Where a server has a second applier, callers can see two reads that begin differently,
      though nothing went wrong in the cluster. */
  lemma ReadsReordered(rules: RaftPeer.Rules, n: nat, k: nat) returns (r: ServiceRun)
    requires n >= 2 && k >= 2
    ensures Runs(rules, n, k, r) && SeenApart(View(r).records)
  {
    hide Waits, IsDuplicate, CachedResult, Replay;
    var run := RaftInStep.CommitsTwice(rules, n, CMDS, LIST[0], LIST[1..]);
    assert [LIST[0]] + LIST[1..] == LIST;
    r := Lifts(rules, n, k, run, |run.steps|);
    var v := View(r);
    assert RaftRuns.HasCommitted(Now(r).peers[0], LIST) && RaftRuns.HasCommitted(Now(r).peers[1], LIST);
    r := Executes(rules, n, k, r, 0, LIST, 4);
    r := ExecutesSwapped(rules, n, k, r, 1);
    InOrderRemembered();
    SwappedRemembered();
    r := BothReturn(rules, n, k, r, v);
  }
}
