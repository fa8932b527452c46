/** What callers of the service can see over an unsafe cluster: two peers commit different
    entries, two servers execute them, and two reads return what no one order explains. */
module KvUnsafe {
  import opened Commands
  import opened KvState
  import opened KvService
  import RaftPeer
  import RaftCluster
  import RaftAppliers
  import RaftRuns

  // ---------------------------------------------------------------- the operations

  const KEY := "x"

  /** What server s appends. */
  function Mark(s: nat): string { if s == 0 then "1" else "2" }

  const FILLER := Op("Get", "y", "", 0, 1)

  function Write(s: nat): Op { Op("Append", KEY, Mark(s), 1 + s, 1) }

  function Read(s: nat): Op { Op("Get", KEY, "", 3 + s, 1) }

  /** One operation of each of five clerks, which are numbered like their operations. */
  const OPS := [FILLER, Write(0), Write(1), Read(0), Read(1)]

  const CLIENTS: set<int> := {0, 1, 2, 3, 4}

  const CMDS: set<Command> := {Kv(FILLER), Kv(Write(0)), Kv(Write(1)), Kv(Read(0)), Kv(Read(1))}

  /** What the two servers execute after the entries that they have in common. */
  function Own(s: nat): seq<Command> { [Kv(Write(s)), Kv(Read(s))] }

  // ---------------------------------------------------------------- runs of the service

  function Now(r: ServiceRun): RaftCluster.Cluster
    requires |r.raft.states| > 0
  {
    RaftRuns.Last(r.raft)
  }

  function View(r: ServiceRun): Service
    requires |r.services| > 0
  {
    r.services[|r.services| - 1]
  }

  ghost predicate Runs(rules: RaftPeer.Rules, n: nat, k: nat, r: ServiceRun) { IsServiceRun(rules, n, k, CLIENTS, r) }

  lemma Extend(rules: RaftPeer.Rules, n: nat, k: nat, r: ServiceRun, step: Step) returns (r': ServiceRun)
    requires Runs(rules, n, k, r) && Enabled(Now(r), View(r), step)
    ensures Runs(rules, n, k, r')
    ensures Now(r') == RaftCluster.Do(rules, Now(r), RaftStep(step)) && View(r') == Do(Now(r), View(r), step, |r.steps|)
    ensures |r'.steps| == |r.steps| + 1
  {
    hide Do, Enabled;
    var raft := RaftRuns.Advance(rules, n, r.raft, RaftStep(step)) by {
      EnabledBelow(Now(r), View(r), step);
    }
    r' := ServiceRun(raft, r.services + [Next(r, step)], r.steps + [step]);
    forall i | 0 <= i < |r'.steps| ensures IsServiceStep(r', i) {
      if i < |r.steps| {
        assert IsServiceStep(r, i);
      }
    }
  }

  ghost function Next(r: ServiceRun, step: Step): Service
    requires |r.raft.states| > 0 && |r.services| > 0 && Enabled(Now(r), View(r), step)
  {
    Do(Now(r), View(r), step, |r.steps|)
  }

  lemma EnabledBelow(c: RaftCluster.Cluster, v: Service, step: Step)
    requires Enabled(c, v, step)
    ensures RaftCluster.Enabled(c, RaftStep(step))
  {
  }

  // ---------------------------------------------------------------- all operations are called

  /** Clerk i waits for its operation. */
  ghost predicate Waits(v: Service, i: nat) {
    && i in v.clerks && v.clerks[i] == Clerk(1, true, i) && i < |v.records| && i < |OPS|
    && v.records[i].op == OPS[i] && !v.records[i].done && OPS[i] in v.requests
  }

  /** The first `count` clerks wait, and nothing else has happened. */
  ghost predicate Called(v: Service, n: nat, k: nat, count: nat) {
    && |v.records| == count && |v.servers| == n
    && (forall s :: 0 <= s < n ==> v.servers[s] == NewServer(k))
    && (forall i: nat {:trigger Waits(v, i)} :: i < count ==> Waits(v, i))
    && (forall i: int :: count <= i < |OPS| ==> i in v.clerks && v.clerks[i] == Clerk(0, false, 0))
  }

  lemma {:induction false} CallsMade(rules: RaftPeer.Rules, n: nat, k: nat, count: nat) returns (r: ServiceRun)
    requires count <= |OPS|
    ensures Runs(rules, n, k, r) && Now(r) == RaftCluster.Init(n) && Called(View(r), n, k, count)
  {
    hide NewServer;
    if count == 0 {
      r := ServiceRun(RaftCluster.Run([RaftCluster.Init(n)], []), [Start(n, k, CLIENTS)], []);
    } else {
      var before := CallsMade(rules, n, k, count - 1);
      var v, op := View(before), OPS[count - 1];
      assert op.clientId == count - 1 && op.seqNum == 1 && ClerkOp(op);
      r := Extend(rules, n, k, before, Call(op));
      forall i: nat | i < count ensures Waits(View(r), i) {
        if i < count - 1 {
          assert Waits(v, i);
        }
      }
    }
  }

  // ---------------------------------------------------------------- the cluster does its part

  function ServiceStep(step: RaftCluster.Step): Step {
    if step.Submit? && step.command.Kv? then Propose(step.s, step.command.op) else Raft(step)
  }

  lemma StepLifts(c: RaftCluster.Cluster, v: Service, step: RaftCluster.Step, n: nat, k: nat, now: nat)
    requires RaftRuns.Plain(step, CMDS) && RaftCluster.Enabled(c, step) && Called(v, n, k, |OPS|)
    ensures RaftStep(ServiceStep(step)) == step && Enabled(c, v, ServiceStep(step))
    ensures Called(Do(c, v, ServiceStep(step), now), n, k, |OPS|)
  {
    if step.Submit? {
      assert Waits(v, 0) && Waits(v, 1) && Waits(v, 2) && Waits(v, 3) && Waits(v, 4);
      assert step.command.op in OPS;
    }
    var w := Do(c, v, ServiceStep(step), now);
    forall i: nat | i < |OPS| ensures Waits(w, i) {
      assert Waits(v, i);
    }
  }

  /** Every plain run of a cluster is a run of the cluster under some run of the service. */
  lemma {:induction false} Lifts(rules: RaftPeer.Rules, n: nat, k: nat, run: RaftCluster.Run, i: nat) returns (r: ServiceRun)
    requires RaftRuns.PlainRun(rules, n, CMDS, run) && i <= |run.steps|
    ensures Runs(rules, n, k, r) && Now(r) == run.states[i] && Called(View(r), n, k, |OPS|)
  {
    if i == 0 {
      r := CallsMade(rules, n, k, |OPS|);
    } else {
      var before := Lifts(rules, n, k, run, i - 1);
      var step := run.steps[i - 1];
      assert RaftCluster.IsStep(rules, run, i - 1);
      hide Called, Do, RaftCluster.Do, Enabled, RaftCluster.Enabled;
      StepLifts(Now(before), View(before), step, n, k, |before.steps|);
      r := Extend(rules, n, k, before, ServiceStep(step));
    }
  }

  // ---------------------------------------------------------------- the servers execute

  /** From v to w only server s has changed, as far as callers go. */
  ghost predicate OnlyServer(v: Service, w: Service, s: nat) {
    && w.clerks == v.clerks && w.records == v.records && w.requests == v.requests && |w.servers| == |v.servers|
    && forall t :: 0 <= t < |v.servers| && t != s ==> w.servers[t] == v.servers[t]
  }

  /** Server s with these tables; its k appliers hold nothing. */
  function Idle(kv: Replica, k: nat): Server { Server(kv, RaftAppliers.Resting(k)) }

  /** Peer s has these commands committed, and `done` of them taken by its appliers. */
  ghost predicate Took(p: RaftPeer.Peer, list: seq<Command>, done: nat) {
    p.lastApplied == done && RaftRuns.HasCommitted(p.(lastApplied := 0), list)
  }

  /** The next entry goes through applier 0 to the tables. */
  lemma ExecutesNext(rules: RaftPeer.Rules, n: nat, k: nat, r: ServiceRun, s: nat, list: seq<Command>, kv: Replica) returns (r': ServiceRun)
    requires Runs(rules, n, k, r) && s < |Now(r).peers| && s < |View(r).servers| && k >= 1 && View(r).servers[s] == Idle(kv, k)
    requires var p := Now(r).peers[s]; Took(p, list, p.lastApplied) && p.lastApplied < |list|
    ensures Runs(rules, n, k, r') && OnlyServer(View(r), View(r'), s)
    ensures var done := Now(r).peers[s].lastApplied;
            && Now(r').peers == Now(r).peers[s := Now(r).peers[s].(lastApplied := done + 1)]
            && View(r').servers[s] == Idle(ApplyCommand(kv, done + 1, list[done]).0, k)
  {
    hide ApplyCommand;
    var p := Now(r).peers[s];
    var d := Delivery(p.lastApplied + 1, list[p.lastApplied]);
    assert p.log[p.lastApplied + 1].command == list[p.lastApplied];
    var r1 := Extend(rules, n, k, r, Take(s, 0));
    assert View(r1).servers[s].appliers.hands[0] == RaftAppliers.Holding(d);
    var r2 := Extend(rules, n, k, r1, Send(s, 0));
    assert View(r2).servers[s].appliers == RaftAppliers.Resting(k).(sent := [d]);
    r' := Extend(rules, n, k, r2, Apply(s));
  }

  /** Server s executes the first `count` of its commands. */
  lemma {:induction false} Executes(rules: RaftPeer.Rules, n: nat, k: nat, r: ServiceRun, s: nat, list: seq<Command>, count: nat) returns (r': ServiceRun)
    requires Runs(rules, n, k, r) && s < |Now(r).peers| && s < |View(r).servers| && count <= |list| && k >= 1
    requires Took(Now(r).peers[s], list, 0) && View(r).servers[s] == NewServer(k)
    ensures Runs(rules, n, k, r') && OnlyServer(View(r), View(r'), s)
    ensures Now(r').peers == Now(r).peers[s := Now(r).peers[s].(lastApplied := count)]
    ensures View(r').servers[s] == Idle(Replay([Nil] + list, count), k)
  {
    hide ApplyCommand;
    r' := r;
    if count > 0 {
      var before := Executes(rules, n, k, r, s, list, count - 1);
      r' := ExecutesNext(rules, n, k, before, s, list, Replay([Nil] + list, count - 1));
      assert ([Nil] + list)[count] == list[count - 1];
    }
  }

  /** Nothing but the filler has been executed. */
  ghost predicate OnlyFiller(kv: Replica) {
    kv.store == map[] && kv.lastSeq.Keys <= {0} && kv.lastResult.Keys <= {0}
  }

  lemma {:induction false} FillerReplayed(cmds: seq<Command>, k: nat)
    requires k < |cmds| && forall i :: 1 <= i <= k ==> cmds[i] == Kv(FILLER)
    ensures OnlyFiller(Replay(cmds, k))
  {
    if k > 0 {
      FillerReplayed(cmds, k - 1);
    }
  }

  /** Having executed its own commands after the filler, server s remembers its read. */
  lemma ReadRemembered(cmds: seq<Command>, m: nat, s: nat)
    requires |cmds| == m + 3 && (forall i :: 1 <= i <= m ==> cmds[i] == Kv(FILLER)) && cmds[m + 1..] == Own(s) && s < 2
    ensures var kv := Replay(cmds, m + 2);
            IsDuplicate(kv, Read(s)) && CachedResult(kv, Read(s).clientId) == Mark(s)
  {
    FillerReplayed(cmds, m);
    assert cmds[m + 1] == cmds[m + 1..][0] && cmds[m + 2] == cmds[m + 1..][1];
    var kv0, kv1 := Replay(cmds, m), Replay(cmds, m + 1);
    ReplayIndex(cmds, m);
    ReplayIndex(cmds, m + 1);
    assert kv1 == ApplyCommand(kv0, m + 1, Kv(Write(s))).0;
    assert 1 + s !in kv0.lastSeq && "" + Mark(s) == Mark(s);
    assert kv1.store == map[KEY := Mark(s)];
    assert 3 + s !in kv1.lastSeq;
    assert Replay(cmds, m + 2) == ApplyCommand(kv1, m + 2, Kv(Read(s))).0;
  }

  // ---------------------------------------------------------------- the reads return

  /** The read of server s, asked for once more, is answered from the tables and returns. */
  lemma ReadReturns(rules: RaftPeer.Rules, n: nat, k: nat, r: ServiceRun, s: nat, value: string) returns (r': ServiceRun)
    requires Runs(rules, n, k, r) && s < 2 && s < |View(r).servers| && Waits(View(r), 3 + s)
    requires IsDuplicate(View(r).servers[s].kv, Read(s)) && CachedResult(View(r).servers[s].kv, 3 + s) == value
    ensures Runs(rules, n, k, r') && View(r').servers == View(r).servers
    ensures |View(r').records| == |View(r).records|
    ensures forall i :: 0 <= i < |View(r).records| && i != 3 + s ==> View(r').records[i] == View(r).records[i]
    ensures View(r').records[3 + s].op == Read(s) && View(r').records[3 + s].done && View(r').records[3 + s].output == value
    ensures forall i: nat :: i != 3 + s && Waits(View(r), i) ==> Waits(View(r'), i)
  {
    hide IsDuplicate, CachedResult;
    assert OPS[3 + s] == Read(s);
    var reply := Reply(Read(s), OK, value);
    var r1 := Extend(rules, n, k, r, AnswerDuplicate(s, Read(s)));
    assert reply in View(r1).replies;
    r' := Extend(rules, n, k, r1, Return(reply));
  }

  /** A value that begins with what server s appends. */
  predicate Begins(value: string, s: nat) { |value| > 0 && value[0] == Mark(s)[0] }

  /** Both reads have returned, with values that begin differently. */
  ghost predicate SeenApart(records: seq<Record>) {
    && |records| == |OPS| && (forall i :: 0 <= i < |OPS| ==> records[i].op == OPS[i])
    && forall s: nat {:trigger Mark(s)} :: s < 2 ==> records[3 + s].done && Begins(records[3 + s].output, s)
  }

  /** Server s has executed its read, and the value it remembers begins with its own mark. */
  ghost predicate Remembers(kv: Replica, s: nat) {
    IsDuplicate(kv, Read(s)) && Begins(CachedResult(kv, 3 + s), s)
  }

  /** Once two servers remember reads that begin differently, callers can see it. */
  lemma BothReturn(rules: RaftPeer.Rules, n: nat, k: nat, r: ServiceRun, v: Service) returns (r': ServiceRun)
    requires Runs(rules, n, k, r) && Called(v, n, k, |OPS|) && |View(r).servers| == n >= 2
    requires View(r).clerks == v.clerks && View(r).records == v.records && View(r).requests == v.requests
    requires Remembers(View(r).servers[0].kv, 0) && Remembers(View(r).servers[1].kv, 1)
    ensures Runs(rules, n, k, r') && SeenApart(View(r').records)
  {
    hide IsDuplicate, CachedResult, Waits;
    WaitsOn(v, View(r));
    assert Waits(v, 3) && Waits(v, 4);
    r' := ReadReturns(rules, n, k, r, 0, CachedResult(View(r).servers[0].kv, 3));
    r' := ReadReturns(rules, n, k, r', 1, CachedResult(View(r).servers[1].kv, 4));
    forall i: nat | i < |OPS| ensures v.records[i].op == OPS[i] {
      WaitsOp(v, i);
    }
  }

  /** Where two peers can commit different entries, callers can see it. */
  lemma ReadsApart(rules: RaftPeer.Rules, n: nat, k: nat, run: RaftCluster.Run, common: seq<Command>) returns (r: ServiceRun)
    requires RaftRuns.PlainRun(rules, n, CMDS, run) && |RaftRuns.Last(run).peers| == n >= 2 && k >= 1
    requires RaftRuns.Diverged(RaftRuns.Last(run), common + Own(0), common + Own(1))
    requires forall i :: 0 <= i < |common| ==> common[i] == Kv(FILLER)
    ensures Runs(rules, n, k, r) && SeenApart(View(r).records)
  {
    hide Replay, IsDuplicate, CachedResult, Waits;
    r := Lifts(rules, n, k, run, |run.steps|);
    var v := View(r);
    r := Executes(rules, n, k, r, 0, common + Own(0), |common| + 2);
    r := Executes(rules, n, k, r, 1, common + Own(1), |common| + 2);
    ReadRemembered([Nil] + (common + Own(0)), |common|, 0);
    ReadRemembered([Nil] + (common + Own(1)), |common|, 1);
    r := BothReturn(rules, n, k, r, v);
  }

  lemma WaitsOn(v: Service, w: Service)
    requires w.clerks == v.clerks && w.records == v.records && w.requests == v.requests
    ensures forall i: nat :: Waits(v, i) ==> Waits(w, i)
  {
  }

  lemma WaitsOp(v: Service, i: nat)
    requires Waits(v, i)
    ensures i < |v.records| && i < |OPS| && v.records[i].op == OPS[i]
  {
  }
}
