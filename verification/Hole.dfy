/** Why entry uniqueness needs compaction to stay at or above the retained base: a run of a single server
    that compacts below its base once. After a restart its log has a hole, a later compaction makes the
    log end earlier than before, and the same leader fills the same index twice. */
module Hole {
  import opened Types
  import opened LogSpec
  import opened Kernel
  import opened DiskSpec
  import opened Cluster
  import opened Theorems
  import Mirror

  const ONE := Conf({1}, map[1 := []], 2, 1)

  ghost predicate Stands(run: seq<Step>, n: Node, d: Disk) {
    var c := State(ONE, Any, run);
    c.nodes == map[1 := n] && c.disks == map[1 := d]
  }

  ghost predicate Turn(n: Node, d: Disk, ev: Event, n': Node, d': Disk) {
    && !ev.Recv?
    && Handle(n, ev, 2).n == n' && Mirror.WriteAll(d, Handle(n, ev, 2).acts) == d'
  }

  lemma Fire(run: seq<Step>, n: Node, d: Disk, ev: Event, n': Node, d': Disk) returns (r: seq<Step>)
    requires Stands(run, n, d) && Turn(n, d, ev, n', d')
    ensures Stands(r, n', d')
  {
    r := run + [Call(1, ev, 2)];
    var c := State(ONE, Any, run);
    assert r[..|r| - 1] == run;
    Called(c, ev);
    assert c.nodes[1] == n && c.disks[1] == d;
    Single(c.nodes, n, n');
    Single(c.disks, d, d');
  }

  lemma Single<T>(m: map<NodeId, T>, x: T, y: T)
    requires m == map[1 := x]
    ensures m[1 := y] == map[1 := y]
  {}

  lemma Called(c: Net, ev: Event)
    requires 1 in c.nodes && 1 in c.disks && !ev.Recv?
    ensures Allowed(ONE, Any, c, Call(1, ev, 2))
    ensures var v, o := Next(ONE, c, Call(1, ev, 2)), Handle(c.nodes[1], ev, 2);
            v.nodes == c.nodes[1 := o.n] && v.disks == c.disks[1 := Mirror.WriteAll(c.disks[1], o.acts)]
  {
    Mirror.ActAllWrites(c, 1, 0, Handle(c.nodes[1], ev, 2).acts);
  }

  lemma Restart(run: seq<Step>, n: Node, d: Disk) returns (r: seq<Step>)
    requires Stands(run, n, d)
    ensures Stands(r, Boot(ONE, 1, d, 2), d)
  {
    var s := run + [Crash(1)];
    r := s + [Spawn(1, 2)];
    assert s[..|s| - 1] == run && r[..|r| - 1] == s;
  }

  lemma Start() returns (run: seq<Step>)
    ensures Stands(run, L0, BLANK)
  {
    run := [Spawn(1, 2)];
    assert run[..0] == [];
    assert Initial(ONE).disks == map[1 := BLANK];
    assert BLANK.log[1..] == [];
    assert Boot(ONE, 1, BLANK, 2) == L0;
  }

  // ---- a lone server -----------------------------------------------------------------------

  lemma Writes(d: Disk, acts: seq<Action>)
    ensures |acts| == 1 ==> Mirror.WriteAll(d, acts) == Perform(d, acts[0])
    ensures |acts| == 2 ==> Mirror.WriteAll(d, acts) == Perform(Perform(d, acts[0]), acts[1])
  {
    if |acts| == 1 { assert Mirror.WriteAll(Perform(d, acts[0]), []) == Perform(d, acts[0]); }
    if |acts| == 2 {
      assert acts[1..][1..] == [];
      assert Mirror.WriteAll(Perform(d, acts[0]), acts[1..]) == Perform(Perform(d, acts[0]), acts[1]);
    }
  }

  lemma Quiet(n: Node, d: Disk)
    requires n.role == Follower && n.elapsed == 0 && n.timeout == 2
    ensures Turn(n, d, Timer, n.(elapsed := 1), d)
  {}

  /** It elects itself at its second tick. */
  lemma Crowned(n: Node, d: Disk, n': Node, d': Disk, e: Entry)
    requires n.id == 1 && n.role == Follower && n.elapsed == 1 && n.timeout == 2 && n.peers == []
    requires e == Entry(LastIndex(n.log) + 1, n.term + 1, [])
    requires n' == n.(term := n.term + 1, role := Leader, voted := Some(1), leader := Some(1), votes := {1},
                      preVotes := {1},
                      elapsed := 0, heartbeatElapsed := 0, next := map[], matched := map[], log := n.log + [e])
    requires d' == Perform(d.(term := n.term + 1, voted := Some(1)), AppendLog([e]))
    ensures Turn(n, d, Timer, n', d')
  {
    var o := Canvass(n.(elapsed := 0), 2);
    assert o.acts == [];
    var c := Campaign(o.n, 2);
    assert c.acts == [PersistHardState(n.term + 1, Some(1))];
    var l := BecomeLeader(c.n);
    assert ForEach([], 0) == map[] && ForEach([], e.index) == map[];
    assert l.n == n';
    assert l.acts == [AppendLog([e])];
    assert Handle(n, Timer, 2) == Out(n', [PersistHardState(n.term + 1, Some(1)), AppendLog([e])]);
    Writes(d, [PersistHardState(n.term + 1, Some(1)), AppendLog([e])]);
  }

  /** It commits its own proposals at once, as far as its log can tell. */
  lemma Submitted(n: Node, d: Disk, command: Bytes, n': Node, d': Disk, e: Entry, k: Index)
    requires n.role == Leader && n.peers == [] && e == Entry(LastIndex(n.log) + 1, n.term, command)
    requires k == NewCommit(n.(log := n.log + [e])) && n.commit < k
    requires var m := n.(log := n.log + [e], commit := k); Pending(m) != [] && n' == ApplyCommitted(m).n
    requires d' == Perform(d, AppendLog([e]))
    ensures Turn(n, d, Submit(command), n', d')
  {
    var m := n.(log := n.log + [e], commit := k);
    Proposed(n, command, e, k);
    Applied(m);
    Written(n, d, Submit(command), n', d', AppendLog([e]), Apply(Pending(m)));
  }

  lemma Written(n: Node, d: Disk, ev: Event, n': Node, d': Disk, a: Action, b: Action)
    requires !ev.Recv? && Handle(n, ev, 2) == Out(n', [a] + [b]) && b.Apply? && d' == Perform(d, a)
    ensures Turn(n, d, ev, n', d')
  {
    assert [a] + [b] == [a, b];
    assert forall x: Disk :: Perform(x, b) == x;
    Writes(d, [a, b]);
  }

  lemma Applied(m: Node)
    requires Pending(m) != []
    ensures ApplyCommitted(m).acts == [Apply(Pending(m))]
  {}

  lemma Proposed(n: Node, command: Bytes, e: Entry, k: Index)
    requires n.role == Leader && n.peers == [] && e == Entry(LastIndex(n.log) + 1, n.term, command)
    requires k == NewCommit(n.(log := n.log + [e])) && n.commit < k
    ensures var o := ApplyCommitted(n.(log := n.log + [e], commit := k));
            Propose(n, command) == Out(o.n, [AppendLog([e])] + o.acts)
  {
    var a := n.(log := n.log + [e]);
    assert AppendCommand(n, command) == Out(a, [AppendLog([e])]);
    assert MaybeAdvance(a) == ApplyCommitted(a.(commit := k));
  }

  lemma Compacted2(n: Node, d: Disk, index: Index, term: Term)
    requires index <= n.commit
    ensures Turn(n, d, Compact(index, term),
                 n.(log := Compacted(n.log, index, term)), WriteSnapshot(d, Meta(index, term)))
  {
    Writes(d, [PersistSnapshot(index, term)]);
  }

  // ---- the run -----------------------------------------------------------------------------

  const E1 := Entry(1, 1, [])
  const E2 := Entry(2, 1, [7])
  const E3 := Entry(3, 1, [8])
  const E4 := Entry(4, 2, [])
  const E5 := Entry(5, 2, [9])
  const F5 := Entry(5, 2, [10])
  const BASE1 := Entry(1, 1, [])
  const BASE2 := Entry(2, 1, [])
  const BASE4 := Entry(4, 2, [])

  const L0 := Fresh(1, [], 2, 1, 2, 0, None, [SENTINEL], 0, 0)
  const L1 := L0.(term := 1, role := Leader, voted := Some(1), leader := Some(1), votes := {1}, preVotes := {1},
                  log := [SENTINEL, E1])
  const L2 := L1.(log := [SENTINEL, E1, E2], commit := 2, applied := 2)
  const L3 := L2.(log := [BASE2])
  const L4 := L3.(log := [BASE2, E3], commit := 3, applied := 3)
  const M0 := Fresh(1, [], 2, 1, 2, 1, Some(1), [BASE1, E3], 1, 1)
  const M1 := M0.(term := 2, role := Leader, leader := Some(1), votes := {1}, preVotes := {1}, log := [BASE1, E3, E4])
  const M2 := M1.(log := [BASE1, E3, E4, E5], commit := 4, applied := 4)
  const M3 := M2.(log := [BASE4])
  const M4 := M3.(log := [BASE4, F5], commit := 5, applied := 5)

  const D1 := Disk(1, Some(1), [SENTINEL, E1], None)
  const D2 := D1.(log := [SENTINEL, E1, E2])
  const D3 := D1.(log := [BASE2], snap := Some(Meta(2, 1)))
  const D4 := D3.(log := [BASE2, E3])
  const D5 := D4.(snap := Some(Meta(1, 1)))
  const G1 := D5.(term := 2, log := [BASE2, E3, E4])
  const G2 := G1.(log := [BASE2, E3, E4, E5])
  const G3 := G2.(log := [BASE4, E5], snap := Some(Meta(4, 2)))

  lemma Appended(d: Disk, e: Entry)
    requires Contiguous(d.log) && e.index == LastIndex(d.log) + 1
    ensures Perform(d, AppendLog([e])) == d.(log := d.log + [e])
  {
    PutAllExtends(d.log, [e]);
  }

  lemma FirstLead() returns (r: seq<Step>)
    ensures Stands(r, L1, D1)
  {
    r := Start();
    Quiet(L0, BLANK);
    r := Fire(r, L0, BLANK, Timer, L0.(elapsed := 1), BLANK);
    Appended(BLANK.(term := 1, voted := Some(1)), E1);
    Crowned(L0.(elapsed := 1), BLANK, L1, D1, E1);
    r := Fire(r, L0.(elapsed := 1), BLANK, Timer, L1, D1);
  }

  lemma AloneCommits(n: Node, k: Index)
    requires n.peers == [] && n.commit < k <= LastIndex(n.log) && TermAt(n.log, k) == Some(n.term)
    requires forall j | k < j <= LastIndex(n.log) :: TermAt(n.log, j) != Some(n.term)
    ensures NewCommit(n) == k
  {
    assert Committable(n, k);
  }

  lemma Taken(a: Entry, b: Entry, rest: seq<Entry>, limit: Index)
    requires a.index <= limit && b.index == limit && forall e | e in rest :: e.index > limit
    ensures TakeUpTo([b] + rest, limit) == [b]
    ensures TakeUpTo([a, b] + rest, limit) == [a, b]
  {
    assert ([b] + rest)[1..] == rest && ([a, b] + rest)[1..] == [b] + rest;
    assert TakeUpTo(rest, limit) == [];
  }

  lemma FirstSubmit(run: seq<Step>) returns (r: seq<Step>)
    requires Stands(run, L1, D1)
    ensures Stands(r, L2, D2)
  {
    var m := L1.(log := [SENTINEL, E1, E2]);
    AloneCommits(m, 2);
    Taken(E1, E2, [], 2);
    assert EntriesFrom(m.log, 1) == [E1, E2] == [E1, E2] + [];
    assert Pending(m.(commit := 2)) == [E1, E2];
    Appended(D1, E2);
    Submitted(L1, D1, [7], L2, D2, E2, 2);
    r := Fire(run, L1, D1, Submit([7]), L2, D2);
  }

  lemma SecondSubmit(run: seq<Step>) returns (r: seq<Step>)
    requires Stands(run, L3, D3)
    ensures Stands(r, L4, D4)
  {
    var m := L3.(log := [BASE2, E3]);
    AloneCommits(m, 3);
    Taken(E3, E3, [], 3);
    assert EntriesFrom(m.log, 3) == [E3] == [E3] + [];
    assert Pending(m.(commit := 3)) == [E3];
    Appended(D3, E3);
    Submitted(L3, D3, [8], L4, D4, E3, 3);
    r := Fire(run, L3, D3, Submit([8]), L4, D4);
  }

  lemma FirstCompaction(run: seq<Step>) returns (r: seq<Step>)
    requires Stands(run, L2, D2)
    ensures Stands(r, L3, D3)
  {
    Compacted2(L2, D2, 2, 1);
    r := Fire(run, L2, D2, Compact(2, 1), L3, D3);
  }

  /** Below the base: nothing happens in memory, but the disk records a snapshot its log is not behind. */
  lemma LowCompaction(run: seq<Step>) returns (r: seq<Step>)
    requires Stands(run, L4, D4)
    ensures Stands(r, L4, D5)
  {
    Compacted2(L4, D4, 1, 1);
    r := Fire(run, L4, D4, Compact(1, 1), L4, D5);
  }

  lemma SecondLead(run: seq<Step>) returns (r: seq<Step>)
    requires Stands(run, L4, D5)
    ensures Stands(r, M1, G1)
  {
    assert D5.log[1..] == [E3];
    assert Boot(ONE, 1, D5, 2) == M0;
    r := Restart(run, L4, D5);
    Quiet(M0, D5);
    r := Fire(r, M0, D5, Timer, M0.(elapsed := 1), D5);
    Appended(D5.(term := 2), E4);
    Crowned(M0.(elapsed := 1), D5, M1, G1, E4);
    r := Fire(r, M0.(elapsed := 1), D5, Timer, M1, G1);
  }

  lemma ThirdTurn()
    ensures Turn(M1, G1, Submit([9]), M2, G2)
  {
    var m := M1.(log := [BASE1, E3, E4, E5]);
    assert M1.log + [E5] == [BASE1, E3, E4, E5];
    AloneCommits(m, 4);
    ThirdBatch(m.(commit := 4));
    Appended(G1, E5);
    Submitted(M1, G1, [9], M2, G2, E5, 4);
  }

  lemma ThirdBatch(m: Node)
    requires m.log == [BASE1, E3, E4, E5] && m.applied == 1 && m.commit == 4
    ensures Pending(m) == [E3, E4]
  {
    Taken(E3, E4, [E5], 4);
    assert EntriesFrom(m.log, 2) == [E3, E4, E5] == [E3, E4] + [E5];
  }

  lemma ThirdSubmit(run: seq<Step>) returns (r: seq<Step>)
    requires Stands(run, M1, G1)
    ensures Stands(r, M2, G2)
  {
    ThirdTurn();
    r := Fire(run, M1, G1, Submit([9]), M2, G2);
  }

  /** The hole makes this compaction drop the last entry from memory, but not from disk. */
  lemma LastCompaction(run: seq<Step>) returns (r: seq<Step>)
    requires Stands(run, M2, G2)
    ensures Stands(r, M3, G3)
  {
    Compacted2(M2, G2, 4, 2);
    assert Compacted(M2.log, 4, 2) == [BASE4];
    assert Compacted(G2.log, 4, 2) == [BASE4, E5];
    r := Fire(run, M2, G2, Compact(4, 2), M3, G3);
  }

  lemma LastSubmit(run: seq<Step>) returns (r: seq<Step>)
    requires Stands(run, M3, G3)
    ensures Stands(r, M4, G3)
  {
    var m := M3.(log := [BASE4, F5]);
    AloneCommits(m, 5);
    Taken(F5, F5, [], 5);
    assert EntriesFrom(m.log, 5) == [F5] == [F5] + [];
    assert Pending(m.(commit := 5)) == [F5];
    assert PutAll(G3.log, [F5]) == Some(G3.log);
    Submitted(M3, G3, [10], M4, G3, F5, 5);
    r := Fire(run, M3, G3, Submit([10]), M4, G3);
  }

  /** Without a restriction on compaction, index and term do not determine an entry: the memory and the
      disk of one server hold different commands at index 5 of term 2. */
  lemma EntriesCollide() returns (run: seq<Step>)
    ensures ValidConf(ONE)
    ensures Occurs(State(ONE, Any, run), E5) && Occurs(State(ONE, Any, run), F5)
    ensures E5.index == F5.index && E5.term == F5.term && E5 != F5
  {
    run := FirstLead();
    run := FirstSubmit(run);
    run := FirstCompaction(run);
    run := SecondSubmit(run);
    run := LowCompaction(run);
    run := SecondLead(run);
    run := ThirdSubmit(run);
    run := LastCompaction(run);
    run := LastSubmit(run);
    var c := State(ONE, Any, run);
    assert c.nodes[1].log[1..][0] == F5 && c.disks[1].log[1..][0] == E5;
  }
}
