/** What the passing of time makes a server do: a leader's heartbeat, and a follower's or candidate's call for
    an election. Everything is said about consecutive timer calls and what they emit. */
module Timers {
  import opened Types
  import opened LogSpec
  import opened Kernel
  import DiskSpec
  import opened Cluster

  /** The server after one timer call for each drawn timeout. */
  function Ticked(n: Node, rts: seq<nat>): Node
    decreases |rts|
  {
    if rts == [] then n else Ticked(Tick(n, rts[0]).n, rts[1..])
  }

  /** What the call after the first k emits. */
  function Emitted(n: Node, rts: seq<nat>, k: nat): seq<Action>
    requires k < |rts|
  {
    Tick(Ticked(n, rts[..k]), rts[k]).acts
  }

  // ---- replication messages ----------------------------------------------------------------

  /** What a peer is to be sent: the snapshot position, complete, when it needs entries below the base, and
      otherwise the end of the log from its next index on behind the index and term just before. */
  predicate Carries(n: Node, p: NodeId, kind: Kind) {
    var next := if p in n.next then n.next[p] else 1;
    var base := n.log[0];
    if next <= base.index then kind == InstallSnapshot(base.index, if base.index == 0 then 0 else base.term, true)
    else
      var at := next - base.index;
      kind == AppendEntries(next - 1, if at - 1 < |n.log| then n.log[at - 1].term else 0,
                            if at < |n.log| then n.log[at..] else [], n.commit)
  }

  /** One message of the server's term to every peer, with what that peer is to be sent. */
  predicate ReachesAll(n: Node, acts: seq<Action>) {
    && |acts| == |n.peers|
    && forall k | 0 <= k < |acts| ::
         && acts[k].Send? && acts[k].msg.from == n.id && acts[k].msg.to == n.peers[k] && acts[k].msg.term == n.term
         && Carries(n, n.peers[k], acts[k].msg.kind)
  }

  lemma ReplicateCarries(n: Node, p: NodeId)
    ensures var a := Replicate(n, p);
            a.Send? && a.msg.from == n.id && a.msg.to == p && a.msg.term == n.term && Carries(n, p, a.msg.kind)
  {}

  lemma BroadcastReaches(n: Node)
    ensures ReachesAll(n, Broadcast(n))
  {
    forall k | 0 <= k < |n.peers| ensures Carries(n, n.peers[k], Broadcast(n)[k].msg.kind) && Broadcast(n)[k].Send? {
      ReplicateCarries(n, n.peers[k]);
    }
  }

  // ---- the leader --------------------------------------------------------------------------

  /** After `k` silent calls the leader is as it was, save for the time it counts. */
  lemma {:induction false} LeaderWaits(n: Node, rts: seq<nat>)
    requires n.role == Leader && (rts == [] || n.heartbeatElapsed + |rts| < n.heartbeat)
    ensures Ticked(n, rts) == n.(heartbeatElapsed := n.heartbeatElapsed + |rts|)
    decreases |rts|
  {
    if rts != [] { LeaderWaits(n.(heartbeatElapsed := n.heartbeatElapsed + 1), rts[1..]); }
  }

  lemma {:induction false} TickedConcat(n: Node, a: seq<nat>, b: seq<nat>)
    ensures Ticked(n, a + b) == Ticked(Ticked(n, a), b)
    decreases |a|
  {
    if a == [] {
      assert a + b == b;
    } else {
      assert (a + b)[1..] == a[1..] + b;
      TickedConcat(Tick(n, a[0]).n, a[1..], b);
    }
  }

  lemma Beats(n: Node, rt: nat)
    requires n.role == Leader && n.heartbeatElapsed + 1 >= n.heartbeat
    ensures Tick(n, rt).n == n.(heartbeatElapsed := 0) && ReachesAll(n, Tick(n, rt).acts)
  {
    var m := n.(heartbeatElapsed := 0);
    BroadcastReaches(m);
    forall k | 0 <= k < |n.peers| ensures Carries(n, n.peers[k], Broadcast(m)[k].msg.kind) {}
  }

  lemma WaitsThenBeats(n: Node, rts: seq<nat>, k: nat)
    requires n.role == Leader && k < |rts| && n.heartbeatElapsed + k + 1 >= n.heartbeat
    requires k == 0 || n.heartbeatElapsed + k < n.heartbeat
    ensures ReachesAll(n, Emitted(n, rts, k)) && Ticked(n, rts[..k + 1]) == n.(heartbeatElapsed := 0)
  {
    LeaderWaits(n, rts[..k]);
    EmittedNext(n, rts, k);
    BeatsAfter(n, rts[k], k);
  }

  lemma BeatsAfter(n: Node, rt: nat, k: nat)
    requires n.role == Leader && n.heartbeatElapsed + k + 1 >= n.heartbeat
    ensures var o := Tick(n.(heartbeatElapsed := n.heartbeatElapsed + k), rt);
            o.n == n.(heartbeatElapsed := 0) && ReachesAll(n, o.acts)
  {
    var m := n.(heartbeatElapsed := n.heartbeatElapsed + k);
    Beats(m, rt);
    SameReach(n, m, Tick(m, rt).acts);
  }

  lemma OneTick(n: Node, rt: nat)
    ensures Ticked(n, [rt]) == Tick(n, rt).n
  {}

  lemma EmittedNext(n: Node, rts: seq<nat>, k: nat)
    requires k < |rts|
    ensures var o := Tick(Ticked(n, rts[..k]), rts[k]);
            Emitted(n, rts, k) == o.acts && Ticked(n, rts[..k + 1]) == o.n
  {
    assert rts[..k + 1] == rts[..k] + [rts[k]];
    TickedConcat(n, rts[..k], [rts[k]]);
    OneTick(Ticked(n, rts[..k]), rts[k]);
  }

  lemma SameReach(n: Node, m: Node, acts: seq<Action>)
    requires m == n.(heartbeatElapsed := m.heartbeatElapsed) && ReachesAll(m, acts)
    ensures ReachesAll(n, acts)
  {
    forall k | 0 <= k < |acts| ensures Carries(n, n.peers[k], acts[k].msg.kind) {
      assert Carries(m, m.peers[k], acts[k].msg.kind);
    }
  }

  /** Exactly one of the calls reaches every peer, and the others emit nothing. */
  predicate OneBeat(n: Node, rts: seq<nat>) {
    exists k | 0 <= k < |rts| ::
      && ReachesAll(n, Emitted(n, rts, k))
      && forall j | 0 <= j < |rts| && j != k :: Emitted(n, rts, j) == []
  }

  /** Among any `heartbeat` consecutive timer calls of a leader exactly one sends every peer its
      replication message, wherever the counter stood before, and nothing else about the leader changes. */
  lemma HeartbeatComes(n: Node, rts: seq<nat>)
    requires n.role == Leader && |rts| == if n.heartbeat == 0 then 1 else n.heartbeat
    ensures OneBeat(n, rts)
    ensures exists h: nat :: h <= n.heartbeat && Ticked(n, rts) == n.(heartbeatElapsed := h)
  {
    var k := if n.heartbeatElapsed + 1 >= n.heartbeat then 0 else n.heartbeat - 1 - n.heartbeatElapsed;
    WaitsThenBeats(n, rts, k);
    BeatsOnce(n, rts, k);
    WaitsAgain(n, rts, k + 1);
  }

  lemma BeatsOnce(n: Node, rts: seq<nat>, k: nat)
    requires n.role == Leader && k < |rts| && (k == 0 || n.heartbeatElapsed + k < n.heartbeat)
    requires |rts| == 1 || |rts| <= n.heartbeat
    requires ReachesAll(n, Emitted(n, rts, k)) && Ticked(n, rts[..k + 1]) == n.(heartbeatElapsed := 0)
    ensures OneBeat(n, rts)
  {
    forall j | 0 <= j < |rts| && j != k ensures Emitted(n, rts, j) == [] {
      if j < k { SilentAfter(n, rts, 0, j, n); } else { SilentAfter(n, rts, k + 1, j, n.(heartbeatElapsed := 0)); }
    }
  }

  lemma WaitsAgain(n: Node, rts: seq<nat>, k: nat)
    requires n.role == Leader && k <= |rts| && Ticked(n, rts[..k]) == n.(heartbeatElapsed := 0)
    requires k == |rts| || |rts| - k < n.heartbeat
    ensures Ticked(n, rts) == n.(heartbeatElapsed := |rts| - k)
  {
    assert rts == rts[..k] + rts[k..];
    TickedConcat(n, rts[..k], rts[k..]);
    LeaderWaits(n.(heartbeatElapsed := 0), rts[k..]);
  }

  /** Once k calls have made the leader z it emits nothing until its counter runs out. */
  lemma SilentAfter(n: Node, rts: seq<nat>, k: nat, j: nat, z: Node)
    requires k <= j < |rts| && Ticked(n, rts[..k]) == z && z.role == Leader
    requires z.heartbeatElapsed + (j - k) + 1 < z.heartbeat
    ensures Emitted(n, rts, j) == []
  {
    assert rts[..j] == rts[..k] + rts[k..j];
    TickedConcat(n, rts[..k], rts[k..j]);
    LeaderWaits(z, rts[k..j]);
    BeatsNotYet(z.(heartbeatElapsed := z.heartbeatElapsed + (j - k)), rts[j]);
  }

  lemma BeatsNotYet(n: Node, rt: nat)
    requires n.role == Leader && n.heartbeatElapsed + 1 < n.heartbeat
    ensures Tick(n, rt).acts == []
  {}

  // ---- everyone else -----------------------------------------------------------------------

  lemma {:induction false} OtherWaits(n: Node, rts: seq<nat>)
    requires n.role != Leader && (rts == [] || n.elapsed + |rts| < n.timeout)
    ensures Ticked(n, rts) == n.(elapsed := n.elapsed + |rts|)
    decreases |rts|
  {
    if rts != [] { OtherWaits(n.(elapsed := n.elapsed + 1), rts[1..]); }
  }

  /** The server starts asking for pre-votes for the next term, with its own log end and a fresh timer; its
      own term, vote and log stay as they are. */
  predicate AsksAround(n: Node, rt: nat, o: Out) {
    var last := n.log[|n.log| - 1];
    && o.n == n.(role := PreCandidate, preVotes := {n.id}, elapsed := 0, timeout := rt)
    && |o.acts| == |n.peers|
    && forall k | 0 <= k < |n.peers| ::
         o.acts[k] == Send(Message(n.id, n.peers[k], n.term + 1, PreVote(last.index, last.term)))
  }

  /** A server without peers leads the next term at once, its vote on disk before its no-op. */
  predicate LeadsAlone(n: Node, o: Out) {
    var noop := Entry(n.log[|n.log| - 1].index + 1, n.term + 1, []);
    && o.n.role == Leader && o.n.leader == Some(n.id) && o.n.term == n.term + 1 && o.n.voted == Some(n.id)
    && o.n.log == n.log + [noop] && o.n.commit == n.commit && o.n.applied == n.applied
    && o.acts == [PersistHardState(n.term + 1, Some(n.id)), AppendLog([noop])]
  }

  /** What happens when the timeout runs out, by the server as it was before. */
  predicate CallsElection(n: Node, rt: nat, o: Out) {
    if n.peers == [] then LeadsAlone(n, o) else AsksAround(n, rt, o)
  }

  lemma TimedOut(n: Node, rt: nat)
    requires n.role != Leader && n.elapsed + 1 >= n.timeout
    ensures CallsElection(n, rt, Tick(n, rt))
  {
    var z := n.(elapsed := 0);
    var c := Canvass(z, rt);
    if n.peers == [] {
      assert c.acts == [];
      var e := Campaign(c.n, rt);
      assert e.acts == [PersistHardState(n.term + 1, Some(n.id))];
      assert Broadcast(BecomeLeader(e.n).n) == [];
    }
  }

  lemma OtherSilent(n: Node, rts: seq<nat>, j: nat)
    requires n.role != Leader && j < |rts| && n.elapsed + j + 1 < n.timeout
    ensures Emitted(n, rts, j) == []
  {
    OtherWaits(n, rts[..j]);
  }

  lemma SameCall(n: Node, m: Node, rt: nat, o: Out)
    requires m == n.(elapsed := m.elapsed) && CallsElection(m, rt, o)
    ensures CallsElection(n, rt, o)
  {}

  /** A server that does not lead stays silent until its timeout runs out, and calls for an election in
      exactly that call. */
  lemma TimeoutComes(n: Node, rts: seq<nat>)
    requires n.role != Leader && |rts| == if n.elapsed + 1 >= n.timeout then 1 else n.timeout - n.elapsed
    ensures var k := |rts| - 1;
            && (forall j | 0 <= j < k :: Emitted(n, rts, j) == [])
            && CallsElection(n, rts[k], Out(Ticked(n, rts), Emitted(n, rts, k)))
  {
    var k := |rts| - 1;
    forall j | 0 <= j < k ensures Emitted(n, rts, j) == [] { OtherSilent(n, rts, j); }
    OtherWaits(n, rts[..k]);
    var m := n.(elapsed := n.elapsed + k);
    TimedOut(m, rts[k]);
    EmittedNext(n, rts, k);
    assert rts[..k + 1] == rts;
    SameCall(n, m, rts[k], Tick(m, rts[k]));
  }

  /** A server restarted from disk follows nobody and calls for an election at the very tick its drawn timeout
      names, if nothing reaches it before. */
  lemma RestartedWaits(conf: Conf, i: NodeId, d: DiskSpec.Disk, rt: nat, rts: seq<nat>)
    requires i in conf.peers && |rts| == rt >= 1
    ensures var n := Boot(conf, i, d, rt);
            && n.role == Follower && n.leader.None? && n.term == d.term && n.voted == d.voted
            && (forall j | 0 <= j < rt - 1 :: Emitted(n, rts, j) == [])
            && CallsElection(n, rts[rt - 1], Out(Ticked(n, rts), Emitted(n, rts, rt - 1)))
  {
    TimeoutComes(Boot(conf, i, d, rt), rts);
  }
}
