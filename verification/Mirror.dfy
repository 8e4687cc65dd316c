/** The disk follows the node: carrying the emitted actions out in order leaves on disk exactly the
    persistent state in memory, and a restart rebuilds it. */
module Mirror {
  import opened Types
  import opened LogSpec
  import opened Kernel
  import opened DiskSpec
  import opened Cluster
  import Stream
  import Consequences
  import Protocol

  /** The disk alone is enough to restart from. */
  predicate Sound(d: Disk) {
    Contiguous(d.log) && d.log[0].command == []
    && d.snap.UnwrapOr(Meta(0, 0)) == Meta(FirstIndex(d.log), d.log[0].term)
  }

  predicate Mirrors(n: Node, d: Disk) {
    Sound(d) && d.term == n.term && d.voted == n.voted && d.log == n.log
  }

  function WriteAll(d: Disk, acts: seq<Action>): Disk
    decreases |acts|
  {
    if acts == [] then d else WriteAll(Perform(d, acts[0]), acts[1..])
  }

  /** No write panics, and the disk is sound before, between and after the writes. */
  predicate Smooth(d: Disk, acts: seq<Action>)
    decreases |acts|
  {
    && Sound(d)
    && (acts != [] ==> !Panics(d, acts[0]) && Smooth(Perform(d, acts[0]), acts[1..]))
  }

  predicate Written(d: Disk, o: Out) {
    Smooth(d, o.acts) && Mirrors(o.n, WriteAll(d, o.acts))
  }

  lemma {:induction false} WriteConcat(d: Disk, a: seq<Action>, b: seq<Action>)
    requires Smooth(d, a) && Smooth(WriteAll(d, a), b)
    ensures Smooth(d, a + b) && WriteAll(d, a + b) == WriteAll(WriteAll(d, a), b)
    decreases |a|
  {
    if a == [] {
      assert a + b == b;
    } else {
      assert (a + b)[1..] == a[1..] + b;
      WriteConcat(Perform(d, a[0]), a[1..], b);
    }
  }

  lemma {:induction false} SmoothPrefix(d: Disk, acts: seq<Action>, k: nat)
    requires Smooth(d, acts) && k <= |acts|
    ensures Sound(WriteAll(d, acts[..k]))
    decreases |acts|
  {
    if k > 0 {
      SmoothPrefix(Perform(d, acts[0]), acts[1..], k - 1);
      assert acts[..k][1..] == acts[1..][..k - 1];
    }
  }

  predicate NoWrites(acts: seq<Action>) {
    forall a | a in acts :: a.Send? || a.Apply?
  }

  lemma {:induction false} NoWritesSmooth(d: Disk, acts: seq<Action>)
    requires Sound(d) && NoWrites(acts)
    ensures Smooth(d, acts) && WriteAll(d, acts) == d
    decreases |acts|
  {
    if acts != [] { NoWritesSmooth(d, acts[1..]); }
  }

  lemma Then(d: Disk, o: Out, p: Out)
    requires Written(d, o) && Written(WriteAll(d, o.acts), p)
    ensures Written(d, Out(p.n, o.acts + p.acts))
  {
    WriteConcat(d, o.acts, p.acts);
  }

  lemma One(d: Disk, a: Action, n: Node)
    requires Sound(d) && !Panics(d, a) && Mirrors(n, Perform(d, a))
    ensures Written(d, Out(n, [a]))
  {
    var e := Perform(d, a);
    assert [a][1..] == [] && Smooth(e, []) && WriteAll(e, []) == e;
  }

  lemma Silent(d: Disk, n: Node, acts: seq<Action>)
    requires Mirrors(n, d) && NoWrites(acts)
    ensures Written(d, Out(n, acts))
  {
    NoWritesSmooth(d, acts);
  }

  lemma OneThenSilent(d: Disk, a: Action, n: Node, acts: seq<Action>)
    requires Sound(d) && !Panics(d, a) && Mirrors(n, Perform(d, a)) && NoWrites(acts)
    ensures Written(d, Out(n, [a] + acts))
  {
    One(d, a, n);
    Silent(WriteAll(d, [a]), n, acts);
    Then(d, Out(n, [a]), Out(n, acts));
  }

  // ---- roles -------------------------------------------------------------------------------

  lemma BecomeFollowerWritten(n: Node, d: Disk, t: Term, leader: Option<NodeId>, rt: nat)
    requires Mirrors(n, d) && n.term <= t
    ensures Written(d, BecomeFollower(n, t, leader, rt))
  {
    var o := BecomeFollower(n, t, leader, rt);
    if t > n.term { One(d, PersistHardState(t, None), o.n); } else { Silent(d, o.n, []); }
  }

  lemma AppendWritten(n: Node, d: Disk, m: Node, e: Entry, sends: seq<Action>)
    requires Mirrors(n, d) && e.index == LastIndex(n.log) + 1 && m.log == n.log + [e]
    requires m.term == n.term && m.voted == n.voted && NoWrites(sends)
    ensures Written(d, Out(m, [AppendLog([e])] + sends))
  {
    PutAllExtends(d.log, [e]);
    OneThenSilent(d, AppendLog([e]), m, sends);
  }

  lemma BecomeLeaderWritten(n: Node, d: Disk)
    requires Mirrors(n, d)
    ensures Written(d, BecomeLeader(n))
  {
    var m := BecomeLeader(n).n;
    AppendWritten(n, d, m, Entry(LastIndex(n.log) + 1, n.term, []), Broadcast(m));
  }

  lemma StartRealElectionWritten(n: Node, d: Disk, rt: nat)
    requires Mirrors(n, d)
    ensures Written(d, StartRealElection(n, rt))
  {
    var o := Campaign(n, rt);
    OneThenSilent(d, PersistHardState(n.term + 1, Some(n.id)), o.n,
                  ToPeers(o.n, o.n.term, RequestVote(LastIndex(o.n.log), LastTerm(o.n.log))));
    if n.peers == [] {
      BecomeLeaderWritten(o.n, WriteAll(d, o.acts));
      Then(d, o, BecomeLeader(o.n));
    }
  }

  lemma StartPreVoteWritten(n: Node, d: Disk, rt: nat)
    requires Mirrors(n, d)
    ensures Written(d, StartPreVote(n, rt))
  {
    var o := Canvass(n, rt);
    Silent(d, o.n, o.acts);
    if n.peers == [] {
      NoWritesSmooth(d, o.acts);
      StartRealElectionWritten(o.n, d, rt);
      Then(d, o, StartRealElection(o.n, rt));
    }
  }

  lemma TickWritten(n: Node, d: Disk, rt: nat)
    requires Mirrors(n, d)
    ensures Written(d, Tick(n, rt))
  {
    if n.role != Leader && n.elapsed + 1 >= n.timeout {
      StartPreVoteWritten(n.(elapsed := 0), d, rt);
    } else {
      Silent(d, Tick(n, rt).n, Tick(n, rt).acts);
    }
  }

  lemma VotingWritten(n: Node, d: Disk, m: Message, rt: nat)
    requires Mirrors(n, d)
    requires m.kind.PreVoteMsg() || m.kind.RequestVote? || m.kind.RequestVoteResponse?
    ensures Written(d, Dispatch(n, m, rt))
  {
    var o := Dispatch(n, m, rt);
    match m.kind
    case PreVote(_, _) =>
      Silent(d, o.n, o.acts);
    case PreVoteResponse(granted) =>
      var p := n.(preVotes := n.preVotes + {m.from});
      StartRealElectionWritten(p, d, rt);
      Silent(d, p, []);
      Silent(d, n, []);
    case RequestVote(_, _) =>
      if o.n == n && |o.acts| == 1 {
        Silent(d, o.n, o.acts);
      }
      OneThenSilent(d, PersistHardState(n.term, Some(m.from)), n.(voted := Some(m.from), elapsed := 0),
                    [Reply(n, m.from, RequestVoteResponse(true))]);
      Silent(d, n, [Reply(n, m.from, RequestVoteResponse(false))]);
    case RequestVoteResponse(granted) =>
      var p := n.(votes := n.votes + {m.from});
      BecomeLeaderWritten(p, d);
      Silent(d, p, []);
      Silent(d, n, []);
  }

  // ---- replication -------------------------------------------------------------------------

  /** Entries that join the log are written to disk as to memory. */
  lemma CutWritten(s: Log, from: Index, es: seq<Entry>)
    requires Contiguous(s) && FirstIndex(s) < from
    requires ContiguousFrom(es, if from <= LastIndex(s) then from else LastIndex(s) + 1)
    ensures Cut(s, from, es) == Some(Truncated(s, from, es))
  {
    var t := if from - FirstIndex(s) <= |s| then s[..from - FirstIndex(s)] else s;
    PutAllExtends(t, es);
  }

  /** A merge keeps disk and memory equal if and only if its entries join the log. */
  lemma MergeWritten(n: Node, d: Disk, es: seq<Entry>)
    requires Mirrors(n, d) && !CutsBase(n.log, es)
    ensures Written(d, Merge(n, es)) <==> Stream.Joins(n.log, es)
    ensures !Stream.Joins(n.log, es) ==> !Contiguous(Merge(n, es).n.log)
  {
    Stream.MergeStill(n, es);
    if es == [] || Skipped(n.log, es) == |es| {
      Silent(d, n, []);
    } else if Stream.Joins(n.log, es) {
      var from, rest := Attach(n.log, es), es[Skipped(n.log, es)..];
      CutWritten(n.log, from, rest);
      Stream.TruncatedJoins(n.log, from, rest);
      One(d, TruncateAndAppend(from, rest), Merge(n, es).n);
    }
  }

  lemma AdvanceWritten(n: Node, d: Disk, k: Index)
    requires Mirrors(n, d)
    ensures Written(d, AdvanceTo(n, k))
  {
    Silent(d, AdvanceTo(n, k).n, AdvanceTo(n, k).acts);
  }

  lemma AcceptWritten(n: Node, d: Disk, from: NodeId, es: seq<Entry>, leaderCommit: Index)
    requires Mirrors(n, d) && !CutsBase(n.log, es)
    ensures Written(d, Accept(n, from, es, leaderCommit)) <==> Stream.Joins(n.log, es)
    ensures !Stream.Joins(n.log, es) ==> !Contiguous(Accept(n, from, es, leaderCommit).n.log)
  {
    var a := Merge(n, es);
    var b := FollowLeaderCommit(a.n, leaderCommit);
    MergeWritten(n, d, es);
    FollowKeepsLog(a.n, leaderCommit);
    Protocol.AcceptShape(n, from, es, leaderCommit);
    if Stream.Joins(n.log, es) {
      var rest := b.acts + [Reply(b.n, from, AppendEntriesResponse(true, None, None))];
      assert NoWrites(rest);
      Silent(WriteAll(d, a.acts), b.n, rest);
      Then(d, a, Out(b.n, rest));
    }
  }

  lemma FollowKeepsLog(n: Node, leaderCommit: Index)
    ensures var o := FollowLeaderCommit(n, leaderCommit);
            o.n.log == n.log && o.n.term == n.term && o.n.voted == n.voted && NoWrites(o.acts)
  {}

  lemma AppendEntriesWritten(n: Node, d: Disk, m: Message, rt: nat)
    requires Mirrors(n, d) && m.kind.AppendEntries? && !Aborts(n, m)
    ensures Written(d, HandleAppendEntries(n, m, rt)) <==> Stream.Fits(n, m)
    ensures !Stream.Fits(n, m) ==> !Contiguous(HandleAppendEntries(n, m, rt).n.log)
  {
    if m.term < n.term {
      Silent(d, n, HandleAppendEntries(n, m, rt).acts);
    } else {
      var f := BecomeFollower(n, m.term, Some(m.from), rt);
      BecomeFollowerWritten(n, d, m.term, Some(m.from), rt);
      var r := Rejection(f.n.log, m.kind.prevIndex, m.kind.prevTerm);
      if r.Some? {
        Silent(WriteAll(d, f.acts), f.n, [Reply(f.n, m.from, r.value)]);
        Then(d, f, Out(f.n, [Reply(f.n, m.from, r.value)]));
      } else {
        AcceptWritten(f.n, WriteAll(d, f.acts), m.from, m.kind.entries, m.kind.leaderCommit);
        if Stream.Joins(n.log, m.kind.entries) { Then(d, f, Accept(f.n, m.from, m.kind.entries, m.kind.leaderCommit)); }
      }
    }
  }

  lemma ResponseWritten(n: Node, d: Disk, m: Message)
    requires Mirrors(n, d) && (m.kind.AppendEntriesResponse? || m.kind.InstallSnapshotResponse?)
    ensures m.kind.AppendEntriesResponse? ==> Written(d, HandleAppendEntriesResponse(n, m))
    ensures m.kind.InstallSnapshotResponse? ==> Written(d, HandleInstallSnapshotResponse(n, m))
  {
    if m.kind.AppendEntriesResponse? {
      var o := HandleAppendEntriesResponse(n, m);
      Silent(d, o.n, o.acts);
    } else {
      var o := HandleInstallSnapshotResponse(n, m);
      Silent(d, o.n, o.acts);
    }
  }

  lemma ProposeWritten(n: Node, d: Disk, command: Bytes)
    requires Mirrors(n, d)
    ensures Written(d, Propose(n, command))
  {
    if n.role == Leader {
      var a := AppendCommand(n, command);
      AppendWritten(n, d, a.n, Entry(LastIndex(n.log) + 1, n.term, command), Broadcast(a.n));
      if n.peers == [] {
        AdvanceWritten(a.n, WriteAll(d, a.acts), NewCommit(a.n));
        Then(d, a, MaybeAdvance(a.n));
      }
    } else {
      Silent(d, n, []);
    }
  }

  lemma ClientRequestWritten(n: Node, d: Disk, from: NodeId, command: Bytes)
    requires Mirrors(n, d)
    ensures Written(d, HandleClientRequest(n, from, command))
  {
    if n.role == Leader {
      var p := Propose(n, command);
      ProposeWritten(n, d, command);
      Silent(WriteAll(d, p.acts), p.n, [Reply(p.n, from, ClientResponse(true, Some(n.id)))]);
      Then(d, p, Out(p.n, [Reply(p.n, from, ClientResponse(true, Some(n.id)))]));
    } else {
      Silent(d, n, HandleClientRequest(n, from, command).acts);
    }
  }

  // ---- snapshots: exactly when memory and disk stay the same -------------------------------

  /** An InstallSnapshot that replaces the node's log. */
  predicate Replaces(n: Node, m: Message) {
    m.kind.InstallSnapshot? && m.term >= n.term && m.kind.done && m.kind.snapIndex > n.commit
  }

  lemma InstalledDisk(d: Disk, index: Index, term: Term)
    requires Sound(d) && FirstIndex(d.log) < index
    ensures Sound(WriteSnapshot(d, Meta(index, term)))
    ensures WriteSnapshot(d, Meta(index, term)).log == [Entry(index, term, [])] <==> index >= LastIndex(d.log)
  {}

  /** An accepted snapshot keeps the mirror exactly when it reaches the end of the node's log. */
  lemma InstallWritten(n: Node, d: Disk, m: Message, rt: nat)
    requires Mirrors(n, d) && m.kind.InstallSnapshot? && FirstIndex(n.log) <= n.commit
    ensures var o := HandleInstallSnapshot(n, m, rt);
            && Smooth(d, o.acts)
            && (Mirrors(o.n, WriteAll(d, o.acts)) <==> (Replaces(n, m) ==> m.kind.snapIndex >= LastIndex(n.log)))
  {
    var reply := [Reply(n.(term := m.term), m.from, InstallSnapshotResponse)];
    if m.term < n.term {
      Silent(d, n, HandleInstallSnapshot(n, m, rt).acts);
    } else {
      var f := BecomeFollower(n, m.term, Some(m.from), rt);
      BecomeFollowerWritten(n, d, m.term, Some(m.from), rt);
      var e := WriteAll(d, f.acts);
      if m.kind.snapIndex <= n.commit || !m.kind.done {
        Silent(e, f.n, reply);
        Then(d, f, Out(f.n, reply));
      } else {
        var s := Install(f.n, m.kind.snapIndex, m.kind.snapTerm);
        InstalledDisk(e, m.kind.snapIndex, m.kind.snapTerm);
        SnapshotSmooth(e, m.kind.snapIndex, m.kind.snapTerm, reply);
        WriteConcat(d, f.acts, s.acts + reply);
        assert f.acts + (s.acts + reply) == f.acts + s.acts + reply;
      }
    }
  }

  lemma SnapshotSmooth(d: Disk, index: Index, term: Term, sends: seq<Action>)
    requires Sound(d) && Sound(WriteSnapshot(d, Meta(index, term))) && NoWrites(sends)
    ensures Smooth(d, [PersistSnapshot(index, term)] + sends)
    ensures WriteAll(d, [PersistSnapshot(index, term)] + sends) == WriteSnapshot(d, Meta(index, term))
  {
    assert ([PersistSnapshot(index, term)] + sends)[1..] == sends;
    NoWritesSmooth(WriteSnapshot(d, Meta(index, term)), sends);
  }

  /** A compaction keeps the mirror exactly when it is at or above the retained base, and at the base
      names the base's own term. Below the base the disk records a snapshot its log does not start at. */
  lemma CompactWritten(n: Node, d: Disk, index: Index, term: Term)
    requires Mirrors(n, d)
    ensures var o := CompactLogs(n, index, term);
            Mirrors(o.n, WriteAll(d, o.acts)) <==>
            (index <= n.commit ==>
               FirstIndex(n.log) < index || Meta(index, term) == Meta(FirstIndex(n.log), n.log[0].term))
    ensures var o := CompactLogs(n, index, term);
            Mirrors(o.n, WriteAll(d, o.acts)) ==> Smooth(d, o.acts)
  {
    if index <= n.commit {
      var e := WriteSnapshot(d, Meta(index, term));
      assert [PersistSnapshot(index, term)][1..] == [];
      assert WriteAll(e, []) == e;
      assert WriteAll(d, [PersistSnapshot(index, term)]) == e;
      if FirstIndex(n.log) < index { InstalledDisk(d, index, term); }
      if Sound(e) { One(d, PersistSnapshot(index, term), CompactLogs(n, index, term).n); }
    } else {
      Silent(d, n, []);
    }
  }

  // ---- any call ----------------------------------------------------------------------------

  /** The messages after which memory and disk agree: a snapshot reaches the end of the log, and entries
      join it. */
  predicate GentleMessage(n: Node, m: Message) {
    (Replaces(n, m) ==> m.kind.snapIndex >= LastIndex(n.log)) && Stream.Fits(n, m)
  }

  /** The calls after which memory and disk agree. */
  predicate Gentle(n: Node, ev: Event) {
    && (ev.Recv? ==> GentleMessage(n, ev.pkt.msg))
    && (ev.Compact? && ev.index <= n.commit ==>
          FirstIndex(n.log) < ev.index || Meta(ev.index, ev.term) == Meta(FirstIndex(n.log), n.log[0].term))
  }

  lemma DispatchWritten(n: Node, d: Disk, m: Message, rt: nat)
    requires Mirrors(n, d) && !Aborts(n, m) && FirstIndex(n.log) <= n.commit
    ensures Mirrors(Dispatch(n, m, rt).n, WriteAll(d, Dispatch(n, m, rt).acts)) <==> GentleMessage(n, m)
    ensures GentleMessage(n, m) ==> Smooth(d, Dispatch(n, m, rt).acts)
  {
    Protocol.Routed(n, m, rt);
    match m.kind
    case ClientRequest(command) => ClientRequestWritten(n, d, m.from, command);
    case ClientResponse(_, _) => Silent(d, n, []);
    case AppendEntries(_, _, _, _) => AppendEntriesWritten(n, d, m, rt);
    case InstallSnapshot(_, _, _) => InstallWritten(n, d, m, rt);
    case AppendEntriesResponse(_, _, _) => ResponseWritten(n, d, m);
    case InstallSnapshotResponse => ResponseWritten(n, d, m);
    case _ => VotingWritten(n, d, m, rt);
  }

  lemma ReceiveWritten(n: Node, d: Disk, m: Message, rt: nat)
    requires Mirrors(n, d) && !Aborts(n, m) && FirstIndex(n.log) <= n.commit
    ensures Mirrors(Receive(n, m, rt).n, WriteAll(d, Receive(n, m, rt).acts)) <==> GentleMessage(n, m)
    ensures GentleMessage(n, m) ==> Smooth(d, Receive(n, m, rt).acts)
  {
    if Stale(n, m) {
      Silent(d, n, []);
    } else {
      var b := if Bumps(n, m) then BecomeFollower(n, m.term, None, rt) else Out(n, []);
      if Bumps(n, m) { BecomeFollowerWritten(n, d, m.term, None, rt); } else { Silent(d, n, []); }
      DispatchWritten(b.n, WriteAll(d, b.acts), m, rt);
      WriteAfter(d, b.acts, Dispatch(b.n, m, rt).acts);
      if GentleMessage(n, m) { WriteConcat(d, b.acts, Dispatch(b.n, m, rt).acts); }
    }
  }

  lemma {:induction false} WriteAfter(d: Disk, a: seq<Action>, b: seq<Action>)
    ensures WriteAll(d, a + b) == WriteAll(WriteAll(d, a), b)
    decreases |a|
  {
    if a == [] {
      assert a + b == b;
    } else {
      assert (a + b)[1..] == a[1..] + b;
      WriteAfter(Perform(d, a[0]), a[1..], b);
    }
  }

  /** For every call on a mirrored node that does not panic: afterwards disk and memory agree if and only
      if the call is gentle, and a gentle call never makes the disk panic or leaves it unsound part-way. */
  lemma CallWritten(n: Node, d: Disk, ev: Event, rt: nat)
    requires Mirrors(n, d) && Stream.Steady(n) && !Fatal(n, ev)
    ensures var o := Handle(n, ev, rt); Mirrors(o.n, WriteAll(d, o.acts)) <==> Gentle(n, ev)
    ensures Gentle(n, ev) ==> Smooth(d, Handle(n, ev, rt).acts)
  {
    match ev
    case Timer => TickWritten(n, d, rt);
    case Recv(pkt) => ReceiveWritten(n, d, pkt.msg, rt);
    case Submit(command) => ProposeWritten(n, d, command);
    case Compact(index, term) => CompactWritten(n, d, index, term);
  }

  // ---- runs with crashes and restarts ------------------------------------------------------

  /** What a restart rebuilds. */
  lemma BootMirrors(conf: Conf, i: NodeId, d: Disk, rt: nat)
    requires i in conf.peers && Contiguous(d.log)
    ensures var n := Boot(conf, i, d, rt);
            var meta := d.snap.UnwrapOr(Meta(0, 0));
            Mirrors(n, d) <==> d.log[0] == Entry(meta.index, meta.term, [])
    ensures Sound(d) ==> Stream.Steady(Boot(conf, i, d, rt))
  {
    var meta := d.snap.UnwrapOr(Meta(0, 0));
    if Sound(d) { assert Restored(meta, d.log[1..]) == d.log; }
  }

  /** A compaction below the retained base is harmless in memory, but the node that restarts from disk
      has a hole in its log, unless the log held no entries. */
  lemma CompactThenRestart(conf: Conf, i: NodeId, n: Node, d: Disk, index: Index, term: Term, rt: nat)
    requires i in conf.peers && Mirrors(n, d) && index <= n.commit
    ensures var o := CompactLogs(n, index, term);
            && Contiguous(o.n.log)
            && (Contiguous(Boot(conf, i, WriteAll(d, o.acts), rt).log) <==> FirstIndex(n.log) <= index || |n.log| == 1)
  {
    var e := WriteSnapshot(d, Meta(index, term));
    assert WriteAll(d, [PersistSnapshot(index, term)]) == e by {
      assert [PersistSnapshot(index, term)][1..] == [] && WriteAll(e, []) == e;
    }
    var r := Boot(conf, i, e, rt).log;
    if FirstIndex(n.log) < index {
      InstalledDisk(d, index, term);
    } else if |n.log| > 1 {
      assert r[1] == n.log[1];
    }
  }

  /** Every snapshot that is accepted reaches the end of the log, and every compaction is at or above
      the base. Nothing is said about the entries that messages carry. */
  predicate GentleStep(conf: Conf, f: Family, c: Net, s: Step) {
    Allowed(conf, f, c, s) && (s.Call? || s.Torn?) ==>
      var n := c.nodes[s.i];
      && (s.ev.Recv? && Replaces(n, s.ev.pkt.msg) ==> s.ev.pkt.msg.kind.snapIndex >= LastIndex(n.log))
      && (s.ev.Compact? ==> Gentle(n, s.ev))
  }

  predicate GentleRun(conf: Conf, f: Family, run: seq<Step>) {
    forall k | 0 <= k < |run| :: GentleStep(conf, f, State(conf, f, run[..k]), run[k])
  }

  predicate AllMirrored(c: Net) {
    && (forall i | i in c.disks :: Sound(c.disks[i]))
    && (forall i | i in c.nodes :: i in c.disks && Mirrors(c.nodes[i], c.disks[i]) && Stream.Steady(c.nodes[i]))
  }

  lemma {:induction false} ActAllWrites(c: Net, i: NodeId, ack: Index, acts: seq<Action>)
    requires i in c.disks
    ensures ActAll(c, i, ack, acts).disks == c.disks[i := WriteAll(c.disks[i], acts)]
    decreases |acts|
  {
    if acts != [] { ActAllWrites(Act(c, i, ack, acts[0]), i, ack, acts[1..]); }
  }

  /** The messages a step can deliver carry consecutive entries. */
  predicate ValidStep(s: Step) {
    (s.Call? || s.Torn?) && s.ev.Recv? ==> ValidMsg(s.ev.pkt.msg)
  }

  lemma CallMirrors(c: Net, i: NodeId, ev: Event, rt: nat)
    requires AllMirrored(c) && i in c.nodes && !Fatal(c.nodes[i], ev) && Gentle(c.nodes[i], ev)
    ensures var o, d := Handle(c.nodes[i], ev, rt), c.disks[i];
            Smooth(d, o.acts) && Mirrors(o.n, WriteAll(d, o.acts)) && Stream.Steady(o.n)
  {
    CallWritten(c.nodes[i], c.disks[i], ev, rt);
    Stream.CallFeeds(c.nodes[i], ev, rt);
  }

  lemma StepMirrors(conf: Conf, f: Family, c: Net, s: Step)
    requires AllMirrored(c) && Allowed(conf, f, c, s) && GentleStep(conf, f, c, s) && ValidStep(s)
    ensures AllMirrored(Next(conf, c, s))
  {
    if !Dies(c, s) {
      if (s.Call? || s.Torn?) && s.ev.Recv? { Stream.ValidFits(c.nodes[s.i], s.ev.pkt.msg); }
      match s
      case Call(i, ev, rt) =>
        var o := Handle(c.nodes[i], ev, rt);
        CallMirrors(c, i, ev, rt);
        SmoothPrefix(c.disks[i], o.acts, |o.acts|);
        ActAllWrites(c, i, AckOf(ev), o.acts);
      case Torn(i, ev, rt, done) =>
        var o := Handle(c.nodes[i], ev, rt);
        CallMirrors(c, i, ev, rt);
        SmoothPrefix(c.disks[i], o.acts, done);
        ActAllWrites(c, i, AckOf(ev), o.acts[..done]);
      case Crash(i) =>
      case Spawn(i, rt) => BootMirrors(conf, i, c.disks[i], rt);
    }
  }

  /** Gentle runs compact sanely, so the messages in them are those of a sane run. */
  lemma GentleIsSane(conf: Conf, f: Family, c: Net, s: Step)
    requires AllMirrored(c) && GentleStep(conf, f, c, s)
    ensures Allowed(conf, f, c, s) ==> Allowed(conf, if f == Any then Sane else f, c, s)
    ensures f == Any && Allowed(conf, Sane, c, s) ==> Allowed(conf, Any, c, s)
  {}

  /** In every run of any family in which accepted snapshots reach the end of the log and compactions are
      at or above the base, with crashes after any prefix of any action list: each live node's term, vote,
      log and base are exactly those on its disk, every disk can be restarted from, and every node is
      steady. */
  lemma {:induction false} RunMirrors(conf: Conf, f: Family, run: seq<Step>)
    requires ValidConf(conf) && GentleRun(conf, f, run)
    ensures AllMirrored(State(conf, f, run))
    ensures f == Any ==> State(conf, Any, run) == State(conf, Sane, run)
    decreases |run|
  {
    if run != [] {
      var init := run[..|run| - 1];
      forall k | 0 <= k < |init| ensures GentleStep(conf, f, State(conf, f, init[..k]), init[k]) {
        assert init[..k] == run[..k] && GentleStep(conf, f, State(conf, f, run[..k]), run[k]);
      }
      RunMirrors(conf, f, init);
      var c, s := State(conf, f, init), run[|init|];
      assert GentleStep(conf, f, c, s);
      GentleIsSane(conf, f, c, s);
      if Allowed(conf, f, c, s) {
        DeliversValid(conf, if f == Any then Sane else f, init, s);
        StepMirrors(conf, f, c, s);
      }
    }
  }

  lemma DeliversValid(conf: Conf, f: Family, run: seq<Step>, s: Step)
    requires ValidConf(conf) && Rank(f) >= 1 && Allowed(conf, f, State(conf, f, run), s)
    ensures ValidStep(s)
  {
    if (s.Call? || s.Torn?) && s.ev.Recv? && s.ev.pkt.msg.kind.AppendEntries? {
      Consequences.MessagesValid(conf, f, run, s.ev.pkt);
    }
  }

  /** The simulator compacts at the commit index, with the term its log has there. */
  lemma SimulatorCompactionGentle(n: Node)
    requires Stream.Steady(n)
    ensures Gentle(n, Compact(n.commit, TermAt(n.log, n.commit).UnwrapOr(0)))
  {}
}
