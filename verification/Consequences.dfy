/** Further promises stated on runs: Leader Append-Only, tolerance of duplicated and reordered
    replication, Leader Completeness, State Machine Safety, and that nothing panics. */
module Consequences {
  import opened Types
  import opened LogSpec
  import opened Kernel
  import opened DiskSpec
  import opened Cluster
  import opened History
  import opened Election
  import opened Uniqueness
  import opened Matching
  import opened Completeness
  import opened Invariant
  import opened Replication
  import opened Protocol
  import opened Theorems

  // ---- Leader Append-Only ------------------------------------------------------------------

  lemma LeaderHolds(conf: Conf, f: Family, run: seq<Step>, j: nat, a: NodeId, t: Term)
    requires ValidConf(conf) && Rank(f) >= 2 && j <= |run| && Leads(At(conf, f, run, j), a, t)
    ensures var h := Past(conf, f, run[..j]).h; t in h.logs && h.logs[t] == At(conf, f, run, j).nodes[a].log
  {
    RunInv(conf, f, run[..j]);
    var w := Past(conf, f, run[..j]);
    assert NodeB(w.h, a, w.c.nodes[a], w.c.disks[a]);
  }

  /** While a node leads a term its log is only ever extended. */
  lemma LeaderAppendOnly(conf: Conf, f: Family, run: seq<Step>, j: nat, k: nat, a: NodeId, t: Term)
    requires ValidConf(conf) && Rank(f) >= 2 && j <= k <= |run|
    requires Leads(At(conf, f, run, j), a, t) && Leads(At(conf, f, run, k), a, t)
    ensures At(conf, f, run, j).nodes[a].log <= At(conf, f, run, k).nodes[a].log
  {
    LeaderHolds(conf, f, run, j, a, t);
    LeaderHolds(conf, f, run, k, a, t);
    RunGrows(conf, f, run, j, k);
  }

  lemma ElectionTerm(n: Node, rt: nat)
    ensures StartRealElection(n, rt).n.term == n.term + 1
  {}

  lemma CommitKeepsTerm(n: Node)
    ensures MaybeAdvance(n).n.term == n.term && MaybeAdvance(n).n.role == n.role
  {}

  lemma AcceptTerm(n: Node, from: NodeId, es: seq<Entry>, leaderCommit: Index)
    ensures Accept(n, from, es, leaderCommit).n.term == n.term
  {}

  lemma ProposeTerm(n: Node, command: Bytes)
    ensures Propose(n, command).n.term == n.term && Propose(n, command).n.role == n.role
  {
    if n.role == Leader { CommitKeepsTerm(AppendCommand(n, command).n); }
  }

  /** A handler never lowers the term, and a leader that stays in its term stays leader, unless it
      hears from another leader of that term. */
  lemma DispatchTerm(n: Node, m: Message, rt: nat)
    requires m.term >= n.term || m.kind.PreVoteMsg() || m.kind.ClientMsg()
    ensures n.term <= Dispatch(n, m, rt).n.term
    ensures n.role == Leader && !m.kind.AppendEntries? && !m.kind.InstallSnapshot? ==>
              Dispatch(n, m, rt).n.role == Leader && Dispatch(n, m, rt).n.term == n.term
  {
    Routed(n, m, rt);
    match m.kind
    case ClientRequest(command) => ProposeTerm(n, command);
    case ClientResponse(_, _) =>
    case PreVote(_, _) =>
    case PreVoteResponse(_) => ElectionTerm(n.(preVotes := n.preVotes + {m.from}), rt);
    case RequestVote(_, _) =>
    case RequestVoteResponse(_) =>
    case AppendEntries(_, _, _, _) => AppendTerm(n, m, rt);
    case AppendEntriesResponse(_, _, _) => CommitKeepsTerm(WithAck(n, m.from, LastIndex(n.log)));
    case InstallSnapshot(_, _, _) =>
    case InstallSnapshotResponse => CommitKeepsTerm(WithAck(n, m.from, FirstIndex(n.log)));
  }

  lemma AppendTerm(n: Node, m: Message, rt: nat)
    requires m.kind.AppendEntries?
    ensures n.term <= HandleAppendEntries(n, m, rt).n.term
  {
    if m.term >= n.term {
      var o := BecomeFollower(n, m.term, Some(m.from), rt);
      if Rejection(o.n.log, m.kind.prevIndex, m.kind.prevTerm).None? {
        AcceptTerm(o.n, m.from, m.kind.entries, m.kind.leaderCommit);
      }
    }
  }

  lemma LeaderCall(n: Node, ev: Event, rt: nat)
    requires n.role == Leader
    requires ev.Recv? && (ev.pkt.msg.kind.AppendEntries? || ev.pkt.msg.kind.InstallSnapshot?) ==>
               ev.pkt.msg.term != n.term
    ensures var r := Handle(n, ev, rt).n; r.term > n.term || (r.term == n.term && r.role == Leader)
  {
    match ev
    case Timer =>
    case Recv(p) =>
      if Bumps(n, p.msg) {
        DispatchTerm(BecomeFollower(n, p.msg.term, None, rt).n, p.msg, rt);
      } else if !Stale(n, p.msg) {
        DispatchTerm(n, p.msg, rt);
      }
    case Submit(command) => ProposeTerm(n, command);
    case Compact(_, _) =>
  }

  /** A leader leaves its term only by crashing, being restarted, or moving to a higher term. */
  lemma LeaderLeaves(conf: Conf, f: Family, run: seq<Step>, a: NodeId, t: Term)
    requires ValidConf(conf) && run != [] && Leads(At(conf, f, run, |run| - 1), a, t)
    ensures var c := State(conf, f, run);
            var s := run[|run| - 1];
            a !in c.nodes || (s.Spawn? && s.i == a) || Leads(c, a, t) || c.nodes[a].term > t
  {
    var w := Past(conf, f, run[..|run| - 1]);
    var s := run[|run| - 1];
    RunInv(conf, f, run[..|run| - 1]);
    if Allowed(conf, f, w.c, s) && s.Call? && s.i == a && !Dies(w.c, s) {
      assert NodeE(conf, w.h, a, w.c.nodes[a], w.c.disks[a]);
      if s.ev.Recv? && s.ev.pkt in w.c.sent { assert MsgE(conf, w.h, w.c.disks, s.ev.pkt.msg); }
      LeaderCall(w.c.nodes[a], s.ev, s.rt);
    }
  }

  // ---- duplicated and reordered replication ------------------------------------------------

  lemma MergeKeeps(h: Hist, n: Node, d: Disk, m: Message, x: Index)
    requires Passes(h, n, d, m) && Agree(n.log, h.logs[m.term], x)
    ensures m.kind.entries != [] ==> FirstIndex(n.log) < m.kind.entries[0].index
    ensures Agree(Merge(n, m.kind.entries).n.log, h.logs[m.term], x)
  {
    var held := HeldPrefix(n.log, m.kind.entries);
    MessageEntries(h, n, d, m);
    if held < |m.kind.entries| {
      MergedAgrees(h, n, d, m);
      MergeAligned(h, n, d, m);
      assert x < m.kind.prevIndex + 1 + held;
    }
  }

  lemma AcceptLog(n: Node, from: NodeId, es: seq<Entry>, leaderCommit: Index)
    ensures Accept(n, from, es, leaderCommit).n.log == Merge(n, es).n.log
  {}

  /** What a delivery of an AppendEntries of the follower's term does to its log. */
  lemma DeliveryAligns(h: Hist, n: Node, d: Disk, m: Message, rt: nat)
    requires m.kind.AppendEntries? && ValidMsg(m) && FromLeader(h, m) && m.term == n.term && d.term == n.term
    requires LogOk(h.logs, n.log) && LogOk(h.logs, h.logs[m.term]) && n.log == d.log
    ensures var r := Receive(n, m, rt).n.log;
            && (forall x | Agree(n.log, h.logs[m.term], x) :: Agree(r, h.logs[m.term], x))
            && (TermAt(n.log, m.kind.prevIndex) == Some(m.kind.prevTerm) ==>
                  Agree(r, h.logs[m.term], m.kind.prevIndex + |m.kind.entries|))
  {
    var o := BecomeFollower(n, m.term, Some(m.from), rt).n;
    if Rejection(o.log, m.kind.prevIndex, m.kind.prevTerm).None? {
      MessageEntries(h, o, d, m);
      AcceptLog(o, m.from, m.kind.entries, m.kind.leaderCommit);
      MergedAgrees(h, o, d, m);
      forall x | Agree(n.log, h.logs[m.term], x) ensures Agree(Merge(o, m.kind.entries).n.log, h.logs[m.term], x) {
        MergeKeeps(h, o, d, m, x);
      }
    }
  }

  /** In runs without compaction, delivering any AppendEntries of a term to a follower in that term, in
      whatever order and however often, never shortens the follower's agreement with the log of the
      term's leader, and an accepted one brings it up to the end of the request. */
  lemma ReplicationTolerant(conf: Conf, f: Family, run: seq<Step>, k: nat, i: NodeId, p: Packet, rt: nat, b: NodeId,
                            x: Index)
    requires ValidConf(conf) && Rank(f) >= 2 && k <= |run|
    requires var c := State(conf, f, run);
             && i in c.nodes && p in c.sent && p.msg.to == i && p.msg.kind.AppendEntries?
                && p.msg.term == c.nodes[i].term
    requires Leads(At(conf, f, run, k), b, p.msg.term)
    ensures ValidMsg(p.msg)
    ensures var n := State(conf, f, run).nodes[i];
            var l := At(conf, f, run, k).nodes[b].log;
            var r := Receive(n, p.msg, rt).n.log;
            && (Agree(n.log, l, x) ==> Agree(r, l, x))
            && (TermAt(n.log, p.msg.kind.prevIndex) == Some(p.msg.kind.prevTerm) ==>
                  x <= p.msg.kind.prevIndex + |p.msg.kind.entries| ==> x < |l| ==> Agree(r, l, x))
  {
    var w := Past(conf, f, run);
    LeaderPrefix(conf, f, run, k, |run|, b, p.msg.term);
    assert run[..|run|] == run;
    PacketInRun(conf, f, run, i, p, rt);
    PrefixAgree(w.c.nodes[i].log, Receive(w.c.nodes[i], p.msg, rt).n.log, At(conf, f, run, k).nodes[b].log,
                w.h.logs[p.msg.term], x, p.msg.kind.prevIndex + |p.msg.kind.entries|);
  }

  lemma PacketInRun(conf: Conf, f: Family, run: seq<Step>, i: NodeId, p: Packet, rt: nat)
    requires ValidConf(conf) && Rank(f) >= 2
    requires var c := State(conf, f, run);
             i in c.nodes && p in c.sent && p.msg.kind.AppendEntries? && p.msg.term == c.nodes[i].term
    ensures ValidMsg(p.msg) && p.msg.term in Past(conf, f, run).h.logs
    ensures var n := State(conf, f, run).nodes[i];
            var full := Past(conf, f, run).h.logs[p.msg.term];
            var r := Receive(n, p.msg, rt).n.log;
            && (forall x | Agree(n.log, full, x) :: Agree(r, full, x))
            && (TermAt(n.log, p.msg.kind.prevIndex) == Some(p.msg.kind.prevTerm) ==>
                  Agree(r, full, p.msg.kind.prevIndex + |p.msg.kind.entries|))
  {
    RunInv(conf, f, run);
    PacketAligned(conf, f, Past(conf, f, run), i, p, rt);
  }

  /** A leader's log, at any time, is a prefix of what history knows of its term later on. */
  lemma LeaderPrefix(conf: Conf, f: Family, run: seq<Step>, k: nat, m: nat, b: NodeId, t: Term)
    requires ValidConf(conf) && Rank(f) >= 2 && k <= m <= |run| && Leads(At(conf, f, run, k), b, t)
    ensures var l := At(conf, f, run, k).nodes[b].log;
            var logs := Past(conf, f, run[..m]).h.logs;
            && t in logs && l <= logs[t] && (forall y | |l| <= y < |logs[t]| :: logs[t][y].term == t)
            && (k == m ==> l == logs[t])
  {
    LeaderHolds(conf, f, run, k, b, t);
    RunGrows(conf, f, run, k, m);
  }

  /** Agreement with a log carries over to its prefixes. */
  lemma PrefixAgree(s: Log, r: Log, l: Log, full: Log, x: Index, e: Index)
    requires l <= full
    requires forall y | Agree(s, full, y) :: Agree(r, full, y)
    ensures Agree(s, l, x) ==> Agree(r, l, x)
    ensures Agree(r, full, e) && x <= e && x < |l| ==> Agree(r, l, x)
  {
    if Agree(s, l, x) { assert Agree(s, full, x); }
  }

  lemma PacketAligned(conf: Conf, f: Family, w: World, i: NodeId, p: Packet, rt: nat)
    requires Inv(conf, f, w) && Rank(f) >= 2 && i in w.c.nodes && p in w.c.sent
    requires p.msg.kind.AppendEntries? && p.msg.term == w.c.nodes[i].term
    ensures ValidMsg(p.msg) && p.msg.term in w.h.logs
    ensures var n := w.c.nodes[i];
            var r := Receive(n, p.msg, rt).n.log;
            && (forall x | Agree(n.log, w.h.logs[p.msg.term], x) :: Agree(r, w.h.logs[p.msg.term], x))
            && (TermAt(n.log, p.msg.kind.prevIndex) == Some(p.msg.kind.prevTerm) ==>
                  Agree(r, w.h.logs[p.msg.term], p.msg.kind.prevIndex + |p.msg.kind.entries|))
  {
    PacketFacts(conf, f, w, i, p);
    DeliveryAligns(w.h, w.c.nodes[i], w.c.disks[i], p.msg, rt);
  }

  lemma PacketFacts(conf: Conf, f: Family, w: World, i: NodeId, p: Packet)
    requires Inv(conf, f, w) && Rank(f) >= 2 && i in w.c.nodes && p in w.c.sent
    requires p.msg.kind.AppendEntries? && p.msg.term == w.c.nodes[i].term
    ensures var n, d := w.c.nodes[i], w.c.disks[i];
            && ValidMsg(p.msg) && FromLeader(w.h, p.msg) && d.term == n.term && n.log == d.log
            && LogOk(w.h.logs, n.log) && LogOk(w.h.logs, w.h.logs[p.msg.term])
  {
    var n, d := w.c.nodes[i], w.c.disks[i];
    assert NodeE(conf, w.h, i, n, d) && NodeB(w.h, i, n, d) && DiskB(w.h, i, d);
    assert MsgB(w.h, p) && MsgS(w.h, p.msg);
    assert LeaderLog(w.h, p.msg.term);
  }

  // ---- Leader Completeness -----------------------------------------------------------------

  /** What any node has committed is in the log of every leader of a later term, whenever that leader
      led, and of every leader of the same term from then on. */
  lemma CommittedInLeaders(conf: Conf, run: seq<Step>, j: nat, k: nat, a: NodeId, b: NodeId, t: Term, x: Index)
    requires ValidConf(conf) && j <= |run| && k <= |run|
    requires a in At(conf, Exact, run, j).nodes && Leads(At(conf, Exact, run, k), b, t)
    requires var n := At(conf, Exact, run, j).nodes[a];
             x <= n.commit && (n.term < t || (n.term == t && j <= k))
    ensures Agree(At(conf, Exact, run, j).nodes[a].log, At(conf, Exact, run, k).nodes[b].log, x)
  {
    var m := if j <= k then k else j;
    LeaderPrefix(conf, Exact, run, k, m, b, t);
    CommittedInHistory(conf, run, j, m, a, t);
    var n, l := At(conf, Exact, run, j).nodes[a], At(conf, Exact, run, k).nodes[b].log;
    LeaderStart(conf, run, k, b);
    HoldsCommitted(n, t, l, Past(conf, Exact, run[..m]).h.logs[t], x);
  }

  /** What node a had committed by step j stays settled. */
  lemma SettledInRun(conf: Conf, run: seq<Step>, j: nat, m: nat, a: NodeId)
    requires ValidConf(conf) && j <= m <= |run| && a in At(conf, Exact, run, j).nodes
    ensures var n := At(conf, Exact, run, j).nodes[a];
            && TermsBelow(n.log, n.term + 1) && n.log[0] == SENTINEL
            && Settled(conf, Past(conf, Exact, run[..m]).h, n.log, n.commit, n.term)
  {
    var w := Past(conf, Exact, run[..j]);
    RunNodeFacts(conf, run[..j], a);
    RunGrows(conf, Exact, run, j, m);
    SettledStays(conf, w.h, Past(conf, Exact, run[..m]).h, w.c.nodes[a].log, w.c.nodes[a].commit, w.c.nodes[a].term);
  }

  /** It is in the history's log of every term from a's on. */
  lemma CommittedInHistory(conf: Conf, run: seq<Step>, j: nat, m: nat, a: NodeId, t: Term)
    requires ValidConf(conf) && j <= m <= |run| && a in At(conf, Exact, run, j).nodes
    requires t in Past(conf, Exact, run[..m]).h.logs && At(conf, Exact, run, j).nodes[a].term <= t
    ensures var n := At(conf, Exact, run, j).nodes[a];
            && TermsBelow(n.log, n.term + 1) && n.log[0] == SENTINEL
            && (n.commit == 0 || Agree(n.log, Past(conf, Exact, run[..m]).h.logs[t], n.commit))
  {
    var n := At(conf, Exact, run, j).nodes[a];
    SettledInRun(conf, run, j, m, a);
    HistoryKept(conf, run[..m]);
    LeaderSettled(conf, Past(conf, Exact, run[..m]).h, n.log, n.commit, n.term, t);
  }

  lemma LeaderStart(conf: Conf, run: seq<Step>, k: nat, b: NodeId)
    requires ValidConf(conf) && k <= |run| && b in At(conf, Exact, run, k).nodes
    ensures At(conf, Exact, run, k).nodes[b].log[0] == SENTINEL
  {
    RunNodeFacts(conf, run[..k], b);
  }

  lemma HistoryKept(conf: Conf, run: seq<Step>)
    requires ValidConf(conf)
    ensures var h := Past(conf, Exact, run).h; HistE(conf, h) && HistB(h)
  {
    RunInv(conf, Exact, run);
  }

  lemma RunNodeFacts(conf: Conf, run: seq<Step>, a: NodeId)
    requires ValidConf(conf) && a in State(conf, Exact, run).nodes
    ensures var w := Past(conf, Exact, run);
            var n := w.c.nodes[a];
            && NodeC(conf, w.h, n) && TermsBelow(n.log, n.term + 1) && n.log[0] == SENTINEL
  {
    RunInv(conf, Exact, run);
    NodeFacts(conf, Past(conf, Exact, run), a);
  }

  lemma NodeFacts(conf: Conf, w: World, a: NodeId)
    requires Inv(conf, Exact, w) && a in w.c.nodes
    ensures var n := w.c.nodes[a];
            NodeC(conf, w.h, n) && TermsBelow(n.log, n.term + 1) && n.log[0] == SENTINEL
  {
    assert NodeE(conf, w.h, a, w.c.nodes[a], w.c.disks[a]) && NodeB(w.h, a, w.c.nodes[a], w.c.disks[a]);
    assert DiskB(w.h, a, w.c.disks[a]);
  }

  lemma HoldsCommitted(n: Node, t: Term, l: Log, full: Log, x: Index)
    requires TermsBelow(n.log, n.term + 1) && n.log[0] == SENTINEL && l[0] == SENTINEL
    requires l <= full && (forall y | |l| <= y < |full| :: full[y].term == t)
    requires x <= n.commit && (n.term < t || l == full)
    requires n.commit == 0 || Agree(n.log, full, n.commit)
    ensures Agree(n.log, l, x)
  {
    if n.commit > 0 {
      assert n.log[x] == full[x];
      assert x < |l|;
    }
  }

  // ---- State Machine Safety ----------------------------------------------------------------

  function BatchesOf(acts: seq<Action>): set<Entry> {
    if acts == [] then {}
    else (if acts[0].Apply? then set e | e in acts[0].entries else {}) + BatchesOf(acts[1..])
  }

  /** The entries a step hands to the state machine of the node that takes it. */
  function AppliedBy(conf: Conf, f: Family, c: Net, s: Step): set<Entry> {
    if !Allowed(conf, f, c, s) || Dies(c, s) then {}
    else match s
      case Call(i, ev, rt) => BatchesOf(Handle(c.nodes[i], ev, rt).acts)
      case Torn(i, ev, rt, done) => BatchesOf(Handle(c.nodes[i], ev, rt).acts[..done])
      case Crash(_) => {}
      case Spawn(_, _) => {}
  }

  lemma {:induction false} BatchesRecorded(w: World, i: NodeId, ack: Index, acts: seq<Action>)
    requires i in w.c.disks
    ensures w.h.applied <= DoAll(w, i, ack, acts).h.applied
    ensures BatchesOf(acts) <= DoAll(w, i, ack, acts).h.applied
    decreases |acts|
  {
    if acts != [] {
      BatchesRecorded(Do(w, i, ack, acts[0]), i, ack, acts[1..]);
    }
  }

  lemma AppliedRecorded(conf: Conf, f: Family, w: World, s: Step)
    requires Allowed(conf, f, w.c, s)
    ensures AppliedBy(conf, f, w.c, s) <= Advance(conf, w, s).h.applied
  {
    if !Dies(w.c, s) {
      match s
      case Call(i, ev, rt) => BatchesRecorded(w, i, AckOf(ev), Handle(w.c.nodes[i], ev, rt).acts);
      case Torn(i, ev, rt, done) => BatchesRecorded(w, i, AckOf(ev), Handle(w.c.nodes[i], ev, rt).acts[..done]);
      case Crash(_) =>
      case Spawn(_, _) =>
    }
  }

  lemma StepRecorded(conf: Conf, f: Family, run: seq<Step>, j: nat)
    requires ValidConf(conf) && j < |run|
    ensures AppliedBy(conf, f, At(conf, f, run, j), run[j]) <= Past(conf, f, run).h.applied
  {
    var w := Past(conf, f, run[..j]);
    assert run[..j + 1][..j] == run[..j];
    assert run[..|run|] == run;
    RunGrows(conf, f, run, j + 1, |run|);
    if Allowed(conf, f, w.c, run[j]) {
      AppliedRecorded(conf, f, w, run[j]);
      assert Past(conf, f, run[..j + 1]) == Advance(conf, w, run[j]);
    }
  }

  /** Two entries applied at the same index, by whichever nodes and incarnations, are the same entry. */
  lemma StateMachineSafety(conf: Conf, run: seq<Step>, j: nat, k: nat, a: Entry, b: Entry)
    requires ValidConf(conf) && j < |run| && k < |run|
    requires a in AppliedBy(conf, Exact, At(conf, Exact, run, j), run[j])
    requires b in AppliedBy(conf, Exact, At(conf, Exact, run, k), run[k])
    requires a.index == b.index
    ensures a == b
  {
    var w := Past(conf, Exact, run);
    StepRecorded(conf, Exact, run, j);
    StepRecorded(conf, Exact, run, k);
    RunInv(conf, Exact, run);
    assert SettledEntry(conf, w.h, a) && SettledEntry(conf, w.h, b);
    SettledEntriesAgree(conf, w.h, a, b);
  }

  // ---- the commit clip ---------------------------------------------------------------------

  /** No AppendEntries carries a commit index beyond its own end, so clipping by the follower's last
      index never commits an entry the message did not check. */
  lemma CommitClipSound(conf: Conf, run: seq<Step>, p: Packet)
    requires ValidConf(conf) && p in State(conf, Exact, run).sent && p.msg.kind.AppendEntries?
    ensures p.msg.kind.leaderCommit <= p.msg.kind.prevIndex + |p.msg.kind.entries|
  {
    RunInv(conf, Exact, run);
    ClipInWorld(conf, Past(conf, Exact, run), p);
  }

  lemma ClipInWorld(conf: Conf, w: World, p: Packet)
    requires Inv(conf, Exact, w) && p in w.c.sent && p.msg.kind.AppendEntries?
    ensures p.msg.kind.leaderCommit <= p.msg.kind.prevIndex + |p.msg.kind.entries|
  {
    assert MsgC(conf, w.h, p.msg);
  }

  // ---- no panics ---------------------------------------------------------------------------

  /** In runs that compact sanely every message in flight is one `step` can handle. */
  lemma MessagesValid(conf: Conf, f: Family, run: seq<Step>, p: Packet)
    requires ValidConf(conf) && Rank(f) >= 1 && p in State(conf, f, run).sent
    ensures ValidMsg(p.msg)
  {
    RunInv(conf, f, run);
    assert MsgS(Past(conf, f, run).h, p.msg);
  }

  lemma ValidNeverAborts(n: Node, m: Message)
    requires ValidMsg(m)
    ensures !Aborts(n, m)
  {
    if Aborts(n, m) { AttachConsecutive(n.log, m.kind.entries); }
  }

  /** In runs that compact sanely no call makes the log's own assertion fail. */
  lemma CallNeverPanics(conf: Conf, f: Family, run: seq<Step>, i: NodeId, ev: Event, rt: nat)
    requires ValidConf(conf) && Rank(f) >= 1 && Callable(conf, State(conf, f, run), i, ev, rt)
    ensures !Fatal(State(conf, f, run).nodes[i], ev)
  {
    if ev.Recv? && ev.pkt.msg.kind.AppendEntries? {
      MessagesValid(conf, f, run, ev.pkt);
      ValidNeverAborts(State(conf, f, run).nodes[i], ev.pkt.msg);
    }
  }

  lemma JustifiedDoesNotPanic(h: Hist, d: Disk, a: Action)
    requires DiskS(h, d) && JustS(h, d, a)
    ensures !Panics(d, a)
  {
    WriteResult(h, d, a);
  }

  lemma {:induction false} ActionsDoNotPanic(conf: Conf, f: Family, w: World, i: NodeId, ack: Index,
                                             acts: seq<Action>, k: nat)
    requires Inv(conf, f, w) && Rank(f) >= 1 && i in conf.ids && i !in w.c.nodes
             && AllJust(conf, f, w, i, ack, acts) && k < |acts|
    ensures !Panics(ActAll(w.c, i, ack, acts[..k]).disks[i], acts[k])
    decreases |acts|
  {
    KeepAll(conf, f, w, i, ack, acts, k);
    AllJustAt(conf, f, w, i, ack, acts, k);
    var v := DoAll(w, i, ack, acts[..k]);
    JustifiedDoesNotPanic(v.h, v.c.disks[i], acts[k]);
  }

  lemma {:induction false} AllJustAt(conf: Conf, f: Family, w: World, i: NodeId, ack: Index, acts: seq<Action>, k: nat)
    requires i in w.c.disks && AllJust(conf, f, w, i, ack, acts) && k < |acts|
    ensures Just(conf, f, DoAll(w, i, ack, acts[..k]), i, ack, acts[k])
    decreases |acts|
  {
    if k > 0 {
      AllJustAt(conf, f, Do(w, i, ack, acts[0]), i, ack, acts[1..], k - 1);
      assert acts[..k][1..] == acts[1..][..k - 1];
    }
  }

  /** In runs that compact sanely the disk's contiguity panic is unreachable. */
  lemma DiskNeverPanics(conf: Conf, f: Family, run: seq<Step>, i: NodeId, ev: Event, rt: nat, k: nat)
    requires ValidConf(conf) && Rank(f) >= 1
    requires Callable(conf, State(conf, f, run), i, ev, rt) && Admits(f, State(conf, f, run).nodes[i], ev)
    requires k < |Handle(State(conf, f, run).nodes[i], ev, rt).acts|
    ensures var c := State(conf, f, run);
            var acts := Handle(c.nodes[i], ev, rt).acts;
            !Panics(ActAll(c, i, AckOf(ev), acts[..k]).disks[i], acts[k])
  {
    var w := Past(conf, f, run);
    var acts := Handle(w.c.nodes[i], ev, rt).acts;
    RunInv(conf, f, run);
    CallGood(conf, f, w, i, ev, rt);
    var v := w.(c := w.c.(nodes := w.c.nodes - {i}));
    ActionsDoNotPanic(conf, f, v, i, AckOf(ev), acts, k);
    DoAllIgnoresNodes(w, i, AckOf(ev), acts[..k], v.c.nodes);
  }
}
