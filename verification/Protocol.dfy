/** From handlers to whole calls, steps and runs: the invariant holds throughout every run. */
module Protocol {
  import opened Types
  import opened LogSpec
  import opened Kernel
  import opened DiskSpec
  import opened Cluster
  import opened History
  import opened Election
  import opened Uniqueness
  import opened Matching
  import opened Completeness
  import opened Invariant
  import opened Handlers
  import opened Replication

  /** What the invariant says of a packet, apart from its sender's disk. */
  ghost predicate Known(conf: Conf, f: Family, h: Hist, p: Packet) {
    var m := p.msg;
    && m.from in conf.ids && (!m.kind.ClientMsg() ==> m.to != m.from) && !m.kind.ClientRequest?
    && (m.kind.RequestVoteResponse? && m.kind.granted ==> Cast(h, m.term, m.from, m.to))
    && (Rank(f) >= 1 ==> MsgS(h, m))
    && (Rank(f) >= 2 ==> MsgB(h, p))
    && (Rank(f) >= 3 ==> MsgC(conf, h, m))
  }

  lemma LookUp(conf: Conf, f: Family, w: World, p: Packet)
    requires Inv(conf, f, w) && p in w.c.sent
    ensures Known(conf, f, w.h, p)
  {
    assert MsgE(conf, w.h, w.c.disks, p.msg);
  }

  // ---- elections ---------------------------------------------------------------------------

  lemma RealElectionGood(conf: Conf, f: Family, w: World, i: NodeId, n: Node, ack: Index, rt: nat)
    requires Ready(conf, f, w, i, n)
    ensures Good(conf, f, w, i, ack, StartRealElection(n, rt))
  {
    var o := Campaign(n, rt);
    CampaignGood(conf, f, w, i, n, ack, rt);
    if n.peers == [] {
      ReadyAfter(conf, f, w, i, n, ack, o);
      LeaderGood(conf, f, DoAll(w, i, ack, o.acts), i, o.n, ack);
      Then(conf, f, w, i, ack, o, BecomeLeader(o.n));
    }
  }

  lemma PreVoteGood(conf: Conf, f: Family, w: World, i: NodeId, n: Node, ack: Index, rt: nat)
    requires Ready(conf, f, w, i, n)
    ensures Good(conf, f, w, i, ack, StartPreVote(n, rt))
  {
    var o := Canvass(n, rt);
    CanvassGood(conf, f, w, i, n, ack, rt);
    if n.peers == [] {
      ReadyAfter(conf, f, w, i, n, ack, o);
      RealElectionGood(conf, f, DoAll(w, i, ack, o.acts), i, o.n, ack, rt);
      Then(conf, f, w, i, ack, o, StartRealElection(o.n, rt));
    }
  }

  lemma HeartbeatGood(conf: Conf, f: Family, w: World, i: NodeId, n: Node, ack: Index, k: nat)
    requires Ready(conf, f, w, i, n) && n.role == Leader
    ensures var m := n.(heartbeatElapsed := k);
            Good(conf, f, w, i, ack, Out(m, [])) && Good(conf, f, w, i, ack, Out(m, Broadcast(m)))
  {
    var m := n.(heartbeatElapsed := k);
    Quiet(conf, f, w, i, n, ack, m);
    BroadcastGood(conf, f, w, i, m, ack);
  }

  lemma ElapseGood(conf: Conf, f: Family, w: World, i: NodeId, n: Node, ack: Index, k: nat, rt: nat)
    requires Ready(conf, f, w, i, n)
    ensures var m := n.(elapsed := k);
            Good(conf, f, w, i, ack, Out(m, [])) && Good(conf, f, w, i, ack, StartPreVote(m, rt))
  {
    var m := n.(elapsed := k);
    Quiet(conf, f, w, i, n, ack, m);
    PreVoteGood(conf, f, w, i, m, ack, rt);
  }

  lemma TickShape(n: Node, rt: nat)
    ensures n.role == Leader ==>
              var beat := if n.heartbeatElapsed + 1 >= n.heartbeat then 0 else n.heartbeatElapsed + 1;
              var m := n.(heartbeatElapsed := beat);
              Tick(n, rt) == Out(m, []) || Tick(n, rt) == Out(m, Broadcast(m))
    ensures n.role != Leader ==>
              var m := n.(elapsed := if n.elapsed + 1 >= n.timeout then 0 else n.elapsed + 1);
              Tick(n, rt) == Out(m, []) || Tick(n, rt) == StartPreVote(m, rt)
  {}

  lemma TickGood(conf: Conf, f: Family, w: World, i: NodeId, n: Node, ack: Index, rt: nat)
    requires Ready(conf, f, w, i, n)
    ensures Good(conf, f, w, i, ack, Tick(n, rt))
  {
    TickShape(n, rt);
    if n.role == Leader {
      HeartbeatGood(conf, f, w, i, n, ack, if n.heartbeatElapsed + 1 >= n.heartbeat then 0 else n.heartbeatElapsed + 1);
    } else {
      ElapseGood(conf, f, w, i, n, ack, if n.elapsed + 1 >= n.timeout then 0 else n.elapsed + 1, rt);
    }
  }

  lemma PreVoteResponseGood(conf: Conf, f: Family, w: World, i: NodeId, n: Node, ack: Index, from: NodeId,
                            term: Term, granted: bool, rt: nat)
    requires Ready(conf, f, w, i, n)
    ensures Good(conf, f, w, i, ack, HandlePreVoteResponse(n, from, term, granted, rt))
  {
    var m := n.(preVotes := n.preVotes + {from});
    Quiet(conf, f, w, i, n, ack, n);
    Quiet(conf, f, w, i, n, ack, m);
    RealElectionGood(conf, f, w, i, m, ack, rt);
  }

  lemma VoteShape(n: Node, m: Node, from: NodeId, index: Index, term: Term)
    requires m == n.(voted := Some(from), elapsed := 0)
    ensures var o := HandleRequestVote(n, from, index, term);
            || o == Out(n, [Reply(n, from, RequestVoteResponse(false))])
            || (&& (n.voted == None || n.voted == Some(from)) && UpToDate(n.log, index, term)
                && o == Out(m, [PersistHardState(n.term, Some(from))] + [Reply(m, from, RequestVoteResponse(true))]))
  {}

  lemma RequestVoteGood(conf: Conf, f: Family, w: World, i: NodeId, n: Node, ack: Index, p: Packet)
    requires Ready(conf, f, w, i, n) && Known(conf, f, w.h, p) && p.msg.to == i
    requires p.msg.kind.RequestVote? && p.msg.term == n.term
    ensures Good(conf, f, w, i, ack, HandleRequestVote(n, p.msg.from, p.msg.kind.lastIndex, p.msg.kind.lastTerm))
  {
    var from := p.msg.from;
    var m := n.(voted := Some(from), elapsed := 0);
    var o := HandleRequestVote(n, from, p.msg.kind.lastIndex, p.msg.kind.lastTerm);
    VoteShape(n, m, from, p.msg.kind.lastIndex, p.msg.kind.lastTerm);
    if o == Out(n, [Reply(n, from, RequestVoteResponse(false))]) {
      ReplyGood(conf, f, w, i, n, ack, from, RequestVoteResponse(false));
    } else {
      GrantGood(conf, f, w, i, n, ack, from, m);
    }
  }

  lemma CountVote(conf: Conf, f: Family, h: Hist, i: NodeId, n: Node, d: Disk, from: NodeId)
    requires NodeOk(conf, f, h, i, n, d) && n.role == Candidate && from in conf.ids && Cast(h, n.term, from, i)
    ensures NodeOk(conf, f, h, i, n.(votes := n.votes + {from}), d)
  {
    if Rank(f) >= 3 { assert NodeC(conf, h, n.(votes := n.votes + {from})); }
  }

  lemma VoteResponseGood(conf: Conf, f: Family, w: World, i: NodeId, n: Node, ack: Index, p: Packet)
    requires Ready(conf, f, w, i, n) && Known(conf, f, w.h, p) && p.msg.to == i && p.msg.kind.RequestVoteResponse?
    ensures Good(conf, f, w, i, ack, HandleRequestVoteResponse(n, p.msg.from, p.msg.term, p.msg.kind.granted))
  {
    if n.role == Candidate && p.msg.term == n.term && p.msg.kind.granted {
      var m := n.(votes := n.votes + {p.msg.from});
      CountVote(conf, f, w.h, i, n, w.c.disks[i], p.msg.from);
      if |m.votes| >= Majority(m) {
        LeaderGood(conf, f, w, i, m, ack);
      } else {
        NoStep(conf, f, w, i, ack, Out(m, []));
      }
    } else {
      Quiet(conf, f, w, i, n, ack, n);
    }
  }

  // ---- AppendEntries -----------------------------------------------------------------------

  lemma MergeReady(conf: Conf, f: Family, w: World, i: NodeId, n: Node, ack: Index, m: Message)
    requires Ready(conf, f, w, i, n) && KnownAppend(conf, f, w.h, m) && n.term == m.term && n.role == Follower
    requires Rejection(n.log, m.kind.prevIndex, m.kind.prevTerm).None?
    ensures var a := Merge(n, m.kind.entries);
            var v := DoAll(w, i, ack, a.acts);
            && Good(conf, f, w, i, ack, a) && Ready(conf, f, v, i, a.n) && v.h == w.h
            && a.n.term == n.term && a.n.role == n.role
            && (Rank(f) >= 2 ==> Agree(a.n.log, w.h.logs[m.term], m.kind.prevIndex + |m.kind.entries|))
  {
    MergeGood(conf, f, w, i, n, ack, m);
    MergeShape(n, m.kind.entries);
    ReadyAfter(conf, f, w, i, n, ack, Merge(n, m.kind.entries));
    if Rank(f) >= 2 {
      ReadyPasses(conf, f, w, i, n, m);
      MergedAgrees(w.h, n, w.c.disks[i], m);
    }
  }

  lemma AcceptShape(n: Node, from: NodeId, es: seq<Entry>, leaderCommit: Index)
    ensures var a := Merge(n, es);
            var b := FollowLeaderCommit(a.n, leaderCommit);
            var reply := Reply(b.n, from, AppendEntriesResponse(true, None, None));
            Accept(n, from, es, leaderCommit) == Out(b.n, a.acts + (b.acts + [reply]))
  {}

  lemma AcceptGood(conf: Conf, f: Family, w: World, i: NodeId, n: Node, ack: Index, m: Message)
    requires Ready(conf, f, w, i, n) && KnownAppend(conf, f, w.h, m) && n.term == m.term && n.role == Follower
             && m.from != i
    requires Rejection(n.log, m.kind.prevIndex, m.kind.prevTerm).None? && ack == m.kind.prevIndex + |m.kind.entries|
    ensures Good(conf, f, w, i, ack, Accept(n, m.from, m.kind.entries, m.kind.leaderCommit))
  {
    MergeReady(conf, f, w, i, n, ack, m);
    var a := Merge(n, m.kind.entries);
    CommitAndAckGood(conf, f, DoAll(w, i, ack, a.acts), i, a.n, ack, m);
    var b := FollowLeaderCommit(a.n, m.kind.leaderCommit);
    Then(conf, f, w, i, ack, a, Out(b.n, b.acts + [Reply(b.n, m.from, AppendEntriesResponse(true, None, None))]));
    AcceptShape(n, m.from, m.kind.entries, m.kind.leaderCommit);
  }

  lemma MergeShape(n: Node, es: seq<Entry>)
    ensures Merge(n, es).n.term == n.term && Merge(n, es).n.role == n.role
  {}

  lemma FollowShape(n: Node, k: Index)
    ensures var o := FollowLeaderCommit(n, k); o.n.term == n.term && o.n.role == n.role && o.n.log == n.log
  {}

  lemma CommitAndAckGood(conf: Conf, f: Family, w: World, i: NodeId, n: Node, ack: Index, m: Message)
    requires Ready(conf, f, w, i, n) && KnownAppend(conf, f, w.h, m) && n.term == m.term && n.role == Follower
             && m.from != i
    requires ack == m.kind.prevIndex + |m.kind.entries|
    requires Rank(f) >= 2 ==> Agree(n.log, w.h.logs[m.term], ack)
    ensures var b := FollowLeaderCommit(n, m.kind.leaderCommit);
            Good(conf, f, w, i, ack, Out(b.n, b.acts + [Reply(b.n, m.from, AppendEntriesResponse(true, None, None))]))
  {
    var b := FollowLeaderCommit(n, m.kind.leaderCommit);
    FollowGood(conf, f, w, i, n, ack, m);
    FollowShape(n, m.kind.leaderCommit);
    ReadyAfter(conf, f, w, i, n, ack, b);
    AckGood(conf, f, DoAll(w, i, ack, b.acts), i, b.n, ack, m.from);
    Then(conf, f, w, i, ack, b, Out(b.n, [Reply(b.n, m.from, AppendEntriesResponse(true, None, None))]));
  }

  /** A rejection points inside the leader's log. */
  lemma RejectionKnown(conf: Conf, f: Family, h: Hist, n: Node, m: Message, kind: Kind)
    requires KnownAppend(conf, f, h, m) && n.term == m.term
    requires Rejection(n.log, m.kind.prevIndex, m.kind.prevTerm) == Some(kind)
    requires Rank(f) >= 2 ==> LastIndex(n.log) == |n.log| - 1 && FirstIndex(n.log) == 0
    ensures kind.AppendEntriesResponse? && !kind.success
    ensures Rank(f) >= 2 ==> kind.conflictIndex.Some? && n.term in h.logs && kind.conflictIndex.value < |h.logs[n.term]|
  {}

  lemma RejectJust(conf: Conf, f: Family, w: World, i: NodeId, n: Node, ack: Index, to: NodeId, kind: Kind)
    requires i in conf.ids && i in w.c.disks && NodeOk(conf, f, w.h, i, n, w.c.disks[i]) && to != i
    requires kind.AppendEntriesResponse? && !kind.success
    requires Rank(f) >= 2 ==>
               kind.conflictIndex.Some? && n.term in w.h.logs && kind.conflictIndex.value < |w.h.logs[n.term]|
    ensures Just(conf, f, w, i, ack, Reply(n, to, kind))
  {}

  lemma RejectSend(conf: Conf, f: Family, w: World, i: NodeId, n: Node, ack: Index, to: NodeId, kind: Kind)
    requires Ready(conf, f, w, i, n) && to != i && kind.AppendEntriesResponse? && !kind.success
    requires Rank(f) >= 2 ==>
               kind.conflictIndex.Some? && n.term in w.h.logs && kind.conflictIndex.value < |w.h.logs[n.term]|
    ensures Good(conf, f, w, i, ack, Out(n, [Reply(n, to, kind)]))
  {
    RejectJust(conf, f, w, i, n, ack, to, kind);
    EndWithSends(conf, f, w, i, n, ack, [Reply(n, to, kind)]);
  }

  lemma RejectGood(conf: Conf, f: Family, w: World, i: NodeId, n: Node, ack: Index, m: Message, kind: Kind)
    requires Ready(conf, f, w, i, n) && KnownAppend(conf, f, w.h, m) && n.term == m.term && m.from != i
    requires Rejection(n.log, m.kind.prevIndex, m.kind.prevTerm) == Some(kind)
    ensures Good(conf, f, w, i, ack, Out(n, [Reply(n, m.from, kind)]))
  {
    if Rank(f) >= 2 { LogLength(conf, f, w, i, n); }
    RejectionKnown(conf, f, w.h, n, m, kind);
    RejectSend(conf, f, w, i, n, ack, m.from, kind);
  }

  lemma FollowerHist(w: World, i: NodeId, n: Node, ack: Index, t: Term, leader: Option<NodeId>, rt: nat)
    requires i in w.c.disks
    ensures DoAll(w, i, ack, BecomeFollower(n, t, leader, rt).acts).h == w.h
  {
    var acts := BecomeFollower(n, t, leader, rt).acts;
    if acts != [] {
      assert acts[1..] == [];
      assert Do(w, i, ack, acts[0]).h == w.h;
    }
  }

  /** What a follower in the message's term does with an AppendEntries. */
  function Answer(n: Node, m: Message): Out
    requires m.kind.AppendEntries?
  {
    var r := Rejection(n.log, m.kind.prevIndex, m.kind.prevTerm);
    if r.Some? then Out(n, [Reply(n, m.from, r.value)]) else Accept(n, m.from, m.kind.entries, m.kind.leaderCommit)
  }

  lemma AnswerShape(n: Node, m: Message, rt: nat)
    requires m.kind.AppendEntries? && m.term >= n.term
    ensures var o := BecomeFollower(n, m.term, Some(m.from), rt);
            HandleAppendEntries(n, m, rt) == Out(Answer(o.n, m).n, o.acts + Answer(o.n, m).acts)
  {}

  lemma AppendGood(conf: Conf, f: Family, w: World, i: NodeId, n: Node, ack: Index, p: Packet, rt: nat)
    requires Ready(conf, f, w, i, n) && Known(conf, f, w.h, p) && p.msg.to == i
    requires p.msg.kind.AppendEntries? && p.msg.term == n.term && ack == p.msg.kind.prevIndex + |p.msg.kind.entries|
    ensures Good(conf, f, w, i, ack, HandleAppendEntries(n, p.msg, rt))
  {
    var m := p.msg;
    var o := BecomeFollower(n, m.term, Some(m.from), rt);
    FollowerGood(conf, f, w, i, n, ack, m.term, Some(m.from), rt);
    FollowerHist(w, i, n, ack, m.term, Some(m.from), rt);
    ReadyAfter(conf, f, w, i, n, ack, o);
    AnswerShape(n, m, rt);
    AppendRest(conf, f, DoAll(w, i, ack, o.acts), i, o.n, ack, p);
    Then(conf, f, w, i, ack, o, Answer(o.n, m));
  }

  lemma AppendRest(conf: Conf, f: Family, w: World, i: NodeId, n: Node, ack: Index, p: Packet)
    requires Ready(conf, f, w, i, n) && Known(conf, f, w.h, p) && p.msg.to == i && n.role == Follower
    requires p.msg.kind.AppendEntries? && p.msg.term == n.term && ack == p.msg.kind.prevIndex + |p.msg.kind.entries|
    ensures Good(conf, f, w, i, ack, Answer(n, p.msg))
  {
    match Rejection(n.log, p.msg.kind.prevIndex, p.msg.kind.prevTerm)
    case Some(kind) => RejectGood(conf, f, w, i, n, ack, p.msg, kind);
    case None => AcceptGood(conf, f, w, i, n, ack, p.msg);
  }

  // ---- the leader's side -------------------------------------------------------------------

  ghost function Supporters(matched: map<NodeId, Index>, s: set<NodeId>, k: Index): set<NodeId> {
    set p | p in s && MatchAt(matched, p) >= k
  }

  /** The kernel's count is the number of peers whose record reaches k. */
  lemma {:induction false} SupportSet(matched: map<NodeId, Index>, peers: seq<NodeId>, k: Index)
    requires forall a, b | 0 <= a < b < |peers| :: peers[a] != peers[b]
    ensures PeerSupport(matched, peers, k) == |Supporters(matched, Members(peers), k)|
  {
    var all := Supporters(matched, Members(peers), k);
    if peers == [] {
      assert all == {};
    } else {
      SupportSet(matched, peers[1..], k);
      var rest := Supporters(matched, Members(peers[1..]), k);
      assert peers[0] !in peers[1..];
      assert Members(peers) == {peers[0]} + Members(peers[1..]);
      if MatchAt(matched, peers[0]) >= k {
        assert all == {peers[0]} + rest;
      } else {
        assert all == rest;
      }
    }
  }

  lemma SupportersAcked(conf: Conf, h: Hist, n: Node, k: Index)
    requires NodeC(conf, h, n) && n.role == Leader && 1 <= k
    ensures forall p | p in Supporters(n.matched, Members(n.peers), k) :: Acked(h, p, n.term, k)
  {
    forall p | p in Supporters(n.matched, Members(n.peers), k) ensures Acked(h, p, n.term, k) {
      var e :| (p, n.term, e) in h.acks && n.matched[p] <= e;
    }
  }

  lemma AckedLower(h: Hist, j: NodeId, t: Term, n: Index, k: Index)
    requires Acked(h, j, t, n) && k <= n
    ensures Acked(h, j, t, k)
  {
    var e :| (j, t, e) in h.acks && n <= e;
    assert (j, t, e) in h.acks && k <= e;
  }

  lemma CountedMajority(conf: Conf, h: Hist, i: NodeId, n: Node, k: Index)
    requires ValidConf(conf) && i in conf.ids && n.peers == conf.peers[i] && NodeC(conf, h, n)
             && n.role == Leader && 1 <= k
    requires 1 + PeerSupport(n.matched, n.peers, k) >= Majority(n) && Acked(h, i, n.term, k)
    ensures MajoritySet(conf, Ackers(conf, h, n.term, k))
  {
    var q := Supporters(n.matched, Members(n.peers), k);
    PeerCount(conf, i);
    SupportSet(n.matched, n.peers, k);
    SupportersAcked(conf, h, n, k);
    SubsetSize(q + {i}, Ackers(conf, h, n.term, k));
    assert i !in q;
  }

  /** Counting acknowledgements that were really given commits only what a majority holds. */
  lemma CountedCommitted(conf: Conf, h: Hist, i: NodeId, n: Node, d: Disk, k: Index)
    requires ValidConf(conf) && i in conf.ids && NodeE(conf, h, i, n, d) && NodeB(h, i, n, d) && NodeC(conf, h, n)
    requires n.role == Leader && Committable(n, k) && 1 <= k && FirstIndex(n.log) == 0
    ensures Committed(conf, h, n.term, k) && Agree(n.log, LogOf(h, n.term), k)
  {
    AckedLower(h, i, n.term, |n.log| - 1, k);
    CountedMajority(conf, h, i, n, k);
  }

  lemma CommitSettles(conf: Conf, h: Hist, n: Node, k: Index)
    requires Committed(conf, h, n.term, k) && Agree(n.log, LogOf(h, n.term), k)
    ensures Settled(conf, h, n.log, k, n.term)
  {}

  lemma NewCommitShape(n: Node)
    ensures NewCommit(n) > n.commit ==> Committable(n, NewCommit(n)) && 1 <= NewCommit(n)
  {}

  lemma NewCommitSettled(conf: Conf, f: Family, h: Hist, i: NodeId, n: Node, d: Disk)
    requires ValidConf(conf) && i in conf.ids && NodeOk(conf, f, h, i, n, d) && Rank(f) >= 3 && FirstIndex(n.log) == 0
    requires n.role == Leader && NewCommit(n) > n.commit
    ensures Settled(conf, h, n.log, NewCommit(n), n.term)
  {
    NewCommitShape(n);
    CountedCommitted(conf, h, i, n, d, NewCommit(n));
    CommitSettles(conf, h, n, NewCommit(n));
  }

  lemma MaybeAdvanceGood(conf: Conf, f: Family, w: World, i: NodeId, n: Node, ack: Index)
    requires Ready(conf, f, w, i, n) && n.role == Leader
    ensures Good(conf, f, w, i, ack, MaybeAdvance(n))
  {
    if Rank(f) >= 3 && NewCommit(n) > n.commit {
      LogLength(conf, f, w, i, n);
      NewCommitSettled(conf, f, w.h, i, n, w.c.disks[i]);
    }
    AdvanceGood(conf, f, w, i, n, ack, NewCommit(n));
  }

  /** Recording an acknowledgement that was really given. */
  lemma RecordAck(conf: Conf, f: Family, h: Hist, i: NodeId, n: Node, d: Disk, from: NodeId, k: Index)
    requires NodeOk(conf, f, h, i, n, d) && n.role == Leader
    requires Rank(f) >= 2 ==> k < |n.log|
    requires Rank(f) >= 3 && k > 0 ==> Acked(h, from, n.term, k)
    ensures NodeOk(conf, f, h, i, WithAck(n, from, k), d)
  {
    if Rank(f) >= 2 { assert NodeB(h, i, WithAck(n, from, k), d); }
    if Rank(f) >= 3 { assert NodeC(conf, h, WithAck(n, from, k)); }
  }

  lemma RecordNext(conf: Conf, f: Family, h: Hist, i: NodeId, n: Node, d: Disk, from: NodeId, next: Index)
    requires NodeOk(conf, f, h, i, n, d) && n.role == Leader
    requires Rank(f) >= 2 ==> 1 <= next <= |n.log|
    ensures NodeOk(conf, f, h, i, n.(next := n.next[from := next]), d)
  {
    var m := n.(next := n.next[from := next]);
    if Rank(f) >= 2 { assert NodeB(h, i, m, d); }
    if Rank(f) >= 3 { assert NodeC(conf, h, m); }
  }

  lemma BacktrackRange(s: Log, next: Index, ct: Option<Term>, ci: Option<Index>)
    requires LastIndex(s) == |s| - 1 && ci.Some? && ci.value < |s|
    ensures 1 <= Backtrack(s, next, ct, ci) <= |s|
  {}

  lemma AckKnown(conf: Conf, f: Family, h: Hist, p: Packet)
    requires Known(conf, f, h, p) && p.msg.kind.AppendEntriesResponse? && Rank(f) >= 2
    ensures p.msg.kind.success ==> Acked(h, p.msg.from, p.msg.term, p.ack)
    ensures !p.msg.kind.success ==>
              p.msg.kind.conflictIndex.Some? && p.msg.term in h.logs
                && p.msg.kind.conflictIndex.value < |h.logs[p.msg.term]|
  {}

  lemma Recorded(conf: Conf, f: Family, w: World, i: NodeId, n: Node, p: Packet)
    requires Ready(conf, f, w, i, n) && Known(conf, f, w.h, p) && p.msg.kind.AppendEntriesResponse?
             && p.msg.kind.success
    requires n.role == Leader && p.msg.term == n.term && (Rank(f) == 3 ==> LastIndex(n.log) == p.ack)
    ensures Ready(conf, f, w, i, WithAck(n, p.msg.from, LastIndex(n.log)))
            && WithAck(n, p.msg.from, LastIndex(n.log)).role == Leader
  {
    if Rank(f) >= 2 {
      LogLength(conf, f, w, i, n);
      AckKnown(conf, f, w.h, p);
    }
    RecordAck(conf, f, w.h, i, n, w.c.disks[i], p.msg.from, LastIndex(n.log));
  }

  lemma AckReceivedGood(conf: Conf, f: Family, w: World, i: NodeId, n: Node, ack: Index, p: Packet)
    requires Ready(conf, f, w, i, n) && Known(conf, f, w.h, p) && p.msg.kind.AppendEntriesResponse?
             && p.msg.kind.success
    requires n.role == Leader && p.msg.term == n.term && (Rank(f) == 3 ==> LastIndex(n.log) == p.ack)
    ensures Good(conf, f, w, i, ack, HandleAppendEntriesResponse(n, p.msg))
  {
    Recorded(conf, f, w, i, n, p);
    MaybeAdvanceGood(conf, f, w, i, WithAck(n, p.msg.from, LastIndex(n.log)), ack);
  }

  lemma BacktrackKnown(conf: Conf, f: Family, w: World, i: NodeId, n: Node, p: Packet)
    requires Ready(conf, f, w, i, n) && Known(conf, f, w.h, p) && p.msg.kind.AppendEntriesResponse?
             && !p.msg.kind.success
    requires n.role == Leader && p.msg.term == n.term
    ensures var next := Backtrack(n.log, NextFor(n, p.msg.from), p.msg.kind.conflictTerm, p.msg.kind.conflictIndex);
            var m := n.(next := n.next[p.msg.from := next]);
            Ready(conf, f, w, i, m) && m.role == Leader
  {
    var from := p.msg.from;
    var next := Backtrack(n.log, NextFor(n, from), p.msg.kind.conflictTerm, p.msg.kind.conflictIndex);
    if Rank(f) >= 2 {
      LogLength(conf, f, w, i, n);
      AckKnown(conf, f, w.h, p);
      BacktrackRange(n.log, NextFor(n, from), p.msg.kind.conflictTerm, p.msg.kind.conflictIndex);
    }
    RecordNext(conf, f, w.h, i, n, w.c.disks[i], from, next);
  }

  lemma ReplicateOne(conf: Conf, f: Family, w: World, i: NodeId, n: Node, ack: Index, to: NodeId)
    requires Ready(conf, f, w, i, n) && n.role == Leader && to != i
    ensures Good(conf, f, w, i, ack, Out(n, [Replicate(n, to)]))
  {
    ReplicateJust(conf, f, w, i, n, to, ack);
    EndWithSend(conf, f, w, i, n, ack, Replicate(n, to));
  }

  lemma NackReceivedGood(conf: Conf, f: Family, w: World, i: NodeId, n: Node, ack: Index, p: Packet)
    requires Ready(conf, f, w, i, n) && Known(conf, f, w.h, p) && p.msg.kind.AppendEntriesResponse?
             && !p.msg.kind.success
    requires n.role == Leader && p.msg.term == n.term && p.msg.to == i
    ensures Good(conf, f, w, i, ack, HandleAppendEntriesResponse(n, p.msg))
  {
    var next := Backtrack(n.log, NextFor(n, p.msg.from), p.msg.kind.conflictTerm, p.msg.kind.conflictIndex);
    BacktrackKnown(conf, f, w, i, n, p);
    ReplicateOne(conf, f, w, i, n.(next := n.next[p.msg.from := next]), ack, p.msg.from);
  }

  lemma ResponseGood(conf: Conf, f: Family, w: World, i: NodeId, n: Node, ack: Index, p: Packet)
    requires Ready(conf, f, w, i, n) && Known(conf, f, w.h, p) && p.msg.kind.AppendEntriesResponse? && p.msg.to == i
    requires Rank(f) == 3 && p.msg.kind.success && n.role == Leader && p.msg.term == n.term ==>
               LastIndex(n.log) == p.ack
    ensures Good(conf, f, w, i, ack, HandleAppendEntriesResponse(n, p.msg))
  {
    if n.role != Leader || p.msg.term != n.term {
      Quiet(conf, f, w, i, n, ack, n);
    } else if p.msg.kind.success {
      AckReceivedGood(conf, f, w, i, n, ack, p);
    } else {
      NackReceivedGood(conf, f, w, i, n, ack, p);
    }
  }

  // ---- snapshots ---------------------------------------------------------------------------

  lemma InstallJust(conf: Conf, f: Family, w: World, i: NodeId, n: Node, ack: Index, index: Index, term: Term)
    requires i in w.c.disks && NodeOk(conf, f, w.h, i, n, w.c.disks[i]) && Rank(f) < 2
    requires Rank(f) >= 1 ==> FirstIndex(n.log) <= index
    ensures Just(conf, f, w, i, ack, PersistSnapshot(index, term))
  {}

  lemma InstallNode(conf: Conf, f: Family, h: Hist, i: NodeId, n: Node, d: Disk, index: Index, term: Term)
    requires NodeOk(conf, f, h, i, n, d) && Rank(f) < 2 && n.role == Follower && n.commit < index
    ensures NodeOk(conf, f, h, i, Install(n, index, term).n, Perform(d, PersistSnapshot(index, term)))
  {}

  lemma InstallGood(conf: Conf, f: Family, w: World, i: NodeId, n: Node, ack: Index, index: Index, term: Term)
    requires Ready(conf, f, w, i, n) && Rank(f) < 2 && n.role == Follower && n.commit < index
    ensures Good(conf, f, w, i, ack, Install(n, index, term))
  {
    InstallJust(conf, f, w, i, n, ack, index, term);
    InstallNode(conf, f, w.h, i, n, w.c.disks[i], index, term);
    OneStep(conf, f, w, i, ack, PersistSnapshot(index, term), Install(n, index, term).n);
  }

  lemma InstallAndReply(conf: Conf, f: Family, w: World, i: NodeId, n: Node, ack: Index, m: Message)
    requires Ready(conf, f, w, i, n) && Rank(f) < 2 && n.role == Follower && m.kind.InstallSnapshot? && m.from != i
    requires n.commit < m.kind.snapIndex
    ensures var s := Install(n, m.kind.snapIndex, m.kind.snapTerm);
            Good(conf, f, w, i, ack, Out(s.n, s.acts + [Reply(s.n, m.from, InstallSnapshotResponse)]))
  {
    var s := Install(n, m.kind.snapIndex, m.kind.snapTerm);
    InstallGood(conf, f, w, i, n, ack, m.kind.snapIndex, m.kind.snapTerm);
    ReadyAfter(conf, f, w, i, n, ack, s);
    ReplyGood(conf, f, DoAll(w, i, ack, s.acts), i, s.n, ack, m.from, InstallSnapshotResponse);
    Then(conf, f, w, i, ack, s, Out(s.n, [Reply(s.n, m.from, InstallSnapshotResponse)]));
  }

  lemma SnapshotGood(conf: Conf, f: Family, w: World, i: NodeId, n: Node, ack: Index, p: Packet, rt: nat)
    requires Ready(conf, f, w, i, n) && Known(conf, f, w.h, p) && p.msg.to == i
    requires p.msg.kind.InstallSnapshot? && p.msg.term == n.term
    ensures Good(conf, f, w, i, ack, HandleInstallSnapshot(n, p.msg, rt))
  {
    var m := p.msg;
    var o := BecomeFollower(n, m.term, Some(m.from), rt);
    FollowerGood(conf, f, w, i, n, ack, m.term, Some(m.from), rt);
    ReadyAfter(conf, f, w, i, n, ack, o);
    SnapshotShape(n, m, rt);
    SnapshotRest(conf, f, DoAll(w, i, ack, o.acts), i, o.n, ack, p);
    Then(conf, f, w, i, ack, o, SnapshotAnswer(o.n, m));
  }

  /** What a follower in the message's term does with an InstallSnapshot. */
  function SnapshotAnswer(n: Node, m: Message): Out
    requires m.kind.InstallSnapshot?
  {
    var s :=
      if m.kind.snapIndex <= n.commit || !m.kind.done then Out(n, [])
      else Install(n, m.kind.snapIndex, m.kind.snapTerm);
    Out(s.n, s.acts + [Reply(s.n, m.from, InstallSnapshotResponse)])
  }

  lemma SnapshotShape(n: Node, m: Message, rt: nat)
    requires m.kind.InstallSnapshot? && m.term >= n.term
    ensures var o := BecomeFollower(n, m.term, Some(m.from), rt);
            HandleInstallSnapshot(n, m, rt) == Out(SnapshotAnswer(o.n, m).n, o.acts + SnapshotAnswer(o.n, m).acts)
  {
    var o := BecomeFollower(n, m.term, Some(m.from), rt);
    var reply := Reply(o.n, m.from, InstallSnapshotResponse);
    assert [] + [reply] == [reply];
    var s := Install(o.n, m.kind.snapIndex, m.kind.snapTerm);
    assert o.acts + (s.acts + [reply]) == o.acts + s.acts + [reply];
  }

  lemma SnapshotRest(conf: Conf, f: Family, w: World, i: NodeId, n: Node, ack: Index, p: Packet)
    requires Ready(conf, f, w, i, n) && Known(conf, f, w.h, p) && p.msg.to == i && n.role == Follower
    requires p.msg.kind.InstallSnapshot? && p.msg.term == n.term
    ensures Good(conf, f, w, i, ack, SnapshotAnswer(n, p.msg))
  {
    var m := p.msg;
    if m.kind.snapIndex <= n.commit || !m.kind.done {
      ReplyGood(conf, f, w, i, n, ack, m.from, InstallSnapshotResponse);
      assert [] + [Reply(n, m.from, InstallSnapshotResponse)] == [Reply(n, m.from, InstallSnapshotResponse)];
    } else {
      InstallAndReply(conf, f, w, i, n, ack, m);
    }
  }

  lemma SnapshotResponseGood(conf: Conf, f: Family, w: World, i: NodeId, n: Node, ack: Index, m: Message)
    requires Ready(conf, f, w, i, n) && Rank(f) < 2
    ensures Good(conf, f, w, i, ack, HandleInstallSnapshotResponse(n, m))
  {
    if n.role != Leader || m.term != n.term {
      Quiet(conf, f, w, i, n, ack, n);
    } else {
      RecordAck(conf, f, w.h, i, n, w.c.disks[i], m.from, FirstIndex(n.log));
      MaybeAdvanceGood(conf, f, w, i, WithAck(n, m.from, FirstIndex(n.log)), ack);
    }
  }

  lemma CompactMirrors(s: Log, d: Log, index: Index, term: Term)
    requires Contiguous(s) && Contiguous(d) && Mirrors(s, d) && FirstIndex(s) <= index
    ensures Contiguous(Compacted(s, index, term)) && Mirrors(Compacted(s, index, term), Compacted(d, index, term))
    ensures LastIndex(s) <= LastIndex(Compacted(s, index, term)) && FirstIndex(Compacted(s, index, term)) == index
  {}

  lemma CompactNode(conf: Conf, f: Family, w: World, i: NodeId, n: Node, index: Index, term: Term)
    requires Ready(conf, f, w, i, n) && Rank(f) < 2 && index <= n.commit
    requires Rank(f) == 1 ==> FirstIndex(n.log) <= index
    ensures NodeOk(conf, f, w.h, i, CompactLogs(n, index, term).n, Perform(w.c.disks[i], PersistSnapshot(index, term)))
  {
    if Rank(f) == 1 {
      assert DiskS(w.h, w.c.disks[i]);
      CompactMirrors(n.log, w.c.disks[i].log, index, term);
    }
  }

  lemma CompactGood(conf: Conf, f: Family, w: World, i: NodeId, n: Node, ack: Index, index: Index, term: Term)
    requires Ready(conf, f, w, i, n) && Rank(f) < 2
    requires Rank(f) == 1 ==> FirstIndex(n.log) <= index
    ensures Good(conf, f, w, i, ack, CompactLogs(n, index, term))
  {
    if index > n.commit {
      Quiet(conf, f, w, i, n, ack, n);
    } else {
      InstallJust(conf, f, w, i, n, ack, index, term);
      CompactNode(conf, f, w, i, n, index, term);
      OneStep(conf, f, w, i, ack, PersistSnapshot(index, term), CompactLogs(n, index, term).n);
    }
  }

  // ---- clients -----------------------------------------------------------------------------

  lemma ProposeGood(conf: Conf, f: Family, w: World, i: NodeId, n: Node, ack: Index, command: Bytes)
    requires Ready(conf, f, w, i, n)
    ensures Good(conf, f, w, i, ack, Propose(n, command))
  {
    if n.role != Leader {
      Quiet(conf, f, w, i, n, ack, n);
    } else {
      var o := AppendCommand(n, command);
      AppendCommandGood(conf, f, w, i, n, ack, command);
      if n.peers == [] {
        ReadyAfter(conf, f, w, i, n, ack, o);
        MaybeAdvanceGood(conf, f, DoAll(w, i, ack, o.acts), i, o.n, ack);
        Then(conf, f, w, i, ack, o, MaybeAdvance(o.n));
      }
    }
  }

  lemma ClientGood(conf: Conf, f: Family, w: World, i: NodeId, n: Node, ack: Index, from: NodeId, command: Bytes)
    requires Ready(conf, f, w, i, n)
    ensures Good(conf, f, w, i, ack, HandleClientRequest(n, from, command))
  {
    if n.role == Leader {
      var o := Propose(n, command);
      ProposeGood(conf, f, w, i, n, ack, command);
      ReadyAfter(conf, f, w, i, n, ack, o);
      ReplyGood(conf, f, DoAll(w, i, ack, o.acts), i, o.n, ack, from, ClientResponse(true, Some(n.id)));
      Then(conf, f, w, i, ack, o, Out(o.n, [Reply(o.n, from, ClientResponse(true, Some(n.id)))]));
    } else {
      ReplyGood(conf, f, w, i, n, ack, from, ClientResponse(false, n.leader));
    }
  }

  // ---- whole calls -------------------------------------------------------------------------

  ghost predicate Deliverable(conf: Conf, f: Family, h: Hist, i: NodeId, p: Packet) {
    p.msg.to == i && (p.msg.kind.ClientRequest? || Known(conf, f, h, p))
  }

  ghost predicate InTerm(conf: Conf, f: Family, h: Hist, i: NodeId, n: Node, ack: Index, p: Packet) {
    && Deliverable(conf, f, h, i, p) && ack == AckOf(Recv(p))
    && (p.msg.term == n.term || p.msg.kind.PreVoteMsg() || p.msg.kind.ClientMsg())
    && (Rank(f) == 3 && Counts(n, Recv(p)) ==> LastIndex(n.log) == p.ack)
  }

  /** Which handler a message goes to. */
  lemma Routed(n: Node, m: Message, rt: nat)
    ensures m.kind.ClientRequest? ==> Dispatch(n, m, rt) == HandleClientRequest(n, m.from, m.kind.command)
    ensures m.kind.ClientResponse? ==> Dispatch(n, m, rt) == Out(n, [])
    ensures m.kind.InstallSnapshot? ==> Dispatch(n, m, rt) == HandleInstallSnapshot(n, m, rt)
    ensures m.kind.InstallSnapshotResponse? ==> Dispatch(n, m, rt) == HandleInstallSnapshotResponse(n, m)
    ensures m.kind.AppendEntries? ==> Dispatch(n, m, rt) == HandleAppendEntries(n, m, rt)
    ensures m.kind.AppendEntriesResponse? ==> Dispatch(n, m, rt) == HandleAppendEntriesResponse(n, m)
    ensures m.kind.PreVote? ==>
              Dispatch(n, m, rt) == Out(n, [Reply(n, m.from, PreVoteResponse(true))])
              || Dispatch(n, m, rt) == Out(n, [Reply(n, m.from, PreVoteResponse(false))])
    ensures m.kind.PreVoteResponse? ==>
              Dispatch(n, m, rt) == HandlePreVoteResponse(n, m.from, m.term, m.kind.granted, rt)
    ensures m.kind.RequestVote? ==>
              Dispatch(n, m, rt) == HandleRequestVote(n, m.from, m.kind.lastIndex, m.kind.lastTerm)
    ensures m.kind.RequestVoteResponse? ==>
              Dispatch(n, m, rt) == HandleRequestVoteResponse(n, m.from, m.term, m.kind.granted)
  {}

  lemma DispatchElection(conf: Conf, f: Family, w: World, i: NodeId, n: Node, ack: Index, p: Packet, rt: nat)
    requires Ready(conf, f, w, i, n) && InTerm(conf, f, w.h, i, n, ack, p)
    requires p.msg.kind.PreVoteMsg() || p.msg.kind.RequestVote? || p.msg.kind.RequestVoteResponse?
    ensures Good(conf, f, w, i, ack, Dispatch(n, p.msg, rt))
  {
    var m := p.msg;
    Routed(n, m, rt);
    if m.kind.PreVote? {
      ReplyGood(conf, f, w, i, n, ack, m.from, PreVoteResponse(true));
      ReplyGood(conf, f, w, i, n, ack, m.from, PreVoteResponse(false));
    } else if m.kind.PreVoteResponse? {
      PreVoteResponseGood(conf, f, w, i, n, ack, m.from, m.term, m.kind.granted, rt);
    } else if m.kind.RequestVote? {
      RequestVoteGood(conf, f, w, i, n, ack, p);
    } else {
      VoteResponseGood(conf, f, w, i, n, ack, p);
    }
  }

  lemma DispatchLog(conf: Conf, f: Family, w: World, i: NodeId, n: Node, ack: Index, p: Packet, rt: nat)
    requires Ready(conf, f, w, i, n) && InTerm(conf, f, w.h, i, n, ack, p)
    requires p.msg.kind.AppendEntries? || p.msg.kind.AppendEntriesResponse?
    ensures Good(conf, f, w, i, ack, Dispatch(n, p.msg, rt))
  {
    Routed(n, p.msg, rt);
    if p.msg.kind.AppendEntries? {
      AppendGood(conf, f, w, i, n, ack, p, rt);
    } else {
      ResponseGood(conf, f, w, i, n, ack, p);
    }
  }

  lemma DispatchRequest(conf: Conf, f: Family, w: World, i: NodeId, n: Node, ack: Index, m: Message, rt: nat)
    requires Ready(conf, f, w, i, n) && m.kind.ClientRequest?
    ensures Good(conf, f, w, i, ack, Dispatch(n, m, rt))
  {
    Routed(n, m, rt);
    ClientGood(conf, f, w, i, n, ack, m.from, m.kind.command);
    SameOut(conf, f, w, i, ack, HandleClientRequest(n, m.from, m.kind.command), Dispatch(n, m, rt));
  }

  lemma DispatchNothing(conf: Conf, f: Family, w: World, i: NodeId, n: Node, ack: Index, m: Message, rt: nat)
    requires Ready(conf, f, w, i, n) && m.kind.ClientResponse?
    ensures Good(conf, f, w, i, ack, Dispatch(n, m, rt))
  {
    Routed(n, m, rt);
    Quiet(conf, f, w, i, n, ack, n);
    SameOut(conf, f, w, i, ack, Out(n, []), Dispatch(n, m, rt));
  }

  lemma DispatchSnapshot(conf: Conf, f: Family, w: World, i: NodeId, n: Node, ack: Index, p: Packet, rt: nat)
    requires Ready(conf, f, w, i, n) && InTerm(conf, f, w.h, i, n, ack, p)
    requires p.msg.kind.InstallSnapshot? || p.msg.kind.InstallSnapshotResponse?
    ensures Good(conf, f, w, i, ack, Dispatch(n, p.msg, rt))
  {
    Routed(n, p.msg, rt);
    if p.msg.kind.InstallSnapshot? {
      SnapshotGood(conf, f, w, i, n, ack, p, rt);
      SameOut(conf, f, w, i, ack, HandleInstallSnapshot(n, p.msg, rt), Dispatch(n, p.msg, rt));
    } else {
      SnapshotResponseGood(conf, f, w, i, n, ack, p.msg);
      SameOut(conf, f, w, i, ack, HandleInstallSnapshotResponse(n, p.msg), Dispatch(n, p.msg, rt));
    }
  }

  lemma DispatchGood(conf: Conf, f: Family, w: World, i: NodeId, n: Node, ack: Index, p: Packet, rt: nat)
    requires Ready(conf, f, w, i, n) && InTerm(conf, f, w.h, i, n, ack, p)
    ensures Good(conf, f, w, i, ack, Dispatch(n, p.msg, rt))
  {
    var k := p.msg.kind;
    if k.PreVoteMsg() || k.RequestVote? || k.RequestVoteResponse? {
      DispatchElection(conf, f, w, i, n, ack, p, rt);
    } else if k.AppendEntries? || k.AppendEntriesResponse? {
      DispatchLog(conf, f, w, i, n, ack, p, rt);
    } else if k.ClientResponse? {
      DispatchNothing(conf, f, w, i, n, ack, p.msg, rt);
    } else if k.ClientRequest? {
      DispatchRequest(conf, f, w, i, n, ack, p.msg, rt);
    } else {
      DispatchSnapshot(conf, f, w, i, n, ack, p, rt);
    }
  }

  lemma ReceiveGood(conf: Conf, f: Family, w: World, i: NodeId, n: Node, p: Packet, rt: nat)
    requires Ready(conf, f, w, i, n) && Deliverable(conf, f, w.h, i, p) && Admits(f, n, Recv(p))
    ensures Good(conf, f, w, i, AckOf(Recv(p)), Receive(n, p.msg, rt))
  {
    var ack := AckOf(Recv(p));
    ReceiveShape(n, p.msg, rt);
    if Stale(n, p.msg) {
      Quiet(conf, f, w, i, n, ack, n);
    } else if Bumps(n, p.msg) {
      var o := BecomeFollower(n, p.msg.term, None, rt);
      FollowerGood(conf, f, w, i, n, ack, p.msg.term, None, rt);
      FollowerHist(w, i, n, ack, p.msg.term, None, rt);
      ReadyAfter(conf, f, w, i, n, ack, o);
      DispatchGood(conf, f, DoAll(w, i, ack, o.acts), i, o.n, ack, p, rt);
      Then(conf, f, w, i, ack, o, Dispatch(o.n, p.msg, rt));
    } else {
      DispatchGood(conf, f, w, i, n, ack, p, rt);
    }
  }

  lemma ReceiveShape(n: Node, m: Message, rt: nat)
    ensures Stale(n, m) ==> Receive(n, m, rt) == Out(n, [])
    ensures Bumps(n, m) ==>
              var o := BecomeFollower(n, m.term, None, rt);
              Receive(n, m, rt) == Out(Dispatch(o.n, m, rt).n, o.acts + Dispatch(o.n, m, rt).acts)
    ensures !Stale(n, m) && !Bumps(n, m) ==> Receive(n, m, rt) == Dispatch(n, m, rt)
  {
    assert [] + Dispatch(n, m, rt).acts == Dispatch(n, m, rt).acts;
  }

  lemma HandleGood(conf: Conf, f: Family, w: World, i: NodeId, n: Node, ev: Event, rt: nat)
    requires Ready(conf, f, w, i, n) && Admits(f, n, ev)
    requires ev.Recv? ==> Deliverable(conf, f, w.h, i, ev.pkt)
    ensures Good(conf, f, w, i, AckOf(ev), Handle(n, ev, rt))
  {
    match ev
    case Timer => TickGood(conf, f, w, i, n, AckOf(ev), rt);
    case Recv(p) => ReceiveGood(conf, f, w, i, n, p, rt);
    case Submit(command) => ProposeGood(conf, f, w, i, n, AckOf(ev), command);
    case Compact(index, term) => CompactGood(conf, f, w, i, n, AckOf(ev), index, term);
  }

  // ---- steps and runs ----------------------------------------------------------------------

  lemma KnownNode(conf: Conf, f: Family, w: World, i: NodeId)
    requires Inv(conf, f, w) && i in w.c.nodes
    ensures i in conf.ids && i in w.c.disks && NodeOk(conf, f, w.h, i, w.c.nodes[i], w.c.disks[i])
  {}

  /** The invariant does not depend on which nodes are alive, as long as each is in a good state. */
  lemma OtherNodes(conf: Conf, f: Family, w: World, nodes: map<NodeId, Node>)
    requires Inv(conf, f, w) && nodes.Keys <= conf.ids
    requires forall i | i in nodes :: i in w.c.disks && NodeOk(conf, f, w.h, i, nodes[i], w.c.disks[i])
    ensures Inv(conf, f, w.(c := w.c.(nodes := nodes)))
  {}

  /** Taking nodes away, as a crash does, keeps the invariant. */
  lemma FewerNodes(conf: Conf, f: Family, w: World, nodes: map<NodeId, Node>)
    requires Inv(conf, f, w) && forall i | i in nodes :: i in w.c.nodes && nodes[i] == w.c.nodes[i]
    ensures Inv(conf, f, w.(c := w.c.(nodes := nodes)))
  {
    forall i | i in nodes ensures i in conf.ids && i in w.c.disks && NodeOk(conf, f, w.h, i, nodes[i], w.c.disks[i]) {
      KnownNode(conf, f, w, i);
    }
    OtherNodes(conf, f, w, nodes);
  }

  lemma OneMoreNode(conf: Conf, f: Family, w: World, i: NodeId, n: Node)
    requires Inv(conf, f, w) && i in conf.ids && i in w.c.disks && NodeOk(conf, f, w.h, i, n, w.c.disks[i])
    ensures Inv(conf, f, w.(c := w.c.(nodes := w.c.nodes[i := n])))
  {
    var nodes := w.c.nodes[i := n];
    forall j | j in nodes ensures j in conf.ids && j in w.c.disks && NodeOk(conf, f, w.h, j, nodes[j], w.c.disks[j]) {
      if j != i { KnownNode(conf, f, w, j); }
    }
    OtherNodes(conf, f, w, nodes);
  }

  lemma BootOk(conf: Conf, f: Family, w: World, i: NodeId, rt: nat)
    requires ValidConf(conf) && Inv(conf, f, w) && i in conf.ids
    ensures NodeOk(conf, f, w.h, i, Boot(conf, i, w.c.disks[i], rt), w.c.disks[i])
  {
    var d := w.c.disks[i];
    if Rank(f) >= 1 { BootS(conf, w.h, i, d, rt); }
    if Rank(f) >= 2 { BootB(conf, w.h, i, d, rt); }
  }

  lemma BootS(conf: Conf, h: Hist, i: NodeId, d: Disk, rt: nat)
    requires i in conf.peers && DiskS(h, d)
    ensures NodeS(h, Boot(conf, i, d, rt), d)
  {}

  lemma BootB(conf: Conf, h: Hist, i: NodeId, d: Disk, rt: nat)
    requires i in conf.peers && DiskB(h, i, d)
    ensures Boot(conf, i, d, rt).log == d.log && Boot(conf, i, d, rt).commit == 0
  {}

  lemma CallReady(conf: Conf, f: Family, w: World, i: NodeId)
    requires ValidConf(conf) && Inv(conf, f, w) && i in w.c.nodes
    ensures Ready(conf, f, w.(c := w.c.(nodes := w.c.nodes - {i})), i, w.c.nodes[i])
  {
    FewerNodes(conf, f, w, w.c.nodes - {i});
  }

  lemma CallGood(conf: Conf, f: Family, w: World, i: NodeId, ev: Event, rt: nat)
    requires ValidConf(conf) && Inv(conf, f, w) && Callable(conf, w.c, i, ev, rt) && Admits(f, w.c.nodes[i], ev)
    ensures var v := w.(c := w.c.(nodes := w.c.nodes - {i}));
            && i in conf.ids && Ready(conf, f, v, i, w.c.nodes[i])
            && Good(conf, f, v, i, AckOf(ev), Handle(w.c.nodes[i], ev, rt))
  {
    CallReady(conf, f, w, i);
    if ev.Recv? && !ev.pkt.msg.kind.ClientRequest? { LookUp(conf, f, w, ev.pkt); }
    HandleGood(conf, f, w.(c := w.c.(nodes := w.c.nodes - {i})), i, w.c.nodes[i], ev, rt);
  }

  /** A call takes the node out, carries its actions out and puts the new node in. */
  lemma CallShape(conf: Conf, w: World, i: NodeId, ev: Event, rt: nat)
    requires Callable(conf, w.c, i, ev, rt) && !Fatal(w.c.nodes[i], ev)
    ensures var o := Handle(w.c.nodes[i], ev, rt);
            var r := DoAll(w.(c := w.c.(nodes := w.c.nodes - {i})), i, AckOf(ev), o.acts);
            Advance(conf, w, Call(i, ev, rt)) == r.(c := r.c.(nodes := r.c.nodes[i := o.n]))
  {
    var o := Handle(w.c.nodes[i], ev, rt);
    DoAllIgnoresNodes(w, i, AckOf(ev), o.acts, w.c.nodes - {i});
    assert (w.c.nodes - {i})[i := o.n] == w.c.nodes[i := o.n];
  }

  lemma CallKeeps(conf: Conf, f: Family, w: World, i: NodeId, ev: Event, rt: nat)
    requires ValidConf(conf) && Inv(conf, f, w) && Callable(conf, w.c, i, ev, rt) && Admits(f, w.c.nodes[i], ev)
    requires !Fatal(w.c.nodes[i], ev)
    ensures Inv(conf, f, Advance(conf, w, Call(i, ev, rt)))
  {
    var o := Handle(w.c.nodes[i], ev, rt);
    var v := w.(c := w.c.(nodes := w.c.nodes - {i}));
    CallGood(conf, f, w, i, ev, rt);
    ReadyAfter(conf, f, v, i, w.c.nodes[i], AckOf(ev), o);
    OneMoreNode(conf, f, DoAll(v, i, AckOf(ev), o.acts), i, o.n);
    CallShape(conf, w, i, ev, rt);
  }

  lemma TornKeeps(conf: Conf, f: Family, w: World, i: NodeId, ev: Event, rt: nat, done: nat)
    requires ValidConf(conf) && Inv(conf, f, w) && Callable(conf, w.c, i, ev, rt) && Admits(f, w.c.nodes[i], ev)
    requires done <= |Handle(w.c.nodes[i], ev, rt).acts| && !Fatal(w.c.nodes[i], ev)
    ensures Inv(conf, f, Advance(conf, w, Torn(i, ev, rt, done)))
  {
    var o := Handle(w.c.nodes[i], ev, rt);
    var v := w.(c := w.c.(nodes := w.c.nodes - {i}));
    CallGood(conf, f, w, i, ev, rt);
    KeepAll(conf, f, v, i, AckOf(ev), o.acts, done);
    DoAllIgnoresNodes(w, i, AckOf(ev), o.acts[..done], v.c.nodes);
    assert Advance(conf, w, Torn(i, ev, rt, done)) == DoAll(v, i, AckOf(ev), o.acts[..done]);
  }

  lemma StepKeeps(conf: Conf, f: Family, w: World, s: Step)
    requires ValidConf(conf) && Inv(conf, f, w) && Allowed(conf, f, w.c, s)
    ensures Inv(conf, f, Advance(conf, w, s))
  {
    if Dies(w.c, s) {
      FewerNodes(conf, f, w, w.c.nodes - {s.i});
    } else {
      match s
      case Call(i, ev, rt) => CallKeeps(conf, f, w, i, ev, rt);
      case Torn(i, ev, rt, done) => TornKeeps(conf, f, w, i, ev, rt, done);
      case Crash(i) => FewerNodes(conf, f, w, w.c.nodes - {i});
      case Spawn(i, rt) =>
        BootOk(conf, f, w, i, rt);
        OneMoreNode(conf, f, w, i, Boot(conf, i, w.c.disks[i], rt));
    }
  }

  lemma InitialInv(conf: Conf, f: Family)
    ensures Inv(conf, f, World(Initial(conf), NOTHING))
  {}

  /** The invariant of a family holds after every run of the family. */
  lemma {:induction false} RunInv(conf: Conf, f: Family, run: seq<Step>)
    requires ValidConf(conf)
    ensures Inv(conf, f, Past(conf, f, run))
  {
    if run == [] {
      InitialInv(conf, f);
    } else {
      var w := Past(conf, f, run[..|run| - 1]);
      RunInv(conf, f, run[..|run| - 1]);
      if Allowed(conf, f, w.c, run[|run| - 1]) { StepKeeps(conf, f, w, run[|run| - 1]); }
    }
  }
}
