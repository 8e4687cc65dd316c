/** Every handler of the kernel is a sequence of justified actions. */
module Handlers {
  import opened Types
  import opened LogSpec
  import opened Kernel
  import opened DiskSpec
  import opened Cluster
  import opened History
  import opened Election
  import opened Uniqueness
  import opened Matching
  import opened Completeness
  import opened Invariant

  // ---- small facts -------------------------------------------------------------------------

  ghost function Members(s: seq<NodeId>): set<NodeId> {
    set p | p in s
  }

  lemma {:induction false} DistinctSize(s: seq<NodeId>)
    requires forall a, b | 0 <= a < b < |s| :: s[a] != s[b]
    ensures |Members(s)| == |s|
  {
    if s == [] {
      assert Members(s) == {};
    } else {
      DistinctSize(s[1..]);
      assert s[0] !in s[1..];
      assert Members(s) == {s[0]} + Members(s[1..]);
    }
  }

  lemma PeerCount(conf: Conf, i: NodeId)
    requires ValidConf(conf) && i in conf.ids
    ensures |conf.peers[i]| + 1 == |conf.ids|
  {
    DistinctSize(conf.peers[i]);
    assert Members(conf.peers[i]) == conf.ids - {i};
  }

  lemma SettledLater(conf: Conf, h: Hist, s: Log, c: Index, b: Term, b': Term)
    requires Settled(conf, h, s, c, b) && b <= b'
    ensures Settled(conf, h, s, c, b')
  {}

  lemma SettledLength(conf: Conf, h: Hist, s: Log, c: Index, b: Term)
    requires Settled(conf, h, s, c, b)
    ensures c < |s|
  {}

  /** Volatile bookkeeping that the invariant does not mention. */
  ghost predicate SameCore(n: Node, m: Node) {
    && m.id == n.id && m.peers == n.peers && m.term == n.term && m.voted == n.voted && m.log == n.log
    && m.commit == n.commit && m.applied == n.applied
  }

  lemma QuietNode(conf: Conf, f: Family, h: Hist, i: NodeId, n: Node, d: Disk, m: Node)
    requires NodeOk(conf, f, h, i, n, d) && SameCore(n, m)
    requires m.role == Follower || m.role == PreCandidate
             || (m.role == n.role && m.votes == n.votes && m.next == n.next && m.matched == n.matched)
    ensures NodeOk(conf, f, h, i, m, d)
  {}

  lemma Quiet(conf: Conf, f: Family, w: World, i: NodeId, n: Node, ack: Index, m: Node)
    requires Ready(conf, f, w, i, n) && SameCore(n, m)
    requires m.role == Follower || m.role == PreCandidate
             || (m.role == n.role && m.votes == n.votes && m.next == n.next && m.matched == n.matched)
    ensures Good(conf, f, w, i, ack, Out(m, [])) && Ready(conf, f, w, i, m)
  {
    QuietNode(conf, f, w.h, i, n, w.c.disks[i], m);
    NoStep(conf, f, w, i, ack, Out(m, []));
  }

  // ---- replication -------------------------------------------------------------------------

  lemma ReplicateS(h: Hist, n: Node, d: Disk, p: NodeId)
    requires DiskS(h, d) && NodeS(h, n, d)
    ensures MsgS(h, Replicate(n, p).msg)
  {
    var next := NextFor(n, p);
    if next > FirstIndex(n.log) {
      var es := EntriesFrom(n.log, next);
      forall e | e in es ensures e in h.made {
        var k :| 0 <= k < |es| && es[k] == e;
        var x := next - FirstIndex(n.log) + k;
        assert n.log[x] == e && d.log[1..][x - 1] == e;
      }
    }
  }

  lemma ReplicateB(h: Hist, i: NodeId, n: Node, d: Disk, p: NodeId, ack: Index)
    requires DiskB(h, i, d) && NodeB(h, i, n, d) && n.role == Leader
    ensures Replicate(n, p).msg.kind.AppendEntries? && MsgB(h, Packet(Replicate(n, p).msg, ack))
  {
    var next := NextFor(n, p);
    assert FirstIndex(n.log) == 0 && 1 <= next <= |n.log|;
    assert n.log[next..] == n.log[next..next + |n.log[next..]|];
  }

  lemma ReplicateC(conf: Conf, h: Hist, i: NodeId, n: Node, d: Disk, p: NodeId)
    requires DiskB(h, i, d) && NodeB(h, i, n, d) && NodeC(conf, h, n) && n.role == Leader
    ensures MsgC(conf, h, Replicate(n, p).msg)
  {
    SettledLength(conf, h, n.log, n.commit, n.term);
    assert FirstIndex(n.log) == 0;
  }

  lemma ReplicateE(conf: Conf, w: World, i: NodeId, n: Node, p: NodeId)
    requires i in conf.ids && i in w.c.disks && NodeE(conf, w.h, i, n, w.c.disks[i]) && n.role == Leader && p != i
    ensures PlainSend(Replicate(n, p)) && JustE(conf, w, i, Replicate(n, p))
  {}

  lemma ReplicateJust(conf: Conf, f: Family, w: World, i: NodeId, n: Node, p: NodeId, ack: Index)
    requires Ready(conf, f, w, i, n) && n.role == Leader && p != i
    ensures PlainSend(Replicate(n, p)) && Just(conf, f, w, i, ack, Replicate(n, p))
  {
    ReplicateE(conf, w, i, n, p);
    if Rank(f) >= 1 { ReplicateS(w.h, n, w.c.disks[i], p); }
    if Rank(f) >= 2 { ReplicateB(w.h, i, n, w.c.disks[i], p, ack); }
    if Rank(f) >= 3 { ReplicateC(conf, w.h, i, n, w.c.disks[i], p); }
  }

  lemma Addressee(n: Node, a: Action) returns (p: NodeId)
    requires a in Broadcast(n)
    ensures p in n.peers && a == Replicate(n, p)
  {
    var k :| 0 <= k < |n.peers| && a == Replicate(n, n.peers[k]);
    p := n.peers[k];
  }

  lemma OtherPeer(conf: Conf, f: Family, w: World, i: NodeId, n: Node, p: NodeId)
    requires Ready(conf, f, w, i, n) && p in n.peers
    ensures p != i
  {}

  lemma BroadcastGood(conf: Conf, f: Family, w: World, i: NodeId, n: Node, ack: Index)
    requires Ready(conf, f, w, i, n) && n.role == Leader
    ensures Good(conf, f, w, i, ack, Out(n, Broadcast(n)))
  {
    forall a | a in Broadcast(n) ensures PlainSend(a) && Just(conf, f, w, i, ack, a) {
      var p := Addressee(n, a);
      OtherPeer(conf, f, w, i, n, p);
      ReplicateJust(conf, f, w, i, n, p, ack);
    }
    EndWithSends(conf, f, w, i, n, ack, Broadcast(n));
  }

  /** Protocol messages with no content that the invariant speaks of. */
  predicate Idle(k: Kind) {
    k.PreVoteResponse? || k.InstallSnapshotResponse? || (k.RequestVoteResponse? && !k.granted)
  }

  lemma ReplyJust(conf: Conf, f: Family, w: World, i: NodeId, n: Node, ack: Index, to: NodeId, k: Kind)
    requires i in conf.ids && i in w.c.disks && NodeE(conf, w.h, i, n, w.c.disks[i])
    requires k.ClientResponse? || (Idle(k) && to != i && (k.InstallSnapshotResponse? ==> Rank(f) < 2))
    ensures PlainSend(Reply(n, to, k)) && Just(conf, f, w, i, ack, Reply(n, to, k))
  {}

  lemma ReplyGood(conf: Conf, f: Family, w: World, i: NodeId, n: Node, ack: Index, to: NodeId, k: Kind)
    requires Ready(conf, f, w, i, n)
    requires k.ClientResponse? || (Idle(k) && to != i && (k.InstallSnapshotResponse? ==> Rank(f) < 2))
    ensures Good(conf, f, w, i, ack, Out(n, [Reply(n, to, k)]))
  {
    ReplyJust(conf, f, w, i, n, ack, to, k);
    EndWithSend(conf, f, w, i, n, ack, Reply(n, to, k));
  }

  // ---- changes of role ---------------------------------------------------------------------

  /** Stepping down, possibly into a later term. */
  lemma FollowerNode(conf: Conf, f: Family, h: Hist, i: NodeId, n: Node, d: Disk, m: Node)
    requires NodeOk(conf, f, h, i, n, d) && m.role == Follower && n.term <= m.term
    requires SameCore(n, m.(term := n.term, voted := n.voted))
    ensures NodeOk(conf, f, h, i, m, d.(term := m.term, voted := m.voted))
  {
    if Rank(f) >= 3 { SettledLater(conf, h, n.log, n.commit, n.term, m.term); }
  }

  lemma NewTermJust(conf: Conf, f: Family, w: World, i: NodeId, ack: Index, t: Term)
    requires i in w.c.disks && w.c.disks[i].term < t
    ensures Just(conf, f, w, i, ack, PersistHardState(t, None))
  {}

  lemma FollowerGood(conf: Conf, f: Family, w: World, i: NodeId, n: Node, ack: Index, t: Term,
                     leader: Option<NodeId>, rt: nat)
    requires Ready(conf, f, w, i, n) && n.term <= t
    ensures Good(conf, f, w, i, ack, BecomeFollower(n, t, leader, rt))
  {
    var o := BecomeFollower(n, t, leader, rt);
    if t > n.term {
      FollowerNode(conf, f, w.h, i, n, w.c.disks[i], o.n);
      NewTermJust(conf, f, w, i, ack, t);
      OneStep(conf, f, w, i, ack, o.acts[0], o.n);
    } else {
      Quiet(conf, f, w, i, n, ack, o.n);
    }
  }

  lemma CanvassJust(conf: Conf, f: Family, w: World, i: NodeId, n: Node, ack: Index, a: Action, k: Kind)
    requires ValidConf(conf) && i in conf.ids && i in w.c.disks && NodeE(conf, w.h, i, n, w.c.disks[i])
    requires k.PreVote? && a in ToPeers(n, n.term + 1, k)
    ensures PlainSend(a) && Just(conf, f, w, i, ack, a)
  {
    var x :| 0 <= x < |n.peers| && a == Send(Message(n.id, n.peers[x], n.term + 1, k));
    assert n.peers[x] in conf.peers[i];
  }

  lemma CanvassShape(n: Node, rt: nat)
    ensures var o := Canvass(n, rt);
            && SameCore(n, o.n) && o.n.role == PreCandidate
            && o.acts == ToPeers(o.n, o.n.term + 1, PreVote(LastIndex(n.log), LastTerm(n.log)))
  {}

  lemma CanvassGood(conf: Conf, f: Family, w: World, i: NodeId, n: Node, ack: Index, rt: nat)
    requires Ready(conf, f, w, i, n)
    ensures Good(conf, f, w, i, ack, Canvass(n, rt))
  {
    var o := Canvass(n, rt);
    CanvassShape(n, rt);
    Quiet(conf, f, w, i, n, ack, o.n);
    forall a | a in o.acts ensures PlainSend(a) && Just(conf, f, w, i, ack, a) {
      CanvassJust(conf, f, w, i, o.n, ack, a, PreVote(LastIndex(n.log), LastTerm(n.log)));
    }
    EndWithSends(conf, f, w, i, o.n, ack, o.acts);
    SameOut(conf, f, w, i, ack, Out(o.n, o.acts), o);
  }

  /** Voting for oneself in a fresh term puts the ballot on record. */
  lemma SelfVoteNode(conf: Conf, f: Family, h: Hist, h': Hist, i: NodeId, n: Node, d: Disk, m: Node)
    requires i in conf.ids && NodeOk(conf, f, h, i, n, d) && DiskE(h, i, d)
    requires m.role == Candidate && m.term == n.term + 1 && m.voted == Some(i) && m.votes == {i}
    requires SameCore(n, m.(term := n.term, voted := n.voted))
    requires h' == h.(ballots := h.ballots[(m.term, i) := Ballot(i, d.log)])
    ensures NodeOk(conf, f, h', i, m, d.(term := m.term, voted := m.voted))
  {
    assert Cast(h', m.term, i, i);
    if Rank(f) >= 3 {
      SettledLater(conf, h, n.log, n.commit, n.term, m.term);
      SettledStays(conf, h, h', n.log, n.commit, m.term);
    }
  }

  lemma SelfVoteJust(conf: Conf, f: Family, w: World, i: NodeId, ack: Index, t: Term)
    requires i in w.c.disks && w.c.disks[i].term < t
    ensures Just(conf, f, w, i, ack, PersistHardState(t, Some(i)))
  {}

  lemma SelfVoteGood(conf: Conf, f: Family, w: World, i: NodeId, n: Node, ack: Index, m: Node)
    requires Ready(conf, f, w, i, n)
    requires m.role == Candidate && m.term == n.term + 1 && m.voted == Some(i) && m.votes == {i}
    requires SameCore(n, m.(term := n.term, voted := n.voted))
    ensures Good(conf, f, w, i, ack, Out(m, [PersistHardState(m.term, Some(i))]))
  {
    var a := PersistHardState(m.term, Some(i));
    assert DiskE(w.h, i, w.c.disks[i]);
    assert (m.term, i) !in w.h.ballots;
    SelfVoteNode(conf, f, w.h, Track(conf.ids, w.h, i, w.c.disks[i], ack, a), i, n, w.c.disks[i], m);
    SelfVoteJust(conf, f, w, i, ack, m.term);
    OneStep(conf, f, w, i, ack, a, m);
  }

  lemma RequestVotesJust(conf: Conf, f: Family, w: World, i: NodeId, n: Node, ack: Index, p: NodeId)
    requires i in conf.ids && i in w.c.disks && NodeOk(conf, f, w.h, i, n, w.c.disks[i]) && n.role == Candidate
             && p != i
    ensures Just(conf, f, w, i, ack, Send(Message(i, p, n.term, RequestVote(LastIndex(n.log), LastTerm(n.log)))))
  {}

  lemma CampaignGood(conf: Conf, f: Family, w: World, i: NodeId, n: Node, ack: Index, rt: nat)
    requires Ready(conf, f, w, i, n)
    ensures Good(conf, f, w, i, ack, Campaign(n, rt)) && Campaign(n, rt).n.role == Candidate
  {
    var m := Campaign(n, rt).n;
    var first := Out(m, [PersistHardState(m.term, Some(i))]);
    SelfVoteGood(conf, f, w, i, n, ack, m);
    ReadyAfter(conf, f, w, i, n, ack, first);
    CallForVotes(conf, f, DoAll(w, i, ack, first.acts), i, m, ack);
    Then(conf, f, w, i, ack, first, Out(m, ToPeers(m, m.term, RequestVote(LastIndex(m.log), LastTerm(m.log)))));
  }

  lemma CallForVotes(conf: Conf, f: Family, w: World, i: NodeId, n: Node, ack: Index)
    requires Ready(conf, f, w, i, n) && n.role == Candidate
    ensures Good(conf, f, w, i, ack, Out(n, ToPeers(n, n.term, RequestVote(LastIndex(n.log), LastTerm(n.log)))))
  {
    var acts := ToPeers(n, n.term, RequestVote(LastIndex(n.log), LastTerm(n.log)));
    forall a | a in acts ensures PlainSend(a) && Just(conf, f, w, i, ack, a) {
      var k :| 0 <= k < |n.peers| && a == acts[k];
      RequestVotesJust(conf, f, w, i, n, ack, n.peers[k]);
    }
    EndWithSends(conf, f, w, i, n, ack, acts);
  }

  // ---- a leader creating an entry ----------------------------------------------------------

  /** Node n, seen with role Leader and with entry e added to its log. */
  ghost predicate Extends(n: Node, m: Node, e: Entry) {
    && m.id == n.id && m.peers == n.peers && m.term == n.term && m.voted == n.voted
    && m.commit == n.commit && m.applied == n.applied
    && m.role == Leader && m.log == n.log + [e]
    && e.index == LastIndex(n.log) + 1 && e.term == n.term
  }

  /** A sitting leader, or a candidate that a majority has just made one. */
  ghost predicate MayLead(conf: Conf, h: Hist, i: NodeId, n: Node) {
    || n.role == Leader
    || (n.role == Candidate && n.term !in h.lead && MajoritySet(conf, Voters(conf.ids, h, n.term, i)))
  }

  lemma CreateJustS(h: Hist, i: NodeId, n: Node, d: Disk, e: Entry)
    requires HistS(h) && DiskS(h, d) && NodeS(h, n, d)
    requires e.index == LastIndex(n.log) + 1 && e.term == n.term
    requires n.role == Leader || n.term !in h.lead
    ensures JustS(h, d, AppendLog([e]))
  {
    forall a | a in h.made ensures a.index != e.index || a.term != e.term {
      if n.role == Leader { assert NewestOf(h, n.term, LastIndex(n.log)); }
    }
  }

  lemma CreateJustB(h: Hist, i: NodeId, n: Node, d: Disk, e: Entry)
    requires h.logs.Keys == h.lead.Keys && DiskB(h, i, d) && NodeB(h, i, n, d) && n.term == d.term
    requires e.index == LastIndex(n.log) + 1 && e.term == n.term
    requires n.role == Leader || (n.role == Candidate && n.term !in h.lead)
    ensures JustB(h, i, d, 0, AppendLog([e]))
  {
    Consecutive(h.logs, d.log);
  }

  lemma CreateNodeS(ids: set<NodeId>, h: Hist, i: NodeId, n: Node, d: Disk, ack: Index, m: Node, e: Entry)
    requires HistS(h) && DiskS(h, d) && NodeS(h, n, d) && Extends(n, m, e)
    requires n.role == Leader || n.term !in h.lead
    ensures NodeS(Track(ids, h, i, d, ack, AppendLog([e])), m, Perform(d, AppendLog([e])))
  {
    CreateJustS(h, i, n, d, e);
    AppendResult(h, d, e);
    assert Perform(d, AppendLog([e])).log == d.log[..|n.log|] + [e];
  }

  lemma CreateNodeB(conf: Conf, h: Hist, i: NodeId, n: Node, d: Disk, ack: Index, m: Node, e: Entry)
    requires h.logs.Keys == h.lead.Keys && DiskB(h, i, d) && NodeB(h, i, n, d) && n.term == d.term && Extends(n, m, e)
    requires n.role == Leader || (n.role == Candidate && n.term !in h.lead)
    requires NextOk(m)
    ensures NodeB(Track(conf.ids, h, i, d, ack, AppendLog([e])), i, m, Perform(d, AppendLog([e])))
  {
    Consecutive(h.logs, d.log);
    AppendShape(conf.ids, h, i, d, ack, e);
    var h' := Track(conf.ids, h, i, d, ack, AppendLog([e]));
    assert (i, n.term, |m.log| - 1) in h'.acks;
  }

  lemma SettledLonger(conf: Conf, h: Hist, s: Log, r: Log, c: Index, b: Term)
    requires Settled(conf, h, s, c, b) && s <= r
    ensures Settled(conf, h, r, c, b)
  {
    if c > 0 {
      var t: Term, n: Index :| t <= b && c <= n && Committed(conf, h, t, n) && Agree(s, LogOf(h, t), c);
      assert Agree(r, LogOf(h, t), c);
    }
  }

  ghost predicate MatchKept(n: Node, m: Node) {
    (n.role == Leader && m.matched == n.matched) || (forall p | p in m.matched :: m.matched[p] == 0)
  }

  lemma CreateNodeC(conf: Conf, h: Hist, h': Hist, n: Node, m: Node, e: Entry)
    requires NodeC(conf, h, n) && Extends(n, m, e) && LogsGrow(h.logs, h'.logs) && h.acks <= h'.acks
    requires MatchKept(n, m)
    ensures NodeC(conf, h', m)
  {
    SettledStays(conf, h, h', n.log, n.commit, n.term);
    SettledLonger(conf, h', n.log, m.log, n.commit, n.term);
    forall p | p in m.matched && m.matched[p] > 0 ensures Acked(h', p, m.term, m.matched[p]) {
      AckedStays(h, h', p, m.term, m.matched[p]);
    }
  }

  lemma CreateGrowth(conf: Conf, h: Hist, i: NodeId, n: Node, d: Disk, ack: Index, e: Entry)
    requires HistB(h) && NodeE(conf, h, i, n, d) && DiskB(h, i, d) && NodeB(h, i, n, d)
    requires e.index == LastIndex(n.log) + 1 && e.term == n.term && MayLead(conf, h, i, n)
    ensures var h' := Track(conf.ids, h, i, d, ack, AppendLog([e]));
            LogsGrow(h.logs, h'.logs) && h.acks <= h'.acks
  {
    Consecutive(h.logs, d.log);
    AppendShape(conf.ids, h, i, d, ack, e);
    CreateGrows(h, Track(conf.ids, h, i, d, ack, AppendLog([e])), i, d, e);
  }

  lemma CreateNodeE(conf: Conf, h: Hist, i: NodeId, n: Node, d: Disk, ack: Index, m: Node, e: Entry)
    requires NodeE(conf, h, i, n, d) && Extends(n, m, e)
    ensures NodeE(conf, Track(conf.ids, h, i, d, ack, AppendLog([e])), i, m, Perform(d, AppendLog([e])))
  {}

  lemma CreateNode(conf: Conf, f: Family, w: World, i: NodeId, n: Node, ack: Index, m: Node, e: Entry)
    requires Ready(conf, f, w, i, n) && MayLead(conf, w.h, i, n) && Extends(n, m, e) && MatchKept(n, m)
    requires Rank(f) >= 2 ==> NextOk(m)
    ensures NodeOk(conf, f, Track(conf.ids, w.h, i, w.c.disks[i], ack, AppendLog([e])), i, m,
                   Perform(w.c.disks[i], AppendLog([e])))
  {
    var d := w.c.disks[i];
    var h' := Track(conf.ids, w.h, i, d, ack, AppendLog([e]));
    CreateNodeE(conf, w.h, i, n, d, ack, m, e);
    assert Rank(f) >= 1 ==> NodeS(h', m, Perform(d, AppendLog([e]))) by {
      if Rank(f) >= 1 { CreateNodeS(conf.ids, w.h, i, n, d, ack, m, e); }
    }
    assert Rank(f) >= 2 ==> NodeB(h', i, m, Perform(d, AppendLog([e]))) by {
      if Rank(f) >= 2 { CreateNodeB(conf, w.h, i, n, d, ack, m, e); }
    }
    assert Rank(f) >= 3 ==> NodeC(conf, h', m) by {
      if Rank(f) >= 3 {
        CreateGrowth(conf, w.h, i, n, d, ack, e);
        CreateNodeC(conf, w.h, h', n, m, e);
      }
    }
  }

  lemma CreateJust(conf: Conf, f: Family, w: World, i: NodeId, n: Node, ack: Index, e: Entry)
    requires Ready(conf, f, w, i, n) && MayLead(conf, w.h, i, n)
    requires e.index == LastIndex(n.log) + 1 && e.term == n.term
    ensures Just(conf, f, w, i, ack, AppendLog([e]))
  {
    if Rank(f) >= 1 { CreateJustS(w.h, i, n, w.c.disks[i], e); }
    if Rank(f) >= 2 { CreateJustB(w.h, i, n, w.c.disks[i], e); }
  }

  /** Writing the new entry and replicating it. */
  lemma CreateGood(conf: Conf, f: Family, w: World, i: NodeId, n: Node, ack: Index, m: Node, e: Entry)
    requires Ready(conf, f, w, i, n) && MayLead(conf, w.h, i, n) && Extends(n, m, e)
    requires Rank(f) >= 2 ==> NextOk(m)
    requires MatchKept(n, m)
    ensures Good(conf, f, w, i, ack, Out(m, [AppendLog([e])] + Broadcast(m)))
  {
    var first := Out(m, [AppendLog([e])]);
    CreateJust(conf, f, w, i, n, ack, e);
    CreateNode(conf, f, w, i, n, ack, m, e);
    OneStep(conf, f, w, i, ack, AppendLog([e]), m);
    ReadyAfter(conf, f, w, i, n, ack, first);
    BroadcastGood(conf, f, DoAll(w, i, ack, first.acts), i, m, ack);
    Then(conf, f, w, i, ack, first, Out(m, Broadcast(m)));
  }

  lemma LogLength(conf: Conf, f: Family, w: World, i: NodeId, n: Node)
    requires Ready(conf, f, w, i, n) && Rank(f) >= 2
    ensures LastIndex(n.log) == |n.log| - 1 && FirstIndex(n.log) == 0
  {
    Consecutive(w.h.logs, w.c.disks[i].log);
  }

  lemma LeaderGood(conf: Conf, f: Family, w: World, i: NodeId, n: Node, ack: Index)
    requires Ready(conf, f, w, i, n) && n.role == Candidate && |n.votes| >= Majority(n)
    ensures Good(conf, f, w, i, ack, BecomeLeader(n))
  {
    var o := BecomeLeader(n);
    PeerCount(conf, i);
    NoLeaderYet(conf, w.h, i, n, w.c.disks[i], n.votes);
    if Rank(f) >= 2 { LogLength(conf, f, w, i, n); }
    BecomeLeaderShape(n);
    var e := Entry(LastIndex(n.log) + 1, n.term, []);
    CreateGood(conf, f, w, i, n, ack, o.n, e);
    SameOut(conf, f, w, i, ack, Out(o.n, [AppendLog([e])] + Broadcast(o.n)), o);
  }

  lemma BecomeLeaderShape(n: Node)
    ensures var o := BecomeLeader(n);
            var e := Entry(LastIndex(n.log) + 1, n.term, []);
            && o.acts == [AppendLog([e])] + Broadcast(o.n)
            && Extends(n, o.n, e) && MatchKept(n, o.n) && (LastIndex(n.log) == |n.log| - 1 ==> NextOk(o.n))
  {}

  /** What proposing looks like to `CreateGood`. */
  lemma AppendCommandShape(conf: Conf, f: Family, h: Hist, i: NodeId, n: Node, d: Disk, command: Bytes)
    requires NodeOk(conf, f, h, i, n, d) && n.role == Leader
    ensures var o := AppendCommand(n, command);
            var e := Entry(LastIndex(n.log) + 1, n.term, command);
            && o.acts == [AppendLog([e])] + Broadcast(o.n)
            && Extends(n, o.n, e) && MatchKept(n, o.n) && (Rank(f) >= 2 ==> NextOk(o.n))
  {}

  lemma AppendCommandGood(conf: Conf, f: Family, w: World, i: NodeId, n: Node, ack: Index, command: Bytes)
    requires Ready(conf, f, w, i, n) && n.role == Leader
    ensures Good(conf, f, w, i, ack, AppendCommand(n, command))
  {
    var o := AppendCommand(n, command);
    AppendCommandShape(conf, f, w.h, i, n, w.c.disks[i], command);
    CreateGood(conf, f, w, i, n, ack, o.n, Entry(LastIndex(n.log) + 1, n.term, command));
  }
}
