/** Election Safety: the invariant of all runs, and why every single action keeps it. */
module Election {
  import opened Types
  import opened Kernel
  import opened DiskSpec
  import opened Cluster
  import opened History

  ghost predicate MajoritySet(conf: Conf, s: set<NodeId>) {
    s <= conf.ids && 2 * |s| > |conf.ids|
  }

  lemma MajoritiesMeet(conf: Conf, a: set<NodeId>, b: set<NodeId>) returns (j: NodeId)
    requires MajoritySet(conf, a) && MajoritySet(conf, b)
    ensures j in a && j in b
  {
    if a * b == {} {
      assert |a + b| == |a| + |b|;
      SubsetSize(a + b, conf.ids);
    }
    j :| j in a * b;
  }

  lemma {:induction false} SubsetSize(a: set<NodeId>, b: set<NodeId>)
    requires a <= b
    ensures |a| <= |b|
    decreases b
  {
    if a != {} {
      var x :| x in a;
      SubsetSize(a - {x}, b - {x});
    }
  }

  ghost predicate VotedFor(h: Hist, t: Term, s: set<NodeId>, c: NodeId) {
    forall j | j in s :: Cast(h, t, j, c)
  }

  ghost predicate HistE(conf: Conf, h: Hist) {
    && h.lead.Keys == h.quorum.Keys
    && (forall t, j | (t, j) in h.ballots :: j in conf.ids)
    && (forall t | t in h.lead :: MajoritySet(conf, h.quorum[t]) && VotedFor(h, t, h.quorum[t], h.lead[t]))
  }

  /** The durable vote is the ballot on record, and no ballot is ahead of the durable term. */
  ghost predicate DiskE(h: Hist, j: NodeId, d: Disk) {
    && (d.voted.Some? ==> Cast(h, d.term, j, d.voted.value))
    && (forall t | (t, j) in h.ballots :: t <= d.term && (t == d.term ==> d.voted == Some(h.ballots[(t, j)].cand)))
    && (forall t | t in h.lead && h.lead[t] == j :: t <= d.term)
  }

  ghost predicate MsgE(conf: Conf, h: Hist, disks: map<NodeId, Disk>, m: Message) {
    && m.from in conf.ids && m.from in disks
    && (!m.kind.PreVote? && !m.kind.ClientMsg() ==> m.term <= disks[m.from].term)
    && !m.kind.ClientRequest?
    && (m.kind.RequestVoteResponse? && m.kind.granted ==> Cast(h, m.term, m.from, m.to))
    && (m.kind.AppendEntries? || m.kind.InstallSnapshot? ==>
          m.term in h.lead && h.lead[m.term] == m.from)
    && (!m.kind.ClientMsg() ==> m.to != m.from)
  }

  ghost predicate NodeE(conf: Conf, h: Hist, i: NodeId, n: Node, d: Disk) {
    && n.id == i && i in conf.peers && n.peers == conf.peers[i]
    && n.term == d.term && n.voted == d.voted
    && (n.role == Candidate ==>
          n.votes <= conf.ids && VotedFor(h, n.term, n.votes, i) && !(n.term in h.lead && h.lead[n.term] == i))
    && (n.role == Leader ==> n.term in h.lead && h.lead[n.term] == i)
  }

  ghost predicate InvE(conf: Conf, w: World) {
    && w.c.disks.Keys == conf.ids && w.c.nodes.Keys <= conf.ids
    && HistE(conf, w.h)
    && (forall j | j in conf.ids :: DiskE(w.h, j, w.c.disks[j]))
    && (forall p | p in w.c.sent :: MsgE(conf, w.h, w.c.disks, p.msg))
    && (forall i | i in w.c.nodes :: NodeE(conf, w.h, i, w.c.nodes[i], w.c.disks[i]))
  }

  /** What an action must satisfy for `InvE` to survive it. */
  ghost predicate JustE(conf: Conf, w: World, i: NodeId, a: Action)
    requires i in w.c.disks
  {
    var d := w.c.disks[i];
    match a
    case Send(m) => m.from == i && MsgE(conf, w.h, w.c.disks, m)
    case AppendLog(es) =>
      && |es| == 1 && es[0].term == d.term
      && (if es[0].term in w.h.lead then w.h.lead[es[0].term] == i
          else MajoritySet(conf, Voters(conf.ids, w.h, es[0].term, i)))
    case TruncateAndAppend(_, _) => true
    case PersistHardState(term, voted) => term > d.term || (term == d.term && (d.voted == None || d.voted == voted))
    case Apply(_) => true
    case PersistSnapshot(_, _) => true
  }

  /** History only grows, and new terms are led by node i. */
  ghost predicate GrowE(h: Hist, h': Hist, i: NodeId) {
    && (forall k | k in h.ballots :: k in h'.ballots && h'.ballots[k] == h.ballots[k])
    && (forall t | t in h.lead :: t in h'.lead && h'.lead[t] == h.lead[t])
    && (forall t | t in h'.lead && t !in h.lead :: h'.lead[t] == i)
  }

  lemma MsgStaysE(conf: Conf, h: Hist, ds: map<NodeId, Disk>, h': Hist, ds': map<NodeId, Disk>, i: NodeId, m: Message)
    requires MsgE(conf, h, ds, m) && GrowE(h, h', i)
    requires m.from in ds' && ds[m.from].term <= ds'[m.from].term
    ensures MsgE(conf, h', ds', m)
  {}

  lemma NodeStaysE(conf: Conf, h: Hist, h': Hist, i: NodeId, k: NodeId, n: Node, d: Disk)
    requires NodeE(conf, h, k, n, d) && GrowE(h, h', i) && k != i
    ensures NodeE(conf, h', k, n, d)
  {}

  lemma DiskStaysE(h: Hist, h': Hist, i: NodeId, j: NodeId, d: Disk)
    requires DiskE(h, j, d) && GrowE(h, h', i) && j != i
    requires forall k | k in h'.ballots && k !in h.ballots :: k.1 == i
    ensures DiskE(h', j, d)
  {}

  /** Puts the pieces together once the acting disk and the history have been dealt with. */
  lemma AssembleE(conf: Conf, w: World, v: World, i: NodeId)
    requires InvE(conf, w) && i in conf.ids && i !in w.c.nodes
    requires GrowE(w.h, v.h, i) && (forall k | k in v.h.ballots && k !in w.h.ballots :: k.1 == i)
    requires HistE(conf, v.h)
    requires v.c.disks.Keys == w.c.disks.Keys && (forall j | j in w.c.disks && j != i :: v.c.disks[j] == w.c.disks[j])
    requires w.c.disks[i].term <= v.c.disks[i].term && DiskE(v.h, i, v.c.disks[i])
    requires v.c.nodes == w.c.nodes
    requires forall p | p in v.c.sent && p !in w.c.sent :: MsgE(conf, w.h, w.c.disks, p.msg)
    ensures InvE(conf, v)
  {
    forall j | j in conf.ids ensures DiskE(v.h, j, v.c.disks[j]) {
      if j != i { DiskStaysE(w.h, v.h, i, j, w.c.disks[j]); }
    }
    forall p | p in v.c.sent ensures MsgE(conf, v.h, v.c.disks, p.msg) {
      MsgStaysE(conf, w.h, w.c.disks, v.h, v.c.disks, i, p.msg);
    }
    forall k | k in v.c.nodes ensures NodeE(conf, v.h, k, v.c.nodes[k], v.c.disks[k]) {
      NodeStaysE(conf, w.h, v.h, i, k, w.c.nodes[k], w.c.disks[k]);
    }
  }

  lemma KeepE(conf: Conf, w: World, i: NodeId, ack: Index, a: Action)
    requires InvE(conf, w) && i in conf.ids && i !in w.c.nodes && JustE(conf, w, i, a)
    ensures InvE(conf, Do(w, i, ack, a))
  {
    ActorE(conf, w, i, ack, a);
    AssembleE(conf, w, Do(w, i, ack, a), i);
  }

  lemma ActorE(conf: Conf, w: World, i: NodeId, ack: Index, a: Action)
    requires HistE(conf, w.h) && w.c.disks.Keys == conf.ids && i in conf.ids && DiskE(w.h, i, w.c.disks[i])
    requires JustE(conf, w, i, a)
    ensures var h' := Track(conf.ids, w.h, i, w.c.disks[i], ack, a);
            && GrowE(w.h, h', i) && (forall k | k in h'.ballots && k !in w.h.ballots :: k.1 == i)
            && HistE(conf, h') && DiskE(h', i, Perform(w.c.disks[i], a))
            && w.c.disks[i].term <= Perform(w.c.disks[i], a).term
  {
    if a.AppendLog? {
      LeadE(conf, w.h, i, w.c.disks[i], ack, a);
    } else if a.PersistHardState? {
      VoteE(conf, w.h, i, w.c.disks[i], ack, a);
    }
  }

  lemma LeadE(conf: Conf, h: Hist, i: NodeId, d: Disk, ack: Index, a: Action)
    requires HistE(conf, h) && DiskE(h, i, d) && a.AppendLog? && |a.entries| == 1 && a.entries[0].term == d.term
    requires if d.term in h.lead then h.lead[d.term] == i else MajoritySet(conf, Voters(conf.ids, h, d.term, i))
    ensures var h' := Track(conf.ids, h, i, d, ack, a);
            h'.ballots == h.ballots && GrowE(h, h', i) && HistE(conf, h') && DiskE(h', i, Perform(d, a))
  {
    var h' := Track(conf.ids, h, i, d, ack, a);
    assert h'.lead == h.lead[d.term := i] && h'.ballots == h.ballots;
    assert Perform(d, a).term == d.term && Perform(d, a).voted == d.voted;
  }

  lemma VoteE(conf: Conf, h: Hist, i: NodeId, d: Disk, ack: Index, a: Action)
    requires HistE(conf, h) && DiskE(h, i, d) && a.PersistHardState? && i in conf.ids
    requires a.term > d.term || (a.term == d.term && (d.voted == None || d.voted == a.voted))
    ensures var h' := Track(conf.ids, h, i, d, ack, a);
            && GrowE(h, h', i) && (forall k | k in h'.ballots && k !in h.ballots :: k.1 == i)
            && HistE(conf, h') && DiskE(h', i, Perform(d, a))
  {
    var h' := Track(conf.ids, h, i, d, ack, a);
    assert h'.lead == h.lead && h'.quorum == h.quorum;
    forall t | t in h'.lead ensures VotedFor(h', t, h'.quorum[t], h'.lead[t]) {
      assert VotedFor(h, t, h.quorum[t], h.lead[t]);
    }
  }

  /** The new leader of a term is its only one: two majorities would share a voter. */
  lemma NoLeaderYet(conf: Conf, h: Hist, i: NodeId, n: Node, d: Disk, votes: set<NodeId>)
    requires HistE(conf, h) && NodeE(conf, h, i, n, d) && n.role == Candidate
    requires VotedFor(h, n.term, votes, i) && MajoritySet(conf, votes)
    ensures n.term !in h.lead && MajoritySet(conf, Voters(conf.ids, h, n.term, i))
  {
    if n.term in h.lead {
      var j := MajoritiesMeet(conf, votes, h.quorum[n.term]);
      assert false;
    }
    SubsetSize(votes, Voters(conf.ids, h, n.term, i));
  }
}
