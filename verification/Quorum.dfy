/** When a server becomes a candidate or a leader: as soon as more than half of the servers have granted,
    and not before. None of this is said in terms of the kernel's own quorum. */
module Quorum {
  import opened Types
  import opened LogSpec
  import opened Kernel
  import opened Cluster
  import opened Handlers
  import Commit
  import Election

  predicate MoreThanHalf(n: Node, s: set<NodeId>) {
    2 * |s| > |n.peers| + 1
  }

  /** Within a configuration that is a majority of its servers. */
  lemma MoreThanHalfIsMajority(conf: Conf, i: NodeId, n: Node, s: set<NodeId>)
    requires ValidConf(conf) && i in conf.ids && n.peers == conf.peers[i] && s <= conf.ids
    ensures MoreThanHalf(n, s) <==> Election.MajoritySet(conf, s)
  {
    PeerCount(conf, i);
  }

  // ---- votes -------------------------------------------------------------------------------

  /** A reply that counts: the candidate of this very term, and a granted vote. */
  predicate VoteCounts(n: Node, m: Message)
    requires m.kind.RequestVoteResponse?
  {
    n.role == Candidate && m.term == n.term && m.kind.granted
  }

  /** The new leader: a no-op behind its log, every peer still to be probed from there, and one request to
      each peer that carries the no-op alone. */
  predicate TakesOffice(n: Node, votes: set<NodeId>, o: Out) {
    var last := n.log[|n.log| - 1];
    var noop := Entry(last.index + 1, n.term, []);
    && o.n.role == Leader && o.n.leader == Some(n.id) && o.n.term == n.term && o.n.voted == n.voted
    && o.n.votes == votes && o.n.commit == n.commit && o.n.applied == n.applied && o.n.heartbeatElapsed == 0
    && o.n.log == n.log + [noop]
    && o.n.next.Keys == o.n.matched.Keys == (set p | p in n.peers)
    && (forall p | p in n.peers :: o.n.next[p] == last.index + 1 && o.n.matched[p] == 0)
    && |o.acts| == 1 + |n.peers| && o.acts[0] == AppendLog([noop])
    && (forall k | 0 <= k < |n.peers| ::
          o.acts[1 + k] == Send(Message(n.id, n.peers[k], n.term,
                                        AppendEntries(last.index, last.term, [noop], n.commit))))
  }

  lemma OfficeTaken(n: Node)
    requires Contiguous(n.log)
    ensures TakesOffice(n, n.votes, BecomeLeader(n))
  {
    var m := BecomeLeader(n).n;
    var noop := Entry(LastIndex(n.log) + 1, n.term, []);
    assert BecomeLeader(n).acts == [AppendLog([noop])] + Broadcast(m);
    forall k | 0 <= k < |n.peers|
      ensures Broadcast(m)[k] == Send(Message(n.id, n.peers[k], n.term,
                                              AppendEntries(LastIndex(n.log), LastTerm(n.log), [noop], n.commit)))
    {
      FirstRequest(n, m, n.peers[k]);
    }
  }

  lemma FirstRequest(n: Node, l: Node, p: NodeId)
    requires Contiguous(n.log) && p in l.next && l.next[p] == LastIndex(n.log) + 1
    requires l.log == n.log + [Entry(LastIndex(n.log) + 1, n.term, [])]
    requires l.id == n.id && l.term == n.term && l.commit == n.commit
    ensures Replicate(l, p) == Send(Message(n.id, p, n.term,
                                            AppendEntries(LastIndex(n.log), LastTerm(n.log),
                                                          [Entry(LastIndex(n.log) + 1, n.term, [])], n.commit)))
  {
    assert Prev(LastIndex(n.log) + 1) == LastIndex(n.log);
    assert l.log[|n.log|..] == [Entry(LastIndex(n.log) + 1, n.term, [])];
    assert l.log[|n.log| - 1] == n.log[|n.log| - 1];
  }

  /** A candidate becomes leader with the very vote that brings it above half, and with no earlier one. */
  lemma ElectedIff(n: Node, m: Message, rt: nat)
    requires m.kind.RequestVoteResponse? && m.term <= n.term && Contiguous(n.log)
    ensures var o := Receive(n, m, rt);
            var votes := n.votes + {m.from};
            if !VoteCounts(n, m) then o == Out(n, [])
            else if MoreThanHalf(n, votes) then TakesOffice(n, votes, o)
            else o == Out(n.(votes := votes), [])
  {
    if VoteCounts(n, m) {
      var v := n.(votes := n.votes + {m.from});
      VoteReceived(n, m, rt);
      Commit.MajorityIsHalf(v);
      OfficeTaken(v);
      SameOffice(n, v, BecomeLeader(v));
    } else {
      VoteIgnored(n, m, rt);
    }
  }

  lemma SameOffice(n: Node, v: Node, o: Out)
    requires v == n.(votes := v.votes) && TakesOffice(v, v.votes, o)
    ensures TakesOffice(n, v.votes, o)
  {}

  lemma VoteIgnored(n: Node, m: Message, rt: nat)
    requires m.kind.RequestVoteResponse? && m.term <= n.term && !VoteCounts(n, m)
    ensures Receive(n, m, rt) == Out(n, [])
  {}

  lemma VoteReceived(n: Node, m: Message, rt: nat)
    requires m.kind.RequestVoteResponse? && VoteCounts(n, m)
    ensures var v := n.(votes := n.votes + {m.from});
            Receive(n, m, rt) == if |v.votes| >= Majority(v) then BecomeLeader(v) else Out(v, [])
  {
    var v := n.(votes := n.votes + {m.from});
    assert [] + BecomeLeader(v).acts == BecomeLeader(v).acts;
  }

  /** For any set of votes that is a majority of the configuration, whatever its size. */
  lemma MajorityElects(conf: Conf, i: NodeId, n: Node, m: Message, rt: nat)
    requires ValidConf(conf) && i in conf.ids && n.peers == conf.peers[i]
    requires m.kind.RequestVoteResponse? && VoteCounts(n, m) && n.votes + {m.from} <= conf.ids
    ensures Receive(n, m, rt).n.role == Leader <==> Election.MajoritySet(conf, n.votes + {m.from})
    ensures Receive(n, m, rt).n.role != Leader ==> Receive(n, m, rt) == Out(n.(votes := n.votes + {m.from}), [])
  {
    var v := n.(votes := n.votes + {m.from});
    Commit.MajorityIsHalf(v);
    VoteReceived(n, m, rt);
    MoreThanHalfIsMajority(conf, i, n, v.votes);
  }

  // ---- pre-votes ---------------------------------------------------------------------------

  predicate PreVoteCounts(n: Node, m: Message)
    requires m.kind.PreVoteResponse?
  {
    n.role == PreCandidate && m.term == n.term && m.kind.granted
  }

  /** The candidate of the next term: its own vote, on disk before anything is sent, a fresh timer, and one
      request to each peer that carries its own log end. */
  predicate Stands(n: Node, preVotes: set<NodeId>, rt: nat, o: Out) {
    var last := n.log[|n.log| - 1];
    && o.n == n.(preVotes := preVotes, term := n.term + 1, role := Candidate, voted := Some(n.id), votes := {n.id},
                 elapsed := 0, timeout := rt)
    && |o.acts| == 1 + |n.peers| && o.acts[0] == PersistHardState(n.term + 1, Some(n.id))
    && (forall k | 0 <= k < |n.peers| ::
          o.acts[1 + k] == Send(Message(n.id, n.peers[k], n.term + 1, RequestVote(last.index, last.term))))
  }

  /** A pre-candidate with peers starts the real election with the very pre-vote that brings it above half,
      and with no earlier one. */
  lemma StandsIff(n: Node, m: Message, rt: nat)
    requires m.kind.PreVoteResponse? && n.peers != []
    ensures var o := Receive(n, m, rt);
            var preVotes := n.preVotes + {m.from};
            if !PreVoteCounts(n, m) then o == Out(n, [])
            else if MoreThanHalf(n, preVotes) then Stands(n, preVotes, rt, o)
            else o == Out(n.(preVotes := preVotes), [])
  {
    var v := n.(preVotes := n.preVotes + {m.from});
    Commit.MajorityIsHalf(v);
    if PreVoteCounts(n, m) { PreVoteReceived(n, m, rt); }
  }

  lemma PreVoteReceived(n: Node, m: Message, rt: nat)
    requires m.kind.PreVoteResponse? && PreVoteCounts(n, m)
    ensures var v := n.(preVotes := n.preVotes + {m.from});
            Receive(n, m, rt) == if |v.preVotes| >= Majority(v) then StartRealElection(v, rt) else Out(v, [])
  {
    var v := n.(preVotes := n.preVotes + {m.from});
    assert [] + StartRealElection(v, rt).acts == StartRealElection(v, rt).acts;
  }

  lemma MajorityStands(conf: Conf, i: NodeId, n: Node, m: Message, rt: nat)
    requires ValidConf(conf) && i in conf.ids && n.peers == conf.peers[i] && n.peers != []
    requires m.kind.PreVoteResponse? && PreVoteCounts(n, m) && n.preVotes + {m.from} <= conf.ids
    ensures Receive(n, m, rt).n.role == Candidate <==> Election.MajoritySet(conf, n.preVotes + {m.from})
    ensures Receive(n, m, rt).n.role != Candidate ==>
              Receive(n, m, rt) == Out(n.(preVotes := n.preVotes + {m.from}), [])
  {
    StandsIff(n, m, rt);
    MoreThanHalfIsMajority(conf, i, n, n.preVotes + {m.from});
  }
}
