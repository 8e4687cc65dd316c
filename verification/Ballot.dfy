/** A whole election: a group of servers that is a majority and can talk to each other has a member that wins
    as soon as its timer runs out, by the calls of the timer, the voters and the candidate alone. */
module Ballot {
  import opened Types
  import opened LogSpec
  import opened Kernel
  import opened Cluster
  import opened Timers
  import opened Voting
  import opened Quorum
  import Commit
  import Election

  /** One call per message, in order, and everything they emit. */
  function Gathered(n: Node, ms: seq<Message>, rt: nat): Out
    decreases |ms|
  {
    if ms == [] then Out(n, [])
    else
      var o := Receive(n, ms[0], rt);
      var r := Gathered(o.n, ms[1..], rt);
      Out(r.n, o.acts + r.acts)
  }

  function Senders(ms: seq<Message>): set<NodeId> {
    set m | m in ms :: m.from
  }

  lemma SendersStep(ms: seq<Message>)
    requires ms != []
    ensures Senders(ms) == {ms[0].from} + Senders(ms[1..])
  {
    assert ms == [ms[0]] + ms[1..];
  }

  lemma MoreThanHalfGrows(n: Node, s: set<NodeId>, t: set<NodeId>)
    requires MoreThanHalf(n, s) && s <= t
    ensures MoreThanHalf(n, t)
  {
    Election.SubsetSize(s, t);
  }

  // ---- pre-votes ---------------------------------------------------------------------------

  predicate PreVotesOf(n: Node, ms: seq<Message>) {
    forall m | m in ms :: m.kind == PreVoteResponse(true) && m.term == n.term
  }

  lemma {:induction false} PreVotesIgnored(n: Node, ms: seq<Message>, rt: nat)
    requires n.role != PreCandidate && forall m | m in ms :: m.kind.PreVoteResponse?
    ensures Gathered(n, ms, rt) == Out(n, [])
    decreases |ms|
  {
    if ms != [] {
      assert ms[0] in ms;
      assert Receive(n, ms[0], rt) == Out(n, []);
      PreVotesIgnored(n, ms[1..], rt);
    }
  }

  /** A candidate of the next term that has sent its requests. */
  predicate Campaigning(n: Node, rt: nat, o: Out) {
    var last := n.log[|n.log| - 1];
    && o.n == n.(preVotes := o.n.preVotes, term := n.term + 1, role := Candidate, voted := Some(n.id), votes := {n.id},
                 elapsed := 0, timeout := rt)
    && forall p | p in n.peers :: Send(Message(n.id, p, n.term + 1, RequestVote(last.index, last.term))) in o.acts
  }

  lemma StandsCampaigns(n: Node, s: set<NodeId>, rt: nat, o: Out)
    requires Stands(n, s, rt, o)
    ensures Campaigning(n, rt, o)
  {
    forall p | p in n.peers
      ensures Send(Message(n.id, p, n.term + 1, RequestVote(LastIndex(n.log), LastTerm(n.log)))) in o.acts
    {
      var k :| 0 <= k < |n.peers| && n.peers[k] == p;
      assert o.acts[1 + k] in o.acts;
    }
  }

  lemma OnePreVote(n: Node, m: Message, rt: nat)
    requires n.role == PreCandidate && n.peers != [] && PreVotesOf(n, [m])
    ensures var o := Receive(n, m, rt);
            if MoreThanHalf(n, n.preVotes + {m.from}) then Campaigning(n, rt, o)
            else o == Out(n.(preVotes := n.preVotes + {m.from}), [])
  {
    assert m in [m];
    StandsIff(n, m, rt);
    if MoreThanHalf(n, n.preVotes + {m.from}) { StandsCampaigns(n, n.preVotes + {m.from}, rt, Receive(n, m, rt)); }
  }

  lemma {:induction false} PreVotesGathered(n: Node, ms: seq<Message>, rt: nat)
    requires n.role == PreCandidate && n.peers != [] && PreVotesOf(n, ms) && ms != []
    ensures if MoreThanHalf(n, n.preVotes + Senders(ms)) then Campaigning(n, rt, Gathered(n, ms, rt))
            else Gathered(n, ms, rt) == Out(n.(preVotes := n.preVotes + Senders(ms)), [])
    decreases |ms|
  {
    assert ms[0] in ms;
    var s := n.preVotes + {ms[0].from};
    var o := Receive(n, ms[0], rt);
    OnePreVote(n, ms[0], rt);
    SendersStep(ms);
    assert s + Senders(ms[1..]) == n.preVotes + Senders(ms);
    if MoreThanHalf(n, s) {
      MoreThanHalfGrows(n, s, n.preVotes + Senders(ms));
      PreVotesIgnored(o.n, ms[1..], rt);
    } else if |ms| > 1 {
      var n' := n.(preVotes := s);
      PreVotesGathered(n', ms[1..], rt);
      if MoreThanHalf(n', s + Senders(ms[1..])) { SameCampaign(n, n', rt, Gathered(n', ms[1..], rt)); }
    } else {
      assert Senders(ms[1..]) == {};
    }
  }

  lemma SameCampaign(n: Node, n': Node, rt: nat, o: Out)
    requires n' == n.(preVotes := n'.preVotes) && Campaigning(n', rt, o)
    ensures Campaigning(n, rt, Out(o.n, [] + o.acts))
  {}

  // ---- votes -------------------------------------------------------------------------------

  predicate VotesOf(n: Node, ms: seq<Message>) {
    forall m | m in ms :: m.kind == RequestVoteResponse(true) && m.term == n.term
  }

  lemma {:induction false} VotesIgnored(n: Node, ms: seq<Message>, rt: nat)
    requires n.role != Candidate && VotesOf(n, ms)
    ensures Gathered(n, ms, rt) == Out(n, [])
    decreases |ms|
  {
    if ms != [] {
      assert ms[0] in ms;
      assert Receive(n, ms[0], rt) == Out(n, []);
      VotesIgnored(n, ms[1..], rt);
    }
  }

  lemma OneVote(n: Node, m: Message, rt: nat)
    requires n.role == Candidate && VotesOf(n, [m])
    ensures var o := Receive(n, m, rt);
            if MoreThanHalf(n, n.votes + {m.from}) then o.n.role == Leader && o.n.term == n.term
            else o == Out(n.(votes := n.votes + {m.from}), [])
  {
    assert m in [m];
    VoteReceived(n, m, rt);
    Commit.MajorityIsHalf(n);
  }

  lemma {:induction false} VotesGathered(n: Node, ms: seq<Message>, rt: nat)
    requires n.role == Candidate && VotesOf(n, ms) && ms != []
    ensures var r := Gathered(n, ms, rt).n;
            if MoreThanHalf(n, n.votes + Senders(ms)) then r.role == Leader && r.term == n.term
            else r == n.(votes := n.votes + Senders(ms))
    decreases |ms|
  {
    assert ms[0] in ms;
    var s := n.votes + {ms[0].from};
    OneVote(n, ms[0], rt);
    SendersStep(ms);
    assert s + Senders(ms[1..]) == n.votes + Senders(ms);
    if MoreThanHalf(n, s) {
      MoreThanHalfGrows(n, s, n.votes + Senders(ms));
      VotesIgnored(Receive(n, ms[0], rt).n, ms[1..], rt);
    } else if |ms| > 1 {
      VotesGathered(n.(votes := s), ms[1..], rt);
    } else {
      assert Senders(ms[1..]) == {};
    }
  }

  // ---- the whole election ------------------------------------------------------------------

  /** Servers of one configuration and one term, none of which is listening to a leader. */
  ghost predicate Group(conf: Conf, group: seq<Node>, t: Term) {
    && (forall v | v in group ::
          && v.id in conf.ids && v.id in conf.peers && v.peers == conf.peers[v.id]
          && v.term == t && !Leased(v))
    && (forall a, b | 0 <= a < b < |group| :: group[a].id != group[b].id)
  }

  ghost function Ids(group: seq<Node>): set<NodeId> {
    set v | v in group :: v.id
  }

  /** What the voters answer to the requests of `n`. */
  function PreVotes(voters: seq<Node>, n: Node, t: Term, rt: nat): (ms: seq<Message>)
    ensures |ms| == |voters|
  {
    seq(|voters|, k requires 0 <= k < |voters| => Last(Receive(voters[k], PreVoteRequest(n, voters[k], t), rt)))
  }

  function Votes(voters: seq<Node>, n: Node, t: Term, rt: nat): (ms: seq<Message>)
    ensures |ms| == |voters|
  {
    seq(|voters|, k requires 0 <= k < |voters| => Last(Receive(voters[k], VoteRequest(n, voters[k], t), rt)))
  }

  /** The last message of a call. */
  function Last(o: Out): Message {
    if o.acts != [] && o.acts[|o.acts| - 1].Send? then o.acts[|o.acts| - 1].msg
    else Message(o.n.id, o.n.id, o.n.term, ClientResponse(false, None))
  }

  function Others(group: seq<Node>, c: nat): seq<Node>
    requires c < |group|
  {
    group[..c] + group[c + 1..]
  }

  lemma OthersIn(conf: Conf, group: seq<Node>, t: Term, c: nat)
    requires ValidConf(conf) && Group(conf, group, t) && c < |group|
    ensures forall v | v in Others(group, c) :: v in group && v.id in group[c].peers
  {
    var others := Others(group, c);
    forall v | v in others ensures v in group && v.id in group[c].peers {
      var k :| 0 <= k < |others| && others[k] == v;
      assert v == group[if k < c then k else k + 1];
      assert group[c] in group && v.id != group[c].id;
    }
  }

  lemma OthersIds(group: seq<Node>, c: nat)
    requires c < |group|
    ensures Ids(group) == {group[c].id} + Ids(Others(group, c))
  {
    assert group == group[..c] + [group[c]] + group[c + 1..];
    assert forall v :: v in group <==> v == group[c] || v in Others(group, c);
  }

  /** The member of the group whose log end reaches all the others. */
  ghost predicate Ahead(group: seq<Node>, c: nat) {
    c < |group| && forall v | v in group :: Reaches(EndOf(group[c].log), EndOf(v.log))
  }

  /** Servers in term t without leases whose logs n's log reaches, enough of them, together with n, for an
      election. */
  ghost predicate Voters(n: Node, voters: seq<Node>, t: Term) {
    && voters != [] && n.peers != [] && MoreThanHalf(n, {n.id} + Ids(voters))
    && forall v | v in voters ::
         v.term == t && !Leased(v) && v.id in n.peers && Reaches(EndOf(n.log), EndOf(v.log))
  }

  lemma OthersVote(conf: Conf, group: seq<Node>, t: Term, c: nat)
    requires ValidConf(conf) && Group(conf, group, t) && Ahead(group, c) && |group| > 1
    requires Election.MajoritySet(conf, Ids(group))
    ensures Voters(group[c], Others(group, c), t)
  {
    var n, others := group[c], Others(group, c);
    OthersIn(conf, group, t, c);
    OthersIds(group, c);
    assert n in group && others[0] in others;
    MoreThanHalfIsMajority(conf, n.id, n, Ids(group));
  }

  lemma PreVoted(voters: seq<Node>, n: Node, t: Term, rt: nat)
    requires Voters(n, voters, t)
    ensures var ms := PreVotes(voters, n, t + 1, rt);
            && (forall k | 0 <= k < |ms| :: ms[k] == Message(voters[k].id, n.id, t, PreVoteResponse(true)))
            && Senders(ms) == Ids(voters)
  {
    var ms := PreVotes(voters, n, t + 1, rt);
    forall k | 0 <= k < |ms| ensures ms[k] == Message(voters[k].id, n.id, t, PreVoteResponse(true)) {
      assert voters[k] in voters;
      PreVoteIff(voters[k], PreVoteRequest(n, voters[k], t + 1), rt);
    }
    SendersAre(voters, ms);
  }

  lemma Voted(voters: seq<Node>, n: Node, t: Term, rt: nat)
    requires Voters(n, voters, t)
    ensures var ms := Votes(voters, n, t + 1, rt);
            && (forall k | 0 <= k < |ms| :: ms[k] == Message(voters[k].id, n.id, t + 1, RequestVoteResponse(true)))
            && Senders(ms) == Ids(voters)
  {
    var ms := Votes(voters, n, t + 1, rt);
    forall k | 0 <= k < |ms| ensures ms[k] == Message(voters[k].id, n.id, t + 1, RequestVoteResponse(true)) {
      assert voters[k] in voters;
      VoteIff(voters[k], VoteRequest(n, voters[k], t + 1), rt);
    }
    SendersAre(voters, ms);
  }

  lemma PreVotePhase(c: Node, n: Node, voters: seq<Node>, t: Term, rt: nat)
    requires Voters(c, voters, t) && c.term == t
    requires n == c.(role := PreCandidate, preVotes := {c.id}, elapsed := 0, timeout := rt)
    ensures Campaigning(n, rt, Gathered(n, PreVotes(voters, c, t + 1, rt), rt))
  {
    PreVoted(voters, c, t, rt);
    PreVotesGathered(n, PreVotes(voters, c, t + 1, rt), rt);
  }

  lemma AskedAll(n: Node, rt: nat, o: Out, others: seq<Node>, t: Term)
    requires AsksAround(n, rt, o) && n.term == t && forall v | v in others :: v.id in n.peers
    ensures forall v | v in others :: Send(PreVoteRequest(n, v, t + 1)) in o.acts
  {
    forall v | v in others ensures Send(PreVoteRequest(n, v, t + 1)) in o.acts {
      var k :| 0 <= k < |n.peers| && n.peers[k] == v.id;
      assert o.acts[k] == Send(PreVoteRequest(n, v, t + 1));
    }
  }

  lemma SendersAre(voters: seq<Node>, ms: seq<Message>)
    requires |ms| == |voters| && forall k | 0 <= k < |ms| :: ms[k].from == voters[k].id
    ensures Senders(ms) == Ids(voters)
  {
    forall i | i in Senders(ms) ensures i in Ids(voters) {
      var m :| m in ms && m.from == i;
      var k :| 0 <= k < |ms| && ms[k] == m;
      assert voters[k] in voters;
    }
    forall i | i in Ids(voters) ensures i in Senders(ms) {
      var v :| v in voters && v.id == i;
      var k :| 0 <= k < |voters| && voters[k] == v;
      assert ms[k] in ms;
    }
  }

  lemma VotePhase(n: Node, voters: seq<Node>, t: Term, rt: nat)
    requires Voters(n, voters, t) && n.role == Candidate && n.term == t + 1 && n.votes == {n.id}
    ensures var r := Gathered(n, Votes(voters, n, t + 1, rt), rt).n;
            r.role == Leader && r.term == t + 1
  {
    Voted(voters, n, t, rt);
    VotesGathered(n, Votes(voters, n, t + 1, rt), rt);
  }

  /** The server's timer runs out, the others answer its pre-vote requests, and it sends requests for votes
      to all of them; they answer these, and it leads the next term. */
  predicate WinsWith(n: Node, others: seq<Node>, t: Term, rt: nat) {
    var asked := Tick(n, rt);
    var stood := Gathered(asked.n, PreVotes(others, n, t + 1, rt), rt);
    var done := Gathered(stood.n, Votes(others, stood.n, t + 1, rt), rt);
    && (forall v | v in others :: Send(PreVoteRequest(n, v, t + 1)) in asked.acts)
    && (forall v | v in others :: Send(VoteRequest(stood.n, v, t + 1)) in stood.acts)
    && done.n.role == Leader && done.n.term == t + 1
  }

  /** Any majority of the servers, in one term and listening to no leader, has a member that becomes leader
      of the next term as soon as its timer runs out and the others' answers reach it: no combination of
      logs and votes is a deadlock. */
  lemma MajorityCanElect(conf: Conf, group: seq<Node>, t: Term, rt: nat) returns (c: nat)
    requires ValidConf(conf) && Group(conf, group, t) && |group| > 1 && Election.MajoritySet(conf, Ids(group))
    ensures c < |group|
    ensures group[c].role != Leader && group[c].elapsed + 1 >= group[c].timeout ==>
              WinsWith(group[c], Others(group, c), t, rt)
  {
    c := Foremost(group);
    if group[c].role != Leader && group[c].elapsed + 1 >= group[c].timeout {
      OthersVote(conf, group, t, c);
      assert group[c] in group;
      VotersElect(group[c], Others(group, c), t, rt);
    }
  }

  lemma VotersElect(n: Node, voters: seq<Node>, t: Term, rt: nat)
    requires Voters(n, voters, t) && n.role != Leader && n.term == t && n.elapsed + 1 >= n.timeout
    ensures WinsWith(n, voters, t, rt)
  {
    AskPhase(n, voters, t, rt);
    var asked := Tick(n, rt);
    PreVotePhase(n, asked.n, voters, t, rt);
    var stood := Gathered(asked.n, PreVotes(voters, n, t + 1, rt), rt);
    StoodForAll(asked.n, stood, voters, t, rt);
    VotePhase(stood.n, voters, t, rt);
  }

  lemma AskPhase(n: Node, voters: seq<Node>, t: Term, rt: nat)
    requires Voters(n, voters, t) && n.role != Leader && n.term == t && n.elapsed + 1 >= n.timeout
    ensures var asked := Tick(n, rt);
            && asked.n == n.(role := PreCandidate, preVotes := {n.id}, elapsed := 0, timeout := rt)
            && (forall v | v in voters :: Send(PreVoteRequest(n, v, t + 1)) in asked.acts)
  {
    TimedOut(n, rt);
    AskedAll(n, rt, Tick(n, rt), voters, t);
  }

  lemma StoodForAll(n: Node, stood: Out, voters: seq<Node>, t: Term, rt: nat)
    requires Campaigning(n, rt, stood) && n.term == t && forall v | v in voters :: v.id in n.peers
    ensures forall v | v in voters :: Send(VoteRequest(stood.n, v, t + 1)) in stood.acts
  {}
}
