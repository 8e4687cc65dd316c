/** When a group of servers can never elect a leader: a pre-vote is answered in the voter's own term, and
    counts only if that is the candidate's term too, while pre-votes never take a server to another term.
    A group without a leader in which no term has a majority of all the servers therefore stays as it is
    for ever, although it may itself be a majority. `Ballot.MajorityCanElect` is the other side. */
module Deadlock {
  import opened Types
  import opened LogSpec
  import opened Kernel
  import opened DiskSpec
  import opened Cluster
  import opened Timers
  import opened Quorum
  import opened Theorems
  import Election
  import History
  import Leading
  import Overcount
  import Protocol
  import Voting

  // ---- what stays the same -----------------------------------------------------------------

  /** The members of g whose term is t. */
  function InTermOf(g: set<NodeId>, terms: map<NodeId, Term>, t: Term): set<NodeId>
    requires g <= terms.Keys
  {
    set i | i in g && terms[i] == t
  }

  /** No term is that of a majority of all the servers within g. */
  ghost predicate Split(conf: Conf, g: set<NodeId>, terms: map<NodeId, Term>) {
    g <= conf.ids && g <= terms.Keys && forall t :: !Election.MajoritySet(conf, InTermOf(g, terms, t))
  }

  /** A member in its term that does not lead and counts pre-votes of its own term only. */
  ghost predicate Stuck(conf: Conf, g: set<NodeId>, terms: map<NodeId, Term>, i: NodeId, n: Node)
    requires g <= terms.Keys && i in g
  {
    && n.id == i && i in conf.peers && n.peers == conf.peers[i] && n.term == terms[i] && n.role != Leader
    && (n.role == PreCandidate ==> n.preVotes <= InTermOf(g, terms, terms[i]))
  }

  /** What a stuck member sends: pre-votes, answers to them in its own term, and refusals to clients. */
  predicate Harmless(g: set<NodeId>, terms: map<NodeId, Term>, m: Message) {
    && m.from in g && m.from in terms
    && (m.kind.PreVote? || (m.kind.PreVoteResponse? && m.term == terms[m.from]) || m.kind.ClientResponse?)
  }

  predicate HarmlessActs(g: set<NodeId>, terms: map<NodeId, Term>, acts: seq<Action>) {
    forall a | a in acts :: (a.Send? && Harmless(g, terms, a.msg)) || a.PersistSnapshot?
  }

  ghost predicate StaysStuck(conf: Conf, g: set<NodeId>, terms: map<NodeId, Term>, i: NodeId, o: Out)
    requires g <= terms.Keys && i in g
  {
    Stuck(conf, g, terms, i, o.n) && HarmlessActs(g, terms, o.acts)
  }

  // ---- one call ----------------------------------------------------------------------------

  lemma HasPeers(conf: Conf, g: set<NodeId>, terms: map<NodeId, Term>, i: NodeId, n: Node)
    requires ValidConf(conf) && Split(conf, g, terms) && i in g && Stuck(conf, g, terms, i, n)
    ensures n.peers != []
  {
    Handlers.PeerCount(conf, i);
    var alone := InTermOf(g, terms, terms[i]);
    assert !Election.MajoritySet(conf, alone);
    assert i in alone;
    if n.peers == [] { Election.SubsetSize({i}, alone); }
  }

  lemma TickStuck(conf: Conf, g: set<NodeId>, terms: map<NodeId, Term>, i: NodeId, n: Node, rt: nat)
    requires ValidConf(conf) && Split(conf, g, terms) && i in g && Stuck(conf, g, terms, i, n)
    ensures StaysStuck(conf, g, terms, i, Tick(n, rt))
  {
    HasPeers(conf, g, terms, i, n);
    if n.elapsed + 1 >= n.timeout {
      TimedOut(n, rt);
      AskedHarmless(conf, g, terms, i, n, rt, Tick(n, rt));
    }
  }

  lemma AskedHarmless(conf: Conf, g: set<NodeId>, terms: map<NodeId, Term>, i: NodeId, n: Node, rt: nat, o: Out)
    requires g <= terms.Keys && i in g && Stuck(conf, g, terms, i, n) && AsksAround(n, rt, o)
    ensures StaysStuck(conf, g, terms, i, o)
  {}

  /** Pre-votes of its own term never make more than half. */
  lemma PreVoteStuck(conf: Conf, g: set<NodeId>, terms: map<NodeId, Term>, i: NodeId, n: Node, m: Message, rt: nat)
    requires ValidConf(conf) && Split(conf, g, terms) && i in g && Stuck(conf, g, terms, i, n)
    requires Harmless(g, terms, m) && m.kind.PreVoteResponse?
    ensures StaysStuck(conf, g, terms, i, Receive(n, m, rt))
  {
    HasPeers(conf, g, terms, i, n);
    StandsIff(n, m, rt);
    if PreVoteCounts(n, m) {
      var some := n.preVotes + {m.from};
      var all := InTermOf(g, terms, terms[i]);
      assert !Election.MajoritySet(conf, all);
      Election.SubsetSize(some, all);
      MoreThanHalfIsMajority(conf, i, n, some);
    }
  }

  lemma ReceiveStuck(conf: Conf, g: set<NodeId>, terms: map<NodeId, Term>, i: NodeId, n: Node, m: Message, rt: nat)
    requires ValidConf(conf) && Split(conf, g, terms) && i in g && Stuck(conf, g, terms, i, n)
    requires Harmless(g, terms, m) || m.kind.ClientRequest?
    ensures StaysStuck(conf, g, terms, i, Receive(n, m, rt))
  {
    match m.kind
    case PreVoteResponse(_) => PreVoteStuck(conf, g, terms, i, n, m, rt);
    case PreVote(_, _) => Voting.PreVoteIff(n, m, rt);
    case ClientRequest(_) => Refused(n, m, rt);
    case ClientResponse(_, _) => assert Receive(n, m, rt) == Out(n, []);
  }

  lemma Refused(n: Node, m: Message, rt: nat)
    requires m.kind.ClientRequest? && n.role != Leader
    ensures Receive(n, m, rt) == Out(n, [Send(Message(n.id, m.from, n.term, ClientResponse(false, n.leader)))])
  {
    Leading.ClientServed(n, m, rt);
  }

  lemma CallStuck(conf: Conf, g: set<NodeId>, terms: map<NodeId, Term>, i: NodeId, n: Node, ev: Event, rt: nat)
    requires ValidConf(conf) && Split(conf, g, terms) && i in g && Stuck(conf, g, terms, i, n)
    requires ev.Recv? ==> Harmless(g, terms, ev.pkt.msg) || ev.pkt.msg.kind.ClientRequest?
    ensures StaysStuck(conf, g, terms, i, Handle(n, ev, rt)) && !Fatal(n, ev)
  {
    match ev
    case Timer => TickStuck(conf, g, terms, i, n, rt);
    case Recv(p) => ReceiveStuck(conf, g, terms, i, n, p.msg, rt);
    case Submit(command) => Leading.CommandProposed(n, command, rt);
    case Compact(index, term) =>
  }

  // ---- steps and runs ----------------------------------------------------------------------

  /** Every member is stuck, on disk in the same term, and whatever has been sent since `before` is
      harmless. */
  ghost predicate AllStuck(conf: Conf, g: set<NodeId>, terms: map<NodeId, Term>, before: set<Packet>, c: Net)
    requires g <= terms.Keys
  {
    && (forall i | i in g :: i in c.disks && c.disks[i].term == terms[i])
    && (forall i | i in g && i in c.nodes :: Stuck(conf, g, terms, i, c.nodes[i]))
    && (forall p | p in c.sent :: p in before || Harmless(g, terms, p.msg))
  }

  /** Only members of g are called or restarted, and of the packets sent before none arrives any more. */
  predicate Within(g: set<NodeId>, before: set<Packet>, s: Step) {
    match s
    case Call(i, ev, _) => i in g && (ev.Recv? ==> ev.pkt !in before || ev.pkt.msg.kind.ClientRequest?)
    case Torn(i, ev, _, _) => i in g && (ev.Recv? ==> ev.pkt !in before || ev.pkt.msg.kind.ClientRequest?)
    case Crash(_) => true
    case Spawn(i, _) => i in g
  }

  lemma {:induction false} ActsStuck(conf: Conf, g: set<NodeId>, terms: map<NodeId, Term>, before: set<Packet>, c: Net,
                                     i: NodeId, ack: Index, acts: seq<Action>)
    requires g <= terms.Keys && i in g && AllStuck(conf, g, terms, before, c) && HarmlessActs(g, terms, acts)
    ensures AllStuck(conf, g, terms, before, ActAll(c, i, ack, acts))
    decreases |acts|
  {
    if acts != [] {
      assert acts[0] in acts;
      ActsStuck(conf, g, terms, before, Act(c, i, ack, acts[0]), i, ack, acts[1..]);
    }
  }

  lemma StepStuck(conf: Conf, g: set<NodeId>, terms: map<NodeId, Term>, before: set<Packet>, c: Net, s: Step)
    requires ValidConf(conf) && Split(conf, g, terms) && AllStuck(conf, g, terms, before, c)
    requires Enabled(conf, c, s) && Within(g, before, s)
    ensures AllStuck(conf, g, terms, before, Next(conf, c, s))
  {
    match s
    case Call(i, ev, rt) =>
      var o := Handle(c.nodes[i], ev, rt);
      CallStuck(conf, g, terms, i, c.nodes[i], ev, rt);
      ActsStuck(conf, g, terms, before, c, i, AckOf(ev), o.acts);
    case Torn(i, ev, rt, done) =>
      var o := Handle(c.nodes[i], ev, rt);
      CallStuck(conf, g, terms, i, c.nodes[i], ev, rt);
      ActsStuck(conf, g, terms, before, c, i, AckOf(ev), o.acts[..done]);
    case Crash(_) =>
    case Spawn(i, rt) =>
  }

  lemma {:induction false} RunStuck(conf: Conf, f: Family, run: seq<Step>, j: nat, g: set<NodeId>,
                                    terms: map<NodeId, Term>)
    requires ValidConf(conf) && Split(conf, g, terms) && j <= |run|
    requires AllStuck(conf, g, terms, At(conf, f, run, j).sent, At(conf, f, run, j))
    requires forall k | j <= k < |run| :: Within(g, At(conf, f, run, j).sent, run[k])
    ensures AllStuck(conf, g, terms, At(conf, f, run, j).sent, State(conf, f, run))
    decreases |run|
  {
    if j == |run| {
      assert run[..j] == run;
    } else {
      var front := run[..|run| - 1];
      assert front[..j] == run[..j];
      RunStuck(conf, f, front, j, g, terms);
      var c := State(conf, f, front);
      if Allowed(conf, f, c, run[|run| - 1]) {
        StepStuck(conf, g, terms, At(conf, f, run, j).sent, c, run[|run| - 1]);
      }
    }
  }

  /** The terms of all servers, as they are on disk. */
  function TermsOf(c: Net): map<NodeId, Term> {
    map i | i in c.disks :: c.disks[i].term
  }

  /** No member of g leads, and no pre-candidate among them counts a pre-vote from outside its own term. */
  ghost predicate Divided(g: set<NodeId>, c: Net) {
    && g <= TermsOf(c).Keys
    && forall i | i in g && i in c.nodes ::
         && c.nodes[i].role != Leader
         && (c.nodes[i].role == PreCandidate ==> c.nodes[i].preVotes <= InTermOf(g, TermsOf(c), c.nodes[i].term))
  }

  /** No member of g leads, and all are in those terms. */
  ghost predicate Leaderless(g: set<NodeId>, terms: map<NodeId, Term>, c: Net)
    requires g <= terms.Keys
  {
    forall i | i in g && i in c.nodes :: c.nodes[i].role != Leader && c.nodes[i].term == terms[i]
  }

  /** In every run of any family: if at some step g is divided and no term has a majority of all the servers
      within g, and if from then on only members of g are called and nothing sent before arrives, then no
      member of g ever leads again and none ever leaves its term, whatever the timers, the order of
      deliveries, clients, crashes and restarts do. */
  lemma NobodyIsElected(conf: Conf, f: Family, run: seq<Step>, j: nat, g: set<NodeId>)
    requires ValidConf(conf) && j <= |run| && Divided(g, At(conf, f, run, j))
    requires Split(conf, g, TermsOf(At(conf, f, run, j)))
    requires forall k | j <= k < |run| :: Within(g, At(conf, f, run, j).sent, run[k])
    ensures Leaderless(g, TermsOf(At(conf, f, run, j)), State(conf, f, run))
  {
    StuckNow(conf, f, run[..j], g);
    RunStuck(conf, f, run, j, g, TermsOf(At(conf, f, run, j)));
  }

  lemma StuckNow(conf: Conf, f: Family, run: seq<Step>, g: set<NodeId>)
    requires ValidConf(conf) && Divided(g, State(conf, f, run))
    ensures var c := State(conf, f, run); AllStuck(conf, g, TermsOf(c), c.sent, c)
  {
    var w := History.Past(conf, f, run);
    Protocol.RunInv(conf, f, run);
    forall i | i in g && i in w.c.nodes ensures Stuck(conf, g, TermsOf(w.c), i, w.c.nodes[i]) {
      assert Election.NodeE(conf, w.h, i, w.c.nodes[i], w.c.disks[i]);
    }
  }

  // ---- two of three ------------------------------------------------------------------------

  /** Whatever the members of g do from here on without the mail sent so far, none of them leads. */
  ghost predicate NeverLed(conf: Conf, f: Family, run: seq<Step>, g: set<NodeId>)
    requires g <= TermsOf(State(conf, f, run)).Keys
  {
    forall future: seq<Step> {:trigger run + future} |
      forall s | s in future :: Within(g, State(conf, f, run).sent, s) ::
      Leaderless(g, TermsOf(State(conf, f, run)), State(conf, f, run + future))
  }

  const ASK := Packet(Overcount.ASK2, 0)
  const YES := Packet(Overcount.YES2, 0)

  lemma Answers()
    ensures Overcount.Turn(2, Overcount.B0, Recv(ASK), Overcount.B0, {YES})
  {
    Voting.PreVoteIff(Overcount.B0, Overcount.ASK2, 2);
    assert Receive(Overcount.B0, Overcount.ASK2, 2).acts[0] == Send(Overcount.YES2);
  }

  /** Server 1 asks for pre-votes, and server 2 answers. */
  lemma Asked() returns (run: seq<Step>)
    ensures Overcount.Reached(run, map[1 := Overcount.A2, 2 := Overcount.B0, 3 := Overcount.C0], {ASK})
  {
    var n0 := map[1 := Overcount.A0, 2 := Overcount.B0, 3 := Overcount.C0];
    Overcount.FirstElection();
    run := Overcount.Start();
    run := Overcount.TimeOut(run, n0, 1, Overcount.A1, Overcount.A2, {ASK});
    Overcount.Placed(Overcount.A0, Overcount.B0, Overcount.C0, Overcount.A2, Overcount.B0, Overcount.C0);
  }

  lemma Granted() returns (run: seq<Step>)
    ensures Overcount.Reached(run, map[1 := Overcount.A2, 2 := Overcount.B0, 3 := Overcount.C0], {YES})
  {
    var n1 := map[1 := Overcount.A2, 2 := Overcount.B0, 3 := Overcount.C0];
    Answers();
    run := Asked();
    run := Overcount.Fire(run, n1, {ASK}, 2, Recv(ASK), Overcount.B0, {YES}, {YES});
    Overcount.Placed(Overcount.A2, Overcount.B0, Overcount.C0, Overcount.A2, Overcount.B0, Overcount.C0);
  }

  /** Server 1 wins that pre-vote and moves to term 1. */
  lemma PreVoteWon() returns (run: seq<Step>)
    ensures Overcount.Reached(run, map[1 := Overcount.A3, 2 := Overcount.B0, 3 := Overcount.C0], {})
  {
    var n1 := map[1 := Overcount.A2, 2 := Overcount.B0, 3 := Overcount.C0];
    Overcount.FirstElection();
    run := Granted();
    run := Overcount.Fire(run, n1, {YES}, 1, Recv(YES), Overcount.A3, {}, {});
    Overcount.Placed(Overcount.A2, Overcount.B0, Overcount.C0, Overcount.A3, Overcount.B0, Overcount.C0);
  }

  /** Its vote requests are lost, and server 3 crashes. */
  lemma VotesLost() returns (run: seq<Step>)
    ensures State(Overcount.CONF, Plain, run).nodes == map[1 := Overcount.A3, 2 := Overcount.B0]
  {
    var last := PreVoteWon();
    run := last + [Crash(3)];
    assert run[..|run| - 1] == last;
  }

  /** Two live servers of three can be unable to elect a leader for ever: in some run without compaction one
      pre-vote has been answered, the vote requests it led to are lost and the third server crashes. The
      two are a majority, one in term 1 and one in term 0, and neither ever leads. */
  lemma MajorityDeadlocked() returns (run: seq<Step>)
    ensures State(Overcount.CONF, Plain, run).nodes.Keys == {1, 2}
    ensures Election.MajoritySet(Overcount.CONF, {1, 2})
    ensures {1, 2} <= TermsOf(State(Overcount.CONF, Plain, run)).Keys && NeverLed(Overcount.CONF, Plain, run, {1, 2})
  {
    run := VotesLost();
    TermsApart(run);
    forall future: seq<Step> {:trigger run + future} |
      forall s | s in future :: Within({1, 2}, State(Overcount.CONF, Plain, run).sent, s)
      ensures Leaderless({1, 2}, TermsOf(State(Overcount.CONF, Plain, run)), State(Overcount.CONF, Plain, run + future))
    {
      FutureLeaderless(run, future);
    }
  }

  lemma FutureLeaderless(run: seq<Step>, future: seq<Step>)
    requires forall s | s in future :: Within({1, 2}, State(Overcount.CONF, Plain, run).sent, s)
    requires Divided({1, 2}, State(Overcount.CONF, Plain, run))
    requires Split(Overcount.CONF, {1, 2}, TermsOf(State(Overcount.CONF, Plain, run)))
    ensures Leaderless({1, 2}, TermsOf(State(Overcount.CONF, Plain, run)), State(Overcount.CONF, Plain, run + future))
  {
    var c := State(Overcount.CONF, Plain, run);
    assert (run + future)[..|run|] == run;
    forall k | |run| <= k < |run + future| ensures Within({1, 2}, c.sent, (run + future)[k]) {
      assert (run + future)[k] == future[k - |run|];
    }
    NobodyIsElected(Overcount.CONF, Plain, run + future, |run|, {1, 2});
  }

  lemma TermsApart(run: seq<Step>)
    requires State(Overcount.CONF, Plain, run).nodes == map[1 := Overcount.A3, 2 := Overcount.B0]
    ensures var c := State(Overcount.CONF, Plain, run);
            Divided({1, 2}, c) && Split(Overcount.CONF, {1, 2}, TermsOf(c))
  {
    var c := State(Overcount.CONF, Plain, run);
    var w := History.Past(Overcount.CONF, Plain, run);
    Protocol.RunInv(Overcount.CONF, Plain, run);
    DiskTerms(w.h, c);
    OneEach(TermsOf(c));
    NeitherLeads(c);
  }

  lemma DiskTerms(h: History.Hist, c: Net)
    requires c.nodes == map[1 := Overcount.A3, 2 := Overcount.B0] && Election.InvE(Overcount.CONF, History.World(c, h))
    ensures 1 in c.disks && 2 in c.disks && c.disks[1].term == 1 && c.disks[2].term == 0
  {
    assert Election.NodeE(Overcount.CONF, h, 1, c.nodes[1], c.disks[1]);
    assert Election.NodeE(Overcount.CONF, h, 2, c.nodes[2], c.disks[2]);
  }

  lemma NeitherLeads(c: Net)
    requires c.nodes == map[1 := Overcount.A3, 2 := Overcount.B0] && {1, 2} <= c.disks.Keys
    ensures Divided({1, 2}, c)
  {}

  lemma OneEach(terms: map<NodeId, Term>)
    requires {1, 2} <= terms.Keys && terms[1] == 1 && terms[2] == 0
    ensures Split(Overcount.CONF, {1, 2}, terms)
  {
    forall t ensures !Election.MajoritySet(Overcount.CONF, InTermOf({1, 2}, terms, t)) {
      assert InTermOf({1, 2}, terms, t) == (if t == 1 then {1} else if t == 0 then {2} else {});
    }
  }
}
