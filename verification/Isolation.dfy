/** Pre-Vote isolation: a group too small for a majority that hears nothing from outside cannot
    inflate its terms, whatever ticks, deliveries, crashes and restarts happen inside it. */
module Isolation {
  import opened Types
  import opened LogSpec
  import opened Kernel
  import opened Cluster
  import opened History
  import opened Election
  import opened Invariant
  import opened Handlers
  import opened Protocol
  import opened Theorems

  ghost predicate Minority(conf: Conf, g: set<NodeId>) {
    g <= conf.ids && 2 * |g| <= |conf.ids|
  }

  /** The step delivers nothing from outside the group to a member; client requests are harmless. */
  predicate Sealed(g: set<NodeId>, s: Step) {
    (s.Call? || s.Torn?) && s.i in g && s.ev.Recv? ==> s.ev.pkt.msg.from in g || s.ev.pkt.msg.kind.ClientRequest?
  }

  predicate OwnPreVotes(g: set<NodeId>, n: Node) {
    n.role == PreCandidate ==> n.preVotes <= g
  }

  predicate Capped(acts: seq<Action>, bound: Term) {
    forall a | a in acts :: a.PersistHardState? ==> a.term <= bound
  }

  /** What a call does to terms when the node holds too few pre-votes. */
  predicate Contained(g: set<NodeId>, bound: Term, o: Out) {
    o.n.term <= bound && OwnPreVotes(g, o.n) && Capped(o.acts, bound)
  }

  lemma CommitContained(g: set<NodeId>, bound: Term, n: Node)
    requires n.term <= bound && OwnPreVotes(g, n)
    ensures Contained(g, bound, MaybeAdvance(n))
  {}

  lemma FollowContained(g: set<NodeId>, bound: Term, n: Node, k: Index)
    requires n.term <= bound && n.role == Follower
    ensures Contained(g, bound, FollowLeaderCommit(n, k)) && FollowLeaderCommit(n, k).n.role == Follower
  {}

  lemma AcceptContained(g: set<NodeId>, bound: Term, n: Node, from: NodeId, es: seq<Entry>, k: Index)
    requires n.term <= bound && n.role == Follower
    ensures Contained(g, bound, Accept(n, from, es, k))
  {
    FollowContained(g, bound, Merge(n, es).n, k);
  }

  lemma ProposeContained(g: set<NodeId>, bound: Term, n: Node, command: Bytes)
    requires n.term <= bound && OwnPreVotes(g, n)
    ensures Contained(g, bound, Propose(n, command)) && (n.role == Leader ==> Propose(n, command).n.role == Leader)
  {
    if n.role == Leader { CommitContained(g, bound, AppendCommand(n, command).n); }
  }

  lemma AppendContained(g: set<NodeId>, bound: Term, n: Node, m: Message, rt: nat)
    requires n.term <= bound && OwnPreVotes(g, n) && m.kind.AppendEntries? && m.term <= bound
    ensures Contained(g, bound, HandleAppendEntries(n, m, rt))
  {
    if m.term >= n.term {
      var o := BecomeFollower(n, m.term, Some(m.from), rt);
      if Rejection(o.n.log, m.kind.prevIndex, m.kind.prevTerm).None? {
        AcceptContained(g, bound, o.n, m.from, m.kind.entries, m.kind.leaderCommit);
      }
    }
  }

  /** Pre-votes from inside the group never reach a majority. */
  lemma PreVotesContained(g: set<NodeId>, bound: Term, n: Node, from: NodeId, term: Term, granted: bool, rt: nat)
    requires n.term <= bound && OwnPreVotes(g, n) && from in g && |g| < Majority(n)
    ensures Contained(g, bound, HandlePreVoteResponse(n, from, term, granted, rt))
  {
    if n.role == PreCandidate { SubsetSize(n.preVotes + {from}, g); }
  }

  lemma VotesContained(g: set<NodeId>, bound: Term, n: Node, from: NodeId, term: Term, granted: bool)
    requires n.term <= bound && OwnPreVotes(g, n)
    ensures Contained(g, bound, HandleRequestVoteResponse(n, from, term, granted))
  {}

  predicate Mild(g: set<NodeId>, bound: Term, m: Message) {
    (m.kind.ClientRequest? || (m.from in g && (!m.kind.PreVoteMsg() && !m.kind.ClientMsg() ==> m.term <= bound)))
  }

  lemma DispatchContained(g: set<NodeId>, bound: Term, n: Node, m: Message, rt: nat)
    requires n.term <= bound && OwnPreVotes(g, n) && |g| < Majority(n) && Mild(g, bound, m)
    ensures Contained(g, bound, Dispatch(n, m, rt))
  {
    match m.kind
    case ClientRequest(command) => ProposeContained(g, bound, n, command);
    case ClientResponse(_, _) =>
    case PreVote(_, _) =>
    case PreVoteResponse(granted) => PreVotesContained(g, bound, n, m.from, m.term, granted, rt);
    case RequestVote(_, _) =>
    case RequestVoteResponse(granted) => VotesContained(g, bound, n, m.from, m.term, granted);
    case AppendEntries(_, _, _, _) => AppendContained(g, bound, n, m, rt);
    case AppendEntriesResponse(_, _, _) => CommitContained(g, bound, WithAck(n, m.from, LastIndex(n.log)));
    case InstallSnapshot(_, _, _) =>
    case InstallSnapshotResponse => CommitContained(g, bound, WithAck(n, m.from, FirstIndex(n.log)));
  }

  lemma CallContained(g: set<NodeId>, bound: Term, n: Node, ev: Event, rt: nat)
    requires n.term <= bound && OwnPreVotes(g, n) && |g| < Majority(n) && n.id in g && n.peers != []
    requires ev.Recv? ==> Mild(g, bound, ev.pkt.msg)
    ensures Contained(g, bound, Handle(n, ev, rt))
  {
    match ev
    case Timer =>
    case Recv(p) =>
      if Bumps(n, p.msg) {
        DispatchContained(g, bound, BecomeFollower(n, p.msg.term, None, rt).n, p.msg, rt);
      } else if !Stale(n, p.msg) {
        DispatchContained(g, bound, n, p.msg, rt);
      }
    case Submit(command) => ProposeContained(g, bound, n, command);
    case Compact(_, _) =>
  }

  // ---- steps and runs ----------------------------------------------------------------------

  ghost predicate Quietly(g: set<NodeId>, bound: Term, c: Net) {
    && (forall i | i in g :: i in c.disks && c.disks[i].term <= bound)
    && (forall i | i in g && i in c.nodes :: OwnPreVotes(g, c.nodes[i]))
  }

  lemma {:induction false} CappedDisk(c: Net, i: NodeId, ack: Index, acts: seq<Action>, bound: Term)
    requires i in c.disks && c.disks[i].term <= bound && Capped(acts, bound)
    ensures ActAll(c, i, ack, acts).disks[i].term <= bound
    ensures forall j | j in c.disks && j != i :: ActAll(c, i, ack, acts).disks[j] == c.disks[j]
    decreases |acts|
  {
    if acts != [] {
      assert acts[0] in acts;
      CappedDisk(Act(c, i, ack, acts[0]), i, ack, acts[1..], bound);
    }
  }

  lemma OutsideDisk(c: Net, i: NodeId, ack: Index, acts: seq<Action>)
    requires i in c.disks
    ensures forall j | j in c.disks && j != i :: ActAll(c, i, ack, acts).disks[j] == c.disks[j]
    decreases |acts|
  {
    if acts != [] { OutsideDisk(Act(c, i, ack, acts[0]), i, ack, acts[1..]); }
  }

  lemma MemberCall(conf: Conf, f: Family, w: World, g: set<NodeId>, bound: Term, i: NodeId, ev: Event, rt: nat)
    requires ValidConf(conf) && Inv(conf, f, w) && Minority(conf, g) && Quietly(g, bound, w.c) && i in g
    requires Callable(conf, w.c, i, ev, rt) && (ev.Recv? ==> ev.pkt.msg.from in g || ev.pkt.msg.kind.ClientRequest?)
    ensures Contained(g, bound, Handle(w.c.nodes[i], ev, rt))
  {
    var n := w.c.nodes[i];
    assert NodeE(conf, w.h, i, n, w.c.disks[i]);
    PeerCount(conf, i);
    if n.peers == [] { SubsetSize({i}, g); }
    if ev.Recv? && !ev.pkt.msg.kind.ClientRequest? {
      assert MsgE(conf, w.h, w.c.disks, ev.pkt.msg);
    }
    CallContained(g, bound, n, ev, rt);
  }

  lemma ActsQuiet(c: Net, g: set<NodeId>, bound: Term, i: NodeId, ack: Index, acts: seq<Action>,
                  nodes: map<NodeId, Node>)
    requires Quietly(g, bound, c) && i in c.disks && (i in g ==> Capped(acts, bound))
    requires forall k | k in g && k in nodes :: OwnPreVotes(g, nodes[k])
    ensures Quietly(g, bound, ActAll(c, i, ack, acts).(nodes := nodes))
  {
    OutsideDisk(c, i, ack, acts);
    if i in g { CappedDisk(c, i, ack, acts, bound); }
  }

  lemma StepQuiet(conf: Conf, f: Family, w: World, g: set<NodeId>, bound: Term, s: Step)
    requires ValidConf(conf) && Inv(conf, f, w) && Minority(conf, g) && Quietly(g, bound, w.c)
    requires Allowed(conf, f, w.c, s) && Sealed(g, s)
    ensures Quietly(g, bound, Next(conf, w.c, s))
  {
    if Dies(w.c, s) {
      RestartQuiet(conf, w.c, g, bound, Crash(s.i));
    } else {
      match s
      case Call(i, ev, rt) => CallQuiet(conf, f, w, g, bound, i, ev, rt);
      case Torn(i, ev, rt, done) => TornQuiet(conf, f, w, g, bound, i, ev, rt, done);
      case Crash(_) => RestartQuiet(conf, w.c, g, bound, s);
      case Spawn(_, _) => RestartQuiet(conf, w.c, g, bound, s);
    }
  }

  lemma RestartQuiet(conf: Conf, c: Net, g: set<NodeId>, bound: Term, s: Step)
    requires Quietly(g, bound, c) && Enabled(conf, c, s) && (s.Crash? || s.Spawn?)
    ensures Quietly(g, bound, Next(conf, c, s))
  {}

  lemma CallQuiet(conf: Conf, f: Family, w: World, g: set<NodeId>, bound: Term, i: NodeId, ev: Event, rt: nat)
    requires ValidConf(conf) && Inv(conf, f, w) && Minority(conf, g) && Quietly(g, bound, w.c)
    requires Callable(conf, w.c, i, ev, rt)
    requires i in g && ev.Recv? ==> ev.pkt.msg.from in g || ev.pkt.msg.kind.ClientRequest?
    requires !Fatal(w.c.nodes[i], ev)
    ensures Quietly(g, bound, Next(conf, w.c, Call(i, ev, rt)))
  {
    if i in g { MemberCall(conf, f, w, g, bound, i, ev, rt); }
    CalledQuiet(conf, w.c, g, bound, i, ev, rt);
  }

  lemma CalledQuiet(conf: Conf, c: Net, g: set<NodeId>, bound: Term, i: NodeId, ev: Event, rt: nat)
    requires Quietly(g, bound, c) && Callable(conf, c, i, ev, rt)
    requires i in g ==> Contained(g, bound, Handle(c.nodes[i], ev, rt))
    requires !Fatal(c.nodes[i], ev)
    ensures Quietly(g, bound, Next(conf, c, Call(i, ev, rt)))
  {
    var o := Handle(c.nodes[i], ev, rt);
    ActsQuiet(c, g, bound, i, AckOf(ev), o.acts, c.nodes[i := o.n]);
  }

  lemma TornQuiet(conf: Conf, f: Family, w: World, g: set<NodeId>, bound: Term, i: NodeId, ev: Event, rt: nat,
                  done: nat)
    requires ValidConf(conf) && Inv(conf, f, w) && Minority(conf, g) && Quietly(g, bound, w.c)
    requires Callable(conf, w.c, i, ev, rt)
    requires i in g && ev.Recv? ==> ev.pkt.msg.from in g || ev.pkt.msg.kind.ClientRequest?
    requires Enabled(conf, w.c, Torn(i, ev, rt, done)) && !Fatal(w.c.nodes[i], ev)
    ensures Quietly(g, bound, Next(conf, w.c, Torn(i, ev, rt, done)))
  {
    if i in g { MemberCall(conf, f, w, g, bound, i, ev, rt); }
    StoppedQuiet(conf, w.c, g, bound, i, ev, rt, done);
  }

  lemma StoppedQuiet(conf: Conf, c: Net, g: set<NodeId>, bound: Term, i: NodeId, ev: Event, rt: nat, done: nat)
    requires Quietly(g, bound, c) && Callable(conf, c, i, ev, rt) && Enabled(conf, c, Torn(i, ev, rt, done))
    requires i in g ==> Contained(g, bound, Handle(c.nodes[i], ev, rt))
    requires !Fatal(c.nodes[i], ev)
    ensures Quietly(g, bound, Next(conf, c, Torn(i, ev, rt, done)))
  {
    var o := Handle(c.nodes[i], ev, rt);
    ActsQuiet(c, g, bound, i, AckOf(ev), o.acts[..done], c.nodes - {i});
  }

  lemma {:induction false} StaysQuiet(conf: Conf, f: Family, run: seq<Step>, j: nat, g: set<NodeId>, bound: Term)
    requires ValidConf(conf) && Minority(conf, g) && j <= |run| && Quietly(g, bound, At(conf, f, run, j))
    requires forall k | j <= k < |run| :: Sealed(g, run[k])
    ensures Quietly(g, bound, State(conf, f, run))
    decreases |run|
  {
    if j == |run| {
      assert run[..j] == run;
    } else {
      var prior := run[..|run| - 1];
      assert prior[..j] == run[..j];
      StaysQuiet(conf, f, prior, j, g, bound);
      RunInv(conf, f, prior);
      if Allowed(conf, f, State(conf, f, prior), run[|run| - 1]) {
        StepQuiet(conf, f, Past(conf, f, prior), g, bound, run[|run| - 1]);
      }
    }
  }

  /** Durable terms never go down. */
  lemma {:induction false} TermsRise(conf: Conf, f: Family, w: World, i: NodeId, ack: Index, acts: seq<Action>,
                                     k: nat, j: NodeId)
    requires i in w.c.disks && j in w.c.disks && AllJust(conf, f, w, i, ack, acts) && k <= |acts|
    ensures j in DoAll(w, i, ack, acts[..k]).c.disks && w.c.disks[j].term <= DoAll(w, i, ack, acts[..k]).c.disks[j].term
    decreases |acts|
  {
    if k > 0 {
      OneRises(conf, w, i, ack, acts[0], j);
      TermsRise(conf, f, Do(w, i, ack, acts[0]), i, ack, acts[1..], k - 1, j);
      FirstThenRest(w, i, ack, acts, k);
    }
  }

  lemma OneRises(conf: Conf, w: World, i: NodeId, ack: Index, a: Action, j: NodeId)
    requires i in w.c.disks && j in w.c.disks && JustE(conf, w, i, a)
    ensures w.c.disks[j].term <= Do(w, i, ack, a).c.disks[j].term
  {}

  lemma CallRises(conf: Conf, f: Family, w: World, i: NodeId, ev: Event, rt: nat, k: nat, j: NodeId)
    requires ValidConf(conf) && Inv(conf, f, w) && Callable(conf, w.c, i, ev, rt) && Admits(f, w.c.nodes[i], ev)
    requires k <= |Handle(w.c.nodes[i], ev, rt).acts| && j in conf.ids
    ensures w.c.disks[j].term <= DoAll(w, i, AckOf(ev), Handle(w.c.nodes[i], ev, rt).acts[..k]).c.disks[j].term
  {
    var o := Handle(w.c.nodes[i], ev, rt);
    var v := w.(c := w.c.(nodes := w.c.nodes - {i}));
    CallGood(conf, f, w, i, ev, rt);
    TermsRise(conf, f, v, i, AckOf(ev), o.acts, k, j);
    DoAllIgnoresNodes(w, i, AckOf(ev), o.acts[..k], v.c.nodes);
  }

  lemma StepRises(conf: Conf, f: Family, w: World, s: Step, j: NodeId)
    requires ValidConf(conf) && Inv(conf, f, w) && Allowed(conf, f, w.c, s) && j in conf.ids
    ensures j in w.c.disks && j in Next(conf, w.c, s).disks && w.c.disks[j].term <= Next(conf, w.c, s).disks[j].term
  {
    if !Dies(w.c, s) {
      match s
      case Call(i, ev, rt) => WholeCallRises(conf, f, w, i, ev, rt, j);
      case Torn(i, ev, rt, done) => CallRises(conf, f, w, i, ev, rt, done, j);
      case Crash(_) =>
      case Spawn(_, _) =>
    }
  }

  lemma WholeCallRises(conf: Conf, f: Family, w: World, i: NodeId, ev: Event, rt: nat, j: NodeId)
    requires ValidConf(conf) && Inv(conf, f, w) && Callable(conf, w.c, i, ev, rt) && Admits(f, w.c.nodes[i], ev)
    requires j in conf.ids
    ensures w.c.disks[j].term <= DoAll(w, i, AckOf(ev), Handle(w.c.nodes[i], ev, rt).acts).c.disks[j].term
  {
    var acts := Handle(w.c.nodes[i], ev, rt).acts;
    FullSlice(acts);
    CallRises(conf, f, w, i, ev, rt, |acts|, j);
  }

  lemma {:induction false} RunRises(conf: Conf, f: Family, run: seq<Step>, j: nat, i: NodeId)
    requires ValidConf(conf) && j <= |run| && i in conf.ids
    ensures i in At(conf, f, run, j).disks && i in State(conf, f, run).disks
    ensures At(conf, f, run, j).disks[i].term <= State(conf, f, run).disks[i].term
    decreases |run|
  {
    if j == |run| {
      assert run[..j] == run;
      RunInv(conf, f, run);
    } else {
      var prior := run[..|run| - 1];
      assert prior[..j] == run[..j];
      RunRises(conf, f, prior, j, i);
      RunInv(conf, f, prior);
      if Allowed(conf, f, State(conf, f, prior), run[|run| - 1]) {
        StepRises(conf, f, Past(conf, f, prior), run[|run| - 1], i);
      }
    }
  }

  /** The greatest durable term of a group. */
  ghost function GroupTerm(c: Net, g: set<NodeId>): (t: Term)
    requires g != {} && g <= c.disks.Keys
    ensures exists i :: i in g && c.disks[i].term == t
    ensures forall i | i in g :: c.disks[i].term <= t
    decreases g
  {
    var i :| i in g;
    if g == {i} then c.disks[i].term
    else
      assert g == (g - {i}) + {i};
      var t := GroupTerm(c, g - {i});
      if c.disks[i].term > t then c.disks[i].term else t
  }

  lemma AllDisks(conf: Conf, f: Family, run: seq<Step>)
    requires ValidConf(conf)
    ensures State(conf, f, run).disks.Keys == conf.ids
  {
    RunInv(conf, f, run);
  }

  /** From step j on nothing from outside reaches the group, and no pre-candidate in it holds an
      outside pre-vote at that point: then the group's greatest term never changes again. */
  lemma PreVoteIsolation(conf: Conf, f: Family, run: seq<Step>, j: nat, g: set<NodeId>)
    requires ValidConf(conf) && Minority(conf, g) && g != {} && j <= |run|
    requires forall i | i in g && i in At(conf, f, run, j).nodes :: OwnPreVotes(g, At(conf, f, run, j).nodes[i])
    requires forall k | j <= k < |run| :: Sealed(g, run[k])
    ensures g <= At(conf, f, run, j).disks.Keys && g <= State(conf, f, run).disks.Keys
    ensures GroupTerm(State(conf, f, run), g) == GroupTerm(At(conf, f, run, j), g)
  {
    AllDisks(conf, f, run[..j]);
    AllDisks(conf, f, run);
    var c, r := At(conf, f, run, j), State(conf, f, run);
    StaysQuiet(conf, f, run, j, g, GroupTerm(c, g));
    forall i | i in g ensures c.disks[i].term <= r.disks[i].term <= GroupTerm(c, g) {
      RunRises(conf, f, run, j, i);
    }
    SameGreatest(c, r, g);
  }

  lemma SameGreatest(c: Net, r: Net, g: set<NodeId>)
    requires g != {} && g <= c.disks.Keys && g <= r.disks.Keys
    requires forall i | i in g :: c.disks[i].term <= r.disks[i].term <= GroupTerm(c, g)
    ensures GroupTerm(r, g) == GroupTerm(c, g)
  {
    var i :| i in g && c.disks[i].term == GroupTerm(c, g);
    var k :| k in g && r.disks[k].term == GroupTerm(r, g);
  }
}
