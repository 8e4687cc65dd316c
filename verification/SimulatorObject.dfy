/** The simulator: maps of nodes and disks, changed by deliveries, ticks, compactions, crashes and
    restarts. Ghost state records the run it performs, which is always a run of `Cluster`. The network
    and the random generator are the environment: what is delivered and every timeout drawn are
    parameters. Nodes and disks are held by value; `NodeObject` and `StableDiskObject` show that the
    objects behave like these values. */
module SimulatorObject {
  import opened Types
  import opened LogSpec
  import opened Kernel
  import opened DiskSpec
  import opened Cluster
  import opened Theorems
  import opened Consequences
  import opened Checkers
  import Checked

  // ---- the actions of one call, one by one -------------------------------------------------

  lemma {:induction false} ActAllSnoc(c: Net, i: NodeId, ack: Index, acts: seq<Action>, k: nat)
    requires i in c.disks && k < |acts|
    ensures ActAll(c, i, ack, acts[..k + 1]) == Act(ActAll(c, i, ack, acts[..k]), i, ack, acts[k])
    decreases |acts|
  {
    if k == 0 {
      assert acts[..1][1..] == [];
    } else {
      ActAllSnoc(Act(c, i, ack, acts[0]), i, ack, acts[1..], k - 1);
      assert acts[..k + 1][1..] == acts[1..][..k] && acts[..k][1..] == acts[1..][..k - 1];
    }
  }

  lemma {:induction false} ActAllNodes(c: Net, i: NodeId, ack: Index, acts: seq<Action>, nodes: map<NodeId, Node>)
    requires i in c.disks
    ensures ActAll(c.(nodes := nodes), i, ack, acts) == ActAll(c, i, ack, acts).(nodes := nodes)
    decreases |acts|
  {
    if acts != [] {
      assert Act(c.(nodes := nodes), i, ack, acts[0]) == Act(c, i, ack, acts[0]).(nodes := nodes);
      ActAllNodes(Act(c, i, ack, acts[0]), i, ack, acts[1..], nodes);
    }
  }

  lemma {:induction false} SentGrows(c: Net, i: NodeId, ack: Index, acts: seq<Action>)
    requires i in c.disks
    ensures c.sent <= ActAll(c, i, ack, acts).sent
    decreases |acts|
  {
    if acts != [] { SentGrows(Act(c, i, ack, acts[0]), i, ack, acts[1..]); }
  }

  /** Carrying the actions out, no write panics. */
  ghost predicate Carries(c: Net, i: NodeId, ack: Index, acts: seq<Action>)
    requires i in c.disks
  {
    forall k {:trigger acts[k]} | 0 <= k < |acts| :: !Panics(ActAll(c, i, ack, acts[..k]).disks[i], acts[k])
  }

  /** The cluster when the node has changed and nothing has been carried out yet. */
  ghost function Answered(c: Net, i: NodeId, n: Node): Net {
    c.(nodes := c.nodes[i := n])
  }

  /** No write of an allowed call panics, and the outcome is the next state of the run. */
  lemma CallCarries(conf: Conf, trace: seq<Step>, i: NodeId, ev: Event, rt: nat)
    requires var c := State(conf, Sane, trace);
             ValidConf(conf) && Callable(conf, c, i, ev, rt) && Admits(Sane, c.nodes[i], ev)
    ensures var c := State(conf, Sane, trace);
            var o := Handle(c.nodes[i], ev, rt);
            && !Fatal(c.nodes[i], ev) && Carries(Answered(c, i, o.n), i, AckOf(ev), o.acts)
            && State(conf, Sane, trace + [Call(i, ev, rt)]) == ActAll(Answered(c, i, o.n), i, AckOf(ev), o.acts)
            && c.sent <= State(conf, Sane, trace + [Call(i, ev, rt)]).sent
  {
    var c := State(conf, Sane, trace);
    var o := Handle(c.nodes[i], ev, rt);
    var nodes := c.nodes[i := o.n];
    CallNeverPanics(conf, Sane, trace, i, ev, rt);
    forall k | 0 <= k < |o.acts|
      ensures !Panics(ActAll(c.(nodes := nodes), i, AckOf(ev), o.acts[..k]).disks[i], o.acts[k])
    {
      DiskNeverPanics(conf, Sane, trace, i, ev, rt, k);
      ActAllNodes(c, i, AckOf(ev), o.acts[..k], nodes);
    }
    ActAllNodes(c, i, AckOf(ev), o.acts, nodes);
    SentGrows(c, i, AckOf(ev), o.acts);
    Extended(conf, trace, Call(i, ev, rt));
  }

  lemma Extended(conf: Conf, trace: seq<Step>, s: Step)
    requires Allowed(conf, Sane, State(conf, Sane, trace), s)
    ensures State(conf, Sane, trace + [s]) == Next(conf, State(conf, Sane, trace), s)
  {
    assert (trace + [s])[..|trace|] == trace;
  }

  // ---- what the checker remembers ----------------------------------------------------------

  ghost predicate Remembers(conf: Conf, trace: seq<Step>, leaders: map<Term, NodeId>) {
    forall t | t in leaders :: Once(conf, trace, leaders[t], t)
  }

  ghost predicate Once(conf: Conf, trace: seq<Step>, a: NodeId, t: Term) {
    exists j :: 0 <= j <= |trace| && Leads(At(conf, Sane, trace, j), a, t)
  }

  lemma RemembersLonger(conf: Conf, trace: seq<Step>, s: Step, leaders: map<Term, NodeId>)
    requires Remembers(conf, trace, leaders)
    ensures Remembers(conf, trace + [s], leaders)
  {
    forall t | t in leaders ensures Once(conf, trace + [s], leaders[t], t) {
      assert Once(conf, trace, leaders[t], t);
      var j :| 0 <= j <= |trace| && Leads(At(conf, Sane, trace, j), leaders[t], t);
      assert (trace + [s])[..j] == trace[..j];
      assert Leads(At(conf, Sane, trace + [s], j), leaders[t], t);
    }
  }

  /** What the checker remembers of the run never conflicts with the nodes as they are now. */
  lemma NoConflict(conf: Conf, trace: seq<Step>, leaders: map<Term, NodeId>, views: seq<Node>)
    requires ValidConf(conf) && Remembers(conf, trace, leaders)
    requires forall n | n in views :: Checked.Alive(State(conf, Sane, trace), n)
    ensures Note(leaders, Leaders(views)).Some? && Remembers(conf, trace, Note(leaders, Leaders(views)).value)
    ensures forall x, y, i | 0 <= x < |views| && 0 <= y < |views| :: !Clash(views[x], views[y], i)
  {
    assert trace[..|trace|] == trace;
    var facts := Leaders(views);
    forall f | f in facts ensures Leads(State(conf, Sane, trace), f.1, f.0) {
      var n :| n in views && n.role == Leader && f == (n.term, n.id);
      assert Checked.Alive(State(conf, Sane, trace), n);
    }
    OneLeader(conf, trace, leaders, facts);
    NoteIff(leaders, facts);
    forall t | t in Note(leaders, facts).value ensures Once(conf, trace, Note(leaders, facts).value[t], t) {
      if t in leaders {
        assert Once(conf, trace, leaders[t], t);
      } else {
        assert (t, Note(leaders, facts).value[t]) in facts;
        assert Leads(At(conf, Sane, trace, |trace|), Note(leaders, facts).value[t], t);
      }
    }
    forall x, y, i | 0 <= x < |views| && 0 <= y < |views| ensures !Clash(views[x], views[y], i) {
      assert Checked.Alive(State(conf, Sane, trace), views[x]) && Checked.Alive(State(conf, Sane, trace), views[y]);
      Checked.LogCheckNeverFires(conf, Sane, trace, |trace|, |trace|, views[x].id, views[y].id, i);
    }
  }

  lemma OneLeader(conf: Conf, trace: seq<Step>, leaders: map<Term, NodeId>, facts: seq<(Term, NodeId)>)
    requires ValidConf(conf) && Remembers(conf, trace, leaders)
    requires forall f | f in facts :: Leads(State(conf, Sane, trace), f.1, f.0)
    ensures Consistent(leaders, facts)
  {
    assert trace[..|trace|] == trace;
    forall f | f in facts && f.0 in leaders ensures leaders[f.0] == f.1 {
      assert Once(conf, trace, leaders[f.0], f.0);
      var j :| 0 <= j <= |trace| && Leads(At(conf, Sane, trace, j), leaders[f.0], f.0);
      ElectionSafety(conf, Sane, trace, j, |trace|, leaders[f.0], f.1, f.0);
    }
    forall f, g | f in facts && g in facts && f.0 == g.0 ensures f.1 == g.1 {
      ElectionSafety(conf, Sane, trace, |trace|, |trace|, f.1, g.1, f.0);
    }
  }

  // ---- the simulator -----------------------------------------------------------------------

  /** The node keeps the entries from its commit index on, so compacting there is sane. */
  lemma CommitRetained(conf: Conf, trace: seq<Step>, i: NodeId)
    requires ValidConf(conf) && i in State(conf, Sane, trace).nodes
    ensures var n := State(conf, Sane, trace).nodes[i]; FirstIndex(n.log) <= n.commit && n.id == i
    ensures i in State(conf, Sane, trace).disks && i in conf.ids && State(conf, Sane, trace).disks.Keys == conf.ids
  {
    Protocol.RunInv(conf, Sane, trace);
    var w := History.Past(conf, Sane, trace);
    assert Uniqueness.NodeS(w.h, w.c.nodes[i], w.c.disks[i]);
    assert Election.NodeE(conf, w.h, i, w.c.nodes[i], w.c.disks[i]);
  }

  /** The packets handed over, as steps: each goes to its addressee if that node is alive. */
  function Deliveries(deliveries: seq<Packet>, alive: set<NodeId>, draw: (nat, nat) -> nat, k: nat): seq<Step>
    requires k <= |deliveries|
  {
    if k == 0 then []
    else
      var p := deliveries[k - 1];
      Deliveries(deliveries, alive, draw, k - 1)
      + if p.msg.to in alive then [Call(p.msg.to, Recv(p), draw(0, k - 1))] else []
  }

  lemma DeliveriesMore(deliveries: seq<Packet>, alive: set<NodeId>, draw: (nat, nat) -> nat, k: nat)
    requires k < |deliveries|
    ensures var p := deliveries[k];
            Deliveries(deliveries, alive, draw, k + 1) ==
              Deliveries(deliveries, alive, draw, k)
              + if p.msg.to in alive then [Call(p.msg.to, Recv(p), draw(0, k))] else []
  {}

  function Ticks(order: seq<NodeId>, draw: (nat, nat) -> nat): seq<Step> {
    seq(|order|, k requires 0 <= k < |order| => Call(order[k], Timer, draw(1, order[k])))
  }

  /** The nodes whose logs have outgrown 15 entries. */
  function Grown(nodes: map<NodeId, Node>): set<NodeId> {
    set i | i in nodes && |nodes[i].log| - 1 > 15
  }

  /** The log starts at the commit index, and what is above it stays; the rest of the node is untouched. */
  ghost predicate TrimmedAt(n: Node, m: Node) {
    && m == n.(log := m.log) && m.log[0].index == n.commit
    && forall i | i > n.commit :: EntryAt(m.log, i) == EntryAt(n.log, i)
  }

  /** That happens to a log of more than 15 entries, and nothing to a shorter one. */
  ghost predicate Trimmed(n: Node, m: Node) {
    if |n.log| > 16 then TrimmedAt(n, m) else m == n
  }

  lemma CompactTrims(n: Node, t: Term)
    requires FirstIndex(n.log) <= n.commit
    ensures TrimmedAt(n, CompactLogs(n, n.commit, t).n)
  {}

  /** Compacting at the commit index, with the term the log has there. */
  function CompactStep(nodes: map<NodeId, Node>, i: NodeId, draw: (nat, nat) -> nat): Step
    requires i in nodes
  {
    Call(i, Compact(nodes[i].commit, TermAt(nodes[i].log, nodes[i].commit).UnwrapOr(0)), draw(2, i))
  }

  function Compactions(order: seq<NodeId>, nodes: map<NodeId, Node>, draw: (nat, nat) -> nat): seq<Step>
    requires forall i | i in order :: i in nodes
  {
    seq(|order|, k requires 0 <= k < |order| => assert order[k] in order; CompactStep(nodes, order[k], draw))
  }

  /** `order` lists exactly the members of s, each once. */
  ghost predicate Lists(order: seq<NodeId>, s: set<NodeId>) {
    (forall i :: i in order <==> i in s) && (forall a, b | 0 <= a < b < |order| :: order[a] != order[b])
  }

  lemma ListsMore(order: seq<NodeId>, s: set<NodeId>, i: NodeId, t: set<NodeId>)
    requires Lists(order, s) && i !in s && t == s + {i}
    ensures Lists(order + [i], t)
  {}

  lemma TicksMore(start: seq<Step>, order: seq<NodeId>, draw: (nat, nat) -> nat, i: NodeId)
    ensures start + Ticks(order, draw) + [Call(i, Timer, draw(1, i))] == start + Ticks(order + [i], draw)
  {}

  lemma CompactionsMore(start: seq<Step>, order: seq<NodeId>, nodes: map<NodeId, Node>, draw: (nat, nat) -> nat,
                        i: NodeId)
    requires i in nodes && forall j | j in order :: j in nodes
    ensures start + Compactions(order, nodes, draw) + [CompactStep(nodes, i, draw)]
         == start + Compactions(order + [i], nodes, draw)
  {}

  class Simulator {
    const conf: Conf
    const checker: SafetyInvariants
    var nodes: map<NodeId, Node>
    var disks: map<NodeId, Disk>
    var tickCount: nat
    ghost var sent: set<Packet>
    ghost var trace: seq<Step>

    ghost function View(): Net
      reads this
    {
      Net(nodes, disks, sent)
    }

    ghost predicate Valid()
      reads this, checker
    {
      ValidConf(conf) && View() == State(conf, Sane, trace) && Remembers(conf, trace, checker.termLeaders)
    }

    constructor (conf: Conf, draw: nat -> nat)
      requires ValidConf(conf) && forall k :: Draw(conf, draw(k))
      ensures Valid() && this.conf == conf && nodes.Keys == disks.Keys == conf.ids && fresh(checker)
    {
      checker := new SafetyInvariants();
      this.conf, nodes, tickCount, sent, trace := conf, map[], 0, {}, [];
      disks := map i | i in conf.ids :: BLANK;
      new;
      var rest := conf.ids;
      while rest != {}
        invariant Valid() && disks.Keys == conf.ids && rest <= conf.ids && nodes.Keys == conf.ids - rest
        decreases rest
      {
        var i :| i in rest;
        SpawnNode(i, draw(i));
        rest := rest - {i};
      }
    }

    method SpawnNode(i: NodeId, rt: nat)
      requires Valid() && i in conf.ids && i in disks && Draw(conf, rt)
      modifies this
      ensures Valid() && trace == old(trace) + [Spawn(i, rt)]
      ensures nodes.Keys == old(nodes.Keys) + {i} && disks == old(disks) && tickCount == old(tickCount)
    {
      Extended(conf, trace, Spawn(i, rt));
      RemembersLonger(conf, trace, Spawn(i, rt), checker.termLeaders);
      nodes := nodes[i := Boot(conf, i, disks[i], rt)];
      trace := trace + [Spawn(i, rt)];
    }

    method CrashNode(i: NodeId)
      requires Valid()
      modifies this
      ensures Valid() && trace == old(trace) + [Crash(i)]
      ensures nodes == old(nodes) - {i} && disks == old(disks) && tickCount == old(tickCount)
    {
      Extended(conf, trace, Crash(i));
      RemembersLonger(conf, trace, Crash(i), checker.termLeaders);
      nodes := nodes - {i};
      trace := trace + [Crash(i)];
    }

    method ProcessActions(i: NodeId, ack: Index, acts: seq<Action>) returns (ok: bool)
      requires i in disks && Carries(View(), i, ack, acts)
      modifies this`disks, this`sent
      ensures ok && View() == ActAll(old(View()), i, ack, acts)
    {
      for k := 0 to |acts|
        invariant View() == ActAll(old(View()), i, ack, acts[..k])
      {
        ActAllSnoc(old(View()), i, ack, acts, k);
        assert !Panics(disks[i], acts[k]);
        if Panics(disks[i], acts[k]) { return false; }
        disks := disks[i := Perform(disks[i], acts[k])];
        if acts[k].Send? { sent := sent + {Packet(acts[k].msg, ack)}; }
      }
      assert acts[..|acts|] == acts;
      ok := true;
    }

    /** One call of a node with everything it asks for: one step of the run. No disk write panics. */
    method Invoke(i: NodeId, ev: Event, rt: nat) returns (ok: bool)
      requires Valid() && Callable(conf, View(), i, ev, rt) && Admits(Sane, nodes[i], ev)
      modifies this
      ensures ok && Valid() && trace == old(trace) + [Call(i, ev, rt)] && old(sent) <= sent
      ensures nodes.Keys == old(nodes.Keys) && tickCount == old(tickCount)
      ensures forall j | j in nodes :: nodes[j] == if j == i then Handle(old(nodes)[i], ev, rt).n else old(nodes)[j]
    {
      CallCarries(conf, trace, i, ev, rt);
      RemembersLonger(conf, trace, Call(i, ev, rt), checker.termLeaders);
      var o := Handle(nodes[i], ev, rt);
      nodes := nodes[i := o.n];
      ok := ProcessActions(i, AckOf(ev), o.acts);
      trace := trace + [Call(i, ev, rt)];
    }

    /** Hands every packet over to its addressee, if that node is alive. */
    method DeliverAll(deliveries: seq<Packet>, draw: (nat, nat) -> nat)
      requires Valid() && (forall p | p in deliveries :: p in sent) && forall j, k :: Draw(conf, draw(j, k))
      modifies this
      ensures Valid() && trace == old(trace) + Deliveries(deliveries, old(nodes.Keys), draw, |deliveries|)
      ensures nodes.Keys == old(nodes.Keys) && tickCount == old(tickCount)
    {
      for k := 0 to |deliveries|
        invariant Valid() && trace == old(trace) + Deliveries(deliveries, old(nodes.Keys), draw, k)
        invariant old(sent) <= sent && nodes.Keys == old(nodes.Keys) && tickCount == old(tickCount)
      {
        DeliveriesMore(deliveries, old(nodes.Keys), draw, k);
        if deliveries[k].msg.to in nodes { Deliver(deliveries[k], draw(0, k)); }
      }
    }

    method Deliver(p: Packet, rt: nat)
      requires Valid() && p in sent && p.msg.to in nodes && Draw(conf, rt)
      modifies this
      ensures Valid() && trace == old(trace) + [Call(p.msg.to, Recv(p), rt)] && old(sent) <= sent
      ensures nodes.Keys == old(nodes.Keys) && tickCount == old(tickCount)
    {
      CommitRetained(conf, trace, p.msg.to);
      var ok := Invoke(p.msg.to, Recv(p), rt);
    }

    /** Ticks every live node once, in some order. */
    method TickAll(draw: (nat, nat) -> nat) returns (ghost order: seq<NodeId>)
      requires Valid() && forall j, k :: Draw(conf, draw(j, k))
      modifies this
      ensures Valid() && Lists(order, old(nodes.Keys)) && trace == old(trace) + Ticks(order, draw)
      ensures nodes.Keys == old(nodes.Keys) && tickCount == old(tickCount)
    {
      var alive := nodes.Keys;
      order := [];
      while alive != {}
        invariant Valid() && trace == old(trace) + Ticks(order, draw)
        invariant nodes.Keys == old(nodes.Keys) && tickCount == old(tickCount)
        invariant alive <= nodes.Keys && Lists(order, nodes.Keys - alive)
        decreases alive
      {
        var i :| i in alive;
        TicksMore(old(trace), order, draw, i);
        ListsMore(order, nodes.Keys - alive, i, nodes.Keys - (alive - {i}));
        TickNode(i, draw(1, i));
        order, alive := order + [i], alive - {i};
      }
    }

    method TickNode(i: NodeId, rt: nat)
      requires Valid() && i in nodes && Draw(conf, rt)
      modifies this
      ensures Valid() && trace == old(trace) + [Call(i, Timer, rt)]
      ensures nodes.Keys == old(nodes.Keys) && tickCount == old(tickCount)
    {
      CommitRetained(conf, trace, i);
      var ok := Invoke(i, Timer, rt);
    }

    /** Compacts every log of more than 15 entries at its commit index, in some order. */
    method CompactAll(draw: (nat, nat) -> nat) returns (ghost order: seq<NodeId>)
      requires Valid() && forall j, k :: Draw(conf, draw(j, k))
      modifies this
      ensures Valid() && Lists(order, Grown(old(nodes)))
      ensures trace == old(trace) + Compactions(order, old(nodes), draw)
      ensures nodes.Keys == old(nodes.Keys) && tickCount == old(tickCount)
      ensures forall i | i in nodes :: Trimmed(old(nodes)[i], nodes[i])
    {
      var alive := nodes.Keys;
      order := [];
      while alive != {}
        invariant nodes.Keys == old(nodes.Keys) && alive <= nodes.Keys && tickCount == old(tickCount)
        invariant forall i | i in alive :: nodes[i] == old(nodes)[i]
        invariant forall i | i in nodes && i !in alive :: Trimmed(old(nodes)[i], nodes[i])
        invariant Lists(order, Grown(old(nodes)) - alive)
        invariant Valid() && trace == old(trace) + Compactions(order, old(nodes), draw)
        decreases alive
      {
        var i :| i in alive;
        if |nodes[i].log| - 1 > 15 {
          CompactionsMore(old(trace), order, old(nodes), draw, i);
          ListsMore(order, Grown(old(nodes)) - alive, i, Grown(old(nodes)) - (alive - {i}));
          CompactNode(i, draw(2, i));
          order := order + [i];
        } else {
          assert Grown(old(nodes)) - (alive - {i}) == Grown(old(nodes)) - alive;
        }
        alive := alive - {i};
      }
    }

    method CompactNode(i: NodeId, rt: nat)
      requires Valid() && i in nodes && Draw(conf, rt)
      modifies this
      ensures Valid()
      ensures trace == old(trace) + [Call(i, Compact(old(nodes)[i].commit,
                                                     TermAt(old(nodes)[i].log, old(nodes)[i].commit).UnwrapOr(0)), rt)]
      ensures nodes.Keys == old(nodes.Keys) && tickCount == old(tickCount)
      ensures forall j | j in nodes && j != i :: nodes[j] == old(nodes)[j]
      ensures TrimmedAt(old(nodes)[i], nodes[i])
    {
      CommitRetained(conf, trace, i);
      CompactTrims(nodes[i], TermAt(nodes[i].log, nodes[i].commit).UnwrapOr(0));
      var ok := Invoke(i, Compact(nodes[i].commit, TermAt(nodes[i].log, nodes[i].commit).UnwrapOr(0)), rt);
    }

    /** The live nodes in the order a hash map happens to give. */
    method NodeList() returns (views: seq<Node>)
      requires Valid()
      ensures forall n | n in views :: Checked.Alive(View(), n)
      ensures forall i | i in nodes :: nodes[i] in views
    {
      var rest := nodes.Keys;
      views := [];
      while rest != {}
        invariant rest <= nodes.Keys
        invariant forall n | n in views :: Checked.Alive(View(), n)
        invariant forall i | i in nodes && i !in rest :: nodes[i] in views
        decreases rest
      {
        var i :| i in rest;
        CommitRetained(conf, trace, i);
        views, rest := views + [nodes[i]], rest - {i};
      }
    }

    /** One step of the simulation: every packet is delivered, every live node ticked, every grown log
        compacted, and the checker consulted. Whatever the network delivers and the generator draws, an
        error is reported exactly when the state machine check finds a conflict. */
    method Step(deliveries: seq<Packet>, draw: (nat, nat) -> nat)
      returns (ok: bool, ghost views: seq<Node>, ghost ticked: seq<NodeId>, ghost compacted: seq<NodeId>)
      requires Valid() && (forall p | p in deliveries :: p in sent) && forall j, k :: Draw(conf, draw(j, k))
      modifies this, checker
      ensures Valid() && tickCount == old(tickCount) + 1 && Lists(ticked, old(nodes.Keys))
      ensures var delivered := old(trace) + Deliveries(deliveries, old(nodes.Keys), draw, |deliveries|);
              var called := delivered + Ticks(ticked, draw);
              var nodes := State(conf, Sane, called).nodes;
              Lists(compacted, Grown(nodes)) && trace == called + Compactions(compacted, nodes, draw)
      ensures (forall n | n in views :: Checked.Alive(View(), n)) && forall i | i in nodes :: nodes[i] in views
      ensures ok <==> AppliedAgree(old(checker.committed), views)
      ensures ok ==> AppliedAdded(old(checker.committed), views, checker.committed)
    {
      tickCount := tickCount + 1;
      DeliverAll(deliveries, draw);
      ticked := TickAll(draw);
      compacted := CompactAll(draw);
      assert checker.committed == old(checker.committed);
      ok, views := Verify();
    }

    method Verify() returns (ok: bool, ghost views: seq<Node>)
      requires Valid()
      modifies checker
      ensures Valid()
      ensures (forall n | n in views :: Checked.Alive(View(), n)) && forall i | i in nodes :: nodes[i] in views
      ensures ok <==> AppliedAgree(old(checker.committed), views)
      ensures ok ==> AppliedAdded(old(checker.committed), views, checker.committed)
    {
      var list := NodeList();
      NoConflict(conf, trace, checker.termLeaders, list);
      NotedToEnd(checker.termLeaders, Leaders(list));
      LeaderCheckIff(checker.termLeaders, list);
      ok := checker.VerifySafety(list);
      views := list;
    }

    /** Hands a client command to some leader, if there is one. */
    method ProposeCommand(command: Bytes, rt: nat) returns (ok: bool, ghost leader: NodeId)
      requires Valid() && Draw(conf, rt)
      modifies this
      ensures Valid()
      ensures ok ==> leader in old(nodes) && old(nodes)[leader].role == Leader
                     && trace == old(trace) + [Call(leader, Submit(command), rt)]
      ensures !ok ==> trace == old(trace) && forall i | i in old(nodes) :: old(nodes)[i].role != Leader
    {
      var leaders := set i | i in nodes && nodes[i].role == Leader;
      if leaders == {} {
        assert forall i | i in nodes && nodes[i].role == Leader :: i in leaders;
        return false, 0;
      }
      var i :| i in leaders;
      CommitRetained(conf, trace, i);
      leader := i;
      ok := Invoke(i, Submit(command), rt);
    }
  }
}
