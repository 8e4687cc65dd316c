/** A cluster of nodes, their disks and the network, and what a run of it is.
    The network is the set of all packets ever sent: a packet may be delivered any number of times,
    in any order, arbitrarily late or never, which covers drops, duplicates, delays and partitions. */
module Cluster {
  import opened Types
  import opened LogSpec
  import opened Kernel
  import opened DiskSpec

  /** Every server knows all the others as peers, and not itself. */
  datatype Conf = Conf(ids: set<NodeId>, peers: map<NodeId, seq<NodeId>>, base: nat, heartbeat: nat)

  ghost predicate ValidConf(conf: Conf) {
    && conf.heartbeat < conf.base
    && forall i | i in conf.ids ::
         && i in conf.peers
         && (forall p :: p in conf.peers[i] <==> p in conf.ids && p != i)
         && (forall a, b | 0 <= a < b < |conf.peers[i]| :: conf.peers[i][a] != conf.peers[i][b])
  }

  /** `ack` is proof-level: on the reply to an AppendEntries it is the index at which that request
      ended. No handler reads it. */
  datatype Packet = Packet(msg: Message, ack: Index)

  datatype Net = Net(nodes: map<NodeId, Node>, disks: map<NodeId, Disk>, sent: set<Packet>)

  datatype Event =
    | Timer
    | Recv(pkt: Packet)
    | Submit(command: Bytes)
    | Compact(index: Index, term: Term)

  /** `Torn` is a call after which the node crashes having carried out only `done` of its actions. */
  datatype Step =
    | Call(i: NodeId, ev: Event, rt: nat)
    | Torn(i: NodeId, ev: Event, rt: nat, done: nat)
    | Crash(i: NodeId)
    | Spawn(i: NodeId, rt: nat)

  function Handle(n: Node, ev: Event, rt: nat): Out {
    match ev
    case Timer => Tick(n, rt)
    case Recv(pkt) => Receive(n, pkt.msg, rt)
    case Submit(command) => Propose(n, command)
    case Compact(index, term) => CompactLogs(n, index, term)
  }

  /** The call panics. */
  predicate Fatal(n: Node, ev: Event) {
    ev.Recv? && Aborts(n, ev.pkt.msg)
  }

  function AckOf(ev: Event): Index {
    if ev.Recv? && ev.pkt.msg.kind.AppendEntries?
    then ev.pkt.msg.kind.prevIndex + |ev.pkt.msg.kind.entries| else 0
  }

  function Boot(conf: Conf, i: NodeId, d: Disk, rt: nat): Node
    requires i in conf.peers
  {
    var meta := d.snap.UnwrapOr(Meta(0, 0));
    Fresh(i, conf.peers[i], conf.base, conf.heartbeat, rt, d.term, d.voted, Restored(meta, d.log[1..]), meta.index,
          meta.index)
  }

  function Initial(conf: Conf): Net {
    Net(map[], map i | i in conf.ids :: BLANK, {})
  }

  /** Carries one action of node i out. */
  function Act(c: Net, i: NodeId, ack: Index, a: Action): Net
    requires i in c.disks
  {
    c.(disks := c.disks[i := Perform(c.disks[i], a)],
       sent := if a.Send? then c.sent + {Packet(a.msg, ack)} else c.sent)
  }

  function ActAll(c: Net, i: NodeId, ack: Index, acts: seq<Action>): (r: Net)
    requires i in c.disks
    ensures r.nodes == c.nodes && r.disks.Keys == c.disks.Keys
    decreases |acts|
  {
    if acts == [] then c else ActAll(Act(c, i, ack, acts[0]), i, ack, acts[1..])
  }

  predicate Draw(conf: Conf, rt: nat) {
    conf.base <= rt < 2 * conf.base
  }

  predicate Callable(conf: Conf, c: Net, i: NodeId, ev: Event, rt: nat) {
    && i in c.nodes && i in c.disks && Draw(conf, rt)
    && (ev.Recv? ==>
          && ev.pkt.msg.to == i
          && (ev.pkt in c.sent || ev.pkt.msg.kind.ClientRequest?))
  }

  predicate Enabled(conf: Conf, c: Net, s: Step) {
    match s
    case Call(i, ev, rt) => Callable(conf, c, i, ev, rt)
    case Torn(i, ev, rt, done) => Callable(conf, c, i, ev, rt) && done <= |Handle(c.nodes[i], ev, rt).acts|
    case Crash(i) => true
    case Spawn(i, rt) => i in conf.ids && i in conf.peers && i in c.disks && Draw(conf, rt)
  }

  /** The step is a call that panics. */
  predicate Dies(c: Net, s: Step) {
    (s.Call? || s.Torn?) && s.i in c.nodes && Fatal(c.nodes[s.i], s.ev)
  }

  function Down(c: Net, i: NodeId): Net {
    c.(nodes := c.nodes - {i})
  }

  /** A call that panics takes the node down before any of its actions is carried out. */
  function Next(conf: Conf, c: Net, s: Step): Net
    requires Enabled(conf, c, s)
  {
    if Dies(c, s) then Down(c, s.i)
    else match s
      case Call(i, ev, rt) =>
        var o := Handle(c.nodes[i], ev, rt);
        var c' := ActAll(c, i, AckOf(ev), o.acts);
        c'.(nodes := c'.nodes[i := o.n])
      case Torn(i, ev, rt, done) => Down(ActAll(c, i, AckOf(ev), Handle(c.nodes[i], ev, rt).acts[..done]), i)
      case Crash(i) => Down(c, i)
      case Spawn(i, rt) => c.(nodes := c.nodes[i := Boot(conf, i, c.disks[i], rt)])
  }

  // ---- families of runs --------------------------------------------------------------------

  datatype Family =
    | Any      // no restriction
    | Sane     // compaction never asks for an index below the retained base
    | Plain    // compaction is never called
    | Exact    // Plain, and success replies reach a leader only while its log ends where the request did

  function Rank(f: Family): nat {
    match f case Any => 0 case Sane => 1 case Plain => 2 case Exact => 3
  }

  /** A success reply that a leader of its term is about to count. */
  predicate Counts(n: Node, ev: Event) {
    && ev.Recv? && ev.pkt.msg.kind.AppendEntriesResponse? && ev.pkt.msg.kind.success
    && n.role == Leader && ev.pkt.msg.term == n.term
  }

  predicate Admits(f: Family, n: Node, ev: Event) {
    && (ev.Compact? ==> Rank(f) == 0 || (Rank(f) == 1 && FirstIndex(n.log) <= ev.index))
    && (Rank(f) == 3 && Counts(n, ev) ==> LastIndex(n.log) == ev.pkt.ack)
  }

  predicate Allowed(conf: Conf, f: Family, c: Net, s: Step) {
    && Enabled(conf, c, s)
    && (s.Call? || s.Torn? ==> Admits(f, c.nodes[s.i], s.ev))
  }

  /** The state after a list of steps; steps that are not allowed do nothing. */
  function State(conf: Conf, f: Family, run: seq<Step>): Net {
    if run == [] then Initial(conf)
    else
      var c := State(conf, f, run[..|run| - 1]);
      if Allowed(conf, f, c, run[|run| - 1]) then Next(conf, c, run[|run| - 1]) else c
  }
}
