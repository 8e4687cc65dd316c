/** Proof-level history of a run: what was voted, who led, what was written, acknowledged and applied.
    It is updated action by action beside the cluster and never read by it. */
module History {
  import opened Types
  import opened LogSpec
  import opened Kernel
  import opened DiskSpec
  import opened Cluster

  /** A vote cast, with the voter's log at that moment. */
  datatype Ballot = Ballot(cand: NodeId, vlog: Log)

  datatype Hist = Hist(
    lead: map<Term, NodeId>,               // who wrote the first entry of a term, as its leader
    quorum: map<Term, set<NodeId>>,        // the votes that leader had by then
    logs: map<Term, Log>,                  // the log of a term's leader
    ballots: map<(Term, NodeId), Ballot>,  // (term, voter)
    acks: set<(NodeId, Term, Index)>,      // the node held the term leader's log up to the index
    made: set<Entry>,                      // entries created by leaders
    applied: set<Entry>)                   // entries handed to a state machine

  const NOTHING := Hist(map[], map[], map[], map[], {}, {}, {})

  predicate Cast(h: Hist, t: Term, j: NodeId, c: NodeId) {
    (t, j) in h.ballots && h.ballots[(t, j)].cand == c
  }

  function Voters(ids: set<NodeId>, h: Hist, t: Term, c: NodeId): set<NodeId> {
    set j | j in ids && Cast(h, t, j, c)
  }

  /** The history after node i carries out `a`, its disk being `d` before. */
  function Track(ids: set<NodeId>, h: Hist, i: NodeId, d: Disk, ack: Index, a: Action): Hist {
    match a
    case Send(m) =>
      if m.kind.AppendEntriesResponse? && m.kind.success then h.(acks := h.acks + {(i, m.term, ack)}) else h
    case AppendLog(es) =>
      if |es| != 1 then h
      else
        var t := es[0].term;
        h.(lead := h.lead[t := i],
           quorum := if t in h.quorum then h.quorum else h.quorum[t := Voters(ids, h, t, i)],
           logs := h.logs[t := Perform(d, a).log],
           acks := h.acks + {(i, t, es[0].index)},
           made := h.made + {es[0]})
    case TruncateAndAppend(_, _) => h
    case PersistHardState(term, voted) =>
      if voted.None? || (term, i) in h.ballots then h
      else h.(ballots := h.ballots[(term, i) := Ballot(voted.value, d.log)])
    case Apply(es) => h.(applied := h.applied + set e | e in es)
    case PersistSnapshot(_, _) => h
  }

  datatype World = World(c: Net, h: Hist)

  function Do(w: World, i: NodeId, ack: Index, a: Action): World
    requires i in w.c.disks
  {
    World(Act(w.c, i, ack, a), Track(w.c.disks.Keys, w.h, i, w.c.disks[i], ack, a))
  }

  function DoAll(w: World, i: NodeId, ack: Index, acts: seq<Action>): (r: World)
    requires i in w.c.disks
    ensures r.c == ActAll(w.c, i, ack, acts)
    decreases |acts|
  {
    if acts == [] then w else DoAll(Do(w, i, ack, acts[0]), i, ack, acts[1..])
  }

  function Advance(conf: Conf, w: World, s: Step): (r: World)
    requires Enabled(conf, w.c, s)
    ensures r.c == Next(conf, w.c, s)
  {
    var c := Next(conf, w.c, s);
    if Dies(w.c, s) then World(c, w.h)
    else match s
      case Call(i, ev, rt) => World(c, DoAll(w, i, AckOf(ev), Handle(w.c.nodes[i], ev, rt).acts).h)
      case Torn(i, ev, rt, done) => World(c, DoAll(w, i, AckOf(ev), Handle(w.c.nodes[i], ev, rt).acts[..done]).h)
      case Crash(i) => World(c, w.h)
      case Spawn(i, rt) => World(c, w.h)
  }

  /** The run of `Cluster.State` together with its history. */
  function Past(conf: Conf, f: Family, run: seq<Step>): (r: World)
    ensures r.c == State(conf, f, run)
  {
    if run == [] then World(Initial(conf), NOTHING)
    else
      var w := Past(conf, f, run[..|run| - 1]);
      if Allowed(conf, f, w.c, run[|run| - 1]) then Advance(conf, w, run[|run| - 1]) else w
  }

  /** Removing or replacing live nodes beforehand does not change what the actions do. */
  lemma {:induction false} DoAllIgnoresNodes(w: World, i: NodeId, ack: Index, acts: seq<Action>,
                                             nodes: map<NodeId, Node>)
    requires i in w.c.disks
    ensures DoAll(w.(c := w.c.(nodes := nodes)), i, ack, acts)
         == (var r := DoAll(w, i, ack, acts); r.(c := r.c.(nodes := nodes)))
    decreases |acts|
  {
    if acts != [] {
      var v := w.(c := w.c.(nodes := nodes));
      assert Do(v, i, ack, acts[0]) == (var r := Do(w, i, ack, acts[0]); r.(c := r.c.(nodes := nodes)));
      DoAllIgnoresNodes(Do(w, i, ack, acts[0]), i, ack, acts[1..], nodes);
    }
  }
}
