/** The exchange that brings a follower's log in line, as the handlers of both sides carry it out. */
module Exchange {
  import opened Types
  import opened LogSpec
  import opened Kernel
  import opened Cluster
  import opened Matching
  import opened Backtracking

  function Request(l: Node, to: NodeId): Message {
    Replicate(l, to).msg
  }

  /** What the follower sends back: the last action of its call. */
  function Answer(f: Node, m: Message, rt: nat): Message {
    var acts := Receive(f, m, rt).acts;
    if acts != [] && acts[|acts| - 1].Send? then acts[|acts| - 1].msg else m
  }

  /** One exchange: the leader's request, the follower's answer, and the leader's reaction to it. */
  function Round(l: Node, f: Node, rt: nat): (Node, Node) {
    var m := Request(l, f.id);
    (Receive(l, Answer(f, m, rt), rt).n, Receive(f, m, rt).n)
  }

  predicate Accepted(l: Node, f: Node, rt: nat) {
    var m := Answer(f, Request(l, f.id), rt);
    m.kind.AppendEntriesResponse? && m.kind.success
  }

  /** A leader of the follower's term, or of a later one, that probes the follower. */
  ghost predicate Probing(l: Node, f: Node) {
    && l.role == Leader && f.term <= l.term && f.id != l.id && Whole(l.log)
    && 1 <= NextFor(l, f.id) <= |l.log|
  }

  lemma Asked(l: Node, f: Node)
    requires Probing(l, f)
    ensures var m := Request(l, f.id);
            && m.kind.AppendEntries? && ValidMsg(m) && m.term == l.term && m.from == l.id
            && m.kind.prevIndex == NextFor(l, f.id) - 1
            && m.kind.prevTerm == TermAt(l.log, Prev(NextFor(l, f.id))).UnwrapOr(0)
  {
    var next := NextFor(l, f.id);
    assert Request(l, f.id).kind.entries == l.log[next..] && Prev(next) == next - 1;
  }

  lemma AcceptEnds(n: Node, m: Message)
    requires m.kind.AppendEntries?
    ensures var a := Accept(n, m.from, m.kind.entries, m.kind.leaderCommit);
            && a.acts != [] && a.n.id == n.id
            && a.acts[|a.acts| - 1] == Send(Message(n.id, m.from, n.term, AppendEntriesResponse(true, None, None)))
  {}

  lemma Handled(f: Node, m: Message, rt: nat)
    requires m.kind.AppendEntries? && m.term == f.term
    ensures var o := HandleAppendEntries(f, m, rt);
            var r := Rejection(f.log, m.kind.prevIndex, m.kind.prevTerm);
            && o.acts != []
            && o.acts[|o.acts| - 1] == Send(Message(f.id, m.from, f.term,
                                                    r.UnwrapOr(AppendEntriesResponse(true, None, None))))
            && (r.Some? ==> o.n.log == f.log && o.n.id == f.id && o.n.term == f.term)
  {
    var o := BecomeFollower(f, m.term, Some(m.from), rt);
    assert o.n.log == f.log && o.n.id == f.id && o.n.term == f.term;
    AcceptEnds(o.n, m);
  }

  /** The follower's answer, also when the request takes it to a later term. */
  lemma Answered(f: Node, m: Message, rt: nat)
    requires m.kind.AppendEntries? && f.term <= m.term
    ensures var r := Rejection(f.log, m.kind.prevIndex, m.kind.prevTerm);
            && Answer(f, m, rt) == Message(f.id, m.from, m.term, r.UnwrapOr(AppendEntriesResponse(true, None, None)))
            && (r.Some? ==> var g := Receive(f, m, rt).n; g.log == f.log && g.id == f.id && g.term == m.term)
  {
    Protocol.ReceiveShape(f, m, rt);
    if Bumps(f, m) {
      var b := BecomeFollower(f, m.term, None, rt);
      assert b.n.log == f.log && b.n.id == f.id && b.n.term == m.term;
      Routed(b.n, m, rt);
      Handled(b.n, m, rt);
      LastOf(b.acts, Dispatch(b.n, m, rt).acts);
    } else {
      Routed(f, m, rt);
      Handled(f, m, rt);
    }
  }

  lemma Routed(n: Node, m: Message, rt: nat)
    requires m.kind.AppendEntries?
    ensures Dispatch(n, m, rt) == HandleAppendEntries(n, m, rt)
  {}

  lemma LastOf(a: seq<Action>, b: seq<Action>)
    requires b != []
    ensures (a + b)[|a + b| - 1] == b[|b| - 1]
  {}

  lemma Reacted(l: Node, m: Message, rt: nat)
    requires m.kind.AppendEntriesResponse? && !m.kind.success && l.role == Leader && m.term == l.term
    ensures var next := Backtrack(l.log, NextFor(l, m.from), m.kind.conflictTerm, m.kind.conflictIndex);
            Receive(l, m, rt).n == l.(next := l.next[m.from := next])
  {}

  /** One exchange of the handlers is one probe. */
  lemma RoundIsProbe(l: Node, f: Node, rt: nat)
    requires Probing(l, f)
    ensures var p := Probe(f.log, l.log, NextFor(l, f.id));
            var (l', f') := Round(l, f, rt);
            && (Accepted(l, f, rt) <==> p.None?)
            && (p.Some? ==>
                  && l' == l.(next := l.next[f.id := p.value])
                  && f'.log == f.log && f'.id == f.id && f'.term == l.term)
  {
    var m := Request(l, f.id);
    Asked(l, f);
    Answered(f, m, rt);
    Refused(f.log, m.kind.prevIndex, m.kind.prevTerm);
    if Rejection(f.log, m.kind.prevIndex, m.kind.prevTerm).Some? { Reacted(l, Answer(f, m, rt), rt); }
  }

  lemma Refused(s: Log, prevIndex: Index, prevTerm: Term)
    ensures var r := Rejection(s, prevIndex, prevTerm);
            r.Some? ==> r.value.AppendEntriesResponse? && !r.value.success
  {}

  /** The AppendEntries that starts right behind index m. */
  function EndRequest(l: Node, m: Index): Kind {
    AppendEntries(m, TermAt(l.log, m).UnwrapOr(0), EntriesFrom(l.log, m + 1), l.commit)
  }

  /** The first k requests are rejected, and the next one, which starts right behind index m, is
      accepted. */
  predicate LandsAfter(l: Node, f: Node, rt: nat, m: Index, k: nat)
    decreases k
  {
    if k == 0 then Accepted(l, f, rt) && Request(l, f.id).kind == EndRequest(l, m)
    else !Accepted(l, f, rt) && LandsAfter(Round(l, f, rt).0, Round(l, f, rt).1, rt, m, k - 1)
  }

  lemma EndAsked(l: Node, f: Node, m: Index)
    requires Probing(l, f) && NextFor(l, f.id) == m + 1
    ensures Request(l, f.id).kind == EndRequest(l, m)
  {
    assert Prev(m + 1) == m;
  }

  lemma StillProbing(l: Node, f: Node, l': Node, f': Node, next: Index)
    requires Probing(l, f) && l' == l.(next := l.next[f.id := next]) && f'.id == f.id && f'.term == l.term
    requires 1 <= next <= |l.log|
    ensures Probing(l', f') && NextFor(l', f'.id) == next
  {}

  /** With the two logs fixed, the exchange lands on the end of the common prefix, after as many
      rejections as `Rejections` says. */
  lemma {:induction false} Lands(l: Node, f: Node, rt: nat, m: Index)
    requires Probing(l, f) && Split(f.log, l.log, m) && m < NextFor(l, f.id)
    ensures LandsAfter(l, f, rt, m, Rejections(f.log, l.log, m, NextFor(l, f.id)))
    decreases NextFor(l, f.id)
  {
    var next := NextFor(l, f.id);
    RoundIsProbe(l, f, rt);
    ProbeProgress(f.log, l.log, m, next);
    if next == m + 1 {
      EndAsked(l, f, m);
    } else {
      var l1, f1 := Round(l, f, rt).0, Round(l, f, rt).1;
      StillProbing(l, f, l1, f1, Probe(f.log, l.log, next).value);
      Lands(l1, f1, rt, m);
    }
  }

  lemma Bounded(f: Log, l: Log, m: Index, next: Index)
    requires Split(f, l, m) && m < next <= |l|
    ensures Rejections(f, l, m, next) <= 1 + |Terms(f, m + 1, |f|)|
  {
    RoundBound(f, l, m, next);
    if next <= |f| { Election.SubsetSize(Terms(f, m + 1, next), Terms(f, m + 1, |f|)); }
  }

  /** What a run gives a leader and any follower that is not ahead of it in term. */
  lemma RunProbing(conf: Conf, fam: Family, run: seq<Step>, a: NodeId, b: NodeId)
    requires ValidConf(conf) && Rank(fam) >= 2
    requires var nodes := State(conf, fam, run).nodes;
             a in nodes && b in nodes && a != b && nodes[a].role == Leader && nodes[b].term <= nodes[a].term
    ensures var l, f := State(conf, fam, run).nodes[a], State(conf, fam, run).nodes[b];
            Probing(l, f) && f.id == b && Agree(f.log, l.log, 0)
  {
    var w := History.Past(conf, fam, run);
    Protocol.RunInv(conf, fam, run);
    assert NodeB(w.h, a, w.c.nodes[a], w.c.disks[a]) && DiskB(w.h, a, w.c.disks[a]);
    assert NodeB(w.h, b, w.c.nodes[b], w.c.disks[b]) && DiskB(w.h, b, w.c.disks[b]);
    assert Election.NodeE(conf, w.h, a, w.c.nodes[a], w.c.disks[a]);
    assert Election.NodeE(conf, w.h, b, w.c.nodes[b], w.c.disks[b]);
    LeaderProbes(w.h, w.c.nodes[a], w.c.nodes[b]);
  }

  lemma LeaderProbes(h: History.Hist, l: Node, f: Node)
    requires LogOk(h.logs, l.log) && LogOk(h.logs, f.log) && NextOk(l)
    requires l.role == Leader && f.term <= l.term && f.id != l.id
    ensures Probing(l, f) && Agree(f.log, l.log, 0)
  {
    Consecutive(h.logs, l.log);
  }

  /** In every run without compaction, whenever a leader probes a follower beyond the end of their longest
      common prefix: exchanging requests and answers with both logs fixed, the request right behind that
      prefix is the first to be accepted, after at most one rejection more than the follower has distinct
      terms beyond the prefix. */
  lemma BacktrackingLands(conf: Conf, fam: Family, run: seq<Step>, a: NodeId, b: NodeId, rt: nat) returns (k: nat)
    requires ValidConf(conf) && Rank(fam) >= 2
    requires var nodes := State(conf, fam, run).nodes;
             a in nodes && b in nodes && a != b && nodes[a].role == Leader && nodes[b].term <= nodes[a].term
    ensures var l, f := State(conf, fam, run).nodes[a], State(conf, fam, run).nodes[b];
            && Agree(f.log, l.log, 0)
            && (var m := Common(f.log, l.log, 0);
                && m < |f.log|
                && (m < NextFor(l, b) ==> LandsAfter(l, f, rt, m, k) && k <= 1 + |Terms(f.log, m + 1, |f.log|)|))
  {
    var l, f := State(conf, fam, run).nodes[a], State(conf, fam, run).nodes[b];
    RunProbing(conf, fam, run, a, b);
    assert run[..|run|] == run;
    RunLogsCoherent(conf, fam, run, |run|, |run|, b, a);
    var m := Common(f.log, l.log, 0);
    k := 0;
    if m < NextFor(l, b) {
      k := Rejections(f.log, l.log, m, NextFor(l, b));
      Lands(l, f, rt, m);
      Bounded(f.log, l.log, m, NextFor(l, b));
    }
  }
}
