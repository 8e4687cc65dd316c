/** The safety promises, stated on runs of the cluster alone: `State(conf, f, run[..k])` is the cluster
    after the first k steps of a run of family f. */
module Theorems {
  import opened Types
  import opened LogSpec
  import opened Kernel
  import opened DiskSpec
  import opened Cluster
  import opened History
  import opened Election
  import opened Uniqueness
  import opened Matching
  import opened Invariant
  import opened Protocol

  // ---- history along a run -----------------------------------------------------------------

  ghost predicate Grows(f: Family, h: Hist, h': Hist) {
    && (forall t | t in h.lead :: t in h'.lead && h'.lead[t] == h.lead[t])
    && h.made <= h'.made && h.applied <= h'.applied
    && (Rank(f) >= 2 ==> LogsGrow(h.logs, h'.logs) && h.acks <= h'.acks)
  }

  lemma GrowsTrans(f: Family, a: Hist, b: Hist, c: Hist)
    requires Grows(f, a, b) && Grows(f, b, c)
    ensures Grows(f, a, c)
  {}

  lemma ActGrows(conf: Conf, f: Family, w: World, i: NodeId, ack: Index, a: Action)
    requires Inv(conf, f, w) && i in conf.ids && i !in w.c.nodes && Just(conf, f, w, i, ack, a)
    ensures Grows(f, w.h, Do(w, i, ack, a).h)
  {
    MadeGrows(conf.ids, w.h, i, w.c.disks[i], ack, a);
    ActorE(conf, w, i, ack, a);
    if Rank(f) >= 2 { GrowthB(conf, w, i, ack, a); }
  }

  lemma {:induction false} ActsGrow(conf: Conf, f: Family, w: World, i: NodeId, ack: Index, acts: seq<Action>, k: nat)
    requires Inv(conf, f, w) && i in conf.ids && i !in w.c.nodes && AllJust(conf, f, w, i, ack, acts) && k <= |acts|
    ensures Grows(f, w.h, DoAll(w, i, ack, acts[..k]).h)
    decreases |acts|
  {
    if k > 0 {
      var v := Do(w, i, ack, acts[0]);
      ActGrows(conf, f, w, i, ack, acts[0]);
      Keep(conf, f, w, i, ack, acts[0]);
      ActsGrow(conf, f, v, i, ack, acts[1..], k - 1);
      FirstThenRest(w, i, ack, acts, k);
      GrowsTrans(f, w.h, v.h, DoAll(w, i, ack, acts[..k]).h);
    }
  }

  lemma CallGrows(conf: Conf, f: Family, w: World, i: NodeId, ev: Event, rt: nat, k: nat)
    requires ValidConf(conf) && Inv(conf, f, w) && Callable(conf, w.c, i, ev, rt) && Admits(f, w.c.nodes[i], ev)
    requires k <= |Handle(w.c.nodes[i], ev, rt).acts|
    ensures Grows(f, w.h, DoAll(w, i, AckOf(ev), Handle(w.c.nodes[i], ev, rt).acts[..k]).h)
  {
    var o := Handle(w.c.nodes[i], ev, rt);
    CallGood(conf, f, w, i, ev, rt);
    ActsGrow(conf, f, w.(c := w.c.(nodes := w.c.nodes - {i})), i, AckOf(ev), o.acts, k);
    DoAllIgnoresNodes(w, i, AckOf(ev), o.acts[..k], w.c.nodes - {i});
  }

  lemma StepGrows(conf: Conf, f: Family, w: World, s: Step)
    requires ValidConf(conf) && Inv(conf, f, w) && Allowed(conf, f, w.c, s)
    ensures Grows(f, w.h, Advance(conf, w, s).h)
  {
    if !Dies(w.c, s) {
      match s
      case Call(i, ev, rt) => WholeCallGrows(conf, f, w, i, ev, rt);
      case Torn(i, ev, rt, done) => CallGrows(conf, f, w, i, ev, rt, done);
      case Crash(_) =>
      case Spawn(_, _) =>
    }
  }

  lemma WholeCallGrows(conf: Conf, f: Family, w: World, i: NodeId, ev: Event, rt: nat)
    requires ValidConf(conf) && Inv(conf, f, w) && Callable(conf, w.c, i, ev, rt) && Admits(f, w.c.nodes[i], ev)
    ensures Grows(f, w.h, DoAll(w, i, AckOf(ev), Handle(w.c.nodes[i], ev, rt).acts).h)
  {
    var acts := Handle(w.c.nodes[i], ev, rt).acts;
    FullSlice(acts);
    CallGrows(conf, f, w, i, ev, rt, |acts|);
  }

  lemma LastStepGrows(conf: Conf, f: Family, run: seq<Step>)
    requires ValidConf(conf) && run != []
    ensures Grows(f, Past(conf, f, run[..|run| - 1]).h, Past(conf, f, run).h)
  {
    var w := Past(conf, f, run[..|run| - 1]);
    RunInv(conf, f, run[..|run| - 1]);
    if Allowed(conf, f, w.c, run[|run| - 1]) { StepGrows(conf, f, w, run[|run| - 1]); }
  }

  lemma {:induction false} RunGrows(conf: Conf, f: Family, run: seq<Step>, j: nat, k: nat)
    requires ValidConf(conf) && j <= k <= |run|
    ensures Grows(f, Past(conf, f, run[..j]).h, Past(conf, f, run[..k]).h)
    decreases k
  {
    if j < k {
      RunGrows(conf, f, run, j, k - 1);
      assert run[..k][..k - 1] == run[..k - 1];
      LastStepGrows(conf, f, run[..k]);
      GrowsTrans(f, Past(conf, f, run[..j]).h, Past(conf, f, run[..k - 1]).h, Past(conf, f, run[..k]).h);
    }
  }

  ghost function At(conf: Conf, f: Family, run: seq<Step>, k: nat): Net
    requires k <= |run|
  {
    State(conf, f, run[..k])
  }

  ghost predicate Leads(c: Net, a: NodeId, t: Term) {
    a in c.nodes && c.nodes[a].role == Leader && c.nodes[a].term == t
  }

  // ---- Election Safety ---------------------------------------------------------------------

  lemma LeaderOnRecord(conf: Conf, f: Family, run: seq<Step>, j: nat, a: NodeId, t: Term)
    requires ValidConf(conf) && j <= |run| && Leads(At(conf, f, run, j), a, t)
    ensures var h := Past(conf, f, run).h; t in h.lead && h.lead[t] == a
  {
    var w := Past(conf, f, run[..j]);
    RunInv(conf, f, run[..j]);
    RunGrows(conf, f, run, j, |run|);
    assert run[..|run|] == run;
    assert NodeE(conf, w.h, a, w.c.nodes[a], w.c.disks[a]);
  }

  /** At most one node is ever leader of a term, whatever crashes, losses, duplicates, snapshots and
      compactions happen. */
  lemma ElectionSafety(conf: Conf, f: Family, run: seq<Step>, j: nat, k: nat, a: NodeId, b: NodeId, t: Term)
    requires ValidConf(conf) && j <= |run| && k <= |run|
    requires Leads(At(conf, f, run, j), a, t) && Leads(At(conf, f, run, k), b, t)
    ensures a == b
  {
    LeaderOnRecord(conf, f, run, j, a, t);
    LeaderOnRecord(conf, f, run, k, b, t);
  }

  // ---- Entry uniqueness --------------------------------------------------------------------

  /** A non-sentinel entry in some memory, on some disk or in some packet. */
  ghost predicate Occurs(c: Net, e: Entry) {
    || (exists i :: i in c.nodes && e in c.nodes[i].log[1..])
    || (exists i :: i in c.disks && e in c.disks[i].log[1..])
    || (exists p :: p in c.sent && p.msg.kind.AppendEntries? && e in p.msg.kind.entries)
  }

  lemma MemoryMade(h: Hist, n: Node, d: Disk, e: Entry)
    requires NodeS(h, n, d) && DiskS(h, d) && e in n.log[1..]
    ensures e in h.made
  {
    var k :| 0 <= k < |n.log[1..]| && n.log[1..][k] == e;
    assert d.log[1..][k] == n.log[k + 1];
  }

  lemma OccurrenceMade(conf: Conf, f: Family, w: World, e: Entry)
    requires Inv(conf, f, w) && Rank(f) >= 1 && Occurs(w.c, e)
    ensures e in w.h.made
  {
    if i :| i in w.c.nodes && e in w.c.nodes[i].log[1..] {
      MemoryMade(w.h, w.c.nodes[i], w.c.disks[i], e);
    } else if i :| i in w.c.disks && e in w.c.disks[i].log[1..] {
      assert DiskS(w.h, w.c.disks[i]);
    } else {
      var p :| p in w.c.sent && p.msg.kind.AppendEntries? && e in p.msg.kind.entries;
      assert MsgS(w.h, p.msg);
    }
  }

  /** In runs with compaction, snapshots and restarts, index and term determine the entry, wherever
      and whenever it shows up. */
  lemma EntryUniqueness(conf: Conf, f: Family, run: seq<Step>, j: nat, k: nat, a: Entry, b: Entry)
    requires ValidConf(conf) && f != Any && j <= |run| && k <= |run|
    requires Occurs(At(conf, f, run, j), a) && Occurs(At(conf, f, run, k), b)
    requires a.index == b.index && a.term == b.term
    ensures a == b
  {
    assert run[..|run|] == run;
    RunInv(conf, f, run[..j]);
    RunInv(conf, f, run[..k]);
    RunInv(conf, f, run);
    OccurrenceMade(conf, f, Past(conf, f, run[..j]), a);
    OccurrenceMade(conf, f, Past(conf, f, run[..k]), b);
    RunGrows(conf, f, run, j, |run|);
    RunGrows(conf, f, run, k, |run|);
  }

  // ---- Log Matching ------------------------------------------------------------------------

  /** A stretch of consecutive entries starting at index `start`: a whole log or a message's entries. */
  datatype Stretch = Stretch(start: Index, es: seq<Entry>)

  ghost predicate Visible(c: Net, s: Stretch) {
    || (exists i :: i in c.nodes && s == Stretch(0, c.nodes[i].log))
    || (exists i :: i in c.disks && s == Stretch(0, c.disks[i].log))
    || (exists p :: p in c.sent && p.msg.kind.AppendEntries?
                    && s == Stretch(p.msg.kind.prevIndex + 1, p.msg.kind.entries))
  }

  predicate Covers(s: Stretch, x: Index) {
    s.start <= x < s.start + |s.es|
  }

  ghost predicate PartOf(logs: map<Term, Log>, s: Stretch) {
    exists l: Log :: LogOk(logs, l) && s.start + |s.es| <= |l| && s.es == l[s.start..s.start + |s.es|]
  }

  lemma WholeLog(logs: map<Term, Log>, l: Log)
    requires LogOk(logs, l)
    ensures PartOf(logs, Stretch(0, l))
  {
    assert l[0..|l|] == l;
  }

  lemma MessagePart(h: Hist, p: Packet)
    requires MsgB(h, p) && p.msg.kind.AppendEntries? && HistB(h)
    ensures PartOf(h.logs, Stretch(p.msg.kind.prevIndex + 1, p.msg.kind.entries))
  {
    assert LeaderLog(h, p.msg.term);
    assert LogOk(h.logs, h.logs[p.msg.term]);
  }

  lemma VisiblePart(conf: Conf, f: Family, w: World, s: Stretch)
    requires Inv(conf, f, w) && Rank(f) >= 2 && Visible(w.c, s)
    ensures PartOf(w.h.logs, s)
  {
    if i :| i in w.c.nodes && s == Stretch(0, w.c.nodes[i].log) {
      assert NodeB(w.h, i, w.c.nodes[i], w.c.disks[i]);
      WholeLog(w.h.logs, w.c.disks[i].log);
    } else if i :| i in w.c.disks && s == Stretch(0, w.c.disks[i].log) {
      WholeLog(w.h.logs, w.c.disks[i].log);
    } else {
      var p :| p in w.c.sent && p.msg.kind.AppendEntries? && s == Stretch(p.msg.kind.prevIndex + 1, p.msg.kind.entries);
      MessagePart(w.h, p);
    }
  }

  lemma PartGrows(a: map<Term, Log>, b: map<Term, Log>, s: Stretch)
    requires PartOf(a, s) && LogsGrow(a, b)
    ensures PartOf(b, s)
  {
    var l: Log :| LogOk(a, l) && s.start + |s.es| <= |l| && s.es == l[s.start..s.start + |s.es|];
    LogOkStays(a, b, l);
  }

  lemma PartsMatch(logs: map<Term, Log>, s: Stretch, r: Stretch, x: Index, y: Index)
    requires PartOf(logs, s) && PartOf(logs, r) && Covers(s, x) && Covers(r, x) && Covers(s, y) && Covers(r, y)
             && y <= x
    requires s.es[x - s.start].term == r.es[x - r.start].term
    ensures s.es[y - s.start] == r.es[y - r.start]
  {
    var l: Log :| LogOk(logs, l) && s.start + |s.es| <= |l| && s.es == l[s.start..s.start + |s.es|];
    var m: Log :| LogOk(logs, m) && r.start + |r.es| <= |m| && r.es == m[r.start..r.start + |r.es|];
    assert l[x].term == m[x].term;
    if x > 0 { assert Rooted(logs, l, x) && Rooted(logs, m, x); }
    assert l[y] == m[y];
  }

  /** Two stretches seen anywhere in a run without compaction that share index and term at x agree on
      every index up to x that both cover. */
  lemma LogMatching(conf: Conf, f: Family, run: seq<Step>, j: nat, k: nat, s: Stretch, r: Stretch, x: Index, y: Index)
    requires ValidConf(conf) && Rank(f) >= 2 && j <= |run| && k <= |run|
    requires Visible(At(conf, f, run, j), s) && Visible(At(conf, f, run, k), r)
    requires Covers(s, x) && Covers(r, x) && Covers(s, y) && Covers(r, y) && y <= x
    requires s.es[x - s.start].term == r.es[x - r.start].term
    ensures s.es[y - s.start] == r.es[y - r.start]
  {
    assert run[..|run|] == run;
    RunInv(conf, f, run[..j]);
    RunInv(conf, f, run[..k]);
    VisiblePart(conf, f, Past(conf, f, run[..j]), s);
    VisiblePart(conf, f, Past(conf, f, run[..k]), r);
    RunGrows(conf, f, run, j, |run|);
    RunGrows(conf, f, run, k, |run|);
    var logs := Past(conf, f, run).h.logs;
    PartGrows(Past(conf, f, run[..j]).h.logs, logs, s);
    PartGrows(Past(conf, f, run[..k]).h.logs, logs, r);
    PartsMatch(logs, s, r, x, y);
  }

  lemma PartOrdered(logs: map<Term, Log>, s: Stretch)
    requires PartOf(logs, s)
    ensures ContiguousFrom(s.es, s.start)
    ensures forall a, b | 0 <= a < b < |s.es| :: s.es[a].term <= s.es[b].term
  {
    var l: Log :| LogOk(logs, l) && s.start + |s.es| <= |l| && s.es == l[s.start..s.start + |s.es|];
    Consecutive(logs, l);
    assert forall k | 0 <= k < |s.es| :: s.es[k] == l[s.start + k];
  }

  /** Along every visible stretch indices are consecutive and terms never decrease. */
  lemma StretchesOrdered(conf: Conf, f: Family, run: seq<Step>, s: Stretch)
    requires ValidConf(conf) && Rank(f) >= 2 && Visible(State(conf, f, run), s)
    ensures ContiguousFrom(s.es, s.start)
    ensures forall a, b | 0 <= a < b < |s.es| :: s.es[a].term <= s.es[b].term
  {
    RunInv(conf, f, run);
    VisiblePart(conf, f, Past(conf, f, run), s);
    PartOrdered(Past(conf, f, run).h.logs, s);
  }
}
