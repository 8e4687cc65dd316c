/** Entry uniqueness: in runs whose compactions stay at or above the retained base, index and term
    determine an entry wherever it is, and memory is a prefix of the disk. */
module Uniqueness {
  import opened Types
  import opened LogSpec
  import opened Kernel
  import opened DiskSpec
  import opened Cluster
  import opened History
  import opened Election

  ghost predicate HistS(h: Hist) {
    && (forall e | e in h.made :: e.term in h.lead)
    && (forall a, b | a in h.made && b in h.made && a.index == b.index && a.term == b.term :: a == b)
  }

  ghost predicate Born(h: Hist, es: seq<Entry>) {
    forall e | e in es :: e in h.made
  }

  /** The snapshot's index is the index of the disk log's first position. */
  ghost predicate DiskS(h: Hist, d: Disk) {
    && Contiguous(d.log) && Born(h, d.log[1..])
    && d.snap.UnwrapOr(Meta(0, 0)).index == d.log[0].index
  }

  ghost predicate MsgS(h: Hist, m: Message) {
    m.kind.AppendEntries? ==> ContiguousFrom(m.kind.entries, m.kind.prevIndex + 1) && Born(h, m.kind.entries)
  }

  /** Beyond the base, the log in memory is a prefix of the one on disk. */
  ghost predicate Mirrors(s: Log, d: Log) {
    && s[0].index == d[0].index && |s| <= |d|
    && forall k | 1 <= k < |s| :: s[k] == d[k]
  }

  ghost predicate NewestOf(h: Hist, t: Term, last: Index) {
    forall e | e in h.made && e.term == t :: e.index <= last
  }

  ghost predicate NodeS(h: Hist, n: Node, d: Disk) {
    && Contiguous(n.log) && Mirrors(n.log, d.log) && FirstIndex(n.log) <= n.commit
    && (n.role == Leader ==> NewestOf(h, n.term, LastIndex(n.log)))
  }

  ghost predicate InvS(conf: Conf, w: World)
    requires w.c.disks.Keys == conf.ids && w.c.nodes.Keys <= conf.ids
  {
    && HistS(w.h)
    && (forall j | j in conf.ids :: DiskS(w.h, w.c.disks[j]))
    && (forall p | p in w.c.sent :: MsgS(w.h, p.msg))
    && (forall i | i in w.c.nodes :: NodeS(w.h, w.c.nodes[i], w.c.disks[i]))
  }

  ghost predicate JustS(h: Hist, d: Disk, a: Action) {
    match a
    case Send(m) => MsgS(h, m)
    case AppendLog(es) =>
      && |es| == 1
      && FirstIndex(d.log) < es[0].index <= LastIndex(d.log) + 1
      && (forall e | e in h.made :: e.index != es[0].index || e.term != es[0].term)
    case TruncateAndAppend(from, es) =>
      && FirstIndex(d.log) < from <= LastIndex(d.log) + 1
      && ContiguousFrom(es, from) && Born(h, es)
    case PersistHardState(_, _) => true
    case Apply(_) => true
    case PersistSnapshot(index, _) => FirstIndex(d.log) <= index
  }

  /** Every justified write succeeds on the disk and leaves exactly this log behind. */
  lemma WriteResult(h: Hist, d: Disk, a: Action)
    requires DiskS(h, d) && JustS(h, d, a)
    ensures a.AppendLog? ==>
              PutAll(d.log, a.entries) == Some(d.log[..a.entries[0].index - FirstIndex(d.log)] + a.entries)
    ensures a.TruncateAndAppend? ==>
              Cut(d.log, a.from, a.entries) == Some(d.log[..a.from - FirstIndex(d.log)] + a.entries)
  {
    if a.AppendLog? {
      AppendResult(h, d, a.entries[0]);
      assert a.entries == [a.entries[0]];
    } else if a.TruncateAndAppend? {
      PutAllExtends(d.log[..a.from - FirstIndex(d.log)], a.entries);
    }
  }

  lemma AppendResult(h: Hist, d: Disk, e: Entry)
    requires DiskS(h, d) && JustS(h, d, AppendLog([e]))
    ensures PutAll(d.log, [e]) == Some(d.log[..e.index - FirstIndex(d.log)] + [e])
  {
    var offset := e.index - FirstIndex(d.log);
    if offset < |d.log| {
      assert d.log[offset] == d.log[1..][offset - 1];
    } else {
      assert d.log[..offset] == d.log;
    }
    assert Put(d.log, e) == Some(d.log[..offset] + [e]);
    assert [e][1..] == [];
  }

  /** Replacing everything from position k on by consecutive known entries. */
  lemma SpliceS(h: Hist, d: Disk, k: nat, es: seq<Entry>)
    requires DiskS(h, d) && 1 <= k <= |d.log| && ContiguousFrom(es, FirstIndex(d.log) + k) && Born(h, es)
    ensures DiskS(h, d.(log := d.log[..k] + es))
  {
    assert (d.log[..k] + es)[1..] == d.log[1..][..k - 1] + es;
  }

  lemma CompactS(h: Hist, d: Disk, index: Index, term: Term)
    requires DiskS(h, d) && FirstIndex(d.log) <= index
    ensures DiskS(h, WriteSnapshot(d, Meta(index, term)))
  {
    var k := index - FirstIndex(d.log);
    if 0 < k < |d.log| {
      assert Compacted(d.log, index, term)[1..] == d.log[1..][k..];
    }
  }

  lemma DiskKeepsS(ids: set<NodeId>, h: Hist, i: NodeId, d: Disk, ack: Index, a: Action)
    requires DiskS(h, d) && JustS(h, d, a)
    ensures DiskS(Track(ids, h, i, d, ack, a), Perform(d, a))
  {
    WriteResult(h, d, a);
    var h' := Track(ids, h, i, d, ack, a);
    match a
    case AppendLog(es) => SpliceS(h', d, es[0].index - FirstIndex(d.log), es);
    case TruncateAndAppend(from, es) => SpliceS(h, d, from - FirstIndex(d.log), es);
    case PersistSnapshot(index, term) => CompactS(h, d, index, term);
    case Send(_) =>
    case Apply(_) =>
    case PersistHardState(_, _) =>
  }

  lemma HistKeepsS(ids: set<NodeId>, h: Hist, i: NodeId, d: Disk, ack: Index, a: Action)
    requires HistS(h) && JustS(h, d, a)
    ensures HistS(Track(ids, h, i, d, ack, a))
  {}

  lemma MadeGrows(ids: set<NodeId>, h: Hist, i: NodeId, d: Disk, ack: Index, a: Action)
    ensures h.made <= Track(ids, h, i, d, ack, a).made
    ensures !a.AppendLog? ==> h.made == Track(ids, h, i, d, ack, a).made
  {}

  /** Puts the pieces together once the acting disk and the history have been dealt with. */
  lemma AssembleS(conf: Conf, w: World, v: World, i: NodeId)
    requires w.c.disks.Keys == conf.ids && w.c.nodes.Keys <= conf.ids && InvS(conf, w) && i in conf.ids
    requires v.c.disks.Keys == w.c.disks.Keys && (forall j | j in w.c.disks && j != i :: v.c.disks[j] == w.c.disks[j])
    requires v.c.nodes == w.c.nodes && w.h.made <= v.h.made
    requires HistS(v.h) && DiskS(v.h, v.c.disks[i])
    requires forall p | p in v.c.sent && p !in w.c.sent :: MsgS(v.h, p.msg)
    requires forall k | k in w.c.nodes :: NodeS(v.h, w.c.nodes[k], v.c.disks[k])
    ensures InvS(conf, v)
  {
    forall p | p in v.c.sent ensures MsgS(v.h, p.msg) {
      if p in w.c.sent { assert MsgS(w.h, p.msg); }
    }
    forall j | j in conf.ids ensures DiskS(v.h, v.c.disks[j]) {
      assert DiskS(w.h, w.c.disks[j]);
    }
  }

  lemma ActorKeepsS(conf: Conf, w: World, i: NodeId, ack: Index, a: Action)
    requires w.c.disks.Keys == conf.ids && w.c.nodes.Keys <= conf.ids && InvS(conf, w) && i in conf.ids
    requires JustS(w.h, w.c.disks[i], a)
    ensures var v := Do(w, i, ack, a);
            && w.h.made <= v.h.made && HistS(v.h) && DiskS(v.h, v.c.disks[i])
            && (forall p | p in v.c.sent && p !in w.c.sent :: MsgS(v.h, p.msg))
  {
    assert DiskS(w.h, w.c.disks[i]);
    MadeGrows(conf.ids, w.h, i, w.c.disks[i], ack, a);
    HistKeepsS(conf.ids, w.h, i, w.c.disks[i], ack, a);
    DiskKeepsS(conf.ids, w.h, i, w.c.disks[i], ack, a);
  }

  lemma KeepS(conf: Conf, w: World, i: NodeId, ack: Index, a: Action)
    requires InvE(conf, w) && InvS(conf, w) && i in conf.ids && i !in w.c.nodes
    requires JustE(conf, w, i, a) && JustS(w.h, w.c.disks[i], a)
    ensures InvS(conf, Do(w, i, ack, a))
  {
    var v := Do(w, i, ack, a);
    ActorKeepsS(conf, w, i, ack, a);
    forall k | k in w.c.nodes ensures NodeS(v.h, w.c.nodes[k], v.c.disks[k]) {
      OtherNodeS(conf, w, i, ack, a, k);
    }
    AssembleS(conf, w, v, i);
  }

  lemma NodeStaysS(h: Hist, h': Hist, n: Node, d: Disk)
    requires NodeS(h, n, d) && (n.role == Leader ==> forall e | e in h'.made && e !in h.made :: e.term != n.term)
    ensures NodeS(h', n, d)
  {}

  /** Another leader's term is not the term of an entry node i creates. */
  lemma OtherNodeS(conf: Conf, w: World, i: NodeId, ack: Index, a: Action, k: NodeId)
    requires InvE(conf, w) && InvS(conf, w) && i in conf.ids && k in w.c.nodes && k != i
    requires JustE(conf, w, i, a)
    ensures NodeS(Do(w, i, ack, a).h, w.c.nodes[k], w.c.disks[k])
  {
    var h' := Do(w, i, ack, a).h;
    forall e | w.c.nodes[k].role == Leader && e in h'.made && e !in w.h.made ensures e.term != w.c.nodes[k].term {
      NewTermsForeign(conf, w, i, ack, a, k, e);
    }
    NodeStaysS(w.h, h', w.c.nodes[k], w.c.disks[k]);
  }

  lemma NewTermsForeign(conf: Conf, w: World, i: NodeId, ack: Index, a: Action, k: NodeId, e: Entry)
    requires w.c.disks.Keys == conf.ids && i in conf.ids && k in w.c.nodes && k in w.c.disks && k != i
    requires NodeE(conf, w.h, k, w.c.nodes[k], w.c.disks[k]) && w.c.nodes[k].role == Leader
    requires JustE(conf, w, i, a) && e in Do(w, i, ack, a).h.made && e !in w.h.made
    ensures e.term != w.c.nodes[k].term
  {
    assert a.AppendLog? && e == a.entries[0];
  }
}
