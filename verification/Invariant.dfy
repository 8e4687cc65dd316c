/** The joint invariant of a family of runs, kept by every justified action, and the rules by which
    the handlers are put together from such actions. */
module Invariant {
  import opened Types
  import opened Kernel
  import opened DiskSpec
  import opened Cluster
  import opened History
  import opened Election
  import opened Uniqueness
  import opened Matching
  import opened Completeness

  ghost predicate Inv(conf: Conf, f: Family, w: World) {
    && InvE(conf, w)
    && (Rank(f) >= 1 ==> InvS(conf, w))
    && (Rank(f) >= 2 ==> InvB(conf, w))
    && (Rank(f) >= 3 ==> InvC(conf, w))
  }

  ghost predicate NodeOk(conf: Conf, f: Family, h: Hist, i: NodeId, n: Node, d: Disk) {
    && NodeE(conf, h, i, n, d)
    && (Rank(f) >= 1 ==> NodeS(h, n, d))
    && (Rank(f) >= 2 ==> NodeB(h, i, n, d))
    && (Rank(f) >= 3 ==> NodeC(conf, h, n))
  }

  ghost predicate Just(conf: Conf, f: Family, w: World, i: NodeId, ack: Index, a: Action)
    requires i in w.c.disks
  {
    && JustE(conf, w, i, a)
    && (Rank(f) >= 1 ==> JustS(w.h, w.c.disks[i], a))
    && (Rank(f) >= 2 ==> JustB(w.h, i, w.c.disks[i], ack, a))
    && (Rank(f) >= 3 ==> JustC(conf, w.h, a))
  }

  lemma GrowthB(conf: Conf, w: World, i: NodeId, ack: Index, a: Action)
    requires InvE(conf, w) && InvB(conf, w) && i in conf.ids && i !in w.c.nodes
    requires JustE(conf, w, i, a) && JustB(w.h, i, w.c.disks[i], ack, a)
    ensures var v := Do(w, i, ack, a); LogsGrow(w.h.logs, v.h.logs) && w.h.acks <= v.h.acks
  {
    SuccessorB(conf, w, Do(w, i, ack, a), i, ack, a);
  }

  lemma LeaderMessages(conf: Conf, w: World, i: NodeId, ack: Index, a: Action)
    requires InvE(conf, w) && w.h.logs.Keys == w.h.lead.Keys && i in w.c.disks && JustE(conf, w, i, a)
    ensures forall p | p in Do(w, i, ack, a).c.sent && p.msg.kind.AppendEntries? :: p.msg.term in w.h.logs
  {
    forall p | p in Do(w, i, ack, a).c.sent && p.msg.kind.AppendEntries? ensures p.msg.term in w.h.logs {
      if p in w.c.sent { assert MsgE(conf, w.h, w.c.disks, p.msg); }
    }
  }

  lemma Keep(conf: Conf, f: Family, w: World, i: NodeId, ack: Index, a: Action)
    requires Inv(conf, f, w) && i in conf.ids && i !in w.c.nodes && Just(conf, f, w, i, ack, a)
    ensures Inv(conf, f, Do(w, i, ack, a))
  {
    KeepE(conf, w, i, ack, a);
    if Rank(f) >= 1 { KeepS(conf, w, i, ack, a); }
    if Rank(f) >= 2 { KeepB(conf, w, i, ack, a); }
    if Rank(f) >= 3 {
      GrowthB(conf, w, i, ack, a);
      LeaderMessages(conf, w, i, ack, a);
      KeepC(conf, w, Do(w, i, ack, a), i, ack, a);
    }
  }

  // ---- lists of actions --------------------------------------------------------------------

  ghost predicate AllJust(conf: Conf, f: Family, w: World, i: NodeId, ack: Index, acts: seq<Action>)
    requires i in w.c.disks
    decreases |acts|
  {
    acts == [] || (Just(conf, f, w, i, ack, acts[0]) && AllJust(conf, f, Do(w, i, ack, acts[0]), i, ack, acts[1..]))
  }

  /** A crash after any number of justified actions leaves the invariant intact. */
  lemma {:induction false} KeepAll(conf: Conf, f: Family, w: World, i: NodeId, ack: Index, acts: seq<Action>, k: nat)
    requires Inv(conf, f, w) && i in conf.ids && i !in w.c.nodes && AllJust(conf, f, w, i, ack, acts)
    requires k <= |acts|
    ensures Inv(conf, f, DoAll(w, i, ack, acts[..k]))
    decreases |acts|
  {
    if k > 0 {
      Keep(conf, f, w, i, ack, acts[0]);
      KeepAll(conf, f, Do(w, i, ack, acts[0]), i, ack, acts[1..], k - 1);
      FirstThenRest(w, i, ack, acts, k);
    }
  }

  lemma FirstThenRest(w: World, i: NodeId, ack: Index, acts: seq<Action>, k: nat)
    requires i in w.c.disks && 0 < k <= |acts|
    ensures DoAll(w, i, ack, acts[..k]) == DoAll(Do(w, i, ack, acts[0]), i, ack, acts[1..][..k - 1])
  {
    assert acts[..k][1..] == acts[1..][..k - 1];
  }

  lemma {:induction false} Concat(conf: Conf, f: Family, w: World, i: NodeId, ack: Index, a: seq<Action>,
                                  b: seq<Action>)
    requires i in w.c.disks
    ensures DoAll(w, i, ack, a + b) == DoAll(DoAll(w, i, ack, a), i, ack, b)
    ensures AllJust(conf, f, w, i, ack, a) && AllJust(conf, f, DoAll(w, i, ack, a), i, ack, b)
            ==> AllJust(conf, f, w, i, ack, a + b)
    decreases |a|
  {
    if a == [] {
      assert a + b == b;
    } else {
      assert (a + b)[1..] == a[1..] + b;
      Concat(conf, f, Do(w, i, ack, a[0]), i, ack, a[1..], b);
    }
  }

  /** Node i, taken out of the cluster for the duration of a call, is in a good state `n`. */
  ghost predicate Ready(conf: Conf, f: Family, w: World, i: NodeId, n: Node) {
    && ValidConf(conf) && Inv(conf, f, w) && i in conf.ids && i !in w.c.nodes
    && NodeOk(conf, f, w.h, i, n, w.c.disks[i])
  }

  /** The outcome of (part of) a call: justified actions that leave the node in a good state. */
  ghost predicate Good(conf: Conf, f: Family, w: World, i: NodeId, ack: Index, o: Out)
    requires i in w.c.disks
  {
    match o
    case Out(n, acts) =>
      && AllJust(conf, f, w, i, ack, acts)
      && (var v := DoAll(w, i, ack, acts); NodeOk(conf, f, v.h, i, n, v.c.disks[i]))
  }

  lemma ReadyAfter(conf: Conf, f: Family, w: World, i: NodeId, n: Node, ack: Index, o: Out)
    requires Ready(conf, f, w, i, n) && Good(conf, f, w, i, ack, o)
    ensures Ready(conf, f, DoAll(w, i, ack, o.acts), i, o.n)
  {
    KeepWhole(conf, f, w, i, ack, o.acts);
  }

  lemma KeepWhole(conf: Conf, f: Family, w: World, i: NodeId, ack: Index, acts: seq<Action>)
    requires Inv(conf, f, w) && i in conf.ids && i !in w.c.nodes && AllJust(conf, f, w, i, ack, acts)
    ensures Inv(conf, f, DoAll(w, i, ack, acts))
  {
    assert acts[..|acts|] == acts;
    KeepAll(conf, f, w, i, ack, acts, |acts|);
  }

  lemma Then(conf: Conf, f: Family, w: World, i: NodeId, ack: Index, o: Out, p: Out)
    requires i in w.c.disks && Good(conf, f, w, i, ack, o) && Good(conf, f, DoAll(w, i, ack, o.acts), i, ack, p)
    ensures Good(conf, f, w, i, ack, Out(p.n, o.acts + p.acts))
  {
    Concat(conf, f, w, i, ack, o.acts, p.acts);
  }

  lemma SameOut(conf: Conf, f: Family, w: World, i: NodeId, ack: Index, o: Out, p: Out)
    requires i in w.c.disks && Good(conf, f, w, i, ack, o) && o == p
    ensures Good(conf, f, w, i, ack, p)
  {}

  predicate PlainSend(a: Action) {
    a.Send? && !(a.msg.kind.AppendEntriesResponse? && a.msg.kind.success)
  }

  /** Sends other than acknowledgements change neither disks nor history. */
  lemma {:induction false} Sends(conf: Conf, f: Family, w: World, i: NodeId, ack: Index, acts: seq<Action>)
    requires i in w.c.disks
    requires forall a | a in acts :: PlainSend(a) && Just(conf, f, w, i, ack, a)
    ensures AllJust(conf, f, w, i, ack, acts)
    ensures DoAll(w, i, ack, acts).h == w.h && DoAll(w, i, ack, acts).c.disks == w.c.disks
    decreases |acts|
  {
    if acts != [] {
      var v := Do(w, i, ack, acts[0]);
      assert acts[0] in acts;
      assert v.h == w.h && v.c.disks == w.c.disks;
      forall a | a in acts[1..] ensures PlainSend(a) && Just(conf, f, v, i, ack, a) {
        assert a in acts;
        SameJust(conf, f, w, v, i, ack, a);
      }
      Sends(conf, f, v, i, ack, acts[1..]);
    }
  }

  lemma SameJust(conf: Conf, f: Family, w: World, v: World, i: NodeId, ack: Index, a: Action)
    requires i in w.c.disks && v.h == w.h && v.c.disks == w.c.disks && Just(conf, f, w, i, ack, a)
    ensures Just(conf, f, v, i, ack, a)
  {}

  lemma OneAction(conf: Conf, f: Family, w: World, i: NodeId, ack: Index, a: Action)
    requires i in w.c.disks
    ensures AllJust(conf, f, w, i, ack, [a]) == Just(conf, f, w, i, ack, a)
    ensures DoAll(w, i, ack, [a]) == Do(w, i, ack, a)
  {
    assert [a][1..] == [];
    assert AllJust(conf, f, Do(w, i, ack, a), i, ack, []);
    assert DoAll(Do(w, i, ack, a), i, ack, []) == Do(w, i, ack, a);
  }

  /** A single justified action that leaves the node in a good state. */
  lemma OneStep(conf: Conf, f: Family, w: World, i: NodeId, ack: Index, a: Action, n: Node)
    requires w.c.disks.Keys == conf.ids && i in conf.ids && Just(conf, f, w, i, ack, a)
    requires NodeOk(conf, f, Track(conf.ids, w.h, i, w.c.disks[i], ack, a), i, n, Perform(w.c.disks[i], a))
    ensures Good(conf, f, w, i, ack, Out(n, [a]))
  {
    OneAction(conf, f, w, i, ack, a);
  }

  lemma NoStep(conf: Conf, f: Family, w: World, i: NodeId, ack: Index, o: Out)
    requires i in w.c.disks && o.acts == [] && NodeOk(conf, f, w.h, i, o.n, w.c.disks[i])
    ensures Good(conf, f, w, i, ack, o)
  {}

  /** Ending a call with plain sends. */
  lemma EndWithSends(conf: Conf, f: Family, w: World, i: NodeId, n: Node, ack: Index, acts: seq<Action>)
    requires Ready(conf, f, w, i, n)
    requires forall a | a in acts :: PlainSend(a) && Just(conf, f, w, i, ack, a)
    ensures Good(conf, f, w, i, ack, Out(n, acts))
  {
    Sends(conf, f, w, i, ack, acts);
  }

  lemma EndWithSend(conf: Conf, f: Family, w: World, i: NodeId, n: Node, ack: Index, a: Action)
    requires Ready(conf, f, w, i, n) && PlainSend(a) && Just(conf, f, w, i, ack, a)
    ensures Good(conf, f, w, i, ack, Out(n, [a]))
  {
    EndWithSends(conf, f, w, i, n, ack, [a]);
  }

  lemma FullSlice(acts: seq<Action>)
    ensures acts[..|acts|] == acts
  {}
}
