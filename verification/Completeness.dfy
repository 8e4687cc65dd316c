/** Leader Completeness and State Machine Safety. An entry is committed once a majority acknowledged
    it under the leader of its own term; every later leader then has it. */
module Completeness {
  import opened Types
  import opened LogSpec
  import opened Kernel
  import opened Cluster
  import opened History
  import opened Election
  import opened Matching

  ghost function Ackers(conf: Conf, h: Hist, t: Term, n: Index): set<NodeId> {
    set j | j in conf.ids && Acked(h, j, t, n)
  }

  /** The term-t leader's entry n is of its own term and a majority acknowledged it. */
  ghost predicate Committed(conf: Conf, h: Hist, t: Term, n: Index) {
    && t in h.logs && 1 <= n < |h.logs[t]| && h.logs[t][n].term == t
    && MajoritySet(conf, Ackers(conf, h, t, n))
  }

  /** `s` agrees up to c with a committed stretch of a leader's log of a term up to `bound`. */
  ghost predicate Settled(conf: Conf, h: Hist, s: Log, c: Index, bound: Term) {
    c == 0 || exists t: Term, n: Index :: t <= bound && c <= n && Committed(conf, h, t, n) && Agree(s, LogOf(h, t), c)
  }

  ghost predicate SettledEntry(conf: Conf, h: Hist, e: Entry) {
    exists t: Term, n: Index :: Committed(conf, h, t, n) && 1 <= e.index <= n && LogOf(h, t)[e.index] == e
  }

  // ---- Leader Completeness -------------------------------------------------------------------

  /** If the candidate's log is at least as up to date as a voter's log that holds the entry, and every
      leader in between holds it, then the candidate holds it. */
  lemma UpToDateHolds(h: Hist, t: Term, n: Index, t': Term, own: Log, vlog: Log)
    requires HistB(h) && t in h.lead && n < |h.logs[t]| && 1 <= n && h.logs[t][n].term == t
    requires LogOk(h.logs, own) && LogOk(h.logs, vlog) && TermsBelow(own, t')
    requires Carried(h, t, n, t') && Agree(vlog, h.logs[t], n)
    requires UpToDate(vlog, LastIndex(own), LastTerm(own))
    ensures Agree(own, h.logs[t], n)
  {
    Consecutive(h.logs, own);
    Consecutive(h.logs, vlog);
    var u := LastTerm(own);
    assert t <= LastTerm(vlog) by {
      if n < |vlog| - 1 { assert vlog[n].term <= vlog[|vlog| - 1].term; }
    }
    assert |own| > 1 by {
      assert vlog[n].term >= 1 by { assert LeaderLog(h, t); }
    }
    assert Rooted(h.logs, own, |own| - 1);
    if u == LastTerm(vlog) {
      assert Rooted(h.logs, vlog, |vlog| - 1);
    } else {
      assert Agree(h.logs[u], LogOf(h, t), n);
      assert LeaderLog(h, u);
      if |own| - 1 < n {
        assert false;
      }
    }
  }

  lemma {:induction false} LeaderCompleteness(conf: Conf, h: Hist, t: Term, n: Index, t': Term)
    requires HistE(conf, h) && HistB(h) && Committed(conf, h, t, n) && t < t' && t' in h.lead
    ensures Agree(h.logs[t'], h.logs[t], n)
    decreases t'
  {
    forall s | s in h.logs && t < s < t' ensures Agree(h.logs[s], LogOf(h, t), n) {
      LeaderCompleteness(conf, h, t, n, s);
    }
    var c := h.lead[t'];
    var j := MajoritiesMeet(conf, Ackers(conf, h, t, n), h.quorum[t']);
    assert Cast(h, t', j, c);
    assert BallotOk(h, t', j) && LeaderLog(h, t');
    assert Early(h, t', j);
    var vlog, own := h.ballots[(t', j)].vlog, VoteLog(h, t', c);
    assert Agree(vlog, LogOf(h, t), n);
    assert BallotOk(h, t', c);
    UpToDateHolds(h, t, n, t', own, vlog);
  }

  /** Any two committed stretches agree as far as both go. */
  lemma CommittedAgree(conf: Conf, h: Hist, t: Term, n: Index, u: Term, m: Index, k: Index)
    requires HistE(conf, h) && HistB(h) && Committed(conf, h, t, n) && Committed(conf, h, u, m)
    requires k <= n && k <= m
    ensures h.logs[t][k] == h.logs[u][k]
  {
    if t < u {
      LeaderCompleteness(conf, h, t, n, u);
    } else if u < t {
      LeaderCompleteness(conf, h, u, m, t);
    }
  }

  lemma SettledEntriesAgree(conf: Conf, h: Hist, a: Entry, b: Entry)
    requires HistE(conf, h) && HistB(h) && SettledEntry(conf, h, a) && SettledEntry(conf, h, b)
    requires a.index == b.index
    ensures a == b
  {
    var t: Term, n: Index :| Committed(conf, h, t, n) && 1 <= a.index <= n && LogOf(h, t)[a.index] == a;
    var u: Term, m: Index :| Committed(conf, h, u, m) && 1 <= b.index <= m && LogOf(h, u)[b.index] == b;
    CommittedAgree(conf, h, t, n, u, m, a.index);
  }

  lemma LeaderHas(conf: Conf, h: Hist, s: Log, c: Index, t: Term, n: Index, t': Term)
    requires HistE(conf, h) && HistB(h) && Committed(conf, h, t, n) && t <= t' && t' in h.lead && t' in h.logs
    requires c <= n && Agree(s, h.logs[t], c)
    ensures Agree(s, h.logs[t'], c)
  {
    if t < t' {
      LeaderCompleteness(conf, h, t, n, t');
      AgreeTrans(s, h.logs[t], h.logs[t'], c, n);
    }
  }

  /** A later leader's log is settled wherever another log is. */
  lemma LeaderSettled(conf: Conf, h: Hist, s: Log, c: Index, bound: Term, t': Term)
    requires HistE(conf, h) && HistB(h) && Settled(conf, h, s, c, bound) && bound <= t' && t' in h.logs
    ensures c == 0 || Agree(s, h.logs[t'], c)
  {
    if c > 0 {
      var t: Term, n: Index :| t <= bound && c <= n && Committed(conf, h, t, n) && Agree(s, LogOf(h, t), c);
      LeaderHas(conf, h, s, c, t, n, t');
    }
  }

  lemma AgreeTrans(a: Log, b: Log, c: Log, k: Index, n: Index)
    requires Agree(a, b, k) && Agree(c, b, n) && k <= n
    ensures Agree(a, c, k)
  {}

  // ---- the invariant -----------------------------------------------------------------------

  ghost predicate MsgC(conf: Conf, h: Hist, m: Message) {
    m.kind.AppendEntries? ==>
      && m.kind.leaderCommit <= m.kind.prevIndex + |m.kind.entries|
      && Settled(conf, h, LogOf(h, m.term), m.kind.leaderCommit, m.term)
  }

  ghost predicate NodeC(conf: Conf, h: Hist, n: Node) {
    && n.applied <= n.commit && Settled(conf, h, n.log, n.commit, n.term)
    && (n.role == Leader ==> forall p | p in n.matched && n.matched[p] > 0 :: Acked(h, p, n.term, n.matched[p]))
  }

  ghost predicate InvC(conf: Conf, w: World) {
    && (forall p | p in w.c.sent :: MsgC(conf, w.h, p.msg))
    && (forall i | i in w.c.nodes :: NodeC(conf, w.h, w.c.nodes[i]))
    && (forall e | e in w.h.applied :: SettledEntry(conf, w.h, e))
  }

  ghost predicate JustC(conf: Conf, h: Hist, a: Action) {
    match a
    case Send(m) => MsgC(conf, h, m)
    case Apply(es) => forall e | e in es :: SettledEntry(conf, h, e)
    case _ => true
  }

  lemma AckedStays(h: Hist, h': Hist, j: NodeId, t: Term, n: Index)
    requires Acked(h, j, t, n) && h.acks <= h'.acks
    ensures Acked(h', j, t, n)
  {
    var e :| (j, t, e) in h.acks && n <= e;
    assert (j, t, e) in h'.acks;
  }

  lemma CommittedStays(conf: Conf, h: Hist, h': Hist, t: Term, n: Index)
    requires Committed(conf, h, t, n) && LogsGrow(h.logs, h'.logs) && h.acks <= h'.acks
    ensures Committed(conf, h', t, n)
  {
    forall j | j in Ackers(conf, h, t, n) ensures j in Ackers(conf, h', t, n) {
      AckedStays(h, h', j, t, n);
    }
    SubsetSize(Ackers(conf, h, t, n), Ackers(conf, h', t, n));
  }

  lemma SettledStays(conf: Conf, h: Hist, h': Hist, s: Log, c: Index, bound: Term)
    requires Settled(conf, h, s, c, bound) && LogsGrow(h.logs, h'.logs) && h.acks <= h'.acks
    ensures Settled(conf, h', s, c, bound)
  {
    if c != 0 {
      var t: Term, n: Index :| t <= bound && c <= n && Committed(conf, h, t, n) && Agree(s, LogOf(h, t), c);
      CommittedStays(conf, h, h', t, n);
      assert Agree(s, LogOf(h', t), c);
    }
  }

  lemma SettledEntryStays(conf: Conf, h: Hist, h': Hist, e: Entry)
    requires SettledEntry(conf, h, e) && LogsGrow(h.logs, h'.logs) && h.acks <= h'.acks
    ensures SettledEntry(conf, h', e)
  {
    var t: Term, n: Index :| Committed(conf, h, t, n) && 1 <= e.index <= n && LogOf(h, t)[e.index] == e;
    CommittedStays(conf, h, h', t, n);
    assert LogOf(h', t)[e.index] == e;
  }

  lemma MsgStaysC(conf: Conf, h: Hist, h': Hist, m: Message)
    requires MsgC(conf, h, m) && LogsGrow(h.logs, h'.logs) && h.acks <= h'.acks
    requires m.kind.AppendEntries? ==> m.term in h.logs
    ensures MsgC(conf, h', m)
  {
    if m.kind.AppendEntries? && m.kind.leaderCommit > 0 {
      SettledStays(conf, h, h', LogOf(h, m.term), m.kind.leaderCommit, m.term);
      var t: Term, n: Index :| t <= m.term && m.kind.leaderCommit <= n && Committed(conf, h', t, n)
                               && Agree(LogOf(h, m.term), LogOf(h', t), m.kind.leaderCommit);
      assert Agree(LogOf(h', m.term), LogOf(h', t), m.kind.leaderCommit);
    }
  }

  lemma NodeStaysC(conf: Conf, h: Hist, h': Hist, n: Node)
    requires NodeC(conf, h, n) && LogsGrow(h.logs, h'.logs) && h.acks <= h'.acks
    ensures NodeC(conf, h', n)
  {
    SettledStays(conf, h, h', n.log, n.commit, n.term);
    if n.role == Leader {
      forall p | p in n.matched && n.matched[p] > 0 ensures Acked(h', p, n.term, n.matched[p]) {
        AckedStays(h, h', p, n.term, n.matched[p]);
      }
    }
  }

  lemma KeepC(conf: Conf, w: World, v: World, i: NodeId, ack: Index, a: Action)
    requires InvC(conf, w) && i in w.c.disks && JustC(conf, w.h, a) && v == Do(w, i, ack, a)
    requires LogsGrow(w.h.logs, v.h.logs) && w.h.acks <= v.h.acks
    requires forall p | p in v.c.sent && p.msg.kind.AppendEntries? :: p.msg.term in w.h.logs
    ensures InvC(conf, v)
  {
    forall p | p in v.c.sent ensures MsgC(conf, v.h, p.msg) {
      MsgStaysC(conf, w.h, v.h, p.msg);
    }
    forall k | k in v.c.nodes ensures NodeC(conf, v.h, v.c.nodes[k]) {
      NodeStaysC(conf, w.h, v.h, v.c.nodes[k]);
    }
    forall e | e in v.h.applied ensures SettledEntry(conf, v.h, e) {
      SettledEntryStays(conf, w.h, v.h, e);
    }
  }
}
