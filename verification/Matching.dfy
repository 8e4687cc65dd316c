/** Log Matching: in runs without compaction every log is rooted, entry by entry, in the log of the
    leader that created the entry. This module also carries what the logs remember about
    acknowledgements and votes, from which `Completeness` derives Leader Completeness. */
module Matching {
  import opened Types
  import opened LogSpec
  import opened Kernel
  import opened DiskSpec
  import opened Cluster
  import opened History
  import opened Election

  ghost predicate Agree(a: Log, b: Log, k: Index) {
    && k < |a| && k < |b|
    && forall i | 0 <= i <= k :: a[i] == b[i]
  }

  /** Position k of `s` holds the entry the leader of its term put there, and everything before too. */
  ghost predicate Rooted(logs: map<Term, Log>, s: Log, k: Index)
    requires k < |s|
  {
    s[k].index == k && s[k].term in logs && Agree(s, logs[s[k].term], k)
  }

  ghost predicate Ascending(s: Log) {
    forall i, j | 0 <= i < j < |s| :: s[i].term <= s[j].term
  }

  ghost predicate TermsBelow(s: Log, bound: Term) {
    forall i | 0 <= i < |s| :: s[i].term < bound
  }

  ghost predicate LogOk(logs: map<Term, Log>, s: Log) {
    && s[0] == SENTINEL && Ascending(s)
    && forall k {:trigger Rooted(logs, s, k)} | 1 <= k < |s| :: Rooted(logs, s, k)
  }

  function LogOf(h: Hist, t: Term): Log {
    if t in h.logs then h.logs[t] else [SENTINEL]
  }

  function VoteLog(h: Hist, t: Term, j: NodeId): Log {
    if (t, j) in h.ballots then h.ballots[(t, j)].vlog else [SENTINEL]
  }

  // ---- acknowledgements --------------------------------------------------------------------

  ghost predicate Acked(h: Hist, j: NodeId, t: Term, n: Index) {
    exists e :: (j, t, e) in h.acks && n <= e
  }

  /** Every leader strictly between t and `bound` has the term-t log up to n. */
  ghost predicate Carried(h: Hist, t: Term, n: Index, bound: Term) {
    forall s | s in h.logs && t < s < bound :: Agree(h.logs[s], LogOf(h, t), n)
  }

  /** Whatever node j acknowledged below `bound` is still in `s`, unless a leader in between lacked it. */
  ghost predicate Retains(h: Hist, j: NodeId, bound: Term, s: Log) {
    forall t: Term, n: Index | Acked(h, j, t, n) && t < bound && Carried(h, t, n, bound) :: Agree(s, LogOf(h, t), n)
  }

  ghost predicate AcksBelow(h: Hist, j: NodeId, bound: Term) {
    forall t, e | (j, t, e) in h.acks :: t < bound && t in h.logs && e < |h.logs[t]|
  }

  // ---- the invariant -----------------------------------------------------------------------

  /** A leader's log is its log as a candidate followed by entries of its own term. */
  ghost predicate LeaderLog(h: Hist, t: Term)
    requires t in h.lead
  {
    var own := VoteLog(h, t, h.lead[t]);
    && 1 <= t && t in h.logs && LogOk(h.logs, h.logs[t])
    && Cast(h, t, h.lead[t], h.lead[t])
    && |own| < |h.logs[t]| && own <= h.logs[t] && TermsBelow(own, t)
    && (forall k | |own| <= k < |h.logs[t]| :: h.logs[t][k].term == t)
  }

  /** A vote counts as early when it was cast before the term had a leader, or elected that leader. */
  ghost predicate Early(h: Hist, t: Term, j: NodeId) {
    t !in h.lead || (t in h.quorum && j in h.quorum[t])
  }

  ghost predicate BallotOk(h: Hist, t: Term, j: NodeId)
    requires (t, j) in h.ballots
  {
    var b := h.ballots[(t, j)];
    && LogOk(h.logs, b.vlog)
    && Cast(h, t, b.cand, b.cand)
    && (b.cand == j ==> TermsBelow(b.vlog, t))
    && (b.cand != j ==> UpToDate(b.vlog, LastIndex(VoteLog(h, t, b.cand)), LastTerm(VoteLog(h, t, b.cand))))
    && (Early(h, t, j) ==> Retains(h, j, t, b.vlog))
  }

  ghost predicate HistB(h: Hist) {
    && h.logs.Keys == h.lead.Keys
    && (forall t {:trigger LeaderLog(h, t)} | t in h.lead :: LeaderLog(h, t))
    && (forall t, j {:trigger BallotOk(h, t, j)} | (t, j) in h.ballots :: BallotOk(h, t, j))
  }

  ghost predicate DiskB(h: Hist, j: NodeId, d: Disk) {
    && LogOk(h.logs, d.log) && TermsBelow(d.log, d.term + 1)
    && d.snap == None
    && AcksBelow(h, j, d.term + 1) && Retains(h, j, d.term + 1, d.log)
  }

  /** An AppendEntries is a stretch of its leader's log. */
  ghost predicate FromLeader(h: Hist, m: Message)
    requires m.kind.AppendEntries?
  {
    var k := m.kind;
    && m.term in h.logs
    && k.prevIndex + |k.entries| < |h.logs[m.term]|
    && k.prevTerm == h.logs[m.term][k.prevIndex].term
    && k.entries == h.logs[m.term][k.prevIndex + 1..k.prevIndex + 1 + |k.entries|]
  }

  ghost predicate MsgB(h: Hist, p: Packet) {
    var m := p.msg;
    match m.kind
    case AppendEntries(_, _, _, _) => FromLeader(h, m)
    case RequestVote(index, term) =>
      Cast(h, m.term, m.from, m.from)
      && index == LastIndex(VoteLog(h, m.term, m.from)) && term == LastTerm(VoteLog(h, m.term, m.from))
    case AppendEntriesResponse(success, _, conflictIndex) =>
      if success then (m.from, m.term, p.ack) in h.acks
      else conflictIndex.Some? && m.term in h.logs && conflictIndex.value < |h.logs[m.term]|
    case InstallSnapshot(_, _, _) => false
    case InstallSnapshotResponse => false
    case _ => true
  }

  ghost predicate NextOk(n: Node) {
    forall p | p in n.next :: 1 <= n.next[p] <= |n.log|
  }

  ghost predicate NodeB(h: Hist, i: NodeId, n: Node, d: Disk) {
    && n.log == d.log
    && (n.role == Candidate ==> Cast(h, n.term, i, i) && VoteLog(h, n.term, i) == n.log)
    && (n.role == Leader ==>
          && n.term in h.logs && h.logs[n.term] == n.log
          && Acked(h, i, n.term, |n.log| - 1)
          && NextOk(n))
  }

  ghost predicate InvB(conf: Conf, w: World)
    requires w.c.disks.Keys == conf.ids && w.c.nodes.Keys <= conf.ids
  {
    && HistB(w.h)
    && (forall j | j in conf.ids :: DiskB(w.h, j, w.c.disks[j]))
    && (forall p | p in w.c.sent :: MsgB(w.h, p))
    && (forall i | i in w.c.nodes :: NodeB(w.h, i, w.c.nodes[i], w.c.disks[i]))
  }

  // ---- what an action must satisfy ---------------------------------------------------------

  /** A replacement that brings the log in line with the leader of the disk's term. */
  ghost predicate Realigns(h: Hist, d: Disk, from: Index, es: seq<Entry>) {
    && d.term in h.logs
    && 1 <= from <= |d.log| && |es| > 0 && from + |es| <= |h.logs[d.term]|
    && Agree(d.log, h.logs[d.term], from - 1)
    && es == h.logs[d.term][from..from + |es|]
    && (from < |d.log| ==> d.log[from].term != h.logs[d.term][from].term)
  }

  ghost predicate JustB(h: Hist, i: NodeId, d: Disk, ack: Index, a: Action) {
    match a
    case Send(m) =>
      if m.kind.AppendEntriesResponse? && m.kind.success
      then m.from == i && m.term == d.term && d.term in h.logs && Agree(d.log, h.logs[d.term], ack)
      else MsgB(h, Packet(m, ack))
    case AppendLog(es) =>
      && |es| == 1 && es[0].index == |d.log| && es[0].term == d.term
      && (if d.term in h.lead then LogOf(h, d.term) == d.log
          else Cast(h, d.term, i, i) && VoteLog(h, d.term, i) == d.log)
    case TruncateAndAppend(from, es) => Realigns(h, d, from, es)
    case PersistHardState(term, voted) =>
      && term >= d.term
      && (voted.Some? && (term, i) !in h.ballots ==>
            if voted.value == i then term > d.term
            else Cast(h, term, voted.value, voted.value)
                 && UpToDate(d.log, LastIndex(VoteLog(h, term, voted.value)), LastTerm(VoteLog(h, term, voted.value))))
    case Apply(_) => true
    case PersistSnapshot(_, _) => false
  }

  // ---- growth ------------------------------------------------------------------------------

  /** Leader logs are only extended, with entries of the leader's term. */
  ghost predicate LogsGrow(a: map<Term, Log>, b: map<Term, Log>) {
    forall t | t in a ::
      && t in b && a[t] <= b[t]
      && (forall k | |a[t]| <= k < |b[t]| :: b[t][k].term == t)
  }

  ghost predicate GrowB(h: Hist, h': Hist) {
    && LogsGrow(h.logs, h'.logs) && h.acks <= h'.acks
    && (forall k | k in h.ballots :: k in h'.ballots && h'.ballots[k] == h.ballots[k])
    && (forall t | t in h.lead :: t in h'.lead && h'.lead[t] == h.lead[t])
    && (forall t | t in h.quorum :: t in h'.quorum && h'.quorum[t] == h.quorum[t])
    && (forall t | t in h'.quorum && t !in h.quorum ::
          forall j | j in h'.quorum[t] :: (t, j) in h.ballots)
  }

  lemma Consecutive(logs: map<Term, Log>, s: Log)
    requires LogOk(logs, s)
    ensures Contiguous(s) && FirstIndex(s) == 0 && LastIndex(s) == |s| - 1
  {
    forall k | 0 <= k < |s| ensures s[k].index == k {
      if 1 <= k { assert Rooted(logs, s, k); }
    }
  }

  lemma LogOkStays(a: map<Term, Log>, b: map<Term, Log>, s: Log)
    requires LogOk(a, s) && LogsGrow(a, b)
    ensures LogOk(b, s)
  {
    forall k | 1 <= k < |s| ensures Rooted(b, s, k) {
      assert Rooted(a, s, k);
    }
  }

  lemma CarriedBefore(h: Hist, h': Hist, t: Term, n: Index, bound: Term)
    requires LogsGrow(h.logs, h'.logs) && Carried(h', t, n, bound)
    requires t in h.logs && n < |h.logs[t]| && TermsBelow(h.logs[t], t + 1)
    ensures Carried(h, t, n, bound)
  {
    forall s | s in h.logs && t < s < bound ensures Agree(h.logs[s], LogOf(h, t), n) {
      assert Agree(h'.logs[s], LogOf(h', t), n);
      assert h.logs[t][n] == h'.logs[t][n];
      if n >= |h.logs[s]| {
        assert false;
      }
    }
  }

  lemma RetainsStays(h: Hist, h': Hist, j: NodeId, bound: Term, s: Log)
    requires GrowB(h, h') && Retains(h, j, bound, s) && AcksOk(h, j)
    requires forall t, e | (j, t, e) in h'.acks && t < bound :: (j, t, e) in h.acks
    ensures Retains(h', j, bound, s)
  {
    forall t: Term, n: Index | Acked(h', j, t, n) && t < bound && Carried(h', t, n, bound)
      ensures Agree(s, LogOf(h', t), n)
    {
      var e :| (j, t, e) in h'.acks && n <= e;
      assert (j, t, e) in h.acks;
      CarriedBefore(h, h', t, n, bound);
      assert Acked(h, j, t, n);
      assert Agree(s, LogOf(h, t), n);
    }
  }

  /** Acknowledgements name positions of leader logs, whose terms do not exceed the leader's. */
  ghost predicate AcksOk(h: Hist, j: NodeId) {
    forall t, e | (j, t, e) in h.acks :: t in h.logs && e < |h.logs[t]| && TermsBelow(h.logs[t], t + 1)
  }

  lemma LeaderTerms(h: Hist, t: Term)
    requires t in h.lead && LeaderLog(h, t)
    ensures TermsBelow(h.logs[t], t + 1)
  {
    var own := VoteLog(h, t, h.lead[t]);
    forall i | 0 <= i < |h.logs[t]| ensures h.logs[t][i].term < t + 1 {
      if i < |own| { assert h.logs[t][i] == own[i]; }
    }
  }

  lemma AcksAreOk(h: Hist, j: NodeId, bound: Term)
    requires HistB(h) && AcksBelow(h, j, bound)
    ensures AcksOk(h, j)
  {
    forall t, e | (j, t, e) in h.acks ensures t in h.logs && e < |h.logs[t]| && TermsBelow(h.logs[t], t + 1) {
      LeaderTerms(h, t);
    }
  }

  lemma LeaderLogStays(h: Hist, h': Hist, t: Term)
    requires t in h.lead && LeaderLog(h, t) && GrowB(h, h') && h'.logs[t] == h.logs[t]
    ensures LeaderLog(h', t)
  {
    LogOkStays(h.logs, h'.logs, h.logs[t]);
  }

  lemma BallotStays(h: Hist, h': Hist, t: Term, j: NodeId)
    requires (t, j) in h.ballots && BallotOk(h, t, j) && GrowB(h, h') && AcksOk(h, j)
    requires h.lead.Keys == h.quorum.Keys && h'.lead.Keys == h'.quorum.Keys
    requires forall u, e | (j, u, e) in h'.acks && u < t :: (j, u, e) in h.acks
    requires Early(h', t, j) ==> Early(h, t, j)
    ensures BallotOk(h', t, j)
  {
    var b := h.ballots[(t, j)];
    LogOkStays(h.logs, h'.logs, b.vlog);
    assert VoteLog(h', t, b.cand) == VoteLog(h, t, b.cand);
    if Early(h', t, j) {
      RetainsStays(h, h', j, t, b.vlog);
    }
  }

  lemma DiskStaysB(h: Hist, h': Hist, j: NodeId, d: Disk)
    requires DiskB(h, j, d) && GrowB(h, h') && AcksOk(h, j)
    requires forall u, e | (j, u, e) in h'.acks :: (j, u, e) in h.acks
    ensures DiskB(h', j, d)
  {
    LogOkStays(h.logs, h'.logs, d.log);
    RetainsStays(h, h', j, d.term + 1, d.log);
  }

  lemma MsgStaysB(h: Hist, h': Hist, p: Packet)
    requires MsgB(h, p) && GrowB(h, h')
    ensures MsgB(h', p)
  {
    if p.msg.kind.AppendEntries? {
      var a, b := h.logs[p.msg.term], h'.logs[p.msg.term];
      var x, y := p.msg.kind.prevIndex + 1, p.msg.kind.prevIndex + 1 + |p.msg.kind.entries|;
      assert a[x..y] == b[x..y];
    }
  }

  lemma NodeStaysB(h: Hist, h': Hist, i: NodeId, n: Node, d: Disk)
    requires NodeB(h, i, n, d) && GrowB(h, h')
    requires n.role == Leader && n.term in h.logs ==> h'.logs[n.term] == h.logs[n.term]
    ensures NodeB(h', i, n, d)
  {
    if n.role == Leader {
      var e :| (i, n.term, e) in h.acks && |n.log| - 1 <= e;
      assert (i, n.term, e) in h'.acks;
    }
  }

  // ---- the acting disk, action by action ---------------------------------------------------

  /** Cutting back to a stretch of a rooted log leaves a rooted log. */
  lemma PrefixOk(logs: map<Term, Log>, s: Log, r: Log)
    requires LogOk(logs, s) && r <= s
    ensures LogOk(logs, r)
  {
    forall k | 1 <= k < |r| ensures Rooted(logs, r, k) {
      assert Rooted(logs, s, k);
    }
  }

  lemma RealignedLog(h: Hist, d: Disk, from: Index, es: seq<Entry>)
    requires Realigns(h, d, from, es)
    ensures d.log[..from] + es == h.logs[d.term][..from + |es|]
  {}

  /** A log brought in line with its term's leader still holds all it must retain. */
  lemma RealignRetains(h: Hist, i: NodeId, d: Disk, from: Index, es: seq<Entry>)
    requires DiskB(h, i, d) && Realigns(h, d, from, es)
    ensures Retains(h, i, d.term + 1, d.log[..from] + es)
  {
    var r := d.log[..from] + es;
    var l := h.logs[d.term];
    forall t: Term, n: Index | Acked(h, i, t, n) && t < d.term + 1 && Carried(h, t, n, d.term + 1)
      ensures Agree(r, LogOf(h, t), n)
    {
      assert Agree(d.log, LogOf(h, t), n);
      assert Agree(l, LogOf(h, t), n);
      if from <= n {
        assert false;
      }
    }
  }

  lemma TruncateB(h: Hist, i: NodeId, d: Disk, from: Index, es: seq<Entry>)
    requires HistB(h) && DiskB(h, i, d) && Realigns(h, d, from, es)
    ensures DiskB(h, i, d.(log := d.log[..from] + es))
  {
    RealignedLog(h, d, from, es);
    assert LeaderLog(h, d.term);
    PrefixOk(h.logs, h.logs[d.term], d.log[..from] + es);
    LeaderTerms(h, d.term);
    RealignRetains(h, i, d, from, es);
  }

  /** What creating an entry does to history and disk. */
  lemma AppendShape(ids: set<NodeId>, h: Hist, i: NodeId, d: Disk, ack: Index, e: Entry)
    requires LogOk(h.logs, d.log) && e.index == |d.log| && e.term == d.term
    ensures var a := AppendLog([e]);
            var h' := Track(ids, h, i, d, ack, a);
            && Perform(d, a) == d.(log := d.log + [e])
            && h'.logs == h.logs[d.term := d.log + [e]] && h'.lead == h.lead[d.term := i]
            && h'.ballots == h.ballots && h'.acks == h.acks + {(i, d.term, e.index)}
            && h'.quorum == if d.term in h.quorum then h.quorum else h.quorum[d.term := Voters(ids, h, d.term, i)]
  {
    Consecutive(h.logs, d.log);
    PutAllExtends(d.log, [e]);
  }

  /** Node i leads the term of its disk, or may start to, and its log is the one it leads with. */
  ghost predicate MayAppend(h: Hist, i: NodeId, d: Disk) {
    if d.term in h.lead then h.lead[d.term] == i && LogOf(h, d.term) == d.log
    else Cast(h, d.term, i, i) && VoteLog(h, d.term, i) == d.log
  }

  /** The parts of the history that creating entry e at the end of d's log touches. */
  ghost predicate Creates(h: Hist, h': Hist, i: NodeId, d: Disk, e: Entry) {
    && e.index == |d.log| && e.term == d.term
    && h'.logs == h.logs[d.term := d.log + [e]] && h'.lead == h.lead[d.term := i]
    && h'.ballots == h.ballots && h'.acks == h.acks + {(i, d.term, e.index)}
  }

  lemma CreateGrows(h: Hist, h': Hist, i: NodeId, d: Disk, e: Entry)
    requires h.logs.Keys == h.lead.Keys && MayAppend(h, i, d) && Creates(h, h', i, d, e)
    ensures LogsGrow(h.logs, h'.logs)
  {}

  lemma CreatedLogOk(h: Hist, h': Hist, i: NodeId, d: Disk, e: Entry)
    requires LogOk(h.logs, d.log) && TermsBelow(d.log, d.term + 1)
    requires LogsGrow(h.logs, h'.logs) && Creates(h, h', i, d, e)
    ensures LogOk(h'.logs, d.log + [e])
  {
    var r := d.log + [e];
    LogOkStays(h.logs, h'.logs, d.log);
    forall k | 1 <= k < |r| ensures Rooted(h'.logs, r, k) {
      if k < |d.log| { assert Rooted(h'.logs, d.log, k); }
    }
  }

  /** A leader's log grows by an entry of its own term; a new leader starts from its candidate log. */
  lemma CreatedLeaderLog(h: Hist, h': Hist, i: NodeId, d: Disk, e: Entry)
    requires HistB(h) && MayAppend(h, i, d) && Creates(h, h', i, d, e)
    requires LogOk(h'.logs, d.log + [e]) && d.log[0] == SENTINEL
    ensures LeaderLog(h', d.term)
  {
    var t := d.term;
    assert VoteLog(h', t, i) == VoteLog(h, t, i);
    if t in h.lead {
      assert LeaderLog(h, t);
    } else {
      assert BallotOk(h, t, i);
      assert VoteLog(h, t, i)[0].term < t;
    }
  }

  lemma AppendRetains(h: Hist, h': Hist, i: NodeId, d: Disk, e: Entry)
    requires HistB(h) && DiskB(h, i, d) && GrowB(h, h')
    requires h'.acks == h.acks + {(i, d.term, |d.log|)} && d.term in h'.logs && h'.logs[d.term] == d.log + [e]
    ensures Retains(h', i, d.term + 1, d.log + [e])
  {
    AcksAreOk(h, i, d.term + 1);
    forall t: Term, n: Index | Acked(h', i, t, n) && t < d.term + 1 && Carried(h', t, n, d.term + 1)
      ensures Agree(d.log + [e], LogOf(h', t), n)
    {
      var k :| (i, t, k) in h'.acks && n <= k;
      if (i, t, k) in h.acks {
        CarriedBefore(h, h', t, n, d.term + 1);
        assert Acked(h, i, t, n);
        assert Agree(d.log, LogOf(h, t), n);
      }
    }
  }

  /** Histories that differ for node i only, at or above its durable term. */
  ghost predicate ActsAt(h: Hist, h': Hist, i: NodeId, t: Term) {
    && GrowB(h, h')
    && (forall a | a in h'.acks && a !in h.acks :: a.0 == i && a.1 >= t)
    && (forall u, j | (u, j) in h'.ballots && (u, j) !in h.ballots :: j == i)
    && h'.lead.Keys == h'.quorum.Keys == h'.logs.Keys
    && (forall u, j | Early(h', u, j) :: Early(h, u, j))
  }

  lemma BallotsStay(h: Hist, h': Hist, i: NodeId, d: Disk, t: Term, j: NodeId)
    requires HistB(h) && DiskE(h, i, d) && ActsAt(h, h', i, d.term) && AcksOk(h, j)
    requires h.lead.Keys == h.quorum.Keys && (t, j) in h.ballots
    ensures BallotOk(h', t, j)
  {
    assert BallotOk(h, t, j);
    BallotStays(h, h', t, j);
  }

  lemma CreateGrowsB(conf: Conf, h: Hist, h': Hist, i: NodeId, d: Disk, e: Entry)
    requires HistE(conf, h) && h.logs.Keys == h.lead.Keys && MayAppend(h, i, d) && Creates(h, h', i, d, e)
    requires h'.quorum == if d.term in h.quorum then h.quorum else h.quorum[d.term := Voters(conf.ids, h, d.term, i)]
    ensures GrowB(h, h')
  {
    CreateGrows(h, h', i, d, e);
  }

  lemma CreateActs(conf: Conf, h: Hist, h': Hist, i: NodeId, d: Disk, e: Entry)
    requires HistE(conf, h) && h.logs.Keys == h.lead.Keys && MayAppend(h, i, d) && Creates(h, h', i, d, e)
    requires h'.quorum == if d.term in h.quorum then h.quorum else h.quorum[d.term := Voters(conf.ids, h, d.term, i)]
    ensures ActsAt(h, h', i, d.term)
  {
    CreateGrowsB(conf, h, h', i, d, e);
    if d.term !in h.quorum {
      forall j | j in h'.quorum[d.term] ensures (d.term, j) in h.ballots {
        assert Cast(h, d.term, j, i);
      }
    }
  }

  lemma BallotsKept(conf: Conf, h: Hist, h': Hist, i: NodeId, d: Disk)
    requires HistE(conf, h) && HistB(h) && DiskE(h, i, d) && ActsAt(h, h', i, d.term)
    requires forall t, j | (t, j) in h.ballots :: AcksOk(h, j)
    ensures forall t, j | (t, j) in h.ballots :: BallotOk(h', t, j)
  {
    forall t, j | (t, j) in h.ballots ensures BallotOk(h', t, j) {
      BallotsStay(h, h', i, d, t, j);
    }
  }

  lemma AppendB(conf: Conf, h: Hist, i: NodeId, d: Disk, ack: Index, e: Entry)
    requires HistE(conf, h) && HistB(h) && DiskE(h, i, d) && DiskB(h, i, d)
    requires forall t, j | (t, j) in h.ballots :: AcksOk(h, j)
    requires e.index == |d.log| && e.term == d.term && MayAppend(h, i, d)
    ensures var h' := Track(conf.ids, h, i, d, ack, AppendLog([e]));
            ActsAt(h, h', i, d.term) && HistB(h') && DiskB(h', i, Perform(d, AppendLog([e])))
  {
    var h' := Track(conf.ids, h, i, d, ack, AppendLog([e]));
    AppendShape(conf.ids, h, i, d, ack, e);
    CreateActs(conf, h, h', i, d, e);
    AppendDiskB(h, h', i, d, e);
    CreatedLeaderLog(h, h', i, d, e);
    LeadersKept(h, h', i, d, e);
    BallotsKept(conf, h, h', i, d);
  }

  lemma AppendDiskB(h: Hist, h': Hist, i: NodeId, d: Disk, e: Entry)
    requires HistB(h) && DiskB(h, i, d) && GrowB(h, h') && Creates(h, h', i, d, e)
    ensures LogOk(h'.logs, d.log + [e]) && DiskB(h', i, d.(log := d.log + [e]))
  {
    CreatedLogOk(h, h', i, d, e);
    AppendRetains(h, h', i, d, e);
    AppendAcks(h, h', i, d, e);
  }

  lemma AppendAcks(h: Hist, h': Hist, i: NodeId, d: Disk, e: Entry)
    requires AcksBelow(h, i, d.term + 1) && LogsGrow(h.logs, h'.logs) && Creates(h, h', i, d, e)
    ensures AcksBelow(h', i, d.term + 1)
  {}

  lemma LeadersKept(h: Hist, h': Hist, i: NodeId, d: Disk, e: Entry)
    requires HistB(h) && GrowB(h, h') && Creates(h, h', i, d, e) && LeaderLog(h', d.term)
    ensures forall t | t in h'.lead :: LeaderLog(h', t)
  {
    forall t | t in h'.lead ensures LeaderLog(h', t) {
      if t != d.term { LeaderLogStays(h, h', t); }
    }
  }

  /** Moving the bound up past terms without acknowledgements only weakens what must be retained. */
  lemma RetainsLater(h: Hist, i: NodeId, s: Log, b: Term, b': Term)
    requires Retains(h, i, b, s) && AcksBelow(h, i, b) && b <= b'
    ensures Retains(h, i, b', s)
  {
    forall t: Term, n: Index | Acked(h, i, t, n) && t < b' && Carried(h, t, n, b') ensures Agree(s, LogOf(h, t), n) {
      assert Carried(h, t, n, b);
    }
  }

  lemma RetainsBelowNewTerm(h: Hist, i: NodeId, s: Log, t: Term)
    requires Retains(h, i, t + 1, s) && t !in h.logs
    ensures Retains(h, i, t, s)
  {
    forall u: Term, n: Index | Acked(h, i, u, n) && u < t && Carried(h, u, n, t) ensures Agree(s, LogOf(h, u), n) {
      assert Carried(h, u, n, t + 1);
    }
  }

  lemma RetainsSame(h: Hist, h': Hist, i: NodeId, b: Term, s: Log)
    requires Retains(h, i, b, s) && h'.acks == h.acks && h'.logs == h.logs
    ensures Retains(h', i, b, s)
  {
    forall t: Term, n: Index | Acked(h', i, t, n) && t < b && Carried(h', t, n, b) ensures Agree(s, LogOf(h', t), n) {
      assert Acked(h, i, t, n) && Carried(h, t, n, b) && LogOf(h', t) == LogOf(h, t);
    }
  }

  lemma VoteRetains(conf: Conf, h: Hist, i: NodeId, d: Disk, t: Term)
    requires HistE(conf, h) && h.logs.Keys == h.lead.Keys && DiskB(h, i, d)
    requires d.term <= t && (t, i) !in h.ballots && Early(h, t, i)
    ensures Retains(h, i, t, d.log)
  {
    if t in h.lead {
      assert false;
    }
    if t == d.term {
      RetainsBelowNewTerm(h, i, d.log, t);
    } else {
      RetainsLater(h, i, d.log, d.term + 1, t);
    }
  }

  lemma NewBallot(conf: Conf, h: Hist, h': Hist, i: NodeId, d: Disk, t: Term, c: NodeId)
    requires HistE(conf, h) && HistB(h) && DiskB(h, i, d) && (t, i) !in h.ballots
    requires JustB(h, i, d, 0, PersistHardState(t, Some(c)))
    requires h' == h.(ballots := h.ballots[(t, i) := Ballot(c, d.log)])
    ensures BallotOk(h', t, i)
  {
    if c != i {
      assert VoteLog(h', t, c) == VoteLog(h, t, c);
    }
    if Early(h', t, i) {
      VoteRetains(conf, h, i, d, t);
      RetainsSame(h, h', i, t, d.log);
    }
  }

  /** Steps that create no entry leave the leader logs alone. */
  ghost predicate SameLeaders(h: Hist, h': Hist) {
    h'.logs == h.logs && h'.lead == h.lead && h'.quorum == h.quorum
  }

  lemma HistKept(conf: Conf, h: Hist, h': Hist, i: NodeId, d: Disk)
    requires HistE(conf, h) && HistB(h) && DiskE(h, i, d) && ActsAt(h, h', i, d.term) && SameLeaders(h, h')
    requires forall u, j | (u, j) in h.ballots :: AcksOk(h, j)
    requires forall u, j | (u, j) in h'.ballots && (u, j) !in h.ballots :: BallotOk(h', u, j)
    ensures HistB(h')
  {
    BallotsKept(conf, h, h', i, d);
    forall u | u in h'.lead ensures LeaderLog(h', u) {
      LeaderLogStays(h, h', u);
    }
  }

  lemma PersistActs(conf: Conf, h: Hist, h': Hist, i: NodeId, d: Disk, t: Term, voted: Option<NodeId>)
    requires HistE(conf, h) && h.logs.Keys == h.lead.Keys && JustB(h, i, d, 0, PersistHardState(t, voted))
    requires h' == h || (voted.Some? && (t, i) !in h.ballots
             && h' == h.(ballots := h.ballots[(t, i) := Ballot(voted.value, d.log)]))
    ensures ActsAt(h, h', i, d.term) && SameLeaders(h, h')
  {}

  lemma PersistDiskB(h: Hist, h': Hist, i: NodeId, d: Disk, t: Term, voted: Option<NodeId>)
    requires DiskB(h, i, d) && d.term <= t && h'.acks == h.acks && h'.logs == h.logs
    ensures DiskB(h', i, d.(term := t, voted := voted))
  {
    RetainsLater(h, i, d.log, d.term + 1, t + 1);
    RetainsSame(h, h', i, t + 1, d.log);
  }

  lemma PersistB(conf: Conf, h: Hist, h': Hist, i: NodeId, d: Disk, t: Term, voted: Option<NodeId>)
    requires HistE(conf, h) && HistB(h) && DiskE(h, i, d) && DiskB(h, i, d)
    requires forall u, j | (u, j) in h.ballots :: AcksOk(h, j)
    requires JustB(h, i, d, 0, PersistHardState(t, voted))
    requires h' == h || (voted.Some? && (t, i) !in h.ballots
             && h' == h.(ballots := h.ballots[(t, i) := Ballot(voted.value, d.log)]))
    ensures ActsAt(h, h', i, d.term) && HistB(h') && DiskB(h', i, d.(term := t, voted := voted))
  {
    PersistActs(conf, h, h', i, d, t, voted);
    PersistDiskB(h, h', i, d, t, voted);
    forall u, j | (u, j) in h'.ballots && (u, j) !in h.ballots ensures BallotOk(h', u, j) {
      NewBallot(conf, h, h', i, d, t, voted.value);
    }
    HistKept(conf, h, h', i, d);
  }

  lemma AckRetains(h: Hist, h': Hist, i: NodeId, d: Disk, ack: Index)
    requires DiskB(h, i, d) && d.term in h.logs && Agree(d.log, h.logs[d.term], ack)
    requires h' == h.(acks := h.acks + {(i, d.term, ack)})
    ensures DiskB(h', i, d)
  {
    forall t: Term, n: Index | Acked(h', i, t, n) && t < d.term + 1 && Carried(h', t, n, d.term + 1)
      ensures Agree(d.log, LogOf(h', t), n)
    {
      var k :| (i, t, k) in h'.acks && n <= k;
      if (i, t, k) in h.acks {
        assert Acked(h, i, t, n) && Carried(h, t, n, d.term + 1);
        assert Agree(d.log, LogOf(h, t), n);
      }
    }
  }

  /** Acknowledging a stretch of the current leader's log that the disk holds. */
  lemma AckB(conf: Conf, h: Hist, h': Hist, i: NodeId, d: Disk, ack: Index)
    requires HistE(conf, h) && HistB(h) && DiskE(h, i, d) && DiskB(h, i, d)
    requires forall u, j | (u, j) in h.ballots :: AcksOk(h, j)
    requires d.term in h.logs && Agree(d.log, h.logs[d.term], ack)
    requires h' == h.(acks := h.acks + {(i, d.term, ack)})
    ensures ActsAt(h, h', i, d.term) && HistB(h') && DiskB(h', i, d) && SameLeaders(h, h')
  {
    AckRetains(h, h', i, d, ack);
    HistKept(conf, h, h', i, d);
  }

  lemma AppliesB(conf: Conf, h: Hist, h': Hist, i: NodeId, d: Disk)
    requires HistE(conf, h) && HistB(h) && DiskE(h, i, d) && DiskB(h, i, d)
    requires forall u, j | (u, j) in h.ballots :: AcksOk(h, j)
    requires h' == h.(applied := h'.applied)
    ensures ActsAt(h, h', i, d.term) && HistB(h') && DiskB(h', i, d)
  {
    RetainsSame(h, h', i, d.term + 1, d.log);
    HistKept(conf, h, h', i, d);
  }

  // ---- every justified action keeps the invariant --------------------------------------------

  /** What the acting node's part of an action achieves. */
  ghost predicate Achieves(h: Hist, h': Hist, i: NodeId, d: Disk, d': Disk) {
    ActsAt(h, h', i, d.term) && HistB(h') && DiskB(h', i, d')
  }

  lemma CutResult(h: Hist, i: NodeId, d: Disk, from: Index, es: seq<Entry>)
    requires HistB(h) && DiskB(h, i, d) && Realigns(h, d, from, es)
    ensures Cut(d.log, from, es) == Some(d.log[..from] + es)
  {
    var l := h.logs[d.term];
    Consecutive(h.logs, d.log);
    assert LeaderLog(h, d.term);
    Consecutive(h.logs, l);
    assert forall k | 0 <= k < |es| :: es[k] == l[from + k];
    PutAllExtends(d.log[..from], es);
  }

  lemma RealignB(conf: Conf, h: Hist, i: NodeId, d: Disk, from: Index, es: seq<Entry>)
    requires HistE(conf, h) && HistB(h) && DiskE(h, i, d) && DiskB(h, i, d)
    requires forall u, j | (u, j) in h.ballots :: AcksOk(h, j)
    requires Realigns(h, d, from, es)
    ensures Achieves(h, h, i, d, Perform(d, TruncateAndAppend(from, es)))
  {
    CutResult(h, i, d, from, es);
    TruncateB(h, i, d, from, es);
  }

  lemma ActorB(conf: Conf, h: Hist, i: NodeId, d: Disk, ack: Index, a: Action)
    requires HistE(conf, h) && HistB(h) && DiskE(h, i, d) && DiskB(h, i, d)
    requires forall u, j | (u, j) in h.ballots :: AcksOk(h, j)
    requires JustB(h, i, d, ack, a)
    requires a.AppendLog? && d.term in h.lead ==> h.lead[d.term] == i
    ensures Achieves(h, Track(conf.ids, h, i, d, ack, a), i, d, Perform(d, a))
  {
    var h' := Track(conf.ids, h, i, d, ack, a);
    match a
    case AppendLog(es) =>
      assert es == [es[0]];
      AppendB(conf, h, i, d, ack, es[0]);
    case TruncateAndAppend(from, es) => RealignB(conf, h, i, d, from, es);
    case PersistHardState(t, voted) => PersistB(conf, h, h', i, d, t, voted);
    case Send(m) =>
      if m.kind.AppendEntriesResponse? && m.kind.success {
        AckB(conf, h, h', i, d, ack);
      } else {
        AppliesB(conf, h, h', i, d);
      }
    case Apply(es) => AppliesB(conf, h, h', i, d);
  }

  /** Other leaders' logs are not touched, and a sent packet is a good one. */
  lemma EffectB(ids: set<NodeId>, h: Hist, i: NodeId, d: Disk, ack: Index, a: Action)
    requires JustB(h, i, d, ack, a)
    ensures var h' := Track(ids, h, i, d, ack, a);
            && (a.Send? ==> MsgB(h', Packet(a.msg, ack)))
            && (forall t | t in h.logs && (!a.AppendLog? || t != d.term) :: t in h'.logs && h'.logs[t] == h.logs[t])
  {}

  /** Puts the pieces together once the acting disk and the history have been dealt with. */
  /** Only server i's disk has changed. */
  ghost predicate Framed(w: World, v: World, i: NodeId) {
    && v.c.disks.Keys == w.c.disks.Keys && (forall j | j in w.c.disks && j != i :: v.c.disks[j] == w.c.disks[j])
    && v.c.nodes == w.c.nodes
  }

  lemma DoFrames(w: World, i: NodeId, ack: Index, a: Action)
    requires i in w.c.disks
    ensures Framed(w, Do(w, i, ack, a), i)
  {}

  lemma AssembleB(conf: Conf, w: World, v: World, i: NodeId)
    requires w.c.disks.Keys == conf.ids && w.c.nodes.Keys <= conf.ids && InvB(conf, w) && i in conf.ids
    requires Framed(w, v, i) && i !in w.c.nodes
    requires ActsAt(w.h, v.h, i, w.c.disks[i].term) && HistB(v.h) && DiskB(v.h, i, v.c.disks[i])
    requires forall p | p in v.c.sent && p !in w.c.sent :: MsgB(v.h, p)
    requires forall k | k in w.c.nodes && w.c.nodes[k].role == Leader && w.c.nodes[k].term in w.h.logs ::
               v.h.logs[w.c.nodes[k].term] == w.h.logs[w.c.nodes[k].term]
    ensures InvB(conf, v)
  {
    forall p | p in v.c.sent ensures MsgB(v.h, p) {
      if p in w.c.sent { MsgStaysB(w.h, v.h, p); }
    }
    forall j | j in conf.ids ensures DiskB(v.h, j, v.c.disks[j]) {
      if j != i {
        AcksAreOk(w.h, j, w.c.disks[j].term + 1);
        DiskStaysB(w.h, v.h, j, w.c.disks[j]);
      }
    }
    forall k | k in v.c.nodes ensures NodeB(v.h, k, v.c.nodes[k], v.c.disks[k]) {
      NodeStaysB(w.h, v.h, k, w.c.nodes[k], w.c.disks[k]);
    }
  }

  lemma BallotAcks(conf: Conf, w: World)
    requires InvE(conf, w) && InvB(conf, w)
    ensures forall u, j | (u, j) in w.h.ballots :: AcksOk(w.h, j)
  {
    forall u, j | (u, j) in w.h.ballots ensures AcksOk(w.h, j) {
      AcksAreOk(w.h, j, w.c.disks[j].term + 1);
    }
  }

  /** All that `AssembleB` asks of the successor world. */
  lemma SuccessorB(conf: Conf, w: World, v: World, i: NodeId, ack: Index, a: Action)
    requires InvE(conf, w) && InvB(conf, w) && i in conf.ids && i !in w.c.nodes
    requires JustE(conf, w, i, a) && JustB(w.h, i, w.c.disks[i], ack, a)
    requires v == Do(w, i, ack, a)
    ensures Achieves(w.h, v.h, i, w.c.disks[i], v.c.disks[i])
  {
    BallotAcks(conf, w);
    ActorB(conf, w.h, i, w.c.disks[i], ack, a);
  }

  lemma PacketsB(w: World, v: World, i: NodeId, ack: Index, a: Action)
    requires i in w.c.disks && JustB(w.h, i, w.c.disks[i], ack, a) && v == Do(w, i, ack, a)
    ensures forall p | p in v.c.sent && p !in w.c.sent :: MsgB(v.h, p)
  {
    EffectB(w.c.disks.Keys, w.h, i, w.c.disks[i], ack, a);
  }

  lemma OtherLeaders(conf: Conf, w: World, v: World, i: NodeId, ack: Index, a: Action)
    requires InvE(conf, w) && i in conf.ids && i !in w.c.nodes
    requires JustE(conf, w, i, a) && JustB(w.h, i, w.c.disks[i], ack, a)
    requires v == Do(w, i, ack, a) && LogsGrow(w.h.logs, v.h.logs)
    ensures forall k | k in w.c.nodes && w.c.nodes[k].role == Leader && w.c.nodes[k].term in w.h.logs ::
              v.h.logs[w.c.nodes[k].term] == w.h.logs[w.c.nodes[k].term]
  {
    EffectB(conf.ids, w.h, i, w.c.disks[i], ack, a);
    forall k | k in w.c.nodes && w.c.nodes[k].role == Leader && w.c.nodes[k].term in w.h.logs
      ensures v.h.logs[w.c.nodes[k].term] == w.h.logs[w.c.nodes[k].term]
    {
      assert NodeE(conf, w.h, k, w.c.nodes[k], w.c.disks[k]);
    }
  }

  lemma KeepB(conf: Conf, w: World, i: NodeId, ack: Index, a: Action)
    requires InvE(conf, w) && InvB(conf, w) && i in conf.ids && i !in w.c.nodes
    requires JustE(conf, w, i, a) && JustB(w.h, i, w.c.disks[i], ack, a)
    ensures InvB(conf, Do(w, i, ack, a))
  {
    var v := Do(w, i, ack, a);
    DoFrames(w, i, ack, a);
    SuccessorB(conf, w, v, i, ack, a);
    PacketsB(w, v, i, ack, a);
    OtherLeaders(conf, w, v, i, ack, a);
    AssembleB(conf, w, v, i);
  }
}
