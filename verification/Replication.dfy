/** The handlers that vote, replicate, acknowledge and commit, as justified actions. */
module Replication {
  import opened Types
  import opened LogSpec
  import opened Kernel
  import opened DiskSpec
  import opened Cluster
  import opened History
  import opened Election
  import opened Uniqueness
  import opened Matching
  import opened Completeness
  import opened Invariant

  // ---- votes -------------------------------------------------------------------------------

  /** The sender campaigned in this term with a log at least as up to date as ours. */
  ghost predicate Deserves(h: Hist, n: Node, from: NodeId) {
    && Cast(h, n.term, from, from)
    && UpToDate(n.log, LastIndex(VoteLog(h, n.term, from)), LastTerm(VoteLog(h, n.term, from)))
  }

  lemma GrantNode(conf: Conf, f: Family, h: Hist, i: NodeId, n: Node, d: Disk, ack: Index, m: Node, from: NodeId)
    requires i in conf.ids && NodeOk(conf, f, h, i, n, d) && DiskE(h, i, d)
    requires n.voted == None || n.voted == Some(from)
    requires m == n.(voted := Some(from), elapsed := 0)
    ensures var a := PersistHardState(n.term, Some(from));
            var h' := Track(conf.ids, h, i, d, ack, a);
            NodeOk(conf, f, h', i, m, Perform(d, a)) && Cast(h', n.term, i, from)
  {
    var a := PersistHardState(n.term, Some(from));
    var h' := Track(conf.ids, h, i, d, ack, a);
    assert h'.logs == h.logs && h'.acks == h.acks && h'.made == h.made && h'.lead == h.lead;
    if Rank(f) >= 2 && m.role == Candidate {
      assert VoteLog(h', n.term, i) == VoteLog(h, n.term, i);
    }
    if Rank(f) >= 3 {
      NodeStaysC(conf, h, h', n);
    }
  }

  lemma GrantJust(conf: Conf, f: Family, w: World, i: NodeId, n: Node, ack: Index, from: NodeId)
    requires i in w.c.disks && NodeOk(conf, f, w.h, i, n, w.c.disks[i]) && from != i
    requires n.voted == None || n.voted == Some(from)
    requires Rank(f) >= 2 ==> Deserves(w.h, n, from)
    ensures Just(conf, f, w, i, ack, PersistHardState(n.term, Some(from)))
  {}

  lemma GrantReplyJust(conf: Conf, f: Family, w: World, i: NodeId, n: Node, ack: Index, from: NodeId)
    requires i in conf.ids && i in w.c.disks && NodeOk(conf, f, w.h, i, n, w.c.disks[i]) && from != i
    requires Cast(w.h, n.term, i, from)
    ensures Just(conf, f, w, i, ack, Reply(n, from, RequestVoteResponse(true)))
  {}

  lemma GrantPersist(conf: Conf, f: Family, w: World, i: NodeId, n: Node, ack: Index, from: NodeId, m: Node)
    requires Ready(conf, f, w, i, n) && from != i && (n.voted == None || n.voted == Some(from))
    requires Rank(f) >= 2 ==> Deserves(w.h, n, from)
    requires m == n.(voted := Some(from), elapsed := 0)
    ensures var acts := [PersistHardState(n.term, Some(from))];
            Good(conf, f, w, i, ack, Out(m, acts)) && Cast(DoAll(w, i, ack, acts).h, n.term, i, from)
  {
    var a := PersistHardState(n.term, Some(from));
    assert DiskE(w.h, i, w.c.disks[i]);
    GrantJust(conf, f, w, i, n, ack, from);
    GrantNode(conf, f, w.h, i, n, w.c.disks[i], ack, m, from);
    OneStep(conf, f, w, i, ack, a, m);
    OneAction(conf, f, w, i, ack, a);
  }

  lemma GrantGood(conf: Conf, f: Family, w: World, i: NodeId, n: Node, ack: Index, from: NodeId, m: Node)
    requires Ready(conf, f, w, i, n) && from != i && (n.voted == None || n.voted == Some(from))
    requires Rank(f) >= 2 ==> Deserves(w.h, n, from)
    requires m == n.(voted := Some(from), elapsed := 0)
    ensures Good(conf, f, w, i, ack,
                 Out(m, [PersistHardState(n.term, Some(from))] + [Reply(m, from, RequestVoteResponse(true))]))
  {
    var first := Out(m, [PersistHardState(n.term, Some(from))]);
    GrantPersist(conf, f, w, i, n, ack, from, m);
    ReadyAfter(conf, f, w, i, n, ack, first);
    SayGranted(conf, f, DoAll(w, i, ack, first.acts), i, m, ack, from);
    Then(conf, f, w, i, ack, first, Out(m, [Reply(m, from, RequestVoteResponse(true))]));
  }

  lemma SayGranted(conf: Conf, f: Family, w: World, i: NodeId, m: Node, ack: Index, from: NodeId)
    requires Ready(conf, f, w, i, m) && from != i && Cast(w.h, m.term, i, from)
    ensures Good(conf, f, w, i, ack, Out(m, [Reply(m, from, RequestVoteResponse(true))]))
  {
    GrantReplyJust(conf, f, w, i, m, ack, from);
    EndWithSend(conf, f, w, i, m, ack, Reply(m, from, RequestVoteResponse(true)));
  }

  // ---- commit and apply --------------------------------------------------------------------

  lemma AdvanceShape(n: Node, k: Index)
    ensures var m := AdvanceTo(n, k).n;
            && m == n.(commit := m.commit, applied := m.applied)
            && (m.commit == n.commit || (k > n.commit && m.commit == k)) && n.commit <= m.commit
            && (n.applied <= n.commit ==> m.applied <= m.commit)
  {
    var m := n.(commit := k);
    if Pending(m) != [] { assert Pending(m)[|Pending(m)| - 1] in Pending(m); }
  }

  lemma CommitNode(conf: Conf, f: Family, h: Hist, i: NodeId, n: Node, d: Disk, m: Node, h': Hist)
    requires NodeOk(conf, f, h, i, n, d) && m == n.(commit := m.commit, applied := m.applied) && n.commit <= m.commit
    requires n.applied <= n.commit ==> m.applied <= m.commit
    requires Rank(f) >= 3 ==> Settled(conf, h, n.log, m.commit, n.term)
    requires h' == h.(applied := h'.applied)
    ensures NodeOk(conf, f, h', i, m, d)
  {
    if Rank(f) >= 3 {
      SettledStays(conf, h, h', n.log, m.commit, n.term);
      NodeStaysC(conf, h, h', n);
    }
  }

  lemma AdvanceNode(conf: Conf, f: Family, h: Hist, i: NodeId, n: Node, d: Disk, k: Index, h': Hist)
    requires NodeOk(conf, f, h, i, n, d)
    requires Rank(f) >= 3 && k > n.commit ==> Settled(conf, h, n.log, k, n.term)
    requires h' == h.(applied := h'.applied)
    ensures NodeOk(conf, f, h', i, AdvanceTo(n, k).n, d)
  {
    AdvanceShape(n, k);
    CommitNode(conf, f, h, i, n, d, AdvanceTo(n, k).n, h');
  }

  /** What is applied are the log's entries up to the commit index. */
  lemma BatchEntry(logs: map<Term, Log>, s: Log, applied: Index, commit: Index, e: Entry)
    requires LogOk(logs, s) && e in TakeUpTo(EntriesFrom(s, applied + 1), commit)
    ensures 1 <= e.index <= commit && e.index < |s| && s[e.index] == e
  {
    var es := EntriesFrom(s, applied + 1);
    Consecutive(logs, s);
    var x :| 0 <= x < |es| && es[x] == e;
    assert s[applied + 1 + x] == e;
  }

  lemma BatchSettled(conf: Conf, h: Hist, s: Log, c: Index, bound: Term, e: Entry)
    requires Settled(conf, h, s, c, bound) && 1 <= e.index <= c && e.index < |s| && s[e.index] == e
    ensures SettledEntry(conf, h, e)
  {
    var t: Term, k: Index :| t <= bound && c <= k && Committed(conf, h, t, k) && Agree(s, LogOf(h, t), c);
    assert LogOf(h, t)[e.index] == e;
  }

  lemma AdvanceActions(n: Node, k: Index, a: Action)
    requires a in AdvanceTo(n, k).acts
    ensures k > n.commit && a == Apply(Pending(n.(commit := k)))
  {}

  lemma PendingEntry(logs: map<Term, Log>, n: Node, e: Entry)
    requires LogOk(logs, n.log) && e in Pending(n)
    ensures 1 <= e.index <= n.commit && e.index < |n.log| && n.log[e.index] == e
  {
    BatchEntry(logs, n.log, n.applied, n.commit, e);
  }

  lemma ApplyJust(conf: Conf, f: Family, w: World, i: NodeId, n: Node, ack: Index, k: Index)
    requires i in w.c.disks && k > n.commit
    requires Rank(f) >= 3 ==> LogOk(w.h.logs, n.log) && Settled(conf, w.h, n.log, k, n.term)
    ensures forall a | a in AdvanceTo(n, k).acts :: a.Apply? && Just(conf, f, w, i, ack, a)
  {
    forall a | a in AdvanceTo(n, k).acts ensures a.Apply? && Just(conf, f, w, i, ack, a) {
      AdvanceActions(n, k, a);
      BatchJust(conf, f, w, i, n.(commit := k), ack);
    }
  }

  lemma BatchJust(conf: Conf, f: Family, w: World, i: NodeId, m: Node, ack: Index)
    requires i in w.c.disks
    requires Rank(f) >= 3 ==> LogOk(w.h.logs, m.log) && Settled(conf, w.h, m.log, m.commit, m.term)
    ensures Just(conf, f, w, i, ack, Apply(Pending(m)))
  {
    if Rank(f) >= 3 {
      forall e | e in Pending(m) ensures SettledEntry(conf, w.h, e) {
        PendingEntry(w.h.logs, m, e);
        BatchSettled(conf, w.h, m.log, m.commit, m.term, e);
      }
    }
  }

  lemma ReadyLogOk(conf: Conf, f: Family, w: World, i: NodeId, n: Node)
    requires Ready(conf, f, w, i, n) && Rank(f) >= 2
    ensures LogOk(w.h.logs, n.log) && DiskB(w.h, i, w.c.disks[i]) && HistB(w.h)
  {}

  lemma AdvanceActs(n: Node, k: Index)
    ensures var o := AdvanceTo(n, k);
            o.acts == [] || (k > n.commit && o.acts == [o.acts[0]] && o.acts[0] in o.acts)
  {}

  lemma AdvanceGood(conf: Conf, f: Family, w: World, i: NodeId, n: Node, ack: Index, k: Index)
    requires Ready(conf, f, w, i, n)
    requires Rank(f) >= 3 && k > n.commit ==> Settled(conf, w.h, n.log, k, n.term)
    ensures Good(conf, f, w, i, ack, AdvanceTo(n, k))
  {
    var o := AdvanceTo(n, k);
    AdvanceActs(n, k);
    if o.acts == [] {
      AdvanceNode(conf, f, w.h, i, n, w.c.disks[i], k, w.h);
      NoStep(conf, f, w, i, ack, o);
    } else {
      ApplyGood(conf, f, w, i, n, ack, k, o.acts[0]);
      SameOut(conf, f, w, i, ack, Out(o.n, [o.acts[0]]), o);
    }
  }

  lemma ApplyGood(conf: Conf, f: Family, w: World, i: NodeId, n: Node, ack: Index, k: Index, a: Action)
    requires Ready(conf, f, w, i, n) && k > n.commit && a in AdvanceTo(n, k).acts
    requires Rank(f) >= 3 ==> Settled(conf, w.h, n.log, k, n.term)
    ensures Good(conf, f, w, i, ack, Out(AdvanceTo(n, k).n, [a]))
  {
    var d := w.c.disks[i];
    if Rank(f) >= 3 { ReadyLogOk(conf, f, w, i, n); }
    ApplyJust(conf, f, w, i, n, ack, k);
    ApplyNode(conf, f, w.h, i, n, d, ack, k, a);
    OneStep(conf, f, w, i, ack, a, AdvanceTo(n, k).n);
  }

  lemma ApplyNode(conf: Conf, f: Family, h: Hist, i: NodeId, n: Node, d: Disk, ack: Index, k: Index, a: Action)
    requires NodeOk(conf, f, h, i, n, d) && a.Apply?
    requires Rank(f) >= 3 && k > n.commit ==> Settled(conf, h, n.log, k, n.term)
    ensures NodeOk(conf, f, Track(conf.ids, h, i, d, ack, a), i, AdvanceTo(n, k).n, Perform(d, a))
  {
    AdvanceNode(conf, f, h, i, n, d, k, Track(conf.ids, h, i, d, ack, a));
  }

  // ---- the follower's side of AppendEntries ------------------------------------------------

  lemma TermsMatch(logs: map<Term, Log>, a: Log, b: Log, k: Index)
    requires LogOk(logs, a) && LogOk(logs, b) && k < |a| && k < |b| && a[k].term == b[k].term
    ensures Agree(a, b, k)
  {
    if k > 0 { assert Rooted(logs, a, k) && Rooted(logs, b, k); }
  }

  /** A good AppendEntries, received in its term, that passes the consistency check. */
  ghost predicate Passes(h: Hist, n: Node, d: Disk, m: Message) {
    && m.kind.AppendEntries? && ValidMsg(m) && FromLeader(h, m)
    && LogOk(h.logs, n.log) && LogOk(h.logs, LogOf(h, m.term)) && n.log == d.log && d.term == m.term
    && Rejection(n.log, m.kind.prevIndex, m.kind.prevTerm).None?
  }

  lemma MessageEntries(h: Hist, n: Node, d: Disk, m: Message)
    requires Passes(h, n, d, m)
    ensures FirstIndex(n.log) == 0 && m.kind.prevIndex < |n.log|
    ensures n.log[m.kind.prevIndex].term == h.logs[m.term][m.kind.prevIndex].term
    ensures forall x | 0 <= x < |m.kind.entries| ::
              m.kind.entries[x] == h.logs[m.term][m.kind.prevIndex + 1 + x]
              && m.kind.entries[x].index == m.kind.prevIndex + 1 + x
  {}

  /** The entries already held are the leader's. */
  lemma HeldAgrees(h: Hist, n: Node, d: Disk, m: Message)
    requires Passes(h, n, d, m)
    ensures Agree(n.log, h.logs[m.term], m.kind.prevIndex + HeldPrefix(n.log, m.kind.entries))
  {
    var es, l, p := m.kind.entries, h.logs[m.term], m.kind.prevIndex;
    var held := HeldPrefix(n.log, es);
    MessageEntries(h, n, d, m);
    if held > 0 {
      assert TermAt(n.log, es[held - 1].index) == Some(es[held - 1].term);
    }
    TermsMatch(h.logs, n.log, l, p + held);
  }

  /** The rest of a stretch of l is a stretch of l. */
  lemma Rest(l: Log, p: Index, es: seq<Entry>, held: nat)
    requires held <= |es| && p + |es| < |l| && es == l[p + 1..p + 1 + |es|]
    ensures es[held..] == l[p + 1 + held..p + 1 + held + |es[held..]|]
  {}

  lemma MismatchAt(s: Log, e: Entry)
    requires FirstIndex(s) == 0 && TermAt(s, e.index) != Some(e.term)
    ensures e.index < |s| ==> s[e.index].term != e.term
  {}

  lemma RealignsFrom(h: Hist, d: Disk, p: Index, es: seq<Entry>, held: nat)
    requires d.term in h.logs && held < |es| && p + |es| < |h.logs[d.term]|
    requires Agree(d.log, h.logs[d.term], p + held) && es == h.logs[d.term][p + 1..p + 1 + |es|]
    requires p + 1 + held < |d.log| ==> d.log[p + 1 + held].term != h.logs[d.term][p + 1 + held].term
    ensures Realigns(h, d, p + 1 + held, es[held..])
  {
    Rest(h.logs[d.term], p, es, held);
  }

  lemma AlignedAt(h: Hist, n: Node, d: Disk, m: Message, held: nat)
    requires Passes(h, n, d, m) && held < |m.kind.entries| && Agree(n.log, h.logs[m.term], m.kind.prevIndex + held)
    requires TermAt(n.log, m.kind.entries[held].index) != Some(m.kind.entries[held].term)
    ensures m.kind.entries[held].index == m.kind.prevIndex + 1 + held
    ensures Realigns(h, d, m.kind.prevIndex + 1 + held, m.kind.entries[held..])
  {
    MessageEntries(h, n, d, m);
    MismatchAt(n.log, m.kind.entries[held]);
    RealignsFrom(h, d, m.kind.prevIndex, m.kind.entries, held);
  }

  /** What is left of the message replaces the follower's log from the first mismatch on. */
  lemma MergeAligned(h: Hist, n: Node, d: Disk, m: Message)
    requires Passes(h, n, d, m) && HeldPrefix(n.log, m.kind.entries) < |m.kind.entries|
    ensures var es := m.kind.entries;
            var held := HeldPrefix(n.log, es);
            es[held].index == m.kind.prevIndex + 1 + held && Realigns(h, d, es[held].index, es[held..])
  {
    var held := HeldPrefix(n.log, m.kind.entries);
    assert TermAt(n.log, m.kind.entries[held].index) != Some(m.kind.entries[held].term);
    HeldAgrees(h, n, d, m);
    AlignedAt(h, n, d, m, held);
  }

  lemma SplicedAgrees(h: Hist, d: Disk, from: Index, es: seq<Entry>)
    requires Realigns(h, d, from, es) && FirstIndex(d.log) == 0
    ensures Agree(Truncated(d.log, from, es), h.logs[d.term], from + |es| - 1)
  {
    RealignedLog(h, d, from, es);
  }

  lemma MergedAgrees(h: Hist, n: Node, d: Disk, m: Message)
    requires Passes(h, n, d, m)
    ensures m.kind.entries != [] ==> FirstIndex(n.log) < m.kind.entries[0].index
    ensures Agree(Merge(n, m.kind.entries).n.log, h.logs[m.term], m.kind.prevIndex + |m.kind.entries|)
  {
    var es := m.kind.entries;
    var held := HeldPrefix(n.log, es);
    HeldAgrees(h, n, d, m);
    MessageEntries(h, n, d, m);
    if held < |es| {
      MergeRest(n, es, held);
      MergeAligned(h, n, d, m);
      SplicedAgrees(h, d, es[held].index, es[held..]);
    } else {
      MergeHeld(n, es);
    }
  }

  lemma MergeJustS(h: Hist, n: Node, d: Disk, m: Message)
    requires m.kind.AppendEntries? && ValidMsg(m) && MsgS(h, m)
    requires DiskS(h, d) && NodeS(h, n, d)
    requires Rejection(n.log, m.kind.prevIndex, m.kind.prevTerm).None?
    requires HeldPrefix(n.log, m.kind.entries) < |m.kind.entries|
    ensures var held := HeldPrefix(n.log, m.kind.entries);
            var es := m.kind.entries[held..];
            && JustS(h, d, TruncateAndAppend(es[0].index, es))
            && FirstIndex(n.log) < es[0].index <= LastIndex(n.log) + 1
  {
    var held := HeldPrefix(n.log, m.kind.entries);
    if held > 0 {
      assert TermAt(n.log, m.kind.entries[held - 1].index).Some?;
    }
  }

  lemma MergeNodeS(h: Hist, n: Node, d: Disk, from: Index, es: seq<Entry>)
    requires DiskS(h, d) && NodeS(h, n, d) && n.role == Follower
    requires JustS(h, d, TruncateAndAppend(from, es)) && FirstIndex(n.log) < from <= LastIndex(n.log) + 1
    ensures NodeS(h, n.(log := Truncated(n.log, from, es)), Perform(d, TruncateAndAppend(from, es)))
  {
    WriteResult(h, d, TruncateAndAppend(from, es));
    assert n.log[..from - FirstIndex(n.log)][1..] == d.log[..from - FirstIndex(d.log)][1..];
  }

  lemma MergeNodeB(h: Hist, i: NodeId, n: Node, d: Disk, from: Index, es: seq<Entry>)
    requires HistB(h) && DiskB(h, i, d) && NodeB(h, i, n, d) && n.role == Follower
    requires Realigns(h, d, from, es)
    ensures FirstIndex(n.log) < from
    ensures NodeB(h, i, n.(log := Truncated(n.log, from, es)), Perform(d, TruncateAndAppend(from, es)))
  {
    CutResult(h, i, d, from, es);
  }

  /** The settled stretch of the follower's log survives the merge. */
  lemma MergeNodeC(conf: Conf, h: Hist, n: Node, d: Disk, from: Index, es: seq<Entry>)
    requires HistE(conf, h) && HistB(h) && NodeC(conf, h, n) && n.role == Follower
    requires n.log == d.log && n.term == d.term && Realigns(h, d, from, es) && FirstIndex(n.log) == 0
    ensures NodeC(conf, h, n.(log := Truncated(n.log, from, es)))
  {
    var r := Truncated(n.log, from, es);
    LeaderSettled(conf, h, n.log, n.commit, n.term, n.term);
    if n.commit > 0 {
      var l := h.logs[d.term];
      assert n.commit < from by {
        if from <= n.commit {
          assert false;
        }
      }
      SettledElsewhere(conf, h, n.log, r, n.commit, n.term);
    }
  }

  lemma SettledElsewhere(conf: Conf, h: Hist, s: Log, r: Log, c: Index, b: Term)
    requires Settled(conf, h, s, c, b) && Agree(r, s, c)
    ensures Settled(conf, h, r, c, b)
  {
    if c > 0 {
      var t: Term, n: Index :| t <= b && c <= n && Committed(conf, h, t, n) && Agree(s, LogOf(h, t), c);
      assert Agree(r, LogOf(h, t), c);
    }
  }

  /** What the invariant says of an AppendEntries that reached node i in the message's term. */
  ghost predicate KnownAppend(conf: Conf, f: Family, h: Hist, m: Message) {
    && m.kind.AppendEntries?
    && (Rank(f) >= 1 ==> MsgS(h, m))
    && (Rank(f) >= 2 ==> FromLeader(h, m))
    && (Rank(f) >= 3 ==> MsgC(conf, h, m))
  }

  lemma AcceptedStart(n: Node, m: Message)
    requires m.kind.AppendEntries? && ValidMsg(m) && Rejection(n.log, m.kind.prevIndex, m.kind.prevTerm).None?
    ensures m.kind.entries != [] ==>
              FirstIndex(n.log) < m.kind.entries[0].index && ContiguousFrom(m.kind.entries, m.kind.entries[0].index)
  {}

  lemma ReadyPasses(conf: Conf, f: Family, w: World, i: NodeId, n: Node, m: Message)
    requires Ready(conf, f, w, i, n) && Rank(f) >= 2 && KnownAppend(conf, f, w.h, m) && n.term == m.term
    requires Rejection(n.log, m.kind.prevIndex, m.kind.prevTerm).None?
    ensures Passes(w.h, n, w.c.disks[i], m)
  {
    assert LeaderLog(w.h, m.term);
  }

  /** A replacement that fits the follower's log and is justified. */
  ghost predicate Splices(conf: Conf, f: Family, h: Hist, i: NodeId, n: Node, d: Disk, from: Index, es: seq<Entry>) {
    && FirstIndex(n.log) < from
    && (Rank(f) >= 1 ==> DiskS(h, d) && JustS(h, d, TruncateAndAppend(from, es)) && from <= LastIndex(n.log) + 1)
    && (Rank(f) >= 2 ==> HistB(h) && DiskB(h, i, d) && Realigns(h, d, from, es))
    && (Rank(f) >= 3 ==> HistE(conf, h))
  }

  lemma HeldSplices(conf: Conf, f: Family, w: World, i: NodeId, n: Node, m: Message, h: nat)
    requires Ready(conf, f, w, i, n) && KnownAppend(conf, f, w.h, m) && n.term == m.term && Rank(f) >= 1
    requires Rejection(n.log, m.kind.prevIndex, m.kind.prevTerm).None?
    requires h == HeldPrefix(n.log, m.kind.entries) < |m.kind.entries|
    ensures var es := m.kind.entries[h..]; Splices(conf, f, w.h, i, n, w.c.disks[i], es[0].index, es)
  {
    var d := w.c.disks[i];
    AcceptedStart(n, m);
    MergeJustS(w.h, n, d, m);
    if Rank(f) >= 2 {
      ReadyLogOk(conf, f, w, i, n);
      ReadyPasses(conf, f, w, i, n, m);
      MergeAligned(w.h, n, d, m);
    }
  }

  lemma AttachAtHeld(n: Node, m: Message)
    requires ValidMsg(m) && m.kind.AppendEntries? && m.kind.entries != []
    ensures var es := m.kind.entries;
            var h := HeldPrefix(n.log, es);
            Skipped(n.log, es) == h && (h < |es| ==> es[h..][0].index == Attach(n.log, es))
  {
    AttachConsecutive(n.log, m.kind.entries);
  }

  lemma MergeSplices(conf: Conf, f: Family, w: World, i: NodeId, n: Node, m: Message)
    requires Ready(conf, f, w, i, n) && KnownAppend(conf, f, w.h, m) && n.term == m.term
    requires Rejection(n.log, m.kind.prevIndex, m.kind.prevTerm).None?
    requires var es := m.kind.entries; es != [] && Skipped(n.log, es) < |es| && !CutsBase(n.log, es)
    ensures var es := m.kind.entries;
            Splices(conf, f, w.h, i, n, w.c.disks[i], Attach(n.log, es), es[Skipped(n.log, es)..])
  {
    if Rank(f) >= 1 {
      AttachAtHeld(n, m);
      HeldSplices(conf, f, w, i, n, m, HeldPrefix(n.log, m.kind.entries));
    }
  }

  lemma SpliceJust(conf: Conf, f: Family, w: World, i: NodeId, n: Node, ack: Index, from: Index, es: seq<Entry>)
    requires i in w.c.disks && Splices(conf, f, w.h, i, n, w.c.disks[i], from, es)
    ensures Just(conf, f, w, i, ack, TruncateAndAppend(from, es))
  {}

  lemma SpliceNode(conf: Conf, f: Family, h: Hist, i: NodeId, n: Node, d: Disk, from: Index, es: seq<Entry>)
    requires NodeOk(conf, f, h, i, n, d) && n.role == Follower && Splices(conf, f, h, i, n, d, from, es)
    ensures NodeOk(conf, f, h, i, n.(log := Truncated(n.log, from, es)), Perform(d, TruncateAndAppend(from, es)))
  {
    var m, e := n.(log := Truncated(n.log, from, es)), Perform(d, TruncateAndAppend(from, es));
    assert e.term == d.term && e.voted == d.voted;
    assert Rank(f) >= 1 ==> NodeS(h, m, e) by {
      if Rank(f) >= 1 { MergeNodeS(h, n, d, from, es); }
    }
    assert Rank(f) >= 2 ==> NodeB(h, i, m, e) by {
      if Rank(f) >= 2 { MergeNodeB(h, i, n, d, from, es); }
    }
    assert Rank(f) >= 3 ==> NodeC(conf, h, m) by {
      if Rank(f) >= 3 { MergeNodeC(conf, h, n, d, from, es); }
    }
  }

  lemma SpliceGood(conf: Conf, f: Family, w: World, i: NodeId, n: Node, ack: Index, from: Index, es: seq<Entry>)
    requires Ready(conf, f, w, i, n) && n.role == Follower && Splices(conf, f, w.h, i, n, w.c.disks[i], from, es)
    ensures var acts := [TruncateAndAppend(from, es)];
            && Good(conf, f, w, i, ack, Out(n.(log := Truncated(n.log, from, es)), acts))
            && DoAll(w, i, ack, acts).h == w.h
  {
    var a := TruncateAndAppend(from, es);
    SpliceJust(conf, f, w, i, n, ack, from, es);
    SpliceNode(conf, f, w.h, i, n, w.c.disks[i], from, es);
    SpliceHist(conf.ids, w, i, ack, from, es);
    OneStep(conf, f, w, i, ack, a, n.(log := Truncated(n.log, from, es)));
  }

  lemma SpliceHist(ids: set<NodeId>, w: World, i: NodeId, ack: Index, from: Index, es: seq<Entry>)
    requires i in w.c.disks
    ensures DoAll(w, i, ack, [TruncateAndAppend(from, es)]).h == w.h
    ensures Track(ids, w.h, i, w.c.disks[i], ack, TruncateAndAppend(from, es)) == w.h
  {
    var v := Do(w, i, ack, TruncateAndAppend(from, es));
    assert DoAll(v, i, ack, []) == v;
  }

  lemma MergeGood(conf: Conf, f: Family, w: World, i: NodeId, n: Node, ack: Index, m: Message)
    requires Ready(conf, f, w, i, n) && KnownAppend(conf, f, w.h, m) && n.term == m.term && n.role == Follower
    requires Rejection(n.log, m.kind.prevIndex, m.kind.prevTerm).None?
    ensures Good(conf, f, w, i, ack, Merge(n, m.kind.entries))
    ensures DoAll(w, i, ack, Merge(n, m.kind.entries).acts).h == w.h
  {
    var es := m.kind.entries;
    if es == [] || Skipped(n.log, es) == |es| || CutsBase(n.log, es) {
      NoStep(conf, f, w, i, ack, Out(n, []));
    } else {
      var rest := es[Skipped(n.log, es)..];
      MergeSplices(conf, f, w, i, n, m);
      SpliceGood(conf, f, w, i, n, ack, Attach(n.log, es), rest);
    }
  }

  /** The commit index a follower takes over lies within what the message checked. */
  lemma CommitSettled(conf: Conf, h: Hist, n: Node, m: Message)
    requires m.kind.AppendEntries? && FromLeader(h, m) && MsgC(conf, h, m) && n.term == m.term
    requires LogOk(h.logs, n.log) && Agree(n.log, h.logs[m.term], m.kind.prevIndex + |m.kind.entries|)
    ensures m.kind.leaderCommit <= LastIndex(n.log)
    ensures Settled(conf, h, n.log, m.kind.leaderCommit, n.term)
  {
    Consecutive(h.logs, n.log);
    SettledElsewhere(conf, h, h.logs[m.term], n.log, m.kind.leaderCommit, m.term);
  }

  lemma FollowGood(conf: Conf, f: Family, w: World, i: NodeId, n: Node, ack: Index, m: Message)
    requires Ready(conf, f, w, i, n) && KnownAppend(conf, f, w.h, m) && n.term == m.term
    requires Rank(f) >= 2 ==> Agree(n.log, w.h.logs[m.term], m.kind.prevIndex + |m.kind.entries|)
    ensures var o := FollowLeaderCommit(n, m.kind.leaderCommit);
            Good(conf, f, w, i, ack, o) && DoAll(w, i, ack, o.acts).h.logs == w.h.logs
  {
    if Rank(f) >= 3 {
      ReadyLogOk(conf, f, w, i, n);
      CommitSettled(conf, w.h, n, m);
    }
    var lc := m.kind.leaderCommit;
    var k := if lc <= LastIndex(n.log) then lc else LastIndex(n.log);
    if lc > n.commit {
      AdvanceGood(conf, f, w, i, n, ack, k);
      AdvanceHist(conf, f, w, i, n, ack, k);
    } else {
      NoStep(conf, f, w, i, ack, Out(n, []));
    }
  }

  lemma AdvanceHist(conf: Conf, f: Family, w: World, i: NodeId, n: Node, ack: Index, k: Index)
    requires i in w.c.disks
    ensures DoAll(w, i, ack, AdvanceTo(n, k).acts).h.logs == w.h.logs
  {
    var o := AdvanceTo(n, k);
    AdvanceActs(n, k);
    if o.acts != [] {
      OneAction(conf, f, w, i, ack, o.acts[0]);
      assert o.acts[0].Apply?;
    }
  }

  lemma AckNode(conf: Conf, f: Family, h: Hist, i: NodeId, n: Node, d: Disk, ack: Index, to: NodeId)
    requires NodeOk(conf, f, h, i, n, d) && n.role == Follower
    ensures var a := Reply(n, to, AppendEntriesResponse(true, None, None));
            NodeOk(conf, f, Track(conf.ids, h, i, d, ack, a), i, n, Perform(d, a))
  {
    if Rank(f) >= 3 {
      NodeStaysC(conf, h, Track(conf.ids, h, i, d, ack, Reply(n, to, AppendEntriesResponse(true, None, None))), n);
    }
  }

  lemma AckJust(conf: Conf, f: Family, w: World, i: NodeId, n: Node, ack: Index, to: NodeId)
    requires i in conf.ids && i in w.c.disks && NodeOk(conf, f, w.h, i, n, w.c.disks[i]) && to != i
    requires Rank(f) >= 2 ==> n.term in w.h.logs && Agree(n.log, w.h.logs[n.term], ack)
    ensures Just(conf, f, w, i, ack, Reply(n, to, AppendEntriesResponse(true, None, None)))
  {}

  lemma AckGood(conf: Conf, f: Family, w: World, i: NodeId, n: Node, ack: Index, to: NodeId)
    requires Ready(conf, f, w, i, n) && n.role == Follower && to != i
    requires Rank(f) >= 2 ==> n.term in w.h.logs && Agree(n.log, w.h.logs[n.term], ack)
    ensures Good(conf, f, w, i, ack, Out(n, [Reply(n, to, AppendEntriesResponse(true, None, None))]))
  {
    AckJust(conf, f, w, i, n, ack, to);
    AckNode(conf, f, w.h, i, n, w.c.disks[i], ack, to);
    OneStep(conf, f, w, i, ack, Reply(n, to, AppendEntriesResponse(true, None, None)), n);
  }
}
