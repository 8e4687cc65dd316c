/** Fast backtracking: how a leader finds the end of the common prefix of its log and a follower's. */
module Backtracking {
  import opened Types
  import opened LogSpec
  import opened Kernel
  import opened Cluster
  import opened History
  import opened Matching
  import opened Protocol
  import opened Theorems

  /** An uncompacted log with non-decreasing terms. */
  ghost predicate Whole(s: Log) {
    s[0] == SENTINEL && Contiguous(s) && Ascending(s)
  }

  ghost predicate CoherentAt(a: Log, b: Log, i: Index, j: Index)
    requires i < |a| && j < |b|
  {
    a[i].term == b[j].term ==> Agree(a, b, if i <= j then i else j)
  }

  /** Log Matching across indices: logs that both have entries of a term agree as far as both are known
      to follow that term's leader. */
  ghost predicate Coherent(a: Log, b: Log) {
    forall i, j {:trigger CoherentAt(a, b, i, j)} | 0 <= i < |a| && 0 <= j < |b| :: CoherentAt(a, b, i, j)
  }

  /** The last index of the longest common prefix. */
  ghost function Common(a: Log, b: Log, k: Index): (m: Index)
    requires Agree(a, b, k)
    ensures k <= m && Agree(a, b, m) && !Agree(a, b, m + 1)
    decreases |a| - k
  {
    if Agree(a, b, k + 1) then Common(a, b, k + 1) else k
  }

  /** One exchange with a follower holding `f`: `None` when the request is accepted, otherwise where
      the leader probes next. */
  function Probe(f: Log, l: Log, next: Index): Option<Index> {
    match Rejection(f, Prev(next), TermAt(l, Prev(next)).UnwrapOr(0))
    case None => None
    case Some(kind) => Some(Backtrack(l, next, kind.conflictTerm, kind.conflictIndex))
  }

  /** Where the follower's log first differs for good: the two ends of the common prefix. */
  ghost predicate Split(f: Log, l: Log, m: Index) {
    Whole(f) && Whole(l) && Coherent(f, l) && Agree(f, l, m) && !Agree(f, l, m + 1)
  }

  lemma TermOf(s: Log, i: Index)
    requires s[0] == SENTINEL && i < |s|
    ensures TermAt(s, i) == Some(s[i].term)
  {}

  /** Between equal terms of a non-decreasing log there is only that term. */
  lemma Plateau(s: Log, lo: Index, i: Index, hi: Index)
    requires Ascending(s) && lo <= i <= hi < |s| && s[lo].term == s[hi].term
    ensures s[i].term == s[lo].term
  {}

  /** Equal terms do not occur beyond the common prefix at both logs. */
  lemma MeetsWithin(f: Log, l: Log, m: Index, i: Index, j: Index)
    requires Split(f, l, m) && i < |f| && j < |l| && f[i].term == l[j].term
    ensures i <= m || j <= m
  {
    assert CoherentAt(f, l, i, j);
  }

  /** A conflicting term that the leader also has: the common prefix ends with that term's run. */
  lemma SharedTerm(f: Log, l: Log, m: Index, prev: Index, q: Index)
    requires Split(f, l, m) && m < prev < |f|
    requires LastOfTerm(l, f[prev].term, 0, |l|) == Some(q)
    ensures q == m
  {
    TermOf(l, q);
    MeetsWithin(f, l, m, prev, q);
    assert f[q].term == f[prev].term;
    Plateau(f, q, m, prev);
    TermOf(l, m);
  }

  /** A conflicting term the leader lacks: the follower's run of it starts beyond the common prefix. */
  lemma ForeignTerm(f: Log, l: Log, m: Index, prev: Index)
    requires Split(f, l, m) && m < prev < |f| && TermAt(f, prev) == Some(f[prev].term)
    requires LastOfTerm(l, f[prev].term, 0, |l|).None?
    ensures m < RunStart(f, f[prev].term, prev) <= prev
  {
    TermOf(l, m);
    TermOf(f, m);
    assert TermAt(l, m) != Some(f[prev].term);
  }

  lemma ConflictProgress(f: Log, l: Log, m: Index, prev: Index)
    requires Split(f, l, m) && m < prev < |f| && prev < |l| && f[prev].term != l[prev].term
    ensures TermAt(f, prev) == Some(f[prev].term)
    ensures Probe(f, l, prev + 1).Some? && m < Probe(f, l, prev + 1).value <= prev
    ensures Probe(f, l, prev + 1).value == m + 1 || Probe(f, l, prev + 1).value == RunStart(f, f[prev].term, prev)
  {
    TermOf(f, prev);
    TermOf(l, prev);
    var q := LastOfTerm(l, f[prev].term, 0, |l|);
    if q.Some? {
      SharedTerm(f, l, m, prev, q.value);
    } else {
      ForeignTerm(f, l, m, prev);
    }
    ConflictProbe(f, l, prev);
  }

  /** The follower names the conflicting term and where its run starts. */
  lemma ConflictReply(f: Log, prev: Index, term: Term)
    requires prev < |f| && TermAt(f, prev) == Some(f[prev].term) && f[prev].term != term
    ensures Rejection(f, prev, term)
         == Some(AppendEntriesResponse(false, Some(f[prev].term), Some(RunStart(f, f[prev].term, prev))))
  {}

  /** What the two handlers compute on a conflicting term. */
  lemma ConflictProbe(f: Log, l: Log, prev: Index)
    requires 1 <= prev < |f| && prev < |l| && f[prev].term != l[prev].term
    requires TermAt(f, prev) == Some(f[prev].term) && TermAt(l, prev) == Some(l[prev].term)
    requires FirstIndex(l) == 0 && LastIndex(l) == |l| - 1
    ensures var q := LastOfTerm(l, f[prev].term, 0, |l|);
            var r := RunStart(f, f[prev].term, prev);
            Probe(f, l, prev + 1) == Some(if q.Some? then q.value + 1 else if r == 0 then 1 else r)
  {
    ConflictRejected(f, l, prev);
    ProbeReply(f, l, prev + 1, f[prev].term, RunStart(f, f[prev].term, prev));
    BacktrackTo(l, prev + 1, f[prev].term, RunStart(f, f[prev].term, prev));
  }

  lemma ConflictRejected(f: Log, l: Log, prev: Index)
    requires 1 <= prev < |f| && prev < |l| && f[prev].term != l[prev].term
    requires TermAt(f, prev) == Some(f[prev].term) && TermAt(l, prev) == Some(l[prev].term)
    ensures Rejection(f, Prev(prev + 1), TermAt(l, Prev(prev + 1)).UnwrapOr(0))
         == Some(AppendEntriesResponse(false, Some(f[prev].term), Some(RunStart(f, f[prev].term, prev))))
  {
    ConflictReply(f, prev, l[prev].term);
    assert Prev(prev + 1) == prev;
  }

  lemma ProbeReply(f: Log, l: Log, next: Index, t: Term, r: Index)
    requires Rejection(f, Prev(next), TermAt(l, Prev(next)).UnwrapOr(0))
             == Some(AppendEntriesResponse(false, Some(t), Some(r)))
    ensures Probe(f, l, next) == Some(Backtrack(l, next, Some(t), Some(r)))
  {}

  lemma BacktrackTo(l: Log, next: Index, t: Term, r: Index)
    requires FirstIndex(l) == 0 && LastIndex(l) == |l| - 1
    ensures var q := LastOfTerm(l, t, 0, |l|);
            Backtrack(l, next, Some(t), Some(r)) == if q.Some? then q.value + 1 else if r == 0 then 1 else r
  {}

  /** For any two uncompacted logs: a rejection with a conflict term lowers `next` if and only if the
      leader has no entry of that term beyond the probed index. */
  lemma ConflictLowersIff(f: Log, l: Log, prev: Index)
    requires Whole(f) && Whole(l) && 1 <= prev < |f| && prev < |l| && f[prev].term != l[prev].term
    ensures Probe(f, l, prev + 1).Some?
    ensures Probe(f, l, prev + 1).value <= prev <==> forall k | prev < k < |l| :: l[k].term != f[prev].term
  {
    var t := f[prev].term;
    TermOf(f, prev);
    TermOf(l, prev);
    ConflictProbe(f, l, prev);
    LastBelow(l, t, prev, LastOfTerm(l, t, 0, |l|));
  }

  lemma LastBelow(l: Log, t: Term, prev: Index, q: Option<Index>)
    requires Whole(l) && prev < |l| && l[prev].term != t
    requires q.Some? ==> q.value < |l| && TermAt(l, q.value) == Some(t)
    requires forall i | 0 <= i < |l| && (q.None? || q.value < i) :: TermAt(l, i) != Some(t)
    ensures q.None? || q.value < prev <==> forall k | prev < k < |l| :: l[k].term != t
  {
    forall k | 0 <= k < |l| ensures TermAt(l, k) == Some(l[k].term) { TermOf(l, k); }
  }

  lemma DiffersBeyond(f: Log, l: Log, m: Index, i: Index)
    requires Split(f, l, m) && m < i < |f| && i < |l|
    ensures f[i].term != l[i].term
  {
    if f[i].term == l[i].term { MeetsWithin(f, l, m, i, i); }
  }

  /** The request is accepted exactly when it probes the end of the common prefix; every rejection
      strictly lowers `next` without passing it. */
  lemma ProbeProgress(f: Log, l: Log, m: Index, next: Index)
    requires Split(f, l, m) && m < next <= |l|
    ensures Probe(f, l, next).None? <==> next == m + 1
    ensures Probe(f, l, next).Some? ==> m < Probe(f, l, next).value < next
  {
    var prev := Prev(next);
    TermOf(l, prev);
    if prev == m {
      TermOf(f, m);
    } else if prev < |f| {
      DiffersBeyond(f, l, m, prev);
      ConflictProgress(f, l, m, prev);
    } else {
      assert TermAt(f, prev) == None && LastIndex(f) == |f| - 1;
    }
  }

  /** How many rejections the exchange takes. */
  ghost function Rejections(f: Log, l: Log, m: Index, next: Index): nat
    requires Split(f, l, m) && m < next <= |l|
    decreases next
  {
    ProbeProgress(f, l, m, next);
    var p := Probe(f, l, next);
    if p.None? then 0 else 1 + Rejections(f, l, m, p.value)
  }

  ghost function Terms(s: Log, lo: Index, hi: Index): set<Term>
    requires hi <= |s|
  {
    set k | lo <= k < hi :: s[k].term
  }

  lemma RunEdge(f: Log, t: Term, i: Index)
    requires f[0] == SENTINEL && TermAt(f, i) == Some(t)
    ensures RunStart(f, t, i) <= i < |f|
    ensures RunStart(f, t, i) > 0 ==> f[RunStart(f, t, i) - 1].term != t
  {
    var r := RunStart(f, t, i);
    if r > 0 { TermOf(f, r - 1); }
  }

  /** Below the start of a term's run that term does not occur. */
  lemma BelowRun(f: Log, t: Term, i: Index, k: Index)
    requires Ascending(f) && f[0] == SENTINEL && TermAt(f, i) == Some(t) && k < RunStart(f, t, i)
    ensures k < |f| && f[k].term != t
  {
    var r := RunStart(f, t, i);
    RunEdge(f, t, i);
    TermOf(f, i);
    assert f[k].term <= f[r - 1].term <= f[i].term by {
      assert k == r - 1 || k < r - 1;
    }
  }

  /** A rejection with a conflict term removes that term from what is left to probe. */
  lemma FewerTerms(f: Log, l: Log, m: Index, prev: Index)
    requires Split(f, l, m) && m < prev < |f| && prev < |l| && f[prev].term != l[prev].term
    ensures Probe(f, l, prev + 1).Some? && Probe(f, l, prev + 1).value <= prev
    ensures |Terms(f, m + 1, Probe(f, l, prev + 1).value)| < |Terms(f, m + 1, prev + 1)|
  {
    ConflictProgress(f, l, m, prev);
    var r := Probe(f, l, prev + 1).value;
    var t := f[prev].term;
    var a, b := Terms(f, m + 1, r), Terms(f, m + 1, prev + 1);
    forall k | m + 1 <= k < r ensures f[k].term != t {
      if r == RunStart(f, t, prev) { BelowRun(f, t, prev, k); }
    }
    assert t in b && t !in a && a <= b;
    Election.SubsetSize(a, b - {t});
  }

  /** At most one rejection for a log that is too short, plus one for each distinct term the follower has
      beyond the common prefix. */
  lemma {:induction false} RoundBound(f: Log, l: Log, m: Index, next: Index)
    requires Split(f, l, m) && m < next <= |l|
    ensures next <= |f| ==> Rejections(f, l, m, next) <= |Terms(f, m + 1, next)|
    ensures next > |f| ==> Rejections(f, l, m, next) <= 1 + |Terms(f, m + 1, |f|)|
    decreases next
  {
    ProbeProgress(f, l, m, next);
    var p := Probe(f, l, next);
    if p.Some? {
      RoundBound(f, l, m, p.value);
      if next <= |f| {
        DiffersBeyond(f, l, m, next - 1);
        FewerTerms(f, l, m, next - 1);
      } else {
        MissingIndex(f, l, next);
      }
    }
  }

  lemma MissingIndex(f: Log, l: Log, next: Index)
    requires Whole(f) && |f| < next
    ensures Probe(f, l, next) == Some(|f|)
  {
    assert TermAt(f, Prev(next)) == None && LastIndex(f) == |f| - 1;
  }

  /** Any two logs of runs without compaction, whenever they occur, meet the conditions above. */
  lemma RunLogsCoherent(conf: Conf, fam: Family, run: seq<Step>, j: nat, k: nat, a: NodeId, b: NodeId)
    requires ValidConf(conf) && Rank(fam) >= 2 && j <= |run| && k <= |run|
    requires a in At(conf, fam, run, j).nodes && b in At(conf, fam, run, k).nodes
    ensures var f := At(conf, fam, run, j).nodes[a].log;
            var l := At(conf, fam, run, k).nodes[b].log;
            Whole(f) && Whole(l) && Coherent(f, l)
  {
    var logs := Past(conf, fam, run).h.logs;
    RunLogOk(conf, fam, run, j, a);
    RunLogOk(conf, fam, run, k, b);
    LogsCoherent(logs, At(conf, fam, run, j).nodes[a].log, At(conf, fam, run, k).nodes[b].log);
  }

  lemma RunLogOk(conf: Conf, fam: Family, run: seq<Step>, j: nat, a: NodeId)
    requires ValidConf(conf) && Rank(fam) >= 2 && j <= |run| && a in At(conf, fam, run, j).nodes
    ensures LogOk(Past(conf, fam, run).h.logs, At(conf, fam, run, j).nodes[a].log)
  {
    var w := Past(conf, fam, run[..j]);
    RunInv(conf, fam, run[..j]);
    assert NodeB(w.h, a, w.c.nodes[a], w.c.disks[a]) && DiskB(w.h, a, w.c.disks[a]);
    RunGrows(conf, fam, run, j, |run|);
    assert run[..|run|] == run;
    LogOkStays(w.h.logs, Past(conf, fam, run).h.logs, w.c.nodes[a].log);
  }

  lemma LogsCoherent(logs: map<Term, Log>, a: Log, b: Log)
    requires LogOk(logs, a) && LogOk(logs, b)
    ensures Whole(a) && Whole(b) && Coherent(a, b)
  {
    Consecutive(logs, a);
    Consecutive(logs, b);
    forall i, j | 0 <= i < |a| && 0 <= j < |b| && a[i].term == b[j].term
      ensures Agree(a, b, if i <= j then i else j)
    {
      if 0 < i { assert Rooted(logs, a, i); }
      if 0 < j { assert Rooted(logs, b, j); }
    }
  }

  /** Agreement at equal index and term alone would not do: these logs satisfy it and have ascending
      terms, yet the leader probes 2, 3, 2, 3, ... for ever. */
  lemma PairwiseMatchingIsNotEnough()
    ensures var f: Log := [SENTINEL, Entry(1, 2, [])];
            var l: Log := [SENTINEL, Entry(1, 1, []), Entry(2, 2, [])];
            && Whole(f) && Whole(l)
            && (forall k | 0 <= k < |f| && k < |l| && f[k].term == l[k].term :: Agree(f, l, k))
            && Probe(f, l, 2) == Some(3) && Probe(f, l, 3) == Some(2)
  {
    var f: Log := [SENTINEL, Entry(1, 2, [])];
    var l: Log := [SENTINEL, Entry(1, 1, []), Entry(2, 2, [])];
    assert TermAt(f, 1) == Some(2) && TermAt(l, 1) == Some(1) && TermAt(f, 2) == None;
    assert RunStart(f, 2, 1) == 1;
    assert LastOfTerm(l, 2, 0, 3) == Some(2);
  }
}
