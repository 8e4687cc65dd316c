/** The leader's commit rule as an order statistic of what its peers acknowledged. */
module Commit {
  import opened Types
  import opened LogSpec
  import opened Kernel
  import Protocol

  function CountFrom(vs: seq<Index>, k: Index): nat {
    if vs == [] then 0 else (if vs[0] >= k then 1 else 0) + CountFrom(vs[1..], k)
  }

  function Acked(matched: map<NodeId, Index>, peers: seq<NodeId>): (vs: seq<Index>)
    ensures |vs| == |peers|
  {
    if peers == [] then [] else [MatchAt(matched, peers[0])] + Acked(matched, peers[1..])
  }

  /** One value per server: the leader's own last index and what each peer acknowledged. */
  function Standing(n: Node): (vs: seq<Index>)
    ensures |vs| == |n.peers| + 1
  {
    [LastIndex(n.log)] + Acked(n.matched, n.peers)
  }

  ghost predicate Ranking(s: seq<Index>, vs: seq<Index>) {
    && multiset(s) == multiset(vs)
    && Falling(s)
  }

  lemma {:induction false} CountConcat(a: seq<Index>, b: seq<Index>, k: Index)
    ensures CountFrom(a + b, k) == CountFrom(a, k) + CountFrom(b, k)
  {
    if a == [] {
      assert a + b == b;
    } else {
      assert (a + b)[1..] == a[1..] + b;
      CountConcat(a[1..], b, k);
    }
  }

  /** Counting does not depend on the order. */
  lemma {:induction false} CountPermuted(s: seq<Index>, t: seq<Index>, k: Index)
    requires multiset(s) == multiset(t)
    ensures CountFrom(s, k) == CountFrom(t, k)
    decreases |s|
  {
    if s == [] {
      assert |multiset(t)| == 0;
    } else {
      assert s[0] in multiset(t);
      var i :| 0 <= i < |t| && t[i] == s[0];
      MovedFront(t, i, k);
      var rest := t[..i] + t[i + 1..];
      assert s == [s[0]] + s[1..];
      assert multiset(s[1..]) == multiset(s) - multiset{s[0]};
      CountPermuted(s[1..], rest, k);
    }
  }

  lemma MovedFront(t: seq<Index>, i: nat, k: Index)
    requires i < |t|
    ensures var rest := t[..i] + t[i + 1..];
            && multiset(rest) == multiset(t) - multiset{t[i]}
            && CountFrom(t, k) == CountFrom([t[i]], k) + CountFrom(rest, k)
  {
    assert t == t[..i] + ([t[i]] + t[i + 1..]);
    CountConcat(t[..i], [t[i]] + t[i + 1..], k);
    CountConcat([t[i]], t[i + 1..], k);
    CountConcat(t[..i], t[i + 1..], k);
  }

  lemma {:induction false} CountAll(s: seq<Index>, k: Index)
    ensures CountFrom(s, k) <= |s|
    ensures (forall a | 0 <= a < |s| :: s[a] >= k) ==> CountFrom(s, k) == |s|
    ensures (forall a | 0 <= a < |s| :: s[a] < k) ==> CountFrom(s, k) == 0
  {
    if s != [] { CountAll(s[1..], k); }
  }

  ghost predicate Falling(s: seq<Index>) {
    forall a, b | 0 <= a < b < |s| :: s[a] >= s[b]
  }

  /** At least m values reach k exactly when the m-th largest does. */
  lemma {:induction false} RankDecides(s: seq<Index>, m: nat, k: Index)
    requires 1 <= m <= |s| && Falling(s)
    ensures CountFrom(s, k) >= m <==> s[m - 1] >= k
  {
    if s[0] < k {
      CountAll(s, k);
    } else if m > 1 {
      RankDecides(s[1..], m - 1, k);
    }
  }

  lemma {:induction false} SupportCounts(matched: map<NodeId, Index>, peers: seq<NodeId>, k: Index)
    ensures PeerSupport(matched, peers, k) == CountFrom(Acked(matched, peers), k)
  {
    if peers != [] {
      SupportCounts(matched, peers[1..], k);
      assert Acked(matched, peers)[1..] == Acked(matched, peers[1..]);
    }
  }

  /** A strict majority of the servers: more than half of the peers and the node itself. */
  lemma MajorityIsHalf(n: Node)
    ensures forall k: nat :: k >= Majority(n) <==> 2 * k > |n.peers| + 1
  {}

  lemma SupportIsRank(n: Node, s: seq<Index>, k: Index)
    requires Ranking(s, Standing(n)) && |s| == |n.peers| + 1 && k <= LastIndex(n.log)
    ensures 1 + PeerSupport(n.matched, n.peers, k) >= Majority(n) <==> k <= s[|s| / 2]
  {
    SupportCounts(n.matched, n.peers, k);
    CountPermuted(s, Standing(n), k);
    RankDecides(s, |s| / 2 + 1, k);
    assert Standing(n)[1..] == Acked(n.matched, n.peers);
    MajorityIsHalf(n);
  }

  /** `c` is the largest current-term index above `was` and at most r, or `was` when there is none. */
  predicate LargestOfTerm(n: Node, was: Index, r: Index, c: Index) {
    && (c != was ==> was < c <= LastIndex(n.log) && c <= r && TermAt(n.log, c) == Some(n.term))
    && (forall k | was < k <= LastIndex(n.log) && k <= r && TermAt(n.log, k) == Some(n.term) :: k <= c)
  }

  /** The new commit index is the largest current-term index above the old one that is at most the median
      standing, the one that more than half of the servers reach; without one the commit index stays. */
  lemma CommitIsMajorityRank(n: Node, s: seq<Index>)
    requires Ranking(s, Standing(n))
    ensures |s| == |n.peers| + 1 && LargestOfTerm(n, n.commit, s[|s| / 2], NewCommit(n))
  {
    assert |multiset(s)| == |multiset(Standing(n))|;
    var r, c := s[|s| / 2], NewCommit(n);
    if c != n.commit {
      assert Committable(n, c);
      SupportIsRank(n, s, c);
    }
    forall k | n.commit < k <= LastIndex(n.log) && k <= r && TermAt(n.log, k) == Some(n.term) ensures k <= c {
      SupportIsRank(n, s, k);
      assert Committable(n, k);
    }
  }

  /** r is the leader n with `from` known to hold index k, and with what that commits. */
  predicate Counted(n: Node, from: NodeId, k: Index, s: seq<Index>, r: Node) {
    && r == n.(next := n.next[from := k + 1], matched := n.matched[from := k], commit := r.commit, applied := r.applied)
    && |s| == |n.peers| + 1 && LargestOfTerm(n, n.commit, s[|s| / 2], r.commit)
  }

  /** What a leader does with an acknowledgement of its term: the reply to an AppendEntries stands for the
      leader's whole present log, the reply to a snapshot for its base; `s` ranks the standings after it. */
  lemma AckCommits(n: Node, m: Message, rt: nat, s: seq<Index>)
    requires n.role == Leader && m.term == n.term
    requires (m.kind.AppendEntriesResponse? && m.kind.success) || m.kind.InstallSnapshotResponse?
    requires Ranking(s, Standing(Receive(n, m, rt).n))
    ensures Counted(n, m.from, if m.kind.AppendEntriesResponse? then n.log[|n.log| - 1].index else n.log[0].index, s,
                    Receive(n, m, rt).n)
  {
    var k := if m.kind.AppendEntriesResponse? then LastIndex(n.log) else FirstIndex(n.log);
    AckReceived(n, m, rt, k);
    AckRanked(n, m.from, k, s);
  }

  lemma AckRanked(n: Node, from: NodeId, k: Index, s: seq<Index>)
    requires Ranking(s, Standing(MaybeAdvance(WithAck(n, from, k)).n))
    ensures Counted(n, from, k, s, MaybeAdvance(WithAck(n, from, k)).n)
  {
    var w := WithAck(n, from, k);
    Advanced(w);
    assert Standing(MaybeAdvance(w).n) == Standing(w);
    CommitIsMajorityRank(w, s);
  }

  lemma AckReceived(n: Node, m: Message, rt: nat, k: Index)
    requires n.role == Leader && m.term == n.term
    requires || (m.kind.AppendEntriesResponse? && m.kind.success && k == LastIndex(n.log))
             || (m.kind.InstallSnapshotResponse? && k == FirstIndex(n.log))
    ensures Receive(n, m, rt) == MaybeAdvance(WithAck(n, m.from, k))
  {
    AckRouted(n, m, rt);
    Protocol.ReceiveShape(n, m, rt);
  }

  lemma AckRouted(n: Node, m: Message, rt: nat)
    requires m.kind.AppendEntriesResponse? || m.kind.InstallSnapshotResponse?
    ensures Dispatch(n, m, rt) == if m.kind.AppendEntriesResponse? then HandleAppendEntriesResponse(n, m)
                                  else HandleInstallSnapshotResponse(n, m)
  {}

  lemma Advanced(n: Node)
    ensures var r := MaybeAdvance(n).n;
            r == n.(commit := r.commit, applied := r.applied) && r.commit == NewCommit(n)
  {
    assert NewCommit(n) >= n.commit;
  }
}
