/** When a server grants a vote, said in terms of its vote, its lease, its term and its log end alone, and
    what follows for a group of servers: some member's log is good enough for all of them. */
module Voting {
  import opened Types
  import opened LogSpec
  import opened Kernel
  import opened Cluster
  import opened Timers

  /** Where a log ends. */
  datatype End = End(index: Index, term: Term)

  function EndOf(s: Log): End {
    End(s[|s| - 1].index, s[|s| - 1].term)
  }

  /** The later last term wins, and the longer log between equal last terms. */
  predicate Reaches(a: End, b: End) {
    a.term > b.term || (a.term == b.term && a.index >= b.index)
  }

  /** The order is total: of any two ends at least one reaches the other, and both do only when equal. */
  lemma ReachesIsTotalOrder(a: End, b: End, c: End)
    ensures Reaches(a, b) || Reaches(b, a)
    ensures Reaches(a, b) && Reaches(b, a) ==> a == b
    ensures Reaches(a, b) && Reaches(b, c) ==> Reaches(a, c)
  {}

  /** The server has heard from a leader less than the minimal election timeout ago. */
  predicate Leased(n: Node) {
    n.leader.Some? && n.elapsed < n.base
  }

  // ---- votes -------------------------------------------------------------------------------

  /** Whether a vote request of this term or a later one is granted. A later term comes without a vote and
      without a leader. */
  predicate Grants(n: Node, m: Message)
    requires m.kind.RequestVote?
  {
    && (m.term > n.term || n.voted.None? || n.voted == Some(m.from))
    && (m.term > n.term || !Leased(n))
    && Reaches(End(m.kind.lastIndex, m.kind.lastTerm), EndOf(n.log))
  }

  /** The server once it is in the message's term. */
  function InTerm(n: Node, t: Term, rt: nat): Node {
    if t <= n.term then n
    else n.(term := t, voted := None, role := Follower, leader := None, elapsed := 0, timeout := rt)
  }

  lemma VoteIff(n: Node, m: Message, rt: nat)
    requires m.kind.RequestVote? && m.term >= n.term
    ensures var o := Receive(n, m, rt);
            var v := InTerm(n, m.term, rt);
            && |o.acts| >= 1
            && o.acts[|o.acts| - 1] == Send(Message(n.id, m.from, m.term, RequestVoteResponse(Grants(n, m))))
            && o.n == (if Grants(n, m) then v.(voted := Some(m.from), elapsed := 0) else v)
            && o.acts[..|o.acts| - 1] == (if m.term > n.term then [PersistHardState(m.term, None)] else [])
                                         + (if Grants(n, m) then [PersistHardState(m.term, Some(m.from))] else [])
  {
    var b := if Bumps(n, m) then BecomeFollower(n, m.term, None, rt) else Out(n, []);
    Polled(b.n, m, rt);
    assert b.n == InTerm(n, m.term, rt);
    assert Receive(n, m, rt).acts == b.acts + Dispatch(b.n, m, rt).acts;
  }

  lemma Polled(n: Node, m: Message, rt: nat)
    requires m.kind.RequestVote? && m.term == n.term
    ensures var grant := Grants(n, m);
            var reply := Send(Message(n.id, m.from, m.term, RequestVoteResponse(grant)));
            Dispatch(n, m, rt) == if grant then Out(n.(voted := Some(m.from), elapsed := 0),
                                                    [PersistHardState(m.term, Some(m.from)), reply])
                                  else Out(n, [reply])
  {}

  // ---- pre-votes ---------------------------------------------------------------------------

  predicate PreGrants(n: Node, m: Message)
    requires m.kind.PreVote?
  {
    && m.term >= n.term && !Leased(n)
    && Reaches(End(m.kind.lastIndex, m.kind.lastTerm), EndOf(n.log))
  }

  /** A pre-vote is answered at once, in the voter's own term, and changes nothing. */
  lemma PreVoteIff(n: Node, m: Message, rt: nat)
    requires m.kind.PreVote?
    ensures Receive(n, m, rt) == Out(n, [Send(Message(n.id, m.from, n.term, PreVoteResponse(PreGrants(n, m))))])
  {}

  // ---- groups of servers -------------------------------------------------------------------

  /** `n` asks `v` for a vote, or for a pre-vote, in term t. */
  function VoteRequest(n: Node, v: Node, t: Term): Message {
    Message(n.id, v.id, t, RequestVote(EndOf(n.log).index, EndOf(n.log).term))
  }

  function PreVoteRequest(n: Node, v: Node, t: Term): Message {
    Message(n.id, v.id, t, PreVote(EndOf(n.log).index, EndOf(n.log).term))
  }

  /** The answer grants. */
  predicate Yes(o: Out) {
    && o.acts != [] && o.acts[|o.acts| - 1].Send?
    && (var k := o.acts[|o.acts| - 1].msg.kind; (k.RequestVoteResponse? || k.PreVoteResponse?) && k.granted)
  }

  lemma YesIff(v: Node, m: Message, rt: nat)
    requires m.kind.RequestVote? && m.term >= v.term
    ensures Yes(Receive(v, m, rt)) <==> Grants(v, m)
  {
    VoteIff(v, m, rt);
  }

  /** A server without a vote and a lease in the term grants by the log ends alone. */
  lemma FreeGrants(v: Node, n: Node, t: Term)
    requires v.term <= t && (v.term == t ==> v.voted.None? && !Leased(v))
    ensures Grants(v, VoteRequest(n, v, t)) <==> Reaches(EndOf(n.log), EndOf(v.log))
  {}

  /** Of any two servers without a vote and a lease in a term, at least one votes for the other, and the one
      whose log ends in the later term always gets the vote, however short its log. */
  lemma OneVotesForTheOther(a: Node, b: Node, t: Term, rt: nat)
    requires a.term <= t && b.term <= t
    requires (a.term == t ==> a.voted.None? && !Leased(a)) && (b.term == t ==> b.voted.None? && !Leased(b))
    ensures Yes(Receive(a, VoteRequest(b, a, t), rt)) || Yes(Receive(b, VoteRequest(a, b, t), rt))
    ensures EndOf(a.log).term > EndOf(b.log).term ==> Yes(Receive(b, VoteRequest(a, b, t), rt))
  {
    FreeGrants(a, b, t);
    FreeGrants(b, a, t);
    YesIff(a, VoteRequest(b, a, t), rt);
    YesIff(b, VoteRequest(a, b, t), rt);
  }

  /** In any group of servers some log end reaches all the others. */
  lemma {:induction false} Foremost(group: seq<Node>) returns (c: nat)
    requires group != []
    ensures c < |group| && forall v | v in group :: Reaches(EndOf(group[c].log), EndOf(v.log))
  {
    if |group| == 1 {
      c := 0;
    } else {
      var d := Foremost(group[1..]);
      assert group == [group[0]] + group[1..];
      c := if Reaches(EndOf(group[0].log), EndOf(group[d + 1].log)) then 0 else d + 1;
      assert group[1..][d] == group[d + 1];
    }
  }

  /** Every group of servers has a member that all of them vote for in any later term, and pre-vote for as
      soon as their leases have run out. */
  lemma SomeMemberIsElectable(group: seq<Node>, t: Term, rt: nat) returns (c: nat)
    requires group != [] && forall v | v in group :: v.term < t
    ensures c < |group|
    ensures forall v | v in group ::
              && Yes(Receive(v, VoteRequest(group[c], v, t), rt))
              && (Yes(Receive(v, PreVoteRequest(group[c], v, t), rt)) <==> !Leased(v))
  {
    c := Foremost(group);
    forall v | v in group
      ensures && Yes(Receive(v, VoteRequest(group[c], v, t), rt))
              && (Yes(Receive(v, PreVoteRequest(group[c], v, t), rt)) <==> !Leased(v))
    {
      VoteIff(v, VoteRequest(group[c], v, t), rt);
      PreVoteIff(v, PreVoteRequest(group[c], v, t), rt);
    }
  }

  // ---- the lease ---------------------------------------------------------------------------

  /** Hearing from a leader starts a lease. */
  lemma HeardStartsLease(n: Node, m: Message, rt: nat)
    requires m.kind.AppendEntries? || m.kind.InstallSnapshot?
    requires m.term >= n.term
    ensures var v := Receive(n, m, rt).n;
            && v.leader == Some(m.from) && v.elapsed == 0 && v.timeout == rt && v.base == n.base
            && v.role == Follower && v.term == m.term
  {
    var b := if Bumps(n, m) then BecomeFollower(n, m.term, None, rt) else Out(n, []);
    if m.kind.AppendEntries? { HeardAppend(b.n, m, rt); } else { HeardSnapshot(b.n, m, rt); }
  }

  lemma HeardAppend(n: Node, m: Message, rt: nat)
    requires m.kind.AppendEntries? && m.term == n.term
    ensures var v := Dispatch(n, m, rt).n;
            && v.leader == Some(m.from) && v.elapsed == 0 && v.timeout == rt && v.base == n.base
            && v.role == Follower && v.term == m.term
  {
    var f := BecomeFollower(n, m.term, Some(m.from), rt).n;
    var a := Merge(f, m.kind.entries).n;
    assert a == f.(log := a.log);
    var b := FollowLeaderCommit(a, m.kind.leaderCommit).n;
    assert b == a.(commit := b.commit, applied := b.applied);
  }

  lemma HeardSnapshot(n: Node, m: Message, rt: nat)
    requires m.kind.InstallSnapshot? && m.term == n.term
    ensures var v := Dispatch(n, m, rt).n;
            && v.leader == Some(m.from) && v.elapsed == 0 && v.timeout == rt && v.base == n.base
            && v.role == Follower && v.term == m.term
  {}

  lemma {:induction false} LeaseOutlasts(n: Node, rts: seq<nat>)
    requires n.role != Leader && n.leader.Some? && n.base <= n.timeout && n.elapsed + |rts| < n.base
    ensures Leased(Ticked(n, rts))
    decreases |rts|
  {
    if rts != [] { LeaseOutlasts(Tick(n, rts[0]).n, rts[1..]); }
  }

  /** A server that has just heard from a leader refuses every pre-vote for fewer ticks than the minimal
      election timeout, whoever asks, in whatever term. */
  lemma LeaderIsSticky(n: Node, m: Message, rt: nat, rts: seq<nat>, p: Message)
    requires (m.kind.AppendEntries? || m.kind.InstallSnapshot?) && m.term >= n.term
    requires n.base <= rt && |rts| < n.base && p.kind.PreVote?
    ensures !Yes(Receive(Ticked(Receive(n, m, rt).n, rts), p, rt))
  {
    HeardStartsLease(n, m, rt);
    LeaseOutlasts(Receive(n, m, rt).n, rts);
    PreVoteIff(Ticked(Receive(n, m, rt).n, rts), p, rt);
  }
}
