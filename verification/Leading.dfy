/** What a leader does with commands and with replies, and what a change of term does to any server, told by
    the node's fields and the messages sent. */
module Leading {
  import opened Types
  import opened LogSpec
  import opened Kernel
  import opened Cluster
  import opened Timers
  import opened Following
  import Commit
  import Protocol

  // ---- terms -------------------------------------------------------------------------------

  /** The kinds of message that take part in terms: all but pre-votes and clients' messages. */
  predicate Termed(m: Message) {
    match m.kind
    case PreVote(_, _) => false
    case PreVoteResponse(_) => false
    case ClientRequest(_) => false
    case ClientResponse(_, _) => false
    case _ => true
  }

  /** A message of an earlier term changes nothing and is not answered. */
  lemma EarlierTermIgnored(n: Node, m: Message, rt: nat)
    requires Termed(m) && m.term < n.term
    ensures Receive(n, m, rt) == Out(n, [])
  {}

  /** A reply of a later term ends whatever the server was doing: it follows nobody in that term, has not
      voted in it, waits for a whole timeout, and that term is on disk before it does anything else. */
  lemma LaterTermStepsDown(n: Node, m: Message, rt: nat)
    requires m.kind.RequestVoteResponse? || m.kind.AppendEntriesResponse? || m.kind.InstallSnapshotResponse?
    requires m.term > n.term
    ensures Receive(n, m, rt) == Out(n.(term := m.term, voted := None, role := Follower, leader := None, elapsed := 0,
                                        timeout := rt),
                                     [PersistHardState(m.term, None)])
  {
    var b := BecomeFollower(n, m.term, None, rt);
    assert Dispatch(b.n, m, rt) == Out(b.n, []);
    assert b.acts + [] == b.acts;
  }

  /** A reply to a leader that no longer leads is ignored. */
  lemma StrayReplyIgnored(n: Node, m: Message, rt: nat)
    requires m.kind.AppendEntriesResponse? || m.kind.InstallSnapshotResponse?
    requires m.term == n.term && n.role != Leader
    ensures Receive(n, m, rt) == Out(n, [])
  {}

  // ---- rejections --------------------------------------------------------------------------

  /** The index p to probe after a rejection: right behind the last entry of the conflicting term, if the
      leader has one; else the index the follower named; else one lower than before; and never 0. */
  predicate Probes(n: Node, m: Message, p: Index)
    requires m.kind.AppendEntriesResponse?
  {
    var s, named := n.log, m.kind.conflictIndex.UnwrapOr(1);
    var before := if m.from in n.next then n.next[m.from] else 1;
    match m.kind.conflictTerm
    case Some(t) =>
      if exists i | s[0].index <= i <= LastIndex(s) :: Has(s, i, t)
      then p >= 1 && Has(s, p - 1, t) && forall i | p <= i <= LastIndex(s) :: !Has(s, i, t)
      else p == if named == 0 then 1 else named
    case None =>
      if m.kind.conflictIndex.Some? then p == if named == 0 then 1 else named
      else p == if before <= 2 then 1 else before - 1
  }

  lemma RejectionProbes(n: Node, m: Message, rt: nat)
    requires m.kind.AppendEntriesResponse? && !m.kind.success && n.role == Leader && m.term == n.term
    ensures var o := Receive(n, m, rt);
            && m.from in o.n.next && o.n == n.(next := n.next[m.from := o.n.next[m.from]])
            && Probes(n, m, o.n.next[m.from])
            && |o.acts| == 1 && o.acts[0].Send?
            && (var a := o.acts[0].msg;
                a == Message(n.id, m.from, n.term, a.kind) && Carries(o.n, m.from, a.kind))
  {
    var p := Backtrack(n.log, NextFor(n, m.from), m.kind.conflictTerm, m.kind.conflictIndex);
    var l := n.(next := n.next[m.from := p]);
    assert Dispatch(n, m, rt) == Out(l, [Replicate(l, m.from)]);
    Protocol.ReceiveShape(n, m, rt);
    ReplicateCarries(l, m.from);
    BacktrackProbes(n, m);
  }

  lemma BacktrackProbes(n: Node, m: Message)
    requires m.kind.AppendEntriesResponse?
    ensures Probes(n, m, Backtrack(n.log, NextFor(n, m.from), m.kind.conflictTerm, m.kind.conflictIndex))
  {
    if m.kind.conflictTerm.Some? {
      var s, t := n.log, m.kind.conflictTerm.value;
      forall i ensures Has(s, i, t) <==> TermAt(s, i) == Some(t) { FitsIff(s, i, t); }
    }
  }

  // ---- commands ----------------------------------------------------------------------------

  /** The command is at the end of the leader's log, in its term; nothing else changed, save that a leader
      without peers commits it. */
  predicate Accepts(n: Node, command: Bytes, v: Node) {
    var last := n.log[|n.log| - 1].index + 1;
    && v == n.(log := n.log + [Entry(last, n.term, command)], commit := v.commit, applied := v.applied)
    && (n.peers != [] ==> v.commit == n.commit && v.applied == n.applied)
    && (n.peers == [] && Contiguous(n.log) ==> v.commit == if n.commit < last then last else n.commit)
  }

  /** The entry goes to disk first, and then to every peer along with what that peer still lacks. */
  predicate Spreads(n: Node, command: Bytes, v: Node, acts: seq<Action>) {
    && |acts| >= 1 + |n.peers|
    && acts[0] == AppendLog([Entry(n.log[|n.log| - 1].index + 1, n.term, command)])
    && ReachesAll(v, acts[1..1 + |n.peers|])
  }

  lemma ProposalShape(n: Node, command: Bytes)
    requires n.role == Leader
    ensures var a := AppendCommand(n, command);
            var c := MaybeAdvance(a.n);
            Propose(n, command) == if n.peers == [] then Out(c.n, a.acts + c.acts) else a
  {}

  lemma AppendSpreads(n: Node, command: Bytes)
    ensures var a := AppendCommand(n, command);
            Spreads(n, command, a.n, a.acts) && |a.acts| == 1 + |n.peers|
  {
    var a := AppendCommand(n, command);
    BroadcastReaches(a.n);
    assert a.acts[1..1 + |n.peers|] == Broadcast(a.n);
  }

  lemma AloneAccepts(n: Node, command: Bytes)
    requires n.role == Leader && n.peers == []
    ensures var o := Propose(n, command);
            Accepts(n, command, o.n) && Spreads(n, command, o.n, o.acts)
  {
    var a := AppendCommand(n, command);
    ProposalShape(n, command);
    Commit.Advanced(a.n);
    if Contiguous(n.log) { AloneCommits(a.n); }
    assert Propose(n, command).acts[1..1] == [];
  }

  lemma ProposalSpreads(n: Node, command: Bytes)
    requires n.role == Leader
    ensures var o := Propose(n, command);
            Accepts(n, command, o.n) && Spreads(n, command, o.n, o.acts)
  {
    if n.peers == [] {
      AloneAccepts(n, command);
    } else {
      ProposalShape(n, command);
      AppendSpreads(n, command);
    }
  }

  /** A leader without peers commits its whole log when that ends in its term. */
  lemma AloneCommits(n: Node)
    requires n.peers == [] && Contiguous(n.log) && LastTerm(n.log) == n.term
    ensures NewCommit(n) == if n.commit < LastIndex(n.log) then LastIndex(n.log) else n.commit
  {
    assert LastIndex(n.log) > 0 ==> Committable(n, LastIndex(n.log));
  }

  lemma CommandProposed(n: Node, command: Bytes, rt: nat)
    ensures var o := Handle(n, Submit(command), rt);
            if n.role == Leader then Accepts(n, command, o.n) && Spreads(n, command, o.n, o.acts) else o == Out(n, [])
  {
    if n.role == Leader { ProposalSpreads(n, command); }
  }

  /** A leader takes a client's command in any term and answers at once; every other server refuses it and
      names the leader it knows. */
  lemma ClientServed(n: Node, m: Message, rt: nat)
    requires m.kind.ClientRequest?
    ensures var o := Receive(n, m, rt);
            var answer := ClientResponse(n.role == Leader, if n.role == Leader then Some(n.id) else n.leader);
            && o.acts != [] && o.acts[|o.acts| - 1] == Send(Message(n.id, m.from, n.term, answer))
            && (if n.role == Leader then Accepts(n, m.kind.command, o.n) && Spreads(n, m.kind.command, o.n, o.acts)
                else o.n == n && |o.acts| == 1)
  {
    Protocol.ReceiveShape(n, m, rt);
    if n.role == Leader {
      var p := Propose(n, m.kind.command);
      ProposalSpreads(n, m.kind.command);
      assert Receive(n, m, rt) == Out(p.n, p.acts + [Reply(p.n, m.from, ClientResponse(true, Some(n.id)))]);
      SpreadsFurther(n, m.kind.command, p.n, p.acts, Reply(p.n, m.from, ClientResponse(true, Some(n.id))));
    }
  }

  lemma SpreadsFurther(n: Node, command: Bytes, v: Node, acts: seq<Action>, a: Action)
    requires Spreads(n, command, v, acts)
    ensures Spreads(n, command, v, acts + [a])
  {
    assert (acts + [a])[1..1 + |n.peers|] == acts[1..1 + |n.peers|];
  }
}
