/** The node object. Every handler changes the fields step by step, and its contract says that the
    node's value and the emitted actions are those of the function of the same name in `Kernel`.
    `rt` is the timeout the random generator draws. */
module NodeObject {
  import opened Types
  import opened LogSpec
  import opened Kernel
  import opened LogObject

  lemma {:induction false} SupportOfPrefix(matched: map<NodeId, Index>, peers: seq<NodeId>, j: nat, k: Index)
    requires j < |peers|
    ensures PeerSupport(matched, peers[..j + 1], k)
         == PeerSupport(matched, peers[..j], k) + if MatchAt(matched, peers[j]) >= k then 1 else 0
  {
    if j > 0 {
      SupportOfPrefix(matched, peers[1..], j - 1, k);
      assert peers[..j + 1][1..] == peers[1..][..j] && peers[..j][1..] == peers[1..][..j - 1];
    }
  }

  class RaftNode {
    const id: NodeId
    const peers: seq<NodeId>
    const base: nat
    const heartbeat: nat
    const log: RaftLog
    var term: Term
    var voted: Option<NodeId>
    var commit: Index
    var applied: Index
    var role: Role
    var next: map<NodeId, Index>
    var matched: map<NodeId, Index>
    var timeout: nat
    var elapsed: nat
    var heartbeatElapsed: nat
    var votes: set<NodeId>
    var preVotes: set<NodeId>
    var leader: Option<NodeId>

    function View(): Node
      reads this, log
    {
      Node(id, peers, term, voted, log.entries, commit, applied, role, next, matched,
           base, timeout, elapsed, heartbeat, heartbeatElapsed, votes, preVotes, leader)
    }

    /** `RaftNode::new` and `RaftNode::restore` in one: a new node is one restored from nothing. */
    constructor (id: NodeId, peers: seq<NodeId>, base: nat, heartbeat: nat, rt: nat,
                 term: Term, voted: Option<NodeId>, log: RaftLog, commit: Index, applied: Index)
      requires heartbeat < base
      ensures this.log == log
      ensures View() == Fresh(id, peers, base, heartbeat, rt, term, voted, log.entries, commit, applied)
    {
      this.id, this.peers, this.base, this.heartbeat, this.log := id, peers, base, heartbeat, log;
      this.term, this.voted, this.commit, this.applied := term, voted, commit, applied;
      role, next, matched := Follower, map[], map[];
      timeout, elapsed, heartbeatElapsed := rt, 0, 0;
      votes, preVotes, leader := {}, {}, None;
    }

    method Tick(rt: nat) returns (acts: seq<Action>)
      modifies this, log
      ensures View() == Kernel.Tick(old(View()), rt).n && acts == Kernel.Tick(old(View()), rt).acts
    {
      acts := [];
      if role == Leader {
        heartbeatElapsed := heartbeatElapsed + 1;
        if heartbeatElapsed >= heartbeat {
          heartbeatElapsed := 0;
          acts := BroadcastToPeers();
        }
      } else {
        elapsed := elapsed + 1;
        if elapsed >= timeout {
          elapsed := 0;
          acts := StartPreVote(rt);
        }
      }
    }

    /** `ok` is false where the original panics; the node is then lost. */
    method Step(m: Message, rt: nat) returns (ok: bool, acts: seq<Action>)
      modifies this, log
      ensures ok <==> !Aborts(old(View()), m)
      ensures ok ==> View() == Receive(old(View()), m, rt).n && acts == Receive(old(View()), m, rt).acts
    {
      ok, acts := true, [];
      if m.term > term && !m.kind.PreVoteMsg() && !m.kind.ClientMsg() {
        acts := BecomeFollower(m.term, None, rt);
      }
      if m.term < term && !m.kind.PreVoteMsg() && !m.kind.ClientMsg() {
        return;
      }
      var more;
      ok, more := Handle(m, rt);
      acts := acts + more;
    }

    method Handle(m: Message, rt: nat) returns (ok: bool, acts: seq<Action>)
      modifies this, log
      ensures ok <==> !Aborts(old(View()), m)
      ensures ok ==> View() == Dispatch(old(View()), m, rt).n && acts == Dispatch(old(View()), m, rt).acts
    {
      ok, acts := true, [];
      match m.kind
      case ClientRequest(command) =>
        if role == Leader {
          acts := Propose(command);
          acts := acts + [Send(Message(id, m.from, term, ClientResponse(true, Some(id))))];
        } else {
          acts := [Send(Message(id, m.from, term, ClientResponse(false, leader)))];
        }
      case ClientResponse(_, _) =>
      case PreVote(lastIndex, lastTerm) =>
        acts := HandlePreVote(m.from, m.term, lastIndex, lastTerm);
      case PreVoteResponse(granted) =>
        acts := HandlePreVoteResponse(m.from, m.term, granted, rt);
      case RequestVote(lastIndex, lastTerm) =>
        acts := HandleRequestVote(m.from, lastIndex, lastTerm);
      case RequestVoteResponse(granted) =>
        acts := HandleRequestVoteResponse(m.from, m.term, granted);
      case AppendEntries(_, _, _, _) =>
        ok, acts := HandleAppendEntries(m, rt);
      case AppendEntriesResponse(_, _, _) =>
        acts := HandleAppendEntriesResponse(m);
      case InstallSnapshot(_, _, _) =>
        acts := HandleInstallSnapshot(m, rt);
      case InstallSnapshotResponse =>
        acts := HandleInstallSnapshotResponse(m);
    }

    method Propose(command: Bytes) returns (acts: seq<Action>)
      modifies this, log
      ensures View() == Kernel.Propose(old(View()), command).n && acts == Kernel.Propose(old(View()), command).acts
    {
      acts := [];
      if role != Leader { return; }
      var entry := Entry(LastIndex(log.entries) + 1, term, command);
      acts := [AppendLog([entry])];
      log.Append([entry]);
      var sends := BroadcastToPeers();
      acts := acts + sends;
      if peers == [] {
        var more := MaybeAdvanceCommit();
        acts := acts + more;
      }
    }

    method CompactLogs(index: Index, t: Term) returns (acts: seq<Action>)
      modifies this, log
      ensures View() == Kernel.CompactLogs(old(View()), index, t).n
      ensures acts == Kernel.CompactLogs(old(View()), index, t).acts
    {
      if index > commit { return []; }
      log.Compact(index, t);
      acts := [PersistSnapshot(index, t)];
    }

    method BecomeFollower(t: Term, l: Option<NodeId>, rt: nat) returns (acts: seq<Action>)
      modifies this
      ensures View() == Kernel.BecomeFollower(old(View()), t, l, rt).n
      ensures acts == Kernel.BecomeFollower(old(View()), t, l, rt).acts
    {
      var changed := t > term;
      term, role, leader, elapsed, timeout := t, Follower, l, 0, rt;
      acts := [];
      if changed {
        voted := None;
        acts := [PersistHardState(term, None)];
      }
    }

    method StartPreVote(rt: nat) returns (acts: seq<Action>)
      modifies this, log
      ensures View() == Kernel.StartPreVote(old(View()), rt).n && acts == Kernel.StartPreVote(old(View()), rt).acts
    {
      role, preVotes, elapsed, timeout := PreCandidate, {id}, 0, rt;
      acts := SendToPeers(term + 1, PreVote(LastIndex(log.entries), LastTerm(log.entries)));
      if peers == [] {
        var more := StartRealElection(rt);
        acts := acts + more;
      }
    }

    method StartRealElection(rt: nat) returns (acts: seq<Action>)
      modifies this, log
      ensures View() == Kernel.StartRealElection(old(View()), rt).n
      ensures acts == Kernel.StartRealElection(old(View()), rt).acts
    {
      term, role, voted, votes, elapsed, timeout := term + 1, Candidate, Some(id), {id}, 0, rt;
      acts := [PersistHardState(term, Some(id))];
      var sends := SendToPeers(term, RequestVote(LastIndex(log.entries), LastTerm(log.entries)));
      acts := acts + sends;
      if peers == [] {
        var more := BecomeLeader();
        acts := acts + more;
      }
    }

    method BecomeLeader() returns (acts: seq<Action>)
      modifies this, log
      ensures View() == Kernel.BecomeLeader(old(View())).n && acts == Kernel.BecomeLeader(old(View())).acts
    {
      role, leader, heartbeatElapsed := Leader, Some(id), 0;
      ResetProgress(LastIndex(log.entries) + 1);
      var noop := Entry(LastIndex(log.entries) + 1, term, []);
      acts := [AppendLog([noop])];
      log.Append([noop]);
      var sends := BroadcastToPeers();
      acts := acts + sends;
    }

    method ResetProgress(start: Index)
      modifies this`next, this`matched
      ensures next == ForEach(peers, start) && matched == ForEach(peers, 0)
    {
      next, matched := map[], map[];
      for k := 0 to |peers|
        invariant next.Keys == matched.Keys == set p | p in peers[..k]
        invariant forall p | p in next :: next[p] == start && matched[p] == 0
      {
        next, matched := next[peers[k] := start], matched[peers[k] := 0];
      }
      assert peers[..|peers|] == peers;
    }

    method HandlePreVote(from: NodeId, proposed: Term, lastIndex: Index, lastTerm: Term) returns (acts: seq<Action>)
      ensures View() == Kernel.HandlePreVote(View(), from, proposed, lastIndex, lastTerm).n
      ensures acts == Kernel.HandlePreVote(View(), from, proposed, lastIndex, lastTerm).acts
    {
      var logOk := UpToDate(log.entries, lastIndex, lastTerm);
      var lease := leader.Some? && elapsed < base;
      var grant := proposed >= term && logOk && !lease;
      acts := [Send(Message(id, from, term, PreVoteResponse(grant)))];
    }

    method HandlePreVoteResponse(from: NodeId, t: Term, granted: bool, rt: nat) returns (acts: seq<Action>)
      modifies this, log
      ensures View() == Kernel.HandlePreVoteResponse(old(View()), from, t, granted, rt).n
      ensures acts == Kernel.HandlePreVoteResponse(old(View()), from, t, granted, rt).acts
    {
      acts := [];
      if role != PreCandidate || t != term { return; }
      if granted {
        preVotes := preVotes + {from};
        var majority := (|peers| + 1) / 2 + 1;
        if |preVotes| >= majority {
          acts := StartRealElection(rt);
        }
      }
    }

    method HandleRequestVote(from: NodeId, lastIndex: Index, lastTerm: Term) returns (acts: seq<Action>)
      modifies this
      ensures View() == Kernel.HandleRequestVote(old(View()), from, lastIndex, lastTerm).n
      ensures acts == Kernel.HandleRequestVote(old(View()), from, lastIndex, lastTerm).acts
    {
      var lease := leader.Some? && elapsed < base;
      var canVote := voted.None? || voted == Some(from);
      var grant := canVote && UpToDate(log.entries, lastIndex, lastTerm) && !lease;
      acts := [];
      if grant {
        voted, elapsed := Some(from), 0;
        acts := [PersistHardState(term, Some(from))];
      }
      acts := acts + [Send(Message(id, from, term, RequestVoteResponse(grant)))];
    }

    method HandleRequestVoteResponse(from: NodeId, t: Term, granted: bool) returns (acts: seq<Action>)
      modifies this, log
      ensures View() == Kernel.HandleRequestVoteResponse(old(View()), from, t, granted).n
      ensures acts == Kernel.HandleRequestVoteResponse(old(View()), from, t, granted).acts
    {
      acts := [];
      if role != Candidate || t != term { return; }
      if granted {
        votes := votes + {from};
        var majority := (|peers| + 1) / 2 + 1;
        if |votes| >= majority {
          acts := BecomeLeader();
        }
      }
    }

    /** The consistency check, with the follower's walk back over a conflicting term. */
    method CheckPrevious(prevIndex: Index, prevTerm: Term) returns (r: Option<Kind>)
      ensures r == Rejection(log.entries, prevIndex, prevTerm)
    {
      match TermAt(log.entries, prevIndex)
      case None =>
        r := Some(AppendEntriesResponse(false, None, Some(LastIndex(log.entries) + 1)));
      case Some(t) =>
        if t == prevTerm { return None; }
        var first: Index := prevIndex;
        while first > FirstIndex(log.entries)
          invariant TermAt(log.entries, first) == Some(t)
          invariant RunStart(log.entries, t, first) == RunStart(log.entries, t, prevIndex)
        {
          if TermAt(log.entries, first - 1) != Some(t) { break; }
          first := first - 1;
        }
        r := Some(AppendEntriesResponse(false, Some(t), Some(first)));
    }

    /** The search for the attachment point, and the splice there. `ok` is false where the splice would
        cut the log at or below its base. */
    method MergeEntries(es: seq<Entry>) returns (ok: bool, acts: seq<Action>)
      modifies log
      ensures ok <==> !CutsBase(old(log.entries), es)
      ensures ok ==> View() == Merge(old(View()), es).n && acts == Merge(old(View()), es).acts
    {
      ok, acts := true, [];
      if es == [] { return; }
      var attach := FindAttachment(es);
      if attach < es[0].index { return; }
      var offset := attach - es[0].index;
      if offset < |es| {
        if attach <= FirstIndex(log.entries) { return false, []; }
        acts := [TruncateAndAppend(attach, es[offset..])];
        log.TruncateAndAppend(attach, es[offset..]);
      }
    }

    method FindAttachment(es: seq<Entry>) returns (attach: Index)
      requires es != []
      ensures attach == Attach(log.entries, es)
    {
      attach := es[0].index;
      var k := 0;
      while k < |es|
        invariant 0 <= k <= |es| && attach == if k == 0 then es[0].index else es[k - 1].index + 1
        invariant HeldPrefix(log.entries, es) == k + HeldPrefix(log.entries, es[k..])
      {
        if TermAt(log.entries, es[k].index) != Some(es[k].term) { break; }
        assert es[k..][1..] == es[k + 1..];
        attach, k := es[k].index + 1, k + 1;
      }
    }

    method AcceptEntries(from: NodeId, es: seq<Entry>, leaderCommit: Index) returns (ok: bool, acts: seq<Action>)
      modifies this, log
      ensures ok <==> !CutsBase(old(log.entries), es)
      ensures ok ==> View() == Accept(old(View()), from, es, leaderCommit).n
      ensures ok ==> acts == Accept(old(View()), from, es, leaderCommit).acts
    {
      ok, acts := MergeEntries(es);
      if !ok { return; }
      var more := FollowCommit(leaderCommit);
      acts := acts + more;
      acts := acts + [Send(Message(id, from, term, AppendEntriesResponse(true, None, None)))];
    }

    method FollowCommit(leaderCommit: Index) returns (acts: seq<Action>)
      modifies this`commit, this`applied
      ensures View() == FollowLeaderCommit(old(View()), leaderCommit).n
      ensures acts == FollowLeaderCommit(old(View()), leaderCommit).acts
    {
      acts := [];
      if leaderCommit > commit {
        var last := LastIndex(log.entries);
        var newCommit := if leaderCommit <= last then leaderCommit else last;
        if newCommit > commit {
          commit := newCommit;
          acts := ApplyCommittedEntries();
        }
      }
    }

    method HandleAppendEntries(m: Message, rt: nat) returns (ok: bool, acts: seq<Action>)
      requires m.kind.AppendEntries?
      modifies this, log
      ensures ok <==> !Aborts(old(View()), m)
      ensures ok ==> View() == Kernel.HandleAppendEntries(old(View()), m, rt).n
      ensures ok ==> acts == Kernel.HandleAppendEntries(old(View()), m, rt).acts
    {
      ok := true;
      if m.term < term {
        return true, [Send(Message(id, m.from, term, AppendEntriesResponse(false, None, None)))];
      }
      acts := BecomeFollower(m.term, Some(m.from), rt);
      var rejection := CheckPrevious(m.kind.prevIndex, m.kind.prevTerm);
      if rejection.Some? {
        acts := acts + [Send(Message(id, m.from, term, rejection.value))];
      } else {
        var more;
        ok, more := AcceptEntries(m.from, m.kind.entries, m.kind.leaderCommit);
        acts := acts + more;
      }
    }

    /** Where to probe next, with the leader's downward search over its whole log. */
    method ProbeNext(from: NodeId, conflictTerm: Option<Term>, conflictIndex: Option<Index>) returns (r: Index)
      ensures r == Backtrack(log.entries, NextFor(View(), from), conflictTerm, conflictIndex)
    {
      r := NextFor(View(), from);
      if conflictTerm.Some? {
        var first, last := FirstIndex(log.entries), LastIndex(log.entries);
        var found, k := None, last + 1;
        while k > first
          invariant first <= last + 1 ==> first <= k <= last + 1
          invariant found.None?
          invariant first <= last ==> LastOfTerm(log.entries, conflictTerm.value, first, last + 1)
                                      == LastOfTerm(log.entries, conflictTerm.value, first, k)
        {
          k := k - 1;
          if TermAt(log.entries, k) == conflictTerm {
            found := Some(k);
            break;
          }
        }
        r := if found.Some? then found.value + 1 else conflictIndex.UnwrapOr(1);
      } else if conflictIndex.Some? {
        r := conflictIndex.value;
      } else {
        r := Prev(r);
      }
      if r == 0 { r := 1; }
    }

    method HandleAppendEntriesResponse(m: Message) returns (acts: seq<Action>)
      requires m.kind.AppendEntriesResponse?
      modifies this
      ensures View() == Kernel.HandleAppendEntriesResponse(old(View()), m).n
      ensures acts == Kernel.HandleAppendEntriesResponse(old(View()), m).acts
    {
      acts := [];
      if role != Leader || m.term != term { return; }
      if m.kind.success {
        var last := LastIndex(log.entries);
        RecordMatch(m.from, last);
        acts := MaybeAdvanceCommit();
      } else {
        var probe := ProbeNext(m.from, m.kind.conflictTerm, m.kind.conflictIndex);
        next := next[m.from := probe];
        var a := ReplicateToPeer(m.from);
        acts := [a];
      }
    }

    method RecordMatch(from: NodeId, k: Index)
      modifies this`next, this`matched
      ensures View() == WithAck(old(View()), from, k)
    {
      next, matched := next[from := k + 1], matched[from := k];
    }

    method HandleInstallSnapshot(m: Message, rt: nat) returns (acts: seq<Action>)
      requires m.kind.InstallSnapshot?
      modifies this, log
      ensures View() == Kernel.HandleInstallSnapshot(old(View()), m, rt).n
      ensures acts == Kernel.HandleInstallSnapshot(old(View()), m, rt).acts
    {
      if m.term < term {
        return [Send(Message(id, m.from, term, InstallSnapshotResponse))];
      }
      acts := BecomeFollower(m.term, Some(m.from), rt);
      if m.kind.snapIndex > commit && m.kind.done {
        log.InstallSnapshot(Meta(m.kind.snapIndex, m.kind.snapTerm));
        commit, applied := m.kind.snapIndex, m.kind.snapIndex;
        acts := acts + [PersistSnapshot(m.kind.snapIndex, m.kind.snapTerm)];
      }
      acts := acts + [Send(Message(id, m.from, term, InstallSnapshotResponse))];
    }

    method HandleInstallSnapshotResponse(m: Message) returns (acts: seq<Action>)
      modifies this
      ensures View() == Kernel.HandleInstallSnapshotResponse(old(View()), m).n
      ensures acts == Kernel.HandleInstallSnapshotResponse(old(View()), m).acts
    {
      acts := [];
      if role != Leader || m.term != term { return; }
      var first := FirstIndex(log.entries);
      RecordMatch(m.from, first);
      acts := MaybeAdvanceCommit();
    }

    method SendToPeers(t: Term, kind: Kind) returns (acts: seq<Action>)
      ensures acts == ToPeers(View(), t, kind)
    {
      acts := [];
      for k := 0 to |peers|
        invariant acts == ToPeers(View(), t, kind)[..k]
      {
        acts := acts + [Send(Message(id, peers[k], t, kind))];
      }
    }

    /** `broadcast_heartbeats` and `broadcast_append_entries`, whose bodies are the same. */
    method BroadcastToPeers() returns (acts: seq<Action>)
      ensures acts == Broadcast(View())
    {
      acts := [];
      for k := 0 to |peers|
        invariant acts == Broadcast(View())[..k]
      {
        var a := ReplicateToPeer(peers[k]);
        acts := acts + [a];
      }
    }

    method ReplicateToPeer(peer: NodeId) returns (a: Action)
      ensures a == Replicate(View(), peer)
    {
      var probe := if peer in next then next[peer] else 1;
      if probe <= FirstIndex(log.entries) {
        var meta := SnapshotMeta(log.entries).UnwrapOr(Meta(0, 0));
        a := Send(Message(id, peer, term, InstallSnapshot(meta.index, meta.term, true)));
      } else {
        var prevIndex := Prev(probe);
        var prevTerm := TermAt(log.entries, prevIndex).UnwrapOr(0);
        a := Send(Message(id, peer, term, AppendEntries(prevIndex, prevTerm, EntriesFrom(log.entries, probe), commit)));
      }
    }

    method MaybeAdvanceCommit() returns (acts: seq<Action>)
      modifies this`commit, this`applied
      ensures View() == MaybeAdvance(old(View())).n && acts == MaybeAdvance(old(View())).acts
    {
      var newCommit := CountAcknowledged();
      acts := [];
      if newCommit > commit {
        commit := newCommit;
        acts := ApplyCommittedEntries();
      }
    }

    /** The nested counting loops. */
    method CountAcknowledged() returns (newCommit: Index)
      ensures newCommit == NewCommit(View())
    {
      var last, k := LastIndex(log.entries), commit + 1;
      newCommit := commit;
      while k <= last
        invariant commit < k && (k <= last + 1 || k == commit + 1)
        invariant newCommit == LastCommittable(View(), commit + 1, k).UnwrapOr(commit)
      {
        if TermAt(log.entries, k) == Some(term) {
          var count := 1;
          for j := 0 to |peers|
            invariant count == 1 + PeerSupport(matched, peers[..j], k)
          {
            SupportOfPrefix(matched, peers, j, k);
            if MatchAt(matched, peers[j]) >= k { count := count + 1; }
          }
          assert peers[..|peers|] == peers;
          var majority := (|peers| + 1) / 2 + 1;
          if count >= majority { newCommit := k; }
        }
        k := k + 1;
      }
    }

    method ApplyCommittedEntries() returns (acts: seq<Action>)
      modifies this`applied
      ensures View() == ApplyCommitted(old(View())).n && acts == ApplyCommitted(old(View())).acts
    {
      acts := [];
      if commit > applied {
        var batch := TakeUpTo(EntriesFrom(log.entries, applied + 1), commit);
        if batch != [] {
          applied := batch[|batch| - 1].index;
          acts := [Apply(batch)];
        }
      }
    }
  }
}
