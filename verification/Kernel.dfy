/** The consensus kernel as functions on node values. Every handler returns the node after the call
    and the actions it emitted, in order. `rt` is the election timeout the random generator draws
    during the call; only the last draw of a call survives, so one value stands for all of them. */
module Kernel {
  import opened Types
  import opened LogSpec

  datatype Role = Follower | PreCandidate | Candidate | Leader

  datatype Node = Node(
    id: NodeId,
    peers: seq<NodeId>,
    term: Term,
    voted: Option<NodeId>,
    log: Log,
    commit: Index,
    applied: Index,
    role: Role,
    next: map<NodeId, Index>,
    matched: map<NodeId, Index>,
    base: nat,
    timeout: nat,
    elapsed: nat,
    heartbeat: nat,
    heartbeatElapsed: nat,
    votes: set<NodeId>,
    preVotes: set<NodeId>,
    leader: Option<NodeId>)

  datatype Out = Out(n: Node, acts: seq<Action>)

  /** A node rebuilt from durable state; everything volatile starts fresh. */
  function Fresh(id: NodeId, peers: seq<NodeId>, base: nat, heartbeat: nat, rt: nat,
                 term: Term, voted: Option<NodeId>, log: Log, commit: Index, applied: Index): Node {
    Node(id, peers, term, voted, log, commit, applied, Follower, map[], map[],
         base, rt, 0, heartbeat, 0, {}, {}, None)
  }

  function Majority(n: Node): nat {
    (|n.peers| + 1) / 2 + 1
  }

  function Reply(n: Node, to: NodeId, kind: Kind): Action {
    Send(Message(n.id, to, n.term, kind))
  }

  function ToPeers(n: Node, term: Term, kind: Kind): seq<Action> {
    seq(|n.peers|, k requires 0 <= k < |n.peers| => Send(Message(n.id, n.peers[k], term, kind)))
  }

  // ---- replication to one peer -------------------------------------------------------------

  function NextFor(n: Node, peer: NodeId): Index {
    if peer in n.next then n.next[peer] else 1
  }

  /** What the leader has recorded as acknowledged by `peer`; nothing counts as index 0. */
  function MatchAt(matched: map<NodeId, Index>, peer: NodeId): Index {
    if peer in matched then matched[peer] else 0
  }

  function Replicate(n: Node, peer: NodeId): Action {
    var next := NextFor(n, peer);
    if next <= FirstIndex(n.log) then
      var meta := SnapshotMeta(n.log).UnwrapOr(Meta(0, 0));
      Reply(n, peer, InstallSnapshot(meta.index, meta.term, true))
    else
      var prevTerm := TermAt(n.log, Prev(next)).UnwrapOr(0);
      Reply(n, peer, AppendEntries(Prev(next), prevTerm, EntriesFrom(n.log, next), n.commit))
  }

  function Broadcast(n: Node): seq<Action> {
    seq(|n.peers|, k requires 0 <= k < |n.peers| => Replicate(n, n.peers[k]))
  }

  // ---- commit and apply --------------------------------------------------------------------

  function Pending(n: Node): seq<Entry> {
    if n.commit > n.applied then TakeUpTo(EntriesFrom(n.log, n.applied + 1), n.commit) else []
  }

  function ApplyCommitted(n: Node): Out {
    var batch := Pending(n);
    if batch == [] then Out(n, []) else Out(n.(applied := batch[|batch| - 1].index), [Apply(batch)])
  }

  function AdvanceTo(n: Node, k: Index): Out {
    if k > n.commit then ApplyCommitted(n.(commit := k)) else Out(n, [])
  }

  /** How many of `peers` have acknowledged index k, by the leader's own record. */
  function PeerSupport(matched: map<NodeId, Index>, peers: seq<NodeId>, k: Index): nat {
    if peers == [] then 0
    else (if MatchAt(matched, peers[0]) >= k then 1 else 0) + PeerSupport(matched, peers[1..], k)
  }

  predicate Committable(n: Node, k: Index) {
    TermAt(n.log, k) == Some(n.term) && 1 + PeerSupport(n.matched, n.peers, k) >= Majority(n)
  }

  /** The largest committable index in [lo, hi). */
  function LastCommittable(n: Node, lo: Index, hi: Index): (r: Option<Index>)
    requires lo <= hi
    ensures r.Some? ==> lo <= r.value < hi && Committable(n, r.value)
    ensures forall k | lo <= k < hi && (r.None? || r.value < k) :: !Committable(n, k)
    decreases hi
  {
    if hi == lo then None
    else if Committable(n, hi - 1) then Some(hi - 1)
    else LastCommittable(n, lo, hi - 1)
  }

  function NewCommit(n: Node): Index {
    if LastIndex(n.log) <= n.commit then n.commit
    else LastCommittable(n, n.commit + 1, LastIndex(n.log) + 1).UnwrapOr(n.commit)
  }

  function MaybeAdvance(n: Node): Out {
    AdvanceTo(n, NewCommit(n))
  }

  // ---- roles -------------------------------------------------------------------------------

  function BecomeFollower(n: Node, t: Term, leader: Option<NodeId>, rt: nat): Out {
    var m := n.(term := t, role := Follower, leader := leader, elapsed := 0, timeout := rt);
    if t > n.term then Out(m.(voted := None), [PersistHardState(t, None)]) else Out(m, [])
  }

  function ForEach(peers: seq<NodeId>, k: Index): map<NodeId, Index> {
    map p | p in peers :: k
  }

  function BecomeLeader(n: Node): Out {
    var noop := Entry(LastIndex(n.log) + 1, n.term, []);
    var m := n.(role := Leader, leader := Some(n.id), heartbeatElapsed := 0,
                next := ForEach(n.peers, LastIndex(n.log) + 1),
                matched := ForEach(n.peers, 0),
                log := n.log + [noop]);
    Out(m, [AppendLog([noop])] + Broadcast(m))
  }

  /** The part of `start_real_election` before a lone node declares itself leader. */
  function Campaign(n: Node, rt: nat): Out {
    var m := n.(term := n.term + 1, role := Candidate, voted := Some(n.id), votes := {n.id},
                elapsed := 0, timeout := rt);
    Out(m, [PersistHardState(m.term, Some(m.id))] + ToPeers(m, m.term, RequestVote(LastIndex(m.log), LastTerm(m.log))))
  }

  function StartRealElection(n: Node, rt: nat): Out {
    var o := Campaign(n, rt);
    if n.peers == [] then var l := BecomeLeader(o.n); Out(l.n, o.acts + l.acts) else o
  }

  /** The part of `start_pre_vote` before a lone node moves on to a real election. */
  function Canvass(n: Node, rt: nat): Out {
    var m := n.(role := PreCandidate, preVotes := {n.id}, elapsed := 0, timeout := rt);
    Out(m, ToPeers(m, m.term + 1, PreVote(LastIndex(m.log), LastTerm(m.log))))
  }

  function StartPreVote(n: Node, rt: nat): Out {
    var o := Canvass(n, rt);
    if n.peers == [] then var e := StartRealElection(o.n, rt); Out(e.n, o.acts + e.acts) else o
  }

  function Tick(n: Node, rt: nat): Out {
    if n.role == Leader then
      if n.heartbeatElapsed + 1 >= n.heartbeat then
        var m := n.(heartbeatElapsed := 0);
        Out(m, Broadcast(m))
      else Out(n.(heartbeatElapsed := n.heartbeatElapsed + 1), [])
    else if n.elapsed + 1 >= n.timeout then StartPreVote(n.(elapsed := 0), rt)
    else Out(n.(elapsed := n.elapsed + 1), [])
  }

  // ---- elections ---------------------------------------------------------------------------

  /** A candidate whose log ends at (index, term) is at least as up to date as log `s`. */
  predicate UpToDate(s: Log, index: Index, term: Term) {
    if term != LastTerm(s) then term > LastTerm(s) else index >= LastIndex(s)
  }

  predicate LeaseActive(n: Node) {
    n.leader.Some? && n.elapsed < n.base
  }

  function HandlePreVote(n: Node, from: NodeId, proposed: Term, index: Index, term: Term): Out {
    var grant := proposed >= n.term && UpToDate(n.log, index, term) && !LeaseActive(n);
    Out(n, [Reply(n, from, PreVoteResponse(grant))])
  }

  function HandlePreVoteResponse(n: Node, from: NodeId, term: Term, granted: bool, rt: nat): Out {
    if n.role != PreCandidate || term != n.term || !granted then Out(n, [])
    else
      var m := n.(preVotes := n.preVotes + {from});
      if |m.preVotes| >= Majority(m) then StartRealElection(m, rt) else Out(m, [])
  }

  function HandleRequestVote(n: Node, from: NodeId, index: Index, term: Term): Out {
    var grant := (n.voted == None || n.voted == Some(from)) && UpToDate(n.log, index, term) && !LeaseActive(n);
    if grant then
      Out(n.(voted := Some(from), elapsed := 0),
          [PersistHardState(n.term, Some(from)), Reply(n, from, RequestVoteResponse(true))])
    else Out(n, [Reply(n, from, RequestVoteResponse(false))])
  }

  function HandleRequestVoteResponse(n: Node, from: NodeId, term: Term, granted: bool): Out {
    if n.role != Candidate || term != n.term || !granted then Out(n, [])
    else
      var m := n.(votes := n.votes + {from});
      if |m.votes| >= Majority(m) then BecomeLeader(m) else Out(m, [])
  }

  // ---- AppendEntries -----------------------------------------------------------------------

  /** The follower's consistency check: `None` accepts, otherwise the rejection to send. */
  function Rejection(s: Log, prevIndex: Index, prevTerm: Term): (r: Option<Kind>)
    ensures r.None? <==> TermAt(s, prevIndex) == Some(prevTerm)
  {
    match TermAt(s, prevIndex)
    case None => Some(AppendEntriesResponse(false, None, Some(LastIndex(s) + 1)))
    case Some(t) =>
      if t == prevTerm then None
      else Some(AppendEntriesResponse(false, Some(t), Some(RunStart(s, t, prevIndex))))
  }

  /** What a rejection tells the leader: an index too far, or the follower's term there and the first index
      of its run of that term. */
  lemma RejectionNames(s: Log, prevIndex: Index, prevTerm: Term)
    requires TermAt(s, prevIndex) != Some(prevTerm)
    ensures var r := Rejection(s, prevIndex, prevTerm);
            && r.Some? && r.value.AppendEntriesResponse? && !r.value.success && r.value.conflictIndex.Some?
            && r.value.conflictTerm == TermAt(s, prevIndex)
    ensures var r := Rejection(s, prevIndex, prevTerm).value;
            if r.conflictTerm.None? then r.conflictIndex == Some(LastIndex(s) + 1)
            else
              var first := r.conflictIndex.value;
              && FirstIndex(s) <= first <= prevIndex
              && (forall k | first <= k <= prevIndex :: TermAt(s, k) == r.conflictTerm)
              && (first == FirstIndex(s) || TermAt(s, first - 1) != r.conflictTerm)
  {}

  /** Where an AppendEntries attaches: behind the entries already held with the same term. */
  function Attach(s: Log, es: seq<Entry>): Index
    requires es != []
  {
    var held := HeldPrefix(s, es);
    if held == 0 then es[0].index else es[held - 1].index + 1
  }

  /** How many leading entries of the message the splice leaves out; nothing is spliced when that is all
      of them. On a list that descends the subtraction wraps around to a number beyond any length (in a
      build with overflow checks it panics instead, which is a crash). */
  function Skipped(s: Log, es: seq<Entry>): nat
    requires es != []
  {
    var at := Attach(s, es);
    if at < es[0].index || at - es[0].index >= |es| then |es| else at - es[0].index
  }

  /** The splice would have to cut at or below the retained base: the log's assertion panics. */
  predicate CutsBase(s: Log, es: seq<Entry>) {
    es != [] && Skipped(s, es) < |es| && Attach(s, es) <= FirstIndex(s)
  }

  function Splice(n: Node, from: Index, rest: seq<Entry>): Out
    requires FirstIndex(n.log) < from
  {
    Out(n.(log := Truncated(n.log, from, rest)), [TruncateAndAppend(from, rest)])
  }

  /** Keeps what comes before the attachment point and replaces the rest. When `CutsBase` holds the
      original panics, and what stands here is never used. */
  function Merge(n: Node, es: seq<Entry>): Out {
    if es == [] || Skipped(n.log, es) == |es| || CutsBase(n.log, es) then Out(n, [])
    else
      Splice(n, Attach(n.log, es), es[Skipped(n.log, es)..])
  }

  /** Consecutive entries above the base attach right behind the held ones, and never cut the base. */
  lemma {:induction false} AttachConsecutive(s: Log, es: seq<Entry>)
    requires es != [] && ContiguousFrom(es, es[0].index)
    ensures Attach(s, es) == es[0].index + HeldPrefix(s, es) && Skipped(s, es) == HeldPrefix(s, es)
    ensures FirstIndex(s) < es[0].index ==> !CutsBase(s, es)
  {}

  lemma {:induction false} MergeHeld(n: Node, es: seq<Entry>)
    requires es != [] ==> FirstIndex(n.log) < es[0].index && ContiguousFrom(es, es[0].index)
    requires HeldPrefix(n.log, es) == |es|
    ensures Merge(n, es) == Out(n, [])
  {
    if es != [] { AttachConsecutive(n.log, es); }
  }

  /** The held entries are kept, and the first one that is not held starts the replacement. */
  lemma {:induction false} MergeRest(n: Node, es: seq<Entry>, h: nat)
    requires es != [] && FirstIndex(n.log) < es[0].index && ContiguousFrom(es, es[0].index)
    requires h == HeldPrefix(n.log, es) < |es|
    ensures FirstIndex(n.log) < es[h].index && Merge(n, es) == Splice(n, es[h].index, es[h..])
  {
    AttachConsecutive(n.log, es);
    assert es[Skipped(n.log, es)..] == es[h..];
  }

  function FollowLeaderCommit(n: Node, leaderCommit: Index): Out {
    if leaderCommit > n.commit
    then AdvanceTo(n, if leaderCommit <= LastIndex(n.log) then leaderCommit else LastIndex(n.log))
    else Out(n, [])
  }

  /** What an AppendEntries that passed the consistency check does. */
  function Accept(n: Node, from: NodeId, es: seq<Entry>, leaderCommit: Index): Out {
    var a := Merge(n, es);
    var b := FollowLeaderCommit(a.n, leaderCommit);
    Out(b.n, a.acts + b.acts + [Reply(b.n, from, AppendEntriesResponse(true, None, None))])
  }

  function HandleAppendEntries(n: Node, m: Message, rt: nat): Out
    requires m.kind.AppendEntries?
  {
    if m.term < n.term then Out(n, [Reply(n, m.from, AppendEntriesResponse(false, None, None))])
    else
      var f := BecomeFollower(n, m.term, Some(m.from), rt);
      match Rejection(f.n.log, m.kind.prevIndex, m.kind.prevTerm)
      case Some(kind) => Out(f.n, f.acts + [Reply(f.n, m.from, kind)])
      case None =>
        var a := Accept(f.n, m.from, m.kind.entries, m.kind.leaderCommit);
        Out(a.n, f.acts + a.acts)
  }

  /** Where the leader probes next after a rejection. */
  function Backtrack(s: Log, next: Index, conflictTerm: Option<Term>, conflictIndex: Option<Index>): Index {
    var r :=
      if conflictTerm.Some? then
        var last :=
          if FirstIndex(s) > LastIndex(s) then None
          else LastOfTerm(s, conflictTerm.value, FirstIndex(s), LastIndex(s) + 1);
        if last.Some? then last.value + 1 else conflictIndex.UnwrapOr(1)
      else if conflictIndex.Some? then conflictIndex.value
      else Prev(next);
    if r == 0 then 1 else r
  }

  /** The leader takes `from` to hold its log up to index k. */
  function WithAck(n: Node, from: NodeId, k: Index): Node {
    n.(next := n.next[from := k + 1], matched := n.matched[from := k])
  }

  /** A success reply does not say which request it answers: the leader takes it to cover its log as it
      stands now. */
  function HandleAppendEntriesResponse(n: Node, m: Message): Out
    requires m.kind.AppendEntriesResponse?
  {
    if n.role != Leader || m.term != n.term then Out(n, [])
    else if m.kind.success then
      MaybeAdvance(WithAck(n, m.from, LastIndex(n.log)))
    else
      var next := Backtrack(n.log, NextFor(n, m.from), m.kind.conflictTerm, m.kind.conflictIndex);
      var l := n.(next := n.next[m.from := next]);
      Out(l, [Replicate(l, m.from)])
  }

  // ---- snapshots ---------------------------------------------------------------------------

  function Install(n: Node, index: Index, term: Term): Out {
    Out(n.(log := [Entry(index, term, [])], commit := index, applied := index), [PersistSnapshot(index, term)])
  }

  function HandleInstallSnapshot(n: Node, m: Message, rt: nat): Out
    requires m.kind.InstallSnapshot?
  {
    if m.term < n.term then Out(n, [Reply(n, m.from, InstallSnapshotResponse)])
    else
      var f := BecomeFollower(n, m.term, Some(m.from), rt);
      if m.kind.snapIndex <= f.n.commit || !m.kind.done
      then Out(f.n, f.acts + [Reply(f.n, m.from, InstallSnapshotResponse)])
      else
        var s := Install(f.n, m.kind.snapIndex, m.kind.snapTerm);
        Out(s.n, f.acts + s.acts + [Reply(s.n, m.from, InstallSnapshotResponse)])
  }

  function HandleInstallSnapshotResponse(n: Node, m: Message): Out {
    if n.role != Leader || m.term != n.term then Out(n, [])
    else MaybeAdvance(WithAck(n, m.from, FirstIndex(n.log)))
  }

  function CompactLogs(n: Node, index: Index, term: Term): Out {
    if index > n.commit then Out(n, [])
    else Out(n.(log := Compacted(n.log, index, term)), [PersistSnapshot(index, term)])
  }

  // ---- clients -----------------------------------------------------------------------------

  /** The part of `propose` before a lone node counts its own vote. */
  function AppendCommand(n: Node, command: Bytes): Out {
    var entry := Entry(LastIndex(n.log) + 1, n.term, command);
    var m := n.(log := n.log + [entry]);
    Out(m, [AppendLog([entry])] + Broadcast(m))
  }

  function Propose(n: Node, command: Bytes): Out {
    if n.role != Leader then Out(n, [])
    else
      var a := AppendCommand(n, command);
      if n.peers == [] then var c := MaybeAdvance(a.n); Out(c.n, a.acts + c.acts) else a
  }

  function HandleClientRequest(n: Node, from: NodeId, command: Bytes): Out {
    if n.role == Leader then
      var p := Propose(n, command);
      Out(p.n, p.acts + [Reply(p.n, from, ClientResponse(true, Some(n.id)))])
    else Out(n, [Reply(n, from, ClientResponse(false, n.leader))])
  }

  // ---- the single entry point for messages -------------------------------------------------

  /** Whether `step` first moves to the message's term. Pre-vote and client traffic never does. */
  predicate Bumps(n: Node, m: Message) {
    m.term > n.term && !m.kind.PreVoteMsg() && !m.kind.ClientMsg()
  }

  predicate Stale(n: Node, m: Message) {
    m.term < n.term && !m.kind.PreVoteMsg() && !m.kind.ClientMsg()
  }

  function Dispatch(n: Node, m: Message, rt: nat): Out {
    match m.kind
    case ClientRequest(command) => HandleClientRequest(n, m.from, command)
    case ClientResponse(_, _) => Out(n, [])
    case PreVote(index, term) => HandlePreVote(n, m.from, m.term, index, term)
    case PreVoteResponse(granted) => HandlePreVoteResponse(n, m.from, m.term, granted, rt)
    case RequestVote(index, term) => HandleRequestVote(n, m.from, index, term)
    case RequestVoteResponse(granted) => HandleRequestVoteResponse(n, m.from, m.term, granted)
    case AppendEntries(_, _, _, _) => HandleAppendEntries(n, m, rt)
    case AppendEntriesResponse(_, _, _) => HandleAppendEntriesResponse(n, m)
    case InstallSnapshot(_, _, _) => HandleInstallSnapshot(n, m, rt)
    case InstallSnapshotResponse => HandleInstallSnapshotResponse(n, m)
  }

  /** The call panics, and the node is gone before any of its actions is carried out: an AppendEntries
      passes the consistency check and would cut the log at or below its base. */
  predicate Aborts(n: Node, m: Message) {
    && m.kind.AppendEntries? && m.term >= n.term
    && Rejection(n.log, m.kind.prevIndex, m.kind.prevTerm).None? && CutsBase(n.log, m.kind.entries)
  }

  /** What a call does that does not panic. */
  function Receive(n: Node, m: Message, rt: nat): Out {
    if Stale(n, m) then Out(n, [])
    else
      var b := if Bumps(n, m) then BecomeFollower(n, m.term, None, rt) else Out(n, []);
      var d := Dispatch(b.n, m, rt);
      Out(d.n, b.acts + d.acts)
  }
}
