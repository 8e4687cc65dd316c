/** What one incarnation of a node feeds to its state machine, whatever calls and messages it gets. */
module Stream {
  import opened Types
  import opened LogSpec
  import opened Kernel
  import opened Cluster

  /** Between calls: nothing committed is left unapplied, and nothing applied is missing below. */
  predicate Steady(n: Node) {
    Contiguous(n.log) && FirstIndex(n.log) <= n.applied == n.commit
  }

  predicate Quiet(acts: seq<Action>) {
    forall a | a in acts :: !a.Apply? && !a.PersistSnapshot?
  }

  /** Feeds the actions to a state machine that stands at `pos`: a batch must start right after it, a
      snapshot moves it forward. `None` is a gap or a repeat. */
  function Fed(pos: Index, acts: seq<Action>): Option<Index>
    decreases |acts|
  {
    if acts == [] then Some(pos)
    else match acts[0]
      case Apply(es) =>
        if es != [] && ContiguousFrom(es, pos + 1) then Fed(pos + |es|, acts[1..]) else None
      case PersistSnapshot(index, _) => Fed(if index > pos then index else pos, acts[1..])
      case _ => Fed(pos, acts[1..])
  }

  predicate AppliesOwn(n: Node, acts: seq<Action>) {
    forall a | a in acts && a.Apply? :: (forall e | e in a.entries :: EntryAt(n.log, e.index) == Some(e))
  }

  /** The outcome of a call on a steady node. */
  predicate Feeds(n: Node, o: Out) {
    Steady(o.n) && n.commit <= o.n.commit && Fed(n.applied, o.acts) == Some(o.n.applied) && AppliesOwn(o.n, o.acts)
  }

  /** The outcome of a part of a call that neither commits nor applies. */
  predicate Still(n: Node, o: Out) {
    && Quiet(o.acts) && Contiguous(o.n.log)
    && FirstIndex(o.n.log) == FirstIndex(n.log) && o.n.commit == n.commit && o.n.applied == n.applied
  }

  lemma {:induction false} FedQuiet(pos: Index, acts: seq<Action>)
    requires Quiet(acts)
    ensures Fed(pos, acts) == Some(pos)
    decreases |acts|
  {
    if acts != [] { FedQuiet(pos, acts[1..]); }
  }

  lemma {:induction false} FedConcat(pos: Index, a: seq<Action>, b: seq<Action>)
    requires Fed(pos, a).Some?
    ensures Fed(pos, a + b) == Fed(Fed(pos, a).value, b)
    decreases |a|
  {
    if a == [] {
      assert a + b == b;
    } else {
      assert (a + b)[1..] == a[1..] + b;
      match a[0]
      case Apply(es) => FedConcat(pos + |es|, a[1..], b);
      case PersistSnapshot(index, _) => FedConcat(if index > pos then index else pos, a[1..], b);
      case _ => FedConcat(pos, a[1..], b);
    }
  }

  lemma StillFeeds(n: Node, o: Out)
    requires Steady(n) && Still(n, o)
    ensures Feeds(n, o)
  {
    FedQuiet(n.applied, o.acts);
  }

  lemma StillThen(n: Node, o: Out, p: Out)
    requires Steady(n) && Still(n, o) && Feeds(o.n, p)
    ensures Feeds(n, Out(p.n, o.acts + p.acts))
  {
    FedQuiet(n.applied, o.acts);
    FedConcat(n.applied, o.acts, p.acts);
  }

  lemma ThenQuiet(n: Node, o: Out, acts: seq<Action>)
    requires Feeds(n, o) && Quiet(acts)
    ensures Feeds(n, Out(o.n, o.acts + acts))
  {
    FedConcat(n.applied, o.acts, acts);
    FedQuiet(o.n.applied, acts);
  }

  lemma StillStill(n: Node, o: Out, p: Out)
    requires Still(n, o) && Still(o.n, p)
    ensures Still(n, Out(p.n, o.acts + p.acts))
  {}

  // ---- handlers that do not commit ---------------------------------------------------------

  lemma BecomeFollowerStill(n: Node, t: Term, leader: Option<NodeId>, rt: nat)
    requires Contiguous(n.log)
    ensures Still(n, BecomeFollower(n, t, leader, rt))
  {}

  lemma AppendStill(n: Node, m: Node, e: Entry, sends: seq<Action>)
    requires Contiguous(n.log) && e.index == LastIndex(n.log) + 1 && m.log == n.log + [e]
    requires m.commit == n.commit && m.applied == n.applied && Quiet(sends)
    ensures Still(n, Out(m, [AppendLog([e])] + sends))
  {}

  lemma BecomeLeaderStill(n: Node)
    requires Contiguous(n.log)
    ensures Still(n, BecomeLeader(n))
  {
    var m := BecomeLeader(n).n;
    AppendStill(n, m, Entry(LastIndex(n.log) + 1, n.term, []), Broadcast(m));
  }

  lemma StartRealElectionStill(n: Node, rt: nat)
    requires Contiguous(n.log)
    ensures Still(n, StartRealElection(n, rt))
  {
    var o := Campaign(n, rt);
    assert Still(n, o);
    if n.peers == [] {
      BecomeLeaderStill(o.n);
      StillStill(n, o, BecomeLeader(o.n));
    }
  }

  lemma StartPreVoteStill(n: Node, rt: nat)
    requires Contiguous(n.log)
    ensures Still(n, StartPreVote(n, rt))
  {
    var o := Canvass(n, rt);
    assert Still(n, o);
    if n.peers == [] {
      StartRealElectionStill(o.n, rt);
      StillStill(n, o, StartRealElection(o.n, rt));
    }
  }

  lemma TickStill(n: Node, rt: nat)
    requires Contiguous(n.log)
    ensures Still(n, Tick(n, rt))
  {
    if n.role != Leader && n.elapsed + 1 >= n.timeout {
      StartPreVoteStill(n.(elapsed := 0), rt);
    }
  }

  lemma VotingStill(n: Node, m: Message, rt: nat)
    requires Contiguous(n.log)
    requires m.kind.PreVoteMsg() || m.kind.RequestVote? || m.kind.RequestVoteResponse?
    ensures Still(n, Dispatch(n, m, rt))
  {
    match m.kind
    case PreVoteResponse(granted) =>
      StartRealElectionStill(n.(preVotes := n.preVotes + {m.from}), rt);
    case RequestVoteResponse(granted) =>
      BecomeLeaderStill(n.(votes := n.votes + {m.from}));
    case _ =>
  }

  // ---- entries that fit ---------------------------------------------------------------------

  /** What a merge would splice in continues the log it leaves standing. */
  predicate Joins(s: Log, es: seq<Entry>) {
    es == [] || Skipped(s, es) == |es|
    || ContiguousFrom(es[Skipped(s, es)..], if Attach(s, es) <= LastIndex(s) then Attach(s, es) else LastIndex(s) + 1)
  }

  /** An AppendEntries that passes the consistency check joins the log. */
  predicate Fits(n: Node, m: Message) {
    m.kind.AppendEntries? && m.term >= n.term && Rejection(n.log, m.kind.prevIndex, m.kind.prevTerm).None?
    ==> Joins(n.log, m.kind.entries)
  }

  /** Consecutive entries right behind `prevIndex` always fit. */
  lemma ValidFits(n: Node, m: Message)
    requires Contiguous(n.log) && ValidMsg(m)
    ensures Fits(n, m) && !Aborts(n, m)
  {
    if m.kind.AppendEntries? && Rejection(n.log, m.kind.prevIndex, m.kind.prevTerm).None? && m.kind.entries != [] {
      var es := m.kind.entries;
      AttachConsecutive(n.log, es);
      var h := HeldPrefix(n.log, es);
      if h > 0 { assert TermAt(n.log, es[h - 1].index).Some?; }
      assert ContiguousFrom(es[h..], es[0].index + h);
    }
  }

  lemma TruncatedJoins(s: Log, from: Index, es: seq<Entry>)
    requires Contiguous(s) && FirstIndex(s) < from
    ensures var at := if from <= LastIndex(s) then from else LastIndex(s) + 1;
            Contiguous(Truncated(s, from, es)) <==> ContiguousFrom(es, at)
    ensures FirstIndex(Truncated(s, from, es)) == FirstIndex(s)
  {
    var b := if from - FirstIndex(s) <= |s| then from - FirstIndex(s) else |s|;
    var t := Truncated(s, from, es);
    assert t == s[..b] + es by { assert s[..|s|] == s; }
    assert forall k | 0 <= k < |es| :: t[b + k] == es[k];
    if Contiguous(t) {
      forall k | 0 <= k < |es| ensures es[k].index == FirstIndex(s) + b + k {
        assert t[b + k].index == t[0].index + b + k;
      }
    }
  }

  /** A merge keeps the log consecutive if and only if the entries join it. */
  lemma MergeStill(n: Node, es: seq<Entry>)
    requires Contiguous(n.log) && !CutsBase(n.log, es)
    ensures Still(n, Merge(n, es)) <==> Joins(n.log, es)
    ensures Contiguous(Merge(n, es).n.log) <==> Joins(n.log, es)
  {
    if es != [] && Skipped(n.log, es) < |es| {
      TruncatedJoins(n.log, Attach(n.log, es), es[Skipped(n.log, es)..]);
    }
  }

  // ---- committing and applying -------------------------------------------------------------

  lemma {:induction false} TakenCount(es: seq<Entry>, start: Index, limit: Index)
    requires ContiguousFrom(es, start) && start <= limit + 1 <= start + |es|
    ensures TakeUpTo(es, limit) == es[..limit + 1 - start]
  {
    if es != [] && es[0].index <= limit {
      TakenCount(es[1..], start + 1, limit);
      assert es[..limit + 1 - start] == [es[0]] + es[1..][..limit - start];
    }
  }

  /** A node whose commit index has just moved ahead of what it applied. */
  predicate Behind(n: Node) {
    Contiguous(n.log) && FirstIndex(n.log) <= n.applied < n.commit <= LastIndex(n.log)
  }

  lemma Due(n: Node)
    requires Behind(n)
    ensures var a := n.applied + 1 - FirstIndex(n.log);
            0 < a < a + (n.commit - n.applied) <= |n.log| && Pending(n) == n.log[a..][..n.commit - n.applied]
  {
    var es := n.log[n.applied + 1 - FirstIndex(n.log)..];
    assert EntriesFrom(n.log, n.applied + 1) == es;
    TakenCount(es, n.applied + 1, n.commit);
  }

  /** A slice of a log as a batch right behind `pos`. */
  lemma SliceFed(s: Log, batch: seq<Entry>, pos: Index, b: nat)
    requires Contiguous(s) && FirstIndex(s) <= pos && 0 < b && pos + b <= LastIndex(s)
    requires batch == s[pos + 1 - FirstIndex(s)..][..b]
    ensures batch[b - 1].index == pos + b
    ensures forall e | e in batch :: EntryAt(s, e.index) == Some(e)
    ensures Fed(pos, [Apply(batch)]) == Some(pos + b)
  {
    var a := pos + 1 - FirstIndex(s);
    assert forall x | 0 <= x < b :: batch[x] == s[a + x];
    BatchFed(pos, batch);
  }

  lemma ApplyFeeds(n: Node)
    requires Behind(n)
    ensures var o := ApplyCommitted(n);
            && o.n == n.(applied := n.commit)
            && Fed(n.applied, o.acts) == Some(n.commit) && AppliesOwn(o.n, o.acts)
  {
    Due(n);
    var batch := Pending(n);
    SliceFed(n.log, batch, n.applied, n.commit - n.applied);
    assert ApplyCommitted(n).acts == [Apply(batch)];
  }

  /** Moving the commit index forward within the log applies exactly the entries in between. */
  lemma AdvanceFeeds(n: Node, k: Index)
    requires Steady(n) && (k > n.commit ==> k <= LastIndex(n.log))
    ensures Feeds(n, AdvanceTo(n, k))
  {
    if k > n.commit {
      var m := n.(commit := k);
      ApplyFeeds(m);
      assert m.log == n.log && m.applied == n.applied;
    }
  }

  lemma BatchFed(pos: Index, es: seq<Entry>)
    requires es != [] && ContiguousFrom(es, pos + 1)
    ensures Fed(pos, [Apply(es)]) == Some(pos + |es|)
  {
    assert [Apply(es)][1..] == [];
  }

  lemma MaybeAdvanceFeeds(n: Node)
    requires Steady(n)
    ensures Feeds(n, MaybeAdvance(n))
  {
    AdvanceFeeds(n, NewCommit(n));
  }

  lemma AcceptFeeds(n: Node, from: NodeId, es: seq<Entry>, leaderCommit: Index)
    requires Steady(n) && !CutsBase(n.log, es)
    ensures Feeds(n, Accept(n, from, es, leaderCommit)) <==> Joins(n.log, es)
    ensures !Joins(n.log, es) ==> !Steady(Accept(n, from, es, leaderCommit).n)
  {
    var a := Merge(n, es);
    var b := FollowLeaderCommit(a.n, leaderCommit);
    MergeStill(n, es);
    assert b.n.log == a.n.log;
    if Joins(n.log, es) {
      AdvanceFeeds(a.n, if leaderCommit <= LastIndex(a.n.log) then leaderCommit else LastIndex(a.n.log));
      StillThen(n, a, b);
      ThenQuiet(n, Out(b.n, a.acts + b.acts), [Reply(b.n, from, AppendEntriesResponse(true, None, None))]);
    }
  }

  lemma AppendEntriesFeeds(n: Node, m: Message, rt: nat)
    requires Steady(n) && m.kind.AppendEntries? && !Aborts(n, m)
    ensures Feeds(n, HandleAppendEntries(n, m, rt)) <==> Fits(n, m)
    ensures !Fits(n, m) ==> !Steady(HandleAppendEntries(n, m, rt).n)
  {
    if m.term < n.term {
      StillFeeds(n, HandleAppendEntries(n, m, rt));
    } else {
      var f := BecomeFollower(n, m.term, Some(m.from), rt);
      BecomeFollowerStill(n, m.term, Some(m.from), rt);
      var r := Rejection(f.n.log, m.kind.prevIndex, m.kind.prevTerm);
      if r.Some? {
        StillFeeds(f.n, Out(f.n, [Reply(f.n, m.from, r.value)]));
        StillThen(n, f, Out(f.n, [Reply(f.n, m.from, r.value)]));
      } else {
        AcceptFeeds(f.n, m.from, m.kind.entries, m.kind.leaderCommit);
        if Joins(n.log, m.kind.entries) { StillThen(n, f, Accept(f.n, m.from, m.kind.entries, m.kind.leaderCommit)); }
      }
    }
  }

  lemma InstallSnapshotFeeds(n: Node, m: Message, rt: nat)
    requires Steady(n) && m.kind.InstallSnapshot?
    ensures Feeds(n, HandleInstallSnapshot(n, m, rt))
  {
    if m.term < n.term {
      StillFeeds(n, HandleInstallSnapshot(n, m, rt));
    } else {
      var f := BecomeFollower(n, m.term, Some(m.from), rt);
      BecomeFollowerStill(n, m.term, Some(m.from), rt);
      var reply := Reply(f.n, m.from, InstallSnapshotResponse);
      if m.kind.snapIndex <= f.n.commit || !m.kind.done {
        StillFeeds(f.n, Out(f.n, [reply]));
        StillThen(n, f, Out(f.n, [reply]));
      } else {
        var s := Install(f.n, m.kind.snapIndex, m.kind.snapTerm);
        SnapshotFed(n.applied, m.kind.snapIndex, m.kind.snapTerm);
        StillThen(n, f, s);
        ThenQuiet(n, Out(s.n, f.acts + s.acts), [reply]);
      }
    }
  }

  lemma SnapshotFed(pos: Index, index: Index, term: Term)
    ensures Fed(pos, [PersistSnapshot(index, term)]) == Some(if index > pos then index else pos)
  {
    assert [PersistSnapshot(index, term)][1..] == [];
  }

  lemma CompactFeeds(n: Node, index: Index, term: Term)
    requires Steady(n)
    ensures Feeds(n, CompactLogs(n, index, term))
  {
    SnapshotFed(n.applied, index, term);
  }

  lemma ProposeFeeds(n: Node, command: Bytes)
    requires Steady(n)
    ensures Feeds(n, Propose(n, command))
  {
    if n.role == Leader {
      var a := AppendCommand(n, command);
      AppendStill(n, a.n, Entry(LastIndex(n.log) + 1, n.term, command), Broadcast(a.n));
      StillFeeds(n, a);
      if n.peers == [] {
        MaybeAdvanceFeeds(a.n);
        StillThen(n, a, MaybeAdvance(a.n));
      }
    } else {
      StillFeeds(n, Propose(n, command));
    }
  }

  lemma ResponseFeeds(n: Node, m: Message)
    requires Steady(n) && (m.kind.AppendEntriesResponse? || m.kind.InstallSnapshotResponse?)
    ensures m.kind.AppendEntriesResponse? ==> Feeds(n, HandleAppendEntriesResponse(n, m))
    ensures m.kind.InstallSnapshotResponse? ==> Feeds(n, HandleInstallSnapshotResponse(n, m))
  {
    var k := if m.kind.AppendEntriesResponse? then LastIndex(n.log) else FirstIndex(n.log);
    var l := WithAck(n, m.from, k);
    MaybeAdvanceFeeds(l);
    assert Feeds(n, MaybeAdvance(l));
    if m.kind.AppendEntriesResponse? {
      var o := HandleAppendEntriesResponse(n, m);
      if n.role != Leader || m.term != n.term || !m.kind.success { StillFeeds(n, o); }
    } else if n.role != Leader || m.term != n.term {
      StillFeeds(n, HandleInstallSnapshotResponse(n, m));
    }
  }

  lemma ClientRequestFeeds(n: Node, from: NodeId, command: Bytes)
    requires Steady(n)
    ensures Feeds(n, HandleClientRequest(n, from, command))
  {
    if n.role == Leader {
      var p := Propose(n, command);
      ProposeFeeds(n, command);
      ThenQuiet(n, p, [Reply(p.n, from, ClientResponse(true, Some(n.id)))]);
    } else {
      StillFeeds(n, HandleClientRequest(n, from, command));
    }
  }

  lemma DispatchFeeds(n: Node, m: Message, rt: nat)
    requires Steady(n) && !Aborts(n, m)
    ensures Feeds(n, Dispatch(n, m, rt)) <==> Fits(n, m)
    ensures !Fits(n, m) ==> !Steady(Dispatch(n, m, rt).n)
  {
    match m.kind
    case ClientRequest(command) => ClientRequestFeeds(n, m.from, command);
    case ClientResponse(_, _) => StillFeeds(n, Dispatch(n, m, rt));
    case AppendEntries(_, _, _, _) => AppendEntriesFeeds(n, m, rt);
    case InstallSnapshot(_, _, _) => InstallSnapshotFeeds(n, m, rt);
    case AppendEntriesResponse(_, _, _) => ResponseFeeds(n, m);
    case InstallSnapshotResponse => ResponseFeeds(n, m);
    case _ =>
      VotingStill(n, m, rt);
      StillFeeds(n, Dispatch(n, m, rt));
  }

  lemma ReceiveFeeds(n: Node, m: Message, rt: nat)
    requires Steady(n) && !Aborts(n, m)
    ensures Feeds(n, Receive(n, m, rt)) <==> Fits(n, m)
    ensures !Fits(n, m) ==> !Steady(Receive(n, m, rt).n)
  {
    if Stale(n, m) {
      StillFeeds(n, Receive(n, m, rt));
    } else {
      var b := if Bumps(n, m) then BecomeFollower(n, m.term, None, rt) else Out(n, []);
      assert Still(n, b);
      DispatchFeeds(b.n, m, rt);
      if Fits(n, m) { StillThen(n, b, Dispatch(b.n, m, rt)); }
    }
  }

  predicate FitsCall(n: Node, ev: Event) {
    ev.Recv? ==> Fits(n, ev.pkt.msg)
  }

  /** Every call that does not panic, with any message: what is applied starts right after what was
      applied before, has no gap and no repeat, consists of the node's own entries, and ends at the commit
      index, if and only if the message's entries fit the log. */
  lemma CallFeeds(n: Node, ev: Event, rt: nat)
    requires Steady(n) && !Fatal(n, ev)
    ensures Feeds(n, Handle(n, ev, rt)) <==> FitsCall(n, ev)
    ensures Steady(Handle(n, ev, rt).n) <==> FitsCall(n, ev)
  {
    match ev
    case Timer =>
      TickStill(n, rt);
      StillFeeds(n, Tick(n, rt));
    case Recv(pkt) => ReceiveFeeds(n, pkt.msg, rt);
    case Submit(command) => ProposeFeeds(n, command);
    case Compact(index, term) => CompactFeeds(n, index, term);
  }

  // ---- a whole incarnation -----------------------------------------------------------------

  datatype Input = Input(ev: Event, rt: nat)

  /** The node after the calls, and everything it emitted. */
  function Live(n: Node, calls: seq<Input>): Out
    decreases |calls|
  {
    if calls == [] then Out(n, [])
    else
      var o := Live(n, calls[..|calls| - 1]);
      var p := Handle(o.n, calls[|calls| - 1].ev, calls[|calls| - 1].rt);
      Out(p.n, o.acts + p.acts)
  }

  function Emitted(n: Node, calls: seq<Input>, k: nat): seq<Action>
    requires k < |calls|
  {
    Handle(Live(n, calls[..k]).n, calls[k].ev, calls[k].rt).acts
  }

  /** Each call finds a node that it does not make panic and whose log its entries fit. */
  predicate AllFit(n: Node, calls: seq<Input>) {
    forall k | 0 <= k < |calls| :: (var m := Live(n, calls[..k]).n; !Fatal(m, calls[k].ev) && FitsCall(m, calls[k].ev))
  }

  lemma LiveStep(n: Node, calls: seq<Input>, k: nat)
    requires k < |calls|
    ensures var o := Live(n, calls[..k]);
            Live(n, calls[..k + 1]) == Out(Handle(o.n, calls[k].ev, calls[k].rt).n, o.acts + Emitted(n, calls, k))
  {
    assert calls[..k + 1][..k] == calls[..k];
  }

  /** From start-up on, the emitted batches line up end to end, broken only by accepted snapshots, and
      each batch consists of entries in the node's log at that time. */
  lemma {:induction false} ApplyStreamExact(n: Node, calls: seq<Input>, k: nat)
    requires Steady(n) && AllFit(n, calls) && k <= |calls|
    ensures var o := Live(n, calls[..k]);
            Steady(o.n) && n.commit <= o.n.commit && Fed(n.applied, o.acts) == Some(o.n.applied)
    ensures k < |calls| ==> AppliesOwn(Live(n, calls[..k + 1]).n, Emitted(n, calls, k))
    decreases k
  {
    if k > 0 {
      var o := Live(n, calls[..k - 1]);
      ApplyStreamExact(n, calls, k - 1);
      CallFeeds(o.n, calls[k - 1].ev, calls[k - 1].rt);
      LiveStep(n, calls, k - 1);
      FedConcat(n.applied, o.acts, Emitted(n, calls, k - 1));
    }
    if k < |calls| {
      CallFeeds(Live(n, calls[..k]).n, calls[k].ev, calls[k].rt);
      LiveStep(n, calls, k);
    }
  }

  /** Messages with consecutive entries right behind `prevIndex` fit at any time. */
  lemma {:induction false} ValidCallsFit(n: Node, calls: seq<Input>, k: nat)
    requires Steady(n) && k <= |calls|
    requires forall c | c in calls :: c.ev.Recv? ==> ValidMsg(c.ev.pkt.msg)
    ensures AllFit(n, calls[..k]) && Steady(Live(n, calls[..k]).n)
    decreases k
  {
    if k > 0 {
      var m := Live(n, calls[..k - 1]).n;
      ValidCallsFit(n, calls, k - 1);
      if calls[k - 1].ev.Recv? { ValidFits(m, calls[k - 1].ev.pkt.msg); }
      CallFeeds(m, calls[k - 1].ev, calls[k - 1].rt);
      LiveStep(n, calls, k - 1);
      forall x | 0 <= x < k
        ensures (var l := Live(n, calls[..k][..x]).n; !Fatal(l, calls[..k][x].ev) && FitsCall(l, calls[..k][x].ev))
      {
        assert calls[..k][..x] == calls[..x] && calls[..k][x] == calls[x];
        if x < k - 1 { assert calls[..k - 1][..x] == calls[..x] && calls[..k - 1][x] == calls[x]; }
      }
    }
  }
}
