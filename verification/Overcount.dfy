/** A success reply does not say how far it reaches, and the leader takes it to cover its whole present
    log. This module says exactly when that is more than was acknowledged, and gives a run of three
    servers without compaction or crashes in which two state machines diverge because of it. */
module Overcount {
  import opened Types
  import opened LogSpec
  import opened Kernel
  import opened DiskSpec
  import opened Cluster
  import opened History
  import opened Election
  import opened Matching
  import opened Invariant
  import opened Protocol
  import opened Theorems
  import Consequences

  // ---- when a reply is counted for what it says --------------------------------------------

  /** In runs without compaction: the index the leader records for a peer is one the reply
      acknowledges if and only if the leader's log still ends where the answered request ended.
      Otherwise it is strictly more. */
  lemma CountedAsAcknowledged(conf: Conf, run: seq<Step>, i: NodeId, p: Packet, rt: nat)
    requires ValidConf(conf)
    requires var c := State(conf, Plain, run);
             Callable(conf, c, i, Recv(p), rt) && Counts(c.nodes[i], Recv(p))
    ensures var n := State(conf, Plain, run).nodes[i];
            var r := Receive(n, p.msg, rt).n;
            && p.msg.from in r.matched && p.ack <= r.matched[p.msg.from]
            && (r.matched[p.msg.from] == p.ack <==> LastIndex(n.log) == p.ack)
  {
    var w := Past(conf, Plain, run);
    RunInv(conf, Plain, run);
    AckWithin(conf, w, i, p);
    RecordedAtEnd(w.c.nodes[i], p.msg, rt);
  }

  lemma AckWithin(conf: Conf, w: World, i: NodeId, p: Packet)
    requires Inv(conf, Plain, w) && i in w.c.nodes && p in w.c.sent && Counts(w.c.nodes[i], Recv(p))
    ensures p.ack <= LastIndex(w.c.nodes[i].log)
  {
    var n := w.c.nodes[i];
    assert NodeB(w.h, i, n, w.c.disks[i]) && MsgB(w.h, p) && MsgE(conf, w.h, w.c.disks, p.msg);
    assert DiskB(w.h, p.msg.from, w.c.disks[p.msg.from]) && DiskB(w.h, i, w.c.disks[i]);
    AckInLog(w.h, n, w.c.disks[p.msg.from], p);
  }

  lemma AckInLog(h: Hist, n: Node, d: Disk, p: Packet)
    requires AcksBelow(h, p.msg.from, d.term + 1) && (p.msg.from, n.term, p.ack) in h.acks
    requires n.term in h.logs && h.logs[n.term] == n.log && LogOk(h.logs, n.log)
    ensures p.ack <= LastIndex(n.log)
  {
    Consecutive(h.logs, n.log);
  }

  lemma RecordedAtEnd(n: Node, m: Message, rt: nat)
    requires m.kind.AppendEntriesResponse? && m.kind.success && n.role == Leader && m.term == n.term
    ensures Receive(n, m, rt).n.matched == n.matched[m.from := LastIndex(n.log)]
  {}

  // ---- divergence ---------------------------------------------------------------------------

  const CONF := Conf({1, 2, 3}, map[1 := [2, 3], 2 := [1, 3], 3 := [1, 2]], 2, 1)

  function Mail(ack: Index, acts: seq<Action>): set<Packet> {
    set a | a in acts && a.Send? :: Packet(a.msg, ack)
  }

  /** The servers after a run, and some of the mail sent so far. */
  ghost predicate Reached(run: seq<Step>, nodes: map<NodeId, Node>, mail: set<Packet>) {
    var w := State(CONF, Plain, run);
    && w.nodes == nodes && mail <= w.sent && nodes.Keys == w.disks.Keys == {1, 2, 3}
    && (forall s | s in run :: s.Call? || s.Spawn?)
  }

  /** A call takes server i from n to n' and sends `more`. */
  ghost predicate Turn(i: NodeId, n: Node, ev: Event, n': Node, more: set<Packet>) {
    && !ev.Compact? && (ev.Recv? ==> ev.pkt.msg.to == i && ValidMsg(ev.pkt.msg))
    && Handle(n, ev, 2).n == n' && more <= Mail(AckOf(ev), Handle(n, ev, 2).acts)
  }

  lemma {:induction false} MailSent(c: Net, i: NodeId, ack: Index, acts: seq<Action>)
    requires i in c.disks
    ensures ActAll(c, i, ack, acts).sent == c.sent + Mail(ack, acts)
    decreases |acts|
  {
    if acts != [] {
      MailSent(Act(c, i, ack, acts[0]), i, ack, acts[1..]);
    }
  }

  /** One call of the run; of the mail only `left` is of further interest. */
  lemma Fire(run: seq<Step>, nodes: map<NodeId, Node>, mail: set<Packet>,
             i: NodeId, ev: Event, n: Node, more: set<Packet>, left: set<Packet>)
    returns (r: seq<Step>)
    requires Reached(run, nodes, mail) && i in nodes && Turn(i, nodes[i], ev, n, more) && (ev.Recv? ==> ev.pkt in mail)
    requires left <= mail + more
    ensures Reached(r, nodes[i := n], left)
  {
    r := run + [Call(i, ev, 2)];
    var w := State(CONF, Plain, run);
    assert r[..|r| - 1] == run;
    Called(w, i, ev);
  }

  lemma Placed(a: Node, b: Node, c: Node, a': Node, b': Node, c': Node)
    ensures map[1 := a, 2 := b, 3 := c][1 := a'] == map[1 := a', 2 := b, 3 := c]
    ensures map[1 := a, 2 := b, 3 := c][2 := b'] == map[1 := a, 2 := b', 3 := c]
    ensures map[1 := a, 2 := b, 3 := c][3 := c'] == map[1 := a, 2 := b, 3 := c']
  {}

  lemma TimeOut(run: seq<Step>, nodes: map<NodeId, Node>, i: NodeId, n1: Node, n2: Node, more: set<Packet>)
    returns (r: seq<Step>)
    requires Reached(run, nodes, {}) && i in nodes && Turn(i, nodes[i], Timer, n1, {}) && Turn(i, n1, Timer, n2, more)
    ensures Reached(r, nodes[i := n2], more)
  {
    r := Fire(run, nodes, {}, i, Timer, n1, {}, {});
    r := Fire(r, nodes[i := n1], {}, i, Timer, n2, more, more);
    assert nodes[i := n1][i := n2] == nodes[i := n2];
  }

  lemma Called(w: Net, i: NodeId, ev: Event)
    requires i in w.nodes && i in w.disks && !ev.Compact?
    requires ev.Recv? ==> ev.pkt in w.sent && ev.pkt.msg.to == i && ValidMsg(ev.pkt.msg)
    ensures Allowed(CONF, Plain, w, Call(i, ev, 2))
    ensures var v, o := Next(CONF, w, Call(i, ev, 2)), Handle(w.nodes[i], ev, 2);
            && v.nodes == w.nodes[i := o.n] && v.sent == w.sent + Mail(AckOf(ev), o.acts)
            && v.disks.Keys == w.disks.Keys
  {
    if ev.Recv? { Consequences.ValidNeverAborts(w.nodes[i], ev.pkt.msg); }
    MailSent(w, i, AckOf(ev), Handle(w.nodes[i], ev, 2).acts);
  }

  const A0 := Fresh(1, [2, 3], 2, 1, 2, 0, None, [SENTINEL], 0, 0)
  const B0 := Fresh(2, [1, 3], 2, 1, 2, 0, None, [SENTINEL], 0, 0)
  const C0 := Fresh(3, [1, 2], 2, 1, 2, 0, None, [SENTINEL], 0, 0)

  lemma Start() returns (run: seq<Step>)
    ensures Reached(run, map[1 := A0, 2 := B0, 3 := C0], {})
  {
    var s1, s2, s3 := [Spawn(1, 2)], [Spawn(1, 2), Spawn(2, 2)], [Spawn(1, 2), Spawn(2, 2), Spawn(3, 2)];
    assert s1[..0] == [] && s2[..1] == s1 && s3[..2] == s2;
    assert forall i | i in CONF.ids :: Initial(CONF).disks[i] == BLANK;
    assert State(CONF, Plain, []) == Initial(CONF);
    assert BLANK.log[1..] == [];
    assert Boot(CONF, 1, BLANK, 2) == A0;
    assert State(CONF, Plain, s1).nodes == map[1 := A0];
    assert State(CONF, Plain, s2).nodes == map[1 := A0, 2 := B0];
    run := s3;
  }

  const E1 := Entry(1, 1, [])
  const X2 := Entry(2, 1, [7])
  const Y2 := Entry(2, 2, [])

  // Server 1: elected in term 1, appends X2, and counts a reply to its first entry for both.
  const A1 := A0.(elapsed := 1)
  const A2 := A0.(role := PreCandidate, preVotes := {1})
  const A3 := A2.(preVotes := {1, 2}, term := 1, role := Candidate, voted := Some(1), votes := {1})
  const A4 := A3.(votes := {1, 2}, role := Leader, leader := Some(1), next := map[2 := 1, 3 := 1],
                  matched := map[2 := 0, 3 := 0], log := [SENTINEL, E1])
  const A5 := A4.(log := [SENTINEL, E1, X2])
  const A6 := A5.(next := map[2 := 3, 3 := 1], matched := map[2 := 2, 3 := 0], commit := 2, applied := 2)

  const ASK2 := Message(1, 2, 1, PreVote(0, 0))
  const YES2 := Message(2, 1, 0, PreVoteResponse(true))
  const RUN2 := Message(1, 2, 1, RequestVote(0, 0))
  const RUN3 := Message(1, 3, 1, RequestVote(0, 0))
  const AYE2 := Message(2, 1, 1, RequestVoteResponse(true))
  const ADD2 := Message(1, 2, 1, AppendEntries(0, 0, [E1], 0))
  const ACK2 := Message(2, 1, 1, AppendEntriesResponse(true, None, None))

  lemma Peers(n: Node, a: NodeId, b: NodeId, term: Term, kind: Kind)
    requires n.peers == [a, b]
    ensures ToPeers(n, term, kind) == [Send(Message(n.id, a, term, kind)), Send(Message(n.id, b, term, kind))]
    ensures Broadcast(n) == [Replicate(n, a), Replicate(n, b)]
  {}

  lemma FirstElection()
    ensures Turn(1, A0, Timer, A1, {})
    ensures Turn(1, A1, Timer, A2, {Packet(ASK2, 0)})
    ensures Turn(1, A2, Recv(Packet(YES2, 0)), A3, {Packet(RUN2, 0), Packet(RUN3, 0)})
  {
    Peers(A2, 2, 3, 1, PreVote(0, 0));
    assert Tick(A1, 2) == Canvass(A0, 2);
    assert Tick(A1, 2).acts[0] == Send(ASK2);
    var m := A2.(preVotes := {1, 2});
    assert A2.preVotes + {2} == {1, 2};
    assert Receive(A2, YES2, 2) == StartRealElection(m, 2);
    Peers(A3, 2, 3, 1, RequestVote(0, 0));
    assert Campaign(m, 2) == Out(A3, [PersistHardState(1, Some(1)), Send(RUN2), Send(RUN3)]);
    assert Receive(A2, YES2, 2).acts[1] == Send(RUN2) && Receive(A2, YES2, 2).acts[2] == Send(RUN3);
  }

  lemma FirstLeader()
    ensures Turn(1, A3, Recv(Packet(AYE2, 0)), A4, {Packet(ADD2, 0)})
  {
    var m := A3.(votes := {1, 2});
    assert A3.votes + {2} == {1, 2};
    assert Receive(A3, AYE2, 2) == BecomeLeader(m);
    Crowned(m, 2, 3, A4, E1);
    assert Replicate(A4, 2) == Send(ADD2);
    assert BecomeLeader(m).acts[1] == Send(ADD2);
  }

  lemma Crowned(m: Node, a: NodeId, b: NodeId, l: Node, e: Entry)
    requires m.peers == [a, b] && e == Entry(LastIndex(m.log) + 1, m.term, [])
    requires l == m.(role := Leader, leader := Some(m.id), heartbeatElapsed := 0, log := m.log + [e],
                     next := map[a := e.index, b := e.index], matched := map[a := 0, b := 0])
    ensures BecomeLeader(m).n == l && BecomeLeader(m).acts == [AppendLog([e]), Replicate(l, a), Replicate(l, b)]
  {
    assert ForEach(m.peers, e.index) == map[a := e.index, b := e.index];
    assert ForEach(m.peers, 0) == map[a := 0, b := 0];
    assert BecomeLeader(m).n == l;
    Peers(l, a, b, 0, PreVoteResponse(true));
  }

  lemma Proposed()
    ensures Turn(1, A4, Submit([7]), A5, {})
  {}

  /** The leader of term 1 commits index 2, which no other server holds. */
  lemma Overcommit()
    ensures Turn(1, A5, Recv(Packet(ACK2, 1)), A6, {})
  {
    var w := A5.(next := map[2 := 3, 3 := 1], matched := map[2 := 2, 3 := 0]);
    assert WithAck(A5, 2, 2) == w;
    assert Receive(A5, ACK2, 2) == MaybeAdvance(w);
    OneVoteEnough(w, 2);
    CommitBoth(w, E1, X2);
  }

  lemma OneVoteEnough(w: Node, p: NodeId)
    requires |w.log| == 3 && Contiguous(w.log) && w.log[0] == SENTINEL && w.commit == 0
    requires w.log[2].term == w.term && |w.peers| == 2 && w.peers[0] != w.peers[1]
    requires p in w.peers && MatchAt(w.matched, p) == 2
    ensures NewCommit(w) == 2
  {
    assert PeerSupport(w.matched, w.peers, 2)
        == (if MatchAt(w.matched, w.peers[0]) >= 2 then 1 else 0) + PeerSupport(w.matched, w.peers[1..], 2);
    assert PeerSupport(w.matched, w.peers[1..], 2) == (if MatchAt(w.matched, w.peers[1]) >= 2 then 1 else 0);
    assert Committable(w, 2);
  }

  lemma CommitBoth(w: Node, a: Entry, b: Entry)
    requires w.log == [SENTINEL, a, b] && a.index == 1 && b.index == 2 && w.commit == 0 && w.applied == 0
    requires NewCommit(w) == 2
    ensures MaybeAdvance(w) == Out(w.(commit := 2, applied := 2), [Apply([a, b])])
  {
    var m := w.(commit := 2);
    assert EntriesFrom(m.log, 1) == [a, b];
    assert TakeUpTo([b], 2) == [b];
    assert TakeUpTo([a, b], 2) == [a, b];
    assert Pending(m) == [a, b];
  }

  // Server 2 votes for server 1, takes its first entry, and later leads term 2.
  const B1 := B0.(term := 1, voted := Some(1))
  const B2 := B1.(leader := Some(1), log := [SENTINEL, E1])
  const B3 := B2.(elapsed := 1)
  const B4 := B2.(role := PreCandidate, preVotes := {2})
  const B5 := B4.(preVotes := {2, 3}, term := 2, role := Candidate, voted := Some(2), votes := {2})
  const B6 := B5.(votes := {2, 3}, role := Leader, leader := Some(2), next := map[1 := 2, 3 := 2],
                  matched := map[1 := 0, 3 := 0], log := [SENTINEL, E1, Y2])
  const B7 := B6.(next := map[1 := 2, 3 := 1])
  const B8 := B7.(next := map[1 := 2, 3 := 3], matched := map[1 := 0, 3 := 2], commit := 2, applied := 2)

  // Server 3 votes for both.
  const C1 := C0.(term := 1, voted := Some(1))
  const C2 := C1.(term := 2, voted := Some(2))
  const C3 := C2.(leader := Some(2))
  const C4 := C3.(log := [SENTINEL, E1, Y2])

  const ASK3 := Message(2, 3, 2, PreVote(1, 1))
  const YES3 := Message(3, 2, 1, PreVoteResponse(true))
  const RIVAL3 := Message(2, 3, 2, RequestVote(1, 1))
  const AYE3 := Message(3, 2, 2, RequestVoteResponse(true))
  const ADD3 := Message(2, 3, 2, AppendEntries(1, 1, [Y2], 0))
  const NO3 := Message(3, 2, 2, AppendEntriesResponse(false, None, Some(1)))
  const BOTH3 := Message(2, 3, 2, AppendEntries(0, 0, [E1, Y2], 0))
  const ACK3 := Message(3, 2, 2, AppendEntriesResponse(true, None, None))

  lemma SecondVotes()
    ensures Turn(2, B0, Recv(Packet(ASK2, 0)), B0, {Packet(YES2, 0)})
    ensures Turn(2, B0, Recv(Packet(RUN2, 0)), B1, {Packet(AYE2, 0)})
    ensures Turn(3, C0, Recv(Packet(RUN3, 0)), C1, {})
    ensures Turn(3, C1, Recv(Packet(ASK3, 0)), C1, {Packet(YES3, 0)})
    ensures Turn(3, C1, Recv(Packet(RIVAL3, 0)), C2, {Packet(AYE3, 0)})
  {
    assert Receive(B0, ASK2, 2).acts[0] == Send(YES2);
    assert Receive(B0, RUN2, 2).acts[2] == Send(AYE2);
    assert Receive(C1, ASK3, 2).acts[0] == Send(YES3);
    assert Receive(C1, RIVAL3, 2).acts[2] == Send(AYE3);
  }

  lemma TakesEntries(n: Node, m: Message, s: seq<Entry>)
    requires m.kind == AppendEntries(0, 0, s, 0) && ValidMsg(m) && m.term == n.term && n.role == Follower
    requires n.log == [SENTINEL] && n.commit == 0 && n.elapsed == 0 && n.timeout == 2 && s != []
    ensures var r := Message(n.id, m.from, n.term, AppendEntriesResponse(true, None, None));
            var n' := n.(leader := Some(m.from), log := [SENTINEL] + s);
            m.to == n.id ==> Turn(n.id, n, Recv(Packet(m, 0)), n', {Packet(r, |s|)})
  {
    assert HeldPrefix(n.log, s) == 0;
    var r := Send(Message(n.id, m.from, n.term, AppendEntriesResponse(true, None, None)));
    assert Receive(n, m, 2).acts == [TruncateAndAppend(1, s), r];
    assert Receive(n, m, 2).acts[1] == r;
  }

  lemma Accepted()
    ensures Turn(2, B1, Recv(Packet(ADD2, 0)), B2, {Packet(ACK2, 1)})
    ensures Turn(3, C3, Recv(Packet(BOTH3, 0)), C4, {Packet(ACK3, 2)})
  {
    TakesEntries(B1, ADD2, [E1]);
    TakesEntries(C3, BOTH3, [E1, Y2]);
  }

  lemma SecondElection()
    ensures Turn(2, B2, Timer, B3, {})
    ensures Turn(2, B3, Timer, B4, {Packet(ASK3, 0)})
    ensures Turn(2, B4, Recv(Packet(YES3, 0)), B5, {Packet(RIVAL3, 0)})
  {
    Peers(B4, 1, 3, 2, PreVote(1, 1));
    assert Tick(B3, 2) == Canvass(B2, 2);
    assert Tick(B3, 2).acts[1] == Send(ASK3);
    var m := B4.(preVotes := {2, 3});
    assert B4.preVotes + {3} == {2, 3};
    assert Receive(B4, YES3, 2) == StartRealElection(m, 2);
    Peers(B5, 1, 3, 2, RequestVote(1, 1));
    assert Campaign(m, 2).n == B5;
    assert Receive(B4, YES3, 2).acts[2] == Send(RIVAL3);
  }

  lemma SecondLeader()
    ensures Turn(2, B5, Recv(Packet(AYE3, 0)), B6, {Packet(ADD3, 0)})
  {
    var m := B5.(votes := {2, 3});
    assert B5.votes + {3} == {2, 3};
    assert Receive(B5, AYE3, 2) == BecomeLeader(m);
    Crowned(m, 1, 3, B6, Y2);
    assert Replicate(B6, 3) == Send(ADD3);
    assert BecomeLeader(m).acts[2] == Send(ADD3);
  }

  lemma Refused()
    ensures Turn(3, C2, Recv(Packet(ADD3, 0)), C3, {Packet(NO3, 2)})
  {
    assert Receive(C2, ADD3, 2).acts[0] == Send(NO3);
  }

  lemma Backtracked()
    ensures Turn(2, B6, Recv(Packet(NO3, 2)), B7, {Packet(BOTH3, 0)})
  {
    assert Replicate(B7, 3) == Send(BOTH3);
    assert Receive(B6, NO3, 2).acts[0] == Send(BOTH3);
  }

  /** The leader of term 2 commits its own entry at index 2. */
  lemma SecondCommit()
    ensures Turn(2, B7, Recv(Packet(ACK3, 2)), B8, {})
  {
    var w := B7.(next := map[1 := 2, 3 := 3], matched := map[1 := 0, 3 := 2]);
    assert WithAck(B7, 3, 2) == w;
    assert Receive(B7, ACK3, 2) == MaybeAdvance(w);
    OneVoteEnough(w, 3);
    CommitBoth(w, E1, Y2);
  }

  lemma FirstTimeOut(run: seq<Step>) returns (r: seq<Step>)
    requires Reached(run, map[1 := A0, 2 := B0, 3 := C0], {})
    ensures Reached(r, map[1 := A2, 2 := B0, 3 := C0], {Packet(ASK2, 0)})
  {
    FirstElection();
    r := TimeOut(run, map[1 := A0, 2 := B0, 3 := C0], 1, A1, A2, {Packet(ASK2, 0)});
  }

  lemma FirstAsked(run: seq<Step>) returns (r: seq<Step>)
    requires Reached(run, map[1 := A2, 2 := B0, 3 := C0], {Packet(ASK2, 0)})
    ensures Reached(r, map[1 := A2, 2 := B0, 3 := C0], {Packet(YES2, 0)})
  {
    SecondVotes();
    r := Fire(run, map[1 := A2, 2 := B0, 3 := C0], {Packet(ASK2, 0)},
              2, Recv(Packet(ASK2, 0)), B0, {Packet(YES2, 0)}, {Packet(YES2, 0)});
  }

  lemma FirstPreVote(run: seq<Step>) returns (r: seq<Step>)
    requires Reached(run, map[1 := A2, 2 := B0, 3 := C0], {Packet(YES2, 0)})
    ensures Reached(r, map[1 := A3, 2 := B0, 3 := C0], {Packet(RUN2, 0), Packet(RUN3, 0)})
  {
    FirstElection();
    r := Fire(run, map[1 := A2, 2 := B0, 3 := C0], {Packet(YES2, 0)},
              1, Recv(Packet(YES2, 0)), A3, {Packet(RUN2, 0), Packet(RUN3, 0)}, {Packet(RUN2, 0), Packet(RUN3, 0)});
  }

  lemma FirstVote(run: seq<Step>) returns (r: seq<Step>)
    requires Reached(run, map[1 := A3, 2 := B0, 3 := C0], {Packet(RUN2, 0), Packet(RUN3, 0)})
    ensures Reached(r, map[1 := A3, 2 := B1, 3 := C0], {Packet(RUN3, 0), Packet(AYE2, 0)})
  {
    SecondVotes();
    r := Fire(run, map[1 := A3, 2 := B0, 3 := C0], {Packet(RUN2, 0), Packet(RUN3, 0)},
              2, Recv(Packet(RUN2, 0)), B1, {Packet(AYE2, 0)}, {Packet(RUN3, 0), Packet(AYE2, 0)});
  }

  lemma FirstCrowned(run: seq<Step>) returns (r: seq<Step>)
    requires Reached(run, map[1 := A3, 2 := B1, 3 := C0], {Packet(RUN3, 0), Packet(AYE2, 0)})
    ensures Reached(r, map[1 := A4, 2 := B1, 3 := C0], {Packet(RUN3, 0), Packet(ADD2, 0)})
  {
    FirstLeader();
    r := Fire(run, map[1 := A3, 2 := B1, 3 := C0], {Packet(RUN3, 0), Packet(AYE2, 0)},
              1, Recv(Packet(AYE2, 0)), A4, {Packet(ADD2, 0)}, {Packet(RUN3, 0), Packet(ADD2, 0)});
  }

  lemma LateVote(run: seq<Step>) returns (r: seq<Step>)
    requires Reached(run, map[1 := A4, 2 := B1, 3 := C0], {Packet(RUN3, 0), Packet(ADD2, 0)})
    ensures Reached(r, map[1 := A4, 2 := B1, 3 := C1], {Packet(ADD2, 0)})
  {
    SecondVotes();
    r := Fire(run, map[1 := A4, 2 := B1, 3 := C0], {Packet(RUN3, 0), Packet(ADD2, 0)},
              3, Recv(Packet(RUN3, 0)), C1, {}, {Packet(ADD2, 0)});
  }

  lemma FirstProposal(run: seq<Step>) returns (r: seq<Step>)
    requires Reached(run, map[1 := A4, 2 := B1, 3 := C1], {Packet(ADD2, 0)})
    ensures Reached(r, map[1 := A5, 2 := B1, 3 := C1], {Packet(ADD2, 0)})
  {
    Proposed();
    r := Fire(run, map[1 := A4, 2 := B1, 3 := C1], {Packet(ADD2, 0)},
              1, Submit([7]), A5, {}, {Packet(ADD2, 0)});
  }

  lemma FirstAccepted(run: seq<Step>) returns (r: seq<Step>)
    requires Reached(run, map[1 := A5, 2 := B1, 3 := C1], {Packet(ADD2, 0)})
    ensures Reached(r, map[1 := A5, 2 := B2, 3 := C1], {Packet(ACK2, 1)})
  {
    Accepted();
    r := Fire(run, map[1 := A5, 2 := B1, 3 := C1], {Packet(ADD2, 0)},
              2, Recv(Packet(ADD2, 0)), B2, {Packet(ACK2, 1)}, {Packet(ACK2, 1)});
  }

  lemma FirstCommitted(run: seq<Step>) returns (r: seq<Step>)
    requires Reached(run, map[1 := A5, 2 := B2, 3 := C1], {Packet(ACK2, 1)})
    ensures Reached(r, map[1 := A6, 2 := B2, 3 := C1], {})
  {
    Overcommit();
    r := Fire(run, map[1 := A5, 2 := B2, 3 := C1], {Packet(ACK2, 1)},
              1, Recv(Packet(ACK2, 1)), A6, {}, {});
  }

  lemma SecondTimeOut(run: seq<Step>, a: Node) returns (r: seq<Step>)
    requires Reached(run, map[1 := a, 2 := B2, 3 := C1], {})
    ensures Reached(r, map[1 := a, 2 := B4, 3 := C1], {Packet(ASK3, 0)})
  {
    SecondElection();
    r := TimeOut(run, map[1 := a, 2 := B2, 3 := C1], 2, B3, B4, {Packet(ASK3, 0)});
  }

  lemma SecondAsked(run: seq<Step>, a: Node) returns (r: seq<Step>)
    requires Reached(run, map[1 := a, 2 := B4, 3 := C1], {Packet(ASK3, 0)})
    ensures Reached(r, map[1 := a, 2 := B4, 3 := C1], {Packet(YES3, 0)})
  {
    SecondVotes();
    r := Fire(run, map[1 := a, 2 := B4, 3 := C1], {Packet(ASK3, 0)},
              3, Recv(Packet(ASK3, 0)), C1, {Packet(YES3, 0)}, {Packet(YES3, 0)});
  }

  lemma SecondPreVote(run: seq<Step>, a: Node) returns (r: seq<Step>)
    requires Reached(run, map[1 := a, 2 := B4, 3 := C1], {Packet(YES3, 0)})
    ensures Reached(r, map[1 := a, 2 := B5, 3 := C1], {Packet(RIVAL3, 0)})
  {
    SecondElection();
    r := Fire(run, map[1 := a, 2 := B4, 3 := C1], {Packet(YES3, 0)},
              2, Recv(Packet(YES3, 0)), B5, {Packet(RIVAL3, 0)}, {Packet(RIVAL3, 0)});
  }

  lemma SecondVote(run: seq<Step>, a: Node) returns (r: seq<Step>)
    requires Reached(run, map[1 := a, 2 := B5, 3 := C1], {Packet(RIVAL3, 0)})
    ensures Reached(r, map[1 := a, 2 := B5, 3 := C2], {Packet(AYE3, 0)})
  {
    SecondVotes();
    r := Fire(run, map[1 := a, 2 := B5, 3 := C1], {Packet(RIVAL3, 0)},
              3, Recv(Packet(RIVAL3, 0)), C2, {Packet(AYE3, 0)}, {Packet(AYE3, 0)});
  }

  lemma SecondCrowned(run: seq<Step>, a: Node) returns (r: seq<Step>)
    requires Reached(run, map[1 := a, 2 := B5, 3 := C2], {Packet(AYE3, 0)})
    ensures Reached(r, map[1 := a, 2 := B6, 3 := C2], {Packet(ADD3, 0)})
  {
    SecondLeader();
    r := Fire(run, map[1 := a, 2 := B5, 3 := C2], {Packet(AYE3, 0)},
              2, Recv(Packet(AYE3, 0)), B6, {Packet(ADD3, 0)}, {Packet(ADD3, 0)});
  }

  lemma Probed(run: seq<Step>) returns (r: seq<Step>)
    requires Reached(run, map[1 := A6, 2 := B6, 3 := C2], {Packet(ADD3, 0)})
    ensures Reached(r, map[1 := A6, 2 := B6, 3 := C3], {Packet(NO3, 2)})
  {
    Refused();
    r := Fire(run, map[1 := A6, 2 := B6, 3 := C2], {Packet(ADD3, 0)},
              3, Recv(Packet(ADD3, 0)), C3, {Packet(NO3, 2)}, {Packet(NO3, 2)});
  }

  lemma Reprobed(run: seq<Step>) returns (r: seq<Step>)
    requires Reached(run, map[1 := A6, 2 := B6, 3 := C3], {Packet(NO3, 2)})
    ensures Reached(r, map[1 := A6, 2 := B7, 3 := C3], {Packet(BOTH3, 0)})
  {
    Backtracked();
    r := Fire(run, map[1 := A6, 2 := B6, 3 := C3], {Packet(NO3, 2)},
              2, Recv(Packet(NO3, 2)), B7, {Packet(BOTH3, 0)}, {Packet(BOTH3, 0)});
  }

  lemma SecondAccepted(run: seq<Step>) returns (r: seq<Step>)
    requires Reached(run, map[1 := A6, 2 := B7, 3 := C3], {Packet(BOTH3, 0)})
    ensures Reached(r, map[1 := A6, 2 := B7, 3 := C4], {Packet(ACK3, 2)})
  {
    Accepted();
    Placed(A6, B7, C3, A6, B7, C4);
    r := Fire(run, map[1 := A6, 2 := B7, 3 := C3], {Packet(BOTH3, 0)},
              3, Recv(Packet(BOTH3, 0)), C4, {Packet(ACK3, 2)}, {Packet(ACK3, 2)});
  }

  lemma SecondCommitted(run: seq<Step>) returns (r: seq<Step>)
    requires Reached(run, map[1 := A6, 2 := B7, 3 := C4], {Packet(ACK3, 2)})
    ensures Reached(r, map[1 := A6, 2 := B8, 3 := C4], {})
  {
    SecondCommit();
    r := Fire(run, map[1 := A6, 2 := B7, 3 := C4], {Packet(ACK3, 2)},
              2, Recv(Packet(ACK3, 2)), B8, {}, {});
  }

  /** Server 1 leads term 1 and has made its first proposal. */
  lemma FirstLeadership() returns (r: seq<Step>)
    ensures Reached(r, map[1 := A5, 2 := B1, 3 := C1], {Packet(ADD2, 0)})
  {
    r := Start();
    r := FirstTimeOut(r);
    r := FirstAsked(r);
    r := FirstPreVote(r);
    r := FirstVote(r);
    r := FirstCrowned(r);
    r := LateVote(r);
    r := FirstProposal(r);
  }

  lemma FirstTerm() returns (r: seq<Step>)
    ensures Reached(r, map[1 := A6, 2 := B2, 3 := C1], {})
  {
    r := FirstLeadership();
    r := FirstAccepted(r);
    r := FirstCommitted(r);
  }

  lemma SecondTerm(run: seq<Step>) returns (r: seq<Step>)
    requires Reached(run, map[1 := A6, 2 := B2, 3 := C1], {})
    ensures Reached(r, map[1 := A6, 2 := B8, 3 := C4], {})
  {
    r := SecondTimeOut(run, A6);
    r := SecondAsked(r, A6);
    r := SecondPreVote(r, A6);
    r := SecondVote(r, A6);
    r := SecondCrowned(r, A6);
    r := Probed(r);
    r := Reprobed(r);
    r := SecondAccepted(r);
    r := SecondCommitted(r);
  }

  lemma Differ()
    ensures A6.applied == 2 && A6.commit == 2 && A6.term == 1 && EntryAt(A6.log, 2) == Some(X2)
    ensures B8.applied == 2 && B8.role == Leader && B8.term == 2 && EntryAt(B8.log, 2) == Some(Y2)
  {}

  /** Without the restriction of `Exact`, State Machine Safety fails: two live servers have applied
      different entries at index 2, in a run without compaction, crashes or restarts. So does Leader
      Completeness: server 1 committed its entry in term 1, and server 2 leads term 2 without it. */
  lemma StateMachinesDiverge() returns (run: seq<Step>)
    ensures ValidConf(CONF)
    ensures forall s | s in run :: s.Call? || s.Spawn?
    ensures var nodes := State(CONF, Plain, run).nodes;
            && 1 in nodes && nodes[1].applied == 2 && EntryAt(nodes[1].log, 2) == Some(X2)
            && 2 in nodes && nodes[2].applied == 2 && EntryAt(nodes[2].log, 2) == Some(Y2)
            && nodes[1].commit == 2 && nodes[1].term == 1 && Leads(State(CONF, Plain, run), 2, 2)
            && !Agree(nodes[1].log, nodes[2].log, 2)
  {
    run := FirstTerm();
    run := SecondTerm(run);
    Differ();
    Configured();
    assert A6.log[2] == X2 && B8.log[2] == Y2;
  }

  lemma Configured()
    ensures ValidConf(CONF)
  {}
}
