/** Why the run-time log matching check needs compaction to stay at or above the retained base: a run of
    two servers in which one restarts with a hole in its log and the check reports an error, although no
    two servers ever created different entries. */
module Clashing {
  import opened Types
  import opened LogSpec
  import opened Kernel
  import opened DiskSpec
  import opened Cluster
  import opened Checkers
  import opened Overcount
  import Mirror

  const TWO := Conf({1, 2}, map[1 := [2], 2 := [1]], 2, 1)

  /** Both servers, the disk of server 1, and some of the mail sent so far. */
  ghost predicate Stands(run: seq<Step>, a: Node, b: Node, d: Disk, mail: set<Packet>) {
    var c := State(TWO, Any, run);
    c.nodes == map[1 := a, 2 := b] && c.disks.Keys == {1, 2} && c.disks[1] == d && mail <= c.sent
  }

  ghost predicate Does(i: NodeId, n: Node, ev: Event, n': Node, acts: seq<Action>) {
    && (ev.Recv? ==> ev.pkt.msg.to == i && ValidMsg(ev.pkt.msg))
    && Handle(n, ev, 2) == Out(n', acts)
  }

  lemma Called(c: Net, i: NodeId, ev: Event)
    requires i in c.nodes && i in c.disks
    requires ev.Recv? ==> ev.pkt in c.sent && ev.pkt.msg.to == i && ValidMsg(ev.pkt.msg)
    ensures Allowed(TWO, Any, c, Call(i, ev, 2))
    ensures var v, o := Next(TWO, c, Call(i, ev, 2)), Handle(c.nodes[i], ev, 2);
            && v.nodes == c.nodes[i := o.n] && v.sent == c.sent + Mail(AckOf(ev), o.acts)
            && v.disks == c.disks[i := Mirror.WriteAll(c.disks[i], o.acts)]
  {
    if ev.Recv? { Consequences.ValidNeverAborts(c.nodes[i], ev.pkt.msg); }
    MailSent(c, i, AckOf(ev), Handle(c.nodes[i], ev, 2).acts);
    Mirror.ActAllWrites(c, i, AckOf(ev), Handle(c.nodes[i], ev, 2).acts);
  }

  /** A call of server 1, which writes its disk. */
  lemma Fire1(run: seq<Step>, a: Node, b: Node, d: Disk, mail: set<Packet>,
              ev: Event, a': Node, acts: seq<Action>, d': Disk, left: set<Packet>)
    returns (r: seq<Step>)
    requires Stands(run, a, b, d, mail) && Does(1, a, ev, a', acts) && (ev.Recv? ==> ev.pkt in mail)
    requires d' == Mirror.WriteAll(d, acts) && left <= mail + Mail(AckOf(ev), acts)
    ensures Stands(r, a', b, d', left)
  {
    r := run + [Call(1, ev, 2)];
    var c := State(TWO, Any, run);
    assert r[..|r| - 1] == run;
    Called(c, 1, ev);
    Put(a, b, a', b);
  }

  lemma Fire2(run: seq<Step>, a: Node, b: Node, d: Disk, mail: set<Packet>,
              ev: Event, b': Node, acts: seq<Action>, left: set<Packet>)
    returns (r: seq<Step>)
    requires Stands(run, a, b, d, mail) && Does(2, b, ev, b', acts) && (ev.Recv? ==> ev.pkt in mail)
    requires left <= mail + Mail(AckOf(ev), acts)
    ensures Stands(r, a, b', d, left)
  {
    r := run + [Call(2, ev, 2)];
    var c := State(TWO, Any, run);
    assert r[..|r| - 1] == run;
    Called(c, 2, ev);
    Put(a, b, a, b');
  }

  lemma Put(a: Node, b: Node, a': Node, b': Node)
    ensures map[1 := a, 2 := b][1 := a'] == map[1 := a', 2 := b]
    ensures map[1 := a, 2 := b][2 := b'] == map[1 := a, 2 := b']
  {}

  lemma Restart1(run: seq<Step>, a: Node, b: Node, d: Disk) returns (r: seq<Step>)
    requires Stands(run, a, b, d, {})
    ensures Stands(r, Boot(TWO, 1, d, 2), b, d, {})
  {
    var s := run + [Crash(1)];
    r := s + [Spawn(1, 2)];
    assert s[..|s| - 1] == run && r[..|r| - 1] == s;
    assert State(TWO, Any, s).nodes == map[2 := b];
  }

  // ---- the servers -------------------------------------------------------------------------

  const E3 := Entry(3, 1, [8])
  const BASE1 := Entry(1, 1, [])
  const BASE2 := Entry(2, 1, [])

  const P0 := Fresh(1, [2], 2, 1, 2, 0, None, [SENTINEL], 0, 0)
  const P1 := P0.(elapsed := 1)
  const P2 := P0.(role := PreCandidate, preVotes := {1})
  const P3 := P2.(preVotes := {1, 2}, term := 1, role := Candidate, voted := Some(1), votes := {1})
  const P4 := P3.(votes := {1, 2}, role := Leader, leader := Some(1), next := map[2 := 1],
                  matched := map[2 := 0], log := [SENTINEL, E1])
  const P5 := P4.(log := [SENTINEL, E1, X2])
  const P6 := P4.(log := [SENTINEL, E1, X2, E3])
  const P7 := P6.(next := map[2 := 4], matched := map[2 := 3], commit := 3, applied := 3)
  const P8 := P7.(log := [BASE2, E3])
  const P9 := Fresh(1, [2], 2, 1, 2, 1, Some(1), [BASE1, E3], 1, 1)

  const Q0 := Fresh(2, [1], 2, 1, 2, 0, None, [SENTINEL], 0, 0)
  const Q1 := Q0.(term := 1, voted := Some(1))
  const Q2 := Q1.(leader := Some(1), log := [SENTINEL, E1, X2, E3])

  const D3 := Disk(1, Some(1), [SENTINEL], None)
  const D4 := D3.(log := [SENTINEL, E1])
  const D5 := D3.(log := [SENTINEL, E1, X2])
  const D6 := D3.(log := [SENTINEL, E1, X2, E3])
  const D8 := D3.(log := [BASE2, E3], snap := Some(Meta(2, 1)))
  const D9 := D8.(snap := Some(Meta(1, 1)))

  const FULL := Message(1, 2, 1, AppendEntries(0, 0, [E1, X2, E3], 0))
  const GOT := Message(2, 1, 1, AppendEntriesResponse(true, None, None))

  lemma Alone(n: Node, a: NodeId, term: Term, kind: Kind)
    requires n.peers == [a]
    ensures ToPeers(n, term, kind) == [Send(Message(n.id, a, term, kind))]
    ensures Broadcast(n) == [Replicate(n, a)]
  {}

  lemma Elected()
    ensures Does(1, P0, Timer, P1, [])
    ensures Does(1, P1, Timer, P2, [Send(ASK2)])
    ensures Does(1, P2, Recv(Packet(YES2, 0)), P3, [PersistHardState(1, Some(1)), Send(RUN2)])
  {
    Alone(P2, 2, 1, PreVote(0, 0));
    assert Tick(P1, 2) == Canvass(P0, 2);
    var m := P2.(preVotes := {1, 2});
    assert P2.preVotes + {2} == {1, 2};
    assert Receive(P2, YES2, 2) == StartRealElection(m, 2);
    Alone(P3, 2, 1, RequestVote(0, 0));
    assert Campaign(m, 2) == Out(P3, [PersistHardState(1, Some(1)), Send(RUN2)]);
  }

  lemma Leading()
    ensures Does(1, P3, Recv(Packet(AYE2, 0)), P4, [AppendLog([E1]), Replicate(P4, 2)])
  {
    var m := P3.(votes := {1, 2});
    assert P3.votes + {2} == {1, 2};
    assert ForEach(m.peers, 1) == map[2 := 1] && ForEach(m.peers, 0) == map[2 := 0];
    var l := BecomeLeader(m);
    assert l.n == P4;
    Alone(P4, 2, 0, PreVoteResponse(true));
    assert l.acts == [AppendLog([E1]), Replicate(P4, 2)];
    assert Receive(P3, AYE2, 2) == l;
  }

  lemma Proposing()
    ensures Does(1, P4, Submit([7]), P5, [AppendLog([X2]), Replicate(P5, 2)])
    ensures Does(1, P5, Submit([8]), P6, [AppendLog([E3]), Send(FULL)])
  {
    Alone(P5, 2, 0, PreVoteResponse(true));
    Alone(P6, 2, 0, PreVoteResponse(true));
    assert AppendCommand(P4, [7]) == Out(P5, [AppendLog([X2]), Replicate(P5, 2)]);
    assert Replicate(P6, 2) == Send(FULL);
    assert AppendCommand(P5, [8]) == Out(P6, [AppendLog([E3]), Send(FULL)]);
  }

  lemma Voting()
    ensures Does(2, Q0, Recv(Packet(ASK2, 0)), Q0, [Send(YES2)])
    ensures Does(2, Q0, Recv(Packet(RUN2, 0)), Q1,
                 [PersistHardState(1, None), PersistHardState(1, Some(1)), Send(AYE2)])
  {}

  lemma Following()
    ensures Does(2, Q1, Recv(Packet(FULL, 0)), Q2, [TruncateAndAppend(1, [E1, X2, E3]), Send(GOT)])
  {
    assert HeldPrefix(Q1.log, [E1, X2, E3]) == 0;
    assert [E1, X2, E3][0..] == [E1, X2, E3];
  }

  lemma Committing()
    ensures Does(1, P6, Recv(Packet(GOT, 3)), P7, [Apply([E1, X2, E3])])
  {
    var w := P6.(next := map[2 := 4], matched := map[2 := 3]);
    assert WithAck(P6, 2, 3) == w;
    assert Receive(P6, GOT, 2) == MaybeAdvance(w);
    assert PeerSupport(w.matched, w.peers, 3) == 1 + PeerSupport(w.matched, w.peers[1..], 3);
    assert Committable(w, 3);
    assert NewCommit(w) == 3;
    ThreeApplied(w.(commit := 3));
  }

  lemma ThreeApplied(m: Node)
    requires m.log == [SENTINEL, E1, X2, E3] && m.applied == 0 && m.commit == 3
    ensures ApplyCommitted(m) == Out(m.(applied := 3), [Apply([E1, X2, E3])])
  {
    assert EntriesFrom(m.log, 1) == [E1, X2, E3];
    assert TakeUpTo([E3], 3) == [E3];
    assert TakeUpTo([X2, E3], 3) == [X2, E3];
    assert TakeUpTo([E1, X2, E3], 3) == [E1, X2, E3];
    assert Pending(m) == [E1, X2, E3];
  }

  lemma Compacting()
    ensures Does(1, P7, Compact(2, 1), P8, [PersistSnapshot(2, 1)])
    ensures Does(1, P8, Compact(1, 1), P8, [PersistSnapshot(1, 1)])
  {
    assert Compacted(P7.log, 2, 1) == [BASE2, E3];
  }

  // ---- the run -----------------------------------------------------------------------------

  lemma Wrote(d: Disk, a: Action, s: Action)
    requires s.Send? || s.Apply?
    ensures Mirror.WriteAll(d, [a]) == Perform(d, a)
    ensures Mirror.WriteAll(d, [a, s]) == Perform(d, a)
  {
    var e := Perform(d, a);
    assert [a][1..] == [] && [a, s][1..] == [s] && [s][1..] == [];
    assert Mirror.WriteAll(e, []) == e && Mirror.WriteAll(e, [s]) == e;
  }

  lemma Appended(d: Disk, e: Entry)
    requires Contiguous(d.log) && e.index == LastIndex(d.log) + 1
    ensures Perform(d, AppendLog([e])) == d.(log := d.log + [e])
  {
    PutAllExtends(d.log, [e]);
  }

  lemma Start() returns (run: seq<Step>)
    ensures Stands(run, P0, Q0, BLANK, {})
  {
    var s := [Spawn(1, 2)];
    run := [Spawn(1, 2), Spawn(2, 2)];
    assert s[..0] == [] && run[..1] == s;
    assert State(TWO, Any, []) == Initial(TWO);
    assert BLANK.log[1..] == [];
    assert Boot(TWO, 1, BLANK, 2) == P0 && Boot(TWO, 2, BLANK, 2) == Q0;
    assert State(TWO, Any, s).nodes == map[1 := P0];
  }

  lemma TimedOut() returns (r: seq<Step>)
    ensures Stands(r, P2, Q0, BLANK, {Packet(ASK2, 0)})
  {
    r := Start();
    Elected();
    r := Fire1(r, P0, Q0, BLANK, {}, Timer, P1, [], BLANK, {});
    Unwritten(BLANK, Send(ASK2));
    r := Fire1(r, P1, Q0, BLANK, {}, Timer, P2, [Send(ASK2)], BLANK, {Packet(ASK2, 0)});
  }

  lemma Asked(run: seq<Step>) returns (r: seq<Step>)
    requires Stands(run, P2, Q0, BLANK, {Packet(ASK2, 0)})
    ensures Stands(r, P2, Q0, BLANK, {Packet(YES2, 0)})
  {
    Voting();
    r := Fire2(run, P2, Q0, BLANK, {Packet(ASK2, 0)}, Recv(Packet(ASK2, 0)), Q0, [Send(YES2)], {Packet(YES2, 0)});
  }

  lemma Stood(run: seq<Step>) returns (r: seq<Step>)
    requires Stands(run, P2, Q0, BLANK, {Packet(YES2, 0)})
    ensures Stands(r, P3, Q0, D3, {Packet(RUN2, 0)})
  {
    Elected();
    Wrote(BLANK, PersistHardState(1, Some(1)), Send(RUN2));
    r := Fire1(run, P2, Q0, BLANK, {Packet(YES2, 0)}, Recv(Packet(YES2, 0)),
               P3, [PersistHardState(1, Some(1)), Send(RUN2)], D3, {Packet(RUN2, 0)});
  }

  lemma Led(run: seq<Step>) returns (r: seq<Step>)
    requires Stands(run, P3, Q0, D3, {Packet(RUN2, 0)})
    ensures Stands(r, P4, Q1, D4, {})
  {
    Voting();
    Leading();
    r := Fire2(run, P3, Q0, D3, {Packet(RUN2, 0)}, Recv(Packet(RUN2, 0)), Q1,
               [PersistHardState(1, None), PersistHardState(1, Some(1)), Send(AYE2)], {Packet(AYE2, 0)});
    Appended(D3, E1);
    Wrote(D3, AppendLog([E1]), Replicate(P4, 2));
    r := Fire1(r, P3, Q1, D3, {Packet(AYE2, 0)}, Recv(Packet(AYE2, 0)),
               P4, [AppendLog([E1]), Replicate(P4, 2)], D4, {});
  }

  lemma Proposed(run: seq<Step>) returns (r: seq<Step>)
    requires Stands(run, P4, Q1, D4, {})
    ensures Stands(r, P6, Q1, D6, {Packet(FULL, 0)})
  {
    Proposing();
    Appended(D4, X2);
    Wrote(D4, AppendLog([X2]), Replicate(P5, 2));
    r := Fire1(run, P4, Q1, D4, {}, Submit([7]), P5, [AppendLog([X2]), Replicate(P5, 2)], D5, {});
    Appended(D5, E3);
    Wrote(D5, AppendLog([E3]), Send(FULL));
    r := Fire1(r, P5, Q1, D5, {}, Submit([8]), P6, [AppendLog([E3]), Send(FULL)], D6, {Packet(FULL, 0)});
  }

  lemma Fetched(run: seq<Step>) returns (r: seq<Step>)
    requires Stands(run, P6, Q1, D6, {Packet(FULL, 0)})
    ensures Stands(r, P6, Q2, D6, {Packet(GOT, 3)})
  {
    Following();
    r := Fire2(run, P6, Q1, D6, {Packet(FULL, 0)}, Recv(Packet(FULL, 0)),
               Q2, [TruncateAndAppend(1, [E1, X2, E3]), Send(GOT)], {Packet(GOT, 3)});
  }

  lemma Settled(run: seq<Step>) returns (r: seq<Step>)
    requires Stands(run, P6, Q2, D6, {Packet(GOT, 3)})
    ensures Stands(r, P7, Q2, D6, {})
  {
    Committing();
    Unwritten(D6, Apply([E1, X2, E3]));
    r := Fire1(run, P6, Q2, D6, {Packet(GOT, 3)}, Recv(Packet(GOT, 3)), P7, [Apply([E1, X2, E3])], D6, {});
  }

  lemma Unwritten(d: Disk, a: Action)
    requires a.Send? || a.Apply?
    ensures Mirror.WriteAll(d, [a]) == d
  {
    assert [a][1..] == [];
  }

  /** Compaction at the commit of index 2, and once more below the base, which only the disk notices. */
  lemma CompactedLow(run: seq<Step>) returns (r: seq<Step>)
    requires Stands(run, P7, Q2, D6, {})
    ensures Stands(r, P9, Q2, D9, {})
  {
    Compacting();
    assert Compacted(D6.log, 2, 1) == [BASE2, E3];
    Wrote(D6, PersistSnapshot(2, 1), Send(GOT));
    r := Fire1(run, P7, Q2, D6, {}, Compact(2, 1), P8, [PersistSnapshot(2, 1)], D8, {});
    Wrote(D8, PersistSnapshot(1, 1), Send(GOT));
    r := Fire1(r, P8, Q2, D8, {}, Compact(1, 1), P8, [PersistSnapshot(1, 1)], D9, {});
    assert D9.log[1..] == [E3];
    assert Boot(TWO, 1, D9, 2) == P9;
    r := Restart1(r, P8, Q2, D9);
  }

  lemma Differ()
    ensures Clash(P9, Q2, 2) && MinLast(P9, Q2) == 3
  {}

  /** Without a restriction on compaction the log matching check reports an error: both servers hold term
      1 at index 2, with different commands, at an index the check compares. */
  lemma LogCheckFires() returns (run: seq<Step>)
    ensures ValidConf(TWO)
    ensures var nodes := State(TWO, Any, run).nodes;
            1 in nodes && 2 in nodes && 2 <= MinLast(nodes[1], nodes[2]) && Clash(nodes[1], nodes[2], 2)
  {
    run := TimedOut();
    run := Asked(run);
    run := Stood(run);
    run := Led(run);
    run := Proposed(run);
    run := Fetched(run);
    run := Settled(run);
    run := CompactedLow(run);
    Differ();
    Configured2();
  }

  lemma Configured2()
    ensures ValidConf(TWO)
  {}
}
