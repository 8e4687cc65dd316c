/** Without the restriction of `Exact` a leader can announce a commit index beyond the end of what it
    sends: a server that has committed entries nobody else holds loses them to the next leader, keeps the
    commit index, and wins a later election. */
module Overclip {
  import opened Types
  import opened LogSpec
  import opened Kernel
  import opened Cluster
  import opened Overcount

  const X3 := Entry(3, 1, [8])
  const X4 := Entry(4, 1, [9])
  const Z3 := Entry(3, 3, [])

  // Server 1: two more proposals, all four entries counted as acknowledged, then cut by leader 2.
  const K2 := A5.(log := [SENTINEL, E1, X2, X3])
  const K3 := A5.(log := [SENTINEL, E1, X2, X3, X4])
  const K4 := K3.(next := map[2 := 5, 3 := 1], matched := map[2 := 4, 3 := 0], commit := 4, applied := 4)
  const K5 := K4.(term := 2, voted := None, role := Follower, leader := Some(2), log := [SENTINEL, E1, Y2])
  const K6 := K5.(elapsed := 1)
  const K7 := K5.(role := PreCandidate, preVotes := {1})
  const K8 := K7.(preVotes := {1, 3}, term := 3, role := Candidate, voted := Some(1), votes := {1})
  const K9 := K8.(votes := {1, 3}, role := Leader, leader := Some(1), next := map[2 := 3, 3 := 3],
                  matched := map[2 := 0, 3 := 0], log := [SENTINEL, E1, Y2, Z3])
  const C5 := C2.(term := 3, voted := Some(1))

  const ADD1 := Message(2, 1, 2, AppendEntries(1, 1, [Y2], 0))
  const ASK := Message(1, 3, 3, PreVote(2, 2))
  const YES := Message(3, 1, 2, PreVoteResponse(true))
  const RUN := Message(1, 3, 3, RequestVote(2, 2))
  const AYE := Message(3, 1, 3, RequestVoteResponse(true))
  const BEYOND := Message(1, 3, 3, AppendEntries(2, 2, [Z3], 4))

  lemma Proposals()
    ensures Turn(1, A5, Submit([8]), K2, {}) && Turn(1, K2, Submit([9]), K3, {})
  {}

  lemma FourAtOnce(w: Node)
    requires w.log == [SENTINEL, E1, X2, X3, X4] && w.commit == 0 && w.applied == 0 && w.term == 1
    requires NewCommit(w) == 4
    ensures MaybeAdvance(w) == Out(w.(commit := 4, applied := 4), [Apply([E1, X2, X3, X4])])
  {
    var m := w.(commit := 4);
    assert EntriesFrom(m.log, 1) == [E1, X2, X3, X4];
    assert TakeUpTo([X4], 4) == [X4];
    assert TakeUpTo([X3, X4], 4) == [X3, X4];
    assert TakeUpTo([X2, X3, X4], 4) == [X2, X3, X4];
    assert TakeUpTo([E1, X2, X3, X4], 4) == [E1, X2, X3, X4];
    assert Pending(m) == [E1, X2, X3, X4];
  }

  lemma FourCounted(w: Node)
    requires w.log == [SENTINEL, E1, X2, X3, X4] && w.commit == 0 && w.term == 1
    requires w.peers == [2, 3] && MatchAt(w.matched, 2) == 4
    ensures NewCommit(w) == 4
  {
    assert PeerSupport(w.matched, w.peers, 4)
        == (if MatchAt(w.matched, 2) >= 4 then 1 else 0) + PeerSupport(w.matched, w.peers[1..], 4);
    assert Committable(w, 4);
  }

  lemma Counted()
    ensures Turn(1, K3, Recv(Packet(ACK2, 1)), K4, {})
  {
    var w := K3.(next := map[2 := 5, 3 := 1], matched := map[2 := 4, 3 := 0]);
    assert WithAck(K3, 2, 4) == w;
    assert Receive(K3, ACK2, 2) == MaybeAdvance(w);
    FourCounted(w);
    FourAtOnce(w);
  }

  lemma AddressedTo1()
    ensures Turn(2, B5, Recv(Packet(AYE3, 0)), B6, {Packet(ADD1, 0)})
  {
    var m := B5.(votes := {2, 3});
    assert B5.votes + {3} == {2, 3};
    assert Receive(B5, AYE3, 2) == BecomeLeader(m);
    Crowned(m, 1, 3, B6, Y2);
    assert Replicate(B6, 1) == Send(ADD1);
    assert BecomeLeader(m).acts[1] == Send(ADD1);
  }

  /** The suffix the server had committed goes, the commit index stays. */
  lemma CutBack()
    ensures Turn(1, K4, Recv(Packet(ADD1, 0)), K5, {})
  {
    var b := BecomeFollower(K4, 2, None, 2).n;
    var n := BecomeFollower(b, 2, Some(2), 2).n;
    assert n == K4.(term := 2, voted := None, role := Follower, leader := Some(2));
    assert HeldPrefix(n.log, [Y2]) == 0 && Attach(n.log, [Y2]) == 2 && Skipped(n.log, [Y2]) == 0;
    assert Truncated(n.log, 2, [Y2]) == [SENTINEL, E1, Y2];
    assert [Y2][0..] == [Y2];
    assert Merge(n, [Y2]).n == K5;
  }

  lemma ThirdElection()
    ensures Turn(1, K5, Timer, K6, {})
    ensures Turn(1, K6, Timer, K7, {Packet(ASK, 0)})
    ensures Turn(1, K7, Recv(Packet(YES, 0)), K8, {Packet(RUN, 0)})
  {
    Peers(K7, 2, 3, 3, PreVote(2, 2));
    assert Tick(K6, 2) == Canvass(K5, 2);
    assert Tick(K6, 2).acts[1] == Send(ASK);
    var m := K7.(preVotes := {1, 3});
    assert K7.preVotes + {3} == {1, 3};
    assert Receive(K7, YES, 2) == StartRealElection(m, 2);
    Peers(K8, 2, 3, 3, RequestVote(2, 2));
    assert Campaign(m, 2).n == K8;
    assert Receive(K7, YES, 2).acts[2] == Send(RUN);
  }

  lemma ThirdVotes()
    ensures Turn(3, C2, Recv(Packet(ASK, 0)), C2, {Packet(YES, 0)})
    ensures Turn(3, C2, Recv(Packet(RUN, 0)), C5, {Packet(AYE, 0)})
  {
    assert Receive(C2, ASK, 2).acts[0] == Send(YES);
    assert Receive(C2, RUN, 2).acts[2] == Send(AYE);
  }

  lemma ThirdLeader()
    ensures Turn(1, K8, Recv(Packet(AYE, 0)), K9, {Packet(BEYOND, 0)})
  {
    var m := K8.(votes := {1, 3});
    assert K8.votes + {3} == {1, 3};
    assert Receive(K8, AYE, 2) == BecomeLeader(m);
    Crowned(m, 2, 3, K9, Z3);
    assert Replicate(K9, 3) == Send(BEYOND);
    assert BecomeLeader(m).acts[2] == Send(BEYOND);
  }

  // ---- the run -----------------------------------------------------------------------------

  lemma Propose3(run: seq<Step>) returns (r: seq<Step>)
    requires Reached(run, map[1 := A5, 2 := B1, 3 := C1], {Packet(ADD2, 0)})
    ensures Reached(r, map[1 := K2, 2 := B1, 3 := C1], {Packet(ADD2, 0)})
  {
    Proposals();
    r := Fire(run, map[1 := A5, 2 := B1, 3 := C1], {Packet(ADD2, 0)},
              1, Submit([8]), K2, {}, {Packet(ADD2, 0)});
  }

  lemma Propose4(run: seq<Step>) returns (r: seq<Step>)
    requires Reached(run, map[1 := K2, 2 := B1, 3 := C1], {Packet(ADD2, 0)})
    ensures Reached(r, map[1 := K3, 2 := B1, 3 := C1], {Packet(ADD2, 0)})
  {
    Proposals();
    r := Fire(run, map[1 := K2, 2 := B1, 3 := C1], {Packet(ADD2, 0)},
              1, Submit([9]), K3, {}, {Packet(ADD2, 0)});
  }

  lemma Acknowledge(run: seq<Step>) returns (r: seq<Step>)
    requires Reached(run, map[1 := K3, 2 := B1, 3 := C1], {Packet(ADD2, 0)})
    ensures Reached(r, map[1 := K3, 2 := B2, 3 := C1], {Packet(ACK2, 1)})
  {
    Accepted();
    r := Fire(run, map[1 := K3, 2 := B1, 3 := C1], {Packet(ADD2, 0)},
              2, Recv(Packet(ADD2, 0)), B2, {Packet(ACK2, 1)}, {Packet(ACK2, 1)});
  }

  lemma CountFour(run: seq<Step>) returns (r: seq<Step>)
    requires Reached(run, map[1 := K3, 2 := B2, 3 := C1], {Packet(ACK2, 1)})
    ensures Reached(r, map[1 := K4, 2 := B2, 3 := C1], {})
  {
    Counted();
    r := Fire(run, map[1 := K3, 2 := B2, 3 := C1], {Packet(ACK2, 1)},
              1, Recv(Packet(ACK2, 1)), K4, {}, {});
  }

  lemma Overtake(run: seq<Step>) returns (r: seq<Step>)
    requires Reached(run, map[1 := K4, 2 := B5, 3 := C2], {Packet(AYE3, 0)})
    ensures Reached(r, map[1 := K4, 2 := B6, 3 := C2], {Packet(ADD1, 0)})
  {
    AddressedTo1();
    r := Fire(run, map[1 := K4, 2 := B5, 3 := C2], {Packet(AYE3, 0)},
              2, Recv(Packet(AYE3, 0)), B6, {Packet(ADD1, 0)}, {Packet(ADD1, 0)});
  }

  lemma Lose(run: seq<Step>) returns (r: seq<Step>)
    requires Reached(run, map[1 := K4, 2 := B6, 3 := C2], {Packet(ADD1, 0)})
    ensures Reached(r, map[1 := K5, 2 := B6, 3 := C2], {})
  {
    CutBack();
    r := Fire(run, map[1 := K4, 2 := B6, 3 := C2], {Packet(ADD1, 0)},
              1, Recv(Packet(ADD1, 0)), K5, {}, {});
  }

  lemma Return(run: seq<Step>) returns (r: seq<Step>)
    requires Reached(run, map[1 := K5, 2 := B6, 3 := C2], {})
    ensures Reached(r, map[1 := K7, 2 := B6, 3 := C2], {Packet(ASK, 0)})
  {
    ThirdElection();
    r := TimeOut(run, map[1 := K5, 2 := B6, 3 := C2], 1, K6, K7, {Packet(ASK, 0)});
  }

  lemma GrantPreVote(run: seq<Step>) returns (r: seq<Step>)
    requires Reached(run, map[1 := K7, 2 := B6, 3 := C2], {Packet(ASK, 0)})
    ensures Reached(r, map[1 := K7, 2 := B6, 3 := C2], {Packet(YES, 0)})
  {
    ThirdVotes();
    r := Fire(run, map[1 := K7, 2 := B6, 3 := C2], {Packet(ASK, 0)},
              3, Recv(Packet(ASK, 0)), C2, {Packet(YES, 0)}, {Packet(YES, 0)});
  }

  lemma Stand(run: seq<Step>) returns (r: seq<Step>)
    requires Reached(run, map[1 := K7, 2 := B6, 3 := C2], {Packet(YES, 0)})
    ensures Reached(r, map[1 := K8, 2 := B6, 3 := C2], {Packet(RUN, 0)})
  {
    ThirdElection();
    r := Fire(run, map[1 := K7, 2 := B6, 3 := C2], {Packet(YES, 0)},
              1, Recv(Packet(YES, 0)), K8, {Packet(RUN, 0)}, {Packet(RUN, 0)});
  }

  lemma GrantVote(run: seq<Step>) returns (r: seq<Step>)
    requires Reached(run, map[1 := K8, 2 := B6, 3 := C2], {Packet(RUN, 0)})
    ensures Reached(r, map[1 := K8, 2 := B6, 3 := C5], {Packet(AYE, 0)})
  {
    ThirdVotes();
    r := Fire(run, map[1 := K8, 2 := B6, 3 := C2], {Packet(RUN, 0)},
              3, Recv(Packet(RUN, 0)), C5, {Packet(AYE, 0)}, {Packet(AYE, 0)});
  }

  lemma Lead(run: seq<Step>) returns (r: seq<Step>)
    requires Reached(run, map[1 := K8, 2 := B6, 3 := C5], {Packet(AYE, 0)})
    ensures Reached(r, map[1 := K9, 2 := B6, 3 := C5], {Packet(BEYOND, 0)})
  {
    ThirdLeader();
    r := Fire(run, map[1 := K8, 2 := B6, 3 := C5], {Packet(AYE, 0)},
              1, Recv(Packet(AYE, 0)), K9, {Packet(BEYOND, 0)}, {Packet(BEYOND, 0)});
  }

  lemma OvercommitFour() returns (r: seq<Step>)
    ensures Reached(r, map[1 := K4, 2 := B2, 3 := C1], {})
  {
    r := FirstLeadership();
    r := Propose3(r);
    r := Propose4(r);
    r := Acknowledge(r);
    r := CountFour(r);
  }

  lemma LoseAll(run: seq<Step>) returns (r: seq<Step>)
    requires Reached(run, map[1 := K4, 2 := B2, 3 := C1], {})
    ensures Reached(r, map[1 := K5, 2 := B6, 3 := C2], {})
  {
    r := SecondTimeOut(run, K4);
    r := SecondAsked(r, K4);
    r := SecondPreVote(r, K4);
    r := SecondVote(r, K4);
    r := Overtake(r);
    r := Lose(r);
  }

  /** The commit clip is not sound without the restriction: a run without compaction, crashes or restarts
      in which a leader sends commit index 4 with a message that ends at index 3. */
  lemma CommitClipFails() returns (run: seq<Step>)
    ensures ValidConf(CONF)
    ensures Packet(BEYOND, 0) in State(CONF, Plain, run).sent
    ensures BEYOND.kind.leaderCommit > BEYOND.kind.prevIndex + |BEYOND.kind.entries|
  {
    run := OvercommitFour();
    run := LoseAll(run);
    run := Return(run);
    run := GrantPreVote(run);
    run := Stand(run);
    run := GrantVote(run);
    run := Lead(run);
    Configured();
  }
}
