/** How a follower that needs compacted entries gets back in line: one exchange of a snapshot and one of
    entries, as the handlers of both sides carry them out. */
module Fallback {
  import opened Types
  import opened LogSpec
  import opened Kernel
  import opened Cluster
  import opened Timers
  import opened Following
  import opened Exchange
  import Commit
  import Election
  import History
  import Protocol
  import Uniqueness

  // ---- the follower ------------------------------------------------------------------------

  /** A complete snapshot beyond the commit index becomes the whole log, committed and applied, on disk
      before the answer; any other changes nothing but the term and whom the server follows. */
  lemma SnapshotTaken(f: Node, m: Message, rt: nat)
    requires m.kind.InstallSnapshot? && m.term >= f.term
    ensures var v := Follows(f, m, rt);
            var i, t := m.kind.snapIndex, m.kind.snapTerm;
            var answer := Send(Message(f.id, m.from, m.term, InstallSnapshotResponse));
            Receive(f, m, rt) ==
              if m.kind.done && f.commit < i
              then Out(v.(log := [Entry(i, t, [])], commit := i, applied := i),
                       NewTerm(f, m) + [PersistSnapshot(i, t), answer])
              else Out(v, NewTerm(f, m) + [answer])
  {
    var b := if Bumps(f, m) then BecomeFollower(f, m.term, None, rt) else Out(f, []);
    assert Follows(b.n, m, rt) == Follows(f, m, rt);
    TakenInTerm(b.n, m, rt);
    Protocol.ReceiveShape(f, m, rt);
  }

  lemma TakenInTerm(f: Node, m: Message, rt: nat)
    requires m.kind.InstallSnapshot? && m.term == f.term
    ensures var v := Follows(f, m, rt);
            var i, t := m.kind.snapIndex, m.kind.snapTerm;
            var answer := Send(Message(f.id, m.from, m.term, InstallSnapshotResponse));
            Dispatch(f, m, rt) ==
              if m.kind.done && f.commit < i
              then Out(v.(log := [Entry(i, t, [])], commit := i, applied := i), [PersistSnapshot(i, t), answer])
              else Out(v, [answer])
  {
    assert BecomeFollower(f, m.term, Some(m.from), rt) == Out(Follows(f, m, rt), []);
  }

  // ---- the leader --------------------------------------------------------------------------

  /** A leader whose log starts at a snapshot, and a follower, not ahead in term, that it takes to need
      entries at or below that. */
  predicate Behind(l: Node, f: Node) {
    && l.role == Leader && f.term <= l.term && f.id != l.id
    && 0 < l.log[0].index && (if f.id in l.next then l.next[f.id] else 1) <= l.log[0].index
  }

  lemma SnapshotAsked(l: Node, f: Node)
    requires Behind(l, f)
    ensures Request(l, f.id) == Message(l.id, f.id, l.term, InstallSnapshot(l.log[0].index, l.log[0].term, true))
  {
    ReplicateCarries(l, f.id);
  }

  lemma SnapshotAnswered(l: Node, f: Node, rt: nat)
    requires Behind(l, f)
    ensures Answer(f, Request(l, f.id), rt) == Message(f.id, l.id, l.term, InstallSnapshotResponse)
  {
    SnapshotAsked(l, f);
    SnapshotTaken(f, Request(l, f.id), rt);
  }

  lemma SnapshotAcked(l: Node, m: Message, rt: nat)
    requires l.role == Leader && m.term == l.term && m.kind.InstallSnapshotResponse?
    ensures var b, v := l.log[0].index, Receive(l, m, rt).n;
            v == l.(next := l.next[m.from := b + 1], matched := l.matched[m.from := b], commit := v.commit,
                    applied := v.applied)
  {
    Commit.AckReceived(l, m, rt, FirstIndex(l.log));
    Commit.Advanced(WithAck(l, m.from, FirstIndex(l.log)));
  }

  /** The request right behind the leader's base, with all its entries. */
  lemma EntriesAsked(l: Node, p: NodeId)
    requires p in l.next && l.next[p] == l.log[0].index + 1
    ensures Request(l, p) == Message(l.id, p, l.term,
                                     AppendEntries(l.log[0].index, l.log[0].term, l.log[1..], l.commit))
  {
    ReplicateCarries(l, p);
  }

  // ---- the exchange ------------------------------------------------------------------------

  /** One exchange brings the follower to the leader's snapshot, if it had committed less, and the leader
      to the entry behind it. */
  lemma SnapshotRound(l: Node, f: Node, rt: nat)
    requires Behind(l, f)
    ensures var b := l.log[0];
            var (l', f') := Round(l, f, rt);
            && l' == l.(next := l.next[f.id := b.index + 1], matched := l.matched[f.id := b.index],
                        commit := l'.commit, applied := l'.applied)
            && f'.id == f.id && f'.term == l.term && f'.role == Follower && f'.leader == Some(l.id)
            && (if f.commit < b.index
                then f'.log == [Entry(b.index, b.term, [])] && f'.commit == f'.applied == b.index
                else f'.log == f.log && f'.commit == f.commit && f'.applied == f.applied)
  {
    SnapshotAsked(l, f);
    SnapshotTaken(f, Request(l, f.id), rt);
    SnapshotAnswered(l, f, rt);
    SnapshotAcked(l, Answer(f, Request(l, f.id), rt), rt);
  }

  lemma SnapshotExtended(f: Node, m: Message, rt: nat)
    requires m.kind.AppendEntries? && m.term == f.term && ValidMsg(m)
    requires f.log == [Entry(m.kind.prevIndex, m.kind.prevTerm, [])]
    ensures var f' := Receive(f, m, rt).n;
            && f'.log == f.log + m.kind.entries
            && f'.commit == Clipped(f.commit, m.kind.leaderCommit, f'.log[|f'.log| - 1].index)
    ensures Answer(f, m, rt).kind == AppendEntriesResponse(true, None, None)
  {
    var es := m.kind.entries;
    assert Fits(f, m);
    Answered(f, m, rt);
    AppendFollows(f, m, rt);
    var h := EntriesTaken(f, m, rt);
    if es != [] {
      assert !Has(f.log, es[0].index, es[0].term);
      assert f.log[..1] == f.log && es[0..] == es;
    }
  }

  /** The next request carries the leader's whole log behind its base, is accepted, and leaves the follower
      with all of it. */
  predicate TakesWhole(l: Node, f: Node, rt: nat) {
    var f' := Round(l, f, rt).1;
    && Request(l, f.id).kind == AppendEntries(l.log[0].index, l.log[0].term, l.log[1..], l.commit)
    && Accepted(l, f, rt)
    && f'.log == f.log + l.log[1..]
    && f'.commit == Clipped(f.commit, l.commit, l.log[|l.log| - 1].index)
  }

  lemma EntriesRound(l: Node, f: Node, rt: nat)
    requires l.role == Leader && Contiguous(l.log) && f.id in l.next && l.next[f.id] == l.log[0].index + 1
    requires f.term == l.term && f.log == [Entry(l.log[0].index, l.log[0].term, [])]
    ensures TakesWhole(l, f, rt)
  {
    EntriesAsked(l, f.id);
    SnapshotExtended(f, Request(l, f.id), rt);
  }

  /** After the first exchange: the follower has exactly the leader's snapshot, committed and applied, and
      the leader goes on right behind it, its log untouched. */
  predicate OnSnapshot(l: Node, p: NodeId, l': Node, f': Node) {
    var b := l.log[0];
    && f'.id == p && f'.log == [Entry(b.index, b.term, [])] && f'.commit == f'.applied == b.index && f'.term == l.term
    && p in l'.next && l'.next[p] == b.index + 1 && p in l'.matched && l'.matched[p] == b.index
    && l'.log == l.log && l'.term == l.term && l'.role == Leader
  }

  /** A follower that has committed less than the leader's base, whatever its log: one request and answer
      leave its log at exactly the leader's snapshot, and the request after that completes it. */
  lemma SnapshotFallbackLands(l: Node, f: Node, rt: nat)
    requires Behind(l, f) && Contiguous(l.log) && f.commit < l.log[0].index
    ensures var (l1, f1) := Round(l, f, rt); OnSnapshot(l, f.id, l1, f1) && TakesWhole(l1, f1, rt)
  {
    SnapshotRound(l, f, rt);
    var (l1, f1) := Round(l, f, rt);
    assert OnSnapshot(l, f.id, l1, f1);
    EntriesRound(l1, f1, rt);
  }

  /** In every run that compacts sanely, for every leader and follower in that position. */
  lemma RunFallbackLands(conf: Conf, fam: Family, run: seq<Step>, a: NodeId, b: NodeId, rt: nat)
    requires ValidConf(conf) && fam != Any
    requires var nodes := State(conf, fam, run).nodes;
             && a in nodes && b in nodes && a != b && nodes[a].role == Leader && nodes[b].term <= nodes[a].term
             && nodes[b].commit < nodes[a].log[0].index
             && (if b in nodes[a].next then nodes[a].next[b] else 1) <= nodes[a].log[0].index
    ensures var l, f := State(conf, fam, run).nodes[a], State(conf, fam, run).nodes[b];
            var (l1, f1) := Round(l, f, rt);
            OnSnapshot(l, b, l1, f1) && TakesWhole(l1, f1, rt)
  {
    var w := History.Past(conf, fam, run);
    Protocol.RunInv(conf, fam, run);
    assert Election.NodeE(conf, w.h, a, w.c.nodes[a], w.c.disks[a]);
    assert Election.NodeE(conf, w.h, b, w.c.nodes[b], w.c.disks[b]);
    assert Uniqueness.NodeS(w.h, w.c.nodes[a], w.c.disks[a]);
    SnapshotFallbackLands(w.c.nodes[a], w.c.nodes[b], rt);
  }
}
