/** What a server does with an AppendEntries, told by its log, the entries and the leader's commit index
    alone. */
module Following {
  import opened Types
  import opened LogSpec
  import opened Kernel
  import DiskSpec
  import Protocol

  /** The server once it follows the sender in the message's term. */
  function Follows(n: Node, m: Message, rt: nat): Node {
    n.(term := m.term, voted := if m.term > n.term then None else n.voted, role := Follower, leader := Some(m.from),
       elapsed := 0, timeout := rt)
  }

  function NewTerm(n: Node, m: Message): seq<Action> {
    if m.term > n.term then [PersistHardState(m.term, None)] else []
  }

  /** The log has an entry of term t at index i. */
  predicate Has(s: Log, i: Index, t: Term) {
    s[0].index <= i < s[0].index + |s| && s[i - s[0].index].term == t
  }

  function Clipped(commit: Index, leaderCommit: Index, last: Index): Index {
    var c := if leaderCommit <= last then leaderCommit else last;
    if c > commit then c else commit
  }

  /** The server's log has the entry before the message's: the consistency check. */
  predicate Fits(n: Node, m: Message)
    requires m.kind.AppendEntries?
  {
    Has(n.log, m.kind.prevIndex, m.kind.prevTerm)
  }

  lemma FitsIff(s: Log, i: Index, t: Term)
    ensures Has(s, i, t) <==> Rejection(s, i, t).None?
    ensures Has(s, i, t) <==> TermAt(s, i) == Some(t)
  {}

  /** The server follows the sender and answers in any case. If the consistency check fails nothing else
      changes; if it holds only the log, the commit index and the applied index may, and the commit index
      becomes the leader's, clipped by the new log's end, unless its own is larger. */
  predicate Follow(n: Node, m: Message, rt: nat, o: Out)
    requires m.kind.AppendEntries?
  {
    var v := Follows(n, m, rt);
    && |o.acts| > |NewTerm(n, m)| && o.acts[..|NewTerm(n, m)|] == NewTerm(n, m)
    && o.acts[|o.acts| - 1].Send?
    && (var a := o.acts[|o.acts| - 1].msg;
        a == Message(n.id, m.from, m.term, a.kind) && a.kind.AppendEntriesResponse? && a.kind.success == Fits(n, m))
    && (if !Fits(n, m) then o.n == v && |o.acts| == |NewTerm(n, m)| + 1
        else
          && o.n == v.(log := o.n.log, commit := o.n.commit, applied := o.n.applied)
          && o.n.commit == Clipped(n.commit, m.kind.leaderCommit, o.n.log[|o.n.log| - 1].index))
  }

  lemma AcceptFollows(n: Node, m: Message)
    requires m.kind.AppendEntries?
    ensures var o := Accept(n, m.from, m.kind.entries, m.kind.leaderCommit);
            var a := Merge(n, m.kind.entries);
            && o.n == n.(log := a.n.log, commit := o.n.commit, applied := o.n.applied)
            && o.n.commit == Clipped(n.commit, m.kind.leaderCommit, LastIndex(o.n.log))
            && a.acts <= o.acts && |o.acts| > |a.acts|
            && o.acts[|o.acts| - 1] == Send(Message(n.id, m.from, n.term, AppendEntriesResponse(true, None, None)))
  {
    var a := Merge(n, m.kind.entries);
    assert a.n == n.(log := a.n.log);
    CommitFollows(a.n, m.kind.leaderCommit);
  }

  lemma CommitFollows(n: Node, leaderCommit: Index)
    ensures var o := FollowLeaderCommit(n, leaderCommit);
            && o.n == n.(commit := o.n.commit, applied := o.n.applied)
            && o.n.commit == Clipped(n.commit, leaderCommit, LastIndex(n.log))
  {}

  /** The call is the change of term, and then the answer of a follower in that term. */
  lemma Parts(n: Node, m: Message, rt: nat)
    requires m.kind.AppendEntries? && m.term >= n.term
    ensures var a := Protocol.Answer(Follows(n, m, rt), m);
            Receive(n, m, rt) == Out(a.n, NewTerm(n, m) + a.acts)
  {
    var b := if Bumps(n, m) then BecomeFollower(n, m.term, None, rt) else Out(n, []);
    assert Follows(b.n, m, rt) == Follows(n, m, rt);
    PartsInTerm(b.n, m, rt);
    Protocol.ReceiveShape(n, m, rt);
  }

  lemma PartsInTerm(n: Node, m: Message, rt: nat)
    requires m.kind.AppendEntries? && m.term == n.term
    ensures Dispatch(n, m, rt) == Protocol.Answer(Follows(n, m, rt), m)
  {
    var f := BecomeFollower(n, m.term, Some(m.from), rt);
    Protocol.AnswerShape(n, m, rt);
    assert f == Out(Follows(n, m, rt), []);
    assert [] + Protocol.Answer(f.n, m).acts == Protocol.Answer(f.n, m).acts;
  }

  lemma AppendFollows(n: Node, m: Message, rt: nat)
    requires m.kind.AppendEntries? && m.term >= n.term
    ensures Follow(n, m, rt, Receive(n, m, rt))
  {
    var v := Follows(n, m, rt);
    Parts(n, m, rt);
    FitsIff(n.log, m.kind.prevIndex, m.kind.prevTerm);
    AnswerFollows(v, m);
    AddTerm(n, m, rt, Protocol.Answer(v, m));
  }

  /** The answer of a server that already follows the sender in its term. */
  predicate Answers(v: Node, m: Message, o: Out)
    requires m.kind.AppendEntries?
  {
    && |o.acts| > 0 && o.acts[|o.acts| - 1].Send?
    && (var a := o.acts[|o.acts| - 1].msg;
        a == Message(v.id, m.from, v.term, a.kind) && a.kind.AppendEntriesResponse? && a.kind.success == Fits(v, m))
    && (if !Fits(v, m) then o.n == v && |o.acts| == 1
        else
          && o.n == v.(log := o.n.log, commit := o.n.commit, applied := o.n.applied)
          && o.n.commit == Clipped(v.commit, m.kind.leaderCommit, o.n.log[|o.n.log| - 1].index))
  }

  lemma AnswerFollows(v: Node, m: Message)
    requires m.kind.AppendEntries?
    ensures Answers(v, m, Protocol.Answer(v, m))
  {
    FitsIff(v.log, m.kind.prevIndex, m.kind.prevTerm);
    if Fits(v, m) { AcceptFollows(v, m); }
  }

  lemma AddTerm(n: Node, m: Message, rt: nat, a: Out)
    requires m.kind.AppendEntries? && Answers(Follows(n, m, rt), m, a)
    ensures Follow(n, m, rt, Out(a.n, NewTerm(n, m) + a.acts))
  {}

  /** r is s with the message's entries: the first h are in s already, and the first one that is not cuts
      off what s has there. With nothing missing s stays whole, also beyond the message. */
  predicate Spliced(s: Log, es: seq<Entry>, h: nat, r: Log) {
    && h <= |es|
    && (forall k | 0 <= k < h :: Has(s, es[k].index, es[k].term))
    && (if h == |es| then r == s
        else
          && s[0].index < es[h].index <= s[0].index + |s| && !Has(s, es[h].index, es[h].term)
          && r == s[..es[h].index - s[0].index] + es[h..])
  }

  /** The splice as an action right behind the change of term, or no write at all. */
  predicate Written(n: Node, m: Message, h: nat, acts: seq<Action>)
    requires m.kind.AppendEntries? && h <= |m.kind.entries|
  {
    var es, k := m.kind.entries, |NewTerm(n, m)|;
    if h < |es| then |acts| > k && acts[k] == TruncateAndAppend(es[h].index, es[h..])
    else forall a | a in acts :: !a.TruncateAndAppend? && !a.AppendLog?
  }

  /** On consecutive positions, for any consecutive entries right behind the previous index: the log is
      spliced in that way, the same splice goes to disk, and nothing is written when all is held. */
  lemma EntriesTaken(n: Node, m: Message, rt: nat) returns (h: nat)
    requires m.kind.AppendEntries? && m.term >= n.term && Contiguous(n.log) && ValidMsg(m) && Fits(n, m)
    ensures !Aborts(n, m) && Spliced(n.log, m.kind.entries, h, Receive(n, m, rt).n.log)
    ensures Written(n, m, h, Receive(n, m, rt).acts)
  {
    var v := Follows(n, m, rt);
    Parts(n, m, rt);
    FitsIff(n.log, m.kind.prevIndex, m.kind.prevTerm);
    if m.kind.entries != [] { AttachConsecutive(n.log, m.kind.entries); }
    h := MergeSplices(v, m.kind.entries);
    AcceptFollows(v, m);
    AcceptWrites(v, m, h);
    WrittenLater(n, m, h, Protocol.Answer(v, m).acts);
  }

  lemma WrittenLater(n: Node, m: Message, h: nat, acts: seq<Action>)
    requires m.kind.AppendEntries? && h <= |m.kind.entries|
    requires var es := m.kind.entries;
             if h < |es| then |acts| > 0 && acts[0] == TruncateAndAppend(es[h].index, es[h..])
             else forall a | a in acts :: !a.TruncateAndAppend? && !a.AppendLog?
    ensures Written(n, m, h, NewTerm(n, m) + acts)
  {
    forall a | a in NewTerm(n, m) ensures a.PersistHardState? {}
  }

  lemma AcceptWrites(n: Node, m: Message, h: nat)
    requires m.kind.AppendEntries? && h <= |m.kind.entries|
    requires var es := m.kind.entries;
             Merge(n, es).acts == if h < |es| then [TruncateAndAppend(es[h].index, es[h..])] else []
    ensures var es, acts := m.kind.entries, Accept(n, m.from, m.kind.entries, m.kind.leaderCommit).acts;
            if h < |es| then |acts| > 0 && acts[0] == TruncateAndAppend(es[h].index, es[h..])
            else forall a | a in acts :: !a.TruncateAndAppend? && !a.AppendLog?
  {
    Protocol.AcceptShape(n, m.from, m.kind.entries, m.kind.leaderCommit);
    OnlyApplies(Merge(n, m.kind.entries).n, m.kind.leaderCommit);
  }

  lemma OnlyApplies(n: Node, k: Index)
    ensures forall a | a in FollowLeaderCommit(n, k).acts :: a.Apply?
  {}

  lemma MergeSplices(n: Node, es: seq<Entry>) returns (h: nat)
    requires Contiguous(n.log) && (es != [] ==> es[0].index <= LastIndex(n.log) + 1)
    requires es != [] ==> FirstIndex(n.log) < es[0].index && ContiguousFrom(es, es[0].index)
    ensures Spliced(n.log, es, h, Merge(n, es).n.log)
    ensures Merge(n, es).acts == if h < |es| then [TruncateAndAppend(es[h].index, es[h..])] else []
  {
    h := HeldPrefix(n.log, es);
    forall k | 0 <= k < h ensures Has(n.log, es[k].index, es[k].term) { FitsIff(n.log, es[k].index, es[k].term); }
    if h == |es| {
      MergeHeld(n, es);
    } else {
      MergeRest(n, es, h);
      FitsIff(n.log, es[h].index, es[h].term);
      if h > 0 { assert Has(n.log, es[h - 1].index, es[h - 1].term); }
    }
  }

  /** An accepted message is in the log afterwards, entry by entry, what came before is untouched, and
      positions stay consecutive. */
  lemma SplicedHolds(s: Log, es: seq<Entry>, h: nat, r: Log, prev: Index)
    requires Contiguous(s) && s[0].index <= prev <= LastIndex(s) && ContiguousFrom(es, prev + 1) && Spliced(s, es, h, r)
    ensures Contiguous(r) && (forall k | 0 <= k < |es| :: Has(r, es[k].index, es[k].term))
    ensures forall i | s[0].index <= i <= prev :: EntryAt(r, i) == EntryAt(s, i)
    ensures r != s ==> LastIndex(r) == prev + |es|
  {
    if h < |es| {
      var cut := es[h].index - s[0].index;
      assert forall k | 0 <= k < cut :: r[k] == s[k];
      assert forall k | h <= k < |es| :: r[cut + (k - h)] == es[k];
      forall k | 0 <= k < |es| ensures Has(r, es[k].index, es[k].term) {
        if k < h { assert Has(s, es[k].index, es[k].term); }
      }
    }
  }

  // ---- the disk ----------------------------------------------------------------------------

  /** Appending consecutive entries on disk splices them in like the memory does: a conflicting entry cuts off
      what follows, entries already there cut off nothing, and a gap panics. */
  lemma {:induction false} DiskAppendSplices(s: Log, es: seq<Entry>) returns (h: nat)
    requires Contiguous(s) && es != [] && ContiguousFrom(es, es[0].index) && s[0].index < es[0].index
    ensures DiskSpec.PutAll(s, es).Some? <==> es[0].index <= LastIndex(s) + 1
    ensures es[0].index <= LastIndex(s) + 1 ==>
              DiskSpec.PutAll(s, es).value != [] && Spliced(s, es, h, DiskSpec.PutAll(s, es).value)
    decreases |es|
  {
    h := 0;
    if Has(s, es[0].index, es[0].term) {
      PutHeld(s, es);
      h := 1;
      if |es| > 1 {
        assert ContiguousFrom(es[1..], es[1].index);
        var k := DiskAppendSplices(s, es[1..]);
        h := k + 1;
        if es[1].index <= LastIndex(s) + 1 { SplicedMore(s, es, k, DiskSpec.PutAll(s, es).value); }
      }
    } else if es[0].index <= LastIndex(s) + 1 {
      PutCuts(s, es);
      assert es[0..] == es;
    }
  }

  lemma PutHeld(s: Log, es: seq<Entry>)
    requires es != [] && Has(s, es[0].index, es[0].term)
    ensures DiskSpec.PutAll(s, es) == DiskSpec.PutAll(s, es[1..])
  {}

  lemma PutCuts(s: Log, es: seq<Entry>)
    requires Contiguous(s) && es != [] && ContiguousFrom(es, es[0].index)
    requires s[0].index < es[0].index <= LastIndex(s) + 1 && !Has(s, es[0].index, es[0].term)
    ensures DiskSpec.PutAll(s, es) == Some(s[..es[0].index - s[0].index] + es)
  {
    var kept := s[..es[0].index - s[0].index];
    PutCutsOne(s, es[0]);
    PutStep(s, es, kept + [es[0]]);
    DiskSpec.PutAllExtends(kept + [es[0]], es[1..]);
    Joined(kept, es);
  }

  lemma PutStep(s: seq<Entry>, es: seq<Entry>, t: seq<Entry>)
    requires es != [] && DiskSpec.Put(s, es[0]) == Some(t)
    ensures DiskSpec.PutAll(s, es) == DiskSpec.PutAll(t, es[1..])
  {}

  lemma Joined(s: seq<Entry>, es: seq<Entry>)
    requires es != []
    ensures s + [es[0]] + es[1..] == s + es
  {}

  lemma PutCutsOne(s: Log, e: Entry)
    requires Contiguous(s) && s[0].index < e.index <= LastIndex(s) + 1 && !Has(s, e.index, e.term)
    ensures var cut := s[..e.index - s[0].index] + [e];
            DiskSpec.Put(s, e) == Some(cut) && Contiguous(cut) && LastIndex(cut) == e.index
  {
    assert s[..|s|] == s;
  }

  lemma SplicedMore(s: Log, es: seq<Entry>, k: nat, r: Log)
    requires es != [] && Has(s, es[0].index, es[0].term) && Spliced(s, es[1..], k, r)
    ensures Spliced(s, es, k + 1, r)
  {
    forall j | 0 <= j < k + 1 ensures Has(s, es[j].index, es[j].term) {
      if j > 0 { assert es[1..][j - 1] == es[j]; }
    }
    assert es[1..][k..] == es[k + 1..];
  }

  /** Entries the disk has compacted away are skipped. */
  lemma {:induction false} DiskSkipsCompacted(s: Log, es: seq<Entry>, k: nat)
    requires k <= |es| && forall j | 0 <= j < k :: es[j].index < s[0].index
    ensures DiskSpec.PutAll(s, es) == DiskSpec.PutAll(s, es[k..])
  {
    if k > 0 {
      DiskSkipsCompacted(s, es[1..], k - 1);
      assert es[1..][k - 1..] == es[k..];
    }
  }
}
