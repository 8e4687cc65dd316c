/** What the run-time checker does over a whole run: when it stays silent, and that it never fires. */
module Checked {
  import opened Types
  import opened LogSpec
  import opened Kernel
  import opened Cluster
  import opened History
  import opened Uniqueness
  import opened Matching
  import opened Completeness
  import opened Protocol
  import opened Theorems
  import opened Consequences
  import opened Checkers

  // ---- one check after the other -----------------------------------------------------------

  function NoteRounds<K(==), V(==)>(m: map<K, V>, rounds: seq<seq<(K, V)>>): Option<map<K, V>>
    decreases |rounds|
  {
    if rounds == [] then Some(m)
    else
      var r := Note(m, rounds[0]);
      if r.None? then None else NoteRounds(r.value, rounds[1..])
  }

  function Flat<T>(rounds: seq<seq<T>>): seq<T> {
    if rounds == [] then [] else rounds[0] + Flat(rounds[1..])
  }

  lemma {:induction false} InFlat<T>(rounds: seq<seq<T>>, x: T)
    ensures x in Flat(rounds) <==> exists k :: 0 <= k < |rounds| && x in rounds[k]
  {
    if rounds != [] {
      InFlat(rounds[1..], x);
      if x in rounds[0] {
        assert x in rounds[0];
      } else if k :| 0 <= k < |rounds[1..]| && x in rounds[1..][k] {
        assert x in rounds[k + 1];
      }
      if k :| 0 <= k < |rounds| && x in rounds[k] && k > 0 { assert x in rounds[1..][k - 1]; }
    }
  }

  lemma {:induction false} RoundsAreOne<K, V>(m: map<K, V>, rounds: seq<seq<(K, V)>>)
    ensures NoteRounds(m, rounds) == Note(m, Flat(rounds))
    decreases |rounds|
  {
    if rounds != [] {
      NoteConcat(m, rounds[0], Flat(rounds[1..]));
      if Note(m, rounds[0]).Some? { RoundsAreOne(Note(m, rounds[0]).value, rounds[1..]); }
    }
  }

  predicate RoundsAgree<K(==), V(==)>(rounds: seq<seq<(K, V)>>) {
    forall j, k, f, g | 0 <= j < |rounds| && 0 <= k < |rounds| && f in rounds[j] && g in rounds[k] :: f.0 == g.0 ==>
        f.1 == g.1
  }

  /** All checks pass exactly when the facts of all rounds agree with each other. */
  lemma RoundsIff<K, V>(rounds: seq<seq<(K, V)>>)
    ensures NoteRounds(map[], rounds).Some? <==> RoundsAgree(rounds)
  {
    var none: map<K, V> := map[];
    RoundsAreOne(none, rounds);
    NoteIff(none, Flat(rounds));
    if RoundsAgree(rounds) {
      forall f, g | f in Flat(rounds) && g in Flat(rounds) && f.0 == g.0 ensures f.1 == g.1 {
        InFlat(rounds, f);
        InFlat(rounds, g);
      }
    }
    if Consistent(none, Flat(rounds)) {
      forall j, k, f, g | 0 <= j < |rounds| && 0 <= k < |rounds| && f in rounds[j] && g in rounds[k] && f.0 == g.0
        ensures f.1 == g.1
      {
        InFlat(rounds, f);
        InFlat(rounds, g);
      }
    }
  }

  // ---- the election check ------------------------------------------------------------------

  function LeaderRounds(obs: seq<seq<Node>>): (r: seq<seq<(Term, NodeId)>>)
    ensures |r| == |obs| && forall k | 0 <= k < |obs| :: r[k] == Leaders(obs[k])
  {
    seq(|obs|, k requires 0 <= k < |obs| => Leaders(obs[k]))
  }

  predicate OneLeaderPerTerm(obs: seq<seq<Node>>) {
    forall j, k, a, b | 0 <= j < |obs| && 0 <= k < |obs| && a in obs[j] && b in obs[k] ::
      a.role == Leader && b.role == Leader && a.term == b.term ==> a.id == b.id
  }

  /** Over any sequence of observations the election check stays silent exactly when no term has been
      seen with two leaders, in whatever order each observation lists the nodes. */
  lemma ElectionCheckIff(obs: seq<seq<Node>>)
    ensures NoteRounds(map[], LeaderRounds(obs)).Some? <==> OneLeaderPerTerm(obs)
  {
    var rounds := LeaderRounds(obs);
    RoundsIff(rounds);
    if RoundsAgree(rounds) { AgreeMeansOneLeader(obs, rounds); }
    if OneLeaderPerTerm(obs) {
      forall j, k, f: (Term, NodeId), g: (Term, NodeId)
        | 0 <= j < |rounds| && 0 <= k < |rounds| && f in rounds[j] && g in rounds[k] && f.0 == g.0
        ensures f.1 == g.1
      {
        var a :| a in obs[j] && a.role == Leader && f == (a.term, a.id);
        var b :| b in obs[k] && b.role == Leader && g == (b.term, b.id);
      }
    }
  }

  lemma AgreeMeansOneLeader(obs: seq<seq<Node>>, rounds: seq<seq<(Term, NodeId)>>)
    requires RoundsAgree(rounds) && |rounds| == |obs| && forall k | 0 <= k < |obs| :: rounds[k] == Leaders(obs[k])
    ensures OneLeaderPerTerm(obs)
  {
    forall j, k, a, b | 0 <= j < |obs| && 0 <= k < |obs| && a in obs[j] && b in obs[k]
                        && a.role == Leader && b.role == Leader && a.term == b.term
      ensures a.id == b.id
    {
      assert (a.term, a.id) in rounds[j] && (b.term, b.id) in rounds[k];
    }
  }

  /** Observation k lists live nodes of the cluster after k steps, in some order. */
  ghost predicate Observes(conf: Conf, f: Family, run: seq<Step>, obs: seq<seq<Node>>) {
    && |obs| <= |run| + 1
    && forall k, n | 0 <= k < |obs| && n in obs[k] :: Alive(At(conf, f, run, k), n)
  }

  ghost predicate Alive(c: Net, n: Node) {
    n.id in c.nodes && c.nodes[n.id] == n
  }

  /** In every run whatsoever the election check never fires. */
  lemma ElectionCheckNeverFires(conf: Conf, f: Family, run: seq<Step>, obs: seq<seq<Node>>)
    requires ValidConf(conf) && Observes(conf, f, run, obs)
    ensures NoteRounds(map[], LeaderRounds(obs)).Some?
  {
    ElectionCheckIff(obs);
    forall j, k, a, b | 0 <= j < |obs| && 0 <= k < |obs| && a in obs[j] && b in obs[k]
                        && a.role == Leader && b.role == Leader && a.term == b.term
      ensures a.id == b.id
    {
      assert Alive(At(conf, f, run, j), a) && Alive(At(conf, f, run, k), b);
      ElectionSafety(conf, f, run, j, k, a.id, b.id, a.term);
    }
  }

  // ---- the log matching check --------------------------------------------------------------

  lemma Retained(n: Node, i: Index)
    requires Contiguous(n.log) && FirstIndex(n.log) < i && TermAt(n.log, i).Some?
    ensures EntryAt(n.log, i).Some? && EntryAt(n.log, i).value in n.log[1..] && EntryAt(n.log, i).value.index == i
  {
    assert n.log[1..][i - FirstIndex(n.log) - 1] == n.log[i - FirstIndex(n.log)];
  }

  lemma NodeContiguous(conf: Conf, f: Family, run: seq<Step>, i: NodeId)
    requires ValidConf(conf) && f != Any && i in State(conf, f, run).nodes
    ensures Contiguous(State(conf, f, run).nodes[i].log)
  {
    RunInv(conf, f, run);
    var w := Past(conf, f, run);
    assert NodeS(w.h, w.c.nodes[i], w.c.disks[i]);
  }

  /** In every run that compacts sanely the log matching check never fires, not even between a node now
      and a node then. */
  lemma LogCheckNeverFires(conf: Conf, f: Family, run: seq<Step>, j: nat, k: nat, a: NodeId, b: NodeId, i: Index)
    requires ValidConf(conf) && f != Any && j <= |run| && k <= |run|
    requires a in At(conf, f, run, j).nodes && b in At(conf, f, run, k).nodes
    ensures !Clash(At(conf, f, run, j).nodes[a], At(conf, f, run, k).nodes[b], i)
  {
    var n, m := At(conf, f, run, j).nodes[a], At(conf, f, run, k).nodes[b];
    if Clash(n, m, i) {
      NodeContiguous(conf, f, run[..j], a);
      NodeContiguous(conf, f, run[..k], b);
      Retained(n, i);
      Retained(m, i);
      EntryUniqueness(conf, f, run, j, k, EntryAt(n.log, i).value, EntryAt(m.log, i).value);
    }
  }

  // ---- the state machine check -------------------------------------------------------------

  function CommandRounds(obs: seq<seq<Node>>): (r: seq<seq<(Index, (Term, Bytes))>>)
    ensures |r| == |obs| && forall k | 0 <= k < |obs| :: r[k] == Commands(obs[k])
  {
    seq(|obs|, k requires 0 <= k < |obs| => Commands(obs[k]))
  }

  lemma SettledPrefix(conf: Conf, h: Hist, s: Log, c: Index, bound: Term, i: Index)
    requires Settled(conf, h, s, c, bound) && 1 <= i <= c && i < |s| && s[i].index == i
    ensures SettledEntry(conf, h, s[i])
  {
    var t: Term, n: Index :| t <= bound && c <= n && Committed(conf, h, t, n) && Agree(s, LogOf(h, t), c);
    assert LogOf(h, t)[i] == s[i];
  }

  lemma AppliedWithin(conf: Conf, run: seq<Step>, a: NodeId)
    requires ValidConf(conf) && a in State(conf, Exact, run).nodes
    ensures var n := State(conf, Exact, run).nodes[a]; n.applied <= n.commit
  {
    RunNodeFacts(conf, run, a);
  }

  /** An applied entry still in a node's log is settled from then on. */
  lemma AppliedSettled(conf: Conf, run: seq<Step>, j: nat, a: NodeId, i: Index)
    requires ValidConf(conf) && j <= |run| && a in At(conf, Exact, run, j).nodes
    requires var n := At(conf, Exact, run, j).nodes[a]; 1 <= i <= n.applied && EntryAt(n.log, i).Some?
    ensures var e := EntryAt(At(conf, Exact, run, j).nodes[a].log, i).value;
            e.index == i && SettledEntry(conf, Past(conf, Exact, run).h, e)
  {
    var n := At(conf, Exact, run, j).nodes[a];
    NodeContiguous(conf, Exact, run[..j], a);
    AppliedWithin(conf, run[..j], a);
    assert run[..|run|] == run;
    SettledInRun(conf, run, j, |run|, a);
    AppliedEntrySettled(conf, Past(conf, Exact, run).h, n, i);
  }

  lemma AppliedEntrySettled(conf: Conf, h: Hist, n: Node, i: Index)
    requires Contiguous(n.log) && n.log[0] == SENTINEL && Settled(conf, h, n.log, n.commit, n.term)
    requires 1 <= i <= n.applied <= n.commit && EntryAt(n.log, i).Some?
    ensures EntryAt(n.log, i).value.index == i && SettledEntry(conf, h, EntryAt(n.log, i).value)
  {
    SettledPrefix(conf, h, n.log, n.commit, n.term, i);
  }

  lemma CommandSettled(conf: Conf, run: seq<Step>, obs: seq<seq<Node>>, k: nat,
                       f: (Index, (Term, Bytes))) returns (e: Entry)
    requires ValidConf(conf) && Observes(conf, Exact, run, obs) && k < |obs| && f in Commands(obs[k])
    ensures SettledEntry(conf, Past(conf, Exact, run).h, e) && f == (e.index, (e.term, e.command))
  {
    CommandOf(obs[k], f);
    var n :| n in obs[k] && f in CommandsFrom(n, 1);
    assert Alive(At(conf, Exact, run, k), n);
    AppliedSettled(conf, run, k, n.id, f.0);
    e := EntryAt(n.log, f.0).value;
  }

  /** In every run in which replies are counted for what they acknowledge, the state machine check never
      fires. */
  lemma StateMachineCheckNeverFires(conf: Conf, run: seq<Step>, obs: seq<seq<Node>>)
    requires ValidConf(conf) && Observes(conf, Exact, run, obs)
    ensures NoteRounds(map[], CommandRounds(obs)).Some?
  {
    var rounds := CommandRounds(obs);
    RoundsIff(rounds);
    forall j, k, f: (Index, (Term, Bytes)), g: (Index, (Term, Bytes))
      | 0 <= j < |rounds| && 0 <= k < |rounds| && f in rounds[j] && g in rounds[k] && f.0 == g.0
      ensures f.1 == g.1
    {
      CommandsAgree(conf, run, obs, j, k, f, g);
    }
  }

  lemma CommandsAgree(conf: Conf, run: seq<Step>, obs: seq<seq<Node>>, j: nat, k: nat, f: (Index, (Term, Bytes)),
                      g: (Index, (Term, Bytes)))
    requires ValidConf(conf) && Observes(conf, Exact, run, obs) && j < |obs| && k < |obs|
    requires f in Commands(obs[j]) && g in Commands(obs[k]) && f.0 == g.0
    ensures f.1 == g.1
  {
    var a := CommandSettled(conf, run, obs, j, f);
    var b := CommandSettled(conf, run, obs, k, g);
    SettledOnce(conf, run, a, b);
  }

  lemma SettledOnce(conf: Conf, run: seq<Step>, a: Entry, b: Entry)
    requires ValidConf(conf) && a.index == b.index
    requires var h := Past(conf, Exact, run).h; SettledEntry(conf, h, a) && SettledEntry(conf, h, b)
    ensures a == b
  {
    HistoryKept(conf, run);
    SettledEntriesAgree(conf, Past(conf, Exact, run).h, a, b);
  }
}
