/** The run-time safety checker. It visits the nodes in the order a hash map happens to give, stops at
    the first conflict, and remembers what it saw. */
module Checkers {
  import opened Types
  import opened LogSpec
  import opened Kernel

  // ---- recording facts that must not conflict ----------------------------------------------

  /** Records key-value facts one after the other; `None` as soon as a key gets a second value. */
  function Note<K(==), V(==)>(m: map<K, V>, facts: seq<(K, V)>): Option<map<K, V>>
    decreases |facts|
  {
    if facts == [] then Some(m)
    else
      var k, v := facts[0].0, facts[0].1;
      if k !in m then Note(m[k := v], facts[1..])
      else if m[k] == v then Note(m, facts[1..])
      else None
  }

  /** What is known when the recording stops, at the end or at the first conflict. */
  function NotedUntil<K(==), V(==)>(m: map<K, V>, facts: seq<(K, V)>): map<K, V>
    decreases |facts|
  {
    if facts == [] then m
    else
      var k, v := facts[0].0, facts[0].1;
      if k !in m then NotedUntil(m[k := v], facts[1..])
      else if m[k] == v then NotedUntil(m, facts[1..])
      else m
  }

  lemma {:induction false} NotedToEnd<K, V>(m: map<K, V>, facts: seq<(K, V)>)
    ensures Note(m, facts).Some? ==> NotedUntil(m, facts) == Note(m, facts).value
    decreases |facts|
  {
    if facts != [] {
      var k, v := facts[0].0, facts[0].1;
      if k !in m { NotedToEnd(m[k := v], facts[1..]); } else { NotedToEnd(m, facts[1..]); }
    }
  }

  lemma {:induction false} NotedConcat<K, V>(m: map<K, V>, a: seq<(K, V)>, b: seq<(K, V)>)
    ensures NotedUntil(m, a + b) == if Note(m, a).Some? then NotedUntil(NotedUntil(m, a), b) else NotedUntil(m, a)
    decreases |a|
  {
    if a == [] {
      assert a + b == b;
    } else {
      assert (a + b)[1..] == a[1..] + b;
      if a[0].0 !in m { NotedConcat(m[a[0].0 := a[0].1], a[1..], b); } else { NotedConcat(m, a[1..], b); }
    }
  }

  predicate Consistent<K(==), V(==)>(m: map<K, V>, facts: seq<(K, V)>) {
    && (forall f | f in facts && f.0 in m :: m[f.0] == f.1)
    && (forall f, g | f in facts && g in facts && f.0 == g.0 :: f.1 == g.1)
  }

  /** m together with the facts. */
  predicate Holds<K(==), V(==)>(r: map<K, V>, m: map<K, V>, facts: seq<(K, V)>) {
    && (forall k | k in m :: k in r && r[k] == m[k])
    && (forall f | f in facts :: f.0 in r && r[f.0] == f.1)
    && (forall k | k in r :: k in m || (k, r[k]) in facts)
  }

  /** Recording succeeds exactly on facts that agree with each other and with what is known, and then
      adds exactly them. */
  lemma {:induction false} NoteIff<K, V>(m: map<K, V>, facts: seq<(K, V)>)
    ensures Note(m, facts).Some? <==> Consistent(m, facts)
    ensures Note(m, facts).Some? ==> Holds(Note(m, facts).value, m, facts)
    decreases |facts|
  {
    if facts != [] {
      var f, rest := facts[0], facts[1..];
      assert facts == [f] + rest;
      if f.0 !in m {
        NoteIff(m[f.0 := f.1], rest);
        assert Consistent(m[f.0 := f.1], rest) <==> Consistent(m, facts);
      } else {
        NoteIff(m, rest);
      }
    }
  }

  lemma HoldsUnique<K, V>(r: map<K, V>, s: map<K, V>, m: map<K, V>, a: seq<(K, V)>, b: seq<(K, V)>)
    requires Holds(r, m, a) && Holds(s, m, b) && (forall f :: f in a <==> f in b)
    ensures r == s
  {
    assert forall k | k in r :: k in s;
    assert forall k | k in s :: k in r;
    forall k | k in r ensures r[k] == s[k] {
      if k !in m { assert (k, r[k]) in b; }
    }
  }

  /** The outcome does not depend on the order, nor on repetitions. */
  lemma NoteOrderFree<K, V>(m: map<K, V>, a: seq<(K, V)>, b: seq<(K, V)>)
    requires forall f :: f in a <==> f in b
    ensures Note(m, a) == Note(m, b)
  {
    NoteIff(m, a);
    NoteIff(m, b);
    assert Consistent(m, a) <==> Consistent(m, b);
    if Note(m, a).Some? { HoldsUnique(Note(m, a).value, Note(m, b).value, m, a, b); }
  }

  lemma {:induction false} NoteConcat<K, V>(m: map<K, V>, a: seq<(K, V)>, b: seq<(K, V)>)
    ensures Note(m, a + b) == if Note(m, a).Some? then Note(Note(m, a).value, b) else None
    decreases |a|
  {
    if a == [] {
      assert a + b == b;
    } else {
      assert (a + b)[1..] == a[1..] + b;
      if a[0].0 !in m { NoteConcat(m[a[0].0 := a[0].1], a[1..], b); } else { NoteConcat(m, a[1..], b); }
    }
  }

  // ---- what each check looks at ------------------------------------------------------------

  function Leaders(nodes: seq<Node>): (r: seq<(Term, NodeId)>)
    ensures forall f :: f in r <==> exists n :: n in nodes && n.role == Leader && f == (n.term, n.id)
  {
    if nodes == [] then []
    else
      var rest := Leaders(nodes[1..]);
      assert nodes == [nodes[0]] + nodes[1..];
      (if nodes[0].role == Leader then [(nodes[0].term, nodes[0].id)] else []) + rest
  }

  /** An index with the term and the command applied there. */
  type Applied = (Index, (Term, Bytes))

  /** What the state machine check compares: an applied entry still in the log, with a command. */
  predicate Shows(n: Node, f: Applied) {
    && 1 <= f.0 <= n.applied && EntryAt(n.log, f.0).Some?
    && (var e := EntryAt(n.log, f.0).value; e.command != [] && f.1 == (e.term, e.command))
  }

  function CommandsFrom(n: Node, i: Index): (r: seq<Applied>)
    requires i >= 1
    ensures forall f :: f in r <==> i <= f.0 && Shows(n, f)
    decreases n.applied + 1 - i
  {
    if i > n.applied then []
    else
      var e := EntryAt(n.log, i);
      (if e.Some? && e.value.command != [] then [(i, (e.value.term, e.value.command))] else []) + CommandsFrom(n, i + 1)
  }

  function Commands(nodes: seq<Node>): seq<Applied> {
    if nodes == [] then [] else CommandsFrom(nodes[0], 1) + Commands(nodes[1..])
  }

  lemma {:induction false} CommandOf(nodes: seq<Node>, f: Applied)
    ensures f in Commands(nodes) <==> exists n :: n in nodes && f in CommandsFrom(n, 1)
  {
    if nodes != [] {
      assert nodes == [nodes[0]] + nodes[1..];
      CommandOf(nodes[1..], f);
      if f in CommandsFrom(nodes[0], 1) { assert nodes[0] in nodes; }
      if n :| n in nodes[1..] && f in CommandsFrom(n, 1) { assert n in nodes; }
    }
  }

  /** No two of the nodes, and no node and what is remembered, differ in the term or the command of an
      applied entry that is still there and not empty. */
  ghost predicate AppliedAgree(known: map<Index, (Term, Bytes)>, nodes: seq<Node>) {
    && (forall n, f: Applied | n in nodes && f.0 in known && Shows(n, f) :: known[f.0] == f.1)
    && (forall n, m, f: Applied, g: Applied | n in nodes && m in nodes && Shows(n, f) && Shows(m, g) && f.0 == g.0 ::
          f.1 == g.1)
  }

  /** What is known afterwards: everything known before and every such entry. */
  ghost predicate AppliedAdded(known: map<Index, (Term, Bytes)>, nodes: seq<Node>, after: map<Index, (Term, Bytes)>) {
    && (forall i | i in after ::
          (i in known && known[i] == after[i]) || exists n :: n in nodes && Shows(n, (i, after[i])))
    && (forall i | i in known :: i in after && after[i] == known[i])
    && (forall n, f: Applied | n in nodes && Shows(n, f) :: f.0 in after && after[f.0] == f.1)
  }

  lemma AppliedCheckIff(known: map<Index, (Term, Bytes)>, nodes: seq<Node>)
    ensures Note(known, Commands(nodes)).Some? <==> AppliedAgree(known, nodes)
    ensures AppliedAgree(known, nodes) ==> AppliedAdded(known, nodes, NotedUntil(known, Commands(nodes)))
  {
    var facts := Commands(nodes);
    NoteIff(known, facts);
    NotedToEnd(known, facts);
    forall f ensures f in facts <==> exists n :: n in nodes && Shows(n, f) {
      CommandOf(nodes, f);
      if n :| n in nodes && Shows(n, f) { assert f in CommandsFrom(n, 1); }
    }
    FactsAgree(known, nodes, facts);
    if AppliedAgree(known, nodes) { FactsAdded(known, nodes, facts, Note(known, facts).value); }
  }

  lemma FactsAgree(known: map<Index, (Term, Bytes)>, nodes: seq<Node>, facts: seq<Applied>)
    requires forall f :: f in facts <==> exists n :: n in nodes && Shows(n, f)
    ensures Consistent(known, facts) <==> AppliedAgree(known, nodes)
  {}

  lemma FactsAdded(known: map<Index, (Term, Bytes)>, nodes: seq<Node>, facts: seq<Applied>,
                   after: map<Index, (Term, Bytes)>)
    requires forall f :: f in facts <==> exists n :: n in nodes && Shows(n, f)
    requires Holds(after, known, facts) && AppliedAgree(known, nodes)
    ensures AppliedAdded(known, nodes, after)
  {
    forall i | i in after
      ensures (i in known && known[i] == after[i]) || exists n :: n in nodes && Shows(n, (i, after[i]))
    {
      if i !in known { assert (i, after[i]) in facts; }
    }
  }

  predicate Claims(n: Node, t: Term, i: NodeId) {
    n.role == Leader && n.term == t && n.id == i
  }

  /** No two of the nodes, and no node and what is remembered, lead one term under different ids. */
  ghost predicate LeadersAgree(known: map<Term, NodeId>, nodes: seq<Node>) {
    && (forall n, t, i | n in nodes && t in known && Claims(n, t, i) :: known[t] == i)
    && (forall n, m, t, i, j | n in nodes && m in nodes && Claims(n, t, i) && Claims(m, t, j) :: i == j)
  }

  ghost predicate LeadersAdded(known: map<Term, NodeId>, nodes: seq<Node>, after: map<Term, NodeId>) {
    && (forall t | t in after ::
          (t in known && known[t] == after[t]) || exists n :: n in nodes && Claims(n, t, after[t]))
    && (forall t | t in known :: t in after && after[t] == known[t])
    && (forall n, t, i | n in nodes && Claims(n, t, i) :: t in after && after[t] == i)
  }

  lemma LeaderCheckIff(known: map<Term, NodeId>, nodes: seq<Node>)
    ensures Note(known, Leaders(nodes)).Some? <==> LeadersAgree(known, nodes)
    ensures LeadersAgree(known, nodes) ==> LeadersAdded(known, nodes, NotedUntil(known, Leaders(nodes)))
  {
    var facts := Leaders(nodes);
    NoteIff(known, facts);
    NotedToEnd(known, facts);
    forall n, t: Term, i: NodeId | n in nodes && Claims(n, t, i) ensures (t, i) in facts {}
    forall f | f in facts ensures exists n :: n in nodes && Claims(n, f.0, f.1) {}
    if LeadersAgree(known, nodes) { assert Consistent(known, facts); }
  }

  function MinLast(a: Node, b: Node): Index {
    if LastIndex(a.log) <= LastIndex(b.log) then LastIndex(a.log) else LastIndex(b.log)
  }

  /** Two logs carry different commands in an entry of the same index and term. */
  predicate Clash(a: Node, b: Node, i: Index) {
    && TermAt(a.log, i).Some? && TermAt(a.log, i) == TermAt(b.log, i)
    && FirstIndex(a.log) < i && FirstIndex(b.log) < i
    && EntryAt(a.log, i).value.command != EntryAt(b.log, i).value.command
  }

  /** On logs with consecutive positions the log check compares all entries of two logs, except the
      snapshot positions: no two of one index and term may carry different commands. */
  lemma ClashIff(a: Node, b: Node)
    requires Contiguous(a.log) && Contiguous(b.log)
    ensures (exists i :: 1 <= i <= MinLast(a, b) && Clash(a, b, i)) <==>
            (exists e, f :: e in a.log[1..] && f in b.log[1..] && e.index == f.index && e.term == f.term
                            && e.command != f.command)
  {
    if i :| 1 <= i <= MinLast(a, b) && Clash(a, b, i) {
      var e, f := EntryAt(a.log, i).value, EntryAt(b.log, i).value;
      assert e == a.log[1..][i - FirstIndex(a.log) - 1] && f == b.log[1..][i - FirstIndex(b.log) - 1];
    }
    if e, f :| e in a.log[1..] && f in b.log[1..] && e.index == f.index && e.term == f.term && e.command != f.command {
      var x :| 0 <= x < |a.log[1..]| && a.log[1..][x] == e;
      var y :| 0 <= y < |b.log[1..]| && b.log[1..][y] == f;
      assert a.log[x + 1] == e && b.log[y + 1] == f;
      assert Clash(a, b, e.index) && 1 <= e.index <= MinLast(a, b);
    }
  }

  class SafetyInvariants {
    var termLeaders: map<Term, NodeId>
    var committed: map<Index, (Term, Bytes)>

    constructor ()
      ensures termLeaders == map[] && committed == map[]
    {
      termLeaders, committed := map[], map[];
    }

    method CheckElectionSafety(nodes: seq<Node>) returns (ok: bool)
      modifies this`termLeaders
      ensures ok <==> LeadersAgree(old(termLeaders), nodes)
      ensures ok ==> LeadersAdded(old(termLeaders), nodes, termLeaders)
      ensures termLeaders == NotedUntil(old(termLeaders), Leaders(nodes))
    {
      LeaderCheckIff(termLeaders, nodes);
      for k := 0 to |nodes|
        invariant Note(termLeaders, Leaders(nodes[k..])) == Note(old(termLeaders), Leaders(nodes))
        invariant NotedUntil(termLeaders, Leaders(nodes[k..])) == NotedUntil(old(termLeaders), Leaders(nodes))
      {
        var n := nodes[k];
        assert nodes[k..][1..] == nodes[k + 1..];
        if n.role == Leader {
          assert Leaders(nodes[k..])[1..] == Leaders(nodes[k + 1..]);
          if n.term in termLeaders {
            if termLeaders[n.term] != n.id { return false; }
          } else {
            termLeaders := termLeaders[n.term := n.id];
          }
        } else {
          assert Leaders(nodes[k..]) == Leaders(nodes[k + 1..]);
        }
      }
      ok := true;
    }

    method CheckLogMatching(nodes: seq<Node>) returns (ok: bool)
      ensures ok <==> forall x, y, i | 0 <= x < y < |nodes| && 1 <= i <= MinLast(nodes[x], nodes[y]) ::
                        !Clash(nodes[x], nodes[y], i)
    {
      for x := 0 to |nodes|
        invariant forall v, y, i | 0 <= v < x && v < y < |nodes| && 1 <= i <= MinLast(nodes[v], nodes[y]) ::
                    !Clash(nodes[v], nodes[y], i)
      {
        for y := x + 1 to |nodes|
          invariant forall v, i | x < v < y && 1 <= i <= MinLast(nodes[x], nodes[v]) :: !Clash(nodes[x], nodes[v], i)
        {
          for i := 1 to MinLast(nodes[x], nodes[y]) + 1
            invariant forall j | 1 <= j < i :: !Clash(nodes[x], nodes[y], j)
          {
            var t, u := TermAt(nodes[x].log, i), TermAt(nodes[y].log, i);
            if t.Some? && t == u && i > FirstIndex(nodes[x].log) && i > FirstIndex(nodes[y].log) {
              if EntryAt(nodes[x].log, i).value.command != EntryAt(nodes[y].log, i).value.command {
                assert Clash(nodes[x], nodes[y], i);
                return false;
              }
            }
          }
        }
      }
      ok := true;
    }

    method CheckStateMachineSafety(nodes: seq<Node>) returns (ok: bool)
      modifies this`committed
      ensures ok <==> AppliedAgree(old(committed), nodes)
      ensures ok ==> AppliedAdded(old(committed), nodes, committed)
      ensures committed == NotedUntil(old(committed), Commands(nodes))
    {
      AppliedCheckIff(committed, nodes);
      for k := 0 to |nodes|
        invariant Note(committed, Commands(nodes[k..])) == Note(old(committed), Commands(nodes))
        invariant NotedUntil(committed, Commands(nodes[k..])) == NotedUntil(old(committed), Commands(nodes))
      {
        assert nodes[k..][1..] == nodes[k + 1..];
        NoteConcat(committed, CommandsFrom(nodes[k], 1), Commands(nodes[k + 1..]));
        NotedConcat(committed, CommandsFrom(nodes[k], 1), Commands(nodes[k + 1..]));
        NotedToEnd(committed, CommandsFrom(nodes[k], 1));
        ok := CheckApplied(nodes[k]);
        if !ok { return; }
      }
      ok := true;
    }

    method CheckApplied(n: Node) returns (ok: bool)
      modifies this`committed
      ensures ok <==> Note(old(committed), CommandsFrom(n, 1)).Some?
      ensures committed == NotedUntil(old(committed), CommandsFrom(n, 1))
    {
      if n.applied == 0 { return true; }
      for i := 1 to n.applied + 1
        invariant Note(committed, CommandsFrom(n, i)) == Note(old(committed), CommandsFrom(n, 1))
        invariant NotedUntil(committed, CommandsFrom(n, i)) == NotedUntil(old(committed), CommandsFrom(n, 1))
      {
        var e := EntryAt(n.log, i);
        if e.None? || e.value.command == [] {
          assert CommandsFrom(n, i) == CommandsFrom(n, i + 1);
          continue;
        }
        assert CommandsFrom(n, i)[0] == (i, (e.value.term, e.value.command));
        assert CommandsFrom(n, i)[1..] == CommandsFrom(n, i + 1);
        if i in committed {
          if committed[i] != (e.value.term, e.value.command) { return false; }
        } else {
          committed := committed[i := (e.value.term, e.value.command)];
        }
      }
      ok := true;
    }

    /** `check_leader_append_only` is a stub in the original and checks nothing. */
    method VerifySafety(nodes: seq<Node>) returns (ok: bool)
      modifies this
      ensures ok <==>
          && LeadersAgree(old(termLeaders), nodes)
          && (forall x, y, i | 0 <= x < y < |nodes| && 1 <= i <= MinLast(nodes[x], nodes[y]) ::
                !Clash(nodes[x], nodes[y], i))
          && AppliedAgree(old(committed), nodes)
      ensures ok ==> LeadersAdded(old(termLeaders), nodes, termLeaders)
      ensures ok ==> AppliedAdded(old(committed), nodes, committed)
      ensures termLeaders == NotedUntil(old(termLeaders), Leaders(nodes))
    {
      ok := CheckElectionSafety(nodes);
      if !ok { return; }
      ok := CheckLogMatching(nodes);
      if !ok { return; }
      ok := CheckStateMachineSafety(nodes);
    }
  }
}
