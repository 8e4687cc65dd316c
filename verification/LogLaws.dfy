/** Laws of the log operations: positions stay consecutive, and compaction is transparent. */
module LogLaws {
  import opened Types
  import opened LogSpec

  lemma RestoredConsecutive(meta: Meta, es: seq<Entry>)
    ensures Contiguous(Restored(meta, es)) <==> ContiguousFrom(es, meta.index + 1)
  {
    var s := Restored(meta, es);
    if ContiguousFrom(es, meta.index + 1) {
      forall k | 0 <= k < |s| ensures s[k].index == meta.index + k {
        if k > 0 { assert s[k] == es[k - 1]; }
      }
    } else {
      var k :| 0 <= k < |es| && es[k].index != meta.index + 1 + k;
      assert s[k + 1] == es[k];
    }
  }

  lemma TruncatedConsecutive(s: Log, from: Index, es: seq<Entry>)
    requires Contiguous(s) && FirstIndex(s) < from <= LastIndex(s) + 1 && ContiguousFrom(es, from)
    ensures Contiguous(Truncated(s, from, es)) && FirstIndex(Truncated(s, from, es)) == FirstIndex(s)
  {}

  lemma CompactedConsecutive(s: Log, i: Index, t: Term)
    requires Contiguous(s)
    ensures Contiguous(Compacted(s, i, t))
    ensures FirstIndex(Compacted(s, i, t)) == if i > FirstIndex(s) then i else FirstIndex(s)
  {}

  /** Compacting at a retained index, with that entry's own term, loses no term from there on and no
      entry above. */
  lemma CompactionTransparent(s: Log, i: Index, j: Index)
    requires Contiguous(s) && FirstIndex(s) <= i <= LastIndex(s) && i <= j
    ensures var r := Compacted(s, i, TermAt(s, i).value);
            && TermAt(r, j) == TermAt(s, j)
            && (i < j ==> EntryAt(r, j) == EntryAt(s, j) && EntriesFrom(r, j) == EntriesFrom(s, j))
            && LastIndex(r) == LastIndex(s) && LastTerm(r) == LastTerm(s)
  {}

  /** Compacting and appending commute. */
  lemma CompactionCommutesWithAppend(s: Log, es: seq<Entry>, i: Index, t: Term)
    requires Contiguous(s) && i <= LastIndex(s)
    ensures Compacted(s + es, i, t) == Compacted(s, i, t) + es
  {
    var k := i - FirstIndex(s);
    if 0 < k {
      assert (s + es)[k + 1..] == s[k + 1..] + es;
    }
  }

  /** Compacting and replacing a suffix above the compaction point commute. */
  lemma CompactionCommutesWithTruncation(s: Log, from: Index, es: seq<Entry>, i: Index, t: Term)
    requires Contiguous(s) && FirstIndex(s) <= i <= LastIndex(s) && i < from
    ensures FirstIndex(Compacted(s, i, t)) < from
    ensures Compacted(Truncated(s, from, es), i, t) == Truncated(Compacted(s, i, t), from, es)
  {
    var k, x := i - FirstIndex(s), from - FirstIndex(s);
    var b := if x <= |s| then x else |s|;
    assert k < |s|;
    assert Truncated(s, from, es) == s[..b] + es by { assert s[..|s|] == s; }
    if 0 < k {
      DropTake(s, k + 1, b, es);
      var c := Compacted(s, i, t);
      assert c == [Entry(i, t, [])] + s[k + 1..];
      PutHead(Entry(i, t, []), s[k + 1..], b - k - 1, es);
      assert Truncated(c, from, es) == c[..b - k] + es by { assert c[..|c|] == c; }
    }
  }

  lemma PutHead(e: Entry, s: seq<Entry>, b: nat, es: seq<Entry>)
    requires b <= |s|
    ensures ([e] + s)[..b + 1] + es == [e] + (s[..b] + es)
  {}

  lemma DropTake(s: seq<Entry>, a: nat, b: nat, es: seq<Entry>)
    requires a <= b <= |s|
    ensures (s[..b] + es)[a..] == s[a..b] + es && s[a..][..b - a] == s[a..b]
  {}
}
