/** The sentinel-based log: position 0 holds the snapshot base, real entries start at position 1. */
module LogSpec {
  import opened Types

  type Log = s: seq<Entry> | 0 < |s| witness [Entry(0, 0, [])]

  function FirstIndex(s: Log): Index { s[0].index }

  function LastIndex(s: Log): Index { s[|s| - 1].index }

  function LastTerm(s: Log): Term { s[|s| - 1].term }

  function EntryAt(s: Log, i: Index): Option<Entry> {
    if i < FirstIndex(s) || i - FirstIndex(s) >= |s| then None else Some(s[i - FirstIndex(s)])
  }

  function TermAt(s: Log, i: Index): Option<Term> {
    if i < FirstIndex(s) || i - FirstIndex(s) >= |s| then None else Some(s[i - FirstIndex(s)].term)
  }

  function EntriesFrom(s: Log, start: Index): seq<Entry> {
    if start <= FirstIndex(s) then s[1..]
    else if start - FirstIndex(s) >= |s| then []
    else s[start - FirstIndex(s)..]
  }

  function SnapshotMeta(s: Log): Option<Meta> {
    if s[0].index == 0 then None else Some(Meta(s[0].index, s[0].term))
  }

  function Restored(meta: Meta, es: seq<Entry>): Log {
    [Entry(meta.index, meta.term, [])] + es
  }

  /** Cutting at a position beyond the end removes nothing. */
  function Truncated(s: Log, from: Index, es: seq<Entry>): Log
    requires FirstIndex(s) < from
  {
    (if from - FirstIndex(s) <= |s| then s[..from - FirstIndex(s)] else s) + es
  }

  function Compacted(s: Log, i: Index, t: Term): Log {
    if i <= FirstIndex(s) then s
    else if i - FirstIndex(s) >= |s| then [Entry(i, t, [])]
    else [Entry(i, t, [])] + s[i - FirstIndex(s) + 1..]
  }

  predicate Contiguous(s: Log) {
    ContiguousFrom(s, s[0].index)
  }

  /** The largest index in [lo, hi) whose entry has term t. */
  function LastOfTerm(s: Log, t: Term, lo: Index, hi: Index): (r: Option<Index>)
    requires lo <= hi
    ensures r.Some? ==> lo <= r.value < hi && TermAt(s, r.value) == Some(t)
    ensures forall i | lo <= i < hi && (r.None? || r.value < i) :: TermAt(s, i) != Some(t)
    decreases hi
  {
    if hi == lo then None
    else if TermAt(s, hi - 1) == Some(t) then Some(hi - 1)
    else LastOfTerm(s, t, lo, hi - 1)
  }

  /** Walking down from i while the entry below still has term t. */
  function RunStart(s: Log, t: Term, i: Index): (r: Index)
    requires TermAt(s, i) == Some(t)
    ensures FirstIndex(s) <= r <= i
    ensures forall k | r <= k <= i :: TermAt(s, k) == Some(t)
    ensures r == FirstIndex(s) || TermAt(s, r - 1) != Some(t)
  {
    if FirstIndex(s) < i && TermAt(s, i - 1) == Some(t) then RunStart(s, t, i - 1) else i
  }

  /** How many leading entries of `es` the log already holds with the same term. */
  function HeldPrefix(s: Log, es: seq<Entry>): (r: nat)
    ensures r <= |es|
    ensures forall k | 0 <= k < r :: TermAt(s, es[k].index) == Some(es[k].term)
    ensures r < |es| ==> TermAt(s, es[r].index) != Some(es[r].term)
  {
    if es == [] || TermAt(s, es[0].index) != Some(es[0].term) then 0
    else 1 + HeldPrefix(s, es[1..])
  }

  /** The leading entries whose index is at most `limit`. */
  function TakeUpTo(es: seq<Entry>, limit: Index): (r: seq<Entry>)
    ensures r <= es
    ensures forall e | e in r :: e.index <= limit
    ensures |r| < |es| ==> es[|r|].index > limit
  {
    if es == [] || es[0].index > limit then []
    else [es[0]] + TakeUpTo(es[1..], limit)
  }
}
