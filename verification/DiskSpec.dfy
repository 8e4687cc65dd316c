/** The durable copy of one node as a value. `None` results stand for the panics of the original. */
module DiskSpec {
  import opened Types
  import opened LogSpec

  datatype Disk = Disk(term: Term, voted: Option<NodeId>, log: Log, snap: Option<Meta>)

  const BLANK := Disk(0, None, [SENTINEL], None)

  /** Writes one entry; the index check is relative to the disk's own base. */
  function Put(s: seq<Entry>, e: Entry): Option<seq<Entry>> {
    if s == [] then None
    else if e.index < s[0].index then Some(s)
    else
      var offset := e.index - s[0].index;
      if offset < |s| then Some(if s[offset].term == e.term then s else s[..offset] + [e])
      else if offset == |s| then Some(s + [e])
      else None
  }

  function PutAll(s: seq<Entry>, es: seq<Entry>): Option<seq<Entry>>
    decreases |es|
  {
    if es == [] then Some(s)
    else
      var t := Put(s, es[0]);
      if t.None? then None else PutAll(t.value, es[1..])
  }

  /** The entries on disk when the writing stops, at the end or at a panic. */
  function PutUntil(s: seq<Entry>, es: seq<Entry>): seq<Entry>
    decreases |es|
  {
    if es == [] || Put(s, es[0]).None? then s else PutUntil(Put(s, es[0]).value, es[1..])
  }

  function Cut(s: Log, from: Index, es: seq<Entry>): Option<seq<Entry>> {
    if from < s[0].index then None
    else PutAll(if from - s[0].index <= |s| then s[..from - s[0].index] else s, es)
  }

  function CutUntil(s: Log, from: Index, es: seq<Entry>): seq<Entry> {
    if from < s[0].index then s
    else PutUntil(if from - s[0].index <= |s| then s[..from - s[0].index] else s, es)
  }

  /** What a write leaves on disk: its result, or as much as was written before it panicked. A disk on
      which not even the first entry is left is kept as it was. The kernel never panics the disk in runs
      that compact as the simulator does (`Consequences.DiskNeverPanics`). */
  function WithLog(d: Disk, s: Option<seq<Entry>>, partial: seq<Entry>): Disk {
    var log := s.UnwrapOr(partial);
    if log != [] then d.(log := log) else d
  }

  function WriteSnapshot(d: Disk, meta: Meta): Disk {
    d.(snap := Some(meta), log := Compacted(d.log, meta.index, meta.term))
  }

  /** Carries one action out on the disk. */
  function Perform(d: Disk, a: Action): Disk {
    match a
    case Send(_) => d
    case Apply(_) => d
    case AppendLog(es) => WithLog(d, PutAll(d.log, es), PutUntil(d.log, es))
    case TruncateAndAppend(from, es) => WithLog(d, Cut(d.log, from, es), CutUntil(d.log, from, es))
    case PersistHardState(term, voted) => d.(term := term, voted := voted)
    case PersistSnapshot(index, term) => WriteSnapshot(d, Meta(index, term))
  }

  /** The write panics, or leaves nothing that a later write or a restart could use. */
  predicate Panics(d: Disk, a: Action) {
    match a
    case AppendLog(es) => PutAll(d.log, es).UnwrapOr([]) == []
    case TruncateAndAppend(from, es) => Cut(d.log, from, es).UnwrapOr([]) == []
    case _ => false
  }

  /** Appending right behind the end just extends the log. */
  lemma {:induction false} PutAllExtends(s: Log, es: seq<Entry>)
    requires Contiguous(s) && ContiguousFrom(es, LastIndex(s) + 1)
    ensures PutAll(s, es) == Some(s + es)
    decreases |es|
  {
    if es == [] {
      assert s + es == s;
    } else {
      assert LastIndex(s) == s[0].index + |s| - 1;
      assert Put(s, es[0]) == Some(s + [es[0]]);
      PutAllExtends(s + [es[0]], es[1..]);
      assert s + [es[0]] + es[1..] == s + es;
    }
  }
}
