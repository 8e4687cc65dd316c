/** The log object: a vector of entries changed in place. Reads are the functions of `LogSpec` on
    `entries`, whose type keeps the sentinel in place. */
module LogObject {
  import opened Types
  import opened LogSpec
  import LogLaws

  class RaftLog {
    var entries: Log

    constructor ()
      ensures entries == [SENTINEL]
    {
      entries := [SENTINEL];
    }

    constructor Restore(meta: Meta, es: seq<Entry>)
      ensures entries == Restored(meta, es)
      ensures Contiguous(entries) <==> ContiguousFrom(es, meta.index + 1)
    {
      var log := [Entry(meta.index, meta.term, [])];
      log := log + es;
      entries := log;
      LogLaws.RestoredConsecutive(meta, es);
    }

    method Append(es: seq<Entry>)
      requires es != [] ==> es[0].index == LastIndex(entries) + 1
      modifies this
      ensures entries == old(entries) + es
    {
      if es == [] { return; }
      entries := entries + es;
    }

    method TruncateAndAppend(from: Index, es: seq<Entry>)
      requires FirstIndex(entries) < from
      modifies this
      ensures entries == Truncated(old(entries), from, es)
    {
      var offset := from - entries[0].index;
      if offset < |entries| {
        entries := entries[..offset];
      }
      entries := entries + es;
    }

    method Compact(index: Index, term: Term)
      modifies this
      ensures entries == Compacted(old(entries), index, term)
    {
      if index <= entries[0].index { return; }
      var offset := index - entries[0].index;
      if offset >= |entries| {
        entries := [Entry(index, term, [])];
      } else {
        var suffix := entries[offset..];
        entries := suffix[0 := Entry(index, term, [])];
      }
    }

    method InstallSnapshot(meta: Meta)
      modifies this
      ensures entries == [Entry(meta.index, meta.term, [])]
    {
      entries := [Entry(meta.index, meta.term, [])];
    }
  }
}
