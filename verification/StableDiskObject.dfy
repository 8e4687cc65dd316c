/** The simulator's durable storage of one node, written in place. `ok` is false where the original
    panics. */
module StableDiskObject {
  import opened Types
  import opened DiskSpec

  class StableDisk {
    var term: Term
    var voted: Option<NodeId>
    var entries: seq<Entry>
    var snapshot: Option<Meta>

    ghost predicate Valid()
      reads this
    {
      entries != []
    }

    function View(): Disk
      requires Valid()
      reads this
    {
      Disk(term, voted, entries, snapshot)
    }

    constructor ()
      ensures Valid() && View() == BLANK
    {
      term, voted, entries, snapshot := 0, None, [SENTINEL], None;
    }

    method WriteHardState(t: Term, v: Option<NodeId>)
      modifies this`term, this`voted
      ensures term == t && voted == v
    {
      term, voted := t, v;
    }

    method AppendEntries(es: seq<Entry>) returns (ok: bool)
      modifies this`entries
      ensures ok <==> PutAll(old(entries), es).Some?
      ensures ok ==> entries == PutAll(old(entries), es).value
      ensures entries == PutUntil(old(entries), es)
    {
      for k := 0 to |es|
        invariant PutAll(entries, es[k..]) == PutAll(old(entries), es)
        invariant PutUntil(entries, es[k..]) == PutUntil(old(entries), es)
      {
        var e := es[k];
        if entries == [] { return false; }
        var base := entries[0].index;
        if e.index < base { continue; }
        var offset := e.index - base;
        if offset < |entries| {
          if entries[offset].term != e.term {
            entries := entries[..offset];
            entries := entries + [e];
          }
        } else if offset == |entries| {
          entries := entries + [e];
        } else {
          return false;
        }
      }
      ok := true;
    }

    method TruncateAndAppend(from: Index, es: seq<Entry>) returns (ok: bool)
      requires Valid()
      modifies this`entries
      ensures ok <==> Cut(old(entries), from, es).Some?
      ensures ok ==> entries == Cut(old(entries), from, es).value
      ensures entries == CutUntil(old(entries), from, es)
    {
      var base := entries[0].index;
      if from < base { return false; }
      var offset := from - base;
      if offset <= |entries| {
        entries := entries[..offset];
      }
      ok := AppendEntries(es);
    }

    method WriteSnapshot(meta: Meta)
      requires Valid()
      modifies this`entries, this`snapshot
      ensures Valid() && View() == DiskSpec.WriteSnapshot(old(View()), meta)
    {
      snapshot := Some(meta);
      var base := entries[0].index;
      if meta.index > base {
        var offset := meta.index - base;
        if offset >= |entries| {
          entries := [Entry(meta.index, meta.term, [])];
        } else {
          var suffix := entries[offset..];
          entries := suffix[0 := Entry(meta.index, meta.term, [])];
        }
      }
    }

    /** Carries one action out; sends and applied entries do not concern the disk. */
    method Write(a: Action) returns (ok: bool)
      requires Valid()
      modifies this
      ensures !ok ==> Panics(old(View()), a)
      ensures Valid() ==> View() == Perform(old(View()), a)
      ensures !Valid() ==> Panics(old(View()), a)
    {
      ok := true;
      match a {
        case Send(_) =>
        case AppendLog(es) => ok := AppendEntries(es);
        case TruncateAndAppend(from, es) => ok := TruncateAndAppend(from, es);
        case PersistHardState(term, voted) => WriteHardState(term, voted);
        case Apply(_) =>
        case PersistSnapshot(index, term) => WriteSnapshot(Meta(index, term));
      }
    }
  }
}
