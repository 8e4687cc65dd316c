/** The write-ahead log of the server as a stream of records. The checksum is an arbitrary function of
    the command, passed as a parameter. */
module Wal {
  import opened Types
  import opened LogSpec

  type u32 = x: nat | x < 0x1_0000_0000
  type Checksum = Bytes -> u32

  // ---- little-endian numbers ---------------------------------------------------------------

  function Pow256(width: nat): (r: nat)
    ensures r >= 1
  {
    if width == 0 then 1 else 256 * Pow256(width - 1)
  }

  /** The `width` low bytes of v, least significant first: a cast to a narrower type drops the rest. */
  function Le(v: nat, width: nat): (r: Bytes)
    ensures |r| == width
    decreases width, v
  {
    if width == 0 then [] else [(v % 256) as byte] + Le(v / 256, width - 1)
  }

  function FromLe(b: Bytes): nat {
    if b == [] then 0 else b[0] as nat + 256 * FromLe(b[1..])
  }

  lemma {:induction false} LeRoundTrip(v: nat, width: nat)
    ensures FromLe(Le(v, width)) == v % Pow256(width)
  {
    if width > 0 {
      LeRoundTrip(v / 256, width - 1);
      assert Le(v, width)[1..] == Le(v / 256, width - 1);
      Digit(v, Pow256(width - 1));
    }
  }

  lemma Digit(v: nat, p: nat)
    requires p >= 1
    ensures v % 256 + 256 * (v / 256 % p) == v % (256 * p)
  {
    var q, r := v / 256 / p, v / 256 % p;
    assert v / 256 == p * q + r;
    assert v == (256 * p) * q + (256 * r + v % 256) by {
      assert 256 * (p * q + r) == (256 * p) * q + 256 * r;
    }
    assert 256 * r + v % 256 < 256 * p;
    Remainder(v, 256 * p, q, 256 * r + v % 256);
  }

  lemma Small(m: int, d: int)
    requires -m < m * d < m
    ensures d == 0
  {
  }

  lemma Remainder(v: nat, m: nat, q: nat, r: nat)
    requires r < m && v == m * q + r
    ensures v % m == r
  {
    var d: int := q - v / m;
    assert m * d == v % m - r;
    Small(m, d);
  }

  lemma {:induction false} FromLeRoundTrip(b: Bytes)
    ensures Le(FromLe(b), |b|) == b && FromLe(b) < Pow256(|b|)
  {
    if b != [] {
      FromLeRoundTrip(b[1..]);
    }
  }

  lemma Widths()
    ensures Pow256(8) == 0x1_0000_0000_0000_0000 && Pow256(4) == 0x1_0000_0000
  {
    assert Pow256(4) == 256 * 256 * 256 * 256 * Pow256(0);
    assert Pow256(8) == 256 * 256 * 256 * 256 * Pow256(4);
  }

  lemma Wide(v: nat)
    requires v < 0x1_0000_0000_0000_0000
    ensures FromLe(Le(v, 8)) == v
  {
    Widths();
    LeRoundTrip(v, 8);
  }

  lemma Narrow(v: nat)
    requires v < 0x1_0000_0000
    ensures FromLe(Le(v, 4)) == v
  {
    Widths();
    LeRoundTrip(v, 4);
  }

  // ---- records -----------------------------------------------------------------------------

  function Head(e: Entry): (r: Bytes)
    ensures |r| == 20
  {
    Le(e.index, 8) + Le(e.term, 8) + Le(|e.command|, 4)
  }

  function Record(crc: Checksum, e: Entry): (r: Bytes)
    ensures |r| == 24 + |e.command|
  {
    Head(e) + e.command + Le(crc(e.command), 4)
  }

  function Payload(crc: Checksum, es: seq<Entry>): Bytes {
    if es == [] then [] else Record(crc, es[0]) + Payload(crc, es[1..])
  }

  /** The entries a record can hold without losing bits. */
  predicate Fits(e: Entry) {
    e.index < 0x1_0000_0000_0000_0000 && e.term < 0x1_0000_0000_0000_0000 && |e.command| < 0x1_0000_0000
  }

  predicate AllFit(es: seq<Entry>) {
    forall e | e in es :: Fits(e)
  }

  // ---- the bytes of a record ---------------------------------------------------------------

  function U32(b: Bytes): nat
    requires |b| == 4
  {
    b[0] as nat + 0x100 * b[1] as nat + 0x1_0000 * b[2] as nat + 0x100_0000 * b[3] as nat
  }

  function U64(b: Bytes): nat
    requires |b| == 8
  {
    U32(b[..4]) + 0x1_0000_0000 * U32(b[4..])
  }

  lemma FromLeBytes(b: Bytes)
    ensures |b| == 4 ==> FromLe(b) == U32(b)
    ensures |b| == 8 ==> FromLe(b) == U64(b)
  {
    if |b| == 4 {
      FromLeFour(b);
      assert FromLe(b[4..]) == 0;
    }
    if |b| == 8 {
      FromLeFour(b);
      FromLeFour(b[4..]);
      assert b[4..][4..] == [];
    }
  }

  lemma FromLeFour(b: Bytes)
    requires |b| >= 4
    ensures FromLe(b) == U32(b[..4]) + 0x1_0000_0000 * FromLe(b[4..])
  {
    assert b[1..][1..] == b[2..] && b[2..][1..] == b[3..] && b[3..][1..] == b[4..];
    assert FromLe(b[3..]) == b[3] as nat + 256 * FromLe(b[4..]);
    assert FromLe(b[2..]) == b[2] as nat + 256 * FromLe(b[3..]);
    assert FromLe(b[1..]) == b[1] as nat + 256 * FromLe(b[2..]);
  }

  /** Where everything stands in a record: index, term, length, command, checksum, each number with its
      least significant byte first. */
  lemma RecordLayout(crc: Checksum, e: Entry)
    requires Fits(e)
    ensures var r, end := Record(crc, e), 20 + |e.command|;
            && |r| == end + 4
            && U64(r[..8]) == e.index && U64(r[8..16]) == e.term && U32(r[16..20]) == |e.command|
            && r[20..end] == e.command && U32(r[end..]) == crc(e.command)
  {
    var r, end := Record(crc, e), 20 + |e.command|;
    assert r[..8] == Le(e.index, 8) && r[8..16] == Le(e.term, 8) && r[16..20] == Le(|e.command|, 4);
    assert r[20..end] == e.command && r[end..] == Le(crc(e.command), 4);
    Wide(e.index);
    Wide(e.term);
    Narrow(|e.command|);
    Narrow(crc(e.command));
    FromLeBytes(r[..8]);
    FromLeBytes(r[8..16]);
    FromLeBytes(r[16..20]);
    FromLeBytes(r[end..]);
  }

  // ---- reading -----------------------------------------------------------------------------

  /** The first record of the data, if it is complete and its checksum is right. */
  function First(crc: Checksum, data: Bytes): (r: Option<Entry>)
    ensures r.Some? ==> 24 + |r.value.command| <= |data|
  {
    if |data| < 24 then None
    else
      var len := FromLe(data[16..20]);
      if 24 + len > |data| then None
      else
        var command := data[20..20 + len];
        if FromLe(data[20 + len..24 + len]) != crc(command) then None
        else Some(Entry(FromLe(data[..8]), FromLe(data[8..16]), command))
  }

  function Decode(crc: Checksum, data: Bytes): seq<Entry>
    decreases |data|
  {
    var e := First(crc, data);
    if e.None? then [] else [e.value] + Decode(crc, data[24 + |e.value.command|..])
  }

  /** Where the fields of a record lie. */
  lemma Fields(a: Bytes, b: Bytes, c: Bytes, d: Bytes, e: Bytes, rest: Bytes)
    requires |a| == 8 && |b| == 8 && |c| == 4 && |e| == 4
    ensures var data, n := a + b + c + d + e + rest, |d|;
            && data[..8] == a && data[8..16] == b && data[16..20] == c
            && data[20..20 + n] == d && data[20 + n..24 + n] == e && data[24 + n..] == rest
  {}

  lemma Regroup(a: Bytes, b: Bytes, c: Bytes)
    ensures (a + b) + c == a + (b + c)
  {}

  lemma Joined(data: Bytes, n: nat)
    requires 24 + n <= |data|
    ensures data[..24 + n] == data[..8] + data[8..16] + data[16..20] + data[20..20 + n] + data[20 + n..24 + n]
  {}

  lemma FirstOfFields(crc: Checksum, e: Entry, a: Bytes, b: Bytes, c: Bytes, x: Bytes, rest: Bytes)
    requires |a| == 8 && |b| == 8 && |c| == 4 && |x| == 4
    requires FromLe(a) == e.index && FromLe(b) == e.term && FromLe(c) == |e.command| && FromLe(x) == crc(e.command)
    ensures First(crc, a + b + c + e.command + x + rest) == Some(e)
    ensures (a + b + c + e.command + x + rest)[24 + |e.command|..] == rest
  {
    Fields(a, b, c, e.command, x, rest);
  }

  /** A well-formed record is read back, whatever follows it. */
  lemma FirstOfRecord(crc: Checksum, e: Entry, rest: Bytes)
    requires Fits(e)
    ensures First(crc, Record(crc, e) + rest) == Some(e)
    ensures (Record(crc, e) + rest)[24 + |e.command|..] == rest
  {
    Wide(e.index);
    Wide(e.term);
    Narrow(|e.command|);
    Narrow(crc(e.command));
    FirstOfFields(crc, e, Le(e.index, 8), Le(e.term, 8), Le(|e.command|, 4), Le(crc(e.command), 4), rest);
  }

  lemma DecodeRecord(crc: Checksum, e: Entry, rest: Bytes)
    requires Fits(e)
    ensures Decode(crc, Record(crc, e) + rest) == [e] + Decode(crc, rest)
  {
    FirstOfRecord(crc, e, rest);
  }

  /** Whatever is read is a well-formed record that stands at the front. */
  lemma RecordOfFirst(crc: Checksum, data: Bytes)
    requires First(crc, data).Some?
    ensures var e := First(crc, data).value;
            Fits(e) && data[..24 + |e.command|] == Record(crc, e)
  {
    var n := FromLe(data[16..20]);
    Widths();
    FromLeRoundTrip(data[..8]);
    FromLeRoundTrip(data[8..16]);
    FromLeRoundTrip(data[16..20]);
    FromLeRoundTrip(data[20 + n..24 + n]);
    Joined(data, n);
  }

  // ---- what replay recovers ----------------------------------------------------------------

  /** Replay never invents anything: for any bytes, what it returns is exactly what stands at the front. */
  lemma {:induction false} DecodeSound(crc: Checksum, data: Bytes)
    ensures AllFit(Decode(crc, data)) && Payload(crc, Decode(crc, data)) <= data
    decreases |data|
  {
    if First(crc, data).Some? {
      var e := First(crc, data).value;
      var n := 24 + |e.command|;
      RecordOfFirst(crc, data);
      DecodeSound(crc, data[n..]);
      var rest := Decode(crc, data[n..]);
      assert data == data[..n] + data[n..];
      assert Decode(crc, data) == [e] + rest && ([e] + rest)[1..] == rest;
    }
  }

  /** And it misses nothing: any entries whose records stand at the front are returned. */
  lemma {:induction false} DecodeComplete(crc: Checksum, es: seq<Entry>, data: Bytes)
    requires AllFit(es) && Payload(crc, es) <= data
    ensures es <= Decode(crc, data)
    decreases |es|
  {
    if es != [] {
      var n := 24 + |es[0].command|;
      var r := Record(crc, es[0]);
      assert Payload(crc, es)[..n] == r && Payload(crc, es)[n..] == Payload(crc, es[1..]);
      assert data[..n] == r && data == r + data[n..];
      DecodeRecord(crc, es[0], data[n..]);
      DecodeComplete(crc, es[1..], data[n..]);
    }
  }

  lemma {:induction false} PayloadConcat(crc: Checksum, a: seq<Entry>, b: seq<Entry>)
    ensures Payload(crc, a + b) == Payload(crc, a) + Payload(crc, b)
  {
    if a == [] {
      assert a + b == b;
    } else {
      assert (a + b)[1..] == a[1..] + b;
      PayloadConcat(crc, a[1..], b);
    }
  }

  lemma PayloadSnoc(crc: Checksum, es: seq<Entry>, k: nat)
    requires k < |es|
    ensures Payload(crc, es[..k + 1]) == Payload(crc, es[..k]) + Record(crc, es[k])
  {
    assert es[..k + 1] == es[..k] + [es[k]];
    PayloadConcat(crc, es[..k], [es[k]]);
    assert [es[k]][1..] == [];
    assert Payload(crc, [es[k]]) == Record(crc, es[k]) + [];
  }

  lemma Gather(p: Bytes, a: Bytes, b: Bytes, c: Bytes, d: Bytes, e: Bytes)
    ensures p + a + b + c + d + e == p + (a + b + c + d + e)
  {}

  lemma PayloadGrows(crc: Checksum, es: seq<Entry>, k: nat)
    requires k <= |es|
    ensures Payload(crc, es[..k]) <= Payload(crc, es)
    ensures k < |es| ==> |Payload(crc, es[..k])| < |Payload(crc, es)|
  {
    assert es == es[..k] + es[k..];
    PayloadConcat(crc, es[..k], es[k..]);
  }

  /** The whole payload is read back. */
  lemma RoundTrip(crc: Checksum, es: seq<Entry>)
    requires AllFit(es)
    ensures Decode(crc, Payload(crc, es)) == es
  {
    var r := Decode(crc, Payload(crc, es));
    DecodeComplete(crc, es, Payload(crc, es));
    DecodeSound(crc, Payload(crc, es));
    assert r[..|es|] == es;
    PayloadGrows(crc, r, |es|);
  }

  lemma TornPrefix(crc: Checksum, es: seq<Entry>, n: nat)
    requires AllFit(es) && n <= |Payload(crc, es)|
    ensures var r := Decode(crc, Payload(crc, es)[..n]); r <= es && |Payload(crc, r)| <= n
  {
    var data := Payload(crc, es)[..n];
    DecodeSound(crc, data);
    DecodeComplete(crc, Decode(crc, data), Payload(crc, es));
    RoundTrip(crc, es);
  }

  lemma CompleteSurvives(crc: Checksum, es: seq<Entry>, n: nat, k: nat)
    requires AllFit(es) && n <= |Payload(crc, es)| && k <= |es| && |Payload(crc, es[..k])| <= n
    ensures es[..k] <= Decode(crc, Payload(crc, es)[..n])
  {
    PayloadGrows(crc, es, k);
    DecodeComplete(crc, es[..k], Payload(crc, es)[..n]);
  }

  /** However the tail is torn off, exactly the entries whose records are complete come back. */
  lemma TornTail(crc: Checksum, es: seq<Entry>, n: nat)
    requires AllFit(es) && n <= |Payload(crc, es)|
    ensures var r := Decode(crc, Payload(crc, es)[..n]);
            && r <= es && |Payload(crc, r)| <= n
            && (|r| < |es| ==> n < |Payload(crc, es[..|r| + 1])|)
  {
    var r := Decode(crc, Payload(crc, es)[..n]);
    TornPrefix(crc, es, n);
    if |r| < |es| && |Payload(crc, es[..|r| + 1])| <= n {
      CompleteSurvives(crc, es, n, |r| + 1);
    }
  }

  // ---- writing behind existing records -----------------------------------------------------

  /** The file holds complete records and nothing else. */
  predicate Clean(crc: Checksum, data: Bytes) {
    Payload(crc, Decode(crc, data)) == data
  }

  lemma AppendDecodes(crc: Checksum, data: Bytes, es: seq<Entry>)
    requires Clean(crc, data) && AllFit(es)
    ensures Clean(crc, data + Payload(crc, es)) && Decode(crc, data + Payload(crc, es)) == Decode(crc, data) + es
  {
    var was := Decode(crc, data);
    DecodeSound(crc, data);
    PayloadConcat(crc, was, es);
    RoundTrip(crc, was + es);
  }

  /** The entries before the first one whose index is at least `from`. */
  function Kept(es: seq<Entry>, from: Index): (r: seq<Entry>)
    ensures r <= es && forall e | e in r :: e.index < from
    ensures |r| < |es| ==> es[|r|].index >= from
  {
    if es == [] || es[0].index >= from then [] else [es[0]] + Kept(es[1..], from)
  }

  lemma {:induction false} KeptConsecutive(es: seq<Entry>, start: Index, from: Index)
    requires ContiguousFrom(es, start) && start <= from
    ensures Kept(es, from) == if from - start <= |es| then es[..from - start] else es
  {
    if es != [] && start < from {
      KeptConsecutive(es[1..], start + 1, from);
    }
  }

  /** Truncating the records and appending does to them what the log does to its entries. */
  lemma SpliceMatchesLog(s: Log, from: Index, es: seq<Entry>)
    requires Contiguous(s) && FirstIndex(s) < from
    ensures Kept(s[1..], from) + es == Truncated(s, from, es)[1..]
  {
    KeptConsecutive(s[1..], FirstIndex(s) + 1, from);
    Tail(s, if from - FirstIndex(s) <= |s| then from - FirstIndex(s) else |s|, es);
  }

  lemma Tail(s: Log, x: nat, es: seq<Entry>)
    requires 1 <= x <= |s|
    ensures s[1..][..x - 1] + es == (s[..x] + es)[1..]
    ensures x == |s| ==> s[1..][..x - 1] == s[1..] && s[..x] == s
  {}

  // ---- sector padding ----------------------------------------------------------------------

  function Zeros(m: nat): (r: Bytes)
    ensures |r| == m && forall k | 0 <= k < m :: r[k] == 0
  {
    seq(m, _ => 0)
  }

  function Phantoms(m: nat): seq<Entry>
    decreases m
  {
    if m < 24 then [] else [SENTINEL] + Phantoms(m - 24)
  }

  lemma {:induction false} ZeroLe(b: Bytes)
    requires forall k | 0 <= k < |b| :: b[k] == 0
    ensures FromLe(b) == 0
  {
    if b != [] { ZeroLe(b[1..]); }
  }

  /** Zero bytes decode as empty records, one per 24 bytes, exactly when the checksum of nothing is 0. */
  lemma {:induction false} ZerosDecode(crc: Checksum, m: nat)
    ensures Decode(crc, Zeros(m)) == if crc([]) == 0 then Phantoms(m) else []
    decreases m
  {
    if m >= 24 {
      var z := Zeros(m);
      ZeroLe(z[..8]);
      ZeroLe(z[8..16]);
      ZeroLe(z[16..20]);
      ZeroLe(z[20..24]);
      assert z[20..20] == [];
      if crc([]) == 0 {
        assert First(crc, z) == Some(SENTINEL);
        assert z[24..] == Zeros(m - 24);
        ZerosDecode(crc, m - 24);
      }
    }
  }

  lemma {:induction false} DecodeBehind(crc: Checksum, es: seq<Entry>, tail: Bytes)
    requires AllFit(es)
    ensures Decode(crc, Payload(crc, es) + tail) == es + Decode(crc, tail)
    decreases |es|
  {
    if es == [] {
      assert Payload(crc, es) + tail == tail;
    } else {
      var rest := Payload(crc, es[1..]) + tail;
      Regroup(Record(crc, es[0]), Payload(crc, es[1..]), tail);
      DecodeBehind(crc, es[1..], tail);
      Front(crc, es, rest, Decode(crc, tail));
    }
  }

  lemma Front(crc: Checksum, es: seq<Entry>, rest: Bytes, t: seq<Entry>)
    requires es != [] && Fits(es[0]) && Decode(crc, rest) == es[1..] + t
    ensures Decode(crc, Record(crc, es[0]) + rest) == es + t
  {
    DecodeRecord(crc, es[0], rest);
    assert [es[0]] + (es[1..] + t) == es + t;
  }

  /** The padding that rounds a write up to whole sectors is whatever the allocated buffer held before.
      It is harmless if and only if it does not start with a complete and intact record; the same holds
      of whatever is written behind it later. */
  lemma TailHarmlessIff(crc: Checksum, es: seq<Entry>, tail: Bytes)
    requires AllFit(es)
    ensures Decode(crc, Payload(crc, es) + tail) == es <==> First(crc, tail).None?
  {
    DecodeBehind(crc, es, tail);
  }

  /** If the buffer happens to be zero: no harm if and only if fewer than 24 bytes are added or the
      checksum of the empty command is not 0. */
  lemma ZeroPaddingHarmlessIff(crc: Checksum, es: seq<Entry>, m: nat)
    requires AllFit(es)
    ensures Decode(crc, Payload(crc, es) + Zeros(m)) == es <==> m < 24 || crc([]) != 0
  {
    DecodeBehind(crc, es, Zeros(m));
    ZerosDecode(crc, m);
  }

  /** Records written behind padding are lost whenever the padding hides them: replay returns the first
      write alone if and only if no record starts where the padding does. */
  lemma LaterWritesLostIff(crc: Checksum, a: seq<Entry>, padding: Bytes, b: seq<Entry>)
    requires AllFit(a)
    ensures Decode(crc, Payload(crc, a) + (padding + Payload(crc, b))) == a
       <==> First(crc, padding + Payload(crc, b)).None?
  {
    TailHarmlessIff(crc, a, padding + Payload(crc, b));
  }

  lemma Shift(data: Bytes, offset: nat, a: nat, b: nat)
    requires offset <= |data| && a <= b <= |data| - offset
    ensures data[offset..][a..b] == data[offset + a..offset + b]
    ensures data[offset..][..b] == data[offset..offset + b]
    ensures b == |data| - offset ==> data[offset..][a..] == data[offset + a..]
  {}

  // ---- the file ----------------------------------------------------------------------------

  class DurableDisk {
    const crc: Checksum
    var data: Bytes
    ghost var records: seq<Entry>

    ghost predicate Valid()
      reads this
    {
      AllFit(records) && data == Payload(crc, records)
    }

    constructor (crc: Checksum)
      ensures this.crc == crc && Valid() && records == []
    {
      this.crc, data, records := crc, [], [];
    }

    method AppendLogEntries(es: seq<Entry>)
      requires Valid() && AllFit(es)
      modifies this
      ensures Valid() && records == old(records) + es
    {
      PayloadConcat(crc, records, es);
      var payload := Encode(crc, es);
      data, records := data + payload, records + es;
    }

    method ReplayWal() returns (entries: seq<Entry>)
      ensures entries == Decode(crc, data)
      ensures Valid() ==> entries == records
    {
      entries := Replay(crc, data);
      if Valid() { RoundTrip(crc, records); }
    }

    method TruncateAndAppend(from: Index, es: seq<Entry>)
      requires Valid() && AllFit(es)
      modifies this
      ensures Valid() && records == Kept(old(records), from) + es
    {
      var preserved := ReplayWal();
      var pos := Position(preserved, from);
      preserved := preserved[..pos];
      data, records := [], [];
      AppendLogEntries(preserved);
      assert records == preserved;
      AppendLogEntries(es);
    }
  }

  /** The replay loop. */
  method Replay(crc: Checksum, data: Bytes) returns (entries: seq<Entry>)
    ensures entries == Decode(crc, data)
  {
    entries := [];
    var offset := 0;
    while offset < |data|
      invariant 0 <= offset <= |data|
      invariant Decode(crc, data) == entries + Decode(crc, data[offset..])
    {
      var r := ReadRecord(crc, data, offset);
      if r.None? { break; }
      Snoc(entries, r.value, Decode(crc, data[offset + 24 + |r.value.command|..]));
      entries := entries + [r.value];
      offset := offset + 24 + |r.value.command|;
    }
    assert offset == |data| ==> data[offset..] == [];
  }

  /** The search for the first entry at or behind `from`, or the end. */
  method Position(es: seq<Entry>, from: Index) returns (pos: nat)
    ensures pos <= |es| && es[..pos] == Kept(es, from)
  {
    pos := 0;
    while pos < |es| && es[pos].index < from
      invariant pos <= |es| && forall k | 0 <= k < pos :: es[k].index < from
    {
      pos := pos + 1;
    }
    assert |Kept(es, from)| == pos;
  }

  method Encode(crc: Checksum, es: seq<Entry>) returns (payload: Bytes)
    ensures payload == Payload(crc, es)
  {
    payload := [];
    for k := 0 to |es|
      invariant payload == Payload(crc, es[..k])
    {
      var e := es[k];
      PayloadSnoc(crc, es, k);
      Gather(payload, Le(e.index, 8), Le(e.term, 8), Le(|e.command|, 4), e.command, Le(crc(e.command), 4));
      payload := payload + Le(e.index, 8);
      payload := payload + Le(e.term, 8);
      payload := payload + Le(|e.command|, 4);
      payload := payload + e.command;
      payload := payload + Le(crc(e.command), 4);
    }
    assert es[..|es|] == es;
  }

  lemma Snoc(a: seq<Entry>, e: Entry, b: seq<Entry>)
    ensures a + ([e] + b) == (a + [e]) + b
  {}

  /** One turn of the replay loop: the record at an offset of the file, if it is complete and intact. */
  method ReadRecord(crc: Checksum, data: Bytes, offset: nat) returns (r: Option<Entry>)
    requires offset < |data|
    ensures r == First(crc, data[offset..])
    ensures r.Some? ==> offset + 24 + |r.value.command| <= |data|
    ensures Decode(crc, data[offset..]) ==
            if r.None? then [] else [r.value] + Decode(crc, data[offset + 24 + |r.value.command|..])
  {
    if offset + 24 > |data| { return None; }
    var len := FromLe(data[offset + 16..offset + 20]);
    Shift(data, offset, 16, 20);
    if offset + 24 + len > |data| { return None; }
    var command := data[offset + 20..offset + 20 + len];
    var expected := FromLe(data[offset + 20 + len..offset + 24 + len]);
    Shift(data, offset, 20, 20 + len);
    Shift(data, offset, 20 + len, 24 + len);
    if crc(command) != expected { return None; }
    r := Some(Entry(FromLe(data[offset..offset + 8]), FromLe(data[offset + 8..offset + 16]), command));
    Shift(data, offset, 0, 8);
    Shift(data, offset, 8, 16);
    Shift(data, offset, 24 + len, |data| - offset);
  }
}
