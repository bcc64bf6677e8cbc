/**
 CXFS archives from writer to reader: tools/mkcxfs.py builds the image, src/ata.rs loads the disk in
 128-sector chunks, src/fs.rs searches the loaded bytes.
 */
module Cxfs {
  import opened Wrappers

  type Byte = n: nat | n < 256

  const MAGIC: seq<Byte> := [67, 88, 70, 83]     // "CXFS"
  const NAME_LEN: nat := 32
  const ENTRY_SIZE: nat := 40
  const SECTOR: nat := 512
  const U32: nat := 0x1_0000_0000

  datatype File = File(name: seq<Byte>, data: seq<Byte>)

  function Zeros(n: nat): (s: seq<Byte>)
    ensures |s| == n && forall i :: 0 <= i < n ==> s[i] == 0
  {
    seq(n, _ => 0)
  }

  // ---- Little-endian words ----

  function Le4(v: nat): (s: seq<Byte>)
    requires v < U32
    ensures |s| == 4
  {
    [v % 256, v / 256 % 256, v / 65536 % 256, v / 16777216]
  }

  function Un4(s: seq<Byte>): nat
    requires |s| == 4
  {
    s[0] as int + 256 * (s[1] as int) + 65536 * (s[2] as int) + 16777216 * (s[3] as int)
  }

  lemma Le4RoundTrip(v: nat)
    requires v < U32
    ensures Un4(Le4(v)) == v
  {
    assert v / 65536 == v / 256 / 256 && v / 16777216 == v / 65536 / 256;
  }

  // ---- The image ----

  /** Names a path can have and `pack_name` accepts: ASCII, no NUL, shorter than the field. */
  predicate NameOk(name: seq<Byte>) {
    |name| < NAME_LEN && forall i :: 0 <= i < |name| ==> 0 < name[i] < 128
  }

  function Entry(name: seq<Byte>, offset: nat, size: nat): (s: seq<Byte>)
    requires NameOk(name) && offset < U32 && size < U32
    ensures |s| == ENTRY_SIZE
  {
    name + Zeros(NAME_LEN - |name|) + Le4(offset) + Le4(size)
  }

  /** The data of the first `n` files, packed. */
  function Blobs(files: seq<File>, n: nat): seq<Byte>
    requires n <= |files|
  {
    if n == 0 then [] else Blobs(files, n - 1) + files[n - 1].data
  }

  function HeaderSize(files: seq<File>): nat { 8 + |files| * ENTRY_SIZE }

  function Offset(files: seq<File>, i: nat): nat
    requires i <= |files|
  {
    HeaderSize(files) + |Blobs(files, i)|
  }

  predicate EntryOk(files: seq<File>, i: nat)
    requires i < |files|
  {
    NameOk(files[i].name) && Offset(files, i) < U32 && |files[i].data| < U32
  }

  /** What the writer accepts; it stops with an error on anything else. */
  predicate Packable(files: seq<File>) {
    |files| < U32 && forall i :: 0 <= i < |files| ==> EntryOk(files, i)
  }

  function Table(files: seq<File>, n: nat): (s: seq<Byte>)
    requires Packable(files) && n <= |files|
    ensures |s| == n * ENTRY_SIZE
  {
    if n == 0 then []
    else
      assert EntryOk(files, n - 1);
      Table(files, n - 1) + Entry(files[n - 1].name, Offset(files, n - 1), |files[n - 1].data|)
  }

  function Padding(n: nat): nat { (SECTOR - n % SECTOR) % SECTOR }

  function Body(files: seq<File>): (s: seq<Byte>)
    requires Packable(files)
    ensures |s| == Offset(files, |files|)
  {
    MAGIC + Le4(|files|) + Table(files, |files|) + Blobs(files, |files|)
  }

  function Image(files: seq<File>): (s: seq<Byte>)
    requires Packable(files)
    ensures |s| % SECTOR == 0 && Offset(files, |files|) <= |s| < Offset(files, |files|) + SECTOR
  {
    PaddingFills(|Body(files)|);
    Body(files) + Zeros(Padding(|Body(files)|))
  }

  lemma PaddingFills(n: nat)
    ensures (n + Padding(n)) % SECTOR == 0 && Padding(n) < SECTOR
  {
  }

  // ---- The writer ----

  datatype Record = Record(name: seq<Byte>, offset: nat, size: nat)

  /** First pass of `build`: running offsets. */
  method Collect(files: seq<File>) returns (entries: seq<Record>, blobs: seq<seq<Byte>>)
    ensures |entries| == |blobs| == |files|
    ensures forall i :: 0 <= i < |files| ==> entries[i] == Record(files[i].name, Offset(files, i), |files[i].data|) && blobs[i] == files[i].data
  {
    entries, blobs := [], [];
    var cursor := 8 + |files| * ENTRY_SIZE;
    for k := 0 to |files|
      invariant |entries| == |blobs| == k && cursor == Offset(files, k)
      invariant forall i :: 0 <= i < k ==> entries[i] == Record(files[i].name, Offset(files, i), |files[i].data|) && blobs[i] == files[i].data
    {
      entries := entries + [Record(files[k].name, cursor, |files[k].data|)];
      blobs := blobs + [files[k].data];
      cursor := cursor + |files[k].data|;
    }
  }

  /** Second pass: the entry table, or an error at the first file that cannot be represented. */
  method WriteTable(files: seq<File>, entries: seq<Record>) returns (r: Option<seq<Byte>>)
    requires |files| < U32 && |entries| == |files|
    requires forall i :: 0 <= i < |files| ==> entries[i] == Record(files[i].name, Offset(files, i), |files[i].data|)
    ensures r == if Packable(files) then Some(Table(files, |files|)) else None
  {
    hide Offset, NameOk, Entry;
    var out: seq<Byte> := [];
    for k := 0 to |files|
      invariant forall i :: 0 <= i < k ==> EntryOk(files, i)
      invariant Packable(files) ==> out == Table(files, k)
    {
      var e := entries[k];
      if !NameOk(e.name) || e.offset >= U32 || e.size >= U32 {
        assert !EntryOk(files, k);
        return None;
      }
      assert EntryOk(files, k);
      out := out + Entry(e.name, e.offset, e.size);
    }
    r := Some(out);
  }

  method WriteBlobs(files: seq<File>, blobs: seq<seq<Byte>>) returns (out: seq<Byte>)
    requires |blobs| == |files| && forall i :: 0 <= i < |files| ==> blobs[i] == files[i].data
    ensures out == Blobs(files, |files|)
  {
    out := [];
    for k := 0 to |files|
      invariant out == Blobs(files, k)
    {
      out := out + blobs[k];
    }
  }

  /** The whole writer: the image of exactly the lists it can represent. */
  method Build(files: seq<File>) returns (r: Option<seq<Byte>>)
    ensures r == if Packable(files) then Some(Image(files)) else None
  {
    hide Table, Blobs;
    var entries, blobs := Collect(files);
    if |files| >= U32 { return None; }
    var out := MAGIC + Le4(|files|);
    var table := WriteTable(files, entries);
    if table.None? { return None; }
    var data := WriteBlobs(files, blobs);
    out := out + table.value + data;
    assert out == Body(files);
    var remainder := |out| % SECTOR;
    if remainder != 0 { out := out + Zeros(SECTOR - remainder); }
    assert out == Image(files);
    r := Some(out);
  }

  // ---- The loader ----

  datatype AtaError = NoDrive | DiskError | Overflow

  datatype Load = Loaded(data: seq<Byte>) | Failed(error: AtaError)

  /**
   A disk whose reads fail exactly when they reach past its end. `reply` is the error of a failed read
   and `residue` what it leaves in the buffer.
   */
  class Device {
    const disk: seq<Byte>
    const reply: (nat, nat) -> AtaError
    const residue: (nat, nat) -> Byte

    constructor (bytes: seq<Byte>, error: (nat, nat) -> AtaError, left: (nat, nat) -> Byte)
      ensures disk == bytes && reply == error
    {
      disk, reply, residue := bytes, error, left;
    }

    /** None is success. One command moves at most 256 sectors. */
    method Read(lba: nat, buf: array<Byte>, from: nat, count: nat) returns (r: Option<AtaError>)
      requires from + count * SECTOR <= buf.Length
      modifies buf
      ensures r.None? <==> count == 0 || (count <= 256 && (lba + count) * SECTOR <= |disk|)
      ensures r.Some? ==> r.value == if count > 256 then Overflow else reply(lba, count)
      ensures r.None? && count > 0 ==> buf[from..from + count * SECTOR] == disk[lba * SECTOR..(lba + count) * SECTOR]
      ensures buf[..from] == old(buf[..from])
    {
      if count == 0 { return None; }
      if count > 256 { return Some(Overflow); }
      var ok := (lba + count) * SECTOR <= |disk|;
      var k := 0;
      while k < count * SECTOR
        invariant k <= count * SECTOR
        invariant ok ==> forall j :: from <= j < from + k ==> buf[j] == disk[lba * SECTOR + (j - from)]
        invariant buf[..from] == old(buf[..from])
      {
        buf[from + k] := if ok then disk[lba * SECTOR + k] else residue(lba, k);
        k := k + 1;
      }
      r := if ok then None else Some(reply(lba, count));
    }
  }

  function Min(a: nat, b: nat): nat { if a < b then a else b }

  /**
   How many of the `have` sectors of a disk get loaded. A disk that ends inside a chunk of 128 is read to its
   end, unless the failing read says there is no drive, which ends the loading before that chunk; if it
   ends inside the first chunk with any other error, nothing is loaded at all.
   */
  function Span(have: nat, reply: (nat, nat) -> AtaError, limit: nat): Option<nat> {
    if have >= limit then Some(limit)
    else
      var chunk := have / 128 * 128;
      if reply(chunk, Min(limit - chunk, 128)).NoDrive? then Some(chunk)
      else if chunk == 0 then None
      else Some(have)
  }

  lemma SpanInside(have: nat, reply: (nat, nat) -> AtaError, limit: nat)
    ensures Span(have, reply, limit).Some? ==> Span(have, reply, limit).value <= have
  {
  }

  /** What loading must give; the only error is DiskError. */
  function LoadOf(disk: seq<Byte>, reply: (nat, nat) -> AtaError, maxBytes: nat): (r: Load)
    ensures r.Failed? ==> r.error == DiskError
  {
    var span := Span(|disk| / SECTOR, reply, (maxBytes + 511) / SECTOR);
    SpanInside(|disk| / SECTOR, reply, (maxBytes + 511) / SECTOR);
    if span.None? then Failed(DiskError) else Loaded(disk[..span.value * SECTOR])
  }

  /** Loading never looks at contents: two disks of one length load equally far, or both fail. */
  lemma LoadIgnoresContents(disk: seq<Byte>, other: seq<Byte>, reply: (nat, nat) -> AtaError, maxBytes: nat)
    requires |disk| == |other|
    ensures var (a, b) := (LoadOf(disk, reply, maxBytes), LoadOf(other, reply, maxBytes));
      && a.Loaded? == b.Loaded?
      && (a.Loaded? ==> |a.data| == |b.data| && a.data == disk[..|a.data|] && b.data == other[..|a.data|])
  {
    hide Span;
    SpanInside(|disk| / SECTOR, reply, (maxBytes + 511) / SECTOR);
  }

  /** A disk of 200 empty sectors is loaded to its end. */
  lemma EmptySectorsLoad(reply: (nat, nat) -> AtaError)
    ensures LoadOf(Zeros(200 * SECTOR), reply, 200 * SECTOR) == Loaded(Zeros(200 * SECTOR))
    ensures !reply(128, 128).NoDrive? ==> LoadOf(Zeros(200 * SECTOR), reply, 300 * SECTOR) == Loaded(Zeros(200 * SECTOR))
  {
    var z := Zeros(200 * SECTOR);
    assert z[..200 * SECTOR] == z;
  }

  /** A disk with enough sectors is loaded up to the limit, in whole sectors: not a byte less, not a sector more. */
  lemma LimitCovers(disk: seq<Byte>, reply: (nat, nat) -> AtaError, maxBytes: nat)
    requires |disk| >= maxBytes + 511
    ensures var load := LoadOf(disk, reply, maxBytes);
      load.Loaded? && maxBytes <= |load.data| < maxBytes + 512 && |load.data| % 512 == 0 && load.data == disk[..|load.data|]
  {
  }

  /** When the failing read says that there is no drive, whole chunks of 65536 bytes are loaded and the rest is not. */
  lemma NoDriveStops(disk: seq<Byte>, reply: (nat, nat) -> AtaError, maxBytes: nat)
    requires |disk| + 512 <= maxBytes && forall i: nat, n: nat :: reply(i, n).NoDrive?
    ensures var load := LoadOf(disk, reply, maxBytes);
      load.Loaded? && |load.data| <= |disk| < |load.data| + 65536 && |load.data| % 65536 == 0 && load.data == disk[..|load.data|]
  {
  }

  /** With any other error a disk of 65536 bytes or more is loaded to its last whole sector, and a smaller one not at all. */
  lemma OtherErrors(disk: seq<Byte>, reply: (nat, nat) -> AtaError, maxBytes: nat)
    requires |disk| + 512 <= maxBytes && forall i: nat, n: nat :: !reply(i, n).NoDrive?
    ensures var load := LoadOf(disk, reply, maxBytes);
      if |disk| < 65536 then load == Failed(DiskError)
      else load.Loaded? && |load.data| <= |disk| < |load.data| + 512 && |load.data| % 512 == 0 && load.data == disk[..|load.data|]
  {
  }

  /** One sector at a time up to the end of the disk; `end` is in sectors. */
  method Singles(dev: Device, buf: array<Byte>, i: nat, count: nat) returns (end: nat)
    requires (i + count) * SECTOR <= buf.Length && i * SECTOR <= |dev.disk|
    requires buf[..i * SECTOR] == dev.disk[..i * SECTOR]
    modifies buf
    ensures end == Min(i + count, |dev.disk| / SECTOR)
    ensures end * SECTOR <= buf.Length && end * SECTOR <= |dev.disk| && buf[..end * SECTOR] == dev.disk[..end * SECTOR]
  {
    end := i;
    var j := 0;
    while j < count
      invariant j <= count && end == i + j && end * SECTOR <= |dev.disk|
      invariant buf[..end * SECTOR] == dev.disk[..end * SECTOR]
    {
      var r := dev.Read(i + j, buf, (i + j) * SECTOR, 1);
      if r.Some? { break; }
      Extended(buf[..], dev.disk, end, 1);
      end := i + j + 1;
      j := j + 1;
    }
  }

  lemma Extended(buf: seq<Byte>, disk: seq<Byte>, i: nat, count: nat)
    requires (i + count) * SECTOR <= |buf| && (i + count) * SECTOR <= |disk|
    requires buf[..i * SECTOR] == disk[..i * SECTOR]
    requires buf[i * SECTOR..(i + count) * SECTOR] == disk[i * SECTOR..(i + count) * SECTOR]
    ensures buf[..(i + count) * SECTOR] == disk[..(i + count) * SECTOR]
  {
    var (m, n) := (i * SECTOR, (i + count) * SECTOR);
    assert buf[..n] == buf[..m] + buf[m..n] && disk[..n] == disk[..m] + disk[m..n];
  }

  /** The chunk in which the disk ends. */
  lemma LastChunk(have: nat, i: nat)
    requires i % 128 == 0 && i <= have < i + 128
    ensures have / 128 * 128 == i
  {
  }

  method ReadAll(dev: Device, maxBytes: nat) returns (r: Load)
    ensures r == LoadOf(dev.disk, dev.reply, maxBytes)
  {
    hide Span;
    var maxSectors := (maxBytes + 511) / SECTOR;
    ghost var have := |dev.disk| / SECTOR;
    var buf := new Byte[maxSectors * SECTOR](_ => 0);
    var end := 0;
    var i := 0;
    while i < maxSectors
      invariant i % 128 == 0 && end == Min(i, maxSectors) && end * SECTOR <= |dev.disk|
      invariant buf[..end * SECTOR] == dev.disk[..end * SECTOR]
    {
      var count := Min(maxSectors - i, 128);
      var failure := dev.Read(i, buf, i * SECTOR, count);
      if failure.None? {
        Extended(buf[..], dev.disk, i, count);
        end := i + count;
      } else {
        LastChunk(have, i);
        SpanEnds(have, dev.reply, maxSectors, i, count);
        if failure.value.NoDrive? { break; }
        if end == 0 { return Failed(DiskError); }
        end := Singles(dev, buf, i, count);
        break;
      }
      i := i + 128;
    }
    if i >= maxSectors { SpanFull(have, dev.reply, maxSectors); }
    r := Loaded(buf[..end * SECTOR]);
  }

  lemma SpanEnds(have: nat, reply: (nat, nat) -> AtaError, limit: nat, i: nat, count: nat)
    requires i < limit && i <= have < i + count && count == Min(limit - i, 128) && have / 128 * 128 == i
    ensures Span(have, reply, limit) ==
      if reply(i, count).NoDrive? then Some(i) else if i == 0 then None else Some(have)
  {
  }

  lemma SpanFull(have: nat, reply: (nat, nat) -> AtaError, limit: nat)
    requires have >= limit
    ensures Span(have, reply, limit) == Some(limit)
  {
  }

  // ---- The reader ----

  datatype Opened = Found(data: seq<Byte>) | NotFound | Panicked

  predicate Cont(s: seq<Byte>, i: nat, lo: nat, hi: nat) { i < |s| && lo <= s[i] <= hi }

  /** Well-formed UTF-8, as in table 3-7 of the Unicode Standard. */
  predicate Utf8(s: seq<Byte>) {
    if s == [] then true
    else if s[0] < 0x80 then Utf8(s[1..])
    else if 0xC2 <= s[0] <= 0xDF then Cont(s, 1, 0x80, 0xBF) && Utf8(s[2..])
    else if 0xE0 <= s[0] <= 0xEF then
      && Cont(s, 1, if s[0] == 0xE0 then 0xA0 else 0x80, if s[0] == 0xED then 0x9F else 0xBF)
      && Cont(s, 2, 0x80, 0xBF) && Utf8(s[3..])
    else
      && 0xF0 <= s[0] <= 0xF4
      && Cont(s, 1, if s[0] == 0xF0 then 0x90 else 0x80, if s[0] == 0xF4 then 0x8F else 0xBF)
      && Cont(s, 2, 0x80, 0xBF) && Cont(s, 3, 0x80, 0xBF) && Utf8(s[4..])
  }

  /** The Unicode scalar values. */
  predicate Scalar(v: nat) { v < 0xD800 || 0xE000 <= v < 0x11_0000 }

  /** One scalar value in one to four bytes: the high bits after a mark of the length, then six bits a byte. */
  function Encoding(v: nat): seq<Byte>
    requires v < 0x11_0000
  {
    if v < 0x80 then [v]
    else if v < 0x800 then [0xC0 + v / 64, 0x80 + v % 64]
    else if v < 0x1_0000 then [0xE0 + v / 64 / 64, 0x80 + v / 64 % 64, 0x80 + v % 64]
    else [0xF0 + v / 64 / 64 / 64, 0x80 + v / 64 / 64 % 64, 0x80 + v / 64 % 64, 0x80 + v % 64]
  }

  predicate Scalars(vs: seq<nat>) { forall i :: 0 <= i < |vs| ==> Scalar(vs[i]) }

  function Encoded(vs: seq<nat>): seq<Byte>
    requires Scalars(vs)
  {
    if vs == [] then [] else Encoding(vs[0]) + Encoded(vs[1..])
  }

  function Join(high: nat, low: nat): nat { high * 64 + low }

  lemma JoinSplits(high: nat, low: nat)
    requires low < 64
    ensures Join(high, low) / 64 == high && Join(high, low) % 64 == low
  {
  }

  /** The value the first bytes of `s` encode, and how many they are. */
  function Leading(s: seq<Byte>): (r: (nat, nat))
    requires s != [] && Utf8(s)
    ensures 1 <= r.1 <= |s|
  {
    if s[0] < 0x80 then (s[0], 1)
    else if s[0] < 0xE0 then (Join(s[0] - 0xC0, s[1] - 0x80), 2)
    else if s[0] < 0xF0 then (Join(Join(s[0] - 0xE0, s[1] - 0x80), s[2] - 0x80), 3)
    else (Join(Join(Join(s[0] - 0xF0, s[1] - 0x80), s[2] - 0x80), s[3] - 0x80), 4)
  }

  lemma LeadingDecodes(s: seq<Byte>)
    requires s != [] && Utf8(s)
    ensures var (v, n) := Leading(s); Scalar(v) && Encoding(v) == s[..n] && Utf8(s[n..])
  {
    if s[0] < 0x80 {
    } else if s[0] < 0xE0 {
      Decode2(s[0] - 0xC0, s[1] - 0x80);
    } else if s[0] < 0xF0 {
      Decode3(s[0] - 0xE0, s[1] - 0x80, s[2] - 0x80);
    } else {
      Decode4(s[0] - 0xF0, s[1] - 0x80, s[2] - 0x80, s[3] - 0x80);
    }
  }

  lemma Decode2(a: nat, b: nat)
    requires 2 <= a < 32 && b < 64
    ensures Scalar(Join(a, b)) && Encoding(Join(a, b)) == [0xC0 + a, 0x80 + b]
  {
    JoinSplits(a, b);
  }

  lemma Decode3(a: nat, b: nat, c: nat)
    requires a < 16 && b < 64 && c < 64 && (a == 0 ==> b >= 32) && (a == 13 ==> b < 32)
    ensures var v := Join(Join(a, b), c); Scalar(v) && Encoding(v) == [0xE0 + a, 0x80 + b, 0x80 + c]
  {
    JoinSplits(a, b);
    JoinSplits(Join(a, b), c);
  }

  lemma Decode4(a: nat, b: nat, c: nat, d: nat)
    requires a <= 4 && b < 64 && c < 64 && d < 64 && (a == 0 ==> b >= 16) && (a == 4 ==> b < 16)
    ensures var v := Join(Join(Join(a, b), c), d); Scalar(v) && Encoding(v) == [0xF0 + a, 0x80 + b, 0x80 + c, 0x80 + d]
  {
    JoinSplits(a, b);
    JoinSplits(Join(a, b), c);
    JoinSplits(Join(Join(a, b), c), d);
  }

  lemma EncodingLeads(v: nat, rest: seq<Byte>)
    requires Scalar(v) && Utf8(rest)
    ensures Utf8(Encoding(v) + rest)
  {
    var n := |Encoding(v)|;
    assert (Encoding(v) + rest)[n..] == rest;
  }

  /** Text is accepted exactly when it encodes a sequence of scalar values: every such sequence ... */
  lemma {:induction false} EncodedIsUtf8(vs: seq<nat>)
    requires Scalars(vs)
    ensures Utf8(Encoded(vs))
  {
    if vs != [] {
      EncodedIsUtf8(vs[1..]);
      EncodingLeads(vs[0], Encoded(vs[1..]));
    }
  }

  /** ... and no other. */
  lemma {:induction false} Utf8IsEncoded(s: seq<Byte>) returns (vs: seq<nat>)
    requires Utf8(s)
    ensures Scalars(vs) && Encoded(vs) == s
  {
    hide Utf8, Leading, Encoding, Scalar, Scalars;
    EncodedNone();
    hide Encoded;
    if s == [] {
      vs := [];
    } else {
      var (v, n) := Leading(s);
      LeadingDecodes(s);
      var rest := Utf8IsEncoded(s[n..]);
      vs := [v] + rest;
      EncodedOne(v, rest);
      assert s == s[..n] + s[n..];
    }
  }

  lemma EncodedNone()
    ensures Scalars([]) && Encoded([]) == []
  {
  }

  lemma EncodedOne(v: nat, rest: seq<nat>)
    requires Scalar(v) && Scalars(rest)
    ensures Scalars([v] + rest) && Encoded([v] + rest) == Encoding(v) + Encoded(rest)
  {
    assert ([v] + rest)[1..] == rest;
  }

  lemma {:induction false} AsciiIsUtf8(s: seq<Byte>)
    requires forall i :: 0 <= i < |s| ==> s[i] < 128
    ensures Utf8(s)
  {
    if s != [] { AsciiIsUtf8(s[1..]); }
  }

  function Lower(b: Byte): Byte { if 65 <= b <= 90 then b + 32 else b }

  /** `eq_ignore_ascii_case`. */
  predicate SameName(a: seq<Byte>, b: seq<Byte>) {
    |a| == |b| && forall i :: 0 <= i < |a| ==> Lower(a[i]) == Lower(b[i])
  }

  /** Equal bytes, or the two cases of one ASCII letter: 32 apart, the smaller between A and Z. */
  predicate SameLetter(a: int, b: int) {
    a == b || (65 <= a <= 90 && b == a + 32) || (65 <= b <= 90 && a == b + 32)
  }

  predicate CaseOnly(a: seq<Byte>, b: seq<Byte>) {
    |a| == |b| && forall i :: 0 <= i < |a| ==> SameLetter(a[i], b[i])
  }

  /** Two names match exactly when they differ in the case of ASCII letters only. */
  lemma SameNameExactly(a: seq<Byte>, b: seq<Byte>)
    ensures SameName(a, b) <==> CaseOnly(a, b)
  {
    forall i | 0 <= i < |a| && i < |b| ensures Lower(a[i]) == Lower(b[i]) <==> SameLetter(a[i], b[i]) {}
  }

  function FirstNul(s: seq<Byte>): (k: nat)
    ensures k <= |s| && (k < |s| ==> s[k] == 0) && forall i :: 0 <= i < k ==> s[i] != 0
  {
    if s == [] || s[0] == 0 then 0 else 1 + FirstNul(s[1..])
  }

  /** The 40 bytes of entry `i`. */
  function EntryAt(data: seq<Byte>, i: nat): (e: seq<Byte>)
    requires 8 + (i + 1) * ENTRY_SIZE <= |data|
    ensures |e| == ENTRY_SIZE
  {
    data[8 + i * ENTRY_SIZE..8 + (i + 1) * ENTRY_SIZE]
  }

  /** The search from entry `i` on, slice bounds included. */
  function Search(data: seq<Byte>, count: nat, i: nat, name: seq<Byte>): Opened
    decreases count - i
  {
    if i >= count then NotFound
    else if 8 + (i + 1) * ENTRY_SIZE > |data| then Panicked
    else
      var e := EntryAt(data, i);
      var entryName := e[..FirstNul(e[..NAME_LEN])];
      if !Utf8(entryName) then NotFound
      else if SameName(entryName, name) then
        var offset, size := Un4(e[32..36]), Un4(e[36..40]);
        if offset + size <= |data| then Found(data[offset..offset + size]) else Panicked
      else Search(data, count, i + 1, name)
  }

  datatype FsError = FsNoDrive | FsDiskError | BadMagic

  datatype Mount = Mounted(count: nat) | NotMounted(error: FsError)

  /** What mounting what was loaded gives. A missing drive loads as nothing and so has bad magic: FsNoDrive never happens. */
  function MountOf(load: Load): (r: Mount)
    requires load.Failed? ==> load.error == DiskError
    ensures r != NotMounted(FsNoDrive)
  {
    if load.Failed? then NotMounted(FsDiskError)
    else if |load.data| < 8 || load.data[..4] != MAGIC then NotMounted(BadMagic)
    else Mounted(Un4(load.data[4..8]))
  }

  const CEILING: nat := 6 * 1024 * 1024

  /** The mounted file system: `ARCHIVE` is set at most once. */
  class FileSystem {
    var archive: Option<seq<Byte>>

    constructor ()
      ensures archive == None
    {
      archive := None;
    }

    /** The file count on success; the archive keeps its first value. */
    method Init(dev: Device) returns (r: Mount)
      modifies this
      ensures var load := LoadOf(dev.disk, dev.reply, CEILING);
        && r == MountOf(load)
        && archive == if r.Mounted? && old(archive).None? then Some(load.data) else old(archive)
    {
      var load := ReadAll(dev, CEILING);
      if load.Failed? { return NotMounted(if load.error.NoDrive? then FsNoDrive else FsDiskError); }
      if |load.data| < 8 || load.data[..4] != MAGIC { return NotMounted(BadMagic); }
      r := Mounted(Un4(load.data[4..8]));
      if archive.None? { archive := Some(load.data); }
    }

    method Open(name: seq<Byte>) returns (r: Opened)
      requires archive.Some? ==> |archive.value| >= 8
      ensures r == if archive.None? then NotFound else Search(archive.value, Un4(archive.value[4..8]), 0, name)
    {
      if archive.None? { return NotFound; }
      var data := archive.value;
      var count := Un4(data[4..8]);
      for i := 0 to count
        invariant Search(data, count, 0, name) == Search(data, count, i, name)
      {
        if 8 + (i + 1) * ENTRY_SIZE > |data| { return Panicked; }
        var e := EntryAt(data, i);
        var entryName := e[..FirstNul(e[..NAME_LEN])];
        if !Utf8(entryName) { return NotFound; }
        if SameName(entryName, name) {
          var offset, size := Un4(e[32..36]), Un4(e[36..40]);
          if offset + size > |data| { return Panicked; }
          return Found(data[offset..offset + size]);
        }
      }
      return NotFound;
    }
  }

  // ---- From writer to reader ----

  /** The first file from `i` on whose name matches. */
  function FirstMatch(files: seq<File>, i: nat, name: seq<Byte>): (r: Option<nat>)
    ensures r.Some? ==> i <= r.value < |files| && SameName(files[r.value].name, name)
    ensures forall j :: i <= j < |files| && (r.Some? ==> j < r.value) ==> !SameName(files[j].name, name)
    decreases |files| - i
  {
    if i >= |files| then None
    else if SameName(files[i].name, name) then Some(i)
    else FirstMatch(files, i + 1, name)
  }

  /** File `k` is the first whose name is `name` but for the case of letters. */
  predicate FirstNamed(files: seq<File>, k: nat, name: seq<Byte>) {
    k < |files| && CaseOnly(files[k].name, name) && forall j :: 0 <= j < k ==> !CaseOnly(files[j].name, name)
  }

  lemma FirstNamedMatches(files: seq<File>, k: nat, name: seq<Byte>)
    ensures FirstNamed(files, k, name) ==> FirstMatch(files, 0, name) == Some(k)
    ensures (forall j :: 0 <= j < |files| ==> !CaseOnly(files[j].name, name)) ==> FirstMatch(files, 0, name) == None
  {
    hide SameName, CaseOnly;
    forall j | 0 <= j < |files| ensures SameName(files[j].name, name) <==> CaseOnly(files[j].name, name) {
      SameNameExactly(files[j].name, name);
    }
  }

  /** An entry gives back the name, offset and size it was packed from. */
  lemma EntryRoundTrip(name: seq<Byte>, offset: nat, size: nat)
    requires NameOk(name) && offset < U32 && size < U32
    ensures var e := Entry(name, offset, size);
      && e[..FirstNul(e[..NAME_LEN])] == name && Un4(e[32..36]) == offset && Un4(e[36..40]) == size
  {
    var e := Entry(name, offset, size);
    assert e[..NAME_LEN] == name + Zeros(NAME_LEN - |name|);
    assert FirstNul(e[..NAME_LEN]) == |name| by {
      var k := FirstNul(e[..NAME_LEN]);
      assert e[..NAME_LEN][|name|] == 0;
    }
    assert e[32..36] == Le4(offset) && e[36..40] == Le4(size);
    Le4RoundTrip(offset);
    Le4RoundTrip(size);
  }

  lemma {:induction false} TableAt(files: seq<File>, i: nat, n: nat)
    requires Packable(files) && i < n <= |files|
    ensures EntryOk(files, i)
    ensures Table(files, n)[i * ENTRY_SIZE..(i + 1) * ENTRY_SIZE] == Entry(files[i].name, Offset(files, i), |files[i].data|)
  {
    hide Entry, Offset;
    if i < n - 1 {
      TableAt(files, i, n - 1);
      assert Table(files, n)[..(n - 1) * ENTRY_SIZE] == Table(files, n - 1);
    }
  }

  lemma {:induction false} BlobAt(files: seq<File>, i: nat, n: nat)
    requires i < n <= |files|
    ensures |Blobs(files, i)| + |files[i].data| <= |Blobs(files, n)|
    ensures Blobs(files, n)[|Blobs(files, i)|..|Blobs(files, i)| + |files[i].data|] == files[i].data
  {
    if i < n - 1 {
      BlobAt(files, i, n - 1);
      assert Blobs(files, n)[..|Blobs(files, n - 1)|] == Blobs(files, n - 1);
    }
  }

  /** In any prefix of the image that holds the table, entry `i` and the data of file `i` are where the reader looks. */
  lemma ImageEntry(files: seq<File>, n: nat, i: nat)
    requires Packable(files) && i < |files| && HeaderSize(files) <= n <= |Image(files)|
    ensures EntryOk(files, i) && EntryAt(Image(files)[..n], i) == Entry(files[i].name, Offset(files, i), |files[i].data|)
    ensures Offset(files, i) + |files[i].data| <= |Image(files)|
    ensures Image(files)[Offset(files, i)..Offset(files, i) + |files[i].data|] == files[i].data
  {
    hide Entry, Table, Blobs;
    var head := MAGIC + Le4(|files|);
    var table := Table(files, |files|);
    var image := Image(files);
    TableAt(files, i, |files|);
    BlobAt(files, i, |files|);
    assert image[8..HeaderSize(files)] == table;
    PrefixSlice(image, n, 8 + i * ENTRY_SIZE, 8 + (i + 1) * ENTRY_SIZE);
    PrefixSlice(image, HeaderSize(files), 8 + i * ENTRY_SIZE, 8 + (i + 1) * ENTRY_SIZE);
    assert EntryAt(image[..n], i) == table[i * ENTRY_SIZE..(i + 1) * ENTRY_SIZE];
    assert image[HeaderSize(files)..Offset(files, |files|)] == Blobs(files, |files|);
    var b := Blobs(files, |files|);
    var (lo, hi) := (|Blobs(files, i)|, |Blobs(files, i)| + |files[i].data|);
    assert image[Offset(files, i)..Offset(files, i) + |files[i].data|] == b[lo..hi];
  }

  lemma PrefixSlice(s: seq<Byte>, n: nat, a: nat, b: nat)
    requires a <= b <= n <= |s|
    ensures s[..n][a..b] == s[a..b]
  {
  }

  // ---- The format on disk ----

  /** The 32-bit word at `i`, least significant byte first. */
  function WordAt(s: seq<Byte>, i: nat): int
    requires i + 4 <= |s|
  {
    s[i] as int + 256 * (s[i + 1] as int) + 65536 * (s[i + 2] as int) + 16777216 * (s[i + 3] as int)
  }

  /** The bytes of `name` followed by zeros, 32 bytes in all. */
  ghost predicate NameAt(s: seq<Byte>, at: nat, name: seq<Byte>) {
    at + 32 <= |s| && |name| <= 32 && forall p: nat :: p < 32 ==> s[at + p] == if p < |name| then name[p] else 0
  }

  function BytesBefore(files: seq<File>, i: nat): nat
    requires i <= |files|
  {
    if i == 0 then 0 else BytesBefore(files, i - 1) + |files[i - 1].data|
  }

  lemma {:induction false} BlobsLength(files: seq<File>, i: nat)
    requires i <= |files|
    ensures |Blobs(files, i)| == BytesBefore(files, i)
  {
    if i > 0 { BlobsLength(files, i - 1); }
  }

  /** What the writer accepts: short ASCII names, and 32 bits for every count, offset and size. */
  lemma PackableExactly(files: seq<File>)
    ensures Packable(files) <==> |files| < 4294967296 && forall i: nat :: i < |files| ==> Fits(files, i)
  {
    forall i: nat | i < |files| ensures EntryOk(files, i) <==> Fits(files, i) {
      BlobsLength(files, i);
      assert Offset(files, i) == 8 + 40 * |files| + BytesBefore(files, i);
      hide Offset, BytesBefore;
    }
    hide EntryOk, Fits;
  }

  ghost predicate Fits(files: seq<File>, i: nat)
    requires i < |files|
  {
    && |files[i].name| <= 31 && (forall p :: 0 <= p < |files[i].name| ==> 1 <= files[i].name[p] <= 127)
    && |files[i].data| < 4294967296 && 8 + 40 * |files| + BytesBefore(files, i) < 4294967296
  }

  lemma WordOfSlice(s: seq<Byte>, i: nat, v: nat)
    requires i + 4 <= |s| && v < U32 && s[i..i + 4] == Le4(v)
    ensures WordAt(s, i) == v
  {
    assert s[i] == Le4(v)[0] && s[i + 1] == Le4(v)[1] && s[i + 2] == Le4(v)[2] && s[i + 3] == Le4(v)[3];
    Le4RoundTrip(v);
  }

  /** CXFS and a count at the start, and from `end` on less than a sector of zeros up to a sector boundary. */
  ghost predicate HeadHolds(image: seq<Byte>, count: nat, end: nat) {
    && 8 <= end <= |image| < end + 512 && |image| % 512 == 0
    && image[0] == 67 && image[1] == 88 && image[2] == 70 && image[3] == 83 && WordAt(image, 4) == count
    && forall p :: end <= p < |image| ==> image[p] == 0
  }

  lemma HeadGives(image: seq<Byte>, count: nat, end: nat)
    requires 8 <= end <= |image| < end + 512 && |image| % 512 == 0 && count < U32
    requires image[..4] == MAGIC && image[4..8] == Le4(count) && forall p :: end <= p < |image| ==> image[p] == 0
    ensures HeadHolds(image, count, end)
  {
    var four := image[..4];
    assert four[0] == 67 && four[1] == 88 && four[2] == 70 && four[3] == 83;
    WordOfSlice(image, 4, count);
  }

  lemma FormatHead(files: seq<File>)
    requires Packable(files)
    ensures HeadHolds(Image(files), |files|, 8 + 40 * |files| + BytesBefore(files, |files|))
  {
    hide Table, Blobs, BytesBefore, Le4, Image, Body, HeadHolds, EntryOk;
    ImageTail(files);
    HeadBytes(files);
    HeadGives(Image(files), |files|, Offset(files, |files|));
    BlobsLength(files, |files|);
  }

  lemma ImageTail(files: seq<File>)
    requires Packable(files)
    ensures forall p :: Offset(files, |files|) <= p < |Image(files)| ==> Image(files)[p] == 0
  {
    hide Table, Blobs, Le4;
    var body := Body(files);
    assert Image(files) == body + Zeros(Padding(|body|));
  }

  lemma HeadBytes(files: seq<File>)
    requires Packable(files)
    ensures |Image(files)| >= 8 && Image(files)[..4] == MAGIC && Image(files)[4..8] == Le4(|files|)
  {
    hide Table, Blobs, Le4;
    var head, tail := MAGIC + Le4(|files|), Table(files, |files|) + Blobs(files, |files|);
    assert Body(files) == head + tail;
  }

  /** Entry `i`: the name padded with zeros to 32 bytes, the offset of the data, its size; and the data at that offset. */
  lemma FormatEntry(files: seq<File>, i: nat)
    requires Packable(files) && i < |files|
    ensures EntryHolds(Image(files), 8 + 40 * i, 8 + 40 * |files| + BytesBefore(files, i), files[i])
  {
    hide Blobs, Table, Image, Body, Entry, EntryAt, EntryHolds;
    HeaderInside(files);
    ImageEntry(files, |Image(files)|, i);
    EntrySlice(files, i);
    EntryGives(Image(files), 8 + 40 * i, Offset(files, i), files[i]);
    BlobsLength(files, i);
  }

  lemma EntryGives(image: seq<Byte>, at: nat, off: nat, f: File)
    requires NameOk(f.name) && off < U32 && |f.data| < U32 && at + 40 <= |image| && off + |f.data| <= |image|
    requires image[at..at + 40] == Entry(f.name, off, |f.data|) && image[off..off + |f.data|] == f.data
    ensures EntryHolds(image, at, off, f)
  {
    hide Entry, WordAt, NameAt;
    EntryBytes(image, at, f.name, off, |f.data|);
  }

  lemma EntrySlice(files: seq<File>, i: nat)
    requires Packable(files) && i < |files|
    ensures EntryOk(files, i) && 8 + 40 * i + 40 <= |Image(files)|
    ensures Image(files)[8 + 40 * i..8 + 40 * i + 40] == Entry(files[i].name, Offset(files, i), |files[i].data|)
  {
    hide Blobs, Table, Image, Body, Entry;
    var image, at := Image(files), 8 + 40 * i;
    HeaderInside(files);
    ImageEntry(files, |image|, i);
    PrefixSlice(image, |image|, at, at + 40);
  }

  ghost predicate EntryHolds(image: seq<Byte>, at: nat, off: nat, f: File) {
    && at + 40 <= |image| && |f.name| < 32 && off + |f.data| <= |image|
    && NameAt(image, at, f.name) && WordAt(image, at + 32) == off && WordAt(image, at + 36) == |f.data|
    && image[off..off + |f.data|] == f.data
  }

  lemma HeaderInside(files: seq<File>)
    requires Packable(files)
    ensures HeaderSize(files) <= |Image(files)| && HeaderSize(files) == 8 + 40 * |files|
  {
  }

  lemma EntryBytes(s: seq<Byte>, at: nat, name: seq<Byte>, offset: nat, size: nat)
    requires at + 40 <= |s| && NameOk(name) && offset < U32 && size < U32 && s[at..at + 40] == Entry(name, offset, size)
    ensures NameAt(s, at, name) && WordAt(s, at + 32) == offset && WordAt(s, at + 36) == size
  {
    var e := Entry(name, offset, size);
    forall p: nat | p < 32 ensures s[at + p] == if p < |name| then name[p] else 0 { assert s[at..at + 40][p] == e[p]; }
    SliceInside(s, at, 40, 32, 36);
    SliceInside(s, at, 40, 36, 40);
    assert e[32..36] == Le4(offset) && e[36..40] == Le4(size);
    hide Le4;
    WordOfSlice(s, at + 32, offset);
    WordOfSlice(s, at + 36, size);
  }

  lemma SliceInside(s: seq<Byte>, at: nat, n: nat, a: nat, b: nat)
    requires at + n <= |s| && a <= b <= n
    ensures s[at..at + n][a..b] == s[at + a..at + b]
  {
    var t, u := s[at..at + n][a..b], s[at + a..at + b];
    forall p | 0 <= p < b - a ensures t[p] == u[p] {}
  }

  // ---- Opening in any archive, well formed or not ----

  /** The name field of entry `i` holds `entryName`, up to a zero byte or to its end. */
  ghost predicate NameIs(data: seq<Byte>, i: nat, entryName: seq<Byte>) {
    var (at, n) := (8 + 40 * i, |entryName|);
    && at + 40 <= |data| && n <= 32 && data[at..at + n] == entryName && (n < 32 ==> data[at + n] == 0)
    && forall p :: 0 <= p < n ==> entryName[p] != 0
  }

  /** The first entries have these names, all of them text and none of them the one looked for. */
  ghost predicate PassedOver(data: seq<Byte>, names: seq<seq<Byte>>, name: seq<Byte>) {
    forall j: nat :: j < |names| ==> NameIs(data, j, names[j]) && Utf8(names[j]) && !CaseOnly(names[j], name)
  }

  /** What entry `i` gives when it holds the name looked for: the bytes its two words name, or a panic if there are not as many. */
  ghost predicate Gives(data: seq<Byte>, i: nat, r: Opened) {
    var at := 8 + 40 * i;
    && at + 40 <= |data|
    && var (off, size) := (WordAt(data, at + 32), WordAt(data, at + 36));
      && 0 <= off && 0 <= size
      && r == if off + size <= |data| then Found(data[off..off + size]) else Panicked
  }

  /** The name the reader takes is the one the field holds, and the words are those of the entry. */
  lemma FieldsAt(data: seq<Byte>, i: nat, entryName: seq<Byte>)
    requires NameIs(data, i, entryName)
    ensures var e := EntryAt(data, i);
      e[..FirstNul(e[..32])] == entryName && Un4(e[32..36]) == WordAt(data, 8 + 40 * i + 32) && Un4(e[36..40]) == WordAt(data, 8 + 40 * i + 36)
  {
    var (at, e) := (8 + 40 * i, EntryAt(data, i));
    assert e == data[at..at + 40];
    forall p | 0 <= p < 40 ensures e[p] == data[at + p] {}
    NulAt(data, at, e, entryName);
  }

  lemma NulAt(data: seq<Byte>, at: nat, e: seq<Byte>, entryName: seq<Byte>)
    requires at + 40 <= |data| && e == data[at..at + 40] && |entryName| <= 32 && data[at..at + |entryName|] == entryName
    requires (|entryName| < 32 ==> data[at + |entryName|] == 0) && forall p :: 0 <= p < |entryName| ==> entryName[p] != 0
    ensures e[..FirstNul(e[..32])] == entryName
  {
    var (field, n) := (e[..32], |entryName|);
    SliceInside(data, at, 40, 0, n);
    assert e[..n] == entryName;
    assert forall p :: 0 <= p < n ==> field[p] == e[..n][p];
    assert n < 32 ==> field[n] == data[at + n];
    assert FirstNul(field) == n;
  }

  lemma {:induction false} Skips(data: seq<Byte>, count: nat, names: seq<seq<Byte>>, name: seq<Byte>, i: nat)
    requires PassedOver(data, names, name) && i <= |names| <= count
    ensures Search(data, count, 0, name) == Search(data, count, i, name)
  {
    hide Utf8, SameName, CaseOnly, FirstNul, NameIs, Un4;
    if i > 0 {
      Skips(data, count, names, name, i - 1);
      assert NameIs(data, i - 1, names[i - 1]);
      Inside(data, i - 1, names[i - 1]);
      FieldsAt(data, i - 1, names[i - 1]);
      SameNameExactly(names[i - 1], name);
    }
  }

  lemma Inside(data: seq<Byte>, i: nat, entryName: seq<Byte>)
    requires NameIs(data, i, entryName)
    ensures 8 + (i + 1) * ENTRY_SIZE <= |data|
  {
  }

  /**
   Opening in any archive. Once the entries `names` stands for are passed over: nothing is found if they are all,
   or if the next name is not text; the call panics if the next entry is cut off; and an entry that matches gives
   the bytes its words name.
   */
  lemma OpenExactly(data: seq<Byte>, count: nat, names: seq<seq<Byte>>, name: seq<Byte>, next: seq<Byte>)
    requires PassedOver(data, names, name) && |names| <= count
    ensures var (i, r) := (|names|, Search(data, count, 0, name));
      && (i == count ==> r == NotFound)
      && (i < count && |data| < 8 + 40 * i + 40 ==> r == Panicked)
      && (i < count && NameIs(data, i, next) && !Utf8(next) ==> r == NotFound)
      && (i < count && NameIs(data, i, next) && Utf8(next) && CaseOnly(next, name) ==> Gives(data, i, r))
  {
    hide Utf8, SameName, CaseOnly, FirstNul, NameIs, Un4, PassedOver, WordAt;
    var i := |names|;
    Skips(data, count, names, name, i);
    if NameIs(data, i, next) {
      Inside(data, i, next);
      FieldsAt(data, i, next);
      SameNameExactly(next, name);
    }
  }

  lemma ImageHead(files: seq<File>, n: nat)
    requires Packable(files) && HeaderSize(files) <= n <= |Image(files)|
    ensures Image(files)[..n][..4] == MAGIC && Un4(Image(files)[..n][4..8]) == |files|
  {
    hide Table, Blobs;
    var head, tail := MAGIC + Le4(|files|), Table(files, |files|) + Blobs(files, |files|);
    assert Body(files) == head + tail;
    var image := Image(files);
    assert image[..4] == MAGIC && image[4..8] == Le4(|files|);
    PrefixSlice(image, n, 0, 4);
    PrefixSlice(image, n, 4, 8);
    Le4RoundTrip(|files|);
  }

  /** What opening must give when only the first `n` bytes were loaded. */
  function Expected(files: seq<File>, n: nat, i: nat, name: seq<Byte>): Opened {
    var m := FirstMatch(files, i, name);
    if m.None? then NotFound
    else if Offset(files, m.value) + |files[m.value].data| <= n then Found(files[m.value].data)
    else Panicked
  }

  /** The search in any loaded prefix that holds the table finds the first matching file. */
  lemma {:induction false} SearchFinds(files: seq<File>, n: nat, i: nat, name: seq<Byte>)
    requires Packable(files) && HeaderSize(files) <= n <= |Image(files)| && i <= |files|
    ensures Search(Image(files)[..n], |files|, i, name) == Expected(files, n, i, name)
    decreases |files| - i
  {
    hide Image, Entry, Blobs, NameOk, Un4, FirstNul, Utf8, SameName, EntryAt;
    if i < |files| {
      ImageEntry(files, n, i);
      EntryRoundTrip(files[i].name, Offset(files, i), |files[i].data|);
      NameIsUtf8(files[i].name);
      if Offset(files, i) + |files[i].data| <= n { PrefixSlice(Image(files), n, Offset(files, i), Offset(files, i) + |files[i].data|); }
      SearchFinds(files, n, i + 1, name);
    }
  }

  lemma NameIsUtf8(name: seq<Byte>)
    requires NameOk(name)
    ensures Utf8(name)
  {
    AsciiIsUtf8(name);
  }

  /** The part of an image that gets loaded. */
  lemma ImageLoads(files: seq<File>, reply: (nat, nat) -> AtaError)
    requires Packable(files)
    ensures var span := Span(|Image(files)| / SECTOR, reply, CEILING / SECTOR);
      && LoadOf(Image(files), reply, CEILING).Failed? == span.None?
      && (span.Some? ==> span.value * SECTOR <= |Image(files)| && LoadOf(Image(files), reply, CEILING).data == Image(files)[..span.value * SECTOR])
  {
    hide Image, Span;
    var image := Image(files);
    assert (CEILING + 511) / SECTOR == CEILING / SECTOR;
    SpanInside(|image| / SECTOR, reply, CEILING / SECTOR);
  }

  /** Reads past the end are never answered with NoDrive. */
  ghost predicate Present(reply: (nat, nat) -> AtaError) { forall i: nat, n: nat :: !reply(i, n).NoDrive? }

  /** Such a disk loads exactly from 128 sectors on, and then up to its end or the ceiling. */
  lemma PresentLoads(have: nat, reply: (nat, nat) -> AtaError)
    requires Present(reply)
    ensures Span(have, reply, CEILING / SECTOR) == if have < 128 then None else Some(Min(have, CEILING / SECTOR))
  {
  }

  /**
   Build, load, open, for every list the writer can represent and every disk behaviour: mounting fails with a disk
   error exactly when nothing was loaded for it, and opening returns the first matching file wherever it was loaded.
   On a disk that is present, every image of 128 to 12288 sectors is served completely.
   */
  method EndToEnd(files: seq<File>, reply: (nat, nat) -> AtaError, residue: (nat, nat) -> Byte, name: seq<Byte>)
    returns (m: Mount, r: Opened)
    requires Packable(files)
    ensures var span := Span(|Image(files)| / SECTOR, reply, CEILING / SECTOR);
      && (m == NotMounted(FsDiskError) <==> span.None?)
      && (m == NotMounted(BadMagic) <==> span == Some(0))
      && (span.Some? && HeaderSize(files) <= span.value * SECTOR ==>
            m == Mounted(|files|) && r == Expected(files, span.value * SECTOR, 0, name))
    ensures Present(reply) && 65536 <= |Image(files)| <= 6291456 ==>
      && m == Mounted(|files|)
      && ByName(files, name, r)
      && r == var k := FirstMatch(files, 0, name); if k.Some? then Found(files[k.value].data) else NotFound
  {
    hide Image, Search, Blobs, Expected, Span, Un4, ByName;
    var image := Build(files);
    ImageLoads(files, reply);
    ghost var span := Span(|Image(files)| / SECTOR, reply, CEILING / SECTOR);
    var dev := new Device(image.value, reply, residue);
    var fs := new FileSystem();
    m := fs.Init(dev);
    if span.Some? { SpanMagic(files, span.value * SECTOR); }
    if span.Some? && HeaderSize(files) <= span.value * SECTOR {
      ImageHead(files, span.value * SECTOR);
      SearchFinds(files, span.value * SECTOR, 0, name);
    }
    if Present(reply) { PresentLoads(|Image(files)| / SECTOR, reply); }
    WholeImage(files, name);
    MatchIsByName(files, name);
    r := fs.Open(name);
  }

  /** The data of the first file of that name but for the case of letters, or nothing if there is none. */
  ghost predicate ByName(files: seq<File>, name: seq<Byte>, r: Opened) {
    && (forall k: nat :: FirstNamed(files, k, name) ==> r == Found(files[k].data))
    && ((forall j :: 0 <= j < |files| ==> !CaseOnly(files[j].name, name)) ==> r == NotFound)
  }

  lemma MatchIsByName(files: seq<File>, name: seq<Byte>)
    ensures ByName(files, name, var k := FirstMatch(files, 0, name); if k.Some? then Found(files[k.value].data) else NotFound)
  {
    hide CaseOnly, SameName;
    forall k: nat ensures FirstNamed(files, k, name) ==> FirstMatch(files, 0, name) == Some(k) {
      FirstNamedMatches(files, k, name);
    }
    FirstNamedMatches(files, 0, name);
  }

  lemma SpanMagic(files: seq<File>, n: nat)
    requires Packable(files) && n <= |Image(files)|
    ensures n >= 8 ==> Image(files)[..n][..4] == MAGIC
  {
    hide Table, Blobs;
  }

  /** With the whole image loaded no file is cut off. */
  lemma WholeImage(files: seq<File>, name: seq<Byte>)
    requires Packable(files)
    ensures HeaderSize(files) <= |Image(files)|
    ensures Expected(files, |Image(files)|, 0, name)
      == var m := FirstMatch(files, 0, name); if m.Some? then Found(files[m.value].data) else NotFound
  {
    var m := FirstMatch(files, 0, name);
    if m.Some? { ImageEntry(files, |Image(files)|, m.value); }
  }
}
