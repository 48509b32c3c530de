/** Validating one compile-cache file through a reader that splits the data as it
    likes. */
module CacheFile {
  import opened Wrappers
  import opened Crc
  import opened CrcDetection

  const MAGIC: bv32 := 0x8adf_dbb2
  const HEADER: nat := 20
  const BUFFER: nat := 65_536

  datatype ScanError = Busy | Unsafe | Io

  /** Everything the validator cannot control about one open file: the bytes its
      reads deliver until end of file, where each read stops, which calls fail,
      and which polls find the work cancelled or out of time. */
  datatype Script = Script(stream: seq<bv8>, split: nat -> nat, fault: nat -> bool, stop: nat -> bool)

  /** No call of this script fails and no poll stops it. */
  ghost predicate Quiet(s: Script) {
    forall n: nat :: !s.fault(n) && !s.stop(n)
  }

  function HeaderWord(header: seq<bv8>, i: nat): bv32
    requires |header| == HEADER && i < 5
  {
    Word(header[4 * i..4 * i + 4])
  }

  /** The magic number and the recorded payload size. */
  predicate HeaderMatches(header: seq<bv8>, length: nat)
    requires |header| == HEADER
  {
    HeaderWord(header, 0) == MAGIC && HeaderWord(header, 2) as nat + HEADER == length
  }

  predicate Sealed(header: seq<bv8>, crc: bv32)
    requires |header| == HEADER
  {
    crc == HeaderWord(header, 4)
  }

  /** What the file format promises. */
  ghost predicate Genuine(stream: seq<bv8>, length: nat) {
    && HEADER <= |stream|
    && HeaderMatches(stream[..HEADER], length)
    && Sealed(stream[..HEADER], Crc32(stream[HEADER..]))
  }

  class OpenFile {
    const script: Script
    var at: nat
    var calls: nat

    constructor (script: Script)
      ensures this.script == script && at == 0 && calls == 0
    {
      this.script := script;
      at, calls := 0, 0;
    }

    ghost predicate Valid() reads this { at <= |script.stream| }

    /** Some prefix of what is left, empty only at the end of the file. */
    method Read(limit: nat) returns (r: Option<seq<bv8>>)
      requires Valid() && 0 < limit
      modifies this
      ensures Valid() && calls == old(calls) + 1
      ensures r.None? <==> script.fault(old(calls))
      ensures r.None? ==> at == old(at)
      ensures r.Some? ==> |r.value| <= limit && at == old(at) + |r.value| && r.value == script.stream[old(at)..at]
      ensures r.Some? ==> (r.value == [] <==> old(at) == |script.stream|)
    {
      calls := calls + 1;
      if script.fault(calls - 1) { return None; }
      var left := |script.stream| - at;
      var most := if left < limit then left else limit;
      var chosen := script.split(calls - 1);
      var size := if chosen == 0 && 0 < most then 1 else if chosen < most then chosen else most;
      r := Some(script.stream[at..at + size]);
      at := at + size;
    }

    method Stopped() returns (stopped: bool)
      requires Valid()
      modifies this
      ensures Valid() && at == old(at) && calls == old(calls) + 1
      ensures stopped <==> script.stop(old(calls))
    {
      calls := calls + 1;
      stopped := script.stop(calls - 1);
    }

    /** Exactly `size` bytes, or nothing. */
    method ReadExact(size: nat) returns (r: Option<seq<bv8>>)
      requires Valid() && at == 0
      modifies this
      ensures Valid()
      ensures r.Some? ==> size <= |script.stream| && at == size && r.value == script.stream[..size]
      ensures Quiet(script) && size <= |script.stream| ==> r.Some?
    {
      var got: seq<bv8> := [];
      while |got| < size
        invariant Valid() && at == |got| <= size && got == script.stream[..at]
        decreases size - |got|
      {
        var more := Read(size - |got|);
        if more.None? || more.value == [] { return None; }
        got := got + more.value;
      }
      return Some(got);
    }

    /** One poll and one buffer; nothing at the end of the file. */
    method DrainBuffer(table: array<bv32>, crc: bv32) returns (r: Result<Option<bv32>, ScanError>)
      requires Valid() && IsTable(table[..])
      modifies this
      ensures Valid()
      ensures r.Ok? ==> calls == old(calls) + 2 && !script.stop(old(calls))
      ensures r.Ok? ==> (r.value.None? <==> old(at) == |script.stream|)
      ensures r.Ok? && r.value.Some? ==>
        old(at) < at && r.value.value == Running(crc, script.stream[old(at)..at])
      ensures r.Err? ==> old(calls) < calls && !Quiet(script)
      ensures r.Err? ==> if script.stop(old(calls)) then r.error.Unsafe? else r.error.Io? && script.fault(calls - 1)
    {
      var stopped := Stopped();
      if stopped { return Err(Unsafe); }
      var chunk := Read(BUFFER);
      if chunk.None? { return Err(Io); }
      if chunk.value == [] { return Ok(None); }
      var next := UpdateCrc(table, crc, chunk.value);
      return Ok(Some(next));
    }

    /** The CRC of everything up to the end of the file, one buffer at a time. */
    method Drain(table: array<bv32>, start: bv32) returns (r: Result<bv32, ScanError>)
      requires Valid() && IsTable(table[..])
      modifies this
      ensures Valid()
      ensures r.Ok? ==> r.value == Running(start, script.stream[old(at)..])
      ensures Quiet(script) ==> r.Ok?
      ensures r.Err? ==> !r.error.Busy?
    {
      var crc := start;
      ghost var from := at;
      while true
        invariant Valid() && from <= at
        invariant crc == Running(start, script.stream[from..at])
        decreases |script.stream| - at
      {
        ghost var before := at;
        var next := DrainBuffer(table, crc);
        if next.Err? { return Err(next.error); }
        if next.value.None? {
          assert script.stream[from..before] == script.stream[from..];
          return Ok(crc);
        }
        RunningConcat(start, script.stream[from..before], script.stream[before..at]);
        assert script.stream[from..at] == script.stream[from..before] + script.stream[before..at];
        crc := next.value.value;
      }
    }
  }

  /** However the reads split the data, the file is accepted only if it is
      genuine; and a genuine file is accepted unless a call fails or the work is
      stopped. */
  method ValidateCacheFile(table: array<bv32>, file: OpenFile, length: nat) returns (r: Result<(), ScanError>)
    requires file.Valid() && file.at == 0 && IsTable(table[..])
    modifies file
    ensures r.Ok? ==> Genuine(file.script.stream, length)
    ensures Quiet(file.script) ==> (r.Ok? <==> Genuine(file.script.stream, length))
    ensures r.Err? ==> !r.error.Busy?
  {
    var header := file.ReadExact(HEADER);
    if header.None? { return Err(Io); }
    if !HeaderMatches(header.value, length) { return Err(Unsafe); }
    var crc := file.Drain(table, ALL_ONES);
    if crc.Err? { return Err(crc.error); }
    if !Sealed(header.value, Inverted(crc.value)) { return Err(Unsafe); }
    return Ok(());
  }

  /** Damage confined to four consecutive payload bytes of a genuine file makes
      the file not genuine, wherever it falls and however long the file is. */
  lemma DamageIsRejected(header: seq<bv8>, before: seq<bv8>, v: seq<bv8>, w: seq<bv8>, after: seq<bv8>, length: nat)
    requires |header| == HEADER && |v| == |w| <= 4 && v != w
    requires Genuine(header + (before + v + after), length)
    ensures !Genuine(header + (before + w + after), length)
  {
    var good, bad := header + (before + v + after), header + (before + w + after);
    assert good[..HEADER] == header && bad[..HEADER] == header;
    assert good[HEADER..] == before + v + after && bad[HEADER..] == before + w + after;
    BurstDetected(before, v, w, after);
  }

  // ------------------------------------------------------------------ the format, byte by byte

  /** Four bytes as one word, the least significant first. */
  function Joined(a: bv8, b: bv8, c: bv8, d: bv8): bv32 {
    (a as bv32) | ((b as bv32) << 8) | ((c as bv32) << 16) | ((d as bv32) << 24)
  }

  lemma LittleEndian(bytes: seq<bv8>)
    requires |bytes| == 4
    ensures Word(bytes) == Joined(bytes[0], bytes[1], bytes[2], bytes[3])
  {
    WordUnrolled(bytes);
    PushesAreShifts(bytes[0], bytes[1], bytes[2], bytes[3]);
  }

  lemma WordUnrolled(bytes: seq<bv8>)
    requires |bytes| == 4
    ensures Word(bytes) == Push(bytes[0], Push(bytes[1], Push(bytes[2], Push(bytes[3], 0))))
  {
    assert bytes[3..] == [bytes[3]];
    assert bytes[3..][1..] == [] && Word(bytes[3..]) == Push(bytes[3], Word([]));
    assert bytes[2..][1..] == bytes[3..] && Word(bytes[2..]) == Push(bytes[2], Word(bytes[3..]));
    assert bytes[1..][1..] == bytes[2..] && Word(bytes[1..]) == Push(bytes[1], Word(bytes[2..]));
  }

  lemma PushesAreShifts(a: bv8, b: bv8, c: bv8, d: bv8)
    ensures Push(a, Push(b, Push(c, Push(d, 0)))) == Joined(a, b, c, d)
  {
  }

  /** A file as Node writes it, with two words that nobody reads. */
  function SampleFile(first: seq<bv8>, second: seq<bv8>): (file: seq<bv8>)
    requires |first| == |second| == 4
    ensures |file| == 29
  {
    [0xb2, 0xdb, 0xdf, 0x8a] + first + [9, 0, 0, 0] + second + [0x26, 0x39, 0xf4, 0xcb] + CHECK_INPUT
  }

  /** A whole cache file, written out: nine payload bytes, their count, and their
      published CRC. It is accepted with its own length and with no other. */
  lemma SampleIsGenuine(first: seq<bv8>, second: seq<bv8>, length: nat)
    requires |first| == |second| == 4
    ensures Genuine(SampleFile(first, second), length) <==> length == 29
  {
    var file := SampleFile(first, second);
    var header := file[..HEADER];
    assert header[0..4] == [0xb2, 0xdb, 0xdf, 0x8a] && header[8..12] == [9, 0, 0, 0];
    assert header[16..20] == [0x26, 0x39, 0xf4, 0xcb];
    assert file[HEADER..] == CHECK_INPUT;
    LittleEndian(header[0..4]);
    LittleEndian(header[8..12]);
    LittleEndian(header[16..20]);
    CheckValue();
  }
}
