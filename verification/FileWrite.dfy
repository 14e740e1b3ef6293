/**
 How the worker stores a payload and reads it back (crates/cvd-worker/src/fs_io.rs,
 crates/cvd-worker/src/fs_io/direct_io.rs): O_DIRECT through one aligned buffer,
 sequentially, or in block-sized ranges written in a random order.
 */
module FileWrite {
  import opened FileBytes

  const ALIGNMENT: nat := 4096
  const USIZE_MAX: nat := 0xFFFF_FFFF_FFFF_FFFF

  datatype IoResult<T> = Ok(value: T) | Failed

  function Min(a: nat, b: nat): nat { if a < b then a else b }

  /** The least positive multiple of the alignment that holds `size` bytes, if the machine has one. */
  function AlignedIoSize(size: nat): (r: IoResult<nat>)
    requires size <= USIZE_MAX
    ensures r.Ok? ==>
      && r.value % 4096 == 0 && 0 < r.value <= USIZE_MAX && size <= r.value
      && forall m: nat | m % 4096 == 0 && 0 < m && size <= m :: r.value <= m
    ensures r.Failed? ==> forall m: nat | m % 4096 == 0 && size <= m :: m > USIZE_MAX
  {
    if size == 0 then Ok(ALIGNMENT)
    else
      var up := (size + ALIGNMENT - 1) / ALIGNMENT * ALIGNMENT;
      if up <= USIZE_MAX then Ok(up) else Failed
  }

  // ------------------------------------------------------------------- O_DIRECT

  lemma WriteMore(c: Bytes, offset: nat, data: Bytes, written: nat, n: nat)
    requires written + n <= |data|
    ensures WriteAt(WriteAt(c, offset, data[..written]), offset + written, data[written..][..n])
         == WriteAt(c, offset, data[..written + n])
  {
    WriteResumes(c, offset, data[..written], data[written..][..n]);
    assert data[..written] + data[written..][..n] == data[..written + n];
  }

  method PwriteAll(f: File, buffer: array<Byte>, offset: nat) returns (r: IoResult<()>)
    modifies f
    ensures r.Ok? ==> f.bytes == WriteAt(old(f.bytes), offset, buffer[..])
  {
    ghost var before := f.bytes;
    var written := 0;
    while written < buffer.Length
      invariant 0 <= written <= buffer.Length
      invariant f.bytes == WriteAt(before, offset, buffer[..written])
    {
      var n := f.Pwrite(buffer[written..], offset + written);
      if n <= 0 { return Failed; }
      assert buffer[written..] == buffer[..][written..] && buffer[..written] == buffer[..][..written];
      WriteMore(before, offset, buffer[..], written, n);
      assert buffer[..written + n] == buffer[..][..written + n];
      written := written + n;
    }
    assert buffer[..written] == buffer[..];
    r := Ok(());
  }

  /**
   `write_file_blocking`: aligned blocks, the last one padded, then the length set
   back. However short the single writes are, the file ends up equal to the payload.
   */
  method WriteFileBlocking(f: File, payload: Bytes) returns (r: IoResult<()>)
    modifies f
    ensures r.Ok? ==> f.bytes == payload
  {
    f.bytes := [];
    var buffer := new Byte[ALIGNMENT](_ => 0);
    var offset: nat, written: nat := 0, 0;
    while written < |payload|
      invariant written == Min(offset, |payload|)
      invariant f.bytes == Padded(payload, offset)
      decreases |payload| - written
    {
      var chunk := Min(|payload| - written, ALIGNMENT);
      forall i | 0 <= i < chunk { buffer[i] := payload[written + i]; }
      forall i | chunk <= i < ALIGNMENT { buffer[i] := 0; }
      assert Padded(f.bytes, offset) + buffer[..] == Padded(payload, offset + ALIGNMENT);
      var stored := PwriteAll(f, buffer, offset);
      if stored.Failed? { return Failed; }
      offset := offset + ALIGNMENT;
      written := written + chunk;
    }
    f.SetLen(|payload|);
    assert f.bytes == payload;
    r := Ok(());
  }

  function Concat(chunks: seq<Bytes>): Bytes {
    if chunks == [] then [] else Concat(chunks[..|chunks| - 1]) + chunks[|chunks| - 1]
  }

  /** `read_file_blocking`: however short the single reads are, the chunks put together are the file. */
  method ReadFileBlocking(f: File, blockSize: nat) returns (r: IoResult<seq<Bytes>>)
    requires blockSize <= USIZE_MAX
    ensures r.Ok? ==> Concat(r.value) == f.bytes
    ensures r.Ok? ==> forall i | 0 <= i < |r.value| :: 0 < |r.value[i]|
    ensures AlignedIoSize(blockSize).Failed? ==> r.Failed?
  {
    var length := |f.bytes|;
    var size := AlignedIoSize(blockSize);
    if size.Failed? { return Failed; }
    var offset, chunks := 0, [];
    while offset < length
      invariant 0 <= offset <= length && Concat(chunks) == f.bytes[..offset]
      invariant forall i | 0 <= i < |chunks| :: 0 < |chunks[i]|
    {
      var n, data := f.Pread(size.value, offset);
      if n < 0 { return Failed; }
      if n == 0 { break; }
      var logical := Min(n, length - offset);
      assert (chunks + [data[..logical]])[..|chunks|] == chunks;
      assert f.bytes[..offset] + data[..logical] == f.bytes[..offset + n];
      chunks := chunks + [data[..logical]];
      offset := offset + n;
    }
    assert f.bytes[..length] == f.bytes;
    r := Ok(chunks);
  }

  // -------------------------------------------------------------- block ranges

  // `rs` are non-empty, adjacent, in order, and together exactly [lo, hi).
  ghost predicate Tiles(rs: seq<(nat, nat)>, lo: nat, hi: nat) {
    if rs == [] then lo == hi
    else rs[0].0 == lo && 0 < rs[0].1 && Tiles(rs[1..], lo + rs[0].1, hi)
  }

  lemma {:induction false} TilesAppend(rs: seq<(nat, nat)>, lo: nat, hi: nat, n: nat)
    requires Tiles(rs, lo, hi) && 0 < n
    ensures Tiles(rs + [(hi, n)], lo, hi + n)
  {
    if rs != [] {
      TilesAppend(rs[1..], lo + rs[0].1, hi, n);
      assert (rs + [(hi, n)])[1..] == rs[1..] + [(hi, n)];
    } else {
      assert rs + [(hi, n)] == [(hi, n)];
    }
  }

  lemma {:induction false} TilesCover(rs: seq<(nat, nat)>, lo: nat, hi: nat, i: nat)
    requires Tiles(rs, lo, hi)
    ensures lo <= hi
    ensures Covers(rs, i) <==> lo <= i < hi
  {
    if rs != [] {
      TilesCover(rs[1..], lo + rs[0].1, hi, i);
      if Covers(rs[1..], i) {
        var r :| r in rs[1..] && r.0 <= i < r.0 + r.1;
        assert r in rs;
      }
      if Covers(rs, i) {
        var r :| r in rs && r.0 <= i < r.0 + r.1;
        assert r == rs[0] || r in rs[1..];
      }
      if lo <= i < lo + rs[0].1 { assert rs[0] in rs; }
    }
  }

  ghost predicate Covers(rs: seq<(nat, nat)>, i: nat) { exists r :: r in rs && r.0 <= i < r.0 + r.1 }

  // The loop shared by `chunk_ranges` (start 0) and `unaligned_ranges` (a drawn start).
  method RangesFrom(start: nat, length: nat, blockSize: nat) returns (rs: seq<(nat, nat)>)
    requires start <= length
    ensures Tiles(rs, start, length)
    ensures forall r | r in rs :: r.1 <= if blockSize < 1 then 1 else blockSize
    ensures forall k | 0 <= k < |rs| - 1 :: rs[k].1 == if blockSize < 1 then 1 else blockSize
  {
    var block := if blockSize < 1 then 1 else blockSize;
    var offset := start;
    rs := [];
    while offset < length
      invariant start <= offset <= length && Tiles(rs, start, offset)
      invariant forall r | r in rs :: r.1 <= block
      invariant forall k | 0 <= k < |rs| :: rs[k].1 == block || (k == |rs| - 1 && offset == length)
    {
      var n := Min(length - offset, block);
      TilesAppend(rs, start, offset, n);
      rs := rs + [(offset, n)];
      offset := offset + n;
    }
  }

  /** Some permutation of the ranges; which one the generator picks does not matter. */
  method ShuffleRanges(rs: seq<(nat, nat)>) returns (out: seq<(nat, nat)>)
    ensures multiset(out) == multiset(rs)
  {
    out := rs;
    var i := |out|;
    while i > 1
      invariant |out| == |rs| && 0 <= i <= |rs| && multiset(out) == multiset(rs)
    {
      i := i - 1;
      var j :| 0 <= j <= i;
      out := out[i := out[j]][j := out[i]];
    }
  }

  // What writing the ranges one after the other makes of a file.
  function Written(c: Bytes, payload: Bytes, rs: seq<(nat, nat)>): Bytes
    requires forall r | r in rs :: r.0 + r.1 <= |payload|
  {
    if rs == [] then c
    else
      var last := rs[|rs| - 1];
      WriteAt(Written(c, payload, rs[..|rs| - 1]), last.0, payload[last.0..last.0 + last.1])
  }

  // Every covered byte is the payload's, every other byte before the end is zero.
  lemma {:induction false} WrittenIs(payload: Bytes, rs: seq<(nat, nat)>)
    requires forall r | r in rs :: r.0 + r.1 <= |payload|
    ensures |Written([], payload, rs)| <= |payload|
    ensures forall i | 0 <= i < |Written([], payload, rs)| ::
              Written([], payload, rs)[i] == if Covers(rs, i) then payload[i] else 0
    ensures forall i: nat | Covers(rs, i) :: i < |Written([], payload, rs)|
  {
    if rs != [] {
      var n := |rs| - 1;
      var front, last := rs[..n], rs[n];
      WrittenIs(payload, front);
      CoversLast(rs);
      WrittenStep(payload, rs);
      hide Covers, Written, WriteAt;
    }
  }

  lemma CoversLast(rs: seq<(nat, nat)>)
    requires rs != []
    ensures var last := rs[|rs| - 1];
      forall i: nat :: Covers(rs, i) <==> Covers(rs[..|rs| - 1], i) || last.0 <= i < last.0 + last.1
  {
    var front, last := rs[..|rs| - 1], rs[|rs| - 1];
    forall i: nat ensures Covers(rs, i) <==> Covers(front, i) || last.0 <= i < last.0 + last.1 {
      if Covers(rs, i) {
        var r :| r in rs && r.0 <= i < r.0 + r.1;
        assert r == last || r in front;
      }
      if Covers(front, i) {
        var r :| r in front && r.0 <= i < r.0 + r.1;
        assert r in rs;
      }
      if last.0 <= i < last.0 + last.1 { assert last in rs; }
    }
  }

  lemma WrittenStep(payload: Bytes, rs: seq<(nat, nat)>)
    requires rs != [] && forall r | r in rs :: r.0 + r.1 <= |payload|
    ensures var last := rs[|rs| - 1];
      Written([], payload, rs) == WriteAt(Written([], payload, rs[..|rs| - 1]), last.0, payload[last.0..last.0 + last.1])
  {}

  /** Ranges that tile the payload leave the file equal to it, whatever order they are written in. */
  lemma AnyOrderStoresPayload(payload: Bytes, tiles: seq<(nat, nat)>, rs: seq<(nat, nat)>)
    requires Tiles(tiles, 0, |payload|) && multiset(rs) == multiset(tiles)
    requires forall r | r in rs :: r.0 + r.1 <= |payload|
    ensures Written([], payload, rs) == payload
  {
    WrittenIs(payload, rs);
    forall i: nat | i < |payload| ensures Covers(rs, i) {
      TilesCover(tiles, 0, |payload|, i);
      SameCover(tiles, rs, i);
    }
    if payload != [] { assert Covers(rs, |payload| - 1); }
  }

  lemma SameCover(a: seq<(nat, nat)>, b: seq<(nat, nat)>, i: nat)
    requires multiset(a) == multiset(b) && Covers(a, i)
    ensures Covers(b, i)
  {
    var r :| r in a && r.0 <= i < r.0 + r.1;
    assert r in multiset(a);
    assert r in b;
  }

  /** An unaligned sequential write skips the payload before its starting offset and leaves zeros there. */
  lemma UnalignedStoresSuffix(payload: Bytes, start: nat, rs: seq<(nat, nat)>)
    requires start < |payload| && Tiles(rs, start, |payload|)
    requires forall r | r in rs :: r.0 + r.1 <= |payload|
    ensures Written([], payload, rs) == Zeros(start) + payload[start..]
    ensures Written([], payload, rs) == payload <==> payload[..start] == Zeros(start)
  {
    WrittenIs(payload, rs);
    forall i: nat ensures Covers(rs, i) <==> start <= i < |payload| { TilesCover(rs, start, |payload|, i); }
    assert Covers(rs, |payload| - 1);
    assert payload == payload[..start] + payload[start..];
    if Zeros(start) + payload[start..] == payload {
      assert (Zeros(start) + payload[start..])[..start] == Zeros(start);
    }
  }

  lemma {:induction false} TilesWithin(rs: seq<(nat, nat)>, lo: nat, hi: nat, r: (nat, nat))
    requires Tiles(rs, lo, hi) && r in rs
    ensures lo <= r.0 && 0 < r.1 && r.0 + r.1 <= hi
  {
    TilesCover(rs, lo, hi, lo);
    TilesCover(rs[1..], lo + rs[0].1, hi, lo);
    if r != rs[0] { TilesWithin(rs[1..], lo + rs[0].1, hi, r); }
  }

  // `seek` then `write_all` for every range; `write_all` resumes short writes like the loop above.
  method WriteRanges(f: File, payload: Bytes, rs: seq<(nat, nat)>) returns (r: IoResult<()>)
    requires forall x | x in rs :: x.0 + x.1 <= |payload|
    modifies f
    ensures r.Ok? ==> f.bytes == Written(old(f.bytes), payload, rs)
  {
    ghost var before := f.bytes;
    for k := 0 to |rs|
      invariant f.bytes == Written(before, payload, rs[..k])
    {
      var (offset, n) := rs[k];
      assert rs[..k + 1][..k] == rs[..k];
      var stored := WriteAll(f, payload[offset..offset + n], offset);
      if stored.Failed? { return Failed; }
    }
    assert rs[..|rs|] == rs;
    r := Ok(());
  }

  method WriteAll(f: File, data: Bytes, offset: nat) returns (r: IoResult<()>)
    modifies f
    ensures r.Ok? ==> f.bytes == WriteAt(old(f.bytes), offset, data)
  {
    ghost var before := f.bytes;
    var written := 0;
    while written < |data|
      invariant 0 <= written <= |data|
      invariant f.bytes == WriteAt(before, offset, data[..written])
    {
      var n := f.Pwrite(data[written..], offset + written);
      if n <= 0 { return Failed; }
      WriteMore(before, offset, data, written, n);
      written := written + n;
    }
    assert data[..written] == data;
    r := Ok(());
  }

  // ---------------------------------------------------------------- write_file

  datatype IoMode = Sequential | Random

  datatype IoProfile = IoProfile(ioMode: IoMode, ioAligned: bool, directIo: bool, blockSize: nat)
  {
    // The one mode that does not store the whole payload.
    predicate SkipsPrefix() { !directIo && ioMode == Sequential && !ioAligned }
  }

  /**
   `write_file`. `start` is the offset the generator seeded with the path and the
   length draws for the unaligned mode. Every mode but that one stores the payload.
   */
  method WriteFile(f: File, payload: Bytes, profile: IoProfile, start: nat) returns (r: IoResult<()>)
    requires payload != [] ==> start < |payload|
    modifies f
    ensures r.Ok? ==> f.bytes == if profile.SkipsPrefix() && payload != [] then Zeros(start) + payload[start..] else payload
    ensures r.Ok? ==> (f.bytes == payload <==>
                       !profile.SkipsPrefix() || payload == [] || payload[..start] == Zeros(start))
  {
    if profile.directIo {
      r := WriteFileBlocking(f, payload);
      return;
    }
    f.bytes := [];
    var block := if profile.blockSize < 1 then 1 else profile.blockSize;
    if profile.ioMode == Sequential && profile.ioAligned {
      r := WriteAll(f, payload, 0);
      assert WriteAt([], 0, payload) == payload;
    } else if profile.ioMode == Sequential {
      if payload == [] { return Ok(()); }
      var rs := RangesFrom(start, |payload|, block);
      forall x | x in rs ensures x.0 + x.1 <= |payload| { TilesWithin(rs, start, |payload|, x); }
      UnalignedStoresSuffix(payload, start, rs);
      r := WriteRanges(f, payload, rs);
    } else {
      var tiles := RangesFrom(0, |payload|, block);
      var rs := ShuffleRanges(tiles);
      forall x | x in rs ensures x.0 + x.1 <= |payload| {
        assert x in multiset(rs);
        TilesWithin(tiles, 0, |payload|, x);
      }
      AnyOrderStoresPayload(payload, tiles, rs);
      r := WriteRanges(f, payload, rs);
    }
  }
}
