/**
 A file as a finite sequence of bytes, with the positioned reads and writes the
 worker uses. A write may be cut short at any point and a read may return less than
 asked for; both may fail. How short is left open, so whatever is proved here holds
 for every such choice.
 */
module FileBytes {

  newtype Byte = x: int | 0 <= x < 256

  type Bytes = seq<Byte>

  function Zeros(n: nat): (z: Bytes)
    ensures |z| == n && forall i | 0 <= i < n :: z[i] == 0
  {
    seq(n, _ => 0)
  }

  // The first `n` bytes, with zeros past the end: what a write beyond the end leaves before it.
  function Padded(c: Bytes, n: nat): (p: Bytes)
    ensures |p| == n && forall i | 0 <= i < n :: p[i] == if i < |c| then c[i] else 0
  {
    if n <= |c| then c[..n] else c + Zeros(n - |c|)
  }

  function WriteAt(c: Bytes, offset: nat, data: Bytes): (w: Bytes)
    ensures data == [] ==> w == c
    ensures data != [] ==> |w| == if offset + |data| <= |c| then |c| else offset + |data|
    ensures data != [] ==> forall i | 0 <= i < |w| ::
              w[i] == if offset <= i < offset + |data| then data[i - offset] else if i < |c| then c[i] else 0
  {
    if data == [] then c
    else Padded(c, offset) + data + (if offset + |data| <= |c| then c[offset + |data|..] else [])
  }

  /** Two adjacent writes are one write: a short write resumed where it stopped. */
  lemma WriteResumes(c: Bytes, offset: nat, a: Bytes, b: Bytes)
    ensures WriteAt(WriteAt(c, offset, a), offset + |a|, b) == WriteAt(c, offset, a + b)
  {
    hide WriteAt;
    if a == [] {
      assert a + b == b;
    } else if b == [] {
      assert a + b == a;
    }
  }

  class File {
    var bytes: Bytes

    constructor ()
      ensures bytes == []
    {
      bytes := [];
    }

    /** pwrite(2): an error (-1), or some prefix of `data` stored at `offset`. */
    method Pwrite(data: Bytes, offset: nat) returns (n: int)
      modifies this
      ensures -1 <= n <= |data|
      ensures bytes == if n < 0 then old(bytes) else WriteAt(old(bytes), offset, data[..n])
    {
      n :| -1 <= n <= |data|;
      if n >= 0 { bytes := WriteAt(bytes, offset, data[..n]); }
    }

    /** pread(2): an error (-1), or some of the bytes at `offset`, none only at the end of the file. */
    method Pread(wanted: nat, offset: nat) returns (n: int, data: Bytes)
      ensures -1 <= n <= wanted
      ensures n >= 0 ==> offset + n <= |bytes| || n == 0
      ensures n >= 0 ==> data == if offset <= |bytes| then bytes[offset..offset + n] else []
      ensures n == 0 ==> wanted == 0 || offset >= |bytes|
    {
      var left := if offset < |bytes| then |bytes| - offset else 0;
      var most := if wanted < left then wanted else left;
      n :| -1 <= n <= most && (n == 0 ==> most == 0);
      data := if n > 0 then bytes[offset..offset + n] else [];
    }

    method SetLen(n: nat)
      modifies this
      ensures bytes == Padded(old(bytes), n)
    {
      bytes := Padded(bytes, n);
    }
  }
}
