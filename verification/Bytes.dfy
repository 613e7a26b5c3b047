/** Byte strings, the big-endian integers of the host record protocol, and stream chunking. */
module Bytes {

  type Byte = b: int | 0 <= b < 256

  /** A network abstraction layer unit, header byte included. */
  type Nal = seq<Byte>

  /** The 8 MiB bound shared by the host process and by both record readers. */
  const MAX_HOST_FRAME_BYTES: nat := 8 * 1024 * 1024

  const TWO_TO_THE_16: nat := 0x1_0000
  const TWO_TO_THE_32: nat := 0x1_0000_0000

  function U16(n: nat): (r: seq<Byte>)
    requires n < TWO_TO_THE_16
    ensures |r| == 2 && ReadU16(r, 0) == n
  {
    [n / 256, n % 256]
  }

  function ReadU16(s: seq<Byte>, i: nat): (n: nat)
    requires i + 2 <= |s|
    ensures n < TWO_TO_THE_16
  {
    s[i] as int * 256 + s[i + 1] as int
  }

  function U32(n: nat): (r: seq<Byte>)
    requires n < TWO_TO_THE_32
    ensures |r| == 4 && ReadU32(r, 0) == n
  {
    U16(n / TWO_TO_THE_16) + U16(n % TWO_TO_THE_16)
  }

  function ReadU32(s: seq<Byte>, i: nat): (n: nat)
    requires i + 4 <= |s|
    ensures n < TWO_TO_THE_32
  {
    ReadU16(s, i) * TWO_TO_THE_16 + ReadU16(s, i + 2)
  }

  lemma {:induction false} U32OfRead(s: seq<Byte>)
    requires |s| == 4
    ensures U32(ReadU32(s, 0)) == s
  {
    var high, low := ReadU16(s, 0), ReadU16(s, 2);
    assert (high * TWO_TO_THE_16 + low) / TWO_TO_THE_16 == high;
    assert (high * TWO_TO_THE_16 + low) % TWO_TO_THE_16 == low;
    assert U16(high) == s[..2] && U16(low) == s[2..];
    assert s == s[..2] + s[2..];
  }

  lemma {:induction false} ReadU16Slice(s: seq<Byte>, i: nat)
    requires i + 2 <= |s|
    ensures ReadU16(s, i) == ReadU16(s[i..i + 2], 0)
  {
  }

  lemma {:induction false} ReadU32Slice(s: seq<Byte>, i: nat)
    requires i + 4 <= |s|
    ensures ReadU32(s, i) == ReadU32(s[i..i + 4], 0)
  {
  }

  /** The concatenation of the chunks a stream was delivered in. */
  function Flatten<T>(chunks: seq<seq<T>>): seq<T> {
    if chunks == [] then [] else chunks[0] + Flatten(chunks[1..])
  }

  lemma {:induction false} FlattenSnoc<T>(chunks: seq<seq<T>>, last: seq<T>)
    ensures Flatten(chunks + [last]) == Flatten(chunks) + last
  {
    if chunks == [] {
      assert (chunks + [last])[1..] == [];
    } else {
      assert (chunks + [last])[1..] == chunks[1..] + [last];
      FlattenSnoc(chunks[1..], last);
    }
  }

  /** A stream of which the first k chunks are a prefix: used to move between runs and bytes. */
  lemma {:induction false} FlattenSplit<T>(chunks: seq<seq<T>>, k: nat)
    requires k <= |chunks|
    ensures Flatten(chunks) == Flatten(chunks[..k]) + Flatten(chunks[k..])
  {
    if k == 0 {
      assert chunks[..0] == [] && chunks[0..] == chunks;
    } else {
      assert chunks[..k][1..] == chunks[1..][..k - 1];
      assert chunks[1..][k - 1..] == chunks[k..];
      FlattenSplit(chunks[1..], k - 1);
    }
  }
}
