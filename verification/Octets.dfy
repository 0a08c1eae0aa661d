/** Bytes on the wire and on disk, and big-endian integers. */
module Octets {

  type byte = n: nat | n < 256

  /** HKDF output (RFC 5869, section 2) as a term: what went in decides what comes out. */
  datatype SessionKey = SessionKey(shared: seq<byte>, salt: seq<byte>, info: seq<byte>)

  /** Per-file subkey: a keyed BLAKE3 hash of `input`, as a term. */
  datatype ChunkKey = ChunkKey(root: SessionKey, input: seq<byte>)

  /** One byte of a file or message. It is a plain value, or the `index`-th byte of an AEAD
      ciphertext (RFC 8439, section 2.8), known only by what was sealed. */
  datatype Octet =
    | Lit(value: byte)
    | Cipher(key: ChunkKey, nonce: seq<byte>, plain: seq<Octet>, index: nat)

  // ----- Files as byte sequences -----

  function Zeros(n: nat): (r: seq<Octet>)
    ensures |r| == n && forall i :: 0 <= i < n ==> r[i] == Lit(0)
  {
    seq(n, i => Lit(0))
  }

  /** A file after writing `data` at `offset`: a gap before the offset is filled with zeros, bytes
      behind the data stay, and writing nothing changes nothing. */
  function WriteAt(content: seq<Octet>, offset: nat, data: seq<Octet>): (r: seq<Octet>)
    ensures |data| > 0 ==> |r| == if |content| > offset + |data| then |content| else offset + |data|
  {
    if data == [] then content
    else
      var base := if |content| < offset then content + Zeros(offset - |content|) else content;
      base[..offset] + data + (if offset + |data| <= |base| then base[offset + |data|..] else [])
  }

  /** Writing piece by piece is writing the whole. */
  lemma WriteInPieces(content: seq<Octet>, offset: nat, a: seq<Octet>, b: seq<Octet>)
    ensures WriteAt(WriteAt(content, offset, a), offset + |a|, b) == WriteAt(content, offset, a + b)
  {
    if a == [] {
      assert a + b == b;
    } else if b == [] {
      assert a + b == a;
    } else {
      var once := WriteAt(content, offset, a + b);
      var twice := WriteAt(WriteAt(content, offset, a), offset + |a|, b);
      assert |once| == |twice|;
      assert forall i :: 0 <= i < |once| ==> once[i] == twice[i];
    }
  }

  /** Byte for byte: the data where it was written, what was there elsewhere, and zeros in a gap. */
  lemma WriteAtExactly(content: seq<Octet>, offset: nat, data: seq<Octet>, i: nat)
    requires i < |WriteAt(content, offset, data)|
    ensures WriteAt(content, offset, data)[i]
            == if offset <= i < offset + |data| then data[i - offset] else if i < |content| then content[i] else Lit(0)
    ensures data != [] ==> |WriteAt(content, offset, data)|
                           == if |content| > offset + |data| then |content| else offset + |data|
  {
  }

  predicate AllZero(s: seq<Octet>) {
    forall i :: 0 <= i < |s| ==> s[i] == Lit(0)
  }

  /** Writing a piece of the source into a prefix of the source gives a prefix again exactly when
      the write leaves no gap, or when the gap happens to be zeros in the source too. */
  lemma WriteKeepsPrefixExactly(content: seq<Octet>, source: seq<Octet>, offset: nat, n: nat)
    requires content <= source && 0 < n && offset + n <= |source|
    ensures WriteAt(content, offset, source[offset..offset + n]) <= source
            <==> (offset <= |content| || AllZero(source[|content|..offset]))
  {
    var r := WriteAt(content, offset, source[offset..offset + n]);
    if offset <= |content| {
      WriteKeepsPrefix(content, source, offset, n);
    } else {
      assert forall i :: |content| <= i < offset ==> r[i] == Lit(0);
      assert forall i :: |content| <= i < offset ==> source[|content|..offset][i - |content|] == source[i];
      assert forall i :: 0 <= i < |content| ==> r[i] == source[i];
      assert forall i :: offset <= i < offset + n ==> r[i] == source[i];
      if AllZero(source[|content|..offset]) {
        assert r == source[..offset + n];
      }
      if r <= source {
        assert forall i :: |content| <= i < offset ==> source[i] == r[i];
      }
    }
  }

  /** The gap-free case: the prefix grows to the end of the write, or stays. */
  lemma WriteKeepsPrefix(content: seq<Octet>, source: seq<Octet>, offset: nat, n: nat)
    requires content <= source && offset <= |content| && offset + n <= |source|
    ensures WriteAt(content, offset, source[offset..offset + n])
            == source[..if |content| > offset + n then |content| else offset + n]
  {
    var r := WriteAt(content, offset, source[offset..offset + n]);
    if n > 0 {
      var m := if |content| > offset + n then |content| else offset + n;
      assert |r| == m;
      assert forall i :: 0 <= i < m ==> r[i] == source[i];
    } else {
      assert source[offset..offset + n] == [];
    }
  }

  /** A piece of a piece of the source is a piece of the source. */
  lemma SliceOfSlice(source: seq<Octet>, offset: nat, data: seq<Octet>, i: nat, j: nat)
    requires offset + |data| <= |source| && data == source[offset..offset + |data|] && i <= j <= |data|
    ensures data[i..j] == source[offset + i..offset + j]
  {
    var a, b := data[i..j], source[offset + i..offset + j];
    assert |a| == |b| && forall k :: 0 <= k < |a| ==> a[k] == b[k];
  }

  /** Writing more of a piece of the source, where the piece was written so far, goes on along the source. */
  lemma PieceKeepsPrefix(content: seq<Octet>, source: seq<Octet>, offset: nat, data: seq<Octet>, written: nat, n: nat,
                         after: seq<Octet>)
    requires content <= source && offset + |data| <= |source| && data == source[offset..offset + |data|]
    requires written + n <= |data| && offset + written <= |content|
    requires after == WriteAt(content, offset + written, data[written..written + n])
    ensures content <= after <= source && offset + written + n <= |after|
  {
    SliceOfSlice(source, offset, data, written, written + n);
    NextPieceKeepsPrefix(content, source, offset + written, n, data[written..written + n], after);
  }

  lemma NextPieceKeepsPrefix(content: seq<Octet>, source: seq<Octet>, offset: nat, n: nat, piece: seq<Octet>,
                             after: seq<Octet>)
    requires content <= source && offset <= |content| && offset + n <= |source| && piece == source[offset..offset + n]
    requires after == WriteAt(content, offset, piece)
    ensures content <= after <= source && offset + n <= |after|
  {
    WriteKeepsPrefix(content, source, offset, n);
    assert content == source[..|content|];
  }

  lemma JoinSlices(data: seq<Octet>, i: nat, j: nat, k: nat)
    requires i <= j <= k <= |data|
    ensures data[i..j] + data[j..k] == data[i..k]
  {
  }

  lemma WriteSlices(content: seq<Octet>, offset: nat, data: seq<Octet>, i: nat, j: nat, k: nat)
    requires i <= j <= k <= |data|
    ensures WriteAt(WriteAt(content, offset + i, data[i..j]), offset + j, data[j..k])
            == WriteAt(content, offset + i, data[i..k])
  {
    JoinSlices(data, i, j, k);
    var a, b := data[i..j], data[j..k];
    WriteInPieces(content, offset + i, a, b);
    assert offset + i + |a| == offset + j;
  }

  // ----- Big-endian integers -----

  const U32_LIMIT := 0x1_0000_0000
  const U64_LIMIT := 0x1_0000_0000_0000_0000

  /** The last `width` base-256 digits of `n`, most significant first. */
  function BigEndian(n: nat, width: nat): (r: seq<byte>)
    ensures |r| == width
  {
    if width == 0 then [] else BigEndian(n / 256, width - 1) + [n % 256]
  }

  function FromBigEndian(bytes: seq<byte>): nat {
    if bytes == [] then 0
    else FromBigEndian(bytes[..|bytes| - 1]) * 256 + bytes[|bytes| - 1]
  }

  function Pow256(width: nat): nat {
    if width == 0 then 1 else 256 * Pow256(width - 1)
  }

  /** Decoding undoes encoding for every value that fits. */
  lemma {:induction false} BigEndianRoundTrip(n: nat, width: nat)
    requires n < Pow256(width)
    ensures FromBigEndian(BigEndian(n, width)) == n
  {
    if width > 0 {
      var r := BigEndian(n, width);
      assert r[..width - 1] == BigEndian(n / 256, width - 1);
      BigEndianRoundTrip(n / 256, width - 1);
    }
  }

  lemma TimesPower(a: nat, f: nat, last: nat, width: nat)
    ensures (a * Pow256(width) + f) * 256 + last == a * Pow256(width + 1) + (f * 256 + last)
  {
    assert Pow256(width + 1) == 256 * Pow256(width);
  }

  /** The first byte counts most: the order is big-endian. */
  lemma {:induction false} FirstByteCountsMost(first: byte, rest: seq<byte>)
    ensures FromBigEndian([first] + rest) == first * Pow256(|rest|) + FromBigEndian(rest)
    decreases |rest|
  {
    var all := [first] + rest;
    if rest == [] {
      assert all[..0] == [] && all == [first];
    } else {
      var front, last := rest[..|rest| - 1], rest[|rest| - 1];
      assert all[..|all| - 1] == [first] + front && all[|all| - 1] == last;
      FirstByteCountsMost(first, front);
      TimesPower(first, FromBigEndian(front), last, |front|);
    }
  }

  lemma WordSizes()
    ensures Pow256(4) == U32_LIMIT && Pow256(8) == U64_LIMIT
  {
    assert Pow256(2) == 256 * 256;
    assert Pow256(4) == 256 * (256 * Pow256(2));
    assert Pow256(6) == 256 * (256 * Pow256(4));
    assert Pow256(8) == 256 * (256 * Pow256(6));
  }
}
