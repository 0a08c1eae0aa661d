/** What crypto.rs adds around the cipher: subkeys, nonces, and the checks on chunks. */
module Crypto {
  import opened Wrappers
  import opened Octets

  const TAG_SIZE := 16
  const NONCE_SIZE := 12

  datatype CryptoError = TooLong | TooShort | NotAuthentic

  function AsciiByte(c: char): byte
    requires c < '\U{0080}'
  {
    c as int
  }

  function Ascii(s: string): (r: seq<byte>)
    requires forall i :: 0 <= i < |s| ==> s[i] < '\U{0080}'
    ensures |r| == |s| && forall i :: 0 <= i < |s| ==> r[i] == s[i] as int
  {
    seq(|s|, i requires 0 <= i < |s| => AsciiByte(s[i]))
  }

  const CHUNK_KEY_LABEL: seq<byte> := Ascii("EASY_SHARE_CHUNK_KEY_V2:")

  function FileSubkey(key: SessionKey, fileId: seq<byte>): ChunkKey {
    ChunkKey(key, CHUNK_KEY_LABEL + fileId)
  }

  lemma FileSubkeyInjective(key1: SessionKey, id1: seq<byte>, key2: SessionKey, id2: seq<byte>)
    requires FileSubkey(key1, id1) == FileSubkey(key2, id2)
    ensures key1 == key2 && id1 == id2
  {
    var n := |CHUNK_KEY_LABEL|;
    assert id1 == (CHUNK_KEY_LABEL + id1)[n..];
    assert id2 == (CHUNK_KEY_LABEL + id2)[n..];
  }

  // ----- Nonces -----

  /** 8 bytes of offset and 4 bytes of plaintext length, both big-endian. */
  function NonceBytes(offset: nat, length: nat): (r: seq<byte>)
    ensures |r| == NONCE_SIZE
  {
    BigEndian(offset, 8) + BigEndian(length, 4)
  }

  /** Fills the nonce buffer; fails only for a length that does not fit in 32 bits. */
  method DeriveChunkNonce(offset: nat, length: nat) returns (r: Result<seq<byte>, CryptoError>)
    requires offset < U64_LIMIT
    ensures r.Ok? <==> length < U32_LIMIT
    ensures r.Ok? ==> |r.value| == NONCE_SIZE
                      && FromBigEndian(r.value[..8]) == offset && FromBigEndian(r.value[8..]) == length
                      && r.value == NonceBytes(offset, length)
    ensures r.Err? ==> r.error == TooLong
  {
    if length >= U32_LIMIT {
      return Err(TooLong);
    }
    var buffer := new byte[NONCE_SIZE](_ => 0);
    var high, low := BigEndian(offset, 8), BigEndian(length, 4);
    forall i | 0 <= i < 8 {
      buffer[i] := high[i];
    }
    forall i | 8 <= i < NONCE_SIZE {
      buffer[i] := low[i - 8];
    }
    WordSizes();
    BigEndianRoundTrip(offset, 8);
    BigEndianRoundTrip(length, 4);
    assert buffer[..8] == high && buffer[8..] == low;
    assert buffer[..] == high + low;
    assert buffer[..][..8] == high && buffer[..][8..] == low;
    r := Ok(buffer[..]);
  }

  /** A nonce determines the offset and the length it was made from. */
  lemma NonceInjective(o1: nat, n1: nat, o2: nat, n2: nat)
    requires o1 < U64_LIMIT && o2 < U64_LIMIT && n1 < U32_LIMIT && n2 < U32_LIMIT
    requires NonceBytes(o1, n1) == NonceBytes(o2, n2)
    ensures o1 == o2 && n1 == n2
  {
    WordSizes();
    BigEndianRoundTrip(o1, 8);
    BigEndianRoundTrip(o2, 8);
    BigEndianRoundTrip(n1, 4);
    BigEndianRoundTrip(n2, 4);
    assert BigEndian(o1, 8) == NonceBytes(o1, n1)[..8] == BigEndian(o2, 8);
    assert BigEndian(n1, 4) == NonceBytes(o1, n1)[8..] == BigEndian(n2, 4);
  }

  // ----- The cipher, as a term -----

  function Seal(key: ChunkKey, nonce: seq<byte>, plain: seq<Octet>): (r: seq<Octet>)
    ensures |r| == |plain| + TAG_SIZE
  {
    seq(|plain| + TAG_SIZE, i requires 0 <= i => Cipher(key, nonce, plain, i))
  }

  function Unseal(key: ChunkKey, nonce: seq<byte>, text: seq<Octet>): Option<seq<Octet>> {
    if |text| >= TAG_SIZE && text[0].Cipher? && text == Seal(key, nonce, text[0].plain)
    then Some(text[0].plain)
    else None
  }

  lemma UnsealExactly(key: ChunkKey, nonce: seq<byte>, text: seq<Octet>, plain: seq<Octet>)
    ensures Unseal(key, nonce, text) == Some(plain) <==> text == Seal(key, nonce, plain)
  {
    assert Seal(key, nonce, plain)[0] == Cipher(key, nonce, plain, 0);
  }

  // ----- Chunks -----

  function EncryptChunk(key: SessionKey, fileId: seq<byte>, offset: nat, plain: seq<Octet>)
    : Result<seq<Octet>, CryptoError>
  {
    if |plain| >= U32_LIMIT then Err(TooLong)
    else Ok(Seal(FileSubkey(key, fileId), NonceBytes(offset, |plain|), plain))
  }

  function DecryptChunk(key: SessionKey, fileId: seq<byte>, offset: nat, text: seq<Octet>)
    : Result<seq<Octet>, CryptoError>
  {
    if |text| < TAG_SIZE then Err(TooShort)
    else if |text| - TAG_SIZE >= U32_LIMIT then Err(TooLong)
    else
      match Unseal(FileSubkey(key, fileId), NonceBytes(offset, |text| - TAG_SIZE), text)
      case Some(plain) => Ok(plain)
      case None => Err(NotAuthentic)
  }

  /** The receiver rebuilds the sender's nonce from offset and size, so every chunk it could have
      been sent decrypts, and nothing else does. */
  lemma DecryptExactly(key: SessionKey, fileId: seq<byte>, offset: nat, text: seq<Octet>, plain: seq<Octet>)
    ensures DecryptChunk(key, fileId, offset, text) == Ok(plain)
            <==> EncryptChunk(key, fileId, offset, plain) == Ok(text)
  {
    if |text| >= TAG_SIZE && |text| - TAG_SIZE < U32_LIMIT {
      UnsealExactly(FileSubkey(key, fileId), NonceBytes(offset, |text| - TAG_SIZE), text, plain);
    }
  }

  /** A ciphertext is good for one key, one file and one offset only. */
  lemma CiphertextIsBound(key1: SessionKey, id1: seq<byte>, o1: nat, plain: seq<Octet>,
                          key2: SessionKey, id2: seq<byte>, o2: nat)
    requires o1 < U64_LIMIT && o2 < U64_LIMIT
    requires EncryptChunk(key1, id1, o1, plain).Ok?
    requires DecryptChunk(key2, id2, o2, EncryptChunk(key1, id1, o1, plain).value).Ok?
    ensures key1 == key2 && id1 == id2 && o1 == o2
    ensures DecryptChunk(key2, id2, o2, EncryptChunk(key1, id1, o1, plain).value) == Ok(plain)
  {
    var text := EncryptChunk(key1, id1, o1, plain).value;
    var got := DecryptChunk(key2, id2, o2, text).value;
    DecryptExactly(key2, id2, o2, text, got);
    var again := EncryptChunk(key2, id2, o2, got).value;
    assert text[0] == again[0];
    FileSubkeyInjective(key1, id1, key2, id2);
    NonceInjective(o1, |plain|, o2, |got|);
  }

  // ----- Nonce reuse over a whole session -----

  /** One call of the cipher by the sender. */
  datatype Sealing = Sealing(fileId: seq<byte>, offset: nat, plain: seq<Octet>)

  /** The sealed text is what the unchanging source of that file holds at that offset. */
  ghost predicate FromSource(s: Sealing, sources: map<seq<byte>, seq<Octet>>) {
    && s.fileId in sources
    && s.offset + |s.plain| <= |sources[s.fileId]| < U64_LIMIT
    && |s.plain| < U32_LIMIT
    && s.plain == sources[s.fileId][s.offset..s.offset + |s.plain|]
  }

  /** Sends, resumes and byte-limited sends may seal the same offset again, but never a different
      text under the same file key and nonce. */
  lemma NonceReuseIsHarmless(key: SessionKey, sources: map<seq<byte>, seq<Octet>>, a: Sealing, b: Sealing)
    requires FromSource(a, sources) && FromSource(b, sources)
    requires FileSubkey(key, a.fileId) == FileSubkey(key, b.fileId)
    requires NonceBytes(a.offset, |a.plain|) == NonceBytes(b.offset, |b.plain|)
    ensures a == b
  {
    FileSubkeyInjective(key, a.fileId, key, b.fileId);
    NonceInjective(a.offset, |a.plain|, b.offset, |b.plain|);
  }
}
