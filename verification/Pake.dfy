/** Keyed tags over labelled, length-prefixed fields (pairing/pake.rs). */
module Pake {
  import opened Wrappers
  import opened Octets
  import opened Crypto

  /** Keyed BLAKE3 as a term: key and input decide the digest. */
  datatype Digest = Digest(key: seq<byte>, input: seq<byte>)

  /** Text that may or may not be the hexadecimal form of a digest. */
  datatype AuthText = OfDigest(digest: Digest) | Garbage

  datatype Label = ConfirmA | ConfirmB | PairingKey | RequestAuth | ResponseAuth

  function LabelBytes(l: Label): seq<byte> {
    match l
    case ConfirmA => Ascii("EASY_SHARE_PAKE_CONFIRM_A:")
    case ConfirmB => Ascii("EASY_SHARE_PAKE_CONFIRM_B:")
    case PairingKey => Ascii("EASY_SHARE_PAIRING_KEY:")
    case RequestAuth => Ascii("EASY_SHARE_HANDSHAKE_REQUEST:")
    case ResponseAuth => Ascii("EASY_SHARE_HANDSHAKE_RESPONSE:")
  }

  // ----- Length-prefixed fields -----

  function EncodeParts(parts: seq<seq<byte>>): seq<byte> {
    if parts == [] then [] else BigEndian(|parts[0]|, 8) + parts[0] + EncodeParts(parts[1..])
  }

  function DecodeParts(bytes: seq<byte>): Option<seq<seq<byte>>> {
    if bytes == [] then Some([])
    else if |bytes| < 8 then None
    else
      var n := FromBigEndian(bytes[..8]);
      if |bytes| < 8 + n then None
      else
        match DecodeParts(bytes[8 + n..])
        case Some(rest) => Some([bytes[8..8 + n]] + rest)
        case None => None
  }

  ghost predicate FitParts(parts: seq<seq<byte>>) {
    forall p :: p in parts ==> |p| < U64_LIMIT
  }

  /** The fields can be read back from what the hash was fed. */
  lemma {:induction false} PartsRoundTrip(parts: seq<seq<byte>>)
    requires FitParts(parts)
    ensures DecodeParts(EncodeParts(parts)) == Some(parts)
  {
    if parts != [] {
      var head, rest := parts[0], EncodeParts(parts[1..]);
      var bytes := EncodeParts(parts);
      WordSizes();
      BigEndianRoundTrip(|head|, 8);
      assert bytes[..8] == BigEndian(|head|, 8);
      assert bytes[8..8 + |head|] == head;
      assert bytes[8 + |head|..] == rest;
      PartsRoundTrip(parts[1..]);
      assert parts == [head] + parts[1..];
    }
  }

  // ----- Tags -----

  function TagInput(l: Label, parts: seq<seq<byte>>): seq<byte> {
    LabelBytes(l) + EncodeParts(parts)
  }

  /** Feeds the hasher the label and then every field behind its length. */
  method Tag(key: seq<byte>, l: Label, parts: seq<seq<byte>>) returns (t: Digest)
    ensures t == Digest(key, TagInput(l, parts))
    ensures FitParts(parts) ==> DecodeParts(t.input[|LabelBytes(l)|..]) == Some(parts)
  {
    var fed := LabelBytes(l);
    assert parts[0..] == parts;
    for i := 0 to |parts|
      invariant fed + EncodeParts(parts[i..]) == TagInput(l, parts)
    {
      assert parts[i..][0] == parts[i] && parts[i..][1..] == parts[i + 1..];
      ghost var before := fed;
      fed := fed + BigEndian(|parts[i]|, 8);
      fed := fed + parts[i];
      assert before + EncodeParts(parts[i..]) == fed + EncodeParts(parts[i + 1..]);
    }
    assert parts[|parts|..] == [] && fed + [] == fed;
    t := Digest(key, fed);
    if FitParts(parts) {
      PartsRoundTrip(parts);
      assert t.input[|LabelBytes(l)|..] == EncodeParts(parts);
    }
  }

  /** The five labels differ before either ends. */
  lemma LabelsArePrefixFree(l1: Label, l2: Label)
    requires l1 != l2
    ensures exists i :: 0 <= i < |LabelBytes(l1)| && i < |LabelBytes(l2)| && LabelBytes(l1)[i] != LabelBytes(l2)[i]
  {
    var i := if {l1, l2} == {ConfirmA, ConfirmB} then 24
             else if {l1, l2} == {RequestAuth, ResponseAuth} then 23
             else if RequestAuth in {l1, l2} || ResponseAuth in {l1, l2} then 11
             else 13;
    LabelLetters();
    assert LabelBytes(l1)[i] != LabelBytes(l2)[i];
  }

  lemma LabelLetters()
    ensures |LabelBytes(ConfirmA)| == 26 && LabelBytes(ConfirmA)[11] == 80 && LabelBytes(ConfirmA)[13] == 75
            && LabelBytes(ConfirmA)[24] == 65
    ensures |LabelBytes(ConfirmB)| == 26 && LabelBytes(ConfirmB)[11] == 80 && LabelBytes(ConfirmB)[13] == 75
            && LabelBytes(ConfirmB)[24] == 66
    ensures |LabelBytes(PairingKey)| == 23 && LabelBytes(PairingKey)[11] == 80 && LabelBytes(PairingKey)[13] == 73
    ensures |LabelBytes(RequestAuth)| == 29 && LabelBytes(RequestAuth)[11] == 72 && LabelBytes(RequestAuth)[23] == 81
    ensures |LabelBytes(ResponseAuth)| == 30 && LabelBytes(ResponseAuth)[11] == 72 && LabelBytes(ResponseAuth)[23] == 83
  {
  }

  lemma PurposesNeverMeet(l1: Label, parts1: seq<seq<byte>>, l2: Label, parts2: seq<seq<byte>>)
    requires l1 != l2
    ensures TagInput(l1, parts1) != TagInput(l2, parts2)
  {
    LabelsArePrefixFree(l1, l2);
    var i :| 0 <= i < |LabelBytes(l1)| && i < |LabelBytes(l2)| && LabelBytes(l1)[i] != LabelBytes(l2)[i];
    assert TagInput(l1, parts1)[i] == LabelBytes(l1)[i];
    assert TagInput(l2, parts2)[i] == LabelBytes(l2)[i];
  }

  /** What the hash was fed decides the label and every field: tags for different purposes, or for
      different splits of the same bytes, never share an input. */
  lemma TagInputInjective(l1: Label, parts1: seq<seq<byte>>, l2: Label, parts2: seq<seq<byte>>)
    requires FitParts(parts1) && FitParts(parts2)
    requires TagInput(l1, parts1) == TagInput(l2, parts2)
    ensures l1 == l2 && parts1 == parts2
  {
    if l1 != l2 {
      PurposesNeverMeet(l1, parts1, l2, parts2);
    }
    var n := |LabelBytes(l1)|;
    assert EncodeParts(parts1) == TagInput(l1, parts1)[n..];
    assert EncodeParts(parts2) == TagInput(l2, parts2)[n..];
    PartsRoundTrip(parts1);
    PartsRoundTrip(parts2);
  }

  // ----- Handshake tags -----

  function MakeAuth(key: seq<byte>, l: Label, parts: seq<seq<byte>>): AuthText {
    OfDigest(Digest(key, TagInput(l, parts)))
  }

  function VerifyAuth(key: seq<byte>, l: Label, parts: seq<seq<byte>>, auth: AuthText): bool {
    auth.OfDigest? && auth.digest == Digest(key, TagInput(l, parts))
  }

  function SignRequest(key: seq<byte>, requestId: seq<byte>, senderPublic: seq<byte>): AuthText {
    MakeAuth(key, RequestAuth, [requestId, senderPublic])
  }

  function VerifyRequest(key: seq<byte>, requestId: seq<byte>, senderPublic: seq<byte>, auth: AuthText): bool {
    VerifyAuth(key, RequestAuth, [requestId, senderPublic], auth)
  }

  function SignResponse(key: seq<byte>, requestId: seq<byte>, token: seq<byte>, receiverPublic: seq<byte>): AuthText {
    MakeAuth(key, ResponseAuth, [requestId, token, receiverPublic])
  }

  function VerifyResponse(key: seq<byte>, requestId: seq<byte>, token: seq<byte>, receiverPublic: seq<byte>,
                          auth: AuthText): bool {
    VerifyAuth(key, ResponseAuth, [requestId, token, receiverPublic], auth)
  }

  /** A tag verifies for the key, purpose and fields it was made for, and for nothing else. */
  lemma AuthIsExact(key1: seq<byte>, l1: Label, parts1: seq<seq<byte>>, key2: seq<byte>, l2: Label, parts2: seq<seq<byte>>)
    requires FitParts(parts1) && FitParts(parts2)
    ensures VerifyAuth(key2, l2, parts2, MakeAuth(key1, l1, parts1))
            <==> key1 == key2 && l1 == l2 && parts1 == parts2
  {
    if VerifyAuth(key2, l2, parts2, MakeAuth(key1, l1, parts1)) {
      TagInputInjective(l1, parts1, l2, parts2);
    }
  }
}
