/** The encrypted handshake: the receiver's checks and session (server/state.rs 490-590) and the
    sender's acceptance of the answer (client/sender.rs 349-391, commands.rs 534-594). */
module Handshake {
  import opened Wrappers
  import opened Octets
  import opened Pake
  import opened Receiver
  import Crypto
  import Hex

  const MODE := "ChaCha20Poly1305"

  /** Diffie-Hellman as an abstract pair of functions: the public key of a secret, and the shared
      secret from one's own secret and the peer's public key. */
  datatype Group = Group(pub: nat -> seq<byte>, dh: (nat, seq<byte>) -> seq<byte>)

  ghost predicate IsDiffieHellman(g: Group) {
    && (forall a: nat :: |g.pub(a)| == Hex.KEY_SIZE)
    && (forall a: nat, b: nat :: g.dh(a, g.pub(b)) == g.dh(b, g.pub(a)))
  }

  datatype Request = Request(requestId: Id, files: seq<FileMeta>, mode: Option<string>, publicKey: Option<seq<byte>>,
                             pairId: Option<Id>, pairAuth: Option<AuthText>)

  datatype Answer = Answer(token: Id, offsets: map<Id, nat>, mode: Option<string>, publicKey: Option<seq<byte>>,
                           pinVerified: Option<bool>, pairAuth: Option<AuthText>)

  datatype Refusal = BadPublicKey | UnknownPairing | PairingNotProven | NoConsent

  /** What an encrypted request established: the sender's public key, and the pairing it proved. */
  datatype Checked = Checked(senderPublic: seq<byte>, pairing: Option<seq<byte>>)

  /** The pairing this device made with the peer: its id there and the shared key. */
  datatype Pairing = Pairing(pairId: Id, key: seq<byte>)

  function DeriveSessionKey(g: Group, secret: nat, peer: seq<byte>, pairing: Option<seq<byte>>, token: Id): SessionKey {
    SessionKey(g.dh(secret, peer), if pairing.Some? then pairing.value else [], token)
  }

  // ----- Receiver -----

  /** The checks on the encryption and pairing fields; `None` means the transfer will be in the clear. */
  function CheckEncryptedRequest(enabled: bool, pairings: map<Id, seq<byte>>,
                                 request: Request): Result<Option<Checked>, Refusal> {
    if request.publicKey.None? then Ok(None)
    else if !enabled || request.mode != Some(MODE) then Ok(None)
    else
      match Hex.KeyFromHex(request.publicKey.value)
      case None => Err(BadPublicKey)
      case Some(senderPublic) =>
        if request.pairId.None? then Ok(Some(Checked(senderPublic, None)))
        else if request.pairId.value !in pairings then Err(UnknownPairing)
        else
          var key := pairings[request.pairId.value];
          var auth := if request.pairAuth.Some? then request.pairAuth.value else Garbage;
          if VerifyRequest(key, request.requestId, request.publicKey.value, auth)
          then Ok(Some(Checked(senderPublic, Some(key))))
          else Err(PairingNotProven)
  }

  /** The receiver's side of an accepted request: the answer and the session key it keeps. */
  function AnswerFor(g: Group, secret: nat, request: Request, checked: Option<Checked>, token: Id, offsets: map<Id, nat>)
    : (Answer, Option<SessionKey>)
  {
    match checked
    case None => (Answer(token, offsets, None, None, None, None), None)
    case Some(c) =>
      var publicHex := Hex.Encode(g.pub(secret));
      var auth := if c.pairing.Some? then Some(SignResponse(c.pairing.value, request.requestId, token, publicHex))
                  else None;
      (Answer(token, offsets, Some(MODE), Some(publicHex), Some(c.pairing.Some?), auth),
       Some(DeriveSessionKey(g, secret, c.senderPublic, c.pairing, token)))
  }

  /** The bytes already on disk for each file of a request. */
  ghost predicate AreOffsets(server: Server, files: seq<FileMeta>, offsets: map<Id, nat>)
    reads server, server.disk
  {
    && offsets.Keys == (set f | f in files :: f.fileId)
    && forall id :: id in offsets ==>
         exists f :: f in files && f.fileId == id && offsets[id] == |Contents(server.disk.nodes, PartOf(server.hashes, f))|
  }

  method FindOffsets(server: Server, files: seq<FileMeta>) returns (offsets: map<Id, nat>)
    ensures AreOffsets(server, files, offsets)
  {
    offsets := map[];
    for i := 0 to |files|
      invariant AreOffsets(server, files[..i], offsets)
    {
      assert files[..i + 1] == files[..i] + [files[i]];
      assert forall f :: f in files[..i + 1] <==> f in files[..i] || f == files[i];
      var part := PartOf(server.hashes, files[i]);
      offsets := offsets[files[i].fileId := |Contents(server.disk.nodes, part)|];
    }
    assert files[..|files|] == files;
  }

  /** A transfer request: checked, put to the user, and turned into a session under a token drawn for it,
      a random UUID that no session has. */
  method HandleRequest(server: Server, enabled: bool, pairings: map<Id, seq<byte>>, consent: bool,
                       g: Group, secret: nat, token: Id, request: Request)
    returns (r: Result<Answer, Refusal>)
    requires token !in server.sessions
    modifies server
    ensures server.disk.nodes == old(server.disk.nodes)
    ensures match CheckEncryptedRequest(enabled, pairings, request)
            case Err(e) => r == Err(e) && server.sessions == old(server.sessions)
            case Ok(checked) =>
              if !consent then r == Err(NoConsent) && server.sessions == old(server.sessions)
              else
                && r.Ok? && AreOffsets(server, request.files, r.value.offsets)
                && var (answer, key) := AnswerFor(g, secret, request, checked, token, r.value.offsets);
                && r.value == answer
                && server.sessions
                   == old(server.sessions)[token := Session(request.files, Accepted, answer.offsets, map[], key)]
  {
    var checked := CheckEncryptedRequest(enabled, pairings, request);
    if checked.Err? {
      return Err(checked.error);
    }
    if !consent {
      return Err(NoConsent);
    }
    var offsets := FindOffsets(server, request.files);
    var (answer, key) := AnswerFor(g, secret, request, checked.value, token, offsets);
    server.sessions := server.sessions[token := Session(request.files, Accepted, offsets, map[], key)];
    r := Ok(answer);
  }

  // ----- Sender -----

  /** The request of a sender with encryption on. */
  function EncryptedRequest(g: Group, secret: nat, pairing: Option<Pairing>, requestId: Id, files: seq<FileMeta>): Request {
    var publicHex := Hex.Encode(g.pub(secret));
    match pairing
    case None => Request(requestId, files, Some(MODE), Some(publicHex), None, None)
    case Some(p) => Request(requestId, files, Some(MODE), Some(publicHex), Some(p.pairId),
                            Some(SignRequest(p.key, requestId, publicHex)))
  }

  datatype NegotiationError = NotEncrypted | InvalidKey | PairingUnproven

  /** The sender's chain of checks on an accepted answer. */
  function Negotiate(g: Group, secret: nat, pairing: Option<Pairing>, requestId: Id, token: Id, answer: Answer)
    : Result<SessionKey, NegotiationError>
  {
    if answer.mode != Some(MODE) then Err(NotEncrypted)
    else if answer.publicKey.None? then Err(InvalidKey)
    else
      match Hex.KeyFromHex(answer.publicKey.value)
      case None => Err(InvalidKey)
      case Some(peer) =>
        var proven :=
          && answer.pinVerified == Some(true)
          && answer.pairAuth.Some?
          && VerifyResponse(if pairing.Some? then pairing.value.key else [], requestId, token, answer.publicKey.value,
                            answer.pairAuth.value);
        if pairing.Some? && !proven then Err(PairingUnproven)
        else Ok(DeriveSessionKey(g, secret, peer, if pairing.Some? then Some(pairing.value.key) else None, token))
  }

  // ----- What the handshake guarantees -----

  /** A sender that asked for encryption accepts an answer exactly when it states the encryption mode
      and carries a usable key and, from a paired peer, the tag for this request, token and key. */
  lemma NegotiateExactly(g: Group, secret: nat, pairing: Option<Pairing>, requestId: Id, token: Id, answer: Answer)
    ensures Negotiate(g, secret, pairing, requestId, token, answer).Ok?
            <==> (&& answer.mode == Some(MODE)
                  && answer.publicKey.Some? && Hex.KeyFromHex(answer.publicKey.value).Some?
                  && (pairing.Some? ==>
                        && answer.pinVerified == Some(true)
                        && answer.pairAuth
                           == Some(SignResponse(pairing.value.key, requestId, token, answer.publicKey.value))))
  {
  }

  ghost predicate FitId(id: Id) {
    |id| < U64_LIMIT
  }

  /** What the receiver takes from a sender's own encrypted request: its public key and the key of its pairing. */
  lemma OwnRequestIsTaken(g: Group, secret: nat, pairing: Option<Pairing>, requestId: Id, files: seq<FileMeta>,
                          enabled: bool, pairings: map<Id, seq<byte>>, checked: Checked)
    requires IsDiffieHellman(g) && FitId(requestId)
    requires CheckEncryptedRequest(enabled, pairings, EncryptedRequest(g, secret, pairing, requestId, files))
             == Ok(Some(checked))
    ensures checked == Checked(g.pub(secret), KeyOfPairing(pairing))
  {
    Hex.RoundTrip(g.pub(secret));
    if pairing.Some? {
      var parts := [requestId, Hex.Encode(g.pub(secret))];
      AuthIsExact(pairing.value.key, RequestAuth, parts, pairings[pairing.value.pairId], RequestAuth, parts);
    }
  }

  /** The answer made for it is accepted, with the key the receiver keeps. */
  lemma OwnAnswerIsAccepted(g: Group, secret: nat, pairing: Option<Pairing>, peerSecret: nat, request: Request, token: Id,
                            offsets: map<Id, nat>)
    requires IsDiffieHellman(g)
    ensures var (answer, key) := AnswerFor(g, peerSecret, request, Some(Checked(g.pub(secret), KeyOfPairing(pairing))),
                                           token, offsets);
            key.Some? && Negotiate(g, secret, pairing, request.requestId, token, answer) == Ok(key.value)
  {
    Hex.RoundTrip(g.pub(peerSecret));
    assert g.dh(secret, g.pub(peerSecret)) == g.dh(peerSecret, g.pub(secret));
  }

  /** An encrypted session the receiver creates for a sender's own request is always accepted when the
      answer arrives unchanged, and then both sides hold the same key. */
  lemma BothHoldTheSameKey(g: Group, senderSecret: nat, receiverSecret: nat, pairing: Option<Pairing>,
                           requestId: Id, files: seq<FileMeta>, enabled: bool, pairings: map<Id, seq<byte>>,
                           token: Id, offsets: map<Id, nat>)
    requires IsDiffieHellman(g) && FitId(requestId)
    requires var request := EncryptedRequest(g, senderSecret, pairing, requestId, files);
             var checked := CheckEncryptedRequest(enabled, pairings, request);
             checked.Ok? && checked.value.Some?
    ensures var request := EncryptedRequest(g, senderSecret, pairing, requestId, files);
            var checked := CheckEncryptedRequest(enabled, pairings, request).value;
            var (answer, key) := AnswerFor(g, receiverSecret, request, checked, token, offsets);
            key.Some? && Negotiate(g, senderSecret, pairing, requestId, token, answer) == Ok(key.value)
  {
    var request := EncryptedRequest(g, senderSecret, pairing, requestId, files);
    var checked := CheckEncryptedRequest(enabled, pairings, request).value.value;
    OwnRequestIsTaken(g, senderSecret, pairing, requestId, files, enabled, pairings, checked);
    OwnAnswerIsAccepted(g, senderSecret, pairing, receiverSecret, request, token, offsets);
  }

  /** The receiver takes a claimed pairing exactly when both devices hold the same key for it. */
  lemma PairingIsProvenExactly(g: Group, senderSecret: nat, p: Pairing, requestId: Id, files: seq<FileMeta>,
                               pairings: map<Id, seq<byte>>)
    requires IsDiffieHellman(g) && FitId(requestId)
    ensures CheckEncryptedRequest(true, pairings, EncryptedRequest(g, senderSecret, Some(p), requestId, files)).Ok?
            <==> p.pairId in pairings && pairings[p.pairId] == p.key
  {
    var request := EncryptedRequest(g, senderSecret, Some(p), requestId, files);
    Hex.RoundTrip(g.pub(senderSecret));
    if p.pairId in pairings {
      AuthIsExact(p.key, RequestAuth, [requestId, request.publicKey.value],
                  pairings[p.pairId], RequestAuth, [requestId, request.publicKey.value]);
    }
  }

  /** An answer signed for another request, token or public key, or with another key, is refused. */
  lemma SubstitutedAnswerIsRefused(g: Group, secret: nat, p: Pairing, requestId: Id, token: Id, answer: Answer,
                                   key: seq<byte>, requestId': Id, token': Id, public': seq<byte>)
    requires FitId(requestId) && FitId(token) && FitId(requestId') && FitId(token') && FitId(public')
    requires answer.publicKey.Some? && FitId(answer.publicKey.value)
    requires answer.pairAuth == Some(SignResponse(key, requestId', token', public'))
    requires key != p.key || requestId' != requestId || token' != token || public' != answer.publicKey.value
    ensures Negotiate(g, secret, Some(p), requestId, token, answer).Err?
  {
    var parts, parts' := [requestId, token, answer.publicKey.value], [requestId', token', public'];
    AuthIsExact(key, ResponseAuth, parts', p.key, ResponseAuth, parts);
    if parts' == parts {
      assert parts'[0] == parts[0] && parts'[1] == parts[1] && parts'[2] == parts[2];
    }
  }

  /** A request signed for other fields, or with another key than the receiver's, is refused. */
  lemma SubstitutedRequestIsRefused(pairings: map<Id, seq<byte>>, request: Request, key: seq<byte>, requestId': Id,
                                    public': seq<byte>)
    requires FitId(request.requestId) && FitId(requestId') && FitId(public')
    requires request.mode == Some(MODE) && request.publicKey.Some? && FitId(request.publicKey.value)
    requires Hex.KeyFromHex(request.publicKey.value).Some?
    requires request.pairId.Some? && request.pairId.value in pairings
    requires request.pairAuth == Some(SignRequest(key, requestId', public'))
    requires key != pairings[request.pairId.value] || requestId' != request.requestId
             || public' != request.publicKey.value
    ensures CheckEncryptedRequest(true, pairings, request) == Err(PairingNotProven)
  {
    var parts, parts' := [request.requestId, request.publicKey.value], [requestId', public'];
    AuthIsExact(key, RequestAuth, parts', pairings[request.pairId.value], RequestAuth, parts);
    if parts' == parts {
      assert parts'[0] == parts[0] && parts'[1] == parts[1];
    }
  }

  /** What the receiver makes of a request's encryption fields, in every case: in the clear if there is no key, the
      mode is another or encryption is off; otherwise checked, with the pairing it proves if it claims one. */
  lemma CheckExactly(enabled: bool, pairings: map<Id, seq<byte>>, request: Request)
    ensures var r := CheckEncryptedRequest(enabled, pairings, request);
            var encrypted := enabled && request.mode == Some(MODE) && request.publicKey.Some?;
            && (r == Ok(None) <==> !encrypted)
            && (r == Err(BadPublicKey) <==> encrypted && Hex.KeyFromHex(request.publicKey.value).None?)
            && (encrypted && Hex.KeyFromHex(request.publicKey.value).Some? ==>
                  var public := Hex.KeyFromHex(request.publicKey.value).value;
                  match request.pairId
                  case None => r == Ok(Some(Checked(public, None)))
                  case Some(id) =>
                    if id !in pairings then r == Err(UnknownPairing)
                    else if request.pairAuth == Some(SignRequest(pairings[id], request.requestId, request.publicKey.value))
                    then r == Ok(Some(Checked(public, Some(pairings[id]))))
                    else r == Err(PairingNotProven))
  {
  }

  /** What an accepted request is answered with, in every case: nothing of encryption without a session key; with
      one, the receiver's public key, whether a pairing was proven, and exactly then the tag made with its key. */
  lemma AnswerExactly(g: Group, secret: nat, enabled: bool, pairings: map<Id, seq<byte>>, request: Request, token: Id,
                      offsets: map<Id, nat>)
    requires IsDiffieHellman(g) && CheckEncryptedRequest(enabled, pairings, request).Ok?
    ensures var (answer, key) := AnswerFor(g, secret, request, CheckEncryptedRequest(enabled, pairings, request).value,
                                           token, offsets);
            var encrypted := enabled && request.mode == Some(MODE) && request.publicKey.Some?;
            && answer.token == token && answer.offsets == offsets && (key.Some? <==> encrypted)
            && answer.mode == (if encrypted then Some(MODE) else None)
            && (answer.publicKey.Some? <==> encrypted)
            && (encrypted ==> Hex.KeyFromHex(answer.publicKey.value) == Some(g.pub(secret)))
            && answer.pinVerified == (if encrypted then Some(request.pairId.Some?) else None)
            && (answer.pairAuth.Some? <==> encrypted && request.pairId.Some?)
            && (answer.pairAuth.Some? ==>
                  && request.pairId.value in pairings
                  && answer.pairAuth.value == SignResponse(pairings[request.pairId.value], request.requestId, token,
                                                           answer.publicKey.value))
  {
    CheckExactly(enabled, pairings, request);
    Hex.RoundTrip(g.pub(secret));
  }

  /** An answer in the clear carries no key, and a sender that asked for encryption does not accept it. */
  lemma ClearAnswerIsRefused(g: Group, secret: nat, request: Request, token: Id, offsets: map<Id, nat>, senderSecret: nat,
                             pairing: Option<Pairing>, requestId: Id)
    ensures var (answer, key) := AnswerFor(g, secret, request, None, token, offsets);
            key == None && answer.offsets == offsets && answer.token == token
            && Negotiate(g, senderSecret, pairing, requestId, token, answer) == Err(NotEncrypted)
  {
  }

  // ----- Session keys -----

  /** The pairing key that goes into a session key: none counts as empty. */
  function PairingPart(key: Option<seq<byte>>): seq<byte> {
    match key
    case None => []
    case Some(k) => k
  }

  function KeyOfPairing(pairing: Option<Pairing>): Option<seq<byte>> {
    match pairing
    case None => None
    case Some(p) => Some(p.key)
  }

  /** The receiver and a sender hold the same key exactly when they have the same Diffie-Hellman output, the same
      pairing key and the same token. */
  lemma KeysAgreeExactly(g: Group, receiverSecret: nat, request: Request, checked: Checked, token: Id,
                         offsets: map<Id, nat>, senderSecret: nat, pairing: Option<Pairing>, requestId: Id, token': Id,
                         answer: Answer)
    requires Negotiate(g, senderSecret, pairing, requestId, token', answer).Ok?
    ensures AnswerFor(g, receiverSecret, request, Some(checked), token, offsets).1.Some?
    ensures answer.publicKey.Some? && Hex.KeyFromHex(answer.publicKey.value).Some?
    ensures var received := AnswerFor(g, receiverSecret, request, Some(checked), token, offsets).1.value;
            var negotiated := Negotiate(g, senderSecret, pairing, requestId, token', answer).value;
            var peer := Hex.KeyFromHex(answer.publicKey.value).value;
            received == negotiated
            <==> && g.dh(receiverSecret, checked.senderPublic) == g.dh(senderSecret, peer)
                 && PairingPart(checked.pairing) == PairingPart(KeyOfPairing(pairing))
                 && token == token'
  {
  }

  /** Two sessions of a receiver hold the same key exactly when all three agree. */
  lemma SessionKeysDifferExactly(g: Group, secret1: nat, request1: Request, c1: Checked, token1: Id, offsets1: map<Id, nat>,
                                 secret2: nat, request2: Request, c2: Checked, token2: Id, offsets2: map<Id, nat>)
    ensures AnswerFor(g, secret1, request1, Some(c1), token1, offsets1).1
            == AnswerFor(g, secret2, request2, Some(c2), token2, offsets2).1
            <==> && g.dh(secret1, c1.senderPublic) == g.dh(secret2, c2.senderPublic)
                 && PairingPart(c1.pairing) == PairingPart(c2.pairing)
                 && token1 == token2
  {
  }

  /** So no chunk sealed for one session opens in another: a different token is enough, and so is a different
      pairing key. */
  lemma ChunksStayInTheirSession(g: Group, secret1: nat, request1: Request, c1: Checked, token1: Id,
                                 offsets1: map<Id, nat>, secret2: nat, request2: Request, c2: Checked, token2: Id,
                                 offsets2: map<Id, nat>, id1: Id, o1: nat, plain: seq<Octet>, id2: Id, o2: nat)
    requires token1 != token2 || PairingPart(c1.pairing) != PairingPart(c2.pairing)
             || g.dh(secret1, c1.senderPublic) != g.dh(secret2, c2.senderPublic)
    requires o1 < U64_LIMIT && o2 < U64_LIMIT
    ensures var key1 := AnswerFor(g, secret1, request1, Some(c1), token1, offsets1).1.value;
            var key2 := AnswerFor(g, secret2, request2, Some(c2), token2, offsets2).1.value;
            Crypto.EncryptChunk(key1, id1, o1, plain).Ok? ==>
              Crypto.DecryptChunk(key2, id2, o2, Crypto.EncryptChunk(key1, id1, o1, plain).value).Err?
  {
    SessionKeysDifferExactly(g, secret1, request1, c1, token1, offsets1, secret2, request2, c2, token2, offsets2);
    var key1 := AnswerFor(g, secret1, request1, Some(c1), token1, offsets1).1.value;
    var key2 := AnswerFor(g, secret2, request2, Some(c2), token2, offsets2).1.value;
    if Crypto.EncryptChunk(key1, id1, o1, plain).Ok?
       && Crypto.DecryptChunk(key2, id2, o2, Crypto.EncryptChunk(key1, id1, o1, plain).value).Ok? {
      Crypto.CiphertextIsBound(key1, id1, o1, plain, key2, id2, o2);
    }
  }
}
