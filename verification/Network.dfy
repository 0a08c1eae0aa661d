/** One honest sender's view of the receiver: what others may do to it meanwhile, and what one chunk
    request does. */
module Network {
  import opened Wrappers
  import opened Octets
  import opened Names
  import opened Crypto
  import opened Storage
  import opened Receiver

  /** The source each part file is to become, by part path. */
  type Sources = map<Path, seq<Octet>>

  datatype Snapshot = Snapshot(nodes: Tree, sessions: Sessions)

  ghost function Now(server: Server): Snapshot
    reads server, server.disk
  {
    Snapshot(server.disk.nodes, server.sessions)
  }

  ghost predicate Live(s: Snapshot, token: Id) {
    token in s.sessions && s.sessions[token].status != Cancelled
  }

  /** While the session lives, every part file is the beginning of its source. */
  ghost predicate Honest(h: Hashes, s: Snapshot, token: Id, sources: Sources) {
    && token in s.sessions
    && Parts(h, s.sessions[token].files) <= sources.Keys
    && (Live(s, token) ==> forall p :: p in sources ==> PartIsPrefix(s.nodes, p, sources[p]))
  }

  predicate PartIsPrefix(nodes: Tree, p: Path, source: seq<Octet>) {
    (p in nodes ==> nodes[p].File?) && Contents(nodes, p) <= source
  }

  /** Between two moments of a send: other files stay; the session keeps its files and key; and as long
      as it is not cancelled no part file shrinks. */
  ghost predicate Evolves(a: Snapshot, b: Snapshot, token: Id, sources: Sources) {
    && (forall p :: p in a.nodes && p !in sources ==> p in b.nodes && b.nodes[p] == a.nodes[p])
    && (token in a.sessions ==>
          && token in b.sessions
          && b.sessions[token].files == a.sessions[token].files
          && b.sessions[token].key == a.sessions[token].key)
    && (Live(b, token) ==> Live(a, token) && forall p :: p in sources ==> Contents(a.nodes, p) <= Contents(b.nodes, p))
  }

  lemma EvolvesTwice(a: Snapshot, b: Snapshot, c: Snapshot, token: Id, sources: Sources)
    requires Evolves(a, b, token, sources) && Evolves(b, c, token, sources)
    ensures Evolves(a, c, token, sources)
  {
  }

  /** What others do between two steps of a sender: handlers of the same sources, still busy or sent by
      other attempts, write on, as far into the source as they like; other programs create files; the
      receiver's user cancels. */
  method Others(server: Server, token: Id, sources: Sources)
    requires Honest(server.hashes, Now(server), token, sources) && sources.Keys <= server.disk.reserved
    modifies server, server.disk
    ensures Honest(server.hashes, Now(server), token, sources)
    ensures Evolves(old(Now(server)), Now(server), token, sources)
  {
    ghost var before := Now(server);
    var cancel, reach := *, *;
    if cancel {
      var _, _ := server.CancelSession(token);
    } else {
      Write(server, sources, reach);
    }
    ghost var middle := Now(server);
    assert Honest(server.hashes, middle, token, sources) && Evolves(before, middle, token, sources);
    ghost var added := server.disk.Interfere();
    assert Evolves(middle, Now(server), token, sources);
    EvolvesTwice(before, middle, Now(server), token, sources);
  }

  /** Lets the part files grow along their sources, each up to the wished size. */
  method Write(server: Server, sources: Sources, reach: map<Path, nat>)
    modifies server.disk
    ensures forall p :: p in server.disk.nodes && p !in sources ==> p in old(server.disk.nodes)
    ensures forall p :: p in old(server.disk.nodes) ==>
              p in server.disk.nodes && (p !in sources ==> server.disk.nodes[p] == old(server.disk.nodes)[p])
    ensures forall p :: p in sources && PartIsPrefix(old(server.disk.nodes), p, sources[p]) ==>
              PartIsPrefix(server.disk.nodes, p, sources[p])
              && Contents(old(server.disk.nodes), p) <= Contents(server.disk.nodes, p)
    ensures server.sessions == old(server.sessions)
  {
    var nodes := server.disk.nodes;
    var grown := map p | p in reach && p in sources && PartIsPrefix(nodes, p, sources[p])
                         && |Contents(nodes, p)| <= reach[p] <= |sources[p]| :: File(sources[p][..reach[p]]);
    server.disk.nodes := nodes + grown;
  }

  // ----- A chunk on its way -----

  /** The payload an honest sender puts on the wire for a chunk. */
  ghost predicate Formed(key: Option<SessionKey>, fileId: Id, offset: nat, chunk: seq<Octet>, payload: seq<Octet>) {
    match key
    case None => payload == chunk
    case Some(k) => EncryptChunk(k, fileId, offset, chunk) == Ok(payload) && |chunk| <= MAX_ENCRYPTED_CHUNK_SIZE
  }

  /** A body that arrives whole, or one that breaks off after some of the payload. */
  ghost predicate Carries(frames: seq<Frame>, payload: seq<Octet>, whole: bool) {
    if whole then Joined(frames) == Some(payload)
    else Joined(frames) == None && forall room: nat :: TakeIn(room, frames).accepted <= payload
  }

  lemma CarriesOneMore(b: seq<Octet>, frames: seq<Frame>, rest: seq<Octet>, whole: bool)
    requires Carries(frames, rest, whole)
    ensures Carries([Data(b)] + frames, b + rest, whole)
  {
    var all := [Data(b)] + frames;
    assert all[0] == Data(b) && all[1..] == frames;
    forall room: nat | !whole
      ensures TakeIn(room, all).accepted <= b + rest
    {
      if |b| <= room {
        assert TakeIn(room - |b|, frames).accepted <= rest;
      }
    }
  }

  /** Cuts a payload into frames in any way; a broken connection delivers only the first part of it. */
  method SplitBody(payload: seq<Octet>, whole: bool) returns (frames: seq<Frame>)
    ensures Carries(frames, payload, whole)
  {
    var j: nat :| j <= |payload| && (whole ==> j == |payload|);
    frames := if whole then [] else [Broken];
    ghost var last := j;
    assert payload[last..last] == [];
    while j > 0
      invariant 0 <= j <= last <= |payload|
      invariant Carries(frames, payload[j..last], whole)
      decreases j
    {
      var i: nat :| i < j;
      CarriesOneMore(payload[i..j], frames, payload[j..last], whole);
      assert payload[i..j] + payload[j..last] == payload[i..last];
      frames := [Data(payload[i..j])] + frames;
      j := i;
    }
    assert payload[0..last] <= payload && (whole ==> payload[0..last] == payload);
  }

  /** A formed chunk passes every check of the receiver when its body arrives whole, and is refused when
      it does not; either way nothing but the chunk's own bytes can reach the disk. */
  lemma FormedChunkPasses(key: Option<SessionKey>, file: FileMeta, offset: nat, chunk: seq<Octet>, payload: seq<Octet>,
                          frames: seq<Frame>, whole: bool)
    requires offset + |chunk| <= file.size
    requires Formed(key, file.fileId, offset, chunk, payload) && Carries(frames, payload, whole)
    ensures if whole then Verdict(key, file, offset, frames) == Ok(chunk) else Verdict(key, file, offset, frames).Err?
    ensures Reach(key, file, offset, frames) <= chunk
  {
    var verdict := Verdict(key, file, offset, frames);
    match key {
      case None =>
        PlainVerdict(file, offset, frames, chunk);
        if !whole && verdict.Ok? {
          PlainVerdict(file, offset, frames, verdict.value);
        }
      case Some(k) =>
        SealedVerdict(k, file, offset, frames, chunk);
        if !whole && verdict.Ok? {
          SealedVerdict(k, file, offset, frames, verdict.value);
        }
    }
  }

  /** Writing the first bytes of a chunk where the part already reaches keeps the part a prefix. */
  lemma ChunkKeepsPrefix(nodes: Tree, part: Path, source: seq<Octet>, offset: nat, chunk: seq<Octet>, data: seq<Octet>)
    requires PartIsPrefix(nodes, part, source) && offset <= |Contents(nodes, part)|
    requires offset + |chunk| <= |source| && chunk == source[offset..offset + |chunk|] && data <= chunk
    ensures var after := Written(nodes, part, offset, data);
            && PartIsPrefix(after, part, source)
            && Contents(nodes, part) <= Contents(after, part)
            && offset + |data| <= |Contents(after, part)|
  {
    var content := Contents(nodes, part);
    assert data == chunk[0..|data|];
    PieceKeepsPrefix(content, source, offset, chunk, 0, |data|, Contents(Written(nodes, part, offset, data), part));
  }

  // ----- One chunk request, seen from the sender -----

  datatype ClientError =
    | HttpFailure | Refused(error: HttpError) | InvalidOffset | UserCancelled | FileUnreadable | EncryptionFailed

  /** The session knows this file, by this key, and the part reaches up to `offset`. */
  ghost predicate Ready(h: Hashes, s: Snapshot, token: Id, file: FileMeta, key: Option<SessionKey>, part: Path,
                        offset: nat) {
    && token in s.sessions
    && FindFile(s.sessions[token].files, file.fileId) == Some(file)
    && s.sessions[token].key == key
    && part == PartOf(h, file)
    && (Live(s, token) ==> offset <= |Contents(s.nodes, part)|)
  }

  lemma ReadyEvolves(h: Hashes, a: Snapshot, b: Snapshot, token: Id, file: FileMeta, key: Option<SessionKey>,
                     part: Path, offset: nat, sources: Sources)
    requires Ready(h, a, token, file, key, part, offset) && Evolves(a, b, token, sources) && part in sources
    ensures Ready(h, b, token, file, key, part, offset)
  {
  }

  /** A write of the chunk's first bytes, as a step of an honest run. */
  lemma WriteIsHonest(h: Hashes, a: Snapshot, b: Snapshot, token: Id, part: Path, offset: nat, chunk: seq<Octet>,
                      data: seq<Octet>, sources: Sources)
    requires Honest(h, a, token, sources) && Live(a, token) && Live(b, token)
    requires b.sessions[token].files == a.sessions[token].files && b.sessions[token].key == a.sessions[token].key
    requires part in sources && offset <= |Contents(a.nodes, part)| && offset + |chunk| <= |sources[part]|
    requires chunk == sources[part][offset..offset + |chunk|] && data <= chunk
    requires b.nodes == Written(a.nodes, part, offset, data)
    ensures Honest(h, b, token, sources) && Evolves(a, b, token, sources)
    ensures offset + |data| <= |Contents(b.nodes, part)|
  {
    ChunkKeepsPrefix(a.nodes, part, sources[part], offset, chunk, data);
    assert forall p :: p != part ==> Contents(b.nodes, p) == Contents(a.nodes, p);
  }

  /** A cancel while the chunk is written ends the session; only part files go. */
  lemma CancelledMeanwhile(h: Hashes, a: Snapshot, b: Snapshot, token: Id, file: FileMeta, key: Option<SessionKey>,
                           part: Path, offset: nat, frames: seq<Frame>, sources: Sources, r: Result<ChunkReply, HttpError>)
    requires Honest(h, a, token, sources) && Ready(h, a, token, file, key, part, offset) && part in sources
    requires offset <= file.size && r == Err(SessionCancelled)
    requires ChunkOutcome(h, Found(a.sessions[token], file), token, offset, frames, a.nodes, b.nodes, a.sessions,
                          b.sessions, r)
    ensures Honest(h, b, token, sources) && Evolves(a, b, token, sources) && !Live(b, token)
  {
    var data := Verdict(key, file, offset, frames).value;
    var written := Written(a.nodes, part, offset, data);
    var refused :| Pruned(written, b.nodes, Parts(h, a.sessions[token].files), refused);
    assert forall p :: p in a.nodes && p !in sources ==> p in written && written[p] == a.nodes[p];
  }

  /** The receiver's handling of a formed chunk, as a step of an honest run. */
  lemma ChunkIsHonest(h: Hashes, a: Snapshot, b: Snapshot, token: Id, file: FileMeta, key: Option<SessionKey>, part: Path,
                      offset: nat, chunk: seq<Octet>, frames: seq<Frame>, sources: Sources,
                      r: Result<ChunkReply, HttpError>)
    requires Honest(h, a, token, sources) && Ready(h, a, token, file, key, part, offset) && Live(a, token)
    requires part in sources && |sources[part]| == file.size && offset + |chunk| <= file.size
    requires chunk == sources[part][offset..offset + |chunk|]
    requires Reach(key, file, offset, frames) <= chunk
    requires r.Ok? ==> Verdict(key, file, offset, frames) == Ok(chunk)
    requires ChunkOutcome(h, Found(a.sessions[token], file), token, offset, frames, a.nodes, b.nodes, a.sessions,
                          b.sessions, r)
    ensures Honest(h, b, token, sources) && Evolves(a, b, token, sources)
    ensures r.Ok? ==> r.value.written == |chunk| && Ready(h, b, token, file, key, part, offset + |chunk|)
    ensures r == Err(SessionCancelled) ==> !Live(b, token)
  {
    if r.Ok? {
      WriteIsHonest(h, a, b, token, part, offset, chunk, chunk, sources);
    } else if r.error == SessionCancelled {
      CancelledMeanwhile(h, a, b, token, file, key, part, offset, frames, sources, r);
    } else if b.nodes != a.nodes {
      var data :| data <= Reach(key, file, offset, frames) && b.nodes == Written(a.nodes, part, offset, data);
      WriteIsHonest(h, a, b, token, part, offset, chunk, data, sources);
    }
  }

  /** Sends one chunk. The request or its answer may get lost, the connection may break in the middle
      of the body, and others act before and after. */
  method PostChunk(server: Server, token: Id, file: FileMeta, key: Option<SessionKey>, ghost part: Path, sources: Sources,
                   offset: nat, ghost chunk: seq<Octet>, payload: seq<Octet>)
    returns (r: Result<ChunkReply, ClientError>)
    requires Honest(server.hashes, Now(server), token, sources) && sources.Keys <= server.disk.reserved
    requires Ready(server.hashes, Now(server), token, file, key, part, offset) && part in sources
    requires |sources[part]| == file.size && offset + |chunk| <= file.size
             && chunk == sources[part][offset..offset + |chunk|]
    requires Formed(key, file.fileId, offset, chunk, payload)
    modifies server, server.disk
    ensures Honest(server.hashes, Now(server), token, sources)
    ensures Evolves(old(Now(server)), Now(server), token, sources)
    ensures r.Ok? ==> r.value.written == |chunk|
                      && Ready(server.hashes, Now(server), token, file, key, part, offset + |chunk|)
    ensures r.Err? ==> r.error == HttpFailure || r.error.Refused?
    ensures r == Err(Refused(SessionCancelled)) ==> !Live(Now(server), token)
  {
    ghost var h, start := server.hashes, Now(server);
    Others(server, token, sources);
    ghost var sent := Now(server);
    ReadyEvolves(h, start, sent, token, file, key, part, offset, sources);
    var lost, whole := *, *;
    if lost {
      return Err(HttpFailure);
    }
    var frames := SplitBody(payload, whole);
    FormedChunkPasses(key, file, offset, chunk, payload, frames, whole);
    if !whole {
      VerdictErrors(key, file, offset, frames);
    }
    var answer := server.HandleChunk(token, file.fileId, offset, frames);
    ghost var handled := Now(server);
    if Live(sent, token) {
      ChunkIsHonest(h, sent, handled, token, file, key, part, offset, chunk, frames, sources, answer);
    }
    EvolvesTwice(start, sent, handled, token, sources);
    Others(server, token, sources);
    EvolvesTwice(start, handled, Now(server), token, sources);
    if answer.Err? {
      return Err(Refused(answer.error));
    }
    ReadyEvolves(h, handled, Now(server), token, file, key, part, offset + |chunk|, sources);
    var answered := *;
    r := if answered then Ok(answer.value) else Err(HttpFailure);
  }
}
