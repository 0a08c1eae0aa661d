/** The receiver's transfer handlers (server/routes.rs 176-649, server/state.rs 592-629). */
module Receiver {
  import opened Wrappers
  import opened Text
  import opened Octets
  import opened Names
  import opened Crypto
  import opened Storage

  /** Tokens and file ids are compared and hashed as UTF-8 bytes. */
  type Id = seq<byte>

  const MAX_ENCRYPTED_CHUNK_SIZE: nat := 16 * 1024 * 1024

  datatype FileMeta = FileMeta(fileId: Id, name: string, size: nat, hash: Option<string>, relative: Option<string>)

  datatype Status = Accepted | Completed | Cancelled

  datatype Session = Session(files: seq<FileMeta>, status: Status, progress: map<Id, nat>,
                             saved: map<Id, Path>, key: Option<SessionKey>)

  type Sessions = map<Id, Session>

  /** BLAKE3 in hexadecimal, of file contents and of short texts. */
  datatype Hashes = Hashes(ofContent: seq<Octet> -> string, ofText: string -> string)

  datatype HttpError =
    | UnknownSession | SessionCancelled | NoSuchFile | OffsetTooLarge | BodyBroken | TooLarge
    | BadCipher(why: CryptoError) | IoFault | NoPartFile | SizeMismatch | HashMismatch

  // ----- Part files of a request -----

  function Short(s: string): string {
    if |s| <= 16 then s else s[..16]
  }

  /** 16 characters that stay the same across sessions: the start of the content's hash, or of a
      hash of name and size. */
  function FileKey(h: Hashes, m: FileMeta): string {
    if m.hash.Some? && Trim(m.hash.value) != "" then Lower(Short(Trim(m.hash.value)))
    else Short(h.ofText(m.name + ":" + Decimal(m.size)))
  }

  function PartOf(h: Hashes, m: FileMeta): Path {
    PartPath(m.name, FileKey(h, m))
  }

  function Contents(nodes: Tree, p: Path): seq<Octet> {
    if p in nodes && nodes[p].File? then nodes[p].content else []
  }

  function FindFile(files: seq<FileMeta>, id: Id): (r: Option<FileMeta>)
    ensures r.Some? ==> r.value in files && r.value.fileId == id
    ensures r.None? ==> forall f :: f in files ==> f.fileId != id
  {
    if files == [] then None
    else if files[0].fileId == id then Some(files[0])
    else FindFile(files[1..], id)
  }

  datatype Found = Found(session: Session, file: FileMeta)

  /** The checks every handler starts with. */
  function Lookup(sessions: Sessions, token: Id, fileId: Id): Result<Found, HttpError> {
    if token !in sessions then Err(UnknownSession)
    else if sessions[token].status == Cancelled then Err(SessionCancelled)
    else
      match FindFile(sessions[token].files, fileId)
      case None => Err(NoSuchFile)
      case Some(f) => Ok(Found(sessions[token], f))
  }

  // ----- What a chunk request carries -----

  /** A request body arrives in frames, and may break off. */
  datatype Frame = Data(bytes: seq<Octet>) | Broken

  datatype Intake = Intake(accepted: seq<Octet>, stop: Option<HttpError>)

  /** The frames let through while they fit into `room`, and why reading stopped early. */
  function TakeIn(room: nat, frames: seq<Frame>): (r: Intake)
    ensures |r.accepted| <= room
  {
    if frames == [] then Intake([], None)
    else
      match frames[0]
      case Broken => Intake([], Some(BodyBroken))
      case Data(b) =>
        if |b| > room then Intake([], Some(TooLarge))
        else
          var rest := TakeIn(room - |b|, frames[1..]);
          Intake(b + rest.accepted, rest.stop)
  }

  /** Reading stopped at the end, for a broken body, for a frame that did not fit, or because the disk
      failed; `buffer` is what was let through until then. */
  ghost predicate Stopped(room: nat, frames: seq<Frame>, buffer: seq<Octet>, stop: Option<HttpError>) {
    if stop == Some(IoFault) then buffer <= TakeIn(room, frames).accepted
    else TakeIn(room, frames) == Intake(buffer, stop)
  }

  lemma HeadOff(frames: seq<Frame>, i: nat)
    requires 0 < i <= |frames|
    ensures frames[..i][1..] == frames[1..][..i - 1] && frames[1..][i - 1..] == frames[i..] && frames[..i][0] == frames[0]
  {
  }

  lemma Regroup(a: seq<Octet>, b: seq<Octet>, c: seq<Octet>)
    ensures a + (b + c) == a + b + c
  {
  }

  /** A first frame that fits is let through, and the rest gets what room is left. */
  lemma TakeInFirst(room: nat, frames: seq<Frame>)
    requires frames != [] && frames[0].Data? && |frames[0].bytes| <= room
    ensures var b := frames[0].bytes;
            var rest := TakeIn(room - |b|, frames[1..]);
            TakeIn(room, frames) == Intake(b + rest.accepted, rest.stop)
  {
  }

  /** Reading a body is reading its first frames and then, if they were all let through, the rest. */
  lemma {:induction false} TakeInSplit(room: nat, frames: seq<Frame>, i: nat)
    requires i <= |frames| && TakeIn(room, frames[..i]).stop.None?
    ensures var first := TakeIn(room, frames[..i]).accepted;
            var rest := TakeIn(room - |first|, frames[i..]);
            TakeIn(room, frames) == Intake(first + rest.accepted, rest.stop)
  {
    if i == 0 {
      assert frames[0..] == frames;
    } else {
      HeadOff(frames, i);
      assert frames[0].Data? && |frames[0].bytes| <= room;
      TakeInFirst(room, frames);
      TakeInFirst(room, frames[..i]);
      var left := room - |frames[0].bytes|;
      TakeInSplit(left, frames[1..], i - 1);
      var first := TakeIn(left, frames[1..][..i - 1]).accepted;
      Regroup(frames[0].bytes, first, TakeIn(left - |first|, frames[i..]).accepted);
    }
  }

  /** The loop's step: after `i` frames, the next one is let through or ends the reading. */
  lemma ReadOne(room: nat, frames: seq<Frame>, i: nat, before: seq<Octet>, buffer: seq<Octet>, stop: Option<HttpError>)
    requires i < |frames| && TakeIn(room, frames[..i]) == Intake(before, None)
    requires FrameRead(room, frames[i], before, buffer, stop)
    ensures stop.None? ==> TakeIn(room, frames[..i + 1]) == Intake(buffer, None)
    ensures stop.Some? ==> Stopped(room, frames, buffer, stop)
  {
    TakeInSplit(room, frames, i);
    assert frames[i..][0] == frames[i];
    assert frames[..i + 1][..i] == frames[..i] && frames[..i + 1][i..] == [frames[i]];
    TakeInSplit(room, frames[..i + 1], i);
    assert [frames[i]][1..] == [];
  }

  /** What happens to one frame. */
  ghost predicate FrameRead(room: nat, frame: Frame, before: seq<Octet>, buffer: seq<Octet>, stop: Option<HttpError>) {
    match frame
    case Broken => buffer == before && stop == Some(BodyBroken)
    case Data(b) =>
      if |before| + |b| > room then buffer == before && stop == Some(TooLarge)
      else buffer == before + b && (stop.None? || stop == Some(IoFault))
  }

  /** All bytes of a body that does not break off. */
  function Joined(frames: seq<Frame>): Option<seq<Octet>> {
    if frames == [] then Some([])
    else
      match frames[0]
      case Broken => None
      case Data(b) =>
        match Joined(frames[1..])
        case None => None
        case Some(rest) => Some(b + rest)
  }

  /** A body is let through in full exactly when it is whole and fits. */
  lemma {:induction false} TakeInExactly(room: nat, frames: seq<Frame>, whole: seq<Octet>)
    ensures TakeIn(room, frames) == Intake(whole, None) <==> Joined(frames) == Some(whole) && |whole| <= room
  {
    if frames != [] && frames[0].Data? && |frames[0].bytes| <= room {
      var b := frames[0].bytes;
      var rest := TakeIn(room - |b|, frames[1..]);
      TakeInExactly(room - |b|, frames[1..], rest.accepted);
      if Joined(frames[1..]).Some? {
        TakeInExactly(room - |b|, frames[1..], Joined(frames[1..]).value);
      }
      if |b| <= |whole| {
        assert b + rest.accepted == whole ==> rest.accepted == whole[|b|..];
      }
    }
  }

  /** The plaintext a chunk request is to write, or why it is refused. */
  function Verdict(key: Option<SessionKey>, file: FileMeta, offset: nat, frames: seq<Frame>)
    : (r: Result<seq<Octet>, HttpError>)
    requires offset <= file.size
    ensures r.Ok? ==> offset + |r.value| <= file.size
  {
    match key
    case None =>
      var taken := TakeIn(file.size - offset, frames);
      if taken.stop.Some? then Err(taken.stop.value) else Ok(taken.accepted)
    case Some(k) =>
      var taken := TakeIn(MaxPayload(file.size, offset), frames);
      if taken.stop.Some? then Err(taken.stop.value)
      else
        match DecryptChunk(k, file.fileId, offset, taken.accepted)
        case Err(why) => Err(BadCipher(why))
        case Ok(plain) =>
          if offset + |plain| > file.size then Err(TooLarge) else Ok(plain)
  }

  function MaxPayload(size: nat, offset: nat): nat
    requires offset <= size
  {
    (if size - offset < MAX_ENCRYPTED_CHUNK_SIZE then size - offset else MAX_ENCRYPTED_CHUNK_SIZE) + TAG_SIZE
  }

  /** The bytes that can reach the disk even when the request fails in the end. */
  function Reach(key: Option<SessionKey>, file: FileMeta, offset: nat, frames: seq<Frame>): (r: seq<Octet>)
    requires offset <= file.size
    ensures offset + |r| <= file.size
    ensures Verdict(key, file, offset, frames).Ok? ==> r == Verdict(key, file, offset, frames).value
  {
    match key
    case None => TakeIn(file.size - offset, frames).accepted
    case Some(k) =>
      match Verdict(key, file, offset, frames)
      case Ok(plain) => plain
      case Err(_) => []
  }

  lemma TakeInStops(room: nat, frames: seq<Frame>)
    ensures TakeIn(room, frames).stop in {None, Some(BodyBroken), Some(TooLarge)}
  {
  }

  /** A chunk request is never refused as cancelled on account of its body. */
  lemma VerdictErrors(key: Option<SessionKey>, file: FileMeta, offset: nat, frames: seq<Frame>)
    requires offset <= file.size && Verdict(key, file, offset, frames).Err?
    ensures var e := Verdict(key, file, offset, frames).error; e in {BodyBroken, TooLarge} || e.BadCipher?
  {
    TakeInStops(file.size - offset, frames);
    TakeInStops(MaxPayload(file.size, offset), frames);
  }

  /** A plain body is accepted exactly when it is whole and ends within the declared size. */
  lemma PlainVerdict(file: FileMeta, offset: nat, frames: seq<Frame>, data: seq<Octet>)
    requires offset <= file.size
    ensures Verdict(None, file, offset, frames) == Ok(data)
            <==> Joined(frames) == Some(data) && offset + |data| <= file.size
  {
    TakeInExactly(file.size - offset, frames, data);
  }

  /** An encrypted body is accepted exactly when it is the sealed form, for this file and offset, of
      a text within the declared size and the chunk limit. */
  lemma SealedVerdict(k: SessionKey, file: FileMeta, offset: nat, frames: seq<Frame>, data: seq<Octet>)
    requires offset <= file.size
    ensures Verdict(Some(k), file, offset, frames) == Ok(data)
            <==> (&& EncryptChunk(k, file.fileId, offset, data).Ok?
                  && Joined(frames) == Some(EncryptChunk(k, file.fileId, offset, data).value)
                  && offset + |data| <= file.size && |data| <= MAX_ENCRYPTED_CHUNK_SIZE)
  {
    var room := MaxPayload(file.size, offset);
    var taken := TakeIn(room, frames);
    TakeInExactly(room, frames, taken.accepted);
    DecryptExactly(k, file.fileId, offset, taken.accepted, data);
    if EncryptChunk(k, file.fileId, offset, data).Ok? {
      var text := EncryptChunk(k, file.fileId, offset, data).value;
      assert |text| == |data| + TAG_SIZE;
      TakeInExactly(room, frames, text);
      DecryptExactly(k, file.fileId, offset, text, data);
    }
  }

  // ----- Finishing -----

  function VerifyHash(h: Hashes, content: seq<Octet>, stated: string): bool {
    Lower(h.ofContent(content)) == Lower(stated)
  }

  /** What a finish request asks of the part file. */
  function FinishCheck(h: Hashes, file: FileMeta, nodes: Tree): Result<(), HttpError> {
    var part := PartOf(h, file);
    if part !in nodes then Err(NoPartFile)
    else if |Contents(nodes, part)| != file.size then Err(SizeMismatch)
    else if file.hash.Some? && !VerifyHash(h, Contents(nodes, part), file.hash.value) then Err(HashMismatch)
    else Ok(())
  }

  function Progress(s: Session, id: Id): nat {
    if id in s.progress then s.progress[id] else 0
  }

  predicate AllFinished(s: Session) {
    forall f :: f in s.files ==> Progress(s, f.fileId) >= f.size
  }

  /** The session after a committed file. */
  function AfterFinish(s: Session, file: FileMeta, dest: Path): Session {
    var t := s.(progress := s.progress[file.fileId := file.size], saved := s.saved[file.fileId := dest]);
    if AllFinished(t) then t.(status := Completed) else t
  }

  /** The tree a finish request works on: an empty file has no part yet, so one is made. */
  function WithEmptyPart(h: Hashes, file: FileMeta, nodes: Tree): Tree {
    var part := PartOf(h, file);
    if part !in nodes && file.size == 0 then nodes[part := File([])] else nodes
  }

  /** The tree after the first `n` bytes of `data` were written behind `offset`. */
  function Written(nodes: Tree, part: Path, offset: nat, data: seq<Octet>): Tree {
    nodes[part := File(WriteAt(Contents(nodes, part), offset, data))]
  }

  /** What writing the body leaves: all of its plaintext when it is answered, and a first piece of it
      when it fails. */
  ghost predicate BodyOutcome(key: Option<SessionKey>, file: FileMeta, offset: nat, frames: seq<Frame>, part: Path,
                              before: Tree, after: Tree, r: Result<nat, HttpError>)
    requires offset <= file.size
  {
    match r
    case Ok(n) =>
      && Verdict(key, file, offset, frames).Ok?
      && n == |Verdict(key, file, offset, frames).value|
      && after == Written(before, part, offset, Verdict(key, file, offset, frames).value)
    case Err(e) =>
      && (e == IoFault || Verdict(key, file, offset, frames) == Err(e))
      && exists data :: data <= Reach(key, file, offset, frames) && after == Written(before, part, offset, data)
  }

  lemma NothingWritten(key: Option<SessionKey>, file: FileMeta, offset: nat, frames: seq<Frame>, part: Path,
                       nodes: Tree, e: HttpError)
    requires offset <= file.size && part in nodes && nodes[part].File?
    requires Verdict(key, file, offset, frames) == Err(e)
    ensures BodyOutcome(key, file, offset, frames, part, nodes, nodes, Err(e))
  {
    assert [] <= Reach(key, file, offset, frames) && nodes == Written(nodes, part, offset, []);
  }

  lemma SomeWritten(key: Option<SessionKey>, file: FileMeta, offset: nat, frames: seq<Frame>, part: Path,
                    before: Tree, after: Tree, buffer: seq<Octet>, flushed: nat, e: HttpError)
    requires offset <= file.size && flushed <= |buffer| && buffer <= Reach(key, file, offset, frames)
    requires after == Written(before, part, offset, buffer[..flushed])
    requires e == IoFault || Verdict(key, file, offset, frames) == Err(e)
    ensures BodyOutcome(key, file, offset, frames, part, before, after, Err(e))
  {
    assert buffer[..flushed] <= Reach(key, file, offset, frames);
  }

  function Parts(h: Hashes, files: seq<FileMeta>): set<Path> {
    set f | f in files :: PartOf(h, f)
  }

  lemma PartsOneMore(h: Hashes, files: seq<FileMeta>, i: nat)
    requires i < |files|
    ensures Parts(h, files[..i + 1]) == Parts(h, files[..i]) + {PartOf(h, files[i])}
  {
    var more := files[..i + 1];
    assert more == files[..i] + [files[i]];
    assert forall f :: f in more <==> f in files[..i] || f == files[i];
  }

  /** The tree without the given part files, except those the system refused to delete. */
  ghost predicate Pruned(before: Tree, after: Tree, parts: set<Path>, refused: set<Path>) {
    && refused <= parts
    && (forall p :: p in after <==> p in before && (p in parts ==> p in refused))
    && (forall p :: p in after ==> after[p] == before[p])
  }

  /** The session after a chunk that ended at `total`. */
  function Reached(s: Session, fileId: Id, total: nat): Session {
    s.(progress := s.progress[fileId := total])
  }

  /** An answered chunk request: the whole chunk is written, and the session notes where it reaches. */
  ghost predicate ChunkTaken(h: Hashes, found: Found, token: Id, offset: nat, frames: seq<Frame>,
                             before: Tree, after: Tree, sBefore: Sessions, sAfter: Sessions, reply: ChunkReply)
    requires offset <= found.file.size
  {
    && Verdict(found.session.key, found.file, offset, frames).Ok?
    && var data := Verdict(found.session.key, found.file, offset, frames).value;
    && reply == ChunkReply(|data|, offset + |data|)
    && after == Written(before, PartOf(h, found.file), offset, data)
    && sAfter == sBefore[token := Reached(found.session, found.file.fileId, reply.total)]
  }

  /** The outcome of a chunk request that passed the first session check and the offset check. If the session
      was cancelled while the chunk was written, the part goes and the chunk is refused. */
  ghost predicate ChunkOutcome(h: Hashes, found: Found, token: Id, offset: nat, frames: seq<Frame>,
                               before: Tree, after: Tree, sBefore: Sessions, sAfter: Sessions,
                               r: Result<ChunkReply, HttpError>)
    requires offset <= found.file.size
  {
    var Found(session, file) := found;
    var part := PartOf(h, file);
    match r
    case Ok(reply) => ChunkTaken(h, found, token, offset, frames, before, after, sBefore, sAfter, reply)
    case Err(SessionCancelled) =>
      && Verdict(session.key, file, offset, frames).Ok?
      && sAfter == sBefore[token := session.(status := Cancelled)]
      && var written := Written(before, part, offset, Verdict(session.key, file, offset, frames).value);
      && exists refused :: Pruned(written, after, Parts(h, session.files), refused)
    case Err(e) =>
      && sAfter == sBefore
      && (e == IoFault || Verdict(session.key, file, offset, frames) == Err(e))
      && (after == before
          || exists data :: data <= Reach(session.key, file, offset, frames)
                            && after == Written(before, part, offset, data))
  }

  lemma OpenedThenBody(key: Option<SessionKey>, file: FileMeta, offset: nat, frames: seq<Frame>, part: Path,
                       before: Tree, open: Tree, after: Tree, r: Result<nat, HttpError>)
    requires offset <= file.size
    requires open == before[part := File(Contents(before, part))]
    requires BodyOutcome(key, file, offset, frames, part, open, after, r)
    ensures BodyOutcome(key, file, offset, frames, part, before, after, r)
  {
    assert forall data :: Written(open, part, offset, data) == Written(before, part, offset, data);
  }

  lemma PrunedOneMore(before: Tree, middle: Tree, parts: set<Path>, refused: set<Path>, part: Path)
    requires Pruned(before, middle, parts, refused)
    ensures part in middle ==> Pruned(before, middle, parts + {part}, refused + {part})
    ensures Pruned(before, middle - {part}, parts + {part}, refused - {part})
  {
  }

  /** After a cancel, the part is deleted once more. */
  lemma DeletedAgain(h: Hashes, session: Session, file: FileMeta, before: Tree, middle: Tree, after: Tree,
                     refused: set<Path>, no: bool)
    requires file in session.files && Pruned(before, middle, Parts(h, session.files), refused)
    requires after == if no then middle else middle - {PartOf(h, file)}
    ensures exists left :: Pruned(before, after, Parts(h, session.files), left)
  {
    var part := PartOf(h, file);
    assert part in Parts(h, session.files);
    var left := if no then refused else refused - {part};
    assert Pruned(before, after, Parts(h, session.files), left);
  }

  lemma ChunkFailed(h: Hashes, found: Found, token: Id, offset: nat, frames: seq<Frame>, before: Tree, after: Tree,
                    sessions: Sessions, written: Result<nat, HttpError>)
    requires offset <= found.file.size && written.Err?
    requires (written == Err(IoFault) && after == before)
             || BodyOutcome(found.session.key, found.file, offset, frames, PartOf(h, found.file), before, after, written)
    ensures ChunkOutcome(h, found, token, offset, frames, before, after, sessions, sessions, Err(written.error))
  {
    if Verdict(found.session.key, found.file, offset, frames).Err? {
      VerdictErrors(found.session.key, found.file, offset, frames);
    }
  }

  lemma ChunkRefusedLate(h: Hashes, found: Found, token: Id, offset: nat, frames: seq<Frame>, before: Tree, middle: Tree,
                         after: Tree, sBefore: Sessions, sAfter: Sessions, written: Result<nat, HttpError>)
    requires offset <= found.file.size && written.Ok?
    requires BodyOutcome(found.session.key, found.file, offset, frames, PartOf(h, found.file), before, middle, written)
    requires sAfter == sBefore[token := found.session.(status := Cancelled)]
    requires exists refused :: Pruned(middle, after, Parts(h, found.session.files), refused)
    ensures ChunkOutcome(h, found, token, offset, frames, before, after, sBefore, sAfter, Err(SessionCancelled))
  {
  }

  lemma ChunkAnswered(h: Hashes, found: Found, token: Id, offset: nat, frames: seq<Frame>, before: Tree, after: Tree,
                      sBefore: Sessions, sAfter: Sessions, written: Result<nat, HttpError>, total: nat)
    requires offset <= found.file.size && written.Ok? && total == offset + written.value
    requires BodyOutcome(found.session.key, found.file, offset, frames, PartOf(h, found.file), before, after, written)
    requires sAfter == sBefore[token := Reached(found.session, found.file.fileId, total)]
    ensures ChunkOutcome(h, found, token, offset, frames, before, after, sBefore, sAfter,
                         Ok(ChunkReply(written.value, total)))
  {
    var data := Verdict(found.session.key, found.file, offset, frames).value;
    assert written.value == |data| && total == offset + |data|;
  }

  /** The outcome of committing a checked part. Answered with a path: it was committed under a name of
      the file's own target. Otherwise the part and all other files are still there. */
  ghost predicate CommitOutcome(h: Hashes, session: Session, file: FileMeta, token: Id, before: Tree, after: Tree,
                                added: Tree,
                                sBefore: Sessions, sAfter: Sessions, n: nat, r: Result<Path, HttpError>)
  {
    var part := PartOf(h, file);
    var target := ResolveTarget(file.name, file.relative);
    match r
    case Ok(dest) =>
      && dest == DestPath(target, n)
      && Committed(before, after, added, target.folder, part, dest)
      && sAfter == sBefore[token := AfterFinish(session, file, dest)]
    case Err(e) =>
      && e == IoFault && sAfter == sBefore
      && (|| NotCommitted(before, after, added, target.folder)
          || HalfCopied(before, after, added, target.folder, part, DestPath(target, n)))
  }

  /** The outcome of a finish request that passed the session check: refused for the part's size or
      hash, or the outcome of the commit. */
  ghost predicate FinishOutcome(h: Hashes, found: Found, token: Id, before: Tree, after: Tree, added: Tree,
                                sBefore: Sessions, sAfter: Sessions, n: nat, r: Result<Path, HttpError>)
  {
    var base := WithEmptyPart(h, found.file, before);
    || (&& r.Err? && sAfter == sBefore && (after == before || after == base)
        && (r.error == IoFault || FinishCheck(h, found.file, base) == Err(r.error)))
    || (&& FinishCheck(h, found.file, base).Ok?
        && CommitOutcome(h, found.session, found.file, token, base, after, added, sBefore, sAfter, n, r))
  }

  /** Whoever asks, and whatever others have done to the part before: an answered finish between whose check and
      commit nothing comes has committed bytes of the stated size that have the stated hash. */
  lemma FinishCommitsWhatWasStated(h: Hashes, found: Found, token: Id, before: Tree, after: Tree, added: Tree,
                                   sBefore: Sessions, sAfter: Sessions, n: nat, r: Result<Path, HttpError>)
    requires FinishOutcome(h, found, token, before, after, added, sBefore, sAfter, n, r) && r.Ok?
    requires added.Keys !! before.Keys && PartOf(h, found.file) !in added
    ensures r.value in after && after[r.value].File?
    ensures var content, file := after[r.value].content, found.file;
            |content| == file.size && (file.hash.Some? ==> VerifyHash(h, content, file.hash.value))
  {
  }

  lemma FinishRefused(h: Hashes, found: Found, token: Id, before: Tree, after: Tree, s: Sessions, e: HttpError)
    requires after == before || after == WithEmptyPart(h, found.file, before)
    requires e == IoFault || FinishCheck(h, found.file, WithEmptyPart(h, found.file, before)) == Err(e)
    ensures FinishOutcome(h, found, token, before, after, map[], s, s, 0, Err(e))
  {
  }

  // ----- The server -----

  datatype StatusReply = StatusReply(received: nat, state: PartState)

  datatype PartState = Pending | Partial | Whole

  datatype ChunkReply = ChunkReply(written: nat, total: nat)

  class Server {
    const disk: Disk
    const hashes: Hashes
    var sessions: Sessions

    constructor (disk: Disk, hashes: Hashes)
      ensures this.disk == disk && this.hashes == hashes && sessions == map[]
    {
      this.disk, this.hashes, this.sessions := disk, hashes, map[];
    }

    method HandleStatus(token: Id, fileId: Id) returns (r: Result<StatusReply, HttpError>)
      ensures match Lookup(sessions, token, fileId)
              case Err(e) => r == Err(e)
              case Ok(found) =>
                && r.Ok?
                && r.value.received == |Contents(disk.nodes, PartOf(hashes, found.file))|
                && (r.value.state == Pending <==> r.value.received == 0)
                && (r.value.state == Whole <==> 0 < r.value.received && found.file.size <= r.value.received)
    {
      var found := Lookup(sessions, token, fileId);
      if found.Err? {
        return Err(found.error);
      }
      var part := PartOf(hashes, found.value.file);
      var received := if part in disk.nodes then |Contents(disk.nodes, part)| else 0;
      var state := if received == 0 then Pending else if received >= found.value.file.size then Whole else Partial;
      r := Ok(StatusReply(received, state));
    }

    /** Opens the part file, creating it if it is missing. */
    method OpenPart(part: Path) returns (ok: bool)
      modifies disk
      ensures ok ==> part in disk.nodes && disk.nodes[part].File?
      ensures ok ==> disk.nodes == old(disk.nodes)[part := File(Contents(old(disk.nodes), part))]
      ensures !ok ==> disk.nodes == old(disk.nodes)
    {
      ok := *;
      if part in disk.nodes {
        ok := ok && disk.nodes[part].File?;
      } else if ok {
        disk.nodes := disk.nodes[part := File([])];
      }
    }

    /** The buffered writer hands some or all of what it holds to the file: of `data`, which belongs
        at `offset`, the first `flushed` bytes are there already. */
    method Spill(part: Path, offset: nat, data: seq<Octet>, flushed: nat, ghost content: seq<Octet>) returns (done: nat)
      requires flushed <= |data|
      requires part in disk.nodes && disk.nodes[part] == File(WriteAt(content, offset, data[..flushed]))
      modifies disk
      ensures flushed <= done <= |data|
      ensures disk.nodes == old(disk.nodes)[part := File(WriteAt(content, offset, data[..done]))]
    {
      done :| flushed <= done <= |data|;
      WriteInPieces(content, offset, data[..flushed], data[flushed..done]);
      assert data[..flushed] + data[flushed..done] == data[..done];
      assert offset + |data[..flushed]| == offset + flushed;
      disk.nodes := disk.nodes[part := File(WriteAt(disk.nodes[part].content, offset + flushed, data[flushed..done]))];
    }

    /** One frame of a plain body: checked against the declared size, then handed to the writer. */
    method ReceiveFrame(part: Path, size: nat, offset: nat, frame: Frame, buffer: seq<Octet>, flushed: nat,
                        ghost content: seq<Octet>)
      returns (buffer': seq<Octet>, flushed': nat, stop: Option<HttpError>)
      requires offset + |buffer| <= size && flushed <= |buffer|
      requires part in disk.nodes && disk.nodes[part] == File(WriteAt(content, offset, buffer[..flushed]))
      modifies disk
      ensures flushed' <= |buffer'|
      ensures disk.nodes == old(disk.nodes)[part := File(WriteAt(content, offset, buffer'[..flushed']))]
      ensures FrameRead(size - offset, frame, buffer, buffer', stop)
    {
      buffer', flushed', stop := buffer, flushed, None;
      if frame.Broken? {
        stop := Some(BodyBroken);
      } else if offset + |buffer| + |frame.bytes| > size {
        stop := Some(TooLarge);
      } else {
        buffer' := buffer + frame.bytes;
        assert buffer'[..flushed] == buffer[..flushed];
        flushed' := Spill(part, offset, buffer', flushed, content);
        var failed := *;
        stop := if failed then Some(IoFault) else None;
      }
    }

    /** Reads a plain body frame by frame into the writer. Stops with an error for a broken body, for
        bytes past the declared size, or when the disk fails. */
    method ReceivePlain(part: Path, size: nat, offset: nat, frames: seq<Frame>)
      returns (buffer: seq<Octet>, stop: Option<HttpError>, flushed: nat)
      requires part in disk.nodes && disk.nodes[part].File? && offset <= size
      modifies disk
      ensures flushed <= |buffer|
      ensures disk.nodes == old(disk.nodes)[part := File(WriteAt(old(disk.nodes)[part].content, offset, buffer[..flushed]))]
      ensures Stopped(size - offset, frames, buffer, stop)
    {
      buffer, stop, flushed := [], None, 0;
      ghost var content := disk.nodes[part].content;
      var i := 0;
      while i < |frames| && stop.None?
        invariant 0 <= i <= |frames| && flushed <= |buffer|
        invariant disk.nodes == old(disk.nodes)[part := File(WriteAt(content, offset, buffer[..flushed]))]
        invariant stop.None? ==> TakeIn(size - offset, frames[..i]) == Intake(buffer, None)
        invariant stop.Some? ==> Stopped(size - offset, frames, buffer, stop)
      {
        ghost var before := buffer;
        buffer, flushed, stop := ReceiveFrame(part, size, offset, frames[i], buffer, flushed, content);
        ReadOne(size - offset, frames, i, before, buffer, stop);
        i := i + 1;
      }
      assert frames[..|frames|] == frames;
    }

    /** Collects an encrypted body in memory, up to the largest payload a valid chunk could have. */
    method CollectPayload(limit: nat, frames: seq<Frame>) returns (r: Intake)
      ensures r == TakeIn(limit, frames)
    {
      var payload: seq<Octet>, stop: Option<HttpError> := [], None;
      var i := 0;
      while i < |frames| && stop.None?
        invariant 0 <= i <= |frames| && stop != Some(IoFault) && |payload| <= limit
        invariant stop.None? ==> TakeIn(limit, frames[..i]) == Intake(payload, None)
        invariant stop.Some? ==> Stopped(limit, frames, payload, stop)
      {
        ghost var before := payload;
        match frames[i] {
          case Broken => stop := Some(BodyBroken);
          case Data(b) =>
            if |payload| + |b| > limit {
              stop := Some(TooLarge);
            } else {
              payload := payload + b;
            }
        }
        ReadOne(limit, frames, i, before, payload, stop);
        i := i + 1;
      }
      assert frames[..|frames|] == frames;
      r := Intake(payload, stop);
    }

    /** Reads the body and writes what it carries behind `offset`; the answer is the number of bytes. */
    method ReceiveBody(part: Path, key: Option<SessionKey>, file: FileMeta, offset: nat, frames: seq<Frame>)
      returns (r: Result<nat, HttpError>)
      requires part in disk.nodes && disk.nodes[part].File? && offset <= file.size
      modifies disk
      ensures BodyOutcome(key, file, offset, frames, part, old(disk.nodes), disk.nodes, r)
    {
      var buffer: seq<Octet>, flushed: nat := [], 0;
      ghost var content := disk.nodes[part].content;
      if key.Some? {
        var payload := CollectPayload(MaxPayload(file.size, offset), frames);
        if payload.stop.Some? {
          NothingWritten(key, file, offset, frames, part, disk.nodes, payload.stop.value);
          return Err(payload.stop.value);
        }
        var plain := DecryptChunk(key.value, file.fileId, offset, payload.accepted);
        if plain.Err? {
          NothingWritten(key, file, offset, frames, part, disk.nodes, BadCipher(plain.error));
          return Err(BadCipher(plain.error));
        }
        if offset + |plain.value| > file.size {
          NothingWritten(key, file, offset, frames, part, disk.nodes, TooLarge);
          return Err(TooLarge);
        }
        buffer := plain.value;
      } else {
        var stop;
        buffer, stop, flushed := ReceivePlain(part, file.size, offset, frames);
        if stop.Some? {
          SomeWritten(key, file, offset, frames, part, old(disk.nodes), disk.nodes, buffer, flushed, stop.value);
          return Err(stop.value);
        }
      }
      assert Verdict(key, file, offset, frames) == Ok(buffer);
      assert disk.nodes[part] == File(WriteAt(content, offset, buffer[..flushed]));
      flushed := Spill(part, offset, buffer, flushed, content);
      if flushed < |buffer| {
        SomeWritten(key, file, offset, frames, part, old(disk.nodes), disk.nodes, buffer, flushed, IoFault);
        return Err(IoFault);
      }
      assert buffer[..flushed] == buffer;
      r := Ok(|buffer|);
    }

    /** The session may have been cancelled since; then the part is deleted, which the cancel could not do
        while it was open. */
    method CheckAgain(token: Id, session: Session, file: FileMeta) returns (cancelled: bool)
      requires token in sessions && sessions[token] == session && session.status != Cancelled && file in session.files
      modifies this, disk
      ensures !cancelled ==> sessions == old(sessions) && disk.nodes == old(disk.nodes)
      ensures cancelled ==> sessions == old(sessions)[token := session.(status := Cancelled)]
      ensures cancelled ==> exists refused :: Pruned(old(disk.nodes), disk.nodes, Parts(hashes, session.files), refused)
    {
      ghost var middle, refused := disk.nodes, {};
      var cancel := *;
      if cancel {
        var _, kept := CancelSession(token);
        middle, refused := disk.nodes, kept;
      }
      cancelled := sessions[token].status == Cancelled;
      if cancelled {
        var no := Delete(PartOf(hashes, file));
        DeletedAgain(hashes, session, file, old(disk.nodes), middle, disk.nodes, refused, no);
      }
    }

    /** Opens the part and writes the body; an error before the first byte leaves everything as it was. */
    method OpenAndReceive(part: Path, key: Option<SessionKey>, file: FileMeta, offset: nat, frames: seq<Frame>)
      returns (r: Result<nat, HttpError>)
      requires offset <= file.size
      modifies disk
      ensures (r == Err(IoFault) && disk.nodes == old(disk.nodes))
              || BodyOutcome(key, file, offset, frames, part, old(disk.nodes), disk.nodes, r)
    {
      var ok := OpenPart(part);
      if !ok {
        return Err(IoFault);
      }
      label ready:
      r := ReceiveBody(part, key, file, offset, frames);
      OpenedThenBody(key, file, offset, frames, part, old(disk.nodes), old@ready(disk.nodes), disk.nodes, r);
    }

    /** A chunk request, from the first session check over the body to the second check and the progress
        update. While the body is written the session may be cancelled. */
    method HandleChunk(token: Id, fileId: Id, offset: nat, frames: seq<Frame>) returns (r: Result<ChunkReply, HttpError>)
      modifies this, disk
      ensures match Lookup(old(sessions), token, fileId)
              case Err(e) => r == Err(e) && disk.nodes == old(disk.nodes) && sessions == old(sessions)
              case Ok(found) =>
                if offset > found.file.size then
                  r == Err(OffsetTooLarge) && disk.nodes == old(disk.nodes) && sessions == old(sessions)
                else
                  ChunkOutcome(hashes, found, token, offset, frames, old(disk.nodes), disk.nodes, old(sessions),
                               sessions, r)
    {
      var found := Lookup(sessions, token, fileId);
      if found.Err? {
        return Err(found.error);
      }
      var Found(session, file) := found.value;
      if offset > file.size {
        return Err(OffsetTooLarge);
      }
      var written := OpenAndReceive(PartOf(hashes, file), session.key, file, offset, frames);
      if written.Err? {
        ChunkFailed(hashes, found.value, token, offset, frames, old(disk.nodes), disk.nodes, sessions, written);
        return Err(written.error);
      }
      ghost var middle := disk.nodes;
      var cancelled := CheckAgain(token, session, file);
      if cancelled {
        ChunkRefusedLate(hashes, found.value, token, offset, frames, old(disk.nodes), middle, disk.nodes, old(sessions),
                         sessions, written);
        return Err(SessionCancelled);
      }
      var total := offset + written.value;
      assert fileId == file.fileId;
      sessions := sessions[token := Reached(session, file.fileId, total)];
      r := Ok(ChunkReply(written.value, total));
      ChunkAnswered(hashes, found.value, token, offset, frames, old(disk.nodes), disk.nodes, old(sessions), sessions,
                    written, total);
    }

    /** Commits a checked part and records where it went. */
    method CommitChecked(token: Id, session: Session, file: FileMeta) returns (r: Result<Path, HttpError>,
                         ghost n: nat, ghost added: Tree)
      requires FinishCheck(hashes, file, disk.nodes).Ok?
      modifies this`sessions, disk
      ensures added.Keys !! old(disk.nodes).Keys && added.Keys !! disk.reserved
      ensures CommitOutcome(hashes, session, file, token, old(disk.nodes), disk.nodes, added, old(sessions), sessions, n, r)
    {
      var part := PartOf(hashes, file);
      var done, dest, tries;
      done, dest, tries, n, added := disk.PickAndCommit(part, file.name, file.relative);
      if done.Err? {
        return Err(IoFault), n, added;
      }
      sessions := sessions[token := AfterFinish(session, file, dest)];
      r := Ok(dest);
    }

    /** A finish request: checks size and hash of the part and commits it under a free name. */
    method HandleFinish(token: Id, fileId: Id) returns (r: Result<Path, HttpError>, ghost n: nat, ghost added: Tree)
      modifies this, disk
      ensures added.Keys !! old(disk.nodes).Keys && added.Keys !! disk.reserved
      ensures match Lookup(old(sessions), token, fileId)
              case Err(e) => r == Err(e) && disk.nodes == old(disk.nodes) && sessions == old(sessions)
              case Ok(found) =>
                FinishOutcome(hashes, found, token, old(disk.nodes), disk.nodes, added, old(sessions), sessions, n, r)
    {
      n, added := 0, map[];
      var found := Lookup(sessions, token, fileId);
      if found.Err? {
        return Err(found.error), n, added;
      }
      var Found(session, file) := found.value;
      var part := PartOf(hashes, file);
      if part !in disk.nodes && file.size == 0 {
        var created := OpenPart(part);
        if !created {
          FinishRefused(hashes, found.value, token, disk.nodes, disk.nodes, sessions, IoFault);
          return Err(IoFault), n, added;
        }
      }
      assert disk.nodes == WithEmptyPart(hashes, file, old(disk.nodes));
      var check := FinishCheck(hashes, file, disk.nodes);
      if check.Err? {
        FinishRefused(hashes, found.value, token, old(disk.nodes), disk.nodes, sessions, check.error);
        return Err(check.error), n, added;
      }
      r, n, added := CommitChecked(token, session, file);
    }

    /** Deletes a file if it is there; the system may refuse. */
    method Delete(part: Path) returns (refused: bool)
      modifies disk
      ensures refused ==> part in old(disk.nodes)
      ensures disk.nodes == if refused then old(disk.nodes) else old(disk.nodes) - {part}
    {
      var wish := *;
      refused := wish && part in disk.nodes;
      if !refused {
        disk.nodes := disk.nodes - {part};
      }
    }

    /** Deletes every part file of a request, apart from those the system refuses to delete. */
    method DeleteParts(files: seq<FileMeta>) returns (refused: set<Path>)
      modifies disk
      ensures Pruned(old(disk.nodes), disk.nodes, Parts(hashes, files), refused)
    {
      refused := {};
      for i := 0 to |files|
        invariant Pruned(old(disk.nodes), disk.nodes, Parts(hashes, files[..i]), refused)
      {
        var part := PartOf(hashes, files[i]);
        PartsOneMore(hashes, files, i);
        PrunedOneMore(old(disk.nodes), disk.nodes, Parts(hashes, files[..i]), refused, part);
        var no := Delete(part);
        refused := if no then refused + {part} else refused - {part};
      }
      assert files[..|files|] == files;
    }

    /** Marks a session cancelled, so that nothing more is accepted for it, and deletes its part files. */
    method CancelSession(token: Id) returns (known: bool, refused: set<Path>)
      modifies this, disk
      ensures known <==> token in old(sessions)
      ensures !known || old(sessions)[token].status == Cancelled ==>
                sessions == old(sessions) && disk.nodes == old(disk.nodes)
      ensures known && old(sessions)[token].status != Cancelled ==>
                && sessions == old(sessions)[token := old(sessions)[token].(status := Cancelled)]
                && Pruned(old(disk.nodes), disk.nodes, Parts(hashes, old(sessions)[token].files), refused)
      ensures known ==> forall id :: Lookup(sessions, token, id) == Err(SessionCancelled)
    {
      known, refused := token in sessions, {};
      if !known || sessions[token].status == Cancelled {
        return;
      }
      sessions := sessions[token := sessions[token].(status := Cancelled)];
      refused := DeleteParts(sessions[token].files);
    }
  }
}
