/** The sender's chunk loop and resumable send (client/sender.rs 907-1145). */
module Sender {
  import opened Wrappers
  import opened Octets
  import opened Names
  import opened Crypto
  import opened Storage
  import opened Receiver
  import opened Network

  const MICROS_PER_SECOND: nat := 1_000_000

  /** The user's hold on a transfer: cancelling is final; the speed limit is 0 for none. */
  class Control {
    var cancelled: bool
    const limitBps: nat

    constructor (limitBps: nat)
      ensures !cancelled && this.limitBps == limitBps
    {
      this.cancelled, this.limitBps := false, limitBps;
    }

    /** Looks whether the user has cancelled, which may happen at any time. */
    method IsCancelled() returns (c: bool)
      modifies this
      ensures c == cancelled && (old(cancelled) ==> cancelled)
    {
      var now := *;
      cancelled := cancelled || now;
      c := cancelled;
    }
  }

  /** What a send shows for itself: reported progress, every sealing, the time each chunk took with its wait,
      and whether a cancel broke off the last wait. */
  datatype Report = Report(progress: seq<nat>, sealed: seq<Sealing>, spent: seq<nat>, cut: bool)

  ghost predicate NeverGoesBack(progress: seq<nat>) {
    forall i, j :: 0 <= i < j < |progress| ==> progress[i] <= progress[j]
  }

  /** Sending `sent` bytes in `chunks` chunks took more time than the limit allows for them, less one
      microsecond per chunk for the integer division. */
  ghost predicate Paced(limitBps: nat, sent: nat, chunks: nat, micros: nat) {
    && sent * MICROS_PER_SECOND <= (micros + chunks) * limitBps
    && (chunks > 0 ==> sent * MICROS_PER_SECOND < (micros + chunks) * limitBps)
  }

  lemma PaceOneMore(limitBps: nat, sent: nat, chunks: nat, micros: nat, n: nat, spent: nat)
    requires limitBps > 0 && Paced(limitBps, sent, chunks, micros)
    requires spent >= n * MICROS_PER_SECOND / limitBps
    ensures Paced(limitBps, sent + n, chunks + 1, micros + spent)
  {
    var q := n * MICROS_PER_SECOND / limitBps;
    assert n * MICROS_PER_SECOND < (q + 1) * limitBps;
    assert (q + 1) * limitBps <= (spent + 1) * limitBps;
    assert (micros + spent + (chunks + 1)) * limitBps == (micros + chunks) * limitBps + (spent + 1) * limitBps;
    assert (sent + n) * MICROS_PER_SECOND == sent * MICROS_PER_SECOND + n * MICROS_PER_SECOND;
  }

  function Min(a: nat, b: nat): nat {
    if a <= b then a else b
  }

  /** How many bytes a send that ends normally has sent. A client set up with chunk size 0 sends none. */
  function Due(chunkSize: nat, remaining: nat, limit: Option<nat>): nat {
    if chunkSize == 0 then 0 else if limit.Some? then Min(limit.value, remaining) else remaining
  }

  /** The length of the next chunk. */
  function ChunkLength(chunkSize: nat, remaining: nat, encrypted: bool, limitLeft: Option<nat>): (n: nat)
    ensures n <= chunkSize && n <= remaining
    ensures encrypted ==> n <= MAX_ENCRYPTED_CHUNK_SIZE
    ensures limitLeft.Some? ==> n <= limitLeft.value
    ensures n in {chunkSize, remaining} || (encrypted && n == MAX_ENCRYPTED_CHUNK_SIZE) || limitLeft == Some(n)
    ensures n == 0 <==> chunkSize == 0 || remaining == 0 || limitLeft == Some(0)
  {
    var a := Min(chunkSize, remaining);
    var b := if encrypted then Min(a, MAX_ENCRYPTED_CHUNK_SIZE) else a;
    if limitLeft.Some? then Min(b, limitLeft.value) else b
  }

  /** Seals a chunk for an encrypted session; in the clear the chunk is the payload. */
  method FormPayload(key: Option<SessionKey>, fileId: Id, offset: nat, chunk: seq<Octet>)
    returns (r: Result<seq<Octet>, CryptoError>, sealed: seq<Sealing>)
    requires offset < U64_LIMIT
    ensures r.Ok? <==> key.None? || |chunk| < U32_LIMIT
    ensures r.Ok? && (key.Some? ==> |chunk| <= MAX_ENCRYPTED_CHUNK_SIZE) ==> Formed(key, fileId, offset, chunk, r.value)
    ensures sealed == if key.Some? && r.Ok? then [Sealing(fileId, offset, chunk)] else []
  {
    match key {
      case None =>
        return Ok(chunk), [];
      case Some(k) =>
        var nonce := DeriveChunkNonce(offset, |chunk|);
        if nonce.Err? {
          return Err(nonce.error), [];
        }
        return Ok(Seal(FileSubkey(k, fileId), nonce.value, chunk)), [Sealing(fileId, offset, chunk)];
    }
  }

  lemma QuotientIsSmaller(x: nat, d: nat)
    requires d > 0
    ensures x / d <= x
  {
    if x / d > x {
      ProductGrows(d, x / d);
    }
  }

  lemma {:induction false} ProductGrows(d: nat, q: nat)
    requires d > 0
    ensures d * q >= q
  {
    if d > 1 {
      ProductGrows(d - 1, q);
      assert d * q == (d - 1) * q + q;
    }
  }

  function Total(times: seq<nat>): nat {
    if times == [] then 0 else Total(times[..|times| - 1]) + times[|times| - 1]
  }

  /** The first `k` chunks of the send kept to the speed limit. */
  ghost predicate PacedUpTo(report: Report, limitBps: nat, k: nat) {
    && k < |report.progress| && k <= |report.spent| && report.progress[0] <= report.progress[k]
    && Paced(limitBps, report.progress[k] - report.progress[0], k, Total(report.spent[..k]))
  }

  /** Waits until the chunk has taken as long as the speed limit asks; a cancel breaks the wait off at any
      time. */
  method Throttle(control: Control, written: nat) returns (spent: nat, cut: bool)
    requires written * MICROS_PER_SECOND < U64_LIMIT
    modifies control
    ensures old(control.cancelled) ==> control.cancelled
    ensures cut ==> control.cancelled && control.limitBps > 0
    ensures !cut && control.limitBps > 0 ==> spent >= written * MICROS_PER_SECOND / control.limitBps
  {
    spent, cut := *, false;
    if control.limitBps > 0 {
      var total := written * MICROS_PER_SECOND;
      QuotientIsSmaller(total, control.limitBps);
      var target := total / control.limitBps;
      target := target % U64_LIMIT;
      if target > spent {
        var cancelled := control.IsCancelled();
        var asleep := *;
        if cancelled && asleep {
          spent :| spent < target;
          cut := true;
        } else {
          spent := target;
        }
      }
    }
  }

  /** Everything a send needs to start from: an honest receiver, the file's session, and a part file
      that reaches up to the starting offset. */
  ghost predicate CanSend(h: Hashes, s: Snapshot, token: Id, file: FileMeta, key: Option<SessionKey>, sources: Sources,
                          reserved: set<Path>, offset: nat) {
    && Honest(h, s, token, sources) && sources.Keys <= reserved
    && PartOf(h, file) in sources && |sources[PartOf(h, file)]| == file.size < U64_LIMIT
    && Ready(h, s, token, file, key, PartOf(h, file), offset)
  }

  ghost predicate AllFrom(sealed: seq<Sealing>, file: FileMeta, source: seq<Octet>) {
    forall s :: s in sealed ==> FromSource(s, map[file.fileId := source])
  }

  /** Nothing before this offset was sealed. */
  ghost predicate AllBehind(sealed: seq<Sealing>, start: nat) {
    forall s :: s in sealed ==> start <= s.offset
  }

  /** What the report says once the send has come from `start` to `offset`. The speed limit was kept on
      every chunk, but for the last one if its wait was broken off. */
  ghost predicate Tells(report: Report, file: FileMeta, source: seq<Octet>, limitBps: nat, start: nat, offset: nat) {
    var progress, n := report.progress, |report.spent|;
    && |progress| == n + 1 && progress[0] == start && progress[n] == offset
    && NeverGoesBack(progress) && AllFrom(report.sealed, file, source) && AllBehind(report.sealed, start)
    && (report.cut ==> n > 0)
    && (limitBps > 0 ==> PacedUpTo(report, limitBps, if report.cut then n - 1 else n))
  }

  lemma TotalOneMore(times: seq<nat>, t: nat)
    ensures Total(times + [t]) == Total(times) + t
  {
    assert (times + [t])[..|times|] == times;
  }

  function AddChunk(report: Report, offset: nat, spent: nat, cut: bool): Report {
    Report(report.progress + [offset], report.sealed, report.spent + [spent], cut)
  }

  lemma TellsOneMore(report: Report, file: FileMeta, source: seq<Octet>, limitBps: nat, start: nat, offset: nat, n: nat,
                     spent: nat, cut: bool)
    requires Tells(report, file, source, limitBps, start, offset) && !report.cut
    requires !cut && limitBps > 0 ==> spent >= n * MICROS_PER_SECOND / limitBps
    ensures Tells(AddChunk(report, offset + n, spent, cut), file, source, limitBps, start, offset + n)
  {
    var k := |report.spent|;
    var more := AddChunk(report, offset + n, spent, cut);
    assert report.spent[..k] == report.spent && more.spent[..k] == report.spent && more.spent[..k + 1] == more.spent;
    TotalOneMore(report.spent, spent);
    if limitBps > 0 && !cut {
      PaceOneMore(limitBps, offset - start, k, Total(report.spent), n, spent);
    }
  }

  /** Reads the next chunk where the file stands, forms the payload, and posts it under the offset. */
  method SendOne(server: Server, token: Id, file: FileMeta, key: Option<SessionKey>, sources: Sources,
                 position: nat, offset: nat, length: nat)
    returns (r: Result<nat, ClientError>, position': nat, sealed: seq<Sealing>)
    requires CanSend(server.hashes, Now(server), token, file, key, sources, server.disk.reserved, offset)
    requires position == offset && offset + length <= file.size
    requires key.Some? ==> length <= MAX_ENCRYPTED_CHUNK_SIZE
    requires length > 0
    modifies server, server.disk
    ensures Honest(server.hashes, Now(server), token, sources)
    ensures Evolves(old(Now(server)), Now(server), token, sources)
    ensures r.Ok? ==> r.value == length && position' == position + length
    ensures r.Ok? ==> CanSend(server.hashes, Now(server), token, file, key, sources, server.disk.reserved, offset + length)
    ensures AllFrom(sealed, file, sources[PartOf(server.hashes, file)]) && AllBehind(sealed, offset)
    ensures r.Err? ==> r.error in {HttpFailure, FileUnreadable} || r.error.Refused?
    ensures r == Err(Refused(SessionCancelled)) ==> !Live(Now(server), token)
  {
    position', sealed := position, [];
    var readable := *;
    if !readable {
      return Err(FileUnreadable), position', sealed;
    }
    var source := sources[PartOf(server.hashes, file)];
    var chunk := source[position..position + length];
    position' := position + length;
    var payload;
    payload, sealed := FormPayload(key, file.fileId, offset, chunk);
    assert AllFrom(sealed, file, source);
    var answer := PostChunk(server, token, file, key, PartOf(server.hashes, file), sources, offset, chunk, payload.value);
    if answer.Err? {
      return Err(answer.error), position', sealed;
    }
    r := Ok(answer.value.written);
  }

  lemma TellsAtStart(file: FileMeta, source: seq<Octet>, limitBps: nat, start: nat)
    ensures Tells(Report([start], [], [], false), file, source, limitBps, start, start)
  {
    var none: seq<nat> := [];
    assert none[..0] == [];
  }

  lemma TellsMoreSealed(report: Report, file: FileMeta, source: seq<Octet>, limitBps: nat, start: nat, offset: nat,
                        sealed: seq<Sealing>)
    requires Tells(report, file, source, limitBps, start, offset)
    requires AllFrom(sealed, file, source) && AllBehind(sealed, offset)
    ensures Tells(report.(sealed := report.sealed + sealed), file, source, limitBps, start, offset)
  {
  }

  /** Enters what a round has done into the report, and waits after an answered chunk. */
  method Record(control: Control, file: FileMeta, ghost source: seq<Octet>, ghost start: nat, offset: nat,
                r: Result<nat, ClientError>, report: Report, sealed: seq<Sealing>)
    returns (reached: nat, report': Report)
    requires Tells(report, file, source, control.limitBps, start, offset) && !report.cut
    requires AllFrom(sealed, file, source) && AllBehind(sealed, offset)
    requires r.Ok? ==> r.value * MICROS_PER_SECOND < U64_LIMIT
    modifies control
    ensures old(control.cancelled) ==> control.cancelled
    ensures reached == if r.Ok? then offset + r.value else offset
    ensures Tells(report', file, source, control.limitBps, start, reached)
    ensures report'.cut ==> r.Ok? && control.cancelled
  {
    TellsMoreSealed(report, file, source, control.limitBps, start, offset, sealed);
    report', reached := report.(sealed := report.sealed + sealed), offset;
    if r.Ok? {
      reached := offset + r.value;
      var spent, cut := Throttle(control, r.value);
      TellsOneMore(report', file, source, control.limitBps, start, offset, r.value, spent, cut);
      report' := AddChunk(report', reached, spent, cut);
    }
  }

  /** One round of the loop: a chunk, its entry in the report, and the wait. */
  method SendRound(server: Server, token: Id, file: FileMeta, key: Option<SessionKey>, sources: Sources,
                   ghost start: nat, position: nat, offset: nat, length: nat, control: Control, report: Report)
    returns (r: Result<nat, ClientError>, position': nat, reached: nat, report': Report)
    requires CanSend(server.hashes, Now(server), token, file, key, sources, server.disk.reserved, offset)
    requires position == offset && offset + length <= file.size && length * MICROS_PER_SECOND < U64_LIMIT
    requires key.Some? ==> length <= MAX_ENCRYPTED_CHUNK_SIZE
    requires length > 0
    requires Tells(report, file, sources[PartOf(server.hashes, file)], control.limitBps, start, offset) && !report.cut
    modifies server, server.disk, control
    ensures Honest(server.hashes, Now(server), token, sources)
    ensures Evolves(old(Now(server)), Now(server), token, sources)
    ensures old(control.cancelled) ==> control.cancelled
    ensures r == Err(UserCancelled) ==> control.cancelled
    ensures r == Err(Refused(SessionCancelled)) ==> !Live(Now(server), token)
    ensures reached == offset || reached == offset + length
    ensures Tells(report', file, sources[PartOf(server.hashes, file)], control.limitBps, start, reached)
    ensures report'.cut ==> r == Err(UserCancelled)
    ensures r.Ok? ==> reached == position' == offset + length
                      && CanSend(server.hashes, Now(server), token, file, key, sources, server.disk.reserved, reached)
  {
    ghost var source := sources[PartOf(server.hashes, file)];
    var sealed;
    r, position', sealed := SendOne(server, token, file, key, sources, position, offset, length);
    reached, report' := Record(control, file, source, start, offset, r, report, sealed);
    if report'.cut {
      r := Err(UserCancelled);
    }
  }

  /** The loop of a send. Its offset is always where the file stands. A send that ends normally has sent
      exactly what was due, and the part file reaches that far. */
  method SendLoop(server: Server, token: Id, file: FileMeta, key: Option<SessionKey>, sources: Sources,
                  chunkSize: nat, start: nat, limit: Option<nat>, control: Control)
    returns (r: Result<nat, ClientError>, position: nat, reached: nat, report: Report)
    requires start <= file.size
             && CanSend(server.hashes, Now(server), token, file, key, sources, server.disk.reserved, start)
    requires chunkSize * MICROS_PER_SECOND < U64_LIMIT
    modifies server, server.disk, control
    ensures Honest(server.hashes, Now(server), token, sources)
    ensures Evolves(old(Now(server)), Now(server), token, sources)
    ensures old(control.cancelled) ==> control.cancelled
    ensures r == Err(UserCancelled) ==> control.cancelled
    ensures r == Err(Refused(SessionCancelled)) ==> !Live(Now(server), token)
    ensures start <= reached <= file.size
    ensures Tells(report, file, sources[PartOf(server.hashes, file)], control.limitBps, start, reached)
    ensures report.cut ==> r == Err(UserCancelled)
    ensures r.Ok? ==> position == reached == start + r.value && r.value == Due(chunkSize, file.size - start, limit)
                      && CanSend(server.hashes, Now(server), token, file, key, sources, server.disk.reserved, reached)
  {
    report := Report([start], [], [], false);
    ghost var h, begin := server.hashes, Now(server);
    ghost var source := sources[PartOf(server.hashes, file)];
    TellsAtStart(file, source, control.limitBps, start);
    var sent := 0;
    position, reached, r := start, start, Ok(0);
    while reached < file.size && r.Ok?
      invariant reached == start + sent <= file.size && (r.Ok? ==> position == reached)
      invariant limit.Some? ==> sent <= limit.value
      invariant chunkSize == 0 ==> sent == 0
      invariant Honest(h, Now(server), token, sources) && Evolves(begin, Now(server), token, sources)
      invariant r.Ok? ==> CanSend(h, Now(server), token, file, key, sources, server.disk.reserved, reached)
      invariant Tells(report, file, source, control.limitBps, start, reached)
      invariant report.cut ==> r == Err(UserCancelled)
      invariant old(control.cancelled) ==> control.cancelled
      invariant r == Err(UserCancelled) ==> control.cancelled
      invariant r == Err(Refused(SessionCancelled)) ==> !Live(Now(server), token)
      decreases file.size - reached, r.Ok?
    {
      var cancelled := control.IsCancelled();
      if cancelled {
        r := Err(UserCancelled);
        break;
      }
      var length := ChunkLength(chunkSize, file.size - reached, key.Some?,
                                if limit.Some? then Some(limit.value - sent) else None);
      if length == 0 {
        break;
      }
      ghost var before := Now(server);
      r, position, reached, report :=
        SendRound(server, token, file, key, sources, start, position, reached, length, control, report);
      EvolvesTwice(begin, before, Now(server), token, sources);
      sent := reached - start;
    }
    if r.Ok? {
      r := Ok(sent);
    }
  }

  /** Sends the file from `start`, chunk by chunk, up to an optional limit of bytes. */
  method SendFileChunks(server: Server, token: Id, file: FileMeta, key: Option<SessionKey>, sources: Sources,
                        chunkSize: nat, start: nat, limit: Option<nat>, control: Control)
    returns (r: Result<nat, ClientError>, reached: nat, report: Report)
    requires CanSend(server.hashes, Now(server), token, file, key, sources, server.disk.reserved,
                     if start <= file.size then start else 0)
    requires chunkSize * MICROS_PER_SECOND < U64_LIMIT
    modifies server, server.disk, control
    ensures Honest(server.hashes, Now(server), token, sources)
    ensures Evolves(old(Now(server)), Now(server), token, sources)
    ensures old(control.cancelled) ==> control.cancelled && r == Err(UserCancelled)
    ensures r == Err(UserCancelled) ==> control.cancelled
    ensures r == Err(Refused(SessionCancelled)) ==> !Live(Now(server), token)
    ensures start > file.size ==>
              r.Err? && r.error in {UserCancelled, FileUnreadable, InvalidOffset} && report.progress == []
    ensures AllFrom(report.sealed, file, sources[PartOf(server.hashes, file)])
    ensures report.progress != [] ==>
              && start <= reached <= file.size
              && Tells(report, file, sources[PartOf(server.hashes, file)], control.limitBps, start, reached)
    ensures report.cut ==> r == Err(UserCancelled)
    ensures r.Ok? ==> report.progress != [] && reached == start + r.value
                      && r.value == Due(chunkSize, file.size - start, limit)
                      && CanSend(server.hashes, Now(server), token, file, key, sources, server.disk.reserved, reached)
  {
    report, reached := Report([], [], [], false), start;
    var cancelled := control.IsCancelled();
    if cancelled {
      return Err(UserCancelled), reached, report;
    }
    var readable := *;
    if !readable {
      return Err(FileUnreadable), reached, report;
    }
    if start > file.size {
      return Err(InvalidOffset), reached, report;
    }
    var position;
    r, position, reached, report := SendLoop(server, token, file, key, sources, chunkSize, start, limit, control);
  }

  /** Asks the receiver how much it has; others act before the answer arrives. The answer is no less than what was
      there when it was asked, and no more than what is there when it arrives. */
  method AskOffset(server: Server, token: Id, file: FileMeta, key: Option<SessionKey>, sources: Sources)
    returns (r: Result<nat, ClientError>)
    requires CanSend(server.hashes, Now(server), token, file, key, sources, server.disk.reserved, 0)
    modifies server, server.disk
    ensures Honest(server.hashes, Now(server), token, sources)
    ensures Evolves(old(Now(server)), Now(server), token, sources)
    ensures r.Ok? ==> CanSend(server.hashes, Now(server), token, file, key, sources, server.disk.reserved,
                              if r.value <= file.size then r.value else 0)
    ensures r.Ok? ==> |Contents(old(server.disk.nodes), PartOf(server.hashes, file))| <= r.value
    ensures r.Ok? && Live(Now(server), token) ==> r.value <= |Contents(server.disk.nodes, PartOf(server.hashes, file))|
    ensures r.Err? ==> r.error == HttpFailure || r.error.Refused?
    ensures r == Err(Refused(SessionCancelled)) ==> !Live(Now(server), token)
  {
    ghost var begin := Now(server);
    Others(server, token, sources);
    var status := server.HandleStatus(token, file.fileId);
    var answered := *;
    if status.Err? || !answered {
      return Err(if status.Err? then Refused(status.error) else HttpFailure);
    }
    ghost var asked := Now(server);
    Others(server, token, sources);
    EvolvesTwice(begin, asked, Now(server), token, sources);
    r := Ok(status.value.received);
  }

  /** Asks the receiver how much it has and sends the rest: no byte that the part held when the send began is sent
      again. When the send ends normally and the session still lives, the part file is the source. */
  method SendResumable(server: Server, token: Id, file: FileMeta, key: Option<SessionKey>, sources: Sources,
                       chunkSize: nat, control: Control)
    returns (r: Result<(), ClientError>, start: nat, reached: nat, report: Report)
    requires CanSend(server.hashes, Now(server), token, file, key, sources, server.disk.reserved, 0)
    requires chunkSize * MICROS_PER_SECOND < U64_LIMIT
    modifies server, server.disk, control
    ensures Honest(server.hashes, Now(server), token, sources)
    ensures Evolves(old(Now(server)), Now(server), token, sources)
    ensures old(control.cancelled) ==> control.cancelled && r == Err(UserCancelled)
    ensures r == Err(UserCancelled) ==> control.cancelled
    ensures r == Err(Refused(SessionCancelled)) ==> !Live(Now(server), token)
    ensures AllFrom(report.sealed, file, sources[PartOf(server.hashes, file)])
    ensures report.progress != [] ==>
              && start <= reached <= file.size
              && Tells(report, file, sources[PartOf(server.hashes, file)], control.limitBps, start, reached)
    ensures report.progress != [] ==> |Contents(old(server.disk.nodes), PartOf(server.hashes, file))| <= start
    ensures report.cut ==> r == Err(UserCancelled)
    ensures r.Ok? ==> report.progress != [] && (chunkSize > 0 ==> reached == file.size)
    ensures r.Ok? && chunkSize > 0 && Live(Now(server), token) ==>
              Contents(server.disk.nodes, PartOf(server.hashes, file)) == sources[PartOf(server.hashes, file)]
  {
    report, start, reached := Report([], [], [], false), 0, 0;
    var cancelled := control.IsCancelled();
    if cancelled {
      return Err(UserCancelled), start, reached, report;
    }
    var readable := *;
    if !readable {
      return Err(FileUnreadable), start, reached, report;
    }
    ghost var begin := Now(server);
    var status := AskOffset(server, token, file, key, sources);
    if status.Err? {
      return Err(status.error), start, reached, report;
    }
    start := status.value;
    ghost var sending := Now(server);
    var sent;
    sent, reached, report := SendFileChunks(server, token, file, key, sources, chunkSize, start, None, control);
    EvolvesTwice(begin, sending, Now(server), token, sources);
    r := if sent.Ok? then Ok(()) else Err(sent.error);
    if sent.Ok? && chunkSize > 0 && Live(Now(server), token) {
      WholePrefix(Contents(server.disk.nodes, PartOf(server.hashes, file)), sources[PartOf(server.hashes, file)]);
    }
  }

  // ----- All sealings of a session -----

  ghost function Ids(files: seq<FileMeta>): set<Id> {
    set f | f in files :: f.fileId
  }

  /** The source of each file of a session by file id. */
  ghost function SourcesById(h: Hashes, files: seq<FileMeta>, sources: Sources): map<Id, seq<Octet>>
    requires Parts(h, files) <= sources.Keys
  {
    map id | id in Ids(files) && FindFile(files, id).Some? && PartOf(h, FindFile(files, id).value) in sources
        :: sources[PartOf(h, FindFile(files, id).value)]
  }

  ghost predicate FromSession(h: Hashes, files: seq<FileMeta>, sources: Sources, sealed: seq<Sealing>)
    requires Parts(h, files) <= sources.Keys
  {
    forall s :: s in sealed ==> FromSource(s, SourcesById(h, files, sources))
  }

  /** What one send seals is sealed from the session's sources. */
  lemma SendIsFromSession(h: Hashes, files: seq<FileMeta>, sources: Sources, file: FileMeta, sealed: seq<Sealing>)
    requires Parts(h, files) <= sources.Keys && FindFile(files, file.fileId) == Some(file)
    requires PartOf(h, file) in sources && AllFrom(sealed, file, sources[PartOf(h, file)])
    ensures FromSession(h, files, sources, sealed)
  {
    assert SourcesById(h, files, sources)[file.fileId] == sources[PartOf(h, file)];
  }

  /** Both are sealed under one file key and one nonce. */
  ghost predicate SameCipher(key: SessionKey, a: Sealing, b: Sealing) {
    && FileSubkey(key, a.fileId) == FileSubkey(key, b.fileId)
    && NonceBytes(a.offset, |a.plain|) == NonceBytes(b.offset, |b.plain|)
  }

  /** No two sealings of a session have the same file key and nonce but different texts. */
  ghost predicate NoTwoTexts(key: SessionKey, sealed: seq<Sealing>) {
    forall a, b :: a in sealed && b in sealed && SameCipher(key, a, b) ==> a.plain == b.plain
  }

  lemma SessionHasNoTwoTexts(h: Hashes, files: seq<FileMeta>, sources: Sources, key: SessionKey, sealed: seq<Sealing>)
    requires Parts(h, files) <= sources.Keys && FromSession(h, files, sources, sealed)
    ensures NoTwoTexts(key, sealed)
  {
    forall a, b | a in sealed && b in sealed && SameCipher(key, a, b)
      ensures a.plain == b.plain
    {
      NonceReuseIsHarmless(key, SourcesById(h, files, sources), a, b);
    }
  }

  /** The sealings of any number of sends, resumes and byte-limited sends, one after the other. */
  ghost function AllSealings(sends: seq<(FileMeta, seq<Sealing>)>): seq<Sealing> {
    if sends == [] then [] else AllSealings(sends[..|sends| - 1]) + sends[|sends| - 1].1
  }

  /** However often the files of a session are sent, resumed or sent in part, each send sealing from its own
      file as the send methods promise: nothing is sealed twice under one file key and nonce but the same text. */
  lemma {:induction false} ManySendsHaveNoTwoTexts(h: Hashes, files: seq<FileMeta>, sources: Sources, key: SessionKey,
                                                   sends: seq<(FileMeta, seq<Sealing>)>)
    requires Parts(h, files) <= sources.Keys
    requires forall i :: 0 <= i < |sends| ==>
               && FindFile(files, sends[i].0.fileId) == Some(sends[i].0) && PartOf(h, sends[i].0) in sources
               && AllFrom(sends[i].1, sends[i].0, sources[PartOf(h, sends[i].0)])
    ensures FromSession(h, files, sources, AllSealings(sends)) && NoTwoTexts(key, AllSealings(sends))
    decreases |sends|
  {
    if sends != [] {
      var n := |sends| - 1;
      ManySendsHaveNoTwoTexts(h, files, sources, key, sends[..n]);
      SendIsFromSession(h, files, sources, sends[n].0, sends[n].1);
    }
    SessionHasNoTwoTexts(h, files, sources, key, AllSealings(sends));
  }

  lemma WholePrefix(content: seq<Octet>, source: seq<Octet>)
    requires content <= source && |source| <= |content|
    ensures content == source
  {
  }
}
