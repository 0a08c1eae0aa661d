/** The batch driver behind `start_transfer` (commands.rs 653-931). */
module Batch {
  import opened Wrappers
  import opened Octets
  import opened Crypto
  import opened Names
  import opened Storage
  import opened Receiver
  import opened Network
  import opened Sender

  datatype HistoryStatus = BatchCompleted | BatchCancelled | BatchFailed

  datatype HistoryRecord = HistoryRecord(token: Id, status: HistoryStatus, files: seq<FileMeta>)

  /** What the application keeps about running sends: the two registries and the history. */
  class Application {
    var history: seq<HistoryRecord>
    var cancellationTokens: set<Id>
    var transferControls: set<Id>

    constructor ()
      ensures history == [] && cancellationTokens == {} && transferControls == {}
    {
      history, cancellationTokens, transferControls := [], {}, {};
    }

    /** Writes the history record of a batch and clears it from both registries. */
    method Close(token: Id, status: HistoryStatus, files: seq<FileMeta>)
      modifies this
      ensures history == old(history) + [HistoryRecord(token, status, files)]
      ensures cancellationTokens == old(cancellationTokens) - {token}
      ensures transferControls == old(transferControls) - {token}
    {
      history := history + [HistoryRecord(token, status, files)];
      cancellationTokens := cancellationTokens - {token};
      transferControls := transferControls - {token};
    }
  }

  // ----- Several files in one session -----

  /** A weaker `Evolves`: part files may go, everything else stays. */
  ghost predicate Settles(a: Snapshot, b: Snapshot, token: Id, sources: Sources) {
    && (forall p :: p in a.nodes && p !in sources ==> p in b.nodes && b.nodes[p] == a.nodes[p])
    && (token in a.sessions ==>
          && token in b.sessions
          && b.sessions[token].files == a.sessions[token].files
          && b.sessions[token].key == a.sessions[token].key)
    && (Live(b, token) ==> Live(a, token))
  }

  lemma SettlesTwice(a: Snapshot, b: Snapshot, c: Snapshot, token: Id, sources: Sources)
    requires Settles(a, b, token, sources) && Settles(b, c, token, sources)
    ensures Settles(a, c, token, sources)
  {
  }

  /** No number leads the target to one of the sources' paths, and none is a folder made on the way to it. */
  ghost predicate KeepsClear(t: Target, sources: Sources) {
    forall p :: p in sources ==> !Meets(t, p) && !(p <= t.folder)
  }

  lemma ClearOf(t: Target, n: nat, sources: Sources, p: Path)
    requires KeepsClear(t, sources) && p in sources
    ensures p != DestPath(t, n) && !(p <= t.folder)
  {
    MeetsExactly(t, p);
  }

  lemma DestinationIsNoSource(t: Target, n: nat, sources: Sources)
    requires KeepsClear(t, sources)
    ensures DestPath(t, n) !in sources
  {
    if DestPath(t, n) in sources {
      MeetsExactly(t, DestPath(t, n));
      assert false;
    }
  }

  /** Every source belongs to a part file. */
  ghost predicate OnlyParts(sources: Sources) {
    forall p :: p in sources ==> exists name, fileKey :: p == PartPath(name, fileKey)
  }

  /** Seen from the target alone: one whose first component does not end like a part keeps clear of them all. */
  lemma DestinationsKeepClear(t: Target, sources: Sources)
    requires OnlyParts(sources) && !MayClashWithParts(t)
    ensures KeepsClear(t, sources)
  {
    forall p | p in sources
      ensures !Meets(t, p) && !(p <= t.folder)
    {
      var name, fileKey :| p == PartPath(name, fileKey);
      MeetsExactly(t, p);
      DestinationIsNotAPart(t, 0, name, fileKey);
      forall n
        ensures DestPath(t, n) != p
      {
        DestinationIsNotAPart(t, n, name, fileKey);
      }
    }
  }

  /** The file is in the session under its own id, its part is one of the sources, and its destination
      keeps clear of the parts of the batch. */
  ghost predicate Listed(h: Hashes, s: Snapshot, token: Id, file: FileMeta, key: Option<SessionKey>, sources: Sources) {
    && Ready(h, s, token, file, key, PartOf(h, file), 0)
    && PartOf(h, file) in sources && |sources[PartOf(h, file)]| == file.size < U64_LIMIT
    && KeepsClear(ResolveTarget(file.name, file.relative), sources)
  }

  lemma ListedSettles(h: Hashes, a: Snapshot, b: Snapshot, token: Id, files: seq<FileMeta>, key: Option<SessionKey>,
                      sources: Sources)
    requires forall f :: f in files ==> Listed(h, a, token, f, key, sources)
    requires Settles(a, b, token, sources)
    ensures forall f :: f in files ==> Listed(h, b, token, f, key, sources)
  {
  }

  lemma OneListedSettles(h: Hashes, a: Snapshot, b: Snapshot, token: Id, file: FileMeta, key: Option<SessionKey>,
                         sources: Sources)
    requires Listed(h, a, token, file, key, sources) && Settles(a, b, token, sources)
    ensures Listed(h, b, token, file, key, sources)
  {
  }

  /** The three ways a commit that was begun can end. */
  ghost predicate IsCommit(base: Tree, after: Tree, added: Tree, t: Target, part: Path, n: nat) {
    || Committed(base, after, added, t.folder, part, DestPath(t, n))
    || NotCommitted(base, after, added, t.folder)
    || HalfCopied(base, after, added, t.folder, part, DestPath(t, n))
  }

  /** A commit leaves other part files alone, and its own either gone or as it was. */
  lemma CommitLeavesParts(base: Tree, after: Tree, added: Tree, t: Target, n: nat, part: Path, sources: Sources)
    requires KeepsClear(t, sources) && added.Keys !! base.Keys && added.Keys !! sources.Keys
    requires IsCommit(base, after, added, t, part, n)
    ensures forall p :: p in sources && p in after ==> p in base && after[p] == base[p]
    ensures forall p :: p in base && p !in sources && p != part ==> p in after && after[p] == base[p]
  {
    var all, dest := base + added, DestPath(t, n);
    assert forall p :: p in base ==> p in all && all[p] == base[p];
    forall p | p in sources && p in after
      ensures p in base && after[p] == base[p]
    {
      ClearOf(t, n, sources, p);
      assert p !in added;
      assert p in all ==> p in base;
    }
  }

  /** A step that only takes part files away keeps the run honest. */
  lemma PartsMayGo(h: Hashes, a: Snapshot, b: Snapshot, token: Id, sources: Sources)
    requires Honest(h, a, token, sources) && Live(a, token)
    requires token in b.sessions && b.sessions[token].files == a.sessions[token].files
             && b.sessions[token].key == a.sessions[token].key
    requires forall p :: p in sources && p in b.nodes ==>
               b.nodes[p] == File([]) || (p in a.nodes && b.nodes[p] == a.nodes[p])
    requires forall p :: p in a.nodes && p !in sources ==> p in b.nodes && b.nodes[p] == a.nodes[p]
    ensures Honest(h, b, token, sources) && Settles(a, b, token, sources)
  {
    forall p | p in sources
      ensures PartIsPrefix(b.nodes, p, sources[p])
    {
      assert PartIsPrefix(a.nodes, p, sources[p]);
    }
  }

  /** A finish request keeps its session's files and key, and one that changes more than the empty part it
      may make has come to the commit of a part of the stated size. */
  lemma OutcomeIsCommit(h: Hashes, file: FileMeta, token: Id, a: Snapshot, b: Snapshot, added: Tree, n: nat,
                        r: Result<Path, HttpError>, part: Path, base: Tree, t: Target)
    requires token in a.sessions && part == PartOf(h, file)
    requires FinishOutcome(h, Found(a.sessions[token], file), token, a.nodes, b.nodes, added, a.sessions, b.sessions, n, r)
    requires base == WithEmptyPart(h, file, a.nodes) && t == ResolveTarget(file.name, file.relative)
    ensures token in b.sessions && b.sessions[token].files == a.sessions[token].files
            && b.sessions[token].key == a.sessions[token].key
    ensures r.Ok? || (b.nodes != a.nodes && b.nodes != base) ==>
              IsCommit(base, b.nodes, added, t, part, n) && part in base && |Contents(base, part)| == file.size
    ensures r.Ok? ==> r.value == DestPath(t, n) && Committed(base, b.nodes, added, t.folder, part, r.value)
  {
  }

  lemma BaseIsPrefix(h: Hashes, file: FileMeta, nodes: Tree, part: Path, base: Tree)
    requires part == PartOf(h, file) && base == WithEmptyPart(h, file, nodes)
    ensures (base == nodes || base == nodes[part := File([])]) && Contents(base, part) == Contents(nodes, part)
            && nodes.Keys <= base.Keys
  {
  }

  /** A finish request, as a step of an honest run. What it answers with is a path nobody had used, and
      there lies exactly the source. */
  lemma FinishIsHonest(h: Hashes, a: Snapshot, b: Snapshot, token: Id, file: FileMeta, key: Option<SessionKey>,
                       sources: Sources, added: Tree, n: nat, r: Result<Path, HttpError>)
    requires Honest(h, a, token, sources) && Live(a, token) && Listed(h, a, token, file, key, sources)
    requires FinishOutcome(h, Found(a.sessions[token], file), token, a.nodes, b.nodes, added, a.sessions, b.sessions, n, r)
    requires added.Keys !! a.nodes.Keys && added.Keys !! sources.Keys
    ensures Honest(h, b, token, sources) && Settles(a, b, token, sources)
    ensures r.Ok? ==> && r.value !in sources && r.value !in a.nodes
                      && r.value in b.nodes && b.nodes[r.value] == File(sources[PartOf(h, file)])
  {
    var part, base, t := PartOf(h, file), WithEmptyPart(h, file, a.nodes), ResolveTarget(file.name, file.relative);
    OutcomeIsCommit(h, file, token, a, b, added, n, r, part, base, t);
    BaseIsPrefix(h, file, a.nodes, part, base);
    if r.Ok? || (b.nodes != a.nodes && b.nodes != base) {
      CommitIsHonest(h, a, b, base, token, part, sources, t, n, added);
      if r.Ok? {
        assert PartIsPrefix(a.nodes, part, sources[part]);
        DestinationIsNoSource(t, n, sources);
        SavedIsSource(a.nodes, base, b.nodes, added, t, n, part, sources[part]);
      }
    } else {
      PartsMayGo(h, a, b, token, sources);
    }
  }

  lemma CommitIsHonest(h: Hashes, a: Snapshot, b: Snapshot, base: Tree, token: Id, part: Path, sources: Sources,
                       t: Target, n: nat, added: Tree)
    requires Honest(h, a, token, sources) && Live(a, token) && part in sources && KeepsClear(t, sources)
    requires base == a.nodes || base == a.nodes[part := File([])]
    requires added.Keys !! a.nodes.Keys && added.Keys !! sources.Keys
    requires IsCommit(base, b.nodes, added, t, part, n)
    requires token in b.sessions && b.sessions[token].files == a.sessions[token].files
             && b.sessions[token].key == a.sessions[token].key
    ensures Honest(h, b, token, sources) && Settles(a, b, token, sources)
  {
    CommitLeavesParts(base, b.nodes, added, t, n, part, sources);
    PartsMayGo(h, a, b, token, sources);
  }

  lemma SavedIsSource(nodes: Tree, base: Tree, after: Tree, added: Tree, t: Target, n: nat, part: Path, source: seq<Octet>)
    requires PartIsPrefix(nodes, part, source) && Contents(base, part) == Contents(nodes, part)
    requires |Contents(base, part)| == |source| && part in base && nodes.Keys <= base.Keys
    requires Committed(base, after, added, t.folder, part, DestPath(t, n)) && part !in added
    ensures DestPath(t, n) !in nodes && DestPath(t, n) in after && after[DestPath(t, n)] == File(source)
  {
    WholePrefix(Contents(base, part), source);
  }

  // ----- The driver -----

  /** Asks the receiver to commit a file; request or answer may get lost, others act before and after. */
  method FinishFile(server: Server, token: Id, file: FileMeta, key: Option<SessionKey>, sources: Sources)
    returns (r: Result<Path, ClientError>)
    requires Honest(server.hashes, Now(server), token, sources) && sources.Keys <= server.disk.reserved
    requires Listed(server.hashes, Now(server), token, file, key, sources)
    modifies server, server.disk
    ensures Honest(server.hashes, Now(server), token, sources)
    ensures Settles(old(Now(server)), Now(server), token, sources)
    ensures r.Ok? ==> IsSaved(r.value, PartOf(server.hashes, file), old(server.disk.nodes), server.disk.nodes, sources)
  {
    ghost var h, start := server.hashes, Now(server);
    Others(server, token, sources);
    ghost var asked := Now(server);
    OneListedSettles(h, start, asked, token, file, key, sources);
    var lost := *;
    if lost {
      return Err(HttpFailure);
    }
    var answer, n, added := server.HandleFinish(token, file.fileId);
    ghost var finished := Now(server);
    if Live(asked, token) {
      FinishIsHonest(h, asked, finished, token, file, key, sources, added, n, answer);
    }
    SettlesTwice(start, asked, finished, token, sources);
    Others(server, token, sources);
    SettlesTwice(start, finished, Now(server), token, sources);
    var answered := *;
    r := if answer.Err? then Err(Refused(answer.error)) else if answered then Ok(answer.value) else Err(HttpFailure);
  }

  /** Tells the receiver about the user's cancellation, if it can be reached. */
  method CancelRemote(server: Server, token: Id, sources: Sources)
    requires Honest(server.hashes, Now(server), token, sources)
    modifies server, server.disk
    ensures Honest(server.hashes, Now(server), token, sources)
    ensures Settles(old(Now(server)), Now(server), token, sources)
  {
    var reachable := *;
    if reachable {
      var _, _ := server.CancelSession(token);
    }
  }

  /** The file is saved with its own bytes, at a path that was free when the batch began. */
  ghost predicate IsSaved(dest: Path, part: Path, begin: Tree, now: Tree, sources: Sources) {
    && part in sources && dest !in sources && dest !in begin
    && dest in now && now[dest] == File(sources[part])
  }

  /** The first files of the batch are saved, at pairwise distinct paths. */
  ghost predicate AllSaved(parts: seq<Path>, saved: seq<Path>, begin: Tree, now: Tree, sources: Sources) {
    && |saved| <= |parts|
    && (forall i :: 0 <= i < |saved| ==> IsSaved(saved[i], parts[i], begin, now, sources))
    && (forall i, j :: 0 <= i < j < |saved| ==> saved[i] != saved[j])
  }

  lemma SavedStay(parts: seq<Path>, saved: seq<Path>, begin: Tree, a: Snapshot, b: Snapshot, token: Id, sources: Sources)
    requires AllSaved(parts, saved, begin, a.nodes, sources) && Settles(a, b, token, sources)
    ensures AllSaved(parts, saved, begin, b.nodes, sources)
  {
    forall i | 0 <= i < |saved|
      ensures IsSaved(saved[i], parts[i], begin, b.nodes, sources)
    {
      assert IsSaved(saved[i], parts[i], begin, a.nodes, sources);
    }
  }

  lemma OneMoreSaved(parts: seq<Path>, saved: seq<Path>, begin: Snapshot, a: Snapshot, b: Snapshot, token: Id,
                     sources: Sources, dest: Path)
    requires AllSaved(parts, saved, begin.nodes, a.nodes, sources) && |saved| < |parts|
    requires Settles(begin, a, token, sources) && Settles(a, b, token, sources)
    requires IsSaved(dest, parts[|saved|], a.nodes, b.nodes, sources)
    ensures AllSaved(parts, saved + [dest], begin.nodes, b.nodes, sources)
  {
    SavedStay(parts, saved, begin.nodes, a, b, token, sources);
    forall i | 0 <= i < |saved|
      ensures saved[i] != dest
    {
      assert IsSaved(saved[i], parts[i], begin.nodes, a.nodes, sources);
    }
  }

  /** The session's files, as its entry lists them, and what was sealed for it so far. */
  ghost predicate SealedFrom(h: Hashes, s: Snapshot, token: Id, sources: Sources, sealed: seq<Sealing>) {
    && token in s.sessions && Parts(h, s.sessions[token].files) <= sources.Keys
    && FromSession(h, s.sessions[token].files, sources, sealed)
  }

  /** Sends one file; a failure comes with the status to record for it. Cancelled is recorded exactly when the user
      has cancelled or the send was refused because the session is cancelled; failed, when it failed otherwise. */
  method SendFile(server: Server, token: Id, file: FileMeta, key: Option<SessionKey>, sources: Sources,
                  chunkSize: nat, control: Control)
    returns (failure: Option<HistoryStatus>, ghost sealed: seq<Sealing>, ghost sent: Result<(), ClientError>)
    requires Honest(server.hashes, Now(server), token, sources) && sources.Keys <= server.disk.reserved
    requires Listed(server.hashes, Now(server), token, file, key, sources)
    requires chunkSize * MICROS_PER_SECOND < U64_LIMIT
    modifies server, server.disk, control
    ensures Honest(server.hashes, Now(server), token, sources)
    ensures Settles(old(Now(server)), Now(server), token, sources)
    ensures SealedFrom(server.hashes, old(Now(server)), token, sources, sealed)
    ensures old(control.cancelled) ==> control.cancelled
    ensures failure == Some(BatchCancelled) <==> control.cancelled || sent == Err(Refused(SessionCancelled))
    ensures failure == None <==> sent.Ok? && !control.cancelled
    ensures failure != Some(BatchCompleted)
    ensures sent == Err(Refused(SessionCancelled)) ==> !Live(Now(server), token)
  {
    ghost var h, start := server.hashes, Now(server);
    var outcome, _, _, report := SendResumable(server, token, file, key, sources, chunkSize, control);
    sealed, sent := report.sealed, outcome;
    SendIsFromSession(h, start.sessions[token].files, sources, file, sealed);
    var cancelled := control.IsCancelled();
    if cancelled || outcome == Err(UserCancelled) {
      ghost var after := Now(server);
      CancelRemote(server, token, sources);
      SettlesTwice(start, after, Now(server), token, sources);
      return Some(BatchCancelled), sealed, sent;
    }
    failure :=
      if outcome.Ok? then None
      else if outcome.error == Refused(SessionCancelled) then Some(BatchCancelled)
      else Some(BatchFailed);
  }

  /** Sends one file and has it committed; it is saved exactly when the send and the finish were answered with
      success and the user has not cancelled by the end of the send. */
  method SendAndFinish(server: Server, token: Id, file: FileMeta, key: Option<SessionKey>, sources: Sources,
                       chunkSize: nat, control: Control)
    returns (r: Result<Path, HistoryStatus>, ghost sealed: seq<Sealing>, ghost sent: Result<(), ClientError>,
             ghost finished: Option<Result<Path, ClientError>>)
    requires Honest(server.hashes, Now(server), token, sources) && sources.Keys <= server.disk.reserved
    requires Listed(server.hashes, Now(server), token, file, key, sources)
    requires chunkSize * MICROS_PER_SECOND < U64_LIMIT
    modifies server, server.disk, control
    ensures Honest(server.hashes, Now(server), token, sources)
    ensures Settles(old(Now(server)), Now(server), token, sources)
    ensures SealedFrom(server.hashes, old(Now(server)), token, sources, sealed)
    ensures r.Ok? ==> IsSaved(r.value, PartOf(server.hashes, file), old(server.disk.nodes), server.disk.nodes, sources)
    ensures old(control.cancelled) ==> control.cancelled
    ensures finished.Some? <==> sent.Ok? && !control.cancelled
    ensures r.Ok? <==> finished.Some? && finished.value.Ok?
    ensures r == Err(BatchCancelled) <==> control.cancelled || sent == Err(Refused(SessionCancelled))
    ensures r != Err(BatchCompleted)
    ensures sent == Err(Refused(SessionCancelled)) ==> !Live(Now(server), token)
  {
    ghost var h, start := server.hashes, Now(server);
    var failure;
    failure, sealed, sent := SendFile(server, token, file, key, sources, chunkSize, control);
    finished := None;
    if failure.Some? {
      return Err(failure.value), sealed, sent, finished;
    }
    ghost var after := Now(server);
    OneListedSettles(h, start, after, token, file, key, sources);
    var done := FinishFile(server, token, file, key, sources);
    SettlesTwice(start, after, Now(server), token, sources);
    finished := Some(done);
    r := if done.Ok? then Ok(done.value) else Err(BatchFailed);
  }

  function PartPaths(h: Hashes, files: seq<FileMeta>): (r: seq<Path>)
    ensures |r| == |files| && forall i :: 0 <= i < |files| ==> r[i] == PartOf(h, files[i])
  {
    seq(|files|, i requires 0 <= i < |files| => PartOf(h, files[i]))
  }

  /** The state between two files of a batch. */
  ghost predicate BetweenFiles(h: Hashes, begin: Snapshot, now: Snapshot, token: Id, files: seq<FileMeta>,
                               key: Option<SessionKey>, sources: Sources, saved: seq<Path>) {
    && Honest(h, now, token, sources) && Settles(begin, now, token, sources)
    && (forall f :: f in files ==> Listed(h, now, token, f, key, sources))
    && AllSaved(PartPaths(h, files), saved, begin.nodes, now.nodes, sources)
  }

  lemma NextFile(h: Hashes, begin: Snapshot, a: Snapshot, b: Snapshot, token: Id, files: seq<FileMeta>,
                 key: Option<SessionKey>, sources: Sources, saved: seq<Path>)
    requires BetweenFiles(h, begin, a, token, files, key, sources, saved)
    requires Honest(h, b, token, sources) && Settles(a, b, token, sources)
    ensures BetweenFiles(h, begin, b, token, files, key, sources, saved)
    ensures forall dest :: |saved| < |files| && IsSaved(dest, PartOf(h, files[|saved|]), a.nodes, b.nodes, sources) ==>
              BetweenFiles(h, begin, b, token, files, key, sources, saved + [dest])
  {
    SettlesTwice(begin, a, b, token, sources);
    ListedSettles(h, a, b, token, files, key, sources);
    SavedStay(PartPaths(h, files), saved, begin.nodes, a, b, token, sources);
    forall dest | |saved| < |files| && IsSaved(dest, PartOf(h, files[|saved|]), a.nodes, b.nodes, sources)
      ensures AllSaved(PartPaths(h, files), saved + [dest], begin.nodes, b.nodes, sources)
    {
      OneMoreSaved(PartPaths(h, files), saved, begin, a, b, token, sources, dest);
    }
  }

  /** What one more send seals is from the same session. */
  lemma SealedOneMore(h: Hashes, begin: Snapshot, a: Snapshot, token: Id, sources: Sources, sealed: seq<Sealing>,
                      more: seq<Sealing>)
    requires token in begin.sessions && Settles(begin, a, token, sources)
    requires SealedFrom(h, begin, token, sources, sealed) && SealedFrom(h, a, token, sources, more)
    ensures SealedFrom(h, begin, token, sources, sealed + more)
  {
  }

  /** The files of the batch one after the other, until one of them fails. */
  method SendFiles(server: Server, token: Id, files: seq<FileMeta>, key: Option<SessionKey>, sources: Sources,
                   chunkSize: nat, control: Control)
    returns (saved: seq<Path>, status: HistoryStatus, ghost sealed: seq<Sealing>)
    requires sources.Keys <= server.disk.reserved
    requires BetweenFiles(server.hashes, Now(server), Now(server), token, files, key, sources, [])
    requires chunkSize * MICROS_PER_SECOND < U64_LIMIT
    modifies server, server.disk, control
    ensures BetweenFiles(server.hashes, old(Now(server)), Now(server), token, files, key, sources, saved)
    ensures SealedFrom(server.hashes, old(Now(server)), token, sources, sealed)
    ensures status == BatchCompleted <==> |saved| == |files|
    ensures status == BatchCancelled ==> control.cancelled || !Live(Now(server), token)
    ensures control.cancelled && files != [] ==> status == BatchCancelled
    ensures old(control.cancelled) ==> control.cancelled && saved == []
  {
    ghost var h, begin := server.hashes, Now(server);
    saved, status, sealed := [], BatchCompleted, [];
    for i := 0 to |files|
      invariant |saved| == i && status == BatchCompleted
      invariant BetweenFiles(h, begin, Now(server), token, files, key, sources, saved)
      invariant SealedFrom(h, begin, token, sources, sealed)
      invariant i > 0 ==> !control.cancelled
      invariant old(control.cancelled) ==> control.cancelled
    {
      ghost var before := Now(server);
      var cancelled := control.IsCancelled();
      if cancelled {
        CancelRemote(server, token, sources);
        NextFile(h, begin, before, Now(server), token, files, key, sources, saved);
        return saved, BatchCancelled, sealed;
      }
      var done;
      ghost var more, sent, finished;
      done, more, sent, finished := SendAndFinish(server, token, files[i], key, sources, chunkSize, control);
      SealedOneMore(h, begin, before, token, sources, sealed, more);
      sealed := sealed + more;
      NextFile(h, begin, before, Now(server), token, files, key, sources, saved);
      if done.Err? {
        return saved, done.error, sealed;
      }
      saved := saved + [done.value];
    }
  }

  /** The batch job. On every path it writes exactly one history record and clears both registries.
      The files whose commit was confirmed are the first ones of the batch, in order, and the record
      says completed exactly when that is all of them. Everything sealed on the way is from the session's
      sources, so nothing is sealed twice under one file key and nonce but the same text. */
  method RunBatch(app: Application, server: Server, token: Id, files: seq<FileMeta>, key: Option<SessionKey>,
                  sources: Sources, chunkSize: nat, control: Control)
    returns (saved: seq<Path>, ghost sealed: seq<Sealing>)
    requires sources.Keys <= server.disk.reserved
    requires BetweenFiles(server.hashes, Now(server), Now(server), token, files, key, sources, [])
    requires chunkSize * MICROS_PER_SECOND < U64_LIMIT
    modifies app, server, server.disk, control
    ensures exists status ::
              && app.history == old(app.history) + [HistoryRecord(token, status, files)]
              && (status == BatchCompleted <==> |saved| == |files|)
              && (status == BatchCancelled ==> control.cancelled || !Live(Now(server), token))
              && (control.cancelled && files != [] ==> status == BatchCancelled)
    ensures old(control.cancelled) ==> saved == []
    ensures app.cancellationTokens == old(app.cancellationTokens) - {token}
    ensures app.transferControls == old(app.transferControls) - {token}
    ensures AllSaved(PartPaths(server.hashes, files), saved, old(server.disk.nodes), server.disk.nodes, sources)
    ensures SealedFrom(server.hashes, old(Now(server)), token, sources, sealed)
    ensures key.Some? ==> NoTwoTexts(key.value, sealed)
  {
    ghost var h, all := server.hashes, server.sessions[token].files;
    var status;
    saved, status, sealed := SendFiles(server, token, files, key, sources, chunkSize, control);
    if key.Some? {
      SessionHasNoTwoTexts(h, all, sources, key.value, sealed);
    }
    app.Close(token, status, files);
  }
}
