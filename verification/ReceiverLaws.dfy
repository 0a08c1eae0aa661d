/** What the receiver's checks and records mean, stated without them (server/routes.rs 246-276, 327-404, 524-618,
    storage/file_manager.rs 115-136). */
module ReceiverLaws {
  import opened Wrappers
  import opened Text
  import opened Octets
  import opened Names
  import opened Storage
  import opened Receiver

  // ----- Finding the file -----

  /** Of several entries with an id the first one counts. */
  lemma {:induction false} FoundIsFirst(files: seq<FileMeta>, id: Id) returns (k: nat)
    ensures k <= |files| && forall j :: 0 <= j < k ==> files[j].fileId != id
    ensures FindFile(files, id) == if k < |files| then Some(files[k]) else None
    ensures k < |files| ==> files[k].fileId == id
  {
    if files == [] || files[0].fileId == id {
      k := 0;
    } else {
      var rest := FoundIsFirst(files[1..], id);
      k := rest + 1;
      assert forall j :: 0 < j < k ==> files[j] == files[1..][j - 1];
    }
  }

  /** A request gets through exactly when its session is there, not cancelled, and has the file. */
  lemma LookupExactly(sessions: Sessions, token: Id, fileId: Id)
    ensures Lookup(sessions, token, fileId) == Err(UnknownSession) <==> token !in sessions
    ensures Lookup(sessions, token, fileId) == Err(SessionCancelled)
            <==> token in sessions && sessions[token].status == Cancelled
    ensures Lookup(sessions, token, fileId) == Err(NoSuchFile)
            <==> && token in sessions && sessions[token].status != Cancelled
                 && forall f :: f in sessions[token].files ==> f.fileId != fileId
    ensures Lookup(sessions, token, fileId).Ok?
            <==> && token in sessions && sessions[token].status != Cancelled
                 && exists f :: f in sessions[token].files && f.fileId == fileId
    ensures Lookup(sessions, token, fileId).Ok? ==>
              var Found(s, f) := Lookup(sessions, token, fileId).value;
              s == sessions[token] && f in s.files && f.fileId == fileId
  {
  }

  // ----- Reading a body -----

  /** Why reading a body stops: at a broken frame, or at the first one that does not fit behind those before. */
  lemma {:induction false} StopExactly(room: nat, frames: seq<Frame>) returns (i: nat)
    ensures i <= |frames| && TakeIn(room, frames[..i]) == Intake(TakeIn(room, frames).accepted, None)
    ensures TakeIn(room, frames).stop.None? <==> i == |frames|
    ensures TakeIn(room, frames).stop == Some(BodyBroken) <==> i < |frames| && frames[i].Broken?
    ensures TakeIn(room, frames).stop == Some(TooLarge)
            <==> i < |frames| && frames[i].Data? && |TakeIn(room, frames).accepted| + |frames[i].bytes| > room
  {
    if frames == [] || frames[0].Broken? || |frames[0].bytes| > room {
      i := 0;
    } else {
      var b := frames[0].bytes;
      var j := StopExactly(room - |b|, frames[1..]);
      i := j + 1;
      HeadOff(frames, i);
      TakeInFirst(room, frames);
      TakeInFirst(room, frames[..i]);
    }
  }

  /** A session notes where an answered chunk ends, and nothing else of it changes. */
  lemma ReachedExactly(s: Session, fileId: Id, total: nat)
    ensures var t := Reached(s, fileId, total);
            && fileId in t.progress && t.progress[fileId] == total && t.files == s.files && t.status == s.status
            && t.key == s.key && t.saved == s.saved
            && forall id :: id != fileId ==> (id in t.progress <==> id in s.progress)
                                             && (id in s.progress ==> t.progress[id] == s.progress[id])
  {
  }

  // ----- The hash check -----

  /** A finish request is refused for the hash exactly when the part has the stated size and its hash text differs
      from the stated one in more than case; for the size exactly when the sizes differ; and nothing is lost. */
  lemma RefusalsExactly(h: Hashes, found: Found, token: Id, before: Tree, after: Tree, added: Tree,
                        sBefore: Sessions, sAfter: Sessions, n: nat, r: Result<Path, HttpError>, content: seq<Octet>)
    requires FinishOutcome(h, found, token, before, after, added, sBefore, sAfter, n, r)
    requires PartOf(h, found.file) in before && content == Contents(before, PartOf(h, found.file))
    ensures var file := found.file;
            var fits := |content| == file.size;
            var matches := file.hash.None? || SameButCase(h.ofContent(content), file.hash.value);
            && (fits && matches ==> r.Ok? || r == Err(IoFault))
            && (!fits ==> r == Err(SizeMismatch) || r == Err(IoFault))
            && (fits && !matches ==> r == Err(HashMismatch) || r == Err(IoFault))
            && (!fits || !matches ==> after == before && sAfter == sBefore)
  {
    var file := found.file;
    if file.hash.Some? {
      LowerExactly(h.ofContent(content), file.hash.value);
    }
  }

  /** Without a part only an empty file can be finished. */
  lemma NoPartExactly(h: Hashes, found: Found, token: Id, before: Tree, after: Tree, added: Tree,
                      sBefore: Sessions, sAfter: Sessions, n: nat, r: Result<Path, HttpError>)
    requires FinishOutcome(h, found, token, before, after, added, sBefore, sAfter, n, r)
    requires PartOf(h, found.file) !in before
    ensures found.file.size > 0 ==> (r == Err(NoPartFile) || r == Err(IoFault)) && after == before && sAfter == sBefore
    ensures found.file.size == 0 ==>
              if found.file.hash.None? || SameButCase(h.ofContent([]), found.file.hash.value)
              then r.Ok? || r == Err(IoFault)
              else r == Err(HashMismatch) || r == Err(IoFault)
  {
    if found.file.size == 0 && found.file.hash.Some? {
      LowerExactly(h.ofContent([]), found.file.hash.value);
    }
  }

  /** Among contents of one size, the hash tells the source from all others. */
  ghost predicate HashTells(h: Hashes, source: seq<Octet>) {
    forall c: seq<Octet> :: |c| == |source| && SameButCase(h.ofContent(c), h.ofContent(source)) ==> c == source
  }

  /** If the sender states the hash of its source and no other content of that size has it, an answered finish has
      committed exactly the source, whatever the part was before. */
  lemma FinishedIsTheSource(h: Hashes, found: Found, token: Id, before: Tree, after: Tree, added: Tree,
                            sBefore: Sessions, sAfter: Sessions, n: nat, r: Result<Path, HttpError>, source: seq<Octet>)
    requires FinishOutcome(h, found, token, before, after, added, sBefore, sAfter, n, r) && r.Ok?
    requires added.Keys !! before.Keys && PartOf(h, found.file) !in added
    requires found.file.size == |source| && found.file.hash.Some?
    requires SameButCase(found.file.hash.value, h.ofContent(source)) && HashTells(h, source)
    ensures r.value in after && after[r.value] == File(source)
    ensures token in sAfter && found.file.fileId in sAfter[token].saved && sAfter[token].saved[found.file.fileId] == r.value
  {
    FinishCommitsWhatWasStated(h, found, token, before, after, added, sBefore, sAfter, n, r);
    var content := after[r.value].content;
    LowerExactly(h.ofContent(content), found.file.hash.value);
    LowerExactly(found.file.hash.value, h.ofContent(source));
    LowerExactly(h.ofContent(content), h.ofContent(source));
  }

  /** A finished file is noted with its size and place, and the session is completed exactly when all its files
      are noted with their sizes; nothing else changes. */
  lemma AfterFinishExactly(s: Session, file: FileMeta, dest: Path)
    ensures var t := AfterFinish(s, file, dest);
            && t.files == s.files && t.key == s.key
            && t.progress == s.progress[file.fileId := file.size] && t.saved == s.saved[file.fileId := dest]
            && t.status == (if forall f :: f in s.files ==>
                                 f.size == 0 || (f.fileId in t.progress && f.size <= t.progress[f.fileId])
                            then Completed else s.status)
  {
    var t := AfterFinish(s, file, dest);
    assert forall f: FileMeta :: Progress(t, f.fileId) >= f.size
                                 <==> (f.size == 0 || (f.fileId in t.progress && f.size <= t.progress[f.fileId]));
  }

  // ----- The key in the part's name -----

  /** With a stated hash the key is the beginning of its text, 16 characters at most, in lower case. */
  lemma KeyOfStatedHash(h: Hashes, m: FileMeta, t: string)
    requires m.hash.Some? && t == Trim(m.hash.value) && t != ""
    ensures var key := FileKey(h, m);
            && |key| == (if |t| < 16 then |t| else 16) && SameButCase(key, t[..|key|])
            && forall c :: c in key ==> !('A' <= c <= 'Z')
  {
    var short := Short(t);
    LowerExactly(Lower(short), short);
  }

  /** Without one it is the beginning of the hash of name and size. */
  lemma KeyOfNameAndSize(h: Hashes, m: FileMeta)
    requires m.hash.None? || Trim(m.hash.value) == ""
    ensures var key, text := FileKey(h, m), h.ofText(m.name + ":" + Decimal(m.size));
            key <= text && |key| == (if |text| < 16 then |text| else 16)
  {
  }
}
