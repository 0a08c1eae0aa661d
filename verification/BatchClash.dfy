/** What happens in a batch in which one file's destination is the part file of a later one. */
module BatchClash {
  import opened Wrappers
  import opened Octets
  import opened Names
  import opened Storage
  import opened Receiver
  import opened Crypto
  import Network

  /** A session that has two files, the first with a target that meets the part of the second, and a disk on
      which the first file has come in, with all earlier names of its target taken. */
  ghost predicate Clash(h: Hashes, s: Session, first: FileMeta, second: FileMeta, n: nat, nodes: Tree,
                        content: seq<Octet>) {
    var t := ResolveTarget(first.name, first.relative);
    && s.status != Cancelled
    && FindFile(s.files, first.fileId) == Some(first) && FindFile(s.files, second.fileId) == Some(second)
    && DestPath(t, n) == PartOf(h, second) && PartOf(h, second) != PartOf(h, first)
    && PartOf(h, second) !in nodes && (forall m: nat :: m < n ==> DestPath(t, m) in nodes)
    && PartOf(h, first) in nodes && nodes[PartOf(h, first)] == File(content)
    && |content| == first.size && (first.hash.Some? ==> VerifyHash(h, content, first.hash.value))
  }

  lemma PartOfAPart(name: string, key: string, other: string)
    requires forall c :: c in key ==> !IsForbidden(c)
    ensures PartPath(PartName(name, key), other) != PartPath(name, key)
  {
    SanitizeIsSafe(name);
    PartNameIsSafe(Sanitize(name), key);
    SafeIsFixed(PartName(name, key));
    assert |PartPath(PartName(name, key), other)[0]| > |PartName(name, key)|;
  }

  /** Such batches exist for every second file: the first one only has to be named like its part. */
  lemma ClashHappens(h: Hashes, s: Session, first: FileMeta, second: FileMeta, content: seq<Octet>)
    requires s.status != Cancelled
    requires FindFile(s.files, first.fileId) == Some(first) && FindFile(s.files, second.fileId) == Some(second)
    requires first.name == PartName(second.name, FileKey(h, second)) && first.relative == None && first.hash == None
    requires forall c :: c in FileKey(h, second) ==> !IsForbidden(c)
    requires |content| == first.size
    ensures Clash(h, s, first, second, 0, map[PartOf(h, first) := File(content)], content)
  {
    PartNameCanBeADestination(second.name, FileKey(h, second));
    PartOfAPart(second.name, FileKey(h, second), FileKey(h, first));
    ClashAt(h, s, first, second, content, ResolveTarget(first.name, None), PartOf(h, first), PartOf(h, second));
  }

  lemma ClashAt(h: Hashes, s: Session, first: FileMeta, second: FileMeta, content: seq<Octet>, t: Target, p: Path, q: Path)
    requires s.status != Cancelled && first.hash == None && |content| == first.size
    requires FindFile(s.files, first.fileId) == Some(first) && FindFile(s.files, second.fileId) == Some(second)
    requires t == ResolveTarget(first.name, first.relative) && p == PartOf(h, first) && q == PartOf(h, second)
    requires DestPath(t, 0) == q && p != q
    ensures Clash(h, s, first, second, 0, map[p := File(content)], content)
  {
  }

  function Saved(h: Hashes, first: FileMeta, second: FileMeta, nodes: Tree, content: seq<Octet>): Tree {
    (nodes - {PartOf(h, first)})[PartOf(h, second) := File(content)]
  }

  /** The first file is committed over the name of the second one's part, and confirmed. */
  lemma FirstIsConfirmed(h: Hashes, token: Id, sessions: Sessions, first: FileMeta, second: FileMeta, n: nat,
                         nodes: Tree, content: seq<Octet>)
    requires token in sessions && Clash(h, sessions[token], first, second, n, nodes, content)
    ensures FinishOutcome(h, Found(sessions[token], first), token, nodes, Saved(h, first, second, nodes, content), map[],
                          sessions, sessions[token := AfterFinish(sessions[token], first, PartOf(h, second))], n,
                          Ok(PartOf(h, second)))
  {
    var part, dest := PartOf(h, first), PartOf(h, second);
    var after := Saved(h, first, second, nodes, content);
    var folder := ResolveTarget(first.name, first.relative).folder;
    assert nodes + map[] == nodes;
    assert Committed(nodes, after, map[], folder, part, dest);
    assert WithEmptyPart(h, first, nodes) == nodes;
  }

  /** A sender can form the payload of every chunk within the limits, sealed or not. */
  lemma PayloadOf(key: Option<SessionKey>, fileId: Id, offset: nat, data: seq<Octet>) returns (payload: seq<Octet>)
    requires key.Some? ==> |data| <= MAX_ENCRYPTED_CHUNK_SIZE
    ensures Network.Formed(key, fileId, offset, data, payload)
  {
    payload := if key.Some? then EncryptChunk(key.value, fileId, offset, data).value else data;
  }

  lemma AnsweredWhole(h: Hashes, found: Found, token: Id, offset: nat, frames: seq<Frame>, before: Tree, after: Tree,
                      sBefore: Sessions, sAfter: Sessions, data: seq<Octet>, total: nat)
    requires offset <= found.file.size && Verdict(found.session.key, found.file, offset, frames) == Ok(data)
    requires after == Written(before, PartOf(h, found.file), offset, data) && total == offset + |data|
    requires sAfter == sBefore[token := Reached(found.session, found.file.fileId, total)]
    ensures ChunkTaken(h, found, token, offset, frames, before, after, sBefore, sAfter, ChunkReply(|data|, total))
  {
  }

  lemma WrittenBehind(nodes: Tree, part: Path, content: seq<Octet>, data: seq<Octet>, after: Tree)
    requires part in nodes && nodes[part] == File(content) && after == nodes[part := File(content + data)]
    ensures after == Written(nodes, part, |content|, data)
  {
    AppendIsWrite(content, data);
  }

  /** A chunk of the second file, sent from where its part seems to end, is answered and goes into the file
      saved before. */
  lemma SecondIsWrittenIntoIt(h: Hashes, token: Id, found: Found, content: seq<Octet>, data: seq<Octet>,
                              payload: seq<Octet>, before: Tree, after: Tree, sBefore: Sessions, sAfter: Sessions,
                              part: Path, total: nat)
    requires part == PartOf(h, found.file) && part in before && before[part] == File(content)
    requires total == |content| + |data| <= found.file.size
    requires Network.Formed(found.session.key, found.file.fileId, |content|, data, payload)
    requires after == before[part := File(content + data)]
    requires sAfter == sBefore[token := Reached(found.session, found.file.fileId, total)]
    ensures ChunkOutcome(h, found, token, |content|, [Data(payload)], before, after, sBefore, sAfter,
                         Ok(ChunkReply(|data|, total)))
  {
    OneFrame(payload);
    Network.FormedChunkPasses(found.session.key, found.file, |content|, data, payload, [Data(payload)], true);
    WrittenBehind(before, part, content, data, after);
    AnsweredWhole(h, found, token, |content|, [Data(payload)], before, after, sBefore, sAfter, data, total);
  }

  lemma OneFrame(payload: seq<Octet>)
    ensures Joined([Data(payload)]) == Some(payload)
  {
    var frames := [Data(payload)];
    assert frames[1..] == [] && payload + [] == payload && Joined([]) == Some([]);
  }

  lemma AppendIsWrite(content: seq<Octet>, data: seq<Octet>)
    ensures WriteAt(content, |content|, data) == content + data
  {
    if data == [] {
      assert content + [] == content;
    }
  }

  lemma StillListed(h: Hashes, token: Id, sessions: Sessions, first: FileMeta, second: FileMeta, dest: Path)
    requires token in sessions && sessions[token].status != Cancelled
    requires FindFile(sessions[token].files, second.fileId) == Some(second)
    ensures var s1 := sessions[token := AfterFinish(sessions[token], first, dest)];
            Lookup(s1, token, second.fileId) == Ok(Found(s1[token], second)) && s1[token].key == sessions[token].key
  {
  }

  /** A file that lies where the part of another one is expected: a chunk of that one is answered and changes it. */
  lemma ChunkChangesIt(h: Hashes, token: Id, found: Found, content: seq<Octet>, data: seq<Octet>, t1: Tree, s1: Sessions,
                       dest: Path)
    returns (payload: seq<Octet>, t2: Tree, s2: Sessions)
    requires dest == PartOf(h, found.file) && dest in t1 && t1[dest] == File(content)
    requires data != [] && |content| + |data| <= found.file.size
    requires found.session.key.Some? ==> |data| <= MAX_ENCRYPTED_CHUNK_SIZE
    ensures Network.Formed(found.session.key, found.file.fileId, |content|, data, payload)
    ensures ChunkOutcome(h, found, token, |content|, [Data(payload)], t1, t2, s1, s2,
                         Ok(ChunkReply(|data|, |content| + |data|)))
    ensures dest in t2 && t2[dest] == File(content + data) != File(content)
  {
    var total := |content| + |data|;
    t2, s2 := t1[dest := File(content + data)], s1[token := Reached(found.session, found.file.fileId, total)];
    payload := PayloadOf(found.session.key, found.file.fileId, |content|, data);
    SecondIsWrittenIntoIt(h, token, found, content, data, payload, t1, t2, s1, s2, dest, total);
    assert |content + data| != |content|;
  }

  /** In every such batch a file that was confirmed is changed afterwards: the first file is confirmed at the
      part path of the second (t1, s1); the status of the second then answers with the length of the first;
      and the chunk sent from there is answered, and changes the file confirmed (t2, s2). */
  lemma ConfirmedFileIsOverwritten(h: Hashes, token: Id, sessions: Sessions, first: FileMeta, second: FileMeta, n: nat,
                                   nodes: Tree, content: seq<Octet>, data: seq<Octet>, dest: Path)
    returns (t1: Tree, s1: Sessions, payload: seq<Octet>, t2: Tree, s2: Sessions)
    requires token in sessions && Clash(h, sessions[token], first, second, n, nodes, content)
    requires data != [] && |content| + |data| <= second.size && dest == PartOf(h, second)
    requires sessions[token].key.Some? ==> |data| <= MAX_ENCRYPTED_CHUNK_SIZE
    ensures FinishOutcome(h, Found(sessions[token], first), token, nodes, t1, map[], sessions, s1, n, Ok(dest))
    ensures dest in t1 && t1[dest] == File(content)
    ensures token in s1 && Lookup(s1, token, second.fileId) == Ok(Found(s1[token], second))
    ensures Contents(t1, PartOf(h, second)) == content
    ensures Network.Formed(sessions[token].key, second.fileId, |content|, data, payload)
    ensures ChunkOutcome(h, Found(s1[token], second), token, |content|, [Data(payload)], t1, t2, s1, s2,
                         Ok(ChunkReply(|data|, |content| + |data|)))
    ensures dest in t2 && t2[dest] == File(content + data) != File(content)
  {
    t1, s1 := Saved(h, first, second, nodes, content), sessions[token := AfterFinish(sessions[token], first, dest)];
    FirstIsConfirmed(h, token, sessions, first, second, n, nodes, content);
    StillListed(h, token, sessions, first, second, dest);
    payload, t2, s2 := ChunkChangesIt(h, token, Found(s1[token], second), content, data, t1, s1, dest);
  }
}
