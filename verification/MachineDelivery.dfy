/** A transfer that nobody disturbs: chunk by chunk from wherever the part stands, to the saved file. */
module MachineDelivery {
  import opened Wrappers
  import opened Octets
  import opened Names
  import opened Receiver
  import opened Machine
  import opened MachinePrefix
  import opened MachineSaved
  import Network

  // ----- One request -----

  /** What a request that ran through has changed: its own entry, the note of its session, and its part. */
  ghost predicate Handled(w: World, w': World, h: nat, spare: nat, p: Path)
    requires h in w.handlers && w.handlers[h].token in w.sessions
  {
    var job := w.handlers[h];
    && w'.attempts == w.attempts && w'.finishers == w.finishers
    && w'.handlers == w.handlers[h := job.(written := |job.data|, phase := Answered)]
    && w'.sessions == w.sessions[job.token := Noted(w.sessions[job.token], p, job.offset + |job.data|)]
    && w'.bodies.Keys <= w.bodies.Keys + {spare} && w'.homes.Keys <= w.homes.Keys + {spare}
    && w'.links.Keys == w.links.Keys + {p} && w'.links[p] in w'.bodies
  }

  lemma OpenedTables(w: World, h: nat, spare: nat, p: Path, w1: World)
    requires CanOpen(w, h, spare) && w.handlers[h].path == p && (p in w.links ==> w.links[p] in w.bodies)
    requires w1 == DoOpen(w, h, spare)
    ensures w1.attempts == w.attempts && w1.finishers == w.finishers && w1.sessions == w.sessions
    ensures p in w1.links && w1.links[p] in w1.bodies && w1.links.Keys == w.links.Keys + {p}
    ensures w1.bodies.Keys <= w.bodies.Keys + {spare} && w1.homes.Keys <= w.homes.Keys + {spare}
    ensures w1.handlers == w.handlers[h := w.handlers[h].(phase := Opened(w1.links[p]))]
  {
  }

  lemma WroteTables(w: World, h: nat, n: nat, body: nat, w2: World)
    requires IsOpen(w, h) && w.handlers[h].written == 0 && w.handlers[h].phase == Opened(body)
    requires n == |w.handlers[h].data| && n > 0 && w2 == Wrote(w, h, n)
    ensures CanWrite(w, h, n) && w2 == DoWrite(w, h, n)
    ensures w2.attempts == w.attempts && w2.finishers == w.finishers && w2.sessions == w.sessions
    ensures w2.links == w.links && w2.homes == w.homes && w2.bodies.Keys == w.bodies.Keys
    ensures w2.handlers == w.handlers[h := w.handlers[h].(written := n)]
  {
    assert 0 + n == n;
  }

  lemma CloseAndAnswer(w: World, w1: World, w': World, h: nat, sources: Network.Sources) returns (events: seq<Event>)
    requires IsOpen(w, h) && w.handlers[h].written == |w.handlers[h].data| && w1 == To(w, h, Closed)
    requires w' == DoEnd(w1, h, false)
    ensures Leads(w, events, w', sources)
  {
    OneStep(w1, End(h, false), [], w', sources);
    OneStep(w, Close(h), [End(h, false)] + [], w', sources);
    events := [Close(h)] + ([End(h, false)] + []);
  }

  lemma OpenFirst(w: World, w1: World, w2: World, w': World, h: nat, spare: nat, n: nat, rest: seq<Event>,
                  sources: Network.Sources)
    returns (events: seq<Event>)
    requires CanOpen(w, h, spare) && w1 == DoOpen(w, h, spare)
    requires CanWrite(w1, h, n) && w2 == DoWrite(w1, h, n) && Leads(w2, rest, w', sources)
    ensures Leads(w, events, w', sources)
  {
    OneStep(w1, Write(h, n), rest, w', sources);
    OneStep(w, Open(h, spare), [Write(h, n)] + rest, w', sources);
    events := [Open(h, spare)] + ([Write(h, n)] + rest);
  }

  /** The steps of an undisturbed request. */
  lemma FiveSteps(w: World, w0: World, w1: World, w2: World, w': World, h: nat, spare: nat, n: nat,
                  sources: Network.Sources)
    returns (events: seq<Event>)
    requires InPhase(w, h, Queued) && w0 == DoBegin(w, h)
    requires CanOpen(w0, h, spare) && w1 == DoOpen(w0, h, spare)
    requires CanWrite(w1, h, n) && w2 == DoWrite(w1, h, n)
    requires IsOpen(w2, h) && w2.handlers[h].written == |w2.handlers[h].data| && w' == DoEnd(To(w2, h, Closed), h, false)
    ensures Leads(w, events, w', sources)
  {
    events := CloseAndAnswer(w2, To(w2, h, Closed), w', h, sources);
    events := OpenFirst(w0, w1, w2, w', h, spare, n, events, sources);
    OneStep(w, Begin(h), events, w', sources);
    events := [Begin(h)] + events;
  }

  /** A queued request of a live session, begun, opened, written and answered (w0, w1, w2, w'). */
  lemma RunIsHandled(w: World, w0: World, w1: World, w2: World, w': World, h: nat, spare: nat, n: nat, p: Path,
                     sources: Network.Sources)
    requires InPhase(w, h, Queued) && w.handlers[h].written == 0 && w.handlers[h].path == p
    requires n == |w.handlers[h].data| && n > 0
    requires w.handlers[h].token in w.sessions && !w.sessions[w.handlers[h].token].cancelled
    requires spare !in w.bodies && spare !in w.homes && (p in w.links ==> w.links[p] in w.bodies)
    requires w0 == DoBegin(w, h) && w1 == DoOpen(w0, h, spare) && IsOpen(w1, h) && w1.handlers[h].written == 0
    requires |w1.handlers[h].data| == n && w2 == Wrote(w1, h, n) && w' == DoEnd(To(w2, h, Closed), h, false)
    ensures Handled(w, w', h, spare, p) && CanWrite(w1, h, n) && w2 == DoWrite(w1, h, n)
    ensures IsOpen(w2, h) && w2.handlers[h].written == |w2.handlers[h].data|
  {
    OpenedTables(w0, h, spare, p, w1);
    WroteTables(w1, h, n, w1.links[p], w2);
    EndIsAnswer(w, w2, w', h, p);
  }

  lemma SingleWrite(w: World, h: nat, n: nat, w': World, sources: Network.Sources)
    requires CanWrite(w, h, n) && w' == DoWrite(w, h, n)
    ensures Leads(w, [Write(h, n)], w', sources) && OnlyWrites([Write(h, n)], h)
  {
    OneStep(w, Write(h, n), [], w', sources);
    assert [Write(h, n)] + [] == [Write(h, n)];
  }

  lemma RunIsOneWrite(w: World, w0: World, w1: World, w2: World, w': World, h: nat, spare: nat, n: nat, p: Path,
                      sources: Network.Sources)
    requires InPhase(w, h, Queued) && w.handlers[h].written == 0 && w.handlers[h].path == p
    requires !IsCancelled(w, w.handlers[h].token) && (p in w.links ==> w.links[p] in w.bodies)
    requires w0 == DoBegin(w, h) && CanOpen(w0, h, spare) && w1 == DoOpen(w0, h, spare)
    requires Leads(w1, [Write(h, n)], w2, sources) && h in w2.handlers && w2.handlers[h].written == |w.handlers[h].data|
    requires w' == DoEnd(To(w2, h, Closed), h, false)
    ensures IsOneWrite(w, w', h, p)
  {
    AloneIsOneWrite(w, w1, w2, w', h, spare, [Write(h, n)], p, sources);
  }

  /** A queued request of a live session runs through. */
  lemma RunsThrough(w: World, h: nat, spare: nat, p: Path, sources: Network.Sources)
    returns (events: seq<Event>, w': World)
    requires InPhase(w, h, Queued) && w.handlers[h].written == 0 && w.handlers[h].path == p && w.handlers[h].data != []
    requires w.handlers[h].token in w.sessions && !w.sessions[w.handlers[h].token].cancelled
    requires spare !in w.bodies && spare !in w.homes && (p in w.links ==> w.links[p] in w.bodies)
    ensures Leads(w, events, w', sources) && Handled(w, w', h, spare, p) && IsOneWrite(w, w', h, p)
  {
    var n := |w.handlers[h].data|;
    var w0 := DoBegin(w, h);
    var w1 := DoOpen(w0, h, spare);
    OpenedPart(w0, h, spare);
    var w2 := Wrote(w1, h, n);
    w' := DoEnd(To(w2, h, Closed), h, false);
    RunIsHandled(w, w0, w1, w2, w', h, spare, n, p, sources);
    SingleWrite(w1, h, n, w2, sources);
    RunIsOneWrite(w, w0, w1, w2, w', h, spare, n, p, sources);
    events := FiveSteps(w, w0, w1, w2, w', h, spare, n, sources);
  }

  lemma EndIsAnswer(w: World, w2: World, w': World, h: nat, p: Path)
    requires h in w.handlers && w.handlers[h].path == p && w.handlers[h].token in w.sessions
    requires !w.sessions[w.handlers[h].token].cancelled && w2.sessions == w.sessions && h in w2.handlers
    requires w2.handlers
             == w.handlers[h := w.handlers[h].(written := |w.handlers[h].data|, phase := w2.handlers[h].phase)]
    requires w' == DoEnd(To(w2, h, Closed), h, false)
    ensures var job := w.handlers[h];
            && w'.attempts == w2.attempts && w'.finishers == w2.finishers && w'.links == w2.links
            && w'.bodies == w2.bodies && w'.homes == w2.homes
            && w'.handlers == w.handlers[h := job.(written := |job.data|, phase := Answered)]
            && w'.sessions == w.sessions[job.token := Noted(w.sessions[job.token], p, job.offset + |job.data|)]
  {
  }

  // ----- One chunk of an attempt -----

  /** The attempt stands where the part ends, the part is the beginning of the source, and there are numbers for
      requests and bodies from h0 and spare on. */
  ghost predicate Ready(w: World, a: nat, token: Id, p: Path, source: seq<Octet>, h0: nat, spare: nat) {
    && token in w.sessions && !w.sessions[token].cancelled && p in w.sessions[token].paths
    && Part(w, p) <= source && (p in w.links ==> w.links[p] in w.bodies)
    && a in w.attempts && w.attempts[a] == Attempt(token, p, |Part(w, p)|, |Part(w, p)|, None)
    && (forall h :: h in w.handlers ==> h < h0) && (forall b :: b in w.bodies || b in w.homes ==> b < spare)
  }

  /** Other files, finish requests and the session's other data are as they were. */
  ghost predicate Undisturbed(w: World, w': World, token: Id, p: Path)
    requires token in w.sessions
  {
    && w'.finishers == w.finishers && w.links.Keys <= w'.links.Keys <= w.links.Keys + {p}
    && token in w'.sessions && w'.sessions[token] == w.sessions[token].(progress := w'.sessions[token].progress)
  }

  lemma PostedRequest(w: World, a: nat, token: Id, p: Path, n: nat, sources: Network.Sources, h0: nat, spare: nat,
                      w1: World)
    requires p in sources && Ready(w, a, token, p, sources[p], h0, spare) && 0 < n && |Part(w, p)| + n <= |sources[p]|
    requires w1 == w.(handlers := w1.handlers, attempts := w1.attempts)
    requires var c := |Part(w, p)|;
             && w1.handlers == w.handlers[h0 := Handler(token, p, c, sources[p][c..c + n], 0, Queued)]
             && w1.attempts == w.attempts[a := Attempt(token, p, c, c + n, Some(h0))]
    ensures CanPost(w, a, h0, n, sources) && w1 == DoPost(w, a, h0, n, sources)
    ensures Part(w1, p) == Part(w, p) && InPhase(w1, h0, Queued)
  {
  }

  lemma ExtendsPrefix(part: seq<Octet>, source: seq<Octet>, n: nat)
    requires part <= source && 0 < n && |part| + n <= |source|
    ensures WriteAt(part, |part|, source[|part|..|part| + n]) == source[..|part| + n]
  {
    WriteKeepsPrefix(part, source, |part|, n);
  }

  lemma AfterReply(w: World, w1: World, w2: World, w3: World, a: nat, token: Id, p: Path, n: nat, source: seq<Octet>,
                   h0: nat, spare: nat)
    requires Ready(w, a, token, p, source, h0, spare) && 0 < n && |Part(w, p)| + n <= |source|
    requires w1 == w.(handlers := w1.handlers, attempts := w1.attempts) && h0 in w1.handlers
    requires w1.handlers == w.handlers[h0 := w1.handlers[h0]]
    requires w1.handlers[h0] == Handler(token, p, |Part(w, p)|, source[|Part(w, p)|..|Part(w, p)| + n], 0, Queued)
    requires w1.attempts == w.attempts[a := Attempt(token, p, |Part(w, p)|, |Part(w, p)| + n, Some(h0))]
    requires Handled(w1, w2, h0, spare, p) && Part(w2, p) == source[..|Part(w, p)| + n]
    requires CanReply(w2, a) && w3 == DoReply(w2, a)
    ensures Ready(w3, a, token, p, source, h0 + 1, spare + 1) && Undisturbed(w, w3, token, p)
    ensures |Part(w3, p)| == |Part(w, p)| + n && p in w3.links
    ensures p in w3.sessions[token].progress && w3.sessions[token].progress[p] == |Part(w3, p)|
  {
    assert Part(w3, p) == Part(w2, p);
  }

  lemma RequestAndReply(w: World, w1: World, w2: World, w3: World, a: nat, h: nat, n: nat, middle: seq<Event>,
                        sources: Network.Sources)
    returns (events: seq<Event>)
    requires CanPost(w, a, h, n, sources) && w1 == DoPost(w, a, h, n, sources)
    requires Leads(w1, middle, w2, sources) && CanReply(w2, a) && w3 == DoReply(w2, a)
    ensures Leads(w, events, w3, sources)
  {
    OneStep(w2, Reply(a), [], w3, sources);
    StepsJoin(w1, middle, w2, [Reply(a)] + [], w3, sources);
    events := middle + ([Reply(a)] + []);
    OneStep(w, Post(a, h, n), events, w3, sources);
    events := [Post(a, h, n)] + events;
  }

  /** One chunk: the part grows by it, and the attempt stands at its end again. */
  lemma OneChunk(w: World, a: nat, token: Id, p: Path, n: nat, h0: nat, spare: nat, sources: Network.Sources)
    returns (events: seq<Event>, w': World)
    requires p in sources && Ready(w, a, token, p, sources[p], h0, spare) && 0 < n && |Part(w, p)| + n <= |sources[p]|
    ensures Leads(w, events, w', sources)
    ensures Ready(w', a, token, p, sources[p], h0 + 1, spare + 1) && Undisturbed(w, w', token, p)
    ensures |Part(w', p)| == |Part(w, p)| + n && p in w'.links
    ensures p in w'.sessions[token].progress && w'.sessions[token].progress[p] == |Part(w', p)|
  {
    var source, c := sources[p], |Part(w, p)|;
    var w1 := w.(handlers := w.handlers[h0 := Handler(token, p, c, source[c..c + n], 0, Queued)],
                 attempts := w.attempts[a := Attempt(token, p, c, c + n, Some(h0))]);
    PostedRequest(w, a, token, p, n, sources, h0, spare, w1);
    var middle, w2 := RunsThrough(w1, h0, spare, p, sources);
    ExtendsPrefix(Part(w, p), source, n);
    w' := DoReply(w2, a);
    AfterReply(w, w1, w2, w', a, token, p, n, source, h0, spare);
    events := RequestAndReply(w, w1, w2, w', a, h0, n, middle, sources);
  }

  lemma UndisturbedTwice(w: World, w1: World, w2: World, token: Id, p: Path)
    requires token in w.sessions && Undisturbed(w, w1, token, p) && Undisturbed(w1, w2, token, p)
    ensures Undisturbed(w, w2, token, p)
  {
  }

  /** Chunk by chunk, in chunks of this size, the part becomes the source. */
  lemma {:induction false} AllChunks(w: World, a: nat, token: Id, p: Path, size: nat, h0: nat, spare: nat,
                                     sources: Network.Sources)
    returns (events: seq<Event>, w': World)
    requires p in sources && size > 0 && Ready(w, a, token, p, sources[p], h0, spare)
    ensures Leads(w, events, w', sources) && Undisturbed(w, w', token, p) && Part(w', p) == sources[p]
    ensures a in w'.attempts && w'.attempts[a].cursor == |sources[p]|
    ensures p in w.links || Part(w, p) != sources[p] ==> p in w'.links && w'.links[p] in w'.bodies
    decreases |sources[p]| - |Part(w, p)|
  {
    var source := sources[p];
    var left := |source| - |Part(w, p)|;
    if left == 0 {
      assert Part(w, p) == source[..|Part(w, p)|];
      events, w' := [], w;
    } else {
      var e1, w1 := OneChunk(w, a, token, p, if size < left then size else left, h0, spare, sources);
      var e2, w2 := AllChunks(w1, a, token, p, size, h0 + 1, spare + 1, sources);
      StepsJoin(w, e1, w1, e2, w2, sources);
      UndisturbedTwice(w, w1, w2, token, p);
      events, w' := e1 + e2, w2;
    }
  }

  // ----- The whole transfer -----

  /** A finish request that has entered makes the part of an empty file and finds it whole. */
  lemma CreateAndCheck(w: World, f: nat, p: Path, spare: nat, sources: Network.Sources)
    returns (events: seq<Event>, w': World)
    requires InStage(w, f, Entered) && w.finishers[f].path == p && p !in w.links && p in sources && sources[p] == []
    requires spare !in w.bodies && spare !in w.homes
    ensures Leads(w, events, w', sources) && w' == AtStage(WithNewBody(w, p, spare), f, Checked(spare))
  {
    var w1 := WithNewBody(w, p, spare);
    w' := DoCheck(w1, f);
    OneStep(w1, Check(f), [], w', sources);
    OneStep(w, Create(f, spare), [Check(f)] + [], w', sources);
    events := [Create(f, spare)] + ([Check(f)] + []);
  }

  lemma EnterAndCreate(w: World, f: nat, token: Id, p: Path, spare: nat, sources: Network.Sources)
    returns (events: seq<Event>, w': World)
    requires CanEnter(w, f, token, p, sources) && p !in w.links && sources[p] == []
    requires spare !in w.bodies && spare !in w.homes
    ensures Leads(w, events, w', sources)
    ensures w' == WithNewBody(w, p, spare).(finishers := w.finishers[f := Finisher(token, p, Checked(spare))])
  {
    var w1 := DoEnter(w, f, token, p);
    events, w' := CreateAndCheck(w1, f, p, spare, sources);
    OneStep(w, Enter(f, token, p), events, w', sources);
    events := [Enter(f, token, p)] + events;
    assert w'.finishers == w.finishers[f := Finisher(token, p, Checked(spare))];
  }

  /** A finish request past its check commits what it found and notes the file as done. */
  lemma CommitRun(w: World, f: nat, token: Id, p: Path, dest: Path, body: nat, sources: Network.Sources)
    returns (events: seq<Event>, w': World)
    requires InStage(w, f, Checked(body)) && w.finishers[f].path == p && w.finishers[f].token == token
    requires token in w.sessions && p in w.links && w.links[p] in w.bodies && p in sources && Part(w, p) == sources[p]
    requires dest !in w.links && dest !in sources
    ensures Leads(w, events, w', sources)
    ensures dest in w'.links && Part(w', dest) == sources[p] && p !in w'.links
    ensures token in w'.sessions && IsDone(w'.sessions[token], p, sources)
  {
    var e1, w1 := LinkAndTidy(w, f, p, dest, sources);
    w' := DoComplete(w1, f, sources);
    OneStep(w1, Complete(f), [], w', sources);
    StepsJoin(w, e1, w1, [Complete(f)] + [], w', sources);
    events := e1 + ([Complete(f)] + []);
  }

  /** The finish request of a file that is all there. */
  lemma FinishRun(w: World, f: nat, token: Id, p: Path, dest: Path, sources: Network.Sources)
    returns (events: seq<Event>, w': World)
    requires CanEnter(w, f, token, p, sources) && p in w.links && w.links[p] in w.bodies && Part(w, p) == sources[p]
    requires dest !in w.links && dest !in sources
    ensures Leads(w, events, w', sources)
    ensures dest in w'.links && Part(w', dest) == sources[p] && p !in w'.links
    ensures token in w'.sessions && IsDone(w'.sessions[token], p, sources)
  {
    var e1, w1 := EnterAndCheck(w, f, token, p, sources);
    var e2, w2 := CommitRun(w1, f, token, p, dest, w.links[p], sources);
    StepsJoin(w, e1, w1, e2, w2, sources);
    events, w' := e1 + e2, w2;
  }

  /** The finish request of an empty file that has no part yet. */
  lemma EmptyFinishRun(w: World, f: nat, token: Id, p: Path, dest: Path, spare: nat, sources: Network.Sources)
    returns (events: seq<Event>, w': World)
    requires CanEnter(w, f, token, p, sources) && p !in w.links && sources[p] == []
    requires dest !in w.links && dest !in sources && spare !in w.bodies && spare !in w.homes
    ensures Leads(w, events, w', sources)
    ensures dest in w'.links && Part(w', dest) == sources[p] && p !in w'.links
    ensures token in w'.sessions && IsDone(w'.sessions[token], p, sources)
  {
    var e1, w1 := EnterAndCreate(w, f, token, p, spare, sources);
    var e2, w2 := CommitRun(w1, f, token, p, dest, spare, sources);
    StepsJoin(w, e1, w1, e2, w2, sources);
    events, w' := e1 + e2, w2;
  }

  /** From every state in which a live session has a file whose part is a beginning of its source, however long, a
      sender that nobody disturbs gets the file saved: it asks for the length, sends the rest in chunks of any size,
      and has it committed under any free name. */
  lemma TransferDelivers(w: World, a: nat, token: Id, p: Path, size: nat, h0: nat, spare: nat, f: nat, dest: Path,
                         sources: Network.Sources)
    returns (events: seq<Event>)
    requires token in w.sessions && !w.sessions[token].cancelled && p in w.sessions[token].paths && p in sources
    requires Part(w, p) <= sources[p] && (p in w.links ==> w.links[p] in w.bodies) && size > 0
    requires a !in w.attempts && f !in w.finishers && dest !in w.links && dest !in sources
    requires (forall h :: h in w.handlers ==> h < h0) && (forall b :: b in w.bodies || b in w.homes ==> b < spare)
    ensures IsRun(w, events, sources)
    ensures var w' := Exec(w, events, sources);
            && dest in w'.links && Part(w', dest) == sources[p] && p !in w'.links
            && token in w'.sessions && IsDone(w'.sessions[token], p, sources)
  {
    var w1 := DoAsk(w, a, token, p);
    assert Part(w1, p) == Part(w, p);
    var e2, w2, w3;
    if p in w.links || sources[p] != [] {
      e2, w2 := AllChunks(w1, a, token, p, size, h0, spare, sources);
      var e3;
      e3, w3 := FinishRun(w2, f, token, p, dest, sources);
      StepsJoin(w1, e2, w2, e3, w3, sources);
      e2 := e2 + e3;
    } else {
      e2, w3 := EmptyFinishRun(w1, f, token, p, dest, spare, sources);
    }
    OneStep(w, Ask(a, token, p), e2, w3, sources);
    events := [Ask(a, token, p)] + e2;
  }

  /** And before that a session is made for it, whoever else has sessions. */
  lemma NewSessionDelivers(w: World, a: nat, token: Id, paths: set<Path>, p: Path, size: nat, h0: nat, spare: nat, f: nat,
                           dest: Path, sources: Network.Sources)
    returns (events: seq<Event>)
    requires token !in w.sessions && paths <= sources.Keys && p in paths
    requires Part(w, p) <= sources[p] && (p in w.links ==> w.links[p] in w.bodies) && size > 0
    requires a !in w.attempts && f !in w.finishers && dest !in w.links && dest !in sources
    requires (forall h :: h in w.handlers ==> h < h0) && (forall b :: b in w.bodies || b in w.homes ==> b < spare)
    ensures IsRun(w, [Accept(token, paths)] + events, sources)
    ensures var w' := Exec(w, [Accept(token, paths)] + events, sources);
            dest in w'.links && Part(w', dest) == sources[p] && p !in w'.links
  {
    var w1 := DoAccept(w, token, paths);
    assert Part(w1, p) == Part(w, p);
    events := TransferDelivers(w1, a, token, p, size, h0, spare, f, dest, sources);
    OneStep(w, Accept(token, paths), events, Exec(w1, events, sources), sources);
  }
}
