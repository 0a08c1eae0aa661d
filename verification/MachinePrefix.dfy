/** The part file before any cancel or commit of it: a growing prefix of its source, in every run. */
module MachinePrefix {
  import opened Wrappers
  import opened Octets
  import opened Names
  import opened Receiver
  import opened Machine
  import opened MachineCursor
  import Network

  /** A handler of the part carries a piece of the source that starts where the part already reaches,
      and what it has written so far is there. */
  ghost predicate GoodHandler(links: map<Path, nat>, h: Handler, part: seq<Octet>, source: seq<Octet>) {
    && h.offset + |h.data| <= |source| && h.data == source[h.offset..h.offset + |h.data|]
    && h.offset <= |part| && h.written <= |h.data| && (h.phase.Queued? || h.phase.Begun? ==> h.written == 0)
    && (h.phase.Opened? ==> h.path in links && h.phase.body == links[h.path] && h.offset + h.written <= |part|)
    && (h.phase.Closed? || h.phase.Answered? ==> h.offset + |h.data| <= |part|)
  }

  /** The requests of live sessions on this part are in order; those of cancelled ones no longer count. */
  ghost predicate GoodHandlers(w: World, p: Path, source: seq<Octet>) {
    forall h :: h in w.handlers && w.handlers[h].path == p && !IsCancelled(w, w.handlers[h].token) ==>
      GoodHandler(w.links, w.handlers[h], Part(w, p), source)
  }

  /** An attempt's cursor is no further than the part reaches, and is where its request starts. */
  ghost predicate GoodAttempt(w: World, a: Attempt) {
    && a.cursor <= |Part(w, a.path)|
    && (a.waiting.Some? ==>
          && a.waiting.value in w.handlers && w.handlers[a.waiting.value].path == a.path
          && w.handlers[a.waiting.value].token == a.token && w.handlers[a.waiting.value].offset == a.cursor)
  }

  ghost predicate GoodAttempts(w: World, p: Path) {
    forall a :: a in w.attempts && w.attempts[a].path == p && !IsCancelled(w, w.attempts[a].token) ==>
      GoodAttempt(w, w.attempts[a])
  }

  /** A request or attempt on this part belongs to a session that has it. */
  ghost predicate Belongs(w: World, token: Id, p: Path) {
    token in w.sessions && p in w.sessions[token].paths
  }

  /** No cancel has yet to delete this part, nobody asks to commit it, and of a cancelled session no handler
      is past its first check on it. A cancel that is over leaves no trace here. */
  ghost predicate Untouched(w: World, p: Path) {
    && (forall t :: t in w.sessions ==> p !in w.sessions[t].doomed)
    && (forall f :: f in w.finishers ==> w.finishers[f].path != p)
    && (forall h :: h in w.handlers && w.handlers[h].path == p ==>
          Belongs(w, w.handlers[h].token, p) && (IsCancelled(w, w.handlers[h].token) ==> !InFlight(w.handlers[h].phase)))
    && (forall a :: a in w.attempts && w.attempts[a].path == p ==> Belongs(w, w.attempts[a].token, p))
  }

  /** Open and linked bodies exist, and the body of the part belongs to it alone. */
  ghost predicate Separate(w: World, p: Path) {
    && (forall q :: q in w.links ==> w.links[q] in w.bodies)
    && (forall h :: h in w.handlers && w.handlers[h].phase.Opened? ==> w.handlers[h].phase.body in w.bodies)
    && (p in w.links ==>
          && (forall q :: q in w.links && q != p ==> w.links[q] != w.links[p])
          && (forall h :: h in w.handlers && w.handlers[h].path != p ==> w.handlers[h].phase != Opened(w.links[p])))
  }

  ghost predicate Steady(w: World, p: Path, source: seq<Octet>) {
    Part(w, p) <= source && Untouched(w, p) && Separate(w, p) && GoodHandlers(w, p, source) && GoodAttempts(w, p)
  }

  /** A part file at rest is steady: a prefix of its source that nobody works on yet. */
  lemma AtRestIsSteady(w: World, p: Path, source: seq<Octet>)
    requires Part(w, p) <= source && Separate(w, p)
    requires w.handlers == map[] && w.attempts == map[] && w.finishers == map[]
    requires forall t :: t in w.sessions ==> p !in w.sessions[t].doomed
    ensures Steady(w, p, source)
  {
  }

  /** After a cancel that is over, the part is steady again for whatever source is sent next under its name,
      by whichever live session has it, however many late requests and attempts of cancelled sessions there
      still are. */
  lemma CancelledPartStartsOver(w: World, p: Path, source: seq<Octet>)
    requires p !in w.links && Separate(w, p)
    requires forall t :: t in w.sessions ==> p !in w.sessions[t].doomed
    requires forall h :: h in w.handlers && w.handlers[h].path == p ==>
               Belongs(w, w.handlers[h].token, p) && IsCancelled(w, w.handlers[h].token) && !InFlight(w.handlers[h].phase)
    requires forall a :: a in w.attempts && w.attempts[a].path == p ==>
               Belongs(w, w.attempts[a].token, p) && IsCancelled(w, w.attempts[a].token)
    requires forall f :: f in w.finishers ==> w.finishers[f].path != p
    ensures Steady(w, p, source)
  {
  }

  ghost predicate Grows(w: World, w': World, p: Path, source: seq<Octet>) {
    Steady(w', p, source) && Part(w, p) <= Part(w', p)
  }

  // ----- One step -----

  /** A step that keeps the other handlers and lets the part grow keeps everybody in order. */
  lemma OthersStayGood(w: World, w': World, changed: nat, p: Path, source: seq<Octet>)
    requires GoodHandlers(w, p, source) && GoodAttempts(w, p)
    requires w'.sessions == w.sessions && w'.attempts == w.attempts && |Part(w, p)| <= |Part(w', p)|
    requires p in w.links ==> p in w'.links && w'.links[p] == w.links[p]
    requires changed in w.handlers && changed in w'.handlers && w'.handlers == w.handlers[changed := w'.handlers[changed]]
    requires w'.handlers[changed].path == w.handlers[changed].path
             && w'.handlers[changed].offset == w.handlers[changed].offset
             && w'.handlers[changed].token == w.handlers[changed].token
    requires w'.handlers[changed].path == p && !IsCancelled(w, w.handlers[changed].token) ==>
               GoodHandler(w'.links, w'.handlers[changed], Part(w', p), source)
    ensures GoodHandlers(w', p, source) && GoodAttempts(w', p)
  {
    forall h | h in w'.handlers && w'.handlers[h].path == p && !IsCancelled(w', w'.handlers[h].token)
      ensures GoodHandler(w'.links, w'.handlers[h], Part(w', p), source)
    {
      if h != changed {
        assert GoodHandler(w.links, w.handlers[h], Part(w, p), source);
      }
    }
    forall a | a in w'.attempts && w'.attempts[a].path == p && !IsCancelled(w', w'.attempts[a].token)
      ensures GoodAttempt(w', w'.attempts[a])
    {
      assert GoodAttempt(w, w.attempts[a]);
    }
  }

  /** A handler whose handle is the part's writes to the part. */
  lemma WrittenPart(w: World, h: nat, n: nat, p: Path)
    requires CanWrite(w, h, n) && p in w.links && w.handlers[h].phase.body == w.links[p]
    ensures var job := w.handlers[h];
            Part(DoWrite(w, h, n), p) == WriteAt(Part(w, p), job.offset + job.written,
                                                 job.data[job.written..job.written + n])
  {
  }

  /** A further piece of a good handler's data makes the part grow along the source. */
  lemma WrittenIsGood(links: map<Path, nat>, job: Handler, n: nat, part: seq<Octet>, after: seq<Octet>, source: seq<Octet>)
    requires GoodHandler(links, job, part, source) && part <= source && job.phase.Opened? && job.written + n <= |job.data|
    requires after == WriteAt(part, job.offset + job.written, job.data[job.written..job.written + n])
    ensures part <= after <= source && GoodHandler(links, job.(written := job.written + n), after, source)
  {
    PieceKeepsPrefix(part, source, job.offset, job.data, job.written, n, after);
  }

  /** A handler that writes to this part is in order, and its handle is the part's. */
  lemma WriterIsGood(w: World, h: nat, n: nat, p: Path, source: seq<Octet>)
    requires CanWrite(w, h, n) && Steady(w, p, source) && w.handlers[h].path == p
    ensures GoodHandler(w.links, w.handlers[h], Part(w, p), source) && Part(w, p) <= source
  {
  }

  lemma GoodWrite(w: World, h: nat, n: nat, p: Path, part: seq<Octet>, source: seq<Octet>)
    requires CanWrite(w, h, n) && w.handlers[h].path == p && part == Part(w, p) && part <= source
    requires GoodHandler(w.links, w.handlers[h], part, source)
    ensures var w' := DoWrite(w, h, n);
            && part <= Part(w', p) <= source
            && GoodHandler(w'.links, w'.handlers[h], Part(w', p), source)
  {
    WrittenPart(w, h, n, p);
    WrittenIsGood(w.links, w.handlers[h], n, part, Part(DoWrite(w, h, n), p), source);
  }

  /** A write of the handler of this part: the part grows along the source. */
  lemma OwnWrite(w: World, h: nat, n: nat, p: Path, source: seq<Octet>)
    requires CanWrite(w, h, n) && Steady(w, p, source) && w.handlers[h].path == p
    ensures var w' := DoWrite(w, h, n);
            && Part(w, p) <= Part(w', p) <= source
            && GoodHandler(w'.links, w'.handlers[h], Part(w', p), source)
  {
    WriterIsGood(w, h, n, p, source);
    GoodWrite(w, h, n, p, Part(w, p), source);
  }

  lemma WriteStep(w: World, h: nat, n: nat, p: Path, source: seq<Octet>)
    requires CanWrite(w, h, n) && Steady(w, p, source)
    ensures Grows(w, DoWrite(w, h, n), p, source)
  {
    var w' := DoWrite(w, h, n);
    if w.handlers[h].path == p {
      OwnWrite(w, h, n, p, source);
    } else {
      assert Part(w', p) == Part(w, p);
    }
    OthersStayGood(w, w', h, p, source);
    assert w'.bodies.Keys == w.bodies.Keys;
    assert Separate(w', p);
  }

  /** Opening a part that is there. */
  lemma OpenThere(w: World, h: nat, p: Path, source: seq<Octet>)
    requires InPhase(w, h, Begun) && Steady(w, p, source) && w.handlers[h].path in w.links
    ensures Grows(w, To(w, h, Opened(w.links[w.handlers[h].path])), p, source)
  {
    var w' := To(w, h, Opened(w.links[w.handlers[h].path]));
    assert Part(w', p) == Part(w, p);
    if w.handlers[h].path == p && !IsCancelled(w, w.handlers[h].token) {
      assert GoodHandler(w.links, w.handlers[h], Part(w, p), source);
    }
    OthersStayGood(w, w', h, p, source);
  }

  /** A new empty body under a name nobody has. */
  lemma NewBody(w: World, q: Path, spare: nat, p: Path, source: seq<Octet>)
    requires q !in w.links && spare !in w.bodies && Steady(w, p, source)
    ensures Grows(w, WithNewBody(w, q, spare), p, source)
  {
    var w' := WithNewBody(w, q, spare);
    assert Part(w', p) == Part(w, p);
    forall h | h in w'.handlers && w'.handlers[h].path == p && !IsCancelled(w', w'.handlers[h].token)
      ensures GoodHandler(w'.links, w'.handlers[h], Part(w', p), source)
    {
      assert GoodHandler(w.links, w.handlers[h], Part(w, p), source);
    }
    forall a | a in w'.attempts && w'.attempts[a].path == p && !IsCancelled(w', w'.attempts[a].token)
      ensures GoodAttempt(w', w'.attempts[a])
    {
      assert GoodAttempt(w, w.attempts[a]);
    }
  }

  lemma OpenStep(w: World, h: nat, spare: nat, p: Path, source: seq<Octet>)
    requires CanOpen(w, h, spare) && Steady(w, p, source)
    ensures Grows(w, DoOpen(w, h, spare), p, source)
  {
    var q := w.handlers[h].path;
    if q in w.links {
      OpenThere(w, h, p, source);
    } else {
      NewBody(w, q, spare, p, source);
      OpenThere(WithNewBody(w, q, spare), h, p, source);
    }
  }

  /** Getting on like this keeps a good handler good. */
  predicate GetsOn(job: Handler, phase: Phase) {
    && !phase.Opened? && (phase.Queued? || phase.Begun? ==> job.phase.Queued?)
    && (phase.Closed? ==> job.phase.Opened? && job.written == |job.data|)
    && (phase.Answered? ==> job.phase.Closed?)
  }

  lemma PhaseIsGood(links: map<Path, nat>, job: Handler, phase: Phase, part: seq<Octet>, source: seq<Octet>)
    requires GoodHandler(links, job, part, source) && GetsOn(job, phase)
    ensures GoodHandler(links, job.(phase := phase), part, source)
  {
  }

  /** A request gets on without touching the files. */
  lemma PhaseStep(w: World, h: nat, phase: Phase, p: Path, source: seq<Octet>)
    requires h in w.handlers && Steady(w, p, source) && GetsOn(w.handlers[h], phase)
    requires InFlight(phase) ==> !IsCancelled(w, w.handlers[h].token) || InFlight(w.handlers[h].phase)
    ensures Grows(w, To(w, h, phase), p, source)
  {
    var w' := To(w, h, phase);
    assert Part(w', p) == Part(w, p);
    if w.handlers[h].path == p && !IsCancelled(w, w.handlers[h].token) {
      PhaseIsGood(w.links, w.handlers[h], phase, Part(w, p), source);
    }
    OthersStayGood(w, w', h, p, source);
  }

  /** Names other than the part's come and go. */
  lemma LinkStep(w: World, w': World, p: Path, source: seq<Octet>)
    requires Steady(w, p, source)
    requires w'.bodies == w.bodies && w'.handlers == w.handlers && w'.attempts == w.attempts
    requires p in w'.links <==> p in w.links
    requires p in w.links ==> w'.links[p] == w.links[p]
    requires forall q :: q in w'.links && q != p ==>
               w'.links[q] in w.bodies && (p in w.links ==> w'.links[q] != w.links[p])
    requires Untouched(w', p)
    requires forall t :: t in w.sessions && p in w.sessions[t].paths ==>
               t in w'.sessions && (w.sessions[t].cancelled ==> w'.sessions[t].cancelled)
    ensures Grows(w, w', p, source)
  {
    assert Part(w', p) == Part(w, p);
    assert p in w'.links ==> w'.links[p] in w.bodies;
    forall h | h in w'.handlers && w'.handlers[h].path == p && !IsCancelled(w', w'.handlers[h].token)
      ensures GoodHandler(w'.links, w'.handlers[h], Part(w', p), source)
    {
      assert GoodHandler(w.links, w.handlers[h], Part(w, p), source);
    }
    forall a | a in w'.attempts && w'.attempts[a].path == p && !IsCancelled(w', w'.attempts[a].token)
      ensures GoodAttempt(w', w'.attempts[a])
    {
      assert GoodAttempt(w, w.attempts[a]);
    }
  }

  /** One session notes bytes or settles; if it has the part and was cancelled, it stays so. */
  lemma NoteStep(w: World, t: Id, s: Held, p: Path, source: seq<Octet>)
    requires Steady(w, p, source) && t in w.sessions
    requires s.paths == w.sessions[t].paths && p !in s.doomed
    requires (s.cancelled ==> w.sessions[t].cancelled) && (p in s.paths && w.sessions[t].cancelled ==> s.cancelled)
    ensures Grows(w, w.(sessions := w.sessions[t := s]), p, source)
  {
    LinkStep(w, w.(sessions := w.sessions[t := s]), p, source);
  }

  lemma WithNoteStep(w: World, t: Id, q: Path, n: nat, p: Path, source: seq<Octet>)
    requires Steady(w, p, source)
    ensures Grows(w, WithNote(w, t, q, n), p, source) && Part(WithNote(w, t, q, n), p) == Part(w, p)
  {
    if t in w.sessions {
      NoteStep(w, t, Noted(w.sessions[t], q, n), p, source);
    }
  }

  /** The last check of a handler of a live session, with whatever it notes. */
  lemma AnswerStep(w: World, h: nat, t: Id, q: Path, n: nat, p: Path, source: seq<Octet>)
    requires InPhase(w, h, Closed) && Steady(w, p, source)
    ensures Steady(WithNote(To(w, h, Answered), t, q, n), p, source)
    ensures Part(WithNote(To(w, h, Answered), t, q, n), p) == Part(w, p)
  {
    PhaseStep(w, h, Answered, p, source);
    WithNoteStep(To(w, h, Answered), t, q, n, p, source);
  }

  /** The name of another part goes, or that of a part that is not there. */
  lemma UnlinkStep(w: World, q: Path, refused: bool, p: Path, source: seq<Octet>)
    requires Steady(w, p, source) && q != p
    ensures Grows(w, Unlink(w, q, refused), p, source) && Part(Unlink(w, q, refused), p) == Part(w, p)
  {
    LinkStep(w, Unlink(w, q, refused), p, source);
  }

  lemma TurnStep(w: World, h: nat, q: Path, refused: bool, p: Path, source: seq<Octet>)
    requires h in w.handlers && Steady(w, p, source) && q != p
    ensures Steady(Unlink(To(w, h, Turned), q, refused), p, source)
    ensures Part(Unlink(To(w, h, Turned), q, refused), p) == Part(w, p)
  {
    PhaseStep(w, h, Turned, p, source);
    UnlinkStep(To(w, h, Turned), q, refused, p, source);
  }

  lemma EndNotes(w: World, h: nat, refused: bool) returns (t: Id, q: Path, n: nat)
    requires CanEnd(w, h, refused) && !IsCancelled(w, w.handlers[h].token)
    ensures DoEnd(w, h, refused) == WithNote(To(w, h, Answered), t, q, n)
  {
    var job := w.handlers[h];
    t, q, n := job.token, job.path, job.offset + job.written;
  }

  /** The last check of a handler of a cancelled session: the part is not this one. */
  lemma EndUnlinks(w: World, h: nat, refused: bool, p: Path, source: seq<Octet>) returns (q: Path)
    requires CanEnd(w, h, refused) && IsCancelled(w, w.handlers[h].token) && Untouched(w, p)
    ensures DoEnd(w, h, refused) == Unlink(To(w, h, Turned), q, refused) && q != p
  {
    q := w.handlers[h].path;
  }

  lemma EndStep(w: World, h: nat, refused: bool, p: Path, source: seq<Octet>)
    requires CanEnd(w, h, refused) && Steady(w, p, source)
    ensures Grows(w, DoEnd(w, h, refused), p, source)
  {
    if IsCancelled(w, w.handlers[h].token) {
      var q := EndUnlinks(w, h, refused, p, source);
      TurnStep(w, h, q, refused, p, source);
    } else {
      var t, q, n := EndNotes(w, h, refused);
      AnswerStep(w, h, t, q, n, p, source);
    }
  }

  /** The request an attempt posts is in order: it starts where the attempt stands. */
  lemma PostedIsGood(w: World, a: nat, h: nat, length: nat, p: Path, sources: Network.Sources)
    requires CanPost(w, a, h, length, sources) && p in sources && Steady(w, p, sources[p]) && InStep(w)
    requires w.attempts[a].path == p && !IsCancelled(w, w.attempts[a].token)
    ensures GoodHandler(w.links, DoPost(w, a, h, length, sources).handlers[h], Part(w, p), sources[p])
  {
    assert IsInStep(w.attempts[a], w.handlers) && GoodAttempt(w, w.attempts[a]);
  }

  lemma PostedStayGood(w: World, a: nat, h: nat, length: nat, p: Path, sources: Network.Sources, w': World)
    requires CanPost(w, a, h, length, sources) && p in sources && Steady(w, p, sources[p]) && InStep(w)
    requires w' == DoPost(w, a, h, length, sources)
    ensures GoodHandlers(w', p, sources[p])
  {
    forall k | k in w'.handlers && w'.handlers[k].path == p && !IsCancelled(w', w'.handlers[k].token)
      ensures GoodHandler(w'.links, w'.handlers[k], Part(w', p), sources[p])
    {
      if k == h {
        PostedIsGood(w, a, h, length, p, sources);
      } else {
        assert GoodHandler(w.links, w.handlers[k], Part(w, p), sources[p]);
      }
    }
  }

  lemma PostersStayGood(w: World, a: nat, h: nat, length: nat, p: Path, sources: Network.Sources, w': World)
    requires CanPost(w, a, h, length, sources) && p in sources && GoodAttempts(w, p)
    requires w' == DoPost(w, a, h, length, sources)
    ensures GoodAttempts(w', p)
  {
    forall b | b in w'.attempts && w'.attempts[b].path == p && !IsCancelled(w', w'.attempts[b].token)
      ensures GoodAttempt(w', w'.attempts[b])
    {
      assert GoodAttempt(w, w.attempts[b]);
    }
  }

  lemma PostStep(w: World, a: nat, h: nat, length: nat, p: Path, sources: Network.Sources)
    requires CanPost(w, a, h, length, sources) && p in sources && Steady(w, p, sources[p]) && InStep(w)
    ensures Grows(w, DoPost(w, a, h, length, sources), p, sources[p])
  {
    var w' := DoPost(w, a, h, length, sources);
    PostedStayGood(w, a, h, length, p, sources, w');
    PostersStayGood(w, a, h, length, p, sources, w');
    assert Part(w', p) == Part(w, p);
  }

  /** An attempt starts, moves on or ends. */
  lemma AttemptStep(w: World, w': World, p: Path, source: seq<Octet>)
    requires Steady(w, p, source) && w' == w.(attempts := w'.attempts)
    requires forall a :: a in w'.attempts && w'.attempts[a].path == p
                           && (a !in w.attempts || w'.attempts[a] != w.attempts[a]) ==>
               && Belongs(w, w'.attempts[a].token, p)
               && (!IsCancelled(w, w'.attempts[a].token) ==> GoodAttempt(w, w'.attempts[a]))
    ensures Grows(w, w', p, source)
  {
    assert Part(w', p) == Part(w, p);
    forall a | a in w'.attempts && w'.attempts[a].path == p && !IsCancelled(w', w'.attempts[a].token)
      ensures GoodAttempt(w', w'.attempts[a])
    {
      assert GoodAttempt(w, w'.attempts[a]);
    }
  }

  lemma ReplyStep(w: World, a: nat, p: Path, source: seq<Octet>)
    requires CanReply(w, a) && Steady(w, p, source)
    ensures Grows(w, DoReply(w, a), p, source)
  {
    if w.attempts[a].path == p && !IsCancelled(w, w.attempts[a].token) {
      assert GoodAttempt(w, w.attempts[a]);
      assert GoodHandler(w.links, w.handlers[w.attempts[a].waiting.value], Part(w, p), source);
    }
    AttemptStep(w, DoReply(w, a), p, source);
  }

  /** Events that neither cancel a live session of the part, nor ask to commit the part, nor make a cancelled
      session of it live again. */
  ghost predicate Quiet(w: World, e: Event, p: Path, sources: Network.Sources) {
    match e
    case Mark(token) => token in w.sessions ==> p !in w.sessions[token].paths || w.sessions[token].cancelled
    case Enter(_, _, q) => q != p
    case Complete(f) =>
      f in w.finishers && Belongs(w, w.finishers[f].token, p) ==> !Revives(w, f, w.finishers[f].token, sources)
    case _ => true
  }

  /** A session of other parts is cancelled, or one is cancelled again. */
  lemma MarkStep(w: World, token: Id, p: Path, source: seq<Octet>)
    requires token in w.sessions && (p !in w.sessions[token].paths || w.sessions[token].cancelled) && Steady(w, p, source)
    ensures Grows(w, DoMark(w, token), p, source)
  {
    LinkStep(w, DoMark(w, token), p, source);
  }

  /** A cancel deletes another part. */
  lemma DeleteStep(w: World, token: Id, q: Path, refused: bool, p: Path, source: seq<Octet>)
    requires CanDelete(w, token, q, refused) && Steady(w, p, source)
    ensures Grows(w, DoDelete(w, token, q, refused), p, source)
  {
    var s := w.sessions[token].(doomed := w.sessions[token].doomed - multiset{q});
    NoteStep(w, token, s, p, source);
    UnlinkStep(w.(sessions := w.sessions[token := s]), q, refused, p, source);
  }

  lemma AcceptStep(w: World, token: Id, paths: set<Path>, p: Path, source: seq<Octet>)
    requires token !in w.sessions && Steady(w, p, source)
    ensures Grows(w, DoAccept(w, token, paths), p, source)
  {
    LinkStep(w, DoAccept(w, token, paths), p, source);
  }

  /** Another part is being committed. */
  lemma LinkOther(w: World, g: nat, dest: Path, p: Path, source: seq<Octet>, sources: Network.Sources)
    requires CanLink(w, g, dest, sources) && p in sources && Steady(w, p, source)
    ensures Grows(w, DoLink(w, g, dest), p, source)
  {
    assert dest != p && w.finishers[g].path != p;
    LinkStep(w, DoLink(w, g, dest), p, source);
  }

  lemma TidyOther(w: World, g: nat, refused: bool, p: Path, source: seq<Octet>)
    requires CanTidy(w, g, refused) && Steady(w, p, source)
    ensures Grows(w, DoTidy(w, g, refused), p, source)
  {
    assert w.finishers[g].path != p;
    LinkStep(w, DoTidy(w, g, refused), p, source);
  }

  /** Finish requests of other parts come, get on and go. */
  lemma FinisherStep(w: World, w': World, p: Path, source: seq<Octet>)
    requires Steady(w, p, source) && w' == w.(finishers := w'.finishers)
    requires forall f :: f in w'.finishers ==> w'.finishers[f].path != p
    ensures Grows(w, w', p, source)
  {
    LinkStep(w, w', p, source);
  }

  /** Another file is done: no cancelled session of the part is live again. */
  lemma CompleteOther(w: World, g: nat, p: Path, source: seq<Octet>, sources: Network.Sources)
    requires InStage(w, g, Tidied) && Steady(w, p, source) && Quiet(w, Complete(g), p, sources)
    ensures Grows(w, DoComplete(w, g, sources), p, source)
  {
    var w1 := w.(finishers := w.finishers - {g});
    FinisherStep(w, w1, p, source);
    var Finisher(t, q, _) := w.finishers[g];
    if t in w.sessions {
      NoteStep(w1, t, Settled(Noted(w.sessions[t], q, SizeOf(q, sources)), sources), p, source);
    }
  }

  lemma CommitStep(w: World, e: Event, p: Path, sources: Network.Sources)
    requires Enabled(w, e, sources) && p in sources && Steady(w, p, sources[p]) && Quiet(w, e, p, sources)
    requires TouchesFinishers(e)
    ensures Grows(w, Apply(w, e, sources), p, sources[p])
  {
    match e
    case Enter(g, token, q) => FinisherStep(w, DoEnter(w, g, token, q), p, sources[p]);
    case Check(g) => FinisherStep(w, DoCheck(w, g), p, sources[p]);
    case Link(g, dest) => LinkOther(w, g, dest, p, sources[p], sources);
    case Tidy(g, refused) => TidyOther(w, g, refused, p, sources[p]);
    case Complete(g) => CompleteOther(w, g, p, sources[p], sources);
    case Quit(g) => FinisherStep(w, w.(finishers := w.finishers - {g}), p, sources[p]);
  }

  lemma HandlerStep(w: World, e: Event, p: Path, sources: Network.Sources)
    requires Enabled(w, e, sources) && p in sources && Steady(w, p, sources[p]) && InStep(w)
    requires TouchesHandlers(e)
    ensures Grows(w, Apply(w, e, sources), p, sources[p])
  {
    match e
    case Post(a, h, length) => PostStep(w, a, h, length, p, sources);
    case Begin(h) => PhaseStep(w, h, if IsCancelled(w, w.handlers[h].token) then Turned else Begun, p, sources[p]);
    case Open(h, spare) => OpenStep(w, h, spare, p, sources[p]);
    case Write(h, n) => WriteStep(w, h, n, p, sources[p]);
    case Close(h) => PhaseStep(w, h, Closed, p, sources[p]);
    case End(h, refused) => EndStep(w, h, refused, p, sources[p]);
    case Fail(h) => PhaseStep(w, h, Failed, p, sources[p]);
  }

  lemma SessionStep(w: World, e: Event, p: Path, sources: Network.Sources)
    requires Enabled(w, e, sources) && p in sources && Steady(w, p, sources[p]) && Quiet(w, e, p, sources)
    requires e.Ask? || e.Reply? || e.GiveUp? || e.Mark? || e.Delete? || e.Accept?
    ensures Grows(w, Apply(w, e, sources), p, sources[p])
  {
    match e
    case Ask(a, token, q) => AttemptStep(w, DoAsk(w, a, token, q), p, sources[p]);
    case Reply(a) => ReplyStep(w, a, p, sources[p]);
    case GiveUp(a) => AttemptStep(w, w.(attempts := w.attempts - {a}), p, sources[p]);
    case Mark(token) => MarkStep(w, token, p, sources[p]);
    case Delete(token, q, refused) => DeleteStep(w, token, q, refused, p, sources[p]);
    case Accept(token, paths) => AcceptStep(w, token, paths, p, sources[p]);
  }

  /** Every step but a cancel or commit of the part keeps it a prefix of its source, and it only grows. */
  lemma StepKeepsSteady(w: World, e: Event, p: Path, sources: Network.Sources)
    requires Enabled(w, e, sources) && p in sources && Steady(w, p, sources[p]) && InStep(w) && Quiet(w, e, p, sources)
    ensures Grows(w, Apply(w, e, sources), p, sources[p])
  {
    if TouchesHandlers(e) {
      HandlerStep(w, e, p, sources);
    } else if TouchesFinishers(e) {
      CommitStep(w, e, p, sources);
    } else if e.Create? {
      NewBody(w, w.finishers[e.finisher].path, e.spare, p, sources[p]);
    } else {
      SessionStep(w, e, p, sources);
    }
  }

  // ----- Whole runs -----

  ghost predicate QuietRun(w: World, events: seq<Event>, p: Path, sources: Network.Sources)
    requires IsRun(w, events, sources)
    decreases |events|
  {
    events != [] ==> Quiet(w, events[0], p, sources) && QuietRun(Apply(w, events[0], sources), events[1..], p, sources)
  }

  /** In every run of any number of attempts, sessions and half-finished or late requests, until the
      part is cancelled or committed, it is a prefix of its source and never shrinks. */
  lemma {:induction false} PartOnlyGrows(w: World, events: seq<Event>, p: Path, sources: Network.Sources)
    requires p in sources && Steady(w, p, sources[p]) && InStep(w)
    requires IsRun(w, events, sources) && QuietRun(w, events, p, sources)
    ensures Steady(Exec(w, events, sources), p, sources[p])
    ensures Part(w, p) <= Part(Exec(w, events, sources), p) <= sources[p]
    decreases |events|
  {
    if events != [] {
      StepKeepsSteady(w, events[0], p, sources);
      StepKeepsInStep(w, events[0], sources);
      PartOnlyGrows(Apply(w, events[0], sources), events[1..], p, sources);
    }
  }

  /** An attempt whose cursor has come to the end leaves the whole source in the part, and a finish
      request finds it so. */
  lemma FinishedAttemptMeansWhole(w: World, a: nat, p: Path, sources: Network.Sources, f: nat)
    requires p in sources && Steady(w, p, sources[p])
    requires a in w.attempts && w.attempts[a].path == p && w.attempts[a].cursor == |sources[p]|
    requires f !in w.finishers && !IsCancelled(w, w.attempts[a].token)
    ensures Part(w, p) == sources[p]
    ensures CanEnter(w, f, w.attempts[a].token, p, sources)
    ensures sources[p] != [] ==> CanCheck(DoEnter(w, f, w.attempts[a].token, p), f, sources)
  {
    assert GoodAttempt(w, w.attempts[a]);
    assert |Part(w, p)| == |sources[p]|;
  }

  lemma OpenedPart(w: World, h: nat, spare: nat)
    requires CanOpen(w, h, spare)
    requires w.handlers[h].path in w.links ==> w.links[w.handlers[h].path] in w.bodies
    ensures var p, w1 := w.handlers[h].path, DoOpen(w, h, spare);
            && IsOpen(w1, h) && p in w1.links && w1.handlers[h].phase.body == w1.links[p]
            && w1.handlers[h] == w.handlers[h].(phase := Opened(w1.links[p]))
            && Part(w1, p) == Part(w, p)
  {
  }

  /** The first write of a request whose handle is the part's: the piece lands at the request's offset. */
  lemma FirstWrite(w: World, h: nat, n: nat, p: Path, part: seq<Octet>, source: seq<Octet>)
    requires h in w.handlers && w.handlers[h].path == p && w.handlers[h].written == 0
    requires IsOpen(w, h) && p in w.links && w.handlers[h].phase.body == w.links[p] && Part(w, p) == part
    requires var job := w.handlers[h];
             0 < n <= |job.data| && job.offset + |job.data| <= |source|
               && job.data == source[job.offset..job.offset + |job.data|]
    ensures CanWrite(w, h, n)
    ensures var offset := w.handlers[h].offset;
            Part(DoWrite(w, h, n), p) == WriteAt(part, offset, source[offset..offset + n])
  {
    var job := w.handlers[h];
    SliceOfSlice(source, job.offset, job.data, 0, n);
  }

  lemma FirstWriteKeepsPrefixExactly(w: World, h: nat, n: nat, p: Path, offset: nat, part: seq<Octet>, source: seq<Octet>)
    requires h in w.handlers && w.handlers[h].path == p && w.handlers[h].written == 0 && w.handlers[h].offset == offset
    requires IsOpen(w, h) && p in w.links && w.handlers[h].phase.body == w.links[p] && Part(w, p) == part && part <= source
    requires var data := w.handlers[h].data;
             0 < n <= |data| && offset + |data| <= |source| && data == source[offset..offset + |data|]
    ensures CanWrite(w, h, n)
    ensures Part(DoWrite(w, h, n), p) <= source <==> (offset <= |part| || AllZero(source[|part|..offset]))
  {
    FirstWrite(w, h, n, p, part, source);
    WriteKeepsPrefixExactly(part, source, offset, n);
  }

  /** A handler that opens the part and writes a first piece keeps the part a prefix exactly when its
      offset is not past the end, or the gap is zeros in the source too. */
  lemma LateOpenKeepsPrefixExactly(w: World, h: nat, spare: nat, n: nat, p: Path, offset: nat, part: seq<Octet>,
                                   source: seq<Octet>)
    requires CanOpen(w, h, spare) && w.handlers[h].path == p && w.handlers[h].written == 0 && w.handlers[h].offset == offset
    requires p in w.links ==> w.links[p] in w.bodies
    requires Part(w, p) == part && part <= source
    requires var data := w.handlers[h].data;
             0 < n <= |data| && offset + |data| <= |source| && data == source[offset..offset + |data|]
    ensures CanWrite(DoOpen(w, h, spare), h, n)
    ensures Part(DoWrite(DoOpen(w, h, spare), h, n), p) <= source
            <==> (offset <= |part| || AllZero(source[|part|..offset]))
  {
    OpenedPart(w, h, spare);
    FirstWriteKeepsPrefixExactly(DoOpen(w, h, spare), h, n, p, offset, part, source);
  }

  // ----- One handler alone -----

  ghost predicate OnlyWrites(events: seq<Event>, h: nat) {
    forall i :: 0 <= i < |events| ==> events[i].Write? && events[i].handler == h
  }

  /** The state in which handler h has written on up to byte k of its chunk, and nothing else happened. */
  function Wrote(w: World, h: nat, k: nat): World
    requires IsOpen(w, h) && w.handlers[h].written <= k <= |w.handlers[h].data|
  {
    var job := w.handlers[h];
    var body := job.phase.body;
    w.(bodies := w.bodies[body := WriteAt(w.bodies[body], job.offset + job.written, job.data[job.written..k])],
       handlers := w.handlers[h := job.(written := k)])
  }

  lemma WroteOn(w: World, h: nat, n: nat, k: nat)
    requires CanWrite(w, h, n) && w.handlers[h].written + n <= k <= |w.handlers[h].data|
    ensures Wrote(DoWrite(w, h, n), h, k) == Wrote(w, h, k)
  {
    var job := w.handlers[h];
    var body := job.phase.body;
    WriteSlices(w.bodies[body], job.offset, job.data, job.written, job.written + n, k);
    var once, twice := Wrote(w, h, k), Wrote(DoWrite(w, h, n), h, k);
    assert twice.bodies == once.bodies;
    assert twice.handlers == once.handlers;
  }

  lemma WroteNothing(w: World, h: nat)
    requires IsOpen(w, h) && w.handlers[h].written <= |w.handlers[h].data|
    ensures Wrote(w, h, w.handlers[h].written) == w
  {
    var job := w.handlers[h];
    assert job.data[job.written..job.written] == [];
    assert w.bodies[job.phase.body := w.bodies[job.phase.body]] == w.bodies;
    assert w.handlers[h := job] == w.handlers;
  }

  /** However a handler's bytes are cut into writes, they end up in its body at its offset, and nothing
      else changes. */
  lemma {:induction false} WritesAddUp(w: World, h: nat, events: seq<Event>, sources: Network.Sources) returns (k: nat)
    requires IsRun(w, events, sources) && OnlyWrites(events, h) && IsOpen(w, h)
             && w.handlers[h].written <= |w.handlers[h].data|
    ensures w.handlers[h].written <= k <= |w.handlers[h].data| && Exec(w, events, sources) == Wrote(w, h, k)
    decreases |events|
  {
    if events == [] {
      k := w.handlers[h].written;
      WroteNothing(w, h);
    } else {
      var n := events[0].n;
      assert events[0] == Write(h, n) && CanWrite(w, h, n);
      k := WritesAddUp(DoWrite(w, h, n), h, events[1..], sources);
      WroteOn(w, h, n, k);
    }
  }

  /** One write of the whole chunk into the part: other names and bodies are as before. */
  ghost predicate IsOneWrite(w: World, w': World, h: nat, p: Path)
    requires h in w.handlers
  {
    && InPhase(w', h, Answered) && Part(w', p) == WriteAt(Part(w, p), w.handlers[h].offset, w.handlers[h].data)
    && (forall q :: q in w.links && q != p ==> q in w'.links && w'.links[q] == w.links[q])
    && (forall b :: b in w.bodies && (p in w.links ==> b != w.links[p]) ==> b in w'.bodies && w'.bodies[b] == w.bodies[b])
  }

  lemma WriteAndAnswer(w: World, h: nat, p: Path, w': World)
    requires IsOpen(w, h) && p in w.links && w.handlers[h].phase.body == w.links[p] && w.handlers[h].written == 0
    requires !IsCancelled(w, w.handlers[h].token)
    requires w' == DoEnd(To(Wrote(w, h, |w.handlers[h].data|), h, Closed), h, false)
    ensures IsOneWrite(w, w', h, p)
  {
    var data := w.handlers[h].data;
    assert data[0..|data|] == data;
  }

  /** Opening a part changes no other name and no other body. */
  lemma OpenKeepsOthers(w: World, h: nat, spare: nat, p: Path, w1: World)
    requires CanOpen(w, h, spare) && w.handlers[h].path == p && w1 == DoOpen(w, h, spare)
    ensures p in w1.links && (forall q :: q in w.links && q != p ==> q in w1.links && w1.links[q] == w.links[q])
    ensures forall b :: b in w.bodies && (p in w.links ==> b != w.links[p]) ==>
              b in w1.bodies && w1.bodies[b] == w.bodies[b] && b != w1.links[p]
  {
  }

  lemma OpenIsNoWrite(w: World, h: nat, spare: nat, p: Path, w1: World, w': World)
    requires CanOpen(w, h, spare) && w.handlers[h].path == p && (p in w.links ==> w.links[p] in w.bodies)
    requires w1 == DoOpen(w, h, spare) && IsOneWrite(w1, w', h, p)
    ensures IsOneWrite(w, w', h, p)
  {
    OpenedPart(w, h, spare);
    OpenKeepsOthers(w, h, spare, p, w1);
  }

  /** A chunk request that nobody interrupts, from its session check (w) over opening the part (w1) and
      writing all its bytes (w2) to its answer (w'), has the effect of the handler run in one piece. */
  lemma AloneIsOneWrite(w: World, w1: World, w2: World, w': World, h: nat, spare: nat, writes: seq<Event>, p: Path,
                        sources: Network.Sources)
    requires InPhase(w, h, Queued) && w.handlers[h].written == 0 && w.handlers[h].path == p
    requires !IsCancelled(w, w.handlers[h].token) && (p in w.links ==> w.links[p] in w.bodies)
    requires CanOpen(DoBegin(w, h), h, spare) && w1 == DoOpen(DoBegin(w, h), h, spare)
    requires IsRun(w1, writes, sources) && OnlyWrites(writes, h) && w2 == Exec(w1, writes, sources)
    requires h in w2.handlers && w2.handlers[h].written == |w.handlers[h].data|
    requires w' == DoEnd(To(w2, h, Closed), h, false)
    ensures IsOneWrite(w, w', h, p)
  {
    OpenedPart(DoBegin(w, h), h, spare);
    AllWritten(w1, h, writes, w2, sources);
    WriteAndAnswer(w1, h, p, w');
    OpenIsNoWrite(DoBegin(w, h), h, spare, p, w1, w');
  }

  lemma AllWritten(w: World, h: nat, writes: seq<Event>, w': World, sources: Network.Sources)
    requires IsRun(w, writes, sources) && OnlyWrites(writes, h) && w' == Exec(w, writes, sources)
    requires IsOpen(w, h) && w.handlers[h].written == 0
    requires h in w'.handlers && w'.handlers[h].written == |w.handlers[h].data|
    ensures w' == Wrote(w, h, |w.handlers[h].data|)
  {
    var k := WritesAddUp(w, h, writes, sources);
  }
}
