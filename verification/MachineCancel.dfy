/** Cancelling while chunks and finish requests are in flight: no part file is left behind. */
module MachineCancel {
  import opened Wrappers
  import opened Octets
  import opened Names
  import opened Receiver
  import opened Machine
  import opened MachineHomes
  import Network

  predicate Works(h: Handler, token: Id, p: Path) {
    h.token == token && h.path == p && InFlight(h.phase)
  }

  /** A finish request that has yet to remove the part's name. */
  predicate Commits(f: Finisher, token: Id, p: Path) {
    f.token == token && f.path == p && !f.stage.Tidied?
  }

  /** Some request of the session is in flight on this part. */
  ghost predicate Busy(w: World, token: Id, p: Path) {
    || (exists h :: h in w.handlers && Works(w.handlers[h], token, p))
    || (exists f :: f in w.finishers && Commits(w.finishers[f], token, p))
  }

  /** The session's parts have sources, and only the session's own requests name them. */
  ghost predicate Owned(w: World, token: Id, sources: Network.Sources) {
    && token in w.sessions && w.sessions[token].paths <= sources.Keys
    && (forall h :: h in w.handlers && w.handlers[h].path in w.sessions[token].paths ==> w.handlers[h].token == token)
    && (forall a :: a in w.attempts && w.attempts[a].path in w.sessions[token].paths ==> w.attempts[a].token == token)
    && (forall f :: f in w.finishers && w.finishers[f].path in w.sessions[token].paths ==> w.finishers[f].token == token)
  }

  /** Once the session is cancelled, a part that is still there is to be deleted by the cancel, or by a
      request in flight. */
  ghost predicate Covered(w: World, token: Id) {
    token in w.sessions && w.sessions[token].cancelled ==>
      forall p :: p in w.sessions[token].paths && p in w.links ==> p in w.sessions[token].doomed || Busy(w, token, p)
  }

  ghost predicate Sound(w: World, token: Id, sources: Network.Sources) {
    Owned(w, token, sources) && Covered(w, token)
  }

  /** The part is there, the cancel has been at it already, and no other request of the session is in
      flight on it. */
  ghost predicate IsLast(w: World, token: Id, p: Path, h: Option<nat>, f: Option<nat>) {
    && IsCancelled(w, token) && p in w.sessions[token].paths && p in w.links && p !in w.sessions[token].doomed
    && (forall k :: k in w.handlers && Some(k) != h ==> !Works(w.handlers[k], token, p))
    && (forall g :: g in w.finishers && Some(g) != f ==> !Commits(w.finishers[g], token, p))
  }

  /** The last request of the cancelled session on a part fails: nobody is left to delete the part. */
  ghost predicate Strands(w: World, e: Event, token: Id) {
    match e
    case Fail(h) =>
      && h in w.handlers && Works(w.handlers[h], token, w.handlers[h].path)
      && IsLast(w, token, w.handlers[h].path, Some(h), None)
    case Quit(f) =>
      && f in w.finishers && Commits(w.finishers[f], token, w.finishers[f].path)
      && IsLast(w, token, w.finishers[f].path, None, Some(f))
    case _ => false
  }

  /** No other session takes up the session's parts. */
  ghost predicate Apart(w: World, e: Event, token: Id)
    requires token in w.sessions
  {
    match e
    case Ask(_, t, p) => p in w.sessions[token].paths ==> t == token
    case Enter(_, t, p) => p in w.sessions[token].paths ==> t == token
    case _ => true
  }

  /** Events of runs in which no failure strands a part, and no other session takes up the session's parts. */
  ghost predicate Orderly(w: World, e: Event, token: Id)
    requires token in w.sessions
  {
    !Strands(w, e, token) && Apart(w, e, token)
  }

  // ----- One step -----

  /** Everybody at work on the part stays so. */
  lemma StaysBusy(w: World, w': World, token: Id, p: Path)
    requires forall h :: h in w.handlers && Works(w.handlers[h], token, p) ==>
               h in w'.handlers && Works(w'.handlers[h], token, p)
    requires forall f :: f in w.finishers && Commits(w.finishers[f], token, p) ==>
               f in w'.finishers && Commits(w'.finishers[f], token, p)
    ensures Busy(w, token, p) ==> Busy(w', token, p)
  {
  }

  /** What a step must leave alone for the cancel to stay sound. */
  lemma Carries(w: World, w': World, token: Id, sources: Network.Sources)
    requires Sound(w, token, sources) && Owned(w', token, sources)
    requires w'.sessions[token].paths == w.sessions[token].paths
    requires w'.sessions[token].cancelled ==> forall p :: p in w.sessions[token].paths && p in w'.links ==>
               || p in w'.sessions[token].doomed || Busy(w', token, p)
               || (w.sessions[token].cancelled && p in w.links && p !in w.sessions[token].doomed && !Busy(w, token, p))
    ensures Sound(w', token, sources)
  {
  }

  lemma SameRequestsBusy(w: World, w': World, token: Id)
    requires w'.handlers == w.handlers && w'.finishers == w.finishers
    ensures forall p :: Busy(w', token, p) == Busy(w, token, p)
  {
  }

  /** A handler moves on and stays in flight if it was. */
  lemma MoveKeepsSound(w: World, h: nat, job: Handler, token: Id, sources: Network.Sources)
    requires h in w.handlers && Sound(w, token, sources) && job.token == w.handlers[h].token
             && job.path == w.handlers[h].path
    requires job.token == token && InFlight(w.handlers[h].phase) ==> InFlight(job.phase)
    ensures Sound(w.(handlers := w.handlers[h := job]), token, sources)
  {
    var w' := w.(handlers := w.handlers[h := job]);
    forall p | Busy(w, token, p)
      ensures Busy(w', token, p)
    {
      StaysBusy(w, w', token, p);
    }
    Carries(w, w', token, sources);
  }

  /** A finish request moves on, short of the removal of the name. */
  lemma StageKeepsSound(w: World, f: nat, stage: Stage, token: Id, sources: Network.Sources)
    requires f in w.finishers && Sound(w, token, sources) && !stage.Tidied?
    ensures Sound(AtStage(w, f, stage), token, sources)
  {
    var w' := AtStage(w, f, stage);
    forall p | Busy(w, token, p)
      ensures Busy(w', token, p)
    {
      StaysBusy(w, w', token, p);
    }
    Carries(w, w', token, sources);
  }

  /** A name goes away. */
  lemma UnlinkKeepsSound(w: World, q: Path, refused: bool, token: Id, sources: Network.Sources)
    requires Sound(w, token, sources)
    ensures Sound(Unlink(w, q, refused), token, sources)
  {
    var w' := Unlink(w, q, refused);
    SameRequestsBusy(w, w', token);
  }

  /** A handler makes the part anew: it is in flight on it. */
  lemma OpenKeepsSound(w: World, h: nat, spare: nat, token: Id, sources: Network.Sources)
    requires CanOpen(w, h, spare) && Sound(w, token, sources)
    ensures Sound(DoOpen(w, h, spare), token, sources)
  {
    var q := w.handlers[h].path;
    var job := w.handlers[h].(phase := Opened(if q in w.links then w.links[q] else spare));
    MoveKeepsSound(w, h, job, token, sources);
    var w1, w' := w.(handlers := w.handlers[h := job]), DoOpen(w, h, spare);
    assert w'.handlers == w1.handlers && w'.sessions == w1.sessions && w'.attempts == w1.attempts;
    SameRequestsBusy(w1, w', token);
    if q in w.sessions[token].paths {
      assert Works(w1.handlers[h], token, q);
    }
  }

  /** A failure that strands no part: another request is in flight on it, or the cancel has yet to come. */
  lemma FailKeepsSound(w: World, h: nat, token: Id, sources: Network.Sources)
    requires CanFail(w, h) && Sound(w, token, sources) && !Strands(w, Fail(h), token)
    ensures Sound(To(w, h, Failed), token, sources)
  {
    var w' := To(w, h, Failed);
    forall p | p in w.sessions[token].paths && p in w.links && IsCancelled(w, token) && p !in w.sessions[token].doomed
      ensures Busy(w', token, p)
    {
      if Works(w.handlers[h], token, p) {
        assert !IsLast(w, token, p, Some(h), None);
        if k :| k in w.handlers && Some(k) != Some(h) && Works(w.handlers[k], token, p) {
          assert Works(w'.handlers[k], token, p);
        }
      } else {
        StaysBusy(w, w', token, p);
      }
    }
    Carries(w, w', token, sources);
  }

  lemma QuitKeepsSound(w: World, f: nat, token: Id, sources: Network.Sources)
    requires f in w.finishers && Sound(w, token, sources) && !Strands(w, Quit(f), token)
    ensures Sound(w.(finishers := w.finishers - {f}), token, sources)
  {
    var w' := w.(finishers := w.finishers - {f});
    forall p | p in w.sessions[token].paths && p in w.links && IsCancelled(w, token) && p !in w.sessions[token].doomed
      ensures Busy(w', token, p)
    {
      if Commits(w.finishers[f], token, p) {
        assert !IsLast(w, token, p, None, Some(f));
        if g :| g in w.finishers && Some(g) != Some(f) && Commits(w.finishers[g], token, p) {
          assert Commits(w'.finishers[g], token, p);
        }
      } else {
        StaysBusy(w, w', token, p);
      }
    }
    Carries(w, w', token, sources);
  }

  lemma WriteKeepsSound(w: World, h: nat, n: nat, token: Id, sources: Network.Sources)
    requires CanWrite(w, h, n) && Sound(w, token, sources)
    ensures Sound(DoWrite(w, h, n), token, sources)
  {
    var job := w.handlers[h].(written := w.handlers[h].written + n);
    MoveKeepsSound(w, h, job, token, sources);
    var w1, w' := w.(handlers := w.handlers[h := job]), DoWrite(w, h, n);
    SameRequestsBusy(w1, w', token);
  }

  /** Who holds a part of the session open is a handler of the session, in flight on that part. */
  lemma HolderIsBusy(w: World, token: Id, p: Path, except: Option<nat>, sources: Network.Sources)
    requires Homes(w, sources) && Owned(w, token, sources) && p in w.sessions[token].paths && MayRefuse(w, p, except)
    ensures exists h :: h in w.handlers && Some(h) != except && Works(w.handlers[h], token, p)
  {
    var h :| h in w.handlers && Some(h) != except && w.handlers[h].phase == Opened(w.links[p]);
    assert HasHome(w, w.links[p], p) && HasHome(w, w.handlers[h].phase.body, w.handlers[h].path);
    assert Works(w.handlers[h], token, p);
  }

  /** The last check of a handler of this session, cancelled: its part goes, or another handler of the
      session has it open. */
  lemma TurnKeepsSound(w: World, h: nat, refused: bool, token: Id, sources: Network.Sources)
    requires CanEnd(w, h, refused) && Homes(w, sources) && Sound(w, token, sources)
    requires w.handlers[h].token == token && IsCancelled(w, token)
    ensures Sound(DoEnd(w, h, refused), token, sources)
  {
    var q, w' := w.handlers[h].path, DoEnd(w, h, refused);
    forall p | p in w.sessions[token].paths && p in w'.links && Busy(w, token, p)
      ensures Busy(w', token, p)
    {
      if p == q {
        HolderIsBusy(w, token, q, Some(h), sources);
        var k :| k in w.handlers && Some(k) != Some(h) && Works(w.handlers[k], token, p);
        assert Works(w'.handlers[k], token, p);
      } else {
        StaysBusy(w, w', token, p);
      }
    }
    Carries(w, w', token, sources);
  }

  /** Sessions note bytes, and may settle to be completed. */
  lemma NoteKeepsSound(w: World, w': World, t: Id, token: Id, sources: Network.Sources)
    requires Sound(w, token, sources) && t in w.sessions && t in w'.sessions
    requires w' == w.(sessions := w.sessions[t := w'.sessions[t]])
    requires w'.sessions[t].paths == w.sessions[t].paths && w'.sessions[t].doomed == w.sessions[t].doomed
    requires w'.sessions[t].cancelled ==> w.sessions[t].cancelled
    ensures Sound(w', token, sources)
  {
    SameRequestsBusy(w, w', token);
    Carries(w, w', token, sources);
  }

  /** The last check of a handler of a live session: the session is not cancelled, or another one. */
  lemma AnswerKeepsSound(w: World, h: nat, token: Id, sources: Network.Sources)
    requires h in w.handlers && Sound(w, token, sources) && !IsCancelled(w, w.handlers[h].token)
    ensures Sound(To(w, h, Answered), token, sources)
  {
    if w.handlers[h].token == token {
      Carries(w, To(w, h, Answered), token, sources);
    } else {
      MoveKeepsSound(w, h, w.handlers[h].(phase := Answered), token, sources);
    }
  }

  lemma EndKeepsSound(w: World, h: nat, refused: bool, token: Id, sources: Network.Sources)
    requires CanEnd(w, h, refused) && Homes(w, sources) && Sound(w, token, sources)
    ensures Sound(DoEnd(w, h, refused), token, sources)
  {
    var q, t := w.handlers[h].path, w.handlers[h].token;
    if !IsCancelled(w, t) {
      AnswerKeepsSound(w, h, token, sources);
      if t in w.sessions {
        NoteKeepsSound(To(w, h, Answered), DoEnd(w, h, refused), t, token, sources);
      }
    } else if t == token {
      TurnKeepsSound(w, h, refused, token, sources);
    } else {
      MoveKeepsSound(w, h, w.handlers[h].(phase := Turned), token, sources);
      UnlinkKeepsSound(To(w, h, Turned), q, refused, token, sources);
    }
  }

  lemma MarkDooms(w: World, token: Id, p: Path)
    requires token in w.sessions && !w.sessions[token].cancelled && p in w.sessions[token].paths
    ensures p in DoMark(w, token).sessions[token].doomed
  {
    assert p in multiset(w.sessions[token].paths);
  }

  lemma MarkKeepsSound(w: World, t: Id, token: Id, sources: Network.Sources)
    requires t in w.sessions && Sound(w, token, sources)
    ensures Sound(DoMark(w, t), token, sources)
  {
    if !w.sessions[t].cancelled {
      var w' := DoMark(w, t);
      SameRequestsBusy(w, w', token);
      if t == token {
        forall p | p in w.sessions[token].paths
          ensures p in w'.sessions[token].doomed
        {
          MarkDooms(w, token, p);
        }
      }
      Carries(w, w', token, sources);
    }
  }

  lemma DeleteKeepsSound(w: World, t: Id, q: Path, refused: bool, token: Id, sources: Network.Sources)
    requires CanDelete(w, t, q, refused) && Homes(w, sources) && Sound(w, token, sources)
    ensures Sound(DoDelete(w, t, q, refused), token, sources)
  {
    var w' := DoDelete(w, t, q, refused);
    SameRequestsBusy(w, w', token);
    if refused && q in w.sessions[token].paths {
      HolderIsBusy(w, token, q, None, sources);
    }
    Carries(w, w', token, sources);
  }

  lemma AcceptKeepsSound(w: World, t: Id, paths: set<Path>, token: Id, sources: Network.Sources)
    requires t !in w.sessions && Sound(w, token, sources)
    ensures Sound(DoAccept(w, t, paths), token, sources)
  {
    var w' := DoAccept(w, t, paths);
    SameRequestsBusy(w, w', token);
    Carries(w, w', token, sources);
  }

  lemma PostKeepsSound(w: World, a: nat, h: nat, length: nat, token: Id, sources: Network.Sources)
    requires CanPost(w, a, h, length, sources) && Sound(w, token, sources)
    ensures Sound(DoPost(w, a, h, length, sources), token, sources)
  {
    var w' := DoPost(w, a, h, length, sources);
    forall p | Busy(w, token, p)
      ensures Busy(w', token, p)
    {
      StaysBusy(w, w', token, p);
    }
    Carries(w, w', token, sources);
  }

  lemma AttemptKeepsSound(w: World, e: Event, token: Id, sources: Network.Sources)
    requires Enabled(w, e, sources) && Sound(w, token, sources) && Orderly(w, e, token) && (e.Ask? || e.Reply? || e.GiveUp?)
    ensures Sound(Apply(w, e, sources), token, sources)
  {
    var w' := Apply(w, e, sources);
    StepFrame(w, e, sources);
    SameRequestsBusy(w, w', token);
    Carries(w, w', token, sources);
  }

  /** A finish request enters: the session is not cancelled, or another one. */
  lemma EnterKeepsSound(w: World, f: nat, t: Id, q: Path, token: Id, sources: Network.Sources)
    requires CanEnter(w, f, t, q, sources) && Sound(w, token, sources) && Orderly(w, Enter(f, t, q), token)
    ensures Sound(DoEnter(w, f, t, q), token, sources)
  {
    var w' := DoEnter(w, f, t, q);
    forall p | Busy(w, token, p)
      ensures Busy(w', token, p)
    {
      StaysBusy(w, w', token, p);
    }
    Carries(w, w', token, sources);
  }

  /** A finish request makes the part of an empty file: it is in flight on it. */
  lemma CreateKeepsSound(w: World, f: nat, spare: nat, token: Id, sources: Network.Sources)
    requires CanCreate(w, f, spare, sources) && Sound(w, token, sources)
    ensures Sound(WithNewBody(w, w.finishers[f].path, spare), token, sources)
  {
    var q := w.finishers[f].path;
    var w' := WithNewBody(w, q, spare);
    SameRequestsBusy(w, w', token);
    if q in w.sessions[token].paths {
      assert Commits(w.finishers[f], token, q);
    }
    Carries(w, w', token, sources);
  }

  lemma LinkKeepsSound(w: World, f: nat, dest: Path, token: Id, sources: Network.Sources)
    requires CanLink(w, f, dest, sources) && Sound(w, token, sources)
    ensures Sound(DoLink(w, f, dest), token, sources)
  {
    var w1 := w.(links := w.links[dest := w.links[w.finishers[f].path]]);
    SameRequestsBusy(w, w1, token);
    Carries(w, w1, token, sources);
    StageKeepsSound(w1, f, Linked, token, sources);
  }

  /** A finish request removes the part's name, or a handler of the session has the part open. */
  lemma TidyKeepsSound(w: World, f: nat, refused: bool, token: Id, sources: Network.Sources)
    requires CanTidy(w, f, refused) && Homes(w, sources) && Sound(w, token, sources)
    ensures Sound(DoTidy(w, f, refused), token, sources)
  {
    var q, w' := w.finishers[f].path, DoTidy(w, f, refused);
    forall p | p in w.sessions[token].paths && p in w'.links && Busy(w, token, p)
      ensures Busy(w', token, p)
    {
      if p == q {
        HolderIsBusy(w, token, q, None, sources);
        var k :| k in w.handlers && Works(w.handlers[k], token, p);
        assert Works(w'.handlers[k], token, p);
      } else {
        StaysBusy(w, w', token, p);
      }
    }
    Carries(w, w', token, sources);
  }

  /** A finish request past the removal of the name is gone. */
  lemma ForgetKeepsSound(w: World, f: nat, token: Id, sources: Network.Sources)
    requires InStage(w, f, Tidied) && Sound(w, token, sources)
    ensures Sound(w.(finishers := w.finishers - {f}), token, sources)
  {
    var w' := w.(finishers := w.finishers - {f});
    forall p | Busy(w, token, p)
      ensures Busy(w', token, p)
    {
      StaysBusy(w, w', token, p);
    }
    Carries(w, w', token, sources);
  }

  lemma CompleteKeepsSound(w: World, f: nat, token: Id, sources: Network.Sources)
    requires InStage(w, f, Tidied) && Sound(w, token, sources)
    ensures Sound(DoComplete(w, f, sources), token, sources)
  {
    ForgetKeepsSound(w, f, token, sources);
    var t, w1 := w.finishers[f].token, w.(finishers := w.finishers - {f});
    if t in w.sessions {
      NoteKeepsSound(w1, DoComplete(w, f, sources), t, token, sources);
    }
  }

  lemma HandlerStepKeepsSound(w: World, e: Event, token: Id, sources: Network.Sources)
    requires Enabled(w, e, sources) && Homes(w, sources) && Sound(w, token, sources) && Orderly(w, e, token)
    requires TouchesHandlers(e)
    ensures Sound(Apply(w, e, sources), token, sources)
  {
    match e
    case Post(a, h, length) => PostKeepsSound(w, a, h, length, token, sources);
    case Begin(h) =>
      MoveKeepsSound(w, h, w.handlers[h].(phase := if IsCancelled(w, w.handlers[h].token) then Turned else Begun),
                     token, sources);
    case Open(h, spare) => OpenKeepsSound(w, h, spare, token, sources);
    case Write(h, n) => WriteKeepsSound(w, h, n, token, sources);
    case Close(h) => MoveKeepsSound(w, h, w.handlers[h].(phase := Closed), token, sources);
    case End(h, refused) => EndKeepsSound(w, h, refused, token, sources);
    case Fail(h) => FailKeepsSound(w, h, token, sources);
  }

  lemma CheckKeepsSound(w: World, f: nat, token: Id, sources: Network.Sources)
    requires CanCheck(w, f, sources) && Sound(w, token, sources)
    ensures Sound(DoCheck(w, f), token, sources)
  {
    StageKeepsSound(w, f, Checked(w.links[w.finishers[f].path]), token, sources);
  }

  lemma LateFinishKeepsSound(w: World, e: Event, token: Id, sources: Network.Sources)
    requires Enabled(w, e, sources) && Homes(w, sources) && Sound(w, token, sources) && Orderly(w, e, token)
    requires e.Tidy? || e.Complete? || e.Quit?
    ensures Sound(Apply(w, e, sources), token, sources)
  {
    match e
    case Tidy(f, refused) => TidyKeepsSound(w, f, refused, token, sources);
    case Complete(f) => CompleteKeepsSound(w, f, token, sources);
    case Quit(f) => QuitKeepsSound(w, f, token, sources);
  }

  lemma EarlyFinishKeepsSound(w: World, e: Event, token: Id, sources: Network.Sources)
    requires Enabled(w, e, sources) && Homes(w, sources) && Sound(w, token, sources) && Orderly(w, e, token)
    requires e.Enter? || e.Create? || e.Check? || e.Link?
    ensures Sound(Apply(w, e, sources), token, sources)
  {
    match e
    case Enter(f, t, q) => EnterKeepsSound(w, f, t, q, token, sources);
    case Create(f, spare) => CreateKeepsSound(w, f, spare, token, sources);
    case Check(f) => CheckKeepsSound(w, f, token, sources);
    case Link(f, dest) => LinkKeepsSound(w, f, dest, token, sources);
  }

  lemma SessionStepKeepsSound(w: World, e: Event, token: Id, sources: Network.Sources)
    requires Enabled(w, e, sources) && Homes(w, sources) && Sound(w, token, sources) && Orderly(w, e, token)
    requires e.Mark? || e.Delete? || e.Accept? || e.Ask? || e.Reply? || e.GiveUp?
    ensures Sound(Apply(w, e, sources), token, sources)
  {
    match e
    case Mark(t) => MarkKeepsSound(w, t, token, sources);
    case Delete(t, q, refused) => DeleteKeepsSound(w, t, q, refused, token, sources);
    case Accept(t, paths) => AcceptKeepsSound(w, t, paths, token, sources);
    case _ => AttemptKeepsSound(w, e, token, sources);
  }

  /** Every step of a run in which no failure strands a part keeps the cancel sound. */
  lemma StepKeepsSound(w: World, e: Event, token: Id, sources: Network.Sources)
    requires Enabled(w, e, sources) && Homes(w, sources) && Sound(w, token, sources) && Orderly(w, e, token)
    ensures Sound(Apply(w, e, sources), token, sources)
  {
    if TouchesHandlers(e) {
      HandlerStepKeepsSound(w, e, token, sources);
    } else if e.Tidy? || e.Complete? || e.Quit? {
      LateFinishKeepsSound(w, e, token, sources);
    } else if e.Enter? || e.Create? || e.Check? || e.Link? {
      EarlyFinishKeepsSound(w, e, token, sources);
    } else {
      SessionStepKeepsSound(w, e, token, sources);
    }
  }

  // ----- Whole runs -----

  /** The session is still there with its parts; if it was cancelled, it is so still, or this revives it,
      and its cancels have no more to delete than before. */
  ghost predicate Remains(w: World, w': World, token: Id, revived: bool)
    requires token in w.sessions
  {
    && token in w'.sessions && w'.sessions[token].paths == w.sessions[token].paths
    && (IsCancelled(w, token) ==>
          (IsCancelled(w', token) <==> !revived) && w'.sessions[token].doomed <= w.sessions[token].doomed)
  }

  lemma EndRemains(w: World, h: nat, refused: bool, token: Id)
    requires CanEnd(w, h, refused) && token in w.sessions
    ensures Remains(w, DoEnd(w, h, refused), token, false)
  {
  }

  lemma DeleteRemains(w: World, t: Id, p: Path, refused: bool, token: Id)
    requires CanDelete(w, t, p, refused) && token in w.sessions
    ensures Remains(w, DoDelete(w, t, p, refused), token, false)
  {
  }

  lemma CompleteRemains(w: World, f: nat, token: Id, sources: Network.Sources)
    requires InStage(w, f, Tidied) && token in w.sessions
    ensures Remains(w, DoComplete(w, f, sources), token, Revives(w, f, token, sources))
  {
  }

  lemma TableRemains(w: World, e: Event, token: Id, sources: Network.Sources)
    requires Enabled(w, e, sources) && token in w.sessions && (e.Mark? || e.Accept?)
    ensures Remains(w, Apply(w, e, sources), token, false)
  {
    var t, w' := e.token, Apply(w, e, sources);
    assert t != token ==> w'.sessions[token] == w.sessions[token];
  }

  /** No step takes a session away, and only the last step of a finish makes a cancelled one live again. */
  lemma StepKeepsSessions(w: World, e: Event, token: Id, sources: Network.Sources)
    requires Enabled(w, e, sources) && token in w.sessions
    ensures Remains(w, Apply(w, e, sources), token, e.Complete? && Revives(w, e.finisher, token, sources))
  {
    if e.End? {
      EndRemains(w, e.handler, e.refused, token);
    } else if e.Delete? {
      DeleteRemains(w, e.token, e.path, e.refused, token);
    } else if e.Complete? {
      CompleteRemains(w, e.finisher, token, sources);
    } else if e.Mark? || e.Accept? {
      TableRemains(w, e, token, sources);
    } else {
      StepFrame(w, e, sources);
    }
  }

  ghost predicate OrderlyRun(w: World, events: seq<Event>, token: Id, sources: Network.Sources)
    requires IsRun(w, events, sources) && token in w.sessions
    decreases |events|
  {
    events != [] ==>
      Orderly(w, events[0], token)
      && (token in Apply(w, events[0], sources).sessions ==>
            OrderlyRun(Apply(w, events[0], sources), events[1..], token, sources))
  }

  /** Every deletion has been tried and no request of the session is in flight. */
  predicate AllIsOver(w: World, token: Id) {
    && token in w.sessions && w.sessions[token].doomed == multiset{}
    && (forall h :: h in w.handlers && w.handlers[h].token == token ==> !InFlight(w.handlers[h].phase))
    && (forall f :: f in w.finishers && w.finishers[f].token == token ==> w.finishers[f].stage.Tidied?)
  }

  /** In every interleaving of a cancel with any number of chunk handlers and finish requests, unless a
      failure strands a part, once all are done and the session is still cancelled no part file of it is
      left, whichever deletions were refused on the way. */
  lemma {:induction false} NoPartIsLeft(w: World, events: seq<Event>, token: Id, sources: Network.Sources)
    requires Homes(w, sources) && Sound(w, token, sources) && IsRun(w, events, sources)
             && OrderlyRun(w, events, token, sources)
    ensures var w' := Exec(w, events, sources);
            AllIsOver(w', token) && IsCancelled(w', token) ==> forall p :: p in w.sessions[token].paths ==> p !in w'.links
    decreases |events|
  {
    if events != [] {
      StepKeepsHomes(w, events[0], sources);
      StepKeepsSound(w, events[0], token, sources);
      StepKeepsSessions(w, events[0], token, sources);
      NoPartIsLeft(Apply(w, events[0], sources), events[1..], token, sources);
    }
  }

  /** Runs may start from any table of sessions nobody has cancelled yet. */
  lemma UncancelledIsSound(w: World, token: Id, sources: Network.Sources)
    requires Owned(w, token, sources) && !w.sessions[token].cancelled
    ensures Sound(w, token, sources)
  {
  }

  // ----- The condition is exact -----

  /** A part of a cancelled session that the cancel is done with and no request of the session works on. */
  ghost predicate Stranded(w: World, token: Id, p: Path) {
    IsLast(w, token, p, None, None)
  }

  lemma FailureStrands(w: World, e: Event, token: Id, sources: Network.Sources) returns (p: Path)
    requires Enabled(w, e, sources) && Strands(w, e, token)
    ensures p in w.sessions[token].paths && Stranded(Apply(w, e, sources), token, p)
  {
    if e.Fail? {
      p := w.handlers[e.handler].path;
    } else {
      p := w.finishers[e.finisher].path;
    }
  }

  /** Events by which only the session's own cancel and requests take its parts away: no other session
      takes them up or deletes them, and no finish makes the cancelled session live again. */
  ghost predicate Private(w: World, e: Event, token: Id, sources: Network.Sources)
    requires token in w.sessions
  {
    && Apart(w, e, token)
    && (e.Delete? && e.path in w.sessions[token].paths ==> e.token == token)
    && (e.Complete? ==> !Revives(w, e.finisher, token, sources))
  }

  lemma FinishersStayOwned(w: World, e: Event, token: Id, sources: Network.Sources)
    requires Enabled(w, e, sources) && Owned(w, token, sources) && Apart(w, e, token)
    ensures var w' := Apply(w, e, sources);
            forall f :: f in w'.finishers && w'.finishers[f].path in w.sessions[token].paths ==>
              w'.finishers[f].token == token
  {
    var w' := Apply(w, e, sources);
    forall f | f in w'.finishers && w'.finishers[f].path in w.sessions[token].paths
      ensures w'.finishers[f].token == token
    {
      FinisherMovesOn(w, e, f, sources);
    }
  }

  lemma StepKeepsOwned(w: World, e: Event, token: Id, sources: Network.Sources)
    requires Enabled(w, e, sources) && Owned(w, token, sources) && Apart(w, e, token)
    ensures Owned(Apply(w, e, sources), token, sources)
  {
    var w' := Apply(w, e, sources);
    StepKeepsSessions(w, e, token, sources);
    StepMovesOn(w, e, sources);
    FinishersStayOwned(w, e, token, sources);
    if !TouchesAttempts(e) {
      StepFrame(w, e, sources);
    }
    forall h | h in w'.handlers && w'.handlers[h].path in w.sessions[token].paths
      ensures w'.handlers[h].token == token
    {
      if h in w.handlers {
        assert IsLater(w.handlers[h], w'.handlers[h]);
      }
    }
  }

  /** Nobody of the session comes to work on a stranded part any more. */
  lemma NobodyComesBack(w: World, e: Event, token: Id, p: Path, sources: Network.Sources)
    requires Enabled(w, e, sources) && Stranded(w, token, p)
    ensures !Busy(Apply(w, e, sources), token, p)
  {
    var w' := Apply(w, e, sources);
    forall h | h in w'.handlers
      ensures !Works(w'.handlers[h], token, p)
    {
      StepKeepsOff(w, e, h, token, p, sources);
    }
    FinishersKeepOff(w, e, token, p, sources);
  }

  /** No finish request of a cancelled session enters. */
  lemma FinishersKeepOff(w: World, e: Event, token: Id, p: Path, sources: Network.Sources)
    requires Enabled(w, e, sources) && IsCancelled(w, token)
    requires forall f :: f in w.finishers ==> !Commits(w.finishers[f], token, p)
    ensures var w' := Apply(w, e, sources); forall f :: f in w'.finishers ==> !Commits(w'.finishers[f], token, p)
  {
    var w' := Apply(w, e, sources);
    forall f | f in w'.finishers
      ensures !Commits(w'.finishers[f], token, p)
    {
      FinisherMovesOn(w, e, f, sources);
    }
  }

  /** A handler of a cancelled session that is not in flight does not become so. */
  lemma StepKeepsOff(w: World, e: Event, h: nat, token: Id, p: Path, sources: Network.Sources)
    requires Enabled(w, e, sources) && IsCancelled(w, token) && h in Apply(w, e, sources).handlers
    requires h in w.handlers ==> !Works(w.handlers[h], token, p)
    ensures !Works(Apply(w, e, sources).handlers[h], token, p)
  {
    StepMovesOn(w, e, sources);
    if e.End? {
      EndKeepsOff(w, e.handler, e.refused, h, token, p);
    } else if e.Open? {
      OpenKeepsOff(w, e.handler, e.spare, h, token, p);
    } else if e.Write? {
      WriteKeepsOff(w, e.handler, e.n, h, token, p);
    } else if !TouchesHandlers(e) {
      StepFrame(w, e, sources);
    }
  }

  lemma EndKeepsOff(w: World, k: nat, refused: bool, h: nat, token: Id, p: Path)
    requires CanEnd(w, k, refused) && h in w.handlers && !Works(w.handlers[h], token, p)
    ensures h in DoEnd(w, k, refused).handlers && !Works(DoEnd(w, k, refused).handlers[h], token, p)
  {
    assert To(w, k, Turned).handlers[h] == if h == k then w.handlers[h].(phase := Turned) else w.handlers[h];
  }

  lemma OpenKeepsOff(w: World, k: nat, spare: nat, h: nat, token: Id, p: Path)
    requires CanOpen(w, k, spare) && h in DoOpen(w, k, spare).handlers
    requires h in w.handlers ==> !Works(w.handlers[h], token, p)
    ensures !Works(DoOpen(w, k, spare).handlers[h], token, p)
  {
  }

  lemma WriteKeepsOff(w: World, k: nat, n: nat, h: nat, token: Id, p: Path)
    requires CanWrite(w, k, n) && h in DoWrite(w, k, n).handlers
    requires h in w.handlers ==> !Works(w.handlers[h], token, p)
    ensures !Works(DoWrite(w, k, n).handlers[h], token, p)
  {
  }

  /** Nor does its name go away. */
  lemma StrandedKeepsItsName(w: World, e: Event, token: Id, p: Path, sources: Network.Sources)
    requires Enabled(w, e, sources) && Owned(w, token, sources) && Private(w, e, token, sources) && Stranded(w, token, p)
    ensures p in Apply(w, e, sources).links
  {
    if e.End? {
      assert !Works(w.handlers[e.handler], token, p);
    } else if e.Tidy? {
      assert !Commits(w.finishers[e.finisher], token, p);
    } else if !TouchesLinks(e) {
      StepFrame(w, e, sources);
    }
  }

  lemma StrandedStays(w: World, e: Event, token: Id, p: Path, sources: Network.Sources)
    requires Enabled(w, e, sources) && Owned(w, token, sources) && Private(w, e, token, sources) && Stranded(w, token, p)
    ensures Stranded(Apply(w, e, sources), token, p)
  {
    NobodyComesBack(w, e, token, p, sources);
    StepKeepsSessions(w, e, token, sources);
    StrandedKeepsItsName(w, e, token, p, sources);
  }

  ghost predicate PrivateRun(w: World, events: seq<Event>, token: Id, sources: Network.Sources)
    requires IsRun(w, events, sources) && token in w.sessions
    decreases |events|
  {
    events != [] ==>
      Private(w, events[0], token, sources)
      && (token in Apply(w, events[0], sources).sessions ==>
            PrivateRun(Apply(w, events[0], sources), events[1..], token, sources))
  }

  lemma {:induction false} StrandedForGood(w: World, events: seq<Event>, token: Id, p: Path, sources: Network.Sources)
    requires IsRun(w, events, sources) && Owned(w, token, sources) && PrivateRun(w, events, token, sources)
    requires Stranded(w, token, p)
    ensures p in Exec(w, events, sources).links
    decreases |events|
  {
    if events != [] {
      StepKeepsOwned(w, events[0], token, sources);
      StrandedStays(w, events[0], token, p, sources);
      StrandedForGood(Apply(w, events[0], sources), events[1..], token, p, sources);
    }
  }

  /** No failure on the way strands a part of the session. */
  ghost predicate NeverStrands(w: World, events: seq<Event>, token: Id, sources: Network.Sources)
    requires IsRun(w, events, sources)
    decreases |events|
  {
    events != [] ==>
      !Strands(w, events[0], token)
      && NeverStrands(Apply(w, events[0], sources), events[1..], token, sources)
  }

  /** The exact condition of a clean cancel: in every run in which others keep off the session's parts and
      no finish makes it live again, once all are done no part of the session is left if and only if no
      failure on the way stranded one. */
  lemma {:induction false} CleanExactly(w: World, events: seq<Event>, token: Id, sources: Network.Sources)
    requires Homes(w, sources) && Sound(w, token, sources)
    requires IsRun(w, events, sources) && PrivateRun(w, events, token, sources)
    requires AllIsOver(Exec(w, events, sources), token) && IsCancelled(Exec(w, events, sources), token)
    ensures (forall p :: p in w.sessions[token].paths ==> p !in Exec(w, events, sources).links)
            <==> NeverStrands(w, events, token, sources)
    decreases |events|
  {
    if events != [] {
      var e, w1 := events[0], Apply(w, events[0], sources);
      StepKeepsSessions(w, e, token, sources);
      if Strands(w, e, token) {
        var p := FailureStrands(w, e, token, sources);
        StepKeepsOwned(w, e, token, sources);
        StrandedForGood(w1, events[1..], token, p, sources);
      } else {
        StepKeepsHomes(w, e, sources);
        StepKeepsSound(w, e, token, sources);
        CleanExactly(w1, events[1..], token, sources);
      }
    }
  }

  /** Nothing has started: no request, no attempt, every part name leads to its own body. */
  ghost predicate AtRest(w: World, sources: Network.Sources) {
    && w.handlers == map[] && w.attempts == map[] && w.finishers == map[]
    && (forall q :: q in w.links ==> w.links[q] in w.bodies)
    && (forall q :: q in w.links && q in sources ==> HasHome(w, w.links[q], q))
  }

  /** From any state at rest, for any session nobody has cancelled yet. */
  lemma RestIsCleanExactly(w: World, events: seq<Event>, token: Id, sources: Network.Sources)
    requires AtRest(w, sources)
    requires token in w.sessions && !w.sessions[token].cancelled && w.sessions[token].paths <= sources.Keys
    requires IsRun(w, events, sources) && PrivateRun(w, events, token, sources)
    requires AllIsOver(Exec(w, events, sources), token) && IsCancelled(Exec(w, events, sources), token)
    ensures (forall p :: p in w.sessions[token].paths ==> p !in Exec(w, events, sources).links)
            <==> NeverStrands(w, events, token, sources)
  {
    AtRestIsHomely(w, sources);
    UncancelledIsSound(w, token, sources);
    CleanExactly(w, events, token, sources);
  }

  /** The cancel marks the session and deletes the part. */
  lemma MarkAndDelete(w: World, token: Id, p: Path, w': World, rest: seq<Event>, last: World, sources: Network.Sources)
    requires token in w.sessions && !w.sessions[token].cancelled && p in w.sessions[token].paths
    requires p !in w.sessions[token].doomed
    requires w' == DoDelete(DoMark(w, token), token, p, false) && Leads(w', rest, last, sources)
    ensures Leads(w, [Mark(token), Delete(token, p, false)] + rest, last, sources)
    ensures IsCancelled(w', token) && w'.sessions[token].paths == w.sessions[token].paths
    ensures p !in w'.sessions[token].doomed && w' == w.(sessions := w'.sessions, links := w.links - {p})
  {
    TwoSteps(w, Mark(token), Delete(token, p, false), rest, last, sources);
  }

  /** The handler makes the part anew and fails. */
  lemma OpenAndFail(w: World, h: nat, spare: nat, p: Path, sources: Network.Sources) returns (w': World)
    requires CanOpen(w, h, spare) && w.handlers[h].path == p && p !in w.links
    ensures Leads(w, [Open(h, spare), Fail(h)], w', sources)
    ensures w'.sessions == w.sessions && w'.finishers == w.finishers && p in w'.links
    ensures w'.handlers == w.handlers[h := w.handlers[h].(phase := Failed)]
  {
    var w1 := DoOpen(w, h, spare);
    w' := To(w1, h, Failed);
    TwoSteps(w, Open(h, spare), Fail(h), [], w', sources);
    assert [Open(h, spare), Fail(h)] + [] == [Open(h, spare), Fail(h)];
  }

  /** The condition can fail in every system: whenever one handler of the session is past its check on a part,
      there is a run in which the cancel deletes the part, the handler makes it anew and fails. */
  lemma FailureLeavesThePart(w: World, h: nat, spare: nat, token: Id, p: Path, sources: Network.Sources)
    requires token in w.sessions && !w.sessions[token].cancelled && p in w.sessions[token].paths
    requires p !in w.sessions[token].doomed
    requires CanOpen(w, h, spare) && w.handlers[h].token == token && w.handlers[h].path == p
    requires forall k :: k in w.handlers && k != h ==> !Works(w.handlers[k], token, p)
    requires forall f :: f in w.finishers ==> !Commits(w.finishers[f], token, p)
    ensures var events := [Mark(token), Delete(token, p, false)] + [Open(h, spare), Fail(h)];
            IsRun(w, events, sources) && Stranded(Exec(w, events, sources), token, p)
  {
    var w1 := DoDelete(DoMark(w, token), token, p, false);
    var w2 := OpenAndFail(w1, h, spare, p, sources);
    MarkAndDelete(w, token, p, w1, [Open(h, spare), Fail(h)], w2, sources);
    assert Stranded(w2, token, p);
  }

  lemma TwoSteps(w: World, a: Event, b: Event, rest: seq<Event>, w': World, sources: Network.Sources)
    requires Enabled(w, a, sources) && Enabled(Apply(w, a, sources), b, sources)
    requires Leads(Apply(Apply(w, a, sources), b, sources), rest, w', sources)
    ensures Leads(w, [a, b] + rest, w', sources)
  {
    OneStep(Apply(w, a, sources), b, rest, w', sources);
    OneStep(w, a, [b] + rest, w', sources);
    assert [a] + ([b] + rest) == [a, b] + rest;
  }
}
