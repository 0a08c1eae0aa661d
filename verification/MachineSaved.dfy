/** What is saved stays: in every run, whatever is cancelled, late or repeated. */
module MachineSaved {
  import opened Wrappers
  import opened Octets
  import opened Names
  import opened Receiver
  import opened Machine
  import opened MachineHomes
  import opened MachineCursor
  import Network

  /** The request carries the piece of its source that starts at its offset. */
  ghost predicate IsPiece(job: Handler, source: seq<Octet>) {
    && job.offset + |job.data| <= |source| && job.written <= |job.data|
    && job.data == source[job.offset..job.offset + |job.data|]
  }

  ghost predicate TruthfulRequest(w: World, h: nat, sources: Network.Sources) {
    h in w.handlers ==> w.handlers[h].path in sources && IsPiece(w.handlers[h], sources[w.handlers[h].path])
  }

  /** A body that holds all of the source of the part it was created as. */
  ghost predicate Whole(w: World, body: nat, p: Path, sources: Network.Sources) {
    HasHome(w, body, p) && p in sources && w.bodies[body] == sources[p]
  }

  predicate HasParts(s: Held, sources: Network.Sources) {
    s.paths <= sources.Keys && forall p :: p in s.doomed ==> p in sources
  }

  /** A finish request past its check has found a whole body of its part. */
  ghost predicate TruthfulFinish(w: World, job: Finisher, sources: Network.Sources) {
    job.path in sources && (job.stage.Checked? ==> Whole(w, job.stage.body, job.path, sources))
  }

  /** Requests carry pieces of their sources, finish requests past their check have found a whole body of
      their part, and deletions only ever name parts. */
  ghost predicate Truthful(w: World, sources: Network.Sources) {
    && (forall h :: h in w.handlers ==> TruthfulRequest(w, h, sources))
    && (forall f :: f in w.finishers ==> TruthfulFinish(w, w.finishers[f], sources))
    && (forall t :: t in w.sessions ==> HasParts(w.sessions[t], sources))
  }

  ghost predicate Safe(w: World, sources: Network.Sources) {
    Homes(w, sources) && InStep(w) && Truthful(w, sources)
  }

  // ----- Bodies -----

  /** Writing more of a piece of the source over the source changes nothing. */
  lemma PieceOfPiece(job: Handler, source: seq<Octet>, n: nat)
    requires IsPiece(job, source) && job.written + n <= |job.data|
    ensures WriteAt(source, job.offset + job.written, job.data[job.written..job.written + n]) == source
  {
    SliceOfSlice(source, job.offset, job.data, job.written, job.written + n);
    WriteKeepsPrefix(source, source, job.offset + job.written, n);
  }

  lemma WriteKeepsWhole(w: World, h: nat, n: nat, body: nat, p: Path, sources: Network.Sources)
    requires CanWrite(w, h, n) && Safe(w, sources) && Whole(w, body, p, sources)
    ensures Whole(DoWrite(w, h, n), body, p, sources)
  {
    var job := w.handlers[h];
    if job.phase.body == body {
      assert HasHome(w, body, job.path) && TruthfulRequest(w, h, sources);
      PieceOfPiece(job, sources[p], n);
    }
  }

  lemma NewBodyKeepsWhole(w: World, q: Path, spare: nat, body: nat, p: Path, sources: Network.Sources)
    requires spare !in w.bodies && spare !in w.homes && Whole(w, body, p, sources)
    ensures Whole(WithNewBody(w, q, spare), body, p, sources)
  {
    assert spare != body;
  }

  lemma OpenKeepsWhole(w: World, h: nat, spare: nat, body: nat, p: Path, sources: Network.Sources)
    requires CanOpen(w, h, spare) && Whole(w, body, p, sources)
    ensures Whole(DoOpen(w, h, spare), body, p, sources)
  {
    NewBodyKeepsWhole(w, w.handlers[h].path, spare, body, p, sources);
  }

  /** No step takes anything from a whole body. */
  lemma StepKeepsWhole(w: World, e: Event, body: nat, p: Path, sources: Network.Sources)
    requires Enabled(w, e, sources) && Safe(w, sources) && Whole(w, body, p, sources)
    ensures Whole(Apply(w, e, sources), body, p, sources)
  {
    if e.Write? {
      WriteKeepsWhole(w, e.handler, e.n, body, p, sources);
    } else if e.Open? {
      OpenKeepsWhole(w, e.handler, e.spare, body, p, sources);
    } else if e.Create? {
      NewBodyKeepsWhole(w, w.finishers[e.finisher].path, e.spare, body, p, sources);
    } else {
      StepFrame(w, e, sources);
    }
  }

  // ----- The invariant -----

  lemma PostIsTruthful(w: World, a: nat, h: nat, length: nat, sources: Network.Sources)
    requires CanPost(w, a, h, length, sources) && InStep(w)
    ensures TruthfulRequest(DoPost(w, a, h, length, sources), h, sources)
  {
    assert IsInStep(w.attempts[a], w.handlers);
  }

  lemma RequestStaysTruthful(w: World, w': World, except: Option<nat>, h: nat, sources: Network.Sources)
    requires MovesOn(w, w', except) && TruthfulRequest(w, h, sources)
    requires Some(h) == except ==> TruthfulRequest(w', h, sources)
    ensures TruthfulRequest(w', h, sources)
  {
  }

  lemma CheckIsTruthful(w: World, f: nat, sources: Network.Sources)
    requires CanCheck(w, f, sources) && Homes(w, sources)
    ensures Whole(w, w.links[w.finishers[f].path], w.finishers[f].path, sources)
  {
  }

  /** What a finish request of the next state has found whole, it had found before, or finds now. */
  lemma FoundWhole(w: World, w': World, e: Event, f: nat, sources: Network.Sources)
    requires Enabled(w, e, sources) && Homes(w, sources) && w' == Apply(w, e, sources)
    requires f in w'.finishers && w'.finishers[f].stage.Checked?
    ensures || (f in w.finishers && w.finishers[f] == w'.finishers[f])
            || Whole(w, w'.finishers[f].stage.body, w'.finishers[f].path, sources)
  {
    if e.Check? {
      CheckIsTruthful(w, e.finisher, sources);
    } else if e.Enter? {
      EnteringKeepsStage(w, e, f, sources);
    } else if e.Complete? || e.Quit? {
      LeavingKeepsStage(w, e, f, sources);
    } else if e.Link? || e.Tidy? {
      MovingKeepsStage(w, e, f, sources);
    } else {
      StepFrame(w, e, sources);
    }
  }

  lemma EnteringKeepsStage(w: World, e: Event, f: nat, sources: Network.Sources)
    requires Enabled(w, e, sources) && e.Enter?
    requires f in Apply(w, e, sources).finishers && Apply(w, e, sources).finishers[f].stage.Checked?
    ensures f in w.finishers && w.finishers[f] == Apply(w, e, sources).finishers[f]
  {
  }

  lemma LeavingKeepsStage(w: World, e: Event, f: nat, sources: Network.Sources)
    requires Enabled(w, e, sources) && (e.Complete? || e.Quit?) && f in Apply(w, e, sources).finishers
    ensures f in w.finishers && w.finishers[f] == Apply(w, e, sources).finishers[f]
  {
    assert Apply(w, e, sources).finishers == w.finishers - {e.finisher};
  }

  lemma MovingKeepsStage(w: World, e: Event, f: nat, sources: Network.Sources)
    requires Enabled(w, e, sources) && (e.Link? || e.Tidy?)
    requires f in Apply(w, e, sources).finishers && Apply(w, e, sources).finishers[f].stage.Checked?
    ensures f in w.finishers && w.finishers[f] == Apply(w, e, sources).finishers[f]
  {
  }

  lemma FinishStaysTruthful(w: World, e: Event, f: nat, sources: Network.Sources)
    requires Enabled(w, e, sources) && Safe(w, sources) && f in Apply(w, e, sources).finishers
    ensures TruthfulFinish(Apply(w, e, sources), Apply(w, e, sources).finishers[f], sources)
  {
    var w' := Apply(w, e, sources);
    var job := w'.finishers[f];
    FinisherMovesOn(w, e, f, sources);
    assert f in w.finishers ==> TruthfulFinish(w, w.finishers[f], sources);
    if job.stage.Checked? {
      FoundWhole(w, w', e, f, sources);
      StepKeepsWhole(w, e, job.stage.body, job.path, sources);
    }
  }

  lemma SessionsStayTruthful(w: World, w': World, e: Event, t: Id, sources: Network.Sources)
    requires Enabled(w, e, sources) && Truthful(w, sources) && w' == Apply(w, e, sources) && t in w'.sessions
    ensures HasParts(w'.sessions[t], sources)
  {
    assert t in w.sessions ==> HasParts(w.sessions[t], sources);
    if e.Mark? {
      MarkHasParts(w, e.token, t, sources);
    } else if e.Delete? || e.Accept? {
      TableHasParts(w, e, t, sources);
    } else {
      PartsStay(w, e, t, sources);
    }
  }

  lemma MarkHasParts(w: World, token: Id, t: Id, sources: Network.Sources)
    requires token in w.sessions && t in w.sessions && HasParts(w.sessions[t], sources)
    ensures HasParts(DoMark(w, token).sessions[t], sources)
  {
  }

  lemma TableHasParts(w: World, e: Event, t: Id, sources: Network.Sources)
    requires Enabled(w, e, sources) && (e.Delete? || e.Accept?) && t in Apply(w, e, sources).sessions
    requires t in w.sessions ==> HasParts(w.sessions[t], sources)
    ensures HasParts(Apply(w, e, sources).sessions[t], sources)
  {
  }

  lemma PartsStay(w: World, e: Event, t: Id, sources: Network.Sources)
    requires Enabled(w, e, sources) && !e.Mark? && !e.Delete? && !e.Accept? && t in Apply(w, e, sources).sessions
    ensures var s := Apply(w, e, sources).sessions[t];
            t in w.sessions && s.paths == w.sessions[t].paths && s.doomed == w.sessions[t].doomed
  {
    if e.Complete? {
      CompletePartsStay(w, e.finisher, t, sources);
    } else if e.End? {
      EndIsLocal(w, e.handler, e.refused, t);
    } else {
      StepFrame(w, e, sources);
    }
  }

  lemma CompletePartsStay(w: World, f: nat, t: Id, sources: Network.Sources)
    requires InStage(w, f, Tidied) && t in DoComplete(w, f, sources).sessions
    ensures var s := DoComplete(w, f, sources).sessions[t];
            t in w.sessions && s.paths == w.sessions[t].paths && s.doomed == w.sessions[t].doomed
  {
  }

  lemma StepKeepsSafe(w: World, e: Event, sources: Network.Sources)
    requires Enabled(w, e, sources) && Safe(w, sources)
    ensures Safe(Apply(w, e, sources), sources)
  {
    StepKeepsHomes(w, e, sources);
    StepKeepsInStep(w, e, sources);
    var w' := Apply(w, e, sources);
    forall t | t in w'.sessions
      ensures HasParts(w'.sessions[t], sources)
    {
      SessionsStayTruthful(w, w', e, t, sources);
    }
    StepMovesOn(w, e, sources);
    forall h | h in w'.handlers
      ensures TruthfulRequest(w', h, sources)
    {
      assert h in w.handlers ==> TruthfulRequest(w, h, sources);
      if e.Post? && h == e.handler {
        PostIsTruthful(w, e.attempt, h, e.length, sources);
      }
      RequestStaysTruthful(w, w', if e.Post? then Some(e.handler) else None, h, sources);
    }
    forall f | f in w'.finishers
      ensures TruthfulFinish(w', w'.finishers[f], sources)
    {
      FinishStaysTruthful(w, e, f, sources);
    }
  }

  // ----- Saved files -----

  /** A name that is not a part's stays when a part's name goes. */
  lemma UnlinkKeepsOthers(w: World, p: Path, refused: bool, dest: Path)
    requires dest in w.links && dest != p
    ensures dest in Unlink(w, p, refused).links && Unlink(w, p, refused).links[dest] == w.links[dest]
  {
  }

  lemma UnlinkingKeepsOtherNames(w: World, e: Event, dest: Path, sources: Network.Sources)
    requires Enabled(w, e, sources) && Safe(w, sources) && dest in w.links && dest !in sources
    requires e.End? || e.Delete? || e.Tidy?
    ensures var w' := Apply(w, e, sources); dest in w'.links && w'.links[dest] == w.links[dest]
  {
    match e
    case End(h, refused) => UnlinkKeepsOthers(To(w, h, Turned), w.handlers[h].path, refused, dest);
    case Delete(token, p, refused) =>
      assert HasParts(w.sessions[token], sources);
      DeleteKeepsTheRest(w, token, p, refused);
    case Tidy(f, refused) =>
      assert TruthfulFinish(w, w.finishers[f], sources);
      UnlinkKeepsOthers(AtStage(w, f, Tidied), w.finishers[f].path, refused, dest);
  }

  /** No step removes or replaces a name that is not a part's. */
  lemma StepKeepsOtherNames(w: World, e: Event, dest: Path, sources: Network.Sources)
    requires Enabled(w, e, sources) && Safe(w, sources) && dest in w.links && dest !in sources
    ensures var w' := Apply(w, e, sources); dest in w'.links && w'.links[dest] == w.links[dest]
  {
    if e.End? || e.Delete? || e.Tidy? {
      UnlinkingKeepsOtherNames(w, e, dest, sources);
    } else if !TouchesLinks(e) {
      StepFrame(w, e, sources);
    }
  }

  /** In every run, through cancels, repeated finishes and handlers that still have the part open, a
      saved file keeps its name and stays its source byte for byte. */
  lemma {:induction false} SavedFilesNeverChange(w: World, events: seq<Event>, dest: Path, p: Path,
                                                 sources: Network.Sources)
    requires IsRun(w, events, sources) && Safe(w, sources)
    requires dest !in sources && dest in w.links && Whole(w, w.links[dest], p, sources)
    ensures Safe(Exec(w, events, sources), sources)
    ensures dest in Exec(w, events, sources).links && Part(Exec(w, events, sources), dest) == sources[p]
    decreases |events|
  {
    if events != [] {
      StepKeepsSafe(w, events[0], sources);
      StepKeepsOtherNames(w, events[0], dest, sources);
      StepKeepsWhole(w, events[0], w.links[dest], p, sources);
      SavedFilesNeverChange(Apply(w, events[0], sources), events[1..], dest, p, sources);
    }
  }

  /** A finish that links the body it checked saves the source, for good. */
  lemma FinishSavesForGood(w: World, f: nat, dest: Path, events: seq<Event>, sources: Network.Sources)
    requires Safe(w, sources) && CanLink(w, f, dest, sources)
    requires w.finishers[f].stage == Checked(w.links[w.finishers[f].path])
    requires IsRun(DoLink(w, f, dest), events, sources)
    ensures var w' := Exec(DoLink(w, f, dest), events, sources);
            dest in w'.links && Part(w', dest) == sources[w.finishers[f].path]
  {
    StepKeepsSafe(w, Link(f, dest), sources);
    var p := w.finishers[f].path;
    assert TruthfulFinish(w, w.finishers[f], sources);
    StepKeepsWhole(w, Link(f, dest), w.links[p], p, sources);
    SavedFilesNeverChange(DoLink(w, f, dest), events, dest, p, sources);
  }

  /** A part keeps its body as long as nobody deletes or tidies its name. */
  ghost predicate Spares(w: World, e: Event, p: Path) {
    match e
    case End(h, refused) => h in w.handlers && w.handlers[h].path == p ==> !IsCancelled(w, w.handlers[h].token)
    case Delete(_, q, _) => q != p
    case Tidy(f, _) => f in w.finishers ==> w.finishers[f].path != p
    case _ => true
  }

  lemma StepSparesPart(w: World, e: Event, p: Path, sources: Network.Sources)
    requires Enabled(w, e, sources) && p in w.links && p in sources && Spares(w, e, p)
    ensures var w' := Apply(w, e, sources); p in w'.links && w'.links[p] == w.links[p]
  {
    if !TouchesLinks(e) {
      StepFrame(w, e, sources);
    }
  }

  ghost predicate SparesRun(w: World, events: seq<Event>, p: Path, sources: Network.Sources)
    requires IsRun(w, events, sources)
    decreases |events|
  {
    events != [] ==> Spares(w, events[0], p) && SparesRun(Apply(w, events[0], sources), events[1..], p, sources)
  }

  /** A part that is whole when it is checked stays whole until its name goes, so every finish of it
      that links before that saves the source. */
  lemma {:induction false} CheckedPartIsSaved(w: World, events: seq<Event>, p: Path, sources: Network.Sources)
    requires Safe(w, sources) && p in w.links && p in sources && Part(w, p) == sources[p]
    requires IsRun(w, events, sources) && SparesRun(w, events, p, sources)
    ensures var w' := Exec(w, events, sources);
            && p in w'.links && Part(w', p) == sources[p]
            && forall f, dest :: CanLink(w', f, dest, sources) && w'.finishers[f].path == p ==>
                 Part(DoLink(w', f, dest), dest) == sources[p]
    decreases |events|
  {
    assert HasHome(w, w.links[p], p);
    if events != [] {
      var w1 := Apply(w, events[0], sources);
      StepKeepsSafe(w, events[0], sources);
      StepSparesPart(w, events[0], p, sources);
      StepKeepsWhole(w, events[0], w.links[p], p, sources);
      CheckedPartIsSaved(w1, events[1..], p, sources);
    }
  }

  /** Without that, a second finish can save something else: between its check and its link another
      finish of the file tidies the part and a late chunk opens it anew. */
  lemma RepeatedFinishMaySaveNothing(w: World, f: nat, g: nat, h: nat, spare: nat, p: Path, dest: Path,
                                     sources: Network.Sources)
    requires f in w.finishers && w.finishers[f].path == p && w.finishers[f].stage.Checked?
    requires f != g && InStage(w, g, Linked)
    requires w.finishers[g].path == p && CanOpen(w, h, spare) && w.handlers[h].path == p
    requires dest !in w.links && dest !in sources && p in sources && sources[p] != []
    ensures var w1 := DoTidy(w, g, false);
            var w2 := DoOpen(w1, h, spare);
            && CanTidy(w, g, false) && CanOpen(w1, h, spare) && CanLink(w2, f, dest, sources)
            && Part(DoLink(w2, f, dest), dest) == [] != sources[p]
  {
  }

  // ----- The counterexample from a state at rest -----

  /** The request for all of the source, in a phase. */
  function Request(token: Id, p: Path, source: seq<Octet>, phase: Phase): Handler {
    Handler(token, p, 0, source, if phase.Queued? || phase.Begun? then 0 else |source|, phase)
  }

  /** One attempt asks for the missing part, posts all of its source, and passes the session check. */
  lemma OneRequest(w: World, k: nat, token: Id, p: Path, sources: Network.Sources) returns (events: seq<Event>, w': World)
    requires token in w.sessions && !w.sessions[token].cancelled && p in w.sessions[token].paths
    requires p in sources && sources[p] != [] && p !in w.links && k !in w.attempts && k !in w.handlers
    ensures Leads(w, events, w', sources)
    ensures w'.handlers == w.handlers[k := Request(token, p, sources[p], Begun)]
    ensures w'.attempts.Keys == w.attempts.Keys + {k} && w' == w.(handlers := w'.handlers, attempts := w'.attempts)
  {
    var source := sources[p];
    var w1 := DoAsk(w, k, token, p);
    assert w1.attempts[k] == Attempt(token, p, 0, 0, None);
    assert source[0..0 + |source|] == source;
    var w2 := DoPost(w1, k, k, |source|, sources);
    assert w2.handlers == w.handlers[k := Request(token, p, source, Queued)];
    w' := DoBegin(w2, k);
    assert w'.handlers == w.handlers[k := Request(token, p, source, Begun)];
    OneStep(w2, Begin(k), [], w', sources);
    OneStep(w1, Post(k, k, |source|), [Begin(k)] + [], w', sources);
    OneStep(w, Ask(k, token, p), [Post(k, k, |source|)] + ([Begin(k)] + []), w', sources);
    events := [Ask(k, token, p)] + ([Post(k, k, |source|)] + ([Begin(k)] + []));
  }

  /** The world with the part made and written by handler k, now in this phase. */
  function Uploaded(w: World, k: nat, spare: nat, token: Id, p: Path, source: seq<Octet>, phase: Phase): World {
    w.(links := w.links[p := spare], bodies := w.bodies[spare := source], homes := w.homes[spare := p],
       handlers := w.handlers[k := Request(token, p, source, phase)])
  }

  lemma OpenAndWrite(w: World, k: nat, spare: nat, token: Id, p: Path, source: seq<Octet>)
    requires k in w.handlers && w.handlers[k] == Request(token, p, source, Begun) && source != []
    requires p !in w.links && spare !in w.bodies && spare !in w.homes
    ensures CanOpen(w, k, spare) && CanWrite(DoOpen(w, k, spare), k, |source|)
    ensures DoWrite(DoOpen(w, k, spare), k, |source|) == Uploaded(w, k, spare, token, p, source, Opened(spare))
  {
    var w1 := DoOpen(w, k, spare);
    assert source[0..0 + |source|] == source;
    assert WriteAt([], 0, source) == source;
    var w2 := DoWrite(w1, k, |source|);
    assert w2.bodies == w.bodies[spare := source];
    assert w2.handlers == w.handlers[k := Request(token, p, source, Opened(spare))];
  }

  lemma CloseAndEnd(w: World, k: nat, spare: nat, token: Id, p: Path, source: seq<Octet>, sources: Network.Sources)
    requires k in w.handlers && w.handlers[k] == Request(token, p, source, Opened(spare)) && spare in w.bodies
    requires !IsCancelled(w, token)
    ensures Leads(w, [Close(k)] + ([End(k, false)] + []), WithNote(To(w, k, Answered), token, p, |source|), sources)
  {
    var w1, w' := To(w, k, Closed), WithNote(To(w, k, Answered), token, p, |source|);
    assert To(w1, k, Answered) == To(w, k, Answered);
    OneStep(w1, End(k, false), [], w', sources);
    OneStep(w, Close(k), [End(k, false)] + [], w', sources);
  }

  /** The handler makes the part and writes all of it. */
  lemma OneUpload(w: World, k: nat, spare: nat, token: Id, p: Path, sources: Network.Sources)
    returns (events: seq<Event>, w': World)
    requires p in sources && sources[p] != [] && k in w.handlers && w.handlers[k] == Request(token, p, sources[p], Begun)
    requires !IsCancelled(w, token) && p !in w.links && spare !in w.bodies && spare !in w.homes
    ensures Leads(w, events, w', sources)
    ensures w' == WithNote(Uploaded(w, k, spare, token, p, sources[p], Answered), token, p, |sources[p]|)
  {
    var source := sources[p];
    OpenAndWrite(w, k, spare, token, p, source);
    var w1, w2 := DoOpen(w, k, spare), Uploaded(w, k, spare, token, p, source, Opened(spare));
    assert To(w2, k, Answered) == Uploaded(w, k, spare, token, p, source, Answered);
    w' := WithNote(To(w2, k, Answered), token, p, |source|);
    CloseAndEnd(w2, k, spare, token, p, source, sources);
    events := [Close(k)] + ([End(k, false)] + []);
    OneStep(w1, Write(k, |source|), events, w', sources);
    events := [Write(k, |source|)] + events;
    OneStep(w, Open(k, spare), events, w', sources);
    events := [Open(k, spare)] + events;
  }

  /** A finish request enters and finds the part whole. */
  lemma EnterAndCheck(w: World, f: nat, token: Id, p: Path, sources: Network.Sources)
    returns (events: seq<Event>, w': World)
    requires CanEnter(w, f, token, p, sources) && p in w.links && Part(w, p) == sources[p]
    ensures Leads(w, events, w', sources)
    ensures w' == w.(finishers := w.finishers[f := Finisher(token, p, Checked(w.links[p]))])
  {
    var w1 := DoEnter(w, f, token, p);
    w' := DoCheck(w1, f);
    assert w'.finishers == w.finishers[f := Finisher(token, p, Checked(w.links[p]))];
    OneStep(w1, Check(f), [], w', sources);
    OneStep(w, Enter(f, token, p), [Check(f)] + [], w', sources);
    events := [Enter(f, token, p)] + ([Check(f)] + []);
  }

  /** It links the part's body and removes the part's name. */
  lemma LinkAndTidy(w: World, f: nat, p: Path, dest: Path, sources: Network.Sources) returns (events: seq<Event>, w': World)
    requires CanLink(w, f, dest, sources) && w.finishers[f].path == p && p in sources
    ensures Leads(w, events, w', sources)
    ensures w' == w.(links := w.links[dest := w.links[p]] - {p},
                     finishers := w.finishers[f := w.finishers[f].(stage := Tidied)])
  {
    var w1 := DoLink(w, f, dest);
    w' := DoTidy(w1, f, false);
    assert w'.finishers == w.finishers[f := w.finishers[f].(stage := Tidied)];
    OneStep(w1, Tidy(f, false), [], w', sources);
    OneStep(w, Link(f, dest), [Tidy(f, false)] + [], w', sources);
    events := [Link(f, dest)] + ([Tidy(f, false)] + []);
  }

  /** Two finish requests check the part, and the second commits it. */
  lemma TwoFinishes(w: World, token: Id, p: Path, dest: Path, sources: Network.Sources)
    returns (events: seq<Event>, w': World)
    requires token in w.sessions && !w.sessions[token].cancelled && p in w.sessions[token].paths
    requires p in sources && p in w.links && Part(w, p) == sources[p] && w.finishers == map[]
    requires dest !in w.links && dest !in sources
    ensures Leads(w, events, w', sources)
    ensures w' == w.(links := w'.links, finishers := w'.finishers)
    ensures 0 in w'.finishers && w'.finishers[0].path == p && w'.finishers[0].stage.Checked?
    ensures w'.links.Keys == w.links.Keys - {p} + {dest}
  {
    var e1, w1 := EnterAndCheck(w, 0, token, p, sources);
    var e2, w2 := EnterAndCheck(w1, 1, token, p, sources);
    StepsJoin(w, e1, w1, e2, w2, sources);
    var e3, w3 := LinkAndTidy(w2, 1, p, dest, sources);
    StepsJoin(w, e1 + e2, w2, e3, w3, sources);
    events, w' := e1 + e2 + e3, w3;
  }

  /** A late request makes the part anew, and the first finish commits that. */
  lemma LateCommit(w: World, k: nat, spare: nat, p: Path, dest: Path, sources: Network.Sources)
    returns (events: seq<Event>, w': World)
    requires CanOpen(w, k, spare) && w.handlers[k].path == p && p !in w.links && p in sources
    requires 0 in w.finishers && w.finishers[0].path == p && w.finishers[0].stage.Checked?
    requires dest !in w.links && dest !in sources
    ensures Leads(w, events, w', sources) && dest in w'.links && Part(w', dest) == []
  {
    var w1 := DoOpen(w, k, spare);
    w' := DoLink(w1, 0, dest);
    OneStep(w1, Link(0, dest), [], w', sources);
    OneStep(w, Open(k, spare), [Link(0, dest)] + [], w', sources);
    events := [Open(k, spare)] + ([Link(0, dest)] + []);
  }

  /** Two attempts send the file: one request is written and answered, the other is past its check. */
  lemma TwoRequests(w: World, token: Id, p: Path, spare: nat, sources: Network.Sources)
    returns (events: seq<Event>, w': World)
    requires w.handlers == map[] && w.attempts == map[]
    requires token in w.sessions && !w.sessions[token].cancelled && p in w.sessions[token].paths
    requires p in sources && sources[p] != [] && p !in w.links && spare !in w.bodies && spare !in w.homes
    ensures Leads(w, events, w', sources)
    ensures w'.links == w.links[p := spare] && w'.bodies == w.bodies[spare := sources[p]] && w'.homes == w.homes[spare := p]
    ensures token in w'.sessions && !w'.sessions[token].cancelled && p in w'.sessions[token].paths
    ensures w'.finishers == w.finishers && 1 in w'.handlers && w'.handlers[1] == Request(token, p, sources[p], Begun)
  {
    var e1, w1 := OneRequest(w, 0, token, p, sources);
    var e2, w2 := OneRequest(w1, 1, token, p, sources);
    StepsJoin(w, e1, w1, e2, w2, sources);
    var e3, w3 := OneUpload(w2, 0, spare, token, p, sources);
    StepsJoin(w, e1 + e2, w2, e3, w3, sources);
    events, w' := e1 + e2 + e3, w3;
  }

  /** From any state at rest in which a session waits for a file that is not empty there is a run of its
      own sender and finish requests that saves the file under one name and an empty file under another. */
  lemma RestCanSaveNothing(w: World, token: Id, p: Path, a: nat, b: nat, dest: Path, other: Path, sources: Network.Sources)
    returns (events: seq<Event>)
    requires w.handlers == map[] && w.attempts == map[] && w.finishers == map[]
    requires token in w.sessions && !w.sessions[token].cancelled && p in w.sessions[token].paths
    requires p in sources && sources[p] != [] && p !in w.links
    requires a != b && {a, b} !! w.bodies.Keys && {a, b} !! w.homes.Keys
    requires dest != other && {dest, other} !! w.links.Keys && {dest, other} !! sources.Keys
    ensures IsRun(w, events, sources)
    ensures other in Exec(w, events, sources).links && Part(Exec(w, events, sources), other) == [] != sources[p]
  {
    var e1, w1 := TwoRequests(w, token, p, a, sources);
    var e2, w2 := TwoFinishes(w1, token, p, dest, sources);
    StepsJoin(w, e1, w1, e2, w2, sources);
    var e3, w3 := LateCommit(w2, 1, b, p, other, sources);
    StepsJoin(w, e1 + e2, w2, e3, w3, sources);
    events := e1 + e2 + e3;
  }
}
