/** When a cancel holds: a finish request that was past its session check when the cancel came does not look
    again, and can make the session a completed one (server/routes.rs 466-618). */
module MachineRevival {
  import opened Wrappers
  import opened Octets
  import opened Names
  import opened Receiver
  import opened Machine
  import opened MachineHomes
  import opened MachineCancel
  import Network

  /** Some finish request of the session is on its way for this file. */
  ghost predicate Finishing(w: World, token: Id, p: Path) {
    exists f :: f in w.finishers && w.finishers[f].token == token && w.finishers[f].path == p
  }

  /** The finish requests on their way cannot complete the cancelled session: there are none, or a file that
      is not done has none. */
  ghost predicate Final(w: World, token: Id, sources: Network.Sources) {
    && IsCancelled(w, token)
    && ((forall f :: f in w.finishers ==> w.finishers[f].token != token)
        || exists p :: p in w.sessions[token].paths && !IsDone(w.sessions[token], p, sources) && !Finishing(w, token, p))
  }

  // ----- A cancel that holds -----

  /** No finish request of a cancelled session starts. */
  lemma NoneStarts(w: World, e: Event, token: Id, p: Path, sources: Network.Sources)
    requires Enabled(w, e, sources) && IsCancelled(w, token) && Finishing(Apply(w, e, sources), token, p)
    ensures Finishing(w, token, p)
  {
    var w' := Apply(w, e, sources);
    var f :| f in w'.finishers && w'.finishers[f].token == token && w'.finishers[f].path == p;
    FinisherMovesOn(w, e, f, sources);
  }

  lemma CompleteKeepsNotes(w: World, f: nat, token: Id, p: Path, sources: Network.Sources)
    requires InStage(w, f, Tidied) && token in w.sessions && !Finishing(w, token, p)
    requires !IsDone(w.sessions[token], p, sources)
    ensures !IsDone(DoComplete(w, f, sources).sessions[token], p, sources)
  {
    assert w.finishers[f].token == token ==> w.finishers[f].path != p;
  }

  /** A file of a cancelled session that no finish request is on its way for does not get done. */
  lemma StaysUndone(w: World, e: Event, token: Id, p: Path, sources: Network.Sources)
    requires Enabled(w, e, sources) && IsCancelled(w, token) && !Finishing(w, token, p)
    requires !IsDone(w.sessions[token], p, sources)
    ensures token in Apply(w, e, sources).sessions && !IsDone(Apply(w, e, sources).sessions[token], p, sources)
  {
    StepKeepsSessions(w, e, token, sources);
    if e.End? {
      EndIsLocal(w, e.handler, e.refused, token);
    } else if e.Complete? {
      CompleteKeepsNotes(w, e.finisher, token, p, sources);
    } else if !TouchesSessions(e) {
      StepFrame(w, e, sources);
    }
  }

  lemma FinalIsNotRevived(w: World, f: nat, token: Id, sources: Network.Sources)
    requires Final(w, token, sources)
    ensures !Revives(w, f, token, sources)
  {
    if f in w.finishers && w.finishers[f].token == token {
      var p :| p in w.sessions[token].paths && !IsDone(w.sessions[token], p, sources) && !Finishing(w, token, p);
      var q := w.finishers[f].path;
      assert q != p;
      assert !IsDone(Noted(w.sessions[token], q, SizeOf(q, sources)), p, sources);
    }
  }

  /** A file without a finish request stays so, and undone. */
  lemma FileStaysUndone(w: World, e: Event, token: Id, p: Path, sources: Network.Sources)
    requires Enabled(w, e, sources) && IsCancelled(w, token) && !Finishing(w, token, p)
    requires !IsDone(w.sessions[token], p, sources)
    ensures token in Apply(w, e, sources).sessions && !IsDone(Apply(w, e, sources).sessions[token], p, sources)
    ensures !Finishing(Apply(w, e, sources), token, p)
  {
    StaysUndone(w, e, token, p, sources);
    if Finishing(Apply(w, e, sources), token, p) {
      NoneStarts(w, e, token, p, sources);
    }
  }

  lemma StepKeepsFinal(w: World, e: Event, token: Id, sources: Network.Sources)
    requires Enabled(w, e, sources) && Final(w, token, sources)
    ensures Final(Apply(w, e, sources), token, sources)
  {
    var w' := Apply(w, e, sources);
    StepKeepsSessions(w, e, token, sources);
    if e.Complete? {
      FinalIsNotRevived(w, e.finisher, token, sources);
    }
    if p :| p in w.sessions[token].paths && !IsDone(w.sessions[token], p, sources) && !Finishing(w, token, p) {
      FileStaysUndone(w, e, token, p, sources);
    } else {
      forall f | f in w'.finishers
        ensures w'.finishers[f].token != token
      {
        FinisherMovesOn(w, e, f, sources);
      }
    }
  }

  lemma EndAnswers(w: World, k: nat, refused: bool, h: nat)
    requires CanEnd(w, k, refused) && InPhase(DoEnd(w, k, refused), h, Answered)
    ensures h in w.handlers && DoEnd(w, k, refused).handlers[h].token == w.handlers[h].token
    ensures w.handlers[h].phase == Answered || !IsCancelled(w, w.handlers[h].token)
  {
  }

  /** A step answers no chunk but one whose session is not cancelled at that moment. */
  lemma StepAnswers(w: World, e: Event, h: nat, sources: Network.Sources)
    requires Enabled(w, e, sources) && InPhase(Apply(w, e, sources), h, Answered)
    ensures h in w.handlers && Apply(w, e, sources).handlers[h].token == w.handlers[h].token
    ensures w.handlers[h].phase == Answered || !IsCancelled(w, w.handlers[h].token)
  {
    if e.End? {
      EndAnswers(w, e.handler, e.refused, h);
    } else if !TouchesHandlers(e) {
      StepFrame(w, e, sources);
    }
  }

  /** Once the session is marked and the finish requests on their way cannot complete it, it stays cancelled
      and no chunk of it is accepted any more: the accepted ones of any later state were accepted before. */
  lemma {:induction false} NothingIsAcceptedAfterCancel(w: World, events: seq<Event>, token: Id, sources: Network.Sources)
    requires IsRun(w, events, sources) && Final(w, token, sources)
    ensures var w' := Exec(w, events, sources);
            && Final(w', token, sources)
            && forall h :: InPhase(w', h, Answered) && w'.handlers[h].token == token ==>
                 InPhase(w, h, Answered) && w.handlers[h].token == token
    decreases |events|
  {
    if events != [] {
      StepKeepsFinal(w, events[0], token, sources);
      var w1 := Apply(w, events[0], sources);
      NothingIsAcceptedAfterCancel(w1, events[1..], token, sources);
      forall h | InPhase(w1, h, Answered) && w1.handlers[h].token == token
        ensures InPhase(w, h, Answered) && w.handlers[h].token == token
      {
        StepAnswers(w, events[0], h, sources);
      }
    }
  }

  /** And, unless a failure strands a part, once all is over no part of it is left. */
  lemma FinalCancelLeavesNothing(w: World, events: seq<Event>, token: Id, sources: Network.Sources)
    requires Homes(w, sources) && Sound(w, token, sources) && IsRun(w, events, sources)
             && OrderlyRun(w, events, token, sources)
    requires Final(w, token, sources) && AllIsOver(Exec(w, events, sources), token)
    ensures forall p :: p in w.sessions[token].paths ==> p !in Exec(w, events, sources).links
  {
    NothingIsAcceptedAfterCancel(w, events, token, sources);
    NoPartIsLeft(w, events, token, sources);
  }

  // ----- A cancel that does not -----

  /** The finish request can get to its end without help: the part it still has to commit is there, and whole
      if it has yet to be checked. */
  predicate Ready(w: World, f: nat, sources: Network.Sources)
    requires f in w.finishers
  {
    var p := w.finishers[f].path;
    match w.finishers[f].stage
    case Entered => p in w.links && p in sources && Part(w, p) == sources[p]
    case Checked(_) => p in w.links
    case _ => true
  }

  /** Finish request f is over, and all it did was to note its file, take its part's name and add dest. */
  ghost predicate Went(w: World, w': World, f: nat, dest: Path, sources: Network.Sources)
    requires f in w.finishers
  {
    && w' == w.(sessions := DoComplete(w, f, sources).sessions, links := w'.links, finishers := w.finishers - {f})
    && w'.links.Keys <= w.links.Keys + {dest}
    && (forall q :: q in w.links && q != w.finishers[f].path ==> q in w'.links && w'.links[q] == w.links[q])
  }

  lemma LastStep(w: World, f: nat, dest: Path, sources: Network.Sources)
    requires InStage(w, f, Tidied)
    ensures Leads(w, [Complete(f)], DoComplete(w, f, sources), sources)
    ensures Went(w, DoComplete(w, f, sources), f, dest, sources)
  {
    OneStep(w, Complete(f), [], DoComplete(w, f, sources), sources);
    assert [Complete(f)] + [] == [Complete(f)];
  }

  lemma FromLinked(w: World, f: nat, dest: Path, sources: Network.Sources) returns (events: seq<Event>, w': World)
    requires InStage(w, f, Linked)
    ensures Leads(w, events, w', sources) && Went(w, w', f, dest, sources)
  {
    var w1 := DoTidy(w, f, false);
    w' := DoComplete(w1, f, sources);
    LastStep(w1, f, dest, sources);
    OneStep(w, Tidy(f, false), [Complete(f)], w', sources);
    events := [Tidy(f, false)] + [Complete(f)];
    assert w1.finishers - {f} == w.finishers - {f};
  }

  lemma FromChecked(w: World, f: nat, dest: Path, sources: Network.Sources) returns (events: seq<Event>, w': World)
    requires f in w.finishers && w.finishers[f].stage.Checked? && w.finishers[f].path in w.links
    requires dest !in w.links && dest !in sources
    ensures Leads(w, events, w', sources) && Went(w, w', f, dest, sources)
  {
    var w1 := DoLink(w, f, dest);
    events, w' := FromLinked(w1, f, dest, sources);
    OneStep(w, Link(f, dest), events, w', sources);
    events := [Link(f, dest)] + events;
    assert w1.finishers - {f} == w.finishers - {f};
  }

  lemma FromEntered(w: World, f: nat, dest: Path, sources: Network.Sources) returns (events: seq<Event>, w': World)
    requires CanCheck(w, f, sources) && dest !in w.links && dest !in sources
    ensures Leads(w, events, w', sources) && Went(w, w', f, dest, sources)
  {
    var w1 := DoCheck(w, f);
    events, w' := FromChecked(w1, f, dest, sources);
    OneStep(w, Check(f), events, w', sources);
    events := [Check(f)] + events;
    assert w1.finishers - {f} == w.finishers - {f};
  }

  lemma ToTheEnd(w: World, f: nat, dest: Path, sources: Network.Sources) returns (events: seq<Event>, w': World)
    requires f in w.finishers && Ready(w, f, sources) && dest !in w.links && dest !in sources
    ensures Leads(w, events, w', sources) && Went(w, w', f, dest, sources)
  {
    match w.finishers[f].stage
    case Entered =>
      events, w' := FromEntered(w, f, dest, sources);
    case Checked(_) =>
      events, w' := FromChecked(w, f, dest, sources);
    case Linked =>
      events, w' := FromLinked(w, f, dest, sources);
    case Tidied =>
      LastStep(w, f, dest, sources);
      events, w' := [Complete(f)], DoComplete(w, f, sources);
  }

  /** The files of the session that are not done. */
  function Undone(s: Held, sources: Network.Sources): set<Path> {
    set p | p in s.paths && !IsDone(s, p, sources)
  }

  lemma AllDoneExactly(s: Held, sources: Network.Sources)
    ensures AllDone(s, sources) <==> Undone(s, sources) == {}
  {
    if Undone(s, sources) == {} {
      forall p | p in s.paths
        ensures IsDone(s, p, sources)
      {
        assert p !in Undone(s, sources);
      }
    }
  }

  lemma NotedUndone(s: Held, p: Path, sources: Network.Sources)
    ensures Undone(Noted(s, p, SizeOf(p, sources)), sources) == Undone(s, sources) - {p}
    ensures AllDone(Noted(s, p, SizeOf(p, sources)), sources) <==> Undone(s, sources) <= {p}
  {
    var s' := Noted(s, p, SizeOf(p, sources));
    assert forall q :: q != p ==> (IsDone(s', q, sources) <==> IsDone(s, q, sources));
    assert Undone(s', sources) == Undone(s, sources) - {p};
    AllDoneExactly(s', sources);
  }

  /** Fewer bytes are noted for this file than its source has. */
  ghost predicate Lacks(s: Held, p: Path, sources: Network.Sources) {
    p in sources && |sources[p]| > 0 && (p in s.progress ==> s.progress[p] < |sources[p]|)
  }

  /** The last step of a finish leaves its session cancelled exactly when another of its files lacks bytes. */
  lemma StaysCancelledExactly(w: World, f: nat, sources: Network.Sources)
    requires InStage(w, f, Tidied) && IsCancelled(w, w.finishers[f].token)
    ensures var Finisher(token, done, _) := w.finishers[f];
            IsCancelled(Apply(w, Complete(f), sources), token)
            <==> exists p :: p in w.sessions[token].paths && p != done && Lacks(w.sessions[token], p, sources)
  {
    var Finisher(token, done, _) := w.finishers[f];
    var s := w.sessions[token];
    NotedUndone(s, done, sources);
    assert forall p :: Lacks(s, p, sources) <==> !IsDone(s, p, sources);
    if p :| p in Undone(s, sources) && p != done {
      assert Lacks(s, p, sources);
    }
  }

  /** Every file that is not done has a finish request that can get to its end. */
  ghost predicate AllReady(w: World, token: Id, sources: Network.Sources)
    requires token in w.sessions
  {
    && (forall p :: p in Undone(w.sessions[token], sources) ==> Finishing(w, token, p))
    && (forall f :: f in w.finishers && w.finishers[f].token == token
                      && w.finishers[f].path in Undone(w.sessions[token], sources) ==>
          Ready(w, f, sources))
  }

  /** The names are new and differ. */
  ghost predicate Fresh(w: World, dests: seq<Path>, sources: Network.Sources) {
    && (forall i :: 0 <= i < |dests| ==> dests[i] !in w.links && dests[i] !in sources)
    && (forall i, j :: 0 <= i < j < |dests| ==> dests[i] != dests[j])
  }

  lemma StaysFresh(w: World, w': World, f: nat, dests: seq<Path>, sources: Network.Sources)
    requires |dests| > 0 && Fresh(w, dests, sources) && f in w.finishers && Went(w, w', f, dests[0], sources)
    ensures Fresh(w', dests[1..], sources)
  {
    forall i | 0 <= i < |dests[1..]|
      ensures dests[1..][i] !in w'.links && dests[1..][i] !in sources
    {
      assert dests[1..][i] == dests[i + 1] && dests[i + 1] != dests[0];
    }
  }

  /** One finish request gets to its end: the others, of other files, stay ready. */
  lemma StaysReady(w: World, w': World, f: nat, token: Id, dest: Path, sources: Network.Sources)
    requires token in w.sessions && AllReady(w, token, sources) && f in w.finishers && Went(w, w', f, dest, sources)
    requires w.finishers[f].token == token
    requires token in w'.sessions
    requires Undone(w'.sessions[token], sources) == Undone(w.sessions[token], sources) - {w.finishers[f].path}
    ensures AllReady(w', token, sources)
  {
    forall p | p in Undone(w'.sessions[token], sources)
      ensures Finishing(w', token, p)
    {
      assert Finishing(w, token, p);
      var g :| g in w.finishers && w.finishers[g].token == token && w.finishers[g].path == p;
      assert g in w'.finishers && w'.finishers[g] == w.finishers[g];
    }
    forall g | g in w'.finishers && w'.finishers[g].token == token
               && w'.finishers[g].path in Undone(w'.sessions[token], sources)
      ensures Ready(w', g, sources)
    {
      assert g in w.finishers && w'.finishers[g] == w.finishers[g] && Ready(w, g, sources);
    }
  }

  /** A finish request of the session gets to its end: its file is done, and if it was the last one, the
      session is no longer cancelled. */
  lemma CompletesOne(w: World, w': World, f: nat, token: Id, dest: Path, sources: Network.Sources)
    requires IsCancelled(w, token) && f in w.finishers && w.finishers[f].token == token
    requires Went(w, w', f, dest, sources)
    ensures token in w'.sessions && w'.sessions[token].paths == w.sessions[token].paths
    ensures Undone(w'.sessions[token], sources) == Undone(w.sessions[token], sources) - {w.finishers[f].path}
    ensures w'.sessions[token].cancelled <==> !(Undone(w.sessions[token], sources) <= {w.finishers[f].path})
  {
    var p := w.finishers[f].path;
    NotedUndone(w.sessions[token], p, sources);
    var s := Noted(w.sessions[token], p, SizeOf(p, sources));
    assert w'.sessions[token] == Settled(s, sources);
    assert forall q :: IsDone(s.(cancelled := false), q, sources) <==> IsDone(s, q, sources);
    assert Undone(s.(cancelled := false), sources) == Undone(s, sources);
  }

  /** One finish request per file that is not done gets to its end, and the session is completed. */
  lemma {:induction false} ReviveAll(w: World, token: Id, dests: seq<Path>, sources: Network.Sources)
    returns (events: seq<Event>, w': World)
    requires IsCancelled(w, token) && AllReady(w, token, sources) && Undone(w.sessions[token], sources) != {}
    requires Fresh(w, dests, sources) && |Undone(w.sessions[token], sources)| <= |dests|
    ensures Leads(w, events, w', sources)
    ensures token in w'.sessions && !w'.sessions[token].cancelled && w'.handlers == w.handlers && w'.bodies == w.bodies
            && w'.homes == w.homes
    decreases |Undone(w.sessions[token], sources)|
  {
    var todo := Undone(w.sessions[token], sources);
    var p :| p in todo;
    assert Finishing(w, token, p);
    var f :| f in w.finishers && w.finishers[f].token == token && w.finishers[f].path == p;
    assert |todo| == |todo - {p}| + 1;
    var e1, w1 := ToTheEnd(w, f, dests[0], sources);
    CompletesOne(w, w1, f, token, dests[0], sources);
    if todo <= {p} {
      events, w' := e1, w1;
    } else {
      StaysReady(w, w1, f, token, dests[0], sources);
      StaysFresh(w, w1, f, dests, sources);
      var q :| q in todo && q != p;
      assert q in Undone(w1.sessions[token], sources);
      var e2, w2 := ReviveAll(w1, token, dests[1..], sources);
      StepsJoin(w, e1, w1, e2, w2, sources);
      events, w' := e1 + e2, w2;
    }
  }

  /** Every finish request of the session can get to its end. */
  ghost predicate CanGetOn(w: World, token: Id, sources: Network.Sources) {
    forall f :: f in w.finishers && w.finishers[f].token == token ==> Ready(w, f, sources)
  }

  lemma UndoneIsFinishing(w: World, token: Id, sources: Network.Sources)
    requires IsCancelled(w, token) && !Final(w, token, sources) && CanGetOn(w, token, sources)
    ensures AllReady(w, token, sources)
  {
    forall p | p in Undone(w.sessions[token], sources)
      ensures Finishing(w, token, p)
    {
    }
  }

  /** In every state in which the finish requests on their way can complete the cancelled session and can get
      to their ends, there is a run of theirs that does: the cancel is undone. */
  lemma Revive(w: World, token: Id, dests: seq<Path>, sources: Network.Sources) returns (events: seq<Event>, w': World)
    requires IsCancelled(w, token) && !Final(w, token, sources) && CanGetOn(w, token, sources)
    requires Fresh(w, dests, sources) && |w.sessions[token].paths| < |dests|
    ensures Leads(w, events, w', sources)
    ensures token in w'.sessions && !w'.sessions[token].cancelled && w'.handlers == w.handlers && w'.bodies == w.bodies
            && w'.homes == w.homes
  {
    UndoneIsFinishing(w, token, sources);
    var todo := Undone(w.sessions[token], sources);
    if todo == {} {
      var f :| f in w.finishers && w.finishers[f].token == token;
      events, w' := ToTheEnd(w, f, dests[0], sources);
      CompletesOne(w, w', f, token, dests[0], sources);
    } else {
      SubsetSize(todo, w.sessions[token].paths);
      events, w' := ReviveAll(w, token, dests, sources);
    }
  }

  lemma {:induction false} SubsetSize<T>(a: set<T>, b: set<T>)
    requires a <= b
    ensures |a| <= |b|
  {
    if a != {} {
      var x :| x in a;
      SubsetSize(a - {x}, b - {x});
    }
  }

  /** A chunk request of a live session that is still queued is answered with success if nobody interrupts it. */
  lemma QueuedIsAccepted(w: World, h: nat, spare: nat, token: Id, sources: Network.Sources)
    returns (events: seq<Event>, w': World)
    requires Homes(w, sources) && InPhase(w, h, Queued) && w.handlers[h].token == token && w.handlers[h].written == 0
    requires token in w.sessions && !w.sessions[token].cancelled && spare !in w.bodies && spare !in w.homes
    ensures Leads(w, events, w', sources) && InPhase(w', h, Answered) && w.handlers[h].path in w'.links
    ensures w'.handlers[h].path == w.handlers[h].path && w'.handlers[h].token == token && !IsCancelled(w', token)
  {
    var e1, w1 := BeginAndOpen(w, h, spare, token, sources);
    var e2, w2 := WriteAndClose(w1, h, sources);
    w' := DoEnd(w2, h, false);
    StepsJoin(w, e1, w1, e2, w2, sources);
    OneStep(w2, End(h, false), [], w', sources);
    StepsJoin(w, e1 + e2, w2, [End(h, false)] + [], w', sources);
    events := e1 + e2 + ([End(h, false)] + []);
  }

  lemma BeginAndOpen(w: World, h: nat, spare: nat, token: Id, sources: Network.Sources)
    returns (events: seq<Event>, w': World)
    requires Homes(w, sources) && InPhase(w, h, Queued) && w.handlers[h].token == token
    requires token in w.sessions && !w.sessions[token].cancelled && spare !in w.bodies && spare !in w.homes
    ensures Leads(w, events, w', sources) && IsOpen(w', h) && w.handlers[h].path in w'.links
    ensures w'.handlers[h].path == w.handlers[h].path && w'.handlers[h].token == token
    ensures w'.handlers[h].written == w.handlers[h].written && w'.sessions == w.sessions
  {
    var w1 := DoBegin(w, h);
    w' := DoOpen(w1, h, spare);
    OneStep(w1, Open(h, spare), [], w', sources);
    OneStep(w, Begin(h), [Open(h, spare)] + [], w', sources);
    events := [Begin(h)] + ([Open(h, spare)] + []);
  }

  lemma WriteAll(w: World, h: nat, sources: Network.Sources) returns (events: seq<Event>, w': World)
    requires IsOpen(w, h) && w.handlers[h].written == 0
    ensures Leads(w, events, w', sources) && IsOpen(w', h) && w'.handlers[h].written == |w'.handlers[h].data|
    ensures w'.handlers[h].path == w.handlers[h].path && w'.handlers[h].token == w.handlers[h].token
    ensures w'.sessions == w.sessions && w'.links == w.links
  {
    var n := |w.handlers[h].data|;
    if n == 0 {
      events, w' := [], w;
    } else {
      w' := DoWrite(w, h, n);
      OneStep(w, Write(h, n), [], w', sources);
      events := [Write(h, n)] + [];
    }
  }

  lemma WriteAndClose(w: World, h: nat, sources: Network.Sources) returns (events: seq<Event>, w': World)
    requires IsOpen(w, h) && w.handlers[h].written == 0
    ensures Leads(w, events, w', sources) && InPhase(w', h, Closed)
    ensures w'.handlers[h].path == w.handlers[h].path && w'.handlers[h].token == w.handlers[h].token
    ensures w'.sessions == w.sessions && w'.links == w.links
  {
    var e1, w1 := WriteAll(w, h, sources);
    w' := To(w1, h, Closed);
    OneStep(w1, Close(h), [], w', sources);
    StepsJoin(w, e1, w1, [Close(h)] + [], w', sources);
    events := e1 + ([Close(h)] + []);
  }

  /** After such a run a chunk request of the session that was still queued is accepted, makes its part anew
      and leaves it. */
  lemma CancelCanBeUndone(w: World, token: Id, dests: seq<Path>, h: nat, spare: nat, sources: Network.Sources)
    returns (events: seq<Event>)
    requires Homes(w, sources) && IsCancelled(w, token) && !Final(w, token, sources) && CanGetOn(w, token, sources)
    requires Fresh(w, dests, sources) && |w.sessions[token].paths| < |dests|
    requires InPhase(w, h, Queued) && w.handlers[h].token == token && w.handlers[h].written == 0
    requires spare !in w.bodies && spare !in w.homes
    ensures IsRun(w, events, sources)
    ensures var w' := Exec(w, events, sources);
            InPhase(w', h, Answered) && w'.handlers[h].token == token && w.handlers[h].path in w'.links
            && !IsCancelled(w', token)
  {
    var e1, w1 := Revive(w, token, dests, sources);
    RunKeepsHomes(w, e1, sources);
    var e2, w2 := QueuedIsAccepted(w1, h, spare, token, sources);
    StepsJoin(w, e1, w1, e2, w2, sources);
    events := e1 + e2;
  }
}
