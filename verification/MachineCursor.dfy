/** The sender's two positions: what it has read of its file, and the offset it puts on its requests. */
module MachineCursor {
  import opened Wrappers
  import opened Names
  import opened Receiver
  import opened Machine
  import Network

  /** A closed or answered request has written all its bytes. */
  ghost predicate WroteAll(job: Handler) {
    job.phase.Closed? || job.phase.Answered? ==> job.written == |job.data|
  }

  /** Between requests the two positions are equal; while one is on its way, the file is read past it. */
  ghost predicate IsInStep(at: Attempt, handlers: map<nat, Handler>) {
    match at.waiting
    case None => at.read == at.cursor
    case Some(h) => h in handlers && handlers[h].offset == at.cursor && at.read == at.cursor + |handlers[h].data|
  }

  ghost predicate InStep(w: World) {
    && (forall a :: a in w.attempts ==> IsInStep(w.attempts[a], w.handlers))
    && (forall h :: h in w.handlers ==> WroteAll(w.handlers[h]))
  }

  // ----- One step -----

  lemma PostKeepsInStep(w: World, a: nat, h: nat, length: nat, sources: Network.Sources)
    requires CanPost(w, a, h, length, sources) && InStep(w)
    ensures InStep(DoPost(w, a, h, length, sources))
  {
    var w' := DoPost(w, a, h, length, sources);
    forall b | b in w'.attempts
      ensures IsInStep(w'.attempts[b], w'.handlers)
    {
      assert IsInStep(w.attempts[b], w.handlers);
    }
  }

  /** An answer moves the offset exactly to where the file stands. */
  lemma ReplyKeepsInStep(w: World, a: nat)
    requires CanReply(w, a) && InStep(w)
    ensures InStep(DoReply(w, a))
  {
    assert IsInStep(w.attempts[a], w.handlers) && WroteAll(w.handlers[w.attempts[a].waiting.value]);
  }

  lemma RequestsStayInStep(w: World, w': World)
    requires InStep(w) && w'.attempts == w.attempts && MovesOn(w, w', None)
    requires forall h :: h in w'.handlers ==> WroteAll(w'.handlers[h])
    ensures InStep(w')
  {
    forall a | a in w'.attempts
      ensures IsInStep(w'.attempts[a], w'.handlers)
    {
      assert IsInStep(w.attempts[a], w.handlers);
    }
  }

  lemma EndWritesAll(w: World, k: nat, refused: bool, h: nat)
    requires CanEnd(w, k, refused) && InStep(w) && h in w.handlers
    ensures h in DoEnd(w, k, refused).handlers && WroteAll(DoEnd(w, k, refused).handlers[h])
  {
    assert WroteAll(w.handlers[h]) && WroteAll(w.handlers[k]);
  }

  lemma WriteWritesAll(w: World, k: nat, n: nat, h: nat)
    requires CanWrite(w, k, n) && InStep(w) && h in w.handlers
    ensures h in DoWrite(w, k, n).handlers && WroteAll(DoWrite(w, k, n).handlers[h])
  {
    assert WroteAll(w.handlers[h]);
  }

  lemma OpenWritesAll(w: World, k: nat, spare: nat, h: nat)
    requires CanOpen(w, k, spare) && InStep(w) && h in w.handlers
    ensures h in DoOpen(w, k, spare).handlers && WroteAll(DoOpen(w, k, spare).handlers[h])
  {
    assert WroteAll(w.handlers[h]);
  }

  lemma StepWritesAll(w: World, e: Event, h: nat, sources: Network.Sources)
    requires Enabled(w, e, sources) && InStep(w) && !e.Post? && h in w.handlers
    ensures h in Apply(w, e, sources).handlers && WroteAll(Apply(w, e, sources).handlers[h])
  {
    assert WroteAll(w.handlers[h]);
    if e.End? {
      EndWritesAll(w, e.handler, e.refused, h);
    } else if e.Write? {
      WriteWritesAll(w, e.handler, e.n, h);
    } else if e.Open? {
      OpenWritesAll(w, e.handler, e.spare, h);
    } else if !TouchesHandlers(e) {
      StepFrame(w, e, sources);
    }
  }

  lemma StepKeepsInStep(w: World, e: Event, sources: Network.Sources)
    requires Enabled(w, e, sources) && InStep(w)
    ensures InStep(Apply(w, e, sources))
  {
    if e.Post? {
      PostKeepsInStep(w, e.attempt, e.handler, e.length, sources);
    } else if e.Reply? {
      ReplyKeepsInStep(w, e.attempt);
    } else if !e.Ask? && !e.GiveUp? {
      var w' := Apply(w, e, sources);
      StepFrame(w, e, sources);
      StepMovesOn(w, e, sources);
      forall h | h in w'.handlers
        ensures WroteAll(w'.handlers[h])
      {
        StepWritesAll(w, e, h, sources);
      }
      RequestsStayInStep(w, w');
    }
  }

  // ----- Whole runs -----

  /** In every run, whatever is cancelled, refused or lost: whenever an attempt waits for no answer, it has
      read its file exactly up to the offset it will put on its next chunk. */
  lemma {:induction false} ReadPositionIsTheOffset(w: World, events: seq<Event>, a: nat, sources: Network.Sources)
    requires InStep(w) && IsRun(w, events, sources) && a in Exec(w, events, sources).attempts
    ensures var at := Exec(w, events, sources).attempts[a]; at.waiting.None? ==> at.read == at.cursor
    decreases |events|
  {
    if events == [] {
      assert IsInStep(w.attempts[a], w.handlers);
    } else {
      StepKeepsInStep(w, events[0], sources);
      ReadPositionIsTheOffset(Apply(w, events[0], sources), events[1..], a, sources);
    }
  }

  lemma OffsetNeverGoesBack(w: World, e: Event, a: nat, sources: Network.Sources)
    requires Enabled(w, e, sources) && a in w.attempts && e != GiveUp(a)
    ensures var w' := Apply(w, e, sources);
            && a in w'.attempts && w'.attempts[a].token == w.attempts[a].token && w'.attempts[a].path == w.attempts[a].path
            && w.attempts[a].cursor <= w'.attempts[a].cursor
  {
    if !TouchesAttempts(e) {
      StepFrame(w, e, sources);
    }
  }

  lemma {:induction false} AttemptGoesOn(w: World, events: seq<Event>, a: nat, sources: Network.Sources)
    requires IsRun(w, events, sources) && a in w.attempts && forall i :: 0 <= i < |events| ==> events[i] != GiveUp(a)
    ensures var w' := Exec(w, events, sources);
            && a in w'.attempts && w'.attempts[a].token == w.attempts[a].token && w'.attempts[a].path == w.attempts[a].path
            && w.attempts[a].cursor <= w'.attempts[a].cursor
    decreases |events|
  {
    if events != [] {
      OffsetNeverGoesBack(w, events[0], a, sources);
      AttemptGoesOn(Apply(w, events[0], sources), events[1..], a, sources);
    }
  }

  /** An attempt that asks for the part's length (in w) never puts a byte on the wire that the part held then,
      whatever happens later to the part, the session and its requests. */
  lemma ResumeSkipsWhatIsThere(w: World, a: nat, token: Id, p: Path, events: seq<Event>, h: nat, length: nat,
                               sources: Network.Sources)
    requires CanAsk(w, a, token, p) && IsRun(DoAsk(w, a, token, p), events, sources)
    requires forall i :: 0 <= i < |events| ==> events[i] != GiveUp(a)
    requires CanPost(Exec(DoAsk(w, a, token, p), events, sources), a, h, length, sources)
    ensures var job := DoPost(Exec(DoAsk(w, a, token, p), events, sources), a, h, length, sources).handlers[h];
            job.token == token && job.path == p && |Part(w, p)| <= job.offset
  {
    AttemptGoesOn(DoAsk(w, a, token, p), events, a, sources);
  }
}
