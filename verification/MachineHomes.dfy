/** Which file body belongs to which part file, in every run. */
module MachineHomes {
  import opened Octets
  import opened Names
  import opened Receiver
  import opened Machine
  import Network

  /** The body was created as this part file. */
  ghost predicate HasHome(w: World, body: nat, p: Path) {
    body in w.bodies && body in w.homes && w.homes[body] == p
  }

  /** Part names lead to bodies created under them, and so do open handles. */
  ghost predicate Homes(w: World, sources: Network.Sources) {
    && (forall q :: q in w.links ==> w.links[q] in w.bodies)
    && (forall q :: q in w.links && q in sources ==> HasHome(w, w.links[q], q))
    && (forall h :: h in w.handlers ==> w.handlers[h].path in sources)
    && (forall h :: h in w.handlers && w.handlers[h].phase.Opened? ==>
          HasHome(w, w.handlers[h].phase.body, w.handlers[h].path))
  }

  /** Nobody has started: every part file is its own body. */
  lemma AtRestIsHomely(w: World, sources: Network.Sources)
    requires w.handlers == map[] && forall q :: q in w.links ==> w.links[q] in w.bodies
    requires forall q :: q in w.links && q in sources ==> HasHome(w, w.links[q], q)
    ensures Homes(w, sources)
  {
  }

  /** Bodies keep their home, names lead where they led or are gone, and handlers stay as they are but
      for one. */
  lemma HomesCarry(w: World, w': World, sources: Network.Sources)
    requires Homes(w, sources)
    requires forall b :: b in w.bodies ==> b in w'.bodies
    requires forall b :: b in w.homes ==> b in w'.homes && w'.homes[b] == w.homes[b]
    requires forall q :: q in w'.links ==>
               || (q in w.links && w'.links[q] == w.links[q])
               || (w'.links[q] in w'.bodies && (q in sources ==> HasHome(w', w'.links[q], q)))
    requires forall h :: h in w'.handlers ==> w'.handlers[h].path in sources
    requires forall h :: h in w'.handlers && w'.handlers[h].phase.Opened? ==>
               || (h in w.handlers && w'.handlers[h].phase == w.handlers[h].phase
                   && w'.handlers[h].path == w.handlers[h].path)
               || HasHome(w', w'.handlers[h].phase.body, w'.handlers[h].path)
    ensures Homes(w', sources)
  {
    forall q | q in w'.links && q in sources
      ensures HasHome(w', w'.links[q], q)
    {
      assert q in w.links && w'.links[q] == w.links[q] ==> HasHome(w, w.links[q], q);
    }
    forall h | h in w'.handlers && w'.handlers[h].phase.Opened?
      ensures HasHome(w', w'.handlers[h].phase.body, w'.handlers[h].path)
    {
      if h in w.handlers && w'.handlers[h].phase == w.handlers[h].phase && w'.handlers[h].path == w.handlers[h].path {
        assert HasHome(w, w.handlers[h].phase.body, w.handlers[h].path);
      }
    }
  }

  /** A handler starts or moves on, and what it has open is its part's. */
  lemma HandlerKeepsHomes(w: World, h: nat, job: Handler, sources: Network.Sources)
    requires Homes(w, sources) && job.path in sources
    requires job.phase.Opened? ==> HasHome(w, job.phase.body, job.path)
    ensures Homes(w.(handlers := w.handlers[h := job]), sources)
  {
    HomesCarry(w, w.(handlers := w.handlers[h := job]), sources);
  }

  lemma NewBodyKeepsHomes(w: World, q: Path, spare: nat, sources: Network.Sources)
    requires spare !in w.bodies && spare !in w.homes && Homes(w, sources)
    ensures Homes(WithNewBody(w, q, spare), sources)
  {
    HomesCarry(w, WithNewBody(w, q, spare), sources);
  }

  lemma OpenKeepsHomes(w: World, h: nat, spare: nat, sources: Network.Sources)
    requires CanOpen(w, h, spare) && Homes(w, sources)
    ensures Homes(DoOpen(w, h, spare), sources)
  {
    var q := w.handlers[h].path;
    if q in w.links {
      HandlerKeepsHomes(w, h, w.handlers[h].(phase := Opened(w.links[q])), sources);
    } else {
      NewBodyKeepsHomes(w, q, spare, sources);
      HandlerKeepsHomes(WithNewBody(w, q, spare), h, w.handlers[h].(phase := Opened(spare)), sources);
    }
  }

  lemma WriteKeepsHomes(w: World, h: nat, n: nat, sources: Network.Sources)
    requires CanWrite(w, h, n) && Homes(w, sources)
    ensures Homes(DoWrite(w, h, n), sources)
  {
    HomesCarry(w, DoWrite(w, h, n), sources);
  }

  lemma EndKeepsHomes(w: World, h: nat, refused: bool, sources: Network.Sources)
    requires CanEnd(w, h, refused) && Homes(w, sources)
    ensures Homes(DoEnd(w, h, refused), sources)
  {
    HandlerKeepsHomes(w, h, w.handlers[h].(phase := Turned), sources);
    HandlerKeepsHomes(w, h, w.handlers[h].(phase := Answered), sources);
    if IsCancelled(w, w.handlers[h].token) {
      HomesCarry(To(w, h, Turned), DoEnd(w, h, refused), sources);
    } else {
      HomesCarry(To(w, h, Answered), DoEnd(w, h, refused), sources);
    }
  }

  lemma PostKeepsHomes(w: World, a: nat, h: nat, length: nat, sources: Network.Sources)
    requires CanPost(w, a, h, length, sources) && Homes(w, sources)
    ensures Homes(DoPost(w, a, h, length, sources), sources)
  {
    HomesCarry(w, DoPost(w, a, h, length, sources), sources);
  }

  /** Names come and go, sessions and attempts change. */
  lemma NamesKeepHomes(w: World, w': World, sources: Network.Sources)
    requires Homes(w, sources) && w'.bodies == w.bodies && w'.homes == w.homes && w'.handlers == w.handlers
    requires forall q :: q in w'.links ==>
               (q in w.links && w'.links[q] == w.links[q]) || (q !in sources && w'.links[q] in w.bodies)
    ensures Homes(w', sources)
  {
    HomesCarry(w, w', sources);
  }

  lemma CommitKeepsHomes(w: World, e: Event, sources: Network.Sources)
    requires Enabled(w, e, sources) && Homes(w, sources) && TouchesFinishers(e)
    ensures Homes(Apply(w, e, sources), sources)
  {
    FinishKeepsTheRest(w, e, sources);
    NamesKeepHomes(w, Apply(w, e, sources), sources);
  }

  lemma SessionKeepsHomes(w: World, e: Event, sources: Network.Sources)
    requires Enabled(w, e, sources) && Homes(w, sources)
    requires e.Mark? || e.Delete? || e.Accept? || e.Ask? || e.Reply? || e.GiveUp?
    ensures Homes(Apply(w, e, sources), sources)
  {
    StepFrame(w, e, sources);
    NamesKeepHomes(w, Apply(w, e, sources), sources);
  }

  lemma HandlerStepKeepsHomes(w: World, e: Event, sources: Network.Sources)
    requires Enabled(w, e, sources) && Homes(w, sources) && (e.Begin? || e.Close? || e.End? || e.Fail?)
    ensures Homes(Apply(w, e, sources), sources)
  {
    match e
    case Begin(h) =>
      HandlerKeepsHomes(w, h, w.handlers[h].(phase := if IsCancelled(w, w.handlers[h].token) then Turned else Begun),
                        sources);
    case Close(h) => HandlerKeepsHomes(w, h, w.handlers[h].(phase := Closed), sources);
    case End(h, refused) => EndKeepsHomes(w, h, refused, sources);
    case Fail(h) => HandlerKeepsHomes(w, h, w.handlers[h].(phase := Failed), sources);
  }

  /** Requests that bring new bytes, handles or bodies. */
  lemma FileStepKeepsHomes(w: World, e: Event, sources: Network.Sources)
    requires Enabled(w, e, sources) && Homes(w, sources) && (e.Post? || e.Open? || e.Write? || e.Create?)
    ensures Homes(Apply(w, e, sources), sources)
  {
    match e
    case Post(a, h, length) => PostKeepsHomes(w, a, h, length, sources);
    case Open(h, spare) => OpenKeepsHomes(w, h, spare, sources);
    case Write(h, n) => WriteKeepsHomes(w, h, n, sources);
    case Create(f, spare) => NewBodyKeepsHomes(w, w.finishers[f].path, spare, sources);
  }

  lemma StepKeepsHomes(w: World, e: Event, sources: Network.Sources)
    requires Enabled(w, e, sources) && Homes(w, sources)
    ensures Homes(Apply(w, e, sources), sources)
  {
    if e.Post? || e.Open? || e.Write? || e.Create? {
      FileStepKeepsHomes(w, e, sources);
    } else if TouchesFinishers(e) {
      CommitKeepsHomes(w, e, sources);
    } else if TouchesHandlers(e) {
      HandlerStepKeepsHomes(w, e, sources);
    } else {
      SessionKeepsHomes(w, e, sources);
    }
  }

  lemma {:induction false} RunKeepsHomes(w: World, events: seq<Event>, sources: Network.Sources)
    requires IsRun(w, events, sources) && Homes(w, sources)
    ensures Homes(Exec(w, events, sources), sources)
    decreases |events|
  {
    if events != [] {
      StepKeepsHomes(w, events[0], sources);
      RunKeepsHomes(Apply(w, events[0], sources), events[1..], sources);
    }
  }
}
