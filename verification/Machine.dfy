/** The receiver's chunk, cancel and finish handlers cut at every point where another handler can run
    (server/routes.rs 246-438, 466-634; server/state.rs 568-622), together with the senders that drive
    them. Part files are names linked to file bodies, so an open handle outlives its name. */
module Machine {
  import opened Wrappers
  import opened Octets
  import opened Names
  import opened Storage
  import opened Receiver
  import Network

  /** A chunk request: on the wire, past the session check, with the part open, flushed and dropped, or
      over in one of three ways. */
  datatype Phase = Queued | Begun | Opened(body: nat) | Closed | Answered | Turned | Failed

  datatype Handler = Handler(token: Id, path: Path, offset: nat, data: seq<Octet>, written: nat, phase: Phase)

  /** A send attempt: the offset it labels chunks with, how far it has read its file, and the request it
      waits for. */
  datatype Attempt = Attempt(token: Id, path: Path, cursor: nat, read: nat, waiting: Option<nat>)

  /** A finish request: past the session check, with the body it found whole, linked to its destination, or
      with the part's name removed. */
  datatype Stage = Entered | Checked(body: nat) | Linked | Tidied

  datatype Finisher = Finisher(token: Id, path: Path, stage: Stage)

  /** A session: its part files, whether it is cancelled, what its cancels still have to delete, and the
      bytes it has noted for each file. */
  datatype Held = Held(paths: set<Path>, cancelled: bool, doomed: multiset<Path>, progress: map<Path, nat>)

  datatype World = World(
    sessions: map<Id, Held>,
    links: map<Path, nat>,
    bodies: map<nat, seq<Octet>>,
    homes: map<nat, Path>,
    handlers: map<nat, Handler>,
    attempts: map<nat, Attempt>,
    finishers: map<nat, Finisher>)

  datatype Event =
    | Ask(attempt: nat, token: Id, path: Path)
    | Post(attempt: nat, handler: nat, length: nat)
    | Begin(handler: nat)
    | Open(handler: nat, spare: nat)
    | Write(handler: nat, n: nat)
    | Close(handler: nat)
    | End(handler: nat, refused: bool)
    | Fail(handler: nat)
    | Reply(attempt: nat)
    | GiveUp(attempt: nat)
    | Mark(token: Id)
    | Delete(token: Id, path: Path, refused: bool)
    | Accept(token: Id, paths: set<Path>)
    | Enter(finisher: nat, token: Id, path: Path)
    | Create(finisher: nat, spare: nat)
    | Check(finisher: nat)
    | Link(finisher: nat, dest: Path)
    | Tidy(finisher: nat, refused: bool)
    | Complete(finisher: nat)
    | Quit(finisher: nat)

  // ----- Steps -----

  /** What the part file holds now. */
  function Part(w: World, p: Path): seq<Octet> {
    if p in w.links && w.links[p] in w.bodies then w.bodies[w.links[p]] else []
  }

  predicate HeldOpen(w: World, body: nat, except: Option<nat>) {
    exists h :: h in w.handlers && Some(h) != except && w.handlers[h].phase == Opened(body)
  }

  predicate IsCancelled(w: World, token: Id) {
    token in w.sessions && w.sessions[token].cancelled
  }

  /** A deletion is refused only while another handler holds the file open. */
  predicate MayRefuse(w: World, p: Path, except: Option<nat>) {
    p in w.links && HeldOpen(w, w.links[p], except)
  }

  /** Past the first session check, and not at the end. */
  predicate InFlight(phase: Phase) {
    phase.Begun? || phase.Opened? || phase.Closed?
  }

  predicate InPhase(w: World, h: nat, phase: Phase) {
    h in w.handlers && w.handlers[h].phase == phase
  }

  predicate IsOpen(w: World, h: nat) {
    h in w.handlers && w.handlers[h].phase.Opened? && w.handlers[h].phase.body in w.bodies
  }

  function To(w: World, h: nat, phase: Phase): World
    requires h in w.handlers
  {
    w.(handlers := w.handlers[h := w.handlers[h].(phase := phase)])
  }

  function Unlink(w: World, p: Path, refused: bool): World {
    if refused then w else w.(links := w.links - {p})
  }

  /** A status query: the attempt starts where the part ends. */
  predicate CanAsk(w: World, a: nat, token: Id, p: Path) {
    a !in w.attempts && token in w.sessions && !w.sessions[token].cancelled && p in w.sessions[token].paths
  }

  function DoAsk(w: World, a: nat, token: Id, p: Path): World {
    w.(attempts := w.attempts[a := Attempt(token, p, |Part(w, p)|, |Part(w, p)|, None)])
  }

  /** The sender reads the next chunk where its file stands and puts it on the wire under its offset. */
  predicate CanPost(w: World, a: nat, h: nat, length: nat, sources: Network.Sources) {
    && a in w.attempts && w.attempts[a].waiting.None? && h !in w.handlers && length > 0
    && w.attempts[a].path in sources && w.attempts[a].cursor + length <= |sources[w.attempts[a].path]|
    && w.attempts[a].read + length <= |sources[w.attempts[a].path]|
  }

  function DoPost(w: World, a: nat, h: nat, length: nat, sources: Network.Sources): World
    requires CanPost(w, a, h, length, sources)
  {
    var Attempt(token, p, cursor, read, _) := w.attempts[a];
    w.(handlers := w.handlers[h := Handler(token, p, cursor, sources[p][read..read + length], 0, Queued)],
       attempts := w.attempts[a := w.attempts[a].(read := read + length, waiting := Some(h))])
  }

  /** The answer arrives: the offset moves by the bytes it says were written. */
  predicate CanReply(w: World, a: nat) {
    a in w.attempts && w.attempts[a].waiting.Some? && InPhase(w, w.attempts[a].waiting.value, Answered)
  }

  function DoReply(w: World, a: nat): World
    requires CanReply(w, a)
  {
    var at := w.attempts[a];
    w.(attempts := w.attempts[a := at.(cursor := at.cursor + w.handlers[at.waiting.value].written, waiting := None)])
  }

  /** The session check at the start of a chunk request. */
  function DoBegin(w: World, h: nat): World
    requires h in w.handlers
  {
    To(w, h, if IsCancelled(w, w.handlers[h].token) then Turned else Begun)
  }

  /** Opening the part: the body linked there, or a new empty one. */
  predicate CanOpen(w: World, h: nat, spare: nat) {
    InPhase(w, h, Begun) && spare !in w.bodies && spare !in w.homes
  }

  function WithNewBody(w: World, q: Path, spare: nat): World {
    w.(links := w.links[q := spare], bodies := w.bodies[spare := []], homes := w.homes[spare := q])
  }

  function DoOpen(w: World, h: nat, spare: nat): World
    requires h in w.handlers
  {
    var p := w.handlers[h].path;
    if p in w.links then To(w, h, Opened(w.links[p]))
    else To(WithNewBody(w, p, spare), h, Opened(spare))
  }

  /** Some more bytes of the chunk reach the open body. */
  predicate CanWrite(w: World, h: nat, n: nat) {
    IsOpen(w, h) && 0 < n && w.handlers[h].written + n <= |w.handlers[h].data|
  }

  function DoWrite(w: World, h: nat, n: nat): World
    requires CanWrite(w, h, n)
  {
    var Handler(_, _, offset, data, written, Opened(body)) := w.handlers[h];
    w.(bodies := w.bodies[body := WriteAt(w.bodies[body], offset + written, data[written..written + n])],
       handlers := w.handlers[h := w.handlers[h].(written := written + n)])
  }

  /** The session notes how many bytes of a file it has. */
  function Noted(s: Held, p: Path, n: nat): Held {
    s.(progress := s.progress[p := n])
  }

  function WithNote(w: World, token: Id, p: Path, n: nat): World {
    if token in w.sessions then w.(sessions := w.sessions[token := Noted(w.sessions[token], p, n)]) else w
  }

  /** The session check at the end: a chunk of a cancelled session is refused and its part deleted. */
  predicate CanEnd(w: World, h: nat, refused: bool) {
    InPhase(w, h, Closed) && (refused ==> IsCancelled(w, w.handlers[h].token) && MayRefuse(w, w.handlers[h].path, Some(h)))
  }

  function DoEnd(w: World, h: nat, refused: bool): World
    requires h in w.handlers
  {
    var job := w.handlers[h];
    if IsCancelled(w, job.token) then Unlink(To(w, h, Turned), job.path, refused)
    else WithNote(To(w, h, Answered), job.token, job.path, job.offset + job.written)
  }

  /** A body, cipher or disk error, a lost connection, or the end of the process that ran the handler. */
  predicate CanFail(w: World, h: nat) {
    h in w.handlers && (w.handlers[h].phase.Queued? || InFlight(w.handlers[h].phase))
  }

  /** Cancelling marks the session first. */
  function DoMark(w: World, token: Id): World
    requires token in w.sessions
  {
    var s := w.sessions[token];
    if s.cancelled then w
    else w.(sessions := w.sessions[token := s.(cancelled := true, doomed := s.doomed + multiset(s.paths))])
  }

  /** Then it deletes the parts one by one. */
  predicate CanDelete(w: World, token: Id, p: Path, refused: bool) {
    token in w.sessions && p in w.sessions[token].doomed && (refused ==> MayRefuse(w, p, None))
  }

  function DoDelete(w: World, token: Id, p: Path, refused: bool): World
    requires token in w.sessions
  {
    var s := w.sessions[token];
    Unlink(w.(sessions := w.sessions[token := s.(doomed := s.doomed - multiset{p})]), p, refused)
  }

  /** A new session is agreed on, under a token nobody has. */
  predicate CanAccept(w: World, token: Id, paths: set<Path>, sources: Network.Sources) {
    token !in w.sessions && paths <= sources.Keys
  }

  function DoAccept(w: World, token: Id, paths: set<Path>): World {
    w.(sessions := w.sessions[token := Held(paths, false, multiset{}, map[])])
  }

  /** The session check of a finish request. */
  predicate CanEnter(w: World, f: nat, token: Id, p: Path, sources: Network.Sources) {
    && f !in w.finishers && token in w.sessions && !w.sessions[token].cancelled
    && p in w.sessions[token].paths && p in sources
  }

  function DoEnter(w: World, f: nat, token: Id, p: Path): World {
    w.(finishers := w.finishers[f := Finisher(token, p, Entered)])
  }

  function AtStage(w: World, f: nat, stage: Stage): World
    requires f in w.finishers
  {
    w.(finishers := w.finishers[f := w.finishers[f].(stage := stage)])
  }

  /** An empty file has no chunks, so the finish makes its part. */
  predicate CanCreate(w: World, f: nat, spare: nat, sources: Network.Sources) {
    && f in w.finishers && w.finishers[f].stage.Entered? && w.finishers[f].path !in w.links
    && w.finishers[f].path in sources && sources[w.finishers[f].path] == []
    && spare !in w.bodies && spare !in w.homes
  }

  /** The finish finds the part whole. */
  predicate CanCheck(w: World, f: nat, sources: Network.Sources) {
    && f in w.finishers && w.finishers[f].stage.Entered? && w.finishers[f].path in w.links
    && w.finishers[f].path in sources && Part(w, w.finishers[f].path) == sources[w.finishers[f].path]
  }

  function DoCheck(w: World, f: nat): World
    requires f in w.finishers && w.finishers[f].path in w.links
  {
    AtStage(w, f, Checked(w.links[w.finishers[f].path]))
  }

  /** Later it links whatever is the part then to a free name. */
  predicate CanLink(w: World, f: nat, dest: Path, sources: Network.Sources) {
    && f in w.finishers && w.finishers[f].stage.Checked? && w.finishers[f].path in w.links
    && dest !in w.links && dest !in sources
  }

  function DoLink(w: World, f: nat, dest: Path): World
    requires f in w.finishers && w.finishers[f].path in w.links
  {
    AtStage(w.(links := w.links[dest := w.links[w.finishers[f].path]]), f, Linked)
  }

  /** And removes the part's own name. */
  predicate CanTidy(w: World, f: nat, refused: bool) {
    f in w.finishers && w.finishers[f].stage.Linked? && (refused ==> MayRefuse(w, w.finishers[f].path, None))
  }

  function DoTidy(w: World, f: nat, refused: bool): World
    requires f in w.finishers
  {
    Unlink(AtStage(w, f, Tidied), w.finishers[f].path, refused)
  }

  function SizeOf(p: Path, sources: Network.Sources): nat {
    if p in sources then |sources[p]| else 0
  }

  /** As many bytes are noted for the file as it has. */
  predicate IsDone(s: Held, p: Path, sources: Network.Sources) {
    SizeOf(p, sources) <= if p in s.progress then s.progress[p] else 0
  }

  predicate AllDone(s: Held, sources: Network.Sources) {
    forall p :: p in s.paths ==> IsDone(s, p, sources)
  }

  predicate InStage(w: World, f: nat, stage: Stage) {
    f in w.finishers && w.finishers[f].stage == stage
  }

  /** A session whose files are all done is completed, whatever it was before. */
  function Settled(s: Held, sources: Network.Sources): Held {
    if AllDone(s, sources) then s.(cancelled := false) else s
  }

  /** The last step of a finish notes the file as done; it does not look whether the session was cancelled
      in the meantime. */
  function DoComplete(w: World, f: nat, sources: Network.Sources): World
    requires f in w.finishers
  {
    var Finisher(token, p, _) := w.finishers[f];
    var w1 := w.(finishers := w.finishers - {f});
    if token !in w.sessions then w1
    else w1.(sessions := w.sessions[token := Settled(Noted(w.sessions[token], p, SizeOf(p, sources)), sources)])
  }

  /** This last step makes a cancelled session a completed one. */
  predicate Revives(w: World, f: nat, token: Id, sources: Network.Sources) {
    && InStage(w, f, Tidied) && w.finishers[f].token == token && IsCancelled(w, token)
    && AllDone(Noted(w.sessions[token], w.finishers[f].path, SizeOf(w.finishers[f].path, sources)), sources)
  }

  predicate Enabled(w: World, e: Event, sources: Network.Sources) {
    match e
    case Ask(a, token, p) => CanAsk(w, a, token, p)
    case Post(a, h, length) => CanPost(w, a, h, length, sources)
    case Begin(h) => InPhase(w, h, Queued)
    case Open(h, spare) => CanOpen(w, h, spare)
    case Write(h, n) => CanWrite(w, h, n)
    case Close(h) => IsOpen(w, h) && w.handlers[h].written == |w.handlers[h].data|
    case End(h, refused) => CanEnd(w, h, refused)
    case Fail(h) => CanFail(w, h)
    case Reply(a) => CanReply(w, a)
    case GiveUp(a) => a in w.attempts
    case Mark(token) => token in w.sessions
    case Delete(token, p, refused) => CanDelete(w, token, p, refused)
    case Accept(token, paths) => CanAccept(w, token, paths, sources)
    case Enter(f, token, p) => CanEnter(w, f, token, p, sources)
    case Create(f, spare) => CanCreate(w, f, spare, sources)
    case Check(f) => CanCheck(w, f, sources)
    case Link(f, dest) => CanLink(w, f, dest, sources)
    case Tidy(f, refused) => CanTidy(w, f, refused)
    case Complete(f) => InStage(w, f, Tidied)
    case Quit(f) => f in w.finishers
  }

  function Apply(w: World, e: Event, sources: Network.Sources): World
    requires Enabled(w, e, sources)
  {
    match e
    case Ask(a, token, p) => DoAsk(w, a, token, p)
    case Post(a, h, length) => DoPost(w, a, h, length, sources)
    case Begin(h) => DoBegin(w, h)
    case Open(h, spare) => DoOpen(w, h, spare)
    case Write(h, n) => DoWrite(w, h, n)
    case Close(h) => To(w, h, Closed)
    case End(h, refused) => DoEnd(w, h, refused)
    case Fail(h) => To(w, h, Failed)
    case Reply(a) => DoReply(w, a)
    case GiveUp(a) => w.(attempts := w.attempts - {a})
    case Mark(token) => DoMark(w, token)
    case Delete(token, p, refused) => DoDelete(w, token, p, refused)
    case Accept(token, paths) => DoAccept(w, token, paths)
    case Enter(f, token, p) => DoEnter(w, f, token, p)
    case Create(f, spare) => WithNewBody(w, w.finishers[f].path, spare)
    case Check(f) => DoCheck(w, f)
    case Link(f, dest) => DoLink(w, f, dest)
    case Tidy(f, refused) => DoTidy(w, f, refused)
    case Complete(f) => DoComplete(w, f, sources)
    case Quit(f) => w.(finishers := w.finishers - {f})
  }

  /** A run: every event is possible in the state the ones before it led to. */
  predicate IsRun(w: World, events: seq<Event>, sources: Network.Sources)
    decreases |events|
  {
    events == [] || (Enabled(w, events[0], sources) && IsRun(Apply(w, events[0], sources), events[1..], sources))
  }

  function Exec(w: World, events: seq<Event>, sources: Network.Sources): World
    requires IsRun(w, events, sources)
    decreases |events|
  {
    if events == [] then w else Exec(Apply(w, events[0], sources), events[1..], sources)
  }

  /** These events can happen from w on, and lead to w'. */
  ghost predicate Leads(w: World, events: seq<Event>, w': World, sources: Network.Sources) {
    IsRun(w, events, sources) && Exec(w, events, sources) == w'
  }

  lemma OneStep(w: World, e: Event, rest: seq<Event>, w': World, sources: Network.Sources)
    requires Enabled(w, e, sources) && Leads(Apply(w, e, sources), rest, w', sources)
    ensures Leads(w, [e] + rest, w', sources)
  {
    assert ([e] + rest)[1..] == rest;
  }

  lemma {:induction false} StepsJoin(w: World, a: seq<Event>, w1: World, b: seq<Event>, w': World, sources: Network.Sources)
    requires Leads(w, a, w1, sources) && Leads(w1, b, w', sources)
    ensures Leads(w, a + b, w', sources)
    decreases |a|
  {
    if a == [] {
      assert a + b == b;
    } else {
      var rest := a[1..];
      StepsJoin(Apply(w, a[0], sources), rest, w1, b, w', sources);
      OneStep(w, a[0], rest + b, w', sources);
      assert a + b == [a[0]] + (rest + b);
    }
  }

  // ----- What steps leave alone -----

  predicate TouchesHandlers(e: Event) {
    e.Post? || e.Begin? || e.Open? || e.Write? || e.Close? || e.End? || e.Fail?
  }

  predicate TouchesAttempts(e: Event) {
    e.Ask? || e.Post? || e.Reply? || e.GiveUp?
  }

  predicate TouchesFinishers(e: Event) {
    e.Enter? || e.Check? || e.Link? || e.Tidy? || e.Complete? || e.Quit?
  }

  predicate TouchesSessions(e: Event) {
    e.End? || e.Mark? || e.Delete? || e.Accept? || e.Complete?
  }

  predicate TouchesLinks(e: Event) {
    e.Open? || e.End? || e.Delete? || e.Create? || e.Link? || e.Tidy?
  }

  predicate TouchesBodies(e: Event) {
    e.Open? || e.Write? || e.Create?
  }

  lemma EndKeepsTheRest(w: World, h: nat, refused: bool)
    requires CanEnd(w, h, refused)
    ensures var w' := DoEnd(w, h, refused);
            w' == w.(sessions := w'.sessions, links := w'.links, handlers := w'.handlers)
  {
  }

  lemma DeleteKeepsTheRest(w: World, token: Id, p: Path, refused: bool)
    requires CanDelete(w, token, p, refused)
    ensures var w' := DoDelete(w, token, p, refused); w' == w.(sessions := w'.sessions, links := w'.links)
  {
  }

  lemma OpenKeepsTheRest(w: World, h: nat, spare: nat)
    requires CanOpen(w, h, spare)
    ensures var w' := DoOpen(w, h, spare);
            w' == w.(links := w'.links, bodies := w'.bodies, homes := w'.homes, handlers := w'.handlers)
  {
  }

  lemma WriteKeepsTheRest(w: World, h: nat, n: nat)
    requires CanWrite(w, h, n)
    ensures var w' := DoWrite(w, h, n); w' == w.(bodies := w'.bodies, handlers := w'.handlers)
  {
  }

  /** Finish requests touch no handler, and only names, sessions and their own table, or make a new body. */
  lemma FinishKeepsTheRest(w: World, e: Event, sources: Network.Sources)
    requires Enabled(w, e, sources) && (TouchesFinishers(e) || e.Create?)
    ensures var w' := Apply(w, e, sources);
            if e.Create? then w' == w.(links := w'.links, bodies := w'.bodies, homes := w'.homes)
            else if e.Complete? then w' == w.(sessions := w'.sessions, finishers := w'.finishers)
            else w' == w.(links := w'.links, finishers := w'.finishers)
  {
  }

  /** What the event does not touch is the same before and after. */
  predicate LeavesAlone(w: World, w': World, e: Event) {
    && (TouchesHandlers(e) || w'.handlers == w.handlers)
    && (TouchesAttempts(e) || w'.attempts == w.attempts)
    && (TouchesFinishers(e) || w'.finishers == w.finishers)
    && (TouchesSessions(e) || w'.sessions == w.sessions)
    && (TouchesLinks(e) || w'.links == w.links)
    && (TouchesBodies(e) || (w'.bodies == w.bodies && w'.homes == w.homes))
  }

  lemma FileFrame(w: World, e: Event, sources: Network.Sources)
    requires Enabled(w, e, sources) && (e.Open? || e.Write? || e.End? || e.Delete?)
    ensures LeavesAlone(w, Apply(w, e, sources), e)
  {
    match e
    case Open(h, spare) => OpenKeepsTheRest(w, h, spare);
    case Write(h, n) => WriteKeepsTheRest(w, h, n);
    case End(h, refused) => EndKeepsTheRest(w, h, refused);
    case Delete(token, p, refused) => DeleteKeepsTheRest(w, token, p, refused);
  }

  lemma RequestFrame(w: World, e: Event, sources: Network.Sources)
    requires Enabled(w, e, sources) && (e.Ask? || e.Post? || e.Begin? || e.Close? || e.Fail? || e.Reply? || e.GiveUp?)
    ensures LeavesAlone(w, Apply(w, e, sources), e)
  {
  }

  lemma FinishFrame(w: World, e: Event, sources: Network.Sources)
    requires Enabled(w, e, sources) && (TouchesFinishers(e) || e.Create?)
    ensures LeavesAlone(w, Apply(w, e, sources), e)
  {
    FinishKeepsTheRest(w, e, sources);
  }

  /** A step leaves every table alone that it does not touch. */
  lemma StepFrame(w: World, e: Event, sources: Network.Sources)
    requires Enabled(w, e, sources)
    ensures LeavesAlone(w, Apply(w, e, sources), e)
  {
    if e.Open? || e.Write? || e.End? || e.Delete? {
      FileFrame(w, e, sources);
    } else if TouchesFinishers(e) || e.Create? {
      FinishFrame(w, e, sources);
    } else if !e.Mark? && !e.Accept? {
      RequestFrame(w, e, sources);
    }
  }

  /** A handler at a later point of the same request. */
  predicate IsLater(a: Handler, b: Handler) {
    && b.token == a.token && b.path == a.path && b.offset == a.offset && b.data == a.data
    && (a.written <= |a.data| ==> b.written <= |b.data|)
  }

  /** Handlers of the next state are those of this one, moved on, and a posted one. */
  ghost predicate MovesOn(w: World, w': World, except: Option<nat>) {
    && (forall h :: h in w'.handlers ==> h in w.handlers || Some(h) == except)
    && (forall h :: h in w.handlers ==> h in w'.handlers && IsLater(w.handlers[h], w'.handlers[h]))
  }

  lemma OpenMovesOn(w: World, h: nat, spare: nat)
    requires CanOpen(w, h, spare)
    ensures MovesOn(w, DoOpen(w, h, spare), None)
  {
  }

  lemma WriteMovesOn(w: World, h: nat, n: nat)
    requires CanWrite(w, h, n)
    ensures MovesOn(w, DoWrite(w, h, n), None)
  {
  }

  lemma EndMovesOn(w: World, h: nat, refused: bool)
    requires CanEnd(w, h, refused)
    ensures MovesOn(w, DoEnd(w, h, refused), None)
  {
  }

  lemma PostMovesOn(w: World, a: nat, h: nat, length: nat, sources: Network.Sources)
    requires CanPost(w, a, h, length, sources)
    ensures MovesOn(w, DoPost(w, a, h, length, sources), Some(h))
  {
  }

  lemma StepMovesOn(w: World, e: Event, sources: Network.Sources)
    requires Enabled(w, e, sources)
    ensures MovesOn(w, Apply(w, e, sources), if e.Post? then Some(e.handler) else None)
  {
    if e.Open? {
      OpenMovesOn(w, e.handler, e.spare);
    } else if e.Write? {
      WriteMovesOn(w, e.handler, e.n);
    } else if e.End? {
      EndMovesOn(w, e.handler, e.refused);
    } else if e.Post? {
      PostMovesOn(w, e.attempt, e.handler, e.length, sources);
    } else if !TouchesHandlers(e) {
      StepFrame(w, e, sources);
    }
  }

  lemma NoteIsLocal(w: World, t: Id, p: Path, n: nat, token: Id)
    requires token in WithNote(w, t, p, n).sessions
    ensures token in w.sessions
    ensures WithNote(w, t, p, n).sessions[token] == if t == token then Noted(w.sessions[t], p, n) else w.sessions[token]
  {
  }

  lemma AnswerNotes(w: World, h: nat, refused: bool)
    requires CanEnd(w, h, refused) && !IsCancelled(w, w.handlers[h].token)
    ensures var job := w.handlers[h];
            DoEnd(w, h, refused) == WithNote(To(w, h, Answered), job.token, job.path, job.offset + job.written)
  {
  }

  lemma TurnNotes(w: World, h: nat, refused: bool)
    requires CanEnd(w, h, refused) && IsCancelled(w, w.handlers[h].token)
    ensures DoEnd(w, h, refused).sessions == w.sessions
  {
  }

  /** The last check of a handler changes no session but its own, which notes the bytes if it is live. */
  lemma EndIsLocal(w: World, h: nat, refused: bool, token: Id)
    requires CanEnd(w, h, refused) && token in DoEnd(w, h, refused).sessions
    ensures token in w.sessions
    ensures var job, s := w.handlers[h], DoEnd(w, h, refused).sessions[token];
            if job.token == token && !IsCancelled(w, token)
            then s == Noted(w.sessions[token], job.path, job.offset + job.written) else s == w.sessions[token]
  {
    var job := w.handlers[h];
    if IsCancelled(w, job.token) {
      TurnNotes(w, h, refused);
    } else {
      AnswerNotes(w, h, refused);
      NoteIsLocal(To(w, h, Answered), job.token, job.path, job.offset + job.written, token);
    }
  }

  /** A finish request at a later point. */
  predicate IsFurther(a: Finisher, b: Finisher) {
    b.token == a.token && b.path == a.path && (a.stage.Tidied? ==> b.stage.Tidied?)
  }

  /** A finish request of the next state is one of this state, moved on, or has just entered. */
  predicate ComesFrom(w: World, w': World, e: Event, f: nat) {
    f in w'.finishers ==>
      if f in w.finishers then IsFurther(w.finishers[f], w'.finishers[f])
      else e == Enter(f, w'.finishers[f].token, w'.finishers[f].path) && w'.finishers[f].stage == Entered
  }

  lemma StageMovesOn(w: World, e: Event, f: nat, sources: Network.Sources)
    requires Enabled(w, e, sources) && (e.Check? || e.Link? || e.Tidy?)
    ensures ComesFrom(w, Apply(w, e, sources), e, f)
  {
    var w' := Apply(w, e, sources);
    assert !w.finishers[e.finisher].stage.Tidied?;
    assert f != e.finisher && f in w.finishers ==> w'.finishers[f] == w.finishers[f];
  }

  lemma LeavingMovesOn(w: World, e: Event, f: nat, sources: Network.Sources)
    requires Enabled(w, e, sources) && (e.Enter? || e.Complete? || e.Quit?)
    ensures ComesFrom(w, Apply(w, e, sources), e, f)
  {
    if e.Complete? {
      assert DoComplete(w, e.finisher, sources).finishers == w.finishers - {e.finisher};
    }
  }

  lemma FinisherMovesOn(w: World, e: Event, f: nat, sources: Network.Sources)
    requires Enabled(w, e, sources)
    ensures ComesFrom(w, Apply(w, e, sources), e, f)
  {
    if e.Check? || e.Link? || e.Tidy? {
      StageMovesOn(w, e, f, sources);
    } else if e.Enter? || e.Complete? || e.Quit? {
      LeavingMovesOn(w, e, f, sources);
    } else {
      StepFrame(w, e, sources);
    }
  }
}
