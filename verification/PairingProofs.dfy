/** Where the stored pairing keys come from, over every run of the register (server/state.rs 278-350, 373-392). */
module PairingProofs {
  import opened Wrappers
  import opened Octets
  import opened Names
  import opened Pairing
  import opened PairingRuns
  import Hex
  import Pake

  // ----- Starts -----

  /** Pairing is open, and the running counting window, or a new one, has room. */
  predicate HasRoomFor(r: Registry, now: nat) {
    && r.openUntil.Some? && now < r.openUntil.value
    && (if r.windowStart + MINUTE <= now then 0 else r.inWindow) < r.perMinute
  }

  /** The PIN shown after the start, and what the key exchange makes of it. */
  function ReplyUnder(pin: Option<string>, respond: Responder): Option<ServerPending> {
    match pin
    case None => None
    case Some(p) => respond(p)
  }

  lemma RefusalsExactly(r: Registry, now: nat, next: string, respond: Responder)
    ensures var result := StartResult(r, now, next, respond);
            && (result == Err(NotOpen) <==> r.openUntil.None? || r.openUntil.value <= now)
            && (result == Err(RateLimited) <==> r.openUntil.Some? && now < r.openUntil.value && !HasRoomFor(r, now))
  {
  }

  lemma ReplyExactly(r: Registry, now: nat, id: Id, next: string, respond: Responder, oldest: Id)
    requires HasRoomFor(r, now)
    ensures StartResult(r, now, next, respond)
            == match ReplyUnder(Started(r, now, id, next, respond, oldest).pin, respond)
               case None => Err(Invalid)
               case Some(state) => Ok(state)
  {
    assert Started(r, now, id, next, respond, oldest).pin == Counted(Windowed(r, now), next).pin;
  }

  lemma CountingKeepsTables(r: Registry, now: nat, next: string)
    ensures var s := Counted(Windowed(r, now), next); s.keys == r.keys && s.order == r.order && s.files == r.files
    ensures Counted(Windowed(r, now), next).pending == r.pending
  {
  }

  lemma StartKeepsKeys(r: Registry, now: nat, id: Id, next: string, respond: Responder, oldest: Id)
    ensures var s := Started(r, now, id, next, respond, oldest);
            s.keys == r.keys && s.order == r.order && s.files == r.files
  {
    CountingKeepsTables(r, now, next);
  }

  lemma RefusalKeepsWaiters(r: Registry, now: nat, id: Id, next: string, respond: Responder, oldest: Id)
    requires StartResult(r, now, next, respond).Err?
    ensures Started(r, now, id, next, respond, oldest).pending == r.pending
  {
    CountingKeepsTables(r, now, next);
  }

  /** What a start is answered with, in every case: nothing while pairing is closed or the window is full, and
      otherwise what the key exchange says under the PIN that is shown afterwards. */
  lemma StartExactly(r: Registry, e: Event)
    requires e.op.Start?
    ensures var result, s := StartResult(r, e.now, e.op.next, e.op.respond), Step(r, e);
            && (result == Err(NotOpen) <==> r.openUntil.None? || r.openUntil.value <= e.now)
            && (result == Err(RateLimited)
                <==> r.openUntil.Some? && e.now < r.openUntil.value && !HasRoomFor(r, e.now))
            && (HasRoomFor(r, e.now) ==>
                  result == match ReplyUnder(s.pin, e.op.respond) case None => Err(Invalid) case Some(state) => Ok(state))
            && (result.Err? ==> s.pending == r.pending)
            && s.keys == r.keys && s.order == r.order && s.files == r.files
  {
    var Start(id, next, respond, oldest) := e.op;
    RefusalsExactly(r, e.now, next, respond);
    StartKeepsKeys(r, e.now, id, next, respond, oldest);
    if StartResult(r, e.now, next, respond).Err? {
      RefusalKeepsWaiters(r, e.now, id, next, respond, oldest);
    }
    if HasRoomFor(r, e.now) {
      ReplyExactly(r, e.now, id, next, respond, oldest);
    }
  }

  /** The start of this run was let through, and the key exchange answered it with this state under the PIN shown. */
  ghost predicate AnsweredWith(r: Registry, e: Event, id: Id, state: ServerPending) {
    && e.op.Start? && e.op.id == id && HasRoomFor(r, e.now)
    && Step(r, e).pin.Some? && e.op.respond(Step(r, e).pin.value) == Some(state)
  }

  lemma AnsweredExactly(r: Registry, e: Event, id: Id, state: ServerPending)
    ensures AnsweredWith(r, e, id, state)
            <==> IsNewRun(r, e, id) && StartResult(r, e.now, e.op.next, e.op.respond) == Ok(state)
  {
    if e.op.Start? {
      StartExactly(r, e);
    }
  }

  /** An answered run waits with its state, since the moment of its start. */
  lemma NewRunWaits(r: Registry, e: Event, id: Id) returns (state: ServerPending)
    requires IsNewRun(r, e, id)
    ensures AnsweredWith(r, e, id, state)
    ensures id in Step(r, e).pending && Step(r, e).pending[id] == Waiting(state, e.now)
  {
    state := StartResult(r, e.now, e.op.next, e.op.respond).value;
    AnsweredExactly(r, e, id, state);
  }

  /** Whatever waits was answered so by an earlier start. */
  lemma {:induction false} WaitsWithItsState(r: Registry, es: seq<Event>, n: nat, id: Id)
    returns (k: nat, state: ServerPending)
    requires r.pending == map[] && n <= |es| && id in At(r, es, n).pending
    ensures k < n && AnsweredWith(At(r, es, k), es[k], id, state)
    ensures At(r, es, n).pending[id] == Waiting(state, es[k].now)
  {
    var before, e := At(r, es, n - 1), es[n - 1];
    if IsNewRun(before, e, id) {
      k := n - 1;
      state := NewRunWaits(before, e, id);
    } else {
      WaitsOn(before, e, id);
      k, state := WaitsWithItsState(r, es, n - 1, id);
    }
  }

  // ----- Finishes -----

  /** A finish stores a key exactly when its run waits, in time, for just this tag; then it stores the run's key,
      and makes room by taking away the oldest at most. In any case the run waits no longer. */
  lemma FinishExactly(r: Registry, now: nat, id: Id, confirm: Pake.AuthText, written: bool)
    ensures var s := Finished(r, now, id, confirm, written);
            var proven := id in r.pending && now < r.pending[id].at + MINUTE
                          && confirm == Pake.OfDigest(r.pending[id].state.expected);
            && s.pending == r.pending - {id}
            && (!proven ==> s.keys == r.keys && s.order == r.order && s.files == r.files && s.unconfirmed == r.unconfirmed)
            && (proven ==>
                  && id in s.keys && s.keys[id] == r.pending[id].state.key && s.unconfirmed == 0
                  && (forall k :: k in s.keys && k != id ==> k in r.keys && s.keys[k] == r.keys[k])
                  && (forall k :: k in r.keys && k != id && (|r.order| < MAX_STORED || k != r.order[0]) ==> k in s.keys))
  {
  }

  /** Whenever a finish gives an id a key it did not have, an earlier start of that id was answered with a state,
      the finish came less than a minute after it and carried the tag that state expects, and the key is that
      state's. */
  lemma KeyComesFromProof(r: Registry, es: seq<Event>, j: nat, id: Id) returns (k: nat, state: ServerPending)
    requires r.pending == map[] && j < |es| && es[j].op.Finish?
    requires id in At(r, es, j + 1).keys
    requires id in At(r, es, j).keys ==> At(r, es, j).keys[id] != At(r, es, j + 1).keys[id]
    ensures es[j].op.id == id && k < j && AnsweredWith(At(r, es, k), es[k], id, state)
    ensures es[j].op.confirm == Pake.OfDigest(state.expected) && es[j].now < es[k].now + MINUTE
    ensures At(r, es, j + 1).keys[id] == state.key
  {
    var before, op := At(r, es, j), es[j].op;
    FinishExactly(before, es[j].now, op.id, op.confirm, op.written);
    k, state := WaitsWithItsState(r, es, j, id);
  }

  /** No other event but the loading of a file gives an id a key. */
  lemma OthersStoreNoKey(r: Registry, e: Event, id: Id)
    requires !e.op.Finish? && !e.op.Load? && id in Step(r, e).keys
    ensures id in r.keys && r.keys[id] == Step(r, e).keys[id]
  {
    match e.op
    case Start(k, next, respond, oldest) => StartKeepsKeys(r, e.now, k, next, respond, oldest);
    case _ =>
  }

  // ----- An honest run is stored -----

  /** No finish of this run among events i to n. */
  ghost predicate NotFinished(es: seq<Event>, i: nat, n: nat, id: Id)
    requires n <= |es|
  {
    forall k :: i <= k < n && es[k].op.Finish? ==> es[k].op.id != id
  }

  ghost predicate Waits(r: Registry, id: Id, entry: Waiting) {
    id in r.pending && r.pending[id] == entry
  }

  /** The event neither starts nor finishes this run. */
  ghost predicate IsOther(e: Event, id: Id) {
    (e.op.Start? || e.op.Finish?) ==> e.op.id != id
  }

  /** A live run stays when another one starts and the table is not full. */
  lemma StartLeavesOthers(r: Registry, e: Event, id: Id)
    requires e.op.Start? && e.op.id != id && id in r.pending && e.now < r.pending[id].at + MINUTE
    requires Answers(r, e) ==> |Live(r.pending, e.now)| < MAX_PENDING
    ensures id in Step(r, e).pending && Step(r, e).pending[id] == r.pending[id]
  {
  }

  lemma StepLeavesOthers(r: Registry, e: Event, id: Id, entry: Waiting)
    requires Waits(r, id, entry) && e.now < entry.at + MINUTE && IsOther(e, id)
    requires Answers(r, e) ==> |Live(r.pending, e.now)| < MAX_PENDING
    ensures Waits(Step(r, e), id, entry)
  {
    match e.op
    case Start(_, _, _, _) => StartLeavesOthers(r, e, id);
    case Finish(k, confirm, written) => FinishExactly(r, e.now, k, confirm, written);
    case Load(dir) => LoadKeepsPending(r, FileOf(r, dir));
    case _ =>
  }

  /** The table is not full when a run is answered. */
  lemma TableHasRoom(r: Registry, es: seq<Event>, n: nat, before: Registry)
    requires InOrder(es) && r.pending == map[] && r.inWindow <= r.perMinute <= 32
    requires n < |es| && before == At(r, es, n)
    ensures Answers(before, es[n]) ==> |Live(before.pending, es[n].now)| < MAX_PENDING
  {
    if Answers(before, es[n]) {
      AnswersCounts(before, es[n]);
      NoRunIsEvicted(r, es, n);
    }
  }

  /** A run that waits goes on waiting, step by step. */
  lemma {:induction false} GoesOnWaiting(r: Registry, es: seq<Event>, i: nat, n: nat, id: Id, entry: Waiting)
    requires InOrder(es) && r.pending == map[] && r.inWindow <= r.perMinute <= 32
    requires i <= n <= |es| && Waits(At(r, es, i), id, entry)
    requires forall k :: i <= k < n ==> IsOther(es[k], id) && es[k].now < entry.at + MINUTE
    ensures Waits(At(r, es, n), id, entry)
    decreases n
  {
    if i < n {
      GoesOnWaiting(r, es, i, n - 1, id, entry);
      TableHasRoom(r, es, n - 1, At(r, es, n - 1));
      StepLeavesOthers(At(r, es, n - 1), es[n - 1], id, entry);
    }
  }

  lemma BeginsWaiting(r: Registry, e: Event, id: Id, state: ServerPending)
    requires AnsweredWith(r, e, id, state)
    ensures Waits(Step(r, e), id, Waiting(state, e.now))
  {
    AnsweredExactly(r, e, id, state);
    var same := NewRunWaits(r, e, id);
  }

  /** Ids are handed out once and time does not go back, so what comes between is about other runs, and in time. */
  lemma OthersComeBetween(es: seq<Event>, k: nat, n: nat, id: Id)
    requires InOrder(es) && UniqueStarts(es) && k < n <= |es| && es[k].op.Start? && es[k].op.id == id
    requires NotFinished(es, k + 1, n, id) && es[n - 1].now < es[k].now + MINUTE
    ensures forall i :: k + 1 <= i < n ==> IsOther(es[i], id) && es[i].now < es[k].now + MINUTE
  {
  }

  /** At limits like the default ones, an answered run waits for a minute unless it is finished. */
  lemma StaysWaiting(r: Registry, es: seq<Event>, k: nat, n: nat, id: Id, entry: Waiting)
    requires InOrder(es) && UniqueStarts(es) && r.pending == map[] && r.inWindow <= r.perMinute <= 32
    requires k < n <= |es| && es[k].op.Start? && es[k].op.id == id && entry.at == es[k].now
    requires Waits(At(r, es, k + 1), id, entry) && NotFinished(es, k + 1, n, id)
    requires es[n - 1].now < es[k].now + MINUTE
    ensures Waits(At(r, es, n), id, entry)
  {
    OthersComeBetween(es, k, n, id);
    GoesOnWaiting(r, es, k + 1, n, id, entry);
  }

  /** A client that was answered and sends the expected tag within a minute, in its first finish, is paired. */
  lemma HonestClientIsPaired(r: Registry, es: seq<Event>, k: nat, j: nat, id: Id, state: ServerPending)
    requires InOrder(es) && UniqueStarts(es) && r.pending == map[] && r.inWindow <= r.perMinute <= 32
    requires k < j < |es| && AnsweredWith(At(r, es, k), es[k], id, state) && NotFinished(es, k + 1, j, id)
    requires es[j].op.Finish? && es[j].op.id == id && es[j].op.confirm == Pake.OfDigest(state.expected)
    requires es[j].now < es[k].now + MINUTE
    ensures id in At(r, es, j + 1).keys && At(r, es, j + 1).keys[id] == state.key
  {
    BeginsWaiting(At(r, es, k), es[k], id, state);
    StaysWaiting(r, es, k, j, id, Waiting(state, es[k].now));
    FinishExactly(At(r, es, j), es[j].now, id, es[j].op.confirm, es[j].op.written);
  }

  // ----- The pairing window -----

  /** The last setting of the window before event n opened it until this moment. */
  ghost predicate OpenedAt(es: seq<Event>, m: nat, n: nat, until: nat)
    requires m < n <= |es|
  {
    && es[m].op.SetWindow? && es[m].op.window.Some? && until == es[m].now + es[m].op.window.value
    && forall i :: m < i < n ==> !es[i].op.SetWindow?
  }

  lemma OnlySettingsOpen(r: Registry, e: Event)
    requires !e.op.SetWindow?
    ensures Step(r, e).openUntil == r.openUntil
  {
    if e.op.Load? {
      LoadKeepsTheRest(r, FileOf(r, e.op.dir));
    }
  }

  lemma {:induction false} OpenSince(r: Registry, es: seq<Event>, n: nat) returns (m: nat)
    requires r.openUntil.None? && n <= |es| && At(r, es, n).openUntil.Some?
    ensures m < n && OpenedAt(es, m, n, At(r, es, n).openUntil.value)
    decreases n
  {
    if es[n - 1].op.SetWindow? {
      m := n - 1;
    } else {
      OnlySettingsOpen(At(r, es, n - 1), es[n - 1]);
      m := OpenSince(r, es, n - 1);
    }
  }

  /** A start is counted, and answered, only while the user's last setting keeps pairing open. */
  lemma CountedOnlyWhileOpen(r: Registry, es: seq<Event>, n: nat) returns (m: nat)
    requires r.openUntil.None? && n < |es| && Counts(At(r, es, n), es[n])
    ensures m < n && es[m].op.SetWindow? && es[m].op.window.Some?
    ensures es[n].now < es[m].now + es[m].op.window.value && forall i :: m < i < n ==> !es[i].op.SetWindow?
  {
    m := OpenSince(r, es, n);
  }

  // ----- The PIN -----

  /** The PIN changes exactly when a counted start finds as many unconfirmed starts before it as a PIN may have, and
      when the user asks for another; then the new one is shown. */
  lemma PinExactly(r: Registry, e: Event)
    ensures var s := Step(r, e);
            match e.op
            case Start(_, next, _, _) =>
              s.pin == if HasRoomFor(r, e.now) && r.unconfirmed >= r.beforeRotation then Some(next) else r.pin
            case Regenerate(next) => s.pin == Some(next)
            case _ => s.pin == r.pin
  {
    match e.op
    case Start(id, next, respond, oldest) => StartedPin(r, e.now, id, next, respond, oldest);
    case Load(dir) => LoadKeepsTheRest(r, FileOf(r, dir));
    case _ =>
  }

  lemma StartedPin(r: Registry, now: nat, id: Id, next: string, respond: Responder, oldest: Id)
    ensures Started(r, now, id, next, respond, oldest).pin
            == if HasRoomFor(r, now) && r.unconfirmed >= r.beforeRotation then Some(next) else r.pin
  {
    assert Counted(Windowed(r, now), next).pin == if r.unconfirmed >= r.beforeRotation then Some(next) else r.pin;
  }

  // ----- Loading -----

  /** An entry with a usable key is stored under its id, in the place of an earlier one or at the end; any other
      entry is skipped. */
  lemma LoadOneExactly(r: Registry, entry: StoredPairing, bytes: seq<byte>)
    ensures Hex.LowerText(entry.keyHex) == Hex.Encode(bytes) && |bytes| == Hex.KEY_SIZE ==>
              && LoadOne(r, entry).keys == r.keys[entry.id := bytes]
              && LoadOne(r, entry).order == if entry.id in r.keys then r.order else r.order + [entry.id]
    ensures (forall k: Key :: Hex.LowerText(entry.keyHex) != Hex.Encode(k)) ==> LoadOne(r, entry) == r
  {
    Hex.DecodeExactly(entry.keyHex, bytes);
    if Hex.KeyFromHex(entry.keyHex).Some? {
      Hex.DecodeExactly(entry.keyHex, Hex.KeyFromHex(entry.keyHex).value);
    }
  }

  /** Of too many pairings the oldest go. */
  lemma TrimmedExactly(r: Registry)
    requires Agrees(r)
    ensures var t := Trimmed(r);
            && t.order == Last(r.order, MAX_STORED)
            && forall id :: id in t.order ==> id in t.keys && id in r.keys && t.keys[id] == r.keys[id]
  {
    TrimAgrees(r);
  }

  // ----- Forgetting -----

  /** After the pairings are forgotten, or no longer remembered, a device that restarts finds none of them in the
      file. */
  lemma NothingIsLeftToLoad(r: Registry, dir: Path, now: nat, pin: Option<string>, written: bool)
    requires r.storeDir == Some(dir)
    ensures Loaded(Empty(now, pin, Forgotten(r).files), dir).keys == map[] && Forgotten(r).keys == map[]
    ensures Loaded(Empty(now, pin, Kept(r, None, written).files), dir).keys == map[]
    ensures Kept(r, None, written).keys == r.keys
  {
  }
}
