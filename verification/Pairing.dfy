/** The receiver's register of PIN pairings (server/state.rs 86-443, storage/pairings.rs 74-88). */
module Pairing {
  import opened Wrappers
  import opened Octets
  import opened Names
  import Hex
  import Pake

  /** Instants and durations in nanoseconds. */
  const MINUTE: nat := 60_000_000_000
  const ATTEMPTS_PER_MINUTE: nat := 5
  const ATTEMPTS_BEFORE_ROTATION: nat := 10
  const MAX_PENDING: nat := 64
  const MAX_STORED: nat := 256

  type Id = string
  type Key = k: seq<byte> | |k| == Hex.KEY_SIZE witness seq(Hex.KEY_SIZE, i => 0)

  datatype PairError = NotOpen | RateLimited | Invalid

  /** What the server keeps of a run it answered. */
  datatype ServerPending = ServerPending(expected: Pake.Digest, key: Key)

  datatype Waiting = Waiting(state: ServerPending, at: nat)

  datatype StoredPairing = StoredPairing(id: Id, keyHex: seq<byte>)

  /** How the key exchange answers a client's message under a PIN; none when the message is invalid. */
  type Responder = string -> Option<ServerPending>

  /** The register, the PIN shown with the number of its issue, and the files with accepted pairings. */
  datatype Registry = Registry(
    keys: map<Id, Key>,
    order: seq<Id>,
    pending: map<Id, Waiting>,
    windowStart: nat,
    inWindow: nat,
    unconfirmed: nat,
    openUntil: Option<nat>,
    perMinute: nat,
    beforeRotation: nat,
    storeDir: Option<Path>,
    pin: Option<string>,
    issue: nat,
    files: map<Path, seq<StoredPairing>>)

  // ----- Starting a run -----

  predicate IsOpen(r: Registry, now: nat) {
    r.openUntil.Some? && now < r.openUntil.value
  }

  /** Pairing is open for a while from now on, or closed. */
  function Windowing(r: Registry, now: nat, window: Option<nat>): Registry {
    r.(openUntil := match window case Some(length) => Some(now + length) case None => None)
  }

  function Windowed(r: Registry, now: nat): Registry {
    if now >= r.windowStart + MINUTE then r.(windowStart := now, inWindow := 0) else r
  }

  function NewPin(r: Registry, pin: string): Registry {
    r.(pin := Some(pin), issue := r.issue + 1)
  }

  function Counted(r: Registry, next: string): Registry {
    var counted := r.(inWindow := r.inWindow + 1, unconfirmed := r.unconfirmed + 1);
    if counted.unconfirmed > r.beforeRotation then NewPin(counted.(unconfirmed := 1), next) else counted
  }

  function Live(pending: map<Id, Waiting>, now: nat): map<Id, Waiting> {
    map id | id in pending && now < pending[id].at + MINUTE :: pending[id]
  }

  predicate IsOldest(pending: map<Id, Waiting>, id: Id) {
    id in pending && forall k :: k in pending ==> pending[id].at <= pending[k].at
  }

  /** The table with expired runs dropped and, if it is full even then, the oldest too. */
  function WithRoom(pending: map<Id, Waiting>, now: nat, oldest: Id): map<Id, Waiting> {
    if |Live(pending, now)| >= MAX_PENDING then Live(pending, now) - {oldest} else Live(pending, now)
  }

  /** The start passes the gate and the counting window. */
  predicate Passes(r: Registry, now: nat) {
    IsOpen(r, now) && Windowed(r, now).inWindow < r.perMinute
  }

  function Reply(r: Registry, respond: Responder): Option<ServerPending> {
    if r.pin.Some? then respond(r.pin.value) else None
  }

  function Started(r: Registry, now: nat, id: Id, next: string, respond: Responder, oldest: Id): Registry {
    if !IsOpen(r, now) then r
    else if !Passes(r, now) then Windowed(r, now)
    else
      var counted := Counted(Windowed(r, now), next);
      match Reply(counted, respond)
      case None => counted
      case Some(state) => counted.(pending := WithRoom(r.pending, now, oldest)[id := Waiting(state, now)])
  }

  function StartResult(r: Registry, now: nat, next: string, respond: Responder): Result<ServerPending, PairError> {
    if !IsOpen(r, now) then Err(NotOpen)
    else if !Passes(r, now) then Err(RateLimited)
    else
      match Reply(Counted(Windowed(r, now), next), respond)
      case None => Err(Invalid)
      case Some(state) => Ok(state)
  }

  // ----- Finishing a run -----

  /** The confirmation that finishes the run. */
  predicate Confirms(r: Registry, now: nat, id: Id, confirm: Pake.AuthText) {
    && id in r.pending && now < r.pending[id].at + MINUTE
    && confirm == Pake.OfDigest(r.pending[id].state.expected)
  }

  /** What the file gets: the keys in order, leaving out ids without a key. */
  function Listing(order: seq<Id>, keys: map<Id, Key>): seq<StoredPairing> {
    if order == [] then []
    else
      var entry := if order[0] in keys then [StoredPairing(order[0], Hex.Encode(keys[order[0]]))] else [];
      entry + Listing(order[1..], keys)
  }

  function Persisted(r: Registry, written: bool): Registry {
    if r.storeDir.Some? && written then r.(files := r.files[r.storeDir.value := Listing(r.order, r.keys)]) else r
  }

  /** The oldest pairing makes room when the table is full. */
  function Evicted(r: Registry): Registry {
    if |r.order| >= MAX_STORED then r.(order := r.order[1..], keys := r.keys - {r.order[0]}) else r
  }

  function Finished(r: Registry, now: nat, id: Id, confirm: Pake.AuthText, written: bool): Registry {
    var taken := r.(pending := r.pending - {id});
    if !Confirms(r, now, id, confirm) then taken
    else
      var room := Evicted(taken.(unconfirmed := 0));
      Persisted(room.(order := room.order + [id], keys := room.keys[id := r.pending[id].state.key]), written)
  }

  // ----- Loading, keeping and forgetting pairings -----

  function LoadOne(r: Registry, entry: StoredPairing): Registry {
    match Hex.KeyFromHex(entry.keyHex)
    case None => r
    case Some(key) => r.(keys := r.keys[entry.id := key],
                         order := if entry.id in r.keys then r.order else r.order + [entry.id])
  }

  function LoadAll(r: Registry, stored: seq<StoredPairing>): Registry {
    if stored == [] then r else LoadOne(LoadAll(r, stored[..|stored| - 1]), stored[|stored| - 1])
  }

  /** Of all pairings the last 256 stay. */
  function Trimmed(r: Registry): Registry {
    if |r.order| <= MAX_STORED then r
    else
      var n := |r.order| - MAX_STORED;
      r.(order := r.order[n..], keys := r.keys - (set id | id in r.order[..n]))
  }

  function FileOf(r: Registry, dir: Path): seq<StoredPairing> {
    if dir in r.files then r.files[dir] else []
  }

  function Loaded(r: Registry, dir: Path): Registry {
    Trimmed(LoadAll(r, FileOf(r, dir)))
  }

  function Kept(r: Registry, dir: Option<Path>, written: bool): Registry {
    var dropped := if dir.None? && r.storeDir.Some? then r.(files := r.files - {r.storeDir.value}) else r;
    Persisted(dropped.(storeDir := dir), written)
  }

  function Forgotten(r: Registry): Registry {
    r.(keys := map[], order := [], files := if r.storeDir.Some? then r.files - {r.storeDir.value} else r.files)
  }

  // ----- The register itself -----

  lemma {:induction false} OldestExists(pending: map<Id, Waiting>)
    requires pending != map[]
    ensures exists id :: IsOldest(pending, id)
    decreases |pending|
  {
    var id :| id in pending;
    var rest := pending - {id};
    if rest == map[] {
      assert pending.Keys == {id} by {
        assert forall k :: k in pending && k != id ==> k in rest;
      }
      assert IsOldest(pending, id);
    } else {
      assert |rest| < |pending| by {
        assert rest.Keys < pending.Keys;
        SmallerKeys(rest, pending);
      }
      OldestExists(rest);
      var o :| IsOldest(rest, o);
      assert forall k :: k in pending ==> k == id || k in rest;
      if pending[id].at <= rest[o].at {
        assert IsOldest(pending, id);
      } else {
        assert IsOldest(pending, o);
      }
    }
  }

  lemma SmallerKeys(a: map<Id, Waiting>, b: map<Id, Waiting>)
    requires a.Keys < b.Keys
    ensures |a| < |b|
  {
    SmallerSet(a.Keys, b.Keys);
    assert |a| == |a.Keys| && |b| == |b.Keys|;
  }

  class PairingRegistry {
    var keys: map<Id, Key>
    var order: seq<Id>
    var pending: map<Id, Waiting>
    var windowStart: nat
    var inWindow: nat
    var unconfirmed: nat
    var openUntil: Option<nat>
    var perMinute: nat
    var beforeRotation: nat
    var storeDir: Option<Path>
    var pin: Option<string>
    var issue: nat
    var files: map<Path, seq<StoredPairing>>

    ghost function View(): Registry
      reads this
    {
      Registry(keys, order, pending, windowStart, inWindow, unconfirmed, openUntil, perMinute, beforeRotation,
               storeDir, pin,
               issue, files)
    }

    constructor (now: nat, pin: Option<string>, files: map<Path, seq<StoredPairing>>)
      ensures View() == Empty(now, pin, files)
    {
      keys, order, pending := map[], [], map[];
      windowStart, inWindow, unconfirmed := now, 0, 0;
      openUntil, storeDir := None, None;
      perMinute, beforeRotation := ATTEMPTS_PER_MINUTE, ATTEMPTS_BEFORE_ROTATION;
      this.pin, issue, this.files := pin, 0, files;
    }

    method RegeneratePin(next: string)
      modifies this
      ensures View() == NewPin(old(View()), next)
    {
      pin := Some(next);
      issue := issue + 1;
    }

    /** Every start counts as a failed attempt until it is confirmed. */
    method CountAttempt(now: nat) returns (refusal: Option<PairError>, rotate: bool)
      modifies this
      ensures refusal == if !IsOpen(old(View()), now) then Some(NotOpen)
                         else if !Passes(old(View()), now) then Some(RateLimited) else None
      ensures refusal == Some(NotOpen) ==> View() == old(View())
      ensures refusal == Some(RateLimited) ==> View() == Windowed(old(View()), now)
      ensures refusal == None ==> forall p ::
                Counted(Windowed(old(View()), now), p) == if rotate then NewPin(View(), p) else View()
    {
      rotate := false;
      if !(openUntil.Some? && now < openUntil.value) {
        return Some(NotOpen), false;
      }
      if now >= windowStart + MINUTE {
        windowStart := now;
        inWindow := 0;
      }
      if inWindow >= perMinute {
        return Some(RateLimited), false;
      }
      inWindow := inWindow + 1;
      unconfirmed := unconfirmed + 1;
      if unconfirmed > beforeRotation {
        unconfirmed := 1;
        rotate := true;
      }
      refusal := None;
    }

    method Enter(now: nat, id: Id, state: ServerPending) returns (ghost oldest: Id)
      modifies this`pending
      ensures |Live(old(pending), now)| >= MAX_PENDING ==> IsOldest(Live(old(pending), now), oldest)
      ensures pending == WithRoom(old(pending), now, oldest)[id := Waiting(state, now)]
    {
      pending := Live(pending, now);
      oldest := id;
      if |pending| >= MAX_PENDING {
        assert pending != map[];
        OldestExists(pending);
        var first :| IsOldest(pending, first);
        pending := pending - {first};
        oldest := first;
      }
      pending := pending[id := Waiting(state, now)];
    }

    method PairStart(now: nat, id: Id, next: string, respond: Responder)
      returns (r: Result<ServerPending, PairError>, ghost oldest: Id)
      modifies this
      ensures r == StartResult(old(View()), now, next, respond)
      ensures |Live(old(pending), now)| >= MAX_PENDING && r.Ok? ==> IsOldest(Live(old(pending), now), oldest)
      ensures View() == Started(old(View()), now, id, next, respond, oldest)
    {
      oldest := id;
      var refusal, rotate := CountAttempt(now);
      if refusal.Some? {
        return Err(refusal.value), id;
      }
      if rotate {
        RegeneratePin(next);
      }
      if pin.None? {
        return Err(Invalid), id;
      }
      var reply := respond(pin.value);
      if reply.None? {
        return Err(Invalid), id;
      }
      oldest := Enter(now, id, reply.value);
      r := Ok(reply.value);
    }

    /** Writes the pairings in order to the file, unless that fails, which nobody is told. */
    method Persist() returns (ghost written: bool)
      modifies this`files
      ensures View() == Persisted(old(View()), written)
    {
      written := true;
      if storeDir.Some? {
        var stored, i := [], 0;
        while i < |order|
          invariant 0 <= i <= |order|
          invariant stored + Listing(order[i..], keys) == Listing(order, keys)
        {
          if order[i] in keys {
            stored := stored + [StoredPairing(order[i], Hex.Encode(keys[order[i]]))];
          }
          i := i + 1;
        }
        assert order[i..] == [] && stored + [] == stored;
        var ok := *;
        written := ok;
        if ok {
          files := files[storeDir.value := stored];
        }
      }
    }

    method PairFinish(now: nat, id: Id, confirm: Pake.AuthText) returns (ok: bool, ghost written: bool)
      modifies this
      ensures ok == Confirms(old(View()), now, id, confirm)
      ensures View() == Finished(old(View()), now, id, confirm, written)
    {
      written := true;
      if id !in pending {
        assert pending - {id} == pending;
        return false, true;
      }
      var run := pending[id];
      pending := pending - {id};
      if now >= run.at + MINUTE {
        return false, true;
      }
      if confirm != Pake.OfDigest(run.state.expected) {
        return false, true;
      }
      unconfirmed := 0;
      if |order| >= MAX_STORED {
        var oldest := order[0];
        order := order[1..];
        keys := keys - {oldest};
      }
      order := order + [id];
      keys := keys[id := run.state.key];
      written := Persist();
      ok := true;
    }

    method LoadEntries(stored: seq<StoredPairing>)
      modifies this
      ensures View() == LoadAll(old(View()), stored)
    {
      var i := 0;
      while i < |stored|
        invariant 0 <= i <= |stored|
        invariant View() == LoadAll(old(View()), stored[..i])
      {
        assert stored[..i + 1][..i] == stored[..i];
        var key := Hex.KeyFromHex(stored[i].keyHex);
        if key.Some? {
          if stored[i].id !in keys {
            order := order + [stored[i].id];
          }
          keys := keys[stored[i].id := key.value];
        }
        i := i + 1;
      }
      assert stored[..i] == stored;
    }

    method Trim()
      modifies this
      ensures View() == Trimmed(old(View()))
    {
      ghost var all, ids, n := View(), order, 0;
      while |order| > MAX_STORED
        invariant n <= |ids| && (n > 0 ==> |ids| - n >= MAX_STORED)
        invariant order == ids[n..] && keys == all.keys - (set id | id in ids[..n])
        invariant View() == all.(order := order, keys := keys)
        decreases |order|
      {
        assert ids[..n + 1] == ids[..n] + [order[0]];
        keys := keys - {order[0]};
        order := order[1..];
        n := n + 1;
      }
    }

    method LoadAcceptedPairings(dir: Path)
      modifies this
      ensures View() == Loaded(old(View()), dir)
    {
      LoadEntries(if dir in files then files[dir] else []);
      Trim();
    }

    method SetPersistence(dir: Option<Path>) returns (ghost written: bool)
      modifies this
      ensures View() == Kept(old(View()), dir, written)
    {
      if dir.None? && storeDir.Some? {
        files := files - {storeDir.value};
      }
      storeDir := dir;
      written := Persist();
    }

    method ForgetAcceptedPairings()
      modifies this
      ensures View() == Forgotten(old(View()))
    {
      keys := map[];
      order := [];
      if storeDir.Some? {
        files := files - {storeDir.value};
      }
    }

    method SetPairingWindow(now: nat, window: Option<nat>)
      modifies this
      ensures View() == Windowing(old(View()), now, window)
    {
      openUntil := if window.Some? then Some(now + window.value) else None;
    }
  }

  /** The register of a device that has just started. */
  function Empty(now: nat, pin: Option<string>, files: map<Path, seq<StoredPairing>>): Registry {
    Registry(map[], [], map[], now, 0, 0, None, ATTEMPTS_PER_MINUTE, ATTEMPTS_BEFORE_ROTATION, None, pin, 0, files)
  }
}
