/** What holds over every run of the pairing register: its two tables agree, pairings are first in first
    out, runs confirm once and in time, and the attempt limits hold (server/state.rs 86-443). */
module PairingRuns {
  import opened Wrappers
  import opened Octets
  import opened Names
  import opened Pairing
  import opened Text
  import Hex
  import Pake

  datatype Op =
    | Start(id: Id, next: string, respond: Responder, oldest: Id)
    | Finish(id: Id, confirm: Pake.AuthText, written: bool)
    | SetWindow(window: Option<nat>)
    | Regenerate(next: string)
    | Forget
    | Keep(store: Option<Path>, written: bool)
    | Load(dir: Path)

  datatype Event = Event(now: nat, op: Op)

  function Step(r: Registry, e: Event): Registry {
    match e.op
    case Start(id, next, respond, oldest) => Started(r, e.now, id, next, respond, oldest)
    case Finish(id, confirm, written) => Finished(r, e.now, id, confirm, written)
    case SetWindow(window) => Windowing(r, e.now, window)
    case Regenerate(next) => NewPin(r, next)
    case Forget => Forgotten(r)
    case Keep(store, written) => Kept(r, store, written)
    case Load(dir) => Loaded(r, dir)
  }

  /** The register before event `n`. */
  function At(r: Registry, es: seq<Event>, n: nat): Registry
    requires n <= |es|
  {
    if n == 0 then r else Step(At(r, es, n - 1), es[n - 1])
  }

  /** A start that is counted, whether or not it is answered. */
  predicate Counts(r: Registry, e: Event) {
    e.op.Start? && Passes(r, e.now)
  }

  /** A start that is answered and waits for its confirmation. */
  predicate Answers(r: Registry, e: Event) {
    e.op.Start? && StartResult(r, e.now, e.op.next, e.op.respond).Ok?
  }

  predicate IsConfirmation(r: Registry, e: Event) {
    e.op.Finish? && Confirms(r, e.now, e.op.id, e.op.confirm)
  }

  /** Run ids are new, the entry that makes room is an oldest one, and files name earlier runs. */
  ghost predicate Allowed(r: Registry, e: Event) {
    match e.op
    case Start(id, _, _, oldest) =>
      && id !in r.keys && id !in r.pending
      && (Answers(r, e) && |Live(r.pending, e.now)| >= MAX_PENDING ==> IsOldest(Live(r.pending, e.now), oldest))
    case Load(dir) => forall entry :: entry in FileOf(r, dir) ==> entry.id !in r.pending
    case _ => true
  }

  ghost predicate InOrder(es: seq<Event>) {
    forall i, j :: 0 <= i < j < |es| ==> es[i].now <= es[j].now
  }

  ghost predicate UniqueStarts(es: seq<Event>) {
    forall i, j :: 0 <= i < j < |es| && es[i].op.Start? && es[j].op.Start? ==> es[i].op.id != es[j].op.id
  }

  ghost predicate AllAllowed(r: Registry, es: seq<Event>) {
    forall i :: 0 <= i < |es| ==> Allowed(At(r, es, i), es[i])
  }

  /** A run: time does not go back, and no id is handed out twice. */
  ghost predicate IsRun(r: Registry, es: seq<Event>) {
    InOrder(es) && UniqueStarts(es) && AllAllowed(r, es)
  }

  // ----- The two tables agree -----

  ghost predicate NoDuplicates(s: seq<Id>) {
    forall i, j :: 0 <= i < j < |s| ==> s[i] != s[j]
  }

  ghost predicate Valid(r: Registry) {
    && NoDuplicates(r.order) && |r.order| <= MAX_STORED
    && (forall id :: id in r.order <==> id in r.keys)
    && (forall id :: id in r.pending ==> id !in r.keys)
  }

  lemma EvictedIsValid(r: Registry)
    requires Valid(r)
    ensures Valid(Evicted(r)) && |Evicted(r).order| < MAX_STORED && Evicted(r).pending == r.pending
    ensures forall id :: id in Evicted(r).keys ==> id in r.keys
  {
    assert |r.order| >= MAX_STORED ==> r.order == [r.order[0]] + r.order[1..];
  }

  lemma AddedIsValid(r: Registry, id: Id, key: Key)
    requires Valid(r) && |r.order| < MAX_STORED && id !in r.keys && id !in r.pending
    ensures Valid(r.(order := r.order + [id], keys := r.keys[id := key]))
  {
  }

  lemma FinishKeepsValid(r: Registry, now: nat, id: Id, confirm: Pake.AuthText, written: bool)
    requires Valid(r)
    ensures Valid(Finished(r, now, id, confirm, written))
  {
    if Confirms(r, now, id, confirm) {
      var taken := r.(pending := r.pending - {id}, unconfirmed := 0);
      EvictedIsValid(taken);
      AddedIsValid(Evicted(taken), id, r.pending[id].state.key);
    }
  }

  lemma CountingKeepsValid(r: Registry, now: nat, next: string)
    requires Valid(r)
    ensures Valid(Windowed(r, now)) && Valid(Counted(Windowed(r, now), next))
    ensures Counted(Windowed(r, now), next).keys == r.keys
  {
    assert Valid(Windowed(r, now));
  }

  lemma EnteringKeepsValid(r: Registry, pending: map<Id, Waiting>)
    requires Valid(r) && forall k :: k in pending ==> k !in r.keys
    ensures Valid(r.(pending := pending))
  {
  }

  lemma StartKeepsValid(r: Registry, e: Event)
    requires Valid(r) && e.op.Start? && e.op.id !in r.keys
    ensures Valid(Step(r, e))
  {
    CountingKeepsValid(r, e.now, e.op.next);
    if Passes(r, e.now) {
      var counted, s := Counted(Windowed(r, e.now), e.op.next), Step(r, e);
      EnteringKeepsValid(counted, s.pending);
    }
  }

  /** Except for its length, a register that has loaded some entries is in order. */
  ghost predicate Agrees(r: Registry) {
    NoDuplicates(r.order) && (forall id :: id in r.order <==> id in r.keys)
      && (forall id :: id in r.pending ==> id !in r.keys)
  }

  lemma {:induction false} LoadAllAgrees(r: Registry, stored: seq<StoredPairing>)
    requires Agrees(r) && forall entry :: entry in stored ==> entry.id !in r.pending
    ensures Agrees(LoadAll(r, stored)) && LoadAll(r, stored).pending == r.pending
  {
    if stored != [] {
      var n := |stored| - 1;
      LoadAllAgrees(r, stored[..n]);
    }
  }

  lemma TrimAgrees(r: Registry)
    requires Agrees(r)
    ensures Valid(Trimmed(r))
  {
    if |r.order| > MAX_STORED {
      var n := |r.order| - MAX_STORED;
      var t := Trimmed(r);
      assert r.order == r.order[..n] + r.order[n..];
      forall id
        ensures id in t.order <==> id in t.keys
      {
        if id in t.order {
          var i :| 0 <= i < |t.order| && t.order[i] == id;
          assert r.order[n + i] == id;
          assert id !in r.order[..n] by {
            assert forall k :: 0 <= k < n ==> r.order[k] != r.order[n + i];
          }
        }
      }
    }
  }

  lemma StepKeepsValid(r: Registry, e: Event)
    requires Valid(r) && Allowed(r, e)
    ensures Valid(Step(r, e))
  {
    match e.op
    case Start(_, _, _, _) => StartKeepsValid(r, e);
    case Finish(id, confirm, written) => FinishKeepsValid(r, e.now, id, confirm, written);
    case Load(dir) =>
      LoadAllAgrees(r, FileOf(r, dir));
      TrimAgrees(LoadAll(r, FileOf(r, dir)));
    case _ =>
  }

  /** In every reachable state the queue lists exactly the stored ids, once each, at most 256 of them, and
      none of them still waits for its confirmation. */
  lemma {:induction false} AlwaysValid(r: Registry, es: seq<Event>, n: nat)
    requires Valid(r) && AllAllowed(r, es) && n <= |es|
    ensures Valid(At(r, es, n))
  {
    if n > 0 {
      AlwaysValid(r, es, n - 1);
      StepKeepsValid(At(r, es, n - 1), es[n - 1]);
    }
  }

  // ----- First in, first out -----

  /** The pairings confirmed since the last forget, behind those there at the start. */
  ghost function History(r: Registry, es: seq<Event>, n: nat): seq<Id>
    requires n <= |es|
  {
    if n == 0 then r.order
    else
      var e, before := es[n - 1], History(r, es, n - 1);
      if e.op.Forget? then []
      else if IsConfirmation(At(r, es, n - 1), e) then before + [e.op.id]
      else before
  }

  function Last(s: seq<Id>, n: nat): seq<Id> {
    if |s| <= n then s else s[|s| - n..]
  }

  lemma LastOfMore(s: seq<Id>, id: Id)
    ensures var kept := Last(s, MAX_STORED);
            Last(s + [id], MAX_STORED) == (if |kept| >= MAX_STORED then kept[1..] else kept) + [id]
  {
  }

  /** The register holds the last 256 pairings confirmed since everything was last forgotten, in order. */
  lemma {:induction false} OrderIsRecentHistory(r: Registry, es: seq<Event>, n: nat)
    requires |r.order| <= MAX_STORED && n <= |es| && forall i :: 0 <= i < n ==> !es[i].op.Load?
    ensures At(r, es, n).order == Last(History(r, es, n), MAX_STORED)
  {
    if n > 0 {
      OrderIsRecentHistory(r, es, n - 1);
      var before, e := At(r, es, n - 1), es[n - 1];
      if IsConfirmation(before, e) {
        LastOfMore(History(r, es, n - 1), e.op.id);
      }
    }
  }

  // ----- Every confirmation has its own start, not a minute before -----

  /** Event k answered the start of this run. */
  ghost predicate IsStartOf(r: Registry, es: seq<Event>, k: nat, id: Id)
    requires k < |es|
  {
    es[k].op.Start? && es[k].op.id == id && Answers(At(r, es, k), es[k])
  }

  lemma {:induction false} WaitingWasStarted(r: Registry, es: seq<Event>, n: nat, id: Id) returns (k: nat)
    requires r.pending == map[] && n <= |es| && id in At(r, es, n).pending
    ensures k < n && IsStartOf(r, es, k, id) && es[k].now == At(r, es, n).pending[id].at
  {
    var before, e := At(r, es, n - 1), es[n - 1];
    if IsNewRun(before, e, id) {
      k := n - 1;
    } else {
      WaitsOn(before, e, id);
      k := WaitingWasStarted(r, es, n - 1, id);
    }
  }

  predicate IsNewRun(r: Registry, e: Event, id: Id) {
    Answers(r, e) && e.op.id == id
  }

  lemma StartWaits(r: Registry, now: nat, id: Id, next: string, respond: Responder, oldest: Id, k: Id)
    requires k in Started(r, now, id, next, respond, oldest).pending && k != id
    ensures k in r.pending && r.pending[k] == Started(r, now, id, next, respond, oldest).pending[k]
  {
  }

  /** Who waits after a step and did not just start waited before, since the same instant. */
  lemma WaitsOn(r: Registry, e: Event, id: Id)
    requires id in Step(r, e).pending && !IsNewRun(r, e, id)
    ensures id in r.pending && r.pending[id] == Step(r, e).pending[id]
  {
    match e.op
    case Start(k, next, respond, oldest) =>
      if k != id {
        StartWaits(r, e.now, k, next, respond, oldest, id);
      }
    case Load(dir) => LoadKeepsPending(r, FileOf(r, dir));
    case _ =>
  }

  lemma {:induction false} LoadKeepsPending(r: Registry, stored: seq<StoredPairing>)
    ensures LoadAll(r, stored).pending == r.pending
  {
    if stored != [] {
      LoadKeepsPending(r, stored[..|stored| - 1]);
    }
  }

  /** A confirmation comes less than a minute after the answered start of the same run. */
  lemma ConfirmationIsInTime(r: Registry, es: seq<Event>, j: nat) returns (k: nat)
    requires r.pending == map[] && j < |es| && IsConfirmation(At(r, es, j), es[j])
    ensures k < j && IsStartOf(r, es, k, es[j].op.id) && es[j].now < es[k].now + MINUTE
  {
    k := WaitingWasStarted(r, es, j, es[j].op.id);
  }

  lemma {:induction false} FinishedStaysFinished(r: Registry, es: seq<Event>, k: nat, i: nat, n: nat, id: Id)
    requires UniqueStarts(es) && k < i < n <= |es| && es[k].op.Start? && es[k].op.id == id
    requires es[i].op.Finish? && es[i].op.id == id
    ensures id !in At(r, es, n).pending
    decreases n
  {
    var before, e := At(r, es, n - 1), es[n - 1];
    if n > i + 1 {
      FinishedStaysFinished(r, es, k, i, n - 1, id);
      assert !IsNewRun(before, e, id);
      if id in Step(before, e).pending {
        WaitsOn(before, e, id);
      }
    } else {
      FinishTakes(before, e.now, id, e.op.confirm, e.op.written);
    }
  }

  lemma FinishTakes(r: Registry, now: nat, id: Id, confirm: Pake.AuthText, written: bool)
    ensures Finished(r, now, id, confirm, written).pending == r.pending - {id}
  {
  }

  /** No start is confirmed twice. */
  lemma ConfirmedAtMostOnce(r: Registry, es: seq<Event>, i: nat, j: nat)
    requires r.pending == map[] && UniqueStarts(es) && i < j < |es|
    requires IsConfirmation(At(r, es, i), es[i]) && IsConfirmation(At(r, es, j), es[j])
    ensures es[i].op.id != es[j].op.id
  {
    var id := es[i].op.id;
    if es[j].op.id == id {
      var k := WaitingWasStarted(r, es, i, id);
      FinishedStaysFinished(r, es, k, i, j, id);
    }
  }

  // ----- The counting window -----

  /** How many starts of events i to j are counted. */
  ghost function CountedStarts(r: Registry, es: seq<Event>, i: nat, j: nat): nat
    requires i <= j <= |es|
  {
    if i == j then 0 else CountedStarts(r, es, i, j - 1) + if Counts(At(r, es, j - 1), es[j - 1]) then 1 else 0
  }

  /** A step counts a start or not, in the running window or in a new one a minute or more later. */
  ghost predicate IsWindowStep(r: Registry, e: Event, s: Registry) {
    var counted := if Counts(r, e) then 1 else 0;
    && s.perMinute == r.perMinute && (counted == 1 ==> s.inWindow <= s.perMinute)
    && ((s.windowStart == r.windowStart && s.inWindow == r.inWindow + counted)
        || (r.windowStart + MINUTE <= e.now == s.windowStart && s.inWindow == counted))
  }

  lemma StepOfWindow(r: Registry, e: Event)
    ensures IsWindowStep(r, e, Step(r, e))
  {
    if e.op.Load? {
      LoadKeepsTheRest(r, FileOf(r, e.op.dir));
    }
  }

  lemma {:induction false} LoadKeepsTheRest(r: Registry, stored: seq<StoredPairing>)
    ensures var s := LoadAll(r, stored); s == r.(keys := s.keys, order := s.order)
  {
    if stored != [] {
      LoadKeepsTheRest(r, stored[..|stored| - 1]);
    }
  }

  /** The window never holds more than the limit. */
  lemma {:induction false} WindowIsBounded(r: Registry, es: seq<Event>, n: nat)
    requires n <= |es| && r.inWindow <= r.perMinute
    ensures At(r, es, n).inWindow <= At(r, es, n).perMinute == r.perMinute
  {
    if n > 0 {
      WindowIsBounded(r, es, n - 1);
      StepOfWindow(At(r, es, n - 1), es[n - 1]);
    }
  }

  /** Each counting window takes at most N starts: as long as it does not change, its counter counts them. */
  lemma {:induction false} WindowCountsStarts(r: Registry, es: seq<Event>, i: nat, j: nat)
    requires i <= j <= |es| && r.inWindow <= r.perMinute
    ensures At(r, es, i).windowStart <= At(r, es, j).windowStart
    ensures At(r, es, i).windowStart == At(r, es, j).windowStart ==>
              At(r, es, i).inWindow + CountedStarts(r, es, i, j) == At(r, es, j).inWindow <= r.perMinute
    decreases j
  {
    WindowIsBounded(r, es, j);
    if i < j {
      WindowCountsStarts(r, es, i, j - 1);
      var before, e := At(r, es, j - 1), es[j - 1];
      StepOfWindow(before, e);
      assert At(r, es, j) == Step(before, e);
    }
  }

  /** Of the starts of a span, all are in the current window, or all but one window's worth and that
      window began in the span. */
  ghost predicate Spanned(s: Registry, n: nat, from: nat) {
    s.inWindow <= s.perMinute && (n <= s.inWindow || (from <= s.windowStart && n <= s.perMinute + s.inWindow))
  }

  lemma SpanStep(r: Registry, e: Event, s: Registry, n: nat, from: nat)
    requires Spanned(r, n, from) && IsWindowStep(r, e, s) && from <= e.now < from + MINUTE
    ensures Spanned(s, n + if Counts(r, e) then 1 else 0, from)
  {
  }

  lemma {:induction false} SpanAgainstWindow(r: Registry, es: seq<Event>, i: nat, j: nat)
    requires InOrder(es) && i <= j <= |es| && (i < j ==> es[j - 1].now < es[i].now + MINUTE)
    requires r.inWindow <= r.perMinute
    ensures Spanned(At(r, es, j), CountedStarts(r, es, i, j), if i < |es| then es[i].now else 0)
    decreases j
  {
    if i == j {
      WindowIsBounded(r, es, j);
    } else {
      SpanAgainstWindow(r, es, i, j - 1);
      StepOfWindow(At(r, es, j - 1), es[j - 1]);
      SpanStep(At(r, es, j - 1), es[j - 1], At(r, es, j), CountedStarts(r, es, i, j - 1), es[i].now);
    }
  }

  /** Any span of less than a minute takes at most 2N starts. */
  lemma AnyMinuteTakesTwiceTheLimit(r: Registry, es: seq<Event>, i: nat, j: nat)
    requires InOrder(es) && i <= j <= |es| && (i < j ==> es[j - 1].now < es[i].now + MINUTE)
    requires r.inWindow <= r.perMinute
    ensures CountedStarts(r, es, i, j) <= 2 * r.perMinute
  {
    SpanAgainstWindow(r, es, i, j);
    WindowIsBounded(r, es, j);
  }

  /** A span that takes more than N starts has a counting window begin in it. */
  lemma MoreThanTheLimitNeedsANewWindow(r: Registry, es: seq<Event>, i: nat, j: nat)
    requires InOrder(es) && i <= j <= |es| && (i < j ==> es[j - 1].now < es[i].now + MINUTE)
    requires r.inWindow <= r.perMinute && CountedStarts(r, es, i, j) > r.perMinute
    ensures At(r, es, i).windowStart < At(r, es, j).windowStart && es[i].now <= At(r, es, j).windowStart
  {
    WindowCountsStarts(r, es, i, j);
    SpanAgainstWindow(r, es, i, j);
    WindowIsBounded(r, es, j);
  }

  // ----- The table of waiting runs -----

  /** Ids of the runs that events i to j answered. */
  ghost function AnsweredIds(r: Registry, es: seq<Event>, i: nat, j: nat): set<Id>
    requires i <= j <= |es|
  {
    if i == j then {}
    else AnsweredIds(r, es, i, j - 1) + if Answers(At(r, es, j - 1), es[j - 1]) then {es[j - 1].op.id} else {}
  }

  lemma {:induction false} AnsweredAreCounted(r: Registry, es: seq<Event>, i: nat, j: nat)
    requires i <= j <= |es|
    ensures |AnsweredIds(r, es, i, j)| <= CountedStarts(r, es, i, j)
    decreases j
  {
    if i < j {
      AnsweredAreCounted(r, es, i, j - 1);
    }
  }

  lemma {:induction false} AnsweredContains(r: Registry, es: seq<Event>, i: nat, j: nat, k: nat, id: Id)
    requires i <= k < j <= |es| && IsStartOf(r, es, k, id)
    ensures id in AnsweredIds(r, es, i, j)
    decreases j
  {
    if k < j - 1 {
      AnsweredContains(r, es, i, j - 1, k, id);
    }
  }

  /** The first event of the minute before `now`. */
  ghost function MinuteStart(es: seq<Event>, now: nat, n: nat): (i: nat)
    requires n <= |es|
    ensures i <= n && (forall k :: i <= k < n ==> now < es[k].now + MINUTE) && (i > 0 ==> es[i - 1].now + MINUTE <= now)
  {
    if n == 0 || es[n - 1].now + MINUTE <= now then n else MinuteStart(es, now, n - 1)
  }

  /** Who waits and is not expired was answered in the last minute. */
  lemma WasAnsweredLately(r: Registry, es: seq<Event>, i: nat, n: nat, now: nat, id: Id)
    requires InOrder(es) && r.pending == map[] && i <= n <= |es| && (i > 0 ==> es[i - 1].now + MINUTE <= now)
    requires id in At(r, es, n).pending && now < At(r, es, n).pending[id].at + MINUTE
    ensures id in AnsweredIds(r, es, i, n)
  {
    var k := WaitingWasStarted(r, es, n, id);
    AnsweredContains(r, es, i, n, k, id);
  }

  lemma LiveWereAnswered(r: Registry, es: seq<Event>, i: nat, n: nat, now: nat)
    requires InOrder(es) && r.pending == map[] && i <= n <= |es| && (i > 0 ==> es[i - 1].now + MINUTE <= now)
    ensures |Live(At(r, es, n).pending, now)| <= |AnsweredIds(r, es, i, n)|
  {
    var live := Live(At(r, es, n).pending, now);
    forall id | id in live
      ensures id in AnsweredIds(r, es, i, n)
    {
      WasAnsweredLately(r, es, i, n, now, id);
    }
    SmallerSet(live.Keys, AnsweredIds(r, es, i, n));
    assert |live| == |live.Keys|;
  }

  lemma OneMoreStart(r: Registry, es: seq<Event>, i: nat, n: nat)
    requires i <= n < |es| && Counts(At(r, es, n), es[n])
    ensures CountedStarts(r, es, i, n + 1) == CountedStarts(r, es, i, n) + 1
  {
  }

  lemma FewWaitInTheMinute(r: Registry, es: seq<Event>, i: nat, n: nat)
    requires InOrder(es) && r.pending == map[] && r.inWindow <= r.perMinute
    requires i <= n < |es| && (i > 0 ==> es[i - 1].now + MINUTE <= es[n].now) && es[n].now < es[i].now + MINUTE
    requires Counts(At(r, es, n), es[n])
    ensures |Live(At(r, es, n).pending, es[n].now)| < 2 * r.perMinute
  {
    LiveWereAnswered(r, es, i, n, es[n].now);
    FewAreAnsweredInTheMinute(r, es, i, n);
  }

  lemma FewAreAnsweredInTheMinute(r: Registry, es: seq<Event>, i: nat, n: nat)
    requires InOrder(es) && r.inWindow <= r.perMinute
    requires i <= n < |es| && es[n].now < es[i].now + MINUTE && Counts(At(r, es, n), es[n])
    ensures |AnsweredIds(r, es, i, n)| < 2 * r.perMinute
  {
    AnsweredAreCounted(r, es, i, n);
    AnyMinuteTakesTwiceTheLimit(r, es, i, n + 1);
    OneMoreStart(r, es, i, n);
  }

  /** At a start, the runs that wait and are not expired, together with this one, are at most 2N; so at
      the default limits the table is never found full. */
  lemma NoRunIsEvicted(r: Registry, es: seq<Event>, n: nat)
    requires InOrder(es) && r.pending == map[] && r.inWindow <= r.perMinute
    requires n < |es| && Counts(At(r, es, n), es[n])
    ensures |Live(At(r, es, n).pending, es[n].now)| < 2 * r.perMinute
    ensures r.perMinute <= 32 ==> |Live(At(r, es, n).pending, es[n].now)| < MAX_PENDING
  {
    FewWaitInTheMinute(r, es, MinuteStart(es, es[n].now, n), n);
  }

  lemma WaitersOfStep(r: Registry, e: Event)
    requires !Answers(r, e)
    ensures |Step(r, e).pending| <= |r.pending|
  {
    forall id | id in Step(r, e).pending
      ensures id in r.pending
    {
      WaitsOn(r, e, id);
    }
    FewerEntries(Step(r, e).pending, r.pending);
  }

  lemma FewerEntries(a: map<Id, Waiting>, b: map<Id, Waiting>)
    requires forall id :: id in a ==> id in b
    ensures |a| <= |b|
  {
    SmallerSet(a.Keys, b.Keys);
    assert |a| == |a.Keys| && |b| == |b.Keys|;
  }

  lemma EnterAddsOne(r: Registry, e: Event)
    requires Answers(r, e)
    ensures |Step(r, e).pending| <= |Live(r.pending, e.now)| + 1
  {
    var live, next := Live(r.pending, e.now), Step(r, e).pending;
    assert next.Keys <= live.Keys + {e.op.id};
    SmallerSet(next.Keys, live.Keys + {e.op.id});
    assert |next| == |next.Keys| && |live| == |live.Keys|;
  }

  lemma WaitersOfAnyStep(r: Registry, e: Event, bound: nat)
    requires |r.pending| <= bound && (Answers(r, e) ==> |Live(r.pending, e.now)| < bound)
    ensures |Step(r, e).pending| <= bound
  {
    if Answers(r, e) {
      EnterAddsOne(r, e);
    } else {
      WaitersOfStep(r, e);
    }
  }

  lemma AnswersCounts(r: Registry, e: Event)
    requires Answers(r, e)
    ensures Counts(r, e)
  {
  }

  /** At most 2N runs ever wait for their confirmation. */
  lemma {:induction false} WaitersAreBounded(r: Registry, es: seq<Event>, n: nat)
    requires InOrder(es) && r.pending == map[] && r.inWindow <= r.perMinute && n <= |es|
    ensures |At(r, es, n).pending| <= 2 * r.perMinute
  {
    if n > 0 {
      WaitersAreBounded(r, es, n - 1);
      if Answers(At(r, es, n - 1), es[n - 1]) {
        AnswersCounts(At(r, es, n - 1), es[n - 1]);
        NoRunIsEvicted(r, es, n - 1);
      }
      WaitersOfAnyStep(At(r, es, n - 1), es[n - 1], 2 * r.perMinute);
    }
  }

  // ----- The bound is reached -----

  /** N starts at the end of one window and N at the beginning of the next. */
  function KnockTime(n: nat, i: nat): nat {
    if i < n then MINUTE - 1 else MINUTE
  }

  ghost function OldestOf(pending: map<Id, Waiting>): Id {
    if exists id :: IsOldest(pending, id) then (var id :| IsOldest(pending, id); id) else ""
  }

  /** The i-th of these starts; whoever waits longest makes room if the table is full. */
  ghost function Knock(n: nat, pin: string, respond: Responder, i: nat): Event
    decreases i, 1
  {
    var now := KnockTime(n, i);
    Event(now, Start(Decimal(i), pin, respond, OldestOf(Live(Knocked(n, pin, respond, i).pending, now))))
  }

  /** A register with a PIN and an open window, before the i-th start. */
  ghost function Knocked(n: nat, pin: string, respond: Responder, i: nat): Registry
    decreases i, 0
  {
    if i == 0 then OpenFor(n, pin) else Step(Knocked(n, pin, respond, i - 1), Knock(n, pin, respond, i - 1))
  }

  ghost function Knocks(n: nat, pin: string, respond: Responder): seq<Event> {
    seq(2 * n, i requires 0 <= i => Knock(n, pin, respond, i))
  }

  function OpenFor(n: nat, pin: string): Registry {
    Windowing(Empty(0, Some(pin), map[]), 0, Some(2 * MINUTE)).(perMinute := n)
  }

  /** The id renders a number below i. */
  ghost predicate IsEarlier(id: Id, i: nat) {
    i > 0 && (id == Decimal(i - 1) || IsEarlier(id, i - 1))
  }

  lemma {:induction false} EarlierIsOther(i: nat, j: nat)
    requires i <= j
    ensures !IsEarlier(Decimal(j), i)
  {
    if i > 0 {
      EarlierIsOther(i - 1, j);
      if Decimal(i - 1) == Decimal(j) {
        DecimalInjective(i - 1, j);
      }
    }
  }

  ghost predicate HasRoom(r: Registry, n: nat, i: nat) {
    && r.openUntil == Some(2 * MINUTE) && r.perMinute == n && r.keys == map[] && r.pin.Some?
    && (if i <= n then r.windowStart == 0 && r.inWindow == i else r.windowStart == MINUTE && r.inWindow == i - n)
  }

  /** After i starts: the window has room, there is a PIN, and only starts made so far wait. */
  ghost predicate Knocking(r: Registry, n: nat, i: nat) {
    HasRoom(r, n, i) && forall id :: id in r.pending ==> IsEarlier(id, i)
  }

  lemma KnockPasses(r: Registry, n: nat, i: nat, next: string, respond: Responder)
    requires HasRoom(r, n, i) && i < 2 * n && forall p :: respond(p).Some?
    ensures Passes(r, KnockTime(n, i)) && StartResult(r, KnockTime(n, i), next, respond).Ok?
  {
  }

  lemma KnockMovesWindow(r: Registry, n: nat, i: nat, id: Id, next: string, respond: Responder, oldest: Id)
    requires HasRoom(r, n, i) && i < 2 * n && Passes(r, KnockTime(n, i))
    ensures HasRoom(Started(r, KnockTime(n, i), id, next, respond, oldest), n, i + 1)
  {
    var counted := Counted(Windowed(r, KnockTime(n, i)), next);
    assert HasRoom(counted, n, i + 1);
  }

  lemma KnockWaits(r: Registry, i: nat, now: nat, next: string, respond: Responder, oldest: Id)
    requires forall id :: id in r.pending ==> IsEarlier(id, i)
    ensures forall id :: id in Started(r, now, Decimal(i), next, respond, oldest).pending ==> IsEarlier(id, i + 1)
  {
    var s := Started(r, now, Decimal(i), next, respond, oldest);
    forall id | id in s.pending
      ensures IsEarlier(id, i + 1)
    {
      if id != Decimal(i) {
        StartWaits(r, now, Decimal(i), next, respond, oldest, id);
      }
    }
  }

  /** Each start is answered, and the next one meets the same state of affairs. */
  lemma KnockIsAnswered(r: Registry, n: nat, pin: string, respond: Responder, i: nat, e: Event)
    requires Knocking(r, n, i) && i < 2 * n && forall p :: respond(p).Some?
    requires e == Event(KnockTime(n, i), Start(Decimal(i), pin, respond, OldestOf(Live(r.pending, KnockTime(n, i)))))
    ensures Answers(r, e) && Allowed(r, e) && Knocking(Step(r, e), n, i + 1)
  {
    var Start(id, next, _, oldest) := e.op;
    KnockPasses(r, n, i, next, respond);
    EarlierIsOther(i, i);
    if |Live(r.pending, e.now)| >= MAX_PENDING {
      OldestExists(Live(r.pending, e.now));
    }
    KnockMovesWindow(r, n, i, id, next, respond, oldest);
    KnockWaits(r, i, e.now, next, respond, oldest);
  }

  lemma {:induction false} KnockedIsKnocking(n: nat, pin: string, respond: Responder, i: nat)
    requires i <= 2 * n && forall p :: respond(p).Some?
    ensures Knocking(Knocked(n, pin, respond, i), n, i)
  {
    if i > 0 {
      KnockedIsKnocking(n, pin, respond, i - 1);
      KnockIsAnswered(Knocked(n, pin, respond, i - 1), n, pin, respond, i - 1, Knock(n, pin, respond, i - 1));
    }
  }

  lemma {:induction false} KnockedIsAt(n: nat, pin: string, respond: Responder, i: nat)
    requires i <= 2 * n
    ensures At(OpenFor(n, pin), Knocks(n, pin, respond), i) == Knocked(n, pin, respond, i)
  {
    if i > 0 {
      KnockedIsAt(n, pin, respond, i - 1);
    }
  }

  lemma KnocksAreAnswered(n: nat, pin: string, respond: Responder, i: nat)
    requires i < 2 * n && forall p :: respond(p).Some?
    ensures var r, es := OpenFor(n, pin), Knocks(n, pin, respond);
            Answers(At(r, es, i), es[i]) && Allowed(At(r, es, i), es[i])
  {
    KnockedIsAt(n, pin, respond, i);
    KnockedIsKnocking(n, pin, respond, i);
    KnockIsAnswered(Knocked(n, pin, respond, i), n, pin, respond, i, Knock(n, pin, respond, i));
  }

  lemma KnocksAreUnique(n: nat, pin: string, respond: Responder)
    ensures UniqueStarts(Knocks(n, pin, respond)) && InOrder(Knocks(n, pin, respond))
  {
    var es := Knocks(n, pin, respond);
    forall i, j | 0 <= i < j < |es|
      ensures es[i].op.id != es[j].op.id
    {
      if Decimal(i) == Decimal(j) {
        DecimalInjective(i, j);
      }
    }
  }

  lemma OneMoreAnswer(r: Registry, es: seq<Event>, n: nat, id: Id)
    requires n < |es| && Answers(At(r, es, n), es[n]) && es[n].op.id == id
    ensures AnsweredIds(r, es, 0, n + 1) == AnsweredIds(r, es, 0, n) + {id}
  {
  }

  /** The renderings of the first i numbers, and one more. */
  lemma OneMoreDecimal(ids: set<Id>, more: set<Id>, i: nat)
    requires |ids| == i && (forall id :: id in ids ==> IsEarlier(id, i)) && more == ids + {Decimal(i)}
    ensures |more| == i + 1 && forall id :: id in more ==> IsEarlier(id, i + 1)
  {
    EarlierIsOther(i, i);
  }

  lemma {:induction false} AllAreAnswered(n: nat, pin: string, respond: Responder, i: nat, r: Registry, es: seq<Event>)
    requires i <= 2 * n && (forall p :: respond(p).Some?) && r == OpenFor(n, pin) && es == Knocks(n, pin, respond)
    ensures |es| == 2 * n && |AnsweredIds(r, es, 0, i)| == i
    ensures forall id :: id in AnsweredIds(r, es, 0, i) ==> IsEarlier(id, i)
    decreases i
  {
    if i > 0 {
      AllAreAnswered(n, pin, respond, i - 1, r, es);
      KnocksAreAnswered(n, pin, respond, i - 1);
      OneMoreAnswer(r, es, i - 1, Decimal(i - 1));
      OneMoreDecimal(AnsweredIds(r, es, 0, i - 1), AnsweredIds(r, es, 0, i), i - 1);
    }
  }

  /** The bound is reached: for every N, whatever the PIN and whoever answers, there is a run that takes and
      answers 2N starts within one nanosecond, so N per rolling minute is more than the code promises. */
  lemma TwiceTheLimitIsReached(n: nat, pin: string, respond: Responder)
    requires forall p :: respond(p).Some?
    ensures var r, es := OpenFor(n, pin), Knocks(n, pin, respond);
            && r.perMinute == n && r.inWindow == 0 && r.pin == Some(pin) && IsRun(r, es) && |es| == 2 * n
            && (n > 0 ==> es[2 * n - 1].now == es[0].now + 1)
            && |AnsweredIds(r, es, 0, 2 * n)| == CountedStarts(r, es, 0, 2 * n) == 2 * n
  {
    var r, es := OpenFor(n, pin), Knocks(n, pin, respond);
    KnocksAreUnique(n, pin, respond);
    forall i | 0 <= i < |es|
      ensures Allowed(At(r, es, i), es[i])
    {
      KnocksAreAnswered(n, pin, respond, i);
    }
    AllAreAnswered(n, pin, respond, 2 * n, r, es);
    AnsweredAreCounted(r, es, 0, 2 * n);
    AnyMinuteTakesTwiceTheLimit(r, es, 0, 2 * n);
  }

  // ----- Guesses per PIN -----

  /** The issue of the PIN that a counted start is answered with. */
  ghost function IssueOf(r: Registry, e: Event): nat {
    if e.op.Start? then Step(r, e).issue else 0
  }

  /** How many counted starts of events i to j are answered with this issue of the PIN. */
  ghost function Guesses(r: Registry, es: seq<Event>, i: nat, j: nat, issue: nat): nat
    requires i <= j <= |es|
  {
    if i == j then 0
    else
      Guesses(r, es, i, j - 1, issue)
      + if Counts(At(r, es, j - 1), es[j - 1]) && IssueOf(At(r, es, j - 1), es[j - 1]) == issue then 1 else 0
  }

  ghost predicate NoConfirmation(r: Registry, es: seq<Event>, i: nat, j: nat)
    requires i <= j <= |es|
  {
    forall k :: i <= k < j ==> !IsConfirmation(At(r, es, k), es[k])
  }

  /** Without a confirmation, a step counts a guess against the PIN it leaves, or changes the PIN first. */
  ghost predicate IsPinStep(r: Registry, e: Event, s: Registry) {
    var counted := if Counts(r, e) then 1 else 0;
    && s.beforeRotation == r.beforeRotation
    && ((s.issue == r.issue && s.unconfirmed == r.unconfirmed + counted
         && (counted == 1 ==> s.unconfirmed <= s.beforeRotation))
        || (s.issue == r.issue + 1 && counted == 1 && s.unconfirmed == 1 && r.unconfirmed >= r.beforeRotation)
        || (s.issue == r.issue + 1 && counted == 0 && s.unconfirmed == r.unconfirmed))
  }

  lemma StartOfPin(r: Registry, now: nat, id: Id, next: string, respond: Responder, oldest: Id)
    ensures IsPinStep(r, Event(now, Start(id, next, respond, oldest)), Started(r, now, id, next, respond, oldest))
  {
  }

  lemma StepOfPin(r: Registry, e: Event)
    requires !IsConfirmation(r, e)
    ensures IsPinStep(r, e, Step(r, e))
  {
    match e.op
    case Start(id, next, respond, oldest) => StartOfPin(r, e.now, id, next, respond, oldest);
    case Load(dir) => LoadKeepsTheRest(r, FileOf(r, dir));
    case _ =>
  }

  /** The starts one PIN may answer; with a limit of 0 every start gets a PIN of its own. */
  function Budget(r: Registry): nat {
    if r.beforeRotation == 0 then 1 else r.beforeRotation
  }

  /** The guesses at one issue: none at a later one, at most the counter at this one, at most the budget
      at an earlier one. */
  ghost predicate Guessed(s: Registry, n: nat, issue: nat) {
    && s.unconfirmed <= Budget(s)
    && n <= if issue > s.issue then 0 else if issue == s.issue then s.unconfirmed else Budget(s)
  }

  lemma GuessStep(r: Registry, e: Event, s: Registry, n: nat, issue: nat)
    requires Guessed(r, n, issue) && IsPinStep(r, e, s) && s == Step(r, e)
    ensures Guessed(s, n + if Counts(r, e) && IssueOf(r, e) == issue then 1 else 0, issue)
  {
  }

  lemma {:induction false} GuessesAgainstCounter(r: Registry, es: seq<Event>, i: nat, j: nat, issue: nat)
    requires i <= j <= |es| && NoConfirmation(r, es, i, j)
    requires At(r, es, i).unconfirmed <= Budget(r) && At(r, es, i).beforeRotation == r.beforeRotation
    ensures Guessed(At(r, es, j), Guesses(r, es, i, j, issue), issue) && At(r, es, j).beforeRotation == r.beforeRotation
    decreases j
  {
    if i < j {
      GuessesAgainstCounter(r, es, i, j - 1, issue);
      var before, e := At(r, es, j - 1), es[j - 1];
      StepOfPin(before, e);
      GuessStep(before, e, At(r, es, j), Guesses(r, es, i, j - 1, issue), issue);
    }
  }

  /** The counter of unconfirmed starts stays within the budget, whatever is confirmed or regenerated. */
  lemma {:induction false} CounterIsBounded(r: Registry, es: seq<Event>, n: nat)
    requires n <= |es| && r.unconfirmed <= Budget(r)
    ensures At(r, es, n).unconfirmed <= Budget(r) && At(r, es, n).beforeRotation == r.beforeRotation
  {
    if n > 0 {
      CounterIsBounded(r, es, n - 1);
      var before, e := At(r, es, n - 1), es[n - 1];
      if !IsConfirmation(before, e) {
        StepOfPin(before, e);
      }
    }
  }

  /** Between two confirmations no PIN answers more than the limit of starts, 10 by default, over every
      run of starts, finishes and manual regenerations. */
  lemma GuessesPerPin(r: Registry, es: seq<Event>, i: nat, j: nat, issue: nat)
    requires i <= j <= |es| && NoConfirmation(r, es, i, j) && r.unconfirmed <= Budget(r)
    ensures Guesses(r, es, i, j, issue) <= Budget(r)
  {
    CounterIsBounded(r, es, i);
    GuessesAgainstCounter(r, es, i, j, issue);
  }

  // ----- Keeping and loading -----

  lemma LoadListed(r: Registry, id: Id, key: Key)
    requires id !in r.keys
    ensures LoadOne(r, StoredPairing(id, Hex.Encode(key))) == r.(keys := r.keys[id := key], order := r.order + [id])
  {
    Hex.RoundTrip(key);
  }

  function Restricted(keys: map<Id, Key>, order: seq<Id>): map<Id, Key> {
    map id | id in order && id in keys :: keys[id]
  }

  lemma LoadMore(r: Registry, stored: seq<StoredPairing>, entry: StoredPairing)
    ensures LoadAll(r, stored + [entry]) == LoadOne(LoadAll(r, stored), entry)
  {
    assert (stored + [entry])[..|stored|] == stored;
  }

  lemma {:induction false} ListingGrows(front: seq<Id>, id: Id, keys: map<Id, Key>)
    requires id in keys
    ensures Listing(front + [id], keys) == Listing(front, keys) + [StoredPairing(id, Hex.Encode(keys[id]))]
  {
    if front != [] {
      ListingGrows(front[1..], id, keys);
      assert (front + [id])[1..] == front[1..] + [id];
    } else {
      assert front + [id] == [id] && [id][1..] == [];
    }
  }

  ghost predicate Appends(r: Registry, order: seq<Id>, keys: map<Id, Key>) {
    LoadAll(r, Listing(order, keys)) == r.(order := r.order + order, keys := r.keys + Restricted(keys, order))
  }

  lemma RestrictedMore(base: map<Id, Key>, keys: map<Id, Key>, front: seq<Id>, id: Id)
    requires id in keys
    ensures (base + Restricted(keys, front))[id := keys[id]] == base + Restricted(keys, front + [id])
  {
  }

  lemma ListingStep(r: Registry, front: seq<Id>, id: Id, keys: map<Id, Key>)
    requires Appends(r, front, keys) && id in keys && id !in r.keys && id !in front
    ensures Appends(r, front + [id], keys)
  {
    var s := LoadAll(r, Listing(front, keys));
    ListingGrows(front, id, keys);
    LoadMore(r, Listing(front, keys), StoredPairing(id, Hex.Encode(keys[id])));
    LoadListed(s, id, keys[id]);
    RestrictedMore(r.keys, keys, front, id);
    assert r.order + front + [id] == r.order + (front + [id]);
  }

  /** Loading a listing appends its pairings. */
  lemma {:induction false} ListingLoads(r: Registry, order: seq<Id>, keys: map<Id, Key>)
    requires NoDuplicates(order) && forall id :: id in order ==> id in keys && id !in r.keys
    ensures Appends(r, order, keys)
    decreases |order|
  {
    if order == [] {
      assert r.order + [] == r.order && r.keys + Restricted(keys, []) == r.keys;
    } else {
      var n := |order| - 1;
      ListingLoads(r, order[..n], keys);
      ListingStep(r, order[..n], order[n], keys);
      LastApart(order);
    }
  }

  /** If the event writes the file, that succeeds. */
  predicate Writes(e: Event) {
    (e.op.Finish? ==> e.op.written) && (e.op.Keep? ==> e.op.written)
  }

  /** While pairings are remembered, the file holds those of the register. */
  ghost predicate Mirrors(r: Registry) {
    r.storeDir.Some? ==> FileOf(r, r.storeDir.value) == Listing(r.order, r.keys)
  }

  lemma PersistMirrors(r: Registry)
    ensures Mirrors(Persisted(r, true))
  {
  }

  lemma FinishKeepsMirror(r: Registry, now: nat, id: Id, confirm: Pake.AuthText)
    requires Mirrors(r)
    ensures Mirrors(Finished(r, now, id, confirm, true))
  {
    if Confirms(r, now, id, confirm) {
      var room := Evicted(r.(pending := r.pending - {id}, unconfirmed := 0));
      PersistMirrors(room.(order := room.order + [id], keys := room.keys[id := r.pending[id].state.key]));
    }
  }

  lemma KeepMirrors(r: Registry, store: Option<Path>)
    ensures Mirrors(Kept(r, store, true))
  {
    var dropped := if store.None? && r.storeDir.Some? then r.(files := r.files - {r.storeDir.value}) else r;
    PersistMirrors(dropped.(storeDir := store));
  }

  lemma CountingKeepsMirror(r: Registry, now: nat, next: string)
    requires Mirrors(r)
    ensures Mirrors(Windowed(r, now)) && Mirrors(Counted(Windowed(r, now), next))
  {
    assert Mirrors(Windowed(r, now));
  }

  lemma StartKeepsMirror(r: Registry, now: nat, id: Id, next: string, respond: Responder, oldest: Id)
    requires Mirrors(r)
    ensures Mirrors(Started(r, now, id, next, respond, oldest))
  {
    CountingKeepsMirror(r, now, next);
    if Passes(r, now) {
      var counted, s := Counted(Windowed(r, now), next), Started(r, now, id, next, respond, oldest);
      assert s == counted.(pending := s.pending);
    }
  }

  lemma StepKeepsMirror(r: Registry, e: Event)
    requires Mirrors(r) && !e.op.Load? && Writes(e)
    ensures Mirrors(Step(r, e))
  {
    match e.op
    case Start(id, next, respond, oldest) => StartKeepsMirror(r, e.now, id, next, respond, oldest);
    case Finish(id, confirm, _) => FinishKeepsMirror(r, e.now, id, confirm);
    case Keep(store, _) => KeepMirrors(r, store);
    case _ =>
  }

  lemma {:induction false} AlwaysMirrors(r: Registry, es: seq<Event>, n: nat)
    requires Mirrors(r) && n <= |es| && forall i :: 0 <= i < n ==> !es[i].op.Load? && Writes(es[i])
    ensures Mirrors(At(r, es, n))
  {
    if n > 0 {
      AlwaysMirrors(r, es, n - 1);
      StepKeepsMirror(At(r, es, n - 1), es[n - 1]);
    }
  }

  /** A listing loaded by a device that has just started gives the same pairings in the same order. */
  lemma ListingRestores(r: Registry, dir: Path, now: nat, pin: Option<string>, files: map<Path, seq<StoredPairing>>)
    requires Valid(r) && FileOf(Empty(now, pin, files), dir) == Listing(r.order, r.keys)
    ensures var s := Loaded(Empty(now, pin, files), dir); s.order == r.order && s.keys == r.keys
  {
    ListingLoads(Empty(now, pin, files), r.order, r.keys);
    AllRestored(r);
  }

  /** Whenever the device stops, in any run in which pairings are remembered and written, starting again and
      loading the file gives back the same pairings in the same order. */
  lemma RestartKeepsPairings(r: Registry, es: seq<Event>, n: nat, dir: Path, now: nat, pin: Option<string>)
    requires Valid(r) && Mirrors(r) && AllAllowed(r, es) && n <= |es|
    requires forall i :: 0 <= i < n ==> !es[i].op.Load? && Writes(es[i])
    requires At(r, es, n).storeDir == Some(dir)
    ensures var s := Loaded(Empty(now, pin, At(r, es, n).files), dir);
            s.order == At(r, es, n).order && s.keys == At(r, es, n).keys
  {
    AlwaysValid(r, es, n);
    AlwaysMirrors(r, es, n);
    var last := At(r, es, n);
    ListingRestores(last, dir, now, pin, last.files);
  }

  lemma AllRestored(r: Registry)
    requires Valid(r)
    ensures [] + r.order == r.order && map[] + Restricted(r.keys, r.order) == r.keys
  {
  }
}
