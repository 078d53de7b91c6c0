// The values behind the save queue: how long each retry waits, how failures
// are counted over whole histories, and which event changes which variable.
module SaveQueueLaws {
  import opened Wrappers
  import opened SaveQueue
  import opened SaveQueueHistory
  import N = Numbers

  /******* How long a retry waits *******/

  // The first wait is the base, each failure doubles it up to the cap, and
  // from ten failures on it stays.
  lemma BackoffDoubles(config: Config, attempt: nat)
    requires ConfigOk(config)
    ensures Exponential(config, 0) == config.base
    ensures attempt < 10 ==>
      var twice := Exponential(config, attempt) + Exponential(config, attempt);
      Exponential(config, attempt + 1) == if twice <= config.maxDelay then twice else config.maxDelay
    ensures attempt >= 10 ==> Exponential(config, attempt) == Exponential(config, 10)
  {
    FirstWait(config);
    if attempt < 10 { NextWait(config, attempt); }
  }

  function Scaled(x: real, p: nat): real {
    x * p as real
  }

  lemma FirstWait(config: Config)
    requires ConfigOk(config)
    ensures Exponential(config, 0) == config.base
  {
    assert N.Pow2(0) == 1;
    assert config.base * 1.0 == config.base;
  }

  lemma WaitIs(config: Config, attempt: nat)
    requires attempt <= 10
    ensures Exponential(config, attempt) == Min(config.maxDelay, Scaled(config.base, N.Pow2(attempt)))
  {
    hide N.Pow2;
    assert (if attempt < 10 then attempt else 10) == attempt;
    assert config.base * N.Pow2(if attempt < 10 then attempt else 10) as real == Scaled(config.base, N.Pow2(attempt));
  }

  lemma NextWait(config: Config, attempt: nat)
    requires ConfigOk(config) && attempt < 10
    ensures var twice := Exponential(config, attempt) + Exponential(config, attempt);
      Exponential(config, attempt + 1) == if twice <= config.maxDelay then twice else config.maxDelay
  {
    WaitIs(config, attempt);
    WaitIs(config, attempt + 1);
    assert N.Pow2(attempt + 1) == 2 * N.Pow2(attempt);
    hide Exponential, Scaled, N.Pow2;
    ScaledTwice(config.base, N.Pow2(attempt));
  }

  lemma ScaledTwice(x: real, p: nat)
    requires x >= 0.0
    ensures Scaled(x, 2 * p) == Scaled(x, p) + Scaled(x, p) && Scaled(x, p) >= 0.0
  {
    assert (2 * p) as real == p as real + p as real;
  }

  // The wait is the whole number nearest to the jittered exponential, halves
  // going up, and at least 50.
  lemma DelayIsNearest(config: Config, attempt: nat, random: unit)
    requires ConfigOk(config)
    ensures var e, d := Exponential(config, attempt), Delay(config, attempt, random);
      var x := e + e * config.spread * (random + random - 1.0);
      if x < 49.5 then d == 50 else d as real - 0.5 <= x < d as real + 0.5
  {
    hide Exponential, Round, Offset;
    var e := Exponential(config, attempt);
    OffsetIs(e, config.spread, random);
    NearestWhole(e + Offset(e, config.spread, random));
  }

  lemma OffsetIs(e: real, spread: real, random: unit)
    ensures Offset(e, spread, random) == e * spread * (random + random - 1.0)
  {
    assert random * 2.0 - 1.0 == random + random - 1.0;
  }

  lemma NearestWhole(x: real)
    ensures Round(x) as real - 0.5 <= x < Round(x) as real + 0.5
    ensures x < 49.5 <==> Round(x) < 50
  {
  }

  // The queue of the page, without jitter.
  lemma DefaultWaits(random: unit)
    ensures var config := MakeConfig(0.0, 0.0, 0.0);
      && Delay(config, 0, random) == 500 && Delay(config, 1, random) == 1000 && Delay(config, 2, random) == 2000
      && Delay(config, 3, random) == 4000 && Delay(config, 4, random) == 8000 && Delay(config, 5, random) == 16000
      && Delay(config, 6, random) == 30000 && Delay(config, 60, random) == 30000
  {
    var config := MakeConfig(0.0, 0.0, 0.0);
    MadeConfigIsOk(0.0, 0.0, 0.0);
    assert config.base == 500.0 && config.maxDelay == 30000.0 && config.spread == 0.0;
    hide Exponential, Delay;
    BackoffDoubles(config, 0);
    BackoffDoubles(config, 1);
    BackoffDoubles(config, 2);
    BackoffDoubles(config, 3);
    BackoffDoubles(config, 4);
    BackoffDoubles(config, 5);
    BackoffDoubles(config, 6);
    BackoffDoubles(config, 7);
    BackoffDoubles(config, 8);
    BackoffDoubles(config, 9);
    BackoffDoubles(config, 60);
    WithoutJitter(config, 0, random, 500);
    WithoutJitter(config, 1, random, 1000);
    WithoutJitter(config, 2, random, 2000);
    WithoutJitter(config, 3, random, 4000);
    WithoutJitter(config, 4, random, 8000);
    WithoutJitter(config, 5, random, 16000);
    WithoutJitter(config, 6, random, 30000);
    WithoutJitter(config, 60, random, 30000);
  }

  lemma WithoutJitter(config: Config, attempt: nat, random: unit, wait: int)
    requires ConfigOk(config) && config.spread == 0.0 && Exponential(config, attempt) == wait as real && wait >= 50
    ensures Delay(config, attempt, random) == wait
  {
    hide Exponential, Delay;
    DelayIsNearest(config, attempt, random);
    assert wait as real * 0.0 * (random + random - 1.0) == 0.0;
  }

  // What becomes of the settings: zero means the default, and each is kept
  // within its limits.
  lemma MadeConfigIs(delay: real, maxDelay: real, jitter: real)
    ensures var config := MakeConfig(delay, maxDelay, jitter);
      && config.base == (if delay == 0.0 then 500.0 else if delay < 50.0 then 50.0 else delay)
      && (maxDelay >= config.base && maxDelay != 0.0 ==> config.maxDelay == maxDelay)
      && (maxDelay == 0.0 ==> config.maxDelay == if config.base <= 30000.0 then 30000.0 else config.base)
      && (maxDelay < config.base && maxDelay != 0.0 ==> config.maxDelay == config.base)
      && (0.0 <= jitter <= 0.5 ==> config.spread == jitter)
      && (jitter < 0.0 ==> config.spread == 0.0) && (jitter > 0.5 ==> config.spread == 0.5)
  {
  }

  /******* Which event changes what *******/

  predicate SavesSnapshot(e: Event) {
    e.MarkDirty? || e.ClearConflict? || e.WriteOk? || e.Finish? || e.Retry?
  }

  function StoredAttempts(stored: Option<Snapshot>): nat {
    if stored.Some? && stored.value.schemaVersion == 1 && stored.value.retryAttempt > 0 then stored.value.retryAttempt else 0
  }

  predicate DirtyLaw(q: Queue, e: Event, dirty: bool) {
    match e
    case MarkDirty(_) => dirty
    case ClearConflict(_) => dirty
    case WriteFailed(_, _) => dirty
    case Clear => !dirty
    case WriteOk(i, _) => i < |q.flights| && q.flights[i].Writing? && (dirty <==> q.dirty && q.generation != q.flights[i].generation)
    case Restart(_, _) => dirty <==> StoredDirty(q.stored)
    case _ => dirty == q.dirty
  }

  predicate BlockedLaw(q: Queue, e: Event, blocked: bool) {
    match e
    case WriteFailed(_, conflict) => blocked <==> q.blocked || conflict
    case Retry => !blocked
    case ClearConflict(_) => !blocked
    case Clear => !blocked
    case Restart(_, _) => blocked <==> StoredBlocked(q.stored)
    case _ => blocked == q.blocked
  }

  predicate OnlineLaw(q: Queue, e: Event, online: bool) {
    match e
    case SetOnline(value, _) => online == value
    case Restart(now, _) => online == now
    case _ => online == q.online
  }

  predicate AttemptsLaw(q: Queue, e: Event, attempts: nat) {
    match e
    case WriteFailed(_, conflict) => attempts == if conflict then q.retryAttempt else q.retryAttempt + 1
    case WriteOk(_, _) => attempts == 0
    case Retry => attempts == 0
    case ClearConflict(_) => attempts == 0
    case Clear => attempts == 0
    case Restart(_, _) => attempts == StoredAttempts(q.stored)
    case _ => attempts == q.retryAttempt
  }

  // Edits and clears are told apart from what is being written.
  predicate GenerationLaw(q: Queue, e: Event, generation: int) {
    if e.MarkDirty? || e.ClearConflict? || e.Clear? then generation == q.generation + 1
    else if e.Restart? then generation == (if q.stored.Some? && q.stored.value.schemaVersion == 1 then q.stored.value.generation else 0)
    else generation == q.generation
  }

  // The timer after an event: armed anew, left alone, or gone.
  predicate TimerLaw(config: Config, q: Queue, e: Event, q': Queue) {
    match e
    case MarkDirty(random) => Armed(config, q', random)
    case ClearConflict(random) => Armed(config, q', random)
    case WriteOk(_, random) => Armed(config, q', random)
    case Finish(_, random) => Armed(config, q', random)
    case SetOnline(_, random) => Armed(config, q', random)
    case Restart(_, random) => Armed(config, q', random)
    case WriteFailed(_, _) => q'.timer == q.timer
    case _ => q'.timer == None
  }

  predicate Armed(config: Config, q: Queue, random: unit) {
    q.timer == if q.dirty && !q.running && !q.blocked && q.online then Some(Delay(config, q.retryAttempt, random)) else None
  }

  predicate StoredLaw(q: Queue, e: Event, q': Queue) {
    q'.stored ==
      if e.Clear? then None
      else if SavesSnapshot(e) then Some(Snapshot(1, q'.dirty, q'.blocked, q'.retryAttempt, q'.generation))
      else q.stored
  }

  // What is in flight: a write starts with the present edits when it can,
  // turns into callbacks when it fails, and is gone when it ends.
  predicate FlightsLaw(q: Queue, e: Event, q': Queue) {
    match e
    case WriteOk(_, _) => q'.flights == [] && !q'.running
    case WriteFailed(_, _) => q'.flights == [Rejected] && q'.running
    case Finish(_, _) => q'.flights == [] && !q'.running
    case Restart(_, _) => q'.flights == [] && !q'.running
    case _ =>
      if (e.Flush? || e.Fire? || e.Retry?) && q.dirty && !q.running && (!q.blocked || e.Retry?) && q.online then
        q'.flights == [Writing(q.generation)] && q'.running
      else q'.flights == q.flights && q'.running == q.running
  }

  lemma VariablesChange(config: Config, q: Queue, e: Event)
    requires Inv(config, q) && Enabled(q, e)
    ensures var q' := Step(config, q, e);
      && DirtyLaw(q, e, q'.dirty) && BlockedLaw(q, e, q'.blocked) && OnlineLaw(q, e, q'.online)
      && AttemptsLaw(q, e, q'.retryAttempt) && GenerationLaw(q, e, q'.generation)
  {
    SwitchesChange(config, q, e);
    CountersChange(config, q, e);
    hide Inv, Step, Enabled;
  }

  lemma SwitchesChange(config: Config, q: Queue, e: Event)
    requires Inv(config, q) && Enabled(q, e)
    ensures var q' := Step(config, q, e);
      DirtyLaw(q, e, q'.dirty) && BlockedLaw(q, e, q'.blocked) && OnlineLaw(q, e, q'.online)
  {
    hide Delay, DelayInRange, Agrees;
  }

  lemma CountersChange(config: Config, q: Queue, e: Event)
    requires Inv(config, q) && Enabled(q, e)
    ensures var q' := Step(config, q, e); AttemptsLaw(q, e, q'.retryAttempt) && GenerationLaw(q, e, q'.generation)
  {
    hide Delay, DelayInRange, Agrees;
  }

  lemma StorageAndFlights(config: Config, q: Queue, e: Event)
    requires ConfigOk(config) && Inv(config, q) && Enabled(q, e)
    ensures var q' := Step(config, q, e); StoredLaw(q, e, q') && FlightsLaw(q, e, q')
  {
    hide Delay, DelayInRange, Agrees;
  }

  lemma TimerChanges(config: Config, q: Queue, e: Event)
    requires ConfigOk(config) && Inv(config, q) && Enabled(q, e)
    ensures TimerLaw(config, q, e, Step(config, q, e))
  {
    hide Delay, DelayInRange, Agrees;
  }

  // An event that cannot happen now changes nothing.
  lemma NothingElseHappens(config: Config, q: Queue, e: Event)
    requires !Enabled(q, e)
    ensures Step(config, q, e) == q
  {
  }

  /******* Counting failures *******/

  // Failures that count towards the wait, and how many the storage knows of.
  datatype Failures = Failures(counted: nat, stored: nat)

  function FailuresOf(config: Config, stored: Option<Snapshot>, online: bool, random: unit, events: seq<Event>): Failures
    decreases |events|
  {
    if events == [] then Failures(StoredAttempts(stored), StoredAttempts(stored)) else
    var before, e := FailuresOf(config, stored, online, random, events[..|events| - 1]), events[|events| - 1];
    if !Enabled(Run(config, Opened(config, stored, online, random), events[..|events| - 1]), e) then before else
    match e
    case WriteFailed(_, conflict) => if conflict then before else Failures(before.counted + 1, before.stored)
    case WriteOk(_, _) => Failures(0, 0)
    case Retry => Failures(0, 0)
    case ClearConflict(_) => Failures(0, 0)
    case Clear => Failures(0, 0)
    case MarkDirty(_) => Failures(before.counted, before.counted)
    case Finish(_, _) => Failures(before.counted, before.counted)
    case Restart(_, _) => Failures(before.stored, before.stored)
    case _ => before
  }

  // In every run retryAttempt is the number of failures without a conflict
  // since the last success, retry, clearConflict or clear; a restart goes on
  // with what was stored last.
  lemma {:induction false} AttemptsAreFailures(config: Config, stored: Option<Snapshot>, online: bool, random: unit, events: seq<Event>)
    requires ConfigOk(config)
    ensures var q, failures := Run(config, Opened(config, stored, online, random), events), FailuresOf(config, stored, online, random, events);
      q.retryAttempt == failures.counted && StoredAttempts(q.stored) == failures.stored
    decreases |events|
  {
    var start := Opened(config, stored, online, random);
    if events == [] {
      hide Delay;
    } else {
      var before, e := events[..|events| - 1], events[|events| - 1];
      var q := Run(config, start, before);
      AttemptsAreFailures(config, stored, online, random, before);
      RunKeeps(config, stored, online, random, before);
      hide Inv, Opened, Step;
      if Enabled(q, e) {
        CountersChange(config, q, e);
        StorageAndFlights(config, q, e);
        hide GenerationLaw, FlightsLaw, Enabled;
      } else {
        NothingElseHappens(config, q, e);
      }
    }
  }

  /******* A successful write cleans *******/

  // A write that started after the last edit and the last clear carries the
  // present generation.
  predicate WritesPresent(t: Trace) {
    t.q.running && |t.q.flights| == 1 && t.q.flights[0].Writing? && t.startedAt > t.lastEdit && t.startedAt > t.lastClear ==>
      t.q.flights[0].generation == t.q.generation
  }

  lemma NextWritesPresent(config: Config, t: Trace, e: Event)
    requires ConfigOk(config) && TraceInv(config, t) && WritesPresent(t)
    ensures WritesPresent(Next(config, t, e))
  {
    hide Delay, DelayInRange, Agrees, Accounted;
  }

  lemma {:induction false} HistoryWritesPresent(config: Config, stored: Option<Snapshot>, online: bool, random: unit, events: seq<Event>)
    requires ConfigOk(config)
    ensures WritesPresent(History(config, stored, online, random, events))
    decreases |events|
  {
    if events == [] {
      hide Delay;
    } else {
      HistoryWritesPresent(config, stored, online, random, events[..|events| - 1]);
      HistoryKeeps(config, stored, online, random, events[..|events| - 1]);
      hide TraceInv, Next, WritesPresent;
      NextWritesPresent(config, History(config, stored, online, random, events[..|events| - 1]), events[|events| - 1]);
    }
  }

  // Whatever the interleaving: the success of a write with no edit and no
  // clear since it started leaves the queue and its snapshot clean, without a
  // timer and with no failures counted.
  lemma SuccessCleans(config: Config, stored: Option<Snapshot>, online: bool, random: unit, events: seq<Event>, i: nat, r: unit)
    requires ConfigOk(config)
    requires var t := History(config, stored, online, random, events);
      Enabled(t.q, WriteOk(i, r)) && t.startedAt > t.lastEdit && t.startedAt > t.lastClear
    ensures var q := Step(config, History(config, stored, online, random, events).q, WriteOk(i, r));
      !q.dirty && !StoredDirty(q.stored) && q.timer == None && q.retryAttempt == 0 && q.flights == []
  {
    HistoryKeeps(config, stored, online, random, events);
    HistoryWritesPresent(config, stored, online, random, events);
    hide History, Delay, DelayInRange, Agrees;
  }
}
