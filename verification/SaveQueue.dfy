// The browser's save queue: one asynchronous write at a time, a generation
// counter for edits made meanwhile, a block after a version conflict, an
// online switch, and a timer with exponential backoff.
module SaveQueue {
  import opened Wrappers
  import N = Numbers

  /******* Delays *******/

  type unit = r: real | 0.0 <= r <= 1.0

  datatype Config = Config(base: real, maxDelay: real, spread: real)

  // Zero counts as missing.
  function OrElse(x: real, missing: real): real {
    if x == 0.0 then missing else x
  }

  function Max(a: real, b: real): real {
    if a < b then b else a
  }

  function Min(a: real, b: real): real {
    if a < b then a else b
  }

  function MakeConfig(delay: real, maxDelay: real, jitter: real): Config {
    var base := Max(50.0, OrElse(delay, 500.0));
    Config(base, Max(base, OrElse(maxDelay, 30000.0)), Max(0.0, Min(0.5, jitter)))
  }

  predicate ConfigOk(config: Config) {
    50.0 <= config.base <= config.maxDelay && 0.0 <= config.spread <= 0.5
  }

  function Exponential(config: Config, attempt: nat): real {
    Min(config.maxDelay, config.base * N.Pow2(if attempt < 10 then attempt else 10) as real)
  }

  // Math.round: halves go up.
  function Round(x: real): int {
    (x + 0.5).Floor
  }

  function Offset(exponential: real, spread: real, random: unit): real {
    exponential * spread * (random * 2.0 - 1.0)
  }

  function Delay(config: Config, attempt: nat, random: unit): int {
    var exponential := Exponential(config, attempt);
    var rounded := Round(exponential + Offset(exponential, config.spread, random));
    if rounded < 50 then 50 else rounded
  }

  // The largest share the jitter may add or take away.
  function Swing(exponential: real, spread: real): real {
    exponential * spread
  }

  // Up to rounding, between half and one and a half of the capped exponential.
  predicate DelayInRange(config: Config, attempt: nat, delay: int) {
    var e := Exponential(config, attempt);
    && delay >= 50
    && e - Swing(e, config.spread) - 0.5 <= delay as real <= e + Swing(e, config.spread) + 0.5
    && e * 0.5 - 0.5 <= delay as real <= e * 1.5 + 0.5
  }

  lemma MadeConfigIsOk(delay: real, maxDelay: real, jitter: real)
    ensures ConfigOk(MakeConfig(delay, maxDelay, jitter))
  {
  }

  lemma ExponentialAtLeastBase(config: Config, attempt: nat)
    requires ConfigOk(config)
    ensures config.base <= Exponential(config, attempt) <= config.maxDelay
  {
    var p := N.Pow2(if attempt < 10 then attempt else 10);
    ScaleUp(config.base, p as real);
  }

  lemma ScaleUp(x: real, f: real)
    requires x >= 0.0 && f >= 1.0
    ensures x <= x * f
  {
  }

  lemma ScaleMore(x: real, f: real, g: real)
    requires x >= 0.0 && f <= g
    ensures x * f <= x * g
  {
  }

  lemma HalfAtMost(e: real, spread: real, half: real)
    requires e >= 0.0 && spread <= half == 0.5
    ensures Swing(e, spread) <= e * 0.5
  {
    ScaleMore(e, spread, half);
    assert e * half == e * 0.5;
  }

  lemma OffsetBounds(e: real, spread: real, random: unit)
    requires e >= 0.0 && 0.0 <= spread <= 0.5
    ensures -Swing(e, spread) <= Offset(e, spread, random) <= Swing(e, spread) <= e * 0.5
  {
    var s := e * spread;
    var f := random * 2.0 - 1.0;
    ScaleMore(e, 0.0, spread);
    HalfAtMost(e, spread, 0.5);
    ScaleMore(s, f, 1.0);
    ScaleMore(s, -1.0, f);
  }

  lemma DelayBounds(config: Config, attempt: nat, random: unit)
    requires ConfigOk(config)
    ensures DelayInRange(config, attempt, Delay(config, attempt, random))
  {
    hide Exponential, Round, Offset, Swing;
    var e := Exponential(config, attempt);
    var offset := Offset(e, config.spread, random);
    ExponentialAtLeastBase(config, attempt);
    OffsetBounds(e, config.spread, random);
    RoundBounds(e + offset);
    ClampBounds(e, Swing(e, config.spread), offset, Round(e + offset));
  }

  lemma ClampBounds(e: real, spread: real, offset: real, rounded: int)
    requires e >= 50.0 && -spread <= offset <= spread <= e * 0.5
    requires e + offset - 0.5 <= rounded as real <= e + offset + 0.5
    ensures var delay := if rounded < 50 then 50 else rounded;
      && e - spread - 0.5 <= delay as real <= e + spread + 0.5
      && e * 0.5 - 0.5 <= delay as real <= e * 1.5 + 0.5
  {
    var half := e * 0.5;
    assert e * 1.5 == e + half;
  }

  lemma RoundBounds(x: real)
    ensures x - 0.5 <= Round(x) as real <= x + 0.5
  {
  }

  // Waiting never gets shorter with more failures, and is capped from ten on.
  lemma BackoffGrows(config: Config, attempt: nat)
    requires ConfigOk(config)
    ensures Exponential(config, attempt) <= Exponential(config, attempt + 1)
    ensures attempt >= 10 ==> Exponential(config, attempt) == Exponential(config, 10)
  {
    if attempt < 10 {
      hide N.Pow2;
      N.Pow2Grows(attempt, attempt + 1);
      ScaleMore(config.base, N.Pow2(attempt) as real, N.Pow2(attempt + 1) as real);
    }
  }

  /******* The queue *******/

  datatype Snapshot = Snapshot(schemaVersion: int, dirty: bool, blocked: bool, retryAttempt: int, generation: int)

  // One write that has started and not finished: its promise is pending, or it
  // was rejected and the callbacks are running.
  datatype Flight = Writing(generation: int) | Rejected

  // timer holds the delay it was armed with; stored is what the storage holds.
  datatype Queue = Queue(dirty: bool, running: bool, blocked: bool, online: bool, retryAttempt: nat, generation: int,
                         timer: Option<int>, flights: seq<Flight>, stored: Option<Snapshot>)

  // An event is one stretch of the program that runs without interruption. A
  // failed write is two of them, because the callbacks it makes may call the
  // queue again before its last part runs.
  datatype Event =
    | MarkDirty(random: unit)
    | Flush
    | Fire // the timer runs out
    | WriteOk(i: nat, random: unit)
    | WriteFailed(i: nat, conflict: bool)
    | Finish(i: nat, random: unit)
    | Retry
    | ClearConflict(random: unit)
    | Clear
    | SetOnline(value: bool, random: unit)
    | Restart(online: bool, random: unit) // the page is closed and opened again

  function Saved(q: Queue): Queue {
    q.(stored := Some(Snapshot(1, q.dirty, q.blocked, q.retryAttempt, q.generation)))
  }

  predicate MayWrite(q: Queue) {
    q.dirty && !q.running && !q.blocked && q.online
  }

  function Schedule(config: Config, q: Queue, random: unit): Queue {
    if MayWrite(q) then q.(timer := Some(Delay(config, q.retryAttempt, random))) else q
  }

  function Start(q: Queue): Queue {
    if MayWrite(q) then q.(timer := None, running := true, flights := q.flights + [Writing(q.generation)]) else q
  }

  function Marked(config: Config, q: Queue, random: unit): Queue {
    Schedule(config, Saved(q.(dirty := true, generation := q.generation + 1)), random)
  }

  function Without(flights: seq<Flight>, i: nat): seq<Flight>
    requires i < |flights|
  {
    flights[..i] + flights[i + 1..]
  }

  // The end of a write: its last block, whatever the outcome was.
  function Finished(config: Config, q: Queue, i: nat, random: unit): Queue
    requires i < |q.flights|
  {
    Schedule(config, q.(running := false, flights := Without(q.flights, i)), random)
  }

  // What a new page makes of the stored snapshot.
  function Opened(config: Config, stored: Option<Snapshot>, online: bool, random: unit): Queue {
    var known := stored.Some? && stored.value.schemaVersion == 1;
    var q := Queue(known && stored.value.dirty, false, known && stored.value.blocked, online,
                   if known && stored.value.retryAttempt >= 0 then stored.value.retryAttempt else 0,
                   if known then stored.value.generation else 0, None, [], stored);
    if q.dirty && q.online && !q.blocked then Schedule(config, q, random) else q
  }

  predicate Enabled(q: Queue, e: Event) {
    match e
    case Fire => q.timer.Some?
    case WriteOk(i, _) => i < |q.flights| && q.flights[i].Writing?
    case WriteFailed(i, _) => i < |q.flights| && q.flights[i].Writing?
    case Finish(i, _) => i < |q.flights| && q.flights[i].Rejected?
    case _ => true
  }

  function Step(config: Config, q: Queue, e: Event): Queue {
    if !Enabled(q, e) then q else
    match e
    case MarkDirty(random) => Marked(config, q, random)
    case Flush => Start(q)
    case Fire => Start(q)
    case WriteOk(i, random) =>
      var settled := q.(dirty := q.dirty && q.generation != q.flights[i].generation, retryAttempt := 0);
      Finished(config, Saved(settled), i, random)
    case WriteFailed(i, conflict) =>
      var settled := q.(dirty := true, flights := q.flights[i := Rejected]);
      if conflict then settled.(blocked := true) else settled.(retryAttempt := q.retryAttempt + 1)
    case Finish(i, random) => Finished(config, Saved(q), i, random)
    case Retry => Start(Saved(q.(blocked := false, retryAttempt := 0)))
    case ClearConflict(random) => Marked(config, q.(blocked := false, retryAttempt := 0), random)
    case Clear => q.(dirty := false, blocked := false, retryAttempt := 0, generation := q.generation + 1,
                     timer := None, stored := None)
    case SetOnline(value, random) =>
      if value then Schedule(config, q.(online := true), random) else q.(online := false, timer := None)
    case Restart(online, random) => Opened(config, q.stored, online, random)
  }

  function Run(config: Config, q: Queue, events: seq<Event>): Queue
    decreases |events|
  {
    if events == [] then q
    else Step(config, Run(config, q, events[..|events| - 1]), events[|events| - 1])
  }

  /******* The invariant *******/

  // A timer is armed exactly when there is something to write and nothing in
  // the way, with a delay that fits the failures so far; at most one write is
  // in flight; and the storage holds what a restart has to know.
  predicate Inv(config: Config, q: Queue) {
    && (q.timer.Some? <==> MayWrite(q))
    && (q.timer.Some? ==> DelayInRange(config, q.retryAttempt, q.timer.value))
    && |q.flights| == (if q.running then 1 else 0)
    && (!Settling(q) ==> Agrees(config, q))
  }

  predicate Settling(q: Queue) {
    exists i :: 0 <= i < |q.flights| && q.flights[i].Rejected?
  }

  predicate Agrees(config: Config, q: Queue) {
    var anew := Opened(config, q.stored, false, 0.0);
    anew.dirty == q.dirty && anew.blocked == q.blocked && anew.retryAttempt == q.retryAttempt
  }

  lemma ScheduleKeeps(config: Config, q: Queue, random: unit)
    requires ConfigOk(config)
    requires |q.flights| == (if q.running then 1 else 0)
    requires !MayWrite(q) ==> q.timer.None?
    requires !Settling(q) ==> Agrees(config, q)
    ensures Inv(config, Schedule(config, q, random))
  {
    hide Delay, DelayInRange;
    DelayBounds(config, q.retryAttempt, random);
  }

  lemma OpenedKeeps(config: Config, stored: Option<Snapshot>, online: bool, random: unit)
    requires ConfigOk(config)
    ensures Inv(config, Opened(config, stored, online, random))
  {
    hide Delay, DelayInRange;
    var anew := Opened(config, stored, online, random);
    DelayBounds(config, anew.retryAttempt, random);
  }

  lemma SavedAgrees(config: Config, q: Queue)
    ensures Agrees(config, Saved(q))
  {
  }

  // The first part of a failed write leaves the rest to its last part.
  lemma RejectionKeeps(config: Config, q: Queue, i: nat, conflict: bool)
    requires Inv(config, q) && Enabled(q, WriteFailed(i, conflict))
    ensures Inv(config, Step(config, q, WriteFailed(i, conflict)))
  {
    hide Agrees, DelayInRange;
    assert q.flights[i := Rejected][i].Rejected?;
  }

  lemma CallKeeps(config: Config, q: Queue, e: Event)
    requires ConfigOk(config) && Inv(config, q) && (e.Flush? || e.Fire? || e.Retry? || e.Clear?)
    ensures Inv(config, Step(config, q, e))
  {
    hide DelayInRange;
  }

  lemma StepKeeps(config: Config, q: Queue, e: Event)
    requires ConfigOk(config) && Inv(config, q)
    ensures Inv(config, Step(config, q, e))
  {
    hide Delay, DelayInRange, Opened;
    if Enabled(q, e) {
      match e
      case MarkDirty(random) =>
        ScheduleAfterSaving(config, q.(dirty := true, generation := q.generation + 1), random);
      case WriteOk(i, random) =>
        var settled := q.(dirty := q.dirty && q.generation != q.flights[i].generation, retryAttempt := 0);
        ScheduleAfterSaving(config, settled.(running := false, flights := Without(q.flights, i)), random);
      case WriteFailed(i, conflict) => RejectionKeeps(config, q, i, conflict);
      case Finish(i, random) =>
        ScheduleAfterSaving(config, q.(running := false, flights := Without(q.flights, i)), random);
      case ClearConflict(random) =>
        ScheduleAfterSaving(config, q.(dirty := true, blocked := false, retryAttempt := 0, generation := q.generation + 1), random);
      case SetOnline(value, random) =>
        if value { ScheduleKeeps(config, q.(online := true), random); }
      case Restart(online, random) => OpenedKeeps(config, q.stored, online, random);
      case _ => CallKeeps(config, q, e);
    }
  }

  lemma ScheduleAfterSaving(config: Config, q: Queue, random: unit)
    requires ConfigOk(config)
    requires |q.flights| == (if q.running then 1 else 0)
    requires !MayWrite(q) ==> q.timer.None?
    ensures Inv(config, Schedule(config, Saved(q), random))
  {
    SavedAgrees(config, q);
    ScheduleKeeps(config, Saved(q), random);
  }

  // Never stalls: in every reachable state, restarts included.
  lemma {:induction false} RunKeeps(config: Config, stored: Option<Snapshot>, online: bool, random: unit, events: seq<Event>)
    requires ConfigOk(config)
    ensures Inv(config, Run(config, Opened(config, stored, online, random), events))
    decreases |events|
  {
    hide Inv, Step;
    OpenedKeeps(config, stored, online, random);
    if events != [] {
      RunKeeps(config, stored, online, random, events[..|events| - 1]);
      StepKeeps(config, Run(config, Opened(config, stored, online, random), events[..|events| - 1]), events[|events| - 1]);
    }
  }
}
