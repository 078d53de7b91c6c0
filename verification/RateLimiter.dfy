// The fixed-window limiter of the verification page: one row per source, a
// cleanup of every expired row before each attempt, and an answer that counts
// the attempts of the current window. Times are milliseconds.
module RateLimiter {
  import opened Wrappers
  import opened Numbers

  const VERIFY_WINDOW_MS: nat := 60_000
  const VERIFY_MAX_ATTEMPTS: nat := 60

  datatype Slot = Slot(attempts: nat, resetAt: int)

  predicate Running(slot: Option<Slot>, now: int) {
    slot.Some? && slot.value.resetAt > now
  }

  // One attempt of a source, from its row if there is one.
  function Attempt(slot: Option<Slot>, now: int): Slot {
    if Running(slot, now) then Slot(slot.value.attempts + 1, slot.value.resetAt)
    else Slot(1, now + VERIFY_WINDOW_MS)
  }

  predicate Admitted(slot: Slot) {
    slot.attempts <= VERIFY_MAX_ATTEMPTS
  }

  /******* All sources in one table *******/

  function Lookup(table: map<string, Slot>, source: string): Option<Slot> {
    if source in table then Some(table[source]) else None
  }

  function Cleaned(table: map<string, Slot>, now: int): map<string, Slot> {
    map source | source in table && table[source].resetAt > now :: table[source]
  }

  datatype Request = Request(source: string, time: int)

  function Recorded(table: map<string, Slot>, r: Request): map<string, Slot> {
    Cleaned(table, r.time)[r.source := Attempt(Lookup(Cleaned(table, r.time), r.source), r.time)]
  }

  function Table(requests: seq<Request>): map<string, Slot>
    decreases |requests|
  {
    if requests == [] then map[] else Recorded(Table(requests[..|requests| - 1]), requests[|requests| - 1])
  }

  // The row the last request wrote.
  function Decision(requests: seq<Request>): Slot
    requires requests != []
  {
    var r := requests[|requests| - 1];
    Table(requests)[r.source]
  }

  class Limiter {
    var table: map<string, Slot>

    constructor ()
      ensures table == Table([])
    {
      table := map[];
    }

    // recordVerificationAttempt, one transaction.
    method RecordAttempt(source: string, now: int) returns (slot: Slot)
      modifies this
      ensures table == Recorded(old(table), Request(source, now)) && slot == table[source]
      ensures forall s :: s in table <==> s == source || (s in old(table) && old(table)[s].resetAt > now)
      ensures forall s :: s in table && s != source ==> table[s] == old(table)[s]
    {
      table := map s | s in table && table[s].resetAt > now :: table[s];
      var attempts, resetAt := 1, now + VERIFY_WINDOW_MS;
      if source in table && table[source].resetAt > now {
        attempts, resetAt := table[source].attempts + 1, table[source].resetAt;
      }
      table := table[source := Slot(attempts, resetAt)];
      slot := Slot(attempts, resetAt);
    }

    method VerificationRateLimit(source: string, now: int) returns (retryAfter: Option<int>)
      modifies this
      ensures table == Recorded(old(table), Request(source, now))
      ensures retryAfter.None? <==> Admitted(table[source])
      ensures retryAfter.Some? ==> retryAfter.value >= 1 && now + 1000 * retryAfter.value >= table[source].resetAt
      ensures retryAfter.Some? && retryAfter.value > 1 ==> now + 1000 * (retryAfter.value - 1) < table[source].resetAt
    {
      var slot := RecordAttempt(source, now);
      if slot.attempts > VERIFY_MAX_ATTEMPTS {
        var seconds := (slot.resetAt - now + 999) / 1000; // Math.ceil
        retryAfter := Some(if seconds < 1 then 1 else seconds);
      } else {
        retryAfter := None;
      }
    }
  }

  /******* One source alone, without cleanup *******/

  function TimesOf(requests: seq<Request>, source: string): seq<int>
    decreases |requests|
  {
    if requests == [] then [] else
    var r := requests[|requests| - 1];
    TimesOf(requests[..|requests| - 1], source) + (if r.source == source then [r.time] else [])
  }

  function Solo(times: seq<int>): Option<Slot>
    decreases |times|
  {
    if times == [] then None else Some(Attempt(Solo(times[..|times| - 1]), times[|times| - 1]))
  }

  predicate Ordered(requests: seq<Request>) {
    forall i, j :: 0 <= i < j < |requests| ==> requests[i].time <= requests[j].time
  }

  // Rows look the same to any attempt from now on.
  predicate Alike(a: Option<Slot>, b: Option<Slot>, now: int) {
    a == b || (!Running(a, now) && !Running(b, now))
  }

  lemma {:induction false} TableIsSolo(requests: seq<Request>, source: string, now: int)
    requires Ordered(requests)
    requires requests != [] ==> requests[|requests| - 1].time <= now
    ensures Alike(Lookup(Table(requests), source), Solo(TimesOf(requests, source)), now)
    decreases |requests|
  {
    if requests != [] {
      var before, r := requests[..|requests| - 1], requests[|requests| - 1];
      TableIsSolo(before, source, r.time);
      if r.source == source {
        assert TimesOf(requests, source)[..|TimesOf(before, source)|] == TimesOf(before, source);
      } else {
        assert TimesOf(requests, source) == TimesOf(before, source);
      }
    }
  }

  // Other sources and the cleanup never change a decision.
  lemma CleanupChangesNothing(requests: seq<Request>)
    requires requests != [] && Ordered(requests)
    ensures var source := requests[|requests| - 1].source;
      Solo(TimesOf(requests, source)) == Some(Decision(requests))
  {
    var before, r := requests[..|requests| - 1], requests[|requests| - 1];
    TableIsSolo(before, r.source, r.time);
    RecordedRow(Table(before), r);
    OneMoreTime(requests, r.source);
    AlikeAttempts(Lookup(Table(before), r.source), Solo(TimesOf(before, r.source)), r.time);
    hide Ordered, Recorded, TimesOf, Attempt, Alike, Lookup;
    assert Decision(requests) == Recorded(Table(before), r)[r.source];
  }

  lemma AlikeAttempts(a: Option<Slot>, b: Option<Slot>, now: int)
    requires Alike(a, b, now)
    ensures Attempt(a, now) == Attempt(b, now)
  {
  }

  lemma RecordedRow(table: map<string, Slot>, r: Request)
    ensures r.source in Recorded(table, r) && Recorded(table, r)[r.source] == Attempt(Lookup(table, r.source), r.time)
  {
  }

  lemma OneMoreTime(requests: seq<Request>, source: string)
    requires requests != [] && requests[|requests| - 1].source == source
    ensures var times := TimesOf(requests, source);
      times != [] && times[|times| - 1] == requests[|requests| - 1].time
      && times[..|times| - 1] == TimesOf(requests[..|requests| - 1], source)
  {
  }

  /******* The window in numbers *******/

  // The row of a source alone: the last window opened at some attempt, has
  // counted it and all later ones, and ends a minute after it.
  lemma {:induction false} WindowOpens(times: seq<int>) returns (k: nat)
    requires times != []
    ensures k < |times| && Solo(times) == Some(Slot(|times| - k, times[k] + 60_000))
    ensures forall j :: k <= j < |times| ==> times[j] < times[k] + 60_000
    ensures k > 0 ==> Solo(times[..k]).value.resetAt <= times[k]
    ensures Admitted(Solo(times).value) <==> |times| - k <= 60
    decreases |times|
  {
    var before, now := times[..|times| - 1], times[|times| - 1];
    if Running(Solo(before), now) {
      k := WindowOpens(before);
      assert before[..k] == times[..k];
    } else {
      k := |times| - 1;
    }
  }

  /******* How many get through *******/

  predicate Nondecreasing(times: seq<int>) {
    forall i, j :: 0 <= i < j < |times| ==> times[i] <= times[j]
  }

  // Attempts at or after a time that were admitted.
  function CountFrom(times: seq<int>, a: int): nat
    decreases |times|
  {
    if times == [] then 0 else
    CountFrom(times[..|times| - 1], a) + if times[|times| - 1] >= a && Admitted(Solo(times).value) then 1 else 0
  }

  // Admitted attempts in the half-open interval of one window's length from x.
  function CountIn(times: seq<int>, x: int): nat
    decreases |times|
  {
    if times == [] then 0 else
    var t := times[|times| - 1];
    CountIn(times[..|times| - 1], x)
      + if x <= t < x + VERIFY_WINDOW_MS && Admitted(Solo(times).value) then 1 else 0
  }

  // All attempts lie before the reset; those of the current window are as many
  // as its count says; and of the window before, its first attempt is out of
  // reach of any interval that meets the current one.
  predicate WindowFacts(times: seq<int>, a: int)
    requires times != []
  {
    var Slot(attempts, resetAt) := Solo(times).value;
    var start := resetAt - VERIFY_WINDOW_MS;
    && attempts >= 1
    && start <= times[|times| - 1] < resetAt
    && (a >= resetAt ==> CountFrom(times, a) == 0)
    && (a >= start ==> CountFrom(times, a) <= Min(attempts, VERIFY_MAX_ATTEMPTS))
    && (a > start ==> CountFrom(times, a) <= Min(attempts, VERIFY_MAX_ATTEMPTS) - 1)
    && (a > start - VERIFY_WINDOW_MS ==> CountFrom(times, a) <= Min(attempts, VERIFY_MAX_ATTEMPTS) + VERIFY_MAX_ATTEMPTS - 1)
  }

  lemma {:induction false} WindowHolds(times: seq<int>, a: int)
    requires times != [] && Nondecreasing(times)
    ensures WindowFacts(times, a)
    decreases |times|
  {
    var before := times[..|times| - 1];
    if before != [] {
      WindowHolds(before, a);
    }
  }

  lemma {:induction false} CountInAtMostFrom(times: seq<int>, x: int)
    ensures CountIn(times, x) <= CountFrom(times, x)
    decreases |times|
  {
    if times != [] { CountInAtMostFrom(times[..|times| - 1], x); }
  }

  // Between two fixed windows at most 2 * 60 - 1 attempts get through in any
  // interval of the window's length.
  lemma {:induction false} BoundedInAnyInterval(times: seq<int>, x: int)
    requires Nondecreasing(times)
    ensures CountIn(times, x) <= 2 * VERIFY_MAX_ATTEMPTS - 1
    decreases |times|
  {
    if times != [] {
      BoundedInAnyInterval(times[..|times| - 1], x);
      WindowHolds(times, x);
      CountInAtMostFrom(times, x);
    }
  }

  lemma {:induction false} TimesAreOrdered(requests: seq<Request>, source: string)
    requires Ordered(requests)
    ensures Nondecreasing(TimesOf(requests, source))
    ensures forall i :: 0 <= i < |TimesOf(requests, source)| ==> requests != [] && TimesOf(requests, source)[i] <= requests[|requests| - 1].time
    decreases |requests|
  {
    if requests != [] { TimesAreOrdered(requests[..|requests| - 1], source); }
  }

  // Admitted requests of a source in an interval, over the shared table.
  function AdmittedIn(requests: seq<Request>, source: string, x: int): nat
    decreases |requests|
  {
    if requests == [] then 0 else
    var r := requests[|requests| - 1];
    AdmittedIn(requests[..|requests| - 1], source, x)
      + if r.source == source && x <= r.time < x + VERIFY_WINDOW_MS && Admitted(Decision(requests)) then 1 else 0
  }

  lemma {:induction false} SharedIsSolo(requests: seq<Request>, source: string, x: int)
    requires Ordered(requests)
    ensures AdmittedIn(requests, source, x) == CountIn(TimesOf(requests, source), x)
    decreases |requests|
  {
    if requests != [] {
      var before, r := requests[..|requests| - 1], requests[|requests| - 1];
      SharedIsSolo(before, source, x);
      if r.source == source {
        CleanupChangesNothing(requests);
        assert TimesOf(requests, source)[..|TimesOf(before, source)|] == TimesOf(before, source);
      } else {
        assert TimesOf(requests, source) == TimesOf(before, source);
      }
    }
  }

  // Whatever the other sources do.
  lemma SourceIsLimited(requests: seq<Request>, source: string, x: int)
    requires Ordered(requests)
    ensures AdmittedIn(requests, source, x) <= 2 * VERIFY_MAX_ATTEMPTS - 1
  {
    SharedIsSolo(requests, source, x);
    TimesAreOrdered(requests, source);
    BoundedInAnyInterval(TimesOf(requests, source), x);
  }

  /******* The bound is attained *******/

  function Repeat(t: int, n: nat): seq<int> {
    if n == 0 then [] else Repeat(t, n - 1) + [t]
  }

  // One attempt opens a window, the others come at its end, and the next
  // window starts right after them.
  function Opening(n: nat): seq<int> {
    [0] + Repeat(VERIFY_WINDOW_MS - 1, n)
  }

  function Burst(n: nat): seq<int> {
    Opening(VERIFY_MAX_ATTEMPTS - 1) + Repeat(VERIFY_WINDOW_MS, n)
  }

  lemma Appended(times: seq<int>, t: int, x: int)
    ensures var slot := Attempt(Solo(times), t);
      && Solo(times + [t]) == Some(slot)
      && CountIn(times + [t], x) == CountIn(times, x) + if x <= t < x + VERIFY_WINDOW_MS && Admitted(slot) then 1 else 0
    ensures Nondecreasing(times) && (times != [] ==> times[|times| - 1] <= t) ==> Nondecreasing(times + [t])
  {
    assert (times + [t])[..|times|] == times;
  }

  lemma OneMoreOpening(n: nat)
    ensures if n == 0 then Opening(n) == [] + [0] else Opening(n) == Opening(n - 1) + [VERIFY_WINDOW_MS - 1]
  {
  }

  lemma {:induction false} FirstWindow(n: nat)
    requires n < VERIFY_MAX_ATTEMPTS
    ensures Solo(Opening(n)) == Some(Slot(n + 1, VERIFY_WINDOW_MS)) && CountIn(Opening(n), VERIFY_WINDOW_MS - 1) == n
    ensures Nondecreasing(Opening(n)) && Opening(n) != [] && Opening(n)[|Opening(n)| - 1] < VERIFY_WINDOW_MS
    decreases n
  {
    OneMoreOpening(n);
    if n == 0 {
      hide Opening;
      Appended([], 0, VERIFY_WINDOW_MS - 1);
    } else {
      hide Solo, CountIn, Nondecreasing, Opening;
      FirstWindow(n - 1);
      Appended(Opening(n - 1), VERIFY_WINDOW_MS - 1, VERIFY_WINDOW_MS - 1);
    }
  }

  lemma OneMore(n: nat)
    ensures if n == 0 then Burst(n) == Opening(VERIFY_MAX_ATTEMPTS - 1) else Burst(n) == Burst(n - 1) + [VERIFY_WINDOW_MS]
    ensures Burst(n) != []
  {
    hide Opening;
    assert Opening(VERIFY_MAX_ATTEMPTS - 1) != [] by { OneMoreOpening(VERIFY_MAX_ATTEMPTS - 1); }
  }

  lemma {:induction false} BothWindows(n: nat)
    requires n <= VERIFY_MAX_ATTEMPTS
    ensures CountIn(Burst(n), VERIFY_WINDOW_MS - 1) == VERIFY_MAX_ATTEMPTS - 1 + n
    ensures Solo(Burst(n)) == if n == 0 then Some(Slot(VERIFY_MAX_ATTEMPTS, VERIFY_WINDOW_MS)) else Some(Slot(n, 2 * VERIFY_WINDOW_MS))
    ensures Nondecreasing(Burst(n)) && Burst(n) != [] && Burst(n)[|Burst(n)| - 1] <= VERIFY_WINDOW_MS
    decreases n
  {
    hide Solo, CountIn, Nondecreasing, Burst;
    OneMore(n);
    if n == 0 {
      FirstWindow(VERIFY_MAX_ATTEMPTS - 1);
    } else {
      BothWindows(n - 1);
      Appended(Burst(n - 1), VERIFY_WINDOW_MS, VERIFY_WINDOW_MS - 1);
    }
  }

  // The requests of one source at the given times.
  function RequestsOf(source: string, times: seq<int>): (requests: seq<Request>)
    ensures |requests| == |times| && forall i :: 0 <= i < |times| ==> requests[i] == Request(source, times[i])
  {
    seq(|times|, i requires 0 <= i < |times| => Request(source, times[i]))
  }

  // For one source alone the table is its row, whatever the clock does.
  lemma {:induction false} OneSource(source: string, times: seq<int>, x: int)
    ensures Lookup(Table(RequestsOf(source, times)), source) == Solo(times)
    ensures AdmittedIn(RequestsOf(source, times), source, x) == CountIn(times, x)
    decreases |times|
  {
    var requests := RequestsOf(source, times);
    if times != [] {
      var before := times[..|times| - 1];
      OneSource(source, before, x);
      assert requests[..|requests| - 1] == RequestsOf(source, before);
      RecordedRow(Table(RequestsOf(source, before)), Request(source, times[|times| - 1]));
      hide Recorded, Attempt;
      assert Decision(requests) == Solo(times).value;
    }
  }

  lemma BoundIsExact(source: string)
    ensures exists requests, x :: Ordered(requests) && AdmittedIn(requests, source, x) == 2 * VERIFY_MAX_ATTEMPTS - 1
  {
    hide Burst, CountIn, AdmittedIn;
    var times := Burst(VERIFY_MAX_ATTEMPTS);
    BothWindows(VERIFY_MAX_ATTEMPTS);
    OneSource(source, times, VERIFY_WINDOW_MS - 1);
    assert Ordered(RequestsOf(source, times));
  }

  /******* A clock that goes back *******/

  lemma OneMoreRepeat(times: seq<int>, t: int, n: nat)
    ensures times + Repeat(t, n) == if n == 0 then times else times + Repeat(t, n - 1) + [t]
  {
  }

  // More attempts at one time in a window that is open then.
  lemma {:induction false} Repeated(times: seq<int>, t: int, n: nat, x: int)
    requires Running(Solo(times), t) && Solo(times).value.attempts + n <= VERIFY_MAX_ATTEMPTS
    requires x <= t < x + VERIFY_WINDOW_MS
    ensures Solo(times + Repeat(t, n)) == Some(Slot(Solo(times).value.attempts + n, Solo(times).value.resetAt))
    ensures CountIn(times + Repeat(t, n), x) == CountIn(times, x) + n
    decreases n
  {
    hide Solo, CountIn, Repeat, Nondecreasing;
    OneMoreRepeat(times, t, n);
    if n > 0 {
      Repeated(times, t, n - 1, x);
      Appended(times + Repeat(t, n - 1), t, x);
    }
  }

  // Twice the clock steps on to open a window and back again.
  function Rewinds(): seq<int> {
    [0] + Repeat(0, VERIFY_MAX_ATTEMPTS - 1)
      + [VERIFY_WINDOW_MS] + Repeat(0, VERIFY_MAX_ATTEMPTS - 1)
      + [2 * VERIFY_WINDOW_MS] + Repeat(0, VERIFY_MAX_ATTEMPTS - 1)
  }

  lemma NothingCounted(x: int)
    ensures CountIn([], x) == 0 && Solo([]) == None
  {
  }

  // Then three times the limit less two get through in one window's length.
  lemma RewoundClockBreaksBound(source: string)
    ensures AdmittedIn(RequestsOf(source, Rewinds()), source, 0) == 3 * VERIFY_MAX_ATTEMPTS - 2
    ensures AdmittedIn(RequestsOf(source, Rewinds()), source, 0) > 2 * VERIFY_MAX_ATTEMPTS - 1
  {
    hide Solo, CountIn, AdmittedIn, Repeat, RequestsOf;
    var many := VERIFY_MAX_ATTEMPTS - 1;
    NothingCounted(0);
    Appended([], 0, 0);
    assert [] + [0] == [0];
    Repeated([0], 0, many, 0);
    var first := [0] + Repeat(0, many);
    Appended(first, VERIFY_WINDOW_MS, 0);
    Repeated(first + [VERIFY_WINDOW_MS], 0, many, 0);
    var second := first + [VERIFY_WINDOW_MS] + Repeat(0, many);
    Appended(second, 2 * VERIFY_WINDOW_MS, 0);
    Repeated(second + [2 * VERIFY_WINDOW_MS], 0, many, 0);
    OneSource(source, Rewinds(), 0);
  }
}
