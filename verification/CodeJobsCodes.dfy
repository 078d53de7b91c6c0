// Which codes a job forms and when two of them are equal.
module CodeJobsCodes {
  import opened Wrappers
  import opened Gs1CheckDigit
  import opened Gs1Path
  import opened CodeJobs
  import opened CodeJobsInvariant

  // Over the indices a job can have, the hash cut to twenty characters tells
  // the given jobs and their indices apart.
  ghost predicate Hash(config: Config, ids: set<Id>) {
    && (forall i, n {:trigger config.digest(i, n)} :: i in ids && 1 <= n <= MAX_QUANTITY ==> |config.digest(i, n)| == 20)
    && (forall i, n, j, m {:trigger config.digest(i, n), config.digest(j, m)} ::
          (i in ids && j in ids && 1 <= n <= MAX_QUANTITY && 1 <= m <= MAX_QUANTITY
           && config.digest(i, n) == config.digest(j, m)) ==> i == j && n == m)
  }

  lemma HashOfFewer(config: Config, ids: set<Id>, fewer: set<Id>)
    requires Hash(config, ids) && fewer <= ids
    ensures Hash(config, fewer)
  {
  }

  function Numbered(i: Id, n: nat): string {
    PadStart(ToString(i * 10_000_000 + n), 20)
  }

  lemma NumberedApart(i: Id, n: nat, j: Id, m: nat)
    requires n <= MAX_QUANTITY && m <= MAX_QUANTITY && Numbered(i, n) == Numbered(j, m)
    ensures i == j && n == m
  {
    hide PadStart, ToString, ValueOf;
    PaddedNumber(i * 10_000_000 + n, 20);
    PaddedNumber(j * 10_000_000 + m, 20);
  }

  lemma NumberedLength(i: Id, n: nat)
    requires i < 10_000_000_000_000 && n <= MAX_QUANTITY
    ensures |Numbered(i, n)| == 20
  {
    hide ToString, Pow10;
    DecimalLength(i * 10_000_000 + n, 20);
    TenDigits();
    Pow10Adds(10, 10);
  }

  lemma TenDigits()
    ensures Pow10(10) == 10_000_000_000
  {
  }

  // There are such hashes: numbering the pairs in decimal serves ten million
  // million jobs.
  lemma HashExists(base: string, ids: set<Id>)
    requires forall i :: i in ids ==> i < 10_000_000_000_000
    ensures exists config: Config :: config.base == base && Hash(config, ids)
  {
    hide Numbered;
    var config := Config(base, Numbered);
    forall i, n | i in ids && 1 <= n <= MAX_QUANTITY ensures |config.digest(i, n)| == 20 {
      NumberedLength(i, n);
    }
    forall i, n, j, m | i in ids && j in ids && 1 <= n <= MAX_QUANTITY && 1 <= m <= MAX_QUANTITY
                        && config.digest(i, n) == config.digest(j, m)
      ensures i == j && n == m
    {
      NumberedApart(i, n, j, m);
    }
    assert Hash(config, ids);
  }

  lemma {:induction false} Pow10Adds(m: nat, n: nat)
    ensures Pow10(m + n) == Pow10(m) * Pow10(n)
    decreases m
  {
    if m > 0 {
      Pow10Adds(m - 1, n);
      TenTimes(Pow10(m - 1), Pow10(n));
    }
  }

  lemma TenTimes(x: nat, y: nat)
    ensures 10 * (x * y) == (10 * x) * y
  {
  }

  // Two jobs that would write the same serials: SEQUENTIAL numbering starts
  // at 1 for every job of a GTIN and batch.
  predicate SameSeries(a: Job, b: Job) {
    && a.scheme != Sscc && b.scheme != Sscc
    && a.rule == Sequential && b.rule == Sequential
    && SameGtin(a.gtin, b.gtin)
    && a.lot == b.lot
  }

  // In every reachable state the codes of a fit job can be formed: the builder
  // of container codes never raises.
  lemma FitJobHasCodes(config: Config, t: Tenant, id: Id, index: nat)
    requires Inv(t) && id in t.jobs && Runnable(t.jobs[id]) && !Unfit(t.jobs[id]) && index < t.jobs[id].quantity
    ensures CodeAt(config, id, t.jobs[id], index).Success?
  {
    hide Inv, Pow10, IsValidGs1X, IsNumber, EncodePathComponent;
    InvOfJob(t, id);
    var job := t.jobs[id];
    if job.scheme != Sscc {
      PaddedGtinIsValid(job.gtin);
      CodeRoundTrip(config.base, PadStart(job.gtin, 14), job.lot, SerialAt(config, id, job.rule, index));
    }
  }

  lemma {:induction false} CodesFromEach(config: Config, id: Id, job: Job, index: nat, n: nat)
    ensures CodesFrom(config, id, job, index, n).Success? <==>
      forall k :: index <= k < index + n ==> CodeAt(config, id, job, k).Success?
    ensures CodesFrom(config, id, job, index, n).Success? ==>
      && |CodesFrom(config, id, job, index, n).value| == n
      && forall k :: 0 <= k < n ==> CodeAt(config, id, job, index + k) == Success(CodesFrom(config, id, job, index, n).value[k])
    decreases n
  {
    hide CodeAt;
    if n > 0 {
      CodesFromEach(config, id, job, index, n - 1);
      assert CodesFrom(config, id, job, index, n).Success? ==> CodeAt(config, id, job, index + (n - 1)).Success?;
    }
  }

  lemma SerialsDiffer(config: Config, a: Id, ruleA: SerialRule, i: nat, b: Id, ruleB: SerialRule, k: nat)
    requires Hash(config, {a, b}) && i < MAX_QUANTITY && k < MAX_QUANTITY
    requires SerialAt(config, a, ruleA, i) == SerialAt(config, b, ruleB, k)
    ensures ruleA == ruleB && i == k && (ruleA == Random ==> a == b)
  {
    hide ToString, Pow10;
    TwelveDigits();
    DecimalLength(i + 1, 12);
    DecimalLength(k + 1, 12);
    if ruleA == Sequential && ruleB == Sequential {
      SequentialSerialsDiffer(i + 1, k + 1);
    }
  }

  lemma TwelveDigits()
    ensures MAX_QUANTITY < Pow10(12)
  {
    assert Pow10(6) == 1_000_000;
    Pow10Adds(6, 6);
  }

  // Different indices of one job, and any indices of two jobs whose reserved
  // references are apart and which are not in one series, have different codes.
  lemma CodesDiffer(config: Config, a: Id, x: Job, i: nat, b: Id, y: Job, k: nat)
    requires Hash(config, {a, b}) && i < MAX_QUANTITY && k < MAX_QUANTITY
    requires i < x.quantity && k < y.quantity
    requires CodeAt(config, a, x, i).Success? && CodeAt(config, b, y, k) == CodeAt(config, a, x, i)
    requires x.sscc.Some? && y.sscc.Some? ==> x.sscc.value.prefix == y.sscc.value.prefix
    requires a == b ==> x == y
    requires a != b ==> Apart(x, y)
    ensures if a == b then i == k else SameSeries(x, y) && i == k
  {
    hide BuildSscc, ItemCode, SequentialSerial, GtinForDigitalLink, PalletCode;
    if x.sscc.Some? && x.scheme == Sscc && y.scheme == Sscc {
      PalletRoundTrip(config.base, BuildSscc(x.sscc.value.prefix, EXTENSION, x.sscc.value.start + i).value);
      PalletRoundTrip(config.base, BuildSscc(y.sscc.value.prefix, EXTENSION, y.sscc.value.start + k).value);
      SsccIsInjective(x.sscc.value.prefix, EXTENSION, x.sscc.value.start + i,
                      y.sscc.value.prefix, EXTENSION, y.sscc.value.start + k);
    } else {
      ItemCodesDiffer(config, a, x, i, b, y, k);
    }
  }

  lemma ItemCodesDiffer(config: Config, a: Id, x: Job, i: nat, b: Id, y: Job, k: nat)
    requires Hash(config, {a, b}) && i < MAX_QUANTITY && k < MAX_QUANTITY
    requires CodeAt(config, a, x, i).Success? && CodeAt(config, b, y, k) == CodeAt(config, a, x, i)
    requires x.scheme != Sscc || y.scheme != Sscc
    ensures x.scheme != Sscc && y.scheme != Sscc
    ensures i == k && (a == b || SameSeries(x, y))
  {
    hide BuildSscc, ItemCode, SequentialSerial, IsValidGtin, PadStart;
    var s, u := SerialAt(config, a, x.rule, i), SerialAt(config, b, y.rule, k);
    if x.scheme == Sscc {
      NotPallet(config.base, y, u, BuildSscc(x.sscc.value.prefix, EXTENSION, x.sscc.value.start + i).value);
    } else if y.scheme == Sscc {
      NotPallet(config.base, x, s, BuildSscc(y.sscc.value.prefix, EXTENSION, y.sscc.value.start + k).value);
    } else {
      PaddedGtinIsValid(x.gtin);
      PaddedGtinIsValid(y.gtin);
      CodesAreDistinct(config.base, PadStart(x.gtin, 14), x.lot, s, PadStart(y.gtin, 14), y.lot, u, "");
      SerialsDiffer(config, a, x.rule, i, b, y.rule, k);
    }
  }

  lemma NotPallet(base: string, job: Job, serial: string, sscc: string)
    requires GtinForDigitalLink(job.gtin).Success?
    requires ItemCode(base, GtinForDigitalLink(job.gtin).value, job.lot, serial).Success?
    ensures ItemCode(base, GtinForDigitalLink(job.gtin).value, job.lot, serial).value != PalletCode(base, sscc)
  {
    hide ItemCode, PalletCode;
    PaddedGtinIsValid(job.gtin);
    var gtin := PadStart(job.gtin, 14);
    CodesAreDistinct(base, gtin, job.lot, serial, gtin, job.lot, serial, sscc);
  }
}
