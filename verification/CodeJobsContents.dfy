// What the codes of a job say to a reader: the product's GTIN, the batch and a
// serial for items, a valid container key with its reference for pallets.
module CodeJobsContents {
  import opened Wrappers
  import opened Gs1CheckDigit
  import opened Gs1Path
  import opened CodeJobs
  import opened CodeJobsInvariant
  import opened CodeJobsCodes
  import opened CodeJobsTheorems
  import opened CodeJobsExact

  // The serial of the index-th code, counted from 0: the number index + 1 in
  // twelve digits, or the hash of the job and that number.
  predicate SerialIs(config: Config, id: Id, job: Job, index: nat, serial: string) {
    if job.rule == Sequential then
      index < 999_999_999_999 ==> |serial| == 12 && AllDigits(serial) && ValueOf(serial) == index + 1
    else serial == config.digest(id, index + 1)
  }

  predicate SaysItem(config: Config, id: Id, job: Job, index: nat, parts: Parts) {
    && parts.Item?
    && |parts.gtin| == 14 && IsValidGtin(parts.gtin) && IsValidGtin(job.gtin) && ValueOf(parts.gtin) == ValueOf(job.gtin)
    && parts.lot == job.lot
    && SerialIs(config, id, job, index, parts.serial)
  }

  // Extension digit 0, the company prefix, and the reference that was reserved.
  predicate SaysPallet(job: Job, index: nat, parts: Parts) {
    && parts.Pallet? && job.sscc.Some?
    && var prefix := job.sscc.value.prefix;
    && |prefix| <= 12 && IsValidSscc(parts.sscc)
    && |parts.sscc| == 18 && IsDigit(parts.sscc[0]) && DigitOf(parts.sscc[0]) == 0
    && parts.sscc[1..1 + |prefix|] == prefix
    && AllDigits(parts.sscc[1 + |prefix|..17])
    && ValueOf(parts.sscc[1 + |prefix|..17]) == job.sscc.value.start + index
  }

  predicate Says(config: Config, id: Id, job: Job, index: nat, code: string) {
    var parts := ReadCode(config.base, code);
    && parts.Some?
    && if job.scheme == Sscc then SaysPallet(job, index, parts.value) else SaysItem(config, id, job, index, parts.value)
  }

  lemma SerialSays(config: Config, id: Id, job: Job, index: nat)
    ensures SerialIs(config, id, job, index, SerialAt(config, id, job.rule, index))
  {
    hide ToString, ValueOf, Pow10;
    if job.rule == Sequential && index < 999_999_999_999 {
      TwelvePlaces();
      DecimalLength(index + 1, 12);
      PaddedNumber(index + 1, 12);
    }
  }

  lemma TwelvePlaces()
    ensures Pow10(12) == 1_000_000_000_000
  {
    assert Pow10(6) == 1_000_000;
    Pow10Adds(6, 6);
  }

  // Every code that can be built.
  lemma CodeSays(config: Config, id: Id, job: Job, index: nat)
    requires CodeAt(config, id, job, index).Success?
    ensures Says(config, id, job, index, CodeAt(config, id, job, index).value)
  {
    hide ReadCode, ItemCode, IsValidGs1X, IsValidGtin, IsValidSscc, ValueOf, PalletCode, SerialIs, BuildSscc, GtinForDigitalLink;
    if job.scheme == Sscc {
      var sscc := BuildSscc(job.sscc.value.prefix, EXTENSION, job.sscc.value.start + index).value;
      PalletRoundTrip(config.base, sscc);
      PalletSays(config, job, index);
    } else {
      var gtin := GtinForDigitalLink(job.gtin).value;
      LinkGtinIsSameNumber(job.gtin);
      CodeRoundTrip(config.base, gtin, job.lot, SerialAt(config, id, job.rule, index));
      SerialSays(config, id, job, index);
    }
  }

  lemma SeriesSays(config: Config, id: Id, job: Job, index: nat, n: nat)
    ensures var codes := CodesFrom(config, id, job, index, n);
      codes.Success? ==> |codes.value| == n && forall g :: 0 <= g < n ==> Says(config, id, job, index + g, codes.value[g])
  {
    hide CodeAt, Says, CodesFrom;
    CodesFromEach(config, id, job, index, n);
    var codes := CodesFrom(config, id, job, index, n);
    if codes.Success? {
      forall g | 0 <= g < n ensures Says(config, id, job, index + g, codes.value[g]) {
        CodeSays(config, id, job, index + g);
      }
    }
  }

  lemma PalletSays(config: Config, job: Job, index: nat)
    requires job.sscc.Some? && BuildSscc(job.sscc.value.prefix, EXTENSION, job.sscc.value.start + index).Success?
    ensures SaysPallet(job, index, Pallet(BuildSscc(job.sscc.value.prefix, EXTENSION, job.sscc.value.start + index).value))
  {
    hide BuildSscc, IsValidSscc, ValueOf, ToString, Pow10, PadStart;
    var prefix, reference := job.sscc.value.prefix, job.sscc.value.start + index;
    var sscc := BuildSscc(prefix, EXTENSION, reference).value;
    BuiltSsccIsValid(prefix, EXTENSION, reference);
    BuiltSsccParts(prefix, EXTENSION, reference);
    SsccAccepted(prefix, EXTENSION, reference);
    PaddedNumber(reference, 16 - |prefix|);
  }

  // The codes of a fit job, at every index it can have.
  lemma FitJobSays(config: Config, t: Tenant, id: Id, index: nat)
    requires Inv(t) && Fit(t, id) && index < t.jobs[id].quantity
    ensures CodeAt(config, id, t.jobs[id], index).Success?
    ensures Says(config, id, t.jobs[id], index, CodeAt(config, id, t.jobs[id], index).value)
  {
    hide Inv, Unfit, CodeAt, Says;
    FitJobHasCodes(config, t, id, index);
    CodeSays(config, id, t.jobs[id], index);
  }

  // In every run, whatever happened to the job since: a row that a job made
  // says what the job was ordered for, at one of its indices.
  lemma RowsSay(config: Config, commands: seq<Command>, id: Id, code: string)
    requires var t := Run(config, EMPTY, commands); code in t.rows && t.rows[code] == Made(id)
    ensures var t := Run(config, EMPTY, commands);
      id in t.jobs && exists k :: 0 <= k < t.jobs[id].quantity && Says(config, id, t.jobs[id], k, code)
  {
    hide Run, Inv, CodeAt, Says;
    var t := Run(config, EMPTY, commands);
    EmptyInv();
    RunKeeps(config, EMPTY, commands);
    RowIsIssued(t, code);
    RunIsCoded(config, commands, id);
    assert IndexOf(config, id, t.jobs[id], code);
    var k :| 0 <= k < t.jobs[id].quantity && CodeAt(config, id, t.jobs[id], k) == Success(code);
    CodeSays(config, id, t.jobs[id], k);
  }
}
