// Code generation jobs of one tenant: approval reserves SSCC references,
// workers take a job under a row lock and emit its codes in chunks, and rows
// whose code exists already are skipped without an error.
//
// Every command is one transaction, except that taking a job and committing
// its chunk are two steps: other transactions run in between.
module CodeJobs {
  import opened Wrappers
  import opened Gs1CheckDigit
  import opened Gs1Path
  import opened Numbers

  type Id = nat

  const CHUNK: nat := 10_000
  const MAX_QUANTITY: nat := 1_000_000
  const EXTENSION: nat := 0

  // The base URL without its trailing slash, and the twenty characters of the
  // hash of a job and an index. The hash is a parameter of the model.
  datatype Config = Config(base: string, digest: (Id, nat) -> string)

  datatype Scheme = Sgtin | Sscc | Legacy
  datatype SerialRule = Random | Sequential
  datatype JobStatus = PendingApproval | Queued | Running | Completed | Failed | Cancelled
  datatype Allocation = Allocation(prefix: string, start: nat)

  // issued lists the codes of the job's rows in the order they were inserted;
  // lot "" is a job without a batch.
  datatype Job = Job(scheme: Scheme, gtin: string, lot: string, rule: SerialRule, quantity: nat, generated: nat,
                     status: JobStatus, sscc: Option<Allocation>, issued: seq<string>)

  datatype Owner = Made(job: Id) | Foreign
  datatype Taken = Taken(id: Id, job: Job)

  // rows: the serialized objects by code; taken: the jobs locked by a worker
  // with what the worker read.
  datatype Tenant = Tenant(jobs: map<Id, Job>, rows: map<string, Owner>, taken: map<Id, Taken>,
                           prefix: Option<string>, next: nat)

  const EMPTY: Tenant := Tenant(map[], map[], map[], None, 0)

  datatype Command =
    | Create(id: Id, scheme: Scheme, gtin: string, lot: string, rule: SerialRule, quantity: nat)
    | SetPrefix(companyPrefix: string)
    | Approve(id: Id)
    | Take(worker: Id, id: Id)
    | Commit(worker: Id)
    | Abort(worker: Id)
    | Cancel(id: Id)
    | Retry(id: Id)
    | Insert(code: string) // another part of the service adds a code of its own

  /******* Codes *******/

  // The code at an index, counted from 0.
  function CodeAt(config: Config, id: Id, job: Job, index: nat): Result<string, Gs1Error> {
    if job.scheme == Sscc then
      if job.sscc.None? then Failure(InvalidInput) else
      var sscc := BuildSscc(job.sscc.value.prefix, EXTENSION, job.sscc.value.start + index);
      if sscc.Failure? then Failure(InvalidInput) else Success(PalletCode(config.base, sscc.value))
    else
      var gtin := GtinForDigitalLink(job.gtin);
      if gtin.Failure? then Failure(InvalidInput)
      else ItemCode(config.base, gtin.value, job.lot, SerialAt(config, id, job.rule, index))
  }

  function SerialAt(config: Config, id: Id, rule: SerialRule, index: nat): string {
    if rule == Sequential then SequentialSerial(index + 1) else config.digest(id, index + 1)
  }

  // The first n codes from an index on; a failing one makes the statement fail.
  function CodesFrom(config: Config, id: Id, job: Job, index: nat, n: nat): Result<seq<string>, Gs1Error> {
    if n == 0 then Success([]) else
    var before := CodesFrom(config, id, job, index, n - 1);
    var last := CodeAt(config, id, job, index + n - 1);
    if before.Failure? || last.Failure? then Failure(InvalidInput) else Success(before.value + [last.value])
  }

  /******* Transactions *******/

  predicate Runnable(job: Job) {
    job.status == Queued || job.status == Running
  }

  predicate Locked(t: Tenant, id: Id) {
    exists w :: w in t.taken && t.taken[w].id == id
  }

  // The reason a job is failed instead of run.
  predicate Unfit(job: Job) {
    || job.scheme == Legacy
    || (job.lot != "" && !IsValidGs1X(job.lot, 20))
    || (job.scheme == Sscc && job.sscc.None?)
    || (job.scheme != Sscc && !IsValidGtin(job.gtin))
  }

  function Chunk(job: Job): nat {
    if job.generated < job.quantity then Min(job.quantity - job.generated, CHUNK) else 0
  }

  // ON CONFLICT DO NOTHING: the codes that get a row, in order.
  function Inserted(rows: map<string, Owner>, codes: seq<string>): (r: seq<string>)
    ensures |r| <= |codes|
    decreases |codes|
  {
    if codes == [] then [] else
    var before := Inserted(rows, codes[..|codes| - 1]);
    var code := codes[|codes| - 1];
    if code in rows || code in before then before else before + [code]
  }

  function WithRows(rows: map<string, Owner>, codes: seq<string>, id: Id): map<string, Owner> {
    map c | c in rows.Keys + (set x | x in codes) :: if c in codes then Made(id) else rows[c]
  }

  function Advanced(job: Job, inserted: seq<string>): Job {
    var generated := job.generated + |inserted|;
    job.(generated := generated, status := if generated >= job.quantity then Completed else Running,
         issued := job.issued + inserted)
  }

  // The end of the transaction that took a job, from what it read at the start.
  function RunChunk(config: Config, t: Tenant, worker: Id): Tenant
    requires worker in t.taken
  {
    var id, job := t.taken[worker].id, t.taken[worker].job;
    var released := t.(taken := t.taken - {worker});
    if Unfit(job) then released.(jobs := t.jobs[id := job.(status := Failed)]) else
    var codes := CodesFrom(config, id, job, job.generated, Chunk(job));
    if codes.Failure? then released else
    var inserted := Inserted(t.rows, codes.value);
    released.(rows := WithRows(t.rows, inserted, id), jobs := t.jobs[id := Advanced(job, inserted)])
  }

  function DoApprove(t: Tenant, id: Id): Tenant
    requires id in t.jobs
  {
    var job := t.jobs[id];
    if job.status != PendingApproval || job.scheme == Legacy then t else
    if job.scheme == Sgtin then t.(jobs := t.jobs[id := job.(status := Queued)]) else
    if t.prefix.None? then t else
    var capacity := SsccCapacity(t.prefix.value);
    var end := t.next + job.quantity;
    if capacity.Failure? || end > capacity.value then t else
    t.(next := end,
       jobs := t.jobs[id := job.(status := Queued, sscc := Some(Allocation(t.prefix.value, t.next)))])
  }

  predicate Enabled(t: Tenant, c: Command) {
    match c
    case Create(id, _, _, lot, _, quantity) =>
      id !in t.jobs && 0 < quantity <= MAX_QUANTITY && (lot == "" || IsValidGs1X(lot, 20))
    case SetPrefix(p) =>
      IsNumber(p) && 4 <= |p| <= 12 && (t.next > 0 && t.prefix.Some? ==> t.prefix == Some(p))
    case Approve(id) => id in t.jobs
    case Take(w, id) =>
      && w !in t.taken && id in t.jobs && Runnable(t.jobs[id]) && !Locked(t, id)
      && forall k :: k in t.jobs && k < id && Runnable(t.jobs[k]) ==> Locked(t, k)
    case Commit(w) => w in t.taken
    case Abort(w) => w in t.taken
    case Cancel(id) => id in t.jobs && !Locked(t, id) && (t.jobs[id].status == PendingApproval || Runnable(t.jobs[id]))
    case Retry(id) => id in t.jobs && t.jobs[id].status == Failed
    case Insert(code) => code !in t.rows
  }

  // A refused command leaves everything as it is.
  function Step(config: Config, t: Tenant, c: Command): Tenant {
    if !Enabled(t, c) then t else
    match c
    case Create(id, scheme, gtin, lot, rule, quantity) =>
      t.(jobs := t.jobs[id := Job(scheme, gtin, lot, rule, quantity, 0, PendingApproval, None, [])])
    case SetPrefix(p) => t.(prefix := Some(p))
    case Approve(id) => DoApprove(t, id)
    case Take(w, id) => t.(taken := t.taken[w := Taken(id, t.jobs[id])])
    case Commit(w) => RunChunk(config, t, w)
    case Abort(w) => t.(taken := t.taken - {w})
    case Cancel(id) => t.(jobs := t.jobs[id := t.jobs[id].(status := Cancelled)])
    case Retry(id) => t.(jobs := t.jobs[id := t.jobs[id].(status := Queued)])
    case Insert(code) => t.(rows := t.rows[code := Foreign])
  }

  function Run(config: Config, t: Tenant, commands: seq<Command>): Tenant
    decreases |commands|
  {
    if commands == [] then t
    else Step(config, Run(config, t, commands[..|commands| - 1]), commands[|commands| - 1])
  }

  /******* The invariant *******/

  // Counting: the rows of a job are its issued codes, as many as generated.
  predicate Counted(t: Tenant, id: Id)
    requires id in t.jobs
  {
    var job := t.jobs[id];
    && 0 < job.quantity <= MAX_QUANTITY
    && |job.issued| == job.generated <= job.quantity
    && (job.status == Completed <==> job.generated == job.quantity)
    && (job.status == PendingApproval ==> job.generated == 0 && job.sscc.None?)
    && (forall k :: 0 <= k < |job.issued| ==> job.issued[k] in t.rows && t.rows[job.issued[k]] == Made(id))
    && (forall k, l :: 0 <= k < l < |job.issued| ==> job.issued[k] != job.issued[l])
  }

  // Reservation: an approved pallet job holds references below the counter
  // and within the capacity of the tenant's prefix.
  predicate Reserved(t: Tenant, id: Id)
    requires id in t.jobs
  {
    var job := t.jobs[id];
    && (job.sscc.Some? ==>
          && job.scheme == Sscc
          && t.prefix == Some(job.sscc.value.prefix)
          && job.sscc.value.start + job.quantity <= t.next)
    && (job.scheme == Sscc && job.status != PendingApproval && job.status != Cancelled ==> job.sscc.Some?)
  }

  predicate Apart(a: Job, b: Job) {
    a.sscc.Some? && b.sscc.Some? ==>
      || a.sscc.value.start + a.quantity <= b.sscc.value.start
      || b.sscc.value.start + b.quantity <= a.sscc.value.start
  }

  predicate RowOwned(t: Tenant, code: string)
    requires code in t.rows
  {
    t.rows[code].Made? ==> t.rows[code].job in t.jobs && code in t.jobs[t.rows[code].job].issued
  }

  // A locked job is still what the worker read.
  predicate Held(t: Tenant, w: Id)
    requires w in t.taken
  {
    && t.taken[w].id in t.jobs
    && t.jobs[t.taken[w].id] == t.taken[w].job
    && Runnable(t.taken[w].job)
  }

  predicate PrefixOk(t: Tenant) {
    && (t.next > 0 ==> t.prefix.Some?)
    && (t.prefix.Some? ==>
          && IsNumber(t.prefix.value) && 4 <= |t.prefix.value| <= 12
          && t.next <= Pow10(16 - |t.prefix.value|))
  }

  ghost predicate Inv(t: Tenant) {
    && PrefixOk(t)
    && (forall id {:trigger Counted(t, id)} :: id in t.jobs ==> Counted(t, id))
    && (forall id {:trigger Reserved(t, id)} :: id in t.jobs ==> Reserved(t, id))
    && (forall a, b {:trigger Apart(t.jobs[a], t.jobs[b])} :: a in t.jobs && b in t.jobs && a != b ==> Apart(t.jobs[a], t.jobs[b]))
    && (forall code {:trigger RowOwned(t, code)} :: code in t.rows ==> RowOwned(t, code))
    && (forall w {:trigger Held(t, w)} :: w in t.taken ==> Held(t, w))
    && (forall w, v {:trigger t.taken[w], t.taken[v]} :: w in t.taken && v in t.taken && w != v ==> t.taken[w].id != t.taken[v].id)
  }
}
