// Idempotent commands: a transaction locks its key, looks for a stored
// response, otherwise does the work, stores the response and commits. Any
// number of transactions run interleaved; each step is one statement.
//
// now() in a statement is the time its transaction began.
module Idempotency {
  import opened Wrappers

  type Id = nat

  datatype Key = Key(tenant: string, key: string)
  datatype Record = Record(hash: string, body: string, expiresAt: nat)

  datatype Phase =
    | Waiting                               // for the advisory lock
    | Locked
    | Found(body: string)                   // a stored response with the same hash
    | Refused                               // a stored response with another hash
    | Absent                                // nothing stored that has not expired
    | Worked(body: string, kept: string)    // the work is done, not yet committed
    | Stored(body: string, kept: string)    // the record is inserted, not yet committed
    | Broken                                // a statement failed

  datatype Txn = Txn(key: Key, hash: string, startedAt: nat, phase: Phase)

  // How a request was answered, and the work that was committed for it.
  datatype Reply = Fresh(hash: string, body: string) | Replayed(hash: string, body: string) | Conflict(hash: string)
  datatype Effect = Effect(hash: string, body: string, kept: string)

  datatype State = State(records: map<Key, Record>, locks: map<Key, Id>, txns: map<Id, Txn>, now: nat,
                         effects: map<Key, seq<Effect>>, replies: map<Key, seq<Reply>>)

  const EMPTY: State := State(map[], map[], map[], 0, map[], map[])
  const LIFETIME: nat := 24 * 3600

  datatype Event =
    | Begin(x: Id, key: Key, hash: string)
    | Lock(x: Id)
    | Lookup(x: Id)
    | Work(x: Id, body: string, kept: string) // kept is what later retries may see
    | Save(x: Id)
    | Commit(x: Id)
    | Abort(x: Id) // an error anywhere, a lost connection, a stopped process
    | Tick(seconds: nat)

  function Of<T>(history: map<Key, seq<T>>, key: Key): seq<T> {
    if key in history then history[key] else []
  }

  predicate Holds(s: State, x: Id) {
    x in s.txns && s.txns[x].key in s.locks && s.locks[s.txns[x].key] == x
  }

  predicate Enabled(s: State, e: Event) {
    match e
    case Begin(x, _, _) => x !in s.txns
    case Lock(x) => x in s.txns && s.txns[x].phase.Waiting? && s.txns[x].key !in s.locks
    case Lookup(x) => x in s.txns && s.txns[x].phase.Locked?
    case Work(x, _, _) => x in s.txns && s.txns[x].phase.Absent?
    case Save(x) => x in s.txns && s.txns[x].phase.Worked?
    case Commit(x) => x in s.txns && (s.txns[x].phase.Found? || s.txns[x].phase.Stored?)
    case Abort(x) => x in s.txns
    case Tick(_) => true
  }

  function Live(s: State, txn: Txn): Option<Record> {
    if txn.key in s.records && s.records[txn.key].expiresAt > txn.startedAt then Some(s.records[txn.key]) else None
  }

  function WithPhase(s: State, x: Id, phase: Phase): State
    requires x in s.txns
  {
    s.(txns := s.txns[x := s.txns[x].(phase := phase)])
  }

  // The end of a transaction, which frees its lock.
  function Ended(s: State, x: Id): State
    requires x in s.txns
  {
    s.(txns := s.txns - {x}, locks := if Holds(s, x) then s.locks - {s.txns[x].key} else s.locks)
  }

  function Answered(s: State, key: Key, reply: Reply): State {
    s.(replies := s.replies[key := Of(s.replies, key) + [reply]])
  }

  function Step(s: State, e: Event): State {
    if !Enabled(s, e) then s else
    match e
    case Begin(x, key, hash) => s.(txns := s.txns[x := Txn(key, hash, s.now, Waiting)])
    case Lock(x) => WithPhase(s.(locks := s.locks[s.txns[x].key := x]), x, Locked)
    case Lookup(x) =>
      var found := Live(s, s.txns[x]);
      WithPhase(s, x, if found.None? then Absent
                      else if found.value.hash != s.txns[x].hash then Refused
                      else Found(found.value.body))
    case Work(x, body, kept) => WithPhase(s, x, Worked(body, kept))
    case Save(x) =>
      // the primary key does not look at expires_at
      if s.txns[x].key in s.records then WithPhase(s, x, Broken)
      else WithPhase(s, x, Stored(s.txns[x].phase.body, s.txns[x].phase.kept))
    case Commit(x) =>
      var txn := s.txns[x];
      if txn.phase.Found? then Answered(Ended(s, x), txn.key, Replayed(txn.hash, txn.phase.body))
      else
        Answered(Ended(s, x), txn.key, Fresh(txn.hash, txn.phase.body))
          .(records := s.records[txn.key := Record(txn.hash, txn.phase.kept, txn.startedAt + LIFETIME)],
            effects := s.effects[txn.key := Of(s.effects, txn.key) + [Effect(txn.hash, txn.phase.body, txn.phase.kept)]])
    case Abort(x) =>
      if s.txns[x].phase.Refused? then Answered(Ended(s, x), s.txns[x].key, Conflict(s.txns[x].hash)) else Ended(s, x)
    case Tick(seconds) => s.(now := s.now + seconds)
  }

  function Run(s: State, events: seq<Event>): State
    decreases |events|
  {
    if events == [] then s else Step(Run(s, events[..|events| - 1]), events[|events| - 1])
  }

  /******* The invariant *******/

  // What a reply must be, once the one effect of its key is known.
  predicate ReplyOk(reply: Reply, effect: Effect) {
    match reply
    case Fresh(_, _) => false
    case Replayed(hash, body) => hash == effect.hash && body == effect.kept
    case Conflict(hash) => hash != effect.hash
  }

  // A key without a record has had no effect and no answer. A key with one has
  // had exactly one effect, whose caller got its own answer first; every other
  // caller got the kept answer or, with another request, a refusal.
  predicate KeyOk(s: State, key: Key) {
    var effects, replies := Of(s.effects, key), Of(s.replies, key);
    if key !in s.records then effects == [] && replies == []
    else
      && |effects| == 1 && |replies| > 0
      && s.records[key].hash == effects[0].hash && s.records[key].body == effects[0].kept
      && replies[0] == Fresh(effects[0].hash, effects[0].body)
      && forall j :: 1 <= j < |replies| ==> ReplyOk(replies[j], effects[0])
  }

  predicate TxnOk(s: State, x: Id)
    requires x in s.txns
  {
    var txn := s.txns[x];
    && (!txn.phase.Waiting? ==> Holds(s, x))
    && match txn.phase
       case Found(body) => txn.key in s.records && s.records[txn.key].hash == txn.hash && s.records[txn.key].body == body
       case Refused => txn.key in s.records && s.records[txn.key].hash != txn.hash
       case Absent => Live(s, txn).None?
       case Worked(_, _) => Live(s, txn).None?
       case Stored(_, _) => txn.key !in s.records
       case _ => true
  }

  predicate LockOk(s: State, key: Key)
    requires key in s.locks
  {
    var x := s.locks[key];
    x in s.txns && s.txns[x].key == key && !s.txns[x].phase.Waiting?
  }

  ghost predicate Inv(s: State) {
    && (forall key {:trigger KeyOk(s, key)} :: KeyOk(s, key))
    && (forall x {:trigger TxnOk(s, x)} :: x in s.txns ==> TxnOk(s, x))
    && (forall key {:trigger LockOk(s, key)} :: key in s.locks ==> LockOk(s, key))
  }

  lemma Facts(s: State, x: Id)
    requires Inv(s) && x in s.txns
    ensures TxnOk(s, x) && KeyOk(s, s.txns[x].key)
  {
  }

  lemma OnlyHolder(s: State, x: Id, y: Id)
    requires Inv(s) && x in s.txns && y in s.txns && x != y && s.txns[x].key == s.txns[y].key && !s.txns[x].phase.Waiting?
    ensures s.txns[y].phase.Waiting?
  {
    Facts(s, x);
    Facts(s, y);
  }

  lemma PhaseChangeKeeps(s: State, x: Id, phase: Phase)
    requires Inv(s) && x in s.txns && !s.txns[x].phase.Waiting? && !phase.Waiting?
    requires TxnOk(WithPhase(s, x, phase), x)
    ensures Inv(WithPhase(s, x, phase))
  {
    var s' := WithPhase(s, x, phase);
    forall key ensures KeyOk(s', key) { assert KeyOk(s, key); }
    forall y | y in s'.txns ensures TxnOk(s', y) { if y != x { assert TxnOk(s, y); } }
    forall key | key in s'.locks ensures LockOk(s', key) { assert LockOk(s, key); }
  }

  lemma LockKeeps(s: State, x: Id)
    requires Inv(s) && Enabled(s, Lock(x))
    ensures Inv(Step(s, Lock(x)))
  {
    var s' := Step(s, Lock(x));
    forall key ensures KeyOk(s', key) { assert KeyOk(s, key); }
    forall y | y in s'.txns ensures TxnOk(s', y) { assert TxnOk(s, y); }
    forall key | key in s'.locks ensures LockOk(s', key) { if key != s.txns[x].key { assert LockOk(s, key); } }
  }

  lemma EndKeeps(s: State, x: Id)
    requires Inv(s) && x in s.txns
    ensures Inv(Ended(s, x))
  {
    var s' := Ended(s, x);
    Facts(s, x);
    forall key ensures KeyOk(s', key) { assert KeyOk(s, key); }
    forall y | y in s'.txns ensures TxnOk(s', y) { assert TxnOk(s, y); }
    forall key | key in s'.locks ensures LockOk(s', key) { assert LockOk(s, key); }
  }

  lemma AnswerKeeps(s: State, key: Key, reply: Reply)
    requires Inv(s) && key in s.records && |Of(s.effects, key)| == 1 && ReplyOk(reply, Of(s.effects, key)[0])
    ensures Inv(Answered(s, key, reply))
  {
    var s' := Answered(s, key, reply);
    forall k ensures KeyOk(s', k) { assert KeyOk(s, k); }
    forall y | y in s'.txns ensures TxnOk(s', y) { assert TxnOk(s, y); }
    forall k | k in s'.locks ensures LockOk(s', k) { assert LockOk(s, k); }
  }

  lemma StoreKeeps(s: State, x: Id)
    requires Inv(s) && x in s.txns && s.txns[x].phase.Stored?
    ensures Inv(Step(s, Commit(x)))
  {
    var txn := s.txns[x];
    var s' := Step(s, Commit(x));
    Facts(s, x);
    EndKeeps(s, x);
    forall k ensures KeyOk(s', k) { assert KeyOk(s, k); }
    forall y | y in s'.txns ensures TxnOk(s', y) {
      assert TxnOk(s, y);
      if s.txns[y].key == txn.key { OnlyHolder(s, x, y); }
    }
    forall k | k in s'.locks ensures LockOk(s', k) { assert LockOk(Ended(s, x), k); }
  }

  lemma BeginKeeps(s: State, x: Id, key: Key, hash: string)
    requires Inv(s) && x !in s.txns
    ensures Inv(Step(s, Begin(x, key, hash)))
  {
    var s' := Step(s, Begin(x, key, hash));
    forall k ensures KeyOk(s', k) { assert KeyOk(s, k); }
    forall y | y in s'.txns ensures TxnOk(s', y) { if y != x { assert TxnOk(s, y); } }
    forall k | k in s'.locks ensures LockOk(s', k) { assert LockOk(s, k); }
  }

  lemma TickKeeps(s: State, seconds: nat)
    requires Inv(s)
    ensures Inv(s.(now := s.now + seconds))
  {
    var s' := s.(now := s.now + seconds);
    forall k ensures KeyOk(s', k) { assert KeyOk(s, k); }
    forall y | y in s'.txns ensures TxnOk(s', y) { assert TxnOk(s, y); }
    forall k | k in s'.locks ensures LockOk(s', k) { assert LockOk(s, k); }
  }

  lemma StepKeeps(s: State, e: Event)
    requires Inv(s)
    ensures Inv(Step(s, e))
  {
    hide Inv, KeyOk;
    if Enabled(s, e) {
      match e
      case Begin(x, key, hash) => BeginKeeps(s, x, key, hash);
      case Lock(x) => LockKeeps(s, x);
      case Lookup(x) =>
        Facts(s, x);
        var found := Live(s, s.txns[x]);
        PhaseChangeKeeps(s, x, if found.None? then Absent
                               else if found.value.hash != s.txns[x].hash then Refused else Found(found.value.body));
      case Work(x, body, kept) =>
        Facts(s, x);
        PhaseChangeKeeps(s, x, Worked(body, kept));
      case Save(x) =>
        Facts(s, x);
        PhaseChangeKeeps(s, x, if s.txns[x].key in s.records then Broken
                               else Stored(s.txns[x].phase.body, s.txns[x].phase.kept));
      case Commit(x) => CommitKeeps(s, x);
      case Abort(x) => AbortKeeps(s, x);
      case Tick(seconds) => TickKeeps(s, seconds);
    }
  }

  lemma CommitKeeps(s: State, x: Id)
    requires Inv(s) && Enabled(s, Commit(x))
    ensures Inv(Step(s, Commit(x)))
  {
    hide Inv;
    var txn := s.txns[x];
    Facts(s, x);
    if txn.phase.Found? {
      EndKeeps(s, x);
      AnswerKeeps(Ended(s, x), txn.key, Replayed(txn.hash, txn.phase.body));
    } else {
      StoreKeeps(s, x);
    }
  }

  lemma AbortKeeps(s: State, x: Id)
    requires Inv(s) && x in s.txns
    ensures Inv(Step(s, Abort(x)))
  {
    hide Inv;
    Facts(s, x);
    EndKeeps(s, x);
    if s.txns[x].phase.Refused? { AnswerKeeps(Ended(s, x), s.txns[x].key, Conflict(s.txns[x].hash)); }
  }

  lemma {:induction false} RunKeeps(s: State, events: seq<Event>)
    requires Inv(s)
    ensures Inv(Run(s, events))
    decreases |events|
  {
    hide Inv, Step;
    if events != [] {
      RunKeeps(s, events[..|events| - 1]);
      StepKeeps(Run(s, events[..|events| - 1]), events[|events| - 1]);
    }
  }

  /******* The promises *******/

  // The work of a key commits at most once, ever. Its caller gets the answer
  // of the work; every other answer given is the kept one, to the same
  // request, or a refusal, to a different one.
  lemma OnceAndAlike(events: seq<Event>, key: Key, j: nat)
    requires j < |Of(Run(EMPTY, events).replies, key)|
    ensures var s := Run(EMPTY, events);
      && |Of(s.effects, key)| == 1
      && var effect, reply := Of(s.effects, key)[0], Of(s.replies, key)[j];
      && (j == 0 ==> reply == Fresh(effect.hash, effect.body))
      && (j > 0 ==> reply == Replayed(effect.hash, effect.kept) || (reply.Conflict? && reply.hash != effect.hash))
  {
    hide Run;
    assert Inv(EMPTY);
    RunKeeps(EMPTY, events);
    assert KeyOk(Run(EMPTY, events), key);
  }

  lemma AtMostOnce(events: seq<Event>, key: Key)
    ensures |Of(Run(EMPTY, events).effects, key)| <= 1
  {
    hide Run;
    assert Inv(EMPTY);
    RunKeeps(EMPTY, events);
    assert KeyOk(Run(EMPTY, events), key);
  }

  // Only a commit of stored work leaves a trace; a transaction that ends in
  // any other way leaves neither effect nor record.
  lemma OnlyCommitsLeaveTraces(s: State, e: Event)
    ensures (Step(s, e).records == s.records && Step(s, e).effects == s.effects)
         || (e.Commit? && e.x in s.txns && s.txns[e.x].phase.Stored?)
  {
    if e.Commit? || e.Abort? {
      EndLeavesNoTrace(s, e);
    } else {
      hide Live, Of, Holds, Ended, Answered;
    }
  }

  lemma EndLeavesNoTrace(s: State, e: Event)
    requires e.Commit? || e.Abort?
    ensures (Step(s, e).records == s.records && Step(s, e).effects == s.effects)
         || (e.Commit? && e.x in s.txns && s.txns[e.x].phase.Stored?)
  {
    hide Live, Of, Holds, WithPhase;
  }

  // A retry that begins within the lifetime is answered from the record: the
  // kept answer exactly for the same request.
  lemma RetryWithinLifetime(s: State, x: Id)
    requires Inv(s) && Enabled(s, Lookup(x))
    requires s.txns[x].key in s.records && s.records[s.txns[x].key].expiresAt > s.txns[x].startedAt
    ensures |Of(s.effects, s.txns[x].key)| == 1
    ensures var phase := Step(s, Lookup(x)).txns[x].phase; var effect := Of(s.effects, s.txns[x].key)[0];
      && (phase == Found(effect.kept) <==> s.txns[x].hash == effect.hash)
      && (phase == Refused <==> s.txns[x].hash != effect.hash)
  {
    Facts(s, x);
  }

  // What the end of a transaction leaves of it, and whom it answers.
  predicate EndsWith(s: State, s': State, x: Id, answers: seq<Reply>)
    requires x in s.txns
  {
    var key := s.txns[x].key;
    && x !in s'.txns && (key in s'.locks ==> s'.locks[key] != x)
    && Of(s'.replies, key) == Of(s.replies, key) + answers
    && forall k :: k in s'.replies && k != key ==> k in s.replies && s'.replies[k] == s.replies[k]
  }

  // A commit answers once, with the work's own answer or the stored one.
  lemma CommitAnswers(s: State, x: Id)
    requires Inv(s) && Enabled(s, Commit(x))
    ensures var txn := s.txns[x];
      EndsWith(s, Step(s, Commit(x)), x,
               [if txn.phase.Stored? then Fresh(txn.hash, txn.phase.body) else Replayed(txn.hash, txn.phase.body)])
  {
    hide Inv, Live;
  }

  // A refusal answers once with a conflict, any other rollback not at all.
  lemma AbortAnswers(s: State, x: Id)
    requires Inv(s) && Enabled(s, Abort(x))
    ensures var txn := s.txns[x];
      EndsWith(s, Step(s, Abort(x)), x, if txn.phase.Refused? then [Conflict(txn.hash)] else [])
  {
    hide Inv, Live;
  }

  // A transaction waits for its key until nobody else holds it.
  lemma LockIsExclusive(s: State, x: Id)
    requires Inv(s) && x in s.txns && s.txns[x].phase.Waiting?
    ensures Enabled(s, Lock(x)) <==> forall y :: y in s.txns && s.txns[y].key == s.txns[x].key ==> s.txns[y].phase.Waiting?
    ensures Enabled(s, Lock(x)) ==> Step(s, Lock(x)).txns[x].phase == Locked
  {
    if s.txns[x].key in s.locks { assert LockOk(s, s.txns[x].key); }
    forall y | y in s.txns && s.txns[y].key == s.txns[x].key && !s.txns[y].phase.Waiting? ensures s.txns[x].key in s.locks {
      Facts(s, y);
    }
  }

  // The exact condition for work to commit: its key has no record at all. A
  // record that has expired lets the work run and then fails the insert, so
  // such a retry can only be rolled back.
  lemma WorkCommitsOnlyOnce(s: State, x: Id)
    requires Inv(s) && Enabled(s, Save(x))
    ensures Enabled(Step(s, Save(x)), Commit(x)) <==> s.txns[x].key !in s.records
    ensures s.txns[x].key in s.records ==>
      && s.records[s.txns[x].key].expiresAt <= s.txns[x].startedAt
      && Step(s, Save(x)).txns[x].phase == Broken
  {
    Facts(s, x);
  }

  lemma BrokenStep(s: State, x: Id, e: Event)
    requires x in s.txns && s.txns[x].phase.Broken? && e != Abort(x)
    ensures x in Step(s, e).txns && Step(s, e).txns[x] == s.txns[x]
  {
    if !e.Tick? && e.x == x {
      assert !Enabled(s, e);
    } else {
      OtherStep(s, x, e);
    }
  }

  // A step touches no transaction but its own.
  lemma OtherStep(s: State, x: Id, e: Event)
    requires x in s.txns && (e.Tick? || e.x != x)
    ensures x in Step(s, e).txns && Step(s, e).txns[x] == s.txns[x]
  {
    hide Live, Of, Holds, Enabled;
  }

  // A transaction with a failed statement never leaves a trace.
  lemma {:induction false} BrokenStaysBroken(s: State, x: Id, events: seq<Event>)
    requires x in s.txns && s.txns[x].phase.Broken?
    requires forall i :: 0 <= i < |events| ==> events[i] != Abort(x)
    ensures x in Run(s, events).txns && Run(s, events).txns[x] == s.txns[x]
    decreases |events|
  {
    hide Step;
    if events != [] {
      BrokenStaysBroken(s, x, events[..|events| - 1]);
      BrokenStep(Run(s, events[..|events| - 1]), x, events[|events| - 1]);
    }
  }

  /******* The program *******/

  class Store {
    var records: map<Key, Record>
    var locks: map<Key, Id>
    var txns: map<Id, Txn>
    var now: nat
    var effects: map<Key, seq<Effect>>
    var replies: map<Key, seq<Reply>>

    constructor ()
      ensures View() == EMPTY
    {
      records, locks, txns, now, effects, replies := map[], map[], map[], 0, map[], map[];
    }

    ghost function View(): State
      reads this
    {
      State(records, locks, txns, now, effects, replies)
    }

    // getIdempotentResponse
    method GetIdempotentResponse(x: Id)
      requires Enabled(View(), Lookup(x))
      modifies this`txns
      ensures View() == Step(old(View()), Lookup(x))
      ensures x in txns && var txn := old(txns[x]);
        txns[x] == txn.(phase := match Live(old(View()), txn)
                                 case None => Absent
                                 case Some(found) => if found.hash != txn.hash then Refused else Found(found.body))
    {
      var txn := txns[x];
      var phase := Absent;
      if txn.key in records && records[txn.key].expiresAt > txn.startedAt {
        phase := if records[txn.key].hash != txn.hash then Refused else Found(records[txn.key].body);
      }
      txns := txns[x := txn.(phase := phase)];
    }

    method EndTransaction(x: Id)
      requires x in txns
      modifies this`txns, this`locks
      ensures View() == Ended(old(View()), x)
    {
      var key := txns[x].key;
      if key in locks && locks[key] == x { locks := locks - {key}; }
      txns := txns - {x};
    }

    method Reply(key: Key, reply: Reply)
      modifies this`replies
      ensures View() == Answered(old(View()), key, reply)
    {
      replies := replies[key := Of(replies, key) + [reply]];
    }

    // BEGIN and the advisory lock, when nobody holds it.
    method OpenTransaction(x: Id, key: Key, hash: string)
      requires Inv(View()) && x !in txns && key !in locks
      modifies this`txns, this`locks
      ensures View() == Step(Step(old(View()), Begin(x, key, hash)), Lock(x)) && Inv(View())
      ensures x in txns && txns[x] == Txn(key, hash, now, Locked)
    {
      hide Inv;
      StepKeeps(View(), Begin(x, key, hash));
      txns := txns[x := Txn(key, hash, now, Waiting)];
      StepKeeps(View(), Lock(x));
      locks, txns := locks[key := x], txns[x := txns[x].(phase := Locked)];
    }

    // The work and saveIdempotentResponse.
    method WorkAndSave(x: Id, body: string, kept: string)
      requires Inv(View()) && Enabled(View(), Work(x, body, kept))
      modifies this`txns
      ensures View() == Step(Step(old(View()), Work(x, body, kept)), Save(x)) && Inv(View())
      ensures x in txns && txns[x] == old(txns[x]).(phase := if txns[x].key in records then Broken else Stored(body, kept))
    {
      hide Inv;
      StepKeeps(View(), Work(x, body, kept));
      txns := txns[x := txns[x].(phase := Worked(body, kept))];
      StepKeeps(View(), Save(x));
      txns := txns[x := txns[x].(phase := if txns[x].key in records then Broken else Stored(body, kept))];
    }

    // COMMIT or ROLLBACK, and the answer; no answer stands for an error.
    method CloseTransaction(x: Id) returns (answer: Option<string>)
      requires Inv(View()) && x in txns
      modifies this
      ensures var s := old(View());
        View() == Step(s, if Enabled(s, Commit(x)) then Commit(x) else Abort(x)) && Inv(View())
      ensures answer == match old(txns[x].phase)
                        case Found(body) => Some(body)
                        case Stored(body, _) => Some(body)
                        case _ => None
      ensures var txn := old(txns[x]);
        if txn.phase.Stored? then
          && records == old(records)[txn.key := Record(txn.hash, txn.phase.kept, txn.startedAt + LIFETIME)]
          && Of(effects, txn.key) == Of(old(effects), txn.key) + [Effect(txn.hash, txn.phase.body, txn.phase.kept)]
        else records == old(records) && effects == old(effects)
    {
      hide Inv;
      var Txn(key, hash, startedAt, phase) := txns[x];
      StepKeeps(View(), if phase.Found? || phase.Stored? then Commit(x) else Abort(x));
      EndTransaction(x);
      answer := None;
      match phase
      case Found(body) =>
        Reply(key, Replayed(hash, body));
        answer := Some(body);
      case Refused => Reply(key, Conflict(hash));
      case Stored(body, kept) =>
        Reply(key, Fresh(hash, body));
        records := records[key := Record(hash, kept, startedAt + LIFETIME)];
        effects := effects[key := Of(effects, key) + [Effect(hash, body, kept)]];
        answer := Some(body);
      case _ =>
    }

    // A whole command that gets its lock at once: what the work would answer
    // and what of it may be kept are parameters, None if it fails.
    method Command(x: Id, key: Key, hash: string, work: Option<(string, string)>) returns (answer: Option<string>)
      requires x !in txns && key !in locks
      requires Inv(View())
      modifies this
      ensures Inv(View())
      ensures key in old(records) ==> records == old(records) && effects == old(effects)
      ensures key in old(records) ==>
        answer == if old(records[key].expiresAt) > old(now) && old(records[key].hash) == hash then Some(old(records[key].body))
                  else None
      ensures key !in old(records) && work.None? ==> records == old(records) && effects == old(effects) && answer == None
      ensures key !in old(records) && work.Some? ==>
        && answer == Some(work.value.0)
        && records == old(records)[key := Record(hash, work.value.1, old(now) + 24 * 3600)]
        && Of(effects, key) == [Effect(hash, work.value.0, work.value.1)]
    {
      hide Inv, KeyOk, Step;
      KeyFacts(View(), key);
      OpenTransaction(x, key, hash);
      StepKeeps(View(), Lookup(x));
      GetIdempotentResponse(x);
      if txns[x].phase.Absent? && work.Some? { WorkAndSave(x, work.value.0, work.value.1); }
      answer := CloseTransaction(x);
    }
  }

  lemma KeyFacts(s: State, key: Key)
    requires Inv(s)
    ensures key !in s.records ==> Of(s.effects, key) == []
  {
    assert KeyOk(s, key);
  }
}
