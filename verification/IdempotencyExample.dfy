// A key used again once its record has expired: the work runs a second time
// and can then only be rolled back.
module IdempotencyExample {
  import opened Idempotency

  function FirstUse(key: Key, hash: string, body: string): seq<Event> {
    [Begin(0, key, hash), Lock(0), Lookup(0), Work(0, body, body), Save(0), Commit(0)]
  }

  function SecondUse(key: Key, hash: string, body: string): seq<Event> {
    [Begin(1, key, hash), Lock(1), Lookup(1), Work(1, body, body), Save(1)]
  }

  lemma {:induction false} RunJoins(s: State, a: seq<Event>, b: seq<Event>)
    ensures Run(s, a + b) == Run(Run(s, a), b)
    decreases |b|
  {
    hide Step;
    if b == [] {
      assert a + b == a;
    } else {
      assert (a + b)[..|a + b| - 1] == a + b[..|b| - 1];
      RunJoins(s, a, b[..|b| - 1]);
    }
  }

  lemma RunOne(s: State, e: Event)
    ensures Run(s, [e]) == Step(s, e)
  {
    hide Step;
    assert [e][..0] == [];
  }

  // The statements of a transaction that finds its lock free and no response,
  // up to the insert.
  lemma WorkedTransaction(s: State, x: Id, key: Key, hash: string, body: string)
    requires x !in s.txns && key !in s.locks
    requires key in s.records ==> s.records[key].expiresAt <= s.now
    ensures var t := Run(s, [Begin(x, key, hash), Lock(x), Lookup(x), Work(x, body, body)]);
      && t.records == s.records && t.now == s.now && t.effects == s.effects && t.replies == s.replies
      && t.locks == s.locks[key := x]
      && t.txns == s.txns[x := Txn(key, hash, s.now, Worked(body, body))]
  {
    var e := [Begin(x, key, hash), Lock(x), Lookup(x), Work(x, body, body)];
    assert e == [e[0]] + [e[1]] + [e[2]] + [e[3]];
    RunJoins(s, [e[0]] + [e[1]] + [e[2]], [e[3]]);
    RunJoins(s, [e[0]] + [e[1]], [e[2]]);
    RunJoins(s, [e[0]], [e[1]]);
    RunOne(s, e[0]);
    var s1 := Step(s, e[0]);
    RunOne(s1, e[1]);
    var s2 := Step(s1, e[1]);
    RunOne(s2, e[2]);
    var s3 := Step(s2, e[2]);
    RunOne(s3, e[3]);
    hide Run;
    assert s1.txns[x] == Txn(key, hash, s.now, Waiting);
    assert s2.txns[x].phase == Locked;
    assert s3.txns[x].phase == Absent;
  }

  lemma FirstUseStores(key: Key, hash: string, body: string)
    ensures var t := Run(EMPTY, FirstUse(key, hash, body));
      t.records == map[key := Record(hash, body, LIFETIME)] && t.txns == map[] && t.locks == map[] && t.now == 0
  {
    var head := [Begin(0, key, hash), Lock(0), Lookup(0), Work(0, body, body)];
    WorkedTransaction(EMPTY, 0, key, hash, body);
    assert FirstUse(key, hash, body) == head + [Save(0)] + [Commit(0)];
    RunJoins(EMPTY, head + [Save(0)], [Commit(0)]);
    RunJoins(EMPTY, head, [Save(0)]);
    var t := Run(EMPTY, head);
    RunOne(t, Save(0));
    RunOne(Step(t, Save(0)), Commit(0));
    hide Run;
    assert t.txns - {0} == map[] && t.locks - {key} == map[];
  }

  // Any time after its record has expired.
  lemma ExpiredUseBreaks(s: State, key: Key, hash: string, body: string)
    requires 1 !in s.txns && key !in s.locks && key in s.records && s.records[key].expiresAt <= s.now
    ensures var t := Run(s, SecondUse(key, hash, body)); 1 in t.txns && t.txns[1].phase == Broken
  {
    var head := [Begin(1, key, hash), Lock(1), Lookup(1), Work(1, body, body)];
    WorkedTransaction(s, 1, key, hash, body);
    assert SecondUse(key, hash, body) == head + [Save(1)];
    RunJoins(s, head, [Save(1)]);
    RunOne(Run(s, head), Save(1));
    hide Run;
  }

  // Whatever was asked and answered: a lifetime later the same key does its
  // work again, with the same request or another, and ends without an answer.
  lemma ExpiredKeyFails(key: Key, hash: string, body: string, hash': string, body': string, further: seq<Event>)
    requires forall i :: 0 <= i < |further| ==> further[i] != Abort(1)
    ensures var t := Run(EMPTY, FirstUse(key, hash, body) + [Tick(LIFETIME)] + SecondUse(key, hash', body'));
      && 1 in t.txns && t.txns[1].phase == Broken
      && 1 in Run(t, further).txns && Run(t, further).txns[1].phase == Broken
  {
    hide Run, FirstUse, SecondUse;
    var first := FirstUse(key, hash, body);
    FirstUseStores(key, hash, body);
    RunJoins(EMPTY, first + [Tick(LIFETIME)], SecondUse(key, hash', body'));
    RunJoins(EMPTY, first, [Tick(LIFETIME)]);
    RunOne(Run(EMPTY, first), Tick(LIFETIME));
    var later := Step(Run(EMPTY, first), Tick(LIFETIME));
    ExpiredUseBreaks(later, key, hash', body');
    BrokenStaysBroken(Run(later, SecondUse(key, hash', body')), 1, further);
  }
}
