// The queue as the program keeps it: variables changed in place by every
// call, each call tied to one step of the protocol.
module SaveQueueProgram {
  import opened Wrappers
  import opened SaveQueue

  class PersistenceQueue {
    const config: Config
    var dirty: bool
    var running: bool
    var blocked: bool
    var isOnline: bool
    var retryAttempt: nat
    var dirtyGeneration: int
    var timer: Option<int>
    var flights: seq<Flight>
    var stored: Option<Snapshot>

    ghost function View(): Queue
      reads this
    {
      Queue(dirty, running, blocked, isOnline, retryAttempt, dirtyGeneration, timer, flights, stored)
    }

    ghost predicate Valid()
      reads this
    {
      ConfigOk(config) && Inv(config, View())
    }

    constructor (delay: real, maxDelay: real, jitter: real, online: bool, persisted: Option<Snapshot>, random: unit)
      ensures config == MakeConfig(delay, maxDelay, jitter)
      ensures View() == Opened(config, persisted, online, random)
      ensures Valid()
    {
      config := MakeConfig(delay, maxDelay, jitter);
      dirty, running, blocked, isOnline := false, false, false, online;
      retryAttempt, dirtyGeneration, timer, flights, stored := 0, 0, None, [], persisted;
      new;
      if persisted.Some? && persisted.value.schemaVersion == 1 {
        dirty := persisted.value.dirty;
        blocked := persisted.value.blocked;
        retryAttempt := if persisted.value.retryAttempt >= 0 then persisted.value.retryAttempt else 0;
        dirtyGeneration := persisted.value.generation;
      }
      if dirty && isOnline && !blocked { ArmTimer(random); }
      MadeConfigIsOk(delay, maxDelay, jitter);
      OpenedKeeps(config, persisted, online, random);
    }

    method SaveSnapshot()
      modifies this`stored
      ensures View() == Saved(old(View()))
    {
      stored := Some(Snapshot(1, dirty, blocked, retryAttempt, dirtyGeneration));
    }

    // schedule: setTimeout replaces the timer it cleared.
    method ArmTimer(random: unit)
      modifies this`timer
      ensures View() == Schedule(config, old(View()), random)
    {
      if !dirty || running || blocked || !isOnline { return; }
      timer := Some(Delay(config, retryAttempt, random));
    }

    // The first part of flush, up to the write; the timer calls it too.
    method StartWrite() returns (started: bool)
      requires Valid()
      modifies this
      ensures View() == Step(config, old(View()), Flush) && Valid()
      ensures started <==> MayWrite(old(View()))
    {
      ghost var q := View();
      if !dirty || running || blocked || !isOnline { return false; }
      timer := None;
      running := true;
      flights := flights + [Writing(dirtyGeneration)];
      StepKeeps(config, q, Flush);
      started := true;
    }

    method WriteSucceeded(i: nat, random: unit)
      requires Valid() && Enabled(View(), WriteOk(i, random))
      modifies this
      ensures View() == Step(config, old(View()), WriteOk(i, random)) && Valid()
    {
      ghost var q := View();
      if dirtyGeneration == flights[i].generation { dirty := false; }
      retryAttempt := 0;
      SaveSnapshot();
      running, flights := false, Without(flights, i);
      ArmTimer(random);
      StepKeeps(config, q, WriteOk(i, random));
    }

    // The catch block up to the callback.
    method WriteRejected(i: nat, conflict: bool)
      requires Valid() && Enabled(View(), WriteFailed(i, conflict))
      modifies this
      ensures View() == Step(config, old(View()), WriteFailed(i, conflict)) && Valid()
    {
      ghost var q := View();
      dirty := true;
      if conflict { blocked := true; } else { retryAttempt := retryAttempt + 1; }
      flights := flights[i := Rejected];
      StepKeeps(config, q, WriteFailed(i, conflict));
    }

    // The rest of the catch block and the finally block.
    method EndRejected(i: nat, random: unit)
      requires Valid() && Enabled(View(), Finish(i, random))
      modifies this
      ensures View() == Step(config, old(View()), Finish(i, random)) && Valid()
    {
      ghost var q := View();
      SaveSnapshot();
      running, flights := false, Without(flights, i);
      ArmTimer(random);
      StepKeeps(config, q, Finish(i, random));
    }

    method Mark(random: unit)
      requires Valid()
      modifies this
      ensures View() == Step(config, old(View()), MarkDirty(random)) && Valid()
    {
      StepKeeps(config, View(), MarkDirty(random));
      dirty := true;
      dirtyGeneration := dirtyGeneration + 1;
      SaveSnapshot();
      ArmTimer(random);
    }

    method ResolveConflict(random: unit)
      requires Valid()
      modifies this
      ensures View() == Step(config, old(View()), ClearConflict(random)) && Valid()
    {
      StepKeeps(config, View(), ClearConflict(random));
      blocked, retryAttempt := false, 0;
      dirty := true;
      dirtyGeneration := dirtyGeneration + 1;
      SaveSnapshot();
      ArmTimer(random);
    }

    method RetryNow() returns (started: bool)
      requires Valid()
      modifies this
      ensures View() == Step(config, old(View()), Retry) && Valid()
      ensures started <==> old(dirty) && !old(running) && old(isOnline)
    {
      StepKeeps(config, View(), Retry);
      blocked, retryAttempt := false, 0;
      SaveSnapshot();
      if !dirty || running || blocked || !isOnline { return false; }
      timer := None;
      running := true;
      flights := flights + [Writing(dirtyGeneration)];
      started := true;
    }

    method Discard()
      requires Valid()
      modifies this
      ensures View() == Step(config, old(View()), Clear) && Valid()
    {
      StepKeeps(config, View(), Clear);
      dirty, blocked, retryAttempt := false, false, 0;
      dirtyGeneration := dirtyGeneration + 1;
      timer := None;
      stored := None;
    }

    method SwitchOnline(value: bool, random: unit)
      requires Valid()
      modifies this
      ensures View() == Step(config, old(View()), SetOnline(value, random)) && Valid()
    {
      StepKeeps(config, View(), SetOnline(value, random));
      isOnline := value;
      if isOnline { ArmTimer(random); } else { timer := None; }
    }
  }
}
