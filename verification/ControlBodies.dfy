/** The bodies of `_create_batch` and `_set_control`
    (backend/app/services/send_runtime_control.py). */
module ControlBodies {
  import opened Options
  import opened Tables
  import opened BatchControl
  import opened Bodies

  function Machine(me: Id): (nat, Db, Step) -> (Db, Step) { (i: nat, db: Db, s: Step) => Act(db, me, s) }

  predicate Ends(s: Step) { s.Done? }

  lemma Did(me: Id, log: Log, i: nat, s: Step, env: nat -> Db, n: nat, now: Db, next: Step)
    requires n > 0 && !s.Done? && Act(env(i), me, s) == (now, next)
    ensures Play(Machine(me), Ends, log, i, s, env, n) ==
            Play(Machine(me), Ends, Then(log, now), i + 1, next, env, n - 1)
    ensures next.Done? ==> Play(Machine(me), Ends, log, i, s, env, n) == (Then(log, now), next)
  {
    hide Act;
    Tick(Machine(me), Ends, log, i, s, env, n, now, next);
  }

  /** A new batch of the jobs that are queued and in no batch; `ok` says that it got any. */
  method CreateBatch(me: Id, before: Log, i: nat, env: nat -> Db, ghost n: nat) returns (ok: bool, log: Log)
    requires n >= 4
    ensures ok ==> Play(Machine(me), Ends, before, i, ResumeList, env, n) ==
                   Play(Machine(me), Ends, log, i + 4, ResumeRun(me), env, n - 4)
    ensures !ok ==> Play(Machine(me), Ends, before, i, ResumeList, env, n) == (log, Done(false))
  {
    hide Play, Machine, Ends, AssignJobs, UnbatchedQueued;
    var db := env(i);
    var ids := UnbatchedQueued(db);
    if ids == {} {
      Did(me, before, i, ResumeList, env, n, db, Done(false));
      return false, Then(before, db);
    }
    Did(me, before, i, ResumeList, env, n, db, ResumeInsert(ids));
    log := Then(before, db);
    db := env(i + 1);
    db := db.(batches := db.batches[me := Batch(Running, 0)]);
    Did(me, log, i + 1, ResumeInsert(ids), env, n - 1, db, ResumeAssign(ids));
    ok, log := AssignAndCount(me, ids, Then(log, db), i + 2, env, n - 2);
  }

  /** The assignment of the jobs, and the total or the end of an empty batch. */
  method AssignAndCount(me: Id, ids: set<Id>, before: Log, i: nat, env: nat -> Db, ghost n: nat)
      returns (ok: bool, log: Log)
    requires n >= 2
    ensures ok ==> Play(Machine(me), Ends, before, i, ResumeAssign(ids), env, n) ==
                   Play(Machine(me), Ends, log, i + 2, ResumeRun(me), env, n - 2)
    ensures !ok ==> Play(Machine(me), Ends, before, i, ResumeAssign(ids), env, n) == (log, Done(false))
  {
    hide Play, Machine, Ends, AssignJobs;
    var db := AssignJobs(env(i), me, ids);
    Assigns(env(i), me, ids);
    var count := |db.batched[me]|;
    Did(me, before, i, ResumeAssign(ids), env, n, db, AfterAssign(count));
    log := Then(before, db);
    db := env(i + 1);
    if count == 0 {
      db := db.(batches := db.batches - {me});
      Did(me, log, i + 1, ResumeDrop, env, n - 1, db, Done(false));
      return false, Then(log, db);
    }
    if me in db.batches {
      db := db.(batches := db.batches[me := db.batches[me].(total := count)]);
    }
    Did(me, log, i + 1, ResumeTotal(count), env, n - 1, db, ResumeRun(me));
    return true, Then(log, db);
  }

  lemma Assigns(db: Db, me: Id, ids: set<Id>)
    ensures me in AssignJobs(db, me, ids).batched
  {
  }

  /** The batch is there and can go on. */
  predicate IsOpen(db: Db, b: Id) { b in db.batches && db.batches[b].status != Completed }

  method Resume(me: Id, env: nat -> Db) returns (ok: bool, log: Log)
    ensures (log, Done(ok)) == Play(Machine(me), Ends, Nothing, 0, ResumeRead, env, 8)
    ensures ok ==> log.Then? && log.db.desired == WantRunning
    ensures ok && (env(0).active == None || !IsOpen(env(1), env(0).active.value)) ==> log.db.active == Some(me)
  {
    hide Play, Machine, Ends, WithStatus, AssignJobs, UnbatchedQueued;
    var db := env(0);
    log := Then(Nothing, db);
    var active := db.active;
    var i, b := 1, me;
    if active == None {
      Did(me, Nothing, 0, ResumeRead, env, 8, db, ResumeList);
      ok, log := CreateBatch(me, log, 1, env, 7);
      if !ok {
        return;
      }
      i := 5;
    } else {
      b := active.value;
      Did(me, Nothing, 0, ResumeRead, env, 8, db, ResumeReadBatch(b));
      db := env(1);
      if b !in db.batches || db.batches[b].status == Completed {
        Did(me, log, 1, ResumeReadBatch(b), env, 7, db, ResumeList);
        ok, log := CreateBatch(me, Then(log, db), 2, env, 6);
        if !ok {
          return;
        }
        i, b := 6, me;
      } else {
        Did(me, log, 1, ResumeReadBatch(b), env, 7, db, ResumeRun(b));
        log := Then(log, db);
        i := 2;
      }
    }
    db := env(i);
    db := db.(batches := WithStatus(db.batches, b, Running));
    Did(me, log, i, ResumeRun(b), env, 8 - i, db, ResumeControl(b));
    log := Then(log, db);
    db := env(i + 1);
    db := db.(desired := WantRunning);
    if b == me {
      db := db.(active := Some(me));
    }
    Did(me, log, i + 1, ResumeControl(b), env, 7 - i, db, Done(true));
    return true, Then(log, db);
  }

  /** `batches.update(status = paused)` unless completed, and the write of the wish. */
  method PauseBatchAndWrite(me: Id, b: Id, before: Log, i: nat, env: nat -> Db, ghost n: nat) returns (log: Log)
    requires n >= 2
    ensures (log, Done(true)) == Play(Machine(me), Ends, before, i, PauseWrite(b), env, n)
    ensures log.Then? && log.db.desired == WantPaused
  {
    hide Play, Machine, Ends, WithStatus;
    var db := env(i);
    if b in db.batches && db.batches[b].status != Completed {
      db := db.(batches := WithStatus(db.batches, b, BatchStatus.Paused));
    }
    Did(me, before, i, PauseWrite(b), env, n, db, WantWrite(WantPaused));
    log := Then(before, db);
    db := env(i + 1).(desired := WantPaused);
    Did(me, log, i + 1, WantWrite(WantPaused), env, n - 1, db, Done(true));
    log := Then(log, db);
  }

  method Pause(me: Id, env: nat -> Db) returns (log: Log)
    ensures (log, Done(true)) == Play(Machine(me), Ends, Nothing, 0, PauseRead, env, 3)
    ensures log.Then? && log.db.desired == WantPaused
  {
    hide Play, Machine, Ends, WithStatus;
    var db := env(0);
    log := Then(Nothing, db);
    if db.active.Some? {
      Did(me, Nothing, 0, PauseRead, env, 3, db, PauseWrite(db.active.value));
      log := PauseBatchAndWrite(me, db.active.value, log, 1, env, 2);
      return;
    }
    Did(me, Nothing, 0, PauseRead, env, 3, db, WantWrite(WantPaused));
    db := env(1).(desired := WantPaused);
    Did(me, log, 1, WantWrite(WantPaused), env, 2, db, Done(true));
    log := Then(log, db);
  }

  method StopAfterCurrent(me: Id, env: nat -> Db) returns (log: Log)
    ensures (log, Done(true)) == Play(Machine(me), Ends, Nothing, 0, StopRead, env, 4)
    ensures log.Then?
    ensures log.db.desired == if env(0).active.Some? && AnySending(env(1), env(0).active.value) then WantStop
                              else WantPaused
  {
    hide Play, Machine, Ends, WithStatus, AnySending;
    var db := env(0);
    log := Then(Nothing, db);
    if db.active == None {
      Did(me, Nothing, 0, StopRead, env, 4, db, WantWrite(WantPaused));
      db := env(1).(desired := WantPaused);
      Did(me, log, 1, WantWrite(WantPaused), env, 3, db, Done(true));
      return Then(log, db);
    }
    var b := db.active.value;
    Did(me, Nothing, 0, StopRead, env, 4, db, StopReadJobs(b));
    db := env(1);
    if AnySending(db, b) {
      Did(me, log, 1, StopReadJobs(b), env, 3, db, WantWrite(WantStop));
      log := Then(log, db);
      db := env(2).(desired := WantStop);
      Did(me, log, 2, WantWrite(WantStop), env, 2, db, Done(true));
      return Then(log, db);
    }
    Did(me, log, 1, StopReadJobs(b), env, 3, db, PauseWrite(b));
    log := PauseBatchAndWrite(me, b, Then(log, db), 2, env, 2);
  }
}
