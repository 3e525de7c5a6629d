/** The bodies of the send queue's calls (backend/app/services/send_queue_service.py). */
module QueueBodies {
  import opened Options
  import opened Tables
  import opened SendQueue
  import opened Bodies

  function Machine(me: Id): (nat, Db, Step) -> (Db, Step) { (i: nat, db: Db, s: Step) => Act(db, me, s) }

  predicate Ends(s: Step) { s.Done? }

  lemma Did(me: Id, log: Log, i: nat, s: Step, env: nat -> Db, n: nat, now: Db, next: Step)
    requires n > 0 && !s.Done? && Act(env(i), me, s) == (now, next)
    ensures Play(Machine(me), Ends, log, i, s, env, n) ==
            Play(Machine(me), Ends, Then(log, now), i + 1, next, env, n - 1)
    ensures next.Done? ==> Play(Machine(me), Ends, log, i, s, env, n) == (Then(log, now), next)
  {
    hide Act;
    Tick(Machine(me), Ends, log, i, s, env, n, now, next);
  }

  method ApproveLetter(me: Id, pid: Id, env: nat -> Db) returns (ok: bool, log: Log)
    ensures (log, Done(ok)) == Play(Machine(me), Ends, Nothing, 0, ApproveRead(pid), env, 2)
  {
    hide Strip, Play, Machine, Ends;
    log := Nothing;
    var db := env(0);
    if pid !in db.rows {
      Did(me, log, 0, ApproveRead(pid), env, 2, db, Done(false));
      return false, Then(log, db);
    }
    var vacancy := db.rows[pid];
    var text := Strip(vacancy.draft);
    if vacancy.status == Approved {
      ok := text != "" && vacancy.hash == Some(Sha256(text));
      Did(me, log, 0, ApproveRead(pid), env, 2, db, Done(ok));
      return ok, Then(log, db);
    }
    if vacancy.status != LetterDraft || text == "" {
      Did(me, log, 0, ApproveRead(pid), env, 2, db, Done(false));
      return false, Then(log, db);
    }
    Did(me, log, 0, ApproveRead(pid), env, 2, db, ApproveWrite(pid, text));
    log := Then(log, db);
    db := env(1);
    ok := Allows(db, pid, {LetterDraft}, None);
    if ok {
      db := Tables.Approve(db, pid, text);
    }
    Did(me, log, 1, ApproveWrite(pid, text), env, 1, db, Done(ok));
    log := Then(log, db);
  }

  // The statements of `queue_approved` in the step machine.
  lemma QueueStatements(db: Db, me: Id, pid: Id)
    ensures Act(db, me, QueueRead(pid)) == (db, if pid in db.rows then QueueReadJob(pid, db.rows[pid]) else Done(false))
    ensures Act(db, me, QueueMove(pid)) == if Allows(db, pid, {Approved}, None)
                                           then (Put(db, pid, Moved(db.rows[pid], QueuedToSend)), Done(true))
                                           else (db, QueueRollback(pid))
    ensures Act(db, me, QueueRollback(pid)) == (if pid in db.jobs then SetJob(db, pid, Cancelled) else db, Done(false))
  {
  }

  lemma QueueReadJobStatement(db: Db, me: Id, pid: Id, row: Row)
    ensures Act(db, me, QueueReadJob(pid, row)) == (db, QueueAfterReads(pid, row, JobOf(db, pid)))
  {
  }

  lemma QueueWriteStatement(db: Db, me: Id, pid: Id, letter: Letter, overwrite: bool)
    ensures Act(db, me, QueueWrite(pid, letter, overwrite)) ==
            if (if overwrite then JobIs(db, pid, Cancelled) else pid !in db.jobs)
            then (Enqueue(db, me, pid, letter), QueueMove(pid)) else (db, Done(false))
  {
  }

  /** The rest of `queue_approved`, from the write of the queue row on. */
  method PersistAndMove(me: Id, pid: Id, payload: Letter, replacing: bool, before: Log, env: nat -> Db)
      returns (ok: bool, log: Log)
    ensures (log, Done(ok)) == Play(Machine(me), Ends, before, 2, QueueWrite(pid, payload, replacing), env, 3)
  {
    hide Strip, Play, Machine, Ends, Act, Enqueue, SetJob, Put, Moved;
    log := before;
    var db := env(2);
    QueueWriteStatement(db, me, pid, payload, replacing);
    if (if replacing then !JobIs(db, pid, Cancelled) else pid in db.jobs) {
      Did(me, log, 2, QueueWrite(pid, payload, replacing), env, 3, db, Done(false));
      return false, Then(log, db);
    }
    db := Enqueue(db, me, pid, payload);
    Did(me, log, 2, QueueWrite(pid, payload, replacing), env, 3, db, QueueMove(pid));
    log := Then(log, db);
    db := env(3);
    QueueStatements(db, me, pid);
    var changed := Allows(db, pid, {Approved}, None);
    if changed {
      db := Put(db, pid, Moved(db.rows[pid], QueuedToSend));
      Did(me, log, 3, QueueMove(pid), env, 2, db, Done(true));
      return true, Then(log, db);
    }
    Did(me, log, 3, QueueMove(pid), env, 2, db, QueueRollback(pid));
    log := Then(log, db);
    db := env(4);
    QueueStatements(db, me, pid);
    if pid in db.jobs {
      db := SetJob(db, pid, Cancelled);
    }
    Did(me, log, 4, QueueRollback(pid), env, 1, db, Done(false));
    return false, Then(log, db);
  }

  method QueueApproved(me: Id, pid: Id, env: nat -> Db) returns (ok: bool, log: Log)
    ensures (log, Done(ok)) == Play(Machine(me), Ends, Nothing, 0, QueueRead(pid), env, 5)
  {
    hide Strip, Play, Machine, Ends, Act, Enqueue, SetJob, Put, Moved;
    log := Nothing;
    var db := env(0);
    QueueStatements(db, me, pid);
    if pid !in db.rows {
      Did(me, log, 0, QueueRead(pid), env, 5, db, Done(false));
      return false, Then(log, db);
    }
    var vacancy := db.rows[pid];
    Did(me, log, 0, QueueRead(pid), env, 5, db, QueueReadJob(pid, vacancy));
    log := Then(log, db);
    db := env(1);
    QueueReadJobStatement(db, me, pid, vacancy);
    var existing := JobOf(db, pid);
    var text := Strip(vacancy.draft);
    var queued := vacancy.status == QueuedToSend && existing.Some? && existing.value.status == Queued;
    if queued {
      Did(me, log, 1, QueueReadJob(pid, vacancy), env, 4, db, Done(true));
      return true, Then(log, db);
    }
    if vacancy.status != Approved || text == "" || vacancy.hash != Some(Sha256(text)) || vacancy.resume == None
       || (existing.Some? && existing.value.status != Cancelled) {
      Did(me, log, 1, QueueReadJob(pid, vacancy), env, 4, db, Done(false));
      return false, Then(log, db);
    }
    var payload := Letter(vacancy.resume.value, vacancy.hh, Sha256(text), text);
    ghost var write := QueueWrite(pid, payload, existing.Some?);
    Did(me, log, 1, QueueReadJob(pid, vacancy), env, 4, db, write);
    log := Then(log, db);
    ok, log := PersistAndMove(me, pid, payload, existing.Some?, log, env);
  }

  // The statements of `cancel_queued` in the step machine.
  lemma CancelReads(db: Db, me: Id, pid: Id)
    ensures Act(db, me, CancelRead(pid)) ==
            (db, if pid in db.rows && db.rows[pid].status == QueuedToSend then CancelReadJob(pid) else Done(false))
    ensures Act(db, me, CancelReadJob(pid)) == (db, if JobIs(db, pid, Queued) then CancelWrite(pid) else Done(false))
  {
  }

  lemma CancelWrites(db: Db, me: Id, pid: Id)
    ensures Act(db, me, CancelWrite(pid)) ==
            if JobIs(db, pid, Queued) then (SetJob(db, pid, Cancelled), CancelMove(pid)) else (db, Done(false))
    ensures Act(db, me, CancelMove(pid)) == if Allows(db, pid, {QueuedToSend}, None)
                                            then (Put(db, pid, Moved(db.rows[pid], Approved)), Done(true))
                                            else (db, Done(false))
  {
  }

  method CancelQueued(me: Id, pid: Id, env: nat -> Db) returns (ok: bool, log: Log)
    ensures (log, Done(ok)) == Play(Machine(me), Ends, Nothing, 0, CancelRead(pid), env, 4)
  {
    hide Play, Machine, Ends, Act, SetJob, Put, Moved;
    log := Nothing;
    var db := env(0);
    CancelReads(db, me, pid);
    if pid !in db.rows || db.rows[pid].status != QueuedToSend {
      Did(me, log, 0, CancelRead(pid), env, 4, db, Done(false));
      return false, Then(log, db);
    }
    Did(me, log, 0, CancelRead(pid), env, 4, db, CancelReadJob(pid));
    log := Then(log, db);
    db := env(1);
    CancelReads(db, me, pid);
    if !JobIs(db, pid, Queued) {
      Did(me, log, 1, CancelReadJob(pid), env, 3, db, Done(false));
      return false, Then(log, db);
    }
    Did(me, log, 1, CancelReadJob(pid), env, 3, db, CancelWrite(pid));
    log := Then(log, db);
    db := env(2);
    CancelWrites(db, me, pid);
    if !JobIs(db, pid, Queued) {
      Did(me, log, 2, CancelWrite(pid), env, 2, db, Done(false));
      return false, Then(log, db);
    }
    db := SetJob(db, pid, Cancelled);
    Did(me, log, 2, CancelWrite(pid), env, 2, db, CancelMove(pid));
    log := Then(log, db);
    db := env(3);
    CancelWrites(db, me, pid);
    ok := Allows(db, pid, {QueuedToSend}, None);
    if ok {
      db := Put(db, pid, Moved(db.rows[pid], Approved));
    }
    Did(me, log, 3, CancelMove(pid), env, 1, db, Done(ok));
    log := Then(log, db);
  }

  // The statements of `reset_failed` in the step machine.
  lemma ResetReads(db: Db, me: Id, pid: Id, row: Row)
    ensures Act(db, me, ResetRead(pid)) == (db, if pid in db.rows then ResetReadJob(pid, db.rows[pid]) else Done(false))
    ensures Act(db, me, ResetReadJob(pid, row)) ==
            (db, if pid in db.jobs then ResetAfterReads(pid, row, db.jobs[pid]) else Done(false))
  {
  }

  lemma ResetWrites(db: Db, me: Id, pid: Id, previous: JobStatus)
    ensures Act(db, me, ResetWrite(pid, previous)) ==
            if JobIs(db, pid, previous) then (SetJob(db, pid, Cancelled), ResetMove(pid, previous))
            else (db, Done(false))
  {
  }

  lemma ResetMoves(db: Db, me: Id, pid: Id, previous: JobStatus)
    ensures Act(db, me, ResetMove(pid, previous)) == if Allows(db, pid, {SendError}, None)
                                                     then (Put(db, pid, Moved(db.rows[pid], Approved)), Done(true))
                                                     else (db, ResetRollback(pid, previous))
    ensures Act(db, me, ResetRollback(pid, previous)) ==
            (if JobIs(db, pid, Cancelled) then SetJob(db, pid, previous) else db, Done(false))
  {
  }

  /** The rest of `reset_failed`, from the write of the queue row on. */
  method CancelAndReset(me: Id, pid: Id, previous: JobStatus, before: Log, env: nat -> Db) returns (ok: bool, log: Log)
    ensures (log, Done(ok)) == Play(Machine(me), Ends, before, 2, ResetWrite(pid, previous), env, 3)
  {
    hide Play, Machine, Ends, Act, SetJob, Put, Moved;
    log := before;
    var db := env(2);
    ResetWrites(db, me, pid, previous);
    if !JobIs(db, pid, previous) {
      Did(me, log, 2, ResetWrite(pid, previous), env, 3, db, Done(false));
      return false, Then(log, db);
    }
    db := SetJob(db, pid, Cancelled);
    Did(me, log, 2, ResetWrite(pid, previous), env, 3, db, ResetMove(pid, previous));
    log := Then(log, db);
    db := env(3);
    ResetMoves(db, me, pid, previous);
    if Allows(db, pid, {SendError}, None) {
      db := Put(db, pid, Moved(db.rows[pid], Approved));
      Did(me, log, 3, ResetMove(pid, previous), env, 2, db, Done(true));
      return true, Then(log, db);
    }
    Did(me, log, 3, ResetMove(pid, previous), env, 2, db, ResetRollback(pid, previous));
    log := Then(log, db);
    db := env(4);
    ResetMoves(db, me, pid, previous);
    if JobIs(db, pid, Cancelled) {
      db := SetJob(db, pid, previous);
    }
    Did(me, log, 4, ResetRollback(pid, previous), env, 1, db, Done(false));
    return false, Then(log, db);
  }

  method ResetFailed(me: Id, pid: Id, env: nat -> Db) returns (ok: bool, log: Log)
    ensures (log, Done(ok)) == Play(Machine(me), Ends, Nothing, 0, ResetRead(pid), env, 5)
  {
    hide Strip, Play, Machine, Ends, Act;
    log := Nothing;
    var db := env(0);
    if pid !in db.rows {
      ResetReads(db, me, pid, Row(Discovered, 0, None, false, "", None, None, 0));
      Did(me, log, 0, ResetRead(pid), env, 5, db, Done(false));
      return false, Then(log, db);
    }
    var vacancy := db.rows[pid];
    ResetReads(db, me, pid, vacancy);
    Did(me, log, 0, ResetRead(pid), env, 5, db, ResetReadJob(pid, vacancy));
    log := Then(log, db);
    db := env(1);
    ResetReads(db, me, pid, vacancy);
    if pid !in db.jobs {
      Did(me, log, 1, ResetReadJob(pid, vacancy), env, 4, db, Done(false));
      return false, Then(log, db);
    }
    var existing := db.jobs[pid];
    var draft := Strip(vacancy.draft);
    if existing.status == Cancelled && vacancy.status == Approved {
      Did(me, log, 1, ResetReadJob(pid, vacancy), env, 4, db, Done(true));
      return true, Then(log, db);
    }
    if (existing.status != Failed && existing.status != ManualRequired) || vacancy.status != SendError
       || draft == "" || vacancy.hash != Some(Sha256(draft)) || vacancy.hash != Some(existing.letter.hash) {
      Did(me, log, 1, ResetReadJob(pid, vacancy), env, 4, db, Done(false));
      return false, Then(log, db);
    }
    Did(me, log, 1, ResetReadJob(pid, vacancy), env, 4, db, ResetWrite(pid, existing.status));
    log := Then(log, db);
    ok, log := CancelAndReset(me, pid, existing.status, log, env);
  }
}
