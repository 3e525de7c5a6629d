/** The body of one leased sender cycle, `_process_leased` (backend/app/services/persistent_sender.py), and of the
    release that follows it. Any statement may be cancelled or raise. */
module SenderBodies {
  import opened Options
  import opened Tables
  import opened Enrichment
  import opened PersistentSender
  import opened Bodies

  function Follow(m: Mishap, s: Step, next: Step): Step { if m.Fine? then next else Interrupted(s) }

  function Machine(me: Id, hints: nat -> Hint): (nat, Db, Step) -> (Db, Step)
  {
    (i: nat, db: Db, s: Step) =>
      var m := hints(i).mishap;
      var (now, next) := Act(db, me, hints(i), s);
      (Landed(db, now, m), Follow(m, s, next))
  }

  /** The cycle proper ends with the release of the lease. */
  predicate Ends(s: Step) { s.ReleaseLease? }

  lemma Did(ends: Step -> bool, me: Id, hints: nat -> Hint, log: Log, i: nat, s: Step, env: nat -> Db, n: nat, now: Db,
            next: Step)
    requires n > 0 && !ends(s) && Act(env(i), me, hints(i), s) == (now, next)
    ensures var act, m := Machine(me, hints), hints(i).mishap;
            var log', next' := Then(log, Landed(env(i), now, m)), Follow(m, s, next);
            && Play(act, ends, log, i, s, env, n) == Play(act, ends, log', i + 1, next', env, n - 1)
            && (ends(next') ==> Play(act, ends, log, i, s, env, n) == (log', next'))
  {
    hide Act, Interrupted;
    var m := hints(i).mishap;
    Tick(Machine(me, hints), ends, log, i, s, env, n, Landed(env(i), now, m), Follow(m, s, next));
  }

  /** What the query for the oldest queued job of the batch may return. */
  predicate IsNextJob(db: Db, b: Id, oldest: Option<Id>)
  {
    if oldest.Some? then InQueue(db.jobs, oldest.value, b) else QueueEmpty(db, b)
  }

  lemma FinishStatement(db: Db, me: Id, hint: Hint, b: Id, pid: Id, end: JobStatus, move: Option<Status>)
    ensures Act(db, me, hint, FinishJob(b, pid, end, move)) ==
            (if JobIs(db, pid, JobStatus.Sending) then SetJob(db, pid, end) else db,
             if move.Some? then MovePipeline(b, pid, move.value) else ReleaseLease(b))
  {
  }

  lemma MoveStatement(db: Db, me: Id, hint: Hint, b: Id, pid: Id, status: Status)
    ensures Act(db, me, hint, MovePipeline(b, pid, status)) ==
            (Transition(db, pid, {QueuedToSend}, status, None).0, ReleaseLease(b))
  {
  }

  /** `_finish_job` and, if any, `_move_pipeline`. */
  method FinishAndMove(me: Id, b: Id, pid: Id, end: JobStatus, move: Option<Status>, hints: nat -> Hint,
                       before: Log, i: nat, env: nat -> Db, ghost n: nat)
      returns (log: Log)
    requires n >= 2
    ensures (log, ReleaseLease(b)) == Play(Machine(me, hints), Ends, before, i, FinishJob(b, pid, end, move), env, n)
  {
    hide Play, Machine, Act, SetJob, Transition;
    var db, m := env(i), hints(i).mishap;
    FinishStatement(db, me, hints(i), b, pid, end, move);
    if JobIs(db, pid, JobStatus.Sending) {
      db := SetJob(db, pid, end);
    }
    Did(Ends, me, hints, before, i, FinishJob(b, pid, end, move), env, n, db,
        if move.Some? then MovePipeline(b, pid, move.value) else ReleaseLease(b));
    log := Then(before, Landed(env(i), db, m));
    if !m.Fine? || move == None {
      return;
    }
    db, m := env(i + 1), hints(i + 1).mishap;
    MoveStatement(db, me, hints(i + 1), b, pid, move.value);
    db := Transition(db, pid, {QueuedToSend}, move.value, None).0;
    Did(Ends, me, hints, log, i + 1, MovePipeline(b, pid, move.value), env, n - 1, db, ReleaseLease(b));
    log := Then(log, Landed(env(i + 1), db, m));
  }

  lemma AskStatement(db: Db, me: Id, hint: Hint, cycle: Cycle, b: Id, pid: Id, letter: Letter)
    ensures Act(db, me, hint, AskHh(cycle, b, pid, letter)) == (db, AfterAnswer(cycle, b, pid, letter))
    ensures Act(db, me, hint, Submit(cycle, b, pid, letter)) ==
            (db.(submissions := db.submissions[me := Submission(pid, letter)]), AfterSubmit(cycle.outcome, b, pid))
  {
  }

  /** The submit and its reconciliation. */
  method SubmitLetter(me: Id, b: Id, pid: Id, letter: Letter, cycle: Cycle, hints: nat -> Hint, before: Log,
                      env: nat -> Db)
      returns (log: Log)
    ensures (log, ReleaseLease(b)) == Play(Machine(me, hints), Ends, before, 4, Submit(cycle, b, pid, letter), env, 3)
  {
    hide Play, Machine, Act;
    var db, m, outcome := env(4), hints(4).mishap, cycle.outcome;
    AskStatement(db, me, hints(4), cycle, b, pid, letter);
    db := db.(submissions := db.submissions[me := Submission(pid, letter)]);
    Did(Ends, me, hints, before, 4, Submit(cycle, b, pid, letter), env, 3, db, AfterSubmit(outcome, b, pid));
    log := Then(before, Landed(env(4), db, m));
    if !m.Fine? || outcome.SubmitRaises? {
      return;
    }
    if outcome.SubmitSent? || outcome.respondedAfter {
      log := FinishAndMove(me, b, pid, JobStatus.Sent, Some(Status.Sent), hints, log, 5, env, 2);
      return;
    }
    log := FinishAndMove(me, b, pid, Failed, Some(SendError), hints, log, 5, env, 2);
  }

  /** The question to HH, and what is made of the answer. */
  method AskAndSubmit(me: Id, b: Id, pid: Id, letter: Letter, cycle: Cycle, hints: nat -> Hint, before: Log,
                      env: nat -> Db)
      returns (log: Log)
    ensures (log, ReleaseLease(b)) == Play(Machine(me, hints), Ends, before, 3, AskHh(cycle, b, pid, letter), env, 4)
  {
    hide Play, Machine, Act;
    var db, m, answer := env(3), hints(3).mishap, cycle.answer;
    AskStatement(db, me, hints(3), cycle, b, pid, letter);
    Did(Ends, me, hints, before, 3, AskHh(cycle, b, pid, letter), env, 4, db, AfterAnswer(cycle, b, pid, letter));
    log := Then(before, Landed(db, db, m));
    if !m.Fine? || answer.Raises? {
      return;
    }
    if answer.VacancyGone? {
      log := FinishAndMove(me, b, pid, Failed, Some(Archived), hints, log, 4, env, 3);
      return;
    }
    if answer.SessionExpired? {
      log := FinishAndMove(me, b, pid, Failed, Some(SendError), hints, log, 4, env, 3);
      return;
    }
    if answer.archived {
      log := FinishAndMove(me, b, pid, Failed, Some(Archived), hints, log, 4, env, 3);
      return;
    }
    if answer.responded {
      log := FinishAndMove(me, b, pid, JobStatus.Sent, Some(Status.Sent), hints, log, 4, env, 3);
      return;
    }
    if answer.hasTest {
      log := FinishAndMove(me, b, pid, ManualRequired, Some(SendError), hints, log, 4, env, 3);
      return;
    }
    log := SubmitLetter(me, b, pid, letter, cycle, hints, log, env);
  }

  lemma ClaimStatements(db: Db, me: Id, hint: Hint, cycle: Cycle, b: Id, pid: Id, origin: Id, letter: Letter)
    ensures Act(db, me, hint, ClaimJob(cycle, b, pid, origin, letter)) ==
            if InQueue(db.jobs, pid, b) then (TakeJob(db, me, pid, b), Snapshot(cycle, b, pid, letter))
            else (db, ReleaseLease(b))
  {
  }

  lemma SnapshotStatement(db: Db, me: Id, hint: Hint, cycle: Cycle, b: Id, pid: Id, letter: Letter)
    ensures Act(db, me, hint, Snapshot(cycle, b, pid, letter)) ==
            if pid in db.rows && SnapshotMatches(letter, db.rows[pid])
            then (db.(checks := db.checks[me := db.rows[pid]]), AskHh(cycle, b, pid, letter))
            else
              var queued := pid in db.rows && db.rows[pid].status == QueuedToSend;
              (db, FinishJob(b, pid, Failed, if queued then Some(SendError) else None))
  {
    hide SnapshotMatches;
  }

  lemma NextStatement(db: Db, me: Id, hint: Hint, cycle: Cycle, b: Id)
    requires IsNextJob(db, b, hint.found)
    ensures Act(db, me, hint, NextJob(cycle, b)) ==
            if hint.found == None then (db, ReleaseLease(b))
            else
              var pid := hint.found.value;
              (db, ClaimJob(cycle, b, pid, db.jobs[pid].origin, db.jobs[pid].letter))
  {
    hide QueueEmpty;
  }

  /** The check of the approved snapshot, and the sending. */
  method CheckAndSend(me: Id, b: Id, pid: Id, letter: Letter, cycle: Cycle, hints: nat -> Hint, before: Log,
                      env: nat -> Db)
      returns (log: Log)
    ensures (log, ReleaseLease(b)) == Play(Machine(me, hints), Ends, before, 2, Snapshot(cycle, b, pid, letter), env, 5)
  {
    hide Play, Machine, Act, SnapshotMatches;
    var db, m := env(2), hints(2).mishap;
    SnapshotStatement(db, me, hints(2), cycle, b, pid, letter);
    if pid !in db.rows || !SnapshotMatches(letter, db.rows[pid]) {
      var move := if pid in db.rows && db.rows[pid].status == QueuedToSend then Some(SendError) else None;
      Did(Ends, me, hints, before, 2, Snapshot(cycle, b, pid, letter), env, 5, db, FinishJob(b, pid, Failed, move));
      log := Then(before, Landed(db, db, m));
      if m.Fine? {
        log := FinishAndMove(me, b, pid, Failed, move, hints, log, 3, env, 4);
      }
      return;
    }
    db := db.(checks := db.checks[me := db.rows[pid]]);
    Did(Ends, me, hints, before, 2, Snapshot(cycle, b, pid, letter), env, 5, db, AskHh(cycle, b, pid, letter));
    log := Then(before, Landed(env(2), db, m));
    if m.Fine? {
      log := AskAndSubmit(me, b, pid, letter, cycle, hints, log, env);
    }
  }

  /** From the claim of the job on. */
  method ClaimAndSend(me: Id, b: Id, pid: Id, job: Job, cycle: Cycle, hints: nat -> Hint, before: Log, env: nat -> Db)
      returns (log: Log)
    ensures (log, ReleaseLease(b)) ==
            Play(Machine(me, hints), Ends, before, 1, ClaimJob(cycle, b, pid, job.origin, job.letter), env, 6)
  {
    hide Play, Machine, Act, TakeJob;
    var db, m := env(1), hints(1).mishap;
    ghost var s := ClaimJob(cycle, b, pid, job.origin, job.letter);
    ClaimStatements(db, me, hints(1), cycle, b, pid, job.origin, job.letter);
    if !InQueue(db.jobs, pid, b) {
      Did(Ends, me, hints, before, 1, s, env, 6, db, ReleaseLease(b));
      return Then(before, Landed(db, db, m));
    }
    db := TakeJob(db, me, pid, b);
    Did(Ends, me, hints, before, 1, s, env, 6, db, Snapshot(cycle, b, pid, job.letter));
    log := Then(before, Landed(env(1), db, m));
    if m.Fine? {
      log := CheckAndSend(me, b, pid, job.letter, cycle, hints, log, env);
    }
  }

  method ProcessLeased(me: Id, b: Id, cycle: Cycle, hints: nat -> Hint, env: nat -> Db) returns (log: Log)
    requires IsNextJob(env(0), b, hints(0).found)
    ensures (log, ReleaseLease(b)) == Play(Machine(me, hints), Ends, Nothing, 0, NextJob(cycle, b), env, 7)
  {
    hide Play, Machine, Act, QueueEmpty;
    var db, m, oldest := env(0), hints(0).mishap, hints(0).found;
    NextStatement(db, me, hints(0), cycle, b);
    log := Then(Nothing, Landed(db, db, m));
    if oldest == None {
      Did(Ends, me, hints, Nothing, 0, NextJob(cycle, b), env, 7, db, ReleaseLease(b));
      return;
    }
    var pid := oldest.value;
    var job := db.jobs[pid];
    Did(Ends, me, hints, Nothing, 0, NextJob(cycle, b), env, 7, db, ClaimJob(cycle, b, pid, job.origin, job.letter));
    if m.Fine? {
      log := ClaimAndSend(me, b, pid, job, cycle, hints, log, env);
    }
  }

  // ---------------------------------------------------------------- the end of the cycle

  predicate AtEnd(s: Step) { s.Done? }

  method CompleteAndClear(me: Id, b: Id, hints: nat -> Hint, before: Log, i: nat, env: nat -> Db, ghost n: nat)
      returns (log: Log)
    requires n >= 2
    ensures (log, Done) == Play(Machine(me, hints), AtEnd, before, i, CompleteBatch(b), env, n)
  {
    hide Play, Machine, Complete;
    var db, m := Complete(env(i), b), hints(i).mishap;
    Did(AtEnd, me, hints, before, i, CompleteBatch(b), env, n, db, ClearControl(b));
    log := Then(before, Landed(env(i), db, m));
    if m.Fine? {
      db, m := env(i + 1), hints(i + 1).mishap;
      if db.active == Some(b) {
        db := db.(desired := WantPaused, active := None);
      }
      Did(AtEnd, me, hints, log, i + 1, ClearControl(b), env, n - 1, db, Done);
      log := Then(log, Landed(env(i + 1), db, m));
    }
  }

  /** `_finalize_batch_if_done` (backend/app/services/send_runtime_control.py). */
  method FinalizeBatchIfDone(me: Id, b: Id, hints: nat -> Hint, before: Log, i: nat, env: nat -> Db, ghost n: nat)
      returns (log: Log)
    requires n >= 3
    ensures (log, Done) == Play(Machine(me, hints), AtEnd, before, i, ReadUnfinished(b), env, n)
  {
    hide Play, Machine, Drained, Complete;
    var db, m := env(i), hints(i).mishap;
    log := Then(before, Landed(db, db, m));
    var done := Drained(db.jobs, b);
    Did(AtEnd, me, hints, before, i, ReadUnfinished(b), env, n, db, if done then CompleteBatch(b) else Done);
    if done && m.Fine? {
      log := CompleteAndClear(me, b, hints, log, i + 1, env, n - 1);
    }
  }

  /** After the release: a paused sender pauses its batch. */
  method PauseAndFinalize(me: Id, b: Id, hints: nat -> Hint, before: Log, env: nat -> Db) returns (log: Log)
    ensures (log, Done) == Play(Machine(me, hints), AtEnd, before, 1, AfterRelease(b), env, 5)
  {
    hide Play, Machine, WithStatus;
    var db, m := env(1), hints(1).mishap;
    var pausing := db.desired == WantPaused;
    Did(AtEnd, me, hints, before, 1, AfterRelease(b), env, 5, db, if pausing then PauseBatch(b) else ReadUnfinished(b));
    log := Then(before, Landed(db, db, m));
    if !m.Fine? {
      return;
    }
    if !pausing {
      log := FinalizeBatchIfDone(me, b, hints, log, 2, env, 4);
      return;
    }
    db, m := env(2), hints(2).mishap;
    if b in db.batches && db.batches[b].status != Completed {
      db := db.(batches := WithStatus(db.batches, b, Paused));
    }
    Did(AtEnd, me, hints, log, 2, PauseBatch(b), env, 4, db, ReadUnfinished(b));
    log := Then(log, Landed(env(2), db, m));
    if m.Fine? {
      log := FinalizeBatchIfDone(me, b, hints, log, 3, env, 3);
    }
  }

  /** `release_lease` (backend/app/services/send_runtime_control.py), which may find the lease gone to another. */
  method ReleaseLeaseAndFinalize(me: Id, b: Id, hints: nat -> Hint, env: nat -> Db) returns (log: Log)
    ensures (log, Done) == Play(Machine(me, hints), AtEnd, Nothing, 0, ReleaseLease(b), env, 6)
  {
    hide Play, Machine;
    var db, m := env(0), hints(0).mishap;
    if hints(0).refused {
      Did(AtEnd, me, hints, Nothing, 0, ReleaseLease(b), env, 6, db, Done);
      return Then(Nothing, Landed(db, db, m));
    }
    if db.desired == WantStop {
      db := db.(desired := WantPaused);
    }
    Did(AtEnd, me, hints, Nothing, 0, ReleaseLease(b), env, 6, db, AfterRelease(b));
    log := Then(Nothing, Landed(env(0), db, m));
    if m.Fine? {
      log := PauseAndFinalize(me, b, hints, log, env);
    }
  }
}
