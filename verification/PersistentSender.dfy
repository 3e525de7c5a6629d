/** The sender of approved letters (backend/app/services/persistent_sender.py) with the end of its cycle
    (`release_lease` and `_finalize_batch_if_done` in backend/app/services/send_runtime_control.py). */
module PersistentSender {
  import opened Options
  import opened Tables
  import opened Enrichment

  /** What HH answers when asked for the vacancy; `Raises` is any exception that is not handled. */
  datatype Answer = VacancyGone | SessionExpired | Raises | Here(archived: bool, responded: bool, hasTest: bool)

  /** What comes of a submit: sent, or not sent by its own account and then reconciled with HH. */
  datatype Outcome = SubmitSent | SubmitUnsure(respondedAfter: bool) | SubmitRaises

  datatype Cycle = Cycle(answer: Answer, outcome: Outcome)

  datatype Step =
    | Acquire(cycle: Cycle)
    | ReadBatch(cycle: Cycle)
    | NextJob(cycle: Cycle, batch: Id)
    | ClaimJob(cycle: Cycle, batch: Id, pid: Id, origin: Id, letter: Letter)
    | Snapshot(cycle: Cycle, batch: Id, pid: Id, letter: Letter)
    | AskHh(cycle: Cycle, batch: Id, pid: Id, letter: Letter)
    | Submit(cycle: Cycle, batch: Id, pid: Id, letter: Letter)
    | FinishJob(batch: Id, pid: Id, end: JobStatus, move: Option<Status>)
    | MovePipeline(batch: Id, pid: Id, status: Status)
    | ReleaseLease(batch: Id)
    | AfterRelease(batch: Id)
    | PauseBatch(batch: Id)
    | ReadUnfinished(batch: Id)
    | CompleteBatch(batch: Id)
    | ClearControl(batch: Id)
    | Done

  predicate Entry(s: Step) { s.Acquire? }

  function AfterSnapshot(cycle: Cycle, b: Id, pid: Id, letter: Letter, row: Option<Row>): Step
  {
    if row.Some? && SnapshotMatches(letter, row.value) then AskHh(cycle, b, pid, letter)
    else FinishJob(b, pid, Failed, if row.Some? && row.value.status == QueuedToSend then Some(SendError) else None)
  }

  function AfterAnswer(cycle: Cycle, b: Id, pid: Id, letter: Letter): Step
  {
    match cycle.answer
    case VacancyGone => FinishJob(b, pid, Failed, Some(Archived))
    case SessionExpired => FinishJob(b, pid, Failed, Some(SendError))
    case Raises => ReleaseLease(b)
    case Here(archived, responded, hasTest) =>
      if archived then FinishJob(b, pid, Failed, Some(Archived))
      else if responded then FinishJob(b, pid, JobStatus.Sent, Some(Status.Sent))
      else if hasTest then FinishJob(b, pid, ManualRequired, Some(SendError))
      else Submit(cycle, b, pid, letter)
  }

  function AfterSubmit(outcome: Outcome, b: Id, pid: Id): Step
  {
    match outcome
    case SubmitSent => FinishJob(b, pid, JobStatus.Sent, Some(Status.Sent))
    case SubmitUnsure(responded) =>
      if responded then FinishJob(b, pid, JobStatus.Sent, Some(Status.Sent))
      else FinishJob(b, pid, Failed, Some(SendError))
    case SubmitRaises => ReleaseLease(b)
  }

  function RowOf(db: Db, pid: Id): Option<Row> { if pid in db.rows then Some(db.rows[pid]) else None }

  /** No job is queued in the batch. */
  predicate QueueEmpty(db: Db, b: Id) { forall p | p in db.jobs :: !InQueue(db.jobs, p, b) }

  function Act(db: Db, me: Id, hint: Hint, s: Step): (Db, Step)
  {
    match s
    case Acquire(cycle) =>
      // the lease may be held, or the interval not over
      (db, if db.desired == WantRunning && db.active.Some? && !hint.refused then ReadBatch(cycle) else Done)
    case ReadBatch(cycle) =>
      (db, if db.active.Some? then NextJob(cycle, db.active.value) else Done)
    case NextJob(cycle, b) =>
      if hint.found.Some? && InQueue(db.jobs, hint.found.value, b) then
        var job := db.jobs[hint.found.value];
        (db, ClaimJob(cycle, b, hint.found.value, job.origin, job.letter))
      else (db, if QueueEmpty(db, b) then ReleaseLease(b) else s)
    case ClaimJob(cycle, b, pid, _, letter) =>
      if InQueue(db.jobs, pid, b) then (TakeJob(db, me, pid, b), Snapshot(cycle, b, pid, letter))
      else (db, ReleaseLease(b))
    case Snapshot(cycle, b, pid, letter) =>
      var next := AfterSnapshot(cycle, b, pid, letter, RowOf(db, pid));
      (if next.AskHh? && pid in db.rows then db.(checks := db.checks[me := db.rows[pid]]) else db, next)
    case AskHh(cycle, b, pid, letter) => (db, AfterAnswer(cycle, b, pid, letter))
    case Submit(cycle, b, pid, letter) =>
      (db.(submissions := db.submissions[me := Submission(pid, letter)]), AfterSubmit(cycle.outcome, b, pid))
    case FinishJob(b, pid, status, move) =>
      (if JobIs(db, pid, JobStatus.Sending) then SetJob(db, pid, status) else db,
       if move.Some? then MovePipeline(b, pid, move.value) else ReleaseLease(b))
    case MovePipeline(b, pid, status) =>
      (Transition(db, pid, {QueuedToSend}, status, None).0, ReleaseLease(b))
    case ReleaseLease(b) =>
      // the lease may have expired and gone to another owner
      if hint.refused then (db, Done)
      else (SetControl(db, if db.desired == WantStop then WantPaused else db.desired, db.active), AfterRelease(b))
    case AfterRelease(b) => (db, if db.desired == WantPaused then PauseBatch(b) else ReadUnfinished(b))
    case PauseBatch(b) =>
      (if b in db.batches && db.batches[b].status != Completed then SetBatch(db, b, Paused) else db, ReadUnfinished(b))
    case ReadUnfinished(b) => (db, if Drained(db.jobs, b) then CompleteBatch(b) else Done)
    case CompleteBatch(b) => (Complete(db, b), ClearControl(b))
    case ClearControl(b) =>
      (if db.active == Some(b) then SetControl(db, WantPaused, None) else db, Done)
    case Done => (db, s)
  }

  /** Inside the `try` of `process_next`, whose `finally` releases the lease. */
  predicate Leased(s: Step)
  {
    s.NextJob? || s.ClaimJob? || s.Snapshot? || s.AskHh? || s.Submit? || s.FinishJob? || s.MovePipeline?
  }

  /** Where the cycle goes when its statement is cancelled or raises. */
  function Interrupted(s: Step): Step { if Leased(s) then ReleaseLease(s.batch) else Done }

  /** The job as it was read: the batch pins its origin, the origin its letter. */
  ghost predicate ReadJob(db: Db, b: Id, pid: Id, origin: Id, letter: Letter)
  {
    InBatch(db.batched, b, pid, origin) && origin in db.queuings && db.queuings[origin] == Queuing(pid, letter)
  }

  /** The request holds a claim on the job with this letter. */
  ghost predicate Holds(db: Db, me: Id, b: Id, pid: Id, letter: Letter)
  {
    && me in db.claims && db.claims[me].pid == pid && db.claims[me].batch == b
    && ReadJob(db, b, pid, db.claims[me].origin, letter)
  }

  predicate Fresh(db: Db, me: Id) { me !in db.claims && me !in db.checks && me !in db.submissions }

  ghost predicate StepOk(db: Db, me: Id, s: Step)
  {
    match s
    case Acquire(_) => Fresh(db, me)
    case ReadBatch(_) => Fresh(db, me)
    case NextJob(_, b) => Fresh(db, me) && b in db.batched
    case ClaimJob(_, b, pid, origin, letter) => Fresh(db, me) && ReadJob(db, b, pid, origin, letter)
    case Snapshot(_, b, pid, letter) => Holds(db, me, b, pid, letter) && me !in db.checks && me !in db.submissions
    case AskHh(_, b, pid, letter) =>
      && Holds(db, me, b, pid, letter) && me !in db.submissions
      && me in db.checks && SnapshotMatches(letter, db.checks[me])
    case Submit(_, b, pid, letter) =>
      && Holds(db, me, b, pid, letter) && me !in db.submissions
      && me in db.checks && SnapshotMatches(letter, db.checks[me])
    case FinishJob(b, _, status, move) =>
      b in db.batched && Finished(status) && (move.Some? ==> move.value in {SendError, Archived, Status.Sent})
    case MovePipeline(b, _, status) => b in db.batched && status in {SendError, Archived, Status.Sent}
    case ReleaseLease(b) => b in db.batched
    case AfterRelease(b) => b in db.batched
    case PauseBatch(b) => b in db.batched
    case ReadUnfinished(b) => b in db.batched
    case CompleteBatch(b) => b in db.batched && Drained(db.jobs, b)
    case ClearControl(b) => b in db.batched
    case Done => true
  }

  lemma EntryOk(db: Db, me: Id, s: Step)
    requires Entry(s) && Unused(db, me)
    ensures StepOk(db, me, s)
  {
  }

  lemma DrainedStays(was: Db, now: Db, b: Id)
    requires Narrows(was.jobs, now.jobs, was.batched) && b in was.batched && Drained(was.jobs, b)
    ensures Drained(now.jobs, b)
  {
    forall p | p in now.jobs ensures !Unfinished(now.jobs, p, b) {
      assert Unfinished(now.jobs, p, b) ==> Unfinished(was.jobs, p, b);
    }
  }

  lemma StepOkStays(was: Db, now: Db, k: Id, me: Id, s: Step)
    requires Extends(was, now, k) && me != k && StepOk(was, me, s)
    ensures StepOk(now, me, s)
  {
    hide Narrows, RowsStep, TokensFade, SnapshotMatches, Drained;
    if s.CompleteBatch? {
      DrainedStays(was, now, s.batch);
    }
  }

  /** A successful claim takes the very letter that was read before it. */
  lemma ClaimIsCurrent(db: Db, b: Id, pid: Id, origin: Id, letter: Letter)
    requires DbOk(db) && ReadJob(db, b, pid, origin, letter) && InQueue(db.jobs, pid, b)
    ensures db.jobs[pid].origin == origin && db.jobs[pid].letter == letter
  {
    hide RowsOk, LettersOk, ClaimsOk, SubmissionsOk, BatchesOk, Unclaimed;
    assert JobOk(pid, db.jobs[pid], db.queuings, db.batched, db.claims);
  }

  lemma JobRead(db: Db, b: Id, pid: Id)
    requires DbOk(db) && InQueue(db.jobs, pid, b)
    ensures ReadJob(db, b, pid, db.jobs[pid].origin, db.jobs[pid].letter)
  {
    hide RowsOk, LettersOk, ClaimsOk, SubmissionsOk, BatchesOk, Unclaimed;
    assert JobOk(pid, db.jobs[pid], db.queuings, db.batched, db.claims);
  }

  lemma ClaimKeeps(db: Db, me: Id, cycle: Cycle, b: Id, pid: Id, origin: Id, letter: Letter)
    requires DbOk(db) && StepOk(db, me, ClaimJob(cycle, b, pid, origin, letter)) && InQueue(db.jobs, pid, b)
    ensures var now := TakeJob(db, me, pid, b); Kept(db, now, me) && StepOk(now, me, Snapshot(cycle, b, pid, letter))
  {
    hide DbOk, Extends, Quiet;
    ClaimIsCurrent(db, b, pid, origin, letter);
    TakeJobKeeps(db, me, pid, b);
  }

  lemma SubmitStepKeeps(db: Db, me: Id, cycle: Cycle, b: Id, pid: Id, letter: Letter)
    requires DbOk(db) && StepOk(db, me, Submit(cycle, b, pid, letter))
    ensures Kept(db, db.(submissions := db.submissions[me := Submission(pid, letter)]), me)
  {
    hide DbOk, Extends, Quiet, SnapshotMatches;
    SubmitKeeps(db, me, Submission(pid, letter));
  }

  lemma ActiveIsAssigned(db: Db)
    requires DbOk(db)
    ensures db.active.Some? ==> db.active.value in db.batched
  {
  }

  lemma BatchStays(was: Db, now: Db, me: Id, b: Id)
    requires Kept(was, now, me) && b in was.batched
    ensures b in now.batched
  {
  }

  /** From the end of a job on. */
  predicate Closing(s: Step)
  {
    s.FinishJob? || s.MovePipeline? || s.ReleaseLease? || s.PauseBatch? || s.CompleteBatch? || s.ClearControl?
  }

  lemma ClosingIsKept(db: Db, me: Id, hint: Hint, s: Step)
    requires DbOk(db) && StepOk(db, me, s) && Closing(s)
    ensures Kept(db, Act(db, me, hint, s).0, me) && Quiet(db, Act(db, me, hint, s).0)
  {
    hide DbOk, Extends, Quiet, Transition, SetJob, TakeJob, SetBatch, Complete, SetControl, SnapshotMatches, Drained;
    NothingChanges(db, me);
    match s {
      case FinishJob(b, pid, status, move) =>
        if pid in db.jobs { SetJobKeeps(db, me, pid, status); }
      case MovePipeline(b, pid, status) => TransitionKeeps(db, me, pid, {QueuedToSend}, status, None);
      case ReleaseLease(b) =>
        ActiveIsAssigned(db);
        SetControlKeeps(db, me, if db.desired == WantStop then WantPaused else db.desired, db.active);
      case PauseBatch(b) => SetBatchKeeps(db, me, b, Paused);
      case CompleteBatch(b) => CompleteKeeps(db, me, b);
      case ClearControl(b) => SetControlKeeps(db, me, WantPaused, None);
    }
  }

  lemma ClosingKeeps(db: Db, me: Id, hint: Hint, s: Step)
    requires DbOk(db) && StepOk(db, me, s) && Closing(s)
    ensures Kept(db, Act(db, me, hint, s).0, me) && StepOk(Act(db, me, hint, s).0, me, Act(db, me, hint, s).1)
    ensures Quiet(db, Act(db, me, hint, s).0)
  {
    hide DbOk, Extends, Quiet, Transition, SetJob, SetBatch, Complete, SetControl;
    hide SnapshotMatches, Drained, Holds, Fresh;
    ClosingIsKept(db, me, hint, s);
    BatchStays(db, Act(db, me, hint, s).0, me, s.batch);
  }

  predicate Sending(s: Step) { s.Snapshot? || s.AskHh? || s.Submit? }

  lemma SendingKeeps(db: Db, me: Id, hint: Hint, s: Step)
    requires DbOk(db) && StepOk(db, me, s) && Sending(s)
    ensures Kept(db, Act(db, me, hint, s).0, me) && StepOk(Act(db, me, hint, s).0, me, Act(db, me, hint, s).1)
    ensures !s.ClaimJob? && !s.Snapshot? && !s.Submit? ==> Quiet(db, Act(db, me, hint, s).0)
  {
    hide DbOk, Extends, Quiet, SnapshotMatches;
    NothingChanges(db, me);
    match s {
      case Snapshot(cycle, b, pid, letter) =>
        if pid in db.rows { CheckKeeps(db, me, db.rows[pid]); }
      case Submit(cycle, b, pid, letter) => SubmitStepKeeps(db, me, cycle, b, pid, letter);
      case _ =>
    }
  }

  lemma OpeningKeeps(db: Db, me: Id, hint: Hint, s: Step)
    requires DbOk(db) && StepOk(db, me, s) && !Closing(s) && !Sending(s)
    ensures Kept(db, Act(db, me, hint, s).0, me) && StepOk(Act(db, me, hint, s).0, me, Act(db, me, hint, s).1)
    ensures !s.ClaimJob? && !s.Snapshot? && !s.Submit? ==> Quiet(db, Act(db, me, hint, s).0)
  {
    hide DbOk, Extends, Quiet, TakeJob, Drained, QueueEmpty, SnapshotMatches;
    NothingChanges(db, me);
    match s {
      case ReadBatch(_) => ActiveIsAssigned(db);
      case NextJob(cycle, b) =>
        if hint.found.Some? && InQueue(db.jobs, hint.found.value, b) { JobRead(db, b, hint.found.value); }
      case ClaimJob(cycle, b, pid, origin, letter) =>
        if InQueue(db.jobs, pid, b) { ClaimKeeps(db, me, cycle, b, pid, origin, letter); }
      case _ =>
    }
  }

  lemma StepKeeps(db: Db, me: Id, hint: Hint, s: Step)
    requires DbOk(db) && StepOk(db, me, s)
    ensures Kept(db, Act(db, me, hint, s).0, me) && StepOk(Act(db, me, hint, s).0, me, Act(db, me, hint, s).1)
    ensures !s.ClaimJob? && !s.Snapshot? && !s.Submit? ==> Quiet(db, Act(db, me, hint, s).0)
  {
    hide DbOk, Extends, Quiet, StepOk, Act;
    if Closing(s) {
      ClosingKeeps(db, me, hint, s);
    } else if Sending(s) {
      SendingKeeps(db, me, hint, s);
    } else {
      OpeningKeeps(db, me, hint, s);
    }
  }

  lemma InterruptedOk(was: Db, now: Db, me: Id, s: Step)
    requires Kept(was, now, me) && StepOk(was, me, s)
    ensures StepOk(now, me, Interrupted(s))
  {
    hide DbOk, Narrows, RowsStep, TokensFade, SnapshotMatches, Drained;
  }
}
