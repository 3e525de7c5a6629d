/** Exact-text approval and the durable send queue (backend/app/services/send_queue_service.py). A request
    is a program counter with what it has read; every database statement is one step. */
module SendQueue {
  import opened Options
  import opened Tables

  datatype Step =
    | ApproveRead(pid: Id)
    | ApproveWrite(pid: Id, text: string)
    | QueueRead(pid: Id)
    | QueueReadJob(pid: Id, row: Row)
    | QueueWrite(pid: Id, letter: Letter, overwrite: bool)
    | QueueMove(pid: Id)
    | QueueRollback(pid: Id)
    | CancelRead(pid: Id)
    | CancelReadJob(pid: Id)
    | CancelWrite(pid: Id)
    | CancelMove(pid: Id)
    | ResetRead(pid: Id)
    | ResetReadJob(pid: Id, row: Row)
    | ResetWrite(pid: Id, previous: JobStatus)
    | ResetMove(pid: Id, previous: JobStatus)
    | ResetRollback(pid: Id, previous: JobStatus)
    /** The request returned (`ok`) or raised. */
    | Done(ok: bool)

  predicate Entry(s: Step) { s.ApproveRead? || s.QueueRead? || s.CancelRead? || s.ResetRead? }

  /** The draft as it would be approved or queued has this hash. */
  predicate HashMatchesDraft(row: Row)
  {
    Strip(row.draft) != "" && row.hash == Some(Sha256(Strip(row.draft)))
  }

  function ApproveAfterRead(pid: Id, row: Row): Step
  {
    if row.status == Approved then Done(HashMatchesDraft(row))
    else if row.status != LetterDraft || Strip(row.draft) == "" then Done(false)
    else ApproveWrite(pid, Strip(row.draft))
  }

  function QueueAfterReads(pid: Id, row: Row, existing: Option<Job>): Step
  {
    if row.status == QueuedToSend && existing.Some? && existing.value.status == Queued then Done(true)
    else if row.status != Approved || !HashMatchesDraft(row) || row.resume == None then Done(false)
    else if existing.Some? && existing.value.status != Cancelled then Done(false)
    else
      var text := Strip(row.draft);
      QueueWrite(pid, Letter(row.resume.value, row.hh, Sha256(text), text), existing.Some?)
  }

  function ResetAfterReads(pid: Id, row: Row, job: Job): Step
  {
    if job.status == Cancelled && row.status == Approved then Done(true)
    else if job.status !in {Failed, ManualRequired} || row.status != SendError then Done(false)
    else if !HashMatchesDraft(row) || Some(job.letter.hash) != row.hash then Done(false)
    else ResetWrite(pid, job.status)
  }

  function JobOf(db: Db, pid: Id): Option<Job> { if pid in db.jobs then Some(db.jobs[pid]) else None }

  function Act(db: Db, me: Id, s: Step): (Db, Step)
  {
    match s
    case ApproveRead(pid) =>
      (db, if pid in db.rows then ApproveAfterRead(pid, db.rows[pid]) else Done(false))
    case ApproveWrite(pid, text) =>
      if Allows(db, pid, {LetterDraft}, None) then (Tables.Approve(db, pid, text), Done(true)) else (db, Done(false))
    case QueueRead(pid) =>
      (db, if pid in db.rows then QueueReadJob(pid, db.rows[pid]) else Done(false))
    case QueueReadJob(pid, row) =>
      (db, QueueAfterReads(pid, row, JobOf(db, pid)))
    case QueueWrite(pid, letter, overwrite) =>
      // an update guarded by `cancelled`, or an insert that the unique key may refuse
      if (if overwrite then JobIs(db, pid, Cancelled) else pid !in db.jobs)
      then (Enqueue(db, me, pid, letter), QueueMove(pid)) else (db, Done(false))
    case QueueMove(pid) =>
      var (now, changed) := Transition(db, pid, {Approved}, QueuedToSend, None);
      (now, if changed then Done(true) else QueueRollback(pid))
    case QueueRollback(pid) =>
      // not guarded by any status
      (if pid in db.jobs then SetJob(db, pid, Cancelled) else db, Done(false))
    case CancelRead(pid) =>
      (db, if pid in db.rows && db.rows[pid].status == QueuedToSend then CancelReadJob(pid) else Done(false))
    case CancelReadJob(pid) =>
      (db, if JobIs(db, pid, Queued) then CancelWrite(pid) else Done(false))
    case CancelWrite(pid) =>
      if JobIs(db, pid, Queued) then (SetJob(db, pid, Cancelled), CancelMove(pid)) else (db, Done(false))
    case CancelMove(pid) =>
      var (now, changed) := Transition(db, pid, {QueuedToSend}, Approved, None);
      (now, Done(changed))
    case ResetRead(pid) =>
      (db, if pid in db.rows then ResetReadJob(pid, db.rows[pid]) else Done(false))
    case ResetReadJob(pid, row) =>
      (db, if pid in db.jobs then ResetAfterReads(pid, row, db.jobs[pid]) else Done(false))
    case ResetWrite(pid, previous) =>
      if JobIs(db, pid, previous) then (SetJob(db, pid, Cancelled), ResetMove(pid, previous)) else (db, Done(false))
    case ResetMove(pid, previous) =>
      var (now, changed) := Transition(db, pid, {SendError}, Approved, None);
      (now, if changed then Done(true) else ResetRollback(pid, previous))
    case ResetRollback(pid, previous) =>
      (if JobIs(db, pid, Cancelled) then SetJob(db, pid, previous) else db, Done(false))
    case Done(_) => (db, s)
  }

  /** What the request's snapshots are worth, whatever the others do. */
  ghost predicate StepOk(db: Db, me: Id, s: Step)
  {
    match s
    case QueueRead(_) => me !in db.queuings
    case QueueReadJob(pid, row) => me !in db.queuings && ReadOk(pid, row, db.approvals)
    case QueueWrite(pid, letter, _) => me !in db.queuings && LetterOk(Queuing(pid, letter), db.approvals)
    case ResetWrite(_, previous) => Finished(previous)
    case ResetMove(_, previous) => Finished(previous)
    case ResetRollback(_, previous) => Finished(previous)
    case _ => true
  }

  lemma EntryOk(db: Db, me: Id, s: Step)
    requires Entry(s) && Unused(db, me)
    ensures StepOk(db, me, s)
  {
  }

  lemma StepOkStays(was: Db, now: Db, k: Id, me: Id, s: Step)
    requires Extends(was, now, k) && me != k && StepOk(was, me, s)
    ensures StepOk(now, me, s)
  {
    hide Narrows, TokensFade, RowsStep;
  }

  lemma LetterToQueue(db: Db, me: Id, pid: Id, row: Row, existing: Option<Job>)
    requires me !in db.queuings && ReadOk(pid, row, db.approvals)
    ensures StepOk(db, me, QueueAfterReads(pid, row, existing))
  {
    StripIsIdempotent(row.draft);
  }

  lemma StepKeeps(db: Db, me: Id, s: Step)
    requires DbOk(db) && StepOk(db, me, s)
    ensures Kept(db, Act(db, me, s).0, me) && StepOk(Act(db, me, s).0, me, Act(db, me, s).1)
    ensures !s.ApproveWrite? && !s.QueueWrite? ==> Quiet(db, Act(db, me, s).0)
  {
    hide DbOk, Extends, Quiet, LetterOk, Strip, SetJob, Transition, Enqueue, Tables.Approve;
    hide ReadOk, QueueAfterReads, HashMatchesDraft;
    NothingChanges(db, me);
    match s {
      case ApproveWrite(pid, text) =>
        if Allows(db, pid, {LetterDraft}, None) { ApproveKeeps(db, me, pid, text); }
      case QueueRead(pid) =>
        if pid in db.rows { RowRead(db, pid); }
      case QueueReadJob(pid, row) => LetterToQueue(db, me, pid, row, JobOf(db, pid));
      case QueueWrite(pid, letter, overwrite) => EnqueueKeeps(db, me, pid, letter);
      case QueueMove(pid) => TransitionKeeps(db, me, pid, {Approved}, QueuedToSend, None);
      case QueueRollback(pid) =>
        if pid in db.jobs { SetJobKeeps(db, me, pid, Cancelled); }
      case CancelWrite(pid) =>
        if pid in db.jobs { SetJobKeeps(db, me, pid, Cancelled); }
      case CancelMove(pid) => TransitionKeeps(db, me, pid, {QueuedToSend}, Approved, None);
      case ResetWrite(pid, previous) =>
        if pid in db.jobs { SetJobKeeps(db, me, pid, Cancelled); }
      case ResetMove(pid, previous) => TransitionKeeps(db, me, pid, {SendError}, Approved, None);
      case ResetRollback(pid, previous) =>
        if pid in db.jobs { SetJobKeeps(db, me, pid, previous); }
      case _ =>
    }
  }
}
