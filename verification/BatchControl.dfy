/** Resume, pause and stop of the sender (`_set_control`, `_create_batch` in
    backend/app/services/send_runtime_control.py). */
module BatchControl {
  import opened Options
  import opened Tables

  datatype Step =
    | ResumeRead
    | ResumeReadBatch(batch: Id)
    | ResumeList
    | ResumeInsert(ids: set<Id>)
    | ResumeAssign(ids: set<Id>)
    | ResumeDrop
    | ResumeTotal(total: nat)
    | ResumeRun(batch: Id)
    | ResumeControl(batch: Id)
    | PauseRead
    | PauseWrite(batch: Id)
    | StopRead
    | StopReadJobs(batch: Id)
    /** The last write of a pause or stop. */
    | WantWrite(desired: Desired)
    | Done(ok: bool)

  predicate Entry(s: Step) { s.ResumeRead? || s.PauseRead? || s.StopRead? }

  function UnbatchedQueued(db: Db): set<Id> { set p | p in db.jobs && Unbatched(db.jobs[p]) }

  predicate AnySending(db: Db, b: Id)
  {
    exists p | p in db.jobs :: db.jobs[p].batch == Some(b) && db.jobs[p].status == JobStatus.Sending
  }

  function AfterAssign(count: nat): Step { if count == 0 then ResumeDrop else ResumeTotal(count) }

  function Paused(db: Db, b: Id): Db
  {
    if b in db.batches && db.batches[b].status != Completed then SetBatch(db, b, BatchStatus.Paused) else db
  }

  function Act(db: Db, me: Id, s: Step): (Db, Step)
  {
    match s
    case ResumeRead => (db, if db.active.Some? then ResumeReadBatch(db.active.value) else ResumeList)
    case ResumeReadBatch(b) =>
      (db, if b !in db.batches || db.batches[b].status == Completed then ResumeList else ResumeRun(b))
    case ResumeList =>
      (db, if UnbatchedQueued(db) == {} then Done(false) else ResumeInsert(UnbatchedQueued(db)))
    case ResumeInsert(ids) => (db.(batches := db.batches[me := Batch(Running, 0)]), ResumeAssign(ids))
    case ResumeAssign(ids) =>
      var now := AssignJobs(db, me, ids);
      (now, AfterAssign(|now.batched[me]|))
    case ResumeDrop => (db.(batches := db.batches - {me}), Done(false))
    case ResumeTotal(total) =>
      (if me in db.batches then db.(batches := db.batches[me := db.batches[me].(total := total)]) else db,
       ResumeRun(me))
    case ResumeRun(b) => (SetBatch(db, b, Running), ResumeControl(b))
    case ResumeControl(b) =>
      // only a new batch is written as the active one
      (SetControl(db, WantRunning, if b == me then Some(me) else db.active), Done(true))
    case PauseRead => (db, if db.active.Some? then PauseWrite(db.active.value) else WantWrite(WantPaused))
    case PauseWrite(b) => (Paused(db, b), WantWrite(WantPaused))
    case StopRead => (db, if db.active.Some? then StopReadJobs(db.active.value) else WantWrite(WantPaused))
    case StopReadJobs(b) => (db, if AnySending(db, b) then WantWrite(WantStop) else PauseWrite(b))
    case WantWrite(desired) => (SetControl(db, desired, db.active), Done(true))
    case Done(_) => (db, s)
  }

  predicate StepOk(db: Db, me: Id, s: Step)
  {
    match s
    case ResumeRead => me !in db.batched
    case ResumeReadBatch(b) => me !in db.batched && b in db.batched
    case ResumeList => me !in db.batched
    case ResumeInsert(_) => me !in db.batched
    case ResumeAssign(_) => me !in db.batched
    case ResumeTotal(total) => me in db.batched && total == |db.batched[me]|
    case ResumeRun(b) => b in db.batched
    case ResumeControl(b) => b in db.batched
    case _ => true
  }

  lemma EntryOk(db: Db, me: Id, s: Step)
    requires Entry(s) && Unused(db, me)
    ensures StepOk(db, me, s)
  {
  }

  lemma StepOkStays(was: Db, now: Db, k: Id, me: Id, s: Step)
    requires Extends(was, now, k) && me != k && StepOk(was, me, s)
    ensures StepOk(now, me, s)
  {
    hide Narrows, RowsStep, TokensFade;
  }

  lemma AssignStepKeeps(db: Db, me: Id, ids: set<Id>)
    requires DbOk(db) && me !in db.batched
    ensures var r := Act(db, me, ResumeAssign(ids)); Kept(db, r.0, me) && Quiet(db, r.0) && StepOk(r.0, me, r.1)
  {
    hide RowsOk, JobsOk, BatchedOk, LettersOk, ClaimsOk, SubmissionsOk, Extends, Quiet, Drained;
    assert me in db.batches ==> BatchOk(me, db.batches[me], db.batched, db.completed);
    AssignKeeps(db, me, ids);
  }

  lemma TotalKeeps(db: Db, me: Id, total: nat)
    requires DbOk(db) && StepOk(db, me, ResumeTotal(total))
    ensures Kept(db, Act(db, me, ResumeTotal(total)).0, me) && Quiet(db, Act(db, me, ResumeTotal(total)).0)
  {
    hide RowsOk, JobsOk, BatchedOk, LettersOk, ClaimsOk, SubmissionsOk, Extends, Quiet, Drained;
    NothingChanges(db, me);
    if me in db.batches {
      assert BatchOk(me, db.batches[me], db.batched, db.completed);
      SetTotalKeeps(db, me, me, db.batches[me].(total := total));
    }
  }

  lemma ActiveIsAssigned(db: Db)
    requires DbOk(db)
    ensures db.active.Some? ==> db.active.value in db.batched
  {
  }

  lemma NewBatchOk(db: Db, me: Id)
    ensures BatchOk(me, Batch(Running, 0), db.batched, db.completed)
  {
  }

  lemma StepKeeps(db: Db, me: Id, s: Step)
    requires DbOk(db) && StepOk(db, me, s)
    ensures Kept(db, Act(db, me, s).0, me) && StepOk(Act(db, me, s).0, me, Act(db, me, s).1)
    ensures Quiet(db, Act(db, me, s).0)
  {
    hide DbOk, Extends, Quiet, WithStatus, AssignJobs, UnbatchedQueued, AnySending, BatchOk;
    NothingChanges(db, me);
    ActiveIsAssigned(db);
    match s {
      case ResumeInsert(ids) =>
        NewBatchOk(db, me);
        SetTotalKeeps(db, me, me, Batch(Running, 0));
      case ResumeAssign(ids) => AssignStepKeeps(db, me, ids);
      case ResumeDrop => DropBatchKeeps(db, me, me);
      case ResumeTotal(total) => TotalKeeps(db, me, total);
      case ResumeRun(b) => SetBatchKeeps(db, me, b, Running);
      case ResumeControl(b) => SetControlKeeps(db, me, WantRunning, if b == me then Some(me) else db.active);
      case PauseWrite(b) => SetBatchKeeps(db, me, b, BatchStatus.Paused);
      case WantWrite(desired) => SetControlKeeps(db, me, desired, db.active);
      case _ =>
    }
  }
}
