/** What becomes of a row and its job when a call of the send queue is left alone with them: the call succeeds exactly
    if it may, and then has done it all; otherwise nothing has changed. */
module QueueOutcomes {
  import opened Options
  import opened Tables
  import opened Enrichment
  import opened Funnel
  import opened Interleaving
  import opened SendQueue

  /** The row has a letter, and its hash is the hash of this letter. */
  predicate HasApprovedText(row: Row)
  {
    Strip(row.draft) != "" && row.hash == Some(Sha256(Strip(row.draft)))
  }

  // ---------------------------------------------------------------- approve_letter

  predicate MayApprove(row: Row) { row.status == LetterDraft && Strip(row.draft) != "" }

  lemma ApproveOnPair(db: Db, me: Id, pid: Id, row: Row, job: Option<Job>)
    requires DbOk(db) && PairOf(pid)(db) == Pair(Some(row), job) && MayApprove(row)
    ensures Queue.Act(db, me, ApproveRead(pid)) == (db, ApproveWrite(pid, Strip(row.draft)))
    ensures var (now, next) := Queue.Act(db, me, ApproveWrite(pid, Strip(row.draft)));
            && PairOf(pid)(now) == Pair(Some(row.(status := Approved, hash := Some(Sha256(Strip(row.draft))))), job)
            && next == Done(true)
  {
    hide DbOk, Strip;
    NoToken(db, pid);
  }

  lemma ApproveRefused(db: Db, me: Id, pid: Id, was: Pair)
    requires PairOf(pid)(db) == was && !(was.row.Some? && MayApprove(was.row.value))
    ensures Queue.Act(db, me, ApproveRead(pid)) ==
            (db, Done(was.row.Some? && was.row.value.status == Approved && HasApprovedText(was.row.value)))
  {
    hide Strip;
  }

  /** The stripped draft of a row in letter_draft is approved under its hash; a row approved already stays. */
  lemma ApproveOutcome(c: Call, pid: Id, was: Pair) returns (k: nat, ok: bool)
    requires LeftAlone(c, PairOf(pid), 2) && IsAt(c, 0, OfQueue(ApproveRead(pid)))
    requires PairOf(pid)(Reached(c, 0).db) == was
    ensures k <= 2 && IsAt(c, k, OfQueue(Done(ok)))
    ensures ok <==> was.row.Some? && (|| MayApprove(was.row.value)
                                      || (was.row.value.status == Approved && HasApprovedText(was.row.value)))
    ensures PairOf(pid)(Reached(c, k).db) ==
            if was.row.Some? && MayApprove(was.row.value)
            then was.(row := Some(was.row.value.(status := Approved, hash := Some(Sha256(Strip(was.row.value.draft))))))
            else was
  {
    hide LeftAlone, IsAt, Reached, DbOk, ProcOk, Queue.Act, PairOf, MayApprove, HasApprovedText;
    var db := Turn(c, PairOf(pid), 2, 0, OfQueue(ApproveRead(pid)));
    if was.row.Some? && MayApprove(was.row.value) {
      var row := was.row.value;
      ApproveOnPair(db, c.me, pid, row, was.job);
      db := Turn(c, PairOf(pid), 2, 1, OfQueue(ApproveWrite(pid, Strip(row.draft))));
      ApproveOnPair(db, c.me, pid, row, was.job);
      k, ok := 2, true;
      assert !(row.status == Approved) by { MayApproveIsDraft(row); }
    } else {
      ApproveRefused(db, c.me, pid, was);
      k, ok := 1, was.row.Some? && was.row.value.status == Approved && HasApprovedText(was.row.value);
    }
  }

  lemma MayApproveIsDraft(row: Row)
    requires MayApprove(row)
    ensures row.status == LetterDraft
  {
  }

  // ---------------------------------------------------------------- queue_approved

  predicate MayQueue(was: Pair)
  {
    && was.row.Some? && was.row.value.status == Approved && HasApprovedText(was.row.value) && was.row.value.resume.Some?
    && (was.job.Some? ==> was.job.value.status == Cancelled)
  }

  predicate IsQueued(was: Pair)
  {
    was.row.Some? && was.row.value.status == QueuedToSend && was.job.Some? && was.job.value.status == Queued
  }

  /** The job that queueing makes of an approved row: its resume, its vacancy, its approved text, in no batch. */
  function JobFor(row: Row, me: Id): Job
    requires row.resume.Some?
  {
    Job(Letter(row.resume.value, row.hh, Sha256(Strip(row.draft)), Strip(row.draft)), None, Queued, me)
  }

  lemma QueueReadsOnPair(db: Db, me: Id, pid: Id, was: Pair)
    requires PairOf(pid)(db) == was
    ensures Queue.Act(db, me, QueueRead(pid)) ==
            (db, if was.row.Some? then QueueReadJob(pid, was.row.value) else Done(false))
    ensures was.row.Some? ==>
              Queue.Act(db, me, QueueReadJob(pid, was.row.value)) ==
              (db, if MayQueue(was) then QueueWrite(pid, JobFor(was.row.value, me).letter, was.job.Some?)
                   else Done(IsQueued(was)))
  {
    hide Strip;
  }

  lemma QueueWritesOnPair(db: Db, me: Id, pid: Id, was: Pair)
    requires PairOf(pid)(db) == was && MayQueue(was)
    ensures var (now, next) := Queue.Act(db, me, QueueWrite(pid, JobFor(was.row.value, me).letter, was.job.Some?));
            PairOf(pid)(now) == was.(job := Some(JobFor(was.row.value, me))) && next == QueueMove(pid)
  {
    hide Strip;
  }

  lemma QueueMovesOnPair(db: Db, me: Id, pid: Id, row: Row, job: Option<Job>)
    requires DbOk(db) && PairOf(pid)(db) == Pair(Some(row), job) && row.status == Approved
    ensures var (now, next) := Queue.Act(db, me, QueueMove(pid));
            PairOf(pid)(now) == Pair(Some(row.(status := QueuedToSend)), job) && next == Done(true)
  {
    hide DbOk;
    NoToken(db, pid);
  }

  lemma MayQueueIsApproved(was: Pair)
    requires MayQueue(was)
    ensures was.row.Some? && was.row.value.status == Approved && was.row.value.resume.Some? && !IsQueued(was)
  {
  }

  /** An approved row whose hash is that of its text, with a resume and no job but a cancelled one, gets a queued job
      with exactly its letter and goes to queued_to_send. */
  lemma QueueOutcome(c: Call, pid: Id, was: Pair) returns (k: nat, ok: bool)
    requires LeftAlone(c, PairOf(pid), 4) && IsAt(c, 0, OfQueue(QueueRead(pid))) && PairOf(pid)(Reached(c, 0).db) == was
    ensures k <= 4 && IsAt(c, k, OfQueue(Done(ok)))
    ensures ok <==> MayQueue(was) || IsQueued(was)
    ensures PairOf(pid)(Reached(c, k).db) ==
            if MayQueue(was) then Pair(Some(was.row.value.(status := QueuedToSend)), Some(JobFor(was.row.value, c.me)))
            else was
  {
    hide LeftAlone, IsAt, Reached, DbOk, ProcOk, Queue.Act, PairOf, MayQueue, IsQueued, JobFor;
    var db := Turn(c, PairOf(pid), 4, 0, OfQueue(QueueRead(pid)));
    QueueReadsOnPair(db, c.me, pid, was);
    if MayQueue(was) {
      MayQueueIsApproved(was);
      var row := was.row.value;
      db := Turn(c, PairOf(pid), 4, 1, OfQueue(QueueReadJob(pid, row)));
      QueueReadsOnPair(db, c.me, pid, was);
      db := Turn(c, PairOf(pid), 4, 2, OfQueue(QueueWrite(pid, JobFor(row, c.me).letter, was.job.Some?)));
      QueueWritesOnPair(db, c.me, pid, was);
      db := Turn(c, PairOf(pid), 4, 3, OfQueue(QueueMove(pid)));
      QueueMovesOnPair(db, c.me, pid, row, Some(JobFor(row, c.me)));
      k, ok := 4, true;
    } else if was.row.Some? {
      db := Turn(c, PairOf(pid), 4, 1, OfQueue(QueueReadJob(pid, was.row.value)));
      QueueReadsOnPair(db, c.me, pid, was);
      k, ok := 2, IsQueued(was);
    } else {
      k, ok := 1, false;
      assert !IsQueued(was) by { NoRowNotQueued(was); }
    }
  }

  lemma NoRowNotQueued(was: Pair)
    requires was.row == None
    ensures !IsQueued(was)
  {
  }

  lemma QueueRollsBackOnPair(db: Db, me: Id, pid: Id, was: Pair, job: Job)
    requires PairOf(pid)(db) == was && was.job == Some(job)
    ensures was.row.Some? && was.row.value.status != Approved ==>
              Queue.Act(db, me, QueueMove(pid)) == (db, QueueRollback(pid))
    ensures var (now, next) := Queue.Act(db, me, QueueRollback(pid));
            PairOf(pid)(now) == was.(job := Some(job.(status := Cancelled))) && next == Done(false)
  {
  }

  /** If the row has left approved when it is to be moved, the job is cancelled and the call fails. */
  lemma QueueRollsBack(c: Call, i: nat, pid: Id, was: Pair, job: Job)
    requires LeftAlone(c, PairOf(pid), i + 2) && IsAt(c, i, OfQueue(QueueMove(pid)))
    requires PairOf(pid)(Reached(c, i).db) == was && was.row.Some? && was.row.value.status != Approved
    requires was.job == Some(job)
    ensures IsAt(c, i + 2, OfQueue(Done(false)))
    ensures PairOf(pid)(Reached(c, i + 2).db) == was.(job := Some(job.(status := Cancelled)))
  {
    hide LeftAlone, IsAt, Reached, DbOk, ProcOk, Queue.Act, PairOf;
    var db := Turn(c, PairOf(pid), i + 2, i, OfQueue(QueueMove(pid)));
    QueueRollsBackOnPair(db, c.me, pid, was, job);
    db := Turn(c, PairOf(pid), i + 2, i + 1, OfQueue(QueueRollback(pid)));
    QueueRollsBackOnPair(db, c.me, pid, was, job);
  }

  // ---------------------------------------------------------------- cancel_queued

  lemma CancelReadsOnPair(db: Db, me: Id, pid: Id, was: Pair)
    requires PairOf(pid)(db) == was
    ensures was.row.Some? && was.row.value.status == QueuedToSend ==>
              && Queue.Act(db, me, CancelRead(pid)) == (db, CancelReadJob(pid))
              && Queue.Act(db, me, CancelReadJob(pid)) == (db, if IsQueued(was) then CancelWrite(pid) else Done(false))
    ensures !(was.row.Some? && was.row.value.status == QueuedToSend) ==>
              Queue.Act(db, me, CancelRead(pid)) == (db, Done(false)) && !IsQueued(was)
  {
  }

  lemma CancelWriteOnPair(db: Db, me: Id, pid: Id, was: Pair)
    requires PairOf(pid)(db) == was && was.job.Some? && was.job.value.status == Queued
    ensures var (now, next) := Queue.Act(db, me, CancelWrite(pid));
            PairOf(pid)(now) == was.(job := Some(was.job.value.(status := Cancelled))) && next == CancelMove(pid)
  {
  }

  lemma CancelMoveOnPair(db: Db, me: Id, pid: Id, row: Row, job: Option<Job>)
    requires DbOk(db) && PairOf(pid)(db) == Pair(Some(row), job) && row.status == QueuedToSend
    ensures var (now, next) := Queue.Act(db, me, CancelMove(pid));
            PairOf(pid)(now) == Pair(Some(row.(status := Approved)), job) && next == Done(true)
  {
    hide DbOk;
    NoToken(db, pid);
  }

  /** A queued job of a queued row is cancelled and the row is approved again. */
  lemma CancelOutcome(c: Call, pid: Id, was: Pair) returns (k: nat, ok: bool)
    requires LeftAlone(c, PairOf(pid), 4) && IsAt(c, 0, OfQueue(CancelRead(pid)))
    requires PairOf(pid)(Reached(c, 0).db) == was
    ensures k <= 4 && IsAt(c, k, OfQueue(Done(ok)))
    ensures ok <==> IsQueued(was)
    ensures PairOf(pid)(Reached(c, k).db) ==
            if IsQueued(was)
            then Pair(Some(was.row.value.(status := Approved)), Some(was.job.value.(status := Cancelled))) else was
  {
    hide LeftAlone, IsAt, Reached, DbOk, ProcOk, Queue.Act, PairOf;
    var db := Turn(c, PairOf(pid), 4, 0, OfQueue(CancelRead(pid)));
    CancelReadsOnPair(db, c.me, pid, was);
    k, ok := 1, false;
    if was.row.Some? && was.row.value.status == QueuedToSend {
      db := Turn(c, PairOf(pid), 4, 1, OfQueue(CancelReadJob(pid)));
      CancelReadsOnPair(db, c.me, pid, was);
      k := 2;
      if IsQueued(was) {
        var row, job := was.row.value, was.job.value;
        db := Turn(c, PairOf(pid), 4, 2, OfQueue(CancelWrite(pid)));
        CancelWriteOnPair(db, c.me, pid, was);
        db := Turn(c, PairOf(pid), 4, 3, OfQueue(CancelMove(pid)));
        CancelMoveOnPair(db, c.me, pid, row, Some(job.(status := Cancelled)));
        k, ok := 4, true;
      }
    }
  }

  // ---------------------------------------------------------------- reset_failed

  predicate IsReset(was: Pair)
  {
    was.row.Some? && was.job.Some? && was.job.value.status == Cancelled && was.row.value.status == Approved
  }

  /** A failed or manual job whose letter is still the approved text of a row in send_error. */
  predicate MayReset(was: Pair)
  {
    && was.row.Some? && was.row.value.status == SendError && HasApprovedText(was.row.value)
    && was.job.Some? && (was.job.value.status == Failed || was.job.value.status == ManualRequired)
    && was.row.value.hash == Some(was.job.value.letter.hash)
  }

  lemma ResetReadsOnPair(db: Db, me: Id, pid: Id, was: Pair)
    requires PairOf(pid)(db) == was
    ensures Queue.Act(db, me, ResetRead(pid)) ==
            (db, if was.row.Some? then ResetReadJob(pid, was.row.value) else Done(false))
    ensures was.row.Some? ==>
              Queue.Act(db, me, ResetReadJob(pid, was.row.value)) ==
              (db, if MayReset(was) then ResetWrite(pid, was.job.value.status) else Done(IsReset(was)))
  {
    hide Strip;
  }

  lemma ResetWriteOnPair(db: Db, me: Id, pid: Id, was: Pair)
    requires PairOf(pid)(db) == was && was.job.Some?
    ensures var previous := was.job.value.status;
            var (now, next) := Queue.Act(db, me, ResetWrite(pid, previous));
            && PairOf(pid)(now) == was.(job := Some(was.job.value.(status := Cancelled)))
            && next == ResetMove(pid, previous)
  {
  }

  lemma ResetMoveOnPair(db: Db, me: Id, pid: Id, row: Row, job: Option<Job>, previous: JobStatus)
    requires DbOk(db) && PairOf(pid)(db) == Pair(Some(row), job) && row.status == SendError
    ensures var (now, next) := Queue.Act(db, me, ResetMove(pid, previous));
            PairOf(pid)(now) == Pair(Some(row.(status := Approved)), job) && next == Done(true)
  {
    hide DbOk;
    NoToken(db, pid);
  }

  /** Such a job is cancelled and its row approved again; a row reset already stays. */
  lemma ResetOutcome(c: Call, pid: Id, was: Pair) returns (k: nat, ok: bool)
    requires LeftAlone(c, PairOf(pid), 4) && IsAt(c, 0, OfQueue(ResetRead(pid))) && PairOf(pid)(Reached(c, 0).db) == was
    ensures k <= 4 && IsAt(c, k, OfQueue(Done(ok)))
    ensures ok <==> MayReset(was) || IsReset(was)
    ensures PairOf(pid)(Reached(c, k).db) ==
            if MayReset(was)
            then Pair(Some(was.row.value.(status := Approved)), Some(was.job.value.(status := Cancelled))) else was
  {
    hide LeftAlone, IsAt, Reached, DbOk, ProcOk, Queue.Act, PairOf, HasApprovedText;
    var db := Turn(c, PairOf(pid), 4, 0, OfQueue(ResetRead(pid)));
    ResetReadsOnPair(db, c.me, pid, was);
    k, ok := 1, false;
    if was.row.Some? {
      var row := was.row.value;
      db := Turn(c, PairOf(pid), 4, 1, OfQueue(ResetReadJob(pid, row)));
      ResetReadsOnPair(db, c.me, pid, was);
      k, ok := 2, IsReset(was);
      if MayReset(was) {
        var job := was.job.value;
        db := Turn(c, PairOf(pid), 4, 2, OfQueue(ResetWrite(pid, job.status)));
        ResetWriteOnPair(db, c.me, pid, was);
        db := Turn(c, PairOf(pid), 4, 3, OfQueue(ResetMove(pid, job.status)));
        ResetMoveOnPair(db, c.me, pid, row, Some(job.(status := Cancelled)), job.status);
        k, ok := 4, true;
      }
    }
  }

  lemma ResetMoveRefused(db: Db, me: Id, pid: Id, was: Pair, previous: JobStatus)
    requires PairOf(pid)(db) == was && was.row.Some? && was.row.value.status != SendError
    ensures Queue.Act(db, me, ResetMove(pid, previous)) == (db, ResetRollback(pid, previous))
  {
  }

  lemma ResetRollsBackOnPair(db: Db, me: Id, pid: Id, was: Pair, job: Job, previous: JobStatus)
    requires PairOf(pid)(db) == was && was.job == Some(job)
    ensures var (now, next) := Queue.Act(db, me, ResetRollback(pid, previous));
            && PairOf(pid)(now) ==
               (if job.status == Cancelled then was.(job := Some(job.(status := previous))) else was)
            && next == Done(false)
  {
  }

  /** If the row has left send_error when it is to be moved, a job that is still cancelled gets its status back. */
  lemma ResetRollsBack(c: Call, i: nat, pid: Id, was: Pair, job: Job, previous: JobStatus)
    requires LeftAlone(c, PairOf(pid), i + 2) && IsAt(c, i, OfQueue(ResetMove(pid, previous)))
    requires PairOf(pid)(Reached(c, i).db) == was && was.row.Some? && was.row.value.status != SendError
    requires was.job == Some(job)
    ensures IsAt(c, i + 2, OfQueue(Done(false)))
    ensures PairOf(pid)(Reached(c, i + 2).db) ==
            if job.status == Cancelled then was.(job := Some(job.(status := previous))) else was
  {
    hide LeftAlone, IsAt, Reached, DbOk, ProcOk, Queue.Act, PairOf;
    var db := Turn(c, PairOf(pid), i + 2, i, OfQueue(ResetMove(pid, previous)));
    ResetMoveRefused(db, c.me, pid, was, previous);
    db := Turn(c, PairOf(pid), i + 2, i + 1, OfQueue(ResetRollback(pid, previous)));
    ResetRollsBackOnPair(db, c.me, pid, was, job, previous);
  }
}
