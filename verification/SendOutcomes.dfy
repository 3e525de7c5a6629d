/** What comes of a send job: which answer of HH leads to which status, for a cycle that is left alone and over
    every run. */
module SendOutcomes {
  import opened Options
  import opened Tables
  import opened Enrichment
  import opened Funnel
  import opened Interleaving
  import opened PersistentSender

  /** How a job ends and where its row goes. */
  datatype End = End(job: JobStatus, row: Status)

  predicate HhTookIt(outcome: Outcome) { outcome == SubmitSent || outcome == SubmitUnsure(true) }

  /** The answers of HH and what is to come of them; an exception leaves the job in sending. */
  function Expected(cycle: Cycle): End
  {
    match cycle.answer
    case VacancyGone => End(Failed, Archived)
    case SessionExpired => End(Failed, SendError)
    case Raises => End(JobStatus.Sending, QueuedToSend)
    case Here(true, _, _) => End(Failed, Archived)
    case Here(false, true, _) => End(JobStatus.Sent, Status.Sent)
    case Here(false, false, true) => End(ManualRequired, SendError)
    case Here(false, false, false) =>
      if HhTookIt(cycle.outcome) then End(JobStatus.Sent, Status.Sent)
      else if cycle.outcome == SubmitUnsure(false) then End(Failed, SendError)
      else End(JobStatus.Sending, QueuedToSend)
  }

  predicate Submitted(db: Db, me: Id, pid: Id, letter: Letter)
  {
    me in db.submissions && db.submissions[me] == Submission(pid, letter)
  }

  // ---------------------------------------------------------------- single statements on a row and its job

  lemma ClaimOnPair(db: Db, me: Id, hint: Hint, cycle: Cycle, b: Id, pid: Id, origin: Id, letter: Letter,
                    row: Row, job: Job)
    requires PairOf(pid)(db) == Pair(Some(row), Some(job)) && job.batch == Some(b) && job.status == Queued
    ensures var (now, next) := Sender.Act(db, me, hint, ClaimJob(cycle, b, pid, origin, letter));
            && PairOf(pid)(now) == Pair(Some(row), Some(job.(status := JobStatus.Sending)))
            && next == Snapshot(cycle, b, pid, letter) && SameSubmission(db, now, me)
  {
  }

  lemma SnapshotOnPair(db: Db, me: Id, hint: Hint, cycle: Cycle, b: Id, pid: Id, letter: Letter, row: Row, job: Job)
    requires PairOf(pid)(db) == Pair(Some(row), Some(job))
    ensures var (now, next) := Sender.Act(db, me, hint, Snapshot(cycle, b, pid, letter));
            && PairOf(pid)(now) == PairOf(pid)(db) && SameSubmission(db, now, me)
            && next == if SnapshotMatches(letter, row) then AskHh(cycle, b, pid, letter)
                       else FinishJob(b, pid, Failed, if row.status == QueuedToSend then Some(SendError) else None)
  {
    hide SnapshotMatches;
  }

  lemma AskOnPair(db: Db, me: Id, hint: Hint, cycle: Cycle, b: Id, pid: Id, letter: Letter)
    ensures var (now, next) := Sender.Act(db, me, hint, AskHh(cycle, b, pid, letter));
            && now == db
            && next == if cycle.answer == Here(false, false, false) then Submit(cycle, b, pid, letter)
                       else if cycle.answer.Raises? then ReleaseLease(b)
                       else FinishJob(b, pid, Expected(cycle).job, Some(Expected(cycle).row))
  {
  }

  lemma SubmitOnPair(db: Db, me: Id, hint: Hint, cycle: Cycle, b: Id, pid: Id, letter: Letter)
    requires cycle.answer == Here(false, false, false)
    ensures var (now, next) := Sender.Act(db, me, hint, Submit(cycle, b, pid, letter));
            && PairOf(pid)(now) == PairOf(pid)(db) && Submitted(now, me, pid, letter)
            && next == if cycle.outcome.SubmitRaises? then ReleaseLease(b)
                       else FinishJob(b, pid, Expected(cycle).job, Some(Expected(cycle).row))
  {
  }

  lemma FinishOnPair(db: Db, me: Id, hint: Hint, b: Id, pid: Id, end: JobStatus, move: Option<Status>, row: Row,
                     job: Job)
    requires PairOf(pid)(db) == Pair(Some(row), Some(job)) && job.status == JobStatus.Sending
    ensures var (now, next) := Sender.Act(db, me, hint, FinishJob(b, pid, end, move));
            && PairOf(pid)(now) == Pair(Some(row), Some(job.(status := end))) && SameSubmission(db, now, me)
            && next == if move.Some? then MovePipeline(b, pid, move.value) else ReleaseLease(b)
  {
  }

  lemma MoveOnPair(db: Db, me: Id, hint: Hint, b: Id, pid: Id, status: Status, row: Row, job: Job)
    requires DbOk(db) && PairOf(pid)(db) == Pair(Some(row), Some(job)) && row.status == QueuedToSend
    requires status != Scoring
    ensures var (now, next) := Sender.Act(db, me, hint, MovePipeline(b, pid, status));
            && PairOf(pid)(now) == Pair(Some(row.(status := status)), Some(job)) && next == ReleaseLease(b)
            && SameSubmission(db, now, me)
  {
    hide DbOk;
    NoToken(db, pid);
  }

  // ---------------------------------------------------------------- a cycle that is left alone

  /** From the end of a job on: the job and its row get the statuses that were decided. */
  lemma Finishes(c: Call, n: nat, i: nat, b: Id, pid: Id, end: JobStatus, move: Option<Status>, row: Row, job: Job)
      returns (k: nat)
    requires LeftAlone(c, PairOf(pid), n) && i + 2 <= n && IsAt(c, i, OfSender(FinishJob(b, pid, end, move)))
    requires PairOf(pid)(Reached(c, i).db) == Pair(Some(row), Some(job)) && job.status == JobStatus.Sending
    requires move.Some? ==> row.status == QueuedToSend && move.value != Scoring
    ensures i < k <= i + 2 && IsAt(c, k, OfSender(ReleaseLease(b)))
    ensures PairOf(pid)(Reached(c, k).db) ==
            Pair(Some(if move.Some? then row.(status := move.value) else row), Some(job.(status := end)))
    ensures SameSubmission(Reached(c, i).db, Reached(c, k).db, c.me)
  {
    hide LeftAlone, IsAt, Reached, DbOk, ProcOk, Sender.Act, PairOf;
    var db := Turn(c, PairOf(pid), n, i, OfSender(FinishJob(b, pid, end, move)));
    FinishOnPair(db, c.me, c.hints(i), b, pid, end, move, row, job);
    k := i + 1;
    if move.Some? {
      db := Turn(c, PairOf(pid), n, i + 1, OfSender(MovePipeline(b, pid, move.value)));
      MoveOnPair(db, c.me, c.hints(i + 1), b, pid, move.value, row, job.(status := end));
      k := i + 2;
    }
  }

  /** A job whose row matches what was approved, in a cycle that is left alone: HH's answers settle the job and
      the row, and the letter is submitted exactly if HH shows the vacancy open, unanswered and without a test. */
  lemma AnswersSettleTheJob(c: Call, i: nat, n: nat, cycle: Cycle, b: Id, pid: Id, row: Row, job: Job) returns (k: nat)
    requires LeftAlone(c, PairOf(pid), n) && i + 4 <= n && IsAt(c, i, OfSender(AskHh(cycle, b, pid, job.letter)))
    requires PairOf(pid)(Reached(c, i).db) == Pair(Some(row), Some(job))
    requires row.status == QueuedToSend && job.status == JobStatus.Sending && c.me !in Reached(c, i).db.submissions
    ensures i < k <= i + 4 && IsAt(c, k, OfSender(ReleaseLease(b)))
    ensures PairOf(pid)(Reached(c, k).db) ==
            Pair(Some(row.(status := Expected(cycle).row)), Some(job.(status := Expected(cycle).job)))
    ensures if cycle.answer == Here(false, false, false) then Submitted(Reached(c, k).db, c.me, pid, job.letter)
            else c.me !in Reached(c, k).db.submissions
  {
    hide LeftAlone, IsAt, Reached, DbOk, ProcOk, Sender.Act, PairOf, Expected;
    var db := Turn(c, PairOf(pid), n, i, OfSender(AskHh(cycle, b, pid, job.letter)));
    AskOnPair(db, c.me, c.hints(i), cycle, b, pid, job.letter);
    k := i + 1;
    RaisingChangesNothing(cycle, row, job);
    if cycle.answer == Here(false, false, false) {
      db := Turn(c, PairOf(pid), n, i + 1, OfSender(Submit(cycle, b, pid, job.letter)));
      SubmitOnPair(db, c.me, c.hints(i + 1), cycle, b, pid, job.letter);
      k := i + 2;
    }
    if !cycle.answer.Raises? && !(cycle.answer == Here(false, false, false) && cycle.outcome.SubmitRaises?) {
      k := Finishes(c, n, k, b, pid, Expected(cycle).job, Some(Expected(cycle).row), row, job);
    }
  }

  lemma RaisingChangesNothing(cycle: Cycle, row: Row, job: Job)
    requires row.status == QueuedToSend && job.status == JobStatus.Sending
    ensures Expected(cycle).row != Scoring
    ensures cycle.answer.Raises? || (cycle.answer == Here(false, false, false) && cycle.outcome.SubmitRaises?) ==>
              row.(status := Expected(cycle).row) == row && job.(status := Expected(cycle).job) == job
  {
  }

  lemma NextOnPair(db: Db, me: Id, hint: Hint, cycle: Cycle, b: Id, pid: Id, row: Row, job: Job)
    requires PairOf(pid)(db) == Pair(Some(row), Some(job)) && job.batch == Some(b) && job.status == Queued
    requires hint.found == Some(pid)
    ensures Sender.Act(db, me, hint, NextJob(cycle, b)) == (db, ClaimJob(cycle, b, pid, job.origin, job.letter))
  {
  }

  /** A cycle that is left alone, from the query for the oldest queued job to the release: if the row is no longer
      as it was approved, the job fails and a queued row goes to send_error; otherwise HH's answers settle both. */
  lemma CycleSettlesTheJob(c: Call, cycle: Cycle, b: Id, pid: Id, row: Row, job: Job) returns (k: nat)
    requires LeftAlone(c, PairOf(pid), 7) && IsAt(c, 0, OfSender(NextJob(cycle, b))) && c.hints(0).found == Some(pid)
    requires PairOf(pid)(Reached(c, 0).db) == Pair(Some(row), Some(job)) && job.batch == Some(b) && job.status == Queued
    ensures k <= 7 && IsAt(c, k, OfSender(ReleaseLease(b)))
    ensures var now, db := PairOf(pid)(Reached(c, k).db), Reached(c, k).db;
            if SnapshotMatches(job.letter, row) then
              && now == Pair(Some(row.(status := Expected(cycle).row)), Some(job.(status := Expected(cycle).job)))
              && (if cycle.answer == Here(false, false, false) then Submitted(db, c.me, pid, job.letter)
                  else c.me !in db.submissions)
            else
              && now == Pair(Some(if row.status == QueuedToSend then row.(status := SendError) else row),
                             Some(job.(status := Failed)))
              && c.me !in db.submissions
  {
    hide LeftAlone, IsAt, Reached, DbOk, ProcOk, Sender.Act, PairOf, Expected, SnapshotMatches;
    var db := Turn(c, PairOf(pid), 7, 0, OfSender(NextJob(cycle, b)));
    NotYetSubmitted(db, c.me, NextJob(cycle, b));
    NextOnPair(db, c.me, c.hints(0), cycle, b, pid, row, job);
    db := Turn(c, PairOf(pid), 7, 1, OfSender(ClaimJob(cycle, b, pid, job.origin, job.letter)));
    ClaimOnPair(db, c.me, c.hints(1), cycle, b, pid, job.origin, job.letter, row, job);
    var taken := job.(status := JobStatus.Sending);
    db := Turn(c, PairOf(pid), 7, 2, OfSender(Snapshot(cycle, b, pid, job.letter)));
    SnapshotOnPair(db, c.me, c.hints(2), cycle, b, pid, job.letter, row, taken);
    if SnapshotMatches(job.letter, row) {
      MatchingIsQueued(job.letter, row);
      k := AnswersSettleTheJob(c, 3, 7, cycle, b, pid, row, taken);
    } else {
      var move := if row.status == QueuedToSend then Some(SendError) else None;
      k := Finishes(c, 7, 3, b, pid, Failed, move, row, taken);
    }
  }

  lemma NotYetSubmitted(db: Db, me: Id, s: Sender.Step)
    requires ProcOk(db, me, OfSender(s)) && s.NextJob?
    ensures me !in db.submissions
  {
  }

  lemma MatchingIsQueued(letter: Letter, row: Row)
    requires SnapshotMatches(letter, row)
    ensures row.status == QueuedToSend
  {
  }

  /** Whatever is cancelled or raises between the lease and its release, the release comes next. */
  lemma InterruptedCycleReleases(c: Call, before: Run, hint: Hint, s: Sender.Step, b: Id)
    requires BeginsInterrupted(c, before, hint, OfSender(s))
    requires match s
             case NextJob(_, batch) => batch == b
             case ClaimJob(_, batch, _, _, _) => batch == b
             case Snapshot(_, batch, _, _) => batch == b
             case AskHh(_, batch, _, _) => batch == b
             case Submit(_, batch, _, _) => batch == b
             case FinishJob(batch, _, _, _) => batch == b
             case MovePipeline(batch, _, _) => batch == b
             case _ => false
    ensures IsAt(c, 0, OfSender(ReleaseLease(b)))
  {
    hide IsAt, BeginsInterrupted;
    InterruptedThere(c, before, hint, OfSender(s));
  }
}
