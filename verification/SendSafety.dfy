/** What the sender submits, over every run: exactly a text that the user approved on that row and that was
    the row's draft when the sender looked, and never more often than it was queued. */
module SendSafety {
  import opened Options
  import opened Tables
  import opened Enrichment
  import opened Funnel

  // ---------------------------------------------------------------- the statements that write the history

  lemma ApproveWrites(db: Db, me: Id, pid: Id, text: string)
    ensures var now := Queue.Act(db, me, Queue.ApproveWrite(pid, text)).0;
            && now.queuings == db.queuings && now.claims == db.claims && now.checks == db.checks
            && now.submissions == db.submissions
            && (now.approvals == db.approvals
                || (pid in db.rows && db.rows[pid].status == LetterDraft
                    && now.approvals == db.approvals + {(pid, text)}
                    && pid in now.rows && now.rows[pid].status == Approved && now.rows[pid].hash == Some(Sha256(text))))
  {
  }

  lemma QueueWrites(db: Db, me: Id, pid: Id, letter: Letter, overwrite: bool)
    ensures var now := Queue.Act(db, me, Queue.QueueWrite(pid, letter, overwrite)).0;
            && now.approvals == db.approvals && now.claims == db.claims && now.checks == db.checks
            && now.submissions == db.submissions
            && now.queuings == (if (if overwrite then JobIs(db, pid, Cancelled) else pid !in db.jobs)
                                then db.queuings[me := Queuing(pid, letter)] else db.queuings)
  {
  }

  lemma ClaimWrites(db: Db, me: Id, hint: Hint, s: Sender.Step)
    requires s.ClaimJob?
    ensures var now := Sender.Act(db, me, hint, s).0;
            && now.approvals == db.approvals && now.queuings == db.queuings && now.checks == db.checks
            && now.submissions == db.submissions
            && now.claims == (if InQueue(db.jobs, s.pid, s.batch)
                              then db.claims[me := Claim(s.pid, s.batch, db.jobs[s.pid].origin)] else db.claims)
  {
  }

  lemma SnapshotWrites(db: Db, me: Id, hint: Hint, s: Sender.Step)
    requires s.Snapshot?
    ensures var (now, next) := Sender.Act(db, me, hint, s);
            && now.approvals == db.approvals && now.queuings == db.queuings && now.claims == db.claims
            && now.submissions == db.submissions
            && (if next.AskHh? then s.pid in db.rows && now.checks == db.checks[me := db.rows[s.pid]]
                                    && SnapshotMatches(s.letter, db.rows[s.pid])
                else now.checks == db.checks)
  {
    hide SnapshotMatches;
  }

  lemma SubmitWrites(db: Db, me: Id, hint: Hint, s: Sender.Step)
    requires s.Submit?
    ensures var now := Sender.Act(db, me, hint, s).0;
            && now.approvals == db.approvals && now.queuings == db.queuings && now.claims == db.claims
            && now.checks == db.checks && now.submissions == db.submissions[me := Submission(s.pid, s.letter)]
  {
  }

  /** The statement, if it lands, is the write of `queue_approved`. */
  predicate QueuesJob(db: Db, hint: Hint, p: Proc)
  {
    && Lands(hint.mishap) && p.OfQueue? && p.queue.QueueWrite?
    && (if p.queue.overwrite then JobIs(db, p.queue.pid, Cancelled) else p.queue.pid !in db.jobs)
  }

  /** The statement, if it lands, is a successful claim. */
  predicate ClaimsJob(db: Db, hint: Hint, p: Proc)
  {
    Lands(hint.mishap) && p.OfSender? && p.sender.ClaimJob? && InQueue(db.jobs, p.sender.pid, p.sender.batch)
  }

  /** The statement is a call of `submit_response`. */
  predicate Submits(hint: Hint, p: Proc) { Lands(hint.mishap) && p.OfSender? && p.sender.Submit? }

  lemma HistoryOfStatement(db: Db, me: Id, hint: Hint, p: Proc)
    requires DbOk(db) && ProcOk(db, me, p) && Lands(hint.mishap)
    ensures var now := Statement(db, me, hint, p).0;
            && now.queuings == (if QueuesJob(db, hint, p) then db.queuings[me := Queuing(p.queue.pid, p.queue.letter)]
                                else db.queuings)
            && now.claims ==
               (if ClaimsJob(db, hint, p)
                then db.claims[me := Claim(p.sender.pid, p.sender.batch, db.jobs[p.sender.pid].origin)]
                else db.claims)
            && now.submissions ==
               (if Submits(hint, p) then db.submissions[me := Submission(p.sender.pid, p.sender.letter)]
                else db.submissions)
  {
    hide Queue.Act, Sender.Act, Letters.Act, Review.Act, Claims.Act, Control.Act, DbOk, ProcOk, Extends;
    if !Writes(p) {
      StatementKeeps(db, me, hint, p);
    } else {
      match p {
        case OfQueue(s) =>
          if s.ApproveWrite? { ApproveWrites(db, me, s.pid, s.text); }
          else { QueueWrites(db, me, s.pid, s.letter, s.overwrite); }
        case OfSender(s) =>
          if s.ClaimJob? { ClaimWrites(db, me, hint, s); }
          else if s.Snapshot? { SnapshotWrites(db, me, hint, s); }
          else { SubmitWrites(db, me, hint, s); }
      }
    }
  }

  /** The history of queuings, claims and submissions is written by these statements alone. */
  lemma HistoryOfAct(db: Db, me: Id, hint: Hint, p: Proc)
    requires DbOk(db) && ProcOk(db, me, p)
    ensures var now := Act(db, me, hint, p).0;
            && now.queuings == (if QueuesJob(db, hint, p) then db.queuings[me := Queuing(p.queue.pid, p.queue.letter)]
                                else db.queuings)
            && now.claims ==
               (if ClaimsJob(db, hint, p)
                then db.claims[me := Claim(p.sender.pid, p.sender.batch, db.jobs[p.sender.pid].origin)]
                else db.claims)
            && now.submissions ==
               (if Submits(hint, p) then db.submissions[me := Submission(p.sender.pid, p.sender.letter)]
                else db.submissions)
  {
    hide Statement, DbOk, ProcOk;
    if Lands(hint.mishap) {
      HistoryOfStatement(db, me, hint, p);
    }
  }

  // ---------------------------------------------------------------- approvals really happened

  /** The last event of the run is the read of an `approve_letter` request that sees `text` as the draft. */
  predicate IsApprovalRead(run: Run, me: Id, pid: Id, text: string)
  {
    run.After? && run.event.me == me &&
    var s := State(run.before);
    && Moves(s, run.event, OfQueue(Queue.ApproveRead(pid)))
    && pid in s.db.rows && s.db.rows[pid].status == LetterDraft && Strip(s.db.rows[pid].draft) == text && text != ""
  }

  predicate ReadForApproval(run: Run, me: Id, pid: Id, text: string)
  {
    run.After? && (IsApprovalRead(run, me, pid, text) || ReadForApproval(run.before, me, pid, text))
  }

  /** The last event of the run is the write of an `approve_letter` request: the row goes from letter_draft
      to approved with the hash of the text that this request read. */
  predicate IsApproval(run: Run, pid: Id, text: string)
  {
    run.After? &&
    var s, now := State(run.before), State(run).db.rows;
    && Moves(s, run.event, OfQueue(Queue.ApproveWrite(pid, text)))
    && pid in s.db.rows && s.db.rows[pid].status == LetterDraft
    && pid in now && now[pid].status == Approved && now[pid].hash == Some(Sha256(text))
    && ReadForApproval(run.before, run.event.me, pid, text)
  }

  predicate ApprovedIn(run: Run, pid: Id, text: string)
  {
    run.After? && (IsApproval(run, pid, text) || ApprovedIn(run.before, pid, text))
  }

  lemma ApproveWriteComesFromRead(db: Db, me: Id, hint: Hint, p: Proc, pid: Id, text: string)
    requires Act(db, me, hint, p).1 == OfQueue(Queue.ApproveWrite(pid, text))
    ensures p == OfQueue(Queue.ApproveRead(pid)) && pid in db.rows && db.rows[pid].status == LetterDraft
    ensures Strip(db.rows[pid].draft) == text && text != ""
  {
    hide Letters.Act, Review.Act, Claims.Act, Sender.Act, Control.Act;
    hide Strip, Transition, SetJob, Enqueue, Tables.Approve;
  }

  lemma {:induction false} ApprovalWasRead(run: Run, me: Id, pid: Id, text: string)
    requires me in State(run).procs && State(run).procs[me] == OfQueue(Queue.ApproveWrite(pid, text))
    ensures ReadForApproval(run, me, pid, text)
    decreases run
  {
    hide Act, Strip;
    var s, e := State(run.before), run.event;
    if e.Move? && e.me == me && me in s.procs {
      ApproveWriteComesFromRead(s.db, me, e.hint, s.procs[me], pid, text);
    } else {
      ApprovalWasRead(run.before, me, pid, text);
    }
  }

  lemma ApprovalIsWritten(db: Db, me: Id, hint: Hint, p: Proc, pid: Id, text: string)
    requires Writes(p) && (pid, text) !in db.approvals && (pid, text) in Act(db, me, hint, p).0.approvals
    ensures p == OfQueue(Queue.ApproveWrite(pid, text)) && pid in db.rows && db.rows[pid].status == LetterDraft
    ensures var now := Act(db, me, hint, p).0.rows;
            pid in now && now[pid].status == Approved && now[pid].hash == Some(Sha256(text))
  {
    hide Queue.Act, Sender.Act, Strip;
    match p {
      case OfQueue(s) =>
        if s.ApproveWrite? {
          ApproveWrites(db, me, s.pid, s.text);
        } else {
          QueueWrites(db, me, s.pid, s.letter, s.overwrite);
        }
      case OfSender(s) =>
        if s.ClaimJob? { ClaimWrites(db, me, hint, s); }
        else if s.Snapshot? { SnapshotWrites(db, me, hint, s); }
        else { SubmitWrites(db, me, hint, s); }
    }
  }

  /** An approval in the history was made by an `approve_letter` request that had read exactly this text. */
  lemma {:induction false} ApprovalHappened(run: Run, pid: Id, text: string)
    requires (pid, text) in State(run).db.approvals
    ensures ApprovedIn(run, pid, text)
    decreases run
  {
    hide Act, Strip, ReadForApproval, SysOk, Extends;
    var s, e := State(run.before), run.event;
    if (pid, text) in s.db.approvals {
      ApprovalHappened(run.before, pid, text);
    } else {
      RunIsOk(run.before);
      NextKeeps(s, e);
      ApprovalIsWritten(s.db, e.me, e.hint, s.procs[e.me], pid, text);
      ApprovalWasRead(run.before, e.me, pid, text);
    }
  }

  // ---------------------------------------------------------------- what was submitted

  /** The last event of the run is the snapshot read of the sender request `r`: it sees `row`, accepts it for
      `letter`, and the letter's text was approved on that row before. */
  predicate IsAccepted(run: Run, r: Id, pid: Id, letter: Letter, row: Row)
  {
    run.After? && run.event.me == r && run.event.Move? &&
    var s := State(run.before);
    && r in s.procs && s.procs[r].OfSender? && s.procs[r].sender.Snapshot?
    && s.procs[r].sender.pid == pid && s.procs[r].sender.letter == letter
    && pid in s.db.rows && s.db.rows[pid] == row && SnapshotMatches(letter, row)
    && ApprovedIn(run.before, pid, letter.text)
  }

  predicate AcceptedIn(run: Run, r: Id, pid: Id, letter: Letter, row: Row)
  {
    run.After? && (IsAccepted(run, r, pid, letter, row) || AcceptedIn(run.before, r, pid, letter, row))
  }

  /** The sender request `r` claimed a job, and this is what the job's queue request had written. */
  predicate Took(db: Db, r: Id) { r in db.claims && db.claims[r].origin in db.queuings }

  function Taken(db: Db, r: Id): Queuing
    requires Took(db, r)
  {
    db.queuings[db.claims[r].origin]
  }

  lemma CheckIsWritten(db: Db, me: Id, hint: Hint, p: Proc, r: Id)
    requires Writes(p) && r !in db.checks && r in Act(db, me, hint, p).0.checks
    ensures r == me && p.OfSender? && p.sender.Snapshot?
    ensures var pid := p.sender.pid;
            && pid in db.rows && Act(db, me, hint, p).0.checks[r] == db.rows[pid]
            && SnapshotMatches(p.sender.letter, db.rows[pid])
  {
    hide Queue.Act, Sender.Act, SnapshotMatches;
    match p {
      case OfQueue(s) =>
        if s.ApproveWrite? {
          ApproveWrites(db, me, s.pid, s.text);
        } else {
          QueueWrites(db, me, s.pid, s.letter, s.overwrite);
        }
      case OfSender(s) =>
        if s.ClaimJob? { ClaimWrites(db, me, hint, s); }
        else if s.Snapshot? { SnapshotWrites(db, me, hint, s); }
        else { SubmitWrites(db, me, hint, s); }
    }
  }

  lemma HeldLetterIsApproved(db: Db, r: Id, s: Sender.Step)
    requires DbOk(db) && Sender.StepOk(db, r, s) && s.Snapshot?
    ensures Took(db, r) && Taken(db, r) == Queuing(s.pid, s.letter) && (s.pid, s.letter.text) in db.approvals
  {
    hide RowsOk, JobsOk, BatchedOk, ClaimsOk, SubmissionsOk, BatchesOk, Strip;
    assert LetterOk(Taken(db, r), db.approvals);
  }

  lemma TookStays(was: Db, now: Db, k: Id, r: Id)
    requires Extends(was, now, k) && Took(was, r)
    ensures Took(now, r) && Taken(now, r) == Taken(was, r)
    ensures r in was.checks ==> r in now.checks && now.checks[r] == was.checks[r]
  {
    hide RowsStep, Narrows, TokensFade;
  }

  // The statement that enters a snapshot in the history.
  lemma AcceptingStep(db: Db, me: Id, hint: Hint, p: Proc, r: Id)
    requires DbOk(db) && ProcOk(db, me, p) && r !in db.checks && r in Act(db, me, hint, p).0.checks
    ensures r == me && p.OfSender? && p.sender.Snapshot?
    ensures var now, s := Act(db, me, hint, p).0, p.sender;
            && s.pid in db.rows && now.checks[r] == db.rows[s.pid] && SnapshotMatches(s.letter, db.rows[s.pid])
            && Took(now, r) && Taken(now, r) == Queuing(s.pid, s.letter) && (s.pid, s.letter.text) in db.approvals
  {
    hide Act, DbOk, ProcOk, SnapshotMatches, Extends, Took, Taken, Writes, Quiet, Sender.StepOk;
    var now := Act(db, me, hint, p).0;
    ProcKeeps(db, me, hint, p);
    assert Writes(p) by { CheckIsNotQuiet(db, now, r); }
    CheckIsWritten(db, me, hint, p, r);
    assert Sender.StepOk(db, me, p.sender) by { SenderIsOk(db, me, p); }
    HeldLetterIsApproved(db, r, p.sender);
    TookStays(db, now, me, r);
  }

  lemma SenderIsOk(db: Db, me: Id, p: Proc)
    requires ProcOk(db, me, p) && p.OfSender?
    ensures Sender.StepOk(db, me, p.sender)
  {
  }

  lemma CheckJustHappened(run: Run, r: Id)
    requires run.After? && r !in State(run.before).db.checks && r in State(run).db.checks
    ensures var db := State(run).db;
            Took(db, r) && IsAccepted(run, r, Taken(db, r).pid, Taken(db, r).letter, db.checks[r])
  {
    hide Act, DbOk, ProcOk, ApprovedIn, SnapshotMatches, Took, Taken, Next;
    var s, e := State(run.before), run.event;
    DbAfter(run);
    if e.Move? && e.me in s.procs {
      RequestIsOk(run.before, e.me);
      AcceptingStep(s.db, e.me, e.hint, s.procs[e.me], r);
      ApprovalHappened(run.before, s.procs[e.me].sender.pid, s.procs[e.me].sender.letter.text);
    }
  }

  lemma CheckIsNotQuiet(was: Db, now: Db, r: Id)
    requires r !in was.checks && r in now.checks
    ensures !Quiet(was, now)
  {
  }

  /** A snapshot in the history was read by the sender from the row, after the approval of the letter it took. */
  lemma {:induction false} CheckHappened(run: Run, r: Id)
    requires r in State(run).db.checks
    ensures var db := State(run).db;
            Took(db, r) && AcceptedIn(run, r, Taken(db, r).pid, Taken(db, r).letter, db.checks[r])
    decreases run
  {
    hide Next, Took, Taken, IsAccepted, SysOk, Extends;
    var s := State(run.before);
    RunIsOk(run.before);
    if r in s.db.checks {
      CheckHappened(run.before, r);
      NextKeeps(s, run.event);
      TookStays(s.db, State(run).db, run.event.me, r);
    } else {
      CheckJustHappened(run, r);
    }
  }

  /** Whatever the interleaving: what the sender submits is the letter that its claim took from the queue; the
      user approved exactly this text on this row before; and it was the row's stripped draft, under its hash,
      with the row's resume and vacancy, when the sender read the row. */
  lemma SubmittedWasApproved(run: Run, r: Id)
    requires r in State(run).db.submissions
    ensures var db := State(run).db;
            var s := db.submissions[r];
            && Took(db, r) && Taken(db, r) == Queuing(s.pid, s.letter)
            && r in db.checks && AcceptedIn(run, r, s.pid, s.letter, db.checks[r])
            && Strip(db.checks[r].draft) == s.letter.text && db.checks[r].hash == Some(Sha256(s.letter.text))
            && db.checks[r].status == QueuedToSend
            && db.checks[r].resume == Some(s.letter.resume) && db.checks[r].hh == s.letter.hh
  {
    hide RowsOk, JobsOk, BatchedOk, ClaimsOk, BatchesOk, ProcsOk, OthersUnused, Next, AcceptedIn, Strip;
    var db := State(run).db;
    RunIsOk(run);
    assert SubmissionOk(r, db.submissions[r], db.claims, db.checks, db.queuings);
    assert LetterOk(Taken(db, r), db.approvals);
    CheckHappened(run, r);
  }

  // ---------------------------------------------------------------- what was queued

  /** The last event of the run is the read of a `queue_approved` request that sees `row`. */
  predicate IsQueueRead(run: Run, me: Id, pid: Id, row: Row)
  {
    run.After? && run.event.me == me &&
    var s := State(run.before);
    Moves(s, run.event, OfQueue(Queue.QueueRead(pid))) && pid in s.db.rows && s.db.rows[pid] == row
  }

  predicate ReadForQueue(run: Run, me: Id, pid: Id, row: Row)
  {
    run.After? && (IsQueueRead(run, me, pid, row) || ReadForQueue(run.before, me, pid, row))
  }

  /** The letter is the row's: its resume, its vacancy, and its approved text with the hash. */
  predicate IsLetterOf(letter: Letter, row: Row)
  {
    && row.status == Approved && row.resume == Some(letter.resume) && row.hh == letter.hh
    && Strip(row.draft) == letter.text && row.hash == Some(letter.hash)
  }

  lemma QueueReadJobComesFromRead(db: Db, me: Id, hint: Hint, p: Proc, pid: Id, row: Row)
    requires Act(db, me, hint, p).1 == OfQueue(Queue.QueueReadJob(pid, row))
    requires p != OfQueue(Queue.QueueReadJob(pid, row))
    ensures p == OfQueue(Queue.QueueRead(pid)) && pid in db.rows && db.rows[pid] == row
  {
    hide Letters.Act, Review.Act, Claims.Act, Sender.Act, Control.Act;
    hide Strip, Transition, SetJob, Enqueue, Tables.Approve;
  }

  lemma {:induction false} RowWasRead(run: Run, me: Id, pid: Id, row: Row)
    requires me in State(run).procs && State(run).procs[me] == OfQueue(Queue.QueueReadJob(pid, row))
    ensures ReadForQueue(run, me, pid, row)
    decreases run
  {
    hide Act;
    var s, e := State(run.before), run.event;
    if me in s.procs && e.Move? && e.me == me && s.procs[me] != State(run).procs[me] {
      QueueReadJobComesFromRead(s.db, me, e.hint, s.procs[me], pid, row);
    } else {
      RowWasRead(run.before, me, pid, row);
    }
  }

  lemma QueueWriteComesFromRow(db: Db, me: Id, hint: Hint, p: Proc, pid: Id, letter: Letter, overwrite: bool)
      returns (row: Row)
    requires Act(db, me, hint, p).1 == OfQueue(Queue.QueueWrite(pid, letter, overwrite))
    ensures p == OfQueue(Queue.QueueReadJob(pid, row)) && IsLetterOf(letter, row)
  {
    hide Letters.Act, Review.Act, Claims.Act, Sender.Act, Control.Act;
    hide Strip, Transition, SetJob, Enqueue, Tables.Approve;
    row := p.queue.row;
  }

  /** The queue write has before it the request's own read of a row that the letter is of. */
  ghost predicate LetterWasRead(run: Run, me: Id, pid: Id, letter: Letter)
  {
    exists row :: ReadForQueue(run, me, pid, row) && IsLetterOf(letter, row)
  }

  lemma {:induction false} QueueWriteWasRead(run: Run, me: Id, pid: Id, letter: Letter, overwrite: bool)
    requires me in State(run).procs && State(run).procs[me] == OfQueue(Queue.QueueWrite(pid, letter, overwrite))
    ensures LetterWasRead(run, me, pid, letter)
    decreases run
  {
    hide Act, IsLetterOf, IsQueueRead;
    var s, e := State(run.before), run.event;
    if e.Move? && e.me == me && me in s.procs {
      var row := QueueWriteComesFromRow(s.db, me, e.hint, s.procs[me], pid, letter, overwrite);
      RowWasRead(run.before, me, pid, row);
      assert ReadForQueue(run, me, pid, row);
    } else {
      QueueWriteWasRead(run.before, me, pid, letter, overwrite);
      var row :| ReadForQueue(run.before, me, pid, row) && IsLetterOf(letter, row);
      assert ReadForQueue(run, me, pid, row);
    }
  }

  /** Over every run, each queued letter was written by a request that had itself read the row as approved, with this
      resume, this vacancy, this text as its stripped draft and its hash. */
  lemma {:induction false} QueuedLetterWasTheRows(run: Run, r: Id)
    requires r in State(run).db.queuings
    ensures LetterWasRead(run, r, State(run).db.queuings[r].pid, State(run).db.queuings[r].letter)
    decreases run
  {
    hide Act, SysOk, Extends, LetterWasRead, DbOk, ProcOk;
    var s, e := State(run.before), run.event;
    DbAfter(run);
    if r in s.db.queuings {
      QueuedLetterWasTheRows(run.before, r);
      RunIsOk(run.before);
      NextKeeps(s, e);
      assert s.db.queuings[r] == State(run).db.queuings[r] by { QueuingStays(s.db, State(run).db, e.me, r); }
      ReadStays(run, r, State(run).db.queuings[r].pid, State(run).db.queuings[r].letter);
    } else {
      RequestIsOk(run.before, e.me);
      var p := s.procs[e.me];
      HistoryOfAct(s.db, e.me, e.hint, p);
      QueueWriteWasRead(run.before, e.me, p.queue.pid, p.queue.letter, p.queue.overwrite);
      ReadStays(run, r, p.queue.pid, p.queue.letter);
    }
  }

  lemma QueuingStays(was: Db, now: Db, k: Id, r: Id)
    requires Extends(was, now, k) && r in was.queuings
    ensures r in now.queuings && now.queuings[r] == was.queuings[r]
  {
  }

  lemma ReadStays(run: Run, me: Id, pid: Id, letter: Letter)
    requires run.After? && LetterWasRead(run.before, me, pid, letter)
    ensures LetterWasRead(run, me, pid, letter)
  {
    hide IsLetterOf, IsQueueRead;
    var row :| ReadForQueue(run.before, me, pid, row) && IsLetterOf(letter, row);
    assert ReadForQueue(run, me, pid, row);
  }

  lemma {:induction false} ReadRowKeepsItsVacancy(run: Run, me: Id, pid: Id, row: Row)
    requires ReadForQueue(run, me, pid, row)
    ensures pid in State(run).db.rows && State(run).db.rows[pid].hh == row.hh
    decreases run
  {
    hide Act, SysOk;
    var s, e := State(run.before), run.event;
    if !IsQueueRead(run, me, pid, row) {
      ReadRowKeepsItsVacancy(run.before, me, pid, row);
    }
    RunIsOk(run.before);
    NextKeeps(s, e);
    assert RowStep(s.db.rows[pid], State(run).db.rows[pid]);
  }

  /** Every job in the queue is for the vacancy of its row. */
  lemma JobIsForItsVacancy(run: Run, p: Id)
    requires p in State(run).db.jobs
    ensures p in State(run).db.rows && State(run).db.jobs[p].letter.hh == State(run).db.rows[p].hh
  {
    hide Next, RowsOk, BatchedOk, LettersOk, ClaimsOk, SubmissionsOk, BatchesOk, ProcsOk, OthersUnused, ReadForQueue;
    RunIsOk(run);
    var db := State(run).db;
    assert JobOk(p, db.jobs[p], db.queuings, db.batched, db.claims);
    QueuedLetterWasTheRows(run, db.jobs[p].origin);
    var row :| ReadForQueue(run, db.jobs[p].origin, p, row) && IsLetterOf(db.jobs[p].letter, row);
    ReadRowKeepsItsVacancy(run, db.jobs[p].origin, p, row);
  }
}
