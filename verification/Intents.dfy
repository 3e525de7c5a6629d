/** What a request does is what it was started for, over every run: the request that moves a row was asked to,
    and the answers it got say so. */
module Intents {
  import opened Options
  import opened Tables
  import opened Enrichment
  import opened Funnel

  /** The start of the request, if it has started. */
  function BeganAs(run: Run, me: Id): Option<Proc>
  {
    if run.Init? then None
    else if me in State(run.before).procs then BeganAs(run.before, me)
    else if run.event.Start? && run.event.me == me && Entry(run.event.proc) then Some(run.event.proc) else None
  }

  // ---------------------------------------------------------------- the sender

  predicate HhTookIt(outcome: Sender.Outcome)
  {
    outcome.SubmitSent? || (outcome.SubmitUnsure? && outcome.respondedAfter)
  }

  /** HH shows the vacancy open, unanswered and without a test. */
  predicate IsOpen(answer: Sender.Answer)
  {
    answer.Here? && !answer.archived && !answer.responded && !answer.hasTest
  }

  /** HH has the letter: it had it before, or it took what was submitted. */
  predicate HhHasIt(cycle: Sender.Cycle, submitted: bool)
  {
    if submitted then HhTookIt(cycle.outcome)
    else cycle.answer.Here? && !cycle.answer.archived && cycle.answer.responded
  }

  predicate IsGone(answer: Sender.Answer) { answer.VacancyGone? || (answer.Here? && answer.archived) }

  /** The sender may end its job like this. */
  predicate JobEnds(cycle: Sender.Cycle, checked: bool, submitted: bool, end: JobStatus)
  {
    match end
    case Sent => checked && HhHasIt(cycle, submitted)
    case ManualRequired => checked && !submitted && cycle.answer.Here? && cycle.answer.hasTest
    case Failed =>
      if submitted then cycle.outcome == Sender.SubmitUnsure(false)
      else checked ==> IsGone(cycle.answer) || cycle.answer.SessionExpired?
    case _ => false
  }

  /** The sender may move its row there. */
  predicate RowGoes(cycle: Sender.Cycle, checked: bool, submitted: bool, status: Status)
  {
    match status
    case Sent => checked && HhHasIt(cycle, submitted)
    case Archived => checked && !submitted && IsGone(cycle.answer)
    case SendError =>
      if submitted then cycle.outcome == Sender.SubmitUnsure(false)
      else checked ==> cycle.answer.SessionExpired? || (cycle.answer.Here? && cycle.answer.hasTest)
    case _ => false
  }

  predicate SenderPlan(cycle: Sender.Cycle, submitted: bool, checked: bool, s: Sender.Step)
  {
    match s
    case Acquire(c) => c == cycle && !submitted && !checked
    case ReadBatch(c) => c == cycle && !submitted && !checked
    case NextJob(c, _) => c == cycle && !submitted && !checked
    case ClaimJob(c, _, _, _, _) => c == cycle && !submitted && !checked
    case Snapshot(c, _, _, _) => c == cycle && !submitted && !checked
    case AskHh(c, _, _, _) => c == cycle && !submitted && checked
    case Submit(c, _, _, _) => c == cycle && !submitted && checked && IsOpen(cycle.answer)
    case FinishJob(_, _, end, move) =>
      && JobEnds(cycle, checked, submitted, end)
      && (move.Some? ==> RowGoes(cycle, checked, submitted, move.value))
    case MovePipeline(_, _, status) => RowGoes(cycle, checked, submitted, status)
    case _ => true
  }

  lemma AnswerFits(cycle: Sender.Cycle, b: Id, pid: Id, letter: Letter)
    ensures SenderPlan(cycle, false, true, Sender.AfterAnswer(cycle, b, pid, letter))
  {
  }

  lemma SubmitFits(cycle: Sender.Cycle, b: Id, pid: Id)
    ensures SenderPlan(cycle, true, true, Sender.AfterSubmit(cycle.outcome, b, pid))
  {
  }

  lemma SnapshotFits(db: Db, me: Id, hint: Hint, cycle: Sender.Cycle, s: Sender.Step)
    requires s.Snapshot? && SenderPlan(cycle, me in db.submissions, me in db.checks, s)
    ensures var (now, next) := Sender.Act(db, me, hint, s);
            SenderPlan(cycle, me in now.submissions, me in now.checks, next)
  {
    hide SnapshotMatches;
  }

  lemma EndingFits(db: Db, me: Id, hint: Hint, cycle: Sender.Cycle, s: Sender.Step)
    requires s.FinishJob? || s.MovePipeline?
    requires SenderPlan(cycle, me in db.submissions, me in db.checks, s)
    ensures var (now, next) := Sender.Act(db, me, hint, s);
            SenderPlan(cycle, me in now.submissions, me in now.checks, next)
  {
    hide RowGoes, JobEnds, Moved;
  }

  lemma SenderPlanKeeps(db: Db, me: Id, hint: Hint, cycle: Sender.Cycle, s: Sender.Step)
    requires SenderPlan(cycle, me in db.submissions, me in db.checks, s)
    ensures var (now, next) := Sender.Act(db, me, hint, s);
            SenderPlan(cycle, me in now.submissions, me in now.checks, next)
  {
    hide RowGoes, JobEnds, Drained, Sender.QueueEmpty, InQueue, Sender.AfterAnswer, Sender.AfterSubmit, IsOpen;
    if s.Snapshot? {
      SnapshotFits(db, me, hint, cycle, s);
    } else if s.FinishJob? || s.MovePipeline? {
      EndingFits(db, me, hint, cycle, s);
    } else {
      hide Sender.AfterSnapshot, Transition;
      match s {
        case AskHh(_, b, pid, letter) => AnswerFits(cycle, b, pid, letter);
        case Submit(_, b, pid, _) => SubmitFits(cycle, b, pid);
        case _ =>
      }
    }
  }

  // ---------------------------------------------------------------- enrichment and the scorer

  /** The enrichment is of this row, and the page said what it acts on. */
  predicate EnrichPlan(page: Page, pid: Id, e: Enrich)
  {
    match e
    case Fetch(p) => p == pid
    case ArchiveGone(p, _) => p == pid && page.PageGone?
    case ArchiveShown(p, _, _) => p == pid && page.PageShown? && page.archived
    case Persisting(p, _) => p == pid && page.PageShown? && page.described
    case Reread(p) => p == pid
    case EnrichFailed(transient) => transient ==> page.PageTransient?
    case Enriched(_, _) => true
  }

  lemma EnrichPlanKeeps(db: Db, me: Id, page: Page, token: Option<Id>, hint: Hint, pid: Id, e: Enrich)
    requires EnrichPlan(page, pid, e)
    ensures EnrichPlan(page, pid, EnrichAct(db, me, page, token, hint, e).1)
  {
    hide PersistAct, ArchiveCurrent;
  }

  lemma FetchIsPlanned(page: Page, pid: Id)
    ensures EnrichPlan(page, pid, Fetch(pid))
  {
  }

  /** The status that the scorer writes fits what the rules, the model and HH said. */
  predicate WriteFits(work: Claims.Work, status: Status)
  {
    match status
    case RejectedByRule => work.verdict.HardReject?
    case Scored => work.verdict.Score?
    case Discovered => work.page.PageTransient? && work.attempts + 1 < 3
    case ScoreError => true
    case _ => false
  }

  predicate ClaimsPlan(start: Claims.Step, s: Claims.Step)
  {
    match s
    case ScoreEnrich(work, e) => start == Claims.ScoreClaim(work) && EnrichPlan(work.page, work.pid, e)
    case ScoreWrite(work, status) => start == Claims.ScoreClaim(work) && WriteFits(work, status)
    case ScoreCancelled(work) => start == Claims.ScoreClaim(work)
    case ScoreRelease(work, _) => start == Claims.ScoreClaim(work)
    case MarkWrite(pid) => start == Claims.MarkClaim(pid)
    case RequeueWrite(pid, _) => start == Claims.RequeueRead(pid)
    case ArchiveWrite(pid, _) => start == Claims.ArchiveRead(pid)
    case _ => Claims.Entry(s) ==> start == s
  }

  lemma ClaimsPlanKeeps(db: Db, me: Id, hint: Hint, start: Claims.Step, s: Claims.Step)
    requires ClaimsPlan(start, s)
    ensures ClaimsPlan(start, Claims.Act(db, me, hint, s).1)
  {
    hide EnrichAct, EnrichPlan, Transition, Lease, Claims.Release;
    if s.ScoreClaim? {
      FetchIsPlanned(s.work.page, s.work.pid);
    }
    if s.ScoreEnrich? {
      EnrichPlanKeeps(db, me, s.work.page, Some(me), hint, s.work.pid, s.enrich);
      FailureFits(s.work, EnrichAct(db, me, s.work.page, Some(me), hint, s.enrich).1);
    }
  }

  lemma FailureFits(work: Claims.Work, e: Enrich)
    requires EnrichPlan(work.page, work.pid, e)
    ensures ClaimsPlan(Claims.ScoreClaim(work), Claims.ScoreAfterEnrich(work, e))
  {
  }

  // ---------------------------------------------------------------- drafts, decisions, control

  predicate LettersPlan(start: Letters.Step, s: Letters.Step)
  {
    match s
    case GenerateEnrich(order, e) => start == Letters.GenerateRead(order) && EnrichPlan(order.page, order.pid, e)
    case GenerateWrite(pid, _, _, draft) =>
      && start.GenerateRead? && start.order.pid == pid && start.order.reply.Some?
      && draft == Strip(start.order.reply.value) && 1400 <= |draft| <= 3500
    case SaveReadJob(pid, text) => start == Letters.SaveRead(pid, text)
    case SaveWrite(pid, draft, _) =>
      start.SaveRead? && start.pid == pid && draft == Strip(start.text) && 0 < |draft| <= 6000
    case _ => Letters.Entry(s) ==> start == s
  }

  lemma LettersPlanKeeps(db: Db, me: Id, hint: Hint, start: Letters.Step, s: Letters.Step)
    requires LettersPlan(start, s)
    ensures LettersPlan(start, Letters.Act(db, me, hint, s).1)
  {
    hide EnrichAct, Put, Strip, EnrichPlan;
    if s.GenerateRead? {
      FetchIsPlanned(s.order.page, s.order.pid);
    }
    if s.GenerateEnrich? {
      EnrichPlanKeeps(db, me, s.order.page, None, hint, s.order.pid, s.enrich);
    }
  }

  /** Where a decision of the user sends the row. */
  predicate Asks(action: Review.Action, status: Status)
  {
    match action
    case Select => status == Selected
    case Reject => status == RejectedByUser
    case Defer => status == Hold
    case BackToReview => status == Status.Review
    case Archive => status == Archived
  }

  predicate ReviewPlan(start: Review.Step, s: Review.Step)
  {
    match s
    case DecideWrite(pid, _, status) =>
      start.DecideRead? && start.pid == pid && Asks(start.action, status) && (start.action.Reject? ==> start.hasReason)
    case Enriching(page, e) =>
      start.Enriching? && start.page == page && start.enrich.Fetch? && EnrichPlan(page, start.enrich.pid, e)
    case Discovering(persist) =>
      && start.Discovering? && start.persist.Look?
      && (match persist
          case Insert(hh, resume, described) => start.persist == Look(hh, resume, described)
          case Refresh(_, resume, described) =>
            described == start.persist.described && (resume.Some? ==> resume == start.persist.resume)
          case Look(_, _, _) => persist == start.persist
          case Stored(_) => true)
    case DecideRead(_, _, _) => start == s
    case Done(_) => true
  }

  lemma ReviewPlanKeeps(db: Db, me: Id, hint: Hint, start: Review.Step, s: Review.Step)
    requires ReviewPlan(start, s)
    ensures ReviewPlan(start, Review.Act(db, me, hint, s).1)
  {
    hide EnrichAct, Put, Transition, EnrichPlan, HasRowOf;
    if s.Enriching? {
      EnrichPlanKeeps(db, me, s.page, None, hint, start.enrich.pid, s.enrich);
    }
  }

  predicate ControlPlan(start: Control.Step, s: Control.Step)
  {
    match s
    case PauseWrite(_) => start.PauseRead? || start.StopRead?
    case StopReadJobs(_) => start.StopRead?
    case WantWrite(desired) =>
      if desired == WantStop then start.StopRead? else desired == WantPaused && (start.PauseRead? || start.StopRead?)
    case PauseRead => start.PauseRead?
    case StopRead => start.StopRead?
    case Done(_) => true
    case _ => start.ResumeRead?
  }

  lemma ControlPlanKeeps(db: Db, me: Id, start: Control.Step, s: Control.Step)
    requires ControlPlan(start, s)
    ensures ControlPlan(start, Control.Act(db, me, s).1)
  {
    hide AssignJobs, Control.UnbatchedQueued, Control.AnySending;
  }

  // ---------------------------------------------------------------- the send queue

  /** The row of the request. */
  function QueueRow(s: Queue.Step): Option<Id> { if s.Done? then None else Some(s.pid) }

  predicate QueuePlan(start: Queue.Step, s: Queue.Step)
  {
    && (QueueRow(s).Some? ==> QueueRow(s) == QueueRow(start))
    && match s
       case ApproveRead(_) => start.ApproveRead?
       case ApproveWrite(_, _) => start.ApproveRead?
       case CancelRead(_) => start.CancelRead?
       case CancelReadJob(_) => start.CancelRead?
       case CancelWrite(_) => start.CancelRead?
       case CancelMove(_) => start.CancelRead?
       case ResetRead(_) => start.ResetRead?
       case ResetReadJob(_, _) => start.ResetRead?
       case ResetWrite(_, _) => start.ResetRead?
       case ResetMove(_, _) => start.ResetRead?
       case ResetRollback(_, _) => start.ResetRead?
       case Done(_) => true
       case _ => start.QueueRead?
  }

  lemma QueuePlanKeeps(db: Db, me: Id, start: Queue.Step, s: Queue.Step)
    requires QueuePlan(start, s)
    ensures QueuePlan(start, Queue.Act(db, me, s).1)
  {
    hide Strip, Transition, Enqueue, SetJob, Tables.Approve;
  }

  // ---------------------------------------------------------------- over a run

  predicate Plan(start: Proc, submitted: bool, checked: bool, p: Proc)
  {
    match p
    case OfQueue(s) => start.OfQueue? && QueuePlan(start.queue, s)
    case OfLetters(s) => start.OfLetters? && LettersPlan(start.letters, s)
    case OfReview(s) => start.OfReview? && ReviewPlan(start.review, s)
    case OfClaims(s) => start.OfClaims? && ClaimsPlan(start.claims, s)
    case OfSender(s) =>
      start.OfSender? && start.sender.Acquire? && SenderPlan(start.sender.cycle, submitted, checked, s)
    case OfControl(s) => start.OfControl? && ControlPlan(start.control, s)
  }

  lemma PlanStarts(p: Proc)
    requires Entry(p)
    ensures Plan(p, false, false, p)
  {
  }

  lemma StatementPlans(start: Proc, db: Db, me: Id, hint: Hint, p: Proc)
    requires Plan(start, me in db.submissions, me in db.checks, p)
    ensures var (now, next) := Statement(db, me, hint, p);
            Plan(start, me in now.submissions, me in now.checks, next)
  {
    hide QueuePlan, LettersPlan, ReviewPlan, ClaimsPlan, SenderPlan, ControlPlan;
    hide Queue.Act, Letters.Act, Review.Act, Claims.Act, Sender.Act, Control.Act;
    match p {
      case OfQueue(s) => QueuePlanKeeps(db, me, start.queue, s);
      case OfLetters(s) => LettersPlanKeeps(db, me, hint, start.letters, s);
      case OfReview(s) => ReviewPlanKeeps(db, me, hint, start.review, s);
      case OfClaims(s) => ClaimsPlanKeeps(db, me, hint, start.claims, s);
      case OfSender(s) => SenderPlanKeeps(db, me, hint, start.sender.cycle, s);
      case OfControl(s) => ControlPlanKeeps(db, me, start.control, s);
    }
  }

  /** The handlers have no plan of their own but the scorer's, which write an error or release the claim. */
  lemma InterruptionPlans(start: Proc, submitted: bool, checked: bool, p: Proc, cancelled: bool, landed: bool,
                          now: bool)
    requires Plan(start, submitted, checked, p)
    ensures Plan(start, landed, now, Interrupted(p, cancelled))
  {
  }

  lemma ActPlans(start: Proc, db: Db, me: Id, hint: Hint, p: Proc)
    requires Plan(start, me in db.submissions, me in db.checks, p)
    ensures var (now, next) := Act(db, me, hint, p);
            Plan(start, me in now.submissions, me in now.checks, next)
  {
    hide Plan, Statement, Interrupted;
    StatementPlans(start, db, me, hint, p);
    var now := Act(db, me, hint, p).0;
    InterruptionPlans(start, me in db.submissions, me in db.checks, p, hint.mishap.Cut?, me in now.submissions,
                      me in now.checks);
  }

  lemma TracesStay(was: Db, now: Db, k: Id, me: Id)
    requires Extends(was, now, k) && me != k
    ensures (me in now.submissions <==> me in was.submissions) && (me in now.checks <==> me in was.checks)
  {
  }

  lemma NoTraceYet(s: Sys, me: Id)
    requires SysOk(s) && me !in s.procs
    ensures me !in s.db.submissions && me !in s.db.checks
  {
    hide DbOk, ProcsOk;
    assert Unused(s.db, me);
  }

  /** Every request, in every state of every run, stands where its start and the answers it got have led it. */
  lemma {:induction false} RequestKeepsToItsPlan(run: Run, me: Id)
    requires me in State(run).procs
    ensures var start, s := BeganAs(run, me), State(run);
            start.Some? && Entry(start.value) &&
            Plan(start.value, me in s.db.submissions, me in s.db.checks, s.procs[me])
    decreases run
  {
    hide Plan, Act, Entry, SysOk, Extends;
    var s, e := State(run.before), run.event;
    RunIsOk(run.before);
    if me !in s.procs {
      PlanStarts(e.proc);
      NoTraceYet(s, me);
    } else {
      RequestKeepsToItsPlan(run.before, me);
      if e.Move? && e.me == me {
        ActPlans(BeganAs(run.before, me).value, s.db, me, e.hint, s.procs[me]);
      } else if e.me != me {
        NextKeeps(s, e);
        TracesStay(s.db, State(run).db, e.me, me);
      }
    }
  }

  // ---------------------------------------------------------------- the moves of a run, by what was asked and answered

  predicate RowMoves(was: Db, now: Db, pid: Id)
  {
    pid in was.rows && pid in now.rows && now.rows[pid].status != was.rows[pid].status
  }

  predicate JobMoves(was: Db, now: Db, pid: Id)
  {
    pid in was.jobs && pid in now.jobs && now.jobs[pid].status != was.jobs[pid].status
  }

  predicate DraftMoves(was: Db, now: Db, pid: Id)
  {
    pid in was.rows && pid in now.rows && now.rows[pid].draft != was.rows[pid].draft
  }

  lemma SenderStatementMoves(db: Db, me: Id, hint: Hint, s: Sender.Step, pid: Id)
    ensures var now := Sender.Act(db, me, hint, s).0;
            RowMoves(db, now, pid) ==> s.MovePipeline? && now.rows[pid].status == s.status
  {
    hide SnapshotMatches, Drained, Sender.QueueEmpty, Sender.AfterSnapshot, Sender.AfterAnswer, Sender.AfterSubmit;
  }

  lemma SenderStatementEnds(db: Db, me: Id, hint: Hint, s: Sender.Step, pid: Id)
    ensures var now := Sender.Act(db, me, hint, s).0;
            JobMoves(db, now, pid) ==>
              || (s.ClaimJob? && now.jobs[pid].status == JobStatus.Sending)
              || (s.FinishJob? && now.jobs[pid].status == s.end)
  {
    hide SnapshotMatches, Drained, Sender.QueueEmpty, Sender.AfterSnapshot, Sender.AfterAnswer, Sender.AfterSubmit;
    hide Moved;
  }

  /** Over every run, a sender marks a job or a row only as what came of it: sent if HH has the letter, and
      send_error after its own submission only if HH did not take it. */
  lemma SenderMarksWhatCameOfIt(run: Run, me: Id, pid: Id)
    requires run.After? && run.event.Move? && run.event.me == me
    requires me in State(run.before).procs && State(run.before).procs[me].OfSender?
    ensures var was, now, start := State(run.before).db, State(run).db, BeganAs(run.before, me);
            && start.Some? && start.value.OfSender? && start.value.sender.Acquire?
            && var cycle, submitted, checked := start.value.sender.cycle, me in was.submissions, me in was.checks;
               && (RowMoves(was, now, pid) ==> RowGoes(cycle, checked, submitted, now.rows[pid].status))
               && (JobMoves(was, now, pid) ==>
                     || now.jobs[pid].status == JobStatus.Sending
                     || JobEnds(cycle, checked, submitted, now.jobs[pid].status))
  {
    hide Sender.Act, RowMoves, JobMoves, Entry, RowGoes, JobEnds;
    var s := State(run.before);
    RequestKeepsToItsPlan(run.before, me);
    SenderStatementMoves(s.db, me, run.event.hint, s.procs[me].sender, pid);
    SenderStatementEnds(s.db, me, run.event.hint, s.procs[me].sender, pid);
    Unmoved(s.db, pid);
  }

  lemma Unmoved(db: Db, pid: Id)
    ensures !RowMoves(db, db, pid) && !JobMoves(db, db, pid) && !DraftMoves(db, db, pid)
  {
  }

  lemma PutLeaves(db: Db, p: Id, row: Row, pid: Id)
    requires p in db.rows ==> row.status == db.rows[p].status && row.draft == db.rows[p].draft
    ensures !RowMoves(db, Put(db, p, row), pid) && !DraftMoves(db, Put(db, p, row), pid)
  {
  }

  lemma PersistLeaves(db: Db, me: Id, hint: Hint, s: Persist, pid: Id)
    ensures var now := PersistAct(db, me, hint, s).0; !RowMoves(db, now, pid) && !DraftMoves(db, now, pid)
  {
    hide HasRowOf, IsRowOf, Put, RowMoves, DraftMoves;
    Unmoved(db, pid);
    match s {
      case Refresh(p, resume, described) =>
        if p in db.rows { PutLeaves(db, p, Refreshed(db.rows[p], resume, described), pid); }
      case Insert(hh, resume, described) =>
        if me !in db.rows { PutLeaves(db, me, Row(Discovered, hh, resume, described, "", None, None, 0), pid); }
      case _ =>
    }
  }

  lemma TransitionLeaves(db: Db, p: Id, from: set<Status>, status: Status, token: Option<Id>, pid: Id)
    ensures var now := Transition(db, p, from, status, token).0;
            !DraftMoves(db, now, pid) && (RowMoves(db, now, pid) ==> pid == p && now.rows[pid].status == status)
  {
  }

  lemma EnrichStatementMoves(db: Db, me: Id, page: Page, token: Option<Id>, hint: Hint, e: Enrich, row: Id, pid: Id)
    requires EnrichPlan(page, row, e)
    ensures var now := EnrichAct(db, me, page, token, hint, e).0;
            RowMoves(db, now, pid) ==>
              && pid == row && now.rows[pid].status == Archived
              && (page.PageGone? || (page.PageShown? && page.archived))
    ensures !DraftMoves(db, EnrichAct(db, me, page, token, hint, e).0, pid)
  {
    hide PersistAct, Transition, EnrichAfterFetch, EnrichAfterShown, RowMoves, DraftMoves;
    Unmoved(db, pid);
    match e {
      case ArchiveGone(p, from) =>
        TransitionLeaves(db, p, {from}, Archived, if from == Scoring then token else None, pid);
      case ArchiveShown(p, from, _) =>
        TransitionLeaves(db, p, {from}, Archived, if from == Scoring then token else None, pid);
      case Persisting(_, persist) => PersistLeaves(db, me, hint, persist, pid);
      case _ =>
    }
  }

  /** The scorer may move its row there. */
  predicate ScorerMoves(work: Claims.Work, from: Status, status: Status)
  {
    match status
    case Scoring => from == Discovered
    case Archived => work.page.PageGone? || (work.page.PageShown? && work.page.archived)
    case RejectedByRule => from == Scoring && work.verdict.HardReject?
    case Scored => from == Scoring && work.verdict.Score?
    case Discovered => from == Scoring
    case ScoreError => from == Scoring
    case _ => false
  }

  lemma ScorerStatementMoves(db: Db, me: Id, hint: Hint, start: Claims.Step, s: Claims.Step, pid: Id)
    requires start.ScoreClaim? && ClaimsPlan(start, s)
    ensures var now := Claims.Act(db, me, hint, s).0;
            RowMoves(db, now, pid) ==>
              pid == start.work.pid && ScorerMoves(start.work, db.rows[pid].status, now.rows[pid].status)
  {
    hide EnrichAct, EnrichPlan, Claims.ScoreAfterEnrich;
    if s.ScoreEnrich? {
      EnrichStatementMoves(db, me, s.work.page, Some(me), hint, s.enrich, s.work.pid, pid);
    }
  }

  /** Over every run, a scorer moves only its own row, to rejected_by_rule only if the rules reject the vacancy, to
      scored only if they do not and the model scores it, and to archived only if HH shows it gone. */
  lemma ScorerFollowsItsVerdict(run: Run, me: Id, work: Claims.Work, pid: Id)
    requires run.After? && run.event.Move? && run.event.me == me && me in State(run.before).procs
    requires BeganAs(run.before, me) == Some(OfClaims(Claims.ScoreClaim(work)))
    requires RowMoves(State(run.before).db, State(run).db, pid)
    ensures pid == work.pid
    ensures ScorerMoves(work, State(run.before).db.rows[pid].status, State(run).db.rows[pid].status)
  {
    hide Claims.Act, ClaimsPlan, RowMoves, Entry, ScorerMoves;
    var s := State(run.before);
    RequestKeepsToItsPlan(run.before, me);
    ScorerStatementMoves(s.db, me, run.event.hint, Claims.ScoreClaim(work), s.procs[me].claims, pid);
    Unmoved(s.db, pid);
  }

  lemma DeciderStatementMoves(db: Db, me: Id, hint: Hint, start: Review.Step, s: Review.Step, pid: Id)
    requires start.DecideRead? && ReviewPlan(start, s)
    ensures var now := Review.Act(db, me, hint, s).0;
            RowMoves(db, now, pid) ==> pid == start.pid && Asks(start.action, now.rows[pid].status)
    ensures s.DecideWrite? ==> (start.action.Reject? ==> start.hasReason)
  {
    hide EnrichAct, PersistAct, Asks;
  }

  /** Over every run, a decision of the user moves its own row only, and where the action says. */
  lemma DecisionIsCarriedOut(run: Run, me: Id, start: Review.Step, pid: Id)
    requires run.After? && run.event.Move? && run.event.me == me && me in State(run.before).procs
    requires BeganAs(run.before, me) == Some(OfReview(start)) && start.DecideRead?
    requires RowMoves(State(run.before).db, State(run).db, pid)
    ensures pid == start.pid && Asks(start.action, State(run).db.rows[pid].status)
  {
    hide Review.Act, ReviewPlan, RowMoves, Entry, Asks;
    var s := State(run.before);
    RequestKeepsToItsPlan(run.before, me);
    DeciderStatementMoves(s.db, me, run.event.hint, start, s.procs[me].review, pid);
    Unmoved(s.db, pid);
  }

  // ---------------------------------------------------------------- drafts

  /** This is the text that the request was to write. */
  predicate WritesDraft(start: Letters.Step, pid: Id, draft: string)
  {
    match start
    case SaveRead(p, text) => p == pid && draft == Strip(text) && 0 < |draft| <= 6000
    case GenerateRead(order) =>
      order.pid == pid && order.reply.Some? && draft == Strip(order.reply.value) && 1400 <= |draft| <= 3500
    case _ => false
  }

  lemma PutDrafts(db: Db, p: Id, row: Row, pid: Id)
    ensures var now := Put(db, p, row); DraftMoves(db, now, pid) ==> pid == p && now.rows[pid].draft == row.draft
  {
  }

  lemma LettersStatementDrafts(db: Db, me: Id, hint: Hint, start: Letters.Step, s: Letters.Step, pid: Id)
    requires LettersPlan(start, s)
    ensures var now := Letters.Act(db, me, hint, s).0;
            DraftMoves(db, now, pid) ==> WritesDraft(start, pid, now.rows[pid].draft)
  {
    hide Strip, Letters.GenerateAfterReads, Letters.SaveAfterReads, EnrichPlan, EnrichAct, Put, DraftMoves, Moved;
    Unmoved(db, pid);
    match s {
      case GenerateEnrich(order, e) => EnrichKeepsDrafts(db, me, order.page, None, hint, e, pid);
      case GenerateWrite(p, selected, resume, draft) =>
        if p in db.rows {
          var row := if selected then Moved(db.rows[p], LetterDraft) else db.rows[p];
          PutDrafts(db, p, Letters.Redrafted(row, draft).(resume := Some(resume)), pid);
        }
      case SaveWrite(p, draft, approved) =>
        if p in db.rows {
          var row := if approved then Moved(db.rows[p], LetterDraft) else db.rows[p];
          PutDrafts(db, p, Letters.Redrafted(row, draft), pid);
        }
      case _ =>
    }
  }

  lemma OthersKeepDrafts(db: Db, me: Id, hint: Hint, p: Proc, pid: Id)
    requires !p.OfLetters?
    ensures !DraftMoves(db, Statement(db, me, hint, p).0, pid)
  {
    hide Queue.Act, Review.Act, Claims.Act, Sender.Act, Control.Act, DraftMoves;
    match p {
      case OfQueue(s) => QueueKeepsDrafts(db, me, s, pid);
      case OfReview(s) => ReviewKeepsDrafts(db, me, hint, s, pid);
      case OfClaims(s) => ClaimsKeepDrafts(db, me, hint, s, pid);
      case OfSender(s) => SenderKeepsDrafts(db, me, hint, s, pid);
      case OfControl(s) => ControlKeepsDrafts(db, me, s, pid);
    }
  }

  lemma QueueKeepsDrafts(db: Db, me: Id, s: Queue.Step, pid: Id)
    ensures !DraftMoves(db, Queue.Act(db, me, s).0, pid)
  {
    hide Strip;
  }

  lemma EnrichKeepsDrafts(db: Db, me: Id, page: Page, token: Option<Id>, hint: Hint, e: Enrich, pid: Id)
    ensures !DraftMoves(db, EnrichAct(db, me, page, token, hint, e).0, pid)
  {
    hide PersistAct, Transition, EnrichAfterFetch, EnrichAfterShown, DraftMoves;
    Unmoved(db, pid);
    match e {
      case ArchiveGone(p, from) =>
        TransitionLeaves(db, p, {from}, Archived, if from == Scoring then token else None, pid);
      case ArchiveShown(p, from, _) =>
        TransitionLeaves(db, p, {from}, Archived, if from == Scoring then token else None, pid);
      case Persisting(_, persist) => PersistLeaves(db, me, hint, persist, pid);
      case _ =>
    }
  }

  lemma ReviewKeepsDrafts(db: Db, me: Id, hint: Hint, s: Review.Step, pid: Id)
    ensures !DraftMoves(db, Review.Act(db, me, hint, s).0, pid)
  {
    hide EnrichAct, PersistAct, Transition, DraftMoves;
    Unmoved(db, pid);
    match s {
      case DecideWrite(p, from, status) => TransitionLeaves(db, p, {from}, status, None, pid);
      case Enriching(page, e) => EnrichKeepsDrafts(db, me, page, None, hint, e, pid);
      case Discovering(persist) => PersistLeaves(db, me, hint, persist, pid);
      case _ =>
    }
  }

  lemma PutKeepsDrafts(db: Db, p: Id, row: Row, pid: Id)
    requires p in db.rows && row.draft == db.rows[p].draft
    ensures !DraftMoves(db, Put(db, p, row), pid)
  {
  }

  lemma LeaseKeepsDrafts(db: Db, me: Id, p: Id, pid: Id)
    requires p in db.rows
    ensures !DraftMoves(db, Lease(db, me, p), pid)
  {
  }

  lemma ScoreKeepsDraft(row: Row, status: Status)
    ensures Claims.ScoreWritten(row, status).draft == row.draft == Claims.Reaped(row).draft
  {
  }

  lemma ClaimsKeepDrafts(db: Db, me: Id, hint: Hint, s: Claims.Step, pid: Id)
    ensures !DraftMoves(db, Claims.Act(db, me, hint, s).0, pid)
  {
    hide EnrichAct, Transition, Claims.ScoreAfterEnrich, Put, DraftMoves, Moved;
    Unmoved(db, pid);
    match s {
      case ScoreClaim(work) => if work.pid in db.rows { LeaseKeepsDrafts(db, me, work.pid, pid); }
      case MarkClaim(p) => if p in db.rows { LeaseKeepsDrafts(db, me, p, pid); }
      case ScoreWrite(work, status) =>
        if work.pid in db.rows {
          ScoreKeepsDraft(db.rows[work.pid], status);
          PutKeepsDrafts(db, work.pid, Claims.ScoreWritten(db.rows[work.pid], status), pid);
        }
      case Reap(p) =>
        if p in db.rows {
          ScoreKeepsDraft(db.rows[p], Scored);
          PutKeepsDrafts(db, p, Claims.Reaped(db.rows[p]), pid);
        }
      case ScoreEnrich(work, e) => EnrichKeepsDrafts(db, me, work.page, Some(me), hint, e, pid);
      case ScoreCancelled(work) => TransitionLeaves(db, work.pid, {Scoring}, Discovered, Some(me), pid);
      case ScoreRelease(work, _) => TransitionLeaves(db, work.pid, {Scoring}, Discovered, Some(me), pid);
      case MarkWrite(p) => TransitionLeaves(db, p, {Scoring}, ScoreError, Some(me), pid);
      case RequeueWrite(p, from) => TransitionLeaves(db, p, {from}, Discovered, None, pid);
      case ArchiveWrite(p, from) => TransitionLeaves(db, p, {from}, Archived, None, pid);
      case _ =>
    }
  }

  lemma SenderKeepsDrafts(db: Db, me: Id, hint: Hint, s: Sender.Step, pid: Id)
    ensures !DraftMoves(db, Sender.Act(db, me, hint, s).0, pid)
  {
    hide SnapshotMatches, Drained, Sender.QueueEmpty, Sender.AfterSnapshot, Sender.AfterAnswer, Sender.AfterSubmit;
  }

  lemma ControlKeepsDrafts(db: Db, me: Id, s: Control.Step, pid: Id)
    ensures !DraftMoves(db, Control.Act(db, me, s).0, pid)
  {
    hide Control.AnySending, Control.UnbatchedQueued;
  }

  /** Over every run, a draft becomes only what the user typed or the model wrote, stripped and of the length
      allowed, by a request for this very row. */
  lemma DraftIsWhatWasAsked(run: Run, pid: Id)
    requires run.After? && DraftMoves(State(run.before).db, State(run).db, pid)
    ensures run.event.Move? && run.event.me in State(run.before).procs
    ensures var start := BeganAs(run.before, run.event.me);
            start.Some? && start.value.OfLetters? &&
            WritesDraft(start.value.letters, pid, State(run).db.rows[pid].draft)
  {
    hide Statement, Entry, LettersPlan, WritesDraft, DraftMoves;
    var s, e := State(run.before), run.event;
    UnmovedDraft(s.db, pid);
    DbAfter(run);
    RequestKeepsToItsPlan(run.before, e.me);
    var p := s.procs[e.me];
    if p.OfLetters? {
      LettersStatementIs(s.db, e.me, e.hint, p.letters);
      LettersStatementDrafts(s.db, e.me, e.hint, BeganAs(run.before, e.me).value.letters, p.letters, pid);
    } else {
      OthersKeepDrafts(s.db, e.me, e.hint, p, pid);
    }
  }

  lemma LettersStatementIs(db: Db, me: Id, hint: Hint, s: Letters.Step)
    ensures Statement(db, me, hint, OfLetters(s)).0 == Letters.Act(db, me, hint, s).0
  {
    hide Letters.Act;
  }

  lemma UnmovedDraft(db: Db, pid: Id)
    ensures !DraftMoves(db, db, pid)
  {
  }

  // ---------------------------------------------------------------- the wish for the sender

  lemma ControlStatementWants(db: Db, me: Id, start: Control.Step, s: Control.Step)
    requires ControlPlan(start, s)
    ensures var now := Control.Act(db, me, s).0;
            now.desired != db.desired ==> MayWant(start, now.desired)
  {
    hide Control.AnySending, Control.UnbatchedQueued, WithStatus;
  }

  /** Resume asks for running, pause for paused, and stop for either a stop or a pause. */
  predicate MayWant(start: Control.Step, desired: Desired)
  {
    match desired
    case WantRunning => start.ResumeRead?
    case WantStop => start.StopRead?
    case WantPaused => start.PauseRead? || start.StopRead?
  }

  lemma SenderStatementWants(db: Db, me: Id, hint: Hint, s: Sender.Step)
    ensures var now := Sender.Act(db, me, hint, s).0; now.desired != db.desired ==> now.desired == WantPaused
  {
    hide SnapshotMatches, Drained, Sender.QueueEmpty, Sender.AfterSnapshot, Sender.AfterAnswer, Sender.AfterSubmit;
  }

  lemma EnrichWantsNothing(db: Db, me: Id, page: Page, token: Option<Id>, hint: Hint, e: Enrich)
    ensures EnrichAct(db, me, page, token, hint, e).0.desired == db.desired
  {
    hide HasRowOf, IsRowOf, EnrichAfterFetch, EnrichAfterShown;
  }

  lemma PutWantsNothing(db: Db, p: Id)
    ensures forall row :: Put(db, p, row).desired == db.desired
  {
  }

  lemma QueueWantsNothing(db: Db, me: Id, s: Queue.Step)
    ensures Queue.Act(db, me, s).0.desired == db.desired
  {
    hide Strip, Queue.QueueAfterReads, Queue.ResetAfterReads, Queue.ApproveAfterRead;
  }

  lemma LettersWantNothing(db: Db, me: Id, hint: Hint, s: Letters.Step)
    ensures Letters.Act(db, me, hint, s).0.desired == db.desired
  {
    hide Strip, EnrichAct, Letters.GenerateAfterReads, Letters.SaveAfterReads, Letters.GenerateAfterEnrich;
    hide Letters.Redrafted, Put, Moved;
    match s {
      case GenerateEnrich(order, e) => EnrichWantsNothing(db, me, order.page, None, hint, e);
      case GenerateWrite(p, _, _, _) => PutWantsNothing(db, p);
      case SaveWrite(p, _, _) => PutWantsNothing(db, p);
      case _ =>
    }
  }

  lemma ReviewWantsNothing(db: Db, me: Id, hint: Hint, s: Review.Step)
    ensures Review.Act(db, me, hint, s).0.desired == db.desired
  {
    hide EnrichAct, HasRowOf, IsRowOf, Review.DecideAfterRead;
    if s.Enriching? { EnrichWantsNothing(db, me, s.page, None, hint, s.enrich); }
  }

  lemma ClaimsWantNothing(db: Db, me: Id, hint: Hint, s: Claims.Step)
    ensures Claims.Act(db, me, hint, s).0.desired == db.desired
  {
    hide EnrichAct, Claims.ScoreAfterEnrich, Claims.ScoreWritten, Claims.Reaped;
    if s.ScoreEnrich? { EnrichWantsNothing(db, me, s.work.page, Some(me), hint, s.enrich); }
  }

  /** Who may make the desired state what it is. */
  predicate Wants(start: Proc, desired: Desired)
  {
    (start.OfControl? && MayWant(start.control, desired)) || (start.OfSender? && desired == WantPaused)
  }

  lemma StatementWants(start: Proc, submitted: bool, checked: bool, db: Db, me: Id, hint: Hint, p: Proc)
    requires Plan(start, submitted, checked, p)
    ensures var now := Statement(db, me, hint, p).0; now.desired != db.desired ==> Wants(start, now.desired)
  {
    hide Control.Act, Sender.Act, Queue.Act, Letters.Act, Review.Act, Claims.Act, MayWant;
    hide ControlPlan, SenderPlan, QueuePlan, LettersPlan, ReviewPlan, ClaimsPlan;
    match p {
      case OfControl(s) => ControlStatementWants(db, me, start.control, s);
      case OfSender(s) => SenderStatementWants(db, me, hint, s);
      case OfQueue(s) => QueueWantsNothing(db, me, s);
      case OfLetters(s) => LettersWantNothing(db, me, hint, s);
      case OfReview(s) => ReviewWantsNothing(db, me, hint, s);
      case OfClaims(s) => ClaimsWantNothing(db, me, hint, s);
    }
  }

  /** Over every run, the sender's desired state becomes running only by a resume, stop-after-current only by a stop,
      and paused only by a pause, a stop or the end of a sender's cycle. */
  lemma DesiredIsAskedFor(run: Run)
    requires run.After? && State(run).db.desired != State(run.before).db.desired
    ensures run.event.Move? && run.event.me in State(run.before).procs
    ensures var start := BeganAs(run.before, run.event.me); start.Some? && Wants(start.value, State(run).db.desired)
  {
    hide Statement, Entry, Plan, Wants, Next;
    var s, e := State(run.before), run.event;
    DbAfter(run);
    RequestKeepsToItsPlan(run.before, e.me);
    StatementWants(BeganAs(run.before, e.me).value, e.me in s.db.submissions, e.me in s.db.checks, s.db, e.me, e.hint,
                   s.procs[e.me]);
  }
}
