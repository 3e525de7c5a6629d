/** Which request may move a row from which status to which, over every run. */
module Lifecycle {
  import opened Options
  import opened Tables
  import opened Enrichment
  import opened Funnel

  datatype Kind =
    | Approval | Enqueueing | Cancelling | Resetting | Generating | Saving | Deciding | Enriching | Discovering
    | ScoringOne | Marking | Reaping | Requeuing | Archiving | SendingOne | Controlling

  function QueueKind(s: Queue.Step): Option<Kind>
  {
    match s
    case ApproveRead(_) => Some(Approval)
    case ApproveWrite(_, _) => Some(Approval)
    case QueueRead(_) => Some(Enqueueing)
    case QueueReadJob(_, _) => Some(Enqueueing)
    case QueueWrite(_, _, _) => Some(Enqueueing)
    case QueueMove(_) => Some(Enqueueing)
    case QueueRollback(_) => Some(Enqueueing)
    case CancelRead(_) => Some(Cancelling)
    case CancelReadJob(_) => Some(Cancelling)
    case CancelWrite(_) => Some(Cancelling)
    case CancelMove(_) => Some(Cancelling)
    case ResetRead(_) => Some(Resetting)
    case ResetReadJob(_, _) => Some(Resetting)
    case ResetWrite(_, _) => Some(Resetting)
    case ResetMove(_, _) => Some(Resetting)
    case ResetRollback(_, _) => Some(Resetting)
    case Done(_) => None
  }

  function ClaimsKind(s: Claims.Step): Option<Kind>
  {
    match s
    case MarkClaim(_) => Some(Marking)
    case MarkWrite(_) => Some(Marking)
    case Reap(_) => Some(Reaping)
    case RequeueRead(_) => Some(Requeuing)
    case RequeueWrite(_, _) => Some(Requeuing)
    case ArchiveRead(_) => Some(Archiving)
    case ArchiveWrite(_, _) => Some(Archiving)
    case Done(_) => None
    case ScoreDone => None
    case ScoreDropped => None
    case ScoreUnreleased => None
    case _ => Some(ScoringOne)
  }

  /** The kind of a request that has not ended. */
  function KindOf(p: Proc): Option<Kind>
  {
    match p
    case OfQueue(s) => QueueKind(s)
    case OfLetters(s) =>
      if s.Done? then None
      else if s.GenerateRead? || s.GenerateEnrich? || s.GenerateWrite? then Some(Generating) else Some(Saving)
    case OfReview(s) =>
      if s.Done? then None
      else if s.Enriching? then Some(Enriching)
      else if s.Discovering? then Some(Discovering) else Some(Deciding)
    case OfClaims(s) => ClaimsKind(s)
    case OfSender(s) => if s.Done? then None else Some(SendingOne)
    case OfControl(s) => if s.Done? then None else Some(Controlling)
  }

  /** The vacancy is gone on HH: `enrich` archives it from whatever status it read, but never from `sent`. */
  predicate GoneMove(from: Status, status: Status) { from != Status.Sent && status == Archived }

  /** The lifecycle: the moves that a request of each kind may make. */
  predicate MayMove(kind: Kind, from: Status, status: Status)
  {
    match kind
    case Approval => from == LetterDraft && status == Approved
    case Enqueueing => from == Approved && status == QueuedToSend
    case Cancelling => from == QueuedToSend && status == Approved
    case Resetting => from == SendError && status == Approved
    case Generating => (from == Selected && status == LetterDraft) || GoneMove(from, status)
    case Saving => from == Approved && status == LetterDraft
    case Deciding =>
      || (from in Review.REVIEWABLE && status in {Selected, RejectedByUser, Hold, Status.Review})
      || (from in Review.ARCHIVABLE && status == Archived)
    case Enriching => GoneMove(from, status)
    case Discovering => false
    case ScoringOne =>
      || (from == Discovered && status == Scoring)
      || (from == Scoring && status in {Scored, RejectedByRule, ScoreError, Discovered})
      || GoneMove(from, status)
    case Marking => (from == Discovered && status == Scoring) || (from == Scoring && status == ScoreError)
    case Reaping => from == Scoring && status in {Discovered, ScoreError}
    case Requeuing => from in Claims.RESCORABLE && status == Discovered
    case Archiving => from in Claims.ARCHIVABLE && status == Archived
    case SendingOne => from == QueuedToSend && status in {Status.Sent, SendError, Archived}
    case Controlling => false
  }

  /** What a statement does to one row's status. */
  predicate Stays(was: Db, now: Db, pid: Id)
  {
    pid in was.rows && pid in now.rows && now.rows[pid].status == was.rows[pid].status
  }

  predicate MovesBy(was: Db, now: Db, pid: Id, kind: Kind)
  {
    pid in was.rows && pid in now.rows && MayMove(kind, was.rows[pid].status, now.rows[pid].status)
  }

  lemma RowAfterPut(db: Db, target: Id, row: Row, pid: Id)
    requires pid in db.rows
    ensures var now := Put(db, target, row).rows; pid in now && now[pid] == if pid == target then row else db.rows[pid]
  {
  }

  lemma TransitionMoves(db: Db, target: Id, from: set<Status>, status: Status, token: Option<Id>, pid: Id)
    requires pid in db.rows
    ensures var now := Transition(db, target, from, status, token).0;
            Stays(db, now, pid) || (pid in now.rows && db.rows[pid].status in from && now.rows[pid].status == status)
  {
    hide Put;
    if Allows(db, target, from, token) {
      RowAfterPut(db, target, Moved(db.rows[target], status), pid);
    }
  }

  lemma PersistStays(db: Db, me: Id, hint: Hint, s: Persist, pid: Id)
    requires pid in db.rows
    ensures Stays(db, PersistAct(db, me, hint, s).0, pid)
  {
    hide Put, HasRowOf, IsRowOf;
    match s {
      case Refresh(target, resume, described) =>
        if target in db.rows { RowAfterPut(db, target, Refreshed(db.rows[target], resume, described), pid); }
      case Insert(hh, resume, described) =>
        RowAfterPut(db, me, Row(Discovered, hh, resume, described, "", None, None, 0), pid);
      case _ =>
    }
  }

  /** The archive step of an enrichment of the row that was read in this status. */
  predicate ArchivesAsRead(s: Enrich, pid: Id, status: Status)
  {
    (s.ArchiveGone? || s.ArchiveShown?) && s.pid == pid && s.from == status
  }

  lemma TransitionTarget(db: Db, target: Id, from: set<Status>, status: Status, token: Option<Id>, pid: Id)
    requires pid in db.rows
    ensures Stays(db, Transition(db, target, from, status, token).0, pid) || pid == target
  {
  }

  lemma EnrichMoves(db: Db, me: Id, page: Page, token: Option<Id>, hint: Hint, s: Enrich, pid: Id)
    requires pid in db.rows && EnrichOk(s)
    ensures var now := EnrichAct(db, me, page, token, hint, s).0;
            || Stays(db, now, pid)
            || (pid in now.rows && GoneMove(db.rows[pid].status, now.rows[pid].status)
                && ArchivesAsRead(s, pid, db.rows[pid].status))
  {
    hide PersistAct, Transition;
    match s {
      case ArchiveGone(target, from) => ArchiveMoves(db, target, from, token, pid);
      case ArchiveShown(target, from, _) => ArchiveMoves(db, target, from, token, pid);
      case Persisting(_, persist) => PersistStays(db, me, hint, persist, pid);
      case _ =>
    }
  }

  lemma ArchiveMoves(db: Db, target: Id, from: Status, token: Option<Id>, pid: Id)
    requires pid in db.rows
    ensures var now := ArchiveCurrent(db, target, from, token);
            || Stays(db, now, pid)
            || (pid == target && pid in now.rows && db.rows[pid].status == from && now.rows[pid].status == Archived)
  {
    hide Transition;
    TransitionMoves(db, target, {from}, Archived, if from == Scoring then token else None, pid);
    TransitionTarget(db, target, {from}, Archived, if from == Scoring then token else None, pid);
  }

  lemma SetJobStays(db: Db, target: Id, status: JobStatus, pid: Id)
    requires pid in db.rows && target in db.jobs
    ensures Stays(db, SetJob(db, target, status), pid)
  {
  }

  lemma ApproveMoves(db: Db, target: Id, text: string, pid: Id)
    requires pid in db.rows && target in db.rows
    ensures var now := Tables.Approve(db, target, text);
            Stays(db, now, pid) || (pid == target && pid in now.rows && now.rows[pid].status == Approved)
  {
  }

  lemma EnqueueStays(db: Db, me: Id, target: Id, letter: Letter, pid: Id)
    requires pid in db.rows
    ensures Stays(db, Enqueue(db, me, target, letter), pid)
  {
  }

  lemma ApproveQueueMoves(db: Db, me: Id, s: Queue.Step, pid: Id)
    requires pid in db.rows && QueueKind(s) in {Some(Approval), Some(Enqueueing)}
    ensures var now := Queue.Act(db, me, s).0; Stays(db, now, pid) || MovesBy(db, now, pid, QueueKind(s).value)
  {
    hide Transition, SetJob, Strip, Put, Enqueue, Tables.Approve, Queue.QueueAfterReads, Queue.ApproveAfterRead;
    match s {
      case ApproveWrite(target, text) => if target in db.rows { ApproveMoves(db, target, text, pid); }
      case QueueWrite(target, letter, _) => EnqueueStays(db, me, target, letter, pid);
      case QueueMove(target) => TransitionMoves(db, target, {Approved}, QueuedToSend, None, pid);
      case QueueRollback(target) => if target in db.jobs { SetJobStays(db, target, Cancelled, pid); }
      case _ =>
    }
  }

  lemma CancelResetMoves(db: Db, me: Id, s: Queue.Step, pid: Id)
    requires pid in db.rows && QueueKind(s) in {Some(Cancelling), Some(Resetting)}
    ensures var now := Queue.Act(db, me, s).0; Stays(db, now, pid) || MovesBy(db, now, pid, QueueKind(s).value)
  {
    hide Transition, SetJob, Strip, Put, Queue.ResetAfterReads;
    match s {
      case CancelMove(target) => TransitionMoves(db, target, {QueuedToSend}, Approved, None, pid);
      case ResetMove(target, _) => TransitionMoves(db, target, {SendError}, Approved, None, pid);
      case CancelWrite(target) => if target in db.jobs { SetJobStays(db, target, Cancelled, pid); }
      case ResetWrite(target, _) => if target in db.jobs { SetJobStays(db, target, Cancelled, pid); }
      case ResetRollback(target, previous) => if target in db.jobs { SetJobStays(db, target, previous, pid); }
      case _ =>
    }
  }

  lemma LettersMoves(db: Db, me: Id, hint: Hint, s: Letters.Step, pid: Id)
    requires pid in db.rows && !s.Done? && Letters.StepOk(s)
    ensures var now := Letters.Act(db, me, hint, s).0;
            Stays(db, now, pid) || MovesBy(db, now, pid, KindOf(OfLetters(s)).value)
  {
    hide EnrichAct, Strip, Put, Letters.GenerateAfterReads, Letters.GenerateAfterEnrich, Letters.SaveAfterReads;
    match s {
      case GenerateEnrich(order, enrich) => EnrichMoves(db, me, order.page, None, hint, enrich, pid);
      case GenerateWrite(target, selected, resume, draft) =>
        if target in db.rows {
          var row := db.rows[target];
          RowAfterPut(db, target, Letters.Redrafted(Moved(row, LetterDraft), draft).(resume := Some(resume)), pid);
          RowAfterPut(db, target, Letters.Redrafted(row, draft).(resume := Some(resume)), pid);
        }
      case SaveWrite(target, draft, approved) =>
        if target in db.rows {
          RowAfterPut(db, target, Letters.Redrafted(Moved(db.rows[target], LetterDraft), draft), pid);
          RowAfterPut(db, target, Letters.Redrafted(db.rows[target], draft), pid);
        }
      case _ =>
    }
  }

  lemma ReviewMoves(db: Db, me: Id, hint: Hint, s: Review.Step, pid: Id)
    requires pid in db.rows && !s.Done? && Review.StepOk(s)
    ensures var now := Review.Act(db, me, hint, s).0;
            Stays(db, now, pid) || MovesBy(db, now, pid, KindOf(OfReview(s)).value)
  {
    hide EnrichAct, PersistAct, Transition;
    match s {
      case DecideWrite(target, from, status) => TransitionMoves(db, target, {from}, status, None, pid);
      case Enriching(page, enrich) => EnrichMoves(db, me, page, None, hint, enrich, pid);
      case Discovering(persist) => PersistStays(db, me, hint, persist, pid);
      case _ =>
    }
  }

  lemma LeaseMoves(db: Db, me: Id, target: Id, pid: Id)
    requires pid in db.rows && target in db.rows
    ensures var now := Lease(db, me, target);
            Stays(db, now, pid) || (pid == target && pid in now.rows && now.rows[pid].status == Scoring)
  {
  }

  lemma ScorerMoves(db: Db, me: Id, hint: Hint, s: Claims.Step, pid: Id)
    requires pid in db.rows && ClaimsKind(s) == Some(ScoringOne) && Claims.StepOk(db, me, s)
    ensures var now := Claims.Act(db, me, hint, s).0; Stays(db, now, pid) || MovesBy(db, now, pid, ScoringOne)
    ensures || Stays(db, Claims.Act(db, me, hint, s).0, pid) || db.rows[pid].status in {Discovered, Scoring}
            || (s.ScoreEnrich? && ArchivesAsRead(s.enrich, pid, db.rows[pid].status))
  {
    hide EnrichAct, Transition, Put, Lease, Claims.Claimed, Claims.Carried;
    match s {
      case ScoreClaim(work) => if work.pid in db.rows { LeaseMoves(db, me, work.pid, pid); }
      case ScoreEnrich(work, enrich) => EnrichMoves(db, me, work.page, Some(me), hint, enrich, pid);
      case ScoreWrite(work, status) =>
        if work.pid in db.rows { RowAfterPut(db, work.pid, Claims.ScoreWritten(db.rows[work.pid], status), pid); }
      case ScoreCancelled(work) => TransitionMoves(db, work.pid, {Scoring}, Discovered, Some(me), pid);
      case ScoreRelease(work, _) => TransitionMoves(db, work.pid, {Scoring}, Discovered, Some(me), pid);
    }
  }

  lemma MarkReapMoves(db: Db, me: Id, hint: Hint, s: Claims.Step, pid: Id)
    requires pid in db.rows && ClaimsKind(s) in {Some(Marking), Some(Reaping)}
    ensures var now := Claims.Act(db, me, hint, s).0; Stays(db, now, pid) || MovesBy(db, now, pid, ClaimsKind(s).value)
  {
    hide Transition, Put, Lease;
    match s {
      case MarkClaim(target) => if target in db.rows { LeaseMoves(db, me, target, pid); }
      case MarkWrite(target) => TransitionMoves(db, target, {Scoring}, ScoreError, Some(me), pid);
      case Reap(target) => if target in db.rows { RowAfterPut(db, target, Claims.Reaped(db.rows[target]), pid); }
    }
  }

  lemma MaintenanceMoves(db: Db, me: Id, hint: Hint, s: Claims.Step, pid: Id)
    requires pid in db.rows && ClaimsKind(s) in {Some(Requeuing), Some(Archiving)} && Claims.StepOk(db, me, s)
    ensures var now := Claims.Act(db, me, hint, s).0; Stays(db, now, pid) || MovesBy(db, now, pid, ClaimsKind(s).value)
  {
    hide Transition;
    match s {
      case RequeueWrite(target, from) => TransitionMoves(db, target, {from}, Discovered, None, pid);
      case ArchiveWrite(target, from) => TransitionMoves(db, target, {from}, Archived, None, pid);
      case _ =>
    }
  }

  lemma SenderMoves(db: Db, me: Id, hint: Hint, s: Sender.Step, pid: Id)
    requires pid in db.rows && !s.Done? && Sender.StepOk(db, me, s)
    ensures var now := Sender.Act(db, me, hint, s).0; Stays(db, now, pid) || MovesBy(db, now, pid, SendingOne)
  {
    hide Transition, SnapshotMatches, Drained, Sender.Holds, Sender.ReadJob, Sender.Fresh, Sender.QueueEmpty;
    if s.MovePipeline? {
      TransitionMoves(db, s.pid, {QueuedToSend}, s.status, None, pid);
    }
  }

  lemma ControlStays(db: Db, me: Id, s: Control.Step, pid: Id)
    requires pid in db.rows
    ensures Stays(db, Control.Act(db, me, s).0, pid)
  {
    hide WithStatus, Control.UnbatchedQueued, Control.AnySending;
  }

  lemma StatementMoves(db: Db, me: Id, hint: Hint, p: Proc, pid: Id)
    requires DbOk(db) && ProcOk(db, me, p) && pid in db.rows && KindOf(p).Some?
    ensures var now := Statement(db, me, hint, p).0; Stays(db, now, pid) || MovesBy(db, now, pid, KindOf(p).value)
  {
    hide DbOk, MovesBy, Stays, Queue.Act, Letters.Act, Review.Act, Claims.Act, Sender.Act, Control.Act;
    hide Queue.StepOk, Letters.StepOk, Review.StepOk, Claims.StepOk, Sender.StepOk, Control.StepOk;
    match p {
      case OfQueue(s) =>
        if QueueKind(s) in {Some(Approval), Some(Enqueueing)} { ApproveQueueMoves(db, me, s, pid); }
        else { CancelResetMoves(db, me, s, pid); }
      case OfLetters(s) => LettersMoves(db, me, hint, s, pid);
      case OfReview(s) => ReviewMoves(db, me, hint, s, pid);
      case OfClaims(s) =>
        if ClaimsKind(s) == Some(ScoringOne) { ScorerMoves(db, me, hint, s, pid); }
        else if ClaimsKind(s) in {Some(Marking), Some(Reaping)} { MarkReapMoves(db, me, hint, s, pid); }
        else { MaintenanceMoves(db, me, hint, s, pid); }
      case OfSender(s) => SenderMoves(db, me, hint, s, pid);
      case OfControl(s) => ControlStays(db, me, s, pid);
    }
  }

  /** Whatever a request does to a row's status is a move its kind may make. */
  lemma StepMoves(db: Db, me: Id, hint: Hint, p: Proc, pid: Id)
    requires DbOk(db) && ProcOk(db, me, p) && pid in db.rows && KindOf(p).Some?
    ensures var now := Act(db, me, hint, p).0; Stays(db, now, pid) || MovesBy(db, now, pid, KindOf(p).value)
  {
    hide DbOk, ProcOk, MovesBy, KindOf, Statement;
    StatementMoves(db, me, hint, p, pid);
  }

  lemma EndedDoesNothing(db: Db, me: Id, hint: Hint, p: Proc)
    requires KindOf(p) == None
    ensures Act(db, me, hint, p).0 == db
  {
    hide Strip, EnrichAct, Transition, Put;
  }

  // ---------------------------------------------------------------- over a run

  /** Every status change in any run is a move that the lifecycle grants to the request that makes it. */
  lemma RunMoves(run: Run, pid: Id)
    requires run.After? && pid in State(run.before).db.rows
    ensures var s, now, e := State(run.before), State(run).db, run.event;
            || Stays(s.db, now, pid)
            || (e.Move? && e.me in s.procs && KindOf(s.procs[e.me]).Some? &&
                MovesBy(s.db, now, pid, KindOf(s.procs[e.me]).value))
  {
    hide DbOk, ProcOk, Act, MovesBy, KindOf, Next;
    var s, e := State(run.before), run.event;
    DbAfter(run);
    if e.Move? && e.me in s.procs {
      RequestIsOk(run.before, e.me);
      if KindOf(s.procs[e.me]).Some? {
        StepMoves(s.db, e.me, e.hint, s.procs[e.me], pid);
      } else {
        EndedDoesNothing(s.db, e.me, e.hint, s.procs[e.me]);
      }
    }
  }

  /** The statuses that stand for a decision of the user or belong to the send protocol. */
  const PROTECTED: set<Status> :=
    {Selected, LetterDraft, Approved, QueuedToSend, Status.Sending, Status.Sent, Hold, RejectedByUser, Archived}

  /** Requests that no one decides on: discovery, scoring, reaping, requeues and bulk or rule archiving. */
  const UNDECIDED: set<Kind> := {Discovering, ScoringOne, Marking, Reaping, Requeuing, Archiving, Enriching}

  predicate IsProtected(status: Status) { status in PROTECTED }

  predicate IsUndecided(kind: Kind) { kind in UNDECIDED }

  /** The request stands at the archive step of an enrichment that read the row in this status. */
  predicate ArchivesGone(p: Proc, pid: Id, status: Status)
  {
    || (p.OfReview? && p.review.Enriching? && ArchivesAsRead(p.review.enrich, pid, status))
    || (p.OfClaims? && p.claims.ScoreEnrich? && ArchivesAsRead(p.claims.enrich, pid, status))
  }

  lemma OnlyGoneMoves(db: Db, me: Id, hint: Hint, p: Proc, pid: Id)
    requires ProcOk(db, me, p) && pid in db.rows && IsProtected(db.rows[pid].status)
    requires KindOf(p) in {Some(Kind.Enriching), Some(ScoringOne)}
    ensures Stays(db, Act(db, me, hint, p).0, pid) || ArchivesGone(p, pid, db.rows[pid].status)
  {
    hide Statement, ProcOk, KindOf, ArchivesGone;
    GoneStatement(db, me, hint, p, pid);
  }

  lemma GoneStatement(db: Db, me: Id, hint: Hint, p: Proc, pid: Id)
    requires ProcOk(db, me, p) && pid in db.rows && IsProtected(db.rows[pid].status)
    requires KindOf(p) in {Some(Kind.Enriching), Some(ScoringOne)}
    ensures Stays(db, Statement(db, me, hint, p).0, pid) || ArchivesGone(p, pid, db.rows[pid].status)
  {
    hide Stays, EnrichAct, Claims.Act, Claims.StepOk;
    if p.OfClaims? {
      ScorerMoves(db, me, hint, p.claims, pid);
    } else {
      EnrichMoves(db, me, p.review.page, None, hint, p.review.enrich, pid);
    }
  }

  lemma UndecidedMoves(kind: Kind, from: Status, status: Status)
    requires IsUndecided(kind) && IsProtected(from) && MayMove(kind, from, status)
    ensures GoneMove(from, status) && kind in {Enriching, ScoringOne}
  {
  }

  /** Undecided requests leave a protected status alone; the one exception is the archive of a vacancy that
      is gone on HH: only `enrich` makes it, from the very status it read, and never from `sent`. */
  lemma ProtectedStatusStays(run: Run, pid: Id)
    requires run.After? && pid in State(run.before).db.rows
    requires var s, e := State(run.before), run.event;
             e.Move? && e.me in s.procs && KindOf(s.procs[e.me]).Some? && IsUndecided(KindOf(s.procs[e.me]).value)
    requires IsProtected(State(run.before).db.rows[pid].status)
    ensures var was, now := State(run.before).db, State(run).db;
            || Stays(was, now, pid)
            || (pid in now.rows && GoneMove(was.rows[pid].status, now.rows[pid].status)
                && ArchivesGone(State(run.before).procs[run.event.me], pid, was.rows[pid].status))
  {
    hide Next, Act, DbOk, ProcOk, KindOf, IsProtected, IsUndecided, MayMove, GoneMove, ArchivesGone, Stays;
    RunMoves(run, pid);
    var was, now, e := State(run.before).db, State(run).db, run.event;
    if !Stays(was, now, pid) {
      var p := State(run.before).procs[e.me];
      UndecidedMoves(KindOf(p).value, was.rows[pid].status, now.rows[pid].status);
      RequestIsOk(run.before, e.me);
      DbAfter(run);
      OnlyGoneMoves(was, e.me, e.hint, p, pid);
    }
  }

  /** Nothing leaves `sent`. */
  lemma {:induction false} SentIsFinal(earlier: Run, later: Run, pid: Id)
    requires Within(earlier, later)
    requires pid in State(earlier).db.rows && State(earlier).db.rows[pid].status == Status.Sent
    ensures pid in State(later).db.rows && State(later).db.rows[pid].status == Status.Sent
    decreases later
  {
    hide Next, KindOf;
    if earlier != later {
      SentIsFinal(earlier, later.before, pid);
      RunMoves(later, pid);
    }
  }

  /** In every state from `earlier` to `later` the row is neither selected nor in letter_draft. */
  predicate SettledThroughout(earlier: Run, later: Run, pid: Id)
    requires Within(earlier, later)
  {
    && pid in State(later).db.rows && State(later).db.rows[pid].status !in {Selected, LetterDraft}
    && (earlier != later ==> SettledThroughout(earlier, later.before, pid))
  }

  /** Draft and approved hash are frozen while a row is neither selected nor in letter_draft: from the
      approval on, through the queue and the sending, until an edit takes the approval back. */
  lemma {:induction false} SettledLetterIsFrozen(earlier: Run, later: Run, pid: Id)
    requires Within(earlier, later) && SettledThroughout(earlier, later, pid)
    ensures pid in State(earlier).db.rows && pid in State(later).db.rows
    ensures State(later).db.rows[pid].draft == State(earlier).db.rows[pid].draft
    ensures State(later).db.rows[pid].hash == State(earlier).db.rows[pid].hash
    decreases later
  {
    hide Next, SysOk, Grows, Narrows, TokensFade;
    if earlier != later {
      SettledLetterIsFrozen(earlier, later.before, pid);
      RunIsOk(later.before);
      NextKeeps(State(later.before), later.event);
      var was, now := State(later.before).db.rows, State(later).db.rows;
      assert RowStep(was[pid], now[pid]);
    }
  }
}
