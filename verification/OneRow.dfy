/** Over every run a vacancy has one row: discovery and enrichment may both insert it, and only one of them does. */
module OneRow {
  import opened Options
  import opened Tables
  import opened Enrichment
  import opened Funnel

  /** The only row that is new is of a vacancy that had none. */
  predicate AddsOne(was: Db, now: Db, me: Id)
  {
    forall p | p in now.rows && p !in was.rows :: p == me && !HasRowOf(was, now.rows[p].hh)
  }

  lemma NoneAdded(was: Db, now: Db, me: Id)
    requires now.rows.Keys == was.rows.Keys
    ensures AddsOne(was, now, me)
  {
  }

  lemma PersistAdds(db: Db, me: Id, hint: Hint, s: Persist)
    ensures AddsOne(db, PersistAct(db, me, hint, s).0, me)
  {
    hide HasRowOf, IsRowOf;
    match s {
      case Insert(hh, resume, described) =>
      case Refresh(pid, _, _) => if pid in db.rows { NoneAdded(db, PersistAct(db, me, hint, s).0, me); }
      case _ =>
    }
  }

  lemma TransitionAdds(db: Db, me: Id, pid: Id, from: set<Status>, status: Status, token: Option<Id>)
    ensures AddsOne(db, Transition(db, pid, from, status, token).0, me)
  {
    hide HasRowOf;
  }

  lemma SameKeys(db: Db, me: Id, pid: Id)
    ensures pid in db.rows ==> forall row :: AddsOne(db, Put(db, pid, row), me)
    ensures pid in db.rows ==> AddsOne(db, Lease(db, me, pid), me)
  {
    hide HasRowOf;
  }

  lemma EnrichAdds(db: Db, me: Id, page: Page, token: Option<Id>, hint: Hint, e: Enrich)
    ensures AddsOne(db, EnrichAct(db, me, page, token, hint, e).0, me)
  {
    hide PersistAct, Transition, EnrichAfterFetch, EnrichAfterShown, AddsOne;
    NoneAdded(db, db, me);
    match e {
      case ArchiveGone(p, from) =>
        TransitionAdds(db, me, p, {from}, Archived, if from == Scoring then token else None);
      case ArchiveShown(p, from, _) =>
        TransitionAdds(db, me, p, {from}, Archived, if from == Scoring then token else None);
      case Persisting(_, persist) => PersistAdds(db, me, hint, persist);
      case _ =>
    }
  }

  lemma QueueAdds(db: Db, me: Id, s: Queue.Step)
    ensures AddsOne(db, Queue.Act(db, me, s).0, me)
  {
    hide HasRowOf, Strip, Queue.ApproveAfterRead, Queue.QueueAfterReads, Queue.ResetAfterReads, Moved;
  }

  lemma LettersAdd(db: Db, me: Id, hint: Hint, s: Letters.Step)
    ensures AddsOne(db, Letters.Act(db, me, hint, s).0, me)
  {
    hide HasRowOf, Strip, EnrichAct, Letters.GenerateAfterEnrich, Letters.GenerateAfterReads, Letters.SaveAfterReads;
    hide Letters.Redrafted, Moved, AddsOne, Put;
    NoneAdded(db, db, me);
    match s {
      case GenerateEnrich(order, e) => EnrichAdds(db, me, order.page, None, hint, e);
      case GenerateWrite(p, _, _, _) => SameKeys(db, me, p);
      case SaveWrite(p, _, _) => SameKeys(db, me, p);
      case _ =>
    }
  }

  lemma ReviewAdds(db: Db, me: Id, hint: Hint, s: Review.Step)
    ensures AddsOne(db, Review.Act(db, me, hint, s).0, me)
  {
    hide HasRowOf, EnrichAct, PersistAct, Transition, AddsOne;
    NoneAdded(db, db, me);
    match s {
      case DecideWrite(p, from, status) => TransitionAdds(db, me, p, {from}, status, None);
      case Enriching(page, e) => EnrichAdds(db, me, page, None, hint, e);
      case Discovering(persist) => PersistAdds(db, me, hint, persist);
      case _ =>
    }
  }

  lemma ClaimsAdd(db: Db, me: Id, hint: Hint, s: Claims.Step)
    ensures AddsOne(db, Claims.Act(db, me, hint, s).0, me)
  {
    hide HasRowOf, EnrichAct, Claims.ScoreAfterEnrich, Claims.ScoreWritten, Claims.Reaped, Moved, AddsOne, Transition;
    hide Lease, Put;
    NoneAdded(db, db, me);
    match s {
      case ScoreClaim(work) => SameKeys(db, me, work.pid);
      case ScoreEnrich(work, e) => EnrichAdds(db, me, work.page, Some(me), hint, e);
      case ScoreWrite(work, _) => SameKeys(db, me, work.pid);
      case ScoreCancelled(work) => TransitionAdds(db, me, work.pid, {Scoring}, Discovered, Some(me));
      case ScoreRelease(work, _) => TransitionAdds(db, me, work.pid, {Scoring}, Discovered, Some(me));
      case MarkClaim(pid) => SameKeys(db, me, pid);
      case MarkWrite(pid) => TransitionAdds(db, me, pid, {Scoring}, ScoreError, Some(me));
      case Reap(pid) => SameKeys(db, me, pid);
      case RequeueWrite(pid, from) => TransitionAdds(db, me, pid, {from}, Discovered, None);
      case ArchiveWrite(pid, from) => TransitionAdds(db, me, pid, {from}, Archived, None);
      case _ =>
    }
  }

  lemma SenderAdds(db: Db, me: Id, hint: Hint, s: Sender.Step)
    ensures AddsOne(db, Sender.Act(db, me, hint, s).0, me)
  {
    hide HasRowOf, SnapshotMatches, Drained, Sender.QueueEmpty, Sender.AfterSnapshot, Sender.AfterAnswer, AddsOne;
    hide Transition;
    if s.MovePipeline? {
      TransitionAdds(db, me, s.pid, {QueuedToSend}, s.status, None);
    } else {
      NoneAdded(db, Sender.Act(db, me, hint, s).0, me);
    }
  }

  lemma ControlAdds(db: Db, me: Id, s: Control.Step)
    ensures AddsOne(db, Control.Act(db, me, s).0, me)
  {
    hide HasRowOf, Control.AnySending, Control.UnbatchedQueued;
  }

  lemma StatementAdds(db: Db, me: Id, hint: Hint, p: Proc)
    ensures AddsOne(db, Statement(db, me, hint, p).0, me)
  {
    hide AddsOne, Queue.Act, Letters.Act, Review.Act, Claims.Act, Sender.Act, Control.Act;
    match p {
      case OfQueue(s) => QueueAdds(db, me, s);
      case OfLetters(s) => LettersAdd(db, me, hint, s);
      case OfReview(s) => ReviewAdds(db, me, hint, s);
      case OfClaims(s) => ClaimsAdd(db, me, hint, s);
      case OfSender(s) => SenderAdds(db, me, hint, s);
      case OfControl(s) => ControlAdds(db, me, s);
    }
  }

  /** Two rows of a run are of different vacancies. */
  lemma {:induction false} VacancyHasOneRow(run: Run, p: Id, q: Id)
    requires p in State(run).db.rows && q in State(run).db.rows && p != q
    ensures State(run).db.rows[p].hh != State(run).db.rows[q].hh
    decreases run
  {
    hide Statement, SysOk, HasRowOf, AddsOne;
    var s, e := State(run.before), run.event;
    DbAfter(run);
    RunIsOk(run.before);
    NextKeeps(s, e);
    if p in s.db.rows && q in s.db.rows {
      VacancyHasOneRow(run.before, p, q);
      assert RowStep(s.db.rows[p], State(run).db.rows[p]) && RowStep(s.db.rows[q], State(run).db.rows[q]);
    } else {
      StatementAdds(s.db, e.me, e.hint, s.procs[e.me]);
      NewRowIsOther(s.db, State(run).db, e.me, p, q);
    }
  }

  lemma NewRowIsOther(was: Db, now: Db, me: Id, p: Id, q: Id)
    requires AddsOne(was, now, me) && RowsStep(was.rows, now.rows)
    requires p in now.rows && q in now.rows && p != q && !(p in was.rows && q in was.rows)
    ensures now.rows[p].hh != now.rows[q].hh
  {
    var other := if p in was.rows then p else q;
    assert other in was.rows ==> IsRowOf(was, other, was.rows[other].hh);
  }
}
