/** User decisions, and enrichment or discovery as requests of their own
    (backend/app/services/vacancy_review_service.py, backend/app/services/source_discovery.py). */
module VacancyReview {
  import opened Options
  import opened Tables
  import opened Enrichment

  datatype Action = Select | Reject | Defer | BackToReview | Archive

  datatype Step =
    | DecideRead(pid: Id, action: Action, hasReason: bool)
    | DecideWrite(pid: Id, from: Status, status: Status)
    | Enriching(page: Page, enrich: Enrich)
    | Discovering(persist: Persist)
    | Done(ok: bool)

  const REVIEWABLE: set<Status> :=
    {Discovered, Scoring, Scored, Review, Selected, LetterDraft, RejectedByUser, Hold, ScoreError}

  const ARCHIVABLE: set<Status> := {Discovered, Scoring, Scored, Review, ScoreError}

  function Target(action: Action): Status
  {
    match action
    case Select => Selected
    case Reject => RejectedByUser
    case Defer => Hold
    case BackToReview => Review
    case Archive => Archived
  }

  predicate Entry(s: Step)
  {
    s.DecideRead? || (s.Enriching? && s.enrich.Fetch?) || (s.Discovering? && s.persist.Look?)
  }

  function DecideAfterRead(pid: Id, action: Action, row: Row): Step
  {
    if row.status in (if action.Archive? then ARCHIVABLE else REVIEWABLE)
    then DecideWrite(pid, row.status, Target(action)) else Done(false)
  }

  function Act(db: Db, me: Id, hint: Hint, s: Step): (Db, Step)
  {
    match s
    case DecideRead(pid, action, hasReason) =>
      (db, if (action.Reject? && !hasReason) || pid !in db.rows then Done(false)
           else DecideAfterRead(pid, action, db.rows[pid]))
    case DecideWrite(pid, from, status) =>
      var (now, changed) := Transition(db, pid, {from}, status, None);
      (now, Done(changed))
    case Enriching(page, enrich) =>
      var (now, next) := EnrichAct(db, me, page, None, hint, enrich);
      (now, if next.Enriched? then Done(true) else if next.EnrichFailed? then Done(false) else Enriching(page, next))
    case Discovering(persist) =>
      var (now, next) := PersistAct(db, me, hint, persist);
      (now, if next.Stored? then Done(next.ok) else Discovering(next))
    case Done(_) => (db, s)
  }

  predicate StepOk(s: Step)
  {
    match s
    case DecideWrite(_, from, status) =>
      from in (if status == Archived then ARCHIVABLE else REVIEWABLE)
      && status in {Selected, RejectedByUser, Hold, Review, Archived}
    case Enriching(_, enrich) => EnrichOk(enrich)
    case _ => true
  }

  lemma StepKeeps(db: Db, me: Id, hint: Hint, s: Step)
    requires DbOk(db) && StepOk(s)
    ensures Kept(db, Act(db, me, hint, s).0, me) && StepOk(Act(db, me, hint, s).1)
    ensures Quiet(db, Act(db, me, hint, s).0)
  {
    hide DbOk, Extends, Quiet, Transition, PersistAct, EnrichAct;
    NothingChanges(db, me);
    match s {
      case DecideWrite(pid, from, status) => TransitionKeeps(db, me, pid, {from}, status, None);
      case Enriching(page, enrich) => EnrichKeeps(db, me, page, None, hint, enrich);
      case Discovering(persist) => PersistKeeps(db, me, hint, persist);
      case _ =>
    }
  }
}
