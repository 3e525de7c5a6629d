/** The refresh of a row from a found vacancy (`persist_discovered` in
    backend/app/services/vacancy_pipeline.py) and the enrichment of a row from its HH page (`enrich` in
    backend/app/services/vacancy_review_service.py), as used by several requests. */
module Enrichment {
  import opened Options
  import opened Tables

  /** What HH shows for a vacancy page. */
  datatype Page = PageGone | PageTransient | PageBroken | PageShown(hh: Id, archived: bool, described: bool)

  /** How a statement ends for the request that awaits it: well, with the request cancelled there, or with an
      exception of the call. In the last two the statement may or may not have taken effect. */
  datatype Mishap = Fine | Cut(done: bool) | Raised(done: bool)

  /** What a request meets when it moves: the row or job a query finds, whether a lease is refused, and how the
      statement ends. */
  datatype Hint = Hint(found: Option<Id>, refused: bool, mishap: Mishap)

  predicate Lands(m: Mishap) { m.Fine? || m.done }

  /** The database after a statement that leads from `was` to `now`. */
  function Landed(was: Db, now: Db, m: Mishap): Db { if Lands(m) then now else was }

  datatype Persist =
    | Look(hh: Id, resume: Option<Id>, described: bool)
    | Refresh(pid: Id, resume: Option<Id>, described: bool)
    | Insert(hh: Id, resume: Option<Id>, described: bool)
    | Stored(ok: bool)

  datatype Enrich =
    | Fetch(pid: Id)
    | ArchiveGone(pid: Id, from: Status)
    | ArchiveShown(pid: Id, from: Status, resume: Option<Id>)
    | Persisting(pid: Id, persist: Persist)
    | Reread(pid: Id)
    | Enriched(row: Row, archived: bool)
    | EnrichFailed(transient: bool)

  // ---------------------------------------------------------------- persist_discovered

  predicate IsRowOf(db: Db, pid: Id, hh: Id) { pid in db.rows && db.rows[pid].hh == hh }

  predicate HasRowOf(db: Db, hh: Id) { exists p | p in db.rows :: IsRowOf(db, p, hh) }

  /** A refresh writes the snapshot, and the resume only if the row was read without one. */
  function Refreshed(row: Row, resume: Option<Id>, described: bool): Row
  {
    row.(resume := if resume.Some? then resume else row.resume, described := row.described || described)
  }

  function PersistAct(db: Db, me: Id, hint: Hint, s: Persist): (Db, Persist)
  {
    match s
    case Look(hh, resume, described) =>
      if hint.found.Some? && IsRowOf(db, hint.found.value, hh) then
        var pid := hint.found.value;
        (db, Refresh(pid, if db.rows[pid].resume == None then resume else None, described))
      else
        (db, if HasRowOf(db, hh) then s else Insert(hh, resume, described))
    case Refresh(pid, resume, described) =>
      (if pid in db.rows then Put(db, pid, Refreshed(db.rows[pid], resume, described)) else db, Stored(true))
    case Insert(hh, resume, described) =>
      // the new id is free; the vacancy may have got a row since the lookup (UNIQUE)
      if me !in db.rows && !HasRowOf(db, hh)
      then (Put(db, me, Row(Discovered, hh, resume, described, "", None, None, 0)), Stored(true))
      else (db, Stored(false))
    case Stored(_) => (db, s)
  }

  lemma PersistKeeps(db: Db, me: Id, hint: Hint, s: Persist)
    requires DbOk(db)
    ensures Kept(db, PersistAct(db, me, hint, s).0, me) && Quiet(db, PersistAct(db, me, hint, s).0)
  {
    hide JobsOk, BatchedOk, LettersOk, ClaimsOk, SubmissionsOk, BatchesOk, Extends, Quiet;
    NothingChanges(db, me);
    match s {
      case Refresh(pid, resume, described) =>
        if pid in db.rows {
          assert RowOk(pid, db.rows[pid], db.leases, db.approvals);
          PutKeeps(db, me, pid, Refreshed(db.rows[pid], resume, described));
        }
      case Insert(hh, resume, described) =>
        if me !in db.rows && !HasRowOf(db, hh) {
          PutKeeps(db, me, me, Row(Discovered, hh, resume, described, "", None, None, 0));
        }
      case _ =>
    }
  }

  // ---------------------------------------------------------------- enrich

  function EnrichAfterShown(pid: Id, page: Page, resume: Option<Id>): Enrich
    requires page.PageShown?
  {
    if page.described then Persisting(pid, Look(page.hh, resume, true)) else EnrichFailed(false)
  }

  function EnrichAfterFetch(pid: Id, page: Page, row: Row): Enrich
  {
    match page
    case PageGone => if row.status != Status.Sent then ArchiveGone(pid, row.status) else Reread(pid)
    case PageTransient => EnrichFailed(true)
    case PageBroken => EnrichFailed(false)
    case PageShown(_, archived, _) =>
      if archived && row.status != Status.Sent then ArchiveShown(pid, row.status, row.resume)
      else EnrichAfterShown(pid, page, row.resume)
  }

  /** The archive of a gone vacancy: guarded by the status that was read, and by the claim token in `scoring`. */
  function ArchiveCurrent(db: Db, pid: Id, from: Status, token: Option<Id>): Db
  {
    Transition(db, pid, {from}, Archived, if from == Scoring then token else None).0
  }

  function EnrichAct(db: Db, me: Id, page: Page, token: Option<Id>, hint: Hint, s: Enrich): (Db, Enrich)
  {
    match s
    case Fetch(pid) =>
      (db, if pid in db.rows then EnrichAfterFetch(pid, page, db.rows[pid]) else EnrichFailed(false))
    case ArchiveGone(pid, from) =>
      (ArchiveCurrent(db, pid, from, token), Reread(pid))
    case ArchiveShown(pid, from, resume) =>
      (ArchiveCurrent(db, pid, from, token),
       if page.PageShown? then EnrichAfterShown(pid, page, resume) else EnrichFailed(false))
    case Persisting(pid, persist) =>
      var (now, next) := PersistAct(db, me, hint, persist);
      (now, if next.Stored? then (if next.ok then Reread(pid) else EnrichFailed(false)) else Persisting(pid, next))
    case Reread(pid) =>
      (db, if pid in db.rows then Enriched(db.rows[pid], db.rows[pid].status == Archived) else EnrichFailed(false))
    case Enriched(_, _) => (db, s)
    case EnrichFailed(_) => (db, s)
  }

  /** `enrich` never archives a row it read as sent. */
  predicate EnrichOk(s: Enrich)
  {
    (s.ArchiveGone? || s.ArchiveShown?) ==> s.from != Status.Sent
  }

  lemma EnrichKeeps(db: Db, me: Id, page: Page, token: Option<Id>, hint: Hint, s: Enrich)
    requires DbOk(db) && EnrichOk(s)
    ensures var (now, next) := EnrichAct(db, me, page, token, hint, s);
            Kept(db, now, me) && Quiet(db, now) && EnrichOk(next)
  {
    hide DbOk, Extends, Quiet, Transition, PersistAct;
    NothingChanges(db, me);
    match s {
      case ArchiveGone(pid, from) =>
        TransitionKeeps(db, me, pid, {from}, Archived, if from == Scoring then token else None);
      case ArchiveShown(pid, from, resume) =>
        TransitionKeeps(db, me, pid, {from}, Archived, if from == Scoring then token else None);
      case Persisting(pid, persist) => PersistKeeps(db, me, hint, persist);
      case _ =>
    }
  }
}
