/** The only writers of a letter draft (backend/app/services/pipeline_cover_letters.py). */
module CoverLetters {
  import opened Options
  import opened Tables
  import opened Enrichment

  const MIN_GENERATED_LENGTH := 1400
  const MAX_GENERATED_LENGTH := 3500
  const MAX_SAVED_LENGTH := 6000

  /** A request for a generated draft: what HH and the model will answer, and the resume used when the row
      has none. `reply` is the sanitised text, or none if the model or a check of its structure fails. */
  datatype Order = Order(pid: Id, page: Page, newestResume: Option<Id>, reply: Option<string>)

  datatype Step =
    | GenerateRead(order: Order)
    | GenerateEnrich(order: Order, enrich: Enrich)
    | GenerateWrite(pid: Id, selected: bool, resume: Id, draft: string)
    /** `text` is what the user typed, sanitised. */
    | SaveRead(pid: Id, text: string)
    | SaveReadJob(pid: Id, text: string)
    | SaveWrite(pid: Id, draft: string, approved: bool)
    | Done(ok: bool)

  predicate Entry(s: Step) { s.GenerateRead? || s.SaveRead? }

  function GenerateAfterReads(order: Order, row: Row): Step
  {
    var resume := if row.resume.Some? then row.resume else order.newestResume;
    if resume == None || order.reply == None then Done(false)
    else
      var draft := Strip(order.reply.value);
      if MIN_GENERATED_LENGTH <= |draft| <= MAX_GENERATED_LENGTH
      then GenerateWrite(order.pid, row.status == Selected, resume.value, draft) else Done(false)
  }

  function GenerateAfterEnrich(order: Order, next: Enrich): Step
  {
    if next.EnrichFailed? then Done(false)
    else if !next.Enriched? then GenerateEnrich(order, next)
    else if next.archived then Done(false)
    else GenerateAfterReads(order, next.row)
  }

  function SaveAfterReads(pid: Id, text: string, approved: bool): Step
  {
    var clean := Strip(text);
    if clean == "" || |clean| > MAX_SAVED_LENGTH then Done(false) else SaveWrite(pid, clean, approved)
  }

  /** A new draft takes the approval away. */
  function Redrafted(row: Row, draft: string): Row { row.(draft := draft, hash := None) }

  function Act(db: Db, me: Id, hint: Hint, s: Step): (Db, Step)
  {
    match s
    case GenerateRead(order) =>
      (db, if order.pid !in db.rows || db.rows[order.pid].status !in {Selected, LetterDraft} then Done(false)
           else if db.rows[order.pid].described then GenerateAfterReads(order, db.rows[order.pid])
           else GenerateEnrich(order, Fetch(order.pid)))
    case GenerateEnrich(order, enrich) =>
      var (now, next) := EnrichAct(db, me, order.page, None, hint, enrich);
      (now, GenerateAfterEnrich(order, next))
    case GenerateWrite(pid, selected, resume, draft) =>
      if selected then
        if Allows(db, pid, {Selected}, None)
        then (Put(db, pid, Redrafted(Moved(db.rows[pid], LetterDraft), draft).(resume := Some(resume))), Done(true))
        else (db, Done(false))
      else if Allows(db, pid, {LetterDraft}, None)
      then (Put(db, pid, Redrafted(db.rows[pid], draft).(resume := Some(resume))), Done(true))
      else (db, Done(false))
    case SaveRead(pid, text) =>
      (db, if pid !in db.rows then Done(false)
           else if db.rows[pid].status == Approved then SaveReadJob(pid, text)
           else if db.rows[pid].status == LetterDraft then SaveAfterReads(pid, text, false)
           else Done(false))
    case SaveReadJob(pid, text) =>
      (db, if pid in db.jobs && db.jobs[pid].status != Cancelled then Done(false) else SaveAfterReads(pid, text, true))
    case SaveWrite(pid, draft, approved) =>
      if approved then
        if Allows(db, pid, {Approved}, None)
        then (Put(db, pid, Redrafted(Moved(db.rows[pid], LetterDraft), draft)), Done(true)) else (db, Done(false))
      else if Allows(db, pid, {LetterDraft}, None)
      then (Put(db, pid, Redrafted(db.rows[pid], draft)), Done(true)) else (db, Done(false))
    case Done(_) => (db, s)
  }

  predicate StepOk(s: Step) { s.GenerateEnrich? ==> EnrichOk(s.enrich) }

  lemma DraftKeeps(db: Db, me: Id, pid: Id, row: Row)
    requires DbOk(db) && Allows(db, pid, {Selected, LetterDraft, Approved}, None)
    requires row.status == LetterDraft && row.hash == None && row.token == None && row.hh == db.rows[pid].hh
    ensures Kept(db, Put(db, pid, row), me) && Quiet(db, Put(db, pid, row))
  {
    hide JobsOk, BatchedOk, LettersOk, ClaimsOk, SubmissionsOk, BatchesOk, Extends, Quiet;
    PutKeeps(db, me, pid, row);
  }

  lemma StepKeeps(db: Db, me: Id, hint: Hint, s: Step)
    requires DbOk(db) && StepOk(s)
    ensures Kept(db, Act(db, me, hint, s).0, me) && StepOk(Act(db, me, hint, s).1)
    ensures Quiet(db, Act(db, me, hint, s).0)
  {
    hide JobsOk, BatchedOk, LettersOk, ClaimsOk, SubmissionsOk, BatchesOk, Extends, Quiet, EnrichAct, Strip;
    NothingChanges(db, me);
    match s {
      case GenerateEnrich(order, enrich) => EnrichKeeps(db, me, order.page, None, hint, enrich);
      case GenerateWrite(pid, selected, resume, draft) =>
        if Allows(db, pid, {if selected then Selected else LetterDraft}, None) {
          assert RowOk(pid, db.rows[pid], db.leases, db.approvals);
          DraftKeeps(db, me, pid, Redrafted(Moved(db.rows[pid], LetterDraft), draft).(resume := Some(resume)));
        }
      case SaveWrite(pid, draft, approved) =>
        if Allows(db, pid, {if approved then Approved else LetterDraft}, None) {
          assert RowOk(pid, db.rows[pid], db.leases, db.approvals);
          DraftKeeps(db, me, pid, Redrafted(Moved(db.rows[pid], LetterDraft), draft));
        }
      case _ =>
    }
  }
}
