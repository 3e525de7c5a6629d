/** One scorer and its lease (`score_one` in backend/app/services/pipeline_scoring.py), the reaper of expired
    leases, and the requeue and archive writes of backend/app/services/pipeline_maintenance.py and
    backend/app/services/selection_rule_actions.py that race with it. */
module ScoringClaims {
  import opened Options
  import opened Tables
  import opened Enrichment

  const MAX_TRANSIENT_SCORE_ATTEMPTS := 3
  const RESCORABLE: set<Status> := {Scored, Review, ScoreError, RejectedByRule}
  const ARCHIVABLE: set<Status> := {Discovered, Scoring, Scored, Review, ScoreError}

  /** What the rules and the model will say about the vacancy. */
  datatype Verdict = HardReject | Score | ModelFails

  /** The row to score with the attempts it was listed with, and the answers the scorer will get. */
  datatype Work = Work(pid: Id, page: Page, attempts: nat, verdict: Verdict)

  datatype Step =
    | ScoreClaim(work: Work)
    | ScoreEnrich(work: Work, enrich: Enrich)
    | ScoreWrite(work: Work, status: Status)
    /** The handler of a cancellation, before `finally`. */
    | ScoreCancelled(work: Work)
    /** The release in `finally`; `settled` after a write that the token guards, whether it took effect or not. */
    | ScoreRelease(work: Work, settled: bool)
    | ScoreDone
    /** The claim itself was cancelled or raised: it stands outside the `try`. */
    | ScoreDropped
    /** The last guarded statement, the release in `finally`, was cancelled or raised, which is only logged. */
    | ScoreUnreleased
    /** Without a candidate context `score_user` claims a row only to mark it. */
    | MarkClaim(pid: Id)
    | MarkWrite(pid: Id)
    | Reap(pid: Id)
    | RequeueRead(pid: Id)
    | RequeueWrite(pid: Id, from: Status)
    | ArchiveRead(pid: Id)
    | ArchiveWrite(pid: Id, from: Status)
    | Done(ok: bool)

  predicate Entry(s: Step) { s.ScoreClaim? || s.MarkClaim? || s.Reap? || s.RequeueRead? || s.ArchiveRead? }

  function AfterTransient(work: Work): Status
  {
    if work.attempts + 1 >= MAX_TRANSIENT_SCORE_ATTEMPTS then ScoreError else Discovered
  }

  function ScoreAfterEnrich(work: Work, next: Enrich): Step
  {
    match next
    case EnrichFailed(transient) => ScoreWrite(work, if transient then AfterTransient(work) else ScoreError)
    case Enriched(row, archived) =>
      if archived || row.status != Scoring then ScoreRelease(work, false)
      else ScoreWrite(work, match work.verdict
                            case HardReject => RejectedByRule
                            case Score => Scored
                            case ModelFails => ScoreError)
    case _ => ScoreEnrich(work, next)
  }

  /** A score or a rule's rejection also clears the lease failures. */
  function ScoreWritten(row: Row, status: Status): Row
  {
    Moved(row, status).(leaseFailures := if status in {Scored, RejectedByRule} then 0 else row.leaseFailures)
  }

  /** The third expired lease makes the row an error. */
  function Reaped(row: Row): Row
  {
    Moved(row, if row.leaseFailures >= 2 then ScoreError else Discovered).(leaseFailures := row.leaseFailures + 1)
  }

  /** The row after its lease has expired `n` times, claimed anew in between. */
  function Expired(row: Row, n: nat): Row
  {
    if n == 0 then row else Reaped(Expired(row, n - 1).(status := Scoring))
  }

  /** Twice an expired lease sends the row back to be scored; from the third time on it is an error. */
  lemma {:induction false} ThirdExpiryIsError(row: Row, n: nat)
    requires row.leaseFailures == 0
    ensures Expired(row, n).leaseFailures == n
    ensures n > 0 ==> Expired(row, n).status == if n < 3 then Discovered else ScoreError
  {
    if n > 0 {
      ThirdExpiryIsError(row, n - 1);
    }
  }

  function Release(db: Db, me: Id, pid: Id): Db { Transition(db, pid, {Scoring}, Discovered, Some(me)).0 }

  function Act(db: Db, me: Id, hint: Hint, s: Step): (Db, Step)
  {
    match s
    case ScoreClaim(work) =>
      if Allows(db, work.pid, {Discovered}, None)
      then (Lease(db, me, work.pid), ScoreEnrich(work, Fetch(work.pid))) else (db, ScoreDone)
    case ScoreEnrich(work, enrich) =>
      var (now, next) := EnrichAct(db, me, work.page, Some(me), hint, enrich);
      (now, ScoreAfterEnrich(work, next))
    case ScoreWrite(work, status) =>
      if Allows(db, work.pid, {Scoring}, Some(me))
      then (Put(db, work.pid, ScoreWritten(db.rows[work.pid], status)), ScoreRelease(work, true))
      else (db, ScoreRelease(work, true))
    case ScoreCancelled(work) => (Release(db, me, work.pid), ScoreRelease(work, true))
    case ScoreRelease(work, _) => (Release(db, me, work.pid), ScoreDone)
    case MarkClaim(pid) =>
      if Allows(db, pid, {Discovered}, None) then (Lease(db, me, pid), MarkWrite(pid)) else (db, ScoreDone)
    case MarkWrite(pid) => (Transition(db, pid, {Scoring}, ScoreError, Some(me)).0, ScoreDone)
    case Reap(pid) =>
      if Allows(db, pid, {Scoring}, None) then (Put(db, pid, Reaped(db.rows[pid])), Done(true)) else (db, Done(false))
    case RequeueRead(pid) =>
      (db, if pid in db.rows && db.rows[pid].status in RESCORABLE
           then RequeueWrite(pid, db.rows[pid].status) else Done(false))
    case RequeueWrite(pid, from) =>
      var (now, changed) := Transition(db, pid, {from}, Discovered, None);
      (now, Done(changed))
    case ArchiveRead(pid) =>
      (db, if pid in db.rows && db.rows[pid].status in ARCHIVABLE
           then ArchiveWrite(pid, db.rows[pid].status) else Done(false))
    case ArchiveWrite(pid, from) =>
      var (now, changed) := Transition(db, pid, {from}, Archived, None);
      (now, Done(changed))
    case ScoreDone => (db, s)
    case ScoreDropped => (db, s)
    case ScoreUnreleased => (db, s)
    case Done(_) => (db, s)
  }

  /** A score or a rejection is written inside the `try`; an error or a retry is written by a handler. */
  predicate InTry(status: Status) { status in {Scored, RejectedByRule} }

  /** Where a request goes when its statement is cancelled or raises: the handlers of the `try` and its `finally`.
      What a handler itself raises leads to `finally`, and what `finally` raises to the end. */
  function Interrupted(s: Step, cancelled: bool): Step
  {
    match s
    case ScoreClaim(_) => ScoreDropped
    case ScoreEnrich(work, _) => if cancelled then ScoreCancelled(work) else ScoreWrite(work, ScoreError)
    case ScoreWrite(work, status) =>
      if !InTry(status) then ScoreRelease(work, false)
      else if cancelled then ScoreCancelled(work) else ScoreWrite(work, ScoreError)
    case ScoreCancelled(work) => ScoreRelease(work, false)
    case ScoreRelease(_, _) => ScoreUnreleased
    case MarkClaim(_) => ScoreDropped
    case MarkWrite(_) => ScoreUnreleased
    case ScoreDone => s
    case ScoreDropped => s
    case ScoreUnreleased => s
    case Done(_) => s
    case _ => Done(false)
  }

  predicate Carried(rows: map<Id, Row>, token: Id) { exists p | p in rows :: Carries(rows, p, token) }

  predicate Claimed(db: Db, me: Id, pid: Id) { me in db.leases && db.leases[me] == pid }

  ghost predicate StepOk(db: Db, me: Id, s: Step)
  {
    match s
    case ScoreClaim(_) => me !in db.leases
    case ScoreEnrich(work, enrich) => Claimed(db, me, work.pid) && EnrichOk(enrich)
    case ScoreWrite(work, status) =>
      Claimed(db, me, work.pid) && status in {Scored, RejectedByRule, ScoreError, Discovered}
    case ScoreCancelled(work) => Claimed(db, me, work.pid)
    case ScoreRelease(work, settled) => Claimed(db, me, work.pid) && (settled ==> !Carried(db.rows, me))
    case ScoreDone => !Carried(db.rows, me) || me !in db.leases
    case MarkClaim(_) => me !in db.leases
    case MarkWrite(pid) => Claimed(db, me, pid)
    case RequeueWrite(_, from) => from in RESCORABLE
    case ArchiveWrite(_, from) => from in ARCHIVABLE
    case _ => true
  }

  lemma EntryOk(db: Db, me: Id, s: Step)
    requires Entry(s) && Unused(db, me)
    ensures StepOk(db, me, s)
  {
  }

  lemma StepOkStays(was: Db, now: Db, k: Id, me: Id, s: Step)
    requires Extends(was, now, k) && me != k && StepOk(was, me, s)
    ensures StepOk(now, me, s)
  {
    hide Narrows, RowsStep;
  }

  /** A guarded write of the token's holder leaves the token on no row, whether it took effect or not. */
  lemma GuardedWriteSettles(db: Db, me: Id, pid: Id, now: Db)
    requires DbOk(db) && Claimed(db, me, pid)
    requires if Allows(db, pid, {Scoring}, Some(me))
             then pid in now.rows && now.rows == db.rows[pid := now.rows[pid]] && now.rows[pid].token == None
             else now.rows == db.rows
    ensures !Carried(now.rows, me)
  {
    hide JobsOk, BatchedOk, LettersOk, ClaimsOk, SubmissionsOk, BatchesOk;
    forall p | p in now.rows ensures !Carries(now.rows, p, me) {
      if p in db.rows {
        assert RowOk(p, db.rows[p], db.leases, db.approvals);
      }
    }
  }

  lemma WriteKeeps(db: Db, me: Id, pid: Id, row: Row)
    requires DbOk(db) && Allows(db, pid, {Scoring}, None)
    requires row.token == None && row.status != Scoring
    requires row.hh == db.rows[pid].hh && row.draft == db.rows[pid].draft && row.hash == db.rows[pid].hash
    ensures Kept(db, Put(db, pid, row), me) && Quiet(db, Put(db, pid, row))
  {
    hide JobsOk, BatchedOk, LettersOk, ClaimsOk, SubmissionsOk, BatchesOk, Extends, Quiet;
    assert RowOk(pid, db.rows[pid], db.leases, db.approvals);
    PutKeeps(db, me, pid, row);
  }

  lemma ReleaseKeeps(db: Db, me: Id, pid: Id)
    requires DbOk(db) && Claimed(db, me, pid)
    ensures var now := Release(db, me, pid);
            Kept(db, now, me) && Quiet(db, now) && !Carried(now.rows, me) && Claimed(now, me, pid)
  {
    hide DbOk, Extends, Quiet;
    TransitionKeeps(db, me, pid, {Scoring}, Discovered, Some(me));
    GuardedWriteSettles(db, me, pid, Release(db, me, pid));
  }

  lemma ScoreWriteKeeps(db: Db, me: Id, hint: Hint, work: Work, status: Status)
    requires DbOk(db) && StepOk(db, me, ScoreWrite(work, status))
    ensures var r := Act(db, me, hint, ScoreWrite(work, status));
            Kept(db, r.0, me) && Quiet(db, r.0) && StepOk(r.0, me, r.1)
  {
    hide DbOk, Extends, Quiet, Carried;
    NothingChanges(db, me);
    if Allows(db, work.pid, {Scoring}, Some(me)) {
      WriteKeeps(db, me, work.pid, ScoreWritten(db.rows[work.pid], status));
    }
    GuardedWriteSettles(db, me, work.pid, Act(db, me, hint, ScoreWrite(work, status)).0);
  }

  lemma EnrichStepKeeps(db: Db, me: Id, hint: Hint, work: Work, enrich: Enrich)
    requires DbOk(db) && StepOk(db, me, ScoreEnrich(work, enrich))
    ensures var r := Act(db, me, hint, ScoreEnrich(work, enrich));
            Kept(db, r.0, me) && Quiet(db, r.0) && StepOk(r.0, me, r.1)
  {
    hide DbOk, Quiet, EnrichAct, Carried, Narrows, RowsStep, TokensFade;
    EnrichKeeps(db, me, work.page, Some(me), hint, enrich);
  }

  lemma ClaimKeeps(db: Db, me: Id, pid: Id)
    requires DbOk(db) && me !in db.leases && Allows(db, pid, {Discovered}, None)
    ensures Kept(db, Lease(db, me, pid), me) && Quiet(db, Lease(db, me, pid)) && Claimed(Lease(db, me, pid), me, pid)
  {
    hide DbOk, Extends, Quiet;
    LeaseKeeps(db, me, pid);
  }

  lemma StepKeeps(db: Db, me: Id, hint: Hint, s: Step)
    requires DbOk(db) && StepOk(db, me, s)
    ensures Kept(db, Act(db, me, hint, s).0, me) && StepOk(Act(db, me, hint, s).0, me, Act(db, me, hint, s).1)
    ensures Quiet(db, Act(db, me, hint, s).0)
  {
    hide DbOk, Extends, Quiet, EnrichAct, Carried, Lease, Claimed, Transition, Release;
    NothingChanges(db, me);
    match s {
      case ScoreClaim(work) =>
        if Allows(db, work.pid, {Discovered}, None) { ClaimKeeps(db, me, work.pid); }
      case ScoreEnrich(work, enrich) => EnrichStepKeeps(db, me, hint, work, enrich);
      case ScoreWrite(work, status) => ScoreWriteKeeps(db, me, hint, work, status);
      case ScoreCancelled(work) => ReleaseKeeps(db, me, work.pid);
      case ScoreRelease(work, _) => ReleaseKeeps(db, me, work.pid);
      case MarkClaim(pid) =>
        if Allows(db, pid, {Discovered}, None) { ClaimKeeps(db, me, pid); }
      case MarkWrite(pid) => MarkKeeps(db, me, pid);
      case Reap(pid) =>
        if Allows(db, pid, {Scoring}, None) { WriteKeeps(db, me, pid, Reaped(db.rows[pid])); }
      case RequeueWrite(pid, from) => TransitionKeeps(db, me, pid, {from}, Discovered, None);
      case ArchiveWrite(pid, from) => TransitionKeeps(db, me, pid, {from}, Archived, None);
      case _ =>
    }
  }

  lemma MarkKeeps(db: Db, me: Id, pid: Id)
    requires DbOk(db) && Claimed(db, me, pid)
    ensures var now := Transition(db, pid, {Scoring}, ScoreError, Some(me)).0;
            Kept(db, now, me) && Quiet(db, now) && !Carried(now.rows, me)
  {
    hide DbOk, Extends, Quiet;
    TransitionKeeps(db, me, pid, {Scoring}, ScoreError, Some(me));
    GuardedWriteSettles(db, me, pid, Transition(db, pid, {Scoring}, ScoreError, Some(me)).0);
  }

  /** The handlers rely on nothing but the claim. */
  lemma InterruptedOk(was: Db, now: Db, me: Id, s: Step, cancelled: bool)
    requires Kept(was, now, me) && StepOk(was, me, s) && (s.ScoreDone? ==> now == was)
    ensures StepOk(now, me, Interrupted(s, cancelled))
  {
    hide DbOk, Narrows, RowsStep;
  }
}
