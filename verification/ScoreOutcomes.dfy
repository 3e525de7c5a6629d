/** What becomes of a row when a scorer or the maintenance is left alone with it: the page, the rules and the model
    settle where it goes. */
module ScoreOutcomes {
  import opened Options
  import opened Tables
  import opened Enrichment
  import opened Funnel
  import opened Interleaving
  import opened EnrichOutcomes
  import opened ScoringClaims

  // ---------------------------------------------------------------- score_one

  /** The row after a scorer. A transient error of HH is tried again, but not a third time. */
  function ScoredRow(work: Work, row: Row): Row
  {
    var now := if IsDescribed(work.page) then row.(described := true) else row;
    if IsGone(work.page) then now.(status := Archived)
    else if work.page.PageTransient? && work.attempts < 2 then now.(status := Discovered)
    else if !IsDescribed(work.page) then now.(status := ScoreError)
    else match work.verdict
         case HardReject => now.(status := RejectedByRule, leaseFailures := 0)
         case Score => now.(status := Scored, leaseFailures := 0)
         case ModelFails => now.(status := ScoreError)
  }

  /** An enrichment by a scorer, and where it leads. */
  function Scorer(work: Work): Enrich -> Proc
  {
    (e: Enrich) => OfClaims(ScoreAfterEnrich(work, e))
  }

  lemma ScorerRuns(me: Id, work: Work)
    ensures Runs(me, work.page, Some(me), Scorer(work))
  {
    hide EnrichAct;
    forall db: Db, hint: Hint, e: Enrich | UnderWay(e)
      ensures Statement(db, me, hint, Scorer(work)(e)) ==
              (EnrichAct(db, me, work.page, Some(me), hint, e).0,
               Scorer(work)(EnrichAct(db, me, work.page, Some(me), hint, e).1))
    {
      assert Scorer(work)(e) == OfClaims(ScoreEnrich(work, e));
    }
  }

  lemma ClaimOnRow(db: Db, me: Id, hint: Hint, work: Work, was: Option<Row>)
    requires RowAt(work.pid)(db) == was
    ensures var (now, next) := Claims.Act(db, me, hint, ScoreClaim(work));
            if was.Some? && was.value.status == Discovered then
              && RowAt(work.pid)(now) == Some(was.value.(status := Scoring, token := Some(me)))
              && next == ScoreEnrich(work, Fetch(work.pid))
            else now == db && next == ScoreDone
  {
  }

  lemma WriteOnRow(db: Db, me: Id, hint: Hint, work: Work, status: Status, row: Row)
    requires RowAt(work.pid)(db) == Some(row) && status != Scoring
    ensures var (now, next) := Claims.Act(db, me, hint, ScoreWrite(work, status));
            && next == ScoreRelease(work, true)
            && if row.status == Scoring && row.token == Some(me) then
                 var failures := if status == Scored || status == RejectedByRule then 0 else row.leaseFailures;
                 RowAt(work.pid)(now) == Some(row.(status := status, token := None, leaseFailures := failures))
               else RowAt(work.pid)(now) == Some(row)
  {
  }

  lemma ReleaseOnRow(db: Db, me: Id, hint: Hint, work: Work, settled: bool, row: Row)
    requires RowAt(work.pid)(db) == Some(row) && row.status != Scoring
    ensures Claims.Act(db, me, hint, ScoreRelease(work, settled)) == (db, ScoreDone)
  {
  }

  /** The write after the enrichment, if any, in terms of what was answered. */
  lemma WriteAfter(work: Work, row: Row, me: Id)
    requires row.status == Scoring && row.token == Some(me)
    ensures var s := ScoreAfterEnrich(work, EnrichEnd(work.page, row));
            if IsGone(work.page) then s == ScoreRelease(work, false) || s == ScoreWrite(work, ScoreError)
            else
              && s.ScoreWrite? && s.work == work && s.status != Scoring
              && var failures := if s.status == Scored || s.status == RejectedByRule then 0 else row.leaseFailures;
                 var start := row.(status := Discovered, token := None);
                 EnrichedRow(work.page, row).(status := s.status, token := None, leaseFailures := failures) ==
                 ScoredRow(work, start)
  {
  }

  lemma GoneIsArchived(work: Work, row: Row)
    requires row.status == Scoring && IsGone(work.page)
    ensures EnrichedRow(work.page, row).status == Archived
    ensures EnrichedRow(work.page, row) == ScoredRow(work, row.(status := Discovered, token := None))
  {
  }

  lemma StillScoring(work: Work, row: Row)
    requires row.status == Scoring && !IsGone(work.page)
    ensures var now := EnrichedRow(work.page, row);
            now.status == Scoring && now.token == row.token && now.leaseFailures == row.leaseFailures
  {
  }

  lemma ScoredIsNotScoring(work: Work, row: Row)
    ensures ScoredRow(work, row).status != Scoring
  {
  }

  lemma ScorerFetches(work: Work)
    ensures Scorer(work)(Fetch(work.pid)) == OfClaims(ScoreEnrich(work, Fetch(work.pid)))
  {
  }

  lemma ScorerContinues(work: Work, e: Enrich)
    ensures Scorer(work)(e) == OfClaims(ScoreAfterEnrich(work, e))
  {
  }

  /** From the end of the enrichment on: the write, if any, and the release. */
  lemma WriteAndRelease(c: Call, i: nat, work: Work, row: Row) returns (k: nat)
    requires LeftAlone(c, RowAt(work.pid), 8) && i + 2 <= 8 && row.status == Scoring && row.token == Some(c.me)
    requires IsAt(c, i, OfClaims(ScoreAfterEnrich(work, EnrichEnd(work.page, row))))
    requires RowAt(work.pid)(Reached(c, i).db) == Some(EnrichedRow(work.page, row))
    ensures i < k <= i + 2 && IsAt(c, k, OfClaims(ScoreDone))
    ensures RowAt(work.pid)(Reached(c, k).db) == Some(ScoredRow(work, row.(status := Discovered, token := None)))
  {
    hide LeftAlone, IsAt, Reached, DbOk, ProcOk, Claims.Act, RowAt, ScoreAfterEnrich, EnrichedRow, EnrichEnd, ScoredRow;
    hide IsGone;
    var s, now := ScoreAfterEnrich(work, EnrichEnd(work.page, row)), EnrichedRow(work.page, row);
    var scored := ScoredRow(work, row.(status := Discovered, token := None));
    WriteAfter(work, row, c.me);
    ScoredIsNotScoring(work, row.(status := Discovered, token := None));
    if IsGone(work.page) { GoneIsArchived(work, row); } else { StillScoring(work, row); }
    k := i;
    if s.ScoreWrite? {
      var db := Turn(c, RowAt(work.pid), 8, k, OfClaims(s));
      WriteOnRow(db, c.me, c.hints(k), work, s.status, now);
      k := k + 1;
    }
    var db := Turn(c, RowAt(work.pid), 8, k, OfClaims(ScoreRelease(work, s.ScoreWrite?)));
    ReleaseOnRow(db, c.me, c.hints(k), work, s.ScoreWrite?, scored);
    k := k + 1;
  }

  /** A discovered row, left alone with its scorer, ends where the page, the rules and the model say, under no token;
      any other row is not touched. */
  lemma ScoreOutcome(c: Call, work: Work, was: Option<Row>) returns (k: nat)
    requires LeftAlone(c, RowAt(work.pid), 8) && IsAt(c, 0, OfClaims(ScoreClaim(work)))
    requires RowAt(work.pid)(Reached(c, 0).db) == was
    requires work.page.PageShown? && was.Some? ==>
               work.page.hh == was.value.hh && c.hints(2).found == Some(work.pid) == c.hints(3).found
    ensures k <= 8 && IsAt(c, k, OfClaims(ScoreDone))
    ensures RowAt(work.pid)(Reached(c, k).db) ==
            if was.Some? && was.value.status == Discovered then Some(ScoredRow(work, was.value.(token := None)))
            else was
  {
    hide LeftAlone, IsAt, Reached, DbOk, ProcOk, Claims.Act, RowAt, ScoreAfterEnrich, EnrichedRow, EnrichEnd, ScoredRow;
    hide IsGone, Runs, Scorer;
    var db := Turn(c, RowAt(work.pid), 8, 0, OfClaims(ScoreClaim(work)));
    ClaimOnRow(db, c.me, c.hints(0), work, was);
    k := 1;
    if was.Some? && was.value.status == Discovered {
      var row := was.value.(status := Scoring, token := Some(c.me));
      ScorerRuns(c.me, work);
      ScorerFetches(work);
      k := EnrichOutcome(c, 8, 1, Scorer(work), work.page, Some(c.me), work.pid, row);
      ScorerContinues(work, EnrichEnd(work.page, row));
      assert row.(status := Discovered, token := None) == was.value.(token := None);
      k := WriteAndRelease(c, k, work, row);
    }
  }

  // ---------------------------------------------------------------- cancellations and exceptions

  /** The row is in scoring under the token of the request. */
  predicate Holds(row: Row, me: Id) { row.status == Scoring && row.token == Some(me) }

  /** Under way between the claim and a verdict that has been written. */
  predicate InScorer(s: Step, work: Work)
  {
    (s.ScoreEnrich? && s.work == work) || s == ScoreWrite(work, Scored) || s == ScoreWrite(work, RejectedByRule)
  }

  lemma ReleaseHeldRow(db: Db, me: Id, hint: Hint, work: Work, settled: bool, row: Row)
    requires RowAt(work.pid)(db) == Some(row)
    ensures var now := if Holds(row, me) then row.(status := Discovered, token := None) else row;
            && RowAt(work.pid)(Claims.Act(db, me, hint, ScoreRelease(work, settled)).0) == Some(now)
            && Claims.Act(db, me, hint, ScoreRelease(work, settled)).1 == ScoreDone
            && RowAt(work.pid)(Claims.Act(db, me, hint, ScoreCancelled(work)).0) == Some(now)
            && Claims.Act(db, me, hint, ScoreCancelled(work)).1 == ScoreRelease(work, true)
  {
  }

  /** A cancelled scorer gives the row back to be scored, if it still holds it. */
  lemma CancelledScorerReleases(c: Call, before: Run, hint: Hint, s: Step, work: Work, row: Row)
    requires BeginsInterrupted(c, before, hint, OfClaims(s)) && InScorer(s, work) && hint.mishap.Cut?
    requires LeftAlone(c, RowAt(work.pid), 2) && RowAt(work.pid)(Reached(c, 0).db) == Some(row)
    ensures IsAt(c, 2, OfClaims(ScoreDone))
    ensures RowAt(work.pid)(Reached(c, 2).db) ==
            Some(if Holds(row, c.me) then row.(status := Discovered, token := None) else row)
  {
    hide LeftAlone, IsAt, Reached, DbOk, ProcOk, Claims.Act, RowAt, BeginsInterrupted;
    InterruptedThere(c, before, hint, OfClaims(s));
    var db := Turn(c, RowAt(work.pid), 2, 0, OfClaims(ScoreCancelled(work)));
    ReleaseHeldRow(db, c.me, c.hints(0), work, true, row);
    var now := if Holds(row, c.me) then row.(status := Discovered, token := None) else row;
    db := Turn(c, RowAt(work.pid), 2, 1, OfClaims(ScoreRelease(work, true)));
    ReleaseHeldRow(db, c.me, c.hints(1), work, true, now);
  }

  /** A scorer whose statement raises marks the row as an error, if it still holds it. */
  lemma RaisingScorerMarksAnError(c: Call, before: Run, hint: Hint, s: Step, work: Work, row: Row)
    requires BeginsInterrupted(c, before, hint, OfClaims(s)) && InScorer(s, work) && hint.mishap.Raised?
    requires LeftAlone(c, RowAt(work.pid), 2) && RowAt(work.pid)(Reached(c, 0).db) == Some(row)
    ensures IsAt(c, 2, OfClaims(ScoreDone))
    ensures RowAt(work.pid)(Reached(c, 2).db) ==
            Some(if Holds(row, c.me) then row.(status := ScoreError, token := None) else row)
  {
    hide LeftAlone, IsAt, Reached, DbOk, ProcOk, Claims.Act, RowAt, BeginsInterrupted;
    InterruptedThere(c, before, hint, OfClaims(s));
    var db := Turn(c, RowAt(work.pid), 2, 0, OfClaims(ScoreWrite(work, ScoreError)));
    WriteOnRow(db, c.me, c.hints(0), work, ScoreError, row);
    var now := if Holds(row, c.me) then row.(status := ScoreError, token := None) else row;
    db := Turn(c, RowAt(work.pid), 2, 1, OfClaims(ScoreRelease(work, true)));
    ReleaseHeldRow(db, c.me, c.hints(1), work, true, now);
  }

  /** When a handler fails, too, the release in `finally` gives the row back, if the scorer still holds it. */
  lemma FailingHandlerReleases(c: Call, before: Run, hint: Hint, s: Step, work: Work, row: Row)
    requires BeginsInterrupted(c, before, hint, OfClaims(s))
    requires s == ScoreWrite(work, ScoreError) || s == ScoreWrite(work, Discovered) || s == ScoreCancelled(work)
    requires LeftAlone(c, RowAt(work.pid), 1) && RowAt(work.pid)(Reached(c, 0).db) == Some(row)
    ensures IsAt(c, 1, OfClaims(ScoreDone))
    ensures RowAt(work.pid)(Reached(c, 1).db) ==
            Some(if Holds(row, c.me) then row.(status := Discovered, token := None) else row)
  {
    hide LeftAlone, IsAt, Reached, DbOk, ProcOk, Claims.Act, RowAt, BeginsInterrupted;
    InterruptedThere(c, before, hint, OfClaims(s));
    var db := Turn(c, RowAt(work.pid), 1, 0, OfClaims(ScoreRelease(work, false)));
    ReleaseHeldRow(db, c.me, c.hints(0), work, false, row);
  }

  // ---------------------------------------------------------------- the reaper and the maintenance

  /** An expired lease sends the row back to be scored, from the third time on to score_error. */
  lemma ReapOutcome(c: Call, pid: Id, row: Row)
    requires LeftAlone(c, RowAt(pid), 1) && IsAt(c, 0, OfClaims(Reap(pid))) && RowAt(pid)(Reached(c, 0).db) == Some(row)
    ensures IsAt(c, 1, OfClaims(Done(row.status == Scoring)))
    ensures RowAt(pid)(Reached(c, 1).db) ==
            Some(if row.status != Scoring then row
                 else row.(status := if row.leaseFailures < 2 then Discovered else ScoreError, token := None,
                           leaseFailures := row.leaseFailures + 1))
  {
    hide LeftAlone, IsAt, Reached, DbOk, ProcOk;
    var db := Turn(c, RowAt(pid), 1, 0, OfClaims(Reap(pid)));
  }

  predicate IsRescorable(status: Status)
  {
    status == Scored || status == Status.Review || status == ScoreError || status == RejectedByRule
  }

  predicate IsArchivable(status: Status)
  {
    status == Discovered || status == Scoring || status == Scored || status == Status.Review || status == ScoreError
  }

  lemma MoveOnRow(db: Db, pid: Id, status: Status, row: Row)
    requires DbOk(db) && RowAt(pid)(db) == Some(row) && status != Scoring
    ensures var (now, moved) := Transition(db, pid, {row.status}, status, None);
            moved && RowAt(pid)(now) == Some(row.(status := status, token := None))
  {
    hide DbOk;
  }

  lemma RequeueOnRow(db: Db, me: Id, hint: Hint, pid: Id, row: Row)
    requires DbOk(db) && RowAt(pid)(db) == Some(row)
    ensures Claims.Act(db, me, hint, RequeueRead(pid)) ==
            (db, if IsRescorable(row.status) then RequeueWrite(pid, row.status) else Done(false))
    ensures var (now, next) := Claims.Act(db, me, hint, RequeueWrite(pid, row.status));
            RowAt(pid)(now) == Some(row.(status := Discovered, token := None)) && next == Done(true)
  {
    hide DbOk, Transition;
    MoveOnRow(db, pid, Discovered, row);
  }

  /** A requeue sends scored, reviewed, failed and rejected rows back to be scored, and no others. */
  lemma RequeueOutcome(c: Call, pid: Id, row: Row) returns (k: nat)
    requires LeftAlone(c, RowAt(pid), 2) && IsAt(c, 0, OfClaims(RequeueRead(pid)))
    requires RowAt(pid)(Reached(c, 0).db) == Some(row)
    ensures k <= 2 && IsAt(c, k, OfClaims(Done(IsRescorable(row.status))))
    ensures RowAt(pid)(Reached(c, k).db) ==
            Some(if IsRescorable(row.status) then row.(status := Discovered, token := None) else row)
  {
    hide LeftAlone, IsAt, Reached, DbOk, ProcOk, Claims.Act, RowAt, IsRescorable;
    var db := Turn(c, RowAt(pid), 2, 0, OfClaims(RequeueRead(pid)));
    RequeueOnRow(db, c.me, c.hints(0), pid, row);
    k := 1;
    if IsRescorable(row.status) {
      db := Turn(c, RowAt(pid), 2, 1, OfClaims(RequeueWrite(pid, row.status)));
      RequeueOnRow(db, c.me, c.hints(1), pid, row);
      k := 2;
    }
  }

  lemma ArchivableOnRow(db: Db, me: Id, hint: Hint, pid: Id, row: Row)
    requires DbOk(db) && RowAt(pid)(db) == Some(row)
    ensures Claims.Act(db, me, hint, ArchiveRead(pid)) ==
            (db, if IsArchivable(row.status) then ArchiveWrite(pid, row.status) else Done(false))
    ensures var (now, next) := Claims.Act(db, me, hint, ArchiveWrite(pid, row.status));
            RowAt(pid)(now) == Some(row.(status := Archived, token := None)) && next == Done(true)
  {
    hide DbOk, Transition;
    MoveOnRow(db, pid, Archived, row);
  }

  /** Bulk and rule archiving takes the rows that no one has decided on, and no others. */
  lemma ArchiveOutcome(c: Call, pid: Id, row: Row) returns (k: nat)
    requires LeftAlone(c, RowAt(pid), 2) && IsAt(c, 0, OfClaims(ArchiveRead(pid)))
    requires RowAt(pid)(Reached(c, 0).db) == Some(row)
    ensures k <= 2 && IsAt(c, k, OfClaims(Done(IsArchivable(row.status))))
    ensures RowAt(pid)(Reached(c, k).db) ==
            Some(if IsArchivable(row.status) then row.(status := Archived, token := None) else row)
  {
    hide LeftAlone, IsAt, Reached, DbOk, ProcOk, Claims.Act, RowAt, IsArchivable;
    var db := Turn(c, RowAt(pid), 2, 0, OfClaims(ArchiveRead(pid)));
    ArchivableOnRow(db, c.me, c.hints(0), pid, row);
    k := 1;
    if IsArchivable(row.status) {
      db := Turn(c, RowAt(pid), 2, 1, OfClaims(ArchiveWrite(pid, row.status)));
      ArchivableOnRow(db, c.me, c.hints(1), pid, row);
      k := 2;
    }
  }

  lemma MarkClaimOnRow(db: Db, me: Id, hint: Hint, pid: Id, row: Row)
    requires RowAt(pid)(db) == Some(row)
    ensures var (now, next) := Claims.Act(db, me, hint, MarkClaim(pid));
            if row.status == Discovered
            then RowAt(pid)(now) == Some(row.(status := Scoring, token := Some(me))) && next == MarkWrite(pid)
            else now == db && next == ScoreDone
  {
  }

  lemma MarkWriteOnRow(db: Db, me: Id, hint: Hint, pid: Id, row: Row)
    requires RowAt(pid)(db) == Some(row) && row.status == Scoring && row.token == Some(me)
    ensures var (now, next) := Claims.Act(db, me, hint, MarkWrite(pid));
            RowAt(pid)(now) == Some(row.(status := ScoreError, token := None)) && next == ScoreDone
  {
  }

  /** Without a candidate context a discovered row is claimed and marked as an error. */
  lemma MarkOutcome(c: Call, pid: Id, row: Row) returns (k: nat)
    requires LeftAlone(c, RowAt(pid), 2) && IsAt(c, 0, OfClaims(MarkClaim(pid)))
    requires RowAt(pid)(Reached(c, 0).db) == Some(row)
    ensures k <= 2 && IsAt(c, k, OfClaims(ScoreDone))
    ensures RowAt(pid)(Reached(c, k).db) ==
            Some(if row.status == Discovered then row.(status := ScoreError, token := None) else row)
  {
    hide LeftAlone, IsAt, Reached, DbOk, ProcOk, Claims.Act, RowAt;
    var db := Turn(c, RowAt(pid), 2, 0, OfClaims(MarkClaim(pid)));
    MarkClaimOnRow(db, c.me, c.hints(0), pid, row);
    k := 1;
    if row.status == Discovered {
      db := Turn(c, RowAt(pid), 2, 1, OfClaims(MarkWrite(pid)));
      MarkWriteOnRow(db, c.me, c.hints(1), pid, row.(status := Scoring, token := Some(c.me)));
      k := 2;
    }
  }
}
