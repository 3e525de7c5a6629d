/** Scoring leases, over every run: any number of scorers, reaps, decisions, requeues and archives. */
module Leases {
  import opened Options
  import opened Tables
  import opened Enrichment
  import opened Funnel

  predicate InScoring(db: Db, p: Id) { p in db.rows && db.rows[p].status == Scoring }

  /** A row carries a token exactly in `scoring`; a token is the one of the scorer that claimed this row, so no
      two rows carry the same. */
  lemma TokensAreApart(run: Run, p: Id, q: Id, t: Id)
    requires p in State(run).db.rows
    ensures var db := State(run).db;
            && (InScoring(db, p) <==> db.rows[p].token.Some?)
            && (Carries(db.rows, p, t) ==> t in db.leases && db.leases[t] == p)
            && (Carries(db.rows, p, t) && Carries(db.rows, q, t) ==> p == q)
  {
    hide Next, JobsOk, BatchedOk, LettersOk, ClaimsOk, SubmissionsOk, BatchesOk, ProcsOk, OthersUnused;
    RunIsOk(run);
    var db := State(run).db;
    assert RowOk(p, db.rows[p], db.leases, db.approvals);
    if q in db.rows {
      assert RowOk(q, db.rows[q], db.leases, db.approvals);
    }
  }

  /** A token that has been given out never comes back: a row that carries it carried it all the time. */
  lemma {:induction false} TokenWasKept(earlier: Run, later: Run, p: Id, t: Id)
    requires Within(earlier, later) && t in State(earlier).db.leases && Carries(State(later).db.rows, p, t)
    ensures Carries(State(earlier).db.rows, p, t)
    decreases later
  {
    hide Next, SysOk, Carries, RowsStep, Narrows;
    if earlier != later {
      LeaseStays(earlier, later.before, t);
      RunIsOk(later.before);
      NextKeeps(State(later.before), later.event);
      assert Carries(State(later.before).db.rows, p, t);
      TokenWasKept(earlier, later.before, p, t);
    }
  }

  lemma {:induction false} LeaseStays(earlier: Run, later: Run, t: Id)
    requires Within(earlier, later) && t in State(earlier).db.leases
    ensures t in State(later).db.leases
    decreases later
  {
    hide Next, SysOk, RowsStep, Narrows, TokensFade;
    if earlier != later {
      LeaseStays(earlier, later.before, t);
      RunIsOk(later.before);
      NextKeeps(State(later.before), later.event);
    }
  }

  // ---------------------------------------------------------------- guarded writes

  /** The scorer's writes that are guarded by its token: score, rejection, error, retry and release. */
  predicate GuardedByToken(p: Proc)
  {
    p.OfClaims? && (p.claims.ScoreWrite? || p.claims.ScoreCancelled? || p.claims.ScoreRelease? || p.claims.MarkWrite?)
  }

  function GuardedRow(p: Proc): Id
    requires GuardedByToken(p)
  {
    if p.claims.MarkWrite? then p.claims.pid else p.claims.work.pid
  }

  // What the four writes have in common.
  lemma GuardedActIs(db: Db, me: Id, hint: Hint, s: Claims.Step)
    requires GuardedByToken(OfClaims(s)) && (s.ScoreWrite? ==> s.status != Scoring)
    ensures var pid, now := GuardedRow(OfClaims(s)), Claims.Act(db, me, hint, s).0.rows;
            if Allows(db, pid, {Scoring}, Some(me)) then pid in now && now[pid].status != Scoring else now == db.rows
  {
    hide EnrichAct, Lease;
    match s {
      case ScoreWrite(work, status) =>
      case ScoreCancelled(work) =>
      case ScoreRelease(work, _) =>
      case MarkWrite(pid) =>
    }
  }

  /** A guarded write takes effect exactly if it lands and the row still carries the token. */
  lemma TakesEffectIff(db: Db, me: Id, hint: Hint, p: Proc)
    requires DbOk(db) && ProcOk(db, me, p) && GuardedByToken(p)
    ensures Act(db, me, hint, p).0.rows != db.rows <==> Lands(hint.mishap) && Carries(db.rows, GuardedRow(p), me)
    ensures Carries(db.rows, GuardedRow(p), me) ==> InScoring(db, GuardedRow(p))
  {
    hide JobsOk, BatchedOk, LettersOk, ClaimsOk, SubmissionsOk, BatchesOk, Claims.Act;
    var pid := GuardedRow(p);
    GuardedActIs(db, me, hint, p.claims);
    assert pid in db.rows ==> RowOk(pid, db.rows[pid], db.leases, db.approvals);
  }

  /** When a guarded write takes effect, the row has been in `scoring` under this token in every state since
      the claim: no reap, decision, requeue or other scorer has come between, not even one that was undone. */
  lemma WriteNeedsUnbrokenClaim(claimed: Run, run: Run, me: Id, hint: Hint)
    requires Within(claimed, run) && me in State(claimed).db.leases
    requires me in State(run).procs && GuardedByToken(State(run).procs[me])
    requires Next(State(run), Move(me, hint)).db.rows != State(run).db.rows
    ensures var p := GuardedRow(State(run).procs[me]);
            Carries(State(claimed).db.rows, p, me) && InScoring(State(claimed).db, p)
  {
    hide Act, DbOk, ProcOk, Unused, Carries, InScoring, GuardedByToken, GuardedRow;
    var s := State(run);
    RunIsOk(run);
    assert ProcOk(s.db, me, s.procs[me]);
    TakesEffectIff(s.db, me, hint, s.procs[me]);
    var p := GuardedRow(s.procs[me]);
    TokenWasKept(claimed, run, p, me);
    assert InScoring(State(claimed).db, p) by {
      CarriedMeansScoring(claimed, p, me);
    }
  }

  lemma CarriedMeansScoring(run: Run, p: Id, t: Id)
    requires Carries(State(run).db.rows, p, t)
    ensures InScoring(State(run).db, p)
  {
    hide Next;
    TokensAreApart(run, p, p, t);
  }

  // ---------------------------------------------------------------- the end of a scorer

  /** After a guarded write, the release in `finally` changes nothing. */
  lemma ReleaseAfterWriteIsNoOp(run: Run, me: Id, hint: Hint, work: Claims.Work)
    requires me in State(run).procs && State(run).procs[me] == OfClaims(Claims.ScoreRelease(work, true))
    ensures Next(State(run), Move(me, hint)).db == State(run).db
  {
    hide DbOk, Next;
    RequestIsOk(run, me);
    var db := State(run).db;
    assert !Carries(db.rows, work.pid, me);
    DbAfter(After(run, Move(me, hint)));
  }

  /** The ends of a scorer: it returned or raised past its `finally`. */
  predicate Ended(s: Claims.Step) { s.ScoreDone? || s.ScoreDropped? || s.ScoreUnreleased? }

  /** A scorer that has ended leaves its token on no row, with two exceptions: the claim itself was cancelled or
      raised, or the last guarded statement was, which for `score_one` is the release in `finally`. */
  lemma OnlyTwoExitsLeak(run: Run, me: Id, p: Id)
    requires me in State(run).procs && State(run).procs[me].OfClaims? && Ended(State(run).procs[me].claims)
    requires Carries(State(run).db.rows, p, me)
    ensures State(run).procs[me].claims.ScoreDropped? || State(run).procs[me].claims.ScoreUnreleased?
  {
    hide Next, JobsOk, BatchedOk, LettersOk, ClaimsOk, SubmissionsOk, BatchesOk;
    RequestIsOk(run, me);
    var db := State(run).db;
    assert RowOk(p, db.rows[p], db.leases, db.approvals);
  }

  predicate IsClaim(s: Claims.Step) { s.ScoreClaim? || s.MarkClaim? }

  function ClaimedRow(s: Claims.Step): Id
    requires IsClaim(s)
  {
    if s.ScoreClaim? then s.work.pid else s.pid
  }

  predicate Discoverable(db: Db, pid: Id) { pid in db.rows && db.rows[pid].status == Discovered }

  lemma NotCarriedYet(db: Db, me: Id)
    requires RowsOk(db.rows, db.leases, db.approvals) && me !in db.leases
    ensures !Claims.Carried(db.rows, me)
  {
    forall p | p in db.rows ensures !Carries(db.rows, p, me) {
      assert RowOk(p, db.rows[p], db.leases, db.approvals);
    }
  }

  lemma ClaimActIs(db: Db, me: Id, hint: Hint, s: Claims.Step)
    requires IsClaim(s)
    ensures Claims.Act(db, me, hint, s).0 ==
            if Discoverable(db, ClaimedRow(s)) then Lease(db, me, ClaimedRow(s)) else db
  {
    hide Lease;
  }

  /** A claim that is cancelled or raises leaks exactly if it took effect on a discovered row. */
  lemma DroppedClaimLeaksIff(run: Run, me: Id, s: Claims.Step, hint: Hint)
    requires me in State(run).procs && State(run).procs[me] == OfClaims(s) && IsClaim(s) && !hint.mishap.Fine?
    ensures var now := Next(State(run), Move(me, hint));
            && now.procs[me] == OfClaims(Claims.ScoreDropped)
            && (Claims.Carried(now.db.rows, me) <==> hint.mishap.done && Discoverable(State(run).db, ClaimedRow(s)))
  {
    hide JobsOk, BatchedOk, LettersOk, ClaimsOk, SubmissionsOk, BatchesOk, Claims.Act, Claims.Carried;
    RequestIsOk(run, me);
    var db := State(run).db;
    NotCarriedYet(db, me);
    ClaimActIs(db, me, hint, s);
    if Discoverable(db, ClaimedRow(s)) {
      LeaseIsCarried(db, me, ClaimedRow(s));
    }
  }

  lemma LeaseIsCarried(db: Db, me: Id, pid: Id)
    requires pid in db.rows
    ensures Claims.Carried(Lease(db, me, pid).rows, me)
  {
    assert Carries(Lease(db, me, pid).rows, pid, me);
  }

  /** The last guarded statement of a scorer. */
  predicate IsLastRelease(s: Claims.Step) { s.ScoreRelease? || s.MarkWrite? }

  /** A release that is cancelled or raises leaks exactly if it did not take effect and the row still carried
      the token before it. */
  lemma FailedReleaseLeaksIff(run: Run, me: Id, s: Claims.Step, hint: Hint)
    requires me in State(run).procs && State(run).procs[me] == OfClaims(s) && IsLastRelease(s) && !hint.mishap.Fine?
    ensures var now := Next(State(run), Move(me, hint));
            && now.procs[me] == OfClaims(Claims.ScoreUnreleased)
            && (Claims.Carried(now.db.rows, me) <==>
                !hint.mishap.done && Carries(State(run).db.rows, GuardedRow(OfClaims(s)), me))
  {
    hide DbOk, Claims.Act, Claims.Carried, Claims.StepOk, Claims.Claimed;
    RequestIsOk(run, me);
    var db := State(run).db;
    LastReleaseSettles(db, me, hint, s);
    OnlyItsRow(db, me, s);
  }

  lemma LastReleaseSettles(db: Db, me: Id, hint: Hint, s: Claims.Step)
    requires DbOk(db) && Claims.StepOk(db, me, s) && IsLastRelease(s)
    ensures !Claims.Carried(Claims.Act(db, me, hint, s).0.rows, me)
  {
    hide DbOk, Claims.Carried, Tables.Transition, Claims.Release;
    if s.MarkWrite? {
      Claims.MarkKeeps(db, me, s.pid);
    } else {
      Claims.ReleaseKeeps(db, me, s.work.pid);
    }
  }

  lemma OnlyItsRow(db: Db, me: Id, s: Claims.Step)
    requires DbOk(db) && Claims.StepOk(db, me, s) && IsLastRelease(s)
    ensures Claims.Carried(db.rows, me) <==> Carries(db.rows, GuardedRow(OfClaims(s)), me)
  {
    hide JobsOk, BatchedOk, LettersOk, ClaimsOk, SubmissionsOk, BatchesOk;
    forall p | p in db.rows && Carries(db.rows, p, me) ensures p == GuardedRow(OfClaims(s)) {
      assert RowOk(p, db.rows[p], db.leases, db.approvals);
    }
  }

  // ---------------------------------------------------------------- both leaks happen

  const NO_HINT := Hint(None, false, Fine)
  const NEW_ROW := Row(Discovered, 7, None, true, "", None, None, 0)
  const WORK := Claims.Work(0, PageBroken, 0, Claims.Score)

  /** A vacancy found for the first time, and a scorer that starts on it. */
  const FOUND: Run :=
    After(After(After(Init, Start(0, OfReview(Review.Discovering(Look(7, None, true))))), Move(0, NO_HINT)),
          Move(0, NO_HINT))
  const STARTED: Run := After(FOUND, Start(1, OfClaims(Claims.ScoreClaim(WORK))))

  /** The scorer is cancelled while its claim runs. */
  const DROPPED: Run := After(STARTED, Move(1, Hint(None, false, Cut(true))))

  /** HH fails, then the write of the error raises and the release in `finally`, too. */
  const CLAIMED: Run := After(STARTED, Move(1, NO_HINT))
  const FETCHED: Run := After(CLAIMED, Move(1, NO_HINT))
  const UNRELEASED: Run :=
    After(After(FETCHED, Move(1, Hint(None, false, Raised(false)))), Move(1, Hint(None, false, Raised(false))))

  lemma FindRow()
    ensures State(FOUND).db == Empty().(rows := map[0 := NEW_ROW]) && State(FOUND).procs.Keys == {0}
  {
    var begun := FOUND.before.before;
    assert State(begun).procs == map[0 := OfReview(Review.Discovering(Look(7, None, true)))];
    assert State(FOUND.before) == Sys(Empty(), map[0 := OfReview(Review.Discovering(Insert(7, None, true)))]);
  }

  lemma StartScorer()
    ensures State(STARTED).db == Empty().(rows := map[0 := NEW_ROW])
    ensures 1 in State(STARTED).procs && State(STARTED).procs[1] == OfClaims(Claims.ScoreClaim(WORK))
  {
    hide FOUND;
    FindRow();
  }

  /** That run ends with the row left in `scoring` under the token of a scorer that is gone. */
  lemma LeakIsReachable()
    ensures Carries(State(DROPPED).db.rows, 0, 1) && InScoring(State(DROPPED).db, 0)
    ensures 1 in State(DROPPED).procs && State(DROPPED).procs[1] == OfClaims(Claims.ScoreDropped)
  {
    hide STARTED;
    StartScorer();
  }

  lemma ClaimAndFetch()
    ensures Carries(State(FETCHED).db.rows, 0, 1) && InScoring(State(FETCHED).db, 0)
    ensures 1 in State(FETCHED).procs && State(FETCHED).procs[1] == OfClaims(Claims.ScoreWrite(WORK, ScoreError))
  {
    hide STARTED;
    StartScorer();
    assert State(CLAIMED).db == Lease(Empty().(rows := map[0 := NEW_ROW]), 1, 0);
    assert State(CLAIMED).procs[1] == OfClaims(Claims.ScoreEnrich(WORK, Fetch(0)));
  }

  /** So does a run whose scorer was neither cancelled nor dropped: the release raised, which is only logged. */
  lemma UnreleasedIsReachable()
    ensures Carries(State(UNRELEASED).db.rows, 0, 1) && InScoring(State(UNRELEASED).db, 0)
    ensures 1 in State(UNRELEASED).procs && State(UNRELEASED).procs[1] == OfClaims(Claims.ScoreUnreleased)
  {
    hide FETCHED, Claims.Act;
    ClaimAndFetch();
    assert State(UNRELEASED.before).procs[1] == OfClaims(Claims.ScoreRelease(WORK, false));
  }
}
