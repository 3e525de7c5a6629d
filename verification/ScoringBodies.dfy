/** The body of `score_one` (backend/app/services/pipeline_scoring.py) with its handlers and its `finally`, each
    statement of which may be cancelled or raise. */
module ScoringBodies {
  import opened Options
  import opened Tables
  import opened Enrichment
  import opened ScoringClaims
  import opened Bodies
  import R = ReviewBodies

  function Machine(me: Id, hints: nat -> Hint): (nat, Db, Step) -> (Db, Step)
  {
    (i: nat, db: Db, s: Step) =>
      var m := hints(i).mishap;
      var (now, next) := Act(db, me, hints(i), s);
      (Landed(db, now, m), Follow(m, s, next))
  }

  function Follow(m: Mishap, s: Step, next: Step): Step { if m.Fine? then next else Interrupted(s, m.Cut?) }

  predicate Ends(s: Step) { s.ScoreDone? || s.ScoreDropped? || s.ScoreUnreleased? }

  lemma Did(me: Id, hints: nat -> Hint, log: Log, i: nat, s: Step, env: nat -> Db, n: nat, now: Db, next: Step)
    requires n > 0 && !Ends(s) && Act(env(i), me, hints(i), s) == (now, next)
    ensures var act, m := Machine(me, hints), hints(i).mishap;
            var log', next' := Then(log, Landed(env(i), now, m)), Follow(m, s, next);
            && Play(act, Ends, log, i, s, env, n) == Play(act, Ends, log', i + 1, next', env, n - 1)
            && (Ends(next') ==> Play(act, Ends, log, i, s, env, n) == (log', next'))
  {
    hide Act, Interrupted;
    var m := hints(i).mishap;
    Tick(Machine(me, hints), Ends, log, i, s, env, n, Landed(env(i), now, m), Follow(m, s, next));
  }

  /** The enrichment inside the scorer: what it ends with, and what is done when it is cancelled or raises. */
  function AsScore(work: Work): Attempt<Enrich> -> Step
  {
    (a: Attempt<Enrich>) =>
      if a.Ran? then ScoreAfterEnrich(work, a.at)
      else if a.cancelled then ScoreCancelled(work) else ScoreWrite(work, ScoreError)
  }

  lemma EnrichEmbeds(me: Id, work: Work, hints: nat -> Hint)
    ensures Embeds(R.EnrichMachine(me, work.page, Some(me), hints), R.EnrichHalts(), Machine(me, hints), Ends,
                   AsScore(work))
  {
    hide EnrichAct;
    var inner, outer, lift := R.EnrichMachine(me, work.page, Some(me), hints), Machine(me, hints), AsScore(work);
    forall x: Attempt<Enrich> | !R.EnrichHalts()(x) ensures !Ends(lift(x)) {
      assert !R.EnrichEnds(x.at);
    }
    forall j: nat, db: Db, x: Attempt<Enrich> | !R.EnrichHalts()(x)
      ensures outer(j, db, lift(x)) == (inner(j, db, x).0, lift(inner(j, db, x).1))
    {
      assert !R.EnrichEnds(x.at);
      var m, s := hints(j).mishap, ScoreEnrich(work, x.at);
      assert lift(x) == s;
      var (now, next) := EnrichAct(db, me, work.page, Some(me), hints(j), x.at);
      assert inner(j, db, x) == (Landed(db, now, m), Attempted(m, next));
      assert outer(j, db, s) == (Landed(db, now, m), Follow(m, s, ScoreAfterEnrich(work, next)));
    }
  }

  // The scorer's own statements.
  lemma ClaimStatement(db: Db, me: Id, hint: Hint, work: Work)
    ensures Act(db, me, hint, ScoreClaim(work)) ==
            if Allows(db, work.pid, {Discovered}, None)
            then (Lease(db, me, work.pid), ScoreEnrich(work, Fetch(work.pid))) else (db, ScoreDone)
  {
  }

  lemma WriteStatement(db: Db, me: Id, hint: Hint, work: Work, status: Status)
    ensures Act(db, me, hint, ScoreWrite(work, status)) ==
            (if Allows(db, work.pid, {Scoring}, Some(me))
             then Put(db, work.pid, ScoreWritten(db.rows[work.pid], status)) else db,
             ScoreRelease(work, true))
  {
  }

  lemma ReleaseStatement(db: Db, me: Id, hint: Hint, work: Work, settled: bool)
    ensures Act(db, me, hint, ScoreRelease(work, settled)) == (Release(db, me, work.pid), ScoreDone)
    ensures Act(db, me, hint, ScoreCancelled(work)) == (Release(db, me, work.pid), ScoreRelease(work, true))
  {
  }

  /** What is to be written after the enrichment, if anything. */
  method Verdicted(work: Work, r: Enrich) returns (status: Option<Status>)
    requires R.EnrichEnds(r)
    ensures ScoreAfterEnrich(work, r) ==
            if status.Some? then ScoreWrite(work, status.value) else ScoreRelease(work, false)
  {
    if r.EnrichFailed? {
      var attempt := work.attempts + 1;
      return Some(if r.transient && attempt < MAX_TRANSIENT_SCORE_ATTEMPTS then Discovered else ScoreError);
    }
    if r.archived || r.row.status != Scoring {
      return None;
    }
    match work.verdict {
      case HardReject => status := Some(RejectedByRule);
      case Score => status := Some(Scored);
      case ModelFails => status := Some(ScoreError);
    }
  }

  /** A write guarded by the token; `m` says how it ends. */
  method GuardedWrite(me: Id, work: Work, hints: nat -> Hint, status: Status, before: Log, i: nat, env: nat -> Db,
                      ghost n: nat)
      returns (m: Mishap, log: Log)
    requires n >= 1
    ensures m == hints(i).mishap
    ensures var s := ScoreWrite(work, status);
            Play(Machine(me, hints), Ends, before, i, s, env, n) ==
            Play(Machine(me, hints), Ends, log, i + 1, Follow(m, s, ScoreRelease(work, true)), env, n - 1)
  {
    hide Play, Machine, Act, Put, Moved, Follow;
    m := hints(i).mishap;
    var db := env(i);
    WriteStatement(db, me, hints(i), work, status);
    if Allows(db, work.pid, {Scoring}, Some(me)) {
      var row := db.rows[work.pid];
      var update := Moved(row, status);
      if status == Scored || status == RejectedByRule {
        update := update.(leaseFailures := 0);
      }
      Updated(row, status);
      db := Put(db, work.pid, update);
    }
    Did(me, hints, before, i, ScoreWrite(work, status), env, n, db, ScoreRelease(work, true));
    log := Then(before, Landed(env(i), db, m));
  }

  lemma Updated(row: Row, status: Status)
    ensures ScoreWritten(row, status) ==
            if status == Scored || status == RejectedByRule then Moved(row, status).(leaseFailures := 0)
            else Moved(row, status)
  {
  }

  /** The handler of a cancellation releases the claim, and so does `finally` after it. */
  method OnCancelled(me: Id, work: Work, hints: nat -> Hint, before: Log, i: nat, env: nat -> Db, ghost n: nat)
      returns (log: Log, ghost settled: bool)
    requires n >= 1
    ensures Play(Machine(me, hints), Ends, before, i, ScoreCancelled(work), env, n) ==
            Play(Machine(me, hints), Ends, log, i + 1, ScoreRelease(work, settled), env, n - 1)
  {
    hide Play, Machine, Act, Release;
    var m := hints(i).mishap;
    var db := Release(env(i), me, work.pid);
    ReleaseStatement(env(i), me, hints(i), work, true);
    Did(me, hints, before, i, ScoreCancelled(work), env, n, db, ScoreRelease(work, true));
    return Then(before, Landed(env(i), db, m)), m.Fine?;
  }

  /** The write of the `try`, or of a handler, with the handlers that it may lead to. */
  method WriteAndHandle(me: Id, work: Work, hints: nat -> Hint, status: Status, before: Log, i: nat, env: nat -> Db,
                        ghost n: nat)
      returns (log: Log, k: nat, ghost settled: bool)
    requires n >= 2
    ensures i < k <= i + 2
    ensures Play(Machine(me, hints), Ends, before, i, ScoreWrite(work, status), env, n) ==
            Play(Machine(me, hints), Ends, log, k, ScoreRelease(work, settled), env, n - (k - i))
  {
    hide Play, Machine;
    var m;
    m, log := GuardedWrite(me, work, hints, status, before, i, env, n);
    if m.Fine? || !InTry(status) {
      return log, i + 1, m.Fine?;
    }
    if m.Cut? {
      log, settled := OnCancelled(me, work, hints, log, i + 1, env, n - 1);
    } else {
      m, log := GuardedWrite(me, work, hints, ScoreError, log, i + 1, env, n - 1);
      settled := m.Fine?;
    }
    k := i + 2;
  }

  /** The release in `finally`. */
  method Finally(me: Id, work: Work, hints: nat -> Hint, ghost settled: bool, before: Log, i: nat, env: nat -> Db,
                 ghost n: nat)
      returns (end: Step, log: Log)
    requires n >= 1
    ensures (log, end) == Play(Machine(me, hints), Ends, before, i, ScoreRelease(work, settled), env, n)
    ensures Ends(end)
  {
    hide Play, Machine, Act, Release;
    var m := hints(i).mishap;
    var db := Release(env(i), me, work.pid);
    ReleaseStatement(env(i), me, hints(i), work, settled);
    Did(me, hints, before, i, ScoreRelease(work, settled), env, n, db, ScoreDone);
    return if m.Fine? then ScoreDone else ScoreUnreleased, Then(before, Landed(env(i), db, m));
  }

  lemma Fetching(work: Work)
    ensures AsScore(work)(Ran(Fetch(work.pid))) == ScoreEnrich(work, Fetch(work.pid))
  {
  }

  /** From the claim on. */
  method ScoreClaimed(me: Id, work: Work, hints: nat -> Hint, before: Log, env: nat -> Db) returns (end: Step, log: Log)
    requires Size(before) == 1
    requires work.page.PageShown? ==>
               R.IsFound(env(2), work.page.hh, hints(2).found) && R.IsFound(env(3), work.page.hh, hints(3).found)
    ensures (log, end) == Play(Machine(me, hints), Ends, before, 1, ScoreEnrich(work, Fetch(work.pid)), env, 8)
    ensures Ends(end)
  {
    hide Play, Machine, HasRowOf, R.EnrichMachine, R.EnrichHalts, Embeds, ScoreAfterEnrich;
    var enriched;
    enriched, log := R.EnrichRow(me, work.pid, work.page, Some(me), hints, before, 1, env);
    EnrichEmbeds(me, work, hints);
    Fetching(work);
    Embedded(R.EnrichMachine(me, work.page, Some(me), hints), R.EnrichHalts(), Machine(me, hints), Ends, AsScore(work),
             before, 1, Ran(Fetch(work.pid)), env, 5, 8, log, enriched);
    var i := Size(log);
    ghost var settled := false;
    if enriched.Stopped? && enriched.cancelled {
      log, settled := OnCancelled(me, work, hints, log, i, env, 9 - i);
      i := i + 1;
    } else {
      var status := Some(ScoreError);
      if enriched.Ran? {
        status := Verdicted(work, enriched.at);
      }
      if status.Some? {
        log, i, settled := WriteAndHandle(me, work, hints, status.value, log, i, env, 9 - i);
      }
    }
    end, log := Finally(me, work, hints, settled, log, i, env, 9 - i);
  }

  method ScoreOne(me: Id, work: Work, hints: nat -> Hint, env: nat -> Db) returns (end: Step, log: Log)
    requires work.page.PageShown? ==>
               R.IsFound(env(2), work.page.hh, hints(2).found) && R.IsFound(env(3), work.page.hh, hints(3).found)
    ensures (log, end) == Play(Machine(me, hints), Ends, Nothing, 0, ScoreClaim(work), env, 9)
    ensures Ends(end)
  {
    hide Play, Machine, Act, Lease, HasRowOf;
    var db, m := env(0), hints(0).mishap;
    ClaimStatement(db, me, hints(0), work);
    var claimed := Allows(db, work.pid, {Discovered}, None);
    if claimed {
      db := Lease(db, me, work.pid);
    }
    log := Then(Nothing, Landed(env(0), db, m));
    Did(me, hints, Nothing, 0, ScoreClaim(work), env, 9, db,
        if claimed then ScoreEnrich(work, Fetch(work.pid)) else ScoreDone);
    if !m.Fine? {
      return ScoreDropped, log;
    }
    if !claimed {
      return ScoreDone, log;
    }
    end, log := ScoreClaimed(me, work, hints, log, env);
  }
}
