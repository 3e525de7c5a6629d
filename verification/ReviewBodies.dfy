/** The bodies of `decide` and `enrich` (backend/app/services/vacancy_review_service.py) and of
    `persist_discovered` (backend/app/services/vacancy_pipeline.py). */
module ReviewBodies {
  import opened Options
  import opened Tables
  import opened Enrichment
  import opened VacancyReview
  import opened Bodies

  const NO_HINT := Hint(None, false, Fine)

  function Machine(me: Id): (nat, Db, Step) -> (Db, Step) { (i: nat, db: Db, s: Step) => Act(db, me, NO_HINT, s) }

  predicate Ends(s: Step) { s.Done? }

  lemma Did(me: Id, log: Log, i: nat, s: Step, env: nat -> Db, n: nat, now: Db, next: Step)
    requires n > 0 && !s.Done? && Act(env(i), me, NO_HINT, s) == (now, next)
    ensures Play(Machine(me), Ends, log, i, s, env, n) ==
            Play(Machine(me), Ends, Then(log, now), i + 1, next, env, n - 1)
    ensures next.Done? ==> Play(Machine(me), Ends, log, i, s, env, n) == (Then(log, now), next)
  {
    hide Act;
    Tick(Machine(me), Ends, log, i, s, env, n, now, next);
  }

  method Decide(me: Id, pid: Id, action: Action, hasReason: bool, env: nat -> Db) returns (ok: bool, log: Log)
    ensures (log, Done(ok)) == Play(Machine(me), Ends, Nothing, 0, DecideRead(pid, action, hasReason), env, 2)
  {
    hide Play, Machine, Ends, Put, Moved;
    log := Nothing;
    var db := env(0);
    if (action == Reject && !hasReason) || pid !in db.rows {
      Did(me, log, 0, DecideRead(pid, action, hasReason), env, 2, db, Done(false));
      return false, Then(log, db);
    }
    var status := db.rows[pid].status;
    var allowed := if action == Archive then ARCHIVABLE else REVIEWABLE;
    if status !in allowed {
      Did(me, log, 0, DecideRead(pid, action, hasReason), env, 2, db, Done(false));
      return false, Then(log, db);
    }
    var target: Status;
    match action {
      case Select => target := Selected;
      case Reject => target := RejectedByUser;
      case Defer => target := Hold;
      case BackToReview => target := Review;
      case Archive => target := Archived;
    }
    Did(me, log, 0, DecideRead(pid, action, hasReason), env, 2, db, DecideWrite(pid, status, target));
    log := Then(log, db);
    db := env(1);
    ok := Allows(db, pid, {status}, None);
    if ok {
      db := Put(db, pid, Moved(db.rows[pid], target));
    }
    Did(me, log, 1, DecideWrite(pid, status, target), env, 1, db, Done(ok));
    log := Then(log, db);
  }

  // ---------------------------------------------------------------- persist_discovered

  function PersistSteps(me: Id, hints: nat -> Hint): (nat, Db, Persist) -> (Db, Persist)
  {
    (i: nat, db: Db, s: Persist) => PersistAct(db, me, hints(i), s)
  }

  predicate PersistEnds(s: Persist) { s.Stored? }

  function PersistMachine(me: Id, hints: nat -> Hint): (nat, Db, Attempt<Persist>) -> (Db, Attempt<Persist>)
  {
    Attempting(PersistSteps(me, hints), hints)
  }

  function PersistHalts(): Attempt<Persist> -> bool { Halts(PersistEnds) }

  lemma PersistDid(me: Id, hints: nat -> Hint, log: Log, i: nat, s: Persist, env: nat -> Db, n: nat, now: Db,
                   next: Persist)
    requires n > 0 && !PersistEnds(s) && PersistAct(env(i), me, hints(i), s) == (now, next)
    ensures var act, m := PersistMachine(me, hints), hints(i).mishap;
            var log', next' := Then(log, Landed(env(i), now, m)), Attempted(m, next);
            && Play(act, PersistHalts(), log, i, Ran(s), env, n) ==
               Play(act, PersistHalts(), log', i + 1, next', env, n - 1)
            && (!m.Fine? || PersistEnds(next) ==> Play(act, PersistHalts(), log, i, Ran(s), env, n) == (log', next'))
  {
    hide PersistAct;
    var m := hints(i).mishap;
    Tick(PersistMachine(me, hints), PersistHalts(), log, i, Ran(s), env, n, Landed(env(i), now, m), Attempted(m, next));
  }

  /** What the query for the row of a vacancy may return. */
  predicate IsFound(db: Db, hh: Id, found: Option<Id>)
  {
    if found.Some? then IsRowOf(db, found.value, hh) else !HasRowOf(db, hh)
  }

  method PersistDiscovered(me: Id, hh: Id, resume: Option<Id>, described: bool, hints: nat -> Hint, before: Log, i: nat,
                           env: nat -> Db)
      returns (r: Attempt<Persist>, log: Log)
    requires IsFound(env(i), hh, hints(i).found)
    ensures (log, r) ==
            Play(PersistMachine(me, hints), PersistHalts(), before, i, Ran(Look(hh, resume, described)), env, 2)
    ensures r.Ran? ==> PersistEnds(r.at)
  {
    hide Play, PersistMachine, PersistHalts, HasRowOf, Put;
    var found, m := hints(i).found, hints(i).mishap;
    var db := env(i);
    log := Then(before, db);
    var filled := None;
    if found.Some? {
      filled := if resume.Some? && db.rows[found.value].resume == None then resume else None;
      PersistDid(me, hints, before, i, Look(hh, resume, described), env, 2, db,
                 Refresh(found.value, filled, described));
    } else {
      PersistDid(me, hints, before, i, Look(hh, resume, described), env, 2, db, Insert(hh, resume, described));
    }
    if !m.Fine? {
      return Stopped(m.Cut?), log;
    }
    db, m := env(i + 1), hints(i + 1).mishap;
    var ok := true;
    if found.Some? {
      var pid := found.value;
      if pid in db.rows {
        var row := db.rows[pid];
        var update := row.(described := row.described || described);
        if filled.Some? {
          update := update.(resume := filled);
        }
        db := Put(db, pid, update);
      }
      PersistDid(me, hints, log, i + 1, Refresh(pid, filled, described), env, 1, db, Stored(true));
    } else {
      ok := me !in db.rows && !HasRowOf(db, hh);
      if ok {
        db := Put(db, me, Row(Discovered, hh, resume, described, "", None, None, 0));
      }
      PersistDid(me, hints, log, i + 1, Insert(hh, resume, described), env, 1, db, Stored(ok));
    }
    log := Then(log, Landed(env(i + 1), db, m));
    r := Attempted(m, Stored(ok));
  }

  // ---------------------------------------------------------------- enrich

  function EnrichSteps(me: Id, page: Page, token: Option<Id>, hints: nat -> Hint): (nat, Db, Enrich) -> (Db, Enrich)
  {
    (i: nat, db: Db, s: Enrich) => EnrichAct(db, me, page, token, hints(i), s)
  }

  predicate EnrichEnds(s: Enrich) { s.Enriched? || s.EnrichFailed? }

  function EnrichMachine(me: Id, page: Page, token: Option<Id>, hints: nat -> Hint)
      : (nat, Db, Attempt<Enrich>) -> (Db, Attempt<Enrich>)
  {
    Attempting(EnrichSteps(me, page, token, hints), hints)
  }

  function EnrichHalts(): Attempt<Enrich> -> bool { Halts(EnrichEnds) }

  lemma EnrichDid(me: Id, page: Page, token: Option<Id>, hints: nat -> Hint, log: Log, i: nat, s: Enrich,
                  env: nat -> Db, n: nat, now: Db, next: Enrich)
    requires n > 0 && !EnrichEnds(s) && EnrichAct(env(i), me, page, token, hints(i), s) == (now, next)
    ensures var act, m := EnrichMachine(me, page, token, hints), hints(i).mishap;
            var log', next' := Then(log, Landed(env(i), now, m)), Attempted(m, next);
            && Play(act, EnrichHalts(), log, i, Ran(s), env, n) ==
               Play(act, EnrichHalts(), log', i + 1, next', env, n - 1)
            && (!m.Fine? || EnrichEnds(next) ==> Play(act, EnrichHalts(), log, i, Ran(s), env, n) == (log', next'))
  {
    hide EnrichAct;
    var act, m := EnrichMachine(me, page, token, hints), hints(i).mishap;
    Tick(act, EnrichHalts(), log, i, Ran(s), env, n, Landed(env(i), now, m), Attempted(m, next));
  }

  /** A refresh as part of an enrichment. */
  function AsEnrich(pid: Id): Attempt<Persist> -> Attempt<Enrich>
  {
    (a: Attempt<Persist>) =>
      if a.Stopped? then Stopped(a.cancelled)
      else Ran(if !a.at.Stored? then Persisting(pid, a.at) else if a.at.ok then Reread(pid) else EnrichFailed(false))
  }

  lemma PersistEmbeds(me: Id, page: Page, token: Option<Id>, hints: nat -> Hint, pid: Id)
    ensures Embeds(PersistMachine(me, hints), PersistHalts(), EnrichMachine(me, page, token, hints), EnrichHalts(),
                   AsEnrich(pid))
  {
    hide PersistAct;
    hide PersistAct;
    var inner, outer, lift := PersistMachine(me, hints), EnrichMachine(me, page, token, hints), AsEnrich(pid);
    forall x: Attempt<Persist> | !PersistHalts()(x) ensures !EnrichHalts()(lift(x)) {
      assert !PersistEnds(x.at);
      assert !EnrichEnds(Persisting(pid, x.at));
    }
    forall j: nat, db: Db, x: Attempt<Persist> | !PersistHalts()(x)
      ensures outer(j, db, lift(x)) == (inner(j, db, x).0, lift(inner(j, db, x).1))
    {
      assert !PersistEnds(x.at);
      var m, s := hints(j).mishap, Persisting(pid, x.at);
      assert lift(x) == Ran(s);
      var (now, next) := PersistAct(db, me, hints(j), x.at);
      assert inner(j, db, x) == (Landed(db, now, m), Attempted(m, next));
      assert outer(j, db, Ran(s)) == (Landed(db, now, m), Attempted(m, EnrichAct(db, me, page, token, hints(j), s).1));
    }
  }

  method RereadRow(me: Id, pid: Id, page: Page, token: Option<Id>, hints: nat -> Hint, before: Log, i: nat,
                   env: nat -> Db, ghost n: nat)
      returns (r: Attempt<Enrich>, log: Log)
    requires n >= 1
    ensures (log, r) == Play(EnrichMachine(me, page, token, hints), EnrichHalts(), before, i, Ran(Reread(pid)), env, n)
    ensures r.Ran? ==> EnrichEnds(r.at)
  {
    hide Play, EnrichMachine, EnrichHalts;
    var db := env(i);
    var e := if pid in db.rows then Enriched(db.rows[pid], db.rows[pid].status == Archived) else EnrichFailed(false);
    EnrichDid(me, page, token, hints, before, i, Reread(pid), env, n, db, e);
    return Attempted(hints(i).mishap, e), Then(before, db);
  }

  lemma PlayedOut(me: Id, page: Page, token: Option<Id>, hints: nat -> Hint, log: Log, i: nat, s: Attempt<Enrich>,
                  env: nat -> Db, n: nat)
    requires s.Ran? ==> EnrichEnds(s.at)
    ensures Play(EnrichMachine(me, page, token, hints), EnrichHalts(), log, i, s, env, n) == (log, s)
  {
  }

  /** From the description on: refresh the row and read it again. */
  method PersistAndReread(me: Id, pid: Id, page: Page, token: Option<Id>, resume: Option<Id>, hints: nat -> Hint,
                          before: Log, i: nat, env: nat -> Db, ghost n: nat)
      returns (r: Attempt<Enrich>, log: Log)
    requires page.PageShown? && page.described && IsFound(env(i), page.hh, hints(i).found) && n >= 3
    ensures (log, r) == Play(EnrichMachine(me, page, token, hints), EnrichHalts(), before, i,
                             Ran(Persisting(pid, Look(page.hh, resume, true))), env, n)
    ensures r.Ran? ==> EnrichEnds(r.at)
  {
    hide Play, EnrichMachine, PersistMachine, EnrichHalts, PersistHalts, HasRowOf, Embeds;
    var stored;
    stored, log := PersistDiscovered(me, page.hh, resume, true, hints, before, i, env);
    PersistEmbeds(me, page, token, hints, pid);
    Embedded(PersistMachine(me, hints), PersistHalts(), EnrichMachine(me, page, token, hints), EnrichHalts(),
             AsEnrich(pid), before, i, Ran(Look(page.hh, resume, true)), env, 2, n, log, stored);
    var k := i + Size(log) - Size(before);
    if stored.Stopped? || !stored.at.ok {
      r := if stored.Stopped? then Stopped(stored.cancelled) else Ran(EnrichFailed(false));
      PlayedOut(me, page, token, hints, log, k, r, env, n - (k - i));
      return;
    }
    r, log := RereadRow(me, pid, page, token, hints, log, k, env, n - (k - i));
  }

  /** The archive of the row as it was read, if HH has archived the vacancy. */
  method ArchiveRow(me: Id, pid: Id, page: Page, token: Option<Id>, current: Row, hints: nat -> Hint, before: Log,
                    i: nat, env: nat -> Db, ghost s: Enrich, ghost next: Enrich, ghost n: nat)
      returns (m: Mishap, log: Log)
    requires n >= 1
    requires page.PageGone? || page.PageShown?
    requires s == if page.PageGone? then ArchiveGone(pid, current.status)
                  else ArchiveShown(pid, current.status, current.resume)
    requires next == if page.PageGone? then Reread(pid) else EnrichAfterShown(pid, page, current.resume)
    ensures m == hints(i).mishap
    ensures var act := EnrichMachine(me, page, token, hints);
            && Play(act, EnrichHalts(), before, i, Ran(s), env, n) ==
               Play(act, EnrichHalts(), log, i + 1, Attempted(m, next), env, n - 1)
            && (!m.Fine? ==> Play(act, EnrichHalts(), before, i, Ran(s), env, n) == (log, Stopped(m.Cut?)))
            && (EnrichEnds(next) ==> Play(act, EnrichHalts(), before, i, Ran(s), env, n) == (log, Attempted(m, next)))
  {
    hide Play, EnrichMachine, EnrichHalts, Put, Moved, EnrichAfterShown;
    m := hints(i).mishap;
    var db := env(i);
    if Allows(db, pid, {current.status}, if current.status == Scoring then token else None) {
      db := Put(db, pid, Moved(db.rows[pid], Archived));
    }
    EnrichDid(me, page, token, hints, before, i, s, env, n, db, next);
    log := Then(before, Landed(env(i), db, m));
  }

  method UseDescription(me: Id, pid: Id, page: Page, token: Option<Id>, resume: Option<Id>, hints: nat -> Hint,
                        before: Log, i: nat, env: nat -> Db, ghost n: nat)
      returns (r: Attempt<Enrich>, log: Log)
    requires page.PageShown? && IsFound(env(i), page.hh, hints(i).found) && n >= 3
    ensures (log, r) == Play(EnrichMachine(me, page, token, hints), EnrichHalts(), before, i,
                             Ran(EnrichAfterShown(pid, page, resume)), env, n)
    ensures r.Ran? ==> EnrichEnds(r.at)
  {
    hide Play, EnrichMachine, EnrichHalts, HasRowOf;
    if !page.described {
      PlayedOut(me, page, token, hints, before, i, Ran(EnrichFailed(false)), env, n);
      return Ran(EnrichFailed(false)), before;
    }
    r, log := PersistAndReread(me, pid, page, token, resume, hints, before, i, env, n);
  }

  /** The page is there: archive the row if the vacancy is archived, then refresh it. */
  method EnrichShown(me: Id, pid: Id, page: Page, token: Option<Id>, current: Row, hints: nat -> Hint, before: Log,
                     i: nat, env: nat -> Db)
      returns (r: Attempt<Enrich>, log: Log)
    requires page.PageShown? && pid in env(i).rows && env(i).rows[pid] == current
    requires IsFound(env(i + 1), page.hh, hints(i + 1).found) && IsFound(env(i + 2), page.hh, hints(i + 2).found)
    ensures (log, r) == Play(EnrichMachine(me, page, token, hints), EnrichHalts(), before, i, Ran(Fetch(pid)), env, 5)
    ensures r.Ran? ==> EnrichEnds(r.at)
  {
    hide Play, EnrichMachine, EnrichHalts, HasRowOf, EnrichAfterShown;
    var db, m, k := env(i), hints(i).mishap, i + 1;
    log := Then(before, db);
    ghost var shown := EnrichAfterShown(pid, page, current.resume);
    if page.archived && current.status != Status.Sent {
      ghost var archive := ArchiveShown(pid, current.status, current.resume);
      EnrichDid(me, page, token, hints, before, i, Fetch(pid), env, 5, db, archive);
      if !m.Fine? {
        return Stopped(m.Cut?), log;
      }
      m, log := ArchiveRow(me, pid, page, token, current, hints, log, i + 1, env, archive, shown, 4);
      k := i + 2;
    } else {
      EnrichDid(me, page, token, hints, before, i, Fetch(pid), env, 5, db, shown);
    }
    if !m.Fine? {
      return Stopped(m.Cut?), log;
    }
    r, log := UseDescription(me, pid, page, token, current.resume, hints, log, k, env, 5 - (k - i));
  }

  method EnrichRow(me: Id, pid: Id, page: Page, token: Option<Id>, hints: nat -> Hint, before: Log, i: nat,
                   env: nat -> Db)
      returns (r: Attempt<Enrich>, log: Log)
    requires page.PageShown? ==>
               IsFound(env(i + 1), page.hh, hints(i + 1).found) && IsFound(env(i + 2), page.hh, hints(i + 2).found)
    ensures (log, r) == Play(EnrichMachine(me, page, token, hints), EnrichHalts(), before, i, Ran(Fetch(pid)), env, 5)
    ensures r.Ran? ==> EnrichEnds(r.at)
  {
    hide Play, EnrichMachine, EnrichHalts, HasRowOf, EnrichAfterShown;
    var db, m := env(i), hints(i).mishap;
    log := Then(before, db);
    if pid !in db.rows || page.PageTransient? || page.PageBroken? {
      var failed := EnrichFailed(pid in db.rows && page.PageTransient?);
      EnrichDid(me, page, token, hints, before, i, Fetch(pid), env, 5, db, failed);
      return Attempted(m, failed), log;
    }
    var current := db.rows[pid];
    if page.PageShown? {
      r, log := EnrichShown(me, pid, page, token, current, hints, before, i, env);
      return;
    }
    if current.status == Status.Sent {
      EnrichDid(me, page, token, hints, before, i, Fetch(pid), env, 5, db, Reread(pid));
      if !m.Fine? {
        return Stopped(m.Cut?), log;
      }
      r, log := RereadRow(me, pid, page, token, hints, log, i + 1, env, 4);
      return;
    }
    EnrichDid(me, page, token, hints, before, i, Fetch(pid), env, 5, db, ArchiveGone(pid, current.status));
    if !m.Fine? {
      return Stopped(m.Cut?), log;
    }
    m, log := ArchiveRow(me, pid, page, token, current, hints, log, i + 1, env,
                         ArchiveGone(pid, current.status), Reread(pid), 4);
    if !m.Fine? {
      return Stopped(m.Cut?), log;
    }
    r, log := RereadRow(me, pid, page, token, hints, log, i + 2, env, 3);
  }
}
