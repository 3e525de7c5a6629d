/** The bodies of `save_draft` and `generate_draft` (backend/app/services/pipeline_cover_letters.py). Any statement
    may be cancelled or raise, which ends the call. */
module LetterBodies {
  import opened Options
  import opened Tables
  import opened Enrichment
  import opened CoverLetters
  import opened Bodies
  import R = ReviewBodies

  function Follow(m: Mishap, next: Step): Step { if m.Fine? then next else Done(false) }

  function Machine(me: Id, hints: nat -> Hint): (nat, Db, Step) -> (Db, Step)
  {
    (i: nat, db: Db, s: Step) =>
      var m := hints(i).mishap;
      var (now, next) := Act(db, me, hints(i), s);
      (Landed(db, now, m), Follow(m, next))
  }

  predicate Ends(s: Step) { s.Done? }

  lemma Did(me: Id, hints: nat -> Hint, log: Log, i: nat, s: Step, env: nat -> Db, n: nat, now: Db, next: Step)
    requires n > 0 && !s.Done? && Act(env(i), me, hints(i), s) == (now, next)
    ensures var act, m := Machine(me, hints), hints(i).mishap;
            var log', next' := Then(log, Landed(env(i), now, m)), Follow(m, next);
            && Play(act, Ends, log, i, s, env, n) == Play(act, Ends, log', i + 1, next', env, n - 1)
            && (next'.Done? ==> Play(act, Ends, log, i, s, env, n) == (log', next'))
  {
    hide Act;
    var m := hints(i).mishap;
    Tick(Machine(me, hints), Ends, log, i, s, env, n, Landed(env(i), now, m), Follow(m, next));
  }

  lemma SavedAnew(row: Row, clean: string)
    ensures Redrafted(Moved(row, LetterDraft), clean) == Moved(row.(draft := clean, hash := None), LetterDraft)
  {
  }

  lemma PlayedOut(me: Id, hints: nat -> Hint, log: Log, i: nat, ok: bool, env: nat -> Db, n: nat)
    ensures Play(Machine(me, hints), Ends, log, i, Done(ok), env, n) == (log, Done(ok))
  {
  }

  /** The check of the text and the guarded update. */
  method CleanAndSave(me: Id, pid: Id, text: string, approved: bool, hints: nat -> Hint, before: Log, i: nat,
                      env: nat -> Db, ghost n: nat)
      returns (ok: bool, log: Log)
    requires n >= 1
    ensures (log, Done(ok)) == Play(Machine(me, hints), Ends, before, i, SaveAfterReads(pid, text, approved), env, n)
  {
    hide Strip, Play, Machine, Ends, Put, Moved;
    var clean := Strip(text);
    if clean == "" || |clean| > 6000 {
      PlayedOut(me, hints, before, i, false, env, n);
      return false, before;
    }
    var db, m := env(i), hints(i).mishap;
    ok := Allows(db, pid, {if approved then Approved else LetterDraft}, None);
    if ok {
      var row := db.rows[pid].(draft := clean, hash := None);
      if approved {
        SavedAnew(db.rows[pid], clean);
        row := Moved(row, LetterDraft);
      }
      db := Put(db, pid, row);
    }
    Did(me, hints, before, i, SaveWrite(pid, clean, approved), env, n, db, Done(ok));
    return ok && m.Fine?, Then(before, Landed(env(i), db, m));
  }

  method SaveDraft(me: Id, pid: Id, text: string, hints: nat -> Hint, env: nat -> Db) returns (ok: bool, log: Log)
    ensures (log, Done(ok)) == Play(Machine(me, hints), Ends, Nothing, 0, SaveRead(pid, text), env, 3)
  {
    hide Strip, Play, Machine, Ends, SaveAfterReads;
    var db, m := env(0), hints(0).mishap;
    log := Then(Nothing, Landed(db, db, m));
    if pid !in db.rows || (db.rows[pid].status != LetterDraft && db.rows[pid].status != Approved) {
      Did(me, hints, Nothing, 0, SaveRead(pid, text), env, 3, db, Done(false));
      return false, log;
    }
    if db.rows[pid].status == LetterDraft {
      Did(me, hints, Nothing, 0, SaveRead(pid, text), env, 3, db, SaveAfterReads(pid, text, false));
      if !m.Fine? {
        return false, log;
      }
      ok, log := CleanAndSave(me, pid, text, false, hints, log, 1, env, 2);
      return;
    }
    Did(me, hints, Nothing, 0, SaveRead(pid, text), env, 3, db, SaveReadJob(pid, text));
    if !m.Fine? {
      return false, log;
    }
    db, m := env(1), hints(1).mishap;
    if pid in db.jobs && db.jobs[pid].status != Cancelled {
      Did(me, hints, log, 1, SaveReadJob(pid, text), env, 2, db, Done(false));
      return false, Then(log, Landed(db, db, m));
    }
    Did(me, hints, log, 1, SaveReadJob(pid, text), env, 2, db, SaveAfterReads(pid, text, true));
    log := Then(log, Landed(db, db, m));
    if !m.Fine? {
      return false, log;
    }
    ok, log := CleanAndSave(me, pid, text, true, hints, log, 2, env, 1);
  }

  // ---------------------------------------------------------------- generate_draft

  /** The enrichment inside the call. */
  function AsGenerate(order: Order): Attempt<Enrich> -> Step
  {
    (a: Attempt<Enrich>) => if a.Ran? then GenerateAfterEnrich(order, a.at) else Done(false)
  }

  lemma EnrichEmbeds(me: Id, order: Order, hints: nat -> Hint)
    ensures Embeds(R.EnrichMachine(me, order.page, None, hints), R.EnrichHalts(), Machine(me, hints), Ends,
                   AsGenerate(order))
  {
    hide EnrichAct, GenerateAfterReads;
    var inner, outer, lift := R.EnrichMachine(me, order.page, None, hints), Machine(me, hints), AsGenerate(order);
    forall x: Attempt<Enrich> | !R.EnrichHalts()(x) ensures !Ends(lift(x)) {
      assert !R.EnrichEnds(x.at);
    }
    forall j: nat, db: Db, x: Attempt<Enrich> | !R.EnrichHalts()(x)
      ensures outer(j, db, lift(x)) == (inner(j, db, x).0, lift(inner(j, db, x).1))
    {
      assert !R.EnrichEnds(x.at);
      var m, s := hints(j).mishap, GenerateEnrich(order, x.at);
      assert lift(x) == s;
      var (now, next) := EnrichAct(db, me, order.page, None, hints(j), x.at);
      assert inner(j, db, x) == (Landed(db, now, m), Attempted(m, next));
      assert outer(j, db, s) == (Landed(db, now, m), Follow(m, GenerateAfterEnrich(order, next)));
    }
  }

  lemma ReadStatement(db: Db, me: Id, hint: Hint, order: Order)
    ensures Act(db, me, hint, GenerateRead(order)) ==
            (db, if order.pid !in db.rows || db.rows[order.pid].status !in {Selected, LetterDraft} then Done(false)
                 else if db.rows[order.pid].described then GenerateAfterReads(order, db.rows[order.pid])
                 else GenerateEnrich(order, Fetch(order.pid)))
  {
    hide GenerateAfterReads;
  }

  /** From the resume on, with the row as it was read. */
  method WriteLetter(me: Id, order: Order, vacancy: Row, hints: nat -> Hint, before: Log, i: nat, env: nat -> Db,
                     ghost n: nat)
      returns (ok: bool, log: Log)
    requires n >= 1
    ensures (log, Done(ok)) == Play(Machine(me, hints), Ends, before, i, GenerateAfterReads(order, vacancy), env, n)
  {
    hide Strip, Play, Machine, Ends, Put, Moved;
    var pid := order.pid;
    var resume := if vacancy.resume.Some? then vacancy.resume else order.newestResume;
    if resume == None || order.reply == None || !(1400 <= |Strip(order.reply.value)| <= 3500) {
      PlayedOut(me, hints, before, i, false, env, n);
      return false, before;
    }
    var text := Strip(order.reply.value);
    var selected := vacancy.status == Selected;
    var db, m := env(i), hints(i).mishap;
    if selected {
      ok := Allows(db, pid, {Selected}, None);
      if ok {
        db := Put(db, pid, Moved(db.rows[pid], LetterDraft).(resume := resume, draft := text, hash := None));
      }
    } else {
      ok := Allows(db, pid, {LetterDraft}, None);
      if ok {
        db := Put(db, pid, db.rows[pid].(resume := resume, draft := text, hash := None));
      }
    }
    Did(me, hints, before, i, GenerateWrite(pid, selected, resume.value, text), env, n, db, Done(ok));
    return ok && m.Fine?, Then(before, Landed(env(i), db, m));
  }

  method EnrichAndWrite(me: Id, order: Order, hints: nat -> Hint, before: Log, env: nat -> Db)
      returns (ok: bool, log: Log)
    requires Size(before) == 1
    requires order.page.PageShown? ==>
               R.IsFound(env(2), order.page.hh, hints(2).found) && R.IsFound(env(3), order.page.hh, hints(3).found)
    ensures (log, Done(ok)) ==
            Play(Machine(me, hints), Ends, before, 1, GenerateEnrich(order, Fetch(order.pid)), env, 6)
  {
    hide Play, Machine, Ends, GenerateAfterReads, HasRowOf, R.EnrichMachine, R.EnrichHalts, Embeds;
    var enriched;
    enriched, log := R.EnrichRow(me, order.pid, order.page, None, hints, before, 1, env);
    EnrichEmbeds(me, order, hints);
    assert AsGenerate(order)(Ran(Fetch(order.pid))) == GenerateEnrich(order, Fetch(order.pid));
    Embedded(R.EnrichMachine(me, order.page, None, hints), R.EnrichHalts(), Machine(me, hints), Ends, AsGenerate(order),
             before, 1, Ran(Fetch(order.pid)), env, 5, 6, log, enriched);
    var i := Size(log);
    if enriched.Stopped? || enriched.at.EnrichFailed? || enriched.at.archived {
      PlayedOut(me, hints, log, i, false, env, 7 - i);
      return false, log;
    }
    ok, log := WriteLetter(me, order, enriched.at.row, hints, log, i, env, 7 - i);
  }

  method GenerateDraft(me: Id, order: Order, hints: nat -> Hint, env: nat -> Db) returns (ok: bool, log: Log)
    requires order.page.PageShown? ==>
               R.IsFound(env(2), order.page.hh, hints(2).found) && R.IsFound(env(3), order.page.hh, hints(3).found)
    ensures (log, Done(ok)) == Play(Machine(me, hints), Ends, Nothing, 0, GenerateRead(order), env, 7)
  {
    hide Play, Machine, Ends, Act, GenerateAfterReads, HasRowOf;
    var db, m, pid := env(0), hints(0).mishap, order.pid;
    ReadStatement(db, me, hints(0), order);
    log := Then(Nothing, Landed(db, db, m));
    if pid !in db.rows || (db.rows[pid].status != Selected && db.rows[pid].status != LetterDraft) {
      Did(me, hints, Nothing, 0, GenerateRead(order), env, 7, db, Done(false));
      return false, log;
    }
    var vacancy := db.rows[pid];
    if vacancy.described {
      Did(me, hints, Nothing, 0, GenerateRead(order), env, 7, db, GenerateAfterReads(order, vacancy));
      if !m.Fine? {
        return false, log;
      }
      ok, log := WriteLetter(me, order, vacancy, hints, log, 1, env, 6);
      return;
    }
    Did(me, hints, Nothing, 0, GenerateRead(order), env, 7, db, GenerateEnrich(order, Fetch(pid)));
    if !m.Fine? {
      return false, log;
    }
    ok, log := EnrichAndWrite(me, order, hints, log, env);
  }
}
