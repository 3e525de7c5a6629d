/** What becomes of a row when a draft writer is left alone with it. */
module DraftOutcomes {
  import opened Options
  import opened Tables
  import opened Enrichment
  import opened Funnel
  import opened Interleaving
  import opened EnrichOutcomes
  import opened CoverLetters

  // ---------------------------------------------------------------- save_draft

  /** A draft may be edited until it is queued. */
  predicate MaySave(was: Pair, text: string)
  {
    && was.row.Some? && 0 < |Strip(text)| <= 6000
    && (|| was.row.value.status == LetterDraft
        || (was.row.value.status == Approved && (was.job.Some? ==> was.job.value.status == Cancelled)))
  }

  lemma SaveReadsOnPair(db: Db, me: Id, hint: Hint, pid: Id, text: string, was: Pair)
    requires PairOf(pid)(db) == was
    ensures var approved := was.row.Some? && was.row.value.status == Approved;
            && Letters.Act(db, me, hint, SaveRead(pid, text)) ==
               (db, if approved then SaveReadJob(pid, text)
                    else if MaySave(was, text) then SaveWrite(pid, Strip(text), false) else Done(false))
            && (approved ==>
                  Letters.Act(db, me, hint, SaveReadJob(pid, text)) ==
                  (db, if MaySave(was, text) then SaveWrite(pid, Strip(text), true) else Done(false)))
  {
    hide Strip;
  }

  lemma SaveWriteOnPair(db: Db, me: Id, hint: Hint, pid: Id, draft: string, approved: bool, row: Row, job: Option<Job>)
    requires DbOk(db) && PairOf(pid)(db) == Pair(Some(row), job)
    requires row.status == if approved then Approved else LetterDraft
    ensures var (now, next) := Letters.Act(db, me, hint, SaveWrite(pid, draft, approved));
            && PairOf(pid)(now) == Pair(Some(row.(status := LetterDraft, draft := draft, hash := None)), job)
            && next == Done(true)
  {
    hide DbOk;
    NoToken(db, pid);
  }

  lemma MaySaveFrom(was: Pair, text: string)
    requires MaySave(was, text)
    ensures was.row.Some? && (was.row.value.status == LetterDraft || was.row.value.status == Approved)
  {
  }

  /** An edit is taken, stripped and without approval, exactly if it is not blank, not too long, and the letter is
      neither queued nor settled otherwise. */
  lemma SaveOutcome(c: Call, pid: Id, text: string, was: Pair) returns (k: nat, ok: bool)
    requires LeftAlone(c, PairOf(pid), 3) && IsAt(c, 0, OfLetters(SaveRead(pid, text)))
    requires PairOf(pid)(Reached(c, 0).db) == was
    ensures k <= 3 && IsAt(c, k, OfLetters(Done(ok))) && (ok <==> MaySave(was, text))
    ensures PairOf(pid)(Reached(c, k).db) ==
            if MaySave(was, text)
            then was.(row := Some(was.row.value.(status := LetterDraft, draft := Strip(text), hash := None))) else was
  {
    hide LeftAlone, IsAt, Reached, DbOk, ProcOk, Letters.Act, PairOf, MaySave;
    var approved := was.row.Some? && was.row.value.status == Approved;
    var db := Turn(c, PairOf(pid), 3, 0, OfLetters(SaveRead(pid, text)));
    SaveReadsOnPair(db, c.me, c.hints(0), pid, text, was);
    k, ok := 1, MaySave(was, text);
    if approved {
      db := Turn(c, PairOf(pid), 3, 1, OfLetters(SaveReadJob(pid, text)));
      SaveReadsOnPair(db, c.me, c.hints(1), pid, text, was);
      k := 2;
    }
    if ok {
      MaySaveFrom(was, text);
      db := Turn(c, PairOf(pid), 3, k, OfLetters(SaveWrite(pid, Strip(text), approved)));
      SaveWriteOnPair(db, c.me, c.hints(k), pid, Strip(text), approved, was.row.value, was.job);
      k := k + 1;
    }
  }

  // ---------------------------------------------------------------- generate_draft

  predicate IsWritable(row: Row) { row.status == Selected || row.status == LetterDraft }

  /** The row's own resume comes before the newest one. */
  function ResumeFor(order: Order, row: Row): Option<Id> { if row.resume.Some? then row.resume else order.newestResume }

  /** There is a resume, and the model has written a letter of the right length. */
  predicate CanWrite(order: Order, row: Row)
  {
    ResumeFor(order, row).Some? && order.reply.Some? && 1400 <= |Strip(order.reply.value)| <= 3500
  }

  function WrittenRow(order: Order, row: Row): Row
    requires CanWrite(order, row)
  {
    row.(status := LetterDraft, resume := ResumeFor(order, row), draft := Strip(order.reply.value), hash := None)
  }

  lemma GenerateReadOnRow(db: Db, me: Id, hint: Hint, order: Order, was: Option<Row>)
    requires RowAt(order.pid)(db) == was
    ensures Letters.Act(db, me, hint, GenerateRead(order)) ==
            (db, if was == None || !IsWritable(was.value) then Done(false)
                 else if was.value.described then GenerateAfterReads(order, was.value)
                 else GenerateEnrich(order, Fetch(order.pid)))
  {
    hide GenerateAfterReads;
  }

  /** The write that the call comes to. */
  function WriteOf(order: Order, row: Row): Letters.Step
    requires CanWrite(order, row)
  {
    GenerateWrite(order.pid, row.status == Selected, ResumeFor(order, row).value, Strip(order.reply.value))
  }

  lemma ComesToWrite(order: Order, row: Row)
    ensures GenerateAfterReads(order, row) == if CanWrite(order, row) then WriteOf(order, row) else Done(false)
  {
    hide Strip;
  }

  lemma GenerateWriteIs(db: Db, me: Id, hint: Hint, pid: Id, resume: Id, draft: string)
    requires pid in db.rows && IsWritable(db.rows[pid])
    ensures var row := db.rows[pid];
            var base := if row.status == Selected then Moved(row, LetterDraft) else row;
            Letters.Act(db, me, hint, GenerateWrite(pid, row.status == Selected, resume, draft)) ==
            (Put(db, pid, Redrafted(base, draft).(resume := Some(resume))), Done(true))
  {
    hide Put, Moved, Redrafted;
  }

  lemma PutOnRow(db: Db, pid: Id, row: Row)
    ensures RowAt(pid)(Put(db, pid, row)) == Some(row)
  {
  }

  lemma RedraftedRow(row: Row, resume: Id, draft: string)
    requires IsWritable(row) && row.token == None
    ensures var base := if row.status == Selected then Moved(row, LetterDraft) else row;
            Redrafted(base, draft).(resume := Some(resume)) ==
            row.(status := LetterDraft, resume := Some(resume), draft := draft, hash := None)
  {
  }

  lemma GenerateWriteOnRow(db: Db, me: Id, hint: Hint, pid: Id, resume: Id, draft: string, row: Row)
    requires DbOk(db) && RowAt(pid)(db) == Some(row) && IsWritable(row)
    ensures var (now, next) := Letters.Act(db, me, hint, GenerateWrite(pid, row.status == Selected, resume, draft));
            && RowAt(pid)(now) ==
               Some(row.(status := LetterDraft, resume := Some(resume), draft := draft, hash := None))
            && next == Done(true)
  {
    hide DbOk, Put, Moved, Redrafted, Letters.Act;
    NoToken(db, pid);
    GenerateWriteIs(db, me, hint, pid, resume, draft);
    RedraftedRow(row, resume, draft);
    PutOnRow(db, pid, row.(status := LetterDraft, resume := Some(resume), draft := draft, hash := None));
  }

  /** From the resume on. */
  lemma WriteOutcome(c: Call, n: nat, i: nat, order: Order, row: Row) returns (k: nat)
    requires LeftAlone(c, RowAt(order.pid), n) && i < n && IsAt(c, i, OfLetters(GenerateAfterReads(order, row)))
    requires RowAt(order.pid)(Reached(c, i).db) == Some(row) && IsWritable(row)
    ensures i <= k <= i + 1 && IsAt(c, k, OfLetters(Done(CanWrite(order, row))))
    ensures RowAt(order.pid)(Reached(c, k).db) == Some(if CanWrite(order, row) then WrittenRow(order, row) else row)
  {
    hide LeftAlone, IsAt, Reached, DbOk, ProcOk, Letters.Act, RowAt, GenerateAfterReads, Strip, IsWritable;
    k := i;
    ComesToWrite(order, row);
    if CanWrite(order, row) {
      var db := Turn(c, RowAt(order.pid), n, i, OfLetters(WriteOf(order, row)));
      GenerateWriteOnRow(db, c.me, c.hints(i), order.pid, ResumeFor(order, row).value, Strip(order.reply.value), row);
      k := i + 1;
    }
  }

  function Writer(order: Order): Enrich -> Proc { (e: Enrich) => OfLetters(GenerateAfterEnrich(order, e)) }

  lemma WriterRuns(me: Id, order: Order)
    ensures Runs(me, order.page, None, Writer(order))
  {
    hide EnrichAct, GenerateAfterReads;
    forall db: Db, hint: Hint, e: Enrich | UnderWay(e)
      ensures Statement(db, me, hint, Writer(order)(e)) ==
              (EnrichAct(db, me, order.page, None, hint, e).0,
               Writer(order)(EnrichAct(db, me, order.page, None, hint, e).1))
    {
      assert Writer(order)(e) == OfLetters(GenerateEnrich(order, e));
    }
  }

  lemma WriterContinues(order: Order, row: Row)
    requires IsWritable(row)
    ensures Writer(order)(Fetch(order.pid)) == OfLetters(GenerateEnrich(order, Fetch(order.pid)))
    ensures Writer(order)(EnrichEnd(order.page, row)) ==
            OfLetters(if IsDescribed(order.page) && !IsGone(order.page)
                      then GenerateAfterReads(order, EnrichedRow(order.page, row)) else Done(false))
    ensures !IsGone(order.page) ==> IsWritable(EnrichedRow(order.page, row))
  {
    hide GenerateAfterReads;
  }

  /** The row as the call has read it: enriched first, if it has no description. */
  function ReadRow(order: Order, row: Row): Row { if row.described then row else EnrichedRow(order.page, row) }

  /** The row is selected or in letter_draft, has a description or gets one, and can be written. */
  predicate MayGenerate(order: Order, row: Row)
  {
    && IsWritable(row) && (row.described || (IsDescribed(order.page) && !IsGone(order.page)))
    && CanWrite(order, ReadRow(order, row))
  }

  /** The model's letter is stored exactly if it may be; a row without a description is enriched in any case. */
  lemma GenerateOutcome(c: Call, order: Order, row: Row) returns (k: nat)
    requires LeftAlone(c, RowAt(order.pid), 7) && IsAt(c, 0, OfLetters(GenerateRead(order)))
    requires RowAt(order.pid)(Reached(c, 0).db) == Some(row)
    requires order.page.PageShown? ==>
               order.page.hh == row.hh && c.hints(2).found == Some(order.pid) == c.hints(3).found
    ensures k <= 7 && IsAt(c, k, OfLetters(Done(MayGenerate(order, row))))
    ensures RowAt(order.pid)(Reached(c, k).db) ==
            Some(if MayGenerate(order, row) then WrittenRow(order, ReadRow(order, row))
                 else if IsWritable(row) then ReadRow(order, row) else row)
  {
    hide LeftAlone, IsAt, Reached, DbOk, ProcOk, Letters.Act, RowAt, CanWrite, GenerateAfterReads;
    hide EnrichedRow, EnrichEnd, Runs, Writer, IsDescribed, IsGone, IsWritable, WrittenRow;
    var db := Turn(c, RowAt(order.pid), 7, 0, OfLetters(GenerateRead(order)));
    GenerateReadOnRow(db, c.me, c.hints(0), order, Some(row));
    k := 1;
    if IsWritable(row) {
      if row.described {
        k := WriteOutcome(c, 7, 1, order, row);
      } else {
        WriterRuns(c.me, order);
        WriterContinues(order, row);
        k := EnrichOutcome(c, 7, 1, Writer(order), order.page, None, order.pid, row);
        if IsDescribed(order.page) && !IsGone(order.page) {
          k := WriteOutcome(c, 7, k, order, EnrichedRow(order.page, row));
        }
      }
    }
  }
}
