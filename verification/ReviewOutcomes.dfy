/** What becomes of a row when a decision of the user, an enrichment or discovery is left alone with it. */
module ReviewOutcomes {
  import opened Options
  import opened Tables
  import opened Enrichment
  import opened Funnel
  import opened Interleaving
  import opened EnrichOutcomes
  import opened VacancyReview

  /** No decision touches a row that is approved, queued, sent or settled without the user. */
  predicate IsDecidable(action: Action, status: Status)
  {
    match status
    case Approved => false
    case QueuedToSend => false
    case Sending => false
    case Sent => false
    case RejectedByRule => false
    case Archived => false
    case SendError => false
    case Selected => action != Archive
    case LetterDraft => action != Archive
    case RejectedByUser => action != Archive
    case Hold => action != Archive
    case _ => true
  }

  /** Where the action sends the row. */
  function Destination(action: Action): Status
  {
    match action
    case Select => Selected
    case Reject => RejectedByUser
    case Defer => Hold
    case BackToReview => Status.Review
    case Archive => Archived
  }

  predicate MayDecide(action: Action, hasReason: bool, was: Option<Row>)
  {
    was.Some? && IsDecidable(action, was.value.status) && (action == Reject ==> hasReason)
  }

  lemma DecideOnRow(db: Db, me: Id, hint: Hint, pid: Id, action: Action, hasReason: bool, was: Option<Row>)
    requires RowAt(pid)(db) == was
    ensures Review.Act(db, me, hint, DecideRead(pid, action, hasReason)) ==
            (db, if MayDecide(action, hasReason, was) then DecideWrite(pid, was.value.status, Destination(action))
                 else Done(false))
  {
  }

  lemma DecideWriteOnRow(db: Db, me: Id, hint: Hint, pid: Id, status: Status, row: Row)
    requires RowAt(pid)(db) == Some(row) && status != Scoring
    ensures var (now, next) := Review.Act(db, me, hint, DecideWrite(pid, row.status, status));
            RowAt(pid)(now) == Some(row.(status := status, token := None)) && next == Done(true)
  {
  }

  /** A decision is carried out exactly if the row is open to it, a rejection only with a reason. */
  lemma DecideOutcome(c: Call, pid: Id, action: Action, hasReason: bool, was: Option<Row>) returns (k: nat)
    requires LeftAlone(c, RowAt(pid), 2) && IsAt(c, 0, OfReview(DecideRead(pid, action, hasReason)))
    requires RowAt(pid)(Reached(c, 0).db) == was
    ensures k <= 2 && IsAt(c, k, OfReview(Done(MayDecide(action, hasReason, was))))
    ensures RowAt(pid)(Reached(c, k).db) ==
            if MayDecide(action, hasReason, was)
            then Some(was.value.(status := Destination(action), token := None)) else was
  {
    hide LeftAlone, IsAt, Reached, DbOk, ProcOk, Review.Act, RowAt, IsDecidable;
    var db := Turn(c, RowAt(pid), 2, 0, OfReview(DecideRead(pid, action, hasReason)));
    DecideOnRow(db, c.me, c.hints(0), pid, action, hasReason, was);
    k := 1;
    if MayDecide(action, hasReason, was) {
      db := Turn(c, RowAt(pid), 2, 1, OfReview(DecideWrite(pid, was.value.status, Destination(action))));
      DecideWriteOnRow(db, c.me, c.hints(1), pid, Destination(action), was.value);
      k := 2;
    }
  }

  // ---------------------------------------------------------------- an enrichment asked for by the user

  function Enricher(page: Page): Enrich -> Proc
  {
    (e: Enrich) =>
      OfReview(if e.Enriched? then Done(true) else if e.EnrichFailed? then Done(false) else Enriching(page, e))
  }

  lemma EnricherRuns(me: Id, page: Page)
    ensures Runs(me, page, None, Enricher(page))
  {
    hide EnrichAct;
    forall db: Db, hint: Hint, e: Enrich | UnderWay(e)
      ensures Statement(db, me, hint, Enricher(page)(e)) ==
              (EnrichAct(db, me, page, None, hint, e).0, Enricher(page)(EnrichAct(db, me, page, None, hint, e).1))
    {
      assert Enricher(page)(e) == OfReview(Enriching(page, e));
    }
  }

  /** The enrichment succeeds if HH shows the vacancy gone or its description. */
  lemma UserEnrichOutcome(c: Call, page: Page, pid: Id, row: Row) returns (k: nat)
    requires LeftAlone(c, RowAt(pid), 5) && IsAt(c, 0, OfReview(Enriching(page, Fetch(pid))))
    requires RowAt(pid)(Reached(c, 0).db) == Some(row)
    requires page.PageShown? ==> page.hh == row.hh && c.hints(1).found == Some(pid) == c.hints(2).found
    ensures k <= 5 && IsAt(c, k, OfReview(Done(page.PageGone? || IsDescribed(page))))
    ensures RowAt(pid)(Reached(c, k).db) == Some(EnrichedRow(page, row))
  {
    hide LeftAlone, IsAt, Reached, RowAt, Runs, EnrichedRow, IsDescribed;
    EnricherRuns(c.me, page);
    k := EnrichOutcome(c, 5, 0, Enricher(page), page, None, pid, row);
  }

  // ---------------------------------------------------------------- a vacancy found by discovery

  lemma RefreshOnRow(db: Db, me: Id, hint: Hint, pid: Id, hh: Id, resume: Option<Id>, described: bool, row: Row)
    requires RowAt(pid)(db) == Some(row) && row.hh == hh
    ensures hint.found == Some(pid) ==>
              Review.Act(db, me, hint, Discovering(Look(hh, resume, described))) ==
              (db, Discovering(Refresh(pid, if row.resume == None then resume else None, described)))
    ensures var filled := if row.resume == None then resume else None;
            var (now, next) := Review.Act(db, me, hint, Discovering(Refresh(pid, filled, described)));
            && RowAt(pid)(now) == Some(row.(resume := if row.resume.Some? then row.resume else resume,
                                            described := row.described || described))
            && next == Done(true)
  {
    hide HasRowOf;
  }

  /** A vacancy that has a row keeps it, with the resume if it had none, and the description if there is one. */
  lemma RefreshOutcome(c: Call, pid: Id, hh: Id, resume: Option<Id>, described: bool, row: Row)
    requires LeftAlone(c, RowAt(pid), 2) && IsAt(c, 0, OfReview(Discovering(Look(hh, resume, described))))
    requires RowAt(pid)(Reached(c, 0).db) == Some(row) && row.hh == hh && c.hints(0).found == Some(pid)
    ensures IsAt(c, 2, OfReview(Done(true)))
    ensures RowAt(pid)(Reached(c, 2).db) ==
            Some(row.(resume := if row.resume.Some? then row.resume else resume,
                      described := row.described || described))
  {
    hide LeftAlone, IsAt, Reached, DbOk, ProcOk, Review.Act, RowAt;
    var db := Turn(c, RowAt(pid), 2, 0, OfReview(Discovering(Look(hh, resume, described))));
    RefreshOnRow(db, c.me, c.hints(0), pid, hh, resume, described, row);
    var filled := if row.resume == None then resume else None;
    db := Turn(c, RowAt(pid), 2, 1, OfReview(Discovering(Refresh(pid, filled, described))));
    RefreshOnRow(db, c.me, c.hints(1), pid, hh, resume, described, row);
  }

  /** Whether there is a row for the vacancy, and the row of that id. */
  function Place(hh: Id, id: Id): Db -> (bool, Option<Row>)
  {
    (db: Db) => (HasRowOf(db, hh), if id in db.rows then Some(db.rows[id]) else None)
  }

  lemma InsertOnPlace(db: Db, me: Id, hint: Hint, hh: Id, resume: Option<Id>, described: bool)
    requires Place(hh, me)(db) == (false, None)
    ensures Review.Act(db, me, hint, Discovering(Look(hh, resume, described))) ==
            (db, Discovering(Insert(hh, resume, described)))
    ensures var (now, next) := Review.Act(db, me, hint, Discovering(Insert(hh, resume, described)));
            && me in now.rows && now.rows[me] == Row(Discovered, hh, resume, described, "", None, None, 0)
            && next == Done(true)
  {
  }

  /** A vacancy without a row gets one, discovered and undecided. */
  lemma InsertOutcome(c: Call, hh: Id, resume: Option<Id>, described: bool)
    requires LeftAlone(c, Place(hh, c.me), 2) && IsAt(c, 0, OfReview(Discovering(Look(hh, resume, described))))
    requires Place(hh, c.me)(Reached(c, 0).db) == (false, None)
    ensures IsAt(c, 2, OfReview(Done(true)))
    ensures RowAt(c.me)(Reached(c, 2).db) == Some(Row(Discovered, hh, resume, described, "", None, None, 0))
  {
    hide LeftAlone, IsAt, Reached, DbOk, ProcOk, Review.Act, Place;
    var db := Turn(c, Place(hh, c.me), 2, 0, OfReview(Discovering(Look(hh, resume, described))));
    InsertOnPlace(db, c.me, c.hints(0), hh, resume, described);
    db := Turn(c, Place(hh, c.me), 2, 1, OfReview(Discovering(Insert(hh, resume, described))));
    InsertOnPlace(db, c.me, c.hints(1), hh, resume, described);
  }
}
