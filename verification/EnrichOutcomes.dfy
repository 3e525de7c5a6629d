/** What becomes of a row when an enrichment is left alone with it: the page settles it. */
module EnrichOutcomes {
  import opened Options
  import opened Tables
  import opened Enrichment
  import opened Funnel
  import opened Interleaving

  function RowAt(pid: Id): Db -> Option<Row> { (db: Db) => if pid in db.rows then Some(db.rows[pid]) else None }

  predicate IsGone(page: Page) { page.PageGone? || (page.PageShown? && page.archived) }

  predicate IsDescribed(page: Page) { page.PageShown? && page.described }

  /** The row after an enrichment: archived if HH shows the vacancy gone, unless it was sent, and with the description
      if there is one. */
  function EnrichedRow(page: Page, row: Row): Row
  {
    var now := if IsGone(page) && row.status != Status.Sent then row.(status := Archived, token := None) else row;
    if IsDescribed(page) then now.(described := true) else now
  }

  /** How the enrichment ends. */
  function EnrichEnd(page: Page, row: Row): Enrich
  {
    if page.PageGone? || IsDescribed(page)
    then Enriched(EnrichedRow(page, row), EnrichedRow(page, row).status == Archived)
    else EnrichFailed(page.PageTransient?)
  }

  predicate UnderWay(e: Enrich) { !e.Enriched? && !e.EnrichFailed? }

  /** The request runs an enrichment, statement for statement. */
  ghost predicate Runs(me: Id, page: Page, token: Option<Id>, kind: Enrich -> Proc)
  {
    forall db: Db, hint: Hint, e: Enrich | UnderWay(e) ::
      Statement(db, me, hint, kind(e)) ==
      (EnrichAct(db, me, page, token, hint, e).0, kind(EnrichAct(db, me, page, token, hint, e).1))
  }

  /** The caller may archive the row: in scoring only with the row's token. */
  predicate MayHold(row: Row, token: Option<Id>) { row.status == Scoring && token.Some? ==> row.token == token }

  lemma FetchOnRow(db: Db, me: Id, page: Page, token: Option<Id>, hint: Hint, pid: Id, row: Row)
    requires RowAt(pid)(db) == Some(row)
    ensures EnrichAct(db, me, page, token, hint, Fetch(pid)) ==
            (db, if page.PageTransient? || page.PageBroken? then EnrichFailed(page.PageTransient?)
                 else if IsGone(page) && row.status != Status.Sent then
                   (if page.PageGone? then ArchiveGone(pid, row.status) else ArchiveShown(pid, row.status, row.resume))
                 else if page.PageGone? then Reread(pid)
                 else if page.described then Persisting(pid, Look(page.hh, row.resume, true)) else EnrichFailed(false))
  {
  }

  lemma ArchiveOnRow(db: Db, me: Id, page: Page, token: Option<Id>, hint: Hint, pid: Id, row: Row)
    requires DbOk(db) && RowAt(pid)(db) == Some(row) && row.status != Status.Sent && MayHold(row, token) && IsGone(page)
    ensures var e := if page.PageGone? then ArchiveGone(pid, row.status) else ArchiveShown(pid, row.status, row.resume);
            var (now, next) := EnrichAct(db, me, page, token, hint, e);
            && RowAt(pid)(now) == Some(row.(status := Archived, token := None))
            && next == if page.PageGone? then Reread(pid)
                       else if page.described then Persisting(pid, Look(page.hh, row.resume, true))
                       else EnrichFailed(false)
  {
    hide DbOk;
  }

  lemma LookOnRow(db: Db, me: Id, page: Page, token: Option<Id>, hint: Hint, pid: Id, hh: Id, resume: Option<Id>,
                  row: Row)
    requires RowAt(pid)(db) == Some(row) && row.hh == hh && hint.found == Some(pid)
    ensures EnrichAct(db, me, page, token, hint, Persisting(pid, Look(hh, resume, true))) ==
            (db, Persisting(pid, Refresh(pid, if row.resume == None then resume else None, true)))
  {
    hide HasRowOf;
  }

  lemma RefreshOnRow(db: Db, me: Id, page: Page, token: Option<Id>, hint: Hint, pid: Id, row: Row)
    requires RowAt(pid)(db) == Some(row)
    ensures var (now, next) := EnrichAct(db, me, page, token, hint, Persisting(pid, Refresh(pid, None, true)));
            RowAt(pid)(now) == Some(row.(described := true)) && next == Reread(pid)
  {
  }

  lemma RereadOnRow(db: Db, me: Id, page: Page, token: Option<Id>, hint: Hint, pid: Id, row: Row)
    requires RowAt(pid)(db) == Some(row)
    ensures EnrichAct(db, me, page, token, hint, Reread(pid)) == (db, Enriched(row, row.status == Archived))
  {
  }

  lemma EnrichTurn(c: Call, n: nat, i: nat, kind: Enrich -> Proc, page: Page, token: Option<Id>, pid: Id, e: Enrich)
      returns (db: Db)
    requires Runs(c.me, page, token, kind) && UnderWay(e)
    requires LeftAlone(c, RowAt(pid), n) && i < n && IsAt(c, i, kind(e))
    ensures RowAt(pid)(db) == RowAt(pid)(Reached(c, i).db) && DbOk(db)
    ensures var (now, next) := EnrichAct(db, c.me, page, token, c.hints(i), e);
            Reached(c, i + 1).db == now && IsAt(c, i + 1, kind(next))
  {
    hide LeftAlone, IsAt, Reached, DbOk, ProcOk, EnrichAct, RowAt, Statement;
    db := Turn(c, RowAt(pid), n, i, kind(e));
  }

  /** From the refresh on. */
  lemma RefreshOutcome(c: Call, n: nat, i: nat, kind: Enrich -> Proc, page: Page, token: Option<Id>, pid: Id, row: Row)
    requires Runs(c.me, page, token, kind) && page.PageShown? && page.hh == row.hh
    requires LeftAlone(c, RowAt(pid), n) && i + 3 <= n
    requires IsAt(c, i, kind(Persisting(pid, Look(page.hh, row.resume, true))))
    requires RowAt(pid)(Reached(c, i).db) == Some(row) && c.hints(i).found == Some(pid)
    ensures IsAt(c, i + 3, kind(Enriched(row.(described := true), row.status == Archived)))
    ensures RowAt(pid)(Reached(c, i + 3).db) == Some(row.(described := true))
  {
    hide LeftAlone, IsAt, Reached, DbOk, EnrichAct, RowAt, Runs;
    var db := EnrichTurn(c, n, i, kind, page, token, pid, Persisting(pid, Look(page.hh, row.resume, true)));
    LookOnRow(db, c.me, page, token, c.hints(i), pid, page.hh, row.resume, row);
    db := EnrichTurn(c, n, i + 1, kind, page, token, pid, Persisting(pid, Refresh(pid, None, true)));
    RefreshOnRow(db, c.me, page, token, c.hints(i + 1), pid, row);
    db := EnrichTurn(c, n, i + 2, kind, page, token, pid, Reread(pid));
    RereadOnRow(db, c.me, page, token, c.hints(i + 2), pid, row.(described := true));
  }

  /** An enrichment of a row that is left alone, by any kind of request. */
  lemma EnrichOutcome(c: Call, n: nat, i: nat, kind: Enrich -> Proc, page: Page, token: Option<Id>, pid: Id, row: Row)
      returns (k: nat)
    requires Runs(c.me, page, token, kind) && MayHold(row, token)
    requires LeftAlone(c, RowAt(pid), n) && i + 5 <= n && IsAt(c, i, kind(Fetch(pid)))
    requires RowAt(pid)(Reached(c, i).db) == Some(row)
    requires page.PageShown? ==> page.hh == row.hh && c.hints(i + 1).found == Some(pid) == c.hints(i + 2).found
    ensures i < k <= i + 5 && IsAt(c, k, kind(EnrichEnd(page, row)))
    ensures RowAt(pid)(Reached(c, k).db) == Some(EnrichedRow(page, row))
  {
    hide LeftAlone, IsAt, Reached, DbOk, EnrichAct, RowAt, Runs;
    var db := EnrichTurn(c, n, i, kind, page, token, pid, Fetch(pid));
    FetchOnRow(db, c.me, page, token, c.hints(i), pid, row);
    k := i + 1;
    var now := row;
    if IsGone(page) && row.status != Status.Sent {
      var e := if page.PageGone? then ArchiveGone(pid, row.status) else ArchiveShown(pid, row.status, row.resume);
      db := EnrichTurn(c, n, i + 1, kind, page, token, pid, e);
      ArchiveOnRow(db, c.me, page, token, c.hints(i + 1), pid, row);
      k := i + 2;
      now := row.(status := Archived, token := None);
    }
    if page.PageGone? {
      db := EnrichTurn(c, n, k, kind, page, token, pid, Reread(pid));
      RereadOnRow(db, c.me, page, token, c.hints(k), pid, now);
      k := k + 1;
    } else if IsDescribed(page) {
      RefreshOutcome(c, n, k, kind, page, token, pid, now);
      k := k + 3;
    }
  }
}
