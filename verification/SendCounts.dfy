/** How often letters are queued, claimed and submitted, counted on the events of a run. */
module SendCounts {
  import opened Options
  import opened Tables
  import opened Enrichment
  import opened Funnel
  import opened SendSafety

  /** The last event is the next statement of a request. */
  predicate Stepping(run: Run) { run.After? && run.event.Move? && run.event.me in State(run.before).procs }

  /** Where that request stood. */
  function Was(run: Run): Proc
    requires Stepping(run)
  {
    State(run.before).procs[run.event.me]
  }

  /** The last event of the run is a write of `queue_approved` that queues the job of row `pid`. */
  predicate IsQueuing(run: Run, pid: Id)
  {
    Stepping(run) && QueuesJob(State(run.before).db, run.event.hint, Was(run)) && Was(run).queue.pid == pid
  }

  /** The last event of the run is a successful claim of the job of row `pid`. */
  predicate IsClaim(run: Run, pid: Id)
  {
    Stepping(run) && ClaimsJob(State(run.before).db, run.event.hint, Was(run)) && Was(run).sender.pid == pid
  }

  /** The last event of the run is a call of `submit_response` for row `pid`. */
  predicate IsSubmit(run: Run, pid: Id)
  {
    Stepping(run) && Submits(run.event.hint, Was(run)) && Was(run).sender.pid == pid
  }

  function QueuingCount(run: Run, pid: Id): nat
  {
    if run.Init? then 0 else QueuingCount(run.before, pid) + if IsQueuing(run, pid) then 1 else 0
  }

  function ClaimCount(run: Run, pid: Id): nat
  {
    if run.Init? then 0 else ClaimCount(run.before, pid) + if IsClaim(run, pid) then 1 else 0
  }

  function SubmitCount(run: Run, pid: Id): nat
  {
    if run.Init? then 0 else SubmitCount(run.before, pid) + if IsSubmit(run, pid) then 1 else 0
  }

  function QueuingsOf(queuings: map<Id, Queuing>, pid: Id): set<Id> { set q | q in queuings && queuings[q].pid == pid }

  function ClaimsOf(claims: map<Id, Claim>, pid: Id): set<Id> { set c | c in claims && claims[c].pid == pid }

  function SubmitsOf(submissions: map<Id, Submission>, pid: Id): set<Id>
  {
    set r | r in submissions && submissions[r].pid == pid
  }

  lemma QueuingAdded(queuings: map<Id, Queuing>, k: Id, q: Queuing, pid: Id)
    requires k !in queuings
    ensures QueuingsOf(queuings[k := q], pid) == QueuingsOf(queuings, pid) + (if q.pid == pid then {k} else {})
    ensures k !in QueuingsOf(queuings, pid)
  {
  }

  lemma ClaimAdded(claims: map<Id, Claim>, k: Id, c: Claim, pid: Id)
    requires k !in claims
    ensures ClaimsOf(claims[k := c], pid) == ClaimsOf(claims, pid) + (if c.pid == pid then {k} else {})
    ensures k !in ClaimsOf(claims, pid)
  {
  }

  lemma SubmissionAdded(submissions: map<Id, Submission>, k: Id, s: Submission, pid: Id)
    requires k !in submissions
    ensures SubmitsOf(submissions[k := s], pid) == SubmitsOf(submissions, pid) + (if s.pid == pid then {k} else {})
    ensures k !in SubmitsOf(submissions, pid)
  {
  }

  // A request that is about to write a history has not written it before.
  lemma NotYetWritten(db: Db, me: Id, p: Proc)
    requires ProcOk(db, me, p)
    ensures p.OfQueue? && p.queue.QueueWrite? ==> me !in db.queuings
    ensures p.OfSender? && p.sender.ClaimJob? ==> me !in db.claims
    ensures p.OfSender? && p.sender.Submit? ==> me !in db.submissions
  {
  }

  lemma ActAdds(db: Db, me: Id, hint: Hint, p: Proc, pid: Id)
    requires DbOk(db) && ProcOk(db, me, p)
    ensures var now := Act(db, me, hint, p).0;
            && |QueuingsOf(now.queuings, pid)| ==
               |QueuingsOf(db.queuings, pid)| + (if QueuesJob(db, hint, p) && p.queue.pid == pid then 1 else 0)
            && |ClaimsOf(now.claims, pid)| ==
               |ClaimsOf(db.claims, pid)| + (if ClaimsJob(db, hint, p) && p.sender.pid == pid then 1 else 0)
            && |SubmitsOf(now.submissions, pid)| ==
               |SubmitsOf(db.submissions, pid)| + (if Submits(hint, p) && p.sender.pid == pid then 1 else 0)
  {
    hide Act, DbOk, ProcOk, QueuingsOf, ClaimsOf, SubmitsOf;
    HistoryOfAct(db, me, hint, p);
    NotYetWritten(db, me, p);
    if QueuesJob(db, hint, p) {
      QueuingAdded(db.queuings, me, Queuing(p.queue.pid, p.queue.letter), pid);
    }
    if ClaimsJob(db, hint, p) {
      ClaimAdded(db.claims, me, Claim(p.sender.pid, p.sender.batch, db.jobs[p.sender.pid].origin), pid);
    }
    if Submits(hint, p) {
      SubmissionAdded(db.submissions, me, Submission(p.sender.pid, p.sender.letter), pid);
    }
  }

  lemma NoneYet(pid: Id)
    ensures QueuingsOf(map[], pid) == {} && ClaimsOf(map[], pid) == {} && SubmitsOf(map[], pid) == {}
  {
  }

  /** The counted events are the entries of the histories. */
  lemma {:induction false} CountsAreHistory(run: Run, pid: Id)
    ensures QueuingCount(run, pid) == |QueuingsOf(State(run).db.queuings, pid)|
    ensures ClaimCount(run, pid) == |ClaimsOf(State(run).db.claims, pid)|
    ensures SubmitCount(run, pid) == |SubmitsOf(State(run).db.submissions, pid)|
    decreases run
  {
    hide Act, DbOk, ProcOk, Unused, QueuingsOf, ClaimsOf, SubmitsOf, Entry;
    if run.After? {
      CountsAreHistory(run.before, pid);
      RunIsOk(run.before);
      var s, e := State(run.before), run.event;
      if e.Move? && e.me in s.procs {
        ActAdds(s.db, e.me, e.hint, s.procs[e.me], pid);
      }
    } else {
      assert QueuingsOf(map[], pid) == {} && ClaimsOf(map[], pid) == {} && SubmitsOf(map[], pid) == {} by {
        NoneYet(pid);
      }
    }
  }

  /** An injection into `b` shows that `a` is no larger. */
  lemma {:induction false} Injection(a: set<Id>, f: map<Id, Id>, b: set<Id>)
    requires forall x | x in a :: x in f && f[x] in b
    requires forall x, y | x in a && y in a && x != y :: f[x] != f[y]
    ensures |a| <= |b|
    decreases |a|
  {
    if a != {} {
      var x :| x in a;
      Injection(a - {x}, f, b - {f[x]});
    }
  }

  lemma Subset(a: set<Id>, b: set<Id>)
    requires a <= b
    ensures |a| <= |b|
  {
    Injection(a, map x | x in a :: x, b);
  }

  /** Each claim uses up a queuing of its own, and each submit its own claim. */
  lemma HistoriesAreBounded(db: Db, pid: Id)
    requires DbOk(db)
    ensures |SubmitsOf(db.submissions, pid)| <= |ClaimsOf(db.claims, pid)| <= |QueuingsOf(db.queuings, pid)|
  {
    hide RowsOk, JobsOk, BatchedOk, LettersOk, BatchesOk, SnapshotMatches, InBatch;
    var claims := ClaimsOf(db.claims, pid);
    forall r | r in SubmitsOf(db.submissions, pid) ensures r in claims {
      assert SubmissionOk(r, db.submissions[r], db.claims, db.checks, db.queuings);
    }
    Subset(SubmitsOf(db.submissions, pid), claims);
    forall c | c in claims ensures db.claims[c].origin in QueuingsOf(db.queuings, pid) {
      assert ClaimOk(db.claims[c], db.queuings, db.batched);
    }
    Injection(claims, map c | c in claims :: db.claims[c].origin, QueuingsOf(db.queuings, pid));
  }

  /** Over every run, a row is submitted no more often than its job was claimed, and claimed no more often
      than `queue_approved` queued it. */
  lemma SubmitsNeverExceedQueuings(run: Run, pid: Id)
    ensures SubmitCount(run, pid) <= ClaimCount(run, pid) <= QueuingCount(run, pid)
  {
    hide DbOk, QueuingsOf, ClaimsOf, SubmitsOf, Next, ProcsOk, OthersUnused;
    RunIsOk(run);
    CountsAreHistory(run, pid);
    HistoriesAreBounded(State(run).db, pid);
  }
}
