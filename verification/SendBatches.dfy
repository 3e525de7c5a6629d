/** A batch is a fixed set of jobs with fixed letters; it only runs down, and what is completed stays so. */
module SendBatches {
  import opened Options
  import opened Tables
  import opened Enrichment
  import opened Funnel
  import opened SendSafety
  import SendCounts

  // ---------------------------------------------------------------- over a run

  lemma {:induction false} BatchStays(earlier: Run, later: Run, b: Id)
    requires Within(earlier, later) && b in State(earlier).db.batched
    ensures b in State(later).db.batched && State(later).db.batched[b] == State(earlier).db.batched[b]
    decreases later
  {
    hide Next, SysOk, Narrows, RowsStep, TokensFade;
    if earlier != later {
      BatchStays(earlier, later.before, b);
      RunIsOk(later.before);
      NextKeeps(State(later.before), later.event);
    }
  }

  /** Once its jobs are assigned, a batch never gains a queued or an unfinished job. */
  lemma {:induction false} BatchNeverGains(earlier: Run, later: Run, b: Id, p: Id)
    requires Within(earlier, later) && b in State(earlier).db.batched
    ensures Unfinished(State(later).db.jobs, p, b) ==> Unfinished(State(earlier).db.jobs, p, b)
    ensures InQueue(State(later).db.jobs, p, b) ==> InQueue(State(earlier).db.jobs, p, b)
    decreases later
  {
    hide Next, SysOk, Unfinished, InQueue, Grows, RowsStep, TokensFade;
    if earlier != later {
      BatchNeverGains(earlier, later.before, b, p);
      BatchStays(earlier, later.before, b);
      RunIsOk(later.before);
      NextKeeps(State(later.before), later.event);
    }
  }

  /** A batch that was completed has no unfinished job, then or later. */
  lemma CompletedStaysDone(earlier: Run, later: Run, b: Id)
    requires Within(earlier, later)
    requires b in State(earlier).db.batches && State(earlier).db.batches[b].status == Completed
    ensures Drained(State(earlier).db.jobs, b) && Drained(State(later).db.jobs, b)
  {
    hide Next, RowsOk, JobsOk, LettersOk, ClaimsOk, SubmissionsOk, BatchedOk, ProcsOk, OthersUnused, Unfinished;
    RunIsOk(earlier);
    var db := State(earlier).db;
    assert BatchOk(b, db.batches[b], db.batched, db.completed);
    forall p | p in State(later).db.jobs ensures !Unfinished(State(later).db.jobs, p, b) {
      BatchNeverGains(earlier, later, b, p);
      if p !in db.jobs {
        NotAJob(db.jobs, p, b);
      }
    }
  }

  lemma NotAJob(jobs: map<Id, Job>, p: Id, b: Id)
    requires p !in jobs
    ensures !Unfinished(jobs, p, b)
  {
  }

  /** A batch pins the letter: as long as a job stays in the batch, whatever happened in between, its text,
      hash, resume and vacancy are the same. */
  lemma BatchPinsLetter(earlier: Run, later: Run, p: Id, b: Id)
    requires Within(earlier, later)
    requires p in State(earlier).db.jobs && State(earlier).db.jobs[p].batch == Some(b)
    requires p in State(later).db.jobs && State(later).db.jobs[p].batch == Some(b)
    ensures State(later).db.jobs[p].letter == State(earlier).db.jobs[p].letter
  {
    hide Next, RowsOk, LettersOk, ClaimsOk, SubmissionsOk, BatchedOk, BatchesOk, ProcsOk, OthersUnused, Unclaimed;
    var was, now := State(earlier).db, State(later).db;
    RunIsOk(earlier);
    RunIsOk(later);
    assert JobOk(p, was.jobs[p], was.queuings, was.batched, was.claims);
    assert JobOk(p, now.jobs[p], now.queuings, now.batched, now.claims);
    BatchStays(earlier, later, b);
    QueuingStays(earlier, later, was.jobs[p].origin);
  }

  lemma {:induction false} QueuingStays(earlier: Run, later: Run, q: Id)
    requires Within(earlier, later) && q in State(earlier).db.queuings
    ensures q in State(later).db.queuings && State(later).db.queuings[q] == State(earlier).db.queuings[q]
    decreases later
  {
    hide Next, SysOk, Narrows, RowsStep, TokensFade;
    if earlier != later {
      QueuingStays(earlier, later.before, q);
      RunIsOk(later.before);
      NextKeeps(State(later.before), later.event);
    }
  }

  // ---------------------------------------------------------------- how much is left to do

  function QueuedIn(jobs: map<Id, Job>, b: Id): set<Id> { set p | p in jobs && InQueue(jobs, p, b) }

  function SendingIn(jobs: map<Id, Job>, b: Id): set<Id>
  {
    set p | p in jobs && jobs[p].batch == Some(b) && jobs[p].status == JobStatus.Sending
  }

  function Left(jobs: map<Id, Job>, b: Id): nat { 2 * |QueuedIn(jobs, b)| + |SendingIn(jobs, b)| }

  /** The sum of the two sets can only go from queued to sending and from there out. */
  lemma LeftOf(q: set<Id>, s: set<Id>, q': set<Id>, s': set<Id>)
    requires q' <= q && s' <= s + (q - q')
    ensures 2 * |q'| + |s'| <= 2 * |q| + |s|
    ensures q' != q || s' < s ==> 2 * |q'| + |s'| < 2 * |q| + |s|
  {
    assert |q'| + |q - q'| == |q| by { assert q' + (q - q') == q; }
    SendCounts.Subset(s', s + (q - q'));
    assert |s + (q - q')| <= |s| + |q - q'|;
    if q' != q {
      var x :| x in q && x !in q';
      assert x in q - q';
    } else if s' < s {
      var x :| x in s && x !in s';
      SendCounts.Subset(s', s - {x});
    }
  }

  lemma NarrowingSets(was: map<Id, Job>, now: map<Id, Job>, batched: map<Id, map<Id, Id>>, b: Id)
    requires Narrows(was, now, batched) && b in batched
    ensures QueuedIn(now, b) <= QueuedIn(was, b)
    ensures SendingIn(now, b) <= SendingIn(was, b) + (QueuedIn(was, b) - QueuedIn(now, b))
  {
    forall p | p in QueuedIn(now, b) ensures p in QueuedIn(was, b) {
      assert InQueue(now, p, b);
    }
    forall p | p in SendingIn(now, b) ensures p in SendingIn(was, b) + (QueuedIn(was, b) - QueuedIn(now, b)) {
      assert Unfinished(now, p, b);
      assert Unfinished(was, p, b);
    }
  }

  lemma {:induction false} LeftNeverRises(earlier: Run, later: Run, b: Id)
    requires Within(earlier, later) && b in State(earlier).db.batched
    ensures Left(State(later).db.jobs, b) <= Left(State(earlier).db.jobs, b)
    decreases later
  {
    hide Next, SysOk, Narrows, QueuedIn, SendingIn, Grows, RowsStep, TokensFade;
    if earlier != later {
      LeftNeverRises(earlier, later.before, b);
      BatchStays(earlier, later.before, b);
      RunIsOk(later.before);
      NextKeeps(State(later.before), later.event);
      var was, now := State(later.before).db, State(later).db;
      NarrowingSets(was.jobs, now.jobs, was.batched, b);
      LeftOf(QueuedIn(was.jobs, b), SendingIn(was.jobs, b), QueuedIn(now.jobs, b), SendingIn(now.jobs, b));
    }
  }

  /** Each successful claim and each finish of a job that is being sent brings its batch closer to the end. */
  lemma LeftDrops(was: map<Id, Job>, p: Id, b: Id, status: JobStatus)
    requires Unfinished(was, p, b)
    requires if was[p].status == Queued then status == JobStatus.Sending else Finished(status)
    ensures Left(was[p := was[p].(status := status)], b) < Left(was, b)
  {
    var now := was[p := was[p].(status := status)];
    if was[p].status == Queued {
      assert QueuedIn(now, b) == QueuedIn(was, b) - {p};
      assert SendingIn(now, b) == SendingIn(was, b) + {p};
      assert p in QueuedIn(was, b);
    } else {
      assert QueuedIn(now, b) == QueuedIn(was, b);
      assert SendingIn(now, b) == SendingIn(was, b) - {p};
      assert p in SendingIn(was, b);
    }
  }

  predicate FinishesJob(db: Db, hint: Hint, p: Proc)
  {
    Lands(hint.mishap) && p.OfSender? && p.sender.FinishJob? && JobIs(db, p.sender.pid, JobStatus.Sending)
  }

  lemma ClaimMakesProgress(db: Db, me: Id, hint: Hint, p: Proc)
    requires ClaimsJob(db, hint, p)
    ensures Left(Act(db, me, hint, p).0.jobs, p.sender.batch) < Left(db.jobs, p.sender.batch)
  {
    hide Left;
    LeftDrops(db.jobs, p.sender.pid, p.sender.batch, JobStatus.Sending);
  }

  lemma FinishMakesProgress(db: Db, me: Id, hint: Hint, p: Proc)
    requires FinishesJob(db, hint, p) && ProcOk(db, me, p) && db.jobs[p.sender.pid].batch.Some?
    ensures var b := db.jobs[p.sender.pid].batch.value; Left(Act(db, me, hint, p).0.jobs, b) < Left(db.jobs, b)
  {
    hide Left;
    LeftDrops(db.jobs, p.sender.pid, db.jobs[p.sender.pid].batch.value, p.sender.end);
  }

  // ---------------------------------------------------------------- claims per batch

  function ClaimedIn(claims: map<Id, Claim>, b: Id): set<Id> { set c | c in claims && claims[c].batch == b }

  lemma ClaimedApart(db: Db, b: Id, c: Id)
    requires DbOk(db) && c in db.claims && db.claims[c].batch == b
    ensures InBatch(db.batched, b, db.claims[c].pid, db.claims[c].origin)
    ensures !InQueue(db.jobs, db.claims[c].pid, b)
  {
    hide RowsOk, LettersOk, SubmissionsOk, BatchesOk, BatchedOk;
    var p := db.claims[c].pid;
    assert ClaimOk(db.claims[c], db.queuings, db.batched);
    if p in db.jobs {
      assert JobOk(p, db.jobs[p], db.queuings, db.batched, db.claims);
    }
  }

  lemma ClaimsAndQueue(db: Db, b: Id)
    requires DbOk(db) && b in db.batched
    ensures |ClaimedIn(db.claims, b)| + |QueuedIn(db.jobs, b)| <= |db.batched[b]|
  {
    hide RowsOk, JobsOk, LettersOk, SubmissionsOk, BatchesOk, BatchedOk, ClaimOk;
    var claimed, queued := ClaimedIn(db.claims, b), QueuedIn(db.jobs, b);
    var rows := set c | c in claimed :: db.claims[c].pid;
    forall c | c in claimed ensures db.claims[c].pid in db.batched[b] && db.claims[c].pid !in queued {
      ClaimedApart(db, b, c);
    }
    forall c, d | c in claimed && d in claimed && c != d ensures db.claims[c].pid != db.claims[d].pid {
      ClaimedApart(db, b, c);
      ClaimedApart(db, b, d);
    }
    SendCounts.Injection(claimed, map c | c in claimed :: db.claims[c].pid, rows);
    forall p | p in queued ensures p in db.batched[b] {
      QueuedIsAssigned(db, p, b);
    }
    assert rows !! queued && |rows + queued| == |rows| + |queued|;
    SendCounts.Subset(rows + queued, db.batched[b].Keys);
  }

  lemma QueuedIsAssigned(db: Db, p: Id, b: Id)
    requires DbOk(db) && p in db.jobs && db.jobs[p].batch == Some(b)
    ensures InBatch(db.batched, b, p, db.jobs[p].origin)
  {
    hide RowsOk, LettersOk, ClaimsOk, SubmissionsOk, BatchesOk, BatchedOk, Unclaimed;
    assert JobOk(p, db.jobs[p], db.queuings, db.batched, db.claims);
  }

  /** Over every run, the claims made in a batch and the jobs still queued in it are together no more than
      the jobs assigned to it, which is its `total_jobs` once that is stored. */
  lemma ClaimsNeverExceedTotal(run: Run, b: Id)
    requires b in State(run).db.batched
    ensures var db := State(run).db;
            && |ClaimedIn(db.claims, b)| + |QueuedIn(db.jobs, b)| <= |db.batched[b]|
            && (b in db.batches && db.batches[b].total > 0 ==>
                  |ClaimedIn(db.claims, b)| + |QueuedIn(db.jobs, b)| <= db.batches[b].total)
  {
    hide Next, RowsOk, JobsOk, LettersOk, ClaimsOk, SubmissionsOk, BatchedOk, ProcsOk, OthersUnused;
    hide Drained, ClaimedIn, QueuedIn;
    RunIsOk(run);
    var db := State(run).db;
    ClaimsAndQueue(db, b);
    if b in db.batches {
      assert BatchOk(b, db.batches[b], db.batched, db.completed);
    }
  }

  // ---------------------------------------------------------------- progress

  /** The counts that `_progress` reports of a batch. */
  datatype Progress = Progress(total: nat, processed: nat, queued: nat, sending: nat,
                               sent: nat, failed: nat, manualRequired: nat, cancelled: nat)

  function JobsIn(jobs: map<Id, Job>, b: Id): set<Id> { set p | p in jobs && jobs[p].batch == Some(b) }

  function WithStatusIn(jobs: map<Id, Job>, b: Id, status: JobStatus): set<Id>
  {
    set p | p in jobs && jobs[p].batch == Some(b) && jobs[p].status == status
  }

  function ProgressOf(batch: Option<Batch>, jobs: map<Id, Job>, b: Id): Progress
  {
    var sent, failed := |WithStatusIn(jobs, b, JobStatus.Sent)|, |WithStatusIn(jobs, b, Failed)|;
    var manual, cancelled := |WithStatusIn(jobs, b, ManualRequired)|, |WithStatusIn(jobs, b, Cancelled)|;
    Progress(if batch.Some? && batch.value.total > 0 then batch.value.total else |JobsIn(jobs, b)|,
             sent + failed + manual + cancelled,
             |WithStatusIn(jobs, b, Queued)|, |WithStatusIn(jobs, b, JobStatus.Sending)|,
             sent, failed, manual, cancelled)
  }

  function WithStatusesIn(jobs: map<Id, Job>, b: Id, statuses: set<JobStatus>): set<Id>
  {
    set p | p in jobs && jobs[p].batch == Some(b) && jobs[p].status in statuses
  }

  lemma OneMoreStatus(jobs: map<Id, Job>, b: Id, statuses: set<JobStatus>, status: JobStatus)
    requires status !in statuses
    ensures |WithStatusesIn(jobs, b, statuses + {status})| == |WithStatusesIn(jobs, b,
                statuses)| + |WithStatusIn(jobs, b, status)|
  {
    var some, more := WithStatusesIn(jobs, b, statuses), WithStatusIn(jobs, b, status);
    assert WithStatusesIn(jobs, b, statuses + {status}) == some + more;
    assert some !! more;
  }

  lemma AllStatuses(jobs: map<Id, Job>, b: Id)
    ensures WithStatusesIn(jobs, b, {}) == {}
    ensures WithStatusesIn(jobs, b,
                {} + {Queued} + {JobStatus.Sending} + {JobStatus.Sent} + {Failed} + {ManualRequired} + {Cancelled})
            == JobsIn(jobs, b)
  {
    forall p | p in JobsIn(jobs, b)
      ensures jobs[p].status in
              {} + {Queued} + {JobStatus.Sending} + {JobStatus.Sent} + {Failed} + {ManualRequired} + {Cancelled}
    {
      match jobs[p].status {
        case Queued =>
        case Sending =>
        case Sent =>
        case Failed =>
        case ManualRequired =>
        case Cancelled =>
      }
    }
  }

  lemma ProgressAddsUp(batch: Option<Batch>, jobs: map<Id, Job>, b: Id)
    ensures var r := ProgressOf(batch, jobs, b); r.queued + r.sending + r.processed == |JobsIn(jobs, b)|
  {
    hide WithStatusIn, WithStatusesIn, JobsIn;
    AllStatuses(jobs, b);
    OneMoreStatus(jobs, b, {}, Queued);
    OneMoreStatus(jobs, b, {} + {Queued}, JobStatus.Sending);
    OneMoreStatus(jobs, b, {} + {Queued} + {JobStatus.Sending}, JobStatus.Sent);
    OneMoreStatus(jobs, b, {} + {Queued} + {JobStatus.Sending} + {JobStatus.Sent}, Failed);
    OneMoreStatus(jobs, b, {} + {Queued} + {JobStatus.Sending} + {JobStatus.Sent} + {Failed}, ManualRequired);
    OneMoreStatus(jobs, b, {} + {Queued} + {JobStatus.Sending} + {JobStatus.Sent} + {Failed} + {ManualRequired},
                  Cancelled);
  }

  /** The jobs of the batch whose row was queued anew since. */
  function Requeued(db: Db, b: Id): set<Id>
    requires b in db.batched
  {
    set p | p in db.batched[b] && p in db.jobs && db.jobs[p].origin != db.batched[b][p]
  }

  lemma StayOrRequeued(db: Db, b: Id)
    requires DbOk(db) && b in db.batched
    ensures |JobsIn(db.jobs, b)| + |Requeued(db, b)| == |db.batched[b]|
  {
    hide RowsOk, JobsOk, LettersOk, ClaimsOk, SubmissionsOk, BatchesOk;
    var stay, gone := JobsIn(db.jobs, b), Requeued(db, b);
    forall p | p in stay ensures p in db.batched[b] && p !in gone {
      QueuedIsAssigned(db, p, b);
    }
    forall p | p in db.batched[b] ensures p in stay + gone {
      assert BatchedJobOk(b, p, db.batched[b][p], db.jobs, db.queuings);
    }
    assert stay + gone == db.batched[b].Keys;
    assert |stay + gone| == |stay| + |gone|;
  }

  /** Over every run, queued, sending and processed jobs are the assigned jobs less those that were queued
      anew; in terms of the stored total, nothing is missing exactly as long as no job of the batch was. */
  lemma ProgressIsPartition(run: Run, b: Id)
    requires b in State(run).db.batched && b in State(run).db.batches && State(run).db.batches[b].total > 0
    ensures var db := State(run).db;
            var r := ProgressOf(Some(db.batches[b]), db.jobs, b);
            && r.total == db.batches[b].total
            && r.queued + r.sending + r.processed == r.total - |Requeued(db, b)|
            && (r.queued + r.sending + r.processed == r.total <==> Requeued(db, b) == {})
  {
    hide Next, RowsOk, JobsOk, LettersOk, ClaimsOk, SubmissionsOk, BatchedOk, ProcsOk, OthersUnused;
    hide Drained, Requeued, WithStatusIn, JobsIn;
    RunIsOk(run);
    var db := State(run).db;
    assert BatchOk(b, db.batches[b], db.batched, db.completed);
    ProgressAddsUp(Some(db.batches[b]), db.jobs, b);
    StayOrRequeued(db, b);
  }
}
