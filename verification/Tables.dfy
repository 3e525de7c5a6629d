/** The tables of one user's vacancy funnel, the statements that change them, and what every
    statement keeps. Each database statement of the services is one atomic step; the history
    fields of `Db` record what the steps did and are never read by them. */
module Tables {
  import opened Options

  /** Row, job, batch, token and request ids. A uuid that a request makes (claim token, batch id, row id)
      is the id of that request, hence fresh. */
  type Id = nat

  datatype Status =
    | Discovered | Scoring | Scored | Review | Selected | LetterDraft | Approved | QueuedToSend
    | Sending | Sent | RejectedByUser | RejectedByRule | Hold | Archived | ScoreError | SendError

  /** SHA-256 taken as injective: a hash is the text it was made of. */
  datatype Hash = Sha256(text: string)

  /** A `vacancy_pipeline` row. An empty draft stands for null, too. */
  datatype Row = Row(status: Status, hh: Id, resume: Option<Id>, described: bool, draft: string,
                     hash: Option<Hash>, token: Option<Id>, leaseFailures: nat)

  /** What `queue_approved` copies into the send job. */
  datatype Letter = Letter(resume: Id, hh: Id, hash: Hash, text: string)

  datatype JobStatus = Queued | Sending | Sent | Failed | ManualRequired | Cancelled

  /** An `application_send_queue` row. There is one per pipeline row (UNIQUE), so it goes by the pipeline
      id. `origin` is the queue request that wrote the letter. */
  datatype Job = Job(letter: Letter, batch: Option<Id>, status: JobStatus, origin: Id)

  datatype BatchStatus = Running | Paused | Completed

  datatype Batch = Batch(status: BatchStatus, total: nat)

  datatype Desired = WantPaused | WantRunning | WantStop

  datatype Queuing = Queuing(pid: Id, letter: Letter)

  datatype Claim = Claim(pid: Id, batch: Id, origin: Id)

  datatype Submission = Submission(pid: Id, letter: Letter)

  datatype Db = Db(
    rows: map<Id, Row>, jobs: map<Id, Job>, batches: map<Id, Batch>, desired: Desired, active: Option<Id>,
    /** History: the exact texts that were approved, by row. */
    approvals: set<(Id, string)>,
    /** History: what each queue request wrote, what each sender request claimed, which snapshot it
        accepted and what it submitted, which row each scorer claimed. */
    queuings: map<Id, Queuing>, claims: map<Id, Claim>, checks: map<Id, Row>, submissions: map<Id, Submission>,
    leases: map<Id, Id>,
    /** History: the jobs put into each batch, with the origin they had. */
    batched: map<Id, map<Id, Id>>,
    /** History: the batches that were ever completed. */
    completed: set<Id>)

  function Empty(): Db
  {
    Db(map[], map[], map[], WantPaused, None, {}, map[], map[], map[], map[], map[], map[], {})
  }

  /** The database after each statement of a request, the last one outside. */
  datatype Log = Nothing | Then(before: Log, db: Db)

  // ---------------------------------------------------------------- str.strip

  predicate IsSpace(c: char)
  {
    || '\t' <= c <= '\r' || '\U{1c}' <= c <= ' ' || c == '\U{85}' || c == '\U{a0}' || c == '\U{1680}'
    || '\U{2000}' <= c <= '\U{200a}' || c == '\U{2028}' || c == '\U{2029}' || c == '\U{202f}' || c == '\U{205f}'
    || c == '\U{3000}'
  }

  function StripLeft(s: string): string
  {
    if s != "" && IsSpace(s[0]) then StripLeft(s[1..]) else s
  }

  function StripRight(s: string): string
  {
    if s != "" && IsSpace(s[|s| - 1]) then StripRight(s[..|s| - 1]) else s
  }

  function Strip(s: string): string { StripRight(StripLeft(s)) }

  /** Nothing is left to strip at either end. */
  predicate Stripped(s: string) { s == "" || (!IsSpace(s[0]) && !IsSpace(s[|s| - 1])) }

  lemma {:induction false} StripRightKeepsFirst(s: string)
    ensures StripRight(s) != "" ==> s != "" && StripRight(s)[0] == s[0]
    ensures StripRight(s) == "" || !IsSpace(StripRight(s)[|StripRight(s)| - 1])
    decreases |s|
  {
    if s != "" && IsSpace(s[|s| - 1]) {
      StripRightKeepsFirst(s[..|s| - 1]);
    }
  }

  lemma {:induction false} StripLeftLeavesNoSpace(s: string)
    ensures StripLeft(s) == "" || !IsSpace(StripLeft(s)[0])
    decreases |s|
  {
    if s != "" && IsSpace(s[0]) {
      StripLeftLeavesNoSpace(s[1..]);
    }
  }

  /** A stripped text is stable under stripping. */
  lemma StripIsIdempotent(s: string)
    ensures Stripped(Strip(s)) && Strip(Strip(s)) == Strip(s)
  {
    StripLeftLeavesNoSpace(s);
    StripRightKeepsFirst(StripLeft(s));
  }

  predicate AllSpace(s: string) { forall c | c in s :: IsSpace(c) }

  lemma {:induction false} StripLeftCuts(s: string) returns (a: string)
    ensures s == a + StripLeft(s) && AllSpace(a)
    decreases |s|
  {
    a := "";
    if s != "" && IsSpace(s[0]) {
      var rest := StripLeftCuts(s[1..]);
      a := [s[0]] + rest;
      assert s == [s[0]] + s[1..];
    }
  }

  lemma {:induction false} StripRightCuts(s: string) returns (b: string)
    ensures s == StripRight(s) + b && AllSpace(b)
    decreases |s|
  {
    b := "";
    if s != "" && IsSpace(s[|s| - 1]) {
      var rest := StripRightCuts(s[..|s| - 1]);
      b := rest + [s[|s| - 1]];
      assert s == s[..|s| - 1] + [s[|s| - 1]];
    }
  }

  /** What is stripped is whitespace at the ends, and all of it. */
  lemma StripCutsTheEnds(s: string) returns (a: string, b: string)
    ensures s == a + Strip(s) + b && AllSpace(a) && AllSpace(b) && Stripped(Strip(s))
  {
    a := StripLeftCuts(s);
    b := StripRightCuts(StripLeft(s));
    StripIsIdempotent(s);
    assert a + (Strip(s) + b) == a + Strip(s) + b;
  }

  /** The whitespace of `str.isspace`, by code point. */
  lemma SpacesAreThese(c: char)
    ensures IsSpace(c) <==>
            var n := c as int;
            || 9 <= n <= 13 || 28 <= n <= 32 || n == 133 || n == 160 || n == 5760 || 8192 <= n <= 8202 || n == 8232
            || n == 8233 || n == 8239 || n == 8287 || n == 12288
  {
  }

  // ---------------------------------------------------------------- guarded updates

  /** The guard of `transition`: the row is there, in one of the statuses, and carries the expected token. */
  predicate Allows(db: Db, pid: Id, from: set<Status>, token: Option<Id>)
  {
    pid in db.rows && db.rows[pid].status in from && (token.Some? ==> db.rows[pid].token == token)
  }

  /** What `transition` writes by itself: the status, and no token outside `scoring`. */
  function Moved(row: Row, status: Status): Row
  {
    row.(status := status, token := if status == Scoring then row.token else None)
  }

  function Put(db: Db, pid: Id, row: Row): Db { db.(rows := db.rows[pid := row]) }

  /** `transition` without further changes; the flag is its result. */
  function Transition(db: Db, pid: Id, from: set<Status>, status: Status, token: Option<Id>): (Db, bool)
  {
    if Allows(db, pid, from, token) then (Put(db, pid, Moved(db.rows[pid], status)), true) else (db, false)
  }

  function SetJob(db: Db, pid: Id, status: JobStatus): Db
    requires pid in db.jobs
  {
    db.(jobs := db.jobs[pid := db.jobs[pid].(status := status)])
  }

  predicate JobIs(db: Db, pid: Id, status: JobStatus) { pid in db.jobs && db.jobs[pid].status == status }

  function Enqueue(db: Db, me: Id, pid: Id, letter: Letter): Db
  {
    db.(jobs := db.jobs[pid := Job(letter, None, Queued, me)], queuings := db.queuings[me := Queuing(pid, letter)])
  }

  function TakeJob(db: Db, me: Id, pid: Id, batch: Id): Db
    requires pid in db.jobs
  {
    SetJob(db, pid, JobStatus.Sending).(claims := db.claims[me := Claim(pid, batch, db.jobs[pid].origin)])
  }

  predicate Unbatched(job: Job) { job.status == Queued && job.batch == None }

  function AssignJobs(db: Db, me: Id, ids: set<Id>): Db
  {
    db.(jobs := map p | p in db.jobs ::
                  if p in ids && Unbatched(db.jobs[p]) then db.jobs[p].(batch := Some(me)) else db.jobs[p],
        batched := db.batched[me := map p | p in db.jobs && p in ids && Unbatched(db.jobs[p]) :: db.jobs[p].origin])
  }

  function WithStatus(batches: map<Id, Batch>, b: Id, status: BatchStatus): map<Id, Batch>
  {
    if b in batches then batches[b := batches[b].(status := status)] else batches
  }

  function SetBatch(db: Db, b: Id, status: BatchStatus): Db { db.(batches := WithStatus(db.batches, b, status)) }

  // ---------------------------------------------------------------- the invariant

  /** The token is there exactly in `scoring`, and is the one its scorer made for this row; a hash is the
      hash of a text approved on this row. */
  ghost predicate RowOk(p: Id, row: Row, leases: map<Id, Id>, approvals: set<(Id, string)>)
  {
    && (row.token.Some? <==> row.status == Scoring)
    && (row.token.Some? ==> row.token.value in leases && leases[row.token.value] == p)
    && (row.hash.Some? ==> (p, row.hash.value.text) in approvals)
  }

  ghost predicate RowsOk(rows: map<Id, Row>, leases: map<Id, Id>, approvals: set<(Id, string)>)
  {
    forall p | p in rows :: RowOk(p, rows[p], leases, approvals)
  }

  ghost predicate InBatch(batched: map<Id, map<Id, Id>>, b: Id, p: Id, origin: Id)
  {
    b in batched && p in batched[b] && batched[b][p] == origin
  }

  ghost predicate Unclaimed(claims: map<Id, Claim>, origin: Id)
  {
    forall c | c in claims :: claims[c].origin != origin
  }

  /** A job is what its queue request wrote; its batch pins the origin; a queued job was never claimed. */
  ghost predicate JobOk(p: Id, job: Job, queuings: map<Id, Queuing>, batched: map<Id, map<Id, Id>>,
                        claims: map<Id, Claim>)
  {
    && job.origin in queuings && queuings[job.origin] == Queuing(p, job.letter)
    && (job.batch.Some? ==> InBatch(batched, job.batch.value, p, job.origin))
    && (job.status == Queued ==> Unclaimed(claims, job.origin))
  }

  ghost predicate JobsOk(jobs: map<Id, Job>, queuings: map<Id, Queuing>, batched: map<Id, map<Id, Id>>,
                   claims: map<Id, Claim>)
  {
    forall p | p in jobs :: JobOk(p, jobs[p], queuings, batched, claims)
  }

  ghost predicate BatchedJobOk(b: Id, p: Id, origin: Id, jobs: map<Id, Job>, queuings: map<Id, Queuing>)
  {
    origin in queuings && p in jobs && (jobs[p].origin == origin ==> jobs[p].batch == Some(b))
  }

  /** A job stays in its batch until it is queued anew. */
  ghost predicate BatchedOk(batched: map<Id, map<Id, Id>>, jobs: map<Id, Job>, queuings: map<Id, Queuing>)
  {
    forall b, p | b in batched && p in batched[b] :: BatchedJobOk(b, p, batched[b][p], jobs, queuings)
  }

  /** A queued letter is a nonempty stripped text with its own hash, approved on its row. */
  ghost predicate LetterOk(q: Queuing, approvals: set<(Id, string)>)
  {
    && q.letter.text != "" && Strip(q.letter.text) == q.letter.text && q.letter.hash == Sha256(q.letter.text)
    && (q.pid, q.letter.text) in approvals
  }

  ghost predicate LettersOk(queuings: map<Id, Queuing>, approvals: set<(Id, string)>)
  {
    forall q | q in queuings :: LetterOk(queuings[q], approvals)
  }

  ghost predicate ClaimOk(c: Claim, queuings: map<Id, Queuing>, batched: map<Id, map<Id, Id>>)
  {
    c.origin in queuings && queuings[c.origin].pid == c.pid && InBatch(batched, c.batch, c.pid, c.origin)
  }

  /** Every claim uses up an origin of its own. */
  ghost predicate ClaimsOk(claims: map<Id, Claim>, queuings: map<Id, Queuing>, batched: map<Id, map<Id, Id>>)
  {
    && (forall c | c in claims :: ClaimOk(claims[c], queuings, batched))
    && (forall c, d | c in claims && d in claims && c != d :: claims[c].origin != claims[d].origin)
  }

  /** What `_snapshot_matches` asks of the pipeline row; the rest of it is about the job alone. */
  predicate SnapshotMatches(letter: Letter, row: Row)
  {
    && letter.text != "" && letter.hash == Sha256(letter.text)
    && row.status == QueuedToSend && row.resume == Some(letter.resume) && row.hh == letter.hh
    && row.hash == Some(letter.hash) && Strip(row.draft) == Strip(letter.text)
  }

  ghost predicate SubmissionOk(r: Id, s: Submission, claims: map<Id, Claim>, checks: map<Id, Row>,
                         queuings: map<Id, Queuing>)
  {
    && r in claims && claims[r].pid == s.pid
    && claims[r].origin in queuings && queuings[claims[r].origin] == Queuing(s.pid, s.letter)
    && r in checks && SnapshotMatches(s.letter, checks[r])
  }

  ghost predicate SubmissionsOk(submissions: map<Id, Submission>, claims: map<Id, Claim>, checks: map<Id, Row>,
                          queuings: map<Id, Queuing>)
  {
    forall r | r in submissions :: SubmissionOk(r, submissions[r], claims, checks, queuings)
  }

  predicate InQueue(jobs: map<Id, Job>, p: Id, b: Id)
  {
    p in jobs && jobs[p].batch == Some(b) && jobs[p].status == Queued
  }

  /** Queued or being sent as part of the batch. */
  predicate Unfinished(jobs: map<Id, Job>, p: Id, b: Id)
  {
    p in jobs && jobs[p].batch == Some(b) && jobs[p].status in {Queued, JobStatus.Sending}
  }

  predicate Drained(jobs: map<Id, Job>, b: Id) { forall p | p in jobs :: !Unfinished(jobs, p, b) }

  ghost predicate BatchOk(b: Id, batch: Batch, batched: map<Id, map<Id, Id>>, completed: set<Id>)
  {
    && (batch.total > 0 ==> b in batched && batch.total == |batched[b]|)
    && (batch.status == Completed ==> b in completed)
  }

  ghost predicate AllBatchesOk(batches: map<Id, Batch>, batched: map<Id, map<Id, Id>>, completed: set<Id>)
  {
    forall b | b in batches :: BatchOk(b, batches[b], batched, completed)
  }

  /** A stored total is the number of jobs assigned; a completed batch has no unfinished job. */
  ghost predicate BatchesOk(db: Db)
  {
    && AllBatchesOk(db.batches, db.batched, db.completed)
    && (db.active.Some? ==> db.active.value in db.batched)
    && (forall b | b in db.completed :: b in db.batched && Drained(db.jobs, b))
  }

  ghost predicate DbOk(db: Db)
  {
    && RowsOk(db.rows, db.leases, db.approvals)
    && JobsOk(db.jobs, db.queuings, db.batched, db.claims)
    && BatchedOk(db.batched, db.jobs, db.queuings)
    && LettersOk(db.queuings, db.approvals)
    && ClaimsOk(db.claims, db.queuings, db.batched)
    && SubmissionsOk(db.submissions, db.claims, db.checks, db.queuings)
    && BatchesOk(db)
  }

  // ---------------------------------------------------------------- what a step of request `me` may change

  /** Only the entry of `me` is new; nothing is rewritten. */
  ghost predicate Grows<T>(was: map<Id, T>, now: map<Id, T>, me: Id)
  {
    && (forall k | k in was :: k in now && now[k] == was[k])
    && (forall k | k in now :: k in was || k == me)
  }

  /** The queued and the unfinished jobs of an assigned batch never gain a member. */
  ghost predicate Narrows(was: map<Id, Job>, now: map<Id, Job>, batched: map<Id, map<Id, Id>>)
  {
    && (forall p, b | b in batched && Unfinished(now, p, b) :: Unfinished(was, p, b))
    && (forall p, b | b in batched && InQueue(now, p, b) :: InQueue(was, p, b))
  }

  predicate Carries(rows: map<Id, Row>, p: Id, token: Id) { p in rows && rows[p].token == Some(token) }

  /** A token that was given out never comes back to a row that does not carry it. */
  ghost predicate TokensFade(was: map<Id, Row>, now: map<Id, Row>, leases: map<Id, Id>)
  {
    forall p, t | t in leases && Carries(now, p, t) :: Carries(was, p, t)
  }

  /** What one step may do to a row, whoever takes it: `sent` is final, the HH id is fixed, and the draft and
      the approved hash change only on the way into letter_draft, or the hash with the approval. */
  ghost predicate RowStep(was: Row, now: Row)
  {
    && now.hh == was.hh
    && (was.status == Status.Sent ==> now.status == Status.Sent)
    && (now.draft != was.draft || now.hash != was.hash ==>
          && was.status in {Selected, LetterDraft, Approved}
          && (|| now.status == LetterDraft
              || (now.status == Approved && was.status == LetterDraft && now.draft == was.draft)))
  }

  ghost predicate RowsStep(was: map<Id, Row>, now: map<Id, Row>)
  {
    forall p | p in was :: p in now && RowStep(was[p], now[p])
  }

  ghost predicate Extends(was: Db, now: Db, me: Id)
  {
    && RowsStep(was.rows, now.rows)
    && was.approvals <= now.approvals
    && Grows(was.queuings, now.queuings, me)
    && Grows(was.claims, now.claims, me)
    && Grows(was.checks, now.checks, me)
    && Grows(was.submissions, now.submissions, me)
    && Grows(was.leases, now.leases, me)
    && Grows(was.batched, now.batched, me)
    && was.completed <= now.completed
    && Narrows(was.jobs, now.jobs, was.batched)
    && TokensFade(was.rows, now.rows, was.leases)
  }

  /** What every step of a request keeps. */
  ghost predicate Kept(was: Db, now: Db, me: Id) { DbOk(now) && Extends(was, now, me) }

  /** The history of the send protocol stays as it is. */
  ghost predicate Quiet(was: Db, now: Db)
  {
    && now.approvals == was.approvals && now.queuings == was.queuings && now.claims == was.claims
    && now.checks == was.checks && now.submissions == was.submissions
  }

  /** The request has left no trace yet. */
  ghost predicate Unused(db: Db, me: Id)
  {
    && me !in db.queuings && me !in db.claims && me !in db.checks && me !in db.submissions && me !in db.leases
    && me !in db.batched
  }

  lemma UnusedStays(was: Db, now: Db, k: Id, me: Id)
    requires Extends(was, now, k) && Unused(was, me) && me != k
    ensures Unused(now, me)
  {
  }

  // ---------------------------------------------------------------- the statements keep the invariant

  lemma NothingChanges(db: Db, me: Id)
    requires DbOk(db)
    ensures Kept(db, db, me) && Quiet(db, db)
  {
  }

  lemma PutKeeps(db: Db, me: Id, pid: Id, row: Row)
    requires DbOk(db)
    requires RowOk(pid, row, db.leases, db.approvals)
    requires pid in db.rows ==> RowStep(db.rows[pid], row)
    requires row.token.Some? ==> pid in db.rows && db.rows[pid].token == row.token
    ensures Kept(db, Put(db, pid, row), me) && Quiet(db, Put(db, pid, row))
  {
    hide JobsOk, BatchedOk, LettersOk, ClaimsOk, SubmissionsOk, Narrows, Grows, BatchesOk;
    GrowsRefl(db, me);
    assert BatchesOk(Put(db, pid, row)) by { FrameBatches(db, Put(db, pid, row)); }
  }

  lemma FrameBatches(was: Db, now: Db)
    requires BatchesOk(was)
    requires was.batches == now.batches && was.batched == now.batched && was.completed == now.completed
    requires was.active == now.active && was.jobs == now.jobs
    ensures BatchesOk(now)
  {
  }

  lemma GrowsRefl(db: Db, me: Id)
    ensures Grows(db.queuings, db.queuings, me) && Grows(db.claims, db.claims, me) && Grows(db.checks, db.checks, me)
    ensures Grows(db.submissions, db.submissions, me) && Grows(db.leases, db.leases, me)
    ensures Grows(db.batched, db.batched, me) && Narrows(db.jobs, db.jobs, db.batched)
    ensures TokensFade(db.rows, db.rows, db.leases) && RowsStep(db.rows, db.rows)
  {
  }

  lemma GrowsAt<T>(was: map<Id, T>, me: Id, t: T)
    requires me !in was
    ensures Grows(was, was[me := t], me)
  {
  }

  // The history of approvals only grows, so what rests on it stays.
  lemma MoreApprovals(db: Db, approvals: set<(Id, string)>)
    requires RowsOk(db.rows, db.leases, db.approvals) && LettersOk(db.queuings, db.approvals)
    requires db.approvals <= approvals
    ensures RowsOk(db.rows, db.leases, approvals) && LettersOk(db.queuings, approvals)
  {
    forall p | p in db.rows ensures RowOk(p, db.rows[p], db.leases, approvals) {
      assert RowOk(p, db.rows[p], db.leases, db.approvals);
    }
    forall q | q in db.queuings ensures LetterOk(db.queuings[q], approvals) {
      assert LetterOk(db.queuings[q], db.approvals);
    }
  }

  /** The approval of `text`: the hash goes with the entry in the history. */
  function Approve(db: Db, pid: Id, text: string): Db
    requires pid in db.rows
  {
    Put(db, pid, Moved(db.rows[pid], Approved).(hash := Some(Sha256(text)))).(approvals := db.approvals + {(pid, text)})
  }

  lemma ApproveKeeps(db: Db, me: Id, pid: Id, text: string)
    requires DbOk(db) && pid in db.rows && db.rows[pid].status == LetterDraft
    ensures Kept(db, Approve(db, pid, text), me)
  {
    hide JobsOk, BatchedOk, ClaimsOk, SubmissionsOk, BatchesOk, Grows, Narrows;
    var more := db.(approvals := db.approvals + {(pid, text)});
    assert DbOk(more) by {
      MoreApprovals(db, more.approvals);
      FrameBatches(db, more);
    }
    GrowsRefl(db, me);
    PutKeeps(more, me, pid, Moved(db.rows[pid], Approved).(hash := Some(Sha256(text))));
  }

  predicate Finished(status: JobStatus) { status != Queued && status != JobStatus.Sending }

  // The batches only need to know which jobs are unfinished.
  lemma FewerUnfinished(was: Db, now: Db)
    requires BatchesOk(was) && Narrows(was.jobs, now.jobs, was.batched)
    requires was.batches == now.batches && was.batched == now.batched && was.completed == now.completed
    requires was.active == now.active
    ensures BatchesOk(now)
  {
    forall b | b in now.completed ensures b in now.batched && Drained(now.jobs, b) {
      assert Drained(was.jobs, b);
      forall p | p in now.jobs ensures !Unfinished(now.jobs, p, b) {
        assert Unfinished(now.jobs, p, b) ==> Unfinished(was.jobs, p, b);
      }
    }
  }

  lemma SetJobKeeps(db: Db, me: Id, pid: Id, status: JobStatus)
    requires DbOk(db) && pid in db.jobs && Finished(status)
    ensures Kept(db, SetJob(db, pid, status), me) && Quiet(db, SetJob(db, pid, status))
  {
    hide RowsOk, LettersOk, ClaimsOk, SubmissionsOk, Grows, BatchesOk, BatchedOk;
    GrowsRefl(db, me);
    var now := SetJob(db, pid, status);
    assert JobOk(pid, db.jobs[pid], db.queuings, db.batched, db.claims);
    assert Narrows(db.jobs, now.jobs, db.batched);
    FewerUnfinished(db, now);
    SameBatches(db, now.jobs);
  }

  // Jobs that keep origin and batch stay in their batches.
  lemma SameBatches(db: Db, jobs: map<Id, Job>)
    requires BatchedOk(db.batched, db.jobs, db.queuings)
    requires forall p | p in db.jobs ::
               p in jobs && jobs[p].origin == db.jobs[p].origin && jobs[p].batch == db.jobs[p].batch
    ensures BatchedOk(db.batched, jobs, db.queuings)
  {
    forall b, p | b in db.batched && p in db.batched[b]
      ensures BatchedJobOk(b, p, db.batched[b][p], jobs, db.queuings)
    {
      assert BatchedJobOk(b, p, db.batched[b][p], db.jobs, db.queuings);
    }
  }

  lemma MoreQueuings(db: Db, me: Id, q: Queuing)
    requires me !in db.queuings
    ensures JobsOk(db.jobs, db.queuings, db.batched, db.claims) ==>
              JobsOk(db.jobs, db.queuings[me := q], db.batched, db.claims)
    ensures ClaimsOk(db.claims, db.queuings, db.batched) ==> ClaimsOk(db.claims, db.queuings[me := q], db.batched)
    ensures SubmissionsOk(db.submissions, db.claims, db.checks, db.queuings) ==>
              SubmissionsOk(db.submissions, db.claims, db.checks, db.queuings[me := q])
  {
    hide InBatch, Unclaimed, SnapshotMatches;
  }

  lemma EnqueueKeeps(db: Db, me: Id, pid: Id, letter: Letter)
    requires DbOk(db) && me !in db.queuings && LetterOk(Queuing(pid, letter), db.approvals)
    ensures Kept(db, Enqueue(db, me, pid, letter), me)
  {
    hide RowsOk, ClaimsOk, SubmissionsOk, Grows, BatchesOk, LetterOk, JobsOk, BatchedOk, Narrows;
    GrowsRefl(db, me);
    GrowsAt(db.queuings, me, Queuing(pid, letter));
    MoreQueuings(db, me, Queuing(pid, letter));
    JobEnqueued(db, me, pid, letter);
    EnqueuedLeavesBatch(db, me, pid, letter);
    FewerUnfinished(db, db.(jobs := Enqueue(db, me, pid, letter).jobs));
    FrameBatches(db.(jobs := Enqueue(db, me, pid, letter).jobs), Enqueue(db, me, pid, letter));
  }

  lemma EnqueuedLeavesBatch(db: Db, me: Id, pid: Id, letter: Letter)
    requires BatchedOk(db.batched, db.jobs, db.queuings) && me !in db.queuings
    ensures var now := Enqueue(db, me, pid, letter); BatchedOk(db.batched, now.jobs, now.queuings)
  {
    var now := Enqueue(db, me, pid, letter);
    forall b, p | b in db.batched && p in db.batched[b]
      ensures BatchedJobOk(b, p, db.batched[b][p], now.jobs, now.queuings)
    {
      assert BatchedJobOk(b, p, db.batched[b][p], db.jobs, db.queuings);
    }
  }

  lemma JobEnqueued(db: Db, me: Id, pid: Id, letter: Letter)
    requires JobsOk(db.jobs, db.queuings, db.batched, db.claims) && ClaimsOk(db.claims, db.queuings, db.batched)
    requires me !in db.queuings
    ensures var now := Enqueue(db, me, pid, letter);
            JobsOk(now.jobs, now.queuings, db.batched, db.claims) && Narrows(db.jobs, now.jobs, db.batched)
  {
    hide Unclaimed, InBatch;
    NoClaimOn(db, me);
  }

  // A queue request that has not written yet has no claim on its letter.
  lemma NoClaimOn(db: Db, me: Id)
    requires ClaimsOk(db.claims, db.queuings, db.batched) && me !in db.queuings
    ensures Unclaimed(db.claims, me)
  {
    forall c | c in db.claims ensures db.claims[c].origin != me {
      assert ClaimOk(db.claims[c], db.queuings, db.batched);
    }
  }

  lemma TakeJobKeeps(db: Db, me: Id, pid: Id, b: Id)
    requires DbOk(db) && me !in db.claims && InQueue(db.jobs, pid, b)
    ensures Kept(db, TakeJob(db, me, pid, b), me)
  {
    hide RowsOk, LettersOk, ClaimsOk, SubmissionsOk, JobsOk, BatchedOk, Grows, BatchesOk;
    GrowsRefl(db, me);
    var now := TakeJob(db, me, pid, b);
    GrowsAt(db.claims, me, Claim(pid, b, db.jobs[pid].origin));
    ClaimTaken(db, me, pid, b);
    SameBatches(db, now.jobs);
    assert Narrows(db.jobs, now.jobs, db.batched);
    FewerUnfinished(db, now);
  }

  lemma ClaimTaken(db: Db, me: Id, pid: Id, b: Id)
    requires JobsOk(db.jobs, db.queuings, db.batched, db.claims) && ClaimsOk(db.claims, db.queuings, db.batched)
    requires SubmissionsOk(db.submissions, db.claims, db.checks, db.queuings)
    requires me !in db.claims && InQueue(db.jobs, pid, b)
    ensures var now := TakeJob(db, me, pid, b);
            && JobsOk(now.jobs, db.queuings, db.batched, now.claims) && ClaimsOk(now.claims, db.queuings, db.batched)
            && SubmissionsOk(db.submissions, now.claims, db.checks, db.queuings)
  {
    hide InBatch, SnapshotMatches;
    var now := TakeJob(db, me, pid, b);
    var origin := db.jobs[pid].origin;
    assert JobOk(pid, db.jobs[pid], db.queuings, db.batched, db.claims);
    forall p | p in now.jobs ensures JobOk(p, now.jobs[p], db.queuings, db.batched, now.claims) {
      assert JobOk(p, db.jobs[p], db.queuings, db.batched, db.claims);
      if p != pid {
        assert db.jobs[p].origin != origin;
      }
    }
  }

  lemma CheckKeeps(db: Db, me: Id, row: Row)
    requires DbOk(db) && me !in db.checks
    ensures Kept(db, db.(checks := db.checks[me := row]), me)
  {
    hide RowsOk, LettersOk, ClaimsOk, JobsOk, BatchedOk, Grows, BatchesOk, SnapshotMatches;
    GrowsRefl(db, me);
    GrowsAt(db.checks, me, row);
    FrameBatches(db, db.(checks := db.checks[me := row]));
  }

  lemma SubmitKeeps(db: Db, me: Id, s: Submission)
    requires DbOk(db) && me !in db.submissions && SubmissionOk(me, s, db.claims, db.checks, db.queuings)
    ensures Kept(db, db.(submissions := db.submissions[me := s]), me)
  {
    hide RowsOk, LettersOk, ClaimsOk, JobsOk, BatchedOk, Grows, BatchesOk, SubmissionOk;
    GrowsRefl(db, me);
    GrowsAt(db.submissions, me, s);
    FrameBatches(db, db.(submissions := db.submissions[me := s]));
  }

  /** The scorer's claim: the token is the id of the claiming request. */
  function Lease(db: Db, me: Id, pid: Id): Db
    requires pid in db.rows
  {
    Put(db, pid, db.rows[pid].(status := Scoring, token := Some(me))).(leases := db.leases[me := pid])
  }

  lemma LeaseKeeps(db: Db, me: Id, pid: Id)
    requires DbOk(db) && me !in db.leases && pid in db.rows && db.rows[pid].status == Discovered
    ensures Kept(db, Lease(db, me, pid), me) && Quiet(db, Lease(db, me, pid))
  {
    hide JobsOk, BatchedOk, LettersOk, ClaimsOk, SubmissionsOk, Grows, BatchesOk, Narrows;
    GrowsRefl(db, me);
    GrowsAt(db.leases, me, pid);
    FrameBatches(db, Lease(db, me, pid));
    assert RowOk(pid, db.rows[pid], db.leases, db.approvals);
    forall p | p in db.rows && p != pid ensures RowOk(p, db.rows[p], db.leases[me := pid], db.approvals) {
      assert RowOk(p, db.rows[p], db.leases, db.approvals);
    }
  }

  lemma AssignKeeps(db: Db, me: Id, ids: set<Id>)
    requires DbOk(db) && me !in db.batched && (me in db.batches ==> db.batches[me].total == 0)
    ensures Kept(db, AssignJobs(db, me, ids), me) && Quiet(db, AssignJobs(db, me, ids))
  {
    hide RowsOk, LettersOk, SubmissionsOk, Grows, Unclaimed, BatchesOk, JobsOk, BatchedOk, ClaimsOk;
    GrowsRefl(db, me);
    var now := AssignJobs(db, me, ids);
    GrowsAt(db.batched, me, now.batched[me]);
    assert Narrows(db.jobs, now.jobs, db.batched);
    AssignedJobs(db, me, ids);
    AssignedStay(db, me, ids);
    AssignedBatches(db, me, ids);
  }

  lemma AssignedJobs(db: Db, me: Id, ids: set<Id>)
    requires JobsOk(db.jobs, db.queuings, db.batched, db.claims) && ClaimsOk(db.claims, db.queuings, db.batched)
    requires me !in db.batched
    ensures var now := AssignJobs(db, me, ids);
            && JobsOk(now.jobs, db.queuings, now.batched, db.claims) && ClaimsOk(db.claims, db.queuings, now.batched)
  {
    hide Unclaimed;
    var now := AssignJobs(db, me, ids);
    forall p | p in now.jobs ensures JobOk(p, now.jobs[p], db.queuings, now.batched, db.claims) {
      assert JobOk(p, db.jobs[p], db.queuings, db.batched, db.claims);
    }
    forall c | c in db.claims ensures ClaimOk(db.claims[c], db.queuings, now.batched) {
      assert ClaimOk(db.claims[c], db.queuings, db.batched);
    }
  }

  lemma AssignedStay(db: Db, me: Id, ids: set<Id>)
    requires BatchedOk(db.batched, db.jobs, db.queuings) && me !in db.batched
    requires JobsOk(db.jobs, db.queuings, db.batched, db.claims)
    ensures var now := AssignJobs(db, me, ids); BatchedOk(now.batched, now.jobs, db.queuings)
  {
    hide Unclaimed, InBatch;
    var now := AssignJobs(db, me, ids);
    forall b, p | b in now.batched && p in now.batched[b]
      ensures BatchedJobOk(b, p, now.batched[b][p], now.jobs, db.queuings)
    {
      if b != me {
        assert BatchedJobOk(b, p, db.batched[b][p], db.jobs, db.queuings);
      } else {
        assert JobOk(p, db.jobs[p], db.queuings, db.batched, db.claims);
      }
    }
  }

  lemma AssignedBatches(db: Db, me: Id, ids: set<Id>)
    requires BatchesOk(db) && me !in db.batched && (me in db.batches ==> db.batches[me].total == 0)
    requires Narrows(db.jobs, AssignJobs(db, me, ids).jobs, db.batched)
    ensures BatchesOk(AssignJobs(db, me, ids))
  {
    hide Narrows;
    var now := AssignJobs(db, me, ids);
    FewerUnfinished(db, db.(jobs := now.jobs));
    forall b | b in now.batches ensures BatchOk(b, now.batches[b], now.batched, now.completed) {
      assert BatchOk(b, db.batches[b], db.batched, db.completed);
    }
  }

  // A write to the batches, the control row or the history of completed batches.
  lemma BatchesKeep(db: Db, me: Id, now: Db)
    requires DbOk(db)
    requires now == db.(batches := now.batches, desired := now.desired, active := now.active,
                 completed := now.completed)
    requires BatchesOk(now) && db.completed <= now.completed
    ensures Kept(db, now, me) && Quiet(db, now)
  {
    hide RowsOk, LettersOk, ClaimsOk, JobsOk, BatchedOk, SubmissionsOk, Grows, BatchesOk, Narrows;
    GrowsRefl(db, me);
  }

  lemma StatusSet(batches: map<Id, Batch>, b: Id, status: BatchStatus, batched: map<Id, map<Id, Id>>,
                  was: set<Id>, completed: set<Id>)
    requires AllBatchesOk(batches, batched, was) && was <= completed && (status == Completed ==> b in completed)
    ensures AllBatchesOk(WithStatus(batches, b, status), batched, completed)
  {
    forall c | c in batches ensures BatchOk(c, WithStatus(batches, b, status)[c], batched, completed) {
      assert BatchOk(c, batches[c], batched, was);
    }
  }

  lemma SetBatchKeeps(db: Db, me: Id, b: Id, status: BatchStatus)
    requires DbOk(db) && status != Completed
    ensures Kept(db, SetBatch(db, b, status), me) && Quiet(db, SetBatch(db, b, status))
  {
    hide RowsOk, LettersOk, ClaimsOk, JobsOk, BatchedOk, SubmissionsOk, Drained, AllBatchesOk, WithStatus, Extends;
    StatusSet(db.batches, b, status, db.batched, db.completed, db.completed);
    BatchesKeep(db, me, SetBatch(db, b, status));
  }

  /** The two statements that complete a batch; the history keeps it. */
  function Complete(db: Db, b: Id): Db { SetBatch(db, b, Completed).(completed := db.completed + {b}) }

  lemma CompleteKeeps(db: Db, me: Id, b: Id)
    requires DbOk(db) && b in db.batched && Drained(db.jobs, b)
    ensures Kept(db, Complete(db, b), me) && Quiet(db, Complete(db, b))
  {
    hide RowsOk, LettersOk, ClaimsOk, JobsOk, BatchedOk, SubmissionsOk, Drained, AllBatchesOk, WithStatus, Extends;
    StatusSet(db.batches, b, Completed, db.batched, db.completed, db.completed + {b});
    BatchesKeep(db, me, Complete(db, b));
  }

  function SetControl(db: Db, desired: Desired, active: Option<Id>): Db { db.(desired := desired, active := active) }

  lemma SetControlKeeps(db: Db, me: Id, desired: Desired, active: Option<Id>)
    requires DbOk(db) && (active.Some? ==> active.value in db.batched)
    ensures Kept(db, SetControl(db, desired, active), me) && Quiet(db, SetControl(db, desired, active))
  {
    hide RowsOk, LettersOk, ClaimsOk, JobsOk, BatchedOk, SubmissionsOk, Drained;
    BatchesKeep(db, me, SetControl(db, desired, active));
  }

  lemma SetTotalKeeps(db: Db, me: Id, b: Id, batch: Batch)
    requires DbOk(db) && BatchOk(b, batch, db.batched, db.completed)
    ensures Kept(db, db.(batches := db.batches[b := batch]), me) && Quiet(db, db.(batches := db.batches[b := batch]))
  {
    hide RowsOk, LettersOk, ClaimsOk, JobsOk, BatchedOk, SubmissionsOk, Drained;
    BatchesKeep(db, me, db.(batches := db.batches[b := batch]));
  }

  lemma DropBatchKeeps(db: Db, me: Id, b: Id)
    requires DbOk(db)
    ensures Kept(db, db.(batches := db.batches - {b}), me) && Quiet(db, db.(batches := db.batches - {b}))
  {
    hide RowsOk, LettersOk, ClaimsOk, JobsOk, BatchedOk, SubmissionsOk, Drained;
    BatchesKeep(db, me, db.(batches := db.batches - {b}));
  }

  lemma TransitionKeeps(db: Db, me: Id, pid: Id, from: set<Status>, status: Status, token: Option<Id>)
    requires DbOk(db) && Status.Sent !in from && status != Scoring
    ensures var now := Transition(db, pid, from, status, token).0; Kept(db, now, me) && Quiet(db, now)
  {
    hide JobsOk, BatchedOk, LettersOk, ClaimsOk, SubmissionsOk, BatchesOk, Extends;
    if Allows(db, pid, from, token) {
      assert RowOk(pid, db.rows[pid], db.leases, db.approvals);
      PutKeeps(db, me, pid, Moved(db.rows[pid], status));
    } else {
      NothingChanges(db, me);
    }
  }

  // A hash that was read is the hash of a text approved on that row.
  ghost predicate ReadOk(pid: Id, row: Row, approvals: set<(Id, string)>)
  {
    row.hash.Some? ==> (pid, row.hash.value.text) in approvals
  }

  lemma RowRead(db: Db, pid: Id)
    requires DbOk(db) && pid in db.rows
    ensures ReadOk(pid, db.rows[pid], db.approvals)
  {
    assert RowOk(pid, db.rows[pid], db.leases, db.approvals);
  }
}
