/** What becomes of the sender's control, its batches and its jobs when resume, pause, stop, or the ends of a sender's
    cycle are left alone with them. */
module ControlOutcomes {
  import opened Options
  import opened Tables
  import opened Enrichment
  import opened Funnel
  import opened Interleaving
  import opened BatchControl

  /** What the sender's control is about. */
  datatype Desk = Desk(jobs: map<Id, Job>, batches: map<Id, Batch>, desired: Desired, active: Option<Id>)

  function DeskOf(): Db -> Desk { (db: Db) => Desk(db.jobs, db.batches, db.desired, db.active) }

  /** The active batch can go on. */
  predicate IsOpen(d: Desk)
  {
    d.active.Some? && d.active.value in d.batches && d.batches[d.active.value].status != Completed
  }

  /** The jobs that are queued and in no batch. */
  function Waiting(jobs: map<Id, Job>): set<Id>
  {
    set p | p in jobs && jobs[p].status == Queued && jobs[p].batch == None
  }

  function SetStatus(batches: map<Id, Batch>, b: Id, status: BatchStatus): map<Id, Batch>
  {
    if b in batches then batches[b := batches[b].(status := status)] else batches
  }

  // ---------------------------------------------------------------- resume

  function Batched(jobs: map<Id, Job>, ids: set<Id>, b: Id): map<Id, Job>
  {
    map p | p in jobs :: if p in ids then jobs[p].(batch := Some(b)) else jobs[p]
  }

  /** After a resume the sender is to run: the open batch goes on, or a new one of exactly the waiting jobs. */
  function Resumed(d: Desk, me: Id): Desk
  {
    if IsOpen(d) then d.(batches := SetStatus(d.batches, d.active.value, Running), desired := WantRunning)
    else
      var batches := d.batches[me := Batch(Running, |Waiting(d.jobs)|)];
      Desk(Batched(d.jobs, Waiting(d.jobs), me), batches, WantRunning, Some(me))
  }

  lemma ResumeReadsOnDesk(db: Db, me: Id, d: Desk)
    requires DeskOf()(db) == d
    ensures Control.Act(db, me, ResumeRead) ==
            (db, if d.active.Some? then ResumeReadBatch(d.active.value) else ResumeList)
    ensures d.active.Some? ==>
              Control.Act(db, me, ResumeReadBatch(d.active.value)) ==
              (db, if IsOpen(d) then ResumeRun(d.active.value) else ResumeList)
    ensures Control.Act(db, me, ResumeList) ==
            (db, if Waiting(d.jobs) == {} then Done(false) else ResumeInsert(Waiting(d.jobs)))
  {
    assert UnbatchedQueued(db) == Waiting(d.jobs);
  }

  lemma InsertOnDesk(db: Db, me: Id, d: Desk, ids: set<Id>)
    requires DeskOf()(db) == d
    ensures var (now, next) := Control.Act(db, me, ResumeInsert(ids));
            DeskOf()(now) == d.(batches := d.batches[me := Batch(Running, 0)]) && next == ResumeAssign(ids)
  {
  }

  lemma AssignOnDesk(db: Db, me: Id, d: Desk)
    requires DeskOf()(db) == d && Waiting(d.jobs) != {}
    ensures var (now, next) := Control.Act(db, me, ResumeAssign(Waiting(d.jobs)));
            DeskOf()(now) == d.(jobs := Batched(d.jobs, Waiting(d.jobs), me)) && next == ResumeTotal(|Waiting(d.jobs)|)
  {
    var now := AssignJobs(db, me, Waiting(d.jobs));
    assert now.jobs == Batched(d.jobs, Waiting(d.jobs), me);
    assert now.batched[me].Keys == Waiting(d.jobs);
    assert |now.batched[me]| == |Waiting(d.jobs)|;
  }

  lemma TotalOnDesk(db: Db, me: Id, d: Desk, total: nat)
    requires DeskOf()(db) == d && me in d.batches
    ensures var (now, next) := Control.Act(db, me, ResumeTotal(total));
            DeskOf()(now) == d.(batches := d.batches[me := d.batches[me].(total := total)]) && next == ResumeRun(me)
  {
  }

  lemma RunOnDesk(db: Db, me: Id, d: Desk, b: Id)
    requires DeskOf()(db) == d
    ensures var (now, next) := Control.Act(db, me, ResumeRun(b));
            DeskOf()(now) == d.(batches := SetStatus(d.batches, b, Running)) && next == ResumeControl(b)
    ensures var (now, next) := Control.Act(db, me, ResumeControl(b));
            && DeskOf()(now) == d.(desired := WantRunning, active := if b == me then Some(me) else d.active)
            && next == Done(true)
  {
  }

  /** The last two statements of a resume. */
  lemma RunAndControl(c: Call, n: nat, i: nat, b: Id, d: Desk)
    requires LeftAlone(c, DeskOf(), n) && i + 2 <= n && IsAt(c, i, OfControl(ResumeRun(b)))
    requires DeskOf()(Reached(c, i).db) == d
    ensures IsAt(c, i + 2, OfControl(Done(true)))
    ensures DeskOf()(Reached(c, i + 2).db) ==
            d.(batches := SetStatus(d.batches, b, Running), desired := WantRunning,
               active := if b == c.me then Some(c.me) else d.active)
  {
    hide LeftAlone, IsAt, Reached, DbOk, ProcOk, Control.Act, DeskOf, SetStatus;
    var db := Turn(c, DeskOf(), n, i, OfControl(ResumeRun(b)));
    RunOnDesk(db, c.me, d, b);
    var run := d.(batches := SetStatus(d.batches, b, Running));
    db := Turn(c, DeskOf(), n, i + 1, OfControl(ResumeControl(b)));
    RunOnDesk(db, c.me, run, b);
  }

  /** The desk with the batch of the waiting jobs, before the sender is set to run on it. */
  function WithBatch(d: Desk, me: Id): Desk
  {
    d.(jobs := Batched(d.jobs, Waiting(d.jobs), me), batches := d.batches[me := Batch(Running, |Waiting(d.jobs)|)])
  }

  lemma InsertBatch(c: Call, n: nat, i: nat, d: Desk)
    requires LeftAlone(c, DeskOf(), n) && i + 3 <= n && Waiting(d.jobs) != {}
    requires IsAt(c, i, OfControl(ResumeInsert(Waiting(d.jobs)))) && DeskOf()(Reached(c, i).db) == d
    ensures IsAt(c, i + 3, OfControl(ResumeRun(c.me))) && DeskOf()(Reached(c, i + 3).db) == WithBatch(d, c.me)
  {
    hide LeftAlone, IsAt, Reached, DbOk, ProcOk, Control.Act, DeskOf, Waiting, Batched;
    var ids := Waiting(d.jobs);
    var db := Turn(c, DeskOf(), n, i, OfControl(ResumeInsert(ids)));
    InsertOnDesk(db, c.me, d, ids);
    var d1 := d.(batches := d.batches[c.me := Batch(Running, 0)]);
    db := Turn(c, DeskOf(), n, i + 1, OfControl(ResumeAssign(ids)));
    AssignOnDesk(db, c.me, d1);
    var d2 := d1.(jobs := Batched(d.jobs, ids, c.me));
    db := Turn(c, DeskOf(), n, i + 2, OfControl(ResumeTotal(|ids|)));
    TotalOnDesk(db, c.me, d2, |ids|);
    assert WithBatch(d, c.me) == d2.(batches := d2.batches[c.me := d2.batches[c.me].(total := |ids|)]);
  }

  /** A new batch, if any job is waiting. */
  lemma NewBatch(c: Call, n: nat, i: nat, d: Desk) returns (k: nat)
    requires LeftAlone(c, DeskOf(), n) && i + 6 <= n && IsAt(c, i, OfControl(ResumeList))
    requires DeskOf()(Reached(c, i).db) == d
    requires !IsOpen(d)
    ensures i < k <= i + 6 && IsAt(c, k, OfControl(Done(Waiting(d.jobs) != {})))
    ensures DeskOf()(Reached(c, k).db) == if Waiting(d.jobs) != {} then Resumed(d, c.me) else d
  {
    hide LeftAlone, IsAt, Reached, DbOk, ProcOk, Control.Act, DeskOf, Waiting, Batched, IsOpen;
    var db := Turn(c, DeskOf(), n, i, OfControl(ResumeList));
    ResumeReadsOnDesk(db, c.me, d);
    k := i + 1;
    if Waiting(d.jobs) != {} {
      InsertBatch(c, n, i + 1, d);
      RunAndControl(c, n, i + 4, c.me, WithBatch(d, c.me));
      assert SetStatus(WithBatch(d, c.me).batches, c.me, Running) == WithBatch(d, c.me).batches;
      k := i + 6;
    }
  }

  lemma NotYetActive(db: Db, me: Id, d: Desk)
    requires DbOk(db) && ProcOk(db, me, OfControl(ResumeRead)) && DeskOf()(db) == d
    ensures d.active != Some(me)
  {
  }

  /** A resume succeeds exactly if a batch is open or a job is waiting; then the sender is to run on it. */
  lemma ResumeOutcome(c: Call, d: Desk) returns (k: nat, ok: bool)
    requires LeftAlone(c, DeskOf(), 8) && IsAt(c, 0, OfControl(ResumeRead)) && DeskOf()(Reached(c, 0).db) == d
    ensures k <= 8 && IsAt(c, k, OfControl(Done(ok))) && (ok <==> IsOpen(d) || Waiting(d.jobs) != {})
    ensures DeskOf()(Reached(c, k).db) == if ok then Resumed(d, c.me) else d
  {
    hide LeftAlone, IsAt, Reached, DbOk, ProcOk, Control.Act, DeskOf, Waiting, Batched;
    var db := Turn(c, DeskOf(), 8, 0, OfControl(ResumeRead));
    ResumeReadsOnDesk(db, c.me, d);
    NotYetActive(db, c.me, d);
    k, ok := 1, Waiting(d.jobs) != {};
    if d.active.Some? {
      db := Turn(c, DeskOf(), 8, 1, OfControl(ResumeReadBatch(d.active.value)));
      ResumeReadsOnDesk(db, c.me, d);
      k := 2;
    }
    if IsOpen(d) {
      RunAndControl(c, 8, 2, d.active.value, d);
      k, ok := 4, true;
    } else {
      k := NewBatch(c, 8, k, d);
    }
  }

  // ---------------------------------------------------------------- pause and stop

  predicate IsSending(d: Desk, b: Id)
  {
    exists p | p in d.jobs :: d.jobs[p].batch == Some(b) && d.jobs[p].status == JobStatus.Sending
  }

  /** The sender is to be paused, and so is its batch. */
  function PausedDesk(d: Desk): Desk
  {
    if IsOpen(d) then d.(batches := SetStatus(d.batches, d.active.value, BatchStatus.Paused), desired := WantPaused)
    else d.(desired := WantPaused)
  }

  lemma PauseOnDesk(db: Db, me: Id, d: Desk)
    requires DeskOf()(db) == d
    ensures Control.Act(db, me, PauseRead) ==
            (db, if d.active.Some? then PauseWrite(d.active.value) else WantWrite(WantPaused))
    ensures Control.Act(db, me, StopRead) ==
            (db, if d.active.Some? then StopReadJobs(d.active.value) else WantWrite(WantPaused))
    ensures d.active.Some? ==>
              && Control.Act(db, me, StopReadJobs(d.active.value)) ==
                 (db, if IsSending(d, d.active.value) then WantWrite(WantStop) else PauseWrite(d.active.value))
              && var (now, next) := Control.Act(db, me, PauseWrite(d.active.value));
                 && DeskOf()(now) == PausedDesk(d).(desired := d.desired) && next == WantWrite(WantPaused)
  {
  }

  lemma WantOnDesk(db: Db, me: Id, d: Desk, desired: Desired)
    requires DeskOf()(db) == d
    ensures var (now, next) := Control.Act(db, me, WantWrite(desired));
            DeskOf()(now) == d.(desired := desired) && next == Done(true)
  {
  }

  lemma WantTurn(c: Call, n: nat, i: nat, desired: Desired, d: Desk)
    requires LeftAlone(c, DeskOf(), n) && i < n && IsAt(c, i, OfControl(WantWrite(desired)))
    requires DeskOf()(Reached(c, i).db) == d
    ensures IsAt(c, i + 1, OfControl(Done(true))) && DeskOf()(Reached(c, i + 1).db) == d.(desired := desired)
  {
    hide LeftAlone, IsAt, Reached, DbOk, ProcOk, Control.Act, DeskOf;
    var db := Turn(c, DeskOf(), n, i, OfControl(WantWrite(desired)));
    WantOnDesk(db, c.me, d, desired);
  }

  lemma PauseTurns(c: Call, n: nat, i: nat, d: Desk)
    requires LeftAlone(c, DeskOf(), n) && i + 2 <= n && d.active.Some?
    requires IsAt(c, i, OfControl(PauseWrite(d.active.value)))
    requires DeskOf()(Reached(c, i).db) == d
    ensures IsAt(c, i + 2, OfControl(Done(true))) && DeskOf()(Reached(c, i + 2).db) == PausedDesk(d)
  {
    hide LeftAlone, IsAt, Reached, DbOk, ProcOk, Control.Act, DeskOf, IsOpen;
    var db := Turn(c, DeskOf(), n, i, OfControl(PauseWrite(d.active.value)));
    PauseOnDesk(db, c.me, d);
    WantTurn(c, n, i + 1, WantPaused, PausedDesk(d).(desired := d.desired));
  }

  /** A pause always succeeds. */
  lemma PauseOutcome(c: Call, d: Desk) returns (k: nat)
    requires LeftAlone(c, DeskOf(), 3) && IsAt(c, 0, OfControl(PauseRead)) && DeskOf()(Reached(c, 0).db) == d
    ensures k <= 3 && IsAt(c, k, OfControl(Done(true))) && DeskOf()(Reached(c, k).db) == PausedDesk(d)
  {
    hide LeftAlone, IsAt, Reached, DbOk, ProcOk, Control.Act, DeskOf;
    var db := Turn(c, DeskOf(), 3, 0, OfControl(PauseRead));
    PauseOnDesk(db, c.me, d);
    if d.active.Some? {
      PauseTurns(c, 3, 1, d);
      k := 3;
    } else {
      WantTurn(c, 3, 1, WantPaused, d);
      k := 2;
    }
  }

  /** A stop waits for the current job, if one of the active batch is being sent; otherwise it is a pause. */
  lemma StopOutcome(c: Call, d: Desk) returns (k: nat)
    requires LeftAlone(c, DeskOf(), 4) && IsAt(c, 0, OfControl(StopRead)) && DeskOf()(Reached(c, 0).db) == d
    ensures k <= 4 && IsAt(c, k, OfControl(Done(true)))
    ensures DeskOf()(Reached(c, k).db) ==
            if d.active.Some? && IsSending(d, d.active.value) then d.(desired := WantStop) else PausedDesk(d)
  {
    hide LeftAlone, IsAt, Reached, DbOk, ProcOk, Control.Act, DeskOf, IsSending;
    var db := Turn(c, DeskOf(), 4, 0, OfControl(StopRead));
    PauseOnDesk(db, c.me, d);
    if d.active == None {
      WantTurn(c, 4, 1, WantPaused, d);
      return 2;
    }
    db := Turn(c, DeskOf(), 4, 1, OfControl(StopReadJobs(d.active.value)));
    PauseOnDesk(db, c.me, d);
    if IsSending(d, d.active.value) {
      WantTurn(c, 4, 2, WantStop, d);
      k := 3;
    } else {
      PauseTurns(c, 4, 2, d);
      k := 4;
    }
  }

  // ---------------------------------------------------------------- the sender's side

  lemma AcquireOnDesk(db: Db, me: Id, hint: Hint, cycle: Sender.Cycle, d: Desk)
    requires DeskOf()(db) == d
    ensures Sender.Act(db, me, hint, Sender.Acquire(cycle)) ==
            (db, if d.desired == WantRunning && d.active.Some? && !hint.refused then Sender.ReadBatch(cycle)
                 else Sender.Done)
    ensures d.active.Some? ==>
              Sender.Act(db, me, hint, Sender.ReadBatch(cycle)) == (db, Sender.NextJob(cycle, d.active.value))
  {
  }

  lemma NextOnDesk(db: Db, me: Id, hint: Hint, cycle: Sender.Cycle, b: Id, p: Id, d: Desk)
    requires DeskOf()(db) == d && p in d.jobs && d.jobs[p].batch == Some(b) && d.jobs[p].status == Queued
    requires hint.found == Some(p)
    ensures Sender.Act(db, me, hint, Sender.NextJob(cycle, b)) ==
            (db, Sender.ClaimJob(cycle, b, p, d.jobs[p].origin, d.jobs[p].letter))
  {
  }

  /** A sender asks for a job exactly if it is to run, on a batch, and gets the lease. */
  lemma AcquireOutcome(c: Call, n: nat, cycle: Sender.Cycle, d: Desk) returns (k: nat)
    requires LeftAlone(c, DeskOf(), n) && n >= 2 && IsAt(c, 0, OfSender(Sender.Acquire(cycle)))
    requires DeskOf()(Reached(c, 0).db) == d
    ensures k <= 2 && DeskOf()(Reached(c, k).db) == d
    ensures if d.desired == WantRunning && d.active.Some? && !c.hints(0).refused
            then k == 2 && IsAt(c, 2, OfSender(Sender.NextJob(cycle, d.active.value)))
            else IsAt(c, k, OfSender(Sender.Done))
  {
    hide LeftAlone, IsAt, Reached, DbOk, ProcOk, Sender.Act, DeskOf;
    var db := Turn(c, DeskOf(), n, 0, OfSender(Sender.Acquire(cycle)));
    AcquireOnDesk(db, c.me, c.hints(0), cycle, d);
    k := 1;
    if d.desired == WantRunning && d.active.Some? && !c.hints(0).refused {
      db := Turn(c, DeskOf(), n, 1, OfSender(Sender.ReadBatch(cycle)));
      AcquireOnDesk(db, c.me, c.hints(1), cycle, d);
      k := 2;
    }
  }

  /** A sender that starts when the call has taken `k` statements. */
  function Starting(c: Call, k: nat, sender: Id, cycle: Sender.Cycle, hints: nat -> Hint, gaps: nat -> seq<Event>): Call
  {
    var run := Turns(c.run, c.me, c.hints, c.gaps, k);
    Call(Run.After(run, Start(sender, OfSender(Sender.Acquire(cycle)))), sender, hints, gaps)
  }

  /** A sender that starts after a resume with a new batch, with nothing else on the desk in between, and that is not
      refused, takes on a job that was waiting for the resume. */
  lemma ResumedSenderTakesAJob(c: Call, d: Desk, k: nat, sender: Id, cycle: Sender.Cycle, hints: nat -> Hint,
                               gaps: nat -> seq<Event>, p: Id)
    requires DeskOf()(Reached(c, k).db) == Resumed(d, c.me) && !IsOpen(d) && p in Waiting(d.jobs)
    requires sender !in Reached(c, k).procs
    requires var next := Starting(c, k, sender, cycle, hints, gaps);
             LeftAlone(next, DeskOf(), 3)
    requires !hints(0).refused && hints(2).found == Some(p)
    ensures var next := Starting(c, k, sender, cycle, hints, gaps);
            IsAt(next, 3, OfSender(Sender.ClaimJob(cycle, c.me, p, d.jobs[p].origin, d.jobs[p].letter)))
  {
    hide LeftAlone, DbOk, ProcOk, Sender.Act, IsOpen, Turns, DeskOf;
    var next := Starting(c, k, sender, cycle, hints, gaps);
    var now := Resumed(d, c.me);
    StartsThere(c, k, sender, cycle, hints, gaps);
    hide IsAt, Reached;
    var i := AcquireOutcome(next, 3, cycle, now);
    var db := Turn(next, DeskOf(), 3, 2, OfSender(Sender.NextJob(cycle, c.me)));
    NextOnDesk(db, sender, hints(2), cycle, c.me, p, now);
  }

  lemma StartsThere(c: Call, k: nat, sender: Id, cycle: Sender.Cycle, hints: nat -> Hint, gaps: nat -> seq<Event>)
    requires sender !in Reached(c, k).procs
    ensures var next := Starting(c, k, sender, cycle, hints, gaps);
            Reached(next, 0).db == Reached(c, k).db && IsAt(next, 0, OfSender(Sender.Acquire(cycle)))
  {
  }

  /** No job of the batch is queued or being sent. */
  predicate IsFinished(jobs: map<Id, Job>, b: Id)
  {
    forall p | p in jobs && jobs[p].batch == Some(b) :: jobs[p].status != Queued && jobs[p].status != JobStatus.Sending
  }

  /** A stop has been waited for. */
  function StopTaken(d: Desk): Desk { if d.desired == WantStop then d.(desired := WantPaused) else d }

  /** A paused sender pauses the batch it was on. */
  function BatchPaused(d: Desk, b: Id): Desk
  {
    if d.desired == WantPaused && b in d.batches && d.batches[b].status != Completed
    then d.(batches := SetStatus(d.batches, b, BatchStatus.Paused)) else d
  }

  /** A finished batch is completed, and the control let go of it. */
  function Finalized(d: Desk, b: Id): Desk
  {
    if !IsFinished(d.jobs, b) then d
    else if d.active == Some(b)
    then d.(batches := SetStatus(d.batches, b, Completed), desired := WantPaused, active := None)
    else d.(batches := SetStatus(d.batches, b, Completed))
  }

  lemma ReleaseOnDesk(db: Db, me: Id, hint: Hint, b: Id, d: Desk)
    requires DeskOf()(db) == d
    ensures var (now, next) := Sender.Act(db, me, hint, Sender.ReleaseLease(b));
            if hint.refused then now == db && next == Sender.Done
            else DeskOf()(now) == StopTaken(d) && next == Sender.AfterRelease(b)
    ensures Sender.Act(db, me, hint, Sender.AfterRelease(b)) ==
            (db, if d.desired == WantPaused then Sender.PauseBatch(b) else Sender.ReadUnfinished(b))
  {
  }

  lemma PauseBatchOnDesk(db: Db, me: Id, hint: Hint, b: Id, d: Desk)
    requires DeskOf()(db) == d && d.desired == WantPaused
    ensures var (now, next) := Sender.Act(db, me, hint, Sender.PauseBatch(b));
            DeskOf()(now) == BatchPaused(d, b) && next == Sender.ReadUnfinished(b)
  {
  }

  lemma FinalOnDesk(db: Db, me: Id, hint: Hint, b: Id, d: Desk)
    requires DeskOf()(db) == d
    ensures Sender.Act(db, me, hint, Sender.ReadUnfinished(b)) ==
            (db, if IsFinished(d.jobs, b) then Sender.CompleteBatch(b) else Sender.Done)
    ensures var (now, next) := Sender.Act(db, me, hint, Sender.CompleteBatch(b));
            DeskOf()(now) == d.(batches := SetStatus(d.batches, b, Completed)) && next == Sender.ClearControl(b)
    ensures var (now, next) := Sender.Act(db, me, hint, Sender.ClearControl(b));
            && DeskOf()(now) == (if d.active == Some(b) then d.(desired := WantPaused, active := None) else d)
            && next == Sender.Done
  {
    assert Drained(db.jobs, b) <==> IsFinished(d.jobs, b) by { DrainedIsFinished(db.jobs, b); }
  }

  lemma DrainedIsFinished(jobs: map<Id, Job>, b: Id)
    ensures Drained(jobs, b) <==> IsFinished(jobs, b)
  {
    if IsFinished(jobs, b) {
      forall p | p in jobs ensures !Unfinished(jobs, p, b) {
      }
    }
    if Drained(jobs, b) {
      forall p | p in jobs && jobs[p].batch == Some(b)
        ensures jobs[p].status != Queued && jobs[p].status != JobStatus.Sending
      {
        assert !Unfinished(jobs, p, b);
      }
    }
  }

  lemma FinalTurns(c: Call, n: nat, i: nat, b: Id, d: Desk) returns (k: nat)
    requires LeftAlone(c, DeskOf(), n) && i + 3 <= n && IsAt(c, i, OfSender(Sender.ReadUnfinished(b)))
    requires DeskOf()(Reached(c, i).db) == d
    ensures i < k <= i + 3 && IsAt(c, k, OfSender(Sender.Done)) && DeskOf()(Reached(c, k).db) == Finalized(d, b)
  {
    hide LeftAlone, IsAt, Reached, DbOk, ProcOk, Sender.Act, DeskOf, IsFinished, SetStatus;
    var db := Turn(c, DeskOf(), n, i, OfSender(Sender.ReadUnfinished(b)));
    FinalOnDesk(db, c.me, c.hints(i), b, d);
    k := i + 1;
    if IsFinished(d.jobs, b) {
      db := Turn(c, DeskOf(), n, i + 1, OfSender(Sender.CompleteBatch(b)));
      FinalOnDesk(db, c.me, c.hints(i + 1), b, d);
      db := Turn(c, DeskOf(), n, i + 2, OfSender(Sender.ClearControl(b)));
      FinalOnDesk(db, c.me, c.hints(i + 2), b, d.(batches := SetStatus(d.batches, b, Completed)));
      k := i + 3;
    }
  }

  /** The end of a cycle takes a stop, pauses the batch of a paused sender, and completes a finished batch. */
  lemma ReleaseOutcome(c: Call, b: Id, d: Desk) returns (k: nat)
    requires LeftAlone(c, DeskOf(), 6) && IsAt(c, 0, OfSender(Sender.ReleaseLease(b)))
    requires DeskOf()(Reached(c, 0).db) == d
    ensures k <= 6 && IsAt(c, k, OfSender(Sender.Done))
    ensures DeskOf()(Reached(c, k).db) ==
            if c.hints(0).refused then d else Finalized(BatchPaused(StopTaken(d), b), b)
  {
    hide LeftAlone, IsAt, Reached, DbOk, ProcOk, Sender.Act, DeskOf, StopTaken, Finalized;
    var db := Turn(c, DeskOf(), 6, 0, OfSender(Sender.ReleaseLease(b)));
    ReleaseOnDesk(db, c.me, c.hints(0), b, d);
    k := 1;
    if !c.hints(0).refused {
      var taken := StopTaken(d);
      db := Turn(c, DeskOf(), 6, 1, OfSender(Sender.AfterRelease(b)));
      ReleaseOnDesk(db, c.me, c.hints(1), b, taken);
      k := 2;
      if taken.desired == WantPaused {
        db := Turn(c, DeskOf(), 6, 2, OfSender(Sender.PauseBatch(b)));
        PauseBatchOnDesk(db, c.me, c.hints(2), b, taken);
        k := 3;
      }
      k := FinalTurns(c, 6, k, b, BatchPaused(taken, b));
    }
  }
}
