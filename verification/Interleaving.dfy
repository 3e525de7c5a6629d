/** One request's statements in a run, with any events of others between them. */
module Interleaving {
  import opened Options
  import opened Tables
  import opened Enrichment
  import opened Funnel

  /** The events of other requests, in a row. */
  function WithGap(run: Run, gap: seq<Event>): Run
  {
    if gap == [] then run else After(WithGap(run, gap[..|gap| - 1]), gap[|gap| - 1])
  }

  /** `n` statements of `me`, each after the events of others in `gaps`, and each as its hint says. */
  function Turns(run: Run, me: Id, hints: nat -> Hint, gaps: nat -> seq<Event>, n: nat): Run
  {
    if n == 0 then run else After(WithGap(Turns(run, me, hints, gaps, n - 1), gaps(n - 1)), Move(me, hints(n - 1)))
  }

  /** The database that the request's statement `i` meets. */
  function Met(run: Run, me: Id, hints: nat -> Hint, gaps: nat -> seq<Event>): nat -> Db
  {
    (i: nat) => State(WithGap(Turns(run, me, hints, gaps, i), gaps(i))).db
  }

  ghost predicate OfOthers(me: Id, gaps: nat -> seq<Event>) { forall i: nat, e | e in gaps(i) :: e.me != me }

  predicate Stands(run: Run, me: Id, p: Proc) { me in State(run).procs && State(run).procs[me] == p }

  lemma {:induction false} GapLeavesMe(run: Run, me: Id, gap: seq<Event>, p: Proc)
    requires Stands(run, me, p) && forall e | e in gap :: e.me != me
    ensures Stands(WithGap(run, gap), me, p)
    decreases |gap|
  {
    hide Act, Entry;
    if gap != [] {
      GapLeavesMe(run, me, gap[..|gap| - 1], p);
    }
  }

  lemma OneTurn(run: Run, me: Id, hints: nat -> Hint, gaps: nat -> seq<Event>, i: nat, p: Proc, now: Db, next: Proc)
    requires Stands(Turns(run, me, hints, gaps, i), me, p) && OfOthers(me, gaps)
    requires Act(Met(run, me, hints, gaps)(i), me, hints(i), p) == (now, next)
    ensures Stands(Turns(run, me, hints, gaps, i + 1), me, next) && State(Turns(run, me, hints, gaps, i + 1)).db == now
  {
    hide Act, Entry;
    GapLeavesMe(Turns(run, me, hints, gaps, i), me, gaps(i), p);
  }

  /** Statements that all end well. */
  function Calm(): nat -> Hint { (i: nat) => Hint(None, false, Fine) }

  // ---------------------------------------------------------------- what the others leave alone

  /** A request in a run, how its next statements end, and what the others do before each of them. */
  datatype Call = Call(run: Run, me: Id, hints: nat -> Hint, gaps: nat -> seq<Event>)

  /** Tables and requests after the next `i` statements of the request. */
  function Reached(c: Call, i: nat): Sys { State(Turns(c.run, c.me, c.hints, c.gaps, i)) }

  /** The request stands at `p` after `i` statements. */
  predicate IsAt(c: Call, i: nat, p: Proc) { c.me in Reached(c, i).procs && Reached(c, i).procs[c.me] == p }

  /** The others may do anything between the next `n` statements but change what `view` shows, and these
      statements end well. */
  ghost predicate LeftAlone<V>(c: Call, view: Db -> V, n: nat)
  {
    && OfOthers(c.me, c.gaps)
    && forall i: nat | i < n :: TurnIsQuiet(c, view, i)
  }

  ghost predicate TurnIsQuiet<V>(c: Call, view: Db -> V, i: nat)
  {
    c.hints(i).mishap.Fine? && view(Met(c.run, c.me, c.hints, c.gaps)(i)) == view(Reached(c, i).db)
  }

  /** What the request itself submitted, if anything. */
  predicate SameSubmission(was: Db, now: Db, me: Id)
  {
    && (me in now.submissions <==> me in was.submissions)
    && (me in was.submissions && me in now.submissions ==> now.submissions[me] == was.submissions[me])
  }

  lemma {:induction false} GapLeavesSubmission(run: Run, me: Id, gap: seq<Event>)
    requires forall e | e in gap :: e.me != me
    ensures SameSubmission(State(run).db, State(WithGap(run, gap)).db, me)
    decreases |gap|
  {
    hide Next, SysOk, RowsStep, Narrows, TokensFade;
    if gap != [] {
      var init, e := WithGap(run, gap[..|gap| - 1]), gap[|gap| - 1];
      GapLeavesSubmission(run, me, gap[..|gap| - 1]);
      RunIsOk(init);
      NextKeeps(State(init), e);
      assert e in gap;
    }
  }

  /** The next statement, on a database that shows what the last statement left. */
  lemma Turn<V>(c: Call, view: Db -> V, n: nat, i: nat, p: Proc) returns (db: Db)
    requires LeftAlone(c, view, n) && i < n && IsAt(c, i, p)
    ensures view(db) == view(Reached(c, i).db) && DbOk(db) && ProcOk(db, c.me, p)
    ensures SameSubmission(Reached(c, i).db, db, c.me)
    ensures var (now, next) := Statement(db, c.me, c.hints(i), p); Reached(c, i + 1).db == now && IsAt(c, i + 1, next)
  {
    hide Turns, DbOk, ProcOk, Statement, State, SameSubmission;
    db := Met(c.run, c.me, c.hints, c.gaps)(i);
    assert TurnIsQuiet(c, view, i);
    var (now, next) := Statement(db, c.me, c.hints(i), p);
    OneTurn(c.run, c.me, c.hints, c.gaps, i, p, now, next);
    MetIsOk(c, i, p);
    GapLeavesSubmission(Turns(c.run, c.me, c.hints, c.gaps, i), c.me, c.gaps(i));
  }

  lemma MetIsOk(c: Call, i: nat, p: Proc)
    requires OfOthers(c.me, c.gaps) && IsAt(c, i, p)
    ensures var db := Met(c.run, c.me, c.hints, c.gaps)(i); DbOk(db) && ProcOk(db, c.me, p)
  {
    hide Turns, DbOk, ProcOk, State;
    GapLeavesMe(Turns(c.run, c.me, c.hints, c.gaps, i), c.me, c.gaps(i), p);
    RequestIsOk(WithGap(Turns(c.run, c.me, c.hints, c.gaps, i), c.gaps(i)), c.me);
  }

  /** A row and its job. */
  datatype Pair = Pair(row: Option<Row>, job: Option<Job>)

  function PairOf(pid: Id): Db -> Pair
  {
    (db: Db) => Pair(if pid in db.rows then Some(db.rows[pid]) else None,
                     if pid in db.jobs then Some(db.jobs[pid]) else None)
  }

  /** No token outside of scoring. */
  lemma NoToken(db: Db, pid: Id)
    requires DbOk(db) && pid in db.rows && db.rows[pid].status != Scoring
    ensures db.rows[pid].token == None
  {
    hide JobsOk, BatchedOk, LettersOk, ClaimsOk, SubmissionsOk, BatchesOk;
    assert RowOk(pid, db.rows[pid], db.leases, db.approvals);
  }

  /** The call `c` begins where `before` has left the request with a statement that was cancelled or raised. */
  predicate BeginsInterrupted(c: Call, before: Run, hint: Hint, p: Proc)
  {
    c.run == Run.After(before, Move(c.me, hint)) && !hint.mishap.Fine? && Stands(before, c.me, p)
  }

  lemma InterruptedThere(c: Call, before: Run, hint: Hint, p: Proc)
    requires BeginsInterrupted(c, before, hint, p)
    ensures IsAt(c, 0, Interrupted(p, hint.mishap.Cut?))
  {
    hide Statement, Interrupted;
  }
}
