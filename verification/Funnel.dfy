/** All requests of one user against one database: any number of them, interleaved statement by statement. */
module Funnel {
  import opened Options
  import opened Tables
  import opened Enrichment
  import Queue = SendQueue
  import Letters = CoverLetters
  import Review = VacancyReview
  import Claims = ScoringClaims
  import Sender = PersistentSender
  import Control = BatchControl

  datatype Proc =
    | OfQueue(queue: Queue.Step)
    | OfLetters(letters: Letters.Step)
    | OfReview(review: Review.Step)
    | OfClaims(claims: Claims.Step)
    | OfSender(sender: Sender.Step)
    | OfControl(control: Control.Step)

  predicate Entry(p: Proc)
  {
    match p
    case OfQueue(s) => Queue.Entry(s)
    case OfLetters(s) => Letters.Entry(s)
    case OfReview(s) => Review.Entry(s)
    case OfClaims(s) => Claims.Entry(s)
    case OfSender(s) => Sender.Entry(s)
    case OfControl(s) => Control.Entry(s)
  }

  /** A statement that ends well. */
  function Statement(db: Db, me: Id, hint: Hint, p: Proc): (Db, Proc)
  {
    match p
    case OfQueue(s) => var (now, next) := Queue.Act(db, me, s); (now, OfQueue(next))
    case OfLetters(s) => var (now, next) := Letters.Act(db, me, hint, s); (now, OfLetters(next))
    case OfReview(s) => var (now, next) := Review.Act(db, me, hint, s); (now, OfReview(next))
    case OfClaims(s) => var (now, next) := Claims.Act(db, me, hint, s); (now, OfClaims(next))
    case OfSender(s) => var (now, next) := Sender.Act(db, me, hint, s); (now, OfSender(next))
    case OfControl(s) => var (now, next) := Control.Act(db, me, s); (now, OfControl(next))
  }

  /** Where a request goes when its statement is cancelled or raises: to its handlers, if it has any. */
  function Interrupted(p: Proc, cancelled: bool): Proc
  {
    match p
    case OfQueue(s) => if s.Done? then p else OfQueue(Queue.Done(false))
    case OfLetters(s) => if s.Done? then p else OfLetters(Letters.Done(false))
    case OfReview(s) => if s.Done? then p else OfReview(Review.Done(false))
    case OfClaims(s) => OfClaims(Claims.Interrupted(s, cancelled))
    case OfSender(s) => OfSender(Sender.Interrupted(s))
    case OfControl(s) => if s.Done? then p else OfControl(Control.Done(false))
  }

  function Act(db: Db, me: Id, hint: Hint, p: Proc): (Db, Proc)
  {
    var (now, next) := Statement(db, me, hint, p);
    (Landed(db, now, hint.mishap), if hint.mishap.Fine? then next else Interrupted(p, hint.mishap.Cut?))
  }

  /** The five statements that write the history of the send protocol. */
  predicate Writes(p: Proc)
  {
    || (p.OfQueue? && (p.queue.ApproveWrite? || p.queue.QueueWrite?))
    || (p.OfSender? && (p.sender.ClaimJob? || p.sender.Snapshot? || p.sender.Submit?))
  }

  ghost predicate ProcOk(db: Db, me: Id, p: Proc)
  {
    match p
    case OfQueue(s) => Queue.StepOk(db, me, s)
    case OfLetters(s) => Letters.StepOk(s)
    case OfReview(s) => Review.StepOk(s)
    case OfClaims(s) => Claims.StepOk(db, me, s)
    case OfSender(s) => Sender.StepOk(db, me, s)
    case OfControl(s) => Control.StepOk(db, me, s)
  }

  lemma EntryOk(db: Db, me: Id, p: Proc)
    requires Entry(p) && Unused(db, me)
    ensures ProcOk(db, me, p)
  {
    hide Unused, Queue.Entry, Claims.Entry, Sender.Entry, Control.Entry;
    hide Queue.StepOk, Claims.StepOk, Sender.StepOk, Control.StepOk;
    match p {
      case OfQueue(s) => Queue.EntryOk(db, me, s);
      case OfClaims(s) => Claims.EntryOk(db, me, s);
      case OfSender(s) => Sender.EntryOk(db, me, s);
      case OfControl(s) => Control.EntryOk(db, me, s);
      case _ =>
    }
  }

  /** What a request relies on is left alone by every step of another request. */
  lemma ProcOkStays(was: Db, now: Db, k: Id, me: Id, p: Proc)
    requires Extends(was, now, k) && me != k && ProcOk(was, me, p)
    ensures ProcOk(now, me, p)
  {
    hide Extends, Queue.StepOk, Letters.StepOk, Review.StepOk, Claims.StepOk, Sender.StepOk, Control.StepOk;
    match p {
      case OfQueue(s) => Queue.StepOkStays(was, now, k, me, s);
      case OfClaims(s) => Claims.StepOkStays(was, now, k, me, s);
      case OfSender(s) => Sender.StepOkStays(was, now, k, me, s);
      case OfControl(s) => Control.StepOkStays(was, now, k, me, s);
      case _ =>
    }
  }

  lemma StatementKeeps(db: Db, me: Id, hint: Hint, p: Proc)
    requires DbOk(db) && ProcOk(db, me, p)
    ensures var r := Statement(db, me, hint, p);
            Kept(db, r.0, me) && ProcOk(r.0, me, r.1) && (!Writes(p) ==> Quiet(db, r.0))
  {
    hide DbOk, Extends, Quiet;
    hide Queue.StepOk, Letters.StepOk, Review.StepOk, Claims.StepOk, Sender.StepOk, Control.StepOk;
    hide Queue.Act, Letters.Act, Review.Act, Claims.Act, Sender.Act, Control.Act;
    match p {
      case OfQueue(s) => Queue.StepKeeps(db, me, s);
      case OfLetters(s) => Letters.StepKeeps(db, me, hint, s);
      case OfReview(s) => Review.StepKeeps(db, me, hint, s);
      case OfClaims(s) => Claims.StepKeeps(db, me, hint, s);
      case OfSender(s) => Sender.StepKeeps(db, me, hint, s);
      case OfControl(s) => Control.StepKeeps(db, me, s);
    }
  }

  lemma InterruptedOk(was: Db, now: Db, me: Id, p: Proc, cancelled: bool)
    requires Kept(was, now, me) && ProcOk(was, me, p) && (p.OfClaims? && p.claims.ScoreDone? ==> now == was)
    ensures ProcOk(now, me, Interrupted(p, cancelled))
  {
    hide DbOk, Extends, Claims.StepOk, Sender.StepOk, Claims.Interrupted, Sender.Interrupted;
    match p {
      case OfClaims(s) => Claims.InterruptedOk(was, now, me, s, cancelled);
      case OfSender(s) => Sender.InterruptedOk(was, now, me, s);
      case _ =>
    }
  }

  lemma NothingAfterDone(db: Db, me: Id, hint: Hint, p: Proc)
    requires p.OfClaims? && p.claims.ScoreDone?
    ensures Statement(db, me, hint, p).0 == db
  {
  }

  lemma ProcKeeps(db: Db, me: Id, hint: Hint, p: Proc)
    requires DbOk(db) && ProcOk(db, me, p)
    ensures var r := Act(db, me, hint, p); Kept(db, r.0, me) && ProcOk(r.0, me, r.1) && (!Writes(p) ==> Quiet(db, r.0))
  {
    hide Kept, DbOk, ProcOk, Quiet, Statement, Interrupted, Writes;
    var (now, next) := Statement(db, me, hint, p);
    StatementKeeps(db, me, hint, p);
    NothingChanges(db, me);
    if p.OfClaims? && p.claims.ScoreDone? {
      NothingAfterDone(db, me, hint, p);
    }
    InterruptedOk(db, Landed(db, now, hint.mishap), me, p, hint.mishap.Cut?);
  }

  // ---------------------------------------------------------------- runs

  /** The database and the requests so far; a request that ended stays with its last state. */
  datatype Sys = Sys(db: Db, procs: map<Id, Proc>)

  /** A request starts, or takes its next statement. */
  datatype Event = Start(me: Id, proc: Proc) | Move(me: Id, hint: Hint)

  function Next(s: Sys, e: Event): Sys
  {
    match e
    case Start(me, p) => if me !in s.procs && Entry(p) then s.(procs := s.procs[me := p]) else s
    case Move(me, hint) =>
      if me in s.procs then
        var (db, p) := Act(s.db, me, hint, s.procs[me]);
        Sys(db, s.procs[me := p])
      else s
  }

  datatype Run = Init | After(before: Run, event: Event)

  function State(run: Run): Sys
  {
    match run
    case Init => Sys(Empty(), map[])
    case After(before, e) => Next(State(before), e)
  }

  /** What one event does to the database. */
  lemma DbAfter(run: Run)
    requires run.After?
    ensures var s, e := State(run.before), run.event;
            State(run).db == if e.Move? && e.me in s.procs then Act(s.db, e.me, e.hint, s.procs[e.me]).0 else s.db
  {
    hide Act, Entry;
  }

  predicate Within(earlier: Run, later: Run)
  {
    earlier == later || (later.After? && Within(earlier, later.before))
  }

  ghost predicate ProcsOk(db: Db, procs: map<Id, Proc>)
  {
    forall k | k in procs :: ProcOk(db, k, procs[k])
  }

  ghost predicate OthersUnused(db: Db, procs: map<Id, Proc>) { forall k :: k in procs || Unused(db, k) }

  ghost predicate SysOk(s: Sys) { DbOk(s.db) && ProcsOk(s.db, s.procs) && OthersUnused(s.db, s.procs) }

  lemma MoveKeeps(s: Sys, me: Id, hint: Hint)
    requires SysOk(s) && me in s.procs
    ensures SysOk(Next(s, Move(me, hint))) && Extends(s.db, Next(s, Move(me, hint)).db, me)
    ensures !Writes(s.procs[me]) ==> Quiet(s.db, Next(s, Move(me, hint)).db)
  {
    hide DbOk, ProcOk, Extends, Quiet, Act, Unused, Writes;
    var now := Next(s, Move(me, hint));
    ProcKeeps(s.db, me, hint, s.procs[me]);
    forall k | k in now.procs ensures ProcOk(now.db, k, now.procs[k]) {
      if k != me {
        ProcOkStays(s.db, now.db, me, k, s.procs[k]);
      }
    }
    forall k ensures k in now.procs || Unused(now.db, k) {
      if k !in now.procs {
        UnusedStays(s.db, now.db, me, k);
      }
    }
  }

  /** The event is the next statement of a request that stands at `p`. */
  predicate Moves(s: Sys, e: Event, p: Proc) { e.Move? && e.me in s.procs && s.procs[e.me] == p }

  lemma NextKeeps(s: Sys, e: Event)
    requires SysOk(s)
    ensures SysOk(Next(s, e)) && Extends(s.db, Next(s, e).db, e.me)
    ensures !(e.Move? && e.me in s.procs && Writes(s.procs[e.me])) ==> Quiet(s.db, Next(s, e).db)
  {
    hide DbOk, ProcOk, Extends, Quiet, Act, Unused, Entry, Writes;
    NothingChanges(s.db, e.me);
    match e {
      case Start(me, p) =>
        if me !in s.procs && Entry(p) {
          EntryOk(s.db, me, p);
        }
      case Move(me, hint) =>
        if me in s.procs {
          MoveKeeps(s, me, hint);
        }
    }
  }

  lemma EmptyOk()
    ensures SysOk(Sys(Empty(), map[]))
  {
  }

  /** The invariant holds in every reachable state. */
  lemma {:induction false} RunIsOk(run: Run)
    ensures SysOk(State(run))
  {
    hide SysOk, Next;
    match run {
      case Init => EmptyOk();
      case After(before, e) =>
        RunIsOk(before);
        NextKeeps(State(before), e);
    }
  }

  /** Each request stands where its snapshots are still worth what they were. */
  lemma RequestIsOk(run: Run, me: Id)
    requires me in State(run).procs
    ensures DbOk(State(run).db) && ProcOk(State(run).db, me, State(run).procs[me])
  {
    hide DbOk, ProcOk, OthersUnused, Next;
    RunIsOk(run);
  }
}
