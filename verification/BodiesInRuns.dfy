/** The bodies in the runs: whatever other requests do between the statements of a body, the run of the step
    machine in which they do it leaves the request where its body ends. */
module BodiesInRuns {
  import opened Options
  import opened Tables
  import opened Enrichment
  import opened Funnel
  import opened Bodies
  import opened Interleaving
  import QueueBodies
  import LetterBodies
  import ReviewBodies
  import ScoringBodies
  import ControlBodies
  import SenderBodies

  /** As long as a body is under way, its machine does what the step machine does with the request it is of. */
  ghost predicate Mirrors<S(!new)>(act: (nat, Db, S) -> (Db, S), ends: S -> bool, me: Id, hints: nat -> Hint,
                                   kind: S -> Proc)
  {
    forall i: nat, db: Db, s: S | !ends(s) ::
      Act(db, me, hints(i), kind(s)) == (act(i, db, s).0, kind(act(i, db, s).1))
  }

  /** Whatever the others do in between: after as many statements as the body has on record, the request stands
      where the body is, and the database is the one the body left. */
  lemma {:induction false} BodyFollowsRun<S(!new)>(
      act: (nat, Db, S) -> (Db, S), ends: S -> bool, kind: S -> Proc, run: Run, me: Id, hints: nat -> Hint,
      gaps: nat -> seq<Event>, log: Log, i: nat, s: S, n: nat)
    requires Mirrors(act, ends, me, hints, kind) && OfOthers(me, gaps)
    requires Stands(Turns(run, me, hints, gaps, i), me, kind(s))
    ensures var (log', s') := Play(act, ends, log, i, s, Met(run, me, hints, gaps), n);
            && Size(log) <= Size(log') && (Size(log') == Size(log) ==> log' == log)
            && var at := Turns(run, me, hints, gaps, i + Size(log') - Size(log));
               && Stands(at, me, kind(s'))
               && (Size(log') > Size(log) ==> log'.Then? && log'.db == State(at).db)
    decreases n
  {
    hide Turns, Met, Stands, State, Act;
    if n > 0 && !ends(s) {
      var env := Met(run, me, hints, gaps);
      var (now, next) := act(i, env(i), s);
      OneTurn(run, me, hints, gaps, i, kind(s), now, kind(next));
      Tick(act, ends, log, i, s, env, n, now, next);
      BodyFollowsRun(act, ends, kind, run, me, hints, gaps, Then(log, now), i + 1, next, n - 1);
    }
  }

  /** The request stands where the body ended, on the database the body left. */
  ghost predicate Follows<S(!new)>(played: (Log, S), kind: S -> Proc, run: Run, me: Id, hints: nat -> Hint,
                                   gaps: nat -> seq<Event>)
  {
    var at := Turns(run, me, hints, gaps, Size(played.0));
    Stands(at, me, kind(played.1)) && (played.0.Then? ==> played.0.db == State(at).db)
  }

  lemma BodyInRun<S(!new)>(act: (nat, Db, S) -> (Db, S), ends: S -> bool, kind: S -> Proc, run: Run, me: Id,
                           hints: nat -> Hint, gaps: nat -> seq<Event>, s: S, n: nat)
    requires Mirrors(act, ends, me, hints, kind) && OfOthers(me, gaps) && Stands(run, me, kind(s))
    ensures Follows(Play(act, ends, Nothing, 0, s, Met(run, me, hints, gaps), n), kind, run, me, hints, gaps)
  {
    hide Met, Stands, State, Mirrors, Play;
    assert Turns(run, me, hints, gaps, 0) == run;
    BodyFollowsRun(act, ends, kind, run, me, hints, gaps, Nothing, 0, s, n);
  }

  // ---------------------------------------------------------------- the requests the bodies are of

  function QueueProc(s: Queue.Step): Proc { OfQueue(s) }

  function LettersProc(s: Letters.Step): Proc { OfLetters(s) }

  function ReviewProc(s: Review.Step): Proc { OfReview(s) }

  function ScoringProc(s: Claims.Step): Proc { OfClaims(s) }

  function SenderProc(s: Sender.Step): Proc { OfSender(s) }

  function ControlProc(s: Control.Step): Proc { OfControl(s) }

  /** An enrichment asked for by the user. */
  function EnrichProc(page: Page): Attempt<Enrich> -> Proc
  {
    (a: Attempt<Enrich>) =>
      OfReview(if a.Stopped? || a.at.EnrichFailed? then Review.Done(false)
               else if a.at.Enriched? then Review.Done(true) else Review.Enriching(page, a.at))
  }

  /** A vacancy found by discovery. */
  function PersistProc(): Attempt<Persist> -> Proc
  {
    (a: Attempt<Persist>) =>
      OfReview(if a.Stopped? then Review.Done(false)
               else if a.at.Stored? then Review.Done(a.at.ok) else Review.Discovering(a.at))
  }

  lemma QueueMirrors(me: Id)
    ensures Mirrors(QueueBodies.Machine(me), QueueBodies.Ends, me, Calm(), QueueProc)
  {
    hide Queue.Act;
  }

  lemma LettersMirror(me: Id, hints: nat -> Hint)
    ensures Mirrors(LetterBodies.Machine(me, hints), LetterBodies.Ends, me, hints, LettersProc)
  {
    hide Letters.Act;
    forall i: nat, db: Db, s: Letters.Step | !LetterBodies.Ends(s)
      ensures Act(db, me, hints(i), LettersProc(s)) ==
              (LetterBodies.Machine(me, hints)(i, db, s).0, LettersProc(LetterBodies.Machine(me, hints)(i, db, s).1))
    {
    }
  }

  lemma ReviewMirrors(me: Id)
    ensures Mirrors(ReviewBodies.Machine(me), ReviewBodies.Ends, me, Calm(), ReviewProc)
  {
    hide Review.Act;
  }

  lemma EnrichMirrors(me: Id, page: Page, hints: nat -> Hint)
    ensures Mirrors(ReviewBodies.EnrichMachine(me, page, None, hints), ReviewBodies.EnrichHalts(), me, hints,
                    EnrichProc(page))
  {
    hide EnrichAct;
    var act, kind := ReviewBodies.EnrichMachine(me, page, None, hints), EnrichProc(page);
    forall i: nat, db: Db, x: Attempt<Enrich> | !ReviewBodies.EnrichHalts()(x)
      ensures Act(db, me, hints(i), kind(x)) == (act(i, db, x).0, kind(act(i, db, x).1))
    {
      assert !ReviewBodies.EnrichEnds(x.at);
      var m := hints(i).mishap;
      var (now, next) := EnrichAct(db, me, page, None, hints(i), x.at);
      assert act(i, db, x) == (Landed(db, now, m), Attempted(m, next));
      assert kind(x) == OfReview(Review.Enriching(page, x.at));
    }
  }

  lemma PersistMirrors(me: Id, hints: nat -> Hint)
    ensures Mirrors(ReviewBodies.PersistMachine(me, hints), ReviewBodies.PersistHalts(), me, hints, PersistProc())
  {
    hide PersistAct;
    var act, kind := ReviewBodies.PersistMachine(me, hints), PersistProc();
    forall i: nat, db: Db, x: Attempt<Persist> | !ReviewBodies.PersistHalts()(x)
      ensures Act(db, me, hints(i), kind(x)) == (act(i, db, x).0, kind(act(i, db, x).1))
    {
      assert !ReviewBodies.PersistEnds(x.at);
      var m := hints(i).mishap;
      var (now, next) := PersistAct(db, me, hints(i), x.at);
      assert act(i, db, x) == (Landed(db, now, m), Attempted(m, next));
      assert kind(x) == OfReview(Review.Discovering(x.at));
    }
  }

  lemma ScoringMirrors(me: Id, hints: nat -> Hint)
    ensures Mirrors(ScoringBodies.Machine(me, hints), ScoringBodies.Ends, me, hints, ScoringProc)
  {
    hide Claims.Act, Claims.Interrupted;
  }

  lemma SenderMirrors(me: Id, hints: nat -> Hint, ends: Sender.Step -> bool)
    ensures Mirrors(SenderBodies.Machine(me, hints), ends, me, hints, SenderProc)
  {
    hide Sender.Act, Sender.Interrupted;
  }

  lemma ControlMirrors(me: Id)
    ensures Mirrors(ControlBodies.Machine(me), ControlBodies.Ends, me, Calm(), ControlProc)
  {
    hide Control.Act;
  }

  // ---------------------------------------------------------------- the bodies in the runs

  /** For the calls of the send queue: a request that starts in any state of any run, with any events of others
      between its statements, stands where its body ends, on the database its body leaves. */
  lemma QueueBodyInRun(run: Run, me: Id, gaps: nat -> seq<Event>, s: Queue.Step, n: nat)
    requires Stands(run, me, QueueProc(s)) && OfOthers(me, gaps)
    ensures Follows(Play(QueueBodies.Machine(me), QueueBodies.Ends, Nothing, 0, s, Met(run, me, Calm(), gaps), n),
                    QueueProc, run, me, Calm(), gaps)
  {
    hide Follows, Stands, Mirrors, Play, Met, OfOthers, QueueBodies.Machine;
    QueueMirrors(me);
    BodyInRun(QueueBodies.Machine(me), QueueBodies.Ends, QueueProc, run, me, Calm(), gaps, s, n);
  }

  /** The same for the sender's cycle, up to its release or from there to its end. */
  lemma SenderBodyInRun(run: Run, me: Id, hints: nat -> Hint, gaps: nat -> seq<Event>, ends: Sender.Step -> bool,
                        s: Sender.Step, n: nat)
    requires Stands(run, me, SenderProc(s)) && OfOthers(me, gaps)
    ensures Follows(Play(SenderBodies.Machine(me, hints), ends, Nothing, 0, s, Met(run, me, hints, gaps), n),
                    SenderProc, run, me, hints, gaps)
  {
    hide Follows, Stands, Mirrors, Play, Met, OfOthers, SenderBodies.Machine;
    SenderMirrors(me, hints, ends);
    BodyInRun(SenderBodies.Machine(me, hints), ends, SenderProc, run, me, hints, gaps, s, n);
  }

  /** The same for the draft writers. */
  lemma LetterBodyInRun(run: Run, me: Id, hints: nat -> Hint, gaps: nat -> seq<Event>, s: Letters.Step, n: nat)
    requires Stands(run, me, LettersProc(s)) && OfOthers(me, gaps)
    ensures Follows(Play(LetterBodies.Machine(me, hints), LetterBodies.Ends, Nothing, 0, s,
                         Met(run, me, hints, gaps), n),
                    LettersProc, run, me, hints, gaps)
  {
    hide Follows, Stands, Mirrors, Play, Met, OfOthers, LetterBodies.Machine;
    LettersMirror(me, hints);
    BodyInRun(LetterBodies.Machine(me, hints), LetterBodies.Ends, LettersProc, run, me, hints, gaps, s, n);
  }

  /** The same for decisions. */
  lemma ReviewBodyInRun(run: Run, me: Id, gaps: nat -> seq<Event>, s: Review.Step, n: nat)
    requires Stands(run, me, ReviewProc(s)) && OfOthers(me, gaps)
    ensures Follows(Play(ReviewBodies.Machine(me), ReviewBodies.Ends, Nothing, 0, s, Met(run, me, Calm(), gaps), n),
                    ReviewProc, run, me, Calm(), gaps)
  {
    hide Follows, Stands, Mirrors, Play, Met, OfOthers, ReviewBodies.Machine;
    ReviewMirrors(me);
    BodyInRun(ReviewBodies.Machine(me), ReviewBodies.Ends, ReviewProc, run, me, Calm(), gaps, s, n);
  }

  /** The same for an enrichment. */
  lemma EnrichBodyInRun(run: Run, me: Id, page: Page, hints: nat -> Hint, gaps: nat -> seq<Event>, s: Attempt<Enrich>,
                        n: nat)
    requires Stands(run, me, EnrichProc(page)(s)) && OfOthers(me, gaps)
    ensures Follows(Play(ReviewBodies.EnrichMachine(me, page, None, hints), ReviewBodies.EnrichHalts(), Nothing, 0, s,
                         Met(run, me, hints, gaps), n),
                    EnrichProc(page), run, me, hints, gaps)
  {
    hide Follows, Stands, Mirrors, Play, Met, OfOthers, ReviewBodies.EnrichMachine;
    EnrichMirrors(me, page, hints);
    BodyInRun(ReviewBodies.EnrichMachine(me, page, None, hints), ReviewBodies.EnrichHalts(), EnrichProc(page), run, me,
              hints, gaps, s, n);
  }

  /** The same for the refresh or insert of a found vacancy. */
  lemma PersistBodyInRun(run: Run, me: Id, hints: nat -> Hint, gaps: nat -> seq<Event>, s: Attempt<Persist>, n: nat)
    requires Stands(run, me, PersistProc()(s)) && OfOthers(me, gaps)
    ensures Follows(Play(ReviewBodies.PersistMachine(me, hints), ReviewBodies.PersistHalts(), Nothing, 0, s,
                         Met(run, me, hints, gaps), n),
                    PersistProc(), run, me, hints, gaps)
  {
    hide Follows, Stands, Mirrors, Play, Met, OfOthers, ReviewBodies.PersistMachine;
    PersistMirrors(me, hints);
    BodyInRun(ReviewBodies.PersistMachine(me, hints), ReviewBodies.PersistHalts(), PersistProc(), run, me, hints,
              gaps, s, n);
  }

  /** The same for a scorer. */
  lemma ScoringBodyInRun(run: Run, me: Id, hints: nat -> Hint, gaps: nat -> seq<Event>, s: Claims.Step, n: nat)
    requires Stands(run, me, ScoringProc(s)) && OfOthers(me, gaps)
    ensures Follows(Play(ScoringBodies.Machine(me, hints), ScoringBodies.Ends, Nothing, 0, s,
                         Met(run, me, hints, gaps), n),
                    ScoringProc, run, me, hints, gaps)
  {
    hide Follows, Stands, Mirrors, Play, Met, OfOthers, ScoringBodies.Machine;
    ScoringMirrors(me, hints);
    BodyInRun(ScoringBodies.Machine(me, hints), ScoringBodies.Ends, ScoringProc, run, me, hints, gaps, s, n);
  }

  /** The same for resume with its new batch, pause and stop. */
  lemma ControlBodyInRun(run: Run, me: Id, gaps: nat -> seq<Event>, s: Control.Step, n: nat)
    requires Stands(run, me, ControlProc(s)) && OfOthers(me, gaps)
    ensures Follows(Play(ControlBodies.Machine(me), ControlBodies.Ends, Nothing, 0, s, Met(run, me, Calm(), gaps), n),
                    ControlProc, run, me, Calm(), gaps)
  {
    hide Follows, Stands, Mirrors, Play, Met, OfOthers, ControlBodies.Machine;
    ControlMirrors(me);
    BodyInRun(ControlBodies.Machine(me), ControlBodies.Ends, ControlProc, run, me, Calm(), gaps, s, n);
  }
}
