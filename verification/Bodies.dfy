/** Service bodies against the step machine: a body runs statement after statement on a database that the other
    requests may have changed at every `await`, and plays the machine's steps on whatever it finds. So what is
    proved of all runs holds of these bodies. */
module Bodies {
  import opened Options
  import opened Tables
  import opened Enrichment

  /** The machine `act` on a database that is `env(i)` when the request's statement `i` runs: the database after
      each statement, and where the request stands after at most `n` of them or at its end. */
  function Play<S(!new)>(act: (nat, Db, S) -> (Db, S), ends: S -> bool, log: Log, i: nat, s: S, env: nat -> Db, n: nat)
      : (Log, S)
    decreases n
  {
    if n == 0 || ends(s) then (log, s)
    else
      var (now, next) := act(i, env(i), s);
      Play(act, ends, Then(log, now), i + 1, next, env, n - 1)
  }

  /** One statement of the request. */
  lemma Tick<S(!new)>(act: (nat, Db, S) -> (Db, S), ends: S -> bool, log: Log, i: nat, s: S, env: nat -> Db, n: nat,
                      now: Db, next: S)
    requires n > 0 && !ends(s) && act(i, env(i), s) == (now, next)
    ensures Play(act, ends, log, i, s, env, n) == Play(act, ends, Then(log, now), i + 1, next, env, n - 1)
    ensures ends(next) ==> Play(act, ends, log, i, s, env, n) == (Then(log, now), next)
  {
  }

  /** The number of statements on record. */
  function Size(log: Log): nat { if log.Nothing? then 0 else Size(log.before) + 1 }

  // ---------------------------------------------------------------- statements that may raise

  /** Where a call stands: at a statement, or left by a cancellation or an exception. */
  datatype Attempt<S> = Ran(at: S) | Stopped(cancelled: bool)

  function Attempted<S>(m: Mishap, next: S): Attempt<S> { if m.Fine? then Ran(next) else Stopped(m.Cut?) }

  /** A machine whose statements end as `hints` say. */
  function Attempting<S(!new)>(act: (nat, Db, S) -> (Db, S), hints: nat -> Hint)
      : (nat, Db, Attempt<S>) -> (Db, Attempt<S>)
  {
    (i: nat, db: Db, s: Attempt<S>) =>
      if s.Stopped? then (db, s)
      else (Landed(db, act(i, db, s.at).0, hints(i).mishap), Attempted(hints(i).mishap, act(i, db, s.at).1))
  }

  function Halts<S(!new)>(ends: S -> bool): Attempt<S> -> bool { (s: Attempt<S>) => s.Stopped? || ends(s.at) }

  // ---------------------------------------------------------------- a call inside a request

  /** The outer machine does what the inner one does, as long as the inner call is under way. */
  ghost predicate Embeds<E(!new), S(!new)>(inner: (nat, Db, E) -> (Db, E), innerEnds: E -> bool,
                                           outer: (nat, Db, S) -> (Db, S), outerEnds: S -> bool, lift: E -> S)
  {
    && (forall x: E | !innerEnds(x) :: !outerEnds(lift(x)))
    && (forall j: nat, db: Db, x: E | !innerEnds(x) ::
          outer(j, db, lift(x)) == (inner(j, db, x).0, lift(inner(j, db, x).1)))
  }

  /** What is proved of a call holds of the request that makes it. */
  lemma {:induction false} Embedded<E(!new), S(!new)>(
      inner: (nat, Db, E) -> (Db, E), innerEnds: E -> bool, outer: (nat, Db, S) -> (Db, S), outerEnds: S -> bool,
      lift: E -> S, log: Log, i: nat, e: E, env: nat -> Db, m: nat, n: nat, log': Log, e': E)
    requires Embeds(inner, innerEnds, outer, outerEnds, lift) && n >= m
    requires Play(inner, innerEnds, log, i, e, env, m) == (log', e')
    ensures Size(log) <= Size(log') <= Size(log) + m
    ensures var used := Size(log') - Size(log);
            Play(outer, outerEnds, log, i, lift(e), env, n) ==
            Play(outer, outerEnds, log', i + used, lift(e'), env, n - used)
    decreases m
  {
    if m > 0 && !innerEnds(e) {
      var (now, next) := inner(i, env(i), e);
      Tick(outer, outerEnds, log, i, lift(e), env, n, now, lift(next));
      Embedded(inner, innerEnds, outer, outerEnds, lift, Then(log, now), i + 1, next, env, m - 1, n - 1, log', e');
    }
  }
}
