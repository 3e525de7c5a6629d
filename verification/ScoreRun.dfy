/** The circuit breaker around a scoring run (`score_user` in backend/app/services/pipeline_scoring.py), once
    the candidate context has loaded. */
module ScoreRun {

  const HH_CIRCUIT_BREAKER_THRESHOLD := 2

  /** What `score_one` returns for a row. */
  datatype Outcome = Scored | HardFiltered | Archived | Retryable | TransientError | Failed | Skipped

  datatype Summary = Summary(found: nat, scored: nat, hardFiltered: nat, archived: nat, errors: nat,
                             retryableErrors: nat, skipped: nat, circuitBreaker: nat)

  predicate Transient(o: Outcome) { o.Retryable? || o.TransientError? }

  /** How many of the outcomes are among `kinds`. */
  function Count(outcomes: seq<Outcome>, kinds: set<Outcome>): nat
  {
    if outcomes == [] then 0
    else Count(outcomes[..|outcomes| - 1], kinds) + if outcomes[|outcomes| - 1] in kinds then 1 else 0
  }

  /** The rows attempted: all, or up to the end of the first two transient outcomes in a row. */
  function Attempted(outcomes: seq<Outcome>): (n: nat)
    ensures n <= |outcomes|
  {
    if |outcomes| < 2 then |outcomes|
    else if Transient(outcomes[0]) && Transient(outcomes[1]) then 2
    else 1 + Attempted(outcomes[1..])
  }

  /** Two transient outcomes in a row, the second at `i`. */
  predicate PairAt(outcomes: seq<Outcome>,
      i: nat) { 0 < i < |outcomes| && Transient(outcomes[i - 1]) && Transient(outcomes[i]) }

  /** A pair before the end is where the attempts stop, and they stop early nowhere else. */
  lemma {:induction false} AttemptedStops(outcomes: seq<Outcome>)
    ensures var n := Attempted(outcomes);
            && (n < |outcomes| ==> n >= 2 && PairAt(outcomes, n - 1))
            && (forall i | 0 < i < n - 1 :: !PairAt(outcomes, i))
    decreases |outcomes|
  {
    if |outcomes| >= 2 && !(Transient(outcomes[0]) && Transient(outcomes[1])) {
      AttemptedStops(outcomes[1..]);
      var n := Attempted(outcomes);
      forall i | 0 < i < n - 1 ensures !PairAt(outcomes, i) {
        if i > 1 {
          assert !PairAt(outcomes[1..], i - 1);
        }
      }
      assert n < |outcomes| ==> PairAt(outcomes[1..], n - 2);
    }
  }

  /** The first pair settles how many rows are attempted. */
  lemma {:induction false} AttemptedIs(outcomes: seq<Outcome>, n: nat)
    requires n <= |outcomes| && (n < |outcomes| ==> n >= 2 && PairAt(outcomes, n - 1))
    requires forall i | 0 < i < n - 1 :: !PairAt(outcomes, i)
    ensures Attempted(outcomes) == n
    decreases |outcomes|
  {
    if |outcomes| >= 2 {
      if Transient(outcomes[0]) && Transient(outcomes[1]) {
        assert PairAt(outcomes, 1);
      } else {
        assert n >= 1;
        forall i | 0 < i < n - 2 ensures !PairAt(outcomes[1..], i) {
          assert !PairAt(outcomes, i + 1);
        }
        assert n < |outcomes| ==> PairAt(outcomes, n - 1);
        AttemptedIs(outcomes[1..], n - 1);
      }
    }
  }

  /** Each attempted row is counted once, under its outcome. */
  predicate Counts(s: Summary, found: nat, done: seq<Outcome>)
  {
    && s.found == found
    && s.scored == Count(done, {Scored}) && s.hardFiltered == Count(done, {HardFiltered})
    && s.archived == Count(done, {Archived}) && s.errors == Count(done, {Failed, TransientError})
    && s.retryableErrors == Count(done, {Retryable}) && s.skipped == Count(done, {Skipped})
  }

  /** The outcomes of the rows, were all of them attempted, settle the run. */
  method ScoreUser(outcomes: seq<Outcome>) returns (s: Summary, attempted: nat)
    ensures attempted == Attempted(outcomes) && Counts(s, |outcomes|, outcomes[..attempted])
    ensures s.circuitBreaker == if attempted > 0 && PairAt(outcomes, attempted - 1) then 1 else 0
  {
    s := Summary(|outcomes|, 0, 0, 0, 0, 0, 0, 0);
    var transientStreak := 0;
    attempted := 0;
    while attempted < |outcomes|
      invariant attempted <= |outcomes| && Counts(s, |outcomes|, outcomes[..attempted]) && s.circuitBreaker == 0
      invariant transientStreak == if attempted > 0 && Transient(outcomes[attempted - 1]) then 1 else 0
      invariant forall i | 0 < i < attempted :: !PairAt(outcomes, i)
    {
      var outcome := outcomes[attempted];
      assert outcomes[..attempted + 1][..attempted] == outcomes[..attempted];
      match outcome {
        case Scored => s := s.(scored := s.scored + 1); transientStreak := 0;
        case HardFiltered => s := s.(hardFiltered := s.hardFiltered + 1); transientStreak := 0;
        case Archived => s := s.(archived := s.archived + 1); transientStreak := 0;
        case Retryable => s := s.(retryableErrors := s.retryableErrors + 1); transientStreak := transientStreak + 1;
        case TransientError => s := s.(errors := s.errors + 1); transientStreak := transientStreak + 1;
        case Failed => s := s.(errors := s.errors + 1); transientStreak := 0;
        case Skipped => s := s.(skipped := s.skipped + 1); transientStreak := 0;
      }
      attempted := attempted + 1;
      if transientStreak >= HH_CIRCUIT_BREAKER_THRESHOLD {
        s := s.(circuitBreaker := 1);
        break;
      }
    }
    AttemptedIs(outcomes, attempted);
  }

  /** The counters of a run add up to the rows attempted. */
  lemma {:induction false} CountersSum(s: Summary, found: nat, done: seq<Outcome>)
    requires Counts(s, found, done)
    ensures s.scored + s.hardFiltered + s.archived + s.errors + s.retryableErrors + s.skipped == |done|
    decreases |done|
  {
    if done != [] {
      var was := done[..|done| - 1];
      CountersSum(Summary(found, Count(was, {Scored}), Count(was, {HardFiltered}), Count(was, {Archived}),
                          Count(was, {Failed, TransientError}), Count(was, {Retryable}), Count(was, {Skipped}), 0),
                              found, was);
      match done[|done| - 1] {
        case Scored =>
        case HardFiltered =>
        case Archived =>
        case Retryable =>
        case TransientError =>
        case Failed =>
        case Skipped =>
      }
    }
  }

  /** The breaker opens exactly if the last two attempted rows were transient; otherwise every row is
      attempted; and three transient outcomes in a row are never attempted. */
  lemma BreakerStopsTheRun(outcomes: seq<Outcome>)
    ensures var n := Attempted(outcomes);
            && (n < |outcomes| ==> PairAt(outcomes, n - 1))
            && (forall i | 1 < i < n :: !(PairAt(outcomes, i - 1) && PairAt(outcomes, i)))
  {
    AttemptedStops(outcomes);
  }

  /** A run of more than two rows ends after the second exactly if both were to be tried again or failed for good on a
      transient error. */
  lemma StopsAfterTwoIff(first: Outcome, second: Outcome, rest: seq<Outcome>)
    requires rest != []
    ensures Attempted([first, second] + rest) == 2 <==>
            && (first == Retryable || first == TransientError) && (second == Retryable || second == TransientError)
  {
    var outcomes := [first, second] + rest;
    assert outcomes[0] == first && outcomes[1] == second && |outcomes[1..]| == 1 + |rest|;
    AttemptedIsPositive(outcomes[1..]);
  }

  lemma AttemptedIsPositive(outcomes: seq<Outcome>)
    ensures |outcomes| >= 2 ==> Attempted(outcomes) >= 2
  {
    if |outcomes| >= 2 && !(Transient(outcomes[0]) && Transient(outcomes[1])) {
      assert outcomes[1..] != [];
      assert Attempted(outcomes[1..]) >= 1;
    }
  }
}
