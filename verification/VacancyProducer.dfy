/** The round-robin merge of candidate streams under a budget (`produce_jobs` in
    backend/app/services/vacancy_producer.py). */
module VacancyProducer {

  /** HH vacancy ids. */
  type Id = nat

  const MAX_PUSH_PER_RUN := 30

  /** A vacancy that was queued, and the filter whose turn it was. */
  datatype Queued = Queued(vacancy: Id, filter: nat)

  function SetOf(ids: seq<Id>): set<Id> { set x | x in ids }

  function Vacancies(queue: seq<Queued>): set<Id> { set q | q in queue :: q.vacancy }

  /** What a run hands to the queue and where it leaves the streams. */
  datatype Outcome = Outcome(queue: seq<Queued>, taken: seq<nat>, live: seq<nat>)

  predicate Distinct<T(==)>(s: seq<T>) { forall i, j | 0 <= i < j < |s| :: s[i] != s[j] }

  /** No vacancy is queued twice. */
  predicate NoTwice(queue: seq<Queued>) { forall i, j | 0 <= i < j < |queue| :: queue[i].vacancy != queue[j].vacancy }

  /** `taken[i]` ids were taken from stream `i`; the ids taken are the ids queued. */
  predicate TakenAreQueued(streams: seq<seq<Id>>, taken: seq<nat>, queue: seq<Queued>)
    requires |taken| == |streams| && forall i | 0 <= i < |taken| :: taken[i] <= |streams[i]|
  {
    && (forall i, k | 0 <= i < |streams| && 0 <= k < taken[i] :: streams[i][k] in Vacancies(queue))
    && (forall q | q in queue :: q.filter < |streams| && q.vacancy in streams[q.filter][..taken[q.filter]])
  }

  predicate Sized(streams: seq<seq<Id>>, taken: seq<nat>)
  {
    |taken| == |streams| && forall i | 0 <= i < |streams| :: taken[i] <= |streams[i]|
  }

  /** The ids still to come from all streams. */
  function Remaining(streams: seq<seq<Id>>, taken: seq<nat>): nat
    requires Sized(streams, taken)
  {
    if streams == [] then 0 else |streams[0]| - taken[0] + Remaining(streams[1..], taken[1..])
  }

  lemma {:induction false} RemainingDrops(streams: seq<seq<Id>>, taken: seq<nat>, i: nat)
    requires |taken| == |streams| && forall j | 0 <= j < |taken| :: taken[j] <= |streams[j]|
    requires i < |streams| && taken[i] < |streams[i]|
    ensures Remaining(streams, taken[i := taken[i] + 1]) == Remaining(streams, taken) - 1
    decreases |streams|
  {
    if i > 0 {
      assert taken[i := taken[i] + 1][1..] == taken[1..][i - 1 := taken[i] + 1];
      RemainingDrops(streams[1..], taken[1..], i - 1);
    } else {
      assert taken[i := taken[i] + 1][1..] == taken[1..];
    }
  }

  /** `active.remove(idx)` where `idx` stands at `p`. */
  function Without(active: seq<nat>, p: nat): seq<nat>
    requires p < |active|
  {
    active[..p] + active[p + 1..]
  }

  // ---------------------------------------------------------------- turns

  /** The positions from `a` up to `b`, around the list. */
  predicate InArc(a: nat, b: nat, j: nat) { if a <= b then a <= j < b else j >= a || j < b }

  /** Since the last removal each live filter had `rounds` turns, and one more if the cursor has passed it. */
  predicate EvenTurns(active: seq<nat>, base: seq<nat>, taken: seq<nat>, start: nat, p: nat, rounds: nat)
  {
    && |base| == |taken| && (forall j | 0 <= j < |active| :: active[j] < |taken|)
    && forall j | 0 <= j < |active| ::
         taken[active[j]] == base[active[j]] + rounds + if InArc(start, p, j) then 1 else 0
  }

  /** Any two live filters differ by at most `gap` turns. */
  predicate WithinGap(active: seq<nat>, taken: seq<nat>, gap: nat)
    requires forall j | 0 <= j < |active| :: active[j] < |taken|
  {
    forall i, j | 0 <= i < |active| && 0 <= j < |active| :: taken[active[i]] <= taken[active[j]] + gap
  }

  lemma TurnTaken(active: seq<nat>, base: seq<nat>, taken: seq<nat>, start: nat, p: nat, rounds: nat)
    requires EvenTurns(active, base, taken, start, p, rounds) && Distinct(active)
    requires start < |active| && p < |active|
    ensures var now, next := taken[active[p] := taken[active[p]] + 1], if p + 1 < |active| then p + 1 else 0;
            EvenTurns(active, base, now, start, next, if next == start then rounds + 1 else rounds)
  {
  }

  lemma EpochEnds(active: seq<nat>, base: seq<nat>, taken: seq<nat>, start: nat, p: nat, rounds: nat,
                  removed: nat, at: nat)
    requires EvenTurns(active, base, taken, start, p, rounds) && WithinGap(active, base, removed) && at < |active|
    ensures WithinGap(active, taken, removed + 1)
    ensures WithinGap(Without(active, at), taken, removed + 1)
  {
    forall i, j | 0 <= i < |active| && 0 <= j < |active| ensures taken[active[i]] <= taken[active[j]] + removed + 1 {
      assert base[active[i]] <= base[active[j]] + removed;
    }
  }

  /** The place in the list that the cursor points at. */
  function Slot(cursor: nat, m: nat): (p: nat)
    requires m > 0
    ensures p < m
  {
    cursor % m
  }

  lemma StepOfCursor(cursor: nat, m: nat)
    requires m > 0
    ensures Slot(cursor + 1, m) == if Slot(cursor, m) + 1 < m then Slot(cursor, m) + 1 else 0
  {
    var q, p := cursor / m, cursor % m;
    assert cursor + 1 == q * m + p + 1;
    if p + 1 == m {
      assert cursor + 1 == (q + 1) * m;
      ModIs(cursor + 1, q + 1, 0, m);
    } else {
      ModIs(cursor + 1, q, p + 1, m);
    }
  }

  lemma MulAtLeast(k: int, m: int)
    requires k >= 1 && m > 0
    ensures k * m >= m
  {
    assert k * m == (k - 1) * m + m;
  }

  lemma ModIs(a: nat, q: nat, r: nat, m: nat)
    requires r < m && a == q * m + r
    ensures a % m == r && a / m == q
  {
    DivisionIsUnique(a / m, a % m, q, r, m);
  }

  lemma DivisionIsUnique(q: int, r: int, q': int, r': int, m: int)
    requires 0 <= r < m && 0 <= r' < m && q * m + r == q' * m + r'
    ensures q == q' && r == r'
  {
    Apart(q, q', m);
    Apart(q', q, m);
  }

  lemma Apart(q: int, q': int, m: int)
    requires m > 0
    ensures q > q' ==> q * m >= q' * m + m
  {
    if q > q' {
      MulAtLeast(q - q', m);
      assert (q - q') * m == q * m - q' * m;
    }
  }

  // ---------------------------------------------------------------- the run

  /** The ids so far, and which filters are still live. */
  ghost predicate Merged(streams: seq<seq<Id>>, taken: seq<nat>, queue: seq<Queued>, active: seq<nat>)
  {
    && |taken| == |streams| && (forall i | 0 <= i < |streams| :: taken[i] <= |streams[i]|)
    && NoTwice(queue) && TakenAreQueued(streams, taken, queue)
    && |active| <= |streams| && Distinct(active) && (forall j | 0 <= j < |active| :: active[j] < |streams|)
    && (forall i | 0 <= i < |streams| && i !in active :: taken[i] == |streams[i]|)
  }

  /** The turns since the last removal are even, and before it the gap was bounded by the removals. */
  ghost predicate Fair(taken: seq<nat>, active: seq<nat>, cursor: nat, base: seq<nat>, start: nat, rounds: nat,
                       removed: nat)
  {
    && (forall j | 0 <= j < |active| :: active[j] < |base|) && WithinGap(active, base, removed)
    && (active != [] ==> start < |active| && EvenTurns(active, base, taken, start, Slot(cursor, |active|), rounds))
  }

  lemma MergedAtStart(streams: seq<seq<Id>>, taken: seq<nat>, active: seq<nat>)
    requires |taken| == |streams| && |active| == |streams|
    requires forall i | 0 <= i < |streams| :: taken[i] == 0 && active[i] == i
    ensures Merged(streams, taken, [], active) && Fair(taken, active, 0, taken, 0, 0, 0)
    ensures Sized(streams, taken) && Vacancies([]) == {}
  {
    forall i | 0 <= i < |streams| ensures i in active { assert active[i] == i; }
    if active != [] {
      ModIs(0, 0, 0, |active|);
    }
  }

  lemma RemovedOnly(active: seq<nat>, p: nat)
    requires p < |active| && Distinct(active)
    ensures Distinct(Without(active, p)) && forall x :: x in Without(active, p) <==> x in active && x != active[p]
  {
    var rest := Without(active, p);
    forall x | x in active && x != active[p] ensures x in rest {
      var i :| 0 <= i < |active| && active[i] == x;
      assert if i < p then rest[i] == x else rest[i - 1] == x;
    }
  }

  lemma Remove(streams: seq<seq<Id>>, taken: seq<nat>, queue: seq<Queued>, active: seq<nat>, cursor: nat,
               base: seq<nat>, start: nat, rounds: nat, removed: nat, p: nat)
    requires active != [] && p == Slot(cursor, |active|) && Merged(streams, taken, queue, active)
    requires Fair(taken, active, cursor, base, start, rounds, removed) && taken[active[p]] == |streams[active[p]]|
    ensures Merged(streams, taken, queue, Without(active, p)) && |Without(active, p)| == |active| - 1
    ensures var rest := Without(active, p);
            Fair(taken, rest, cursor, taken, if rest == [] then 0 else Slot(cursor, |rest|), 0, removed + 1)
  {
    hide TakenAreQueued, NoTwice;
    RemovedOnly(active, p);
    EpochEnds(active, base, taken, start, p, rounds, removed, p);
  }

  // Taking one more id from a stream, queued before or now.
  lemma TakeOne(streams: seq<seq<Id>>, taken: seq<nat>, queue: seq<Queued>, idx: nat)
    requires |taken| == |streams| && forall i | 0 <= i < |taken| :: taken[i] <= |streams[i]|
    requires TakenAreQueued(streams, taken, queue) && idx < |streams| && taken[idx] < |streams[idx]|
    ensures var now, vid := taken[idx := taken[idx] + 1], streams[idx][taken[idx]];
            && (vid in Vacancies(queue) ==> TakenAreQueued(streams, now, queue))
            && Vacancies(queue + [Queued(vid, idx)]) == Vacancies(queue) + {vid}
            && TakenAreQueued(streams, now, queue + [Queued(vid, idx)])
  {
  }

  lemma NotTwice(queue: seq<Queued>, q: Queued)
    requires NoTwice(queue) && q.vacancy !in Vacancies(queue)
    ensures NoTwice(queue + [q])
  {
    forall i | 0 <= i < |queue| ensures queue[i].vacancy != q.vacancy { assert queue[i] in queue; }
  }

  lemma Take(streams: seq<seq<Id>>, taken: seq<nat>, queue: seq<Queued>, active: seq<nat>, idx: nat)
    requires Merged(streams, taken, queue, active) && idx in active && taken[idx] < |streams[idx]|
    ensures var now, vid := taken[idx := taken[idx] + 1], streams[idx][taken[idx]];
            && Remaining(streams, now) < Remaining(streams, taken)
            && Vacancies(queue + [Queued(vid, idx)]) == Vacancies(queue) + {vid}
            && Sized(streams, now) && Merged(streams, now,
                if vid in Vacancies(queue) then queue else queue + [Queued(vid, idx)], active)
  {
    hide Vacancies, TakenAreQueued, NoTwice;
    var vid := streams[idx][taken[idx]];
    RemainingDrops(streams, taken, idx);
    TakeOne(streams, taken, queue, idx);
    if vid !in Vacancies(queue) {
      NotTwice(queue, Queued(vid, idx));
    }
  }

  lemma Turn(taken: seq<nat>, active: seq<nat>, cursor: nat, base: seq<nat>, start: nat, rounds: nat, removed: nat)
    requires active != [] && Distinct(active) && Fair(taken, active, cursor, base, start, rounds, removed)
    ensures var idx := active[Slot(cursor, |active|)];
            idx < |taken| && Fair(taken[idx := taken[idx] + 1], active, cursor + 1, base, start,
                                  if Slot(cursor + 1, |active|) == start then rounds + 1 else rounds, removed)
  {
    hide WithinGap, Distinct, InArc;
    StepOfCursor(cursor, |active|);
    TurnTaken(active, base, taken, start, Slot(cursor, |active|), rounds);
  }

  lemma FairEnd(taken: seq<nat>, active: seq<nat>, cursor: nat, base: seq<nat>, start: nat, rounds: nat, removed: nat)
    requires Fair(taken, active, cursor, base, start, rounds, removed)
    ensures (forall j | 0 <= j < |active| :: active[j] < |taken|) && WithinGap(active, taken, 1 + removed)
  {
    if active != [] {
      EpochEnds(active, base, taken, start, Slot(cursor, |active|), rounds, removed, 0);
    }
  }

  /** What the loop maintains; `base`, `start` and `rounds` describe the turns since the last removal. */
  ghost predicate LoopOk(streams: seq<seq<Id>>, taken: seq<nat>, queue: seq<Queued>, active: seq<nat>, cursor: nat,
                         seen: set<Id>, base: seq<nat>, start: nat, rounds: nat)
  {
    && |queue| <= MAX_PUSH_PER_RUN && seen == Vacancies(queue) && Sized(streams, taken)
    && Merged(streams, taken, queue, active)
    && Fair(taken, active, cursor, base, start, rounds, |streams| - |active|)
  }

  lemma LoopAt(streams: seq<seq<Id>>, taken: seq<nat>, queue: seq<Queued>, active: seq<nat>, cursor: nat,
               seen: set<Id>, base: seq<nat>, start: nat, rounds: nat)
    requires LoopOk(streams, taken, queue, active, cursor, seen, base, start, rounds)
    ensures Sized(streams, taken)
    ensures active != [] ==> active[Slot(cursor, |active|)] < |streams|
  {
  }

  lemma LoopRemoves(streams: seq<seq<Id>>, taken: seq<nat>, queue: seq<Queued>, active: seq<nat>, cursor: nat,
                    seen: set<Id>, base: seq<nat>, start: nat, rounds: nat)
    requires LoopOk(streams, taken, queue, active, cursor, seen, base, start, rounds) && active != []
    requires var idx := active[Slot(cursor, |active|)]; idx < |streams| && idx < |taken| && taken[idx] == |streams[idx]|
    ensures var rest := Without(active, Slot(cursor, |active|));
            LoopOk(streams, taken, queue, rest, cursor, seen, taken, if rest == [] then 0 else Slot(cursor, |rest|), 0)
  {
    hide Vacancies, WithinGap, Fair, Slot;
    Remove(streams, taken, queue, active, cursor, base, start, rounds, |streams| - |active|, Slot(cursor, |active|));
  }

  lemma LoopTakes(streams: seq<seq<Id>>, taken: seq<nat>, queue: seq<Queued>, active: seq<nat>, cursor: nat,
                  seen: set<Id>, base: seq<nat>, start: nat, rounds: nat)
    requires LoopOk(streams, taken, queue, active, cursor, seen, base, start, rounds)
    requires active != [] && |queue| < MAX_PUSH_PER_RUN
    requires var idx := active[Slot(cursor, |active|)]; idx < |streams| && idx < |taken| && taken[idx] < |streams[idx]|
    ensures var idx := active[Slot(cursor, |active|)];
            var vid, now := streams[idx][taken[idx]], taken[idx := taken[idx] + 1];
            var next := if Slot(cursor + 1, |active|) == start then rounds + 1 else rounds;
            && Sized(streams, taken) && Sized(streams, now) && Remaining(streams, now) < Remaining(streams, taken)
            && (if vid in seen then LoopOk(streams, now, queue, active, cursor + 1, seen, base, start, next)
                else LoopOk(streams, now, queue + [Queued(vid, idx)], active, cursor + 1, seen + {vid},
                            base, start, next))
  {
    hide Vacancies, WithinGap, Fair, Slot, TakenAreQueued, NoTwice, Remaining;
    Take(streams, taken, queue, active, active[Slot(cursor, |active|)]);
    Turn(taken, active, cursor, base, start, rounds, |streams| - |active|);
  }

  // ---------------------------------------------------------------- full rounds

  /** No id stands in two places. */
  predicate AllApart(streams: seq<seq<Id>>)
  {
    forall i, j, k, l | 0 <= i < |streams| && 0 <= j < |streams| && 0 <= k < |streams[i]| && 0 <= l < |streams[j]| ::
      streams[i][k] == streams[j][l] ==> i == j && k == l
  }

  function Least(a: nat, b: nat): nat { if a < b then a else b }

  /** The length of the shortest stream. */
  function Shortest(streams: seq<seq<Id>>): (n: nat)
    requires streams != []
    ensures forall i | 0 <= i < |streams| :: n <= |streams[i]|
  {
    if |streams| == 1 then |streams[0]|
    else
      var rest := Shortest(streams[1..]);
      assert forall i | 0 < i < |streams| :: streams[i] == streams[1..][i - 1];
      Least(|streams[0]|, rest)
  }

  /** How many ids come before any stream can run dry. */
  function FullRounds(streams: seq<seq<Id>>): nat { if streams == [] then 0 else Shortest(streams) * |streams| }

  /** Whose turn is turn `n` of the rounds of `m` filters: one each, from the first one on. */
  function FilterAt(n: nat, m: nat): (f: nat)
    requires m > 0
    ensures f < m
  {
    n % m
  }

  /** How many rounds are over at turn `n`. */
  function RoundAt(n: nat, m: nat): nat
    requires m > 0
  {
    n / m
  }

  /** The filters take turns, one id each, from the first filter on: the first `n` jobs. */
  predicate InRounds(streams: seq<seq<Id>>, queue: seq<Queued>, n: nat)
    requires streams != []
  {
    n > 0 ==>
      var f, r := FilterAt(n - 1, |streams|), RoundAt(n - 1, |streams|);
      && n - 1 < |queue| && r < |streams[f]| && queue[n - 1] == Queued(streams[f][r], f)
      && InRounds(streams, queue, n - 1)
  }

  /** The turns of filter `f` in the first `n`. */
  function TurnsOf(n: nat, m: nat, f: nat): nat
    requires m > 0
  {
    RoundAt(n, m) + if f < FilterAt(n, m) then 1 else 0
  }

  /** Before any stream can run dry the loop is `|queue|` turns into the rounds. */
  predicate IsInRounds(streams: seq<seq<Id>>, taken: seq<nat>, queue: seq<Queued>, active: seq<nat>, cursor: nat)
    requires streams != []
  {
    && InRounds(streams, queue, Least(|queue|, FullRounds(streams)))
    && (|queue| < FullRounds(streams) ==>
          && cursor == |queue| && |active| == |taken| == |streams|
          && forall f | 0 <= f < |streams| :: active[f] == f && taken[f] == TurnsOf(|queue|, |streams|, f))
  }

  lemma {:induction false} RoundsStay(streams: seq<seq<Id>>, queue: seq<Queued>, n: nat, q: Queued)
    requires streams != [] && InRounds(streams, queue, n)
    ensures InRounds(streams, queue + [q], n)
  {
    hide FilterAt, RoundAt;
    if n > 0 {
      RoundsStay(streams, queue, n - 1, q);
    }
  }

  lemma {:induction false} RoundsAt(streams: seq<seq<Id>>, queue: seq<Queued>, n: nat, k: nat)
    requires streams != [] && InRounds(streams, queue, n) && k < n
    ensures var f, r := FilterAt(k, |streams|), RoundAt(k, |streams|);
            k < |queue| && r < |streams[f]| && queue[k] == Queued(streams[f][r], f)
  {
    hide FilterAt, RoundAt;
    if k < n - 1 {
      RoundsAt(streams, queue, n - 1, k);
    }
  }

  lemma LessRounds(a: nat, b: nat, m: nat)
    ensures a * m < b * m ==> a < b
  {
    if a >= b {
      assert (a - b) * m >= 0;
    }
  }

  lemma InsideRound(n: nat, m: nat, rounds: nat)
    requires m > 0 && n < rounds * m
    ensures RoundAt(n, m) < rounds
  {
    assert n == n / m * m + n % m;
    LessRounds(n / m, rounds, m);
  }

  lemma NextTurn(n: nat, m: nat)
    requires m > 0
    ensures forall f | 0 <= f < m :: TurnsOf(n + 1, m, f) == TurnsOf(n, m, f) + if f == FilterAt(n, m) then 1 else 0
  {
    var q, r := n / m, n % m;
    assert n == q * m + r;
    if r + 1 < m {
      ModIs(n + 1, q, r + 1, m);
    } else {
      assert (q + 1) * m == q * m + m;
      ModIs(n + 1, q + 1, 0, m);
    }
  }

  lemma SameTurn(k: nat, n: nat, m: nat)
    requires m > 0 && FilterAt(k, m) == FilterAt(n, m) && RoundAt(k, m) == RoundAt(n, m)
    ensures k == n
  {
    assert k == k / m * m + k % m && n == n / m * m + n % m;
  }

  lemma ApartAt(streams: seq<seq<Id>>, i: nat, k: nat, j: nat, l: nat)
    requires AllApart(streams) && i < |streams| && j < |streams| && k < |streams[i]| && l < |streams[j]|
    requires streams[i][k] == streams[j][l]
    ensures i == j && k == l
  {
  }

  lemma NotQueuedAt(streams: seq<seq<Id>>, queue: seq<Queued>, f: nat, r: nat, k: nat)
    requires streams != [] && AllApart(streams) && InRounds(streams, queue, |queue|) && k < |queue|
    requires f == FilterAt(|queue|, |streams|) && r == RoundAt(|queue|, |streams|) && r < |streams[f]|
    ensures queue[k].vacancy != streams[f][r]
  {
    hide AllApart, InRounds, FilterAt, RoundAt;
    RoundsAt(streams, queue, |queue|, k);
    if queue[k].vacancy == streams[f][r] {
      ApartAt(streams, FilterAt(k, |streams|), RoundAt(k, |streams|), f, r);
      SameTurn(k, |queue|, |streams|);
    }
  }

  lemma NotQueuedYet(streams: seq<seq<Id>>, queue: seq<Queued>, f: nat, r: nat)
    requires streams != [] && AllApart(streams) && InRounds(streams, queue, |queue|)
    requires f == FilterAt(|queue|, |streams|) && r == RoundAt(|queue|, |streams|) && r < |streams[f]|
    ensures streams[f][r] !in Vacancies(queue)
  {
    hide AllApart, InRounds, FilterAt, RoundAt;
    forall k: nat | k < |queue| ensures queue[k].vacancy != streams[f][r] {
      NotQueuedAt(streams, queue, f, r, k);
    }
  }

  lemma SlotIsFilter(n: nat, m: nat)
    requires m > 0
    ensures Slot(n, m) == FilterAt(n, m)
  {
  }

  /** A turn in a full round: the next filter's next id is queued. */
  lemma RoundTurn(streams: seq<seq<Id>>, taken: seq<nat>, queue: seq<Queued>, active: seq<nat>, cursor: nat)
    requires streams != [] && AllApart(streams) && IsInRounds(streams, taken, queue, active, cursor)
    requires |queue| < FullRounds(streams)
    ensures active != []
    ensures var idx := active[Slot(cursor, |active|)];
            && idx < |streams| && idx < |taken| && taken[idx] < |streams[idx]|
            && streams[idx][taken[idx]] !in Vacancies(queue)
            && IsInRounds(streams, taken[idx := taken[idx] + 1], queue + [Queued(streams[idx][taken[idx]], idx)],
                          active, cursor + 1)
  {
    hide Vacancies, AllApart, FilterAt, RoundAt, Slot;
    var n, m := |queue|, |streams|;
    InsideRound(n, m, Shortest(streams));
    hide FullRounds;
    SlotIsFilter(n, m);
    var idx, r := FilterAt(n, m), RoundAt(n, m);
    NotQueuedYet(streams, queue, idx, r);
    NextTurn(n, m);
    RoundsStay(streams, queue, n, Queued(streams[idx][r], idx));
  }

  lemma LaterTurn(streams: seq<seq<Id>>, taken: seq<nat>, queue: seq<Queued>, active: seq<nat>, cursor: nat, q: Queued,
                  taken': seq<nat>, active': seq<nat>, cursor': nat)
    requires streams != [] && IsInRounds(streams, taken, queue, active, cursor) && |queue| >= FullRounds(streams)
    ensures IsInRounds(streams, taken', queue, active', cursor')
    ensures IsInRounds(streams, taken', queue + [q], active', cursor')
  {
    RoundsStay(streams, queue, FullRounds(streams), q);
  }

  lemma RoundsStart(streams: seq<seq<Id>>, taken: seq<nat>, active: seq<nat>)
    requires |taken| == |active| == |streams| && forall i | 0 <= i < |streams| :: taken[i] == 0 && active[i] == i
    ensures streams != [] ==> IsInRounds(streams, taken, [], active, 0)
  {
  }

  /** Whatever the next turn does, the rounds stay what they are. */
  lemma RoundsGoOn(streams: seq<seq<Id>>, taken: seq<nat>, queue: seq<Queued>, active: seq<nat>, cursor: nat,
                   seen: set<Id>, base: seq<nat>, start: nat, rounds: nat)
    requires LoopOk(streams, taken, queue, active, cursor, seen, base, start, rounds) && active != []
    requires streams != [] && AllApart(streams) ==> IsInRounds(streams, taken, queue, active, cursor)
    ensures var p := Slot(cursor, |active|);
            var idx := active[p];
            && idx < |streams| && idx < |taken|
            && (streams != [] && AllApart(streams) ==>
                  if taken[idx] >= |streams[idx]| then IsInRounds(streams, taken, queue, Without(active, p), cursor)
                  else
                    var vid, now := streams[idx][taken[idx]], taken[idx := taken[idx] + 1];
                    if vid in seen then IsInRounds(streams, now, queue, active, cursor + 1)
                    else IsInRounds(streams, now, queue + [Queued(vid, idx)], active, cursor + 1))
  {
    hide Merged, WithinGap, Slot, AllApart, IsInRounds, FullRounds, Vacancies, EvenTurns;
    var p := Slot(cursor, |active|);
    var idx := active[p];
    assert idx < |streams| by { LoopAt(streams, taken, queue, active, cursor, seen, base, start, rounds); }
    if streams != [] && AllApart(streams) {
      if |queue| < FullRounds(streams) {
        RoundTurn(streams, taken, queue, active, cursor);
      } else {
        var q := Queued(if taken[idx] < |streams[idx]| then streams[idx][taken[idx]] else 0, idx);
        LaterTurn(streams, taken, queue, active, cursor, q, taken, Without(active, p), cursor);
        LaterTurn(streams, taken, queue, active, cursor, q, taken[idx := taken[idx] + 1], active, cursor + 1);
      }
    }
  }

  lemma RoundsEnd(streams: seq<seq<Id>>, taken: seq<nat>, queue: seq<Queued>, active: seq<nat>, cursor: nat)
    requires streams != [] && IsInRounds(streams, taken, queue, active, cursor)
    requires |queue| <= 30 && (|queue| == 30 || active == [])
    ensures var n := Least(30, FullRounds(streams)); |queue| >= n && InRounds(streams, queue, n)
  {
    hide FullRounds;
    FewerRounds(streams, queue, Least(|queue|, FullRounds(streams)), Least(30, FullRounds(streams)));
  }

  lemma {:induction false} FewerRounds(streams: seq<seq<Id>>, queue: seq<Queued>, n: nat, k: nat)
    requires streams != [] && InRounds(streams, queue, n) && k <= n
    ensures InRounds(streams, queue, k)
  {
    if k < n {
      FewerRounds(streams, queue, n - 1, k);
    }
  }

  /** Every run ends. It queues no vacancy twice and stays within the budget; if it stops under the budget it
      has queued exactly the union of all streams; filters that are still live have had as many turns
      each, but for one more than there were removals; and as long as no filter can run dry, the jobs are queued
      in full rounds, one of each filter in their order. */
  method ProduceJobs(streams: seq<seq<Id>>) returns (r: Outcome)
    ensures |r.queue| <= 30 && Merged(streams, r.taken, r.queue, r.live)
    ensures |r.queue| < 30 ==> r.live == []
    ensures streams != [] && AllApart(streams) ==>
              && |r.queue| >= Least(30, FullRounds(streams))
              && InRounds(streams, r.queue, Least(30, FullRounds(streams)))
    ensures forall j | 0 <= j < |r.live| :: r.live[j] < |r.taken|
    ensures WithinGap(r.live, r.taken, 1 + (|streams| - |r.live|))
  {
    hide LoopOk, Merged, Sized, WithinGap, Slot, Remaining, AllApart, IsInRounds, FullRounds, InRounds;
    var queue: seq<Queued>, active: seq<nat>, cursor: nat, seen: set<Id> := [], seq(|streams|, i => i), 0, {};
    var taken: seq<nat> := seq(|streams|, _ => 0);
    ghost var base, start: nat, rounds: nat := taken, 0, 0;
    LoopStarts(streams, taken, active);
    RoundsStart(streams, taken, active);
    while |queue| < MAX_PUSH_PER_RUN && active != []
      invariant LoopOk(streams, taken, queue, active, cursor, seen, base, start, rounds) && Sized(streams, taken)
      invariant streams != [] && AllApart(streams) ==> IsInRounds(streams, taken, queue, active, cursor)
      decreases Remaining(streams, taken), |active|
    {
      LoopAt(streams, taken, queue, active, cursor, seen, base, start, rounds);
      var p := Slot(cursor, |active|);
      var idx := active[p];
      SizedAt(streams, taken, idx);
      RoundsGoOn(streams, taken, queue, active, cursor, seen, base, start, rounds);
      if taken[idx] == |streams[idx]| {
        LoopRemoves(streams, taken, queue, active, cursor, seen, base, start, rounds);
        active := Without(active, p);
        base, rounds, start := taken, 0, if active == [] then 0 else Slot(cursor, |active|);
      } else {
        var vid := streams[idx][taken[idx]];
        LoopTakes(streams, taken, queue, active, cursor, seen, base, start, rounds);
        taken := taken[idx := taken[idx] + 1];
        rounds := if Slot(cursor + 1, |active|) == start then rounds + 1 else rounds;
        cursor := cursor + 1;
        if vid !in seen {
          seen := seen + {vid};
          queue := queue + [Queued(vid, idx)];
        }
      }
    }
    LoopEnds(streams, taken, queue, active, cursor, seen, base, start, rounds);
    if streams != [] && AllApart(streams) {
      RoundsEnd(streams, taken, queue, active, cursor);
    }
    r := Outcome(queue, taken, active);
  }

  lemma LoopStarts(streams: seq<seq<Id>>, taken: seq<nat>, active: seq<nat>)
    requires |taken| == |streams| && |active| == |streams|
    requires forall i | 0 <= i < |streams| :: taken[i] == 0 && active[i] == i
    ensures LoopOk(streams, taken, [], active, 0, {}, taken, 0, 0) && Sized(streams, taken)
  {
    MergedAtStart(streams, taken, active);
  }

  lemma LoopEnds(streams: seq<seq<Id>>, taken: seq<nat>, queue: seq<Queued>, active: seq<nat>, cursor: nat,
                 seen: set<Id>, base: seq<nat>, start: nat, rounds: nat)
    requires LoopOk(streams, taken, queue, active, cursor, seen, base, start, rounds)
    ensures |queue| <= MAX_PUSH_PER_RUN && |active| <= |streams| && Merged(streams, taken, queue, active)
    ensures forall j | 0 <= j < |active| :: active[j] < |taken|
    ensures WithinGap(active, taken, 1 + (|streams| - |active|))
  {
    FairEnd(taken, active, cursor, base, start, rounds, |streams| - |active|);
  }

  lemma SizedAt(streams: seq<seq<Id>>, taken: seq<nat>, idx: nat)
    requires Sized(streams, taken) && idx < |streams|
    ensures idx < |taken| && taken[idx] <= |streams[idx]|
  {
  }

  function AllIds(streams: seq<seq<Id>>): set<Id> { set i,
      k | 0 <= i < |streams| && 0 <= k < |streams[i]| :: streams[i][k] }

  /** With no live filter left, the queue holds exactly the ids of all streams. */
  lemma UnderBudgetIsUnion(streams: seq<seq<Id>>, taken: seq<nat>, queue: seq<Queued>)
    requires Merged(streams, taken, queue, [])
    ensures Vacancies(queue) == AllIds(streams)
  {
    forall x | x in Vacancies(queue) ensures x in AllIds(streams) {
      var q :| q in queue && q.vacancy == x;
      var k :| 0 <= k < taken[q.filter] && streams[q.filter][..taken[q.filter]][k] == x;
      assert streams[q.filter][k] == x;
    }
    forall x | x in AllIds(streams) ensures x in Vacancies(queue) {
      var i, k :| 0 <= i < |streams| && 0 <= k < |streams[i]| && streams[i][k] == x;
    }
  }

  // ---------------------------------------------------------------- after a removal

  lemma AfterCycle(q: nat, p: nat, m: nat)
    requires m > 1 && p < m
    ensures Slot(q * m + p, m - 1) == Slot(q + p, m - 1)
  {
    var s := q + p;
    assert q * m + p == q * (m - 1) + s;
    var d := s / (m - 1);
    assert s == d * (m - 1) + s % (m - 1);
    assert q * m + p == (q + d) * (m - 1) + s % (m - 1);
    ModIs(q * m + p, q + d, s % (m - 1), m - 1);
  }

  lemma Distribute(x: int, y: int, m: int)
    ensures (x + y) * m == x * m + y * m && (x + y + 1) * m == x * m + y * m + m
  {
  }

  lemma SumSlot(x: nat, a: nat, y: nat, b: nat, m: nat)
    requires a < m && b < m
    ensures Slot(x * m + a + (y * m + b), m) == if a + b < m then a + b else a + b - m
  {
    Distribute(x, y, m);
    if a + b < m {
      ModIs(x * m + a + (y * m + b), x + y, a + b, m);
    } else {
      ModIs(x * m + a + (y * m + b), x + y + 1, a + b - m, m);
    }
  }

  lemma SameSlotIff(q: nat, p: nat, m: nat)
    requires m > 0
    ensures Slot(q + p, m) == Slot(p, m) <==> Slot(q, m) == 0
  {
    SumSlot(q / m, q % m, p / m, p % m, m);
    assert q == q / m * m + q % m && p == p / m * m + p % m;
  }

  lemma SlotUpTo(a: nat, m: nat)
    requires m > 0 && a <= m
    ensures Slot(a, m) == if a < m then a else 0
  {
    if a < m { ModIs(a, 0, a, m); } else { ModIs(a, 1, 0, m); }
  }

  /** Where the cursor points after a removal, and when that is where it pointed before. */
  lemma SlotAfterRemoval(cursor: nat, m: nat)
    requires m > 1
    ensures Slot(cursor, m - 1) == Slot(Slot(cursor, m), m - 1) <==> Slot(cursor / m, m - 1) == 0
  {
    AfterCycle(cursor / m, cursor % m, m);
    assert cursor == cursor / m * m + cursor % m;
    SameSlotIff(cursor / m, cursor % m, m - 1);
  }

  /** When a filter is removed and the cursor kept, the next turn goes to the filter that moved into its place
      (or around to the first one) exactly if the number of whole rounds on the cursor is a multiple of the
      new length; the comment in the source takes it to be so always. */
  lemma ShiftedIsNextIff(active: seq<nat>, cursor: nat)
    requires |active| > 1 && Distinct(active)
    ensures var m := |active|;
            var p := Slot(cursor, m);
            Without(active, p)[Slot(cursor, m - 1)] == active[Slot(p + 1, m)] <==> Slot(cursor / m, m - 1) == 0
  {
    hide Slot, Distinct;
    var m := |active|;
    var p := Slot(cursor, m);
    SlotAfterRemoval(cursor, m);
    SlotUpTo(p, m - 1);
    SlotUpTo(p + 1, m);
    RemovedOnly(active, p);
    DistinctAt(Without(active, p), Slot(cursor, m - 1), Slot(p, m - 1));
  }

  lemma DistinctAt(s: seq<nat>, i: nat, j: nat)
    requires Distinct(s) && i < |s| && j < |s|
    ensures s[i] == s[j] <==> i == j
  {
  }

  /** Three filters after one round: when the first runs dry, the turn skips the second. */
  lemma TurnIsSkipped()
    ensures Slot(3, 3) == 0 && Without([10, 20, 30], 0)[Slot(3, 2)] == 30
  {
  }
}
