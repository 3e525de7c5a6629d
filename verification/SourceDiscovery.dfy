/** The incremental scan of one search source against its stored cursor (`discover_source` in
    backend/app/services/source_discovery.py). */
module SourceDiscovery {
  import opened Options

  /** HH vacancy ids are decimal numbers. */
  type Id = nat

  const INITIAL_SCAN_PAGES := 3
  const INCREMENTAL_MAX_PAGES := 20

  /** The write of the id at `at` raises, with or without having taken effect. */
  datatype Break = Break(at: nat, done: bool, message: string)

  /** What one search request brings: a page of ids with the feed's total, whose writes may break off, or an error
      of the request or of the lookups after it. */
  datatype Reply = Page(ids: seq<Id>, total: nat, breaks: Option<Break>) | Failure(message: string)

  datatype Stats = Stats(runs: nat, fetched: nat, persisted: nat, skippedApplied: nat, errors: nat)

  datatype Cursor = Cursor(headIds: seq<Id>, stats: Stats)

  datatype Counters = Counters(fetched: nat, persisted: nat, skippedApplied: nat, added: nat, duplicate: nat)

  datatype Outcome = Done(counters: Counters, overlapFound: bool, warning: bool) | Failed(message: string)

  /** The ids of a page that stand before the first one already seen. */
  function Before(ids: seq<Id>, head: set<Id>): seq<Id>
  {
    if ids == [] || ids[0] in head then [] else [ids[0]] + Before(ids[1..], head)
  }

  /** Which ids a scan handles, from page `p` on, and how it ends. */
  datatype Scan = Scan(handled: seq<Id>, overlap: bool, error: seq<string>)

  predicate Exhausted(p: nat, count: nat, total: nat)
  {
    total > 0 && (p + 1) * (if count > 1 then count else 1) >= total
  }

  /** An id of the page cannot be written; one with an application is not to be written. */
  predicate Broken(breaks: Option<Break>, mine: seq<Id>, applications: set<Id>)
  {
    breaks.Some? && breaks.value.at < |mine| && mine[breaks.value.at] !in applications
  }

  /** The ids of a broken page that were handled. */
  function Written(b: Break, mine: seq<Id>): seq<Id>
    requires b.at < |mine|
  {
    if b.done then mine[..b.at + 1] else mine[..b.at]
  }

  function ScanFrom(pages: nat -> Reply, p: nat, limit: nat, head: set<Id>, applications: set<Id>): Scan
    decreases limit - p
  {
    if p >= limit then Scan([], false, [])
    else match pages(p)
         case Failure(message) => Scan([], false, [message])
         case Page(ids, total, breaks) =>
           var mine := Before(ids, head);
           if Broken(breaks, mine, applications)
           then Scan(Written(breaks.value, mine), false, [breaks.value.message])
           else if ids == [] || |mine| < |ids| || Exhausted(p, |ids|, total) then Scan(mine, true, [])
           else
             var rest := ScanFrom(pages, p + 1, limit, head, applications);
             rest.(handled := mine + rest.handled)
  }

  function SetOf(ids: seq<Id>): set<Id> { set x | x in ids }

  function PageLimit(head: set<Id>): nat { if head == {} then INITIAL_SCAN_PAGES else INCREMENTAL_MAX_PAGES }

  /** How many of `ids` are in `known`. */
  function CountIn(ids: seq<Id>, known: set<Id>): nat
  {
    if ids == [] then 0 else (if ids[0] in known then 1 else 0) + CountIn(ids[1..], known)
  }

  lemma {:induction false} CountAppend(ids: seq<Id>, x: Id, known: set<Id>)
    ensures CountIn(ids + [x], known) == CountIn(ids, known) + if x in known then 1 else 0
    decreases ids
  {
    if ids == [] {
      assert ids + [x] == [x];
    } else {
      assert (ids + [x])[1..] == ids[1..] + [x];
      CountAppend(ids[1..], x, known);
    }
  }

  lemma {:induction false} BeforeIsPrefix(ids: seq<Id>, head: set<Id>)
    ensures Before(ids, head) <= ids
    ensures forall x | x in Before(ids, head) :: x !in head
    ensures |Before(ids, head)| < |ids| ==> ids[|Before(ids, head)|] in head
    decreases ids
  {
    if ids != [] && ids[0] !in head {
      BeforeIsPrefix(ids[1..], head);
    }
  }

  /** The prefix is settled by the first id that was seen. */
  lemma {:induction false} BeforeIs(ids: seq<Id>, head: set<Id>, k: nat)
    requires k <= |ids| && (forall x | x in ids[..k] :: x !in head) && (k < |ids| ==> ids[k] in head)
    ensures Before(ids, head) == ids[..k]
    decreases ids
  {
    if k > 0 {
      assert ids[0] in ids[..k];
      assert ids[1..][..k - 1] == ids[..k][1..];
      BeforeIs(ids[1..], head, k - 1);
    }
  }

  /** The counters and the pipeline after one more id, and after the ids `handled`. */
  function CountOne(c: Counters, pipeline: set<Id>, vid: Id, applications: set<Id>): (Counters, set<Id>)
  {
    var next := c.(fetched := c.fetched + 1);
    if vid in applications then (next.(skippedApplied := c.skippedApplied + 1), pipeline)
    else
      var kept := next.(persisted := c.persisted + 1);
      if vid in pipeline then (kept.(duplicate := c.duplicate + 1), pipeline)
      else (kept.(added := c.added + 1), pipeline + {vid})
  }

  function Count(handled: seq<Id>, applications: set<Id>, before: set<Id>): (Counters, set<Id>)
    decreases |handled|
  {
    if handled == [] then (Counters(0, 0, 0, 0, 0), before)
    else
      var n := |handled| - 1;
      var (c, pipeline) := Count(handled[..n], applications, before);
      CountOne(c, pipeline, handled[n], applications)
  }

  lemma CountNext(handled: seq<Id>, ids: seq<Id>, i: nat, applications: set<Id>, before: set<Id>)
    requires i < |ids|
    ensures var (c, pipeline) := Count(handled + ids[..i], applications, before);
            Count(handled + ids[..i + 1], applications, before) == CountOne(c, pipeline, ids[i], applications)
  {
    assert (handled + ids[..i + 1])[..|handled| + i] == handled + ids[..i];
  }

  lemma BeforeNext(ids: seq<Id>, head: set<Id>, i: nat)
    requires i < |ids| && Before(ids, head) == ids[..i] + Before(ids[i..], head)
    ensures Before(ids, head) == if ids[i] in head then ids[..i] else ids[..i + 1] + Before(ids[i + 1..], head)
  {
    assert ids[i..][0] == ids[i] && ids[i..][1..] == ids[i + 1..];
  }

  lemma OneMore(before: set<Id>, ids: set<Id>, applications: set<Id>, vid: Id)
    ensures var was, now := before + (ids - applications), before + (ids + {vid} - applications);
            now == if vid in applications || vid in was then was else was + {vid}
  {
  }

  /** Exactly the handled ids without an application end up in the pipeline, and `added` counts the new ones. */
  lemma {:induction false} CountedPipeline(handled: seq<Id>, applications: set<Id>, before: set<Id>)
    ensures var (c, pipeline) := Count(handled, applications, before);
            pipeline == before + (SetOf(handled) - applications) && c.added == |pipeline| - |before|
    decreases |handled|
  {
    if handled != [] {
      var n := |handled| - 1;
      var init, vid := handled[..n], handled[n];
      CountedPipeline(init, applications, before);
      assert SetOf(handled) == SetOf(init) + {vid} by { assert handled == init + [vid]; }
      OneMore(before, SetOf(init), applications, vid);
    }
  }

  /** Every handled id is counted once in each sum. */
  lemma {:induction false} CountersAddUp(handled: seq<Id>, applications: set<Id>, before: set<Id>)
    ensures var c := Count(handled, applications, before).0;
            && c.fetched == |handled| && c.skippedApplied == CountIn(handled, applications)
            && c.fetched == c.persisted + c.skippedApplied && c.persisted == c.added + c.duplicate
    decreases |handled|
  {
    if handled != [] {
      var n := |handled| - 1;
      CountersAddUp(handled[..n], applications, before);
      CountAppend(handled[..n], handled[n], applications);
      assert handled == handled[..n] + [handled[n]];
    }
  }

  /** A failed run keeps the head and counts an error. */
  function FailureCursor(cursor: Cursor): Cursor
  {
    cursor.(stats := cursor.stats.(runs := cursor.stats.runs + 1, errors := cursor.stats.errors + 1))
  }

  function SuccessCursor(cursor: Cursor, headIds: seq<Id>, c: Counters): Cursor
  {
    var was := cursor.stats;
    Cursor(headIds, Stats(was.runs + 1, was.fetched + c.fetched, was.persisted + c.persisted,
                          was.skippedApplied + c.skippedApplied, was.errors))
  }

  function FirstForty(ids: seq<Id>): seq<Id> { if |ids| > 40 then ids[..40] else ids }

  /** A scan that has handled `handled` and has `rest` before it. */
  function After(handled: seq<Id>, rest: Scan): Scan { rest.(handled := handled + rest.handled) }

  /** What a page does to the scan. */
  predicate PageStep(scan: Scan, handled: seq<Id>, pages: nat -> Reply, p: nat, limit: nat, head: set<Id>,
                     applications: set<Id>)
    requires p < limit && pages(p).Page?
  {
    var ids, mine, breaks := pages(p).ids, Before(pages(p).ids, head), pages(p).breaks;
    if Broken(breaks, mine, applications) then
      scan == Scan(handled + Written(breaks.value, mine), false, [breaks.value.message])
    else if ids == [] then scan == Scan(handled, true, [])
    else if |mine| < |ids| || Exhausted(p, |ids|, pages(p).total) then scan == Scan(handled + mine, true, [])
    else scan == After(handled + mine, ScanFrom(pages, p + 1, limit, head, applications))
  }

  lemma ScanStep(pages: nat -> Reply, p: nat, limit: nat, head: set<Id>, applications: set<Id>, handled: seq<Id>)
    requires p < limit
    ensures var scan := After(handled, ScanFrom(pages, p, limit, head, applications));
            if pages(p).Failure? then scan == Scan(handled, false, [pages(p).message])
            else PageStep(scan, handled, pages, p, limit, head, applications)
  {
    assert handled + [] == handled;
    if pages(p).Page? {
      var mine, rest := Before(pages(p).ids, head), ScanFrom(pages, p + 1, limit, head, applications);
      assert handled + (mine + rest.handled) == (handled + mine) + rest.handled;
    }
  }

  lemma BrokenAt(ids: seq<Id>, head: set<Id>, i: nat)
    requires i < |ids| && Before(ids, head) == ids[..i + 1] + Before(ids[i + 1..], head)
    ensures i < |Before(ids, head)| && Before(ids, head)[i] == ids[i]
    ensures Before(ids, head)[..i] == ids[..i] && Before(ids, head)[..i + 1] == ids[..i + 1]
  {
  }

  lemma WholePage(ids: seq<Id>, head: set<Id>)
    requires Before(ids, head) == ids[..|ids|] + Before(ids[|ids|..], head)
    ensures Before(ids, head) == ids == ids[..|ids|]
  {
    assert ids[|ids|..] == [] && ids[..|ids|] == ids;
  }

  lemma EmptyPage(breaks: Option<Break>, head: set<Id>, applications: set<Id>)
    ensures Before([], head) == [] && !Broken(breaks, [], applications)
  {
  }

  lemma NothingYet(pages: nat -> Reply, limit: nat, head: set<Id>, applications: set<Id>, pipeline: set<Id>)
    ensures var scan := ScanFrom(pages, 0, limit, head, applications); scan == After([], scan)
    ensures Count([], applications, pipeline) == (Counters(0, 0, 0, 0, 0), pipeline)
  {
    var scan := ScanFrom(pages, 0, limit, head, applications);
    assert [] + scan.handled == scan.handled;
  }

  function WrittenOf(breaks: Option<Break>, mine: seq<Id>, applications: set<Id>): seq<Id>
  {
    if Broken(breaks, mine, applications) then Written(breaks.value, mine) else mine
  }

  class Source {
    var cursor: Cursor
    /** The ids of the user's vacancy_pipeline rows. */
    var pipeline: set<Id>

    /** The inner loop: one page, up to the first id that was seen or the first write that raises. */
    method HandlePage(ids: seq<Id>, head: set<Id>, applications: set<Id>, breaks: Option<Break>, c0: Counters,
                      ghost before: set<Id>, ghost handled: seq<Id>)
        returns (c: Counters, stopAfterPage: bool, failure: seq<string>)
      requires (c0, pipeline) == Count(handled, applications, before)
      modifies this`pipeline
      ensures var mine := Before(ids, head);
              if Broken(breaks, mine, applications) then
                && failure == [breaks.value.message]
                && pipeline == Count(handled + Written(breaks.value, mine), applications, before).1
              else
                && failure == [] && (c, pipeline) == Count(handled + mine, applications, before)
                && (stopAfterPage <==> |mine| < |ids|)
    {
      hide Count, Before;
      c := c0;
      var existing := SetOf(ids) * pipeline;
      assert handled + ids[..0] == handled && ids[..0] + Before(ids[0..], head) == Before(ids, head) by {
        assert ids[0..] == ids;
      }
      for i := 0 to |ids|
        invariant existing == SetOf(ids) * pipeline
        invariant Before(ids, head) == ids[..i] + Before(ids[i..], head)
        invariant breaks.Some? && breaks.value.at < i ==> ids[breaks.value.at] in applications
        invariant (c, pipeline) == Count(handled + ids[..i], applications, before)
      {
        var vid := ids[i];
        assert vid in SetOf(ids);
        BeforeNext(ids, head, i);
        if vid in head {
          return c, true, [];
        }
        CountNext(handled, ids, i, applications, before);
        c := c.(fetched := c.fetched + 1);
        if vid in applications {
          c := c.(skippedApplied := c.skippedApplied + 1);
        } else {
          assert vid in pipeline ==> pipeline + {vid} == pipeline;
          if breaks.Some? && breaks.value.at == i {
            BrokenAt(ids, head, i);
            if breaks.value.done {
              pipeline := pipeline + {vid};
            }
            return c, false, [breaks.value.message];
          }
          pipeline := pipeline + {vid};
          c := c.(persisted := c.persisted + 1);
          if vid in existing {
            c := c.(duplicate := c.duplicate + 1);
          } else {
            c := c.(added := c.added + 1);
            existing := existing + {vid};
          }
        }
      }
      WholePage(ids, head);
      stopAfterPage, failure := false, [];
    }

    /** The outer loop over the pages. */
    method ScanPages(pages: nat -> Reply, pageLimit: nat, head: set<Id>, applications: set<Id>)
        returns (c: Counters, overlapFound: bool, firstPageIds: seq<Id>, failure: seq<string>, ghost handled: seq<Id>)
      requires pageLimit > 0
      modifies this`pipeline
      ensures ScanFrom(pages, 0, pageLimit, head, applications) == Scan(handled, overlapFound, failure)
      ensures pipeline == Count(handled, applications, old(pipeline)).1
      ensures failure == [] ==> c == Count(handled, applications, old(pipeline)).0
      ensures failure == [] ==> pages(0).Page? && firstPageIds == FirstForty(pages(0).ids)
    {
      hide ScanFrom, Before, Exhausted, Count, Broken;
      c, overlapFound, firstPageIds, failure, handled := Counters(0, 0, 0, 0, 0), false, [], [], [];
      NothingYet(pages, pageLimit, head, applications, pipeline);
      ghost var scan := ScanFrom(pages, 0, pageLimit, head, applications);
      var page := 0;
      while page < pageLimit && !overlapFound && failure == []
        invariant page <= pageLimit
        invariant failure == [] && page > 0 ==> pages(0).Page? && firstPageIds == FirstForty(pages(0).ids)
        invariant overlapFound ==> page > 0
        invariant if overlapFound || failure != [] then scan == Scan(handled, overlapFound, failure)
                  else scan == After(handled, ScanFrom(pages, page, pageLimit, head, applications))
        invariant pipeline == Count(handled, applications, old(pipeline)).1
        invariant failure == [] ==> c == Count(handled, applications, old(pipeline)).0
        decreases pageLimit - page
      {
        var reply := pages(page);
        ScanStep(pages, page, pageLimit, head, applications, handled);
        if reply.Failure? {
          failure := [reply.message];
        } else {
          if page == 0 {
            firstPageIds := FirstForty(reply.ids);
          }
          if reply.ids == [] {
            EmptyPage(reply.breaks, head, applications);
            overlapFound := true;
          } else {
            var stopAfterPage;
            c, stopAfterPage, failure :=
              HandlePage(reply.ids, head, applications, reply.breaks, c, old(pipeline), handled);
            ghost var mine := Before(reply.ids, head);
            if failure == [] {
              handled := handled + mine;
              overlapFound := stopAfterPage || Exhausted(page, |reply.ids|, reply.total);
            } else {
              handled := handled + WrittenOf(reply.breaks, mine, applications);
            }
          }
        }
        page := page + 1;
      }
      if !overlapFound && failure == [] {
        PastTheLimit(pages, page, pageLimit, head, applications);
      }
      assert handled + [] == handled;
    }

    method DiscoverSource(pages: nat -> Reply, applications: set<Id>) returns (r: Outcome)
      modifies this
      ensures var head := SetOf(old(cursor).headIds);
              var scan := ScanFrom(pages, 0, PageLimit(head), head, applications);
              var (c, after) := Count(scan.handled, applications, old(pipeline));
              && pipeline == after
              && if scan.error != [] then
                   r == Failed(scan.error[0]) && cursor == FailureCursor(old(cursor))
                 else
                   && r == Done(c, scan.overlap, head != {} && !scan.overlap)
                   && pages(0).Page? && cursor == SuccessCursor(old(cursor), FirstForty(pages(0).ids), c)
      ensures var was, now := old(cursor.stats), cursor.stats;
              if r.Failed? then
                && cursor.headIds == old(cursor.headIds)
                && now.runs == was.runs + 1 && now.errors == was.errors + 1
                && now.fetched == was.fetched && now.persisted == was.persisted
                && now.skippedApplied == was.skippedApplied
              else
                && (|pages(0).ids| <= 40 ==> cursor.headIds == pages(0).ids)
                && (|pages(0).ids| > 40 ==> cursor.headIds == pages(0).ids[..40])
                && now.runs == was.runs + 1 && now.errors == was.errors
                && now.fetched == was.fetched + r.counters.fetched
                && now.persisted == was.persisted + r.counters.persisted
                && now.skippedApplied == was.skippedApplied + r.counters.skippedApplied
    {
      var head := SetOf(cursor.headIds);
      var initial := head == {};
      var pageLimit := if initial then INITIAL_SCAN_PAGES else INCREMENTAL_MAX_PAGES;
      var c, overlapFound, firstPageIds, failure;
      ghost var handled;
      c, overlapFound, firstPageIds, failure, handled := ScanPages(pages, pageLimit, head, applications);
      if failure != [] {
        cursor := FailureCursor(cursor);
        return Failed(failure[0]);
      }
      cursor := SuccessCursor(cursor, firstPageIds, c);
      r := Done(c, overlapFound, !initial && !overlapFound);
    }
  }

  // ---------------------------------------------------------------- a fixed feed cut into pages

  /** Page `p` of a feed cut into pages of `size` ids, with the correct total. */
  function PageOf(feed: seq<Id>, size: nat, p: nat): Reply
  {
    var from := p * size;
    Page(if from >= |feed| then [] else if from + size >= |feed| then feed[from..] else feed[from..from + size],
         |feed|, None)
  }

  function Cut(feed: seq<Id>, size: nat): nat -> Reply { (p: nat) => PageOf(feed, size, p) }

  /** `k` is where the first id of the feed stands that was seen before, or the feed's length. */
  predicate FirstSeen(feed: seq<Id>, head: set<Id>, k: nat)
  {
    k <= |feed| && (forall i | 0 <= i < k :: feed[i] !in head) && (k < |feed| ==> feed[k] in head)
  }

  function Min(a: nat, b: nat): nat { if a < b then a else b }

  /** The scan of `limit` pages, `top` ids, stops by itself: at a seen id, or at the end of the feed as the
      page arithmetic sees it. A last page that is partly filled is not recognised as the end; the next,
      empty page is. */
  predicate Recognised(n: nat, k: nat, size: nat, top: nat)
  {
    (k < n && k < top) || n + size <= top || n == top
  }

  /** The scan by offsets instead of page numbers. */
  function Walk(feed: seq<Id>, size: nat, from: nat, top: nat, k: nat): Scan
    requires size > 0 && k <= |feed| && k >= Min(|feed|, from)
    decreases top - from
  {
    var n, end := |feed|, Min(from + size, |feed|);
    if from >= top then Scan([], false, [])
    else if from >= n then Scan([], true, [])
    else if k < end then Scan(feed[from..k], true, [])
    else if n == from + size || (from == 0 && n < size) then Scan(feed[from..end], true, [])
    else After(feed[from..end], Walk(feed, size, from + size, top, k))
  }

  lemma MulMono(a: nat, b: nat, size: nat)
    requires size > 0
    ensures a < b <==> a * size < b * size
    ensures (a + 1) * size == a * size + size
  {
    if a < b {
      assert (b - a) * size > 0;
    } else {
      assert (a - b) * size >= 0;
    }
  }

  /** Only on the first page does a partly filled page count as the end. */
  lemma PartlyFilled(p: nat, count: nat, size: nat)
    requires 0 < count < size
    ensures Exhausted(p, count, p * size + count) <==> p == 0
  {
    assert (p + 1) * count == p * count + count;
    if p > 0 {
      assert p * count < p * size by { assert p * (size - count) > 0; }
    }
  }

  /** When the page arithmetic takes a page for the last one. */
  lemma PageEnds(p: nat, size: nat, n: nat)
    requires size > 0 && p * size < n
    ensures Exhausted(p, Min(size, n - p * size), n) <==> n == p * size + size || (p == 0 && n < size)
  {
    if n < p * size + size {
      PartlyFilled(p, n - p * size, size);
    } else {
      assert (p + 1) * size == p * size + size;
    }
  }

  lemma SliceOfSlice(s: seq<Id>, a: nat, b: nat, n: nat)
    requires a <= b <= |s| && a + n <= b
    ensures s[a..b][..n] == s[a..a + n]
    ensures forall i | 0 <= i < n :: s[a..b][..n][i] == s[a + i]
    ensures n < b - a ==> s[a..b][n] == s[a + n]
  {
  }

  /** What is handled of one page. */
  lemma PageIsSeen(feed: seq<Id>, size: nat, p: nat, head: set<Id>, k: nat)
    requires size > 0 && FirstSeen(feed, head, k) && p * size < |feed| && p * size <= k
    ensures var from, end := p * size, Min(p * size + size, |feed|);
            && PageOf(feed, size, p).ids == feed[from..end]
            && Before(feed[from..end], head) == feed[from..Min(k, end)]
  {
    var from, end := p * size, Min(p * size + size, |feed|);
    var ids, seen := feed[from..end], Min(k, end) - from;
    SliceOfSlice(feed, from, end, seen);
    BeforeIs(ids, head, seen);
  }

  /** The scan of one page in terms of offsets. */
  lemma OnePage(feed: seq<Id>, size: nat, p: nat, limit: nat, head: set<Id>, applications: set<Id>, k: nat, from: nat)
    requires size > 0 && p < limit && FirstSeen(feed, head, k) && from == p * size && k >= Min(|feed|, from)
    ensures var n, end := |feed|, Min(from + size, |feed|);
            ScanFrom(Cut(feed, size), p, limit, head, applications) ==
            if from >= n then Scan([], true, [])
            else if k < end then Scan(feed[from..k], true, [])
            else if n == from + size || (p == 0 && n < size) then Scan(feed[from..end], true, [])
            else After(feed[from..end], ScanFrom(Cut(feed, size), p + 1, limit, head, applications))
  {
    var n, end := |feed|, Min(from + size, |feed|);
    var ids := PageOf(feed, size, p).ids;
    assert Cut(feed, size)(p) == Page(ids, n, None);
    if from < n {
      assert ids == feed[from..end] && Before(ids, head) == feed[from..Min(k, end)] by {
        PageIsSeen(feed, size, p, head, k);
      }
      assert |Before(ids, head)| < |ids| <==> k < end;
      assert Exhausted(p, |ids|, n) <==> n == from + size || (p == 0 && n < size) by {
        PageEnds(p, size, n);
      }
    }
  }

  lemma PastTheLimit(pages: nat -> Reply, p: nat, limit: nat, head: set<Id>, applications: set<Id>)
    requires p >= limit
    ensures ScanFrom(pages, p, limit, head, applications) == Scan([], false, [])
  {
  }

  lemma {:induction false} ScanIsWalk(feed: seq<Id>, size: nat, p: nat, limit: nat, head: set<Id>,
                                      applications: set<Id>, k: nat, from: nat, top: nat)
    requires size > 0 && p <= limit && FirstSeen(feed, head, k) && k >= Min(|feed|, from)
    requires from == p * size && top == limit * size
    ensures ScanFrom(Cut(feed, size), p, limit, head, applications) == Walk(feed, size, from, top, k)
    decreases limit - p
  {
    hide ScanFrom, Exhausted, Before, FirstSeen, PageOf, Cut;
    if p < limit {
      NextOffset(p, limit, size);
      OnePage(feed, size, p, limit, head, applications, k, from);
      if from < |feed| && k >= Min(from + size, |feed|) {
        ScanIsWalk(feed, size, p + 1, limit, head, applications, k, from + size, top);
      }
    } else {
      PastTheLimit(Cut(feed, size), p, limit, head, applications);
    }
  }

  lemma NextOffset(p: nat, limit: nat, size: nat)
    requires size > 0 && p < limit
    ensures p * size < limit * size && p * size + size == (p + 1) * size && (p == 0 <==> p * size == 0)
  {
    MulMono(p, limit, size);
    MulMono(0, p, size);
  }

  lemma JoinSlices(feed: seq<Id>, a: nat, b: nat, c: nat)
    requires a <= b <= c <= |feed|
    ensures feed[a..b] + feed[b..c] == feed[a..c]
  {
  }

  /** `n` ids can still leave the walk at `from`: it got here past full pages, or past a partly filled one. */
  predicate Reached(n: nat, size: nat, from: nat)
  {
    from == 0 || (from >= size && n > from) || (from >= 2 * size && from - size < n < from)
  }

  /** Whole pages lead from offset `from` to `top`. */
  predicate WholePages(from: nat, top: nat, size: nat)
    requires size > 0
    decreases top - from
  {
    from == top || (from + size <= top && WholePages(from + size, top, size))
  }

  lemma {:induction false} PagesAreWhole(p: nat, limit: nat, size: nat)
    requires size > 0 && p <= limit
    ensures WholePages(p * size, limit * size, size)
    decreases limit - p
  {
    if p < limit {
      MulMono(p, limit, size);
      PagesAreWhole(p + 1, limit, size);
      MulMono(p + 1, limit + 1, size);
      assert (limit + 1) * size == limit * size + size;
    }
  }

  lemma {:induction false} WalkHandles(feed: seq<Id>, size: nat, from: nat, top: nat, k: nat)
    requires size > 0 && WholePages(from, top, size) && k <= |feed| && k >= Min(|feed|, from)
    ensures Walk(feed, size, from, top, k).handled == feed[Min(from, Min(k, top))..Min(k, top)]
    ensures Walk(feed, size, from, top, k).error == []
    decreases top - from
  {
    var n, end, until := |feed|, Min(from + size, |feed|), Min(k, top);
    if from < top && from < n && k >= end && n != from + size && !(from == 0 && n < size) {
      WalkHandles(feed, size, from + size, top, k);
      JoinSlices(feed, from, end, until);
    }
  }

  lemma {:induction false} WalkOverlaps(feed: seq<Id>, size: nat, from: nat, top: nat, k: nat)
    requires size > 0 && WholePages(from, top, size) && top >= 2 * size
    requires k <= |feed| && k >= Min(|feed|, from) && Reached(|feed|, size, from)
    ensures Walk(feed, size, from, top, k).overlap <==> Recognised(|feed|, k, size, top)
    decreases top - from
  {
    var n, end := |feed|, Min(from + size, |feed|);
    if from < top && from < n && k >= end && n != from + size && !(from == 0 && n < size) {
      WalkOverlaps(feed, size, from + size, top, k);
    }
  }

  /** A scan of the feed handles exactly the ids before the first seen one, as far as the page limit
      reaches, and records no warning exactly when it stopped by itself. */
  lemma ScanOfFeed(feed: seq<Id>, size: nat, limit: nat, head: set<Id>, applications: set<Id>, k: nat)
    requires size > 0 && limit >= 2 && FirstSeen(feed, head, k)
    ensures ScanFrom(Cut(feed, size), 0, limit, head, applications) ==
            Scan(feed[..Min(k, limit * size)], Recognised(|feed|, k, size, limit * size), [])
  {
    assert 0 * size == 0;
    ScanIsWalk(feed, size, 0, limit, head, applications, k, 0, limit * size);
    MulMono(2, limit, size);
    PagesAreWhole(0, limit, size);
    WalkHandles(feed, size, 0, limit * size, k);
    WalkOverlaps(feed, size, 0, limit * size, k);
    assert feed[0..Min(k, limit * size)] == feed[..Min(k, limit * size)];
  }

  /** A first run, without a head, handles the first three pages. */
  lemma FirstRunHandlesThreePages(feed: seq<Id>, size: nat, applications: set<Id>)
    requires size > 0
    ensures ScanFrom(Cut(feed, size), 0, PageLimit({}), {}, applications).handled == feed[..Min(|feed|, 3 * size)]
  {
    ScanOfFeed(feed, size, INITIAL_SCAN_PAGES, {}, applications, |feed|);
  }

  /** No warning: every id before the first seen one was handled, so it has an application or is in the pipeline. */
  lemma NoWarningMeansComplete(feed: seq<Id>, size: nat, limit: nat, head: set<Id>, k: nat,
                               applications: set<Id>, before: set<Id>)
    requires size > 0 && limit >= 2 && FirstSeen(feed, head, k)
    requires ScanFrom(Cut(feed, size), 0, limit, head, applications).overlap
    ensures var handled := ScanFrom(Cut(feed, size), 0, limit, head, applications).handled;
            && handled == feed[..k]
            && forall i | 0 <= i < k :: feed[i] in applications || feed[i] in Count(handled, applications, before).1
  {
    ScanOfFeed(feed, size, limit, head, applications, k);
    assert Min(k, limit * size) == k;
    CountedPipeline(feed[..k], applications, before);
    forall i | 0 <= i < k ensures feed[i] in SetOf(feed[..k]) { assert feed[..k][i] == feed[i]; }
  }

  /** When everything before the first seen id was handled, there is a warning all the same exactly if that id is
      the first one past the last page allowed, or if there is none and the feed ends inside that page. */
  lemma FalseWarningIff(feed: seq<Id>, size: nat, head: set<Id>, applications: set<Id>, k: nat)
    requires size > 0 && FirstSeen(feed, head, k)
    ensures var scan := ScanFrom(Cut(feed, size), 0, INCREMENTAL_MAX_PAGES, head, applications);
            var top, n := INCREMENTAL_MAX_PAGES * size, |feed|;
            scan.handled == feed[..k] && !scan.overlap <==> (k == top && k < n) || (k == n && top - size < n < top)
  {
    ScanOfFeed(feed, size, INCREMENTAL_MAX_PAGES, head, applications, k);
  }

  /** Forty-one ids, of which the last one was seen, on pages of two: all forty before it are handled. */
  lemma WarnsAtThePageLimit(applications: set<Id>)
    ensures var feed: seq<Id> := seq(41, (i: nat) => i);
            var scan := ScanFrom(Cut(feed, 2), 0, INCREMENTAL_MAX_PAGES, {40}, applications);
            scan == Scan(feed[..40], false, []) && feed[40] == 40
  {
    ScanOfFeed(seq(41, (i: nat) => i), 2, INCREMENTAL_MAX_PAGES, {40}, applications, 40);
  }

  /** Thirty-nine ids on pages of two, none of which was seen: all of them are handled. */
  lemma WarnsAtTheEndOfTheFeed(applications: set<Id>)
    ensures var feed: seq<Id> := seq(39, (i: nat) => i);
            ScanFrom(Cut(feed, 2), 0, INCREMENTAL_MAX_PAGES, {100}, applications) == Scan(feed, false, [])
  {
    var feed: seq<Id> := seq(39, (i: nat) => i);
    ScanOfFeed(feed, 2, INCREMENTAL_MAX_PAGES, {100}, applications, 39);
    assert feed[..39] == feed;
  }

  /** Two runs in a row: the next run over the same feed with `news` put in front handles exactly `news`,
      and warns exactly when `news` fills all the pages allowed. */
  lemma NextRunHandlesTheNews(feed: seq<Id>, news: seq<Id>, size: nat, applications: set<Id>)
    requires size > 0 && feed != [] && (forall x | x in news :: x !in feed)
    ensures var head := SetOf(FirstForty(PageOf(feed, size, 0).ids));
            var scan := ScanFrom(Cut(news + feed, size), 0, PageLimit(head), head, applications);
            && (scan.overlap <==> |news| < INCREMENTAL_MAX_PAGES * size)
            && (scan.overlap ==> scan.handled == news)
  {
    var ids := PageOf(feed, size, 0).ids;
    var head := SetOf(FirstForty(ids));
    assert 0 * size == 0;
    assert FirstForty(ids)[0] == feed[0] && feed[0] in FirstForty(ids);
    var all, k := news + feed, |news|;
    forall x | x in head ensures x in feed { assert x in ids; }
    forall i | 0 <= i < k ensures all[i] !in head { assert all[i] == news[i] && news[i] in news; }
    assert all[k] == feed[0];
    ScanOfFeed(all, size, INCREMENTAL_MAX_PAGES, head, applications, k);
    assert all[..k] == news;
  }

  /** Any number of failed runs after a completed one. */
  function Failing(cursor: Cursor, runs: nat): Cursor
  {
    if runs == 0 then cursor else FailureCursor(Failing(cursor, runs - 1))
  }

  lemma {:induction false} FailuresForgetNothing(cursor: Cursor, runs: nat)
    ensures var now := Failing(cursor, runs);
            && now.headIds == cursor.headIds
            && now.stats == cursor.stats.(runs := cursor.stats.runs + runs, errors := cursor.stats.errors + runs)
  {
    if runs > 0 {
      FailuresForgetNothing(cursor, runs - 1);
    }
  }

  /** However many runs fail in between, the next run over the same feed with `news` put in front of it handles exactly
      the news: a failed run leaves the head that the last completed one stored. */
  lemma RunAfterFailuresHandlesTheNews(feed: seq<Id>, news: seq<Id>, size: nat, applications: set<Id>, was: Cursor,
                                       c: Counters, failed: nat)
    requires size > 0 && feed != [] && (forall x | x in news :: x !in feed)
    ensures var cursor := Failing(SuccessCursor(was, FirstForty(PageOf(feed, size, 0).ids), c), failed);
            var head := SetOf(cursor.headIds);
            var scan := ScanFrom(Cut(news + feed, size), 0, PageLimit(head), head, applications);
            && (scan.overlap <==> |news| < 20 * size) && (scan.overlap ==> scan.handled == news)
  {
    FailuresForgetNothing(SuccessCursor(was, FirstForty(PageOf(feed, size, 0).ids), c), failed);
    NextRunHandlesTheNews(feed, news, size, applications);
  }
}
