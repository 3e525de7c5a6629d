/** An edit between the read and the write of `approve_letter`: the row is approved under the hash of a text
    that is no longer its draft. */
module ApprovalRace {
  import opened Options
  import opened Tables
  import opened Enrichment
  import opened Funnel
  import Lifecycle

  /** An approval that takes effect leaves hash and draft in agreement exactly if the draft is still the text that
      was read. */
  lemma ApprovalMatchesDraftIff(db: Db, me: Id, hint: Hint, pid: Id, text: string)
    requires text != "" && pid in db.rows && db.rows[pid].status == LetterDraft && Lands(hint.mishap)
    ensures var now := Act(db, me, hint, OfQueue(Queue.ApproveWrite(pid, text))).0.rows;
            && pid in now && now[pid].status == Approved
            && (Queue.HashMatchesDraft(now[pid]) <==> Strip(db.rows[pid].draft) == text)
  {
    hide Strip;
  }

  /** From then on it cannot change any more, as long as the row is not put back to letter_draft. */
  lemma MatchIsKept(earlier: Run, later: Run, pid: Id)
    requires Within(earlier, later) && Lifecycle.SettledThroughout(earlier, later, pid)
    ensures pid in State(earlier).db.rows && pid in State(later).db.rows
    ensures Queue.HashMatchesDraft(State(later).db.rows[pid]) <==> Queue.HashMatchesDraft(State(earlier).db.rows[pid])
  {
    hide Next, Strip;
    Lifecycle.SettledLetterIsFrozen(earlier, later, pid);
  }

  // ---------------------------------------------------------------- the race happens

  const LETTER: string := seq(1400, _ => 'a')
  const NO_HINT := Hint(None, false, Fine)

  function Go(run: Run, me: Id): Run { After(run, Move(me, NO_HINT)) }

  /** A vacancy is found, selected, and gets a generated letter. */
  const FOUND: Run := Go(Go(After(Init, Start(0, OfReview(Review.Discovering(Look(7, Some(5), true))))), 0), 0)
  const CHOSEN: Run := Go(Go(After(FOUND, Start(1, OfReview(Review.DecideRead(0, Review.Select, false)))), 1), 1)
  const WRITTEN: Run :=
    Go(Go(After(CHOSEN, Start(2, OfLetters(Letters.GenerateRead(Letters.Order(0, PageBroken, None, Some(LETTER)))))),
        2), 2)

  /** The user approves it, and saves another text while the approval is under way. */
  const APPROVING: Run := Go(After(WRITTEN, Start(3, OfQueue(Queue.ApproveRead(0)))), 3)
  const EDITED: Run := Go(Go(After(APPROVING, Start(4, OfLetters(Letters.SaveRead(0, "b")))), 4), 4)
  const APPROVED: Run := Go(EDITED, 3)

  function With(row: Row): Db { Empty().(rows := map[0 := row]) }

  const BARE := Row(Discovered, 7, Some(5), true, "", None, None, 0)

  lemma StartIs(run: Run, me: Id, p: Proc)
    requires me !in State(run).procs && Entry(p)
    ensures State(After(run, Start(me, p))) == State(run).(procs := State(run).procs[me := p])
  {
  }

  lemma GoIs(run: Run, me: Id, p: Proc, db: Db, next: Proc)
    requires me in State(run).procs && State(run).procs[me] == p && Act(State(run).db, me, NO_HINT, p) == (db, next)
    ensures State(Go(run, me)) == Sys(db, State(run).procs[me := next])
  {
    hide Act;
  }

  lemma PutIs(was: Row, now: Row)
    ensures Put(With(was), 0, now) == With(now)
  {
    assert map[0 := was][0 := now] == map[0 := now];
  }

  lemma Find()
    ensures State(FOUND).db == With(BARE) && State(FOUND).procs.Keys == {0}
  {
    hide Next;
    var p := OfReview(Review.Discovering(Look(7, Some(5), true)));
    var begun := After(Init, Start(0, p));
    StartIs(Init, 0, p);
    GoIs(begun, 0, p, Empty(), OfReview(Review.Discovering(Insert(7, Some(5), true))));
    GoIs(Go(begun, 0), 0, OfReview(Review.Discovering(Insert(7, Some(5), true))), With(BARE),
        OfReview(Review.Done(true)));
  }

  lemma Choose()
    ensures State(CHOSEN).db == With(BARE.(status := Selected)) && State(CHOSEN).procs.Keys == {0, 1}
  {
    hide FOUND, Next;
    Find();
    var p := OfReview(Review.DecideRead(0, Review.Select, false));
    var begun := After(FOUND, Start(1, p));
    StartIs(FOUND, 1, p);
    GoIs(begun, 1, p, With(BARE), OfReview(Review.DecideWrite(0, Discovered, Selected)));
    PutIs(BARE, BARE.(status := Selected));
    GoIs(Go(begun, 1), 1, OfReview(Review.DecideWrite(0, Discovered, Selected)), With(BARE.(status := Selected)),
        OfReview(Review.Done(true)));
  }

  lemma LetterIsStripped()
    ensures Strip(LETTER) == LETTER && |LETTER| == 1400 && Strip("b") == "b" && LETTER != "b"
  {
    assert LETTER[0] == 'a' && LETTER[1399] == 'a';
  }

  const DRAFTED := BARE.(status := LetterDraft, draft := LETTER)

  lemma Write()
    ensures State(WRITTEN).db == With(DRAFTED) && State(WRITTEN).procs.Keys == {0, 1, 2}
  {
    hide CHOSEN, LETTER, Strip, Next;
    Choose();
    LetterIsStripped();
    var p := OfLetters(Letters.GenerateRead(Letters.Order(0, PageBroken, None, Some(LETTER))));
    var write := OfLetters(Letters.GenerateWrite(0, true, 5, LETTER));
    var begun := After(CHOSEN, Start(2, p));
    StartIs(CHOSEN, 2, p);
    GoIs(begun, 2, p, With(BARE.(status := Selected)), write);
    PutIs(BARE.(status := Selected), DRAFTED);
    GoIs(Go(begun, 2), 2, write, With(DRAFTED), OfLetters(Letters.Done(true)));
  }

  lemma BeginApproval()
    ensures State(APPROVING).db == With(DRAFTED) && State(APPROVING).procs.Keys == {0, 1, 2, 3}
    ensures State(APPROVING).procs[3] == OfQueue(Queue.ApproveWrite(0, LETTER))
  {
    hide WRITTEN, LETTER, Strip, Next;
    Write();
    LetterIsStripped();
    StartIs(WRITTEN, 3, OfQueue(Queue.ApproveRead(0)));
    GoIs(After(WRITTEN, Start(3, OfQueue(Queue.ApproveRead(0)))), 3, OfQueue(Queue.ApproveRead(0)), With(DRAFTED),
         OfQueue(Queue.ApproveWrite(0, LETTER)));
  }

  lemma Edit()
    ensures State(EDITED).db == With(DRAFTED.(draft := "b"))
    ensures 3 in State(EDITED).procs && State(EDITED).procs[3] == OfQueue(Queue.ApproveWrite(0, LETTER))
  {
    hide APPROVING, LETTER, Strip, Next;
    BeginApproval();
    LetterIsStripped();
    var p := OfLetters(Letters.SaveRead(0, "b"));
    var write := OfLetters(Letters.SaveWrite(0, "b", false));
    var begun := After(APPROVING, Start(4, p));
    StartIs(APPROVING, 4, p);
    GoIs(begun, 4, p, With(DRAFTED), write);
    PutIs(DRAFTED, DRAFTED.(draft := "b"));
    GoIs(Go(begun, 4), 4, write, With(DRAFTED.(draft := "b")), OfLetters(Letters.Done(true)));
  }

  /** A reachable state in which a row is approved but its hash is not that of its draft. */
  lemma MismatchIsReachable()
    ensures 0 in State(APPROVED).db.rows && State(APPROVED).db.rows[0].status == Approved
    ensures !Queue.HashMatchesDraft(State(APPROVED).db.rows[0])
  {
    hide EDITED, LETTER, Strip;
    Edit();
    LetterIsStripped();
  }
}
