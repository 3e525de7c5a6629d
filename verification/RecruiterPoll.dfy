/** The polls of one recruiter chat and their cursor (`_process_chat` in backend/app/worker/recruiter_poll.py). */
module RecruiterPoll {
  import opened Options

  type Id = nat

  datatype Message = Message(id: Id, fromEmployer: bool, text: string)

  /** How a run of the agent ends: it raises, it finishes but storing the cursor raises, or all goes well. */
  datatype Fate = AgentFails | StoreFails | Completes

  /** What one poll meets: the chat as it was listed, and the messages as they are fetched after that. */
  datatype Poll = Poll(skipped: bool, lastId: Option<Id>, lastIsOurs: bool, messages: seq<Message>, fate: Fate)

  /** The newest message of the employer that has a text stands at `|result| - 1`; 0 if there is none. */
  function Newest(messages: seq<Message>): (n: nat)
    ensures n <= |messages|
    ensures n > 0 ==> messages[n - 1].fromEmployer && messages[n - 1].text != ""
    ensures forall i | n <= i < |messages| :: !messages[i].fromEmployer || messages[i].text == ""
  {
    if messages == [] then 0
    else
      var last := messages[|messages| - 1];
      if last.fromEmployer && last.text != "" then |messages| else Newest(messages[..|messages| - 1])
  }

  /** The poll starts the agent, with the cursor as it stands. */
  predicate Runs(cursor: Option<Id>, poll: Poll)
  {
    && !poll.skipped && poll.lastId.Some? && !poll.lastIsOurs && cursor != poll.lastId
    && Newest(poll.messages) > 0 && cursor != Some(poll.messages[Newest(poll.messages) - 1].id)
  }

  function After(cursor: Option<Id>, poll: Poll): Option<Id>
  {
    if Runs(cursor, poll) && poll.fate.Completes? then Some(poll.messages[Newest(poll.messages) - 1].id) else cursor
  }

  /** The last message of the employer that has a text. */
  predicate IsLatest(messages: seq<Message>, i: nat)
  {
    && i < |messages| && messages[i].fromEmployer && messages[i].text != ""
    && forall j | i < j < |messages| :: !messages[j].fromEmployer || messages[j].text == ""
  }

  class Negotiation {
    /** `last_handled_message_id` */
    var cursor: Option<Id>

    /** One poll: the message the agent was started on, and whether it raised. */
    method ProcessChat(poll: Poll) returns (ran: Option<Id>, raised: bool)
      modifies this
      ensures cursor == After(old(cursor), poll)
      ensures ran == if Runs(old(cursor), poll) then Some(poll.messages[Newest(poll.messages) - 1].id) else None
      ensures raised <==> Runs(old(cursor), poll) && !poll.fate.Completes?
      ensures poll.skipped || poll.lastIsOurs || poll.lastId == None || poll.lastId == old(cursor) ==> ran == None
      ensures ran.Some? ==>
                && ran != old(cursor)
                && exists i ::
                     0 <= i < |poll.messages| && IsLatest(poll.messages, i) && ran == Some(poll.messages[i].id)
      ensures cursor == if ran.Some? && !raised then ran else old(cursor)
    {
      ran, raised := None, false;
      if poll.skipped || poll.lastId == None || poll.lastIsOurs || cursor == poll.lastId {
        return;
      }
      var i := |poll.messages|;
      while i > 0 && !(poll.messages[i - 1].fromEmployer && poll.messages[i - 1].text != "")
        invariant 0 <= i <= |poll.messages|
        invariant forall j | i <= j < |poll.messages| :: !poll.messages[j].fromEmployer || poll.messages[j].text == ""
      {
        i := i - 1;
      }
      NewestIs(poll.messages, i);
      if i == 0 || cursor == Some(poll.messages[i - 1].id) {
        return;
      }
      assert IsLatest(poll.messages, i - 1);
      ran := Some(poll.messages[i - 1].id);
      if poll.fate.Completes? {
        cursor := ran;
      } else {
        raised := true;
      }
    }
  }

  lemma {:induction false} NewestIs(messages: seq<Message>, n: nat)
    requires n <= |messages| && (n > 0 ==> messages[n - 1].fromEmployer && messages[n - 1].text != "")
    requires forall i | n <= i < |messages| :: !messages[i].fromEmployer || messages[i].text == ""
    ensures Newest(messages) == n
    decreases |messages|
  {
    if n < |messages| {
      NewestIs(messages[..|messages| - 1], n);
    }
  }

  /** The cursor before poll `k`. */
  function CursorAt(cursor: Option<Id>, polls: seq<Poll>, k: nat): Option<Id>
    requires k <= |polls|
  {
    if k == 0 then cursor else After(CursorAt(cursor, polls, k - 1), polls[k - 1])
  }

  predicate RunsAt(cursor: Option<Id>, polls: seq<Poll>, k: nat)
  {
    k < |polls| && Runs(CursorAt(cursor, polls, k), polls[k])
  }

  predicate CompletesAt(cursor: Option<Id>, polls: seq<Poll>, k: nat)
  {
    RunsAt(cursor, polls, k) && polls[k].fate.Completes?
  }

  /** The place in the chat of the message that poll `k` is about. */
  function Target(polls: seq<Poll>, k: nat): nat
    requires k < |polls|
  {
    Newest(polls[k].messages)
  }

  /** Chats only grow, and message ids are their own. */
  predicate AppendOnly(polls: seq<Poll>)
  {
    && (forall i, j | 0 <= i < j < |polls| :: polls[i].messages <= polls[j].messages)
    && (forall k, i, j | 0 <= k < |polls| && 0 <= i < j < |polls[k].messages| ::
          polls[k].messages[i].id != polls[k].messages[j].id)
  }

  lemma NewestGrows(a: seq<Message>, b: seq<Message>)
    requires a <= b
    ensures Newest(a) <= Newest(b)
  {
    if Newest(a) > 0 {
      assert b[Newest(a) - 1] == a[Newest(a) - 1];
    }
  }

  /** Between two completed runs the cursor stays at the first one's message. */
  lemma {:induction false} CursorRemembers(cursor: Option<Id>, polls: seq<Poll>, i: nat, j: nat)
    requires i < j <= |polls| && CompletesAt(cursor, polls, i)
    requires forall k | i < k < j :: !CompletesAt(cursor, polls, k)
    ensures Target(polls, i) > 0 && CursorAt(cursor, polls, j) == Some(polls[i].messages[Target(polls, i) - 1].id)
    decreases j
  {
    if j > i + 1 {
      CursorRemembers(cursor, polls, i, j - 1);
      assert !CompletesAt(cursor, polls, j - 1);
    }
  }

  /** The last completed run before `j`, given one at `i`. */
  lemma {:induction false} LastCompleted(cursor: Option<Id>, polls: seq<Poll>, i: nat, j: nat) returns (k: nat)
    requires i < j <= |polls| && CompletesAt(cursor, polls, i)
    ensures i <= k < j && CompletesAt(cursor, polls, k) && forall m | k < m < j :: !CompletesAt(cursor, polls, m)
    decreases j
  {
    if CompletesAt(cursor, polls, j - 1) {
      k := j - 1;
    } else {
      k := LastCompleted(cursor, polls, i, j - 1);
    }
  }

  /** After a completed run, whatever polls come between, succeed or fail, the agent is only ever started on a
      strictly later message of the employer: no message is handled again once a run on it has completed. */
  lemma {:induction false} RunsMoveForward(cursor: Option<Id>, polls: seq<Poll>, i: nat, j: nat)
    requires AppendOnly(polls) && i < j && CompletesAt(cursor, polls, i) && RunsAt(cursor, polls, j)
    ensures 0 < Target(polls, i) < Target(polls, j)
    ensures polls[j].messages[Target(polls, j) - 1].id != polls[i].messages[Target(polls, i) - 1].id
    decreases j
  {
    var k := LastCompleted(cursor, polls, i, j);
    CursorRemembers(cursor, polls, k, j);
    NewestGrows(polls[k].messages, polls[j].messages);
    if i < k {
      RunsMoveForward(cursor, polls, i, k);
    }
    assert polls[i].messages <= polls[j].messages && polls[k].messages <= polls[j].messages;
  }

  /** A run that fails leaves the cursor alone, so the next poll of the same chat starts the agent on it again. */
  lemma FailedRunIsRepeated(cursor: Option<Id>, polls: seq<Poll>, k: nat)
    requires k + 1 < |polls| && RunsAt(cursor, polls, k) && !polls[k].fate.Completes?
    requires polls[k + 1] == polls[k].(fate := polls[k + 1].fate)
    ensures CursorAt(cursor, polls, k + 1) == CursorAt(cursor, polls, k)
    ensures RunsAt(cursor, polls, k + 1) && Target(polls, k + 1) == Target(polls, k)
  {
  }

  /** A message is answered a second time exactly when its run did not complete: if the agent was started on it
      at `i` and at `j`, the run at `i` was not a completed one. */
  lemma AnsweredTwiceMeansNotCompleted(cursor: Option<Id>, polls: seq<Poll>, i: nat, j: nat)
    requires AppendOnly(polls) && i < j && RunsAt(cursor, polls, i) && RunsAt(cursor, polls, j)
    requires polls[i].messages[Target(polls, i) - 1].id == polls[j].messages[Target(polls, j) - 1].id
    ensures !polls[i].fate.Completes?
  {
    if polls[i].fate.Completes? {
      RunsMoveForward(cursor, polls, i, j);
    }
  }

  /** A new employer message at the end of the chat is never passed over, unless the negotiation is closed. */
  lemma NewMessageStartsTheAgent(cursor: Option<Id>, poll: Poll)
    requires poll.messages != [] && !poll.skipped && !poll.lastIsOurs
    requires var last := poll.messages[|poll.messages| - 1];
             last.fromEmployer && last.text != "" && poll.lastId == Some(last.id) && cursor != Some(last.id)
    ensures Runs(cursor, poll) && Newest(poll.messages) == |poll.messages|
  {
  }

  /** A closed chat, an empty one, and one whose last message is ours or was handled are passed over; any other whose
      latest employer message was not handled starts the agent on that message. */
  lemma StartsTheAgentIff(cursor: Option<Id>, poll: Poll, i: nat)
    requires IsLatest(poll.messages, i)
    ensures Runs(cursor, poll) <==>
            && !poll.skipped && poll.lastId != None && !poll.lastIsOurs && poll.lastId != cursor
            && Some(poll.messages[i].id) != cursor
    ensures After(cursor, poll) ==
            if Runs(cursor, poll) && poll.fate == Completes then Some(poll.messages[i].id) else cursor
  {
    NewestIs(poll.messages, i + 1);
  }

  lemma NothingToAnswer(cursor: Option<Id>, poll: Poll)
    requires forall i | 0 <= i < |poll.messages| :: !poll.messages[i].fromEmployer || poll.messages[i].text == ""
    ensures !Runs(cursor, poll) && After(cursor, poll) == cursor
  {
    NewestIs(poll.messages, 0);
  }
}
