/** What it means that a Conversation is blocked: it takes no further Run, and starts none of
    those it has. */
module Blocking {
  import opened Records
  import opened Transactions
  import opened Protocol
  import opened Invariants
  import opened Changes
  import opened Histories
  import opened Execution

  predicate Blocked(db: Db, c: ConversationId) {
    c in db.conversations && db.conversations[c].status.BLOCKED?
  }

  lemma BlockWrites(s: System, conversation: Conversation)
    requires conversation in s.seen.conversations && conversation.status.ACTIVE?
    requires ConversationFresh(s.db, conversation)
    ensures var db, c := s.db, conversation.id;
            var db' := DoBlock(s, conversation).db;
            && (db' != db <==> db.conversations[c] == conversation)
            && (db' != db ==> Blocked(db', c)
                              && db' == db.(conversations := db.conversations[c := db'.conversations[c]]))
  {
  }

  lemma BlockStep(s: System, conversation: Conversation)
    ensures Do(s, Block(conversation)).db == DoBlock(s, conversation).db
  {
    hide DoBlock;
  }

  /** A block that writes anything blocks its Conversation, which was ACTIVE, and nothing else; it
      writes unless the Conversation has changed since it was read. */
  lemma {:induction false} BlockBlocks(steps: seq<Step>, conversation: Conversation)
    requires conversation in After(steps).seen.conversations && conversation.status.ACTIVE?
    ensures var db, db' := After(steps).db, Do(After(steps), Block(conversation)).db;
            var c := conversation.id;
            && c in db.conversations
            && (db' != db <==> db.conversations[c] == conversation)
            && (db' != db ==> Blocked(db', c)
                              && db' == db.(conversations := db.conversations[c := db'.conversations[c]]))
  {
    hide After, Inv, DoBlock, Do;
    var s := After(steps);
    Reachable(steps);
    InvIsSeen(s);
    assert ConversationFresh(s.db, conversation);
    hide SeenOk, RowsOk;
    BlockWrites(s, conversation);
    BlockStep(s, conversation);
  }

  lemma {:induction false} StepKeepsBlocked(s: System, step: Step, c: ConversationId)
    requires Inv(s) && Blocked(s.db, c)
    ensures Blocked(Do(s, step).db, c)
  {
    hide Inv, Do, SidesMove, RunsMove, AttemptsMove, ActionsMove, PlansMove;
    StepMoves(s, step);
  }

  /** Blocking is for good. */
  lemma {:induction false} BlockedLasts(steps: seq<Step>, more: seq<Step>, c: ConversationId)
    requires Blocked(After(steps).db, c)
    ensures Blocked(After(steps + more).db, c)
    decreases |more|
  {
    hide Blocked, Do, Inv;
    if more == [] {
      assert steps + more == steps;
    } else {
      BlockedLasts(steps, more[..|more| - 1], c);
      Reachable(steps + more[..|more| - 1]);
      OneMore(steps, more);
      StepKeepsBlocked(After(steps + more[..|more| - 1]), more[|more| - 1], c);
    }
  }

  function RunsOf(db: Db, c: ConversationId): set<RunId> {
    set r | r in db.runs && InConversation(db.runs[r], c)
  }

  lemma BlockedRefuses(s: System, step: Step)
    requires step.SubmitToConversation? && Blocked(s.db, step.place)
    ensures Do(s, step).db == s.db
  {
  }

  lemma MoveKeepsPlace(s: System, step: Step, x: Run, y: Run)
    requires RunMoves(s, step, x, y)
    ensures y.place == x.place
  {
    hide CanSettle, LeaseValid, Abandoned, Owns;
  }

  lemma {:induction false} BlockedRowStays(s: System, step: Step, c: ConversationId, r: RunId)
    requires Inv(s) && Blocked(s.db, c)
    ensures r in RunsOf(Do(s, step).db, c) <==> r in RunsOf(s.db, c)
  {
    hide Inv, Do, RunMoves, Blocked;
    RowOrMove(s, step, r);
    if r in s.db.runs {
      if Do(s, step).db.runs[r] != s.db.runs[r] {
        MoveKeepsPlace(s, step, s.db.runs[r], Do(s, step).db.runs[r]);
      }
    } else if step.SubmitToConversation? && step.place == c {
      BlockedRefuses(s, step);
    }
  }

  /** After the block the Conversation keeps the Runs it has, and none is added. */
  lemma {:induction false} BlockedAddsNoRun(steps: seq<Step>, more: seq<Step>, c: ConversationId)
    requires Blocked(After(steps).db, c)
    ensures RunsOf(After(steps + more).db, c) == RunsOf(After(steps).db, c)
    decreases |more|
  {
    hide Blocked, Do, Inv, RunsOf;
    if more == [] {
      assert steps + more == steps;
    } else {
      var before := After(steps + more[..|more| - 1]);
      BlockedAddsNoRun(steps, more[..|more| - 1], c);
      BlockedLasts(steps, more[..|more| - 1], c);
      Reachable(steps + more[..|more| - 1]);
      OneMore(steps, more);
      forall r ensures r in RunsOf(After(steps + more).db, c) <==> r in RunsOf(before.db, c) {
        BlockedRowStays(before, more[|more| - 1], c, r);
      }
    }
  }

  lemma BlockedGrantsNothing(s: System, step: Step, c: ConversationId)
    requires Blocked(s.db, c)
    ensures !Granting(s, step, ConversationResource(c))
  {
  }

  /** No Run of a blocked Conversation may be claimed, so nobody is ever granted its lease again. */
  lemma {:induction false} BlockedIsNeverClaimed(steps: seq<Step>, more: seq<Step>, c: ConversationId)
    requires Blocked(After(steps).db, c)
    ensures forall r :: r in RunsOf(After(steps + more).db, c) ==> !Runnable(After(steps + more).db, r)
    ensures Grants(steps + more, ConversationResource(c)) == Grants(steps, ConversationResource(c))
    decreases |more|
  {
    BlockedLasts(steps, more, c);
    hide After, Granting, Busy;
    if more == [] {
      assert steps + more == steps;
    } else {
      var before := more[..|more| - 1];
      BlockedIsNeverClaimed(steps, before, c);
      BlockedLasts(steps, before, c);
      assert (steps + more)[..|steps + more| - 1] == steps + before;
      BlockedGrantsNothing(After(steps + before), more[|more| - 1], c);
    }
  }

  lemma NewConversationSeen(s: System, step: Step, conversation: Conversation)
    requires conversation in Do(s, step).seen.conversations && conversation !in s.seen.conversations
    ensures exists c :: c in Do(s, step).db.conversations && Do(s, step).db.conversations[c] == conversation
  {
    SeenAfter(s, step);
    hide Do;
  }

  /** Whoever holds the Conversation as ACTIVE has read it before the block. */
  lemma {:induction false} ActiveWasReadBefore(steps: seq<Step>, more: seq<Step>, conversation: Conversation)
    requires Blocked(After(steps).db, conversation.id) && conversation.status.ACTIVE?
    requires conversation in After(steps + more).seen.conversations
    ensures conversation in After(steps).seen.conversations
    decreases |more|
  {
    hide Do;
    if more == [] {
      assert steps + more == steps;
    } else {
      var before := more[..|more| - 1];
      OneMore(steps, more);
      BlockedLasts(steps, more, conversation.id);
      KeysAreIds(steps + more);
      hide After;
      if conversation !in After(steps + before).seen.conversations {
        NewConversationSeen(After(steps + before), more[|more| - 1], conversation);
      }
      ActiveWasReadBefore(steps, before, conversation);
    }
  }

  lemma SelectionIs(s: System, lease: Lease, conversation: Option<Conversation>, r: RunId)
    requires Do(s, Select(lease, conversation, r)).tasks != s.tasks && lease.resource.ConversationResource?
    ensures conversation.Some? && conversation.value in s.seen.conversations && conversation.value.status.ACTIVE?
    ensures lease.resource == ConversationResource(conversation.value.id)
  {
    hide NextInLine;
  }

  /** A task picks a Run of a blocked Conversation only if it read the Conversation before. */
  lemma {:induction false} BlockedSelectsNone(steps: seq<Step>, more: seq<Step>, lease: Lease, c: ConversationId,
                                              conversation: Option<Conversation>, r: RunId)
    requires Blocked(After(steps).db, c) && lease.resource == ConversationResource(c)
    requires Do(After(steps + more), Select(lease, conversation, r)).tasks != After(steps + more).tasks
    ensures conversation.Some? && conversation.value.id == c && conversation.value.status.ACTIVE?
    ensures conversation.value in After(steps).seen.conversations
  {
    hide After, Do, Blocked;
    SelectionIs(After(steps + more), lease, conversation, r);
    ActiveWasReadBefore(steps, more, conversation.value);
  }
}
