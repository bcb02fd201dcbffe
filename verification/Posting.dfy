/** Exactly when a visitor's turn can be posted without anyone being shown the reply to another turn. */
module Posting {
  import opened Outcomes
  import opened GenerationLock
  import opened LockRuns

  /** The turn a request is at work on. */
  function TurnOf(r: Request): Option<nat> {
    match r
    case RetryChecking(n) => Some(n)
    case Reading(n) => Some(n)
    case Adding(n, _) => Some(n)
    case Rechecking(n, _) => Some(n)
    case Generating(n, _) => Some(n)
    case Replying(n, _, _) => Some(n)
    case _ => None
  }

  /** The request is about to look for a reply that is already there. */
  predicate Looks(r: Request) {
    r.RetryChecking? || r.Rechecking?
  }

  /** It looks past this number: its turn's, or the one it read when the attempt began. */
  function LooksPast(r: Request): nat
    requires Looks(r)
  {
    if r.Rechecking? then r.key else r.turn
  }

  /** The row `order_by('seq').first()` finds past the turn. */
  ghost predicate IsFirstReplyAfter(messages: seq<Message>, n: nat, i: int) {
    && 0 <= i < |messages| && messages[i].Agent? && messages[i].number > n
    && forall j :: 0 <= j < |messages| && messages[j].Agent? && messages[j].number > n
        ==> messages[i].number <= messages[j].number
  }

  /** A reply found now would be one to the request's own turn. */
  ghost predicate FindsOwn(messages: seq<Message>, r: Request) {
    Looks(r) ==> forall i :: IsFirstReplyAfter(messages, LooksPast(r), i) ==> messages[i].turn == r.turn
  }

  ghost predicate AllFindOwn(t: Thread) {
    forall p :: p in t.requests ==> FindsOwn(t.messages, t.requests[p])
  }

  /** A later turn does not get in the request's way: it has read its key, and its turn has a reply past it. */
  ghost predicate LeavesRoom(messages: seq<Message>, r: Request) {
    TurnOf(r).Some? ==> !r.Reading? && HasReplyAfter(messages, r.turn)
  }

  ghost predicate AllLeaveRoom(t: Thread) {
    forall p :: p in t.requests ==> LeavesRoom(t.messages, t.requests[p])
  }

  /** Numbers are allocated one at a time, and a turn is inserted only when all requests leave room for it. */
  ghost predicate Considerate(t: Thread, action: Action) {
    && Serialized(t, action)
    && (action.Move? && action.pid in t.requests && t.requests[action.pid].Inserting? ==> AllLeaveRoom(t))
  }

  /** A reply is made under its turn's own key, and numbered before every later turn. */
  ghost predicate TurnsNumbered(messages: seq<Message>) {
    && (forall i :: 0 <= i < |messages| && messages[i].Agent? ==> messages[i].turn == messages[i].key)
    && forall i, j | 0 <= i < |messages| && 0 <= j < |messages| && messages[i].Agent? && messages[j].Visitor? ::
         messages[i].key < messages[j].number ==> messages[i].number < messages[j].number
  }

  ghost predicate IsLast(messages: seq<Message>, n: nat) {
    forall j | 0 <= j < |messages| && messages[j].Visitor? :: messages[j].number <= n
  }

  /** A turn at work has a reply, or no turn is later; it is the key of its attempt, which has still to read it
      only while no turn is later; and where a reply is reported, the turn has one. */
  ghost predicate InTurn(messages: seq<Message>, r: Request) {
    && (TurnOf(r).Some? ==> HasReplyUnder(messages, r.turn) || IsLast(messages, r.turn))
    && (r.Adding? || Holds(r) ==> r.key == r.turn)
    && (r.Reading? ==> IsLast(messages, r.turn))
    && (IsReady(r) ==> Answered(messages, r.turn))
  }

  ghost predicate RepliesInTurn(t: Thread) {
    TurnsNumbered(t.messages) && forall p :: p in t.requests ==> InTurn(t.messages, t.requests[p])
  }

  ghost predicate Orderly(t: Thread) {
    LockInv(t) && NumbersInOrder(t) && RepliesInTurn(t)
  }

  // ---- orderly threads find their own replies ----------------------------------------------

  lemma LooksFindOwn(messages: seq<Message>, r: Request)
    requires Replies(messages) && TurnsNumbered(messages) && InTurn(messages, r) && Looks(r) && RequestRow(messages, r)
    ensures FindsOwn(messages, r)
  {
    hide HasReplyAfter, HasReplyUnder;
    var n := r.turn;
    assert LooksPast(r) == n;
    forall i | IsFirstReplyAfter(messages, n, i)
      ensures messages[i].turn == n
    {
      FirstIsNoEarlier(messages, n, i);
      FirstIsNoLater(messages, n, i);
    }
  }

  lemma FirstIsNoEarlier(messages: seq<Message>, n: nat, i: int)
    requires Replies(messages) && TurnsNumbered(messages) && IsVisitor(messages, n) && IsFirstReplyAfter(messages, n, i)
    ensures messages[i].key >= n
  {
    var k :| 0 <= k < |messages| && messages[k] == Visitor(n);
    var reply, turn := messages[i].number, messages[k].number;
    assert messages[i].key < turn ==> reply < turn;
  }

  lemma FirstIsNoLater(messages: seq<Message>, n: nat, i: int)
    requires Replies(messages) && TurnsNumbered(messages) && IsFirstReplyAfter(messages, n, i)
    requires HasReplyUnder(messages, n) || IsLast(messages, n)
    ensures messages[i].key <= n
  {
    assert IsVisitor(messages, messages[i].key);
    var v :| 0 <= v < |messages| && messages[v] == Visitor(messages[i].key);
    if HasReplyUnder(messages, n) {
      var j :| IsMadeUnder(messages, n, j);
      assert messages[j].number > n;
      var reply, turn := messages[j].number, messages[v].number;
      assert messages[j].key < turn ==> reply < turn;
    }
  }

  lemma OrderlyFindsOwn(t: Thread)
    requires Orderly(t)
    ensures AllFindOwn(t)
  {
    hide LocksHeld, NumbersInOrder, RequestRow, Replies, TurnsNumbered, InTurn, FindsOwn, Looks;
    forall p | p in t.requests
      ensures FindsOwn(t.messages, t.requests[p])
    {
      if Looks(t.requests[p]) {
        LooksFindOwn(t.messages, t.requests[p]);
      } else {
        NotLooking(t.messages, t.requests[p]);
      }
    }
  }

  lemma NotLooking(messages: seq<Message>, r: Request)
    requires !Looks(r)
    ensures FindsOwn(messages, r)
  {
  }

  // ---- considerate steps keep threads orderly ----------------------------------------------

  /** In an orderly thread, a reply past a turn at work means the turn has its own. */
  lemma AnsweredIsOwn(messages: seq<Message>, r: Request)
    requires Replies(messages) && TurnsNumbered(messages) && InTurn(messages, r) && RequestRow(messages, r)
    requires TurnOf(r).Some? && HasReplyAfter(messages, r.turn)
    ensures HasReplyUnder(messages, r.turn) && Answered(messages, r.turn)
  {
    var n := r.turn;
    var i :| 0 <= i < |messages| && messages[i].Agent? && messages[i].number > n;
    assert IsVisitor(messages, messages[i].key) && IsVisitor(messages, n);
    var k :| 0 <= k < |messages| && messages[k] == Visitor(n);
    var v :| 0 <= v < |messages| && messages[v] == Visitor(messages[i].key);
    if messages[i].key == n {
      assert IsMadeUnder(messages, n, i);
    }
    var j :| IsMadeUnder(messages, n, j);
    assert IsReplyTo(messages, n, j);
  }

  lemma TurnInsertedInTurn(messages: seq<Message>, n: nat)
    requires TurnsNumbered(messages) && n > Top(messages)
    ensures TurnsNumbered(messages + [Visitor(n)])
  {
    hide Top;
    assert forall i :: 0 <= i < |messages| ==>
      (messages + [Visitor(n)])[i] == messages[i] && messages[i].number <= Top(messages);
  }

  lemma ReplyInsertedInTurn(messages: seq<Message>, number: nat, key: nat)
    requires TurnsNumbered(messages) && IsLast(messages, key)
    ensures TurnsNumbered(messages + [Agent(number, key, key)])
    ensures Answered(messages + [Agent(number, key, key)], key)
  {
    var after := messages + [Agent(number, key, key)];
    assert forall i :: 0 <= i < |messages| ==> after[i] == messages[i];
    assert IsReplyTo(after, key, |messages|);
  }

  lemma StaysInTurn(messages: seq<Message>, m: Message, r: Request)
    requires InTurn(messages, r)
    requires m.Visitor? && TurnOf(r).Some? ==> HasReplyUnder(messages, r.turn) && !r.Reading?
    ensures InTurn(messages + [m], r)
  {
    OneMoreReply(messages, m);
    if TurnOf(r).Some? && HasReplyUnder(messages, r.turn) {
      var i :| IsMadeUnder(messages, r.turn, i);
      assert IsMadeUnder(messages + [m], r.turn, i);
    }
    if IsReady(r) {
      var i :| IsReplyTo(messages, r.turn, i);
      assert IsReplyTo(messages + [m], r.turn, i);
    }
  }

  lemma InsertKeepsTurns(t: Thread, p: Pid)
    requires Orderly(t) && p in t.requests && t.requests[p].Inserting? && AllLeaveRoom(t)
    ensures var n := t.requests[p].number;
            RepliesInTurn(t.(messages := t.messages + [Visitor(n)], requests := t.requests[p := Reading(n)]))
  {
    hide LocksHeld, Replies, RequestRow, TurnsNumbered, InTurn, Top, HasReplyAfter, HasReplyUnder, Increasing, Answered;
    var n := t.requests[p].number;
    TurnInsertedInTurn(t.messages, n);
    NewestInTurn(t.messages, n);
    forall q | q in t.requests
      ensures InTurn(t.messages + [Visitor(n)], t.requests[q])
    {
      if TurnOf(t.requests[q]).Some? {
        AnsweredIsOwn(t.messages, t.requests[q]);
      }
      StaysInTurn(t.messages, Visitor(n), t.requests[q]);
    }
  }

  lemma NewestInTurn(messages: seq<Message>, n: nat)
    requires n == Top(messages) + 1
    ensures InTurn(messages + [Visitor(n)], Reading(n))
  {
    hide Top;
    assert forall i :: 0 <= i < |messages| ==> messages[i].number <= Top(messages);
  }

  lemma ReplyKeepsTurns(t: Thread, p: Pid)
    requires Orderly(t) && p in t.requests && t.requests[p].Replying?
    ensures var r := t.requests[p];
            RepliesInTurn(t.(messages := t.messages + [Agent(r.number, r.key, r.turn)],
                             requests := t.requests[p := Releasing(r.turn, r.key, Ready)]))
  {
    hide LocksHeld, Replies, TurnsNumbered, InTurn, HasReplyAfter, HasReplyUnder, IsLast, Increasing, Answered;
    var r := t.requests[p];
    assert RequestRow(t.messages, r);
    WriterIsLast(t.messages, r);
    var m := Agent(r.number, r.key, r.turn);
    ReplyInsertedInTurn(t.messages, r.number, r.key);
    ReadyIsInTurn(t.messages + [m], Releasing(r.turn, r.key, Ready));
    forall q | q in t.requests
      ensures InTurn(t.messages + [m], t.requests[q])
    {
      StaysInTurn(t.messages, m, t.requests[q]);
    }
  }

  lemma WriterIsLast(messages: seq<Message>, r: Request)
    requires RequestRow(messages, r) && InTurn(messages, r) && r.Replying?
    ensures IsLast(messages, r.key) && r.turn == r.key
  {
  }

  lemma ReadyIsInTurn(messages: seq<Message>, r: Request)
    requires IsReady(r) && Answered(messages, r.turn) && (r.Releasing? ==> r.key == r.turn)
    ensures InTurn(messages, r)
  {
  }

  lemma ConsiderateKeepsTurns(t: Thread, action: Action)
    requires Orderly(t) && Considerate(t, action) && Act(t, action).Some?
    ensures RepliesInTurn(Act(t, action).value)
  {
    hide Top, Latest, HasReplyAfter, LocksHeld, Replies, RequestRow, TurnsNumbered, InTurn, Increasing, AllLeaveRoom,
         IsLast, Answered;
    var n := Act(t, action).value;
    if action.Move? {
      var p := action.pid;
      var r := t.requests[p];
      if r.Inserting? {
        InsertKeepsTurns(t, p);
      } else if r.Replying? {
        ReplyKeepsTurns(t, p);
      } else {
        MoveKeepsTurn(t, p, action.generated);
      }
    } else if action.Arrive? {
      ArrivalInTurn(t.messages, action.retry);
    } else if !action.Evict? {
      StoppedInTurn(t, action);
    }
  }

  lemma ArrivalInTurn(messages: seq<Message>, retry: bool)
    ensures InTurn(messages, if retry then Retrying else Allocating)
  {
  }

  /** A killed request, one whose lock ran out, or one without a number. */
  lemma StoppedInTurn(t: Thread, action: Action)
    requires Orderly(t) && Considerate(t, action) && Act(t, action).Some?
    requires action.Kill? || action.Expire? || action.MoveUnnumbered?
    ensures InTurn(t.messages, Act(t, action).value.requests[action.pid])
  {
    hide Top, Latest, HasReplyAfter, LocksHeld, Replies, RequestRow, TurnsNumbered, Increasing, AllLeaveRoom, IsLast,
         Answered, HasReplyUnder;
    assert InTurn(t.messages, t.requests[action.pid]);
  }

  lemma MoveKeepsTurn(t: Thread, p: Pid, generated: bool)
    requires Orderly(t) && p in t.requests && !t.requests[p].Inserting? && !t.requests[p].Replying?
    requires MoveOn(t, p, t.requests[p], generated).Some?
    ensures InTurn(t.messages, MoveOn(t, p, t.requests[p], generated).value.requests[p])
  {
    hide Top, Latest, HasReplyAfter, LocksHeld, Replies, RequestRow, TurnsNumbered, Increasing, IsLast, Answered,
         HasReplyUnder;
    var r := t.requests[p];
    assert RequestRow(t.messages, r) && InTurn(t.messages, r);
    match r
    case Retrying => LatestIsLast(t.messages);
    case RetryChecking(n) =>
      if HasReplyAfter(t.messages, n) {
        AnsweredIsOwn(t.messages, r);
      } else {
        NoReplyMeansNone(t.messages, n);
      }
    case Reading(n) => LatestIsOwn(t.messages, r);
    case Rechecking(n, key) =>
      if HasReplyAfter(t.messages, n) {
        AnsweredIsOwn(t.messages, r);
      }
    case _ =>
  }

  lemma LatestIsLast(messages: seq<Message>)
    ensures Latest(messages).Some? ==> IsLast(messages, Latest(messages).value)
  {
  }

  lemma LatestIsOwn(messages: seq<Message>, r: Request)
    requires RequestRow(messages, r) && InTurn(messages, r) && r.Reading?
    ensures Latest(messages) == Some(r.turn)
  {
    LatestNoEarlier(messages, r.turn);
    var i :| 0 <= i < |messages| && messages[i] == Visitor(Latest(messages).value);
  }

  lemma ConsiderateKeepsOrder(t: Thread, action: Action)
    requires Orderly(t) && Considerate(t, action) && Act(t, action).Some?
    ensures Orderly(Act(t, action).value)
  {
    hide LockInv, NumbersInOrder, RepliesInTurn, Act, AllLeaveRoom;
    ActKeepsLock(t, action);
    SerializedNumbersIncrease(t, action);
    ConsiderateKeepsTurns(t, action);
  }

  ghost predicate ConsiderateNext(s: Thread, t: Thread) {
    exists action :: Considerate(s, action) && Act(s, action) == Some(t)
  }

  ghost predicate ConsiderateRun(run: seq<Thread>) {
    && |run| > 0 && run[0] == FRESH
    && forall i :: 0 < i < |run| ==> ConsiderateNext(run[i - 1], run[i])
  }

  /** Over whole considerate runs numbers are distinct and in order, whoever finds a reply finds one to its own
      turn, and whoever reports 'ready' has one. */
  lemma {:induction false} ConsiderateRunsAnswerEachTurn(run: seq<Thread>, i: nat)
    requires ConsiderateRun(run) && i < |run|
    ensures Orderly(run[i]) && Increasing(run[i].messages) && AllFindOwn(run[i])
    ensures forall p | p in run[i].requests && IsReady(run[i].requests[p]) ::
              Answered(run[i].messages, run[i].requests[p].turn)
  {
    if i > 0 {
      ConsiderateRunsAnswerEachTurn(run, i - 1);
      hide Orderly, Act;
      assert ConsiderateNext(run[i - 1], run[i]);
      var action :| Considerate(run[i - 1], action) && Act(run[i - 1], action) == Some(run[i]);
      ConsiderateKeepsOrder(run[i - 1], action);
    }
    OrderlyFindsOwn(run[i]);
    OrderlyReadyIsAnswered(run[i]);
  }

  lemma OrderlyReadyIsAnswered(t: Thread)
    requires Orderly(t)
    ensures forall p | p in t.requests && IsReady(t.requests[p]) :: Answered(t.messages, t.requests[p].turn)
  {
    hide LockInv, NumbersInOrder, TurnsNumbered, Answered;
    assert forall p :: p in t.requests ==> InTurn(t.messages, t.requests[p]);
  }

  // ---- posting without room can show another turn's reply -----------------------------------

  /** The actions lead on, and every one of them is considerate. */
  ghost predicate LeadsConsiderately(t: Thread, actions: seq<Action>, after: Thread)
    decreases |actions|
  {
    if actions == [] then after == t
    else
      && Considerate(t, actions[0]) && Act(t, actions[0]).Some?
      && LeadsConsiderately(Act(t, actions[0]).value, actions[1..], after)
  }

  /** After the step, whatever considerate steps follow, whoever finds a reply finds its own. */
  ghost predicate SafeAfter(t: Thread) {
    forall actions, after :: LeadsConsiderately(t, actions, after) ==> AllFindOwn(after)
  }

  lemma {:induction false} OrderlyStaysSafe(t: Thread, actions: seq<Action>, after: Thread)
    requires Orderly(t) && LeadsConsiderately(t, actions, after)
    ensures AllFindOwn(after)
    decreases |actions|
  {
    hide Orderly, Act, Considerate, AllFindOwn;
    if actions == [] {
      OrderlyFindsOwn(t);
    } else {
      ConsiderateKeepsOrder(t, actions[0]);
      OrderlyStaysSafe(Act(t, actions[0]).value, actions[1..], after);
    }
  }

  lemma Begin(t: Thread) returns (actions: seq<Action>, after: Thread)
    ensures actions == [] && after == t && LeadsConsiderately(t, actions, after)
  {
    actions, after := [], t;
  }

  lemma {:induction false} GoOn(t: Thread, actions: seq<Action>, middle: Thread, action: Action)
    returns (longer: seq<Action>, after: Thread)
    requires LeadsConsiderately(t, actions, middle) && Considerate(middle, action) && Act(middle, action).Some?
    ensures Act(middle, action) == Some(after) && LeadsConsiderately(t, longer, after)
    ensures longer == actions + [action]
    decreases |actions|
  {
    hide Act, Considerate;
    after := Act(middle, action).value;
    longer := actions + [action];
    if actions == [] {
      assert longer[1..] == [];
    } else {
      var rest, same := GoOn(Act(t, actions[0]).value, actions[1..], middle, action);
      assert longer[1..] == rest;
    }
  }

  /** Right after the later turn's insertion: p is about to read it, and nobody holds a number. */
  ghost predicate Posted(t: Thread, p: Pid, n: nat) {
    && p in t.requests && t.requests[p] == Reading(n) && Latest(t.messages) == Some(n) && n !in t.cache
    && Top(t.messages) == n && forall q :: q in t.requests ==> !HoldsNumber(t.requests[q])
  }

  /** q is about to look for a reply to an earlier turn that has none: p makes the later turn's first, and q
      takes that one. */
  lemma LookerTakesLater(t: Thread, p: Pid, q: Pid, n: nat, k: nat) returns (actions: seq<Action>, after: Thread)
    requires Posted(t, p, n) && p != q && q in t.requests && Looks(t.requests[q])
    requires t.requests[q].turn == k && LooksPast(t.requests[q]) == k && k < n && !HasReplyAfter(t.messages, k)
    ensures LeadsConsiderately(t, actions, after) && !AllFindOwn(after)
  {
    hide Top, Latest, LeadsConsiderately, HasReplyAfter, AllFindOwn, AllLeaveRoom;
    NoReplyPastTop(t.messages);
    actions, after := Begin(t);
    actions, after := GoOn(t, actions, after, Move(p, true));
    actions, after := GoOn(t, actions, after, Move(p, true));
    actions, after := GoOn(t, actions, after, Move(p, true));
    actions, after := GoOn(t, actions, after, Move(p, true));
    actions, after := GoOn(t, actions, after, Move(p, true));
    assert after.messages == t.messages + [Agent(n + 1, n, n)];
    LaterIsFirst(t.messages, k, n, n);
    NotOwn(after, q, |t.messages|);
  }

  lemma NoReplyPastTop(messages: seq<Message>)
    ensures !HasReplyAfter(messages, Top(messages))
  {
    hide Top;
    assert forall i :: 0 <= i < |messages| ==> messages[i].number <= Top(messages);
  }

  lemma LaterIsFirst(messages: seq<Message>, k: nat, key: nat, turn: nat)
    requires !HasReplyAfter(messages, k) && k <= Top(messages)
    ensures IsFirstReplyAfter(messages + [Agent(Top(messages) + 1, key, turn)], k, |messages|)
  {
    hide Top;
    var after := messages + [Agent(Top(messages) + 1, key, turn)];
    assert forall i :: 0 <= i < |messages| ==> after[i] == messages[i];
  }

  lemma NotOwn(t: Thread, q: Pid, i: int)
    requires q in t.requests && Looks(t.requests[q]) && IsFirstReplyAfter(t.messages, LooksPast(t.requests[q]), i)
    requires t.messages[i].turn != t.requests[q].turn
    ensures !AllFindOwn(t)
  {
    assert !FindsOwn(t.messages, t.requests[q]);
  }

  /** q has posted an earlier turn and not yet read its key: p makes the reply to the later turn, q reads the later
      turn's number and takes that reply for its own. */
  lemma ReaderTakesLater(t: Thread, p: Pid, q: Pid, n: nat, k: nat) returns (actions: seq<Action>, after: Thread)
    requires Posted(t, p, n) && p != q && q in t.requests && t.requests[q] == Reading(k) && k < n
    ensures LeadsConsiderately(t, actions, after) && !AllFindOwn(after)
    ensures q in after.requests && after.requests[q] == Rechecking(k, n)
    ensures after.messages == t.messages + [Agent(n + 1, n, n)] && HasReplyAfter(after.messages, n)
  {
    hide Top, Latest, LeadsConsiderately, HasReplyAfter, AllFindOwn, AllLeaveRoom;
    NoReplyPastTop(t.messages);
    actions, after := Begin(t);
    actions, after := GoOn(t, actions, after, Move(p, true));
    actions, after := GoOn(t, actions, after, Move(p, true));
    actions, after := GoOn(t, actions, after, Move(p, true));
    actions, after := GoOn(t, actions, after, Move(p, true));
    actions, after := GoOn(t, actions, after, Move(p, true));
    LatestIgnoresReplies(t.messages, Agent(n + 1, n, n));
    actions, after := GoOn(t, actions, after, Move(p, true));
    actions, after := GoOn(t, actions, after, Move(q, true));
    actions, after := GoOn(t, actions, after, Move(q, true));
    LaterIsFirst(t.messages, n, n, n);
    FirstIsReply(after.messages, n, |t.messages|);
    NotOwn(after, q, |t.messages|);
  }

  /** Or q gets there first: it answers its own turn under the later turn's key, and p reports that reply as the
      later turn's, to which none was made. */
  lemma ReaderAnswersInstead(t: Thread, p: Pid, q: Pid, n: nat, k: nat) returns (actions: seq<Action>, after: Thread)
    requires Posted(t, p, n) && p != q && q in t.requests && t.requests[q] == Reading(k) && k < n
    requires !Answered(t.messages, n)
    ensures LeadsConsiderately(t, actions, after)
    ensures p in after.requests && after.requests[p] == Releasing(n, n, Ready) && !Answered(after.messages, n)
  {
    hide Top, Latest, LeadsConsiderately, HasReplyAfter, Answered, AllLeaveRoom;
    NoReplyPastTop(t.messages);
    actions, after := ReaderAnswersFirst(t, p, q, n, k);
    actions, after := GoOn(t, actions, after, Move(p, true));
    actions, after := GoOn(t, actions, after, Move(p, true));
    LaterIsFirst(t.messages, n, n, k);
    FirstIsReply(after.messages, n, |t.messages|);
    actions, after := GoOn(t, actions, after, Move(p, true));
    OtherReplies(t.messages, Agent(n + 1, n, k), n);
  }

  /** The lock is free again, and q's reply stands before p's attempt begins. */
  lemma ReaderAnswersFirst(t: Thread, p: Pid, q: Pid, n: nat, k: nat) returns (actions: seq<Action>, after: Thread)
    requires Posted(t, p, n) && p != q && q in t.requests && t.requests[q] == Reading(k) && k < n
    ensures LeadsConsiderately(t, actions, after)
    ensures p in after.requests && after.requests[p] == Reading(n) && after.cache == t.cache
    ensures after.messages == t.messages + [Agent(n + 1, n, k)] && Latest(after.messages) == Some(n)
    ensures forall x :: x in after.requests ==> !HoldsNumber(after.requests[x])
  {
    hide Top, Latest, LeadsConsiderately, HasReplyAfter, AllLeaveRoom;
    NoReplyPastTop(t.messages);
    actions, after := Begin(t);
    actions, after := GoOn(t, actions, after, Move(q, true));
    actions, after := GoOn(t, actions, after, Move(q, true));
    actions, after := GoOn(t, actions, after, Move(q, true));
    actions, after := GoOn(t, actions, after, Move(q, true));
    actions, after := GoOn(t, actions, after, Move(q, true));
    LatestIgnoresReplies(t.messages, Agent(n + 1, n, k));
    actions, after := GoOn(t, actions, after, Move(q, true));
  }

  lemma FirstIsReply(messages: seq<Message>, n: nat, i: int)
    requires IsFirstReplyAfter(messages, n, i)
    ensures HasReplyAfter(messages, n)
  {
  }

  lemma OtherReplies(messages: seq<Message>, m: Message, turn: nat)
    requires !Answered(messages, turn) && (m.Agent? ==> m.turn != turn)
    ensures !Answered(messages + [m], turn)
  {
    assert forall i :: IsReplyTo(messages + [m], turn, i) ==> IsReplyTo(messages, turn, i);
  }

  /** q generates the reply to an earlier turn: it is numbered past the later turn, and p takes it. */
  lemma PosterTakesEarlier(t: Thread, p: Pid, q: Pid, n: nat, k: nat) returns (actions: seq<Action>, after: Thread)
    requires Posted(t, p, n) && p != q && q in t.requests && t.requests[q] == Generating(k, k) && k < n
    ensures LeadsConsiderately(t, actions, after) && !AllFindOwn(after)
  {
    hide Top, Latest, LeadsConsiderately, HasReplyAfter, AllFindOwn, AllLeaveRoom;
    NoReplyPastTop(t.messages);
    actions, after := Begin(t);
    actions, after := GoOn(t, actions, after, Move(q, true));
    actions, after := GoOn(t, actions, after, Move(q, true));
    assert after.messages == t.messages + [Agent(n + 1, k, k)];
    LatestIgnoresReplies(t.messages, Agent(n + 1, k, k));
    actions, after := GoOn(t, actions, after, Move(p, true));
    actions, after := GoOn(t, actions, after, Move(p, true));
    LaterIsFirst(t.messages, n, k, k);
    NotOwn(after, p, |t.messages|);
  }

  lemma LatestIgnoresReplies(messages: seq<Message>, m: Message)
    requires m.Agent? && Latest(messages).Some?
    ensures Latest(messages + [m]) == Latest(messages)
  {
    var n := Latest(messages).value;
    var after := messages + [m];
    VisitorsStay(messages, m);
    assert IsLatest(after, n);
    forall x | IsLatest(after, x)
      ensures x == n
    {
      var i :| 0 <= i < |after| && after[i] == Visitor(x);
      assert messages[i] == Visitor(x);
    }
  }

  ghost predicate KeysAreTurns(requests: map<Pid, Request>) {
    forall p :: p in requests && Holds(requests[p]) ==> requests[p].key == requests[p].turn
  }

  /** q is on its way to the lock of an earlier turn: whoever holds it gives it up or makes the reply. */
  lemma AdderLosesToo(t: Thread, p: Pid, q: Pid, n: nat, k: nat) returns (actions: seq<Action>, after: Thread)
    requires LocksHeld(t.cache, t.requests) && RequestRows(t.messages, t.requests) && KeysAreTurns(t.requests)
    requires Posted(t, p, n) && p != q && q in t.requests && t.requests[q] == Adding(k, k)
    requires k < n && !HasReplyAfter(t.messages, k)
    ensures LeadsConsiderately(t, actions, after) && !AllFindOwn(after)
  {
    if k !in t.cache {
      actions, after := FreeAdderLoses(t, [], t, p, q, n, k);
    } else {
      var h :| h in t.requests && Holds(t.requests[h]) && t.requests[h].key == k;
      if t.requests[h].Rechecking? {
        actions, after := LookerTakesLater(t, p, h, n, k);
      } else if t.requests[h].Generating? {
        actions, after := PosterTakesEarlier(t, p, h, n, k);
      } else {
        hide LocksHeld, RequestRows, LeadsConsiderately, HasReplyAfter, AllFindOwn, Latest, Top;
        actions, after := Begin(t);
        actions, after := GoOn(t, actions, after, if t.requests[h].Dead? then Expire(h) else Move(h, true));
        actions, after := FreeAdderLoses(t, actions, after, p, q, n, k);
      }
    }
  }

  lemma FreeAdderLoses(start: Thread, first: seq<Action>, t: Thread, p: Pid, q: Pid, n: nat, k: nat)
    returns (actions: seq<Action>, after: Thread)
    requires LeadsConsiderately(start, first, t)
    requires Posted(t, p, n) && p != q && q in t.requests && t.requests[q] == Adding(k, k) && k !in t.cache
    requires k < n && !HasReplyAfter(t.messages, k)
    ensures LeadsConsiderately(start, actions, after) && !AllFindOwn(after)
  {
    hide LeadsConsiderately, HasReplyAfter, AllFindOwn, Latest, Top;
    var added, u := GoOn(start, first, t, Move(q, true));
    var rest;
    rest, after := LookerTakesLater(u, p, q, n, k);
    actions := Joined(start, added, u, rest, after);
  }

  lemma {:induction false} Joined(t: Thread, first: seq<Action>, middle: Thread, rest: seq<Action>, after: Thread)
    returns (actions: seq<Action>)
    requires LeadsConsiderately(t, first, middle) && LeadsConsiderately(middle, rest, after)
    ensures LeadsConsiderately(t, actions, after)
    decreases |first|
  {
    hide Act, Considerate;
    if first == [] {
      actions := rest;
    } else {
      var on := Joined(Act(t, first[0]).value, first[1..], middle, rest, after);
      actions := [first[0]] + on;
      assert actions[1..] == on;
    }
  }

  /** The thread just after an orderly insertion. */
  lemma InsertionIsPosted(t: Thread, p: Pid)
    requires Orderly(t) && p in t.requests && t.requests[p].Inserting?
    ensures Act(t, Move(p, true)).Some?
    ensures var u := Act(t, Move(p, true)).value;
            && Posted(u, p, t.requests[p].number)
            && u.messages == t.messages + [Visitor(t.requests[p].number)] && u.cache == t.cache
            && u.requests == t.requests[p := Reading(t.requests[p].number)]
            && LocksHeld(u.cache, u.requests) && RequestRows(u.messages, u.requests) && KeysAreTurns(u.requests)
  {
    hide HasReplyAfter, HasReplyUnder, Latest, Top, TurnsNumbered, Replies, LocksHeld, RequestRow, Increasing, Answered;
    var n := t.requests[p].number;
    assert forall q :: q in t.requests ==> InTurn(t.messages, t.requests[q]);
    VisitorInserted(t, p, n);
    NewestIsLatest(t.messages, n);
    NewestIsUnlocked(t, n);
  }

  lemma NewestIsLatest(messages: seq<Message>, n: nat)
    requires n == Top(messages) + 1
    ensures Latest(messages + [Visitor(n)]) == Some(n) && Top(messages + [Visitor(n)]) == n
  {
    var after := messages + [Visitor(n)];
    assert after[..|messages|] == messages;
    assert Top(after) == n;
    assert after[|messages|] == Visitor(n);
    assert IsVisitor(after, n) && IsLatest(after, n);
    hide Top;
    forall x | IsLatest(after, x)
      ensures x == n
    {
      var i :| 0 <= i < |after| && after[i] == Visitor(x);
    }
  }

  lemma NewestIsUnlocked(t: Thread, n: nat)
    requires LocksHeld(t.cache, t.requests) && RequestRows(t.messages, t.requests) && n == Top(t.messages) + 1
    ensures n !in t.cache
  {
    hide Top, RequestRow;
    forall h | h in t.requests && Holds(t.requests[h])
      ensures t.requests[h].key < n
    {
      HeldIsVisitor(t.messages, t.requests[h]);
    }
  }

  lemma HeldIsVisitor(messages: seq<Message>, r: Request)
    requires RequestRow(messages, r) && (Holds(r) || r.Adding?)
    ensures r.key <= Top(messages)
  {
    hide Top;
    TopAboveVisitors(messages, r.key);
  }

  /** A turn at work is older than the one being posted. */
  lemma WorkIsOlder(t: Thread, p: Pid, q: Pid)
    requires Orderly(t) && p in t.requests && t.requests[p].Inserting?
    requires q in t.requests && TurnOf(t.requests[q]).Some?
    ensures t.requests[q].turn < t.requests[p].number && p != q && !t.requests[q].Replying?
    ensures t.requests[q].Adding? || Holds(t.requests[q]) ==> t.requests[q].key == t.requests[q].turn
  {
    hide Top, LocksHeld, Replies, Increasing, HasReplyAfter, HasReplyUnder, TurnsNumbered, Answered;
    var r := t.requests[q];
    assert RequestRow(t.messages, r) && InTurn(t.messages, r);
    TopAboveVisitors(t.messages, if r.Reading? || r.RetryChecking? then r.turn else r.key);
  }

  lemma PostingLosesAReply(t: Thread, p: Pid, q: Pid) returns (actions: seq<Action>, after: Thread)
    requires Orderly(t) && p in t.requests && t.requests[p].Inserting?
    requires q in t.requests && !LeavesRoom(t.messages, t.requests[q])
    ensures Act(t, Move(p, true)).Some?
    ensures LeadsConsiderately(Act(t, Move(p, true)).value, actions, after) && !AllFindOwn(after)
  {
    hide Orderly, Posted, LeadsConsiderately, AllFindOwn, LocksHeld, RequestRows, KeysAreTurns, HasReplyAfter;
    InsertionIsPosted(t, p);
    WorkIsOlder(t, p, q);
    var u := Act(t, Move(p, true)).value;
    var n, k := t.requests[p].number, t.requests[q].turn;
    if t.requests[q].Reading? {
      actions, after := ReaderTakesLater(u, p, q, n, k);
    } else {
      StillUnanswered(t.messages, Visitor(n), k);
      if Looks(t.requests[q]) {
        actions, after := LookerTakesLater(u, p, q, n, k);
      } else if t.requests[q].Generating? {
        actions, after := PosterTakesEarlier(u, p, q, n, k);
      } else {
        actions, after := AdderLosesToo(u, p, q, n, k);
      }
    }
  }

  lemma StillUnanswered(messages: seq<Message>, m: Message, k: nat)
    requires !HasReplyAfter(messages, k) && m.Visitor?
    ensures !HasReplyAfter(messages + [m], k)
  {
    var after := messages + [m];
    assert forall i :: 0 <= i < |messages| ==> after[i] == messages[i];
  }

  /** A turn may be posted to an orderly thread without anyone ever being shown the reply to another turn if and
      only if no request has yet to read its key and every turn at work has a reply past it. Otherwise some
      considerate continuation shows one. */
  lemma PostingIsSafeIff(t: Thread, p: Pid)
    requires Orderly(t) && p in t.requests && t.requests[p].Inserting?
    ensures Act(t, Move(p, true)).Some?
    ensures SafeAfter(Act(t, Move(p, true)).value) <==> AllLeaveRoom(t)
  {
    hide Orderly, LeadsConsiderately, AllFindOwn, HasReplyAfter, LeavesRoom;
    var u := Act(t, Move(p, true)).value;
    if AllLeaveRoom(t) {
      InsertionIsConsiderate(t, p);
      ConsiderateKeepsOrder(t, Move(p, true));
      forall actions, after | LeadsConsiderately(u, actions, after)
        ensures AllFindOwn(after)
      {
        OrderlyStaysSafe(u, actions, after);
      }
    } else {
      var q :| q in t.requests && !LeavesRoom(t.messages, t.requests[q]);
      var actions, after := PostingLosesAReply(t, p, q);
      assert LeadsConsiderately(u, actions, after) && !AllFindOwn(after);
    }
  }

  lemma InsertionIsConsiderate(t: Thread, p: Pid)
    requires p in t.requests && t.requests[p].Inserting? && AllLeaveRoom(t)
    ensures Considerate(t, Move(p, true))
  {
    hide AllLeaveRoom;
  }

  // ---- a turn posted before the last one's request has read its key ---------------------------

  /** The first turn's request stands before its key, and a second turn holds its number. */
  const BESIDE_A_READER: Thread := Thread([Visitor(1)], {}, map[0 := Reading(1), 1 := Inserting(2)])

  /** Considerate steps lead there. */
  lemma ReaderHappens() returns (actions: seq<Action>)
    ensures LeadsConsiderately(FRESH, actions, BESIDE_A_READER) && Orderly(BESIDE_A_READER)
  {
    hide LeadsConsiderately, Latest, HasReplyAfter, Orderly, AllLeaveRoom;
    NobodyIsInTheWay();
    var t;
    actions, t := Begin(FRESH);
    actions, t := GoOn(FRESH, actions, t, Arrive(0, false));
    actions, t := GoOn(FRESH, actions, t, Move(0, true));
    assert t == Thread([], {}, map[0 := Inserting(1)]);
    actions, t := GoOn(FRESH, actions, t, Move(0, true));
    assert t.messages == [Visitor(1)];
    actions, t := GoOn(FRESH, actions, t, Arrive(1, false));
    assert Top([Visitor(1)]) == 1;
    actions, t := GoOn(FRESH, actions, t, Move(1, true));
    assert t == BESIDE_A_READER;
    FreshIsOrderly();
    OrderlyStaysOrderly(FRESH, actions, t);
  }

  lemma NobodyIsInTheWay()
    ensures AllLeaveRoom(Thread([], {}, map[0 := Inserting(1)]))
  {
  }

  lemma FreshIsOrderly()
    ensures Orderly(FRESH)
  {
  }

  lemma {:induction false} OrderlyStaysOrderly(t: Thread, actions: seq<Action>, after: Thread)
    requires Orderly(t) && LeadsConsiderately(t, actions, after)
    ensures Orderly(after)
    decreases |actions|
  {
    hide Orderly, Act, Considerate;
    if actions != [] {
      ConsiderateKeepsOrder(t, actions[0]);
      OrderlyStaysOrderly(Act(t, actions[0]).value, actions[1..], after);
    }
  }

  /** If the second turn is posted there, the first turn's request can report the reply to the second turn; or the
      second turn's request reports a reply to the first turn, and no reply to the second is made. */
  lemma PostingBesideAReader()
    returns (posted: Thread, one: seq<Action>, shown: Thread, other: seq<Action>, left: Thread)
    ensures Act(BESIDE_A_READER, Move(1, true)) == Some(posted)
    ensures LeadsConsiderately(posted, one, shown) && shown.messages == [Visitor(1), Visitor(2), Agent(3, 2, 2)]
    ensures 0 in shown.requests && shown.requests[0] == Releasing(1, 2, Ready)
    ensures LeadsConsiderately(posted, other, left) && !Answered(left.messages, 2)
    ensures 1 in left.requests && left.requests[1] == Releasing(2, 2, Ready)
  {
    hide LeadsConsiderately, Latest, HasReplyAfter, Answered, Top, Posted, Orderly;
    var reach := ReaderHappens();
    posted := Act(BESIDE_A_READER, Move(1, true)).value;
    InsertionIsPosted(BESIDE_A_READER, 1);
    assert posted.messages == [Visitor(1), Visitor(2)];
    NoRepliesYet(posted.messages, 2);
    one, shown := ReaderTakesLater(posted, 1, 0, 2, 1);
    one, shown := GoOn(posted, one, shown, Move(0, true));
    other, left := ReaderAnswersInstead(posted, 1, 0, 2, 1);
  }

  lemma NoRepliesYet(messages: seq<Message>, turn: nat)
    requires forall i :: 0 <= i < |messages| ==> messages[i].Visitor?
    ensures !Answered(messages, turn)
  {
  }
}
