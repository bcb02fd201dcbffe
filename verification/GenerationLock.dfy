/** The assistant-generation lock of one conversation thread: any number of turn and retry requests
    interleave, each step being one query, insert or cache operation of the request that takes it. */
module GenerationLock {
  import opened Outcomes

  type Pid = nat

  /** A row of the thread. A reply is generated under a lock key, from the text of the turn that its request is
      for; the two need not be the same turn, and neither is a column. */
  datatype Message = Visitor(number: nat) | Agent(number: nat, key: nat, turn: nat)

  datatype Outcome = Pending | Failed | Ready

  /** Where a request stands, with what it has read so far. Its turn is the number of the visitor row whose text
      it passes on as `body`; its key is the last number it read when the attempt began. */
  datatype Request =
    | Allocating                                       // a turn, before its number is read
    | Inserting(number: nat)                           // a turn, holding a number
    | Retrying                                         // a retry, before it reads the last turn
    | NothingToRetry
    | RetryChecking(turn: nat)                         // a retry, before it looks for a reply
    | Reading(turn: nat)                               // the attempt, before it reads the last number
    | Adding(turn: nat, key: nat)                      // before cache.add
    | Rechecking(turn: nat, key: nat)                  // holds the lock
    | Generating(turn: nat, key: nat)
    | Replying(turn: nat, key: nat, number: nat)       // holds a number for the reply
    | Releasing(turn: nat, key: nat, outcome: Outcome) // before cache.delete
    | Dead(turn: nat, key: nat)                        // killed while it held the lock
    | Finished(turn: nat, outcome: Outcome)

  datatype Thread = Thread(messages: seq<Message>, cache: set<nat>, requests: map<Pid, Request>)

  datatype Action =
    | Arrive(pid: Pid, retry: bool)
    | Move(pid: Pid, generated: bool)
    | Kill(pid: Pid)
    | Expire(pid: Pid)           // the timeout frees the lock of a dead request
    | Evict(key: nat)            // the timeout frees a lock whose request still runs
    | MoveUnnumbered(pid: Pid)   // number allocation fails and falls back to 0

  // ---- queries --------------------------------------------------------------------------

  /** `Max('seq')`, 0 on an empty thread. */
  function Top(messages: seq<Message>): (top: nat)
    ensures forall i :: 0 <= i < |messages| ==> messages[i].number <= top
  {
    if messages == [] then 0
    else
      var rest := Top(messages[..|messages| - 1]);
      assert forall i :: 0 <= i < |messages| - 1 ==> messages[..|messages| - 1][i] == messages[i];
      if messages[|messages| - 1].number > rest then messages[|messages| - 1].number else rest
  }

  ghost predicate IsVisitor(messages: seq<Message>, n: nat) {
    exists i :: 0 <= i < |messages| && messages[i] == Visitor(n)
  }

  /** The highest-numbered visitor turn. */
  ghost predicate IsLatest(messages: seq<Message>, n: nat) {
    && IsVisitor(messages, n)
    && forall i :: 0 <= i < |messages| && messages[i].Visitor? ==> messages[i].number <= n
  }

  ghost function Latest(messages: seq<Message>): Option<nat> {
    if n :| IsLatest(messages, n) then Some(n) else None
  }

  /** An agent row numbered past the turn. */
  ghost predicate HasReplyAfter(messages: seq<Message>, n: nat) {
    exists i :: 0 <= i < |messages| && messages[i].Agent? && messages[i].number > n
  }

  // ---- steps ------------------------------------------------------------------------------

  ghost function Act(t: Thread, action: Action): Option<Thread> {
    match action
    case Arrive(p, retry) =>
      if p in t.requests then None else Some(t.(requests := t.requests[p := if retry then Retrying else Allocating]))
    case Move(p, generated) => if p in t.requests then MoveOn(t, p, t.requests[p], generated) else None
    case Kill(p) =>
      if p in t.requests && Holds(t.requests[p])
      then Some(t.(requests := t.requests[p := Dead(t.requests[p].turn, t.requests[p].key)]))
      else None
    case Expire(p) =>
      if p in t.requests && t.requests[p].Dead? then Some(Freed(t, p, t.requests[p], Failed)) else None
    case Evict(key) => Some(t.(cache := t.cache - {key}))
    case MoveUnnumbered(p) =>
      if p in t.requests && t.requests[p].Allocating? then Some(t.(requests := t.requests[p := Inserting(0)]))
      else if p in t.requests && t.requests[p].Generating?
      then Some(t.(requests := t.requests[p := Replying(t.requests[p].turn, t.requests[p].key, 0)]))
      else None
  }

  /** The lock is given up, and the request is done. */
  function Freed(t: Thread, p: Pid, r: Request, outcome: Outcome): Thread
    requires Holds(r)
  {
    t.(cache := t.cache - {r.key}, requests := t.requests[p := Finished(r.turn, outcome)])
  }

  /** The request is between `cache.add` and `cache.delete`. */
  predicate Holds(r: Request) {
    r.Rechecking? || r.Generating? || r.Replying? || r.Releasing? || r.Dead?
  }

  ghost function MoveOn(t: Thread, p: Pid, r: Request, generated: bool): Option<Thread> {
    match r
    case Allocating => Some(t.(requests := t.requests[p := Inserting(Top(t.messages) + 1)]))
    case Inserting(n) => Some(t.(messages := t.messages + [Visitor(n)], requests := t.requests[p := Reading(n)]))
    case Retrying =>
      var latest := Latest(t.messages);
      Some(t.(requests := t.requests[p := if latest.Some? then RetryChecking(latest.value) else NothingToRetry]))
    case RetryChecking(n) =>
      Some(t.(requests := t.requests[p := if HasReplyAfter(t.messages, n) then Finished(n, Ready) else Reading(n)]))
    case Reading(n) =>
      var latest := Latest(t.messages);
      Some(t.(requests := t.requests[p := Adding(n, if latest.Some? then latest.value else 0)]))
    case Adding(n, key) =>
      if key in t.cache then Some(t.(requests := t.requests[p := Finished(n, Pending)]))
      else Some(t.(cache := t.cache + {key}, requests := t.requests[p := Rechecking(n, key)]))
    case Rechecking(n, key) =>
      Some(t.(requests := t.requests[p := if HasReplyAfter(t.messages, key) then Releasing(n, key, Ready)
                                     else Generating(n, key)]))
    case Generating(n, key) =>
      Some(t.(requests := t.requests[p := if generated then Replying(n, key, Top(t.messages) + 1)
                                     else Releasing(n, key, Failed)]))
    case Replying(n, key, number) =>
      Some(t.(messages := t.messages + [Agent(number, key, n)], requests := t.requests[p := Releasing(n, key, Ready)]))
    case Releasing(_, _, outcome) => Some(Freed(t, p, r, outcome))
    case NothingToRetry => None
    case Dead(_, _) => None
    case Finished(_, _) => None
  }

  /** What the protocol relies on: a lock outlives the request that holds it, and a reply gets its number. */
  ghost predicate ReliedOn(t: Thread, action: Action) {
    && !action.Evict?
    && (action.MoveUnnumbered? ==> action.pid in t.requests && t.requests[action.pid].Allocating?)
  }

  // ---- the invariant ------------------------------------------------------------------------

  /** Held keys are exactly the keys of the requests between acquire and release, one request a key. */
  ghost predicate LocksHeld(cache: set<nat>, requests: map<Pid, Request>) {
    && (forall p :: p in requests && Holds(requests[p]) ==> requests[p].key in cache)
    && (forall key :: key in cache ==> exists p :: p in requests && Holds(requests[p]) && requests[p].key == key)
    && (forall p, q | p in requests && q in requests && Holds(requests[p]) && Holds(requests[q]) ::
          requests[p].key == requests[q].key ==> p == q)
  }

  /** Row i is a reply made under the lock key. */
  predicate IsMadeUnder(messages: seq<Message>, key: nat, i: int) {
    0 <= i < |messages| && messages[i].Agent? && messages[i].key == key
  }

  ghost predicate HasReplyUnder(messages: seq<Message>, key: nat) {
    exists i :: IsMadeUnder(messages, key, i)
  }

  /** The row is a reply made from the text of the turn. */
  predicate IsReplyTo(messages: seq<Message>, turn: nat, i: int) {
    0 <= i < |messages| && messages[i].Agent? && messages[i].turn == turn
  }

  ghost predicate Answered(messages: seq<Message>, turn: nat) {
    exists i :: IsReplyTo(messages, turn, i)
  }

  /** Replies are numbered past the key they were made under, and no lock key has two. */
  ghost predicate Replies(messages: seq<Message>) {
    && (forall i :: 0 <= i < |messages| && messages[i].Agent? ==>
         messages[i].number > messages[i].key && IsVisitor(messages, messages[i].key))
    && (forall key, i, j :: IsMadeUnder(messages, key, i) && IsMadeUnder(messages, key, j) ==> i == j)
  }

  ghost predicate RequestRow(messages: seq<Message>, r: Request) {
    && (r.RetryChecking? || r.Reading? ==> IsVisitor(messages, r.turn))
    && (r.Adding? || Holds(r) ==> IsVisitor(messages, r.key) && r.turn <= r.key)
    && (r.Generating? || r.Replying? ==> !HasReplyUnder(messages, r.key))
    && (r.Replying? ==> r.number > r.key)
    && (r.Releasing? ==> r.outcome != Pending)
    && (r.Releasing? && r.outcome == Ready ==> HasReplyAfter(messages, r.key))
    && (r.Finished? && r.outcome == Ready ==> HasReplyAfter(messages, r.turn))
  }

  ghost predicate RequestRows(messages: seq<Message>, requests: map<Pid, Request>) {
    forall p :: p in requests ==> RequestRow(messages, requests[p])
  }

  ghost predicate LockInv(t: Thread) {
    LocksHeld(t.cache, t.requests) && Replies(t.messages) && RequestRows(t.messages, t.requests)
  }

  // ---- every step keeps it ----------------------------------------------------------------------

  lemma RowsGrow(messages: seq<Message>, m: Message, r: Request)
    requires RequestRow(messages, r)
    requires m.Agent? && (r.Generating? || r.Replying?) ==> m.key != r.key
    ensures RequestRow(messages + [m], r)
  {
    hide IsVisitor, HasReplyAfter;
    VisitorsStay(messages, m);
    RepliesStay(messages, m);
    OneMoreReply(messages, m);
  }

  lemma OneMoreReply(messages: seq<Message>, m: Message)
    ensures forall key, i :: IsMadeUnder(messages + [m], key, i)
              <==> IsMadeUnder(messages, key, i) || (i == |messages| && m.Agent? && m.key == key)
  {
    assert forall i :: 0 <= i < |messages| ==> (messages + [m])[i] == messages[i];
  }

  lemma VisitorsStay(messages: seq<Message>, m: Message)
    ensures forall n :: IsVisitor(messages, n) ==> IsVisitor(messages + [m], n)
  {
    var after := messages + [m];
    assert forall i :: 0 <= i < |messages| ==> after[i] == messages[i];
  }

  lemma RepliesStay(messages: seq<Message>, m: Message)
    ensures forall n :: HasReplyAfter(messages, n) ==> HasReplyAfter(messages + [m], n)
  {
    var after := messages + [m];
    assert forall i :: 0 <= i < |messages| ==> after[i] == messages[i];
  }

  /** A request that changes its place without touching the lock or the rows. */
  lemma PlaceChanges(t: Thread, p: Pid, r: Request)
    requires LockInv(t) && RequestRow(t.messages, r)
    requires if p in t.requests && Holds(t.requests[p]) then Holds(r) && r.key == t.requests[p].key else !Holds(r)
    ensures LockInv(t.(requests := t.requests[p := r]))
  {
    hide RequestRow, Replies;
    var after := t.requests[p := r];
    forall key | key in t.cache
      ensures exists q :: q in after && Holds(after[q]) && after[q].key == key
    {
      var q :| q in t.requests && Holds(t.requests[q]) && t.requests[q].key == key;
      assert q in after && Holds(after[q]) && after[q].key == key;
    }
  }

  lemma LockTaken(t: Thread, p: Pid)
    requires LockInv(t) && p in t.requests && t.requests[p].Adding? && t.requests[p].key !in t.cache
    ensures LockInv(t.(cache := t.cache + {t.requests[p].key},
                       requests := t.requests[p := Rechecking(t.requests[p].turn, t.requests[p].key)]))
  {
    hide Replies;
    var key := t.requests[p].key;
    var taken := Rechecking(t.requests[p].turn, key);
    var after := t.requests[p := taken];
    assert RequestRow(t.messages, t.requests[p]);
    assert RequestRow(t.messages, taken);
    hide RequestRow;
    forall k | k in t.cache + {key}
      ensures exists q :: q in after && Holds(after[q]) && after[q].key == k
    {
      if k == key {
        assert p in after && Holds(after[p]);
      } else {
        var q :| q in t.requests && Holds(t.requests[q]) && t.requests[q].key == k;
        assert q in after && Holds(after[q]) && after[q].key == k;
      }
    }
  }

  lemma LockFreed(t: Thread, p: Pid, outcome: Outcome)
    requires LockInv(t) && p in t.requests && Holds(t.requests[p])
    requires outcome == Ready ==> t.requests[p].Releasing? && t.requests[p].outcome == Ready
    ensures LockInv(Freed(t, p, t.requests[p], outcome))
  {
    hide Replies;
    var key := t.requests[p].key;
    var after := t.requests[p := Finished(t.requests[p].turn, outcome)];
    assert RequestRow(t.messages, t.requests[p]);
    assert RequestRow(t.messages, after[p]);
    hide RequestRow;
    forall k | k in t.cache - {key}
      ensures exists q :: q in after && Holds(after[q]) && after[q].key == k
    {
      var q :| q in t.requests && Holds(t.requests[q]) && t.requests[q].key == k;
      assert q in after && Holds(after[q]) && after[q].key == k;
    }
  }

  /** A visitor row or the holder's reply is appended. */
  lemma RowAppended(t: Thread, m: Message)
    requires LockInv(t)
    requires m.Agent? ==> m.number > m.key && IsVisitor(t.messages, m.key) && !HasReplyUnder(t.messages, m.key)
    requires m.Agent? ==> forall q :: q in t.requests && (t.requests[q].Generating? || t.requests[q].Replying?) ==>
                           t.requests[q].key != m.key
    ensures LockInv(t.(messages := t.messages + [m]))
  {
    hide RequestRow, HasReplyAfter;
    var after := t.messages + [m];
    VisitorsStay(t.messages, m);
    assert forall i :: 0 <= i < |t.messages| ==> after[i] == t.messages[i];
    OneMoreReply(t.messages, m);
    assert m.Agent? ==> forall i :: !IsMadeUnder(t.messages, m.key, i);
    assert Replies(after);
    forall q | q in t.requests
      ensures RequestRow(after, t.requests[q])
    {
      RowsGrow(t.messages, m, t.requests[q]);
    }
  }

  lemma VisitorInserted(t: Thread, p: Pid, n: nat)
    requires LockInv(t) && p in t.requests && t.requests[p] == Inserting(n)
    ensures LockInv(t.(messages := t.messages + [Visitor(n)], requests := t.requests[p := Reading(n)]))
  {
    hide Replies, LocksHeld, RequestRows;
    RowAppended(t, Visitor(n));
    var grown := t.(messages := t.messages + [Visitor(n)]);
    assert grown.messages[|t.messages|] == Visitor(n);
    assert IsVisitor(grown.messages, n);
    PlaceChanges(grown, p, Reading(n));
  }

  lemma ReplyInserted(t: Thread, p: Pid, n: nat, key: nat, number: nat)
    requires LockInv(t) && p in t.requests && t.requests[p] == Replying(n, key, number)
    ensures LockInv(t.(messages := t.messages + [Agent(number, key, n)],
                       requests := t.requests[p := Releasing(n, key, Ready)]))
  {
    assert RequestRow(t.messages, t.requests[p]);
    ReplyRow(t.messages, t.requests[p]);
    hide Replies, RequestRow;
    // The writer leaves its place first, so that no request is left generating under the key.
    var stepped := t.(requests := t.requests[p := Dead(n, key)]);
    assert RequestRow(t.messages, Dead(n, key)) by { DeadRow(t.messages, n, key); }
    PlaceChanges(t, p, Dead(n, key));
    RowAppended(stepped, Agent(number, key, n));
    var grown := stepped.(messages := t.messages + [Agent(number, key, n)]);
    assert RequestRow(grown.messages, Releasing(n, key, Ready)) by { ReadyRow(t.messages, n, key, number); }
    PlaceChanges(grown, p, Releasing(n, key, Ready));
    assert grown.requests[p := Releasing(n, key, Ready)] == t.requests[p := Releasing(n, key, Ready)];
  }

  lemma ReplyRow(messages: seq<Message>, r: Request)
    requires RequestRow(messages, r) && r.Replying?
    ensures r.number > r.key >= r.turn && IsVisitor(messages, r.key) && !HasReplyUnder(messages, r.key)
  {
  }

  lemma DeadRow(messages: seq<Message>, n: nat, key: nat)
    requires IsVisitor(messages, key) && n <= key
    ensures RequestRow(messages, Dead(n, key))
  {
  }

  lemma ReadyRow(messages: seq<Message>, n: nat, key: nat, number: nat)
    requires IsVisitor(messages, key) && n <= key < number
    ensures RequestRow(messages + [Agent(number, key, n)], Releasing(n, key, Ready))
  {
    VisitorsStay(messages, Agent(number, key, n));
    var after := messages + [Agent(number, key, n)];
    assert after[|messages|].Agent? && after[|messages|].number > key;
  }

  lemma RequestMoves(t: Thread, p: Pid, generated: bool)
    requires LockInv(t) && p in t.requests && MoveOn(t, p, t.requests[p], generated).Some?
    requires !t.requests[p].Inserting? && !t.requests[p].Replying? && !t.requests[p].Releasing?
    ensures LockInv(MoveOn(t, p, t.requests[p], generated).value)
  {
    assert RequestRow(t.messages, t.requests[p]);
    var n := MoveOn(t, p, t.requests[p], generated).value;
    if t.requests[p].Adding? && t.requests[p].key !in t.cache {
      LockTaken(t, p);
    } else {
      MovedRow(t, p, generated);
      hide LockInv, RequestRow;
      PlaceChanges(t, p, n.requests[p]);
    }
  }

  lemma MovedRow(t: Thread, p: Pid, generated: bool)
    requires LockInv(t) && p in t.requests && MoveOn(t, p, t.requests[p], generated).Some?
    requires !t.requests[p].Inserting? && !t.requests[p].Replying? && !t.requests[p].Releasing?
    ensures RequestRow(t.messages, MoveOn(t, p, t.requests[p], generated).value.requests[p])
  {
    hide LocksHeld, IsVisitor;
    assert RequestRow(t.messages, t.requests[p]);
    match t.requests[p]
    case Retrying => LatestIsVisitor(t.messages);
    case Reading(n) => LatestNoEarlier(t.messages, n); LatestIsVisitor(t.messages);
    case Rechecking(_, key) => NoReplyMeansNone(t.messages, key);
    case Generating(_, key) => TopAboveVisitors(t.messages, key);
    case _ =>
  }

  lemma TopAboveVisitors(messages: seq<Message>, n: nat)
    requires IsVisitor(messages, n)
    ensures n <= Top(messages)
  {
    var i :| 0 <= i < |messages| && messages[i] == Visitor(n);
    assert messages[i].number <= Top(messages);
  }

  lemma LatestIsVisitor(messages: seq<Message>)
    ensures Latest(messages).Some? ==> IsVisitor(messages, Latest(messages).value)
  {
  }

  lemma {:induction false} LatestNoEarlier(messages: seq<Message>, n: nat)
    requires IsVisitor(messages, n)
    ensures Latest(messages).Some? && n <= Latest(messages).value
  {
    var top := HighestVisitor(messages, n);
    assert IsLatest(messages, top);
    var i :| 0 <= i < |messages| && messages[i] == Visitor(n);
  }

  lemma {:induction false} HighestVisitor(messages: seq<Message>, n: nat) returns (top: nat)
    requires IsVisitor(messages, n)
    ensures IsLatest(messages, top)
  {
    var last := messages[|messages| - 1];
    var rest := messages[..|messages| - 1];
    assert forall i :: 0 <= i < |rest| ==> rest[i] == messages[i];
    if m: nat :| IsVisitor(rest, m) {
      var best := HighestVisitor(rest, m);
      var i :| 0 <= i < |rest| && rest[i] == Visitor(best);
      assert messages[i] == Visitor(best);
      top := if last.Visitor? && last.number > best then last.number else best;
    } else {
      var i :| 0 <= i < |messages| && messages[i] == Visitor(n);
      assert i == |messages| - 1 by {
        if i < |rest| {
          assert rest[i] == Visitor(n);
          assert IsVisitor(rest, n);
        }
      }
      top := n;
      forall j | 0 <= j < |messages| && messages[j].Visitor?
        ensures messages[j].number <= top
      {
        if j < |rest| {
          assert IsVisitor(rest, rest[j].number);
        }
      }
    }
  }

  lemma NoReplyMeansNone(messages: seq<Message>, key: nat)
    requires Replies(messages)
    ensures !HasReplyAfter(messages, key) ==> !HasReplyUnder(messages, key)
  {
    if HasReplyUnder(messages, key) {
      var i :| IsMadeUnder(messages, key, i);
      assert messages[i].number > key;
    }
  }

  /** Every step the protocol relies on keeps the invariant, whoever takes it. */
  lemma ActKeepsLock(t: Thread, action: Action)
    requires LockInv(t) && ReliedOn(t, action) && Act(t, action).Some?
    ensures LockInv(Act(t, action).value)
  {
    hide LockInv, RequestRow, HasReplyAfter, HasReplyUnder, IsVisitor;
    match action
    case Arrive(p, retry) =>
      ArrivedRow(t.messages, retry);
      PlaceChanges(t, p, if retry then Retrying else Allocating);
    case Move(p, generated) =>
      match t.requests[p] {
        case Inserting(n) => VisitorInserted(t, p, n);
        case Replying(n, key, number) => ReplyInserted(t, p, n, key, number);
        case Releasing(_, _, outcome) => LockFreed(t, p, outcome);
        case _ => RequestMoves(t, p, generated);
      }
    case Kill(p) =>
      HolderRow(t, p);
      PlaceChanges(t, p, Dead(t.requests[p].turn, t.requests[p].key));
    case Expire(p) => LockFreed(t, p, Failed);
    case MoveUnnumbered(p) =>
      NumberedRow(t.messages, 0);
      PlaceChanges(t, p, Inserting(0));
    case Evict(key) =>
  }

  lemma ArrivedRow(messages: seq<Message>, retry: bool)
    ensures RequestRow(messages, if retry then Retrying else Allocating)
  {
  }

  lemma NumberedRow(messages: seq<Message>, n: nat)
    ensures RequestRow(messages, Inserting(n))
  {
  }

  lemma HolderRow(t: Thread, p: Pid)
    requires LockInv(t) && p in t.requests && Holds(t.requests[p])
    ensures RequestRow(t.messages, Dead(t.requests[p].turn, t.requests[p].key))
  {
    assert RequestRow(t.messages, t.requests[p]);
  }
}
