/** The generation lock over whole interleavings: what it guarantees, and what it does not. */
module LockRuns {
  import opened Outcomes
  import opened GenerationLock
  import opened Sets

  const FRESH: Thread := Thread([], {}, map[])

  ghost predicate LockNext(s: Thread, t: Thread) {
    exists action :: ReliedOn(s, action) && Act(s, action) == Some(t)
  }

  ghost predicate IsLockRun(run: seq<Thread>) {
    && |run| > 0 && run[0] == FRESH
    && forall i :: 0 < i < |run| ==> LockNext(run[i - 1], run[i])
  }

  lemma {:induction false} RunKeepsLock(run: seq<Thread>, i: nat)
    requires IsLockRun(run) && i < |run|
    ensures LockInv(run[i])
  {
    if i > 0 {
      RunKeepsLock(run, i - 1);
      hide LockInv, Act, ReliedOn;
      assert LockNext(run[i - 1], run[i]);
      var action :| ReliedOn(run[i - 1], action) && Act(run[i - 1], action) == Some(run[i]);
      ActKeepsLock(run[i - 1], action);
    }
  }

  // ---- guarantees -------------------------------------------------------------------------

  function HeldKeys(t: Thread): set<nat> {
    set p | p in t.requests && Holds(t.requests[p]) :: t.requests[p].key
  }

  /** The keys in the cache are those of the requests between acquire and release, killed ones included;
      no two requests hold one key, and no key has two replies. */
  lemma LockIsExclusive(run: seq<Thread>, i: nat)
    requires IsLockRun(run) && i < |run|
    ensures run[i].cache == HeldKeys(run[i])
    ensures forall p, q :: && p in run[i].requests && q in run[i].requests && p != q ==>
              !(Holds(run[i].requests[p]) && Holds(run[i].requests[q])
                && run[i].requests[p].key == run[i].requests[q].key)
    ensures forall key, j, k :: IsMadeUnder(run[i].messages, key, j) && IsMadeUnder(run[i].messages, key, k) ==> j == k
  {
    hide IsLockRun, RequestRows, IsVisitor;
    RunKeepsLock(run, i);
    var t := run[i];
    assert LocksHeld(t.cache, t.requests);
    forall key | key in t.cache
      ensures key in HeldKeys(t)
    {
      var p :| p in t.requests && Holds(t.requests[p]) && t.requests[p].key == key;
    }
  }

  /** The request reports 'ready': out of the lock or straight from a retry's first look. */
  predicate IsReady(r: Request) {
    (r.Releasing? || r.Finished?) && r.outcome == Ready
  }

  /** Whoever reports 'ready' has a reply numbered past its own turn on the thread. */
  lemma ReadyHasReply(run: seq<Thread>, i: nat, p: Pid)
    requires IsLockRun(run) && i < |run| && p in run[i].requests && IsReady(run[i].requests[p])
    ensures HasReplyAfter(run[i].messages, run[i].requests[p].turn)
  {
    hide IsLockRun, LocksHeld, Replies;
    RunKeepsLock(run, i);
    assert RequestRow(run[i].messages, run[i].requests[p]);
  }

  // ---- what the other two answers mean --------------------------------------------------------

  /** What holds of a thread and not of a fresh one came to hold at some step. */
  lemma {:induction false} FirstMoment(run: seq<Thread>, i: nat, holds: Thread -> bool)
    returns (j: nat, action: Action)
    requires IsLockRun(run) && i < |run| && holds(run[i]) && !holds(FRESH)
    ensures 0 < j <= i && !holds(run[j - 1]) && holds(run[j])
    ensures ReliedOn(run[j - 1], action) && Act(run[j - 1], action) == Some(run[j])
  {
    hide Act, ReliedOn;
    if holds(run[i - 1]) {
      j, action := FirstMoment(run, i - 1, holds);
    } else {
      j := i;
      assert LockNext(run[i - 1], run[i]);
      action :| ReliedOn(run[i - 1], action) && Act(run[i - 1], action) == Some(run[i]);
    }
  }

  /** 'pending' is answered only by a request that found its key held by another. */
  lemma PendingMeansHeld(run: seq<Thread>, i: nat, p: Pid) returns (j: nat, q: Pid)
    requires IsLockRun(run) && i < |run| && p in run[i].requests
    requires run[i].requests[p].Finished? && run[i].requests[p].outcome == Pending
    ensures 0 < j <= i && p in run[j - 1].requests && run[j].requests[p] == run[i].requests[p]
    ensures run[j - 1].requests[p].Adding? && run[j - 1].requests[p].turn == run[i].requests[p].turn
    ensures q != p && q in run[j - 1].requests && Holds(run[j - 1].requests[q])
    ensures run[j - 1].requests[q].key == run[j - 1].requests[p].key
  {
    hide IsLockRun, Latest, HasReplyAfter, Top, Replies;
    var r := run[i].requests[p];
    var action;
    j, action := FirstMoment(run, i, (t: Thread) => p in t.requests && t.requests[p] == r);
    RunKeepsLock(run, j - 1);
    var key := run[j - 1].requests[p].key;
    q :| q in run[j - 1].requests && Holds(run[j - 1].requests[q]) && run[j - 1].requests[q].key == key;
  }

  /** And nobody who held the lock answers 'pending'. */
  lemma NobodyReleasesPending(run: seq<Thread>, i: nat, p: Pid)
    requires IsLockRun(run) && i < |run| && p in run[i].requests && run[i].requests[p].Releasing?
    ensures run[i].requests[p].outcome in {Ready, Failed}
  {
    hide IsLockRun, LocksHeld, Replies;
    RunKeepsLock(run, i);
    assert RequestRow(run[i].messages, run[i].requests[p]);
  }

  /** 'failed' is answered only by a request that held its lock and generated nothing, or died holding it. */
  lemma FailedMeansHeld(run: seq<Thread>, i: nat, p: Pid) returns (j: nat, key: nat)
    requires IsLockRun(run) && i < |run| && p in run[i].requests
    requires run[i].requests[p].Finished? && run[i].requests[p].outcome == Failed
    ensures var n := run[i].requests[p].turn;
            && 0 < j <= i && p in run[j - 1].requests && p in run[j].requests
            && (|| (run[j - 1].requests[p] == Generating(n, key) && run[j].requests[p] == Releasing(n, key, Failed)
                    && Act(run[j - 1], Move(p, false)) == Some(run[j]))
                || (run[j - 1].requests[p] == Dead(n, key) && run[j].requests[p] == Finished(n, Failed)))
  {
    hide IsLockRun, Latest, HasReplyAfter, Top, LockInv;
    var r := run[i].requests[p];
    var action;
    j, action := FirstMoment(run, i, (t: Thread) => p in t.requests && t.requests[p] == r);
    if run[j - 1].requests[p].Dead? {
      key := run[j - 1].requests[p].key;
    } else {
      var releasing := run[j - 1].requests[p];
      key := releasing.key;
      j, action := FirstMoment(run, j - 1, (t: Thread) => p in t.requests && t.requests[p] == releasing);
    }
  }

  /** A retry's first step: it takes up the last turn, or ends there if and only if nobody has posted one. */
  lemma RetryTakesUpLastTurn(t: Thread, p: Pid)
    requires p in t.requests && t.requests[p].Retrying?
    ensures Act(t, Move(p, true)).Some?
    ensures var r := Act(t, Move(p, true)).value.requests[p];
            if exists n :: IsVisitor(t.messages, n) then r.RetryChecking? && IsLatest(t.messages, r.turn)
            else r == NothingToRetry
  {
    if n: nat :| IsVisitor(t.messages, n) {
      LatestNoEarlier(t.messages, n);
    }
  }

  // ---- replies never outnumber turns ----------------------------------------------------------

  function VisitorRows(messages: seq<Message>): set<int> {
    set i | 0 <= i < |messages| && messages[i].Visitor?
  }

  function AgentRows(messages: seq<Message>): set<int> {
    set i | 0 <= i < |messages| && messages[i].Agent?
  }

  /** The visitor rows whose numbers the replies were made under: one row for each reply when keys differ. */
  lemma {:induction false} DistinctTurns(messages: seq<Message>, replies: set<int>) returns (turns: set<int>)
    requires Replies(messages) && replies <= AgentRows(messages)
    ensures |turns| == |replies| && turns <= VisitorRows(messages)
    ensures forall v :: v in turns ==> exists a :: a in replies && messages[v].number == messages[a].key
    decreases |replies|
  {
    if replies == {} {
      turns := {};
    } else {
      var a :| a in replies;
      var rest := DistinctTurns(messages, replies - {a});
      assert IsVisitor(messages, messages[a].key);
      var v :| 0 <= v < |messages| && messages[v] == Visitor(messages[a].key);
      if v in rest {
        var b :| b in replies - {a} && messages[v].number == messages[b].key;
        assert IsMadeUnder(messages, messages[a].key, a) && IsMadeUnder(messages, messages[a].key, b);
        assert false;
      }
      turns := rest + {v};
      forall x | x in turns
        ensures exists c :: c in replies && messages[x].number == messages[c].key
      {
        if x == v {
          assert a in replies && messages[x].number == messages[a].key;
        } else {
          var c :| c in replies - {a} && messages[x].number == messages[c].key;
          assert c in replies;
        }
      }
    }
  }

  /** Assistant messages never outnumber visitor turns, whatever raced, failed or was killed. */
  lemma RepliesNeverOutnumberTurns(run: seq<Thread>, i: nat)
    requires IsLockRun(run) && i < |run|
    ensures |AgentRows(run[i].messages)| <= |VisitorRows(run[i].messages)|
  {
    hide IsLockRun, LocksHeld, RequestRows;
    RunKeepsLock(run, i);
    var turns := DistinctTurns(run[i].messages, AgentRows(run[i].messages));
    SubsetSize(turns, VisitorRows(run[i].messages));
  }

  // ---- numbers ---------------------------------------------------------------------------------

  /** The request holds a number it has not inserted yet. */
  predicate HoldsNumber(r: Request) {
    r.Inserting? || r.Replying?
  }

  /** An allocation that no other request's allocation overlaps, as the docstring of `next_seq` promises. */
  ghost predicate Serialized(t: Thread, action: Action) {
    ReliedOn(t, action) && !action.MoveUnnumbered?
    && (action.Move? && action.pid in t.requests
        && (t.requests[action.pid].Allocating? || t.requests[action.pid].Generating?)
        ==> forall p :: p in t.requests ==> !HoldsNumber(t.requests[p]))
  }

  ghost predicate Increasing(messages: seq<Message>) {
    forall i, j :: 0 <= i < j < |messages| ==> messages[i].number < messages[j].number
  }

  ghost predicate NumbersInOrder(t: Thread) {
    && Increasing(t.messages)
    && (forall p :: p in t.requests && HoldsNumber(t.requests[p]) ==> t.requests[p].number == Top(t.messages) + 1)
    && (forall p, q :: p in t.requests && q in t.requests && HoldsNumber(t.requests[p]) && HoldsNumber(t.requests[q])
         ==> p == q)
  }

  /** If no two allocations overlap, numbers are distinct and grow in the order of insertion. */
  lemma SerializedNumbersIncrease(t: Thread, action: Action)
    requires NumbersInOrder(t) && Serialized(t, action) && Act(t, action).Some?
    ensures NumbersInOrder(Act(t, action).value)
  {
    hide Latest, HasReplyAfter, Top;
    var n := Act(t, action).value;
    if n.messages != t.messages {
      assert n.messages == t.messages + [n.messages[|t.messages|]];
      assert forall i :: 0 <= i < |t.messages| ==> t.messages[i].number <= Top(t.messages);
    }
  }

  /** The step reads the next number. */
  predicate Allocates(r: Request) {
    r.Allocating? || r.Generating?
  }

  /** Exactly then: as long as numbers are in order, an allocation keeps them so if and only if no other
      request holds a number it has not inserted; otherwise it hands out that very number again. */
  lemma AllocationIsFreshIff(t: Thread, p: Pid)
    requires NumbersInOrder(t) && p in t.requests && Allocates(t.requests[p])
    ensures Act(t, Move(p, true)).Some?
    ensures NumbersInOrder(Act(t, Move(p, true)).value) <==> forall q :: q in t.requests ==> !HoldsNumber(t.requests[q])
    ensures forall q :: q in t.requests && HoldsNumber(t.requests[q]) ==>
              && q in Act(t, Move(p, true)).value.requests
              && Act(t, Move(p, true)).value.requests[q].number == Act(t, Move(p, true)).value.requests[p].number
  {
    hide Top, Increasing;
    var n := Act(t, Move(p, true)).value;
    forall q | q in t.requests && HoldsNumber(t.requests[q])
      ensures !NumbersInOrder(n)
    {
      assert p != q && HoldsNumber(n.requests[p]) && HoldsNumber(n.requests[q]);
    }
  }

  /** They can overlap: `next_seq` locks the thread only while it reads the maximum, the insert comes
      later. Two requests that allocate before either inserts get the same number, and insert it twice. */
  lemma OverlappingNumbersCollide(t: Thread, p: Pid, q: Pid)
    requires p in t.requests && q in t.requests && p != q && t.requests[p].Allocating? && t.requests[q].Allocating?
    ensures var t1 := Act(t, Move(p, true));
            && t1.Some?
            && var t2 := Act(t1.value, Move(q, true));
               && t2.Some?
               && var t3 := Act(t2.value, Move(p, true));
                  && t3.Some?
                  && var t4 := Act(t3.value, Move(q, true));
                     && t4.Some?
                     && t4.value.messages == t.messages + [Visitor(Top(t.messages) + 1), Visitor(Top(t.messages) + 1)]
  {
    hide Top, Latest, HasReplyAfter;
  }

  // ---- what the lock does not give ------------------------------------------------------------------

  /** Taking the actions one after the other leads from one thread to the other. */
  ghost predicate Leads(t: Thread, actions: seq<Action>, after: Thread)
    decreases |actions|
  {
    if actions == [] then after == t
    else Act(t, actions[0]).Some? && Leads(Act(t, actions[0]).value, actions[1..], after)
  }

  lemma Start(t: Thread) returns (actions: seq<Action>, after: Thread)
    ensures actions == [] && after == t && Leads(t, actions, after)
  {
    actions, after := [], t;
  }

  /** One action more. */
  lemma {:induction false} Take(t: Thread, actions: seq<Action>, middle: Thread, action: Action)
    returns (longer: seq<Action>, after: Thread)
    requires Leads(t, actions, middle) && Act(middle, action).Some?
    ensures longer == actions + [action] && Act(middle, action) == Some(after) && Leads(t, longer, after)
    decreases |actions|
  {
    hide Act;
    after := Act(middle, action).value;
    longer := actions + [action];
    if actions == [] {
      assert longer[1..] == [];
    } else {
      var rest, same := Take(Act(t, actions[0]).value, actions[1..], middle, action);
      assert longer[1..] == rest;
    }
  }

  /** A turn generates its reply while a retry of the same turn is about to take the lock. */
  ghost predicate Contended(t: Thread, p: Pid, q: Pid, key: nat) {
    && p != q && p in t.requests && q in t.requests
    && t.requests[p] == Generating(key, key) && t.requests[q] == Adding(key, key) && !HasReplyAfter(t.messages, key)
  }

  ghost predicate RepliedTwice(messages: seq<Message>, key: nat) {
    exists i, j :: i != j && IsMadeUnder(messages, key, i) && IsMadeUnder(messages, key, j)
  }

  /** One turn, up to the generation of its reply. */
  lemma FirstTurn() returns (actions: seq<Action>, t: Thread)
    ensures Leads(FRESH, actions, t) && t == Thread([Visitor(1)], {1}, map[0 := Generating(1, 1)])
    ensures forall a :: a in actions ==> a.Arrive? || a.Move?
  {
    hide Leads, Latest, HasReplyAfter;
    OneTurnRead();
    actions, t := Start(FRESH);
    actions, t := Take(FRESH, actions, t, Arrive(0, false));
    actions, t := Take(FRESH, actions, t, Move(0, true));
    actions, t := Take(FRESH, actions, t, Move(0, true));
    assert t.messages == [Visitor(1)];
    actions, t := Take(FRESH, actions, t, Move(0, true));
    actions, t := Take(FRESH, actions, t, Move(0, true));
    actions, t := Take(FRESH, actions, t, Move(0, true));
  }

  /** Such a moment comes about with one turn and one retry. */
  lemma ContentionHappens() returns (actions: seq<Action>, t: Thread)
    ensures Leads(FRESH, actions, t) && Contended(t, 0, 1, 1) && forall a :: a in actions ==> a.Arrive? || a.Move?
  {
    hide Leads, Latest, HasReplyAfter;
    OneTurnRead();
    actions, t := FirstTurn();
    actions, t := Take(FRESH, actions, t, Arrive(1, true));
    actions, t := Take(FRESH, actions, t, Move(1, true));
    actions, t := Take(FRESH, actions, t, Move(1, true));
    actions, t := Take(FRESH, actions, t, Move(1, true));
  }

  lemma OneTurnRead()
    ensures Latest([Visitor(1)]) == Some(1) && !HasReplyAfter([Visitor(1)], 1)
  {
    var messages := [Visitor(1)];
    assert messages[0] == Visitor(1);
    assert IsVisitor(messages, 1) && IsLatest(messages, 1);
  }

  /** The lock expires while its holder generates: the next request for the key takes it, finds no reply
      yet, and both persist one. */
  lemma ExpiryBreaksTheLock(t: Thread, p: Pid, q: Pid, key: nat) returns (actions: seq<Action>, after: Thread)
    requires Contended(t, p, q, key)
    ensures Leads(t, actions, after) && RepliedTwice(after.messages, key)
    ensures actions != [] && actions[0] == Evict(key) && forall a :: a in actions[1..] ==> a.Move?
  {
    hide Top, Latest, HasReplyAfter, Leads;
    actions, after := Start(t);
    actions, after := Take(t, actions, after, Evict(key));
    actions, after := Take(t, actions, after, Move(q, true));
    actions, after := Take(t, actions, after, Move(q, true));
    actions, after := Take(t, actions, after, Move(p, true));
    actions, after := Take(t, actions, after, Move(q, true));
    actions, after := Take(t, actions, after, Move(p, true));
    actions, after := Take(t, actions, after, Move(q, true));
    var n := |t.messages|;
    assert IsMadeUnder(after.messages, key, n) && IsMadeUnder(after.messages, key, n + 1);
  }

  /** A reply whose number falls back to 0 does not count as a reply to its turn: a retry makes another. */
  lemma UnnumberedReplyIsRepeated(t: Thread, p: Pid, q: Pid, key: nat) returns (actions: seq<Action>, after: Thread)
    requires Contended(t, p, q, key)
    ensures Leads(t, actions, after) && RepliedTwice(after.messages, key)
    ensures actions != [] && actions[0] == MoveUnnumbered(p) && forall a :: a in actions[1..] ==> a.Move?
  {
    hide Top, Latest, HasReplyAfter, Leads;
    actions, after := Start(t);
    actions, after := Take(t, actions, after, MoveUnnumbered(p));
    actions, after := Take(t, actions, after, Move(p, true));
    ZeroIsNoReply(t.messages, key);
    actions, after := Take(t, actions, after, Move(p, true));
    actions, after := Take(t, actions, after, Move(q, true));
    actions, after := Take(t, actions, after, Move(q, true));
    actions, after := Take(t, actions, after, Move(q, true));
    actions, after := Take(t, actions, after, Move(q, true));
    var n := |t.messages|;
    assert IsMadeUnder(after.messages, key, n) && IsMadeUnder(after.messages, key, n + 1);
  }

  lemma ZeroIsNoReply(messages: seq<Message>, key: nat)
    requires !HasReplyAfter(messages, key)
    ensures !HasReplyAfter(messages + [Agent(0, key, key)], key)
  {
    var after := messages + [Agent(0, key, key)];
    assert forall i :: 0 <= i < |messages| ==> after[i] == messages[i];
  }

  /** Two turns of one visitor, the second posted while the first is being answered. */
  lemma TurnsOverlap() returns (actions: seq<Action>, t: Thread)
    ensures Leads(FRESH, actions, t) && forall a :: a in actions ==> a.Arrive? || a.Move?
    ensures t.messages == [Visitor(1), Visitor(2)] && 0 in t.requests && 1 in t.requests
    ensures t.requests[0] == Generating(1, 1) && t.requests[1] == Rechecking(2, 2)
  {
    hide Leads, Latest, HasReplyAfter;
    TwoTurnsRead();
    actions, t := FirstTurn();
    actions, t := Take(FRESH, actions, t, Arrive(1, false));
    assert Top([Visitor(1)]) == 1;
    actions, t := Take(FRESH, actions, t, Move(1, true));
    actions, t := Take(FRESH, actions, t, Move(1, true));
    assert t.messages == [Visitor(1), Visitor(2)];
    actions, t := Take(FRESH, actions, t, Move(1, true));
    actions, t := Take(FRESH, actions, t, Move(1, true));
  }

  lemma TwoTurnsRead()
    ensures Latest([Visitor(1), Visitor(2)]) == Some(2) && IsVisitor([Visitor(1), Visitor(2)], 2)
  {
    var messages := [Visitor(1), Visitor(2)];
    assert messages[1] == Visitor(2);
    assert IsVisitor(messages, 2) && IsLatest(messages, 2);
  }

  /** A reply to one turn that is inserted after a later turn was read passes for the later turn's reply: that
      attempt reports 'ready' and no reply was made to its turn. It does not matter how far the other attempt is:
      on its way to a free lock, holding it, or generating. */
  lemma EarlierReplyIsReused(t: Thread, p: Pid, q: Pid) returns (actions: seq<Action>, after: Thread)
    requires p != q && p in t.requests && q in t.requests && t.requests[q].Rechecking?
    requires IsVisitor(t.messages, t.requests[q].key) && !Answered(t.messages, t.requests[q].turn)
    requires t.requests[p].Adding? || t.requests[p].Rechecking? || t.requests[p].Generating?
    requires t.requests[p].turn != t.requests[q].turn
    requires t.requests[p].Adding? ==> t.requests[p].key !in t.cache
    requires t.requests[p].Generating? || !HasReplyAfter(t.messages, t.requests[p].key)
    ensures Leads(t, actions, after) && forall a :: a in actions ==> a.Move?
    ensures var r := t.requests[q];
            q in after.requests && after.requests[q] == Releasing(r.turn, r.key, Ready)
            && !Answered(after.messages, r.turn)
  {
    hide Top, Latest, Leads, HasReplyAfter, IsVisitor, Answered;
    var r := t.requests[p];
    actions, after := Start(t);
    if t.requests[p].Adding? {
      actions, after := Take(t, actions, after, Move(p, true));
    }
    if !t.requests[p].Generating? {
      actions, after := Take(t, actions, after, Move(p, true));
    }
    actions, after := Take(t, actions, after, Move(p, true));
    actions, after := Take(t, actions, after, Move(p, true));
    LateReplyCovers(t.messages, r.turn, r.key, t.requests[q]);
    actions, after := Take(t, actions, after, Move(q, true));
  }

  lemma LateReplyCovers(messages: seq<Message>, turn: nat, key: nat, r: Request)
    requires r.Rechecking? && IsVisitor(messages, r.key) && !Answered(messages, r.turn) && turn != r.turn
    ensures var after := messages + [Agent(Top(messages) + 1, key, turn)];
            HasReplyAfter(after, r.key) && !Answered(after, r.turn)
  {
    hide Top;
    var after := messages + [Agent(Top(messages) + 1, key, turn)];
    TopAboveVisitors(messages, r.key);
    assert after[|messages|].number > r.key;
    assert forall i :: IsReplyTo(after, r.turn, i) ==> IsReplyTo(messages, r.turn, i);
  }
}
