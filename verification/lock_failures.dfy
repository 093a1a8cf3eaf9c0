/**
 Where the cluster lock stops short: which lost connections let two bodies run, and how a lock comes to stay
 with a session that nobody unlocks.
 */
module LockFailures {
  import opened SyncLock

  /** A task whose connection broke has nothing left to do on it: its query fails and it ends. */
  function Disconnected(t: Task, x: Session): Task {
    if InFlight(t) && !t.Granted? && t.session == x then Finished else t
  }

  /**
   A connection breaks under a replica that lives on. The database drops its locks; tasks that were to use it
   next end; one that was granted the lock, or whose body runs, does not notice, and the map keeps its entry.
   */
  function ConnectionLost(s: State, x: Session): State {
    State(WithoutSessions(s.db, {x}), s.held,
          seq(|s.tasks|, i requires 0 <= i < |s.tasks| => Disconnected(s.tasks[i], x)))
  }

  /** What another replica then does to take the key: check, connect, lock, hold. */
  function Takeover(s: State, other: Replica, k: Key): seq<Step> {
    [Check(Slot(other, k)), Connect(|s.tasks|, |s.db.home|), TryLock(|s.tasks|), Hold(|s.tasks|)]
  }

  /** If a body runs on the lost connection, another replica can start a second one beside it. */
  lemma LostConnectionLetsTwoRun(s: State, i: nat, other: Replica)
    requires Inv(s) && i < |s.tasks| && s.tasks[i].Running?
    requires var slot := s.tasks[i].slot; Slot(other, slot.key) !in s.held
    ensures var slot := s.tasks[i].slot;
            var lost := ConnectionLost(s, s.held[slot]);
            var t := Run(lost, Takeover(lost, other, slot.key));
            i < |s.tasks| < |t.tasks| && t.tasks[i] == Running(slot) && t.tasks[|s.tasks|] == Running(Slot(other, slot.key))
  {
    var slot := s.tasks[i].slot;
    assert GoodTask(s, s.tasks[i]) && GoodSlot(s, slot);
    TakeoverRuns(ConnectionLost(s, s.held[slot]), other, slot.key);
  }

  predicate RunUnderOneKey(a: Task, b: Task) {
    a.Running? && b.Running? && a.slot.key == b.slot.key
  }

  /** No two bodies run under one key. */
  predicate IsExclusive(s: State) {
    forall i, j :: 0 <= i < |s.tasks| && 0 <= j < |s.tasks| && RunUnderOneKey(s.tasks[i], s.tasks[j]) ==> i == j
  }

  ghost predicate StaysExclusive(s: State) {
    forall more :: IsExclusive(Run(s, more))
  }

  /** A session with which somebody has been granted the lock or holds it. */
  ghost predicate IsGuarding(s: State, x: Session) {
    || (exists slot :: HoldsFor(s, slot, x))
    || (exists i: nat :: FlightOf(s, i, x) && s.tasks[i].Granted?)
  }

  /** Losing any other session is as if it had never been there. */
  lemma UnguardingLossKeepsInv(s: State, x: Session)
    requires Inv(s) && x < |s.db.home| && !IsGuarding(s, x)
    ensures Inv(ConnectionLost(s, x))
  {
    var t := ConnectionLost(s, x);
    forall slot ensures GoodSlot(t, slot) {
      assert GoodSlot(s, slot) && !HoldsFor(s, slot, x);
    }
    forall i | 0 <= i < |t.tasks| ensures GoodTask(t, t.tasks[i]) {
      assert GoodTask(s, s.tasks[i]);
      assert FlightOf(s, i, x) ==> !s.tasks[i].Granted?;
    }
    forall i, j | 0 <= i < j < |t.tasks| ensures Apart(t.tasks[i], t.tasks[j]) {
      assert Apart(s.tasks[i], s.tasks[j]);
    }
    forall i, slot | 0 <= i < |t.tasks| ensures ApartFromHeld(t, t.tasks[i], slot) {
      assert ApartFromHeld(s, s.tasks[i], slot);
    }
    forall a, b ensures HeldApart(t, a, b) {
      assert HeldApart(s, a, b);
    }
  }

  lemma InvIsExclusive(s: State)
    requires Inv(s)
    ensures IsExclusive(s)
  {
    forall i, j | 0 <= i < |s.tasks| && 0 <= j < |s.tasks| && RunUnderOneKey(s.tasks[i], s.tasks[j]) ensures i == j
    {
      OneRunner(s, i, j);
    }
  }

  /** The key of a guarding session is held by no other replica. */
  lemma OthersDoNotHold(s: State, slot: Slot, other: Slot)
    requires Inv(s) && slot in s.held && other.key == slot.key && other != slot
    ensures other !in s.held
  {
    assert GoodSlot(s, slot) && GoodSlot(s, other) && HeldApart(s, slot, other);
  }

  /** A grant whose connection was lost is held all the same, beside the body of another replica. */
  lemma LostGrantLetsTwoRun(s: State, i: nat, other: Replica)
    requires Inv(s) && i < |s.tasks| && s.tasks[i].Granted? && other != s.tasks[i].slot.replica
    ensures var slot := s.tasks[i].slot;
            var lost := ConnectionLost(s, s.tasks[i].session);
            !IsExclusive(Run(lost, Takeover(lost, other, slot.key) + [Hold(i)]))
  {
    var slot, x := s.tasks[i].slot, s.tasks[i].session;
    var second := Slot(other, slot.key);
    assert GoodTask(s, s.tasks[i]);
    GrantedIsAlone(s, i, second);
    var lost := ConnectionLost(s, x);
    TakeoverRuns(lost, other, slot.key);
    var t := Run(lost, Takeover(lost, other, slot.key));
    RunAppends(lost, Takeover(lost, other, slot.key), [Hold(i)]);
    RunOne(t, Hold(i));
    var u := HeldBy(t, i);
    assert u.tasks[i] == Running(slot) && u.tasks[|s.tasks|] == Running(second);
  }

  /** A key without a lock and without an entry of this replica is there for the taking. */
  lemma TakeoverRuns(s: State, other: Replica, k: Key)
    requires k !in s.db.locks && Slot(other, k) !in s.held
    ensures Run(s, Takeover(s, other, k)).tasks == s.tasks + [Running(Slot(other, k))]
  {
    var slot, n, x := Slot(other, k), |s.tasks|, |s.db.home|;
    RunFour(s, Check(slot), Connect(n, x), TryLock(n), Hold(n));
    var s2 := ConnectedBy(CheckedBy(s, slot), n, x);
    assert s2.tasks == s.tasks + [Connected(slot, x)];
    var s3 := LockTriedBy(s2, n);
    assert s3.tasks == s.tasks + [Granted(slot, x)];
  }

  /**
   Which losses matter: in every reachable state, losing a live session keeps at most one body a key, now and
   in every continuation, if and only if nobody holds the session in a map or has just been granted a lock on it.
   */
  lemma LossIsHarmlessIff(steps: seq<Step>, x: Session)
    requires x < |Run(START, steps).db.home|
    ensures StaysExclusive(ConnectionLost(Run(START, steps), x)) <==> !IsGuarding(Run(START, steps), x)
  {
    var s := Run(START, steps);
    var lost := ConnectionLost(s, x);
    RunKeepsInv(START, steps);
    RunAccounts(START, steps);
    if !IsGuarding(s, x) {
      UnguardingLossKeepsInv(s, x);
      forall more ensures IsExclusive(Run(lost, more)) {
        RunKeepsInv(lost, more);
        InvIsExclusive(Run(lost, more));
      }
    } else if slot :| HoldsFor(s, slot, x) {
      assert IsRun(s, slot);
      var i: nat :| Runs(s, i, slot);
      OthersDoNotHold(s, slot, Slot(slot.replica + 1, slot.key));
      LostConnectionLetsTwoRun(s, i, slot.replica + 1);
      assert !IsExclusive(Run(lost, Takeover(lost, slot.replica + 1, slot.key)));
    } else {
      var i: nat :| FlightOf(s, i, x) && s.tasks[i].Granted?;
      var other := s.tasks[i].slot.replica + 1;
      LostGrantLetsTwoRun(s, i, other);
      assert !IsExclusive(Run(lost, Takeover(lost, other, s.tasks[i].slot.key) + [Hold(i)]));
    }
  }

  /** Somebody will give the lock of `k` back on session `x` once: it was granted, is held, or is being unlocked. */
  ghost predicate WillUnlock(s: State, k: Key, x: Session) {
    || (exists i: nat :: FlightOf(s, i, x) && s.tasks[i].slot.key == k && (s.tasks[i].Granted? || s.tasks[i].Unlocking?))
    || (exists slot :: HoldsFor(s, slot, x) && slot.key == k)
  }

  /** The session has the lock more often than it will be given back. */
  ghost predicate IsLeaked(s: State, k: Key, x: Session) {
    Owns(s.db, k, x) && s.db.locks[k].count >= if WillUnlock(s, k, x) then 2 else 1
  }

  /** One way in: an unlock fails, and the session goes back to its pool with the lock. */
  lemma FailedUnlockLeaks(s: State, i: nat)
    requires Inv(s) && i < |s.tasks| && s.tasks[i].Unlocking?
    ensures IsLeaked(UnlockedBy(s, i, false), s.tasks[i].slot.key, s.tasks[i].session)
    ensures IsLeaked(GivenBackBy(UnlockedBy(s, i, false), i), s.tasks[i].slot.key, s.tasks[i].session)
  {
    var k, x := s.tasks[i].slot.key, s.tasks[i].session;
    assert GoodTask(s, s.tasks[i]);
    OwnSession(s, i);
    var t := UnlockedBy(s, i, false);
    NobodyWillUnlock(s, t, i, k, x);
    NobodyWillUnlock(s, GivenBackBy(t, i), i, k, x);
  }

  /** The other way in: the lock is granted but the reply is lost, and the session is given back as if refused. */
  lemma LostReplyLeaks(s: State, i: nat)
    requires Inv(s) && i < |s.tasks| && s.tasks[i].Connected? && Grants(s.db, s.tasks[i].slot.key, s.tasks[i].session)
    ensures IsLeaked(QueryFailedBy(s, i, true), s.tasks[i].slot.key, s.tasks[i].session)
    ensures IsLeaked(GivenBackBy(QueryFailedBy(s, i, true), i), s.tasks[i].slot.key, s.tasks[i].session)
  {
    var k, x := s.tasks[i].slot.key, s.tasks[i].session;
    OwnSession(s, i);
    var t := QueryFailedBy(s, i, true);
    NobodyWillUnlock(s, t, i, k, x);
    NobodyWillUnlock(s, GivenBackBy(t, i), i, k, x);
  }

  lemma NobodyWillUnlock(s: State, t: State, i: nat, k: Key, x: Session)
    requires i < |s.tasks| && !UsedElsewhere(s, i, x) && |t.tasks| == |s.tasks| && t.held == s.held
    requires forall j :: 0 <= j < |s.tasks| && j != i ==> t.tasks[j] == s.tasks[j]
    requires t.tasks[i].Returning? || t.tasks[i].Finished?
    ensures !WillUnlock(t, k, x)
  {
  }

  /** The replica of the session crashes, or its pool closes it. */
  predicate EndsSession(s: State, step: Step, x: Session) {
    || (step.Crash? && x < |s.db.home| && step.replica == s.db.home[x])
    || (step == Evict(x) && x in s.db.idle)
  }

  /** Using the session again does not help: its next unlock only undoes its next lock. */
  lemma LeakStep(s: State, k: Key, x: Session, step: Step)
    requires Inv(s) && IsLeaked(s, k, x) && !EndsSession(s, step, x)
    ensures IsLeaked(Next(s, step), k, x)
  {
    var t := Next(s, step);
    assert x < |s.db.home|;
    if step.TryLock? && FlightOf(s, step.task, x) && s.tasks[step.task].Connected? {
      OwnSession(s, step.task);
      assert !WillUnlock(s, k, x);
    } else if step.Unlock? && FlightOf(s, step.task, x) && s.tasks[step.task].Unlocking? && s.tasks[step.task].slot.key == k {
      OwnSession(s, step.task);
      assert WillUnlock(s, k, x);
      NobodyWillUnlock(s, t, step.task, k, x);
    } else if WillUnlock(t, k, x) {
      NoNewUnlock(s, k, x, step);
    }
  }

  lemma NoNewUnlock(s: State, k: Key, x: Session, step: Step)
    requires Inv(s) && WillUnlock(Next(s, step), k, x)
    requires step.TryLock? ==> !(FlightOf(s, step.task, x) && s.tasks[step.task].Connected?)
    ensures WillUnlock(s, k, x)
  {
    var t := Next(s, step);
    if i: nat :| FlightOf(t, i, x) && t.tasks[i].slot.key == k && (t.tasks[i].Granted? || t.tasks[i].Unlocking?) {
      if i < |s.tasks| && s.tasks[i].Running? {
        assert HoldsFor(s, s.tasks[i].slot, x);
      } else {
        assert FlightOf(s, i, x) && s.tasks[i].slot.key == k;
      }
    } else {
      var slot :| HoldsFor(t, slot, x) && slot.key == k;
      if slot !in s.held || s.held[slot] != x {
        assert FlightOf(s, step.task, x) && s.tasks[step.task].Granted?;
      } else {
        assert HoldsFor(s, slot, x);
      }
    }
  }

  predicate SessionEnds(s: State, steps: seq<Step>, x: Session)
    decreases |steps|
  {
    |steps| > 0 && (EndsSession(s, steps[0], x) || SessionEnds(Next(s, steps[0]), steps[1..], x))
  }

  lemma {:induction false} DeadOwnNothing(s: State, k: Key, x: Session, steps: seq<Step>)
    requires Inv(s) && x in s.db.dead
    ensures !Owns(Run(s, steps).db, k, x)
    decreases |steps|
  {
    if |steps| > 0 {
      StepKeepsInv(s, steps[0]);
      DeadOwnNothing(Next(s, steps[0]), k, x, steps[1..]);
    }
  }

  /**
   A leaked lock stays with its session through every run, however often the session is used again, until its
   pool closes it or its replica crashes, and is gone from then on.
   */
  lemma {:induction false} LeakLastsWithSession(s: State, k: Key, x: Session, steps: seq<Step>)
    requires Inv(s) && IsLeaked(s, k, x)
    ensures Owns(Run(s, steps).db, k, x) <==> !SessionEnds(s, steps, x)
    ensures !SessionEnds(s, steps, x) ==>
              var db := Run(s, steps).db;
              IsLeaked(Run(s, steps), k, x) && x < |db.home| && db.home[x] == s.db.home[x]
    decreases |steps|
  {
    if |steps| > 0 {
      StepKeepsInv(s, steps[0]);
      if EndsSession(s, steps[0], x) {
        DeadOwnNothing(Next(s, steps[0]), k, x, steps[1..]);
      } else {
        LeakStep(s, k, x, steps[0]);
        LeakLastsWithSession(Next(s, steps[0]), k, x, steps[1..]);
      }
    }
  }

  /** Until then no other replica runs a body under the key, and its own only through the leaked session. */
  lemma LeakShutsOthersOut(s: State, k: Key, x: Session, steps: seq<Step>, i: nat)
    requires Inv(s) && IsLeaked(s, k, x) && !SessionEnds(s, steps, x)
    requires i < |Run(s, steps).tasks| && Run(s, steps).tasks[i].Running? && Run(s, steps).tasks[i].slot.key == k
    ensures var t := Run(s, steps); var slot := t.tasks[i].slot;
            slot in t.held && t.held[slot] == x && slot.replica == s.db.home[x]
  {
    LeakLastsWithSession(s, k, x, steps);
    RunKeepsInv(s, steps);
    var t := Run(s, steps);
    assert GoodTask(t, t.tasks[i]) && GoodSlot(t, t.tasks[i].slot);
  }

  /** An idle session still has the lock of a key that nobody is being granted or runs under. */
  predicate Wedged(s: State, k: Key, x: Session) {
    && Owns(s.db, k, x) && x in s.db.idle && x < |s.db.home|
    && forall i :: 0 <= i < |s.tasks| && (s.tasks[i].Granted? || s.tasks[i].Running? || s.tasks[i].Unlocking?) ==>
         s.tasks[i].slot.key != k
  }

  /** Steps that neither take session `x` out of its pool nor end it. */
  predicate LeavesIdle(s: State, step: Step, x: Session) {
    (step.Connect? ==> step.session != x) && !EndsSession(s, step, x)
  }

  predicate AllLeaveIdle(s: State, steps: seq<Step>, x: Session)
    decreases |steps|
  {
    |steps| == 0 || (LeavesIdle(s, steps[0], x) && AllLeaveIdle(Next(s, steps[0]), steps[1..], x))
  }

  /** Right after a failed unlock the leaked session lies idle. */
  lemma FailedUnlockWedges(s: State, i: nat)
    requires Inv(s) && i < |s.tasks| && s.tasks[i].Unlocking?
    ensures Wedged(GivenBackBy(UnlockedBy(s, i, false), i), s.tasks[i].slot.key, s.tasks[i].session)
  {
    var k, x := s.tasks[i].slot.key, s.tasks[i].session;
    assert GoodTask(s, s.tasks[i]);
    forall j | 0 <= j < |s.tasks| && j != i && (s.tasks[j].Granted? || s.tasks[j].Running? || s.tasks[j].Unlocking?)
      ensures s.tasks[j].slot.key != k
    {
      assert GoodTask(s, s.tasks[j]) && GoodSlot(s, s.tasks[j].slot) && ApartFromHeld(s, s.tasks[i], s.tasks[j].slot);
      assert i < j ==> Apart(s.tasks[i], s.tasks[j]);
      assert j < i ==> Apart(s.tasks[j], s.tasks[i]);
    }
  }

  /** While the leaked session is not used again, not even its own replica runs a body under the key. */
  lemma {:induction false} WedgedStaysWedged(s: State, k: Key, x: Session, steps: seq<Step>)
    requires Inv(s) && Wedged(s, k, x) && AllLeaveIdle(s, steps, x)
    ensures Wedged(Run(s, steps), k, x)
    decreases |steps|
  {
    if |steps| > 0 {
      StepKeepsInv(s, steps[0]);
      WedgedStep(s, k, x, steps[0]);
      WedgedStaysWedged(Next(s, steps[0]), k, x, steps[1..]);
    }
  }

  lemma WedgedStep(s: State, k: Key, x: Session, step: Step)
    requires Inv(s) && Wedged(s, k, x) && LeavesIdle(s, step, x)
    ensures Wedged(Next(s, step), k, x)
  {
    if (step.TryLock? || step.QueryFails? || step.Unlock? || step.GiveBack?) && step.task < |s.tasks| {
      assert GoodTask(s, s.tasks[step.task]);
    }
  }
  /**
   A failed unlock, in any reachable state, and then any steps that leave the session idle: until it is used
   again or ends, nobody runs a body under the key, not even its own replica.
   */
  lemma FailedUnlockShutsKey(before: seq<Step>, i: nat, steps: seq<Step>, j: nat)
    requires i < |Run(START, before).tasks| && Run(START, before).tasks[i].Unlocking?
    requires var failed := Run(START, before + [Unlock(i, false), GiveBack(i)]);
             && AllLeaveIdle(failed, steps, Run(START, before).tasks[i].session)
             && j < |Run(failed, steps).tasks|
    ensures var failed := Run(START, before + [Unlock(i, false), GiveBack(i)]);
            var key := Run(START, before).tasks[i].slot.key;
            Run(failed, steps).tasks[j].Running? ==> Run(failed, steps).tasks[j].slot.key != key
  {
    var s := Run(START, before);
    RunKeepsInv(START, before);
    RunAppends(START, before, [Unlock(i, false), GiveBack(i)]);
    RunTwo(s, Unlock(i, false), GiveBack(i));
    RunKeepsInv(s, [Unlock(i, false), GiveBack(i)]);
    FailedUnlockWedges(s, i);
    WedgedStaysWedged(Run(s, [Unlock(i, false), GiveBack(i)]), s.tasks[i].slot.key, s.tasks[i].session, steps);
  }
}
