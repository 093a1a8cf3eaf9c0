/**
 The cluster lock of postgres-sync.lock.ts. Every replica keeps a map of the sessions it holds locks on; the
 database grants a session-level advisory lock by key. `tryAcquire` and `release` are split at every await,
 queries may fail, a pool may close a session that lies idle, and replicas may crash.
 */
module SyncLock {
  import opened Wrappers

  type Key = int
  type Replica = nat
  type Session = nat

  /** A session may take a lock it has again; it must then give it up as many times. */
  datatype Lock = Lock(owner: Session, count: nat)

  /**
   The database and the connection pools: `home[s]` is the replica of session `s`, `idle` the sessions in a
   pool, `dead` those that have ended.
   */
  datatype Server = Server(home: seq<Replica>, idle: set<Session>, dead: set<Session>, locks: map<Key, Lock>)

  /** A runner takes an idle session of its replica's pool or opens a new one. */
  predicate CanConnect(db: Server, r: Replica, s: Session) {
    s == |db.home| || (s < |db.home| && s in db.idle && db.home[s] == r)
  }

  function WithConnection(db: Server, r: Replica, s: Session): Server {
    if s == |db.home| then db.(home := db.home + [r]) else db.(idle := db.idle - {s})
  }

  /** Whether `pg_try_advisory_lock` answers true. */
  predicate Grants(db: Server, k: Key, s: Session) {
    k !in db.locks || db.locks[k].owner == s
  }

  function WithLock(db: Server, k: Key, s: Session): Server {
    if !Grants(db, k, s) then db
    else db.(locks := db.locks[k := Lock(s, if k in db.locks then db.locks[k].count + 1 else 1)])
  }

  /** `pg_advisory_unlock`: does nothing for a session that does not have the lock. */
  function WithoutLock(db: Server, k: Key, s: Session): Server {
    if k !in db.locks || db.locks[k].owner != s then db
    else if db.locks[k].count <= 1 then db.(locks := db.locks - {k})
    else db.(locks := db.locks[k := Lock(s, db.locks[k].count - 1)])
  }

  /** `runner.release()`: the session goes back to the pool and lives on, with whatever locks it has. */
  function Returned(db: Server, s: Session): Server {
    db.(idle := db.idle + {s})
  }

  /** A runner of a replica gets a session that lies in its own pool, or a new one. */
  lemma ConnectsIff(db: Server, r: Replica, s: Session)
    requires s < |db.home|
    ensures CanConnect(db, r, s) <==> s in db.idle && db.home[s] == r
    ensures CanConnect(db, r, |db.home|)
  {
  }

  /**
   The advisory lock of one key: the session that has it may take it again, no other session may, and it is free
   once it was given up as often as it was taken.
   */
  lemma LocksNest(db: Server, k: Key, s: Session)
    requires k !in db.locks
    ensures Grants(db, k, s)
    ensures var once := WithLock(db, k, s); var twice := WithLock(once, k, s);
            && (forall other :: Grants(once, k, other) <==> other == s) && (forall other :: Grants(twice, k, other) <==> other == s)
            && WithoutLock(twice, k, s) == once && WithoutLock(once, k, s) == db
            && forall other :: other != s ==> WithLock(once, k, other) == once && WithoutLock(once, k, other) == once
  {
    assert WithoutLock(WithLock(db, k, s), k, s).locks == db.locks;
  }

  function SessionsOf(db: Server, r: Replica): set<Session> {
    set s | 0 <= s < |db.home| && db.home[s] == r
  }

  /** The sessions end, and with them every lock they had. */
  function WithoutSessions(db: Server, gone: set<Session>): Server {
    db.(idle := db.idle - gone, dead := db.dead + gone,
        locks := map k | k in db.locks && db.locks[k].owner !in gone :: db.locks[k])
  }

  /** What a replica may have under one key. */
  datatype Slot = Slot(replica: Replica, key: Key)

  /** One run of a job: where it stands between two awaits. */
  datatype Task =
    | Checked(slot: Slot)
    | Connected(slot: Slot, session: Session)
    | Granted(slot: Slot, session: Session)
    | Running(slot: Slot)
    | Unlocking(slot: Slot, session: Session)
    | Returning(slot: Slot, session: Session)
    | Finished

  datatype State = State(db: Server, held: map<Slot, Session>, tasks: seq<Task>)

  const START := State(Server([], {}, {}, map[]), map[], [])

  datatype Step =
    | Check(slot: Slot)
    | Connect(task: nat, session: Session)
    | TryLock(task: nat)
    | QueryFails(task: nat, granted: bool)
    | Hold(task: nat)
    | Release(task: nat)
    | Unlock(task: nat, works: bool)
    | GiveBack(task: nat)
    | Evict(session: Session)
    | Crash(replica: Replica)

  /** `held.has(key)`: a replica that holds the key already does not try. */
  function CheckedBy(s: State, slot: Slot): State {
    if slot in s.held then s else s.(tasks := s.tasks + [Checked(slot)])
  }

  function ConnectedBy(s: State, i: nat, session: Session): State {
    if i < |s.tasks| && s.tasks[i].Checked? && CanConnect(s.db, s.tasks[i].slot.replica, session) then
      var slot := s.tasks[i].slot;
      s.(db := WithConnection(s.db, slot.replica, session), tasks := s.tasks[i := Connected(slot, session)])
    else s
  }

  function LockTriedBy(s: State, i: nat): State {
    if i < |s.tasks| && s.tasks[i].Connected? then
      var slot, session := s.tasks[i].slot, s.tasks[i].session;
      s.(db := WithLock(s.db, slot.key, session),
         tasks := s.tasks[i := if Grants(s.db, slot.key, session) then Granted(slot, session) else Returning(slot, session)])
    else s
  }

  /** The lock query fails, before or after the database granted it. */
  function QueryFailedBy(s: State, i: nat, granted: bool): State {
    if i < |s.tasks| && s.tasks[i].Connected? then
      var slot, session := s.tasks[i].slot, s.tasks[i].session;
      s.(db := if granted then WithLock(s.db, slot.key, session) else s.db,
         tasks := s.tasks[i := Returning(slot, session)])
    else s
  }

  function HeldBy(s: State, i: nat): State {
    if i < |s.tasks| && s.tasks[i].Granted? then
      var slot := s.tasks[i].slot;
      s.(held := s.held[slot := s.tasks[i].session], tasks := s.tasks[i := Running(slot)])
    else s
  }

  /** The body is over: `release` takes the session out of the map before it unlocks. */
  function ReleasedBy(s: State, i: nat): State {
    if i < |s.tasks| && s.tasks[i].Running? then
      var slot := s.tasks[i].slot;
      if slot in s.held
      then s.(held := s.held - {slot}, tasks := s.tasks[i := Unlocking(slot, s.held[slot])])
      else s.(tasks := s.tasks[i := Finished])
    else s
  }

  function UnlockedBy(s: State, i: nat, works: bool): State {
    if i < |s.tasks| && s.tasks[i].Unlocking? then
      var slot, session := s.tasks[i].slot, s.tasks[i].session;
      s.(db := if works then WithoutLock(s.db, slot.key, session) else s.db,
         tasks := s.tasks[i := Returning(slot, session)])
    else s
  }

  function GivenBackBy(s: State, i: nat): State {
    if i < |s.tasks| && s.tasks[i].Returning?
    then s.(db := Returned(s.db, s.tasks[i].session), tasks := s.tasks[i := Finished])
    else s
  }

  /** The pool closes a session that lies idle in it. */
  function EvictedBy(s: State, session: Session): State {
    if session in s.db.idle then s.(db := WithoutSessions(s.db, {session})) else s
  }

  function Surviving(t: Task, r: Replica): Task {
    if !t.Finished? && t.slot.replica == r then Finished else t
  }

  function Crashed(s: State, r: Replica): State {
    State(WithoutSessions(s.db, SessionsOf(s.db, r)),
          map slot | slot in s.held && slot.replica != r :: s.held[slot],
          seq(|s.tasks|, i requires 0 <= i < |s.tasks| => Surviving(s.tasks[i], r)))
  }

  function Next(s: State, step: Step): State {
    match step
    case Check(slot) => CheckedBy(s, slot)
    case Connect(i, session) => ConnectedBy(s, i, session)
    case TryLock(i) => LockTriedBy(s, i)
    case QueryFails(i, granted) => QueryFailedBy(s, i, granted)
    case Hold(i) => HeldBy(s, i)
    case Release(i) => ReleasedBy(s, i)
    case Unlock(i, works) => UnlockedBy(s, i, works)
    case GiveBack(i) => GivenBackBy(s, i)
    case Evict(session) => EvictedBy(s, session)
    case Crash(r) => Crashed(s, r)
  }

  function Run(s: State, steps: seq<Step>): State
    decreases |steps|
  {
    if |steps| == 0 then s else Run(Next(s, steps[0]), steps[1..])
  }

  // The invariant.

  predicate InFlight(t: Task) {
    t.Connected? || t.Granted? || t.Unlocking? || t.Returning?
  }

  /** A session in use: alive, of the replica that uses it, and in no pool. */
  predicate InUse(db: Server, r: Replica, s: Session) {
    s < |db.home| && db.home[s] == r && s !in db.idle && s !in db.dead
  }

  predicate Owns(db: Server, k: Key, s: Session) {
    k in db.locks && db.locks[k].owner == s
  }

  predicate GoodTask(s: State, t: Task) {
    && (InFlight(t) ==> InUse(s.db, t.slot.replica, t.session))
    && (t.Granted? || t.Unlocking? ==> Owns(s.db, t.slot.key, t.session))
    && (t.Running? ==> t.slot in s.held)
  }

  predicate GoodSlot(s: State, slot: Slot) {
    slot in s.held ==> InUse(s.db, slot.replica, s.held[slot]) && Owns(s.db, slot.key, s.held[slot])
  }

  /** No two tasks use one session or run one slot. */
  predicate Apart(a: Task, b: Task) {
    && (InFlight(a) && InFlight(b) ==> a.session != b.session)
    && (a.Running? && b.Running? ==> a.slot != b.slot)
  }

  predicate ApartFromHeld(s: State, t: Task, slot: Slot) {
    slot in s.held && InFlight(t) ==> t.session != s.held[slot]
  }

  predicate HeldApart(s: State, a: Slot, b: Slot) {
    a in s.held && b in s.held && a != b ==> s.held[a] != s.held[b]
  }

  ghost predicate Inv(s: State) {
    && (forall i :: 0 <= i < |s.tasks| ==> GoodTask(s, s.tasks[i]))
    && (forall slot :: GoodSlot(s, slot))
    && (forall i, j :: 0 <= i < j < |s.tasks| ==> Apart(s.tasks[i], s.tasks[j]))
    && (forall i, slot :: 0 <= i < |s.tasks| ==> ApartFromHeld(s, s.tasks[i], slot))
    && (forall a, b :: HeldApart(s, a, b))
    && GoodPools(s.db)
  }

  predicate GoodPools(db: Server) {
    && (forall x :: x in db.idle ==> x < |db.home| && x !in db.dead)
    && (forall x :: x in db.dead ==> x < |db.home|)
    && forall k :: k in db.locks ==>
         db.locks[k].count >= 1 && db.locks[k].owner < |db.home| && db.locks[k].owner !in db.dead
  }

  lemma StepKeepsInv(s: State, step: Step)
    requires Inv(s)
    ensures Inv(Next(s, step))
  {
    match step
    case Check(slot) => CheckKeepsInv(s, slot);
    case Connect(i, session) => ConnectKeepsInv(s, i, session);
    case TryLock(i) => TryLockKeepsInv(s, i);
    case QueryFails(i, granted) => QueryFailsKeepsInv(s, i, granted);
    case Hold(i) => HoldKeepsInv(s, i);
    case Release(i) => ReleaseKeepsInv(s, i);
    case Unlock(i, works) => UnlockKeepsInv(s, i, works);
    case GiveBack(i) => GiveBackKeepsInv(s, i);
    case Evict(session) => EvictKeepsInv(s, session);
    case Crash(r) => CrashKeepsInv(s, r);
  }

  lemma CheckKeepsInv(s: State, slot: Slot)
    requires Inv(s)
    ensures Inv(CheckedBy(s, slot))
  {
    var t := CheckedBy(s, slot);
    assert forall x :: GoodSlot(s, x) ==> GoodSlot(t, x);
    assert forall a, b :: HeldApart(s, a, b) ==> HeldApart(t, a, b);
    forall i, x | 0 <= i < |t.tasks| ensures ApartFromHeld(t, t.tasks[i], x) {
      assert i < |s.tasks| ==> ApartFromHeld(s, s.tasks[i], x);
    }
  }

  /** A step of one task: what must hold of it and of the others in the new state. */
  lemma OneTaskMoves(s: State, t: State, i: nat)
    requires Inv(s) && i < |s.tasks| && |t.tasks| == |s.tasks| && t.tasks == s.tasks[i := t.tasks[i]]
    requires GoodTask(t, t.tasks[i])
    requires forall j :: 0 <= j < |s.tasks| && j != i ==> GoodTask(t, s.tasks[j]) && Apart(t.tasks[i], s.tasks[j])
    requires forall slot :: GoodSlot(t, slot)
    requires forall j, slot :: 0 <= j < |t.tasks| ==> ApartFromHeld(t, t.tasks[j], slot)
    requires forall a, b :: HeldApart(t, a, b)
    requires GoodPools(t.db)
    ensures Inv(t)
  {
    forall a, b | 0 <= a < b < |t.tasks| ensures Apart(t.tasks[a], t.tasks[b]) {
      if a != i && b != i {
        assert Apart(s.tasks[a], s.tasks[b]);
      } else if b == i {
        assert Apart(t.tasks[i], s.tasks[a]);
      }
    }
  }

  /** What happens to one session leaves another as it was. */
  predicate Undisturbed(db: Server, after: Server, x: Session) {
    && (x < |db.home| ==> x < |after.home| && after.home[x] == db.home[x])
    && (x in db.idle <==> x in after.idle) && (x in db.dead <==> x in after.dead)
    && forall k :: k in db.locks && db.locks[k].owner == x ==> Owns(after, k, x)
  }

  predicate UsedElsewhere(s: State, i: nat, x: Session) {
    || (exists j :: 0 <= j < |s.tasks| && j != i && InFlight(s.tasks[j]) && s.tasks[j].session == x)
    || (exists slot :: slot in s.held && s.held[slot] == x)
  }

  /** A task that is not running moves on with session `x`, which nobody else uses, and the map stays. */
  lemma SessionMoves(s: State, t: State, i: nat, x: Session)
    requires Inv(s) && i < |s.tasks| && |t.tasks| == |s.tasks| && t.tasks == s.tasks[i := t.tasks[i]] && t.held == s.held
    requires !t.tasks[i].Running? && !UsedElsewhere(s, i, x)
    requires forall y :: y != x ==> Undisturbed(s.db, t.db, y)
    requires GoodTask(t, t.tasks[i]) && (InFlight(t.tasks[i]) ==> t.tasks[i].session == x)
    requires GoodPools(t.db)
    ensures Inv(t)
  {
    forall j | 0 <= j < |s.tasks| && j != i ensures GoodTask(t, s.tasks[j]) && Apart(t.tasks[i], s.tasks[j]) {
      assert GoodTask(s, s.tasks[j]);
      if InFlight(s.tasks[j]) {
        assert Undisturbed(s.db, t.db, s.tasks[j].session);
      }
    }
    forall slot ensures GoodSlot(t, slot) {
      assert GoodSlot(s, slot);
      if slot in s.held {
        assert Undisturbed(s.db, t.db, s.held[slot]);
      }
    }
    forall j, slot | 0 <= j < |t.tasks| ensures ApartFromHeld(t, t.tasks[j], slot) {
      assert ApartFromHeld(s, s.tasks[j], slot);
    }
    forall a, b ensures HeldApart(t, a, b) {
      assert HeldApart(s, a, b);
    }
    OneTaskMoves(s, t, i);
  }

  /** The session of a task in flight is used by nobody else. */
  lemma OwnSession(s: State, i: nat)
    requires Inv(s) && i < |s.tasks| && InFlight(s.tasks[i])
    ensures !UsedElsewhere(s, i, s.tasks[i].session)
  {
    forall j | 0 <= j < |s.tasks| && j != i && InFlight(s.tasks[j]) ensures s.tasks[j].session != s.tasks[i].session {
      assert Apart(s.tasks[if i < j then i else j], s.tasks[if i < j then j else i]);
    }
    forall slot | slot in s.held ensures s.held[slot] != s.tasks[i].session {
      assert ApartFromHeld(s, s.tasks[i], slot);
    }
  }

  lemma ConnectKeepsInv(s: State, i: nat, session: Session)
    requires Inv(s)
    ensures Inv(ConnectedBy(s, i, session))
  {
    if i < |s.tasks| && s.tasks[i].Checked? && CanConnect(s.db, s.tasks[i].slot.replica, session) {
      forall j | 0 <= j < |s.tasks| && InFlight(s.tasks[j]) ensures s.tasks[j].session != session {
        assert GoodTask(s, s.tasks[j]);
      }
      forall slot | slot in s.held ensures s.held[slot] != session {
        assert GoodSlot(s, slot);
      }
      SessionMoves(s, ConnectedBy(s, i, session), i, session);
    }
  }

  lemma TryLockKeepsInv(s: State, i: nat)
    requires Inv(s)
    ensures Inv(LockTriedBy(s, i))
  {
    if i < |s.tasks| && s.tasks[i].Connected? {
      OwnSession(s, i);
      assert GoodTask(s, s.tasks[i]);
      SessionMoves(s, LockTriedBy(s, i), i, s.tasks[i].session);
    }
  }

  lemma QueryFailsKeepsInv(s: State, i: nat, granted: bool)
    requires Inv(s)
    ensures Inv(QueryFailedBy(s, i, granted))
  {
    if i < |s.tasks| && s.tasks[i].Connected? {
      OwnSession(s, i);
      assert GoodTask(s, s.tasks[i]);
      SessionMoves(s, QueryFailedBy(s, i, granted), i, s.tasks[i].session);
    }
  }

  lemma UnlockKeepsInv(s: State, i: nat, works: bool)
    requires Inv(s)
    ensures Inv(UnlockedBy(s, i, works))
  {
    if i < |s.tasks| && s.tasks[i].Unlocking? {
      OwnSession(s, i);
      assert GoodTask(s, s.tasks[i]);
      SessionMoves(s, UnlockedBy(s, i, works), i, s.tasks[i].session);
    }
  }

  lemma GiveBackKeepsInv(s: State, i: nat)
    requires Inv(s)
    ensures Inv(GivenBackBy(s, i))
  {
    if i < |s.tasks| && s.tasks[i].Returning? {
      OwnSession(s, i);
      assert GoodTask(s, s.tasks[i]);
      SessionMoves(s, GivenBackBy(s, i), i, s.tasks[i].session);
    }
  }

  /** Whoever has been granted the lock owns it, so no other slot of that key is held. */
  lemma GrantedIsAlone(s: State, i: nat, slot: Slot)
    requires Inv(s) && i < |s.tasks| && s.tasks[i].Granted? && slot.key == s.tasks[i].slot.key
    ensures slot !in s.held
  {
    assert GoodTask(s, s.tasks[i]) && GoodSlot(s, slot) && ApartFromHeld(s, s.tasks[i], slot);
  }

  lemma HoldKeepsInv(s: State, i: nat)
    requires Inv(s)
    ensures Inv(HeldBy(s, i))
  {
    if i < |s.tasks| && s.tasks[i].Granted? {
      var t := HeldBy(s, i);
      var mine, x := s.tasks[i].slot, s.tasks[i].session;
      OwnSession(s, i);
      GrantedIsAlone(s, i, mine);
      assert GoodTask(s, s.tasks[i]);
      forall j | 0 <= j < |s.tasks| && j != i ensures GoodTask(t, s.tasks[j]) && Apart(t.tasks[i], s.tasks[j]) {
        assert GoodTask(s, s.tasks[j]);
      }
      forall slot ensures GoodSlot(t, slot) {
        assert GoodSlot(s, slot);
      }
      forall j, slot | 0 <= j < |t.tasks| ensures ApartFromHeld(t, t.tasks[j], slot) {
        assert ApartFromHeld(s, s.tasks[j], slot);
      }
      forall a, b ensures HeldApart(t, a, b) {
        assert HeldApart(s, a, b);
      }
      OneTaskMoves(s, t, i);
    }
  }

  lemma ReleaseKeepsInv(s: State, i: nat)
    requires Inv(s)
    ensures Inv(ReleasedBy(s, i))
  {
    if i < |s.tasks| && s.tasks[i].Running? {
      var t := ReleasedBy(s, i);
      var mine := s.tasks[i].slot;
      assert GoodTask(s, s.tasks[i]) && GoodSlot(s, mine);
      forall j | 0 <= j < |s.tasks| && j != i ensures GoodTask(t, s.tasks[j]) && Apart(t.tasks[i], s.tasks[j]) {
        assert GoodTask(s, s.tasks[j]) && ApartFromHeld(s, s.tasks[j], mine);
        assert Apart(s.tasks[if i < j then i else j], s.tasks[if i < j then j else i]);
      }
      forall slot ensures GoodSlot(t, slot) {
        assert GoodSlot(s, slot);
      }
      forall j, slot | 0 <= j < |t.tasks| ensures ApartFromHeld(t, t.tasks[j], slot) {
        assert ApartFromHeld(s, s.tasks[j], slot) && HeldApart(s, mine, slot);
      }
      forall a, b ensures HeldApart(t, a, b) {
        assert HeldApart(s, a, b);
      }
      OneTaskMoves(s, t, i);
    }
  }

  lemma EvictKeepsInv(s: State, session: Session)
    requires Inv(s)
    ensures Inv(EvictedBy(s, session))
  {
    var t := EvictedBy(s, session);
    forall slot ensures GoodSlot(t, slot) {
      assert GoodSlot(s, slot);
    }
    forall i | 0 <= i < |t.tasks| ensures GoodTask(t, t.tasks[i]) {
      assert GoodTask(s, s.tasks[i]);
    }
    forall i, slot | 0 <= i < |t.tasks| ensures ApartFromHeld(t, t.tasks[i], slot) {
      assert ApartFromHeld(s, s.tasks[i], slot);
    }
    forall a, b ensures HeldApart(t, a, b) {
      assert HeldApart(s, a, b);
    }
  }

  lemma CrashKeepsInv(s: State, r: Replica)
    requires Inv(s)
    ensures Inv(Crashed(s, r))
  {
    var t := Crashed(s, r);
    forall slot ensures GoodSlot(t, slot) {
      assert GoodSlot(s, slot);
    }
    forall i | 0 <= i < |t.tasks| ensures GoodTask(t, t.tasks[i]) {
      assert GoodTask(s, s.tasks[i]);
    }
    forall i, j | 0 <= i < j < |t.tasks| ensures Apart(t.tasks[i], t.tasks[j]) {
      assert Apart(s.tasks[i], s.tasks[j]);
    }
    forall i, slot | 0 <= i < |t.tasks| ensures ApartFromHeld(t, t.tasks[i], slot) {
      assert ApartFromHeld(s, s.tasks[i], slot);
    }
    forall a, b ensures HeldApart(t, a, b) {
      assert HeldApart(s, a, b);
    }
  }

  lemma {:induction false} RunKeepsInv(s: State, steps: seq<Step>)
    requires Inv(s)
    ensures Inv(Run(s, steps))
    decreases |steps|
  {
    if |steps| > 0 {
      StepKeepsInv(s, steps[0]);
      RunKeepsInv(Next(s, steps[0]), steps[1..]);
    }
  }

  /** Two running bodies under one key would both own the lock of that key, each through its own session. */
  lemma OneRunner(s: State, i: nat, j: nat)
    requires Inv(s) && i < |s.tasks| && j < |s.tasks| && s.tasks[i].Running? && s.tasks[j].Running?
    requires s.tasks[i].slot.key == s.tasks[j].slot.key
    ensures i == j
  {
    var a, b := s.tasks[i].slot, s.tasks[j].slot;
    assert GoodTask(s, s.tasks[i]) && GoodTask(s, s.tasks[j]);
    assert GoodSlot(s, a) && GoodSlot(s, b) && HeldApart(s, a, b);
    assert i < j ==> Apart(s.tasks[i], s.tasks[j]);
    assert j < i ==> Apart(s.tasks[j], s.tasks[i]);
  }

  /**
   Over every run, with failing queries, failing unlocks, evicted sessions and crashing replicas: at most one body runs under a
   key in the whole cluster, and its replica holds the session that owns the lock in the database.
   */
  lemma MutualExclusion(steps: seq<Step>, i: nat)
    requires i < |Run(START, steps).tasks| && Run(START, steps).tasks[i].Running?
    ensures var s := Run(START, steps); var slot := s.tasks[i].slot;
            && slot in s.held && InUse(s.db, slot.replica, s.held[slot]) && Owns(s.db, slot.key, s.held[slot])
            && forall j :: 0 <= j < |s.tasks| && j != i && s.tasks[j].Running? ==> s.tasks[j].slot.key != slot.key
  {
    RunKeepsInv(START, steps);
    var s := Run(START, steps);
    assert GoodTask(s, s.tasks[i]) && GoodSlot(s, s.tasks[i].slot);
    forall j | 0 <= j < |s.tasks| && j != i && s.tasks[j].Running? ensures s.tasks[j].slot.key != s.tasks[i].slot.key {
      if s.tasks[j].slot.key == s.tasks[i].slot.key {
        OneRunner(s, i, j);
      }
    }
  }

  // Every session is accounted for.

  predicate FlightOf(s: State, i: nat, x: Session) {
    i < |s.tasks| && InFlight(s.tasks[i]) && s.tasks[i].session == x
  }

  predicate HoldsFor(s: State, slot: Slot, x: Session) {
    slot in s.held && s.held[slot] == x
  }

  predicate Runs(s: State, i: nat, slot: Slot) {
    i < |s.tasks| && s.tasks[i] == Running(slot)
  }

  ghost predicate IsAccounted(s: State, x: Session) {
    || x in s.db.dead || x in s.db.idle
    || (exists i: nat :: FlightOf(s, i, x))
    || (exists slot :: HoldsFor(s, slot, x))
  }

  ghost predicate IsRun(s: State, slot: Slot) {
    exists i: nat :: Runs(s, i, slot)
  }

  ghost predicate AllAccounted(s: State) {
    && (forall x: Session :: x < |s.db.home| ==> IsAccounted(s, x))
    && (forall slot :: slot in s.held ==> IsRun(s, slot))
  }

  lemma StepAccounts(s: State, step: Step)
    requires Inv(s) && AllAccounted(s)
    ensures AllAccounted(Next(s, step))
  {
    var t := Next(s, step);
    forall x: Session | x < |t.db.home| ensures IsAccounted(t, x) {
      SessionStaysAccounted(s, step, x);
    }
    forall slot | slot in t.held ensures IsRun(t, slot) {
      SlotStaysRun(s, step, slot);
    }
  }

  lemma SessionStaysAccounted(s: State, step: Step, x: Session)
    requires Inv(s) && AllAccounted(s) && x < |Next(s, step).db.home|
    ensures IsAccounted(Next(s, step), x)
  {
    var t := Next(s, step);
    if x < |s.db.home| {
      assert IsAccounted(s, x);
      if exists i: nat :: FlightOf(s, i, x) {
        var i: nat :| FlightOf(s, i, x);
        FlightStaysAccounted(s, step, i, x);
      } else if exists slot :: HoldsFor(s, slot, x) {
        var slot :| HoldsFor(s, slot, x);
        HeldStaysAccounted(s, step, slot, x);
      } else if x in s.db.idle && step.Connect? {
        assert FlightOf(t, step.task, x) || x in t.db.idle;
      } else {
        assert x in t.db.idle || x in t.db.dead;
      }
    } else {
      assert FlightOf(t, step.task, x);
    }
  }

  lemma FlightStaysAccounted(s: State, step: Step, i: nat, x: Session)
    requires Inv(s) && FlightOf(s, i, x)
    ensures IsAccounted(Next(s, step), x)
  {
    var t := Next(s, step);
    assert GoodTask(s, s.tasks[i]);
    if step.Hold? && step.task == i && s.tasks[i].Granted? {
      assert HoldsFor(t, s.tasks[i].slot, x);
    } else {
      assert FlightOf(t, i, x) || x in t.db.idle || x in t.db.dead;
    }
  }

  lemma HeldStaysAccounted(s: State, step: Step, slot: Slot, x: Session)
    requires Inv(s) && HoldsFor(s, slot, x)
    ensures IsAccounted(Next(s, step), x)
  {
    var t := Next(s, step);
    assert GoodSlot(s, slot);
    if step.Release? && Runs(s, step.task, slot) {
      assert FlightOf(t, step.task, x);
    } else if step.Hold? && step.task < |s.tasks| && s.tasks[step.task].Granted? {
      GrantedIsAlone(s, step.task, s.tasks[step.task].slot);
      assert HoldsFor(t, slot, x);
    } else {
      assert HoldsFor(t, slot, x) || x in t.db.dead;
    }
  }

  lemma SlotStaysRun(s: State, step: Step, slot: Slot)
    requires Inv(s) && AllAccounted(s) && slot in Next(s, step).held
    ensures IsRun(Next(s, step), slot)
  {
    var t := Next(s, step);
    if slot in s.held {
      var i: nat :| Runs(s, i, slot);
      assert Runs(t, i, slot);
    } else {
      assert Runs(t, step.task, slot);
    }
  }

  lemma {:induction false} RunAccounts(s: State, steps: seq<Step>)
    requires Inv(s) && AllAccounted(s)
    ensures AllAccounted(Run(s, steps))
    decreases |steps|
  {
    if |steps| > 0 {
      StepKeepsInv(s, steps[0]);
      StepAccounts(s, steps[0]);
      RunAccounts(Next(s, steps[0]), steps[1..]);
    }
  }

  /**
   Over every run each open session is in a pool, in the hands of one task, or in one map entry whose body is
   running: never lost, never in two places. A task that gives its session back finds it in no pool.
   */
  lemma SessionsAreAccounted(steps: seq<Step>, x: Session)
    requires x < |Run(START, steps).db.home| && x !in Run(START, steps).db.dead
    ensures var s := Run(START, steps);
            && (x in s.db.idle || (exists i: nat :: FlightOf(s, i, x)) || exists slot :: HoldsFor(s, slot, x) && IsRun(s, slot))
            && (forall i: nat :: FlightOf(s, i, x) ==> x !in s.db.idle && forall slot :: !HoldsFor(s, slot, x))
            && (forall slot :: HoldsFor(s, slot, x) ==> x !in s.db.idle)
            && (forall i: nat, j: nat :: FlightOf(s, i, x) && FlightOf(s, j, x) ==> i == j)
            && (forall a, b :: HoldsFor(s, a, x) && HoldsFor(s, b, x) ==> a == b)
  {
    RunKeepsInv(START, steps);
    RunAccounts(START, steps);
    var s := Run(START, steps);
    assert IsAccounted(s, x);
    forall i: nat | FlightOf(s, i, x) ensures x !in s.db.idle && forall slot :: !HoldsFor(s, slot, x) {
      assert GoodTask(s, s.tasks[i]);
      forall slot ensures !HoldsFor(s, slot, x) {
        assert ApartFromHeld(s, s.tasks[i], slot);
      }
    }
    forall slot | HoldsFor(s, slot, x) ensures x !in s.db.idle {
      assert GoodSlot(s, slot);
    }
    forall i: nat, j: nat | FlightOf(s, i, x) && FlightOf(s, j, x) ensures i == j {
      assert i < j ==> Apart(s.tasks[i], s.tasks[j]);
      assert j < i ==> Apart(s.tasks[j], s.tasks[i]);
    }
    forall a, b | HoldsFor(s, a, x) && HoldsFor(s, b, x) ensures a == b {
      assert HeldApart(s, a, b);
    }
  }

  lemma RunTwo(s: State, a: Step, b: Step)
    ensures Run(s, [a, b]) == Next(Next(s, a), b)
  {
    assert [a, b][1..] == [b] && [b][1..] == [];
    assert Run(Next(s, a), [b]) == Run(Next(Next(s, a), b), []);
  }

  lemma {:induction false} RunAppends(s: State, a: seq<Step>, b: seq<Step>)
    ensures Run(s, a + b) == Run(Run(s, a), b)
    decreases |a|
  {
    if |a| == 0 {
      assert a + b == b;
    } else {
      assert (a + b)[1..] == a[1..] + b;
      RunAppends(Next(s, a[0]), a[1..], b);
    }
  }

  lemma RunFour(s: State, a: Step, b: Step, c: Step, d: Step)
    ensures Run(s, [a, b, c, d]) == Next(Next(Next(Next(s, a), b), c), d)
  {
    RunTwo(s, a, b);
    RunTwo(Next(Next(s, a), b), c, d);
    RunAppends(s, [a, b], [c, d]);
    assert [a, b] + [c, d] == [a, b, c, d];
  }

  class Database {
    var server: Server

    constructor ()
      ensures server == START.db
    {
      server := START.db;
    }
  }

  /** How the lock query goes. */
  datatype Query = Answered | FailedBefore | FailedAfter

  /** `tryAcquire` of one task, by what the query does. */
  function AcquireSteps(i: nat, slot: Slot, session: Session, query: Query, granted: bool): seq<Step> {
    match query
    case Answered => [Check(slot), Connect(i, session), TryLock(i), if granted then Hold(i) else GiveBack(i)]
    case FailedBefore => [Check(slot), Connect(i, session), QueryFails(i, false), GiveBack(i)]
    case FailedAfter => [Check(slot), Connect(i, session), QueryFails(i, true), GiveBack(i)]
  }

  /** The database after a call that connected through `session`. */
  function AcquiredServer(db: Server, r: Replica, k: Key, session: Session, query: Query): Server {
    var connected := WithConnection(db, r, session);
    match query
    case FailedBefore => Returned(connected, session)
    case FailedAfter => Returned(WithLock(connected, k, session), session)
    case Answered => if Grants(db, k, session) then WithLock(connected, k, session) else Returned(connected, session)
  }

  function ReleasedServer(db: Server, k: Key, session: Session, works: bool): Server {
    Returned(if works then WithoutLock(db, k, session) else db, session)
  }

  /** A lock that was free is free again after an acquire and a release whose unlock works. */
  lemma AcquireThenRelease(db: Server, r: Replica, k: Key, session: Session)
    requires k !in db.locks
    ensures ReleasedServer(AcquiredServer(db, r, k, session, Answered), k, session, true).locks == db.locks
  {
  }

  /** The steps of a call with nothing in between come to what the method says. */
  lemma AcquireRun(s: State, slot: Slot, session: Session, query: Query)
    requires slot !in s.held && CanConnect(s.db, slot.replica, session)
    ensures var granted := query == Answered && Grants(s.db, slot.key, session);
            Run(s, AcquireSteps(|s.tasks|, slot, session, query, granted))
            == State(AcquiredServer(s.db, slot.replica, slot.key, session, query),
                     if granted then s.held[slot := session] else s.held,
                     s.tasks + [if granted then Running(slot) else Finished])
  {
    var i, granted := |s.tasks|, query == Answered && Grants(s.db, slot.key, session);
    var third := if query == Answered then TryLock(i) else QueryFails(i, query == FailedAfter);
    RunFour(s, Check(slot), Connect(i, session), third, if granted then Hold(i) else GiveBack(i));
    ConnectRun(s, slot, session);
    AskRun(s, slot, session, query);
  }

  lemma ConnectRun(s: State, slot: Slot, session: Session)
    requires slot !in s.held && CanConnect(s.db, slot.replica, session)
    ensures Next(Next(s, Check(slot)), Connect(|s.tasks|, session))
            == State(WithConnection(s.db, slot.replica, session), s.held, s.tasks + [Connected(slot, session)])
  {
  }

  lemma AskRun(s: State, slot: Slot, session: Session, query: Query)
    requires CanConnect(s.db, slot.replica, session)
    ensures var connected := State(WithConnection(s.db, slot.replica, session), s.held, s.tasks + [Connected(slot, session)]);
            var granted := query == Answered && Grants(s.db, slot.key, session);
            var i := |s.tasks|;
            var asked := Next(connected, if query == Answered then TryLock(i) else QueryFails(i, query == FailedAfter));
            Next(asked, if granted then Hold(i) else GiveBack(i))
            == State(AcquiredServer(s.db, slot.replica, slot.key, session, query),
                     if granted then s.held[slot := session] else s.held,
                     s.tasks + [if granted then Running(slot) else Finished])
  {
    var i, db := |s.tasks|, WithConnection(s.db, slot.replica, session);
    var before := s.tasks + [Connected(slot, session)];
    assert before[i := Granted(slot, session)][i := Running(slot)] == s.tasks + [Running(slot)];
    assert before[i := Returning(slot, session)][i := Finished] == s.tasks + [Finished];
  }

  lemma ReleaseRun(s: State, i: nat, works: bool)
    requires i < |s.tasks| && s.tasks[i].Running? && s.tasks[i].slot in s.held
    ensures var slot := s.tasks[i].slot;
            Run(s, [Release(i), Unlock(i, works)] + [GiveBack(i)])
            == State(ReleasedServer(s.db, slot.key, s.held[slot], works), s.held - {slot}, s.tasks[i := Finished])
  {
    RunAppends(s, [Release(i), Unlock(i, works)], [GiveBack(i)]);
    RunTwo(s, Release(i), Unlock(i, works));
    RunOne(UnlockedBy(ReleasedBy(s, i), i, works), GiveBack(i));
    GiveUpRun(s, i, works);
  }

  lemma RunOne(s: State, a: Step)
    ensures Run(s, [a]) == Next(s, a)
  {
    assert [a][1..] == [];
    assert Run(Next(s, a), []) == Next(s, a);
  }

  lemma GiveUpRun(s: State, i: nat, works: bool)
    requires i < |s.tasks| && s.tasks[i].Running? && s.tasks[i].slot in s.held
    ensures var slot := s.tasks[i].slot;
            GivenBackBy(UnlockedBy(ReleasedBy(s, i), i, works), i)
            == State(ReleasedServer(s.db, slot.key, s.held[slot], works), s.held - {slot}, s.tasks[i := Finished])
  {
  }

  class PostgresSyncLock {
    const replica: Replica
    const database: Database
    var held: map<Key, Session>

    constructor (replica: Replica, database: Database)
      ensures this.replica == replica && this.database == database && held == map[]
    {
      this.replica, this.database := replica, database;
      held := map[];
    }

    /**
     `session` is the one the runner connects with. The call answers true exactly when the map had no entry
     and the database granted the lock; otherwise the session is back in its pool and the map is as it was.
     */
    method TryAcquire(key: Key, session: Session, query: Query) returns (r: Result<bool, ()>)
      requires CanConnect(database.server, replica, session)
      modifies `held, database
      ensures r.Failure? <==> key !in old(held) && query != Answered
      ensures r == Success(true) <==> key !in old(held) && query == Answered && Grants(old(database.server), key, session)
      ensures held == if r == Success(true) then old(held)[key := session] else old(held)
      ensures database.server == if key in old(held) then old(database.server)
                                 else AcquiredServer(old(database.server), replica, key, session, query)
    {
      if key in held {
        return Success(false);
      }
      r := Ask(key, session, query);
      if r == Success(true) {
        held := held[key := session];
      }
    }

    /** The part of `tryAcquire` that talks to the database. */
    method Ask(key: Key, session: Session, query: Query) returns (r: Result<bool, ()>)
      modifies database
      ensures database.server == AcquiredServer(old(database.server), replica, key, session, query)
      ensures r == if query != Answered then Failure(()) else Success(Grants(old(database.server), key, session))
    {
      database.server := WithConnection(database.server, replica, session);
      if query != Answered {
        if query == FailedAfter {
          database.server := WithLock(database.server, key, session);
        }
        database.server := Returned(database.server, session);
        return Failure(());
      }
      var locked := Grants(database.server, key, session);
      if locked {
        database.server := WithLock(database.server, key, session);
        return Success(true);
      }
      database.server := Returned(database.server, session);
      return Success(false);
    }

    /** Whether or not the unlock works, the entry is gone and the session is back in its pool. */
    method Release(key: Key, works: bool)
      modifies `held, database
      ensures held == old(held) - {key}
      ensures database.server == if key in old(held)
                                 then ReleasedServer(old(database.server), key, old(held)[key], works)
                                 else old(database.server)
    {
      if key !in held {
        return;
      }
      var session := held[key];
      held := held - {key};
      if works {
        database.server := WithoutLock(database.server, key, session);
      }
      database.server := Returned(database.server, session);
    }
  }
}
