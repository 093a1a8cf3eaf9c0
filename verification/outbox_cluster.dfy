/**
 The outbox drained by every replica of a cluster: outbox.scheduler.ts over the lock and the drainer. Each
 send and each save is a step of its own, between any steps of other replicas and of the lock.
 */
module OutboxCluster {
  import opened Wrappers
  import opened Outbox
  import Lock = SyncLock

  const ADVISORY_LOCK_KEY := 48201002

  /**
   A drain under way, with the rows as the query read them: about to process row `at` of its batch, or done
   with its send and about to save `row`.
   */
  datatype Phase =
    | Working(ids: seq<nat>, copies: seq<Row>, at: nat)
    | Saving(ids: seq<nat>, copies: seq<Row>, at: nat, row: Row)

  /**
   `drains` are the bodies under way, by task of the lock. `sends` counts, as history, how often each row was
   handed to its channel, `lost` how many of those sends were never saved.
   */
  datatype Cluster = Cluster(
    lock: Lock.State, rows: seq<Row>, drains: map<nat, Phase>, sends: seq<nat>, lost: seq<nat>)

  const START := Cluster(Lock.START, [], map[], [], [])

  datatype Step =
    | Enqueue(channel: string, at: int)
    | Locking(step: Lock.Step)
    | StartDrain(task: nat, now: int, ids: seq<nat>)
    | Send(task: nat, channels: Channels, attempt: Attempt)
    | Save(task: nat)
    | Finish(task: nat)
    | Abort(task: nat)

  predicate MayDrain(s: Cluster, i: nat) {
    i < |s.lock.tasks| && s.lock.tasks[i].Running? && s.lock.tasks[i].slot.key == ADVISORY_LOCK_KEY
  }

  /** A body releases only once it is over, and the bodies of a crashing replica are aborted first. */
  predicate LockMayStep(s: Cluster, step: Lock.Step) {
    && (step.Release? ==> step.task !in s.drains)
    && (step.Crash? ==> forall i :: i in s.drains && MayDrain(s, i) ==> s.lock.tasks[i].slot.replica != step.replica)
  }

  function Enqueued(s: Cluster, channel: string, at: int): Cluster {
    s.(rows := s.rows + [Row(channel, Pending, 0, at, None, None)], sends := s.sends + [0], lost := s.lost + [0])
  }

  function Locked(s: Cluster, step: Lock.Step): Cluster {
    if LockMayStep(s, step) then s.(lock := Lock.Next(s.lock, step)) else s
  }

  /** The rows of a batch as the query reads them. */
  function CopiesOf(rows: seq<Row>, ids: seq<nat>): (copies: seq<Row>)
    requires forall a :: 0 <= a < |ids| ==> ids[a] < |rows|
    ensures |copies| == |ids| && forall a :: 0 <= a < |ids| ==> copies[a] == rows[ids[a]]
  {
    seq(|ids|, a requires 0 <= a < |ids| => rows[ids[a]])
  }

  ghost function Started(s: Cluster, i: nat, now: int, ids: seq<nat>): Cluster {
    if MayDrain(s, i) && i !in s.drains && IsBatch(s.rows, now, ids)
    then s.(drains := s.drains[i := Working(ids, CopiesOf(s.rows, ids), 0)])
    else s
  }

  predicate IsWorking(s: Cluster, i: nat) {
    && i in s.drains && s.drains[i].Working? && s.drains[i].at < |s.drains[i].ids| == |s.drains[i].copies|
    && s.drains[i].ids[s.drains[i].at] < |s.sends|
  }

  function SentBy(s: Cluster, i: nat, channels: Channels, a: Attempt): Cluster {
    if !IsWorking(s, i) then s
    else
      var p := s.drains[i];
      var row, id := p.copies[p.at], p.ids[p.at];
      s.(sends := if MaySend(channels, row) then s.sends[id := s.sends[id] + 1] else s.sends,
         drains := s.drains[i := Saving(p.ids, p.copies, p.at, Processed(channels, row, a))])
  }

  predicate IsSaving(s: Cluster, i: nat) {
    && i in s.drains && s.drains[i].Saving? && s.drains[i].at < |s.drains[i].ids| == |s.drains[i].copies|
    && s.drains[i].ids[s.drains[i].at] < |s.rows| && s.drains[i].ids[s.drains[i].at] < |s.lost|
  }

  function SavedBy(s: Cluster, i: nat): Cluster {
    if !IsSaving(s, i) then s
    else
      var p := s.drains[i];
      s.(rows := s.rows[p.ids[p.at] := p.row], drains := s.drains[i := Working(p.ids, p.copies, p.at + 1)])
  }

  function FinishedBy(s: Cluster, i: nat): Cluster {
    if i in s.drains && s.drains[i].Working? && s.drains[i].at == |s.drains[i].ids|
    then s.(drains := s.drains - {i})
    else s
  }

  /** A query throws or the process dies: the drain ends, and a send waiting to be saved is lost. */
  function AbortedBy(s: Cluster, i: nat): Cluster {
    if i !in s.drains then s
    else if IsSaving(s, i) && s.drains[i].row.attempts != s.drains[i].copies[s.drains[i].at].attempts then
      var id := s.drains[i].ids[s.drains[i].at];
      s.(drains := s.drains - {i}, lost := s.lost[id := s.lost[id] + 1])
    else s.(drains := s.drains - {i})
  }

  ghost function Next(s: Cluster, step: Step): Cluster {
    match step
    case Enqueue(channel, at) => Enqueued(s, channel, at)
    case Locking(l) => Locked(s, l)
    case StartDrain(i, now, ids) => Started(s, i, now, ids)
    case Send(i, channels, a) => SentBy(s, i, channels, a)
    case Save(i) => SavedBy(s, i)
    case Finish(i) => FinishedBy(s, i)
    case Abort(i) => AbortedBy(s, i)
  }

  ghost function Run(s: Cluster, steps: seq<Step>): Cluster
    decreases |steps|
  {
    if |steps| == 0 then s else Run(Next(s, steps[0]), steps[1..])
  }

  // The invariant.

  /** The copies a drain has still to save are what the table holds. */
  predicate GoodPhase(rows: seq<Row>, p: Phase) {
    && |p.copies| == |p.ids| && p.at <= |p.ids| && Distinct(p.ids)
    && (forall a :: p.at <= a < |p.ids| ==> p.ids[a] < |rows| && rows[p.ids[a]] == p.copies[a] && p.copies[a].status == Pending)
    && (p.Saving? ==>
          && p.at < |p.ids| && GoodRow(p.row)
          && p.copies[p.at].attempts <= p.row.attempts <= p.copies[p.at].attempts + 1)
  }

  /** A drain has handed row `id` to its channel and not saved that yet. */
  predicate Unsaved(s: Cluster, i: nat, id: nat) {
    && i in s.drains && s.drains[i].Saving?
    && s.drains[i].at < |s.drains[i].ids| && s.drains[i].ids[s.drains[i].at] == id
    && id < |s.rows| && s.drains[i].row.attempts != s.rows[id].attempts
  }

  /** Every send is an attempt in the table, a lost one, or waiting to be saved. */
  ghost predicate Counts(s: Cluster, id: nat) {
    id < |s.rows| && |s.sends| == |s.rows| == |s.lost| ==>
      s.sends[id] == s.rows[id].attempts + s.lost[id] + if exists i: nat :: Unsaved(s, i, id) then 1 else 0
  }

  ghost predicate Inv(s: Cluster) {
    && Lock.Inv(s.lock) && AllGood(s.rows)
    && |s.sends| == |s.rows| == |s.lost|
    && (forall i :: i in s.drains ==> MayDrain(s, i) && GoodPhase(s.rows, s.drains[i]))
    && forall id: nat {:trigger Counts(s, id)} :: id < |s.rows| ==> Counts(s, id)
  }

  /** The lock lets one drain at a time run in the whole cluster. */
  lemma OneDrain(s: Cluster, i: nat, j: nat)
    requires Inv(s) && i in s.drains && j in s.drains
    ensures i == j
  {
    assert MayDrain(s, i) && MayDrain(s, j);
    Lock.OneRunner(s.lock, i, j);
  }

  lemma EnqueueKeepsInv(s: Cluster, channel: string, at: int)
    requires Inv(s)
    ensures Inv(Enqueued(s, channel, at))
  {
    var t := Enqueued(s, channel, at);
    forall i | i in t.drains ensures MayDrain(t, i) && GoodPhase(t.rows, t.drains[i]) {
      assert MayDrain(s, i) && GoodPhase(s.rows, s.drains[i]);
    }
    forall id: nat | id < |t.rows| ensures Counts(t, id) {
      forall i: nat ensures Unsaved(t, i, id) <==> Unsaved(s, i, id) {
        if i in s.drains {
          assert GoodPhase(s.rows, s.drains[i]);
        }
      }
      assert id < |s.rows| ==> Counts(s, id);
    }
  }

  lemma LockKeepsInv(s: Cluster, step: Lock.Step)
    requires Inv(s)
    ensures Inv(Locked(s, step))
  {
    if LockMayStep(s, step) {
      var t := Locked(s, step);
      Lock.StepKeepsInv(s.lock, step);
      forall i | i in t.drains ensures MayDrain(t, i) && GoodPhase(t.rows, t.drains[i]) {
        assert MayDrain(s, i) && GoodPhase(s.rows, s.drains[i]);
        StaysRunning(s, step, i);
      }
      SameCounts(s, t);
    }
  }

  lemma StaysRunning(s: Cluster, step: Lock.Step, i: nat)
    requires i in s.drains && MayDrain(s, i) && LockMayStep(s, step)
    ensures MayDrain(Locked(s, step), i)
  {
  }

  /** Counts look at the table, the counters and the drains that are saving. */
  lemma SameCounts(s: Cluster, t: Cluster)
    requires Inv(s) && t.rows == s.rows && t.sends == s.sends && t.lost == s.lost
    requires forall i: nat, id: nat :: Unsaved(t, i, id) <==> Unsaved(s, i, id)
    ensures forall id: nat {:trigger Counts(t, id)} :: id < |t.rows| ==> Counts(t, id)
  {
    forall id: nat | id < |t.rows| ensures Counts(t, id) {
      assert Counts(s, id);
    }
  }

  lemma StartKeepsInv(s: Cluster, i: nat, now: int, ids: seq<nat>)
    requires Inv(s)
    ensures Inv(Started(s, i, now, ids))
  {
    var t := Started(s, i, now, ids);
    if t != s {
      assert forall j :: j in s.drains ==> MayDrain(s, j) && GoodPhase(s.rows, s.drains[j]);
      SameCounts(s, t);
    }
  }

  lemma SendKeepsInv(s: Cluster, i: nat, channels: Channels, a: Attempt)
    requires Inv(s)
    ensures Inv(SentBy(s, i, channels, a))
  {
    if IsWorking(s, i) {
      var t := SentBy(s, i, channels, a);
      var p := s.drains[i];
      var at := p.ids[p.at];
      assert GoodPhase(s.rows, p) && GoodRow(s.rows[at]);
      ProcessedRow(channels, p.copies[p.at], a);
      forall j | j in t.drains ensures MayDrain(t, j) && GoodPhase(t.rows, t.drains[j]) {
        assert MayDrain(s, j) && GoodPhase(s.rows, s.drains[j]);
      }
      forall id: nat | id < |t.rows| ensures Counts(t, id) {
        SendCounts(s, i, channels, a, id);
      }
    }
  }

  lemma SendCounts(s: Cluster, i: nat, channels: Channels, a: Attempt, id: nat)
    requires Inv(s) && IsWorking(s, i) && id < |s.rows|
    ensures Counts(SentBy(s, i, channels, a), id)
  {
    assert Counts(s, id) && GoodPhase(s.rows, s.drains[i]);
    OnlyThisDrain(s, s, i, id);
    OnlyThisDrain(s, SentBy(s, i, channels, a), i, id);
  }

  lemma OnlyThisDrain(s: Cluster, t: Cluster, i: nat, id: nat)
    requires Inv(s) && i in s.drains && t.drains.Keys <= s.drains.Keys
    ensures (exists j: nat :: Unsaved(t, j, id)) <==> Unsaved(t, i, id)
  {
    forall j: nat | Unsaved(t, j, id) ensures j == i {
      OneDrain(s, i, j);
    }
  }

  lemma SaveKeepsInv(s: Cluster, i: nat)
    requires Inv(s)
    ensures Inv(SavedBy(s, i))
  {
    if IsSaving(s, i) {
      var t := SavedBy(s, i);
      var p := s.drains[i];
      assert GoodPhase(s.rows, p);
      forall j | j in t.drains ensures MayDrain(t, j) && GoodPhase(t.rows, t.drains[j]) {
        assert MayDrain(s, j);
        OneDrain(s, i, j);
      }
      forall id: nat | id < |t.rows| ensures Counts(t, id) {
        SaveCounts(s, i, id);
      }
    }
  }

  lemma SaveCounts(s: Cluster, i: nat, id: nat)
    requires Inv(s) && IsSaving(s, i) && id < |s.rows|
    ensures Counts(SavedBy(s, i), id)
  {
    assert Counts(s, id) && GoodPhase(s.rows, s.drains[i]);
    OnlyThisDrain(s, s, i, id);
    OnlyThisDrain(s, SavedBy(s, i), i, id);
  }

  lemma EndKeepsInv(s: Cluster, i: nat)
    requires Inv(s)
    ensures Inv(FinishedBy(s, i)) && Inv(AbortedBy(s, i))
  {
    if i in s.drains {
      assert GoodPhase(s.rows, s.drains[i]);
      EndedDrain(s, FinishedBy(s, i), i);
      EndedDrain(s, AbortedBy(s, i), i);
    }
  }

  lemma EndedDrain(s: Cluster, t: Cluster, i: nat)
    requires Inv(s) && i in s.drains && (t == FinishedBy(s, i) || t == AbortedBy(s, i))
    ensures Inv(t)
  {
    assert GoodPhase(s.rows, s.drains[i]);
    forall j | j in t.drains ensures MayDrain(t, j) && GoodPhase(t.rows, t.drains[j]) {
      assert MayDrain(s, j) && GoodPhase(s.rows, s.drains[j]);
    }
    forall id: nat | id < |t.rows| ensures Counts(t, id) {
      EndCounts(s, t, i, id);
    }
  }

  lemma EndCounts(s: Cluster, t: Cluster, i: nat, id: nat)
    requires Inv(s) && i in s.drains && (t == FinishedBy(s, i) || t == AbortedBy(s, i)) && id < |s.rows|
    ensures Counts(t, id)
  {
    assert Counts(s, id) && GoodPhase(s.rows, s.drains[i]);
    OnlyThisDrain(s, s, i, id);
    OnlyThisDrain(s, t, i, id);
  }

  lemma StepKeepsInv(s: Cluster, step: Step)
    requires Inv(s)
    ensures Inv(Next(s, step))
  {
    match step
    case Enqueue(channel, at) => EnqueueKeepsInv(s, channel, at);
    case Locking(l) => LockKeepsInv(s, l);
    case StartDrain(i, now, ids) => StartKeepsInv(s, i, now, ids);
    case Send(i, channels, a) => SendKeepsInv(s, i, channels, a);
    case Save(i) => SaveKeepsInv(s, i);
    case Finish(i) => EndKeepsInv(s, i);
    case Abort(i) => EndKeepsInv(s, i);
  }

  lemma {:induction false} RunKeepsInv(s: Cluster, steps: seq<Step>)
    requires Inv(s)
    ensures Inv(Run(s, steps))
    decreases |steps|
  {
    if |steps| > 0 {
      StepKeepsInv(s, steps[0]);
      RunKeepsInv(Next(s, steps[0]), steps[1..]);
    }
  }

  /**
   Any number of replicas, over every run: at most one drain is under way, and a delivery is handed to its
   channel at most five times, not counting the sends whose save was lost to a crash or an error.
   */
  lemma FiveSendsAtMost(steps: seq<Step>, id: nat)
    requires id < |Run(START, steps).rows|
    ensures var s := Run(START, steps);
            && |s.sends| == |s.rows| == |s.lost|
            && s.sends[id] <= OUTBOX_MAX_ATTEMPTS + s.lost[id]
            && forall i, j :: i in s.drains && j in s.drains ==> i == j
  {
    RunKeepsInv(START, steps);
    var s := Run(START, steps);
    assert Counts(s, id) && GoodRow(s.rows[id]);
    if exists i: nat :: Unsaved(s, i, id) {
      var i: nat :| Unsaved(s, i, id);
      assert GoodPhase(s.rows, s.drains[i]);
    }
    forall i, j | i in s.drains && j in s.drains ensures i == j {
      OneDrain(s, i, j);
    }
  }

  predicate IsClean(step: Step) {
    !step.Abort?
  }

  /** Without crashes and failed saves nothing is lost. */
  lemma {:induction false} CleanRunsLoseNothing(s: Cluster, steps: seq<Step>)
    requires forall i :: 0 <= i < |steps| ==> IsClean(steps[i])
    requires forall i :: 0 <= i < |s.lost| ==> s.lost[i] == 0
    ensures forall i :: 0 <= i < |Run(s, steps).lost| ==> Run(s, steps).lost[i] == 0
    decreases |steps|
  {
    if |steps| > 0 {
      assert IsClean(steps[0]);
      CleanRunsLoseNothing(Next(s, steps[0]), steps[1..]);
    }
  }

  lemma CleanRunsSendFiveTimes(steps: seq<Step>, id: nat)
    requires id < |Run(START, steps).rows| && forall i :: 0 <= i < |steps| ==> IsClean(steps[i])
    ensures id < |Run(START, steps).sends| && Run(START, steps).sends[id] <= OUTBOX_MAX_ATTEMPTS
  {
    FiveSendsAtMost(steps, id);
    CleanRunsLoseNothing(START, steps);
  }

  /** What the lock is for: two drains at the same row hand it over twice and record one attempt. */
  lemma TwoDrainsSendTwice(s: Cluster, i: nat, j: nat, channels: Channels, a: Attempt, b: Attempt)
    requires i != j && IsWorking(s, i) && IsWorking(s, j) && |s.sends| == |s.rows| == |s.lost|
    requires s.drains[i].ids[s.drains[i].at] == s.drains[j].ids[s.drains[j].at]
    requires var row := s.rows[s.drains[i].ids[s.drains[i].at]];
             && MaySend(channels, row)
             && s.drains[i].copies[s.drains[i].at] == row == s.drains[j].copies[s.drains[j].at]
    ensures var id := s.drains[i].ids[s.drains[i].at];
            var t := SavedBy(SavedBy(SentBy(SentBy(s, i, channels, a), j, channels, b), i), j);
            t.sends[id] == s.sends[id] + 2 && t.rows[id].attempts == s.rows[id].attempts + 1
  {
  }

  // A tick left alone.

  lemma {:induction false} RunAppends(s: Cluster, a: seq<Step>, b: seq<Step>)
    ensures Run(s, a + b) == Run(Run(s, a), b)
    decreases |a|
  {
    if |a| == 0 {
      assert a + b == b;
    } else {
      assert (a + b)[1..] == a[1..] + b;
      RunAppends(Next(s, a[0]), a[1..], b);
    }
  }

  lemma RunOne(s: Cluster, step: Step)
    ensures Run(s, [step]) == Next(s, step)
  {
    assert [step][1..] == [];
  }

  function Locks(steps: seq<Lock.Step>): seq<Step> {
    if |steps| == 0 then [] else [Locking(steps[0])] + Locks(steps[1..])
  }

  /** Steps of the lock that crash nobody and release no body under way are steps of the cluster. */
  lemma {:induction false} LockRun(s: Cluster, steps: seq<Lock.Step>)
    requires forall l :: l in steps ==> !l.Crash? && (l.Release? ==> l.task !in s.drains)
    ensures Run(s, Locks(steps)) == s.(lock := Lock.Run(s.lock, steps))
    decreases |steps|
  {
    if |steps| > 0 {
      LockRun(s.(lock := Lock.Next(s.lock, steps[0])), steps[1..]);
      assert Locks(steps)[1..] == Locks(steps[1..]);
    }
  }

  /** `k` stretches of steps, one after the other. */
  function Stretches(f: nat -> seq<Step>, k: nat): seq<Step> {
    if k == 0 then [] else Stretches(f, k - 1) + f(k - 1)
  }

  lemma {:induction false} StretchesRun(at: nat -> Cluster, f: nat -> seq<Step>, k: nat)
    requires forall j: nat :: j < k ==> Run(at(j), f(j)) == at(j + 1)
    ensures Run(at(0), Stretches(f, k)) == at(k)
  {
    if k > 0 {
      StretchesRun(at, f, k - 1);
      RunAppends(at(0), Stretches(f, k - 1), f(k - 1));
      assert Run(at(k - 1), f(k - 1)) == at(k);
    }
  }

  /** Send and save of one row of a batch. */
  function Turn(i: nat, ids: seq<nat>, channels: Channels, attempts: Attempts, j: nat): seq<Step> {
    if j < |ids| then [Send(i, channels, attempts(ids[j])), Save(i)] else []
  }

  function Turns(i: nat, ids: seq<nat>, channels: Channels, attempts: Attempts): seq<Step> {
    Stretches((j: nat) => Turn(i, ids, channels, attempts, j), |ids|)
  }

  /** Each of the first `k` rows that may be sent is sent once. */
  function SendsAfter(rows: seq<Row>, sends: seq<nat>, ids: seq<nat>, channels: Channels, k: nat): (after: seq<nat>)
    requires k <= |ids| && |sends| == |rows| && forall a :: 0 <= a < |ids| ==> ids[a] < |rows|
    ensures |after| == |sends|
  {
    if k == 0 then sends
    else
      var before, id := SendsAfter(rows, sends, ids, channels, k - 1), ids[k - 1];
      if MaySend(channels, rows[id]) then before[id := before[id] + 1] else before
  }

  lemma {:induction false} SendsAre(rows: seq<Row>, sends: seq<nat>, ids: seq<nat>, channels: Channels, k: nat, id: nat)
    requires k <= |ids| && |sends| == |rows| && (forall a :: 0 <= a < |ids| ==> ids[a] < |rows|) && Distinct(ids) && id < |rows|
    ensures SendsAfter(rows, sends, ids, channels, k)[id]
            == sends[id] + if id in ids[..k] && MaySend(channels, rows[id]) then 1 else 0
  {
    if k > 0 {
      SendsAre(rows, sends, ids, channels, k - 1, id);
      assert id in ids[..k] <==> id in ids[..k - 1] || id == ids[k - 1];
    }
  }

  /** The first `k` rows are processed, each from what it was. */
  function RowsAfter(rows: seq<Row>, ids: seq<nat>, channels: Channels, attempts: Attempts, k: nat): (after: seq<Row>)
    requires k <= |ids| && forall a :: 0 <= a < |ids| ==> ids[a] < |rows|
    ensures |after| == |rows|
  {
    if k == 0 then rows
    else
      var id := ids[k - 1];
      RowsAfter(rows, ids, channels, attempts, k - 1)[id := Processed(channels, rows[id], attempts(id))]
  }

  lemma {:induction false} RowsAreDrained(rows: seq<Row>, ids: seq<nat>, channels: Channels, attempts: Attempts, k: nat)
    requires k <= |ids| && (forall a :: 0 <= a < |ids| ==> ids[a] < |rows|) && Distinct(ids)
    ensures RowsAfter(rows, ids, channels, attempts, k) == Drained(channels, rows, ids[..k], attempts)
  {
    if k > 0 {
      RowsAreDrained(rows, ids, channels, attempts, k - 1);
      OneMoreRow(rows, ids, channels, attempts, k);
    }
  }

  predicate IsReady(s: Cluster, ids: seq<nat>) {
    && Distinct(ids) && (forall a :: 0 <= a < |ids| ==> ids[a] < |s.rows|)
    && |s.sends| == |s.rows| == |s.lost|
  }

  /** A drain of `ids` by task `i` that stands before place `k`. */
  function Midway(s: Cluster, i: nat, ids: seq<nat>, copies: seq<Row>, k: nat, rows: seq<Row>, sends: seq<nat>): Cluster {
    s.(rows := rows, sends := sends, drains := s.drains[i := Working(ids, copies, k)])
  }

  /** Where it has led by then. */
  function Reached(
      s: Cluster, i: nat, ids: seq<nat>, copies: seq<Row>, channels: Channels, attempts: Attempts, k: nat): Cluster
  {
    if IsReady(s, ids) && k <= |ids|
    then Midway(s, i, ids, copies, k, RowsAfter(s.rows, ids, channels, attempts, k),
                SendsAfter(s.rows, s.sends, ids, channels, k))
    else s
  }

  lemma TurnIsTwoSteps(s: Cluster, i: nat, ids: seq<nat>, channels: Channels, attempts: Attempts, j: nat)
    requires j < |ids|
    ensures Run(s, Turn(i, ids, channels, attempts, j)) == SavedBy(SentBy(s, i, channels, attempts(ids[j])), i)
  {
    RunTwo(s, Send(i, channels, attempts(ids[j])), Save(i));
  }

  lemma OneTurn(
      s: Cluster, i: nat, ids: seq<nat>, copies: seq<Row>, channels: Channels, attempts: Attempts, j: nat)
    requires IsReady(s, ids) && j < |ids| == |copies| && copies[j] == s.rows[ids[j]]
    ensures Run(Reached(s, i, ids, copies, channels, attempts, j), Turn(i, ids, channels, attempts, j))
            == Reached(s, i, ids, copies, channels, attempts, j + 1)
  {
    var rows, sends := RowsAfter(s.rows, ids, channels, attempts, j), SendsAfter(s.rows, s.sends, ids, channels, j);
    TurnIsTwoSteps(Midway(s, i, ids, copies, j, rows, sends), i, ids, channels, attempts, j);
    TurnMoves(s, i, ids, copies, j + 1, rows, sends, channels, attempts(ids[j]));
  }

  /** After its turns every row of the batch is processed, and each that may be sent was sent once more. */
  lemma TurnsDrain(s: Cluster, i: nat, ids: seq<nat>, copies: seq<Row>, channels: Channels, attempts: Attempts)
    requires IsReady(s, ids) && |ids| == |copies| && forall a :: 0 <= a < |ids| ==> copies[a] == s.rows[ids[a]]
    ensures Run(Reached(s, i, ids, copies, channels, attempts, 0), Turns(i, ids, channels, attempts))
            == Reached(s, i, ids, copies, channels, attempts, |ids|)
  {
    var at := (j: nat) => Reached(s, i, ids, copies, channels, attempts, j);
    var f := (j: nat) => Turn(i, ids, channels, attempts, j);
    forall j: nat | j < |ids| ensures Run(at(j), f(j)) == at(j + 1) {
      OneTurn(s, i, ids, copies, channels, attempts, j);
    }
    StretchesRun(at, f, |ids|);
  }

  lemma RunTwo(s: Cluster, a: Step, b: Step)
    ensures Run(s, [a, b]) == Next(Next(s, a), b)
  {
    assert [a, b] == [a] + [b];
    RunAppends(s, [a], [b]);
    RunOne(s, a);
    RunOne(Next(s, a), b);
  }

  lemma OneMoreRow(rows: seq<Row>, ids: seq<nat>, channels: Channels, attempts: Attempts, k: nat)
    requires 0 < k <= |ids| && Distinct(ids) && forall a :: 0 <= a < |ids| ==> ids[a] < |rows|
    ensures var id := ids[k - 1];
            Drained(channels, rows, ids[..k], attempts)
            == Drained(channels, rows, ids[..k - 1], attempts)[id := Processed(channels, rows[id], attempts(id))]
  {
    NotYetProcessed(channels, rows, ids, attempts, k - 1);
    assert ids[..k][..k - 1] == ids[..k - 1];
  }

  /** One turn, wherever the others have led. */
  lemma TurnMoves(
      s: Cluster, i: nat, ids: seq<nat>, copies: seq<Row>, k: nat, rows: seq<Row>, sends: seq<nat>, channels: Channels, a: Attempt)
    requires 0 < k <= |ids| == |copies| && ids[k - 1] < |rows| == |sends| == |s.lost|
    ensures var id, row := ids[k - 1], copies[k - 1];
            SavedBy(SentBy(Midway(s, i, ids, copies, k - 1, rows, sends), i, channels, a), i)
            == Midway(s, i, ids, copies, k, rows[id := Processed(channels, row, a)],
                      if MaySend(channels, row) then sends[id := sends[id] + 1] else sends)
  {
    var before := Midway(s, i, ids, copies, k - 1, rows, sends);
    assert IsWorking(before, i);
    assert IsSaving(SentBy(before, i, channels, a), i);
    var saving := Saving(ids, copies, k - 1, Processed(channels, copies[k - 1], a));
    assert s.drains[i := Working(ids, copies, k - 1)][i := saving][i := Working(ids, copies, k)]
           == s.drains[i := Working(ids, copies, k)];
  }

  function DrainSteps(n: nat, now: int, ids: seq<nat>, channels: Channels, attempts: Attempts): seq<Step> {
    [StartDrain(n, now, ids)] + Turns(n, ids, channels, attempts) + [Finish(n)]
  }

  /** The steps of one tick: take the lock, drain a batch, release the lock. */
  function TickSteps(
      n: nat, slot: Lock.Slot, session: Lock.Session, now: int, ids: seq<nat>, channels: Channels, attempts: Attempts): seq<Step>
  {
    Locks(Lock.AcquireSteps(n, slot, session, Lock.Answered, true))
    + DrainSteps(n, now, ids, channels, attempts)
    + Locks([Lock.Release(n), Lock.Unlock(n, true), Lock.GiveBack(n)])
  }

  lemma RunThree(s: Cluster, a: seq<Step>, b: seq<Step>, c: seq<Step>, s1: Cluster, s2: Cluster, s3: Cluster)
    requires Run(s, a) == s1 && Run(s1, b) == s2 && Run(s2, c) == s3
    ensures Run(s, a + b + c) == s3
  {
    RunAppends(s, a + b, c);
    RunAppends(s, a, b);
  }

  ghost predicate MayStart(s: Cluster, n: nat, now: int, ids: seq<nat>) {
    MayDrain(s, n) && n !in s.drains && IsBatch(s.rows, now, ids) && |s.sends| == |s.rows| == |s.lost|
  }

  lemma StartRun(s: Cluster, n: nat, now: int, ids: seq<nat>, copies: seq<Row>, channels: Channels, attempts: Attempts)
    requires MayStart(s, n, now, ids) && IsReady(s, ids) && copies == CopiesOf(s.rows, ids)
    ensures Run(s, [StartDrain(n, now, ids)]) == Reached(s, n, ids, copies, channels, attempts, 0)
  {
    RunOne(s, StartDrain(n, now, ids));
  }

  lemma FinishRun(s: Cluster, n: nat, ids: seq<nat>, copies: seq<Row>, channels: Channels, attempts: Attempts)
    requires IsReady(s, ids) && n !in s.drains
    ensures Run(Reached(s, n, ids, copies, channels, attempts, |ids|), [Finish(n)])
            == s.(rows := RowsAfter(s.rows, ids, channels, attempts, |ids|),
                  sends := SendsAfter(s.rows, s.sends, ids, channels, |ids|))
  {
    RunOne(Reached(s, n, ids, copies, channels, attempts, |ids|), Finish(n));
    FinishMidway(s, n, ids, copies, RowsAfter(s.rows, ids, channels, attempts, |ids|),
                 SendsAfter(s.rows, s.sends, ids, channels, |ids|));
  }

  /** A drain left alone. */
  lemma DrainRun(s: Cluster, n: nat, now: int, ids: seq<nat>, channels: Channels, attempts: Attempts, end: Cluster)
    requires MayStart(s, n, now, ids) && IsReady(s, ids)
    requires end == s.(rows := RowsAfter(s.rows, ids, channels, attempts, |ids|),
                       sends := SendsAfter(s.rows, s.sends, ids, channels, |ids|))
    ensures Run(s, DrainSteps(n, now, ids, channels, attempts)) == end
  {
    var copies := CopiesOf(s.rows, ids);
    StartRun(s, n, now, ids, copies, channels, attempts);
    TurnsDrain(s, n, ids, copies, channels, attempts);
    FinishRun(s, n, ids, copies, channels, attempts);
    RunThree(s, [StartDrain(n, now, ids)], Turns(n, ids, channels, attempts), [Finish(n)],
             Reached(s, n, ids, copies, channels, attempts, 0), Reached(s, n, ids, copies, channels, attempts, |ids|), end);
  }

  lemma FinishMidway(s: Cluster, n: nat, ids: seq<nat>, copies: seq<Row>, rows: seq<Row>, sends: seq<nat>)
    requires n !in s.drains
    ensures FinishedBy(Midway(s, n, ids, copies, |ids|, rows, sends), n) == s.(rows := rows, sends := sends)
  {
    assert Midway(s, n, ids, copies, |ids|, rows, sends).drains - {n} == s.drains;
  }

  lemma AcquireInCluster(s: Cluster, slot: Lock.Slot, session: Lock.Session) returns (held: Cluster)
    requires slot !in s.lock.held && slot.key !in s.lock.db.locks && Lock.CanConnect(s.lock.db, slot.replica, session)
    ensures Run(s, Locks(Lock.AcquireSteps(|s.lock.tasks|, slot, session, Lock.Answered, true))) == held
    ensures held.(lock := s.lock) == s && held.lock.tasks == s.lock.tasks + [Lock.Running(slot)]
    ensures held.lock.held == s.lock.held[slot := session]
    ensures held.lock.db == Lock.AcquiredServer(s.lock.db, slot.replica, slot.key, session, Lock.Answered)
  {
    LockRun(s, Lock.AcquireSteps(|s.lock.tasks|, slot, session, Lock.Answered, true));
    Lock.AcquireRun(s.lock, slot, session, Lock.Answered);
    held := s.(lock := Lock.Run(s.lock, Lock.AcquireSteps(|s.lock.tasks|, slot, session, Lock.Answered, true)));
  }

  lemma ReleaseInCluster(s: Cluster, n: nat) returns (end: Cluster)
    requires n < |s.lock.tasks| && s.lock.tasks[n].Running? && s.lock.tasks[n].slot in s.lock.held && n !in s.drains
    ensures Run(s, Locks([Lock.Release(n), Lock.Unlock(n, true), Lock.GiveBack(n)])) == end
    ensures var slot := s.lock.tasks[n].slot;
            && end.(lock := s.lock) == s && end.lock.held == s.lock.held - {slot}
            && end.lock.db == Lock.ReleasedServer(s.lock.db, slot.key, s.lock.held[slot], true)
  {
    var steps := [Lock.Release(n), Lock.Unlock(n, true), Lock.GiveBack(n)];
    LockRun(s, steps);
    assert steps == [Lock.Release(n), Lock.Unlock(n, true)] + [Lock.GiveBack(n)];
    Lock.ReleaseRun(s.lock, n, true);
    end := s.(lock := Lock.Run(s.lock, steps));
  }

  /** The lock is free and its slot empty, and nothing has been counted wrongly. */
  ghost predicate MayTick(s: Cluster, slot: Lock.Slot, session: Lock.Session, now: int, ids: seq<nat>) {
    && slot.key == ADVISORY_LOCK_KEY && slot !in s.lock.held && slot.key !in s.lock.db.locks
    && Lock.CanConnect(s.lock.db, slot.replica, session) && |s.lock.tasks| !in s.drains
    && IsBatch(s.rows, now, ids) && |s.sends| == |s.rows| == |s.lost|
  }

  lemma TickUpToRelease(
      s: Cluster, slot: Lock.Slot, session: Lock.Session, now: int, ids: seq<nat>, channels: Channels, attempts: Attempts)
    returns (held: Cluster, drained: Cluster)
    requires MayTick(s, slot, session, now, ids) && IsReady(s, ids)
    ensures var n := |s.lock.tasks|;
            && Run(s, Locks(Lock.AcquireSteps(n, slot, session, Lock.Answered, true))) == held
            && Run(held, DrainSteps(n, now, ids, channels, attempts)) == drained
    ensures drained.(lock := s.lock) == s.(rows := RowsAfter(s.rows, ids, channels, attempts, |ids|),
                                           sends := SendsAfter(s.rows, s.sends, ids, channels, |ids|))
    ensures drained.lock.tasks == s.lock.tasks + [Lock.Running(slot)] && drained.lock.held == s.lock.held[slot := session]
    ensures drained.lock.db == Lock.AcquiredServer(s.lock.db, slot.replica, slot.key, session, Lock.Answered)
  {
    held := AcquireInCluster(s, slot, session);
    drained := held.(rows := RowsAfter(s.rows, ids, channels, attempts, |ids|),
                     sends := SendsAfter(s.rows, s.sends, ids, channels, |ids|));
    DrainRun(held, |s.lock.tasks|, now, ids, channels, attempts, drained);
  }

  lemma TickRun(
      s: Cluster, slot: Lock.Slot, session: Lock.Session, now: int, ids: seq<nat>, channels: Channels, attempts: Attempts)
    returns (drained: Cluster, end: Cluster)
    requires MayTick(s, slot, session, now, ids) && IsReady(s, ids)
    ensures Run(s, TickSteps(|s.lock.tasks|, slot, session, now, ids, channels, attempts)) == end
    ensures end.(lock := drained.lock) == drained
    ensures drained.(lock := s.lock) == s.(rows := RowsAfter(s.rows, ids, channels, attempts, |ids|),
                                           sends := SendsAfter(s.rows, s.sends, ids, channels, |ids|))
    ensures end.lock.held == s.lock.held[slot := session] - {slot}
    ensures end.lock.db == Lock.ReleasedServer(
              Lock.AcquiredServer(s.lock.db, slot.replica, slot.key, session, Lock.Answered), slot.key, session, true)
  {
    var n, held := |s.lock.tasks|, s;
    held, drained := TickUpToRelease(s, slot, session, now, ids, channels, attempts);
    end := ReleaseInCluster(drained, n);
    RunThree(s, Locks(Lock.AcquireSteps(n, slot, session, Lock.Answered, true)), DrainSteps(n, now, ids, channels, attempts),
             Locks([Lock.Release(n), Lock.Unlock(n, true), Lock.GiveBack(n)]), held, drained, end);
  }

  /**
   Left alone, the steps of a tick come to what `DrainOutbox` does: one batch is drained, every row of it that may be
   sent is sent once, and the lock, the map and the drains under way are as before.
   */
  lemma TickIsDrain(
      s: Cluster, slot: Lock.Slot, session: Lock.Session, now: int, ids: seq<nat>, channels: Channels, attempts: Attempts)
    requires MayTick(s, slot, session, now, ids)
    ensures var u := Run(s, TickSteps(|s.lock.tasks|, slot, session, now, ids, channels, attempts));
            && u.rows == Drained(channels, s.rows, ids, attempts)
            && |u.sends| == |s.sends| && u.lost == s.lost && u.drains == s.drains
            && (forall id :: 0 <= id < |s.sends| ==>
                  u.sends[id] == s.sends[id] + if id in ids && MaySend(channels, s.rows[id]) then 1 else 0)
            && u.lock.held == s.lock.held && u.lock.db.locks == s.lock.db.locks
  {
    var drained, end := TickRun(s, slot, session, now, ids, channels, attempts);
    Lock.AcquireThenRelease(s.lock.db, slot.replica, slot.key, session);
    assert s.lock.held[slot := session] - {slot} == s.lock.held;
    assert end.rows == drained.rows && end.sends == drained.sends;
    assert ids[..|ids|] == ids;
    RowsAreDrained(s.rows, ids, channels, attempts, |ids|);
    forall id | 0 <= id < |s.sends|
      ensures end.sends[id] == s.sends[id] + if id in ids && MaySend(channels, s.rows[id]) then 1 else 0
    {
      SendsAre(s.rows, s.sends, ids, channels, |ids|, id);
    }
  }

  /** A notification is enqueued pending, due at its time, not sent yet. */
  lemma EnqueueAdds(s: Cluster, channel: string, at: int)
    ensures var t := Next(s, Enqueue(channel, at));
            && |t.rows| == |s.rows| + 1 && t.rows[..|s.rows|] == s.rows
            && t.rows[|s.rows|].status == Pending && t.rows[|s.rows|].attempts == 0
            && t.rows[|s.rows|].channel == channel && t.rows[|s.rows|].nextAttemptAt == at
            && t.sends == s.sends + [0] && t.lost == s.lost + [0] && t.lock == s.lock && t.drains == s.drains
  {
  }

  /** A drain that is aborted ends, and a send it had not saved is lost; nothing is written. */
  lemma AbortEnds(s: Cluster, i: nat)
    requires Inv(s) && i in s.drains
    ensures var t := Next(s, Abort(i));
            && i !in t.drains && t.rows == s.rows && t.sends == s.sends && t.lock == s.lock
            && (forall j :: j in s.drains && j != i ==> j in t.drains && t.drains[j] == s.drains[j])
            && |t.lost| == |s.lost|
            && forall id: nat :: id < |s.lost| ==> t.lost[id] == s.lost[id] + if Unsaved(s, i, id) then 1 else 0
  {
    assert GoodPhase(s.rows, s.drains[i]);
  }

  /** One tick of the schedule on one replica. */
  class OutboxScheduler {
    const drainer: OutboxDrainer
    const lock: Lock.PostgresSyncLock

    constructor (drainer: OutboxDrainer, lock: Lock.PostgresSyncLock)
      ensures this.drainer == drainer && this.lock == lock
    {
      this.drainer, this.lock := drainer, lock;
    }

    /**
     Drains exactly when the lock was free for `session` and its query answered; `ids` is then the batch.
     However the drain ends, the lock is released: the map is as before, and so are the locks of the database
     if the key was free and the unlock worked.
     */
    method DrainOutbox(
        session: Lock.Session, query: Lock.Query, unlockWorks: bool, now: int, attempts: Attempts, saveFails: Option<nat>)
      returns (acquired: Result<bool, ()>, ghost ids: seq<nat>)
      requires Lock.CanConnect(lock.database.server, lock.replica, session)
      modifies drainer`rows, lock`held, lock.database
      ensures acquired == Success(true) <==>
                && ADVISORY_LOCK_KEY !in old(lock.held) && query == Lock.Answered
                && Lock.Grants(old(lock.database.server), ADVISORY_LOCK_KEY, session)
      ensures acquired != Success(true) ==> drainer.rows == old(drainer.rows)
      ensures acquired == Success(true) ==>
                && IsBatch(old(drainer.rows), now, ids)
                && drainer.rows == Drained(drainer.byName, old(drainer.rows), Saved(ids, saveFails), attempts)
      ensures lock.held == old(lock.held)
      ensures acquired == Success(true) && unlockWorks && ADVISORY_LOCK_KEY !in old(lock.database.server.locks) ==>
                lock.database.server.locks == old(lock.database.server.locks)
    {
      ids := [];
      acquired := lock.TryAcquire(ADVISORY_LOCK_KEY, session, query);
      if acquired != Success(true) {
        return;
      }
      var result;
      result, ids := drainer.Drain(now, attempts, saveFails);
      lock.Release(ADVISORY_LOCK_KEY, unlockWorks);
      if ADVISORY_LOCK_KEY !in old(lock.database.server.locks) {
        Lock.AcquireThenRelease(old(lock.database.server), lock.replica, ADVISORY_LOCK_KEY, session);
      }
    }
  }
}
