/** The outbox of notifications: backoff and `drain` of outbox-drainer.service.ts. Times are in milliseconds. */
module Outbox {
  import opened Wrappers

  const OUTBOX_BATCH_SIZE := 50
  const OUTBOX_MAX_ATTEMPTS := 5

  /** `2 ** n`. */
  function PowerOfTwo(n: nat): nat {
    if n == 0 then 1 else 2 * PowerOfTwo(n - 1)
  }

  /** `attempts - 1` doublings of a minute, sixteen minutes at most. */
  function BackoffMs(attempts: int): int {
    var doublings := if attempts - 1 > 0 then attempts - 1 else 0;
    var minutes := if PowerOfTwo(doublings) < 16 then PowerOfTwo(doublings) else 16;
    minutes * 60000
  }

  /** 1, 2, 4 and 8 minutes after the first four failures, and 16 from then on. */
  lemma BackoffLadder(attempts: int)
    ensures BackoffMs(attempts) == if attempts <= 1 then 60000 else if attempts == 2 then 120000 else if attempts == 3 then 240000
                                   else if attempts == 4 then 480000 else 960000
  {
    assert PowerOfTwo(1) == 2 && PowerOfTwo(2) == 4 && PowerOfTwo(3) == 8;
    if attempts >= 5 {
      PowersGrow(attempts - 1);
    }
  }

  lemma {:induction false} PowersGrow(n: nat)
    requires n >= 4
    ensures PowerOfTwo(n) >= 16
  {
    if n == 4 {
      assert PowerOfTwo(2) == 4;
    } else {
      PowersGrow(n - 1);
    }
  }

  datatype OutboxStatus = Pending | Sent | Failed | Skipped

  datatype Row = Row(
    channel: string, status: OutboxStatus, attempts: nat, nextAttemptAt: int, lastError: Option<string>, sentAt: Option<int>)

  /** What a channel does with one delivery: how the send ends, and the clock then. */
  datatype Attempt = Attempt(error: Option<string>, at: int)

  /** The registered channels and whether each is enabled. */
  type Channels = map<string, bool>

  predicate IsDue(row: Row, now: int) {
    row.status == Pending && row.nextAttemptAt <= now
  }

  predicate MaySend(channels: Channels, row: Row) {
    row.channel in channels && channels[row.channel]
  }

  function SkippedRow(channels: Channels, row: Row): Row {
    row.(status := Skipped,
         lastError := Some(if row.channel in channels then "channel disabled" else "unknown channel"))
  }

  /** The row after one send. */
  function Attempted(row: Row, a: Attempt): Row {
    var attempts := row.attempts + 1;
    if a.error.None? then row.(attempts := attempts, status := Sent, sentAt := Some(a.at), lastError := None)
    else if attempts >= OUTBOX_MAX_ATTEMPTS then row.(attempts := attempts, status := Failed, lastError := a.error)
    else row.(attempts := attempts, lastError := a.error, nextAttemptAt := a.at + BackoffMs(attempts))
  }

  function Processed(channels: Channels, row: Row, a: Attempt): Row {
    if MaySend(channels, row) then Attempted(row, a) else SkippedRow(channels, row)
  }

  /**
   What becomes of a row in the batch: skipped without an attempt if its channel is unknown or disabled; otherwise
   one attempt more, and sent, failed for good at the fifth, or put off by one, two, four or eight minutes.
   */
  lemma OutcomeOf(channels: Channels, row: Row, a: Attempt)
    requires row.status == Pending && row.attempts < 5
    ensures var after := Processed(channels, row, a);
            && after.channel == row.channel
            && if row.channel !in channels || !channels[row.channel] then
                 && after.status == Skipped && after.attempts == row.attempts && after.sentAt == row.sentAt
                 && after.nextAttemptAt == row.nextAttemptAt
                 && after.lastError == Some(if row.channel !in channels then "unknown channel" else "channel disabled")
               else
                 && after.attempts == row.attempts + 1
                 && if a.error == None then
                      after.status == Sent && after.sentAt == Some(a.at) && after.lastError == None && after.nextAttemptAt == row.nextAttemptAt
                    else
                      && after.sentAt == row.sentAt && after.lastError == a.error
                      && if after.attempts == 5 then after.status == Failed && after.nextAttemptAt == row.nextAttemptAt
                         else after.status == Pending
                              && after.nextAttemptAt == a.at + [60000, 120000, 240000, 480000][row.attempts]
  {
    BackoffLadder(row.attempts + 1);
  }

  // The batch. Rows of the outbox are numbered by their place in the table.

  predicate Distinct(ids: seq<nat>) {
    forall a, b :: 0 <= a < b < |ids| ==> ids[a] != ids[b]
  }

  predicate AllDue(rows: seq<Row>, now: int, ids: seq<nat>) {
    forall a :: 0 <= a < |ids| ==> ids[a] < |rows| && IsDue(rows[ids[a]], now)
  }

  predicate IsSorted(rows: seq<Row>, now: int, ids: seq<nat>)
    requires AllDue(rows, now, ids)
  {
    forall a, b :: 0 <= a < b < |ids| ==> rows[ids[a]].nextAttemptAt <= rows[ids[b]].nextAttemptAt
  }

  /** A row left out is not due, or comes no earlier than all that were taken. */
  predicate MayWait(rows: seq<Row>, now: int, ids: seq<nat>, i: nat)
    requires AllDue(rows, now, ids)
  {
    i < |rows| && IsDue(rows[i], now) && i !in ids ==>
      forall a :: 0 <= a < |ids| ==> rows[ids[a]].nextAttemptAt <= rows[i].nextAttemptAt
  }

  /** What the query returns: different due rows, earliest first, all of them or the first of a full batch. */
  ghost predicate IsBatch(rows: seq<Row>, now: int, ids: seq<nat>) {
    && |ids| <= OUTBOX_BATCH_SIZE && Distinct(ids) && AllDue(rows, now, ids) && IsSorted(rows, now, ids)
    && (forall i: nat :: MayWait(rows, now, ids, i))
    && (|ids| < OUTBOX_BATCH_SIZE ==> forall i :: 0 <= i < |rows| && IsDue(rows[i], now) ==> i in ids)
  }

  /** The earliest due row not taken yet; the query leaves open which of equals. */
  function Earliest(rows: seq<Row>, now: int, taken: seq<nat>, n: nat): (e: Option<nat>)
    requires n <= |rows|
    ensures e.Some? ==> e.value < n && IsDue(rows[e.value], now) && e.value !in taken
    ensures e.Some? ==> forall i :: 0 <= i < n && IsDue(rows[i], now) && i !in taken ==>
                          rows[e.value].nextAttemptAt <= rows[i].nextAttemptAt
    ensures e.None? ==> forall i :: 0 <= i < n && IsDue(rows[i], now) ==> i in taken
  {
    if n == 0 then None
    else
      var best := Earliest(rows, now, taken, n - 1);
      if !IsDue(rows[n - 1], now) || n - 1 in taken then best
      else if best.None? || rows[n - 1].nextAttemptAt < rows[best.value].nextAttemptAt then Some(n - 1)
      else best
  }

  /** The query: such a batch always exists, whichever of equally early rows come first. */
  method FindDue(rows: seq<Row>, now: int) returns (ids: seq<nat>)
    ensures IsBatch(rows, now, ids)
  {
    ids := [];
    while |ids| < OUTBOX_BATCH_SIZE
      invariant |ids| <= OUTBOX_BATCH_SIZE && Distinct(ids) && AllDue(rows, now, ids) && IsSorted(rows, now, ids)
      invariant forall i: nat :: MayWait(rows, now, ids, i)
    {
      var e := Earliest(rows, now, ids, |rows|);
      if e.None? {
        return;
      }
      TakeEarliest(rows, now, ids, e.value);
      ids := ids + [e.value];
    }
  }

  lemma TakeEarliest(rows: seq<Row>, now: int, ids: seq<nat>, e: nat)
    requires Distinct(ids) && AllDue(rows, now, ids) && IsSorted(rows, now, ids)
    requires forall i: nat :: MayWait(rows, now, ids, i)
    requires Earliest(rows, now, ids, |rows|) == Some(e)
    ensures Distinct(ids + [e]) && AllDue(rows, now, ids + [e]) && IsSorted(rows, now, ids + [e])
    ensures forall i: nat :: MayWait(rows, now, ids + [e], i)
  {
    assert MayWait(rows, now, ids, e);
    forall i: nat ensures MayWait(rows, now, ids + [e], i) {
      assert MayWait(rows, now, ids, i);
    }
  }

  /**
   The query in the columns of the table: the batch has different pending rows whose time has come, fifty at most, the
   earliest first; a row that waits although its time has come is no earlier than any of a full batch.
   */
  lemma BatchIs(rows: seq<Row>, now: int, ids: seq<nat>)
    requires IsBatch(rows, now, ids)
    ensures |ids| <= 50
    ensures forall a :: 0 <= a < |ids| ==>
              ids[a] < |rows| && rows[ids[a]].status == Pending && rows[ids[a]].nextAttemptAt <= now
    ensures forall a, b :: 0 <= a < b < |ids| ==> ids[a] != ids[b] && rows[ids[a]].nextAttemptAt <= rows[ids[b]].nextAttemptAt
    ensures forall i :: 0 <= i < |rows| && rows[i].status == Pending && rows[i].nextAttemptAt <= now && i !in ids ==>
              |ids| == 50 && forall a :: 0 <= a < |ids| ==> rows[ids[a]].nextAttemptAt <= rows[i].nextAttemptAt
  {
    forall a | 0 <= a < |ids| ensures ids[a] < |rows| && rows[ids[a]].status == Pending && rows[ids[a]].nextAttemptAt <= now {
      assert IsDue(rows[ids[a]], now);
    }
    forall i | 0 <= i < |rows| && rows[i].status == Pending && rows[i].nextAttemptAt <= now && i !in ids
      ensures |ids| == 50 && forall a :: 0 <= a < |ids| ==> rows[ids[a]].nextAttemptAt <= rows[i].nextAttemptAt
    {
      assert IsDue(rows[i], now) && MayWait(rows, now, ids, i);
    }
  }

  // One drain.

  /** What the channel would do with each row if it were sent now. */
  type Attempts = nat -> Attempt

  /** The table after a drain has been through `ids`. */
  function Drained(channels: Channels, rows: seq<Row>, ids: seq<nat>, attempts: Attempts): (after: seq<Row>)
    requires forall a :: 0 <= a < |ids| ==> ids[a] < |rows|
    ensures |after| == |rows|
  {
    if |ids| == 0 then rows
    else
      var id := ids[|ids| - 1];
      var before := Drained(channels, rows, ids[..|ids| - 1], attempts);
      before[id := Processed(channels, before[id], attempts(id))]
  }

  /** Rows of the batch are processed once, from what they were; the others are not touched. */
  lemma {:induction false} DrainedRow(channels: Channels, rows: seq<Row>, ids: seq<nat>, attempts: Attempts, i: nat)
    requires (forall a :: 0 <= a < |ids| ==> ids[a] < |rows|) && Distinct(ids) && i < |rows|
    ensures Drained(channels, rows, ids, attempts)[i]
            == if i in ids then Processed(channels, rows[i], attempts(i)) else rows[i]
  {
    if |ids| > 0 {
      var init, last := ids[..|ids| - 1], ids[|ids| - 1];
      DrainedRow(channels, rows, init, attempts, i);
      assert i in ids <==> i in init || i == last;
    }
  }

  datatype DrainResult = DrainResult(sent: nat, failed: nat, skipped: nat)

  /** One more row that ended in `status`; a rescheduled row is not counted. */
  function Counted(r: DrainResult, status: OutboxStatus): DrainResult {
    match status
    case Sent => r.(sent := r.sent + 1)
    case Failed => r.(failed := r.failed + 1)
    case Skipped => r.(skipped := r.skipped + 1)
    case Pending => r
  }

  function Tally(channels: Channels, rows: seq<Row>, ids: seq<nat>, attempts: Attempts): DrainResult
    requires forall a :: 0 <= a < |ids| ==> ids[a] < |rows|
  {
    if |ids| == 0 then DrainResult(0, 0, 0)
    else
      var id := ids[|ids| - 1];
      Counted(Tally(channels, rows, ids[..|ids| - 1], attempts), Processed(channels, rows[id], attempts(id)).status)
  }

  /** The places of the batch whose row ends in `status`. */
  function Ending(channels: Channels, rows: seq<Row>, ids: seq<nat>, attempts: Attempts, status: OutboxStatus): set<int>
    requires forall a :: 0 <= a < |ids| ==> ids[a] < |rows|
  {
    set a | 0 <= a < |ids| && Processed(channels, rows[ids[a]], attempts(ids[a])).status == status
  }

  /** The report counts the rows of the batch by how they ended. */
  lemma {:induction false} TallyCounts(channels: Channels, rows: seq<Row>, ids: seq<nat>, attempts: Attempts)
    requires forall a :: 0 <= a < |ids| ==> ids[a] < |rows|
    ensures var r := Tally(channels, rows, ids, attempts);
            && r.sent == |Ending(channels, rows, ids, attempts, Sent)|
            && r.failed == |Ending(channels, rows, ids, attempts, Failed)|
            && r.skipped == |Ending(channels, rows, ids, attempts, Skipped)|
  {
    if |ids| > 0 {
      var init := ids[..|ids| - 1];
      TallyCounts(channels, rows, init, attempts);
      EndingGrows(channels, rows, ids, attempts, Sent);
      EndingGrows(channels, rows, ids, attempts, Failed);
      EndingGrows(channels, rows, ids, attempts, Skipped);
    }
  }

  lemma EndingGrows(channels: Channels, rows: seq<Row>, ids: seq<nat>, attempts: Attempts, status: OutboxStatus)
    requires |ids| > 0 && forall a :: 0 <= a < |ids| ==> ids[a] < |rows|
    ensures var n := |ids| - 1;
            |Ending(channels, rows, ids, attempts, status)|
            == |Ending(channels, rows, ids[..n], attempts, status)|
               + if Processed(channels, rows[ids[n]], attempts(ids[n])).status == status then 1 else 0
  {
    var n := |ids| - 1;
    var ends := Processed(channels, rows[ids[n]], attempts(ids[n])).status == status;
    var before, after := Ending(channels, rows, ids[..n], attempts, status), Ending(channels, rows, ids, attempts, status);
    assert forall a :: a in after <==> a in before || (ends && a == n);
    assert after == before + if ends then {n} else {};
  }

  /** The part of a batch whose outcome is saved when the save at place `saveFails` is refused. */
  function Saved(ids: seq<nat>, saveFails: Option<nat>): (saved: seq<nat>)
    ensures saved <= ids
  {
    if saveFails.Some? && saveFails.value < |ids| then ids[..saveFails.value] else ids
  }

  class OutboxDrainer {
    var rows: seq<Row>
    const byName: Channels

    constructor (rows: seq<Row>, channels: Channels)
      ensures this.rows == rows && byName == channels
    {
      this.rows := rows;
      byName := channels;
    }

    /**
     One drain. `attempts` is what the channels answer, `saveFails` the place in the batch at which the
     database refuses a save, which ends the drain with that row's send unrecorded.
     */
    method Drain(now: int, attempts: Attempts, saveFails: Option<nat>) returns (r: Result<DrainResult, ()>, ghost ids: seq<nat>)
      modifies `rows
      ensures IsBatch(old(rows), now, ids)
      ensures r.Failure? <==> saveFails.Some? && saveFails.value < |ids|
      ensures rows == Drained(byName, old(rows), Saved(ids, saveFails), attempts)
      ensures r.Success? ==> r.value == Tally(byName, old(rows), ids, attempts)
    {
      var due := FindDue(rows, now);
      ids := due;
      var result := ProcessAll(due, if saveFails.Some? && saveFails.value < |due| then saveFails.value else |due|, attempts);
      if saveFails.Some? && saveFails.value < |due| {
        return Failure(()), due;
      }
      assert due[..|due|] == due;
      return Success(result), due;
    }

    /** The loop over the batch, up to the row whose save fails. */
    method ProcessAll(due: seq<nat>, stop: nat, attempts: Attempts) returns (result: DrainResult)
      requires (forall a :: 0 <= a < |due| ==> due[a] < |rows|) && Distinct(due) && stop <= |due|
      modifies `rows
      ensures rows == Drained(byName, old(rows), due[..stop], attempts)
      ensures result == Tally(byName, old(rows), due[..stop], attempts)
    {
      var sent, failed, skipped := 0, 0, 0;
      for i := 0 to stop
        invariant rows == Drained(byName, old(rows), due[..i], attempts)
        invariant DrainResult(sent, failed, skipped) == Tally(byName, old(rows), due[..i], attempts)
      {
        assert due[..i + 1][..i] == due[..i];
        NotYetProcessed(byName, old(rows), due, attempts, i);
        var row := ProcessRow(rows[due[i]], attempts(due[i]));
        match row.status {
          case Sent => sent := sent + 1;
          case Failed => failed := failed + 1;
          case Skipped => skipped := skipped + 1;
          case Pending =>
        }
        rows := rows[due[i] := row];
      }
      result := DrainResult(sent, failed, skipped);
    }

    /** The turn of one row, up to its save. */
    method ProcessRow(row: Row, a: Attempt) returns (after: Row)
      ensures after == Processed(byName, row, a)
    {
      after := row;
      if row.channel !in byName || !byName[row.channel] {
        after := after.(status := Skipped,
                        lastError := Some(if row.channel in byName then "channel disabled" else "unknown channel"));
        return;
      }
      after := after.(attempts := after.attempts + 1);
      if a.error.None? {
        after := after.(status := Sent, sentAt := Some(a.at), lastError := None);
      } else {
        after := after.(lastError := a.error);
        if after.attempts >= OUTBOX_MAX_ATTEMPTS {
          after := after.(status := Failed);
        } else {
          after := after.(nextAttemptAt := a.at + BackoffMs(after.attempts));
        }
      }
    }
  }

  lemma NotYetProcessed(channels: Channels, rows: seq<Row>, ids: seq<nat>, attempts: Attempts, i: nat)
    requires (forall a :: 0 <= a < |ids| ==> ids[a] < |rows|) && Distinct(ids) && i < |ids|
    ensures Drained(channels, rows, ids[..i], attempts)[ids[i]] == rows[ids[i]]
  {
    DrainedRow(channels, rows, ids[..i], attempts, ids[i]);
  }

  // What every drain keeps.

  /** A row as the service creates it or a drain leaves it. */
  predicate GoodRow(row: Row) {
    && row.attempts <= OUTBOX_MAX_ATTEMPTS
    && (row.status == Pending ==> row.attempts <= OUTBOX_MAX_ATTEMPTS - 1)
    && (row.status == Failed ==> row.attempts == OUTBOX_MAX_ATTEMPTS)
    && (row.status == Sent ==> 1 <= row.attempts && row.lastError == None)
  }

  predicate AllGood(rows: seq<Row>) {
    forall i :: 0 <= i < |rows| ==> GoodRow(rows[i])
  }

  /** How often a row may still be sent. */
  function LeftOf(row: Row): int {
    if row.status == Pending then OUTBOX_MAX_ATTEMPTS - row.attempts else 0
  }

  function Left(rows: seq<Row>): int {
    if |rows| == 0 then 0 else Left(rows[..|rows| - 1]) + LeftOf(rows[|rows| - 1])
  }

  lemma ProcessedRow(channels: Channels, row: Row, a: Attempt)
    requires GoodRow(row) && row.status == Pending
    ensures GoodRow(Processed(channels, row, a))
    ensures LeftOf(Processed(channels, row, a)) + 1 <= LeftOf(row)
  {
  }

  lemma {:induction false} LeftUpdate(rows: seq<Row>, i: nat, row: Row)
    requires i < |rows|
    ensures Left(rows[i := row]) == Left(rows) - LeftOf(rows[i]) + LeftOf(row)
  {
    var n := |rows| - 1;
    if i < n {
      assert rows[i := row][..n] == rows[..n][i := row];
      LeftUpdate(rows[..n], i, row);
    } else {
      assert rows[i := row][..n] == rows[..n];
    }
  }

  lemma {:induction false} LeftBounds(rows: seq<Row>)
    requires AllGood(rows)
    ensures 0 <= Left(rows) <= OUTBOX_MAX_ATTEMPTS * |rows|
    ensures Left(rows) == 0 <==> forall i :: 0 <= i < |rows| ==> rows[i].status != Pending
  {
    if |rows| > 0 {
      var init := rows[..|rows| - 1];
      LeftBounds(init);
      assert forall i :: 0 <= i < |init| ==> init[i] == rows[i];
    }
  }

  lemma OneRowProgress(channels: Channels, rows: seq<Row>, id: nat, a: Attempt)
    requires AllGood(rows) && id < |rows| && rows[id].status == Pending
    ensures var after := rows[id := Processed(channels, rows[id], a)];
            && AllGood(after) && Left(after) < Left(rows)
            && forall i :: 0 <= i < |rows| && rows[i].status != Pending ==> after[i] == rows[i]
  {
    ProcessedRow(channels, rows[id], a);
    LeftUpdate(rows, id, Processed(channels, rows[id], a));
  }

  /**
   A drain keeps every row good, uses up at least one attempt a row, and never touches a row that is no
   longer pending.
   */
  lemma {:induction false} DrainProgress(channels: Channels, rows: seq<Row>, now: int, ids: seq<nat>, attempts: Attempts)
    requires AllGood(rows) && AllDue(rows, now, ids) && Distinct(ids)
    ensures var after := Drained(channels, rows, ids, attempts);
            && AllGood(after) && Left(after) + |ids| <= Left(rows)
            && forall i :: 0 <= i < |rows| && rows[i].status != Pending ==> after[i] == rows[i]
  {
    if |ids| > 0 {
      var n := |ids| - 1;
      DrainProgress(channels, rows, now, ids[..n], attempts);
      NotYetProcessed(channels, rows, ids, attempts, n);
      OneRowProgress(channels, Drained(channels, rows, ids[..n], attempts), ids[n], attempts(ids[n]));
    }
  }

  // Any number of drains.

  datatype Drain = Drain(now: int, ids: seq<nat>, attempts: Attempts, channels: Channels)

  ghost predicate AreDrains(rows: seq<Row>, drains: seq<Drain>)
    decreases |drains|
  {
    |drains| == 0 ||
    (var d := drains[0];
     IsBatch(rows, d.now, d.ids) && AreDrains(Drained(d.channels, rows, d.ids, d.attempts), drains[1..]))
  }

  ghost function AfterAll(rows: seq<Row>, drains: seq<Drain>): (after: seq<Row>)
    requires AreDrains(rows, drains)
    ensures |after| == |rows|
    decreases |drains|
  {
    if |drains| == 0 then rows
    else AfterAll(Drained(drains[0].channels, rows, drains[0].ids, drains[0].attempts), drains[1..])
  }

  function NonEmpty(drains: seq<Drain>): nat {
    if |drains| == 0 then 0 else (if drains[0].ids == [] then 0 else 1) + NonEmpty(drains[1..])
  }

  /** However channels come and go and whatever they answer, drains that find something come to an end. */
  lemma {:induction false} DrainsSettle(rows: seq<Row>, drains: seq<Drain>)
    requires AllGood(rows) && AreDrains(rows, drains)
    ensures var after := AfterAll(rows, drains);
            && AllGood(after) && Left(after) + NonEmpty(drains) <= Left(rows)
            && forall i :: 0 <= i < |rows| && rows[i].status != Pending ==> after[i] == rows[i]
    decreases |drains|
  {
    if |drains| > 0 {
      var d := drains[0];
      DrainProgress(d.channels, rows, d.now, d.ids, d.attempts);
      DrainsSettle(Drained(d.channels, rows, d.ids, d.attempts), drains[1..]);
    }
  }

  /** `n` rows: at most 5n drains find anything, and after 5n such drains no row is pending. */
  lemma AllSettled(rows: seq<Row>, drains: seq<Drain>)
    requires AllGood(rows) && AreDrains(rows, drains)
    ensures NonEmpty(drains) <= OUTBOX_MAX_ATTEMPTS * |rows|
    ensures NonEmpty(drains) == OUTBOX_MAX_ATTEMPTS * |rows| ==>
              forall i :: 0 <= i < |rows| ==> AfterAll(rows, drains)[i].status != Pending
  {
    DrainsSettle(rows, drains);
    LeftBounds(rows);
    LeftBounds(AfterAll(rows, drains));
  }

  /** A drain finds something exactly when some pending row has come due. */
  lemma FindsIff(rows: seq<Row>, now: int, ids: seq<nat>)
    requires IsBatch(rows, now, ids)
    ensures ids != [] <==> exists i :: 0 <= i < |rows| && IsDue(rows[i], now)
  {
    if ids != [] {
      assert IsDue(rows[ids[0]], now);
    }
  }

  // Waiting.

  /** The backoffs after the first `n` failures. */
  function TotalBackoff(n: nat): int {
    if n == 0 then 0 else TotalBackoff(n - 1) + BackoffMs(n)
  }

  /** How long one drain puts a row off. */
  function WaitIn(row: Row, d: Drain, i: nat): int {
    if i in d.ids && MaySend(d.channels, row) && Attempted(row, d.attempts(i)).status == Pending
    then Attempted(row, d.attempts(i)).nextAttemptAt - d.attempts(i).at
    else 0
  }

  ghost function WaitOver(rows: seq<Row>, drains: seq<Drain>, i: nat): int
    requires AreDrains(rows, drains) && i < |rows|
    decreases |drains|
  {
    if |drains| == 0 then 0
    else WaitIn(rows[i], drains[0], i)
         + WaitOver(Drained(drains[0].channels, rows, drains[0].ids, drains[0].attempts), drains[1..], i)
  }

  lemma BackoffsAdd(n: nat)
    requires n <= OUTBOX_MAX_ATTEMPTS - 1
    ensures 0 <= TotalBackoff(n) <= TotalBackoff(4) == 15 * 60000
  {
    var minute := 60000;
    assert PowerOfTwo(1) == 2 && PowerOfTwo(2) == 4 && PowerOfTwo(3) == 8;
    assert TotalBackoff(1) == minute && TotalBackoff(2) == 3 * minute;
    assert TotalBackoff(3) == 7 * minute && TotalBackoff(4) == 15 * minute;
  }

  /** Failures after which the row was put off: the attempt that settles a row schedules nothing. */
  function Deferrals(row: Row): int {
    if row.status == Sent || row.status == Failed then row.attempts - 1 else row.attempts
  }

  lemma OneWait(rows: seq<Row>, d: Drain, i: nat)
    requires AllGood(rows) && IsBatch(rows, d.now, d.ids) && i < |rows| && rows[i].status == Pending
    ensures var after := Drained(d.channels, rows, d.ids, d.attempts)[i];
            && 0 <= Deferrals(after) <= OUTBOX_MAX_ATTEMPTS - 1
            && TotalBackoff(rows[i].attempts) + WaitIn(rows[i], d, i) == TotalBackoff(Deferrals(after))
  {
    DrainedRow(d.channels, rows, d.ids, d.attempts, i);
    OneRowWait(d.channels, rows[i], d.attempts(i));
  }

  lemma OneRowWait(channels: Channels, row: Row, a: Attempt)
    requires GoodRow(row) && row.status == Pending
    ensures var after := Processed(channels, row, a);
            && 0 <= Deferrals(after) <= OUTBOX_MAX_ATTEMPTS - 1
            && TotalBackoff(Deferrals(after)) - TotalBackoff(row.attempts)
               == if MaySend(channels, row) && after.status == Pending then after.nextAttemptAt - a.at else 0
  {
  }

  /** A row waits for exactly the backoffs of its deferrals, each once, whatever the drains. */
  lemma {:induction false} WaitsAreBackoffs(rows: seq<Row>, drains: seq<Drain>, i: nat)
    requires AllGood(rows) && AreDrains(rows, drains) && i < |rows| && rows[i].status == Pending
    ensures var after := AfterAll(rows, drains)[i];
            && 0 <= Deferrals(after) <= OUTBOX_MAX_ATTEMPTS - 1
            && TotalBackoff(rows[i].attempts) + WaitOver(rows, drains, i) == TotalBackoff(Deferrals(after))
    decreases |drains|
  {
    if |drains| > 0 {
      var d := drains[0];
      var next := Drained(d.channels, rows, d.ids, d.attempts);
      DrainProgress(d.channels, rows, d.now, d.ids, d.attempts);
      OneWait(rows, d, i);
      if next[i].status == Pending {
        WaitsAreBackoffs(next, drains[1..], i);
      } else {
        SettledWaitsNoMore(next, drains[1..], i);
      }
    }
  }

  lemma {:induction false} SettledWaitsNoMore(rows: seq<Row>, drains: seq<Drain>, i: nat)
    requires AllGood(rows) && AreDrains(rows, drains) && i < |rows| && rows[i].status != Pending
    ensures AfterAll(rows, drains)[i] == rows[i] && WaitOver(rows, drains, i) == 0
    decreases |drains|
  {
    if |drains| > 0 {
      var d := drains[0];
      DrainProgress(d.channels, rows, d.now, d.ids, d.attempts);
      assert i !in d.ids;
      SettledWaitsNoMore(Drained(d.channels, rows, d.ids, d.attempts), drains[1..], i);
    }
  }

  /** From no attempts on, a delivery is put off by fifteen minutes in all at most, and by that much if it fails. */
  lemma WaitsFifteenMinutes(rows: seq<Row>, drains: seq<Drain>, i: nat)
    requires AllGood(rows) && AreDrains(rows, drains) && i < |rows| && rows[i].status == Pending && rows[i].attempts == 0
    ensures WaitOver(rows, drains, i) <= 15 * 60000
    ensures AfterAll(rows, drains)[i].status == Failed ==> WaitOver(rows, drains, i) == 15 * 60000
  {
    WaitsAreBackoffs(rows, drains, i);
    DrainsSettle(rows, drains);
    BackoffsAdd(Deferrals(AfterAll(rows, drains)[i]));
  }
}
