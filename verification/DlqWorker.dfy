/** The background worker of internal/dlq/worker.go: one round over a batch of due items, and
    why rounds drain the queue. */
module DlqWorker {
  import opened Support
  import opened DlqItems
  import opened DlqStore
  import opened Backoff

  datatype Timing = Timing(maxRetries: int, baseDelay: int, maxDelay: int, jitter: int)

  ghost predicate ValidTiming(t: Timing) {
    IsInt64(t.baseDelay) && IsInt64(t.maxDelay) && IsInt64(t.jitter)
  }

  /** A call of the relay function and whether it returned nil. */
  datatype Replayed = Replayed(payload: Payload, ok: bool)

  /** What one replay makes of a picked item. */
  ghost predicate Handled(t: Timing, item: Item, after: Item, ok: bool)
    requires ValidTiming(t)
  {
    exists at: int, message: string, draw: int :: HandledAt(t, item, after, ok, at, message, draw)
  }

  ghost predicate HandledAt(t: Timing, item: Item, after: Item, ok: bool, at: int, message: string, draw: int)
    requires ValidTiming(t)
  {
    0 <= draw < EffectiveJitter(t.jitter) &&
    after == if ok then DoneItem(item, at)
             else
               var next := at + WorkerDelay(item.attempt + 1, t.baseDelay, t.maxDelay, draw);
               RetryItem(item, next, Some(message), t.maxRetries, at)
  }

  /** The item waits for the backoff of its failures so far, and a jitter. */
  predicate WaitsFor(t: Timing, item: Item, draw: int)
    requires IsInt64(t.baseDelay) && IsInt64(t.maxDelay)
  {
    && 0 <= draw < EffectiveJitter(t.jitter)
    && item.nextRetryAt == item.updatedAt + WorkerDelay(item.attempt, t.baseDelay, t.maxDelay, draw)
  }

  /** A replay that fails is counted, and the item either is given up, just when its tries are used up,
      or waits for the backoff of that many failures and a jitter. */
  lemma FailureWaits(t: Timing, item: Item, after: Item)
    requires ValidTiming(t) && Handled(t, item, after, false)
    ensures after.attempt == item.attempt + 1
    ensures after.status == if t.maxRetries > 0 && after.attempt >= t.maxRetries then Failed else Pending
    ensures after.status == Pending ==> exists draw :: WaitsFor(t, after, draw)
  {
    var at, message, draw :| HandledAt(t, item, after, false, at, message, draw);
    assert after.status == Pending ==> WaitsFor(t, after, draw);
  }

  /** A round from table m to m': the picked items are relayed once each, in order, with their
      own payload, and end up done or counted as failed; nothing else changes. */
  ghost predicate Round(t: Timing, m: Items, m': Items, ids: seq<string>, log: seq<Replayed>, now: int)
    requires ValidTiming(t)
  {
    && Distinct(ids) && (forall id :: id in ids ==> id in m)
    && m'.Keys == m.Keys && |log| == |ids|
    && (forall id :: id in m && id !in ids ==> m'[id] == m[id])
    && (forall i :: 0 <= i < |ids| ==>
          ids[i] in m && log[i].payload == PayloadOf(m[ids[i]]) && Handled(t, PickItem(m[ids[i]], now), m'[ids[i]], log[i].ok))
  }

  /** What runOnce does to table m and file d: a pick that cannot be saved leaves its items
      processing and relays nothing; otherwise there is a round, and the file is the table as of the
      last write that succeeded. */
  ghost predicate RanOnce(t: Timing, limit: int, m: Items, d: Items, m': Items, d': Items, ids: seq<string>,
                          log: seq<Replayed>, batch: seq<Item>, saves: seq<bool>, now: int, ioOk: bool)
    requires ValidTiming(t)
  {
    var picked := PickAll(m, ids, now);
    && Picks(m, ids, limit, now) && |log| == |saves| <= |ids|
    && (!ioOk && ids != [] ==> log == [] && m' == picked)
    && (ioOk || ids == [] ==> Round(t, m, m', ids, log, now))
    && (!ioOk || ids == [] ==> d' == d)
    && (ioOk && ids != [] ==>
          IsBatch(picked, ids, batch) && m'.Keys == m.Keys && HalfWay(picked, m', batch, LastSaved(saves), d'))
  }

  class Worker {
    const store: FileStore
    const timing: Timing
    const batchSize: int
    ghost var calls: seq<Replayed>
    var replayed: nat
    var replayFailed: nat

    constructor (store: FileStore, timing: Timing, batchSize: int)
      ensures this.store == store && this.timing == timing && this.batchSize == batchSize
      ensures calls == [] && replayed == 0 && replayFailed == 0
    {
      this.store, this.timing, this.batchSize := store, timing, batchSize;
      calls, replayed, replayFailed := [], 0, 0;
    }

    /** The relay function, called with the queue bypassed, so it leaves the store alone. */
    method CallRelay(recipient: string, raw: seq<byte>) returns (err: Option<string>)
      modifies `calls
      ensures calls == old(calls) + [Replayed(Payload(recipient, raw), err.None?)]
    {
      var failed: bool := *;
      var message: string := *;
      err := if failed then Some(message) else None;
      calls := calls + [Replayed(Payload(recipient, raw), !failed)];
    }

    /** One element of the loop of runOnce. Marking may fail to write the file; the table has
        changed all the same. */
    method ReplayOne(item: Item) returns (ok: bool, saved: bool)
      requires ValidTiming(timing) && store.Valid()
      requires item.id in store.items && store.items[item.id] == item
      modifies `calls, `replayed, `replayFailed, store
      ensures store.Valid()
      ensures calls == old(calls) + [Replayed(PayloadOf(item), ok)]
      ensures item.id in store.items && store.items == old(store.items)[item.id := store.items[item.id]]
      ensures Handled(timing, item, store.items[item.id], ok)
      ensures replayed == old(replayed) + (if ok then 1 else 0) && replayFailed == old(replayFailed) + (if ok then 0 else 1)
      ensures if saved then store.DiskItems() == store.items else store.disk == old(store.disk)
    {
      var err := CallRelay(item.recipient, item.raw);
      var at: int := *;
      var ioOk: bool := *;
      ok := err.None?;
      if ok {
        var marked := store.MarkDone(item.id, at, ioOk);
        assert HandledAt(timing, item, store.items[item.id], true, at, "", 0);
        replayed := replayed + 1;
        return true, marked.Ok?;
      }
      var bound := EffectiveJitter(timing.jitter);
      var draw :| 0 <= draw < bound;
      var delay := WorkerNextDelay(item.attempt + 1, timing.baseDelay, timing.maxDelay, timing.jitter, draw);
      var marked := store.MarkRetry(item.id, at + delay, err, timing.maxRetries, at, ioOk);
      assert HandledAt(timing, item, store.items[item.id], false, at, err.value, draw);
      replayFailed := replayFailed + 1;
      saved := marked.Ok?;
    }

    /** One round of the loop of runOnce, from table m and file disk on. */
    method ReplayNext(item: Item, ghost items: seq<Item>, ghost m: Items, ghost disk: Option<seq<Item>>,
                      ghost log: seq<Replayed>, ghost saves: seq<bool>)
      returns (ghost call: Replayed, ghost saved: bool)
      requires ValidTiming(timing) && store.Valid() && DistinctIds(items) && store.items.Keys == m.Keys
      requires |log| == |saves| < |items| && item == items[|log|] && item.id in m && m[item.id] == item
      requires Followed(m, disk, items, log, saves)
      modifies `calls, `replayed, `replayFailed, store
      ensures store.Valid() && store.items.Keys == m.Keys && calls == old(calls) + [call]
      ensures Followed(m, disk, items, log + [call], saves + [saved])
      ensures OkCount(log + [call]) == OkCount(log) + Bit(call.ok)
      ensures replayed == old(replayed) + Bit(call.ok) && replayFailed == old(replayFailed) + Bit(!call.ok)
    {
      ghost var m1, disk1 := store.items, store.disk;
      assert !AmongFirst(items, |log|, item.id);
      var ok, written := ReplayOne(item);
      call, saved := Replayed(PayloadOf(item), ok), written;
      FileOneMore(m, m1, store.items, disk, disk1, store.disk, items, saves, saved);
      HandledOneMore(timing, m1, store.items, items, log, call);
    }

    /** The first items have been dealt with, nothing else has changed, and the file followed. */
    ghost predicate Followed(m: Items, disk: Option<seq<Item>>, items: seq<Item>, log: seq<Replayed>, saves: seq<bool>)
      requires ValidTiming(timing) && |log| == |saves| <= |items|
      reads store
    {
      && store.items.Keys == m.Keys && OthersSame(m, store.items, items, |log|)
      && EachHandled(timing, store.items, items, log)
      && FileFollows(m, store.items, disk, store.disk, items, saves)
    }

    /** The loop of runOnce over the picked batch. */
    method ReplayAll(items: seq<Item>) returns (ghost log: seq<Replayed>, ghost saves: seq<bool>)
      requires ValidTiming(timing) && store.Valid() && DistinctIds(items)
      requires forall i :: 0 <= i < |items| ==> items[i].id in store.items && store.items[items[i].id] == items[i]
      modifies `calls, `replayed, `replayFailed, store
      ensures store.Valid() && calls == old(calls) + log && |log| == |saves| == |items|
      ensures Followed(old(store.items), old(store.disk), items, log, saves)
      ensures replayed == old(replayed) + OkCount(log) && replayFailed == old(replayFailed) + |log| - OkCount(log)
    {
      log, saves := [], [];
      for k := 0 to |items|
        invariant store.Valid() && calls == old(calls) + log && |log| == |saves| == k
        invariant Followed(old(store.items), old(store.disk), items, log, saves)
        invariant replayed == old(replayed) + OkCount(log) && replayFailed == old(replayFailed) + |log| - OkCount(log)
      {
        ghost var call, saved := ReplayNext(items[k], items, old(store.items), old(store.disk), log, saves);
        Associative(old(calls), log, [call]);
        log, saves := log + [call], saves + [saved];
      }
    }

    /** runOnce: a failed pick leaves its items processing in memory and replays nothing. The batch
        is what the pick returned; saves says which of its marks were written to the file. */
    method RunOnce(now: int, ioOk: bool)
      returns (ghost ids: seq<string>, ghost log: seq<Replayed>, ghost batch: seq<Item>, ghost saves: seq<bool>)
      requires ValidTiming(timing) && store.Valid()
      modifies `calls, `replayed, `replayFailed, store
      ensures store.Valid()
      ensures RanOnce(timing, batchSize, old(store.items), old(store.DiskItems()), store.items, store.DiskItems(),
                      ids, log, batch, saves, now, ioOk)
      ensures calls == old(calls) + log
      ensures replayed == old(replayed) + OkCount(log) && replayFailed == old(replayFailed) + |log| - OkCount(log)
      ensures !ioOk || ids == [] ==> store.disk == old(store.disk)
      ensures var m := old(store.items);
        ioOk ==> FillsLimit(|log|, batchSize, |set id | id in m && m[id].status == Pending && m[id].nextRetryAt <= now|)
    {
      ghost var m := store.items;
      log, batch, saves := [], [], [];
      var picked, chosen := store.PickDue(batchSize, now, ioOk);
      ids := chosen;
      PicksMeans(m, ids, batchSize, now);
      if picked.Err? {
        return;
      }
      var items := picked.value;
      ghost var m1, disk := store.items, store.disk;
      BatchIsDistinct(m, ids, items, now);
      log, saves := ReplayAll(items);
      batch := items;
      RoundOf(timing, m, m1, store.items, ids, items, log, now);
      if ids != [] {
        HalfWaySaved(m1, store.items, disk, store.disk, items, saves);
      }
    }
  }

  function Bit(b: bool): nat {
    if b then 1 else 0
  }

  lemma BatchIsDistinct(m: Items, ids: seq<string>, batch: seq<Item>, now: int)
    requires Keyed(m) && Distinct(ids) && (forall id :: id in ids ==> id in m)
    requires IsBatch(PickAll(m, ids, now), ids, batch)
    ensures DistinctIds(batch)
    ensures forall i :: 0 <= i < |batch| ==> batch[i].id == ids[i]
  {
  }

  /** Once the table has been saved, the file follows it all the way. */
  lemma {:induction false} HalfWaySaved(m: Items, m': Items, disk: Option<seq<Item>>, disk': Option<seq<Item>>,
                                        chosen: seq<Item>, saves: seq<bool>)
    requires m'.Keys == m.Keys && |saves| <= |chosen|
    requires DecodeFile(disk) == m && FileFollows(m, m', disk, disk', chosen, saves)
    ensures HalfWay(m, m', chosen, LastSaved(saves), DecodeFile(disk'))
  {
    assert forall id :: id in m ==> !AmongFirst(chosen, 0, id);
  }

  predicate IsBatch(m: Items, ids: seq<string>, batch: seq<Item>) {
    |batch| == |ids| && forall i :: 0 <= i < |ids| ==> ids[i] in m && batch[i] == m[ids[i]]
  }

  function OkCount(log: seq<Replayed>): (n: nat)
    ensures n <= |log|
  {
    if log == [] then 0 else OkCount(log[..|log| - 1]) + if log[|log| - 1].ok then 1 else 0
  }

  /** The first items have been relayed, in order, with their own payload, and stand in the table
      as their outcome says. */
  ghost predicate EachHandled(t: Timing, m: Items, items: seq<Item>, log: seq<Replayed>)
    requires ValidTiming(t) && |log| <= |items|
  {
    forall i :: 0 <= i < |log| ==> HandledIn(t, m, items[i], log[i])
  }

  ghost predicate HandledIn(t: Timing, m: Items, item: Item, call: Replayed)
    requires ValidTiming(t)
  {
    item.id in m && call.payload == PayloadOf(item) && Handled(t, item, m[item.id], call.ok)
  }

  lemma {:induction false} HandledOneMore(t: Timing, m1: Items, m2: Items, items: seq<Item>, log: seq<Replayed>, call: Replayed)
    requires ValidTiming(t) && |log| < |items| && DistinctIds(items) && EachHandled(t, m1, items, log)
    requires var id := items[|log|].id; id in m2 && m2 == m1[id := m2[id]]
    requires HandledIn(t, m2, items[|log|], call)
    ensures EachHandled(t, m2, items, log + [call])
    ensures OkCount(log + [call]) == OkCount(log) + Bit(call.ok)
  {
    assert (log + [call])[..|log|] == log;
    forall i | 0 <= i < |log|
      ensures HandledIn(t, m2, items[i], log[i])
    {
      assert HandledIn(t, m1, items[i], log[i]);
    }
  }

  lemma RoundOf(t: Timing, m: Items, m1: Items, m2: Items, ids: seq<string>, items: seq<Item>, log: seq<Replayed>, now: int)
    requires ValidTiming(t) && Keyed(m) && Distinct(ids) && (forall id :: id in ids ==> id in m)
    requires m1 == PickAll(m, ids, now) && IsBatch(m1, ids, items) && |log| == |ids| && m2.Keys == m1.Keys
    requires OthersSame(m1, m2, items, |items|) && EachHandled(t, m2, items, log)
    ensures Round(t, m, m2, ids, log, now)
  {
    forall i | 0 <= i < |ids|
      ensures ids[i] in m && log[i].payload == PayloadOf(m[ids[i]]) && Handled(t, PickItem(m[ids[i]], now), m2[ids[i]], log[i].ok)
    {
      assert ids[i] in ids && HandledIn(t, m2, items[i], log[i]);
    }
    forall id | id in m && id !in ids
      ensures m2[id] == m[id]
    {
      assert !AmongFirst(items, |items|, id);
    }
  }

  // ----- draining -----

  function Left(item: Item, max: int): int {
    if IsLive(item) then max - item.attempt else 0
  }

  function LeftOf(m: Items, max: int): map<string, int> {
    map id | id in m :: Left(m[id], max)
  }

  /** The number of tries the live items have left together. */
  ghost function Budget(m: Items, max: int): int {
    MapSum(LeftOf(m, max))
  }

  /** Nothing is being processed, and every waiting item has a try left. */
  ghost predicate AtRest(m: Items, max: int) {
    forall id :: id in m ==> m[id].status != Processing && (m[id].status == Pending ==> m[id].attempt < max)
  }

  lemma HandledSpends(t: Timing, item: Item, now: int, after: Item, ok: bool)
    requires ValidTiming(t) && t.maxRetries > 0 && item.status == Pending && item.attempt < t.maxRetries
    requires Handled(t, PickItem(item, now), after, ok)
    ensures Left(after, t.maxRetries) <= Left(item, t.maxRetries) - 1
    ensures after.status != Processing && (after.status == Pending ==> after.attempt < t.maxRetries)
  {
  }

  lemma BudgetAfterOne(m: Items, m': Items, x: string, max: int)
    requires x in m && x in m' && m == m'[x := m[x]]
    ensures Budget(m', max) == Budget(m, max) + Left(m'[x], max) - Left(m[x], max)
  {
    assert LeftOf(m', max) == LeftOf(m, max)[x := Left(m'[x], max)];
    MapSumUpdate(LeftOf(m, max), x, Left(m'[x], max));
  }

  lemma {:induction false} SpendEach(m: Items, m': Items, ids: seq<string>, max: int)
    requires m'.Keys == m.Keys && Distinct(ids)
    requires forall id :: id in ids ==> id in m && Left(m'[id], max) <= Left(m[id], max) - 1
    requires forall id :: id in m && id !in ids ==> m'[id] == m[id]
    ensures Budget(m', max) <= Budget(m, max) - |ids|
  {
    if ids == [] {
      assert m' == m;
    } else {
      var n := |ids| - 1;
      var x, m1 := ids[n], m'[ids[n] := m[ids[n]]];
      assert ids == ids[..n] + [x] && x !in ids[..n];
      SpendEach(m, m1, ids[..n], max);
      BudgetAfterOne(m1, m', x, max);
    }
  }

  lemma {:induction false} SumNonNegative(f: map<string, int>)
    requires forall k :: k in f ==> f[k] >= 0
    ensures MapSum(f) >= 0
    decreases |f|
  {
    if f != map[] {
      var k :| k in f;
      MapSumRemove(f, k);
      SumNonNegative(f - {k});
    }
  }

  /** Every relay call of a round uses up one try at least, and a round leaves nothing in
      processing. */
  lemma RoundSpends(t: Timing, m: Items, m': Items, ids: seq<string>, log: seq<Replayed>, limit: int, now: int)
    requires ValidTiming(t) && t.maxRetries > 0 && AtRest(m, t.maxRetries)
    requires Picks(m, ids, limit, now) && Round(t, m, m', ids, log, now)
    ensures AtRest(m', t.maxRetries)
    ensures 0 <= Budget(m', t.maxRetries) <= Budget(m, t.maxRetries) - |log|
  {
    forall id | id in ids
      ensures Left(m'[id], t.maxRetries) <= Left(m[id], t.maxRetries) - 1
      ensures m'[id].status != Processing && (m'[id].status == Pending ==> m'[id].attempt < t.maxRetries)
    {
      var i :| 0 <= i < |ids| && ids[i] == id;
      assert id in DueIds(m, now);
      HandledSpends(t, m[id], now, m'[id], log[i].ok);
    }
    SpendEach(m, m', ids, t.maxRetries);
    SumNonNegative(LeftOf(m', t.maxRetries));
  }

  /** A series of rounds, each late enough that whatever waits is due. */
  ghost predicate Rounds(t: Timing, ms: seq<Items>, idss: seq<seq<string>>, logs: seq<seq<Replayed>>, nows: seq<int>, limit: int)
    requires ValidTiming(t)
  {
    && |ms| == |idss| + 1 && |idss| == |logs| == |nows|
    && forall i :: 0 <= i < |idss| ==> LateRound(t, ms[i], ms[i + 1], idss[i], logs[i], nows[i], limit)
  }

  ghost predicate LateRound(t: Timing, m: Items, m': Items, ids: seq<string>, log: seq<Replayed>, now: int, limit: int)
    requires ValidTiming(t)
  {
    && Picks(m, ids, limit, now) && Round(t, m, m', ids, log, now)
    && forall id :: id in m && m[id].status == Pending ==> m[id].nextRetryAt <= now
  }

  ghost predicate Drained(m: Items) {
    forall id :: id in m ==> !IsLive(m[id])
  }

  function CallCount(logs: seq<seq<Replayed>>): nat {
    if logs == [] then 0 else CallCount(logs[..|logs| - 1]) + |logs[|logs| - 1]|
  }

  lemma BusyRound(t: Timing, m: Items, m': Items, ids: seq<string>, log: seq<Replayed>, now: int, limit: int)
    requires ValidTiming(t) && t.maxRetries > 0 && AtRest(m, t.maxRetries)
    requires LateRound(t, m, m', ids, log, now, limit)
    ensures Drained(m) ==> Drained(m')
    ensures !Drained(m) ==> |log| >= 1
  {
    if Drained(m) {
      forall id | id in m'
        ensures !IsLive(m'[id])
      {
        assert id in ids ==> id in DueIds(m, now);
      }
    } else {
      var id :| id in m && IsLive(m[id]);
      assert id in DueIds(m, now);
      assert |DueIds(m, now)| > 0;
    }
  }

  /** Draining: from a table at rest, the relay calls of any series of late rounds together with
      the tries still left never exceed the tries left at the start; nothing stays in processing;
      and once there were as many rounds as tries at the start, no item is live any more. */
  lemma {:induction false} RoundsDrain(t: Timing, ms: seq<Items>, idss: seq<seq<string>>, logs: seq<seq<Replayed>>,
                                       nows: seq<int>, limit: int)
    requires ValidTiming(t) && t.maxRetries > 0 && Rounds(t, ms, idss, logs, nows, limit)
    requires AtRest(ms[0], t.maxRetries)
    ensures AtRest(ms[|idss|], t.maxRetries)
    ensures 0 <= Budget(ms[|idss|], t.maxRetries) <= Budget(ms[0], t.maxRetries) - CallCount(logs)
    ensures Drained(ms[|idss|]) || CallCount(logs) >= |idss|
    ensures |idss| >= Budget(ms[0], t.maxRetries) ==> Drained(ms[|idss|])
    decreases |idss|
  {
    var n := |idss| - 1;
    if n < 0 {
      SumNonNegative(LeftOf(ms[0], t.maxRetries));
    } else {
      RoundsDrain(t, ms[..n + 1], idss[..n], logs[..n], nows[..n], limit);
      assert LateRound(t, ms[n], ms[n + 1], idss[n], logs[n], nows[n], limit);
      RoundSpends(t, ms[n], ms[n + 1], idss[n], logs[n], limit, nows[n]);
      BusyRound(t, ms[n], ms[n + 1], idss[n], logs[n], nows[n], limit);
    }
    if |idss| >= Budget(ms[0], t.maxRetries) && !Drained(ms[|idss|]) {
      LiveHasBudget(ms[|idss|], t.maxRetries);
    }
  }

  lemma LiveHasBudget(m: Items, max: int)
    requires AtRest(m, max) && !Drained(m)
    ensures Budget(m, max) > 0
  {
    var id :| id in m && IsLive(m[id]);
    MapSumRemove(LeftOf(m, max), id);
    SumNonNegative(LeftOf(m, max) - {id});
  }
}
