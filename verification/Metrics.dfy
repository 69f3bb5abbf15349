/** Delivery accounting: internal/metrics/collector.go. Counters are unbounded here. */
module Metrics {
  import opened Support
  import opened Text

  const CAPACITY := 50000

  datatype Key = Key(address: string, delivered: bool, maxRecipient: string, recipientName: string)

  datatype Event = Event(at: int, key: Key)

  function LastN<T>(xs: seq<T>, n: nat): seq<T> {
    if |xs| <= n then xs else xs[|xs| - n..]
  }

  function Weighted(m: map<Key, nat>, delivered: bool): map<Key, int> {
    map k | k in m :: if k.delivered == delivered then m[k] else 0
  }

  /** The sum of all entries of the delivery map with the given outcome. */
  ghost function Total(m: map<Key, nat>, delivered: bool): int {
    MapSum(Weighted(m, delivered))
  }

  function CountOf(m: map<Key, nat>, k: Key): nat {
    if k in m then m[k] else 0
  }

  lemma TotalAfterIncrement(m: map<Key, nat>, k: Key, delivered: bool)
    ensures Total(m[k := CountOf(m, k) + 1], delivered) == Total(m, delivered) + (if k.delivered == delivered then 1 else 0)
  {
    var w := if k.delivered == delivered then CountOf(m, k) + 1 else 0;
    assert Weighted(m[k := CountOf(m, k) + 1], delivered) == Weighted(m, delivered)[k := w];
    MapSumUpdate(Weighted(m, delivered), k, w);
  }

  /** What the counters and the delivery map add up to, and the keys of all events in order. */
  datatype Counts = Counts(received: int, relayed: int, failed: int, textSent: int, filesSent: int,
                           dlqEnqueued: int, delivered: int, undelivered: int, keys: seq<Key>)

  const NO_COUNTS := Counts(0, 0, 0, 0, 0, 0, 0, 0, [])

  class Collector {
    var received: nat
    var relayed: nat
    var failed: nat
    var textSent: nat
    var filesSent: nat
    var dlqEnqueued: nat
    var deliveryByAddress: map<Key, nat>
    var deliveryEvents: seq<Event>
    /** Every event ever observed, and what everything adds up to. */
    ghost var history: seq<Event>
    ghost var counts: Counts

    ghost predicate Valid()
      reads this
    {
      && counts.received == received && counts.relayed == relayed && counts.failed == failed
      && counts.textSent == textSent && counts.filesSent == filesSent && counts.dlqEnqueued == dlqEnqueued
      && SumsUp(history, deliveryByAddress, deliveryEvents, counts)
    }

    constructor ()
      ensures Valid() && history == [] && counts == NO_COUNTS
    {
      received, relayed, failed, textSent, filesSent, dlqEnqueued := 0, 0, 0, 0, 0, 0;
      deliveryByAddress, deliveryEvents, history := map[], [], [];
      counts := NO_COUNTS;
    }

    method IncReceived()
      requires Valid()
      modifies `received, `counts
      ensures Valid() && counts == old(counts).(received := old(counts).received + 1)
    {
      received, counts := received + 1, counts.(received := counts.received + 1);
    }

    method IncRelayed()
      requires Valid()
      modifies `relayed, `counts
      ensures Valid() && counts == old(counts).(relayed := old(counts).relayed + 1)
    {
      relayed, counts := relayed + 1, counts.(relayed := counts.relayed + 1);
    }

    method IncFailed()
      requires Valid()
      modifies `failed, `counts
      ensures Valid() && counts == old(counts).(failed := old(counts).failed + 1)
    {
      failed, counts := failed + 1, counts.(failed := counts.failed + 1);
    }

    method IncTextSent()
      requires Valid()
      modifies `textSent, `counts
      ensures Valid() && counts == old(counts).(textSent := old(counts).textSent + 1)
    {
      textSent, counts := textSent + 1, counts.(textSent := counts.textSent + 1);
    }

    method IncFilesSent()
      requires Valid()
      modifies `filesSent, `counts
      ensures Valid() && counts == old(counts).(filesSent := old(counts).filesSent + 1)
    {
      filesSent, counts := filesSent + 1, counts.(filesSent := counts.filesSent + 1);
    }

    method IncDlqEnqueued()
      requires Valid()
      modifies `dlqEnqueued, `counts
      ensures Valid() && counts == old(counts).(dlqEnqueued := old(counts).dlqEnqueued + 1)
    {
      dlqEnqueued, counts := dlqEnqueued + 1, counts.(dlqEnqueued := counts.dlqEnqueued + 1);
    }

    method ObserveDelivery(at: int, address: string, delivered: bool, maxRecipientId: string, recipientName: string)
      requires Valid()
      modifies `deliveryByAddress, `deliveryEvents, `history, `counts
      ensures Valid()
      ensures history == old(history) +
        [Event(at, Key(TrimSpace(Lower(address)), delivered, TrimSpace(maxRecipientId), TrimSpace(recipientName)))]
      ensures counts == Seen(old(counts), DeliveryKey(address, delivered, maxRecipientId, recipientName))
    {
      var key := Key(Norm(address), delivered, TrimSpace(maxRecipientId), TrimSpace(recipientName));
      Observe(Event(at, key));
    }

    method Observe(ev: Event)
      requires Valid()
      modifies `deliveryByAddress, `deliveryEvents, `history, `counts
      ensures Valid() && history == old(history) + [ev] && counts == Seen(old(counts), ev.key)
    {
      SumsGrow(history, ev, deliveryByAddress, deliveryEvents, counts);
      deliveryByAddress := deliveryByAddress[ev.key := CountOf(deliveryByAddress, ev.key) + 1];
      Retain(ev);
      history := history + [ev];
      counts := Seen(counts, ev.key);
    }

    /** The capped list takes one more event. */
    method Retain(ev: Event)
      modifies `deliveryEvents
      ensures deliveryEvents == LastN(old(deliveryEvents) + [ev], CAPACITY)
    {
      deliveryEvents := deliveryEvents + [ev];
      if |deliveryEvents| > CAPACITY {
        deliveryEvents := deliveryEvents[|deliveryEvents| - CAPACITY..];
      }
    }
  }

  /** What a collector keeps of a history of events. */
  ghost predicate SumsUp(history: seq<Event>, byAddress: map<Key, nat>, events: seq<Event>, c: Counts) {
    && byAddress == Tally(history) && events == LastN(history, CAPACITY)
    && c.delivered == EventsWith(history, true) && c.undelivered == EventsWith(history, false) && c.keys == KeysOf(history)
  }

  lemma SumsGrow(history: seq<Event>, ev: Event, byAddress: map<Key, nat>, events: seq<Event>, c: Counts)
    requires SumsUp(history, byAddress, events, c)
    ensures SumsUp(history + [ev], byAddress[ev.key := CountOf(byAddress, ev.key) + 1], LastN(events + [ev], CAPACITY),
                   Seen(c, ev.key))
  {
    HistoryGrows(history, ev);
    LastNAppend(history, ev, CAPACITY);
  }

  function DeliveryKey(address: string, delivered: bool, maxRecipientId: string, recipientName: string): Key {
    Key(Norm(address), delivered, TrimSpace(maxRecipientId), TrimSpace(recipientName))
  }

  /** One more event. */
  function Seen(c: Counts, key: Key): Counts {
    c.(delivered := c.delivered + (if key.delivered then 1 else 0),
       undelivered := c.undelivered + (if key.delivered then 0 else 1), keys := c.keys + [key])
  }

  function KeysOf(history: seq<Event>): (keys: seq<Key>)
    ensures |keys| == |history| && forall i :: 0 <= i < |keys| ==> keys[i] == history[i].key
  {
    seq(|history|, i requires 0 <= i < |history| => history[i].key)
  }

  /** The delivery map after a history of events: how often each key occurred. */
  function Tally(history: seq<Event>): map<Key, nat> {
    if history == [] then map[]
    else
      var before, k := Tally(history[..|history| - 1]), history[|history| - 1].key;
      before[k := CountOf(before, k) + 1]
  }

  /** The map has each key as often as it has occurred. */
  lemma {:induction false} TallyIs(history: seq<Event>, k: Key)
    ensures k in Tally(history) <==> k in KeysOf(history)
    ensures CountOf(Tally(history), k) == multiset(KeysOf(history))[k]
  {
    if history != [] {
      var n := |history| - 1;
      TallyIs(history[..n], k);
      assert KeysOf(history) == KeysOf(history[..n]) + [history[n].key];
    }
  }

  /** The number of events with the given outcome. */
  function EventsWith(history: seq<Event>, delivered: bool): nat {
    if history == [] then 0
    else EventsWith(history[..|history| - 1], delivered)
         + if history[|history| - 1].key.delivered == delivered then 1 else 0
  }

  /** The entries of the delivery map with one outcome add up to the events with that outcome. */
  lemma {:induction false} TallyAddsUp(history: seq<Event>, delivered: bool)
    ensures Total(Tally(history), delivered) == EventsWith(history, delivered)
  {
    if history == [] {
      assert Weighted(map[], delivered) == map[];
    } else {
      var n := |history| - 1;
      TallyAddsUp(history[..n], delivered);
      TotalAfterIncrement(Tally(history[..n]), history[n].key, delivered);
    }
  }

  lemma {:induction false} HistoryGrows(history: seq<Event>, ev: Event)
    ensures Tally(history + [ev]) == Tally(history)[ev.key := CountOf(Tally(history), ev.key) + 1]
    ensures EventsWith(history + [ev], true) == EventsWith(history, true) + if ev.key.delivered then 1 else 0
    ensures EventsWith(history + [ev], false) == EventsWith(history, false) + if ev.key.delivered then 0 else 1
    ensures KeysOf(history + [ev]) == KeysOf(history) + [ev.key]
  {
    assert (history + [ev])[..|history|] == history;
  }

  /** In every state of a collector the entries of the delivery map add up to the deliveries and
      the failures it has counted. */
  lemma CollectorAddsUp(c: Collector)
    requires c.Valid()
    ensures Total(c.deliveryByAddress, true) == c.counts.delivered && Total(c.deliveryByAddress, false) == c.counts.undelivered
  {
    TallyAddsUp(c.history, true);
    TallyAddsUp(c.history, false);
  }

  /** Appending to the capped list and cutting it again keeps the last n of the whole history. */
  lemma LastNAppend<T>(xs: seq<T>, x: T, n: nat)
    requires n > 0
    ensures LastN(LastN(xs, n) + [x], n) == LastN(xs + [x], n)
  {
  }

  /** So a collector retains its last 50000 events. */
  lemma Retained(c: Collector)
    requires c.Valid()
    ensures |c.deliveryEvents| == if |c.history| < 50000 then |c.history| else 50000
    ensures c.deliveryEvents == c.history[|c.history| - |c.deliveryEvents|..]
  {
  }

  // ----- the report -----

  datatype Stats = Stats(total: int, delivered: int, failed: int)

  datatype Report = Report(total: int, delivered: int, failed: int, byAddress: map<string, int>,
                           byRecipient: map<string, int>, agg: map<string, Stats>)

  function RecipientLabel(key: Key): string {
    (if key.recipientName == "" then "unknown" else key.recipientName) + " (id=" +
    (if key.maxRecipient == "" then "unknown" else key.maxRecipient) + ")"
  }

  function Bump(m: map<string, int>, k: string): map<string, int> {
    m[k := (if k in m then m[k] else 0) + 1]
  }

  function Part(m: map<string, Stats>, f: Stats -> int): map<string, int> {
    map k | k in m :: f(m[k])
  }

  ghost function SumOf(m: map<string, Stats>, f: Stats -> int): int {
    MapSum(Part(m, f))
  }

  /** Every breakdown of the report adds up to its headline numbers. */
  ghost predicate Balanced(r: Report) {
    && r.total == r.delivered + r.failed
    && MapSum(r.byAddress) == r.total
    && MapSum(r.byRecipient) == r.delivered
    && SumOf(r.agg, (s: Stats) => s.total) == r.total
    && SumOf(r.agg, (s: Stats) => s.delivered) == r.delivered
    && SumOf(r.agg, (s: Stats) => s.failed) == r.failed
  }

  lemma SumOfUpdate(m: map<string, Stats>, k: string, v: Stats, f: Stats -> int)
    ensures SumOf(m[k := v], f) == SumOf(m, f) + f(v) - (if k in m then f(m[k]) else 0)
  {
    assert Part(m[k := v], f) == Part(m, f)[k := f(v)];
    MapSumUpdate(Part(m, f), k, f(v));
  }

  function Record(r: Report, key: Key): Report {
    var who := RecipientLabel(key);
    var a := if who in r.agg then r.agg[who] else Stats(0, 0, 0);
    if key.delivered then
      Report(r.total + 1, r.delivered + 1, r.failed, Bump(r.byAddress, key.address), Bump(r.byRecipient, who),
             r.agg[who := Stats(a.total + 1, a.delivered + 1, a.failed)])
    else
      Report(r.total + 1, r.delivered, r.failed + 1, Bump(r.byAddress, key.address), r.byRecipient,
             r.agg[who := Stats(a.total + 1, a.delivered, a.failed + 1)])
  }

  lemma RecordKeepsBalance(r: Report, key: Key)
    requires Balanced(r)
    ensures Balanced(Record(r, key))
  {
    var who := RecipientLabel(key);
    var v := Record(r, key).agg[who];
    MapSumUpdate(r.byAddress, key.address, Bump(r.byAddress, key.address)[key.address]);
    MapSumUpdate(r.byRecipient, who, Bump(r.byRecipient, who)[who]);
    SumOfUpdate(r.agg, who, v, (s: Stats) => s.total);
    SumOfUpdate(r.agg, who, v, (s: Stats) => s.delivered);
    SumOfUpdate(r.agg, who, v, (s: Stats) => s.failed);
  }

  const NOTHING := Report(0, 0, 0, map[], map[], map[])

  /** The report over the events that are not older than `since`. */
  function Summarize(events: seq<Event>, since: int): Report {
    if events == [] then NOTHING
    else
      var r, ev := Summarize(events[..|events| - 1], since), events[|events| - 1];
      if ev.at < since then r else Record(r, ev.key)
  }

  lemma {:induction false} SummaryBalanced(events: seq<Event>, since: int)
    ensures Balanced(Summarize(events, since))
  {
    if events == [] {
      EmptyBalanced();
    } else {
      SummaryBalanced(events[..|events| - 1], since);
      RecordKeepsBalance(Summarize(events[..|events| - 1], since), events[|events| - 1].key);
    }
  }

  /** How many events not older than `since` have a key of that kind. */
  ghost function Recent(events: seq<Event>, since: int, which: Key -> bool): nat {
    |set i | 0 <= i < |events| && events[i].at >= since && which(events[i].key)|
  }

  lemma {:induction false} RecentNext(events: seq<Event>, since: int, which: Key -> bool)
    requires events != []
    ensures var n := |events| - 1;
      Recent(events, since, which) ==
      Recent(events[..n], since, which) + if events[n].at >= since && which(events[n].key) then 1 else 0
  {
    var n := |events| - 1;
    var before := set i | 0 <= i < n && events[..n][i].at >= since && which(events[..n][i].key);
    var after := set i | 0 <= i < |events| && events[i].at >= since && which(events[i].key);
    assert after == if events[n].at >= since && which(events[n].key) then before + {n} else before;
  }

  function CountAt(m: map<string, int>, k: string): int {
    if k in m then m[k] else 0
  }

  function StatsAt(m: map<string, Stats>, k: string): Stats {
    if k in m then m[k] else Stats(0, 0, 0)
  }

  /** What the report says of everything, of an address and of a recipient. */
  ghost predicate Reports(r: Report, events: seq<Event>, since: int, a: string) {
    && r.total == Recent(events, since, _ => true)
    && r.delivered == Recent(events, since, (k: Key) => k.delivered)
    && r.failed == Recent(events, since, (k: Key) => !k.delivered)
    && CountAt(r.byAddress, a) == Recent(events, since, (k: Key) => k.address == a)
    && CountAt(r.byRecipient, a) == Recent(events, since, (k: Key) => RecipientLabel(k) == a && k.delivered)
    && StatsAt(r.agg, a) == Stats(Recent(events, since, (k: Key) => RecipientLabel(k) == a),
                                  Recent(events, since, (k: Key) => RecipientLabel(k) == a && k.delivered),
                                  Recent(events, since, (k: Key) => RecipientLabel(k) == a && !k.delivered))
  }

  /** The report counts the events that are not older than `since`, and no others. */
  lemma {:induction false} SummaryCounts(events: seq<Event>, since: int, a: string)
    ensures Reports(Summarize(events, since), events, since, a)
  {
    if events != [] {
      SummaryCounts(events[..|events| - 1], since, a);
      RecentNext(events, since, _ => true);
      RecentNext(events, since, (k: Key) => k.delivered);
      RecentNext(events, since, (k: Key) => !k.delivered);
      RecentNext(events, since, (k: Key) => k.address == a);
      RecentNext(events, since, (k: Key) => RecipientLabel(k) == a);
      RecentNext(events, since, (k: Key) => RecipientLabel(k) == a && k.delivered);
      RecentNext(events, since, (k: Key) => RecipientLabel(k) == a && !k.delivered);
    }
  }

  lemma LabelSamples()
    ensures RecipientLabel(Key("a@b", true, "7", "Bob")) == "Bob (id=7)"
    ensures RecipientLabel(Key("a@b", false, "", "")) == "unknown (id=unknown)"
  {
  }

  /** The aggregation loop of BuildLastDaysReport over the retained events. */
  method Aggregate(events: seq<Event>, since: int) returns (r: Report)
    ensures r == Summarize(events, since)
  {
    var total, delivered, failed := 0, 0, 0;
    var byAddress: map<string, int>, byRecipient: map<string, int>, agg: map<string, Stats> := map[], map[], map[];
    for i := 0 to |events|
      invariant Report(total, delivered, failed, byAddress, byRecipient, agg) == Summarize(events[..i], since)
    {
      var ev := events[i];
      assert events[..i + 1][..i] == events[..i];
      if ev.at < since {
        continue;
      }
      total := total + 1;
      byAddress := Bump(byAddress, ev.key.address);
      var who := RecipientLabel(ev.key);
      var a := if who in agg then agg[who] else Stats(0, 0, 0);
      a := a.(total := a.total + 1);
      if ev.key.delivered {
        delivered := delivered + 1;
        a := a.(delivered := a.delivered + 1);
        byRecipient := Bump(byRecipient, who);
      } else {
        failed := failed + 1;
        a := a.(failed := a.failed + 1);
      }
      agg := agg[who := a];
    }
    assert events[..|events|] == events;
    r := Report(total, delivered, failed, byAddress, byRecipient, agg);
  }

  lemma EmptyBalanced()
    ensures Balanced(NOTHING)
  {
  }

  // ----- ranking -----

  datatype KV = KV(key: string, value: int)

  /** Go's <= on strings: by bytes, a proper prefix first. */
  predicate StringLe(a: string, b: string) {
    a == "" || (b != "" && (a[0] < b[0] || (a[0] == b[0] && StringLe(a[1..], b[1..]))))
  }

  lemma {:induction false} StringLeTotal(a: string, b: string)
    ensures StringLe(a, b) || StringLe(b, a)
    ensures StringLe(a, b) && StringLe(b, a) ==> a == b
  {
    if a != "" && b != "" && a[0] == b[0] {
      StringLeTotal(a[1..], b[1..]);
      assert a == [a[0]] + a[1..] && b == [b[0]] + b[1..];
    }
  }

  lemma {:induction false} StringLeTransitive(a: string, b: string, c: string)
    requires StringLe(a, b) && StringLe(b, c)
    ensures StringLe(a, c)
  {
    if a != "" && a[0] == b[0] == c[0] {
      StringLeTransitive(a[1..], b[1..], c[1..]);
    }
  }

  /** Larger counts first, equal counts by key. */
  predicate RankLe(x: KV, y: KV) {
    x.value > y.value || (x.value == y.value && StringLe(x.key, y.key))
  }

  lemma RankLeOrder()
    ensures TotalPreorder(RankLe)
    ensures forall x, y :: RankLe(x, y) && RankLe(y, x) ==> x == y
  {
    forall x: KV, y: KV
      ensures RankLe(x, y) || RankLe(y, x)
      ensures RankLe(x, y) && RankLe(y, x) ==> x == y
    {
      StringLeTotal(x.key, y.key);
    }
    forall x: KV, y: KV, z: KV | RankLe(x, y) && RankLe(y, z)
      ensures RankLe(x, z)
    {
      if x.value == z.value {
        StringLeTransitive(x.key, y.key, z.key);
      }
    }
  }

  /** A complete ranking of the entries of a map. */
  ghost predicate IsRanking(xs: seq<KV>, m: map<string, int>) {
    && (forall x :: x in xs <==> x.key in m && m[x.key] == x.value)
    && SortedBy(RankLe, xs) && Distinct(xs)
  }

  lemma {:induction false} StrictOrderUnique(xs: seq<KV>, ys: seq<KV>)
    requires forall x :: x in xs <==> x in ys
    requires SortedBy(RankLe, xs) && Distinct(xs)
    requires SortedBy(RankLe, ys) && Distinct(ys)
    ensures xs == ys
  {
    if xs == [] {
      if ys != [] {
        HasElement(ys);
      }
    } else {
      assert xs[0] in ys && ys[0] in xs;
      RankLeOrder();
      assert RankLe(xs[0], ys[0]) && RankLe(ys[0], xs[0]);
      var xs', ys' := xs[1..], ys[1..];
      assert xs == [xs[0]] + xs' && ys == [ys[0]] + ys';
      forall x
        ensures x in xs' <==> x in ys'
      {
        assert x in xs' <==> x in xs && x != xs[0];
        assert x in ys' <==> x in ys && x != ys[0];
      }
      StrictOrderUnique(xs', ys');
    }
  }

  /** The ranking does not depend on the order in which the map is ranged over. */
  lemma RankingUnique(xs: seq<KV>, ys: seq<KV>, m: map<string, int>)
    requires IsRanking(xs, m) && IsRanking(ys, m)
    ensures xs == ys
  {
    StrictOrderUnique(xs, ys);
  }

  /** In byte order, a proper prefix first. */
  predicate Earlier(a: string, b: string, n: nat) {
    n <= |a| && n <= |b| && a[..n] == b[..n] && n < |b| && (n == |a| || a[n] < b[n])
  }

  lemma {:induction false} StringLeIs(a: string, b: string) returns (n: nat)
    requires StringLe(a, b) && a != b
    ensures Earlier(a, b, n)
  {
    n := 0;
    if a != "" && a[0] == b[0] {
      assert a == [a[0]] + a[1..] && b == [b[0]] + b[1..];
      n := StringLeIs(a[1..], b[1..]);
      assert a[..n + 1] == [a[0]] + a[1..][..n] && b[..n + 1] == [b[0]] + b[1..][..n];
      n := n + 1;
    }
  }

  /** Larger counts come first, and equal ones by their keys in byte order. */
  lemma RankingMeans(xs: seq<KV>, m: map<string, int>, i: nat, j: nat)
    requires IsRanking(xs, m) && i < j < |xs|
    ensures xs[i].key in m && xs[j].key in m
    ensures var u, v := xs[i].key, xs[j].key; m[u] > m[v] || (m[u] == m[v] && exists n :: Earlier(u, v, n))
  {
    assert xs[i] in xs && xs[j] in xs && RankLe(xs[i], xs[j]);
    if xs[i].value == xs[j].value {
      var n := StringLeIs(xs[i].key, xs[j].key);
    }
  }

  /** The first k entries of a ranking; without a positive k, all of it. */
  ghost predicate IsTop(items: seq<KV>, ranking: seq<KV>, m: map<string, int>, k: int) {
    IsRanking(ranking, m) && items == if k > 0 && |ranking| > k then ranking[..k] else ranking
  }

  method TopK(m: map<string, int>, k: int) returns (items: seq<KV>)
    ensures exists ranking :: IsTop(items, ranking, m, k)
    ensures |items| == if 0 < k < |m| then k else |m|
  {
    items := [];
    var todo := m.Keys;
    while todo != {}
      invariant todo <= m.Keys
      invariant forall x :: x in items <==> x.key in m && x.key !in todo && m[x.key] == x.value
      invariant Distinct(items) && |items| + |todo| == |m|
      decreases |todo|
    {
      var key :| key in todo;
      items := items + [KV(key, m[key])];
      todo := todo - {key};
    }
    ghost var collected := items;
    RankLeOrder();
    items := SortSlice(items, RankLe);
    SameElements(items, collected);
    DistinctPermutation(items, collected);
    ghost var ranking := items;
    if k > 0 && |items| > k {
      items := items[..k];
    }
    assert IsTop(items, ranking, m, k);
  }
}
