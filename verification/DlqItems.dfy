/** The items of the dead-letter queue and what each store operation may do to them
    (internal/dlq/store.go). Times are integers; a lock makes every operation atomic. */
module DlqItems {
  import opened Support

  datatype Status = Pending | Processing | Done | Failed

  /** SHA-256 is taken to be free of collisions, so a digest is as good as the text it was
      computed from. Files of older versions carry no fingerprint. */
  datatype Fingerprint = NoFingerprint | Sha256(preimage: string)

  datatype Item = Item(
    id: string, fingerprint: Fingerprint, recipient: string, raw: seq<byte>, lastError: string,
    status: Status, attempt: int, nextRetryAt: int, createdAt: int, updatedAt: int)

  datatype Payload = Payload(recipient: string, raw: seq<byte>)

  type Items = map<string, Item>

  function PayloadOf(item: Item): Payload {
    Payload(item.recipient, item.raw)
  }

  predicate IsLive(item: Item) {
    item.status == Pending || item.status == Processing
  }

  const DIGITS := "0123456789abcdef"

  /** fmt's %x: two lower-case digits a byte. */
  function Hex(raw: seq<byte>): (h: string)
    ensures |h| == 2 * |raw|
    ensures '|' !in h
  {
    if raw == [] then "" else
      var b := raw[0] as int;
      [DIGITS[b / 16], DIGITS[b % 16]] + Hex(raw[1..])
  }

  function PreHash(p: Payload): string {
    p.recipient + "|" + Hex(p.raw)
  }

  function PayloadFingerprint(recipient: string, raw: seq<byte>): Fingerprint {
    Sha256(PreHash(Payload(recipient, raw)))
  }

  lemma DigitsDistinct(i: nat, j: nat)
    requires i < 16 && j < 16 && DIGITS[i] == DIGITS[j]
    ensures i == j
  {
  }

  /** The text that is hashed: the recipient, a bar, and the message in hexadecimal. */
  lemma {:induction false} PreHashSample()
    ensures PreHash(Payload("a@b", ['A', '\n'])) == "a@b|410a"
  {
    assert Hex(['\n']) == "0a" && Hex(['A', '\n']) == "41" + Hex(['A', '\n'][1..]);
  }

  lemma {:induction false} HexInjective(a: seq<byte>, b: seq<byte>)
    requires Hex(a) == Hex(b)
    ensures a == b
  {
    if a != [] {
      assert |a| == |b|;
      var x, y := a[0] as int, b[0] as int;
      assert Hex(a)[0] == Hex(b)[0] && Hex(a)[1] == Hex(b)[1];
      DigitsDistinct(x / 16, y / 16);
      DigitsDistinct(x % 16, y % 16);
      assert x == y;
      assert Hex(a)[2..] == Hex(a[1..]) && Hex(b)[2..] == Hex(b[1..]);
      HexInjective(a[1..], b[1..]);
      assert a == [a[0]] + a[1..] && b == [b[0]] + b[1..];
    }
  }

  lemma LastBar(p: Payload)
    ensures |PreHash(p)| > |p.recipient| && PreHash(p)[|p.recipient|] == '|'
    ensures forall i :: |p.recipient| < i < |PreHash(p)| ==> PreHash(p)[i] != '|'
  {
  }

  /** Two payloads share a fingerprint exactly when they are the same payload: the hex half has
      no bar, so the last bar of the hashed text ends the recipient even if that has bars. */
  lemma FingerprintIdentifies(p: Payload, q: Payload)
    ensures PayloadFingerprint(p.recipient, p.raw) == PayloadFingerprint(q.recipient, q.raw) <==> p == q
  {
    if PreHash(p) == PreHash(q) {
      var s, t := PreHash(p), PreHash(q);
      var m, n := |p.recipient|, |q.recipient|;
      LastBar(p);
      LastBar(q);
      assert m == n;
      assert p.recipient == s[..m] == t[..n];
      assert Hex(p.raw) == s[m + 1..] == t[n + 1..];
      HexInjective(p.raw, q.raw);
    }
  }

  // ----- what the operations do to the items in memory -----

  predicate Keyed(m: Items) {
    forall id :: id in m ==> m[id].id == id
  }

  /** Enqueue's test for an earlier live copy of the payload. */
  predicate Matches(item: Item, fp: Fingerprint) {
    item.fingerprint != NoFingerprint && item.fingerprint == fp && IsLive(item)
  }

  function NewItem(id: string, recipient: string, raw: seq<byte>, lastErr: Option<string>, now: int): Item {
    Item(id, PayloadFingerprint(recipient, raw), recipient, raw,
         if lastErr.Some? then lastErr.value else "", Pending, 0, now, now, now)
  }

  function Touch(item: Item, lastErr: Option<string>, now: int): Item {
    item.(lastError := if lastErr.Some? then lastErr.value else item.lastError, updatedAt := now)
  }

  /** Enqueue either touches one live item with the payload's fingerprint or, when there is
      none, adds a pending item under the new id. */
  ghost predicate Enqueued(m: Items, m': Items, recipient: string, raw: seq<byte>,
                           lastErr: Option<string>, now: int, newId: string, out: Item) {
    var fp := PayloadFingerprint(recipient, raw);
    if exists id :: id in m && Matches(m[id], fp)
    then out.id in m && Matches(m[out.id], fp) && out == Touch(m[out.id], lastErr, now) && m' == m[out.id := out]
    else out == NewItem(newId, recipient, raw, lastErr, now) && m' == m[newId := out]
  }

  /** Field by field: what is new in the table, and what may have become of an earlier item. */
  ghost predicate AddedOrTouched(m: Items, m': Items, recipient: string, raw: seq<byte>, lastErr: Option<string>, now: int,
                                 newId: string) {
    && (forall id :: id in m' && id !in m ==>
          m'[id] == Item(newId, PayloadFingerprint(recipient, raw), recipient, raw,
                         if lastErr.Some? then lastErr.value else "", Pending, 0, now, now, now))
    && (forall id :: id in m ==> id in m')
    && (forall id :: id in m && m'[id] != m[id] ==>
          && m[id].status in {Pending, Processing} && m[id].fingerprint == PayloadFingerprint(recipient, raw)
          && m'[id] == m[id].(lastError := if lastErr.Some? then lastErr.value else m[id].lastError, updatedAt := now))
  }

  lemma EnqueuedMeans(m: Items, m': Items, recipient: string, raw: seq<byte>, lastErr: Option<string>, now: int,
                      newId: string, out: Item)
    requires Keyed(m) && newId !in m && Enqueued(m, m', recipient, raw, lastErr, now, newId, out)
    ensures AddedOrTouched(m, m', recipient, raw, lastErr, now, newId)
  {
  }

  predicate IsDue(item: Item, now: int) {
    item.status == Pending && item.nextRetryAt <= now
  }

  function DueIds(m: Items, now: int): set<string> {
    set id | id in m && IsDue(m[id], now)
  }

  function BatchLimit(limit: int): (n: nat)
    ensures n > 0
  {
    if limit <= 0 then 10 else limit
  }

  function RetryTime(m: Items, id: string): int {
    if id in m then m[id].nextRetryAt else 0
  }

  /** The ids PickDue may choose: as many due items as the limit allows, the earliest ones,
      in order of their retry time. */
  ghost predicate Picks(m: Items, ids: seq<string>, limit: int, now: int) {
    && Distinct(ids)
    && (forall id :: id in ids ==> id in DueIds(m, now))
    && |ids| == (if |DueIds(m, now)| <= BatchLimit(limit) then |DueIds(m, now)| else BatchLimit(limit))
    && (forall i, j :: 0 <= i < j < |ids| ==> RetryTime(m, ids[i]) <= RetryTime(m, ids[j]))
    && (forall p, id :: p in ids && id in DueIds(m, now) && id !in ids ==> RetryTime(m, p) <= RetryTime(m, id))
  }

  /** All due ids in order of their retry time, cut to the limit. */
  lemma CutPicks(m: Items, all: seq<string>, limit: int, now: int)
    requires Distinct(all) && (forall id :: id in all <==> id in DueIds(m, now)) && |all| == |DueIds(m, now)|
    requires forall i, j :: 0 <= i < j < |all| ==> RetryTime(m, all[i]) <= RetryTime(m, all[j])
    ensures Picks(m, if |all| > BatchLimit(limit) then all[..BatchLimit(limit)] else all, limit, now)
  {
    if |all| > BatchLimit(limit) {
      assert all == all[..BatchLimit(limit)] + all[BatchLimit(limit)..];
    }
  }

  /** How many of that many due items a limit lets through; without one it is ten. */
  ghost predicate FillsLimit(n: nat, limit: int, due: nat) {
    && (limit > 0 ==> n == if due < limit then due else limit)
    && (limit <= 0 ==> n == if due < 10 then due else 10)
  }

  /** The ids are those of waiting items whose time has come, the earliest first, and no other such
      item is earlier. */
  ghost predicate EarliestDue(m: Items, ids: seq<string>, now: int) {
    && (forall id :: id in ids ==> id in m && m[id].status == Pending && m[id].nextRetryAt <= now)
    && (forall i, j :: 0 <= i < j < |ids| ==> ids[i] in m && ids[j] in m && m[ids[i]].nextRetryAt <= m[ids[j]].nextRetryAt)
    && (forall p, id :: p in ids && id in m && m[id].status == Pending && m[id].nextRetryAt <= now && id !in ids ==>
          p in m && m[p].nextRetryAt <= m[id].nextRetryAt)
  }

  /** As many as are due, up to the limit, and the earliest ones. */
  lemma PicksMeans(m: Items, ids: seq<string>, limit: int, now: int)
    requires Picks(m, ids, limit, now)
    ensures FillsLimit(|ids|, limit, |set id | id in m && m[id].status == Pending && m[id].nextRetryAt <= now|)
    ensures EarliestDue(m, ids, now)
  {
    assert DueIds(m, now) == set id | id in m && m[id].status == Pending && m[id].nextRetryAt <= now;
    assert forall i :: 0 <= i < |ids| ==> ids[i] in DueIds(m, now);
    forall p, id | p in ids && id in m && m[id].status == Pending && m[id].nextRetryAt <= now && id !in ids
      ensures p in m && m[p].nextRetryAt <= m[id].nextRetryAt
    {
      assert id in DueIds(m, now) && p in DueIds(m, now);
    }
  }

  function PickItem(item: Item, now: int): Item {
    item.(status := Processing, updatedAt := now)
  }

  function PickAll(m: Items, ids: seq<string>, now: int): Items {
    map id | id in m :: if id in ids then PickItem(m[id], now) else m[id]
  }

  function DoneItem(item: Item, now: int): Item {
    item.(status := Done, updatedAt := now)
  }

  function RetryItem(item: Item, next: int, lastErr: Option<string>, maxRetries: int, now: int): Item {
    var it := Touch(item, lastErr, now).(attempt := item.attempt + 1);
    if maxRetries > 0 && it.attempt >= maxRetries then it.(status := Failed)
    else it.(status := Pending, nextRetryAt := next)
  }

  /** What loading a file does to one item. */
  function ReloadItem(item: Item): Item {
    item.(status := if item.status == Processing then Pending else item.status,
          fingerprint := if item.fingerprint == NoFingerprint
                         then PayloadFingerprint(item.recipient, item.raw) else item.fingerprint)
  }

  function Reloaded(m: Items): Items {
    map id | id in m :: ReloadItem(m[id])
  }

  // ----- working through a batch -----

  ghost predicate DistinctIds(xs: seq<Item>) {
    forall i, j :: 0 <= i < j < |xs| ==> xs[i].id != xs[j].id
  }

  predicate AmongFirst(chosen: seq<Item>, k: nat, id: string)
    requires k <= |chosen|
  {
    exists i :: 0 <= i < k && chosen[i].id == id
  }

  ghost predicate OthersSame(m: Items, m': Items, chosen: seq<Item>, k: nat)
    requires m'.Keys == m.Keys && k <= |chosen|
  {
    forall id :: id in m && !AmongFirst(chosen, k, id) ==> m'[id] == m[id]
  }

  lemma OthersOneMore(m: Items, m1: Items, m2: Items, chosen: seq<Item>, k: nat)
    requires k < |chosen| && chosen[k].id in m && m1.Keys == m2.Keys == m.Keys
    requires OthersSame(m, m1, chosen, k) && m2 == m1[chosen[k].id := m2[chosen[k].id]]
    ensures OthersSame(m, m2, chosen, k + 1)
  {
  }

  /** The table half-way from m to m': the first k chosen items have been dealt with. */
  ghost predicate HalfWay(m: Items, m': Items, chosen: seq<Item>, k: nat, d: Items)
    requires m'.Keys == m.Keys && k <= |chosen|
  {
    d.Keys == m.Keys && forall id :: id in m ==> d[id] == if AmongFirst(chosen, k, id) then m'[id] else m[id]
  }

  /** How far the batch had come at the last write that succeeded. */
  function LastSaved(saves: seq<bool>): (k: nat)
    ensures k <= |saves|
  {
    if saves == [] then 0 else if saves[|saves| - 1] then |saves| else LastSaved(saves[..|saves| - 1])
  }

  /** The file while a batch is worked through: as it was until the first write succeeds, then
      the table as of the last one that did. */
  ghost predicate FileFollows(m: Items, m': Items, disk: Option<seq<Item>>, disk': Option<seq<Item>>,
                              chosen: seq<Item>, saves: seq<bool>)
    requires m'.Keys == m.Keys && |saves| <= |chosen|
  {
    if LastSaved(saves) == 0 then disk' == disk else HalfWay(m, m', chosen, LastSaved(saves), DecodeFile(disk'))
  }

  lemma FileOneMore(m: Items, m1: Items, m2: Items, disk: Option<seq<Item>>, disk1: Option<seq<Item>>, disk2: Option<seq<Item>>,
                    chosen: seq<Item>, saves: seq<bool>, saved: bool)
    requires |saves| < |chosen| && DistinctIds(chosen) && m1.Keys == m2.Keys == m.Keys
    requires OthersSame(m, m1, chosen, |saves|) && FileFollows(m, m1, disk, disk1, chosen, saves)
    requires var id := chosen[|saves|].id; id in m && m2 == m1[id := m2[id]]
    requires if saved then DecodeFile(disk2) == m2 else disk2 == disk1
    ensures OthersSame(m, m2, chosen, |saves| + 1) && FileFollows(m, m2, disk, disk2, chosen, saves + [saved])
  {
    assert (saves + [saved])[..|saves|] == saves;
    OthersOneMore(m, m1, m2, chosen, |saves|);
    if !saved && LastSaved(saves) > 0 {
      HalfWayStays(m, m1, m2, chosen, LastSaved(saves), |saves|, DecodeFile(disk1));
    }
  }

  lemma HalfWayStays(m: Items, m1: Items, m2: Items, chosen: seq<Item>, j: nat, k: nat, d: Items)
    requires j <= k < |chosen| && DistinctIds(chosen) && m1.Keys == m2.Keys == m.Keys
    requires HalfWay(m, m1, chosen, j, d)
    requires chosen[k].id in m && m2 == m1[chosen[k].id := m2[chosen[k].id]]
    ensures HalfWay(m, m2, chosen, j, d)
  {
    assert !AmongFirst(chosen, j, chosen[k].id);
  }

  // ----- the file -----

  /** The items a file stands for: a later entry with the same id replaces an earlier one. */
  function Decode(xs: seq<Item>): (m: Items)
    ensures Keyed(m)
  {
    if xs == [] then map[] else Decode(xs[..|xs| - 1])[xs[|xs| - 1].id := xs[|xs| - 1]]
  }

  function DecodeFile(file: Option<seq<Item>>): (m: Items)
    ensures Keyed(m)
  {
    if file.None? then map[] else Decode(file.value)
  }

  ghost predicate IsSnapshot(xs: seq<Item>, m: Items) {
    && (forall id :: id in m ==> m[id] in xs)
    && (forall x :: x in xs ==> x.id in m && m[x.id] == x)
  }

  /** A file that lists exactly the items of a table reads back as that table, in any order. */
  lemma {:induction false} DecodeSnapshot(xs: seq<Item>, m: Items)
    requires Keyed(m) && IsSnapshot(xs, m)
    ensures Decode(xs) == m
  {
    DecodeEntries(xs, m);
    assert forall id :: id in m ==> m[id].id in Decode(xs);
  }

  lemma {:induction false} ReloadNext(xs: seq<Item>, i: nat)
    requires i < |xs|
    ensures Reloaded(Decode(xs[..i + 1])) == Reloaded(Decode(xs[..i]))[xs[i].id := ReloadItem(xs[i])]
  {
    assert xs[..i + 1][..i] == xs[..i];
  }

  /** Of entries with the same id the last one counts. */
  lemma {:induction false} LastEntryCounts(xs: seq<Item>, i: nat)
    requires i < |xs| && forall j :: i < j < |xs| ==> xs[j].id != xs[i].id
    ensures xs[i].id in Decode(xs) && Decode(xs)[xs[i].id] == xs[i]
    decreases |xs|
  {
    if i < |xs| - 1 {
      LastEntryCounts(xs[..|xs| - 1], i);
    }
  }

  lemma {:induction false} DecodeEntries(xs: seq<Item>, m: Items)
    requires forall x :: x in xs ==> x.id in m && m[x.id] == x
    ensures forall x :: x in xs ==> x.id in Decode(xs)
    ensures forall id :: id in Decode(xs) ==> id in m && Decode(xs)[id] == m[id]
  {
    if xs != [] {
      var n := |xs| - 1;
      DecodeEntries(xs[..n], m);
      assert xs == xs[..n] + [xs[n]];
    }
  }
}
