/** The file-backed store of internal/dlq/store.go. The clock, the new id and the outcome of
    writing the file are inputs. */
module DlqStore {
  import opened Support
  import opened DlqItems

  datatype Error = LoadFailed | PersistFailed | NotFound

  /** What a starting process finds in place of the queue file. An empty file holds no entries. */
  datatype Contents = Missing | Unreadable | Malformed | Entries(entries: seq<Item>)

  /** NewFileStore: fails exactly when there is a file that cannot be read or decoded. */
  method NewFileStore(file: Contents) returns (r: Result<FileStore, Error>)
    ensures r.Err? <==> file.Unreadable? || file.Malformed?
    ensures r.Err? ==> r.error == LoadFailed
    ensures r.Ok? ==> fresh(r.value) && r.value.Valid()
    ensures r.Ok? ==> r.value.disk == (if file.Entries? then Some(file.entries) else None)
    ensures r.Ok? ==> r.value.items == Reloaded(if file.Entries? then Decode(file.entries) else map[])
  {
    if file.Unreadable? || file.Malformed? {
      return Err(LoadFailed);
    }
    var store := new FileStore(if file.Entries? then Some(file.entries) else None);
    r := Ok(store);
  }

  class FileStore {
    var items: Items
    var disk: Option<seq<Item>>

    ghost predicate Valid()
      reads this
    {
      Keyed(items)
    }

    ghost function DiskItems(): Items
      reads this
    {
      DecodeFile(disk)
    }

    /** What a process that starts on this file sees. */
    constructor (file: Option<seq<Item>>)
      ensures Valid()
      ensures disk == file && items == Reloaded(DecodeFile(file))
      ensures forall id :: id in items ==>
        var item := DecodeFile(file)[id];
        items[id] == item.(status := if item.status == Processing then Pending else item.status,
                           fingerprint := if item.fingerprint == NoFingerprint
                                          then PayloadFingerprint(item.recipient, item.raw) else item.fingerprint)
    {
      items := map[];
      disk := file;
      new;
      if file.Some? {
        Load(file.value);
      }
    }

    method Load(data: seq<Item>)
      requires items == map[]
      modifies `items
      ensures items == Reloaded(Decode(data))
    {
      for i := 0 to |data|
        invariant items == Reloaded(Decode(data[..i]))
      {
        var item := data[i];
        if item.status == Processing {
          item := item.(status := Pending);
        }
        if item.fingerprint == NoFingerprint {
          item := item.(fingerprint := PayloadFingerprint(item.recipient, item.raw));
        }
        ReloadNext(data, i);
        items := items[item.id := item];
      }
      assert data[..|data|] == data;
    }

    /** Writes all items, oldest first, to a temporary file and renames it over the old one.
        A failure at any of the three steps leaves the file as it was. */
    method PersistLocked(ioOk: bool) returns (ok: bool)
      requires Valid()
      modifies `disk
      ensures ok == ioOk
      ensures !ok ==> disk == old(disk)
      ensures ok ==> disk.Some? && |disk.value| == |items| && DiskItems() == items
      ensures ok ==> SortedBy((a: Item, b: Item) => a.createdAt <= b.createdAt, disk.value)
    {
      if !ioOk {
        return false;
      }
      var all := Collect();
      var le := (a: Item, b: Item) => a.createdAt <= b.createdAt;
      var sorted := SortSlice(all, le);
      SameElements(sorted, all);
      DecodeSnapshot(sorted, items);
      disk := Some(sorted);
      ok := true;
    }

    /** Ranges over the map, whose order is not specified. */
    method Collect() returns (all: seq<Item>)
      requires Valid()
      ensures IsSnapshot(all, items) && |all| == |items| && Distinct(all)
    {
      all := [];
      var todo := items.Keys;
      while todo != {}
        invariant todo <= items.Keys
        invariant |all| + |todo| == |items|
        invariant forall id :: id in items && id !in todo ==> items[id] in all
        invariant forall x :: x in all ==> x.id in items && items[x.id] == x && x.id !in todo
        invariant Distinct(all)
        decreases |todo|
      {
        var id :| id in todo;
        assert items[id] !in all;
        all := all + [items[id]];
        todo := todo - {id};
      }
    }

    method Enqueue(recipient: string, raw: seq<byte>, lastErr: Option<string>, now: int, newId: string, ioOk: bool)
      returns (r: Result<Item, Error>)
      requires Valid() && newId !in items
      modifies this
      ensures Valid()
      ensures r.Ok? <==> ioOk
      ensures exists out :: Enqueued(old(items), items, recipient, raw, lastErr, now, newId, out) && (r.Ok? ==> r.value == out)
      ensures r.Ok? ==> r.value.id in items && items[r.value.id] == r.value
      ensures r.Ok? ==> r.value.fingerprint == PayloadFingerprint(recipient, raw)
      ensures AddedOrTouched(old(items), items, recipient, raw, lastErr, now, newId)
      ensures if ioOk then disk.Some? && DiskItems() == items else disk == old(disk)
    {
      var fingerprint := PayloadFingerprint(recipient, raw);
      var todo := items.Keys;
      while todo != {}
        invariant todo <= items.Keys
        invariant items == old(items) && disk == old(disk)
        invariant forall id :: id in items && Matches(items[id], fingerprint) ==> id in todo
        decreases |todo|
      {
        var id :| id in todo;
        var existing := items[id];
        if Matches(existing, fingerprint) {
          if lastErr.Some? {
            existing := existing.(lastError := lastErr.value);
          }
          existing := existing.(updatedAt := now);
          items := items[existing.id := existing];
          assert Enqueued(old(items), items, recipient, raw, lastErr, now, newId, existing);
          EnqueuedMeans(old(items), items, recipient, raw, lastErr, now, newId, existing);
          var saved := PersistLocked(ioOk);
          return if saved then Ok(existing) else Err(PersistFailed);
        }
        todo := todo - {id};
      }
      var item := NewItem(newId, recipient, raw, lastErr, now);
      items := items[item.id := item];
      assert Enqueued(old(items), items, recipient, raw, lastErr, now, newId, item);
      EnqueuedMeans(old(items), items, recipient, raw, lastErr, now, newId, item);
      var saved := PersistLocked(ioOk);
      r := if saved then Ok(item) else Err(PersistFailed);
    }

    /** Ranges over the map and keeps the due ids. */
    method CollectDue(now: int) returns (ids: seq<string>)
      ensures Distinct(ids) && forall id :: id in ids <==> id in DueIds(items, now)
    {
      ids := [];
      var todo := items.Keys;
      while todo != {}
        invariant todo <= items.Keys
        invariant Distinct(ids)
        invariant forall id :: id in ids <==> id in DueIds(items, now) && id !in todo
        decreases |todo|
      {
        var id :| id in todo;
        if IsDue(items[id], now) {
          ids := ids + [id];
        }
        todo := todo - {id};
      }
    }

    /** The due ids in order of their retry time, cut to the limit. */
    method DueInOrder(limit: int, now: int) returns (ids: seq<string>)
      ensures Picks(items, ids, limit, now)
      ensures FillsLimit(|ids|, limit, |set id | id in items && items[id].status == Pending && items[id].nextRetryAt <= now|)
      ensures EarliestDue(items, ids, now)
    {
      var collected := CollectDue(now);
      var m := items;
      var le := (a: string, b: string) => RetryTime(m, a) <= RetryTime(m, b);
      ids := SortSlice(collected, le);
      SameElements(ids, collected);
      DistinctPermutation(ids, collected);
      DistinctCount(ids, DueIds(items, now));
      assert forall i, j :: 0 <= i < j < |ids| ==> le(ids[i], ids[j]);
      CutPicks(items, ids, limit, now);
      var n := BatchLimit(limit);
      if |ids| > n {
        ids := ids[..n];
      }
      PicksMeans(items, ids, limit, now);
    }

    method MarkProcessing(chosen: seq<string>, now: int) returns (out: seq<Item>)
      requires Valid()
      requires Distinct(chosen) && forall id :: id in chosen ==> id in items
      modifies `items
      ensures Valid()
      ensures items == PickAll(old(items), chosen, now)
      ensures |out| == |chosen| && forall i :: 0 <= i < |chosen| ==> out[i] == items[chosen[i]]
    {
      out := [];
      for i := 0 to |chosen|
        invariant |out| == i && items == PickAll(old(items), chosen[..i], now)
        invariant forall k :: 0 <= k < i ==> out[k] == items[chosen[k]]
      {
        var id := chosen[i];
        assert id !in chosen[..i];
        assert forall x :: x in chosen[..i + 1] <==> x in chosen[..i] || x == id;
        var item := items[id];
        item := item.(status := Processing);
        item := item.(updatedAt := now);
        items := items[id := item];
        out := out + [item];
      }
      assert chosen[..|chosen|] == chosen;
    }

    method PickDue(limit: int, now: int, ioOk: bool) returns (r: Result<seq<Item>, Error>, ghost ids: seq<string>)
      requires Valid()
      modifies this
      ensures Valid()
      ensures Picks(old(items), ids, limit, now) && items == PickAll(old(items), ids, now)
      ensures var m := old(items);
        && FillsLimit(|ids|, limit, |set id | id in m && m[id].status == Pending && m[id].nextRetryAt <= now|)
        && EarliestDue(m, ids, now)
      ensures items.Keys == old(items).Keys && forall id :: id in items ==>
        items[id] == if id in ids then old(items)[id].(status := Processing, updatedAt := now) else old(items)[id]
      ensures r.Ok? <==> ids == [] || ioOk
      ensures r.Ok? ==> |r.value| == |ids| && forall i :: 0 <= i < |ids| ==> ids[i] in items && r.value[i] == items[ids[i]]
      ensures if ids != [] && ioOk then disk.Some? && DiskItems() == items else disk == old(disk)
    {
      var chosen := DueInOrder(limit, now);
      ids := chosen;
      var out := MarkProcessing(chosen, now);
      if |out| > 0 {
        var saved := PersistLocked(ioOk);
        if !saved {
          return Err(PersistFailed), ids;
        }
      }
      return Ok(out), ids;
    }

    method MarkDone(id: string, now: int, ioOk: bool) returns (r: Result<(), Error>)
      requires Valid()
      modifies this
      ensures Valid()
      ensures id !in old(items) ==> r == Err(NotFound) && items == old(items) && disk == old(disk)
      ensures id in old(items) ==> r == if ioOk then Ok(()) else Err(PersistFailed)
      ensures id in old(items) ==> items == old(items)[id := DoneItem(old(items)[id], now)]
      ensures id in old(items) ==> items[id] == old(items)[id].(status := Done, updatedAt := now)
      ensures id in old(items) ==> if ioOk then disk.Some? && DiskItems() == items else disk == old(disk)
    {
      if id !in items {
        return Err(NotFound);
      }
      var item := items[id];
      item := item.(status := Done);
      item := item.(updatedAt := now);
      items := items[id := item];
      var saved := PersistLocked(ioOk);
      r := if saved then Ok(()) else Err(PersistFailed);
    }

    method MarkRetry(id: string, nextRetryAt: int, lastErr: Option<string>, maxRetries: int, now: int, ioOk: bool)
      returns (r: Result<(), Error>)
      requires Valid()
      modifies this
      ensures Valid()
      ensures id !in old(items) ==> r == Err(NotFound) && items == old(items) && disk == old(disk)
      ensures id in old(items) ==> r == if ioOk then Ok(()) else Err(PersistFailed)
      ensures id in old(items) ==>
        items == old(items)[id := RetryItem(old(items)[id], nextRetryAt, lastErr, maxRetries, now)]
      ensures id in old(items) ==>
        var item := old(items)[id];
        var over := maxRetries > 0 && item.attempt + 1 >= maxRetries;
        items[id] == item.(attempt := item.attempt + 1, updatedAt := now, status := if over then Failed else Pending,
                           nextRetryAt := if over then item.nextRetryAt else nextRetryAt,
                           lastError := if lastErr.Some? then lastErr.value else item.lastError)
      ensures id in old(items) ==> if ioOk then disk.Some? && DiskItems() == items else disk == old(disk)
    {
      if id !in items {
        return Err(NotFound);
      }
      var item := items[id];
      item := item.(attempt := item.attempt + 1);
      item := item.(updatedAt := now);
      if lastErr.Some? {
        item := item.(lastError := lastErr.value);
      }
      if maxRetries > 0 && item.attempt >= maxRetries {
        item := item.(status := Failed);
      } else {
        item := item.(status := Pending);
        item := item.(nextRetryAt := nextRetryAt);
      }
      items := items[id := item];
      var saved := PersistLocked(ioOk);
      r := if saved then Ok(()) else Err(PersistFailed);
    }
  }
}
