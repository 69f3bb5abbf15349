/** Manual replays: Replay and ReplayBatch of internal/dlq/admin.go. Clock readings and the
    outcomes of sending and of writing the file are arbitrary. */
module DlqAdmin {
  import opened Support
  import opened Text
  import opened DlqItems
  import opened DlqStore
  import opened DlqWorker
  import opened Backoff

  /** What Replay tells the administrator; saved says whether the file was written. */
  datatype Answer = Usage | Unknown | Sent(saved: bool) | NotSent(saved: bool)

  datatype BatchAnswer = BadArguments | NothingToDo | Report(total: nat, okCount: nat, failCount: nat)

  const LIST_MAX := 1000000

  /** What a replay by hand makes of an item, whatever its status. */
  ghost predicate AfterReplay(maxRetries: int, base: int, max: int, item: Item, after: Item, ok: bool)
    requires IsInt64(base) && IsInt64(max)
  {
    exists at: int, message: string :: AfterReplayAt(maxRetries, base, max, item, after, ok, at, message)
  }

  ghost predicate AfterReplayAt(maxRetries: int, base: int, max: int, item: Item, after: Item, ok: bool, at: int, message: string)
    requires IsInt64(base) && IsInt64(max)
  {
    after == if ok then DoneItem(item, at)
             else RetryItem(item, at + NextDelay(item.attempt + 1, base, max), Some(message), maxRetries, at)
  }

  /** Out of tries, and neither waiting nor running. */
  predicate IsSpent(item: Item, maxRetries: int) {
    !IsLive(item) && item.attempt >= maxRetries
  }

  lemma SpentStaysSpent(maxRetries: int, base: int, max: int, item: Item, after: Item, ok: bool)
    requires IsInt64(base) && IsInt64(max) && maxRetries > 0 && IsSpent(item, maxRetries)
    requires AfterReplay(maxRetries, base, max, item, after, ok)
    ensures IsSpent(after, maxRetries) && after.nextRetryAt == item.nextRetryAt
    ensures after.status == if ok then Done else Failed
  {
  }

  /** A manual replay that fails counts as well, and without jitter. */
  lemma FailureWaits(maxRetries: int, base: int, max: int, item: Item, after: Item)
    requires IsInt64(base) && IsInt64(max) && AfterReplay(maxRetries, base, max, item, after, false)
    ensures after.attempt == item.attempt + 1
    ensures after.status == if maxRetries > 0 && after.attempt >= maxRetries then Failed else Pending
    ensures after.status == Pending ==> after.nextRetryAt == after.updatedAt + NextDelay(after.attempt, base, max)
  {
  }

  /** parseReplayBatchMode: the status to look for. */
  function ParseMode(mode: string): Option<Status> {
    var v := Norm(mode);
    if v == "" || v == "only_pending" then Some(Pending)
    else if v == "only_failed" then Some(Failed)
    else None
  }

  const PENDING_WORD := "only_pending"
  const FAILED_WORD := "only_failed"

  lemma WordsAreLower()
    ensures forall i :: 0 <= i < |PENDING_WORD| ==> !('A' <= PENDING_WORD[i] <= 'Z')
    ensures forall i :: 0 <= i < |FAILED_WORD| ==> !('A' <= FAILED_WORD[i] <= 'Z')
    ensures |PENDING_WORD| != |FAILED_WORD|
  {
  }

  lemma ModeOf(v: string, mode: string)
    requires v == Norm(mode)
    ensures v == "" || v == PENDING_WORD ==> ParseMode(mode) == Some(Pending)
    ensures v != "" && v != PENDING_WORD ==> ParseMode(mode) == if v == FAILED_WORD then Some(Failed) else None
  {
  }

  /** Nothing or only_pending asks for waiting items, only_failed for those given up, in any case of
      the letters; anything else is refused. */
  lemma {:induction false} ParseModeIff(mode: string)
    ensures ParseMode(mode) == Some(Pending) <==> TrimSpace(mode) == "" || SameText(TrimSpace(mode), "only_pending")
    ensures ParseMode(mode) == Some(Failed) <==> SameText(TrimSpace(mode), "only_failed")
    ensures ParseMode(mode).None? || ParseMode(mode).value in {Pending, Failed}
  {
    WordsAreLower();
    ModeOf(Norm(mode), mode);
    LowerTrimCommute(mode);
    NormIs(mode, PENDING_WORD);
    NormIs(mode, FAILED_WORD);
  }

  /** The items with the given status, in order. */
  function WithStatus(xs: seq<Item>, want: Status): (r: seq<Item>)
    ensures forall x :: x in r <==> x in xs && x.status == want
  {
    if xs == [] then [] else
      var n := |xs| - 1;
      assert xs == xs[..n] + [xs[n]];
      WithStatus(xs[..n], want) + if xs[n].status == want then [xs[n]] else []
  }

  ghost predicate NewestFirst(xs: seq<Item>) {
    forall i, j :: 0 <= i < j < |xs| ==> xs[i].updatedAt >= xs[j].updatedAt
  }

  lemma {:induction false} WithStatusKeeps(xs: seq<Item>, want: Status)
    requires DistinctIds(xs) && NewestFirst(xs)
    ensures DistinctIds(WithStatus(xs, want)) && NewestFirst(WithStatus(xs, want))
  {
    if xs != [] {
      var n := |xs| - 1;
      WithStatusKeeps(xs[..n], want);
      forall x | x in WithStatus(xs[..n], want)
        ensures x.id != xs[n].id && x.updatedAt >= xs[n].updatedAt
      {
        assert x in xs[..n];
      }
    }
  }

  lemma {:induction false} WithStatusGrows(xs: seq<Item>, n: nat, want: Status)
    requires n <= |xs|
    ensures WithStatus(xs[..n], want) <= WithStatus(xs, want)
    decreases |xs|
  {
    if n < |xs| {
      assert xs[..|xs| - 1][..n] == xs[..n];
      WithStatusGrows(xs[..|xs| - 1], n, want);
    } else {
      assert xs[..n] == xs;
    }
  }

  /** The items a batch replays: of the wanted status, the most recently touched ones, and all of
      them when the limit is not reached and the queue is not larger than a listing. */
  ghost predicate BatchChoice(m: Items, chosen: seq<Item>, want: Status, limit: int) {
    && DistinctIds(chosen) && NewestFirst(chosen) && |chosen| <= limit
    && (forall x :: x in chosen ==> x.id in m && m[x.id] == x && x.status == want)
    && (|chosen| < limit && |m| <= 1_000_000 ==> forall id :: id in m && m[id].status == want ==> m[id] in chosen)
    && (forall x, id :: x in chosen && id in m && m[id].status == want && m[id] !in chosen ==> m[id].updatedAt <= x.updatedAt)
  }

  function ListLimit(limit: int): (n: nat)
    ensures n > 0
  {
    if limit <= 0 then 20 else limit
  }

  predicate NotOlder(a: Item, b: Item) {
    a.updatedAt >= b.updatedAt
  }

  lemma SortedListing(m: Items, collected: seq<Item>, sorted: seq<Item>)
    requires Keyed(m) && IsSnapshot(collected, m) && |collected| == |m| && Distinct(collected)
    requires multiset(sorted) == multiset(collected) && SortedBy(NotOlder, sorted)
    ensures IsSnapshot(sorted, m) && |sorted| == |m| && DistinctIds(sorted) && NewestFirst(sorted)
  {
    SameElements(sorted, collected);
    DistinctPermutation(sorted, collected);
    forall i, j | 0 <= i < j < |sorted|
      ensures sorted[i].id != sorted[j].id && NotOlder(sorted[i], sorted[j])
    {
      assert sorted[i] in sorted && sorted[j] in sorted;
    }
  }

  /** A sorted listing of the table, cut to the limit. */
  ghost predicate IsListing(m: Items, all: seq<Item>, out: seq<Item>, limit: nat) {
    && IsSnapshot(all, m) && |all| == |m| && DistinctIds(all) && NewestFirst(all)
    && out == FirstOf(all, limit)
  }

  /** What is selected from a listing begins the list of all wanted items, and is that list if
      neither limit cut it. */
  lemma {:induction false} SelectedFirst(all: seq<Item>, out: seq<Item>, chosen: seq<Item>, want: Status, limit: nat)
    requires out == FirstOf(all, LIST_MAX) && chosen == FirstOf(WithStatus(out, want), limit)
    ensures chosen <= WithStatus(all, want) && |chosen| <= limit
    ensures |chosen| < limit && |all| <= LIST_MAX ==> chosen == WithStatus(all, want)
  {
    CutIsPrefix(all, LIST_MAX);
    assert out == all[..|out|];
    WithStatusGrows(all, |out|, want);
    CutIsPrefix(WithStatus(out, want), limit);
  }

  lemma CutIsPrefix<T>(xs: seq<T>, n: nat)
    ensures FirstOf(xs, n) <= xs && |FirstOf(xs, n)| <= n
    ensures |xs| <= n || |FirstOf(xs, n)| < n ==> FirstOf(xs, n) == xs
  {
  }

  lemma {:induction false} ListingChoice(m: Items, all: seq<Item>, out: seq<Item>, chosen: seq<Item>, want: Status, limit: nat)
    requires Keyed(m) && IsListing(m, all, out, LIST_MAX)
    requires limit > 0 && chosen == FirstOf(WithStatus(out, want), limit)
    ensures BatchChoice(m, chosen, want, limit)
  {
    SelectedFirst(all, out, chosen, want, limit);
    WithStatusKeeps(all, want);
    PrefixChoice(m, WithStatus(all, want), chosen, want, limit);
  }

  function FirstOf<T>(xs: seq<T>, n: nat): seq<T> {
    if |xs| > n then xs[..n] else xs
  }

  lemma {:induction false} EnoughFound(xs: seq<Item>, n: nat, want: Status, limit: nat)
    requires n <= |xs| && |WithStatus(xs[..n], want)| == limit
    ensures FirstOf(WithStatus(xs, want), limit) == WithStatus(xs[..n], want)
  {
    WithStatusGrows(xs, n, want);
  }

  lemma PrefixChoice(m: Items, every: seq<Item>, chosen: seq<Item>, want: Status, limit: nat)
    requires DistinctIds(every) && NewestFirst(every) && chosen <= every && |chosen| <= limit
    requires forall x :: x in every ==> x.id in m && m[x.id] == x && x.status == want
    requires forall id :: id in m && m[id].status == want ==> m[id] in every
    requires |chosen| < limit && |m| <= LIST_MAX ==> chosen == every
    ensures BatchChoice(m, chosen, want, limit)
  {
    assert forall x :: x in chosen ==> x in every;
    assert NewestFirst(chosen) by {
      assert forall i :: 0 <= i < |chosen| ==> chosen[i] == every[i];
    }
    forall x, id | x in chosen && id in m && m[id].status == want && m[id] !in chosen
      ensures m[id].updatedAt <= x.updatedAt
    {
      var i :| 0 <= i < |chosen| && chosen[i] == x;
      var j :| 0 <= j < |every| && every[j] == m[id];
      assert j >= |chosen|;
    }
  }

  /** Ids without surrounding space, as the store's own hexadecimal ones. */
  ghost predicate CleanIds(m: Items) {
    forall id :: id in m ==> id != "" && TrimSpace(id) == id
  }

  /** The table, the file and the relay calls so far. */
  datatype View = View(items: Items, disk: Option<seq<Item>>, calls: seq<Replayed>)

  class Admin {
    const store: FileStore
    const maxRetries: int
    const baseDelay: int
    const maxDelay: int
    ghost var calls: seq<Replayed>

    constructor (store: FileStore, maxRetries: int, baseDelay: int, maxDelay: int)
      ensures this.store == store && this.maxRetries == maxRetries && this.baseDelay == baseDelay && this.maxDelay == maxDelay
      ensures calls == []
    {
      this.store, this.maxRetries, this.baseDelay, this.maxDelay := store, maxRetries, baseDelay, maxDelay;
      calls := [];
    }

    ghost predicate After(item: Item, after: Item, ok: bool)
      requires IsInt64(baseDelay) && IsInt64(maxDelay)
    {
      AfterReplay(maxRetries, baseDelay, maxDelay, item, after, ok)
    }

    ghost function Now(): View
      reads this, store
    {
      View(store.items, store.disk, calls)
    }

    /** What Replay does: nothing for a blank or unknown id; else one relay call with the payload of
        the item that the trimmed id names, whatever its status, and one mark by its outcome. */
    ghost predicate ReplayOf(v: View, id: string, answer: Answer, v': View)
      requires IsInt64(baseDelay) && IsInt64(maxDelay)
    {
      var key := TrimSpace(id);
      if key == "" then answer == Usage && v' == v
      else if key !in v.items then answer == Unknown && v' == v
      else
        && Attempted(answer) && key in v'.items && v'.items == v.items[key := v'.items[key]]
        && v'.calls == v.calls + [Replayed(PayloadOf(v.items[key]), answer.Sent?)]
        && After(v.items[key], v'.items[key], answer.Sent?)
        && if answer.saved then DecodeFile(v'.disk) == v'.items else v'.disk == v.disk
    }

    /** One Replay after the other, in the order of the chosen items. */
    ghost predicate Replays(views: seq<View>, chosen: seq<Item>, answers: seq<Answer>)
      requires IsInt64(baseDelay) && IsInt64(maxDelay)
    {
      && |answers| <= |chosen| && |views| == |answers| + 1
      && forall k :: 0 <= k < |answers| ==> ReplayOf(views[k], chosen[k].id, answers[k], views[k + 1])
    }

    lemma ReplaysNext(views: seq<View>, chosen: seq<Item>, answers: seq<Answer>, v: View, answer: Answer)
      requires IsInt64(baseDelay) && IsInt64(maxDelay) && Replays(views, chosen, answers) && |answers| < |chosen|
      requires ReplayOf(views[|answers|], chosen[|answers|].id, answer, v)
      ensures Replays(views + [v], chosen, answers + [answer])
    {
    }

    /** Whatever manual replays follow one another and whatever they answer, an item that is out of
        tries never waits again: it is as it was, done, or failed, and its retry time stays. */
    lemma {:induction false} SpentForGood(views: seq<View>, chosen: seq<Item>, answers: seq<Answer>, id: string, k: nat)
      requires IsInt64(baseDelay) && IsInt64(maxDelay) && maxRetries > 0 && Replays(views, chosen, answers)
      requires id in views[0].items && IsSpent(views[0].items[id], maxRetries) && k <= |answers|
      ensures id in views[k].items && IsSpent(views[k].items[id], maxRetries)
      ensures views[k].items[id].nextRetryAt == views[0].items[id].nextRetryAt
      decreases k
    {
      if k > 0 {
        SpentForGood(views, chosen, answers, id, k - 1);
        var v, v', answer := views[k - 1], views[k], answers[k - 1];
        assert ReplayOf(v, chosen[k - 1].id, answer, v');
        if id != "" && TrimSpace(chosen[k - 1].id) == id {
          SpentStaysSpent(maxRetries, baseDelay, maxDelay, v.items[id], v'.items[id], answer.Sent?);
        }
      }
    }

    /** The relay function, called with the queue bypassed, so it leaves the store alone. */
    method CallRelay(recipient: string, raw: seq<byte>) returns (err: Option<string>)
      modifies `calls
      ensures calls == old(calls) + [Replayed(Payload(recipient, raw), err.None?)]
    {
      var failed: bool := *;
      var message: string := *;
      err := if failed then Some(message) else None;
      calls := calls + [Replayed(Payload(recipient, raw), !failed)];
    }

    method Replay(id: string) returns (answer: Answer)
      requires IsInt64(baseDelay) && IsInt64(maxDelay) && store.Valid()
      modifies `calls, store
      ensures store.Valid()
      ensures ReplayOf(old(Now()), id, answer, Now())
    {
      var key := TrimSpace(id);
      if key == "" {
        return Usage;
      }
      if key !in store.items {
        return Unknown;
      }
      var item := store.items[key];
      var err := CallRelay(item.recipient, item.raw);
      var at: int := *;
      var ioOk: bool := *;
      if err.Some? {
        var next := at + NextDelay(item.attempt + 1, baseDelay, maxDelay);
        var marked := store.MarkRetry(item.id, next, err, maxRetries, at, ioOk);
        assert AfterReplayAt(maxRetries, baseDelay, maxDelay, item, store.items[key], false, at, err.value);
        return NotSent(marked.Ok?);
      }
      var marked := store.MarkDone(item.id, at, ioOk);
      assert AfterReplayAt(maxRetries, baseDelay, maxDelay, item, store.items[key], true, at, "");
      answer := Sent(marked.Ok?);
    }

    /** FileStore.List. */
    method List(limit: int) returns (out: seq<Item>)
      requires store.Valid()
      ensures exists all :: IsListing(store.items, all, out, ListLimit(limit))
      ensures |out| == if limit > 0 then (if |store.items| < limit then |store.items| else limit)
                       else if |store.items| < 20 then |store.items| else 20
    {
      var n := ListLimit(limit);
      var collected := store.Collect();
      out := SortSlice(collected, NotOlder);
      SortedListing(store.items, collected, out);
      ghost var all := out;
      if |out| > n {
        out := out[..n];
      }
      assert IsListing(store.items, all, out, n);
    }

    /** The loop of ReplayBatch that picks items from the listing. */
    method Select(items: seq<Item>, want: Status, limit: nat) returns (selected: seq<Item>)
      requires limit > 0
      ensures selected == FirstOf(WithStatus(items, want), limit)
    {
      selected := [];
      for i := 0 to |items|
        invariant selected == WithStatus(items[..i], want) && |selected| < limit
      {
        assert items[..i + 1][..i] == items[..i];
        if items[i].status != want {
          continue;
        }
        selected := selected + [items[i]];
        if |selected| == limit {
          EnoughFound(items, i + 1, want, limit);
          return;
        }
      }
      assert items[..|items|] == items;
    }

    method Choose(want: Status, limit: nat) returns (selected: seq<Item>)
      requires store.Valid() && limit > 0
      ensures BatchChoice(store.items, selected, want, limit)
    {
      var items := List(LIST_MAX);
      ghost var all :| IsListing(store.items, all, items, LIST_MAX);
      selected := Select(items, want, limit);
      ListingChoice(store.items, all, items, selected, want, limit);
    }

    /** Relayed with its own payload and marked as the answer says. */
    ghost predicate ReplayedAs(m': Items, item: Item, answer: Answer)
      requires IsInt64(baseDelay) && IsInt64(maxDelay)
    {
      Attempted(answer) && item.id in m' && After(item, m'[item.id], answer.Sent?)
    }

    ghost predicate EachReplayed(m': Items, chosen: seq<Item>, answers: seq<Answer>)
      requires IsInt64(baseDelay) && IsInt64(maxDelay) && |answers| <= |chosen|
    {
      forall i :: 0 <= i < |answers| ==> ReplayedAs(m', chosen[i], answers[i])
    }

    /** From table m and file disk on, the first chosen items were relayed once each, in order, and
        marked; nothing else changed; the file followed the writes that succeeded. */
    ghost predicate ReplayedFirst(m: Items, disk: Option<seq<Item>>, before: seq<Replayed>, chosen: seq<Item>, answers: seq<Answer>)
      requires IsInt64(baseDelay) && IsInt64(maxDelay) && |answers| <= |chosen|
      reads this, store
    {
      && store.items.Keys == m.Keys && OthersSame(m, store.items, chosen, |answers|)
      && EachReplayed(store.items, chosen, answers) && calls == before + CallsOf(chosen, answers)
      && FileFollows(m, store.items, disk, store.disk, chosen, SavesOf(answers))
    }

    lemma EachOneMore(m1: Items, m2: Items, chosen: seq<Item>, answers: seq<Answer>, answer: Answer)
      requires IsInt64(baseDelay) && IsInt64(maxDelay) && |answers| < |chosen| && DistinctIds(chosen)
      requires EachReplayed(m1, chosen, answers)
      requires var id := chosen[|answers|].id; id in m2 && m2 == m1[id := m2[id]]
      requires ReplayedAs(m2, chosen[|answers|], answer)
      ensures EachReplayed(m2, chosen, answers + [answer])
    {
      forall i | 0 <= i < |answers|
        ensures ReplayedAs(m2, chosen[i], answers[i])
      {
        assert ReplayedAs(m1, chosen[i], answers[i]);
      }
    }

    /** One round of the next method's loop. */
    method ReplayNext(item: Item, ghost selected: seq<Item>, ghost m: Items, ghost disk: Option<seq<Item>>,
                      ghost before: seq<Replayed>, ghost answers: seq<Answer>) returns (answer: Answer)
      requires IsInt64(baseDelay) && IsInt64(maxDelay) && store.Valid() && |answers| < |selected| && DistinctIds(selected)
      requires store.items.Keys == m.Keys
      requires item == selected[|answers|] && item.id in m && m[item.id] == item
      requires CleanIds(m) ==> ReplayedFirst(m, disk, before, selected, answers)
      modifies `calls, store
      ensures store.Valid() && store.items.Keys == m.Keys && ReplayOf(old(Now()), item.id, answer, Now())
      ensures CleanIds(m) ==> ReplayedFirst(m, disk, before, selected, answers + [answer])
    {
      ghost var m1, disk1 := store.items, store.disk;
      answer := Replay(item.id);
      if CleanIds(m) {
        assert !AmongFirst(selected, |answers|, item.id);
        SavesOneMore(selected, answers, answer);
        FileOneMore(m, m1, store.items, disk, disk1, store.disk, selected, SavesOf(answers), answer.saved);
        EachOneMore(m1, store.items, selected, answers, answer);
        Associative(before, CallsOf(selected, answers), [Replayed(PayloadOf(item), answer.Sent?)]);
      }
    }

    /** The loop of ReplayBatch that replays them. A delivery whose result could not be saved
        counts as failed. */
    method ReplaySelected(selected: seq<Item>)
      returns (okCount: nat, failCount: nat, ghost answers: seq<Answer>, ghost views: seq<View>)
      requires IsInt64(baseDelay) && IsInt64(maxDelay) && store.Valid()
      requires DistinctIds(selected) && forall x :: x in selected ==> x.id in store.items && store.items[x.id] == x
      modifies `calls, store
      ensures store.Valid() && store.items.Keys == old(store.items.Keys)
      ensures |answers| == |selected| == okCount + failCount && okCount == Confirmed(answers)
      ensures Replays(views, selected, answers) && views[0] == old(Now()) && views[|answers|] == Now()
      ensures CleanIds(old(store.items)) ==>
        ReplayedFirst(old(store.items), old(store.disk), old(calls), selected, answers)
    {
      okCount, failCount, answers, views := 0, 0, [], [Now()];
      for k := 0 to |selected|
        invariant store.Valid() && store.items.Keys == old(store.items.Keys)
        invariant |answers| == k == okCount + failCount && okCount == Confirmed(answers)
        invariant Replays(views, selected, answers) && views[0] == old(Now()) && views[k] == Now()
        invariant CleanIds(old(store.items)) ==>
          ReplayedFirst(old(store.items), old(store.disk), old(calls), selected, answers)
      {
        assert selected[k] in selected;
        var answer := ReplayNext(selected[k], selected, old(store.items), old(store.disk), old(calls), answers);
        ConfirmedNext(answers, answer);
        ReplaysNext(views, selected, answers, Now(), answer);
        answers, views := answers + [answer], views + [Now()];
        if answer == Sent(true) {
          okCount := okCount + 1;
        } else {
          failCount := failCount + 1;
        }
      }
    }

    /** The reported successes are the deliveries whose result was saved. */
    method ReplayBatch(limit: int, mode: string)
      returns (answer: BatchAnswer, ghost chosen: seq<Item>, ghost answers: seq<Answer>, ghost views: seq<View>)
      requires IsInt64(baseDelay) && IsInt64(maxDelay) && store.Valid()
      modifies `calls, store
      ensures store.Valid()
      ensures answer.BadArguments? <==> limit <= 0 || ParseMode(mode).None?
      ensures !answer.BadArguments? ==> BatchChoice(old(store.items), chosen, ParseMode(mode).value, limit)
      ensures answer.NothingToDo? ==> chosen == []
      ensures answer.Report? ==> chosen != [] && |answers| == |chosen| && store.items.Keys == old(store.items.Keys)
      ensures answer.Report? ==> answer == Report(|chosen|, Confirmed(answers), |chosen| - Confirmed(answers))
      ensures !answer.Report? ==> Now() == old(Now())
      ensures answer.Report? ==> Replays(views, chosen, answers) && views[0] == old(Now()) && views[|answers|] == Now()
      ensures answer.Report? && CleanIds(old(store.items)) ==>
        ReplayedFirst(old(store.items), old(store.disk), old(calls), chosen, answers)
    {
      chosen, answers, views := [], [], [];
      if limit <= 0 {
        return BadArguments, chosen, answers, views;
      }
      var want := ParseMode(mode);
      if want.None? {
        return BadArguments, chosen, answers, views;
      }
      var selected := Choose(want.value, limit);
      chosen := selected;
      if |selected| == 0 {
        return NothingToDo, chosen, answers, views;
      }
      var okCount, failCount;
      okCount, failCount, answers, views := ReplaySelected(selected);
      answer := Report(|selected|, okCount, failCount);
    }
  }

  predicate Attempted(answer: Answer) {
    answer.Sent? || answer.NotSent?
  }

  /** How many deliveries were both made and saved. */
  function Confirmed(answers: seq<Answer>): (n: nat)
    ensures n <= |answers|
  {
    if answers == [] then 0
    else Confirmed(answers[..|answers| - 1]) + if answers[|answers| - 1] == Sent(true) then 1 else 0
  }

  lemma {:induction false} ConfirmedNext(answers: seq<Answer>, answer: Answer)
    ensures Confirmed(answers + [answer]) == Confirmed(answers) + if answer == Sent(true) then 1 else 0
  {
    assert (answers + [answer])[..|answers|] == answers;
  }

  lemma {:induction false} ConfirmedIs(answers: seq<Answer>)
    ensures Confirmed(answers) == |set i | 0 <= i < |answers| && answers[i] == Sent(true)|
  {
    if answers != [] {
      var n := |answers| - 1;
      ConfirmedIs(answers[..n]);
      var before := set i | 0 <= i < n && answers[..n][i] == Sent(true);
      assert (set i | 0 <= i < |answers| && answers[i] == Sent(true)) ==
             if answers[n] == Sent(true) then before + {n} else before;
    }
  }

  function CallsOf(chosen: seq<Item>, answers: seq<Answer>): (calls: seq<Replayed>)
    requires |answers| <= |chosen|
    ensures |calls| == |answers|
  {
    seq(|answers|, i requires 0 <= i < |answers| => Replayed(PayloadOf(chosen[i]), answers[i].Sent?))
  }

  function SavesOf(answers: seq<Answer>): (saves: seq<bool>)
    ensures |saves| == |answers|
  {
    seq(|answers|, i requires 0 <= i < |answers| => Attempted(answers[i]) && answers[i].saved)
  }

  lemma SavesOneMore(chosen: seq<Item>, answers: seq<Answer>, answer: Answer)
    requires |answers| < |chosen| && Attempted(answer)
    ensures SavesOf(answers + [answer]) == SavesOf(answers) + [answer.saved]
    ensures CallsOf(chosen, answers + [answer]) == CallsOf(chosen, answers) + [Replayed(PayloadOf(chosen[|answers|]), answer.Sent?)]
  {
  }
}
