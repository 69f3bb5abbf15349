/** How the parts fit together: what a reply to DATA means for the mail, and that the store's users
    take only steps of the queue protocol. */
module EndToEnd {
  import opened Support
  import opened Delivery
  import opened RelayService
  import opened DlqItems
  import opened DlqProtocol
  import opened DlqPaths
  import Smtp = SmtpSession
  import Data = SmtpData
  import Worker = DlqWorker
  import Admin = DlqAdmin

  // ----- a reply to DATA -----

  /** The event is the relay call that the server made. */
  predicate IsMade(e: Event, c: Smtp.RelayCall) {
    && e.SmtpRelay? && e.call.payload.recipient == c.rcpt && e.call.payload.raw == c.raw
    && (c.ok <==> e.call.result.Ok?)
  }

  /** The relay calls of a session's exchange are these steps of a run. */
  ghost predicate Made(es: seq<Event>, calls: seq<Smtp.RelayCall>, at: seq<nat>) {
    |at| == |calls| && forall k :: 0 <= k < |at| ==> at[k] < |es| && IsMade(es[at[k]], calls[k])
  }

  predicate IsFor(e: Event, rcpt: string, m: string) {
    e.SmtpRelay? && e.call.payload.recipient == rcpt && e.call.payload.raw == m
  }

  /** Everything the address resolves to has accepted the whole message. */
  ghost predicate Reached(cfg: Setup, e: Event, rcpt: string, m: string) {
    IsFor(e, rcpt, m) && e.call.result.Ok? && DeliveredEverything(cfg, e.call)
  }

  /** In every state behind step n an item of the table and of the file holds the message. */
  ghost predicate Kept(ss: seq<State>, n: nat, id: string, rcpt: string, m: string) {
    forall j :: n < j < |ss| ==>
      && id in ss[j].mem && ss[j].mem[id].recipient == rcpt && ss[j].mem[id].raw == m
      && id in ss[j].disk && ss[j].disk[id].recipient == rcpt && ss[j].disk[id].raw == m
  }

  lemma NilReaches(cfg: Setup, ss: seq<State>, es: seq<Event>, n: nat)
    requires ValidSetup(cfg) && Run(cfg, ss, es) && n < |es| && es[n].SmtpRelay? && es[n].call.result.Ok?
    ensures DeliveredEverything(cfg, es[n].call)
  {
    assert StepAt(cfg, ss, es, n);
    var c := es[n].call;
    RelayTrace(cfg.relay, c.aliases, c.payload.recipient, c.payload.raw, c.result, c.bs);
  }

  lemma AckKeeps(cfg: Setup, ss: seq<State>, es: seq<Event>, n: nat)
    requires ValidSetup(cfg) && Run(cfg, ss, es) && n < |es| && Acks(es[n])
    ensures Kept(ss, n, es[n].out.id, es[n].call.payload.recipient, es[n].call.payload.raw)
  {
    forall j | n < j < |ss|
      ensures var id := es[n].out.id;
        && id in ss[j].mem && PayloadOf(ss[j].mem[id]) == es[n].call.payload
        && id in ss[j].disk && PayloadOf(ss[j].disk[id]) == es[n].call.payload
    {
      AckedNeverLost(cfg, ss, es, n, j);
    }
  }

  ghost predicate AllReached(cfg: Setup, es: seq<Event>, at: seq<nat>, rcpts: seq<string>, m: string) {
    |at| == |rcpts| && forall k :: 0 <= k < |at| ==> at[k] < |es| && Reached(cfg, es[at[k]], rcpts[k], m)
  }

  /** The last of these steps failed; those before it reached their recipients. */
  ghost predicate FirstReached(cfg: Setup, ss: seq<State>, es: seq<Event>, at: seq<nat>, rcpts: seq<string>, m: string) {
    && 0 < |at| <= |rcpts| && AllReached(cfg, es, at[..|at| - 1], rcpts[..|at| - 1], m)
    && var n, rcpt := at[|at| - 1], rcpts[|at| - 1];
       && n < |es| && IsFor(es[n], rcpt, m) && es[n].call.result.Err?
       && (Acks(es[n]) ==> Kept(ss, n, es[n].out.id, rcpt, m))
  }

  lemma {:induction false} AllMade(cfg: Setup, ss: seq<State>, es: seq<Event>, calls: seq<Smtp.RelayCall>, at: seq<nat>,
                                   rcpts: seq<string>, m: string)
    requires ValidSetup(cfg) && Run(cfg, ss, es) && Made(es, calls, at)
    ensures calls == Smtp.CallsOf(rcpts, m, |rcpts|) <==> AllReached(cfg, es, at, rcpts, m)
  {
    if calls == Smtp.CallsOf(rcpts, m, |rcpts|) {
      forall k | 0 <= k < |at|
        ensures at[k] < |es| && Reached(cfg, es[at[k]], rcpts[k], m)
      {
        assert IsMade(es[at[k]], calls[k]) && calls[k] == Smtp.RelayCall(rcpts[k], m, true);
        NilReaches(cfg, ss, es, at[k]);
      }
    }
    if AllReached(cfg, es, at, rcpts, m) {
      forall k | 0 <= k < |at|
        ensures calls[k] == Smtp.RelayCall(rcpts[k], m, true)
      {
        assert IsMade(es[at[k]], calls[k]) && Reached(cfg, es[at[k]], rcpts[k], m);
      }
    }
  }

  lemma {:induction false} FirstMade(cfg: Setup, ss: seq<State>, es: seq<Event>, calls: seq<Smtp.RelayCall>, at: seq<nat>,
                                     rcpts: seq<string>, m: string)
    requires ValidSetup(cfg) && Run(cfg, ss, es) && Made(es, calls, at) && Smtp.FailedAt(calls, rcpts, m)
    ensures FirstReached(cfg, ss, es, at, rcpts, m)
  {
    var last := |at| - 1;
    assert calls[..last] == Smtp.CallsOf(rcpts[..last], m, last);
    AllMade(cfg, ss, es, calls[..last], at[..last], rcpts[..last], m);
    assert IsMade(es[at[last]], calls[last]) && calls[last] == Smtp.RelayCall(rcpts[last], m, false);
    if Acks(es[at[last]]) {
      AckKeeps(cfg, ss, es, at[last]);
    }
  }

  /** A session in which DATA is followed by the dot-stuffed message m, in any run of the queue of
      which its relay calls are steps. The reply is 250 exactly when m fits the limit and was
      delivered in full for every recipient. If it is 451, m was delivered in full for some first
      recipients; the call for the next one failed, and if its failure was queued without error, m
      is kept for that recipient for good; the others were not tried. */
  lemma {:induction false} ReplyMeansDelivery(
      sc: Smtp.Config, input: string, t: seq<Smtp.Exchange>, rest: string, i: nat, m: string, end: string, more: string,
      cfg: Setup, ss: seq<State>, es: seq<Event>, at: seq<nat>)
    requires Smtp.IsSession(sc, input, t, rest)
    requires i < |t| && t[i].cmd == Smtp.Data && Smtp.Recipients(t[..i]) != []
    requires Data.Complete(m) && Data.IsTerminator(end)
    requires Smtp.HasLine(Smtp.Unread(sc, input, t[..i]))
    requires Smtp.AfterLine(Smtp.Unread(sc, input, t[..i])) == Data.Stuff(m) + end + more
    requires ValidSetup(cfg) && Run(cfg, ss, es) && Made(es, t[i].calls, at)
    ensures var rcpts := Smtp.Recipients(t[..i]);
      && (t[i].replies == [354, 250] <==> Data.Fits("", m, sc.maxBytes) && AllReached(cfg, es, at, rcpts, m))
      && (t[i].replies == [354, 451] ==> FirstReached(cfg, ss, es, at, rcpts, m))
  {
    var rcpts := Smtp.Recipients(t[..i]);
    Smtp.DataReplyMeans(sc, input, t, rest, i, m, end, more);
    AllMade(cfg, ss, es, t[i].calls, at, rcpts, m);
    if t[i].replies == [354, 451] {
      FirstMade(cfg, ss, es, t[i].calls, at, rcpts, m);
    }
  }

  // ----- every session has such a run -----

  lemma {:induction false} AllShorter(ids: set<string>) returns (n: nat)
    ensures forall id :: id in ids ==> |id| < n
  {
    if ids == {} {
      n := 0;
    } else {
      var id :| id in ids;
      n := AllShorter(ids - {id});
      n := if |id| < n then n else |id| + 1;
    }
  }

  lemma FreshId(m: Items) returns (id: string)
    ensures id !in m
  {
    var n := AllShorter(m.Keys);
    id := seq(n, _ => '0');
    assert id !in m.Keys;
  }

  /** Enqueue has something to do in every table. */
  lemma SomeEnqueue(m: Items, p: Payload, message: string) returns (id: string, out: Item)
    requires Good(m)
    ensures id !in m && Enqueued(m, m[out.id := out], p.recipient, p.raw, Some(message), 0, id, out)
  {
    id := FreshId(m);
    if x :| x in m && Matches(m[x], PayloadFingerprint(p.recipient, p.raw)) {
      out := Touch(m[x], Some(message), 0);
    } else {
      out := NewItem(id, p.recipient, p.raw, Some(message), 0);
    }
  }

  /** The call may return for the mail, whatever it answers. */
  lemma MailReturns(s: State, c: Call) returns (e: Event, s': State)
    requires Good(s.mem) && Returns(s, ByMail, c)
    ensures e.SmtpRelay? && e.call == c && SmtpStep(s, e.call, e.now, e.newId, e.ioOk, e.out, s')
  {
    s' := s.(flights := Closed(s.flights, c.no), calls := s.calls + [c]);
    if IsSendError(c.result) {
      var ioOk := c.result.error.SendFailed?;
      var id, out := SomeEnqueue(s.mem, c.payload, c.result.error.message);
      var mem := s.mem[out.id := out];
      s' := s'.(mem := mem, disk := Saved(ioOk, mem, s.disk), acks := if ioOk then s.acks + 1 else s.acks,
                acked := if ioOk then s.acked[out.id := c.payload] else s.acked);
      e := SmtpRelay(c, 0, id, ioOk, out);
    } else {
      e := SmtpRelay(c, 0, "", true, NewItem("", "", [], None, 0));
    }
  }

  /** The event is the return of this call, whenever it began. */
  predicate IsReturn(e: Event, w: Call) {
    e.SmtpRelay? && e.call == w.(since := e.call.since, no := e.call.no)
  }

  /** In any state of the queue an honest relay call for arriving mail can be made. */
  lemma CallIsMade(cfg: Setup, ss: seq<State>, es: seq<Event>, w: Call) returns (ss': seq<State>, es': seq<Event>)
    requires ValidSetup(cfg) && Run(cfg, ss, es) && Honest(cfg, w)
    ensures Continues(cfg, ss, es, ss', es') && |es'| > |es| && IsReturn(es'[|es'| - 1], w)
  {
    var s := ss[|es|];
    var s1 := Flying(s, ByMail, w.payload, w.aliases, w.bs);
    MailAsks(cfg, s, w);
    var ss1, es1 := RunsOnPlainly(cfg, ss, es, s1);
    Lands(s, ByMail, w);
    PlacedIsHonest(cfg, w, s);
    RunIsSafe(cfg, ss1, es1, |es1|);
    var e, s' := MailReturns(s1, Placed(w, s));
    RunOnward(cfg, ss1, es1, e, s');
    ss', es' := ss1 + [s'], es1 + [e];
  }

  /** How the relay service may have answered the calls that the server made. */
  ghost predicate MayAnswer(cfg: Setup, calls: seq<Smtp.RelayCall>, ws: seq<Call>) {
    |ws| == |calls| && forall k :: 0 <= k < |ws| ==>
      && Honest(cfg, ws[k]) && ws[k].payload.recipient == calls[k].rcpt && ws[k].payload.raw == calls[k].raw
      && (calls[k].ok <==> ws[k].result.Ok?)
  }

  ghost predicate ReturnsAt(es: seq<Event>, ws: seq<Call>, at: seq<nat>, from: nat) {
    && |at| == |ws| && (forall k :: 0 <= k < |at| ==> from <= at[k] < |es| && IsReturn(es[at[k]], ws[k]))
    && forall j, k :: 0 <= j < k < |at| ==> at[j] < at[k]
  }

  lemma ReturnsOneMore(es: seq<Event>, es': seq<Event>, ws: seq<Call>, at: seq<nat>, from: nat)
    requires ws != [] && ReturnsAt(es, ws[..|ws| - 1], at, from) && es <= es' && from <= |es| < |es'|
    requires IsReturn(es'[|es'| - 1], ws[|ws| - 1])
    ensures ReturnsAt(es', ws, at + [|es'| - 1], from)
  {
    forall k | 0 <= k < |at|
      ensures IsReturn(es'[at[k]], ws[k])
    {
      assert IsReturn(es[at[k]], ws[..|ws| - 1][k]);
    }
  }

  lemma {:induction false} CallsAreMade(cfg: Setup, ss: seq<State>, es: seq<Event>, ws: seq<Call>)
    returns (ss': seq<State>, es': seq<Event>, at: seq<nat>)
    requires ValidSetup(cfg) && Run(cfg, ss, es) && forall w :: w in ws ==> Honest(cfg, w)
    ensures Continues(cfg, ss, es, ss', es') && ReturnsAt(es', ws, at, |es|)
    decreases |ws|
  {
    if ws == [] {
      ss', es', at := ss, es, [];
    } else {
      var n := |ws| - 1;
      var ss1, es1, at1 := CallsAreMade(cfg, ss, es, ws[..n]);
      ss', es' := CallIsMade(cfg, ss1, es1, ws[n]);
      ReturnsOneMore(es1, es', ws, at1, |es|);
      at := at1 + [|es'| - 1];
    }
  }

  /** Whatever a session has its recipients relayed for, and however the relay service answers: from
      any state of the queue on there is a run in which these calls are steps, one after the other. */
  lemma SessionHasRun(cfg: Setup, ss: seq<State>, es: seq<Event>, calls: seq<Smtp.RelayCall>, ws: seq<Call>)
    returns (ss': seq<State>, es': seq<Event>, at: seq<nat>)
    requires ValidSetup(cfg) && Run(cfg, ss, es) && MayAnswer(cfg, calls, ws)
    ensures Continues(cfg, ss, es, ss', es') && Made(es', calls, at) && ReturnsAt(es', ws, at, |es|)
  {
    ss', es', at := CallsAreMade(cfg, ss, es, ws);
    forall k | 0 <= k < |at|
      ensures IsMade(es'[at[k]], calls[k])
    {
      assert IsReturn(es'[at[k]], ws[k]);
    }
  }

  // ----- the store's users take steps of the protocol -----

  /** What such a path turns the store into. */
  predicate Shows(s: State, m: Items, d: Items, calls: seq<Call>) {
    s.mem == m && s.disk == d && s.calls == calls
  }

  /** A call that began at this state. */
  predicate BeganAt(c: Call, s: State, i: nat) {
    c.since == s.acks && c.no == |s.flights| + i
  }

  /** A relay call outside a replay, as the service promises it, is a beginning, its sends and a
      return. */
  lemma RelayIsSteps(cfg: Setup, s: State, c: Call, disk: Option<seq<Item>>, m': Items, disk': Option<seq<Item>>,
                     ioOk: bool, now: int, newId: string) returns (s': State)
    requires ValidSetup(cfg) && Honest(cfg, c) && BeganAt(c, s, 0) && newId !in s.mem && s.disk == DecodeFile(disk)
    requires IsSendError(c.result) ==> (c.result.error.SendFailedNotQueued? <==> !ioOk)
    requires QueueAfter(s.mem, disk, m', disk', c.result, true, ioOk, c.payload.recipient, c.payload.raw, now, newId)
    ensures Follows(cfg, s, s') && Shows(s', m', DecodeFile(disk'), s.calls + [c])
    ensures s'.sent == s.sent + SentBy(c.no, c.payload, LogOf(c.bs))
  {
    var s1 := Flying(s, ByMail, c.payload, c.aliases, c.bs);
    MailAsks(cfg, s, c);
    Lands(s, ByMail, c);
    s' := Flown(s, ByMail, c);
    var out := NewItem(newId, c.payload.recipient, c.payload.raw, None, now);
    if IsSendError(c.result) {
      out :| Enqueued(s.mem, m', c.payload.recipient, c.payload.raw, Some(c.result.error.message), now, newId, out);
      s' := s'.(mem := m', disk := DecodeFile(disk'), acks := if ioOk then s.acks + 1 else s.acks,
                acked := if ioOk then s.acked[out.id := c.payload] else s.acked);
    }
    OneMore(cfg, s, s1, SmtpRelay(c, now, newId, ioOk, out), s');
  }

  lemma HandCalls(cfg: Setup, s: State, k: nat, id: string, c: Call) returns (s': State)
    requires ValidSetup(cfg) && k !in s.replays && id in s.mem
    requires Honest(cfg, c) && c.payload == PayloadOf(s.mem[id]) && BeganAt(c, s, 0)
    ensures Follows(cfg, s, s') && s'.replays == s.replays[k := Replied(s.mem[id], c.result.Ok?)]
    ensures Shows(s', s.mem, s.disk, s.calls + [c]) && s'.worker == s.worker
  {
    HandAsks(cfg, s, k, id, c);
    s' := Flown(s, ByAdmin(k), c).(replays := s.replays[k := Replied(s.mem[id], c.result.Ok?)]);
  }

  lemma HandMarks(cfg: Setup, s: State, k: nat, after: Item, saved: bool, at: int, message: string) returns (s': State)
    requires ValidSetup(cfg) && k in s.replays && s.replays[k].Replied?
    requires var item := s.replays[k].item;
      && item.id in s.mem && s.mem[item.id] == item
      && Admin.AfterReplayAt(cfg.maxRetries, cfg.baseDelay, cfg.maxDelay, item, after, s.replays[k].ok, at, message)
    ensures Follows(cfg, s, s')
    ensures s'.mem == s.mem[s.replays[k].item.id := after] && s'.disk == Saved(saved, s'.mem, s.disk)
    ensures s'.calls == s.calls && s'.worker == s.worker && s'.replays == s.replays - {k}
  {
    var item := s.replays[k].item;
    var mem := s.mem[item.id := after];
    s' := s.(mem := mem, disk := Saved(saved, mem, s.disk), replays := s.replays - {k},
             failures := Noted(s.failures, s.mem, item, s.replays[k].ok, at));
    OneStep(cfg, s, AdminMark(k, at, message, saved), s');
  }

  lemma CallsAndMarks(cfg: Setup, s: State, k: nat, id: string, after: Item, saved: bool, c: Call, at: int, message: string)
    returns (s': State)
    requires ValidSetup(cfg) && k !in s.replays && id in s.mem && s.mem[id].id == id
    requires Honest(cfg, c) && c.payload == PayloadOf(s.mem[id]) && BeganAt(c, s, 0)
    requires Admin.AfterReplayAt(cfg.maxRetries, cfg.baseDelay, cfg.maxDelay, s.mem[id], after, c.result.Ok?, at, message)
    ensures Follows(cfg, s, s') && s'.mem == s.mem[id := after] && s'.disk == Saved(saved, s'.mem, s.disk)
    ensures s'.calls == s.calls + [c] && s'.worker == s.worker && s'.replays == s.replays
  {
    var s1 := HandCalls(cfg, s, k, id, c);
    s' := HandMarks(cfg, s1, k, after, saved, at, message);
    assert s.replays[k := Replied(s.mem[id], c.result.Ok?)] - {k} == s.replays;
    Onward(cfg, s, s1, s');
  }

  /** A manual replay, as the administrators' code promises it, is a fetch, a whole call and a mark. */
  lemma ReplayIsSteps(cfg: Setup, s: State, k: nat, id: string, m': Items, saved: bool, c: Call) returns (s': State)
    requires ValidSetup(cfg) && k !in s.replays && id in s.mem && s.mem[id].id == id
    requires Honest(cfg, c) && c.payload == PayloadOf(s.mem[id]) && BeganAt(c, s, 0)
    requires id in m' && m' == s.mem[id := m'[id]]
    requires Admin.AfterReplay(cfg.maxRetries, cfg.baseDelay, cfg.maxDelay, s.mem[id], m'[id], c.result.Ok?)
    ensures Follows(cfg, s, s') && Shows(s', m', if saved then m' else s.disk, s.calls + [c])
    ensures s'.worker == s.worker && s'.replays == s.replays
  {
    var at, message :|
      Admin.AfterReplayAt(cfg.maxRetries, cfg.baseDelay, cfg.maxDelay, s.mem[id], m'[id], c.result.Ok?, at, message);
    s' := CallsAndMarks(cfg, s, k, id, m'[id], saved, c, at, message);
  }

  function TimingOf(cfg: Setup): Worker.Timing {
    Worker.Timing(cfg.maxRetries, cfg.baseDelay, cfg.maxDelay, cfg.jitter)
  }

  /** The table from m to m' after k items of the batch. */
  function TableAfter(m: Items, m': Items, batch: seq<Item>, k: nat): Items
    requires m'.Keys == m.Keys && k <= |batch|
  {
    map id | id in m :: if AmongFirst(batch, k, id) then m'[id] else m[id]
  }

  lemma MarkIsStep(cfg: Setup, s: State, after: Item, saved: bool, at: int, message: string, draw: int) returns (s': State)
    requires ValidSetup(cfg) && s.worker.Answered? && s.worker.batch != []
    requires var item := s.worker.batch[0];
      && item.id in s.mem && s.mem[item.id] == item
      && Worker.HandledAt(TimingOf(cfg), item, after, s.worker.ok, at, message, draw)
    ensures Step(cfg, s, WorkerMark(at, draw, message, saved), s')
    ensures var batch := s.worker.batch;
      && s'.mem == s.mem[batch[0].id := after] && s'.disk == Saved(saved, s'.mem, s.disk)
      && s'.calls == s.calls && s'.acks == s.acks && s'.flights == s.flights
      && s'.worker == if batch[1..] == [] then Idle else Busy(batch[1..])
  {
    var batch, item := s.worker.batch, s.worker.batch[0];
    var mem := s.mem[item.id := after];
    s' := s.(mem := mem, disk := Saved(saved, mem, s.disk), worker := if batch[1..] == [] then Idle else Busy(batch[1..]),
             failures := Noted(s.failures, s.mem, item, s.worker.ok, at));
  }

  lemma ItemIsSteps(cfg: Setup, s: State, after: Item, saved: bool, c: Call) returns (s': State)
    requires ValidSetup(cfg) && s.worker.Busy? && s.worker.batch != []
    requires var item := s.worker.batch[0];
      && item.id in s.mem && s.mem[item.id] == item
      && Honest(cfg, c) && c.payload == PayloadOf(item) && BeganAt(c, s, 0)
      && Worker.Handled(TimingOf(cfg), item, after, c.result.Ok?)
    ensures var batch := s.worker.batch;
      && Follows(cfg, s, s') && s'.mem == s.mem[batch[0].id := after] && s'.disk == Saved(saved, s'.mem, s.disk)
      && s'.calls == s.calls + [c] && s'.acks == s.acks && |s'.flights| == |s.flights| + 1
      && s'.worker == if batch[1..] == [] then Idle else Busy(batch[1..])
  {
    var item, ok := s.worker.batch[0], c.result.Ok?;
    var at, message, draw :| Worker.HandledAt(TimingOf(cfg), item, after, ok, at, message, draw);
    var s1 := Flown(s, ByWorker, c).(worker := Answered(s.worker.batch, ok));
    WorkerAsks(cfg, s, c);
    s' := MarkIsStep(cfg, s1, after, saved, at, message, draw);
    OneMore(cfg, s, s1, WorkerMark(at, draw, message, saved), s');
  }

  lemma TableOneMore(m: Items, m': Items, batch: seq<Item>, k: nat)
    requires m'.Keys == m.Keys && k < |batch| && batch[k].id in m && DistinctIds(batch)
    ensures TableAfter(m, m', batch, k)[batch[k].id] == m[batch[k].id]
    ensures TableAfter(m, m', batch, k + 1) == TableAfter(m, m', batch, k)[batch[k].id := m'[batch[k].id]]
  {
  }

  /** What the worker's loop knows of its batch. */
  ghost predicate Batched(cfg: Setup, s: State, m': Items, batch: seq<Item>, saves: seq<bool>, cs: seq<Call>)
    requires ValidSetup(cfg)
  {
    && m'.Keys == s.mem.Keys && |saves| == |cs| == |batch| && DistinctIds(batch)
    && forall i :: 0 <= i < |batch| ==>
         && batch[i].id in s.mem && s.mem[batch[i].id] == batch[i]
         && Honest(cfg, cs[i]) && cs[i].payload == PayloadOf(batch[i]) && BeganAt(cs[i], s, i)
         && Worker.Handled(TimingOf(cfg), batch[i], m'[batch[i].id], cs[i].result.Ok?)
  }

  /** The loop has come to item k of its batch. */
  ghost predicate AtItem(s: State, s': State, m': Items, batch: seq<Item>, saves: seq<bool>, cs: seq<Call>, k: nat)
    requires m'.Keys == s.mem.Keys && k <= |batch| == |saves| == |cs|
  {
    && Shows(s', TableAfter(s.mem, m', batch, k), TableAfter(s.mem, m', batch, LastSaved(saves[..k])), s.calls + cs[..k])
    && s'.acks == s.acks && |s'.flights| == |s.flights| + k
    && s'.worker == if k == |batch| then Idle else Busy(batch[k..])
  }

  lemma LoopMovesOn(batch: seq<Item>, saves: seq<bool>, cs: seq<Call>, k: nat)
    requires k < |batch| == |saves| == |cs|
    ensures batch[k..] != [] && batch[k..][0] == batch[k] && batch[k..][1..] == batch[k + 1..]
    ensures LastSaved(saves[..k + 1]) == if saves[k] then k + 1 else LastSaved(saves[..k])
    ensures cs[..k + 1] == cs[..k] + [cs[k]]
  {
    assert saves[..k + 1][..k] == saves[..k];
  }

  lemma LoopOnce(cfg: Setup, s: State, m': Items, batch: seq<Item>, saves: seq<bool>, cs: seq<Call>, k: nat, s1: State)
    returns (s2: State)
    requires ValidSetup(cfg) && Batched(cfg, s, m', batch, saves, cs) && k < |batch|
    requires AtItem(s, s1, m', batch, saves, cs, k)
    ensures Follows(cfg, s1, s2) && AtItem(s, s2, m', batch, saves, cs, k + 1)
  {
    TableOneMore(s.mem, m', batch, k);
    LoopMovesOn(batch, saves, cs, k);
    s2 := ItemIsSteps(cfg, s1, m'[batch[k].id], saves[k], cs[k]);
    Associative(s.calls, cs[..k], [cs[k]]);
  }

  lemma {:induction false} LoopIsSteps(cfg: Setup, s: State, m': Items, batch: seq<Item>, saves: seq<bool>, cs: seq<Call>,
                                       k: nat) returns (s': State)
    requires ValidSetup(cfg) && Batched(cfg, s, m', batch, saves, cs) && k <= |batch|
    requires s.worker == Busy(batch) && batch != [] && s.disk == s.mem
    ensures Follows(cfg, s, s') && AtItem(s, s', m', batch, saves, cs, k)
  {
    if k == 0 {
      StaysThere(cfg, s);
      s' := s;
    } else {
      var s1 := LoopIsSteps(cfg, s, m', batch, saves, cs, k - 1);
      s' := LoopOnce(cfg, s, m', batch, saves, cs, k - 1, s1);
      Onward(cfg, s, s1, s');
    }
  }

  /** The calls behind a log of replays, all begun while no failure is queued. */
  ghost predicate Behind(cfg: Setup, s: State, log: seq<Worker.Replayed>, cs: seq<Call>) {
    |cs| == |log| && forall i :: 0 <= i < |log| ==>
      && Honest(cfg, cs[i]) && cs[i].payload == log[i].payload && BeganAt(cs[i], s, i)
      && (cs[i].result.Ok? <==> log[i].ok)
  }

  lemma BatchInTable(m: Items, ids: seq<string>, batch: seq<Item>, now: int)
    requires Keyed(m) && Distinct(ids) && (forall id :: id in ids ==> id in m)
    requires Worker.IsBatch(PickAll(m, ids, now), ids, batch)
    ensures DistinctIds(batch)
    ensures forall i :: 0 <= i < |batch| ==> batch[i].id == ids[i] && ids[i] in m && batch[i] == PickItem(m[ids[i]], now)
    ensures forall id :: id in m ==> (AmongFirst(batch, |batch|, id) <==> id in ids)
  {
    Worker.BatchIsDistinct(m, ids, batch, now);
    forall i | 0 <= i < |ids|
      ensures ids[i] in ids
    {
    }
    forall id | id in m && id in ids
      ensures AmongFirst(batch, |batch|, id)
    {
      var i :| 0 <= i < |ids| && ids[i] == id;
      assert batch[i].id == id;
    }
  }

  lemma WholeTable(t: Worker.Timing, m: Items, m': Items, ids: seq<string>, log: seq<Worker.Replayed>, batch: seq<Item>, now: int)
    requires Worker.ValidTiming(t) && Keyed(m) && Worker.Round(t, m, m', ids, log, now)
    requires Worker.IsBatch(PickAll(m, ids, now), ids, batch)
    ensures TableAfter(PickAll(m, ids, now), m', batch, |batch|) == m'
  {
    BatchInTable(m, ids, batch, now);
  }

  lemma RoundIsBatched(cfg: Setup, s: State, m: Items, m': Items, ids: seq<string>, log: seq<Worker.Replayed>, batch: seq<Item>,
                       saves: seq<bool>, now: int, cs: seq<Call>)
    requires ValidSetup(cfg) && Keyed(m) && Behind(cfg, s, log, cs) && |saves| == |log| && s.mem == PickAll(m, ids, now)
    requires Worker.Round(TimingOf(cfg), m, m', ids, log, now) && Worker.IsBatch(s.mem, ids, batch)
    ensures Batched(cfg, s, m', batch, saves, cs)
  {
    BatchInTable(m, ids, batch, now);
  }

  lemma PickIsAStep(cfg: Setup, s: State, ids: seq<string>, limit: int, now: int, ioOk: bool, batch: seq<Item>)
    returns (s': State)
    requires ValidSetup(cfg) && s.worker == Idle && Picks(s.mem, ids, limit, now) && ids != []
    requires ioOk ==> Worker.IsBatch(PickAll(s.mem, ids, now), ids, batch)
    ensures Follows(cfg, s, s')
    ensures var m := PickAll(s.mem, ids, now);
            s' == s.(mem := m, disk := Saved(ioOk, m, s.disk), worker := if ioOk then Busy(batch) else Idle)
  {
    StaysThere(cfg, s);
    var m := PickAll(s.mem, ids, now);
    assert ioOk ==> Batch(m, ids) == batch;
    s' := s.(mem := m, disk := Saved(ioOk, m, s.disk), worker := if ioOk then Busy(batch) else Idle);
    OneMore(cfg, s, s, Pick(ids, limit, now, ioOk), s');
  }

  lemma HalfTable(m: Items, m': Items, d': Items, batch: seq<Item>, k: nat)
    requires m'.Keys == m.Keys && k <= |batch| && HalfWay(m, m', batch, k, d')
    ensures d' == TableAfter(m, m', batch, k)
  {
  }

  lemma BatchIsSteps(cfg: Setup, s: State, m: Items, m': Items, d': Items, ids: seq<string>, log: seq<Worker.Replayed>,
                     batch: seq<Item>, saves: seq<bool>, now: int, cs: seq<Call>) returns (s': State)
    requires ValidSetup(cfg) && Keyed(m) && Behind(cfg, s, log, cs) && |saves| == |log| && ids != []
    requires s.worker == Busy(batch) && s.mem == PickAll(m, ids, now) && s.disk == s.mem
    requires Worker.Round(TimingOf(cfg), m, m', ids, log, now) && Worker.IsBatch(s.mem, ids, batch)
    requires HalfWay(s.mem, m', batch, LastSaved(saves), d')
    ensures Follows(cfg, s, s') && Shows(s', m', d', s.calls + cs) && s'.worker == Idle
  {
    RoundIsBatched(cfg, s, m, m', ids, log, batch, saves, now, cs);
    s' := LoopIsSteps(cfg, s, m', batch, saves, cs, |batch|);
    WholeTable(TimingOf(cfg), m, m', ids, log, batch, now);
    assert saves[..|batch|] == saves && cs[..|batch|] == cs;
    HalfTable(s.mem, m', d', batch, LastSaved(saves));
  }

  /** A round of the worker, as its code promises it, is a pick, and a whole call and a mark for
      every item of the batch, when nobody else does anything meanwhile. */
  lemma RoundIsSteps(cfg: Setup, s: State, limit: int, m': Items, d': Items, ids: seq<string>, log: seq<Worker.Replayed>,
                     batch: seq<Item>, saves: seq<bool>, now: int, ioOk: bool, cs: seq<Call>) returns (s': State)
    requires ValidSetup(cfg) && s.worker == Idle && Keyed(s.mem) && Behind(cfg, s, log, cs)
    requires Worker.RanOnce(TimingOf(cfg), limit, s.mem, s.disk, m', d', ids, log, batch, saves, now, ioOk)
    ensures Follows(cfg, s, s') && Shows(s', m', d', s.calls + cs) && s'.worker == Idle
  {
    if ids == [] {
      StaysThere(cfg, s);
      assert m' == s.mem && s.calls + cs == s.calls;
      s' := s;
    } else {
      var s1 := PickIsAStep(cfg, s, ids, limit, now, ioOk, batch);
      if ioOk {
        s' := BatchIsSteps(cfg, s1, s.mem, m', d', ids, log, batch, saves, now, cs);
        Onward(cfg, s, s1, s');
      } else {
        assert s.calls + cs == s.calls;
        s' := s1;
      }
    }
  }
}
