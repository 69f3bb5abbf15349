/** When an acknowledged failure is sure of a try of its own: before its item is settled, done or
    given up, some call about it begins after the acknowledgement and sends what it can. */
module DlqTries {
  import opened Support
  import opened Addresses
  import opened Delivery
  import opened RelayService
  import opened DlqItems
  import opened DlqProtocol
  import opened DlqPaths
  import opened DlqSends
  import opened DlqRuns
  import opened DlqAcks

  // ----- replays still to be recorded -----

  function WorkerPending(w: Worker, id: string): nat {
    if (w.Sending? || w.Answered?) && w.batch != [] && w.batch[0].id == id then 1 else 0
  }

  predicate SlotPending(r: Replay, id: string) {
    !r.Fetched? && r.item.id == id
  }

  function PendingSlots(replays: map<nat, Replay>, id: string): set<nat> {
    set k | k in replays && SlotPending(replays[k], id)
  }

  /** How many replays of the item have begun and are still to be recorded. */
  function Pending(s: State, id: string): nat {
    WorkerPending(s.worker, id) + |PendingSlots(s.replays, id)|
  }

  /** Even if all of those fail, the item has tries left. */
  predicate TryLeft(cfg: Setup, s: State, id: string) {
    id in s.mem && (cfg.maxRetries > 0 ==> s.mem[id].attempt + Pending(s, id) < cfg.maxRetries)
  }

  /** The call had nothing to send: its address did not resolve or its mail did not parse. */
  predicate HadNothing(cfg: Setup, c: Call) {
    ParseAddress(cfg.relay.domain, c.aliases, c.payload.recipient).Err? || cfg.relay.parseMail(c.payload.raw).None?
  }

  /** A call about p that began after n acknowledgements has returned, and the messenger has seen a
      try of it unless it had nothing to send. */
  ghost predicate TriedSince(cfg: Setup, s: State, n: nat, p: Payload) {
    exists c :: c in s.calls && c.payload == p && c.since >= n && (TriesBy(s.sent, c.no) != [] || HadNothing(cfg, c))
  }

  predicate SettledSomewhere(s: State, id: string) {
    (id in s.mem && !IsLive(s.mem[id])) || (id in s.disk && !IsLive(s.disk[id]))
  }

  // ----- enough -----

  predicate LiveIn(m: Items, id: string, p: Payload, max: int) {
    id in m && PayloadOf(m[id]) == p && IsLive(m[id]) && (max > 0 ==> m[id].attempt < max)
  }

  /** A call about p that began after n acknowledgements has returned. */
  ghost predicate AnsweredSince(s: State, n: nat, p: Payload) {
    exists c :: c in s.calls && c.payload == p && c.since >= n
  }

  predicate BeganSince(fs: seq<Flight>, no: nat, n: nat) {
    no < |fs| && fs[no].since >= n
  }

  // Of the replays under way, the following count those only that began before n acknowledgements.

  predicate OldWorker(fs: seq<Flight>, w: Worker, n: nat) {
    w.Sending? ==> !BeganSince(fs, w.no, n)
  }

  predicate OldSlot(fs: seq<Flight>, r: Replay, n: nat) {
    r.Trying? ==> !BeganSince(fs, r.no, n)
  }

  function OldSlots(fs: seq<Flight>, replays: map<nat, Replay>, id: string, n: nat): set<nat> {
    set k | k in replays && SlotPending(replays[k], id) && OldSlot(fs, replays[k], n)
  }

  function OldPending(s: State, id: string, n: nat): nat {
    (if OldWorker(s.flights, s.worker, n) then WorkerPending(s.worker, id) else 0) + |OldSlots(s.flights, s.replays, id, n)|
  }

  ghost predicate NothingOld(cfg: Setup, s: State, id: string, n: nat) {
    && (OldWorker(s.flights, s.worker, n) ==> WorkerOwesNothing(cfg, s.flights, s.worker, id))
    && forall k :: k in s.replays && OldSlot(s.flights, s.replays[k], n) ==> AdminOwesNothing(cfg, s.flights, s.replays[k], id)
  }

  predicate OldTryLeft(cfg: Setup, s: State, id: string, n: nat) {
    id in s.mem && (cfg.maxRetries > 0 ==> s.mem[id].attempt + OldPending(s, id, n) < cfg.maxRetries)
  }

  /** The item is live, and no replay that began before can settle it. */
  ghost predicate Unspent(cfg: Setup, s: State, id: string, p: Payload, n: nat) {
    && n <= s.acks && LiveIn(s.mem, id, p, cfg.maxRetries) && LiveIn(s.disk, id, p, cfg.maxRetries)
    && NothingOld(cfg, s, id, n) && OldTryLeft(cfg, s, id, n)
  }

  /** Calls that have returned stay, and a return adds one. */
  ghost predicate CallsKept(s: State, e: Event, s': State) {
    s'.calls == if e.SmtpRelay? || e.WorkerRelay? || e.AdminRelay? then s.calls + [e.call] else s.calls
  }

  lemma StepKeepsCalls(cfg: Setup, s: State, e: Event, s': State)
    requires ValidSetup(cfg) && Step(cfg, s, e, s')
    ensures CallsKept(s, e, s')
  {
  }

  lemma AnsweredStays(s: State, e: Event, s': State, n: nat, p: Payload)
    requires CallsKept(s, e, s') && AnsweredSince(s, n, p)
    ensures AnsweredSince(s', n, p)
  {
    var c :| c in s.calls && c.payload == p && c.since >= n;
    assert c in s'.calls;
  }

  /** A return of a call about p that began since is what is claimed. */
  lemma OldReturn(s: State, e: Event, s': State, n: nat, p: Payload)
    requires CallsKept(s, e, s') && !AnsweredSince(s', n, p) && (e.WorkerRelay? || e.AdminRelay?)
    ensures e.call.payload == p ==> e.call.since < n
  {
    assert e.call in s'.calls;
  }

  lemma WorkerStaysOld(cfg: Setup, s: State, e: Event, s': State, id: string, p: Payload, n: nat)
    requires WorkerMoves(s, e, s') && FlightsMove(cfg, s, s') && CallsKept(s, e, s') && HonestEvent(cfg, e) && n <= s.acks
    requires Awaited(s) && WorkerHolds(s.mem, s.worker) && id in s.mem && PayloadOf(s.mem[id]) == p
    requires s'.worker.Sending? && s'.worker.batch != [] ==> s'.worker.no < |s'.flights|
    requires OldWorker(s.flights, s.worker, n) ==> WorkerOwesNothing(cfg, s.flights, s.worker, id)
    requires !AnsweredSince(s', n, p)
    ensures OldWorker(s'.flights, s'.worker, n) ==> WorkerOwesNothing(cfg, s'.flights, s'.worker, id)
    ensures OldWorker(s'.flights, s'.worker, n) && WorkerPending(s'.worker, id) == 1 ==>
      OldWorker(s.flights, s.worker, n) && WorkerPending(s.worker, id) == 1
  {
    if s.worker.Sending? && s.worker.batch != [] {
      assert Held(s.mem, WorkerItems(s.worker)[0]);
      if e.WorkerRelay? && e.call.no == s.worker.no && Returns(s, ByWorker, e.call) {
        OldReturn(s, e, s', n, p);
        if e.call.result.Ok? {
          NilMaySucceed(cfg, s, ByWorker, e.call);
        }
      }
    }
  }

  lemma SlotStaysOld(cfg: Setup, s: State, e: Event, s': State, id: string, p: Payload, n: nat, k: nat)
    requires k in s'.replays && SlotMoves(s, e, s', k) && FlightsMove(cfg, s, s') && CallsKept(s, e, s') && HonestEvent(cfg, e)
    requires n <= s.acks && Awaited(s) && AdminsHold(s.mem, s.replays) && id in s.mem && PayloadOf(s.mem[id]) == p
    requires s'.replays[k].Trying? ==> s'.replays[k].no < |s'.flights|
    requires k in s.replays && OldSlot(s.flights, s.replays[k], n) ==> AdminOwesNothing(cfg, s.flights, s.replays[k], id)
    requires !AnsweredSince(s', n, p)
    ensures OldSlot(s'.flights, s'.replays[k], n) ==> AdminOwesNothing(cfg, s'.flights, s'.replays[k], id)
    ensures OldSlot(s'.flights, s'.replays[k], n) && SlotPending(s'.replays[k], id) ==>
      k in s.replays && OldSlot(s.flights, s.replays[k], n) && SlotPending(s.replays[k], id)
  {
    if k in s.replays {
      assert Held(s.mem, s.replays[k].item);
      if e.AdminRelay? && s.replays[k].Trying? && e.call.no == s.replays[k].no && Returns(s, ByAdmin(k), e.call) {
        OldReturn(s, e, s', n, p);
        if e.call.result.Ok? {
          NilMaySucceed(cfg, s, ByAdmin(k), e.call);
        }
      }
    }
  }

  /** A step that answers no new call brings no old replay of the item back. */
  ghost predicate StaysOld(cfg: Setup, s: State, s': State, id: string, n: nat) {
    && NothingOld(cfg, s', id, n)
    && (OldWorker(s'.flights, s'.worker, n) && WorkerPending(s'.worker, id) == 1 ==>
          OldWorker(s.flights, s.worker, n) && WorkerPending(s.worker, id) == 1)
    && OldSlots(s'.flights, s'.replays, id, n) <= OldSlots(s.flights, s.replays, id, n)
  }

  /** What a step may do to calls, flights and replays. */
  ghost predicate Moves(cfg: Setup, s: State, e: Event, s': State) {
    && CallsKept(s, e, s') && FlightsMove(cfg, s, s') && HonestEvent(cfg, e) && WorkerMoves(s, e, s')
    && forall k :: k in s'.replays ==> SlotMoves(s, e, s', k)
  }

  lemma StepMoves(cfg: Setup, s: State, e: Event, s': State)
    requires ValidSetup(cfg) && Step(cfg, s, e, s') && HonestEvent(cfg, e)
    ensures Moves(cfg, s, e, s')
  {
    StepKeepsCalls(cfg, s, e, s');
    StepMovesFlights(cfg, s, e, s');
    StepMovesWorker(cfg, s, e, s');
    forall k | k in s'.replays
      ensures SlotMoves(s, e, s', k)
    {
      StepMovesSlot(cfg, s, e, s', k);
    }
  }

  lemma NothingOldStays(cfg: Setup, s: State, e: Event, s': State, id: string, p: Payload, n: nat)
    requires Moves(cfg, s, e, s') && Holding(s.mem, s.worker, s.replays) && Awaited(s) && Awaited(s') && n <= s.acks
    requires NothingOld(cfg, s, id, n) && id in s.mem && PayloadOf(s.mem[id]) == p && !AnsweredSince(s', n, p)
    ensures StaysOld(cfg, s, s', id, n)
  {
    WorkerStaysOld(cfg, s, e, s', id, p, n);
    forall k | k in s'.replays
      ensures OldSlot(s'.flights, s'.replays[k], n) ==> AdminOwesNothing(cfg, s'.flights, s'.replays[k], id)
      ensures OldSlot(s'.flights, s'.replays[k], n) && SlotPending(s'.replays[k], id) ==>
        k in s.replays && OldSlot(s.flights, s.replays[k], n) && SlotPending(s.replays[k], id)
    {
      SlotStaysOld(cfg, s, e, s', id, p, n, k);
    }
  }

  /** The event records the outcome of a replay of the item. */
  predicate Records(s: State, e: Event, id: string) {
    match e
    case WorkerMark(_, _, _, _) => s.worker.Answered? && s.worker.batch != [] && s.worker.batch[0].id == id
    case AdminMark(k, _, _, _) => k in s.replays && s.replays[k].Replied? && s.replays[k].item.id == id
    case _ => false
  }

  /** And that replay is pending no more. */
  lemma RecordTakesOff(cfg: Setup, s: State, e: Event, s': State, id: string, n: nat)
    requires ValidSetup(cfg) && Step(cfg, s, e, s') && Records(s, e, id)
    ensures e.WorkerMark? ==> WorkerPending(s'.worker, id) == 0 && WorkerPending(s.worker, id) == 1
    ensures e.AdminMark? ==> e.k in OldSlots(s.flights, s.replays, id, n) && e.k !in OldSlots(s'.flights, s'.replays, id, n)
    ensures e.WorkerMark? ==> OldWorker(s.flights, s.worker, n)
    ensures s'.worker == s.worker || e.WorkerMark?
  {
  }

  lemma Smaller(a: set<nat>, b: set<nat>)
    requires a <= b
    ensures |a| <= |b| && (a != b ==> |a| < |b|)
  {
    assert b == a + (b - a);
  }

  lemma PendingAfter(cfg: Setup, s: State, e: Event, s': State, id: string, n: nat)
    requires ValidSetup(cfg) && Step(cfg, s, e, s') && StaysOld(cfg, s, s', id, n)
    ensures OldPending(s', id, n) + (if Records(s, e, id) then 1 else 0) <= OldPending(s, id, n)
  {
    if Records(s, e, id) {
      RecordTakesOff(cfg, s, e, s', id, n);
    }
    Smaller(OldSlots(s'.flights, s'.replays, id, n), OldSlots(s.flights, s.replays, id, n));
  }

  /** What a change does to a live item that no nil answer is recorded for. */
  lemma LiveAfter(m: Items, c: Change, max: int, id: string, p: Payload)
    requires Allowed(m, c) && LiveIn(m, id, p, max) && !(c.Completed? && c.id == id)
    ensures var m' := After(m, c, max);
      && id in m' && m'[id].attempt == m[id].attempt + (if c.Retried? && c.id == id then 1 else 0)
      && ((max > 0 ==> m'[id].attempt < max) ==> LiveIn(m', id, p, max))
  {
  }

  lemma ChangeOfRecord(cfg: Setup, s: State, e: Event, id: string, n: nat)
    requires ValidSetup(cfg) && NothingOld(cfg, s, id, n) && id in s.mem
    ensures var c := ChangeOf(cfg, s, e); !(c.Completed? && c.id == id) && (c.Retried? && c.id == id ==> Records(s, e, id))
  {
  }

  /** A recorded failure takes a pending replay off and a try away. */
  lemma LiveStays(cfg: Setup, s: State, e: Event, s': State, id: string, p: Payload, n: nat)
    requires ValidSetup(cfg) && Changes(cfg, s, e, s') && NothingOld(cfg, s, id, n) && OldTryLeft(cfg, s, id, n)
    requires LiveIn(s.mem, id, p, cfg.maxRetries) && LiveIn(s.disk, id, p, cfg.maxRetries)
    requires OldPending(s', id, n) + (if Records(s, e, id) then 1 else 0) <= OldPending(s, id, n)
    ensures LiveIn(s'.mem, id, p, cfg.maxRetries) && LiveIn(s'.disk, id, p, cfg.maxRetries) && OldTryLeft(cfg, s', id, n)
  {
    ChangeOfRecord(cfg, s, e, id, n);
    LiveAfter(s.mem, ChangeOf(cfg, s, e), cfg.maxRetries, id, p);
  }

  lemma NothingAfterCrash(cfg: Setup, s: State, id: string, n: nat)
    requires s.worker == Idle && s.replays == map[]
    ensures NothingOld(cfg, s, id, n) && OldPending(s, id, n) == 0
  {
    assert OldSlots(s.flights, s.replays, id, n) == {};
  }

  lemma UnspentAfterCrash(cfg: Setup, s: State, s': State, id: string, p: Payload, n: nat)
    requires Good(s.disk) && CrashStep(s, s') && n <= s.acks && LiveIn(s.disk, id, p, cfg.maxRetries)
    ensures Unspent(cfg, s', id, p, n)
  {
    ReloadedShape(s.disk);
    NothingAfterCrash(cfg, s', id, n);
  }

  lemma UnspentStays(cfg: Setup, s: State, e: Event, s': State, id: string, p: Payload, n: nat)
    requires ValidSetup(cfg) && Safe(s) && Awaited(s) && Awaited(s') && Step(cfg, s, e, s') && HonestEvent(cfg, e)
    requires Unspent(cfg, s, id, p, n) && !AnsweredSince(s', n, p)
    ensures Unspent(cfg, s', id, p, n)
  {
    if e.Crash? {
      UnspentAfterCrash(cfg, s, s', id, p, n);
    } else {
      StepMoves(cfg, s, e, s');
      NothingOldStays(cfg, s, e, s', id, p, n);
      PendingAfter(cfg, s, e, s', id, n);
      StepChanges(cfg, s, e, s');
      LiveStays(cfg, s, e, s', id, p, n);
      StepCountsAcks(cfg, s, e, s');
    }
  }

  lemma {:induction false} RunStaysUnspent(cfg: Setup, ss: seq<State>, es: seq<Event>, i: nat, j: nat, id: string, p: Payload,
                                           n: nat)
    requires ValidSetup(cfg) && Run(cfg, ss, es) && i <= j <= |es| && Unspent(cfg, ss[i], id, p, n)
    ensures Unspent(cfg, ss[j], id, p, n) || AnsweredSince(ss[j], n, p)
    decreases j
  {
    if i < j {
      RunStaysUnspent(cfg, ss, es, i, j - 1, id, p, n);
      UnspentOnce(cfg, ss, es, j - 1, id, p, n);
    }
  }

  lemma UnspentOnce(cfg: Setup, ss: seq<State>, es: seq<Event>, k: nat, id: string, p: Payload, n: nat)
    requires ValidSetup(cfg) && Run(cfg, ss, es) && k < |es| && (Unspent(cfg, ss[k], id, p, n) || AnsweredSince(ss[k], n, p))
    ensures Unspent(cfg, ss[k + 1], id, p, n) || AnsweredSince(ss[k + 1], n, p)
  {
    RunIsSafe(cfg, ss, es, k);
    RunIsAwaited(cfg, ss, es, k);
    RunIsAwaited(cfg, ss, es, k + 1);
    assert StepAt(cfg, ss, es, k);
    if AnsweredSince(ss[k], n, p) {
      StepKeepsCalls(cfg, ss[k], es[k], ss[k + 1]);
      AnsweredStays(ss[k], es[k], ss[k + 1], n, p);
    } else if !AnsweredSince(ss[k + 1], n, p) {
      UnspentStays(cfg, ss[k], es[k], ss[k + 1], id, p, n);
    }
  }

  lemma {:induction false} SomethingSent(bs: seq<Block>, plan: seq<Send>, bound: nat, ok: bool)
    requires Executes(bs, plan, bound, ok) && (ok ==> plan != [])
    ensures LogOf(bs) != []
  {
    var b := bs[|bs| - 1];
    assert LogOf(bs) == LogOf(bs[..|bs| - 1]) + TriesOf(b) && |TriesOf(b)| > 0;
  }

  /** A call that returns has made a try, or had nothing to send. */
  lemma AnswerWasTried(cfg: Setup, c: Call)
    requires Honest(cfg, c)
    ensures LogOf(c.bs) != [] || HadNothing(cfg, c)
  {
    if !HadNothing(cfg, c) {
      if c.result.Ok? {
        NilPlan(cfg, c);
      }
      SomethingSent(c.bs, PlanFor(cfg, c.payload, c.aliases), Bound(cfg.relay.maxSendRetries), c.result.Ok?);
    }
  }

  lemma AnsweredWasTried(cfg: Setup, ss: seq<State>, es: seq<Event>, n: nat, p: Payload)
    requires ValidSetup(cfg) && Run(cfg, ss, es) && AnsweredSince(ss[|es|], n, p)
    ensures TriedSince(cfg, ss[|es|], n, p)
  {
    var s := ss[|es|];
    var c :| c in s.calls && c.payload == p && c.since >= n;
    RunIsSound(cfg, ss, es, |es|);
    RunIsHonest(cfg, ss, es, |es|);
    assert IsFlight(s.flights, c) && KeepsToPlan(cfg, s, c.no);
    AnswerWasTried(cfg, c);
  }

  // ----- and necessary -----

  ghost predicate FlightsFine(cfg: Setup, s: State) {
    forall no: nat :: no < |s.flights| ==> IsRunning(cfg, s.flights[no])
  }

  /** The call as it comes back when it cannot succeed. */
  function FailCall(cfg: Setup, s: State, no: nat): Call
    requires no < |s.flights|
  {
    var f := s.flights[no];
    var parsed := ParseAddress(cfg.relay.domain, f.aliases, f.payload.recipient);
    var error := if parsed.Err? then BadRecipient(parsed.error)
                 else if cfg.relay.parseMail(f.payload.raw).None? then BadMessage else SendFailed("");
    Call(f.payload, f.aliases, Err(error), f.bs, f.since, no)
  }

  lemma FailIsHonest(cfg: Setup, s: State, no: nat)
    requires no < |s.flights| && IsRunning(cfg, s.flights[no]) && !MaySucceed(cfg, s.flights[no])
    ensures Honest(cfg, FailCall(cfg, s, no))
  {
  }

  /** The same calls, some of them over now. */
  ghost predicate SameFlights(s: State, s': State) {
    |s'.flights| == |s.flights| &&
    forall no: nat :: no < |s.flights| ==> s'.flights[no] == s.flights[no].(open := s'.flights[no].open)
  }

  /** One pending replay of the item has been recorded as failed. */
  ghost predicate OneLess(cfg: Setup, s: State, s': State, id: string) {
    && id in s.mem && id in s'.mem && s'.mem[id].attempt == s.mem[id].attempt + 1
    && (cfg.maxRetries > 0 && s'.mem[id].attempt >= cfg.maxRetries ==> s'.mem[id].status == Failed)
    && Pending(s', id) + 1 == Pending(s, id)
  }

  lemma WorkerAnswers(cfg: Setup, s: State, id: string, n: nat) returns (s': State)
    requires ValidSetup(cfg) && Awaited(s) && FlightsFine(cfg, s) && AllBefore(s, n)
    requires WorkerPending(s.worker, id) == 1 && WorkerOwesNothing(cfg, s.flights, s.worker, id)
    ensures Follows(cfg, s, s') && s'.worker == Answered(s.worker.batch, false)
    ensures s'.mem == s.mem && s'.replays == s.replays && SameFlights(s, s') && AllBefore(s', n)
  {
    StaysThere(cfg, s);
    s' := s;
    if s.worker.Sending? {
      var c := FailCall(cfg, s, s.worker.no);
      FailIsHonest(cfg, s, s.worker.no);
      s' := s.(worker := Answered(s.worker.batch, false), flights := Closed(s.flights, s.worker.no), calls := s.calls + [c]);
      OneMore(cfg, s, s, WorkerRelay(c), s');
    }
  }

  lemma WorkerRecordsFailure(cfg: Setup, s: State, id: string) returns (s': State)
    requires ValidSetup(cfg) && s.worker.Answered? && !s.worker.ok && s.worker.batch != []
    requires s.worker.batch[0].id == id && id in s.mem
    ensures Follows(cfg, s, s') && OneLess(cfg, s, s', id)
    ensures s'.flights == s.flights && s'.calls == s.calls && s'.replays == s.replays && !s'.worker.Sending? && !s'.worker.Answered?
  {
    var item, rest := s.worker.batch[0], s.worker.batch[1..];
    var mem := Marked(cfg, s.mem, item, false, WorkerNext(cfg, item, 0, 0), "", 0);
    s' := s.(mem := mem, disk := mem, worker := if rest == [] then Idle else Busy(rest),
             failures := Noted(s.failures, s.mem, item, false, 0));
    OneStep(cfg, s, WorkerMark(0, 0, "", true), s');
  }

  lemma OwesNothingStill(cfg: Setup, s: State, s': State, id: string)
    requires NothingBegun(cfg, s, id) && SameFlights(s, s')
    requires s'.worker == s.worker || (!s'.worker.Sending? && !(s'.worker.Answered? && s'.worker.ok))
    requires forall k :: k in s'.replays ==>
      (k in s.replays && s'.replays[k] == s.replays[k]) || (s'.replays[k].Replied? && !s'.replays[k].ok)
    ensures NothingBegun(cfg, s', id)
  {
    forall k | k in s'.replays
      ensures AdminOwesNothing(cfg, s'.flights, s'.replays[k], id)
    {
      if k in s.replays {
        assert AdminOwesNothing(cfg, s.flights, s.replays[k], id);
      }
    }
  }

  lemma WorkerFails(cfg: Setup, s: State, id: string, n: nat) returns (s': State)
    requires ValidSetup(cfg) && Awaited(s) && FlightsFine(cfg, s) && AllBefore(s, n) && NothingBegun(cfg, s, id)
    requires WorkerPending(s.worker, id) == 1 && id in s.mem
    ensures Follows(cfg, s, s') && OneLess(cfg, s, s', id) && AllBefore(s', n) && NothingBegun(cfg, s', id)
  {
    var s1 := WorkerAnswers(cfg, s, id, n);
    s' := WorkerRecordsFailure(cfg, s1, id);
    Onward(cfg, s, s1, s');
    OwesNothingStill(cfg, s, s', id);
  }

  lemma SlotAnswers(cfg: Setup, s: State, k: nat, id: string, n: nat) returns (s': State)
    requires ValidSetup(cfg) && Awaited(s) && FlightsFine(cfg, s) && AllBefore(s, n)
    requires k in s.replays && SlotPending(s.replays[k], id) && AdminOwesNothing(cfg, s.flights, s.replays[k], id)
    ensures Follows(cfg, s, s') && s'.replays == s.replays[k := Replied(s.replays[k].item, false)]
    ensures s'.mem == s.mem && s'.worker == s.worker && SameFlights(s, s') && AllBefore(s', n)
  {
    StaysThere(cfg, s);
    var r := s.replays[k];
    if r.Trying? {
      var c := FailCall(cfg, s, r.no);
      FailIsHonest(cfg, s, r.no);
      s' := s.(replays := s.replays[k := Replied(r.item, false)], flights := Closed(s.flights, r.no), calls := s.calls + [c]);
      OneMore(cfg, s, s, AdminRelay(k, c), s');
    } else {
      s' := s;
      assert s.replays == s.replays[k := r];
    }
  }

  lemma SlotRecordsFailure(cfg: Setup, s: State, k: nat, id: string) returns (s': State)
    requires ValidSetup(cfg) && k in s.replays && s.replays[k].Replied? && !s.replays[k].ok
    requires s.replays[k].item.id == id && id in s.mem
    ensures Follows(cfg, s, s') && OneLess(cfg, s, s', id)
    ensures s'.flights == s.flights && s'.calls == s.calls && s'.replays == s.replays - {k} && s'.worker == s.worker
  {
    var item := s.replays[k].item;
    var mem := Marked(cfg, s.mem, item, false, AdminNext(cfg, item, 0), "", 0);
    s' := s.(mem := mem, disk := mem, replays := s.replays - {k}, failures := Noted(s.failures, s.mem, item, false, 0));
    OneStep(cfg, s, AdminMark(k, 0, "", true), s');
    assert k in PendingSlots(s.replays, id) && PendingSlots(s'.replays, id) == PendingSlots(s.replays, id) - {k};
  }

  lemma SlotFails(cfg: Setup, s: State, k: nat, id: string, n: nat) returns (s': State)
    requires ValidSetup(cfg) && Awaited(s) && FlightsFine(cfg, s) && AllBefore(s, n) && NothingBegun(cfg, s, id)
    requires k in s.replays && SlotPending(s.replays[k], id) && id in s.mem
    ensures Follows(cfg, s, s') && OneLess(cfg, s, s', id) && AllBefore(s', n) && NothingBegun(cfg, s', id)
  {
    var s1 := SlotAnswers(cfg, s, k, id, n);
    SamePending(s, s1, k, id);
    s' := SlotRecordsFailure(cfg, s1, k, id);
    Onward(cfg, s, s1, s');
    assert s'.replays == s.replays - {k};
    OwesNothingStill(cfg, s, s', id);
  }

  lemma SamePending(s: State, s': State, k: nat, id: string)
    requires k in s.replays && SlotPending(s.replays[k], id) && s'.worker == s.worker
    requires s'.replays == s.replays[k := Replied(s.replays[k].item, false)]
    ensures Pending(s', id) == Pending(s, id)
  {
    assert PendingSlots(s'.replays, id) == PendingSlots(s.replays, id);
  }

  lemma SomeReplayFails(cfg: Setup, s: State, id: string, n: nat) returns (s': State)
    requires ValidSetup(cfg) && Awaited(s) && FlightsFine(cfg, s) && AllBefore(s, n) && NothingBegun(cfg, s, id)
    requires id in s.mem && Pending(s, id) > 0
    ensures Follows(cfg, s, s') && OneLess(cfg, s, s', id) && AllBefore(s', n) && NothingBegun(cfg, s', id)
  {
    if WorkerPending(s.worker, id) == 1 {
      s' := WorkerFails(cfg, s, id, n);
    } else {
      var k :| k in PendingSlots(s.replays, id);
      s' := SlotFails(cfg, s, k, id, n);
    }
  }

  /** If all pending replays may fail and that uses up the tries, the item can be given up with no
      call begun since. */
  lemma {:induction false} CanGiveUp(cfg: Setup, ss: seq<State>, es: seq<Event>, id: string, n: nat)
    returns (ss': seq<State>, es': seq<Event>)
    requires ValidSetup(cfg) && Run(cfg, ss, es) && AllBefore(ss[|es|], n) && NothingBegun(cfg, ss[|es|], id)
    requires id in ss[|es|].mem && !TryLeft(cfg, ss[|es|], id) && Pending(ss[|es|], id) > 0
    ensures Continues(cfg, ss, es, ss', es') && AllBefore(ss'[|es'|], n)
    ensures id in ss'[|es'|].mem && ss'[|es'|].mem[id].status == Failed
    decreases Pending(ss[|es|], id)
  {
    RunIsAwaited(cfg, ss, es, |es|);
    RunIsFine(cfg, ss, es);
    var s' := SomeReplayFails(cfg, ss[|es|], id, n);
    ss', es' := RunsOn(cfg, ss, es, s');
    if s'.mem[id].attempt < cfg.maxRetries {
      ss', es' := CanGiveUp(cfg, ss', es', id, n);
    }
  }

  lemma RunIsFine(cfg: Setup, ss: seq<State>, es: seq<Event>)
    requires ValidSetup(cfg) && Run(cfg, ss, es)
    ensures FlightsFine(cfg, ss[|es|])
  {
    RunIsSound(cfg, ss, es, |es|);
    forall no: nat | no < |ss[|es|].flights|
      ensures IsRunning(cfg, ss[|es|].flights[no])
    {
      assert KeepsToPlan(cfg, ss[|es|], no);
    }
  }

  /** In every continuation of the run, when the item is done or given up, in memory or in the file,
      some call about it that began since the acknowledgement has returned, and the messenger has
      seen a try of it unless its address did not resolve or its mail did not parse. */
  ghost predicate SureOfATry(cfg: Setup, ss: seq<State>, es: seq<Event>)
    requires ValidSetup(cfg) && |ss| == |es| + 1 && es != [] && Acks(es[|es| - 1])
  {
    forall ss': seq<State>, es': seq<Event> :: Continues(cfg, ss, es, ss', es') ==>
      SettledSomewhere(ss'[|es'|], es[|es| - 1].out.id) ==>
      TriedSince(cfg, ss'[|es'|], ss[|es|].acks, es[|es| - 1].call.payload)
  }

  /** What holds right after the acknowledgement. */
  lemma AckIsLive(cfg: Setup, ss: seq<State>, es: seq<Event>)
    requires ValidSetup(cfg) && Run(cfg, ss, es) && es != [] && Acks(es[|es| - 1])
    ensures var s, e := ss[|es|], es[|es| - 1];
      && LiveIn(s.mem, e.out.id, e.call.payload, cfg.maxRetries) && LiveIn(s.disk, e.out.id, e.call.payload, cfg.maxRetries)
      && AllBefore(s, s.acks)
  {
    AfterAck(cfg, ss, es);
    AckLeavesLive(cfg, ss, es, |es| - 1);
    if cfg.maxRetries > 0 {
      BudgetHolds(cfg, ss, es, |es|);
    }
  }

  lemma OnlyOld(s: State, id: string, n: nat)
    requires AllBefore(s, n)
    ensures OldPending(s, id, n) == Pending(s, id) && OldWorker(s.flights, s.worker, n)
    ensures forall k :: k in s.replays ==> OldSlot(s.flights, s.replays[k], n)
  {
    assert OldSlots(s.flights, s.replays, id, n) == PendingSlots(s.replays, id);
  }

  /** An acknowledged failure is sure of a try of its own exactly when no replay of the item has begun
      that may still be recorded as delivered, and the replays of it still to be recorded, failing
      all, leave it a try. */
  lemma SureOfATryIff(cfg: Setup, ss: seq<State>, es: seq<Event>)
    requires ValidSetup(cfg) && Run(cfg, ss, es) && es != [] && Acks(es[|es| - 1])
    ensures var s, id := ss[|es|], es[|es| - 1].out.id;
            SureOfATry(cfg, ss, es) <==> NothingBegun(cfg, s, id) && TryLeft(cfg, s, id)
  {
    var s, e := ss[|es|], es[|es| - 1];
    AckIsLive(cfg, ss, es);
    if !NothingBegun(cfg, s, e.out.id) {
      var ss', es' := EarlyEnd(cfg, ss, es);
      assert SettledSomewhere(ss'[|es'|], e.out.id) && !TriedSince(cfg, ss'[|es'|], s.acks, e.call.payload);
    } else if !TryLeft(cfg, s, e.out.id) {
      var ss', es' := CanGiveUp(cfg, ss, es, e.out.id, s.acks);
      assert SettledSomewhere(ss'[|es'|], e.out.id) && !TriedSince(cfg, ss'[|es'|], s.acks, e.call.payload);
    } else {
      forall ss': seq<State>, es': seq<Event> | Continues(cfg, ss, es, ss', es') && SettledSomewhere(ss'[|es'|], e.out.id)
        ensures TriedSince(cfg, ss'[|es'|], s.acks, e.call.payload)
      {
        assert ss'[|es|] == ss[|es|];
        OnlyOld(s, e.out.id, s.acks);
        RunStaysUnspent(cfg, ss', es', |es|, |es'|, e.out.id, e.call.payload, s.acks);
        AnsweredWasTried(cfg, ss', es', s.acks, e.call.payload);
      }
    }
  }

  // ----- a mail given up untried -----

  /** In the run the item is acknowledged at step i and given up at the end, and no call at all has
      begun in between. */
  ghost predicate GivenUpUntried(cfg: Setup, ss: seq<State>, es: seq<Event>, i: nat)
    requires ValidSetup(cfg)
  {
    && Run(cfg, ss, es) && i < |es| && Acks(es[i])
    && es[i].out.id in ss[|es|].mem && ss[|es|].mem[es[i].out.id].status == Failed
    && AllBefore(ss[|es|], ss[i + 1].acks)
  }

  /** Where one try is all an item has: the worker's only try of the first copy has failed, the second
      copy is refused and merged before that is recorded, and then the item is given up. */
  lemma LastTryLost(cfg: Setup, bad: Call)
    requires ValidSetup(cfg) && cfg.maxRetries == 1 && CanFail(cfg, bad)
    ensures exists ss, es, i :: GivenUpUntried(cfg, ss, es, i)
  {
    var s := FirstPick(bad, true);
    var s1 := Flown(s, ByWorker, bad).(worker := Answered(s.worker.batch, false));
    FirstPickHappens(cfg, bad, true);
    WorkerAsks(cfg, s, bad);
    OnwardPlainly(cfg, START, s, s1);
    var ss, es := MailComesAgain(cfg, s1, bad);
    AckIsLive(cfg, ss, es);
    var ss', es' := CanGiveUp(cfg, ss, es, "1", ss[|es|].acks);
    assert es'[|es| - 1] == es[|es| - 1] && ss'[|es|] == ss[|es|];
    assert GivenUpUntried(cfg, ss', es', |es| - 1);
  }
}
