/** What an acknowledgement is worth: a mail whose sending failed was queued without error; when
    does its item being done later mean that it was sent after that? */
module DlqAcks {
  import opened Support
  import opened Addresses
  import opened Delivery
  import opened RelayService
  import opened DlqItems
  import opened DlqProtocol
  import opened DlqPaths
  import opened DlqRuns
  import opened DlqSends

  /** The call may still answer nil: its mail parses and resolves, and the send it is at has tries
      left. */
  predicate MaySucceed(cfg: Setup, f: Flight) {
    && ParseAddress(cfg.relay.domain, f.aliases, f.payload.recipient).Ok? && cfg.relay.parseMail(f.payload.raw).Some?
    && TriesLeft(f.bs, Bound(cfg.relay.maxSendRetries))
  }

  predicate MayComeBack(cfg: Setup, fs: seq<Flight>, no: nat) {
    no < |fs| && MaySucceed(cfg, fs[no])
  }

  /** No replay of the item has begun that may still be recorded as delivered. */
  ghost predicate NothingBegun(cfg: Setup, s: State, id: string) {
    && WorkerOwesNothing(cfg, s.flights, s.worker, id)
    && forall k :: k in s.replays ==> AdminOwesNothing(cfg, s.flights, s.replays[k], id)
  }

  predicate WorkerOwesNothing(cfg: Setup, fs: seq<Flight>, w: Worker, id: string) {
    ((w.Sending? && MayComeBack(cfg, fs, w.no)) || (w.Answered? && w.ok)) && w.batch != [] ==> w.batch[0].id != id
  }

  predicate AdminOwesNothing(cfg: Setup, fs: seq<Flight>, r: Replay, id: string) {
    (r.Trying? && MayComeBack(cfg, fs, r.no)) || (r.Replied? && r.ok) ==> r.item.id != id
  }

  // ----- enough -----

  /** A call on the payload that began after n acknowledgements and answered nil. */
  ghost predicate RecentOk(calls: seq<Call>, n: nat, p: Payload) {
    exists c :: c in calls && c.payload == p && c.result.Ok? && c.since >= n
  }

  ghost predicate DoneNeeds(m: Items, id: string, calls: seq<Call>, n: nat, p: Payload) {
    id in m && PayloadOf(m[id]) == p && (m[id].status == Done ==> RecentOk(calls, n, p))
  }

  ghost predicate WorkerFresh(cfg: Setup, s: State, id: string, n: nat, p: Payload) {
    !WorkerOwesNothing(cfg, s.flights, s.worker, id) ==>
      if s.worker.Sending? then s.flights[s.worker.no].since >= n else RecentOk(s.calls, n, p)
  }

  ghost predicate AdminFresh(cfg: Setup, s: State, k: nat, id: string, n: nat, p: Payload)
    requires k in s.replays
  {
    !AdminOwesNothing(cfg, s.flights, s.replays[k], id) ==>
      if s.replays[k].Trying? then s.flights[s.replays[k].no].since >= n else RecentOk(s.calls, n, p)
  }

  /** If the item is done, or a replay of it is under way, that rests on a recent call. */
  ghost predicate Fresh(cfg: Setup, s: State, id: string, p: Payload, n: nat) {
    && n <= s.acks
    && DoneNeeds(s.mem, id, s.calls, n, p) && DoneNeeds(s.disk, id, s.calls, n, p)
    && WorkerFresh(cfg, s, id, n, p)
    && forall k :: k in s.replays ==> AdminFresh(cfg, s, k, id, n, p)
  }

  lemma RecentGrows(calls: seq<Call>, c: Call, n: nat, p: Payload)
    ensures RecentOk(calls, n, p) ==> RecentOk(calls + [c], n, p)
    ensures c.payload == p && c.result.Ok? && c.since >= n ==> RecentOk(calls + [c], n, p)
  {
    assert c in calls + [c];
    if RecentOk(calls, n, p) {
      var d :| d in calls && d.payload == p && d.result.Ok? && d.since >= n;
      assert d in calls + [c];
    }
  }

  ghost predicate CallsGrow(s: State, e: Event, s': State, n: nat, p: Payload) {
    && s.acks <= s'.acks && (RecentOk(s.calls, n, p) ==> RecentOk(s'.calls, n, p))
    && ((e.WorkerRelay? || e.AdminRelay?) && e.call.payload == p && e.call.result.Ok? && e.call.since >= n ==>
          RecentOk(s'.calls, n, p))
  }

  lemma StepGrows(cfg: Setup, s: State, e: Event, s': State, n: nat, p: Payload)
    requires ValidSetup(cfg) && Step(cfg, s, e, s')
    ensures CallsGrow(s, e, s', n, p)
  {
    if e.SmtpRelay? || e.WorkerRelay? || e.AdminRelay? {
      RecentGrows(s.calls, e.call, n, p);
      assert s'.calls == s.calls + [e.call];
    } else {
      assert s'.calls == s.calls;
    }
  }

  /** Calls keep their beginning, and one that cannot succeed never can again. */
  ghost predicate FlightsMove(cfg: Setup, s: State, s': State) {
    && |s.flights| <= |s'.flights|
    && (forall no: nat :: no < |s.flights| ==>
          s'.flights[no].since == s.flights[no].since && (MaySucceed(cfg, s'.flights[no]) ==> MaySucceed(cfg, s.flights[no])))
    && forall no: nat :: |s.flights| <= no < |s'.flights| ==> s'.flights[no].since == s.acks
  }

  lemma SendMovesFlights(cfg: Setup, s: State, no: nat, what: Try, s': State)
    requires SendStep(cfg, s, no, what, s')
    ensures FlightsMove(cfg, s, s')
  {
    var f := s.flights[no];
    var bs := WithTry(f.bs, what);
    assert Failing(f.bs) ==> bs[|bs| - 1].tries <= Bound(cfg.relay.maxSendRetries);
  }

  lemma StepMovesFlights(cfg: Setup, s: State, e: Event, s': State)
    requires ValidSetup(cfg) && Step(cfg, s, e, s')
    ensures FlightsMove(cfg, s, s')
  {
    if e.SendOnce? {
      SendMovesFlights(cfg, s, e.no, e.what, s');
    }
  }

  /** A call that answers nil might have. */
  lemma NilMaySucceed(cfg: Setup, s: State, owner: Owner, c: Call)
    requires Honest(cfg, c) && c.result.Ok? && Returns(s, owner, c)
    ensures MaySucceed(cfg, s.flights[c.no])
  {
    WholeRun(c.bs, PlanFor(cfg, c.payload, c.aliases), Bound(cfg.relay.maxSendRetries));
  }

  lemma DoneNeedsAfter(m: Items, c: Change, max: int, id: string, calls: seq<Call>, n: nat, p: Payload)
    requires Allowed(m, c) && DoneNeeds(m, id, calls, n, p)
    requires c.Completed? && c.id == id ==> RecentOk(calls, n, p)
    ensures DoneNeeds(After(m, c, max), id, calls, n, p)
  {
  }

  lemma CompletesFresh(cfg: Setup, s: State, e: Event, id: string, p: Payload, n: nat)
    requires ValidSetup(cfg) && Fresh(cfg, s, id, p, n)
    ensures var c := ChangeOf(cfg, s, e); c.Completed? && c.id == id ==> RecentOk(s.calls, n, p)
  {
    if e.AdminMark? && e.k in s.replays {
      assert AdminFresh(cfg, s, e.k, id, n, p);
    }
  }

  lemma StepKeepsNeeds(cfg: Setup, s: State, e: Event, s': State, id: string, p: Payload, n: nat)
    requires ValidSetup(cfg) && Safe(s) && Step(cfg, s, e, s') && !e.Crash? && Fresh(cfg, s, id, p, n)
    ensures DoneNeeds(s'.mem, id, s.calls, n, p) && DoneNeeds(s'.disk, id, s.calls, n, p)
  {
    StepChanges(cfg, s, e, s');
    CompletesFresh(cfg, s, e, id, p, n);
    DoneNeedsAfter(s.mem, ChangeOf(cfg, s, e), cfg.maxRetries, id, s.calls, n, p);
  }

  /** What may become of the worker's replay in a step. */
  predicate WorkerMoves(s: State, e: Event, s': State) {
    || s'.worker == s.worker || s'.worker.Idle? || s'.worker.Busy?
    || (s'.worker.Sending? && s'.worker.no == |s.flights|)
    || (e.WorkerRelay? && s.worker.Sending? && s.worker.batch != []
        && s'.worker == Answered(s.worker.batch, e.call.result.Ok?)
        && e.call.payload == PayloadOf(s.worker.batch[0]) && e.call.no == s.worker.no && Returns(s, ByWorker, e.call))
  }

  lemma StepMovesWorker(cfg: Setup, s: State, e: Event, s': State)
    requires ValidSetup(cfg) && Step(cfg, s, e, s')
    ensures WorkerMoves(s, e, s')
  {
  }

  lemma WorkerKeepsFresh(cfg: Setup, s: State, e: Event, s': State, id: string, p: Payload, n: nat)
    requires WorkerMoves(s, e, s') && CallsGrow(s, e, s', n, p) && FlightsMove(cfg, s, s') && HonestEvent(cfg, e)
    requires WorkerHolds(s.mem, s.worker)
    requires n <= s.acks && id in s.mem && PayloadOf(s.mem[id]) == p && WorkerFresh(cfg, s, id, n, p)
    ensures WorkerFresh(cfg, s', id, n, p)
  {
    if s.worker.Sending? && s.worker.batch != [] {
      assert Held(s.mem, WorkerItems(s.worker)[0]);
      if e.WorkerRelay? && e.call.result.Ok? && Returns(s, ByWorker, e.call) {
        NilMaySucceed(cfg, s, ByWorker, e.call);
      }
    }
  }

  /** What may become of one manual replay in a step. */
  predicate SlotMoves(s: State, e: Event, s': State, k: nat)
    requires k in s'.replays
  {
    || (k in s.replays && s'.replays[k] == s.replays[k])
    || s'.replays[k].Fetched?
    || (s'.replays[k].Trying? && s'.replays[k].no == |s.flights|)
    || (e.AdminRelay? && k in s.replays && s.replays[k].Trying?
        && s'.replays[k] == Replied(s.replays[k].item, e.call.result.Ok?)
        && e.call.payload == PayloadOf(s.replays[k].item) && e.call.no == s.replays[k].no && Returns(s, ByAdmin(k), e.call))
  }

  lemma StepMovesSlot(cfg: Setup, s: State, e: Event, s': State, k: nat)
    requires ValidSetup(cfg) && Step(cfg, s, e, s') && k in s'.replays
    ensures SlotMoves(s, e, s', k)
  {
  }

  lemma SlotKeepsFresh(cfg: Setup, s: State, e: Event, s': State, id: string, p: Payload, n: nat, k: nat)
    requires k in s'.replays && SlotMoves(s, e, s', k) && CallsGrow(s, e, s', n, p) && FlightsMove(cfg, s, s')
    requires HonestEvent(cfg, e) && AdminsHold(s.mem, s.replays)
    requires n <= s.acks && id in s.mem && PayloadOf(s.mem[id]) == p
    requires k in s.replays ==> AdminFresh(cfg, s, k, id, n, p)
    ensures AdminFresh(cfg, s', k, id, n, p)
  {
    if k in s.replays {
      assert Held(s.mem, s.replays[k].item);
      if e.AdminRelay? && e.call.result.Ok? && Returns(s, ByAdmin(k), e.call) {
        NilMaySucceed(cfg, s, ByAdmin(k), e.call);
      }
    }
  }

  lemma CrashKeepsFresh(cfg: Setup, s: State, s': State, id: string, p: Payload, n: nat)
    requires Safe(s) && CrashStep(s, s') && Fresh(cfg, s, id, p, n)
    ensures Fresh(cfg, s', id, p, n)
  {
    ReloadedShape(s.disk);
  }

  lemma StepKeepsFresh(cfg: Setup, s: State, e: Event, s': State, id: string, p: Payload, n: nat)
    requires ValidSetup(cfg) && Safe(s) && Step(cfg, s, e, s') && HonestEvent(cfg, e) && Fresh(cfg, s, id, p, n)
    ensures Fresh(cfg, s', id, p, n)
  {
    if e.Crash? {
      CrashKeepsFresh(cfg, s, s', id, p, n);
    } else {
      StepKeepsNeeds(cfg, s, e, s', id, p, n);
      StepGrows(cfg, s, e, s', n, p);
      StepMovesFlights(cfg, s, e, s');
      StepMovesWorker(cfg, s, e, s');
      WorkerKeepsFresh(cfg, s, e, s', id, p, n);
      forall k | k in s'.replays
        ensures AdminFresh(cfg, s', k, id, n, p)
      {
        StepMovesSlot(cfg, s, e, s', k);
        SlotKeepsFresh(cfg, s, e, s', id, p, n, k);
      }
    }
  }

  lemma FreshStays(cfg: Setup, ss: seq<State>, es: seq<Event>, k: nat, id: string, p: Payload, n: nat)
    requires ValidSetup(cfg) && Run(cfg, ss, es) && k < |es| && Fresh(cfg, ss[k], id, p, n)
    ensures Fresh(cfg, ss[k + 1], id, p, n)
  {
    RunIsSafe(cfg, ss, es, k);
    assert StepAt(cfg, ss, es, k);
    StepKeepsFresh(cfg, ss[k], es[k], ss[k + 1], id, p, n);
  }

  lemma {:induction false} RunKeepsFresh(cfg: Setup, ss: seq<State>, es: seq<Event>, i: nat, j: nat, id: string, p: Payload, n: nat)
    requires ValidSetup(cfg) && Run(cfg, ss, es) && i <= j <= |es| && Fresh(cfg, ss[i], id, p, n)
    ensures Fresh(cfg, ss[j], id, p, n)
    decreases j
  {
    if i < j {
      RunKeepsFresh(cfg, ss, es, i, j - 1, id, p, n);
      FreshStays(cfg, ss, es, j - 1, id, p, n);
    }
  }

  /** An acknowledged failure leaves a live item with its payload, saved. */
  lemma AckLeavesLive(cfg: Setup, ss: seq<State>, es: seq<Event>, i: nat)
    requires ValidSetup(cfg) && Run(cfg, ss, es) && i < |es| && Acks(es[i])
    ensures var id, s := es[i].out.id, ss[i + 1];
            id in s.mem && IsLive(s.mem[id]) && PayloadOf(s.mem[id]) == es[i].call.payload && s.disk == s.mem
  {
    RunIsSafe(cfg, ss, es, i);
    assert StepAt(cfg, ss, es, i);
    var c := es[i].call;
    StepAcks(cfg, ss[i], es[i], ss[i + 1]);
    FailedSendIsQueued(ss[i].mem, ss[i + 1].mem, c.payload, c.result.error.message, es[i].now, es[i].newId, es[i].out);
  }

  lemma AckIsFresh(cfg: Setup, ss: seq<State>, es: seq<Event>, i: nat)
    requires ValidSetup(cfg) && Run(cfg, ss, es) && i < |es| && Acks(es[i])
    requires NothingBegun(cfg, ss[i + 1], es[i].out.id)
    ensures Fresh(cfg, ss[i + 1], es[i].out.id, es[i].call.payload, ss[i + 1].acks)
  {
    AckLeavesLive(cfg, ss, es, i);
  }

  /** A call about p that began after n acknowledgements delivered it in full. */
  ghost predicate DeliveredSince(cfg: Setup, s: State, n: nat, p: Payload) {
    exists c :: c in s.calls && c.payload == p && c.result.Ok? && c.since >= n && DeliveredEverything(cfg, c)
  }

  predicate DoneSomewhere(s: State, id: string) {
    (id in s.mem && s.mem[id].status == Done) || (id in s.disk && s.disk[id].status == Done)
  }

  /** If no replay of the item was under way when a failure was acknowledged for it, an item that
      is done later was delivered in full by a call that began after the acknowledgement. */
  lemma DoneMeansDeliveredSince(cfg: Setup, ss: seq<State>, es: seq<Event>, i: nat, j: nat)
    requires ValidSetup(cfg) && Run(cfg, ss, es) && i < j <= |es| && Acks(es[i])
    requires NothingBegun(cfg, ss[i + 1], es[i].out.id)
    ensures DoneSomewhere(ss[j], es[i].out.id) ==> DeliveredSince(cfg, ss[j], ss[i + 1].acks, es[i].call.payload)
  {
    var id, p, n := es[i].out.id, es[i].call.payload, ss[i + 1].acks;
    AckIsFresh(cfg, ss, es, i);
    RunKeepsFresh(cfg, ss, es, i + 1, j, id, p, n);
    if RecentOk(ss[j].calls, n, p) {
      var c :| c in ss[j].calls && c.payload == p && c.result.Ok? && c.since >= n;
      RunIsHonest(cfg, ss, es, j);
      RelayTrace(cfg.relay, c.aliases, c.payload.recipient, c.payload.raw, c.result, c.bs);
      assert DeliveredEverything(cfg, c);
    }
  }

  // ----- and necessary -----

  ghost predicate SinceBounded(s: State, n: nat) {
    && (forall c :: c in s.calls ==> c.since <= n)
    && (forall no: nat :: no < |s.flights| ==> s.flights[no].since <= n)
  }

  lemma BeginKeepsBounded(s: State, owner: Owner, p: Payload, aliases: Aliases, s': State)
    requires SinceBounded(s, s.acks) && s'.flights == Begun(s, owner, p, aliases) && s'.calls == s.calls
    ensures SinceBounded(s', s.acks)
  {
  }

  lemma ReturnKeepsBounded(s: State, owner: Owner, c: Call, s': State)
    requires SinceBounded(s, s.acks) && Returns(s, owner, c)
    requires s'.flights == Closed(s.flights, c.no) && s'.calls == s.calls + [c]
    ensures SinceBounded(s', s.acks)
  {
  }

  lemma OtherKeepsBounded(s: State, s': State)
    requires SinceBounded(s, s.acks) && |s'.flights| == |s.flights|
    requires s'.calls == s.calls && forall no: nat :: no < |s.flights| ==> s'.flights[no].since == s.flights[no].since
    ensures SinceBounded(s', s.acks)
  {
  }

  lemma StepCountsAcks(cfg: Setup, s: State, e: Event, s': State)
    requires ValidSetup(cfg) && Step(cfg, s, e, s')
    ensures s'.acks == s.acks + if Acks(e) then 1 else 0
  {
  }

  /** Whatever has begun began at some number of acknowledgements so far. */
  lemma StepKeepsBounded(cfg: Setup, s: State, e: Event, s': State)
    requires ValidSetup(cfg) && Step(cfg, s, e, s') && SinceBounded(s, s.acks)
    ensures SinceBounded(s', s.acks)
  {
    match e
    case MailBegin(payload, aliases) => BeginKeepsBounded(s, ByMail, payload, aliases, s');
    case WorkerBegin(aliases) => BeginKeepsBounded(s, ByWorker, PayloadOf(s.worker.batch[0]), aliases, s');
    case AdminBegin(k, aliases) => BeginKeepsBounded(s, ByAdmin(k), PayloadOf(s.replays[k].item), aliases, s');
    case SmtpRelay(call, _, _, _, _) => ReturnKeepsBounded(s, ByMail, call, s');
    case WorkerRelay(call) => ReturnKeepsBounded(s, ByWorker, call, s');
    case AdminRelay(k, call) => ReturnKeepsBounded(s, ByAdmin(k), call, s');
    case _ => OtherKeepsBounded(s, s');
  }

  lemma {:induction false} RunIsBounded(cfg: Setup, ss: seq<State>, es: seq<Event>, n: nat)
    requires ValidSetup(cfg) && Run(cfg, ss, es) && n <= |es|
    ensures SinceBounded(ss[n], ss[n].acks)
    ensures n > 0 && Acks(es[n - 1]) ==> ss[n].acks > 0 && SinceBounded(ss[n], ss[n].acks - 1)
  {
    if n > 0 {
      RunIsBounded(cfg, ss, es, n - 1);
      assert StepAt(cfg, ss, es, n - 1);
      StepCountsAcks(cfg, ss[n - 1], es[n - 1], ss[n]);
      StepKeepsBounded(cfg, ss[n - 1], es[n - 1], ss[n]);
    }
  }

  /** A call that is waited for is under way, for whoever waits, and about his item. */
  predicate AirBorne(s: State, no: nat, owner: Owner, p: Payload) {
    no < |s.flights| && s.flights[no].open && s.flights[no].owner == owner && s.flights[no].payload == p
  }

  ghost predicate Awaited(s: State) {
    && (s.worker.Sending? && s.worker.batch != [] ==> AirBorne(s, s.worker.no, ByWorker, PayloadOf(s.worker.batch[0])))
    && forall k :: k in s.replays && s.replays[k].Trying? ==>
         AirBorne(s, s.replays[k].no, ByAdmin(k), PayloadOf(s.replays[k].item))
  }

  /** Only its owner ends a call, short of a crash. */
  lemma AirBorneStays(cfg: Setup, s: State, e: Event, s': State, no: nat, owner: Owner, p: Payload)
    requires ValidSetup(cfg) && Step(cfg, s, e, s') && AirBorne(s, no, owner, p) && !e.Crash?
    requires match e {
      case SmtpRelay(_, _, _, _, _) => owner != ByMail
      case WorkerRelay(_) => owner != ByWorker
      case AdminRelay(k, _) => owner != ByAdmin(k)
      case _ => true }
    ensures AirBorne(s', no, owner, p)
  {
  }

  lemma WorkerStaysAwaited(cfg: Setup, s: State, e: Event, s': State)
    requires ValidSetup(cfg) && Step(cfg, s, e, s') && Awaited(s) && s'.worker.Sending? && s'.worker.batch != []
    ensures AirBorne(s', s'.worker.no, ByWorker, PayloadOf(s'.worker.batch[0]))
  {
    if !e.WorkerBegin? {
      assert s'.worker == s.worker;
      AirBorneStays(cfg, s, e, s', s.worker.no, ByWorker, PayloadOf(s.worker.batch[0]));
    }
  }

  lemma SlotStaysAwaited(cfg: Setup, s: State, e: Event, s': State, k: nat)
    requires ValidSetup(cfg) && Step(cfg, s, e, s') && Awaited(s) && k in s'.replays && s'.replays[k].Trying?
    ensures AirBorne(s', s'.replays[k].no, ByAdmin(k), PayloadOf(s'.replays[k].item))
  {
    if !(e.AdminBegin? && e.k == k) {
      assert k in s.replays && s'.replays[k] == s.replays[k];
      AirBorneStays(cfg, s, e, s', s.replays[k].no, ByAdmin(k), PayloadOf(s.replays[k].item));
    }
  }

  lemma {:induction false} RunIsAwaited(cfg: Setup, ss: seq<State>, es: seq<Event>, n: nat)
    requires ValidSetup(cfg) && Run(cfg, ss, es) && n <= |es|
    ensures Awaited(ss[n])
  {
    if n > 0 {
      RunIsAwaited(cfg, ss, es, n - 1);
      assert StepAt(cfg, ss, es, n - 1);
      var s, e, s' := ss[n - 1], es[n - 1], ss[n];
      if s'.worker.Sending? && s'.worker.batch != [] {
        WorkerStaysAwaited(cfg, s, e, s');
      }
      forall k | k in s'.replays && s'.replays[k].Trying?
        ensures AirBorne(s', s'.replays[k].no, ByAdmin(k), PayloadOf(s'.replays[k].item))
      {
        SlotStaysAwaited(cfg, s, e, s', k);
      }
    }
  }

  /** A call that may succeed can be accepted in full from where it stands. */
  lemma {:induction false} Completes(cfg: Setup, s: State, no: nat) returns (bs: seq<Block>, sent: seq<Sent>)
    requires ValidSetup(cfg) && no < |s.flights| && s.flights[no].open
    requires MaySucceed(cfg, s.flights[no]) && IsRunning(cfg, s.flights[no])
    ensures FollowsPlainly(cfg, s, s.(flights := s.flights[no := s.flights[no].(bs := bs)], sent := sent))
    ensures Executes(bs, PlanFor(cfg, s.flights[no].payload, s.flights[no].aliases), Bound(cfg.relay.maxSendRetries), true)
    decreases |PlanFor(cfg, s.flights[no].payload, s.flights[no].aliases)| - |s.flights[no].bs|
              + if Failing(s.flights[no].bs) then 1 else 0
  {
    var f := s.flights[no];
    var plan, bound := PlanFor(cfg, f.payload, f.aliases), Bound(cfg.relay.maxSendRetries);
    StaysThere(cfg, s);
    if Executes(f.bs, plan, bound, true) {
      bs, sent := f.bs, s.sent;
      assert s.flights[no := f] == s.flights;
    } else {
      var t := NextAccepted(f.bs, plan, bound);
      var f1 := f.(bs := WithTry(f.bs, t));
      var s1 := s.(flights := s.flights[no := f1], sent := s.sent + [Sent(no, f.payload, t)]);
      OneMorePlainly(cfg, s, s, SendOnce(no, t), s1);
      bs, sent := Completes(cfg, s1, no);
      assert s1.flights[no := f1.(bs := bs)] == s.flights[no := f.(bs := bs)];
      OnwardPlainly(cfg, s, s1, s.(flights := s.flights[no := f.(bs := bs)], sent := sent));
    }
  }

  /** Every call so far began before n acknowledgements had been given. */
  ghost predicate AllBefore(s: State, n: nat) {
    && (forall c :: c in s.calls ==> c.since < n)
    && forall no: nat :: no < |s.flights| ==> s.flights[no].since < n
  }

  /** The item has come to be done with no call begun since. */
  ghost predicate EndsEarly(cfg: Setup, s: State, s': State, id: string, n: nat)
    requires ValidSetup(cfg)
  {
    Follows(cfg, s, s') && IsDone(s', id) && AllBefore(s', n)
  }

  function WorkerDone(s: State): State
    requires s.worker.Answered? && s.worker.batch != [] && s.worker.batch[0].id in s.mem
  {
    var id, rest := s.worker.batch[0].id, s.worker.batch[1..];
    var mem := s.mem[id := DoneItem(s.mem[id], 0)];
    s.(mem := mem, disk := mem, worker := if rest == [] then Idle else Busy(rest))
  }

  /** An answer that waits is recorded. */
  lemma WorkerRecords(cfg: Setup, s: State, id: string, n: nat) returns (s': State)
    requires ValidSetup(cfg) && AllBefore(s, n) && id in s.mem
    requires s.worker.Answered? && s.worker.ok && s.worker.batch != [] && s.worker.batch[0].id == id
    ensures EndsEarly(cfg, s, s', id, n) && FollowsPlainly(cfg, s, s')
  {
    s' := WorkerDone(s);
    OneStep(cfg, s, WorkerMark(0, 0, "", true), s');
  }

  function AdminDone(s: State, k: nat): State
    requires k in s.replays && s.replays[k].item.id in s.mem
  {
    var id := s.replays[k].item.id;
    var mem := s.mem[id := DoneItem(s.mem[id], 0)];
    s.(mem := mem, disk := mem, replays := s.replays - {k})
  }

  lemma AdminRecords(cfg: Setup, s: State, k: nat, id: string, n: nat) returns (s': State)
    requires ValidSetup(cfg) && AllBefore(s, n) && id in s.mem
    requires k in s.replays && s.replays[k].Replied? && s.replays[k].ok && s.replays[k].item.id == id
    ensures EndsEarly(cfg, s, s', id, n)
  {
    s' := AdminDone(s, k);
    OneStep(cfg, s, AdminMark(k, 0, "", true), s');
  }

  /** The call that was accepted in full. */
  function NilCall(s: State, no: nat): Call
    requires no < |s.flights|
  {
    var f := s.flights[no];
    Call(f.payload, f.aliases, Ok(()), f.bs, f.since, no)
  }

  lemma NilCallIsHonest(cfg: Setup, s: State, no: nat)
    requires no < |s.flights| && MaySucceed(cfg, s.flights[no])
    requires var f := s.flights[no]; Executes(f.bs, PlanFor(cfg, f.payload, f.aliases), Bound(cfg.relay.maxSendRetries), true)
    ensures Honest(cfg, NilCall(s, no))
  {
  }

  /** A call under way comes back with nil. */
  lemma ComesBack(cfg: Setup, s: State, no: nat, n: nat) returns (s': State, c: Call)
    requires ValidSetup(cfg) && AllBefore(s, n) && no < |s.flights| && s.flights[no].open
    requires MaySucceed(cfg, s.flights[no]) && IsRunning(cfg, s.flights[no])
    ensures FollowsPlainly(cfg, s, s') && AllBefore(s', n)
    ensures s'.mem == s.mem && s'.worker == s.worker && s'.replays == s.replays
    ensures c.no == no && c.result.Ok? && c.since < n && Honest(cfg, c)
    ensures Returns(s', s.flights[no].owner, c) && c.payload == s.flights[no].payload
  {
    var bs, sent := Completes(cfg, s, no);
    s' := s.(flights := s.flights[no := s.flights[no].(bs := bs)], sent := sent);
    WholeRun(bs, PlanFor(cfg, s.flights[no].payload, s.flights[no].aliases), Bound(cfg.relay.maxSendRetries));
    NilCallIsHonest(cfg, s', no);
    c := NilCall(s', no);
  }

  lemma WorkerReturns(cfg: Setup, s: State, id: string, n: nat) returns (s': State)
    requires ValidSetup(cfg) && AllBefore(s, n) && id in s.mem && Awaited(s)
    requires s.worker.Sending? && s.worker.batch != [] && s.worker.batch[0].id == id
    requires var f := s.flights[s.worker.no]; MaySucceed(cfg, f) && IsRunning(cfg, f)
    ensures EndsEarly(cfg, s, s', id, n) && FollowsPlainly(cfg, s, s')
  {
    var s1, c := ComesBack(cfg, s, s.worker.no, n);
    var s2 := s1.(worker := Answered(s.worker.batch, true), flights := Closed(s1.flights, c.no), calls := s1.calls + [c]);
    OneMorePlainly(cfg, s, s1, WorkerRelay(c), s2);
    s' := WorkerRecords(cfg, s2, id, n);
    OnwardPlainly(cfg, s, s2, s');
    PlainlyToo(cfg, s, s');
  }

  lemma SlotComesBack(s: State, k: nat, c: Call) returns (s': State)
    requires k in s.replays && s.replays[k].Trying? && c.no == s.replays[k].no && c.payload == PayloadOf(s.replays[k].item)
    requires Returns(s, ByAdmin(k), c) && c.result.Ok?
    ensures AdminRelayStep(s, k, c, s') && s'.mem == s.mem && s'.calls == s.calls + [c] && s'.flights == Closed(s.flights, c.no)
    ensures k in s'.replays && s'.replays[k] == Replied(s.replays[k].item, true)
  {
    s' := s.(replays := s.replays[k := Replied(s.replays[k].item, true)], flights := Closed(s.flights, c.no),
             calls := s.calls + [c]);
  }

  lemma AdminReturns(cfg: Setup, s: State, k: nat, id: string, n: nat) returns (s': State)
    requires ValidSetup(cfg) && AllBefore(s, n) && id in s.mem && Awaited(s)
    requires k in s.replays && s.replays[k].Trying? && s.replays[k].item.id == id
    requires var f := s.flights[s.replays[k].no]; MaySucceed(cfg, f) && IsRunning(cfg, f)
    ensures EndsEarly(cfg, s, s', id, n)
  {
    var s1, c := ComesBack(cfg, s, s.replays[k].no, n);
    PlainlyToo(cfg, s, s1);
    var s2 := SlotComesBack(s1, k, c);
    OneMore(cfg, s, s1, AdminRelay(k, c), s2);
    s' := AdminRecords(cfg, s2, k, id, n);
    Onward(cfg, s, s2, s');
  }

  /** What is known right after an acknowledgement. */
  lemma AfterAck(cfg: Setup, ss: seq<State>, es: seq<Event>)
    requires ValidSetup(cfg) && Run(cfg, ss, es) && es != [] && Acks(es[|es| - 1])
    ensures var s, id := ss[|es|], es[|es| - 1].out.id;
      && Safe(s) && Awaited(s) && id in s.mem && AllBefore(s, s.acks)
      && forall no: nat :: no < |s.flights| ==> IsRunning(cfg, s.flights[no])
  {
    RunIsBounded(cfg, ss, es, |es|);
    AckedAt(cfg, ss, es, |es| - 1);
    RunIsSafe(cfg, ss, es, |es|);
    RunIsAwaited(cfg, ss, es, |es|);
    RunIsSound(cfg, ss, es, |es|);
    AckedIsThere(ss[|es|], es[|es| - 1].out.id);
    forall no: nat | no < |ss[|es|].flights|
      ensures IsRunning(cfg, ss[|es|].flights[no])
    {
      assert KeepsToPlan(cfg, ss[|es|], no);
    }
  }

  lemma WorkerEndsEarly(cfg: Setup, s: State, id: string, n: nat) returns (s': State)
    requires ValidSetup(cfg) && AllBefore(s, n) && id in s.mem && Awaited(s)
    requires forall no: nat :: no < |s.flights| ==> IsRunning(cfg, s.flights[no])
    requires !WorkerOwesNothing(cfg, s.flights, s.worker, id)
    ensures EndsEarly(cfg, s, s', id, n) && FollowsPlainly(cfg, s, s')
  {
    if s.worker.Sending? {
      s' := WorkerReturns(cfg, s, id, n);
    } else {
      s' := WorkerRecords(cfg, s, id, n);
    }
  }

  lemma AdminEndsEarly(cfg: Setup, s: State, k: nat, id: string, n: nat) returns (s': State)
    requires ValidSetup(cfg) && AllBefore(s, n) && id in s.mem && Awaited(s)
    requires forall no: nat :: no < |s.flights| ==> IsRunning(cfg, s.flights[no])
    requires k in s.replays && !AdminOwesNothing(cfg, s.flights, s.replays[k], id)
    ensures EndsEarly(cfg, s, s', id, n)
  {
    if s.replays[k].Trying? {
      s' := AdminReturns(cfg, s, k, id, n);
    } else {
      s' := AdminRecords(cfg, s, k, id, n);
    }
  }

  /** In every continuation of the run a done item was delivered by a call begun since. */
  ghost predicate WorthADelivery(cfg: Setup, ss: seq<State>, es: seq<Event>)
    requires ValidSetup(cfg) && |ss| == |es| + 1 && es != [] && Acks(es[|es| - 1])
  {
    forall ss': seq<State>, es': seq<Event> :: Continues(cfg, ss, es, ss', es') ==>
      DoneSomewhere(ss'[|es'|], es[|es| - 1].out.id) ==>
      DeliveredSince(cfg, ss'[|es'|], ss[|es|].acks, es[|es| - 1].call.payload)
  }

  /** An acknowledgement is worth a delivery exactly when at that moment no replay of the item has
      begun that may still be recorded as delivered. */
  lemma WorthADeliveryIff(cfg: Setup, ss: seq<State>, es: seq<Event>)
    requires ValidSetup(cfg) && Run(cfg, ss, es) && es != [] && Acks(es[|es| - 1])
    ensures WorthADelivery(cfg, ss, es) <==> NothingBegun(cfg, ss[|es|], es[|es| - 1].out.id)
  {
    var i, e := |es| - 1, es[|es| - 1];
    if NothingBegun(cfg, ss[|es|], e.out.id) {
      forall ss': seq<State>, es': seq<Event> | Continues(cfg, ss, es, ss', es')
        ensures DoneSomewhere(ss'[|es'|], e.out.id) ==> DeliveredSince(cfg, ss'[|es'|], ss[|es|].acks, e.call.payload)
      {
        assert es'[i] == es[i] && ss'[i + 1] == ss[i + 1];
        DoneMeansDeliveredSince(cfg, ss', es', i, |es'|);
      }
    } else {
      var ss', es' := EarlyEnd(cfg, ss, es);
    }
  }

  /** If a replay of the item is under way at the acknowledgement, it can still come back and be
      recorded, and nobody sends the acknowledged mail again. */
  lemma EarlyEnd(cfg: Setup, ss: seq<State>, es: seq<Event>) returns (ss': seq<State>, es': seq<Event>)
    requires ValidSetup(cfg) && Run(cfg, ss, es) && es != [] && Acks(es[|es| - 1])
    requires !NothingBegun(cfg, ss[|es|], es[|es| - 1].out.id)
    ensures Continues(cfg, ss, es, ss', es') && IsDone(ss'[|es'|], es[|es| - 1].out.id)
    ensures AllBefore(ss'[|es'|], ss[|es|].acks)
    ensures !DeliveredSince(cfg, ss'[|es'|], ss[|es|].acks, es[|es| - 1].call.payload)
    ensures Plain(es) && !WorkerOwesNothing(cfg, ss[|es|].flights, ss[|es|].worker, es[|es| - 1].out.id) ==> Plain(es')
  {
    var s, id := ss[|es|], es[|es| - 1].out.id;
    AfterAck(cfg, ss, es);
    if !WorkerOwesNothing(cfg, s.flights, s.worker, id) {
      var s' := WorkerEndsEarly(cfg, s, id, s.acks);
      ss', es' := RunsOnPlainly(cfg, ss, es, s');
    } else {
      var k :| k in s.replays && !AdminOwesNothing(cfg, s.flights, s.replays[k], id);
      var s' := AdminEndsEarly(cfg, s, k, id, s.acks);
      ss', es' := RunsOn(cfg, ss, es, s');
    }
  }

  // ----- a lost mail -----

  /** In the run the item is acknowledged at step i and done at the end, and no call begun in
      between delivered it. */
  ghost predicate DoneTooEarly(cfg: Setup, ss: seq<State>, es: seq<Event>, i: nat)
    requires ValidSetup(cfg)
  {
    && Run(cfg, ss, es) && i < |es| && Acks(es[i]) && IsDone(ss[|es|], es[i].out.id)
    && !DeliveredSince(cfg, ss[|es|], ss[i + 1].acks, es[i].call.payload)
  }

  /** So it ends, without administrators and failing writes, and at the acknowledgement the worker
      stood like this. */
  ghost predicate LostAt(cfg: Setup, ss: seq<State>, es: seq<Event>, i: nat, w: Worker)
    requires ValidSetup(cfg)
  {
    DoneTooEarly(cfg, ss, es, i) && ss[i + 1].worker == w && Plain(es)
  }

  /** Every acknowledgement while the worker's replay of the item is under way can lead there. */
  lemma LosesMail(cfg: Setup, ss: seq<State>, es: seq<Event>, w: Worker)
    requires ValidSetup(cfg) && Run(cfg, ss, es) && es != [] && Acks(es[|es| - 1]) && ss[|es|].worker == w
    requires Plain(es) && !WorkerOwesNothing(cfg, ss[|es|].flights, w, es[|es| - 1].out.id)
    ensures exists ss', es', i :: LostAt(cfg, ss', es', i, w)
  {
    var i := |es| - 1;
    var ss', es' := EarlyEnd(cfg, ss, es);
    assert es'[i] == es[i] && ss'[i + 1] == ss[i + 1];
    assert LostAt(cfg, ss', es', i, w);
  }

  /** The worker's call has got everything accepted; it has even returned, or is about to. */
  function UnderWay(cfg: Setup, bad: Call, answered: bool): State
    requires Refused(bad)
  {
    var s := FirstPick(bad, true);
    if answered then Flown(s, ByWorker, Accepting(cfg, bad)).(worker := Answered(s.worker.batch, true))
    else InMidSend(cfg, bad)
  }

  lemma UnderWayHappens(cfg: Setup, bad: Call, answered: bool)
    requires ValidSetup(cfg) && CanFail(cfg, bad)
    ensures FollowsPlainly(cfg, START, UnderWay(cfg, bad, answered))
  {
    if answered {
      FirstPickHappens(cfg, bad, true);
      AcceptingIsHonest(cfg, bad);
      WorkerAsks(cfg, FirstPick(bad, true), Accepting(cfg, bad));
      OnwardPlainly(cfg, START, FirstPick(bad, true), UnderWay(cfg, bad, true));
    } else {
      MidSendHappens(cfg, bad);
    }
  }

  function MergedMail(bad: Call): Item
    requires Refused(bad)
  {
    Touch(PickedMail(bad, 20), Some(bad.result.error.message), 30)
  }

  /** The same mail comes in again, is refused, and is merged into the item. */
  function AfterMailAgain(s: State, bad: Call): State
    requires Refused(bad)
  {
    var mem := map["1" := MergedMail(bad)];
    Flown(s, ByMail, bad).(mem := mem, disk := mem, acks := s.acks + 1, acked := s.acked["1" := bad.payload])
  }

  lemma MailAgainIsStep(s: State, bad: Call)
    requires Refused(bad) && s.mem == map["1" := PickedMail(bad, 20)]
    ensures SmtpStep(Flying(s, ByMail, bad.payload, bad.aliases, bad.bs), Placed(bad, s), 30, "2", true, MergedMail(bad),
                     AfterMailAgain(s, bad))
  {
    Lands(s, ByMail, bad);
    assert "1"[0] != "2"[0];
    assert Matches(s.mem["1"], PayloadFingerprint(bad.payload.recipient, bad.payload.raw));
    assert s.mem["1" := MergedMail(bad)] == AfterMailAgain(s, bad).mem;
  }

  lemma MailComesAgain(cfg: Setup, s: State, bad: Call) returns (ss: seq<State>, es: seq<Event>)
    requires ValidSetup(cfg) && CanFail(cfg, bad) && FollowsPlainly(cfg, START, s) && s.mem == map["1" := PickedMail(bad, 20)]
    ensures Run(cfg, ss, es) && Plain(es) && es != [] && Acks(es[|es| - 1]) && es[|es| - 1].out.id == "1"
    ensures ss[|es|] == AfterMailAgain(s, bad)
  {
    var s1 := Flying(s, ByMail, bad.payload, bad.aliases, bad.bs);
    MailAsks(cfg, s, bad);
    OnwardPlainly(cfg, START, s, s1);
    ss, es := PlainRunTo(cfg, s1);
    MailAgainIsStep(s, bad);
    PlacedIsHonest(cfg, bad, s);
    var e := SmtpRelay(Placed(bad, s), 30, "2", true, MergedMail(bad));
    RunOnward(cfg, ss, es, e, AfterMailAgain(s, bad));
    ss, es := ss + [AfterMailAgain(s, bad)], es + [e];
  }

  lemma StillOwed(cfg: Setup, bad: Call, answered: bool)
    requires ValidSetup(cfg) && CanFail(cfg, bad)
    ensures var s := AfterMailAgain(UnderWay(cfg, bad, answered), bad); !WorkerOwesNothing(cfg, s.flights, s.worker, "1")
  {
    AcceptingIsHonest(cfg, bad);
    WholeRun(Accepting(cfg, bad).bs, PlanFor(cfg, bad.payload, bad.aliases), Bound(cfg.relay.maxSendRetries));
    var s := AfterMailAgain(UnderWay(cfg, bad, answered), bad);
    assert !answered ==> s.flights[1].bs == Accepting(cfg, bad).bs && MayComeBack(cfg, s.flights, 1);
  }

  /** A mail is lost without any manual replay or failing write: while the worker's call for the first copy is under
      way, with every send accepted, or its nil answer still to be recorded, the second copy is
      refused and acknowledged as queued; then the answer marks the item done. */
  lemma LostSecondMail(cfg: Setup, bad: Call, answered: bool)
    requires ValidSetup(cfg) && CanFail(cfg, bad)
    ensures exists ss, es, i, w :: LostAt(cfg, ss, es, i, w) && if answered then w.Answered? else w.Sending?
  {
    var s := UnderWay(cfg, bad, answered);
    UnderWayHappens(cfg, bad, answered);
    var ss, es := MailComesAgain(cfg, s, bad);
    StillOwed(cfg, bad, answered);
    LosesMail(cfg, ss, es, AfterMailAgain(s, bad).worker);
  }
}
