/** Runs of the queue that show where its promises end. */
module DlqRuns {
  import opened Support
  import opened Addresses
  import opened Delivery
  import opened RelayService
  import opened DlqItems
  import opened DlqProtocol
  import opened DlqPaths
  import opened DlqSends

  // ----- building runs -----

  /** A failure that was queued without error, at the messenger's refusal. */
  predicate Refused(c: Call) {
    c.result.Err? && c.result.error.SendFailed?
  }

  /** A mail that parses and resolves, refused by the messenger. */
  ghost predicate CanFail(cfg: Setup, bad: Call) {
    Honest(cfg, bad) && Refused(bad)
  }

  /** Every send of a plan accepted at the first try. */
  function AllAtOnce(plan: seq<Send>): (bs: seq<Block>)
    ensures |bs| == |plan|
  {
    seq(|plan|, i requires 0 <= i < |plan| => Block(plan[i], 1, true))
  }

  lemma {:induction false} AllAtOnceRuns(plan: seq<Send>, bound: nat)
    requires bound >= 1
    ensures Executes(AllAtOnce(plan), plan, bound, true)
  {
    if plan != [] {
      var n := |plan| - 1;
      AllAtOnceRuns(plan[..n], bound);
      assert AllAtOnce(plan)[..n] == AllAtOnce(plan[..n]);
    }
  }

  /** The same call as it goes when the messenger accepts everything at once. */
  function Accepting(cfg: Setup, c: Call): Call {
    c.(result := Ok(()), bs := AllAtOnce(PlanFor(cfg, c.payload, c.aliases)))
  }

  /** What the messenger refused it might have accepted. */
  lemma AcceptingIsHonest(cfg: Setup, c: Call)
    requires Honest(cfg, c) && IsSendError(c.result)
    ensures Honest(cfg, Accepting(cfg, c))
  {
    AllAtOnceRuns(PlanFor(cfg, c.payload, c.aliases), Bound(cfg.relay.maxSendRetries));
  }

  function FirstItem(c: Call, now: int, id: string): Item
    requires Refused(c)
  {
    NewItem(id, c.payload.recipient, c.payload.raw, Some(c.result.error.message), now)
  }

  function AfterMail(s: State, c: Call, now: int, id: string): State
    requires Refused(c)
  {
    var mem := s.mem[id := FirstItem(c, now, id)];
    Flown(s, ByMail, c).(mem := mem, disk := mem, acks := s.acks + 1, acked := s.acked[id := c.payload])
  }

  lemma MailIsStep(s: State, c: Call, now: int, id: string)
    requires Refused(c) && id !in s.mem
    requires forall x :: x in s.mem ==> !Matches(s.mem[x], PayloadFingerprint(c.payload.recipient, c.payload.raw))
    ensures SmtpStep(Flying(s, ByMail, c.payload, c.aliases, c.bs), Placed(c, s), now, id, true, FirstItem(c, now, id),
                     AfterMail(s, c, now, id))
  {
    Lands(s, ByMail, c);
  }

  lemma MailArrives(cfg: Setup, s: State, c: Call, now: int, id: string)
    requires ValidSetup(cfg) && CanFail(cfg, c) && id !in s.mem
    requires forall x :: x in s.mem ==> !Matches(s.mem[x], PayloadFingerprint(c.payload.recipient, c.payload.raw))
    ensures FollowsPlainly(cfg, s, AfterMail(s, c, now, id))
  {
    MailAsks(cfg, s, c);
    MailIsStep(s, c, now, id);
    PlacedIsHonest(cfg, c, s);
    OneMorePlainly(cfg, s, Flying(s, ByMail, c.payload, c.aliases, c.bs),
                   SmtpRelay(Placed(c, s), now, id, true, FirstItem(c, now, id)), AfterMail(s, c, now, id));
  }

  lemma FirstMail(cfg: Setup, bad: Call)
    requires ValidSetup(cfg) && CanFail(cfg, bad)
    ensures var s := AfterMail(START, bad, 10, "1"); FollowsPlainly(cfg, START, s) && Reachable(cfg, s)
  {
    MailArrives(cfg, START, bad, 10, "1");
    PlainlyToo(cfg, START, AfterMail(START, bad, 10, "1"));
  }

  function MessageOf(c: Call): string {
    if c.result.Err? && IsSendError(c.result) then c.result.error.message else ""
  }

  /** A manual replay from fetching to marking, with nothing in between. */
  function AfterReplay(cfg: Setup, s: State, id: string, c: Call, now: int, ioOk: bool): State
    requires ValidSetup(cfg) && id in s.mem
  {
    var item := s.mem[id];
    var mem := Marked(cfg, s.mem, item, c.result.Ok?, AdminNext(cfg, item, now), MessageOf(c), now);
    Flown(s, ByAdmin(0), c).(mem := mem, disk := Saved(ioOk && item.id in s.mem, mem, s.disk),
                             failures := Noted(s.failures, s.mem, item, c.result.Ok?, now))
  }

  lemma MarkIsStep(cfg: Setup, s: State, id: string, c: Call, now: int, ioOk: bool)
    requires ValidSetup(cfg) && s.replays == map[] && id in s.mem && s.mem[id].id == id
    ensures AdminMarkStep(cfg, Flown(s, ByAdmin(0), c).(replays := s.replays[0 := Replied(s.mem[id], c.result.Ok?)]),
                          0, now, MessageOf(c), ioOk, AfterReplay(cfg, s, id, c, now, ioOk))
  {
    assert s.replays[0 := Replied(s.mem[id], c.result.Ok?)] - {0} == s.replays;
  }

  lemma ReplayHappens(cfg: Setup, s: State, id: string, c: Call, now: int, ioOk: bool)
    requires ValidSetup(cfg) && Honest(cfg, c) && s.replays == map[]
    requires id in s.mem && s.mem[id].id == id && c.payload == PayloadOf(s.mem[id])
    ensures Follows(cfg, s, AfterReplay(cfg, s, id, c, now, ioOk))
  {
    HandAsks(cfg, s, 0, id, c);
    MarkIsStep(cfg, s, id, c, now, ioOk);
    OneMore(cfg, s, Flown(s, ByAdmin(0), c).(replays := s.replays[0 := Replied(s.mem[id], c.result.Ok?)]),
            AdminMark(0, now, MessageOf(c), ioOk), AfterReplay(cfg, s, id, c, now, ioOk));
  }

  // ----- where uniqueness and finality end -----

  /** Delivered by hand: one mail was queued and its manual replay succeeded. */
  function AfterDelivery(cfg: Setup, bad: Call, ioOk: bool): State
    requires ValidSetup(cfg) && Refused(bad)
  {
    AfterReplay(cfg, AfterMail(START, bad, 10, "1"), "1", Accepting(cfg, bad), 20, ioOk)
  }

  lemma DeliveryHappens(cfg: Setup, bad: Call, ioOk: bool)
    requires ValidSetup(cfg) && CanFail(cfg, bad)
    ensures var s := AfterDelivery(cfg, bad, ioOk);
            Reachable(cfg, s) && s.replays == map[] && s.mem == map["1" := DoneItem(FirstItem(bad, 10, "1"), 20)]
  {
    var s1 := AfterMail(START, bad, 10, "1");
    FirstMail(cfg, bad);
    AcceptingIsHonest(cfg, bad);
    ReplayHappens(cfg, s1, "1", Accepting(cfg, bad), 20, ioOk);
    Onward(cfg, START, s1, AfterDelivery(cfg, bad, ioOk));
  }

  lemma TwoLive(cfg: Setup, bad: Call, s2: State, s3: State)
    requires ValidSetup(cfg) && cfg.maxRetries != 1 && Refused(bad)
    requires s2.mem == map["1" := DoneItem(FirstItem(bad, 10, "1"), 20), "2" := FirstItem(bad, 30, "2")]
    requires s3 == AfterReplay(cfg, s2, "1", bad, 40, true)
    ensures !Unique(s3.mem)
  {
    assert "1"[0] != "2"[0];
    assert IsLive(s3.mem["1"]) && IsLive(s3.mem["2"]) && PayloadOf(s3.mem["1"]) == PayloadOf(s3.mem["2"]);
  }

  /** Under every setup that allows a second try and for every mail the messenger may refuse, some
      run with manual replays ends with two waiting items for one payload: it is delivered, sent
      and queued again, and then the delivered copy is replayed in vain. */
  lemma ManualReplayDuplicates(cfg: Setup, bad: Call)
    requires ValidSetup(cfg) && cfg.maxRetries != 1 && CanFail(cfg, bad)
    ensures exists ss: seq<State>, es: seq<Event> :: Run(cfg, ss, es) && !Unique(ss[|es|].mem)
  {
    DeliveryHappens(cfg, bad, true);
    var s1 := AfterDelivery(cfg, bad, true);
    var s2 := AfterMail(s1, bad, 30, "2");
    MailArrives(cfg, s1, bad, 30, "2");
    PlainlyToo(cfg, s1, s2);
    Onward(cfg, START, s1, s2);
    var s3 := AfterReplay(cfg, s2, "1", bad, 40, true);
    ReplayHappens(cfg, s2, "1", bad, 40, true);
    Onward(cfg, START, s2, s3);
    TwoLive(cfg, bad, s2, s3);
    var ss, es := RunTo(cfg, s3);
  }

  /** An item that was done at some point of a run waits again at its end. */
  ghost predicate Reopened(cfg: Setup, ss: seq<State>, es: seq<Event>, i: nat, id: string)
    requires ValidSetup(cfg)
  {
    Run(cfg, ss, es) && i < |es| && IsDone(ss[i], id) && id in ss[|es|].mem && ss[|es|].mem[id].status == Pending
  }

  lemma ReopenedWhen(cfg: Setup, s: State, s': State, id: string)
    requires ValidSetup(cfg) && Reachable(cfg, s) && Follows(cfg, s, s')
    requires IsDone(s, id) && id in s'.mem && s'.mem[id].status == Pending
    ensures exists ss, es, i :: Reopened(cfg, ss, es, i, id)
  {
    var ss, es := RunTo(cfg, s);
    var ss', es' := RunsOn(cfg, ss, es, s');
    assert ss'[|es|] == ss[|es|] && |es| != |es'|;
    assert Reopened(cfg, ss', es', |es|, id);
  }

  /** A manual replay of a delivered item that fails makes it wait again. */
  lemma FailedReplayReopens(cfg: Setup, bad: Call)
    requires ValidSetup(cfg) && cfg.maxRetries != 1 && CanFail(cfg, bad)
    ensures exists ss, es, i :: Reopened(cfg, ss, es, i, "1")
  {
    DeliveryHappens(cfg, bad, true);
    var s1 := AfterDelivery(cfg, bad, true);
    var s2 := AfterReplay(cfg, s1, "1", bad, 40, true);
    ReplayHappens(cfg, s1, "1", bad, 40, true);
    ReopenedWhen(cfg, s1, s2, "1");
  }

  function Crashed(s: State): State {
    s.(mem := Reloaded(s.disk), worker := Idle, replays := map[], flights := AllClosed(s.flights))
  }

  lemma CrashHappens(cfg: Setup, s: State)
    requires ValidSetup(cfg)
    ensures Follows(cfg, s, Crashed(s))
  {
    OneStep(cfg, s, Crash, Crashed(s));
  }

  lemma ReloadWaiting(item: Item)
    requires IsLive(item) && item.fingerprint != NoFingerprint
    ensures Reloaded(map["1" := item]) == map["1" := item.(status := Pending)]
  {
  }

  /** The delivery could not be saved, and the process crashed. */
  function AfterLoss(cfg: Setup, bad: Call): State
    requires ValidSetup(cfg) && Refused(bad)
  {
    Crashed(AfterDelivery(cfg, bad, false))
  }

  lemma LossHappens(cfg: Setup, bad: Call)
    requires ValidSetup(cfg) && CanFail(cfg, bad)
    ensures var s := AfterLoss(cfg, bad); Reachable(cfg, s) && s.mem == map["1" := FirstItem(bad, 10, "1")]
  {
    var s := AfterDelivery(cfg, bad, false);
    DeliveryHappens(cfg, bad, false);
    CrashHappens(cfg, s);
    Onward(cfg, START, s, Crashed(s));
    assert AfterMail(START, bad, 10, "1").disk == map["1" := FirstItem(bad, 10, "1")];
    ReloadWaiting(FirstItem(bad, 10, "1"));
  }

  /** So does a crash after the write that should have saved the delivery failed. */
  lemma CrashReopens(cfg: Setup, bad: Call)
    requires ValidSetup(cfg) && CanFail(cfg, bad)
    ensures exists ss, es, i :: Reopened(cfg, ss, es, i, "1")
  {
    DeliveryHappens(cfg, bad, false);
    LossHappens(cfg, bad);
    CrashHappens(cfg, AfterDelivery(cfg, bad, false));
    ReopenedWhen(cfg, AfterDelivery(cfg, bad, false), AfterLoss(cfg, bad), "1");
  }

  // ----- picks -----

  function PickedMail(bad: Call, now: int): Item
    requires Refused(bad)
  {
    PickItem(FirstItem(bad, 10, "1"), now)
  }

  lemma PickOne(item: Item, now: int)
    requires item.status == Pending && item.nextRetryAt <= now
    ensures var m := map["1" := item];
      && Picks(m, ["1"], 1, now) && PickAll(m, ["1"], now) == map["1" := PickItem(item, now)]
      && Batch(map["1" := PickItem(item, now)], ["1"]) == [PickItem(item, now)]
  {
    assert DueIds(map["1" := item], now) == {"1"};
  }

  /** The only item was picked; without a good write the worker gets nothing. */
  function AfterPick(s: State, item: Item, now: int, ioOk: bool): State {
    var mem := map["1" := PickItem(item, now)];
    s.(mem := mem, disk := Saved(ioOk, mem, s.disk), worker := if ioOk then Busy([PickItem(item, now)]) else Idle)
  }

  lemma PickHappens(cfg: Setup, s: State, item: Item, now: int, ioOk: bool)
    requires ValidSetup(cfg) && s.worker == Idle && s.mem == map["1" := item]
    requires item.status == Pending && item.nextRetryAt <= now
    ensures Follows(cfg, s, AfterPick(s, item, now, ioOk)) && (ioOk ==> FollowsPlainly(cfg, s, AfterPick(s, item, now, ioOk)))
  {
    PickOne(item, now);
    OneStep(cfg, s, Pick(["1"], 1, now, ioOk), AfterPick(s, item, now, ioOk));
  }

  /** The mail was queued and picked. */
  function FirstPick(bad: Call, ioOk: bool): State
    requires Refused(bad)
  {
    AfterPick(AfterMail(START, bad, 10, "1"), FirstItem(bad, 10, "1"), 20, ioOk)
  }

  lemma FirstPickHappens(cfg: Setup, bad: Call, ioOk: bool)
    requires ValidSetup(cfg) && CanFail(cfg, bad)
    ensures Reachable(cfg, FirstPick(bad, ioOk)) && (ioOk ==> FollowsPlainly(cfg, START, FirstPick(bad, ioOk)))
  {
    var s := AfterMail(START, bad, 10, "1");
    FirstMail(cfg, bad);
    assert s.mem == map["1" := FirstItem(bad, 10, "1")];
    PickHappens(cfg, s, FirstItem(bad, 10, "1"), 20, ioOk);
    Onward(cfg, START, s, FirstPick(bad, ioOk));
    if ioOk {
      OnwardPlainly(cfg, START, s, FirstPick(bad, ioOk));
    }
  }

  lemma PickStrands(bad: Call)
    requires Refused(bad)
    ensures Stranded(FirstPick(bad, false), "1")
  {
  }

  /** A pick whose write fails strands its item. */
  lemma FailedPickHappens(cfg: Setup, bad: Call)
    requires ValidSetup(cfg) && CanFail(cfg, bad)
    ensures exists ss: seq<State>, es: seq<Event> :: Run(cfg, ss, es) && Stranded(ss[|es|], "1")
  {
    FirstPickHappens(cfg, bad, false);
    PickStrands(bad);
    var ss, es := RunTo(cfg, FirstPick(bad, false));
  }

  // ----- more than once -----

  lemma NilPlan(cfg: Setup, c: Call)
    requires Honest(cfg, c) && c.result.Ok?
    ensures PlanFor(cfg, c.payload, c.aliases) != []
  {
    RelayTrace(cfg.relay, c.aliases, c.payload.recipient, c.payload.raw, c.result, c.bs);
    var targets := ParseAddress(cfg.relay.domain, c.aliases, c.payload.recipient).value.targets;
    var parcel := ParcelOf(cfg.relay.parseMail(c.payload.raw).value);
    assert parcel.chunks != [] && TargetPlan(targets[|targets| - 1], parcel) != [];
  }

  lemma AcceptingAccepts(cfg: Setup, c: Call)
    requires Honest(cfg, c) && IsSendError(c.result)
    ensures Accepted(LogOf(Accepting(cfg, c).bs)) == PlanFor(cfg, c.payload, c.aliases) != []
  {
    AcceptingIsHonest(cfg, c);
    NilPlan(cfg, Accepting(cfg, c));
    AcceptedOfRun(Accepting(cfg, c).bs, PlanFor(cfg, c.payload, c.aliases), Bound(cfg.relay.maxSendRetries), true);
  }

  /** Two calls about one payload have answered nil. */
  ghost predicate NilTwice(s: State, p: Payload) {
    exists c, d :: c in s.calls && d in s.calls && c.payload == d.payload == p && c.result.Ok? && d.result.Ok? && c.no != d.no
  }

  lemma TwoCalls(s: State, c: Call, d: Call)
    requires c.result.Ok? && d.result.Ok? && c.payload == d.payload && c.no != d.no
    requires |s.calls| == 3 && s.calls[1] == c && s.calls[2] == d
    ensures NilTwice(s, c.payload)
  {
    assert c in s.calls && d in s.calls;
  }

  /** A delivery that could not be saved is repeated after a restart. */
  lemma SentTwice(cfg: Setup, bad: Call)
    requires ValidSetup(cfg) && CanFail(cfg, bad)
    ensures exists ss: seq<State>, es: seq<Event> :: Run(cfg, ss, es) && NilTwice(ss[|es|], bad.payload)
  {
    var s, good := AfterLoss(cfg, bad), Accepting(cfg, bad);
    LossHappens(cfg, bad);
    AcceptingIsHonest(cfg, bad);
    ReplayHappens(cfg, s, "1", good, 40, true);
    var s1 := AfterReplay(cfg, s, "1", good, 40, true);
    Onward(cfg, START, s, s1);
    TwoCalls(s1, Placed(good, AfterMail(START, bad, 10, "1")), Placed(good, s));
    var ss, es := RunTo(cfg, s1);
  }

  /** The worker's call has got everything accepted, but has not returned. */
  function InMidSend(cfg: Setup, bad: Call): State
    requires Refused(bad)
  {
    var s, good := FirstPick(bad, true), Accepting(cfg, bad);
    Flying(s.(worker := Sending(s.worker.batch, 1)), ByWorker, good.payload, good.aliases, good.bs)
  }

  lemma MidSendHappens(cfg: Setup, bad: Call)
    requires ValidSetup(cfg) && CanFail(cfg, bad)
    ensures FollowsPlainly(cfg, START, InMidSend(cfg, bad)) && Reachable(cfg, InMidSend(cfg, bad))
  {
    FirstPickHappens(cfg, bad, true);
    AcceptingIsHonest(cfg, bad);
    HonestRuns(cfg, Accepting(cfg, bad));
    WorkerSends(cfg, FirstPick(bad, true), bad.aliases, Accepting(cfg, bad).bs);
    OnwardPlainly(cfg, START, FirstPick(bad, true), InMidSend(cfg, bad));
    PlainlyToo(cfg, START, InMidSend(cfg, bad));
  }

  /** The process died in mid-send and picked the item again after the restart. */
  function PickedAgain(cfg: Setup, bad: Call): State
    requires Refused(bad)
  {
    AfterPick(Crashed(InMidSend(cfg, bad)), PickedMail(bad, 20).(status := Pending), 40, true)
  }

  lemma PickedAgainHappens(cfg: Setup, bad: Call)
    requires ValidSetup(cfg) && CanFail(cfg, bad)
    ensures Reachable(cfg, PickedAgain(cfg, bad))
  {
    var s := InMidSend(cfg, bad);
    MidSendHappens(cfg, bad);
    CrashHappens(cfg, s);
    Onward(cfg, START, s, Crashed(s));
    ReloadWaiting(PickedMail(bad, 20));
    PickHappens(cfg, Crashed(s), PickedMail(bad, 20).(status := Pending), 40, true);
    Onward(cfg, START, Crashed(s), PickedAgain(cfg, bad));
  }

  /** One call has answered nil, no other has, and yet the mail was not accepted just once. */
  ghost predicate AcceptedAgain(cfg: Setup, s: State, c: Call) {
    && c in s.calls && c.result.Ok? && (forall d :: d in s.calls && d.result.Ok? ==> d == c)
    && AcceptedFor(s.sent, c.payload) != PlanFor(cfg, c.payload, c.aliases)
  }

  lemma CutOffCounts(cfg: Setup, s: State, c: Call)
    requires ValidSetup(cfg) && Reachable(cfg, s) && c in s.calls && c.result.Ok? && c.no == 2
    requires |s.flights| == 3 && s.flights[1].payload == c.payload && Accepted(LogOf(s.flights[1].bs)) != []
    ensures AcceptedFor(s.sent, c.payload) != PlanFor(cfg, c.payload, c.aliases)
  {
    var ss, es := RunTo(cfg, s);
    NotJustOnce(cfg, ss, es, c, 1);
  }

  lemma SoFarSent(cfg: Setup, bad: Call)
    requires Refused(bad)
    ensures var s, good := PickedAgain(cfg, bad), Accepting(cfg, bad);
      && s.worker.Busy? && s.worker.batch != [] && PayloadOf(s.worker.batch[0]) == bad.payload
      && s.calls == [Placed(bad, START)]
      && |s.flights| == 2 && s.flights[1].payload == bad.payload && s.flights[1].bs == good.bs
  {
  }

  lemma AnsweredAgain(cfg: Setup, bad: Call) returns (s: State, c: Call)
    requires ValidSetup(cfg) && CanFail(cfg, bad)
    ensures Reachable(cfg, s) && c.payload == bad.payload && c.result.Ok? && c.no == 2
    ensures |s.calls| == 2 && s.calls[0].result.Err? && s.calls[1] == c
    ensures |s.flights| == 3 && s.flights[1].payload == bad.payload && s.flights[1].bs == Accepting(cfg, bad).bs
  {
    var s0, good := PickedAgain(cfg, bad), Accepting(cfg, bad);
    PickedAgainHappens(cfg, bad);
    SoFarSent(cfg, bad);
    AcceptingIsHonest(cfg, bad);
    WorkerAsks(cfg, s0, good);
    s, c := Flown(s0, ByWorker, good).(worker := Answered(s0.worker.batch, true)), Placed(good, s0);
    PlainlyToo(cfg, s0, s);
    Onward(cfg, START, s0, s);
  }

  lemma OneNilCall(calls: seq<Call>, c: Call)
    requires |calls| == 2 && calls[0].result.Err? && calls[1] == c
    ensures c in calls && forall d :: d in calls && d.result.Ok? ==> d == c
  {
  }

  /** A crash in mid-send: the messenger has accepted everything, but the process dies before the
      answer is recorded. After the restart the item is pending, the worker sends everything again,
      and that call is the only one that ever answers nil. */
  lemma CutOffSendsTwice(cfg: Setup, bad: Call)
    requires ValidSetup(cfg) && CanFail(cfg, bad)
    ensures exists ss, es, c :: Run(cfg, ss, es) && AcceptedAgain(cfg, ss[|es|], c)
  {
    var s, c := AnsweredAgain(cfg, bad);
    AcceptingAccepts(cfg, bad);
    OneNilCall(s.calls, c);
    CutOffCounts(cfg, s, c);
    assert AcceptedAgain(cfg, s, c);
    var ss, es := RunTo(cfg, s);
  }

  // ----- such setups and mails exist -----

  const SETUP := Setup(Config("d", 0, (raw: seq<byte>) => Some(Mail("", []))), 5, 0, 0, 0)
  const POST := SendText("1", "", false)
  const MAIL := Payload(SAMPLE, [])
  const BAD := Call(MAIL, map[], Err(SendFailed("chat not found")), [Block(POST, 1, false)], 0, 0)

  lemma {:induction false} OnePost()
    ensures Plan([Target("1", false, "chatid1")], ParcelOf(Mail("", []))) == [POST]
  {
    var targets, parcel := [Target("1", false, "chatid1")], ParcelOf(Mail("", []));
    assert targets[..0] == [];
    assert TargetPlan(targets[0], parcel) == [POST];
  }

  lemma OneTry()
    ensures Executes(BAD.bs, [POST], 1, false)
  {
    assert BAD.bs[..0] == [] && [POST][..0] == [];
  }

  lemma BadIsHonest(cfg: Setup, p: Parsed)
    requires ParseAddress(cfg.relay.domain, map[], MAIL.recipient) == Ok(p) && cfg.relay.maxSendRetries == 0
    requires cfg.relay.parseMail(MAIL.raw) == Some(Mail("", [])) && Plan(p.targets, ParcelOf(Mail("", []))) == [POST]
    ensures CanFail(cfg, BAD)
  {
    OneTry();
  }

  lemma SetupExists()
    ensures ValidSetup(SETUP) && SETUP.maxRetries != 1 && CanFail(SETUP, BAD)
    ensures var once := SETUP.(maxRetries := 1); ValidSetup(once) && CanFail(once, BAD)
  {
    SampleResolves();
    OnePost();
    BadIsHonest(SETUP, Parsed([Target("1", false, "chatid1")], "chatid1", SAMPLE, "chatid1", false));
  }
}
