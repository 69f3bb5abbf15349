/** Series of steps of the queue protocol. */
module DlqPaths {
  import opened Addresses
  import opened Delivery
  import opened RelayService
  import opened DlqItems
  import opened DlqProtocol

  ghost predicate Path(cfg: Setup, ss: seq<State>, es: seq<Event>, s: State, s': State)
    requires ValidSetup(cfg)
  {
    |ss| == |es| + 1 && ss[0] == s && ss[|es|] == s' && forall i: nat :: i < |es| ==> StepAt(cfg, ss, es, i)
  }

  ghost predicate Follows(cfg: Setup, s: State, s': State)
    requires ValidSetup(cfg)
  {
    exists ss, es :: Path(cfg, ss, es, s, s')
  }

  /** No manual replay is begun and every write succeeds. */
  ghost predicate Plain(es: seq<Event>) {
    NoAdmin(es) && NoIoFailure(es)
  }

  /** By such steps alone. */
  ghost predicate FollowsPlainly(cfg: Setup, s: State, s': State)
    requires ValidSetup(cfg)
  {
    exists ss, es :: Path(cfg, ss, es, s, s') && Plain(es)
  }

  lemma PlainlyToo(cfg: Setup, s: State, s': State)
    requires ValidSetup(cfg) && FollowsPlainly(cfg, s, s')
    ensures Follows(cfg, s, s')
  {
    var ss, es :| Path(cfg, ss, es, s, s') && Plain(es);
  }

  lemma StaysThere(cfg: Setup, s: State)
    requires ValidSetup(cfg)
    ensures Follows(cfg, s, s) && FollowsPlainly(cfg, s, s)
  {
    assert Path(cfg, [s], [], s, s) && Plain([]);
  }

  lemma PathsJoin(cfg: Setup, ss: seq<State>, es: seq<Event>, s: State, s1: State, tt: seq<State>, fs: seq<Event>, s2: State)
    requires ValidSetup(cfg) && Path(cfg, ss, es, s, s1) && Path(cfg, tt, fs, s1, s2)
    ensures Path(cfg, ss + tt[1..], es + fs, s, s2) && (Plain(es) && Plain(fs) ==> Plain(es + fs))
  {
    var uu, gs := ss + tt[1..], es + fs;
    forall i: nat | i < |gs|
      ensures StepAt(cfg, uu, gs, i)
    {
      if i < |es| {
        assert StepAt(cfg, ss, es, i);
      } else {
        assert StepAt(cfg, tt, fs, i - |es|);
      }
    }
  }

  lemma Onward(cfg: Setup, s: State, s1: State, s2: State)
    requires ValidSetup(cfg) && Follows(cfg, s, s1) && Follows(cfg, s1, s2)
    ensures Follows(cfg, s, s2)
  {
    var ss, es :| Path(cfg, ss, es, s, s1);
    var tt, fs :| Path(cfg, tt, fs, s1, s2);
    PathsJoin(cfg, ss, es, s, s1, tt, fs, s2);
  }

  lemma OnwardPlainly(cfg: Setup, s: State, s1: State, s2: State)
    requires ValidSetup(cfg) && FollowsPlainly(cfg, s, s1) && FollowsPlainly(cfg, s1, s2)
    ensures FollowsPlainly(cfg, s, s2)
  {
    var ss, es :| Path(cfg, ss, es, s, s1) && Plain(es);
    var tt, fs :| Path(cfg, tt, fs, s1, s2) && Plain(fs);
    PathsJoin(cfg, ss, es, s, s1, tt, fs, s2);
  }

  predicate PlainEvent(e: Event) {
    !e.AdminFetch? && IoOk(e)
  }

  lemma OneStep(cfg: Setup, s: State, e: Event, s': State)
    requires ValidSetup(cfg) && Step(cfg, s, e, s') && HonestEvent(cfg, e)
    ensures Follows(cfg, s, s') && (PlainEvent(e) ==> FollowsPlainly(cfg, s, s'))
  {
    assert Path(cfg, [s, s'], [e], s, s');
    assert PlainEvent(e) ==> Plain([e]);
  }

  lemma OneMore(cfg: Setup, s: State, s1: State, e: Event, s2: State)
    requires ValidSetup(cfg) && Follows(cfg, s, s1) && Step(cfg, s1, e, s2) && HonestEvent(cfg, e)
    ensures Follows(cfg, s, s2)
  {
    OneStep(cfg, s1, e, s2);
    Onward(cfg, s, s1, s2);
  }

  lemma OneMorePlainly(cfg: Setup, s: State, s1: State, e: Event, s2: State)
    requires ValidSetup(cfg) && FollowsPlainly(cfg, s, s1) && Step(cfg, s1, e, s2) && HonestEvent(cfg, e) && PlainEvent(e)
    ensures FollowsPlainly(cfg, s, s2)
  {
    OneStep(cfg, s1, e, s2);
    OnwardPlainly(cfg, s, s1, s2);
  }

  // ----- runs -----

  const START := State(map[], map[], Idle, map[], [], [], [], 0, map[], map[])

  ghost predicate Reachable(cfg: Setup, s: State)
    requires ValidSetup(cfg)
  {
    Follows(cfg, START, s)
  }

  lemma RunTo(cfg: Setup, s: State) returns (ss: seq<State>, es: seq<Event>)
    requires ValidSetup(cfg) && Reachable(cfg, s)
    ensures Run(cfg, ss, es) && ss[|es|] == s
  {
    ss, es :| Path(cfg, ss, es, START, s);
  }

  lemma PlainRunTo(cfg: Setup, s: State) returns (ss: seq<State>, es: seq<Event>)
    requires ValidSetup(cfg) && FollowsPlainly(cfg, START, s)
    ensures Run(cfg, ss, es) && ss[|es|] == s && Plain(es)
  {
    ss, es :| Path(cfg, ss, es, START, s) && Plain(es);
  }

  /** The second run begins with the first. */
  ghost predicate Continues(cfg: Setup, ss: seq<State>, es: seq<Event>, ss': seq<State>, es': seq<Event>)
    requires ValidSetup(cfg)
  {
    Run(cfg, ss', es') && ss <= ss' && es <= es'
  }

  lemma RunsOn(cfg: Setup, ss: seq<State>, es: seq<Event>, s: State) returns (ss': seq<State>, es': seq<Event>)
    requires ValidSetup(cfg) && Run(cfg, ss, es) && Follows(cfg, ss[|es|], s)
    ensures Continues(cfg, ss, es, ss', es') && ss'[|es'|] == s
  {
    var tt, fs :| Path(cfg, tt, fs, ss[|es|], s);
    assert Path(cfg, ss, es, ss[0], ss[|es|]);
    PathsJoin(cfg, ss, es, ss[0], ss[|es|], tt, fs, s);
    ss', es' := ss + tt[1..], es + fs;
  }

  lemma RunsOnPlainly(cfg: Setup, ss: seq<State>, es: seq<Event>, s: State) returns (ss': seq<State>, es': seq<Event>)
    requires ValidSetup(cfg) && Run(cfg, ss, es) && FollowsPlainly(cfg, ss[|es|], s)
    ensures Continues(cfg, ss, es, ss', es') && ss'[|es'|] == s && (Plain(es) ==> Plain(es'))
  {
    var tt, fs :| Path(cfg, tt, fs, ss[|es|], s) && Plain(fs);
    assert Path(cfg, ss, es, ss[0], ss[|es|]);
    PathsJoin(cfg, ss, es, ss[0], ss[|es|], tt, fs, s);
    ss', es' := ss + tt[1..], es + fs;
  }

  lemma RunOnward(cfg: Setup, ss: seq<State>, es: seq<Event>, e: Event, s': State)
    requires ValidSetup(cfg) && Run(cfg, ss, es) && Step(cfg, ss[|es|], e, s') && HonestEvent(cfg, e)
    ensures Continues(cfg, ss, es, ss + [s'], es + [e])
  {
    forall k: nat | k < |es|
      ensures StepAt(cfg, ss + [s'], es + [e], k)
    {
      assert StepAt(cfg, ss, es, k);
    }
  }

  // ----- the sends of a call -----

  function SentBy(no: nat, p: Payload, log: seq<Try>): (sent: seq<Sent>)
    ensures |sent| == |log|
  {
    seq(|log|, i requires 0 <= i < |log| => Sent(no, p, log[i]))
  }

  function AfterSends(s: State, no: nat, bs: seq<Block>): State
    requires no < |s.flights|
  {
    var f := s.flights[no];
    s.(flights := s.flights[no := f.(bs := bs)], sent := s.sent + SentBy(no, f.payload, LogOf(bs)))
  }

  lemma {:induction false} LogBeforeLast(bs: seq<Block>, plan: seq<Send>, bound: nat)
    requires Running(bs, plan, bound) && bs != []
    ensures var b := bs[|bs| - 1];
      b.tries > 0 && LogOf(bs) == LogOf(WithoutTry(bs)) + [Try(b.send, b.accepted)]
  {
    var b := bs[|bs| - 1];
    BeforeLastTry(bs, plan, bound);
    SameSend(WithoutTry(bs), Try(b.send, b.accepted), plan, bound);
    LogWithTry(WithoutTry(bs), Try(b.send, b.accepted));
  }

  lemma {:induction false} LastSendWasRun(cfg: Setup, f: Flight, bs: seq<Block>)
    requires IsRunning(cfg, f.(bs := bs)) && bs != []
    ensures var b := bs[|bs| - 1];
      && b.tries > 0 && IsRunning(cfg, f.(bs := WithoutTry(bs))) && WithTry(WithoutTry(bs), Try(b.send, b.accepted)) == bs
      && LogOf(bs) == LogOf(WithoutTry(bs)) + [Try(b.send, b.accepted)]
  {
    BeforeLastTry(bs, PlanFor(cfg, f.payload, f.aliases), Bound(cfg.relay.maxSendRetries));
    LogBeforeLast(bs, PlanFor(cfg, f.payload, f.aliases), Bound(cfg.relay.maxSendRetries));
  }

  lemma {:induction false} TryIsStep(cfg: Setup, s: State, no: nat, before: seq<Block>, t: Try, bs: seq<Block>)
    requires no < |s.flights| && s.flights[no].open && bs == WithTry(before, t) && LogOf(bs) == LogOf(before) + [t]
    requires IsRunning(cfg, s.flights[no].(bs := bs))
    ensures SendStep(cfg, AfterSends(s, no, before), no, t, AfterSends(s, no, bs))
  {
    var f := s.flights[no];
    SentOneMore(s.sent, no, f.payload, LogOf(before), t);
    assert f.(bs := before).(bs := bs) == f.(bs := bs);
    assert s.flights[no := f.(bs := before)][no := f.(bs := bs)] == s.flights[no := f.(bs := bs)];
  }

  lemma {:induction false} LastSendIsStep(cfg: Setup, s: State, no: nat, bs: seq<Block>)
    requires ValidSetup(cfg) && no < |s.flights| && s.flights[no].open && s.flights[no].bs == []
    requires IsRunning(cfg, s.flights[no].(bs := bs)) && bs != []
    ensures var b := bs[|bs| - 1];
      && b.tries > 0 && IsRunning(cfg, s.flights[no].(bs := WithoutTry(bs))) && |LogOf(WithoutTry(bs))| < |LogOf(bs)|
      && SendStep(cfg, AfterSends(s, no, WithoutTry(bs)), no, Try(b.send, b.accepted), AfterSends(s, no, bs))
  {
    LastSendWasRun(cfg, s.flights[no], bs);
    TryIsStep(cfg, s, no, WithoutTry(bs), Try(bs[|bs| - 1].send, bs[|bs| - 1].accepted), bs);
  }

  lemma SentOneMore(sent: seq<Sent>, no: nat, p: Payload, log: seq<Try>, t: Try)
    ensures sent + SentBy(no, p, log + [t]) == sent + SentBy(no, p, log) + [Sent(no, p, t)]
  {
  }

  /** A call that has sent nothing may do anything that begins to carry out its plan. */
  lemma {:induction false} SendsAll(cfg: Setup, s: State, no: nat, bs: seq<Block>)
    requires ValidSetup(cfg) && no < |s.flights| && s.flights[no].open && s.flights[no].bs == []
    requires IsRunning(cfg, s.flights[no].(bs := bs))
    ensures FollowsPlainly(cfg, s, AfterSends(s, no, bs))
    decreases |LogOf(bs)|
  {
    if bs == [] {
      StaysThere(cfg, s);
      assert AfterSends(s, no, bs) == s;
    } else {
      LastSendIsStep(cfg, s, no, bs);
      SendsAll(cfg, s, no, WithoutTry(bs));
      var b := bs[|bs| - 1];
      OneMorePlainly(cfg, s, AfterSends(s, no, WithoutTry(bs)), SendOnce(no, Try(b.send, b.accepted)),
                     AfterSends(s, no, bs));
    }
  }

  /** A call under way that has sent bs. */
  function Flying(s: State, owner: Owner, p: Payload, aliases: Aliases, bs: seq<Block>): State {
    s.(flights := s.flights + [Flight(owner, p, aliases, s.acks, bs, true)],
       sent := s.sent + SentBy(|s.flights|, p, LogOf(bs)))
  }

  lemma Flies(cfg: Setup, s: State, owner: Owner, p: Payload, aliases: Aliases, bs: seq<Block>)
    requires ValidSetup(cfg) && Running(bs, PlanFor(cfg, p, aliases), Bound(cfg.relay.maxSendRetries))
    ensures FollowsPlainly(cfg, s.(flights := Begun(s, owner, p, aliases)), Flying(s, owner, p, aliases, bs))
  {
    var s1 := s.(flights := Begun(s, owner, p, aliases));
    SendsAll(cfg, s1, |s.flights|, bs);
    assert AfterSends(s1, |s.flights|, bs).flights == Flying(s, owner, p, aliases, bs).flights;
  }

  lemma HonestRuns(cfg: Setup, c: Call)
    requires Honest(cfg, c)
    ensures Running(c.bs, PlanFor(cfg, c.payload, c.aliases), Bound(cfg.relay.maxSendRetries))
  {
    if IsSendError(c.result) || c.result.Ok? {
      FinishedRuns(c.bs, PlanFor(cfg, c.payload, c.aliases), Bound(cfg.relay.maxSendRetries), c.result.Ok?);
    }
  }

  /** The call of the given number and beginning. */
  function Placed(c: Call, s: State): Call {
    c.(since := s.acks, no := |s.flights|)
  }

  /** The call has returned: the flight and what it sent stay behind. */
  function Flown(s: State, owner: Owner, c: Call): State {
    s.(flights := s.flights + [Flight(owner, c.payload, c.aliases, s.acks, c.bs, false)],
       sent := s.sent + SentBy(|s.flights|, c.payload, LogOf(c.bs)), calls := s.calls + [Placed(c, s)])
  }

  lemma Lands(s: State, owner: Owner, c: Call)
    ensures var s1 := Flying(s, owner, c.payload, c.aliases, c.bs);
      Returns(s1, owner, Placed(c, s)) && Closed(s1.flights, |s.flights|) == Flown(s, owner, c).flights
  {
  }

  // ----- whole calls -----

  lemma PlacedIsHonest(cfg: Setup, c: Call, s: State)
    requires Honest(cfg, c)
    ensures Honest(cfg, Placed(c, s))
  {
  }

  /** Mail arrives and its relay call goes so far. */
  lemma MailAsks(cfg: Setup, s: State, c: Call)
    requires ValidSetup(cfg) && Honest(cfg, c)
    ensures FollowsPlainly(cfg, s, Flying(s, ByMail, c.payload, c.aliases, c.bs))
  {
    StaysThere(cfg, s);
    var s1 := s.(flights := Begun(s, ByMail, c.payload, c.aliases));
    OneMorePlainly(cfg, s, s, MailBegin(c.payload, c.aliases), s1);
    HonestRuns(cfg, c);
    Flies(cfg, s, ByMail, c.payload, c.aliases, c.bs);
    OnwardPlainly(cfg, s, s1, Flying(s, ByMail, c.payload, c.aliases, c.bs));
  }

  /** The worker begins the first item of its batch, and the call goes so far. */
  lemma WorkerSends(cfg: Setup, s: State, aliases: Aliases, bs: seq<Block>)
    requires ValidSetup(cfg) && s.worker.Busy? && s.worker.batch != []
    requires Running(bs, PlanFor(cfg, PayloadOf(s.worker.batch[0]), aliases), Bound(cfg.relay.maxSendRetries))
    ensures FollowsPlainly(cfg, s, Flying(s.(worker := Sending(s.worker.batch, |s.flights|)), ByWorker,
                                   PayloadOf(s.worker.batch[0]), aliases, bs))
  {
    StaysThere(cfg, s);
    var p, s1 := PayloadOf(s.worker.batch[0]), s.(worker := Sending(s.worker.batch, |s.flights|));
    var s2 := s1.(flights := Begun(s, ByWorker, p, aliases));
    OneMorePlainly(cfg, s, s, WorkerBegin(aliases), s2);
    Flies(cfg, s1, ByWorker, p, aliases, bs);
    OnwardPlainly(cfg, s, s2, Flying(s1, ByWorker, p, aliases, bs));
  }

  /** And then it returns. */
  lemma WorkerAsks(cfg: Setup, s: State, c: Call)
    requires ValidSetup(cfg) && s.worker.Busy? && s.worker.batch != []
    requires Honest(cfg, c) && c.payload == PayloadOf(s.worker.batch[0])
    ensures FollowsPlainly(cfg, s, Flown(s, ByWorker, c).(worker := Answered(s.worker.batch, c.result.Ok?)))
  {
    var s1 := s.(worker := Sending(s.worker.batch, |s.flights|));
    HonestRuns(cfg, c);
    WorkerSends(cfg, s, c.aliases, c.bs);
    Lands(s1, ByWorker, c);
    PlacedIsHonest(cfg, c, s);
    OneMorePlainly(cfg, s, Flying(s1, ByWorker, c.payload, c.aliases, c.bs), WorkerRelay(Placed(c, s)),
            Flown(s, ByWorker, c).(worker := Answered(s.worker.batch, c.result.Ok?)));
  }

  lemma HandBegins(cfg: Setup, s: State, k: nat, id: string, aliases: Aliases)
    requires ValidSetup(cfg) && k !in s.replays && id in s.mem
    ensures Follows(cfg, s, s.(replays := s.replays[k := Trying(s.mem[id], |s.flights|)],
                               flights := Begun(s, ByAdmin(k), PayloadOf(s.mem[id]), aliases)))
  {
    StaysThere(cfg, s);
    var item := s.mem[id];
    var s1 := s.(replays := s.replays[k := Fetched(item)]);
    OneMore(cfg, s, s, AdminFetch(k, id), s1);
    assert s1.replays[k := Trying(item, |s.flights|)] == s.replays[k := Trying(item, |s.flights|)];
    OneMore(cfg, s, s1, AdminBegin(k, aliases), s.(replays := s.replays[k := Trying(item, |s.flights|)],
                                                   flights := Begun(s, ByAdmin(k), PayloadOf(item), aliases)));
  }

  /** An administrator fetches an item and begins, and the call goes so far. */
  lemma HandSends(cfg: Setup, s: State, k: nat, id: string, aliases: Aliases, bs: seq<Block>)
    requires ValidSetup(cfg) && k !in s.replays && id in s.mem
    requires Running(bs, PlanFor(cfg, PayloadOf(s.mem[id]), aliases), Bound(cfg.relay.maxSendRetries))
    ensures Follows(cfg, s, Flying(s.(replays := s.replays[k := Trying(s.mem[id], |s.flights|)]), ByAdmin(k),
                                   PayloadOf(s.mem[id]), aliases, bs))
  {
    var item := s.mem[id];
    var s2 := s.(replays := s.replays[k := Trying(item, |s.flights|)]);
    var s3 := s2.(flights := Begun(s, ByAdmin(k), PayloadOf(item), aliases));
    HandBegins(cfg, s, k, id, aliases);
    Flies(cfg, s2, ByAdmin(k), PayloadOf(item), aliases, bs);
    PlainlyToo(cfg, s3, Flying(s2, ByAdmin(k), PayloadOf(item), aliases, bs));
    Onward(cfg, s, s3, Flying(s2, ByAdmin(k), PayloadOf(item), aliases, bs));
  }

  lemma HandReturns(s: State, k: nat, item: Item, c: Call)
    requires c.payload == PayloadOf(item)
    ensures AdminRelayStep(Flying(s.(replays := s.replays[k := Trying(item, |s.flights|)]), ByAdmin(k), c.payload, c.aliases, c.bs),
                           k, Placed(c, s), Flown(s, ByAdmin(k), c).(replays := s.replays[k := Replied(item, c.result.Ok?)]))
  {
    Lands(s.(replays := s.replays[k := Trying(item, |s.flights|)]), ByAdmin(k), c);
    var no, ok := |s.flights|, c.result.Ok?;
    assert s.replays[k := Trying(item, no)][k := Replied(item, ok)] == s.replays[k := Replied(item, ok)];
  }

  /** And then it returns. */
  lemma HandAsks(cfg: Setup, s: State, k: nat, id: string, c: Call)
    requires ValidSetup(cfg) && k !in s.replays && id in s.mem
    requires Honest(cfg, c) && c.payload == PayloadOf(s.mem[id])
    ensures Follows(cfg, s, Flown(s, ByAdmin(k), c).(replays := s.replays[k := Replied(s.mem[id], c.result.Ok?)]))
  {
    var item := s.mem[id];
    var s1 := s.(replays := s.replays[k := Trying(item, |s.flights|)]);
    var s2 := Flown(s, ByAdmin(k), c).(replays := s.replays[k := Replied(item, c.result.Ok?)]);
    HonestRuns(cfg, c);
    HandSends(cfg, s, k, id, c.aliases, c.bs);
    HandReturns(s, k, item, c);
    PlacedIsHonest(cfg, c, s);
    OneMore(cfg, s, Flying(s1, ByAdmin(k), c.payload, c.aliases, c.bs), AdminRelay(k, Placed(c, s)), s2);
  }
}
