/** Runs in which one mail fails again and again: how far apart its picks are, and how an item that
    has used up its tries gets them back. */
module DlqFailures {
  import opened Support
  import opened DlqItems
  import opened DlqProtocol
  import opened DlqPaths
  import opened DlqRuns
  import opened Backoff

  // ----- one failure after the other -----

  /** The mail is the only item, waiting for its next try after k failures. */
  predicate Waits(s: State, p: Payload, k: int) {
    && s.worker == Idle && "1" in s.mem && s.mem == map["1" := s.mem["1"]]
    && var item := s.mem["1"];
       item.id == "1" && item.status == Pending && item.attempt == k && PayloadOf(item) == p && item.fingerprint != NoFingerprint
  }

  /** It was picked, and the messenger refused it again. */
  function AfterRefusal(s: State, bad: Call): State
    requires "1" in s.mem
  {
    var s1 := AfterPick(s, s.mem["1"], s.mem["1"].nextRetryAt, true);
    Flown(s1, ByWorker, bad).(worker := Answered(s1.worker.batch, false))
  }

  lemma RefusalHappens(cfg: Setup, s: State, bad: Call, k: int)
    requires ValidSetup(cfg) && CanFail(cfg, bad) && Waits(s, bad.payload, k)
    ensures FollowsPlainly(cfg, s, AfterRefusal(s, bad))
  {
    var item := s.mem["1"];
    var s1 := AfterPick(s, item, item.nextRetryAt, true);
    PickHappens(cfg, s, item, item.nextRetryAt, true);
    WorkerAsks(cfg, s1, bad);
    OnwardPlainly(cfg, s, s1, AfterRefusal(s, bad));
  }

  /** The item as it is then picked. */
  function Picked(s: State): Item
    requires "1" in s.mem
  {
    PickItem(s.mem["1"], s.mem["1"].nextRetryAt)
  }

  /** And the failure was recorded at time 0. */
  function AfterFailure(cfg: Setup, s: State, bad: Call, draw: int, ioOk: bool): State
    requires ValidSetup(cfg) && "1" in s.mem
  {
    var item, s1 := Picked(s), AfterRefusal(s, bad);
    var mem := map["1" := RetryItem(item, WorkerNext(cfg, item, 0, draw), Some(""), cfg.maxRetries, 0)];
    s1.(mem := mem, disk := Saved(ioOk, mem, s1.disk), worker := Idle, failures := s1.failures["1" := Failure(0, item.attempt + 1)])
  }

  lemma FailureIsStep(cfg: Setup, s: State, bad: Call, k: int, draw: int, ioOk: bool)
    requires ValidSetup(cfg) && Waits(s, bad.payload, k) && 0 <= draw < EffectiveJitter(cfg.jitter)
    ensures WorkerMarkStep(cfg, AfterRefusal(s, bad), 0, draw, "", ioOk, AfterFailure(cfg, s, bad, draw, ioOk))
  {
  }

  lemma FailureHappens(cfg: Setup, s: State, bad: Call, k: int, draw: int, ioOk: bool)
    requires ValidSetup(cfg) && CanFail(cfg, bad) && Waits(s, bad.payload, k) && 0 <= draw < EffectiveJitter(cfg.jitter)
    ensures var s' := AfterFailure(cfg, s, bad, draw, ioOk);
      Follows(cfg, s, s') && (ioOk ==> FollowsPlainly(cfg, s, s'))
  {
    var s1, s' := AfterRefusal(s, bad), AfterFailure(cfg, s, bad, draw, ioOk);
    RefusalHappens(cfg, s, bad, k);
    FailureIsStep(cfg, s, bad, k, draw, ioOk);
    PlainlyToo(cfg, s, s1);
    OneMore(cfg, s, s1, WorkerMark(0, draw, "", ioOk), s');
    if ioOk {
      OneMorePlainly(cfg, s, s1, WorkerMark(0, draw, "", ioOk), s');
    }
  }

  /** The mail can fail as often as it is tried. */
  lemma {:induction false} FailsTimes(cfg: Setup, bad: Call, k: nat) returns (s: State)
    requires ValidSetup(cfg) && CanFail(cfg, bad) && (cfg.maxRetries > 0 ==> k < cfg.maxRetries)
    ensures FollowsPlainly(cfg, START, s) && Waits(s, bad.payload, k) && s.disk == s.mem && s.replays == map[]
  {
    if k == 0 {
      FirstMail(cfg, bad);
      s := AfterMail(START, bad, 10, "1");
      assert s.mem == map["1" := FirstItem(bad, 10, "1")];
    } else {
      var s1 := FailsTimes(cfg, bad, k - 1);
      FailureHappens(cfg, s1, bad, k - 1, 0, true);
      s := AfterFailure(cfg, s1, bad, 0, true);
      OnwardPlainly(cfg, START, s1, s);
    }
  }

  // ----- spacing -----

  /** Every pick in every run without manual replays and failing writes comes in time. */
  ghost predicate AlwaysSpaced(cfg: Setup)
    requires ValidSetup(cfg)
  {
    forall ss: seq<State>, es: seq<Event>, n: nat, id: string :: Run(cfg, ss, es) && Plain(es) && n < |es| ==>
      PickedInTime(cfg, ss, es, n, id)
  }

  /** A delay that does not fit can come out negative. */
  lemma LargestDrawWraps(cfg: Setup, attempt: int)
    requires ValidSetup(cfg) && !DelayFits(cfg, attempt)
    ensures WorkerDelay(attempt, cfg.baseDelay, cfg.maxDelay, EffectiveJitter(cfg.jitter) - 1) < 0
  {
  }

  lemma WaitsLittle(cfg: Setup, s: State, bad: Call, attempt: int)
    requires ValidSetup(cfg) && !DelayFits(cfg, attempt) && Waits(s, bad.payload, attempt - 1)
    requires cfg.maxRetries > 0 ==> attempt < cfg.maxRetries
    ensures var s1 := AfterFailure(cfg, s, bad, EffectiveJitter(cfg.jitter) - 1, true);
      && s1.worker == Idle && s1.mem == map["1" := s1.mem["1"]] && s1.mem["1"].status == Pending
      && "1" in s1.failures && s1.failures["1"] == Failure(0, attempt)
      && s1.mem["1"].nextRetryAt < NextDelay(attempt, cfg.baseDelay, cfg.maxDelay)
  {
    LargestDrawWraps(cfg, attempt);
  }

  lemma PicksTooEarly(cfg: Setup, s: State, item: Item) returns (ss: seq<State>, es: seq<Event>)
    requires ValidSetup(cfg) && FollowsPlainly(cfg, START, s)
    requires s.worker == Idle && s.mem == map["1" := item] && item.status == Pending && "1" in s.failures
    requires var f := s.failures["1"]; item.nextRetryAt < f.at + NextDelay(f.attempt, cfg.baseDelay, cfg.maxDelay)
    ensures Run(cfg, ss, es) && Plain(es) && es != [] && !PickedInTime(cfg, ss, es, |es| - 1, "1")
  {
    var now := item.nextRetryAt;
    PickOne(item, now);
    ss, es := PlainRunTo(cfg, s);
    RunOnward(cfg, ss, es, Pick(["1"], 1, now, true), AfterPick(s, item, now, true));
    ss, es := ss + [AfterPick(s, item, now, true)], es + [Pick(["1"], 1, now, true)];
    assert "1" in es[|es| - 1].ids;
  }

  lemma PickedTooEarly(cfg: Setup, bad: Call, attempt: int) returns (ss: seq<State>, es: seq<Event>)
    requires ValidSetup(cfg) && CanFail(cfg, bad) && !DelayFits(cfg, attempt)
    requires attempt >= 1 && (cfg.maxRetries > 0 ==> attempt < cfg.maxRetries)
    ensures Run(cfg, ss, es) && Plain(es) && es != [] && !PickedInTime(cfg, ss, es, |es| - 1, "1")
  {
    var draw := EffectiveJitter(cfg.jitter) - 1;
    var s := FailsTimes(cfg, bad, attempt - 1);
    var s1 := AfterFailure(cfg, s, bad, draw, true);
    FailureHappens(cfg, s, bad, attempt - 1, draw, true);
    OnwardPlainly(cfg, START, s, s1);
    WaitsLittle(cfg, s, bad, attempt);
    ss, es := PicksTooEarly(cfg, s1, s1.mem["1"]);
  }

  /** Where a mail can fail at all, the picks of every item are spaced by the backoff in every run
      without manual replays and failing writes exactly when no delay that is ever waited for
      overflows. */
  lemma AlwaysSpacedIff(cfg: Setup, bad: Call)
    requires ValidSetup(cfg) && CanFail(cfg, bad)
    ensures AlwaysSpaced(cfg) <==> NoOverflow(cfg)
  {
    if NoOverflow(cfg) {
      forall ss: seq<State>, es: seq<Event>, n: nat, id: string | Run(cfg, ss, es) && Plain(es) && n < |es|
        ensures PickedInTime(cfg, ss, es, n, id)
      {
        PicksAreSpaced(cfg, ss, es, n, id);
      }
    } else {
      var a :| 1 <= a <= 64 && (cfg.maxRetries > 0 ==> a < cfg.maxRetries) && !DelayFits(cfg, a);
      var ss, es := PickedTooEarly(cfg, bad, a);
    }
  }

  /** A cap that does not fit together with the jitter does no harm if it is never reached: with the
      largest cap of all, four waits from one second on. */
  lemma LargeCapIsFine()
    ensures var cfg := SETUP.(maxRetries := 5, baseDelay := SECOND, maxDelay := TWO_63 - 1);
      ValidSetup(cfg) && NoOverflow(cfg) && !JitterStaysInBand(cfg.baseDelay, cfg.maxDelay, cfg.jitter)
  {
    JitterStaysInBandIff(SECOND, TWO_63 - 1, 0);
    assert Pow2(1) == 2 && Pow2(2) == 4 && Pow2(3) == 8;
  }

  // ----- tries come back -----

  /** An item that had used up its tries and been given up waits again at the end of the run. */
  ghost predicate Revived(cfg: Setup, ss: seq<State>, es: seq<Event>, i: nat, id: string)
    requires ValidSetup(cfg)
  {
    && Run(cfg, ss, es) && i < |es| && Exhausted(cfg, ss[i], id) && ss[i].mem[id].status == Failed
    && id in ss[|es|].mem && ss[|es|].mem[id].status == Pending && !Exhausted(cfg, ss[|es|], id)
  }

  lemma RevivedWhen(cfg: Setup, s: State, s': State, id: string)
    requires ValidSetup(cfg) && Reachable(cfg, s) && Follows(cfg, s, s')
    requires Exhausted(cfg, s, id) && s.mem[id].status == Failed
    requires id in s'.mem && s'.mem[id].status == Pending && !Exhausted(cfg, s', id)
    ensures exists ss, es, i :: Revived(cfg, ss, es, i, id)
  {
    var ss, es := RunTo(cfg, s);
    var ss', es' := RunsOn(cfg, ss, es, s');
    assert ss'[|es|] == ss[|es|] && |es| != |es'|;
    assert Revived(cfg, ss', es', |es|, id);
  }

  /** Given up, but the write failed: the file still has the item as it was picked. */
  lemma LastFailureIsLost(cfg: Setup, s: State, bad: Call)
    requires ValidSetup(cfg) && cfg.maxRetries > 0 && Waits(s, bad.payload, cfg.maxRetries - 1)
    ensures var s1 := AfterFailure(cfg, s, bad, 0, false);
      && Exhausted(cfg, s1, "1") && s1.mem["1"].status == Failed
      && Crashed(s1).mem == map["1" := Picked(s).(status := Pending)]
  {
    ReloadWaiting(Picked(s));
  }

  /** Whatever the limit: the last try fails, the write that records this fails too, the process
      crashes, and the item waits for that try again. */
  lemma LostFailureRevives(cfg: Setup, bad: Call)
    requires ValidSetup(cfg) && cfg.maxRetries > 0 && CanFail(cfg, bad)
    ensures exists ss, es, i :: Revived(cfg, ss, es, i, "1")
  {
    var s := FailsTimes(cfg, bad, cfg.maxRetries - 1);
    var s1 := AfterFailure(cfg, s, bad, 0, false);
    FailureHappens(cfg, s, bad, cfg.maxRetries - 1, 0, false);
    PlainlyToo(cfg, START, s);
    Onward(cfg, START, s, s1);
    CrashHappens(cfg, s1);
    LastFailureIsLost(cfg, s, bad);
    RevivedWhen(cfg, s1, Crashed(s1), "1");
  }
}
