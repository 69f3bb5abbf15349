/** What the messenger gets to see in a run of the queue: the sends of every relay call, be it
    finished, under way or cut off by a crash; and when a mail is accepted exactly once. */
module DlqSends {
  import opened Addresses
  import opened Delivery
  import opened RelayService
  import opened DlqItems
  import opened DlqProtocol

  /** The tries of one call, in the order the messenger saw them. */
  function TriesBy(sent: seq<Sent>, no: nat): seq<Try> {
    if sent == [] then []
    else
      var before, last := TriesBy(sent[..|sent| - 1], no), sent[|sent| - 1];
      if last.no == no then before + [last.what] else before
  }

  /** All sends for a payload that the messenger accepted, in the order it saw them. */
  function AcceptedFor(sent: seq<Sent>, p: Payload): seq<Send> {
    if sent == [] then []
    else
      var before, last := AcceptedFor(sent[..|sent| - 1], p), sent[|sent| - 1];
      if last.payload == p && last.what.accepted then before + [last.what.send] else before
  }

  // ----- every call keeps to its plan -----

  /** What a call has sent is what the messenger saw of it, and begins to carry out its plan. */
  ghost predicate KeepsToPlan(cfg: Setup, s: State, no: nat)
    requires no < |s.flights|
  {
    IsRunning(cfg, s.flights[no]) && TriesBy(s.sent, no) == LogOf(s.flights[no].bs)
  }

  /** Every try the messenger saw belongs to a call that has begun, with its payload. */
  predicate BelongsTo(fs: seq<Flight>, x: Sent) {
    x.no < |fs| && fs[x.no].payload == x.payload
  }

  /** A finished call and its flight agree. */
  predicate IsFlight(fs: seq<Flight>, c: Call) {
    && c.no < |fs| && !fs[c.no].open
    && fs[c.no].payload == c.payload && fs[c.no].aliases == c.aliases && fs[c.no].bs == c.bs
  }

  ghost predicate Sound(cfg: Setup, s: State) {
    && (forall no: nat :: no < |s.flights| ==> KeepsToPlan(cfg, s, no))
    && (forall x :: x in s.sent ==> BelongsTo(s.flights, x))
    && (forall c :: c in s.calls ==> IsFlight(s.flights, c))
  }

  lemma {:induction false} TriesOneMore(sent: seq<Sent>, x: Sent, no: nat)
    ensures TriesBy(sent + [x], no) == if x.no == no then TriesBy(sent, no) + [x.what] else TriesBy(sent, no)
  {
    assert (sent + [x])[..|sent|] == sent;
  }

  lemma {:induction false} NoTries(sent: seq<Sent>, no: nat)
    requires forall x :: x in sent ==> x.no != no
    ensures TriesBy(sent, no) == []
  {
    if sent != [] {
      var n := |sent| - 1;
      assert sent == sent[..n] + [sent[n]];
      NoTries(sent[..n], no);
    }
  }

  lemma SendKeepsPlan(cfg: Setup, s: State, no: nat, what: Try, s': State, n: nat)
    requires SendStep(cfg, s, no, what, s') && n < |s.flights| && KeepsToPlan(cfg, s, no) && KeepsToPlan(cfg, s, n)
    ensures KeepsToPlan(cfg, s', n)
  {
    var f := s.flights[no];
    TriesOneMore(s.sent, Sent(no, f.payload, what), n);
    if n == no {
      SameSend(f.bs, what, PlanFor(cfg, f.payload, f.aliases), Bound(cfg.relay.maxSendRetries));
      LogWithTry(f.bs, what);
    }
  }

  lemma SendKeepsRest(cfg: Setup, s: State, no: nat, what: Try, s': State)
    requires SendStep(cfg, s, no, what, s')
    ensures forall x :: BelongsTo(s.flights, x) ==> BelongsTo(s'.flights, x)
    ensures forall c :: IsFlight(s.flights, c) ==> IsFlight(s'.flights, c)
    ensures BelongsTo(s'.flights, Sent(no, s.flights[no].payload, what))
  {
  }

  lemma SendKeepsSound(cfg: Setup, s: State, no: nat, what: Try, s': State)
    requires SendStep(cfg, s, no, what, s') && Sound(cfg, s)
    ensures Sound(cfg, s')
  {
    SendKeepsRest(cfg, s, no, what, s');
    forall n: nat | n < |s'.flights|
      ensures KeepsToPlan(cfg, s', n)
    {
      SendKeepsPlan(cfg, s, no, what, s', n);
    }
  }

  lemma BeginKeepsSound(cfg: Setup, s: State, owner: Owner, p: Payload, aliases: Aliases, s': State)
    requires Sound(cfg, s) && s'.flights == Begun(s, owner, p, aliases) && s'.sent == s.sent && s'.calls == s.calls
    ensures Sound(cfg, s')
  {
    forall no: nat | no < |s'.flights|
      ensures KeepsToPlan(cfg, s', no)
    {
      if no == |s.flights| {
        NoTries(s.sent, no);
        assert PlanFor(cfg, p, aliases)[..0] == [];
      } else {
        assert KeepsToPlan(cfg, s, no);
      }
    }
  }

  lemma ReturnKeepsSound(cfg: Setup, s: State, owner: Owner, c: Call, s': State)
    requires Sound(cfg, s) && Returns(s, owner, c)
    requires s'.flights == Closed(s.flights, c.no) && s'.sent == s.sent && s'.calls == s.calls + [c]
    ensures Sound(cfg, s')
  {
    forall no: nat | no < |s'.flights|
      ensures KeepsToPlan(cfg, s', no)
    {
      assert KeepsToPlan(cfg, s, no);
    }
  }

  lemma CrashKeepsSound(cfg: Setup, s: State, s': State)
    requires Sound(cfg, s) && CrashStep(s, s')
    ensures Sound(cfg, s')
  {
    forall no: nat | no < |s'.flights|
      ensures KeepsToPlan(cfg, s', no)
    {
      assert KeepsToPlan(cfg, s, no);
    }
  }

  lemma OtherKeepsSound(cfg: Setup, s: State, s': State)
    requires Sound(cfg, s) && s'.flights == s.flights && s'.sent == s.sent && s'.calls == s.calls
    ensures Sound(cfg, s')
  {
    forall no: nat | no < |s'.flights|
      ensures KeepsToPlan(cfg, s', no)
    {
      assert KeepsToPlan(cfg, s, no);
    }
  }

  lemma StepKeepsSound(cfg: Setup, s: State, e: Event, s': State)
    requires ValidSetup(cfg) && Step(cfg, s, e, s') && Sound(cfg, s)
    ensures Sound(cfg, s')
  {
    match e
    case MailBegin(payload, aliases) => BeginKeepsSound(cfg, s, ByMail, payload, aliases, s');
    case WorkerBegin(aliases) => BeginKeepsSound(cfg, s, ByWorker, PayloadOf(s.worker.batch[0]), aliases, s');
    case AdminBegin(k, aliases) => BeginKeepsSound(cfg, s, ByAdmin(k), PayloadOf(s.replays[k].item), aliases, s');
    case SendOnce(no, what) => SendKeepsSound(cfg, s, no, what, s');
    case SmtpRelay(call, _, _, _, _) => ReturnKeepsSound(cfg, s, ByMail, call, s');
    case WorkerRelay(call) => ReturnKeepsSound(cfg, s, ByWorker, call, s');
    case AdminRelay(k, call) => ReturnKeepsSound(cfg, s, ByAdmin(k), call, s');
    case Crash => CrashKeepsSound(cfg, s, s');
    case _ => OtherKeepsSound(cfg, s, s');
  }

  lemma {:induction false} RunIsSound(cfg: Setup, ss: seq<State>, es: seq<Event>, n: nat)
    requires ValidSetup(cfg) && Run(cfg, ss, es) && n <= |es|
    ensures Sound(cfg, ss[n])
  {
    if n > 0 {
      RunIsSound(cfg, ss, es, n - 1);
      assert StepAt(cfg, ss, es, n - 1);
      StepKeepsSound(cfg, ss[n - 1], es[n - 1], ss[n]);
    }
  }

  /** In every run, what the messenger accepted of a call that has begun is the first part of that
      call's plan, whether the call has returned, is under way, or was cut off by a crash; a call
      that answered nil had its whole plan accepted. */
  lemma {:induction false} CallsKeepToPlan(cfg: Setup, ss: seq<State>, es: seq<Event>, j: nat, no: nat)
    requires ValidSetup(cfg) && Run(cfg, ss, es) && j <= |es| && no < |ss[j].flights|
    ensures var f, s := ss[j].flights[no], ss[j];
      && Accepted(TriesBy(s.sent, no)) <= PlanFor(cfg, f.payload, f.aliases)
      && forall c :: c in s.calls && c.no == no && c.result.Ok? ==>
           c.payload == f.payload && Accepted(TriesBy(s.sent, no)) == PlanFor(cfg, f.payload, f.aliases)
  {
    RunIsSound(cfg, ss, es, j);
    RunIsHonest(cfg, ss, es, j);
    var f := ss[j].flights[no];
    assert KeepsToPlan(cfg, ss[j], no);
    RunningBegins(f.bs, PlanFor(cfg, f.payload, f.aliases), Bound(cfg.relay.maxSendRetries));
    forall c | c in ss[j].calls && c.no == no && c.result.Ok?
      ensures Accepted(LogOf(f.bs)) == PlanFor(cfg, f.payload, f.aliases)
    {
      assert IsFlight(ss[j].flights, c);
      AcceptedOfRun(c.bs, PlanFor(cfg, c.payload, c.aliases), Bound(cfg.relay.maxSendRetries), true);
    }
  }

  // ----- exactly once -----

  /** No other call about the payload, finished, under way or cut off, has got anything accepted. */
  ghost predicate AllByOne(s: State, p: Payload, no: nat) {
    forall n: nat :: n < |s.flights| && n != no && s.flights[n].payload == p ==> Accepted(LogOf(s.flights[n].bs)) == []
  }

  ghost predicate OnlyBy(sent: seq<Sent>, p: Payload, no: nat) {
    forall x :: x in sent && x.payload == p && x.what.accepted ==> x.no == no
  }

  /** What a call got accepted is part of what was accepted for its payload, and all of it exactly
      when no other call contributed. */
  lemma {:induction false} PartOf(sent: seq<Sent>, p: Payload, no: nat)
    requires forall x :: x in sent && x.no == no ==> x.payload == p
    ensures |Accepted(TriesBy(sent, no))| <= |AcceptedFor(sent, p)|
    ensures if OnlyBy(sent, p, no) then Accepted(TriesBy(sent, no)) == AcceptedFor(sent, p)
            else |Accepted(TriesBy(sent, no))| < |AcceptedFor(sent, p)|
  {
    if sent != [] {
      var n := |sent| - 1;
      var before, last := sent[..n], sent[n];
      assert sent == before + [last];
      PartOf(before, p, no);
      assert OnlyBy(sent, p, no) <==> OnlyBy(before, p, no) && (last.payload == p && last.what.accepted ==> last.no == no);
      AcceptedOneMore(TriesBy(before, no), last.what);
    }
  }

  lemma {:induction false} AcceptedOneMore(log: seq<Try>, t: Try)
    ensures Accepted(log + [t]) == if t.accepted then Accepted(log) + [t.send] else Accepted(log)
  {
    assert (log + [t])[..|log|] == log;
    assert Accepted(log) + [] == Accepted(log);
  }

  lemma {:induction false} SomethingAccepted(sent: seq<Sent>, x: Sent)
    requires x in sent && x.what.accepted
    ensures Accepted(TriesBy(sent, x.no)) != []
  {
    var n := |sent| - 1;
    assert sent == sent[..n] + [sent[n]];
    AcceptedOneMore(TriesBy(sent[..n], x.no), sent[n].what);
    if sent[n] != x {
      SomethingAccepted(sent[..n], x);
    }
  }

  lemma {:induction false} AcceptedFrom(sent: seq<Sent>, no: nat) returns (x: Sent)
    requires Accepted(TriesBy(sent, no)) != []
    ensures x in sent && x.no == no && x.what.accepted
  {
    var n := |sent| - 1;
    AcceptedOneMore(TriesBy(sent[..n], no), sent[n].what);
    if sent[n].no == no && sent[n].what.accepted {
      x := sent[n];
    } else {
      x := AcceptedFrom(sent[..n], no);
    }
  }

  lemma OnlyByIff(cfg: Setup, s: State, p: Payload, no: nat)
    requires Sound(cfg, s)
    ensures OnlyBy(s.sent, p, no) <==> AllByOne(s, p, no)
  {
    if OnlyBy(s.sent, p, no) {
      forall n: nat | n < |s.flights| && n != no && s.flights[n].payload == p
        ensures Accepted(LogOf(s.flights[n].bs)) == []
      {
        assert KeepsToPlan(cfg, s, n);
        if Accepted(TriesBy(s.sent, n)) != [] {
          var x := AcceptedFrom(s.sent, n);
        }
      }
    } else {
      var x :| x in s.sent && x.payload == p && x.what.accepted && x.no != no;
      assert BelongsTo(s.flights, x) && KeepsToPlan(cfg, s, x.no);
      SomethingAccepted(s.sent, x);
    }
  }

  /** A mail that some call answered nil for, as every delivered mail has been, was accepted exactly
      once if and only if no other call about it got anything accepted, be it finished, still under
      way, or cut off by a crash. */
  lemma ExactlyOnceIff(cfg: Setup, ss: seq<State>, es: seq<Event>, j: nat, c: Call)
    requires ValidSetup(cfg) && Run(cfg, ss, es) && j <= |es| && c in ss[j].calls && c.result.Ok?
    ensures AcceptedFor(ss[j].sent, c.payload) == PlanFor(cfg, c.payload, c.aliases) <==> AllByOne(ss[j], c.payload, c.no)
  {
    var s := ss[j];
    RunIsSound(cfg, ss, es, j);
    assert IsFlight(s.flights, c);
    CallsKeepToPlan(cfg, ss, es, j, c.no);
    forall x | x in s.sent && x.no == c.no
      ensures x.payload == c.payload
    {
      assert BelongsTo(s.flights, x);
    }
    PartOf(s.sent, c.payload, c.no);
    OnlyByIff(cfg, s, c.payload, c.no);
  }

  /** So one other call with anything accepted is enough to spoil it. */
  lemma NotJustOnce(cfg: Setup, ss: seq<State>, es: seq<Event>, c: Call, no: nat)
    requires ValidSetup(cfg) && Run(cfg, ss, es) && c in ss[|es|].calls && c.result.Ok?
    requires no < |ss[|es|].flights| && no != c.no
    requires ss[|es|].flights[no].payload == c.payload && Accepted(LogOf(ss[|es|].flights[no].bs)) != []
    ensures AcceptedFor(ss[|es|].sent, c.payload) != PlanFor(cfg, c.payload, c.aliases)
  {
    ExactlyOnceIff(cfg, ss, es, |es|, c);
  }
}
