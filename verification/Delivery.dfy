/** What one relay call sends: the plan of messages and the log of tries
    (internal/relay/service.go). */
module Delivery {
  import opened Support
  import opened Addresses
  import Splitter
  import Utf8

  const MAX_TEXT: int := 4000

  datatype Attachment = Attachment(filename: string, contentType: string, data: seq<byte>)

  /** What the e-mail parser makes of a message: the text to post and the files. */
  datatype Mail = Mail(text: string, attachments: seq<Attachment>)

  datatype Send = SendText(chatId: string, text: string, silent: bool)
                | SendFile(chatId: string, file: Attachment, silent: bool)

  /** One call of the sender and whether it returned nil. */
  datatype Try = Try(send: Send, accepted: bool)

  function TextSends(target: Target, chunks: seq<string>): (r: seq<Send>)
    ensures |r| == |chunks| && forall i :: 0 <= i < |r| ==> r[i] == SendText(target.chatId, chunks[i], target.silent)
  {
    seq(|chunks|, i requires 0 <= i < |chunks| => SendText(target.chatId, chunks[i], target.silent))
  }

  function FileSends(target: Target, files: seq<Attachment>): (r: seq<Send>)
    ensures |r| == |files| && forall i :: 0 <= i < |r| ==> r[i] == SendFile(target.chatId, files[i], target.silent)
  {
    seq(|files|, i requires 0 <= i < |files| => SendFile(target.chatId, files[i], target.silent))
  }

  /** A mail cut up for posting. */
  datatype Parcel = Parcel(chunks: seq<string>, files: seq<Attachment>)

  function ParcelOf(mail: Mail): Parcel {
    Parcel(Splitter.Split(mail.text, MAX_TEXT), mail.attachments)
  }

  function TargetPlan(target: Target, p: Parcel): seq<Send> {
    TextSends(target, p.chunks) + FileSends(target, p.files)
  }

  /** Target by target: the chunks of the text, then the attachments. */
  function Plan(targets: seq<Target>, p: Parcel): seq<Send> {
    if targets == [] then []
    else Plan(targets[..|targets| - 1], p) + TargetPlan(targets[|targets| - 1], p)
  }

  /** All tries of one send: sendWithRetry stops at the first accepted one. */
  datatype Block = Block(send: Send, tries: nat, accepted: bool)

  function TriesOf(b: Block): (log: seq<Try>)
    ensures |log| == b.tries
  {
    seq(b.tries, i => Try(b.send, b.accepted && i == b.tries - 1))
  }

  function LogOf(bs: seq<Block>): seq<Try> {
    if bs == [] then [] else LogOf(bs[..|bs| - 1]) + TriesOf(bs[|bs| - 1])
  }

  lemma {:induction false} LogConcat(a: seq<Block>, b: seq<Block>)
    ensures LogOf(a + b) == LogOf(a) + LogOf(b)
  {
    if b == [] {
      assert a + b == a;
    } else {
      LogConcat(a, b[..|b| - 1]);
      assert (a + b)[..|a + b| - 1] == a + b[..|b| - 1];
    }
  }

  function Accepted(log: seq<Try>): seq<Send> {
    if log == [] then []
    else Accepted(log[..|log| - 1]) + if log[|log| - 1].accepted then [log[|log| - 1].send] else []
  }

  lemma {:induction false} AcceptedConcat(a: seq<Try>, b: seq<Try>)
    ensures Accepted(a + b) == Accepted(a) + Accepted(b)
  {
    if b == [] {
      assert a + b == a;
    } else {
      AcceptedConcat(a, b[..|b| - 1]);
      assert (a + b)[..|a + b| - 1] == a + b[..|b| - 1];
    }
  }

  lemma {:induction false} AcceptedOfBlock(b: Block)
    requires b.tries > 0
    ensures Accepted(TriesOf(b)) == if b.accepted then [b.send] else []
  {
    var log := TriesOf(b);
    NothingAccepted(log[..b.tries - 1]);
  }

  lemma {:induction false} NothingAccepted(log: seq<Try>)
    requires forall i :: 0 <= i < |log| ==> !log[i].accepted
    ensures Accepted(log) == []
  {
    if log != [] {
      NothingAccepted(log[..|log| - 1]);
    }
  }

  /** A run over the plan: each send is tried between 1 and bound times, in order, and the run
      stops at the first send of which no try is accepted. */
  ghost predicate Executes(bs: seq<Block>, plan: seq<Send>, bound: nat, ok: bool)
    decreases |bs|
  {
    if bs == [] then ok && plan == []
    else
      var n := |bs| - 1;
      && n < |plan| && (ok ==> |plan| == n + 1)
      && bs[n].send == plan[n] && 1 <= bs[n].tries <= bound && bs[n].accepted == ok
      && Executes(bs[..n], plan[..n], bound, true)
  }

  lemma {:induction false} ExecutesAt(bs: seq<Block>, plan: seq<Send>, bound: nat, ok: bool, i: nat)
    requires Executes(bs, plan, bound, ok) && i < |bs|
    ensures |bs| <= |plan| && bs[i].send == plan[i] && 1 <= bs[i].tries <= bound
    ensures bs[i].accepted <==> ok || i < |bs| - 1
    decreases |bs|
  {
    if i < |bs| - 1 {
      ExecutesAt(bs[..|bs| - 1], plan[..|bs| - 1], bound, true, i);
    }
  }

  lemma {:induction false} AcceptedOfAll(bs: seq<Block>, plan: seq<Send>, bound: nat)
    requires Executes(bs, plan, bound, true)
    ensures Accepted(LogOf(bs)) == plan
  {
    if bs != [] {
      var n := |bs| - 1;
      calc {
        Accepted(LogOf(bs));
        { AcceptedOfLast(bs); }
        Accepted(LogOf(bs[..n])) + [bs[n].send];
        { AcceptedOfAll(bs[..n], plan[..n], bound); }
        plan[..n] + [plan[n]];
        plan;
      }
    }
  }

  lemma {:induction false} AcceptedOfLast(bs: seq<Block>)
    requires bs != [] && bs[|bs| - 1].tries > 0
    ensures var b := bs[|bs| - 1];
            Accepted(LogOf(bs)) == Accepted(LogOf(bs[..|bs| - 1])) + if b.accepted then [b.send] else []
  {
    AcceptedConcat(LogOf(bs[..|bs| - 1]), TriesOf(bs[|bs| - 1]));
    AcceptedOfBlock(bs[|bs| - 1]);
  }

  /** A run that succeeds was accepted exactly as planned; one that fails, up to a strict
      prefix of the plan. */
  lemma {:induction false} AcceptedOfRun(bs: seq<Block>, plan: seq<Send>, bound: nat, ok: bool)
    requires Executes(bs, plan, bound, ok)
    ensures ok ==> Accepted(LogOf(bs)) == plan
    ensures !ok ==> 0 < |bs| <= |plan| && Accepted(LogOf(bs)) == plan[..|bs| - 1]
  {
    if ok {
      AcceptedOfAll(bs, plan, bound);
    } else {
      var n := |bs| - 1;
      AcceptedOfAll(bs[..n], plan[..n], bound);
      AcceptedOfLast(bs);
    }
  }

  lemma {:induction false} ExecutesOneMore(bs: seq<Block>, plan: seq<Send>, b: Block, bound: nat)
    requires |bs| < |plan| && Executes(bs, plan[..|bs|], bound, true)
    requires b.send == plan[|bs|] && 1 <= b.tries <= bound
    ensures Executes(bs + [b], plan[..|bs| + 1], bound, b.accepted)
    ensures !b.accepted ==> Executes(bs + [b], plan, bound, false)
  {
    assert (bs + [b])[..|bs|] == bs;
    assert plan[..|bs| + 1][..|bs|] == plan[..|bs|];
  }

  lemma {:induction false} ExecutesThen(a: seq<Block>, xs: seq<Send>, b: seq<Block>, ys: seq<Send>, bound: nat, ok: bool)
    requires Executes(a, xs, bound, true) && Executes(b, ys, bound, ok)
    ensures Executes(a + b, xs + ys, bound, ok)
    decreases |b|
  {
    if b == [] {
      assert a + b == a && xs + ys == xs;
    } else {
      var n := |b| - 1;
      ExecutesThen(a, xs, b[..n], ys[..n], bound, true);
      assert |a| == |xs|;
      assert (a + b)[..|a| + n] == a + b[..n] && (xs + ys)[..|a| + n] == xs + ys[..n];
    }
  }

  lemma {:induction false} ExecutesLess(a: seq<Block>, xs: seq<Send>, ys: seq<Send>, bound: nat)
    requires Executes(a, xs, bound, false)
    ensures Executes(a, xs + ys, bound, false)
  {
    assert (xs + ys)[..|a| - 1] == xs[..|a| - 1];
  }

  // ----- runs under way -----

  predicate Failing(bs: seq<Block>) {
    bs != [] && !bs[|bs| - 1].accepted
  }

  /** What a run over the plan has done up to some moment. */
  ghost predicate Running(bs: seq<Block>, plan: seq<Send>, bound: nat) {
    |bs| <= |plan| && if Failing(bs) then Executes(bs, plan, bound, false) else Executes(bs, plan[..|bs|], bound, true)
  }

  /** One more try: of the send that has failed so far, else of the next one. */
  function WithTry(bs: seq<Block>, t: Try): seq<Block> {
    if Failing(bs) then
      var n := |bs| - 1;
      bs[..n] + [Block(t.send, bs[n].tries + 1, t.accepted)]
    else bs + [Block(t.send, 1, t.accepted)]
  }

  lemma {:induction false} LogWithTry(bs: seq<Block>, t: Try)
    requires Failing(bs) ==> bs[|bs| - 1].send == t.send
    ensures LogOf(WithTry(bs, t)) == LogOf(bs) + [t]
  {
    if Failing(bs) {
      var n := |bs| - 1;
      var b := Block(t.send, bs[n].tries + 1, t.accepted);
      assert WithTry(bs, t)[..n] == bs[..n];
      assert TriesOf(b) == TriesOf(bs[n]) + [t];
      Associative(LogOf(bs[..n]), TriesOf(bs[n]), [t]);
    } else {
      assert (bs + [Block(t.send, 1, t.accepted)])[..|bs|] == bs;
      assert TriesOf(Block(t.send, 1, t.accepted)) == [t];
    }
  }

  /** A run that goes on goes on with the send that has failed so far. */
  lemma {:induction false} SameSend(bs: seq<Block>, t: Try, plan: seq<Send>, bound: nat)
    requires Running(bs, plan, bound) && Running(WithTry(bs, t), plan, bound)
    ensures Failing(bs) ==> bs[|bs| - 1].send == t.send
  {
  }

  /** A finished run was under way just before, and what a run under way got accepted begins the
      plan. */
  lemma {:induction false} FinishedRuns(bs: seq<Block>, plan: seq<Send>, bound: nat, ok: bool)
    requires Executes(bs, plan, bound, ok)
    ensures Running(bs, plan, bound)
  {
    if bs != [] {
      assert plan[..|plan|] == plan;
    }
  }

  lemma {:induction false} RunningBegins(bs: seq<Block>, plan: seq<Send>, bound: nat)
    requires Running(bs, plan, bound)
    ensures Accepted(LogOf(bs)) <= plan
  {
    if Failing(bs) {
      AcceptedOfRun(bs, plan, bound, false);
    } else {
      AcceptedOfRun(bs, plan[..|bs|], bound, true);
    }
  }

  /** The state of a run before its last try. */
  function WithoutTry(bs: seq<Block>): seq<Block>
    requires bs != [] && bs[|bs| - 1].tries > 0
  {
    var n := |bs| - 1;
    if bs[n].tries == 1 then bs[..n] else bs[..n] + [Block(bs[n].send, bs[n].tries - 1, false)]
  }

  lemma {:induction false} BeforeLastTry(bs: seq<Block>, plan: seq<Send>, bound: nat)
    requires Running(bs, plan, bound) && bs != []
    ensures var b := bs[|bs| - 1];
      b.tries > 0 && Running(WithoutTry(bs), plan, bound) && WithTry(WithoutTry(bs), Try(b.send, b.accepted)) == bs
  {
    var n := |bs| - 1;
    var before := WithoutTry(bs);
    assert plan[..n + 1][..n] == plan[..n];
    if bs[n].tries > 1 {
      assert before[..n] == bs[..n];
    } else if n > 0 {
      ExecutesAt(bs[..n], plan[..n], bound, true, n - 1);
    }
  }

  /** The run may still succeed: its last send has not used up its tries. */
  predicate TriesLeft(bs: seq<Block>, bound: nat) {
    Failing(bs) ==> bs[|bs| - 1].tries < bound
  }

  lemma {:induction false} NextAccepted(bs: seq<Block>, plan: seq<Send>, bound: nat) returns (t: Try)
    requires Running(bs, plan, bound) && TriesLeft(bs, bound) && bound > 0 && !Executes(bs, plan, bound, true)
    ensures Running(WithTry(bs, t), plan, bound) && !Failing(WithTry(bs, t))
    ensures |WithTry(bs, t)| > |bs| - if Failing(bs) then 1 else 0
  {
    var n := if Failing(bs) then |bs| - 1 else |bs|;
    assert plan[..|plan|] == plan;
    t := Try(plan[n], true);
    var after := WithTry(bs, t);
    assert after[..n] == bs[..n] && plan[..n + 1][..n] == plan[..n];
  }

  /** The run ended at a file. */
  predicate FileFailed(bs: seq<Block>) {
    Failing(bs) && bs[|bs| - 1].send.SendFile?
  }

  lemma {:induction false} WholeRun(bs: seq<Block>, plan: seq<Send>, bound: nat)
    requires Executes(bs, plan, bound, true)
    ensures |bs| == |plan| && !FileFailed(bs)
  {
  }

  /** How many targets, from the first on, the accepted sends serve in full. */
  function Served(targets: seq<Target>, p: Parcel, accepted: seq<Send>): (n: nat)
    ensures n <= |targets|
  {
    if targets == [] then 0
    else Served(targets[..|targets| - 1], p, accepted) + if Plan(targets, p) <= accepted then 1 else 0
  }

  lemma {:induction false} PlanGrows(targets: seq<Target>, i: nat, p: Parcel)
    requires i <= |targets|
    ensures Plan(targets[..i], p) <= Plan(targets, p)
  {
    PlanSplit(targets, i, p);
  }

  lemma {:induction false} ServedAll(targets: seq<Target>, p: Parcel, accepted: seq<Send>)
    requires Plan(targets, p) <= accepted
    ensures Served(targets, p, accepted) == |targets|
  {
    if targets != [] {
      var n := |targets| - 1;
      PlanGrows(targets, n, p);
      ServedAll(targets[..n], p, accepted);
    }
  }

  lemma {:induction false} LastNotServed(targets: seq<Target>, p: Parcel, accepted: seq<Send>)
    requires targets != [] && |accepted| < |Plan(targets, p)|
    ensures Served(targets, p, accepted) == Served(targets[..|targets| - 1], p, accepted)
  {
  }

  lemma {:induction false} PlanNotShorter(targets: seq<Target>, i: nat, p: Parcel)
    requires i <= |targets|
    ensures |Plan(targets[..i], p)| <= |Plan(targets, p)|
  {
    PlanGrows(targets, i, p);
  }

  lemma TakeTwice(targets: seq<Target>, n: nat, i: nat)
    requires i < n <= |targets|
    ensures targets[..n][..i] == targets[..i] && targets[..n][..i + 1] == targets[..i + 1]
  {
  }

  lemma {:induction false} ServedNoMore(targets: seq<Target>, i: nat, p: Parcel, accepted: seq<Send>)
    requires i < |targets| && |accepted| < |Plan(targets[..i + 1], p)|
    ensures Served(targets, p, accepted) == Served(targets[..i], p, accepted)
    decreases |targets|
  {
    var n := |targets| - 1;
    PlanNotShorter(targets, i + 1, p);
    LastNotServed(targets, p, accepted);
    if i < n {
      TakeTwice(targets, n, i);
      ServedNoMore(targets[..n], i, p, accepted);
    }
  }

  /** A run that fails within target i has served exactly the targets before it. */
  lemma {:induction false} ServedAt(targets: seq<Target>, i: nat, p: Parcel, bs: seq<Block>, bound: nat)
    requires i < |targets| && Executes(bs, Plan(targets, p), bound, false)
    requires |Plan(targets[..i], p)| < |bs| <= |Plan(targets[..i + 1], p)|
    ensures Served(targets, p, Accepted(LogOf(bs))) == i
  {
    var accepted := Accepted(LogOf(bs));
    AcceptedOfRun(bs, Plan(targets, p), bound, false);
    ServedNoMore(targets, i, p, accepted);
    PlanGrows(targets, i, p);
    ServedAll(targets[..i], p, accepted);
  }

  /** How many files the sender accepted. */
  function FilesIn(bs: seq<Block>): nat {
    if bs == [] then 0
    else
      var last := bs[|bs| - 1];
      FilesIn(bs[..|bs| - 1]) + if last.accepted && last.send.SendFile? then 1 else 0
  }

  lemma {:induction false} FilesInConcat(a: seq<Block>, b: seq<Block>)
    ensures FilesIn(a + b) == FilesIn(a) + FilesIn(b)
  {
    if b == [] {
      assert a + b == a;
    } else {
      FilesInConcat(a, b[..|b| - 1]);
      assert (a + b)[..|a + b| - 1] == a + b[..|b| - 1];
    }
  }

  /** These sends carry the whole mail to the target's chat: first texts that join up to the
      full text, none too long, then all the files in order. */
  ghost predicate CarriesIn(xs: seq<Send>, chunks: seq<string>, target: Target, mail: Mail) {
    && xs == TextSends(target, chunks) + FileSends(target, mail.attachments)
    && Flatten(chunks) == mail.text
    && forall t :: t in chunks ==> |t| <= MAX_TEXT
  }

  ghost predicate Carries(xs: seq<Send>, target: Target, mail: Mail) {
    exists chunks :: CarriesIn(xs, chunks, target, mail)
  }

  lemma TargetPlanCarries(target: Target, mail: Mail)
    ensures Carries(TargetPlan(target, ParcelOf(mail)), target, mail)
  {
    Splitter.SplitConcat(mail.text, MAX_TEXT);
    Splitter.SplitFits(mail.text, MAX_TEXT);
    assert CarriesIn(TargetPlan(target, ParcelOf(mail)), ParcelOf(mail).chunks, target, mail);
  }

  /** Valid text is posted in pieces of at most 4000 bytes, each but the last of more than half of that;
      one of up to 4000 bytes stays whole. */
  lemma TextsAreLarge(mail: Mail)
    requires Utf8.Valid(mail.text)
    ensures var chunks := ParcelOf(mail).chunks;
      && (|mail.text| <= 4000 ==> chunks == [mail.text])
      && (forall i :: 0 <= i < |chunks| ==> |chunks[i]| <= 4000 && (i < |chunks| - 1 ==> |chunks[i]| > 2000))
  {
    Splitter.SplitFits(mail.text, MAX_TEXT);
    Splitter.SplitKeepsCharacters(mail.text, MAX_TEXT);
    var chunks := ParcelOf(mail).chunks;
    forall i | 0 <= i < |chunks|
      ensures |chunks[i]| <= 4000
    {
      assert chunks[i] in chunks;
    }
  }

  /** The sends fall into consecutive parts, one a target, each carrying the whole mail. */
  ghost predicate ReachesAll(xs: seq<Send>, targets: seq<Target>, mail: Mail)
    decreases |targets|, 1
  {
    if targets == [] then xs == []
    else exists k :: SplitsAt(xs, k, targets, mail)
  }

  ghost predicate SplitsAt(xs: seq<Send>, k: nat, targets: seq<Target>, mail: Mail)
    requires targets != []
    decreases |targets|, 0
  {
    && k <= |xs|
    && ReachesAll(xs[..k], targets[..|targets| - 1], mail)
    && Carries(xs[k..], targets[|targets| - 1], mail)
  }

  lemma {:induction false} PlanReachesAll(targets: seq<Target>, mail: Mail)
    ensures ReachesAll(Plan(targets, ParcelOf(mail)), targets, mail)
  {
    if targets != [] {
      var n := |targets| - 1;
      var before, last := Plan(targets[..n], ParcelOf(mail)), TargetPlan(targets[n], ParcelOf(mail));
      PlanReachesAll(targets[..n], mail);
      TargetPlanCarries(targets[n], mail);
      assert (before + last)[..|before|] == before && (before + last)[|before|..] == last;
      assert SplitsAt(before + last, |before|, targets, mail);
    }
  }

  function PlanRest(targets: seq<Target>, i: nat, p: Parcel): seq<Send>
    requires i <= |targets|
    decreases |targets|
  {
    if i == |targets| then []
    else PlanRest(targets[..|targets| - 1], i, p) + TargetPlan(targets[|targets| - 1], p)
  }

  lemma {:induction false} PlanSplit(targets: seq<Target>, i: nat, p: Parcel)
    requires i <= |targets|
    ensures Plan(targets, p) == Plan(targets[..i], p) + PlanRest(targets, i, p)
    decreases |targets|
  {
    if i == |targets| {
      assert targets[..i] == targets;
    } else {
      var n := |targets| - 1;
      PlanSplit(targets[..n], i, p);
      assert targets[..n][..i] == targets[..i];
    }
  }

  /** The run has served target i as well, or has failed within it. */
  ghost predicate ServesNext(bs: seq<Block>, targets: seq<Target>, i: nat, p: Parcel, bound: nat, ok: bool)
    requires i < |targets|
  {
    if ok then Executes(bs, Plan(targets[..i + 1], p), bound, true)
    else Executes(bs, Plan(targets, p), bound, false) && |Plan(targets[..i], p)| < |bs| <= |Plan(targets[..i + 1], p)|
  }

  /** The loop over targets, one target on. */
  lemma {:induction false} NextTarget(targets: seq<Target>, i: nat, p: Parcel, a: seq<Block>, b: seq<Block>, bound: nat, ok: bool)
    returns (bs: seq<Block>)
    requires i < |targets|
    requires Executes(a, Plan(targets[..i], p), bound, true)
    requires Executes(b, TargetPlan(targets[i], p), bound, ok)
    ensures ServesNext(bs, targets, i, p, bound, ok)
    ensures LogOf(bs) == LogOf(a) + LogOf(b) && FilesIn(bs) == FilesIn(a) + FilesIn(b)
    ensures FileFailed(bs) <==> FileFailed(b)
    ensures Failing(bs) ==> Failing(b) && bs[|bs| - 1] == b[|b| - 1]
  {
    bs := a + b;
    WholeRun(a, Plan(targets[..i], p), bound);
    if b == [] {
      assert a + b == a;
    }
    ExecutesThen(a, Plan(targets[..i], p), b, TargetPlan(targets[i], p), bound, ok);
    assert targets[..i + 1][..i] == targets[..i];
    LogConcat(a, b);
    FilesInConcat(a, b);
    if !ok {
      PlanSplit(targets, i + 1, p);
      ExecutesLess(a + b, Plan(targets[..i + 1], p), PlanRest(targets, i + 1, p), bound);
    }
  }

  /** The two loops for one target: the texts went through, then b is what the files did. */
  lemma {:induction false} TextsThenFiles(target: Target, p: Parcel, a: seq<Block>, b: seq<Block>, bound: nat, ok: bool)
    requires Executes(a, TextSends(target, p.chunks), bound, true)
    requires Executes(b, FileSends(target, p.files), bound, ok)
    ensures Executes(a + b, TargetPlan(target, p), bound, ok)
    ensures LogOf(a + b) == LogOf(a) + LogOf(b) && FilesIn(a + b) == FilesIn(a) + FilesIn(b)
    ensures FileFailed(a + b) <==> !ok
    ensures Failing(a + b) ==> Failing(b) && (a + b)[|a + b| - 1] == b[|b| - 1]
  {
    WholeRun(a, TextSends(target, p.chunks), bound);
    if b == [] {
      assert a + b == a;
    }
    ExecutesThen(a, TextSends(target, p.chunks), b, FileSends(target, p.files), bound, ok);
    LogConcat(a, b);
    FilesInConcat(a, b);
  }

  lemma {:induction false} TextsFailed(target: Target, p: Parcel, a: seq<Block>, bound: nat)
    requires Executes(a, TextSends(target, p.chunks), bound, false)
    ensures Executes(a, TargetPlan(target, p), bound, false) && !FileFailed(a)
  {
    ExecutesLess(a, TextSends(target, p.chunks), FileSends(target, p.files), bound);
  }

  // ----- how often a failing send is tried -----

  /** If the run failed, it has tried its last send once and then as often as retries are allowed. */
  ghost predicate TriedOut(bs: seq<Block>, maxSendRetries: int) {
    Failing(bs) ==> bs[|bs| - 1].tries == if maxSendRetries < 0 then 1 else maxSendRetries + 1
  }

  /** The log ends with that many refused tries of one send, no more and no fewer. */
  ghost predicate GaveUpAfter(log: seq<Try>, n: nat) {
    && 0 < n <= |log| && (forall i :: |log| - n <= i < |log| ==> log[i] == Try(log[|log| - 1].send, false))
    && (|log| > n ==> log[|log| - n - 1].accepted)
  }

  lemma {:induction false} LastAccepted(bs: seq<Block>, plan: seq<Send>, bound: nat)
    requires Executes(bs, plan, bound, true) && bs != []
    ensures LogOf(bs) != [] && LogOf(bs)[|LogOf(bs)| - 1].accepted
  {
    var n := |bs| - 1;
    assert LogOf(bs) == LogOf(bs[..n]) + TriesOf(bs[n]) && |TriesOf(bs[n])| > 0;
  }

  lemma {:induction false} TriedOutInLog(bs: seq<Block>, plan: seq<Send>, bound: nat)
    requires Executes(bs, plan, bound, false)
    ensures GaveUpAfter(LogOf(bs), bs[|bs| - 1].tries)
  {
    var n := |bs| - 1;
    assert LogOf(bs) == LogOf(bs[..n]) + TriesOf(bs[n]);
    if n > 0 {
      LastAccepted(bs[..n], plan[..n], bound);
    } else {
      assert LogOf(bs[..0]) == [];
    }
  }

  // ----- texts and files by what was accepted -----

  function FileCount(xs: seq<Send>): nat {
    if xs == [] then 0 else FileCount(xs[..|xs| - 1]) + if xs[|xs| - 1].SendFile? then 1 else 0
  }

  lemma {:induction false} FileCountConcat(a: seq<Send>, b: seq<Send>)
    ensures FileCount(a + b) == FileCount(a) + FileCount(b)
  {
    if b == [] {
      assert a + b == a;
    } else {
      FileCountConcat(a, b[..|b| - 1]);
      assert (a + b)[..|a + b| - 1] == a + b[..|b| - 1];
    }
  }

  /** The files counted are those the sender accepted. */
  lemma {:induction false} FilesAreAccepted(bs: seq<Block>, plan: seq<Send>, bound: nat, ok: bool)
    requires Executes(bs, plan, bound, ok)
    ensures FilesIn(bs) == FileCount(Accepted(LogOf(bs)))
    decreases |bs|
  {
    if bs != [] {
      var n := |bs| - 1;
      var b := bs[n];
      FilesAreAccepted(bs[..n], plan[..n], bound, true);
      AcceptedConcat(LogOf(bs[..n]), TriesOf(b));
      AcceptedOfBlock(b);
      FileCountConcat(Accepted(LogOf(bs[..n])), Accepted(TriesOf(b)));
      assert FileCount([b.send]) == if b.send.SendFile? then 1 else 0 by {
        assert [b.send][..0] == [];
      }
    }
  }

  /** All texts for target i, and everything before them, were accepted. */
  predicate TextsReached(targets: seq<Target>, i: nat, p: Parcel, accepted: seq<Send>)
    requires i < |targets|
  {
    Plan(targets[..i], p) + TextSends(targets[i], p.chunks) <= accepted
  }

  /** How many targets got all their texts. */
  function TextTargets(targets: seq<Target>, n: nat, p: Parcel, accepted: seq<Send>): nat
    requires n <= |targets|
  {
    if n == 0 then 0 else TextTargets(targets, n - 1, p, accepted) + if TextsReached(targets, n - 1, p, accepted) then 1 else 0
  }

  lemma {:induction false} PlanNext(targets: seq<Target>, i: nat, p: Parcel)
    requires i < |targets|
    ensures Plan(targets[..i + 1], p) == Plan(targets[..i], p) + TextSends(targets[i], p.chunks) + FileSends(targets[i], p.files)
  {
    assert targets[..i + 1][..i] == targets[..i];
    Associative(Plan(targets[..i], p), TextSends(targets[i], p.chunks), FileSends(targets[i], p.files));
  }

  lemma {:induction false} ServedBounds(targets: seq<Target>, p: Parcel, accepted: seq<Send>)
    requires accepted <= Plan(targets, p)
    ensures var n := Served(targets, p, accepted);
      && Plan(targets[..n], p) <= accepted
      && (n < |targets| ==> |accepted| < |Plan(targets[..n + 1], p)|)
    decreases |targets|
  {
    if targets != [] {
      if Plan(targets, p) <= accepted {
        ServedAll(targets, p, accepted);
        assert targets[..|targets|] == targets;
      } else {
        ServedInside(targets, p, accepted);
      }
    }
  }

  lemma {:induction false} ServedInside(targets: seq<Target>, p: Parcel, accepted: seq<Send>)
    requires targets != [] && accepted <= Plan(targets, p) && !(Plan(targets, p) <= accepted)
    ensures var n := Served(targets, p, accepted);
      && Plan(targets[..n], p) <= accepted && n < |targets| && |accepted| < |Plan(targets[..n + 1], p)|
    decreases |targets|
  {
    var k := |targets| - 1;
    if |accepted| < |Plan(targets[..k], p)| {
      assert accepted <= Plan(targets[..k], p);
      ServedInside(targets[..k], p, accepted);
      TakeTwice(targets, k, Served(targets[..k], p, accepted));
    } else {
      assert Plan(targets[..k], p) <= accepted;
      ServedAll(targets[..k], p, accepted);
      assert targets[..k + 1] == targets;
    }
  }

  lemma {:induction false} EarlierTexts(targets: seq<Target>, i: nat, n: nat, p: Parcel, accepted: seq<Send>)
    requires i < n <= |targets| && Plan(targets[..n], p) <= accepted
    ensures TextsReached(targets, i, p, accepted)
  {
    PlanGrows(targets[..n], i + 1, p);
    assert targets[..n][..i + 1] == targets[..i + 1];
    PlanNext(targets, i, p);
  }

  lemma {:induction false} LaterTexts(targets: seq<Target>, i: nat, n: nat, p: Parcel, accepted: seq<Send>)
    requires n < i < |targets| && |accepted| < |Plan(targets[..n + 1], p)|
    ensures !TextsReached(targets, i, p, accepted)
  {
    PlanGrows(targets[..i], n + 1, p);
    assert targets[..i][..n + 1] == targets[..n + 1];
  }

  lemma {:induction false} TextsCount(targets: seq<Target>, m: nat, n: nat, p: Parcel, accepted: seq<Send>)
    requires m <= |targets| && n <= |targets| && Plan(targets[..n], p) <= accepted
    requires n < |targets| ==> |accepted| < |Plan(targets[..n + 1], p)|
    ensures TextTargets(targets, m, p, accepted) ==
            if m <= n then m else n + if TextsReached(targets, n, p, accepted) then 1 else 0
    decreases m
  {
    if m > 0 {
      TextsCount(targets, m - 1, n, p, accepted);
      if m - 1 < n {
        EarlierTexts(targets, m - 1, n, p, accepted);
      } else if m - 1 > n {
        LaterTexts(targets, m - 1, n, p, accepted);
      }
    }
  }

  /** A text counts for each target served in full, and for one more exactly if the run failed at a file. */
  lemma {:induction false} TextsAreCounted(targets: seq<Target>, p: Parcel, bs: seq<Block>, bound: nat, ok: bool)
    requires Executes(bs, Plan(targets, p), bound, ok)
    ensures TextTargets(targets, |targets|, p, Accepted(LogOf(bs))) ==
            Served(targets, p, Accepted(LogOf(bs))) + if FileFailed(bs) then 1 else 0
  {
    var accepted := Accepted(LogOf(bs));
    AcceptedOfRun(bs, Plan(targets, p), bound, ok);
    ServedBounds(targets, p, accepted);
    var n := Served(targets, p, accepted);
    TextsCount(targets, |targets|, n, p, accepted);
    if ok {
      ServedAll(targets, p, accepted);
      WholeRun(bs, Plan(targets, p), bound);
    } else {
      assert n < |targets| by {
        assert targets[..|targets|] == targets;
      }
      FailedAtFile(targets, n, p, bs, bound);
    }
  }

  lemma SendAt(before: seq<Send>, texts: seq<Send>, files: seq<Send>, rest: seq<Send>, k: nat)
    requires |before| <= k < |before| + |texts| + |files|
    ensures var plan := before + texts + files + rest;
      && plan[k] == (if k < |before| + |texts| then texts[k - |before|] else files[k - |before| - |texts|])
      && (before + texts <= plan[..k] <==> k >= |before| + |texts|)
  {
    var plan := before + texts + files + rest;
    assert plan[..|before| + |texts|] == before + texts;
    if k >= |before| + |texts| {
      assert plan[..k][..|before| + |texts|] == plan[..|before| + |texts|];
    }
  }

  lemma {:induction false} FailedAtFile(targets: seq<Target>, n: nat, p: Parcel, bs: seq<Block>, bound: nat)
    requires Executes(bs, Plan(targets, p), bound, false) && n < |targets|
    requires var accepted := Accepted(LogOf(bs)); Plan(targets[..n], p) <= accepted && |accepted| < |Plan(targets[..n + 1], p)|
    ensures FileFailed(bs) <==> TextsReached(targets, n, p, Accepted(LogOf(bs)))
  {
    var plan, k := Plan(targets, p), |bs| - 1;
    var before, texts, files := Plan(targets[..n], p), TextSends(targets[n], p.chunks), FileSends(targets[n], p.files);
    AcceptedOfRun(bs, plan, bound, false);
    PlanSplit(targets, n + 1, p);
    PlanNext(targets, n, p);
    SendAt(before, texts, files, PlanRest(targets, n + 1, p), k);
  }
}
