/** The relay service: internal/relay/service.go. Clock, new queue id and the outcome of writing
    the queue file are inputs; what the sender answers is arbitrary. */
module RelayService {
  import opened Support
  import opened Addresses
  import opened Delivery
  import opened DlqItems
  import opened DlqStore
  import opened Metrics
  import AliasStore
  import Splitter
  import Text

  datatype RelayError = BadRecipient(error: AddressError) | BadMessage
                      | SendFailed(message: string) | SendFailedNotQueued(message: string)

  datatype Config = Config(domain: string, maxSendRetries: int, parseMail: seq<byte> -> Option<Mail>)

  /** How often one send is tried at most. */
  function Bound(maxSendRetries: int): nat {
    (if maxSendRetries < 0 then 0 else maxSendRetries) + 1
  }

  /** How often a send that keeps failing is tried when the context lasts for so many waits. */
  function TriesWithin(maxSendRetries: int, patience: nat): (n: nat)
    ensures 1 <= n <= Bound(maxSendRetries)
  {
    if patience + 1 < Bound(maxSendRetries) then patience + 1 else Bound(maxSendRetries)
  }

  predicate IsSendError(r: Result<(), RelayError>) {
    r.Err? && (r.error.SendFailed? || r.error.SendFailedNotQueued?)
  }

  /** What a relay call may answer and log: nothing is sent for a bad address or message;
      otherwise the call runs over the plan, and answers nil exactly when it gets to the end. */
  ghost predicate Performed(cfg: Config, parsed: Result<Parsed, AddressError>, raw: seq<byte>,
                            r: Result<(), RelayError>, bs: seq<Block>) {
    match parsed
    case Err(e) => r == Err(BadRecipient(e)) && bs == []
    case Ok(p) =>
      match cfg.parseMail(raw)
      case None => r == Err(BadMessage) && bs == []
      case Some(mail) =>
        && (r.Ok? || IsSendError(r))
        && Executes(bs, Plan(p.targets, ParcelOf(mail)), Bound(cfg.maxSendRetries), r.Ok?)
  }

  /** A nil answer means that every target the address resolved to accepted the whole mail, in
      order and nothing else; a send failure means a strict prefix of the plan was accepted;
      any other error means nothing was even tried. */
  lemma {:induction false} RelayTrace(cfg: Config, aliases: Aliases, rcpt: string, raw: seq<byte>,
                                      r: Result<(), RelayError>, bs: seq<Block>)
    requires Performed(cfg, ParseAddress(cfg.domain, aliases, rcpt), raw, r, bs)
    ensures r.Ok? ==>
      var p := ParseAddress(cfg.domain, aliases, rcpt);
      var mail := cfg.parseMail(raw);
      p.Ok? && p.value.targets != [] && mail.Some? && ReachesAll(Accepted(LogOf(bs)), p.value.targets, mail.value)
    ensures IsSendError(r) ==>
      var p := ParseAddress(cfg.domain, aliases, rcpt);
      var mail := cfg.parseMail(raw);
      p.Ok? && mail.Some? && Accepted(LogOf(bs)) < Plan(p.value.targets, ParcelOf(mail.value)) && bs != []
    ensures r.Err? && !IsSendError(r) ==> LogOf(bs) == []
  {
    var p := ParseAddress(cfg.domain, aliases, rcpt);
    if p.Ok? && cfg.parseMail(raw).Some? {
      var mail := cfg.parseMail(raw).value;
      AcceptedOfRun(bs, Plan(p.value.targets, ParcelOf(mail)), Bound(cfg.maxSendRetries), r.Ok?);
      PlanReachesAll(p.value.targets, mail);
    }
  }

  /** What a call does to the queue: a failed send outside a replay is queued, and saved if the
      write succeeds; nothing else touches the queue, a replay in particular. */
  ghost predicate QueueAfter(m: Items, disk: Option<seq<Item>>, m': Items, disk': Option<seq<Item>>, r: Result<(), RelayError>,
                             queue: bool, ioOk: bool, rcpt: string, raw: seq<byte>, now: int, newId: string) {
    if queue && IsSendError(r) then
      && (exists out :: Enqueued(m, m', rcpt, raw, Some(r.error.message), now, newId, out))
      && (if ioOk then DecodeFile(disk') == m' else disk' == disk)
    else m' == m && disk' == disk
  }

  /** The events of the targets that got everything, in order. */
  function DoneKeys(rcpt: string, sourceLocal: string, targets: seq<Target>): (keys: seq<Key>)
    ensures |keys| == |targets|
    ensures forall i :: 0 <= i < |keys| ==> keys[i] == DeliveryKey(rcpt, true, targets[i].chatId, sourceLocal)
  {
    seq(|targets|, i requires 0 <= i < |targets| => DeliveryKey(rcpt, true, targets[i].chatId, sourceLocal))
  }

  /** The effect of the loop over targets on the counters. */
  function Progress(c: Counts, keys: seq<Key>, files: nat, textOnly: bool): Counts {
    c.(relayed := c.relayed + |keys|, delivered := c.delivered + |keys|, keys := c.keys + keys,
       textSent := c.textSent + |keys| + Bit(textOnly), filesSent := c.filesSent + files)
  }

  lemma ProgressTwice(c: Counts, keys: seq<Key>, f: nat, keys1: seq<Key>, f1: nat, textOnly: bool)
    ensures Progress(Progress(c, keys, f, false), keys1, f1, textOnly) == Progress(c, keys + keys1, f + f1, textOnly)
  {
    Associative(c.keys, keys, keys1);
  }

  lemma ProgressNext(c: Counts, rcpt: string, sourceLocal: string, targets: seq<Target>, i: nat, ok: bool,
                     f: nat, f1: nat, textOnly: bool)
    requires i < |targets|
    ensures var keys := DoneKeys(rcpt, sourceLocal, targets[..i]);
            var more := if ok then DoneKeys(rcpt, sourceLocal, [targets[i]]) else [];
            Progress(Progress(c, keys, f, false), more, f1, textOnly) ==
            Progress(c, DoneKeys(rcpt, sourceLocal, targets[..if ok then i + 1 else i]), f + f1, textOnly)
  {
    var keys, more := DoneKeys(rcpt, sourceLocal, targets[..i]), if ok then DoneKeys(rcpt, sourceLocal, [targets[i]]) else [];
    ProgressTwice(c, keys, f, more, f1, textOnly);
    assert keys + more == DoneKeys(rcpt, sourceLocal, targets[..if ok then i + 1 else i]);
  }

  /** The effect of a failure at a chat. */
  function AfterFailure(c: Counts, key: Key, queued: bool): Counts {
    Seen(c, key).(failed := c.failed + 1, dlqEnqueued := c.dlqEnqueued + Bit(queued))
  }

  /** How many targets a call served in full, judged by what was accepted. */
  function DoneTargets(cfg: Config, parsed: Result<Parsed, AddressError>, raw: seq<byte>, bs: seq<Block>): (n: nat)
    ensures parsed.Ok? ==> n <= |parsed.value.targets|
  {
    var mail := cfg.parseMail(raw);
    if parsed.Ok? && mail.Some? then Served(parsed.value.targets, ParcelOf(mail.value), Accepted(LogOf(bs))) else 0
  }

  /** All targets after a nil answer; fewer than all after a failed send; else none. */
  lemma DoneTargetsMeans(cfg: Config, parsed: Result<Parsed, AddressError>, raw: seq<byte>,
                         r: Result<(), RelayError>, bs: seq<Block>)
    requires Performed(cfg, parsed, raw, r, bs)
    ensures var done := DoneTargets(cfg, parsed, raw, bs);
            if r.Ok? then parsed.Ok? && done == |parsed.value.targets|
            else if IsSendError(r) then parsed.Ok? && done < |parsed.value.targets|
            else done == 0
    ensures FileFailed(bs) ==> IsSendError(r)
  {
    if parsed.Ok? && cfg.parseMail(raw).Some? {
      var targets, p := parsed.value.targets, ParcelOf(cfg.parseMail(raw).value);
      AcceptedOfRun(bs, Plan(targets, p), Bound(cfg.maxSendRetries), r.Ok?);
      if r.Ok? {
        ServedAll(targets, p, Accepted(LogOf(bs)));
      } else {
        assert targets != [];
        assert targets[..|targets|] == targets;
        ServedNoMore(targets, |targets| - 1, p, Accepted(LogOf(bs)));
      }
    }
  }

  /** The chat a failure is booked on: the target that refused, the first one when the message
      does not parse, none when the address does not. */
  function FailedChat(parsed: Result<Parsed, AddressError>, r: Result<(), RelayError>, done: nat): string {
    if parsed.Err? then ""
    else if IsSendError(r) && done < |parsed.value.targets| then parsed.value.targets[done].chatId
    else if parsed.value.targets != [] then parsed.value.targets[0].chatId
    else ""
  }

  /** The effect of one call on the counters, as it follows from what was accepted. */
  function Observed(c: Counts, cfg: Config, rcpt: string, parsed: Result<Parsed, AddressError>, raw: seq<byte>,
                    r: Result<(), RelayError>, bs: seq<Block>, queued: bool): Counts {
    var done := DoneTargets(cfg, parsed, raw, bs);
    var sourceLocal := if parsed.Ok? then parsed.value.sourceLocal else "";
    var keys := if parsed.Ok? then DoneKeys(rcpt, sourceLocal, parsed.value.targets[..done]) else [];
    var c1 := Progress(c, keys, FilesIn(bs), FileFailed(bs));
    if r.Ok? then c1 else AfterFailure(c1, DeliveryKey(rcpt, false, FailedChat(parsed, r, done), sourceLocal), queued)
  }

  /** The events of a call: one for each target that got everything, in order, and after an error one
      more for the target that refused, for the first one if the message did not parse, and for none if
      the address did not. */
  ghost predicate IsBooked(keys: seq<Key>, before: seq<Key>, cfg: Config, rcpt: string, parsed: Result<Parsed, AddressError>,
                        raw: seq<byte>, r: Result<(), RelayError>, done: nat) {
    var chats := if parsed.Ok? then parsed.value.targets else [];
    var local := if parsed.Ok? then parsed.value.sourceLocal else "";
    && done <= |chats| && |keys| == |before| + done + Bit(r.Err?) && before <= keys
    && (forall i :: 0 <= i < done ==>
          keys[|before| + i] ==
            Key(Text.TrimSpace(Text.Lower(rcpt)), true, Text.TrimSpace(chats[i].chatId), Text.TrimSpace(local)))
    && (r.Err? ==>
          var chat := if parsed.Err? || chats == [] then "" else if cfg.parseMail(raw).None? || done == |chats| then chats[0].chatId
                      else chats[done].chatId;
          keys[|before| + done] == Key(Text.TrimSpace(Text.Lower(rcpt)), false, Text.TrimSpace(chat), Text.TrimSpace(local)))
  }

  lemma EventsAreBooked(c: Counts, cfg: Config, rcpt: string, parsed: Result<Parsed, AddressError>, raw: seq<byte>,
                        r: Result<(), RelayError>, bs: seq<Block>, queued: bool)
    requires Performed(cfg, parsed, raw, r, bs)
    ensures IsBooked(Observed(c, cfg, rcpt, parsed, raw, r, bs, queued).keys, c.keys, cfg, rcpt, parsed, raw, r,
                  DoneTargets(cfg, parsed, raw, bs))
  {
    DoneTargetsMeans(cfg, parsed, raw, r, bs);
  }

  lemma {:induction false} ObservedEarly(c: Counts, cfg: Config, rcpt: string, parsed: Result<Parsed, AddressError>, raw: seq<byte>,
                                         r: Result<(), RelayError>)
    requires r.Err? && !IsSendError(r) && (parsed.Err? || cfg.parseMail(raw).None?)
    ensures Observed(c, cfg, rcpt, parsed, raw, r, [], false) ==
            var sourceLocal := if parsed.Ok? then parsed.value.sourceLocal else "";
            AfterFailure(c, DeliveryKey(rcpt, false, FailedChat(parsed, r, 0), sourceLocal), false)
  {
    assert c.keys + [] == c.keys;
  }

  // ----- books over many calls -----

  function NilAnswers(rs: seq<Result<(), RelayError>>): nat {
    if rs == [] then 0 else NilAnswers(rs[..|rs| - 1]) + Bit(rs[|rs| - 1].Ok?)
  }

  /** One call of a series: what it resolved to, what it sent, and whether its failure was queued. */
  datatype Relayed = Relayed(parsed: Result<Parsed, AddressError>, raw: seq<byte>, r: Result<(), RelayError>, bs: seq<Block>,
                             queued: bool)

  function AnswersOf(calls: seq<Relayed>): (rs: seq<Result<(), RelayError>>)
    ensures |rs| == |calls|
  {
    seq(|calls|, i requires 0 <= i < |calls| => calls[i].r)
  }

  /** The targets that accepted everything, over all calls. */
  function DoneInAll(cfg: Config, calls: seq<Relayed>): nat {
    if calls == [] then 0
    else
      var a := calls[|calls| - 1];
      DoneInAll(cfg, calls[..|calls| - 1]) + DoneTargets(cfg, a.parsed, a.raw, a.bs)
  }

  /** The targets that accepted all texts of a call. */
  function TextsOf(cfg: Config, a: Relayed): nat {
    var mail := cfg.parseMail(a.raw);
    if a.parsed.Ok? && mail.Some? then
      TextTargets(a.parsed.value.targets, |a.parsed.value.targets|, ParcelOf(mail.value), Accepted(LogOf(a.bs)))
    else 0
  }

  /** And over all calls. */
  function TextsInAll(cfg: Config, calls: seq<Relayed>): nat {
    if calls == [] then 0 else TextsInAll(cfg, calls[..|calls| - 1]) + TextsOf(cfg, calls[|calls| - 1])
  }

  /** The files that were accepted, over all calls. */
  function FilesInAll(calls: seq<Relayed>): nat {
    if calls == [] then 0 else FilesInAll(calls[..|calls| - 1]) + FileCount(Accepted(LogOf(calls[|calls| - 1].bs)))
  }

  function QueuedInAll(calls: seq<Relayed>): nat {
    if calls == [] then 0 else QueuedInAll(calls[..|calls| - 1]) + Bit(calls[|calls| - 1].queued)
  }

  /** Received minus failed is the number of nil answers; relayed is the number of targets that
      accepted everything, and texts the number of those that accepted all texts; files are those
      accepted, and queue entries the failures queued; events match relayed targets and failures. */
  ghost predicate BooksBalance(cfg: Config, c: Counts, calls: seq<Relayed>) {
    && c.received == |calls| && c.received - c.failed == NilAnswers(AnswersOf(calls))
    && c.relayed == DoneInAll(cfg, calls)
    && c.delivered == c.relayed && c.undelivered == c.failed
    && c.textSent == TextsInAll(cfg, calls) && c.filesSent == FilesInAll(calls) && c.dlqEnqueued == QueuedInAll(calls)
  }

  /** What the texts and files counted in a call mean. */
  lemma CallSends(cfg: Config, a: Relayed)
    requires Performed(cfg, a.parsed, a.raw, a.r, a.bs)
    ensures TextsOf(cfg, a) == DoneTargets(cfg, a.parsed, a.raw, a.bs) + Bit(FileFailed(a.bs))
    ensures FilesIn(a.bs) == FileCount(Accepted(LogOf(a.bs)))
  {
    if a.parsed.Ok? && cfg.parseMail(a.raw).Some? {
      var targets, p := a.parsed.value.targets, ParcelOf(cfg.parseMail(a.raw).value);
      TextsAreCounted(targets, p, a.bs, Bound(cfg.maxSendRetries), a.r.Ok?);
      FilesAreAccepted(a.bs, Plan(targets, p), Bound(cfg.maxSendRetries), a.r.Ok?);
    }
  }

  /** What one call adds to the counters. */
  lemma CallAdds(cfg: Config, c: Counts, rcpt: string, a: Relayed)
    requires Performed(cfg, a.parsed, a.raw, a.r, a.bs) && (a.queued ==> a.r.Err?)
    ensures var c1, done := Observed(c, cfg, rcpt, a.parsed, a.raw, a.r, a.bs, a.queued), DoneTargets(cfg, a.parsed, a.raw, a.bs);
      && c1.received == c.received && c1.failed == c.failed + Bit(a.r.Err?)
      && c1.relayed == c.relayed + done && c1.delivered == c.delivered + done && c1.undelivered == c.undelivered + Bit(a.r.Err?)
      && c1.textSent == c.textSent + TextsOf(cfg, a) && c1.filesSent == c.filesSent + FileCount(Accepted(LogOf(a.bs)))
      && c1.dlqEnqueued == c.dlqEnqueued + Bit(a.queued)
  {
    DoneTargetsMeans(cfg, a.parsed, a.raw, a.r, a.bs);
    CallSends(cfg, a);
  }

  lemma {:induction false} SeriesGrows(cfg: Config, calls: seq<Relayed>, a: Relayed)
    ensures NilAnswers(AnswersOf(calls + [a])) == NilAnswers(AnswersOf(calls)) + Bit(a.r.Ok?)
    ensures DoneInAll(cfg, calls + [a]) == DoneInAll(cfg, calls) + DoneTargets(cfg, a.parsed, a.raw, a.bs)
    ensures TextsInAll(cfg, calls + [a]) == TextsInAll(cfg, calls) + TextsOf(cfg, a)
    ensures FilesInAll(calls + [a]) == FilesInAll(calls) + FileCount(Accepted(LogOf(a.bs)))
    ensures QueuedInAll(calls + [a]) == QueuedInAll(calls) + Bit(a.queued)
  {
    assert (calls + [a])[..|calls|] == calls;
    assert AnswersOf(calls + [a])[..|calls|] == AnswersOf(calls);
  }

  lemma BooksOneMore(cfg: Config, c: Counts, calls: seq<Relayed>, rcpt: string, a: Relayed)
    requires BooksBalance(cfg, c, calls) && Performed(cfg, a.parsed, a.raw, a.r, a.bs) && (a.queued ==> a.r.Err?)
    ensures var c1 := c.(received := c.received + 1);
            BooksBalance(cfg, Observed(c1, cfg, rcpt, a.parsed, a.raw, a.r, a.bs, a.queued), calls + [a])
  {
    CallAdds(cfg, c.(received := c.received + 1), rcpt, a);
    SeriesGrows(cfg, calls, a);
  }

  datatype Request = Request(rcpt: string, raw: seq<byte>, bypass: bool, lasting: bool, now: int, newId: string, ioOk: bool)

  /** A request and what became of it. */
  ghost predicate Answers(cfg: Config, aliases: Aliases, hasQueue: bool, q: Request, a: Relayed) {
    && (a.queued <==> IsSendError(a.r) && hasQueue && !q.bypass && q.ioOk)
    && a.parsed == ParseAddress(cfg.domain, aliases, q.rcpt) && a.raw == q.raw
    && Performed(cfg, a.parsed, a.raw, a.r, a.bs)
  }

  ghost predicate AllAnswer(cfg: Config, aliases: Aliases, hasQueue: bool, reqs: seq<Request>, calls: seq<Relayed>) {
    |calls| <= |reqs| && forall k :: 0 <= k < |calls| ==> Answers(cfg, aliases, hasQueue, reqs[k], calls[k])
  }

  lemma AnswersOneMore(cfg: Config, aliases: Aliases, hasQueue: bool, reqs: seq<Request>, calls: seq<Relayed>, a: Relayed)
    requires AllAnswer(cfg, aliases, hasQueue, reqs, calls) && |calls| < |reqs|
    requires Answers(cfg, aliases, hasQueue, reqs[|calls|], a)
    ensures AllAnswer(cfg, aliases, hasQueue, reqs, calls + [a])
  {
  }

  /** The ids the clock and the random source would give the requests, none used before. */
  ghost predicate FreshIds(m: Items, reqs: seq<Request>) {
    && (forall i :: 0 <= i < |reqs| ==> reqs[i].newId !in m)
    && (forall i, j :: 0 <= i < j < |reqs| ==> reqs[i].newId != reqs[j].newId)
  }

  lemma IdsStayFresh(m: Items, disk: Option<seq<Item>>, m': Items, disk': Option<seq<Item>>, r: Result<(), RelayError>,
                     reqs: seq<Request>)
    requires reqs != [] && FreshIds(m, reqs)
    requires QueueAfter(m, disk, m', disk', r, !reqs[0].bypass, reqs[0].ioOk, reqs[0].rcpt, reqs[0].raw, reqs[0].now, reqs[0].newId)
    ensures FreshIds(m', reqs[1..])
  {
    assert forall id :: id in m' ==> id in m || id == reqs[0].newId;
    forall i | 0 <= i < |reqs[1..]|
      ensures reqs[1..][i].newId !in m'
    {
      assert reqs[1..][i] == reqs[i + 1];
    }
  }

  function Bit(b: bool): nat {
    if b then 1 else 0
  }

  class Sender {
    ghost var log: seq<Try>

    constructor ()
      ensures log == []
    {
      log := [];
    }

    /** SendText or SendFile of the MAX client, which may answer anything. */
    method Deliver(x: Send) returns (err: Option<string>)
      modifies this
      ensures log == old(log) + [Try(x, err.None?)]
    {
      var failed: bool := *;
      var message: string := *;
      err := if failed then Some(message) else None;
      log := log + [Try(x, !failed)];
    }
  }

  class Service {
    const config: Config
    const recipients: AliasStore.Parser
    const sender: Sender
    const metrics: Collector
    const dlq: FileStore?

    constructor (config: Config, recipients: AliasStore.Parser, sender: Sender, metrics: Collector, dlq: FileStore?)
      ensures this.config == config && this.recipients == recipients && this.sender == sender
      ensures this.metrics == metrics && this.dlq == dlq
    {
      this.config, this.recipients, this.sender := config, recipients, sender;
      this.metrics, this.dlq := metrics, dlq;
    }

    /** The collector is sound and adds up to c. */
    ghost predicate Counting(c: Counts)
      reads this, metrics
    {
      metrics.Valid() && metrics.counts == c
    }

    /** The context is done after that many waits between tries. */
    method SendWithRetry(x: Send, patience: nat) returns (err: Option<string>, ghost b: Block)
      modifies sender
      ensures b.send == x && 1 <= b.tries <= TriesWithin(config.maxSendRetries, patience) && b.accepted == err.None?
      ensures err.Some? ==> b.tries == TriesWithin(config.maxSendRetries, patience)
      ensures config.maxSendRetries < 0 ==> b.tries == 1
      ensures config.maxSendRetries >= 0 ==> b.tries <= config.maxSendRetries + 1
      ensures config.maxSendRetries >= 0 && err.Some? ==>
        b.tries == if patience >= config.maxSendRetries then config.maxSendRetries + 1 else patience + 1
      ensures err.Some? && b.tries < Bound(config.maxSendRetries) ==> err == Some("context canceled")
      ensures sender.log == old(sender.log) + TriesOf(b)
    {
      var maxRetries := config.maxSendRetries;
      if maxRetries < 0 {
        maxRetries := 0;
      }
      var attempt := 0;
      while true
        invariant 0 <= attempt <= maxRetries && attempt <= patience
        invariant sender.log == old(sender.log) + TriesOf(Block(x, attempt, false))
        decreases maxRetries - attempt
      {
        err := sender.Deliver(x);
        b := Block(x, attempt + 1, err.None?);
        assert TriesOf(b) == TriesOf(Block(x, attempt, false)) + [Try(x, err.None?)];
        if err.None? {
          return;
        }
        if attempt == maxRetries {
          return;
        }
        if attempt == patience {
          return Some("context canceled"), b;
        }
        attempt := attempt + 1;
      }
    }

    /** One send of a loop, after the sends that led to the blocks a. A lasting context is done at no
        wait between tries; another one may be done at any. */
    method SendNext(xs: seq<Send>, i: nat, lasting: bool, ghost log: seq<Try>, ghost a: seq<Block>, ghost c: Counts)
      returns (err: Option<string>, ghost bs: seq<Block>)
      requires i == |a| < |xs|
      requires sender.log == log + LogOf(a) && Executes(a, xs[..i], Bound(config.maxSendRetries), true)
      requires Counting(c.(filesSent := c.filesSent + FilesIn(a)))
      modifies sender, metrics
      ensures |bs| == i + 1 && sender.log == log + LogOf(bs)
      ensures err.None? ==> Executes(bs, xs[..i + 1], Bound(config.maxSendRetries), true)
      ensures err.Some? ==> Executes(bs, xs, Bound(config.maxSendRetries), false)
      ensures lasting ==> TriedOut(bs, config.maxSendRetries)
      ensures Counting(c.(filesSent := c.filesSent + FilesIn(bs)))
    {
      ghost var b;
      var patience: nat := *;
      if lasting && 0 <= patience < config.maxSendRetries {
        patience := config.maxSendRetries;
      }
      err, b := SendWithRetry(xs[i], patience);
      bs := a + [b];
      ExecutesOneMore(a, xs, b, Bound(config.maxSendRetries));
      Associative(log, LogOf(a), TriesOf(b));
      if err.None? && xs[i].SendFile? {
        metrics.IncFilesSent();
      }
    }

    /** The loops over the chunks and over the attachments: stop at the first failure. */
    method SendAll(xs: seq<Send>, lasting: bool, ghost c: Counts) returns (err: Option<string>, ghost bs: seq<Block>)
      requires Counting(c)
      modifies sender, metrics
      ensures sender.log == old(sender.log) + LogOf(bs)
      ensures Executes(bs, xs, Bound(config.maxSendRetries), err.None?)
      ensures lasting ==> TriedOut(bs, config.maxSendRetries)
      ensures Counting(c.(filesSent := c.filesSent + FilesIn(bs)))
    {
      bs, err := [], None;
      for i := 0 to |xs|
        invariant err.None? && |bs| == i
        invariant sender.log == old(sender.log) + LogOf(bs)
        invariant Executes(bs, xs[..i], Bound(config.maxSendRetries), true)
        invariant Counting(c.(filesSent := c.filesSent + FilesIn(bs)))
      {
        err, bs := SendNext(xs, i, lasting, old(sender.log), bs, c);
        if err.Some? {
          return;
        }
      }
      assert xs[..|xs|] == xs;
    }

    /** One round of the loop over targets, up to the point where the target has everything. */
    method SendParcel(target: Target, p: Parcel, lasting: bool, ghost c: Counts) returns (err: Option<string>, ghost bs: seq<Block>)
      requires Counting(c)
      modifies sender, metrics
      ensures sender.log == old(sender.log) + LogOf(bs)
      ensures Executes(bs, TargetPlan(target, p), Bound(config.maxSendRetries), err.None?)
      ensures lasting ==> TriedOut(bs, config.maxSendRetries)
      ensures FileFailed(bs) ==> err.Some?
      ensures Counting(Progress(c, [], FilesIn(bs), err.None? || FileFailed(bs)))
    {
      err, bs := SendAll(TextSends(target, p.chunks), lasting, c);
      if err.Some? {
        TextsFailed(target, p, bs, Bound(config.maxSendRetries));
        return;
      }
      metrics.IncTextSent();
      err, bs := SendFiles(target, p, lasting, old(sender.log), bs, c);
    }

    /** The attachments, after the texts have led to the blocks a. */
    method SendFiles(target: Target, p: Parcel, lasting: bool, ghost log: seq<Try>, ghost a: seq<Block>, ghost c: Counts)
      returns (err: Option<string>, ghost bs: seq<Block>)
      requires sender.log == log + LogOf(a)
      requires Executes(a, TextSends(target, p.chunks), Bound(config.maxSendRetries), true)
      requires Counting(Progress(c, [], FilesIn(a), true))
      modifies sender, metrics
      ensures sender.log == log + LogOf(bs)
      ensures Executes(bs, TargetPlan(target, p), Bound(config.maxSendRetries), err.None?)
      ensures lasting ==> TriedOut(bs, config.maxSendRetries)
      ensures FileFailed(bs) <==> err.Some?
      ensures Counting(Progress(c, [], FilesIn(bs), true))
    {
      ghost var b;
      err, b := SendAll(FileSends(target, p.files), lasting, Progress(c, [], FilesIn(a), true));
      Associative(log, LogOf(a), LogOf(b));
      TextsThenFiles(target, p, a, b, Bound(config.maxSendRetries), err.None?);
      bs := a + b;
    }

    method DeliverTarget(target: Target, p: Parcel, rcpt: string, sourceLocal: string, lasting: bool, ghost c: Counts)
      returns (err: Option<string>, ghost bs: seq<Block>)
      requires Counting(c)
      modifies sender, metrics
      ensures sender.log == old(sender.log) + LogOf(bs)
      ensures Executes(bs, TargetPlan(target, p), Bound(config.maxSendRetries), err.None?)
      ensures lasting ==> TriedOut(bs, config.maxSendRetries)
      ensures FileFailed(bs) ==> err.Some?
      ensures Counting(Progress(c, if err.None? then DoneKeys(rcpt, sourceLocal, [target]) else [], FilesIn(bs), FileFailed(bs)))
    {
      err, bs := SendParcel(target, p, lasting, c);
      if err.None? {
        CountDelivery(rcpt, target.chatId, sourceLocal, Progress(c, [], FilesIn(bs), true));
      }
    }

    /** The same on top of what the targets before it led to, the blocks a. */
    method DeliverNext(targets: seq<Target>, i: nat, p: Parcel, rcpt: string, sourceLocal: string, lasting: bool,
                       ghost log: seq<Try>, ghost a: seq<Block>, ghost c: Counts)
      returns (err: Option<string>, ghost bs: seq<Block>)
      requires i < |targets|
      requires sender.log == log + LogOf(a) && Executes(a, Plan(targets[..i], p), Bound(config.maxSendRetries), true)
      requires Counting(Progress(c, DoneKeys(rcpt, sourceLocal, targets[..i]), FilesIn(a), false))
      modifies sender, metrics
      ensures sender.log == log + LogOf(bs)
      ensures ServesNext(bs, targets, i, p, Bound(config.maxSendRetries), err.None?)
      ensures lasting ==> TriedOut(bs, config.maxSendRetries)
      ensures FileFailed(bs) ==> err.Some?
      ensures Counting(Progress(c, DoneKeys(rcpt, sourceLocal, targets[..if err.None? then i + 1 else i]),
                                FilesIn(bs), FileFailed(bs)))
    {
      ghost var b;
      ghost var keys := DoneKeys(rcpt, sourceLocal, targets[..i]);
      err, b := DeliverTarget(targets[i], p, rcpt, sourceLocal, lasting, Progress(c, keys, FilesIn(a), false));
      Associative(log, LogOf(a), LogOf(b));
      bs := NextTarget(targets, i, p, a, b, Bound(config.maxSendRetries), err.None?);
      ProgressNext(c, rcpt, sourceLocal, targets, i, err.None?, FilesIn(a), FilesIn(b), FileFailed(b));
    }

    /** The loop over targets. */
    method DeliverAll(targets: seq<Target>, p: Parcel, rcpt: string, sourceLocal: string, lasting: bool, ghost c: Counts)
      returns (err: Option<string>, chatId: string, ghost bs: seq<Block>)
      requires Counting(c)
      modifies sender, metrics
      ensures sender.log == old(sender.log) + LogOf(bs)
      ensures Executes(bs, Plan(targets, p), Bound(config.maxSendRetries), err.None?)
      ensures lasting ==> TriedOut(bs, config.maxSendRetries)
      ensures FileFailed(bs) ==> err.Some?
      ensures var done := Served(targets, p, Accepted(LogOf(bs)));
        && (err.None? ==> done == |targets|)
        && (err.Some? ==> done < |targets| && chatId == targets[done].chatId)
        && (err.Some? ==> |Plan(targets[..done], p)| < |bs| <= |Plan(targets[..done + 1], p)|)
        && Counting(Progress(c, DoneKeys(rcpt, sourceLocal, targets[..done]), FilesIn(bs), FileFailed(bs)))
    {
      err, chatId, bs := None, "", [];
      for i := 0 to |targets|
        invariant err.None?
        invariant sender.log == old(sender.log) + LogOf(bs)
        invariant Executes(bs, Plan(targets[..i], p), Bound(config.maxSendRetries), true)
        invariant lasting ==> TriedOut(bs, config.maxSendRetries)
        invariant Counting(Progress(c, DoneKeys(rcpt, sourceLocal, targets[..i]), FilesIn(bs), false))
      {
        chatId := targets[i].chatId;
        err, bs := DeliverNext(targets, i, p, rcpt, sourceLocal, lasting, old(sender.log), bs, c);
        if err.Some? {
          ServedAt(targets, i, p, bs, Bound(config.maxSendRetries));
          return;
        }
      }
      assert targets[..|targets|] == targets;
      WholeRun(bs, Plan(targets, p), Bound(config.maxSendRetries));
      AcceptedOfRun(bs, Plan(targets, p), Bound(config.maxSendRetries), true);
      ServedAll(targets, p, Accepted(LogOf(bs)));
    }

    /** What both failing branches do: count the failure and, outside a replay, queue the mail. */
    method FailSend(rcpt: string, raw: seq<byte>, chatId: string, sourceLocal: string, message: string,
                    bypass: bool, now: int, newId: string, ioOk: bool, ghost c: Counts)
      returns (r: Result<(), RelayError>)
      requires Counting(c)
      requires dlq != null ==> dlq.Valid() && newId !in dlq.items
      modifies metrics, dlq
      ensures r == Err(if dlq != null && !bypass && !ioOk then SendFailedNotQueued(message) else SendFailed(message))
      ensures Counting(AfterFailure(c, DeliveryKey(rcpt, false, chatId, sourceLocal), dlq != null && !bypass && ioOk))
      ensures dlq != null ==> dlq.Valid()
      ensures dlq != null ==>
        QueueAfter(old(dlq.items), old(dlq.disk), dlq.items, dlq.disk, r, !bypass, ioOk, rcpt, raw, now, newId)
    {
      CountFailure(rcpt, chatId, sourceLocal, c);
      if dlq != null && !bypass {
        var queued := dlq.Enqueue(rcpt, raw, Some(message), now, newId, ioOk);
        if queued.Err? {
          return Err(SendFailedNotQueued(message));
        }
        metrics.IncDlqEnqueued();
      }
      return Err(SendFailed(message));
    }

    /** A lasting context is not done before the call returns. */
    method Relay(rcpt: string, raw: seq<byte>, bypass: bool, lasting: bool, now: int, newId: string, ioOk: bool, ghost c: Counts)
      returns (r: Result<(), RelayError>, ghost bs: seq<Block>)
      requires recipients.allowedDomain == config.domain
      requires Counting(c)
      requires dlq != null ==> dlq.Valid() && newId !in dlq.items
      modifies sender, metrics, dlq
      ensures sender.log == old(sender.log) + LogOf(bs)
      ensures Performed(config, ParseAddress(config.domain, old(recipients.aliases), rcpt), raw, r, bs)
      ensures lasting && IsSendError(r) ==>
        GaveUpAfter(LogOf(bs), if config.maxSendRetries < 0 then 1 else config.maxSendRetries + 1)
      ensures Counting(Observed(c.(received := c.received + 1), config, rcpt,
                                ParseAddress(config.domain, old(recipients.aliases), rcpt), raw, r, bs,
                                IsSendError(r) && dlq != null && !bypass && ioOk))
      ensures IsSendError(r) ==> (r.error.SendFailedNotQueued? <==> dlq != null && !bypass && !ioOk)
      ensures dlq != null ==> dlq.Valid()
      ensures dlq != null ==>
        QueueAfter(old(dlq.items), old(dlq.disk), dlq.items, dlq.disk, r, !bypass, ioOk, rcpt, raw, now, newId)
    {
      metrics.IncReceived();
      var parsed := recipients.Parse(rcpt);
      r, bs := RelayParsed(parsed, rcpt, raw, bypass, lasting, now, newId, ioOk, c.(received := c.received + 1));
    }

    /** The body of Relay after the address has been parsed. */
    method RelayParsed(parsed: Result<Parsed, AddressError>, rcpt: string, raw: seq<byte>, bypass: bool, lasting: bool,
                       now: int, newId: string, ioOk: bool, ghost c: Counts)
      returns (r: Result<(), RelayError>, ghost bs: seq<Block>)
      requires parsed.Ok? ==> parsed.value.targets != []
      requires Counting(c)
      requires dlq != null ==> dlq.Valid() && newId !in dlq.items
      modifies sender, metrics, dlq
      ensures sender.log == old(sender.log) + LogOf(bs)
      ensures Performed(config, parsed, raw, r, bs)
      ensures lasting && IsSendError(r) ==>
        GaveUpAfter(LogOf(bs), if config.maxSendRetries < 0 then 1 else config.maxSendRetries + 1)
      ensures Counting(Observed(c, config, rcpt, parsed, raw, r, bs, IsSendError(r) && dlq != null && !bypass && ioOk))
      ensures IsSendError(r) ==> (r.error.SendFailedNotQueued? <==> dlq != null && !bypass && !ioOk)
      ensures dlq != null ==> dlq.Valid()
      ensures dlq != null ==>
        QueueAfter(old(dlq.items), old(dlq.disk), dlq.items, dlq.disk, r, !bypass, ioOk, rcpt, raw, now, newId)
    {
      bs := [];
      if parsed.Err? {
        CountFailure(rcpt, "", "", c);
        ObservedEarly(c, config, rcpt, parsed, raw, Err(BadRecipient(parsed.error)));
        return Err(BadRecipient(parsed.error)), bs;
      }
      var pr := parsed.value;
      var parsedMail := config.parseMail(raw);
      if parsedMail.None? {
        CountFailure(rcpt, pr.targets[0].chatId, pr.sourceLocal, c);
        ObservedEarly(c, config, rcpt, parsed, raw, Err(BadMessage));
        return Err(BadMessage), bs;
      }
      r, bs := RelayMail(pr, parsedMail.value, rcpt, raw, bypass, lasting, now, newId, ioOk, c);
      if r.Err? {
        TriedOutInLog(bs, Plan(pr.targets, ParcelOf(parsedMail.value)), Bound(config.maxSendRetries));
      }
    }

    /** The rest of Relay, after the message has been parsed too. */
    method RelayMail(pr: Parsed, mail: Mail, rcpt: string, raw: seq<byte>, bypass: bool, lasting: bool,
                     now: int, newId: string, ioOk: bool, ghost c: Counts)
      returns (r: Result<(), RelayError>, ghost bs: seq<Block>)
      requires Counting(c) && config.parseMail(raw) == Some(mail)
      requires dlq != null ==> dlq.Valid() && newId !in dlq.items
      modifies sender, metrics, dlq
      ensures sender.log == old(sender.log) + LogOf(bs)
      ensures Executes(bs, Plan(pr.targets, ParcelOf(mail)), Bound(config.maxSendRetries), r.Ok?)
      ensures r.Ok? || IsSendError(r)
      ensures lasting ==> TriedOut(bs, config.maxSendRetries)
      ensures Counting(Observed(c, config, rcpt, Ok(pr), raw, r, bs, IsSendError(r) && dlq != null && !bypass && ioOk))
      ensures IsSendError(r) ==> (r.error.SendFailedNotQueued? <==> dlq != null && !bypass && !ioOk)
      ensures dlq != null ==> dlq.Valid()
      ensures dlq != null ==>
        QueueAfter(old(dlq.items), old(dlq.disk), dlq.items, dlq.disk, r, !bypass, ioOk, rcpt, raw, now, newId)
    {
      var p := Cut(mail);
      var err, chatId;
      err, chatId, bs := DeliverAll(pr.targets, p, rcpt, pr.sourceLocal, lasting, c);
      ghost var done := Served(pr.targets, p, Accepted(LogOf(bs)));
      if err.Some? {
        r := FailSend(rcpt, raw, chatId, pr.sourceLocal, err.value, bypass, now, newId, ioOk,
                      Progress(c, DoneKeys(rcpt, pr.sourceLocal, pr.targets[..done]), FilesIn(bs), FileFailed(bs)));
        return;
      }
      r := Ok(());
    }

    method Cut(mail: Mail) returns (p: Parcel)
      ensures p == ParcelOf(mail)
    {
      var chunks := Splitter.SplitTextMessage(mail.text, MAX_TEXT);
      p := Parcel(chunks, mail.attachments);
    }

    method CountDelivery(rcpt: string, chatId: string, sourceLocal: string, ghost c: Counts)
      requires Counting(c)
      modifies metrics
      ensures Counting(Seen(c, DeliveryKey(rcpt, true, chatId, sourceLocal)).(relayed := c.relayed + 1))
    {
      var at: int := *;
      metrics.IncRelayed();
      metrics.ObserveDelivery(at, rcpt, true, chatId, sourceLocal);
    }

    method CountFailure(rcpt: string, chatId: string, sourceLocal: string, ghost c: Counts)
      requires Counting(c)
      modifies metrics
      ensures Counting(AfterFailure(c, DeliveryKey(rcpt, false, chatId, sourceLocal), false))
    {
      var at: int := *;
      metrics.IncFailed();
      metrics.ObserveDelivery(at, rcpt, false, chatId, sourceLocal);
    }

    /** One call of a series: reqs are the requests still to come, calls those made so far. */
    method RelayNext(q: Request, ghost reqs: seq<Request>, ghost c: Counts, ghost log: seq<Try>, ghost calls: seq<Relayed>)
      returns (r: Result<(), RelayError>, ghost c1: Counts, ghost a: Relayed)
      requires recipients.allowedDomain == config.domain && reqs != [] && reqs[0] == q
      requires Counting(c) && BooksBalance(config, c, calls) && sender.log == log + LogsOf(calls)
      requires dlq != null ==> dlq.Valid() && FreshIds(dlq.items, reqs)
      modifies sender, metrics, dlq
      ensures Counting(c1) && BooksBalance(config, c1, calls + [a])
      ensures a.r == r && Answers(config, old(recipients.aliases), dlq != null, q, a)
      ensures recipients.aliases == old(recipients.aliases)
      ensures sender.log == log + LogsOf(calls + [a]) && AnswersOf(calls + [a]) == AnswersOf(calls) + [r]
      ensures dlq != null ==> dlq.Valid() && FreshIds(dlq.items, reqs[1..])
    {
      ghost var parsed := ParseAddress(config.domain, recipients.aliases, q.rcpt);
      ghost var m, disk := if dlq != null then dlq.items else map[], if dlq != null then dlq.disk else None;
      ghost var bs;
      r, bs := Relay(q.rcpt, q.raw, q.bypass, q.lasting, q.now, q.newId, q.ioOk, c);
      ghost var queued := IsSendError(r) && dlq != null && !q.bypass && q.ioOk;
      a := Relayed(parsed, q.raw, r, bs, queued);
      BooksOneMore(config, c, calls, q.rcpt, a);
      c1 := Observed(c.(received := c.received + 1), config, q.rcpt, parsed, q.raw, r, bs, queued);
      if dlq != null {
        IdsStayFresh(m, disk, dlq.items, dlq.disk, r, reqs);
      }
      LogsOneMore(calls, a);
      Associative(log, LogsOf(calls), LogOf(bs));
    }

    /** Any series of relay calls on a fresh collector, whatever they answer: the books balance. */
    method RelaySeries(reqs: seq<Request>) returns (rs: seq<Result<(), RelayError>>, ghost calls: seq<Relayed>)
      requires recipients.allowedDomain == config.domain
      requires Counting(NO_COUNTS)
      requires dlq != null ==> dlq.Valid() && FreshIds(dlq.items, reqs)
      modifies sender, metrics, dlq
      ensures |rs| == |calls| == |reqs| && rs == AnswersOf(calls) && metrics.Valid()
      ensures AllAnswer(config, old(recipients.aliases), dlq != null, reqs, calls)
      ensures sender.log == old(sender.log) + LogsOf(calls)
      ensures metrics.received == |reqs| && metrics.received - metrics.failed == NilAnswers(rs)
      ensures metrics.relayed == DoneInAll(config, calls)
      ensures Total(metrics.deliveryByAddress, true) == metrics.relayed
      ensures Total(metrics.deliveryByAddress, false) == metrics.failed
      ensures metrics.textSent == TextsInAll(config, calls) && metrics.filesSent == FilesInAll(calls)
      ensures metrics.dlqEnqueued == QueuedInAll(calls)
    {
      rs, calls := [], [];
      ghost var c, aliases := NO_COUNTS, recipients.aliases;
      for k := 0 to |reqs|
        invariant |rs| == |calls| == k && rs == AnswersOf(calls)
        invariant recipients.aliases == aliases
        invariant AllAnswer(config, aliases, dlq != null, reqs, calls)
        invariant sender.log == old(sender.log) + LogsOf(calls)
        invariant Counting(c) && BooksBalance(config, c, calls)
        invariant dlq != null ==> dlq.Valid() && FreshIds(dlq.items, reqs[k..])
      {
        var r;
        ghost var a;
        r, c, a := RelayNext(reqs[k], reqs[k..], c, old(sender.log), calls);
        AnswersOneMore(config, aliases, dlq != null, reqs, calls, a);
        rs, calls := rs + [r], calls + [a];
        assert reqs[k..][1..] == reqs[k + 1..];
      }
      CollectorAddsUp(metrics);
    }
  }

  function LogsOf(calls: seq<Relayed>): seq<Try> {
    if calls == [] then [] else LogsOf(calls[..|calls| - 1]) + LogOf(calls[|calls| - 1].bs)
  }

  lemma {:induction false} LogsOneMore(calls: seq<Relayed>, a: Relayed)
    ensures LogsOf(calls + [a]) == LogsOf(calls) + LogOf(a.bs)
    ensures AnswersOf(calls + [a]) == AnswersOf(calls) + [a.r]
  {
    assert (calls + [a])[..|calls|] == calls;
  }
}
