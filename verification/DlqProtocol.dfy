/** The dead-letter queue as a protocol: SMTP relays, the background worker, manual replays by
    administrators, failing writes and crashes, interleaved in any order
    (internal/dlq/store.go, worker.go, admin.go; internal/relay/service.go). */
module DlqProtocol {
  import opened Support
  import opened Addresses
  import opened Delivery
  import opened RelayService
  import opened DlqItems
  import opened Backoff

  datatype Setup = Setup(relay: Config, maxRetries: int, baseDelay: int, maxDelay: int, jitter: int)

  ghost predicate ValidSetup(cfg: Setup) {
    IsInt64(cfg.baseDelay) && IsInt64(cfg.maxDelay) && IsInt64(cfg.jitter)
  }

  datatype Owner = ByMail | ByWorker | ByAdmin(k: nat)

  /** A call of Relay from its beginning on: who waits for it; the table it resolves the address
      with, which bot commands may have edited at any time; how many acknowledgements had been given
      when it began; what it has sent so far; and whether it is still under way. It ends when it
      returns or when the process dies. */
  datatype Flight = Flight(owner: Owner, payload: Payload, aliases: Aliases, since: nat, bs: seq<Block>, open: bool)

  /** One try as the messenger saw it, by the call with that number. */
  datatype Sent = Sent(no: nat, payload: Payload, what: Try)

  /** A call that has returned, and its number. */
  datatype Call = Call(payload: Payload, aliases: Aliases, result: Result<(), RelayError>, bs: seq<Block>, since: nat, no: nat)

  /** What a call about the payload sends if everything is accepted. */
  function PlanFor(cfg: Setup, payload: Payload, aliases: Aliases): seq<Send> {
    var parsed, mail := ParseAddress(cfg.relay.domain, aliases, payload.recipient), cfg.relay.parseMail(payload.raw);
    if parsed.Ok? && mail.Some? then Plan(parsed.value.targets, ParcelOf(mail.value)) else []
  }

  ghost predicate IsRunning(cfg: Setup, f: Flight) {
    Running(f.bs, PlanFor(cfg, f.payload, f.aliases), Bound(cfg.relay.maxSendRetries))
  }

  ghost predicate Honest(cfg: Setup, c: Call) {
    Performed(cfg.relay, ParseAddress(cfg.relay.domain, c.aliases, c.payload.recipient), c.payload.raw, c.result, c.bs)
  }

  /** The worker holds copies of the items of its batch and replays the first of them: it begins
      a relay call, the call returns, and the answer is marked in the store. Meanwhile anything
      else may happen. */
  datatype Worker = Idle | Busy(batch: seq<Item>) | Sending(batch: seq<Item>, no: nat)
                  | Answered(batch: seq<Item>, ok: bool)

  datatype Replay = Fetched(item: Item) | Trying(item: Item, no: nat) | Replied(item: Item, ok: bool)

  datatype Failure = Failure(at: int, attempt: int)

  /** mem is the store's table, disk what its file stands for, and flights all relay calls ever
      begun. The other fields only record the past: what the messenger has seen, the calls that have
      returned, how many failures were queued without error, the payloads of their items, and the
      latest counted failure of each item. */
  datatype State = State(
    mem: Items, disk: Items, worker: Worker, replays: map<nat, Replay>, flights: seq<Flight>,
    sent: seq<Sent>, calls: seq<Call>, acks: nat, acked: map<string, Payload>, failures: map<string, Failure>)

  datatype Event =
    | MailBegin(payload: Payload, aliases: Aliases)
    | SendOnce(no: nat, what: Try)
    | SmtpRelay(call: Call, now: int, newId: string, ioOk: bool, out: Item)
    | Pick(ids: seq<string>, limit: int, now: int, ioOk: bool)
    | WorkerBegin(aliases: Aliases)
    | WorkerRelay(call: Call)
    | WorkerMark(now: int, draw: int, message: string, ioOk: bool)
    | AdminFetch(k: nat, id: string)
    | AdminBegin(k: nat, aliases: Aliases)
    | AdminRelay(k: nat, call: Call)
    | AdminMark(k: nat, now: int, message: string, ioOk: bool)
    | Crash

  ghost predicate Init(s: State) {
    && s.mem == map[] && s.disk == map[] && s.worker == Idle && s.replays == map[] && s.flights == []
    && s.sent == [] && s.calls == [] && s.acks == 0 && s.acked == map[] && s.failures == map[]
  }

  function Begun(s: State, owner: Owner, payload: Payload, aliases: Aliases): seq<Flight> {
    s.flights + [Flight(owner, payload, aliases, s.acks, [], true)]
  }

  /** The call is under way for this owner and returns with what it has sent. */
  predicate Returns(s: State, owner: Owner, call: Call) {
    call.no < |s.flights| && s.flights[call.no] == Flight(owner, call.payload, call.aliases, call.since, call.bs, true)
  }

  function Closed(fs: seq<Flight>, no: nat): seq<Flight>
    requires no < |fs|
  {
    fs[no := fs[no].(open := false)]
  }

  function AllClosed(fs: seq<Flight>): (r: seq<Flight>)
    ensures |r| == |fs| && forall i :: 0 <= i < |r| ==> r[i] == fs[i].(open := false)
  {
    seq(|fs|, i requires 0 <= i < |fs| => fs[i].(open := false))
  }

  ghost predicate MailBeginStep(s: State, payload: Payload, aliases: Aliases, s': State) {
    s' == s.(flights := Begun(s, ByMail, payload, aliases))
  }

  /** A call under way makes one more try. */
  ghost predicate SendStep(cfg: Setup, s: State, no: nat, what: Try, s': State) {
    && no < |s.flights| && s.flights[no].open
    && var f := s.flights[no].(bs := WithTry(s.flights[no].bs, what));
       && IsRunning(cfg, f)
       && s' == s.(flights := s.flights[no := f], sent := s.sent + [Sent(no, f.payload, what)])
  }

  function Saved(ioOk: bool, mem: Items, disk: Items): Items {
    if ioOk then mem else disk
  }

  function Marked(cfg: Setup, m: Items, item: Item, ok: bool, next: int, message: string, now: int): Items {
    if item.id !in m then m
    else if ok then m[item.id := DoneItem(m[item.id], now)]
    else m[item.id := RetryItem(m[item.id], next, Some(message), cfg.maxRetries, now)]
  }

  function WorkerNext(cfg: Setup, item: Item, now: int, draw: int): int
    requires IsInt64(cfg.baseDelay) && IsInt64(cfg.maxDelay)
  {
    now + WorkerDelay(item.attempt + 1, cfg.baseDelay, cfg.maxDelay, draw)
  }

  function AdminNext(cfg: Setup, item: Item, now: int): int
    requires IsInt64(cfg.baseDelay) && IsInt64(cfg.maxDelay)
  {
    now + NextDelay(item.attempt + 1, cfg.baseDelay, cfg.maxDelay)
  }

  function Noted(fs: map<string, Failure>, m: Items, item: Item, ok: bool, now: int): map<string, Failure> {
    if ok || item.id !in m then fs else fs[item.id := Failure(now, m[item.id].attempt + 1)]
  }

  ghost predicate SmtpStep(s: State, call: Call, now: int, newId: string, ioOk: bool, out: Item, s': State) {
    && Returns(s, ByMail, call)
    && if IsSendError(call.result) then
         && newId !in s.mem && (call.result.error.SendFailed? <==> ioOk)
         && Enqueued(s.mem, s'.mem, call.payload.recipient, call.payload.raw, Some(call.result.error.message), now, newId, out)
         && s' == s.(mem := s'.mem, disk := Saved(ioOk, s'.mem, s.disk),
                     flights := Closed(s.flights, call.no), calls := s.calls + [call],
                     acks := if ioOk then s.acks + 1 else s.acks,
                     acked := if ioOk then s.acked[out.id := call.payload] else s.acked)
       else s' == s.(flights := Closed(s.flights, call.no), calls := s.calls + [call])
  }

  ghost predicate PickStep(s: State, ids: seq<string>, limit: int, now: int, ioOk: bool, s': State) {
    && s.worker == Idle && Picks(s.mem, ids, limit, now)
    && if ids == [] then s' == s
       else
         var mem := PickAll(s.mem, ids, now);
         s' == s.(mem := mem, disk := Saved(ioOk, mem, s.disk), worker := if ioOk then Busy(Batch(mem, ids)) else Idle)
  }

  function Batch(m: Items, ids: seq<string>): (batch: seq<Item>)
    requires forall id :: id in ids ==> id in m
    ensures |batch| == |ids| && forall i :: 0 <= i < |ids| ==> batch[i] == m[ids[i]]
  {
    seq(|ids|, i requires 0 <= i < |ids| => m[ids[i]])
  }

  ghost predicate WorkerBeginStep(s: State, aliases: Aliases, s': State) {
    && s.worker.Busy? && s.worker.batch != []
    && s' == s.(worker := Sending(s.worker.batch, |s.flights|),
                flights := Begun(s, ByWorker, PayloadOf(s.worker.batch[0]), aliases))
  }

  ghost predicate WorkerRelayStep(s: State, call: Call, s': State) {
    && s.worker.Sending? && s.worker.batch != []
    && call.payload == PayloadOf(s.worker.batch[0]) && call.no == s.worker.no && Returns(s, ByWorker, call)
    && s' == s.(worker := Answered(s.worker.batch, call.result.Ok?), flights := Closed(s.flights, call.no),
                calls := s.calls + [call])
  }

  ghost predicate WorkerMarkStep(cfg: Setup, s: State, now: int, draw: int, message: string, ioOk: bool, s': State)
    requires ValidSetup(cfg)
  {
    && s.worker.Answered? && s.worker.batch != [] && 0 <= draw < EffectiveJitter(cfg.jitter)
    && var item, rest := s.worker.batch[0], s.worker.batch[1..];
       var mem := Marked(cfg, s.mem, item, s.worker.ok, WorkerNext(cfg, item, now, draw), message, now);
       s' == s.(mem := mem, disk := Saved(ioOk && item.id in s.mem, mem, s.disk),
                worker := if rest == [] then Idle else Busy(rest),
                failures := Noted(s.failures, s.mem, item, s.worker.ok, now))
  }

  ghost predicate AdminFetchStep(s: State, k: nat, id: string, s': State) {
    k !in s.replays && id in s.mem && s' == s.(replays := s.replays[k := Fetched(s.mem[id])])
  }

  ghost predicate AdminBeginStep(s: State, k: nat, aliases: Aliases, s': State) {
    && k in s.replays && s.replays[k].Fetched?
    && s' == s.(replays := s.replays[k := Trying(s.replays[k].item, |s.flights|)],
                flights := Begun(s, ByAdmin(k), PayloadOf(s.replays[k].item), aliases))
  }

  ghost predicate AdminRelayStep(s: State, k: nat, call: Call, s': State) {
    && k in s.replays && s.replays[k].Trying?
    && call.payload == PayloadOf(s.replays[k].item) && call.no == s.replays[k].no && Returns(s, ByAdmin(k), call)
    && s' == s.(replays := s.replays[k := Replied(s.replays[k].item, call.result.Ok?)],
                flights := Closed(s.flights, call.no), calls := s.calls + [call])
  }

  ghost predicate AdminMarkStep(cfg: Setup, s: State, k: nat, now: int, message: string, ioOk: bool, s': State)
    requires ValidSetup(cfg)
  {
    && k in s.replays && s.replays[k].Replied?
    && var item, ok := s.replays[k].item, s.replays[k].ok;
       var mem := Marked(cfg, s.mem, item, ok, AdminNext(cfg, item, now), message, now);
       s' == s.(mem := mem, disk := Saved(ioOk && item.id in s.mem, mem, s.disk), replays := s.replays - {k},
                failures := Noted(s.failures, s.mem, item, ok, now))
  }

  /** The process dies, calls under way are cut off, and it starts again on the file. */
  ghost predicate CrashStep(s: State, s': State) {
    s' == s.(mem := Reloaded(s.disk), worker := Idle, replays := map[], flights := AllClosed(s.flights))
  }

  ghost predicate Step(cfg: Setup, s: State, e: Event, s': State)
    requires ValidSetup(cfg)
  {
    match e
    case MailBegin(payload, aliases) => MailBeginStep(s, payload, aliases, s')
    case SendOnce(no, what) => SendStep(cfg, s, no, what, s')
    case SmtpRelay(call, now, newId, ioOk, out) => SmtpStep(s, call, now, newId, ioOk, out, s')
    case Pick(ids, limit, now, ioOk) => PickStep(s, ids, limit, now, ioOk, s')
    case WorkerBegin(aliases) => WorkerBeginStep(s, aliases, s')
    case WorkerRelay(call) => WorkerRelayStep(s, call, s')
    case WorkerMark(now, draw, message, ioOk) => WorkerMarkStep(cfg, s, now, draw, message, ioOk, s')
    case AdminFetch(k, id) => AdminFetchStep(s, k, id, s')
    case AdminBegin(k, aliases) => AdminBeginStep(s, k, aliases, s')
    case AdminRelay(k, call) => AdminRelayStep(s, k, call, s')
    case AdminMark(k, now, message, ioOk) => AdminMarkStep(cfg, s, k, now, message, ioOk, s')
    case Crash => CrashStep(s, s')
  }

  /** The relay calls in a run behave as the relay service does. */
  ghost predicate HonestEvent(cfg: Setup, e: Event) {
    match e
    case SmtpRelay(call, _, _, _, _) => Honest(cfg, call)
    case WorkerRelay(call) => Honest(cfg, call)
    case AdminRelay(_, call) => Honest(cfg, call)
    case _ => true
  }

  ghost predicate Run(cfg: Setup, ss: seq<State>, es: seq<Event>)
    requires ValidSetup(cfg)
  {
    |ss| == |es| + 1 && Init(ss[0]) && forall i :: 0 <= i < |es| ==> StepAt(cfg, ss, es, i)
  }

  ghost predicate StepAt(cfg: Setup, ss: seq<State>, es: seq<Event>, i: nat)
    requires ValidSetup(cfg) && i < |es| && |ss| == |es| + 1
  {
    Step(cfg, ss[i], es[i], ss[i + 1]) && HonestEvent(cfg, es[i])
  }

  // ----- what a step does to the table -----

  ghost predicate Good(m: Items) {
    forall id :: id in m ==> GoodEntry(id, m[id])
  }

  predicate GoodEntry(id: string, item: Item) {
    item.id == id && item.fingerprint == PayloadFingerprint(item.recipient, item.raw)
  }

  /** Every item of m is still there with its payload. */
  ghost predicate Keeps(m: Items, m': Items) {
    forall id :: id in m ==> id in m' && PayloadOf(m'[id]) == PayloadOf(m[id])
  }

  datatype Change = Same | Add(item: Item) | Touched(id: string, message: string, now: int)
                  | Taken(ids: seq<string>, now: int) | Completed(id: string, now: int)
                  | Retried(id: string, next: int, message: string, now: int)

  ghost predicate Allowed(m: Items, c: Change) {
    match c
    case Same => true
    case Add(it) =>
      && it.id !in m && it.status == Pending && it.attempt == 0
      && it.fingerprint == PayloadFingerprint(it.recipient, it.raw)
      && forall id :: id in m && IsLive(m[id]) ==> PayloadOf(m[id]) != PayloadOf(it)
    case Touched(id, _, _) => id in m && IsLive(m[id])
    case Taken(ids, now) => forall id :: id in ids ==> id in m && IsDue(m[id], now)
    case Completed(id, _) => id in m
    case Retried(id, _, _, _) => id in m
  }

  function After(m: Items, c: Change, max: int): Items
    requires c.Touched? || c.Completed? || c.Retried? ==> c.id in m
  {
    match c
    case Same => m
    case Add(it) => m[it.id := it]
    case Touched(id, message, now) => m[id := Touch(m[id], Some(message), now)]
    case Taken(ids, now) => PickAll(m, ids, now)
    case Completed(id, now) => m[id := DoneItem(m[id], now)]
    case Retried(id, next, message, now) => m[id := RetryItem(m[id], next, Some(message), max, now)]
  }

  function MarkChange(m: Items, item: Item, ok: bool, next: int, message: string, now: int): Change {
    if item.id !in m then Same
    else if ok then Completed(item.id, now)
    else Retried(item.id, next, message, now)
  }

  function ChangeOf(cfg: Setup, s: State, e: Event): Change
    requires IsInt64(cfg.baseDelay) && IsInt64(cfg.maxDelay)
  {
    match e
    case SmtpRelay(call, now, _, _, out) =>
      if !IsSendError(call.result) then Same
      else if out.id in s.mem then Touched(out.id, call.result.error.message, now)
      else Add(out)
    case Pick(ids, _, now, _) => if ids == [] then Same else Taken(ids, now)
    case WorkerMark(now, draw, message, _) =>
      if !s.worker.Answered? || s.worker.batch == [] then Same
      else
        var item := s.worker.batch[0];
        MarkChange(s.mem, item, s.worker.ok, WorkerNext(cfg, item, now, draw), message, now)
    case AdminMark(k, now, message, _) =>
      if k !in s.replays || !s.replays[k].Replied? then Same
      else
        var item := s.replays[k].item;
        MarkChange(s.mem, item, s.replays[k].ok, AdminNext(cfg, item, now), message, now)
    case _ => Same
  }

  /** The events that write the file, as seen from the state before. */
  predicate Persists(s: State, e: Event) {
    match e
    case SmtpRelay(call, _, _, ioOk, _) => ioOk && IsSendError(call.result)
    case Pick(ids, _, _, ioOk) => ioOk && ids != []
    case WorkerMark(_, _, _, ioOk) => ioOk && s.worker.Answered? && s.worker.batch != [] && s.worker.batch[0].id in s.mem
    case AdminMark(k, _, _, ioOk) => ioOk && k in s.replays && s.replays[k].item.id in s.mem
    case _ => false
  }

  lemma EnqueuedShape(m: Items, m': Items, p: Payload, msg: Option<string>, now: int, newId: string, out: Item)
    requires Good(m) && newId !in m
    requires Enqueued(m, m', p.recipient, p.raw, msg, now, newId, out)
    ensures PayloadOf(out) == p && m' == m[out.id := out]
    ensures out.id in m ==> out == Touch(m[out.id], msg, now) && IsLive(m[out.id])
    ensures out.id !in m ==> out == NewItem(newId, p.recipient, p.raw, msg, now)
    ensures out.id !in m ==> forall id :: id in m && IsLive(m[id]) ==> PayloadOf(m[id]) != p
  {
    var fp := PayloadFingerprint(p.recipient, p.raw);
    forall id | id in m
      ensures Matches(m[id], fp) <==> IsLive(m[id]) && PayloadOf(m[id]) == p
    {
      FingerprintIdentifies(PayloadOf(m[id]), p);
    }
  }

  ghost predicate Unique(m: Items) {
    forall a, b :: a in m && b in m && IsLive(m[a]) && IsLive(m[b]) && PayloadOf(m[a]) == PayloadOf(m[b]) ==> a == b
  }

  /** So a failed send that gets queued leaves a live item with exactly its recipient and
      message, and every earlier item but that one as it was. */
  lemma FailedSendIsQueued(m: Items, m': Items, p: Payload, msg: string, now: int, newId: string, out: Item)
    requires Good(m) && newId !in m
    requires Enqueued(m, m', p.recipient, p.raw, Some(msg), now, newId, out)
    ensures out.id in m' && m'[out.id] == out && IsLive(out) && PayloadOf(out) == p && out.lastError == msg
    ensures forall id :: id in m && id != out.id ==> id in m' && m'[id] == m[id]
    ensures Unique(m) ==> Unique(m')
  {
    EnqueuedShape(m, m', p, Some(msg), now, newId, out);
  }

  ghost predicate Changes(cfg: Setup, s: State, e: Event, s': State)
    requires ValidSetup(cfg)
  {
    && Allowed(s.mem, ChangeOf(cfg, s, e)) && s'.mem == After(s.mem, ChangeOf(cfg, s, e), cfg.maxRetries)
    && s'.disk == if Persists(s, e) then s'.mem else s.disk
  }

  lemma SmtpChanges(cfg: Setup, s: State, e: Event, s': State)
    requires ValidSetup(cfg) && Good(s.mem) && e.SmtpRelay?
    requires SmtpStep(s, e.call, e.now, e.newId, e.ioOk, e.out, s')
    ensures Changes(cfg, s, e, s')
  {
    if IsSendError(e.call.result) {
      EnqueuedShape(s.mem, s'.mem, e.call.payload, Some(e.call.result.error.message), e.now, e.newId, e.out);
    }
  }

  lemma WorkerMarkChanges(cfg: Setup, s: State, e: Event, s': State)
    requires ValidSetup(cfg) && e.WorkerMark? && WorkerMarkStep(cfg, s, e.now, e.draw, e.message, e.ioOk, s')
    ensures Changes(cfg, s, e, s')
  {
  }

  lemma AdminMarkChanges(cfg: Setup, s: State, e: Event, s': State)
    requires ValidSetup(cfg) && e.AdminMark? && AdminMarkStep(cfg, s, e.k, e.now, e.message, e.ioOk, s')
    ensures Changes(cfg, s, e, s')
  {
  }

  lemma PickChanges(cfg: Setup, s: State, e: Event, s': State)
    requires ValidSetup(cfg) && e.Pick? && PickStep(s, e.ids, e.limit, e.now, e.ioOk, s')
    ensures Changes(cfg, s, e, s')
  {
  }

  /** The events that leave the store alone. */
  predicate IsQuiet(e: Event) {
    !e.SmtpRelay? && !e.Pick? && !e.WorkerMark? && !e.AdminMark? && !e.Crash?
  }

  lemma QuietStep(cfg: Setup, s: State, e: Event, s': State)
    requires ValidSetup(cfg) && Step(cfg, s, e, s') && IsQuiet(e)
    ensures s'.mem == s.mem && s'.disk == s.disk && WorkerItems(s'.worker) == WorkerItems(s.worker)
    ensures s'.acks == s.acks && s'.acked == s.acked && s'.failures == s.failures
  {
  }

  /** Every step but a crash makes an allowed change to the table, and leaves the file as it was
      or equal to the new table. */
  lemma StepChanges(cfg: Setup, s: State, e: Event, s': State)
    requires ValidSetup(cfg) && Good(s.mem) && Step(cfg, s, e, s') && !e.Crash?
    ensures Changes(cfg, s, e, s')
  {
    match e
    case SmtpRelay(_, _, _, _, _) => SmtpChanges(cfg, s, e, s');
    case Pick(_, _, _, _) => PickChanges(cfg, s, e, s');
    case WorkerMark(_, _, _, _) => WorkerMarkChanges(cfg, s, e, s');
    case AdminMark(_, _, _, _) => AdminMarkChanges(cfg, s, e, s');
    case _ => QuietStep(cfg, s, e, s');
  }

  predicate SameIdentity(a: Item, b: Item) {
    a.id == b.id && a.fingerprint == b.fingerprint && a.recipient == b.recipient && a.raw == b.raw
  }

  lemma ChangeKeepsIdentity(m: Items, c: Change, max: int)
    requires Allowed(m, c)
    ensures forall id :: id in m ==> id in After(m, c, max) && SameIdentity(After(m, c, max)[id], m[id])
    ensures forall id :: id in After(m, c, max) && id !in m ==> c.Add? && id == c.item.id && After(m, c, max)[id] == c.item
  {
  }

  lemma ChangeKeepsGood(m: Items, c: Change, max: int)
    requires Good(m) && Allowed(m, c)
    ensures Good(After(m, c, max)) && Keeps(m, After(m, c, max))
  {
    ChangeKeepsIdentity(m, c, max);
    forall id | id in After(m, c, max)
      ensures GoodEntry(id, After(m, c, max)[id])
    {
      if id in m {
        assert GoodEntry(id, m[id]);
      }
    }
  }

  lemma ReloadedShape(m: Items)
    requires Good(m)
    ensures Good(Reloaded(m)) && Keeps(m, Reloaded(m)) && Reloaded(m).Keys == m.Keys
    ensures forall id :: id in m ==>
      Reloaded(m)[id] == if m[id].status == Processing then m[id].(status := Pending) else m[id]
  {
  }

  // ----- payloads survive -----

  ghost predicate Consistent(m: Items, d: Items, acked: map<string, Payload>) {
    && Good(m) && Good(d) && Keeps(d, m)
    && forall id :: id in acked ==> id in d && PayloadOf(d[id]) == acked[id]
  }

  ghost predicate Held(m: Items, item: Item) {
    item.id in m && PayloadOf(m[item.id]) == PayloadOf(item)
  }

  function WorkerItems(w: Worker): seq<Item> {
    if w.Idle? then [] else w.batch
  }

  ghost predicate WorkerHolds(m: Items, w: Worker) {
    forall item :: item in WorkerItems(w) ==> Held(m, item)
  }

  ghost predicate AdminsHold(m: Items, replays: map<nat, Replay>) {
    forall k :: k in replays ==> Held(m, replays[k].item)
  }

  ghost predicate Holding(m: Items, w: Worker, replays: map<nat, Replay>) {
    WorkerHolds(m, w) && AdminsHold(m, replays)
  }

  ghost predicate Safe(s: State) {
    Consistent(s.mem, s.disk, s.acked) && Holding(s.mem, s.worker, s.replays)
  }

  lemma WriteKeepsConsistent(m: Items, d: Items, acked: map<string, Payload>, m': Items, saved: bool)
    requires Consistent(m, d, acked) && Good(m') && Keeps(m, m')
    ensures Consistent(m', if saved then m' else d, acked)
  {
  }

  lemma KeepsHolding(m: Items, m': Items, w: Worker, replays: map<nat, Replay>)
    requires Keeps(m, m') && Holding(m, w, replays)
    ensures Holding(m', w, replays)
  {
  }

  lemma AckKeepsConsistent(m: Items, acked: map<string, Payload>, out: Item)
    requires Consistent(m, m, acked) && out.id in m && m[out.id] == out
    ensures Consistent(m, m, acked[out.id := PayloadOf(out)])
    ensures out.id in acked ==> acked[out.id] == PayloadOf(out)
  {
  }

  /** A queued failure whose Enqueue returned without error. */
  predicate Acks(e: Event) {
    e.SmtpRelay? && IsSendError(e.call.result) && e.ioOk
  }

  /** An acknowledgement notes the payload of its item; nothing else touches the notes. */
  ghost predicate Notes(s: State, e: Event, s': State) {
    if Acks(e) then
      && s'.acked == s.acked[e.out.id := PayloadOf(e.out)]
      && e.out.id in s'.mem && s'.mem[e.out.id] == e.out && s'.disk == s'.mem
    else s'.acked == s.acked
  }

  lemma ChangesKeepConsistent(cfg: Setup, s: State, e: Event, s': State)
    requires ValidSetup(cfg) && Consistent(s.mem, s.disk, s.acked) && Changes(cfg, s, e, s') && Notes(s, e, s')
    ensures Consistent(s'.mem, s'.disk, s'.acked) && Keeps(s.mem, s'.mem)
    ensures forall id :: id in s.acked ==> id in s'.acked && s'.acked[id] == s.acked[id]
  {
    ChangeKeepsGood(s.mem, ChangeOf(cfg, s, e), cfg.maxRetries);
    WriteKeepsConsistent(s.mem, s.disk, s.acked, s'.mem, Persists(s, e));
    if Acks(e) {
      AckKeepsConsistent(s'.mem, s.acked, e.out);
    }
  }

  lemma StepAcks(cfg: Setup, s: State, e: Event, s': State)
    requires ValidSetup(cfg) && Good(s.mem) && Step(cfg, s, e, s')
    ensures Notes(s, e, s') && (Acks(e) ==> PayloadOf(e.out) == e.call.payload)
  {
    if Acks(e) {
      EnqueuedShape(s.mem, s'.mem, e.call.payload, Some(e.call.result.error.message), e.now, e.newId, e.out);
    }
  }

  lemma StepKeepsConsistent(cfg: Setup, s: State, e: Event, s': State)
    requires ValidSetup(cfg) && Consistent(s.mem, s.disk, s.acked) && Step(cfg, s, e, s')
    ensures Consistent(s'.mem, s'.disk, s'.acked)
    ensures forall id :: id in s.acked ==> id in s'.acked && s'.acked[id] == s.acked[id]
    ensures !e.Crash? ==> Keeps(s.mem, s'.mem)
  {
    if e.Crash? {
      ReloadedShape(s.disk);
    } else {
      StepChanges(cfg, s, e, s');
      StepAcks(cfg, s, e, s');
      ChangesKeepConsistent(cfg, s, e, s');
    }
  }

  lemma StepKeepsWorkerHolding(cfg: Setup, s: State, e: Event, s': State)
    requires ValidSetup(cfg) && Step(cfg, s, e, s') && Good(s'.mem) && WorkerHolds(s'.mem, s.worker)
    ensures WorkerHolds(s'.mem, s'.worker)
  {
    if IsQuiet(e) {
      QuietStep(cfg, s, e, s');
    }
  }

  lemma StepKeepsAdminHolding(cfg: Setup, s: State, e: Event, s': State)
    requires ValidSetup(cfg) && Step(cfg, s, e, s') && Good(s'.mem) && AdminsHold(s'.mem, s.replays)
    ensures AdminsHold(s'.mem, s'.replays)
  {
    forall k | k in s'.replays
      ensures Held(s'.mem, s'.replays[k].item)
    {
      SlotAfter(cfg, s, e, s', k);
    }
  }

  lemma SlotAfter(cfg: Setup, s: State, e: Event, s': State, k: nat)
    requires ValidSetup(cfg) && Step(cfg, s, e, s') && k in s'.replays
    ensures || (k in s.replays && s'.replays[k].item == s.replays[k].item)
            || (e.AdminFetch? && e.id in s'.mem && s'.replays[k].item == s'.mem[e.id])
  {
  }

  lemma StepKeepsHolding(cfg: Setup, s: State, e: Event, s': State)
    requires ValidSetup(cfg) && Safe(s) && Step(cfg, s, e, s')
    requires Good(s'.mem) && (!e.Crash? ==> Keeps(s.mem, s'.mem))
    ensures Holding(s'.mem, s'.worker, s'.replays)
  {
    if !e.Crash? {
      KeepsHolding(s.mem, s'.mem, s.worker, s.replays);
      StepKeepsWorkerHolding(cfg, s, e, s');
      StepKeepsAdminHolding(cfg, s, e, s');
    }
  }

  lemma StepKeepsSafe(cfg: Setup, s: State, e: Event, s': State)
    requires ValidSetup(cfg) && Safe(s) && Step(cfg, s, e, s')
    ensures Safe(s')
  {
    StepKeepsConsistent(cfg, s, e, s');
    StepKeepsHolding(cfg, s, e, s');
  }

  lemma {:induction false} RunIsSafe(cfg: Setup, ss: seq<State>, es: seq<Event>, n: nat)
    requires ValidSetup(cfg) && Run(cfg, ss, es) && n <= |es|
    ensures Safe(ss[n])
  {
    if n > 0 {
      RunIsSafe(cfg, ss, es, n - 1);
      assert StepAt(cfg, ss, es, n - 1);
      StepKeepsSafe(cfg, ss[n - 1], es[n - 1], ss[n]);
    }
  }

  // ----- done items are justified -----

  ghost predicate Succeeded(calls: seq<Call>, p: Payload) {
    exists c :: c in calls && c.payload == p && c.result.Ok?
  }

  ghost predicate DoneJustified(m: Items, calls: seq<Call>) {
    forall id :: id in m && m[id].status == Done ==> Succeeded(calls, PayloadOf(m[id]))
  }

  ghost predicate AnswersJustified(w: Worker, replays: map<nat, Replay>, calls: seq<Call>) {
    && (w.Answered? && w.batch != [] && w.ok ==> Succeeded(calls, PayloadOf(w.batch[0])))
    && (forall k :: k in replays && replays[k].Replied? && replays[k].ok ==> Succeeded(calls, PayloadOf(replays[k].item)))
  }

  ghost predicate Justified(s: State) {
    && DoneJustified(s.mem, s.calls) && DoneJustified(s.disk, s.calls)
    && AnswersJustified(s.worker, s.replays, s.calls)
  }

  lemma CallsGrow(s: State, c: Call)
    requires Justified(s)
    ensures DoneJustified(s.mem, s.calls + [c]) && DoneJustified(s.disk, s.calls + [c])
    ensures AnswersJustified(s.worker, s.replays, s.calls + [c])
    ensures c.result.Ok? ==> Succeeded(s.calls + [c], c.payload)
  {
  }

  lemma ChangeKeepsJustified(m: Items, c: Change, max: int, calls: seq<Call>)
    requires Allowed(m, c) && DoneJustified(m, calls)
    requires c.Completed? ==> Succeeded(calls, PayloadOf(m[c.id]))
    ensures DoneJustified(After(m, c, max), calls)
  {
  }

  /** What is marked done was answered nil for the very payload of the item. */
  lemma CompletedJustified(cfg: Setup, s: State, e: Event, s': State)
    requires ValidSetup(cfg) && Safe(s) && Justified(s) && Step(cfg, s, e, s')
    ensures var c := ChangeOf(cfg, s, e); c.Completed? ==> c.id in s.mem && Succeeded(s.calls, PayloadOf(s.mem[c.id]))
  {
    if e.WorkerMark? {
      assert Held(s.mem, s.worker.batch[0]);
    }
  }

  /** A recorded nil answer is one a relay call gave for the payload of that item. */
  lemma StepKeepsAnswers(cfg: Setup, s: State, e: Event, s': State)
    requires ValidSetup(cfg) && Step(cfg, s, e, s') && AnswersJustified(s.worker, s.replays, s'.calls)
    requires e.WorkerRelay? || e.AdminRelay? ==> (e.call.result.Ok? ==> Succeeded(s'.calls, e.call.payload))
    ensures AnswersJustified(s'.worker, s'.replays, s'.calls)
  {
  }

  lemma StepKeepsDoneJustified(cfg: Setup, s: State, e: Event, s': State)
    requires ValidSetup(cfg) && Safe(s) && Justified(s) && Step(cfg, s, e, s')
    ensures DoneJustified(s'.mem, s.calls) && DoneJustified(s'.disk, s.calls)
  {
    if e.Crash? {
      ReloadedShape(s.disk);
      assert forall id :: id in s'.mem ==> PayloadOf(s'.mem[id]) == PayloadOf(s.disk[id]);
    } else {
      StepChanges(cfg, s, e, s');
      CompletedJustified(cfg, s, e, s');
      ChangeKeepsJustified(s.mem, ChangeOf(cfg, s, e), cfg.maxRetries, s.calls);
    }
  }

  lemma StepKeepsJustified(cfg: Setup, s: State, e: Event, s': State)
    requires ValidSetup(cfg) && Safe(s) && Justified(s) && Step(cfg, s, e, s')
    ensures Justified(s')
  {
    StepKeepsDoneJustified(cfg, s, e, s');
    if e.SmtpRelay? || e.WorkerRelay? || e.AdminRelay? {
      CallsGrow(s.(mem := s'.mem, disk := s'.disk), e.call);
    }
    StepKeepsAnswers(cfg, s, e, s');
  }

  ghost predicate AllHonest(cfg: Setup, calls: seq<Call>) {
    forall c :: c in calls ==> Honest(cfg, c)
  }

  lemma {:induction false} RunIsJustified(cfg: Setup, ss: seq<State>, es: seq<Event>, n: nat)
    requires ValidSetup(cfg) && Run(cfg, ss, es) && n <= |es|
    ensures Justified(ss[n])
  {
    if n > 0 {
      RunIsJustified(cfg, ss, es, n - 1);
      RunIsSafe(cfg, ss, es, n - 1);
      assert StepAt(cfg, ss, es, n - 1);
      StepKeepsJustified(cfg, ss[n - 1], es[n - 1], ss[n]);
    }
  }

  lemma StepKeepsHonest(cfg: Setup, s: State, e: Event, s': State)
    requires ValidSetup(cfg) && Step(cfg, s, e, s') && HonestEvent(cfg, e) && AllHonest(cfg, s.calls)
    ensures AllHonest(cfg, s'.calls)
  {
  }

  lemma {:induction false} RunIsHonest(cfg: Setup, ss: seq<State>, es: seq<Event>, n: nat)
    requires ValidSetup(cfg) && Run(cfg, ss, es) && n <= |es|
    ensures AllHonest(cfg, ss[n].calls)
  {
    if n > 0 {
      RunIsHonest(cfg, ss, es, n - 1);
      assert StepAt(cfg, ss, es, n - 1);
      StepKeepsHonest(cfg, ss[n - 1], es[n - 1], ss[n]);
    }
  }

  // ----- end to end -----

  /** The call delivered its mail: the address resolved to some targets and every one of them
      accepted the full text in chunks followed by every attachment. */
  ghost predicate DeliveredEverything(cfg: Setup, c: Call) {
    var p := ParseAddress(cfg.relay.domain, c.aliases, c.payload.recipient);
    var mail := cfg.relay.parseMail(c.payload.raw);
    p.Ok? && p.value.targets != [] && mail.Some? && ReachesAll(Accepted(LogOf(c.bs)), p.value.targets, mail.value)
  }

  /** In every run, whatever is marked done, in memory or in the file, was delivered in full by
      some relay call on exactly that recipient and message. */
  lemma DoneMeansDelivered(cfg: Setup, ss: seq<State>, es: seq<Event>, n: nat, item: Item)
    requires ValidSetup(cfg) && Run(cfg, ss, es) && n <= |es|
    requires item.status == Done
    requires (item.id in ss[n].mem && ss[n].mem[item.id] == item) || (item.id in ss[n].disk && ss[n].disk[item.id] == item)
    ensures exists c :: c in ss[n].calls && c.payload == PayloadOf(item) && c.result.Ok? && DeliveredEverything(cfg, c)
  {
    RunIsJustified(cfg, ss, es, n);
    RunIsHonest(cfg, ss, es, n);
    assert Succeeded(ss[n].calls, PayloadOf(item));
    var c :| c in ss[n].calls && c.payload == PayloadOf(item) && c.result.Ok?;
    RelayTrace(cfg.relay, c.aliases, c.payload.recipient, c.payload.raw, c.result, c.bs);
    assert DeliveredEverything(cfg, c);
  }

  // ----- crash safety -----

  lemma {:induction false} AckedGrows(cfg: Setup, ss: seq<State>, es: seq<Event>, i: nat, j: nat, id: string)
    requires ValidSetup(cfg) && Run(cfg, ss, es) && i <= j <= |es| && id in ss[i].acked
    ensures id in ss[j].acked && ss[j].acked[id] == ss[i].acked[id]
    decreases j
  {
    if i < j {
      AckedGrows(cfg, ss, es, i, j - 1, id);
      AckedStays(cfg, ss, es, j - 1, id);
    }
  }

  lemma AckedStays(cfg: Setup, ss: seq<State>, es: seq<Event>, n: nat, id: string)
    requires ValidSetup(cfg) && Run(cfg, ss, es) && n < |es| && id in ss[n].acked
    ensures id in ss[n + 1].acked && ss[n + 1].acked[id] == ss[n].acked[id]
  {
    RunIsSafe(cfg, ss, es, n);
    assert StepAt(cfg, ss, es, n);
    StepKeepsConsistent(cfg, ss[n], es[n], ss[n + 1]);
  }

  /** An item whose Enqueue returned without error is never lost: in every later state, whatever
      failed or crashed in between, it is in memory and in the file with the same recipient and
      the same bytes. */
  lemma AckedNeverLost(cfg: Setup, ss: seq<State>, es: seq<Event>, i: nat, j: nat)
    requires ValidSetup(cfg) && Run(cfg, ss, es) && i < j <= |es|
    requires Acks(es[i])
    ensures var id := es[i].out.id;
      && id in ss[j].mem && PayloadOf(ss[j].mem[id]) == es[i].call.payload
      && id in ss[j].disk && PayloadOf(ss[j].disk[id]) == es[i].call.payload
  {
    AckedAt(cfg, ss, es, i);
    AckedGrows(cfg, ss, es, i + 1, j, es[i].out.id);
    RunIsSafe(cfg, ss, es, j);
    AckedIsThere(ss[j], es[i].out.id);
  }

  lemma AckedAt(cfg: Setup, ss: seq<State>, es: seq<Event>, i: nat)
    requires ValidSetup(cfg) && Run(cfg, ss, es) && i < |es| && Acks(es[i])
    ensures es[i].out.id in ss[i + 1].acked && ss[i + 1].acked[es[i].out.id] == es[i].call.payload
  {
    RunIsSafe(cfg, ss, es, i);
    assert StepAt(cfg, ss, es, i);
    StepAcks(cfg, ss[i], es[i], ss[i + 1]);
  }

  lemma AckedIsThere(s: State, id: string)
    requires Safe(s) && id in s.acked
    ensures id in s.mem && PayloadOf(s.mem[id]) == s.acked[id]
    ensures id in s.disk && PayloadOf(s.disk[id]) == s.acked[id]
  {
  }

  /** The file is always the table as the last successful write left it. */
  lemma {:induction false} FileIsLastSave(cfg: Setup, ss: seq<State>, es: seq<Event>, i: nat, j: nat)
    requires ValidSetup(cfg) && Run(cfg, ss, es) && i < j <= |es|
    requires Persists(ss[i], es[i]) && forall k :: i < k < j ==> !Persists(ss[k], es[k])
    ensures ss[j].disk == ss[i + 1].mem
    decreases j
  {
    DiskAt(cfg, ss, es, j - 1);
    if i + 1 < j {
      FileIsLastSave(cfg, ss, es, i, j - 1);
    }
  }

  lemma DiskAt(cfg: Setup, ss: seq<State>, es: seq<Event>, n: nat)
    requires ValidSetup(cfg) && Run(cfg, ss, es) && n < |es|
    ensures ss[n + 1].disk == if Persists(ss[n], es[n]) then ss[n + 1].mem else ss[n].disk
  {
    RunIsSafe(cfg, ss, es, n);
    assert StepAt(cfg, ss, es, n);
    if !es[n].Crash? {
      StepChanges(cfg, ss[n], es[n], ss[n + 1]);
    }
  }

  // ----- retry budget -----

  predicate InBudget(item: Item, max: int) {
    (IsLive(item) ==> item.attempt < max) && (item.status == Failed ==> item.attempt >= max)
  }

  ghost predicate WithinBudget(m: Items, max: int) {
    forall id :: id in m ==> InBudget(m[id], max)
  }

  lemma ChangeKeepsBudget(m: Items, c: Change, max: int)
    requires max > 0 && Allowed(m, c) && WithinBudget(m, max)
    ensures WithinBudget(After(m, c, max), max)
  {
  }

  /** With a positive retry limit, in every reachable state an item that still waits has tries
      left and a failed one has none, manual replays and restarts included. */
  lemma {:induction false} BudgetHolds(cfg: Setup, ss: seq<State>, es: seq<Event>, n: nat)
    requires ValidSetup(cfg) && cfg.maxRetries > 0 && Run(cfg, ss, es) && n <= |es|
    ensures WithinBudget(ss[n].mem, cfg.maxRetries) && WithinBudget(ss[n].disk, cfg.maxRetries)
  {
    if n > 0 {
      BudgetHolds(cfg, ss, es, n - 1);
      RunIsSafe(cfg, ss, es, n - 1);
      var s, e := ss[n - 1], es[n - 1];
      assert StepAt(cfg, ss, es, n - 1);
      if e.Crash? {
        ReloadKeepsBudget(s.disk, cfg.maxRetries);
      } else {
        StepChanges(cfg, s, e, ss[n]);
        ChangeKeepsBudget(s.mem, ChangeOf(cfg, s, e), cfg.maxRetries);
      }
    }
  }

  lemma ReloadKeepsBudget(m: Items, max: int)
    requires WithinBudget(m, max)
    ensures WithinBudget(Reloaded(m), max)
  {
  }

  // ----- deduplication -----

  ghost predicate NoAdmin(es: seq<Event>) {
    forall i :: 0 <= i < |es| ==> !es[i].AdminFetch?
  }

  predicate InProgress(m: Items, item: Item) {
    item.id in m && m[item.id].status == Processing && m[item.id].attempt == item.attempt
  }

  /** Without administrators the worker's items are ones the store shows as processing, and the
      worker holds none twice. */
  ghost predicate Owns(m: Items, batch: seq<Item>) {
    && (forall i :: 0 <= i < |batch| ==> InProgress(m, batch[i]))
    && (forall i, j :: 0 <= i < j < |batch| ==> batch[i].id != batch[j].id)
  }

  ghost predicate WorkerOwns(s: State) {
    s.replays == map[] && Owns(s.mem, WorkerItems(s.worker))
  }

  lemma ChangeKeepsOwned(m: Items, c: Change, max: int, batch: seq<Item>)
    requires Allowed(m, c) && Owns(m, batch)
    requires c.Completed? || c.Retried? ==> forall i :: 0 <= i < |batch| ==> batch[i].id != c.id
    requires c.Taken? ==> batch == []
    ensures Owns(After(m, c, max), batch)
  {
  }

  lemma BatchOwned(m: Items, ids: seq<string>, now: int)
    requires Good(m) && Distinct(ids) && forall id :: id in ids ==> id in m
    ensures Owns(PickAll(m, ids, now), Batch(PickAll(m, ids, now), ids))
  {
  }

  lemma MarkOwned(m: Items, batch: seq<Item>, ok: bool, next: int, message: string, now: int, max: int)
    requires batch != [] && Owns(m, batch)
    ensures Owns(After(m, MarkChange(m, batch[0], ok, next, message, now), max), batch[1..])
  {
  }

  lemma PickKeepsOwnership(cfg: Setup, s: State, e: Event, s': State)
    requires ValidSetup(cfg) && Safe(s) && WorkerOwns(s) && Step(cfg, s, e, s') && e.Pick?
    ensures WorkerOwns(s')
  {
    BatchOwned(s.mem, e.ids, e.now);
  }

  lemma MarkKeepsOwnership(cfg: Setup, s: State, e: Event, s': State)
    requires ValidSetup(cfg) && Safe(s) && WorkerOwns(s) && Step(cfg, s, e, s') && e.WorkerMark?
    ensures WorkerOwns(s')
  {
    StepChanges(cfg, s, e, s');
    var next := WorkerNext(cfg, s.worker.batch[0], e.now, e.draw);
    MarkOwned(s.mem, s.worker.batch, s.worker.ok, next, e.message, e.now, cfg.maxRetries);
  }

  lemma SmtpKeepsOwnership(cfg: Setup, s: State, e: Event, s': State)
    requires ValidSetup(cfg) && Safe(s) && WorkerOwns(s) && Step(cfg, s, e, s') && e.SmtpRelay?
    ensures WorkerOwns(s')
  {
    SmtpChanges(cfg, s, e, s');
    ChangeKeepsOwned(s.mem, ChangeOf(cfg, s, e), cfg.maxRetries, WorkerItems(s.worker));
  }

  lemma QuietKeepsOwnership(cfg: Setup, s: State, e: Event, s': State)
    requires ValidSetup(cfg) && WorkerOwns(s) && Step(cfg, s, e, s') && IsQuiet(e) && !e.AdminFetch?
    ensures WorkerOwns(s')
  {
    QuietStep(cfg, s, e, s');
  }

  lemma StepKeepsOwnership(cfg: Setup, s: State, e: Event, s': State)
    requires ValidSetup(cfg) && Safe(s) && WorkerOwns(s) && Step(cfg, s, e, s') && !e.AdminFetch?
    ensures WorkerOwns(s')
  {
    if e.Pick? {
      PickKeepsOwnership(cfg, s, e, s');
    } else if e.WorkerMark? {
      MarkKeepsOwnership(cfg, s, e, s');
    } else if e.SmtpRelay? {
      SmtpKeepsOwnership(cfg, s, e, s');
    } else if !e.Crash? {
      QuietKeepsOwnership(cfg, s, e, s');
    }
  }

  lemma ChangeKeepsUnique(m: Items, c: Change, max: int)
    requires Allowed(m, c) && Unique(m)
    requires c.Retried? ==> IsLive(m[c.id])
    ensures Unique(After(m, c, max))
  {
  }

  lemma ReloadKeepsUnique(m: Items)
    requires Unique(m)
    ensures Unique(Reloaded(m))
  {
  }

  /** In every run without manual replays there is at most one waiting or running item for a
      recipient and message, in memory and in the file. */
  lemma {:induction false} NoDuplicates(cfg: Setup, ss: seq<State>, es: seq<Event>, n: nat)
    requires ValidSetup(cfg) && Run(cfg, ss, es) && NoAdmin(es) && n <= |es|
    ensures Unique(ss[n].mem) && Unique(ss[n].disk) && WorkerOwns(ss[n])
  {
    if n > 0 {
      NoDuplicates(cfg, ss, es, n - 1);
      RunIsSafe(cfg, ss, es, n - 1);
      var s, e := ss[n - 1], es[n - 1];
      assert StepAt(cfg, ss, es, n - 1);
      StepKeepsOwnership(cfg, s, e, ss[n]);
      OwnerMakesNoTwin(cfg, s, e);
      UniqueStepIff(cfg, s, e, ss[n]);
    }
  }

  /** What the worker fails to deliver is being processed, so it is live already. */
  lemma OwnerMakesNoTwin(cfg: Setup, s: State, e: Event)
    requires WorkerOwns(s)
    ensures !MakesTwin(cfg, s, e)
  {
    if e.WorkerMark? && s.worker.Answered? && s.worker.batch != [] {
      assert InProgress(s.mem, WorkerItems(s.worker)[0]);
    }
  }

  /** What a manual replay can do to that: a failed replay keeps items unique exactly when the
      item was live already, or runs out of tries, or has no live twin. */
  lemma RetryKeepsUniqueIff(m: Items, id: string, next: int, msg: Option<string>, max: int, now: int)
    requires Unique(m) && id in m
    ensures Unique(m[id := RetryItem(m[id], next, msg, max, now)]) <==>
            || IsLive(m[id])
            || (max > 0 && m[id].attempt + 1 >= max)
            || forall b :: b in m && b != id && IsLive(m[b]) ==> PayloadOf(m[b]) != PayloadOf(m[id])
  {
    var m' := m[id := RetryItem(m[id], next, msg, max, now)];
    assert PayloadOf(m'[id]) == PayloadOf(m[id]);
    if Unique(m') && !IsLive(m[id]) && !(max > 0 && m[id].attempt + 1 >= max) {
      forall b | b in m && b != id && IsLive(m[b])
        ensures PayloadOf(m[b]) != PayloadOf(m[id])
      {
        assert m'[b] == m[b] && IsLive(m'[id]);
      }
    }
  }

  /** The step records a failed replay of an item that is not live, has tries left, and has a live
      twin. */
  ghost predicate MakesTwin(cfg: Setup, s: State, e: Event) {
    exists id :: FailedReplayOf(s, e, id) && id in s.mem && GetsTwin(s.mem, id, cfg.maxRetries)
  }

  ghost predicate GetsTwin(m: Items, id: string, max: int)
    requires id in m
  {
    && !IsLive(m[id]) && !(max > 0 && m[id].attempt + 1 >= max)
    && exists b :: b in m && b != id && IsLive(m[b]) && PayloadOf(m[b]) == PayloadOf(m[id])
  }

  lemma TwinsAfter(m: Items, c: Change, max: int)
    requires Allowed(m, c) && Unique(m)
    ensures Unique(After(m, c, max)) <==> !(c.Retried? && GetsTwin(m, c.id, max))
  {
    if c.Retried? {
      RetryKeepsUniqueIff(m, c.id, c.next, Some(c.message), max, c.now);
    } else {
      ChangeKeepsUnique(m, c, max);
    }
  }

  lemma MakesTwinIff(cfg: Setup, s: State, e: Event)
    requires ValidSetup(cfg) && Allowed(s.mem, ChangeOf(cfg, s, e))
    ensures var c := ChangeOf(cfg, s, e); MakesTwin(cfg, s, e) <==> c.Retried? && GetsTwin(s.mem, c.id, cfg.maxRetries)
  {
    var c := ChangeOf(cfg, s, e);
    if c.Retried? {
      FailedReplayRetries(cfg, s, e, c.id);
    }
    if MakesTwin(cfg, s, e) {
      var id :| FailedReplayOf(s, e, id) && id in s.mem && GetsTwin(s.mem, id, cfg.maxRetries);
      FailedReplayRetries(cfg, s, e, id);
    }
  }

  lemma UniqueStepIff(cfg: Setup, s: State, e: Event, s': State)
    requires ValidSetup(cfg) && Safe(s) && Step(cfg, s, e, s') && Unique(s.mem) && Unique(s.disk)
    ensures Unique(s'.mem) <==> !MakesTwin(cfg, s, e)
    ensures Unique(s'.mem) ==> Unique(s'.disk)
  {
    if e.Crash? {
      ReloadKeepsUnique(s.disk);
    } else {
      StepChanges(cfg, s, e, s');
      TwinsAfter(s.mem, ChangeOf(cfg, s, e), cfg.maxRetries);
      MakesTwinIff(cfg, s, e);
    }
  }

  lemma {:induction false} UniqueSoFar(cfg: Setup, ss: seq<State>, es: seq<Event>, n: nat)
    requires ValidSetup(cfg) && Run(cfg, ss, es) && n <= |es|
    requires forall k: nat :: k < n ==> !MakesTwin(cfg, ss[k], es[k])
    ensures Unique(ss[n].mem) && Unique(ss[n].disk)
  {
    if n > 0 {
      UniqueSoFar(cfg, ss, es, n - 1);
      RunIsSafe(cfg, ss, es, n - 1);
      assert StepAt(cfg, ss, es, n - 1);
      UniqueStepIff(cfg, ss[n - 1], es[n - 1], ss[n]);
    }
  }

  lemma {:induction false} FirstTwin(cfg: Setup, ss: seq<State>, es: seq<Event>, n: nat) returns (k: nat)
    requires ValidSetup(cfg) && Run(cfg, ss, es) && n < |es| && MakesTwin(cfg, ss[n], es[n])
    ensures k <= |es| && !Unique(ss[k].mem)
  {
    if i: nat :| i < n && MakesTwin(cfg, ss[i], es[i]) {
      k := FirstTwin(cfg, ss, es, i);
    } else {
      UniqueSoFar(cfg, ss, es, n);
      RunIsSafe(cfg, ss, es, n);
      assert StepAt(cfg, ss, es, n);
      UniqueStepIff(cfg, ss[n], es[n], ss[n + 1]);
      k := n + 1;
    }
  }

  /** In a run with manual replays there is always at most one live item for a payload if and only
      if no step records a failed replay of an item that is not live, has tries left, and has a live
      twin. */
  lemma UniqueIff(cfg: Setup, ss: seq<State>, es: seq<Event>)
    requires ValidSetup(cfg) && Run(cfg, ss, es)
    ensures (forall n: nat :: n <= |es| ==> Unique(ss[n].mem)) <==>
            (forall n: nat :: n < |es| ==> !MakesTwin(cfg, ss[n], es[n]))
  {
    if n: nat :| n < |es| && MakesTwin(cfg, ss[n], es[n]) {
      var k := FirstTwin(cfg, ss, es, n);
    } else {
      forall n: nat | n <= |es|
        ensures Unique(ss[n].mem)
      {
        UniqueSoFar(cfg, ss, es, n);
      }
    }
  }

  predicate IoOk(e: Event) {
    match e
    case SmtpRelay(_, _, _, ioOk, _) => ioOk
    case Pick(_, _, _, ioOk) => ioOk
    case WorkerMark(_, _, _, ioOk) => ioOk
    case AdminMark(_, _, _, ioOk) => ioOk
    case _ => true
  }

  ghost predicate NoIoFailure(es: seq<Event>) {
    forall i :: 0 <= i < |es| ==> IoOk(es[i])
  }

  // ----- done items stay done -----

  /** The event records a failed replay of the item. */
  predicate FailedReplayOf(s: State, e: Event, id: string) {
    match e
    case WorkerMark(_, _, _, _) => s.worker.Answered? && s.worker.batch != [] && !s.worker.ok && s.worker.batch[0].id == id
    case AdminMark(k, _, _, _) => k in s.replays && s.replays[k].Replied? && !s.replays[k].ok && s.replays[k].item.id == id
    case _ => false
  }

  predicate IsDone(s: State, id: string) {
    id in s.mem && s.mem[id].status == Done
  }

  lemma FailedReplayRetries(cfg: Setup, s: State, e: Event, id: string)
    requires ValidSetup(cfg) && id in s.mem
    ensures FailedReplayOf(s, e, id) <==> ChangeOf(cfg, s, e).Retried? && ChangeOf(cfg, s, e).id == id
  {
  }

  lemma DoneAfterIff(m: Items, c: Change, max: int, id: string)
    requires Allowed(m, c) && id in m && m[id].status == Done
    ensures id in After(m, c, max) && (After(m, c, max)[id].status == Done <==> !(c.Retried? && c.id == id))
  {
  }

  /** A done item stays done through a step exactly when the step is no failed replay of it and,
      for a crash, when the file has it as done. */
  lemma DoneStaysIff(cfg: Setup, s: State, e: Event, s': State, id: string)
    requires ValidSetup(cfg) && Safe(s) && Step(cfg, s, e, s')
    requires IsDone(s, id)
    ensures IsDone(s', id) <==>
            if e.Crash? then id in s.disk && s.disk[id].status == Done else !FailedReplayOf(s, e, id)
  {
    if e.Crash? {
      ReloadedShape(s.disk);
    } else {
      StepChanges(cfg, s, e, s');
      FailedReplayRetries(cfg, s, e, id);
      DoneAfterIff(s.mem, ChangeOf(cfg, s, e), cfg.maxRetries, id);
    }
  }

  /** The file knows every item, its tries, and whether it is done. */
  ghost predicate Mirrored(m: Items, d: Items) {
    forall id :: id in m ==> id in d && d[id].attempt == m[id].attempt && (m[id].status == Done ==> d[id].status == Done)
  }

  lemma StepKeepsMirrored(cfg: Setup, s: State, e: Event, s': State)
    requires ValidSetup(cfg) && Safe(s) && Step(cfg, s, e, s') && IoOk(e) && Mirrored(s.mem, s.disk)
    ensures Mirrored(s'.mem, s'.disk)
  {
    if e.Crash? {
      ReloadedShape(s.disk);
    } else {
      StepChanges(cfg, s, e, s');
      assert Persists(s, e) || ChangeOf(cfg, s, e).Same?;
    }
  }

  lemma {:induction false} RunIsMirrored(cfg: Setup, ss: seq<State>, es: seq<Event>, n: nat)
    requires ValidSetup(cfg) && Run(cfg, ss, es) && NoIoFailure(es) && n <= |es|
    ensures Mirrored(ss[n].mem, ss[n].disk)
  {
    if n > 0 {
      RunIsMirrored(cfg, ss, es, n - 1);
      RunIsSafe(cfg, ss, es, n - 1);
      assert StepAt(cfg, ss, es, n - 1);
      StepKeepsMirrored(cfg, ss[n - 1], es[n - 1], ss[n]);
    }
  }

  lemma DoneStays(cfg: Setup, s: State, e: Event, s': State, id: string)
    requires ValidSetup(cfg) && Safe(s) && WorkerOwns(s) && Mirrored(s.mem, s.disk) && Step(cfg, s, e, s')
    requires IsDone(s, id)
    ensures IsDone(s', id)
  {
    assert !FailedReplayOf(s, e, id) by {
      assert s.worker.Answered? && s.worker.batch != [] ==> InProgress(s.mem, WorkerItems(s.worker)[0]);
    }
    DoneStaysIff(cfg, s, e, s', id);
  }

  lemma DoneStaysAt(cfg: Setup, ss: seq<State>, es: seq<Event>, n: nat, id: string)
    requires ValidSetup(cfg) && Run(cfg, ss, es) && NoAdmin(es) && NoIoFailure(es) && n < |es|
    requires IsDone(ss[n], id)
    ensures IsDone(ss[n + 1], id)
  {
    RunIsSafe(cfg, ss, es, n);
    RunIsMirrored(cfg, ss, es, n);
    NoDuplicates(cfg, ss, es, n);
    assert StepAt(cfg, ss, es, n);
    DoneStays(cfg, ss[n], es[n], ss[n + 1], id);
  }

  /** In every run without manual replays and failing writes, crashes included, done is final. */
  lemma {:induction false} DoneIsFinal(cfg: Setup, ss: seq<State>, es: seq<Event>, i: nat, j: nat, id: string)
    requires ValidSetup(cfg) && Run(cfg, ss, es) && NoAdmin(es) && NoIoFailure(es) && i <= j <= |es|
    requires IsDone(ss[i], id)
    ensures IsDone(ss[j], id)
    decreases j
  {
    if i < j {
      DoneIsFinal(cfg, ss, es, i, j - 1, id);
      DoneStaysAt(cfg, ss, es, j - 1, id);
    }
  }

  predicate Exhausted(cfg: Setup, s: State, id: string) {
    id in s.mem && s.mem[id].attempt >= cfg.maxRetries
  }

  lemma AttemptsAfter(m: Items, c: Change, max: int, id: string)
    requires Allowed(m, c) && id in m
    ensures id in After(m, c, max) && After(m, c, max)[id].attempt >= m[id].attempt
  {
  }

  /** A step gives an item that has used up its tries new ones exactly when it is a crash and the file
      does not know of the last of those tries. */
  lemma ExhaustedStaysIff(cfg: Setup, s: State, e: Event, s': State, id: string)
    requires ValidSetup(cfg) && Safe(s) && Step(cfg, s, e, s') && Exhausted(cfg, s, id)
    ensures Exhausted(cfg, s', id) <==> (e.Crash? ==> id in s.disk && s.disk[id].attempt >= cfg.maxRetries)
  {
    if e.Crash? {
      ReloadedShape(s.disk);
    } else {
      StepChanges(cfg, s, e, s');
      AttemptsAfter(s.mem, ChangeOf(cfg, s, e), cfg.maxRetries, id);
    }
  }

  /** With a positive retry limit and no failing writes, an item that has used up its tries never
      waits or runs again, whatever crashes and manual replays follow. */
  lemma {:induction false} ExhaustedForGood(cfg: Setup, ss: seq<State>, es: seq<Event>, i: nat, j: nat, id: string)
    requires ValidSetup(cfg) && cfg.maxRetries > 0 && Run(cfg, ss, es) && NoIoFailure(es) && i <= j <= |es|
    requires Exhausted(cfg, ss[i], id)
    ensures Exhausted(cfg, ss[j], id) && !IsLive(ss[j].mem[id])
    decreases j
  {
    if i < j {
      ExhaustedForGood(cfg, ss, es, i, j - 1, id);
      RunIsSafe(cfg, ss, es, j - 1);
      RunIsMirrored(cfg, ss, es, j - 1);
      assert StepAt(cfg, ss, es, j - 1);
      ExhaustedStaysIff(cfg, ss[j - 1], es[j - 1], ss[j], id);
    }
    BudgetHolds(cfg, ss, es, j);
  }

  // ----- a pick that cannot be saved -----

  ghost predicate NotAmong(batch: seq<Item>, id: string) {
    forall i :: 0 <= i < |batch| ==> batch[i].id != id
  }

  /** Shown as being processed although the worker does not hold it. */
  ghost predicate Stranded(s: State, id: string) {
    id in s.mem && s.mem[id].status == Processing && NotAmong(WorkerItems(s.worker), id)
  }

  lemma ProcessingAfter(m: Items, c: Change, max: int, id: string)
    requires Allowed(m, c) && id in m && m[id].status == Processing
    requires c.Completed? || c.Retried? ==> c.id != id
    ensures id in After(m, c, max) && After(m, c, max)[id].status == Processing
  {
  }

  lemma StepKeepsNotHeld(cfg: Setup, s: State, e: Event, s': State, id: string)
    requires ValidSetup(cfg) && Step(cfg, s, e, s') && Good(s'.mem) && NotAmong(WorkerItems(s.worker), id)
    requires id in s.mem && s.mem[id].status == Processing
    ensures NotAmong(WorkerItems(s'.worker), id)
  {
  }

  /** An administrator records what came of a replay of the item. */
  predicate MarksByHand(s: State, e: Event, id: string) {
    e.AdminMark? && e.k in s.replays && s.replays[e.k].item.id == id
  }

  lemma StepKeepsStranded(cfg: Setup, s: State, e: Event, s': State, id: string)
    requires ValidSetup(cfg) && Safe(s) && Stranded(s, id) && Step(cfg, s, e, s') && !e.Crash? && !MarksByHand(s, e, id)
    ensures Stranded(s', id)
  {
    StepKeepsConsistent(cfg, s, e, s');
    StepKeepsNotHeld(cfg, s, e, s', id);
    StepChanges(cfg, s, e, s');
    assert e.WorkerMark? ==> WorkerItems(s.worker)[0].id != id;
    ProcessingAfter(s.mem, ChangeOf(cfg, s, e), cfg.maxRetries, id);
  }

  /** Step i was a pick of the item that could not be saved, and up to state j there was no crash
      and no record of a manual replay of the item. */
  ghost predicate StrandedBy(ss: seq<State>, es: seq<Event>, i: nat, j: nat, id: string)
    requires |ss| == |es| + 1
  {
    && i < j <= |es| && es[i].Pick? && !es[i].ioOk && id in es[i].ids
    && forall k :: i < k < j ==> !es[k].Crash? && !MarksByHand(ss[k], es[k], id)
  }

  /** When the write inside a pick fails, the picked items are stuck: they stay processing, held by
      no worker, in every later state up to the next restart or manual replay. */
  lemma {:induction false} FailedPickStrands(cfg: Setup, ss: seq<State>, es: seq<Event>, i: nat, j: nat, id: string)
    requires ValidSetup(cfg) && Run(cfg, ss, es) && j <= |es| && StrandedBy(ss, es, i, j, id)
    ensures Stranded(ss[j], id)
    decreases j
  {
    assert StepAt(cfg, ss, es, j - 1);
    if i + 1 < j {
      FailedPickStrands(cfg, ss, es, i, j - 1, id);
      RunIsSafe(cfg, ss, es, j - 1);
      StepKeepsStranded(cfg, ss[j - 1], es[j - 1], ss[j], id);
    } else {
      assert id in DueIds(ss[i].mem, es[i].now);
    }
  }

  lemma BecomesProcessing(m: Items, c: Change, max: int, id: string)
    requires Allowed(m, c) && id in After(m, c, max) && After(m, c, max)[id].status == Processing
    ensures (c.Taken? && id in c.ids) || (id in m && m[id].status == Processing && !((c.Completed? || c.Retried?) && c.id == id))
  {
  }

  lemma StaysHeld(cfg: Setup, s: State, e: Event, s': State, id: string)
    requires ValidSetup(cfg) && Step(cfg, s, e, s') && WorkerHolds(s.mem, s.worker) && !e.Crash?
    requires !NotAmong(WorkerItems(s.worker), id) && NotAmong(WorkerItems(s'.worker), id)
    ensures var c := ChangeOf(cfg, s, e); (c.Completed? || c.Retried?) && c.id == id
  {
    var i :| 0 <= i < |WorkerItems(s.worker)| && WorkerItems(s.worker)[i].id == id;
    assert e.WorkerMark? && i == 0;
    assert Held(s.mem, WorkerItems(s.worker)[0]);
  }

  lemma PickHolds(cfg: Setup, s: State, e: Event, s': State, id: string)
    requires ValidSetup(cfg) && Step(cfg, s, e, s') && Good(s'.mem)
    requires e.Pick? && id in e.ids && e.ioOk
    ensures !NotAmong(WorkerItems(s'.worker), id)
  {
    var i :| 0 <= i < |e.ids| && e.ids[i] == id;
    assert GoodEntry(id, s'.mem[id]);
    assert WorkerItems(s'.worker)[i].id == id;
  }

  /** Only a pick that could not be saved leaves an item stranded. */
  lemma BecomesStranded(cfg: Setup, s: State, e: Event, s': State, id: string)
    requires ValidSetup(cfg) && Safe(s) && Step(cfg, s, e, s') && Stranded(s', id)
    ensures !e.Crash? && ((Stranded(s, id) && !MarksByHand(s, e, id)) || (e.Pick? && !e.ioOk && id in e.ids))
  {
    if e.Crash? {
      ReloadedShape(s.disk);
    } else {
      StepKeepsGood(cfg, s, e, s');
      WasStranded(cfg, s, e, s', id);
      if e.Pick? && id in e.ids && e.ioOk {
        PickHolds(cfg, s, e, s', id);
      }
    }
  }

  lemma StepKeepsGood(cfg: Setup, s: State, e: Event, s': State)
    requires ValidSetup(cfg) && Safe(s) && Step(cfg, s, e, s')
    ensures Good(s'.mem)
  {
    StepKeepsConsistent(cfg, s, e, s');
  }

  lemma MarkChangesItem(cfg: Setup, s: State, e: Event, s': State, id: string)
    requires ValidSetup(cfg) && Safe(s) && Step(cfg, s, e, s') && MarksByHand(s, e, id)
    ensures var c := ChangeOf(cfg, s, e); (c.Completed? || c.Retried?) && c.id == id
  {
    assert Held(s.mem, s.replays[e.k].item);
  }

  lemma WasStranded(cfg: Setup, s: State, e: Event, s': State, id: string)
    requires ValidSetup(cfg) && Safe(s) && Step(cfg, s, e, s') && Stranded(s', id) && !e.Crash?
    ensures (Stranded(s, id) && !MarksByHand(s, e, id)) || (e.Pick? && id in e.ids)
  {
    StepChanges(cfg, s, e, s');
    BecomesProcessing(s.mem, ChangeOf(cfg, s, e), cfg.maxRetries, id);
    if MarksByHand(s, e, id) {
      MarkChangesItem(cfg, s, e, s', id);
    }
    if !NotAmong(WorkerItems(s.worker), id) {
      StaysHeld(cfg, s, e, s', id);
    }
  }

  lemma StrandedStep(cfg: Setup, ss: seq<State>, es: seq<Event>, n: nat, id: string)
    requires ValidSetup(cfg) && Run(cfg, ss, es) && n < |es| && Stranded(ss[n + 1], id)
    ensures !es[n].Crash?
    ensures (Stranded(ss[n], id) && !MarksByHand(ss[n], es[n], id)) || (es[n].Pick? && !es[n].ioOk && id in es[n].ids)
  {
    RunIsSafe(cfg, ss, es, n);
    assert StepAt(cfg, ss, es, n);
    BecomesStranded(cfg, ss[n], es[n], ss[n + 1], id);
  }

  lemma {:induction false} StrandedByPick(cfg: Setup, ss: seq<State>, es: seq<Event>, j: nat, id: string) returns (i: nat)
    requires ValidSetup(cfg) && Run(cfg, ss, es) && j <= |es| && Stranded(ss[j], id)
    ensures StrandedBy(ss, es, i, j, id)
  {
    StrandedStep(cfg, ss, es, j - 1, id);
    if Stranded(ss[j - 1], id) && !MarksByHand(ss[j - 1], es[j - 1], id) {
      i := StrandedByPick(cfg, ss, es, j - 1, id);
    } else {
      i := j - 1;
    }
  }

  /** In every run, an item is shown as being processed while the worker does not hold it exactly
      when a pick of it could not be saved, and since then the process has not crashed and no manual
      replay of it has been recorded. */
  lemma StrandedIff(cfg: Setup, ss: seq<State>, es: seq<Event>, j: nat, id: string)
    requires ValidSetup(cfg) && Run(cfg, ss, es) && j <= |es|
    ensures Stranded(ss[j], id) <==> exists i :: StrandedBy(ss, es, i, j, id)
  {
    if Stranded(ss[j], id) {
      var i := StrandedByPick(cfg, ss, es, j, id);
    }
    if i :| StrandedBy(ss, es, i, j, id) {
      FailedPickStrands(cfg, ss, es, i, j, id);
    }
  }

  // ----- spacing of retries -----

  predicate Rested(cfg: Setup, item: Item, f: Failure)
    requires IsInt64(cfg.baseDelay) && IsInt64(cfg.maxDelay)
  {
    IsLive(item) ==> item.nextRetryAt >= f.at + NextDelay(f.attempt, cfg.baseDelay, cfg.maxDelay)
  }

  ghost predicate Spaced(cfg: Setup, m: Items, fs: map<string, Failure>)
    requires ValidSetup(cfg)
  {
    forall id :: id in fs ==> id in m && Rested(cfg, m[id], fs[id])
  }

  /** The worker's delay before this attempt fits in int64, whatever the draw. */
  predicate DelayFits(cfg: Setup, attempt: int)
    requires ValidSetup(cfg)
  {
    NextDelay(attempt, cfg.baseDelay, cfg.maxDelay) + EffectiveJitter(cfg.jitter) <= TWO_63
  }

  /** A check of at most 64 numbers: no delay that is ever waited for overflows. The last failure an
      item is allowed gives it up instead, and from the 64th on the delay is the cap. */
  predicate NoOverflow(cfg: Setup)
    requires ValidSetup(cfg)
  {
    forall a: int | 1 <= a <= 64 && (cfg.maxRetries > 0 ==> a < cfg.maxRetries) :: DelayFits(cfg, a)
  }

  lemma EveryDelayFits(cfg: Setup, attempt: int)
    requires ValidSetup(cfg) && NoOverflow(cfg) && attempt >= 1 && (cfg.maxRetries > 0 ==> attempt < cfg.maxRetries)
    ensures DelayFits(cfg, attempt)
  {
    if attempt > 64 {
      ShiftedOut(EffectiveBase(cfg.baseDelay), attempt - 1);
      ShiftedOut(EffectiveBase(cfg.baseDelay), 63);
      assert DelayFits(cfg, 64);
    }
  }

  lemma WorkerWaits(cfg: Setup, attempt: int, draw: int)
    requires ValidSetup(cfg) && NoOverflow(cfg) && 0 <= draw < EffectiveJitter(cfg.jitter)
    requires attempt >= 1 && (cfg.maxRetries > 0 ==> attempt < cfg.maxRetries)
    ensures WorkerDelay(attempt, cfg.baseDelay, cfg.maxDelay, draw) >= NextDelay(attempt, cfg.baseDelay, cfg.maxDelay)
  {
    EveryDelayFits(cfg, attempt);
  }

  ghost predicate Counted(m: Items) {
    forall id :: id in m ==> m[id].attempt >= 0
  }

  lemma ChangeKeepsCounted(m: Items, c: Change, max: int)
    requires Allowed(m, c) && Counted(m)
    ensures Counted(After(m, c, max))
  {
  }

  lemma StepKeepsCounted(cfg: Setup, s: State, e: Event, s': State)
    requires ValidSetup(cfg) && Good(s.mem) && Step(cfg, s, e, s') && Counted(s.mem) && Counted(s.disk)
    ensures Counted(s'.mem) && Counted(s'.disk)
  {
    if e.Crash? {
      assert s'.mem == Reloaded(s.disk);
    } else {
      StepChanges(cfg, s, e, s');
      ChangeKeepsCounted(s.mem, ChangeOf(cfg, s, e), cfg.maxRetries);
    }
  }

  lemma ChangeKeepsSpacing(cfg: Setup, m: Items, c: Change, fs: map<string, Failure>)
    requires ValidSetup(cfg) && Allowed(m, c) && Spaced(cfg, m, fs) && !c.Retried?
    ensures Spaced(cfg, After(m, c, cfg.maxRetries), fs)
  {
  }

  lemma RetryKeepsSpacing(cfg: Setup, m: Items, c: Change, fs: map<string, Failure>)
    requires ValidSetup(cfg) && Allowed(m, c) && Spaced(cfg, m, fs) && c.Retried?
    requires var n := m[c.id].attempt + 1; (cfg.maxRetries > 0 ==> n < cfg.maxRetries) ==>
      c.next >= c.now + NextDelay(n, cfg.baseDelay, cfg.maxDelay)
    ensures Spaced(cfg, After(m, c, cfg.maxRetries), fs[c.id := Failure(c.now, m[c.id].attempt + 1)])
  {
  }

  lemma ReloadKeepsSpacing(cfg: Setup, m: Items, fs: map<string, Failure>)
    requires ValidSetup(cfg) && Spaced(cfg, m, fs)
    ensures Spaced(cfg, Reloaded(m), fs)
  {
  }

  lemma MarkKeepsSpacing(cfg: Setup, s: State, e: Event, s': State)
    requires ValidSetup(cfg) && NoOverflow(cfg) && WorkerOwns(s) && Step(cfg, s, e, s') && e.WorkerMark?
    requires Changes(cfg, s, e, s') && Counted(s.mem) && Spaced(cfg, s.mem, s.failures)
    ensures Spaced(cfg, s'.mem, s'.failures)
  {
    var c, item := ChangeOf(cfg, s, e), s.worker.batch[0];
    assert InProgress(s.mem, item) by {
      assert WorkerItems(s.worker)[0] == item;
    }
    if c.Retried? {
      if cfg.maxRetries > 0 ==> item.attempt + 1 < cfg.maxRetries {
        WorkerWaits(cfg, item.attempt + 1, e.draw);
      }
      RetryKeepsSpacing(cfg, s.mem, c, s.failures);
    } else {
      ChangeKeepsSpacing(cfg, s.mem, c, s.failures);
    }
  }

  lemma StepKeepsSpacing(cfg: Setup, s: State, e: Event, s': State)
    requires ValidSetup(cfg) && NoOverflow(cfg) && Safe(s) && WorkerOwns(s) && Step(cfg, s, e, s')
    requires !e.AdminFetch? && IoOk(e) && Counted(s.mem)
    requires Spaced(cfg, s.mem, s.failures) && Spaced(cfg, s.disk, s.failures)
    ensures Spaced(cfg, s'.mem, s'.failures) && Spaced(cfg, s'.disk, s'.failures)
  {
    if e.Crash? {
      ReloadKeepsSpacing(cfg, s.disk, s.failures);
    } else if IsQuiet(e) {
      QuietStep(cfg, s, e, s');
    } else {
      StepChanges(cfg, s, e, s');
      if e.WorkerMark? {
        MarkKeepsSpacing(cfg, s, e, s');
      } else {
        ChangeKeepsSpacing(cfg, s.mem, ChangeOf(cfg, s, e), s.failures);
      }
    }
  }

  lemma {:induction false} RunIsSpaced(cfg: Setup, ss: seq<State>, es: seq<Event>, n: nat)
    requires ValidSetup(cfg) && NoOverflow(cfg) && Run(cfg, ss, es) && NoAdmin(es) && NoIoFailure(es) && n <= |es|
    ensures Spaced(cfg, ss[n].mem, ss[n].failures) && Spaced(cfg, ss[n].disk, ss[n].failures)
    ensures Counted(ss[n].mem) && Counted(ss[n].disk)
  {
    if n > 0 {
      RunIsSpaced(cfg, ss, es, n - 1);
      RunIsSafe(cfg, ss, es, n - 1);
      NoDuplicates(cfg, ss, es, n - 1);
      assert StepAt(cfg, ss, es, n - 1);
      StepKeepsCounted(cfg, ss[n - 1], es[n - 1], ss[n]);
      StepKeepsSpacing(cfg, ss[n - 1], es[n - 1], ss[n]);
    }
  }

  /** If step n picks the item, then no earlier than the backoff for its latest counted failure. */
  ghost predicate PickedInTime(cfg: Setup, ss: seq<State>, es: seq<Event>, n: nat, id: string)
    requires ValidSetup(cfg) && n < |es| < |ss|
  {
    es[n].Pick? && id in es[n].ids && id in ss[n].failures ==>
      es[n].now >= ss[n].failures[id].at + NextDelay(ss[n].failures[id].attempt, cfg.baseDelay, cfg.maxDelay)
  }

  /** In every run without manual replays and failing writes (crashes allowed), the pick that
      follows the n-th counted failure of an item comes no earlier than the backoff for n. */
  lemma PicksAreSpaced(cfg: Setup, ss: seq<State>, es: seq<Event>, n: nat, id: string)
    requires ValidSetup(cfg) && NoOverflow(cfg) && Run(cfg, ss, es) && NoAdmin(es) && NoIoFailure(es) && n < |es|
    ensures PickedInTime(cfg, ss, es, n, id)
  {
    if es[n].Pick? && id in es[n].ids && id in ss[n].failures {
      RunIsSpaced(cfg, ss, es, n);
      assert StepAt(cfg, ss, es, n);
      assert id in DueIds(ss[n].mem, es[n].now);
    }
  }
}
