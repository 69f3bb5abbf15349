/** The rate-limited sender of internal/max/limited_sender.go: a token bucket with a bounded
    wait queue, as atomic steps of any number of callers interleaved with refill ticks. */
module RateLimiter {
  import opened Support

  const NANOS_PER_SECOND := 1_000_000_000

  /** Limits after the defaults of NewRateLimitedSender have been applied. */
  datatype Limits = Limits(burst: nat, capacity: nat, wait: nat)

  const DEFAULT_WAIT := 500_000_000

  function Normalize(burst: int, capacity: int, wait: int): (l: Limits)
    ensures l.burst > 0 && l.wait > 0
  {
    Limits(if burst <= 0 then 1 else burst, if capacity < 0 then 0 else capacity, if wait <= 0 then DEFAULT_WAIT else wait)
  }

  datatype Outcome = Granted | Cancelled | QueueTimeout

  /** Where a caller is inside acquire. Leaving and SlotFreed are the two halves of the deferred
      function; Returned callers have left acquire but not yet used the answer. */
  datatype Place = Started | WantSlot | TookSlot | Waiting
                 | Leaving(out: Outcome) | SlotFreed(out: Outcome) | Returned(out: Outcome)

  type Caller = nat

  /** tokens and slots are the fill levels of the two channels. The counters from grants on only
      record the past: tokens handed out, refill ticks, ticks that found room, calls passed on to
      the wrapped sender and QueueTimeoutErrors handed to callers. */
  datatype State = State(
    tokens: nat, slots: nat, depth: int, dropped: nat, rateLimited: nat,
    places: map<Caller, Place>, cancelled: set<Caller>,
    grants: nat, ticks: nat, refills: nat, sends: nat, timeouts: nat)

  datatype Event =
    | Tick | Arrive(c: Caller) | Cancel(c: Caller)
    | FastCancelled(c: Caller) | FastTake(c: Caller) | FastMiss(c: Caller)
    | TakeSlot(c: Caller) | QueueFull(c: Caller) | RaiseDepth(c: Caller)
    | WaitCancelled(c: Caller) | WaitTimeout(c: Caller) | WaitTake(c: Caller)
    | FreeSlot(c: Caller) | LowerDepth(c: Caller) | Use(c: Caller)

  predicate At(s: State, c: Caller, p: Place) {
    c in s.places && s.places[c] == p
  }

  /** When a step can happen. Of several ready cases of a select any may be taken; the default
      case needs that none is. Receiving from queueSlots needs an element in it. */
  predicate Enabled(l: Limits, s: State, e: Event) {
    match e
    case Tick => true
    case Arrive(c) => c !in s.places && c !in s.cancelled
    case Cancel(c) => c in s.places
    case FastCancelled(c) => At(s, c, Started) && c in s.cancelled
    case FastTake(c) => At(s, c, Started) && s.tokens > 0
    case FastMiss(c) => At(s, c, Started) && s.tokens == 0 && c !in s.cancelled
    case TakeSlot(c) => At(s, c, WantSlot) && s.slots < l.capacity
    case QueueFull(c) => At(s, c, WantSlot) && s.slots >= l.capacity
    case RaiseDepth(c) => At(s, c, TookSlot)
    case WaitCancelled(c) => At(s, c, Waiting) && c in s.cancelled
    case WaitTimeout(c) => At(s, c, Waiting)
    case WaitTake(c) => At(s, c, Waiting) && s.tokens > 0
    case FreeSlot(c) => c in s.places && s.places[c].Leaving? && s.slots > 0
    case LowerDepth(c) => c in s.places && s.places[c].SlotFreed?
    case Use(c) => c in s.places && s.places[c].Returned?
  }

  function Goto(s: State, c: Caller, p: Place): State {
    s.(places := s.places[c := p])
  }

  /** updateQueueDepth, with its clamp at zero. */
  function Shift(depth: int, delta: int): int {
    if depth + delta < 0 then 0 else depth + delta
  }

  function Apply(l: Limits, s: State, e: Event): State
    requires Enabled(l, s, e)
  {
    match e
    case Tick =>
      if s.tokens < l.burst then s.(tokens := s.tokens + 1, ticks := s.ticks + 1, refills := s.refills + 1)
      else s.(ticks := s.ticks + 1)
    case Arrive(c) => Goto(s, c, Started)
    case Cancel(c) => s.(cancelled := s.cancelled + {c})
    case FastCancelled(c) => Goto(s, c, Returned(Cancelled))
    case FastTake(c) => Goto(s, c, Returned(Granted)).(tokens := s.tokens - 1, grants := s.grants + 1)
    case FastMiss(c) => Goto(s, c, WantSlot)
    case TakeSlot(c) => Goto(s, c, TookSlot).(slots := s.slots + 1)
    case QueueFull(c) => Goto(s, c, Returned(QueueTimeout)).(dropped := s.dropped + 1, rateLimited := s.rateLimited + 1)
    case RaiseDepth(c) => Goto(s, c, Waiting).(depth := Shift(s.depth, 1))
    case WaitCancelled(c) => Goto(s, c, Leaving(Cancelled))
    case WaitTimeout(c) => Goto(s, c, Leaving(QueueTimeout)).(dropped := s.dropped + 1, rateLimited := s.rateLimited + 1)
    case WaitTake(c) =>
      Goto(s, c, Leaving(Granted)).(tokens := s.tokens - 1, grants := s.grants + 1, rateLimited := s.rateLimited + 1)
    case FreeSlot(c) => Goto(s, c, SlotFreed(s.places[c].out)).(slots := s.slots - 1)
    case LowerDepth(c) => Goto(s, c, Returned(s.places[c].out)).(depth := Shift(s.depth, -1))
    case Use(c) =>
      s.(places := s.places - {c}, cancelled := s.cancelled - {c},
         sends := s.sends + (if s.places[c].out == Granted then 1 else 0),
         timeouts := s.timeouts + (if s.places[c].out == QueueTimeout then 1 else 0))
  }

  function Initial(l: Limits): State {
    State(l.burst, 0, 0, 0, 0, map[], {}, 0, 0, 0, 0, 0)
  }

  ghost predicate Run(l: Limits, ss: seq<State>, es: seq<Event>) {
    && |ss| == |es| + 1 && ss[0] == Initial(l)
    && forall i :: 0 <= i < |es| ==> Enabled(l, ss[i], es[i]) && ss[i + 1] == Apply(l, ss[i], es[i])
  }

  // ----- counting callers -----

  predicate HoldsSlot(p: Place) {
    p.TookSlot? || p.Waiting? || p.Leaving?
  }

  /** Between its +1 and its -1 on queueDepth. */
  predicate Raised(p: Place) {
    p.Waiting? || p.Leaving? || p.SlotFreed?
  }

  predicate HasOutcome(p: Place, out: Outcome) {
    (p.Leaving? || p.SlotFreed? || p.Returned?) && p.out == out
  }

  function Those(places: map<Caller, Place>, which: Place -> bool): set<Caller> {
    set c | c in places && which(places[c])
  }

  function Count(places: map<Caller, Place>, which: Place -> bool): nat {
    |Those(places, which)|
  }

  function Bit(b: bool): nat {
    if b then 1 else 0
  }

  lemma SizeWithout(a: set<Caller>, c: Caller)
    ensures |a - {c}| == |a| - Bit(c in a)
  {
  }

  lemma CountGoto(places: map<Caller, Place>, c: Caller, p: Place, which: Place -> bool)
    ensures Count(places[c := p], which) == Count(places, which) + Bit(which(p)) - Bit(c in places && which(places[c]))
  {
    var before, after := Those(places, which), Those(places[c := p], which);
    assert after == if which(p) then before + {c} else before - {c};
    SizeWithout(before, c);
    SizeWithout(after, c);
  }

  lemma CountRemove(places: map<Caller, Place>, c: Caller, which: Place -> bool)
    requires c in places
    ensures Count(places - {c}, which) == Count(places, which) - Bit(which(places[c]))
  {
    assert Those(places - {c}, which) == Those(places, which) - {c};
  }

  const Slotted := (p: Place) => HoldsSlot(p)
  const Deep := (p: Place) => Raised(p)
  const Winning := (p: Place) => HasOutcome(p, Granted)
  const Losing := (p: Place) => HasOutcome(p, QueueTimeout)

  /** What every reachable state satisfies. */
  ghost predicate Inv(l: Limits, s: State) {
    && s.tokens + s.grants == l.burst + s.refills
    && s.tokens <= l.burst && s.refills <= s.ticks
    && s.slots == Count(s.places, Slotted) && s.slots <= l.capacity
    && s.depth == Count(s.places, Deep)
    && s.grants == s.sends + Count(s.places, Winning)
    && s.dropped == s.timeouts + Count(s.places, Losing)
  }

  lemma CountsAfterGoto(s: State, c: Caller, p: Place)
    ensures var q := c in s.places;
      && Count(s.places[c := p], Slotted) == Count(s.places, Slotted) + Bit(HoldsSlot(p)) - Bit(q && HoldsSlot(s.places[c]))
      && Count(s.places[c := p], Deep) == Count(s.places, Deep) + Bit(Raised(p)) - Bit(q && Raised(s.places[c]))
      && Count(s.places[c := p], Winning) == Count(s.places, Winning)
           + Bit(HasOutcome(p, Granted)) - Bit(q && HasOutcome(s.places[c], Granted))
      && Count(s.places[c := p], Losing) == Count(s.places, Losing)
           + Bit(HasOutcome(p, QueueTimeout)) - Bit(q && HasOutcome(s.places[c], QueueTimeout))
  {
    CountGoto(s.places, c, p, Slotted);
    CountGoto(s.places, c, p, Deep);
    CountGoto(s.places, c, p, Winning);
    CountGoto(s.places, c, p, Losing);
  }

  lemma UseKeepsInv(l: Limits, s: State, c: Caller)
    requires Inv(l, s) && Enabled(l, s, Use(c))
    ensures Inv(l, Apply(l, s, Use(c)))
  {
    CountRemove(s.places, c, Slotted);
    CountRemove(s.places, c, Deep);
    CountRemove(s.places, c, Winning);
    CountRemove(s.places, c, Losing);
  }

  predicate InFront(e: Event) {
    e.Arrive? || e.FastCancelled? || e.FastTake? || e.FastMiss? || e.TakeSlot? || e.QueueFull?
  }

  lemma FrontKeepsInv(l: Limits, s: State, e: Event)
    requires Inv(l, s) && Enabled(l, s, e) && InFront(e)
    ensures Inv(l, Apply(l, s, e))
  {
    CountsAfterGoto(s, e.c, Apply(l, s, e).places[e.c]);
  }

  lemma QueueKeepsInv(l: Limits, s: State, e: Event)
    requires Inv(l, s) && Enabled(l, s, e) && !InFront(e) && !e.Tick? && !e.Cancel? && !e.Use?
    ensures Inv(l, Apply(l, s, e))
  {
    CountsAfterGoto(s, e.c, Apply(l, s, e).places[e.c]);
  }

  lemma StepKeepsInv(l: Limits, s: State, e: Event)
    requires Inv(l, s) && Enabled(l, s, e)
    ensures Inv(l, Apply(l, s, e))
  {
    if e.Use? {
      UseKeepsInv(l, s, e.c);
    } else if InFront(e) {
      FrontKeepsInv(l, s, e);
    } else if !e.Tick? && !e.Cancel? {
      QueueKeepsInv(l, s, e);
    }
  }

  /** Tokens and grants balance, the queue holds its bounds, and every consumed token is one call
      of the wrapped sender, made or about to be made, in every interleaving. */
  lemma {:induction false} RunKeepsInv(l: Limits, ss: seq<State>, es: seq<Event>, n: nat)
    requires Run(l, ss, es) && n <= |es|
    ensures Inv(l, ss[n])
  {
    if n == 0 {
      assert forall which: Place -> bool :: Those(map[], which) == {};
    } else {
      RunKeepsInv(l, ss, es, n - 1);
      StepKeepsInv(l, ss[n - 1], es[n - 1]);
    }
  }

  lemma {:induction false} TicksGrow(l: Limits, ss: seq<State>, es: seq<Event>, i: nat, j: nat)
    requires Run(l, ss, es) && i <= j <= |es|
    ensures 0 <= ss[j].refills - ss[i].refills <= ss[j].ticks - ss[i].ticks
    decreases j
  {
    if i < j {
      TicksGrow(l, ss, es, i, j - 1);
    }
  }

  /** The rate limit: in any stretch of any run, at most a full bucket plus one per tick. */
  lemma GrantsBounded(l: Limits, ss: seq<State>, es: seq<Event>, i: nat, j: nat)
    requires Run(l, ss, es) && i <= j <= |es|
    ensures ss[j].grants - ss[i].grants <= l.burst + (ss[j].ticks - ss[i].ticks)
  {
    RunKeepsInv(l, ss, es, i);
    RunKeepsInv(l, ss, es, j);
    TicksGrow(l, ss, es, i, j);
  }

  // ----- what the counters count -----

  function Ticks(es: seq<Event>): nat {
    if es == [] then 0 else Ticks(es[..|es| - 1]) + Bit(es[|es| - 1].Tick?)
  }

  function Grants(es: seq<Event>): nat {
    if es == [] then 0 else Grants(es[..|es| - 1]) + Bit(es[|es| - 1].FastTake? || es[|es| - 1].WaitTake?)
  }

  function Drops(es: seq<Event>): nat {
    if es == [] then 0 else Drops(es[..|es| - 1]) + Bit(es[|es| - 1].QueueFull? || es[|es| - 1].WaitTimeout?)
  }

  function Delays(es: seq<Event>): nat {
    if es == [] then 0 else Delays(es[..|es| - 1]) + Bit(es[|es| - 1].WaitTake?)
  }

  /** The ticks that found room in the bucket. */
  function Refills(l: Limits, ss: seq<State>, es: seq<Event>, n: nat): nat
    requires n <= |es| < |ss|
  {
    if n == 0 then 0 else Refills(l, ss, es, n - 1) + Bit(es[n - 1].Tick? && ss[n - 1].tokens < l.burst)
  }

  lemma StepCounts(l: Limits, s: State, e: Event)
    requires Enabled(l, s, e)
    ensures var s' := Apply(l, s, e);
      && s'.ticks == s.ticks + Bit(e.Tick?) && s'.refills == s.refills + Bit(e.Tick? && s.tokens < l.burst)
      && s'.grants == s.grants + Bit(e.FastTake? || e.WaitTake?)
      && s'.dropped == s.dropped + Bit(e.QueueFull? || e.WaitTimeout?)
      && s'.rateLimited == s.rateLimited + Bit(e.QueueFull? || e.WaitTimeout?) + Bit(e.WaitTake?)
  {
  }

  lemma {:induction false} CountsNext(es: seq<Event>, n: nat)
    requires n < |es|
    ensures Ticks(es[..n + 1]) == Ticks(es[..n]) + Bit(es[n].Tick?)
    ensures Grants(es[..n + 1]) == Grants(es[..n]) + Bit(es[n].FastTake? || es[n].WaitTake?)
    ensures Drops(es[..n + 1]) == Drops(es[..n]) + Bit(es[n].QueueFull? || es[n].WaitTimeout?)
    ensures Delays(es[..n + 1]) == Delays(es[..n]) + Bit(es[n].WaitTake?)
  {
    assert es[..n + 1][..n] == es[..n];
  }

  /** Every counter counts its steps: a call is rate-limited when it is dropped or has waited for its
      token. */
  lemma {:induction false} CountersCount(l: Limits, ss: seq<State>, es: seq<Event>, n: nat)
    requires Run(l, ss, es) && n <= |es|
    ensures ss[n].ticks == Ticks(es[..n]) && ss[n].refills == Refills(l, ss, es, n) && ss[n].grants == Grants(es[..n])
    ensures ss[n].dropped == Drops(es[..n]) && ss[n].rateLimited == Drops(es[..n]) + Delays(es[..n])
  {
    if n > 0 {
      CountersCount(l, ss, es, n - 1);
      CountsNext(es, n - 1);
      StepCounts(l, ss[n - 1], es[n - 1]);
    }
  }

  lemma {:induction false} StretchNext(es: seq<Event>, i: nat, j: nat)
    requires i <= j < |es|
    ensures Ticks(es[i..j + 1]) == Ticks(es[i..j]) + Bit(es[j].Tick?)
  {
    assert es[i..j + 1][..j - i] == es[i..j];
  }

  lemma TokensNext(l: Limits, s: State, e: Event)
    requires Enabled(l, s, e) && !e.FastTake? && !e.WaitTake?
    ensures Apply(l, s, e).tokens == if e.Tick? && s.tokens < l.burst then s.tokens + 1 else s.tokens
  {
  }

  lemma RunTokens(l: Limits, ss: seq<State>, es: seq<Event>, k: nat)
    requires Run(l, ss, es) && k < |es| && !es[k].FastTake? && !es[k].WaitTake?
    ensures ss[k + 1].tokens == if es[k].Tick? && ss[k].tokens < l.burst then ss[k].tokens + 1 else ss[k].tokens
  {
    TokensNext(l, ss[k], es[k]);
  }

  lemma {:induction false} LevelRises(burst: nat, levels: seq<nat>, es: seq<Event>, i: nat, j: nat)
    requires i <= j <= |es| < |levels| && levels[i] <= burst
    requires forall k :: i <= k < j ==>
      levels[k + 1] == if es[k].Tick? && levels[k] < burst then levels[k] + 1 else levels[k]
    ensures var k := Ticks(es[i..j]); levels[j] == if levels[i] + k < burst then levels[i] + k else burst
    decreases j
  {
    if i < j {
      LevelRises(burst, levels, es, i, j - 1);
      StretchNext(es, i, j - 1);
    }
  }

  /** The bucket fills: over a stretch without grants every tick adds a token until it is full. From an
      empty bucket on, k ticks leave as many tokens as k or the burst, whichever is less. */
  lemma {:induction false} BucketFills(l: Limits, ss: seq<State>, es: seq<Event>, i: nat, j: nat)
    requires Run(l, ss, es) && i <= j <= |es| && forall k :: i <= k < j ==> !es[k].FastTake? && !es[k].WaitTake?
    ensures var k := Ticks(es[i..j]);
            ss[j].tokens == if ss[i].tokens + k < l.burst then ss[i].tokens + k else l.burst
  {
    var levels := seq(|ss|, n requires 0 <= n < |ss| => ss[n].tokens);
    RunKeepsInv(l, ss, es, i);
    forall k | i <= k < j
      ensures levels[k + 1] == if es[k].Tick? && levels[k] < l.burst then levels[k] + 1 else levels[k]
    {
      RunTokens(l, ss, es, k);
    }
    LevelRises(l.burst, levels, es, i, j);
  }

  /** When nobody is in flight the queue is empty, the depth is zero, every token handed out has
      become one send, and every drop one timeout error. */
  lemma QuietState(l: Limits, ss: seq<State>, es: seq<Event>, n: nat)
    requires Run(l, ss, es) && n <= |es| && ss[n].places == map[]
    ensures ss[n].slots == 0 && ss[n].depth == 0
    ensures ss[n].sends == ss[n].grants && ss[n].dropped == ss[n].timeouts
  {
    RunKeepsInv(l, ss, es, n);
    assert forall which: Place -> bool :: Those(map[], which) == {};
  }

  /** The deferred function never blocks on the slot channel, and the clamp never acts. */
  lemma LeavingNeverBlocks(l: Limits, ss: seq<State>, es: seq<Event>, n: nat, c: Caller)
    requires Run(l, ss, es) && n <= |es| && c in ss[n].places
    ensures ss[n].places[c].Leaving? ==> Enabled(l, ss[n], FreeSlot(c))
    ensures ss[n].places[c].SlotFreed? ==> ss[n].depth >= 1 && Shift(ss[n].depth, -1) == ss[n].depth - 1
  {
    RunKeepsInv(l, ss, es, n);
    var s := ss[n];
    if s.places[c].Leaving? {
      assert c in Those(s.places, Slotted);
    }
    if s.places[c].SlotFreed? {
      assert c in Those(s.places, Deep);
    }
  }

  const Queued := (p: Place) => p.TookSlot?
  const Inside := (p: Place) => p.Waiting? || p.Leaving?
  const Freed := (p: Place) => p.SlotFreed?

  lemma CountSplit(places: map<Caller, Place>, whole: Place -> bool, a: Place -> bool, b: Place -> bool)
    requires forall p :: whole(p) <==> a(p) || b(p)
    requires forall p :: !(a(p) && b(p))
    ensures Count(places, whole) == Count(places, a) + Count(places, b)
  {
    assert Those(places, whole) == Those(places, a) + Those(places, b);
    assert Those(places, a) !! Those(places, b);
  }

  /** The reported depth differs from the slots in use by the callers between taking a slot and
      raising the depth, and by those between freeing a slot and lowering the depth. So it exceeds
      the capacity exactly when the latter outnumber the former and the free slots together. */
  lemma DepthExact(l: Limits, ss: seq<State>, es: seq<Event>, n: nat)
    requires Run(l, ss, es) && n <= |es|
    ensures ss[n].depth + Count(ss[n].places, Queued) == ss[n].slots + Count(ss[n].places, Freed)
    ensures ss[n].depth > l.capacity <==>
            Count(ss[n].places, Freed) > Count(ss[n].places, Queued) + (l.capacity - ss[n].slots)
  {
    RunKeepsInv(l, ss, es, n);
    CountSplit(ss[n].places, Slotted, Queued, Inside);
    CountSplit(ss[n].places, Deep, Inside, Freed);
  }

  /** In particular by no more than the callers between the two halves of the deferred function. */
  lemma DepthExcess(l: Limits, ss: seq<State>, es: seq<Event>, n: nat)
    requires Run(l, ss, es) && n <= |es|
    ensures 0 <= ss[n].depth <= l.capacity + Count(ss[n].places, Freed)
  {
    RunKeepsInv(l, ss, es, n);
    DepthExact(l, ss, es, n);
  }

  // ----- series of steps -----

  /** The state after a series of steps, each enabled when its turn came; None otherwise. */
  function Exec(l: Limits, s: State, es: seq<Event>): Option<State> {
    if es == [] then Some(s)
    else
      match Exec(l, s, es[..|es| - 1])
      case None => None
      case Some(before) =>
        var e := es[|es| - 1];
        if Enabled(l, before, e) then Some(Apply(l, before, e)) else None
  }

  lemma {:induction false} ExecOneMore(l: Limits, s: State, es: seq<Event>, e: Event)
    requires Exec(l, s, es).Some? && Enabled(l, Exec(l, s, es).value, e)
    ensures Exec(l, s, es + [e]) == Some(Apply(l, Exec(l, s, es).value, e))
  {
    assert (es + [e])[..|es|] == es;
  }

  /** A series that can be carried out is a run. */
  lemma {:induction false} ExecIsRun(l: Limits, es: seq<Event>) returns (ss: seq<State>)
    requires Exec(l, Initial(l), es).Some?
    ensures Run(l, ss, es) && ss[|es|] == Exec(l, Initial(l), es).value
  {
    if es == [] {
      ss := [Initial(l)];
    } else {
      var n := |es| - 1;
      var before := ExecIsRun(l, es[..n]);
      ss := before + [Exec(l, Initial(l), es).value];
      forall i | 0 <= i < |es|
        ensures Enabled(l, ss[i], es[i]) && ss[i + 1] == Apply(l, ss[i], es[i])
      {
        assert i < n ==> es[..n][i] == es[i];
      }
    }
  }

  lemma {:induction false} ExecKeepsInv(l: Limits, es: seq<Event>)
    requires Exec(l, Initial(l), es).Some?
    ensures Inv(l, Exec(l, Initial(l), es).value)
  {
    var ss := ExecIsRun(l, es);
    RunKeepsInv(l, ss, es, |es|);
  }

  /** One step of a concrete run. */
  lemma {:induction false} Then(l: Limits, es: seq<Event>, s: State, e: Event, s': State)
    requires Exec(l, Initial(l), es) == Some(s) && Enabled(l, s, e) && s' == Apply(l, s, e)
    ensures Exec(l, Initial(l), es + [e]) == Some(s')
  {
    ExecOneMore(l, Initial(l), es, e);
  }

  const TIGHT := Limits(1, 1, 1)

  /** Caller 0 takes the only token. */
  lemma TakesToken() returns (es: seq<Event>, s: State)
    ensures Exec(TIGHT, Initial(TIGHT), es) == Some(s)
    ensures s == Goto(Initial(TIGHT), 0, Returned(Granted)).(tokens := 0, grants := 1)
  {
    var s0 := Initial(TIGHT);
    var s1 := Goto(s0, 0, Started);
    assert Exec(TIGHT, s0, []) == Some(s0);
    Then(TIGHT, [], s0, Arrive(0), s1);
    es := [] + [Arrive(0)] + [FastTake(0)];
    s := Goto(s0, 0, Returned(Granted)).(tokens := 0, grants := 1);
    assert Goto(s1, 0, Returned(Granted)).(tokens := 0, grants := 1) == s;
    Then(TIGHT, [] + [Arrive(0)], s1, FastTake(0), s);
  }

  /** A caller that waits in vain frees its slot. */
  lemma GivesUp(l: Limits, es: seq<Event>, s: State, c: Caller) returns (es': seq<Event>, s': State)
    requires Exec(l, Initial(l), es) == Some(s) && At(s, c, Waiting) && s.slots > 0
    ensures Exec(l, Initial(l), es') == Some(s')
    ensures s' == Goto(s, c, SlotFreed(QueueTimeout)).(slots := s.slots - 1, dropped := s.dropped + 1,
                                                       rateLimited := s.rateLimited + 1)
  {
    var s1 := Goto(s, c, Leaving(QueueTimeout)).(dropped := s.dropped + 1, rateLimited := s.rateLimited + 1);
    Then(l, es, s, WaitTimeout(c), s1);
    s' := Goto(s, c, SlotFreed(QueueTimeout)).(slots := s.slots - 1, dropped := s.dropped + 1, rateLimited := s.rateLimited + 1);
    assert Goto(s1, c, SlotFreed(QueueTimeout)).(slots := s.slots - 1) == s';
    Then(l, es + [WaitTimeout(c)], s1, FreeSlot(c), s');
    es' := es + [WaitTimeout(c)] + [FreeSlot(c)];
  }

  /** And it happens: with one token and one slot, a caller times out and frees its slot, and
      before it lowers the depth the next one takes the slot and raises it to two. */
  lemma DepthOverCapacity() returns (es: seq<Event>)
    ensures Exec(TIGHT, Initial(TIGHT), es).Some? && Exec(TIGHT, Initial(TIGHT), es).value.depth == TIGHT.capacity + 1
  {
    var s;
    es, s := TakesToken();
    var s1 := QueueUp(TIGHT, es, s, 1);
    es, s := GivesUp(TIGHT, es + [Arrive(1)] + [FastMiss(1)] + [TakeSlot(1)] + [RaiseDepth(1)], s1, 1);
    var s2 := QueueUp(TIGHT, es, s, 2);
    es := es + [Arrive(2)] + [FastMiss(2)] + [TakeSlot(2)] + [RaiseDepth(2)];
  }

  /** A caller that finds no token takes the free slot and raises the depth. */
  lemma QueueUp(l: Limits, es: seq<Event>, s: State, c: Caller) returns (s': State)
    requires Exec(l, Initial(l), es) == Some(s)
    requires s.tokens == 0 && s.slots < l.capacity && s.depth >= 0 && c !in s.places && c !in s.cancelled
    ensures s' == Goto(s, c, Waiting).(slots := s.slots + 1, depth := s.depth + 1)
    ensures Exec(l, Initial(l), es + [Arrive(c)] + [FastMiss(c)] + [TakeSlot(c)] + [RaiseDepth(c)]) == Some(s')
  {
    var s1, s2 := Goto(s, c, Started), Goto(s, c, WantSlot);
    var s3 := Goto(s, c, TookSlot).(slots := s.slots + 1);
    s' := Goto(s, c, Waiting).(slots := s.slots + 1, depth := s.depth + 1);
    Then(l, es, s, Arrive(c), s1);
    assert Goto(s1, c, WantSlot) == s2;
    Then(l, es + [Arrive(c)], s1, FastMiss(c), s2);
    assert Goto(s2, c, TookSlot).(slots := s.slots + 1) == s3;
    Then(l, es + [Arrive(c)] + [FastMiss(c)], s2, TakeSlot(c), s3);
    assert Goto(s3, c, Waiting).(depth := s.depth + 1) == s';
    Then(l, es + [Arrive(c)] + [FastMiss(c)] + [TakeSlot(c)], s3, RaiseDepth(c), s');
  }

  /** The caller whose goroutine takes the step; ticks and cancellations come from outside. */
  predicate Takes(e: Event, c: Caller) {
    !e.Tick? && !e.Cancel? && e.c == c
  }

  function StepsOf(es: seq<Event>, c: Caller): seq<Event> {
    if es == [] then []
    else StepsOf(es[..|es| - 1], c) + if Takes(es[|es| - 1], c) then [es[|es| - 1]] else []
  }

  /** The ways through acquire, step by step, with what it answers. */
  predicate AcquirePath(path: seq<Event>, c: Caller, out: Outcome) {
    || (path == [FastCancelled(c)] && out == Cancelled)
    || (path == [FastTake(c)] && out == Granted)
    || (path == [FastMiss(c), QueueFull(c)] && out == QueueTimeout)
    || path == [FastMiss(c), TakeSlot(c), RaiseDepth(c), WaitEvent(c, out), FreeSlot(c), LowerDepth(c)]
  }

  function WaitEvent(c: Caller, out: Outcome): Event {
    match out
    case Granted => WaitTake(c)
    case Cancelled => WaitCancelled(c)
    case QueueTimeout => WaitTimeout(c)
  }

  /** What a step can do depends on the state the callers share, not on the history. */
  lemma SameStep(l: Limits, a: State, b: State, e: Event)
    requires SameNow(a, b) && Enabled(l, a, e)
    ensures Enabled(l, b, e) && SameNow(Apply(l, a, e), Apply(l, b, e))
  {
  }

  /** A step that is not the caller's own leaves the caller where it is. */
  lemma OtherCaller(l: Limits, s: State, e: Event, c: Caller)
    requires Enabled(l, s, e) && !Takes(e, c)
    ensures var after := Apply(l, s, e).places;
            if c in s.places then c in after && after[c] == s.places[c] else c !in after
    ensures e.Use? ==> e.c in s.places && s.places[e.c].Returned?
    ensures Apply(l, s, e).sends == s.sends + Bit(e.Use? && s.places[e.c].out == Granted)
  {
  }

  predicate SameNow(a: State, b: State) {
    && a.tokens == b.tokens && a.slots == b.slots && a.depth == b.depth && a.dropped == b.dropped
    && a.rateLimited == b.rateLimited && a.places == b.places && a.cancelled == b.cancelled
  }

  // ----- the object -----

  /** The sender behind the limiter: who has called it, in order. It may answer anything. */
  class Wrapped {
    ghost var log: seq<Caller>

    constructor ()
      ensures log == []
    {
      log := [];
    }

    method Deliver(c: Caller) returns (ok: bool)
      modifies this
      ensures log == old(log) + [c]
    {
      ok := *;
      log := log + [c];
    }
  }

  function TimesIn(log: seq<Caller>, c: Caller): nat {
    if log == [] then 0 else TimesIn(log[..|log| - 1], c) + Bit(log[|log| - 1] == c)
  }

  lemma {:induction false} OnceMore(log: seq<Caller>, d: Caller, c: Caller)
    ensures TimesIn(log + [d], c) == TimesIn(log, c) + Bit(d == c)
  {
    assert (log + [d])[..|log|] == log;
  }

  /** The limiter itself. callers and cancelled stand for where the goroutines inside acquire are
      and whose contexts are done; the other real fields are the source's. trace is everything
      that has happened, and past the protocol state it leads to. */
  class RateLimitedSender {
    const next: Wrapped
    ghost const earlier: nat
    const limits: Limits
    const interval: nat
    var tokens: nat
    var queueSlots: nat
    var queueDepth: int
    var dropped: nat
    var rateLimited: nat
    var callers: map<Caller, Place>
    var cancelled: set<Caller>
    ghost var trace: seq<Event>
    ghost var past: State

    ghost predicate Valid()
      reads this, next
    {
      && |next.log| == earlier + past.sends
      && Exec(limits, Initial(limits), trace) == Some(past)
      && tokens == past.tokens && queueSlots == past.slots && queueDepth == past.depth
      && dropped == past.dropped && rateLimited == past.rateLimited
      && callers == past.places && cancelled == past.cancelled
    }

    constructor (next: Wrapped, rps: nat, burst: int, capacity: int, wait: int)
      requires rps > 0
      ensures this.next == next && limits == Normalize(burst, capacity, wait) && interval == Interval(rps)
      ensures limits == Limits(if burst <= 0 then 1 else burst, if capacity < 0 then 0 else capacity,
                               if wait <= 0 then 500_000_000 else wait)
      ensures Valid() && trace == [] && tokens == limits.burst && queueSlots == 0 && queueDepth == 0
    {
      var l := Normalize(burst, capacity, wait);
      this.next, limits, interval, earlier := next, l, Interval(rps), |next.log|;
      queueSlots, queueDepth, dropped, rateLimited, callers, cancelled := 0, 0, 0, 0, map[], {};
      trace, past := [], Initial(l);
      tokens := 0;
      new;
      for i := 0 to l.burst
        invariant earlier == |next.log| && this.next == next && tokens == i && limits == l && trace == [] && past == Initial(l)
        invariant queueSlots == 0 && queueDepth == 0 && dropped == 0 && rateLimited == 0 && callers == map[] && cancelled == {}
      {
        tokens := tokens + 1;
      }
    }

    /** Writes a step into the trace; c is the caller whose steps are watched. */
    ghost method Record(e: Event, c: Caller)
      requires Exec(limits, Initial(limits), trace) == Some(past) && Enabled(limits, past, e)
      modifies `trace, `past
      ensures trace == old(trace) + [e] && past == Apply(limits, old(past), e)
      ensures Exec(limits, Initial(limits), trace) == Some(past)
      ensures StepsOf(trace, c) == StepsOf(old(trace), c) + if Takes(e, c) then [e] else []
    {
      ExecOneMore(limits, Initial(limits), trace, e);
      assert (trace + [e])[..|trace|] == trace;
      trace, past := trace + [e], Apply(limits, past, e);
    }

    /** One tick of refillLoop: a full bucket drops the token. */
    method Refill()
      requires Valid()
      modifies this
      ensures Valid() && trace == old(trace) + [Tick]
      ensures tokens == if old(tokens) < limits.burst then old(tokens) + 1 else old(tokens)
      ensures queueSlots == old(queueSlots) && queueDepth == old(queueDepth) && callers == old(callers)
    {
      Record(Tick, 0);
      if tokens < limits.burst {
        tokens := tokens + 1;
      }
    }

    /** A new call of SendText or SendFile. */
    method Begin(c: Caller)
      requires Valid() && c !in callers && c !in cancelled
      modifies this
      ensures Valid() && Took(old(trace), [Arrive(c)], c) && callers == old(callers)[c := Started]
    {
      Record(Arrive(c), c);
      callers := callers[c := Started];
    }

    /** The first select of acquire; both cases may be ready, the default needs neither. */
    method FastPath(c: Caller) returns (out: Option<Outcome>, ghost e: Event)
      requires Valid() && c in callers && callers[c] == Started
      modifies this
      ensures out == match e { case FastTake(_) => Some(Granted) case FastCancelled(_) => Some(Cancelled) case _ => None }
      ensures e in {FastCancelled(c), FastTake(c), FastMiss(c)}
      ensures out.None? <==> c !in old(cancelled) && old(tokens) == 0
      ensures (out == Some(Granted) ==> old(tokens) > 0) && (out == Some(Cancelled) ==> c in old(cancelled))
      ensures tokens == old(tokens) - Bit(out == Some(Granted)) && queueSlots == old(queueSlots)
      ensures Valid() && Took(old(trace), [e], c)
      ensures c in callers && callers[c] == if out.Some? then Returned(out.value) else WantSlot
    {
      var first: bool := *;
      if c in cancelled && (first || tokens == 0) {
        out, e := Some(Cancelled), FastCancelled(c);
        Record(e, c);
        callers := callers[c := Returned(Cancelled)];
      } else if tokens > 0 {
        out, e := Some(Granted), FastTake(c);
        Record(e, c);
        tokens, callers := tokens - 1, callers[c := Returned(Granted)];
      } else {
        out, e := None, FastMiss(c);
        Record(e, c);
        callers := callers[c := WantSlot];
      }
    }

    /** The second select: a slot if there is room, else the drop. */
    method Queue(c: Caller) returns (ok: bool, ghost e: Event)
      requires Valid() && c in callers && callers[c] == WantSlot
      modifies this
      ensures queueSlots == old(queueSlots) + Bit(ok) && tokens == old(tokens)
      ensures dropped == old(dropped) + Bit(!ok) && rateLimited == old(rateLimited) + Bit(!ok)
      ensures ok == (old(queueSlots) < limits.capacity) && e == if ok then TakeSlot(c) else QueueFull(c)
      ensures Valid() && Took(old(trace), [e], c)
      ensures c in callers && callers[c] == if ok then TookSlot else Returned(QueueTimeout)
    {
      ok := queueSlots < limits.capacity;
      if ok {
        e := TakeSlot(c);
        Record(e, c);
        queueSlots, callers := queueSlots + 1, callers[c := TookSlot];
      } else {
        e := QueueFull(c);
        Record(e, c);
        dropped, rateLimited, callers := dropped + 1, rateLimited + 1, callers[c := Returned(QueueTimeout)];
      }
    }

    /** Adds delta to the depth, with a clamp at zero that never acts. */
    method UpdateQueueDepth(c: Caller, delta: int) returns (ghost e: Event)
      requires Valid() && c in callers
      requires if delta == 1 then callers[c] == TookSlot else delta == -1 && callers[c].SlotFreed?
      modifies this
      ensures e == if delta == 1 then RaiseDepth(c) else LowerDepth(c)
      ensures Valid() && Took(old(trace), [e], c)
      ensures queueDepth == old(queueDepth) + delta
      ensures c in callers && callers[c] == if delta == 1 then Waiting else Returned(old(callers)[c].out)
    {
      e := if delta == 1 then RaiseDepth(c) else LowerDepth(c);
      ExecKeepsInv(limits, trace);
      assert delta == -1 ==> c in Those(past.places, Deep);
      Record(e, c);
      queueDepth := Shift(queueDepth, delta);
      callers := callers[c := if delta == 1 then Waiting else Returned(callers[c].out)];
    }

    /** The last select: any ready case. If none is, it blocks until one is, at the latest when
        the timer fires; expired says that it has. */
    method Wait(c: Caller, expired: bool) returns (out: Outcome)
      requires Valid() && c in callers && callers[c] == Waiting
      requires c in cancelled || expired || tokens > 0
      modifies this
      ensures out == Cancelled ==> c in old(cancelled)
      ensures out == QueueTimeout ==> expired
      ensures out == Granted ==> old(tokens) > 0
      ensures tokens == old(tokens) - Bit(out == Granted) && queueSlots == old(queueSlots)
      ensures dropped == old(dropped) + Bit(out == QueueTimeout) && rateLimited == old(rateLimited) + Bit(out != Cancelled)
      ensures Valid() && Took(old(trace), [WaitEvent(c, out)], c)
      ensures c in callers && callers[c] == Leaving(out)
    {
      var first: bool, second: bool := *, *;
      if c in cancelled && (first || (!expired && tokens == 0)) {
        out := Cancelled;
      } else if expired && (second || tokens == 0) {
        out := QueueTimeout;
        dropped, rateLimited := dropped + 1, rateLimited + 1;
      } else {
        out := Granted;
        tokens, rateLimited := tokens - 1, rateLimited + 1;
      }
      Record(WaitEvent(c, out), c);
      callers := callers[c := Leaving(out)];
    }

    /** The first half of the deferred function. */
    method ReleaseSlot(c: Caller)
      requires Valid() && c in callers && callers[c].Leaving?
      modifies this
      ensures Valid() && Took(old(trace), [FreeSlot(c)], c) && queueSlots == old(queueSlots) - 1
      ensures c in callers && callers[c] == SlotFreed(old(callers)[c].out)
    {
      ExecKeepsInv(limits, trace);
      assert c in Those(past.places, Slotted);
      Record(FreeSlot(c), c);
      queueSlots, callers := queueSlots - 1, callers[c := SlotFreed(callers[c].out)];
    }

    /** How often the caller has reached the wrapped sender. */
    ghost function Sends(c: Caller): nat
      reads next
    {
      TimesIn(next.log, c)
    }

    /** The answer of acquire is used: a grant becomes one call of the wrapped sender. */
    method Finish(c: Caller) returns (ok: bool)
      requires Valid() && c in callers && callers[c].Returned?
      modifies this, next
      ensures Valid() && Took(old(trace), [Use(c)], c) && c !in callers
      ensures next.log == if old(callers)[c].out == Granted then old(next.log) + [c] else old(next.log)
      ensures Sends(c) == old(Sends(c)) + Bit(old(callers)[c].out == Granted)
    {
      ok := false;
      Record(Use(c), c);
      OnceMore(next.log, c, c);
      if callers[c].out == Granted {
        ok := next.Deliver(c);
      }
      callers, cancelled := callers - {c}, cancelled - {c};
    }

    /** Another caller whose answer is a grant reaches the wrapped sender. */
    method Pass(e: Event, c: Caller)
      requires !Takes(e, c) && (e.Use? ==> e.c in callers && callers[e.c].Returned?)
      modifies next
      ensures Sends(c) == old(Sends(c))
      ensures |next.log| == |old(next.log)| + Bit(e.Use? && callers[e.c].out == Granted)
    {
      if e.Use? && callers[e.c].out == Granted {
        OnceMore(next.log, e.c, c);
        var ok := next.Deliver(e.c);
      }
    }

    /** The fields take the values they have after a step. */
    method Become(after: State)
      modifies `tokens, `queueSlots, `queueDepth, `dropped, `rateLimited, `callers, `cancelled
      ensures tokens == after.tokens && queueSlots == after.slots && queueDepth == after.depth
      ensures dropped == after.dropped && rateLimited == after.rateLimited
      ensures callers == after.places && cancelled == after.cancelled
    {
      tokens, queueSlots, queueDepth := after.tokens, after.slots, after.depth;
      dropped, rateLimited, callers, cancelled := after.dropped, after.rateLimited, after.places, after.cancelled;
    }

    /** One step of the rest of the program, if it is ready. */
    method OtherStep(c: Caller)
      requires Valid()
      modifies this, next
      ensures Valid() && Took(old(trace), [], c) && Sends(c) == old(Sends(c))
      ensures if c in old(callers) then c in callers && callers[c] == old(callers)[c] else c !in callers
    {
      var e: Event := *;
      var now := State(tokens, queueSlots, queueDepth, dropped, rateLimited, callers, cancelled, 0, 0, 0, 0, 0);
      if Enabled(limits, now, e) && !Takes(e, c) {
        SameStep(limits, now, past, e);
        OtherCaller(limits, past, e, c);
        Record(e, c);
        Pass(e, c);
        Become(Apply(limits, now, e));
      }
    }

    /** Whatever the rest of the program does meanwhile: any number of ticks, steps of other
        callers, arrivals and cancellations, c's own context included. */
    method Others(c: Caller)
      requires Valid()
      modifies this, next
      ensures Valid() && Took(old(trace), [], c) && Sends(c) == old(Sends(c))
      ensures if c in old(callers) then c in callers && callers[c] == old(callers)[c] else c !in callers
    {
      var n: int := *;
      while 0 < n
        invariant Valid() && Took(old(trace), [], c) && Sends(c) == old(Sends(c))
        invariant if c in old(callers) then c in callers && callers[c] == old(callers)[c] else c !in callers
      {
        OtherStep(c);
        n := n - 1;
      }
    }

    /** acquire after its arrival; path is what the caller itself did. */
    method Acquire(c: Caller) returns (out: Outcome, ghost path: seq<Event>)
      requires Valid() && c in callers && callers[c] == Started
      modifies this, next
      ensures Valid() && Took(old(trace), path, c) && Sends(c) == old(Sends(c))
      ensures AcquirePath(path, c, out)
      ensures c in callers && callers[c] == Returned(out)
    {
      ghost var e1, e2;
      var fast, ok;
      fast, e1 := FastPath(c);
      if fast.Some? {
        out, path := fast.value, [e1];
        return;
      }
      Others(c);
      ok, e2 := Queue(c);
      if !ok {
        out, path := QueueTimeout, [e1, e2];
        return;
      }
      out := AwaitToken(c);
      path := [e1, e2, RaiseDepth(c), WaitEvent(c, out), FreeSlot(c), LowerDepth(c)];
    }

    /** The rest of acquire once a slot is taken: raise the depth, wait, and the deferred function. */
    method AwaitToken(c: Caller) returns (out: Outcome)
      requires Valid() && c in callers && callers[c] == TookSlot
      modifies this, next
      ensures Valid() && Took(old(trace), [RaiseDepth(c), WaitEvent(c, out), FreeSlot(c), LowerDepth(c)], c)
      ensures c in callers && callers[c] == Returned(out) && Sends(c) == old(Sends(c))
    {
      Others(c);
      ghost var e1 := UpdateQueueDepth(c, 1);
      Others(c);
      var expired: bool := *;
      out := Wait(c, expired || (c !in cancelled && tokens == 0));
      LeaveQueue(c);
    }

    /** The deferred function. */
    method LeaveQueue(c: Caller)
      requires Valid() && c in callers && callers[c].Leaving?
      modifies this, next
      ensures Valid() && Took(old(trace), [FreeSlot(c), LowerDepth(c)], c)
      ensures c in callers && callers[c] == Returned(old(callers)[c].out) && Sends(c) == old(Sends(c))
    {
      Others(c);
      ReleaseSlot(c);
      Others(c);
      ghost var e := UpdateQueueDepth(c, -1);
    }

    /** SendText and SendFile among any other callers: one way through acquire, in the source's
        order, and then the wrapped sender is called once, if the answer is a grant. */
    method Send(c: Caller) returns (out: Outcome, ok: bool, ghost path: seq<Event>)
      requires Valid() && c !in callers && c !in cancelled
      modifies this, next
      ensures Valid() && Took(old(trace), [Arrive(c)] + path + [Use(c)], c)
      ensures AcquirePath(path, c, out)
      ensures Sends(c) == old(Sends(c)) + Bit(out == Granted)
      ensures c !in callers
    {
      Begin(c);
      Others(c);
      out, path := Acquire(c);
      ok := Conclude(c);
    }

    /** After acquire. */
    method Conclude(c: Caller) returns (ok: bool)
      requires Valid() && c in callers && callers[c].Returned?
      modifies this, next
      ensures Valid() && Took(old(trace), [Use(c)], c) && c !in callers
      ensures Sends(c) == old(Sends(c)) + Bit(old(callers)[c].out == Granted)
    {
      Others(c);
      ok := Finish(c);
    }

    /** The trace has grown, by these steps of the caller and any steps of others. */
    ghost predicate Took(before: seq<Event>, path: seq<Event>, c: Caller)
      reads this
    {
      before <= trace && StepsOf(trace, c) == StepsOf(before, c) + path
    }
  }

  /** NewRateLimitedSender: null stands for the wrapped sender itself, which is what the caller
      gets without a positive rate. */
  method NewRateLimitedSender(next: Wrapped, rps: int, burst: int, capacity: int, wait: int) returns (r: RateLimitedSender?)
    ensures r == null <==> rps <= 0
    ensures r != null ==> r.next == next && fresh(r) && r.Valid() && r.trace == []
    ensures r != null ==> r.limits == Normalize(burst, capacity, wait) && r.interval == Interval(rps)
    ensures r != null ==> r.limits == Limits(if burst <= 0 then 1 else burst, if capacity < 0 then 0 else capacity,
                                             if wait <= 0 then 500_000_000 else wait)
    ensures r != null ==> r.tokens == r.limits.burst && r.interval == if rps <= 1_000_000_000 then 1_000_000_000 / rps else 1
  {
    if rps <= 0 {
      return null;
    }
    r := new RateLimitedSender(next, rps, burst, capacity, wait);
  }

  // ----- the refill interval -----

  function Interval(rps: nat): (q: nat)
    requires rps > 0
    ensures q > 0
  {
    var q := NANOS_PER_SECOND / rps;
    if q <= 0 then 1 else q
  }

  /** Rounding the interval down keeps the configured rate, exactly rps intervals a second, as
      long as the rounding loses less than one interval, and not beyond. */
  lemma RateIsExactIff(rps: nat)
    requires rps > 0
    ensures NANOS_PER_SECOND / Interval(rps) == rps <==> NANOS_PER_SECOND % rps < NANOS_PER_SECOND / rps
  {
    var n, q, r := NANOS_PER_SECOND, NANOS_PER_SECOND / rps, NANOS_PER_SECOND % rps;
    assert n == rps * q + r;
    if q > 0 {
      DivisionExactIff(n, q, rps, r);
    }
  }

  lemma DivisionExactIff(n: nat, q: nat, d: nat, r: nat)
    requires q > 0 && n == d * q + r
    ensures n / q == d <==> r < q
  {
    var j := n / q - d;
    assert n == q * (n / q) + n % q;
    assert q * j == q * (n / q) - d * q;
    Multiples(q, j);
  }

  lemma Multiples(q: int, j: int)
    requires q > 0
    ensures j >= 1 ==> q * j >= q
    ensures j <= -1 ==> q * j <= -q
  {
  }

  /** All rates up to 31622 per second qualify. */
  lemma RateIsExact(rps: nat)
    requires 0 < rps && rps * rps <= NANOS_PER_SECOND
    ensures NANOS_PER_SECOND / Interval(rps) == rps
  {
    SquareAtLeast(rps);
    QuotientAtLeast(NANOS_PER_SECOND, rps);
    RateIsExactIff(rps);
  }

  lemma QuotientAtLeast(n: nat, d: nat)
    requires 0 < d && d * d <= n
    ensures n / d >= d
  {
    var q := n / d;
    assert n == d * q + n % d;
    if q < d {
      SmallQuotient(d, q);
    }
  }

  lemma SmallQuotient(d: nat, q: nat)
    requires q < d
    ensures d * q <= d * d - d
  {
    assert d * q <= d * (d - 1);
    assert d * (d - 1) == d * d - d;
  }

  lemma SquareAtLeast(d: nat)
    ensures d * d >= d
  {
  }
}
