/**
 Resource limits of the worker (damocles-worker/src/sealing/resource.rs).

 A limit combines a bounded channel that counts the tokens out (concurrency) with one that
 a filler thread empties at most once per interval, or when a task is done (staggering).
 Clients, the filler and the clock interleave freely; one event is one channel operation.
 */
module Limits {
  import opened Common

  /** `size` is the concurrency limit; `interval` the staggering interval, with `burst` starts at a time. */
  datatype Config = Config(size: Option<nat>, interval: Option<nat>, burst: nat)

  /** How far a client's token is: through the concurrency limit, in use, given back to the
      concurrency limit but not yet reported done, or refused by the staggering limit and
      about to give the first half back. */
  datatype Phase = Idle | Admitted | Holding | Leaving | Backing

  /** `occupied`, `tokens` and `dones` are the lengths of the three channels; `waiting` is when
      the filler began to wait.  The last four count events of the past. */
  datatype State = State(phases: map<nat, Phase>, occupied: nat, tokens: nat, dones: nat, now: nat, waiting: nat,
                         starts: nat, timeouts: nat, taken: nat, drops: nat)

  datatype Event =
    | Admit(c: nat)
    | Refuse(c: nat)
    | Start(c: nat)
    | Balk(c: nat)
    | GiveBack(c: nat)
    | Finish(c: nat)
    | Tick(dt: nat)
    | Timeout
    | TakeDone

  const INITIAL := State(map[], 0, 0, 0, 0, 0, 0, 0, 0, 0)

  function PhaseOf(s: State, c: nat): Phase {
    if c in s.phases then s.phases[c] else Idle
  }

  /** The event can happen now: a send completes only below the channel's capacity, a receive
      only when something is there, and the filler times out only after the interval. */
  predicate Enabled(cfg: Config, s: State, e: Event) {
    match e
    case Admit(c) => PhaseOf(s, c) == Idle && (cfg.size.Some? ==> s.occupied < cfg.size.value)
    case Refuse(c) => PhaseOf(s, c) == Idle && cfg.size.Some? && s.occupied >= cfg.size.value
    case Start(c) => PhaseOf(s, c) == Admitted && (cfg.interval.Some? ==> s.tokens < cfg.burst)
    case Balk(c) => PhaseOf(s, c) == Admitted && cfg.interval.Some? && s.tokens >= cfg.burst
    case GiveBack(c) => PhaseOf(s, c) in {Holding, Backing} && (cfg.size.Some? ==> s.occupied > 0)
    case Finish(c) => PhaseOf(s, c) == Leaving
    case Tick(_) => true
    case Timeout => cfg.interval.Some? && s.waiting + cfg.interval.value <= s.now
    case TakeDone => cfg.interval.Some? && s.dones > 0
  }

  function Minus1(n: nat): nat {
    if n > 0 then n - 1 else 0
  }

  function Step(cfg: Config, s: State, e: Event): State {
    match e
    case Admit(c) =>
      s.(phases := s.phases[c := Admitted], occupied := if cfg.size.Some? then s.occupied + 1 else s.occupied)
    case Refuse(_) => s
    case Start(c) =>
      if cfg.interval.Some? then s.(phases := s.phases[c := Holding], tokens := s.tokens + 1, starts := s.starts + 1)
      else s.(phases := s.phases[c := Holding])
    case Balk(c) => s.(phases := s.phases[c := Backing])
    case GiveBack(c) =>
      s.(phases := s.phases[c := if PhaseOf(s, c) == Holding then Leaving else Idle],
         occupied := if cfg.size.Some? then Minus1(s.occupied) else s.occupied)
    case Finish(c) =>
      if cfg.interval.Some? then
        s.(phases := s.phases[c := Idle], drops := s.drops + 1,
           dones := if s.dones < cfg.burst then s.dones + 1 else s.dones)
      else s.(phases := s.phases[c := Idle])
    case Tick(dt) => s.(now := s.now + dt)
    case Timeout => s.(tokens := Minus1(s.tokens), waiting := s.now, timeouts := s.timeouts + 1)
    case TakeDone => s.(tokens := Minus1(s.tokens), waiting := s.now, taken := s.taken + 1, dones := Minus1(s.dones))
  }

  function Run(cfg: Config, start: State, events: seq<Event>, n: nat): State
    requires n <= |events|
  {
    if n == 0 then start else Step(cfg, Run(cfg, start, events, n - 1), events[n - 1])
  }

  /** Every event of the run could happen when it did. */
  ghost predicate Legal(cfg: Config, start: State, events: seq<Event>) {
    forall i :: 0 <= i < |events| ==> EnabledAt(cfg, start, events, i)
  }

  ghost predicate EnabledAt(cfg: Config, start: State, events: seq<Event>, i: nat)
    requires i < |events|
  {
    Enabled(cfg, Run(cfg, start, events, i), events[i])
  }

  // ---------------------------------------------------------------------------
  // The concurrency limit

  /** The client has taken a place in the concurrency channel. */
  predicate Places(p: Phase) {
    p in {Admitted, Holding, Backing}
  }

  /** The clients with a live concurrency token. */
  function Holders(s: State): set<nat> {
    set c | c in s.phases && Places(s.phases[c])
  }

  ghost predicate Counted(cfg: Config, s: State) {
    cfg.size.Some? ==> s.occupied == |Holders(s)| <= cfg.size.value
  }

  /** The holders other than `c` do not depend on `c`. */
  lemma HoldersBut(s: State, c: nat, p: Phase)
    ensures Holders(s.(phases := s.phases[c := p])) - {c} == Holders(s) - {c}
  {
  }

  lemma CountBut(xs: set<nat>, c: nat)
    ensures |xs| == |xs - {c}| + if c in xs then 1 else 0
  {
    if c in xs {
      assert xs == xs - {c} + {c};
    } else {
      assert xs == xs - {c};
    }
  }

  /** One client moving changes the number of holders by that client alone. */
  lemma HoldersMove(s: State, c: nat, p: Phase)
    ensures |Holders(s.(phases := s.phases[c := p]))| == |Holders(s)| - One(Places(PhaseOf(s, c))) + One(Places(p))
  {
    HoldersBut(s, c, p);
    CountBut(Holders(s), c);
    CountBut(Holders(s.(phases := s.phases[c := p])), c);
  }

  lemma StepCounted(cfg: Config, s: State, e: Event)
    requires Counted(cfg, s) && Enabled(cfg, s, e)
    ensures Counted(cfg, Step(cfg, s, e))
  {
    match e
    case Admit(c) => HoldersMove(s, c, Admitted);
    case Start(c) => HoldersMove(s, c, Holding);
    case Balk(c) => HoldersMove(s, c, Backing);
    case GiveBack(c) => HoldersMove(s, c, if PhaseOf(s, c) == Holding then Leaving else Idle);
    case Finish(c) => HoldersMove(s, c, Idle);
    case _ =>
  }

  /** In every interleaving the concurrency channel holds one entry per live token, within its size. */
  lemma {:induction false} OccupancyIsLiveTokens(cfg: Config, events: seq<Event>, n: nat)
    requires n <= |events| && Legal(cfg, INITIAL, events)
    ensures Counted(cfg, Run(cfg, INITIAL, events, n))
  {
    if n > 0 {
      OccupancyIsLiveTokens(cfg, events, n - 1);
      assert EnabledAt(cfg, INITIAL, events, n - 1);
      StepCounted(cfg, Run(cfg, INITIAL, events, n - 1), events[n - 1]);
    } else {
      assert Holders(INITIAL) == {};
    }
  }

  /** Dropping a token never blocks: whoever holds one finds an entry to receive. */
  lemma DropNeverBlocks(cfg: Config, events: seq<Event>, c: nat)
    requires Legal(cfg, INITIAL, events)
    requires PhaseOf(Run(cfg, INITIAL, events, |events|), c) in {Holding, Backing}
    ensures Enabled(cfg, Run(cfg, INITIAL, events, |events|), GiveBack(c))
  {
    var s := Run(cfg, INITIAL, events, |events|);
    OccupancyIsLiveTokens(cfg, events, |events|);
    assert c in Holders(s);
  }

  /** When nobody holds a token, all places are free: refused requests leave nothing behind. */
  lemma NothingLeaks(cfg: Config, events: seq<Event>)
    requires Legal(cfg, INITIAL, events)
    requires forall c :: !Places(PhaseOf(Run(cfg, INITIAL, events, |events|), c))
    ensures cfg.size.Some? ==> Run(cfg, INITIAL, events, |events|).occupied == 0
  {
    var s := Run(cfg, INITIAL, events, |events|);
    OccupancyIsLiveTokens(cfg, events, |events|);
    assert forall c :: c in Holders(s) ==> Places(PhaseOf(s, c));
    assert Holders(s) == {};
  }

  // ---------------------------------------------------------------------------
  // The staggering limit

  /** Between two moments: starts are paid for by free tokens, timeouts and tasks done, and
      tasks done come from drops. */
  ghost predicate Paid(cfg: Config, a: State, b: State) {
    && b.tokens <= cfg.burst
    && b.starts - a.starts <= b.tokens - a.tokens + (b.timeouts - a.timeouts) + (b.taken - a.taken)
    && b.taken + b.dones - a.taken - a.dones <= b.drops - a.drops
  }

  /** Timeouts are an interval apart. */
  ghost predicate Spaced(i: nat, a: State, b: State) {
    && a.now <= b.now
    && a.waiting <= b.waiting <= b.now
    && a.timeouts <= b.timeouts
    && (b.timeouts - a.timeouts) * i <= b.waiting - a.waiting
    && (a.timeouts < b.timeouts ==> (b.timeouts - a.timeouts - 1) * i <= b.waiting - a.now)
  }

  ghost predicate Paced(cfg: Config, a: State, b: State) {
    Paid(cfg, a, b) && (cfg.interval.Some? ==> Spaced(cfg.interval.value, a, b))
  }

  lemma StepSpaced(cfg: Config, a: State, b: State, e: Event)
    requires cfg.interval.Some? && Spaced(cfg.interval.value, a, b) && Enabled(cfg, b, e)
    ensures Spaced(cfg.interval.value, a, Step(cfg, b, e))
  {
    var n, i := b.timeouts - a.timeouts, cfg.interval.value;
    assert (n + 1) * i == n * i + i;
    assert (n - 1) * i == n * i - i;
  }

  lemma StepPaced(cfg: Config, a: State, b: State, e: Event)
    requires Paced(cfg, a, b) && Enabled(cfg, b, e)
    ensures Paced(cfg, a, Step(cfg, b, e))
  {
    if cfg.interval.Some? {
      StepSpaced(cfg, a, b, e);
    }
  }

  lemma {:induction false} PacedBetween(cfg: Config, events: seq<Event>, m: nat, n: nat)
    requires m <= n <= |events| && Legal(cfg, INITIAL, events)
    ensures Paced(cfg, Run(cfg, INITIAL, events, m), Run(cfg, INITIAL, events, n))
  {
    if m < n {
      PacedBetween(cfg, events, m, n - 1);
      assert EnabledAt(cfg, INITIAL, events, n - 1);
      StepPaced(cfg, Run(cfg, INITIAL, events, m), Run(cfg, INITIAL, events, n - 1), events[n - 1]);
    } else if n > 0 {
      PacedBetween(cfg, events, 0, n - 1);
      assert EnabledAt(cfg, INITIAL, events, n - 1);
      StepPaced(cfg, Run(cfg, INITIAL, events, 0), Run(cfg, INITIAL, events, n - 1), events[n - 1]);
    }
  }

  /** Starts up to any moment `t` are at most burst + floor(t / interval) + drops so far. */
  lemma StaggeredStarts(cfg: Config, events: seq<Event>)
    requires Legal(cfg, INITIAL, events) && cfg.interval.Some? && cfg.interval.value > 0
    ensures var s := Run(cfg, INITIAL, events, |events|);
            s.starts <= cfg.burst + s.now / cfg.interval.value + s.drops
  {
    var s := Run(cfg, INITIAL, events, |events|);
    PacedBetween(cfg, events, 0, |events|);
    Fits(s.timeouts, cfg.interval.value, s.now);
  }

  /** Over any stretch of any run, from `a` to `b`, starts are at most burst + 1 + floor(length /
      interval) + drops and tasks reported done: idle intervals cannot be saved up. */
  lemma StaggeredStretch(cfg: Config, events: seq<Event>, m: nat)
    requires m <= |events| && Legal(cfg, INITIAL, events) && cfg.interval.Some? && cfg.interval.value > 0
    ensures var a, b := Run(cfg, INITIAL, events, m), Run(cfg, INITIAL, events, |events|);
            b.now >= a.now &&
            b.starts - a.starts <= cfg.burst + 1 + (b.now - a.now) / cfg.interval.value + (b.drops - a.drops) + a.dones
  {
    PacedBetween(cfg, events, m, |events|);
    StretchBound(cfg, Run(cfg, INITIAL, events, m), Run(cfg, INITIAL, events, |events|));
  }

  lemma TimeoutsBound(i: nat, a: State, b: State)
    requires i > 0 && Spaced(i, a, b)
    ensures b.timeouts - a.timeouts <= 1 + (b.now - a.now) / i
  {
    if a.timeouts < b.timeouts {
      Fits(b.timeouts - a.timeouts - 1, i, b.now - a.now);
    } else {
      Fits(0, i, b.now - a.now);
    }
  }

  lemma StretchBound(cfg: Config, a: State, b: State)
    requires cfg.interval.Some? && cfg.interval.value > 0 && Paced(cfg, a, b)
    ensures b.starts - a.starts <= cfg.burst + 1 + (b.now - a.now) / cfg.interval.value + (b.drops - a.drops) + a.dones
  {
    TimeoutsBound(cfg.interval.value, a, b);
  }

  lemma Fits(n: nat, i: nat, t: nat)
    requires i > 0 && n * i <= t
    ensures n <= t / i
  {
    var q := t / i;
    assert t < q * i + i;
    assert (q + 1) * i == q * i + i;
    if q + 1 <= n {
      MulMonotone(q + 1, n, i);
    }
  }

  // ---------------------------------------------------------------------------
  // What the channels hold, exactly

  /** The filler finds a token to take out. */
  ghost predicate Refills(s: State, e: Event) {
    (e.Timeout? || e.TakeDone?) && s.tokens > 0
  }

  /** A finished task finds room for its report. */
  ghost predicate Reported(cfg: Config, s: State, e: Event) {
    e.Finish? && s.dones < cfg.burst
  }

  /** How often the filler took a token out, and how often a report found room. */
  ghost function Refilled(cfg: Config, events: seq<Event>, n: nat): nat
    requires n <= |events|
  {
    if n == 0 then 0
    else Refilled(cfg, events, n - 1) + One(Refills(Run(cfg, INITIAL, events, n - 1), events[n - 1]))
  }

  ghost function Reports(cfg: Config, events: seq<Event>, n: nat): nat
    requires n <= |events|
  {
    if n == 0 then 0
    else Reports(cfg, events, n - 1) + One(Reported(cfg, Run(cfg, INITIAL, events, n - 1), events[n - 1]))
  }

  /** How many of the first `n` events are starts, taken reports, finishes and timeouts. */
  ghost function Happened(events: seq<Event>, n: nat): (r: (nat, nat, nat, nat))
    requires n <= |events|
  {
    if n == 0 then (0, 0, 0, 0)
    else
      var before, e := Happened(events, n - 1), events[n - 1];
      (before.0 + One(e.Start?), before.1 + One(e.TakeDone?), before.2 + One(e.Finish?), before.3 + One(e.Timeout?))
  }

  /** A staggering limit holds a token for every start that no refill has taken out, and a report for
      every finished task that found room and was not taken; its counters count what happened. */
  ghost predicate Ledger(cfg: Config, events: seq<Event>, n: nat)
    requires n <= |events|
  {
    var s, h := Run(cfg, INITIAL, events, n), Happened(events, n);
    && s.tokens + Refilled(cfg, events, n) == s.starts
    && s.dones + s.taken == Reports(cfg, events, n)
    && (s.starts, s.taken, s.drops, s.timeouts) == h
  }

  /** What one event adds to the channels and counters. */
  lemma StepAdds(cfg: Config, s: State, e: Event)
    requires Enabled(cfg, s, e) && cfg.interval.Some?
    ensures var n := Step(cfg, s, e);
            && n.tokens - s.tokens == One(e.Start?) - One(Refills(s, e))
            && n.dones - s.dones == One(Reported(cfg, s, e)) - One(e.TakeDone?)
            && n.starts == s.starts + One(e.Start?) && n.taken == s.taken + One(e.TakeDone?)
            && n.drops == s.drops + One(e.Finish?) && n.timeouts == s.timeouts + One(e.Timeout?)
  {
  }

  lemma LedgerNext(cfg: Config, events: seq<Event>, n: nat)
    requires n < |events| && EnabledAt(cfg, INITIAL, events, n) && cfg.interval.Some?
    ensures Ledger(cfg, events, n) ==> Ledger(cfg, events, n + 1)
  {
    var s := Run(cfg, INITIAL, events, n);
    assert Run(cfg, INITIAL, events, n + 1) == Step(cfg, s, events[n]);
    StepAdds(cfg, s, events[n]);
  }

  lemma {:induction false} ChannelsAre(cfg: Config, events: seq<Event>, n: nat)
    requires n <= |events| && Legal(cfg, INITIAL, events) && cfg.interval.Some?
    ensures Ledger(cfg, events, n)
  {
    if n > 0 {
      ChannelsAre(cfg, events, n - 1);
      assert EnabledAt(cfg, INITIAL, events, n - 1);
      LedgerNext(cfg, events, n - 1);
    }
  }

  /** A finished task lets the filler take a token out at once, without waiting for the interval: an
      admitted client that found no token left can start. */
  lemma DoneLetsStart(cfg: Config, s: State, c: nat, d: nat)
    requires cfg.interval.Some? && cfg.burst > 0 && s.tokens <= cfg.burst && c != d
    requires Enabled(cfg, s, Finish(c)) && PhaseOf(s, d) == Admitted
    ensures var done := Step(cfg, s, Finish(c));
            && Enabled(cfg, done, TakeDone)
            && Enabled(cfg, Step(cfg, done, TakeDone), Start(d))
  {
  }

  lemma WaitingGrows(cfg: Config, events: seq<Event>, m: nat, n: nat)
    requires m <= n <= |events| && Legal(cfg, INITIAL, events) && cfg.interval.Some?
    ensures Run(cfg, INITIAL, events, m).waiting <= Run(cfg, INITIAL, events, n).waiting
  {
    PacedBetween(cfg, events, m, n);
  }

  /** The filler takes a token out on its own only when it has waited a whole interval since its last
      turn, whether that was for a finished task or not. */
  lemma TimeoutAfterTurn(cfg: Config, events: seq<Event>, i: nat, j: nat)
    requires i < j < |events| && Legal(cfg, INITIAL, events) && cfg.interval.Some?
    requires (events[i].Timeout? || events[i].TakeDone?) && events[j].Timeout?
    ensures Run(cfg, INITIAL, events, i).now + cfg.interval.value <= Run(cfg, INITIAL, events, j).now
  {
    assert EnabledAt(cfg, INITIAL, events, j);
    assert Run(cfg, INITIAL, events, i + 1).waiting == Run(cfg, INITIAL, events, i).now;
    WaitingGrows(cfg, events, i + 1, j);
  }
}
