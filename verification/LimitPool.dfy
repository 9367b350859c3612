/**
 The calls clients and the filler thread make on a limit (damocles-worker/src/sealing/resource.rs),
 each shown to be a legal sequence of the channel operations of `Limits`.
 */
module LimitPool {
  import opened Common
  import opened Limits

  /** What a combined try_acquire does, given the state of the channels. */
  function Attempt(cfg: Config, s: State, c: nat): seq<Event> {
    if cfg.size.Some? && s.occupied >= cfg.size.value then [Refuse(c)]
    else if cfg.interval.Some? && s.tokens >= cfg.burst then [Admit(c), Balk(c), GiveBack(c)]
    else [Admit(c), Start(c)]
  }

  function RunAll(cfg: Config, s: State, events: seq<Event>): State {
    Run(cfg, s, events, |events|)
  }

  /** Unfolds a short run. */
  lemma RunOne(cfg: Config, s: State, e: Event)
    ensures RunAll(cfg, s, [e]) == Step(cfg, s, e)
    ensures Enabled(cfg, s, e) ==> Legal(cfg, s, [e])
  {
    assert Run(cfg, s, [e], 0) == s;
  }

  lemma RunTwo(cfg: Config, s: State, e: Event, f: Event)
    ensures RunAll(cfg, s, [e, f]) == Step(cfg, Step(cfg, s, e), f)
    ensures Enabled(cfg, s, e) && Enabled(cfg, Step(cfg, s, e), f) ==> Legal(cfg, s, [e, f])
  {
    var run := [e, f];
    assert Run(cfg, s, run, 0) == s;
    assert Run(cfg, s, run, 1) == Step(cfg, s, e);
  }

  lemma RunThree(cfg: Config, s: State, e: Event, f: Event, g: Event)
    ensures RunAll(cfg, s, [e, f, g]) == Step(cfg, Step(cfg, Step(cfg, s, e), f), g)
    ensures Enabled(cfg, s, e) && Enabled(cfg, Step(cfg, s, e), f) && Enabled(cfg, Step(cfg, Step(cfg, s, e), f), g) ==>
              Legal(cfg, s, [e, f, g])
  {
    var run := [e, f, g];
    assert Run(cfg, s, run, 0) == s;
    assert Run(cfg, s, run, 1) == Step(cfg, s, e);
    assert Run(cfg, s, run, 2) == Step(cfg, Step(cfg, s, e), f);
  }

  class Limit {
    const cfg: Config
    var occupied: nat
    var tokens: nat
    var dones: nat
    ghost var s: State

    ghost predicate Valid()
      reads this
    {
      && occupied == s.occupied
      && tokens == s.tokens
      && dones == s.dones
      && Counted(cfg, s)
    }

    constructor (cfg: Config)
      ensures Valid() && this.cfg == cfg && s == INITIAL
    {
      this.cfg, occupied, tokens, dones := cfg, 0, 0, 0;
      s := INITIAL;
      assert Holders(INITIAL) == {};
    }

    /** The channel operations of `events` have happened. */
    ghost predicate Did(before: State, events: seq<Event>)
      reads this
    {
      Legal(cfg, before, events) && s == RunAll(cfg, before, events)
    }

    /** Succeeds exactly when both limits have room; a request that the second limit refuses
        gives back the place it took in the first. */
    method TryAcquire(c: nat) returns (got: bool)
      requires Valid() && PhaseOf(s, c) == Idle
      modifies this
      ensures Valid() && Did(old(s), Attempt(cfg, old(s), c))
      ensures got <==> (cfg.size.Some? ==> old(occupied) < cfg.size.value)
                       && (cfg.interval.Some? ==> old(tokens) < cfg.burst)
      ensures got <==> PhaseOf(s, c) == Holding
      ensures !got ==> occupied == old(occupied) && tokens == old(tokens)
      ensures got ==> occupied == old(occupied) + One(cfg.size.Some?) && tokens == old(tokens) + One(cfg.interval.Some?)
      ensures dones == old(dones)
    {
      if cfg.size.Some? {
        if occupied >= cfg.size.value {
          RunOne(cfg, s, Refuse(c));
          s := Step(cfg, s, Refuse(c));
          return false;
        }
        occupied := occupied + 1;
      }
      StepCounted(cfg, s, Admit(c));
      ghost var before := s;
      s := Step(cfg, s, Admit(c));
      if cfg.interval.Some? {
        if tokens >= cfg.burst {
          // the concurrency token is dropped on the way out
          StepCounted(cfg, s, Balk(c));
          RunThree(cfg, before, Admit(c), Balk(c), GiveBack(c));
          s := Step(cfg, s, Balk(c));
          StepCounted(cfg, s, GiveBack(c));
          s := Step(cfg, s, GiveBack(c));
          if cfg.size.Some? {
            occupied := occupied - 1;
          }
          return false;
        }
        tokens := tokens + 1;
      }
      StepCounted(cfg, s, Start(c));
      RunTwo(cfg, before, Admit(c), Start(c));
      s := Step(cfg, s, Start(c));
      return true;
    }

    /** Drops a token: the concurrency half first, then the report of work done. */
    method Drop(c: nat)
      requires Valid() && PhaseOf(s, c) == Holding
      modifies this
      ensures Valid() && Did(old(s), [GiveBack(c), Finish(c)])
      ensures PhaseOf(s, c) == Idle && tokens == old(tokens)
      ensures occupied == if cfg.size.Some? then old(occupied) - 1 else old(occupied)
      ensures dones == if cfg.interval.Some? && old(dones) < cfg.burst then old(dones) + 1 else old(dones)
    {
      assert c in Holders(s);
      StepCounted(cfg, s, GiveBack(c));
      RunTwo(cfg, s, GiveBack(c), Finish(c));
      s := Step(cfg, s, GiveBack(c));
      if cfg.size.Some? {
        occupied := occupied - 1;
      }
      StepCounted(cfg, s, Finish(c));
      s := Step(cfg, s, Finish(c));
      if cfg.interval.Some? && dones < cfg.burst {
        dones := dones + 1;
      }
    }

    /** One turn of the filler: it waits for a finished task or the interval, then takes one
        token out, if there is one. */
    method Refill(timedOut: bool)
      requires Valid() && cfg.interval.Some?
      requires if timedOut then s.waiting + cfg.interval.value <= s.now else dones > 0
      modifies this
      ensures Valid() && Did(old(s), [if timedOut then Timeout else TakeDone])
      ensures tokens == if old(tokens) > 0 then old(tokens) - 1 else 0
      ensures dones == old(dones) - One(!timedOut) && occupied == old(occupied)
    {
      ghost var e := if timedOut then Timeout else TakeDone;
      StepCounted(cfg, s, e);
      RunOne(cfg, s, e);
      s := Step(cfg, s, e);
      if !timedOut {
        dones := dones - 1;
      }
      if tokens > 0 {
        tokens := tokens - 1;
      }
    }
  }
}
