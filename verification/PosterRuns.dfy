/**
 Runs of the PoSter: sequences of head changes from the empty runner map.
 */
module PosterRuns {
  import opened Common
  import opened Deadline
  import opened Poster

  /** A run: the head changes and the runner maps before, between and after them. */
  datatype Run = Run(heads: seq<HeadChange>, maps: seq<Schedulers>)

  /** The run starts without runners, each map follows from the one before, and fetched
      deadlines are keyed by their opening, as Fetch makes them. */
  ghost predicate Legal(run: Run) {
    && |run.maps| == |run.heads| + 1
    && run.maps[0] == map[]
    && forall i :: 0 <= i < |run.heads| ==> Steps(run, i)
  }

  ghost predicate Steps(run: Run, i: nat)
    requires i < |run.heads| && |run.maps| == |run.heads| + 1
  {
    Keyed(run.heads[i].dinfos) && run.maps[i + 1] == NextSchedulers(run.maps[i], run.heads[i], i)
  }

  /** Every sequence of head changes has its run. */
  lemma {:induction false} RunExists(heads: seq<HeadChange>) returns (run: Run)
    requires forall i :: 0 <= i < |heads| ==> Keyed(heads[i].dinfos)
    ensures Legal(run) && run.heads == heads
  {
    if heads == [] {
      run := Run([], [map[]]);
    } else {
      var n := |heads| - 1;
      var before := RunExists(heads[..n]);
      run := Run(heads, before.maps + [NextSchedulers(before.maps[n], heads[n], n)]);
      forall i | 0 <= i <= n ensures Steps(run, i) {
        assert i < n ==> Steps(before, i);
      }
    }
  }

  /** Head change `i` of the run makes call `c`. */
  ghost predicate CalledAt(run: Run, i: nat, c: Call)
    requires i < |run.heads| < |run.maps|
  {
    Called(run.maps[i], run.heads[i], i, c)
  }

  /** Head change `i` builds `r`. */
  ghost predicate BuiltAt(run: Run, i: nat, r: Runner)
    requires i < |run.heads| < |run.maps|
  {
    Builds(run.maps[i], run.heads[i], i, r)
  }

  /** One of the first `n` head changes built `r`. */
  ghost predicate EverBuilt(run: Run, n: nat, r: Runner)
    requires n <= |run.heads| < |run.maps|
  {
    r.born < n && BuiltAt(run, r.born, r)
  }

  /** How often the first `n` head changes abort `r`. */
  ghost function Aborts(run: Run, n: nat, r: Runner): nat
    requires n <= |run.heads| < |run.maps|
  {
    if n == 0 then 0 else Aborts(run, n - 1, r) + One(CalledAt(run, n - 1, Abort(r)))
  }

  // ---------------------------------------------------------------------------
  // One head change

  /** A runner is in the map after a head change exactly when it was there and
      not aborted, or was just built. */
  lemma InMapNext(s: Schedulers, hc: HeadChange, born: nat, r: Runner)
    requires Filed(s) && Keyed(hc.dinfos)
    ensures InMap(NextSchedulers(s, hc, born), r) <==>
              (InMap(s, r) && !ShouldAbort(r.dinfo, hc.revert, hc.height)) || Builds(s, hc, born, r)
  {
    var m, o := r.miner, r.dinfo.open;
    var made := Fresh(s, hc, m, born);
    var next: Schedulers := NextSchedulers(s, hc, born);
    assert m in next <==> m in s || made != map[];
    if m in next {
      assert next[m] == Survivors(Existing(s, m), hc) + made;
      assert o in made ==> o !in Survivors(Existing(s, m), hc);
    }
  }

  // ---------------------------------------------------------------------------
  // Every run, reverts included

  lemma {:induction false} RunFiled(run: Run, n: nat)
    requires Legal(run) && n <= |run.heads|
    ensures Filed(run.maps[n])
  {
    if n > 0 {
      RunFiled(run, n - 1);
      assert Steps(run, n - 1);
      NextFiled(run.maps[n - 1], run.heads[n - 1], n - 1);
    }
  }

  /** One head change: what is held or built is then held or aborted, not both. */
  lemma FateStep(s: Schedulers, hc: HeadChange, born: nat, r: Runner)
    requires Filed(s) && Keyed(hc.dinfos)
    ensures One(Called(s, hc, born, Abort(r))) + One(InMap(NextSchedulers(s, hc, born), r))
         == One(InMap(s, r)) + One(Builds(s, hc, born, r))
    ensures Builds(s, hc, born, r) ==> r.born == born
  {
    InMapNext(s, hc, born, r);
  }

  /** Conservation: a runner that was ever built is in the map or was aborted,
      exactly one of the two and at most once; nothing else is ever aborted or held. */
  lemma {:induction false} RunnerFate(run: Run, n: nat, r: Runner)
    requires Legal(run) && n <= |run.heads|
    ensures Aborts(run, n, r) + One(InMap(run.maps[n], r)) == One(EverBuilt(run, n, r))
  {
    if n > 0 {
      RunnerFate(run, n - 1, r);
      FateAt(run, n - 1, r);
    }
  }

  lemma FateAt(run: Run, i: nat, r: Runner)
    requires Legal(run) && i < |run.heads|
    ensures One(CalledAt(run, i, Abort(r))) + One(InMap(run.maps[i + 1], r))
         == One(InMap(run.maps[i], r)) + One(BuiltAt(run, i, r))
    ensures One(EverBuilt(run, i + 1, r)) == One(EverBuilt(run, i, r)) + One(BuiltAt(run, i, r))
    ensures BuiltAt(run, i, r) ==> r.born == i
  {
    RunFiled(run, i);
    assert Steps(run, i);
    FateStep(run.maps[i], run.heads[i], i, r);
  }

  lemma {:induction false} AbortsGrow(run: Run, i: nat, n: nat, r: Runner)
    requires i < n <= |run.heads| < |run.maps|
    requires CalledAt(run, i, Abort(r))
    ensures Aborts(run, n, r) >= 1
  {
    if n > i + 1 {
      AbortsGrow(run, i, n - 1, r);
    }
  }

  /** Every call is made on a runner that was built, at that head change or before, and is in
      the map or just built. */
  lemma CallsOnBuiltRunners(run: Run, i: nat, c: Call)
    requires Legal(run) && i < |run.heads|
    requires CalledAt(run, i, c)
    ensures InMap(run.maps[i], c.runner) || BuiltAt(run, i, c.runner)
    ensures EverBuilt(run, i + 1, c.runner)
  {
    RunnerFate(run, i, c.runner);
    FateAt(run, i, c.runner);
  }

  /** An aborted runner is never called again. */
  lemma NoCallAfterAbort(run: Run, i: nat, j: nat, c: Call)
    requires Legal(run) && i < j < |run.heads|
    requires CalledAt(run, i, Abort(c.runner))
    ensures !CalledAt(run, j, c)
  {
    AbortsGrow(run, i, j, c.runner);
    RunnerFate(run, j, c.runner);
    RunnerFate(run, j + 1, c.runner);
    FateAt(run, j, c.runner);
    if CalledAt(run, j, c) {
      CallsOnBuiltRunners(run, j, c);
    }
  }

  /** No runner that was there before a head change survives it at or past its
      close, or after a revert below its challenge. */
  lemma NoStaleSurvivor(run: Run, i: nat, r: Runner)
    requires Legal(run) && i < |run.heads|
    requires InMap(run.maps[i], r)
    requires run.heads[i].height >= r.dinfo.close
             || (run.heads[i].revert.Some? && run.heads[i].revert.value < r.dinfo.challenge)
    ensures !InMap(run.maps[i + 1], r)
    ensures CalledAt(run, i, Abort(r))
  {
    RunnerFate(run, i, r);
    FateAt(run, i, r);
    RunnerFate(run, i + 1, r);
  }

  /** `h` has reached `epoch` plus the confidence, zero meaning the default. */
  ghost predicate Confident(h: int, epoch: int, confidence: nat, default: nat) {
    h >= epoch + if confidence == 0 then default else confidence
  }

  /** A config that lets its miner's runner start at this head change. */
  ghost predicate Starts(cfg: PoStConfig, hc: HeadChange, d: Info) {
    cfg.enabled && Confident(hc.height, d.challenge, cfg.challengeConfidence, DEFAULT_CHALLENGE_CONFIDENCE)
  }

  /** Over every run, starts fall on [challenge + confidence, close) and submits on
      [open + confidence, close), with the confidence of the runner's own miner: the config
      found during cleanup or, for a start of a new runner only, the one found afterwards. */
  lemma CallsInsideWindows(run: Run, i: nat, c: Call)
    requires Legal(run) && i < |run.heads|
    requires CalledAt(run, i, c)
    ensures var hc, d, m := run.heads[i], c.runner.dinfo, c.runner.miner;
            && (!c.Abort? ==> d.challenge <= hc.height < d.close)
            && (c.Start? ==>
                  || (m in hc.cfg && Starts(hc.cfg[m], hc, d))
                  || (m in hc.lateCfg && BuiltAt(run, i, c.runner) && Starts(hc.lateCfg[m], hc, d)))
            && (c.Submit? ==>
                  && InMap(run.maps[i], c.runner)
                  && m in hc.cfg
                  && Confident(hc.height, d.open, hc.cfg[m].submitConfidence, DEFAULT_SUBMIT_CONFIDENCE))
  {
  }

  /** A runner that is still held is aborted, started and submitted exactly when the heights
      and the config of its own miner say so. */
  lemma HeldRunnerIsDriven(run: Run, i: nat, r: Runner)
    requires Legal(run) && i < |run.heads| && InMap(run.maps[i], r)
    ensures var hc, d, m := run.heads[i], r.dinfo, r.miner;
            var gone := hc.height >= d.close || (hc.revert.Some? && hc.revert.value < d.challenge);
            && (CalledAt(run, i, Abort(r)) <==> gone)
            && (CalledAt(run, i, Start(r)) <==>
                  !gone && d.challenge <= hc.height && m in hc.cfg && Starts(hc.cfg[m], hc, d))
            && (CalledAt(run, i, Submit(r)) <==>
                  !gone && d.challenge <= hc.height && m in hc.cfg
                  && Confident(hc.height, d.open, hc.cfg[m].submitConfidence, DEFAULT_SUBMIT_CONFIDENCE))
  {
    RunnerFate(run, i, r);
    FateAt(run, i, r);
  }

  /** The config for starting a new runner: the one the first pass found, if the miner had runners
      then and has a config, else a later lookup. */
  ghost predicate CreatesWith(s: Schedulers, hc: HeadChange, m: Miner, cfg: PoStConfig) {
    if m in s && m in hc.cfg then cfg == hc.cfg[m] else m in hc.lateCfg && cfg == hc.lateCfg[m]
  }

  /** A runner is built exactly for a fetched deadline that no runner, aborted or not, was held for,
      if the miner's address, info and config are available. */
  lemma BuiltIff(run: Run, i: nat, r: Runner)
    requires Legal(run) && i < |run.heads|
    ensures var hc, s, m := run.heads[i], run.maps[i], r.miner;
            BuiltAt(run, i, r) <==>
              && r.born == i
              && m in hc.dinfos && r.dinfo.open in hc.dinfos[m] && hc.dinfos[m][r.dinfo.open] == r.dinfo
              && !(m in s && r.dinfo.open in s[m])
              && m in hc.known && exists cfg :: CreatesWith(s, hc, m, cfg)
  {
    var hc, s, m := run.heads[i], run.maps[i], r.miner;
    if m in s && m in hc.cfg {
      assert CreatesWith(s, hc, m, hc.cfg[m]);
    } else if m in hc.lateCfg {
      assert CreatesWith(s, hc, m, hc.lateCfg[m]);
    }
  }

  /** The runner it builds is started in the same head change exactly when the heights and that config
      say so, and neither submitted nor aborted. */
  lemma BuiltRunnerIsStarted(run: Run, i: nat, r: Runner, cfg: PoStConfig)
    requires Legal(run) && i < |run.heads| && BuiltAt(run, i, r) && CreatesWith(run.maps[i], run.heads[i], r.miner, cfg)
    ensures var hc, d := run.heads[i], r.dinfo;
            && (CalledAt(run, i, Start(r)) <==> d.challenge <= hc.height < d.close && Starts(cfg, hc, d))
            && !CalledAt(run, i, Submit(r)) && !CalledAt(run, i, Abort(r))
  {
    assert !InMap(run.maps[i], r);
  }

  // ---------------------------------------------------------------------------
  // The map against the active windows

  /** Every service answers for `mid` at this head change, and the chain reports
      the deadline of its schedule that is open at the new height. */
  ghost predicate Fetched(s: Schedulers, hc: HeadChange, mid: Miner, g: Geometry, dl: Info)
    requires Sane(g)
  {
    && WellFormed(dl)
    && dl.challengeWindow == g.window && dl.challengeLookback == g.lookback
    && Opens(g, dl.open)
    && dl.open <= hc.height < dl.close
    && mid in hc.dinfos && hc.dinfos[mid] == Fetch(dl, hc.height)
    && mid in hc.known
    && CreationConfig(s, hc, mid).Some?
  }

  ghost predicate AllOnSchedule(g: Geometry, scheds: Scheds)
    requires Sane(g)
  {
    forall o :: o in scheds ==> scheds[o].dinfo.open == o && OnSchedule(g, scheds[o].dinfo)
  }

  /** The fetch keeps exactly the deadlines active at the height. */
  lemma FetchIsActiveWindows(g: Geometry, dl: Info, h: int)
    requires Sane(g) && WellFormed(dl)
    requires dl.challengeWindow == g.window && dl.challengeLookback == g.lookback && Opens(g, dl.open)
    requires dl.open <= h < dl.close
    ensures Fetch(dl, h).Keys == ActiveOpens(g, h)
    ensures forall o :: o in Fetch(dl, h) ==> OnSchedule(g, Fetch(dl, h)[o])
  {
    NextKeepsSchedule(dl);
    ShiftedResidue(dl.open, g.anchor, g.window);
    ActiveOpensAre(g, dl.open, h);
  }

  /** What a good fetch leaves of a deadline: the old runner unless aborted, or a new
      one if it is active. */
  lemma NextHolds(s: Schedulers, hc: HeadChange, born: nat, mid: Miner, g: Geometry, dl: Info, o: int)
    requires Sane(g) && Fetched(s, hc, mid, g, dl)
    ensures o in NextScheds(s, hc, mid, born) <==>
              if o in Existing(s, mid) then !ShouldAbort(Existing(s, mid)[o].dinfo, hc.revert, hc.height)
              else o in ActiveOpens(g, hc.height)
    ensures o in NextScheds(s, hc, mid, born) ==>
              NextScheds(s, hc, mid, born)[o]
              == if o in Existing(s, mid) then Existing(s, mid)[o] else Runner(mid, Fetch(dl, hc.height)[o], born)
    ensures o in Fetch(dl, hc.height) ==> OnSchedule(g, Fetch(dl, hc.height)[o])
  {
    FetchIsActiveWindows(g, dl, hc.height);
  }

  /** The head change does the right thing with a held runner: it keeps it exactly when it is active. */
  ghost predicate Settled(d: Info, hc: HeadChange) {
    && (IsActive(d, hc.height) ==> !RevertedBelow(d, hc.revert))
    && (hc.height < d.challenge ==> RevertedBelow(d, hc.revert))
  }

  /** After a head change with a good fetch the runners of a miner are those of
      the active windows, exactly when no held runner of an active window was
      reverted below its challenge and every held runner of a later window was. */
  lemma MapIsActiveWindowsIff(s: Schedulers, hc: HeadChange, born: nat, mid: Miner, g: Geometry, dl: Info)
    requires Sane(g) && Fetched(s, hc, mid, g, dl)
    requires AllOnSchedule(g, Existing(s, mid))
    ensures AllOnSchedule(g, NextScheds(s, hc, mid, born))
    ensures NextScheds(s, hc, mid, born).Keys == ActiveOpens(g, hc.height) <==>
              forall o :: o in Existing(s, mid) ==> Settled(Existing(s, mid)[o].dinfo, hc)
  {
    var held, next, active := Existing(s, mid), NextScheds(s, hc, mid, born), ActiveOpens(g, hc.height);
    forall o
      ensures o in next ==> next[o].dinfo.open == o && OnSchedule(g, next[o].dinfo)
      ensures (o in next <==> o in active) <==> (o in held ==> Settled(held[o].dinfo, hc))
    {
      NextHolds(s, hc, born, mid, g, dl, o);
      if o in held {
        OnScheduleActive(g, held[o].dinfo, hc.height);
      }
    }
  }

  // ---------------------------------------------------------------------------
  // A revert below the challenge of an active deadline

  /** The runner of an active deadline that is reverted below its challenge is dropped, and
      although the deadline is fetched no other takes its place. */
  lemma RevertDropsActive(s: Schedulers, hc: HeadChange, born: nat, mid: Miner, g: Geometry, dl: Info, o: int)
    requires Sane(g) && Fetched(s, hc, mid, g, dl)
    requires o in Existing(s, mid) && o in ActiveOpens(g, hc.height)
    requires RevertedBelow(Existing(s, mid)[o].dinfo, hc.revert)
    ensures o in hc.dinfos[mid]
    ensures o !in NextScheds(s, hc, mid, born)
  {
    FetchIsActiveWindows(g, dl, hc.height);
    NextHolds(s, hc, born, mid, g, dl, o);
  }

  /** An active deadline without a runner gets a new one at the next good fetch. */
  lemma MissingIsRebuilt(s: Schedulers, hc: HeadChange, born: nat, mid: Miner, g: Geometry, dl: Info, o: int)
    requires Sane(g) && Fetched(s, hc, mid, g, dl)
    requires o !in Existing(s, mid) && o in ActiveOpens(g, hc.height)
    ensures o in NextScheds(s, hc, mid, born)
    ensures NextScheds(s, hc, mid, born)[o] == Runner(mid, Fetch(dl, hc.height)[o], born)
  {
    NextHolds(s, hc, born, mid, g, dl, o);
  }

  /** A head change for one miner at height `h`, with every service answering. */
  function Sole(mid: Miner, dl: Info, h: int, revert: Option<int>, cfg: PoStConfig): HeadChange {
    HeadChange(revert, h, map[mid := Fetch(dl, h)], map[mid := cfg], map[mid := cfg], {mid})
  }

  ghost function GeometryOf(dl: Info): Geometry {
    Geometry(dl.open, dl.challengeWindow, dl.challengeLookback)
  }

  lemma SoleFetched(s: Schedulers, mid: Miner, dl: Info, h: int, revert: Option<int>, cfg: PoStConfig)
    requires WellFormed(dl) && dl.open <= h < dl.close
    ensures Sane(GeometryOf(dl)) && Fetched(s, Sole(mid, dl, h, revert, cfg), mid, GeometryOf(dl), dl)
    ensures Keyed(Sole(mid, dl, h, revert, cfg).dinfos)
    ensures dl.open in ActiveOpens(GeometryOf(dl), h)
  {
    FetchIsActiveWindows(GeometryOf(dl), dl, h);
  }

  lemma SoleMakes(s: Schedulers, i: nat, mid: Miner, dl: Info, h: int, cfg: PoStConfig)
    requires WellFormed(dl) && dl.open <= h < dl.close && dl.open !in Existing(s, mid)
    ensures InMap(NextSchedulers(s, Sole(mid, dl, h, None, cfg), i), Runner(mid, dl, i))
  {
    var hc := Sole(mid, dl, h, None, cfg);
    SoleFetched(s, mid, dl, h, None, cfg);
    MissingIsRebuilt(s, hc, i, mid, GeometryOf(dl), dl, dl.open);
    NextOfMiner(s, hc, i, mid);
    NextKeepsSchedule(dl);
  }

  lemma SoleBuilds(run: Run, i: nat, mid: Miner, dl: Info, h: int, cfg: PoStConfig)
    requires Legal(run) && i < |run.heads| && run.heads[i] == Sole(mid, dl, h, None, cfg)
    requires WellFormed(dl) && dl.open <= h < dl.close && dl.open !in Existing(run.maps[i], mid)
    ensures InMap(run.maps[i + 1], Runner(mid, dl, i))
  {
    assert Steps(run, i);
    SoleMakes(run.maps[i], i, mid, dl, h, cfg);
  }

  lemma SoleReverts(run: Run, i: nat, mid: Miner, dl: Info, h: int, revert: int, cfg: PoStConfig, r: Runner)
    requires Legal(run) && i < |run.heads| && run.heads[i] == Sole(mid, dl, h, Some(revert), cfg)
    requires WellFormed(dl) && dl.open <= h < dl.close && revert < dl.challenge
    requires InMap(run.maps[i], r) && r.miner == mid && r.dinfo == dl
    ensures CalledAt(run, i, Abort(r))
    ensures dl.open in run.heads[i].dinfos[mid] && dl.open !in Existing(run.maps[i + 1], mid)
  {
    var s, hc := run.maps[i], run.heads[i];
    assert Steps(run, i);
    SoleFetched(s, mid, dl, h, Some(revert), cfg);
    RevertDropsActive(s, hc, i, mid, GeometryOf(dl), dl, dl.open);
  }

  /** For every deadline, height in its open window, miner and config there is a legal run in
      which the deadline has its runner, loses it to a revert while it is active and fetched,
      and has one again after the next head change. */
  lemma RevertGap(mid: Miner, dl: Info, h: int, revert: int, cfg: PoStConfig) returns (run: Run)
    requires WellFormed(dl) && dl.open <= h < dl.close && revert < dl.challenge
    ensures Legal(run)
    ensures run.heads == [Sole(mid, dl, h, None, cfg), Sole(mid, dl, h, Some(revert), cfg), Sole(mid, dl, h, None, cfg)]
    ensures InMap(run.maps[1], Runner(mid, dl, 0))
    ensures CalledAt(run, 1, Abort(Runner(mid, dl, 0)))
    ensures dl.open in run.heads[1].dinfos[mid] && dl.open !in Existing(run.maps[2], mid)
    ensures InMap(run.maps[3], Runner(mid, dl, 2))
  {
    var calm, back := Sole(mid, dl, h, None, cfg), Sole(mid, dl, h, Some(revert), cfg);
    SoleFetched(map[], mid, dl, h, None, cfg);
    run := RunExists([calm, back, calm]);
    SoleBuilds(run, 0, mid, dl, h, cfg);
    SoleReverts(run, 1, mid, dl, h, revert, cfg, Runner(mid, dl, 0));
    SoleBuilds(run, 2, mid, dl, h, cfg);
  }

  /** Without reverts and with heights that never go down, and the chain
      answering every time. */
  ghost predicate Calm(run: Run, dls: seq<Info>, mid: Miner, g: Geometry)
    requires Sane(g)
  {
    && Legal(run)
    && |dls| == |run.heads|
    && (forall i :: 0 <= i < |run.heads| ==> CalmAt(run, dls, mid, g, i))
    && (forall i, j :: 0 <= i < j < |run.heads| ==> run.heads[i].height <= run.heads[j].height)
  }

  ghost predicate CalmAt(run: Run, dls: seq<Info>, mid: Miner, g: Geometry, i: nat)
    requires Sane(g) && i < |run.heads| == |dls| && |run.maps| == |run.heads| + 1
  {
    run.heads[i].revert.None? && Fetched(run.maps[i], run.heads[i], mid, g, dls[i])
  }

  /** The runners of the miner are those of the windows active at `h`: one or two. */
  ghost predicate InStep(s: Schedulers, mid: Miner, g: Geometry, h: int)
    requires Sane(g)
  {
    && mid in s
    && s[mid].Keys == ActiveOpens(g, h)
    && AllOnSchedule(g, s[mid])
    && 1 <= |s[mid].Keys| <= 2
  }

  lemma CalmStep(s: Schedulers, hc: HeadChange, born: nat, mid: Miner, g: Geometry, dl: Info)
    requires Sane(g) && Fetched(s, hc, mid, g, dl) && hc.revert.None?
    requires AllOnSchedule(g, Existing(s, mid))
    requires forall o :: o in Existing(s, mid) ==> Existing(s, mid)[o].dinfo.challenge <= hc.height
    ensures InStep(NextSchedulers(s, hc, born), mid, g, hc.height)
  {
    MapIsActiveWindowsIff(s, hc, born, mid, g, dl);
    OneOrTwoActive(g, hc.height);
    NextOfMiner(s, hc, born, mid);
  }

  lemma NextOfMiner(s: Schedulers, hc: HeadChange, born: nat, mid: Miner)
    requires NextScheds(s, hc, mid, born) != map[] && mid in hc.dinfos
    ensures mid in NextSchedulers(s, hc, born)
    ensures NextSchedulers(s, hc, born)[mid] == NextScheds(s, hc, mid, born)
  {
    assert mid !in s ==> NextScheds(s, hc, mid, born) == Fresh(s, hc, mid, born);
  }

  /** Over every calm run the runner map of a miner holds, after each head
      change, exactly the deadlines whose active window contains the height:
      always one or two. */
  lemma {:induction false} RunnersAreActiveWindows(run: Run, n: nat, dls: seq<Info>, mid: Miner, g: Geometry)
    requires Sane(g) && Calm(run, dls, mid, g)
    requires 0 < n <= |run.heads|
    ensures InStep(run.maps[n], mid, g, run.heads[n - 1].height)
  {
    var held := Existing(run.maps[n - 1], mid);
    if n > 1 {
      RunnersAreActiveWindows(run, n - 1, dls, mid, g);
      forall o | o in held
        ensures held[o].dinfo.challenge <= run.heads[n - 1].height
      {
        OnScheduleActive(g, held[o].dinfo, run.heads[n - 2].height);
      }
    }
    assert CalmAt(run, dls, mid, g, n - 1) && Steps(run, n - 1);
    CalmStep(run.maps[n - 1], run.heads[n - 1], n - 1, mid, g, dls[n - 1]);
  }
}
