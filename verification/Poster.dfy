/**
 Window PoSt scheduling (damocles-manager/modules/poster/poster.go and scheduler.go).

 A PoSter keeps one runner per miner and proving deadline.  Each head change
 aborts, starts, submits and builds runners.  The class is the loop the daemon
 runs; NextSchedulers and Called say what one head change does, whatever order
 the maps are walked in; the lemmas speak about whole runs of head changes.
 */
module Poster {
  import opened Common
  import opened Deadline

  type Miner = nat

  const DEFAULT_SUBMIT_CONFIDENCE := 4
  const DEFAULT_CHALLENGE_CONFIDENCE := 10

  datatype PoStConfig = PoStConfig(enabled: bool, challengeConfidence: nat, submitConfidence: nat)

  /** One built runner.  A head change builds at most one runner per miner and
      deadline, so the number of the head change tells runners apart. */
  datatype Runner = Runner(miner: Miner, dinfo: Info, born: nat)

  datatype Call = Start(runner: Runner) | Submit(runner: Runner) | Abort(runner: Runner)

  type Scheds = map<int, Runner>
  type Schedulers = map<Miner, Scheds>
  type DeadlineInfos = map<Miner, map<int, Info>>

  /** One head change with what the surrounding services answer during it: the
      fetched deadlines, the miner configs found during cleanup and afterwards,
      and the miners whose address and chain info are available. */
  datatype HeadChange = HeadChange(
    revert: Option<int>,
    height: int,
    dinfos: DeadlineInfos,
    cfg: map<Miner, PoStConfig>,
    lateCfg: map<Miner, PoStConfig>,
    known: set<Miner>)

  // ---------------------------------------------------------------------------
  // scheduler.go

  function ChallengeConfidence(cfg: PoStConfig): int {
    if cfg.challengeConfidence == 0 then DEFAULT_CHALLENGE_CONFIDENCE else cfg.challengeConfidence
  }

  function SubmitConfidence(cfg: PoStConfig): int {
    if cfg.submitConfidence == 0 then DEFAULT_SUBMIT_CONFIDENCE else cfg.submitConfidence
  }

  predicate ShouldStart(d: Info, cfg: PoStConfig, height: int) {
    cfg.enabled && height >= d.challenge + ChallengeConfidence(cfg)
  }

  predicate CouldSubmit(d: Info, cfg: PoStConfig, height: int) {
    height >= d.open + SubmitConfidence(cfg)
  }

  predicate RevertedBelow(d: Info, revert: Option<int>) {
    revert.Some? && revert.value < d.challenge
  }

  predicate ShouldAbort(d: Info, revert: Option<int>, height: int) {
    RevertedBelow(d, revert) || height >= d.close
  }

  // ---------------------------------------------------------------------------
  // What one head change does

  /** What fetchMinerProvingDeadlineInfos keeps for a miner: the current deadline
      and the next one when it is already active. */
  function Fetch(dl: Info, height: int): (dls: map<int, Info>)
    ensures forall o :: o in dls ==> dls[o].open == o
  {
    var next := NextDeadline(dl);
    map[dl.open := dl] + if IsActive(next, height) then map[next.open := next] else map[]
  }

  ghost predicate Keyed(dinfos: DeadlineInfos) {
    forall m, o :: m in dinfos && o in dinfos[m] ==> dinfos[m][o].open == o
  }

  function Lookup<K, V>(m: map<K, V>, k: K): Option<V> {
    if k in m then Some(m[k]) else None
  }

  function Existing(s: Schedulers, mid: Miner): Scheds {
    if mid in s then s[mid] else map[]
  }

  /** The config used to start fresh runners of `mid`: the one cached during
      cleanup, else a second lookup. */
  function CreationConfig(s: Schedulers, hc: HeadChange, mid: Miner): Option<PoStConfig> {
    if mid in s && mid in hc.cfg then Some(hc.cfg[mid]) else Lookup(hc.lateCfg, mid)
  }

  function Survivors(scheds: Scheds, hc: HeadChange): Scheds {
    map o | o in scheds && !ShouldAbort(scheds[o].dinfo, hc.revert, hc.height) :: scheds[o]
  }

  /** Runners built for `mid`: one per fetched deadline that had no runner when
      the head change arrived, aborted or not. */
  function Fresh(s: Schedulers, hc: HeadChange, mid: Miner, born: nat): Scheds {
    if mid in hc.dinfos && mid in hc.known && CreationConfig(s, hc, mid).Some? then
      map o | o in hc.dinfos[mid] && o !in Existing(s, mid) :: Runner(mid, hc.dinfos[mid][o], born)
    else map[]
  }

  function NextScheds(s: Schedulers, hc: HeadChange, mid: Miner, born: nat): Scheds {
    Survivors(Existing(s, mid), hc) + Fresh(s, hc, mid, born)
  }

  function NextSchedulers(s: Schedulers, hc: HeadChange, born: nat): Schedulers {
    map mid | mid in s.Keys + hc.dinfos.Keys && (mid in s || Fresh(s, hc, mid, born) != map[]) ::
      NextScheds(s, hc, mid, born)
  }

  ghost predicate InMap(s: Schedulers, r: Runner) {
    r.miner in s && r.dinfo.open in s[r.miner] && s[r.miner][r.dinfo.open] == r
  }

  /** Head change number `born` builds `r`. */
  ghost predicate Builds(s: Schedulers, hc: HeadChange, born: nat, r: Runner) {
    var made := Fresh(s, hc, r.miner, born);
    r.dinfo.open in made && made[r.dinfo.open] == r
  }

  /** The head change makes call `c`: an abort or, on a surviving active runner
      whose miner has a config, a start or a submit; or the start of a runner it builds. */
  ghost predicate Called(s: Schedulers, hc: HeadChange, born: nat, c: Call) {
    var r := c.runner;
    if InMap(s, r) && ShouldAbort(r.dinfo, hc.revert, hc.height) then c.Abort?
    else
      && IsActive(r.dinfo, hc.height)
      && (|| (&& InMap(s, r) && r.miner in hc.cfg
              && ((c.Start? && ShouldStart(r.dinfo, hc.cfg[r.miner], hc.height))
                  || (c.Submit? && CouldSubmit(r.dinfo, hc.cfg[r.miner], hc.height))))
          || (&& c.Start? && Builds(s, hc, born, r)
              && ShouldStart(r.dinfo, CreationConfig(s, hc, r.miner).value, hc.height)))
  }

  // The same calls as sets, the way the two passes gather them.

  /** The calls the cleanup makes on one held runner, given its miner's config. */
  function RunnerCalls(r: Runner, hc: HeadChange, pcfg: Option<PoStConfig>): set<Call> {
    if ShouldAbort(r.dinfo, hc.revert, hc.height) then {Abort(r)}
    else if pcfg.Some? && IsActive(r.dinfo, hc.height) then
      (if ShouldStart(r.dinfo, pcfg.value, hc.height) then {Start(r)} else {})
      + (if CouldSubmit(r.dinfo, pcfg.value, hc.height) then {Submit(r)} else {})
    else {}
  }

  /** The calls on all runners of a miner but those in `todo`. */
  function CleanupCalls(scheds: Scheds, todo: set<int>, hc: HeadChange, pcfg: Option<PoStConfig>): set<Call> {
    set o, c | o in scheds && o !in todo && c in RunnerCalls(scheds[o], hc, pcfg) :: c
  }

  function AllCleanupCalls(s: Schedulers, todo: set<Miner>, hc: HeadChange): set<Call> {
    set m, c | m in s && m !in todo && c in CleanupCalls(s[m], {}, hc, Lookup(hc.cfg, m)) :: c
  }

  /** The calls made on runners just built. */
  function CreationCalls(made: Scheds, todo: set<int>, pcfg: PoStConfig, height: int): set<Call> {
    set o | o in made && o !in todo && IsActive(made[o].dinfo, height) && ShouldStart(made[o].dinfo, pcfg, height) ::
      Start(made[o])
  }

  function MinerCreationCalls(s: Schedulers, hc: HeadChange, mid: Miner, born: nat): set<Call> {
    var pcfg := CreationConfig(s, hc, mid);
    if pcfg.Some? then CreationCalls(Fresh(s, hc, mid, born), {}, pcfg.value, hc.height) else {}
  }

  function AllCreationCalls(s: Schedulers, todo: set<Miner>, hc: HeadChange, born: nat): set<Call> {
    set m, c | m in hc.dinfos && m !in todo && c in MinerCreationCalls(s, hc, m, born) :: c
  }

  /** Every call the head change makes. */
  function Calls(s: Schedulers, hc: HeadChange, born: nat): set<Call> {
    AllCleanupCalls(s, {}, hc) + AllCreationCalls(s, {}, hc, born)
  }

  /** Every runner is filed under its own miner and opening. */
  ghost predicate Filed(s: Schedulers) {
    forall m, o :: m in s && o in s[m] ==> s[m][o].miner == m && s[m][o].dinfo.open == o
  }

  // ---------------------------------------------------------------------------
  // poster.go

  lemma NextFiled(s: Schedulers, hc: HeadChange, born: nat)
    requires Filed(s) && Keyed(hc.dinfos)
    ensures Filed(NextSchedulers(s, hc, born))
  {
    var next: Schedulers := NextSchedulers(s, hc, born);
    forall m, o | m in next && o in next[m]
      ensures next[m][o].miner == m && next[m][o].dinfo.open == o
    {
      assert next[m] == NextScheds(s, hc, m, born);
      if o in Fresh(s, hc, m, born) {
      } else {
        assert o in Survivors(Existing(s, m), hc);
      }
    }
  }

  lemma CleanupCallsMean(s: Schedulers, hc: HeadChange, c: Call)
    requires Filed(s)
    ensures c in AllCleanupCalls(s, {}, hc)
            <==> InMap(s, c.runner) && c in RunnerCalls(c.runner, hc, Lookup(hc.cfg, c.runner.miner))
  {
    var r := c.runner;
    if InMap(s, r) && c in RunnerCalls(r, hc, Lookup(hc.cfg, r.miner)) {
      assert c in RunnerCalls(s[r.miner][r.dinfo.open], hc, Lookup(hc.cfg, r.miner));
      assert c in CleanupCalls(s[r.miner], {}, hc, Lookup(hc.cfg, r.miner));
    }
  }

  lemma CreationCallsMean(s: Schedulers, hc: HeadChange, born: nat, c: Call)
    requires Keyed(hc.dinfos)
    ensures c in AllCreationCalls(s, {}, hc, born)
            <==> && c.Start? && Builds(s, hc, born, c.runner) && IsActive(c.runner.dinfo, hc.height)
                 && ShouldStart(c.runner.dinfo, CreationConfig(s, hc, c.runner.miner).value, hc.height)
  {
    var r := c.runner;
    if c.Start? && Builds(s, hc, born, r) && IsActive(r.dinfo, hc.height)
       && ShouldStart(r.dinfo, CreationConfig(s, hc, r.miner).value, hc.height)
    {
      assert Fresh(s, hc, r.miner, born)[r.dinfo.open] == r;
      assert c in MinerCreationCalls(s, hc, r.miner, born);
    }
  }

  /** A fresh runner is never one that is held, so it cannot be aborted as well. */
  lemma CallsMean(s: Schedulers, hc: HeadChange, born: nat, c: Call)
    requires Filed(s) && Keyed(hc.dinfos)
    ensures c in Calls(s, hc, born) <==> Called(s, hc, born, c)
  {
    CleanupCallsMean(s, hc, c);
    CreationCallsMean(s, hc, born, c);
    assert Builds(s, hc, born, c.runner) ==> !InMap(s, c.runner);
  }

  // The state of the two passes when the miners (or deadlines) in `todo` are left.

  ghost function ScheduledAt(held: Scheds, todo: set<int>, hc: HeadChange): Scheds {
    map o | o in held && (o in todo || !ShouldAbort(held[o].dinfo, hc.revert, hc.height)) :: held[o]
  }

  ghost function DeadlinesLeft(infos: map<int, Info>, held: Scheds, todo: set<int>): map<int, Info> {
    map o | o in infos && (o in held ==> o in todo) :: infos[o]
  }

  ghost function CleanedAt(s: Schedulers, todo: set<Miner>, hc: HeadChange): Schedulers {
    map m | m in s :: if m in todo then s[m] else Survivors(s[m], hc)
  }

  ghost function DeadlinesAt(s: Schedulers, todo: set<Miner>, hc: HeadChange): DeadlineInfos {
    map m | m in hc.dinfos :: if m in s && m !in todo then DeadlinesLeft(hc.dinfos[m], s[m], {}) else hc.dinfos[m]
  }

  ghost function ConfigsAt(s: Schedulers, todo: set<Miner>, hc: HeadChange): map<Miner, PoStConfig> {
    map m | m in s && m !in todo && m in hc.cfg :: hc.cfg[m]
  }

  ghost function CreatedAt(s: Schedulers, todo: set<Miner>, hc: HeadChange, born: nat): Schedulers {
    map m | m in s.Keys + hc.dinfos.Keys && (m in s || (m !in todo && Fresh(s, hc, m, born) != map[])) ::
      if m in todo then Survivors(s[m], hc) else NextScheds(s, hc, m, born)
  }

  ghost function Built(dls: map<int, Info>, mid: Miner, todo: set<int>, born: nat): Scheds {
    map o | o in dls && o !in todo :: Runner(mid, dls[o], born)
  }

  lemma CleanupStep(held: Scheds, infos: map<int, Info>, todo: set<int>, open: int, hc: HeadChange,
                    pcfg: Option<PoStConfig>)
    requires open in todo && todo <= held.Keys
    ensures ScheduledAt(held, todo - {open}, hc)
            == if ShouldAbort(held[open].dinfo, hc.revert, hc.height) then ScheduledAt(held, todo, hc) - {open}
               else ScheduledAt(held, todo, hc)
    ensures DeadlinesLeft(infos, held, todo - {open}) == DeadlinesLeft(infos, held, todo) - {open}
    ensures CleanupCalls(held, todo - {open}, hc, pcfg)
            == CleanupCalls(held, todo, hc, pcfg) + RunnerCalls(held[open], hc, pcfg)
  {
  }

  lemma CleanupAllStep(s: Schedulers, todo: set<Miner>, mid: Miner, hc: HeadChange)
    requires mid in todo && todo <= s.Keys
    ensures CleanedAt(s, todo - {mid}, hc) == CleanedAt(s, todo, hc)[mid := Survivors(s[mid], hc)]
    ensures DeadlinesAt(s, todo - {mid}, hc)
            == if mid in hc.dinfos then DeadlinesAt(s, todo, hc)[mid := DeadlinesLeft(hc.dinfos[mid], s[mid], {})]
               else DeadlinesAt(s, todo, hc)
    ensures ConfigsAt(s, todo - {mid}, hc)
            == if mid in hc.cfg then ConfigsAt(s, todo, hc)[mid := hc.cfg[mid]] else ConfigsAt(s, todo, hc)
  {
  }

  lemma CleanupCallsStep(s: Schedulers, todo: set<Miner>, mid: Miner, hc: HeadChange)
    requires mid in todo && todo <= s.Keys
    ensures AllCleanupCalls(s, todo - {mid}, hc)
            == AllCleanupCalls(s, todo, hc) + CleanupCalls(s[mid], {}, hc, Lookup(hc.cfg, mid))
  {
  }

  lemma CreateStep(dls: map<int, Info>, held: Scheds, mid: Miner, todo: set<int>, open: int, pcfg: PoStConfig,
                   height: int, born: nat)
    requires open in todo && todo <= dls.Keys
    requires held.Keys !! dls.Keys
    ensures held + Built(dls, mid, todo - {open}, born)
            == (held + Built(dls, mid, todo, born))[open := Runner(mid, dls[open], born)]
    ensures open !in held + Built(dls, mid, todo, born)
    ensures var r := Runner(mid, dls[open], born);
            CreationCalls(Built(dls, mid, {}, born), todo - {open}, pcfg, height)
            == CreationCalls(Built(dls, mid, {}, born), todo, pcfg, height)
               + if IsActive(r.dinfo, height) && ShouldStart(r.dinfo, pcfg, height) then {Start(r)} else {}
  {
  }

  lemma CreatedStart(s: Schedulers, hc: HeadChange, born: nat)
    ensures CreatedAt(s, hc.dinfos.Keys, hc, born) == CleanedAt(s, {}, hc)
  {
    var a, b := CreatedAt(s, hc.dinfos.Keys, hc, born), CleanedAt(s, {}, hc);
    assert a.Keys == s.Keys == b.Keys;
    forall m | m in s
      ensures a[m] == b[m]
    {
      if m !in hc.dinfos {
        assert NextScheds(s, hc, m, born) == Survivors(s[m], hc) + map[];
      }
    }
  }

  lemma CreatedTodo(s: Schedulers, todo: set<Miner>, mid: Miner, hc: HeadChange, born: nat)
    requires mid in todo && todo <= hc.dinfos.Keys
    ensures Existing(CreatedAt(s, todo, hc, born), mid) == Survivors(Existing(s, mid), hc)
    ensures DeadlinesAt(s, {}, hc)[mid]
            == if mid in s then DeadlinesLeft(hc.dinfos[mid], s[mid], {}) else hc.dinfos[mid]
  {
  }

  lemma CreatedStep(s: Schedulers, todo: set<Miner>, mid: Miner, hc: HeadChange, born: nat)
    requires mid in todo && todo <= hc.dinfos.Keys
    ensures CreatedAt(s, todo - {mid}, hc, born)
            == if Fresh(s, hc, mid, born) == map[] then CreatedAt(s, todo, hc, born)
               else CreatedAt(s, todo, hc, born)[mid := NextScheds(s, hc, mid, born)]
  {
    if Fresh(s, hc, mid, born) == map[] {
      assert NextScheds(s, hc, mid, born) == Survivors(Existing(s, mid), hc);
    }
  }

  lemma CreationCallsStep(s: Schedulers, todo: set<Miner>, mid: Miner, hc: HeadChange, born: nat)
    requires mid in todo && todo <= hc.dinfos.Keys
    ensures AllCreationCalls(s, todo - {mid}, hc, born)
            == AllCreationCalls(s, todo, hc, born) + MinerCreationCalls(s, hc, mid, born)
  {
  }

  // ---------------------------------------------------------------------------
  // The calls in the order they are made

  /** No call is made twice, and a runner is started before it is submitted. */
  ghost predicate Tidy(calls: seq<Call>) {
    && (forall i, j :: 0 <= i < j < |calls| ==> calls[i] != calls[j])
    && (forall i, j :: 0 <= i < j < |calls| && calls[i].Submit? ==> calls[j] != Start(calls[i].runner))
  }

  /** `calls` makes each of the calls in `all` once, and no others. */
  ghost predicate Makes(calls: seq<Call>, all: set<Call>) {
    Tidy(calls) && forall c :: c in calls <==> c in all
  }

  ghost predicate OtherRunners(a: set<Call>, b: set<Call>) {
    forall c, d :: c in a && d in b ==> c.runner != d.runner
  }

  lemma MakesMore(calls: seq<Call>, all: set<Call>, more: seq<Call>, rest: set<Call>)
    requires Makes(calls, all) && Makes(more, rest) && OtherRunners(all, rest)
    ensures Makes(calls + more, all + rest)
  {
    var n := |calls|;
    forall i, j | 0 <= i < n <= j < |calls + more|
      ensures (calls + more)[i].runner != (calls + more)[j].runner
    {
      assert calls[i] in calls && more[j - n] in more;
    }
  }

  ghost predicate FiledScheds(held: Scheds) {
    forall o :: o in held ==> held[o].dinfo.open == o
  }

  lemma CleanupRunners(held: Scheds, todo: set<int>, open: int, hc: HeadChange, pcfg: Option<PoStConfig>)
    requires FiledScheds(held) && open in todo && open in held
    ensures OtherRunners(CleanupCalls(held, todo, hc, pcfg), RunnerCalls(held[open], hc, pcfg))
  {
  }

  lemma CleanupMiners(s: Schedulers, todo: set<Miner>, mid: Miner, hc: HeadChange)
    requires Filed(s) && mid in todo && mid in s
    ensures OtherRunners(AllCleanupCalls(s, todo, hc), CleanupCalls(s[mid], {}, hc, Lookup(hc.cfg, mid)))
  {
  }

  lemma CreationMiners(s: Schedulers, todo: set<Miner>, mid: Miner, hc: HeadChange, born: nat)
    requires mid in todo && mid in hc.dinfos
    ensures OtherRunners(AllCreationCalls(s, todo, hc, born), MinerCreationCalls(s, hc, mid, born))
  {
  }

  lemma CleanupThenCreation(s: Schedulers, hc: HeadChange, born: nat)
    requires Filed(s) && Keyed(hc.dinfos)
    ensures OtherRunners(AllCleanupCalls(s, {}, hc), AllCreationCalls(s, {}, hc, born))
  {
    forall c, d | c in AllCleanupCalls(s, {}, hc) && d in AllCreationCalls(s, {}, hc, born)
      ensures c.runner != d.runner
    {
      CleanupCallsMean(s, hc, c);
      CreationCallsMean(s, hc, born, d);
    }
  }

  /** The second pass with the miners in `todo` left. */
  ghost predicate CreatingAt(now: Schedulers, calls: seq<Call>, s: Schedulers, todo: set<Miner>, hc: HeadChange,
                             born: nat)
  {
    && todo <= hc.dinfos.Keys
    && now == CreatedAt(s, todo, hc, born)
    && Makes(calls, AllCreationCalls(s, todo, hc, born))
  }

  /** One miner of the second pass. */
  lemma CreateAllStep(now: Schedulers, calls: seq<Call>, s: Schedulers, todo: set<Miner>, hc: HeadChange, born: nat,
                      mid: Miner, scheds: Option<Scheds>, made: seq<Call>)
    requires CreatingAt(now, calls, s, todo, hc, born) && mid in todo
    requires scheds == if Fresh(s, hc, mid, born) == map[] then None else Some(NextScheds(s, hc, mid, born))
    requires Makes(made, MinerCreationCalls(s, hc, mid, born))
    ensures CreatingAt(if scheds.Some? then now[mid := scheds.value] else now, calls + made, s, todo - {mid}, hc, born)
  {
    CreatedStep(s, todo, mid, hc, born);
    CreationCallsStep(s, todo, mid, hc, born);
    CreationMiners(s, todo, mid, hc, born);
    MakesMore(calls, AllCreationCalls(s, todo, hc, born), made, MinerCreationCalls(s, hc, mid, born));
  }

  lemma CreatingStarts(s: Schedulers, hc: HeadChange, born: nat)
    ensures CreatingAt(CleanedAt(s, {}, hc), [], s, hc.dinfos.Keys, hc, born)
  {
    CreatedStart(s, hc, born);
  }

  lemma CreatingEnds(now: Schedulers, calls: seq<Call>, s: Schedulers, hc: HeadChange, born: nat)
    requires CreatingAt(now, calls, s, {}, hc, born)
    ensures now == NextSchedulers(s, hc, born)
    ensures Makes(calls, AllCreationCalls(s, {}, hc, born))
  {
  }

  class PoSter {
    var schedulers: Schedulers
    var handled: nat

    constructor ()
      ensures schedulers == map[] && handled == 0
    {
      schedulers, handled := map[], 0;
    }

    /** What the cleanup does with one runner. */
    static method Drive(r: Runner, pcfg: Option<PoStConfig>, hc: HeadChange) returns (aborted: bool, calls: seq<Call>)
      ensures aborted == ShouldAbort(r.dinfo, hc.revert, hc.height)
      ensures Makes(calls, RunnerCalls(r, hc, pcfg))
    {
      if ShouldAbort(r.dinfo, hc.revert, hc.height) {
        return true, [Abort(r)];
      }
      aborted, calls := false, [];
      if pcfg.Some? && IsActive(r.dinfo, hc.height) {
        if ShouldStart(r.dinfo, pcfg.value, hc.height) {
          calls := calls + [Start(r)];
        }
        if CouldSubmit(r.dinfo, pcfg.value, hc.height) {
          calls := calls + [Submit(r)];
        }
      }
    }

    /** The cleanup of one miner: aborts, starts and submits its runners, and
        drops the deadlines that already have a runner from `infos`. */
    static method Cleanup(held: Scheds, infos: map<int, Info>, pcfg: Option<PoStConfig>, hc: HeadChange)
      returns (scheds: Scheds, dls: map<int, Info>, calls: seq<Call>)
      requires FiledScheds(held)
      ensures scheds == Survivors(held, hc)
      ensures dls == DeadlinesLeft(infos, held, {})
      ensures Makes(calls, CleanupCalls(held, {}, hc, pcfg))
    {
      scheds, dls, calls := held, infos, [];
      var todo := held.Keys;
      while todo != {}
        invariant todo <= held.Keys
        invariant scheds == ScheduledAt(held, todo, hc)
        invariant dls == DeadlinesLeft(infos, held, todo)
        invariant Makes(calls, CleanupCalls(held, todo, hc, pcfg))
        decreases todo
      {
        var open := Pick(todo);
        CleanupStep(held, infos, todo, open, hc, pcfg);
        CleanupRunners(held, todo, open, hc, pcfg);
        var aborted, made := Drive(scheds[open], pcfg, hc);
        MakesMore(calls, CleanupCalls(held, todo, hc, pcfg), made, RunnerCalls(held[open], hc, pcfg));
        calls := calls + made;
        if aborted {
          scheds := scheds - {open};
        }
        dls := dls - {open};
        todo := todo - {open};
      }
    }

    /** The cleanup pass over every miner with runners. */
    method CleanupAll(hc: HeadChange)
      returns (dinfos: DeadlineInfos, pcfgs: map<Miner, PoStConfig>, calls: seq<Call>)
      requires Filed(schedulers)
      modifies this`schedulers
      ensures schedulers == CleanedAt(old(schedulers), {}, hc)
      ensures dinfos == DeadlinesAt(old(schedulers), {}, hc)
      ensures pcfgs == ConfigsAt(old(schedulers), {}, hc)
      ensures Makes(calls, AllCleanupCalls(old(schedulers), {}, hc))
    {
      ghost var s := schedulers;
      dinfos, pcfgs, calls := hc.dinfos, map[], [];
      var todo := schedulers.Keys;
      assert dinfos == DeadlinesAt(s, todo, hc);
      while todo != {}
        invariant todo <= s.Keys
        invariant schedulers == CleanedAt(s, todo, hc)
        invariant dinfos == DeadlinesAt(s, todo, hc)
        invariant pcfgs == ConfigsAt(s, todo, hc)
        invariant Makes(calls, AllCleanupCalls(s, todo, hc))
        decreases todo
      {
        var mid := Pick(todo);
        CleanupAllStep(s, todo, mid, hc);
        CleanupCallsStep(s, todo, mid, hc);
        CleanupMiners(s, todo, mid, hc);
        var pcfg := Lookup(hc.cfg, mid);
        if pcfg.Some? {
          pcfgs := pcfgs[mid := pcfg.value];
        }
        var infos := if mid in dinfos then dinfos[mid] else map[];
        var scheds, dls, made := Cleanup(schedulers[mid], infos, pcfg, hc);
        MakesMore(calls, AllCleanupCalls(s, todo, hc), made, CleanupCalls(s[mid], {}, hc, pcfg));
        schedulers := schedulers[mid := scheds];
        if mid in dinfos {
          dinfos := dinfos[mid := dls];
        }
        calls := calls + made;
        todo := todo - {mid};
      }
    }

    /** Builds one runner per remaining deadline of one miner. */
    static method Create(mid: Miner, held: Scheds, dls: map<int, Info>, pcfg: PoStConfig, height: int, born: nat)
      returns (scheds: Scheds, calls: seq<Call>)
      requires forall o :: o in dls ==> dls[o].open == o
      requires held.Keys !! dls.Keys
      ensures scheds == held + Built(dls, mid, {}, born)
      ensures Makes(calls, CreationCalls(Built(dls, mid, {}, born), {}, pcfg, height))
    {
      scheds, calls := held, [];
      var todo := dls.Keys;
      while todo != {}
        invariant todo <= dls.Keys
        invariant scheds == held + Built(dls, mid, todo, born)
        invariant Makes(calls, CreationCalls(Built(dls, mid, {}, born), todo, pcfg, height))
        decreases todo
      {
        var open := Pick(todo);
        CreateStep(dls, held, mid, todo, open, pcfg, height, born);
        var r := Runner(mid, dls[open], born);
        assert r.dinfo.open !in scheds; // no runner is overwritten
        scheds := scheds[r.dinfo.open := r];
        if IsActive(r.dinfo, height) && ShouldStart(r.dinfo, pcfg, height) {
          MakesMore(calls, CreationCalls(Built(dls, mid, {}, born), todo, pcfg, height), [Start(r)], {Start(r)});
          calls := calls + [Start(r)];
        }
        todo := todo - {open};
      }
    }

    /** The missing runners of one miner, or nothing when a service fails. */
    static method CreateMiner(hc: HeadChange, mid: Miner, dls: map<int, Info>, held: Scheds,
                              pcfgs: map<Miner, PoStConfig>, born: nat, ghost s: Schedulers)
      returns (scheds: Option<Scheds>, calls: seq<Call>)
      requires Keyed(hc.dinfos) && mid in hc.dinfos
      requires held == Survivors(Existing(s, mid), hc)
      requires dls == if mid in s then DeadlinesLeft(hc.dinfos[mid], s[mid], {}) else hc.dinfos[mid]
      requires pcfgs == ConfigsAt(s, {}, hc)
      ensures scheds == if Fresh(s, hc, mid, born) == map[] then None else Some(NextScheds(s, hc, mid, born))
      ensures Makes(calls, MinerCreationCalls(s, hc, mid, born))
    {
      scheds, calls := None, [];
      if mid !in hc.known {
        return;
      }
      var pcfg := if mid in pcfgs then Some(pcfgs[mid]) else Lookup(hc.lateCfg, mid);
      assert pcfg == CreationConfig(s, hc, mid);
      if pcfg.None? {
        return;
      }
      assert Fresh(s, hc, mid, born) == Built(dls, mid, {}, born);
      if dls == map[] {
        return;
      }
      var made, starts := Create(mid, held, dls, pcfg.value, hc.height, born);
      ghost var open := dls.Keys;
      assert exists o :: o in open && o in Fresh(s, hc, mid, born);
      return Some(made), starts;
    }

    /** One miner of the second pass. */
    static method CreateNext(hc: HeadChange, mid: Miner, now: Schedulers, calls: seq<Call>, dinfos: DeadlineInfos,
                             pcfgs: map<Miner, PoStConfig>, born: nat, ghost todo: set<Miner>, ghost s: Schedulers)
      returns (next: Schedulers, more: seq<Call>)
      requires Keyed(hc.dinfos) && mid in todo
      requires dinfos == DeadlinesAt(s, {}, hc) && pcfgs == ConfigsAt(s, {}, hc)
      requires CreatingAt(now, calls, s, todo, hc, born)
      ensures CreatingAt(next, more, s, todo - {mid}, hc, born)
    {
      CreatedTodo(s, todo, mid, hc, born);
      var scheds, made := CreateMiner(hc, mid, dinfos[mid], Existing(now, mid), pcfgs, born, s);
      CreateAllStep(now, calls, s, todo, hc, born, mid, scheds, made);
      next, more := if scheds.Some? then now[mid := scheds.value] else now, calls + made;
    }

    /** The second pass: builds the missing runners of every fetched miner. */
    method CreateAll(hc: HeadChange, dinfos: DeadlineInfos, pcfgs: map<Miner, PoStConfig>, ghost s: Schedulers)
      returns (calls: seq<Call>)
      requires Keyed(hc.dinfos)
      requires schedulers == CleanedAt(s, {}, hc)
      requires dinfos == DeadlinesAt(s, {}, hc)
      requires pcfgs == ConfigsAt(s, {}, hc)
      modifies this`schedulers
      ensures schedulers == NextSchedulers(s, hc, handled)
      ensures Makes(calls, AllCreationCalls(s, {}, hc, handled))
    {
      calls := [];
      var todo := dinfos.Keys;
      CreatingStarts(s, hc, handled);
      while todo != {}
        invariant CreatingAt(schedulers, calls, s, todo, hc, handled)
        decreases todo
      {
        var mid := Pick(todo);
        schedulers, calls := CreateNext(hc, mid, schedulers, calls, dinfos, pcfgs, handled, todo, s);
        todo := todo - {mid};
      }
      CreatingEnds(schedulers, calls, s, hc, handled);
    }

    /** The new runner map, and the calls in the order they are made: each once, and a start
        of a runner before its submit. */
    method HandleHeadChange(hc: HeadChange) returns (calls: seq<Call>)
      requires Filed(schedulers) && Keyed(hc.dinfos)
      modifies this
      ensures handled == old(handled) + 1
      ensures schedulers == NextSchedulers(old(schedulers), hc, old(handled))
      ensures Filed(schedulers)
      ensures Tidy(calls)
      ensures forall c :: c in calls <==> Called(old(schedulers), hc, old(handled), c)
    {
      ghost var s := schedulers;
      var dinfos, pcfgs, cleaned := CleanupAll(hc);
      var started := CreateAll(hc, dinfos, pcfgs, s);
      CleanupThenCreation(s, hc, handled);
      MakesMore(cleaned, AllCleanupCalls(s, {}, hc), started, AllCreationCalls(s, {}, hc, handled));
      calls := cleaned + started;
      NextFiled(s, hc, handled);
      forall c ensures c in calls <==> Called(s, hc, handled, c) {
        CallsMean(s, hc, handled, c);
      }
      handled := handled + 1;
    }
  }
}
