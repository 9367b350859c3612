/**
 The loop that feeds head changes to the PoSter (damocles-manager/modules/poster/poster.go, Run
 and getEnabledMiners).

 A notification is turned into one head change, or dropped: when no miner is enabled, or no
 deadline could be fetched, nothing is handled and a revert in it is lost.
 */
module PosterLoop {
  import opened Common
  import opened Deadline
  import opened Poster
  import opened PosterRuns

  datatype Kind = Current | Revert | Apply

  /** A change of the chain's head; the tipset may be missing. */
  datatype Change = Change(kind: Kind, val: Option<int>)

  /** One notification, with what the services answer while it is handled: the enabled miners
      that have a sender, the deadlines the chain returned for them, and the rest of a head
      change. */
  datatype Notice = Notice(changes: seq<Change>, enabled: set<Miner>, deadlines: map<Miner, Info>,
                           cfg: map<Miner, PoStConfig>, lateCfg: map<Miner, PoStConfig>, known: set<Miner>)

  /** The last change of a kind that has a tipset. */
  function Last(changes: seq<Change>, kind: Kind): Option<int> {
    if changes == [] then None
    else
      var c := changes[|changes| - 1];
      if c.kind == kind && c.val.Some? then c.val else Last(changes[..|changes| - 1], kind)
  }

  predicate IsCurrent(changes: seq<Change>) {
    |changes| == 1 && changes[0].kind == Current
  }

  function Lowest(n: Notice): Option<int> {
    if IsCurrent(n.changes) then None else Last(n.changes, Revert)
  }

  function Highest(n: Notice): Option<int> {
    if IsCurrent(n.changes) then n.changes[0].val else Last(n.changes, Apply)
  }

  /** A change of the kind, with a tipset. */
  ghost predicate Has(c: Change, kind: Kind) {
    c.kind == kind && c.val.Some?
  }

  /** Reverts are walked down the chain, so the last one is the lowest. */
  lemma {:induction false} LastRevertIsLowest(changes: seq<Change>, i: nat)
    requires i < |changes| && Has(changes[i], Revert)
    requires forall a, b | 0 <= a < b < |changes| && Has(changes[a], Revert) && Has(changes[b], Revert) ::
               changes[a].val.value >= changes[b].val.value
    ensures Last(changes, Revert).Some? && Last(changes, Revert).value <= changes[i].val.value
  {
    var n := |changes| - 1;
    if i < n && !Has(changes[n], Revert) {
      LastRevertIsLowest(changes[..n], i);
    }
  }

  /** Change `i` is the last of its kind with a tipset. */
  ghost predicate IsLatest(changes: seq<Change>, kind: Kind, i: nat) {
    i < |changes| && Has(changes[i], kind) && forall j :: i < j < |changes| ==> !Has(changes[j], kind)
  }

  /** `val` is the tipset of the last change of the kind; there is none exactly without such a change. */
  ghost predicate Latest(changes: seq<Change>, kind: Kind, val: Option<int>) {
    && (val.Some? ==> exists i: nat :: IsLatest(changes, kind, i) && changes[i].val == val)
    && (val.None? ==> forall i :: 0 <= i < |changes| ==> !Has(changes[i], kind))
  }

  lemma {:induction false} LastIsLatest(changes: seq<Change>, kind: Kind)
    ensures Latest(changes, kind, Last(changes, kind))
  {
    if changes != [] {
      var n := |changes| - 1;
      LastIsLatest(changes[..n], kind);
      if Has(changes[n], kind) {
        assert IsLatest(changes, kind, n);
      } else if Last(changes, kind).Some? {
        var i: nat :| IsLatest(changes[..n], kind, i) && changes[..n][i].val == Last(changes, kind);
        assert IsLatest(changes, kind, i);
      }
    }
  }

  function Fetches(n: Notice, height: int): DeadlineInfos {
    map m | m in n.enabled && m in n.deadlines :: Fetch(n.deadlines[m], height)
  }

  /** The notification leads to a head change. */
  predicate Handles(n: Notice) {
    Highest(n).Some? && n.enabled != {} && Fetches(n, Highest(n).value) != map[]
  }

  function HeadOf(n: Notice): HeadChange
    requires Handles(n)
  {
    HeadChange(Lowest(n), Highest(n).value, Fetches(n, Highest(n).value), n.cfg, n.lateCfg, n.known)
  }

  /** The head change of a notification is at the last tipset it applies and carries the last one it
      reverts; that of a current head is at that head and carries no revert. */
  lemma HeadIsLatest(n: Notice)
    requires Handles(n)
    ensures IsCurrent(n.changes) ==> n.changes[0].val == Some(HeadOf(n).height) && HeadOf(n).revert.None?
    ensures !IsCurrent(n.changes) ==>
              Latest(n.changes, Apply, Some(HeadOf(n).height)) && Latest(n.changes, Revert, HeadOf(n).revert)
  {
    LastIsLatest(n.changes, Apply);
    LastIsLatest(n.changes, Revert);
  }

  /** Miner `m` is enabled and the chain returned its deadline. */
  ghost predicate Fetchable(n: Notice, m: Miner) {
    m in n.enabled && m in n.deadlines
  }

  /** A notification leads to a head change exactly when it has a current or applied tipset and some
      enabled miner's deadline was returned, whether or not it reverts anything; the deadlines are
      those of exactly these miners. */
  lemma HandlesIff(n: Notice)
    ensures Handles(n) <==>
              && (if IsCurrent(n.changes) then n.changes[0].val.Some?
                  else exists i :: 0 <= i < |n.changes| && Has(n.changes[i], Apply))
              && exists m :: Fetchable(n, m)
    ensures Handles(n) ==>
              forall m :: && (m in HeadOf(n).dinfos <==> Fetchable(n, m))
                          && (Fetchable(n, m) ==> HeadOf(n).dinfos[m] == Fetch(n.deadlines[m], HeadOf(n).height))
  {
    LastIsLatest(n.changes, Apply);
    if Highest(n).Some? {
      var dinfos := Fetches(n, Highest(n).value);
      assert forall m :: m in dinfos <==> Fetchable(n, m);
      if m :| Fetchable(n, m) {
        assert m in dinfos;
      } else {
        assert dinfos == map[];
      }
    }
  }

  /** A notification with a revert also applies a tipset. */
  predicate Applies(n: Notice) {
    Lowest(n).Some? ==> Highest(n).Some?
  }

  // ---------------------------------------------------------------------------
  // The loop

  method Bounds(changes: seq<Change>) returns (lowest: Option<int>, highest: Option<int>)
    ensures lowest == if IsCurrent(changes) then None else Last(changes, Revert)
    ensures highest == if IsCurrent(changes) then changes[0].val else Last(changes, Apply)
    ensures !IsCurrent(changes) ==> Latest(changes, Revert, lowest) && Latest(changes, Apply, highest)
  {
    LastIsLatest(changes, Revert);
    LastIsLatest(changes, Apply);
    lowest, highest := None, None;
    if |changes| == 1 && changes[0].kind == Current {
      return None, changes[0].val;
    }
    for i := 0 to |changes|
      invariant lowest == Last(changes[..i], Revert) && highest == Last(changes[..i], Apply)
    {
      assert changes[..i + 1][..i] == changes[..i];
      if changes[i].val.None? {
        continue;
      }
      match changes[i].kind {
        case Revert => lowest := changes[i].val;
        case Apply => highest := changes[i].val;
        case Current =>
      }
    }
    assert changes[..|changes|] == changes;
  }

  /** The PoSter's map and the number of head changes it has handled. */
  datatype LoopState = LoopState(s: Schedulers, handled: nat)

  function Deliver(st: LoopState, n: Notice): LoopState {
    if Handles(n) then LoopState(NextSchedulers(st.s, HeadOf(n), st.handled), st.handled + 1) else st
  }

  /** One turn of the loop. */
  method OnNotify(p: PoSter, n: Notice)
    requires Filed(p.schedulers) && (n.enabled == {} || Applies(n))
    modifies p
    ensures Filed(p.schedulers)
    ensures LoopState(p.schedulers, p.handled) == Deliver(old(LoopState(p.schedulers, p.handled)), n)
  {
    var lowest, highest := Bounds(n.changes);
    if lowest.None? && highest.None? {
      return;
    }
    if n.enabled == {} {
      return;
    }
    var dinfos := Fetches(n, highest.value);
    if dinfos == map[] {
      return;
    }
    var calls := p.HandleHeadChange(HeadChange(lowest, highest.value, dinfos, n.cfg, n.lateCfg, n.known));
  }

  /** The state after the first `k` notifications. */
  function After(notices: seq<Notice>, k: nat): LoopState
    requires k <= |notices|
  {
    if k == 0 then LoopState(map[], 0) else Deliver(After(notices, k - 1), notices[k - 1])
  }

  /** The head changes among them. */
  function Heads(notices: seq<Notice>, k: nat): seq<HeadChange>
    requires k <= |notices|
  {
    if k == 0 then []
    else Heads(notices, k - 1) + if Handles(notices[k - 1]) then [HeadOf(notices[k - 1])] else []
  }

  // ---------------------------------------------------------------------------
  // Every run of the loop

  lemma {:induction false} HeadsKeyed(notices: seq<Notice>, k: nat, i: nat)
    requires k <= |notices| && i < |Heads(notices, k)|
    ensures Keyed(Heads(notices, k)[i].dinfos)
  {
    if i < |Heads(notices, k - 1)| {
      HeadsKeyed(notices, k - 1, i);
    }
  }

  lemma {:induction false} RunMatches(run: Run, notices: seq<Notice>, k: nat)
    requires Legal(run) && k <= |notices| && Heads(notices, k) <= run.heads
    ensures After(notices, k) == LoopState(run.maps[|Heads(notices, k)|], |Heads(notices, k)|)
  {
    if k > 0 {
      RunMatches(run, notices, k - 1);
      if Handles(notices[k - 1]) {
        assert Steps(run, |Heads(notices, k - 1)|);
      }
    }
  }

  /** Every sequence of notifications is a run of the PoSter over the head changes in it, so all
      that holds over those runs holds here. */
  lemma LoopIsRun(notices: seq<Notice>, k: nat) returns (run: Run)
    requires k <= |notices|
    ensures Legal(run) && run.heads == Heads(notices, k)
    ensures After(notices, k) == LoopState(run.maps[|run.heads|], |run.heads|)
  {
    forall i | 0 <= i < |Heads(notices, k)|
      ensures Keyed(Heads(notices, k)[i].dinfos)
    {
      HeadsKeyed(notices, k, i);
    }
    run := RunExists(Heads(notices, k));
    RunMatches(run, notices, k);
  }

  /** The notification is handled and its revert or height ends the runner. */
  ghost predicate EndsIt(n: Notice, r: Runner) {
    Handles(n) && ShouldAbort(r.dinfo, Lowest(n), Highest(n).value)
  }

  lemma OneNotice(notices: seq<Notice>, k: nat, r: Runner)
    requires k < |notices| && InMap(After(notices, k).s, r)
    ensures InMap(After(notices, k + 1).s, r) <==> !EndsIt(notices[k], r)
  {
    var run := LoopIsRun(notices, k);
    var h := |run.heads|;
    RunFiled(run, h);
    RunnerFate(run, h, r);
    if Handles(notices[k]) {
      InMapNext(run.maps[h], HeadOf(notices[k]), h, r);
    }
  }

  /** No handled notification from `m` to before `k` ends the runner. */
  ghost predicate Spared(notices: seq<Notice>, m: nat, k: nat, r: Runner)
    requires m <= k <= |notices|
  {
    forall i :: m <= i < k ==> !EndsIt(notices[i], r)
  }

  ghost predicate HeldAt(notices: seq<Notice>, k: nat, r: Runner)
    requires k <= |notices|
  {
    InMap(After(notices, k).s, r)
  }

  lemma SurvivesNext(notices: seq<Notice>, m: nat, k: nat, r: Runner)
    requires m <= k < |notices| && HeldAt(notices, m, r)
    ensures HeldAt(notices, k + 1, r) <==> HeldAt(notices, k, r) && !EndsIt(notices[k], r)
  {
    if HeldAt(notices, k, r) {
      OneNotice(notices, k, r);
    } else {
      GoneStaysGone(notices, m, k, r);
    }
  }

  /** What is lost at the first end, and only then. */
  lemma {:induction false} LastsUntil(held: seq<bool>, ended: seq<bool>, m: nat, k: nat)
    requires m <= k <= |ended| == |held| - 1 && held[m]
    requires forall i :: m <= i < k ==> held[i + 1] == (held[i] && !ended[i])
    ensures held[k] <==> forall i :: m <= i < k ==> !ended[i]
  {
    if m < k {
      LastsUntil(held, ended, m, k - 1);
    }
  }

  /** A runner survives a stretch of notifications exactly when no handled one in it ends it.  A
      revert in a notification that is not handled never reaches the runner. */
  lemma SurvivesIff(notices: seq<Notice>, m: nat, k: nat, r: Runner)
    requires m <= k <= |notices| && HeldAt(notices, m, r)
    ensures HeldAt(notices, k, r) <==> Spared(notices, m, k, r)
  {
    var held := seq(|notices| + 1, i requires 0 <= i <= |notices| => HeldAt(notices, i, r));
    var ended := seq(|notices|, i requires 0 <= i < |notices| => EndsIt(notices[i], r));
    forall i | m <= i < k ensures held[i + 1] == (held[i] && !ended[i]) {
      SurvivesNext(notices, m, i, r);
    }
    LastsUntil(held, ended, m, k);
    forall i | m <= i < k ensures ended[i] == EndsIt(notices[i], r) {
    }
    if !Spared(notices, m, k, r) {
      var i :| m <= i < k && EndsIt(notices[i], r);
      assert ended[i];
    }
  }

  /** A runner that was ended does not come back. */
  lemma GoneStaysGone(notices: seq<Notice>, m: nat, k: nat, r: Runner)
    requires m <= k < |notices| && InMap(After(notices, m).s, r) && !InMap(After(notices, k).s, r)
    ensures !InMap(After(notices, k + 1).s, r)
  {
    var before := LoopIsRun(notices, m);
    RunnerFate(before, |before.heads|, r);
    HandledGrows(notices, m, k);
    var run := LoopIsRun(notices, k);
    var h := |run.heads|;
    RunFiled(run, h);
    if Handles(notices[k]) {
      InMapNext(run.maps[h], HeadOf(notices[k]), h, r);
    }
  }

  lemma {:induction false} HandledGrows(notices: seq<Notice>, m: nat, k: nat)
    requires m <= k <= |notices|
    ensures After(notices, m).handled <= After(notices, k).handled
  {
    if m < k {
      HandledGrows(notices, m, k - 1);
    }
  }

  // ---------------------------------------------------------------------------
  // A lost revert

  /** A notification that applies `h`, after the reverts, for one miner. */
  function Tell(reverts: seq<Change>, h: int, enabled: set<Miner>, mid: Miner, dl: Info, cfg: PoStConfig): Notice {
    Notice(reverts + [Change(Apply, Some(h))], enabled, map[mid := dl], map[mid := cfg], map[mid := cfg], {mid})
  }

  lemma TellBounds(n: Notice, c: Change, h: int)
    requires n.changes == [Change(Apply, Some(h))] || n.changes == [c, Change(Apply, Some(h))]
    requires Has(c, Revert)
    ensures Highest(n) == Some(h)
    ensures Lowest(n) == if |n.changes| == 1 then None else c.val
  {
    var last := |n.changes| - 1;
    assert Last([], Revert) == None && Last([c], Revert) == c.val;
    assert n.changes[..last] == if last == 0 then [] else [c];
    assert Last(n.changes, Revert) == Last(n.changes[..last], Revert);
  }

  /** A calm notification for one miner is the head change of that miner. */
  lemma CalmHead(mid: Miner, dl: Info, h: int, cfg: PoStConfig)
    ensures var n := Tell([], h, {mid}, mid, dl, cfg);
            Handles(n) && HeadOf(n) == Sole(mid, dl, h, None, cfg)
  {
    var n := Tell([], h, {mid}, mid, dl, cfg);
    assert n.changes == [Change(Apply, Some(h))];
    TellBounds(n, Change(Revert, Some(0)), h);
    assert mid in Fetches(n, h);
    assert Fetches(n, h) == map[mid := Fetch(dl, h)];
  }

  lemma CalmBuilds(notices: seq<Notice>, mid: Miner, dl: Info, h: int, cfg: PoStConfig)
    requires WellFormed(dl) && dl.open <= h < dl.close
    requires notices != [] && notices[0] == Tell([], h, {mid}, mid, dl, cfg)
    ensures InMap(After(notices, 1).s, Runner(mid, dl, 0))
  {
    CalmHead(mid, dl, h, cfg);
    SoleMakes(map[], 0, mid, dl, h, cfg);
    assert After(notices, 0) == LoopState(map[], 0);
  }

  /** For every deadline, height in its window and revert below its challenge: the runner is built,
      the revert comes while no miner is enabled, and the runner is kept from then on. */
  lemma LostRevert(mid: Miner, dl: Info, h: int, revert: int, cfg: PoStConfig) returns (notices: seq<Notice>)
    requires WellFormed(dl) && dl.open <= h < dl.close && revert < dl.challenge
    ensures notices == [Tell([], h, {mid}, mid, dl, cfg),
                        Tell([Change(Revert, Some(revert))], h, {}, mid, dl, cfg),
                        Tell([], h, {mid}, mid, dl, cfg)]
    ensures RevertedBelow(dl, Lowest(notices[1]))
    ensures forall k :: 1 <= k <= 3 ==> InMap(After(notices, k).s, Runner(mid, dl, 0))
  {
    var calm := Tell([], h, {mid}, mid, dl, cfg);
    var back := Tell([Change(Revert, Some(revert))], h, {}, mid, dl, cfg);
    notices := [calm, back, calm];
    TellBounds(back, Change(Revert, Some(revert)), h);
    CalmHead(mid, dl, h, cfg);
    CalmBuilds(notices, mid, dl, h, cfg);
    KeptBy(notices, Runner(mid, dl, 0));
  }

  lemma KeptBy(notices: seq<Notice>, r: Runner)
    requires |notices| == 3 && InMap(After(notices, 1).s, r)
    requires !EndsIt(notices[1], r) && !EndsIt(notices[2], r)
    ensures forall k :: 1 <= k <= 3 ==> InMap(After(notices, k).s, r)
  {
    OneNotice(notices, 1, r);
    OneNotice(notices, 2, r);
  }
}
