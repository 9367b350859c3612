/**
 Proving deadlines (damocles-manager/modules/poster/deadline.go).

 A deadline is open on [open, close) and active on [challenge, close).  The
 deadlines of one miner tile the epoch line; active windows overlap by the
 challenge lookback.
 */
module Deadline {
  import opened Common

  datatype Info = Info(
    currentEpoch: int,
    periodStart: int,
    index: nat,
    open: int,
    close: int,
    challenge: int,
    faultCutoff: int,
    periodDeadlines: nat,
    provingPeriod: int,
    challengeWindow: int,
    challengeLookback: int,
    faultDeclarationCutoff: int)

  /** The chain library's constructor: an index past the last deadline gives the
      empty deadline at the end of the period. */
  function NewInfo(periodStart: int, index: nat, currentEpoch: int, periodDeadlines: nat, provingPeriod: int,
                   challengeWindow: int, challengeLookback: int, faultDeclarationCutoff: int): Info
  {
    if index < periodDeadlines then
      var open := periodStart + index * challengeWindow;
      Info(currentEpoch, periodStart, index, open, open + challengeWindow, open - challengeLookback,
           open - faultDeclarationCutoff, periodDeadlines, provingPeriod, challengeWindow, challengeLookback,
           faultDeclarationCutoff)
    else
      var after := periodStart + provingPeriod;
      Info(currentEpoch, periodStart, index, after, after, after, 0, periodDeadlines, provingPeriod,
           challengeWindow, challengeLookback, faultDeclarationCutoff)
  }

  function NextDeadline(d: Info): Info {
    var wraps := d.index + 1 == d.periodDeadlines;
    NewInfo(if wraps then d.periodStart + d.provingPeriod else d.periodStart,
            if wraps then 0 else d.index + 1,
            d.currentEpoch, d.periodDeadlines, d.provingPeriod, d.challengeWindow, d.challengeLookback,
            d.faultDeclarationCutoff)
  }

  predicate IsActive(d: Info, epoch: int) {
    d.challenge <= epoch < d.close
  }

  /** `d` was built by NewInfo for a real deadline of its period. */
  predicate Regular(d: Info) {
    && d.index < d.periodDeadlines
    && d == NewInfo(d.periodStart, d.index, d.currentEpoch, d.periodDeadlines, d.provingPeriod, d.challengeWindow,
                    d.challengeLookback, d.faultDeclarationCutoff)
  }

  /** A regular deadline of a chain whose windows fill the proving period and
      whose lookback is at most one window. */
  predicate WellFormed(d: Info) {
    && Regular(d)
    && 0 < d.challengeWindow
    && 0 <= d.challengeLookback <= d.challengeWindow
    && d.provingPeriod == d.periodDeadlines * d.challengeWindow
  }

  /** The next deadline opens exactly where this one closes, except across a
      period wrap when the windows do not fill the period. */
  lemma NextTilesIff(d: Info)
    requires Regular(d)
    ensures NextDeadline(d).open == d.close
            <==> d.index + 1 < d.periodDeadlines || d.provingPeriod == d.periodDeadlines * d.challengeWindow
  {
    assert (d.index + 1) * d.challengeWindow == d.index * d.challengeWindow + d.challengeWindow;
  }

  lemma NextKeepsSchedule(d: Info)
    requires WellFormed(d)
    ensures var n := NextDeadline(d);
            && WellFormed(n)
            && n.open == d.close
            && n.challengeWindow == d.challengeWindow
            && n.challengeLookback == d.challengeLookback
  {
    NextTilesIff(d);
  }

  /** The `k`-th deadline after `d`. */
  function Later(d: Info, k: nat): Info {
    if k == 0 then d else NextDeadline(Later(d, k - 1))
  }

  lemma {:induction false} LaterOpens(d: Info, k: nat)
    requires WellFormed(d)
    ensures var n := Later(d, k);
            && WellFormed(n)
            && n.open == d.open + k * d.challengeWindow
            && n.close == n.open + d.challengeWindow
            && n.challenge == n.open - d.challengeLookback
            && n.challengeWindow == d.challengeWindow
            && n.challengeLookback == d.challengeLookback
  {
    if k > 0 {
      LaterOpens(d, k - 1);
      NextKeepsSchedule(Later(d, k - 1));
      assert (k - 1) * d.challengeWindow + d.challengeWindow == k * d.challengeWindow;
    }
  }

  /** `e` lies in the `k`-th window of width `w` exactly when `k` is the quotient. */
  lemma WindowOf(e: int, base: int, w: int, k: int)
    requires 0 < w
    ensures base + k * w <= e < base + (k + 1) * w <==> k == (e - base) / w
  {
    assert (k + 1) * w == k * w + w;
    if base + k * w <= e < base + (k + 1) * w {
      QuotientIs(e - base, w, k);
    }
  }

  /** Tiling: every epoch from `d.open` on is in the open window of exactly one
      deadline of the chain of successors, across any number of period wraps. */
  lemma EveryEpochOpensOnce(d: Info, e: int, k: nat)
    requires WellFormed(d)
    requires d.open <= e
    ensures Later(d, k).open <= e < Later(d, k).close <==> k == (e - d.open) / d.challengeWindow
  {
    LaterOpens(d, k);
    WindowOf(e, d.open, d.challengeWindow, k);
    assert (k + 1) * d.challengeWindow == k * d.challengeWindow + d.challengeWindow;
  }

  // ---------------------------------------------------------------------------
  // A miner's schedule as a whole: the epochs congruent to an anchor.

  datatype Geometry = Geometry(anchor: int, window: int, lookback: int)

  ghost predicate Sane(g: Geometry) {
    0 < g.window && 0 <= g.lookback <= g.window
  }

  /** `o` is the opening of some deadline of the schedule. */
  ghost predicate Opens(g: Geometry, o: int)
    requires Sane(g)
  {
    (o - g.anchor) % g.window == 0
  }

  ghost predicate OnSchedule(g: Geometry, d: Info)
    requires Sane(g)
  {
    && Opens(g, d.open)
    && d.close == d.open + g.window
    && d.challenge == d.open - g.lookback
  }

  /** The openings of all deadlines of the schedule that are active at `h`. */
  ghost function ActiveOpens(g: Geometry, h: int): set<int>
    requires Sane(g)
  {
    set o | h - g.window < o <= h + g.lookback && Opens(g, o)
  }

  lemma OnScheduleActive(g: Geometry, d: Info, h: int)
    requires Sane(g) && OnSchedule(g, d)
    ensures IsActive(d, h) <==> d.open in ActiveOpens(g, h)
  {
  }

  lemma SameResidue(a: int, b: int, anchor: int, w: int)
    requires 0 < w
    requires (a - anchor) % w == 0 && (b - anchor) % w == 0
    ensures var q := (b - anchor) / w - (a - anchor) / w; b == a + q * w
  {
    assert a - anchor == w * ((a - anchor) / w);
    assert b - anchor == w * ((b - anchor) / w);
    var x, y := (a - anchor) / w, (b - anchor) / w;
    assert (y - x) * w == w * y - w * x;
  }

  lemma ShiftedResidue(a: int, anchor: int, w: int)
    requires 0 < w && (a - anchor) % w == 0
    ensures (a + w - anchor) % w == 0
  {
    var q := (a - anchor) / w;
    assert a - anchor == w * q;
    var v := a + w - anchor;
    assert v == w * (q + 1);
    WindowOf(v, 0, w, q + 1);
    assert v / w == q + 1;
  }

  /** With the lookback within one window, the active openings at `h` are the
      open deadline's and, from the next challenge on, the next one's. */
  lemma ActiveOpensAre(g: Geometry, open: int, h: int)
    requires Sane(g)
    requires Opens(g, open)
    requires open <= h < open + g.window
    ensures ActiveOpens(g, h)
            == if open + g.window - g.lookback <= h then {open, open + g.window} else {open}
  {
    ShiftedResidue(open, g.anchor, g.window);
    forall o | o in ActiveOpens(g, h)
      ensures o == open || (o == open + g.window && open + g.window - g.lookback <= h)
    {
      SameResidue(open, o, g.anchor, g.window);
      var q := (o - g.anchor) / g.window - (open - g.anchor) / g.window;
      assert o == open + q * g.window;
      assert q < 0 ==> q * g.window <= -g.window;
      assert q > 1 ==> q * g.window >= 2 * g.window;
    }
  }

  /** An epoch lies in one or two active windows. */
  lemma OneOrTwoActive(g: Geometry, h: int)
    requires Sane(g)
    ensures 1 <= |ActiveOpens(g, h)| <= 2
  {
    var q := (h - g.anchor) / g.window;
    var open := g.anchor + g.window * q;
    assert h - g.anchor == g.window * q + (h - g.anchor) % g.window;
    assert open - g.anchor == g.window * q + 0;
    WindowOf(open, g.anchor, g.window, q);
    assert (q + 1) * g.window == q * g.window + g.window;
    assert (open - g.anchor) / g.window == q;
    assert (open - g.anchor) % g.window == 0;
    ActiveOpensAre(g, open, h);
  }
}
