/**
 Sector expiration (damocles-manager/modules/impl/commitmgr/policy.go).

 The pre-commit and the commit processor have the same text for this; it is modelled once.
 Network constants and the chain are parameters.
 */
module Expiration {
  import opened Common

  const EPOCHS_IN_DAY := 2880
  const INT64 := 0x8000_0000_0000_0000

  /** What the network sets: `minimum` is the shortest lifetime of a sector, `maximum` the
      longest extension, `delay` the pre-commit challenge delay, `period` the proving period,
      `lookback` how old a ticket may be.  The last two are looked up and can be missing. */
  datatype Network = Network(minimum: nat, delay: nat, period: nat, lookback: nat, maximum: Result<nat>,
                             proveCommit: Result<nat>)

  /** A sector: the end epochs of its pieces' deals, where they have one, and its ticket's epoch. */
  datatype Sector = Sector(ends: seq<Option<int>>, ticket: int)

  /** Epochs from a number of days: multiplied as unsigned, then read as signed. */
  function DaysToEpochs(days: nat): int {
    var product := (days * EPOCHS_IN_DAY) % UINT64;
    if product < INT64 then product else product - UINT64
  }

  /** The lifetime of a sector without deals. */
  function CcLifetime(net: Network, epochs: int): Result<int> {
    if net.maximum.Err? then Err
    else
      var max := net.maximum.value;
      var wanted := if epochs == 0 then max else epochs;
      if wanted < net.minimum then Ok(net.minimum)
      else if wanted > max then Ok(max)
      else Ok(wanted - net.period * 2)
  }

  /** A deal that has not ended at `height`. */
  predicate Running(s: Sector, height: int, i: nat) {
    i < |s.ends| && s.ends[i].Some? && s.ends[i].value >= height
  }

  function Max(a: int, b: int): int {
    if a < b then b else a
  }

  /** The latest end of the running deals among the first `n` pieces. */
  function LatestEnd(s: Sector, height: int, n: nat): Option<int>
    requires n <= |s.ends|
  {
    if n == 0 then None
    else
      var rest := LatestEnd(s, height, n - 1);
      if !Running(s, height, n - 1) then rest
      else if rest.None? then s.ends[n - 1]
      else Some(Max(rest.value, s.ends[n - 1].value))
  }

  lemma {:induction false} LatestEndIs(s: Sector, height: int, n: nat)
    requires n <= |s.ends|
    ensures var r := LatestEnd(s, height, n);
            && (r.None? <==> forall i :: 0 <= i < n ==> !Running(s, height, i))
            && (forall i :: 0 <= i < n && Running(s, height, i) ==> s.ends[i].value <= r.value)
            && (r.Some? ==> exists i :: 0 <= i < n && Running(s, height, i) && s.ends[i] == r)
  {
    if n > 0 {
      LatestEndIs(s, height, n - 1);
    }
  }

  /** The last running deal decides, or the configured lifetime if there is none; in any case
      there is a proving period on top of the minimum. */
  function EndOf(net: Network, height: int, s: Sector, days: nat): Result<int> {
    var floor := height + net.minimum + net.period;
    var latest := LatestEnd(s, height, |s.ends|);
    if latest.Some? then Ok(Max(latest.value, floor))
    else
      var cc := CcLifetime(net, DaysToEpochs(days));
      if cc.Err? then Err else Ok(Max(height + cc.value, floor))
  }

  /** `end` is the least epoch that is not before the floor, the end of any running deal or, without
      one, the configured lifetime. */
  ghost predicate EndsAt(net: Network, height: int, s: Sector, days: nat, end: int) {
    var floor := height + net.minimum + net.period;
    var none := forall i: nat :: !Running(s, height, i);
    && floor <= end
    && (forall i: nat :: Running(s, height, i) ==> s.ends[i].value <= end)
    && (none ==> net.maximum.Ok? && height + CcLifetime(net, DaysToEpochs(days)).value <= end)
    && (|| end == floor
        || (exists i: nat :: Running(s, height, i) && s.ends[i].value == end)
        || (none && end == height + CcLifetime(net, DaysToEpochs(days)).value))
  }

  method SectorEnd(net: Network, height: int, s: Sector, days: nat) returns (r: Result<int>)
    ensures r == EndOf(net, height, s, days)
    ensures r.Err? <==> net.maximum.Err? && forall i: nat :: !Running(s, height, i)
    ensures r.Ok? ==> EndsAt(net, height, s, days, r.value)
  {
    LatestEndIs(s, height, |s.ends|);
    var end: Option<int> := None;
    for i := 0 to |s.ends|
      invariant end == LatestEnd(s, height, i)
    {
      if s.ends[i].Some? && !(s.ends[i].value < height) {
        if end.None? || end.value < s.ends[i].value {
          end := s.ends[i];
        }
      }
    }
    if end.None? {
      var lifetime := CcLifetime(net, DaysToEpochs(days));
      if lifetime.Err? {
        return Err;
      }
      end := Some(height + lifetime.value);
    }
    var minExp := height + net.minimum + net.period;
    if end.value < minExp {
      end := Some(minExp);
    }
    return Ok(end.value);
  }

  /** `e` is late enough: for the network, for every running deal, and for the ticket. */
  ghost predicate LateEnough(net: Network, height: int, s: Sector, e: int)
    requires net.proveCommit.Ok?
  {
    && height + net.minimum + net.period <= e
    && (forall i: nat :: Running(s, height, i) ==> s.ends[i].value <= e)
    && s.ticket + net.lookback + net.proveCommit.value + net.minimum <= e
  }

  /** Where the sector would end by itself: with a running deal any time will do, without
      one not before the configured lifetime. */
  ghost predicate LivesLongEnough(net: Network, height: int, s: Sector, days: nat, e: int)
    requires net.maximum.Ok?
  {
    (forall i: nat :: !Running(s, height, i)) ==> height + CcLifetime(net, DaysToEpochs(days)).value <= e
  }

  /** `views` says that the configuration and the chain answered.  The expiration is the
      earliest epoch that is late enough for the network, every running deal, the ticket and,
      without running deals, the configured lifetime; or the cap, if that comes first. */
  method SectorExpiration(net: Network, views: bool, height: int, s: Sector, days: nat) returns (r: Result<int>)
    ensures r.Ok? <==> views && net.maximum.Ok? && net.proveCommit.Ok?
    ensures r.Ok? ==> r.value <= height + net.delay + net.maximum.value
    ensures r.Ok? ==>
              r.value == height + net.delay + net.maximum.value
              || (LateEnough(net, height, s, r.value) && LivesLongEnough(net, height, s, days, r.value))
    ensures r.Ok? ==>
              forall e :: LateEnough(net, height, s, e) && LivesLongEnough(net, height, s, days, e) ==> r.value <= e
  {
    if !views || net.proveCommit.Err? {
      return Err;
    }
    LatestEndIs(s, height, |s.ends|);
    var end := SectorEnd(net, height, s, days);
    if end.Err? || net.maximum.Err? {
      return Err;
    }
    var expiration := end.value;
    var minExpiration := s.ticket + net.lookback + net.proveCommit.value + net.minimum;
    if expiration < minExpiration {
      expiration := minExpiration;
    }
    var maxExpiration := height + net.delay + net.maximum.value;
    if expiration > maxExpiration {
      expiration := maxExpiration;
    }
    return Ok(expiration);
  }

  // ---------------------------------------------------------------------------
  // Where the parts fall short on their own

  /** A lifetime that is wanted below the minimum or above the maximum is replaced by it; any other
      loses two proving periods.  None exceeds the maximum. */
  lemma CcLifetimeIs(net: Network, epochs: int)
    requires net.maximum.Ok? && net.minimum <= net.maximum.value
    ensures var wanted := if epochs == 0 then net.maximum.value else epochs;
            var r := CcLifetime(net, epochs);
            && r.Ok? && r.value <= net.maximum.value
            && (wanted < net.minimum ==> r.value == net.minimum)
            && (wanted > net.maximum.value ==> r.value == net.maximum.value)
            && (net.minimum <= wanted <= net.maximum.value ==> r.value + 2 * net.period == wanted)
  {
  }

  /** The lifetime of a sector without deals is below the minimum exactly when the wanted one is
      in range but less than two proving periods above the minimum. */
  lemma CcLifetimeBelowMinimumIff(net: Network, epochs: int)
    requires net.maximum.Ok? && net.minimum <= net.maximum.value
    ensures var wanted := if epochs == 0 then net.maximum.value else epochs;
            CcLifetime(net, epochs).value < net.minimum <==>
              net.minimum <= wanted <= net.maximum.value && wanted < net.minimum + 2 * net.period
  {
  }

  /** The number of days is converted as meant exactly below 2^63 epochs. */
  lemma DaysAreMeantIff(days: nat)
    requires days < UINT64
    ensures DaysToEpochs(days) == days * EPOCHS_IN_DAY <==> days * EPOCHS_IN_DAY < INT64
    ensures -INT64 <= DaysToEpochs(days) < INT64
  {
  }

  /** In any case it is converted up to a multiple of 2^64. */
  lemma DaysWrap(days: nat) returns (k: nat)
    ensures DaysToEpochs(days) == days * EPOCHS_IN_DAY - k * UINT64
  {
    var product := days * EPOCHS_IN_DAY;
    k := if product % UINT64 < INT64 then product / UINT64 else product / UINT64 + 1;
  }
}
