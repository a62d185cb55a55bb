/** The streaming analysers. Each is fed one session result at a time, for simulation
    `simulationNumber` and banner `currentBanner` of that simulation, and folds it into its own
    state; its summary reduces that state to counts, minima, maxima and the simulation that first
    reached a maximum. The summaries' averages, percentages and text are left out. */
module Analyses {
  import opened Records
  import C = Constants
  import opened Banners
  import opened Sessions
  import opened SessionProperties

  /** The five-star list of a session, when its by-rarity map has one. */
  function FiveStarsOf(r: PullSessionResult): Option<seq<PullResult>>
  {
    if FiveStar in r.resultsByRarity then Some(r.resultsByRarity[FiveStar]) else None
  }

  /** A banner was successful when one of its five-stars is not the standard one. */
  predicate BannerSucceeded(r: PullSessionResult)
  {
    match FiveStarsOf(r)
    case None => false
    case Some(fiveStars) => exists i :: 0 <= i < |fiveStars| && !IsStandard5Star(fiveStars[i].result.name)
  }

  /** A session that leaves budget over was successful. */
  lemma LeftoverBudgetMeansSuccess(banner: Banner, cfg: BannerConfig, c: PityCounters, owned: map<string, int>, rng: Stream, n: int)
    requires WellFormed(cfg) && StreamFits(rng, |cfg.fourStarCharacters|) && c.pity < HardCap(cfg.bannerType)
    ensures Session(cfg, c, owned, rng, n).pulls > 0 ==> BannerSucceeded(ResultOf(banner, n, Session(cfg, c, owned, rng, n)))
  {
    var f := Session(cfg, c, owned, rng, n);
    RemainingPullsMeansFeaturedFiveStar(cfg, c, owned, rng, n);
    SessionByRarity(cfg, c, owned, rng, n);
    if f.pulls > 0 {
      var fiveStars := OfRarity(f.results, FiveStar);
      var last := f.results[|f.results| - 1];
      assert f.results[..|f.results| - 1] + [last] == f.results;
      OfRarityAppend(f.results[..|f.results| - 1], last, FiveStar);
      assert fiveStars[|fiveStars| - 1] == last;
    }
  }

  /** The least and the greatest element of a non-empty list. */
  ghost predicate IsMinimum(m: int, s: seq<int>)
  {
    m in s && forall x :: x in s ==> m <= x
  }

  ghost predicate IsMaximum(m: int, s: seq<int>)
  {
    m in s && forall x :: x in s ==> x <= m
  }

  function MinOf(s: seq<int>): (m: int)
    requires s != []
    ensures IsMinimum(m, s)
  {
    if |s| == 1 then s[0]
    else
      var rest := MinOf(s[1..]);
      assert forall x :: x in s ==> x == s[0] || x in s[1..];
      if s[0] <= rest then s[0] else rest
  }

  function MaxOf(s: seq<int>): (m: int)
    requires s != []
    ensures IsMaximum(m, s)
  {
    if |s| == 1 then s[0]
    else
      var rest := MaxOf(s[1..]);
      assert forall x :: x in s ==> x == s[0] || x in s[1..];
      if s[0] >= rest then s[0] else rest
  }

  datatype Range = Range(minimum: int, maximum: int)

  /** The range of a list, or nothing for an empty one (where the minimum and maximum throw). */
  function RangeOf(s: seq<int>): (r: Option<Range>)
    ensures r.None? <==> s == []
    ensures r.Some? ==> IsMinimum(r.value.minimum, s) && IsMaximum(r.value.maximum, s)
  {
    if s == [] then None else Some(Range(MinOf(s), MaxOf(s)))
  }

  /** A simulation number together with the amount it reached. */
  datatype SimulationMax = SimulationMax(simulation: int, amount: int)

  /** The record kept by a strictly-greater update over `h`, starting from (0, 0). */
  function Leader(h: seq<SimulationMax>): SimulationMax
  {
    if h == [] then SimulationMax(0, 0)
    else
      var previous := Leader(h[..|h| - 1]);
      if h[|h| - 1].amount > previous.amount then h[|h| - 1] else previous
  }

  /** Entry `i` holds the largest amount of `h`, and no earlier entry reaches it. */
  ghost predicate IsFirstMaximum(h: seq<SimulationMax>, i: int)
  {
    && 0 <= i < |h|
    && (forall j :: 0 <= j < |h| ==> h[j].amount <= h[i].amount)
    && (forall j :: 0 <= j < i ==> h[j].amount < h[i].amount)
  }

  /** `Leader` names the first entry with the largest amount when some amount is positive, and
      stays (0, 0) otherwise. */
  lemma {:induction false} LeaderIsFirstMaximum(h: seq<SimulationMax>)
    ensures (forall i :: 0 <= i < |h| ==> h[i].amount <= 0) ==> Leader(h) == SimulationMax(0, 0)
    ensures (exists i :: 0 <= i < |h| && h[i].amount > 0) ==>
              Leader(h).amount > 0 && exists i :: IsFirstMaximum(h, i) && Leader(h) == h[i]
  {
    if h != [] {
      var p := h[..|h| - 1];
      var x := h[|h| - 1];
      LeaderIsFirstMaximum(p);
      assert forall j :: 0 <= j < |p| ==> p[j] == h[j];
      if exists i :: 0 <= i < |p| && p[i].amount > 0 {
        var i :| IsFirstMaximum(p, i) && Leader(p) == p[i];
        if x.amount > p[i].amount {
          assert IsFirstMaximum(h, |p|);
        } else {
          assert IsFirstMaximum(h, i);
        }
      } else if x.amount > 0 {
        assert IsFirstMaximum(h, |p|);
      }
    }
  }

  /** The number of `true` entries, counted from the front. */
  function CountTrue(s: seq<bool>): (n: nat)
    ensures n <= |s|
  {
    if s == [] then 0 else CountTrue(s[..|s| - 1]) + (if s[|s| - 1] then 1 else 0)
  }

  lemma {:induction false} CountTrueIsCardinality(s: seq<bool>)
    ensures CountTrue(s) == |set i | 0 <= i < |s| && s[i]|
  {
    if s != [] {
      var p := s[..|s| - 1];
      CountTrueIsCardinality(p);
      var before := set i | 0 <= i < |p| && p[i];
      var after := set i | 0 <= i < |s| && s[i];
      if s[|s| - 1] {
        assert after == before + {|p|};
      } else {
        assert after == before;
      }
    }
  }

  // ---------------------------------------------------------------------------------------
  // Successful five-star pulls: one success flag per banner, grouped by simulation.

  /** The simulations whose every banner was successful (vacuously so for no banner). */
  function AllSuccessful(m: map<int, seq<bool>>): set<int>
  {
    set sim | sim in m && false !in m[sim]
  }

  /** The simulations with at least one successful banner. */
  function SomeSuccessful(m: map<int, seq<bool>>): set<int>
  {
    set sim | sim in m && true in m[sim]
  }

  function NoBanners(m: map<int, seq<bool>>): set<int>
  {
    set sim | sim in m && m[sim] == []
  }

  lemma SubsetCardinality<T>(a: set<T>, b: set<T>)
    requires a <= b
    ensures |a| <= |b|
  {
    assert b == a + (b - a);
  }

  /** Every simulation counted as all-successful is counted as at-least-one-successful, unless it
      recorded no banner at all. */
  lemma AllSuccessfulAlsoSome(m: map<int, seq<bool>>)
    ensures AllSuccessful(m) <= SomeSuccessful(m) + NoBanners(m)
    ensures |AllSuccessful(m)| <= |SomeSuccessful(m)| + |NoBanners(m)|
    ensures |AllSuccessful(m)| <= |m| && |SomeSuccessful(m)| <= |m|
  {
    forall sim | sim in AllSuccessful(m)
      ensures sim in SomeSuccessful(m) + NoBanners(m)
    {
      if m[sim] != [] {
        assert m[sim][0] in m[sim];
        assert m[sim][0];
        assert sim in SomeSuccessful(m);
      } else {
        assert sim in NoBanners(m);
      }
    }
    SubsetCardinality(AllSuccessful(m), SomeSuccessful(m) + NoBanners(m));
    SubsetCardinality(AllSuccessful(m), m.Keys);
    SubsetCardinality(SomeSuccessful(m), m.Keys);
  }

  datatype SuccessSummary = SuccessSummary(allSuccessful: nat, someSuccessful: Option<nat>)

  class Successful5StarPullsAnalysis {
    const bannersPulledOn: int
    var successfulBannersPerSim: map<int, seq<bool>>

    constructor (bannersPulledOn: int)
      ensures this.bannersPulledOn == bannersPulledOn && successfulBannersPerSim == map[]
    {
      this.bannersPulledOn := bannersPulledOn;
      successfulBannersPerSim := map[];
    }

    /** Starts a new list on a simulation's first banner and appends whether this banner was
        successful. Any later banner needs the simulation's list (the lookup throws otherwise). */
    method Analyse(simulationNumber: int, pullSessionResult: PullSessionResult, currentBanner: int)
      requires currentBanner == 0 || simulationNumber in successfulBannersPerSim
      modifies this
      ensures var before := if currentBanner == 0 then [] else old(successfulBannersPerSim)[simulationNumber];
              successfulBannersPerSim == old(successfulBannersPerSim)[simulationNumber := before + [BannerSucceeded(pullSessionResult)]]
    {
      if currentBanner == 0 {
        successfulBannersPerSim := successfulBannersPerSim[simulationNumber := []];
      }

      var list := successfulBannersPerSim[simulationNumber];
      if FiveStar in pullSessionResult.resultsByRarity {
        var fiveStars := pullSessionResult.resultsByRarity[FiveStar];
        if exists i :: 0 <= i < |fiveStars| && !IsStandard5Star(fiveStars[i].result.name) {
          successfulBannersPerSim := successfulBannersPerSim[simulationNumber := list + [true]];
        } else {
          successfulBannersPerSim := successfulBannersPerSim[simulationNumber := list + [false]];
        }
      } else {
        successfulBannersPerSim := successfulBannersPerSim[simulationNumber := list + [false]];
      }
    }

    /** How many simulations had every banner successful and, when more than one banner is
        pulled on, how many had at least one. */
    function SummarizeAnalysis(): (summary: SuccessSummary)
      reads this
      ensures summary.allSuccessful == |AllSuccessful(successfulBannersPerSim)| <= |successfulBannersPerSim|
      ensures summary.someSuccessful.Some? <==> bannersPulledOn > 1
      ensures summary.someSuccessful.Some? ==>
                && summary.someSuccessful.value == |SomeSuccessful(successfulBannersPerSim)| <= |successfulBannersPerSim|
                && summary.allSuccessful <= summary.someSuccessful.value + |NoBanners(successfulBannersPerSim)|
    {
      AllSuccessfulAlsoSome(successfulBannersPerSim);
      var allCount := |AllSuccessful(successfulBannersPerSim)|;
      var someCount := |SomeSuccessful(successfulBannersPerSim)|;
      SuccessSummary(allCount, if bannersPulledOn > 1 then Some(someCount) else None)
    }
  }

  // ---------------------------------------------------------------------------------------
  // Whether one chosen banner was successful, per simulation.

  class BannerWasSuccessfulAnalysis {
    const bannersPulledOn: int
    const bannerToAnalyse: int
    const successfulFinalBanners: array<bool>

    constructor (bannersPulledOn: int, bannerToAnalyse: int)
      ensures this.bannersPulledOn == bannersPulledOn && this.bannerToAnalyse == bannerToAnalyse
      ensures fresh(successfulFinalBanners) && successfulFinalBanners.Length == C.SimulationCount
      ensures forall i :: 0 <= i < successfulFinalBanners.Length ==> !successfulFinalBanners[i]
    {
      this.bannersPulledOn := bannersPulledOn;
      this.bannerToAnalyse := bannerToAnalyse;
      successfulFinalBanners := new bool[C.SimulationCount](_ => false);
    }

    /** On the chosen banner, records whether it was successful; ignores every other banner. */
    method Analyse(simulationNumber: int, pullSessionResult: PullSessionResult, currentBanner: int)
      requires currentBanner == bannerToAnalyse - 1 ==> 0 <= simulationNumber < successfulFinalBanners.Length
      modifies successfulFinalBanners
      ensures currentBanner != bannerToAnalyse - 1 ==> successfulFinalBanners[..] == old(successfulFinalBanners[..])
      ensures currentBanner == bannerToAnalyse - 1 ==>
                successfulFinalBanners[..] == old(successfulFinalBanners[..])[simulationNumber := BannerSucceeded(pullSessionResult)]
    {
      if currentBanner != bannerToAnalyse - 1 {
        return;
      }

      if FiveStar in pullSessionResult.resultsByRarity {
        var fiveStars := pullSessionResult.resultsByRarity[FiveStar];
        if exists i :: 0 <= i < |fiveStars| && !IsStandard5Star(fiveStars[i].result.name) {
          successfulFinalBanners[simulationNumber] := true;
          return;
        }
      }
      successfulFinalBanners[simulationNumber] := false;
    }

    /** The number of simulations whose chosen banner was successful. */
    method SummarizeAnalysis() returns (successCount: nat)
      ensures successCount == CountTrue(successfulFinalBanners[..])
      ensures successCount == |set i | 0 <= i < successfulFinalBanners.Length && successfulFinalBanners[i]|
      ensures successCount <= successfulFinalBanners.Length
    {
      successCount := 0;
      for i := 0 to successfulFinalBanners.Length
        invariant successCount == CountTrue(successfulFinalBanners[..i])
      {
        assert successfulFinalBanners[..i + 1] == successfulFinalBanners[..i] + [successfulFinalBanners[i]];
        if successfulFinalBanners[i] {
          successCount := successCount + 1;
        }
      }
      assert successfulFinalBanners[..] == successfulFinalBanners[..successfulFinalBanners.Length];
      CountTrueIsCardinality(successfulFinalBanners[..]);
      assert (set i | 0 <= i < successfulFinalBanners.Length && successfulFinalBanners[i])
          == (set i | 0 <= i < |successfulFinalBanners[..]| && successfulFinalBanners[..][i]);
    }
  }

  // ---------------------------------------------------------------------------------------
  // The pity of every five-star, per name.

  /** The pities recorded under `name`, none when it is not a key. */
  function PitiesOf(m: map<string, seq<int>>, name: string): seq<int>
  {
    if name in m then m[name] else []
  }

  /** Appends the pity of one five-star to its name's list, starting the list when new. */
  function RecordPity(m: map<string, seq<int>>, x: PullResult): map<string, seq<int>>
  {
    var name := x.result.name;
    if name in m then m[name := m[name] + [x.pity]] else m[name := [x.pity]]
  }

  /** `RecordPity` over a list of five-stars, front to back. */
  function RecordPities(m: map<string, seq<int>>, xs: seq<PullResult>): map<string, seq<int>>
    decreases |xs|
  {
    if xs == [] then m else RecordPities(RecordPity(m, xs[0]), xs[1..])
  }

  /** The pities of the results named `name`, in order. */
  function PitiesNamed(xs: seq<PullResult>, name: string): seq<int>
  {
    if xs == [] then []
    else (if xs[0].result.name == name then [xs[0].pity] else []) + PitiesNamed(xs[1..], name)
  }

  /** Each name's list grows by exactly the pities of the results with that name, in order. */
  lemma {:induction false} RecordPitiesPerName(m: map<string, seq<int>>, xs: seq<PullResult>, name: string)
    ensures PitiesOf(RecordPities(m, xs), name) == PitiesOf(m, name) + PitiesNamed(xs, name)
    decreases |xs|
  {
    if xs != [] {
      RecordPitiesPerName(RecordPity(m, xs[0]), xs[1..], name);
    }
  }

  /** The keys afterwards are the keys before plus the names pulled. */
  lemma {:induction false} RecordPitiesKeys(m: map<string, seq<int>>, xs: seq<PullResult>)
    ensures RecordPities(m, xs).Keys == m.Keys + set i | 0 <= i < |xs| :: xs[i].result.name
    decreases |xs|
  {
    if xs != [] {
      RecordPitiesKeys(RecordPity(m, xs[0]), xs[1..]);
      var names := set i | 0 <= i < |xs| :: xs[i].result.name;
      var rest := set i | 0 <= i < |xs[1..]| :: xs[1..][i].result.name;
      assert names == {xs[0].result.name} + rest by {
        forall name | name in names ensures name in {xs[0].result.name} + rest {
          var i :| 0 <= i < |xs| && xs[i].result.name == name;
          if i > 0 {
            assert xs[1..][i - 1].result.name == name;
          }
        }
      }
    }
  }

  ghost predicate NoEmptyLists(m: map<string, seq<int>>)
  {
    forall name :: name in m ==> m[name] != []
  }

  /** No stored list is ever empty. */
  lemma {:induction false} RecordPitiesNoEmptyLists(m: map<string, seq<int>>, xs: seq<PullResult>)
    requires NoEmptyLists(m)
    ensures NoEmptyLists(RecordPities(m, xs))
    decreases |xs|
  {
    if xs != [] {
      RecordPitiesNoEmptyLists(RecordPity(m, xs[0]), xs[1..]);
    }
  }

  /** The number of pities stored under the names in `keys`. */
  ghost function SumOver(m: map<string, seq<int>>, keys: set<string>): nat
    requires keys <= m.Keys
  {
    if keys == {} then 0
    else
      var k :| k in keys;
      |m[k]| + SumOver(m, keys - {k})
  }

  /** The number of pities stored under all names. */
  ghost function Total(m: map<string, seq<int>>): nat
  {
    SumOver(m, m.Keys)
  }

  lemma {:induction false} SumOverRemove(m: map<string, seq<int>>, keys: set<string>, k: string)
    requires keys <= m.Keys && k in keys
    ensures SumOver(m, keys) == |m[k]| + SumOver(m, keys - {k})
    decreases keys
  {
    var j :| j in keys && SumOver(m, keys) == |m[j]| + SumOver(m, keys - {j});
    if j != k {
      SumOverRemove(m, keys - {j}, k);
      SumOverRemove(m, keys - {k}, j);
      assert keys - {j} - {k} == keys - {k} - {j};
    }
  }

  lemma {:induction false} SumOverAgree(m: map<string, seq<int>>, m': map<string, seq<int>>, keys: set<string>)
    requires keys <= m.Keys && keys <= m'.Keys
    requires forall k :: k in keys ==> |m[k]| == |m'[k]|
    ensures SumOver(m, keys) == SumOver(m', keys)
    decreases keys
  {
    if keys != {} {
      var k :| k in keys && SumOver(m, keys) == |m[k]| + SumOver(m, keys - {k});
      SumOverAgree(m, m', keys - {k});
      SumOverRemove(m', keys, k);
    }
  }

  lemma TotalUpdate(m: map<string, seq<int>>, k: string, v: seq<int>)
    ensures Total(m[k := v]) + |PitiesOf(m, k)| == Total(m) + |v|
  {
    var m' := m[k := v];
    SumOverRemove(m', m'.Keys, k);
    SumOverAgree(m, m', m.Keys - {k});
    assert m'.Keys - {k} == m.Keys - {k};
    if k in m {
      SumOverRemove(m, m.Keys, k);
    } else {
      assert m.Keys - {k} == m.Keys;
    }
  }

  /** The total number of stored pities grows by exactly the number of five-stars recorded. */
  lemma {:induction false} RecordPitiesTotal(m: map<string, seq<int>>, xs: seq<PullResult>)
    ensures Total(RecordPities(m, xs)) == Total(m) + |xs|
    decreases |xs|
  {
    if xs != [] {
      var name := xs[0].result.name;
      TotalUpdate(m, name, PitiesOf(m, name) + [xs[0].pity]);
      if name !in m {
        assert PitiesOf(m, name) + [xs[0].pity] == [xs[0].pity];
      }
      assert RecordPity(m, xs[0]) == m[name := PitiesOf(m, name) + [xs[0].pity]];
      RecordPitiesTotal(RecordPity(m, xs[0]), xs[1..]);
    }
  }

  datatype PityStats = PityStats(count: nat, minimum: int, maximum: int)

  class Unique5StarPullsAnalysis {
    const bannersPulledOn: int
    var fiveStarPullDetails: map<string, seq<int>>

    constructor (bannersPulledOn: int)
      ensures this.bannersPulledOn == bannersPulledOn && fiveStarPullDetails == map[]
    {
      this.bannersPulledOn := bannersPulledOn;
      fiveStarPullDetails := map[];
    }

    /** Stores the pity of every five-star of the session under its name. The session's
        by-rarity map must have a five-star list (the lookup throws otherwise). */
    method Analyse(simulationNumber: int, pullSessionResult: PullSessionResult, currentBanner: int)
      requires FiveStar in pullSessionResult.resultsByRarity
      modifies this
      ensures fiveStarPullDetails == RecordPities(old(fiveStarPullDetails), pullSessionResult.resultsByRarity[FiveStar])
    {
      var fiveStars := pullSessionResult.resultsByRarity[FiveStar];
      if |fiveStars| != 0 {
        for i := 0 to |fiveStars|
          invariant RecordPities(fiveStarPullDetails, fiveStars[i..]) == RecordPities(old(fiveStarPullDetails), fiveStars)
        {
          assert fiveStars[i..][1..] == fiveStars[i + 1..];
          var fiveStarResult := fiveStars[i];
          var name := fiveStarResult.result.name;
          if name in fiveStarPullDetails {
            fiveStarPullDetails := fiveStarPullDetails[name := fiveStarPullDetails[name] + [fiveStarResult.pity]];
          } else {
            fiveStarPullDetails := fiveStarPullDetails[name := [fiveStarResult.pity]];
          }
        }
      }
    }

    /** For every name with a non-empty list: how many were pulled and the least and greatest
        pity among them. */
    function SummarizeAnalysis(): (summary: map<string, PityStats>)
      reads this
      ensures forall name :: name in summary <==> name in fiveStarPullDetails && fiveStarPullDetails[name] != []
      ensures forall name :: name in summary ==>
                && summary[name].count == |fiveStarPullDetails[name]|
                && IsMinimum(summary[name].minimum, fiveStarPullDetails[name])
                && IsMaximum(summary[name].maximum, fiveStarPullDetails[name])
    {
      map name | name in fiveStarPullDetails && fiveStarPullDetails[name] != [] ::
        PityStats(|fiveStarPullDetails[name]|, MinOf(fiveStarPullDetails[name]), MaxOf(fiveStarPullDetails[name]))
    }
  }

  // ---------------------------------------------------------------------------------------
  // Additional pulls bought with stardust, per banner.

  class AdditionalPullsAnalysis {
    const bannersPulledOn: int
    var additionalPulls: seq<int>

    constructor (bannersPulledOn: int)
      ensures this.bannersPulledOn == bannersPulledOn && additionalPulls == []
    {
      this.bannersPulledOn := bannersPulledOn;
      additionalPulls := [];
    }

    /** Appends the session's additional pulls, on every banner. */
    method Analyse(simulationNumber: int, pullSessionResult: PullSessionResult, currentBanner: int)
      modifies this
      ensures additionalPulls == old(additionalPulls) + [pullSessionResult.additionalPulls]
    {
      additionalPulls := additionalPulls + [pullSessionResult.additionalPulls];
    }

    /** The least and greatest additional pulls recorded; nothing before the first call. */
    function SummarizeAnalysis(): (summary: Option<Range>)
      reads this
      ensures summary.None? <==> additionalPulls == []
      ensures summary.Some? ==> IsMinimum(summary.value.minimum, additionalPulls) && IsMaximum(summary.value.maximum, additionalPulls)
    {
      RangeOf(additionalPulls)
    }
  }

  // ---------------------------------------------------------------------------------------
  // Pulls remaining, per banner, and the simulation with the most left on its final banner.

  datatype RemainingSummary = RemainingSummary(minimum: int, maximum: int, simulation: int)

  class RemainingPullsAnalysis {
    const bannersPulledOn: int
    var remainingPulls: seq<int>
    var mostPullsRemaining: SimulationMax
    /** The simulation number and pulls remaining of every final-banner call, in order. */
    ghost var finalBanners: seq<SimulationMax>

    ghost predicate Valid()
      reads this
    {
      mostPullsRemaining == Leader(finalBanners)
    }

    constructor (bannersPulledOn: int)
      ensures Valid() && this.bannersPulledOn == bannersPulledOn
      ensures remainingPulls == [] && finalBanners == [] && mostPullsRemaining == SimulationMax(0, 0)
    {
      this.bannersPulledOn := bannersPulledOn;
      remainingPulls := [];
      mostPullsRemaining := SimulationMax(0, 0);
      finalBanners := [];
    }

    /** Appends the session's remaining pulls on every banner; on the final banner, takes the
        record only when it is strictly beaten. */
    method Analyse(simulationNumber: int, pullSessionResult: PullSessionResult, currentBanner: int)
      requires Valid()
      modifies this
      ensures Valid()
      ensures remainingPulls == old(remainingPulls) + [pullSessionResult.remainingPulls]
      ensures finalBanners == old(finalBanners) +
                (if currentBanner == bannersPulledOn - 1 then [SimulationMax(simulationNumber, pullSessionResult.remainingPulls)] else [])
    {
      remainingPulls := remainingPulls + [pullSessionResult.remainingPulls];

      if currentBanner != bannersPulledOn - 1 {
        return;
      }

      finalBanners := finalBanners + [SimulationMax(simulationNumber, pullSessionResult.remainingPulls)];
      assert finalBanners[..|finalBanners| - 1] == old(finalBanners);
      if pullSessionResult.remainingPulls > mostPullsRemaining.amount {
        mostPullsRemaining := SimulationMax(simulationNumber, pullSessionResult.remainingPulls);
      }
    }

    /** The least and greatest remaining pulls over all banners, with the simulation that first
        had the most pulls left on its final banner (0 when none had any). */
    function SummarizeAnalysis(): (summary: Option<RemainingSummary>)
      requires Valid()
      reads this
      ensures summary.None? <==> remainingPulls == []
      ensures summary.Some? ==>
                && IsMinimum(summary.value.minimum, remainingPulls)
                && IsMaximum(summary.value.maximum, remainingPulls)
                && summary.value.simulation == mostPullsRemaining.simulation
      ensures (forall i :: 0 <= i < |finalBanners| ==> finalBanners[i].amount <= 0) ==> mostPullsRemaining == SimulationMax(0, 0)
      ensures (exists i :: 0 <= i < |finalBanners| && finalBanners[i].amount > 0) ==>
                exists i :: IsFirstMaximum(finalBanners, i) && mostPullsRemaining == finalBanners[i]
    {
      LeaderIsFirstMaximum(finalBanners);
      if remainingPulls == [] then None
      else Some(RemainingSummary(MinOf(remainingPulls), MaxOf(remainingPulls), mostPullsRemaining.simulation))
    }
  }

  // ---------------------------------------------------------------------------------------
  // The simulation with the most five-stars over all its banners.

  class MostFiveStarsPulledAnalysis {
    const bannersPulledOn: int
    var mostFiveStarsPulled: SimulationMax
    var fiveStarCount: int
    /** The simulation number and five-star total of every final-banner call, in order. */
    ghost var finalBanners: seq<SimulationMax>

    ghost predicate Valid()
      reads this
    {
      mostFiveStarsPulled == Leader(finalBanners)
    }

    constructor (bannersPulledOn: int)
      ensures Valid() && this.bannersPulledOn == bannersPulledOn
      ensures fiveStarCount == 0 && finalBanners == [] && mostFiveStarsPulled == SimulationMax(0, 0)
    {
      this.bannersPulledOn := bannersPulledOn;
      mostFiveStarsPulled := SimulationMax(0, 0);
      fiveStarCount := 0;
      finalBanners := [];
    }

    /** Restarts the count on a simulation's first banner, adds the session's five-stars, and on
        the final banner takes the record only when the count strictly beats it. The session's
        by-rarity map must have a five-star list (the lookup throws otherwise). */
    method Analyse(simulationNumber: int, pullSessionResult: PullSessionResult, currentBanner: int)
      requires Valid() && FiveStar in pullSessionResult.resultsByRarity
      modifies this
      ensures Valid()
      ensures fiveStarCount == (if currentBanner == 0 then 0 else old(fiveStarCount)) + |pullSessionResult.resultsByRarity[FiveStar]|
      ensures finalBanners == old(finalBanners) +
                (if currentBanner == bannersPulledOn - 1 then [SimulationMax(simulationNumber, fiveStarCount)] else [])
    {
      if currentBanner == 0 {
        fiveStarCount := 0;
      }

      if |pullSessionResult.resultsByRarity[FiveStar]| != 0 {
        fiveStarCount := fiveStarCount + |pullSessionResult.resultsByRarity[FiveStar]|;
      }

      if currentBanner != bannersPulledOn - 1 {
        return;
      }

      finalBanners := finalBanners + [SimulationMax(simulationNumber, fiveStarCount)];
      assert finalBanners[..|finalBanners| - 1] == old(finalBanners);
      if fiveStarCount > mostFiveStarsPulled.amount {
        mostFiveStarsPulled := SimulationMax(simulationNumber, fiveStarCount);
      }
    }

    /** The record: the first simulation with the largest five-star total, or (0, 0). */
    function SummarizeAnalysis(): (best: SimulationMax)
      requires Valid()
      reads this
      ensures (forall i :: 0 <= i < |finalBanners| ==> finalBanners[i].amount <= 0) ==> best == SimulationMax(0, 0)
      ensures (exists i :: 0 <= i < |finalBanners| && finalBanners[i].amount > 0) ==>
                best.amount > 0 && exists i :: IsFirstMaximum(finalBanners, i) && best == finalBanners[i]
    {
      LeaderIsFirstMaximum(finalBanners);
      mostFiveStarsPulled
    }
  }
}
