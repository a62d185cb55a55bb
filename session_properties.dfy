/** What a session and a simulation guarantee: pull accounting, the stardust balance, the
    by-rarity lists, when budget can be left over, how long a session can last, how the
    ownership table evolves, and the carry-over from the first banner to the second. */
module SessionProperties {
  import opened Records
  import C = Constants
  import opened Catalogue
  import opened Banners
  import opened BannerProperties
  import opened Sessions

  /** The results of rarity `r`, in the order they were pulled. */
  function OfRarity(results: seq<PullResult>, r: Rarity): seq<PullResult>
  {
    if results == [] then []
    else
      var last := results[|results| - 1];
      OfRarity(results[..|results| - 1], r) + (if last.result.rarity == r then [last] else [])
  }

  lemma OfRarityAppend(results: seq<PullResult>, x: PullResult, r: Rarity)
    ensures OfRarity(results + [x], r) == OfRarity(results, r) + (if x.result.rarity == r then [x] else [])
  {
    assert (results + [x])[..|results|] == results;
  }

  /** The three rarity lists together hold every result exactly once. */
  lemma {:induction false} OfRarityPartition(results: seq<PullResult>)
    ensures |OfRarity(results, ThreeStar)| + |OfRarity(results, FourStar)| + |OfRarity(results, FiveStar)| == |results|
  {
    if results != [] {
      OfRarityPartition(results[..|results| - 1]);
    }
  }

  /** The by-rarity map has the three keys and each holds exactly the results of its rarity. */
  ghost predicate Partitioned(results: seq<PullResult>, byRarity: map<Rarity, seq<PullResult>>)
  {
    && HasAllRarities(byRarity)
    && byRarity[ThreeStar] == OfRarity(results, ThreeStar)
    && byRarity[FourStar] == OfRarity(results, FourStar)
    && byRarity[FiveStar] == OfRarity(results, FiveStar)
  }

  /** What holds at the top of every pass of a session started with budget `n`. */
  ghost predicate SessionInvariant(cfg: BannerConfig, n: int, s: LoopState)
  {
    && s.counters.pity < HardCap(cfg.bannerType)
    && |s.results| + s.pulls == n + s.additionalPulls
    && 0 <= s.stardust < C.StardustForPull
    && 0 <= s.additionalPulls <= |s.results|
    && Partitioned(s.results, s.resultsByRarity)
    && (n >= 0 ==> s.pulls >= 0)
  }

  /** One pass keeps the invariant; it never increases the budget and buys at most one pass. */
  lemma LoopBodyKeepsInvariant(cfg: BannerConfig, n: int, s: LoopState, d: Draw)
    requires WellFormed(cfg) && DrawFits(d, |cfg.fourStarCharacters|)
    requires SessionInvariant(cfg, n, s) && s.pulls > 0
    ensures var s' := LoopBody(cfg, s, d);
            && SessionInvariant(cfg, n, s')
            && s'.pulls <= s.pulls
            && s'.additionalPulls - s.additionalPulls == s'.pulls - s.pulls + 1
            && s'.results == s.results + [s'.results[|s.results|]]
  {
    var step := NextPull(cfg, s.counters, s.ownedCharacters, d);
    PullStardustAtMostPassCost(cfg, s.counters, s.ownedCharacters, d);
    PityStaysBelowHardCap(cfg, s.counters, s.ownedCharacters, d);
    var x := step.result;
    OfRarityAppend(s.results, x, ThreeStar);
    OfRarityAppend(s.results, x, FourStar);
    OfRarityAppend(s.results, x, FiveStar);
  }

  /** The whole loop keeps the invariant. */
  lemma {:induction false} RunLoopKeepsInvariant(cfg: BannerConfig, n: int, s: LoopState, rng: Stream)
    requires WellFormed(cfg) && StreamFits(rng, |cfg.fourStarCharacters|)
    requires SessionInvariant(cfg, n, s)
    ensures SessionInvariant(cfg, n, RunLoop(cfg, s, rng))
    decreases PullsToFeatured(cfg.bannerType, s.counters)
  {
    if s.pulls > 0 {
      var d := rng(|s.results|);
      var s' := LoopBody(cfg, s, d);
      LoopBodyKeepsInvariant(cfg, n, s, d);
      LoopBodyProgress(cfg, s, d);
      if !EndsSession(s'.results[|s.results|]) {
        RunLoopKeepsInvariant(cfg, n, s', rng);
      }
    }
  }

  lemma SessionInvariantAtStart(cfg: BannerConfig, c: PityCounters, owned: map<string, int>, n: int)
    requires c.pity < HardCap(cfg.bannerType)
    ensures SessionInvariant(cfg, n, StartState(c, owned, n))
  {
  }

  /** Pull accounting: the session made budget + bought passes - leftover budget pulls; the
      stardust balance ends below the pass cost; at most one pass was bought per pull; a
      non-negative budget never ends negative. */
  lemma SessionAccounting(cfg: BannerConfig, c: PityCounters, owned: map<string, int>, rng: Stream, n: int)
    requires WellFormed(cfg) && StreamFits(rng, |cfg.fourStarCharacters|) && c.pity < HardCap(cfg.bannerType)
    ensures var f := Session(cfg, c, owned, rng, n);
            && |f.results| == n + f.additionalPulls - f.pulls
            && 0 <= f.stardust < 20
            && 0 <= f.additionalPulls <= |f.results|
            && (n >= 0 ==> f.pulls >= 0)
  {
    SessionInvariantAtStart(cfg, c, owned, n);
    RunLoopKeepsInvariant(cfg, n, StartState(c, owned, n), rng);
  }

  /** The by-rarity lists: all three keys present, each the results of its rarity in pull order,
      and together as many entries as results. */
  lemma SessionByRarity(cfg: BannerConfig, c: PityCounters, owned: map<string, int>, rng: Stream, n: int)
    requires WellFormed(cfg) && StreamFits(rng, |cfg.fourStarCharacters|) && c.pity < HardCap(cfg.bannerType)
    ensures var f := Session(cfg, c, owned, rng, n);
            && Partitioned(f.results, f.resultsByRarity)
            && |f.resultsByRarity[ThreeStar]| + |f.resultsByRarity[FourStar]| + |f.resultsByRarity[FiveStar]| == |f.results|
  {
    SessionInvariantAtStart(cfg, c, owned, n);
    RunLoopKeepsInvariant(cfg, n, StartState(c, owned, n), rng);
    OfRarityPartition(Session(cfg, c, owned, rng, n).results);
  }

  /** The loop leaves budget over only when it stopped early, on the featured five-star. */
  lemma {:induction false} RunLoopLeftoverMeansStopped(cfg: BannerConfig, s: LoopState, rng: Stream)
    requires WellFormed(cfg) && StreamFits(rng, |cfg.fourStarCharacters|)
    requires s.counters.pity < HardCap(cfg.bannerType) && HasAllRarities(s.resultsByRarity)
    ensures var f := RunLoop(cfg, s, rng);
            f.pulls > 0 ==> |f.results| > 0 && EndsSession(f.results[|f.results| - 1])
                            && f.results[|f.results| - 1].result == cfg.fiveStar
    decreases PullsToFeatured(cfg.bannerType, s.counters)
  {
    if s.pulls > 0 {
      var d := rng(|s.results|);
      var s' := LoopBody(cfg, s, d);
      LoopBodyProgress(cfg, s, d);
      FiveStarGuarantee(cfg, s.counters, s.ownedCharacters, d);
      if !EndsSession(s'.results[|s.results|]) {
        RunLoopLeftoverMeansStopped(cfg, s', rng);
      }
    }
  }

  /** Leftover budget means the last pull was the featured five-star; with a non-negative budget
      the session otherwise uses it all up. */
  lemma RemainingPullsMeansFeaturedFiveStar(cfg: BannerConfig, c: PityCounters, owned: map<string, int>, rng: Stream, n: int)
    requires WellFormed(cfg) && StreamFits(rng, |cfg.fourStarCharacters|) && c.pity < HardCap(cfg.bannerType)
    ensures var f := Session(cfg, c, owned, rng, n);
            && (f.pulls > 0 ==> |f.results| > 0 && EndsSession(f.results[|f.results| - 1])
                                && f.results[|f.results| - 1].result == cfg.fiveStar)
            && (n >= 0 ==> f.pulls >= 0)
  {
    RunLoopLeftoverMeansStopped(cfg, StartState(c, owned, n), rng);
    SessionAccounting(cfg, c, owned, rng, n);
  }

  /** A budget of zero or less pulls nothing and changes nothing. */
  lemma NoBudgetNoPulls(cfg: BannerConfig, c: PityCounters, owned: map<string, int>, rng: Stream, n: int)
    requires WellFormed(cfg) && StreamFits(rng, |cfg.fourStarCharacters|) && c.pity < HardCap(cfg.bannerType)
    requires n <= 0
    ensures var f := Session(cfg, c, owned, rng, n);
            && f.results == [] && f.counters == c && f.ownedCharacters == owned
            && f.pulls == n && f.additionalPulls == 0
  {
  }

  /** However large the budget, a session ends within `PullsToFeatured` pulls: the hard cap
      forces a five-star, and after a lost 50/50 the next five-star is the featured one. */
  lemma {:induction false} RunLoopLength(cfg: BannerConfig, s: LoopState, rng: Stream)
    requires WellFormed(cfg) && StreamFits(rng, |cfg.fourStarCharacters|)
    requires s.counters.pity < HardCap(cfg.bannerType) && HasAllRarities(s.resultsByRarity)
    ensures |RunLoop(cfg, s, rng).results| <= |s.results| + PullsToFeatured(cfg.bannerType, s.counters)
    decreases PullsToFeatured(cfg.bannerType, s.counters)
  {
    if s.pulls > 0 {
      var d := rng(|s.results|);
      var s' := LoopBody(cfg, s, d);
      LoopBodyProgress(cfg, s, d);
      if !EndsSession(s'.results[|s.results|]) {
        RunLoopLength(cfg, s', rng);
      }
    }
  }

  /** From the simulations' start state a character session makes at most 48 pulls and a
      light-cone session at most 139, whatever the budget and the draws. */
  lemma SessionLength(cfg: BannerConfig, c: PityCounters, owned: map<string, int>, rng: Stream, n: int)
    requires WellFormed(cfg) && StreamFits(rng, |cfg.fourStarCharacters|) && c.pity < HardCap(cfg.bannerType)
    ensures |Session(cfg, c, owned, rng, n).results| <= PullsToFeatured(cfg.bannerType, c) <= 2 * HardCap(cfg.bannerType) - c.pity
    ensures cfg.bannerType == Character && c == CharacterBannerStart ==> |Session(cfg, c, owned, rng, n).results| <= 48
    ensures cfg.bannerType == LightCone && c == LightConeBannerStart ==> |Session(cfg, c, owned, rng, n).results| <= 139
  {
    RunLoopLength(cfg, StartState(c, owned, n), rng);
  }

  /** The names of the results from index `k` on. */
  ghost function NamesFrom(results: seq<PullResult>, k: int): set<string>
  {
    set i | k <= i < |results| && 0 <= i :: results[i].result.name
  }

  /** Ownership across a loop: no name disappears and only names pulled in the loop are added,
      a light-cone banner leaves the table as it was. */
  lemma {:induction false} RunLoopOwnership(cfg: BannerConfig, s: LoopState, rng: Stream)
    requires WellFormed(cfg) && StreamFits(rng, |cfg.fourStarCharacters|)
    requires s.counters.pity < HardCap(cfg.bannerType) && HasAllRarities(s.resultsByRarity)
    ensures var f := RunLoop(cfg, s, rng);
            && s.results <= f.results
            && s.ownedCharacters.Keys <= f.ownedCharacters.Keys <= s.ownedCharacters.Keys + NamesFrom(f.results, |s.results|)
            && (forall name :: name in s.ownedCharacters ==> s.ownedCharacters[name] <= f.ownedCharacters[name])
            && (NonNegativeCounts(s.ownedCharacters) ==> NonNegativeCounts(f.ownedCharacters))
            && (cfg.bannerType == LightCone ==> f.ownedCharacters == s.ownedCharacters)
    decreases PullsToFeatured(cfg.bannerType, s.counters)
  {
    if s.pulls > 0 {
      var d := rng(|s.results|);
      var s' := LoopBody(cfg, s, d);
      LoopBodyProgress(cfg, s, d);
      PullOwnershipGrows(cfg, s.counters, s.ownedCharacters, d);
      PullStardust(cfg, s.counters, s.ownedCharacters, d);
      var f := RunLoop(cfg, s, rng);
      if !EndsSession(s'.results[|s.results|]) {
        RunLoopOwnership(cfg, s', rng);
        assert f.results[|s.results|] == s'.results[|s.results|];
        assert NamesFrom(f.results, |s'.results|) <= NamesFrom(f.results, |s.results|);
      }
      assert s'.results[|s.results|].result.name in NamesFrom(f.results, |s.results|);
    }
  }

  /** A simulation records two sessions, the second on the first's leftover budget; leftover
      budget at the end means both sessions stopped on their featured five-star. Only the
      character session can change the ownership table, and only upwards. */
  lemma TrialCarryOver(characterBanner: Banner, lightConeBanner: Banner,
                       characterCfg: BannerConfig, lightConeCfg: BannerConfig,
                       characterStart: PityCounters, lightConeStart: PityCounters,
                       owned: map<string, int>, rng: (nat, nat, nat) -> Draw, trial: nat, initialPullCount: int)
    requires WellFormed(characterCfg) && WellFormed(lightConeCfg) && lightConeCfg.bannerType == LightCone
    requires characterStart.pity < HardCap(characterCfg.bannerType) && lightConeStart.pity < HardCap(lightConeCfg.bannerType)
    requires StreamFits(TrialStream(rng, trial, 0), |characterCfg.fourStarCharacters|)
    requires StreamFits(TrialStream(rng, trial, 1), |lightConeCfg.fourStarCharacters|)
    ensures var t := SimulateTrial(characterBanner, lightConeBanner, characterCfg, lightConeCfg, characterStart, lightConeStart,
                                   owned, rng, trial, initialPullCount);
            && |t.sessions| == 2
            && t.sessions[0].banner == characterBanner && t.sessions[1].banner == lightConeBanner
            && t.sessions[0].availablePulls == initialPullCount
            && t.sessions[1].availablePulls == t.sessions[0].remainingPulls
            && (t.sessions[1].remainingPulls > 0 ==>
                  && t.sessions[0].results != [] && t.sessions[0].results[|t.sessions[0].results| - 1].result == characterCfg.fiveStar
                  && t.sessions[1].results != [] && t.sessions[1].results[|t.sessions[1].results| - 1].result == lightConeCfg.fiveStar)
            && owned.Keys <= t.ownedCharacters.Keys
            && (forall name :: name in owned ==> owned[name] <= t.ownedCharacters[name])
  {
    var first := Session(characterCfg, characterStart, owned, TrialStream(rng, trial, 0), initialPullCount);
    var second := Session(lightConeCfg, lightConeStart, first.ownedCharacters, TrialStream(rng, trial, 1), first.pulls);
    RemainingPullsMeansFeaturedFiveStar(characterCfg, characterStart, owned, TrialStream(rng, trial, 0), initialPullCount);
    RemainingPullsMeansFeaturedFiveStar(lightConeCfg, lightConeStart, first.ownedCharacters, TrialStream(rng, trial, 1), first.pulls);
    RunLoopOwnership(characterCfg, StartState(characterStart, owned, initialPullCount), TrialStream(rng, trial, 0));
    RunLoopOwnership(lightConeCfg, StartState(lightConeStart, first.ownedCharacters, first.pulls), TrialStream(rng, trial, 1));
  }

  /** The catalogue's keys are exactly the names of the character banner's featured four-stars,
      so while no key is removed (and none ever is) none of them takes the insert path: a draw of
      one bumps its count by one. */
  lemma FeaturedFourStarsAlreadyCatalogued(owned: map<string, int>, i: nat)
    requires InitialOwnedCharacters().Keys <= owned.Keys && i < |AglaeaFourStars()|
    ensures InitialOwnedCharacters().Keys == set j | 0 <= j < |AglaeaFourStars()| :: AglaeaFourStars()[j].name
    ensures var name := AglaeaFourStars()[i].name;
            StardustFor(Character, owned, name).ownedCharacters == owned[name := owned[name] + 1]
  {
    var names := set j | 0 <= j < |AglaeaFourStars()| :: AglaeaFourStars()[j].name;
    assert AglaeaFourStars()[0].name in names;
    assert AglaeaFourStars()[1].name in names;
    assert AglaeaFourStars()[2].name in names;
  }
}
