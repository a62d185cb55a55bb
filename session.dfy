/** The session and trial runner: a budgeted loop of pulls on one banner that converts stardust
    into extra pulls and stops at the first non-standard five-star, and the trial loop that runs
    the character banner and then the light-cone banner with the leftover budget, resetting both
    banners from templates after every trial.

    `RunLoop` states the loop of a session as a function of its state, and `SimulatePullSession`
    is proved to agree with it. The loop has no fuel: it ends because every pull either moves
    the five-star pity toward its hard cap or settles a five-star, and after a lost 50/50 the
    next five-star is the featured one, which stops the session (`PullsToFeatured`). */
module Sessions {
  import opened Records
  import C = Constants
  import opened Catalogue
  import opened Banners
  import opened BannerProperties

  /** The draws of one session, indexed by the number of pulls made before. */
  type Stream = nat -> Draw

  ghost predicate StreamFits(rng: Stream, fourStarCount: nat)
  {
    forall k: nat :: DrawFits(rng(k), fourStarCount)
  }

  datatype PullSessionResult = PullSessionResult(
    banner: Banner,
    availablePulls: int,
    remainingPulls: int,
    results: seq<PullResult>,
    resultsByRarity: map<Rarity, seq<PullResult>>,
    additionalPulls: int)

  /** The variables of the session loop, together with the banner's counters and the ownership
      table it changes. */
  datatype LoopState = LoopState(
    counters: PityCounters,
    ownedCharacters: map<string, int>,
    pulls: int,
    stardust: int,
    additionalPulls: int,
    results: seq<PullResult>,
    resultsByRarity: map<Rarity, seq<PullResult>>)

  function EmptyByRarity(): map<Rarity, seq<PullResult>>
  {
    map[ThreeStar := [], FourStar := [], FiveStar := []]
  }

  predicate HasAllRarities(m: map<Rarity, seq<PullResult>>)
  {
    ThreeStar in m && FourStar in m && FiveStar in m
  }

  /** The early stop: a five-star that is not the standard one. */
  predicate EndsSession(r: PullResult)
  {
    r.result.rarity == FiveStar && !IsStandard5Star(r.result.name)
  }

  /** An upper bound on the pulls left before a featured five-star: up to the hard cap, and one
      more cap when the 50/50 may still be lost. */
  function PullsToFeatured(t: BannerType, c: PityCounters): int
  {
    (if c.guaranteeFiveStar then 0 else HardCap(t)) + HardCap(t) - c.pity
  }

  /** One pass of the loop body before the stop test: pull, collect the stardust, record the
      result in both lists, spend the pull and buy at most one pass. */
  function LoopBody(cfg: BannerConfig, s: LoopState, d: Draw): LoopState
    requires d.fourStarIndex < |cfg.fourStarCharacters| && HasAllRarities(s.resultsByRarity)
  {
    var step := NextPull(cfg, s.counters, s.ownedCharacters, d);
    var result := step.result;
    var stardust := s.stardust + step.stardust;
    var rarity := result.result.rarity;
    assert rarity in s.resultsByRarity by { assert rarity == ThreeStar || rarity == FourStar || rarity == FiveStar; }
    var results := s.results + [result];
    var byRarity := s.resultsByRarity[rarity := s.resultsByRarity[rarity] + [result]];
    var pulls := s.pulls - 1;
    if stardust >= 20 then
      LoopState(step.counters, step.ownedCharacters, pulls + 1, stardust - 20, s.additionalPulls + 1, results, byRarity)
    else
      LoopState(step.counters, step.ownedCharacters, pulls, stardust, s.additionalPulls, results, byRarity)
  }

  /** A pass that does not stop the session brings a featured five-star strictly closer. */
  lemma LoopBodyProgress(cfg: BannerConfig, s: LoopState, d: Draw)
    requires WellFormed(cfg) && DrawFits(d, |cfg.fourStarCharacters|) && HasAllRarities(s.resultsByRarity)
    requires s.counters.pity < HardCap(cfg.bannerType)
    ensures var s' := LoopBody(cfg, s, d);
            && s'.counters.pity < HardCap(cfg.bannerType)
            && HasAllRarities(s'.resultsByRarity)
            && |s'.results| == |s.results| + 1
            && (EndsSession(s'.results[|s.results|]) ||
                0 <= PullsToFeatured(cfg.bannerType, s'.counters) < PullsToFeatured(cfg.bannerType, s.counters))
  {
    PityStaysBelowHardCap(cfg, s.counters, s.ownedCharacters, d);
    FiveStarGuarantee(cfg, s.counters, s.ownedCharacters, d);
    PullResetsExactlyOneCounter(cfg, s.counters, s.ownedCharacters, d);
  }

  /** The session loop from state `s` until the budget is spent or the early stop fires. */
  function RunLoop(cfg: BannerConfig, s: LoopState, rng: Stream): LoopState
    requires WellFormed(cfg) && StreamFits(rng, |cfg.fourStarCharacters|)
    requires s.counters.pity < HardCap(cfg.bannerType) && HasAllRarities(s.resultsByRarity)
    decreases PullsToFeatured(cfg.bannerType, s.counters)
  {
    if s.pulls <= 0 then s
    else
      var d := rng(|s.results|);
      var s' := LoopBody(cfg, s, d);
      LoopBodyProgress(cfg, s, d);
      if EndsSession(s'.results[|s.results|]) then s' else RunLoop(cfg, s', rng)
  }

  /** The loop's state before the first pass: the budget, 16 stardust, nothing pulled. */
  function StartState(c: PityCounters, owned: map<string, int>, initialPullCount: int): LoopState
  {
    LoopState(c, owned, initialPullCount, 16, 0, [], EmptyByRarity())
  }

  /** A whole session from the banner's counters and the ownership table. */
  function Session(cfg: BannerConfig, c: PityCounters, owned: map<string, int>, rng: Stream, initialPullCount: int): LoopState
    requires WellFormed(cfg) && StreamFits(rng, |cfg.fourStarCharacters|) && c.pity < HardCap(cfg.bannerType)
  {
    RunLoop(cfg, StartState(c, owned, initialPullCount), rng)
  }

  function ResultOf(banner: Banner, initialPullCount: int, f: LoopState): PullSessionResult
  {
    PullSessionResult(banner, initialPullCount, f.pulls, f.results, f.resultsByRarity, f.additionalPulls)
  }

  /** Pulls on `banner` while budget remains, buying a pass whenever 20 stardust are available,
      and stops early at a non-standard five-star. */
  method SimulatePullSession(initialPullCount: int, banner: Banner, rng: Stream) returns (sessionResult: PullSessionResult)
    requires banner.Valid() && StreamFits(rng, |banner.fourStarCharacters|)
    modifies banner, banner.catalogue
    ensures banner.Valid() && banner.Config() == old(banner.Config())
    ensures var final := Session(old(banner.Config()), old(banner.Counters()), old(banner.catalogue.ownedCharacters), rng, initialPullCount);
            && sessionResult == ResultOf(banner, initialPullCount, final)
            && banner.Counters() == final.counters
            && banner.catalogue.ownedCharacters == final.ownedCharacters
  {
    ghost var cfg := banner.Config();
    ghost var final := Session(cfg, banner.Counters(), banner.catalogue.ownedCharacters, rng, initialPullCount);

    var pulls := initialPullCount;
    var stardust := 16;
    var additionalPulls := 0;
    var results: seq<PullResult> := [];
    var resultsByRarity := map[ThreeStar := [], FourStar := [], FiveStar := []];

    while pulls > 0
      invariant banner.Valid() && banner.Config() == cfg
      invariant HasAllRarities(resultsByRarity)
      invariant RunLoop(cfg, LoopState(banner.Counters(), banner.catalogue.ownedCharacters, pulls, stardust,
                                       additionalPulls, results, resultsByRarity), rng) == final
      decreases PullsToFeatured(banner.bannerType, banner.Counters())
    {
      ghost var before := LoopState(banner.Counters(), banner.catalogue.ownedCharacters, pulls, stardust,
                                    additionalPulls, results, resultsByRarity);
      var d := rng(|results|);
      var result, obtainedStardust := banner.Pull(d);
      stardust := stardust + obtainedStardust;
      results := results + [result];
      resultsByRarity := resultsByRarity[result.result.rarity := resultsByRarity[result.result.rarity] + [result]];

      pulls := pulls - 1;

      // Buy a pass with stardust when possible: one more pull.
      if stardust >= 20 {
        stardust := stardust - 20;
        pulls := pulls + 1;
        additionalPulls := additionalPulls + 1;
      }

      ghost var after := LoopState(banner.Counters(), banner.catalogue.ownedCharacters, pulls, stardust,
                                   additionalPulls, results, resultsByRarity);
      assert after == LoopBody(cfg, before, d);
      LoopBodyProgress(cfg, before, d);

      if result.result.rarity == FiveStar && result.result.name != "Standard" {
        break;
      }
    }

    sessionResult := PullSessionResult(banner, initialPullCount, pulls, results, resultsByRarity, additionalPulls);
  }

  /** Copies the pity counters and guarantee flags of one banner onto another. */
  method TransferBannerStats(previousBanner: Banner, newBanner: Banner)
    modifies newBanner
    ensures newBanner.Counters() == old(previousBanner.Counters())
    ensures newBanner.Config() == old(newBanner.Config())
    ensures unchanged(previousBanner)
  {
    newBanner.pity := previousBanner.pity;
    newBanner.pityFourStar := previousBanner.pityFourStar;
    newBanner.guaranteeFourStar := previousBanner.guaranteeFourStar;
    newBanner.guaranteeFiveStar := previousBanner.guaranteeFiveStar;
  }

  /** The character banner's featured four-stars, in order. */
  function AglaeaFourStars(): seq<CharacterOrLightCone>
  {
    [CharacterOrLightCone("Tingyun", FourStar), CharacterOrLightCone("Hanya", FourStar), CharacterOrLightCone("Sushang", FourStar)]
  }

  function AglaeaCharacterConfig(): BannerConfig
  {
    BannerConfig(Character, CharacterOrLightCone("Aglaea", FiveStar), AglaeaFourStars())
  }

  function AglaeaLightConeConfig(): BannerConfig
  {
    BannerConfig(LightCone, CharacterOrLightCone("Time Woven Into Gold", FiveStar),
                 [CharacterOrLightCone("4* Remember", FourStar), CharacterOrLightCone("Subscribe for More!", FourStar),
                  CharacterOrLightCone("Dance! Dance! Dance!", FourStar)])
  }

  /** Where each simulation starts: pity 42, four-star pity 2, five-star guarantee held. */
  const CharacterBannerStart: PityCounters := PityCounters(42, 2, true, false)

  /** Where each simulation starts: pity 21, four-star pity 2, no guarantee. */
  const LightConeBannerStart: PityCounters := PityCounters(21, 2, false, false)

  method ConstructAglaeaCharacterBanner(catalogue: EidolonCatalogue) returns (banner: Banner)
    ensures fresh(banner) && banner.Valid() && banner.catalogue == catalogue
    ensures banner.Config() == AglaeaCharacterConfig() && banner.Counters() == CharacterBannerStart
  {
    var cfg := AglaeaCharacterConfig();
    banner := new Banner(cfg.bannerType, cfg.fiveStar, cfg.fourStarCharacters, catalogue,
                         CharacterBannerStart.pity, CharacterBannerStart.pityFourStar,
                         CharacterBannerStart.guaranteeFiveStar, CharacterBannerStart.guaranteeFourStar);
  }

  method ConstructAglaeaLightConeBanner(catalogue: EidolonCatalogue) returns (banner: Banner)
    ensures fresh(banner) && banner.Valid() && banner.catalogue == catalogue
    ensures banner.Config() == AglaeaLightConeConfig() && banner.Counters() == LightConeBannerStart
  {
    var cfg := AglaeaLightConeConfig();
    banner := new Banner(cfg.bannerType, cfg.fiveStar, cfg.fourStarCharacters, catalogue,
                         LightConeBannerStart.pity, LightConeBannerStart.pityFourStar,
                         LightConeBannerStart.guaranteeFiveStar, LightConeBannerStart.guaranteeFourStar);
  }

  /** The draws of session `session` of simulation `trial`. */
  function TrialStream(rng: (nat, nat, nat) -> Draw, trial: nat, session: nat): Stream
  {
    (k: nat) => rng(trial, session, k)
  }

  /** What one simulation produces and the ownership table it leaves behind. */
  datatype TrialOutcome = TrialOutcome(sessions: seq<PullSessionResult>, ownedCharacters: map<string, int>)

  /** One simulation: a session on the character banner from its start counters, then a session
      on the light-cone banner from its start counters with the first session's leftover budget. */
  function SimulateTrial(characterBanner: Banner, lightConeBanner: Banner,
                         characterCfg: BannerConfig, lightConeCfg: BannerConfig,
                         characterStart: PityCounters, lightConeStart: PityCounters,
                         owned: map<string, int>, rng: (nat, nat, nat) -> Draw, trial: nat, initialPullCount: int): TrialOutcome
    requires WellFormed(characterCfg) && WellFormed(lightConeCfg)
    requires characterStart.pity < HardCap(characterCfg.bannerType) && lightConeStart.pity < HardCap(lightConeCfg.bannerType)
    requires StreamFits(TrialStream(rng, trial, 0), |characterCfg.fourStarCharacters|)
    requires StreamFits(TrialStream(rng, trial, 1), |lightConeCfg.fourStarCharacters|)
  {
    var first := Session(characterCfg, characterStart, owned, TrialStream(rng, trial, 0), initialPullCount);
    var second := Session(lightConeCfg, lightConeStart, first.ownedCharacters, TrialStream(rng, trial, 1), first.pulls);
    TrialOutcome([ResultOf(characterBanner, initialPullCount, first), ResultOf(lightConeBanner, first.pulls, second)],
                 second.ownedCharacters)
  }

  /** The body of the trial loop before the reset: the character session on the budget, then the
      light-cone session on what it left, both recorded in order. */
  method RunTrial(trial: nat, initialPullCount: int, characterBanner: Banner, lightConeBanner: Banner, rng: (nat, nat, nat) -> Draw)
    returns (sessions: seq<PullSessionResult>)
    requires characterBanner != lightConeBanner && characterBanner.catalogue == lightConeBanner.catalogue
    requires characterBanner.Valid() && lightConeBanner.Valid()
    requires StreamFits(TrialStream(rng, trial, 0), |characterBanner.fourStarCharacters|)
    requires StreamFits(TrialStream(rng, trial, 1), |lightConeBanner.fourStarCharacters|)
    modifies characterBanner, lightConeBanner, characterBanner.catalogue
    ensures characterBanner.Valid() && characterBanner.Config() == old(characterBanner.Config())
    ensures lightConeBanner.Valid() && lightConeBanner.Config() == old(lightConeBanner.Config())
    ensures var t := SimulateTrial(characterBanner, lightConeBanner, old(characterBanner.Config()), old(lightConeBanner.Config()),
                                   old(characterBanner.Counters()), old(lightConeBanner.Counters()),
                                   old(characterBanner.catalogue.ownedCharacters), rng, trial, initialPullCount);
            sessions == t.sessions && characterBanner.catalogue.ownedCharacters == t.ownedCharacters
    ensures var first := Session(old(characterBanner.Config()), old(characterBanner.Counters()),
                                 old(characterBanner.catalogue.ownedCharacters), TrialStream(rng, trial, 0), initialPullCount);
            var second := Session(old(lightConeBanner.Config()), old(lightConeBanner.Counters()),
                                  first.ownedCharacters, TrialStream(rng, trial, 1), first.pulls);
            characterBanner.Counters() == first.counters && lightConeBanner.Counters() == second.counters
  {
    var sessionResult := SimulatePullSession(initialPullCount, characterBanner, TrialStream(rng, trial, 0));
    var sessionResult2 := SimulatePullSession(sessionResult.remainingPulls, lightConeBanner, TrialStream(rng, trial, 1));
    sessions := [];
    sessions := sessions + [sessionResult];
    sessions := sessions + [sessionResult2];
  }

  /** The trial loop: every simulation runs both sessions from the banners' template state,
      records them, and copies the templates' counters back onto the banners. The ownership
      table is shared by the banners and carries over from one simulation to the next;
      `ownedBefore[i]` is the table as simulation `i` starts. */
  method RunSimulations(initialPullCount: int, characterBanner: Banner, lightConeBanner: Banner,
                        characterTemplate: Banner, lightConeTemplate: Banner, rng: (nat, nat, nat) -> Draw)
    returns (results: array<seq<PullSessionResult>>, ghost ownedBefore: seq<map<string, int>>)
    requires characterBanner != lightConeBanner
    requires {characterTemplate, lightConeTemplate} !! {characterBanner, lightConeBanner}
    requires characterBanner.catalogue == lightConeBanner.catalogue
    requires characterBanner.Valid() && lightConeBanner.Valid()
    requires characterTemplate.Counters() == characterBanner.Counters()
    requires lightConeTemplate.Counters() == lightConeBanner.Counters()
    requires forall i: nat, k: nat :: DrawFits(rng(i, 0, k), |characterBanner.fourStarCharacters|)
    requires forall i: nat, k: nat :: DrawFits(rng(i, 1, k), |lightConeBanner.fourStarCharacters|)
    modifies characterBanner, lightConeBanner, characterBanner.catalogue
    ensures fresh(results) && results.Length == C.SimulationCount
    ensures characterBanner.Valid() && characterBanner.Config() == old(characterBanner.Config())
    ensures lightConeBanner.Valid() && lightConeBanner.Config() == old(lightConeBanner.Config())
    ensures characterBanner.Counters() == characterTemplate.Counters() == old(characterBanner.Counters())
    ensures lightConeBanner.Counters() == lightConeTemplate.Counters() == old(lightConeBanner.Counters())
    ensures |ownedBefore| == C.SimulationCount + 1
    ensures ownedBefore[0] == old(characterBanner.catalogue.ownedCharacters)
    ensures ownedBefore[C.SimulationCount] == characterBanner.catalogue.ownedCharacters
    ensures forall i :: 0 <= i < C.SimulationCount ==>
              TrialRecorded(results[i], ownedBefore[i], ownedBefore[i + 1], characterBanner, lightConeBanner,
                            old(characterBanner.Config()), old(lightConeBanner.Config()),
                            old(characterBanner.Counters()), old(lightConeBanner.Counters()), rng, i, initialPullCount)
  {
    ghost var characterCfg := characterBanner.Config();
    ghost var lightConeCfg := lightConeBanner.Config();
    ghost var characterStart := characterBanner.Counters();
    ghost var lightConeStart := lightConeBanner.Counters();
    var catalogue := characterBanner.catalogue;

    results := new seq<PullSessionResult>[C.SimulationCount];
    ownedBefore := [catalogue.ownedCharacters];

    for i := 0 to C.SimulationCount
      invariant |ownedBefore| == i + 1
      invariant ownedBefore[0] == old(catalogue.ownedCharacters) && ownedBefore[i] == catalogue.ownedCharacters
      invariant characterBanner.Valid() && characterBanner.Config() == characterCfg && characterBanner.Counters() == characterStart
      invariant lightConeBanner.Valid() && lightConeBanner.Config() == lightConeCfg && lightConeBanner.Counters() == lightConeStart
      invariant forall j :: 0 <= j < i ==>
                  TrialRecorded(results[j], ownedBefore[j], ownedBefore[j + 1], characterBanner, lightConeBanner,
                                characterCfg, lightConeCfg, characterStart, lightConeStart, rng, j, initialPullCount)
    {
      assert StreamFits(TrialStream(rng, i, 0), |characterBanner.fourStarCharacters|);
      assert StreamFits(TrialStream(rng, i, 1), |lightConeBanner.fourStarCharacters|);
      results[i] := RunTrial(i, initialPullCount, characterBanner, lightConeBanner, rng);

      // Reset both banners from their templates.
      TransferBannerStats(characterTemplate, characterBanner);
      TransferBannerStats(lightConeTemplate, lightConeBanner);

      ownedBefore := ownedBefore + [catalogue.ownedCharacters];
      assert TrialRecorded(results[i], ownedBefore[i], ownedBefore[i + 1], characterBanner, lightConeBanner,
                           characterCfg, lightConeCfg, characterStart, lightConeStart, rng, i, initialPullCount);
    }
  }

  /** Simulation `trial` recorded `sessions` and took the ownership table from `ownedBefore` to
      `ownedAfter`, exactly as `SimulateTrial` from the given start state says. */
  ghost predicate TrialRecorded(sessions: seq<PullSessionResult>, ownedBefore: map<string, int>, ownedAfter: map<string, int>,
                                characterBanner: Banner, lightConeBanner: Banner,
                                characterCfg: BannerConfig, lightConeCfg: BannerConfig,
                                characterStart: PityCounters, lightConeStart: PityCounters,
                                rng: (nat, nat, nat) -> Draw, trial: nat, initialPullCount: int)
  {
    && WellFormed(characterCfg) && WellFormed(lightConeCfg)
    && characterStart.pity < HardCap(characterCfg.bannerType) && lightConeStart.pity < HardCap(lightConeCfg.bannerType)
    && StreamFits(TrialStream(rng, trial, 0), |characterCfg.fourStarCharacters|)
    && StreamFits(TrialStream(rng, trial, 1), |lightConeCfg.fourStarCharacters|)
    && var t := SimulateTrial(characterBanner, lightConeBanner, characterCfg, lightConeCfg, characterStart, lightConeStart,
                              ownedBefore, rng, trial, initialPullCount);
       sessions == t.sessions && ownedAfter == t.ownedCharacters
  }
}
