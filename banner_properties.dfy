/** What one pull of a banner guarantees: counter bookkeeping, the hard caps, the 50/50 and its
    guarantee flags, the soft-pity curve as written, and the stardust/ownership rule. */
module BannerProperties {
  import opened Records
  import C = Constants
  import opened Catalogue
  import opened Banners

  /** Both counters are incremented first; the result records the incremented values and the
      guarantee flag of its rarity as it was before the pull (none for a three-star). */
  lemma PullRecordsIncrementedCounters(cfg: BannerConfig, c: PityCounters, owned: map<string, int>, d: Draw)
    requires WellFormed(cfg) && DrawFits(d, |cfg.fourStarCharacters|)
    ensures var s := NextPull(cfg, c, owned, d);
            && s.result.pity == c.pity + 1
            && s.result.fourStarPity == c.pityFourStar + 1
            && (s.result.result.rarity == FiveStar ==> s.result.guarantee == Some(c.guaranteeFiveStar))
            && (s.result.result.rarity == FourStar ==> s.result.guarantee == Some(c.guaranteeFourStar))
            && (s.result.result.rarity == ThreeStar <==> s.result.guarantee == None)
  {
  }

  /** A five-star resets only the five-star pity, a four-star only the four-star pity, a
      three-star neither; the flag of the other rarity is never touched. */
  lemma PullResetsExactlyOneCounter(cfg: BannerConfig, c: PityCounters, owned: map<string, int>, d: Draw)
    requires WellFormed(cfg) && DrawFits(d, |cfg.fourStarCharacters|)
    ensures var s := NextPull(cfg, c, owned, d);
            match s.result.result.rarity
            case FiveStar =>
              s.counters.pity == 0 && s.counters.pityFourStar == c.pityFourStar + 1
              && s.counters.guaranteeFourStar == c.guaranteeFourStar
            case FourStar =>
              s.counters.pityFourStar == 0 && s.counters.pity == c.pity + 1
              && s.counters.guaranteeFiveStar == c.guaranteeFiveStar
            case ThreeStar =>
              s.counters == PityCounters(c.pity + 1, c.pityFourStar + 1, c.guaranteeFiveStar, c.guaranteeFourStar)
  {
  }

  /** Reaching the hard cap forces a five-star whatever the rarity roll. */
  lemma HardCapForcesFiveStar(cfg: BannerConfig, c: PityCounters, owned: map<string, int>, d: Draw)
    requires WellFormed(cfg) && DrawFits(d, |cfg.fourStarCharacters|)
    requires c.pity + 1 == HardCap(cfg.bannerType)
    ensures NextPull(cfg, c, owned, d).result.result.rarity == FiveStar
  {
  }

  /** At or past the hard cap the threshold is at least 1, so every pull is a five-star. */
  lemma PastHardCapForcesFiveStar(cfg: BannerConfig, c: PityCounters, owned: map<string, int>, d: Draw)
    requires WellFormed(cfg) && DrawFits(d, |cfg.fourStarCharacters|)
    requires c.pity + 1 >= HardCap(cfg.bannerType)
    ensures FiveStarThreshold(cfg.bannerType, c.pity + 1) >= 1.0
    ensures NextPull(cfg, c, owned, d).result.result.rarity == FiveStar
  {
  }

  /** A pity below the hard cap stays below it after any pull. */
  lemma PityStaysBelowHardCap(cfg: BannerConfig, c: PityCounters, owned: map<string, int>, d: Draw)
    requires DrawFits(d, |cfg.fourStarCharacters|)
    requires c.pity < HardCap(cfg.bannerType)
    ensures NextPull(cfg, c, owned, d).counters.pity < HardCap(cfg.bannerType)
  {
  }

  /** The five-star 50/50: the featured item is awarded, and the flag cleared, exactly when the
      flag was set or the 50/50 roll succeeds; otherwise the standard five-star is awarded and the
      flag set. */
  lemma FiveStarGuarantee(cfg: BannerConfig, c: PityCounters, owned: map<string, int>, d: Draw)
    requires WellFormed(cfg) && DrawFits(d, |cfg.fourStarCharacters|)
    ensures var s := NextPull(cfg, c, owned, d);
            s.result.result.rarity == FiveStar ==>
              if c.guaranteeFiveStar || d.r2 <= FiftyFifty(cfg.bannerType) then
                s.result.result == cfg.fiveStar && !s.counters.guaranteeFiveStar
              else
                s.result.result == Standard5Star && s.counters.guaranteeFiveStar
  {
  }

  /** The four-star 50/50, the same rule with the four-star flag: winning awards the listed
      four-star the draw picks and clears the flag, losing awards the standard four-star and
      sets it. */
  lemma FourStarGuarantee(cfg: BannerConfig, c: PityCounters, owned: map<string, int>, d: Draw)
    requires WellFormed(cfg) && DrawFits(d, |cfg.fourStarCharacters|)
    ensures var s := NextPull(cfg, c, owned, d);
            s.result.result.rarity == FourStar ==>
              if c.guaranteeFourStar || d.r2 <= FiftyFifty(cfg.bannerType) then
                s.result.result == cfg.fourStarCharacters[d.fourStarIndex] && !s.counters.guaranteeFourStar
              else
                s.result.result == Standard4Star && s.counters.guaranteeFourStar
  {
  }

  /** When no five-star fires and the four-star pity reaches exactly 10, a four-star is awarded
      whatever the rarity roll. */
  lemma FourStarCapForcesFourStar(cfg: BannerConfig, c: PityCounters, owned: map<string, int>, d: Draw)
    requires WellFormed(cfg) && DrawFits(d, |cfg.fourStarCharacters|)
    requires c.pityFourStar + 1 == C.MaxPity4Star
    ensures NextPull(cfg, c, owned, d).result.result.rarity != ThreeStar
  {
  }

  /** The four-star cap is an equality test and a five-star does not reset the four-star pity, so
      once the counter has passed 10 a high rarity roll yields a three-star: the cap is missed. */
  lemma FourStarCapMissedPastTen(cfg: BannerConfig, c: PityCounters, owned: map<string, int>, d: Draw)
    requires WellFormed(cfg) && DrawFits(d, |cfg.fourStarCharacters|)
    requires c.pityFourStar >= C.MaxPity4Star && c.pity + 1 < C.LightConeSoftPityStart
    requires d.r1 > Average5StarDropRate(cfg.bannerType) + Average4StarDropRate(cfg.bannerType)
    ensures NextPull(cfg, c, owned, d).result.result.rarity == ThreeStar
    ensures NextPull(cfg, c, owned, d).counters.pityFourStar == c.pityFourStar + 1
  {
  }

  /** A run that reaches that state: a five-star forced by the character hard cap while the
      four-star pity turns 10, then a three-star at four-star pity 11. */
  lemma FourStarPityPassesTen(cfg: BannerConfig, owned: map<string, int>, d1: Draw, d2: Draw)
    requires WellFormed(cfg) && cfg.bannerType == Character
    requires DrawFits(d1, |cfg.fourStarCharacters|) && DrawFits(d2, |cfg.fourStarCharacters|)
    requires d2.r1 > 0.5
    ensures var s1 := NextPull(cfg, PityCounters(89, 9, false, false), owned, d1);
            && s1.result.result.rarity == FiveStar
            && s1.counters.pityFourStar == 10
            && var s2 := NextPull(cfg, s1.counters, s1.ownedCharacters, d2);
            && s2.result.result.rarity == ThreeStar
            && s2.counters.pityFourStar == 11
  {
    var s1 := NextPull(cfg, PityCounters(89, 9, false, false), owned, d1);
    FourStarCapMissedPastTen(cfg, s1.counters, s1.ownedCharacters, d2);
  }

  /** The soft-pity curve as written: the character step from 74 on a character banner; the
      light-cone step from 63 on both banner types (so from 63 to 73 on a character banner);
      the base rate below. */
  lemma SoftPityThreshold(t: BannerType, pity: int)
    ensures t == Character && pity >= C.CharacterSoftPityStart ==>
              FiveStarThreshold(t, pity) == C.CharacterAverage5StarDropRate + (pity - 73) as real * 0.06
    ensures t == Character && C.LightConeSoftPityStart <= pity < C.CharacterSoftPityStart ==>
              FiveStarThreshold(t, pity) == C.CharacterAverage5StarDropRate + (pity - 62) as real * 0.067
    ensures t == LightCone && pity >= C.LightConeSoftPityStart ==>
              FiveStarThreshold(t, pity) == C.LightConeAverage5StarDropRate + (pity - 62) as real * 0.067
    ensures pity < C.LightConeSoftPityStart ==> FiveStarThreshold(t, pity) == Average5StarDropRate(t)
  {
  }

  /** On a light-cone banner the threshold never decreases as pity grows. */
  lemma LightConeThresholdMonotone(p: int, q: int)
    requires p <= q
    ensures FiveStarThreshold(LightCone, p) <= FiveStarThreshold(LightCone, q)
  {
  }

  /** On a character banner the threshold drops where the character step takes over from the
      light-cone step: at pity 73 it is 0.743, at 74 only 0.066. */
  lemma CharacterThresholdDropsAtSoftPity()
    ensures FiveStarThreshold(Character, 73) == 0.743
    ensures FiveStarThreshold(Character, 74) == 0.066
    ensures FiveStarThreshold(Character, 74) < FiveStarThreshold(Character, 73)
  {
  }

  /** A pull yields stardust only for a featured four-star (a four-star that clears the four-star
      flag), and then exactly what the duplicate rule gives for its name; only that case touches
      the ownership table. A standard four-star yields 0. */
  lemma PullStardust(cfg: BannerConfig, c: PityCounters, owned: map<string, int>, d: Draw)
    requires WellFormed(cfg) && DrawFits(d, |cfg.fourStarCharacters|)
    ensures var s := NextPull(cfg, c, owned, d);
            if s.result.result.rarity == FourStar && !s.counters.guaranteeFourStar then
              var award := StardustFor(cfg.bannerType, owned, s.result.result.name);
              s.stardust == award.amount && s.ownedCharacters == award.ownedCharacters
            else
              s.stardust == 0 && s.ownedCharacters == owned
  {
  }

  /** The duplicate rule case by case: 8 on a light-cone banner without touching the table; on a
      character banner a known name has its count bumped and yields 8 for a prior count of 1..5,
      0 for 0 and 20 otherwise; an unknown "Standard" yields 8 and is not inserted; any other
      unknown name is inserted with count 1 and yields 0. */
  lemma StardustForCases(t: BannerType, owned: map<string, int>, name: string)
    ensures var a := StardustFor(t, owned, name);
            if t == LightCone then a == StardustAward(8, owned)
            else if name in owned then
              && a.ownedCharacters == owned[name := owned[name] + 1]
              && a.amount == (if 1 <= owned[name] <= 5 then 8 else if owned[name] == 0 then 0 else 20)
            else if name == "Standard" then a == StardustAward(8, owned)
            else a == StardustAward(0, owned[name := 1])
  {
  }

  /** A single pull yields 0, 8 or 20 stardust: never more than the cost of a pass. */
  lemma PullStardustAtMostPassCost(cfg: BannerConfig, c: PityCounters, owned: map<string, int>, d: Draw)
    requires WellFormed(cfg) && DrawFits(d, |cfg.fourStarCharacters|)
    ensures var s := NextPull(cfg, c, owned, d);
            (s.stardust == 0 || s.stardust == 8 || s.stardust == 20) && s.stardust <= C.StardustForPull
  {
  }

  /** Ownership only grows: no name disappears, no count falls, and only the drawn name changes,
      by exactly one when it was known. */
  lemma PullOwnershipGrows(cfg: BannerConfig, c: PityCounters, owned: map<string, int>, d: Draw)
    requires WellFormed(cfg) && DrawFits(d, |cfg.fourStarCharacters|)
    ensures var s := NextPull(cfg, c, owned, d);
            && owned.Keys <= s.ownedCharacters.Keys <= owned.Keys + {s.result.result.name}
            && (forall name :: name in owned ==> owned[name] <= s.ownedCharacters[name])
            && (forall name :: name in owned && name != s.result.result.name ==> s.ownedCharacters[name] == owned[name])
            && (s.result.result.name in owned && s.ownedCharacters != owned ==>
                  s.ownedCharacters[s.result.result.name] == owned[s.result.result.name] + 1)
            && (NonNegativeCounts(owned) ==> NonNegativeCounts(s.ownedCharacters))
  {
    PullStardust(cfg, c, owned, d);
  }

  /** From the initial table: a Sushang duplicate yields 0 and Hanya or Tingyun 8; a name yields
      20 only once its prior count is at least 6 (given non-negative counts). */
  lemma InitialDuplicateRewards(owned: map<string, int>, name: string)
    requires NonNegativeCounts(owned)
    ensures StardustFor(Character, InitialOwnedCharacters(), "Sushang").amount == 0
    ensures StardustFor(Character, InitialOwnedCharacters(), "Hanya").amount == 8
    ensures StardustFor(Character, InitialOwnedCharacters(), "Tingyun").amount == 8
    ensures StardustFor(Character, owned, name).amount == 20 <==> name in owned && owned[name] >= 6
  {
  }
}
