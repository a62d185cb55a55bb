/** The banner pull engine: one banner's pity counters and guarantee flags, and the pull that
    decides between a five-star, a four-star and a three-star.

    The random numbers a pull consumes are parameters (a `Draw`). `NextPull` states, as a
    function of the banner's configuration, its counters, the ownership table and the draw,
    everything one pull produces; `Banner.Pull` performs the same pull step by step on the
    object and is proved to agree with it. */
module Banners {
  import opened Records
  import C = Constants

  import opened Catalogue

  const Standard5Star: CharacterOrLightCone := CharacterOrLightCone("Standard", FiveStar)
  const Standard4Star: CharacterOrLightCone := CharacterOrLightCone("Standard", FourStar)
  const ThreeStarLightCone: CharacterOrLightCone := CharacterOrLightCone("Generic LightCone", ThreeStar)

  /** Whether a five-star's name is the standard (lost 50/50) one. The analysers call a banner
      method of this name that the banner class does not define; it is taken to compare with the
      name of `Standard5Star`, the test the session loop uses. */
  predicate IsStandard5Star(name: string)
  {
    name == Standard5Star.name
  }

  /** The random numbers one pull may consume: the rarity roll, the 50/50 roll, and the index
      of the featured four-star (used only when one is awarded). */
  datatype Draw = Draw(r1: real, r2: real, fourStarIndex: nat)

  /** What the random source guarantees: both rolls in [0, 1) and an index into the list. */
  predicate DrawFits(d: Draw, fourStarCount: nat)
  {
    0.0 <= d.r1 < 1.0 && 0.0 <= d.r2 < 1.0 && d.fourStarIndex < fourStarCount
  }

  /** The parts of a banner that a pull reads but never changes. */
  datatype BannerConfig = BannerConfig(bannerType: BannerType, fiveStar: CharacterOrLightCone, fourStarCharacters: seq<CharacterOrLightCone>)

  /** The parts of a banner that a pull changes. */
  datatype PityCounters = PityCounters(pity: int, pityFourStar: int, guaranteeFiveStar: bool, guaranteeFourStar: bool)

  /** A banner whose featured items carry the rarity of their tier and whose featured
      five-star is not named like the standard one. */
  ghost predicate WellFormed(cfg: BannerConfig)
  {
    && cfg.fiveStar.rarity == FiveStar
    && !IsStandard5Star(cfg.fiveStar.name)
    && forall i :: 0 <= i < |cfg.fourStarCharacters| ==> cfg.fourStarCharacters[i].rarity == FourStar
  }

  /** The five-star hard cap: 90 on a character banner, 80 on a light-cone banner. */
  function HardCap(t: BannerType): int
  {
    if t == Character then C.MaxPity5StarCharacter else C.MaxPity5StarLightCone
  }

  function FiftyFifty(t: BannerType): real
  {
    if t == Character then C.CharacterFiftyFifty else C.LightConeFiftyFifty
  }

  function Average5StarDropRate(t: BannerType): real
  {
    if t == Character then C.CharacterAverage5StarDropRate else C.LightConeAverage5StarDropRate
  }

  function Average4StarDropRate(t: BannerType): real
  {
    if t == Character then C.CharacterAverage4StarDropRate else C.LightConeAverage4StarDropRate
  }

  /** The five-star threshold for the (already incremented) pity: the base rate, raised by the
      character step from the character soft-pity start on a character banner, and otherwise by
      the light-cone step from the light-cone soft-pity start, whatever the banner type. */
  function FiveStarThreshold(t: BannerType, pity: int): real
  {
    if t == Character && pity >= C.CharacterSoftPityStart then
      Average5StarDropRate(t) + (pity - C.CharacterSoftPityStart + 1) as real * C.CharacterSoftPityIncrease
    else if pity >= C.LightConeSoftPityStart then
      Average5StarDropRate(t) + (pity - C.LightConeSoftPityStart + 1) as real * C.LightConeSoftPityIncrease
    else
      Average5StarDropRate(t)
  }

  /** The stardust a featured four-star yields and the ownership table afterwards. */
  datatype StardustAward = StardustAward(amount: int, ownedCharacters: map<string, int>)

  /** The duplicate rule, as a function of the banner type, the ownership table and the name. */
  function StardustFor(t: BannerType, owned: map<string, int>, name: string): StardustAward
  {
    if t == Character then
      if name in owned then
        var existingCopies := owned[name];
        var owned' := owned[name := existingCopies + 1];
        if 0 < existingCopies < 6 then StardustAward(C.StardustFromDuplicate4StarIncomplete, owned')
        else if existingCopies == 0 then StardustAward(0, owned')
        else StardustAward(C.StardustFromDuplicate4StarComplete, owned')
      else if name == "Standard" then StardustAward(8, owned)
      else StardustAward(0, owned[name := 1])
    else StardustAward(C.StardustFromDuplicate4StarLightCone, owned)
  }

  /** Everything one pull produces. */
  datatype PullStep = PullStep(result: PullResult, stardust: int, counters: PityCounters, ownedCharacters: map<string, int>)

  /** Whether the (incremented) counters and the rarity roll give a five-star. */
  predicate FiveStarFires(t: BannerType, pity: int, r1: real)
  {
    pity == HardCap(t) || r1 <= FiveStarThreshold(t, pity)
  }

  /** Whether, no five-star having fired, the counters and the roll give a four-star. */
  predicate FourStarFires(t: BannerType, pity: int, pityFourStar: int, r1: real)
  {
    var initialCheck := FiveStarThreshold(t, pity);
    pityFourStar == C.MaxPity4Star || (r1 > initialCheck && r1 <= initialCheck + Average4StarDropRate(t))
  }

  /** One pull of a banner with configuration `cfg` and counters `c`, against ownership table
      `owned`, consuming draw `d`. */
  function NextPull(cfg: BannerConfig, c: PityCounters, owned: map<string, int>, d: Draw): PullStep
    requires d.fourStarIndex < |cfg.fourStarCharacters|
  {
    var t := cfg.bannerType;
    var pity := c.pity + 1;
    var pityFourStar := c.pityFourStar + 1;
    if FiveStarFires(t, pity, d.r1) then
      if c.guaranteeFiveStar || d.r2 <= FiftyFifty(t) then
        PullStep(PullResult(cfg.fiveStar, pity, pityFourStar, Some(c.guaranteeFiveStar)), 0,
                 PityCounters(0, pityFourStar, false, c.guaranteeFourStar), owned)
      else
        PullStep(PullResult(Standard5Star, pity, pityFourStar, Some(c.guaranteeFiveStar)), 0,
                 PityCounters(0, pityFourStar, true, c.guaranteeFourStar), owned)
    else if FourStarFires(t, pity, pityFourStar, d.r1) then
      if c.guaranteeFourStar || d.r2 <= FiftyFifty(t) then
        var item := cfg.fourStarCharacters[d.fourStarIndex];
        var award := StardustFor(t, owned, item.name);
        PullStep(PullResult(item, pity, pityFourStar, Some(c.guaranteeFourStar)), award.amount,
                 PityCounters(pity, 0, c.guaranteeFiveStar, false), award.ownedCharacters)
      else
        PullStep(PullResult(Standard4Star, pity, pityFourStar, Some(c.guaranteeFourStar)), 0,
                 PityCounters(pity, 0, c.guaranteeFiveStar, true), owned)
    else
      PullStep(PullResult(ThreeStarLightCone, pity, pityFourStar, None), 0,
               PityCounters(pity, pityFourStar, c.guaranteeFiveStar, c.guaranteeFourStar), owned)
  }

  class Banner {
    const bannerType: BannerType
    var fiveStar: CharacterOrLightCone
    var fourStarCharacters: seq<CharacterOrLightCone>
    var pity: int
    var pityFourStar: int
    var guaranteeFourStar: bool
    var guaranteeFiveStar: bool
    /** The shared ownership table (a static dictionary in the program). */
    const catalogue: EidolonCatalogue

    ghost predicate Valid()
      reads this
    {
      WellFormed(Config()) && pity < HardCap(bannerType)
    }

    function Config(): BannerConfig
      reads this
    {
      BannerConfig(bannerType, fiveStar, fourStarCharacters)
    }

    function Counters(): PityCounters
      reads this
    {
      PityCounters(pity, pityFourStar, guaranteeFiveStar, guaranteeFourStar)
    }

    /** The counters and flags default to a fresh account: no pity, no guarantee. */
    constructor (bannerType: BannerType, fiveStar: CharacterOrLightCone, fourStars: seq<CharacterOrLightCone>,
                 catalogue: EidolonCatalogue, pity: int := 0, pityFourStar: int := 0,
                 guaranteeFiveStar: bool := false, guaranteeFourStar: bool := false)
      ensures Config() == BannerConfig(bannerType, fiveStar, fourStars)
      ensures Counters() == PityCounters(pity, pityFourStar, guaranteeFiveStar, guaranteeFourStar)
      ensures this.catalogue == catalogue
    {
      this.bannerType := bannerType;
      this.fiveStar := fiveStar;
      this.fourStarCharacters := fourStars;
      this.catalogue := catalogue;
      this.pity := pity;
      this.pityFourStar := pityFourStar;
      this.guaranteeFiveStar := guaranteeFiveStar;
      this.guaranteeFourStar := guaranteeFourStar;
    }

    /** One pull: returns the result and the stardust it yields, updates the counters, the
        flags and (for a featured character four-star) the shared ownership table. */
    method Pull(d: Draw) returns (result: PullResult, stardust: int)
      requires DrawFits(d, |fourStarCharacters|)
      modifies this, catalogue
      ensures Config() == old(Config()) && (old(Valid()) ==> Valid())
      ensures var step := NextPull(old(Config()), old(Counters()), old(catalogue.ownedCharacters), d);
              && result == step.result && stardust == step.stardust
              && Counters() == step.counters && catalogue.ownedCharacters == step.ownedCharacters
    {
      stardust := 0;
      pityFourStar := pityFourStar + 1;
      pity := pity + 1;

      var randomNumber := d.r1;
      var isCharacterBanner := bannerType == Character;
      var initialCheck := if isCharacterBanner then C.CharacterAverage5StarDropRate else C.LightConeAverage5StarDropRate;

      // Soft pity. The second branch is not restricted to light-cone banners.
      if isCharacterBanner && pity >= C.CharacterSoftPityStart {
        var difference := pity - C.CharacterSoftPityStart + 1;
        initialCheck := initialCheck + difference as real * C.CharacterSoftPityIncrease;
      } else if pity >= C.LightConeSoftPityStart {
        var difference := pity - C.LightConeSoftPityStart + 1;
        initialCheck := initialCheck + difference as real * C.LightConeSoftPityIncrease;
      }
      assert initialCheck == FiveStarThreshold(bannerType, pity);

      if pity == (if isCharacterBanner then C.MaxPity5StarCharacter else C.MaxPity5StarLightCone) || randomNumber <= initialCheck {
        var fiftyCheck := if isCharacterBanner then C.CharacterFiftyFifty else C.LightConeFiftyFifty;
        var randomNumber2 := d.r2;
        if guaranteeFiveStar || randomNumber2 <= fiftyCheck {
          result := PullResult(fiveStar, pity, pityFourStar, Some(guaranteeFiveStar));
          guaranteeFiveStar := false;
          pity := 0;
          return;
        } else {
          result := PullResult(Standard5Star, pity, pityFourStar, Some(guaranteeFiveStar));
          guaranteeFiveStar := true;
          pity := 0;
          return;
        }
      }

      var secondCheck := initialCheck + (if isCharacterBanner then C.CharacterAverage4StarDropRate else C.LightConeAverage4StarDropRate);

      if pityFourStar == C.MaxPity4Star || (randomNumber > initialCheck && randomNumber <= secondCheck) {
        var fiftyCheck := if isCharacterBanner then C.CharacterFiftyFifty else C.LightConeFiftyFifty;
        var randomNumber2 := d.r2;
        if guaranteeFourStar || randomNumber2 <= fiftyCheck {
          result := PullResult(fourStarCharacters[d.fourStarIndex], pity, pityFourStar, Some(guaranteeFourStar));
          stardust := CheckForStardustAmount(result.result);
          guaranteeFourStar := false;
          pityFourStar := 0;
          return;
        } else {
          result := PullResult(Standard4Star, pity, pityFourStar, Some(guaranteeFourStar));
          guaranteeFourStar := true;
          pityFourStar := 0;
          return;
        }
      }

      result := PullResult(ThreeStarLightCone, pity, pityFourStar, None);
    }

    /** The stardust a featured four-star yields; on a character banner it bumps (or inserts)
        the item's count in the shared ownership table. */
    method CheckForStardustAmount(characterOrLightCone: CharacterOrLightCone) returns (amount: int)
      modifies catalogue
      ensures var award := StardustFor(bannerType, old(catalogue.ownedCharacters), characterOrLightCone.name);
              amount == award.amount && catalogue.ownedCharacters == award.ownedCharacters
    {
      if bannerType == Character {
        var name := characterOrLightCone.name;
        if name in catalogue.ownedCharacters {
          var existingCopies := catalogue.ownedCharacters[name];
          catalogue.ownedCharacters := catalogue.ownedCharacters[name := existingCopies + 1];
          if 0 < existingCopies < 6 {
            return C.StardustFromDuplicate4StarIncomplete;
          } else if existingCopies == 0 {
            return 0;
          } else {
            return C.StardustFromDuplicate4StarComplete;
          }
        }

        if name == "Standard" {
          return 8;
        }

        catalogue.ownedCharacters := catalogue.ownedCharacters[name := 1];
        return 0;
      }

      return C.StardustFromDuplicate4StarLightCone;
    }
  }
}
