/** Tuning constants of the simulator: pity caps, soft-pity curves, 50/50 ratios and stardust amounts.
    Drop rates are single-precision floats in the program; here they are exact reals. */
module Constants {

  // Character banner
  const MaxPity5StarCharacter: int := 90
  const CharacterFiftyFifty: real := 0.5
  const CharacterAverage4StarDropRate: real := 0.051
  const CharacterAverage5StarDropRate: real := 0.006
  const CharacterSoftPityStart: int := 74
  const CharacterSoftPityIncrease: real := 0.06

  // Light-cone banner
  const MaxPity5StarLightCone: int := 80
  const LightConeFiftyFifty: real := 0.75
  const LightConeAverage4StarDropRate: real := 0.066
  const LightConeAverage5StarDropRate: real := 0.008
  const LightConeSoftPityStart: int := 63
  const LightConeSoftPityIncrease: real := 0.067

  // Stardust
  const StardustForPull: int := 20
  const StardustFromDuplicate4StarIncomplete: int := 8
  const StardustFromDuplicate4StarComplete: int := 20
  const StardustFromDuplicate4StarLightCone: int := 8

  /** The four-star hard cap, shared by both banner types. */
  const MaxPity4Star: int := 10

  const SimulationCount: int := 100000

  /** Soft pity begins strictly before the hard cap on both banner types. */
  lemma SoftPityStartsBelowHardCap()
    ensures 0 < CharacterSoftPityStart < MaxPity5StarCharacter
    ensures 0 < LightConeSoftPityStart < MaxPity5StarLightCone
  {
  }

  /** The largest reward of a single pull, a complete duplicate, buys exactly one pass;
      the other duplicate rewards buy none on their own. */
  lemma DuplicateRewardsAgainstPassCost()
    ensures StardustFromDuplicate4StarComplete == StardustForPull
    ensures 0 < StardustFromDuplicate4StarIncomplete < StardustForPull
    ensures 0 < StardustFromDuplicate4StarLightCone < StardustForPull
    ensures StardustFromDuplicate4StarIncomplete == StardustFromDuplicate4StarLightCone
  {
  }
}
