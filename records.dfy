/** The value types the simulator passes around: rarities, banner kinds, items and pull results. */
module Records {

  datatype Option<T> = None | Some(value: T)

  datatype Rarity = ThreeStar | FourStar | FiveStar

  datatype BannerType = Character | LightCone

  /** An item; two items are the same exactly when name and rarity agree. */
  datatype CharacterOrLightCone = CharacterOrLightCone(name: string, rarity: Rarity)

  /** One pull: the item, both pity counters as they were when it was drawn, and the
      guarantee flag of its rarity before the draw (None for a three-star). */
  datatype PullResult = PullResult(result: CharacterOrLightCone, pity: int, fourStarPity: int, guarantee: Option<bool>)
}
