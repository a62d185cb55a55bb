/** The process-wide table of owned copies of each four-star character, which the character
    banner reads and updates to size the stardust reward of a duplicate. */
module Catalogue {

  /** The table as the program starts: name to number of copies owned. */
  function InitialOwnedCharacters(): map<string, int>
  {
    map["Tingyun" := 2, "Hanya" := 1, "Sushang" := 0]
  }

  /** Every count in the table is non-negative. */
  ghost predicate NonNegativeCounts(owned: map<string, int>)
  {
    forall name :: name in owned ==> owned[name] >= 0
  }

  /** The one shared table. Both banners hold a reference to the same object, and nothing
      resets it between simulations. */
  class EidolonCatalogue {
    var ownedCharacters: map<string, int>

    constructor ()
      ensures ownedCharacters == InitialOwnedCharacters()
    {
      ownedCharacters := InitialOwnedCharacters();
    }
  }

  /** The initial counts are Tingyun 2, Hanya 1 and Sushang 0, none negative. */
  lemma InitialOwnership()
    ensures InitialOwnedCharacters().Keys == {"Tingyun", "Hanya", "Sushang"}
    ensures InitialOwnedCharacters()["Tingyun"] == 2
    ensures InitialOwnedCharacters()["Hanya"] == 1
    ensures InitialOwnedCharacters()["Sushang"] == 0
    ensures NonNegativeCounts(InitialOwnedCharacters())
  {
  }
}
