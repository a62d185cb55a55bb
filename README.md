# GachaSim in Dafny

A model of GachaSim, a Monte-Carlo simulator of the "warp" system of a gacha game. Two banners
are modelled: a character banner (featured five-star Aglaea, hard pity 90, 50/50) and a
light-cone banner (featured "Time Woven Into Gold", hard pity 80, 75/25).

The pieces are:

- **Pull.** A pull raises both pity counters. It rolls the five-star tier, with a soft-pity
  curve and a hard cap, then the four-star tier, with a cap of 10, then settles the 50/50
  against the guarantee flags.
- **Stardust.** A featured character four-star bumps its count in the shared ownership table
  (the "eidolon catalogue") and may award stardust.
- **Session.** A session spends a pull budget. It starts with 16 stardust and buys one extra
  pull whenever 20 stardust are at hand. It stops early at the first five-star that is not
  the standard one.
- **Simulation.** Each simulation runs a session on the character banner, then one on the
  light-cone banner with whatever budget is left over. Afterwards it resets both banners'
  counters from template banners.
- **Analysers.** Six streaming analysers fold each session result into counts, per-name pity
  lists, minima, maxima and the simulation that first reached a maximum.

Modules, one per concern:

| module | file | contents |
|---|---|---|
| `Constants` | constants.dfy | the tuning constants |
| `Records` | records.dfy | rarities, banner types, items and pull results |
| `Catalogue` | catalogue.dfy | the shared ownership table, a class holding a `map` |
| `Banners` | banner.dfy | `NextPull` and `StardustFor`, which specify one pull; the `Banner` class, whose `Pull` and `CheckForStardustAmount` update its fields and the catalogue in place and are proved equal to them |
| `BannerProperties` | banner_properties.dfy | what one pull guarantees |
| `Sessions` | session.dfy | `RunLoop`/`Session`, which specify the session loop; the imperative `SimulatePullSession`, proved equal to them; banner construction; the copying of counters; the simulation loop over an array of results |
| `SessionProperties` | session_properties.dfy | what sessions and simulations guarantee |
| `Analyses` | analysis.dfy | the six analyser classes and the reference definitions their summaries are proved against |

Randomness is a parameter:

- **Draw.** A `Draw` carries the two uniform rolls of a pull and the index of the four-star
  the pull may pick.
- **Session.** A session reads the draw of its k-th pull from a `Stream`.
- **Simulation loop.** The simulation loop reads from a function of (simulation, session,
  pull).

The session loop has no fuel. It ends because every pull that does not stop the session brings
the featured five-star strictly closer (`PullsToFeatured`):

- Each such pull raises the five-star pity toward its hard cap, or settles a five-star.
- After a lost 50/50, the next five-star is the featured one, and that stops the session.

`IsStandard5Star(name)` is taken to be `name == "Standard"`. Banner.cs does not define it, but
it is what the session's stop test (Program.cs:169) and the standard five-star's name
(Banner.cs:7) use.

## Model

| member | source | states |
|---|---|---|
| `Constants.SoftPityStartsBelowHardCap` | Constants.cs:7-32 | soft pity starts after pull 0 and before the hard cap on both banners (74 < 90, 63 < 80) |
| `Constants.DuplicateRewardsAgainstPassCost` | Constants.cs:41-47 | a complete duplicate (20) pays exactly one pass; an incomplete or light-cone duplicate (8) pays less than a pass |
| `Catalogue.EidolonCatalogue.constructor` | CharacterEidolonCatalogue.cs:9-14 | the table starts as Tingyun 2, Hanya 1, Sushang 0 |
| `Catalogue.InitialOwnership` | CharacterEidolonCatalogue.cs:9-14 | exactly those three names with those counts, all non-negative |
| `Banners.Banner.constructor` | Banner.cs:3-21 | the banner holds the given type, items and shared catalogue; the counters and flags are the given ones, defaulting to 0, 0, false and false as the C# primary constructor declares |
| `Banners.Banner.Pull` | Banner.cs:25-105 | the result, the stardust, the new counters and flags, and the new ownership table are those of `NextPull` on the old state and the draw; the items are unchanged; pity below the hard cap stays below it |
| `Banners.Banner.CheckForStardustAmount` | Banner.cs:109-132 | the amount and the new ownership table are those of the duplicate rule `StardustFor` |
| `BannerProperties.PullRecordsIncrementedCounters` | Banner.cs:29-102 | both pities are incremented before the roll; the result records the incremented values; the guarantee flag of its tier is recorded as it was before, and there is no flag exactly for a three-star |
| `BannerProperties.PullResetsExactlyOneCounter` | Banner.cs:58-104 | a five-star resets only the five-star pity, a four-star only the four-star pity, a three-star neither; the other tier's flag is never touched |
| `BannerProperties.HardCapForcesFiveStar` | Banner.cs:52 | reaching the hard cap (90 or 80) gives a five-star whatever the roll |
| `BannerProperties.PastHardCapForcesFiveStar` | Banner.cs:37-52 | at or past the hard cap the five-star threshold is at least 1 (1.026 at 90 on a character banner, 1.214 at 80 on a light-cone banner), so every draw gives a five-star |
| `BannerProperties.PityStaysBelowHardCap` | Banner.cs:29-71 | pity below the hard cap stays below it after any pull |
| `BannerProperties.FiveStarGuarantee` | Banner.cs:58-71 | a five-star is the featured one, clearing the flag, exactly when the flag was set or the 50/50 roll wins; otherwise it is the standard five-star and the flag is set |
| `BannerProperties.FourStarGuarantee` | Banner.cs:84-98 | the same rule for four-stars: the drawn featured four-star when the 50/50 is won, else the standard four-star and the flag set |
| `BannerProperties.FourStarCapForcesFourStar` | Banner.cs:78 | when four-star pity reaches exactly 10 and no five-star fires, the pull is not a three-star |
| `BannerProperties.FourStarCapMissedPastTen` | Banner.cs:75-104 | the cap is an equality test: past 10, a roll above both tiers gives a three-star and the four-star pity keeps growing |
| `BannerProperties.FourStarPityPassesTen` | Banner.cs:52-104 | a run that gets there: a hard-cap five-star at four-star pity 10 (a five-star does not reset it), then a three-star at 11 |
| `BannerProperties.SoftPityThreshold` | Banner.cs:37-49 | the five-star threshold as written. On a character banner it is base + (pity-73)·0.06 from 74. From 63 it is base + (pity-62)·0.067 on both banner types, so also from 63 to 73 on a character banner. Below 63 it is the base rate |
| `BannerProperties.LightConeThresholdMonotone` | Banner.cs:45-49 | on a light-cone banner the threshold never falls as pity grows |
| `BannerProperties.CharacterThresholdDropsAtSoftPity` | Banner.cs:40-49 | on a character banner the threshold falls from 0.743 at pity 73 to 0.066 at 74 |
| `BannerProperties.PullStardust` | Banner.cs:84-98 | only a featured four-star yields stardust and touches the ownership table, exactly as the duplicate rule says; every other pull yields 0 and leaves the table alone |
| `BannerProperties.StardustForCases` | Banner.cs:109-132 | the duplicate rule case by case. A light-cone banner gives 8. A known character has its count bumped and gives 8 for counts 1-5, 0 for 0 and 20 otherwise. An unknown "Standard" gives 8 and is not stored. Any other unknown name is stored with count 1 and gives 0 |
| `BannerProperties.PullStardustAtMostPassCost` | Banner.cs:109-132 | a pull yields 0, 8 or 20 stardust, never more than a pass costs |
| `BannerProperties.PullOwnershipGrows` | Banner.cs:113-128 | no name disappears and no count falls; the only name that can be added is the drawn one; only the drawn name changes, by exactly one when it was known; counts stay non-negative |
| `BannerProperties.InitialDuplicateRewards` | Banner.cs:113-121 | from the initial table, Sushang gives 0 and Hanya and Tingyun 8; given non-negative counts, a name gives 20 exactly when it is known with 6 or more copies |
| `Sessions.LoopBodyProgress` | Program.cs:151-170 | a pass that does not stop the session makes one more result and brings the featured five-star strictly closer |
| `Sessions.SimulatePullSession` | Program.cs:137-174 | the returned result and the banner's and catalogue's new state are those of the session loop `Session` on the old state; the items are unchanged |
| `Sessions.TransferBannerStats` | Program.cs:129-135 | the target's counters and flags become the source's; nothing else changes |
| `Sessions.ConstructAglaeaCharacterBanner` | Program.cs:60-66 | a fresh character banner for Aglaea with Tingyun, Hanya and Sushang, at pity 42, four-star pity 2, five-star guarantee held |
| `Sessions.ConstructAglaeaLightConeBanner` | Program.cs:68-74 | a fresh light-cone banner for "Time Woven Into Gold" at pity 21, four-star pity 2, no guarantee |
| `Sessions.RunTrial` | Program.cs:110-115 | the character session on the budget, then the light-cone session on its leftover, recorded in that order, as `SimulateTrial` says; each banner is left with its own session's final counters and flags |
| `Sessions.RunSimulations` | Program.cs:99-121 | 100000 simulations are recorded, each as `SimulateTrial` from the template counters. The ownership table is threaded from each simulation to the next. The banners end with the template counters and unchanged items |
| `SessionProperties.OfRarityPartition` | Program.cs:155-156 | the three rarity lists together hold as many results as the session made |
| `SessionProperties.LoopBodyKeepsInvariant` | Program.cs:153-166 | one pass keeps the session invariant: the pull accounting, stardust in [0, 20), at most one bought pull per result, and the by-rarity lists. The budget never grows, and the bought pulls grow by exactly the budget lost plus one |
| `SessionProperties.RunLoopKeepsInvariant` | Program.cs:151-171 | the whole loop keeps that invariant |
| `SessionProperties.SessionAccounting` | Program.cs:139-173 | results = budget + bought pulls - remaining pulls; final stardust in [0, 20); bought pulls between 0 and the number of results; a non-negative budget never ends negative |
| `SessionProperties.SessionByRarity` | Program.cs:144-156 | each by-rarity list is exactly the results of its rarity in pull order, and the three together are all the results |
| `SessionProperties.RunLoopLeftoverMeansStopped` | Program.cs:151-171 | the loop leaves budget only when it stopped early, and then the last result is the featured five-star |
| `SessionProperties.RemainingPullsMeansFeaturedFiveStar` | Program.cs:168-173 | remaining pulls > 0 means the session ended on the banner's featured five-star; from a non-negative budget the remaining pulls are never negative |
| `SessionProperties.NoBudgetNoPulls` | Program.cs:139-151 | a budget of zero or less makes no pull and changes nothing |
| `SessionProperties.RunLoopLength` | Program.cs:151-171 | the loop makes at most `PullsToFeatured` pulls, however large the budget |
| `SessionProperties.SessionLength` | Program.cs:151-171 | from the simulations' start counters, a character session makes at most 48 pulls and a light-cone session at most 139 |
| `SessionProperties.RunLoopOwnership` | Program.cs:151-171 | a session only appends to the results; it never removes a name or lowers a count, adds only names it pulled, and keeps counts non-negative; a light-cone session leaves the table as it was |
| `SessionProperties.TrialCarryOver` | Program.cs:110-115 | a simulation records two sessions in order, and the second's budget is the first's remaining pulls. Leftover budget at the end means both ended on their featured five-star. The ownership table only grows |
| `SessionProperties.FeaturedFourStarsAlreadyCatalogued` | Program.cs:62 | the catalogue's names are exactly the character banner's featured four-stars, so drawing one bumps its count and never inserts it |
| `Analyses.LeftoverBudgetMeansSuccess` | Analysis.cs:22-31 | a session with pulls remaining counts as a successful banner |
| `Analyses.MinOf` | Analysis.cs:117 | the minimum of a non-empty list is in it and below every element |
| `Analyses.MaxOf` | Analysis.cs:117 | the maximum of a non-empty list is in it and above every element |
| `Analyses.RangeOf` | Analysis.cs:117 | a list's minimum and maximum, or nothing exactly when the list is empty |
| `Analyses.LeaderIsFirstMaximum` | Analysis.cs:134-135 | a record kept by strictly-greater updates from (0, 0) stays (0, 0) when no value is positive. Otherwise it names the first entry with the largest value |
| `Analyses.CountTrue` | Analysis.cs:72 | counts no more than the list's length |
| `Analyses.CountTrueIsCardinality` | Analysis.cs:72 | the count is the number of indices holding `true` |
| `Analyses.AllSuccessfulAlsoSome` | Analysis.cs:38-39 | a simulation counted as all-successful is counted as at-least-one-successful, unless it recorded no banner; both counts are at most the number of simulations |
| `Analyses.Successful5StarPullsAnalysis.constructor` | Analysis.cs:14 | starts with no simulation recorded |
| `Analyses.Successful5StarPullsAnalysis.Analyse` | Analysis.cs:16-32 | on banner 0 the simulation's list starts afresh; each call appends exactly one flag, true exactly when a non-standard five-star was pulled; other simulations are untouched |
| `Analyses.Successful5StarPullsAnalysis.SummarizeAnalysis` | Analysis.cs:38-43 | the number of all-successful simulations. When more than one banner is pulled on, and only then, also the number of at-least-one-successful simulations, which is no smaller apart from simulations with no banner |
| `Analyses.BannerWasSuccessfulAnalysis.constructor` | Analysis.cs:51 | one flag per simulation, all false |
| `Analyses.BannerWasSuccessfulAnalysis.Analyse` | Analysis.cs:53-68 | only on the chosen banner is the simulation's flag set, to whether a non-standard five-star was pulled; every other call leaves the array unchanged |
| `Analyses.BannerWasSuccessfulAnalysis.SummarizeAnalysis` | Analysis.cs:72 | the number of simulations whose flag is true |
| `Analyses.RecordPitiesPerName` | Analysis.cs:86-92 | each name's list grows by exactly the pities of that name's five-stars, in order |
| `Analyses.RecordPitiesKeys` | Analysis.cs:86-92 | the names afterwards are the names before plus the five-stars' names |
| `Analyses.RecordPitiesNoEmptyLists` | Analysis.cs:88-91 | no stored list is ever empty |
| `Analyses.RecordPitiesTotal` | Analysis.cs:86-92 | the number of stored pities grows by exactly the number of five-stars |
| `Analyses.Unique5StarPullsAnalysis.constructor` | Analysis.cs:79 | starts with no name recorded |
| `Analyses.Unique5StarPullsAnalysis.Analyse` | Analysis.cs:81-94 | the table becomes the fold of `RecordPity` over the session's five-stars |
| `Analyses.Unique5StarPullsAnalysis.SummarizeAnalysis` | Analysis.cs:99-105 | for exactly the names with a non-empty list: the count, and the least and greatest pity in it |
| `Analyses.AdditionalPullsAnalysis.constructor` | Analysis.cs:113 | starts with an empty list |
| `Analyses.AdditionalPullsAnalysis.Analyse` | Analysis.cs:115 | appends the session's bought pulls, on every banner |
| `Analyses.AdditionalPullsAnalysis.SummarizeAnalysis` | Analysis.cs:117 | the least and greatest recorded value, or nothing exactly when none was recorded |
| `Analyses.RemainingPullsAnalysis.constructor` | Analysis.cs:123-125 | starts with an empty list and the record (0, 0) |
| `Analyses.RemainingPullsAnalysis.Analyse` | Analysis.cs:127-136 | appends the remaining pulls on every banner. Only the final banner's call enters the record history, and the record stays the leader of that history |
| `Analyses.RemainingPullsAnalysis.SummarizeAnalysis` | Analysis.cs:138 | the least and greatest remaining pulls over all banners (nothing when none recorded), together with the record's simulation. That simulation is the first to reach the greatest final-banner value, or 0 when no final banner had any left |
| `Analyses.MostFiveStarsPulledAnalysis.constructor` | Analysis.cs:143-145 | starts with count 0 and the record (0, 0) |
| `Analyses.MostFiveStarsPulledAnalysis.Analyse` | Analysis.cs:147-161 | the count restarts on banner 0 and grows by the session's five-stars. Only the final banner's call enters the record history, and the record stays its leader |
| `Analyses.MostFiveStarsPulledAnalysis.SummarizeAnalysis` | Analysis.cs:163 | the record is (0, 0) when no simulation pulled a five-star; otherwise it is the first simulation with the largest five-star total |

## Left out

- Console input and output, the prompt loop for the budget, and the stopwatch are left out (Program.cs:82-97, 104-105, 124-126). The budget is a parameter.
- `Random.NextSingle` and `Random.Next` are replaced by a `Draw` parameter per pull. Only its ranges are assumed: rolls in [0, 1) and a four-star index below the list's length. Distributions and seeding are not modelled.
- The single-precision float thresholds and 50/50 ratios are exact reals. Float32 rounding at the comparison boundaries is not modelled.
- `Banners.NextPull` requires the draw's four-star index to be below the featured four-star list's length. The program indexes that list only when it awards a featured four-star (Banner.cs:86). There, an empty list makes `Random.Next(0, 0)` return 0 and the indexing throw; five-star, standard four-star and three-star pulls work on an empty list. The model rules out every pull on a banner with no featured four-star. Both Aglaea banners list three.
- `Sessions.SimulatePullSession` requires the banner's pity below its hard cap and the featured five-star not to be named "Standard". The program needs neither to end. Pity at or past the hard cap makes every pull a five-star (`BannerProperties.PastHardCapForcesFiveStar`). With a featured five-star named "Standard" the budget still runs out, because a five-star pays no stardust and the hard cap forces one at least every 90 pulls. The requirements serve the model's termination measure `PullsToFeatured` only, and both Aglaea banners meet them.
- `Sessions.SimulatePullSession` also requires every featured item to carry its tier's rarity (part of `WellFormed`). The termination measure does not need this clause; the per-pull rarity lemmas in `BannerProperties` and the session's rarity lists rely on it. Both Aglaea banners meet it.
- `Analyses.Successful5StarPullsAnalysis.Analyse`: the program's `new List<bool>(BannersPulledOn)` (Analysis.cs:20) throws on a negative `BannersPulledOn`. The model has no capacity and does not reproduce that error path.
- The `pulledRememberanceCone` flag in the stop test is the constant false, so it is dropped (Program.cs:168).
- The averages (`Math.Round`), percentages and summary text are left out (Analysis.cs:41-43, 73, 104, 117, 138, 163), as are the `ToString` overrides (Program.cs:27-43).
- The order of the summary lines of `Unique5StarPullsAnalysis` follows the dictionary's enumeration order. It is modelled as a map from name to statistics.
- `Analyses.AdditionalPullsAnalysis.SummarizeAnalysis`: with no value recorded, the program's `Min`/`Max` throw. The model returns nothing instead. `Analyses.RemainingPullsAnalysis.SummarizeAnalysis` does the same.
- `Analyses.Successful5StarPullsAnalysis.Analyse`, `Analyses.Unique5StarPullsAnalysis.Analyse`, `Analyses.MostFiveStarsPulledAnalysis.Analyse` and `Analyses.BannerWasSuccessfulAnalysis.Analyse` require the lookups the program would otherwise throw on: the simulation's list, the five-star key, or an index inside the array.
- The abstract `Analysis` base class is not a type of its own. Each analyser is a class carrying `bannersPulledOn`, and nothing in the program calls the analysers through the base class.
- The legacy inline aggregation `AnalyzeAndDisplayResults` (Program.cs:178-257) is not part of this model. It repeats the analysers' counting and is interleaved with console output.
- `IsStandard5Star` is not defined in Banner.cs. It is taken to be `name == "Standard"`.
