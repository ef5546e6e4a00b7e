# Kitchen cabinet calculator and cut-list optimiser — a Dafny model

The application designs kitchen cabinets and lays their panels out on
boards. This project models its core in Dafny and proves properties of
that model:

- **The cut-list optimisers.** These cover the guillotine engine in
  `frontend/js/cutlist/engine.js`, its improved sibling, the older engine
  it replaced, and the first-fit grid packer in `frontend/js/cutlist.js`.
  - Parts are added to a catalog of boards and ordered by a sorting
    method.
  - Each part is placed at the best-scoring free rectangle of a working
    sheet. A new sheet is cloned when no free rectangle takes the part.
  - Free rectangles are split guillotine-style and small leftovers are
    pruned.
  - The used sheets are reported most efficient first, with their grain
    compliance and the project statistics.
- **The cabinet calculators** (`models.py`, `cabinet_types/*.py`,
  `cabinet_engine.py`). Each cabinet type turns a cabinet's size into
  panels (sides, bottom, stabilisers, shelves, back, doors, drawer fronts,
  oven housing, fridge doors) and hardware (legs, clips, hinges, slides,
  handles, hangers). The engine adds the hardware and material totals and
  the plinth of a project.
- **The validators.**
  - The service's `validate_cabinet_request` and
    `_convert_request_to_cabinet`.
  - The API endpoint's `validate_cabinet`.
  - The browser form's `validateCabinetData`.
- **The browser state** (`frontend/js/state.js`): the current project, the
  history (newest first, at most 100), the pricing profiles and the user
  settings.
- **The spreadsheet import and export** (`frontend/js/excelHandler.js`):
  reading cabinets and their parts from rows, and the `WxHmm` size strings.

## How the model is organised

| File | Contents |
|---|---|
| `wrappers.dfy`, `sums.dfy`, `text.dfy`, `sorting.dfy` | Stock helpers: Option, sums over sequences, JavaScript string helpers, a stable insertion sort. |
| `geometry.dfy` | Rectangles, disjointness, the guillotine split and the minimum-waste filter. |
| `grain.dfy`, `catalog.dfy`, `part_order.dfy` | Grain detection and rotation rules, part and sheet records, the sorting methods. |
| `packing.dfy` | The shared guillotine packer. It is specified by the functions `Step`, `Run` and `Finish` and implemented by imperative methods over `Sheet` objects. |
| `packing_accounting.dfy`, `packing_invariants.dfy`, `reporting.dfy`, `stats.dfy` | What the packer keeps and reports. |
| `engine.dfy`, `improved_engine.dfy`, `old_engine.dfy` | The three engine objects. |
| `old_engine_findings.dfy`, `grid_cutlist_findings.dfy` | The concrete runs behind the findings below. |
| `grid_cutlist.dfy` | The grid packer of `frontend/js/cutlist.js`. Its classes use the program's own overlap test; the corrected, occupied-size test is a second reading of the same functions, proved sound. |
| `cabinets.dfy` | The data model and the result object. |
| `*_cabinet.dfy`, `cabinet_engine.dfy` | One calculator per file, then the project totals. |
| `request_service.dfy`, `request_endpoint.dfy`, `form_validation.dfy` | The three validators. |
| `app_state.dfy` | The browser state object. |
| `spreadsheet.dfy` | The spreadsheet parser and exporter. |

Objects whose fields the source updates become classes with `modifies`
clauses:

- the engines;
- the working sheets;
- `CalculationResult`;
- the grid packer and its sheets;
- the browser `State`.

Each state-changing method is proved against a specification function.
The lemmas state the properties about that function.

## Model

| member | source | states |
|---|---|---|
| Geometry.DisjointIffNoCommonPoint | frontend/js/cutlist/engine.js:325-352 | Two rectangles pass the disjointness test iff they share no point. |
| Geometry.WithinIffPointsIncluded | frontend/js/cutlist/engine.js:325-352 | A rectangle passes the containment test iff each of its points lies in the other. |
| Geometry.SplitPiecesInside | frontend/js/cutlist/engine.js:325-347 | For a part of positive size, the split yields at most two strips inside the consumed rectangle. The strips are disjoint from each other and from the part. |
| Geometry.SplitPartitions | frontend/js/cutlist/engine.js:325-347 | When the part fits, the part and the strips partition the consumed rectangle: every point is covered and the pieces are pairwise disjoint. |
| Geometry.SplitAreas | frontend/js/cutlist/engine.js:325-347 | The areas of the part and the strips add up to the consumed rectangle's area. |
| Geometry.Prune | frontend/js/cutlist/engine.js:349-352 | A free rectangle survives iff it was free and its area is at least the minimum waste area; the list never grows. |
| Geometry.PrunePreservesDisjoint | frontend/js/cutlist/engine.js:349-352 | Pruning keeps pairwise-disjoint free rectangles disjoint. |
| Grain.DetectGrainFirstMatch | frontend/js/cutlist/engine.js:121-132 | The detected grain is the preference of the first keyword found in the material, or "any" when no keyword occurs. |
| Grain.DetectedGrainIsValue | frontend/js/cutlist/engine.js:121-132 | Preferences whose values are grain values always detect a grain value. |
| Grain.DefaultGrainValues | frontend/js/cutlist/engine.js:17-24 | With the default preferences the grain is one of the three values, and chipboard and MDF are always "any". |
| Grain.CanRotatePart | frontend/js/cutlist/engine.js:134-141 | Rotation needs the part's and the global permission. When grain is respected and both grains are fixed, they must also be equal. |
| Grain.RotationAllowedOnlyAgainstGrain | frontend/js/cutlist/engine.js:134-150 | When grain is respected, both grains are fixed and rotation is allowed, a rotated placement is reported as not aligned. |
| Grain.ExactlyOneOrientationAligned | frontend/js/cutlist/engine.js:143-150 | With fixed horizontal or vertical grains on both sides, exactly one orientation is aligned. |
| Catalog.Copies | frontend/js/cutlist/engine.js:55-72 | n copies of the part, none when n is not positive. |
| Catalog.NewPartDefaults | frontend/js/cutlist/engine.js:48-72 | A new part without options allows rotation, has priority 5, no edge banding, the detected grain, area width × height, and is unplaced and unrotated. |
| PartOrdering.PartOrderIsTotalPreorder | frontend/js/cutlist/engine.js:374-394 | Every sorting method orders parts by a total preorder. |
| PartOrdering.CompareIsKeyOrder | frontend/js/cutlist/engine.js:374-394 | The comparator puts a first iff a's key precedes b's under the method's key order. |
| Sorting.SortBySorted | frontend/js/cutlist/engine.js:249-251 | The sorted list is sorted by the order and is a permutation of its input. |
| Sorting.SortByOrderedInput | frontend/js/cutlist/engine.js:249-251 | A list whose neighbours are already in order is its own stable sort. |
| Sorting.SortByStable | frontend/js/cutlist/engine.js:249-251 | The sort is stable: for every element a, the elements that tie with a (sheets of equal efficiency, say) come out in the order they went in. |
| Engine.LeadingTypeIsPrefix | frontend/js/cutlist/engine.js:155-156 | The material type found at the start of a material is a prefix of it. |
| Engine.MaterialsMatchSymmetric | frontend/js/cutlist/engine.js:153-168 | Matching of a part's and a sheet's material is symmetric. |
| Engine.MaterialsMatchReflexive | frontend/js/cutlist/engine.js:153-168 | Every material matches itself. |
| Engine.GrainPenaltyIsProportional | frontend/js/cutlist/engine.js:286-289 | Going against the grain costs area · grainPenaltyFactor, and nothing when grain is not respected. |
| Engine.PriorityLowersScore | frontend/js/cutlist/engine.js:291-294 | Each unit of priority lowers the score by 50. |
| Engine.ExactFitScoresZero | frontend/js/cutlist/engine.js:265-304 | An exact, aligned fit of a part without priority scores 0 under every heuristic. |
| Engine.EdgeWastePenaltyBounds | frontend/js/cutlist/engine.js:296-300 | The edge-waste charge is at most 490, and only strips of 1 to 49 mm are charged. |
| Engine.AddPartCallFormsAgree | frontend/js/cutlist/engine.js:36-46 | The older call forms of addPart agree with the full one. Options in the quantity position mean one part of the default material; options in the material position keep the quantity. |
| Engine.AddSheetCallFormsAgree | frontend/js/cutlist/engine.js:84-94 | The same agreement for addSheet: the cost defaults to 0 and the material to the default. |
| Engine.OptimizeReport | frontend/js/cutlist/engine.js:171-253 | The used sheets are reported most efficient first, each an accounted clone of a catalog sheet. There is one placement per part that some matching catalog sheet takes. With positive part sizes no placements overlap. |
| Engine.StatisticsCountPlaceable | frontend/js/cutlist/engine.js:396-431 | After an optimisation, the statistics count one placed part per part that some catalog sheet can take. |
| Engine.ImportExportRoundTrip | frontend/js/cutlist/engine.js:451-473 | Importing an exported project restores the exporting engine's state, whatever state the importing engine held. |
| Engine.ImportRejectsUnknownVersion | frontend/js/cutlist/engine.js:463-473 | A document of an unknown version is refused and changes nothing. |
| Engine.ImportKnownVersion | frontend/js/cutlist/engine.js:463-473 | A known version is accepted: missing lists become empty, and missing settings and grain preferences keep the current ones. |
| Engine.MergeProperties | frontend/js/cutlist/engine.js:465 | Spreading a settings patch is idempotent, a full patch replaces the settings, and an empty one changes nothing. |
| Engine.CutListEngine.constructor | frontend/js/cutlist/engine.js:2-25 | The engine starts empty, with the default settings and grain preferences. |
| Engine.CutListEngine.AddPart | frontend/js/cutlist/engine.js:36-82 | Appends the resolved quantity of copies of the new part and returns the part list; nothing else changes. |
| Engine.CutListEngine.AddSheet | frontend/js/cutlist/engine.js:84-118 | Appends one catalog sheet and returns the sheet list; nothing else changes. |
| Engine.CutListEngine.CalculateOptimization | frontend/js/cutlist/engine.js:171-253 | The new state and the reported sheets are those of the optimisation whose properties OptimizeReport states. |
| Engine.CutListEngine.GetStatistics | frontend/js/cutlist/engine.js:396-431 | Optimises first when there are parts but no results, then returns the statistics of the results. |
| Engine.CutListEngine.ExportProject | frontend/js/cutlist/engine.js:451-461 | The exported document is the one ImportExportRoundTrip reads back. |
| Engine.CutListEngine.ImportProject | frontend/js/cutlist/engine.js:463-473 | The new state and the answer are those of the import. |
| Packing.CandidatesAreAdmissible | frontend/js/cutlist/engine.js:191-221 | The candidate list holds exactly the admissible positions (matching material, fitting orientation), in search order. |
| Packing.ScanIsBestOf | frontend/js/cutlist/engine.js:191-221 | The nested scan over sheets, free rectangles and orientations is the running best over the candidate list. |
| Packing.BestOfIsFirstMinimum | frontend/js/cutlist/engine.js:197-218 | The running best is the first candidate of minimum score. |
| Packing.BestIsFirstAdmissibleMinimum | frontend/js/cutlist/engine.js:191-221 | The chosen position is admissible and no admissible position scores lower. Ties go to the first one found. There is none only when no position is admissible. |
| Packing.FindBest | frontend/js/cutlist/engine.js:186-221 | The scan over the working sheet objects returns the best candidate of their snapshot. |
| Packing.SplitPieces | frontend/js/cutlist/engine.js:325-347 | The leftover pieces are the guillotine split that SplitPartitions describes. |
| Packing.FindTemplate | frontend/js/cutlist/engine.js:355-357 | Returns a catalog sheet whose material matches the part, or nothing exactly when no catalog sheet matches. |
| Packing.Sheet.constructor | frontend/js/cutlist/engine.js:359-368 | A cloned sheet has no placements and one free rectangle covering it. |
| Packing.Sheet.PlacePart | frontend/js/cutlist/engine.js:306-353 | The sheet's new state is the guillotine placement: the part is recorded and the consumed rectangle is replaced by its pruned split. |
| Packing.StepOpensSheet | frontend/js/cutlist/engine.js:226-236 | With no admissible position, a step clones the first matching catalog sheet and places the part at its origin, or leaves the sheets unchanged. |
| Packing.StepPlacesAtBest | frontend/js/cutlist/engine.js:223-225 | With an admissible position, a step places the part on the best sheet and rectangle and changes no other sheet. |
| Packing.AppendClone | frontend/js/cutlist/engine.js:359-368 | Appends one fresh clone of the catalog sheet and keeps the other sheets. |
| Packing.CloneSheets | frontend/js/cutlist/engine.js:178-183 | Clones every catalog sheet into a fresh working sheet. |
| Packing.PackPart | frontend/js/cutlist/engine.js:223-236 | Placing one part on the sheet objects is the specification's step. |
| Packing.OpenSheet | frontend/js/cutlist/engine.js:226-236 | The new-sheet path is the one StepOpensSheet states. |
| Packing.CountAligned | frontend/js/cutlist/engine.js:242-244 | Counts the grain-aligned placements of a sheet. |
| Packing.Summary | frontend/js/cutlist/engine.js:239-247 | A used sheet's efficiency and grain compliance. |
| Packing.Report | frontend/js/cutlist/engine.js:239-251 | The report of the sheet objects is the specification's report of their snapshot. |
| Packing.FinishSortedPermutation | frontend/js/cutlist/engine.js:239-251 | The reported sheets are exactly the used working sheets, most efficient first. |
| Packing.PlaceAll | frontend/js/cutlist/engine.js:171-237 | Placing the parts in order on fresh clones is the specification's run. |
| Packing.Pack | frontend/js/cutlist/engine.js:171-253 | Packing then reporting is the specification's report of the run. |
| PackingAccounting.StepAccounted | frontend/js/cutlist/engine.js:223-236 | A step keeps every sheet's bookkeeping right and places the part exactly when a catalog sheet of its material exists. |
| PackingAccounting.RunAccounted | frontend/js/cutlist/engine.js:186-237 | A run from fresh clones places exactly the parts that have a matching catalog sheet, one placement each. |
| PackingInvariants.PlacedFootprint | frontend/js/cutlist/engine.js:306-320 | The part sits at the origin of the consumed free rectangle, in its oriented size. |
| PackingInvariants.RemainderDisjointness | frontend/js/cutlist/engine.js:325-352 | The rectangles left after consuming one are pairwise disjoint, lie on the sheet and avoid the earlier placements. |
| PackingInvariants.PlaceKeepsFootprintsDisjoint | frontend/js/cutlist/engine.js:306-353 | The new part overlaps no earlier part. |
| PackingInvariants.PlaceKeepsFreeAvoidsPlaced | frontend/js/cutlist/engine.js:306-353 | After a placement no free rectangle overlaps a placed part. |
| PackingInvariants.PlaceKeepsFreeApart | frontend/js/cutlist/engine.js:306-353 | After a placement the free rectangles stay apart and on the sheet. |
| PackingInvariants.PlaceKeepsDisjointness | frontend/js/cutlist/engine.js:306-353 | Placing a part of positive size keeps the sheet free of overlaps. This holds where it fits, and also on a fresh sheet it overflows. |
| PackingInvariants.StepKeepsDisjointness | frontend/js/cutlist/engine.js:223-236 | A step keeps every working sheet free of overlaps. |
| PackingInvariants.RunKeepsDisjointness | frontend/js/cutlist/engine.js:186-237 | A run of parts of positive size never overlaps two parts, a part and a free rectangle, or two free rectangles. Every free rectangle stays on its sheet. |
| Reporting.ReportOrdered | frontend/js/cutlist/engine.js:249-251 | Reported sheets are in order of non-increasing efficiency. |
| Reporting.ReportUsedSheets | frontend/js/cutlist/engine.js:239-251 | Every reported sheet is a used working sheet with its efficiency and grain compliance. |
| Reporting.ReportAccounted | frontend/js/cutlist/engine.js:171-253 | Every reported sheet is an accounted clone of a catalog sheet. |
| Reporting.ReportPlacesPlaceable | frontend/js/cutlist/engine.js:226-236 | For any reordering of the parts, the placements number exactly one per part that a matching catalog sheet exists for. |
| Reporting.ReportDisjoint | frontend/js/cutlist/engine.js:306-353 | With positive part sizes, no two placements on a reported sheet overlap, and no free rectangle overlaps a placement. |
| Reporting.ReportGrainCompliance | frontend/js/cutlist/engine.js:242-245 | Each reported sheet's grain compliance is 100 · aligned / placed. |
| Stats.StatisticsBounds | frontend/js/cutlist/engine.js:396-431 | Grain violations never exceed placed parts, so compliance is a percentage (100 with nothing placed). The waste is the sheets' area minus the used area. |
| Stats.CountViolations | frontend/js/cutlist/engine.js:406-409 | Counts the placements that are not grain-aligned. |
| Stats.Tally | frontend/js/cutlist/engine.js:400-410 | Accumulating over the reported sheets yields the statistics StatisticsBounds describes. |
| ImprovedEngine.UntypedMatchesOnlyItself | frontend/js/cutlist/claude/cutlist-improved/engine.js:273-286 | A material with none of the type keywords matches only itself. |
| ImprovedEngine.ChipboardMatchesAnyThickness | frontend/js/cutlist/claude/cutlist-improved/engine.js:273-286 | Two chipboard materials match whatever their thickness. |
| ImprovedEngine.MaterialsMatchIsEquivalence | frontend/js/cutlist/claude/cutlist-improved/engine.js:273-286 | Material matching is reflexive, symmetric and transitive. |
| ImprovedEngine.GrainPenaltyIsFlat | frontend/js/cutlist/claude/cutlist-improved/engine.js:291-304 | Going against the grain costs the flat grainPenalty when grain is respected, and nothing otherwise. |
| ImprovedEngine.ScoreIsGuillotineDefault | frontend/js/cutlist/claude/cutlist-improved/engine.js:291-318 | For an aligned placement, the score equals the default-heuristic score of the main engine. |
| ImprovedEngine.OptimizeReport | frontend/js/cutlist/claude/cutlist-improved/engine.js:162-271 | The same report properties as the main engine, with matching by material type. |
| ImprovedEngine.StatisticsCountPlaceable | frontend/js/cutlist/claude/cutlist-improved/engine.js:444-494 | After an optimisation, the statistics count one placed part per part that some catalog sheet can take. |
| ImprovedEngine.ImportExportRoundTrip | frontend/js/cutlist/claude/cutlist-improved/engine.js:514-536 | Importing an exported project restores the exporting engine's state. |
| ImprovedEngine.ImportAcceptsKnownVersionsOnly | frontend/js/cutlist/claude/cutlist-improved/engine.js:526-536 | Only versions 3.0, 2.0 and 1.0 are accepted; any other leaves the state as it was. |
| ImprovedEngine.CutListEngine.constructor | frontend/js/cutlist/claude/cutlist-improved/engine.js:2-24 | The engine starts empty with the default settings and grain preferences. |
| ImprovedEngine.CutListEngine.AddPart | frontend/js/cutlist/claude/cutlist-improved/engine.js:38-65 | Appends quantity copies (default 1) of the part in the default material unless given, and returns the part list; nothing else changes. |
| ImprovedEngine.CutListEngine.AddSheet | frontend/js/cutlist/claude/cutlist-improved/engine.js:70-94 | Appends one catalog sheet with cost 0 and the default material unless given; nothing else changes. |
| ImprovedEngine.CutListEngine.CalculateOptimization | frontend/js/cutlist/claude/cutlist-improved/engine.js:162-271 | New state and report are those of the optimisation OptimizeReport describes. |
| ImprovedEngine.CutListEngine.GetStatistics | frontend/js/cutlist/claude/cutlist-improved/engine.js:444-494 | Optimises first when needed, then charges each reported sheet its full cost. |
| ImprovedEngine.CutListEngine.ExportProject | frontend/js/cutlist/claude/cutlist-improved/engine.js:514-524 | The exported document is the one ImportExportRoundTrip reads back. |
| ImprovedEngine.CutListEngine.ImportProject | frontend/js/cutlist/claude/cutlist-improved/engine.js:526-536 | The new state and the answer are those of the import. |
| OldEngine.OldSortingMethod | frontend/js/cutlist/engine_old.js:236-249 | Only four sorting names are known; any other sorts by area. |
| OldEngine.OldScoreZeroIffExactFit | frontend/js/cutlist/engine_old.js:151-161 | A fitting position never scores below zero, and scores zero exactly when the part fills the rectangle. |
| OldEngine.OldScoreIgnoresPosition | frontend/js/cutlist/engine_old.js:151-161 | Two rectangles of the same size score the same wherever they are on the sheet. |
| OldEngine.CloneCatalogViews | frontend/js/cutlist/engine_old.js:55-66 | The cloned working sheets show fresh layouts of the catalog sheets. |
| OldEngine.PlaceInView | frontend/js/cutlist/engine_old.js:163-229 | The sheet placed on shows the shared guillotine placement. A sheet sharing no array with it shows what it showed before. |
| OldEngine.PlaceInUnshared | frontend/js/cutlist/engine_old.js:163-229 | On sheets that share no arrays, placing on one is the shared packer's placement, and they still share nothing. |
| OldEngine.OldStepWithCandidate | frontend/js/cutlist/engine_old.js:69-110 | When a free rectangle takes the part and no sheets share arrays, a step is the shared packer's step. |
| OldEngine.FallbackNeverPlaces | frontend/js/cutlist/engine_old.js:113-126 | The new-sheet path never places the part. It pushes the copy, or throws when the first sheet has no free rectangle. |
| OldEngine.FixedStepCount | frontend/js/cutlist/engine_old.js:113-126 | A corrected step adds one placement when it places the part and none otherwise, and it places every part a fresh copy of the first catalog sheet takes. |
| OldEngine.FixedStepAccounted | frontend/js/cutlist/engine_old.js:113-126 | A corrected step keeps every working sheet accounted. |
| OldEngine.FixedStepKeepsDisjointness | frontend/js/cutlist/engine_old.js:113-126 | A corrected step keeps every working sheet free of overlaps. |
| OldEngine.FixedRunAccounted | frontend/js/cutlist/engine_old.js:51-143 | Over a corrected run every working sheet is accounted. |
| OldEngine.FixedRunCount | frontend/js/cutlist/engine_old.js:51-143 | A corrected run has at most one placement per part, and at least one per part the first catalog sheet takes. |
| OldEngine.FixedRunKeepsDisjointness | frontend/js/cutlist/engine_old.js:51-143 | A corrected run of parts of positive size never overlaps placements. |
| OldEngine.FixedReportProperties | frontend/js/cutlist/engine_old.js:51-143 | The corrected report is ordered most efficient first. It has at most one placement per part and at least one per part the first sheet takes, and no overlaps. |
| OldEngine.FixedPackPart | frontend/js/cutlist/engine_old.js:69-126 | One part on the sheet objects is the corrected step. |
| OldEngine.FixedPlaceAll | frontend/js/cutlist/engine_old.js:51-126 | The parts on fresh copies of the catalog sheets are the corrected run. |
| OldEngine.OptimizeReport | frontend/js/cutlist/engine_old.js:51-143 | The engine's own optimisation reports the properties of FixedReportProperties. |
| OldEngine.ImportExportRoundTrip | frontend/js/cutlist/engine_old.js:308-328 | Importing an exported project restores the exporting engine's state. |
| OldEngine.ImportAcceptsKnownVersionsOnly | frontend/js/cutlist/engine_old.js:319-328 | Only versions 2.0 and 1.0 are accepted; any other leaves the state as it was. An accepted document without settings keeps the current ones. |
| OldEngine.CutListEngine.constructor | frontend/js/cutlist/engine_old.js:2-12 | The engine starts empty with the default settings. |
| OldEngine.CutListEngine.AddPart | frontend/js/cutlist/engine_old.js:14-29 | Appends quantity copies (default one, none below one) of the part, in the default material unless given. |
| OldEngine.CutListEngine.AddSheet | frontend/js/cutlist/engine_old.js:31-48 | Appends one sheet with cost 0 and the default material unless given. |
| OldEngine.CutListEngine.CalculateOptimization | frontend/js/cutlist/engine_old.js:51-143 | New state and report are those of the corrected optimisation. |
| OldEngine.CutListEngine.GetStatistics | frontend/js/cutlist/engine_old.js:252-290 | Optimises first when needed; each sheet's cost is prorated by its used area. |
| OldEngine.CutListEngine.ExportProject | frontend/js/cutlist/engine_old.js:308-317 | The exported document is the one ImportExportRoundTrip reads back. |
| OldEngine.CutListEngine.ImportProject | frontend/js/cutlist/engine_old.js:319-328 | The new state and the answer are those of the import. |
| OldEngineFindings.SharedArraysDoublePlacements | frontend/js/cutlist/engine_old.js:113-126 | As written, four parts yield two reported sheets showing the same three placements (six in all), and two of them overlap. |
| OldEngineFindings.EmptyFirstSheetThrows | frontend/js/cutlist/engine_old.js:113-118 | As written, a part that fills the first sheet followed by one that fits nowhere makes the optimisation throw. |
| GridCutList.FirstFitSpec | frontend/js/cutlist.js:37-54 | The scan returns exactly the first spot (row, column, unrotated before rotated) that takes the part, and nothing exactly when no scanned spot does. |
| GridCutList.FitsBlankWhenFits | frontend/js/cutlist.js:56-76 | A part that fits some board fits the empty board of that size. |
| GridCutList.HeightOrderSorted | frontend/js/cutlist.js:11 | The parts are taken tallest first, each exactly once. |
| GridCutList.TryPlaceSound | frontend/js/cutlist.js:56-87 | Under the occupied-size overlap test, a placement keeps the parts apart. |
| GridCutList.CutListOnSheets | frontend/js/cutlist.js:9-35 | Every reported sheet has the requested size and every part lies on it. Under the occupied-size test no two parts overlap. |
| GridCutList.CutListCount | frontend/js/cutlist.js:9-35 | The sheets hold exactly Σ copies × [fits an empty sheet] parts. |
| GridCutList.CalculateStats | frontend/js/cutlist.js:98-115 | One record per sheet, in order, whose used area plus waste is the sheet's area. |
| GridCutList.RecordedAreas | frontend/js/cutlist.js:98-115 | The summed occupied area equals the summed part area. |
| GridCutList.UsedAreaIsPartArea | frontend/js/cutlist.js:98-115 | A sheet's used area is the sum of its parts' own areas, rotated or not. |
| GridCutList.GridSheet.constructor | frontend/js/cutlist.js:89-96 | A new sheet is blank at the requested size. |
| GridCutList.CutListEngine.CanPlace | frontend/js/cutlist.js:56-76 | The answer is whether the spot is legal: inside the sheet and apart from every placed part measured by its own width and height, as the program measures it. |
| GridCutList.CutListEngine.PlacePart | frontend/js/cutlist.js:78-87 | The sheet gains exactly that placement. |
| GridCutList.CutListEngine.TryPlacePart | frontend/js/cutlist.js:37-54 | Places the part at its first fitting spot under the program's own-size overlap test, and answers whether there was one. |
| GridCutList.CutListEngine.CalculateCutList | frontend/js/cutlist.js:9-35 | The statistics of the program's cut list (own-size overlap test), whose sheet sizes and part count CutListOnSheets and CutListCount state and whose overlap RotatedPartOverlapped exhibits. |
| GridCutList.CutListEngine.PlaceEachCopy | frontend/js/cutlist.js:16-27 | The per-part callback leaves the kept sheets and the current sheet exactly as PlaceCopies places the part's copies under the program's own-size overlap test, new sheets being opened when a copy does not fit. |
| GridCutListFindings.RotatedPartOverlapped | frontend/js/cutlist.js:66-72 | As written, five parts end on one sheet with the fifth on top of the rotated fourth. |
| GridCutListFindings.EmptySheetReported | frontend/js/cutlist.js:20-25 | A first part that fits no sheet leaves an empty sheet in the report, all of its area waste. |
| Cabinets.NewCabinet | models.py:143-165 | A new cabinet has a back, a 100 mm plinth, no door count, no shelves or drawers, no boards chosen and no construction. |
| Cabinets.OrElseNonZero | cabinet_types/base_cabinet.py:102 | A count taken with `or` and a non-zero default is never zero. |
| Cabinets.RoundHalfEven | models.py:204-213 | Python's round: the nearest integer, ties to the even one. |
| Cabinets.RoundWhole | models.py:204-213 | Whole numbers are kept by rounding. |
| Cabinets.RoundHalf | models.py:204-213 | A half is rounded to the even neighbour. |
| Cabinets.AddedPanel | models.py:204-213 | A stored panel has whole-millimetre sizes within half a millimetre of the given ones and keeps every other field. Its area is the given one, or width × height / 10⁶ when none was given. |
| Cabinets.AddedIdempotent | models.py:204-213 | Storing a stored panel again changes nothing. |
| Cabinets.CalculationResult.AddPanel | models.py:204-213 | Exactly one panel, the stored form, is appended; nothing else changes. |
| Cabinets.CalculationResult.AddHardware | models.py:215-216 | Exactly one item is appended; nothing else changes. |
| Cabinets.CalculationResult.RemovePanelsNamed | cabinet_types/sink_cabinet.py:16-18 | Removes exactly the panels whose name contains the word, keeping the order. |
| Cabinets.CalculationResult.RemoveItemsNamed | cabinet_types/appliance_cabinet.py:94-96 | Removes exactly the hardware items whose name contains the word. |
| Cabinets.RemoveEachMatched | cabinet_types/sink_cabinet.py:16-18 | Collecting the matching elements and removing each with list.remove leaves exactly the others. |
| BaseCabinet.Calculate | cabinet_types/base_cabinet.py:12-176 | The result holds the base cabinet's panels and hardware, whose properties the lemmas below state. |
| BaseCabinet.Carcass | cabinet_types/base_cabinet.py:30-70 | Two sides of height × depth, a bottom, and stabilisers between the sides (width − 36); three stabilisers exactly when wider than 600 mm. |
| BaseCabinet.ShelvesAndSupports | cabinet_types/base_cabinet.py:72-85 | One shelf entry exactly when shelves were asked for, holding all of them; four supports per shelf. |
| BaseCabinet.BackPresence | cabinet_types/base_cabinet.py:87-99 | A back exactly when the cabinet has one and a back board is chosen, 20 mm smaller both ways. |
| BaseCabinet.DoorsCoverFront | cabinet_types/base_cabinet.py:101-135 | One door is 3 mm narrower than the cabinet. Two doors with the gap cover the width to within a millimetre. The doors are 3 mm lower than the cabinet. |
| BaseCabinet.DoorsOverrun | cabinet_types/base_cabinet.py:101-135 | For some widths the two doors overrun the cabinet width by 1 mm. |
| BaseCabinet.HingesFollowDoorCount | cabinet_types/base_cabinet.py:102-164 | The hinges are door_count × hinges per door. They match the door panels exactly when the count is 1 or 2. |
| BaseCabinet.LegsByWidth | cabinet_types/base_cabinet.py:138-156 | Four, six or eight legs by width, never fewer for a wider cabinet; a clip per two legs. |
| BaseCabinet.AddedWhole | models.py:204-213 | Whole-millimetre sizes are stored unchanged. |
| UpperCabinet.Calculate | cabinet_types/upper_cabinet.py:12-162 | The result holds the upper cabinet's panels and hardware. |
| UpperCabinet.UpperDoors | cabinet_types/upper_cabinet.py:87-143 | Without a count, up to 500 mm gets one door and wider gets two; never zero doors. Hinges are doors × 2, or × 3 above 700 mm. |
| UpperCabinet.ClosingPanelLast | cabinet_types/upper_cabinet.py:123-134 | A closing panel exactly when asked for, as the last panel. |
| UpperCabinet.HangersAndSupports | cabinet_types/upper_cabinet.py:145-157 | Two hangers up to 600 mm wide, three above; four supports per shelf. |
| UpperCabinet.AdditionalBottomWhenLongRow | cabinet_types/upper_cabinet.py:165-189 | An extra bottom exactly when the upper cabinets together exceed 2500 mm, 20 mm shorter than the row. |
| UpperCabinet.AdditionalBottomOrderFree | cabinet_types/upper_cabinet.py:165-189 | The row width does not depend on the order of the cabinets. |
| DrawerCabinet.Calculate | cabinet_types/drawer_cabinet.py:12-160 | The result holds the drawer cabinet's panels and hardware. |
| DrawerCabinet.DividersBetweenDrawers | cabinet_types/drawer_cabinet.py:86-97 | At least one drawer. One divider entry, for all drawers but one, exactly when there are two or more. |
| DrawerCabinet.FrontPerDrawer | cabinet_types/drawer_cabinet.py:99-116 | With a front board, one front entry with one front per drawer. |
| DrawerCabinet.FrontsShareHeight | cabinet_types/drawer_cabinet.py:99-116 | The fronts with their 2 mm gaps share the height above the bottom, within half a millimetre per drawer. |
| DrawerCabinet.ExtraBottomWhenWide | cabinet_types/drawer_cabinet.py:118-128 | An extra bottom exactly when wider than 600 mm, as the last panel. |
| DrawerCabinet.SlidesAndHandles | cabinet_types/drawer_cabinet.py:130-155 | Two slides and one handle per drawer; four or six legs by width, a clip per two legs. |
| OvenCabinet.Calculate | cabinet_types/oven_cabinet.py:12-171 | The result holds the oven cabinet's panels and hardware. |
| OvenCabinet.DrawerUnderOven | cabinet_types/oven_cabinet.py:100-160 | The drawer under the oven (front, bottom, two slides, handle) is there exactly when the cabinet is taller than 710 mm. |
| OvenCabinet.OvenHousing | cabinet_types/oven_cabinet.py:60-98 | The oven door is 3 mm narrower than the cabinet and 560 mm high. The second entry holds two panels 36 mm narrower than the cabinet. A back, when present, is 40 mm smaller both ways. |
| OvenCabinet.OvenFittings | cabinet_types/oven_cabinet.py:129-166 | Six or eight legs by width, a clip per two, three oven hinges and four brackets. |
| SinkCabinet.Calculate | cabinet_types/sink_cabinet.py:11-35 | The result holds the sink cabinet's panels and hardware. |
| SinkCabinet.StabilizersReplaced | cabinet_types/sink_cabinet.py:11-35 | Every base panel except the stabilisers is kept in order, ending with one entry of three sink stabilisers of (width − 36) × 100. |
| ApplianceCabinet.Calculate | cabinet_types/appliance_cabinet.py:11-19 | The result holds the appliance calculator's panels and hardware. |
| ApplianceCabinet.CalculateFridgeColumn | cabinet_types/appliance_cabinet.py:22-101 | The fridge or column result is the base result with the replacements the lemmas below state. |
| ApplianceCabinet.AddCap | cabinet_types/appliance_cabinet.py:35-49 | One cap, stored from the first panel whose name mentions the bottom, is appended when such a panel exists; otherwise nothing changes; hardware and plinth are untouched. |
| ApplianceCabinet.ReplaceDoors | cabinet_types/appliance_cabinet.py:56-87 | Every panel whose name mentions a door is removed, in order, and the small then the large door are appended; hardware and plinth are untouched. |
| ApplianceCabinet.ReplaceHinges | cabinet_types/appliance_cabinet.py:94-100 | Every item whose name mentions a hinge is removed, in order, and the three tall-cabinet hinge items (2, 4 and 6) are appended; panels and plinth are untouched. |
| ApplianceCabinet.TallPanelsExactly | cabinet_types/appliance_cabinet.py:22-87 | The panels are the base sides, bottom, shelves and back in order, then a cap and two new doors. |
| ApplianceCabinet.CapMatchesBottom | cabinet_types/appliance_cabinet.py:34-49 | The cap has the bottom's size, width − 36 by depth. |
| ApplianceCabinet.TwoNewDoors | cabinet_types/appliance_cabinet.py:55-87 | The only doors are the two new ones, 3 mm lower than the cabinet; the large one is 100 mm wider than the small one. |
| ApplianceCabinet.NoStabilizers | cabinet_types/appliance_cabinet.py:29-32 | No panel mentions stabilisers. |
| ApplianceCabinet.HingesReplaced | cabinet_types/appliance_cabinet.py:89-100 | The base hinges are replaced by items of two, four and six. Legs, clips and supports are kept in order. |
| CabinetEngine.Registered | cabinet_engine.py:20-29 | Only APPLIANCE has no entry, and FRIDGE and COLUMN go to the appliance calculator. |
| CabinetEngine.BaseFallback | cabinet_engine.py:31-37 | Blind cabinets and unregistered types are calculated exactly like base cabinets. |
| CabinetEngine.CalculateCabinet | cabinet_engine.py:31-37 | The result is the registered calculator's result for the cabinet. |
| CabinetEngine.TallyCounts | cabinet_engine.py:55-56 | The tally adds, per name, the quantities of the items of that name. |
| CabinetEngine.TallyKeys | cabinet_engine.py:55-56 | A name is a key iff it was one before or some item carries it. |
| CabinetEngine.TallyAppend | cabinet_engine.py:50-56 | Tallying two lists in turn is tallying their concatenation. |
| CabinetEngine.HardwareTotalsSum | cabinet_engine.py:50-56 | A name's hardware total is the sum of its quantities over all results; only names that occur are keys. |
| CabinetEngine.MaterialTotalsSum | cabinet_engine.py:70-73 | A material's total area is the summed area of its panels over all results. |
| CabinetEngine.PlinthTypes | cabinet_engine.py:75-77 | Every type but the upper cabinet and the column stands on a plinth. |
| CabinetEngine.PlinthLengthOrderFree | cabinet_engine.py:75-77 | The plinth length does not depend on the order of the cabinets. |
| CabinetEngine.PlinthPanelStored | cabinet_engine.py:79-90 | The plinth panel is stored as built, with area length × 150 / 10⁶. |
| CabinetEngine.CalculateProject | cabinet_engine.py:39-103 | One fresh result per cabinet, in order, and the project totals. The first result gains the plinth panel afterwards. |
| CabinetEngine.CalculateEach | cabinet_engine.py:50-52 | One fresh, distinct result per cabinet, each its calculator's result. |
| CabinetEngine.SumResults | cabinet_engine.py:50-77 | The totals are the hardware tally, the material areas and the plinth length of the results. |
| CabinetEngine.TallyResult | cabinet_engine.py:55-56 | The inner loop over one result's hardware is the tally. |
| CabinetEngine.AddResultAreas | cabinet_engine.py:71-73 | The inner loop over one result's panels adds their areas per material. |
| RequestService.ValidateRequest | api/app/services/calculator.py:275-317 | The answer is the validation whose properties the lemmas below state. |
| RequestService.TypeErrorWhen | api/app/services/calculator.py:292-299 | A null door count raises a TypeError exactly for BASE, UPPER and DRAWER, the types whose door checks compare it. |
| RequestService.ValidIff | api/app/services/calculator.py:283-317 | Valid iff the sizes are in range and a BASE or UPPER cabinet has a door. |
| RequestService.ErrorsExact | api/app/services/calculator.py:283-295 | Each range error is reported iff its size is out of range, the door error iff a BASE or UPPER cabinet has no door, and there are at most four errors. |
| RequestService.WarningsNeverInvalidate | api/app/services/calculator.py:297-310 | Moving the width within its range never changes validity (a non-standard width is only a warning), and a drawer cabinet has no door errors. |
| RequestService.NonStandardWidthWhen | api/app/services/calculator.py:302-310 | The width warning fires exactly for a BASE or UPPER width outside the standard list. |
| RequestService.SuggestionsFallBack | api/app/services/calculator.py:419-445 | A type gets the default suggestions exactly when it is neither BASE nor UPPER. DRAWER's table equals the default. |
| RequestService.StandardWidthsAreSuggested | api/app/services/calculator.py:302-310 | Standard widths exist exactly for BASE and UPPER, and they equal the suggested widths. |
| RequestService.ConversionKeeps | api/app/services/calculator.py:319-347 | The sizes, type and counts are carried over; has_back and a 100 mm plinth are fixed. |
| RequestService.ConversionAppliance | api/app/services/calculator.py:340-345 | Only fridges and columns get a construction profile naming their own type. |
| RequestService.TypeValueInjective | models.py:131-140 | Distinct cabinet types have distinct values. |
| RequestService.DefaultIdEncodesWidth | api/app/services/calculator.py:328 | A default id is the type's value, an underscore and the width, and the width reads back. |
| RequestEndpoint.FirstFailure | api/app/api/endpoints/cabinets.py:131-158 | The first failing check: a bad width exactly when the width is out of range, and none exactly when every check passes. |
| RequestEndpoint.ValidIff | api/app/api/endpoints/cabinets.py:131-158 | Valid iff no check fails, and only a valid answer is rated, by width alone. |
| RequestEndpoint.FirstFailureWins | api/app/api/endpoints/cabinets.py:131-158 | A failing check hides every later one. |
| RequestEndpoint.DrawerNeedsExplicitZero | api/app/api/endpoints/cabinets.py:131-158 | A drawer cabinet without drawers fails only for an explicit zero door count. |
| RequestEndpoint.ServiceAcceptsWhatEndpointRefuses | api/app/api/endpoints/cabinets.py:131-158 | The service accepts an upper cabinet deeper than 500 mm that the endpoint refuses. |
| RequestEndpoint.ServiceValidImpliesEndpointRanges | api/app/api/endpoints/cabinets.py:131-158 | Apart from the upper depth and the drawer rule, what the service accepts the endpoint accepts. |
| FormValidation.ValidateCabinetData | frontend/js/calculator.js:227-256 | Passes iff there are no errors, and shows all messages at once otherwise. |
| FormValidation.FormValidIff | frontend/js/calculator.js:227-256 | Passes iff a type is chosen and every number is within its range. |
| FormValidation.FormErrorsIndependent | frontend/js/calculator.js:227-256 | Each message is present iff its own check fails, once. |
| FormValidation.FormLooserThanService | frontend/js/calculator.js:234-244 | Sizes the service accepts draw no size message from the form. |
| AppState.Spread | frontend/js/state.js:37-43 | Object spread: the keys of both, and the second's values win. |
| AppState.PrependedKeepsNewest | frontend/js/state.js:46-60 | The new entry is first, followed by the newest older entries, up to 100 in all. |
| AppState.PrependedBounded | frontend/js/state.js:46-60 | The history never exceeds 100 entries, and a history within the bound never shrinks. |
| AppState.Stamped | frontend/js/state.js:46-60 | The entry gains the timestamp and id and keeps every other field. |
| AppState.NamedProfile | frontend/js/state.js:69-77 | The profile keeps its data with its name and modified stamp. |
| AppState.StatsTotals | frontend/js/state.js:110-131 | The width, height and depth totals are the sums over the project's records. |
| AppState.ByTypeCounts | frontend/js/state.js:110-131 | A type is a key iff some record has it, and its count is the number of such records. |
| AppState.ByTypeSumsToTotal | frontend/js/state.js:110-131 | The per-type counts add up to the number of cabinets. |
| AppState.RemovalKeepsOthers | frontend/js/state.js:23-29 | Removing one index keeps every other record in order. |
| AppState.State.constructor | frontend/js/state.js:4-9 | The state starts with what storage holds. |
| AppState.State.AddToProject | frontend/js/state.js:17-21 | Exactly one cabinet is appended and the project is returned. |
| AppState.State.RemoveFromProject | frontend/js/state.js:23-29 | A valid index removes that record; any other leaves the project as it was. |
| AppState.State.ClearProject | frontend/js/state.js:31-35 | The project becomes empty and nothing else changes. |
| AppState.State.UpdateProjectCabinet | frontend/js/state.js:37-43 | A valid index spreads the update over that record; nothing else changes. |
| AppState.State.AddToHistory | frontend/js/state.js:46-60 | The stamped calculation is prepended and the history kept at 100 entries. |
| AppState.State.ClearHistory | frontend/js/state.js:62-66 | The history becomes empty and nothing else changes. |
| AppState.State.SavePricingProfile | frontend/js/state.js:69-77 | The named profile is stored under its name; the others are kept. |
| AppState.State.LoadPricingProfile | frontend/js/state.js:79-81 | The profile stored under the name, or nothing. |
| AppState.State.DeletePricingProfile | frontend/js/state.js:83-87 | Exactly that name is removed from the profiles. |
| AppState.State.UpdateUserSettings | frontend/js/state.js:90-94 | The settings become the spread of the old ones and the update. |
| AppState.State.GetProjectCount | frontend/js/state.js:97-99 | The number of cabinets in the project. |
| AppState.State.GetHistoryCount | frontend/js/state.js:101-103 | The number of history entries. |
| AppState.State.GetProfileCount | frontend/js/state.js:105-107 | The number of profile names. |
| AppState.State.GetProjectStats | frontend/js/state.js:110-131 | The statistics whose totals and counts StatsTotals and ByTypeCounts state. |
| Spreadsheet.FirstMatch | frontend/js/excelHandler.js:82-90 | The leftmost position of a `digits x digits` match, or nothing when there is none. |
| Spreadsheet.ExtractWidth | frontend/js/excelHandler.js:82-85 | The first number of the first match, or 0 when there is none. |
| Spreadsheet.ExtractHeight | frontend/js/excelHandler.js:87-90 | The second number of the first match, or 0 when there is none. |
| Spreadsheet.ReadsDigits | frontend/js/excelHandler.js:82-90 | A size string starting `AxB` reads back as the decimal values of A and B. |
| Spreadsheet.SizeReadsBack | frontend/js/excelHandler.js:82-90 | A size written from two naturals reads back as those naturals. |
| Spreadsheet.Quantity | frontend/js/excelHandler.js:77 | A part quantity is never 0: unreadable or zero counts become 1. |
| Spreadsheet.QuantityRead | frontend/js/excelHandler.js:76-80 | A positive number, or its decimal text, is read as itself; text that does not start with a number reads as 1. |
| Spreadsheet.PartRowKeptOnSize | frontend/js/excelHandler.js:76-80 | A parsed part row's quantity is never 0, and it has a size only when its size cell is truthy. |
| Spreadsheet.ParseExcelStructure | frontend/js/excelHandler.js:32-74 | The parse is the sheet scan the lemmas below describe. |
| Spreadsheet.ScanRow | frontend/js/excelHandler.js:36-66 | One row of the loop is one step of the scan. |
| Spreadsheet.ThrowsIff | frontend/js/excelHandler.js:39-42 | The parse fails with a TypeError iff some row has a truthy first cell that is not text. |
| Spreadsheet.BlankRowSkipped | frontend/js/excelHandler.js:39 | A row with a falsy first cell changes nothing. |
| Spreadsheet.NothingBeforeHeader | frontend/js/excelHandler.js:53 | Part rows before the first header are dropped. |
| Spreadsheet.BodyCollects | frontend/js/excelHandler.js:53-65 | The part rows after a header become that cabinet's parts, in order. |
| Spreadsheet.HeaderOpensCabinet | frontend/js/excelHandler.js:42-73 | A header followed by part rows adds one cabinet with the trimmed name and those parts. |
| Spreadsheet.ComponentsReadBack | frontend/js/excelHandler.js:114-122 | Four component rows with their counts, and every exported size reads back through extractWidth and extractHeight. |

## Left out

- Cost routines of the cabinet engine (`_calculate_materials_and_costs`, board and edge usage, labour, cost totals): prices come from configuration tables that are not part of this model.
- CabinetEngine.CalculateProject: the material and hardware totals are summed after all results are built. The source adds them inside the loop. The outcome is the same because each result is finished before it is read.
- Floating-point sizes and areas are modelled as mathematical reals or integers. No rounding error is modelled except Python's `round`.
- Storage and `localStorage` reads and writes in `frontend/js/state.js` are not modelled. The state starts from parameters.
- Ids, timestamps, `Date.now` and `Math.random` are parameters of the operations that use them.
- The XLSX file reading and writing (`parseMaterialsFile`, `exportComponents`) are not modelled; rows are given as cell sequences.
- Spreadsheet.Quantity: fractional, NaN and very large numbers in a quantity cell are not modelled; cells hold integers.
- AppState.State.GetProjectStats: the model counts only numeric fields and treats any other value as 0. In JavaScript, `total + (x || 0)` adds 1 for the boolean `true` and concatenates strings for a non-empty string, so those cases differ.
- Packing.Efficiency, Packing.Summary, Engine.CostShare: a used sheet of zero area gets efficiency 0 and cost share 0. In the source (`frontend/js/cutlist/engine.js` lines 241 and 404, `engine_old.js` lines 133 and 270) `usedArea / area` is NaN there; `addSheet` and `addPart` accept zero sizes. The NaN would then reach the efficiency sort and the cost total. NaN is not modelled.
- CabinetEngine.CalculateCabinet: the warning that `cabinet_engine.py` line 35 prints for a type without a calculator is console output and is not modelled; the fallback to the base calculator is.
- Catalog.Copies, Engine.CutListEngine.AddPart, ImprovedEngine.CutListEngine.AddPart, OldEngine.CutListEngine.AddPart, GridCutList.Copies: quantities are integers. The JavaScript loops `for (i = 0; i < quantity; i++)` make ⌈q⌉ copies of a fractional quantity q, which the model does not capture.
- Spreadsheet.ComponentsReadBack: a cabinet record missing a field exports "undefined" in its sizes. The model takes whole-number fields.
- The SVG rendering, cutting-list text, `getEmptyStatistics` display strings and `toFixed` formatting are not modelled.
- `cuttingBladeWidth` is carried in the settings but not subtracted. The source never subtracts it either.
- The blind cabinet calculator is used only through its base-cabinet fallback. Its file is not part of this model.
- OldEngine.CutListEngine.CalculateOptimization: the engine object runs the corrected new-sheet path. The path as written is the function `OldOptimize`, exhibited under Findings.

## Findings

| source | as written | input that shows it | evidently intended | confidence | as-written member | corrected member |
|---|---|---|---|---|---|---|
| frontend/js/cutlist/engine_old.js:113-126 | When no free rectangle takes a part, a shallow copy `{...sheets[0]}` of the first working sheet is pushed. The copy shares its placement and free-rectangle arrays with the first sheet. | Four parts on one board: an oversize part, then A, B and C. Two sheets are reported, each showing the same three placements (six in all), and B and C occupy the same rectangle. | The new sheet is a fresh clone of a catalog sheet, and the part is placed on it. | not executed | OldEngineFindings.SharedArraysDoublePlacements | OldEngine.FixedReportProperties |
| frontend/js/cutlist/engine_old.js:117-118 | The new-sheet path reads the first free rectangle of the copied first sheet. That sheet may have none left. | A part that fills the only board, then a strip that fits nowhere. Reading `freeRects[0]` of the emptied copy throws a TypeError. | A fresh copy of the first catalog sheet, which always has one free rectangle. | not executed | OldEngineFindings.EmptyFirstSheetThrows | OldEngine.FixedStepCount |
| frontend/js/cutlist.js:66-72 | The overlap test measures already-placed parts by their own width and height, even when they were placed rotated. | Parts A–E on a 600 × 700 sheet. D is placed rotated at (300, 300), occupying 200 × 100. The test still sees D as 100 wide, so E is put at (400, 300), on top of D. | Measure placed parts by the size they occupy, swapping width and height when rotated. | not executed | GridCutListFindings.RotatedPartOverlapped | GridCutList.CutListOnSheets |
