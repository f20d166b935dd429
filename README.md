# Iowa Flex provider: rosters, KTo1 reports and filter-panel bookkeeping

This project models the data-reshaping and decision logic of the Iowa Flex
dashboard provider (`IowaFlexProvider`), and proves properties of that model in Dafny.

- **Location roster** (`Rosters.BuildRoster`). A list of locations becomes a
  table. It has three fixed columns (node name, SS, NPR), then one multi-column
  per domain of the canonical schema. The canonical schema is the domain list of
  the first location with the most domains. Each location gives one row. The row
  holds `DOM_{d}_num_{p}` and `DOM_{d}_per_{p}` cells, and these are 0 when the
  location has no domain of that name.
- **Student roster** (`Rosters.BuildStudentRoster`). Students become rows with
  one `DOM_{id}_score` cell per canonical domain. The cell is `"*"` when the
  student lacks the domain. Otherwise it is the id of the first performance level
  held by exactly one student, or `"0"` when there is none.
- **Donut cards** (`Kto1Reports.GroupDonuts`). Performance donuts are grouped
  into one card per PLD (performance level descriptor) stage, in order of first
  appearance.
- **Differentiated KTo1 report** (`Kto1Reports.GetDifferentiatedReport`). Flat
  building records become a tree: Building, then PLD stage 1 to 5, then PLD level
  1 to 3, then class, then student names.
  - The report fails when no record has a district, a building and a grade.
  - A fixed rule drops some levels by stage name.
  - Students are filed into classes by class id.
  - The descriptor and statement lookups are functions passed in (`Lookups`).
- **Filter panel** (`FilterPanel`). This covers three things:
  - the decision in GetFiltersAsync to build, rebuild or keep the session's panel;
  - the bookkeeping of UpdateFiltersAsync and GoToRootNodeAsync;
  - the two KTo1 flags.

  The panel is a value: each operation takes the stored panel and returns the
  panel to store. Some collaborators' code is not part of this model:
  - changing the selection;
  - recreating the filters;
  - building the query;
  - the API call together with BuildFilters;
  - making the root breadcrumb;
  - reading the selected grade.

  Each of these is an arbitrary function field of `Collaborators`.
- **Profile narrative step** (`Narrative`). This covers two things:
  - the `"Error.  Bad data."` entry for a domain score without performance levels;
  - the first-match lookups of the domain and of the performance-level text.

Rows are `map<Field, Value>`. `Field` is the structured form of a cell key, and
`Rosters.FieldName` renders it as the key text, for example `DOM_3_num_2`.
`Rosters.FieldNameInjective` proves that different fields get different key
texts, so the map holds exactly what the string-keyed row holds.
`Functions.AddExpandoProperty` is taken to overwrite an existing key. That
class is not part of this model.

Three behaviours of the code worth knowing:

- **Location rows are not always rectangular.** When a location has a domain of
  the canonical name, its cells are keyed by the location's *own* performance-level
  ids (IowaFlexProvider.cs lines 1101-1105). So rows can have different keys.
  - `Rosters.LocationRowsCanBeRagged` shows it for any two locations whose
    single same-named domain carries different level ids.
  - `Rosters.LocationRowsRectangular` proves the rows are rectangular when every
    location's matching domains have the schema's level ids.
- **An unparsable filter-type token is not rejected.** `Enum.TryParse` leaves
  the default value, and the update goes on with that value (line 221).
  - The enum declaration is not part of this model. It is modelled as
    `FilterType`, with the first member as the default.
  - So such an update resets the breadcrumbs (`FilterPanel.UnparsableTokenResetsBreadCrumbs`).
- **A location row's `node_type` is the location's id** (line 1084), not a type name.

## Model

| member | source | states |
|---|---|---|
| Rosters.BuildRoster | src/DM.WR.BL/Providers/IowaFlexProvider.cs:1015-1115 | No data exactly when the location list is null or empty. Otherwise: query hidden in production; type "compare" at the child-location level; columns are the three fixed headers (first column titled "<Level> Comparison"), then one per canonical domain, in order; one row per location, in order, each equal to the reference row `LocationRow`. |
| Rosters.BuildDomainColumns | src/DM.WR.BL/Providers/IowaFlexProvider.cs:1059-1077 | One multi-column per canonical domain, in order. |
| Rosters.BuildDomainColumn | src/DM.WR.BL/Providers/IowaFlexProvider.cs:1061-1076 | Title is the name, full title is the description. `fields_num`/`fields_per` hold one `DOM_{d}_num_{p}`/`DOM_{d}_per_{p}` per performance level, in order. |
| Rosters.BuildLocationRows | src/DM.WR.BL/Providers/IowaFlexProvider.cs:1079-1110 | One row per location, in input order. |
| Rosters.AddDomainCells | src/DM.WR.BL/Providers/IowaFlexProvider.cs:1092-1105 | One canonical domain's cells: zeros when the location lacks a domain of that name, else the location's own counts and percents. |
| Rosters.AddZeroCells | src/DM.WR.BL/Providers/IowaFlexProvider.cs:1095-1099 | The zero cells of a missing domain, level by level, equal `PutLevels` with zeros. |
| Rosters.AddLevelCells | src/DM.WR.BL/Providers/IowaFlexProvider.cs:1101-1105 | The count and percent cells of a present domain, level by level, equal `PutLevels` with its values. |
| Rosters.StudentRowStep | src/DM.WR.BL/Providers/IowaFlexProvider.cs:1190-1202 | Adding one domain's score cell keeps the row a valid student row for one more domain. |
| Rosters.BuildLocationRow | src/DM.WR.BL/Providers/IowaFlexProvider.cs:1081-1109 | The row built field by field equals `LocationRow`: the base fields, then each canonical domain's cells. |
| Rosters.MaxCount | src/DM.WR.BL/Providers/IowaFlexProvider.cs:1056 | The maximum domain count occurs in the list and bounds every element. |
| Rosters.FirstWithCount | src/DM.WR.BL/Providers/IowaFlexProvider.cs:1057 | The index of the first element equal to the given count. |
| Rosters.CanonicalIndex | src/DM.WR.BL/Providers/IowaFlexProvider.cs:1056-1057 | The schema's source is maximal, and every earlier entity has strictly fewer domains. |
| Rosters.CanonicalLocationDomainsAreFirstMaximal | src/DM.WR.BL/Providers/IowaFlexProvider.cs:1056-1057 | The canonical domains are those of the first location whose domain count is the maximum. |
| Rosters.CanonicalStudentDomainsAreFirstMaximal | src/DM.WR.BL/Providers/IowaFlexProvider.cs:1154-1155 | The canonical student domains are those of the first student whose domain count is the maximum. |
| Rosters.FieldNameInjective | src/DM.WR.BL/Providers/IowaFlexProvider.cs:1070-1071 | Different fields get different key texts (`DOM_{d}_num_{p}`, `DOM_{d}_per_{p}`, `DOM_{d}_score` and the fixed names), so a row keyed by `Field` holds what the string-keyed row holds. |
| Rosters.FindByName | src/DM.WR.BL/Providers/IowaFlexProvider.cs:1092 | None exactly when no domain has the name. Otherwise the first domain with that name. |
| Rosters.FindById | src/DM.WR.BL/Providers/IowaFlexProvider.cs:1194 | None exactly when no domain has the id. Otherwise the first domain of the list with that id. |
| Rosters.FirstSingleLevel | src/DM.WR.BL/Providers/IowaFlexProvider.cs:1197 | None exactly when no level has one student. Otherwise the first such level. |
| Rosters.LocationRowKeys | src/DM.WR.BL/Providers/IowaFlexProvider.cs:1081-1107 | A row's keys are the six base keys plus, per canonical domain, the level keys of the matched domain (or of the canonical one when missing). |
| Rosters.RowDomainKeysOfSchema | src/DM.WR.BL/Providers/IowaFlexProvider.cs:1090-1106 | When every matched domain has the schema's level ids, the domain keys are exactly the schema's keys. |
| Rosters.LocationRowsRectangular | src/DM.WR.BL/Providers/IowaFlexProvider.cs:1079-1110 | Under that condition every row has the same key set: base keys plus schema keys. |
| Rosters.LocationRowsCanBeRagged | src/DM.WR.BL/Providers/IowaFlexProvider.cs:1101-1105 | Two locations whose same-named domain has different level ids give rows with different key sets. |
| Rosters.FirstOfEqualCountsIsCanonical | src/DM.WR.BL/Providers/IowaFlexProvider.cs:1057 | With equal domain counts, the first location gives the schema. |
| Rosters.SingleDomainRowKeys | src/DM.WR.BL/Providers/IowaFlexProvider.cs:1101-1105 | A present domain contributes the keys of the location's own level ids. |
| Rosters.MissingDomainIsZero | src/DM.WR.BL/Providers/IowaFlexProvider.cs:1094-1099 | A canonical domain the location lacks (by name) gives 0 for both `num` and `per` of every canonical level. |
| Rosters.PresentDomainIsCopied | src/DM.WR.BL/Providers/IowaFlexProvider.cs:1100-1105 | A present domain gives the location's own `NumberOfStudents` and `Percent`, keyed by the canonical domain id. |
| Rosters.LocationRowFixedFields | src/DM.WR.BL/Providers/IowaFlexProvider.cs:1082-1088 | Node name, node id, node type (the id), link, SS and NPR are set and never overwritten by domain cells. |
| Rosters.PutLevelsKeys | src/DM.WR.BL/Providers/IowaFlexProvider.cs:1095-1105 | Adding a domain's cells adds exactly its level keys. |
| Rosters.PutDomainsKeys | src/DM.WR.BL/Providers/IowaFlexProvider.cs:1090-1107 | Adding all domains' cells adds exactly their level keys. |
| Rosters.PutLevelsFrame | src/DM.WR.BL/Providers/IowaFlexProvider.cs:1095-1105 | One domain's cells leave every key of other domains untouched. |
| Rosters.PutLevelsZero | src/DM.WR.BL/Providers/IowaFlexProvider.cs:1095-1099 | A missing domain's cells are 0. |
| Rosters.PutLevelsAt | src/DM.WR.BL/Providers/IowaFlexProvider.cs:1101-1105 | With distinct level ids, each level's cells hold its count and percent. |
| Rosters.PutDomainsAt | src/DM.WR.BL/Providers/IowaFlexProvider.cs:1090-1107 | With distinct domain ids, a domain's keys keep the values that domain wrote. |
| Rosters.PutDomainsFrame | src/DM.WR.BL/Providers/IowaFlexProvider.cs:1090-1107 | Domain cells never change a non-domain key. |
| Rosters.StudentScoreMeaning | src/DM.WR.BL/Providers/IowaFlexProvider.cs:1192-1198 | `"*"` exactly when no domain has the id. Otherwise `"0"` when no level has one student, else the first such level's id as text. |
| Rosters.BuildStudentRoster | src/DM.WR.BL/Providers/IowaFlexProvider.cs:1117-1210 | No data exactly when the list is null or empty. Otherwise: type and level "students"; columns are the three fixed headers ("Student Name" first), then one per canonical domain with its single score key; one row per student, in order. |
| Rosters.BuildStudentRows | src/DM.WR.BL/Providers/IowaFlexProvider.cs:1178-1205 | One row per student, in order, each satisfying `IsStudentRow`. |
| Rosters.BuildStudentRow | src/DM.WR.BL/Providers/IowaFlexProvider.cs:1180-1204 | Keys are the base keys plus exactly one score key per canonical domain. Base values are "Last, First", id, external id, "STUDENT", "#", SS, NPR. Each score cell is `StudentScore`. |
| Rosters.ScoreCell | src/DM.WR.BL/Providers/IowaFlexProvider.cs:1192-1199 | The imperative lookup yields `StudentScore`. |
| TextFormat.IntToString | src/DM.WR.BL/Providers/IowaFlexProvider.cs:1198 | `int.ToString()`: a leading '-' exactly for negatives, then decimal digits that spell the absolute value. |
| TextFormat.IntToStringInjective | src/DM.WR.BL/Providers/IowaFlexProvider.cs:842 | Different integers get different texts, so an id text selects exactly one id. |
| TextFormat.NatToString | src/DM.WR.BL/Providers/IowaFlexProvider.cs:1070-1071 | Non-empty decimal digits that spell the number, with no leading zero. |
| TextFormat.ToLower | src/DM.WR.BL/Providers/IowaFlexProvider.cs:141 | Same length, no ASCII capital left, and every other character unchanged. |
| TextFormat.ToLowerIdempotent | src/DM.WR.BL/Providers/IowaFlexProvider.cs:868-870 | Lower-casing an already lower-cased name changes nothing. |
| TextFormat.ToLowerIgnoresCase | src/DM.WR.BL/Providers/IowaFlexProvider.cs:868-870 | Names that differ only in ASCII letter case lower-case to the same text, so the stage-name rule is case-insensitive. |
| Kto1Reports.GroupDonuts | src/DM.WR.BL/Providers/IowaFlexProvider.cs:540-556 | Card stages are `StagesInOrder`, and each card's levels are `LevelsOfStage` of its stage (its donuts, in input order). |
| Kto1Reports.FindCard | src/DM.WR.BL/Providers/IowaFlexProvider.cs:542 | None exactly when no card has the stage. Otherwise a card with that stage. |
| Kto1Reports.AbsentStageHasNoLevels | src/DM.WR.BL/Providers/IowaFlexProvider.cs:544-548 | A stage with no card yet has no donuts so far, so a new card starts empty. |
| Kto1Reports.StagesInOrderDistinct | src/DM.WR.BL/Providers/IowaFlexProvider.cs:542-548 | No two cards have the same stage. |
| Kto1Reports.StagesInOrderCover | src/DM.WR.BL/Providers/IowaFlexProvider.cs:540-548 | There is a card for a stage exactly when some donut has that stage. |
| Kto1Reports.StagesInFirstAppearanceOrder | src/DM.WR.BL/Providers/IowaFlexProvider.cs:540-548 | Cards are in order of first appearance: before any donut of a later card's stage, an earlier card's stage has appeared. |
| Kto1Reports.TotalLevelsStep | src/DM.WR.BL/Providers/IowaFlexProvider.cs:550-555 | One more donut adds one level to its stage's card and none to the others. |
| Kto1Reports.EveryDonutAppendedOnce | src/DM.WR.BL/Providers/IowaFlexProvider.cs:540-556 | The card levels add up to the number of donuts: each donut is appended exactly once. |
| Kto1Reports.FirstAnchor | src/DM.WR.BL/Providers/IowaFlexProvider.cs:797 | None exactly when no record has district, building and grade. Otherwise the first record that has all three. |
| Kto1Reports.DifferentiatedReport | src/DM.WR.BL/Providers/IowaFlexProvider.cs:797-816 | Fails, with the "all NULL records" message, exactly when no record has district, building and grade. Otherwise the header is that of the first such record. |
| Kto1Reports.GetDifferentiatedReport | src/DM.WR.BL/Providers/IowaFlexProvider.cs:791-926 | The nested loops yield `DifferentiatedReport`. |
| Kto1Reports.FilterRequested | src/DM.WR.BL/Providers/IowaFlexProvider.cs:840-847 | Keeps the students whose id, as text, is requested, in order. |
| Kto1Reports.RequestedStudents | src/DM.WR.BL/Providers/IowaFlexProvider.cs:840-846 | A student is kept exactly when it is in the list and its id text is requested. |
| Kto1Reports.RequestedStudentsKeepMultiplicity | src/DM.WR.BL/Providers/IowaFlexProvider.cs:840-846 | Each requested student is kept as often as it occurs; others not at all. |
| Kto1Reports.RequestedStudentsOfConcat | src/DM.WR.BL/Providers/IowaFlexProvider.cs:840-846 | Filtering a concatenation is the concatenation of the filtered parts, so list order is kept. |
| Kto1Reports.RequestedIdSelectsThatStudent | src/DM.WR.BL/Providers/IowaFlexProvider.cs:842 | A request for one id's text keeps a student exactly when the student has that id. |
| Kto1Reports.BuildBuilding | src/DM.WR.BL/Providers/IowaFlexProvider.cs:825-920 | One building with the stages of `BuildingOf`, for stage numbers 1 to 5. |
| Kto1Reports.FirstAtStage | src/DM.WR.BL/Providers/IowaFlexProvider.cs:852-854 | None exactly when no student is at the stage. Otherwise a student whose stage name is `FirstStageName`. |
| Kto1Reports.FirstStageName | src/DM.WR.BL/Providers/IowaFlexProvider.cs:854 | The stage name of the first student at the stage number. |
| Kto1Reports.BuildStage | src/DM.WR.BL/Providers/IowaFlexProvider.cs:852-918 | The stage, with its descriptor and the eligible, held levels 1 to 3 (`MakeStage`). |
| Kto1Reports.FindClass | src/DM.WR.BL/Providers/IowaFlexProvider.cs:895 | None exactly when no class has the key. Otherwise the index of the first class with that id. |
| Kto1Reports.BuildClasses | src/DM.WR.BL/Providers/IowaFlexProvider.cs:891-911 | The classes built student by student equal `Classes`. |
| Kto1Reports.LevelsMadeStep | src/DM.WR.BL/Providers/IowaFlexProvider.cs:865-916 | Appending the level built for an eligible, held number keeps every level eligible, held and built from its own number. |
| Kto1Reports.LevelsAscendingStep | src/DM.WR.BL/Providers/IowaFlexProvider.cs:865 | Appending the next level number keeps the level numbers ascending. |
| Kto1Reports.LevelsCompleteStep | src/DM.WR.BL/Providers/IowaFlexProvider.cs:865-889 | After appending level v, every eligible, held level up to v is listed. |
| Kto1Reports.LevelsSoundSkip | src/DM.WR.BL/Providers/IowaFlexProvider.cs:865-889 | Skipping an ineligible or unheld level keeps the level list sound. |
| Kto1Reports.LevelsAreEligibleAndHeld | src/DM.WR.BL/Providers/IowaFlexProvider.cs:865-916 | Levels are ascending, within 1 to 3, and each is eligible and held by some student at that (stage, level). Every eligible, held level appears. |
| Kto1Reports.StagesAreThoseHeld | src/DM.WR.BL/Providers/IowaFlexProvider.cs:832-920 | Stages are ascending, within 1 to 5, and each is held by a requested student. Every held stage appears. |
| Kto1Reports.StagesMadeStep | src/DM.WR.BL/Providers/IowaFlexProvider.cs:852-918 | Appending the stage built for a held number keeps every stage held and built from its own number. |
| Kto1Reports.StagesAscendingStep | src/DM.WR.BL/Providers/IowaFlexProvider.cs:832 | Appending the next stage number keeps the stage numbers ascending. |
| Kto1Reports.StagesCompleteStep | src/DM.WR.BL/Providers/IowaFlexProvider.cs:832-852 | After appending stage n, every held stage up to n is listed. |
| Kto1Reports.StagesSoundSkip | src/DM.WR.BL/Providers/IowaFlexProvider.cs:852 | Skipping an unheld stage keeps the stage list sound. |
| Kto1Reports.WithBuilding | src/DM.WR.BL/Providers/IowaFlexProvider.cs:822-823 | A record is kept exactly when it has a building id: every kept record has one and comes from the input, and every input record with one is kept. |
| Kto1Reports.WithBuildingKeepsMultiplicity | src/DM.WR.BL/Providers/IowaFlexProvider.cs:820-823 | Each record with a building id is kept as often as it occurs in the input; other records not at all. |
| Kto1Reports.WithBuildingOfConcat | src/DM.WR.BL/Providers/IowaFlexProvider.cs:820-823 | Filtering a concatenation is the concatenation of the filtered parts, so record order is kept. |
| Kto1Reports.BuildingsFollowRecords | src/DM.WR.BL/Providers/IowaFlexProvider.cs:820-923 | Exactly one building per record with a building id, in record order. |
| Kto1Reports.MadeStageIsEligible | src/DM.WR.BL/Providers/IowaFlexProvider.cs:865-871 | A built stage obeys the level rule. |
| Kto1Reports.BuildingIsEligible | src/DM.WR.BL/Providers/IowaFlexProvider.cs:832-920 | Every stage of a built building obeys the level rule. |
| Kto1Reports.BuildingsAreEligible | src/DM.WR.BL/Providers/IowaFlexProvider.cs:820-923 | Every stage of every building built from the records obeys the level rule. |
| Kto1Reports.ReportLevelsAreEligible | src/DM.WR.BL/Providers/IowaFlexProvider.cs:820-923 | In any report, every stage is 1 to 5 and every level is 1 to 3. No "pre-emerging" or "transitioning" stage has level 3. No "independent" stage has level 2 or 3. Names are compared case-insensitively. |
| Kto1Reports.IndependentShowsOnlyLevelOne | src/DM.WR.BL/Providers/IowaFlexProvider.cs:868-871 | An "independent" stage shows only level 1. |
| Kto1Reports.AllNamesAppendAt | src/DM.WR.BL/Providers/IowaFlexProvider.cs:909 | Appending a name to one class adds exactly that name to the filed names. |
| Kto1Reports.ClassesPartitionStudents | src/DM.WR.BL/Providers/IowaFlexProvider.cs:891-911 | The names filed under a level's classes are, as a multiset, exactly the names of the students at that (stage, level). |
| Kto1Reports.ClassesAreNonEmpty | src/DM.WR.BL/Providers/IowaFlexProvider.cs:891-911 | No class of a level is empty. |
| Kto1Reports.AddToClassNames | src/DM.WR.BL/Providers/IowaFlexProvider.cs:895-909 | Filing one student adds exactly that student's name to the filed names. |
| Kto1Reports.ClassIdsDistinctWithoutClassZero | src/DM.WR.BL/Providers/IowaFlexProvider.cs:895-905 | When no student at the level has class id 0, class ids are distinct. |
| Kto1Reports.ClassZeroDuplicatesClass | src/DM.WR.BL/Providers/IowaFlexProvider.cs:895-905 | When the record's class id is not 0 (here 7), two class-0 students give two classes with the record's class id. |
| FilterPanel.FilterOfType | src/DM.WR.BL/Providers/IowaFlexProvider.cs:235 | None exactly when no filter has the type. Otherwise the first filter with that type. |
| FilterPanel.FilterTypeOrDefault | src/DM.WR.BL/Providers/IowaFlexProvider.cs:221 | A parsed token is kept. A failed parse gives the default, whose value is 0. |
| FilterPanel.HandedToRecreate | src/DM.WR.BL/Providers/IowaFlexProvider.cs:223-230 | The changed selection, with cogat mode off exactly for a test-event change and otherwise unchanged. |
| FilterPanel.UpdatedPanel | src/DM.WR.BL/Providers/IowaFlexProvider.cs:223-235 | The last updated type is the changed type. Breadcrumbs become the single root crumb when the type is at or before ParentLocations, and are otherwise as recreated. All other fields are as recreated. |
| FilterPanel.UpdateFilters | src/DM.WR.BL/Providers/IowaFlexProvider.cs:218-238 | Stores `UpdatedPanel` of the parsed (or default) type. |
| FilterPanel.UnparsableTokenResetsBreadCrumbs | src/DM.WR.BL/Providers/IowaFlexProvider.cs:221-235 | An unparsable token resets the breadcrumbs and records the default type. |
| FilterPanel.PanelAtRoot | src/DM.WR.BL/Providers/IowaFlexProvider.cs:245-255 | Filters are recreated from Grade with breadcrumbs cleared, then the breadcrumbs are exactly the root crumb. |
| FilterPanel.GoToRootNode | src/DM.WR.BL/Providers/IowaFlexProvider.cs:245-255 | Stores `PanelAtRoot`. |
| FilterPanel.RefreshedPanel | src/DM.WR.BL/Providers/IowaFlexProvider.cs:94-135 | Kept when the stored mode matches the request. Rebuilt from the last updated type, in the requested mode, when it differs. Built from the roots with InternalFirst and given a root breadcrumb when nothing is stored. |
| FilterPanel.RefreshIsStable | src/DM.WR.BL/Providers/IowaFlexProvider.cs:96-104 | Repeating a request leaves a refreshed stored panel unchanged. |
| FilterPanel.FirstLoadIgnoresCogatRequest | src/DM.WR.BL/Providers/IowaFlexProvider.cs:104-131 | With a filter builder that keeps the mode it is given, a first load does not apply the cogat request, so the same request rebuilds the panel next time. |
| FilterPanel.Kto1FlagsOf | src/DM.WR.BL/Providers/IowaFlexProvider.cs:138-141 | `isKto1` exactly when the selected grade is "0", "K", "k" or "1". `hasDifferentiatedKto1Report` exactly when `isKto1` holds and the lower-cased root type is "building" or "class". |
| FilterPanel.Kto1FlagExamples | src/DM.WR.BL/Providers/IowaFlexProvider.cs:138-141 | Case-insensitive root type. A district root or a grade "2" gives no report. A multi-grade selection is not KTo1. |
| FilterPanel.ViewOf | src/DM.WR.BL/Providers/IowaFlexProvider.cs:138-151 | Fails exactly when there is no root location (`First()` throws). Otherwise carries the root type, both flags, the filters and the query. |
| FilterPanel.GetFilters | src/DM.WR.BL/Providers/IowaFlexProvider.cs:92-152 | Stores `RefreshedPanel` and returns `ViewOf` it. |
| Narrative.LevelTextOf | src/DM.WR.BL/Providers/IowaFlexProvider.cs:1006-1013 | "" when no level has the id. A non-empty text is that of a level with the id. |
| Narrative.LevelTextIsFirstMatch | src/DM.WR.BL/Providers/IowaFlexProvider.cs:1008-1010 | The text is that of the first level with the id. |
| Narrative.PerformanceLevelText | src/DM.WR.BL/Providers/IowaFlexProvider.cs:1006-1013 | The early-return loop yields `LevelTextOf`. |
| Narrative.DomainEntryFor | src/DM.WR.BL/Providers/IowaFlexProvider.cs:424-447 | The bad-data entry exactly when the score has no levels. Otherwise the first lookup domain with the score's id (none exactly when there is none), with the text of the score's first level. |

## Left out

- Session storage, async/await, the API client, logging, and `ConfigSettings.IsEnvironmentProd`:
  - the stored panel is a parameter and the result;
  - API payloads are values;
  - production mode is a boolean.
- The query builder and `IIowaFlexFiltersBuilder.BuildFilters`: their code is
  not part of this model. They are arbitrary functions in `FilterPanel.Collaborators`.
- `IIowaFlexCommonProviderFunctions` is not part of this model either. This covers:
  - `ChangeFiltersSelection`;
  - `RecreateFiltersAsync`;
  - `MakeRootBreadCrumb` and `MakeBreadCrumbs`;
  - drill-up and drill-down;
  - `BuildBands`.

  Where used, these are arbitrary functions. Breadcrumb-path validity and filter
  invalidation cannot be stated without them. The view carries the stored
  breadcrumbs, not rendered links.
- `GetSelectedValuesStringOf`, `GetAllFilters` and `GetFilterByType`: the panel class is not part
  of this model. The selected grade text comes from a collaborator, and the view
  carries the panel's filter list. `GetFilterByType` is assumed to return the
  first filter of the type in the panel's list, or null (`FilterPanel.FilterOfType`).
- `FilterType`: the enum declaration is not part of this model. Only the
  members the provider names are modelled, with their declaration order assumed
  as written. Numeric tokens naming undeclared values are not modelled, and parse
  failure is an `Option`.
- `ResetFilters` (deleting the session entry) is modelled by passing no stored panel to `FilterPanel.GetFilters`.
- `GetFiltersAsyncElevate` is a duplicate of `GetFiltersAsync`, and `DrillDownLocationsPathAsync`/`DrillUpLocationsPathAsync` only delegate to collaborators.
- `studentIds.Split(',')`: the requested ids are given as a list.
- Link URLs: the drill-down link is a structured value (id, name, level), not a URL string.
- Key order of the rows' `ExpandoObject`: rows are maps.
- Numeric values (`Percent`, scores, averages) are opaque: they are passed through and never computed on.
- The profile-narrative fan-out: the per-student API calls, test-event copying and band lookup are left out, and `ToAdaptiveProfileNarrativeDomainModel` is not part of this model. Only the per-domain entry is modelled.
- Copy mappers without logic: test scores, domains, cogat rosters, KTo1 roster values, and the performance-level matrix.
- The null-record case of `First()` on the API response's test events: the location and student lists are given directly.
- FilterPanel.UpdateFilters: assumes a panel is stored, as the source dereferences it without a check.
- Rosters.MissingDomainIsZero: stated for canonical domains with distinct ids, because a repeated id would let a later domain overwrite the cells.
- Rosters.PresentDomainIsCopied: stated for distinct domain ids and distinct level ids, because repeated ids overwrite cells (last write wins).
- Rosters.LocationRowsRectangular: proved only under the condition that the location's matched domains carry the schema's level ids. In general the rows are not rectangular (see `Rosters.LocationRowsCanBeRagged`).
- Kto1Reports.ClassIdsDistinctWithoutClassZero: proved only when no student at the level has class id 0. With class id 0 and a record whose class id is not 0, ids can repeat (see `Kto1Reports.ClassZeroDuplicatesClass`).
- Nullable stage and level numbers are plain integers. A null never equals 1 to 5, just like an out-of-range integer.
- TextFormat.ToLower: lower-cases ASCII letters only, as the invariant culture does for ASCII. .NET's `ToLower()` at lines 141 and 868-870 uses the current culture: it also lower-cases non-ASCII capitals, and under a Turkish culture it maps 'I' to dotless 'ı', so "Independent" would not match and levels 2 and 3 would show. That culture dependence is not modelled.
- TextFormat.FirstCharToUpper: the `FirstCharToUpper` extension's code is not part of this model. It is modelled as upper-casing an ASCII first letter and leaving the empty string as it is.
- Null references that make the source throw are not modelled. The Dafny types have no null, so these inputs cannot be written:
  - null `DomainScores` of a location or student (`.Count` at lines 1056 and 1154, `FirstOrDefault` at lines 1092 and 1194);
  - null `PerformanceLevels` of a domain (lines 1095-1105 and 1197);
  - a null `StudentList` of a record (`.Any()` at line 836);
  - a null `PldStage` name (`ToLower()` at line 868);
  - a null root `NodeType` (`ToLower()` at line 141);
  - a null donut list (`foreach` at line 540);
  - `GoToRootNodeAsync` with no stored panel (line 249 dereferences what line 247 retrieved): `FilterPanel.GoToRootNode` takes a stored panel.
- FilterPanel.GetFilters: has no failure path. When the stored mode differs from the request, the source marks the stored panel with the requested mode and stores it in the session (lines 97-100) before it builds the query, calls the API and rebuilds the filters (lines 119-123). If one of those throws, the session keeps a panel marked with the requested mode but holding the other mode's filters, and the next identical request skips the rebuild. The model only describes runs that complete.
- FilterPanel.GoToRootNode: has no failure path. The source clears the retrieved panel's breadcrumbs (line 249) before `RecreateFiltersAsync` runs, so a failure there leaves the session object with no breadcrumbs. The model only describes runs that complete.
