# Flood-risk map: verified model of the scoring and view logic

This project models the logic at the core of the flood-risk map of Vietnam's
36 mapped units: the 34 numbered administrative units and the two archipelagos. The model is pure Dafny: immutable datatypes and
functions over `int`, `real` and `seq`. It has five parts:

- **Risk scorer** (`risk_calculator.dfy`, module `RiskCalculator`):
  - a capped history sub-score;
  - fixed weights for geography, weather status and infrastructure;
  - the total score, floored at 0;
  - the seven-level classifier;
  - the per-factor breakdown shown in the detail panel.
- **Static tables and month assembly** (`constants.dfy`, module `Constants`):
  - the level order;
  - the three region groups;
  - the base unit records;
  - the November weather table, and the December and January tables that spread overrides over the previous month;
  - `generateMonthData`, which attaches a month's weather to every base record.
- **Viewport fitter** (`vietnam_map.dfy`, module `VietnamMap`):
  - bounding boxes of the unit outlines, for the whole map, each region and each unit;
  - the choice of the box to show;
  - the scale and translation that centre it in the display.
- **Detail panel** (`info_panel.dfy`, module `InfoPanel`):
  - the de-duplicated list of data-source keys;
  - the sign and colour of each factor's points.
- **Search box** (`search_bar.dfy`, module `SearchBar`):
  - case-insensitive substring suggestions, at most seven;
  - the state reset when a suggestion is picked.

Three supporting files complete the project:

- `types.dfy` (module `Types`) holds the records. Every enumerated factor is a closed datatype.
- `text.dfy` (module `Text`) models `split`, `join` and `includes` on strings.
- `seqs.dfy` (module `Seqs`) holds the first-occurrence index shared by the level order and the source list.

Browser primitives are function-typed parameters: `toLowerCase`, `trim` and the name translation. The model assumes nothing about them.

In these places the model follows the code:

- **Padding after a fallback.** A selected id sets the padding to 0.4 even when its box is missing or degenerate and another box is shown (components/VietnamMap.tsx:92).
- **Degenerate boxes.** A box with zero width or height is replaced by the whole-map box, never by the active region's box (components/VietnamMap.tsx:82-84). `DegenerateSelectionFallsBack` states this.
- **Rounding before the floor.** The score is rounded before it is floored at 0 (services/riskCalculator.ts:70). On the integer sums modelled here both orders agree.

## Model

| member | source | states |
|---|---|---|
| RiskCalculator.Floods2to5Years | services/riskCalculator.ts:42 | non-negative; 0 when `last5Years < lastYear`; on cumulative counts it is exactly the floods of years 2-5 (`lastYear + r == last5Years`) |
| RiskCalculator.Floods6to10Years | services/riskCalculator.ts:44 | non-negative; 0 when `last10Years < last5Years`; on cumulative counts `last5Years + r == last10Years` |
| RiskCalculator.HistoryScore | services/riskCalculator.ts:39-52 | never above the cap 50; non-negative whenever the last-year count is non-negative |
| RiskCalculator.HistoryMaxScore | services/riskCalculator.ts:23 | no contract of its own; HistoryScore and CumulativeHistoryScore state that the history score never exceeds it |
| RiskCalculator.CumulativeHistoryScore | services/riskCalculator.ts:37-51 | on cumulative counts the 5/3/1 weighting equals `min(2*lastYear + 2*last5Years + last10Years, 50)` |
| RiskCalculator.NonCumulativeHistoryScore | services/riskCalculator.ts:42-51 | when `last5Years < lastYear` the 2-5-year bucket is clamped away and only `5*lastYear` plus the 6-10-year bucket count |
| RiskCalculator.RiskScore | services/riskCalculator.ts:55-71 | the total lies in [0, 95]; a positive total equals the weighted sum; a non-negative weighted sum is returned unchanged |
| RiskCalculator.RawScore | services/riskCalculator.ts:56-68 | no contract of its own; RiskScore and BreakdownConsistent state that it is the sum of the four factor scores before the clamp at zero |
| RiskCalculator.Thresholds | services/riskCalculator.ts:26-33 | no contract of its own; LevelIndexCountsThresholds and ThresholdBoundaries state that a level is the number of thresholds a score exceeds |
| RiskCalculator.GetRiskLevel | services/riskCalculator.ts:73-81 | no contract of its own; LevelIndexCountsThresholds, GetRiskLevelMonotone and ThresholdBoundaries state its bands |
| RiskCalculator.LevelIndexCountsThresholds | services/riskCalculator.ts:26-81 | the position of `getRiskLevel(s)` in the level order equals the number of thresholds strictly below `s` |
| RiskCalculator.GetRiskLevelMonotone | services/riskCalculator.ts:73-81 | `s1 <= s2` implies level(s1) comes no later than level(s2) in the level order |
| RiskCalculator.ThresholdBoundaries | services/riskCalculator.ts:26-80 | each threshold is inclusive with no gap: 14 Safe / 15 Low, 28 Low / 29 Medium, ..., 84 Alarm / 85 Critical |
| RiskCalculator.Score | services/riskCalculator.ts:84-91 | the scored record keeps every input field, and its level is the level of its score |
| RiskCalculator.CalculateAllProvinces | services/riskCalculator.ts:83-93 | same length and order; each record keeps its input fields; score in [0, 95] and equal to the unit's risk score; level derived from that score |
| RiskCalculator.CalculateAllProvincesRoundTrip | services/riskCalculator.ts:83-93 | dropping score and level from the result gives back the input list exactly |
| RiskCalculator.GetFactorScore | services/riskCalculator.ts:95-107 | per-factor ranges: history at most 50, geography 5..25, weather 0..15, infrastructure -10..5; only history or infrastructure can be negative |
| RiskCalculator.BreakdownConsistent | services/riskCalculator.ts:55-107 | `max(0, sum of the four factor scores)` equals the total risk score |
| RiskCalculator.ScoringExamples | services/riskCalculator.ts:39-81 | history (0,2,5), delta, normal, advanced scores 24 (Low); history (4,15,25), coastal plain, above average, standard scores 80 (Alarm) with history capped at 50 |
| RiskCalculator.GeographyWeight | services/riskCalculator.ts:5-10 | no contract of its own; WeightsOrdered, GetFactorScore and BreakdownConsistent state its place in the score |
| RiskCalculator.WeatherWeight | services/riskCalculator.ts:11-15 | no contract of its own; WeightsOrdered, GetFactorScore and BreakdownConsistent state its place in the score |
| RiskCalculator.InfrastructureWeight | services/riskCalculator.ts:16-20 | no contract of its own; WeightsOrdered, GetFactorScore and BreakdownConsistent state its place in the score |
| RiskCalculator.WeightsOrdered | services/riskCalculator.ts:4-21 | delta outweighs coastal plain, which outweighs mountain, which outweighs high ground; a storm warning outweighs above-average rain, which outweighs normal weather; advanced infrastructure weighs less than standard, which weighs less than developing |
| Seqs.IndexOf | components/InfoPanel.tsx:34 | the position of the first occurrence of a value: it holds the value and no earlier position does |
| Constants.LevelIndex | constants.ts:3-11 | every level has a position in `RISK_LEVELS_ORDER` holding that level |
| Constants.RiskLevelsOrderLists | constants.ts:3-11 | seven entries, pairwise distinct, every level present, Safe first and Critical last, positions 0..6 in declaration order |
| Constants.RiskLevelsOrder | constants.ts:3-11 | no contract of its own; RiskLevelsOrderLists states that it lists the seven levels once each, Safe first and Critical last |
| Constants.Regions | constants.ts:25-29 | no contract of its own; RegionsListBaseIds, RegionsNumbered, RegionsDisjoint and RegionsCoverBaseIds state that its groups split the base ids |
| Constants.BaseProvinceData | constants.ts:33-73 | no contract of its own; BaseHistoryIsCumulative and RegionsCoverBaseIds state that its counts are cumulative and its ids are the listed ones |
| Constants.BaseHistoryIsCumulative | constants.ts:33-73 | every base record has `0 <= lastYear <= last5Years <= last10Years`, the assumption stated at services/riskCalculator.ts:37 |
| Constants.RegionsListBaseIds | constants.ts:25-73 | the three groups are exactly the ids of the North, Central and South base blocks |
| Constants.RegionsNumbered | constants.ts:25-29 | North ids carry the two-digit numbers 01-15, Central ids the numbers 16-26 or are one of the two archipelagos, South ids the numbers 27-34 |
| Constants.RegionsDisjoint | constants.ts:25-29 | no id appears in two different groups |
| Constants.RegionsCoverBaseIds | constants.ts:25-73 | every listed id is a base id, and every base id is listed in some group |
| Constants.Lookup | constants.ts:76-143 | object-spread lookup: found exactly when some entry has the key, and the result is the value of such an entry |
| Constants.LookupSpread | constants.ts:119-135 | looking up in `{...a, ...b}` gives b's value when b has the key, else a's |
| Constants.Patch | constants.ts:122-142 | an override replaces summary, rainfall and status and keeps peak days and sources of the previous month |
| Constants.Spread | constants.ts:119-143 | the previous table followed, for each override in order, by an entry for its id holding the previous forecast patched by that override |
| Constants.LastEntryWins | constants.ts:119-143 | a table reads the last property with a given key, as an object literal does |
| Constants.SpreadOverride | constants.ts:119-143 | an id overridden last by an override reads the previous month's forecast patched by it |
| Constants.SpreadTailKeys | constants.ts:119-143 | the appended entries carry exactly the overridden ids |
| Constants.SpreadKeepsOthers | constants.ts:119-143 | an id that is not overridden keeps its previous weather; the key set is unchanged |
| Constants.Overrides12Known | constants.ts:122-131 | every December override names a November id |
| Constants.Overrides01Known | constants.ts:137-142 | every January override names a December id |
| Constants.Overrides01InNovember | constants.ts:137-142 | every January override names a November id |
| Constants.Weather11 | constants.ts:76-117 | no contract of its own; WeatherCoversBaseIds states that it keys every base id |
| Constants.Overrides12 | constants.ts:121-131 | no contract of its own; Overrides12Known, OverrideIdsDistinct and DecemberOverridesApplied state that each override names a known id once and is applied |
| Constants.Overrides01 | constants.ts:136-142 | no contract of its own; Overrides01Known, OverrideIdsDistinct and JanuaryOverridesApplied state that each override names a known id once and is applied |
| Constants.OverrideIdsDistinct | constants.ts:122-142 | no unit is overridden twice in the same month |
| Constants.DecemberOverridesApplied | constants.ts:119-132 | each December override's unit reads its November forecast with the new summary, rainfall and status |
| Constants.JanuaryOverridesApplied | constants.ts:134-143 | each January override's unit reads its December forecast with the new summary, rainfall and status |
| Constants.Weather12 | constants.ts:119-132 | no contract of its own; DecemberOverridesApplied, Weather12KeepsNovember and LaterMonthsCoverBase state what December reads |
| Constants.Weather01 | constants.ts:134-143 | no contract of its own; JanuaryOverridesApplied and LaterMonthsCoverBase state what January reads |
| Constants.WeatherCoversBaseIds | constants.ts:33-143 | each of the three weather tables has an entry for every base id |
| Constants.LaterMonthsCoverBase | constants.ts:119-143 | if November covers the base ids, so do December and January |
| Constants.Weather12KeepsNovember | constants.ts:119-132 | December agrees with November on every id it does not override |
| Constants.GenerateMonthData | constants.ts:146-154 | same length and id order as the base data, and each record's weather is the table's entry for its id |
| Constants.GenerateMonthDataKeepsBase | constants.ts:146-154 | stripping the weather from each generated record gives back the base record |
| Constants.WithWeather | constants.ts:147-152 | no contract of its own; GenerateMonthDataKeepsBase and MonthsDifferOnlyInWeather state that it changes the weather and nothing else |
| Constants.MonthsDifferOnlyInWeather | constants.ts:146-154 | two months' records for the same unit differ only in the weather field |
| Constants.SameWeatherSameRecord | constants.ts:146-154 | two tables that give a unit the same forecast give it the same generated record |
| Constants.MonthlyProvinceData | constants.ts:156-160 | no contract of its own; MonthlyProvinceDataShape and DecemberKeepsNovemberRecords state its keys and records |
| Constants.MonthlyProvinceDataShape | constants.ts:156-160 | keys "11", "12", "1"; every month lists all base units in order, each unchanged apart from weather |
| Constants.November | constants.ts:157 | the November records are one per base record |
| Constants.December | constants.ts:158 | the December records are one per base record |
| Constants.January | constants.ts:159 | the January records are one per base record |
| Constants.DecemberKeepsNovemberRecords | constants.ts:119-160 | December's record equals November's for every unit it does not override |
| VietnamMap.ScanIsTight | components/VietnamMap.tsx:36-45 | the scan yields a box exactly when there is a point, and that box encloses every point with each side touching one |
| VietnamMap.ScanBounds | components/VietnamMap.tsx:35-47 | for a non-empty scan the box is tight and well-formed, with non-negative width and height |
| VietnamMap.Visit | components/VietnamMap.tsx:38-43 | no contract of its own; ScanIsTight states what folding it over the points yields |
| VietnamMap.Scan | components/VietnamMap.tsx:36-45 | no contract of its own; ScanIsTight and ScanBounds state that it yields the tight box of the points, or nothing for no points |
| VietnamMap.CalculateBounds | components/VietnamMap.tsx:35-47 | `None` exactly when there is no point; otherwise a tight box with width = maxX-minX >= 0 and height = maxY-minY >= 0 |
| VietnamMap.AllPoints | components/VietnamMap.tsx:36-38 | every point of every outline is visited; AllPointsMember states the converse |
| VietnamMap.AllPointsMember | components/VietnamMap.tsx:36-38 | every visited point belongs to some outline |
| VietnamMap.InRegion | components/VietnamMap.tsx:53 | an outline is kept exactly when it is among the outlines and the group lists its id |
| VietnamMap.SinglePointBounds | components/VietnamMap.tsx:46 | points that all coincide give width and height exactly 0 |
| VietnamMap.BoundsMonotone | components/VietnamMap.tsx:35-61 | the box of a subset of the points lies inside the box of the whole set |
| VietnamMap.RegionBounds | components/VietnamMap.tsx:51-56 | only North, Central and South can have entries; a region has one exactly when its listed outlines have a point, and it is the box of those outlines |
| VietnamMap.ProvinceBounds | components/VietnamMap.tsx:58-61 | no contract of its own; ProvinceBoundsLastWins and ProvinceBoundsOrigin state which box each id gets |
| VietnamMap.ProvinceBoundsLastWins | components/VietnamMap.tsx:58-61 | the last outline with an id, if it has a point, gives that id its entry, which is its own box |
| VietnamMap.ProvinceBoundsOrigin | components/VietnamMap.tsx:58-61 | each unit entry is the box of an outline with that id |
| VietnamMap.ProvinceInsideRegion | components/VietnamMap.tsx:51-61 | a unit's box lies inside the box of the region that lists it |
| VietnamMap.RegionInsideMap | components/VietnamMap.tsx:49-56 | every region box lies inside the whole-map box |
| VietnamMap.ProvinceInsideMap | components/VietnamMap.tsx:49-61 | every unit box lies inside the whole-map box, whether or not a region lists the unit |
| VietnamMap.TablesDrawable | components/VietnamMap.tsx:49-61 | every box in the whole-map, region and unit tables built from the outlines has width and height equal to its non-negative spans |
| VietnamMap.Tables | components/VietnamMap.tsx:48-61 | no contract of its own; TablesDrawable and FitViewShowsTarget state that every box it builds can be drawn inside the display |
| VietnamMap.SelectTarget | components/VietnamMap.tsx:72-84 | a selected unit with an entry of non-zero sides wins; with no unit entry, an active region other than All with an entry of non-zero sides comes next; a candidate with a zero side, or no candidate, gives the whole-map box |
| VietnamMap.Padding | components/VietnamMap.tsx:92 | no contract of its own; DegenerateSelectionFallsBack shows 0.4 surviving a fallback, WholeMapExample shows 0.9 |
| VietnamMap.IsSelected | components/VietnamMap.tsx:74 | no contract of its own; SelectTarget and Padding state that only a non-empty id selects a unit and tightens the padding |
| VietnamMap.InitialTransform | components/VietnamMap.tsx:67 | no contract of its own; FitView states that it is kept while the display has no size, and WholeMapExample starts from it |
| VietnamMap.Apply | components/VietnamMap.tsx:113 | no contract of its own; FitViewCentres and FitShowsBox state where the fitted transform sends the target box |
| VietnamMap.FitScale | components/VietnamMap.tsx:87-92 | no contract of its own; FitScaleFits, FitScaleIsLargest and FitScaleWithin state that it is the largest scale that fits |
| VietnamMap.Centred | components/VietnamMap.tsx:94-95 | no contract of its own; FitViewCentres and CentredShowsBox state that it centres the box inside the display |
| VietnamMap.Fit | components/VietnamMap.tsx:87-95 | the fitted transform sends the centre of the box to the centre of the display |
| VietnamMap.FitView | components/VietnamMap.tsx:67-97 | with zero width or height the transform is unchanged; otherwise the target is centred at the fitted scale |
| VietnamMap.FitViewCentres | components/VietnamMap.tsx:94-95 | the transform sends the centre of the target box to the centre of the display |
| VietnamMap.FitScaleFits | components/VietnamMap.tsx:87-92 | for a display of positive size the scale is positive and each scaled side is at most the padding share of the display side |
| VietnamMap.FitScaleIsLargest | components/VietnamMap.tsx:87-92 | on at least one axis the padded display side is filled exactly by the floored side |
| VietnamMap.FitScaleWithin | components/VietnamMap.tsx:87-92 | with a padding of at most 1 the scale is positive and each scaled side fits within the display side |
| VietnamMap.FitShowsBox | components/VietnamMap.tsx:87-95 | under the fitted transform both corners of a well-formed box land inside the display |
| VietnamMap.FitViewShowsTarget | components/VietnamMap.tsx:49-97 | for outlines with a point and a display of positive size, whatever is selected, the chosen target box from the computed tables is drawn inside the display |
| VietnamMap.WholeMapExample | components/VietnamMap.tsx:70-97 | box 0..100 x 0..50 on 800 x 600 with nothing selected gives scale 7.2 and translation (40, 120) |
| VietnamMap.DegenerateSelectionFallsBack | components/VietnamMap.tsx:74-92 | a selected unit with zero width is replaced by the map box even with a region active, and the padding stays 0.4 |
| Text.Split | components/InfoPanel.tsx:35 | at least one piece, and no piece contains the separator |
| Text.JoinSplit | components/InfoPanel.tsx:29-35 | joining the pieces of a split gives the string back |
| Text.SplitJoin | components/InfoPanel.tsx:29-35 | splitting separator-free pieces joined by the separator gives the pieces back |
| Text.SplitConcat | components/InfoPanel.tsx:29-35 | splitting `a + "," + b` is splitting `a` followed by splitting `b` |
| Text.Join | components/InfoPanel.tsx:29-32 | no contract of its own; JoinSplit and SplitJoin state that it inverts Split |
| Text.Contains | components/SearchBar.tsx:27 | no contract of its own; ContainsOccurs states that it holds exactly when the query occurs at some position |
| Text.ContainsOccurs | components/SearchBar.tsx:27 | `includes` holds exactly when the query occurs at some position |
| Text.ContainsEmpty | components/SearchBar.tsx:27 | every string includes the empty string |
| InfoPanel.CombinedSources | components/InfoPanel.tsx:29-32 | the tokens of the joined string are the history tokens followed by the weather tokens |
| InfoPanel.Dedup | components/InfoPanel.tsx:34 | no contract of its own; DedupMembers, DedupNoDuplicates and DedupOrder state that it is `[...new Set(xs)]` |
| InfoPanel.DedupMembers | components/InfoPanel.tsx:34 | the de-duplicated list holds exactly the input's values |
| InfoPanel.DedupNoDuplicates | components/InfoPanel.tsx:34 | no value appears twice in the de-duplicated list |
| InfoPanel.DedupOrder | components/InfoPanel.tsx:34 | values appear in the order of their first occurrence (`Set` insertion order) |
| InfoPanel.UniqueSourceKeys | components/InfoPanel.tsx:29-38 | no contract of its own; KeyMembers, UniqueSourceKeysClean, UniqueSourceKeysDistinct and UniqueSourceKeysOrdered state which keys are shown and in what order |
| InfoPanel.KeyMembers | components/InfoPanel.tsx:29-38 | a key is shown exactly when some token of either list trims to it and it is neither empty nor the placeholder in any case |
| InfoPanel.TrimAll | components/InfoPanel.tsx:36 | one trimmed token per token, in order; TrimAllMembers states which values occur |
| InfoPanel.TrimAllMembers | components/InfoPanel.tsx:36 | a value occurs among the trimmed tokens exactly when some token trims to it |
| InfoPanel.KeepAll | components/InfoPanel.tsx:37 | no contract of its own; KeepAllMembers states that a token is kept exactly when it passes Keep |
| InfoPanel.KeepAllMembers | components/InfoPanel.tsx:37 | a token is kept exactly when it occurs in the input and passes Keep |
| InfoPanel.UniqueSourceKeysClean | components/InfoPanel.tsx:37 | no shown key is empty or lower-cases to `src_na` |
| InfoPanel.Keep | components/InfoPanel.tsx:37 | no contract of its own; KeyMembers and UniqueSourceKeysClean state that exactly the non-empty, non-placeholder keys are shown |
| InfoPanel.UniqueSourceKeysDistinct | components/InfoPanel.tsx:34-38 | no key is shown twice |
| InfoPanel.UniqueSourceKeysOrdered | components/InfoPanel.tsx:34-38 | keys are shown in the order they first occur among the kept trimmed tokens |
| InfoPanel.UniqueSourceKeysDedup | components/InfoPanel.tsx:29-38 | splitting the joined string agrees with splitting both lists separately |
| InfoPanel.SourceKeysScenario | components/InfoPanel.tsx:29-38 | sources "a,p" and "a,,b", with `p` a placeholder in another case, show exactly `a`, `b` |
| InfoPanel.MakeFactorRow | components/InfoPanel.tsx:12-14 | sign "+" exactly when the score is positive; red for positive, green for negative, grey for zero |
| InfoPanel.FactorRowColors | components/InfoPanel.tsx:12-79 | geography is always red; weather is never green and grey exactly under normal status; history is never green for non-negative counts; infrastructure is green exactly when advanced and grey exactly when standard |
| InfoPanel.RowFor | components/InfoPanel.tsx:76-79 | no contract of its own; FactorRowColors states the colour of each factor row |
| SearchBar.FilterPicks | components/SearchBar.tsx:23-28 | the filter's values come from the listed kept positions, in ascending order |
| SearchBar.KeptIndicesComplete | components/SearchBar.tsx:23-28 | a position is listed exactly when its value passes the test |
| SearchBar.Filter | components/SearchBar.tsx:23-28 | no contract of its own; FilterPicks and KeptIndicesComplete state that it keeps exactly the passing values in order |
| SearchBar.Take | components/SearchBar.tsx:29 | the first `n` values, or all of them when there are fewer; TakePicks carries the kept positions along |
| SearchBar.TakePicks | components/SearchBar.tsx:29 | cutting the values and their positions to the same length keeps them aligned |
| SearchBar.Matcher | components/SearchBar.tsx:24-28 | no contract of its own; SuggestionsBounded and SuggestionsAreFirstMatches state which units it passes |
| SearchBar.Suggestions | components/SearchBar.tsx:20-30 | no contract of its own; SuggestionsAreFirstMatches and SuggestionsBounded state which units are suggested |
| SearchBar.Matches | components/SearchBar.tsx:24-27 | no contract of its own; OwnNameMatches, SuggestionsBounded and SuggestionsAreFirstMatches state which units it accepts |
| SearchBar.SuggestionsAreFirstMatches | components/SearchBar.tsx:20-30 | for a non-empty query the suggestions are matching units in listed order, and a matching unit is left out only when seven units listed before it are shown |
| SearchBar.SuggestionsBounded | components/SearchBar.tsx:21-29 | an empty query gives no suggestions; there are at most seven; each is a listed unit whose lower-cased name or translation contains the lower-cased query |
| SearchBar.HandleSelect | components/SearchBar.tsx:32-36 | reports the picked id, clears the query and drops focus |
| SearchBar.InitialSearchState | components/SearchBar.tsx:13-14 | no contract of its own; InitiallyClosed states that the bar starts with no suggestions and the dropdown closed |
| SearchBar.InitiallyClosed | components/SearchBar.tsx:13-14 | with an empty query and no focus there are no suggestions and the dropdown is closed |
| SearchBar.SelectClosesDropdown | components/SearchBar.tsx:20-67 | after a pick the suggestion list is empty and the dropdown is closed |
| SearchBar.DropdownMeansMatch | components/SearchBar.tsx:20-67 | an open dropdown means focus, a non-empty query and at least one matching unit |
| SearchBar.DropdownShown | components/SearchBar.tsx:67 | no contract of its own; DropdownMeansMatch and SelectClosesDropdown state when the dropdown is open |
| SearchBar.OwnNameMatches | components/SearchBar.tsx:22-27 | every unit matches its own name as the query |

## Left out

- React state, effects, memoisation, JSX and CSS classes are left out. The click-outside handler and `onChange`/`onFocus` are left out too. Only the pure computations inside these components are modelled.
- The `ResizeObserver` hook (components/VietnamMap.tsx:15-31) is browser I/O, so the display width and height are inputs to `FitView`.
- Parsing the SVG point strings with `split` and `Number` (components/VietnamMap.tsx:38) is not modelled; an outline is a sequence of `real` pairs. The geometry data set under `data/` is not part of this model.
- IEEE floating point is out: the viewport uses exact `real`, so NaN, infinities and rounding are not modelled.
- VietnamMap.CalculateBounds: an outline list with no point gives `None` instead of the source's box at ±Infinity. Such entries are absent from the unit and region tables, so selection falls through to the next box. In the source, the infinite box would be chosen and would produce a NaN transform.
- `translations`, `riskLevelMap` and the label texts (utils/translations is not part of this model) are not modelled. Unicode `toLowerCase` and `trim` are not modelled either. All of these are function-typed parameters with no assumed properties.
- RiskCalculator.RiskScore: `Math.round` is omitted because history counts are integers here. Fractional counts are not modelled.
- The `default: return 0` branch of `getFactorScore` (services/riskCalculator.ts:105-106) cannot be reached, because the factor kind is a closed datatype.
- The `WEIGHTS` lookups on an unknown tag cannot happen, for the same reason.
- Constants.GenerateMonthData requires every base id to have a weather entry. The source's cast would otherwise yield an `undefined` forecast. The requirement is proved for the three shipped tables.
- Constants.Spread requires every override id to exist in the previous month, because each override spreads the previous month's entry for that id. The requirement is proved for the shipped December and January overrides.
- The weather summaries, rainfall figures, peak-day texts and source strings of the shipped tables are kept as data, but no property is stated about their contents.
- `RISK_COLORS`, the rendered score label, and the `safeScale` guard on the rendered stroke width are presentational and not modelled.
- Month and selection state and routing in `App.tsx` are not modelled. Neither are the pages `DataPage.tsx`, `Header.tsx`, `Homepage.tsx`, `AboutAiPage.tsx` and `Legend.tsx`.
