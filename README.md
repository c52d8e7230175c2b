# Gherkify orchestrator, modelled in Dafny

Gherkify turns Gherkin feature files into a Markdown report. Each feature gets
a yUML use-case diagram and each scenario an activity diagram, and the UI
elements of all features are merged into one more diagram. The `Gherkify`
class in `lib/gherkify.rb` does three things, and this project models each:

- **UI-element merger** (`ui_merge.dfy`, module `UiMerge`).
  `ui_elements_merge!` folds one feature's `screen → {attribute → list}` map
  into an accumulator hash, in place. `collect_ui_elements` runs it over all
  features, starting from the empty hash. The accumulator is the class
  `Accumulator` with a `screens` map field. The spec functions are `Merge`,
  `MergeEntry` and the fold `Collect`. `Uniq` is Ruby's `Array#uniq`.
- **Diagram cache gate** (`diagram_cache.dfy`, module `DiagramCache`).
  `check_and_fetch_diagram` fetches a diagram from the rendering service
  only when `"<md5>.png"` is not in the directory listing `pngs`.
  `fetch_diagram_images` lists the directory once, then checks every diagram
  of the run in a fixed order. Each fetch is recorded as its target path in
  the ghost `log` of class `Fetcher`. `FetchPlan` states what that log gains.
- **Markdown assembler** (`markdown.dfy`, module `Markdown`). `to_md`
  appends lines in a fixed order and joins them with `"\n"`: the Features
  section, the optional UI Elements section, then the optional raw-source
  appendix. `ReportLines` states the exact lines and `Report` the result.
  The imperative `ToMd` is proved equal to `Report`.

The other modules hold the supporting pieces:

- `options.dfy` has the constructor's option defaults.
- `features.dfy` has the feature and scenario values the orchestrator reads.
  A diagram is only its MD5 string. `Slots` and `Diagrams` give the order in
  which a run uses diagrams.
- `wrappers.dfy` has `Option` and `Result`.

Behaviour worth knowing. In each case the model follows `lib/gherkify.rb`:

- For a screen the accumulator already has, the merge loops over the keys
  of the EXISTING entry (lib/gherkify.rb:101). An attribute that only the
  incoming data has is dropped. An existing list is deduplicated even when
  no incoming list is added to it.
- A screen new to the accumulator is stored exactly as given, with no
  deduplication (lib/gherkify.rb:97-99). So merging the same map twice is
  idempotent only when its lists are already duplicate-free
  (`MergeIdempotent`, `MergeTwiceDeduplicates`).
- Merging two features in either order gives the same members per
  attribute only when both give that screen the same attribute keys
  (`CollectMembershipCommutes`). Otherwise the first feature's keys win
  (`CollectKeysOfFirst`).
- The directory listing is never refreshed. A missing digest that occurs
  twice in one run is fetched twice (`FetchCount`).
- `image_path` has no default. If it is missing or a boolean,
  `File.join` raises in `img_path`, and `Dir.chdir` raises in
  `fetch_diagram_images` before any fetch. Both are modelled as error
  results.

## Model

| member | source | states |
|---|---|---|
| Options.WithDefaults | lib/gherkify.rb:15-20 | the merged options hold every default key and every caller key; a caller's value wins; a default survives only for a key the caller did not give |
| Options.ImagePath | lib/gherkify.rb:129-131 | an image directory exists exactly when image_path is set to a string, and it is that string |
| Options.Truthy | lib/gherkify.rb:169 | Ruby truthiness of an option: a missing key (nil) is falsy, any string is truthy, and a flag is truthy exactly when it is true |
| Options.AddFeaturesOffByDefault | lib/gherkify.rb:15-20 | without a caller's add_features the raw-source appendix is off |
| Options.ImagePathOnlyFromCaller | lib/gherkify.rb:15-20 | the defaults never supply an image path |
| UiMerge.Incoming | lib/gherkify.rb:102 | an attribute missing from the incoming data (Ruby's nil) contributes nothing; a present one contributes its whole list |
| UiMerge.Uniq | lib/gherkify.rb:103 | uniq! leaves a duplicate-free list with exactly the elements of its input |
| UiMerge.UniqOfNoDup | lib/gherkify.rb:103 | a duplicate-free list is left as it is |
| UiMerge.UniqIdempotent | lib/gherkify.rb:103 | deduplicating twice is the same as deduplicating once |
| UiMerge.UniqPrefix | lib/gherkify.rb:102-103 | deduplicating `old ++ incoming` keeps deduplicated `old` as a prefix, so elements appear in order of first occurrence |
| UiMerge.UniqCovered | lib/gherkify.rb:102-103 | appending elements that are already present changes nothing after deduplication |
| UiMerge.MergeEntry | lib/gherkify.rb:101-104 | an existing screen keeps its attribute keys; each list becomes duplicate-free, holds exactly the old and incoming elements, and keeps the old order as a prefix; attributes only in the incoming data are ignored |
| UiMerge.Merge | lib/gherkify.rb:94-107 | after the merge every incoming screen is a key; screens absent from the incoming map are untouched; new screens are stored exactly as given; screens in both are merged by MergeEntry |
| UiMerge.AbsorbEntry | lib/gherkify.rb:101-104 | the inner loop over the existing entry's keys (`+=` when the incoming list is present, then `uniq!`) produces MergeEntry |
| UiMerge.Accumulator.MergeIn | lib/gherkify.rb:94-107 | the accumulator's new screens map is Merge of the old one with the incoming map |
| UiMerge.Collect | lib/gherkify.rb:109-116 | the fold of Merge over the features' maps from the empty map has every screen that any feature mentions as a key (CollectScreens gives the converse) |
| UiMerge.CollectUiElements | lib/gherkify.rb:109-116 | merging each feature's map into an empty accumulator, in feature order, yields the fold Collect |
| UiMerge.CollectScreens | lib/gherkify.rb:109-116 | a screen is in the merged map iff some feature mentions it |
| UiMerge.CollectKeysOfFirst | lib/gherkify.rb:97-104 | a merged screen has exactly the attribute keys of the first feature that mentions it |
| UiMerge.CollectMembers | lib/gherkify.rb:101-104 | each merged list holds exactly the elements that all features list under that screen and attribute |
| UiMerge.CollectNoDup | lib/gherkify.rb:97-104 | if every feature's lists are duplicate-free, so is every merged list |
| UiMerge.MergeIdempotent | lib/gherkify.rb:94-107 | merging a map with duplicate-free lists a second time changes nothing |
| UiMerge.MergeEntryStable | lib/gherkify.rb:101-104 | an entry that already holds every incoming element without duplicates absorbs the data unchanged |
| UiMerge.MergeTwiceDeduplicates | lib/gherkify.rb:97-104 | a new screen with a repeated button is stored with the repeat, and a second merge removes it |
| UiMerge.CollectPair | lib/gherkify.rb:109-116 | folding two maps from the empty map is merging the second into the first |
| UiMerge.CollectMembershipCommutes | lib/gherkify.rb:94-116 | two features merged in either order give the same screens; for a screen both give the same keys, the same members per attribute |
| UiMerge.LoginButtonsMerged | lib/gherkify.rb:94-116 | a "Login" screen with buttons ["submit"] then ["submit", "cancel"] merges to ["submit", "cancel"] |
| Features.ScenarioSlots | lib/gherkify.rb:84-87 | the scenarios' activity diagrams are used one per scenario, in order |
| Features.FeatureSlots | lib/gherkify.rb:80-87 | a feature uses its use-case diagram first, then one activity per scenario |
| Features.Slots | lib/gherkify.rb:80-88 | the diagram slots of a run, feature after feature, each feature's slots as FeatureSlots gives them; SlotsLength counts them |
| Features.Diagrams | lib/gherkify.rb:80-90 | the diagrams of all slots in order, then the UI diagram when there is one; DiagramsEnds and DiagramsAt characterise it |
| Features.SlotsLength | lib/gherkify.rb:80-88 | a run uses one diagram per feature plus one per scenario |
| Features.DiagramsEnds | lib/gherkify.rb:80-90 | the first diagram checked is the first feature's use case, the last is the UI diagram when there is one, and the count is slots plus the UI diagram |
| Features.DiagramsAt | lib/gherkify.rb:80-90 | the t-th diagram of the run is the t-th slot's diagram |
| DiagramCache.Target | lib/gherkify.rb:66-68 | the fetch target is `<dir>/` followed by exactly the file name `<md5>.png` that the cache test looks up |
| DiagramCache.Cached | lib/gherkify.rb:66 | a diagram is a cache hit exactly when `<md5>.png` is in the directory listing; FetchPlanEmptyIffAllCached and FetchPlanTargets use it |
| DiagramCache.Fetches | lib/gherkify.rb:65-70 | a cache hit fetches nothing; a miss fetches exactly one file, the diagram's target |
| DiagramCache.FetchPlan | lib/gherkify.rb:65-70 | checking a list of diagrams against one listing fetches at most one file per diagram (FetchPlanTargets and FetchCount say which) |
| DiagramCache.TargetInjective | lib/gherkify.rb:66-68 | different digests give different target paths in one directory |
| DiagramCache.FetchPlanEmptyIffAllCached | lib/gherkify.rb:66-70 | nothing is fetched exactly when every diagram's `<md5>.png` is in the listing |
| DiagramCache.FetchPlanTargets | lib/gherkify.rb:65-70 | a path is fetched iff it is `<dir>/<md5>.png` for some diagram whose file is not in the listing |
| DiagramCache.FetchCount | lib/gherkify.rb:75-90 | the listing is taken once, so a missing digest is fetched once per occurrence and a listed digest never |
| DiagramCache.Fetcher.CheckAndFetchDiagram | lib/gherkify.rb:65-70 | on a miss the log gains `<dir>/<md5>.png`; on a hit it is unchanged |
| DiagramCache.Fetcher.FetchFeatureDiagrams | lib/gherkify.rb:80-88 | one feature checks its use case and then each scenario's activity, in order |
| DiagramCache.Fetcher.FetchFeaturesDiagrams | lib/gherkify.rb:80-88 | the features are checked one after another against the same listing |
| DiagramCache.Fetcher.FetchDiagramImages | lib/gherkify.rb:72-92 | without a string image_path nothing is fetched and the call fails; otherwise the log gains the fetches of every diagram of the run, UI diagram last, all against one listing |
| DiagramCache.SampleRunDiagrams | lib/gherkify.rb:80-90 | a one-feature, one-scenario run uses its use case and then its activity |
| DiagramCache.SampleRunColdCache | lib/gherkify.rb:72-92 | with an empty directory that run fetches H1.png and then H2.png |
| DiagramCache.SampleRunWarmCache | lib/gherkify.rb:72-92 | with H1.png already listed it fetches only H2.png |
| Markdown.ImgPath | lib/gherkify.rb:129-131 | an image path is the image_path directory, a "/", then `<name>.png` |
| Markdown.ScenariosLines | lib/gherkify.rb:150-158 | each scenario contributes exactly three lines |
| Markdown.FeatureLines | lib/gherkify.rb:142-158 | a feature's section starts with its heading, use-case image and a blank line, and has three more lines per scenario |
| Markdown.FeaturesLines | lib/gherkify.rb:141-159 | each feature's FeatureLines, feature after feature; FeaturesLinesBySlots shows it is one three-line block per diagram slot, in fetch order |
| Markdown.UiLines | lib/gherkify.rb:161-167 | the UI Elements heading, caption, UI image and a blank line when there is a UI diagram, and nothing otherwise; ReportShape places them |
| Markdown.ListingLines | lib/gherkify.rb:172-180 | each source file contributes exactly five lines |
| Markdown.AppendScenarios | lib/gherkify.rb:150-158 | the scenario loop appends exactly the scenarios' lines, in order |
| Markdown.AppendFeatures | lib/gherkify.rb:141-159 | the feature loop appends exactly each feature's section, in order |
| Markdown.AppendListing | lib/gherkify.rb:172-180 | the appendix loop appends each source fenced, in file order |
| Markdown.AppendixLines | lib/gherkify.rb:169-181 | a blank line, the listing heading and each source's fenced block when add_features is set, and nothing otherwise; ReportShape and ListingAt characterise it |
| Markdown.ReportLines | lib/gherkify.rb:139-181 | the report's first line is "## Features" (ReportShape and ReportFeatureLinesAt place the sections after it) |
| Markdown.Join | lib/gherkify.rb:183 | the join starts with the first line and puts a newline right after it when more lines follow (JoinSplit and SplitJoin make it the inverse of Split) |
| Markdown.Report | lib/gherkify.rb:129-184 | to_md fails exactly when some line needs an image and image_path is missing or a boolean; otherwise it returns a string that starts with "## Features" |
| Markdown.ToMd | lib/gherkify.rb:133-184 | the returned string is the report's lines joined with newlines, or the error raised when images are needed and there is no image_path |
| Markdown.NewlineAt | lib/gherkify.rb:183 | the index found holds a newline and no earlier index does |
| Markdown.Split | lib/gherkify.rb:183 | splitting a string yields at least one piece and no piece holds a newline |
| Markdown.JoinSplit | lib/gherkify.rb:183 | joining the pieces of a split gives the string back |
| Markdown.SplitJoin | lib/gherkify.rb:183 | lines without newlines are recovered from their join |
| Markdown.SlotsLines | lib/gherkify.rb:141-159 | every diagram slot contributes three lines |
| Markdown.FeaturesLinesBySlots | lib/gherkify.rb:141-159 | the Features section is one three-line block per diagram slot, in the order the diagrams are fetched |
| Markdown.SlotsLinesAt | lib/gherkify.rb:141-159 | block t of the section is slot t's title, image and blank line |
| Markdown.FeaturesBlockAt | lib/gherkify.rb:141-159 | lines 3t to 3t+2 of the Features section are slot t's block |
| Markdown.ReportFeatureLinesAt | lib/gherkify.rb:140-159 | line k of the Features section is line k+1 of the report |
| Markdown.ReportImagesFollowDiagrams | lib/gherkify.rb:141-159 | line 3t+2 of the report is the image of the t-th diagram that fetch_diagram_images checks, under that slot's name |
| Markdown.ReportShape | lib/gherkify.rb:139-181 | the first line is "## Features"; then three lines per slot; then the four UI lines iff there is a UI diagram; then the appendix heading and five lines per source iff add_features is set |
| Markdown.ListingAt | lib/gherkify.rb:172-180 | source i appears verbatim inside its gherkin fence at lines 5i to 5i+4 of the listing |
| Markdown.EmptyReport | lib/gherkify.rb:139-184 | with no features, no UI diagram and no add_features the result is exactly "## Features" |
| Markdown.ReportNeedsImagePath | lib/gherkify.rb:15-20 | with the defaults, a report with any image fails iff the caller gave no image_path or a boolean one |
| Markdown.ImagesAreFetchTargets | lib/gherkify.rb:129-131 | the report's image path for a digest is the path the fetcher writes |

## Left out

- Parsing (`parse_files`, `parse`, lib/gherkify.rb:43-63). These reads use `IO.read`, the external Gherkin parser, its JSON formatter and JSON decoding into `Gherkify::Feature`. The model takes the parsed features as values.
- The `Gherkify::Feature` and `FeatureYuml` internals are not part of this model. This covers `scenario_name`, `yuml.use_case`, `yuml.activity`, `FeatureYuml.ui_elements` and `to_s`. A scenario's name and diagrams are fields. Each feature's UI-elements map is passed to `CollectUiElements` as one map per feature, in feature order. Whether a UI diagram exists is passed in as an `Option`.
- The MD5 digest (RFC 1321). A diagram is only its opaque `md5` string. Nothing assumes that distinct diagrams have distinct digests.
- The directory listing (`Dir.chdir`, `Dir.glob`, lib/gherkify.rb:76-78). The listing is a parameter `pngs`. A missing directory's error is not modelled.
- `diagram.to_png` (lib/gherkify.rb:68), a network call, is recorded only as a log entry. Its failures are not modelled. The progress `puts` (lib/gherkify.rb:67) is not modelled.
- `to_md(file)` with a file name (lib/gherkify.rb:186-188) writes the report and returns nil. Only the string result of `to_md(nil)` is modelled. Source files are passed in as their already read contents.
- `to_s` (lib/gherkify.rb:122-127) depends on `Feature#to_s`, which is not part of this model.
- The memoisation of `features` and `yuml_ui_elements` (lib/gherkify.rb:39-41, 118-120).
- Ruby aliasing at lib/gherkify.rb:98. The stored hash there is the feature's own object. The model merges with value semantics.
- Markdown.ImgPath: `File.join` is modelled as `image_path + "/" + name + ".png"`. Its collapsing of a trailing "/" in image_path is not modelled. For an image_path ending in "/", the source's report line and the fetcher's interpolated target are two spellings of one file. In the model they are the same string, so `Markdown.ImagesAreFetchTargets` holds only under this simplification.
- Markdown.ToMd: string encodings are not modelled, and `Markdown.Report` is equally affected. The source reads each feature file in binary mode (lib/gherkify.rb:173-174). If such a file holds non-ASCII bytes and follows a non-ASCII UTF-8 line, such as a feature named "Café", `s * "\n"` (lib/gherkify.rb:183) raises an encoding error. The model returns the joined report instead.
- Markdown.ToMd: a missing image_path is checked before any line is built. Ruby raises at the first `img_path` call instead. The outcome is the same error, because the line array is local.
- UiMerge.Accumulator.MergeIn: incoming screens are taken in an arbitrary order, not the hash's insertion order. Distinct screens do not interact, so the result is the same. The merged hash's key order (first mention, feature by feature) is not modelled: `Screens` is an unordered map. That order reaches only the UI diagram built by `FeatureYuml.ui_elements` (lib/gherkify.rb:119), which is not part of this model.
- Options.Value: option values are modelled as booleans and strings only. An explicit nil, a `Pathname` or any other object has no counterpart. In particular a `Pathname` image_path is not modelled, though the source accepts it: `File.join` and `Dir.chdir` take path-like objects, and the fetch target's interpolation uses `to_s`.
- The `show_notes` and `debug` options have no behaviour in this file beyond their defaults.
