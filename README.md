# SintezAGRChecker rule engine in Dafny

SintezAGRChecker is a Blender add-on. It checks the 3D models of buildings
submitted for architectural and town-planning approval (AGR). An inspector
loads the high-poly and low-poly FBX archives. The add-on runs a list of
rules over the imported scene. Each rule yields one or more checks, named
after the requirement paragraphs they test. The results are folded into
two three-state checklists, low-poly and high-poly. The inspector can then
click items, write comments, save a text report and load it back.

This project models that engine. Blender is treated as a source of plain
data: objects, meshes, lights, materials and file names are values, and
everything Blender computes (the BVH overlap test, convexity, duplicate
vertices, pixel reads) arrives as an input. The modules are:

- `Wrappers`, `Text`, `Lines`: `Option`, and the Python string operations
  the rules use (`lower`, `strip`, `split`, `join`, `replace`, `ljust`,
  `rjust`, `str(int)`/`int(str)`, banker's `round`, sorting).
- `Findings`: the `Check` record and `add_error`. Also the grouping of a
  run's checks by rule name and by first requirement id (`add_checks`), and
  the plain-text summary (`generate_result`).
- `Checklist`: the checklist items and categories. Covers:
  - folding grouped results into items, including the switch to manual
    when a rule produced nothing;
  - the click cycle, with its geojson variant;
  - building and refreshing the list from the requirements catalogue;
  - the progress counters;
  - the list of unchecked requirement numbers.
- `Scene`, `Walks`: the imported scene as values, and the walk most rules
  make over a file's objects.
- `Naming`: the restricted regular expressions (literal characters, `.`,
  `\d`, `\d{1,2}`) with a greedy matcher proved equal to full match. Also:
  - the extension normalisation and the one-call mask check;
  - the low-poly suffix and address derivations;
  - the file-name limits;
  - the throttling of collision and light lines.
- `Udim`: tile numbers (both variants), the tile of a UV coordinate, slot
  placement of textures, and the tile-consistency and resolution checks.
- `Png`: the 24-byte header reader (PNG signature of RFC 2083 section 3.1,
  IHDR width and height of section 4.1.1 as signed big-endian 32-bit
  integers) and the alpha test on bit depth.
- `Collision`: closedness by the Euler characteristic, convexity, pairwise
  overlap enumeration with its 15-item cap, and the contiguity of proxy
  numbering.
- `Objects`, `Materials`, `Lights`, `GeoJsonProperties`, `Polycount`,
  `Transforms`, `ColorAttributes`: the composition counts, the material,
  light and polygon ceilings, the required geojson properties and FNO code
  length, the transform-error grouping, and the colour-attribute line cap.
- `Report`, `ReportRoundTrip`: generating the text report and loading its
  failed and unchecked ids. The round trip proves that loading a generated
  report into a freshly rebuilt checklist restores every item's state.
- `Editor`, `NotesRoundTrip`, `NotesState`: the line-driven parser that
  reads inspector comments and descriptions back from the report text. The
  proofs show that reading the first text of a report gives every failed
  item its stripped description and comment, and changes nothing else.

State that the add-on updates in place is modelled as classes with
`modifies` clauses: `Findings.Check`, `Findings.CheckGroups` and
`Checklist.Checklist`. Loops that update counters are methods with loop
invariants, each proved against a specification function about which the
lemmas speak.

## Model

| member | source | states |
|---|---|---|
| Text.Lower | SintezAGRChecker_v1.1.3/scripts/check_highpoly_lowpoly.py:497-499 | ASCII lower-casing: the length is kept, each letter A-Z becomes its lower-case letter and every other character is kept |
| Text.TrimLeft | SintezAGRChecker_v1.1.3/scripts/check_report.py:313-315 | the left part of `strip`: only blank space is removed, and the rest starts with a non-blank character |
| Text.TrimRight | SintezAGRChecker_v1.1.3/scripts/check_report.py:313-315 | the right part of `strip`: only blank space is removed, and the rest ends with a non-blank character |
| Text.StripChar | SintezAGRChecker_v1.1.3/scripts/check_report.py:319 | `strip(".")`: the result neither starts nor ends with a dot, and is non-empty when the input holds any other character |
| Text.Split | SintezAGRChecker_v1.1.3/scripts/check_report.py:319 | `split` on one character: at least one part, none holding the separator |
| Text.JoinSplit | SintezAGRChecker_v1.1.3/scripts/ui_utills.py:325 | joining the parts of a split with the separator gives back the text |
| Text.SplitJoin | SintezAGRChecker_v1.1.3/scripts/ui_utills.py:325 | splitting parts free of the separator, joined by it, gives back the parts |
| Text.SplitStr | SintezAGRChecker_v1.1.3/scripts/check_report.py:313-315 | `split` on a string separator yields at least one part |
| Text.ReplaceAll | SintezAGRChecker_v1.1.3/scripts/check_highpoly_lowpoly.py:872-873 | `replace`: a text starting with the pattern yields one starting with the replacement |
| Text.ReplaceAllAbsent | SintezAGRChecker_v1.1.3/scripts/check_highpoly_lowpoly.py:872-873 | replacing a pattern that does not occur changes nothing |
| Text.RoundHalfEven | SintezAGRChecker_v1.1.3/scripts/check_report.py:42-49 | Python's `round` of a quotient: the nearest integer, ties to the even one |
| Text.LJust | SintezAGRChecker_v1.1.3/scripts/check_highpoly_lowpoly.py:111-112 | `ljust`: the text followed by fill characters up to the width, never shortened |
| Text.RJust | SintezAGRChecker_v1.1.3/scripts/check_report.py:31-34 | `rjust`: fill characters followed by the text up to the width, never shortened |
| Text.NatToString | SintezAGRChecker_v1.1.3/scripts/check_report.py:31-35 | `str` of a natural number: digits only, without a leading zero |
| Text.ParseIntToString | SintezAGRChecker_v1.1.3/scripts/check_highpoly_lowpoly.py:1448-1454 | `int` reads back `str` of any integer |
| Text.SortStrings | SintezAGRChecker_v1.1.3/scripts/check_highpoly_lowpoly.py:109 | `sorted` of strings: an ordered permutation of its input |
| Checklist.StateAt | SintezAGRChecker_v1.1.3/scripts/utills.py:24-28 | the state at position i of the three-state list undefined/verified/failed, inverse of its index |
| Checklist.AutoStep | SintezAGRChecker_v1.1.3/scripts/utills.py:387-393 | after the first pass an item is automatic exactly when its number is a key of the results; nothing else changes |
| Checklist.AggregatedAuto | SintezAGRChecker_v1.1.3/scripts/utills.py:387-393 | after the whole aggregation an item is automatic iff its number is a key of the results |
| Checklist.KeyStepsOther | SintezAGRChecker_v1.1.3/scripts/utills.py:402-426 | a key loop whose keys never name the item leaves it as it was |
| Checklist.KeyStepsOnce | SintezAGRChecker_v1.1.3/scripts/utills.py:402-426 | with distinct keys, the loop over all keys does to an item exactly what its own key does |
| Checklist.AggregatedKeyed | SintezAGRChecker_v1.1.3/scripts/utills.py:402-433 | an item whose number is a key becomes verified with `check` set iff every check under the key passed, failed with `check` cleared otherwise; `errors_count` is the number of messages under the key in both branches; `errors_text` is rewritten only on failure, from the unverified checks |
| Checklist.AggregatedUntouched | SintezAGRChecker_v1.1.3/scripts/utills.py:390-433 | an item whose number is not a key keeps state, count and error text and only loses its automatic flag |
| Checklist.FailedWithoutMessages | SintezAGRChecker_v1.1.3/scripts/utills.py:412-424 | a check that fails without a message leaves a failed item with `errors_count` 0 |
| Checklist.ClickCycle | SintezAGRChecker_v1.1.3/scripts/operators.py:86-93 | an ordinary click moves undefined to verified to failed to undefined; three clicks restore any state |
| Checklist.GeojsonClicks | SintezAGRChecker_v1.1.3/scripts/operators.py:89-90 | in the geojson list undefined jumps to failed and failed to undefined, so from undefined the state only alternates |
| Checklist.ClickFlags | SintezAGRChecker_v1.1.3/scripts/operators.py:93-97 | after a click `check` holds iff the new state is verified; a manual item counts one error iff failed, an automatic one keeps its count; nothing else changes |
| Checklist.CategoryOrder | SintezAGRChecker_v1.1.3/scripts/operators.py:513-517 | the category names without repeats, exactly the categories the rows mention |
| Checklist.RowsOf | SintezAGRChecker_v1.1.3/scripts/operators.py:513-517 | the rows gathered under a category all belong to it |
| Checklist.NewItems | SintezAGRChecker_v1.1.3/scripts/operators.py:525-536 | one fresh item per row, the j-th at `index_in_category` j, automatic iff its row does not say "0", undefined |
| Checklist.BuiltShape | SintezAGRChecker_v1.1.3/scripts/operators.py:513-537 | a built checklist has one category per catalogue category in first-appearance order; each item stands at its `index_in_category`, carries its row's number, is automatic iff the row does not say "0", and starts undefined |
| Checklist.NonEmptyBuilt | SintezAGRChecker_v1.1.3/scripts/operators.py:519-538 | the built checklist has a first item exactly when the catalogue has a row (the source touches `categories_collection[0].collection[0]`) |
| Checklist.Refreshed | SintezAGRChecker_v1.1.3/scripts/operators.py:539-547 | a refresh keeps number, state, `check`, comment, description, error images, error text and count |
| Checklist.LastWith | SintezAGRChecker_v1.1.3/scripts/operators.py:542-543 | the position of the last row with a number, or -1 exactly when no row has it |
| Checklist.RefreshedLastWins | SintezAGRChecker_v1.1.3/scripts/operators.py:542-547 | the last matching row of the category decides name, description and both flags; without one the item is unchanged |
| Checklist.CountItemsBalanced | SintezAGRChecker_v1.1.3/scripts/properties.py:31-45 | counting a category adds its size to the total and keeps all = auto + manual, true = autoTrue + manualTrue with each part at most its total |
| Checklist.TallyBalanced | SintezAGRChecker_v1.1.3/scripts/properties.py:28-45 | over a whole checklist count_all = count_auto + count_manual and count_true = count_auto_true + count_manual_true, each at most its total; "true" means the `check` flag |
| Checklist.Checked | SintezAGRChecker_v1.1.3/scripts/properties.py:30-34 | the number of items no longer undefined is at most the category size |
| Checklist.FirstEmpty | SintezAGRChecker_v1.1.3/scripts/properties.py:46 | the position of the first empty category, where the division by its size raises; every earlier category is non-empty |
| Checklist.TotaledRatios | SintezAGRChecker_v1.1.3/scripts/properties.py:50-55 | the overall ratio is true over all items; the automatic and manual ratios are their own parts over their totals and at most 1; with no automatic items neither later ratio is written, with no manual items the last is not |
| Checklist.ProgressStep | SintezAGRChecker_v1.1.3/scripts/properties.py:46-48 | recomputing category i's "k/n" progress extends the recomputed prefix by one |
| Checklist.Updated | SintezAGRChecker_v1.1.3/scripts/properties.py:19-55 | what `update_checklist` leaves: items and names kept, the progress of each category before the first empty one is its checked count over its size, the rest unchanged, and the ratios untouched when a category is empty |
| Checklist.TallyShape | SintezAGRChecker_v1.1.3/scripts/properties.py:28-42 | editing items without changing their number or automatic flags leaves the all, automatic and manual totals unchanged, so the same divisions raise |
| Checklist.LastUpdateWins | SintezAGRChecker_v1.1.3/scripts/properties.py:61 | the `check` flag runs `update_checklist` on every assignment; an update followed by further item edits and another update leaves what the last update alone leaves |
| Checklist.UndefinedInMembers | SintezAGRChecker_v1.1.3/scripts/check_report.py:19-21 | a number is listed for a list of items iff one of them is undefined with that number |
| Checklist.UncheckedMembers | SintezAGRChecker_v1.1.3/scripts/check_report.py:16-22 | a number is listed as not checked iff some item with that number is still undefined |
| Checklist.WriteItemsAbsent | SintezAGRChecker_v1.1.3/scripts/ui_utills.py:289-303 | with no item of that number, nothing is written |
| Checklist.WriteItemsOnce | SintezAGRChecker_v1.1.3/scripts/ui_utills.py:289-299 | when a number occurs at most once, writing its first item is writing every item with that number |
| Checklist.OthersLack | SintezAGRChecker_v1.1.3/scripts/ui_utills.py:298-301 | with unique numbers, once the first category holds the number no later one does |
| Checklist.WriteCatsOnce | SintezAGRChecker_v1.1.3/scripts/ui_utills.py:289-301 | with unique numbers, the write into the first matching item equals retexting every item with that number |
| Checklist.FindReq | SintezAGRChecker_v1.1.3/scripts/ui_utills.py:290-299 | the loop returns the first item with the number, or the length exactly when none has it; the write changes just that item |
| Checklist.Checklist.UpdateItems | SintezAGRChecker_v1.1.3/scripts/utills.py:387-393 | the nested item loop applies one update to every item and keeps the totals |
| Checklist.Checklist.WriteFirst | SintezAGRChecker_v1.1.3/scripts/ui_utills.py:286-301 | the categories become the first-match write of the text; totals stay |
| Checklist.Checklist.ApplyResults | SintezAGRChecker_v1.1.3/scripts/utills.py:379-433 | with no results nothing changes; otherwise the items become the aggregation of the results (the Aggregated lemmas), and when some key names an item the counters are what `update_checklist` makes of the new items |
| Checklist.Checklist.ApplyKeys | SintezAGRChecker_v1.1.3/scripts/utills.py:402-433 | the sorted-key loop applies every key in turn to every item; when some key names an item, its flag assignment has run `update_checklist` on the new items |
| Checklist.Checklist.Click | SintezAGRChecker_v1.1.3/scripts/operators.py:78-97 | the item at `index` of the category named `catName` takes the click, as ClickFlags states, and the flag assignment runs `update_checklist`; with no such category nothing changes |
| Checklist.Checklist.Build | SintezAGRChecker_v1.1.3/scripts/operators.py:513-538 | an empty checklist becomes the built one and the first item's flag assignment runs `update_checklist` on it; `ok` is false exactly when the catalogue is empty and the source raises on the first item |
| Checklist.Checklist.Refresh | SintezAGRChecker_v1.1.3/scripts/operators.py:539-547 | every item is refreshed from its category's rows |
| Checklist.Checklist.ProgressCategories | SintezAGRChecker_v1.1.3/scripts/properties.py:28-48 | the category loop recomputes progress up to the first empty category, where it raises; the counts are the tally of the whole checklist |
| Checklist.Checklist.UpdateCounters | SintezAGRChecker_v1.1.3/scripts/properties.py:19-55 | the progress of every category and the three overall ratios, stopping where the source divides by zero; the result is `Updated` of the old state |
| Checklist.Checklist.AfterChecks | SintezAGRChecker_v1.1.3/scripts/properties.py:61 | when an operation assigned some item's flag, the checklist is `Updated`; otherwise nothing changes |
| Checklist.Checklist.DontCheckedNums | SintezAGRChecker_v1.1.3/scripts/check_report.py:16-22 | the numbers of undefined items, category by category, as UncheckedMembers characterises |
| Checklist.CountCategory | SintezAGRChecker_v1.1.3/scripts/properties.py:31-45 | the inner loop yields the counts and the number of items no longer undefined |
| Checklist.NewItem | SintezAGRChecker_v1.1.3/scripts/operators.py:525-536 | a fresh item is undefined, automatic exactly when its row does not say "0", and placed at its index in the category |
| Findings.Check.constructor | SintezAGRChecker_v1.1.3/scripts/check_highpoly_lowpoly.py:1909-1919 | a new check carries its name, directory, verdict, paragraph, units text and ids, with empty comment, no errors and a zero checked count |
| Findings.Check.AddError | SintezAGRChecker_v1.1.3/scripts/check_highpoly_lowpoly.py:1921-1923 | recording an error leaves `verified` false and appends exactly that message at the end of the error list; name, ids, comment and checked count are unchanged |
| Findings.Check.Snapshot | SintezAGRChecker_v1.1.3/scripts/check_highpoly_lowpoly.py:1908-1923 | the value handed to the aggregation carries the check's errors, verdict, ids and name |
| Findings.AddErrors | SintezAGRChecker_v1.1.3/scripts/check_highpoly_lowpoly.py:1921-1923 | `add_error` once per message: the messages are appended in order and the check stays verified only when there were none |
| Findings.Verdict | SintezAGRChecker_v1.1.3/scripts/check_highpoly_lowpoly.py:1909-1923 | a check created verified that receives one message exactly when `failed` holds |
| Findings.WithKey | SintezAGRChecker_v1.1.3/scripts/check_highpoly_lowpoly.py:49-58 | the findings filed under a key are a sub-list of the batch |
| Findings.AddToValid | SintezAGRChecker_v1.1.3/scripts/check_highpoly_lowpoly.py:51-53 | one filing step keeps the groups well formed (every key listed once and mapped) |
| Findings.GroupAllValid | SintezAGRChecker_v1.1.3/scripts/check_highpoly_lowpoly.py:49-58 | filing a whole batch keeps the groups well formed |
| Findings.AddToGet | SintezAGRChecker_v1.1.3/scripts/check_highpoly_lowpoly.py:51-53 | one filing step appends the check to its own key's list and leaves every other list alone |
| Findings.AddToKeys | SintezAGRChecker_v1.1.3/scripts/check_highpoly_lowpoly.py:51-52 | one filing step adds the key iff it was new, after the existing keys |
| Findings.GroupAllContents | SintezAGRChecker_v1.1.3/scripts/check_highpoly_lowpoly.py:49-58 | after `add_checks` each key's list is its old list followed by exactly the batch's checks with that key, in arrival order, so every check lands exactly once |
| Findings.GroupAllKeys | SintezAGRChecker_v1.1.3/scripts/check_highpoly_lowpoly.py:49-58 | a key is present afterwards iff it was before or some check carries it; old keys keep their order |
| Findings.CheckGroups.constructor | SintezAGRChecker_v1.1.3/scripts/check_highpoly_lowpoly.py:36-41 | both groupings start empty and the result report is blank |
| Findings.AddEach | SintezAGRChecker_v1.1.3/scripts/check_highpoly_lowpoly.py:50-58 | one loop of `add_checks` files every check of the batch under its key, giving exactly the filing of the batch, and keeps the groups well formed |
| Findings.CheckGroups.AddChecks | SintezAGRChecker_v1.1.3/scripts/check_highpoly_lowpoly.py:49-58 | the by-name grouping and the by-first-id grouping each become the filing of the batch; the report is unchanged |
| Findings.CheckGroups.GenerateResult | SintezAGRChecker_v1.1.3/scripts/check_highpoly_lowpoly.py:104-136 | the stored report is the summary of the by-name grouping; the groupings are unchanged |
| Findings.ParagraphSuffix | SintezAGRChecker_v1.1.3/scripts/check_highpoly_lowpoly.py:1028-1030 | the paragraph suffix starts with a space, and in the low tier an empty paragraph leaves only that space (see also line 116) |
| Findings.Unverified | SintezAGRChecker_v1.1.3/scripts/check_highpoly_lowpoly.py:124-125 | the filtered checks are a sub-list, all of them unverified |
| Findings.ErrLinesUnverified | SintezAGRChecker_v1.1.3/scripts/check_highpoly_lowpoly.py:123-128 | the error lines of a group come from its unverified checks alone |
| Findings.ErrLinesEmpty | SintezAGRChecker_v1.1.3/scripts/check_highpoly_lowpoly.py:123-128 | a group produces error lines iff one of its checks is unverified |
| Findings.ErrorLinesOf | SintezAGRChecker_v1.1.3/scripts/check_highpoly_lowpoly.py:123-128 | the directory-then-indented-messages loop builds the group's error lines |
| Findings.MessageLinesOf | SintezAGRChecker_v1.1.3/scripts/check_highpoly_lowpoly.py:127-128 | each message on its own line, indented by eight spaces |
| Findings.SummaryParts | SintezAGRChecker_v1.1.3/scripts/check_highpoly_lowpoly.py:109-130 | the loop over sorted keys builds the status lines and the error blocks |
| Findings.CheckLine | SintezAGRChecker_v1.1.3/scripts/check_highpoly_lowpoly.py:110-116 | a status line starts with the rule name and is at least 76 characters (name padded to 70, verdict to 6) |
| Findings.ErrorBlockIff | SintezAGRChecker_v1.1.3/scripts/check_highpoly_lowpoly.py:117-129 | a rule name has a block in the error section iff some check under it is unverified, and the block opens with the name and lists only unverified checks |
| Findings.SummaryKeysSorted | SintezAGRChecker_v1.1.3/scripts/check_highpoly_lowpoly.py:109 | the summary lists the keys in strictly increasing order, each key of the results exactly once |
| Naming.Atoms | SintezAGRChecker_v1.1.3/scripts/check_highpoly_lowpoly.py:1495 | a mask reads as at most one atom per character (`\d{1,2}`, `\d`, `.` special, the rest literal) |
| Naming.ReMatchSound | SintezAGRChecker_v1.1.3/scripts/check_highpoly_lowpoly.py:1495-1496 | whatever prefix the backtracking `re.match` reports is matched by the pattern as a whole |
| Naming.FixedWidth | SintezAGRChecker_v1.1.3/scripts/check_highpoly_lowpoly.py:1495 | without `\d{1,2}` a match has exactly one character per atom |
| Naming.ReMatchComplete | SintezAGRChecker_v1.1.3/scripts/check_highpoly_lowpoly.py:1495-1496 | with at most one `\d{1,2}`, any full match is the one `re.match` reports |
| Naming.ReMatchIsFullMatch | SintezAGRChecker_v1.1.3/scripts/check_highpoly_lowpoly.py:1495-1496 | with at most one `\d{1,2}` (every mask the rules build), `re.match(mask, name).group(0) == name` holds iff the pattern matches the whole name |
| Naming.MaskTextShown | SintezAGRChecker_v1.1.3/scripts/check_highpoly_lowpoly.py:1497 | replacing `\d{1,2}` and then `\d` by N shows every digit class of the mask as N and leaves all other characters |
| Naming.LowerExtensionWithDot | SintezAGRChecker_v1.1.3/scripts/check_highpoly_lowpoly.py:1501-1509 | a name with a dot keeps everything up to its last dot and lower-cases the extension only when it is png, fbx, geojson or zip |
| Naming.LowerExtensionNoDot | SintezAGRChecker_v1.1.3/scripts/check_highpoly_lowpoly.py:1501-1509 | a name without a dot is left alone unless it is itself a known extension, which then gains a leading dot |
| Naming.LowerExtensionIdempotent | SintezAGRChecker_v1.1.3/scripts/check_highpoly_lowpoly.py:1501-1509 | normalising the extension twice is normalising it once |
| Naming.CheckMaskRe | SintezAGRChecker_v1.1.3/scripts/check_highpoly_lowpoly.py:1493-1498 | `check_mask_re` adds exactly one error (the normalised name and the mask shown with N) iff the name does not match, else changes nothing; with at most one `\d{1,2}` "matches" is a full match of the normalised name; name, ids, directory and count stay |
| Naming.SuffixWords | SintezAGRChecker_v1.1.3/scripts/check_highpoly_lowpoly.py:1775-1782 | a name containing "groundel" or "groundglass" contains "ground", which is why the ground branches come in that order |
| Naming.LpSuffix | SintezAGRChecker_v1.1.3/scripts/check_highpoly_lowpoly.py:1772-1786 | the numbered main suffix is chosen iff the lower-cased name mentions neither flora nor ground; a suffix ending in Glass implies "glass" in the name, and for main parts the converse holds |
| Naming.HpAddressRoundTrip | SintezAGRChecker_v1.1.3/scripts/check_highpoly_lowpoly.py:278-280 | the address is recovered from a ground file named `SM_<address>_Ground` when neither marker occurs inside the address |
| Naming.HpAddress | SintezAGRChecker_v1.1.3/scripts/check_highpoly_lowpoly.py:275-281 | the known address is kept; otherwise the address comes from the last ground, non-light file (the loop does not stop at the first) |
| Naming.LpAddressRoundTrip | SintezAGRChecker_v1.1.3/scripts/check_highpoly_lowpoly.py:1061-1079 | the middle of `<prefix>_<address>_<suffix>` is recovered when prefix and suffix hold no underscore |
| Naming.LpAddress | SintezAGRChecker_v1.1.3/scripts/check_highpoly_lowpoly.py:1056-1062 | the known address is kept; otherwise the address comes from the last file mentioning ground |
| Naming.CheckFileName | SintezAGRChecker_v1.1.3/scripts/check_highpoly_lowpoly.py:1400-1403 | one "forbidden characters" error iff the name has a character outside letters, digits, `_` and `.`, and one length error iff it is longer than 254 |
| Naming.AllowedNameMatchesItself | SintezAGRChecker_v1.1.3/scripts/check_highpoly_lowpoly.py:1400-1401 | a name of allowed characters has no digit class when read as a mask and matches itself (see also line 1495) |
| Naming.ThrottledQuota | SintezAGRChecker_v1.1.3/scripts/check_highpoly_lowpoly.py:435-447 | after throttling at most six collision lines and six light lines remain, never more than before |
| Naming.CountsAppend | SintezAGRChecker_v1.1.3/scripts/check_highpoly_lowpoly.py:438-447 | the collision and light counts of a concatenation add up |
| Naming.ThrottledKeepsPlain | SintezAGRChecker_v1.1.3/scripts/check_highpoly_lowpoly.py:435-447 | throttling never drops a line that mentions neither kind |
| Naming.ThrottledSubset | SintezAGRChecker_v1.1.3/scripts/check_highpoly_lowpoly.py:435-447 | every kept line was a line of the input, counted with multiplicity |
| Naming.ThrottledStep | SintezAGRChecker_v1.1.3/scripts/check_highpoly_lowpoly.py:437-447 | walking from the end, a line is removed iff it is over the quota of a kind it mentions, given the lines after it |
| Naming.ThrottleLines | SintezAGRChecker_v1.1.3/scripts/check_highpoly_lowpoly.py:435-447 | corrected throttle: the error list becomes the throttled list, each line removed at most once; everything else stays |
| Naming.RemoveFirst | SintezAGRChecker_v1.1.3/scripts/check_highpoly_lowpoly.py:440-445 | `list.remove` fails iff the line is absent, otherwise drops exactly one line |
| Naming.RemoveFirstAt | SintezAGRChecker_v1.1.3/scripts/check_highpoly_lowpoly.py:440-445 | removing a line absent before its position takes out exactly that position |
| Naming.WalkRemove | SintezAGRChecker_v1.1.3/scripts/check_highpoly_lowpoly.py:437-445 | on distinct lines the first `remove` of a visited line takes it out, and a second one fails |
| Naming.WalkKeep | SintezAGRChecker_v1.1.3/scripts/check_highpoly_lowpoly.py:437-447 | one visit of the walk: a line over a quota is removed, a line over both makes the walk raise, and the walk raises iff this or a later visit does |
| Naming.RaisesSuffix | SintezAGRChecker_v1.1.3/scripts/check_highpoly_lowpoly.py:437-447 | a failure on a suffix of the walk is a failure of the whole walk |
| Naming.ThrottleAsWritten | SintezAGRChecker_v1.1.3/scripts/check_highpoly_lowpoly.py:435-447 | as written: for distinct lines the throttle raises iff some line is over both quotas, and otherwise ends with the throttled list |
| Naming.SpotLineKinds | SintezAGRChecker_v1.1.3/scripts/check_highpoly_lowpoly.py:438-443 | a mesh line whose address mentions "Spot" and that names a collision proxy counts as both kinds |
| Naming.ThrottleRaisesOnSharedLines | SintezAGRChecker_v1.1.3/scripts/check_highpoly_lowpoly.py:435-447 | seven distinct lines that each mention UCX and Spot make the throttle raise |
| Naming.CountAllShared | SintezAGRChecker_v1.1.3/scripts/check_highpoly_lowpoly.py:438-447 | lines that all mention both kinds count fully under both |
| Udim.SceneUdimNumber | SintezAGRChecker_v1.1.3/scripts/check_highpoly_lowpoly.py:1448-1454 | a tile number exists iff the name has a dot (otherwise `split` leaves no second piece and the source raises) |
| Udim.SceneUdimNumberOf | SintezAGRChecker_v1.1.3/scripts/check_highpoly_lowpoly.py:1448-1454 | `<stem>.<n>.<ext>` with a dot-free stem carries tile n: the integer of the second dot-separated piece |
| Udim.SceneUdimNumberNotInt | SintezAGRChecker_v1.1.3/scripts/check_highpoly_lowpoly.py:1450-1453 | a second piece that is not an integer gives tile 0 |
| Udim.LoaderUdimNumberOf | SintezAGRChecker_v1.1.3/scripts/utills.py:80-81 | four digits just before a four-character extension are the tile number |
| Udim.UvTile | SintezAGRChecker_v1.1.3/scripts/check_highpoly_lowpoly.py:1489-1490 | a point with col-1 < u <= col and row <= v < row+1 lies in tile 1000 + 10·row + col (floor of v, ceiling of u) |
| Udim.UvFirstTile | SintezAGRChecker_v1.1.3/scripts/check_highpoly_lowpoly.py:1489-1490 | 0 < u <= 1 and 0 <= v < 1 give tile 1001 |
| Udim.PyIndex | SintezAGRChecker_v1.1.3/scripts/check_highpoly_lowpoly.py:1425-1432 | Python list indexing: a valid position iff -n <= i < n, negative indices counting from the end |
| Udim.PngsMembers | SintezAGRChecker_v1.1.3/scripts/check_highpoly_lowpoly.py:1414 | a name is listed iff it is in the directory and contains ".png" (lower-cased for the scene copy, as written for the loader copy) |
| Udim.TexturesAt | SintezAGRChecker_v1.1.3/scripts/check_highpoly_lowpoly.py:1424-1432 | each listed file is classified by its own name |
| Udim.MaxNumberBound | SintezAGRChecker_v1.1.3/scripts/check_highpoly_lowpoly.py:1418 | with every texture numbered, the maximum bounds every tile number and is attained |
| Udim.UnnumberedAt | SintezAGRChecker_v1.1.3/scripts/check_highpoly_lowpoly.py:1418 | one texture without a number makes the maximum raise |
| Udim.ScanMax | SintezAGRChecker_v1.1.3/scripts/check_highpoly_lowpoly.py:1418 | the largest tile number, or none exactly when some texture has no number |
| Udim.Place | SintezAGRChecker_v1.1.3/scripts/check_highpoly_lowpoly.py:1424-1432 | placement raises exactly when a sorted texture has no slot; otherwise every slot of each of the three arrays of length n holds the last texture of its kind whose index lands there |
| Udim.CreateUdimSets | SintezAGRChecker_v1.1.3/scripts/check_highpoly_lowpoly.py:1412-1445 | `create_udim_sets` raises exactly when a texture is unnumbered, a sorted one has no slot, or a filled slot's size cannot be read (`get_image_size` returns `None` and `[0]` raises); otherwise the slots are the ones placement determines and the resolution table is the one the tile loop builds |
| Udim.SlotsFilledUnique | SintezAGRChecker_v1.1.3/scripts/check_highpoly_lowpoly.py:1418-1432 | the slot arrays are determined by the directory's textures |
| Udim.TileMax | SintezAGRChecker_v1.1.3/scripts/check_highpoly_lowpoly.py:1435-1442 | `max_res` of a tile is 0 or a width read in that tile, and no read width of the tile exceeds it |
| Udim.ReadTile | SintezAGRChecker_v1.1.3/scripts/check_highpoly_lowpoly.py:1436-1442 | the inner loop fails exactly when some filled slot of the tile has no readable size; otherwise it leaves the last filled slot's tile number and the widest width |
| Udim.ReadResolutions | SintezAGRChecker_v1.1.3/scripts/check_highpoly_lowpoly.py:1434-1444 | the resolution loop fails exactly when some filled slot has no readable size; otherwise the table maps tile numbers to the widest width of tiles with a positive width |
| Udim.ResolutionsSound | SintezAGRChecker_v1.1.3/scripts/check_highpoly_lowpoly.py:1434-1444 | every table entry is the positive widest width of a tile holding a texture of that tile number |
| Udim.LastFilled | SintezAGRChecker_v1.1.3/scripts/check_highpoly_lowpoly.py:1436-1439 | in a tile with a filled slot, `num` is the tile number of the last filled slot |
| Udim.ReadSizes | SintezAGRChecker_v1.1.3/scripts/check_highpoly_lowpoly.py:1458-1472 | a file has a size iff `get_image_size` returns one for its bytes, and the size is that one |
| Udim.NotPngRaises | SintezAGRChecker_v1.1.3/scripts/check_highpoly_lowpoly.py:1440 | a filled slot whose file is shorter than 24 bytes or lacks the PNG signature makes `create_udim_sets` raise |
| Udim.CreatedSizesRead | SintezAGRChecker_v1.1.3/scripts/check_highpoly_lowpoly.py:172-186 | once `create_udim_sets` has succeeded, no texture of a complete set lacks a size, so the resolution check's "could not read" message cannot arise for it |
| Udim.LastPlacedSound | SintezAGRChecker_v1.1.3/scripts/utills.py:57-65 | a placed texture is one of the directory's, of the slot's kind, and its index lands on that slot |
| Udim.LastPlacedComplete | SintezAGRChecker_v1.1.3/scripts/utills.py:57-65 | every sorted texture with a slot leaves that slot filled |
| Udim.PlacedOnce | SintezAGRChecker_v1.1.3/scripts/utills.py:51-65 | a texture sits in at most one slot of at most one kind (diffuse before ERM before normal), at index udim - 1001, or counted from the end for tiles below 1001 |
| Udim.AtOwnTile | SintezAGRChecker_v1.1.3/scripts/utills.py:58 | with all tiles at least 1001, the texture in slot j is of tile j + 1001 |
| Udim.PlacedSetConsistent | SintezAGRChecker_v1.1.3/scripts/check_highpoly_lowpoly.py:165-170 | a complete placement of tiles at least 1001 passes the (intended) tile consistency test |
| Udim.NumberingErrors | SintezAGRChecker_v1.1.3/scripts/check_highpoly_lowpoly.py:154-162 | no numbering errors iff all three slot arrays are filled; otherwise the header and one row per counted tile |
| Udim.ChainedImpliesMismatch | SintezAGRChecker_v1.1.3/scripts/check_highpoly_lowpoly.py:167 | whenever the chained comparison fires, the three tile numbers are not all equal |
| Udim.ChainedMissesWrappedNormal | SintezAGRChecker_v1.1.3/scripts/check_highpoly_lowpoly.py:167 | as written: a complete set whose last tile holds tile-1003 diffuse and ERM maps beside a tile-1000 normal map passes every tile |
| Udim.SizeErrors | SintezAGRChecker_v1.1.3/scripts/check_highpoly_lowpoly.py:178-186 | an unreadable size is one error; otherwise no error iff the width is 256, 2048 or 4096 and the texture is square |
| Udim.SlotSizeErrors | SintezAGRChecker_v1.1.3/scripts/check_highpoly_lowpoly.py:176-186 | a slot adds no error iff its size is allowed and square |
| Udim.TileSizeErrors | SintezAGRChecker_v1.1.3/scripts/check_highpoly_lowpoly.py:174-186 | a tile adds no error iff all three textures have allowed square sizes |
| Udim.SizeErrorsClean | SintezAGRChecker_v1.1.3/scripts/check_highpoly_lowpoly.py:172-186 | the resolution check passes iff every texture of the counted tiles has an allowed square size |
| Udim.MixErrors | SintezAGRChecker_v1.1.3/scripts/check_highpoly_lowpoly.py:188-194 | at most three errors, none iff every width is 256 or the tile's largest |
| Udim.MixErrorsUniform | SintezAGRChecker_v1.1.3/scripts/check_highpoly_lowpoly.py:188-194 | three widths each 256 or one common width raise no mixed-resolution error |
| Udim.TileMixClean | SintezAGRChecker_v1.1.3/scripts/check_highpoly_lowpoly.py:188-194 | a tile whose textures are all of one width or 256 raises no mixed-resolution error |
| Udim.NumberTiles | SintezAGRChecker_v1.1.3/scripts/check_highpoly_lowpoly.py:165-170 | over a complete set three files are counted per tile, no message is added, and the check fails iff some tile is broken |
| Udim.SizeTiles | SintezAGRChecker_v1.1.3/scripts/check_highpoly_lowpoly.py:172-194 | the resolution and mixed-width checks of a complete set collect exactly the size and mixing errors of every tile and count three files per tile |
| Udim.TileChecks | SintezAGRChecker_v1.1.3/scripts/check_highpoly_lowpoly.py:146-194 | corrected (see Findings: a tile is reported when its three numbers are not all equal): the three reports of one fbx file: numbering errors and verdict, and size and mixing checks only when the set is complete |
| Png.ReadI32 | SintezAGRChecker_v1.1.3/scripts/check_highpoly_lowpoly.py:1466-1469 | a signed big-endian 32-bit integer, negative iff the top bit of its first byte is set |
| Png.ReadWriteI32 | SintezAGRChecker_v1.1.3/scripts/check_highpoly_lowpoly.py:1469 | reading back a written 32-bit integer gives it back |
| Png.WriteReadI32 | SintezAGRChecker_v1.1.3/scripts/check_highpoly_lowpoly.py:1469 | writing back a read integer gives the same four bytes |
| Png.ImageSize | SintezAGRChecker_v1.1.3/scripts/check_highpoly_lowpoly.py:1458-1472 | a size only for at least 24 bytes of PNG data, and then the signed big-endian integers at bytes 16..19 and 20..23 (RFC 2083 section 4.1.1) |
| Png.SignatureCheck | SintezAGRChecker_v1.1.3/scripts/check_highpoly_lowpoly.py:1466-1468 | PNG data passes the 0x0D0A1A0A test at bytes 4..7 (RFC 2083 section 3.1) |
| Png.ImageSizeDefined | SintezAGRChecker_v1.1.3/scripts/check_highpoly_lowpoly.py:1463-1471 | a size is returned iff there are 24 bytes and they begin with the PNG signature |
| Png.Header | SintezAGRChecker_v1.1.3/scripts/check_highpoly_lowpoly.py:1469 | a header built from a width and height is 24 bytes |
| Png.ImageSizeOfHeader | SintezAGRChecker_v1.1.3/scripts/check_highpoly_lowpoly.py:1458-1472 | the size read from a header built from a width and height is that width and height |
| Png.HasAlphaChannels | SintezAGRChecker_v1.1.3/scripts/check_highpoly_lowpoly.py:1826-1831 | the image has alpha iff it has two or four channels, for 8-bit and float images alike |
| Collision.Last3 | SintezAGRChecker_v1.1.3/scripts/check_highpoly_lowpoly.py:759 | `name[-3:]`: the last three characters, or the whole name when shorter |
| Collision.UnclosedIdx | SintezAGRChecker_v1.1.3/scripts/check_highpoly_lowpoly.py:755-767 | the open proxies are positions of the mesh list |
| Collision.NonConvexIdx | SintezAGRChecker_v1.1.3/scripts/check_highpoly_lowpoly.py:782-784 | the non-convex proxies are positions of the mesh list |
| Collision.ClosureMembers | SintezAGRChecker_v1.1.3/scripts/check_highpoly_lowpoly.py:763-784 | a UCX mesh is listed as open iff V - E + F ≠ 2, and as non-convex iff it is closed and fails the convexity test, so open meshes are never checked for convexity |
| Collision.Labels | SintezAGRChecker_v1.1.3/scripts/check_highpoly_lowpoly.py:766-784 | one label per listed proxy |
| Collision.HeadOrder | SintezAGRChecker_v1.1.3/scripts/check_highpoly_lowpoly.py:788-817 | a non-convex message sorts before an open-geometry one whatever follows the heads |
| Collision.ClosureErrors | SintezAGRChecker_v1.1.3/scripts/check_highpoly_lowpoly.py:786-791 | at most two closure messages, none iff no proxy is open or non-convex |
| Collision.SortTwo | SintezAGRChecker_v1.1.3/scripts/check_highpoly_lowpoly.py:817 | sorting two strings puts the smaller first |
| Collision.ClosureSortOrder | SintezAGRChecker_v1.1.3/scripts/check_highpoly_lowpoly.py:786-817 | with both kinds of defect the sorted error list has the non-convex message first |
| Collision.UcxFlags | SintezAGRChecker_v1.1.3/scripts/check_highpoly_lowpoly.py:797-800 | one flag per mesh: a mesh whose name contains UCX |
| Collision.UcxBefore | SintezAGRChecker_v1.1.3/scripts/check_highpoly_lowpoly.py:796-809 | at most i UCX meshes come before position i |
| Collision.Popped | SintezAGRChecker_v1.1.3/scripts/check_highpoly_lowpoly.py:794-809 | at most i meshes are popped before mesh i is visited |
| Collision.CountAppend | SintezAGRChecker_v1.1.3/scripts/check_highpoly_lowpoly.py:807 | the count of a pair in a concatenation adds up |
| Collision.FoundCount | SintezAGRChecker_v1.1.3/scripts/check_highpoly_lowpoly.py:799-807 | the inner walk for mesh i finds (i, j) once when j is another UCX mesh still in `list2` and the pair overlaps, and otherwise never |
| Collision.ReportedOnce | SintezAGRChecker_v1.1.3/scripts/check_highpoly_lowpoly.py:794-809 | with the pop done for every mesh, every unordered overlapping pair of UCX meshes is reported exactly once, as (i, j) with i < j, and no other pair is |
| Collision.RowCount | SintezAGRChecker_v1.1.3/scripts/check_highpoly_lowpoly.py:796-809 | the row of mesh i adds (i, j) once for each later overlapping UCX mesh j |
| Collision.UcxBeforeAll | SintezAGRChecker_v1.1.3/scripts/check_highpoly_lowpoly.py:796-809 | when every mesh is a UCX mesh, every earlier mesh counts |
| Collision.AllUcxSameWalk | SintezAGRChecker_v1.1.3/scripts/check_highpoly_lowpoly.py:794-809 | when all meshes are UCX meshes, the walk as written reports the same pairs as the intended one, so each unordered pair is checked once |
| Collision.PairReportedTwice | SintezAGRChecker_v1.1.3/scripts/check_highpoly_lowpoly.py:797-809 | as written: a main mesh followed by two overlapping proxies has their overlap reported both ways round; the intended walk reports it once |
| Collision.PairLabels | SintezAGRChecker_v1.1.3/scripts/check_highpoly_lowpoly.py:807 | one label per pair |
| Collision.PairsOf | SintezAGRChecker_v1.1.3/scripts/check_highpoly_lowpoly.py:799-807 | the inner loop over `list2` collects exactly the pairs the walk function describes |
| Collision.Intersections | SintezAGRChecker_v1.1.3/scripts/check_highpoly_lowpoly.py:794-809 | the corrected outer loop (one pop per mesh) yields the labels of every overlapping pair once |
| Collision.InsertInt | SintezAGRChecker_v1.1.3/scripts/check_highpoly_lowpoly.py:818 | insertion keeps the list sorted and adds exactly the new number |
| Collision.SortInts | SintezAGRChecker_v1.1.3/scripts/check_highpoly_lowpoly.py:818 | `list.sort()` on integers: sorted, a permutation of its input |
| Collision.Breaks | SintezAGRChecker_v1.1.3/scripts/check_highpoly_lowpoly.py:821-823 | fewer messages than numbers examined |
| Collision.BreaksClean | SintezAGRChecker_v1.1.3/scripts/check_highpoly_lowpoly.py:821-823 | no message among the first k numbers iff each follows its predecessor by exactly 1 |
| Collision.NumberingClean | SintezAGRChecker_v1.1.3/scripts/check_highpoly_lowpoly.py:819-823 | the numbering check of sorted numbers is clean iff they are exactly 1, 2, ..., n (or none) |
| Collision.ConsecutiveFromOne | SintezAGRChecker_v1.1.3/scripts/check_highpoly_lowpoly.py:819-823 | starting at 1 and stepping by 1 means the i-th number is i + 1 |
| Collision.NumberingCleanSet | SintezAGRChecker_v1.1.3/scripts/check_highpoly_lowpoly.py:817-823 | the check over the sorted proxy numbers is clean iff the proxies carry the numbers 1 to n, each once |
| Collision.SortedIsIdeal | SintezAGRChecker_v1.1.3/scripts/check_highpoly_lowpoly.py:818 | the sorted numbers are 1..n iff the numbers are a permutation of 1..n |
| Collision.SortedPermutationOfIdeal | SintezAGRChecker_v1.1.3/scripts/check_highpoly_lowpoly.py:818 | the only sorted arrangement of 1..n is 1..n itself |
| Collision.ReportBreaks | SintezAGRChecker_v1.1.3/scripts/check_highpoly_lowpoly.py:821-823 | the loop adds one message per number that does not follow its predecessor |
| Collision.ReportNumbering | SintezAGRChecker_v1.1.3/scripts/check_highpoly_lowpoly.py:819-823 | a message for a first number other than 1, then one per gap or repeat, naming the later number |
| Collision.CheckNumbering | SintezAGRChecker_v1.1.3/scripts/check_highpoly_lowpoly.py:818-823 | the numbering messages of the sorted proxy numbers |
| Collision.ScanProxies | SintezAGRChecker_v1.1.3/scripts/check_highpoly_lowpoly.py:755-784 | one scan gives the three-digit proxy numbers and the open and non-convex proxies; it fails exactly when some object named as a proxy is not a mesh object, whose mesh data the source reads without a type test |
| Collision.AddClosureErrors | SintezAGRChecker_v1.1.3/scripts/check_highpoly_lowpoly.py:786-791 | one message for the open proxies and one for the non-convex ones, when there are any; nothing is added when a proxy is not a mesh object |
| Collision.CheckClosure | SintezAGRChecker_v1.1.3/scripts/check_highpoly_lowpoly.py:786-817 | the closure messages, then the whole error list sorted, unless a proxy is not a mesh object |
| Collision.CheckOverlap | SintezAGRChecker_v1.1.3/scripts/check_highpoly_lowpoly.py:810-815 | corrected (see Findings: each overlapping pair listed once): one message for all overlapping pairs: the full count, then the first 15 labels followed by ", и т. д." when there are more than 15 |
| Collision.CheckCollision | SintezAGRChecker_v1.1.3/scripts/check_highpoly_lowpoly.py:736-825 | no reports at all exactly when an object named as a proxy is not a mesh object (the read of its mesh data raises and the exception handler returns an empty list); otherwise the three reports of one fbx file: sorted closure messages, one overlap message (corrected, see Findings: each overlapping pair listed once), and the gaps in the sorted proxy numbers, each failing iff it has a message |
| Walks.WalkEmpty | SintezAGRChecker_v1.1.3/scripts/check_highpoly_lowpoly.py:498-507 | a walk over a file's objects yields no line exactly when no object adds one |
| Walks.WalkHas | SintezAGRChecker_v1.1.3/scripts/check_highpoly_lowpoly.py:498-507 | every line an object adds is among the walk's lines |
| Walks.AddWalk | SintezAGRChecker_v1.1.3/scripts/check_highpoly_lowpoly.py:498-507 | the walk appends each object's lines to the check in object order; the check fails iff some line was added |
| Walks.WalkReport | SintezAGRChecker_v1.1.3/scripts/check_highpoly_lowpoly.py:498-507 | a fresh check of one file receives exactly the walk's lines and passes iff there are none |
| Objects.ForeignLines | SintezAGRChecker_v1.1.3/scripts/check_highpoly_lowpoly.py:500-508 | at most one "extra object" line per object |
| Objects.ParentLines | SintezAGRChecker_v1.1.3/scripts/check_highpoly_lowpoly.py:503-505 | at most one hierarchy line per object, and none in a light file |
| Objects.MeshCount | SintezAGRChecker_v1.1.3/scripts/check_highpoly_lowpoly.py:506-508 | the number of mesh objects is at most the number of objects |
| Objects.RoleCount | SintezAGRChecker_v1.1.3/scripts/check_highpoly_lowpoly.py:509-514 | each role counts only mesh objects |
| Objects.RolesPartition | SintezAGRChecker_v1.1.3/scripts/check_highpoly_lowpoly.py:509-514 | every mesh object is counted under exactly one of UCX, glass and other |
| Objects.RoleCountPositive | SintezAGRChecker_v1.1.3/scripts/check_highpoly_lowpoly.py:509-514 | a role's count is positive iff some mesh object has that role |
| Objects.ForeignLinesCount | SintezAGRChecker_v1.1.3/scripts/check_highpoly_lowpoly.py:506-508 | in an ordinary file the kind check receives one line per object that is not a mesh, none iff all are meshes |
| Objects.CountRoles | SintezAGRChecker_v1.1.3/scripts/check_highpoly_lowpoly.py:494-514 | the three counters of the walk are the role counts |
| Objects.AddForeignLines | SintezAGRChecker_v1.1.3/scripts/check_highpoly_lowpoly.py:500-508 | the walk adds the extra-object lines to the kind check |
| Objects.AddParentLines | SintezAGRChecker_v1.1.3/scripts/check_highpoly_lowpoly.py:503-505 | the walk adds the hierarchy lines to the hierarchy check |
| Objects.ExtrasLines | SintezAGRChecker_v1.1.3/scripts/check_highpoly_lowpoly.py:527-530 | no animation or camera line iff neither count is positive |
| Objects.KindsReport | SintezAGRChecker_v1.1.3/scripts/check_highpoly_lowpoly.py:476-530 | the kind check (2.3.1а) holds the extra-object lines, then the animation and camera lines, and passes iff there are none |
| Objects.HierarchyReport | SintezAGRChecker_v1.1.3/scripts/check_highpoly_lowpoly.py:480-505 | the hierarchy check (2.3.10) holds one line per parented object of an ordinary file |
| Objects.CollisionReport | SintezAGRChecker_v1.1.3/scripts/check_highpoly_lowpoly.py:483-521 | the collision-geometry check (2.13.3) passes iff the file is a light file or has a UCX mesh; otherwise its one line is "no collision geometry found" |
| Objects.MainReport | SintezAGRChecker_v1.1.3/scripts/check_highpoly_lowpoly.py:486-523 | the main-geometry check (2.3.7) passes iff the file is a light file or has exactly one other mesh; otherwise its one line carries the number of such meshes |
| Objects.GlazingReport | SintezAGRChecker_v1.1.3/scripts/check_highpoly_lowpoly.py:489-525 | the glazing check (2.8.1) passes iff there is at most one glass mesh; otherwise its one line names the file and the number of glass meshes |
| Objects.CollectionsLines | SintezAGRChecker_v1.1.3/scripts/check_highpoly_lowpoly.py:531-532 | at most one line, none iff there is at most one collection |
| Objects.CollectionsReport | SintezAGRChecker_v1.1.3/scripts/check_highpoly_lowpoly.py:478-532 | the collections check (2.3.3) passes iff there is at most one collection |
| Objects.CheckHpObjects | SintezAGRChecker_v1.1.3/scripts/check_highpoly_lowpoly.py:473-534 | the six reports of one high-poly file in creation order, with ids 2.3.1а, 2.3.3, 2.3.10, 2.13.3, 2.3.7, 2.8.1, each about that file and failing iff it has lines, with the exact lines of every report in terms of the role counts |
| Objects.RoleReports | SintezAGRChecker_v1.1.3/scripts/check_highpoly_lowpoly.py:483-525 | the collision, main-geometry and glazing reports with their exact lines in terms of the role counts; a light file counts no roles |
| Objects.ProvidedIff | SintezAGRChecker_v1.1.3/scripts/check_highpoly_lowpoly.py:1226-1233 | a required mesh counts as provided iff some object's name selects it, by the first test the lower-cased name passes |
| Objects.Missing | SintezAGRChecker_v1.1.3/scripts/check_highpoly_lowpoly.py:1225-1233 | at most three meshes are missing |
| Objects.Remove | SintezAGRChecker_v1.1.3/scripts/check_highpoly_lowpoly.py:1229-1233 | `list.remove` of a present item shortens the list by one; an absent item is not removed |
| Objects.MissingMeshes | SintezAGRChecker_v1.1.3/scripts/check_highpoly_lowpoly.py:1225-1233 | the list shrunk object by object is the required meshes no object provides, in the order Ground, GroundEl, Flora |
| Objects.MissingLines | SintezAGRChecker_v1.1.3/scripts/check_highpoly_lowpoly.py:1234-1235 | one "missing mesh" line per missing mesh, naming it |
| Objects.LandscapeReport | SintezAGRChecker_v1.1.3/scripts/check_highpoly_lowpoly.py:1220-1235 | the landscaping-composition check (2.1.4) lists the missing meshes of a landscaping file and nothing otherwise |
| Objects.LpKindsReport | SintezAGRChecker_v1.1.3/scripts/check_highpoly_lowpoly.py:1215-1248 | the extra-objects check (2.1.3) lists non-meshes, animations, cameras and collections beyond the first |
| Objects.LpHierarchyReport | SintezAGRChecker_v1.1.3/scripts/check_highpoly_lowpoly.py:1217-1241 | the hierarchy check (2.3.5) lists one line per parented object |
| Objects.LpFileOf | SintezAGRChecker_v1.1.3/scripts/check_highpoly_lowpoly.py:1214-1248 | the three reports of a low-poly file: kinds (2.1.3) lists non-meshes, animations, cameras and collections beyond the first, hierarchy (2.3.5) one line per parented object, landscaping (2.1.4) the missing meshes of a landscaping file; each about that file and failing iff it has lines |
| Objects.Flatten | SintezAGRChecker_v1.1.3/scripts/check_highpoly_lowpoly.py:1214-1221 | three reports per file, in the order kinds, hierarchy, landscaping |
| Objects.CountTruePositive | SintezAGRChecker_v1.1.3/scripts/check_highpoly_lowpoly.py:1223-1250 | some file is a landscaping file iff the count is positive |
| Objects.LpFileChecks | SintezAGRChecker_v1.1.3/scripts/check_highpoly_lowpoly.py:1214-1248 | the three reports of one low-poly file are LpFileOf of that file |
| Objects.LpFilesReports | SintezAGRChecker_v1.1.3/scripts/check_highpoly_lowpoly.py:1214-1248 | report triple k is LpFileOf of file k with its landscaping flag, and the number of landscaping files is counted |
| Objects.FileSetReports | SintezAGRChecker_v1.1.3/scripts/check_highpoly_lowpoly.py:1200-1255 | the three file-set checks fail exactly on too many files, no landscaping file and several landscaping files, each with its one line |
| Objects.CheckLpObjects | SintezAGRChecker_v1.1.3/scripts/check_highpoly_lowpoly.py:1200-1255 | the low-poly rule: the file-count check fails iff there are more than 21 files, the landscaping check iff there is no ground file, the single-landscaping check iff there are several, each with its exact line; then file i's three reports are LpFileOf of file i |
| Materials.SocketLines | SintezAGRChecker_v1.1.3/scripts/check_highpoly_lowpoly.py:673-675 | a material adds at most one line per shader input |
| Materials.SocketLinesEmpty | SintezAGRChecker_v1.1.3/scripts/check_highpoly_lowpoly.py:673-675 | a material's inputs add no line exactly when every linked input is the Normal input |
| Materials.UvLayersRule | SintezAGRChecker_v1.1.3/scripts/check_highpoly_lowpoly.py:640-652 | an object adds no UV line exactly when it is not a mesh, is a collision mesh, or has exactly one UV layout |
| Materials.MaterialCountRule | SintezAGRChecker_v1.1.3/scripts/check_highpoly_lowpoly.py:654-667 | a plain mesh (neither glazing nor collision) adds no count line exactly when it has one material, and never lines to both count checks |
| Materials.CountChecksExclusive | SintezAGRChecker_v1.1.3/scripts/check_highpoly_lowpoly.py:654-667 | a glazing line excludes the plain count lines, and a collision mesh outside glazing adds none of them |
| Materials.UvCheckPasses | SintezAGRChecker_v1.1.3/scripts/check_highpoly_lowpoly.py:640-652 | a file passes the UV check exactly when every mesh except collision meshes has one UV layout |
| Materials.CountChecksPass | SintezAGRChecker_v1.1.3/scripts/check_highpoly_lowpoly.py:654-667 | a file passes both plain count checks exactly when every mesh other than glazing and collision has exactly one material |
| Materials.MaterialLinksPass | SintezAGRChecker_v1.1.3/scripts/check_highpoly_lowpoly.py:669-675 | a material adds no link line exactly when its Principled BSDF node, if any, links no input but Normal |
| Materials.ObjectLinksPass | SintezAGRChecker_v1.1.3/scripts/check_highpoly_lowpoly.py:669-675 | an object adds no link line exactly when it is not a mesh or every material's links are clean |
| Materials.LinkCheckPasses | SintezAGRChecker_v1.1.3/scripts/check_highpoly_lowpoly.py:669-675 | a file passes the link check exactly when every mesh material's links are clean |
| Materials.TextureCheckPasses | SintezAGRChecker_v1.1.3/scripts/check_highpoly_lowpoly.py:669-682 | a file passes the texture check exactly when no mesh material with a Principled BSDF node holds an Image Texture node |
| Materials.Tally | SintezAGRChecker_v1.1.3/scripts/check_highpoly_lowpoly.py:638-659 | a collision counter never exceeds the number of objects |
| Materials.TallyPositive | SintezAGRChecker_v1.1.3/scripts/check_highpoly_lowpoly.py:638-659 | a collision counter is positive exactly when some collision mesh has a UV layout (resp. a material outside glazing) |
| Materials.CountCollisions | SintezAGRChecker_v1.1.3/scripts/check_highpoly_lowpoly.py:638-659 | the loop's two counters equal the collision tallies |
| Materials.CollisionLines | SintezAGRChecker_v1.1.3/scripts/check_highpoly_lowpoly.py:684-688 | a collision summary line is written exactly when its counter is non-zero |
| Materials.CollisionReports | SintezAGRChecker_v1.1.3/scripts/check_highpoly_lowpoly.py:621-628 | the two collision reports carry requirements 2.5.2.2.6 and 2.13.7, belong to the file and hold the count line exactly when the count is positive (see also lines 684-688) |
| Materials.CheckHpMaterials | SintezAGRChecker_v1.1.3/scripts/check_highpoly_lowpoly.py:618-690 | the eight reports of a file carry their requirement numbers and each receives exactly its rule's lines |
| Materials.Sizes | SintezAGRChecker_v1.1.3/scripts/check_highpoly_lowpoly.py:1294-1300 | the widths gathered from a material's Image Texture nodes are no more than its nodes |
| Materials.SizesHas | SintezAGRChecker_v1.1.3/scripts/check_highpoly_lowpoly.py:1294-1300 | a width is gathered exactly when some node holds an image of that width |
| Materials.SizesAll | SintezAGRChecker_v1.1.3/scripts/check_highpoly_lowpoly.py:1294-1300 | with every node holding an image, the widths are the images' widths in node order |
| Materials.SizesEmpty | SintezAGRChecker_v1.1.3/scripts/check_highpoly_lowpoly.py:1305-1306 | no width is gathered exactly when no node holds an image |
| Materials.UniformIff | SintezAGRChecker_v1.1.3/scripts/check_highpoly_lowpoly.py:1301-1302 | the widths are uniform exactly when any two loaded images have one width |
| Materials.MixedSizeCheckPasses | SintezAGRChecker_v1.1.3/scripts/check_highpoly_lowpoly.py:1292-1302 | a file passes the size check exactly when every mesh material's loaded images share one width |
| Materials.LpCountRule | SintezAGRChecker_v1.1.3/scripts/check_highpoly_lowpoly.py:1283-1290 | a mesh gets at most one material-count line, and none exactly when it is within its kind's limit (20 landscaping, 7 glazing, else 1) |
| Materials.LargeImageIff | SintezAGRChecker_v1.1.3/scripts/check_highpoly_lowpoly.py:1303-1304 | a material counts as large exactly when some loaded image is wider than 512 pixels |
| Materials.ObjectLargeTexturePasses | SintezAGRChecker_v1.1.3/scripts/check_highpoly_lowpoly.py:1303-1304 | a landscaping element adds no line exactly when none of its materials is large |
| Materials.LargeTextureCheckPasses | SintezAGRChecker_v1.1.3/scripts/check_highpoly_lowpoly.py:1303-1304 | a file passes the landscaping-element check exactly when no such mesh has an image wider than 512 pixels |
| Materials.GlassTextureCheckPasses | SintezAGRChecker_v1.1.3/scripts/check_highpoly_lowpoly.py:1305-1306 | a file passes the glazing-texture check exactly when no glazing mesh material holds a loaded image |
| Materials.FloraMaterialPasses | SintezAGRChecker_v1.1.3/scripts/check_highpoly_lowpoly.py:1307-1324 | a flora material with a full shader node passes exactly when its base colour is linked to a loaded image and metallic and roughness are unlinked |
| Materials.FloraDiffuseReported | SintezAGRChecker_v1.1.3/scripts/check_highpoly_lowpoly.py:1318-1324 | the missing-diffuse line is written exactly when the base colour is unlinked or fed by an image-less node |
| Materials.LpFileMaterials | SintezAGRChecker_v1.1.3/scripts/check_highpoly_lowpoly.py:1260-1324 | the seven reports of one low-poly file are the ones the rule describes |
| Materials.CheckLpMaterials | SintezAGRChecker_v1.1.3/scripts/check_highpoly_lowpoly.py:1258-1326 | the rule returns every file's seven reports in file order, or nothing once any material faults |
| Materials.StrictFaultsMore | SintezAGRChecker_v1.1.3/scripts/check_highpoly_lowpoly.py:1296-1300 | the rule as written faults wherever the corrected rule does |
| Materials.StrictAgrees | SintezAGRChecker_v1.1.3/scripts/check_highpoly_lowpoly.py:1296-1300 | with no image-less Image Texture node, the rule as written and the corrected rule give the same reports |
| Materials.EmptyDiffuseLost | SintezAGRChecker_v1.1.3/scripts/check_highpoly_lowpoly.py:1296-1324 | as written, a flora material whose diffuse comes from an image-less node makes the whole rule report nothing |
| Materials.EmptyDiffuseReported | SintezAGRChecker_v1.1.3/scripts/check_highpoly_lowpoly.py:1318-1324 | corrected, that material's missing-diffuse line is in the flora report, which is in the rule's result |
| Materials.EmptyDiffuseFileIsFlora | SintezAGRChecker_v1.1.3/scripts/check_highpoly_lowpoly.py:1307 | the example file's mesh is named as flora |
| Materials.EmptyDiffuseFileSound | SintezAGRChecker_v1.1.3/scripts/check_highpoly_lowpoly.py:1307-1311 | the example file has no material that faults under the corrected rule |
| Materials.EmptyDiffuseExample | SintezAGRChecker_v1.1.3/scripts/check_highpoly_lowpoly.py:1296-1324 | for the example file the rule as written reports nothing, while the corrected rule reports "Leaves" as missing its diffuse map |
| Lights.Lamps | SintezAGRChecker_v1.1.3/scripts/check_highpoly_lowpoly.py:710-723 | the lamp count never exceeds the number of objects |
| Lights.LampsAll | SintezAGRChecker_v1.1.3/scripts/check_highpoly_lowpoly.py:710-723 | the lamp count equals the number of objects exactly when every object is a lamp |
| Lights.CountLamps | SintezAGRChecker_v1.1.3/scripts/check_highpoly_lowpoly.py:710-723 | the loop counts exactly the lamps |
| Lights.HierarchyReport | SintezAGRChecker_v1.1.3/scripts/check_highpoly_lowpoly.py:711-721 | the hierarchy report holds one line per misplaced root or lamp and fails when there is a line or an object that is neither an Empty nor a lamp |
| Lights.HierarchyPasses | SintezAGRChecker_v1.1.3/scripts/check_highpoly_lowpoly.py:711-721 | a lighting file passes the hierarchy check exactly when every object is a parentless Empty or a lamp with a parent |
| Lights.TypeCheckPasses | SintezAGRChecker_v1.1.3/scripts/check_highpoly_lowpoly.py:728-729 | a lighting file passes the type check exactly when every lamp is a point or spot lamp |
| Lights.DistanceCheckPasses | SintezAGRChecker_v1.1.3/scripts/check_highpoly_lowpoly.py:725-726 | a lighting file passes the distance check exactly when no lamp uses a custom distance |
| Lights.CheckLights | SintezAGRChecker_v1.1.3/scripts/check_highpoly_lowpoly.py:693-733 | the four reports carry 2.15.9, 2.15.6, 2.15.8 and 2.15.3; a file without "Light" in its name passes all four; otherwise each holds its rule's lines and the count fails exactly above 50 lamps |
| GeoJsonProperties.Column | SintezAGRChecker_v1.1.3/scripts/check_highpoly_lowpoly.py:884-889 | a code of 3, 6 or 9 digits selects classifier column 1, 3 or 5, and the column determines the code length back |
| GeoJsonProperties.RowLines | SintezAGRChecker_v1.1.3/scripts/check_highpoly_lowpoly.py:891-896 | the classifier scan writes at most one mismatch line per row |
| GeoJsonProperties.RowLinesClean | SintezAGRChecker_v1.1.3/scripts/check_highpoly_lowpoly.py:891-896 | the scan writes no mismatch line exactly when every row holding the code carries the feature's name (spaces ignored) |
| GeoJsonProperties.ScanRows | SintezAGRChecker_v1.1.3/scripts/check_highpoly_lowpoly.py:890-898 | the loop's lines are the mismatch lines and its flag says whether some row holds the code |
| GeoJsonProperties.Missing | SintezAGRChecker_v1.1.3/scripts/check_highpoly_lowpoly.py:900-905 | the missing properties are no more than the required ones |
| GeoJsonProperties.MissingExact | SintezAGRChecker_v1.1.3/scripts/check_highpoly_lowpoly.py:900-905 | a property is reported missing exactly when it is required and absent from the feature |
| GeoJsonProperties.MissingNone | SintezAGRChecker_v1.1.3/scripts/check_highpoly_lowpoly.py:900-905 | nothing is missing exactly when every required property is present |
| GeoJsonProperties.MissingLines | SintezAGRChecker_v1.1.3/scripts/check_highpoly_lowpoly.py:906-907 | one "property not found" line per missing property, in order |
| GeoJsonProperties.MissingProperties | SintezAGRChecker_v1.1.3/scripts/check_highpoly_lowpoly.py:900-905 | the removal loop leaves exactly the missing properties in their declared order |
| GeoJsonProperties.BuildingClean | SintezAGRChecker_v1.1.3/scripts/check_highpoly_lowpoly.py:880-907 | a building file's report is clean exactly when the classifier holds its code, always under its name, and no required property is missing |
| GeoJsonProperties.CheckBuilding | SintezAGRChecker_v1.1.3/scripts/check_highpoly_lowpoly.py:880-907 | a building file's report receives the mismatch lines, the not-found line and the missing-property lines, in that order |
| GeoJsonProperties.Single | SintezAGRChecker_v1.1.3/scripts/check_highpoly_lowpoly.py:866-877 | a one-line report fails exactly when its condition holds |
| GeoJsonProperties.CheckDocument | SintezAGRChecker_v1.1.3/scripts/check_highpoly_lowpoly.py:870-907 | a readable geojson is treated as the rule says: landscaping needs code "000", a malformed code ends the rule, a short classifier row or a missing field raises |
| GeoJsonProperties.CheckFile | SintezAGRChecker_v1.1.3/scripts/check_highpoly_lowpoly.py:860-907 | one file's treatment, including an unreadable geojson |
| GeoJsonProperties.UnreadablePassesForLights | SintezAGRChecker_v1.1.3/scripts/check_highpoly_lowpoly.py:864-868 | a file without readable geojson goes on to the next file and passes exactly when it is a lighting file |
| GeoJsonProperties.StopEnds | SintezAGRChecker_v1.1.3/scripts/check_highpoly_lowpoly.py:885-887 | a malformed code ends the rule: the result holds the reports up to and including that file and none after it |
| GeoJsonProperties.CheckJsonProperties | SintezAGRChecker_v1.1.3/scripts/check_highpoly_lowpoly.py:855-908 | the rule returns one report per file in order, stops after a malformed code, and returns nothing once any file raises |
| Polycount.NonTriangles | SintezAGRChecker_v1.1.3/scripts/check_highpoly_lowpoly.py:1602-1612 | the non-triangle polygons are no more than the polygons |
| Polycount.Bump | SintezAGRChecker_v1.1.3/scripts/check_highpoly_lowpoly.py:1608-1611 | counting one non-triangle adds at most one entry to the per-object tally; a new object's entry is appended at the end, as the dict insertion does (order stated by BumpNames) |
| Polycount.IncLookup | SintezAGRChecker_v1.1.3/scripts/check_highpoly_lowpoly.py:1610-1611 | `+= 1` on an existing entry raises that object's count by one and no other |
| Polycount.BumpNames | SintezAGRChecker_v1.1.3/scripts/check_highpoly_lowpoly.py:1608-1611 | counting a known object keeps the tally's names in place; counting a new one appends its name at the end |
| Polycount.BumpsNames | SintezAGRChecker_v1.1.3/scripts/check_highpoly_lowpoly.py:1606-1611 | counting k > 0 non-triangles of one mesh appends its name once if it is new, and afterwards the name has an entry |
| Polycount.BumpLookup | SintezAGRChecker_v1.1.3/scripts/check_highpoly_lowpoly.py:1608-1611 | counting one non-triangle raises exactly that object's count by one |
| Polycount.BumpsLookup | SintezAGRChecker_v1.1.3/scripts/check_highpoly_lowpoly.py:1602-1611 | counting k non-triangles raises exactly that object's count by k |
| Polycount.BumpKeys | SintezAGRChecker_v1.1.3/scripts/check_highpoly_lowpoly.py:1608-1611 | after counting, the tally has an entry for an object exactly when it had one or it is the counted object |
| Polycount.BumpDistinct | SintezAGRChecker_v1.1.3/scripts/check_highpoly_lowpoly.py:1608-1611 | counting keeps the tally's object names distinct |
| Polycount.BumpsDistinct | SintezAGRChecker_v1.1.3/scripts/check_highpoly_lowpoly.py:1602-1611 | counting several keeps the tally's object names distinct |
| Polycount.BumpsGrow | SintezAGRChecker_v1.1.3/scripts/check_highpoly_lowpoly.py:1602-1611 | counting never removes an entry, and a positive count leaves an entry |
| Polycount.TallyCounts | SintezAGRChecker_v1.1.3/scripts/check_highpoly_lowpoly.py:1598-1612 | the tally's count for an object name is the number of non-triangles of the meshes of that name |
| Polycount.TallyOrder | SintezAGRChecker_v1.1.3/scripts/check_highpoly_lowpoly.py:1597-1612 | the tally names exactly the meshes with a non-triangle, each once, in the order of each name's first such mesh (the reference order `FirstSeen`, defined on the meshes alone), which is the dict order the report prints at lines 1628-1630 |
| Polycount.TallyOrderExample | SintezAGRChecker_v1.1.3/scripts/check_highpoly_lowpoly.py:1606-1611 | meshes a then b with one quad each give the tally a: 1 then b: 1 |
| Polycount.TallyDistinct | SintezAGRChecker_v1.1.3/scripts/check_highpoly_lowpoly.py:1597-1612 | the tally names each object once, like the dictionary it models |
| Polycount.CountObject | SintezAGRChecker_v1.1.3/scripts/check_highpoly_lowpoly.py:1599-1612 | one mesh adds its polygons to the collision or the plain count and its non-triangles to its tally entry |
| Polycount.CountPolygons | SintezAGRChecker_v1.1.3/scripts/check_highpoly_lowpoly.py:1592-1612 | the loop's plain and collision polygon counts and its tally are those of all meshes |
| Polycount.BudgetLines | SintezAGRChecker_v1.1.3/scripts/check_highpoly_lowpoly.py:1617-1618 | the budget line is written exactly when the plain polygons exceed the budget |
| Polycount.TriangulationLines | SintezAGRChecker_v1.1.3/scripts/check_highpoly_lowpoly.py:1628-1630 | one triangulation line per tally entry, in tally order (the first-seen order of TallyOrder) |
| Polycount.TriangulationPasses | SintezAGRChecker_v1.1.3/scripts/check_highpoly_lowpoly.py:1628-1630 | triangulation passes exactly when no mesh has a polygon of more than three vertices |
| Polycount.CapLines | SintezAGRChecker_v1.1.3/scripts/check_highpoly_lowpoly.py:1620-1626 | corrected: the absolute-cap line is written exactly for a file under 50000 polygons with more than 15000 collision polygons, the ratio line exactly for a larger file with more than 5 % |
| Polycount.CollisionLineCount | SintezAGRChecker_v1.1.3/scripts/check_highpoly_lowpoly.py:1623-1626 | the number shown on a collision line reads back: different numbers give different lines |
| Polycount.CapLineShowsPolycount | SintezAGRChecker_v1.1.3/scripts/check_highpoly_lowpoly.py:1621-1623 | as written, a failing absolute-cap line shows the plain polygon count, so it differs from the corrected line whenever the two counts differ |
| Polycount.RatioLineShowsPolycount | SintezAGRChecker_v1.1.3/scripts/check_highpoly_lowpoly.py:1624-1626 | as written, a failing 5 % ratio line also shows the plain polygon count against the rounded cap, so it differs from the corrected line whenever the two counts differ |
| Polycount.CapLinesShowCollisions | SintezAGRChecker_v1.1.3/scripts/check_highpoly_lowpoly.py:1620-1626 | corrected: any count read off either cap line is the collision polygon count |
| Polycount.CountedReport | SintezAGRChecker_v1.1.3/scripts/check_highpoly_lowpoly.py:1614-1615 | a polygon report counts the file's polygons and fails exactly when it has lines |
| Polycount.CheckHpPolycount | SintezAGRChecker_v1.1.3/scripts/check_highpoly_lowpoly.py:1591-1630 | corrected (see Findings: both collision-cap lines, the absolute one and the 5 % ratio one, show the collision count): the four high-poly reports carry 2.3.12, 2.13.10, 2.13.11, 2.3.19, the budget is two million, and each fails exactly when its lines are non-empty (see also lines 213-225) |
| Polycount.CheckLpPolycount | SintezAGRChecker_v1.1.3/scripts/check_highpoly_lowpoly.py:1591-1630 | the two low-poly reports carry 2.3.6 and 2.3.12, and the budget fails exactly above 180000 polygons for landscaping or 150000 otherwise (see also lines 1141-1154) |
| Transforms.Prefix3 | SintezAGRChecker_v1.1.3/scripts/check_highpoly_lowpoly.py:1562-1567 | the group key is the name's first three characters, or the whole of a shorter name |
| Transforms.Checked | SintezAGRChecker_v1.1.3/scripts/check_highpoly_lowpoly.py:1557-1559 | the checked count never exceeds the number of objects |
| Transforms.PoseEntryKey | SintezAGRChecker_v1.1.3/scripts/check_highpoly_lowpoly.py:1562-1567 | every entry of an object carries its name and its three-letter key |
| Transforms.PoseFails | SintezAGRChecker_v1.1.3/scripts/check_highpoly_lowpoly.py:1557-1567 | an object yields an entry exactly when it is not a spot or omni lamp and is offset (unless location is ignored), rotated or scaled |
| Transforms.PoseErrors | SintezAGRChecker_v1.1.3/scripts/check_highpoly_lowpoly.py:1561-1567 | the entries of one object, location before rotation before scale |
| Transforms.Collect | SintezAGRChecker_v1.1.3/scripts/check_highpoly_lowpoly.py:1556-1567 | the loop gathers every object's entries in order and counts the objects checked |
| Transforms.StrLtLe | SintezAGRChecker_v1.1.3/scripts/check_highpoly_lowpoly.py:1569 | the ordering of keys is transitive |
| Transforms.InsertEntry | SintezAGRChecker_v1.1.3/scripts/check_highpoly_lowpoly.py:1569 | inserting into a key-sorted list keeps it sorted and adds exactly the entry |
| Transforms.SortByKey | SintezAGRChecker_v1.1.3/scripts/check_highpoly_lowpoly.py:1569 | the sort yields a key-sorted permutation of the entries |
| Transforms.SortedPairs | SintezAGRChecker_v1.1.3/scripts/check_highpoly_lowpoly.py:1569 | in a sorted list every earlier key is at most every later key |
| Transforms.OfKeyAppend | SintezAGRChecker_v1.1.3/scripts/check_highpoly_lowpoly.py:1569 | the entries of one key in a concatenation are those of each part in turn |
| Transforms.OfKeyAbove | SintezAGRChecker_v1.1.3/scripts/check_highpoly_lowpoly.py:1569 | a sorted list starting above a key holds no entry of it |
| Transforms.InsertOfKey | SintezAGRChecker_v1.1.3/scripts/check_highpoly_lowpoly.py:1569 | insertion keeps the entries of every key in their order, adding the new one last |
| Transforms.SortStable | SintezAGRChecker_v1.1.3/scripts/check_highpoly_lowpoly.py:1569 | the sort is stable: the entries of each key keep their original order |
| Transforms.Run | SintezAGRChecker_v1.1.3/scripts/check_highpoly_lowpoly.py:1571 | a group is no longer than the rest of the list |
| Transforms.RunKeys | SintezAGRChecker_v1.1.3/scripts/check_highpoly_lowpoly.py:1571 | every entry of a group has the group's key |
| Transforms.RunExact | SintezAGRChecker_v1.1.3/scripts/check_highpoly_lowpoly.py:1571 | a group is exactly the maximal prefix sharing its key |
| Transforms.RunLength | SintezAGRChecker_v1.1.3/scripts/check_highpoly_lowpoly.py:1571 | the loop measures the group starting at an index, which has at least one entry |
| Transforms.Lines | SintezAGRChecker_v1.1.3/scripts/check_highpoly_lowpoly.py:1578-1579 | one line per entry |
| Transforms.LinesAt | SintezAGRChecker_v1.1.3/scripts/check_highpoly_lowpoly.py:1578-1579 | each line shows its own entry |
| Transforms.LinesAppend | SintezAGRChecker_v1.1.3/scripts/check_highpoly_lowpoly.py:1578-1579 | the lines of a concatenation are those of each part in turn |
| Transforms.GroupedStep | SintezAGRChecker_v1.1.3/scripts/check_highpoly_lowpoly.py:1571-1579 | the lines of the list are the first group's lines followed by the rest's |
| Transforms.Regroup | SintezAGRChecker_v1.1.3/scripts/check_highpoly_lowpoly.py:1571-1579 | regrouping of line lists keeps their concatenation |
| Transforms.Grouped | SintezAGRChecker_v1.1.3/scripts/check_highpoly_lowpoly.py:1571-1579 | the loop over the groups writes exactly the grouped lines |
| Transforms.GroupedEmpty | SintezAGRChecker_v1.1.3/scripts/check_highpoly_lowpoly.py:1571-1579 | there are no lines exactly when there are no entries |
| Transforms.GroupedAll | SintezAGRChecker_v1.1.3/scripts/check_highpoly_lowpoly.py:1577-1579 | without collision keys every entry gets its own line, in order |
| Transforms.GroupedHas | SintezAGRChecker_v1.1.3/scripts/check_highpoly_lowpoly.py:1577-1579 | an entry outside a collision group appears as its own line |
| Transforms.CollisionGroup | SintezAGRChecker_v1.1.3/scripts/check_highpoly_lowpoly.py:1572-1576 | a collision group is shown as its first line, "..." and its last line |
| Transforms.LoneCollision | SintezAGRChecker_v1.1.3/scripts/check_highpoly_lowpoly.py:1572-1576 | a collision group of one entry shows that entry's line twice around "..." |
| Transforms.TransformReport | SintezAGRChecker_v1.1.3/scripts/check_highpoly_lowpoly.py:1554-1579 | the report holds the grouped lines of the sorted entries, counts the checked objects and fails exactly when there are lines |
| Transforms.TransformsPass | SintezAGRChecker_v1.1.3/scripts/check_highpoly_lowpoly.py:1554-1579 | the report is clean exactly when every checked object is unmoved (or location is ignored), unrotated and unscaled |
| Transforms.TransformListed | SintezAGRChecker_v1.1.3/scripts/check_highpoly_lowpoly.py:1569-1579 | every failing test of an object outside a collision group shows up as a line |
| Transforms.LocationLines | SintezAGRChecker_v1.1.3/scripts/check_highpoly_lowpoly.py:207-209 | the copied lines are lines of the report that mention "Location" |
| Transforms.CopyLocations | SintezAGRChecker_v1.1.3/scripts/check_highpoly_lowpoly.py:207-209 | the loop copies exactly the lines that mention "Location", in order |
| Transforms.CheckHpTransforms | SintezAGRChecker_v1.1.3/scripts/check_highpoly_lowpoly.py:199-210 | the high-poly reports carry 2.3.21 and 2.9.3; the first holds all transform lines, the second only the location lines |
| Transforms.CheckLpTransforms | SintezAGRChecker_v1.1.3/scripts/check_highpoly_lowpoly.py:1132-1138 | the low-poly report carries 2.3.16 and ignores location |
| Transforms.NoLocationEntries | SintezAGRChecker_v1.1.3/scripts/check_highpoly_lowpoly.py:1561 | when location is ignored no entry is a location entry |
| ColorAttributes.Quota | SintezAGRChecker_v1.1.3/scripts/check_highpoly_lowpoly.py:1898-1899 | the kept collision names are the first five, all of them when there are at most five |
| ColorAttributes.CheckColorAttributes | SintezAGRChecker_v1.1.3/scripts/check_highpoly_lowpoly.py:1887-1906 | a file's report holds the plain names, then the kept collision names, then "и т. д." as the flag chooses, and fails exactly when there is a line |
| ColorAttributes.ColorCheckPasses | SintezAGRChecker_v1.1.3/scripts/check_highpoly_lowpoly.py:1893-1905 | a file passes exactly when no mesh carries a colour attribute |
| ColorAttributes.PlainListed | SintezAGRChecker_v1.1.3/scripts/check_highpoly_lowpoly.py:1900-1901 | every offending mesh outside collision meshes is listed by name |
| ColorAttributes.EtcWhenCut | SintezAGRChecker_v1.1.3/scripts/check_highpoly_lowpoly.py:1898-1905 | corrected: "и т. д." is added exactly when collision names were dropped, and with five or fewer all of them are listed |
| ColorAttributes.EtcAtFive | SintezAGRChecker_v1.1.3/scripts/check_highpoly_lowpoly.py:1904-1905 | as written, exactly five offending collision meshes are all listed and still followed by "и т. д.", which the corrected list omits |
| Report.UncheckedFlat | SintezAGRChecker_v1.1.3/scripts/check_report.py:16-22 | the unchecked numbers are those of the undefined items, category after category |
| Report.UndefinedInAppend | SintezAGRChecker_v1.1.3/scripts/check_report.py:16-22 | the undefined numbers of two item lists are those of each in turn |
| Report.FailedCount | SintezAGRChecker_v1.1.3/scripts/check_report.py:70-76 | the failed items are no more than the items |
| Report.FailedNums | SintezAGRChecker_v1.1.3/scripts/check_report.py:70-76 | one number per failed item |
| Report.Filled | SintezAGRChecker_v1.1.3/scripts/check_report.py:77-79 | a failed item with an empty description takes the requirement's description; every other item is unchanged |
| Report.TierStep | SintezAGRChecker_v1.1.3/scripts/check_report.py:71-92 | one more item extends both texts by its block and the error counter by one exactly when it failed |
| Report.AddItems | SintezAGRChecker_v1.1.3/scripts/check_report.py:72-92 | the item loop continues both texts and the counter as the tier's texts say |
| Report.TierTexts | SintezAGRChecker_v1.1.3/scripts/check_report.py:70-92 | the category loop writes exactly the tier's two texts |
| Report.FilledKeepsUnchecked | SintezAGRChecker_v1.1.3/scripts/check_report.py:44-78 | filling descriptions leaves the unchecked numbers unchanged |
| Report.MapUndefined | SintezAGRChecker_v1.1.3/scripts/check_report.py:77-78 | filling descriptions leaves the undefined numbers of an item list unchanged |
| Report.Percent | SintezAGRChecker_v1.1.3/scripts/check_report.py:41-42 | the shown percentage is within half a point of 100 times the overall ratio (computed exactly; ties going to even, where the source's float decides, see Left out), and 0 before any recount |
| Report.PercentRange | SintezAGRChecker_v1.1.3/scripts/check_report.py:41-50 | a ratio of true items to all items shows as 0 to 100 percent, 100 when all are true and 0 when none is |
| Report.WithPercents | SintezAGRChecker_v1.1.3/scripts/check_report.py:40-50 | the head's two percentages are the rounded overall ratios of the low-poly and high-poly checklists, and nothing else of the head changes |
| Report.GenerateReport | SintezAGRChecker_v1.1.3/scripts/check_report.py:24-93 | both texts are the report of the two checklists after filling descriptions, with each model's percentage computed from its checklist's overall ratio as it was before the call; the checklists change only by that filling |
| Report.LoadLinesNone | SintezAGRChecker_v1.1.3/scripts/check_report.py:309-319 | once a line has raised, no later line changes the outcome |
| Report.LoadLinesAppend | SintezAGRChecker_v1.1.3/scripts/check_report.py:309-319 | reading two parts one after the other is reading their concatenation |
| Report.ReadReport | SintezAGRChecker_v1.1.3/scripts/check_report.py:308-319 | the reading loop gives the reading of the whole text and, when nothing raises, a copy of it |
| Report.AfterLoad | SintezAGRChecker_v1.1.3/scripts/check_report.py:325-334 | a loaded report that assigns some item's flag leaves the new states recounted by `update_checklist`; one that assigns none leaves the checklist as it was |
| Report.LoadReport | SintezAGRChecker_v1.1.3/scripts/check_report.py:296-334 | only a ".txt" path is read; when reading succeeds each listed failed number becomes failed and every other item not listed as unchecked becomes verified, and each checklist whose flags were assigned is recounted by `update_checklist` (AfterLoad); otherwise nothing changes |
| ReportRoundTrip.RunAppend | SintezAGRChecker_v1.1.3/scripts/check_report.py:309-319 | reading a text in two line-aligned parts is reading the first then the second |
| ReportRoundTrip.QuietLines | SintezAGRChecker_v1.1.3/scripts/check_report.py:312-319 | lines none of the four tests picks up leave the reading state unchanged |
| ReportRoundTrip.QuietLine | SintezAGRChecker_v1.1.3/scripts/check_report.py:312-319 | a single such line leaves the state unchanged |
| ReportRoundTrip.TitleRun | SintezAGRChecker_v1.1.3/scripts/check_report.py:312-319 | the title line changes nothing (see also line 28) |
| ReportRoundTrip.DateRun | SintezAGRChecker_v1.1.3/scripts/check_report.py:312-319 | the date line changes nothing whatever the date (see also lines 30-35) |
| ReportRoundTrip.AddressRun | SintezAGRChecker_v1.1.3/scripts/check_report.py:312-319 | the address line changes nothing when the address is plain text (see also line 29) |
| ReportRoundTrip.AuthorRun | SintezAGRChecker_v1.1.3/scripts/check_report.py:312-319 | the inspector line changes nothing when the name is plain text (see also lines 36-39) |
| ReportRoundTrip.ProgressRun | SintezAGRChecker_v1.1.3/scripts/check_report.py:312-319 | the progress lines change nothing (see also lines 42-43, 49-50) |
| ReportRoundTrip.ExceptParts | SintezAGRChecker_v1.1.3/scripts/check_report.py:313-315 | splitting an "all checked except" line on " - " gives its head and the joined numbers (see also lines 46, 53) |
| ReportRoundTrip.JoinStrip | SintezAGRChecker_v1.1.3/scripts/check_report.py:313-315 | stripping the joined numbers removes only the line break |
| ReportRoundTrip.ExceptNumsJoin | SintezAGRChecker_v1.1.3/scripts/check_report.py:313-315 | the numbers read off an "all checked except" line are exactly the numbers written on it (see also lines 46, 53) |
| ReportRoundTrip.ExceptLoad | SintezAGRChecker_v1.1.3/scripts/check_report.py:312-315 | reading such a line records exactly its numbers as that tier's unchecked numbers (see also lines 46, 53) |
| ReportRoundTrip.ExceptRun | SintezAGRChecker_v1.1.3/scripts/check_report.py:312-315 | the same for the line as a text (see also lines 46, 53) |
| ReportRoundTrip.SummaryRun | SintezAGRChecker_v1.1.3/scripts/check_report.py:312-315 | a tier's summary block records its unchecked numbers when the model is present and any remain, and nothing otherwise (see also lines 41-54) |
| ReportRoundTrip.ClosingRun | SintezAGRChecker_v1.1.3/scripts/check_report.py:312-319 | the closing lines change nothing (see also lines 56-59) |
| ReportRoundTrip.HeaderRun | SintezAGRChecker_v1.1.3/scripts/check_report.py:309-319 | reading the head records both tiers' unchecked numbers and nothing else (see also lines 27-59) |
| ReportRoundTrip.LowBannerRun | SintezAGRChecker_v1.1.3/scripts/check_report.py:312-319 | the low-poly banner changes nothing (see also line 65) |
| ReportRoundTrip.HighBannerRun | SintezAGRChecker_v1.1.3/scripts/check_report.py:316-317 | the high-poly banner switches the reader to the high-poly failed list and changes nothing else (see also line 68) |
| ReportRoundTrip.ErrorTokens | SintezAGRChecker_v1.1.3/scripts/check_report.py:319 | the fourth space-separated token of an error line is the requirement number followed by a dot (see also line 74) |
| ReportRoundTrip.StripDot | SintezAGRChecker_v1.1.3/scripts/check_report.py:319 | stripping dots from that token gives back the number |
| ReportRoundTrip.ErrorLoad | SintezAGRChecker_v1.1.3/scripts/check_report.py:318-319 | reading an error line appends exactly its requirement number to the current failed list (see also line 74) |
| ReportRoundTrip.ErrorRun | SintezAGRChecker_v1.1.3/scripts/check_report.py:318-319 | the same for the line as a text (see also line 74) |
| ReportRoundTrip.DescriptionRun | SintezAGRChecker_v1.1.3/scripts/check_report.py:312-319 | a plain description block changes nothing (see also line 80) |
| ReportRoundTrip.AutoRun | SintezAGRChecker_v1.1.3/scripts/check_report.py:312-319 | the automatic-errors block changes nothing when its lines are plain (see also lines 84-86) |
| ReportRoundTrip.CommentRun | SintezAGRChecker_v1.1.3/scripts/check_report.py:312-319 | a plain comment block changes nothing (see also line 88) |
| ReportRoundTrip.ItemRun | SintezAGRChecker_v1.1.3/scripts/check_report.py:309-319 | a failed item's block records exactly its number as failed (see also lines 74-92) |
| ReportRoundTrip.FailedStepRun | SintezAGRChecker_v1.1.3/scripts/check_report.py:309-319 | one more failed item extends the recorded failed numbers by its number (see also lines 71-92) |
| ReportRoundTrip.PassedStep | SintezAGRChecker_v1.1.3/scripts/check_report.py:73 | an item that did not fail adds neither text nor a failed number |
| ReportRoundTrip.TierRun | SintezAGRChecker_v1.1.3/scripts/check_report.py:309-319 | reading a tier's items records exactly its failed numbers, in order (see also lines 70-92) |
| ReportRoundTrip.BodyRun | SintezAGRChecker_v1.1.3/scripts/check_report.py:309-319 | reading both tiers records the low-poly failed numbers, then switches to high poly and records its failed numbers (see also lines 63-92) |
| ReportRoundTrip.ReportRun | SintezAGRChecker_v1.1.3/scripts/check_report.py:309-319 | reading a generated report gives back each tier's failed numbers in order and each present model's unchecked numbers (see also lines 24-93) |
| ReportRoundTrip.FailedNumsMembers | SintezAGRChecker_v1.1.3/scripts/check_report.py:329 | a number is among the failed numbers exactly when some failed item carries it (see also lines 73-74) |
| ReportRoundTrip.StateRestored | SintezAGRChecker_v1.1.3/scripts/check_report.py:327-334 | an undefined item takes back the state the item with its number had |
| ReportRoundTrip.ReportRestoresStates | SintezAGRChecker_v1.1.3/scripts/check_report.py:296-334 | loading a generated report into undefined checklists gives every item the state the item with its number had when the report was written, in both tiers (see also lines 24-93) |
| Editor.Flush | SintezAGRChecker_v1.1.3/scripts/ui_utills.py:281-311 | a flush writes once exactly when a number is current, the stripped comment or description under that number and tier; a comment flush also clears the comment and the number, a description flush the description |
| Editor.Written | SintezAGRChecker_v1.1.3/scripts/ui_utills.py:289-299 | writing keeps the number of categories |
| Editor.WrittenAppend | SintezAGRChecker_v1.1.3/scripts/ui_utills.py:289-299 | applying two lists of writes in turn is applying their concatenation |
| Editor.WrittenOther | SintezAGRChecker_v1.1.3/scripts/ui_utills.py:320-329 | writes addressed to the other tier leave a tier's categories unchanged |
| Editor.LineWrites | SintezAGRChecker_v1.1.3/scripts/ui_utills.py:326-346 | a line writes at most once, only under a current number and to the current tier |
| Editor.ScanNumbered | SintezAGRChecker_v1.1.3/scripts/ui_utills.py:286-346 | no write is made while the number is empty |
| Editor.ScanLowFirst | SintezAGRChecker_v1.1.3/scripts/ui_utills.py:319-329 | until the high-poly banner every write goes to the low-poly checklist |
| Editor.HighStays | SintezAGRChecker_v1.1.3/scripts/ui_utills.py:326-329 | once the reader is in the high-poly tier it stays there |
| Editor.ScanStops | SintezAGRChecker_v1.1.3/scripts/ui_utills.py:330-332 | after a line that raises no later line changes the outcome |
| Editor.WriteBack | SintezAGRChecker_v1.1.3/scripts/ui_utills.py:281-311 | writing back one field changes exactly the first item with the current number in the current tier's checklist |
| Editor.ReadLine | SintezAGRChecker_v1.1.3/scripts/ui_utills.py:326-346 | one line changes the cursor and the checklists as the line step says |
| Editor.UpdateChecksFromEditor | SintezAGRChecker_v1.1.3/scripts/ui_utills.py:280-348 | without the report text nothing changes; otherwise the checklists receive exactly the reading's writes, tier by tier, the last line followed by a comment flush |
| Editor.LoadReportWithNotes | SintezAGRChecker_v1.1.3/scripts/check_report.py:296-339 | loading a ".txt" report sets the states and counters as AfterLoad says and then applies the editor's writes for the same text; any other path changes nothing |
| NotesRoundTrip.LsAppend | SintezAGRChecker_v1.1.3/scripts/ui_utills.py:325 | the editor lines of two line-terminated texts are those of each in turn |
| NotesRoundTrip.SplitLs | SintezAGRChecker_v1.1.3/scripts/ui_utills.py:325 | the editor holds a text's lines followed by one empty line |
| NotesRoundTrip.ScanGo | SintezAGRChecker_v1.1.3/scripts/ui_utills.py:325-346 | the reader's walk is the fold of the line step from the fresh cursor |
| NotesRoundTrip.GoAppend | SintezAGRChecker_v1.1.3/scripts/ui_utills.py:325-346 | walking two line lists in turn is walking their concatenation |
| NotesRoundTrip.ThenAppend | SintezAGRChecker_v1.1.3/scripts/ui_utills.py:325-346 | going on over two line lists in turn is going on over their concatenation |
| NotesRoundTrip.IdleStep | SintezAGRChecker_v1.1.3/scripts/ui_utills.py:342-346 | an unmarked line without the high-poly banner only adds itself to the field being filled |
| NotesRoundTrip.IdleGo | SintezAGRChecker_v1.1.3/scripts/ui_utills.py:342-346 | a run of such lines adds their text, line breaks included, to that field and writes nothing |
| NotesRoundTrip.IdleTextRun | SintezAGRChecker_v1.1.3/scripts/ui_utills.py:342-346 | the same for a text of such lines |
| NotesRoundTrip.QuietRun | SintezAGRChecker_v1.1.3/scripts/ui_utills.py:342-346 | with no field open such lines change nothing |
| NotesRoundTrip.HeaderIdle | SintezAGRChecker_v1.1.3/scripts/check_report.py:27-59 | every line of the report head is passed over |
| NotesRoundTrip.LowBannerIdle | SintezAGRChecker_v1.1.3/scripts/check_report.py:65 | the low-poly banner is passed over |
| NotesRoundTrip.ErrorSplit | SintezAGRChecker_v1.1.3/scripts/check_report.py:74 | the fourth space-separated token of an error line is the requirement number followed by a dot |
| NotesRoundTrip.ErrorStep | SintezAGRChecker_v1.1.3/scripts/ui_utills.py:330-332 | an error line flushes the pending comment and makes its number current |
| NotesRoundTrip.DescriptionStep | SintezAGRChecker_v1.1.3/scripts/ui_utills.py:333-344 | a description block opens the description field and gathers the description with its line break |
| NotesRoundTrip.MarkedStep | SintezAGRChecker_v1.1.3/scripts/ui_utills.py:335-341 | the automatic-errors block (or the comment mark directly) flushes the description and opens the comment field |
| NotesRoundTrip.CommentStep | SintezAGRChecker_v1.1.3/scripts/ui_utills.py:345-346 | the comment block gathers the comment text |
| NotesRoundTrip.PendingStrip | SintezAGRChecker_v1.1.3/scripts/ui_utills.py:293 | the gathered comment strips to the stripped comment |
| NotesRoundTrip.FlushGathered | SintezAGRChecker_v1.1.3/scripts/ui_utills.py:293 | a trailing empty line does not change what the final flush writes |
| NotesRoundTrip.ItemStep | SintezAGRChecker_v1.1.3/scripts/check_report.py:74-92 | reading a failed item's block writes its stripped description and leaves its comment pending under its number |
| NotesRoundTrip.TierGo | SintezAGRChecker_v1.1.3/scripts/check_report.py:70-92 | reading a tier's items writes, in item order, each failed item's stripped description and stripped comment and nothing else |
| NotesRoundTrip.HighBannerStep | SintezAGRChecker_v1.1.3/scripts/ui_utills.py:326-329 | the high-poly banner flushes the pending comment into the low-poly tier and switches to high poly |
| NotesRoundTrip.LowHalf | SintezAGRChecker_v1.1.3/scripts/check_report.py:65-92 | reading the low-poly part writes exactly the low-poly notes |
| NotesRoundTrip.HighHalf | SintezAGRChecker_v1.1.3/scripts/check_report.py:68-92 | reading the high-poly part then writes exactly the high-poly notes |
| NotesRoundTrip.EditReads | SintezAGRChecker_v1.1.3/scripts/ui_utills.py:325-348 | a text that reads through to some writes is read by the editor reader, last-line flush included, to exactly those writes |
| NotesRoundTrip.NotesRead | SintezAGRChecker_v1.1.3/scripts/check_report.py:24-93 | reading back the first text of a report writes each tier's failed items' stripped descriptions and comments, low poly first, and nothing raises |
| NotesState.Tidy | SintezAGRChecker_v1.1.3/scripts/ui_utills.py:293-296 | tidying keeps the requirement number |
| NotesState.TidyIn | SintezAGRChecker_v1.1.3/scripts/ui_utills.py:293-296 | conditional tidying keeps the requirement number |
| NotesState.NotesLast | SintezAGRChecker_v1.1.3/scripts/check_report.py:71-92 | one more item adds exactly its two writes when it failed, none otherwise |
| NotesState.NotesTier | SintezAGRChecker_v1.1.3/scripts/ui_utills.py:320-329 | every write of a tier's notes goes to that tier |
| NotesState.HasReqLast | SintezAGRChecker_v1.1.3/scripts/ui_utills.py:289-291 | a number occurs in a list with one more item exactly when it occurred before or the item carries it |
| NotesState.FlatAt | SintezAGRChecker_v1.1.3/scripts/check_report.py:71-72 | every entry of the flat list is an item of some category |
| NotesState.FlatHas | SintezAGRChecker_v1.1.3/scripts/check_report.py:71-72 | every item of every category is in the flat list |
| NotesState.UniqueMapped | SintezAGRChecker_v1.1.3/scripts/ui_utills.py:289-299 | a change that keeps requirement numbers keeps them unique |
| NotesState.MapCatsOn | SintezAGRChecker_v1.1.3/scripts/ui_utills.py:289-299 | two changes that agree on every item of the categories change them alike |
| NotesState.FailedWrites | SintezAGRChecker_v1.1.3/scripts/ui_utills.py:289-299 | the two writes of a failed item tidy exactly that item when numbers are unique |
| NotesState.PassedWrites | SintezAGRChecker_v1.1.3/scripts/check_report.py:73 | an item that did not fail adds no write and needs no tidying |
| NotesState.NotesPrefix | SintezAGRChecker_v1.1.3/scripts/ui_utills.py:289-299 | the writes of the first items tidy exactly those items |
| NotesState.NotesTidy | SintezAGRChecker_v1.1.3/scripts/ui_utills.py:289-299 | a tier's writes strip every failed item's description and comment and change nothing else |
| NotesState.NotesRestored | SintezAGRChecker_v1.1.3/scripts/check_report.py:336-339 | reading a report's first text back through the editor leaves each tier's checklist as it was, except that every failed item's description and comment are stripped, and nothing raises (see also lines 24-93) |

## Left out

- Blender, bmesh and mathutils become plain inputs: the BVH overlap test
  (a set of overlapping index pairs), convexity, `find_doubles`, pixel
  reads, image depth, UV-layer access, edit-mode switching and
  `transform_apply`.
- Floating point is left out: texel density, shoelace UV area, pivot
  offset, UV winding, the float comparisons on geojson values, and the
  sqrt-based convexity test. The transform thresholds are per-object
  booleans. Progress ratios are exact fractions, not floats, and UV
  coordinates in the tile formula are reals. The 5 % collision cap is
  compared and rounded as the exact fraction polycount / 20.
- Report.Percent: rounds the exact ratio half to even. The source rounds
  `progress_all * 100`, where `progress_all` is a single-precision Blender
  float, so at an exact tie its representation error decides the
  direction: 7 of 40 checked shows 17 there and 18 here, 1 of 40 shows 3
  there and 2 here.
- Checklist.Checklist.Click: models only the click itself. The operator
  first reads the text editor back into the checklist
  (`update_checks_from_text_editor`, modelled separately as
  `Editor.UpdateChecksFromEditor`) and afterwards rewrites the editor
  text for the item; neither is composed here. For a geojson-list click
  the model recounts the clicked geojson categories, while the source's
  `update_checklist` hook recounts the low-poly or high-poly checklist
  that the item's `highpoly` flag selects and leaves the geojson
  categories' progress alone.
- File and process I/O is left out: unzip and FBX import, `ModelPreparer`,
  CSV/xlsx reading, pip installs, docx/pdf writing, `save_report_txt_file`,
  logger.py and os_utils.py.
- The requirements catalogue is a parameter of rows. So is the FNO code
  classifier read from a spreadsheet.
- The `os.walk` traversal of `check_files` is left out. Only the per-name
  predicates are kept.
- `datetime.now` in the report is a `Report.Stamp` parameter.
- The text-editor lookup by name is an `Option` of lines.
- `exception_handler` is left out except for its effect. A rule that
  raises yields an empty result (`None`, or `ok == false`). Its timing and
  logging are not modelled.
- Python's `re` is reduced to the pattern subset the naming rules build.
- Carriage returns in report text are not modelled. Lines are split on
  `'\n'` only.
- The UI is left out: panels, icon caches, screenshot operators, view
  tools and selection.py.
- `is_one_color_image` is not part of this model.
- NotesRoundTrip.NotesRead: requires `Ready`. Every requirement number must
  be a plain id, and every failed item's name, description, comment and
  automatic errors must be text the parser passes over. This is stronger
  than "no marker-prefixed lines", because it excludes lines the parser
  would in fact tolerate.
- NotesState.NotesRestored: requires `Ready` and, in addition, unique
  requirement numbers in each tier. The editor writes to the first item
  with a matching number, so with duplicates only that first item is
  restored.
- ReportRoundTrip.ReportRestoresStates: requires `Ready` and both tier
  flags. It also requires that items sharing a number share a state,
  because the loader assigns states by number. `Ready` asks more than the
  loader needs in two ways. Requirement numbers must be digits and dots,
  not merely free of spaces and ", ". The header and the shown item texts
  must contain none of the phrases the loader searches for, and no line
  of them may start with "----".
- Checklist.Checklist.ApplyKeys, Checklist.Checklist.ApplyResults: the
  source assigns an item's `check` before its `check_state`
  (utills.py:413-414 and 425-426), so the recount run by the last
  assignment still sees that item's previous state, and the progress of
  its category can be one short of what the final states give. The model
  recounts once the states are set.
- Checklist.Checklist.AfterChecks: `update_checklist` runs after every
  assignment to an item's `check`; the model runs it once, after the
  operation, which gives the same checklist when the intermediate
  recounts stop where the last one does (`Checklist.LastUpdateWins`). A
  division by zero inside the hook is reported by Blender and does not
  stop the operation; the model stops only the recount. The hook picks
  the checklist by the item's own `highpoly` flag; the model assumes each
  checklist holds only items of its own tier.
- Text.Lower, Text.IsDigit, Text.IsDigits: ASCII only. Python's
  `str.lower` also lower-cases Cyrillic and other letters (and can change
  a string's length), and `str.isdigit` accepts other Unicode digits; the
  model keeps non-ASCII characters unchanged and counts only 0-9 as
  digits.
- GeoJsonProperties: every feature property value is a string. The source reads
  JSON values, so a number or null where a string is expected (for
  instance a numeric `FNO_code`) makes the string operations raise; that
  failure is not modelled.
- Udim.TileChecks: uses the corrected tile test (`Udim.NumberTiles`), not
  the chained `a != b != c` of the source, so a tile whose first and third
  numbers alone differ is reported here and not by the source.
- Collision.CheckOverlap, Collision.CheckCollision: list each overlapping
  pair once (`Collision.Intersections`); the source skips the `pop` after
  a non-proxy mesh and can list later pairs twice.
- Polycount.CheckHpPolycount: both collision-cap lines, the absolute
  15000 line (2.13.11) and the 5 % ratio line (2.13.10), show the
  collision polygon count (`Polycount.CapLines`); the source shows the
  plain polycount in both (`Polycount.CapLineShowsPolycount`,
  `Polycount.RatioLineShowsPolycount`).
- Collision.CheckCollision: models one fbx file. The source loops over all
  fbx files inside one exception handler, so a non-mesh proxy in any file
  discards the reports of every file; that loop is not modelled.

## Findings

| source | as written | input that shows it | evidently intended | confidence | as-written member | corrected member |
|---|---|---|---|---|---|---|
| SintezAGRChecker_v1.1.3/scripts/check_highpoly_lowpoly.py:435-447 | a line mentioning both "UCX" and a light type is removed by both quota branches once both counters pass 5, so `list.remove` raises and the naming rule returns nothing | seven distinct lines that each mention UCX and Spot | each line removed at most once | not executed | Naming.ThrottleAsWritten, Naming.ThrottleRaisesOnSharedLines | Naming.ThrottleLines |
| SintezAGRChecker_v1.1.3/scripts/check_highpoly_lowpoly.py:167 | `a != b != c` is `a != b and b != c`, so a tile whose first and third numbers differ is not reported | a complete set whose last tile holds tile-1003 diffuse and ERM maps beside a tile-1000 normal map | report the tile when its three numbers are not all equal | not executed | Udim.ChainedMissesWrappedNormal | Udim.NumberTiles |
| SintezAGRChecker_v1.1.3/scripts/check_highpoly_lowpoly.py:794-809 | the `continue` for a non-UCX mesh also skips `list2.pop()`, so later pairs are compared and listed twice | a main mesh followed by two overlapping UCX proxies | one pop per mesh, each overlapping pair listed once | not executed | Collision.PairReportedTwice | Collision.Intersections, Collision.ReportedOnce |
| SintezAGRChecker_v1.1.3/scripts/check_highpoly_lowpoly.py:1296-1300 | the size loop reads `node.image.size` for an image-less image node, so the rule raises and the "no diffuse" line for such a node (1322-1324) is never reported | the flora file `Materials.EmptyDiffuseFile` with material "Leaves" | image-less nodes add no size, and the flora report names the material | not executed | Materials.EmptyDiffuseLost, Materials.EmptyDiffuseExample | Materials.EmptyDiffuseReported |
| SintezAGRChecker_v1.1.3/scripts/check_highpoly_lowpoly.py:1621-1626 | both collision-cap lines, the absolute one (1623) and the 5 % ratio one (1626), print `polycount` where the collision count is meant | polycount 100 with 20000 collision polygons (absolute line); polycount 60000 with 4000 collision polygons (ratio line shows 60000 against 3000) | print `ucx_polycount` | not executed | Polycount.CapLineShowsPolycount, Polycount.RatioLineShowsPolycount | Polycount.CapLines, Polycount.CapLinesShowCollisions |
| SintezAGRChecker_v1.1.3/scripts/check_highpoly_lowpoly.py:1904-1905 | exactly five offending collision meshes are all listed and still followed by "и т. д." | five painted UCX meshes | add "и т. д." only when names were dropped | not executed | ColorAttributes.EtcAtFive | ColorAttributes.EtcWhenCut |
