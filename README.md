# A verified model of the Sollumz bulk asset importer

`import.py` is a Blender script. It imports every GTA V model file
(`.ydr` drawables, `.yft` fragments) found under an import directory into
one blend file per asset group. It attaches the `.dds` textures that the
models' materials name, and it keeps each group's file free of stale
objects. This project models the decisions the script makes between its
calls into Blender, and proves what those decisions guarantee.

Names are strings, the open blend file is a value (`Host.Data`), and the scanned files
are a sequence. Blender, Sollumz and the configuration enter the model as parameters.

Modules, in dependency order:

- `Wrappers`: `Option`.
- `Strings`: the pieces of Python's `str` that the script uses. These are
  `lower()` (ASCII), `startswith`, `endswith`, `find`, `split` and `join`.
- `Inventory`: the records the scan produces (`Texture`, `Asset`, the
  `GROUPED_ASSETS` table) and the configuration. The regular expressions
  are an abstract predicate, and vehicle entries are an abstract type.
- `Alias`: `getOriginalAsset` and `hasHiResVeh`.
- `Scan`: pathlib's `suffixes`, group classification, and the scan loop.
- `Host`: the open file, meaning its objects by name, its images and its
  datablock pools. Also `revertFailedImport`, image renaming and relinking,
  and `cleanDataGroup`.
- `Textures`: image-name normalisation and texture lookup.
- `Cleanup`: the duplicate-name pattern, the deletion rule, and the
  clean-up pass.
- `Sync`: one node, one asset, one group and the whole run. Each is a
  function of the run's state: the open file, the library's files,
  `changes`, the save count, `foundImages`, `missingTextures` and the
  previews generated.
- `Ledger` and `Outcomes`: what those functions guarantee.
- `Session`: the class `ImportRun`. It holds the run's state in fields
  that its methods update in place, with the script's loops written out.
  Each method is proved to compute the corresponding `Sync` function.

Four behaviours of the script are easy to misread; the model follows the
code:

- Texture directory search runs when a texture's directory differs from
  the one searched last for the same asset (`lastTexturePath` is reset for
  each asset at line 188). It is not tied to the first use of a directory
  within a group.
- `changes` counts an import whose importer returned, even when the
  asset's name is then not found (line 171 comes before line 177).
- Only an imported object is renamed to the asset's name (lines 183-185).
  An object found already present keeps the name it was found under.
- A texture is a file whose joined suffix is exactly `.dds`. So
  `a.b.dds` is not a texture.

The alias lookup inside `hasHiResVeh` strips leading `_`-tokens from
`name + "_hi"`. As a result, an object named just `hi` suppresses every
vehicle whose name has no `_hi` ending (`Alias.StrayHiObjectSuppresses`).
The model keeps this behaviour as written.

## Model

| member | source | states |
|---|---|---|
| Strings.FirstIndex | import.py:41 | the position found holds the character and no earlier position does |
| Strings.Split | import.py:41 | a split has at least one piece and no piece contains the separator |
| Strings.JoinSplit | import.py:41 | joining the pieces of a split with the separator gives the string back |
| Strings.SplitHead | import.py:195 | the first piece of a split is everything before the first separator, or the whole string |
| Strings.JoinSplitTail | import.py:41 | joining all pieces but the first gives everything after the first separator |
| Strings.LowerIsLowerCase | import.py:195 | `lower()` leaves no upper-case letter |
| Strings.LowerOfLowerCase | import.py:195 | `lower()` changes nothing in a lower-case string |
| Strings.IsDigit | import.py:24 | `\d` as ASCII 0-9; used by `Cleanup.IsDuplicateNameIff` |
| Strings.LowerChar | import.py:195 | one character of `lower()`; described by `LowerIsLowerCase` and `LowerOfLowerCase` |
| Strings.Lower | import.py:195 | `lower()`, character by character; described by `LowerIsLowerCase` and `LowerOfLowerCase` |
| Strings.Join | import.py:41 | `sep.join(parts)`; described by `JoinSplit`, `JoinSplitTail` and `Scan.JoinAsConcat` |
| Strings.StartsWith | import.py:100 | `startswith`; used by `Scan.FirstVehicleFrom` and `Inventory.GroupHasExtension` |
| Strings.EndsWith | import.py:46 | `endswith`; used by `Alias.HiResNameHasNoSibling` |
| Alias.StripFirstToken | import.py:41 | the retried name is a strictly shorter tail of the name |
| Alias.StripFirstTokenIsRejoinedTail | import.py:41 | the retried name, everything after the first `_`, is `'_'.join(name.split('_')[1:])` |
| Alias.GetOriginalAsset | import.py:40-41 | a resolved name is an object key and a tail of the looked-up name; the recursion is on a strictly shorter name |
| Alias.UnresolvedHasNoKeyedAlias | import.py:40-41 | when resolution fails, neither the name nor any tail cut after a `_` is an object key |
| Alias.ResolvedIsFirstKeyedAlias | import.py:40-41 | when resolution succeeds, the result is the longest tail cut at the start or after a `_` that is an object key |
| Alias.GetOriginalAssetMonotone | import.py:40-41 | a name that resolves among fewer objects also resolves among more |
| Alias.TailCut | import.py:41 | the cut positions of a name after its first token are those of the stripped name, shifted |
| Alias.HasHiResVehIff | import.py:43-48 | a name has a hi-res sibling exactly when it does not end in `_hi` and either some cut of `name_hi` is an object key or a scanned asset is named `name_hi` |
| Alias.HiResNameHasNoSibling | import.py:46 | a name ending in `_hi` never has a hi-res sibling |
| Alias.HasHiResVehMonotone | import.py:43-48 | removing objects can only turn the hi-res rule off |
| Alias.AliasExamples | import.py:40-41 | `foo_bar_baz` resolves to the object `bar_baz`; a name with no `_` and no object fails |
| Alias.HiResExample | import.py:43-48 | `truck_hi` suppresses `truck` |
| Alias.PrefixedHiResExample | import.py:43-48 | `truck_hi` suppresses `pack_truck`, through the alias lookup |
| Alias.StrayHiObjectSuppresses | import.py:43-48 | an object named `hi` suppresses every name that does not end in `_hi` |
| Alias.HasHiResVeh | import.py:43-48 | the rule itself: not ending in `_hi`, and `name_hi` resolves among the objects or names a scanned asset; its meaning is stated by `HasHiResVehIff` |
| Inventory.SomeAssetNamed | import.py:48 | some scanned asset of some group bears the name; the second disjunct of `Alias.HasHiResVehIff` |
| Inventory.VehicleKey | import.py:103 | `f'{VEHICLE_GROUP}/{veh[0]}'`; used by `Scan.ClassifyCases` |
| Inventory.VehicleKeys | import.py:21 | the set of vehicle group keys; used by `WellFormed` |
| Inventory.WellFormed | import.py:21 | `ALL_ASSET_GROUPS`: the regex keys in order, each vehicle key once, then `UNGROUPED`; the hypothesis of `Scan.ClassifyKeyIsKnown` |
| Inventory.IsSupportedExt | import.py:27-30 | `SUPPORTED_ASSET_EXTS`: the drawable and fragment suffixes; used by `Scan.IsAssetFile` |
| Inventory.GroupHasExtension | import.py:251 | some asset of the group has a name starting with the prefix; used by `Cleanup.DoomedByName` |
| Scan.LStrip | import.py:78 | the result is a tail of the string that does not start with the stripped character |
| Scan.LStripRemovesLeadingRun | import.py:78 | every character removed is the stripped character, so with `LStrip`'s contract the result is exactly `lstrip` |
| Scan.Suffixes | import.py:78 | pathlib's `suffixes`: none for a name ending in a dot, otherwise `.` before each dot-piece after the first of the name without its leading dots |
| Scan.Concat | import.py:78 | `"".join(ss)`; described by `JoinAsConcat` and `BodyIsHeadAndSuffix` |
| Scan.DropLast | import.py:79 | `s[0:-k]` with Python's slice clamping; described by `StemAndSuffix` |
| Scan.JoinedSuffix | import.py:78 | `ext`, the suffixes concatenated; described by `SuffixStartsWithDot`, `SuffixEndsName` and `StemAndSuffix` |
| Scan.Stem | import.py:79 | `name`, the file name without `ext` with Python's slice clamping; described by `StemAndSuffix` |
| Scan.JoinAsConcat | import.py:78 | a join is the first piece followed by each other piece behind the separator |
| Scan.BodyIsHeadAndSuffix | import.py:78 | a name without its leading dots is its first dot-piece followed by the joined suffix |
| Scan.SuffixStartsWithDot | import.py:78 | a non-empty joined suffix starts with a dot |
| Scan.SuffixEndsName | import.py:78-79 | the joined suffix is a proper tail of the file name |
| Scan.StemAndSuffix | import.py:78-79 | the recorded name followed by the joined suffix is the file name, and the name is non-empty; without a suffix the name is empty (`s[0:-0]`) |
| Scan.FirstVehicleFrom | import.py:100 | the first vehicle entry that matches, or none matches |
| Scan.Classify | import.py:92-103 | the key and `isVeh` of a scanned name, as the regex loop and the vehicle lookup decide them; described by `ClassifyCases` and `ClassifyKeyIsKnown` |
| Scan.ClassifyName | import.py:92-103 | the regex loop and vehicle lookup compute `Classify` |
| Scan.RegexKeyWithoutMatch | import.py:95-97 | the regex loop leaves `UNGROUPED` when nothing matches |
| Scan.RegexKeyIsLastMatch | import.py:95-97 | a match with no match after it decides the key: the last match wins |
| Scan.RegexKeyInGroups | import.py:95-97 | the regex loop's key is `UNGROUPED` or a regex group |
| Scan.RegexKey | import.py:95-97 | `key` after the first rounds of the regex loop; described by `RegexKeyWithoutMatch`, `RegexKeyIsLastMatch` and `RegexKeyInGroups` |
| Scan.ClassifyKeyIsKnown | import.py:92-105 | every key chosen is one of `ALL_ASSET_GROUPS` |
| Scan.ClassifyCases | import.py:92-110 | the last matching regex group wins with `isVeh` false; else the first matching vehicle gives `VEHICLE_GROUP/veh[0]` with `isVeh` true; else `UNGROUPED` |
| Scan.TexturesOf | import.py:84-89 | `textures` after the scan of a file sequence; described by `TexturesAreTheDdsFiles` |
| Scan.Picked | import.py:84-110 | the records a filtering append loop builds, in order; described by `PickedAtPositions` |
| Scan.IsTextureFile | import.py:84 | the joined suffix is `TEXTURE_EXT`; described by `TexturesStep` and `TexturesAreTheDdsFiles` |
| Scan.TextureOf | import.py:85-89 | the texture record of a file; described by `TexturesAreTheDdsFiles` |
| Scan.IsAssetFile | import.py:90 | not a texture and a supported suffix; described by `AssetsStep`, `AssetStepIntoKey` and `ScanIsComplete` |
| Scan.AssetOf | import.py:105-110 | the asset record of a file; described by `AssetsArePickedRecords` |
| Scan.KeyOf | import.py:92-103 | the group key an asset file goes to; described by `AssetStepIntoKey` and `ClassifyKeyIsKnown` |
| Scan.PickedAtPositions | import.py:84-89 | the records appended by a filtering loop are those of the qualifying elements, one for one and in order |
| Scan.AssetsOf | import.py:105-110 | one group's `assets` after the scan; described by `AssetsArePickedRecords` and `PicksAreOrderedGroupMembers` |
| Scan.GroupedOf | import.py:105-111 | `GROUPED_ASSETS` after the scan, each group with its assets and their count; described by `ScanIsComplete` |
| Scan.TexturesStep | import.py:84-89 | one more file adds its texture record exactly when it is a `.dds` file |
| Scan.AssetsStep | import.py:105-110 | one more file appends its asset record to a group exactly when it is an asset file of that group |
| Scan.GroupedStepAsset | import.py:105-111 | one more asset file is appended to its own group and counted; the other groups are unchanged |
| Scan.AssetStepIntoKey | import.py:105-110 | an asset file is appended to the group of its key and to no other |
| Scan.GroupedStepOther | import.py:84-90 | any other file leaves the group table unchanged |
| Scan.ScanFiles | import.py:77-111 | the scan loop yields the texture list and the group table of the whole file sequence |
| Scan.Positions | import.py:77 | every recorded position is a position of the sequence |
| Scan.PositionsAreOrderedAndExact | import.py:77 | positions strictly increase and are exactly the elements that qualify |
| Scan.AssetsArePickedRecords | import.py:105-110 | a group's assets are the records of its asset files, one for one |
| Scan.PicksAreOrderedGroupMembers | import.py:105-110 | a group's assets come in discovery order and are exactly the asset files whose key is the group |
| Scan.TexturesAreTheDdsFiles | import.py:84-89 | the textures are the records of exactly the `.dds` files, in discovery order |
| Scan.ScanIsComplete | import.py:105-111 | every group is in the table, `total` equals the number of its assets, and every asset file landed in its key's group |
| Host.FindImage | import.py:198 | the first image with the name, or no image has it |
| Host.AssetsOnly | import.py:51 | exactly the objects with `asset_data` are kept, unchanged |
| Host.RetargetObj | import.py:206 | retargeting keeps the object's flag and node count and retargets each node |
| Host.RetargetNode | import.py:206 | a node showing the renamed image shows it under its new name, any other node is kept; used by `RenameImage` |
| Host.RenameImage | import.py:206 | the image gets its new name and keeps its other fields; every node that showed it shows it under the new name and no other node changes; other images and the pools are untouched |
| Host.SetNodeImage | import.py:203 | only that node now shows the named image; the object's other nodes, the images, the other objects and the pools are untouched |
| Host.RenameObject | import.py:185 | the object now sits under the new name; the old key is gone and every other object stays |
| Host.Relink | import.py:230 | relinking keeps the objects, the meshes, materials and textures, and gives an image data exactly when it had data or its file is found in the directory |
| Host.RevertFailedImport | import.py:50-54 | the file with only its objects with `asset_data`; described by `AssetsOnly` |
| Host.Live | import.py:34-38 | the items of a pool that `cleanDataGroup` keeps; described by `LiveMembers`, `LiveIsOrderedSelection` and `LiveIdempotent` |
| Host.CleanDataGroup | import.py:34-38 | the loop keeps exactly `Live(pool)` |
| Host.LiveMembers | import.py:34-38 | the kept items are exactly the items with users |
| Host.LiveIsOrderedSelection | import.py:34-38 | the kept items are the items with users, in their original order |
| Host.LiveIdempotent | import.py:34-38 | cleaning a cleaned pool changes nothing |
| Textures.Normalize | import.py:195 | the normalised name is lower-case, has no dot, and is the lower-cased name up to its first dot |
| Textures.NormalizeIdempotent | import.py:195 | normalising twice is normalising once |
| Textures.NormalizeFixpoints | import.py:195-197 | a name is left unchanged exactly when it is lower-case and dot-free |
| Textures.FirstWhere | import.py:215-218 | `next(...)` gives the first texture that qualifies, or none qualifies |
| Textures.FindTexture | import.py:215-218 | nothing is found exactly when no texture bears the name; a texture in the asset's directory is preferred and is the first such; otherwise the first texture bearing the name |
| Textures.InAssetDir | import.py:215 | the first `next(...)` filter; described by `FindTexture` and `FindTexturePrefersAssetDir` |
| Textures.NamedLike | import.py:218 | the second `next(...)` filter; described by `FindTexture` |
| Textures.FindTexturePrefersAssetDir | import.py:215-218 | a texture in the asset's directory beats all others, wherever it is listed |
| Textures.FindTextureExample | import.py:215-218 | a later texture under the asset's directory wins over an earlier one elsewhere |
| Cleanup.HasDuplicateSuffix | import.py:24 | `re.search(r"\.\d+$", name)` as a match position: a dot, ASCII digits, then the end or a final newline |
| Cleanup.DuplicateMatchAt | import.py:24 | one match of `\.\d+$`: a dot, ASCII digits, then the end or a final newline; used by `IsDuplicateNameIff` and `MatchIsFound` |
| Cleanup.EndsWithDotDigits | import.py:24 | the end of the name is a dot followed by at least one ASCII digit; used by `IsDuplicateNameIff` |
| Cleanup.IsDuplicateName | import.py:24 | the same test as a scan of the trailing digits; `IsDuplicateNameIff` proves the two agree |
| Cleanup.TrailingDigits | import.py:24 | the count of trailing digits, delimited by a non-digit |
| Cleanup.DotDigitsEnd | import.py:24 | a dot followed only by digits marks where the trailing digits start |
| Cleanup.MatchIsFound | import.py:24 | a match of `\.\d+$` is found by the scan from the end |
| Cleanup.IsDuplicateNameIff | import.py:24 | the scan from the end agrees with `re.search(r"\.\d+$")` with `\d` read as ASCII 0-9, including a match before a final newline |
| Cleanup.DuplicateExamples | import.py:24 | `Body.001` is a duplicate name; `Body` and `Body.` are not |
| Cleanup.DoomedByName | import.py:245-252 | the disjuncts of the deletion rule that read only the object and the scanned table |
| Cleanup.Doomed | import.py:245-253 | the whole deletion rule, with line 253's hi-res test on the objects left |
| Cleanup.ExtendedElsewhere | import.py:249 | the generator of line 249 over the other groups; used by `DoomedByName` and `CondemnedByNameIsRemoved` |
| Cleanup.ExtendedAnywhere | import.py:252 | the generator of line 252 over all groups; used by `DoomedByName` and `CondemnedByNameIsRemoved` |
| Cleanup.CleanupPass | import.py:244-256 | the pass only removes objects, and keeps every object it does not visit |
| Cleanup.RemovedWasCondemned | import.py:244-256 | an object the pass removed was visited and is condemned by the rule on the objects the pass started from; with `SurvivorsAreSpared`, a kept object is spared on the objects left; for the name disjuncts, which read no other object, the pass deletes exactly what they condemn (`CondemnedByNameIsRemoved`); the hi-res disjunct is decided by the visiting order (`HiResDecidedByOrder`) |
| Cleanup.HiResDecidedByOrder | import.py:244-256 | line 253 reads the objects left at the visit: a vehicle `car` whose only hi-res sibling is a non-asset `car_hi` survives when `car_hi` is visited first and is deleted when it is visited after it |
| Cleanup.DoomedMonotone | import.py:245-253 | fewer objects can only spare more |
| Cleanup.SurvivorsAreSpared | import.py:244-256 | every visited object that is kept is spared by the rule on the objects left |
| Cleanup.SurvivorsAreCleanAssets | import.py:244-256 | when the pass visits every object, each survivor has `asset_data`, no duplicate suffix, and fails the other name disjuncts |
| Cleanup.CondemnedByNameIsRemoved | import.py:245-252 | an object the name disjuncts condemn is deleted whenever it is visited |
| Cleanup.NonAssetsAndDuplicatesAreRemoved | import.py:245-246 | an object without `asset_data` or with a `.NNN` suffix is always deleted |
| Cleanup.PassOverSparedIsIdentity | import.py:244-256 | a pass over objects the rule all spares changes nothing |
| Cleanup.CleanupIdempotent | import.py:244-256 | a second pass after a complete one changes nothing |
| Sync.Save | import.py:56-65 | the file is stored under the path and the save count grows by one; nothing else changes |
| Sync.Checkpoint | import.py:239-241 | at 25 changes or more the file is saved and `changes` reset; below 25 nothing happens; afterwards `changes` is below 25 |
| Sync.OpenGroup | import.py:125-141 | a group starts with no changes and no found images, in its file if the library has one, and otherwise in an empty file saved at once |
| Sync.PopulatedGroups | import.py:117 | exactly the groups of `ALL_ASSET_GROUPS` with `total > 0`, in their order and with their multiplicity: the `k`-th is the group at the `k`-th qualifying position |
| Sync.IsPopulated | import.py:117 | the comprehension's test `total > 0`; used by `PopulatedGroups` |
| Sync.BlendPath | import.py:123-124 | `ASSET_LIBRARY_DIRECTORY/<group>.blend`; used by `OpenGroup` and `Outcomes.FinishGroupProps` |
| Sync.AssetFile | import.py:164 | the path passed to the importer; used by `Import` |
| Sync.TextureStep | import.py:208-232 | one normalised image name: found before, loaded, already missed, looked up and added, or recorded as missing; described by `Ledger` |
| Sync.ImageStep | import.py:195-232 | one image: swapped for its normalised twin, or renamed and passed to the texture step |
| Sync.NodeStep | import.py:191-232 | one node: skipped unless it is an image node showing an image |
| Sync.Nodes | import.py:190-232 | the first `n` nodes of an object in order; described by `Ledger.NodesProps` |
| Sync.TexturePass | import.py:187-232 | every node of an object, from no preview and no directory searched |
| Sync.NodeCount | import.py:190-191 | the number of nodes over all material slots of the object; bounds `Nodes` in `TexturePass` |
| Sync.Ready | import.py:187-241 | the texture pass, the preview and the checkpoint; described by `Outcomes.ReadyProps` |
| Sync.Import | import.py:162-170 | the importer for the asset's suffix, or a raise for any other suffix |
| Sync.Adopt | import.py:171-241 | after a returning import: one change, then failure or rename and ready; described by `Outcomes.AdoptProps` |
| Sync.AssetStep | import.py:145-241 | one asset, with its outcome; described outcome by outcome in `Outcomes` |
| Sync.Assets | import.py:145-241 | a group's assets in turn; described by `Outcomes.AssetsLedger`, `AssetsDoNotUnsave` and `CheckpointCadence` |
| Sync.FinishGroup | import.py:243-263 | the clean-up, the four pools cleaned and the save; described by `Outcomes.FinishGroupProps` |
| Sync.GroupStep | import.py:120-263 | one group: open, the asset loop, the finish; described by `Outcomes.GroupProps` |
| Sync.Groups | import.py:120-263 | the populated groups in turn; described by `Outcomes.GroupsLedger` |
| Sync.ImportAssets | import.py:67-263 | the whole run after the scan; described by `Outcomes.RunLedgerIsSound` |
| Sync.Start | import.py:69-72 | the ledger holds only the placeholder, with no changes and no saves; described by `Outcomes.RunLedgerIsSound` and `Session.ImportRun.constructor` |
| Ledger.LedgerGrowthTrans | import.py:215-222 | ledger growth composes |
| Ledger.TextureStepProps | import.py:208-232 | one image adds at most one found name, counts it as one change, keeps the file's shape, and only adds missed names against this asset |
| Ledger.ImageStepProps | import.py:195-232 | the same for the image step with its rename or swap |
| Ledger.NodeStepProps | import.py:191-232 | the same for any node |
| Ledger.KnownImagesAreNotLookedUp | import.py:208-213 | a found, loaded or already-missed name is passed over without a lookup, and only a found one asks for a preview |
| Ledger.MissedNameIsRecorded | import.py:215-222 | a name no texture bears is written to the ledger against the asset and nothing else changes |
| Ledger.AddedTextureIsCounted | import.py:224-232 | an added texture is one change and one found name; the directory is searched and a preview asked for exactly when it differs from the last one |
| Ledger.NormalisedTwinIsReused | import.py:197-204 | an image whose normalised name exists is swapped for it: the file is exactly `SetNodeImage` for that node, a preview is asked for, and nothing else in the run changes |
| Ledger.ImageIsRenamed | import.py:206 | otherwise the image is renamed to its normalised name and the texture step follows |
| Ledger.PassPropsTrans | import.py:190-232 | the pass properties compose with one more step |
| Ledger.NodesProps | import.py:190-232 | the whole texture pass keeps the shape, counts the added images as changes, and only grows the ledger |
| Outcomes.ReadyProps | import.py:187-241 | after an asset is ready the keys are kept, the ledger only grows, and `changes` is below 25, with a save exactly when the asset brought it to 25 or more |
| Outcomes.SkipIffHiRes | import.py:151-153 | an asset is skipped exactly when it is a vehicle with a hi-res sibling, and a skip changes nothing |
| Outcomes.FoundIgnoresImporters | import.py:155-158 | an asset is found exactly when it is not skipped and its name resolves, and then the importers play no part |
| Outcomes.FailureReverts | import.py:162-182 | a failed asset leaves exactly the importer's objects with `asset_data`, counts a change only if the importer returned, and does no texture work or save |
| Outcomes.UnsupportedSuffixFails | import.py:165-175 | a suffix neither importer handles raises and fails with the file reverted |
| Outcomes.AdoptProps | import.py:171-185 | after a returning import the asset fails exactly when its name does not resolve; when it resolves the object ends up under exactly the asset's name and the import counts one change |
| Outcomes.AdoptResolved | import.py:177-241 | when the name resolves, the asset is imported under exactly its own name, the ledger only grows, and the import with its added images is counted and checked against the threshold |
| Outcomes.ImportedIsNamed | import.py:151-185 | an imported asset was not skipped nor found, and its importer returned |
| Outcomes.FoundKeepsObjects | import.py:155-241 | a found asset keeps the object keys and counts only its added images |
| Outcomes.AssetStepLedger | import.py:145-241 | whatever the outcome, the ledger only grows, saves never drop, and a ready asset leaves `changes` below 25 |
| Outcomes.AssetsLedger | import.py:145-241 | the same for a group's assets in order |
| Outcomes.AssetsDoNotUnsave | import.py:145-241 | a group's assets never lower the save count |
| Outcomes.FinishGroupProps | import.py:243-263 | the end of a group keeps what the clean-up spares and the live items of each of the four pools (meshes, materials, textures, images), and saves the file once more |
| Outcomes.GroupProps | import.py:120-263 | a group ends saved to its path, the ledger only grown; with a complete object walk every object left is an asset with no duplicate suffix |
| Outcomes.GroupsLedger | import.py:120-263 | over all groups the ledger only grows |
| Outcomes.RunLedgerIsSound | import.py:70-222 | at the end the placeholder is still present with no asset, so it was never looked up, and every other entry names an asset for which no texture bears the entry's name |
| Outcomes.PlainImportStep | import.py:171-241 | an imported asset that adds no image is one change, checked against the threshold |
| Outcomes.CheckpointCadence | import.py:145-241 | in the group's asset loop, from no changes, `n` assets that are each imported and add no image give `n / 25` saves and leave `n % 25` changes |
| Outcomes.CadenceExample | import.py:145-241 | sixty such assets save twice and leave ten changes |
| Session.ImportRun.constructor | import.py:69-72 | the run starts with the placeholder alone in the ledger |
| Session.ImportRun.SaveTo | import.py:56-65 | the save as an update of the run |
| Session.ImportRun.RevertFailedImport | import.py:50-54 | collecting the failed objects and removing them one by one leaves exactly the assets |
| Session.ImportRun.VisitTexture | import.py:208-232 | the in-place texture step computes `Sync.TextureStep` |
| Session.ImportRun.VisitImage | import.py:195-232 | the in-place image step computes `Sync.ImageStep` |
| Session.ImportRun.VisitNode | import.py:191-232 | the in-place node step computes `Sync.NodeStep` |
| Session.ImportRun.ProcessTextures | import.py:187-232 | the node loop computes the texture pass |
| Session.ImportRun.MakeReady | import.py:187-241 | the texture pass, the preview and the checkpoint compute `Sync.Ready` |
| Session.ImportRun.ImportAsset | import.py:145-241 | the asset's branches compute `Sync.AssetStep`, outcome included |
| Session.ImportRun.CleanUp | import.py:244-256 | the clean-up loop computes `CleanupPass` in the host's order |
| Session.ImportRun.FinishGroup | import.py:243-263 | the clean-up, the four `cleanDataGroup` calls and the save compute `Sync.FinishGroup` |
| Session.ImportRun.ImportGroup | import.py:120-263 | opening the group, the asset loop and the finish compute `Sync.GroupStep` |
| Session.ImportRun.ImportGroups | import.py:120-263 | the group loop computes `Sync.Groups` |
| Session.ImportRun.ImportAll | import.py:77-263 | the scan and the group loop over the populated groups |
| Session.RunImport | import.py:67-263 | a whole run computes `Sync.ImportAssets` |

## Left out

- Blender's operators are parameters or plain state updates. These are
  `open_mainfile`, `read_homefile`, `autopack_toggle`,
  `save_as_mainfile`, `find_missing_files` and `asset_generate_preview`.
  - A save writes the file's value into a map of the library's files.
  - Finding missing files is the parameter `loads(imageName, directory)`.
  - A preview is a name appended to a list.
- `save()`: its swallowed packing errors and the removal of `<path>1` are
  file-system details and are not modelled.
- The Sollumz importers and their dynamic loading are parameters. Each
  receives the open file and the asset's path, and gives back the file
  either as the importer returned it or as it was when the importer raised.
- The file-system walk (`rglob`, `is_file`, `parents`, `absolute()`) is
  not modelled. The scanned files arrive as a sequence of (file name,
  directory name, directory path), and paths are plain strings
  (`BlendPath`, `AssetFile`).
- Printing, status strings, colours and `assetPad` (lines 68, 82,
  113-114, 122, 128-130, 143, 147-149) are not modelled. So is the final
  report loop (lines 265-267), which only prints the ledger;
  `Outcomes.RunLedgerIsSound` states the ledger's content instead.
- The unused `assetGroup` of line 91 is not modelled.
- `utils.py` is not part of this model.
- `config.py` is not part of this model. `ASSET_GROUPS`' regular
  expressions are the abstract `groupMatches`. A `VEHICLES` entry is
  abstract, with `vehMatches`, `vehName` and `isVehicleName` standing for
  `startswith`, `veh[0]` and `in VEHICLES`. `ALL_ASSET_GROUPS` is a given
  sequence whose layout follows line 21 (`Inventory.WellFormed`).
- Python's `lower()` is modelled on ASCII letters only.
- IsDuplicateNameIff: `\d` of line 24 is modelled as the ASCII digits 0-9
  (`Strings.IsDigit`, used by `Cleanup.IsDuplicateName` and
  `Cleanup.HasDuplicateSuffix`). Python 3 also matches every other Unicode
  decimal digit, so a name such as `Body.` followed by an Arabic-Indic
  digit is deleted by line 246 but not by the model.
- Blender's reference counts are given per item (`users`). How removing
  objects changes them is not modelled.
- Removing from a Blender collection while iterating it is not modelled.
  The clean-up visits the objects in an order the host chooses
  (`Env.objectOrder`), and each name is tested against the objects left at
  that moment.
- Blender's renaming on a name collision (line 206) is not modelled. An
  image is renamed only when no image already has the normalised name
  (lines 197-200). An object is renamed to the asset's name only when
  the lookup of line 177 resolved to another key, and that lookup tries the
  exact name first (line 41), so no object holds the asset's name then. In the model, nodes refer to images by name, and renaming
  an image updates every node that showed it.
- Material slots are flattened: an object's nodes are the nodes of its
  materials' node trees, in order. A material shared by several objects is
  modelled as separate copies. A slot without a material, or a material
  without a node tree, is not modelled: at line 191 `slot.material.node_tree`
  then raises an `AttributeError` that nothing catches, and the whole run
  aborts.
- Outcomes.GroupProps: the survivor property is stated only for an object
  walk that visits every object, because Blender's iteration during
  removal is not modelled.
