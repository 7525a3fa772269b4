# A verified model of the photo-collection validators, services and viewers

This project models, in Dafny, the core of a photo-collection website: collections of images are
folders on disk whose names become URL slugs, a SQLite catalog records each collection with its
slug and parent, a Node backend serves the content, media files and social reactions, and a React
frontend shows every collection as a row of carousels with layouts, projections and navigation.

The model follows the source file by file, one module per file:

- **Database validation.** `validate_database_v2.py` (slug-aware, modules `FsScannerV2`,
  `DbScannerV2`, `SlugValidatorV2`), the older name-based `validate_database.py`
  (`LegacyValidator`) and the comparison script `analyze_validation.py` (`SlugAnalysis`).
  The directory tree is an inductive datatype, the scanners walk it with loops proved against
  tree-recursive specification functions, and every rule is a function whose issues are
  characterised exactly (an issue is reported if and only if the condition it names holds).
  Version 2 of the validator has no duplicate-slug rule; the model follows the code there
  and does not invent one. Version 1's uniqueness check counts dictionary keys, so it
  provably never fires (`LegacyValidator.SlugUniquenessNeverFires`).
- **Backend services and routes.** Content scanning (`ContentScanning`), the database manager
  (`DatabaseService`), pagination and collection lookup (`ContentRoutes`), path resolution and
  the media route's guard (`PosixPath`, `MediaRoutes`), reactions and IP hashing
  (`SocialRoutes`), and configuration loading (`ConfigLoading`).
- **Frontend state.** The carousel state machine (`CarouselState`, `ReferenceCarousel`), image
  preloading, transitions, toasts, carousel virtualization, the logger's module switches, the
  keyboard manager, the projection and parallax managers, the gallery layouts
  (`Gallery`, `DynamicLayout`, `CuratedLayout`, `LivePreview`), navigation and breadcrumbs,
  the progressive navigation demo and the collection configuration context.

Code that mutates state in place (the scanners, the validator's report, the React hooks' state,
the managers' registries) is a `class` whose methods state their whole new state through a
specification function of the old state; the properties the source promises are lemmas about
those functions. Dictionaries and `Map`s that keep insertion order are `OrderedDict.ODict`
values. Strings are `seq<char>`; file-system, database, network and clock access become
parameters (a `Disk`, a directory tree, rows, a time value).

## Model

| member | source | states |
|---|---|---|
| Catalog.Suffix | src/backend/validate_database_v2.py:168 | the extension is the name from its last dot when that dot is neither first nor last (so `photo.jpg` gives `.jpg`), and empty otherwise; it holds no other dot, ends the name and is shorter than it (`PurePath.suffix`) |
| Catalog.Stem | src/backend/validate_database_v2.py:172 | the stem followed by the suffix is the whole name |
| Catalog.LowerOrNone | src/backend/validate_database_v2.py:449-450 | a parent slug is lowercased exactly when it is a non-empty string, else it is `None` |
| Catalog.CountSeverity | src/backend/validate_database_v2.py:514-516 | a severity count never exceeds the number of issues |
| Catalog.SeverityCountsPartition | src/backend/validate_database_v2.py:514-518 | the error, warning and info counts add up to the total number of issues |
| FsScannerV2.ExpectedSlugIsPathSlug | src/backend/validate_database_v2.py:72-80 | the expected slug of a directory, root or nested, is the hyphen-join of its whole path with each name lowercased and spaces made hyphens |
| FsScannerV2.ExpectedSlugExtendsParent | src/backend/validate_database_v2.py:72-80 | a child's expected slug is its parent's expected slug, a hyphen, and its own normalised name |
| FsScannerV2.ExpectedSlugIsNormalized | src/backend/validate_database_v2.py:76-80 | an expected slug contains no space and no upper-case letter |
| FsScannerV2.ClassifyAllSpec | src/backend/validate_database_v2.py:164-183 | the scanning loop records the image files, the video files and the non-excluded subdirectories in listing order, the last image whose stem is `hero`, and the last `config.json` that could be read |
| FsScannerV2.NamesWhereScanned | src/backend/validate_database_v2.py:184-185 | no recorded subdirectory has an excluded name |
| FsScannerV2.ScanTreeSound | src/backend/validate_database_v2.py:139-191 | scanning a directory stores every record under its own expected slug, well formed and with no excluded name on its path, and never removes a key stored before |
| FsScannerV2.RecordKey | src/backend/validate_database_v2.py:164-191 | a directory's record, once its entries are classified, is stored under the key its name and path give |
| FsScannerV2.ScanTreeCovers | src/backend/validate_database_v2.py:139-191 | a scan adds exactly the expected slugs of the non-excluded directories it reaches through successful listings |
| FsScannerV2.ScanItemsCovers | src/backend/validate_database_v2.py:164-187 | each prefix of the loop adds exactly the slugs of the subtrees it has scanned |
| FsScannerV2.ItemStepCovers | src/backend/validate_database_v2.py:184-187 | one pass adds the reached slugs of a non-excluded subdirectory and nothing for a file |
| FsScannerV2.RootsCovered | src/backend/validate_database_v2.py:128-137 | the whole scan adds exactly the slugs reached from the non-excluded top-level directories |
| FsScannerV2.ScanItemsSound | src/backend/validate_database_v2.py:164-187 | each pass of the loop keeps every stored record sound and keeps the earlier keys |
| FsScannerV2.ParentStoredAfterChildren | src/backend/validate_database_v2.py:184-191 | a directory's own record is stored after all its descendants', so none of them overwrites it |
| FsScannerV2.RootsAreSound | src/backend/validate_database_v2.py:128-137 | scanning the top level yields only sound records |
| FsScannerV2.FilesystemScanner.constructor | src/backend/validate_database_v2.py:124-126 | a new scanner holds no directories |
| FsScannerV2.FilesystemScanner.Scan | src/backend/validate_database_v2.py:128-137 | `scan()` leaves the dictionary as the top-level scan specifies and returns it |
| FsScannerV2.FilesystemScanner.ScanDirectory | src/backend/validate_database_v2.py:139-191 | `_scan_directory` leaves the dictionary as the recursive scan specifies; a path too long to list adds nothing |
| FsScannerV2.FilesystemScanner.ScanItem | src/backend/validate_database_v2.py:164-187 | one pass of the loop classifies the entry into the directory's record and scans a subdirectory's records into the dictionary |
| DbScannerV2.ChildSlugSplits | src/backend/validate_database_v2.py:94-103 | a slug without a hyphen is its own child slug; otherwise it is a hyphen-free head, a hyphen, and the child slug |
| DbScannerV2.ProcessCollectionSound | src/backend/validate_database_v2.py:220-270 | processing a collection keeps every record under its own non-empty slug with a stored parent, drops no key, and stores the collection whenever it has a slug |
| DbScannerV2.ProcessSubsSound | src/backend/validate_database_v2.py:258-270 | the subcollection loop keeps the catalog sound and keeps the parent stored |
| DbScannerV2.ProcessCollectionStores | src/backend/validate_database_v2.py:220-270 | processing a collection adds exactly the slugs of it and its fetched descendants (nothing when it has no slug), leaves every other record as it was, and stores the collection's own record, built from its payload, unless a descendant has the same slug |
| DbScannerV2.ProcessSubsStore | src/backend/validate_database_v2.py:258-270 | the subcollection loop adds exactly the slugs of the fetched subcollections' trees and leaves every other record |
| DbScannerV2.FailedFetchSkipped | src/backend/validate_database_v2.py:260-270 | a subcollection whose fetch fails adds nothing and changes nothing |
| DbScannerV2.ProcessAllSound | src/backend/validate_database_v2.py:211-212 | processing every top-level collection gives a sound catalog |
| DbScannerV2.ScanCatalogSound | src/backend/validate_database_v2.py:199-218 | whatever the API answers, the catalog is sound, and a failed listing gives no record |
| DbScannerV2.DatabaseScanner.constructor | src/backend/validate_database_v2.py:195-197 | a new scanner holds no directories |
| DbScannerV2.DatabaseScanner.Scan | src/backend/validate_database_v2.py:199-218 | a failed listing returns an empty dictionary; otherwise every collection is processed in order and the dictionary is returned |
| DbScannerV2.DatabaseScanner.Process | src/backend/validate_database_v2.py:220-270 | `_process_collection` leaves the dictionary as the recursive specification says |
| SlugValidatorV2.FirstCaseInsensitiveSpec | src/backend/validate_database_v2.py:294-298 | the case-insensitive search finds nothing exactly when no catalog key equals the slug ignoring case, and otherwise returns the first such key |
| SlugValidatorV2.MatchForSpec | src/backend/validate_database_v2.py:289-298 | an exact key is preferred; otherwise the first catalog key equal ignoring case; a slug is unmatched exactly when no catalog key equals it ignoring case |
| SlugValidatorV2.BuildMatchesSpec | src/backend/validate_database_v2.py:284-298 | every key of the match table is a filesystem key, every value a catalog key, and a filesystem key is present exactly when it has a match |
| SlugValidatorV2.OrphanIssuesExact | src/backend/validate_database_v2.py:319-336 | each catalog slug that is no matched value gets exactly one orphan error, and no other slug gets one |
| SlugValidatorV2.OrphanIssuesShape | src/backend/validate_database_v2.py:327-331 | every orphan issue is an error of category "Orphaned DB Entry" with the fixed message |
| SlugValidatorV2.MissingIssuesExact | src/backend/validate_database_v2.py:338-357 | each filesystem slug without a match gets exactly one missing error, and no other slug gets one |
| SlugValidatorV2.MissingIssuesShape | src/backend/validate_database_v2.py:344-348 | every missing issue is an error of category "Missing DB Entry" with the fixed message |
| SlugValidatorV2.Complementary | src/backend/validate_database_v2.py:284-357 | every filesystem key is either matched or reported missing, and every catalog key either a matched value or reported orphaned, never both |
| SlugValidatorV2.FilterExcluded | src/backend/validate_database_v2.py:399 | filtering excluded names never lengthens the list |
| SlugValidatorV2.FilterExcludedNoop | src/backend/validate_database_v2.py:399 | the scanner never records an excluded subdirectory, so the re-filtering changes nothing |
| SlugValidatorV2.PairCountIssuesSpec | src/backend/validate_database_v2.py:359-412 | an image-count difference is an error iff it exceeds 5, else a warning; a video-count difference is a warning iff the catalog has no video, else an error; subcollection counts are reported, as a warning, only when they differ by more than 1 |
| SlugValidatorV2.PairConfigIssuesSpec | src/backend/validate_database_v2.py:414-438 | a config only on disk is a warning, one only in the catalog is informational, and both or neither give no issue |
| SlugValidatorV2.BareNameHierarchyIssuesSpec | src/backend/validate_database_v2.py:440-466 | as written, an error is reported exactly when the lowercased bare parent name is itself a filesystem key, the catalog parent is set, and it differs from that key's expected slug |
| SlugValidatorV2.BareNameLookupCounterexample | src/backend/validate_database_v2.py:449-455 | the as-written lookup both raises a false alarm and misses a real mismatch on a concrete tree |
| SlugValidatorV2.PairHierarchyIssuesSpec | src/backend/validate_database_v2.py:440-466 | corrected: for a nested directory, an error is reported exactly when the catalog records a parent that, lowercased, is not the expected slug of the real parent directory |
| SlugValidatorV2.RootHasNoHierarchyIssue | src/backend/validate_database_v2.py:453 | a root directory never gets a hierarchy issue |
| SlugValidatorV2.OrphanCategory | src/backend/validate_database_v2.py:327 | the orphan rule reports only "Orphaned DB Entry" issues |
| SlugValidatorV2.MissingCategory | src/backend/validate_database_v2.py:344 | the missing rule reports only "Missing DB Entry" issues |
| SlugValidatorV2.CountCategory | src/backend/validate_database_v2.py:367-402 | the count rule reports only "Count Mismatch" issues |
| SlugValidatorV2.ConfigCategory | src/backend/validate_database_v2.py:426-433 | the config rule reports only "Config Mismatch" issues |
| SlugValidatorV2.HierarchyCategory | src/backend/validate_database_v2.py:457 | the hierarchy rule reports only "Hierarchy Mismatch" issues |
| SlugValidatorV2.NoDuplicateSlugRule | src/backend/validate_database_v2.py:307-317 | the slug-aware validator never reports a duplicate slug: it has no such rule |
| SlugValidatorV2.CompareCounts | src/backend/validate_database_v2.py:363-412 | the count comparison of one matched pair yields exactly the pair's count issues |
| SlugValidatorV2.CompareParents | src/backend/validate_database_v2.py:444-466 | corrected: the parent comparison of one matched pair yields exactly the corrected hierarchy issues |
| SlugValidatorV2.SlugAwareValidator.constructor | src/backend/validate_database_v2.py:275-282 | a new validator keeps both scans, has no issues, and has built the match table |
| SlugValidatorV2.SlugAwareValidator.BuildSlugMatches | src/backend/validate_database_v2.py:284-305 | `_build_slug_matches` leaves the table the match specification gives |
| SlugValidatorV2.SlugAwareValidator.CheckOrphanedDbEntries | src/backend/validate_database_v2.py:319-336 | appends exactly the orphan issues, in catalog order |
| SlugValidatorV2.SlugAwareValidator.CheckMissingDbEntries | src/backend/validate_database_v2.py:338-357 | appends exactly the missing issues, in filesystem order |
| SlugValidatorV2.SlugAwareValidator.CheckCountMismatches | src/backend/validate_database_v2.py:359-412 | appends the count issues of every matched pair, in match order |
| SlugValidatorV2.SlugAwareValidator.CheckConfigMismatches | src/backend/validate_database_v2.py:414-438 | appends the config issues of every matched pair, in match order |
| SlugValidatorV2.SlugAwareValidator.CheckHierarchyValidation | src/backend/validate_database_v2.py:440-466 | corrected: appends the corrected hierarchy issues of every matched pair |
| SlugValidatorV2.SlugAwareValidator.Validate | src/backend/validate_database_v2.py:307-317 | corrected: runs the five rules, the hierarchy rule in its corrected form, in their fixed order and returns the accumulated list |
| SlugValidatorV2.RunValidation | src/backend/validate_database_v2.py:578-618 | corrected: `main()` stops when the content root is missing or the catalog is empty, otherwise validates fresh scans with the corrected hierarchy rule |
| SlugValidatorV2.ValidationSpec | src/backend/validate_database_v2.py:592-618 | nothing is reported exactly when the root is missing or the catalog yields no collection (so a failed API call reports nothing); otherwise every issue is one of the five v2 kinds |
| LegacyValidator.ClassifyAllSpec | validate_database.py:117-137 | the loop records images, videos and every subdirectory in listing order, the last `hero` image and the last readable `config.json` |
| LegacyValidator.ScanTreeNameKeyed | validate_database.py:97-139 | scanning stores every record under its own bare name and keeps the earlier keys |
| LegacyValidator.ScanTreeCovers | validate_database.py:97-139 | a scan adds exactly the bare names of the directories it reaches through successful listings, excluded names included |
| LegacyValidator.ScanItemsCovers | validate_database.py:117-137 | each prefix of the loop adds exactly the names of the subtrees it has scanned |
| LegacyValidator.ScanItemsNameKeyed | validate_database.py:117-137 | each pass of the loop keeps the records keyed by bare name |
| LegacyValidator.ScanRootNameKeyed | validate_database.py:85-95 | the whole scan keys records by bare name |
| LegacyValidator.ScanRootPair | validate_database.py:90-92 | scanning two roots is scanning one after the other |
| LegacyValidator.ScanNested | validate_database.py:133-139 | illustration on one tree: a root holding an empty child stores the child's record, parented by the root, before its own |
| LegacyValidator.SameNameCollapses | validate_database.py:97-139 | illustration on one tree: two directories with the same name collapse into one record, the one scanned last |
| LegacyValidator.SecondScanOverwrites | validate_database.py:139 | illustration on one tree: scanning a second directory holding a same-named child overwrites the child's record in place |
| LegacyValidator.FilesystemScanner.constructor | validate_database.py:81-83 | a new scanner holds no directories |
| LegacyValidator.FilesystemScanner.Scan | validate_database.py:85-95 | `scan()` scans every top-level directory, none excluded, and returns the dictionary |
| LegacyValidator.FilesystemScanner.ScanDirectory | validate_database.py:97-139 | `_scan_directory` leaves the dictionary as the recursive specification says; a path too long adds nothing |
| LegacyValidator.FilesystemScanner.ScanItem | validate_database.py:118-137 | one pass of the loop classifies the entry and scans a subdirectory |
| LegacyValidator.FilesystemScanner.ClassifyFile | validate_database.py:119-132 | the file branch of the loop classifies a file as the step function does |
| LegacyValidator.ProcessCollectionKeyed | validate_database.py:171-208 | processing a collection stores it under its slug, even a missing one, and keeps the earlier keys |
| LegacyValidator.ProcessCollectionStores | validate_database.py:171-208 | processing a collection adds exactly its slug and its fetched descendants', leaves every other record, and stores its own record, built from its payload, unless a descendant has the same slug |
| LegacyValidator.ProcessSubsStore | validate_database.py:196-208 | the subcollection loop adds exactly the slugs of the fetched subcollections' trees and leaves every other record |
| LegacyValidator.ProcessSubsKeyed | validate_database.py:196-208 | the subcollection loop keeps records keyed by slug and keeps the earlier keys |
| LegacyValidator.ProcessAllKeyed | validate_database.py:161-163 | processing every collection keeps records keyed by their slugs |
| LegacyValidator.DatabaseScanner.constructor | validate_database.py:145-147 | a new scanner holds no directories |
| LegacyValidator.DatabaseScanner.Scan | validate_database.py:149-169 | a failed listing returns an empty dictionary; otherwise every collection is processed in order |
| LegacyValidator.DatabaseScanner.Process | validate_database.py:171-208 | `_process_collection` leaves the dictionary as the recursive specification says |
| LegacyValidator.TruthyKeys | validate_database.py:221 | the non-empty slugs are exactly the present, non-empty catalog keys |
| LegacyValidator.LowerMapSpec | validate_database.py:220-221 | the lowercase map holds exactly the lowercase forms of the keys, each mapped to the last key with that form |
| LegacyValidator.LowerMapDomain | validate_database.py:220 | a lowercase form is a key of the map exactly when some key has it |
| LegacyValidator.LowerMapValues | validate_database.py:220 | each value is a key whose lowercase form is its map key |
| LegacyValidator.LowerMapLast | validate_database.py:220 | the value for a lowercase form is the last key with that form |
| LegacyValidator.LowerMapLastAt | validate_database.py:220 | the last key with a lowercase form is the value stored for it |
| LegacyValidator.InLowerMap | validate_database.py:220-243 | the membership test of a lowercase form holds exactly when some key has that form |
| LegacyValidator.OrphanIssuesNext | validate_database.py:240-250 | one more catalog key adds an orphan issue exactly when it is a non-empty slug whose lowercase form is not a directory's |
| LegacyValidator.MissingIssuesNext | validate_database.py:256-271 | one more directory adds a missing issue exactly when its lowercase form has no catalog slug and it is not `.thumbnails` |
| LegacyValidator.OrphanIssuesCount | validate_database.py:240-250 | each such catalog slug is reported exactly once |
| LegacyValidator.OrphanIssuesShape | validate_database.py:244-249 | every orphan issue is an error of category "Orphaned DB Entry" |
| LegacyValidator.OrphanIssuesExact | validate_database.py:220-250 | each non-empty catalog slug whose lowercase form is no directory name's gets exactly one orphan error; missing and empty slugs are skipped |
| LegacyValidator.MissingIssuesCount | validate_database.py:256-271 | each unpaired directory except `.thumbnails` is reported exactly once |
| LegacyValidator.MissingIssuesShape | validate_database.py:261-266 | every missing issue is an error of category "Missing DB Entry" |
| LegacyValidator.MissingIssuesExact | validate_database.py:252-271 | each directory name whose lowercase form is no non-empty catalog slug's gets exactly one missing error, except `.thumbnails` |
| LegacyValidator.PairCountIssuesSpec | validate_database.py:273-324 | every image, video or subcollection count inequality is reported, always as an error |
| LegacyValidator.PairConfigIssuesSpec | validate_database.py:326-367 | a config on one side only, or differing contents, gives one warning; equal configs or none give nothing |
| LegacyValidator.PairHierarchyIssuesSpec | validate_database.py:369-394 | a hierarchy error is reported whenever the lowercased parents differ, including when only one side has one |
| LegacyValidator.PairIssuesSnoc | validate_database.py:278-284 | one more directory adds its pair's issues only when its lowercase form has a catalog slug |
| LegacyValidator.DuplicateIssuesSnoc | validate_database.py:405-413 | one more counted slug adds an error exactly when its count exceeds one |
| LegacyValidator.ReportDuplicates | validate_database.py:405-413 | the reporting loop yields exactly the duplicate issues of the counts, in count order |
| LegacyValidator.CountSlugs | validate_database.py:401-403 | the counting loop yields the occurrence count of every key, in first-seen order |
| LegacyValidator.OccurrencesNext | validate_database.py:402-403 | counting one more key increments its count, adding it last when new |
| LegacyValidator.OccurrencesOfDistinct | validate_database.py:401-403 | counting distinct keys gives every key the count 1 |
| LegacyValidator.NoDuplicatesWhenAllOnes | validate_database.py:405-406 | counts that are all 1 report nothing |
| LegacyValidator.SlugUniquenessNeverFires | validate_database.py:396-413 | the uniqueness rule counts dictionary keys, which are distinct, so it never reports anything |
| LegacyValidator.LinkedMaps | validate_database.py:278-284 | every directory whose lowercase form is in the catalog map is paired with a stored catalog record |
| LegacyValidator.DatabaseValidator.constructor | validate_database.py:214-221 | a new validator keeps both scans, has no issues, and builds both lowercase maps |
| LegacyValidator.DatabaseValidator.CheckOrphanedDbEntries | validate_database.py:236-250 | appends exactly the orphan issues, in catalog order |
| LegacyValidator.DatabaseValidator.CheckMissingDbEntries | validate_database.py:252-271 | appends exactly the missing issues, in directory order |
| LegacyValidator.DatabaseValidator.CheckPairs | validate_database.py:273-394 | the loop shared by the three pairwise rules appends the chosen rule's issues for every paired directory |
| LegacyValidator.DatabaseValidator.CheckCountMismatches | validate_database.py:273-324 | appends the count issues of every paired directory |
| LegacyValidator.DatabaseValidator.CheckConfigMismatches | validate_database.py:326-367 | appends the config issues of every paired directory |
| LegacyValidator.DatabaseValidator.CheckHierarchyValidation | validate_database.py:369-394 | appends the hierarchy issues of every paired directory |
| LegacyValidator.DatabaseValidator.CheckSlugUniqueness | validate_database.py:396-413 | appends the duplicate issues of the key counts |
| LegacyValidator.DatabaseValidator.Validate | validate_database.py:223-234 | runs the six rules in their fixed order and returns the accumulated list |
| LegacyValidator.ComparePair | validate_database.py:285-394 | the body of a pairwise loop yields exactly the chosen rule's issues for the pair |
| LegacyValidator.RunValidation | validate_database.py:484-515 | `main()` stops when the content root is missing or the catalog is empty, otherwise validates fresh scans |
| LegacyValidator.PairCategory | validate_database.py:287-386 | each pairwise rule reports only its own category |
| LegacyValidator.AllIssuesNoDuplicate | validate_database.py:396-413 | of the six rules only the uniqueness rule could report a duplicate slug, and it reports nothing |
| LegacyValidator.ValidationNeverReportsDuplicates | validate_database.py:484-515 | the script reports nothing when the root is missing or the catalog is empty, and otherwise never reports a duplicate slug |
| SlugAnalysis.ChildPartSpec | analyze_validation.py:59-62 | the child part is everything after the first hyphen; a slug without a hyphen has none |
| SlugAnalysis.ChildPartsSpec | analyze_validation.py:56-63 | every extracted pair is a hyphenated input slug with its child part, every hyphenated slug is extracted, and there are no more pairs than slugs |
| SlugAnalysis.CompareSpec | analyze_validation.py:81-89 | the comparison ignores case and hyphen-versus-space, is symmetric, is an exact match iff the normal forms agree, and is a spacing difference only when they agree without spaces but not exactly |
| SlugAnalysis.MatchesOfSpec | analyze_validation.py:83-89 | a row for one child part is in the result exactly when its name compares with it |
| SlugAnalysis.MatchesOfSize | analyze_validation.py:83-89 | one child part gives at most one row per name |
| SlugAnalysis.AllMatchesSpec | analyze_validation.py:78-89 | a row is in `matches` exactly when its slug's child part compares with its name |
| SlugAnalysis.AllMatchesSize | analyze_validation.py:78-89 | there is at most one row per child part and name |
| SlugAnalysis.FsNames | analyze_validation.py:95 | the matched names are exactly the names of the match rows |
| SlugAnalysis.DbSlugs | analyze_validation.py:96 | the matched slugs are exactly the slugs of the match rows |
| SlugAnalysis.AnyContainsSpec | analyze_validation.py:95-96 | `any(part in h ...)` holds exactly when some row's string contains the part as a substring |
| SlugAnalysis.UnmatchedFsAsWrittenSpec | analyze_validation.py:95 | as written, a name is reported unmatched exactly when it is a substring of no matched name |
| SlugAnalysis.UnmatchedDbAsWrittenSpec | analyze_validation.py:96 | as written, a slug is reported unmatched exactly when it is a substring of no matched slug |
| SlugAnalysis.UnmatchedFsSpec | analyze_validation.py:95 | corrected: a name is reported unmatched exactly when it is an input name no match row carries |
| SlugAnalysis.UnmatchedDbSpec | analyze_validation.py:96 | corrected: a slug is reported unmatched exactly when it is an input slug no match row carries |
| SlugAnalysis.SubstringHidesUnmatched | analyze_validation.py:95 | with names `a` and `ab` and the slug `x-ab`, the written filter reports no unmatched name while the intended one reports `a` |
| SlugAnalysis.SubstringExampleMatches | analyze_validation.py:78-89 | in that example only `ab` matches |
| SlugAnalysis.SubstringExampleFilters | analyze_validation.py:95 | in that example the two filters disagree |
| SlugAnalysis.CountConclusionMisleads | analyze_validation.py:111-113 | equal counts do not mean every entry is paired: two slugs matching `A` give two matches for two names and two slugs while `B` matches nothing |
| SlugAnalysis.CountExampleParts | analyze_validation.py:56-63 | the child parts of that example |
| SlugAnalysis.CountExampleMatches | analyze_validation.py:78-89 | the matches of that example: both slugs match `a` |
| SlugAnalysis.CountExampleFilter | analyze_validation.py:95 | in that example `b` stays unmatched |
| SlugAnalysis.AnalysisConclusionSpec | analyze_validation.py:111-120 | corrected: "all the same" exactly when there is a match and every name and slug is paired; "no matches" exactly when there is none |
| SlugAnalysis.Analyze | analyze_validation.py:55-120 | corrected: one run yields the child parts, the matches, the corrected unmatched lists and the corrected conclusion |
| SlugAnalysis.CollectChildParts | analyze_validation.py:56-63 | the first loop yields exactly the child parts |
| SlugAnalysis.MatchAll | analyze_validation.py:78-89 | the nested loops yield exactly all matches, child parts outermost |
| SlugAnalysis.MatchOne | analyze_validation.py:83-89 | the inner loop yields the matches of one child part, in name order |
| SlugAnalysis.ShippedListsNeverAllSame | analyze_validation.py:13-45 | on the shipped lists (13 names, 14 slugs) the written count test can never conclude "all the same" |
| ContentScanning.Extname | src/backend/src/services/ContentScanner.ts:164 | the extension is empty or starts at the last dot, which is not the first character, and ends the name |
| ContentScanning.StemOf | src/backend/src/services/ContentScanner.ts:520 | the stem followed by the extension is the whole name |
| ContentScanning.CollapseRuns | src/backend/src/services/ContentScanner.ts:502 | every run of other characters becomes a single hyphen: only `[a-z0-9-]`, never two hyphens in a row, ending in a hyphen exactly when the input ends in another character |
| ContentScanning.TrimStart | src/backend/src/services/ContentScanner.ts:503 | the result is a suffix not starting with '-', and only hyphens were removed |
| ContentScanning.TrimEnd | src/backend/src/services/ContentScanner.ts:503 | the result is a prefix not ending with '-', and only hyphens were removed |
| ContentScanning.GenerateSlugClean | src/backend/src/services/ContentScanner.ts:498-504 | a generated slug holds only `[a-z0-9-]`, has no hyphen at either end and no "--" |
| ContentScanning.CollapseRunsFixed | src/backend/src/services/ContentScanner.ts:502 | collapsing a string already in collapsed form leaves it unchanged |
| ContentScanning.SlugifyClean | src/backend/src/services/ContentScanner.ts:498-504 | slugging a clean slug returns it unchanged |
| ContentScanning.GenerateSlugIdempotent | src/backend/src/services/ContentScanner.ts:498-504 | generating the slug of a slug returns the same slug |
| ContentScanning.SlugKeepsAlnum | src/backend/src/services/ContentScanner.ts:498-504 | the slug keeps exactly the letters and digits of the lower-cased directory name, in order |
| ContentScanning.FormatTitleShape | src/backend/src/services/ContentScanner.ts:527-531 | a title has the length of its source, no '-' or '_', differs from the spaced source only in letter case, and no word starts with a lower-case letter |
| ContentScanning.FormatTitleIdempotent | src/backend/src/services/ContentScanner.ts:527-531 | formatting a title again changes nothing |
| ContentScanning.ExtractTitleOfFile | src/backend/src/services/ContentScanner.ts:519-522 | the title of a file inside a directory is the formatted stem of its own name |
| ContentScanning.ParseFormats | src/backend/src/services/ContentScanner.ts:70 | every format is lower case and every comma-separated part, lower-cased, is a format |
| ContentScanning.FileExtShape | src/backend/src/services/ContentScanner.ts:164 | the extension compared with the formats is lower case and holds no dot |
| ContentScanning.ClassifySpec | src/backend/src/services/ContentScanner.ts:164-196 | a file is an image exactly when its extension is a supported format, a video when it is otherwise "mp4", a document when it is otherwise "md" or "txt", and skipped otherwise |
| ContentScanning.ClassifyIgnoresCase | src/backend/src/services/ContentScanner.ts:164-166 | upper-case extensions are classified like their lower-case forms |
| ContentScanning.FileExtOfDotted | src/backend/src/services/ContentScanner.ts:164 | the extension of `stem.ext` is `ext` lower-cased, when `ext` holds no dot |
| ContentScanning.ThumbnailPlan | src/backend/src/services/ContentScanner.ts:240-247 | a thumbnail is recorded for a configured size exactly when it is smaller than the image width, at `.thumbnails/<stem>_<size>w.webp` beside the image |
| ContentScanning.ImageFailsOnlyOnError | src/backend/src/services/ContentScanner.ts:211-297 | processing an image fails exactly when the path is not already in progress and one of its calls throws, and the error is the thrown one |
| ContentScanning.StoredRowUrls | src/backend/src/services/ContentScanner.ts:249-283 | a written row has the content hash as id and a URL for 640, 828, 1200 and 1920 exactly when that size is configured and smaller than the image |
| ContentScanning.UnchangedOnlyOnSameHash | src/backend/src/services/ContentScanner.ts:224-233 | an image is skipped as unchanged exactly when its stored row records the same hash; a row without a hash is rewritten |
| ContentScanning.GeneratedConfigSlug | src/backend/src/services/ContentScanner.ts:478-492 | without a config.json the slug is the generated, clean one and the title is the formatted directory name |
| ContentScanning.ScanIsTally | src/backend/src/services/ContentScanner.ts:119-206 | a directory's scan is the sum of what each directory and file it meets contributes: sub-results are added, each failure adds its one error, and the scan goes on after it |
| ContentScanning.ScanReportsNoThumbnails | src/backend/src/services/ContentScanner.ts:121-159 | `thumbnailsGenerated` is never incremented, so every scan reports 0 |
| ContentScanning.ContributionAtMostOneError | src/backend/src/services/ContentScanner.ts:164-196 | each directory or file contributes at most one error, and a file of another kind contributes nothing |
| ContentScanning.ContentScanner.constructor | src/backend/src/services/ContentScanner.ts:59-71 | the scanner starts with the given sizes, the lower-cased formats and nothing in progress |
| ContentScanning.ContentScanner.ProcessImage | src/backend/src/services/ContentScanner.ts:211-297 | the outcome is the specified one for the paths in progress, and the in-progress set is restored on every exit |
| ContentScanning.ContentScanner.ScanDirectory | src/backend/src/services/ContentScanner.ts:119-206 | the loop's result is the specified scan of the directory, and the in-progress set is unchanged |
| ContentScanning.ContentScanner.ScanEntry | src/backend/src/services/ContentScanner.ts:152-198 | one pass of the loop adds the entry's specified effect |
| ContentScanning.ContentScanner.ScanFile | src/backend/src/services/ContentScanner.ts:163-197 | one file adds its specified effect: a count, an error, or nothing |
| ContentScanning.ContentScanner.ScanAll | src/backend/src/services/ContentScanner.ts:76-114 | the result sums the scans of the top-level directories |
| DatabaseService.DirectoryBySlug | src/backend/src/services/DatabaseManager.ts:102-105 | a directory is found exactly when some row has the slug, and the row found has it |
| DatabaseService.DirectoryById | src/backend/src/services/DatabaseManager.ts:107-110 | nothing is found exactly when no row has the id; a row found has it |
| DatabaseService.WherePlaceholders | src/backend/src/services/DatabaseManager.ts:83-95 | the WHERE clause holds one `?` per condition |
| DatabaseService.DirectoriesQueryPlaceholders | src/backend/src/services/DatabaseManager.ts:77-99 | the query has exactly as many `?` as arguments |
| DatabaseService.DirectoriesParamsAligned | src/backend/src/services/DatabaseManager.ts:83-91 | the i-th argument belongs to the i-th condition: the status text, or 1/0 for featured |
| DatabaseService.DirectoriesQueryWhere | src/backend/src/services/DatabaseManager.ts:83-95 | a WHERE clause appears exactly when a non-empty status or a featured flag is given |
| DatabaseService.DirectoriesQueryOrdered | src/backend/src/services/DatabaseManager.ts:97 | every query ends in the menu-order clause |
| DatabaseService.InitialCounts | src/backend/src/services/DatabaseManager.ts:346-357 | the counts start with the eight reaction types and `total`, all 0 |
| DatabaseService.GetReactionCounts | src/backend/src/services/DatabaseManager.ts:340-366 | the loop yields the specified counts |
| DatabaseService.AddRowCount | src/backend/src/services/DatabaseManager.ts:360-363 | one pass sets the row's type to its count and adds it to the total |
| DatabaseService.ReactionCountsNext | src/backend/src/services/DatabaseManager.ts:360-363 | the counts after one more row are one step from the counts before it |
| DatabaseService.ReactionCountsTotal | src/backend/src/services/DatabaseManager.ts:356-363 | `total` is the sum of the counts of all rows |
| DatabaseService.ReactionCountsKeys | src/backend/src/services/DatabaseManager.ts:346-363 | a type has an entry exactly when it is one of the eight types or some row has it |
| DatabaseService.ReactionCountsValues | src/backend/src/services/DatabaseManager.ts:346-363 | each type's entry is the count of its last row, or 0 |
| DatabaseService.SessionColumn | src/backend/src/services/DatabaseManager.ts:338 | the session column is set exactly when a non-empty session id is given, and then holds it |
| DatabaseService.RowsWithoutIdMembers | src/backend/src/services/DatabaseManager.ts:332 | removing an id keeps exactly the rows with another id |
| DatabaseService.InsertOrReplaceSpec | src/backend/src/services/DatabaseManager.ts:329-339 | after the insert the new row is the only one with its id, and every row with another id is kept |
| DatabaseService.AddReactionIdempotent | src/backend/src/services/DatabaseManager.ts:329-339 | reacting twice with the same image, viewer and type leaves the table as reacting once |
| DatabaseService.ReactionIdInjective | src/backend/src/services/DatabaseManager.ts:337 | when the hash and the type hold no hyphen, the reaction id determines the image, the hash and the type |
| DatabaseService.SpreadSpec | src/backend/src/services/DatabaseManager.ts:151 | the merged config keeps every current key, and the metadata's values override |
| DatabaseService.SetConfig | src/backend/src/services/DatabaseManager.ts:153-154 | only rows with the id get the new config |
| DatabaseService.MetadataUpdateMissing | src/backend/src/services/DatabaseManager.ts:147-154 | a missing directory leaves the table unchanged |
| DatabaseService.MetadataUpdateThrows | src/backend/src/services/DatabaseManager.ts:147-148 | the update throws exactly when the directory exists and its stored config does not parse |
| DatabaseService.MetadataUpdateMerges | src/backend/src/services/DatabaseManager.ts:144-155 | only that directory's config changes: to the stored config (`{}` when blank) with the metadata's keys overriding |
| DatabaseService.PublishedIn | src/backend/src/services/DatabaseManager.ts:200 | exactly the published images of that directory |
| DatabaseService.SortPermutes | src/backend/src/services/DatabaseManager.ts:200 | sorting by position keeps every image, each as often |
| DatabaseService.SortSorted | src/backend/src/services/DatabaseManager.ts:200 | the sorted images are in position order |
| DatabaseService.SqlWindow | src/backend/src/services/DatabaseManager.ts:208-209 | `LIMIT l OFFSET o` yields at most `l` rows, taken consecutively from the offset (a negative offset counts as 0) |
| DatabaseService.ImagesByDirectoryRows | src/backend/src/services/DatabaseManager.ts:193-211 | only published images of that directory are returned |
| DatabaseService.ImagesByDirectoryAll | src/backend/src/services/DatabaseManager.ts:196-202 | without a limit every published image of the directory is returned, each once |
| DatabaseService.ImagesByDirectorySorted | src/backend/src/services/DatabaseManager.ts:193-211 | the images come in position order, with or without a window |
| DatabaseService.ThumbnailsUpdated | src/backend/src/services/DatabaseManager.ts:264-283 | only rows with the id change |
| DatabaseService.ThumbnailsUpdatedSpec | src/backend/src/services/DatabaseManager.ts:264-283 | only the matching image changes, and only in its thumbnail, medium and large URLs and its EXIF column; an absent URL becomes NULL and an absent EXIF object `{}` |
| DatabaseService.DatabaseManager.constructor | src/backend/src/services/DatabaseManager.ts:22-27 | the store starts with the given tables |
| DatabaseService.DatabaseManager.GetDirectoriesQuery | src/backend/src/services/DatabaseManager.ts:77-99 | the query built step by step is the specified one |
| DatabaseService.DatabaseManager.AddReaction | src/backend/src/services/DatabaseManager.ts:329-339 | the reactions table gets the row inserted or replaced; the other tables are unchanged |
| DatabaseService.DatabaseManager.UpdateDirectoryMetadata | src/backend/src/services/DatabaseManager.ts:144-155 | it throws exactly when the stored config is malformed, leaving the tables; otherwise the directories are the specified update |
| DatabaseService.DatabaseManager.UpdateImageThumbnails | src/backend/src/services/DatabaseManager.ts:264-283 | the images are the specified update; the other tables are unchanged |
| ContentRoutes.JsSlice | src/backend/src/routes/content.ts:109 | on a non-negative range `slice` clamps both ends to the length |
| ContentRoutes.LimitAsWritten | src/backend/src/routes/content.ts:89 | as written the limit is at most 50 and never 0 (`parseInt` giving 0 falls back to 20) |
| ContentRoutes.NegativeLimitOverflows | src/backend/src/routes/content.ts:89-109 | as written `?limit=-3` on ten images answers seven of them under a limit of -3 |
| ContentRoutes.NegativePageWraps | src/backend/src/routes/content.ts:88-109 | as written `?page=-1&limit=4` on ten images answers images 2 to 5 |
| ContentRoutes.PageParam | src/backend/src/routes/content.ts:88 | corrected: the page is at least 1 and is the requested one whenever that is at least 1 |
| ContentRoutes.LimitParam | src/backend/src/routes/content.ts:89 | corrected: the limit lies in 1..50 and is the requested one, capped at 50, whenever that is at least 1 |
| ContentRoutes.PaginateAgrees | src/backend/src/routes/content.ts:88-114 | the corrected pagination agrees with the written one on every non-negative page and limit |
| ContentRoutes.PageWindow | src/backend/src/routes/content.ts:108-109 | a page holds the images from its non-negative offset on, at most `limit` of them |
| ContentRoutes.HasNextIffMore | src/backend/src/routes/content.ts:112-113 | there is a next page exactly when images remain after this one |
| ContentRoutes.EveryImageOnItsPage | src/backend/src/routes/content.ts:106-110 | image `i` is on page `i / limit + 1` at position `i % limit` |
| ContentRoutes.GalleryOf | src/backend/src/routes/content.ts:129-145 | one gallery item per image, in order |
| ContentRoutes.ListCollections | src/backend/src/routes/content.ts:31-79 | the handler either answers or throws, never a 404 |
| ContentRoutes.ListCollectionsSpec | src/backend/src/routes/content.ts:41-73 | it throws exactly when some row's JSON does not parse; otherwise one summary per row with its slug, no videos or subcollections, a missing image count as 0, and `hasConfig` exactly when the config has a key |
| ContentRoutes.GetCollectionSpec | src/backend/src/routes/content.ts:82-173 | corrected: an unknown slug is a 404; otherwise the gallery is the requested page, from a non-negative offset, of the directory's published images, each a video exactly when its format is mp4 |
| ContentRoutes.CollectionImagesAgree | src/backend/src/routes/content.ts:176-253 | the images handler never throws and answers the same gallery and pagination whenever the collection handler succeeds |
| ContentRoutes.FeaturedOnly | src/backend/src/routes/content.ts:277 | exactly the featured directories |
| ContentRoutes.TotalImagesSplits | src/backend/src/routes/content.ts:280 | the total image count is the featured directories' total plus the others' |
| ContentRoutes.ListDirectoriesSpec | src/backend/src/routes/content.ts:256-297 | once the database is open, the directory list keeps every row in order, each featured exactly when its flag is non-zero, and `featured` is exactly its featured members |
| ContentRoutes.GetDirectorySpec | src/backend/src/routes/content.ts:300-373 | once the database is open, an unknown slug is a 404; otherwise all of the directory's published images, each once, with no carousels |
| ContentRoutes.ImageById | src/backend/src/routes/content.ts:381-382 | nothing is found exactly when no image has the id; an image found has it |
| ContentRoutes.GetImageSpec | src/backend/src/routes/content.ts:376-449 | once the database is open and the stored JSON columns parse, an unknown id is a 404; otherwise the alt text falls back to the title exactly when it is missing or empty, and the reactions hold all eight types |
| PosixPath.Normalize | src/backend/src/routes/media.ts:90-119 | a normalized path has no empty, `.` or `..` segment |
| PosixPath.NormalizeNext | src/backend/src/routes/media.ts:119 | normalizing one more segment is one step from the normalized prefix |
| PosixPath.NormalizeClean | src/backend/src/routes/media.ts:119 | normalizing a path already in normal form leaves it unchanged |
| PosixPath.NormalizeIdempotent | src/backend/src/routes/media.ts:119 | normalizing twice is normalizing once |
| PosixPath.NormalizeKeepsRoot | src/backend/src/routes/media.ts:90-122 | segments without `..` appended to a normal path never climb above it |
| PosixPath.RenderPrefix | src/backend/src/routes/media.ts:122 | a path under a root, written out, starts with the written root |
| MediaRoutes.ParseSizeSpec | src/backend/src/routes/media.ts:25-33 | a size is accepted exactly when it is one of the seven names or a name `Object.prototype` supplies, is the original exactly when it is `original`, and is an inherited member exactly for those names |
| MediaRoutes.ToStringIsInherited | src/backend/src/routes/media.ts:69 | `size=toString` passes the `in` test and its suffix is the text of the inherited function |
| MediaRoutes.InheritedSizeFallsBack | src/backend/src/routes/media.ts:60-116 | an image requested at `size=toString` is not refused, and is served from the original when no thumbnail of that name is accessible |
| MediaRoutes.SuffixIsWidth | src/backend/src/routes/media.ts:25-31 | every thumbnail suffix is `_<width>w` for its width |
| MediaRoutes.MimeOf | src/backend/src/routes/media.ts:38-47 | an extension gives an image type exactly for the six image extensions, a video type exactly for mp4 and webm, and octet-stream otherwise |
| MediaRoutes.ImagePrefix | src/backend/src/routes/media.ts:88 | a MIME text starts with `image/` exactly for image types |
| MediaRoutes.StatAnswer | src/backend/src/routes/media.ts:136-189 | a regular file is served, another entry is FILE_NOT_FOUND, a missing one IMAGE_NOT_FOUND, and a failing stat is passed on |
| MediaRoutes.DefaultIsOriginal | src/backend/src/routes/media.ts:64 | without a size the original is requested |
| MediaRoutes.TraversalToSibling | src/backend/src/routes/media.ts:60-122 | as written, under `<base>/<d>` the request with slug `..` and subdirectory `<d><more>` serves a file outside the content directory |
| MediaRoutes.SiblingPassesPrefix | src/backend/src/routes/media.ts:122 | as written, a sibling directory whose name extends the content directory's passes the string-prefix guard |
| MediaRoutes.UpperCaseExtensionKept | src/backend/src/routes/media.ts:78-94 | as written, `IMG.JPG` keeps its extension in the thumbnail name, while the scanner writes `IMG_640w.webp` |
| MediaRoutes.ServedInside | src/backend/src/routes/media.ts:118-133 | corrected: a served file is inside the content directory, compared segment by segment, and so passes the written guard too |
| MediaRoutes.InvalidSizeFirst | src/backend/src/routes/media.ts:68-75 | a size outside the seven names and the inherited `Object.prototype` names is refused first, whatever the filesystem holds, in both versions |
| MediaRoutes.ForbiddenReadsNothing | src/backend/src/routes/media.ts:118-137 | a refused path is refused whatever `fs.stat` would say |
| MediaRoutes.MediaFileIgnoresStat | src/backend/src/routes/media.ts:86-116 | the file chosen depends on `fs.access` alone |
| MediaRoutes.OriginalWhenNotThumbnail | src/backend/src/routes/media.ts:88-90 | the original is served at size `original` and for anything that is not an image |
| MediaRoutes.ThumbnailWhenAccessible | src/backend/src/routes/media.ts:91-116 | corrected: an image at a thumbnail size comes from `.thumbnails`, under the scanner's thumbnail name, when that file is accessible, and from the original otherwise |
| MediaRoutes.ServesMediaFile | src/backend/src/routes/media.ts:118-189 | corrected: a valid request is forbidden exactly when the chosen file is outside the content directory, compared segment by segment, and a regular file inside is served with its type |
| MediaRoutes.PlainRequestsAdmitted | src/backend/src/routes/media.ts:86-133 | a request without `..` or slashes in its parts is never forbidden |
| MediaRoutes.PlainRequestsAdmittedAsWritten | src/backend/src/routes/media.ts:86-133 | nor is it by the written guard |
| MediaRoutes.GalleryRouteRedundant | src/backend/src/routes/media.ts:324-435 | the gallery handler answers as the subdirectory handler does with subdirectory `gallery` |
| MediaRoutes.SameFileSameAnswer | src/backend/src/routes/media.ts:60-322 | two routes settling on the same file for the size give the same answer |
| MediaRoutes.GalleryRouteUnreachable | src/backend/src/routes/media.ts:330 | no request reaches the gallery handler: three parameters always match the subdirectory route registered first |
| MediaRoutes.ThumbnailMatchesScanner | src/backend/src/routes/media.ts:94-99 | corrected: the thumbnail a size names is the file the scanner writes for that width |
| SocialRoutes.ValidateReactionSpec | src/backend/src/routes/social.ts:49-66 | a reaction is rejected as invalid exactly when a field is missing or empty, rejected for its type exactly when that is not one of the eight, and accepted otherwise |
| SocialRoutes.ClientIp | src/backend/src/routes/social.ts:68 | the address hashed is never empty and is the request's own whenever it has one |
| SocialRoutes.DefaultSaltNeverUsed | src/backend/src/routes/social.ts:38 | as written `ip + IP_SALT` is always truthy, so an unset salt hashes `ip + "undefined"` and the default salt is never used |
| SocialRoutes.HashInput | src/backend/src/routes/social.ts:38 | corrected: the address followed by the salt, or by `default-salt` when it is unset or empty |
| SocialRoutes.HashInputAgreement | src/backend/src/routes/social.ts:38 | the two agree whenever a salt is set, and differ whenever it is not |
| SocialRoutes.PostReactionSpec | src/backend/src/routes/social.ts:45-107 | corrected: an accepted reaction answers the id of the row it stores, whose hash is the digest of the address followed by the salt or `default-salt`; that row is the only one with its id and every other row stays; a rejected one gives the validation error |
| SocialRoutes.PostReactionTwice | src/backend/src/routes/social.ts:68-73 | posting the same reaction twice leaves the table as posting it once |
| SocialRoutes.TopOf | src/backend/src/routes/social.ts:121-123 | the top reaction is one of the keys and never `total` |
| SocialRoutes.TopOfNone | src/backend/src/routes/social.ts:121-130 | there is no top reaction exactly when every key is `total` |
| SocialRoutes.TopOfMaximal | src/backend/src/routes/social.ts:121-123 | no key other than `total` has a larger count than the top one, and every key before it has a smaller one, as the stable sort leaves it |
| SocialRoutes.TopReactionNeverNull | src/backend/src/routes/social.ts:118-130 | the counts always hold the eight types, so the top reaction is never null |
| SocialRoutes.LastChars | src/backend/src/routes/social.ts:168 | `substr(-8)` keeps the last eight characters, or all of a shorter string |
| SocialRoutes.ConfirmationCodeSpec | src/backend/src/routes/social.ts:168 | the code is the id's last eight characters (all of a shorter id), upper-cased |
| SocialRoutes.PostInquirySpec | src/backend/src/routes/social.ts:144-172 | an inquiry is accepted exactly when image, type and e-mail are given, with the id and the code derived from it |
| SocialRoutes.ConfirmationFromRandom | src/backend/src/routes/social.ts:162-168 | with a random part of eight or more characters the code is that part's last eight, upper-cased |
| SocialRoutes.PostShareSpec | src/backend/src/routes/social.ts:183-217 | a share is accepted exactly when image and platform are given; the link is the image's page and carries `?carousel=<id>` exactly when a carousel is given |
| ConfigLoading.ConfigFileSpec | src/backend/src/utils/config-loader.ts:58-71 | a SITE_CONFIG ending in `.json` is used as it is, any other value X names `site-config.X.json`, an unset or empty one `site-config.json`; the name always ends in `.json` |
| ConfigLoading.ProjectRoot | src/backend/src/utils/config-loader.ts:54 | the project root is a normalized path |
| ConfigLoading.ReadConfigSpec | src/backend/src/utils/config-loader.ts:73-92 | the chosen file wins when it parses, the development file is used only when it does not, and the load throws exactly when neither parses |
| ConfigLoading.ResolvePathSpec | src/backend/src/utils/config-loader.ts:107-115 | a resolved path is absolute, and an absolute one is kept as it is |
| ConfigLoading.ResolvePathIdempotent | src/backend/src/utils/config-loader.ts:107-115 | resolving a resolved path changes nothing, whatever the root |
| ConfigLoading.ResolvePathUnderRoot | src/backend/src/utils/config-loader.ts:113 | a relative path without `..` resolves to a path under the project root |
| ConfigLoading.ResolveConfigSpec | src/backend/src/utils/config-loader.ts:94-98 | a configuration missing any of the four paths throws; one that loads has all four absolute and keeps its other members |
| ConfigLoading.LoadAbsoluteIgnoresRoot | src/backend/src/utils/config-loader.ts:47-102 | a configuration whose paths are all absolute loads unchanged from any module directory |
| ConfigLoading.ConfigLoader.constructor | src/backend/src/utils/config-loader.ts:35 | the cache starts empty |
| ConfigLoading.ConfigLoader.LoadSiteConfig | src/backend/src/utils/config-loader.ts:47-102 | a cached configuration is returned unchanged; otherwise the result is a fresh load, cached exactly when it succeeds |
| ConfigLoading.ConfigLoader.GetConfigValue | src/backend/src/utils/config-loader.ts:120-123 | the value is the key's member of the cached or freshly loaded configuration, or the load's error |
| ConfigLoading.ConfigLoader.ClearConfigCache | src/backend/src/utils/config-loader.ts:128-130 | the cache is empty afterwards |
| ConfigLoading.LoadTwice | src/backend/src/utils/config-loader.ts:48-50 | once a load succeeds a second one returns the same configuration, whatever the files then hold |
| CarouselState.NextPreviousInverse | src/frontend/src/components/Carousel/hooks/useCarouselState.ts:133-144 | inside the carousel, next and previous stay inside it and undo each other |
| CarouselState.GoToSpec | src/frontend/src/components/Carousel/hooks/useCarouselState.ts:86-108 | an admitted navigation starts a transition from the current index, forward exactly when the index grows, and auto-pauses only on manual navigation with both durations non-zero |
| CarouselState.ToggleSpec | src/frontend/src/components/Carousel/hooks/useCarouselState.ts:211-241 | toggling flips the pause and clears the auto-pause; toggling a playing carousel twice restores it |
| CarouselState.CycleSpeedPeriod | src/frontend/src/components/Carousel/hooks/useCarouselState.ts:250-256 | cycling visits slow, medium, fast and very fast and returns after four steps; any other preset goes to slow |
| CarouselState.AutoplayNeverAutoPauses | src/frontend/src/components/Carousel/hooks/useCarouselState.ts:261-271 | an autoplay step never auto-pauses, so autoplay goes on after the transition completes |
| CarouselState.AutoplayDelaySpec | src/frontend/src/components/Carousel/hooks/useCarouselState.ts:261-271 | a scheduled step waits the prop under `custom` and the preset's duration otherwise; only `ultraFast` and `blazing`, which have no duration, give no delay, and after cycling the speed every step waits at least 1.5 seconds |
| CarouselState.EmptyCarouselStartsTransition | src/frontend/src/components/Carousel/hooks/useCarouselState.ts:87-134 | as written, with no images `next()` computes `NaN`, which passes both guards and starts a transition |
| CarouselState.NextStaysInside | src/frontend/src/components/Carousel/hooks/useCarouselState.ts:133-136 | corrected: an empty carousel admits no navigation, and a non-empty one's next index lies inside it |
| CarouselState.Carousel.constructor | src/frontend/src/components/Carousel/hooks/useCarouselState.ts:26-48 | the carousel starts at index 0, medium speed, no transition or timer |
| CarouselState.Carousel.GoTo | src/frontend/src/components/Carousel/hooks/useCarouselState.ts:86-130 | a refused navigation changes nothing; an admitted one starts the transition to the index, arming the auto-pause timer on manual navigation |
| CarouselState.Carousel.CompleteTransition | src/frontend/src/components/Carousel/hooks/useCarouselState.ts:116-122 | the pending index becomes current and the transition ends |
| CarouselState.Carousel.EndAutoPause | src/frontend/src/components/Carousel/hooks/useCarouselState.ts:79-83 | the auto-pause ends and its timer is cleared |
| CarouselState.Carousel.Next | src/frontend/src/components/Carousel/hooks/useCarouselState.ts:133-136 | corrected: next starts the transition to the following index with wrap-around, with the pending target and auto-pause timer `goTo` sets, when `goTo` admits it, and otherwise, or on an empty carousel, changes nothing |
| CarouselState.Carousel.Previous | src/frontend/src/components/Carousel/hooks/useCarouselState.ts:139-144 | previous starts the transition to the preceding index with wrap-around, with the pending target and auto-pause timer `goTo` sets, when `goTo` admits it, and otherwise, or with fewer than two images, changes nothing |
| CarouselState.Carousel.Pause | src/frontend/src/components/Carousel/hooks/useCarouselState.ts:211-222 | pausing sets the pause, clears the auto-pause and its timer |
| CarouselState.Carousel.Resume | src/frontend/src/components/Carousel/hooks/useCarouselState.ts:225-232 | resuming clears the pause, the auto-pause and its timer |
| CarouselState.Carousel.ToggleAutoplay | src/frontend/src/components/Carousel/hooks/useCarouselState.ts:235-241 | toggling resumes a paused carousel and pauses a playing one |
| CarouselState.Carousel.SetSpeed | src/frontend/src/components/Carousel/hooks/useCarouselState.ts:244-247 | only the speed changes |
| CarouselState.Carousel.CycleSpeedPreset | src/frontend/src/components/Carousel/hooks/useCarouselState.ts:250-256 | only the speed changes, to the next preset |
| CarouselState.Carousel.ToggleFullscreen | src/frontend/src/components/Carousel/hooks/useCarouselState.ts:197-207 | in browser mode only the fullscreen flag flips |
| CarouselState.Carousel.AutoplayTick | src/frontend/src/components/Carousel/hooks/useCarouselState.ts:261-271 | corrected: the autoplay timer starts the transition to the next index without auto-pausing when `goTo` admits it, and otherwise, or on an empty carousel, changes nothing |
| CarouselState.Carousel.HandleKey | src/frontend/src/components/Carousel/hooks/useCarouselState.ts:309-336 | corrected: ArrowLeft has exactly the outcome of previous and ArrowRight that of next (corrected for an empty carousel), Escape leaves browser fullscreen only when in it, Space toggles autoplay and clears the auto-pause timer, and other keys change nothing |
| ReferenceCarousel.NextPreviousRoundTrip | src/frontend/src/components/ReferenceCarousel/ReferenceCarousel.tsx:28-34 | next and previous stay inside the carousel and undo each other |
| ReferenceCarousel.AgreesWithCarousel | src/frontend/src/components/ReferenceCarousel/ReferenceCarousel.tsx:28-34 | the reference carousel steps exactly as the main carousel state does |
| ReferenceCarousel.NextTimesOffset | src/frontend/src/components/ReferenceCarousel/ReferenceCarousel.tsx:32-34 | k steps forward from i land on i + k, wrapped once |
| ReferenceCarousel.FullCycle | src/frontend/src/components/ReferenceCarousel/ReferenceCarousel.tsx:32-34 | as many steps forward as there are images return to the start |
| ReferenceCarousel.Opacity | src/frontend/src/components/ReferenceCarousel/ReferenceCarousel.tsx:51 | a slide is opaque exactly when it is the current one, and transparent otherwise |
| ReferenceCarousel.OneVisible | src/frontend/src/components/ReferenceCarousel/ReferenceCarousel.tsx:46-53 | exactly one slide is visible when the index is inside the carousel, none otherwise |
| ReferenceCarousel.Carousel.constructor | src/frontend/src/components/ReferenceCarousel/ReferenceCarousel.tsx:26 | the carousel starts at the first image |
| ReferenceCarousel.Carousel.GoToPrevious | src/frontend/src/components/ReferenceCarousel/ReferenceCarousel.tsx:28-30 | the index moves back with wrap-around |
| ReferenceCarousel.Carousel.GoToNext | src/frontend/src/components/ReferenceCarousel/ReferenceCarousel.tsx:32-34 | the index moves forward with wrap-around |
| ReferenceCarousel.Carousel.GoToSlide | src/frontend/src/components/ReferenceCarousel/ReferenceCarousel.tsx:36-38 | the index becomes the chosen one |
| ReferenceCarousel.Carousel.CounterText | src/frontend/src/components/ReferenceCarousel/ReferenceCarousel.tsx:107 | the counter shows the one-based position and the image count |
| ImagePreloading.JsRem | src/frontend/src/components/Carousel/hooks/useImagePreloader.ts:78-113 | JavaScript's `%` keeps the dividend's sign: a remainder in `0..n-1` for a non-negative dividend, in `-(n-1)..0` otherwise |
| ImagePreloading.WindowSpec | src/frontend/src/components/Carousel/hooks/useImagePreloader.ts:77-118 | a source is in a window exactly when some offset in it lands on that source |
| ImagePreloading.NeighbourInside | src/frontend/src/components/Carousel/hooks/useImagePreloader.ts:78-113 | inside the carousel every offset down to minus its length wraps onto an image |
| ImagePreloading.RequestedAreKept | src/frontend/src/components/Carousel/hooks/useImagePreloader.ts:106-130 | the neighbours requested are among those kept, so the clean-up never undoes a preload |
| ImagePreloading.Preloader.constructor | src/frontend/src/components/Carousel/hooks/useImagePreloader.ts:28-36 | the preloader starts with no interaction and nothing loaded or loading |
| ImagePreloading.Preloader.PreloadImage | src/frontend/src/components/Carousel/hooks/useImagePreloader.ts:41-48 | a source already loaded or loading is left alone; any other starts loading |
| ImagePreloading.Preloader.LoadSucceeded | src/frontend/src/components/Carousel/hooks/useImagePreloader.ts:52-57 | a finished load moves the source from loading to loaded |
| ImagePreloading.Preloader.LoadFailed | src/frontend/src/components/Carousel/hooks/useImagePreloader.ts:59-63 | a failed load only stops loading the source |
| ImagePreloading.Preloader.UnloadDistantImages | src/frontend/src/components/Carousel/hooks/useImagePreloader.ts:72-101 | the loaded set keeps exactly the sources within three positions of the current one |
| ImagePreloading.Preloader.PreloadAdjacentImages | src/frontend/src/components/Carousel/hooks/useImagePreloader.ts:106-131 | when enabled and not empty, the requested neighbours start loading and the distant sources are unloaded; otherwise nothing changes |
| ImagePreloading.Preloader.HandleFirstInteraction | src/frontend/src/components/Carousel/hooks/useImagePreloader.ts:136-142 | the first interaction of an enabled preloader marks it interacted and, with images, requests the window's images not yet loaded and keeps only the loaded ones inside the window; later ones, or a disabled preloader, change nothing |
| ImagePreloading.Preloader.Navigated | src/frontend/src/components/Carousel/hooks/useImagePreloader.ts:169-173 | before any interaction nothing is loaded; after it, an enabled preloader with images requests the new window's images not yet loaded and keeps only the loaded ones inside it; a navigation never changes the interaction flag |
| ImagePreloading.Preloader.Unmount | src/frontend/src/components/Carousel/hooks/useImagePreloader.ts:178-184 | unmounting empties both sets |
| ImagePreloading.Preloader.PreloadedCount | src/frontend/src/components/Carousel/hooks/useImagePreloader.ts:188 | the count is 0 exactly when nothing is loaded |
| Transitions.Keys | src/frontend/src/components/Carousel/transitions/index.ts:76 | the keys of the registry, one per entry, in order |
| Transitions.LookupFinds | src/frontend/src/components/Carousel/transitions/index.ts:56 | a lookup fails exactly when the key is not registered |
| Transitions.LookupFirst | src/frontend/src/components/Carousel/transitions/index.ts:56 | a lookup returns the handler of the first entry with the key |
| Transitions.RegistryContents | src/frontend/src/components/Carousel/transitions/index.ts:43-48 | the registry holds fade, slide, zoom and flip, with flip falling back to the fade handler |
| Transitions.UnregisteredFallsBack | src/frontend/src/components/Carousel/transitions/index.ts:55-61 | an unregistered type gets the fade handler, except a name `Object.prototype` supplies, which yields that inherited member |
| Transitions.PrototypeNamesReachMembers | src/frontend/src/components/Carousel/transitions/index.ts:55-61 | each name `Object.prototype` supplies reaches the inherited member instead of a handler |
| Transitions.AvailableTransitions | src/frontend/src/components/Carousel/transitions/index.ts:75-77 | the available transitions are the registry's keys in order |
| Transitions.MetadataOf | src/frontend/src/components/Carousel/transitions/index.ts:84-87 | one metadata entry per registry entry, carrying its key and its handler's name |
| Transitions.TransitionMetadata | src/frontend/src/components/Carousel/transitions/index.ts:83-88 | one metadata entry per available transition, in order, carrying its key |
| Transitions.SlideStyle | src/frontend/src/components/Carousel/transitions/SlideTransition.ts:20-40 | the active slide is opaque, in place, clickable and on top; an inactive one is hidden, inert, below, and off to the left exactly when moving forward |
| Transitions.SlideVisibility | src/frontend/src/components/Carousel/transitions/SlideTransition.ts:35-39 | a slide is opaque, clickable and raised exactly when it is active |
| ReactionsStub.SumPut | src/frontend/src/lib/api/reactions-stub.ts:55 | changing one count changes the total by the difference |
| ReactionsStub.SumRemoveZero | src/frontend/src/lib/api/reactions-stub.ts:140-141 | deleting a zero count leaves the total |
| ReactionsStub.Added | src/frontend/src/lib/api/reactions-stub.ts:50-51 | adding raises that emoji's count by one and no other |
| ReactionsStub.Removed | src/frontend/src/lib/api/reactions-stub.ts:136-144 | removing lowers a positive count by one, deletes it when it reaches 0, leaves every other emoji, and leaves an absent one alone |
| ReactionsStub.TotalAdded | src/frontend/src/lib/api/reactions-stub.ts:55 | adding raises the total by one |
| ReactionsStub.TotalRemoved | src/frontend/src/lib/api/reactions-stub.ts:147 | removing lowers the total by one exactly when the emoji had a count |
| ReactionsStub.AddThenRemoveCounts | src/frontend/src/lib/api/reactions-stub.ts:40-167 | adding then removing restores every count |
| ReactionsStub.AddThenRemove | src/frontend/src/lib/api/reactions-stub.ts:40-167 | adding then removing restores the stored record itself, key order included, when the emoji was absent or positive |
| ReactionsStub.Seeded | src/frontend/src/lib/api/reactions-stub.ts:97-102 | a seeded record holds exactly the four seed emoji |
| ReactionsStub.Store.constructor | src/frontend/src/lib/api/reactions-stub.ts:31 | the store starts empty |
| ReactionsStub.Store.CountsOf | src/frontend/src/lib/api/reactions-stub.ts:136 | an image's counts, `{}` when it has none, are a well-formed record |
| ReactionsStub.Store.AddReaction | src/frontend/src/lib/api/reactions-stub.ts:40-78 | the image's record gets the emoji one higher, and the answer is the new count and the total one higher |
| ReactionsStub.Store.RemoveReaction | src/frontend/src/lib/api/reactions-stub.ts:126-167 | an absent emoji leaves the store; a present one is removed once; the answer is the new count and the total lowered accordingly |
| ReactionsStub.Store.GetReactions | src/frontend/src/lib/api/reactions-stub.ts:86-117 | stored counts are answered unchanged; an unknown image gets the seeded counts, which are stored |
| ReactionsStub.Store.Clear | src/frontend/src/lib/api/reactions-stub.ts:172-175 | the store is empty afterwards |
| Toasts.Newest | src/frontend/src/components/Lightboard/ToastContext.tsx:50-51 | keeping the newest `n` is a suffix of the list of length `min(|s|, n)` |
| Toasts.WithoutId | src/frontend/src/components/Lightboard/ToastContext.tsx:62-64 | a toast survives `hideToast` exactly when it was shown and its id differs; the list never grows |
| Toasts.WithoutIdOrdered | src/frontend/src/components/Lightboard/ToastContext.tsx:62-64 | hiding a toast keeps the others in their order (the result is a subsequence) |
| Toasts.HideUnknown | src/frontend/src/components/Lightboard/ToastContext.tsx:62-64 | hiding an id no toast carries leaves the list unchanged |
| Toasts.Shown | src/frontend/src/components/Lightboard/ToastContext.tsx:38-51 | the new toast is last, at most five are kept, and the kept older ones are the newest of the previous list |
| Toasts.ToastProvider.constructor | src/frontend/src/components/Lightboard/ToastContext.tsx:41-42 | the provider starts with no toasts and no timers |
| Toasts.ToastProvider.ShowToast | src/frontend/src/components/Lightboard/ToastContext.tsx:39-60 | a missing duration is 3000; the toast is appended with the five-toast cap; a timer is set only for a positive duration |
| Toasts.ToastProvider.HideToast | src/frontend/src/components/Lightboard/ToastContext.tsx:62-64 | the list loses exactly the toasts with that id; the timers are untouched |
| Toasts.ToastProvider.DismissalFires | src/frontend/src/components/Lightboard/ToastContext.tsx:55-59 | a timer that fires hides its toast and is itself consumed |
| Virtualization.WithDefaults | src/frontend/src/hooks/useCarouselVirtualization.ts:83-90 | missing options default to 4 initially loaded, 4 per increment and 10 active; given ones are kept |
| Virtualization.CentredBounds | src/frontend/src/hooks/useCarouselVirtualization.ts:154-163 | a recentred window lies inside the list and holds at most `maxActive` carousels |
| Virtualization.SpanOfSpec | src/frontend/src/hooks/useCarouselVirtualization.ts:137-151 | no span exactly when no carousel is near; otherwise the span's ends are near carousels and every near carousel lies within it |
| Virtualization.RecentredNearViewport | src/frontend/src/hooks/useCarouselVirtualization.ts:154-163 | when too many carousels are near, the new window stays within the near span and holds at most `maxActive` |
| Virtualization.VisibleCarouselUnloaded | src/frontend/src/hooks/useCarouselVirtualization.ts:134-163 | as written, a window 0..12 with only carousel 11 near is moved to 1..11, unloading the visible carousel; the corrected window keeps it |
| Virtualization.LastVisibleBound | src/frontend/src/hooks/useCarouselVirtualization.ts:135-151 | as written, `lastVisible` never drops below the window end, whatever is near |
| Virtualization.Virtualizer.constructor | src/frontend/src/hooks/useCarouselVirtualization.ts:92-95 | the first window is `0..min(initialLoad, total)` |
| Virtualization.Virtualizer.SentinelSeen | src/frontend/src/hooks/useCarouselVirtualization.ts:104-112 | the end grows by the increment, capped at the total, and only while carousels remain |
| Virtualization.Virtualizer.Scrolled | src/frontend/src/hooks/useCarouselVirtualization.ts:126-165 | corrected: the window becomes the recentred one computed from the near carousels' span |
| Logging.ShouldLogSpec | src/frontend/src/lib/logger.ts:94-104 | a module logs exactly when the level is high enough, it is not disabled, and it is whitelisted or there is no whitelist |
| Logging.DisabledNeverLogs | src/frontend/src/lib/logger.ts:97-99 | a disabled module never logs, even when whitelisted |
| Logging.Configured | src/frontend/src/lib/logger.ts:82-89 | every given option replaces the setting and every missing one keeps it |
| Logging.ConfigureNothing | src/frontend/src/lib/logger.ts:82-89 | configuring with no options changes nothing |
| Logging.ElemsSnoc | src/frontend/src/lib/logger.ts:252-254 | adding the modules one at a time gives the set of all of them |
| Logging.DisableAllSilences | src/frontend/src/lib/logger.ts:237-239 | after `disableAllLogs` no module logs at levels DEBUG to ERROR |
| Logging.DebugForSpec | src/frontend/src/lib/logger.ts:244-247 | after `enableDebugFor`, a module logs at every level exactly when it was named and is not disabled |
| Logging.DisableModulesOnlySilences | src/frontend/src/lib/logger.ts:252-254 | `disableModules` only silences, and the named modules no longer log |
| Logging.Logger.constructor | src/frontend/src/lib/logger.ts:50-57 | the logger starts from the default configuration |
| Logging.Logger.ConfigureLogger | src/frontend/src/lib/logger.ts:82-89 | the configuration becomes the merged one |
| Logging.Logger.DisableAllLogs | src/frontend/src/lib/logger.ts:237-239 | the level becomes NONE and nothing else changes |
| Logging.Logger.EnableDebugFor | src/frontend/src/lib/logger.ts:244-247 | the level becomes DEBUG and the whitelist exactly the named modules |
| Logging.Logger.DisableModules | src/frontend/src/lib/logger.ts:252-254 | the named modules are added to the disabled set |
| KeyboardManagement.CentreSearchNone | src/frontend/src/components/KeyboardManager/KeyboardManager.tsx:90-111 | no carousel is found exactly when none has an element inside the viewport |
| KeyboardManagement.CentreSearchClosest | src/frontend/src/components/KeyboardManager/KeyboardManager.tsx:90-111 | the found carousel is a visible candidate and no visible candidate is closer to the viewport centre |
| KeyboardManagement.CentreSearchFirst | src/frontend/src/components/KeyboardManager/KeyboardManager.tsx:95-109 | on a tie the carousel registered first wins: every earlier candidate is strictly farther |
| KeyboardManagement.FirstFullscreenSpec | src/frontend/src/components/KeyboardManager/KeyboardManager.tsx:128-132 | the fullscreen search finds none exactly when no carousel is fullscreen, and otherwise the first in registration order |
| KeyboardManagement.ActiveCarousel | src/frontend/src/components/KeyboardManager/KeyboardManager.tsx:115-144 | the active carousel, when there is one, is registered |
| KeyboardManagement.FocusedWins | src/frontend/src/components/KeyboardManager/KeyboardManager.tsx:120-125 | a registered focused carousel is always the active one |
| KeyboardManagement.FullscreenNext | src/frontend/src/components/KeyboardManager/KeyboardManager.tsx:120-132 | without a usable focus, a fullscreen carousel exists means the first fullscreen one is active |
| KeyboardManagement.Dispatch | src/frontend/src/components/KeyboardManager/KeyboardManager.tsx:154-184 | Space toggles autoplay only when the handler exists; Escape toggles fullscreen only in fullscreen with the handler |
| KeyboardManagement.KeyboardManager.constructor | src/frontend/src/components/KeyboardManager/KeyboardManager.tsx:54-60 | the manager starts with no carousels and no focus |
| KeyboardManagement.KeyboardManager.RegisterCarousel | src/frontend/src/components/KeyboardManager/KeyboardManager.tsx:63-70 | the carousel is set in the registry, keeping its place when already registered; the focus is unchanged |
| KeyboardManagement.KeyboardManager.UnregisterCarousel | src/frontend/src/components/KeyboardManager/KeyboardManager.tsx:73-81 | the carousel is removed, and the focus is cleared only when it pointed at it |
| KeyboardManagement.KeyboardManager.SetFocusedCarousel | src/frontend/src/components/KeyboardManager/KeyboardManager.tsx:84-87 | the focus becomes the given id and the registry is unchanged |
| KeyboardManagement.KeyboardManager.FindCenteredCarousel | src/frontend/src/components/KeyboardManager/KeyboardManager.tsx:90-112 | the loop answers the id of the closest visible carousel as the search specifies |
| KeyboardManagement.KeyboardManager.GetActiveCarousel | src/frontend/src/components/KeyboardManager/KeyboardManager.tsx:115-144 | the answer is the focused, then the first fullscreen, then the centred carousel |
| KeyboardManagement.KeyboardManager.HandleKeyDown | src/frontend/src/components/KeyboardManager/KeyboardManager.tsx:147-185 | a key is ignored without an active carousel and otherwise dispatched to the active carousel's handlers |
| StableSort.InsertPermutes | src/frontend/src/components/Layout/CuratedLayout.tsx:105-106 | inserting an element adds exactly that element to the multiset |
| StableSort.InsertOrdered | src/frontend/src/components/Layout/CuratedLayout.tsx:105-106 | inserting into a sorted list by a total preorder keeps it sorted |
| StableSort.SortByPermutes | src/frontend/src/components/Layout/CuratedLayout.tsx:105-106 | the comparator sort is a permutation of its input |
| StableSort.SortByOrdered | src/frontend/src/components/Layout/CuratedLayout.tsx:105-106 | the comparator sort's result is ordered by a total preorder |
| StableSort.SortByLength | src/frontend/src/components/Layout/CuratedLayout.tsx:105-106 | sorting keeps the length |
| StableSort.InsertKeepsTies | src/frontend/src/components/Layout/CuratedLayout.tsx:105-106 | inserting an element keeps the elements tied with any given one in the order appending it would give |
| StableSort.SortByStable | src/frontend/src/components/Layout/CuratedLayout.tsx:105-106 | the comparator sort is stable: the elements tied with any given one keep their input order |
| ProjectionManager.MergeSpec | src/frontend/src/components/Layout/ProjectionManager.tsx:266-295 | every field of the merged settings is the patch's value when given and the old one otherwise, nested groups field by field |
| ProjectionManager.MergeNothing | src/frontend/src/components/Layout/ProjectionManager.tsx:266-295 | an empty patch leaves the settings unchanged |
| ProjectionManager.RegisteredSpec | src/frontend/src/components/Layout/ProjectionManager.tsx:194-225 | a carousel registered without custom settings gets the global ones; otherwise each given field overrides the global one |
| ProjectionManager.Only | src/frontend/src/components/Layout/ProjectionManager.tsx:613-736 | a one-field patch gives exactly that field |
| ProjectionManager.SetterChangesOnlyItsField | src/frontend/src/components/Layout/ProjectionManager.tsx:613-736 | each global setter changes its own field and no other |
| ProjectionManager.MulPos | src/frontend/src/components/Layout/ProjectionManager.tsx:316 | a product of positive numbers is positive (the fade zone is positive) |
| ProjectionManager.MulBetween | src/frontend/src/components/Layout/ProjectionManager.tsx:323 | a fraction of the maximum blur lies between zero and the maximum |
| ProjectionManager.FadeBounds | src/frontend/src/components/Layout/ProjectionManager.tsx:316-323 | with a positive fade zone, opacity lies in [0, 1] and blur in [0, maxBlur] |
| ProjectionManager.Calculate | src/frontend/src/components/Layout/ProjectionManager.tsx:301-405 | no projection exactly without an image or when disabled; it carries the carousel's id, settings and rectangle; out of view its opacity is 0 |
| ProjectionManager.ProjectionBounds | src/frontend/src/components/Layout/ProjectionManager.tsx:313-323 | for a positive fade distance and viewport height, opacity lies in [0, 1] and blur in [0, maxBlur] |
| ProjectionManager.CentredWithoutFadeZoneHidden | src/frontend/src/components/Layout/ProjectionManager.tsx:316-320 | with a zero fade distance an exactly centred carousel gets a NaN opacity and is never published |
| ProjectionManager.CandidatesVisible | src/frontend/src/components/Layout/ProjectionManager.tsx:454-459 | every collected projection has a positive opacity |
| ProjectionManager.CloserPreorder | src/frontend/src/components/Layout/ProjectionManager.tsx:464 | ordering by distance from the centre is a total preorder |
| ProjectionManager.ClosestSpec | src/frontend/src/components/Layout/ProjectionManager.tsx:463-465 | at most seven are kept, all from the candidates, and no left-out candidate is closer than a kept one |
| ProjectionManager.MapOf | src/frontend/src/components/Layout/ProjectionManager.tsx:467-468 | the map from ids holds a listed projection under its own id for every listed projection |
| ProjectionManager.InSubMultiset | src/frontend/src/components/Layout/ProjectionManager.tsx:463-465 | an element of a sub-multiset is an element of the whole |
| ProjectionManager.KeptCandidates | src/frontend/src/components/Layout/ProjectionManager.tsx:463-468 | the kept map has at most seven entries, each a candidate |
| ProjectionManager.KeptClosest | src/frontend/src/components/Layout/ProjectionManager.tsx:463-468 | no candidate left out of the map is closer than a kept one |
| ProjectionManager.PublishedSpec | src/frontend/src/components/Layout/ProjectionManager.tsx:411-471 | the published projections are at most seven, each visible, and none farther than a visible one left out |
| ProjectionManager.Manager.constructor | src/frontend/src/components/Layout/ProjectionManager.tsx:170-176 | the manager starts with no carousels, the default settings and no projections |
| ProjectionManager.Manager.RegisterCarousel | src/frontend/src/components/Layout/ProjectionManager.tsx:194-240 | the carousel is stored with the global settings overridden by its custom ones; settings and projections are unchanged |
| ProjectionManager.Manager.UnregisterCarousel | src/frontend/src/components/Layout/ProjectionManager.tsx:242-256 | the carousel is removed and nothing else changes |
| ProjectionManager.Manager.UpdateCarouselImage | src/frontend/src/components/Layout/ProjectionManager.tsx:258-264 | an unknown id changes nothing; a known one gets the new image and time |
| ProjectionManager.Manager.UpdateCarouselSettings | src/frontend/src/components/Layout/ProjectionManager.tsx:266-295 | an unknown id changes nothing; a known one gets its settings merged with the patch |
| ProjectionManager.Manager.UpdateProjections | src/frontend/src/components/Layout/ProjectionManager.tsx:411-471 | the projections become the published map and the registry is unchanged |
| ProjectionManager.Manager.SetGlobalSetting | src/frontend/src/components/Layout/ProjectionManager.tsx:613-736 | the global settings change in the one field and the registry and projections are unchanged |
| MidgroundProjection.PatchedSpec | src/frontend/src/components/Layout/MidgroundProjection.tsx:103-112 | a patch holding every field replaces the projection; an empty patch leaves it |
| MidgroundProjection.Calculate | src/frontend/src/components/Layout/MidgroundProjection.tsx:361-395 | no projection exactly without an element or an image; it carries the carousel's id and the global scales; out of view its opacity is 0 |
| MidgroundProjection.CalculateBounds | src/frontend/src/components/Layout/MidgroundProjection.tsx:369-376 | with a positive fade distance and viewport height, opacity lies in [0, 1] and blur in [0, maxBlur] |
| MidgroundProjection.ValuesInOrder | src/frontend/src/components/Layout/MidgroundProjection.tsx:289 | the map's values in insertion order, one per key |
| MidgroundProjection.FartherPreorder | src/frontend/src/components/Layout/MidgroundProjection.tsx:292-294 | ordering by decreasing distance is a total preorder |
| MidgroundProjection.DrawOrderSpec | src/frontend/src/components/Layout/MidgroundProjection.tsx:289-294 | the layer draws every registered projection once, the farthest first |
| MidgroundProjection.Provider.constructor | src/frontend/src/components/Layout/MidgroundProjection.tsx:72-85 | the provider starts with no projections and the default globals |
| MidgroundProjection.Provider.RegisterProjection | src/frontend/src/components/Layout/MidgroundProjection.tsx:87-93 | the projection is set under its id and the globals are unchanged |
| MidgroundProjection.Provider.UnregisterProjection | src/frontend/src/components/Layout/MidgroundProjection.tsx:95-101 | the projection is removed and the globals are unchanged |
| MidgroundProjection.Provider.UpdateProjection | src/frontend/src/components/Layout/MidgroundProjection.tsx:103-112 | an unknown id changes nothing; a known one gets the patch applied |
| MidgroundProjection.Provider.TrackCarousel | src/frontend/src/components/Layout/MidgroundProjection.tsx:397-419 | a disabled or image-less carousel is unregistered; otherwise its projection is registered when it has an element |
| MidgroundProjection.Provider.RerunTracking | src/frontend/src/components/Layout/MidgroundProjection.tsx:404-446 | a re-run of the effect is its cleanup's unregistration followed by the effect: the carousel's entry is removed unless a projection is computed, which then comes last |
| MidgroundProjection.Provider.Tick | src/frontend/src/components/Layout/MidgroundProjection.tsx:403-414 | a tick replaces the registered projection with the recomputed one, and does nothing for an unregistered carousel |
| Parallax.WithoutLayer | src/frontend/src/components/Layout/ParallaxBackground.tsx:151-153 | a layer survives removal exactly when it was present and its id differs |
| Parallax.UniqueTail | src/frontend/src/components/Layout/ParallaxBackground.tsx:143-153 | the tail of a list with unique ids has unique ids |
| Parallax.UniqueCons | src/frontend/src/components/Layout/ParallaxBackground.tsx:143-153 | prepending a layer whose id is new keeps ids unique |
| Parallax.WithoutLayerUnique | src/frontend/src/components/Layout/ParallaxBackground.tsx:151-153 | removal keeps ids unique |
| Parallax.AddedSpec | src/frontend/src/components/Layout/ParallaxBackground.tsx:143-149 | the added layer is last and the only one with its id; every other layer stays; unique ids stay unique |
| Parallax.BeneathPreorder | src/frontend/src/components/Layout/ParallaxBackground.tsx:68 | ordering by z-index is a total preorder |
| Parallax.DrawOrderSpec | src/frontend/src/components/Layout/ParallaxBackground.tsx:68 | the layers are drawn once each, in rising z-index |
| Parallax.FasterMovesFarther | src/frontend/src/components/Layout/ParallaxBackground.tsx:78 | no scroll, no shift; when scrolled down, a faster layer moves farther |
| Parallax.ConvertFrom | src/frontend/src/components/Layout/ParallaxBackground.tsx:204-212 | each configured layer becomes one layer with the id collection-type-index and its type's z-index, in order |
| Parallax.FromConfigDrawOrder | src/frontend/src/components/Layout/ParallaxBackground.tsx:180-213 | configured layers keep their count and are drawn background, then midground, then foreground |
| Parallax.Provider.constructor | src/frontend/src/components/Layout/ParallaxBackground.tsx:141 | the provider starts with no layers |
| Parallax.Provider.SetLayers | src/frontend/src/components/Layout/ParallaxBackground.tsx:132-141 | the layers become the given ones |
| Parallax.Provider.AddLayer | src/frontend/src/components/Layout/ParallaxBackground.tsx:143-149 | the layers become the added list, and unique ids stay unique |
| Parallax.Provider.RemoveLayer | src/frontend/src/components/Layout/ParallaxBackground.tsx:151-153 | the layers lose exactly those with that id, and unique ids stay unique |
| Parallax.Provider.ClearLayers | src/frontend/src/components/Layout/ParallaxBackground.tsx:155-157 | no layers are left |
| Gallery.ChunksFlatten | src/frontend/src/components/Layout/DynamicLayout.tsx:61-63 | the groups put back together are the list |
| Gallery.ChunksSizes | src/frontend/src/components/Layout/DynamicLayout.tsx:61-63 | every group is non-empty and at most `n` long, and all but the last exactly `n` |
| Gallery.ChunksCount | src/frontend/src/components/Layout/DynamicLayout.tsx:61-63 | no groups exactly for an empty list; otherwise the count is the length divided by `n`, rounded up |
| Gallery.ChunkAt | src/frontend/src/components/Layout/DynamicLayout.tsx:62 | group `i` is the slice from `i*n` to `min(i*n+n, length)` |
| Gallery.ChunksStep | src/frontend/src/components/Layout/DynamicLayout.tsx:61-63 | one round of the loop takes the first group off the front |
| Gallery.GroupInto | src/frontend/src/components/Layout/DynamicLayout.tsx:58-65 | the loop's groups are the chunks of the list |
| Gallery.DefaultCarouselProps | src/frontend/src/components/Layout/DynamicLayout.tsx:73-94 | with nothing configured a carousel fades, does not autoplay, shows navigation but not reactions, with the documented numbers |
| Gallery.FalsyOptions | src/frontend/src/components/Layout/DynamicLayout.tsx:78-93 | a flag set to false is kept by `??`, while a number set to 0 is replaced by its default through `||` |
| DynamicLayout.ImagesOfSpec | src/frontend/src/components/Layout/DynamicLayout.tsx:33-39 | exactly the image items with a large URL become carousel images, and each image comes from such an item |
| DynamicLayout.NoShownNoImages | src/frontend/src/components/Layout/DynamicLayout.tsx:33-47 | a gallery without a displayable image yields no images |
| DynamicLayout.PageSpec | src/frontend/src/components/Layout/DynamicLayout.tsx:25-68 | corrected: a page shows carousels exactly when some image is shown; the groups put back together are the images and none is empty |
| DynamicLayout.AllInOneCarousel | src/frontend/src/components/Layout/DynamicLayout.tsx:25-56 | with `'all'` or no settings there is one carousel holding every image |
| DynamicLayout.CountedCarousels | src/frontend/src/components/Layout/DynamicLayout.tsx:58-63 | with a positive count `n`, each carousel holds at most `n` images and all but the last exactly `n` |
| DynamicLayout.Render | src/frontend/src/components/Layout/DynamicLayout.tsx:24-126 | corrected: the rendered page, its grouping loop included, is the page the specification function describes, a count below 1 grouping by 5 |
| DynamicLayout.NegativeCountNeverEnds | src/frontend/src/components/Layout/DynamicLayout.tsx:58-63 | as written, a negative count keeps the loop index at or below 0, so `i < images.length` never fails |
| LivePreview.PreviewUrlSpec | src/frontend/src/components/Lightboard/LivePreview.tsx:96-99 | no URL exactly when all four are missing or empty; otherwise a non-empty one of them, the large one whenever it is set |
| LivePreview.ValidImagesSpec | src/frontend/src/components/Lightboard/LivePreview.tsx:94-105 | exactly the items with some URL become images, each from such an item, never more images than items |
| LivePreview.ShownCarouselsSound | src/frontend/src/components/Lightboard/LivePreview.tsx:91-126 | each shown carousel is a chunk's valid images, non-empty, with the id `preview-carousel-<index>` |
| LivePreview.ShownCarouselsFrom | src/frontend/src/components/Lightboard/LivePreview.tsx:91-126 | carousel indices start at the chunk offset |
| LivePreview.ShownCarouselsOrdered | src/frontend/src/components/Lightboard/LivePreview.tsx:91-126 | shown carousels keep the chunks' order, with strictly increasing indices |
| LivePreview.ShownCarouselsComplete | src/frontend/src/components/Lightboard/LivePreview.tsx:108-110 | every chunk that has a valid image is shown |
| LivePreview.PlaceholderIffEmpty | src/frontend/src/components/Lightboard/LivePreview.tsx:67-76 | no collection, no gallery or an empty gallery gives the placeholder, and nothing else does |
| LivePreview.PreviewedChunks | src/frontend/src/components/Lightboard/LivePreview.tsx:79-87 | the first three chunks are items `5k` to `5k+4` |
| LivePreview.PreviewShowsFirstChunks | src/frontend/src/components/Lightboard/LivePreview.tsx:79-126 | at most three carousels, carousel `k` showing the valid images of items `5k` to `5k+4` |
| LivePreview.PreviewShowsEveryValidChunk | src/frontend/src/components/Lightboard/LivePreview.tsx:87-110 | each of the first three chunks with a valid image is shown |
| LivePreview.PreviewNote | src/frontend/src/components/Lightboard/LivePreview.tsx:128-136 | the note appears exactly with more than fifteen items, and counts the carousels as the item count divided by five, rounded up |
| LivePreview.Render | src/frontend/src/components/Lightboard/LivePreview.tsx:67-139 | the chunking loop and the preview give the previewed carousels the specification describes |
| LivePreview.PreviewState.constructor | src/frontend/src/components/Lightboard/LivePreview.tsx:55 | the render key starts at 0 |
| LivePreview.PreviewState.SettingsChanged | src/frontend/src/components/Lightboard/LivePreview.tsx:59-65 | a settings change bumps the render key and calls the callback only when there is one |
| CuratedLayout.FirstMatch | src/frontend/src/components/Layout/CuratedLayout.tsx:45-47 | the first gallery item whose filename equals, or whose large URL contains, the name; the length when none does |
| CuratedLayout.ResolveImageUrlSpec | src/frontend/src/components/Layout/CuratedLayout.tsx:40-55 | an `http` name is used as is; otherwise the first matching item's large URL, or `/media/<slug>/<name>` when none matches |
| CuratedLayout.FindAgreesWhenAllLarge | src/frontend/src/components/Layout/CuratedLayout.tsx:45-47 | as written, when every item has a large URL the search agrees with the corrected one |
| CuratedLayout.SmallImageBeforeThrows | src/frontend/src/components/Layout/CuratedLayout.tsx:45-47 | as written, an item without a large URL before the match makes the search throw |
| CuratedLayout.SmallImageBeforeResolves | src/frontend/src/components/Layout/CuratedLayout.tsx:40-55 | the corrected search resolves the same gallery to the media path |
| CuratedLayout.ByFilenamePreorder | src/frontend/src/components/Layout/CuratedLayout.tsx:105-106 | ordering by filename is a total preorder |
| CuratedLayout.SliceTo | src/frontend/src/components/Layout/CuratedLayout.tsx:112-114 | `slice(0, limit)` keeps the first `limit`, or drops the last `-limit` for a negative one |
| CuratedLayout.FilenamesOf | src/frontend/src/components/Layout/CuratedLayout.tsx:116 | the filenames, one per item, in order |
| CuratedLayout.KeepImages | src/frontend/src/components/Layout/CuratedLayout.tsx:63 | exactly the gallery's images are kept |
| CuratedLayout.KeepAspect | src/frontend/src/components/Layout/CuratedLayout.tsx:66-90 | exactly the items the aspect-ratio filter accepts are kept |
| CuratedLayout.KeepPattern | src/frontend/src/components/Layout/CuratedLayout.tsx:93-96 | exactly the items whose filename the pattern matches are kept |
| CuratedLayout.Limited | src/frontend/src/components/Layout/CuratedLayout.tsx:112-114 | the limited list is a prefix of the list |
| CuratedLayout.ResolveImageQuery | src/frontend/src/components/Layout/CuratedLayout.tsx:60-117 | the filter-by-filter reassignment gives the filenames of the specified query result |
| CuratedLayout.SelectedSpec | src/frontend/src/components/Layout/CuratedLayout.tsx:63-96 | an item passes exactly when it is a gallery image within the aspect bounds and matching the filename pattern when given |
| CuratedLayout.RangeKeepsBounds | src/frontend/src/components/Layout/CuratedLayout.tsx:82-89 | with bounds, only images within the set bounds pass |
| CuratedLayout.NoGalleryNoImages | src/frontend/src/components/Layout/CuratedLayout.tsx:61 | without a gallery a query gives nothing |
| CuratedLayout.FilenameSortedQuery | src/frontend/src/components/Layout/CuratedLayout.tsx:105-114 | sorted by filename, the result is the selected images in ascending order, cut to the limit |
| CuratedLayout.PrefixMultiset | src/frontend/src/components/Layout/CuratedLayout.tsx:112-114 | a prefix holds no element more often than the list |
| CuratedLayout.QueryGivesSelected | src/frontend/src/components/Layout/CuratedLayout.tsx:60-117 | unless the order is random, a query gives only selected images, none more often than selected |
| CuratedLayout.ImagesFor | src/frontend/src/components/Layout/CuratedLayout.tsx:139-143 | corrected: one carousel image per filename, in order, resolved past gallery items without a large URL |
| CuratedLayout.SectionImagesSpec | src/frontend/src/components/Layout/CuratedLayout.tsx:122-144 | corrected: a listed filename keeps its position and is its own alt text; `'auto'` takes exactly the gallery's images; nothing else gives none |
| CuratedLayout.SectionViewSpec | src/frontend/src/components/Layout/CuratedLayout.tsx:187-270 | corrected: a carousel section renders exactly when it has images, with no bottom reservation by default; an unknown section renders nothing |
| Navigation.SplitAfter | src/frontend/src/components/Navigation/Navigation.tsx:133 | splitting at a separator absent from the first part yields that part, then the pieces of the rest |
| Navigation.SplitFirst | src/frontend/src/components/Navigation/Navigation.tsx:133 | the first piece of a split runs up to the first separator |
| Navigation.SlugSegmentIsThirdPiece | src/frontend/src/components/Navigation/Navigation.tsx:132-133 | for a `/collections/` path, the slug is the third piece of the path split at every `/` |
| Navigation.NavigateThenCurrent | src/frontend/src/components/Navigation/Navigation.tsx:132-172 | navigating to a slug without `/` makes it the current slug, `home` included |
| Navigation.CurrentSlugSpec | src/frontend/src/components/Navigation/Navigation.tsx:132-134 | the current slug never holds a `/`, and away from `/` the path starts with `/collections/<slug>` |
| Navigation.ConfigDefaults | src/frontend/src/components/Navigation/Navigation.tsx:137-139 | missing or zero settings take 16, 240 and 300; other values are kept |
| Navigation.DropFirstWord | src/frontend/src/components/Navigation/Navigation.tsx:89 | removing the first word and its hyphen never lengthens the slug |
| Navigation.TitleCase | src/frontend/src/components/Navigation/Navigation.tsx:91 | title-casing keeps the length and upper-cases exactly the word-initial characters |
| Navigation.LowerOfUpper | src/frontend/src/components/Navigation/Navigation.tsx:91 | lower-casing undoes upper-casing |
| Navigation.NameFromSlugSpec | src/frontend/src/components/Navigation/Navigation.tsx:86-96 | a derived name has no hyphen and equals the slug after its first word, hyphens as spaces, up to case |
| Navigation.NameFromSlugLength | src/frontend/src/components/Navigation/Navigation.tsx:89-91 | a slug with a prefix loses it and its hyphen; one without keeps its length |
| Navigation.NormalizedSpec | src/frontend/src/components/Navigation/Navigation.tsx:84-103 | a bare slug becomes an empty collection with a derived name; an object keeps everything, named by title, else name, else slug |
| Navigation.ToggledSpec | src/frontend/src/components/Navigation/Navigation.tsx:177-187 | toggling flips exactly that slug, and twice restores the set |
| Navigation.Navigator.constructor | src/frontend/src/components/Navigation/Navigation.tsx:125-126 | the drawer starts closed with nothing expanded |
| Navigation.Navigator.Navigate | src/frontend/src/components/Navigation/Navigation.tsx:167-175 | the target path is pushed and nothing else changes |
| Navigation.Navigator.ToggleExpand | src/frontend/src/components/Navigation/Navigation.tsx:177-187 | the expanded set is toggled at that slug and nothing else changes |
| Navigation.Navigator.ClickItem | src/frontend/src/components/Navigation/Navigation.tsx:59-64 | a click navigates, and toggles the item only when it has subcollections |
| Navigation.Navigator.ToggleDrawer | src/frontend/src/components/Navigation/Navigation.tsx:196 | the drawer flips and nothing else changes |
| Navigation.Navigator.Dismiss | src/frontend/src/components/Navigation/Navigation.tsx:142-165 | Escape or a press outside closes an open drawer and calls `onClose` once; otherwise nothing changes |
| Navigation.BuildCrumbs | src/frontend/src/components/Navigation/Breadcrumbs.tsx:21-57 | the successive pushes give the trail the specification describes, or none |
| Navigation.CrumbsSpec | src/frontend/src/components/Navigation/Breadcrumbs.tsx:26-57 | disabled breadcrumbs render nothing; a rendered trail is inside a collection, starts with Home exactly when shown, holds Collections and ends with the name when given |
| Navigation.Rendered | src/frontend/src/components/Navigation/Breadcrumbs.tsx:86-116 | one rendered crumb per crumb: clickable exactly when it has a path, and followed by the separator unless it is last |
| Navigation.RenderedSpec | src/frontend/src/components/Navigation/Breadcrumbs.tsx:84-118 | in a rendered trail only the Home crumb is clickable and a separator follows every crumb but the last |
| RealApiDemo.AsSubs | src/frontend/src/app/progressive-nav-demo/real-api-demo.tsx:96-99 | collections given as objects, one per collection, in order |
| RealApiDemo.ChildrenBelow | src/frontend/src/app/progressive-nav-demo/real-api-demo.tsx:76-104 | a collection's subcollections lie below it, so the search terminates |
| RealApiDemo.FindInSpec | src/frontend/src/app/progressive-nav-demo/real-api-demo.tsx:76-104 | the search of one collection's tree finds something exactly when the slug occurs there, and what it finds carries that slug |
| RealApiDemo.FindListSpec | src/frontend/src/app/progressive-nav-demo/real-api-demo.tsx:79-100 | the search of a subcollection list finds something exactly when the slug occurs in it, and what it finds carries that slug |
| RealApiDemo.FindSpec | src/frontend/src/app/progressive-nav-demo/real-api-demo.tsx:76-104 | `findCollectionBySlug` finds a collection exactly when the slug occurs in some tree, and the found one carries that slug |
| RealApiDemo.OccursListAt | src/frontend/src/app/progressive-nav-demo/real-api-demo.tsx:96-99 | a slug occurs in an object list exactly when it occurs in one of its members' trees |
| RealApiDemo.FindListFirst | src/frontend/src/app/progressive-nav-demo/real-api-demo.tsx:77-99 | the search returns the first object subcollection carrying the slug when no earlier tree holds it |
| RealApiDemo.FindTopLevel | src/frontend/src/app/progressive-nav-demo/real-api-demo.tsx:77-78 | a top-level collection is found when no earlier tree holds its slug |
| RealApiDemo.IndexOfSlug | src/frontend/src/app/progressive-nav-demo/real-api-demo.tsx:148 | `findIndex`: the first history entry with that slug, or the length when none |
| RealApiDemo.TruncatedSpec | src/frontend/src/app/progressive-nav-demo/real-api-demo.tsx:146-154 | a breadcrumb click keeps a prefix of the history ending at the first entry with that slug, or empties it when none |
| RealApiDemo.BreadcrumbsSpec | src/frontend/src/app/progressive-nav-demo/real-api-demo.tsx:107-116 | Home comes first; with a current collection it comes last, with the history between |
| RealApiDemo.ForwardThenBack | src/frontend/src/app/progressive-nav-demo/real-api-demo.tsx:146-162 | going forward from a collection and back through its crumb restores the history, when it was not already there |
| RealApiDemo.DrawerWidthSpec | src/frontend/src/app/progressive-nav-demo/real-api-demo.tsx:215-223 | the drawer is 280 wide exactly when an expanded collection has subcollections, and 240 otherwise |
| RealApiDemo.DemoNav.constructor | src/frontend/src/app/progressive-nav-demo/real-api-demo.tsx:119-131 | the demo starts at `/` with no collection, nothing expanded, no history and a closed drawer |
| RealApiDemo.DemoNav.NavigateTo | src/frontend/src/app/progressive-nav-demo/real-api-demo.tsx:119-212 | `/` resets; a failed load changes nothing; a loaded collection becomes current with the updated history, and a repeated click collapses it |
| CollectionConfig.DirtySpec | src/frontend/src/contexts/CollectionConfigContext.tsx:87-91 | the context is dirty exactly when the configuration differs from the saved one |
| CollectionConfig.DirtyAgreesWithConfig | src/frontend/src/contexts/CollectionConfigContext.tsx:87-91 | for a collection with a configuration, the as-written test and the corrected one agree |
| CollectionConfig.NoConfigAlwaysDirty | src/frontend/src/contexts/CollectionConfigContext.tsx:76-91 | as written, a collection without a configuration is dirty though nothing changed; the corrected test is clean |
| CollectionConfig.MergedSpec | src/frontend/src/contexts/CollectionConfigContext.tsx:97-105 | the updates win, every other key keeps its value, and no key is lost or invented |
| CollectionConfig.MergeOfSameValues | src/frontend/src/contexts/CollectionConfigContext.tsx:97-105 | updates repeating the current values change nothing |
| CollectionConfig.CarouselDefaultsSpec | src/frontend/src/contexts/CollectionConfigContext.tsx:107-121 | only the carousel defaults change: the other keys at the top and in the dynamic settings keep their values, and the defaults are the old ones overridden by the updates |
| CollectionConfig.ProjectionSpec | src/frontend/src/contexts/CollectionConfigContext.tsx:123-134 | only the projection settings change, and they are the old ones overridden by the updates |
| CollectionConfig.ConfigContext.constructor | src/frontend/src/contexts/CollectionConfigContext.tsx:75-77 | corrected: the context starts with the collection, its configuration as saved, and clean, a missing configuration included |
| CollectionConfig.ConfigContext.CollectionReceived | src/frontend/src/contexts/CollectionConfigContext.tsx:80-84 | corrected: a new slug replaces the collection and the saved configuration and cleans the context, a missing configuration included; the same slug changes nothing |
| CollectionConfig.ConfigContext.UpdateConfig | src/frontend/src/contexts/CollectionConfigContext.tsx:97-105 | the configuration becomes the merged one, the saved one is kept, and the dirty flag follows |
| CollectionConfig.ConfigContext.UpdateCarouselDefaults | src/frontend/src/contexts/CollectionConfigContext.tsx:107-121 | the configuration gets the merged carousel defaults, the saved one is kept, and the dirty flag follows |
| CollectionConfig.ConfigContext.UpdateProjectionSettings | src/frontend/src/contexts/CollectionConfigContext.tsx:123-134 | the configuration gets the merged projection settings, the saved one is kept, and the dirty flag follows |
| CollectionConfig.ConfigContext.ResetToSaved | src/frontend/src/contexts/CollectionConfigContext.tsx:157-165 | with a saved configuration it is restored and the context is clean; without one nothing changes |

## Left out

- File-system, database, network and clock access: the model receives the directory tree, catalog rows, files on disk and times as values; SQL text, `fetch`, `setTimeout`/`setInterval` and `requestAnimationFrame` are not modelled.
- React rendering and the DOM (JSX, refs, CSS classes, native fullscreen, focus events): only the state the components keep and the values they compute are modelled.
- Report printing and console output of the validators and the analysis script: the model computes the issues, counts and conclusion they print.
- Lowercasing is ASCII-only: Python's `str.lower` and JavaScript's `toLowerCase` also fold non-ASCII letters.
- `localeCompare` ordering is approximated by code-point order.
- Regular-expression filters (file-name patterns, aspect-ratio strings) and the random shuffle are parameters of the functions that use them.
- Floating-point arithmetic: coordinates, opacities and scales are integers or rationals, `NaN` is `None`, and the sine/cosine swimming sway of the projections is a parameter.
- `sha256` in the IP hashing is a parameter; only the string it hashes is modelled.
- `getAbsoluteMediaUrl` is not part of this model; media URLs are kept as the relative strings the backend returns.
- The curated layout's tags filter only logs a warning and does not filter, so it is not modelled.
- A curated section whose `images` is `null` is modelled as a section without images; the source hands `null` to the query resolver, which fails on it.
- The navigation drawer's tree layout, indentation rendering and the mobile auto-collapse timers are not modelled.
- The progressive navigation demo's delayed expand/close timers are not modelled; their synchronous state updates are.
- `normalizeSubcollection` in the navigation demo is not modelled separately: its naming rule is `Navigation.NameFromSlug` and `Navigation.Normalized`.
- A fractional `imagesPerCarousel` is not modelled (counts are integers); object spread of `undefined` or of non-objects is not modelled.
- JSON key order: the configuration context compares `JSON.stringify` outputs, modelled as structural equality of configuration values.
- `saveConfig` and `reloadConfig` of the configuration context only log a warning and change nothing; `hasUnsavedChanges` equals `isDirty` by construction.
- The logger's environment-based initialisation, `sendLogToBackend`, `createLogger`, the common loggers, `getLoggerConfig`, `interceptConsole` and all console output are not modelled; the module enable/disable switches are.
- The transitions that are never registered are not modelled.
- The projection checkerboard and vignette masks are rendering only; `MidgroundProjection`'s global setters are plain state setters and `updateSwimmingDampening` only feeds the sway, so they are not modelled.
- Scroll and animation-frame throttling (the 16 ms guard) and the scroll-velocity estimate are not modelled.
- Listing errors in the validators: a directory whose listing fails with error text containing "cannot find the path", or whose path is longer than 240 characters, is skipped, and the model gives it the listing outcome `PathTooLong`; any other `OSError` is re-raised and ends the script, which the model does not represent (it has no listing outcome for it).
- The free-form `details` dictionary of `ValidationIssue` is not modelled: an issue is its category, severity, slug and message; `details` is only printed.
- Several members run the corrected program of a finding below, not the program as written, and their "## Model" rows start with "corrected:". The corrected members named in the findings table state the intended behaviour by design; every other such member, each entry point that calls them, is named on its own line here. The as-written behaviour is modelled by the findings' as-written members.
- RunValidation: validates with the corrected hierarchy rule; for `art/sub/leaf` beside a top-level `sub`, `main()` as written reports a hierarchy mismatch for `art-sub-leaf` that the model does not (see `SlugValidatorV2.BareNameHierarchyIssues`).
- Validate: runs the corrected hierarchy rule, so it differs from `validate()` as written on the same input as `RunValidation`.
- CompareParents: compares one pair by the corrected hierarchy rule, the step `CheckHierarchyValidation` repeats; the as-written comparison is `SlugValidatorV2.BareNameHierarchyIssues`.
- CheckHierarchyValidation: appends the corrected hierarchy issues; for `art/sub/leaf` beside a top-level `sub`, `_check_hierarchy_validation` as written reports a mismatch for `art-sub-leaf` that the model does not (see `SlugValidatorV2.BareNameHierarchyIssues`).
- Analyze: yields the corrected unmatched lists and conclusion; for the names `a` and `ab` with the slug `x-ab` the script as written reports no unmatched name where the model reports `a` (see `SlugAnalysis.UnmatchedFsAsWritten`), and its conclusion compares counts only (see `SlugAnalysis.ConclusionAsWritten`).
- GetCollectionSpec: states the corrected page; with `?page=-1&limit=4` on ten images the route as written answers images 2 to 5 (see `ContentRoutes.PaginateAsWritten`), and a negative limit is not clamped either.
- ThumbnailWhenAccessible: uses the scanner's thumbnail name; for `IMG.JPG` the route as written looks for `IMG.JPG_640w.webp` (see `MediaRoutes.UpperCaseExtensionKept`).
- ServesMediaFile: states the segment-wise containment guard; the route as written uses a string-prefix test and serves a sibling directory's file (see `MediaRoutes.ServeMediaAsWritten`, `MediaRoutes.TraversalToSibling`).
- PostReactionSpec: stores the hash of the corrected input; with `IP_SALT` unset the route as written hashes the address followed by `undefined` (see `SocialRoutes.HashInputAsWritten`).
- Next: on an empty carousel `next()` as written computes `(i + 1) % 0`, which is `NaN`, and `goTo` starts a transition to it; the model changes nothing there (see `CarouselState.NextTargetAsWritten`, `CarouselState.EmptyCarouselStartsTransition`).
- HandleKey: ArrowRight on an empty carousel calls `next()`, which as written starts a transition to `NaN`; the model changes nothing there, as for `Next`.
- AutoplayTick: on an empty carousel the timer as written computes `(i + 1) % 0`, which is `NaN`, and `goTo` starts a transition to it; the model changes nothing there, as the corrected `next` does.
- Scrolled: moves to the corrected recentred window; for the window 0..12 of 20 carousels with `maxActive` 10 and only carousel 11 near, the hook as written moves to 1..11 (see `Virtualization.RecentredAsWritten`).
- PageSpec: groups a count below 1 by 5; with `imagesPerCarousel` of -1 and one image the grouping loop as written never ends (see `DynamicLayout.NegativeCountNeverEnds`).
- Render: renders the page `PageSpec` describes, so a count below 1 is grouped by 5 where the component as written never returns.
- ImagesFor: resolves file names past gallery items without a large URL; the search as written throws on such an item before the match (see `CuratedLayout.FindAsWritten`).
- SectionImagesSpec: states the section images under the corrected resolver, as `ImagesFor` does.
- SectionViewSpec: the image and video blocks use the corrected resolver, as `ImagesFor` does.
- constructor (`CollectionConfig.ConfigContext`): ensures a clean context; for a collection without a configuration the component as written becomes dirty at once (see `CollectionConfig.NoConfigAlwaysDirty`).
- CollectionReceived: ensures a clean context after a new slug; a received collection without a configuration is dirty as written, as for the constructor.
- The assistant-protocol maintenance scripts (backup, search, move, session finding) are file-system and JSON I/O with no domain logic and are not part of this model.
- Server wiring, middleware, thumbnail and video generation, the directory watcher, the WebSocket manager, the rate limiter and raw SQL execution are library calls and are not part of this model; the database manager's queries are modelled by the row folds they perform.
- Random mock reaction data and random inquiry identifiers are not modelled.
- ListDirectoriesSpec: holds once the module's database is open; `GET /directories` never calls `ensureDbInitialized()`, so on a fresh server, before any `/collections` request, `getDb()` throws and the route answers 500. The model has no closed-database state.
- GetDirectorySpec: holds once the module's database is open; before any `/collections` request `GET /directories/:slug` answers 500, as for `ListDirectoriesSpec`.
- GetImageSpec: holds once the module's database is open, as for `ListDirectoriesSpec`; it does not state the `Threw` answer `GetImage` gives for a stored `exif_data` that is not valid JSON, and a malformed `color_palette`, which also makes the route answer 500, is not modelled.
- PostReactionSpec: also holds only once the routes' database manager is set; until then its proxy throws and the route answers 500, and the server entry point never sets it. The closed-database state is not modelled.
- PostReaction: the answer's `newCounts` are the counts of the rows the count query returns after the insert, a parameter; the `GROUP BY` query over the new table is not modelled.
- Preloader: the `enabled` prop is fixed for the preloader's lifetime (`const enabled`); a change of the prop between renders, and the effects re-running on it, are not modelled.

## Findings

| source | as written | input that shows it | evidently intended | confidence | as-written member | corrected member |
|---|---|---|---|---|---|---|
| src/backend/validate_database_v2.py:440-466 | the hierarchy rule looks up the parent's bare lowercased NAME among the expected slugs, which are full hyphen-joined slugs | tree `art/sub/leaf` beside a top-level `sub`: the correct parent `art-sub` of `art-sub-leaf` is reported wrong; without the top-level `sub`, a wrong parent is not reported | compare the catalog's parent slug with the expected slug of the directory's parent path | not executed | SlugValidatorV2.BareNameHierarchyIssues, SlugValidatorV2.BareNameLookupCounterexample | SlugValidatorV2.PairHierarchyIssues, SlugValidatorV2.PairHierarchyIssuesSpec |
| analyze_validation.py:95-96 | an unmatched name is one that is a substring of no matched name | names `a` and `ab` with the slug `x-ab`: `a` is a substring of the matched `ab`, so no name is reported | report the names no match pairs | not executed | SlugAnalysis.UnmatchedFsAsWritten, SlugAnalysis.SubstringHidesUnmatched | SlugAnalysis.UnmatchedFs, SlugAnalysis.UnmatchedFsSpec |
| analyze_validation.py:111-120 | "all the same" is concluded when the number of matches equals the number of names and of slugs | names `a`, `b` and slugs `x-a`, `y-a`: two matches, both for `a`, and `b` is unmatched | conclude "all the same" only when every name and slug is paired | not executed | SlugAnalysis.ConclusionAsWritten, SlugAnalysis.CountConclusionMisleads | SlugAnalysis.AnalysisConclusion, SlugAnalysis.AnalysisConclusionSpec |
| src/backend/src/routes/content.ts:88-109 | `page` and `limit` are only capped from above, so negative values reach the slice | `?limit=-3` on ten images returns seven images; `?page=-1&limit=4` returns images 2 to 5 | a page is a window of at most `limit` images from a non-negative offset | not executed | ContentRoutes.NegativeLimitOverflows, ContentRoutes.NegativePageWraps | ContentRoutes.Paginate, ContentRoutes.PageWindow, ContentRoutes.HasNextIffMore |
| src/backend/src/routes/media.ts:118-122 | the traversal guard is a string-prefix test on the resolved path | content directory `<base>/<d>`, slug `..`, subdirectory `<d>x`: the file `<base>/<d>x/<name>` is served | a file is served only from inside the content directory, compared segment by segment | not executed | MediaRoutes.GuardAsWritten, MediaRoutes.TraversalToSibling, MediaRoutes.SiblingPassesPrefix | MediaRoutes.Inside, MediaRoutes.ServedInside |
| src/backend/src/routes/media.ts:78-94 | the thumbnail name strips only the extension as written in lower case | a request for a size of `IMG.JPG` looks for `IMG.JPG_640w.webp` | the file the scanner writes, `IMG_640w.webp` | not executed | MediaRoutes.UpperCaseExtensionKept | MediaRoutes.ThumbnailName, MediaRoutes.ThumbnailMatchesScanner |
| src/backend/src/routes/social.ts:38 | `ip + process.env.IP_SALT \|\| 'default-salt'` groups as `(ip + IP_SALT) \|\| 'default-salt'`, and that string is never empty | an unset `IP_SALT` hashes `ip + "undefined"` | hash the address followed by the salt, or by `default-salt` when none is set | not executed | SocialRoutes.HashInputAsWritten, SocialRoutes.DefaultSaltNeverUsed | SocialRoutes.HashInput, SocialRoutes.HashInputAgreement |
| src/frontend/src/components/Carousel/hooks/useCarouselState.ts:87-136 | `next()` computes `(i + 1) % imageCount`, which is `NaN` for an empty carousel and passes both of `goTo`'s guards | a carousel with no images: `next()` starts a transition to `NaN` | an empty carousel admits no navigation | not executed | CarouselState.NextTargetAsWritten, CarouselState.EmptyCarouselStartsTransition | CarouselState.Carousel.Next, CarouselState.NextStaysInside |
| src/frontend/src/hooks/useCarouselVirtualization.ts:134-163 | the recentring takes the last visible carousel to be the window's exclusive end and loads up to `maxActive` around the midpoint | window 0..12 of 20 carousels, `maxActive` 10, only carousel 11 near the viewport: the window becomes 1..11 and carousel 11 is unloaded | recentre on the span of carousels near the viewport, keeping them loaded | not executed | Virtualization.LastVisibleAsWritten, Virtualization.RecentredAsWritten, Virtualization.VisibleCarouselUnloaded | Virtualization.SpanOf, Virtualization.Recentred, Virtualization.RecentredNearViewport |
| src/frontend/src/components/Layout/DynamicLayout.tsx:58-63 | the grouping loop adds `imagesPerCarousel` to its index without checking its sign | `imagesPerCarousel` of -1 with one image: the index never reaches the length and the loop never ends | a count below 1 falls back to the default of 5 | not executed | DynamicLayout.IndexAfterAsWritten, DynamicLayout.NegativeCountNeverEnds | DynamicLayout.ChunkSize, DynamicLayout.Groups, DynamicLayout.PageSpec, DynamicLayout.CountedCarousels |
| src/frontend/src/components/Layout/CuratedLayout.tsx:45-47 | the search calls `g.urls.large.includes` on every item before the match | a gallery whose first item has no large URL (the scanner gives none to images at most 1920 pixels wide) and is not the wanted file: the search throws instead of going on | skip items without a large URL | not executed | CuratedLayout.FindAsWritten, CuratedLayout.SmallImageBeforeThrows | CuratedLayout.FirstMatch, CuratedLayout.ResolveImageUrl, CuratedLayout.ResolveImageUrlSpec, CuratedLayout.SmallImageBeforeResolves |
| src/frontend/src/contexts/CollectionConfigContext.tsx:76-91 | dirtiness compares `JSON.stringify(config)` with the saved string, which is `"null"` when there is no configuration while `JSON.stringify(undefined)` is `undefined` | a collection without a configuration: the context is dirty though nothing changed | dirty exactly when the configuration differs from the saved one | not executed | CollectionConfig.DirtyAsWritten, CollectionConfig.NoConfigAlwaysDirty | CollectionConfig.Dirty, CollectionConfig.DirtySpec |
