/**
  * `SlugAwareValidator` of src/backend/validate_database_v2.py: matches
  * filesystem directories (keyed by expected slug) to catalog records, then
  * runs the orphaned, missing, count, config and hierarchy rules in that order,
  * appending `ValidationIssue`s.
  */
module SlugValidatorV2 {
  import opened Wrappers
  import opened Text
  import opened OrderedDict
  import opened Catalog
  import opened FsScannerV2
  import opened DbScannerV2

  function Abs(x: int): nat {
    if x < 0 then -x else x
  }

  // ---------------------------------------------------------------------------
  // Slug matching

  /** The first catalog key equal to `fsSlug` ignoring case, in catalog order. */
  function FirstCaseInsensitive(fsSlug: string, dbKeys: seq<string>): Option<string> {
    if dbKeys == [] then None
    else if Lower(fsSlug) == Lower(dbKeys[0]) then Some(dbKeys[0])
    else FirstCaseInsensitive(fsSlug, dbKeys[1..])
  }

  /** The catalog slug a filesystem slug is matched to: itself if present, else the first case-insensitive match. */
  function MatchFor(fsSlug: string, db: ODict<string, DbDir>): Option<string> {
    if fsSlug in db.vals then Some(fsSlug) else FirstCaseInsensitive(fsSlug, db.keys)
  }

  /** `slug_matches` after `_build_slug_matches` has visited `fsKeys`. */
  function BuildMatches(fsKeys: seq<string>, db: ODict<string, DbDir>): (m: ODict<string, string>)
    ensures m.Valid()
  {
    if fsKeys == [] then Empty()
    else
      var prev := BuildMatches(fsKeys[..|fsKeys| - 1], db);
      var k := fsKeys[|fsKeys| - 1];
      match MatchFor(k, db)
      case Some(d) => Put(prev, k, d)
      case None => prev
  }

  lemma {:induction false} FirstCaseInsensitiveSpec(s: string, keys: seq<string>)
    ensures FirstCaseInsensitive(s, keys).None? <==> forall j :: 0 <= j < |keys| ==> Lower(keys[j]) != Lower(s)
    ensures FirstCaseInsensitive(s, keys).Some? ==>
      (exists j :: 0 <= j < |keys| &&
        keys[j] == FirstCaseInsensitive(s, keys).value && Lower(keys[j]) == Lower(s) &&
        forall i :: 0 <= i < j ==> Lower(keys[i]) != Lower(s))
  {
    if keys != [] && Lower(s) != Lower(keys[0]) {
      FirstCaseInsensitiveSpec(s, keys[1..]);
      if FirstCaseInsensitive(s, keys).Some? {
        var j :| 0 <= j < |keys[1..]| && keys[1..][j] == FirstCaseInsensitive(s, keys).value &&
          Lower(keys[1..][j]) == Lower(s) && forall i :: 0 <= i < j ==> Lower(keys[1..][i]) != Lower(s);
        assert forall i :: 1 <= i < j + 1 ==> keys[i] == keys[1..][i - 1];
      } else {
        forall j | 0 <= j < |keys| ensures Lower(keys[j]) != Lower(s) {
          if j > 0 { assert keys[j] == keys[1..][j - 1]; }
        }
      }
    }
  }

  /**
    * Matching: an exact key match is preferred; otherwise the first catalog key
    * equal ignoring case is used; a filesystem slug is left unmatched exactly
    * when no catalog key equals it ignoring case.
    */
  lemma MatchForSpec(fsSlug: string, db: ODict<string, DbDir>)
    requires db.Valid()
    ensures fsSlug in db.vals ==> MatchFor(fsSlug, db) == Some(fsSlug)
    ensures MatchFor(fsSlug, db).None? <==> forall d :: d in db.vals ==> Lower(d) != Lower(fsSlug)
    ensures MatchFor(fsSlug, db).Some? ==>
      (MatchFor(fsSlug, db).value in db.vals && Lower(MatchFor(fsSlug, db).value) == Lower(fsSlug))
    ensures fsSlug !in db.vals && MatchFor(fsSlug, db).Some? ==>
      (exists j :: 0 <= j < |db.keys| && db.keys[j] == MatchFor(fsSlug, db).value &&
        forall i :: 0 <= i < j ==> Lower(db.keys[i]) != Lower(fsSlug))
  {
    FirstCaseInsensitiveSpec(fsSlug, db.keys);
    if MatchFor(fsSlug, db).None? {
      forall d | d in db.vals ensures Lower(d) != Lower(fsSlug) {
        var j :| 0 <= j < |db.keys| && db.keys[j] == d;
      }
    }
  }

  /** Matches map filesystem keys to catalog keys. */
  ghost predicate MatchesInto(m: ODict<string, string>, fs: ODict<string, FsDir>, db: ODict<string, DbDir>) {
    m.Valid() && forall k :: k in m.vals ==> k in fs.vals && m.vals[k] in db.vals
  }

  /**
    * Every key of `slug_matches` is a filesystem key, every value a catalog key,
    * and a filesystem key is present exactly when it has a match.
    */
  lemma {:induction false} BuildMatchesSpec(fsKeys: seq<string>, fs: ODict<string, FsDir>, db: ODict<string, DbDir>)
    requires db.Valid()
    requires forall k :: k in fsKeys ==> k in fs.vals
    ensures var m := BuildMatches(fsKeys, db);
      && MatchesInto(m, fs, db)
      && (forall k :: k in m.vals ==> k in fsKeys && MatchFor(k, db) == Some(m.vals[k]))
      && (forall k :: k in fsKeys ==> (k in m.vals <==> MatchFor(k, db).Some?))
  {
    if fsKeys != [] {
      var front := fsKeys[..|fsKeys| - 1];
      var k := fsKeys[|fsKeys| - 1];
      assert forall x :: x in front ==> x in fsKeys;
      BuildMatchesSpec(front, fs, db);
      MatchForSpec(k, db);
      var prev := BuildMatches(front, db);
      var m := BuildMatches(fsKeys, db);
      forall x | x in fsKeys ensures (x in m.vals <==> MatchFor(x, db).Some?) {
        if x != k {
          assert x in front;
        }
      }
    }
  }

  function MatchedValues(m: ODict<string, string>): set<string> {
    m.vals.Values
  }

  // ---------------------------------------------------------------------------
  // The rules, one issue list per rule

  const OrphanMessage: string := "Collection exists in database but not on filesystem"
  const MissingMessage: string := "Directory exists on filesystem but not in database"
  const ImageMessage: string := "Image count mismatch"
  const VideoMessage: string := "Video count mismatch"
  const SubcollectionMessage: string := "Subcollection count mismatch"
  const FsOnlyConfigMessage: string := "config.json exists on filesystem but not in database"
  const DbOnlyConfigMessage: string := "config.json exists in database but not on filesystem"
  const ParentMessage: string := "Parent directory mismatch"

  /** `check_orphaned_db_entries` over the catalog keys `dbKeys`. */
  function OrphanIssues(dbKeys: seq<string>, matched: set<string>): seq<Issue> {
    if dbKeys == [] then []
    else
      var k := dbKeys[|dbKeys| - 1];
      OrphanIssues(dbKeys[..|dbKeys| - 1], matched) +
      (if k !in matched then [Issue(OrphanedDbEntry, Error, k, OrphanMessage)] else [])
  }

  /** `check_missing_db_entries` over the filesystem keys `fsKeys`. */
  function MissingIssues(fsKeys: seq<string>, m: ODict<string, string>): seq<Issue> {
    if fsKeys == [] then []
    else
      var k := fsKeys[|fsKeys| - 1];
      MissingIssues(fsKeys[..|fsKeys| - 1], m) +
      (if k !in m.vals then [Issue(MissingDbEntry, Error, k, MissingMessage)] else [])
  }

  /**
    * Each catalog slug that is not a matched value gets exactly one
    * "Orphaned DB Entry" error, and no other slug gets one.
    */
  lemma {:induction false} OrphanIssuesExact(dbKeys: seq<string>, matched: set<string>, s: string)
    requires Distinct(dbKeys)
    ensures multiset(SlugsOf(OrphanIssues(dbKeys, matched)))[s] == if s in dbKeys && s !in matched then 1 else 0
  {
    if dbKeys != [] {
      var k := dbKeys[|dbKeys| - 1];
      LastNotInFront(dbKeys);
      OrphanIssuesExact(dbKeys[..|dbKeys| - 1], matched, s);
      var extra := if k !in matched then [Issue(OrphanedDbEntry, Error, k, OrphanMessage)] else [];
      SlugCountAppend(OrphanIssues(dbKeys[..|dbKeys| - 1], matched), extra, s);
      if k !in matched {
        SlugCountOne(Issue(OrphanedDbEntry, Error, k, OrphanMessage), s);
      }
    }
  }

  /** Every orphan issue is an error of its category with the fixed message. */
  lemma {:induction false} OrphanIssuesShape(dbKeys: seq<string>, matched: set<string>)
    ensures forall i :: 0 <= i < |OrphanIssues(dbKeys, matched)| ==>
      OrphanIssues(dbKeys, matched)[i] == Issue(OrphanedDbEntry, Error, OrphanIssues(dbKeys, matched)[i].slug, OrphanMessage)
  {
    if dbKeys != [] {
      OrphanIssuesShape(dbKeys[..|dbKeys| - 1], matched);
    }
  }

  /**
    * Each filesystem slug without a match gets exactly one "Missing DB Entry"
    * error, and no other slug gets one.
    */
  lemma {:induction false} MissingIssuesExact(fsKeys: seq<string>, m: ODict<string, string>, s: string)
    requires Distinct(fsKeys)
    ensures multiset(SlugsOf(MissingIssues(fsKeys, m)))[s] == if s in fsKeys && s !in m.vals then 1 else 0
  {
    if fsKeys != [] {
      var k := fsKeys[|fsKeys| - 1];
      LastNotInFront(fsKeys);
      MissingIssuesExact(fsKeys[..|fsKeys| - 1], m, s);
      var extra := if k !in m.vals then [Issue(MissingDbEntry, Error, k, MissingMessage)] else [];
      SlugCountAppend(MissingIssues(fsKeys[..|fsKeys| - 1], m), extra, s);
      if k !in m.vals {
        SlugCountOne(Issue(MissingDbEntry, Error, k, MissingMessage), s);
      }
    }
  }

  /** Every missing issue is an error of its category with the fixed message. */
  lemma {:induction false} MissingIssuesShape(fsKeys: seq<string>, m: ODict<string, string>)
    ensures forall i :: 0 <= i < |MissingIssues(fsKeys, m)| ==>
      MissingIssues(fsKeys, m)[i] == Issue(MissingDbEntry, Error, MissingIssues(fsKeys, m)[i].slug, MissingMessage)
  {
    if fsKeys != [] {
      MissingIssuesShape(fsKeys[..|fsKeys| - 1], m);
    }
  }

  /**
    * The orphan and missing rules are complementary to matching: every
    * filesystem key is either matched or reported missing, and every catalog
    * key is either a matched value or reported orphaned, never both.
    */
  lemma Complementary(fs: ODict<string, FsDir>, db: ODict<string, DbDir>, s: string)
    requires fs.Valid() && db.Valid()
    ensures var m := BuildMatches(fs.keys, db);
      && (s in fs.vals ==> (s in m.vals <==> multiset(SlugsOf(MissingIssues(fs.keys, m)))[s] == 0))
      && (s in db.vals ==> (s in MatchedValues(m) <==> multiset(SlugsOf(OrphanIssues(db.keys, MatchedValues(m))))[s] == 0))
  {
    var m := BuildMatches(fs.keys, db);
    MissingIssuesExact(fs.keys, m, s);
    OrphanIssuesExact(db.keys, MatchedValues(m), s);
  }

  /** The image-count comparison of `check_count_mismatches`. */
  function ImageCountIssue(f: FsDir, d: DbDir, dbSlug: string): seq<Issue> {
    if f.ImageCount() == d.imageCount then []
    else [Issue(CountMismatch, if Abs(f.ImageCount() - d.imageCount) > 5 then Error else Warning, dbSlug, ImageMessage)]
  }

  /** The video-count comparison of `check_count_mismatches`. */
  function VideoCountIssue(f: FsDir, d: DbDir, dbSlug: string): seq<Issue> {
    if f.VideoCount() == d.videoCount then []
    else [Issue(CountMismatch, if d.videoCount == 0 then Warning else Error, dbSlug, VideoMessage)]
  }

  /** The subcollection comparison of `check_count_mismatches`; excluded names are filtered first. */
  function SubcollectionCountIssue(f: FsDir, d: DbDir, dbSlug: string): seq<Issue> {
    if Abs(|FilterExcluded(f.subdirectories)| - d.subcollectionCount) <= 1 then []
    else [Issue(CountMismatch, Warning, dbSlug, SubcollectionMessage)]
  }

  /** `check_count_mismatches` for one matched pair. */
  function PairCountIssues(f: FsDir, d: DbDir, dbSlug: string): seq<Issue> {
    ImageCountIssue(f, d, dbSlug) + VideoCountIssue(f, d, dbSlug) + SubcollectionCountIssue(f, d, dbSlug)
  }

  /** `[d for d in subdirectories if d not in EXCLUDED_DIRS]` */
  function FilterExcluded(names: seq<string>): (r: seq<string>)
    ensures |r| <= |names|
  {
    if names == [] then []
    else FilterExcluded(names[..|names| - 1]) + (if names[|names| - 1] in ExcludedDirs then [] else [names[|names| - 1]])
  }

  /** The scanner never records an excluded subdirectory, so re-filtering changes nothing. */
  lemma {:induction false} FilterExcludedNoop(names: seq<string>)
    requires forall s :: s in names ==> s !in ExcludedDirs
    ensures FilterExcluded(names) == names
  {
    if names != [] {
      assert forall s :: s in names[..|names| - 1] ==> s in names;
      FilterExcludedNoop(names[..|names| - 1]);
    }
  }

  /**
    * Severity rules for a matched pair: an image-count difference is reported,
    * as an error iff it exceeds 5 and otherwise as a warning; a video-count
    * difference is reported, as a warning iff the catalog has no videos and
    * otherwise as an error; a subcollection difference is reported, as a
    * warning, only when it exceeds 1. Every issue carries the catalog slug.
    */
  lemma PairCountIssuesSpec(f: FsDir, d: DbDir, dbSlug: string)
    ensures var r := PairCountIssues(f, d, dbSlug);
      && (forall x :: x in r ==> x.category == CountMismatch && x.slug == dbSlug && x.severity != Info)
      && ((exists x :: x in r && x.message == ImageMessage) <==> f.ImageCount() != d.imageCount)
      && (forall x :: x in r && x.message == ImageMessage ==>
            x.severity == if Abs(f.ImageCount() - d.imageCount) > 5 then Error else Warning)
      && ((exists x :: x in r && x.message == VideoMessage) <==> f.VideoCount() != d.videoCount)
      && (forall x :: x in r && x.message == VideoMessage ==>
            x.severity == if d.videoCount == 0 then Warning else Error)
      && ((exists x :: x in r && x.message == SubcollectionMessage) <==>
            Abs(|FilterExcluded(f.subdirectories)| - d.subcollectionCount) > 1)
  {
    assert ImageMessage[0] == 'I' && VideoMessage[0] == 'V' && SubcollectionMessage[0] == 'S';
    var a, b, c := ImageCountIssue(f, d, dbSlug), VideoCountIssue(f, d, dbSlug), SubcollectionCountIssue(f, d, dbSlug);
    assert forall x :: x in PairCountIssues(f, d, dbSlug) <==> x in a || x in b || x in c;
  }

  /** `check_config_mismatches` for one matched pair. */
  function PairConfigIssues(f: FsDir, d: DbDir, dbSlug: string): seq<Issue> {
    var fsHas := f.config.Some?;
    var dbHas := d.config.Some?;
    if fsHas && !dbHas then [Issue(ConfigMismatch, Warning, dbSlug, FsOnlyConfigMessage)]
    else if !fsHas && dbHas then [Issue(ConfigMismatch, Info, dbSlug, DbOnlyConfigMessage)]
    else []
  }

  /**
    * A config present only on disk is a warning, one present only in the
    * catalog is informational, and when both or neither have one there is no
    * issue (the contents are not compared).
    */
  lemma PairConfigIssuesSpec(f: FsDir, d: DbDir, dbSlug: string)
    ensures var r := PairConfigIssues(f, d, dbSlug);
      && (r == [] <==> f.config.Some? == d.config.Some?)
      && (r != [] ==> |r| == 1 && r[0].category == ConfigMismatch && r[0].slug == dbSlug &&
                      r[0].severity == (if f.config.Some? then Warning else Info))
  {
  }

  /**
    * `check_hierarchy_validation` for one matched pair, as written: the
    * lowercased bare parent NAME is looked up among the filesystem keys, which
    * are expected slugs (full hyphenated paths for nested directories).
    */
  function BareNameHierarchyIssues(f: FsDir, d: DbDir, dbSlug: string, fs: ODict<string, FsDir>): seq<Issue> {
    var fsParent := LowerOrNone(f.parentSlug);
    var dbParent := LowerOrNone(d.parentSlug);
    if fsParent.Some? && fsParent.value in fs.vals then
      var expectedParent := ExpectedDbSlug(fs.vals[fsParent.value]);
      if dbParent.Some? && dbParent.value != expectedParent then
        [Issue(HierarchyMismatch, Error, dbSlug, ParentMessage)]
      else []
    else []
  }

  /**
    * As written, a hierarchy error is emitted exactly when the lowercased
    * filesystem parent name is itself a filesystem key, the catalog parent is
    * set, and the lowercased catalog parent differs from that key's record's
    * expected slug.
    */
  lemma BareNameHierarchyIssuesSpec(f: FsDir, d: DbDir, dbSlug: string, fs: ODict<string, FsDir>)
    ensures var r := BareNameHierarchyIssues(f, d, dbSlug, fs);
      && (r != [] <==>
            Truthy(f.parentSlug) && Lower(f.parentSlug.value) in fs.vals && Truthy(d.parentSlug) &&
            Lower(d.parentSlug.value) != ExpectedDbSlug(fs.vals[Lower(f.parentSlug.value)]))
      && (r != [] ==> r == [Issue(HierarchyMismatch, Error, dbSlug, ParentMessage)])
  {
  }

  /** The expected catalog slug of a directory's parent, computed from the directory's own path. */
  function ParentExpectedSlug(f: FsDir): Option<string> {
    if !Truthy(f.parentSlug) || |f.fullPathSlugs| < 2 then None
    else Some(Join("-", NormalizeAll(f.fullPathSlugs[..|f.fullPathSlugs| - 1])))
  }

  /**
    * `check_hierarchy_validation` for one matched pair, as intended: the
    * catalog parent is compared with the expected slug of the directory's real
    * parent.
    */
  function PairHierarchyIssues(f: FsDir, d: DbDir, dbSlug: string): seq<Issue> {
    var dbParent := LowerOrNone(d.parentSlug);
    match ParentExpectedSlug(f)
    case Some(expectedParent) =>
      if dbParent.Some? && dbParent.value != expectedParent then
        [Issue(HierarchyMismatch, Error, dbSlug, ParentMessage)]
      else []
    case None => []
  }

  lemma LowerOfLowercase(s: string)
    requires forall c :: c in s ==> !IsUpper(c)
    ensures Lower(s) == s
  {
    forall i | 0 <= i < |s| ensures Lower(s)[i] == s[i] {
      assert s[i] in s;
    }
  }

  /**
    * For a nested directory `f` whose parent directory is `g`, the corrected
    * rule reports an error exactly when the catalog records a parent and that
    * parent, lowercased, is not `g`'s expected slug; a catalog that records
    * `g`'s expected slug as the parent therefore gets no hierarchy issue.
    */
  lemma PairHierarchyIssuesSpec(g: FsDir, f: FsDir, d: DbDir, dbSlug: string)
    requires WellFormed(g) && WellFormed(f) && NamedPath(f)
    requires f.fullPathSlugs == g.fullPathSlugs + [f.slug]
    ensures var r := PairHierarchyIssues(f, d, dbSlug);
      && (r != [] <==> Truthy(d.parentSlug) && Lower(d.parentSlug.value) != ExpectedDbSlug(g))
      && (r != [] ==> r == [Issue(HierarchyMismatch, Error, dbSlug, ParentMessage)])
      && (d.parentSlug == Some(ExpectedDbSlug(g)) ==> r == [])
  {
    var p := f.fullPathSlugs;
    assert p[|p| - 2] in p;
    assert Truthy(f.parentSlug);
    assert p[..|p| - 1] == g.fullPathSlugs;
    assert NamedPath(g) by {
      forall x | x in g.fullPathSlugs ensures x != "" {
        assert x in p;
      }
    }
    ExpectedSlugIsPathSlug(g);
    ExpectedSlugIsNormalized(g);
    LowerOfLowercase(ExpectedDbSlug(g));
  }

  /** A root directory never gets a hierarchy issue under the corrected rule. */
  lemma RootHasNoHierarchyIssue(f: FsDir, d: DbDir, dbSlug: string)
    requires WellFormed(f) && f.parentSlug.None?
    ensures PairHierarchyIssues(f, d, dbSlug) == []
  {
  }

  /**
    * The as-written rule both raises a false alarm and misses a real
    * mismatch. Filesystem: root `art` holding `sub` holding `leaf`, plus a
    * second root `sub`. The catalog records `art-sub-leaf` under its true
    * parent `art-sub`; the bare name `sub` hits the root `sub`, whose expected
    * slug `sub` differs, so an error is reported. Without the second root, a
    * catalog parent `wrong` is never checked at all.
    */
  lemma BareNameLookupCounterexample()
    ensures
      var art := FsDir("art", None, ["art"], None, None, [], [], ["sub"]);
      var artSub := FsDir("sub", Some("art"), ["art", "sub"], None, None, [], [], ["leaf"]);
      var leaf := FsDir("leaf", Some("sub"), ["art", "sub", "leaf"], None, None, [], [], []);
      var sub := FsDir("sub", None, ["sub"], None, None, [], [], []);
      var withSub := ODict(["art", "art-sub", "art-sub-leaf", "sub"],
                           map["art" := art, "art-sub" := artSub, "art-sub-leaf" := leaf, "sub" := sub]);
      var withoutSub := ODict(["art", "art-sub", "art-sub-leaf"],
                              map["art" := art, "art-sub" := artSub, "art-sub-leaf" := leaf]);
      var truth := DbDir("art-sub-leaf", Some("art-sub"), None, None, 0, 0, 0, []);
      var wrong := DbDir("art-sub-leaf", Some("wrong"), None, None, 0, 0, 0, []);
      && BareNameHierarchyIssues(leaf, truth, "art-sub-leaf", withSub) != []
      && PairHierarchyIssues(leaf, truth, "art-sub-leaf") == []
      && BareNameHierarchyIssues(leaf, wrong, "art-sub-leaf", withoutSub) == []
      && PairHierarchyIssues(leaf, wrong, "art-sub-leaf") != []
  {
    assert Lower("sub") == "sub" by { LowerOfLowercase("sub"); }
    assert Lower("art-sub") == "art-sub" by { LowerOfLowercase("art-sub"); }
    assert NormalizeSegment("art") == "art" by { LowerOfLowercase("art"); }
    assert NormalizeSegment("sub") == "sub";
    assert NormalizeAll(["art", "sub"]) == ["art", "sub"];
    assert Join("-", ["art", "sub"]) == "art-sub" by {
      assert ["art", "sub"][..1] == ["art"];
    }
    assert ["art", "sub", "leaf"][..2] == ["art", "sub"];
    assert LowerOrNone(Some("wrong")) == Some("wrong") by { LowerOfLowercase("wrong"); }
  }

  // Folds of the per-pair rules over the match table, in its insertion order.

  ghost predicate PairsIn(keys: seq<string>, m: ODict<string, string>, fs: ODict<string, FsDir>, db: ODict<string, DbDir>) {
    forall k :: k in keys ==> k in m.vals && k in fs.vals && m.vals[k] in db.vals
  }

  function CountIssues(keys: seq<string>, m: ODict<string, string>, fs: ODict<string, FsDir>, db: ODict<string, DbDir>): seq<Issue>
    requires PairsIn(keys, m, fs, db)
  {
    if keys == [] then []
    else
      var k := keys[|keys| - 1];
      CountIssues(keys[..|keys| - 1], m, fs, db) + PairCountIssues(fs.vals[k], db.vals[m.vals[k]], m.vals[k])
  }

  function ConfigIssues(keys: seq<string>, m: ODict<string, string>, fs: ODict<string, FsDir>, db: ODict<string, DbDir>): seq<Issue>
    requires PairsIn(keys, m, fs, db)
  {
    if keys == [] then []
    else
      var k := keys[|keys| - 1];
      ConfigIssues(keys[..|keys| - 1], m, fs, db) + PairConfigIssues(fs.vals[k], db.vals[m.vals[k]], m.vals[k])
  }

  function HierarchyIssues(keys: seq<string>, m: ODict<string, string>, fs: ODict<string, FsDir>, db: ODict<string, DbDir>): seq<Issue>
    requires PairsIn(keys, m, fs, db)
  {
    if keys == [] then []
    else
      var k := keys[|keys| - 1];
      HierarchyIssues(keys[..|keys| - 1], m, fs, db) + PairHierarchyIssues(fs.vals[k], db.vals[m.vals[k]], m.vals[k])
  }

  lemma PrefixPairsIn(keys: seq<string>, m: ODict<string, string>, fs: ODict<string, FsDir>, db: ODict<string, DbDir>)
    requires keys != [] && PairsIn(keys, m, fs, db)
    ensures PairsIn(keys[..|keys| - 1], m, fs, db)
  {
    assert forall x :: x in keys[..|keys| - 1] ==> x in keys;
  }

  lemma AppendAssoc(a: seq<Issue>, b: seq<Issue>, c: seq<Issue>)
    ensures (a + b) + c == a + (b + c)
  {
  }

  /** Extending the folds by the next matched pair. */
  lemma CountIssuesSnoc(keys: seq<string>, i: nat, m: ODict<string, string>, fs: ODict<string, FsDir>, db: ODict<string, DbDir>)
    requires PairsIn(keys, m, fs, db) && i < |keys|
    ensures PairsIn(keys[..i], m, fs, db) && PairsIn(keys[..i + 1], m, fs, db)
    ensures CountIssues(keys[..i + 1], m, fs, db) ==
      CountIssues(keys[..i], m, fs, db) + PairCountIssues(fs.vals[keys[i]], db.vals[m.vals[keys[i]]], m.vals[keys[i]])
  {
    assert forall x :: x in keys[..i + 1] ==> x in keys;
    assert keys[..i + 1][..i] == keys[..i];
  }

  lemma ConfigIssuesSnoc(keys: seq<string>, i: nat, m: ODict<string, string>, fs: ODict<string, FsDir>, db: ODict<string, DbDir>)
    requires PairsIn(keys, m, fs, db) && i < |keys|
    ensures PairsIn(keys[..i], m, fs, db) && PairsIn(keys[..i + 1], m, fs, db)
    ensures ConfigIssues(keys[..i + 1], m, fs, db) ==
      ConfigIssues(keys[..i], m, fs, db) + PairConfigIssues(fs.vals[keys[i]], db.vals[m.vals[keys[i]]], m.vals[keys[i]])
  {
    assert forall x :: x in keys[..i + 1] ==> x in keys;
    assert keys[..i + 1][..i] == keys[..i];
  }

  lemma HierarchyIssuesSnoc(keys: seq<string>, i: nat, m: ODict<string, string>, fs: ODict<string, FsDir>, db: ODict<string, DbDir>)
    requires PairsIn(keys, m, fs, db) && i < |keys|
    ensures PairsIn(keys[..i], m, fs, db) && PairsIn(keys[..i + 1], m, fs, db)
    ensures HierarchyIssues(keys[..i + 1], m, fs, db) ==
      HierarchyIssues(keys[..i], m, fs, db) + PairHierarchyIssues(fs.vals[keys[i]], db.vals[m.vals[keys[i]]], m.vals[keys[i]])
  {
    assert forall x :: x in keys[..i + 1] ==> x in keys;
    assert keys[..i + 1][..i] == keys[..i];
  }

  /** `validate()`: the five rules in their fixed order. */
  function AllIssues(fs: ODict<string, FsDir>, db: ODict<string, DbDir>, m: ODict<string, string>): seq<Issue>
    requires MatchesInto(m, fs, db)
  {
    OrphanIssues(db.keys, MatchedValues(m)) +
    MissingIssues(fs.keys, m) +
    CountIssues(m.keys, m, fs, db) +
    ConfigIssues(m.keys, m, fs, db) +
    HierarchyIssues(m.keys, m, fs, db)
  }

  lemma {:induction false} OrphanCategory(dbKeys: seq<string>, matched: set<string>)
    ensures forall x :: x in OrphanIssues(dbKeys, matched) ==> x.category == OrphanedDbEntry
  {
    if dbKeys != [] {
      OrphanCategory(dbKeys[..|dbKeys| - 1], matched);
    }
  }

  lemma {:induction false} MissingCategory(fsKeys: seq<string>, m: ODict<string, string>)
    ensures forall x :: x in MissingIssues(fsKeys, m) ==> x.category == MissingDbEntry
  {
    if fsKeys != [] {
      MissingCategory(fsKeys[..|fsKeys| - 1], m);
    }
  }

  lemma {:induction false} CountCategory(keys: seq<string>, m: ODict<string, string>, fs: ODict<string, FsDir>, db: ODict<string, DbDir>)
    requires PairsIn(keys, m, fs, db)
    ensures forall x :: x in CountIssues(keys, m, fs, db) ==> x.category == CountMismatch
  {
    if keys != [] {
      var k := keys[|keys| - 1];
      PrefixPairsIn(keys, m, fs, db);
      CountCategory(keys[..|keys| - 1], m, fs, db);
      PairCountIssuesSpec(fs.vals[k], db.vals[m.vals[k]], m.vals[k]);
    }
  }

  lemma {:induction false} ConfigCategory(keys: seq<string>, m: ODict<string, string>, fs: ODict<string, FsDir>, db: ODict<string, DbDir>)
    requires PairsIn(keys, m, fs, db)
    ensures forall x :: x in ConfigIssues(keys, m, fs, db) ==> x.category == ConfigMismatch
  {
    if keys != [] {
      PrefixPairsIn(keys, m, fs, db);
      ConfigCategory(keys[..|keys| - 1], m, fs, db);
    }
  }

  lemma {:induction false} HierarchyCategory(keys: seq<string>, m: ODict<string, string>, fs: ODict<string, FsDir>, db: ODict<string, DbDir>)
    requires PairsIn(keys, m, fs, db)
    ensures forall x :: x in HierarchyIssues(keys, m, fs, db) ==> x.category == HierarchyMismatch
  {
    if keys != [] {
      PrefixPairsIn(keys, m, fs, db);
      HierarchyCategory(keys[..|keys| - 1], m, fs, db);
    }
  }

  /** The slug-aware validator has no duplicate-slug rule: no issue it reports is a "Duplicate Slug". */
  lemma NoDuplicateSlugRule(fs: ODict<string, FsDir>, db: ODict<string, DbDir>, m: ODict<string, string>)
    requires MatchesInto(m, fs, db)
    ensures forall x :: x in AllIssues(fs, db, m) ==> x.category != DuplicateSlug
  {
    OrphanCategory(db.keys, MatchedValues(m));
    MissingCategory(fs.keys, m);
    assert PairsIn(m.keys, m, fs, db);
    CountCategory(m.keys, m, fs, db);
    ConfigCategory(m.keys, m, fs, db);
    HierarchyCategory(m.keys, m, fs, db);
  }

  /** The body of the `check_count_mismatches` loop for one matched pair. */
  method CompareCounts(fsDir: FsDir, dbDir: DbDir, dbSlug: string) returns (found: seq<Issue>)
    ensures found == PairCountIssues(fsDir, dbDir, dbSlug)
  {
    found := [];
    if fsDir.ImageCount() != dbDir.imageCount {
      var severity := if Abs(fsDir.ImageCount() - dbDir.imageCount) > 5 then Error else Warning;
      found := found + [Issue(CountMismatch, severity, dbSlug, ImageMessage)];
    }
    if fsDir.VideoCount() != dbDir.videoCount {
      var severity := if dbDir.videoCount == 0 then Warning else Error;
      found := found + [Issue(CountMismatch, severity, dbSlug, VideoMessage)];
    }
    var fsSubdirCount := |FilterExcluded(fsDir.subdirectories)|;
    if Abs(fsSubdirCount - dbDir.subcollectionCount) > 1 {
      found := found + [Issue(CountMismatch, Warning, dbSlug, SubcollectionMessage)];
    }
  }

  /** The body of the `check_hierarchy_validation` loop for one matched pair (corrected lookup). */
  method CompareParents(fsDir: FsDir, dbDir: DbDir, dbSlug: string) returns (found: seq<Issue>)
    ensures found == PairHierarchyIssues(fsDir, dbDir, dbSlug)
  {
    var dbParent := LowerOrNone(dbDir.parentSlug);
    var expected := ParentExpectedSlug(fsDir);
    found := [];
    if expected.Some? && dbParent.Some? && dbParent.value != expected.value {
      found := [Issue(HierarchyMismatch, Error, dbSlug, ParentMessage)];
    }
  }

  // ---------------------------------------------------------------------------
  // The validator object

  /** `SlugAwareValidator`: the two scans, the match table it builds once, and the issue list its checks append to. */
  class SlugAwareValidator {
    const fsDirs: ODict<string, FsDir>
    const dbDirs: ODict<string, DbDir>
    var issues: seq<Issue>
    var slugMatches: ODict<string, string>

    ghost predicate Valid()
      reads this`slugMatches
    {
      fsDirs.Valid() && dbDirs.Valid() && MatchesInto(slugMatches, fsDirs, dbDirs)
    }

    constructor (fs: ODict<string, FsDir>, db: ODict<string, DbDir>)
      requires fs.Valid() && db.Valid()
      ensures fsDirs == fs && dbDirs == db && issues == []
      ensures slugMatches == BuildMatches(fs.keys, db)
      ensures Valid()
    {
      fsDirs, dbDirs := fs, db;
      issues := [];
      slugMatches := Empty();
      new;
      BuildSlugMatches();
      BuildMatchesSpec(fs.keys, fs, db);
    }

    /** `_build_slug_matches`: exact match first, otherwise the first case-insensitive catalog key. */
    method BuildSlugMatches()
      requires slugMatches == Empty()
      modifies this`slugMatches
      ensures slugMatches == BuildMatches(fsDirs.keys, dbDirs)
    {
      var i := 0;
      while i < |fsDirs.keys|
        invariant 0 <= i <= |fsDirs.keys|
        invariant slugMatches == BuildMatches(fsDirs.keys[..i], dbDirs)
      {
        var fsSlug := fsDirs.keys[i];
        assert fsDirs.keys[..i + 1][..i] == fsDirs.keys[..i];
        if fsSlug in dbDirs.vals {
          slugMatches := Put(slugMatches, fsSlug, fsSlug);
        } else {
          var j := 0;
          while j < |dbDirs.keys|
            invariant 0 <= j <= |dbDirs.keys|
            invariant slugMatches == BuildMatches(fsDirs.keys[..i], dbDirs)
            invariant FirstCaseInsensitive(fsSlug, dbDirs.keys) == FirstCaseInsensitive(fsSlug, dbDirs.keys[j..])
          {
            var dbSlug := dbDirs.keys[j];
            assert dbDirs.keys[j..][1..] == dbDirs.keys[j + 1..];
            if Lower(fsSlug) == Lower(dbSlug) {
              slugMatches := Put(slugMatches, fsSlug, dbSlug);
              break;
            }
            j := j + 1;
          }
        }
        i := i + 1;
      }
      assert fsDirs.keys[..i] == fsDirs.keys;
    }

    method CheckOrphanedDbEntries()
      requires Valid()
      modifies this`issues
      ensures issues == old(issues) + OrphanIssues(dbDirs.keys, MatchedValues(slugMatches))
    {
      var matched := slugMatches.vals.Values;
      var i := 0;
      while i < |dbDirs.keys|
        invariant 0 <= i <= |dbDirs.keys|
        invariant issues == old(issues) + OrphanIssues(dbDirs.keys[..i], matched)
      {
        var dbSlug := dbDirs.keys[i];
        assert dbDirs.keys[..i + 1][..i] == dbDirs.keys[..i];
        if dbSlug !in matched {
          issues := issues + [Issue(OrphanedDbEntry, Error, dbSlug, OrphanMessage)];
        }
        i := i + 1;
      }
      assert dbDirs.keys[..i] == dbDirs.keys;
    }

    method CheckMissingDbEntries()
      requires Valid()
      modifies this`issues
      ensures issues == old(issues) + MissingIssues(fsDirs.keys, slugMatches)
    {
      var i := 0;
      while i < |fsDirs.keys|
        invariant 0 <= i <= |fsDirs.keys|
        invariant issues == old(issues) + MissingIssues(fsDirs.keys[..i], slugMatches)
      {
        var fsSlug := fsDirs.keys[i];
        assert fsDirs.keys[..i + 1][..i] == fsDirs.keys[..i];
        if fsSlug !in slugMatches.vals {
          issues := issues + [Issue(MissingDbEntry, Error, fsSlug, MissingMessage)];
        }
        i := i + 1;
      }
      assert fsDirs.keys[..i] == fsDirs.keys;
    }

    method CheckCountMismatches()
      requires Valid()
      modifies this`issues
      ensures issues == old(issues) + CountIssues(slugMatches.keys, slugMatches, fsDirs, dbDirs)
    {
      var keys := slugMatches.keys;
      assert PairsIn(keys, slugMatches, fsDirs, dbDirs);
      var i := 0;
      while i < |keys|
        invariant 0 <= i <= |keys|
        invariant PairsIn(keys[..i], slugMatches, fsDirs, dbDirs)
        invariant issues == old(issues) + CountIssues(keys[..i], slugMatches, fsDirs, dbDirs)
      {
        var fsSlug := keys[i];
        var dbSlug := slugMatches.vals[fsSlug];
        var fsDir, dbDir := fsDirs.vals[fsSlug], dbDirs.vals[dbSlug];
        var found := CompareCounts(fsDir, dbDir, dbSlug);
        CountIssuesSnoc(keys, i, slugMatches, fsDirs, dbDirs);
        AppendAssoc(old(issues), CountIssues(keys[..i], slugMatches, fsDirs, dbDirs), found);
        issues := issues + found;
        i := i + 1;
      }
      assert keys[..i] == keys;
    }

    method CheckConfigMismatches()
      requires Valid()
      modifies this`issues
      ensures issues == old(issues) + ConfigIssues(slugMatches.keys, slugMatches, fsDirs, dbDirs)
    {
      var keys := slugMatches.keys;
      assert PairsIn(keys, slugMatches, fsDirs, dbDirs);
      var i := 0;
      while i < |keys|
        invariant 0 <= i <= |keys|
        invariant PairsIn(keys[..i], slugMatches, fsDirs, dbDirs)
        invariant issues == old(issues) + ConfigIssues(keys[..i], slugMatches, fsDirs, dbDirs)
      {
        var fsSlug := keys[i];
        var dbSlug := slugMatches.vals[fsSlug];
        var fsHasConfig := fsDirs.vals[fsSlug].config.Some?;
        var dbHasConfig := dbDirs.vals[dbSlug].config.Some?;
        var found: seq<Issue> := [];
        if fsHasConfig && !dbHasConfig {
          found := [Issue(ConfigMismatch, Warning, dbSlug, FsOnlyConfigMessage)];
        } else if !fsHasConfig && dbHasConfig {
          found := [Issue(ConfigMismatch, Info, dbSlug, DbOnlyConfigMessage)];
        }
        assert found == PairConfigIssues(fsDirs.vals[fsSlug], dbDirs.vals[dbSlug], dbSlug);
        ConfigIssuesSnoc(keys, i, slugMatches, fsDirs, dbDirs);
        issues := issues + found;
        i := i + 1;
      }
      assert keys[..i] == keys;
    }

    method CheckHierarchyValidation()
      requires Valid()
      modifies this`issues
      ensures issues == old(issues) + HierarchyIssues(slugMatches.keys, slugMatches, fsDirs, dbDirs)
    {
      var keys := slugMatches.keys;
      assert PairsIn(keys, slugMatches, fsDirs, dbDirs);
      var i := 0;
      while i < |keys|
        invariant 0 <= i <= |keys|
        invariant PairsIn(keys[..i], slugMatches, fsDirs, dbDirs)
        invariant issues == old(issues) + HierarchyIssues(keys[..i], slugMatches, fsDirs, dbDirs)
      {
        var fsSlug := keys[i];
        var dbSlug := slugMatches.vals[fsSlug];
        var found := CompareParents(fsDirs.vals[fsSlug], dbDirs.vals[dbSlug], dbSlug);
        HierarchyIssuesSnoc(keys, i, slugMatches, fsDirs, dbDirs);
        issues := issues + found;
        i := i + 1;
      }
      assert keys[..i] == keys;
    }

    /** `validate()`: the five checks in order; returns the accumulated issue list. */
    method Validate() returns (r: seq<Issue>)
      requires Valid()
      modifies this`issues
      ensures issues == old(issues) + AllIssues(fsDirs, dbDirs, slugMatches)
      ensures r == issues
    {
      ghost var start := issues;
      CheckOrphanedDbEntries();
      ghost var o := OrphanIssues(dbDirs.keys, MatchedValues(slugMatches));
      CheckMissingDbEntries();
      ghost var mi := MissingIssues(fsDirs.keys, slugMatches);
      AppendAssoc(start, o, mi);
      CheckCountMismatches();
      ghost var c := CountIssues(slugMatches.keys, slugMatches, fsDirs, dbDirs);
      AppendAssoc(start, o + mi, c);
      CheckConfigMismatches();
      ghost var g := ConfigIssues(slugMatches.keys, slugMatches, fsDirs, dbDirs);
      AppendAssoc(start, o + mi + c, g);
      CheckHierarchyValidation();
      ghost var h := HierarchyIssues(slugMatches.keys, slugMatches, fsDirs, dbDirs);
      AppendAssoc(start, o + mi + c + g, h);
      r := issues;
    }
  }

  // ---------------------------------------------------------------------------
  // The script

  /**
    * `main()` up to the report: `None` when the content root is missing or the
    * catalog scan came back empty, otherwise the issues of a fresh validator.
    */
  function Validation(rootExists: bool, roots: seq<Entry>, list: CollectionList): Option<seq<Issue>> {
    if !rootExists then None
    else
      var fs := ScanRoot(Empty(), roots);
      var db := ScanCatalog(list);
      if db.keys == [] then None
      else
        BuildMatchesSpec(fs.keys, fs, db);
        Some(AllIssues(fs, db, BuildMatches(fs.keys, db)))
  }

  /** `main()`: scan both sides with fresh scanners and validate, stopping early as the script does. */
  method RunValidation(rootExists: bool, roots: seq<Entry>, list: CollectionList) returns (r: Option<seq<Issue>>)
    ensures r == Validation(rootExists, roots, list)
  {
    if !rootExists {
      return None;
    }
    var fsScanner := new FilesystemScanner();
    var fsDirs := fsScanner.Scan(roots);
    var dbScanner := new DatabaseScanner();
    var dbDirs := dbScanner.Scan(list);
    assert fsDirs == ScanRoot(Empty(), roots);
    assert dbDirs == ScanCatalog(list);
    if dbDirs.keys == [] {
      return None;
    }
    var validator := new SlugAwareValidator(fsDirs, dbDirs);
    assert validator.issues == [] && validator.slugMatches == BuildMatches(fsDirs.keys, dbDirs);
    var issues := validator.Validate();
    assert issues == AllIssues(fsDirs, dbDirs, BuildMatches(fsDirs.keys, dbDirs));
    r := Some(issues);
  }

  /**
    * The script reports nothing when the content root is missing or the
    * catalog yields no collections (in particular when the API call failed);
    * otherwise every reported issue is one of the five v2 rule kinds, never a
    * duplicate-slug issue.
    */
  lemma ValidationSpec(rootExists: bool, roots: seq<Entry>, list: CollectionList)
    ensures Validation(rootExists, roots, list).None? <==> !rootExists || ScanCatalog(list).keys == []
    ensures list.ListFailed? ==> Validation(rootExists, roots, list).None?
    ensures Validation(rootExists, roots, list).Some? ==>
      forall x :: x in Validation(rootExists, roots, list).value ==> x.category != DuplicateSlug
  {
    ScanCatalogSound(list);
    if rootExists && ScanCatalog(list).keys != [] {
      var fs := ScanRoot(Empty(), roots);
      var db := ScanCatalog(list);
        BuildMatchesSpec(fs.keys, fs, db);
      NoDuplicateSlugRule(fs, db, BuildMatches(fs.keys, db));
    }
  }
}
