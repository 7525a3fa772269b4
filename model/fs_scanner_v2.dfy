/**
  * `FilesystemScanner` of src/backend/validate_database_v2.py: walks the content
  * tree, sorts files into images, videos and `config.json`, skips excluded
  * directory names, and stores every directory under its expected catalog slug.
  */
module FsScannerV2 {
  import opened Wrappers
  import opened Text
  import opened OrderedDict
  import opened Catalog

  /** `FileSystemDirectory`; the absolute `path` string is not modelled. */
  datatype FsDir = FsDir(
    slug: string,
    parentSlug: Option<string>,
    fullPathSlugs: seq<string>,
    config: Option<JsonDoc>,
    heroImage: Option<string>,
    imageFiles: seq<string>,
    videoFiles: seq<string>,
    subdirectories: seq<string>)
  {
    function ImageCount(): nat { |imageFiles| }
    function VideoCount(): nat { |videoFiles| }
  }

  /** One path element as it appears in a catalog slug: lower case, spaces as hyphens. */
  function NormalizeSegment(s: string): string {
    ReplaceChar(Lower(s), ' ', '-')
  }

  function NormalizeAll(path: seq<string>): (r: seq<string>)
    ensures |r| == |path|
    ensures forall i :: 0 <= i < |path| ==> r[i] == NormalizeSegment(path[i])
  {
    seq(|path|, i requires 0 <= i < |path| => NormalizeSegment(path[i]))
  }

  /** The slug the catalog is expected to use for a directory (`expected_db_slug`). */
  function ExpectedDbSlug(d: FsDir): string {
    if !Truthy(d.parentSlug) then NormalizeSegment(d.slug)
    else Join("-", NormalizeAll(d.fullPathSlugs))
  }

  /** A record as the scanner builds it: its path ends with its own name, and it is a root iff it has no parent. */
  ghost predicate WellFormed(d: FsDir) {
    |d.fullPathSlugs| >= 1 && d.fullPathSlugs[|d.fullPathSlugs| - 1] == d.slug &&
    (d.parentSlug.None? <==> |d.fullPathSlugs| == 1) &&
    (d.parentSlug.Some? ==> d.parentSlug.value == d.fullPathSlugs[|d.fullPathSlugs| - 2])
  }

  /** Directory names on a disk are never empty. */
  ghost predicate NamedPath(d: FsDir) {
    forall s :: s in d.fullPathSlugs ==> s != ""
  }

  /** The expected slug is the hyphen-join of the whole normalised path, for roots as for nested directories. */
  lemma ExpectedSlugIsPathSlug(d: FsDir)
    requires WellFormed(d) && NamedPath(d)
    ensures ExpectedDbSlug(d) == Join("-", NormalizeAll(d.fullPathSlugs))
  {
    if d.parentSlug.None? {
      assert d.fullPathSlugs == [d.slug];
      assert NormalizeAll(d.fullPathSlugs) == [NormalizeSegment(d.slug)];
    } else {
      assert d.parentSlug.value in d.fullPathSlugs;
    }
  }

  /** A child's expected slug is its parent's expected slug, a hyphen, and its own normalised name. */
  lemma ExpectedSlugExtendsParent(parent: FsDir, child: FsDir)
    requires WellFormed(parent) && WellFormed(child) && NamedPath(child)
    requires child.fullPathSlugs == parent.fullPathSlugs + [child.slug]
    ensures ExpectedDbSlug(child) == ExpectedDbSlug(parent) + "-" + NormalizeSegment(child.slug)
  {
    var p := parent.fullPathSlugs;
    assert NamedPath(parent) by {
      forall s | s in p ensures s != "" {
        assert s in child.fullPathSlugs;
      }
    }
    ExpectedSlugIsPathSlug(parent);
    ExpectedSlugIsPathSlug(child);
    assert NormalizeAll(p + [child.slug]) == NormalizeAll(p) + [NormalizeSegment(child.slug)];
    JoinLast("-", NormalizeAll(p), NormalizeSegment(child.slug));
  }

  /** No space and no upper-case letter. */
  predicate SlugChar(c: char) {
    c != ' ' && !IsUpper(c)
  }

  /** Expected slugs contain no spaces and no upper-case letters. */
  lemma ExpectedSlugIsNormalized(d: FsDir)
    ensures forall c :: c in ExpectedDbSlug(d) ==> SlugChar(c)
  {
    if Truthy(d.parentSlug) {
      var parts := NormalizeAll(d.fullPathSlugs);
      JoinChars("-", parts);
      forall c | c in ExpectedDbSlug(d) ensures SlugChar(c) {
        if c !in "-" {
          var i :| 0 <= i < |parts| && c in parts[i];
          assert parts[i] == NormalizeSegment(d.fullPathSlugs[i]);
        }
      }
    }
  }

  // ---------------------------------------------------------------------------
  // Classification of one directory's entries

  predicate IsImageFile(e: Entry) {
    e.File? && Lower(Suffix(e.name)) in ImageExtensions
  }

  predicate IsVideoFile(e: Entry) {
    e.File? && !IsImageFile(e) && Lower(Suffix(e.name)) in VideoExtensions
  }

  predicate IsHeroImage(e: Entry) {
    IsImageFile(e) && Lower(Stem(e.name)) == "hero"
  }

  predicate IsConfigFile(e: Entry) {
    e.File? && !IsImageFile(e) && !IsVideoFile(e) && e.name == "config.json"
  }

  /** A subdirectory the scanner records and descends into. */
  predicate IsScannedDir(e: Entry) {
    e.Dir? && e.dir.name !in ExcludedDirs
  }

  function EntryName(e: Entry): string {
    match e
    case File(name, _) => name
    case Dir(d) => d.name
    case Special(name) => name
  }

  /** The record before any entry is looked at. */
  function InitialRecord(name: string, parent: Option<string>, path: seq<string>): FsDir {
    FsDir(name, parent, path + [name], None, None, [], [], [])
  }

  /** The effect of one entry on the directory's record (one pass of the scanning loop). */
  function ClassifyStep(r: FsDir, e: Entry): FsDir {
    match e
    case File(name, asJson) =>
      var ext := Lower(Suffix(name));
      if ext in ImageExtensions then
        r.(imageFiles := r.imageFiles + [name],
           heroImage := if Lower(Stem(name)) == "hero" then Some(name) else r.heroImage)
      else if ext in VideoExtensions then
        r.(videoFiles := r.videoFiles + [name])
      else if name == "config.json" then
        (match asJson
         case Unreadable => r
         case Loaded(v) => r.(config := v))
      else r
    case Dir(d) =>
      if d.name !in ExcludedDirs then r.(subdirectories := r.subdirectories + [d.name]) else r
    case Special(_) => r
  }

  function ClassifyAll(r: FsDir, items: seq<Entry>): FsDir {
    if items == [] then r
    else ClassifyStep(ClassifyAll(r, items[..|items| - 1]), items[|items| - 1])
  }

  /** Names of the entries satisfying `p`, in listing order. */
  function NamesWhere(items: seq<Entry>, p: Entry -> bool): seq<string> {
    if items == [] then []
    else (if p(items[0]) then [EntryName(items[0])] else []) + NamesWhere(items[1..], p)
  }

  /** Name of the last entry satisfying `p`. */
  function LastWhere(items: seq<Entry>, p: Entry -> bool): Option<string> {
    if items == [] then None
    else if LastWhere(items[1..], p).Some? then LastWhere(items[1..], p)
    else if p(items[0]) then Some(EntryName(items[0]))
    else None
  }

  /** Value of the last `config.json` that could be read, if any. */
  function LastConfig(items: seq<Entry>): Option<Option<JsonDoc>> {
    if items == [] then None
    else if LastConfig(items[1..]).Some? then LastConfig(items[1..])
    else if IsConfigFile(items[0]) && items[0].asJson.Loaded? then Some(items[0].asJson.value)
    else None
  }

  lemma {:induction false} NamesWhereSnoc(items: seq<Entry>, e: Entry, p: Entry -> bool)
    ensures NamesWhere(items + [e], p) == NamesWhere(items, p) + (if p(e) then [EntryName(e)] else [])
  {
    if items != [] {
      assert (items + [e])[1..] == items[1..] + [e];
      NamesWhereSnoc(items[1..], e, p);
    } else {
      assert items + [e] == [e];
    }
  }

  lemma {:induction false} LastWhereSnoc(items: seq<Entry>, e: Entry, p: Entry -> bool)
    ensures LastWhere(items + [e], p) == if p(e) then Some(EntryName(e)) else LastWhere(items, p)
  {
    if items != [] {
      assert (items + [e])[1..] == items[1..] + [e];
      LastWhereSnoc(items[1..], e, p);
    } else {
      assert items + [e] == [e];
      assert (items + [e])[1..] == [];
    }
  }

  lemma {:induction false} LastConfigSnoc(items: seq<Entry>, e: Entry)
    ensures LastConfig(items + [e]) ==
      if IsConfigFile(e) && e.asJson.Loaded? then Some(e.asJson.value) else LastConfig(items)
  {
    if items != [] {
      assert (items + [e])[1..] == items[1..] + [e];
      LastConfigSnoc(items[1..], e);
    } else {
      assert items + [e] == [e];
      assert (items + [e])[1..] == [];
    }
  }

  /**
    * What the scanning loop records for a directory: the image files, the video
    * files and the scanned subdirectories in listing order; the last image whose
    * stem is "hero"; and the value of the last readable `config.json` (an
    * unreadable one leaves `config` as it was, i.e. `None`).
    */
  lemma {:induction false} ClassifyAllSpec(name: string, parent: Option<string>, path: seq<string>, items: seq<Entry>)
    ensures var r := ClassifyAll(InitialRecord(name, parent, path), items);
      && r.slug == name && r.parentSlug == parent && r.fullPathSlugs == path + [name]
      && r.imageFiles == NamesWhere(items, IsImageFile)
      && r.videoFiles == NamesWhere(items, IsVideoFile)
      && r.subdirectories == NamesWhere(items, IsScannedDir)
      && r.heroImage == LastWhere(items, IsHeroImage)
      && r.config == LastConfig(items).GetOr(None)
  {
    if items != [] {
      var front, e := items[..|items| - 1], items[|items| - 1];
      assert items == front + [e];
      ClassifyAllSpec(name, parent, path, front);
      NamesWhereSnoc(front, e, IsImageFile);
      NamesWhereSnoc(front, e, IsVideoFile);
      NamesWhereSnoc(front, e, IsScannedDir);
      LastWhereSnoc(front, e, IsHeroImage);
      LastConfigSnoc(front, e);
    }
  }

  // ---------------------------------------------------------------------------
  // The recursive walk

  /** `self.directories` after `_scan_directory(n, parent, path)`. */
  function ScanTree(acc: ODict<string, FsDir>, n: DirNode, parent: Option<string>, path: seq<string>): (r: ODict<string, FsDir>)
    requires acc.Valid()
    ensures r.Valid()
    decreases n, 1
  {
    match n.listing
    case PathTooLong => acc
    case Listed(items) =>
      var rec := ClassifyAll(InitialRecord(n.name, parent, path), items);
      Put(ScanItems(acc, n, |items|, path + [n.name]), ExpectedDbSlug(rec), rec)
  }

  /** `self.directories` after the loop has handled the first `k` entries of `n`. */
  function ScanItems(acc: ODict<string, FsDir>, n: DirNode, k: nat, currentPath: seq<string>): (r: ODict<string, FsDir>)
    requires acc.Valid()
    requires n.listing.Listed? && k <= |n.listing.items|
    ensures r.Valid()
    decreases n, 0, k
  {
    if k == 0 then acc
    else ItemStep(ScanItems(acc, n, k - 1, currentPath), n, k - 1, currentPath)
  }

  /** What entry `i` of `n` adds to `self.directories`: a scanned subdirectory's records. */
  function ItemStep(prev: ODict<string, FsDir>, n: DirNode, i: nat, currentPath: seq<string>): (r: ODict<string, FsDir>)
    requires prev.Valid()
    requires n.listing.Listed? && i < |n.listing.items|
    ensures r.Valid()
    decreases n, 0, i
  {
    match n.listing.items[i]
    case Dir(d) => if d.name !in ExcludedDirs then ScanTree(prev, d, Some(n.name), currentPath) else prev
    case _ => prev
  }

  /** Classifying one more entry of the listing. */
  lemma ClassifyAllNext(r: FsDir, items: seq<Entry>, i: nat)
    requires i < |items|
    ensures ClassifyAll(r, items[..i + 1]) == ClassifyStep(ClassifyAll(r, items[..i]), items[i])
  {
    assert items[..i + 1][..i] == items[..i];
  }

  /** The record stored for a listed directory, after the records of its subdirectories. */
  lemma ScanTreeListed(acc: ODict<string, FsDir>, n: DirNode, parent: Option<string>, path: seq<string>)
    requires acc.Valid() && n.listing.Listed?
    ensures var rec := ClassifyAll(InitialRecord(n.name, parent, path), n.listing.items);
      ScanTree(acc, n, parent, path) == Put(ScanItems(acc, n, |n.listing.items|, path + [n.name]), ExpectedDbSlug(rec), rec)
  {
  }

  /** `scan()`: every top-level directory that is not excluded, as a root. */
  function ScanRoot(acc: ODict<string, FsDir>, roots: seq<Entry>): (r: ODict<string, FsDir>)
    requires acc.Valid()
    ensures r.Valid()
  {
    if roots == [] then acc
    else
      var prev := ScanRoot(acc, roots[..|roots| - 1]);
      var e := roots[|roots| - 1];
      if e.Dir? && e.dir.name !in ExcludedDirs then ScanTree(prev, e.dir, None, []) else prev
  }

  /**
    * What every stored record satisfies: it is stored under its expected slug,
    * it is well formed, no excluded name is on its path or among its
    * subdirectories.
    */
  ghost predicate Sound(d: ODict<string, FsDir>) {
    forall k :: k in d.vals ==>
      && ExpectedDbSlug(d.vals[k]) == k
      && WellFormed(d.vals[k])
      && (forall s :: s in d.vals[k].fullPathSlugs ==> s !in ExcludedDirs)
      && (forall s :: s in d.vals[k].subdirectories ==> s !in ExcludedDirs)
  }

  /** The path handed to `_scan_directory` for a directory named `name` under `parent`. */
  ghost predicate PathFits(parent: Option<string>, path: seq<string>) {
    (parent.None? <==> path == []) &&
    (parent.Some? ==> path[|path| - 1] == parent.value) &&
    (forall s :: s in path ==> s !in ExcludedDirs)
  }

  /**
    * Scanning keeps every record sound, and never removes or reorders keys:
    * what was stored before stays (possibly overwritten in place).
    */
  lemma {:induction false} ScanTreeSound(acc: ODict<string, FsDir>, n: DirNode, parent: Option<string>, path: seq<string>)
    requires acc.Valid() && Sound(acc)
    requires PathFits(parent, path) && n.name !in ExcludedDirs
    ensures var r := ScanTree(acc, n, parent, path); Sound(r) && acc.keys <= r.keys
    decreases n, 1
  {
    match n.listing {
      case PathTooLong =>
      case Listed(items) =>
        var rec := ClassifyAll(InitialRecord(n.name, parent, path), items);
        ClassifyAllSpec(n.name, parent, path, items);
        NamesWhereScanned(items);
        ScanItemsSound(acc, n, |items|, path + [n.name]);
        var mid := ScanItems(acc, n, |items|, path + [n.name]);
        var r := Put(mid, ExpectedDbSlug(rec), rec);
        assert WellFormed(rec);
        forall k | k in r.vals
          ensures ExpectedDbSlug(r.vals[k]) == k && WellFormed(r.vals[k])
          ensures forall s :: s in r.vals[k].fullPathSlugs ==> s !in ExcludedDirs
          ensures forall s :: s in r.vals[k].subdirectories ==> s !in ExcludedDirs
        {
          if k != ExpectedDbSlug(rec) {
            assert r.vals[k] == mid.vals[k];
          }
        }
    }
  }

  lemma {:induction false} ScanItemsSound(acc: ODict<string, FsDir>, n: DirNode, k: nat, currentPath: seq<string>)
    requires acc.Valid() && Sound(acc)
    requires n.listing.Listed? && k <= |n.listing.items|
    requires currentPath != [] && currentPath[|currentPath| - 1] == n.name
    requires forall s :: s in currentPath ==> s !in ExcludedDirs
    ensures var r := ScanItems(acc, n, k, currentPath); Sound(r) && acc.keys <= r.keys
    decreases n, 0, k
  {
    if k > 0 {
      var prev := ScanItems(acc, n, k - 1, currentPath);
      var r := ItemStep(prev, n, k - 1, currentPath);
      assert ScanItems(acc, n, k, currentPath) == r;
      ScanItemsSound(acc, n, k - 1, currentPath);
      ItemStepSound(prev, n, k - 1, currentPath);
      PrefixTrans(acc.keys, prev.keys, r.keys);
      SoundKept(r, ScanItems(acc, n, k, currentPath), acc.keys);
    }
  }

  lemma {:induction false} ItemStepSound(prev: ODict<string, FsDir>, n: DirNode, i: nat, currentPath: seq<string>)
    requires prev.Valid() && Sound(prev)
    requires n.listing.Listed? && i < |n.listing.items|
    requires currentPath != [] && currentPath[|currentPath| - 1] == n.name
    requires forall s :: s in currentPath ==> s !in ExcludedDirs
    ensures var r := ItemStep(prev, n, i, currentPath); Sound(r) && prev.keys <= r.keys
    decreases n, 0, i
  {
    match n.listing.items[i] {
      case Dir(d) =>
        if d.name !in ExcludedDirs {
          assert PathFits(Some(n.name), currentPath);
          ScanTreeSound(prev, d, Some(n.name), currentPath);
        }
      case File(_, _) =>
      case Special(_) =>
    }
  }

  lemma SoundKept(r: ODict<string, FsDir>, r': ODict<string, FsDir>, keys: seq<string>)
    requires r == r' && Sound(r) && keys <= r.keys
    ensures Sound(r') && keys <= r'.keys
  {
  }

  lemma PrefixTrans(a: seq<string>, b: seq<string>, c: seq<string>)
    requires a <= b && b <= c
    ensures a <= c
  {
  }

  lemma {:induction false} NamesWhereScanned(items: seq<Entry>)
    ensures forall s :: s in NamesWhere(items, IsScannedDir) ==> s !in ExcludedDirs
  {
    if items != [] {
      NamesWhereScanned(items[1..]);
    }
  }

  /**
    * A directory's own record is stored after all of its descendants, so it is
    * never overwritten by one of them; when its key is new it comes last.
    */
  lemma ParentStoredAfterChildren(acc: ODict<string, FsDir>, n: DirNode, parent: Option<string>, path: seq<string>)
    requires acc.Valid() && n.listing.Listed?
    ensures var rec := ClassifyAll(InitialRecord(n.name, parent, path), n.listing.items);
      var key := ExpectedDbSlug(rec);
      var mid := ScanItems(acc, n, |n.listing.items|, path + [n.name]);
      var r := ScanTree(acc, n, parent, path);
      && r.vals[key] == rec
      && (key !in mid.vals ==> r.keys == mid.keys + [key])
      && (forall k :: k in mid.vals && k != key ==> k in r.vals && r.vals[k] == mid.vals[k])
  {
  }

  /** Roots are stored under their own normalised name. */
  lemma {:induction false} RootsAreSound(roots: seq<Entry>)
    ensures Sound(ScanRoot(Empty(), roots))
  {
    if roots != [] {
      RootsAreSound(roots[..|roots| - 1]);
      var prev := ScanRoot(Empty(), roots[..|roots| - 1]);
      var e := roots[|roots| - 1];
      if e.Dir? && e.dir.name !in ExcludedDirs {
        ScanTreeSound(prev, e.dir, None, []);
      }
    }
  }

  // ---------------------------------------------------------------------------
  // Coverage: which slugs a scan stores

  /** The slug a directory `name` under `parent` at `path` is stored under. */
  function KeyOf(name: string, parent: Option<string>, path: seq<string>): string {
    ExpectedDbSlug(InitialRecord(name, parent, path))
  }

  /**
    * The expected slugs of the directories a walk from `n` reaches: `n` itself
    * when it can be listed, and, through its listing, every subdirectory whose
    * name is not excluded.
    */
  ghost function Reached(n: DirNode, parent: Option<string>, path: seq<string>): set<string>
    decreases n, 1
  {
    match n.listing
    case PathTooLong => {}
    case Listed(items) => ReachedIn(n, |items|, path + [n.name]) + {KeyOf(n.name, parent, path)}
  }

  /** The slugs reached through the first `k` entries of `n`'s listing. */
  ghost function ReachedIn(n: DirNode, k: nat, currentPath: seq<string>): set<string>
    requires n.listing.Listed? && k <= |n.listing.items|
    decreases n, 0, k
  {
    if k == 0 then {} else ReachedIn(n, k - 1, currentPath) + ReachedBy(n, k - 1, currentPath)
  }

  /** The slugs reached through entry `i` of `n`'s listing. */
  ghost function ReachedBy(n: DirNode, i: nat, currentPath: seq<string>): set<string>
    requires n.listing.Listed? && i < |n.listing.items|
    decreases n, 0, i
  {
    match n.listing.items[i]
    case Dir(d) => if d.name !in ExcludedDirs then Reached(d, Some(n.name), currentPath) else {}
    case _ => {}
  }

  /** The record the loop builds is stored under the directory's own key. */
  lemma RecordKey(name: string, parent: Option<string>, path: seq<string>, items: seq<Entry>)
    ensures ExpectedDbSlug(ClassifyAll(InitialRecord(name, parent, path), items)) == KeyOf(name, parent, path)
  {
    ClassifyAllSpec(name, parent, path, items);
  }

  /**
    * A walk stores exactly the slugs of the directories it reaches: every
    * non-excluded directory reached through successful listings has a record
    * under its expected slug, and no other key is added.
    */
  lemma {:induction false} ScanTreeCovers(acc: ODict<string, FsDir>, n: DirNode, parent: Option<string>, path: seq<string>)
    requires acc.Valid()
    ensures ScanTree(acc, n, parent, path).vals.Keys == acc.vals.Keys + Reached(n, parent, path)
    decreases n, 1
  {
    match n.listing {
      case PathTooLong =>
      case Listed(items) =>
        ScanItemsCovers(acc, n, |items|, path + [n.name]);
        RecordKey(n.name, parent, path, items);
    }
  }

  lemma {:induction false} ScanItemsCovers(acc: ODict<string, FsDir>, n: DirNode, k: nat, currentPath: seq<string>)
    requires acc.Valid()
    requires n.listing.Listed? && k <= |n.listing.items|
    ensures ScanItems(acc, n, k, currentPath).vals.Keys == acc.vals.Keys + ReachedIn(n, k, currentPath)
    decreases n, 0, k
  {
    if k > 0 {
      ScanItemsCovers(acc, n, k - 1, currentPath);
      ItemStepCovers(ScanItems(acc, n, k - 1, currentPath), n, k - 1, currentPath);
    }
  }

  lemma {:induction false} ItemStepCovers(prev: ODict<string, FsDir>, n: DirNode, i: nat, currentPath: seq<string>)
    requires prev.Valid()
    requires n.listing.Listed? && i < |n.listing.items|
    ensures ItemStep(prev, n, i, currentPath).vals.Keys == prev.vals.Keys + ReachedBy(n, i, currentPath)
    decreases n, 0, i
  {
    match n.listing.items[i] {
      case Dir(d) =>
        if d.name !in ExcludedDirs {
          ScanTreeCovers(prev, d, Some(n.name), currentPath);
        }
      case File(_, _) =>
      case Special(_) =>
    }
  }

  /** The slugs reached from the non-excluded top-level directories. */
  ghost function ReachedRoots(roots: seq<Entry>): set<string> {
    if roots == [] then {}
    else
      var e := roots[|roots| - 1];
      ReachedRoots(roots[..|roots| - 1]) + (if e.Dir? && e.dir.name !in ExcludedDirs then Reached(e.dir, None, []) else {})
  }

  /** `scan()` stores exactly the slugs of the directories reached from the top level. */
  lemma {:induction false} RootsCovered(acc: ODict<string, FsDir>, roots: seq<Entry>)
    requires acc.Valid()
    ensures ScanRoot(acc, roots).vals.Keys == acc.vals.Keys + ReachedRoots(roots)
  {
    if roots != [] {
      RootsCovered(acc, roots[..|roots| - 1]);
      var e := roots[|roots| - 1];
      if e.Dir? && e.dir.name !in ExcludedDirs {
        ScanTreeCovers(ScanRoot(acc, roots[..|roots| - 1]), e.dir, None, []);
      }
    }
  }

  class FilesystemScanner {
    var directories: ODict<string, FsDir>

    constructor ()
      ensures directories == Empty()
    {
      directories := Empty();
    }

    /** `scan()`: scans every non-excluded top-level directory as a root. */
    method Scan(roots: seq<Entry>) returns (dirs: ODict<string, FsDir>)
      requires directories.Valid()
      modifies this
      ensures directories == ScanRoot(old(directories), roots)
      ensures dirs == directories
    {
      var i := 0;
      while i < |roots|
        invariant 0 <= i <= |roots|
        invariant directories == ScanRoot(old(directories), roots[..i])
      {
        var item := roots[i];
        assert roots[..i + 1][..i] == roots[..i];
        if item.Dir? && item.dir.name !in ExcludedDirs {
          ScanDirectory(item.dir, None, []);
        }
        i := i + 1;
      }
      assert roots[..|roots|] == roots;
      dirs := directories;
    }

    /** `_scan_directory(n, parent_slug, path_slugs)` */
    method ScanDirectory(n: DirNode, parent: Option<string>, path: seq<string>)
      requires directories.Valid()
      modifies this
      ensures directories == ScanTree(old(directories), n, parent, path)
      decreases n, 1
    {
      match n.listing {
        case PathTooLong =>
          return;
        case Listed(items) =>
          var currentPath := path + [n.name];
          var rec := InitialRecord(n.name, parent, path);
          var i := 0;
          while i < |items|
            invariant 0 <= i <= |items|
            invariant directories == ScanItems(old(directories), n, i, currentPath)
            invariant rec == ClassifyAll(InitialRecord(n.name, parent, path), items[..i])
          {
            ClassifyAllNext(InitialRecord(n.name, parent, path), items, i);
            rec := ScanItem(rec, n, i, currentPath);
            assert ScanItems(old(directories), n, i + 1, currentPath) == ItemStep(ScanItems(old(directories), n, i, currentPath), n, i, currentPath);
            i := i + 1;
          }
          assert items[..i] == items;
          ScanTreeListed(old(directories), n, parent, path);
          directories := Put(directories, ExpectedDbSlug(rec), rec);
      }
    }

    /**
      * One pass of the scanning loop over entry `i` of `n`: the record of `n`
      * (the loop's local lists, hero image and config) and the scan of a
      * subdirectory.
      */
    method ScanItem(rec0: FsDir, n: DirNode, i: nat, currentPath: seq<string>) returns (rec: FsDir)
      requires directories.Valid()
      requires n.listing.Listed? && i < |n.listing.items|
      modifies this
      ensures rec == ClassifyStep(rec0, n.listing.items[i])
      ensures directories == ItemStep(old(directories), n, i, currentPath)
      decreases n, 0
    {
      var items := n.listing.items;
      rec := rec0;
      match items[i] {
        case File(name, asJson) =>
          var ext := Lower(Suffix(name));
          if ext in ImageExtensions {
            rec := rec.(imageFiles := rec.imageFiles + [name]);
            if Lower(Stem(name)) == "hero" {
              rec := rec.(heroImage := Some(name));
            }
          } else if ext in VideoExtensions {
            rec := rec.(videoFiles := rec.videoFiles + [name]);
          } else if name == "config.json" {
            if asJson.Loaded? {
              rec := rec.(config := asJson.value);
            }
          }
        case Dir(d) =>
          if d.name !in ExcludedDirs {
            rec := rec.(subdirectories := rec.subdirectories + [d.name]);
            assert items[i] in items;
            ScanDirectory(d, Some(n.name), currentPath);
          }
        case Special(_) =>
      }
    }
  }
}
