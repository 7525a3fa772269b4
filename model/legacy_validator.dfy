/**
  * validate_database.py: the earlier, name-keyed validator. Directories are
  * keyed by their bare name, catalog records by their (possibly missing) slug,
  * and the two sides are paired through lowercase lookup maps.
  */
module LegacyValidator {
  import opened Wrappers
  import opened Text
  import opened OrderedDict
  import opened Catalog
  import FsScannerV2

  // ---------------------------------------------------------------------------
  // Filesystem side

  /** `FileSystemDirectory` of this version: no path list, keyed by name. */
  datatype LegacyFsDir = LegacyFsDir(
    slug: string,
    parentSlug: Option<string>,
    config: Option<JsonDoc>,
    heroImage: Option<string>,
    imageFiles: seq<string>,
    videoFiles: seq<string>,
    subdirectories: seq<string>)

  function InitialRecord(name: string, parent: Option<string>): LegacyFsDir {
    LegacyFsDir(name, parent, None, None, [], [], [])
  }

  /** One pass of the scanning loop; unlike the later version every subdirectory is recorded. */
  function ClassifyStep(r: LegacyFsDir, e: Entry): LegacyFsDir {
    match e
    case File(name, asJson) =>
      var ext := Lower(Suffix(name));
      if ext in ImageExtensions then
        r.(imageFiles := r.imageFiles + [name],
           heroImage := if Lower(Stem(name)) == "hero" then Some(name) else r.heroImage)
      else if ext in VideoExtensions then
        r.(videoFiles := r.videoFiles + [name])
      else if name == "config.json" then
        (match asJson
         case Unreadable => r
         case Loaded(v) => r.(config := v))
      else r
    case Dir(d) => r.(subdirectories := r.subdirectories + [d.name])
    case Special(_) => r
  }

  function ClassifyAll(r: LegacyFsDir, items: seq<Entry>): LegacyFsDir {
    if items == [] then r
    else ClassifyStep(ClassifyAll(r, items[..|items| - 1]), items[|items| - 1])
  }

  /** Classifying one more entry of the listing. */
  lemma ClassifyAllNext(r: LegacyFsDir, items: seq<Entry>, i: nat)
    requires i < |items|
    ensures ClassifyAll(r, items[..i + 1]) == ClassifyStep(ClassifyAll(r, items[..i]), items[i])
  {
    assert items[..i + 1][..i] == items[..i];
  }

  predicate IsDirEntry(e: Entry) {
    e.Dir?
  }

  /**
    * The loop records images, videos and every subdirectory in listing order,
    * the last "hero" image and the last readable `config.json`.
    */
  lemma {:induction false} ClassifyAllSpec(name: string, parent: Option<string>, items: seq<Entry>)
    ensures var r := ClassifyAll(InitialRecord(name, parent), items);
      && r.slug == name && r.parentSlug == parent
      && r.imageFiles == FsScannerV2.NamesWhere(items, FsScannerV2.IsImageFile)
      && r.videoFiles == FsScannerV2.NamesWhere(items, FsScannerV2.IsVideoFile)
      && r.subdirectories == FsScannerV2.NamesWhere(items, IsDirEntry)
      && r.heroImage == FsScannerV2.LastWhere(items, FsScannerV2.IsHeroImage)
      && r.config == FsScannerV2.LastConfig(items).GetOr(None)
  {
    if items != [] {
      var front, e := items[..|items| - 1], items[|items| - 1];
      assert items == front + [e];
      ClassifyAllSpec(name, parent, front);
      FsScannerV2.NamesWhereSnoc(front, e, FsScannerV2.IsImageFile);
      FsScannerV2.NamesWhereSnoc(front, e, FsScannerV2.IsVideoFile);
      FsScannerV2.NamesWhereSnoc(front, e, IsDirEntry);
      FsScannerV2.LastWhereSnoc(front, e, FsScannerV2.IsHeroImage);
      FsScannerV2.LastConfigSnoc(front, e);
    }
  }

  /** `self.directories` after `_scan_directory(n, parent)`: children first, then the directory under its name. */
  function ScanTree(acc: ODict<string, LegacyFsDir>, n: DirNode, parent: Option<string>): (r: ODict<string, LegacyFsDir>)
    requires acc.Valid()
    ensures r.Valid()
    decreases n, 1
  {
    match n.listing
    case PathTooLong => acc
    case Listed(items) =>
      Put(ScanItems(acc, n, |items|), n.name, ClassifyAll(InitialRecord(n.name, parent), items))
  }

  function ScanItems(acc: ODict<string, LegacyFsDir>, n: DirNode, k: nat): (r: ODict<string, LegacyFsDir>)
    requires acc.Valid()
    requires n.listing.Listed? && k <= |n.listing.items|
    ensures r.Valid()
    decreases n, 0, k
  {
    if k == 0 then acc
    else ItemStep(ScanItems(acc, n, k - 1), n, k - 1)
  }

  /** What entry `i` of `n` adds to `self.directories`: a subdirectory's records. */
  function ItemStep(prev: ODict<string, LegacyFsDir>, n: DirNode, i: nat): (r: ODict<string, LegacyFsDir>)
    requires prev.Valid()
    requires n.listing.Listed? && i < |n.listing.items|
    ensures r.Valid()
    decreases n, 0, i
  {
    match n.listing.items[i]
    case Dir(d) => ScanTree(prev, d, Some(n.name))
    case _ => prev
  }

  /** The record stored for a listed directory, after the records of its subdirectories. */
  lemma ScanTreeListed(acc: ODict<string, LegacyFsDir>, n: DirNode, parent: Option<string>)
    requires acc.Valid() && n.listing.Listed?
    ensures ScanTree(acc, n, parent) ==
      Put(ScanItems(acc, n, |n.listing.items|), n.name, ClassifyAll(InitialRecord(n.name, parent), n.listing.items))
  {
  }

  /** `scan()`: every top-level directory, none excluded. */
  function ScanRoot(acc: ODict<string, LegacyFsDir>, roots: seq<Entry>): (r: ODict<string, LegacyFsDir>)
    requires acc.Valid()
    ensures r.Valid()
  {
    if roots == [] then acc
    else
      var prev := ScanRoot(acc, roots[..|roots| - 1]);
      var e := roots[|roots| - 1];
      if e.Dir? then ScanTree(prev, e.dir, None) else prev
  }

  /** Every record is stored under its own bare name. */
  ghost predicate NameKeyed(d: ODict<string, LegacyFsDir>) {
    forall k :: k in d.vals ==> d.vals[k].slug == k
  }

  lemma {:induction false} ScanTreeNameKeyed(acc: ODict<string, LegacyFsDir>, n: DirNode, parent: Option<string>)
    requires acc.Valid() && NameKeyed(acc)
    ensures var r := ScanTree(acc, n, parent); NameKeyed(r) && acc.keys <= r.keys
    decreases n, 1
  {
    match n.listing {
      case PathTooLong =>
      case Listed(items) =>
        ClassifyAllSpec(n.name, parent, items);
        ScanItemsNameKeyed(acc, n, |items|);
    }
  }

  lemma {:induction false} ScanItemsNameKeyed(acc: ODict<string, LegacyFsDir>, n: DirNode, k: nat)
    requires acc.Valid() && NameKeyed(acc)
    requires n.listing.Listed? && k <= |n.listing.items|
    ensures var r := ScanItems(acc, n, k); NameKeyed(r) && acc.keys <= r.keys
    decreases n, 0, k
  {
    if k > 0 {
      ScanItemsNameKeyed(acc, n, k - 1);
      match n.listing.items[k - 1] {
        case Dir(d) => ScanTreeNameKeyed(ScanItems(acc, n, k - 1), d, Some(n.name));
        case File(_, _) =>
        case Special(_) =>
      }
    }
  }

  /** Records are keyed by bare name, for the whole scan. */
  lemma {:induction false} ScanRootNameKeyed(roots: seq<Entry>)
    ensures NameKeyed(ScanRoot(Empty(), roots))
  {
    if roots != [] {
      ScanRootNameKeyed(roots[..|roots| - 1]);
      var e := roots[|roots| - 1];
      if e.Dir? {
        ScanTreeNameKeyed(ScanRoot(Empty(), roots[..|roots| - 1]), e.dir, None);
      }
    }
  }

  /**
    * The names of the directories a walk from `n` reaches: `n` itself when it
    * can be listed, and every subdirectory reached through its listing.
    */
  ghost function Reached(n: DirNode): set<string>
    decreases n, 1
  {
    match n.listing
    case PathTooLong => {}
    case Listed(items) => ReachedIn(n, |items|) + {n.name}
  }

  ghost function ReachedIn(n: DirNode, k: nat): set<string>
    requires n.listing.Listed? && k <= |n.listing.items|
    decreases n, 0, k
  {
    if k == 0 then {}
    else ReachedIn(n, k - 1) + (match n.listing.items[k - 1] case Dir(d) => Reached(d) case _ => {})
  }

  /**
    * A walk stores exactly the names of the directories it reaches, each
    * under its bare name, and no other key is added.
    */
  lemma {:induction false} ScanTreeCovers(acc: ODict<string, LegacyFsDir>, n: DirNode, parent: Option<string>)
    requires acc.Valid()
    ensures ScanTree(acc, n, parent).vals.Keys == acc.vals.Keys + Reached(n)
    decreases n, 1
  {
    match n.listing {
      case PathTooLong =>
      case Listed(items) => ScanItemsCovers(acc, n, |items|);
    }
  }

  lemma {:induction false} ScanItemsCovers(acc: ODict<string, LegacyFsDir>, n: DirNode, k: nat)
    requires acc.Valid()
    requires n.listing.Listed? && k <= |n.listing.items|
    ensures ScanItems(acc, n, k).vals.Keys == acc.vals.Keys + ReachedIn(n, k)
    decreases n, 0, k
  {
    if k > 0 {
      ScanItemsCovers(acc, n, k - 1);
      match n.listing.items[k - 1] {
        case Dir(d) => ScanTreeCovers(ScanItems(acc, n, k - 1), d, Some(n.name));
        case File(_, _) =>
        case Special(_) =>
      }
    }
  }

  lemma ScanEmptyDir(acc: ODict<string, LegacyFsDir>, name: string, parent: Option<string>)
    requires acc.Valid()
    ensures ScanTree(acc, DirNode(name, Listed([])), parent) == Put(acc, name, InitialRecord(name, parent))
  {
  }

  lemma ScanSingleChild(acc: ODict<string, LegacyFsDir>, name: string, child: DirNode, parent: Option<string>)
    requires acc.Valid()
    ensures var n := DirNode(name, Listed([Dir(child)]));
      ScanTree(acc, n, parent) == Put(ScanTree(acc, child, Some(name)), name, ClassifyAll(InitialRecord(name, parent), [Dir(child)]))
  {
    var n := DirNode(name, Listed([Dir(child)]));
    assert ScanItems(acc, n, 1) == ScanTree(ScanItems(acc, n, 0), child, Some(name));
  }

  /** Scanning two root directories is scanning one after the other. */
  lemma ScanRootPair(acc: ODict<string, LegacyFsDir>, p: DirNode, q: DirNode)
    requires acc.Valid()
    ensures ScanRoot(acc, [Dir(p), Dir(q)]) == ScanTree(ScanTree(acc, p, None), q, None)
  {
    assert [Dir(p), Dir(q)][..1] == [Dir(p)] && [Dir(p)][..0] == [];
    assert ScanRoot(acc, [Dir(p)]) == ScanTree(ScanRoot(acc, []), p, None);
  }

  /**
    * Illustration on one shape of tree: root `name` holding an empty `child`
    * adds the child's record, then its own. `ScanTreeCovers` is the general
    * statement of which keys a scan adds.
    */
  lemma ScanNested(acc: ODict<string, LegacyFsDir>, name: string, child: string)
    requires acc.Valid() && name != child && name !in acc.keys
    ensures var r := ScanTree(acc, DirNode(name, Listed([Dir(DirNode(child, Listed([])))])), None);
      r.keys == (if child in acc.keys then acc.keys else acc.keys + [child]) + [name] &&
      r.vals[child].parentSlug == Some(name)
  {
    ScanEmptyDir(acc, child, Some(name));
    ScanSingleChild(acc, name, DirNode(child, Listed([])), None);
  }

  /**
    * Illustration on one shape of tree: two directories with the same name
    * collapse, so roots `a` and `b` each holding an empty `x` give one `x`
    * record, the one under `b`.
    */
  lemma SameNameCollapses(a: string, b: string, x: string)
    requires a != b && a != x && b != x
    ensures
      var child := DirNode(x, Listed([]));
      var r := ScanRoot(Empty(), [Dir(DirNode(a, Listed([Dir(child)]))), Dir(DirNode(b, Listed([Dir(child)])))]);
      r.keys == [x, a, b] && r.vals[x].parentSlug == Some(b)
  {
    var child := DirNode(x, Listed([]));
    ScanRootPair(Empty(), DirNode(a, Listed([Dir(child)])), DirNode(b, Listed([Dir(child)])));
    SecondScanOverwrites(a, b, x);
  }

  /** Illustration: the second root's scan overwrites the same-named child's record in place. */
  lemma SecondScanOverwrites(a: string, b: string, x: string)
    requires a != b && a != x && b != x
    ensures
      var child := DirNode(x, Listed([]));
      var r := ScanTree(ScanTree(Empty(), DirNode(a, Listed([Dir(child)])), None), DirNode(b, Listed([Dir(child)])), None);
      r.keys == [x, a, b] && r.vals[x].parentSlug == Some(b)
  {
    var child := DirNode(x, Listed([]));
    var e: ODict<string, LegacyFsDir> := Empty();
    var first := ScanTree(e, DirNode(a, Listed([Dir(child)])), None);
    ScanNested(e, a, x);
    assert first.keys == [x, a];
    ScanNested(first, b, x);
  }

  class FilesystemScanner {
    var directories: ODict<string, LegacyFsDir>

    constructor ()
      ensures directories == Empty()
    {
      directories := Empty();
    }

    /** `scan()` */
    method Scan(roots: seq<Entry>) returns (dirs: ODict<string, LegacyFsDir>)
      requires directories.Valid()
      modifies this
      ensures directories == ScanRoot(old(directories), roots)
      ensures dirs == directories
    {
      var i := 0;
      while i < |roots|
        invariant 0 <= i <= |roots|
        invariant directories == ScanRoot(old(directories), roots[..i])
      {
        assert roots[..i + 1][..i] == roots[..i];
        if roots[i].Dir? {
          ScanDirectory(roots[i].dir, None);
        }
        i := i + 1;
      }
      assert roots[..|roots|] == roots;
      dirs := directories;
    }

    /** `_scan_directory(n, parent_slug)` */
    method ScanDirectory(n: DirNode, parent: Option<string>)
      requires directories.Valid()
      modifies this
      ensures directories == ScanTree(old(directories), n, parent)
      decreases n, 1
    {
      match n.listing {
        case PathTooLong =>
          return;
        case Listed(items) =>
          var fsDir := InitialRecord(n.name, parent);
          var i := 0;
          while i < |items|
            invariant 0 <= i <= |items|
            invariant directories == ScanItems(old(directories), n, i)
            invariant fsDir == ClassifyAll(InitialRecord(n.name, parent), items[..i])
          {
            ClassifyAllNext(InitialRecord(n.name, parent), items, i);
            fsDir := ScanItem(fsDir, n, i);
            assert ScanItems(old(directories), n, i + 1) == ItemStep(ScanItems(old(directories), n, i), n, i);
            i := i + 1;
          }
          assert items[..i] == items;
          ScanTreeListed(old(directories), n, parent);
          directories := Put(directories, n.name, fsDir);
      }
    }

    /** One pass of the scanning loop over entry `i` of `n`. */
    method ScanItem(r0: LegacyFsDir, n: DirNode, i: nat) returns (r: LegacyFsDir)
      requires directories.Valid()
      requires n.listing.Listed? && i < |n.listing.items|
      modifies this
      ensures r == ClassifyStep(r0, n.listing.items[i])
      ensures directories == ItemStep(old(directories), n, i)
      decreases n, 0
    {
      match n.listing.items[i] {
        case File(name, asJson) =>
          r := ClassifyFile(r0, name, asJson);
        case Dir(d) =>
          r := r0.(subdirectories := r0.subdirectories + [d.name]);
          assert n.listing.items[i] in n.listing.items;
          ScanDirectory(d, Some(n.name));
        case Special(_) =>
          r := r0;
      }
    }

    /** The file branch of the scanning loop. */
    method ClassifyFile(r0: LegacyFsDir, name: string, asJson: ConfigRead) returns (r: LegacyFsDir)
      ensures r == ClassifyStep(r0, File(name, asJson))
    {
      r := r0;
      var ext := Lower(Suffix(name));
      if ext in ImageExtensions {
        r := r.(imageFiles := r.imageFiles + [name]);
        if Lower(Stem(name)) == "hero" {
          r := r.(heroImage := Some(name));
        }
      } else if ext in VideoExtensions {
        r := r.(videoFiles := r.videoFiles + [name]);
      } else if name == "config.json" && asJson.Loaded? {
        r := r.(config := asJson.value);
      }
    }
  }

  // ---------------------------------------------------------------------------
  // Catalog side

  /** `DatabaseDirectory` of this version: the slug may be missing. */
  datatype LegacyDbDir = LegacyDbDir(
    slug: Option<string>,
    parentSlug: Option<string>,
    config: Option<JsonDoc>,
    heroImage: Option<string>,
    imageCount: int,
    videoCount: int,
    subcollectionCount: nat,
    images: seq<string>)

  /** Only `data.images` is read from the detail answer; a failed fetch leaves `[]`. */
  function DetailImages(d: Detail): seq<string> {
    match d
    case DetailFailed => []
    case DetailOk(_, images) => images
  }

  function MakeRecord(p: Payload, parent: Option<string>): LegacyDbDir {
    LegacyDbDir(p.slug, parent, p.config, p.heroImage, p.imageCount.GetOr(0), p.videoCount.GetOr(0),
                |p.subcollections|, DetailImages(p.detail))
  }

  /** `_process_collection(p, parent)`: no slug check, so a collection without one is stored under `None`. */
  function ProcessCollection(acc: ODict<Option<string>, LegacyDbDir>, p: Payload, parent: Option<string>): (r: ODict<Option<string>, LegacyDbDir>)
    requires acc.Valid()
    ensures r.Valid()
    decreases p, 1
  {
    ProcessSubs(Put(acc, p.slug, MakeRecord(p, parent)), p, |p.subcollections|)
  }

  function ProcessSubs(acc: ODict<Option<string>, LegacyDbDir>, p: Payload, k: nat): (r: ODict<Option<string>, LegacyDbDir>)
    requires acc.Valid() && k <= |p.subcollections|
    ensures r.Valid()
    decreases p, 0, k
  {
    if k == 0 then acc
    else
      var prev := ProcessSubs(acc, p, k - 1);
      match p.subcollections[k - 1].fetch
      case SubFailed => prev
      case SubFetched(body) => ProcessCollection(prev, body, p.slug)
  }

  function ProcessAll(acc: ODict<Option<string>, LegacyDbDir>, cs: seq<Payload>): (r: ODict<Option<string>, LegacyDbDir>)
    requires acc.Valid()
    ensures r.Valid()
  {
    if cs == [] then acc else ProcessCollection(ProcessAll(acc, cs[..|cs| - 1]), cs[|cs| - 1], None)
  }

  /** `scan()`: a failed listing gives an empty result. */
  function ScanCatalog(list: CollectionList): (r: ODict<Option<string>, LegacyDbDir>)
    ensures r.Valid()
  {
    match list
    case ListFailed => Empty()
    case ListOk(cs) => ProcessAll(Empty(), cs)
  }

  /** Every record is stored under its own slug, and the collection is always stored, slug or not. */
  ghost predicate SlugKeyed(d: ODict<Option<string>, LegacyDbDir>) {
    forall k :: k in d.vals ==> d.vals[k].slug == k
  }

  lemma {:induction false} ProcessCollectionKeyed(acc: ODict<Option<string>, LegacyDbDir>, p: Payload, parent: Option<string>)
    requires acc.Valid() && SlugKeyed(acc)
    ensures var r := ProcessCollection(acc, p, parent);
      SlugKeyed(r) && p.slug in r.vals && (forall k :: k in acc.vals ==> k in r.vals)
    decreases p, 1
  {
    var start := Put(acc, p.slug, MakeRecord(p, parent));
    ProcessSubsKeyed(start, p, |p.subcollections|);
  }

  lemma {:induction false} ProcessSubsKeyed(acc: ODict<Option<string>, LegacyDbDir>, p: Payload, k: nat)
    requires acc.Valid() && SlugKeyed(acc) && k <= |p.subcollections|
    ensures var r := ProcessSubs(acc, p, k); SlugKeyed(r) && (forall key :: key in acc.vals ==> key in r.vals)
    decreases p, 0, k
  {
    if k > 0 {
      ProcessSubsKeyed(acc, p, k - 1);
      match p.subcollections[k - 1].fetch {
        case SubFailed =>
        case SubFetched(body) => ProcessCollectionKeyed(ProcessSubs(acc, p, k - 1), body, p.slug);
      }
    }
  }

  /** The slugs processing `p` stores, a missing one included, then those of its fetched sub-collections. */
  ghost function Stored(p: Payload): set<Option<string>>
    decreases p, 1
  {
    {p.slug} + SubsStored(p, |p.subcollections|)
  }

  ghost function SubsStored(p: Payload, k: nat): set<Option<string>>
    requires k <= |p.subcollections|
    decreases p, 0, k
  {
    if k == 0 then {}
    else
      SubsStored(p, k - 1) +
      (match p.subcollections[k - 1].fetch
       case SubFailed => {}
       case SubFetched(body) => Stored(body))
  }

  /**
    * Processing a collection adds exactly the slugs it stores, leaves every
    * other record as it was, and stores under the collection's slug the record
    * built from its own payload and parent, unless a sub-collection carries
    * the same slug.
    */
  lemma {:induction false} ProcessCollectionStores(acc: ODict<Option<string>, LegacyDbDir>, p: Payload, parent: Option<string>)
    requires acc.Valid()
    ensures var r := ProcessCollection(acc, p, parent);
      && r.vals.Keys == acc.vals.Keys + Stored(p)
      && (forall k :: k in acc.vals && k !in Stored(p) ==> r.vals[k] == acc.vals[k])
      && (p.slug !in SubsStored(p, |p.subcollections|) ==> r.vals[p.slug] == MakeRecord(p, parent))
    decreases p, 1
  {
    ProcessSubsStore(Put(acc, p.slug, MakeRecord(p, parent)), p, |p.subcollections|);
  }

  /** The sub-collection loop adds exactly the fetched sub-collections' slugs and leaves every other record. */
  lemma {:induction false} ProcessSubsStore(acc: ODict<Option<string>, LegacyDbDir>, p: Payload, k: nat)
    requires acc.Valid() && k <= |p.subcollections|
    ensures var r := ProcessSubs(acc, p, k);
      && r.vals.Keys == acc.vals.Keys + SubsStored(p, k)
      && (forall key :: key in acc.vals && key !in SubsStored(p, k) ==> r.vals[key] == acc.vals[key])
    decreases p, 0, k
  {
    if k > 0 {
      ProcessSubsStore(acc, p, k - 1);
      match p.subcollections[k - 1].fetch {
        case SubFailed =>
        case SubFetched(body) => ProcessCollectionStores(ProcessSubs(acc, p, k - 1), body, p.slug);
      }
    }
  }

  lemma {:induction false} ProcessAllKeyed(cs: seq<Payload>)
    ensures SlugKeyed(ProcessAll(Empty(), cs))
  {
    if cs != [] {
      ProcessAllKeyed(cs[..|cs| - 1]);
      ProcessCollectionKeyed(ProcessAll(Empty(), cs[..|cs| - 1]), cs[|cs| - 1], None);
    }
  }

  class DatabaseScanner {
    var directories: ODict<Option<string>, LegacyDbDir>

    constructor ()
      ensures directories == Empty()
    {
      directories := Empty();
    }

    /** `scan()` */
    method Scan(list: CollectionList) returns (dirs: ODict<Option<string>, LegacyDbDir>)
      requires directories.Valid()
      modifies this
      ensures list.ListFailed? ==> dirs == Empty() && directories == old(directories)
      ensures list.ListOk? ==> directories == ProcessAll(old(directories), list.collections) && dirs == directories
    {
      match list {
        case ListFailed =>
          return Empty();
        case ListOk(cs) =>
          var i := 0;
          while i < |cs|
            invariant 0 <= i <= |cs|
            invariant directories == ProcessAll(old(directories), cs[..i])
          {
            assert cs[..i + 1][..i] == cs[..i];
            Process(cs[i], None);
            i := i + 1;
          }
          assert cs[..|cs|] == cs;
          dirs := directories;
      }
    }

    /** `_process_collection(collection, parent_slug)` */
    method Process(p: Payload, parent: Option<string>)
      requires directories.Valid()
      modifies this
      ensures directories == ProcessCollection(old(directories), p, parent)
      decreases p
    {
      var slug := p.slug;
      var dbDir := LegacyDbDir(slug, parent, p.config, p.heroImage, p.imageCount.GetOr(0), p.videoCount.GetOr(0),
                               |p.subcollections|, []);
      match p.detail {
        case DetailFailed =>
        case DetailOk(_, images) => dbDir := dbDir.(images := images);
      }
      directories := Put(directories, slug, dbDir);
      ghost var stored := directories;
      var i := 0;
      while i < |p.subcollections|
        invariant 0 <= i <= |p.subcollections|
        invariant directories.Valid()
        invariant directories == ProcessSubs(stored, p, i)
      {
        match p.subcollections[i].fetch {
          case SubFailed =>
          case SubFetched(body) => Process(body, slug);
        }
        i := i + 1;
      }
    }
  }

  // ---------------------------------------------------------------------------
  // The validator

  /** `{slug.lower(): slug for slug in keys}`: first position, last value for each lowercase form. */
  function LowerMap(keys: seq<string>): (m: ODict<string, string>)
    ensures m.Valid()
  {
    if keys == [] then Empty()
    else
      var k := keys[|keys| - 1];
      Put(LowerMap(keys[..|keys| - 1]), Lower(k), k)
  }

  /** The non-empty slugs of the catalog keys, in order. */
  function TruthyKeys(keys: seq<Option<string>>): (r: seq<string>)
    ensures forall s :: s in r <==> Some(s) in keys && s != ""
  {
    if keys == [] then []
    else
      var k := keys[|keys| - 1];
      TruthyKeys(keys[..|keys| - 1]) + (if Truthy(k) then [k.value] else [])
  }

  /** `{slug.lower(): slug for slug in db_dirs.keys() if slug}` */
  function DbLowerMap(keys: seq<Option<string>>): ODict<string, string> {
    LowerMap(TruthyKeys(keys))
  }

  /**
    * The lowercase map holds exactly the lowercase forms of the keys; each
    * value is a key with that lowercase form, and it is the LAST such key.
    */
  lemma LowerMapSpec(keys: seq<string>)
    ensures var m := LowerMap(keys);
      && (forall l :: l in m.vals <==> exists k :: k in keys && Lower(k) == l)
      && (forall l :: l in m.vals ==> m.vals[l] in keys && Lower(m.vals[l]) == l)
      && (forall i :: 0 <= i < |keys| && LastOfItsLower(keys, i) ==> m.vals[Lower(keys[i])] == keys[i])
  {
    LowerMapDomain(keys);
    LowerMapValues(keys);
    LowerMapLast(keys);
  }

  lemma {:induction false} LowerMapDomain(keys: seq<string>)
    ensures forall l :: l in LowerMap(keys).vals <==> exists k :: k in keys && Lower(k) == l
  {
    if keys != [] {
      var front, k := keys[..|keys| - 1], keys[|keys| - 1];
      LowerMapDomain(front);
      var m := LowerMap(keys);
      assert m.vals == LowerMap(front).vals[Lower(k) := k];
      forall l ensures l in m.vals <==> exists x :: x in keys && Lower(x) == l {
        if l in m.vals && l != Lower(k) {
          var x :| x in front && Lower(x) == l;
          assert x in keys;
        }
        if exists x :: x in keys && Lower(x) == l {
          var x :| x in keys && Lower(x) == l;
          if x != k {
            assert x in front;
          }
        }
      }
    }
  }

  lemma {:induction false} LowerMapValues(keys: seq<string>)
    ensures forall l :: l in LowerMap(keys).vals ==> LowerMap(keys).vals[l] in keys && Lower(LowerMap(keys).vals[l]) == l
  {
    if keys != [] {
      var front, k := keys[..|keys| - 1], keys[|keys| - 1];
      LowerMapValues(front);
      assert LowerMap(keys).vals == LowerMap(front).vals[Lower(k) := k];
      assert forall x :: x in front ==> x in keys;
    }
  }

  /** No later key has the same lowercase form as `keys[i]`. */
  predicate LastOfItsLower(keys: seq<string>, i: nat)
    requires i < |keys|
  {
    forall j :: i < j < |keys| ==> Lower(keys[j]) != Lower(keys[i])
  }

  lemma LowerMapLast(keys: seq<string>)
    ensures forall i :: 0 <= i < |keys| && LastOfItsLower(keys, i) ==>
      Lower(keys[i]) in LowerMap(keys).vals && LowerMap(keys).vals[Lower(keys[i])] == keys[i]
  {
    forall i | 0 <= i < |keys| && LastOfItsLower(keys, i)
      ensures Lower(keys[i]) in LowerMap(keys).vals && LowerMap(keys).vals[Lower(keys[i])] == keys[i]
    {
      LowerMapLastAt(keys, i);
    }
  }

  lemma {:induction false} LowerMapLastAt(keys: seq<string>, i: nat)
    requires i < |keys| && LastOfItsLower(keys, i)
    ensures Lower(keys[i]) in LowerMap(keys).vals && LowerMap(keys).vals[Lower(keys[i])] == keys[i]
  {
    var front, k := keys[..|keys| - 1], keys[|keys| - 1];
    assert LowerMap(keys).vals == LowerMap(front).vals[Lower(k) := k];
    if i < |keys| - 1 {
      assert keys[i] == front[i];
      assert LastOfItsLower(front, i) by {
        forall j | i < j < |front| ensures Lower(front[j]) != Lower(front[i]) {
          assert front[j] == keys[j];
        }
      }
      LowerMapLastAt(front, i);
      assert Lower(k) != Lower(keys[i]);
    }
  }

  /** A fs key is paired with a catalog record when its lowercase form is in the catalog's lowercase map. */
  ghost predicate Linked(fsKeys: seq<string>, dbMap: ODict<string, string>, fs: ODict<string, LegacyFsDir>, db: ODict<Option<string>, LegacyDbDir>) {
    (forall k :: k in fsKeys ==> k in fs.vals) &&
    (forall l :: l in dbMap.vals ==> Some(dbMap.vals[l]) in db.vals)
  }

  const OrphanMessage: string := "Directory exists in database but not on filesystem"
  const MissingMessage: string := "Directory exists on filesystem but not in database"
  const ImageMessage: string := "Image count mismatch"
  const VideoMessage: string := "Video count mismatch"
  const SubcollectionMessage: string := "Subcollection count mismatch"
  const FsOnlyConfigMessage: string := "config.json exists on filesystem but not in database"
  const DbOnlyConfigMessage: string := "config.json exists in database but not on filesystem"
  const DiffersConfigMessage: string := "config.json content differs between filesystem and database"
  const ParentMessage: string := "Parent directory mismatch"

  /** `f"{fs_slug} (DB: {db_slug})"` */
  function PairLabel(fsSlug: string, dbSlug: string): string {
    fsSlug + " (DB: " + dbSlug + ")"
  }

  /** `check_orphaned_db_entries` */
  function OrphanIssues(dbKeys: seq<Option<string>>, fsMap: ODict<string, string>): seq<Issue> {
    if dbKeys == [] then []
    else
      var k := dbKeys[|dbKeys| - 1];
      OrphanIssues(dbKeys[..|dbKeys| - 1], fsMap) +
      (if Truthy(k) && Lower(k.value) !in fsMap.vals then [Issue(OrphanedDbEntry, Error, k.value, OrphanMessage)] else [])
  }

  /** `check_missing_db_entries` */
  function MissingIssues(fsKeys: seq<string>, dbMap: ODict<string, string>): seq<Issue> {
    if fsKeys == [] then []
    else
      var k := fsKeys[|fsKeys| - 1];
      MissingIssues(fsKeys[..|fsKeys| - 1], dbMap) +
      (if Lower(k) !in dbMap.vals && k != ".thumbnails" then [Issue(MissingDbEntry, Error, k, MissingMessage)] else [])
  }

  /** The orphan fold reports each non-empty catalog slug whose lowercase form is not in `fsMap`, once. */
  lemma OrphanIssuesNext(dbKeys: seq<Option<string>>, fsMap: ODict<string, string>, i: nat)
    requires i < |dbKeys|
    ensures OrphanIssues(dbKeys[..i + 1], fsMap) == OrphanIssues(dbKeys[..i], fsMap) +
      (if Truthy(dbKeys[i]) && Lower(dbKeys[i].value) !in fsMap.vals
       then [Issue(OrphanedDbEntry, Error, dbKeys[i].value, OrphanMessage)] else [])
  {
    assert dbKeys[..i + 1][..i] == dbKeys[..i];
  }

  lemma MissingIssuesNext(fsKeys: seq<string>, dbMap: ODict<string, string>, i: nat)
    requires i < |fsKeys|
    ensures MissingIssues(fsKeys[..i + 1], dbMap) == MissingIssues(fsKeys[..i], dbMap) +
      (if Lower(fsKeys[i]) !in dbMap.vals && fsKeys[i] != ".thumbnails"
       then [Issue(MissingDbEntry, Error, fsKeys[i], MissingMessage)] else [])
  {
    assert fsKeys[..i + 1][..i] == fsKeys[..i];
  }

  lemma {:induction false} OrphanIssuesCount(dbKeys: seq<Option<string>>, fsMap: ODict<string, string>, s: string)
    requires Distinct(dbKeys)
    ensures multiset(SlugsOf(OrphanIssues(dbKeys, fsMap)))[s] ==
      if Some(s) in dbKeys && s != "" && Lower(s) !in fsMap.vals then 1 else 0
  {
    if dbKeys != [] {
      var k := dbKeys[|dbKeys| - 1];
      LastNotInFront(dbKeys);
      OrphanIssuesCount(dbKeys[..|dbKeys| - 1], fsMap, s);
      var extra := if Truthy(k) && Lower(k.value) !in fsMap.vals then [Issue(OrphanedDbEntry, Error, k.value, OrphanMessage)] else [];
      SlugCountAppend(OrphanIssues(dbKeys[..|dbKeys| - 1], fsMap), extra, s);
      if extra != [] {
        SlugCountOne(Issue(OrphanedDbEntry, Error, k.value, OrphanMessage), s);
      }
    }
  }

  lemma {:induction false} OrphanIssuesShape(dbKeys: seq<Option<string>>, fsMap: ODict<string, string>)
    ensures forall x :: x in OrphanIssues(dbKeys, fsMap) ==>
      x.category == OrphanedDbEntry && x.severity == Error && x.message == OrphanMessage
  {
    if dbKeys != [] {
      OrphanIssuesShape(dbKeys[..|dbKeys| - 1], fsMap);
    }
  }

  /** A lowercase form is in the map exactly when some key has it. */
  lemma InLowerMap(keys: seq<string>, l: string)
    ensures l in LowerMap(keys).vals <==> exists k :: k in keys && Lower(k) == l
  {
    LowerMapDomain(keys);
  }

  /**
    * Each non-empty catalog slug whose lowercase form is not the lowercase form
    * of a directory name gets exactly one orphan error; `None` and empty slugs
    * are skipped.
    */
  lemma OrphanIssuesExact(dbKeys: seq<Option<string>>, fsKeys: seq<string>, s: string)
    requires Distinct(dbKeys)
    ensures var r := OrphanIssues(dbKeys, LowerMap(fsKeys));
      && multiset(SlugsOf(r))[s] ==
           (if Some(s) in dbKeys && s != "" && (forall k :: k in fsKeys ==> Lower(k) != Lower(s)) then 1 else 0)
      && (forall x :: x in r ==> x.category == OrphanedDbEntry && x.severity == Error && x.message == OrphanMessage)
  {
    OrphanIssuesCount(dbKeys, LowerMap(fsKeys), s);
    OrphanIssuesShape(dbKeys, LowerMap(fsKeys));
    InLowerMap(fsKeys, Lower(s));
  }

  /** The missing fold reports each directory name whose lowercase form is not in `dbMap`, once, except `.thumbnails`. */
  lemma {:induction false} MissingIssuesCount(fsKeys: seq<string>, dbMap: ODict<string, string>, s: string)
    requires Distinct(fsKeys)
    ensures multiset(SlugsOf(MissingIssues(fsKeys, dbMap)))[s] ==
      if s in fsKeys && s != ".thumbnails" && Lower(s) !in dbMap.vals then 1 else 0
  {
    if fsKeys != [] {
      var k := fsKeys[|fsKeys| - 1];
      LastNotInFront(fsKeys);
      MissingIssuesCount(fsKeys[..|fsKeys| - 1], dbMap, s);
      var extra := if Lower(k) !in dbMap.vals && k != ".thumbnails" then [Issue(MissingDbEntry, Error, k, MissingMessage)] else [];
      SlugCountAppend(MissingIssues(fsKeys[..|fsKeys| - 1], dbMap), extra, s);
      if extra != [] {
        SlugCountOne(Issue(MissingDbEntry, Error, k, MissingMessage), s);
      }
    }
  }

  lemma {:induction false} MissingIssuesShape(fsKeys: seq<string>, dbMap: ODict<string, string>)
    ensures forall x :: x in MissingIssues(fsKeys, dbMap) ==>
      x.category == MissingDbEntry && x.severity == Error && x.message == MissingMessage
  {
    if fsKeys != [] {
      MissingIssuesShape(fsKeys[..|fsKeys| - 1], dbMap);
    }
  }

  /**
    * Each directory name whose lowercase form is not the lowercase form of a
    * non-empty catalog slug gets exactly one missing error, except
    * `.thumbnails`.
    */
  lemma MissingIssuesExact(fsKeys: seq<string>, dbKeys: seq<Option<string>>, s: string)
    requires Distinct(fsKeys)
    ensures var r := MissingIssues(fsKeys, DbLowerMap(dbKeys));
      && multiset(SlugsOf(r))[s] ==
           (if s in fsKeys && s != ".thumbnails" &&
               (forall k :: Some(k) in dbKeys && k != "" ==> Lower(k) != Lower(s)) then 1 else 0)
      && (forall x :: x in r ==> x.category == MissingDbEntry && x.severity == Error && x.message == MissingMessage)
  {
    MissingIssuesCount(fsKeys, DbLowerMap(dbKeys), s);
    MissingIssuesShape(fsKeys, DbLowerMap(dbKeys));
    InLowerMap(TruthyKeys(dbKeys), Lower(s));
  }

  function ImageCountIssue(f: LegacyFsDir, d: LegacyDbDir, tag: string): seq<Issue> {
    if |f.imageFiles| == d.imageCount then [] else [Issue(CountMismatch, Error, tag, ImageMessage)]
  }

  function VideoCountIssue(f: LegacyFsDir, d: LegacyDbDir, tag: string): seq<Issue> {
    if |f.videoFiles| == d.videoCount then [] else [Issue(CountMismatch, Error, tag, VideoMessage)]
  }

  function SubcollectionCountIssue(f: LegacyFsDir, d: LegacyDbDir, tag: string): seq<Issue> {
    if |f.subdirectories| == d.subcollectionCount then [] else [Issue(CountMismatch, Error, tag, SubcollectionMessage)]
  }

  /** `check_count_mismatches` for one pair. */
  function PairCountIssues(f: LegacyFsDir, d: LegacyDbDir, tag: string): seq<Issue> {
    ImageCountIssue(f, d, tag) + VideoCountIssue(f, d, tag) + SubcollectionCountIssue(f, d, tag)
  }

  /** Every count inequality is reported, always as an error. */
  lemma PairCountIssuesSpec(f: LegacyFsDir, d: LegacyDbDir, tag: string)
    ensures var r := PairCountIssues(f, d, tag);
      && (forall x :: x in r ==> x.category == CountMismatch && x.severity == Error && x.slug == tag)
      && ((exists x :: x in r && x.message == ImageMessage) <==> |f.imageFiles| != d.imageCount)
      && ((exists x :: x in r && x.message == VideoMessage) <==> |f.videoFiles| != d.videoCount)
      && ((exists x :: x in r && x.message == SubcollectionMessage) <==> |f.subdirectories| != d.subcollectionCount)
  {
    assert ImageMessage[0] == 'I' && VideoMessage[0] == 'V' && SubcollectionMessage[0] == 'S';
    var a, b, c := ImageCountIssue(f, d, tag), VideoCountIssue(f, d, tag), SubcollectionCountIssue(f, d, tag);
    assert forall x :: x in PairCountIssues(f, d, tag) <==> x in a || x in b || x in c;
  }

  /** `check_config_mismatches` for one pair. */
  function PairConfigIssues(f: LegacyFsDir, d: LegacyDbDir, tag: string): seq<Issue> {
    if f.config.Some? && d.config.None? then [Issue(ConfigMismatch, Warning, tag, FsOnlyConfigMessage)]
    else if f.config.None? && d.config.Some? then [Issue(ConfigMismatch, Warning, tag, DbOnlyConfigMessage)]
    else if f.config.Some? && d.config.Some? && f.config != d.config then
      [Issue(ConfigMismatch, Warning, tag, DiffersConfigMessage)]
    else []
  }

  /** A config on one side only, or differing contents, is one warning; equal configs (or none) give nothing. */
  lemma PairConfigIssuesSpec(f: LegacyFsDir, d: LegacyDbDir, tag: string)
    ensures var r := PairConfigIssues(f, d, tag);
      && (r == [] <==> f.config == d.config)
      && (r != [] ==> |r| == 1 && r[0].category == ConfigMismatch && r[0].severity == Warning && r[0].slug == tag)
      && (r != [] && f.config.Some? && d.config.Some? ==> r[0].message == DiffersConfigMessage)
  {
  }

  /** `check_hierarchy_validation` for one pair. */
  function PairHierarchyIssues(f: LegacyFsDir, d: LegacyDbDir, tag: string): seq<Issue> {
    if LowerOrNone(f.parentSlug) != LowerOrNone(d.parentSlug) then [Issue(HierarchyMismatch, Error, tag, ParentMessage)]
    else []
  }

  /**
    * A hierarchy error is reported whenever the lowercased parents differ,
    * including when exactly one side has none (empty counts as none).
    */
  lemma PairHierarchyIssuesSpec(f: LegacyFsDir, d: LegacyDbDir, tag: string)
    ensures var r := PairHierarchyIssues(f, d, tag);
      && (r != [] <==> (Truthy(f.parentSlug) != Truthy(d.parentSlug) ||
                        (Truthy(f.parentSlug) && Truthy(d.parentSlug) && Lower(f.parentSlug.value) != Lower(d.parentSlug.value))))
      && (r != [] ==> r == [Issue(HierarchyMismatch, Error, tag, ParentMessage)])
  {
  }

  /** The three checks that compare a directory with its catalog record. */
  datatype PairRule = Counts | Configs | Parents

  function PairRuleIssues(rule: PairRule, f: LegacyFsDir, d: LegacyDbDir, tag: string): seq<Issue> {
    match rule
    case Counts => PairCountIssues(f, d, tag)
    case Configs => PairConfigIssues(f, d, tag)
    case Parents => PairHierarchyIssues(f, d, tag)
  }

  /** What one directory name contributes to a pairwise check: nothing unless its lowercase form has a catalog slug. */
  function PairStep(k: string, dbMap: ODict<string, string>, fs: ODict<string, LegacyFsDir>,
                    db: ODict<Option<string>, LegacyDbDir>, rule: PairRule): seq<Issue>
    requires k in fs.vals && (forall l :: l in dbMap.vals ==> Some(dbMap.vals[l]) in db.vals)
  {
    if Lower(k) !in dbMap.vals then []
    else
      var dbSlug := dbMap.vals[Lower(k)];
      PairRuleIssues(rule, fs.vals[k], db.vals[Some(dbSlug)], PairLabel(k, dbSlug))
  }

  /** A pairwise check over the directory names in order. */
  function PairIssues(fsKeys: seq<string>, dbMap: ODict<string, string>, fs: ODict<string, LegacyFsDir>,
                      db: ODict<Option<string>, LegacyDbDir>, rule: PairRule): seq<Issue>
    requires Linked(fsKeys, dbMap, fs, db)
  {
    if fsKeys == [] then []
    else
      assert forall x :: x in fsKeys[..|fsKeys| - 1] ==> x in fsKeys;
      PairIssues(fsKeys[..|fsKeys| - 1], dbMap, fs, db, rule) + PairStep(fsKeys[|fsKeys| - 1], dbMap, fs, db, rule)
  }

  lemma PairIssuesSnoc(keys: seq<string>, i: nat, dbMap: ODict<string, string>, fs: ODict<string, LegacyFsDir>,
                       db: ODict<Option<string>, LegacyDbDir>, rule: PairRule)
    requires Linked(keys, dbMap, fs, db) && i < |keys|
    ensures Linked(keys[..i], dbMap, fs, db) && Linked(keys[..i + 1], dbMap, fs, db)
    ensures PairIssues(keys[..i + 1], dbMap, fs, db, rule) ==
      PairIssues(keys[..i], dbMap, fs, db, rule) + PairStep(keys[i], dbMap, fs, db, rule)
  {
    assert forall x :: x in keys[..i + 1] ==> x in keys;
    assert keys[..i + 1][..i] == keys[..i];
  }

  // The uniqueness rule

  /** `slug_counts` after counting the keys `keys` into a `defaultdict(int)`. */
  function Occurrences(keys: seq<string>): (c: ODict<string, nat>)
    ensures c.Valid()
  {
    if keys == [] then Empty()
    else
      var prev := Occurrences(keys[..|keys| - 1]);
      var k := keys[|keys| - 1];
      Put(prev, k, (if k in prev.vals then prev.vals[k] else 0) + 1)
  }

  /** The report for one counted slug: an error when it was seen more than once. */
  function DuplicateStep(slug: string, count: nat): seq<Issue> {
    if count > 1 then [Issue(DuplicateSlug, Error, slug, "Slug appears " + NatToString(count) + " times in filesystem")]
    else []
  }

  /** The duplicate-slug issues for counts listed in `order`. */
  function DuplicateIssues(order: seq<string>, counts: map<string, nat>): seq<Issue>
    requires forall k :: k in order ==> k in counts
  {
    if order == [] then []
    else
      var k := order[|order| - 1];
      assert forall x :: x in order[..|order| - 1] ==> x in order;
      DuplicateIssues(order[..|order| - 1], counts) +
      DuplicateStep(k, counts[k])
  }

  lemma DuplicateIssuesSnoc(order: seq<string>, j: nat, counts: map<string, nat>)
    requires (forall k :: k in order ==> k in counts) && j < |order|
    ensures forall k :: k in order[..j + 1] ==> k in counts
    ensures DuplicateIssues(order[..j + 1], counts) ==
      DuplicateIssues(order[..j], counts) +
      DuplicateStep(order[j], counts[order[j]])
  {
    assert forall x :: x in order[..j + 1] ==> x in order;
    assert order[..j + 1][..j] == order[..j];
  }

  /** The reporting loop of `check_slug_uniqueness`. */
  method ReportDuplicates(slugCounts: ODict<string, nat>) returns (found: seq<Issue>)
    requires slugCounts.Valid()
    ensures found == DuplicateIssues(slugCounts.keys, slugCounts.vals)
  {
    var order := slugCounts.keys;
    found := [];
    var j := 0;
    while j < |order|
      invariant 0 <= j <= |order|
      invariant found == DuplicateIssues(order[..j], slugCounts.vals)
    {
      DuplicateIssuesSnoc(order, j, slugCounts.vals);
      var slug := order[j];
      var count := slugCounts.vals[slug];
      if count > 1 {
        found := found + [Issue(DuplicateSlug, Error, slug, "Slug appears " + NatToString(count) + " times in filesystem")];
      }
      j := j + 1;
    }
    assert order[..j] == order;
  }

  /** The counting loop of `check_slug_uniqueness`. */
  method CountSlugs(keys: seq<string>) returns (slugCounts: ODict<string, nat>)
    ensures slugCounts == Occurrences(keys)
  {
    slugCounts := Empty();
    var i := 0;
    while i < |keys|
      invariant 0 <= i <= |keys|
      invariant slugCounts == Occurrences(keys[..i])
    {
      OccurrencesNext(keys, i);
      var current := if keys[i] in slugCounts.vals then slugCounts.vals[keys[i]] else 0;
      slugCounts := Put(slugCounts, keys[i], current + 1);
      i := i + 1;
    }
    assert keys[..i] == keys;
  }

  /** Counting one more key. */
  lemma OccurrencesNext(keys: seq<string>, i: nat)
    requires i < |keys|
    ensures var prev := Occurrences(keys[..i]);
      Occurrences(keys[..i + 1]) == Put(prev, keys[i], (if keys[i] in prev.vals then prev.vals[keys[i]] else 0) + 1)
  {
    assert keys[..i + 1][..i] == keys[..i];
  }

  /** Counting the keys of a dictionary sees every key exactly once. */
  lemma {:induction false} OccurrencesOfDistinct(keys: seq<string>)
    requires Distinct(keys)
    ensures var c := Occurrences(keys);
      c.keys == keys && forall k :: k in c.vals ==> c.vals[k] == 1
  {
    if keys != [] {
      LastNotInFront(keys);
      OccurrencesOfDistinct(keys[..|keys| - 1]);
    }
  }

  lemma {:induction false} NoDuplicatesWhenAllOnes(order: seq<string>, counts: map<string, nat>)
    requires forall k :: k in order ==> k in counts && counts[k] == 1
    ensures DuplicateIssues(order, counts) == []
  {
    if order != [] {
      assert forall x :: x in order[..|order| - 1] ==> x in order;
      NoDuplicatesWhenAllOnes(order[..|order| - 1], counts);
    }
  }

  /** `check_slug_uniqueness` counts dictionary keys, which are distinct, so it never reports anything. */
  lemma SlugUniquenessNeverFires(fs: ODict<string, LegacyFsDir>)
    requires fs.Valid()
    ensures var c := Occurrences(fs.keys); DuplicateIssues(c.keys, c.vals) == []
  {
    OccurrencesOfDistinct(fs.keys);
    var c := Occurrences(fs.keys);
    NoDuplicatesWhenAllOnes(c.keys, c.vals);
  }

  /** `validate()`: the six rules in order. */
  function AllIssues(fs: ODict<string, LegacyFsDir>, db: ODict<Option<string>, LegacyDbDir>): seq<Issue>
    requires fs.Valid()
    requires db.Valid()
  {
    var fsMap := LowerMap(fs.keys);
    var dbMap := DbLowerMap(db.keys);
    LinkedMaps(fs, db);
    var c := Occurrences(fs.keys);
    OrphanIssues(db.keys, fsMap) + MissingIssues(fs.keys, dbMap) +
    PairIssues(fs.keys, dbMap, fs, db, Counts) + PairIssues(fs.keys, dbMap, fs, db, Configs) +
    PairIssues(fs.keys, dbMap, fs, db, Parents) +
    DuplicateIssues(c.keys, c.vals)
  }

  lemma LinkedMaps(fs: ODict<string, LegacyFsDir>, db: ODict<Option<string>, LegacyDbDir>)
    requires fs.Valid()
    requires db.Valid()
    ensures Linked(fs.keys, DbLowerMap(db.keys), fs, db)
  {
    LowerMapSpec(TruthyKeys(db.keys));
  }

  class DatabaseValidator {
    const fsDirs: ODict<string, LegacyFsDir>
    const dbDirs: ODict<Option<string>, LegacyDbDir>
    var issues: seq<Issue>
    const fsSlugMap: ODict<string, string>
    const dbSlugMap: ODict<string, string>

    constructor (fs: ODict<string, LegacyFsDir>, db: ODict<Option<string>, LegacyDbDir>)
      requires fs.Valid() && db.Valid()
      ensures fsDirs == fs && dbDirs == db && issues == []
      ensures fsSlugMap == LowerMap(fs.keys) && dbSlugMap == DbLowerMap(db.keys)
    {
      fsDirs, dbDirs := fs, db;
      issues := [];
      fsSlugMap := LowerMap(fs.keys);
      dbSlugMap := DbLowerMap(db.keys);
    }

    ghost predicate Valid()
    {
      fsDirs.Valid() && dbDirs.Valid() &&
      fsSlugMap == LowerMap(fsDirs.keys) && dbSlugMap == DbLowerMap(dbDirs.keys)
    }

    method CheckOrphanedDbEntries()
      requires Valid()
      modifies this`issues
      ensures issues == old(issues) + OrphanIssues(dbDirs.keys, fsSlugMap)
    {
      var i := 0;
      while i < |dbDirs.keys|
        invariant 0 <= i <= |dbDirs.keys|
        invariant issues == old(issues) + OrphanIssues(dbDirs.keys[..i], fsSlugMap)
      {
        OrphanIssuesNext(dbDirs.keys, fsSlugMap, i);
        if Truthy(dbDirs.keys[i]) && Lower(dbDirs.keys[i].value) !in fsSlugMap.vals {
          issues := issues + [Issue(OrphanedDbEntry, Error, dbDirs.keys[i].value, OrphanMessage)];
        }
        i := i + 1;
      }
      assert dbDirs.keys[..i] == dbDirs.keys;
    }

    method CheckMissingDbEntries()
      requires Valid()
      modifies this`issues
      ensures issues == old(issues) + MissingIssues(fsDirs.keys, dbSlugMap)
    {
      var i := 0;
      while i < |fsDirs.keys|
        invariant 0 <= i <= |fsDirs.keys|
        invariant issues == old(issues) + MissingIssues(fsDirs.keys[..i], dbSlugMap)
      {
        MissingIssuesNext(fsDirs.keys, dbSlugMap, i);
        if Lower(fsDirs.keys[i]) !in dbSlugMap.vals && fsDirs.keys[i] != ".thumbnails" {
          issues := issues + [Issue(MissingDbEntry, Error, fsDirs.keys[i], MissingMessage)];
        }
        i := i + 1;
      }
      assert fsDirs.keys[..i] == fsDirs.keys;
    }

    /** The loop shared by the three pairwise checks. */
    method CheckPairs(rule: PairRule)
      requires Valid()
      modifies this`issues
      ensures Linked(fsDirs.keys, dbSlugMap, fsDirs, dbDirs)
      ensures issues == old(issues) + PairIssues(fsDirs.keys, dbSlugMap, fsDirs, dbDirs, rule)
    {
      LinkedMaps(fsDirs, dbDirs);
      var keys := fsDirs.keys;
      var i := 0;
      while i < |keys|
        invariant 0 <= i <= |keys|
        invariant issues == old(issues) + PairIssues(keys[..i], dbSlugMap, fsDirs, dbDirs, rule)
      {
        PairIssuesSnoc(keys, i, dbSlugMap, fsDirs, dbDirs, rule);
        var fsSlug := keys[i];
        var found: seq<Issue> := [];
        if Lower(fsSlug) in dbSlugMap.vals {
          var dbSlug := dbSlugMap.vals[Lower(fsSlug)];
          found := ComparePair(rule, fsDirs.vals[fsSlug], dbDirs.vals[Some(dbSlug)], PairLabel(fsSlug, dbSlug));
        }
        AppendAssoc(old(issues), PairIssues(keys[..i], dbSlugMap, fsDirs, dbDirs, rule), found);
        issues := issues + found;
        i := i + 1;
      }
      assert keys[..i] == keys;
    }

    /** `check_count_mismatches` */
    method CheckCountMismatches()
      requires Valid()
      modifies this`issues
      ensures Linked(fsDirs.keys, dbSlugMap, fsDirs, dbDirs)
      ensures issues == old(issues) + PairIssues(fsDirs.keys, dbSlugMap, fsDirs, dbDirs, Counts)
    {
      CheckPairs(Counts);
    }

    /** `check_config_mismatches` */
    method CheckConfigMismatches()
      requires Valid()
      modifies this`issues
      ensures Linked(fsDirs.keys, dbSlugMap, fsDirs, dbDirs)
      ensures issues == old(issues) + PairIssues(fsDirs.keys, dbSlugMap, fsDirs, dbDirs, Configs)
    {
      CheckPairs(Configs);
    }

    /** `check_hierarchy_validation` */
    method CheckHierarchyValidation()
      requires Valid()
      modifies this`issues
      ensures Linked(fsDirs.keys, dbSlugMap, fsDirs, dbDirs)
      ensures issues == old(issues) + PairIssues(fsDirs.keys, dbSlugMap, fsDirs, dbDirs, Parents)
    {
      CheckPairs(Parents);
    }

    /** `check_slug_uniqueness`: count the keys into a dictionary, then report counts above one. */
    method CheckSlugUniqueness()
      requires Valid()
      modifies this`issues
      ensures issues == old(issues) + DuplicateIssues(Occurrences(fsDirs.keys).keys, Occurrences(fsDirs.keys).vals)
    {
      var slugCounts := CountSlugs(fsDirs.keys);
      var found := ReportDuplicates(slugCounts);
      issues := issues + found;
    }

    /** `validate()` */
    method Validate() returns (r: seq<Issue>)
      requires Valid()
      modifies this`issues
      ensures issues == old(issues) + AllIssues(fsDirs, dbDirs)
      ensures r == issues
    {
      ghost var start := issues;
      CheckOrphanedDbEntries();
      ghost var o := OrphanIssues(dbDirs.keys, fsSlugMap);
      CheckMissingDbEntries();
      ghost var mi := MissingIssues(fsDirs.keys, dbSlugMap);
      AppendAssoc(start, o, mi);
      CheckCountMismatches();
      ghost var c := PairIssues(fsDirs.keys, dbSlugMap, fsDirs, dbDirs, Counts);
      AppendAssoc(start, o + mi, c);
      CheckConfigMismatches();
      ghost var g := PairIssues(fsDirs.keys, dbSlugMap, fsDirs, dbDirs, Configs);
      AppendAssoc(start, o + mi + c, g);
      CheckHierarchyValidation();
      ghost var h := PairIssues(fsDirs.keys, dbSlugMap, fsDirs, dbDirs, Parents);
      AppendAssoc(start, o + mi + c + g, h);
      CheckSlugUniqueness();
      ghost var u := DuplicateIssues(Occurrences(fsDirs.keys).keys, Occurrences(fsDirs.keys).vals);
      AppendAssoc(start, o + mi + c + g + h, u);
      r := issues;
    }
  }

  /** The body of a pairwise loop for one paired directory. */
  method ComparePair(rule: PairRule, f: LegacyFsDir, d: LegacyDbDir, tag: string) returns (found: seq<Issue>)
    ensures found == PairRuleIssues(rule, f, d, tag)
  {
    found := [];
    match rule {
      case Counts =>
        if |f.imageFiles| != d.imageCount {
          found := found + [Issue(CountMismatch, Error, tag, ImageMessage)];
        }
        if |f.videoFiles| != d.videoCount {
          found := found + [Issue(CountMismatch, Error, tag, VideoMessage)];
        }
        if |f.subdirectories| != d.subcollectionCount {
          found := found + [Issue(CountMismatch, Error, tag, SubcollectionMessage)];
        }
      case Configs =>
        var fsHasConfig, dbHasConfig := f.config.Some?, d.config.Some?;
        if fsHasConfig && !dbHasConfig {
          found := [Issue(ConfigMismatch, Warning, tag, FsOnlyConfigMessage)];
        } else if !fsHasConfig && dbHasConfig {
          found := [Issue(ConfigMismatch, Warning, tag, DbOnlyConfigMessage)];
        } else if fsHasConfig && dbHasConfig && f.config != d.config {
          found := [Issue(ConfigMismatch, Warning, tag, DiffersConfigMessage)];
        }
      case Parents =>
        if LowerOrNone(f.parentSlug) != LowerOrNone(d.parentSlug) {
          found := [Issue(HierarchyMismatch, Error, tag, ParentMessage)];
        }
    }
  }

  lemma AppendAssoc(a: seq<Issue>, b: seq<Issue>, c: seq<Issue>)
    ensures (a + b) + c == a + (b + c)
  {
  }

  /** The issues of a run of the script, when it gets that far. */
  function Validation(rootExists: bool, roots: seq<Entry>, list: CollectionList): Option<seq<Issue>> {
    if !rootExists then None
    else
      var fs := ScanRoot(Empty(), roots);
      var db := ScanCatalog(list);
      if db.keys == [] then None else Some(AllIssues(fs, db))
  }

  /** `main()` up to the report. */
  method RunValidation(rootExists: bool, roots: seq<Entry>, list: CollectionList) returns (r: Option<seq<Issue>>)
    ensures r == Validation(rootExists, roots, list)
  {
    if !rootExists {
      return None;
    }
    var fsScanner := new FilesystemScanner();
    var fsDirs := fsScanner.Scan(roots);
    var dbScanner := new DatabaseScanner();
    var dbDirs := dbScanner.Scan(list);
    assert fsDirs == ScanRoot(Empty(), roots);
    assert dbDirs == ScanCatalog(list);
    if dbDirs.keys == [] {
      return None;
    }
    var validator := new DatabaseValidator(fsDirs, dbDirs);
    var issues := validator.Validate();
    assert issues == AllIssues(fsDirs, dbDirs);
    r := Some(issues);
  }

  predicate NoDuplicateReport(issues: seq<Issue>) {
    forall x :: x in issues ==> x.category != DuplicateSlug
  }

  lemma NoDuplicateReportAppend(a: seq<Issue>, b: seq<Issue>)
    requires NoDuplicateReport(a) && NoDuplicateReport(b)
    ensures NoDuplicateReport(a + b)
  {
  }

  function RuleCategory(rule: PairRule): Category {
    match rule
    case Counts => CountMismatch
    case Configs => ConfigMismatch
    case Parents => HierarchyMismatch
  }

  /** Each pairwise check reports only its own category. */
  lemma {:induction false} PairCategory(fsKeys: seq<string>, dbMap: ODict<string, string>, fs: ODict<string, LegacyFsDir>,
                                        db: ODict<Option<string>, LegacyDbDir>, rule: PairRule)
    requires Linked(fsKeys, dbMap, fs, db)
    ensures forall x :: x in PairIssues(fsKeys, dbMap, fs, db, rule) ==> x.category == RuleCategory(rule)
    ensures NoDuplicateReport(PairIssues(fsKeys, dbMap, fs, db, rule))
  {
    if fsKeys != [] {
      var k := fsKeys[|fsKeys| - 1];
      assert forall x :: x in fsKeys[..|fsKeys| - 1] ==> x in fsKeys;
      PairCategory(fsKeys[..|fsKeys| - 1], dbMap, fs, db, rule);
      if Lower(k) in dbMap.vals {
        var dbSlug := dbMap.vals[Lower(k)];
        PairCountIssuesSpec(fs.vals[k], db.vals[Some(dbSlug)], PairLabel(k, dbSlug));
      }
    }
  }

  /** Of the six rules only the uniqueness rule could report a duplicate slug, and it reports nothing. */
  lemma AllIssuesNoDuplicate(fs: ODict<string, LegacyFsDir>, db: ODict<Option<string>, LegacyDbDir>)
    requires fs.Valid() && db.Valid()
    ensures NoDuplicateReport(AllIssues(fs, db))
  {
    var fsMap := LowerMap(fs.keys);
    var dbMap := DbLowerMap(db.keys);
    LinkedMaps(fs, db);
    var o, mi := OrphanIssues(db.keys, fsMap), MissingIssues(fs.keys, dbMap);
    var c, g, h := PairIssues(fs.keys, dbMap, fs, db, Counts), PairIssues(fs.keys, dbMap, fs, db, Configs),
                   PairIssues(fs.keys, dbMap, fs, db, Parents);
    var counted := Occurrences(fs.keys);
    var u := DuplicateIssues(counted.keys, counted.vals);
    SlugUniquenessNeverFires(fs);
    OrphanIssuesShape(db.keys, fsMap);
    MissingIssuesShape(fs.keys, dbMap);
    PairCategory(fs.keys, dbMap, fs, db, Counts);
    PairCategory(fs.keys, dbMap, fs, db, Configs);
    PairCategory(fs.keys, dbMap, fs, db, Parents);
    assert NoDuplicateReport(o) && NoDuplicateReport(mi) && NoDuplicateReport(u);
    var s1 := o + mi;
    NoDuplicateReportAppend(o, mi);
    var s2 := s1 + c;
    NoDuplicateReportAppend(s1, c);
    var s3 := s2 + g;
    NoDuplicateReportAppend(s2, g);
    var s4 := s3 + h;
    NoDuplicateReportAppend(s3, h);
    NoDuplicateReportAppend(s4, u);
    assert AllIssues(fs, db) == o + mi + c + g + h + u;
  }

  /**
    * The script stops without issues when the content root is missing or the
    * catalog is empty; otherwise it never reports a duplicate slug, because
    * the rule counts dictionary keys.
    */
  lemma ValidationNeverReportsDuplicates(rootExists: bool, roots: seq<Entry>, list: CollectionList)
    ensures Validation(rootExists, roots, list).None? <==> !rootExists || ScanCatalog(list).keys == []
    ensures Validation(rootExists, roots, list).Some? ==> NoDuplicateReport(Validation(rootExists, roots, list).value)
  {
    var db := ScanCatalog(list);
    if rootExists && db.keys != [] {
      AllIssuesNoDuplicate(ScanRoot(Empty(), roots), db);
    }
  }

}
