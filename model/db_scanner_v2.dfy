/**
  * `DatabaseScanner` and `DatabaseDirectory` of src/backend/validate_database_v2.py:
  * one record per collection the API returns, following sub-collections
  * recursively. The HTTP answers are inputs (`Catalog.Payload`).
  */
module DbScannerV2 {
  import opened Wrappers
  import opened Text
  import opened OrderedDict
  import opened Catalog

  /** `DatabaseDirectory` */
  datatype DbDir = DbDir(
    slug: string,
    parentSlug: Option<string>,
    config: Option<JsonDoc>,
    heroImage: Option<string>,
    imageCount: int,
    videoCount: int,
    subcollectionCount: nat,
    images: seq<string>)

  /** `child_slug`: the part after the first hyphen, or the whole slug when it has none. */
  function ChildSlug(slug: string): string {
    if '-' !in slug then slug else slug[IndexOf(slug, '-') + 1..]
  }

  /** A hierarchical slug is its hyphen-free first segment, a hyphen, and its child slug. */
  lemma ChildSlugSplits(slug: string)
    ensures '-' !in slug ==> ChildSlug(slug) == slug
    ensures '-' in slug ==> exists head :: '-' !in head && slug == head + "-" + ChildSlug(slug)
  {
    if '-' in slug {
      var k := IndexOf(slug, '-');
      var head := slug[..k];
      assert '-' !in head by {
        forall i | 0 <= i < |head| ensures head[i] != '-' {
          assert head[i] == slug[i];
        }
      }
      assert slug == head + "-" + slug[k + 1..];
    }
  }

  /** Images of the detail answer: `data.collection.gallery` when `collection` is present, else `data.images`. */
  function DetailImages(d: Detail): seq<string> {
    match d
    case DetailFailed => []
    case DetailOk(collection, images) =>
      match collection
      case Some(gallery) => gallery
      case None => images
  }

  /** The record built for a collection with slug `slug`; missing counts default to 0. */
  function MakeRecord(p: Payload, slug: string, parent: Option<string>): DbDir {
    DbDir(slug, parent, p.config, p.heroImage, p.imageCount.GetOr(0), p.videoCount.GetOr(0),
          |p.subcollections|, DetailImages(p.detail))
  }

  /** `self.directories` after `_process_collection(p, parent)`. */
  function ProcessCollection(acc: ODict<string, DbDir>, p: Payload, parent: Option<string>): (r: ODict<string, DbDir>)
    requires acc.Valid()
    ensures r.Valid()
    decreases p, 1
  {
    if !Truthy(p.slug) then acc
    else
      var slug := p.slug.value;
      ProcessSubs(Put(acc, slug, MakeRecord(p, slug, parent)), p, |p.subcollections|, slug)
  }

  /** The sub-collection loop after its first `k` iterations; failed fetches are skipped. */
  function ProcessSubs(acc: ODict<string, DbDir>, p: Payload, k: nat, slug: string): (r: ODict<string, DbDir>)
    requires acc.Valid() && k <= |p.subcollections|
    ensures r.Valid()
    decreases p, 0, k
  {
    if k == 0 then acc
    else
      var prev := ProcessSubs(acc, p, k - 1, slug);
      match p.subcollections[k - 1].fetch
      case SubFailed => prev
      case SubFetched(body) => ProcessCollection(prev, body, Some(slug))
  }

  function ProcessAll(acc: ODict<string, DbDir>, cs: seq<Payload>): (r: ODict<string, DbDir>)
    requires acc.Valid()
    ensures r.Valid()
  {
    if cs == [] then acc else ProcessCollection(ProcessAll(acc, cs[..|cs| - 1]), cs[|cs| - 1], None)
  }

  /** `scan()`: a failed listing gives an empty result. */
  function ScanCatalog(list: CollectionList): (r: ODict<string, DbDir>)
    ensures r.Valid()
  {
    match list
    case ListFailed => Empty()
    case ListOk(cs) => ProcessAll(Empty(), cs)
  }

  /**
    * Every record is stored under its own non-empty slug, and every recorded
    * parent is itself a stored collection.
    */
  ghost predicate CatalogSound(d: ODict<string, DbDir>) {
    forall k :: k in d.vals ==>
      d.vals[k].slug == k && k != "" &&
      (d.vals[k].parentSlug.Some? ==> d.vals[k].parentSlug.value in d.vals)
  }

  /**
    * Processing a collection keeps the catalog sound, never drops a key,
    * and stores the collection whenever it has a slug.
    */
  lemma {:induction false} ProcessCollectionSound(acc: ODict<string, DbDir>, p: Payload, parent: Option<string>)
    requires acc.Valid() && CatalogSound(acc)
    requires parent.Some? ==> parent.value in acc.vals
    ensures var r := ProcessCollection(acc, p, parent);
      CatalogSound(r) && acc.keys <= r.keys && (Truthy(p.slug) ==> p.slug.value in r.vals)
    decreases p, 1
  {
    if Truthy(p.slug) {
      var slug := p.slug.value;
      var stored := Put(acc, slug, MakeRecord(p, slug, parent));
      assert CatalogSound(stored);
      ProcessSubsSound(stored, p, |p.subcollections|, slug);
    }
  }

  lemma {:induction false} ProcessSubsSound(acc: ODict<string, DbDir>, p: Payload, k: nat, slug: string)
    requires acc.Valid() && CatalogSound(acc) && k <= |p.subcollections|
    requires slug in acc.vals
    ensures var r := ProcessSubs(acc, p, k, slug); CatalogSound(r) && acc.keys <= r.keys && slug in r.vals
    decreases p, 0, k
  {
    if k > 0 {
      ProcessSubsSound(acc, p, k - 1, slug);
      var prev := ProcessSubs(acc, p, k - 1, slug);
      match p.subcollections[k - 1].fetch {
        case SubFailed =>
        case SubFetched(body) =>
          ProcessCollectionSound(prev, body, Some(slug));
      }
    }
  }

  lemma {:induction false} ProcessAllSound(cs: seq<Payload>)
    ensures CatalogSound(ProcessAll(Empty(), cs))
  {
    if cs != [] {
      ProcessAllSound(cs[..|cs| - 1]);
      ProcessCollectionSound(ProcessAll(Empty(), cs[..|cs| - 1]), cs[|cs| - 1], None);
    }
  }

  /** Whatever the API answers, the scanned catalog is sound; a failed listing gives no record. */
  lemma ScanCatalogSound(list: CollectionList)
    ensures CatalogSound(ScanCatalog(list))
    ensures list.ListFailed? ==> ScanCatalog(list).keys == []
  {
    if list.ListOk? {
      ProcessAllSound(list.collections);
    }
  }

  // ---------------------------------------------------------------------------
  // What a collection stores

  /**
    * The slugs processing `p` stores: its own when it has one, then those of
    * every sub-collection whose fetch succeeded (a failed fetch stores nothing).
    */
  ghost function Stored(p: Payload): set<string>
    decreases p, 1
  {
    if !Truthy(p.slug) then {} else {p.slug.value} + SubsStored(p, |p.subcollections|)
  }

  /** The slugs stored through the first `k` sub-collections of `p`. */
  ghost function SubsStored(p: Payload, k: nat): set<string>
    requires k <= |p.subcollections|
    decreases p, 0, k
  {
    if k == 0 then {}
    else
      SubsStored(p, k - 1) +
      (match p.subcollections[k - 1].fetch
       case SubFailed => {}
       case SubFetched(body) => Stored(body))
  }

  /**
    * Processing a collection adds exactly the slugs it stores, leaves every
    * other record as it was, and stores under the collection's slug the record
    * built from its own payload, counts, configuration, images and parent
    * included, unless one of its sub-collections carries the same slug.
    */
  lemma {:induction false} ProcessCollectionStores(acc: ODict<string, DbDir>, p: Payload, parent: Option<string>)
    requires acc.Valid()
    ensures var r := ProcessCollection(acc, p, parent);
      && r.vals.Keys == acc.vals.Keys + Stored(p)
      && (forall k :: k in acc.vals && k !in Stored(p) ==> r.vals[k] == acc.vals[k])
      && (Truthy(p.slug) && p.slug.value !in SubsStored(p, |p.subcollections|) ==>
            r.vals[p.slug.value] == MakeRecord(p, p.slug.value, parent))
    decreases p, 1
  {
    if Truthy(p.slug) {
      var slug := p.slug.value;
      ProcessSubsStore(Put(acc, slug, MakeRecord(p, slug, parent)), p, |p.subcollections|, slug);
    }
  }

  /**
    * The sub-collection loop adds exactly the slugs of the fetched
    * sub-collections and leaves every other record as it was.
    */
  lemma {:induction false} ProcessSubsStore(acc: ODict<string, DbDir>, p: Payload, k: nat, slug: string)
    requires acc.Valid() && k <= |p.subcollections|
    ensures var r := ProcessSubs(acc, p, k, slug);
      && r.vals.Keys == acc.vals.Keys + SubsStored(p, k)
      && (forall key :: key in acc.vals && key !in SubsStored(p, k) ==> r.vals[key] == acc.vals[key])
    decreases p, 0, k
  {
    if k > 0 {
      ProcessSubsStore(acc, p, k - 1, slug);
      var prev := ProcessSubs(acc, p, k - 1, slug);
      match p.subcollections[k - 1].fetch {
        case SubFailed =>
        case SubFetched(body) =>
          ProcessCollectionStores(prev, body, Some(slug));
      }
    }
  }

  /** A sub-collection whose fetch failed leaves the catalog as it was. */
  lemma FailedFetchSkipped(acc: ODict<string, DbDir>, p: Payload, k: nat, slug: string)
    requires acc.Valid() && 0 < k <= |p.subcollections| && p.subcollections[k - 1].fetch.SubFailed?
    ensures SubsStored(p, k) == SubsStored(p, k - 1)
    ensures ProcessSubs(acc, p, k, slug) == ProcessSubs(acc, p, k - 1, slug)
  {
  }

  class DatabaseScanner {
    var directories: ODict<string, DbDir>

    constructor ()
      ensures directories == Empty()
    {
      directories := Empty();
    }

    /** `scan()` */
    method Scan(list: CollectionList) returns (dirs: ODict<string, DbDir>)
      requires directories.Valid()
      modifies this
      ensures list.ListFailed? ==> dirs == Empty() && directories == old(directories)
      ensures list.ListOk? ==> directories == ProcessAll(old(directories), list.collections) && dirs == directories
    {
      match list {
        case ListFailed =>
          return Empty();
        case ListOk(cs) =>
          var i := 0;
          while i < |cs|
            invariant 0 <= i <= |cs|
            invariant directories == ProcessAll(old(directories), cs[..i])
          {
            assert cs[..i + 1][..i] == cs[..i];
            Process(cs[i], None);
            i := i + 1;
          }
          assert cs[..|cs|] == cs;
          return directories;
      }
    }

    /** `_process_collection(collection, parent_slug)` */
    method Process(p: Payload, parent: Option<string>)
      requires directories.Valid()
      modifies this
      ensures directories == ProcessCollection(old(directories), p, parent)
      decreases p
    {
      if !Truthy(p.slug) {
        return;
      }
      var slug := p.slug.value;
      var images: seq<string> := [];
      match p.detail {
        case DetailFailed =>
        case DetailOk(collection, bare) =>
          if collection.Some? {
            images := collection.value;
          } else {
            images := bare;
          }
      }
      var dbDir := DbDir(slug, parent, p.config, p.heroImage, p.imageCount.GetOr(0), p.videoCount.GetOr(0),
                         |p.subcollections|, images);
      directories := Put(directories, slug, dbDir);
      ghost var stored := directories;
      var i := 0;
      while i < |p.subcollections|
        invariant 0 <= i <= |p.subcollections|
        invariant directories == ProcessSubs(stored, p, i, slug)
      {
        match p.subcollections[i].fetch {
          case SubFailed =>
          case SubFetched(body) =>
            Process(body, Some(slug));
        }
        i := i + 1;
      }
    }
  }
}
