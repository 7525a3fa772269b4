/**
  * Inputs and outputs shared by the two database validators
  * (validate_database.py and src/backend/validate_database_v2.py).
  *
  * Disk and network access are not modelled as behaviour: the directory tree
  * and the API answers are given as values, in the order the scripts would
  * read them.
  */
module Catalog {
  import opened Wrappers
  import opened Text

  /** A parsed JSON document, kept as its canonical text so that equality is value equality. */
  type JsonDoc = string

  /** What opening and `json.load`-ing a file gives: a failure, JSON `null`, or a document. */
  datatype ConfigRead = Unreadable | Loaded(value: Option<JsonDoc>)

  /** One directory entry: a regular file, a directory, or something that is neither. */
  datatype Entry =
    | File(name: string, asJson: ConfigRead)
    | Dir(dir: DirNode)
    | Special(name: string)

  datatype DirNode = DirNode(name: string, listing: Listing)

  /** Listing a directory either fails because its path is too long, or yields its entries. */
  datatype Listing = PathTooLong | Listed(items: seq<Entry>)

  /** Body of `GET /content/collections/<slug>`: `data.collection.gallery` and `data.images`. */
  datatype Detail =
    | DetailFailed
    | DetailOk(collection: Option<seq<string>>, images: seq<string>)

  /** A collection object as the API returns it; absent keys are `None`. */
  datatype Payload = Payload(
    slug: Option<string>,
    config: Option<JsonDoc>,
    heroImage: Option<string>,
    imageCount: Option<int>,
    videoCount: Option<int>,
    subcollections: seq<SubRef>,
    detail: Detail)

  /** One entry of `subcollections` and the answer to fetching it (already unwrapped from `collection`). */
  datatype SubRef = SubRef(slug: string, fetch: SubFetch)
  datatype SubFetch = SubFailed | SubFetched(body: Payload)

  /** Answer to `GET /content/collections`. */
  datatype CollectionList = ListFailed | ListOk(collections: seq<Payload>)

  const ImageExtensions: set<string> := {".jpg", ".jpeg", ".png", ".gif", ".webp", ".jfif", ".bmp"}
  const VideoExtensions: set<string> := {".mp4", ".webm", ".mov", ".avi", ".mkv"}
  const ExcludedDirs: set<string> := {".thumbnails", ".git", "__pycache__", "node_modules"}

  /** `PurePath.suffix`: from the last dot, unless the dot is first or last. */
  function Suffix(name: string): (r: string)
    ensures r == [] || (r[0] == '.' && EndsWith(name, r) && |r| < |name|)
    ensures forall k :: 1 <= k < |r| ==> r[k] != '.'
    ensures var i := RFind(name, '.');
      (0 < i < |name| - 1 ==> r == name[i..]) && (!(0 < i < |name| - 1) ==> r == "")
  {
    var i := RFind(name, '.');
    if 0 < i < |name| - 1 then name[i..] else ""
  }

  /** `PurePath.stem`: the name without its suffix. */
  function Stem(name: string): (r: string)
    ensures r + Suffix(name) == name
  {
    var i := RFind(name, '.');
    if 0 < i < |name| - 1 then name[..i] else name
  }

  datatype Severity = Error | Warning | Info

  datatype Category =
    | OrphanedDbEntry
    | MissingDbEntry
    | CountMismatch
    | ConfigMismatch
    | HierarchyMismatch
    | DuplicateSlug

  /** `ValidationIssue`; the free-form `details` dictionary is not modelled. */
  datatype Issue = Issue(category: Category, severity: Severity, slug: string, message: string)

  /** The slugs the issues are about, in order. */
  function SlugsOf(issues: seq<Issue>): seq<string> {
    if issues == [] then [] else SlugsOf(issues[..|issues| - 1]) + [issues[|issues| - 1].slug]
  }

  lemma {:induction false} SlugsOfAppend(a: seq<Issue>, b: seq<Issue>)
    ensures SlugsOf(a + b) == SlugsOf(a) + SlugsOf(b)
  {
    if b != [] {
      assert (a + b)[..|a + b| - 1] == a + b[..|b| - 1];
      SlugsOfAppend(a, b[..|b| - 1]);
    } else {
      assert a + b == a;
    }
  }

  /** The slug count of a concatenation is the sum of the counts. */
  lemma SlugCountAppend(a: seq<Issue>, b: seq<Issue>, s: string)
    ensures multiset(SlugsOf(a + b))[s] == multiset(SlugsOf(a))[s] + multiset(SlugsOf(b))[s]
  {
    SlugsOfAppend(a, b);
  }

  lemma SlugCountOne(x: Issue, s: string)
    ensures multiset(SlugsOf([x]))[s] == if x.slug == s then 1 else 0
  {
    assert [x][..0] == [];
    assert SlugsOf([x]) == [x.slug];
  }

  /** Python truthiness of an optional string. */
  predicate Truthy(s: Option<string>) {
    s.Some? && s.value != ""
  }

  /** `x.lower() if x else None` */
  function LowerOrNone(s: Option<string>): (r: Option<string>)
    ensures r.Some? <==> Truthy(s)
    ensures r.Some? ==> r.value == Lower(s.value)
  {
    if Truthy(s) then Some(Lower(s.value)) else None
  }

  /** Number of issues of one severity (the report's summary counts). */
  function CountSeverity(issues: seq<Issue>, sev: Severity): (n: nat)
    ensures n <= |issues|
  {
    if issues == [] then 0
    else CountSeverity(issues[..|issues| - 1], sev) + (if issues[|issues| - 1].severity == sev then 1 else 0)
  }

  /** The error, warning and info totals of the report add up to the number of issues. */
  lemma {:induction false} SeverityCountsPartition(issues: seq<Issue>)
    ensures CountSeverity(issues, Error) + CountSeverity(issues, Warning) + CountSeverity(issues, Info) == |issues|
  {
    if issues != [] {
      SeverityCountsPartition(issues[..|issues| - 1]);
    }
  }

  lemma {:induction false} CountSeverityAppend(a: seq<Issue>, b: seq<Issue>, sev: Severity)
    ensures CountSeverity(a + b, sev) == CountSeverity(a, sev) + CountSeverity(b, sev)
  {
    if b != [] {
      assert (a + b)[..|a + b| - 1] == a + b[..|b| - 1];
      CountSeverityAppend(a, b[..|b| - 1], sev);
    } else {
      assert a + b == a;
    }
  }
}
