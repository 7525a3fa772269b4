/**
  * The progressive navigation demo backed by the API: a history of the
  * collections passed through on the way to the current one, shown as
  * breadcrumbs; a depth-first search of the collection tree, whose
  * subcollections are either objects or bare slugs; and the drawer width.
  */
module RealApiDemo {
  import opened Wrappers
  import Navigation

  /** A collection of the tree; its subcollections are objects or bare slugs, judged by the first one. */
  datatype DemoCollection = DemoCollection(id: string, slug: string, name: string, imageCount: nat, subcollections: seq<Sub>)

  datatype Sub = SlugSub(slug: string) | ObjSub(c: DemoCollection)

  predicate SlugList(subs: seq<Sub>) {
    |subs| > 0 && subs[0].SlugSub?
  }

  /** The collection made up for a slug found in a list of bare slugs. */
  function Minimal(slug: string): DemoCollection {
    DemoCollection(slug, slug, Navigation.NameFromSlug(slug), 0, [])
  }

  function AsSubs(cols: seq<DemoCollection>): (r: seq<Sub>)
    ensures |r| == |cols| && forall i :: 0 <= i < |cols| ==> r[i] == ObjSub(cols[i])
  {
    seq(|cols|, i requires 0 <= i < |cols| => ObjSub(cols[i]))
  }

  /** Every collection of the list sits inside `owner`, which bounds the search's recursion. */
  ghost predicate Below(subs: seq<Sub>, owner: DemoCollection) {
    forall i :: 0 <= i < |subs| && subs[i].ObjSub? ==> subs[i].c < owner
  }

  lemma ChildrenBelow(col: DemoCollection)
    ensures Below(col.subcollections, col)
  {
    forall i | 0 <= i < |col.subcollections| && col.subcollections[i].ObjSub?
      ensures col.subcollections[i].c < col
    {
      assert col.subcollections[i] in col.subcollections;
    }
  }

  /**
    * One step of `findCollectionBySlug`: the collection itself, else the
    * made-up collection for a listed bare slug, else a search of its
    * subcollections.
    */
  function FindIn(slug: string, col: DemoCollection): Option<DemoCollection>
    decreases col, |col.subcollections| + 1
  {
    if col.slug == slug then Some(col)
    else if SlugList(col.subcollections) then
      if SlugSub(slug) in col.subcollections then Some(Minimal(slug)) else None
    else
      ChildrenBelow(col);
      FindList(slug, col.subcollections, col)
  }

  /** The loop over a list: the first collection that finds the slug; a bare slug is passed over. */
  function FindList(slug: string, subs: seq<Sub>, ghost owner: DemoCollection): Option<DemoCollection>
    requires Below(subs, owner)
    decreases owner, |subs|
  {
    if subs == [] then None
    else
      var here := if subs[0].ObjSub? then FindIn(slug, subs[0].c) else None;
      if here.Some? then here else FindList(slug, subs[1..], owner)
  }

  /** `findCollectionBySlug(slug, collections)`: a depth-first search from the top-level collections. */
  function Find(slug: string, cols: seq<DemoCollection>): Option<DemoCollection> {
    var root := DemoCollection("", "", "", 0, AsSubs(cols));
    ChildrenBelow(root);
    FindList(slug, AsSubs(cols), root)
  }

  /** Where the search can find a slug: a collection's own slug, or a listed bare slug. */
  ghost predicate OccursIn(slug: string, col: DemoCollection)
    decreases col, |col.subcollections| + 1
  {
    col.slug == slug ||
    (SlugList(col.subcollections) && SlugSub(slug) in col.subcollections) ||
    (!SlugList(col.subcollections) && (ChildrenBelow(col); OccursList(slug, col.subcollections, col)))
  }

  ghost predicate OccursList(slug: string, subs: seq<Sub>, owner: DemoCollection)
    requires Below(subs, owner)
    decreases owner, |subs|
  {
    subs != [] &&
    ((subs[0].ObjSub? && OccursIn(slug, subs[0].c)) || OccursList(slug, subs[1..], owner))
  }

  /** The search finds something exactly when the slug occurs, and what it finds carries that slug. */
  lemma {:induction false} FindInSpec(slug: string, col: DemoCollection)
    ensures FindIn(slug, col).Some? <==> OccursIn(slug, col)
    ensures FindIn(slug, col).Some? ==> FindIn(slug, col).value.slug == slug
    decreases col, |col.subcollections| + 1
  {
    if col.slug != slug && !SlugList(col.subcollections) {
      ChildrenBelow(col);
      FindListSpec(slug, col.subcollections, col);
    }
  }

  lemma {:induction false} FindListSpec(slug: string, subs: seq<Sub>, owner: DemoCollection)
    requires Below(subs, owner)
    ensures FindList(slug, subs, owner).Some? <==> OccursList(slug, subs, owner)
    ensures FindList(slug, subs, owner).Some? ==> FindList(slug, subs, owner).value.slug == slug
    decreases owner, |subs|
  {
    if subs != [] {
      if subs[0].ObjSub? {
        FindInSpec(slug, subs[0].c);
      }
      FindListSpec(slug, subs[1..], owner);
    }
  }

  /** The top-level search finds the slug exactly when it occurs in some top-level collection's tree. */
  lemma FindSpec(slug: string, cols: seq<DemoCollection>)
    ensures Find(slug, cols).Some? <==> exists i :: 0 <= i < |cols| && OccursIn(slug, cols[i])
    ensures Find(slug, cols).Some? ==> Find(slug, cols).value.slug == slug
  {
    var root := DemoCollection("", "", "", 0, AsSubs(cols));
    ChildrenBelow(root);
    FindListSpec(slug, AsSubs(cols), root);
    OccursListAt(slug, AsSubs(cols), root);
  }

  lemma {:induction false} OccursListAt(slug: string, subs: seq<Sub>, owner: DemoCollection)
    requires Below(subs, owner)
    ensures OccursList(slug, subs, owner) <==>
      exists i :: 0 <= i < |subs| && subs[i].ObjSub? && OccursIn(slug, subs[i].c)
    decreases |subs|
  {
    if subs != [] {
      OccursListAt(slug, subs[1..], owner);
      if OccursList(slug, subs[1..], owner) {
        var i :| 0 <= i < |subs| - 1 && subs[1..][i].ObjSub? && OccursIn(slug, subs[1..][i].c);
        assert subs[i + 1] == subs[1..][i];
      }
      if exists i :: 0 <= i < |subs| && subs[i].ObjSub? && OccursIn(slug, subs[i].c) {
        var i :| 0 <= i < |subs| && subs[i].ObjSub? && OccursIn(slug, subs[i].c);
        if i > 0 {
          assert subs[1..][i - 1] == subs[i];
        }
      }
    }
  }

  /** A top-level collection is found first when no earlier collection's tree holds its slug. */
  lemma {:induction false} FindListFirst(slug: string, subs: seq<Sub>, owner: DemoCollection, k: nat)
    requires Below(subs, owner)
    requires k < |subs| && subs[k].ObjSub? && subs[k].c.slug == slug
    requires forall i :: 0 <= i < k && subs[i].ObjSub? ==> !OccursIn(slug, subs[i].c)
    ensures FindList(slug, subs, owner) == Some(subs[k].c)
    decreases k
  {
    if k > 0 {
      if subs[0].ObjSub? {
        FindInSpec(slug, subs[0].c);
      }
      assert forall i :: 0 <= i < k - 1 ==> subs[1..][i] == subs[i + 1];
      FindListFirst(slug, subs[1..], owner, k - 1);
    }
  }

  lemma FindTopLevel(slug: string, cols: seq<DemoCollection>, k: nat)
    requires k < |cols| && cols[k].slug == slug
    requires forall i :: 0 <= i < k ==> !OccursIn(slug, cols[i])
    ensures Find(slug, cols) == Some(cols[k])
  {
    var root := DemoCollection("", "", "", 0, AsSubs(cols));
    ChildrenBelow(root);
    FindListFirst(slug, AsSubs(cols), root, k);
  }

  // ---------------------------------------------------------------------------
  // History and breadcrumbs

  datatype Entry = Entry(name: string, slug: string)

  function EntryOf(c: DemoCollection): Entry { Entry(c.name, c.slug) }

  /** `findIndex(c => c.slug === slug)`, or `|history|` when there is none. */
  function IndexOfSlug(history: seq<Entry>, slug: string): (k: nat)
    ensures k <= |history|
    ensures k < |history| ==> history[k].slug == slug
    ensures forall j :: 0 <= j < k ==> history[j].slug != slug
  {
    if history == [] then 0
    else if history[0].slug == slug then 0
    else 1 + IndexOfSlug(history[1..], slug)
  }

  /** The history after a breadcrumb click: up to the clicked crumb, or empty when it is not there. */
  function Truncated(history: seq<Entry>, slug: string): seq<Entry> {
    var k := IndexOfSlug(history, slug);
    if k < |history| then history[..k + 1] else []
  }

  /**
    * A clicked crumb that is in the history becomes its last entry, with
    * everything before it kept and its slug appearing nowhere earlier.
    */
  lemma TruncatedSpec(history: seq<Entry>, slug: string)
    ensures Truncated(history, slug) <= history
    ensures (exists e :: e in history && e.slug == slug) <==> Truncated(history, slug) != []
    ensures var t := Truncated(history, slug);
      t != [] ==> t[|t| - 1].slug == slug && forall j :: 0 <= j < |t| - 1 ==> t[j].slug != slug
  {
    var k := IndexOfSlug(history, slug);
    if k == |history| {
      forall e | e in history
        ensures e.slug != slug
      {
        var j :| 0 <= j < |history| && history[j] == e;
      }
    }
  }

  /** `getBreadcrumbs()` */
  function Breadcrumbs(history: seq<Entry>, current: Option<DemoCollection>): seq<Entry> {
    if current.None? then [Entry("Home", "/")]
    else [Entry("Home", "/")] + history + [EntryOf(current.value)]
  }

  /** Home comes first; with a current collection it comes last, with the history between. */
  lemma BreadcrumbsSpec(history: seq<Entry>, current: Option<DemoCollection>)
    ensures Breadcrumbs(history, current)[0] == Entry("Home", "/")
    ensures current.Some? ==>
      var b := Breadcrumbs(history, current);
      |b| == |history| + 2 && b[|b| - 1] == EntryOf(current.value) && b[1..|b| - 1] == history
  {
  }

  /** The history after `navigateTo(slug, fromBreadcrumb)` has loaded the collection. */
  function HistoryAfter(history: seq<Entry>, current: Option<DemoCollection>, slug: string, fromBreadcrumb: bool): seq<Entry> {
    if fromBreadcrumb then Truncated(history, slug)
    else if current.Some? && current.value.slug != slug then history + [EntryOf(current.value)]
    else history
  }

  /**
    * Going forward from a collection and then back through its crumb returns
    * to the same history, when that collection was not already in it.
    */
  lemma ForwardThenBack(history: seq<Entry>, current: DemoCollection, next: string)
    requires next != current.slug
    requires forall e :: e in history ==> e.slug != current.slug
    ensures var forward := HistoryAfter(history, Some(current), next, false);
      HistoryAfter(forward, Some(current), current.slug, true) == forward
  {
    var forward := history + [EntryOf(current)];
    var k := IndexOfSlug(forward, current.slug);
    assert forward[|history|].slug == current.slug;
    assert forall j :: 0 <= j < |history| ==> forward[j] == history[j];
    assert k == |history|;
  }

  /** `getDrawerWidth()`: the subcollection count of an expanded slug, `0` when not found. */
  function SubCount(slug: string, cols: seq<DemoCollection>): nat {
    var found := Find(slug, cols);
    if found.Some? then |found.value.subcollections| else 0
  }

  /** `Math.max(0, ...counts)` over the expanded slugs, in the set's order. */
  function MaxDepth(expanded: seq<string>, cols: seq<DemoCollection>): nat {
    if expanded == [] then 0
    else
      var m := MaxDepth(expanded[..|expanded| - 1], cols);
      var d := SubCount(expanded[|expanded| - 1], cols);
      if d > m then d else m
  }

  function DrawerWidth(expanded: seq<string>, cols: seq<DemoCollection>): nat {
    240 + (if MaxDepth(expanded, cols) > 0 then 40 else 0)
  }

  /** The drawer is 280 wide exactly when an expanded collection has subcollections, else 240. */
  lemma {:induction false} DrawerWidthSpec(expanded: seq<string>, cols: seq<DemoCollection>)
    ensures DrawerWidth(expanded, cols) == 280 <==> exists s :: s in expanded && SubCount(s, cols) > 0
    ensures DrawerWidth(expanded, cols) == 240 || DrawerWidth(expanded, cols) == 280
  {
    if expanded != [] {
      var front := expanded[..|expanded| - 1];
      DrawerWidthSpec(front, cols);
      assert expanded == front + [expanded[|expanded| - 1]];
      assert forall s :: s in expanded <==> s in front || s == expanded[|expanded| - 1];
    }
  }

  // ---------------------------------------------------------------------------
  // The page's state

  class DemoNav {
    var currentPath: string
    var currentCollection: Option<DemoCollection>
    var expanded: set<string>
    var history: seq<Entry>
    var isDrawerOpen: bool

    constructor ()
      ensures currentPath == "/" && currentCollection.None? && expanded == {} && history == [] && !isDrawerOpen
    {
      currentPath := "/";
      currentCollection := None;
      expanded := {};
      history := [];
      isDrawerOpen := false;
    }

    /**
      * `navigateTo(slug, fromBreadcrumb)` up to its timers; `loaded` is what
      * `getCollection(slug)` returned (`None` when it failed).
      */
    method NavigateTo(slug: string, fromBreadcrumb: bool, loaded: Option<DemoCollection>)
      modifies this
      ensures slug == "/" ==>
        currentPath == "/" && currentCollection.None? && expanded == {} && history == [] &&
        isDrawerOpen == old(isDrawerOpen)
      ensures slug != "/" && loaded.None? ==>
        currentPath == old(currentPath) && currentCollection == old(currentCollection) &&
        expanded == old(expanded) && history == old(history) && isDrawerOpen == old(isDrawerOpen)
      ensures slug != "/" && loaded.Some? ==>
        currentPath == Navigation.CollectionsPrefix + slug && currentCollection == loaded &&
        history == HistoryAfter(old(history), old(currentCollection), slug, fromBreadcrumb) &&
        var hasSubs := |loaded.value.subcollections| > 0;
        var onPage := old(currentCollection).Some? && old(currentCollection).value.slug == slug;
        isDrawerOpen == (old(isDrawerOpen) || (hasSubs && fromBreadcrumb)) &&
        expanded == if hasSubs && !fromBreadcrumb && onPage && slug in old(expanded)
          then old(expanded) - {slug} else old(expanded)
    {
      if slug == "/" {
        currentPath := "/";
        currentCollection := None;
        expanded := {};
        history := [];
        return;
      }
      var isAlreadyOnPage := currentCollection.Some? && currentCollection.value.slug == slug;
      if loaded.None? {
        return;
      }
      if fromBreadcrumb {
        var crumbIndex := IndexOfSlug(history, slug);
        if crumbIndex < |history| {
          history := history[..crumbIndex + 1];
        } else {
          history := [];
        }
      } else if !isAlreadyOnPage && currentCollection.Some? {
        history := history + [EntryOf(currentCollection.value)];
      }
      currentPath := Navigation.CollectionsPrefix + slug;
      currentCollection := loaded;
      if |loaded.value.subcollections| > 0 {
        if fromBreadcrumb {
          isDrawerOpen := true;
        } else if isAlreadyOnPage && slug in expanded {
          expanded := expanded - {slug};
        }
      }
    }
  }
}
