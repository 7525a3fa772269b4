/**
  * The site navigation: the current collection derived from the path, the
  * drawer's collection tree (which items are expanded, how subcollections
  * given as bare slugs are named), what a click does, and the breadcrumb
  * trail shown above a collection.
  */
module Navigation {
  import opened Wrappers
  import opened Text

  const CollectionsPrefix: string := "/collections/"

  /** The path segment after `/collections/`: `pathname.split('/')[2]`. */
  function SlugSegment(pathname: string): string
    requires StartsWith(pathname, CollectionsPrefix)
  {
    var rest := pathname[|CollectionsPrefix|..];
    rest[..IndexOf(rest, '/')]
  }

  /** Splitting at the first separator. */
  lemma SplitAfter(a: string, c: char, b: string)
    requires c !in a
    ensures IndexOf(a + [c] + b, c) == |a|
    ensures Split(a + [c] + b, c) == [a] + Split(b, c)
  {
    var s := a + [c] + b;
    assert s[|a|] == c;
    assert forall i :: 0 <= i < |a| ==> s[i] == a[i];
    assert s[..|a|] == a && s[|a| + 1..] == b;
  }

  /** The first piece runs up to the first separator. */
  lemma SplitFirst(s: string, c: char)
    ensures Split(s, c)[0] == s[..IndexOf(s, c)]
  {
    if c !in s {
      assert s[..IndexOf(s, c)] == s;
    }
  }

  /** The segment is the third piece of the path split at every `/`. */
  lemma SlugSegmentIsThirdPiece(pathname: string)
    requires StartsWith(pathname, CollectionsPrefix)
    ensures |Split(pathname, '/')| >= 3 && Split(pathname, '/')[2] == SlugSegment(pathname)
  {
    var rest := pathname[|CollectionsPrefix|..];
    var word := "collections";
    assert '/' !in word;
    assert pathname == [] + ['/'] + (word + ['/'] + rest) by {
      assert pathname == pathname[..|CollectionsPrefix|] + rest;
    }
    SplitAfter([], '/', word + ['/'] + rest);
    SplitAfter(word, '/', rest);
    SplitFirst(rest, '/');
  }

  /**
    * `currentSlug`: the segment after `/collections/`, `'home'` at `/`, and
    * nothing anywhere else or without a path.
    */
  function CurrentSlug(pathname: Option<string>): Option<string> {
    if pathname.Some? && StartsWith(pathname.value, CollectionsPrefix) then Some(SlugSegment(pathname.value))
    else if pathname == Some("/") then Some("home")
    else None
  }

  /** `handleNavigate(slug)`: the path pushed to the router. */
  function NavigateTarget(slug: string): string {
    if slug == "home" then "/" else CollectionsPrefix + slug
  }

  /** Navigating to a slug (one without `/`) makes it the current slug. */
  lemma NavigateThenCurrent(slug: string)
    requires '/' !in slug
    ensures CurrentSlug(Some(NavigateTarget(slug))) == Some(slug)
  {
    if slug == "home" {
      assert !StartsWith("/", CollectionsPrefix);
    } else {
      var p := CollectionsPrefix + slug;
      assert p[..|CollectionsPrefix|] == CollectionsPrefix;
      assert p[|CollectionsPrefix|..] == slug;
      assert slug[..|slug|] == slug;
    }
  }

  /** The current slug never holds a `/`, and names `/collections/<slug>` exactly when it is not home. */
  lemma CurrentSlugSpec(pathname: Option<string>)
    ensures CurrentSlug(pathname).Some? ==> '/' !in CurrentSlug(pathname).value
    ensures CurrentSlug(pathname).Some? && pathname != Some("/") ==>
      StartsWith(pathname.value, CollectionsPrefix + CurrentSlug(pathname).value)
  {
    if pathname.Some? && StartsWith(pathname.value, CollectionsPrefix) {
      var p := pathname.value;
      var rest := p[|CollectionsPrefix|..];
      var k := IndexOf(rest, '/');
      assert forall i :: 0 <= i < k ==> rest[..k][i] != '/';
      assert (CollectionsPrefix + rest[..k]) == p[..|CollectionsPrefix| + k];
    }
  }

  // ---------------------------------------------------------------------------
  // Configuration

  datatype NavigationConfig = NavigationConfig(
    subcollectionIndent: Option<real>, drawerWidth: Option<real>, drawerTransitionMs: Option<real>)

  /** `x || d` on a number. */
  function OrNumber(x: Option<real>, d: real): real {
    if x.Some? && x.value != 0.0 then x.value else d
  }

  function IndentSpacing(c: NavigationConfig): real { OrNumber(c.subcollectionIndent, 16.0) }
  function DrawerWidth(c: NavigationConfig): real { OrNumber(c.drawerWidth, 240.0) }
  function TransitionMs(c: NavigationConfig): real { OrNumber(c.drawerTransitionMs, 300.0) }

  /** Missing or zero settings take the defaults 16, 240 and 300; others are kept. */
  lemma ConfigDefaults(c: NavigationConfig)
    ensures c.subcollectionIndent.None? || c.subcollectionIndent == Some(0.0) ==> IndentSpacing(c) == 16.0
    ensures c.drawerWidth.None? || c.drawerWidth == Some(0.0) ==> DrawerWidth(c) == 240.0
    ensures c.drawerTransitionMs.None? || c.drawerTransitionMs == Some(0.0) ==> TransitionMs(c) == 300.0
    ensures c.drawerWidth.Some? && c.drawerWidth.value != 0.0 ==> DrawerWidth(c) == c.drawerWidth.value
  {
  }

  // ---------------------------------------------------------------------------
  // The collection tree

  /** A collection as the tree shows it; a subcollection may be given by its slug alone. */
  datatype NavCollection = NavCollection(
    id: string,
    slug: string,
    name: Option<string>,
    title: Option<string>,
    imageCount: nat,
    videoCount: nat,
    subcollections: seq<Subcollection>)

  datatype Subcollection = SlugOnly(slug: string) | Full(c: NavCollection)

  function Truthy(s: Option<string>): bool { s.Some? && s.value != "" }

  /** `/^[^-]+-/` removed: the text up to and including the first hyphen, when something precedes it. */
  function DropFirstWord(slug: string): (r: string)
    ensures |r| <= |slug|
  {
    var k := IndexOf(slug, '-');
    if 0 < k < |slug| then slug[k + 1..] else slug
  }

  predicate IsWordChar(c: char) {
    'a' <= c <= 'z' || 'A' <= c <= 'Z' || IsDigit(c) || c == '_'
  }

  /** `/\b\w/g` upper-cased: every word character that starts a word. */
  function TitleCase(s: string): (r: string)
    ensures |r| == |s|
    ensures forall i :: 0 <= i < |s| ==>
      r[i] == if IsWordChar(s[i]) && (i == 0 || !IsWordChar(s[i - 1])) then UpperChar(s[i]) else s[i]
  {
    seq(|s|, i requires 0 <= i < |s| =>
      if IsWordChar(s[i]) && (i == 0 || !IsWordChar(s[i - 1])) then UpperChar(s[i]) else s[i])
  }

  /** The name shown for a subcollection given by its slug. */
  function NameFromSlug(slug: string): string {
    TitleCase(ReplaceChar(DropFirstWord(slug), '-', ' '))
  }

  lemma LowerOfUpper(c: char)
    ensures LowerChar(UpperChar(c)) == LowerChar(c)
  {
  }

  /** The name has no hyphen, and differs from the slug's remainder only in case. */
  lemma NameFromSlugSpec(slug: string)
    ensures '-' !in NameFromSlug(slug)
    ensures Lower(NameFromSlug(slug)) == Lower(ReplaceChar(DropFirstWord(slug), '-', ' '))
  {
    var s := ReplaceChar(DropFirstWord(slug), '-', ' ');
    var r := TitleCase(s);
    forall i | 0 <= i < |r|
      ensures r[i] != '-' && LowerChar(r[i]) == LowerChar(s[i])
    {
      LowerOfUpper(s[i]);
    }
    assert Lower(r) == Lower(s);
  }

  /** A slug with a prefix loses it: the name is as long as what follows the first hyphen. */
  lemma NameFromSlugLength(slug: string)
    ensures 0 < IndexOf(slug, '-') < |slug| ==> |NameFromSlug(slug)| == |slug| - IndexOf(slug, '-') - 1
    ensures '-' !in slug ==> |NameFromSlug(slug)| == |slug|
  {
  }

  /**
    * A subcollection as a collection: a bare slug gets a name derived from it,
    * zero counts and no children; an object is named by title, else name, else slug.
    */
  function Normalized(sub: Subcollection): NavCollection {
    match sub
    case SlugOnly(slug) => NavCollection(slug, slug, Some(NameFromSlug(slug)), None, 0, 0, [])
    case Full(c) =>
      c.(name := Some(if Truthy(c.title) then c.title.value else if Truthy(c.name) then c.name.value else c.slug))
  }

  /** Both forms keep the slug; an object keeps everything but its name. */
  lemma NormalizedSpec(sub: Subcollection)
    ensures sub.SlugOnly? ==>
      var c := Normalized(sub);
      c.slug == sub.slug && c.id == sub.slug && c.name == Some(NameFromSlug(sub.slug)) &&
      c.imageCount == 0 && c.videoCount == 0 && c.subcollections == []
    ensures sub.Full? ==>
      Normalized(sub) == sub.c.(name := Normalized(sub).name) &&
      (Truthy(sub.c.title) ==> Normalized(sub).name == sub.c.title) &&
      (!Truthy(sub.c.title) && Truthy(sub.c.name) ==> Normalized(sub).name == sub.c.name) &&
      (!Truthy(sub.c.title) && !Truthy(sub.c.name) ==> Normalized(sub).name == Some(sub.c.slug))
  {
  }

  predicate HasSubcollections(c: NavCollection) {
    |c.subcollections| > 0
  }

  /** The item's highlight. */
  predicate IsActive(c: NavCollection, currentSlug: Option<string>) {
    currentSlug == Some(c.slug)
  }

  /** The drawer's Home link is shown while a collection is viewed. */
  predicate ShowsHomeLink(currentSlug: Option<string>) {
    currentSlug.Some? && currentSlug.value != "" && currentSlug.value != "home"
  }

  /** `expandedCollections` after `handleToggleExpand(slug)`. */
  function Toggled(expanded: set<string>, slug: string): set<string> {
    if slug in expanded then expanded - {slug} else expanded + {slug}
  }

  /** Toggling flips exactly that slug, and twice restores the set. */
  lemma ToggledSpec(expanded: set<string>, slug: string)
    ensures slug in Toggled(expanded, slug) <==> slug !in expanded
    ensures forall s :: s != slug ==> (s in Toggled(expanded, slug) <==> s in expanded)
    ensures Toggled(Toggled(expanded, slug), slug) == expanded
  {
  }

  /** The navigation's state: the drawer, the expanded items and the router's pushes. */
  class Navigator {
    var isOpen: bool
    var expanded: set<string>
    var pushed: seq<string>
    var closeCalls: nat

    constructor ()
      ensures !isOpen && expanded == {} && pushed == [] && closeCalls == 0
    {
      isOpen := false;
      expanded := {};
      pushed := [];
      closeCalls := 0;
    }

    /** `handleNavigate(slug)`: the drawer stays as it is. */
    method Navigate(slug: string)
      modifies this
      ensures pushed == old(pushed) + [NavigateTarget(slug)]
      ensures isOpen == old(isOpen) && expanded == old(expanded) && closeCalls == old(closeCalls)
    {
      if slug == "home" {
        pushed := pushed + ["/"];
      } else {
        pushed := pushed + [CollectionsPrefix + slug];
      }
    }

    /** `handleToggleExpand(slug)` */
    method ToggleExpand(slug: string)
      modifies this
      ensures expanded == Toggled(old(expanded), slug)
      ensures isOpen == old(isOpen) && pushed == old(pushed) && closeCalls == old(closeCalls)
    {
      var next := expanded;
      if slug in next {
        next := next - {slug};
      } else {
        next := next + {slug};
      }
      expanded := next;
    }

    /** A click on a tree item: it navigates, and toggles only an item with subcollections. */
    method ClickItem(c: NavCollection)
      modifies this
      ensures pushed == old(pushed) + [NavigateTarget(c.slug)]
      ensures expanded == if HasSubcollections(c) then Toggled(old(expanded), c.slug) else old(expanded)
      ensures isOpen == old(isOpen) && closeCalls == old(closeCalls)
    {
      Navigate(c.slug);
      if HasSubcollections(c) {
        ToggleExpand(c.slug);
      }
    }

    /** The hamburger button. */
    method ToggleDrawer()
      modifies this
      ensures isOpen == !old(isOpen)
      ensures expanded == old(expanded) && pushed == old(pushed) && closeCalls == old(closeCalls)
    {
      isOpen := !isOpen;
    }

    /** Escape, or a mouse press outside the drawer: an open drawer closes and `onClose` is called. */
    method Dismiss(isEscapeOrOutside: bool)
      modifies this
      ensures isOpen == (old(isOpen) && !isEscapeOrOutside)
      ensures closeCalls == old(closeCalls) + (if old(isOpen) && isEscapeOrOutside then 1 else 0)
      ensures expanded == old(expanded) && pushed == old(pushed)
    {
      if isEscapeOrOutside && isOpen {
        isOpen := false;
        closeCalls := closeCalls + 1;
      }
    }
  }

  // ---------------------------------------------------------------------------
  // Breadcrumbs

  /** `NavigationConfig['breadcrumbs']`; an absent config is all `None`. */
  datatype BreadcrumbConfig = BreadcrumbConfig(
    enabled: Option<bool>, separator: Option<string>, showHome: Option<bool>, homeLabel: Option<string>)

  /** A crumb; one without a path cannot be clicked. */
  datatype Crumb = Crumb(caption: string, path: Option<string>)

  /** The crumbs before the length check. */
  function Trail(config: BreadcrumbConfig, pathname: Option<string>, currentCollectionName: Option<string>): seq<Crumb> {
    var home := if config.showHome != Some(false)
      then [Crumb(if Truthy(config.homeLabel) then config.homeLabel.value else "Home", Some("/"))]
      else [];
    var inCollection := pathname.Some? && pathname.value != "" && pathname.value != "/" &&
      StartsWith(pathname.value, CollectionsPrefix);
    var collections := if inCollection then [Crumb("Collections", None)] else [];
    var current := if inCollection && Truthy(currentCollectionName) then [Crumb(currentCollectionName.value, None)] else [];
    home + collections + current
  }

  /** The trail, or `None` when nothing is rendered. */
  function CrumbsOf(config: BreadcrumbConfig, pathname: Option<string>, currentCollectionName: Option<string>): Option<seq<Crumb>> {
    if config.enabled == Some(false) then None
    else
      var crumbs := Trail(config, pathname, currentCollectionName);
      if |crumbs| <= 1 then None else Some(crumbs)
  }

  /** The component's crumb building: successive pushes. */
  method BuildCrumbs(config: BreadcrumbConfig, pathname: Option<string>, currentCollectionName: Option<string>)
    returns (trail: Option<seq<Crumb>>)
    ensures trail == CrumbsOf(config, pathname, currentCollectionName)
  {
    if config.enabled == Some(false) {
      return None;
    }
    var homeLabel := if Truthy(config.homeLabel) then config.homeLabel.value else "Home";
    var crumbs: seq<Crumb> := [];
    if config.showHome != Some(false) {
      crumbs := crumbs + [Crumb(homeLabel, Some("/"))];
    }
    ghost var home := crumbs;
    if pathname.Some? && pathname.value != "" && pathname.value != "/" {
      if StartsWith(pathname.value, CollectionsPrefix) {
        crumbs := crumbs + [Crumb("Collections", None)];
        if Truthy(currentCollectionName) {
          crumbs := crumbs + [Crumb(currentCollectionName.value, None)];
          assert crumbs == home + [Crumb("Collections", None)] + [Crumb(currentCollectionName.value, None)];
        }
      }
    }
    assert crumbs == Trail(config, pathname, currentCollectionName);
    if |crumbs| <= 1 {
      return None;
    }
    trail := Some(crumbs);
  }

  /**
    * Disabled breadcrumbs render nothing. A rendered trail is shown only inside
    * a collection: it starts with a clickable Home crumb to `/` unless Home is
    * hidden, goes on with an unclickable Collections crumb, and ends with the
    * collection's name when one is given.
    */
  lemma CrumbsSpec(config: BreadcrumbConfig, pathname: Option<string>, currentCollectionName: Option<string>)
    ensures config.enabled == Some(false) ==> CrumbsOf(config, pathname, currentCollectionName).None?
    ensures var t := CrumbsOf(config, pathname, currentCollectionName);
      t.Some? ==>
        |t.value| >= 2 && pathname.Some? && StartsWith(pathname.value, CollectionsPrefix) &&
        (config.showHome != Some(false) <==> t.value[0].path == Some("/")) &&
        Crumb("Collections", None) in t.value &&
        (Truthy(currentCollectionName) ==> t.value[|t.value| - 1] == Crumb(currentCollectionName.value, None))
    ensures config.enabled != Some(false) && config.showHome != Some(false) && pathname.Some? &&
            StartsWith(pathname.value, CollectionsPrefix) ==>
              CrumbsOf(config, pathname, currentCollectionName).Some?
  {
  }

  /** One crumb as rendered: clickable or not, and the separator after it, if any. */
  datatype RenderedCrumb = RenderedCrumb(caption: string, clickable: bool, isLast: bool, separatorAfter: Option<string>)

  function Rendered(crumbs: seq<Crumb>, separator: string): (r: seq<RenderedCrumb>)
    ensures |r| == |crumbs|
    ensures forall i :: 0 <= i < |crumbs| ==>
      r[i] == RenderedCrumb(crumbs[i].caption, crumbs[i].path.Some?, i == |crumbs| - 1,
        if i == |crumbs| - 1 then None else Some(separator))
  {
    seq(|crumbs|, i requires 0 <= i < |crumbs| =>
      RenderedCrumb(crumbs[i].caption, crumbs[i].path.Some?, i == |crumbs| - 1,
        if i == |crumbs| - 1 then None else Some(separator)))
  }

  /** `config.separator || '/'` */
  function SeparatorOf(config: BreadcrumbConfig): string {
    if Truthy(config.separator) then config.separator.value else "/"
  }

  /**
    * In a rendered trail only the Home crumb is clickable, and a separator
    * follows every crumb but the last: one fewer separator than crumbs.
    */
  lemma RenderedSpec(config: BreadcrumbConfig, pathname: Option<string>, currentCollectionName: Option<string>)
    requires CrumbsOf(config, pathname, currentCollectionName).Some?
    ensures var crumbs := CrumbsOf(config, pathname, currentCollectionName).value;
      var r := Rendered(crumbs, SeparatorOf(config));
      (forall i :: 0 <= i < |r| ==> (r[i].clickable <==> i == 0 && config.showHome != Some(false))) &&
      (forall i :: 0 <= i < |r| ==> (r[i].separatorAfter.None? <==> i == |r| - 1)) &&
      r[|r| - 1].isLast
  {
  }
}
