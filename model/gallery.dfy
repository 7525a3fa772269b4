/**
  * What the collection layouts share: a gallery item as the pages receive it,
  * the image a carousel is given, cutting a list into consecutive groups, and
  * the mapping of a carousel's configured options to its properties, where
  * numbers and strings default through `||` and flags through `??`.
  */
module Gallery {
  import opened Wrappers

  /** A present string that JavaScript counts as true: absent and `""` are false. */
  predicate Truthy(o: Option<string>) {
    o.Some? && o.value != ""
  }

  /** `a || b` on strings. */
  function OrElse(a: Option<string>, b: string): string {
    if Truthy(a) then a.value else b
  }

  /** `a || b` on numbers: absent and `0` take the default. */
  function OrNum(a: Option<real>, b: real): real {
    if a.Some? && a.value != 0.0 then a.value else b
  }

  datatype Urls = Urls(large: Option<string>, medium: Option<string>, small: Option<string>, original: Option<string>)

  /** A gallery item; `isImage` is `type === 'image'`. */
  datatype MediaItem = MediaItem(
    id: string,
    isImage: bool,
    filename: string,
    title: Option<string>,
    altText: Option<string>,
    urls: Urls,
    aspectRatio: real)

  /** `CarouselImage`: `src` is the URL before it is made absolute. */
  datatype CarouselImage = CarouselImage(id: string, src: string, alt: string)

  // ---------------------------------------------------------------------------
  // Consecutive groups

  function Min(a: int, b: int): int { if a <= b then a else b }

  /** `for (i = 0; i < s.length; i += n) groups.push(s.slice(i, i + n))` */
  function Chunks<T>(s: seq<T>, n: nat): seq<seq<T>>
    requires n > 0
    decreases |s|
  {
    if s == [] then []
    else if |s| <= n then [s]
    else [s[..n]] + Chunks(s[n..], n)
  }

  function Flatten<T>(groups: seq<seq<T>>): seq<T> {
    if groups == [] then [] else groups[0] + Flatten(groups[1..])
  }

  /** The groups put back together are the list. */
  lemma {:induction false} ChunksFlatten<T>(s: seq<T>, n: nat)
    requires n > 0
    ensures Flatten(Chunks(s, n)) == s
    decreases |s|
  {
    if |s| > n {
      ChunksFlatten(s[n..], n);
      assert s == s[..n] + s[n..];
    }
  }

  /** No group is empty or larger than `n`, and every group but the last holds exactly `n`. */
  lemma {:induction false} ChunksSizes<T>(s: seq<T>, n: nat)
    requires n > 0
    ensures forall i :: 0 <= i < |Chunks(s, n)| ==> 0 < |Chunks(s, n)[i]| <= n
    ensures forall i :: 0 <= i < |Chunks(s, n)| - 1 ==> |Chunks(s, n)[i]| == n
    decreases |s|
  {
    if |s| > n {
      ChunksSizes(s[n..], n);
      var rest := Chunks(s[n..], n);
      assert Chunks(s, n) == [s[..n]] + rest;
      assert forall i :: 1 <= i < |Chunks(s, n)| ==> Chunks(s, n)[i] == rest[i - 1];
    }
  }

  /** There are `ceil(|s| / n)` groups: the last one starts before the end and holds at most `n`. */
  lemma {:induction false} ChunksCount<T>(s: seq<T>, n: nat)
    requires n > 0
    ensures s == [] <==> |Chunks(s, n)| == 0
    ensures s != [] ==> (|Chunks(s, n)| - 1) * n < |s| <= |Chunks(s, n)| * n
    decreases |s|
  {
    if |s| > n {
      ChunksCount(s[n..], n);
      var k := |Chunks(s[n..], n)|;
      assert |Chunks(s, n)| == k + 1;
      assert (k + 1) * n == k * n + n;
      assert k * n == (k - 1) * n + n;
    }
  }

  lemma MulPred(i: nat, n: nat)
    requires i > 0
    ensures (i - 1) * n + n == i * n
  {
  }

  lemma ShiftedSlice<T>(s: seq<T>, n: nat, k: nat, m: nat)
    requires n <= |s| && k <= m <= |s| - n
    ensures s[n..][k..m] == s[k + n..m + n]
  {
  }

  /** Group `i` is the slice starting at `i * n`. */
  lemma {:induction false} ChunkAt<T>(s: seq<T>, n: nat, i: nat)
    requires n > 0 && i < |Chunks(s, n)|
    ensures i * n < |s|
    ensures Chunks(s, n)[i] == s[i * n..Min(i * n + n, |s|)]
    decreases |s|
  {
    if i == 0 {
      if |s| <= n {
        assert s[0..|s|] == s;
      }
    } else {
      assert |s| > n;
      var rest := s[n..];
      assert Chunks(s, n)[i] == Chunks(rest, n)[i - 1];
      ChunkAt(rest, n, i - 1);
      var k := (i - 1) * n;
      MulPred(i, n);
      ShiftedSlice(s, n, k, Min(k + n, |rest|));
    }
  }

  /** One step of the loop: the group starting at `i`, then the groups of the rest. */
  lemma ChunksStep<T>(s: seq<T>, n: nat)
    requires n > 0 && s != []
    ensures Chunks(s, n) == [s[..Min(n, |s|)]] + Chunks(s[Min(n, |s|)..], n)
  {
    if |s| <= n {
      assert s[..Min(n, |s|)] == s;
      assert s[Min(n, |s|)..] == [];
    }
  }

  /** The groups from position `i` on: the group starting at `i`, then those after it. */
  lemma ChunksFrom<T>(s: seq<T>, n: nat, i: nat)
    requires n > 0 && i < |s|
    ensures Chunks(s[i..], n) == [s[i..Min(i + n, |s|)]] + Chunks(s[Min(i + n, |s|)..], n)
  {
    ChunksStep(s[i..], n);
    assert s[i..][..Min(n, |s| - i)] == s[i..Min(i + n, |s|)];
    assert s[i..][Min(n, |s| - i)..] == s[Min(i + n, |s|)..];
  }

  lemma ConcatAssoc<T>(a: seq<T>, b: seq<T>, c: seq<T>)
    ensures a + b + c == a + (b + c)
  {
  }

  /** The loop itself, as each layout writes it. */
  method GroupInto<T>(s: seq<T>, n: nat) returns (groups: seq<seq<T>>)
    requires n > 0
    ensures groups == Chunks(s, n)
  {
    groups := [];
    var i := 0;
    while i < |s|
      invariant 0 <= i
      invariant groups + Chunks(s[Min(i, |s|)..], n) == Chunks(s, n)
    {
      var end := Min(i + n, |s|);
      ChunksFrom(s, n, i);
      ConcatAssoc(groups, [s[i..end]], Chunks(s[end..], n));
      groups := groups + [s[i..end]];
      i := i + n;
    }
    assert s[Min(i, |s|)..] == [];
  }

  // ---------------------------------------------------------------------------
  // Carousel options

  datatype ReservedSpace = ReservedSpace(
    top: Option<real>, bottom: Option<real>, left: Option<real>, right: Option<real>,
    backgroundColor: Option<string>, backgroundOpacity: Option<real>)

  datatype Styling = Styling(
    borderWidth: Option<real>, borderColor: Option<string>, borderOpacity: Option<real>, borderRadius: Option<real>,
    backgroundColor: Option<string>, backgroundOpacity: Option<real>, padding: Option<real>)

  /** A carousel's configured options; an absent group is all `None`. */
  datatype CarouselOptions = CarouselOptions(
    transition: Option<string>,
    autoplay: Option<bool>,
    interval: Option<real>,
    speed: Option<real>,
    navShow: Option<bool>,
    reactionsShow: Option<bool>,
    reactionsAutoHide: Option<bool>,
    reservedSpace: ReservedSpace,
    styling: Styling)

  const NoOptions: CarouselOptions := CarouselOptions(
    None, None, None, None, None, None, None,
    ReservedSpace(None, None, None, None, None, None),
    Styling(None, None, None, None, None, None, None))

  /** The `Carousel` component's properties. */
  datatype CarouselProps = CarouselProps(
    transition: string, autoplay: bool, interval: real, speed: real,
    showNavigation: bool, showSocialReactions: bool, autoHideSocial: bool,
    reserveTop: real, reserveBottom: real, reserveLeft: real, reserveRight: real,
    reserveBackgroundColor: string, reserveBackgroundOpacity: real,
    containerBorderWidth: real, containerBorderColor: string, containerBorderOpacity: real,
    containerBorderRadius: real, containerBackgroundColor: string, containerBackgroundOpacity: real,
    containerPadding: real)

  /** `mapCarouselOptions`; the layouts differ only in the bottom reservation's default. */
  function MapCarouselOptions(o: CarouselOptions, bottomDefault: real): CarouselProps {
    var r := o.reservedSpace;
    var st := o.styling;
    CarouselProps(
      OrElse(o.transition, "fade"), o.autoplay.GetOr(false), OrNum(o.interval, 8000.0), OrNum(o.speed, 800.0),
      o.navShow.GetOr(true), o.reactionsShow.GetOr(false), o.reactionsAutoHide.GetOr(true),
      OrNum(r.top, 0.0), OrNum(r.bottom, bottomDefault), OrNum(r.left, 0.0), OrNum(r.right, 0.0),
      OrElse(r.backgroundColor, "transparent"), OrNum(r.backgroundOpacity, 0.0),
      OrNum(st.borderWidth, 0.0), OrElse(st.borderColor, "#ffffff"), OrNum(st.borderOpacity, 1.0),
      OrNum(st.borderRadius, 0.0), OrElse(st.backgroundColor, "transparent"), OrNum(st.backgroundOpacity, 0.0),
      OrNum(st.padding, 16.0))
  }

  /** With nothing configured a carousel fades, does not autoplay, shows navigation but not reactions. */
  lemma DefaultCarouselProps(bottomDefault: real)
    ensures MapCarouselOptions(NoOptions, bottomDefault) == CarouselProps(
      "fade", false, 8000.0, 800.0, true, false, true, 0.0, bottomDefault, 0.0, 0.0,
      "transparent", 0.0, 0.0, "#ffffff", 1.0, 0.0, "transparent", 0.0, 16.0)
  {
  }

  /**
    * A flag set to `false` is kept, since `??` only replaces a missing value;
    * a number set to `0` is replaced by the default, since `||` treats it as missing.
    */
  lemma FalsyOptions(o: CarouselOptions, bottomDefault: real)
    requires o.navShow == Some(false) && o.reservedSpace.bottom == Some(0.0) && o.styling.padding == Some(0.0)
    ensures !MapCarouselOptions(o, bottomDefault).showNavigation
    ensures MapCarouselOptions(o, bottomDefault).reserveBottom == bottomDefault
    ensures MapCarouselOptions(o, bottomDefault).containerPadding == 16.0
  {
  }
}
