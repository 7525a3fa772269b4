/**
  * The dynamic collection page: the gallery's images with a large URL are cut
  * into carousels of a configured size (or one carousel holding all of them),
  * laid out by a grid class chosen from the configured layout name.
  */
module DynamicLayout {
  import opened Wrappers
  import opened Gallery

  /** `imagesPerCarousel`: `'all'`, a number, or missing. */
  datatype PerCarousel = All | Count(n: int) | Unset

  datatype DynamicSettings = DynamicSettings(
    layout: Option<string>,
    imagesPerCarousel: PerCarousel,
    carouselDefaults: Option<CarouselOptions>)

  /** `config.dynamicSettings || { layout: 'single-column', imagesPerCarousel: 'all' }` */
  function SettingsOf(dynamicSettings: Option<DynamicSettings>): DynamicSettings {
    dynamicSettings.GetOr(DynamicSettings(Some("single-column"), All, None))
  }

  /** Only an image whose large URL is set is shown. */
  predicate Shown(item: MediaItem) {
    item.isImage && Truthy(item.urls.large)
  }

  /** `{ id, src: large, alt: altText || title || filename }` */
  function ImageOf(item: MediaItem): CarouselImage
    requires Shown(item)
  {
    CarouselImage(item.id, item.urls.large.value, OrElse(item.altText, OrElse(item.title, item.filename)))
  }

  /** `(gallery || []).filter(...).map(...)` */
  function ImagesOf(items: seq<MediaItem>): seq<CarouselImage> {
    if items == [] then []
    else
      var last := items[|items| - 1];
      ImagesOf(items[..|items| - 1]) + (if Shown(last) then [ImageOf(last)] else [])
  }

  /** Every shown item gives an image, and every image comes from a shown item. */
  lemma {:induction false} ImagesOfSpec(items: seq<MediaItem>)
    ensures forall item :: item in items && Shown(item) ==> ImageOf(item) in ImagesOf(items)
    ensures forall img :: img in ImagesOf(items) ==> exists item :: item in items && Shown(item) && img == ImageOf(item)
  {
    if items != [] {
      var front := items[..|items| - 1];
      ImagesOfSpec(front);
      assert items == front + [items[|items| - 1]];
      assert forall item :: item in front ==> item in items;
    }
  }

  /** A gallery with no shown item gives no images. */
  lemma {:induction false} NoShownNoImages(items: seq<MediaItem>)
    requires forall item :: item in items ==> !Shown(item)
    ensures ImagesOf(items) == []
  {
    if items != [] {
      NoShownNoImages(items[..|items| - 1]);
    }
  }

  /** `settings.imagesPerCarousel || 5`, for a count that is positive or zero. */
  function ChunkSize(n: int): nat {
    if n > 0 then n else 5
  }

  /** The carousels' image groups. */
  function Groups(images: seq<CarouselImage>, per: PerCarousel): seq<seq<CarouselImage>> {
    if per.All? then [images]
    else Chunks(images, ChunkSize(if per.Count? then per.n else 0))
  }

  /** `getLayoutClasses()`: an unknown or missing layout is a single column. */
  function LayoutClass(layout: Option<string>): string {
    if layout == Some("2-across") then "grid grid-cols-1 md:grid-cols-2 gap-8"
    else if layout == Some("3-across") then "grid grid-cols-1 md:grid-cols-2 lg:grid-cols-3 gap-6"
    else if layout == Some("masonry") then "grid grid-cols-1 md:grid-cols-2 gap-8"
    else "flex flex-col gap-12"
  }

  datatype Page =
    | NoImages
    | Carousels(layoutClass: string, groups: seq<seq<CarouselImage>>, props: CarouselProps)

  /** The page for a gallery; the bottom reservation defaults to 60. */
  function PageOf(gallery: Option<seq<MediaItem>>, dynamicSettings: Option<DynamicSettings>): Page {
    var settings := SettingsOf(dynamicSettings);
    var images := ImagesOf(gallery.GetOr([]));
    if images == [] then NoImages
    else Carousels(
      LayoutClass(settings.layout),
      Groups(images, settings.imagesPerCarousel),
      MapCarouselOptions(settings.carouselDefaults.GetOr(NoOptions), 60.0))
  }

  /**
    * A page shows carousels exactly when some image is shown; its groups put
    * back together are the images, none is empty, and with a positive count
    * each holds at most that many and all but the last exactly that many.
    */
  lemma PageSpec(gallery: Option<seq<MediaItem>>, dynamicSettings: Option<DynamicSettings>)
    ensures var images := ImagesOf(gallery.GetOr([]));
      PageOf(gallery, dynamicSettings).NoImages? <==> images == []
    ensures var page := PageOf(gallery, dynamicSettings);
      page.Carousels? ==>
        Flatten(page.groups) == ImagesOf(gallery.GetOr([])) &&
        forall i :: 0 <= i < |page.groups| ==> page.groups[i] != []
  {
    var settings := SettingsOf(dynamicSettings);
    var images := ImagesOf(gallery.GetOr([]));
    if images != [] {
      if settings.imagesPerCarousel.All? {
        assert Flatten([images]) == images + Flatten([images][1..]);
      } else {
        var n := ChunkSize(if settings.imagesPerCarousel.Count? then settings.imagesPerCarousel.n else 0);
        ChunksFlatten(images, n);
        ChunksSizes(images, n);
      }
    }
  }

  /** With `'all'` (or no settings) there is exactly one carousel, holding every image. */
  lemma AllInOneCarousel(gallery: Option<seq<MediaItem>>, dynamicSettings: Option<DynamicSettings>)
    requires dynamicSettings.None? || dynamicSettings.value.imagesPerCarousel.All?
    requires ImagesOf(gallery.GetOr([])) != []
    ensures PageOf(gallery, dynamicSettings).groups == [ImagesOf(gallery.GetOr([]))]
  {
  }

  /** With a positive count `n`, every carousel holds at most `n` images and all but the last exactly `n`. */
  lemma CountedCarousels(gallery: Option<seq<MediaItem>>, dynamicSettings: Option<DynamicSettings>, n: int)
    requires dynamicSettings.Some? && dynamicSettings.value.imagesPerCarousel == Count(n) && n > 0
    requires ImagesOf(gallery.GetOr([])) != []
    ensures var groups := PageOf(gallery, dynamicSettings).groups;
      (forall i :: 0 <= i < |groups| ==> |groups[i]| <= n) &&
      (forall i :: 0 <= i < |groups| - 1 ==> |groups[i]| == n)
  {
    ChunksSizes(ImagesOf(gallery.GetOr([])), n);
  }

  /** The component's render: `groupImages()` runs its loop. */
  method Render(gallery: Option<seq<MediaItem>>, dynamicSettings: Option<DynamicSettings>) returns (page: Page)
    ensures page == PageOf(gallery, dynamicSettings)
  {
    var settings := SettingsOf(dynamicSettings);
    var images := ImagesOf(gallery.GetOr([]));
    if images == [] {
      return NoImages;
    }
    var groups: seq<seq<CarouselImage>>;
    if settings.imagesPerCarousel.All? {
      groups := [images];
    } else {
      var perCarousel := ChunkSize(if settings.imagesPerCarousel.Count? then settings.imagesPerCarousel.n else 0);
      groups := GroupInto(images, perCarousel);
    }
    page := Carousels(LayoutClass(settings.layout), groups,
      MapCarouselOptions(settings.carouselDefaults.GetOr(NoOptions), 60.0));
  }

  // ---------------------------------------------------------------------------
  // As written: `imagesPerCarousel || 5` lets a negative count through, and the
  // loop `i += perCarousel` then moves away from `images.length`.

  /** `i` after `k` rounds of `i += perCarousel`. */
  function IndexAfterAsWritten(perCarousel: int, k: nat): int {
    if k == 0 then 0 else IndexAfterAsWritten(perCarousel, k - 1) + perCarousel
  }

  /** With a negative count and any image, the loop condition `i < images.length` holds after every round. */
  lemma {:induction false} NegativeCountNeverEnds(perCarousel: int, length: nat, k: nat)
    requires perCarousel < 0 && length > 0
    ensures IndexAfterAsWritten(perCarousel, k) < length
    ensures IndexAfterAsWritten(perCarousel, k) <= 0
  {
    if k > 0 {
      NegativeCountNeverEnds(perCarousel, length, k - 1);
    }
  }
}
