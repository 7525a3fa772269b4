/**
  * The lightboard's live preview: the gallery is cut into carousels of five,
  * the first three are previewed with the images that have some URL, and a
  * note tells how many carousels and images there are when some are not shown.
  */
module LivePreview {
  import opened Wrappers
  import opened Text
  import opened Gallery

  const ImagesPerCarousel: nat := 5
  const PreviewedCarousels: nat := 3

  /** `large || medium || small || original` */
  function PreviewUrl(u: Urls): Option<string> {
    if Truthy(u.large) then u.large
    else if Truthy(u.medium) then u.medium
    else if Truthy(u.small) then u.small
    else if Truthy(u.original) then u.original
    else None
  }

  /** The URL is the first one set, in the order large, medium, small, original. */
  lemma PreviewUrlSpec(u: Urls)
    ensures PreviewUrl(u).None? <==> !Truthy(u.large) && !Truthy(u.medium) && !Truthy(u.small) && !Truthy(u.original)
    ensures PreviewUrl(u).Some? ==>
      PreviewUrl(u).value != "" &&
      (PreviewUrl(u) == u.large || PreviewUrl(u) == u.medium || PreviewUrl(u) == u.small || PreviewUrl(u) == u.original)
    ensures Truthy(u.large) ==> PreviewUrl(u) == u.large
  {
  }

  /** An item with no URL at all is dropped from its carousel; videos are kept. */
  predicate HasUrl(item: MediaItem) {
    PreviewUrl(item.urls).Some?
  }

  /** `{ id, src: imageUrl, alt: altText || filename }` */
  function PreviewImage(item: MediaItem): CarouselImage
    requires HasUrl(item)
  {
    CarouselImage(item.id, PreviewUrl(item.urls).value, OrElse(item.altText, item.filename))
  }

  /** `validImages` of one chunk. */
  function ValidImages(items: seq<MediaItem>): seq<CarouselImage> {
    if items == [] then []
    else
      var last := items[|items| - 1];
      ValidImages(items[..|items| - 1]) + (if HasUrl(last) then [PreviewImage(last)] else [])
  }

  /** An image is kept exactly when it has some URL. */
  lemma {:induction false} ValidImagesSpec(items: seq<MediaItem>)
    ensures forall item :: item in items && HasUrl(item) ==> PreviewImage(item) in ValidImages(items)
    ensures forall img :: img in ValidImages(items) ==> exists item :: item in items && HasUrl(item) && img == PreviewImage(item)
    ensures |ValidImages(items)| <= |items|
  {
    if items != [] {
      var front := items[..|items| - 1];
      ValidImagesSpec(front);
      assert items == front + [items[|items| - 1]];
      assert forall item :: item in front ==> item in items;
    }
  }

  /** One previewed carousel: its chunk's position, its projection id and its images. */
  datatype PreviewCarousel = PreviewCarousel(index: nat, carouselId: string, images: seq<CarouselImage>)

  function CarouselId(index: nat): string {
    "preview-carousel-" + NatToString(index)
  }

  /** The chunks from position `start` on; one without valid images renders nothing. */
  function ShownCarousels(chunks: seq<seq<MediaItem>>, start: nat): seq<PreviewCarousel>
    decreases |chunks|
  {
    if chunks == [] then []
    else
      var images := ValidImages(chunks[0]);
      (if images == [] then [] else [PreviewCarousel(start, CarouselId(start), images)])
        + ShownCarousels(chunks[1..], start + 1)
  }

  /** Every carousel of `r` is a chunk of `chunks` with a valid image, under its own position from `start`. */
  predicate ShownFrom(r: seq<PreviewCarousel>, chunks: seq<seq<MediaItem>>, start: nat) {
    forall c :: c in r ==>
      start <= c.index < start + |chunks| && c.images == ValidImages(chunks[c.index - start]) &&
      c.images != [] && c.carouselId == CarouselId(c.index)
  }

  /** Every shown carousel is a chunk with a valid image, under its own position. */
  lemma {:induction false} ShownCarouselsSound(chunks: seq<seq<MediaItem>>, start: nat)
    ensures |ShownCarousels(chunks, start)| <= |chunks|
    ensures ShownFrom(ShownCarousels(chunks, start), chunks, start)
    decreases |chunks|
  {
    if chunks != [] {
      var rest := chunks[1..];
      ShownCarouselsSound(rest, start + 1);
      var images := ValidImages(chunks[0]);
      var head: seq<PreviewCarousel> := if images == [] then [] else [PreviewCarousel(start, CarouselId(start), images)];
      var tail := ShownCarousels(rest, start + 1);
      assert ShownCarousels(chunks, start) == head + tail;
      ShownFromShift(tail, chunks, start);
      ShownFromHead(images, chunks, start);
      ShownFromAppend(head, tail, chunks, start);
    }
  }

  lemma ShownFromHead(images: seq<CarouselImage>, chunks: seq<seq<MediaItem>>, start: nat)
    requires chunks != [] && images == ValidImages(chunks[0])
    ensures ShownFrom(if images == [] then [] else [PreviewCarousel(start, CarouselId(start), images)], chunks, start)
  {
  }

  lemma ShownFromShift(r: seq<PreviewCarousel>, chunks: seq<seq<MediaItem>>, start: nat)
    requires chunks != [] && ShownFrom(r, chunks[1..], start + 1)
    ensures ShownFrom(r, chunks, start)
  {
    forall c | c in r
      ensures chunks[c.index - start] == chunks[1..][c.index - (start + 1)]
    {
    }
  }

  lemma ShownFromAppend(a: seq<PreviewCarousel>, b: seq<PreviewCarousel>, chunks: seq<seq<MediaItem>>, start: nat)
    requires ShownFrom(a, chunks, start) && ShownFrom(b, chunks, start)
    ensures ShownFrom(a + b, chunks, start)
  {
  }

  lemma {:induction false} ShownCarouselsFrom(chunks: seq<seq<MediaItem>>, start: nat)
    ensures forall c :: c in ShownCarousels(chunks, start) ==> start <= c.index
    decreases |chunks|
  {
    if chunks != [] {
      ShownCarouselsFrom(chunks[1..], start + 1);
    }
  }

  predicate Increasing(r: seq<PreviewCarousel>) {
    forall i, j :: 0 <= i < j < |r| ==> r[i].index < r[j].index
  }

  /** The shown carousels keep the chunks' order. */
  lemma {:induction false} ShownCarouselsOrdered(chunks: seq<seq<MediaItem>>, start: nat)
    ensures Increasing(ShownCarousels(chunks, start))
    decreases |chunks|
  {
    if chunks != [] {
      var rest := chunks[1..];
      ShownCarouselsOrdered(rest, start + 1);
      ShownCarouselsFrom(rest, start + 1);
      var images := ValidImages(chunks[0]);
      var tail := ShownCarousels(rest, start + 1);
      assert Increasing(tail);
      if images != [] {
        var r := [PreviewCarousel(start, CarouselId(start), images)] + tail;
        assert r == ShownCarousels(chunks, start);
        forall i, j | 0 <= i < j < |r|
          ensures r[i].index < r[j].index
        {
          assert r[j] == tail[j - 1];
          assert tail[j - 1] in tail;
          if i > 0 {
            assert r[i] == tail[i - 1];
            assert tail[i - 1].index < tail[j - 1].index;
          }
        }
        assert Increasing(r);
      } else {
        assert tail == ShownCarousels(chunks, start);
      }
    }
  }

  /** Every chunk with a valid image is shown. */
  lemma {:induction false} ShownCarouselsComplete(chunks: seq<seq<MediaItem>>, start: nat)
    ensures forall i :: 0 <= i < |chunks| && ValidImages(chunks[i]) != [] ==>
      exists c :: c in ShownCarousels(chunks, start) && c.index == start + i
    decreases |chunks|
  {
    if chunks != [] {
      var rest := chunks[1..];
      ShownCarouselsComplete(rest, start + 1);
      var images := ValidImages(chunks[0]);
      var head: seq<PreviewCarousel> := if images == [] then [] else [PreviewCarousel(start, CarouselId(start), images)];
      var tail := ShownCarousels(rest, start + 1);
      var r := head + tail;
      forall i | 0 <= i < |chunks| && ValidImages(chunks[i]) != []
        ensures exists c :: c in r && c.index == start + i
      {
        if i == 0 {
          assert head[0] in r;
        } else {
          assert rest[i - 1] == chunks[i];
          var c :| c in tail && c.index == start + 1 + (i - 1);
          assert c in r;
        }
      }
    }
  }

  /** The "Showing 3 of …" note: the number of carousels and of items. */
  datatype Note = Note(carouselCount: nat, total: nat)

  datatype Preview =
    | Placeholder
    | Previews(carousels: seq<PreviewCarousel>, note: Option<Note>)

  /** The preview of a collection's gallery; `None` is a missing collection or gallery. */
  function PreviewOf(gallery: Option<seq<MediaItem>>): Preview {
    if gallery.None? || gallery.value == [] then Placeholder
    else
      var items := gallery.value;
      var chunks := Chunks(items, ImagesPerCarousel);
      Previews(
        ShownCarousels(chunks[..Min(PreviewedCarousels, |chunks|)], 0),
        if |items| > ImagesPerCarousel * PreviewedCarousels then Some(Note(|chunks|, |items|)) else None)
  }

  /** No collection or an empty gallery gives the placeholder, and nothing else does. */
  lemma PlaceholderIffEmpty(gallery: Option<seq<MediaItem>>)
    ensures PreviewOf(gallery).Placeholder? <==> gallery.None? || gallery.value == []
  {
  }

  /** The chunks the preview looks at: the first three, each the items `5k` to `5k + 4`. */
  lemma PreviewedChunks(items: seq<MediaItem>)
    requires items != []
    ensures var chunks := Chunks(items, 5);
      forall k :: 0 <= k < Min(3, |chunks|) ==>
        5 * k < |items| && chunks[k] == items[5 * k..Min(5 * k + 5, |items|)]
    ensures forall k :: 0 <= k < 3 && 5 * k < |items| ==> k < |Chunks(items, 5)|
  {
    ChunksCount(items, 5);
    forall k | 0 <= k < Min(3, |Chunks(items, 5)|)
      ensures 5 * k < |items| && Chunks(items, 5)[k] == items[5 * k..Min(5 * k + 5, |items|)]
    {
      ChunkAt(items, 5, k);
    }
  }

  /**
    * At most three carousels are shown, and carousel `k` holds the valid
    * images of items `5k` to `5k + 4`, so only the first fifteen items are
    * ever previewed.
    */
  lemma PreviewShowsFirstChunks(gallery: Option<seq<MediaItem>>)
    requires PreviewOf(gallery).Previews?
    ensures var items := gallery.value;
      var p := PreviewOf(gallery);
      |p.carousels| <= 3 &&
      forall c :: c in p.carousels ==>
        c.index < 3 && 5 * c.index < |items| &&
        c.images == ValidImages(items[5 * c.index..Min(5 * c.index + 5, |items|)]) &&
        c.images != [] && c.carouselId == CarouselId(c.index)
  {
    var items := gallery.value;
    var chunks := Chunks(items, 5);
    PreviewedChunks(items);
    ShownCarouselsSound(chunks[..Min(3, |chunks|)], 0);
  }

  /** Each of the first three chunks that has a valid image is shown. */
  lemma PreviewShowsEveryValidChunk(gallery: Option<seq<MediaItem>>, k: nat)
    requires PreviewOf(gallery).Previews?
    requires k < 3 && 5 * k < |gallery.value|
    requires ValidImages(gallery.value[5 * k..Min(5 * k + 5, |gallery.value|)]) != []
    ensures exists c :: c in PreviewOf(gallery).carousels && c.index == k
  {
    var items := gallery.value;
    var chunks := Chunks(items, 5);
    PreviewedChunks(items);
    ShownCarouselsComplete(chunks[..Min(3, |chunks|)], 0);
  }

  /** The note appears exactly when there are more than fifteen items, and counts `ceil(n / 5)` carousels. */
  lemma PreviewNote(gallery: Option<seq<MediaItem>>)
    requires PreviewOf(gallery).Previews?
    ensures var p := PreviewOf(gallery);
      (p.note.Some? <==> |gallery.value| > 15) &&
      (p.note.Some? ==> p.note.value == Note((|gallery.value| + 4) / 5, |gallery.value|))
  {
    ChunksCount(gallery.value, 5);
  }

  /** The component's render: the chunking loop, then the first three chunks. */
  method Render(gallery: Option<seq<MediaItem>>) returns (p: Preview)
    ensures p == PreviewOf(gallery)
  {
    if gallery.None? || gallery.value == [] {
      return Placeholder;
    }
    var carousels := GroupInto(gallery.value, ImagesPerCarousel);
    var previewCarousels := carousels[..Min(PreviewedCarousels, |carousels|)];
    var note := if |gallery.value| > ImagesPerCarousel * PreviewedCarousels
      then Some(Note(|carousels|, |gallery.value|)) else None;
    p := Previews(ShownCarousels(previewCarousels, 0), note);
  }

  /** The settings effect: the render key moves on and the callback, if any, is called once. */
  class PreviewState {
    var renderKey: nat
    var settingsApplied: nat

    constructor ()
      ensures renderKey == 0 && settingsApplied == 0
    {
      renderKey := 0;
      settingsApplied := 0;
    }

    method SettingsChanged(hasCallback: bool)
      modifies this
      ensures renderKey == old(renderKey) + 1
      ensures settingsApplied == old(settingsApplied) + (if hasCallback then 1 else 0)
    {
      renderKey := renderKey + 1;
      if hasCallback {
        settingsApplied := settingsApplied + 1;
      }
    }
  }
}
