/**
  * The image gallery of a resort page: a circular index over the images with
  * previous, next and jump-to-slide, what the gallery shows for zero, one or
  * more images, and the state of its virtual-tour button.
  */
module ImageGallery {
  import opened ResortTypes

  /** The index after `goToNext` on `n` images: wraps from the last image to the first. */
  function NextIndex(i: int, n: int): (j: int)
    ensures 0 <= i < n ==> 0 <= j < n
    ensures i == n - 1 ==> j == 0
    ensures i != n - 1 ==> j == i + 1
  {
    if i == n - 1 then 0 else i + 1
  }

  /** The index after `goToPrevious` on `n` images: wraps from the first image to the last. */
  function PreviousIndex(i: int, n: int): (j: int)
    ensures 0 <= i < n ==> 0 <= j < n
    ensures i == 0 ==> j == n - 1
    ensures i != 0 ==> j == i - 1
  {
    if i == 0 then n - 1 else i - 1
  }

  /** Next and previous undo each other. */
  lemma NextPreviousInverse(i: int, n: int)
    requires 0 <= i < n
    ensures PreviousIndex(NextIndex(i, n), n) == i
    ensures NextIndex(PreviousIndex(i, n), n) == i
  {
  }

  /** The index after `k` presses of next. */
  function Advance(i: int, n: int, k: nat): int
  {
    if k == 0 then i else NextIndex(Advance(i, n, k - 1), n)
  }

  /** Up to `n` presses of next move `k` places forward, wrapping once past the end. */
  lemma {:induction false} AdvanceWraps(i: int, n: int, k: nat)
    requires 0 <= i < n && k <= n
    ensures Advance(i, n, k) == if i + k < n then i + k else i + k - n
  {
    if k > 0 {
      AdvanceWraps(i, n, k - 1);
    }
  }

  /** `n` presses of next return to the starting image. */
  lemma AdvanceFullCircle(i: int, n: int)
    requires 0 <= i < n
    ensures Advance(i, n, n) == i
  {
    AdvanceWraps(i, n, n);
  }

  /** What the gallery renders for `n` images. */
  datatype Layout = NoImagesAvailable | Slides(showArrows: bool, showDots: bool)

  function GalleryLayout(n: nat): (l: Layout)
    ensures l.NoImagesAvailable? <==> n == 0
    ensures l.Slides? ==> (l.showArrows <==> n > 1) && (l.showDots <==> n > 1)
  {
    if n == 0 then NoImagesAvailable else Slides(n > 1, n > 1)
  }

  /** The virtual-tour control. */
  datatype TourControl = TourLink(url: string) | ComingSoon | NoTour

  /** A live link for a URL that is set and not `'#'`, a disabled button for `'#'`, nothing otherwise. */
  function VirtualTour(url: Option<string>): (c: TourControl)
    ensures c.TourLink? <==> url.Some? && url.value != "" && url.value != "#"
    ensures c.TourLink? ==> c.url == url.value
    ensures c.ComingSoon? <==> url == Some("#")
    ensures c.NoTour? <==> url.None? || url == Some("")
  {
    match url
    case None => NoTour
    case Some(u) => if u == "" then NoTour else if u == "#" then ComingSoon else TourLink(u)
  }

  /** The gallery's state: its images and `currentIndex`. */
  class ResortImageGallery {
    const images: seq<string>
    var currentIndex: int

    /** The index is within the images (or 0 when there are none). */
    ghost predicate Valid()
      reads this
    {
      if |images| == 0 then currentIndex == 0 else 0 <= currentIndex < |images|
    }

    constructor (images: seq<string>)
      ensures this.images == images && currentIndex == 0 && Valid()
    {
      this.images := images;
      currentIndex := 0;
    }

    /** `goToPrevious`, which exists only when there is an image. */
    method GoToPrevious()
      requires Valid() && |images| > 0
      modifies this
      ensures Valid() && currentIndex == PreviousIndex(old(currentIndex), |images|)
    {
      var isFirstSlide := currentIndex == 0;
      currentIndex := if isFirstSlide then |images| - 1 else currentIndex - 1;
    }

    /** `goToNext`, which exists only when there is an image. */
    method GoToNext()
      requires Valid() && |images| > 0
      modifies this
      ensures Valid() && currentIndex == NextIndex(old(currentIndex), |images|)
    {
      var isLastSlide := currentIndex == |images| - 1;
      currentIndex := if isLastSlide then 0 else currentIndex + 1;
    }

    /** `goToSlide`, called by the dot of slide `slideIndex`, one dot per image. */
    method GoToSlide(slideIndex: int)
      requires Valid() && 0 <= slideIndex < |images|
      modifies this
      ensures Valid() && currentIndex == slideIndex
    {
      currentIndex := slideIndex;
    }
  }
}
