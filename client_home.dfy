/**
 * The client landing page: the five-step tutorial, the news feed with its
 * thumbnail grid, and the full-screen image viewer.  The viewer's index
 * wraps around with `%`; the index is never negative there, and for a
 * non-negative dividend JavaScript's remainder agrees with Dafny's.
 */
module ClientHome {
  import opened Js
  import StableSort

  /** A news document; `createdAt` is turned into a time by `new Date(...)`. */
  datatype NewsItem = NewsItem(id: string, title: string, caption: string, createdAt: string, images: seq<string>)

  /** The tutorial has five steps. */
  const TutorialSteps := 5

  // ---------------------------------------------------------------------
  // Tutorial steps

  /** handleNext: advances unless already at the last step. */
  function StepNext(step: int): (s: int)
    ensures 0 <= step < TutorialSteps ==> 0 <= s < TutorialSteps
    ensures step == TutorialSteps - 1 ==> s == step
    ensures step < TutorialSteps - 1 ==> s == step + 1
  {
    if step < TutorialSteps - 1 then step + 1 else step
  }

  /** handlePrev: goes back unless already at the first step. */
  function StepPrev(step: int): (s: int)
    ensures 0 <= step < TutorialSteps ==> 0 <= s < TutorialSteps
    ensures step == 0 ==> s == 0
    ensures step > 0 ==> s == step - 1
  {
    if step > 0 then step - 1 else step
  }

  /** Prev undoes Next everywhere but at the last step, and Next undoes Prev everywhere but at the first. */
  lemma StepPrevNext(step: int)
    requires 0 <= step < TutorialSteps
    ensures step < TutorialSteps - 1 ==> StepPrev(StepNext(step)) == step
    ensures step > 0 ==> StepNext(StepPrev(step)) == step
  {
  }

  /** The progress bar's width in percent, `((currentStep + 1) / tutorialSteps.length) * 100`. */
  function ProgressWidth(step: int): (w: real)
    ensures 0 <= step < TutorialSteps ==> 0.0 < w <= 100.0
  {
    ((step + 1) as real / TutorialSteps as real) * 100.0
  }

  /** The bar grows with every step and is full exactly at the last one. */
  lemma ProgressGrows(a: int, b: int)
    requires 0 <= a < b < TutorialSteps
    ensures ProgressWidth(a) < ProgressWidth(b)
    ensures 0.0 < ProgressWidth(a) < 100.0
    ensures ProgressWidth(b) == 100.0 <==> b == TutorialSteps - 1
  {
  }

  // ---------------------------------------------------------------------
  // Full-screen viewer

  /** For 0 <= x < 2n, `x % n` subtracts n at most once. */
  lemma Wrap(x: nat, n: nat)
    requires n >= 1
    ensures x < 2 * n ==> x % n == if x < n then x else x - n
  {
  }

  /** navigateImage: `(i + 1) % n` forward and `(i - 1 + n) % n` back. */
  function Navigate(i: nat, n: nat, forward: bool): (j: nat)
    requires n >= 1
    ensures i < n ==> j < n
    ensures i < n && forward ==> j == if i == n - 1 then 0 else i + 1
    ensures i < n && !forward ==> j == if i == 0 then n - 1 else i - 1
  {
    var x := if forward then i + 1 else i - 1 + n;
    Wrap(x, n);
    x % n
  }

  /** Forward then back, or back then forward, returns to the same image. */
  lemma NavigateInverse(i: nat, n: nat)
    requires 0 <= i < n
    ensures Navigate(Navigate(i, n, true), n, false) == i
    ensures Navigate(Navigate(i, n, false), n, true) == i
  {
  }

  /** k presses of the forward button. */
  function Forward(i: nat, n: nat, k: nat): nat
    requires n >= 1
  {
    if k == 0 then i else Navigate(Forward(i, n, k - 1), n, true)
  }

  /** Up to n presses of the forward button advance by k places, wrapping once past the end. */
  lemma {:induction false} ForwardIsShift(i: nat, n: nat, k: nat)
    requires i < n && k <= n
    ensures Forward(i, n, k) == if i + k < n then i + k else i + k - n
  {
    if k > 0 {
      ForwardIsShift(i, n, k - 1);
    }
  }

  /** n presses of the forward button come back to the starting image. */
  lemma FullCircle(i: nat, n: nat)
    requires i < n
    ensures Forward(i, n, n) == i
  {
    ForwardIsShift(i, n, n);
  }

  // ---------------------------------------------------------------------
  // News cards

  /** The grid class: 1, 2 or 3 columns for 1, 2 or 3 images, otherwise 2. */
  function GridColumns(n: nat): (c: nat)
    ensures 1 <= c <= 3
    ensures 1 <= n <= 3 ==> c == n
    ensures !(1 <= n <= 3) ==> c == 2
  {
    if n == 1 then 1 else if n == 2 then 2 else if n == 3 then 3 else 2
  }

  /** The rendered tiles, `images.slice(0, 4)`. */
  function Thumbnails(images: seq<string>): (t: seq<string>)
    ensures |t| == if |images| < 4 then |images| else 4
    ensures t == images[..|t|]
  {
    SliceInRange(images, 0, if |images| < 4 then |images| else 4);
    Slice(images, 0, 4)
  }

  /** The "+k" overlay on tile `index`, if any. */
  function Overlay(images: seq<string>, index: int): (o: Option<int>)
    ensures o.Some? ==> index == 3 && |images| > 4
  {
    if |images| > 4 && index == 3 then Some(|images| - 4) else None
  }

  /** The overlay sits on the last rendered tile and counts exactly the images not rendered. */
  lemma OverlayCountsHidden(images: seq<string>)
    requires |images| > 4
    ensures |Thumbnails(images)| == 4
    ensures Overlay(images, |Thumbnails(images)| - 1) == Some(|images| - |Thumbnails(images)|)
    ensures forall k :: 0 <= k < 3 ==> Overlay(images, k).None?
  {
  }

  /** With four images or fewer every image is a tile and none carries an overlay. */
  lemma NoOverlayWhenAllShown(images: seq<string>, k: int)
    requires |images| <= 4
    ensures Thumbnails(images) == images
    ensures Overlay(images, k).None?
  {
  }

  /** The comparator `new Date(b.createdAt) - new Date(a.createdAt)` as a sort key. */
  function NewsKey(toTime: string -> int): NewsItem -> (int, int)
  {
    (n: NewsItem) => (-toTime(n.createdAt), 0)
  }

  /** The feed as shown: a sorted copy of `newsItems`. */
  function Feed(items: seq<NewsItem>, toTime: string -> int): seq<NewsItem>
  {
    StableSort.Sort(items, NewsKey(toTime))
  }

  /** The feed is a permutation of the items, newest first, ties in fetch order. */
  lemma FeedNewestFirst(items: seq<NewsItem>, toTime: string -> int)
    ensures multiset(Feed(items, toTime)) == multiset(items)
    ensures forall i, j :: 0 <= i < j < |Feed(items, toTime)| ==>
      toTime(Feed(items, toTime)[i].createdAt) >= toTime(Feed(items, toTime)[j].createdAt)
  {
    var key := NewsKey(toTime);
    var r := Feed(items, toTime);
    StableSort.SortSorted(items, key);
    forall i, j | 0 <= i < j < |r|
      ensures toTime(r[i].createdAt) >= toTime(r[j].createdAt)
    {
      assert StableSort.KeyLeq(key(r[i]), key(r[j]));
    }
  }

  /** The landing page's state. */
  class Home {
    var currentStep: int
    var isOpen: bool
    var newsItems: seq<NewsItem>
    var fullScreenImages: seq<string>
    var currentImageIndex: int
    var isFullScreen: bool

    /** The step is a tutorial step and the viewer index points into its images (0 when there are none). */
    predicate Valid()
      reads this
    {
      0 <= currentStep < TutorialSteps
      && 0 <= currentImageIndex
      && (fullScreenImages == [] ==> currentImageIndex == 0)
      && (fullScreenImages != [] ==> currentImageIndex < |fullScreenImages|)
    }

    constructor ()
      ensures Valid()
      ensures currentStep == 0 && !isOpen && newsItems == []
      ensures fullScreenImages == [] && currentImageIndex == 0 && !isFullScreen
    {
      currentStep := 0;
      isOpen := false;
      newsItems := [];
      fullScreenImages := [];
      currentImageIndex := 0;
      isFullScreen := false;
    }

    /** fetchNews: the fetched documents replace the list as they come. */
    method FetchNews(docs: seq<NewsItem>)
      modifies this`newsItems
      ensures newsItems == docs
    {
      newsItems := docs;
    }

    /** handleClose (the tutorialSeen flag in local storage is not modelled). */
    method HandleClose()
      modifies this`isOpen
      ensures !isOpen
    {
      isOpen := false;
    }

    method HandleNext()
      requires Valid()
      modifies this`currentStep
      ensures Valid()
      ensures currentStep == StepNext(old(currentStep))
    {
      if currentStep < TutorialSteps - 1 {
        currentStep := currentStep + 1;
      }
    }

    method HandlePrev()
      requires Valid()
      modifies this`currentStep
      ensures Valid()
      ensures currentStep == StepPrev(old(currentStep))
    {
      if currentStep > 0 {
        currentStep := currentStep - 1;
      }
    }

    /** openFullScreen, called from a tile, so with the index of an image of the list. */
    method OpenFullScreen(images: seq<string>, index: nat)
      requires Valid() && index < |images|
      modifies this`fullScreenImages, this`currentImageIndex, this`isFullScreen
      ensures Valid()
      ensures fullScreenImages == images && currentImageIndex == index && isFullScreen
    {
      fullScreenImages := images;
      currentImageIndex := index;
      isFullScreen := true;
    }

    /** closeFullScreen: the viewer is emptied and its index reset. */
    method CloseFullScreen()
      requires Valid()
      modifies this`fullScreenImages, this`currentImageIndex, this`isFullScreen
      ensures Valid()
      ensures fullScreenImages == [] && currentImageIndex == 0 && !isFullScreen
    {
      isFullScreen := false;
      fullScreenImages := [];
      currentImageIndex := 0;
    }

    /** navigateImage; the arrows are shown only when the viewer holds images. */
    method NavigateImage(forward: bool)
      requires Valid() && fullScreenImages != []
      modifies this`currentImageIndex
      ensures Valid()
      ensures currentImageIndex == Navigate(old(currentImageIndex), |fullScreenImages|, forward)
    {
      var n := |fullScreenImages|;
      if forward {
        currentImageIndex := (currentImageIndex + 1) % n;
      } else {
        currentImageIndex := (currentImageIndex - 1 + n) % n;
      }
    }
  }
}
