/**
 * A listing card: a photo carousel that wraps around at both ends, over the
 * listing's gallery or its cover image, and a heart that only a signed-in user
 * can toggle.
 */
module PostCard {
  import opened Wrappers
  import opened Listings
  import opened Navigation

  /** The photos the carousel cycles through: the gallery when it has any, else the cover image. */
  function Gallery(post: Listing): (r: seq<string>)
    ensures |r| >= 1
    ensures post.images.Some? && post.images.value != [] ==> r == post.images.value
    ensures post.images.None? || post.images.value == [] ==> r == [post.image]
  {
    if post.images.Some? && |post.images.value| > 0 then post.images.value else [post.image]
  }

  /** The right arrow: from the last photo back to the first, otherwise one further. */
  function NextIndex(i: int, n: nat): (r: int)
    ensures 0 <= i < n ==> 0 <= r < n
  {
    if i == n - 1 then 0 else i + 1
  }

  /** The left arrow: from the first photo round to the last, otherwise one back. */
  function PrevIndex(i: int, n: nat): (r: int)
    ensures 0 <= i < n ==> 0 <= r < n
  {
    if i == 0 then n - 1 else i - 1
  }

  /** Both arrows keep the index on a photo, and each undoes the other. */
  lemma ArrowsSpec(i: int, n: nat)
    requires 0 <= i < n
    ensures 0 <= NextIndex(i, n) < n && 0 <= PrevIndex(i, n) < n
    ensures NextIndex(i, n) == (i + 1) % n && PrevIndex(i, n) == (i + n - 1) % n
    ensures PrevIndex(NextIndex(i, n), n) == i && NextIndex(PrevIndex(i, n), n) == i
  {
  }

  /** `k` presses of the right arrow. */
  function NextTimes(i: int, n: nat, k: nat): int
    decreases k
  {
    if k == 0 then i else NextTimes(NextIndex(i, n), n, k - 1)
  }

  /** Pressing `a` times and then `b` times is pressing `a + b` times. */
  lemma {:induction false} NextTimesAdd(i: int, n: nat, a: nat, b: nat)
    ensures NextTimes(i, n, a + b) == NextTimes(NextTimes(i, n, a), n, b)
    decreases a
  {
    if a > 0 {
      NextTimesAdd(NextIndex(i, n), n, a - 1, b);
    }
  }

  /** Short of the last photo, `k` presses move exactly `k` photos on. */
  lemma {:induction false} NextTimesForward(i: int, n: nat, k: nat)
    requires 0 <= i && i + k < n
    ensures NextTimes(i, n, k) == i + k
    decreases k
  {
    if k > 0 {
      NextTimesForward(i + 1, n, k - 1);
    }
  }

  /** As many right-arrow presses as there are photos come back to the photo shown. */
  lemma FullCycle(i: int, n: nat)
    requires 0 <= i < n
    ensures NextTimes(i, n, n) == i
  {
    NextTimesAdd(i, n, n - 1 - i, i + 1);
    NextTimesForward(i, n, n - 1 - i);
    assert NextTimes(n - 1, n, i + 1) == NextTimes(0, n, i);
    NextTimesForward(0, n, i);
  }

  /** Any number of presses keeps the index on a photo. */
  lemma {:induction false} NextTimesInRange(i: int, n: nat, k: nat)
    requires 0 <= i < n
    ensures 0 <= NextTimes(i, n, k) < n
    decreases k
  {
    if k > 0 {
      NextTimesInRange(NextIndex(i, n), n, k - 1);
    }
  }

  /** The card's state. */
  class PostCardView {
    const post: Listing
    const images: seq<string>
    var currentImageIndex: int
    var isLiked: bool

    /** The index always names one of the photos. */
    predicate Valid()
      reads this
    {
      images == Gallery(post) && 0 <= currentImageIndex < |images|
    }

    /** The first photo, not liked. */
    constructor(p: Listing)
      ensures Valid()
      ensures post == p && currentImageIndex == 0 && !isLiked
    {
      post := p;
      images := Gallery(p);
      currentImageIndex := 0;
      isLiked := false;
    }

    method NextImage()
      requires Valid()
      modifies this
      ensures Valid()
      ensures currentImageIndex == NextIndex(old(currentImageIndex), |images|)
      ensures currentImageIndex == (old(currentImageIndex) + 1) % |images|
      ensures isLiked == old(isLiked)
    {
      ArrowsSpec(currentImageIndex, |images|);
      currentImageIndex := NextIndex(currentImageIndex, |images|);
    }

    method PrevImage()
      requires Valid()
      modifies this
      ensures Valid()
      ensures currentImageIndex == PrevIndex(old(currentImageIndex), |images|)
      ensures currentImageIndex == (old(currentImageIndex) + |images| - 1) % |images|
      ensures isLiked == old(isLiked)
    {
      ArrowsSpec(currentImageIndex, |images|);
      currentImageIndex := PrevIndex(currentImageIndex, |images|);
    }

    /** The photo on display. */
    function Shown(): string
      requires Valid()
      reads this
    {
      images[currentImageIndex]
    }

    /**
     * The heart. `storedUser` is the `user` entry of local storage; an absent or
     * empty entry sends the visitor to the login page and leaves the heart alone,
     * anything else flips it.
     */
    method HandleLike(storedUser: Option<string>) returns (dest: Destination)
      modifies this
      ensures storedUser.None? || storedUser.value == "" ==> dest == LoginRoute && isLiked == old(isLiked)
      ensures storedUser.Some? && storedUser.value != "" ==> dest == Stay && isLiked == !old(isLiked)
      ensures currentImageIndex == old(currentImageIndex)
    {
      if storedUser.None? || storedUser.value == "" {
        dest := LoginRoute;
        return;
      }
      isLiked := !isLiked;
      dest := Stay;
    }
  }
}
