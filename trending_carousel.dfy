/** TrendingCarousel: a slide show over a fixed list of movies, advancing on a
    timer until the viewer takes over, then resuming. */
module TrendingCarousel {
  import opened Wrappers
  import opened MovieService

  /** goToNext and the timer tick: the last slide wraps to the first. */
  function Next(i: int, n: int): (j: int)
    ensures 0 <= i < n ==> 0 <= j < n && j == (i + 1) % n
  {
    if i == n - 1 then 0 else i + 1
  }

  /** goToPrevious: the first slide wraps to the last. */
  function Prev(i: int, n: int): (j: int)
    ensures 0 <= i < n ==> 0 <= j < n && j == (i - 1) % n
  {
    if i == 0 then n - 1 else i - 1
  }

  /** Next then previous, or previous then next, is back where it started. */
  lemma NextPrevInverse(i: int, n: int)
    requires 0 <= i < n
    ensures Prev(Next(i, n), n) == i && Next(Prev(i, n), n) == i
  {
  }

  /** The index after k timer ticks. */
  function Ticks(i: int, n: int, k: nat): int {
    if k == 0 then i else Next(Ticks(i, n, k - 1), n)
  }

  /** A positive multiple of n is at least n. */
  lemma {:induction false} MultipleAtLeast(d: int, n: int)
    requires d >= 1 && n >= 0
    ensures d * n >= n
  {
    if d > 1 {
      MultipleAtLeast(d - 1, n);
      assert d * n == (d - 1) * n + n;
    }
  }

  /** The remainder is the r of any x = q * n + r with 0 <= r < n. */
  lemma ModOfDecomposition(x: int, n: int, q: int, r: int)
    requires 0 <= r < n && x == q * n + r
    ensures x % n == r
  {
    var q', r' := x / n, x % n;
    assert x == q' * n + r';
    if q' < q {
      assert (q - q') * n == q * n - q' * n;
      MultipleAtLeast(q - q', n);
    } else if q' > q {
      assert (q' - q) * n == q' * n - q * n;
      MultipleAtLeast(q' - q, n);
    }
  }

  /** Counting on by one moves the remainder on by one, wrapping at n. */
  lemma ModSuccessor(x: int, n: int)
    requires n > 0
    ensures (x + 1) % n == if x % n == n - 1 then 0 else x % n + 1
  {
    var q, a := x / n, x % n;
    if a == n - 1 {
      ModOfDecomposition(x + 1, n, q + 1, 0);
    } else {
      ModOfDecomposition(x + 1, n, q, a + 1);
    }
  }

  /** k ticks move k slides on, cyclically. */
  lemma {:induction false} TicksCycle(i: int, n: int, k: nat)
    requires 0 <= i < n
    ensures Ticks(i, n, k) == (i + k) % n
  {
    if k > 0 {
      TicksCycle(i, n, k - 1);
      ModSuccessor(i + k - 1, n);
    }
  }

  /** After one tick per slide the same slide shows again. */
  lemma FullCycle(i: int, n: int)
    requires 0 <= i < n
    ensures Ticks(i, n, n) == i
  {
    TicksCycle(i, n, n);
    ModOfDecomposition(i + n, n, 1, i);
  }

  class Carousel {
    const movies: seq<Movie>
    var currentIndex: int
    var isAutoPlaying: bool

    /** The index names a slide whenever there are slides. */
    ghost predicate Valid()
      reads this
    {
      0 <= currentIndex && (|movies| > 0 ==> currentIndex < |movies|)
    }

    constructor (movies: seq<Movie>)
      ensures this.movies == movies && currentIndex == 0 && isAutoPlaying && Valid()
    {
      this.movies := movies;
      currentIndex := 0;
      isAutoPlaying := true;
    }

    /** The interval tick; the interval only runs while auto-playing over a
        non-empty list. */
    method Tick()
      requires Valid()
      modifies this
      ensures Valid() && isAutoPlaying == old(isAutoPlaying)
      ensures old(isAutoPlaying) && |movies| > 0 ==> currentIndex == Next(old(currentIndex), |movies|)
      ensures !old(isAutoPlaying) || |movies| == 0 ==> currentIndex == old(currentIndex)
    {
      if isAutoPlaying && |movies| > 0 {
        currentIndex := Next(currentIndex, |movies|);
      }
    }

    /** goToNext; the arrows are only drawn when there are slides. */
    method GoToNext()
      requires Valid() && |movies| > 0
      modifies this
      ensures Valid() && currentIndex == Next(old(currentIndex), |movies|) && !isAutoPlaying
    {
      currentIndex := Next(currentIndex, |movies|);
      isAutoPlaying := false;
    }

    method GoToPrevious()
      requires Valid() && |movies| > 0
      modifies this
      ensures Valid() && currentIndex == Prev(old(currentIndex), |movies|) && !isAutoPlaying
    {
      currentIndex := Prev(currentIndex, |movies|);
      isAutoPlaying := false;
    }

    /** goToSlide from one of the dots, one per slide. */
    method GoToSlide(index: int)
      requires Valid() && 0 <= index < |movies|
      modifies this
      ensures Valid() && currentIndex == index && !isAutoPlaying
    {
      currentIndex := index;
      isAutoPlaying := false;
    }

    /** The timeout set by a manual move turns auto-play back on. */
    method Resume()
      requires Valid()
      modifies this
      ensures Valid() && currentIndex == old(currentIndex) && isAutoPlaying
    {
      isAutoPlaying := true;
    }

    /** The slide shown; nothing is rendered for an empty list. */
    function CurrentMovie(): (m: Option<Movie>)
      reads this
      requires Valid()
      ensures m.None? <==> |movies| == 0
      ensures m.Some? ==> m.value in movies
      ensures |movies| > 0 ==> m == Some(movies[currentIndex])
    {
      if |movies| == 0 then None else Some(movies[currentIndex])
    }
  }
}
