/**
 * The testimonial carousel: wrap-around pagination with a direction flag,
 * jump-to-dot navigation, the slide offsets chosen from the direction, and
 * the excerpt shown on the desktop mini-cards.
 */
module Testimonials {

  /**
   * `paginate`'s index update: step by `dir`, going to the last item below
   * zero and to the first at or past the end. The result is a valid index
   * for every `dir`.
   */
  function NextIndex(prev: int, dir: int, len: nat): (r: nat)
    requires 0 <= prev < len
    ensures r < len
    ensures prev + dir < 0 ==> r == len - 1
    ensures prev + dir >= len ==> r == 0
  {
    var next := prev + dir;
    if next < 0 then len - 1
    else if next >= len then 0
    else next
  }

  /** For the steps the buttons and the timer make, the update is addition modulo the length. */
  lemma NextIndexIsModular(prev: int, dir: int, len: nat)
    requires 0 <= prev < len && (dir == 1 || dir == -1)
    ensures NextIndex(prev, dir, len) == (prev + dir + len) % len
  {
  }

  /** Forward then back, or back then forward, returns to the starting index. */
  lemma PaginateRoundTrip(i: nat, len: nat)
    requires i < len
    ensures NextIndex(NextIndex(i, 1, len), -1, len) == i
    ensures NextIndex(NextIndex(i, -1, len), 1, len) == i
  {
  }

  /** The index after `n` autoplay ticks, each a `paginate(1)`. */
  function Advance(i: nat, n: nat, len: nat): (r: nat)
    requires i < len
    ensures r < len
  {
    if n == 0 then i else NextIndex(Advance(i, n - 1, len), 1, len)
  }

  /** Up to one full cycle, `n` ticks add `n` and wrap around at most once. */
  lemma {:induction false} AdvanceWithinCycle(i: nat, n: nat, len: nat)
    requires i < len && n <= len
    ensures Advance(i, n, len) == if i + n < len then i + n else i + n - len
  {
    if n > 0 {
      AdvanceWithinCycle(i, n - 1, len);
    }
  }

  /** As many autoplay ticks as there are testimonials bring the carousel back where it started. */
  lemma AutoplayCycles(i: nat, len: nat)
    requires i < len
    ensures Advance(i, len, len) == i
  {
    AdvanceWithinCycle(i, len, len);
  }

  /** The direction a dot click records: forward only for a later dot; the current dot counts as backward. */
  function DotDirection(i: nat, active: nat): (d: int)
    ensures d == 1 || d == -1
    ensures d == 1 <==> i > active
  {
    if i > active then 1 else -1
  }

  /** The `x` offset of the incoming slide. */
  function EnterOffset(dir: int): (x: int) {
    if dir > 0 then 60 else -60
  }

  /** The `x` offset of the outgoing slide. */
  function ExitOffset(dir: int): (x: int) {
    if dir < 0 then 60 else -60
  }

  /**
   * The slides move to the correct side: the incoming one enters from the
   * right exactly when moving forward and the outgoing one leaves on the
   * opposite side; before any navigation (direction 0) both use the left.
   */
  lemma OffsetsMirror(dir: int)
    ensures EnterOffset(dir) == 60 <==> dir > 0
    ensures ExitOffset(dir) == 60 <==> dir < 0
    ensures EnterOffset(dir) in {60, -60} && ExitOffset(dir) in {60, -60}
    ensures dir != 0 ==> ExitOffset(dir) == -EnterOffset(dir)
    ensures dir == 0 ==> EnterOffset(dir) == ExitOffset(dir) == -60
  {
  }

  const ExcerptLimit := 140

  /**
   * A mini-card's quote: unchanged up to 140 characters, otherwise its first
   * 140 characters followed by "...".
   */
  function Excerpt(quote: string): (r: string)
    ensures |r| <= ExcerptLimit + 3
    ensures |quote| <= ExcerptLimit ==> r == quote
    ensures |quote| > ExcerptLimit ==> |r| == ExcerptLimit + 3 && r[ExcerptLimit..] == "..."
    ensures var n := if |r| < ExcerptLimit then |r| else ExcerptLimit; r[..n] == quote[..n]
  {
    if |quote| > ExcerptLimit then quote[..ExcerptLimit] + "..." else quote
  }

  /** The mini-card grid: the first three testimonials, each shortened to its excerpt. */
  function MiniCardQuotes(quotes: seq<string>): (r: seq<string>)
    ensures |r| == if |quotes| < 3 then |quotes| else 3
    ensures forall i | 0 <= i < |r| :: r[i] == Excerpt(quotes[i]) && |r[i]| <= ExcerptLimit + 3
  {
    var shown := if |quotes| < 3 then quotes else quotes[..3];
    seq(|shown|, i requires 0 <= i < |shown| => Excerpt(shown[i]))
  }

  /** The carousel's state: the shown testimonial and the last navigation's direction. */
  class Carousel {
    const quotes: seq<string>
    var activeIndex: nat
    var direction: int

    ghost predicate Valid()
      reads this
    {
      activeIndex < |quotes| && direction in {-1, 0, 1}
    }

    constructor (quotes: seq<string>)
      requires quotes != []
      ensures this.quotes == quotes && activeIndex == 0 && direction == 0 && Valid()
    {
      this.quotes := quotes;
      activeIndex := 0;
      direction := 0;
    }

    /** The quote on the large slide. */
    function CurrentQuote(): (q: string)
      reads this
      requires Valid()
      ensures q in quotes
    {
      quotes[activeIndex]
    }

    /** The previous and next buttons: `paginate(-1)` and `paginate(1)`. */
    method Paginate(dir: int)
      requires Valid() && (dir == 1 || dir == -1)
      modifies this
      ensures Valid()
      ensures direction == dir
      ensures activeIndex == NextIndex(old(activeIndex), dir, |quotes|)
    {
      direction := dir;
      var next := activeIndex + dir;
      if next < 0 {
        activeIndex := |quotes| - 1;
      } else if next >= |quotes| {
        activeIndex := 0;
      } else {
        activeIndex := next;
      }
    }

    /** The autoplay timer's step. */
    method Tick()
      requires Valid()
      modifies this
      ensures Valid() && direction == 1
      ensures activeIndex == Advance(old(activeIndex), 1, |quotes|)
    {
      Paginate(1);
    }

    /** A click on dot `i`. */
    method GoTo(i: nat)
      requires Valid() && i < |quotes|
      modifies this
      ensures Valid()
      ensures activeIndex == i
      ensures direction == DotDirection(i, old(activeIndex))
    {
      direction := if i > activeIndex then 1 else -1;
      activeIndex := i;
    }
  }
}
