/**
  The testimonial carousel: a fixed list of testimonials, one shown at a
  time. The carousel object holds the index of the card on show and the
  direction of the last move, which picks the side a card slides in from.
  Next and previous move the index round the list; an indicator click jumps
  straight to a card and infers the direction from the relative position.
 */
module TestimonialCarousel {
  import opened Wrappers

  datatype Testimonial = Testimonial(
    id: int, quote: string, author: string, title: string, company: string, image: Option<string>)

  const Testimonials: seq<Testimonial> := [
    Testimonial(1,
      "Srinivas transformed our digital presence with data-driven strategies that delivered measurable results. His methodical approach to conversion optimization uncovered insights we had missed for years.",
      "Sarah Johnson", "E-commerce Director", "FashionRetail Inc.", Some("/images/testimonial-1.jpg")),
    Testimonial(2,
      "Working with Srinivas was a game-changer for our lead generation efforts. He didn't just improve our metrics - he transformed how we think about lead quality and sales alignment.",
      "Michael Chen", "VP of Marketing", "TechSolutions Corp", Some("/images/testimonial-2.jpg")),
    Testimonial(3,
      "Srinivas took our product launch from 'another SaaS tool' to a genuine market event. His strategic approach and attention to detail ensured we made maximum impact with our limited resources.",
      "Priya Patel", "Founder & CEO", "CloudWorks Inc.", Some("/images/testimonial-3.jpg"))
  ]

  /** Horizontal distance, in pixels, from which a card slides in or to which it slides out. */
  const SlideDistance: int := 1000

  /** The index after `next` on a list of n cards: one step forward, round the end. */
  function NextIndex(i: int, n: int): (r: int)
    requires 0 <= i < n
    ensures 0 <= r < n
    ensures r == (i + 1) % n
  {
    if i == n - 1 then 0 else i + 1
  }

  /** The index after `previous` on a list of n cards: one step back, round the start. */
  function PrevIndex(i: int, n: int): (r: int)
    requires 0 <= i < n
    ensures 0 <= r < n
    ensures r == (i + n - 1) % n
  {
    if i == 0 then n - 1 else i - 1
  }

  /** Previous undoes next, and next undoes previous. */
  lemma PrevNextInverse(i: int, n: int)
    requires 0 <= i < n
    ensures PrevIndex(NextIndex(i, n), n) == i
    ensures NextIndex(PrevIndex(i, n), n) == i
  {
  }

  /** The index reached by k presses of next (or k ticks of the timer) from index i. */
  function NextTimes(i: int, k: nat, n: int): (r: int)
    requires 0 <= i < n
    ensures 0 <= r < n
  {
    if k == 0 then i else NextIndex(NextTimes(i, k - 1, n), n)
  }

  /** Division with remainder is unique: a remainder in [0, n) is the remainder. */
  lemma ModUnique(a: int, n: int, q: int, r: int)
    requires 0 <= r < n
    requires a == q * n + r
    ensures a % n == r
  {
    var d := a / n - q;
    assert d * n == r - a % n;
  }

  lemma ModSucc(a: int, n: int)
    requires 0 < n
    ensures (a % n + 1) % n == (a + 1) % n
  {
    var q, m := a / n, a % n;
    assert a == q * n + m;
    if m + 1 < n {
      ModUnique(m + 1, n, 0, m + 1);
      ModUnique(a + 1, n, q, m + 1);
    } else {
      ModUnique(m + 1, n, 1, 0);
      assert a + 1 == (q + 1) * n + 0;
      ModUnique(a + 1, n, q + 1, 0);
    }
  }

  /** k presses of next move the index k places forward, modulo the list length. */
  lemma {:induction false} NextTimesIsAddition(i: int, k: nat, n: int)
    requires 0 <= i < n
    ensures NextTimes(i, k, n) == (i + k) % n
  {
    if k == 0 {
      ModUnique(i, n, 0, i);
    } else {
      NextTimesIsAddition(i, k - 1, n);
      ModSucc(i + k - 1, n);
    }
  }

  /** Pressing next once per card comes back to the card one started from. */
  lemma FullCycle(i: int, n: int)
    requires 0 <= i < n
    ensures NextTimes(i, n, n) == i
  {
    NextTimesIsAddition(i, n, n);
    ModUnique(i + n, n, 1, i);
  }

  /** Horizontal offset a card enters from: the right when moving forward, else the left. */
  function EnterOffset(direction: int): (x: int)
    ensures x == SlideDistance || x == -SlideDistance
    ensures x == SlideDistance <==> direction > 0
  {
    if direction > 0 then 1000 else -1000
  }

  /** Horizontal offset a card leaves to: the right when moving back, else the left. */
  function ExitOffset(direction: int): (x: int)
    ensures x == SlideDistance || x == -SlideDistance
    ensures x == SlideDistance <==> direction < 0
  {
    if direction < 0 then 1000 else -1000
  }

  /**
    After a move (direction 1 or -1) the new card enters on the side opposite
    to the one the old card leaves by; before any move (direction 0) both
    offsets are to the left.
   */
  lemma OffsetsOpposite(direction: int)
    ensures direction == 1 || direction == -1 ==> EnterOffset(direction) == -ExitOffset(direction)
    ensures direction == 0 ==> EnterOffset(direction) == ExitOffset(direction) == -SlideDistance
  {
  }

  class Carousel {
    const testimonials: seq<Testimonial>
    var currentIndex: int
    var direction: int

    /** The index always names a card, and the direction is a unit step or the initial 0. */
    ghost predicate Valid()
      reads this
    {
      && |testimonials| > 0
      && 0 <= currentIndex < |testimonials|
      && (direction == -1 || direction == 0 || direction == 1)
    }

    constructor ()
      ensures Valid()
      ensures testimonials == Testimonials
      ensures currentIndex == 0 && direction == 0
    {
      testimonials := Testimonials;
      currentIndex := 0;
      direction := 0;
    }

    /** The card on show; the index is always in bounds. */
    function Current(): (t: Testimonial)
      reads this
      requires Valid()
      ensures t in testimonials
    {
      testimonials[currentIndex]
    }

    /** Forward one card, wrapping from the last to the first. Also the timer's tick. */
    method Next()
      requires Valid()
      modifies this
      ensures Valid()
      ensures currentIndex == NextIndex(old(currentIndex), |testimonials|)
      ensures direction == 1
    {
      direction := 1;
      currentIndex := if currentIndex == |testimonials| - 1 then 0 else currentIndex + 1;
    }

    /** Back one card, wrapping from the first to the last. */
    method Previous()
      requires Valid()
      modifies this
      ensures Valid()
      ensures currentIndex == PrevIndex(old(currentIndex), |testimonials|)
      ensures direction == -1
    {
      direction := -1;
      currentIndex := if currentIndex == 0 then |testimonials| - 1 else currentIndex - 1;
    }

    /**
      An indicator click: show card `index`; the direction is forward exactly
      when the target lies after the current card (a click on the current card
      counts as backward).
     */
    method JumpTo(index: int)
      requires Valid()
      requires 0 <= index < |testimonials|
      modifies this
      ensures Valid()
      ensures currentIndex == index
      ensures direction == 1 <==> index > old(currentIndex)
      ensures direction == -1 <==> index <= old(currentIndex)
    {
      direction := if index > currentIndex then 1 else -1;
      currentIndex := index;
    }
  }

  /** A client: whatever state the carousel is in, next then previous restores the card on show. */
  method NextThenPrevious(c: Carousel)
    requires c.Valid()
    modifies c
    ensures c.Valid()
    ensures c.currentIndex == old(c.currentIndex) && c.direction == -1
  {
    c.Next();
    c.Previous();
    PrevNextInverse(old(c.currentIndex), |c.testimonials|);
  }
}
