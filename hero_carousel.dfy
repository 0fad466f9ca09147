/**
 * The slide index of the home page's hero carousel (components/home/HeroSection.tsx): it starts on
 * the first slide, the arrows move to the next or previous slide with wrap-around, and the dots
 * jump to a slide directly.
 */
module HeroCarousel {
  datatype Slide = Slide(image: string, title: string, subtitle: string, cta: string, link: string)

  const Slides: seq<Slide> := [
    Slide("https://images.pexels.com/photos/46798/the-ball-stadion-football-the-pitch-46798.jpeg",
      "Nouvelle Collection 2025", "Découvrez les nouveaux maillots officiels de la saison",
      "Acheter maintenant", "/products?collection=2025"),
    Slide("https://images.pexels.com/photos/274506/pexels-photo-274506.jpeg",
      "Promotions Spéciales", "Jusqu'à -40% sur une sélection de maillots",
      "Voir les offres", "/products?discount=true"),
    Slide("https://images.pexels.com/photos/47343/the-ball-stadion-football-the-pitch-47343.jpeg",
      "Équipes Nationales", "Supportez votre pays avec nos maillots officiels",
      "Découvrir", "/products?category=national")
  ]

  /** The updater of nextSlide: the last index wraps to 0, any other one moves up by one. */
  function NextIndex(prev: int, count: int): (r: int)
    ensures 0 <= prev < count ==> 0 <= r < count && r == (prev + 1) % count
  {
    if prev == count - 1 then 0 else prev + 1
  }

  /** The updater of prevSlide: 0 wraps to the last index, any other one moves down by one. */
  function PrevIndex(prev: int, count: int): (r: int)
    ensures 0 <= prev < count ==> 0 <= r < count && r == (prev - 1) % count
  {
    if prev == 0 then count - 1 else prev - 1
  }

  /** Going forward then back, or back then forward, returns to the same slide. */
  lemma NextPrevInverse(i: int, count: int)
    requires 0 <= i < count
    ensures PrevIndex(NextIndex(i, count), count) == i
    ensures NextIndex(PrevIndex(i, count), count) == i
  {
  }

  /** The index after `k` steps forward from `i`. */
  function NextTimes(i: int, k: nat, count: int): (r: int)
    ensures 0 <= i < count ==> 0 <= r < count
  {
    if k == 0 then i else NextIndex(NextTimes(i, k - 1, count), count)
  }

  /** `k` steps forward move the index by `k`, modulo the number of slides. */
  lemma {:induction false} NextTimesShifts(i: int, k: nat, count: int)
    requires 0 <= i < count
    ensures NextTimes(i, k, count) == (i + k) % count
  {
    if k > 0 {
      NextTimesShifts(i, k - 1, count);
      var before := (i + k - 1) % count;
      assert 0 <= before < count;
      ModSuccessor(i + k - 1, count);
    }
  }

  lemma ModSuccessor(n: int, count: int)
    requires count > 0
    ensures ((n % count) + 1) % count == (n + 1) % count
  {
    var q, m := n / count, n % count;
    if m + 1 < count {
      ModUnique(n + 1, count, q, m + 1);
      ModUnique(m + 1, count, 0, m + 1);
    } else {
      ModUnique(n + 1, count, q + 1, 0);
      ModUnique(m + 1, count, 1, 0);
    }
  }

  /** Euclidean division has one quotient and one remainder. */
  lemma ModUnique(a: int, count: int, q: int, r: int)
    requires count > 0 && 0 <= r < count && a == q * count + r
    ensures a % count == r
  {
    var d := q - a / count;
    assert d * count == a % count - r;
  }

  /** As many steps forward as there are slides come back to the starting slide. */
  lemma FullCycle(i: int)
    requires 0 <= i < |Slides|
    ensures NextTimes(i, |Slides|, |Slides|) == i
  {
    NextTimesShifts(i, |Slides|, |Slides|);
  }

  class Carousel {
    var currentSlide: int

    ghost predicate Valid()
      reads this
    {
      0 <= currentSlide < |Slides|
    }

    constructor ()
      ensures currentSlide == 0 && Valid()
    {
      currentSlide := 0;
    }

    method NextSlide()
      requires Valid()
      modifies this
      ensures Valid()
      ensures currentSlide == NextIndex(old(currentSlide), |Slides|)
    {
      currentSlide := if currentSlide == |Slides| - 1 then 0 else currentSlide + 1;
    }

    method PrevSlide()
      requires Valid()
      modifies this
      ensures Valid()
      ensures currentSlide == PrevIndex(old(currentSlide), |Slides|)
    {
      currentSlide := if currentSlide == 0 then |Slides| - 1 else currentSlide - 1;
    }

    /** A click on the dot of slide `index`; the dots are drawn one per slide. */
    method GoToSlide(index: int)
      requires 0 <= index < |Slides|
      modifies this
      ensures Valid()
      ensures currentSlide == index
    {
      currentSlide := index;
    }

    /** The autoplay interval firing `ticks` times in a row. */
    method Autoplay(ticks: nat)
      requires Valid()
      modifies this
      ensures Valid()
      ensures currentSlide == NextTimes(old(currentSlide), ticks, |Slides|)
      ensures currentSlide == (old(currentSlide) + ticks) % |Slides|
    {
      var fired := 0;
      while fired < ticks
        invariant 0 <= fired <= ticks
        invariant Valid()
        invariant currentSlide == NextTimes(old(currentSlide), fired, |Slides|)
      {
        NextSlide();
        fired := fired + 1;
      }
      NextTimesShifts(old(currentSlide), ticks, |Slides|);
    }
  }
}
