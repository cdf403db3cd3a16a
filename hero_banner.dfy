/**
 * The home page's hero carousel
 * (src/presentation/components/HeroBanner/HeroBanner.tsx): the current
 * slide index, moved by the previous/next arrows and set by the indicators.
 */
module HeroBanner {
  datatype Slide = Slide(
    id: int,
    title: string,
    subtitle: string,
    ctaText: string,
    ctaLink: string,
    propertyImage: string)

  /** The slides the banner is configured with: a single one. */
  const ConfiguredSlides: seq<Slide> := [
    Slide(1, "أكثر من ١٠٠+ إعلان الآن في", "عقارات 4Sale", "أستكشف الآن",
          "/directories/real-estate", "/images/hero-building.jpg")]

  /** `handleNextSlide`'s update: the last slide wraps round to the first. */
  function NextIndex(current: int, count: nat): (next: int)
    ensures 0 <= current < count ==> 0 <= next < count
  {
    if current == count - 1 then 0 else current + 1
  }

  /** `handlePrevSlide`'s update: the first slide wraps round to the last. */
  function PrevIndex(current: int, count: nat): (prev: int)
    ensures 0 <= current < count ==> 0 <= prev < count
  {
    if current == 0 then count - 1 else current - 1
  }

  /** On an in-range index, next and previous are a step forward and back modulo the slide count. */
  lemma StepsAreModular(current: int, count: nat)
    requires 0 <= current < count
    ensures NextIndex(current, count) == (current + 1) % count
    ensures PrevIndex(current, count) == (current - 1) % count
  {
    if current == count - 1 {
      assert (current + 1) % count == 0 by {
        assert current + 1 == count;
      }
    } else {
      assert (current + 1) % count == current + 1;
    }
    if current == 0 {
      assert (current - 1) % count == count - 1 by {
        assert current - 1 == -1 * count + (count - 1);
      }
    } else {
      assert (current - 1) % count == current - 1;
    }
  }

  /** Previous undoes next, and next undoes previous. */
  lemma PrevNextInverse(current: int, count: nat)
    requires 0 <= current < count
    ensures PrevIndex(NextIndex(current, count), count) == current
    ensures NextIndex(PrevIndex(current, count), count) == current
  {
  }

  /** With the single configured slide both arrows leave the index at 0. */
  lemma SingleSlideArrowsStay()
    ensures NextIndex(0, |ConfiguredSlides|) == 0 && PrevIndex(0, |ConfiguredSlides|) == 0
  {
  }

  /** Which slides (and indicators) carry the active class for a given index. */
  function ActiveMarks(current: int, count: nat): (marks: seq<bool>)
    ensures |marks| == count
    ensures forall i :: 0 <= i < count ==> (marks[i] <==> i == current)
  {
    seq(count, i => i == current)
  }

  /** From an in-range index exactly one slide is active, and it is the current one. */
  lemma ExactlyOneActive(current: int, count: nat)
    requires 0 <= current < count
    ensures var marks := ActiveMarks(current, count);
      marks[current] && forall i :: 0 <= i < count && marks[i] ==> i == current
  {
  }

  /** One mounted banner: its slides and the `currentSlide` state cell. */
  class Banner {
    const slides: seq<Slide>
    var currentSlide: int

    /** The index points at a slide. */
    predicate Valid()
      reads this
    {
      0 <= currentSlide < |slides|
    }

    constructor ()
      ensures slides == ConfiguredSlides && currentSlide == 0
      ensures Valid()
    {
      slides := ConfiguredSlides;
      currentSlide := 0;
    }

    method PrevSlide()
      modifies this
      ensures currentSlide == PrevIndex(old(currentSlide), |slides|)
      ensures old(Valid()) ==> Valid()
    {
      currentSlide := if currentSlide == 0 then |slides| - 1 else currentSlide - 1;
    }

    method NextSlide()
      modifies this
      ensures currentSlide == NextIndex(old(currentSlide), |slides|)
      ensures old(Valid()) ==> Valid()
    {
      currentSlide := if currentSlide == |slides| - 1 then 0 else currentSlide + 1;
    }

    /** Clicking indicator `index`, one of those rendered for the slides. */
    method SelectIndicator(index: nat)
      requires index < |slides|
      modifies this
      ensures currentSlide == index && Valid()
    {
      currentSlide := index;
    }

    /** The active marks of the rendered slides and indicators. */
    function Marks(): (marks: seq<bool>)
      reads this
      ensures |marks| == |slides|
    {
      ActiveMarks(currentSlide, |slides|)
    }
  }
}
