/** The scroll-linked maths of `netflixScrollEffects`, `updateScrollProgress`
    and `updateNavbar`: each section's scale, opacity, stacking order and glow
    from its bounding box and the viewport height; the hero's own scale,
    opacity and blur from the scroll offset; the progress percentage; and the
    navbar's two looks. All of it is recomputed from scratch on every tick, so
    it is stated as pure functions of one scroll sample. */
module ScrollEffects {
  import opened Basics

  /** What the per-section rule does to `box-shadow`: the near-centre branch of
      a section that is not the hero leaves it as it was. */
  datatype Shadow = KeepShadow | NoShadow | RedGlow(alpha: real)

  /** What happens to `filter`: only the hero's own rule writes a blur. */
  datatype Filter = KeepFilter | Blur(px: real)

  /** The computed visual state of one section (transform scale, opacity,
      z-index, box-shadow, filter), instead of the CSS strings it is written as. */
  datatype Look = Look(scale: real, opacity: real, zIndex: int, shadow: Shadow, filter: Filter)

  /** A section's bounding rectangle relative to the viewport, and whether it
      carries the class `hero`. */
  datatype SectionBox = SectionBox(top: real, height: real, isHero: bool)

  /** The three branches of the per-section rule. */
  datatype Band = NearCentre | Far | OutOfView

  /** Distance between the section's centre and the viewport's centre. */
  function Distance(b: SectionBox, windowHeight: real): (d: real)
    ensures d >= 0.0
  {
    Abs((b.top + b.height / 2.0) - windowHeight / 2.0)
  }

  predicate InView(b: SectionBox, windowHeight: real)
  {
    b.top < windowHeight && b.top + b.height > 0.0
  }

  function BandOf(b: SectionBox, windowHeight: real): Band
  {
    if InView(b, windowHeight) then
      if Distance(b, windowHeight) < windowHeight * 0.4 then NearCentre else Far
    else OutOfView
  }

  /** How near the centre a near-centre section is: 1 at the centre, falling
      towards 0 at the band's edge. */
  function Closeness(b: SectionBox, windowHeight: real): real
    requires windowHeight > 0.0
  {
    1.0 - Distance(b, windowHeight) / (windowHeight * 0.4)
  }

  /** The per-section rule of the `sections.forEach` loop. */
  function SectionLook(b: SectionBox, windowHeight: real): Look
    requires windowHeight > 0.0
  {
    match BandOf(b, windowHeight)
    case NearCentre =>
      var k := Closeness(b, windowHeight);
      Look(1.0 + k * 0.05, 1.0, 10, if b.isHero then RedGlow(0.3 * k) else KeepShadow, KeepFilter)
    case Far =>
      var r := Distance(b, windowHeight) / windowHeight;
      Look(Max(0.85, 1.0 - r * 0.3), Max(0.6, 1.0 - r * 0.6), 1, NoShadow, KeepFilter)
    case OutOfView =>
      Look(0.8, 0.4, 1, NoShadow, KeepFilter)
  }

  lemma QuotientBelowOne(a: real, b: real)
    requires 0.0 <= a < b
    ensures 0.0 <= a / b < 1.0
  {
  }

  lemma QuotientMonotone(a: real, b: real, c: real)
    requires c > 0.0 && a <= b
    ensures a / c <= b / c
    ensures a < b ==> a / c < b / c
  {
    assert (b / c - a / c) * c == b - a;
  }

  lemma QuotientOfSelf(d: real)
    requires d != 0.0
    ensures d / d == 1.0
  {
  }

  lemma QuotientAtLeast(a: real, b: real, c: real)
    requires b > 0.0 && a >= c * b
    ensures a / b >= c
  {
  }

  /** Near-centre branch: the section is zoomed in, scale in (1, 1.05], fully
      opaque, raised to z-index 10; the hero glows in proportion to how close
      it is (alpha in (0, 0.3]), any other section's shadow is left alone. */
  lemma NearCentreLook(b: SectionBox, windowHeight: real)
    requires windowHeight > 0.0 && BandOf(b, windowHeight) == NearCentre
    ensures var l := SectionLook(b, windowHeight);
      && 1.0 < l.scale <= 1.05 && l.opacity == 1.0 && l.zIndex == 10 && l.filter == KeepFilter
      && (b.isHero ==> l.shadow.RedGlow? && 0.0 < l.shadow.alpha <= 0.3 && l.shadow.alpha == 6.0 * (l.scale - 1.0))
      && (!b.isHero ==> l.shadow == KeepShadow)
  {
    QuotientBelowOne(Distance(b, windowHeight), windowHeight * 0.4);
  }

  /** In view but outside the band: zoomed out to scale in [0.85, 0.88] and
      faded to opacity in [0.6, 0.76], z-index 1, no glow. The upper ends hold
      because the distance is at least 0.4 of the viewport height. */
  lemma FarLook(b: SectionBox, windowHeight: real)
    requires windowHeight > 0.0 && BandOf(b, windowHeight) == Far
    ensures var l := SectionLook(b, windowHeight);
      && 0.85 <= l.scale <= 0.88 && 0.6 <= l.opacity <= 0.76
      && l.zIndex == 1 && l.shadow == NoShadow && l.filter == KeepFilter
  {
    QuotientAtLeast(Distance(b, windowHeight), windowHeight, 0.4);
  }

  /** Out of view: the fixed fallback 0.8 / 0.4 / z-index 1, no glow. */
  lemma OutOfViewLook(b: SectionBox, windowHeight: real)
    requires windowHeight > 0.0 && !InView(b, windowHeight)
    ensures BandOf(b, windowHeight) == OutOfView
    ensures SectionLook(b, windowHeight) == Look(0.8, 0.4, 1, NoShadow, KeepFilter)
  {
  }

  /** Every section's look stays within scale [0.8, 1.05] and opacity [0.4, 1]. */
  lemma SectionLookBounds(b: SectionBox, windowHeight: real)
    requires windowHeight > 0.0
    ensures 0.8 <= SectionLook(b, windowHeight).scale <= 1.05
    ensures 0.4 <= SectionLook(b, windowHeight).opacity <= 1.0
  {
    match BandOf(b, windowHeight)
    case NearCentre => NearCentreLook(b, windowHeight);
    case Far => FarLook(b, windowHeight);
    case OutOfView =>
  }

  /** The scale is not continuous at the band's edge: any near-centre section
      is more than 0.12 larger than any far one, however close both are to the
      edge. */
  lemma ScaleJumpsAtBandEdge(near: SectionBox, far: SectionBox, windowHeight: real)
    requires windowHeight > 0.0
    requires BandOf(near, windowHeight) == NearCentre && BandOf(far, windowHeight) == Far
    ensures SectionLook(near, windowHeight).scale - SectionLook(far, windowHeight).scale > 0.12
  {
    NearCentreLook(near, windowHeight);
    FarLook(far, windowHeight);
  }

  /** The edge itself belongs to the far branch: a section in view whose centre
      is exactly 0.4 of the viewport height away gets scale 0.88 and opacity
      0.76, not the near branch's limit of 1. */
  lemma BandEdgeIsFar(b: SectionBox, windowHeight: real)
    requires windowHeight > 0.0 && InView(b, windowHeight)
    requires Distance(b, windowHeight) == windowHeight * 0.4
    ensures BandOf(b, windowHeight) == Far
    ensures SectionLook(b, windowHeight).scale == 0.88 && SectionLook(b, windowHeight).opacity == 0.76
  {
    assert Distance(b, windowHeight) / windowHeight == 0.4;
  }

  /** Inside the band, a section closer to the centre is scaled at least as much. */
  lemma NearScaleGrowsTowardsCentre(a: SectionBox, b: SectionBox, windowHeight: real)
    requires windowHeight > 0.0
    requires BandOf(a, windowHeight) == NearCentre && BandOf(b, windowHeight) == NearCentre
    requires Distance(a, windowHeight) <= Distance(b, windowHeight)
    ensures SectionLook(a, windowHeight).scale >= SectionLook(b, windowHeight).scale
  {
    QuotientMonotone(Distance(a, windowHeight), Distance(b, windowHeight), windowHeight * 0.4);
  }

  /** The hero's own parallax rule, applied after the per-section loop. */
  function HeroScale(scrolled: real): real
  {
    Max(0.7, 1.0 - scrolled * 0.0006)
  }

  function HeroOpacity(scrolled: real): real
  {
    Max(0.4, 1.0 - scrolled * 0.0008)
  }

  function HeroBlur(scrolled: real): real
  {
    if scrolled == 0.0 then 0.0 else Min(5.0, scrolled * 0.01)
  }

  /** For a scroll offset of at least 0 the hero's values stay in range, and
      there is no blur at the top of the page. */
  lemma HeroRanges(scrolled: real)
    requires scrolled >= 0.0
    ensures 0.7 <= HeroScale(scrolled) <= 1.0
    ensures 0.4 <= HeroOpacity(scrolled) <= 1.0
    ensures 0.0 <= HeroBlur(scrolled) <= 5.0
    ensures HeroBlur(0.0) == 0.0
  {
  }

  /** Scrolling further down never enlarges, brightens or sharpens the hero. */
  lemma HeroMonotone(s1: real, s2: real)
    requires 0.0 <= s1 <= s2
    ensures HeroScale(s2) <= HeroScale(s1)
    ensures HeroOpacity(s2) <= HeroOpacity(s1)
    ensures HeroBlur(s1) <= HeroBlur(s2)
  {
  }

  /** A negative offset (elastic overscroll) gives a negative blur radius: the
      range above holds only from 0 on. */
  lemma HeroBlurBelowTop(scrolled: real)
    requires scrolled < 0.0
    ensures HeroBlur(scrolled) < 0.0 && HeroBlur(scrolled) == scrolled * 0.01
  {
  }

  /** `document.querySelector('.hero')`: the first section, in document order,
      that carries the class `hero`. */
  function FirstHero(sections: seq<SectionBox>): (h: Option<nat>)
    ensures h.Some? ==> h.value < |sections| && sections[h.value].isHero
                        && forall j :: 0 <= j < h.value ==> !sections[j].isHero
    ensures h.None? ==> forall j :: 0 <= j < |sections| ==> !sections[j].isHero
  {
    if sections == [] then None
    else if sections[0].isHero then Some(0)
    else match FirstHero(sections[1..])
      case None => None
      case Some(i) => Some(i + 1)
  }

  /** One run of `netflixScrollEffects` over the sections: every section gets
      its per-section look, then the hero's transform and opacity are
      overwritten by its own rule and a blur is added. */
  function Frame(scrolled: real, windowHeight: real, sections: seq<SectionBox>): (looks: seq<Look>)
    requires windowHeight > 0.0
    ensures |looks| == |sections|
  {
    var base := seq(|sections|, i requires 0 <= i < |sections| => SectionLook(sections[i], windowHeight));
    match FirstHero(sections)
    case None => base
    case Some(h) =>
      base[h := base[h].(scale := HeroScale(scrolled), opacity := HeroOpacity(scrolled),
                         filter := Blur(HeroBlur(scrolled)))]
  }

  /** The first hero's scale, opacity and blur come from the hero rule, whatever
      the per-section rule computed; its z-index and glow, and every other
      section's whole look, come from the per-section rule. */
  lemma HeroOverridesSectionRule(scrolled: real, windowHeight: real, sections: seq<SectionBox>, i: nat)
    requires windowHeight > 0.0 && i < |sections|
    ensures var l, own := Frame(scrolled, windowHeight, sections)[i], SectionLook(sections[i], windowHeight);
      if sections[i].isHero && forall j :: 0 <= j < i ==> !sections[j].isHero then
        l == Look(HeroScale(scrolled), HeroOpacity(scrolled), own.zIndex, own.shadow, Blur(HeroBlur(scrolled)))
      else l == own
  {
    var h := FirstHero(sections);
    if sections[i].isHero && forall j :: 0 <= j < i ==> !sections[j].isHero {
      assert h == Some(i);
    } else if h.Some? {
      assert h.value != i;
    }
  }

  /** From scroll offset 0 on, every section of a frame, the hero included, has
      scale in [0.7, 1.05] and opacity in [0.4, 1]. */
  lemma FrameBounds(scrolled: real, windowHeight: real, sections: seq<SectionBox>)
    requires scrolled >= 0.0 && windowHeight > 0.0
    ensures forall l :: l in Frame(scrolled, windowHeight, sections) ==>
      0.7 <= l.scale <= 1.05 && 0.4 <= l.opacity <= 1.0
  {
    var looks := Frame(scrolled, windowHeight, sections);
    forall l | l in looks
      ensures 0.7 <= l.scale <= 1.05 && 0.4 <= l.opacity <= 1.0
    {
      var i :| 0 <= i < |looks| && looks[i] == l;
      HeroOverridesSectionRule(scrolled, windowHeight, sections, i);
      SectionLookBounds(sections[i], windowHeight);
      HeroRanges(scrolled);
    }
  }

  /** `updateScrollProgress`: the percentage of the scrollable height already
      scrolled. The script divides without checking that the page is not
      exactly as tall as the viewport; the precondition stands for that missing
      check. A page shorter than the viewport gives a negative divisor, which
      the model covers. */
  function ScrollPercent(scrollTop: real, scrollHeight: real, innerHeight: real): (p: real)
    requires scrollHeight - innerHeight != 0.0
    ensures p * (scrollHeight - innerHeight) == scrollTop * 100.0
  {
    (scrollTop / (scrollHeight - innerHeight)) * 100.0
  }

  /** Over the scrollable range the progress runs from 0 at the top to 100 at
      the bottom, and never decreases as the page scrolls down. */
  lemma ProgressRange(scrollTop: real, scrollHeight: real, innerHeight: real)
    requires scrollHeight - innerHeight > 0.0
    requires 0.0 <= scrollTop <= scrollHeight - innerHeight
    ensures 0.0 <= ScrollPercent(scrollTop, scrollHeight, innerHeight) <= 100.0
    ensures ScrollPercent(0.0, scrollHeight, innerHeight) == 0.0
    ensures ScrollPercent(scrollHeight - innerHeight, scrollHeight, innerHeight) == 100.0
  {
    var d := scrollHeight - innerHeight;
    QuotientMonotone(scrollTop, d, d);
    QuotientOfSelf(d);
  }

  lemma ProgressMonotone(t1: real, t2: real, scrollHeight: real, innerHeight: real)
    requires scrollHeight - innerHeight > 0.0 && t1 <= t2
    ensures ScrollPercent(t1, scrollHeight, innerHeight) <= ScrollPercent(t2, scrollHeight, innerHeight)
  {
    QuotientMonotone(t1, t2, scrollHeight - innerHeight);
  }

  /** Nothing clamps the result: scrolling past the end (overscroll) gives more
      than 100. */
  lemma ProgressNotClamped(scrollTop: real, scrollHeight: real, innerHeight: real)
    requires 0.0 < scrollHeight - innerHeight < scrollTop
    ensures ScrollPercent(scrollTop, scrollHeight, innerHeight) > 100.0
  {
    var d := scrollHeight - innerHeight;
    QuotientMonotone(d, scrollTop, d);
    QuotientOfSelf(d);
  }

  /** The navbar's two looks: solid (background alpha 0.95, 20px backdrop blur,
      red bottom border) or translucent (alpha 0.7, 10px blur, no border). */
  datatype NavbarLook = Solid | Translucent
  {
    function BackgroundAlpha(): real
    {
      if Solid? then 0.95 else 0.7
    }

    function BackdropBlur(): nat
    {
      if Solid? then 20 else 10
    }

    predicate HasBorder()
    {
      Solid?
    }
  }

  /** `updateNavbar`: solid strictly beyond 50px of scroll. */
  function NavbarLookAt(scrolled: real): NavbarLook
  {
    if scrolled > 50.0 then Solid else Translucent
  }

  /** Solid exactly when the offset exceeds 50 (50 itself is translucent);
      the navbar only gets more opaque and more blurred as the page scrolls
      down. */
  lemma NavbarThreshold(s1: real, s2: real)
    requires s1 <= s2
    ensures NavbarLookAt(s1).Solid? <==> s1 > 50.0
    ensures NavbarLookAt(50.0) == Translucent
    ensures NavbarLookAt(s1).BackgroundAlpha() <= NavbarLookAt(s2).BackgroundAlpha()
    ensures NavbarLookAt(s1).BackdropBlur() <= NavbarLookAt(s2).BackdropBlur()
    ensures NavbarLookAt(s1).HasBorder() ==> NavbarLookAt(s2).HasBorder()
  {
  }
}
