/**
 * The client-cases carousel: three slides, each an image and either one
 * caption or a pair of captions, moved by the arrow keys or a horizontal
 * swipe; a broken image is retried with the other extension; the layout
 * depends on four width bands.
 */
module CasosClientes {
  import opened Wrappers
  import opened Text
  import Carousel

  datatype Caption = SingleCaption(text: string) | DualCaption(first: string, second: string)

  datatype CaseItem = CaseItem(img: string, caption: Caption)

  const CASES: seq<CaseItem> := [
    CaseItem("/CasosClientes/cliente1.png",
      SingleCaption("260 Leads em 10 Dias - Fevereiro de 2025")),
    CaseItem("/CasosClientes/cliente2.png",
      DualCaption("R$0,08 por Visita ao Perfil do Instagram",
                  "R$1,63 por Mensagem no Direct do Instagram")),
    CaseItem("/CasosClientes/cliente3.png",
      SingleCaption("188 Conversões à R$5,95 Cada no Google Ads"))
  ]

  /** `isDual`: the caption is a pair rather than a single line. */
  predicate IsDual(c: CaseItem) {
    c.caption.DualCaption?
  }

  /** Slide `i` shows `cliente{i+1}.png`, and only the second slide has two captions. */
  lemma CasesShape()
    ensures |CASES| == 3
    ensures forall i :: 0 <= i < |CASES| ==>
      CASES[i].img == "/CasosClientes/cliente" + NatToString(i + 1) + ".png"
    ensures forall i :: 0 <= i < |CASES| ==> (IsDual(CASES[i]) <==> i == 1)
  {
    assert NatToString(1) == "1" && NatToString(2) == "2" && NatToString(3) == "3";
  }

  // ---------------------------------------------------------------------
  // Image fallback

  /**
   * `handleImgError`'s mapping: a source ending in ".webp" (exact case)
   * gets ".png"; any other source ending in ".png" in any case gets
   * ".webp"; anything else is left as it is.
   */
  function SwapImageExt(src: string): string {
    if EndsWith(src, ".webp") then src[..|src| - 5] + ".png"
    else if EndsWithIgnoringCase(src, ".png") then src[..|src| - 4] + ".webp"
    else src
  }

  /** What the error handler does to each kind of source: the stem is kept, only the extension changes. */
  lemma SwapImageExtCases(src: string)
    ensures EndsWith(src, ".webp") ==>
      EndsWith(SwapImageExt(src), ".png") &&
      SwapImageExt(src)[..|SwapImageExt(src)| - 4] == src[..|src| - 5]
    ensures !EndsWith(src, ".webp") && EndsWithIgnoringCase(src, ".png") ==>
      EndsWith(SwapImageExt(src), ".webp") &&
      SwapImageExt(src)[..|SwapImageExt(src)| - 5] == src[..|src| - 4]
    ensures !EndsWith(src, ".webp") && !EndsWithIgnoringCase(src, ".png") ==>
      SwapImageExt(src) == src
  {
    var r := SwapImageExt(src);
    if EndsWith(src, ".webp") {
      assert r[|r| - 4..] == ".png";
      assert r[..|r| - 4] == src[..|src| - 5];
    } else if EndsWithIgnoringCase(src, ".png") {
      assert r[|r| - 5..] == ".webp";
      assert r[..|r| - 5] == src[..|src| - 4];
    }
  }

  /** A ".webp" source falls back to the ".png" with the same stem. */
  lemma SwapWebpStem(stem: string)
    ensures SwapImageExt(stem + ".webp") == stem + ".png"
  {
    var s := stem + ".webp";
    assert s[|s| - 5..] == ".webp";
    assert s[..|s| - 5] == stem;
  }

  /** A lower-case ".png" source falls back to the ".webp" with the same stem. */
  lemma SwapPngStem(stem: string)
    ensures SwapImageExt(stem + ".png") == stem + ".webp"
  {
    var s := stem + ".png";
    assert !EndsWith(s, ".webp") by {
      if |s| >= 5 {
        assert s[|s| - 5..][4] == 'g';
      }
    }
    assert EndsWithIgnoringCase(s, ".png") by {
      forall i | 0 <= i < 4 ensures LowerChar(s[|s| - 4 + i]) == LowerChar(".png"[i]) {
        assert s[|s| - 4 + i] == ".png"[i];
      }
    }
    assert s[..|s| - 4] == stem;
  }

  /** Two failures in a row bring a lower-case ".webp" or ".png" source back to itself. */
  lemma SwapRoundTrip(src: string)
    requires EndsWith(src, ".webp") || EndsWith(src, ".png")
    ensures SwapImageExt(SwapImageExt(src)) == src
  {
    if EndsWith(src, ".webp") {
      var stem := src[..|src| - 5];
      assert src == stem + ".webp";
      SwapWebpStem(stem);
      SwapPngStem(stem);
    } else {
      var stem := src[..|src| - 4];
      assert src == stem + ".png";
      SwapPngStem(stem);
      SwapWebpStem(stem);
    }
  }

  /**
   * A source ending in ".WEBP" (or any other casing than ".webp") is not
   * swapped at all: the exact-case test fails and ".png" does not match.
   */
  lemma UpperCaseWebpIsKept(src: string)
    requires EndsWithIgnoringCase(src, ".webp") && !EndsWith(src, ".webp")
    ensures SwapImageExt(src) == src
  {
    LastCharIgnoringCase(src, ".webp");
    assert !EndsWithIgnoringCase(src, ".png") by {
      if EndsWithIgnoringCase(src, ".png") {
        LastCharIgnoringCase(src, ".png");
        assert false;
      }
    }
  }

  lemma LastCharIgnoringCase(s: string, suffix: string)
    requires EndsWithIgnoringCase(s, suffix) && |suffix| > 0
    ensures LowerChar(s[|s| - 1]) == LowerChar(suffix[|suffix| - 1])
  {
    var k := |suffix| - 1;
    assert LowerChar(s[|s| - |suffix| + k]) == LowerChar(suffix[k]);
  }

  /** On slide `i` the first failure asks for `cliente{i+1}.webp`, the second for the `.png` again. */
  lemma SlideImageFallback(i: int)
    requires 0 <= i < |CASES|
    ensures SwapImageExt(CASES[i].img) == "/CasosClientes/cliente" + NatToString(i + 1) + ".webp"
    ensures SwapImageExt(SwapImageExt(CASES[i].img)) == CASES[i].img
  {
    CasesShape();
    var src := CASES[i].img;
    var stem := "/CasosClientes/cliente" + NatToString(i + 1);
    assert src == stem + ".png";
    assert EndsWith(src, ".png") by {
      assert src[|src| - 4..] == ".png";
    }
    assert src[|src| - 1] == 'g';
    assert !EndsWith(src, ".webp");
    assert EndsWithIgnoringCase(src, ".png");
    assert src[..|src| - 4] == stem;
    SwapRoundTrip(src);
  }

  // ---------------------------------------------------------------------
  // Breakpoints

  /** The layout state the resize handler sets from `window.innerWidth`. */
  datatype Layout = Layout(isMobile: bool, isTablet: bool, isMidDesk: bool, slideGap: int)

  /** Before the first resize handler runs: no flag set and a gap of 16. */
  const InitialLayout := Layout(false, false, false, 16)

  function LayoutFor(w: int): Layout {
    Layout(w < 768, 768 <= w < 1024, 1024 <= w < 1536,
           if w < 768 then 12 else if w < 1280 then 18 else 28)
  }

  /**
   * The three flags are mutually exclusive, none is set from 1536 up, and
   * the gap between slides is 12, 18 or 28 and never shrinks as the window widens.
   */
  lemma LayoutBands(w: int, w2: int)
    ensures !(LayoutFor(w).isMobile && LayoutFor(w).isTablet)
    ensures !(LayoutFor(w).isMobile && LayoutFor(w).isMidDesk)
    ensures !(LayoutFor(w).isTablet && LayoutFor(w).isMidDesk)
    ensures !LayoutFor(w).isMobile && !LayoutFor(w).isTablet && !LayoutFor(w).isMidDesk <==> w >= 1536
    ensures LayoutFor(w).slideGap in {12, 18, 28}
    ensures LayoutFor(w).isMobile <==> LayoutFor(w).slideGap == 12
    ensures LayoutFor(w).isTablet ==> LayoutFor(w).slideGap == 18
    ensures w <= w2 ==> LayoutFor(w).slideGap <= LayoutFor(w2).slideGap
  {
  }

  /** `tMid`: how far into the mid-desktop band the window is, from 0 at 1024 to 1 at 1535. */
  function TMid(w: int, isMidDesk: bool): (t: real)
    ensures 0.0 <= t <= 1.0
    ensures !isMidDesk ==> t == 0.0
    ensures isMidDesk && w <= 1024 ==> t == 0.0
    ensures isMidDesk && w >= 1535 ==> t == 1.0
    ensures isMidDesk && 1024 <= w <= 1535 ==> t * 511.0 == (w - 1024) as real
  {
    if isMidDesk then
      var f := (w - 1024) as real / (1535 - 1024) as real;
      var lo := if f > 0.0 then f else 0.0;
      if lo < 1.0 then lo else 1.0
    else 0.0
  }

  /** The scale applied to the slides: 0.86 on tablets, 0.85 to 0.98 across the mid-desktop band, 1 elsewhere. */
  function SlideScale(layout: Layout, w: int): (s: real)
    ensures layout.isTablet ==> s == 0.86
    ensures !layout.isTablet && layout.isMidDesk ==> 0.85 <= s <= 0.98
    ensures !layout.isTablet && !layout.isMidDesk ==> s == 1.0
    ensures 0.85 <= s <= 1.0
  {
    var scaleMid := 0.85 + TMid(w, layout.isMidDesk) * (0.98 - 0.85);
    if layout.isTablet then 0.86 else if layout.isMidDesk then scaleMid else 1.0
  }

  /** Within the mid-desktop band a wider window never gives smaller slides. */
  lemma SlideScaleMonotone(w: int, w2: int)
    requires 1024 <= w <= w2 < 1536
    ensures SlideScale(LayoutFor(w), w) <= SlideScale(LayoutFor(w2), w2)
  {
    var t := TMid(w, true);
    var t2 := TMid(w2, true);
    assert t <= t2 by {
      if w2 <= 1535 {
        assert t * 511.0 <= t2 * 511.0;
      }
    }
  }

  /** `Math.round`: the nearest integer, halves rounded up. */
  function Round(x: real): int {
    (x + 0.5).Floor
  }

  /** The viewport's maximum width in the mid-desktop band: 940 px at its start, 1200 px at its end. */
  function ViewportMaxPx(w: int): (px: int)
    ensures 940 <= px <= 1200
    ensures w <= 1024 ==> px == 940
    ensures w >= 1535 ==> px == 1200
  {
    Round(940.0 + TMid(w, true) * (1200.0 - 940.0))
  }

  // ---------------------------------------------------------------------
  // Swipe

  /** `vw()`: the viewport's client width, 1 when unknown, and never below 1. */
  function ViewportWidth(clientWidth: Option<real>): (v: real)
    ensures v >= 1.0
    ensures clientWidth.Some? && clientWidth.value >= 1.0 ==> v == clientWidth.value
  {
    var cw := clientWidth.GetOr(1.0);
    if cw > 1.0 then cw else 1.0
  }

  /** The distance a swipe must exceed: 18% of the viewport width, but at least 80 px. */
  function SwipeThreshold(clientWidth: Option<real>): (t: real)
    ensures t >= 80.0 && t >= 0.18 * ViewportWidth(clientWidth)
    ensures t == 80.0 || t == 0.18 * ViewportWidth(clientWidth)
  {
    var a := 0.18 * ViewportWidth(clientWidth);
    if a > 80.0 then a else 80.0
  }

  /** Whether a pointer move counts as a horizontal drag: |dx| must reach |dy| + 8. */
  predicate DragAccepted(dx: real, dy: real) {
    !(Abs(dx) < Abs(dy) + 8.0)
  }

  function Abs(x: real): real {
    if x < 0.0 then -x else x
  }

  /** An accepted drag moves at least 8 px, and more sideways than up or down. */
  lemma DragAcceptedIsHorizontal(dx: real, dy: real)
    requires DragAccepted(dx, dy)
    ensures Abs(dx) >= 8.0
    ensures Abs(dx) > Abs(dy)
  {
  }

  datatype Swipe = ToPrev | ToNext | Stay

  /** Dragging right past the threshold goes back, dragging left past it goes forward. */
  function SwipeDecision(dx: real, threshold: real): Swipe {
    if dx > threshold then ToPrev
    else if dx < -threshold then ToNext
    else Stay
  }

  function Apply(i: int, s: Swipe): int
    requires 0 <= i < |CASES|
  {
    match s
    case ToPrev => Carousel.Prev(i, |CASES|)
    case ToNext => Carousel.Next(i, |CASES|)
    case Stay => i
  }

  /**
   * The slide after a pointer release: a drag of at most 80 px never moves,
   * a drag past the threshold moves one slide against its direction, and
   * mirrored drags move in opposite directions.
   */
  lemma SwipeOutcome(i: int, dx: real, clientWidth: Option<real>)
    requires 0 <= i < |CASES|
    ensures var s := SwipeDecision(dx, SwipeThreshold(clientWidth));
      0 <= Apply(i, s) < |CASES| &&
      (Abs(dx) <= 80.0 ==> Apply(i, s) == i) &&
      (Abs(dx) <= SwipeThreshold(clientWidth) <==> s == Stay) &&
      (s == ToPrev <==> SwipeDecision(-dx, SwipeThreshold(clientWidth)) == ToNext) &&
      (s == ToPrev ==> Apply(i, s) == (if i == 0 then |CASES| - 1 else i - 1)) &&
      (s == ToNext ==> Apply(i, s) == (if i == |CASES| - 1 then 0 else i + 1))
  {
    Carousel.NextStep(i, |CASES|);
    Carousel.PrevStep(i, |CASES|);
  }

  /** `translateX`: the track is shifted left by one slide pitch (width + gap) per slide, plus the live drag. */
  function TranslateX(idx: int, width: real, gap: int, dragPx: real): real {
    -(idx as real) * (width + gap as real) + dragPx
  }

  /** Moving to the following slide shifts the track exactly one pitch further left. */
  lemma TranslateXStep(idx: int, width: real, gap: int)
    ensures TranslateX(idx + 1, width, gap, 0.0) == TranslateX(idx, width, gap, 0.0) - (width + gap as real)
  {
    var p := width + gap as real;
    assert (idx + 1) as real * p == idx as real * p + p;
  }

  // ---------------------------------------------------------------------
  // The component's state

  class CaseCarousel {
    var idx: int
    var imgSrc: string
    var dragPx: real
    var dragStartX: Option<real>
    var dragStartY: Option<real>
    var isDragging: bool
    var allowTransition: bool
    var layout: Layout

    /** The slide index is valid, and a drag offset exists only while dragging. */
    ghost predicate Valid()
      reads this
    {
      0 <= idx < |CASES| && (!isDragging ==> dragPx == 0.0)
    }

    constructor()
      ensures Valid()
      ensures idx == 0 && imgSrc == CASES[0].img && dragPx == 0.0
      ensures dragStartX == None && dragStartY == None
      ensures !isDragging && allowTransition && layout == InitialLayout
    {
      idx := 0;
      imgSrc := CASES[0].img;
      dragPx := 0.0;
      dragStartX := None;
      dragStartY := None;
      isDragging := false;
      allowTransition := true;
      layout := InitialLayout;
    }

    method Next()
      requires Valid()
      modifies this`idx
      ensures Valid()
      ensures idx == Carousel.Next(old(idx), |CASES|)
    {
      Carousel.NextStep(idx, |CASES|);
      idx := Carousel.Next(idx, |CASES|);
    }

    method Prev()
      requires Valid()
      modifies this`idx
      ensures Valid()
      ensures idx == Carousel.Prev(old(idx), |CASES|)
    {
      Carousel.PrevStep(idx, |CASES|);
      idx := Carousel.Prev(idx, |CASES|);
    }

    /** The keydown listener: ArrowRight goes forward, ArrowLeft back, other keys do nothing. */
    method OnKey(key: string)
      requires Valid()
      modifies this`idx
      ensures Valid()
      ensures key == "ArrowRight" ==> idx == Carousel.Next(old(idx), |CASES|)
      ensures key == "ArrowLeft" ==> idx == Carousel.Prev(old(idx), |CASES|)
      ensures key != "ArrowRight" && key != "ArrowLeft" ==> idx == old(idx)
    {
      if key == "ArrowRight" {
        Next();
      }
      if key == "ArrowLeft" {
        Prev();
      }
    }

    /** The effect that runs after `idx` changes: show the current slide's image. */
    method ShowSlideImage()
      requires Valid()
      modifies this`imgSrc
      ensures imgSrc == CASES[idx].img
    {
      imgSrc := CASES[idx].img;
    }

    method OnImgError()
      modifies this`imgSrc
      ensures imgSrc == SwapImageExt(old(imgSrc))
    {
      imgSrc := SwapImageExt(imgSrc);
    }

    /** The resize handler. */
    method OnResize(w: int)
      modifies this`layout
      ensures layout == LayoutFor(w)
    {
      layout := LayoutFor(w);
    }

    method OnPointerDown(x: real, y: real)
      requires Valid()
      modifies this`dragStartX, this`dragStartY, this`isDragging, this`allowTransition
      ensures Valid()
      ensures dragStartX == Some(x) && dragStartY == Some(y)
      ensures isDragging && !allowTransition
    {
      dragStartX := Some(x);
      dragStartY := Some(y);
      isDragging := true;
      allowTransition := false;
    }

    /** A move updates the drag offset only while dragging from a recorded start, and only when it is horizontal enough. */
    method OnPointerMove(x: real, y: real)
      requires Valid()
      modifies this`dragPx
      ensures Valid()
      ensures isDragging && dragStartX.Some? && dragStartY.Some? &&
              DragAccepted(x - dragStartX.value, y - dragStartY.value)
        ==> dragPx == x - dragStartX.value
      ensures !(isDragging && dragStartX.Some? && dragStartY.Some? &&
                DragAccepted(x - dragStartX.value, y - dragStartY.value))
        ==> dragPx == old(dragPx)
    {
      if !isDragging || dragStartX.None? || dragStartY.None? {
        return;
      }
      var dx := x - dragStartX.value;
      var dy := y - dragStartY.value;
      if Abs(dx) < Abs(dy) + 8.0 {
        return;
      }
      dragPx := dx;
    }

    /**
     * Release (also pointer cancel and leave): the drag ends, the offset
     * returns to 0 and the slide moves by the swipe decision. The start
     * positions are left as they were.
     */
    method OnPointerEnd(clientWidth: Option<real>)
      requires Valid()
      modifies this`idx, this`dragPx, this`isDragging, this`allowTransition
      ensures Valid()
      ensures idx == Apply(old(idx), SwipeDecision(old(dragPx), SwipeThreshold(clientWidth)))
      ensures dragPx == 0.0 && !isDragging && allowTransition
      ensures !old(isDragging) ==> idx == old(idx)
    {
      var threshold := SwipeThreshold(clientWidth);
      var dx := dragPx;
      isDragging := false;
      allowTransition := true;
      dragPx := 0.0;
      if dx > threshold {
        Prev();
      } else if dx < -threshold {
        Next();
      }
    }
  }
}
