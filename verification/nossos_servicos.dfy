/**
 * The services carousel: four service cards stepped through with
 * next/previous buttons, each with its own 1-based section and card
 * background, and a plain background on narrow windows.
 */
module NossosServicos {
  import opened Text
  import Carousel

  /** `MOBILE_MAX`: the widest window still treated as mobile. */
  const MobileMax: int := 820

  datatype ItemKey = Google | YouTube | Meta | Diagnostico

  /** A service card; its HTML blurb and WhatsApp message are not modelled. */
  datatype Item = Item(key: ItemKey, title: string, img: string, imgMobile: string, alt: string)

  const ITEMS: seq<Item> := [
    Item(Google, "Google Ads", "/NossosServicos/google.png",
         "/NossosServicos/google-mobile.png", "Google Ads"),
    Item(YouTube, "YouTube Ads", "/NossosServicos/youtube.png",
         "/NossosServicos/youtube-mobile.png", "YouTube Ads"),
    Item(Meta, "Meta Ads", "/NossosServicos/meta.png",
         "/NossosServicos/meta-mobile.png", "Meta Ads"),
    Item(Diagnostico, "Diagnóstico Ads", "/NossosServicos/diagnostico.png",
         "/NossosServicos/diagnostico-mobile.png", "Diagnóstico de Mídia")
  ]

  /** Each service appears once, so a key identifies its card. */
  lemma ItemKeysDistinct()
    ensures |ITEMS| == 4
    ensures forall i, j :: 0 <= i < |ITEMS| && 0 <= j < |ITEMS| && ITEMS[i].key == ITEMS[j].key ==> i == j
  {
  }

  /** `useIsMobile`'s resize handler. */
  predicate IsMobile(innerWidth: int) {
    innerWidth <= MobileMax
  }

  /** The width bands: up to 820 px is mobile, from 821 px up is desktop. */
  lemma MobileThreshold(w: int)
    ensures IsMobile(w) <==> w < 821
    ensures IsMobile(MobileMax) && !IsMobile(MobileMax + 1)
  {
  }

  /** `sessionBgDesktop(i)`. */
  function SessionBg(i: int): string {
    "/NossosServicos/fundo" + IntToString(i + 1) + ".png"
  }

  /** `cardBgUniversal(i)`. */
  function CardBg(i: int): string {
    "/NossosServicos/divfundo" + IntToString(i + 1) + ".png"
  }

  /** The number in a background path is 1-based: card `i` reads back as `i + 1`. */
  lemma BackgroundNumbering(i: int)
    requires 0 <= i < |ITEMS|
    ensures SessionBg(i) == "/NossosServicos/fundo" + [DigitChar(i + 1)] + ".png"
    ensures CardBg(i) == "/NossosServicos/divfundo" + [DigitChar(i + 1)] + ".png"
    ensures DigitValue(SessionBg(i)[21]) == i + 1
    ensures DigitValue(CardBg(i)[24]) == i + 1
  {
  }

  /** A path `prefix + (i + 1) + ".png"` determines `i`. */
  lemma {:induction false} NumberedPathInjective(prefix: string, i: int, j: int)
    requires 0 <= i && 0 <= j
    requires prefix + IntToString(i + 1) + ".png" == prefix + IntToString(j + 1) + ".png"
    ensures i == j
  {
    var a := NatToString(i + 1);
    var b := NatToString(j + 1);
    var s := prefix + a + ".png";
    assert |a| == |b|;
    assert a == s[|prefix|..|prefix| + |a|];
    assert b == (prefix + b + ".png")[|prefix|..|prefix| + |b|];
    NatToStringInjective(i + 1, j + 1);
  }

  /** Different cards never share a section background or a card background. */
  lemma BackgroundsDistinct(i: int, j: int)
    requires 0 <= i && 0 <= j
    ensures SessionBg(i) == SessionBg(j) ==> i == j
    ensures CardBg(i) == CardBg(j) ==> i == j
  {
    if SessionBg(i) == SessionBg(j) {
      NumberedPathInjective("/NossosServicos/fundo", i, j);
    }
    if CardBg(i) == CardBg(j) {
      NumberedPathInjective("/NossosServicos/divfundo", i, j);
    }
  }

  datatype SectionBackground = PlainColor | ImageCover(url: string)

  /** `sectionBgStyle`: the background image is only used on desktop widths. */
  function SectionStyle(isMobile: bool, idx: int): (b: SectionBackground)
    ensures b.ImageCover? <==> !isMobile
    ensures b.ImageCover? ==> b.url == SessionBg(idx)
  {
    if isMobile then PlainColor else ImageCover(SessionBg(idx))
  }

  class ServicesCarousel {
    var idx: int

    ghost predicate Valid()
      reads this
    {
      0 <= idx < |ITEMS|
    }

    constructor()
      ensures Valid() && idx == 0
    {
      idx := 0;
    }

    /** The card on screen. */
    function Current(): (item: Item)
      requires Valid()
      reads this
      ensures item in ITEMS
    {
      ITEMS[idx]
    }

    method Next()
      requires Valid()
      modifies this
      ensures Valid()
      ensures idx == Carousel.Next(old(idx), |ITEMS|)
    {
      Carousel.NextStep(idx, |ITEMS|);
      idx := Carousel.Next(idx, |ITEMS|);
    }

    method Prev()
      requires Valid()
      modifies this
      ensures Valid()
      ensures idx == Carousel.Prev(old(idx), |ITEMS|)
    {
      Carousel.PrevStep(idx, |ITEMS|);
      idx := Carousel.Prev(idx, |ITEMS|);
    }
  }

  /** Stepping forward from the last card shows the first, and back from the first shows the last (the diagnosis card). */
  lemma Wraparound()
    ensures Carousel.Next(|ITEMS| - 1, |ITEMS|) == 0 && ITEMS[0].key == Google
    ensures Carousel.Prev(0, |ITEMS|) == |ITEMS| - 1 && ITEMS[|ITEMS| - 1].key == Diagnostico
  {
    Carousel.NextStep(|ITEMS| - 1, |ITEMS|);
    Carousel.PrevStep(0, |ITEMS|);
  }
}
