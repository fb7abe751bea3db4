/** The home page banner carousel: four banners, one index `currentSlide`, arrows that
    step it with wrap-around, a five-second timer that steps it forward, and a row of
    dots that jump to a banner. */
module BannerCarousel {
  import Cyclic

  datatype Banner = Banner(id: nat, title: string, subtitle: string, discount: string, validUntil: string)

  const Banners: seq<Banner> := [
    Banner(1, "Black Friday", "Até 50% de desconto", "50% OFF", "Válido até 30/11"),
    Banner(2, "Cashback Especial", "10% de volta em tudo", "10%", "Válido até 15/12"),
    Banner(3, "Ofertas de Natal", "Presentes com desconto", "30% OFF", "Válido até 25/12"),
    Banner(4, "Super Oferta", "Produtos selecionados", "20% OFF", "Válido até 31/12")
  ]

  /** Where a banner sits relative to the one on show. */
  datatype Position = Centre | OffLeft | OffRight

  /** Banners before the current one are pushed off to the left, banners after it off to
      the right, and only the current one is centred. */
  function SlidePosition(index: nat, current: nat): (p: Position)
    ensures p == Centre <==> index == current
    ensures p == OffLeft <==> index < current
    ensures p == OffRight <==> index > current
  {
    if index == current then Centre
    else if index < current then OffLeft
    else OffRight
  }

  /** The banners drawn centred. */
  function CentredSlides(current: nat): set<nat>
  {
    set i: nat | i < |Banners| && SlidePosition(i, current) == Centre
  }

  /** With the index in range exactly one banner is centred, and it is the current one. */
  lemma ExactlyOneCentred(current: nat)
    requires current < |Banners|
    ensures CentredSlides(current) == {current}
  {
    assert current in CentredSlides(current);
  }

  class Carousel {
    var currentSlide: nat

    predicate Valid()
      reads this
    {
      currentSlide < |Banners|
    }

    /** The carousel opens on the first banner. */
    constructor()
      ensures Valid()
      ensures currentSlide == 0
    {
      currentSlide := 0;
    }

    /** The banner on show. */
    function Current(): (b: Banner)
      requires Valid()
      reads this
      ensures b in Banners
    {
      Banners[currentSlide]
    }

    /** A dot click: jump to banner `index`. */
    method GoToSlide(index: nat)
      requires index < |Banners|
      modifies this
      ensures Valid()
      ensures currentSlide == index
    {
      currentSlide := index;
    }

    /** The left arrow: one banner back, from the first to the last. */
    method GoToPrevious()
      requires Valid()
      modifies this
      ensures Valid()
      ensures currentSlide == Cyclic.Prev(old(currentSlide), |Banners|)
    {
      currentSlide := Cyclic.Prev(currentSlide, |Banners|);
    }

    /** The right arrow: one banner forward, from the last to the first. */
    method GoToNext()
      requires Valid()
      modifies this
      ensures Valid()
      ensures currentSlide == Cyclic.Next(old(currentSlide), |Banners|)
    {
      currentSlide := Cyclic.Next(currentSlide, |Banners|);
    }

    /** One firing of the five-second timer: the same step as the right arrow. */
    method Tick()
      requires Valid()
      modifies this
      ensures Valid()
      ensures currentSlide == Cyclic.Next(old(currentSlide), |Banners|)
    {
      currentSlide := (currentSlide + 1) % |Banners|;
    }
  }

  /** Left then right, or right then left, leaves the carousel where it was. */
  method ArrowsCancel(c: Carousel, leftFirst: bool)
    requires c.Valid()
    modifies c
    ensures c.Valid()
    ensures c.currentSlide == old(c.currentSlide)
  {
    if leftFirst {
      c.GoToPrevious();
      c.GoToNext();
      Cyclic.NextUndoesPrev(old(c.currentSlide), |Banners|);
    } else {
      c.GoToNext();
      c.GoToPrevious();
      Cyclic.PrevUndoesNext(old(c.currentSlide), |Banners|);
    }
  }

  /** `k` timer firings move the carousel `k` banners forward with wrap-around; after
      one firing per banner it is back where it started. */
  method Ticks(c: Carousel, k: nat)
    requires c.Valid()
    modifies c
    ensures c.Valid()
    ensures c.currentSlide == (old(c.currentSlide) + k) % |Banners|
    ensures k == |Banners| ==> c.currentSlide == old(c.currentSlide)
  {
    var start := c.currentSlide;
    var t := 0;
    while t < k
      invariant t <= k
      invariant c.Valid()
      invariant c.currentSlide == Cyclic.Advance(start, t, |Banners|)
    {
      c.Tick();
      t := t + 1;
    }
    Cyclic.AdvanceIsSum(start, k, |Banners|);
    if k == |Banners| {
      Cyclic.FullTurn(start, |Banners|);
    }
  }
}
