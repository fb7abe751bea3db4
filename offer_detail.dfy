/** The offer detail page (`/offers/:id`): a fixed mock offer with a three-picture gallery
    stepped by arrows with wrap-around and by a row of dots. */
module OfferDetail {
  import Cyclic

  datatype OfferDetails = OfferDetails(
    id: nat,
    title: string,
    images: seq<string>,
    discount: string,
    originalPrice: real,
    finalPrice: real,
    savings: real,
    partner: string,
    category: string)

  /** The mock offer; the first and third pictures are the same photograph. */
  const MockOffer := OfferDetails(
    1,
    "Smartphone Samsung Galaxy",
    ["https://images.unsplash.com/photo-1511707171634-5f897ff02aa9?w=400&h=300&fit=crop",
     "https://images.unsplash.com/photo-1592750475338-74b7b21085ab?w=400&h=300&fit=crop",
     "https://images.unsplash.com/photo-1511707171634-5f897ff02aa9?w=400&h=300&fit=crop"],
    "25%",
    1299.90,
    974.93,
    324.97,
    "Amazon BR",
    "Eletrônicos")

  /** The offer the page shows for the route parameter `id`: the parameter is read but
      never used, so every id shows the mock offer. */
  function OfferFor(id: string): (o: OfferDetails)
    ensures |o.images| == 3
    ensures o.savings == o.originalPrice - o.finalPrice
  {
    MockOffer
  }

  /** Two different route ids show the same offer. */
  lemma OfferIgnoresId(id1: string, id2: string)
    ensures OfferFor(id1) == OfferFor(id2)
  {
  }

  class OfferDetailPage {
    const id: string
    var currentImage: nat

    predicate Valid()
      reads this
    {
      currentImage < |OfferFor(id).images|
    }

    /** Mounting the page shows the first picture. */
    constructor(id: string)
      ensures this.id == id
      ensures Valid()
      ensures currentImage == 0
    {
      this.id := id;
      currentImage := 0;
    }

    /** The picture on show. */
    function Picture(): (url: string)
      requires Valid()
      reads this
      ensures url in OfferFor(id).images
    {
      OfferFor(id).images[currentImage]
    }

    /** The right arrow: `(prev + 1) % images.length`. */
    method NextImage()
      requires Valid()
      modifies this
      ensures Valid()
      ensures currentImage == Cyclic.Next(old(currentImage), |OfferFor(id).images|)
    {
      currentImage := (currentImage + 1) % |OfferFor(id).images|;
    }

    /** The left arrow: `(prev - 1 + images.length) % images.length`. */
    method PrevImage()
      requires Valid()
      modifies this
      ensures Valid()
      ensures currentImage == Cyclic.Prev(old(currentImage), |OfferFor(id).images|)
    {
      currentImage := Cyclic.Prev(currentImage, |OfferFor(id).images|);
    }

    /** A click on dot `index`, one of the dots drawn per picture. */
    method SelectImage(index: nat)
      requires index < |OfferFor(id).images|
      modifies this
      ensures Valid()
      ensures currentImage == index
      ensures Cyclic.HighlightedDots(currentImage, |OfferFor(id).images|) == {index}
    {
      currentImage := index;
      Cyclic.ExactlyOneDot(index, |OfferFor(id).images|);
    }
  }

  /** Each arrow undoes the other. */
  method ArrowsCancel(page: OfferDetailPage, leftFirst: bool)
    requires page.Valid()
    modifies page
    ensures page.Valid()
    ensures page.currentImage == old(page.currentImage)
  {
    var n := |OfferFor(page.id).images|;
    if leftFirst {
      page.PrevImage();
      page.NextImage();
      Cyclic.NextUndoesPrev(old(page.currentImage), n);
    } else {
      page.NextImage();
      page.PrevImage();
      Cyclic.PrevUndoesNext(old(page.currentImage), n);
    }
  }
}
