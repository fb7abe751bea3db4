/** The partner detail page (`/partners/:id`): a fixed mock partner with a three-picture
    gallery and a favourite heart that toggles. */
module PartnerDetail {
  import Cyclic

  datatype PartnerDetails = PartnerDetails(
    id: nat,
    name: string,
    category: string,
    images: seq<string>,
    discount: string,
    address: string,
    city: string,
    phone: string)

  const MockPartner := PartnerDetails(
    1,
    "Farmácia São Paulo",
    "Farmácia",
    ["https://images.unsplash.com/photo-1584308666744-24d5c474f2ae?w=400&h=300&fit=crop",
     "https://images.unsplash.com/photo-1576091160399-112ba8d25d1f?w=400&h=300&fit=crop",
     "https://images.unsplash.com/photo-1559757148-5c350d0d3c56?w=400&h=300&fit=crop"],
    "8%",
    "Rua das Flores, 123 - Centro",
    "São Paulo - SP",
    "(11) 99999-9999")

  /** The gallery always has three distinct pictures. */
  lemma GalleryShape()
    ensures |MockPartner.images| == 3
    ensures forall i, j :: 0 <= i < j < 3 ==> MockPartner.images[i] != MockPartner.images[j]
  {
  }

  class PartnerDetailPage {
    var currentImage: nat
    var isFavorited: bool

    predicate Valid()
      reads this
    {
      currentImage < |MockPartner.images|
    }

    /** The page opens on the first picture, not favourited. */
    constructor()
      ensures Valid()
      ensures currentImage == 0 && !isFavorited
    {
      currentImage := 0;
      isFavorited := false;
    }

    /** The picture on show. */
    function Picture(): (url: string)
      requires Valid()
      reads this
      ensures url in MockPartner.images
    {
      MockPartner.images[currentImage]
    }

    /** The right arrow; the heart is left alone. */
    method NextImage()
      requires Valid()
      modifies this
      ensures Valid()
      ensures currentImage == Cyclic.Next(old(currentImage), |MockPartner.images|)
      ensures isFavorited == old(isFavorited)
    {
      currentImage := (currentImage + 1) % |MockPartner.images|;
    }

    /** The left arrow; the heart is left alone. */
    method PrevImage()
      requires Valid()
      modifies this
      ensures Valid()
      ensures currentImage == Cyclic.Prev(old(currentImage), |MockPartner.images|)
      ensures isFavorited == old(isFavorited)
    {
      currentImage := Cyclic.Prev(currentImage, |MockPartner.images|);
    }

    /** A click on dot `index`; the heart is left alone. */
    method SelectImage(index: nat)
      requires index < |MockPartner.images|
      modifies this
      ensures Valid()
      ensures currentImage == index
      ensures isFavorited == old(isFavorited)
      ensures Cyclic.HighlightedDots(currentImage, |MockPartner.images|) == {index}
    {
      currentImage := index;
      Cyclic.ExactlyOneDot(index, |MockPartner.images|);
    }

    /** The heart button flips the favourite flag and leaves the gallery where it was. */
    method ToggleFavorite()
      modifies this
      ensures isFavorited == !old(isFavorited)
      ensures currentImage == old(currentImage)
    {
      isFavorited := !isFavorited;
    }
  }

  /** Two clicks on the heart restore the flag. */
  method ToggleTwice(page: PartnerDetailPage)
    modifies page
    ensures page.isFavorited == old(page.isFavorited)
    ensures page.currentImage == old(page.currentImage)
  {
    page.ToggleFavorite();
    page.ToggleFavorite();
  }

  /** Each arrow undoes the other, and neither touches the heart. */
  method ArrowsCancel(page: PartnerDetailPage, leftFirst: bool)
    requires page.Valid()
    modifies page
    ensures page.Valid()
    ensures page.currentImage == old(page.currentImage)
    ensures page.isFavorited == old(page.isFavorited)
  {
    var n := |MockPartner.images|;
    if leftFirst {
      page.PrevImage();
      page.NextImage();
      Cyclic.NextUndoesPrev(old(page.currentImage), n);
    } else {
      page.NextImage();
      page.PrevImage();
      Cyclic.PrevUndoesNext(old(page.currentImage), n);
    }
  }
}
