/** The photo gallery: a grid of the trainer's photos opening into the shared viewer. */
module GallerySection {
  import opened Wrappers
  import opened Lightbox

  datatype GalleryImage = GalleryImage(id: nat, src: string, alt: string)

  /** The gallery's photos, in grid order. */
  const GalleryImages: seq<GalleryImage> := [
    GalleryImage(1, "/images/gallery/photo1.jpg", "Ivan in gym"),
    GalleryImage(2, "/images/gallery/photo2.jpg", "Ivan mirror selfie"),
    GalleryImage(3, "/images/gallery/photo3.jpg", "Ivan training"),
    GalleryImage(4, "/images/gallery/photo4.jpg", "Ivan with client"),
    GalleryImage(5, "/images/gallery/photo5.jpg", "Ivan competition"),
    GalleryImage(6, "/images/gallery/photo6.jpg", "Ivan photo 6"),
    GalleryImage(7, "/images/gallery/photo7.jpg", "Ivan photo 7"),
    GalleryImage(8, "/images/gallery/photo8.jpg", "Ivan photo 8")
  ]

  /** The gallery's viewer, closed, over all of its photos. */
  method NewGalleryLightbox(page: Body) returns (view: LightboxView)
    ensures fresh(view) && view.Valid()
    ensures view.count == |GalleryImages| == 8
    ensures view.body == page && view.selected == None
  {
    view := new LightboxView(|GalleryImages|, page);
  }

  /** The last photo steps forward to the first, and the first steps back to the last. */
  lemma GalleryWrapsAround()
    ensures Next(7, |GalleryImages|) == 0
    ensures Previous(0, |GalleryImages|) == 7
  {
  }

  /** Eight forward steps from any photo return to it. */
  lemma GalleryFullCycle(i: nat)
    requires i < |GalleryImages|
    ensures Advance(i, |GalleryImages|, |GalleryImages|) == i
  {
    AdvanceFullCycle(i, |GalleryImages|);
  }
}
