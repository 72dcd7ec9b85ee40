/** The client transformations: five before/after photos opening into the shared viewer. */
module TransformationsSection {
  import opened Wrappers
  import opened Lightbox

  datatype Kind = Gain | Loss

  /** One client's result: the photo, the change in weight, how long it took (in each language) and its direction. */
  datatype Transformation = Transformation(id: nat, image: string, result: string, durationUa: string, durationPl: string, kind: Kind)

  const Transformations: seq<Transformation> := [
    Transformation(1, "/images/transformations/transform1.jpg", "+11 kg", "6 місяців", "6 miesięcy", Gain),
    Transformation(2, "/images/transformations/transform2.jpg", "-7 kg", "2 місяці", "2 miesiące", Loss),
    Transformation(3, "/images/transformations/transform3.jpg", "-6 kg", "2 місяці", "2 miesiące", Loss),
    Transformation(4, "/images/transformations/transform4.jpg", "+13 kg", "1 рік", "1 rok", Gain),
    Transformation(5, "/images/transformations/transform5.jpg", "+6 kg", "2 місяці", "2 miesiące", Gain)
  ]

  /** The section's viewer, closed, over all five transformations. */
  method NewTransformationsLightbox(page: Body) returns (view: LightboxView)
    ensures fresh(view) && view.Valid()
    ensures view.count == |Transformations| == 5
    ensures view.body == page && view.selected == None
  {
    view := new LightboxView(|Transformations|, page);
  }

  /** The fifth transformation steps forward to the first, and the first steps back to the fifth. */
  lemma TransformationsWrapAround()
    ensures Next(4, |Transformations|) == 0
    ensures Previous(0, |Transformations|) == 4
  {
  }

  /** Forward and back undo each other on every transformation. */
  lemma TransformationsStepsInvert(i: nat)
    requires i < |Transformations|
    ensures Next(Previous(i, |Transformations|), |Transformations|) == i
    ensures Previous(Next(i, |Transformations|), |Transformations|) == i
  {
    NextAfterPrevious(i, |Transformations|);
    PreviousAfterNext(i, |Transformations|);
  }

  /** Five forward steps from any transformation return to it. */
  lemma TransformationsFullCycle(i: nat)
    requires i < |Transformations|
    ensures Advance(i, 5, 5) == i
  {
    AdvanceFullCycle(i, |Transformations|);
  }
}
