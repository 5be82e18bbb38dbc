/**
 * The fixed, ordered catalog of exercises (src/data/workout.ts). Its
 * index order is the order of the workout.
 */
module Catalog {

  /** An exercise; `canMirror` is false where the source leaves the flag out. */
  datatype Exercise = Exercise(id: int, name: string, duration: int, canMirror: bool)

  const WORKOUT: seq<Exercise> := [
    Exercise(1, "Simple Elbow Plank", 45, false),
    Exercise(2, "Slow Mountain Climber", 45, false),
    Exercise(3, "Plank to Dolphin", 45, false),
    Exercise(4, "Single Leg Plank", 45, true),
    Exercise(5, "Plank Hip Dip", 45, false),
    Exercise(6, "Side Plank", 45, true),
    Exercise(7, "Spiderman Plank", 45, false),
    Exercise(8, "Single Arm Plank", 45, true),
    Exercise(9, "Commando Plank", 45, false),
    Exercise(10, "Plank Jacks", 45, false)
  ]

  /** Ten exercises, numbered 1 to 10 in order, each nominally 45 s long. */
  lemma CatalogShape()
    ensures |WORKOUT| == 10
    ensures forall i :: 0 <= i < |WORKOUT| ==> WORKOUT[i].id == i + 1 && WORKOUT[i].duration == 45
  {
  }

  /** Exactly the exercises at indices 3, 5 and 7 can be mirrored. */
  lemma MirroredExercises()
    ensures forall i :: 0 <= i < |WORKOUT| ==> (WORKOUT[i].canMirror <==> i == 3 || i == 5 || i == 7)
  {
  }

  /** Exercise names are pairwise different (they serve as list keys). */
  lemma NamesDistinct()
    ensures forall i, j :: 0 <= i < j < |WORKOUT| ==> WORKOUT[i].name != WORKOUT[j].name
  {
  }
}
