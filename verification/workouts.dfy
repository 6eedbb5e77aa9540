/**
 * The two fixed workouts, the guarded workout-type choice, and the
 * completed-exercise list kept without duplicates (app.js:5-26, 116-120,
 * 449-451).
 */
module Workouts {
  import opened Wrappers

  datatype WorkoutType = A | B

  const ExerciseCount: nat := 8

  predicate NoDup(xs: seq<string>)
  {
    forall i, j :: 0 <= i < j < |xs| ==> xs[i] != xs[j]
  }

  /** Every element of xs occurs in ys. */
  predicate AllIn(xs: seq<string>, ys: seq<string>)
  {
    forall x :: x in xs ==> x in ys
  }

  /** The exercise names of a workout, in order. */
  function Exercises(t: WorkoutType): (r: seq<string>)
    ensures |r| == ExerciseCount
  {
    match t
    case A => ["Leg Press", "Pulldown", "Chest Press", "Overhead Press",
               "Leg Curl", "Bicep Curl", "Tricep Extension", "Calf Raise"]
    case B => ["Leg Extension", "Seated Row", "Incline Press", "Lateral Raise",
               "Leg Curl", "Shrug", "Ab Crunch", "Back Extension"]
  }

  /** No workout lists an exercise twice, so its names identify its exercises. */
  lemma ExercisesDistinct(t: WorkoutType)
    ensures NoDup(Exercises(t))
  {
  }

  function Name(t: WorkoutType): string
  {
    match t
    case A => "A"
    case B => "B"
  }

  /** The guard of selectWorkoutType: only "A" and "B" are accepted, each as itself. */
  function ParseWorkoutType(s: string): (r: Option<WorkoutType>)
    ensures r.Some? <==> s == "A" || s == "B"
    ensures r.Some? ==> Name(r.value) == s
  {
    if s == "A" then Some(A) else if s == "B" then Some(B) else None
  }

  /**
   * logSet's push-if-absent: x is added at the end unless already there.
   * The result holds x, keeps the old list as a prefix, grows by at most
   * one (and then only by x), and has no duplicates when xs had none.
   */
  function Include(xs: seq<string>, x: string): (r: seq<string>)
    ensures x in r
    ensures |xs| <= |r| <= |xs| + 1 && r[..|xs|] == xs
    ensures |r| == |xs| + 1 ==> r[|xs|] == x && x !in xs
    ensures NoDup(xs) ==> NoDup(r)
  {
    if x in xs then xs else xs + [x]
  }

  /** Including the same name twice is including it once. */
  lemma IncludeTwice(xs: seq<string>, x: string)
    ensures Include(Include(xs, x), x) == Include(xs, x)
  {
  }

  function Elements(xs: seq<string>): set<string>
  {
    set x | x in xs
  }

  lemma {:induction false} ElementsOfDistinct(xs: seq<string>)
    requires NoDup(xs)
    ensures |Elements(xs)| == |xs|
  {
    if xs != [] {
      ElementsOfDistinct(xs[1..]);
      assert Elements(xs) == {xs[0]} + Elements(xs[1..]);
      assert xs[0] !in Elements(xs[1..]);
    }
  }

  lemma {:induction false} ElementsBound(ys: seq<string>)
    ensures |Elements(ys)| <= |ys|
  {
    if ys != [] {
      ElementsBound(ys[1..]);
      assert Elements(ys) == {ys[0]} + Elements(ys[1..]);
    }
  }

  /** A list without duplicates drawn from ys is no longer than ys. */
  lemma NoDupBound(xs: seq<string>, ys: seq<string>)
    requires NoDup(xs) && AllIn(xs, ys)
    ensures |xs| <= |ys|
  {
    ElementsOfDistinct(xs);
    ElementsBound(ys);
    var small, large := Elements(xs), Elements(ys);
    assert small <= large;
    assert large == small + (large - small);
    assert |large| == |small| + |large - small|;
  }

  /** So the progress count "completed/total" never exceeds the total. */
  lemma CompletedBound(xs: seq<string>, t: WorkoutType)
    requires NoDup(xs) && AllIn(xs, Exercises(t))
    ensures |xs| <= ExerciseCount
  {
    NoDupBound(xs, Exercises(t));
  }
}
