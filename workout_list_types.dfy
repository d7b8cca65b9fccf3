/** Workout lists and their exercises (src/entities/workout-list/model/types.ts). */
module WorkoutListTypes {
  import opened Base
  import opened ExerciseTypes

  /** An exercise inside one workout list, with its progress `completedSets`. */
  datatype WorkoutExercise = WorkoutExercise(
    id: string,
    name: string,
    muscleGroup: MuscleGroup,
    weight: int,
    reps: int,
    sets: int,
    completedSets: int)

  /** A named, ordered list of exercises; `lastUsedAt` is None until progress is first recorded. */
  datatype WorkoutList = WorkoutList(
    id: string,
    name: string,
    description: string,
    exercises: seq<WorkoutExercise>,
    createdAt: string,
    lastUsedAt: Option<string>)

  /** `Omit<WorkoutExercise, 'id' | 'completedSets'>`: one exercise of a new list. */
  datatype ExerciseDto = ExerciseDto(name: string, muscleGroup: MuscleGroup, weight: int, reps: int, sets: int)

  /** What the create-workout page hands to the store. */
  datatype CreateWorkoutListDto = CreateWorkoutListDto(name: string, description: string, exercises: seq<ExerciseDto>)

  /** `Partial<WorkoutList>`: each field either absent or the value to assign. */
  datatype WorkoutListPatch = WorkoutListPatch(
    id: Option<string>,
    name: Option<string>,
    description: Option<string>,
    exercises: Option<seq<WorkoutExercise>>,
    createdAt: Option<string>,
    lastUsedAt: Option<Option<string>>)

  /** The invariant of one exercise: progress lies between 0 and the target. */
  predicate ProgressInRange(e: WorkoutExercise)
  {
    0 <= e.completedSets <= e.sets
  }

  /** Every exercise of the list keeps its progress in range. */
  predicate WellFormed(l: WorkoutList)
  {
    forall j :: 0 <= j < |l.exercises| ==> ProgressInRange(l.exercises[j])
  }

  /** Every list of the sequence is well formed. */
  predicate AllWellFormed(ls: seq<WorkoutList>)
  {
    forall i :: 0 <= i < |ls| ==> WellFormed(ls[i])
  }

  /** The position of the first list with identifier `id`, or -1. */
  function IndexOfList(ls: seq<WorkoutList>, id: string): (r: int)
    ensures -1 <= r < |ls|
    ensures r >= 0 ==> ls[r].id == id && forall j :: 0 <= j < r ==> ls[j].id != id
    ensures r == -1 <==> forall j :: 0 <= j < |ls| ==> ls[j].id != id
  {
    FindIndex(ls, (l: WorkoutList) => l.id == id)
  }

  /** `lists.find(l => l.id === id)`: the first list with identifier `id`. */
  function FindList(ls: seq<WorkoutList>, id: string): (r: Option<WorkoutList>)
    ensures r.None? <==> IndexOfList(ls, id) == -1
    ensures r.Some? ==> r.value == ls[IndexOfList(ls, id)] && r.value.id == id
  {
    var i := IndexOfList(ls, id);
    if i < 0 then None else Some(ls[i])
  }

  /** The position of the first exercise with identifier `id`, or -1. */
  function IndexOfExercise(es: seq<WorkoutExercise>, id: string): (r: int)
    ensures -1 <= r < |es|
    ensures r >= 0 ==> es[r].id == id && forall j :: 0 <= j < r ==> es[j].id != id
    ensures r == -1 <==> forall j :: 0 <= j < |es| ==> es[j].id != id
  {
    FindIndex(es, (e: WorkoutExercise) => e.id == id)
  }

  /** `lists.filter(l => l.id !== id)`. */
  function WithoutList(ls: seq<WorkoutList>, id: string): (r: seq<WorkoutList>)
    ensures |r| <= |ls|
    ensures forall j :: 0 <= j < |r| ==> r[j] in ls && r[j].id != id
    ensures forall j :: 0 <= j < |ls| && ls[j].id != id ==> ls[j] in r
    ensures IndexOfList(ls, id) == -1 ==> r == ls
  {
    Filter(ls, (l: WorkoutList) => l.id != id)
  }
}
