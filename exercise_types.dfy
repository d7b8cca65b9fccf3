/** The exercise catalogue's records (src/entities/exercise/model/types.ts). */
module ExerciseTypes {
  import opened Base

  /** The fixed set of muscle-group tags. */
  datatype MuscleGroup = Chest | Back | Legs | Shoulders | Arms | Core | Cardio

  /** An exercise of the catalogue; `createdAt` is an ISO-8601 time stamp. */
  datatype Exercise = Exercise(id: string, name: string, description: string, muscleGroup: MuscleGroup, createdAt: string)

  /** What the add-exercise form hands to the store. */
  datatype CreateExerciseDto = CreateExerciseDto(name: string, description: string, muscleGroup: MuscleGroup)

  /** `Partial<Exercise>`: each field either absent or the value to assign. */
  datatype ExercisePatch = ExercisePatch(
    id: Option<string>,
    name: Option<string>,
    description: Option<string>,
    muscleGroup: Option<MuscleGroup>,
    createdAt: Option<string>)

  /** The patch that names no field. */
  const EmptyPatch := ExercisePatch(None, None, None, None, None)
}
