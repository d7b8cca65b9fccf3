/** The add-exercise form's controller
    (src/features/add-exercise/ui/add-exercise-form-logic-layer.tsx): three
    fields, a submit that hands them on unless the name is blank and then
    clears the form, and the flag that disables the submit button. */
module AddExerciseFeature {
  import opened Base
  import opened Text
  import opened ExerciseTypes
  import opened ExerciseModel

  /** What a submit hands to `onAdd`, or nothing when the name is blank. */
  function SubmitOutcome(name: string, description: string, muscleGroup: MuscleGroup): (r: Option<CreateExerciseDto>)
    ensures r.None? <==> forall i :: 0 <= i < |name| ==> IsWhitespace(name[i])
    ensures r.Some? ==> r.value == CreateExerciseDto(name, description, muscleGroup)
  {
    BlankIffAllWhitespace(name);
    if IsBlank(name) then None else Some(CreateExerciseDto(name, description, muscleGroup))
  }

  /** What the data layer does with an accepted submit: the catalogue gains
      exactly one exercise carrying the name as typed (not trimmed), the
      description and the muscle group. */
  lemma SubmittedExerciseAppended(es: seq<Exercise>, name: string, description: string, muscleGroup: MuscleGroup,
                                  id: string, createdAt: string)
    requires SubmitOutcome(name, description, muscleGroup).Some?
    ensures var t := es + [NewExercise(SubmitOutcome(name, description, muscleGroup).value, id, createdAt)];
      && |t| == |es| + 1 && t[..|es|] == es
      && t[|es|] == Exercise(id, name, description, muscleGroup, createdAt)
      && exists i :: 0 <= i < |name| && !IsWhitespace(t[|es|].name[i])
  {
    var i :| 0 <= i < |name| && !IsWhitespace(name[i]);
    var t := es + [NewExercise(SubmitOutcome(name, description, muscleGroup).value, id, createdAt)];
    assert t[|es|].name[i] == name[i];
  }

  class AddExerciseFormLogic {
    var name: string
    var description: string
    var muscleGroup: MuscleGroup

    /** The initial form: empty name and description, chest. */
    constructor ()
      ensures name == "" && description == "" && muscleGroup == Chest
    {
      name := "";
      description := "";
      muscleGroup := Chest;
    }

    method SetName(v: string)
      modifies this
      ensures name == v && description == old(description) && muscleGroup == old(muscleGroup)
    {
      name := v;
    }

    method SetDescription(v: string)
      modifies this
      ensures description == v && name == old(name) && muscleGroup == old(muscleGroup)
    {
      description := v;
    }

    method SetMuscleGroup(v: MuscleGroup)
      modifies this
      ensures muscleGroup == v && name == old(name) && description == old(description)
    {
      muscleGroup := v;
    }

    /** `handleSubmit()`: the arguments of the one `onAdd` call, if any. A blank
        name leaves the form as it is; otherwise the form is cleared. */
    method HandleSubmit() returns (added: Option<CreateExerciseDto>)
      modifies this
      ensures added == SubmitOutcome(old(name), old(description), old(muscleGroup))
      ensures added.None? ==> name == old(name) && description == old(description) && muscleGroup == old(muscleGroup)
      ensures added.Some? ==> name == "" && description == "" && muscleGroup == Chest
    {
      if IsBlank(name) {
        return None;
      }
      added := Some(CreateExerciseDto(name, description, muscleGroup));
      name := "";
      description := "";
      muscleGroup := Chest;
    }

    /** `isDisabled`: the name is blank, that is, made of white space only. */
    predicate IsDisabled()
      reads this
      ensures IsDisabled() <==> forall i :: 0 <= i < |name| ==> IsWhitespace(name[i])
      ensures IsDisabled() <==> SubmitOutcome(name, description, muscleGroup).None?
    {
      BlankIffAllWhitespace(name);
      IsBlank(name)
    }
  }
}
