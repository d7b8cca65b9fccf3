/** The create-workout page's controller
    (src/pages/create-workout/ui/create-workout-page-logic-layer.tsx): the
    list name, its description and the draft exercises being edited, the
    three draft edits, and the submit check that decides whether a
    `CreateWorkoutListDto` goes on to the store. Fresh temporary identifiers
    are inputs of `AddExercise`. */
module CreateWorkoutPage {
  import opened Base
  import opened Text
  import opened ExerciseTypes
  import opened WorkoutListTypes
  import opened WorkoutListModel

  /** One draft exercise of the form, keyed by a temporary identifier. */
  datatype ExerciseFormData = ExerciseFormData(
    tempId: string,
    name: string,
    muscleGroup: MuscleGroup,
    weight: int,
    reps: int,
    sets: int)

  /** `updateExercise(tempId, field, value)`'s field and value, paired so that
      each field receives a value of its own type. */
  datatype FieldUpdate =
    | TempId(tempId: string)
    | Name(name: string)
    | Group(muscleGroup: MuscleGroup)
    | Weight(weight: int)
    | Reps(reps: int)
    | Sets(sets: int)

  /** The alert texts of a rejected submit. */
  const NAME_REQUIRED := "Please enter a list name"
  const EXERCISES_REQUIRED := "Please add at least one exercise"
  const INVALID_EXERCISE := "Please check exercise data validity"

  // ---------------------------------------------------------------- draft edits

  /** The draft `addExercise()` appends: no name, chest, no weight, 10 reps, 3 sets. */
  function DefaultDraft(tempId: string): (d: ExerciseFormData)
  {
    ExerciseFormData(tempId, "", Chest, 0, 10, 3)
  }

  /** `[...exercises, default]`. */
  function WithDefaultDraft(ds: seq<ExerciseFormData>, tempId: string): (r: seq<ExerciseFormData>)
    ensures |r| == |ds| + 1 && r[..|ds|] == ds && r[|ds|] == DefaultDraft(tempId)
  {
    ds + [DefaultDraft(tempId)]
  }

  /** `exercises.filter(ex => ex.tempId !== tempId)`. */
  function WithoutDraft(ds: seq<ExerciseFormData>, tempId: string): (r: seq<ExerciseFormData>)
    ensures |r| <= |ds|
    ensures forall j :: 0 <= j < |r| ==> r[j] in ds && r[j].tempId != tempId
    ensures forall j :: 0 <= j < |ds| && ds[j].tempId != tempId ==> ds[j] in r
    ensures (forall j :: 0 <= j < |ds| ==> ds[j].tempId != tempId) ==> r == ds
  {
    Filter(ds, (d: ExerciseFormData) => d.tempId != tempId)
  }

  /** `{ ...ex, [field]: value }`. */
  function ApplyField(d: ExerciseFormData, u: FieldUpdate): (r: ExerciseFormData)
  {
    match u
    case TempId(v) => d.(tempId := v)
    case Name(v) => d.(name := v)
    case Group(v) => d.(muscleGroup := v)
    case Weight(v) => d.(weight := v)
    case Reps(v) => d.(reps := v)
    case Sets(v) => d.(sets := v)
  }

  /** The two drafts agree on every field except, possibly, the one `u` names. */
  predicate SameExceptField(a: ExerciseFormData, b: ExerciseFormData, u: FieldUpdate)
  {
    && (u.TempId? || a.tempId == b.tempId)
    && (u.Name? || a.name == b.name)
    && (u.Group? || a.muscleGroup == b.muscleGroup)
    && (u.Weight? || a.weight == b.weight)
    && (u.Reps? || a.reps == b.reps)
    && (u.Sets? || a.sets == b.sets)
  }

  /** The field `u` names, read out of `d`, as an update of that field. */
  function FieldOf(d: ExerciseFormData, u: FieldUpdate): FieldUpdate
  {
    match u
    case TempId(_) => TempId(d.tempId)
    case Name(_) => Name(d.name)
    case Group(_) => Group(d.muscleGroup)
    case Weight(_) => Weight(d.weight)
    case Reps(_) => Reps(d.reps)
    case Sets(_) => Sets(d.sets)
  }

  /** `exercises.map(ex => ex.tempId === tempId ? { ...ex, [field]: value } : ex)`. */
  function WithUpdatedDraft(ds: seq<ExerciseFormData>, tempId: string, u: FieldUpdate): (r: seq<ExerciseFormData>)
    ensures |r| == |ds|
  {
    seq(|ds|, j requires 0 <= j < |ds| => if ds[j].tempId == tempId then ApplyField(ds[j], u) else ds[j])
  }

  /** Writing a field gives it the written value and leaves the other five as
      they were; writing it again changes nothing more. */
  lemma ApplyFieldChangesOnlyIt(d: ExerciseFormData, u: FieldUpdate)
    ensures FieldOf(ApplyField(d, u), u) == u
    ensures SameExceptField(d, ApplyField(d, u), u)
    ensures ApplyField(ApplyField(d, u), u) == ApplyField(d, u)
    ensures ApplyField(d, FieldOf(d, u)) == d
  {
  }

  /** An update changes only the named field, and only of the drafts carrying
      that temporary identifier (all of them, not just the first); the
      others keep their place and contents. */
  lemma UpdateChangesOnlyNamedField(ds: seq<ExerciseFormData>, tempId: string, u: FieldUpdate)
    ensures var r := WithUpdatedDraft(ds, tempId, u);
      && |r| == |ds|
      && (forall j :: 0 <= j < |ds| && ds[j].tempId != tempId ==> r[j] == ds[j])
      && (forall j :: 0 <= j < |ds| && ds[j].tempId == tempId ==>
            FieldOf(r[j], u) == u && SameExceptField(ds[j], r[j], u))
  {
    var r := WithUpdatedDraft(ds, tempId, u);
    forall j | 0 <= j < |ds| && ds[j].tempId == tempId
      ensures FieldOf(r[j], u) == u && SameExceptField(ds[j], r[j], u)
    {
      ApplyFieldChangesOnlyIt(ds[j], u);
    }
  }

  /** An update of an identifier no draft carries changes nothing. */
  lemma UpdateUnknownIsNoOp(ds: seq<ExerciseFormData>, tempId: string, u: FieldUpdate)
    requires forall j :: 0 <= j < |ds| ==> ds[j].tempId != tempId
    ensures WithUpdatedDraft(ds, tempId, u) == ds
  {
  }

  /** Adding a draft under a fresh identifier and removing that identifier
      gives back the drafts as they were. */
  lemma {:induction false} AddThenRemoveRestores(ds: seq<ExerciseFormData>, tempId: string)
    requires forall j :: 0 <= j < |ds| ==> ds[j].tempId != tempId
    ensures WithoutDraft(WithDefaultDraft(ds, tempId), tempId) == ds
  {
    var keep := (d: ExerciseFormData) => d.tempId != tempId;
    FilterAppend(ds, [DefaultDraft(tempId)], keep);
    assert Filter([DefaultDraft(tempId)], keep) == [];
  }

  /** Removal keeps the order of the drafts it keeps and removing twice is removing once. */
  lemma {:induction false} RemoveKeepsOrder(a: seq<ExerciseFormData>, b: seq<ExerciseFormData>, tempId: string)
    ensures WithoutDraft(a + b, tempId) == WithoutDraft(a, tempId) + WithoutDraft(b, tempId)
    ensures WithoutDraft(WithoutDraft(a, tempId), tempId) == WithoutDraft(a, tempId)
  {
    FilterAppend(a, b, (d: ExerciseFormData) => d.tempId != tempId);
    FilterIdempotent(a, (d: ExerciseFormData) => d.tempId != tempId);
  }

  // ---------------------------------------------------------------- handleSubmit

  /** The per-draft test of `handleSubmit`: a blank name once trimmed, a
      negative weight, or a non-positive number of reps or sets. */
  predicate IsInvalidDraft(d: ExerciseFormData)
  {
    IsBlank(d.name) || d.weight < 0 || d.reps <= 0 || d.sets <= 0
  }

  /** `exercises.find(invalid)`. */
  function FindInvalidDraft(ds: seq<ExerciseFormData>): (r: Option<ExerciseFormData>)
    ensures r.None? <==> forall j :: 0 <= j < |ds| ==> !IsInvalidDraft(ds[j])
  {
    Find(ds, (d: ExerciseFormData) => IsInvalidDraft(d))
  }

  /** A draft as the DTO carries it: everything but the temporary identifier. */
  function ToExerciseDto(d: ExerciseFormData): (e: ExerciseDto)
  {
    ExerciseDto(d.name, d.muscleGroup, d.weight, d.reps, d.sets)
  }

  /** `exercises.map(({ ...ex }) => ex)`, each copy as the DTO carries it. */
  function ToExerciseDtos(ds: seq<ExerciseFormData>): (r: seq<ExerciseDto>)
    ensures |r| == |ds| && forall j :: 0 <= j < |ds| ==> r[j] == ToExerciseDto(ds[j])
  {
    seq(|ds|, j requires 0 <= j < |ds| => ToExerciseDto(ds[j]))
  }

  /** `handleSubmit`'s checks and the DTO it emits: the first failing check
      gives its alert text; a submit that passes all three gives the trimmed
      name and description and the drafts in their order. */
  function Submit(name: string, description: string, ds: seq<ExerciseFormData>): (r: Result<CreateWorkoutListDto, string>)
    ensures r.Success? <==> !IsBlank(name) && |ds| > 0 && forall j :: 0 <= j < |ds| ==> !IsInvalidDraft(ds[j])
    ensures IsBlank(name) ==> r == Failure(NAME_REQUIRED)
    ensures !IsBlank(name) && |ds| == 0 ==> r == Failure(EXERCISES_REQUIRED)
    ensures r.Failure? && !IsBlank(name) && |ds| > 0 ==> r == Failure(INVALID_EXERCISE)
    ensures r.Success? ==>
      && r.value.name == Trim(name) && r.value.name != []
      && r.value.description == Trim(description)
      && |r.value.exercises| == |ds|
      && forall j :: 0 <= j < |ds| ==> r.value.exercises[j] == ToExerciseDto(ds[j])
  {
    if IsBlank(name) then Failure(NAME_REQUIRED)
    else if |ds| == 0 then Failure(EXERCISES_REQUIRED)
    else if FindInvalidDraft(ds).Some? then Failure(INVALID_EXERCISE)
    else Success(CreateWorkoutListDto(Trim(name), Trim(description), ToExerciseDtos(ds)))
  }

  /** Every exercise of an accepted DTO has a non-blank name, a non-negative
      weight and at least one rep and one set. */
  lemma AcceptedExercisesValid(name: string, description: string, ds: seq<ExerciseFormData>)
    requires Submit(name, description, ds).Success?
    ensures var dto := Submit(name, description, ds).value;
      forall j :: 0 <= j < |dto.exercises| ==>
        && !IsBlank(dto.exercises[j].name)
        && dto.exercises[j].weight >= 0 && dto.exercises[j].reps >= 1 && dto.exercises[j].sets >= 1
  {
    var dto := Submit(name, description, ds).value;
    forall j | 0 <= j < |dto.exercises|
      ensures !IsBlank(dto.exercises[j].name) && dto.exercises[j].weight >= 0
      ensures dto.exercises[j].reps >= 1 && dto.exercises[j].sets >= 1
    {
      assert !IsInvalidDraft(ds[j]);
    }
  }

  /** The list the store builds from an accepted DTO is well formed, and
      every exercise of it starts below its target, so its first marked
      set always counts. */
  lemma AcceptedListStartsBelowTarget(name: string, description: string, ds: seq<ExerciseFormData>,
                                      listId: string, exerciseIds: nat -> string, createdAt: string)
    requires Submit(name, description, ds).Success?
    ensures var l := BuildList(Submit(name, description, ds).value, listId, exerciseIds, createdAt);
      && WellFormed(l)
      && |l.exercises| == |ds| > 0
      && forall j :: 0 <= j < |l.exercises| ==> l.exercises[j].completedSets == 0 < l.exercises[j].sets
  {
    var dto := Submit(name, description, ds).value;
    AcceptedExercisesValid(name, description, ds);
    BuildListWellFormed(dto, listId, exerciseIds, createdAt);
  }

  // ---------------------------------------------------------------- the controller

  class CreateWorkoutLogic {
    var name: string
    var description: string
    var exercises: seq<ExerciseFormData>

    /** The empty form. */
    constructor ()
      ensures name == "" && description == "" && exercises == []
    {
      name := "";
      description := "";
      exercises := [];
    }

    method SetName(v: string)
      modifies this
      ensures name == v && description == old(description) && exercises == old(exercises)
    {
      name := v;
    }

    method SetDescription(v: string)
      modifies this
      ensures description == v && name == old(name) && exercises == old(exercises)
    {
      description := v;
    }

    /** `addExercise()`; `tempId` stands for the identifier generated inside it. */
    method AddExercise(tempId: string)
      modifies this
      ensures exercises == WithDefaultDraft(old(exercises), tempId)
      ensures name == old(name) && description == old(description)
    {
      exercises := exercises + [DefaultDraft(tempId)];
    }

    method RemoveExercise(tempId: string)
      modifies this
      ensures exercises == WithoutDraft(old(exercises), tempId)
      ensures name == old(name) && description == old(description)
    {
      exercises := WithoutDraft(exercises, tempId);
    }

    method UpdateExercise(tempId: string, u: FieldUpdate)
      modifies this
      ensures exercises == WithUpdatedDraft(old(exercises), tempId, u)
      ensures name == old(name) && description == old(description)
    {
      exercises := WithUpdatedDraft(exercises, tempId, u);
    }

    /** `handleSubmit()`: the DTO handed to the store, or the alert shown;
        the form itself is left as it is. */
    method HandleSubmit() returns (r: Result<CreateWorkoutListDto, string>)
      ensures r == Submit(name, description, exercises)
    {
      if IsBlank(name) {
        return Failure(NAME_REQUIRED);
      }
      if |exercises| == 0 {
        return Failure(EXERCISES_REQUIRED);
      }
      var invalidExercise := FindInvalidDraft(exercises);
      if invalidExercise.Some? {
        return Failure(INVALID_EXERCISE);
      }
      r := Success(CreateWorkoutListDto(Trim(name), Trim(description), ToExerciseDtos(exercises)));
    }
  }
}
