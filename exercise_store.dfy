/** The exercise-catalogue store (src/entities/exercise/model/store.ts): an
    ordered list of exercises with a loading flag and an error message, and
    the actions that change them. The store never persists anything.
    Generated identifiers and time stamps are inputs of `AddExercise`. */
module ExerciseModel {
  import opened Base
  import opened ExerciseTypes

  /** The store's three fields. */
  datatype CatalogState = CatalogState(exercises: seq<Exercise>, isLoading: bool, error: Option<string>)

  /** The position of the first exercise with identifier `id`, or -1. */
  function IndexOfCatalogExercise(es: seq<Exercise>, id: string): (r: int)
    ensures -1 <= r < |es|
    ensures r >= 0 ==> es[r].id == id && forall j :: 0 <= j < r ==> es[j].id != id
    ensures r == -1 <==> forall j :: 0 <= j < |es| ==> es[j].id != id
  {
    FindIndex(es, (e: Exercise) => e.id == id)
  }

  /** `exercises.filter(ex => ex.id !== id)`. */
  function WithoutExercise(es: seq<Exercise>, id: string): (r: seq<Exercise>)
    ensures |r| <= |es|
    ensures forall j :: 0 <= j < |r| ==> r[j] in es && r[j].id != id
    ensures forall j :: 0 <= j < |es| && es[j].id != id ==> es[j] in r
    ensures IndexOfCatalogExercise(es, id) == -1 ==> r == es
  {
    Filter(es, (e: Exercise) => e.id != id)
  }

  /** The record `addExercise(dto)` builds: the fresh identifier, the fields
      of the form and the creation time stamp. */
  function NewExercise(dto: CreateExerciseDto, id: string, createdAt: string): (e: Exercise)
    ensures e.id == id && e.createdAt == createdAt
    ensures e.name == dto.name && e.description == dto.description && e.muscleGroup == dto.muscleGroup
  {
    Exercise(id, dto.name, dto.description, dto.muscleGroup, createdAt)
  }

  /** `Object.assign(exercise, updates)`: each field the patch names takes the
      patch's value, every other field keeps its own. */
  function MergeExercise(e: Exercise, p: ExercisePatch): (r: Exercise)
    ensures r.id == (if p.id.Some? then p.id.value else e.id)
    ensures r.name == (if p.name.Some? then p.name.value else e.name)
    ensures r.description == (if p.description.Some? then p.description.value else e.description)
    ensures r.muscleGroup == (if p.muscleGroup.Some? then p.muscleGroup.value else e.muscleGroup)
    ensures r.createdAt == (if p.createdAt.Some? then p.createdAt.value else e.createdAt)
  {
    Exercise(
      if p.id.Some? then p.id.value else e.id,
      if p.name.Some? then p.name.value else e.name,
      if p.description.Some? then p.description.value else e.description,
      if p.muscleGroup.Some? then p.muscleGroup.value else e.muscleGroup,
      if p.createdAt.Some? then p.createdAt.value else e.createdAt)
  }

  /** `updateExercise(id, updates)` on the list: merge the patch into the first
      exercise with that identifier; with none, nothing changes. */
  function PatchFirstExercise(es: seq<Exercise>, id: string, p: ExercisePatch): (r: seq<Exercise>)
    ensures |r| == |es|
  {
    var i := IndexOfCatalogExercise(es, id);
    if i < 0 then es else es[i := MergeExercise(es[i], p)]
  }

  // ---------------------------------------------------------------- properties

  /** An empty patch changes nothing. */
  lemma MergeEmptyIsIdentity(e: Exercise)
    ensures MergeExercise(e, EmptyPatch) == e
  {
  }

  /** Applying the same patch twice is applying it once. */
  lemma MergeIdempotent(e: Exercise, p: ExercisePatch)
    ensures MergeExercise(MergeExercise(e, p), p) == MergeExercise(e, p)
  {
  }

  /** A later patch overrides an earlier one field by field. */
  lemma MergeOverrides(e: Exercise, p: ExercisePatch, q: ExercisePatch)
    ensures MergeExercise(MergeExercise(e, p), q) == MergeExercise(e, ExercisePatch(
      if q.id.Some? then q.id else p.id,
      if q.name.Some? then q.name else p.name,
      if q.description.Some? then q.description else p.description,
      if q.muscleGroup.Some? then q.muscleGroup else p.muscleGroup,
      if q.createdAt.Some? then q.createdAt else p.createdAt))
  {
  }

  /** The new exercise ends the list and the old ones are kept before it.
      Looking its identifier up finds the new exercise when no earlier one
      has that identifier, and the earlier one otherwise. */
  lemma AddAppendsFindable(es: seq<Exercise>, dto: CreateExerciseDto, id: string, createdAt: string)
    ensures var t := es + [NewExercise(dto, id, createdAt)];
      && |t| == |es| + 1 && t[..|es|] == es
      && t[|es|].name == dto.name && t[|es|].description == dto.description && t[|es|].muscleGroup == dto.muscleGroup
      && (IndexOfCatalogExercise(es, id) == -1 ==> IndexOfCatalogExercise(t, id) == |es|)
      && (IndexOfCatalogExercise(es, id) >= 0 ==> IndexOfCatalogExercise(t, id) == IndexOfCatalogExercise(es, id))
  {
    var t := es + [NewExercise(dto, id, createdAt)];
    assert forall j :: 0 <= j < |es| ==> t[j] == es[j];
    assert t[|es|].id == id;
  }

  /** After removal no exercise has the identifier, and every other exercise
      is still there, in the original order. */
  lemma {:induction false} RemoveDropsExactlyId(es: seq<Exercise>, id: string)
    ensures forall j :: 0 <= j < |WithoutExercise(es, id)| ==> WithoutExercise(es, id)[j].id != id
    ensures forall j :: 0 <= j < |es| && es[j].id != id ==> es[j] in WithoutExercise(es, id)
    ensures IndexOfCatalogExercise(WithoutExercise(es, id), id) == -1
    ensures forall a, b :: WithoutExercise(a + b, id) == WithoutExercise(a, id) + WithoutExercise(b, id)
  {
    forall a: seq<Exercise>, b: seq<Exercise>
      ensures WithoutExercise(a + b, id) == WithoutExercise(a, id) + WithoutExercise(b, id)
    {
      FilterAppend(a, b, (e: Exercise) => e.id != id);
    }
  }

  /** Removing twice is removing once. */
  lemma RemoveIdempotent(es: seq<Exercise>, id: string)
    ensures WithoutExercise(WithoutExercise(es, id), id) == WithoutExercise(es, id)
  {
    FilterIdempotent(es, (e: Exercise) => e.id != id);
  }

  /** An update with an unknown identifier changes nothing; otherwise exactly
      the first exercise with that identifier takes the patch, and every other
      position keeps its exercise. */
  lemma UpdatePatchesOnlyFirst(es: seq<Exercise>, id: string, p: ExercisePatch)
    ensures var r := PatchFirstExercise(es, id, p);
      var i := IndexOfCatalogExercise(es, id);
      && (i == -1 ==> r == es)
      && (i >= 0 ==>
            && r[i] == MergeExercise(es[i], p)
            && forall j :: 0 <= j < |es| && j != i ==> r[j] == es[j])
  {
  }

  /** An update that renames nothing keeps the exercise findable under its
      identifier, at the same position, with the patch applied. */
  lemma UpdateKeepsLookup(es: seq<Exercise>, id: string, p: ExercisePatch)
    requires IndexOfCatalogExercise(es, id) >= 0 && p.id.None?
    ensures IndexOfCatalogExercise(PatchFirstExercise(es, id, p), id) == IndexOfCatalogExercise(es, id)
    ensures PatchFirstExercise(es, id, p)[IndexOfCatalogExercise(es, id)] == MergeExercise(es[IndexOfCatalogExercise(es, id)], p)
  {
    var i := IndexOfCatalogExercise(es, id);
    var r := PatchFirstExercise(es, id, p);
    assert forall j :: 0 <= j < i ==> r[j] == es[j];
    assert r[i].id == id;
  }

  // ---------------------------------------------------------------- the store

  class ExerciseStore {
    var exercises: seq<Exercise>
    var isLoading: bool
    var error: Option<string>

    /** The store's fields as one value. */
    function State(): CatalogState
      reads this
    {
      CatalogState(exercises, isLoading, error)
    }

    /** The initial state: no exercises, not loading, no error. */
    constructor ()
      ensures State() == CatalogState([], false, None)
    {
      exercises := [];
      isLoading := false;
      error := None;
    }

    /** `addExercise(dto)`; `id` and `createdAt` stand for the identifier and
        the time stamp generated inside it. */
    method AddExercise(dto: CreateExerciseDto, id: string, createdAt: string)
      modifies this
      ensures exercises == old(exercises) + [NewExercise(dto, id, createdAt)]
      ensures isLoading == old(isLoading) && error == old(error)
    {
      exercises := exercises + [NewExercise(dto, id, createdAt)];
    }

    method RemoveExercise(id: string)
      modifies this
      ensures exercises == WithoutExercise(old(exercises), id)
      ensures isLoading == old(isLoading) && error == old(error)
    {
      exercises := WithoutExercise(exercises, id);
    }

    method UpdateExercise(id: string, updates: ExercisePatch)
      modifies this
      ensures exercises == PatchFirstExercise(old(exercises), id, updates)
      ensures isLoading == old(isLoading) && error == old(error)
    {
      var i := IndexOfCatalogExercise(exercises, id);
      if i >= 0 {
        exercises := exercises[i := MergeExercise(exercises[i], updates)];
      }
    }

    method SetExercises(es: seq<Exercise>)
      modifies this
      ensures State() == old(State()).(exercises := es)
    {
      exercises := es;
    }

    method SetLoading(loading: bool)
      modifies this
      ensures State() == old(State()).(isLoading := loading)
    {
      isLoading := loading;
    }

    method SetError(e: Option<string>)
      modifies this
      ensures State() == old(State()).(error := e)
    {
      error := e;
    }
  }
}
