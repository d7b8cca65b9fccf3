/** The workout-list store (src/entities/workout-list/model/store.ts): the
    in-memory lists, the separately fetched current workout and the error
    message, each action one atomic transition. The actions that change
    lists write through the persistence adapter; loading and setting the
    current workout only read it, and clearing it touches no storage. Fresh
    identifiers, ISO time stamps and whether the browser accepts a write are
    inputs of the actions. */
module WorkoutListModel {
  import opened Base
  import opened ExerciseTypes
  import opened WorkoutListTypes
  import opened WorkoutListApi

  /** The store's fields together with the value the adapter has stored. */
  datatype StoreState = StoreState(
    workoutLists: seq<WorkoutList>,
    currentWorkout: Option<WorkoutList>,
    isLoading: bool,
    error: Option<string>,
    stored: Option<seq<WorkoutList>>)

  /** The invariant: every exercise in memory, in the current workout
      and in storage has `0 <= completedSets <= sets`. */
  predicate Consistent(s: StoreState)
  {
    && AllWellFormed(s.workoutLists)
    && (s.currentWorkout.Some? ==> WellFormed(s.currentWorkout.value))
    && AllWellFormed(ListsOf(s.stored))
  }

  /** Saving a well-formed list into well-formed lists keeps them well formed. */
  lemma UpsertWellFormed(ls: seq<WorkoutList>, list: WorkoutList)
    requires AllWellFormed(ls) && WellFormed(list)
    ensures AllWellFormed(Upsert(ls, list))
  {
  }

  /** The state after a `saveList(list)` issued from a store action: on a
      refused write the stored value stays and `error` takes the message. */
  function AfterSave(s: StoreState, list: WorkoutList, writeOk: bool): (t: StoreState)
    ensures t.workoutLists == s.workoutLists && t.currentWorkout == s.currentWorkout && t.isLoading == s.isLoading
    ensures writeOk ==> t.error == s.error && t.stored == Some(Upsert(ListsOf(s.stored), list))
    ensures !writeOk ==> t.error == Some(WRITE_ERROR) && t.stored == s.stored
  {
    if writeOk then s.(stored := Some(Upsert(ListsOf(s.stored), list)))
    else s.(error := Some(WRITE_ERROR))
  }

  // ---------------------------------------------------------------- loadFromStorage

  /** `loadFromStorage()`: the in-memory lists become the stored ones. The
      adapter never raises on a read, so the error branch cannot occur. */
  function AfterLoad(s: StoreState): (t: StoreState)
    ensures t.workoutLists == ListsOf(s.stored) && !t.isLoading
    ensures t.currentWorkout == s.currentWorkout && t.error == s.error && t.stored == s.stored
  {
    s.(workoutLists := ListsOf(s.stored), isLoading := false)
  }

  lemma LoadPreservesConsistent(s: StoreState)
    requires Consistent(s)
    ensures Consistent(AfterLoad(s))
  {
  }

  // ---------------------------------------------------------------- addWorkoutList

  /** One exercise of a new list: the DTO's fields, a fresh identifier and no progress. */
  function NewWorkoutExercise(dto: ExerciseDto, id: string): (e: WorkoutExercise)
    ensures e.id == id && e.completedSets == 0
    ensures e.name == dto.name && e.muscleGroup == dto.muscleGroup
    ensures e.weight == dto.weight && e.reps == dto.reps && e.sets == dto.sets
  {
    WorkoutExercise(id, dto.name, dto.muscleGroup, dto.weight, dto.reps, dto.sets, 0)
  }

  /** The list `addWorkoutList(dto)` builds: identifier `id`, the DTO's name and
      description, one exercise per DTO exercise in the same order (the j-th
      with identifier `exerciseIds(j)`), created at `createdAt`, never used. */
  function BuildList(dto: CreateWorkoutListDto, id: string, exerciseIds: nat -> string, createdAt: string): (l: WorkoutList)
    ensures l.id == id && l.name == dto.name && l.description == dto.description
    ensures l.createdAt == createdAt && l.lastUsedAt == None
    ensures |l.exercises| == |dto.exercises|
    ensures forall j :: 0 <= j < |l.exercises| ==>
      l.exercises[j] == NewWorkoutExercise(dto.exercises[j], exerciseIds(j))
  {
    var exercises := seq(|dto.exercises|, j requires 0 <= j < |dto.exercises| => NewWorkoutExercise(dto.exercises[j], exerciseIds(j)));
    WorkoutList(id, dto.name, dto.description, exercises, createdAt, None)
  }

  /** A new list starts with no progress; it is well formed exactly when no
      DTO exercise has a negative set count. */
  lemma BuildListWellFormed(dto: CreateWorkoutListDto, id: string, exerciseIds: nat -> string, createdAt: string)
    ensures var l := BuildList(dto, id, exerciseIds, createdAt);
      (forall j :: 0 <= j < |l.exercises| ==> l.exercises[j].completedSets == 0)
      && (WellFormed(l) <==> forall j :: 0 <= j < |dto.exercises| ==> dto.exercises[j].sets >= 0)
  {
    var l := BuildList(dto, id, exerciseIds, createdAt);
    if !WellFormed(l) {
      var j :| 0 <= j < |l.exercises| && !ProgressInRange(l.exercises[j]);
      assert dto.exercises[j].sets < 0;
    }
  }

  /** `addWorkoutList`: save the new list first; only when the write succeeds
      is it appended in memory, otherwise only `error` changes. */
  function AfterAdd(s: StoreState, newList: WorkoutList, writeOk: bool): (t: StoreState)
  {
    var saved := AfterSave(s, newList, writeOk);
    if writeOk then saved.(workoutLists := s.workoutLists + [newList]) else saved
  }

  /** A successful add grows the lists by exactly the new one at the end and
      makes it retrievable from storage; a failed one leaves lists and storage
      alone and records the error. */
  lemma AddAppendsOnlyWhenSaved(s: StoreState, newList: WorkoutList, writeOk: bool)
    ensures var t := AfterAdd(s, newList, writeOk);
      && (writeOk ==> |t.workoutLists| == |s.workoutLists| + 1
                      && t.workoutLists[..|s.workoutLists|] == s.workoutLists
                      && t.workoutLists[|s.workoutLists|] == newList
                      && FindList(ListsOf(t.stored), newList.id) == Some(newList)
                      && t.error == s.error)
      && (!writeOk ==> t.workoutLists == s.workoutLists && t.stored == s.stored
                       && t.error == Some(WRITE_ERROR))
      && t.currentWorkout == s.currentWorkout
  {
    var t := AfterAdd(s, newList, writeOk);
    if writeOk {
      assert t.workoutLists[..|s.workoutLists|] == s.workoutLists;
    }
  }

  lemma AddPreservesConsistent(s: StoreState, newList: WorkoutList, writeOk: bool)
    requires Consistent(s) && WellFormed(newList)
    ensures Consistent(AfterAdd(s, newList, writeOk))
  {
    UpsertWellFormed(ListsOf(s.stored), newList);
  }

  // ---------------------------------------------------------------- deleteWorkoutList

  /** The current workout after deleting `id`: gone exactly when it had that identifier. */
  function ClearIfDeleted(current: Option<WorkoutList>, id: string): (r: Option<WorkoutList>)
    ensures r.None? <==> current.None? || current.value.id == id
    ensures r.Some? ==> r == current
  {
    if current.Some? && current.value.id == id then None else current
  }

  /** `deleteWorkoutList(id)`: delete from storage first; when that succeeds,
      drop every in-memory list with the identifier and clear a matching
      current workout; when it fails, only `error` changes. */
  function AfterDelete(s: StoreState, id: string, writeOk: bool): (t: StoreState)
  {
    if writeOk then
      s.(workoutLists := WithoutList(s.workoutLists, id),
         currentWorkout := ClearIfDeleted(s.currentWorkout, id),
         stored := Some(WithoutList(ListsOf(s.stored), id)))
    else s.(error := Some(WRITE_ERROR))
  }

  /** After a successful delete neither memory nor storage knows the
      identifier, every other list is still found as before, and the current
      workout is cleared iff it was the deleted one. A failed delete changes
      nothing but `error`. */
  lemma DeleteRemovesExactlyId(s: StoreState, id: string, writeOk: bool, other: string)
    requires other != id
    ensures var t := AfterDelete(s, id, writeOk);
      && (writeOk ==>
            && FindList(t.workoutLists, id) == None
            && FindList(ListsOf(t.stored), id) == None
            && FindList(t.workoutLists, other) == FindList(s.workoutLists, other)
            && FindList(ListsOf(t.stored), other) == FindList(ListsOf(s.stored), other)
            && (t.currentWorkout == None <==> s.currentWorkout == None || s.currentWorkout.value.id == id)
            && (s.currentWorkout.Some? && s.currentWorkout.value.id != id ==> t.currentWorkout == s.currentWorkout)
            && t.error == s.error)
      && (!writeOk ==> t == s.(error := Some(WRITE_ERROR)))
  {
    DeleteRemovesId(s.workoutLists, id);
    DeleteRemovesId(ListsOf(s.stored), id);
    DeleteKeepsOthers(s.workoutLists, id, other);
    DeleteKeepsOthers(ListsOf(s.stored), id, other);
  }

  /** Deleting keeps the remaining lists in their order: deleting from a
      concatenation is deleting from each part. */
  lemma DeleteKeepsOrder(a: seq<WorkoutList>, b: seq<WorkoutList>, id: string)
    ensures WithoutList(a + b, id) == WithoutList(a, id) + WithoutList(b, id)
  {
    FilterAppend(a, b, (l: WorkoutList) => l.id != id);
  }

  lemma DeletePreservesConsistent(s: StoreState, id: string, writeOk: bool)
    requires Consistent(s)
    ensures Consistent(AfterDelete(s, id, writeOk))
  {
  }

  // ---------------------------------------------------------------- updateWorkoutProgress

  /** One more completed set, saturating at the target. */
  function Increment(e: WorkoutExercise): (r: WorkoutExercise)
    ensures e.completedSets < e.sets ==> r.completedSets == e.completedSets + 1
    ensures e.completedSets >= e.sets ==> r == e
    ensures r.(completedSets := e.completedSets) == e
  {
    if e.completedSets < e.sets then e.(completedSets := e.completedSets + 1) else e
  }

  /** Increment the first exercise with identifier `exerciseId`, if there is one. */
  function IncrementFirst(es: seq<WorkoutExercise>, exerciseId: string): (r: seq<WorkoutExercise>)
    ensures |r| == |es|
    ensures IndexOfExercise(es, exerciseId) == -1 ==> r == es
    ensures IndexOfExercise(es, exerciseId) >= 0 ==>
      r[IndexOfExercise(es, exerciseId)] == Increment(es[IndexOfExercise(es, exerciseId)])
    ensures forall j :: 0 <= j < |es| && j != IndexOfExercise(es, exerciseId) ==> r[j] == es[j]
  {
    var j := IndexOfExercise(es, exerciseId);
    if j < 0 then es else es[j := Increment(es[j])]
  }

  /** A list after one progress step on `exerciseId`, used at `now`. */
  function Progressed(l: WorkoutList, exerciseId: string, now: string): (r: WorkoutList)
    ensures r.exercises == IncrementFirst(l.exercises, exerciseId) && r.lastUsedAt == Some(now)
    ensures r.id == l.id && r.name == l.name && r.description == l.description && r.createdAt == l.createdAt
  {
    l.(exercises := IncrementFirst(l.exercises, exerciseId), lastUsedAt := Some(now))
  }

  /** The action does something only when the list and the exercise are both present in memory. */
  predicate ProgressApplies(ls: seq<WorkoutList>, listId: string, exerciseId: string)
  {
    var i := IndexOfList(ls, listId);
    i >= 0 && IndexOfExercise(ls[i].exercises, exerciseId) >= 0
  }

  /** `updateWorkoutProgress(listId, exerciseId)`: nothing at all when the
      list or the exercise is missing; otherwise a saturating increment and
      a new `lastUsedAt` on the in-memory list, the same on the current
      workout when it has the list's identifier, then a save whose failure
      keeps the in-memory change and records the error. */
  function AfterProgress(s: StoreState, listId: string, exerciseId: string, now: string, writeOk: bool): (t: StoreState)
  {
    if !ProgressApplies(s.workoutLists, listId, exerciseId) then s
    else
      var i := IndexOfList(s.workoutLists, listId);
      var list := Progressed(s.workoutLists[i], exerciseId, now);
      var current :=
        if s.currentWorkout.Some? && s.currentWorkout.value.id == listId
        then Some(Progressed(s.currentWorkout.value, exerciseId, now))
        else s.currentWorkout;
      AfterSave(s.(workoutLists := s.workoutLists[i := list], currentWorkout := current), list, writeOk)
  }

  /** The named list becomes exactly `Progressed` of itself: the progress of
      the target exercise rises by exactly one while below its target and
      stays put at the target, every other exercise and every other list is
      untouched, and an accepted save makes storage return the new list. */
  lemma ProgressSaturatingStep(s: StoreState, listId: string, exerciseId: string, now: string, writeOk: bool)
    requires ProgressApplies(s.workoutLists, listId, exerciseId)
    ensures var t := AfterProgress(s, listId, exerciseId, now, writeOk);
      var i := IndexOfList(s.workoutLists, listId);
      var j := IndexOfExercise(s.workoutLists[i].exercises, exerciseId);
      var e := s.workoutLists[i].exercises[j];
      && |t.workoutLists| == |s.workoutLists|
      && (forall k :: 0 <= k < |s.workoutLists| && k != i ==> t.workoutLists[k] == s.workoutLists[k])
      && |t.workoutLists[i].exercises| == |s.workoutLists[i].exercises|
      && (forall k :: 0 <= k < |s.workoutLists[i].exercises| && k != j ==>
            t.workoutLists[i].exercises[k] == s.workoutLists[i].exercises[k])
      && t.workoutLists[i] == Progressed(s.workoutLists[i], exerciseId, now)
      && t.workoutLists[i].exercises[j] == Increment(e)
      && t.workoutLists[i].exercises[j].completedSets == (if e.completedSets < e.sets then e.completedSets + 1 else e.completedSets)
      && t.workoutLists[i].lastUsedAt == Some(now)
      && (writeOk ==> FindList(ListsOf(t.stored), listId) == Some(t.workoutLists[i]) && t.error == s.error)
      && (!writeOk ==> t.stored == s.stored && t.error == Some(WRITE_ERROR))
  {
    if writeOk {
      var i := IndexOfList(s.workoutLists, listId);
      UpsertRoundTrip(ListsOf(s.stored), Progressed(s.workoutLists[i], exerciseId, now));
    }
  }

  /** A missing list or exercise makes the action a complete no-op. */
  lemma ProgressAbsentIsNoOp(s: StoreState, listId: string, exerciseId: string, now: string, writeOk: bool)
    requires !ProgressApplies(s.workoutLists, listId, exerciseId)
    ensures AfterProgress(s, listId, exerciseId, now, writeOk) == s
  {
  }

  /** The current workout follows along: when it has the list's identifier it
      takes its own saturating step and the same stamp, even when it has
      drifted from the in-memory list; when it was an identical copy it still
      is one afterwards; and when its identifier differs it is untouched. */
  lemma ProgressMirrorsCurrent(s: StoreState, listId: string, exerciseId: string, now: string, writeOk: bool)
    requires ProgressApplies(s.workoutLists, listId, exerciseId)
    ensures var t := AfterProgress(s, listId, exerciseId, now, writeOk);
      var i := IndexOfList(s.workoutLists, listId);
      && (s.currentWorkout.Some? && s.currentWorkout.value.id == listId ==>
            t.currentWorkout == Some(Progressed(s.currentWorkout.value, exerciseId, now)))
      && (s.currentWorkout == Some(s.workoutLists[i]) ==> t.currentWorkout == Some(t.workoutLists[i]))
      && (s.currentWorkout.None? || s.currentWorkout.value.id != listId ==> t.currentWorkout == s.currentWorkout)
  {
  }

  /** A refused save keeps the in-memory step: memory and storage that
      agreed before no longer agree, and `error` holds the message. */
  lemma FailedProgressSaveDiverges(s: StoreState, listId: string, exerciseId: string, now: string)
    requires ProgressApplies(s.workoutLists, listId, exerciseId)
    requires ListsOf(s.stored) == s.workoutLists
    requires s.workoutLists[IndexOfList(s.workoutLists, listId)].lastUsedAt != Some(now)
    ensures var t := AfterProgress(s, listId, exerciseId, now, false);
      && t.stored == s.stored
      && t.error == Some(WRITE_ERROR)
      && t.workoutLists != ListsOf(t.stored)
  {
    var i := IndexOfList(s.workoutLists, listId);
    var t := AfterProgress(s, listId, exerciseId, now, false);
    assert t.workoutLists[i].lastUsedAt == Some(now);
  }

  /** One increment keeps an exercise's progress in range. */
  lemma IncrementInRange(e: WorkoutExercise)
    requires ProgressInRange(e)
    ensures ProgressInRange(Increment(e))
  {
  }

  lemma ProgressedWellFormed(l: WorkoutList, exerciseId: string, now: string)
    requires WellFormed(l)
    ensures WellFormed(Progressed(l, exerciseId, now))
  {
    var j := IndexOfExercise(l.exercises, exerciseId);
    if j >= 0 {
      IncrementInRange(l.exercises[j]);
    }
  }

  lemma ProgressPreservesConsistent(s: StoreState, listId: string, exerciseId: string, now: string, writeOk: bool)
    requires Consistent(s)
    ensures Consistent(AfterProgress(s, listId, exerciseId, now, writeOk))
  {
    if ProgressApplies(s.workoutLists, listId, exerciseId) {
      var i := IndexOfList(s.workoutLists, listId);
      ProgressedWellFormed(s.workoutLists[i], exerciseId, now);
      if s.currentWorkout.Some? {
        ProgressedWellFormed(s.currentWorkout.value, exerciseId, now);
      }
      UpsertWellFormed(ListsOf(s.stored), Progressed(s.workoutLists[i], exerciseId, now));
    }
  }

  /** `n` increments: the progress climbs one per step and stops at the target. */
  function IncrementTimes(e: WorkoutExercise, n: nat): WorkoutExercise
  {
    if n == 0 then e else Increment(IncrementTimes(e, n - 1))
  }

  lemma {:induction false} IncrementTimesSaturates(e: WorkoutExercise, n: nat)
    requires ProgressInRange(e)
    ensures IncrementTimes(e, n).completedSets == if e.completedSets + n <= e.sets then e.completedSets + n else e.sets
    ensures IncrementTimes(e, n).(completedSets := e.completedSets) == e
  {
    if n > 0 {
      IncrementTimesSaturates(e, n - 1);
    }
  }

  // ---------------------------------------------------------------- setCurrentWorkout / clearCurrentWorkout

  /** `setCurrentWorkout(id)`: a fresh copy of the stored list becomes the
      current workout; with no stored list of that identifier nothing changes. */
  function AfterSetCurrent(s: StoreState, id: string): (t: StoreState)
    ensures FindList(ListsOf(s.stored), id).Some? ==> t == s.(currentWorkout := FindList(ListsOf(s.stored), id))
    ensures FindList(ListsOf(s.stored), id).None? ==> t == s
    ensures t.currentWorkout.Some? && t.currentWorkout != s.currentWorkout ==> t.currentWorkout.value.id == id
  {
    var list := FindList(ListsOf(s.stored), id);
    if list.Some? then s.(currentWorkout := list) else s
  }

  /** `clearCurrentWorkout()`. */
  function AfterClear(s: StoreState): (t: StoreState)
    ensures t.currentWorkout == None
    ensures t.(currentWorkout := s.currentWorkout) == s
  {
    s.(currentWorkout := None)
  }

  lemma SetCurrentPreservesConsistent(s: StoreState, id: string)
    requires Consistent(s)
    ensures Consistent(AfterSetCurrent(s, id)) && Consistent(AfterClear(s))
  {
  }

  // ---------------------------------------------------------------- resetExerciseProgress / resetAllProgress

  /** Zero the progress of the first exercise with identifier `exerciseId`, if any. */
  function ZeroFirst(es: seq<WorkoutExercise>, exerciseId: string): (r: seq<WorkoutExercise>)
    ensures |r| == |es|
    ensures IndexOfExercise(es, exerciseId) >= 0 ==>
      r[IndexOfExercise(es, exerciseId)] == es[IndexOfExercise(es, exerciseId)].(completedSets := 0)
    ensures forall j :: 0 <= j < |es| && j != IndexOfExercise(es, exerciseId) ==> r[j] == es[j]
  {
    var j := IndexOfExercise(es, exerciseId);
    if j < 0 then es else es[j := es[j].(completedSets := 0)]
  }

  /** Every exercise with its progress zeroed. */
  function ZeroAll(es: seq<WorkoutExercise>): seq<WorkoutExercise>
  {
    if es == [] then [] else [es[0].(completedSets := 0)] + ZeroAll(es[1..])
  }

  lemma {:induction false} ZeroAllAt(es: seq<WorkoutExercise>, k: nat)
    requires k < |es|
    ensures |ZeroAll(es)| == |es| && ZeroAll(es)[k] == es[k].(completedSets := 0)
  {
    if k > 0 {
      ZeroAllAt(es[1..], k - 1);
    } else {
      ZeroAllLength(es);
    }
  }

  lemma {:induction false} ZeroAllLength(es: seq<WorkoutExercise>)
    ensures |ZeroAll(es)| == |es|
  {
    if es != [] {
      ZeroAllLength(es[1..]);
    }
  }

  /** `resetExerciseProgress(listId, exerciseId)`: with the list present,
      zero the exercise (if it is there) and save the list, whose failure
      records the error; with the list missing, nothing happens. The current
      workout is never touched. */
  function AfterResetExercise(s: StoreState, listId: string, exerciseId: string, writeOk: bool): (t: StoreState)
  {
    var i := IndexOfList(s.workoutLists, listId);
    if i < 0 then s
    else
      var list := s.workoutLists[i].(exercises := ZeroFirst(s.workoutLists[i].exercises, exerciseId));
      AfterSave(s.(workoutLists := s.workoutLists[i := list]), list, writeOk)
  }

  /** `resetAllProgress(listId)`: with the list present, zero every exercise
      of it and save it; with the list missing, nothing happens. The current
      workout is never touched. */
  function AfterResetAll(s: StoreState, listId: string, writeOk: bool): (t: StoreState)
  {
    var i := IndexOfList(s.workoutLists, listId);
    if i < 0 then s
    else
      var list := s.workoutLists[i].(exercises := ZeroAll(s.workoutLists[i].exercises));
      AfterSave(s.(workoutLists := s.workoutLists[i := list]), list, writeOk)
  }

  /** After resetting a list, reading it back (from memory, and from storage
      when the write went through) shows every exercise at zero progress with
      every other field as before; other lists and the current workout are
      unchanged, and an unknown identifier changes nothing. */
  lemma ResetAllZeroesList(s: StoreState, listId: string, writeOk: bool)
    ensures var t := AfterResetAll(s, listId, writeOk);
      var i := IndexOfList(s.workoutLists, listId);
      && t.currentWorkout == s.currentWorkout
      && (i < 0 ==> t == s)
      && (i >= 0 ==>
            && |t.workoutLists| == |s.workoutLists|
            && (forall k :: 0 <= k < |s.workoutLists| && k != i ==> t.workoutLists[k] == s.workoutLists[k])
            && |t.workoutLists[i].exercises| == |s.workoutLists[i].exercises|
            && t.workoutLists[i] == s.workoutLists[i].(exercises := t.workoutLists[i].exercises)
            && (forall k :: 0 <= k < |s.workoutLists[i].exercises| ==>
                  t.workoutLists[i].exercises[k] == s.workoutLists[i].exercises[k].(completedSets := 0))
            && (writeOk ==> FindList(ListsOf(t.stored), listId) == Some(t.workoutLists[i]) && t.error == s.error)
            && (!writeOk ==> t.stored == s.stored && t.error == Some(WRITE_ERROR)))
  {
    var i := IndexOfList(s.workoutLists, listId);
    if i >= 0 {
      var es := s.workoutLists[i].exercises;
      var list := s.workoutLists[i].(exercises := ZeroAll(es));
      ZeroAllLength(es);
      forall k | 0 <= k < |es|
        ensures ZeroAll(es)[k] == es[k].(completedSets := 0)
      {
        ZeroAllAt(es, k);
      }
      if writeOk {
        UpsertRoundTrip(ListsOf(s.stored), list);
      }
    }
  }

  /** Resetting one exercise zeroes its progress and nothing else: its other
      fields, the list's own fields, the other exercises and lists and the
      current workout are as before, and an accepted save makes the reset
      list the one storage returns. */
  lemma ResetExerciseZeroesOnlyIt(s: StoreState, listId: string, exerciseId: string, writeOk: bool)
    ensures var t := AfterResetExercise(s, listId, exerciseId, writeOk);
      var i := IndexOfList(s.workoutLists, listId);
      && t.currentWorkout == s.currentWorkout
      && (i < 0 ==> t == s)
      && (i >= 0 ==>
            var es := s.workoutLists[i].exercises;
            var j := IndexOfExercise(es, exerciseId);
            && |t.workoutLists| == |s.workoutLists|
            && (forall k :: 0 <= k < |s.workoutLists| && k != i ==> t.workoutLists[k] == s.workoutLists[k])
            && |t.workoutLists[i].exercises| == |es|
            && t.workoutLists[i] == s.workoutLists[i].(exercises := t.workoutLists[i].exercises)
            && (j >= 0 ==> t.workoutLists[i].exercises[j] == es[j].(completedSets := 0))
            && (forall k :: 0 <= k < |es| && k != j ==> t.workoutLists[i].exercises[k] == es[k])
            && (writeOk ==> FindList(ListsOf(t.stored), listId) == Some(t.workoutLists[i]) && t.error == s.error)
            && (!writeOk ==> t.stored == s.stored && t.error == Some(WRITE_ERROR)))
  {
    var i := IndexOfList(s.workoutLists, listId);
    if i >= 0 && writeOk {
      var list := s.workoutLists[i].(exercises := ZeroFirst(s.workoutLists[i].exercises, exerciseId));
      UpsertRoundTrip(ListsOf(s.stored), list);
    }
  }

  lemma ZeroAllWellFormed(l: WorkoutList)
    requires WellFormed(l)
    ensures WellFormed(l.(exercises := ZeroAll(l.exercises)))
  {
    ZeroAllLength(l.exercises);
    forall k | 0 <= k < |l.exercises|
      ensures ProgressInRange(ZeroAll(l.exercises)[k])
    {
      ZeroAllAt(l.exercises, k);
    }
  }

  lemma ResetPreservesConsistent(s: StoreState, listId: string, exerciseId: string, writeOk: bool)
    requires Consistent(s)
    ensures Consistent(AfterResetExercise(s, listId, exerciseId, writeOk))
    ensures Consistent(AfterResetAll(s, listId, writeOk))
  {
    var i := IndexOfList(s.workoutLists, listId);
    if i >= 0 {
      var l := s.workoutLists[i];
      var one := l.(exercises := ZeroFirst(l.exercises, exerciseId));
      var all := l.(exercises := ZeroAll(l.exercises));
      ZeroAllWellFormed(l);
      assert WellFormed(one);
      UpsertWellFormed(ListsOf(s.stored), one);
      UpsertWellFormed(ListsOf(s.stored), all);
    }
  }

  // ---------------------------------------------------------------- the store object

  class WorkoutListStore {
    var workoutLists: seq<WorkoutList>
    var currentWorkout: Option<WorkoutList>
    var isLoading: bool
    var error: Option<string>
    /** The persistence adapter the actions write through. */
    const storage: LocalStorageService

    /** The store's fields together with the adapter's stored value. */
    function State(): StoreState
      reads this, storage
    {
      StoreState(workoutLists, currentWorkout, isLoading, error, storage.stored)
    }

    /** The initial state: no lists, no current workout, not loading, no error. */
    constructor (storage: LocalStorageService)
      ensures this.storage == storage
      ensures State() == StoreState([], None, false, None, storage.stored)
    {
      this.storage := storage;
      workoutLists := [];
      currentWorkout := None;
      isLoading := false;
      error := None;
    }

    method LoadFromStorage()
      modifies this
      ensures State() == AfterLoad(old(State()))
    {
      var lists := storage.GetAllLists();
      workoutLists := lists;
      isLoading := false;
    }

    /** `addWorkoutList(dto)`; `listId`, `exerciseIds` and `createdAt` stand
        for the identifiers and the time stamp generated inside it. */
    method AddWorkoutList(dto: CreateWorkoutListDto, listId: string, exerciseIds: nat -> string, createdAt: string, writeOk: bool)
      modifies this, storage
      ensures State() == AfterAdd(old(State()), BuildList(dto, listId, exerciseIds, createdAt), writeOk)
    {
      var newList := BuildList(dto, listId, exerciseIds, createdAt);
      var result := storage.SaveList(newList, writeOk);
      if result.Pass? {
        workoutLists := workoutLists + [newList];
      } else {
        error := Some(result.error);
      }
    }

    method DeleteWorkoutList(id: string, writeOk: bool)
      modifies this, storage
      ensures State() == AfterDelete(old(State()), id, writeOk)
    {
      var result := storage.DeleteList(id, writeOk);
      if result.Pass? {
        workoutLists := WithoutList(workoutLists, id);
        if currentWorkout.Some? && currentWorkout.value.id == id {
          currentWorkout := None;
        }
      } else {
        error := Some(result.error);
      }
    }

    /** `updateWorkoutProgress(listId, exerciseId)`; `now` is the ISO time stamp taken inside it. */
    method UpdateWorkoutProgress(listId: string, exerciseId: string, now: string, writeOk: bool)
      modifies this, storage
      ensures State() == AfterProgress(old(State()), listId, exerciseId, now, writeOk)
    {
      var i := IndexOfList(workoutLists, listId);
      if i < 0 {
        return;
      }
      var j := IndexOfExercise(workoutLists[i].exercises, exerciseId);
      if j < 0 {
        return;
      }
      var list := ApplyProgress(workoutLists[i], exerciseId, now);
      workoutLists := workoutLists[i := list];
      if currentWorkout.Some? && currentWorkout.value.id == listId {
        var current := ApplyProgress(currentWorkout.value, exerciseId, now);
        currentWorkout := Some(current);
      }
      var result := storage.SaveList(list, writeOk);
      if result.Fail? {
        error := Some(result.error);
      }
    }

    /** The step `updateWorkoutProgress` performs on a list (the in-memory one
        and the current-workout copy alike): find the exercise, add a set if
        it is below its target, and stamp `lastUsedAt`. */
    static method ApplyProgress(l: WorkoutList, exerciseId: string, now: string) returns (r: WorkoutList)
      ensures r == Progressed(l, exerciseId, now)
    {
      r := l;
      var k := IndexOfExercise(r.exercises, exerciseId);
      if k >= 0 {
        var exercise := r.exercises[k];
        if exercise.completedSets < exercise.sets {
          r := r.(exercises := r.exercises[k := exercise.(completedSets := exercise.completedSets + 1)]);
        }
      }
      r := r.(lastUsedAt := Some(now));
    }

    method SetCurrentWorkout(id: string)
      modifies this
      ensures State() == AfterSetCurrent(old(State()), id)
    {
      var list := storage.GetList(id);
      if list.Some? {
        currentWorkout := list;
      }
    }

    method ClearCurrentWorkout()
      modifies this
      ensures State() == AfterClear(old(State()))
    {
      currentWorkout := None;
    }

    method ResetExerciseProgress(listId: string, exerciseId: string, writeOk: bool)
      modifies this, storage
      ensures State() == AfterResetExercise(old(State()), listId, exerciseId, writeOk)
    {
      var i := IndexOfList(workoutLists, listId);
      if i < 0 {
        return;
      }
      var list := workoutLists[i];
      var j := IndexOfExercise(list.exercises, exerciseId);
      if j >= 0 {
        list := list.(exercises := list.exercises[j := list.exercises[j].(completedSets := 0)]);
      }
      workoutLists := workoutLists[i := list];
      var result := storage.SaveList(list, writeOk);
      if result.Fail? {
        error := Some(result.error);
      }
    }

    method ResetAllProgress(listId: string, writeOk: bool)
      modifies this, storage
      ensures State() == AfterResetAll(old(State()), listId, writeOk)
    {
      var i := IndexOfList(workoutLists, listId);
      if i < 0 {
        return;
      }
      var list := workoutLists[i];
      ghost var original := list.exercises;
      var exercises := list.exercises;
      for k := 0 to |exercises|
        invariant |exercises| == |original|
        invariant forall m :: 0 <= m < k ==> exercises[m] == original[m].(completedSets := 0)
        invariant forall m :: k <= m < |exercises| ==> exercises[m] == original[m]
      {
        exercises := exercises[k := exercises[k].(completedSets := 0)];
      }
      ZeroAllLength(original);
      forall m | 0 <= m < |original|
        ensures exercises[m] == ZeroAll(original)[m]
      {
        ZeroAllAt(original, m);
      }
      assert exercises == ZeroAll(original);
      list := list.(exercises := exercises);
      workoutLists := workoutLists[i := list];
      var result := storage.SaveList(list, writeOk);
      if result.Fail? {
        error := Some(result.error);
      }
    }
  }
}
