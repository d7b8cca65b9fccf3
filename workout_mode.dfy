/** The workout-mode page's controller
    (src/pages/workout-mode/ui/workout-mode-page-logic-layer.tsx): double-tap
    detection over a per-exercise map of last-tap times, the guarded progress
    step with its "just completed" flag, the confirmed reset of the whole
    list, and the progress counts the page displays. `Date.now()` is an
    integer input, the ISO time stamp the store takes is a string input, and
    the answer to the confirmation dialog is a boolean input. */
module WorkoutModePage {
  import opened Base
  import opened WorkoutListTypes
  import opened WorkoutListModel

  /** Two taps on one exercise closer together than this (in milliseconds) make a double tap. */
  const DOUBLE_TAP_THRESHOLD_MS: int := 300

  // ---------------------------------------------------------------- handleTap

  /** `lastTapRef.current[exerciseId] || 0`: a missing entry reads as 0. */
  function LastTap(taps: map<string, int>, exerciseId: string): int
  {
    if exerciseId in taps then taps[exerciseId] else 0
  }

  /** What one tap decides: whether it completes a double tap, and the new map. */
  datatype TapOutcome = TapOutcome(attempt: bool, taps: map<string, int>)

  /** One tap at time `now`: it is a double tap exactly when the time since
      the recorded tap is positive and below the threshold; the entry of the
      tapped exercise then drops back to 0, and otherwise records `now`.
      Entries of other exercises never change. */
  function TapStep(taps: map<string, int>, exerciseId: string, now: int): (r: TapOutcome)
    ensures r.attempt <==> 0 < now - LastTap(taps, exerciseId) < DOUBLE_TAP_THRESHOLD_MS
    ensures r.taps.Keys == taps.Keys + {exerciseId}
    ensures r.taps[exerciseId] == (if r.attempt then 0 else now)
    ensures forall k :: k in taps && k != exerciseId ==> r.taps[k] == taps[k]
  {
    var since := now - LastTap(taps, exerciseId);
    if since < DOUBLE_TAP_THRESHOLD_MS && since > 0 then TapOutcome(true, taps[exerciseId := 0])
    else TapOutcome(false, taps[exerciseId := now])
  }

  /** On a clock past the threshold, with no recent tap on the exercise, two
      taps 100 ms apart make exactly one attempt, on the second tap. */
  lemma TapsWithinWindowAttemptOnce(taps: map<string, int>, exerciseId: string, t: int)
    requires t >= DOUBLE_TAP_THRESHOLD_MS
    requires exerciseId !in taps || t - taps[exerciseId] >= DOUBLE_TAP_THRESHOLD_MS
    ensures !TapStep(taps, exerciseId, t).attempt
    ensures TapStep(TapStep(taps, exerciseId, t).taps, exerciseId, t + 100).attempt
  {
  }

  /** On a clock past the threshold, two taps 500 ms apart make no attempt
      on the second tap, whatever the first one did. */
  lemma TapsOutsideWindowNoAttempt(taps: map<string, int>, exerciseId: string, t: int)
    requires t >= DOUBLE_TAP_THRESHOLD_MS
    ensures !TapStep(TapStep(taps, exerciseId, t).taps, exerciseId, t + 500).attempt
  {
    var first := TapStep(taps, exerciseId, t);
    if first.attempt {
      assert LastTap(first.taps, exerciseId) == 0;
    } else {
      assert LastTap(first.taps, exerciseId) == t;
    }
  }

  /** After a lone tap, a second tap at the very same instant is no attempt. */
  lemma SameInstantNoAttempt(taps: map<string, int>, exerciseId: string, t: int)
    requires !TapStep(taps, exerciseId, t).attempt
    ensures !TapStep(TapStep(taps, exerciseId, t).taps, exerciseId, t).attempt
  {
  }

  /** After a double tap the entry is back at 0, so on a clock past the
      threshold a third quick tap starts a new pair instead of attempting again. */
  lemma ThirdTapStartsOver(taps: map<string, int>, exerciseId: string, t: int)
    requires t >= DOUBLE_TAP_THRESHOLD_MS
    requires exerciseId !in taps || t - taps[exerciseId] >= DOUBLE_TAP_THRESHOLD_MS
    ensures var second := TapStep(TapStep(taps, exerciseId, t).taps, exerciseId, t + 100);
      && second.attempt
      && !TapStep(second.taps, exerciseId, t + 200).attempt
  {
  }

  // ---------------------------------------------------------------- handleExerciseClick

  /** A click leads to `updateWorkoutProgress` exactly when there is a current
      workout, it holds the exercise, and that exercise is below its target. */
  predicate ClickAttempts(cw: Option<WorkoutList>, exerciseId: string)
  {
    && cw.Some?
    && var j := IndexOfExercise(cw.value.exercises, exerciseId);
    && j >= 0
    && cw.value.exercises[j].completedSets < cw.value.exercises[j].sets
  }

  /** The click raises the flag: its one set is the last one the exercise needs. */
  predicate ClickCompletes(cw: Option<WorkoutList>, exerciseId: string)
  {
    && ClickAttempts(cw, exerciseId)
    && var e := cw.value.exercises[IndexOfExercise(cw.value.exercises, exerciseId)];
    && e.completedSets + 1 == e.sets
  }

  /** When the click's progress step reaches the list in memory, the current
      workout's copy of the exercise ends at its target exactly when the flag
      is raised, and one set higher than before either way. */
  lemma JustCompletedMatchesProgress(s: StoreState, exerciseId: string, now: string, writeOk: bool)
    requires ClickAttempts(s.currentWorkout, exerciseId)
    requires ProgressApplies(s.workoutLists, s.currentWorkout.value.id, exerciseId)
    ensures var t := AfterProgress(s, s.currentWorkout.value.id, exerciseId, now, writeOk);
      var j := IndexOfExercise(s.currentWorkout.value.exercises, exerciseId);
      && t.currentWorkout.Some?
      && |t.currentWorkout.value.exercises| == |s.currentWorkout.value.exercises|
      && t.currentWorkout.value.exercises[j].completedSets == s.currentWorkout.value.exercises[j].completedSets + 1
      && (t.currentWorkout.value.exercises[j].completedSets == t.currentWorkout.value.exercises[j].sets
          <==> ClickCompletes(s.currentWorkout, exerciseId))
  {
    var cw := s.currentWorkout.value;
    var j := IndexOfExercise(cw.exercises, exerciseId);
    var t := AfterProgress(s, cw.id, exerciseId, now, writeOk);
    assert t.currentWorkout == Some(Progressed(cw, exerciseId, now));
    assert t.currentWorkout.value.exercises[j] == Increment(cw.exercises[j]);
  }

  /** A click whose list is missing from memory raises the flag all the same,
      though the store changes nothing: the flag follows the current
      workout's copy, not the store's lists. */
  lemma FlagWithoutProgress(s: StoreState, exerciseId: string, now: string, writeOk: bool)
    requires ClickCompletes(s.currentWorkout, exerciseId)
    requires IndexOfList(s.workoutLists, s.currentWorkout.value.id) == -1
    ensures AfterProgress(s, s.currentWorkout.value.id, exerciseId, now, writeOk) == s
  {
  }

  // ---------------------------------------------------------------- calculateProgress

  /** The summary the page shows; the percentage is exact here. */
  datatype ProgressSummary = ProgressSummary(totalExercises: nat, completedExercises: nat, overallProgress: real)

  /** The positions of the exercises that are at their target. */
  function CompletePositions(es: seq<WorkoutExercise>): set<int>
  {
    set j | 0 <= j < |es| && es[j].completedSets == es[j].sets
  }

  /** `exercises.filter(ex => ex.completedSets === ex.sets)`: one element per
      position whose exercise is at its target. */
  function CompletedExercises(es: seq<WorkoutExercise>): (r: seq<WorkoutExercise>)
    ensures |r| == |CompletePositions(es)|
    ensures |r| <= |es|
    ensures forall j :: 0 <= j < |r| ==> r[j].completedSets == r[j].sets
    ensures |r| == |es| <==> forall j :: 0 <= j < |es| ==> es[j].completedSets == es[j].sets
  {
    var complete := (e: WorkoutExercise) => e.completedSets == e.sets;
    FilterKeepsAllIff(es, complete);
    FilterCountsIndices(es, complete);
    assert Positions(es, complete) == CompletePositions(es);
    Filter(es, complete)
  }

  /** `completed / total * 100` lies between 0 and 100 and is 100 exactly when all are complete. */
  lemma PercentageBounds(completed: nat, total: nat)
    requires 0 < total && completed <= total
    ensures 0.0 <= (completed as real / total as real) * 100.0 <= 100.0
    ensures (completed as real / total as real) * 100.0 == 100.0 <==> completed == total
  {
    var q := completed as real / total as real;
    assert q * total as real == completed as real;
    if q * 100.0 == 100.0 {
      assert q == 1.0;
    }
  }

  /** `calculateProgress()`: with no current workout everything is 0;
      otherwise the number of exercises, the number at their target and the
      share at their target as a percentage (completed over total, times
      100), which is 0 for an empty list and
      100 exactly when there are exercises and all of them are complete. */
  function CalculateProgress(cw: Option<WorkoutList>): (p: ProgressSummary)
    ensures cw.None? ==> p == ProgressSummary(0, 0, 0.0)
    ensures cw.Some? ==> p.totalExercises == |cw.value.exercises|
    ensures cw.Some? ==> p.completedExercises == |CompletedExercises(cw.value.exercises)|
    ensures cw.Some? ==> p.completedExercises == |CompletePositions(cw.value.exercises)|
    ensures p.completedExercises <= p.totalExercises
    ensures 0.0 <= p.overallProgress <= 100.0
    ensures p.totalExercises == 0 ==> p.overallProgress == 0.0
    ensures cw.Some? && |cw.value.exercises| > 0 ==>
      p.overallProgress == (|CompletePositions(cw.value.exercises)| as real / |cw.value.exercises| as real) * 100.0
    ensures p.overallProgress == 100.0 <==>
      (cw.Some? && |cw.value.exercises| > 0 &&
       forall j :: 0 <= j < |cw.value.exercises| ==> cw.value.exercises[j].completedSets == cw.value.exercises[j].sets)
  {
    if cw.None? then ProgressSummary(0, 0, 0.0)
    else
      var total := |cw.value.exercises|;
      var completed := |CompletedExercises(cw.value.exercises)|;
      if total > 0 then
        PercentageBounds(completed, total);
        ProgressSummary(total, completed, (completed as real / total as real) * 100.0)
      else ProgressSummary(total, completed, 0.0)
  }

  /** Neither reset touches the current workout, so the figures the page
      shows after a confirmed reset are the ones it showed before it. */
  lemma ResetAllKeepsDisplayedProgress(s: StoreState, listId: string, writeOk: bool)
    ensures CalculateProgress(AfterResetAll(s, listId, writeOk).currentWorkout) == CalculateProgress(s.currentWorkout)
  {
    ResetAllZeroesList(s, listId, writeOk);
  }

  // ---------------------------------------------------------------- the controller

  class WorkoutModeLogic {
    /** The route's list identifier. */
    const id: string
    /** The workout-list store the page is wired to. */
    const store: WorkoutListStore
    /** The exercise whose last set was just marked, shown as a brief celebration. */
    var justCompleted: Option<string>
    /** `lastTapRef.current`: the time of the last lone tap per exercise. */
    var lastTap: map<string, int>

    constructor (id: string, store: WorkoutListStore)
      ensures this.id == id && this.store == store
      ensures justCompleted == None && lastTap == map[]
    {
      this.id := id;
      this.store := store;
      justCompleted := None;
      lastTap := map[];
    }

    /** The mount effect: fetch the current workout when the route names a list. */
    method Mount()
      modifies store
      ensures store.State() == (if id != "" then AfterSetCurrent(old(store.State()), id) else old(store.State()))
    {
      if id != "" {
        store.SetCurrentWorkout(id);
      }
    }

    /** The effect's clean-up: drop the current workout. */
    method Unmount()
      modifies store
      ensures store.State() == AfterClear(old(store.State()))
    {
      store.ClearCurrentWorkout();
    }

    /** `handleExerciseClick(exerciseId)`; `now` and `writeOk` are passed on
        to the store's progress action. */
    method HandleExerciseClick(exerciseId: string, now: string, writeOk: bool)
      modifies this, store, store.storage
      ensures lastTap == old(lastTap)
      ensures ClickAttempts(old(store.currentWorkout), exerciseId) ==>
        store.State() == AfterProgress(old(store.State()), old(store.currentWorkout).value.id, exerciseId, now, writeOk)
      ensures !ClickAttempts(old(store.currentWorkout), exerciseId) ==> store.State() == old(store.State())
      ensures justCompleted == (if ClickCompletes(old(store.currentWorkout), exerciseId) then Some(exerciseId) else old(justCompleted))
    {
      var cw := store.currentWorkout;
      if cw.None? {
        return;
      }
      var j := IndexOfExercise(cw.value.exercises, exerciseId);
      if j < 0 {
        return;
      }
      var exercise := cw.value.exercises[j];
      if exercise.completedSets < exercise.sets {
        store.UpdateWorkoutProgress(cw.value.id, exerciseId, now, writeOk);
        if exercise.completedSets + 1 == exercise.sets {
          justCompleted := Some(exerciseId);
        }
      }
    }

    /** The one-second timer's callback: the celebration ends. */
    method ExpireJustCompleted()
      modifies this
      ensures justCompleted == None && lastTap == old(lastTap)
    {
      justCompleted := None;
    }

    /** `handleTap(exerciseId)` at clock reading `now`; a double tap goes on
        to the click handler with the store's inputs `stamp` and `writeOk`. */
    method HandleTap(exerciseId: string, now: int, stamp: string, writeOk: bool)
      modifies this, store, store.storage
      ensures lastTap == TapStep(old(lastTap), exerciseId, now).taps
      ensures var attempted := TapStep(old(lastTap), exerciseId, now).attempt && ClickAttempts(old(store.currentWorkout), exerciseId);
        && (attempted ==>
              store.State() == AfterProgress(old(store.State()), old(store.currentWorkout).value.id, exerciseId, stamp, writeOk))
        && (!attempted ==> store.State() == old(store.State()))
      ensures justCompleted ==
        (if TapStep(old(lastTap), exerciseId, now).attempt && ClickCompletes(old(store.currentWorkout), exerciseId)
         then Some(exerciseId) else old(justCompleted))
    {
      var last := LastTap(lastTap, exerciseId);
      var timeSinceLastTap := now - last;
      if timeSinceLastTap < DOUBLE_TAP_THRESHOLD_MS && timeSinceLastTap > 0 {
        HandleExerciseClick(exerciseId, stamp, writeOk);
        lastTap := lastTap[exerciseId := 0];
      } else {
        lastTap := lastTap[exerciseId := now];
      }
    }

    /** `handleResetAll()` with `confirmed` the answer to the dialog: the
        store resets the current workout's list only when there is one and
        the answer is yes. */
    method HandleResetAll(confirmed: bool, writeOk: bool)
      modifies store, store.storage
      ensures old(store.currentWorkout).Some? && confirmed ==>
        store.State() == AfterResetAll(old(store.State()), old(store.currentWorkout).value.id, writeOk)
      ensures old(store.currentWorkout).None? || !confirmed ==> store.State() == old(store.State())
    {
      var cw := store.currentWorkout;
      if cw.None? {
        return;
      }
      if confirmed {
        store.ResetAllProgress(cw.value.id, writeOk);
      }
    }

    /** The figures `calculateProgress()` gives for the store's current workout. */
    function Progress(): (p: ProgressSummary)
      reads store
    {
      CalculateProgress(store.currentWorkout)
    }
  }
}
