# set-forge core, modelled in Dafny

set-forge is a single-user workout tracker for the browser. A user keeps a
catalogue of exercises. From these they build named workout lists, where each
exercise has a weight, a number of reps and a target number of sets. During a
workout they double-tap an exercise to mark one more set done. Every change to
a workout list is written through to one key of the browser's local storage.

This project models the program's logic:

- **Persistence adapter** (`WorkoutListApi`, `local_storage_service.dfy`): the
  class `LocalStorageService`. It holds the stored value under the key
  `workout-lists`. It does upsert, delete and merge by identifier, and it
  computes the storage-usage figures.
- **Workout-list store** (`WorkoutListModel`, `workout_list_store.dfy`): the
  class `WorkoutListStore`, whose fields are the in-memory lists, the current
  workout, the loading flag and the error. Each action is a method: the
  actions that change lists write through the adapter, loading and setting
  the current workout only read from it, and clearing the current workout
  touches no storage. Each method's ensures ties the new state to a pure
  transition function `After*`, and lemmas prove the promised properties of
  those functions:
  - a saturating progress counter;
  - the current workout mirroring progress;
  - a delete that clears a matching current workout;
  - resets;
  - the divergence of memory and storage after a refused write;
  - preservation of the invariant `0 <= completedSets <= sets` (`Consistent`).
- **Exercise-catalogue store** (`ExerciseModel`, `exercise_store.dfy`): append,
  remove by identifier, merge a patch into the first match, and three setters.
- **Workout-mode page controller** (`WorkoutModePage`, `workout_mode.dfy`):
  - double-tap detection over a map of last-tap times, with a 300 ms window;
  - the guarded click with its "just completed" flag;
  - the confirmed reset;
  - the progress summary.
- **Create-workout page controller** (`CreateWorkoutPage`,
  `create_workout.dfy`): editing of draft exercises and the submit
  validation. The validation decides whether a `CreateWorkoutListDto` reaches
  the store, and it guarantees that every exercise of a new list starts below a
  positive target.
- **Add-exercise form controller** (`AddExerciseFeature`,
  `add_exercise_form.dfy`): three fields, a submit that rejects blank names and
  then clears the form, and the disabled flag.
- **Shared helpers**: `Base` holds Option/Result and the JavaScript `find`,
  `findIndex` and `filter` over sequences. `Text` holds `String.prototype.trim`
  with ECMAScript white space, stated over code points.

## Inputs that stand for things outside the model

- Identifiers from `crypto.randomUUID()` and ISO time stamps from
  `new Date().toISOString()` are parameters. No uniqueness of identifiers is
  assumed. `AddWorkoutList` takes the list identifier and a function
  `exerciseIds` that gives the identifier of each exercise.
- `Date.now()` is an integer parameter of `HandleTap`.
- Whether the browser accepts a `localStorage.setItem` is a boolean `writeOk`.
  A refusal raises the adapter's error message
  `Failed to save workout list. Storage might be full.`, and each store action
  records that message in `error`.
- The answer to `confirm('Reset all progress?')` is a boolean `confirmed`.
- The stored JSON text is modelled as its parsed value,
  `Option<seq<WorkoutList>>`. `None` stands for a missing key, an empty text,
  or a text that fails to parse. All three read as "no lists".
- The browser store's entries, as seen by `calculateLocalStorageSize`, are a
  sequence of key/value texts.
- The callbacks a page controller receives are modelled by what the
  controller does with them:
  - the workout-mode controller calls the store's methods directly;
  - the create-workout submit returns the DTO it would hand on;
  - the add-exercise submit returns the arguments of its one `onAdd` call.

## Behaviour of the code worth knowing

- **Save round trip.** Reading a list back after saving it gives that list,
  even when several stored lists share its identifier. `saveList` replaces the first list with the
  identifier, and `getList` returns the first one, so the saved list is always
  the one found (`UpsertRoundTrip`).
- **`resetExerciseProgress`** saves the list even when the exercise is missing
  from it (`AfterResetExercise`).
- **`updateWorkoutProgress`** stamps `lastUsedAt` even when the exercise is
  already at its target. It also writes the list back in that case.
- **Neither reset updates the current workout.** The workout-mode page
  therefore shows the same figures after a confirmed reset as before it
  (`ResetAllKeepsDisplayedProgress`).
- **The "just completed" flag** is decided from the current workout's copy.
  When that copy's list is not among the in-memory lists, the flag is raised
  while the store changes nothing (`FlagWithoutProgress`).
- **Draft updates are not first-match only.** The create-workout page changes
  every draft that carries a temporary identifier, while the catalogue store
  changes only the first exercise with an identifier.

## Model

| member | source | states |
|---|---|---|
| `Text.Trim` | src/pages/create-workout/ui/create-workout-page-logic-layer.tsx:55 | the result is a slice of the input; everything cut away before and after it is white space; its first and last characters are not white space |
| `Text.BlankIffAllWhitespace` | src/features/add-exercise/ui/add-exercise-form-logic-layer.tsx:28 | `!s.trim()` holds exactly when every character of `s` is white space |
| `WorkoutListApi.WriteOutcome` | src/entities/workout-list/api/local-storage.service.ts:18-25 | a write succeeds exactly when the browser accepts it; a refusal fails with the storage-full message |
| `WorkoutListApi.ListsOf` | src/entities/workout-list/api/local-storage.service.ts:8-16 | a missing, empty or unreadable value reads as no lists, never as an error; a readable one reads as the lists stored |
| `WorkoutListApi.Upsert` | src/entities/workout-list/api/local-storage.service.ts:50-59 | an existing identifier is replaced at its first index, with the length and every other entry unchanged; an absent one is appended, with the old lists as prefix |
| `WorkoutListApi.UpsertRoundTrip` | src/entities/workout-list/api/local-storage.service.ts:45-59 | after saving a list, looking its identifier up returns that list, whatever was stored before |
| `WorkoutListApi.UpsertKeepsOthers` | src/entities/workout-list/api/local-storage.service.ts:45-59 | saving a list does not change what any other identifier looks up |
| `WorkoutListApi.DeleteRemovesId` | src/entities/workout-list/api/local-storage.service.ts:61-65 | after a delete, looking the identifier up finds nothing |
| `WorkoutListApi.DeleteKeepsOthers` | src/entities/workout-list/api/local-storage.service.ts:61-65 | a delete does not change what any other identifier looks up |
| `WorkoutListApi.MergeList` | src/entities/workout-list/api/local-storage.service.ts:71 | each field the patch names takes the patch's value, every other field keeps its own, and an empty patch leaves the list as it is |
| `WorkoutListApi.MergeListIdempotent` | src/entities/workout-list/api/local-storage.service.ts:71 | merging the same patch twice equals merging it once |
| `WorkoutListApi.PatchFirstList` | src/entities/workout-list/api/local-storage.service.ts:67-74 | nothing is written exactly when no list has the identifier; otherwise only the first match takes the patch, and the length and every other list are kept |
| `WorkoutListApi.EntryChars` | src/entities/workout-list/api/local-storage.service.ts:30-35 | an entry adds nothing exactly when its key or its value is empty, and otherwise the length of its key plus the length of its value |
| `WorkoutListApi.UsedChars` | src/entities/workout-list/api/local-storage.service.ts:27-37 | no contract of its own: the sum of `EntryChars` over the entries, the definition `CalculateLocalStorageSize`, `UsedCharsAppend` and `UsedCharsOfOne` refer to |
| `WorkoutListApi.UsedCharsAppend` | src/entities/workout-list/api/local-storage.service.ts:27-39 | the character count adds up over any split of the entries |
| `WorkoutListApi.UsedCharsOfOne` | src/entities/workout-list/api/local-storage.service.ts:31-35 | a single entry counts its key and value length, or nothing when either is empty |
| `WorkoutListApi.NearLimitIntegerForm` | src/entities/workout-list/api/local-storage.service.ts:97-102 | the percentage reaches 80 exactly when `used * 100 >= 80 * 5242880` |
| `WorkoutListApi.LocalStorageService.constructor` | src/entities/workout-list/api/local-storage.service.ts:107 | the one shared service starts out holding whatever the browser already stores under the key (the given `initial`) |
| `WorkoutListApi.LocalStorageService.GetAllLists` | src/entities/workout-list/api/local-storage.service.ts:41-43 | the stored lists, or none when nothing readable is stored |
| `WorkoutListApi.LocalStorageService.GetList` | src/entities/workout-list/api/local-storage.service.ts:45-48 | nothing exactly when no stored list has the identifier; otherwise the first stored list with it |
| `WorkoutListApi.LocalStorageService.SetStorageData` | src/entities/workout-list/api/local-storage.service.ts:18-25 | an accepted write stores the lists; a refused one keeps the old value and fails with the storage-full message |
| `WorkoutListApi.LocalStorageService.SaveList` | src/entities/workout-list/api/local-storage.service.ts:50-59 | the stored lists become the upsert of the old ones; afterwards `GetList(list.id)` returns the list; a refused write changes nothing |
| `WorkoutListApi.LocalStorageService.DeleteList` | src/entities/workout-list/api/local-storage.service.ts:61-65 | the stored lists become the old ones filtered by identifier, in order; afterwards `GetList(id)` is nothing |
| `WorkoutListApi.LocalStorageService.UpdateList` | src/entities/workout-list/api/local-storage.service.ts:67-74 | with no matching list nothing is written and the call succeeds; otherwise the first match is merged and written back |
| `WorkoutListApi.LocalStorageService.CalculateLocalStorageSize` | src/entities/workout-list/api/local-storage.service.ts:27-39 | the loop's total is twice the character count of the entries with a non-empty key and value, so it is non-negative |
| `WorkoutListApi.LocalStorageService.GetUsagePercentage` | src/entities/workout-list/api/local-storage.service.ts:76-79 | the used bytes as a non-negative percentage of 5 MB |
| `WorkoutListApi.LocalStorageService.GetStorageStats` | src/entities/workout-list/api/local-storage.service.ts:95-104 | used bytes are twice the character count; total bytes are always 5242880; the near-limit flag holds exactly when `used * 100 >= 80 * 5242880` |
| `WorkoutListModel.UpsertWellFormed` | src/entities/workout-list/api/local-storage.service.ts:50-59 | saving a list whose progress is in range into lists whose progress is in range keeps every list in range |
| `WorkoutListModel.AfterSave` | src/entities/workout-list/model/store.ts:113-117 | a store action's save changes only storage when accepted; when refused, it changes only `error`, to the adapter's message |
| `WorkoutListModel.AfterLoad` | src/entities/workout-list/model/store.ts:34-41 | the in-memory lists become the stored ones, loading ends, and nothing else changes |
| `WorkoutListModel.LoadPreservesConsistent` | src/entities/workout-list/model/store.ts:34-41 | loading keeps every progress count in range |
| `WorkoutListModel.NewWorkoutExercise` | src/entities/workout-list/model/store.ts:54-58 | a new exercise carries the DTO's fields, its own identifier and no completed sets |
| `WorkoutListModel.BuildList` | src/entities/workout-list/model/store.ts:49-61 | the new list has the DTO's name and description, the same number of exercises in the same order, its creation stamp, and no `lastUsedAt` |
| `WorkoutListModel.BuildListWellFormed` | src/entities/workout-list/model/store.ts:49-61 | every new exercise has zero completed sets; the list is in range exactly when no DTO exercise has a negative set count |
| `WorkoutListModel.AddAppendsOnlyWhenSaved` | src/entities/workout-list/model/store.ts:63-72 | an accepted save appends exactly the new list, keeps the old prefix and makes the list retrievable from storage; a refused one leaves lists and storage alone and sets `error` |
| `WorkoutListModel.AddPreservesConsistent` | src/entities/workout-list/model/store.ts:49-72 | adding a list whose progress is in range keeps the invariant |
| `WorkoutListModel.ClearIfDeleted` | src/entities/workout-list/model/store.ts:80-82 | the current workout is cleared exactly when it has the deleted identifier, and otherwise kept |
| `WorkoutListModel.DeleteRemovesExactlyId` | src/entities/workout-list/model/store.ts:75-88 | on success neither memory nor storage finds the identifier, every other identifier finds what it found before, and the current workout is cleared exactly when it was the deleted list; on failure only `error` changes |
| `WorkoutListModel.DeleteKeepsOrder` | src/entities/workout-list/model/store.ts:79 | deleting from a concatenation is deleting from each part, so the remaining lists keep their order |
| `WorkoutListModel.DeletePreservesConsistent` | src/entities/workout-list/model/store.ts:75-88 | deleting keeps the invariant |
| `WorkoutListModel.Increment` | src/entities/workout-list/model/store.ts:99-101 | below its target an exercise gains exactly one set; at or above the target it is unchanged; no other field changes |
| `WorkoutListModel.IncrementFirst` | src/entities/workout-list/model/store.ts:96-101 | only the first exercise with the identifier is incremented, and an unknown identifier changes nothing |
| `WorkoutListModel.Progressed` | src/entities/workout-list/model/store.ts:96-103 | the list's exercises are incremented at the target and `lastUsedAt` becomes the action's time stamp; its identity fields are kept |
| `WorkoutListModel.ProgressSaturatingStep` | src/entities/workout-list/model/store.ts:93-117 | the named list becomes exactly `Progressed` of itself: the target exercise is `Increment` of itself (one more completed set below its target, unchanged at the target, every other field kept), `lastUsedAt` is stamped, every other exercise and list is untouched; an accepted save makes storage return that list with the error unchanged, and a refused one leaves storage as it was and records the write error |
| `WorkoutListModel.ProgressAbsentIsNoOp` | src/entities/workout-list/model/store.ts:93-97 | a missing list or exercise leaves the whole state unchanged, `lastUsedAt` included |
| `WorkoutListModel.ProgressMirrorsCurrent` | src/entities/workout-list/model/store.ts:105-111 | a current workout with the list's identifier takes its own saturating step and the same stamp, even when it has drifted from the in-memory list; one that was an exact copy of the list is still one afterwards; one with another identifier is untouched |
| `WorkoutListModel.FailedProgressSaveDiverges` | src/entities/workout-list/model/store.ts:113-117 | a refused save keeps the in-memory step and records the error, so memory and storage that agreed before no longer agree |
| `WorkoutListModel.IncrementInRange` | src/entities/workout-list/model/store.ts:99-101 | one increment keeps progress between 0 and the target |
| `WorkoutListModel.ProgressedWellFormed` | src/entities/workout-list/model/store.ts:96-103 | a progress step keeps a list's progress in range |
| `WorkoutListModel.ProgressPreservesConsistent` | src/entities/workout-list/model/store.ts:91-119 | the progress action keeps the invariant in memory, in the current workout and in storage |
| `WorkoutListModel.IncrementTimesSaturates` | src/entities/workout-list/model/store.ts:99-101 | n increments raise progress by n, capped at the target, and change nothing else |
| `WorkoutListModel.AfterSetCurrent` | src/entities/workout-list/model/store.ts:121-128 | with a stored list of that identifier the current workout becomes it; otherwise nothing changes |
| `WorkoutListModel.AfterClear` | src/entities/workout-list/model/store.ts:130-134 | the current workout becomes nothing and nothing else changes |
| `WorkoutListModel.SetCurrentPreservesConsistent` | src/entities/workout-list/model/store.ts:121-134 | setting and clearing the current workout keep the invariant |
| `WorkoutListModel.ZeroFirst` | src/entities/workout-list/model/store.ts:141-144 | only the first exercise with the identifier is zeroed, and the length is kept |
| `WorkoutListModel.ZeroAllAt` | src/entities/workout-list/model/store.ts:159-161 | every exercise, at every index, has its progress set to 0 and keeps its other fields |
| `WorkoutListModel.ResetAllZeroesList` | src/entities/workout-list/model/store.ts:154-169 | every exercise of the named list is its old self with 0 completed sets; the list's own fields, the other lists and the current workout are unchanged; an accepted save makes storage return the reset list, a refused one leaves storage as it was and records the write error; an unknown list changes nothing |
| `WorkoutListModel.ResetExerciseZeroesOnlyIt` | src/entities/workout-list/model/store.ts:136-152 | the named exercise of the named list is its old self with 0 completed sets and every other exercise is unchanged; the list's own fields, the other lists and the current workout are unchanged; an accepted save makes storage return the reset list, a refused one leaves storage as it was and records the write error; an unknown list changes nothing |
| `WorkoutListModel.ZeroAllWellFormed` | src/entities/workout-list/model/store.ts:159-161 | zeroing keeps a list in range |
| `WorkoutListModel.ResetPreservesConsistent` | src/entities/workout-list/model/store.ts:136-169 | both resets keep the invariant |
| `WorkoutListModel.WorkoutListStore.constructor` | src/entities/workout-list/model/store.ts:29-32 | the store starts with no lists, no current workout, not loading, and no error |
| `WorkoutListModel.WorkoutListStore.LoadFromStorage` | src/entities/workout-list/model/store.ts:34-46 | the new state is `AfterLoad` of the old one |
| `WorkoutListModel.WorkoutListStore.AddWorkoutList` | src/entities/workout-list/model/store.ts:49-72 | the new state is `AfterAdd` of the old one with the built list |
| `WorkoutListModel.WorkoutListStore.DeleteWorkoutList` | src/entities/workout-list/model/store.ts:75-88 | the new state is `AfterDelete` of the old one |
| `WorkoutListModel.WorkoutListStore.UpdateWorkoutProgress` | src/entities/workout-list/model/store.ts:91-119 | the new state is `AfterProgress` of the old one |
| `WorkoutListModel.WorkoutListStore.ApplyProgress` | src/entities/workout-list/model/store.ts:96-110 | the in-place increment and stamp give `Progressed` of the list |
| `WorkoutListModel.WorkoutListStore.SetCurrentWorkout` | src/entities/workout-list/model/store.ts:121-128 | the new state is `AfterSetCurrent` of the old one |
| `WorkoutListModel.WorkoutListStore.ClearCurrentWorkout` | src/entities/workout-list/model/store.ts:130-134 | the new state is `AfterClear` of the old one |
| `WorkoutListModel.WorkoutListStore.ResetExerciseProgress` | src/entities/workout-list/model/store.ts:136-152 | the new state is `AfterResetExercise` of the old one |
| `WorkoutListModel.WorkoutListStore.ResetAllProgress` | src/entities/workout-list/model/store.ts:154-169 | the zeroing loop gives `ZeroAll` of the list's exercises, and the new state is `AfterResetAll` of the old one |
| `ExerciseModel.IndexOfCatalogExercise` | src/entities/exercise/model/store.ts:45 | the index of the first exercise with the identifier, or -1 exactly when there is none |
| `ExerciseModel.WithoutExercise` | src/entities/exercise/model/store.ts:38-41 | only exercises with another identifier remain, all of them remain, and an unknown identifier changes nothing |
| `ExerciseModel.MergeExercise` | src/entities/exercise/model/store.ts:47 | each field the patch names takes the patch's value and every other field keeps its own |
| `ExerciseModel.PatchFirstExercise` | src/entities/exercise/model/store.ts:43-49 | an update never changes the number of exercises |
| `ExerciseModel.MergeEmptyIsIdentity` | src/entities/exercise/model/store.ts:47 | an empty patch changes nothing |
| `ExerciseModel.MergeIdempotent` | src/entities/exercise/model/store.ts:47 | applying the same patch twice equals applying it once |
| `ExerciseModel.MergeOverrides` | src/entities/exercise/model/store.ts:47 | a later patch overrides an earlier one field by field |
| `ExerciseModel.AddAppendsFindable` | src/entities/exercise/model/store.ts:28-36 | the catalogue grows by one exercise at the end, carrying the DTO's name, description and muscle group; the old entries are the prefix; with a fresh identifier a lookup finds the new entry, and otherwise it still finds the earlier one |
| `ExerciseModel.RemoveDropsExactlyId` | src/entities/exercise/model/store.ts:38-41 | after removal no exercise has the identifier, every other one is kept, and removal distributes over concatenation, so order is kept |
| `ExerciseModel.RemoveIdempotent` | src/entities/exercise/model/store.ts:38-41 | removing twice equals removing once |
| `ExerciseModel.UpdatePatchesOnlyFirst` | src/entities/exercise/model/store.ts:43-49 | an unknown identifier changes nothing; otherwise exactly the first match takes the patch and every other position is kept |
| `ExerciseModel.UpdateKeepsLookup` | src/entities/exercise/model/store.ts:43-49 | a patch that does not rename leaves the exercise at its index under its identifier, patched |
| `ExerciseModel.ExerciseStore.constructor` | src/entities/exercise/model/store.ts:24-26 | the catalogue starts empty, not loading, with no error |
| `ExerciseModel.ExerciseStore.AddExercise` | src/entities/exercise/model/store.ts:28-36 | the new exercise is appended and the other fields are unchanged |
| `ExerciseModel.ExerciseStore.RemoveExercise` | src/entities/exercise/model/store.ts:38-41 | the catalogue becomes the filtered catalogue and the other fields are unchanged |
| `ExerciseModel.ExerciseStore.UpdateExercise` | src/entities/exercise/model/store.ts:43-49 | the catalogue becomes `PatchFirstExercise` of the old one and the other fields are unchanged |
| `ExerciseModel.ExerciseStore.SetExercises` | src/entities/exercise/model/store.ts:51-54 | only the exercises field is replaced |
| `ExerciseModel.ExerciseStore.SetLoading` | src/entities/exercise/model/store.ts:56-59 | only the loading flag is replaced |
| `ExerciseModel.ExerciseStore.SetError` | src/entities/exercise/model/store.ts:61-64 | only the error is replaced |
| `WorkoutModePage.TapStep` | src/pages/workout-mode/ui/workout-mode-page-logic-layer.tsx:49-61 | a tap is an attempt exactly when `0 < now - lastTap < 300`, with a missing entry read as 0; the tapped entry becomes 0 after an attempt and `now` otherwise; no other entry changes |
| `WorkoutModePage.TapsWithinWindowAttemptOnce` | src/pages/workout-mode/ui/workout-mode-page-logic-layer.tsx:54-60 | on a real clock, two taps 100 ms apart make exactly one attempt, on the second tap |
| `WorkoutModePage.TapsOutsideWindowNoAttempt` | src/pages/workout-mode/ui/workout-mode-page-logic-layer.tsx:54-60 | two taps 500 ms apart make no attempt on the second |
| `WorkoutModePage.SameInstantNoAttempt` | src/pages/workout-mode/ui/workout-mode-page-logic-layer.tsx:55 | a tap at the same instant as the recorded one is no attempt |
| `WorkoutModePage.ThirdTapStartsOver` | src/pages/workout-mode/ui/workout-mode-page-logic-layer.tsx:57 | after a double tap the entry is reset, so a third quick tap starts a new pair |
| `WorkoutModePage.JustCompletedMatchesProgress` | src/pages/workout-mode/ui/workout-mode-page-logic-layer.tsx:39-45 | when the click's step reaches the list, the current workout's exercise rises by one, and it reaches its target exactly when the flag is raised |
| `WorkoutModePage.FlagWithoutProgress` | src/pages/workout-mode/ui/workout-mode-page-logic-layer.tsx:36-45 | when the current workout's list is not in memory, a completing click changes nothing in the store |
| `WorkoutModePage.CompletedExercises` | src/pages/workout-mode/ui/workout-mode-page-logic-layer.tsx:77 | as many exercises are kept as there are positions whose exercise is at its target (`CompletePositions`); every exercise kept is at its target; all are kept exactly when all are at their target |
| `WorkoutModePage.CompletePositions` | src/pages/workout-mode/ui/workout-mode-page-logic-layer.tsx:77 | no contract of its own: the set of positions whose exercise has `completedSets == sets`, the independent count `CompletedExercises` and `CalculateProgress` are stated against |
| `WorkoutModePage.PercentageBounds` | src/pages/workout-mode/ui/workout-mode-page-logic-layer.tsx:78 | `completed / total * 100` lies in [0, 100] and is 100 exactly when `completed == total` |
| `WorkoutModePage.CalculateProgress` | src/pages/workout-mode/ui/workout-mode-page-logic-layer.tsx:71-81 | all 0 with no workout; otherwise the total is the number of exercises and the completed figure the number of positions whose exercise is at its target; `0 <= completed <= total`; with exercises present the percentage is exactly that completed count over the total, times 100; it lies in [0, 100], is 0 with no exercises, and is 100 exactly when there are exercises and all are complete |
| `WorkoutModePage.ResetAllKeepsDisplayedProgress` | src/pages/workout-mode/ui/workout-mode-page-logic-layer.tsx:63-69 | a reset leaves the figures computed from the current workout unchanged |
| `WorkoutModePage.WorkoutModeLogic.constructor` | src/pages/workout-mode/ui/workout-mode-page-logic-layer.tsx:23-24 | no exercise just completed and no taps recorded |
| `WorkoutModePage.WorkoutModeLogic.Mount` | src/pages/workout-mode/ui/workout-mode-page-logic-layer.tsx:26-29 | a non-empty route identifier makes the store fetch the current workout; an empty one changes nothing |
| `WorkoutModePage.WorkoutModeLogic.Unmount` | src/pages/workout-mode/ui/workout-mode-page-logic-layer.tsx:30 | the store's current workout is cleared |
| `WorkoutModePage.WorkoutModeLogic.HandleExerciseClick` | src/pages/workout-mode/ui/workout-mode-page-logic-layer.tsx:33-47 | the store takes the progress step on the current workout's identifier exactly when there is a current workout, it holds the exercise, and the exercise is below its target; the flag is set exactly when that set is the last; taps are untouched |
| `WorkoutModePage.WorkoutModeLogic.ExpireJustCompleted` | src/pages/workout-mode/ui/workout-mode-page-logic-layer.tsx:44 | the timer clears the flag |
| `WorkoutModePage.WorkoutModeLogic.HandleTap` | src/pages/workout-mode/ui/workout-mode-page-logic-layer.tsx:49-61 | the tap map becomes `TapStep`'s; the store steps and the flag is raised only on an attempt that passes the click guard; otherwise neither changes |
| `WorkoutModePage.WorkoutModeLogic.HandleResetAll` | src/pages/workout-mode/ui/workout-mode-page-logic-layer.tsx:63-69 | the store resets the current workout's list exactly when there is one and the answer is yes; otherwise the store is unchanged |
| `CreateWorkoutPage.WithDefaultDraft` | src/pages/create-workout/ui/create-workout-page-logic-layer.tsx:26-38 | one draft (no name, chest, weight 0, 10 reps, 3 sets) is appended after the unchanged drafts |
| `CreateWorkoutPage.WithoutDraft` | src/pages/create-workout/ui/create-workout-page-logic-layer.tsx:40-42 | only drafts with another temporary identifier remain, all of them remain, and an unknown identifier changes nothing |
| `CreateWorkoutPage.WithUpdatedDraft` | src/pages/create-workout/ui/create-workout-page-logic-layer.tsx:44-50 | an update never changes the number of drafts |
| `CreateWorkoutPage.ApplyFieldChangesOnlyIt` | src/pages/create-workout/ui/create-workout-page-logic-layer.tsx:49 | the written field reads back the value, the other five are kept, writing twice is writing once, and writing a field's own value changes nothing |
| `CreateWorkoutPage.UpdateChangesOnlyNamedField` | src/pages/create-workout/ui/create-workout-page-logic-layer.tsx:44-50 | only drafts with the temporary identifier change, and only in the named field; the length and the order are kept |
| `CreateWorkoutPage.UpdateUnknownIsNoOp` | src/pages/create-workout/ui/create-workout-page-logic-layer.tsx:49 | an identifier no draft carries changes nothing |
| `CreateWorkoutPage.AddThenRemoveRestores` | src/pages/create-workout/ui/create-workout-page-logic-layer.tsx:26-42 | adding a draft under a fresh identifier and removing that identifier restores the drafts |
| `CreateWorkoutPage.RemoveKeepsOrder` | src/pages/create-workout/ui/create-workout-page-logic-layer.tsx:40-42 | removal distributes over concatenation, so order is kept, and removing twice equals removing once |
| `CreateWorkoutPage.FindInvalidDraft` | src/pages/create-workout/ui/create-workout-page-logic-layer.tsx:65 | nothing is found exactly when every draft is valid |
| `CreateWorkoutPage.ToExerciseDtos` | src/pages/create-workout/ui/create-workout-page-logic-layer.tsx:75 | one DTO exercise per draft, in order |
| `CreateWorkoutPage.Submit` | src/pages/create-workout/ui/create-workout-page-logic-layer.tsx:52-80 | accepted exactly when the trimmed name is non-empty, there is a draft, and no draft is invalid; each failure carries its alert text in check order; an accepted DTO has the trimmed name and description and the drafts in order |
| `CreateWorkoutPage.AcceptedExercisesValid` | src/pages/create-workout/ui/create-workout-page-logic-layer.tsx:65-70 | every exercise of an accepted DTO has a non-blank name, weight >= 0, reps >= 1 and sets >= 1 |
| `CreateWorkoutPage.AcceptedListStartsBelowTarget` | src/entities/workout-list/model/store.ts:49-61 | the list the store builds from an accepted DTO is in range and non-empty, and every exercise starts at 0 below a positive target |
| `CreateWorkoutPage.CreateWorkoutLogic.constructor` | src/pages/create-workout/ui/create-workout-page-logic-layer.tsx:22-24 | empty name, empty description, no drafts |
| `CreateWorkoutPage.CreateWorkoutLogic.SetName` | src/pages/create-workout/ui/create-workout-page-logic-layer.tsx:91 | only the name changes |
| `CreateWorkoutPage.CreateWorkoutLogic.SetDescription` | src/pages/create-workout/ui/create-workout-page-logic-layer.tsx:92 | only the description changes |
| `CreateWorkoutPage.CreateWorkoutLogic.AddExercise` | src/pages/create-workout/ui/create-workout-page-logic-layer.tsx:26-38 | the drafts become `WithDefaultDraft` of the old ones |
| `CreateWorkoutPage.CreateWorkoutLogic.RemoveExercise` | src/pages/create-workout/ui/create-workout-page-logic-layer.tsx:40-42 | the drafts become `WithoutDraft` of the old ones |
| `CreateWorkoutPage.CreateWorkoutLogic.UpdateExercise` | src/pages/create-workout/ui/create-workout-page-logic-layer.tsx:44-50 | the drafts become `WithUpdatedDraft` of the old ones |
| `CreateWorkoutPage.CreateWorkoutLogic.HandleSubmit` | src/pages/create-workout/ui/create-workout-page-logic-layer.tsx:52-80 | the early-return checks give exactly `Submit` of the form's fields |
| `AddExerciseFeature.SubmitOutcome` | src/features/add-exercise/ui/add-exercise-form-logic-layer.tsx:17-21 | nothing exactly when the name is all white space; otherwise the untrimmed name, the description and the muscle group |
| `AddExerciseFeature.SubmittedExerciseAppended` | src/features/add-exercise/ui/add-exercise-form-data-layer.tsx:8-10 | an accepted submit makes the catalogue grow by one exercise carrying the name as typed, the description and the group; its name has a non-white-space character |
| `AddExerciseFeature.AddExerciseFormLogic.constructor` | src/features/add-exercise/ui/add-exercise-form-logic-layer.tsx:10-12 | empty name, empty description, chest |
| `AddExerciseFeature.AddExerciseFormLogic.SetName` | src/features/add-exercise/ui/add-exercise-form-logic-layer.tsx:35 | only the name changes |
| `AddExerciseFeature.AddExerciseFormLogic.SetDescription` | src/features/add-exercise/ui/add-exercise-form-logic-layer.tsx:36 | only the description changes |
| `AddExerciseFeature.AddExerciseFormLogic.SetMuscleGroup` | src/features/add-exercise/ui/add-exercise-form-logic-layer.tsx:37 | only the muscle group changes |
| `AddExerciseFeature.AddExerciseFormLogic.HandleSubmit` | src/features/add-exercise/ui/add-exercise-form-logic-layer.tsx:14-26 | a blank name hands nothing on and changes nothing; otherwise the one `onAdd` call gets the untrimmed fields and the form resets to empty name, empty description and chest |
| `AddExerciseFeature.AddExerciseFormLogic.IsDisabled` | src/features/add-exercise/ui/add-exercise-form-logic-layer.tsx:28 | disabled exactly when the name is all white space, which is exactly when a submit would hand nothing on |
| `Base.FindIndex` | src/entities/workout-list/api/local-storage.service.ts:52 | `findIndex`: the first index whose element passes, or -1 exactly when none passes |
| `Base.Find` | src/entities/workout-list/api/local-storage.service.ts:47 | `find`: nothing exactly when no element passes; otherwise the element at the first passing index |
| `Base.Filter` | src/entities/workout-list/api/local-storage.service.ts:63 | `filter`: every element kept passes and comes from the input, every passing element is kept, and when all pass the input is returned |
| `Base.Positions` | src/pages/workout-mode/ui/workout-mode-page-logic-layer.tsx:77 | no contract of its own: the set of indices whose element passes, which `FilterCountsIndices` counts |
| `Base.FilterCountsIndices` | src/pages/workout-mode/ui/workout-mode-page-logic-layer.tsx:77 | a filter's length is the number of indices whose element passes |
| `WorkoutListTypes.IndexOfList` | src/entities/workout-list/api/local-storage.service.ts:52 | the index of the first list with the identifier, or -1 exactly when there is none |
| `WorkoutListTypes.FindList` | src/entities/workout-list/api/local-storage.service.ts:47 | nothing exactly when no list has the identifier; otherwise the list at its first index |
| `WorkoutListTypes.IndexOfExercise` | src/entities/workout-list/model/store.ts:96 | the index of the first exercise with the identifier, or -1 exactly when there is none |
| `WorkoutListTypes.WithoutList` | src/entities/workout-list/api/local-storage.service.ts:63 | only lists with another identifier remain, all of them remain, and an unknown identifier changes nothing |
| `Text.IsBlank` | src/features/add-exercise/ui/add-exercise-form-logic-layer.tsx:17 | no contract of its own: `!s.trim()`, the definition `BlankIffAllWhitespace` characterises |
| `WorkoutListApi.LocalStorageService.GetStorageData` | src/entities/workout-list/api/local-storage.service.ts:8-16 | no contract of its own: the stored lists as `ListsOf` reads them, the definition `GetAllLists` and `GetList` refer to |
| `WorkoutListModel.AfterAdd` | src/entities/workout-list/model/store.ts:63-72 | no contract of its own: the transition `AddWorkoutList` takes, whose properties `AddAppendsOnlyWhenSaved` and `AddPreservesConsistent` state |
| `WorkoutListModel.AfterDelete` | src/entities/workout-list/model/store.ts:75-88 | no contract of its own: the transition `DeleteWorkoutList` takes, whose properties `DeleteRemovesExactlyId` and `DeletePreservesConsistent` state |
| `WorkoutListModel.ProgressApplies` | src/entities/workout-list/model/store.ts:93-97 | no contract of its own: the two early returns (no such list, no such exercise in it) under which `UpdateWorkoutProgress` changes nothing, as `ProgressAbsentIsNoOp` states |
| `WorkoutListModel.AfterProgress` | src/entities/workout-list/model/store.ts:91-119 | no contract of its own: the transition `UpdateWorkoutProgress` takes, whose properties `ProgressSaturatingStep`, `ProgressAbsentIsNoOp`, `ProgressMirrorsCurrent`, `FailedProgressSaveDiverges` and `ProgressPreservesConsistent` state |
| `WorkoutListModel.AfterResetExercise` | src/entities/workout-list/model/store.ts:136-152 | no contract of its own: the transition `ResetExerciseProgress` takes, whose properties `ResetExerciseZeroesOnlyIt` and `ResetPreservesConsistent` state |
| `WorkoutListModel.AfterResetAll` | src/entities/workout-list/model/store.ts:154-169 | no contract of its own: the transition `ResetAllProgress` takes, whose properties `ResetAllZeroesList` and `ResetPreservesConsistent` state |
| `WorkoutListModel.ZeroAll` | src/entities/workout-list/model/store.ts:159-161 | no contract of its own: the `forEach` that zeroes every exercise, characterised by `ZeroAllAt` and `ZeroAllLength` |
| `WorkoutListModel.ZeroAllLength` | src/entities/workout-list/model/store.ts:159-161 | zeroing keeps the number of exercises |
| `WorkoutListModel.IncrementTimes` | src/entities/workout-list/model/store.ts:99-101 | no contract of its own: n saturating increments in a row, characterised by `IncrementTimesSaturates` |
| `ExerciseModel.NewExercise` | src/entities/exercise/model/store.ts:30-34 | the new exercise has the generated identifier and time stamp and the DTO's name, description and muscle group |
| `CreateWorkoutPage.DefaultDraft` | src/pages/create-workout/ui/create-workout-page-logic-layer.tsx:29-36 | no contract of its own: the draft with no name, chest, weight 0, 10 reps and 3 sets that `WithDefaultDraft` appends |
| `CreateWorkoutPage.ApplyField` | src/pages/create-workout/ui/create-workout-page-logic-layer.tsx:49 | no contract of its own: `{ ...ex, [field]: value }`, characterised by `ApplyFieldChangesOnlyIt` |
| `CreateWorkoutPage.IsInvalidDraft` | src/pages/create-workout/ui/create-workout-page-logic-layer.tsx:65 | no contract of its own: the test a draft fails, the definition `FindInvalidDraft`, `Submit` and `AcceptedExercisesValid` refer to |
| `WorkoutModePage.LastTap` | src/pages/workout-mode/ui/workout-mode-page-logic-layer.tsx:51 | no contract of its own: the recorded time, with a missing entry read as 0, the definition `TapStep` refers to |
| `WorkoutModePage.ClickAttempts` | src/pages/workout-mode/ui/workout-mode-page-logic-layer.tsx:34-39 | no contract of its own: the click guard, the definition `HandleExerciseClick` and `HandleTap` refer to |
| `WorkoutModePage.ClickCompletes` | src/pages/workout-mode/ui/workout-mode-page-logic-layer.tsx:42 | no contract of its own: the guard plus the last-set test, the definition the flag in `HandleExerciseClick` and `HandleTap` refers to |
| `WorkoutModePage.WorkoutModeLogic.Progress` | src/pages/workout-mode/ui/workout-mode-page-logic-layer.tsx:83 | no contract of its own: `CalculateProgress` of the store's current workout, whose contract states the figures |

## Left out

- Rendering, routing, the page views, the dialog and button wrappers, the
  data-layer hook wiring, stories and tests, the theme stores,
  `createSelectors`, `formatDate` and `exerciseApi`. They hold no logic of
  the core beyond what is modelled here.
- JSON text. `JSON.stringify` and `JSON.parse` are not modelled; the stored
  value is the parsed one. A stored text that parses to something other than
  an array (for example `null`) is not represented.
- `localStorage` itself, `console.error`, and the `try`/`catch` around reads
  are not modelled. A read cannot fail here: it yields no lists.
- `getUsagePercentageAsync` and `navigator.storage.estimate` are
  asynchronous and foreign, so they are not modelled.
- Floating-point arithmetic. Percentages are exact real numbers. The
  near-limit test is also stated in integer form.
- UTF-16. Strings are sequences of code points, so `key.length` and
  `value.length` (UTF-16 code units) and `trim` are stated over code points.
- `setTimeout`. The timer that clears `justCompleted` after one second is
  the separate method `ExpireJustCompleted`. When the timer fires is not
  modelled.
- `alert`, `confirm` and `navigate`. The alert texts are the `Failure`
  values of `Submit`. The confirmation answer is an input. Navigating away
  after a submit or a cancel is not modelled.
- Zustand, immer and devtools. Each `set(...)` is one atomic transition; no
  subscriptions are modelled.
- The `catch` branches of the store whose message is not the adapter's (for
  example 'Failed to load workout lists') cannot occur here, because the
  adapter only ever raises its storage-full message.
- A field update of the create-workout page whose value does not match the
  field's type (possible in the source through its loose typing) is not
  modelled: `FieldUpdate` pairs each field with a value of its own type.
- The `tempId` that each copied draft still carries at run time in the DTO
  (and from there into stored exercises) is dropped; `ExerciseDto` has no
  such field.
- Number semantics. Weights, reps, sets and clock readings are unbounded
  integers; `NaN`, fractions and values typed as text by the form are not
  modelled.
- `Object.assign` also copies a key whose value is explicitly `undefined`.
  The patches (`WorkoutListPatch`, `ExercisePatch`) are `Option` per field,
  so such a key is read as absent and the field keeps its value.
