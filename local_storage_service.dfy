/** The persistence adapter (src/entities/workout-list/api/local-storage.service.ts).
    One browser key, STORAGE_KEY, holds every workout list. Its JSON text is not
    modelled: the field `stored` is the parsed value, None when the key is
    missing, its text empty, or the text fails to parse. Whether the browser
    accepts a write (it may refuse when its quota is exceeded) is an input of
    each writing operation. */
module WorkoutListApi {
  import opened Base
  import opened WorkoutListTypes

  const STORAGE_KEY: string := "workout-lists"

  /** The 5 MB ceiling assumed for the origin's local storage. */
  const STORAGE_LIMIT_BYTES: int := 5 * 1024 * 1024

  /** The message of the error a refused write raises. */
  const WRITE_ERROR: string := "Failed to save workout list. Storage might be full."

  /** The completion of a write the browser accepted (`writeOk`) or refused. */
  function WriteOutcome(writeOk: bool): (r: Outcome<string>)
    ensures r.Pass? <==> writeOk
    ensures r.Fail? ==> r.error == WRITE_ERROR
  {
    if writeOk then Pass else Fail(WRITE_ERROR)
  }

  /** The lists a stored value reads as: none when it reads as nothing. */
  function ListsOf(stored: Option<seq<WorkoutList>>): (r: seq<WorkoutList>)
    ensures stored.None? ==> r == []
    ensures stored.Some? ==> r == stored.value
  {
    if stored.Some? then stored.value else []
  }

  /** The lists as `saveList` leaves them: `list` replaces the first list with
      its identifier, or is appended when no list has it. */
  function Upsert(ls: seq<WorkoutList>, list: WorkoutList): (r: seq<WorkoutList>)
    ensures IndexOfList(ls, list.id) >= 0 ==>
      (|r| == |ls| && r[IndexOfList(ls, list.id)] == list
       && forall j :: 0 <= j < |ls| && j != IndexOfList(ls, list.id) ==> r[j] == ls[j])
    ensures IndexOfList(ls, list.id) == -1 ==> |r| == |ls| + 1 && r[..|ls|] == ls && r[|ls|] == list
  {
    var i := IndexOfList(ls, list.id);
    if i >= 0 then ls[i := list] else ls + [list]
  }

  /** Saving a list and then looking its identifier up gives back that list,
      whatever the lists held before. */
  lemma UpsertRoundTrip(ls: seq<WorkoutList>, list: WorkoutList)
    ensures FindList(Upsert(ls, list), list.id) == Some(list)
  {
    var r := Upsert(ls, list);
    var i := IndexOfList(ls, list.id);
    var k := if i >= 0 then i else |ls|;
    assert r[k] == list;
    assert forall j :: 0 <= j < k ==> r[j].id != list.id;
    assert IndexOfList(r, list.id) == k;
  }

  /** Saving a list does not change what any other identifier looks up. */
  lemma UpsertKeepsOthers(ls: seq<WorkoutList>, list: WorkoutList, id: string)
    requires id != list.id
    ensures FindList(Upsert(ls, list), id) == FindList(ls, id)
  {
    var r := Upsert(ls, list);
    assert forall j :: 0 <= j < |ls| ==> (r[j].id == id <==> ls[j].id == id);
    var k := IndexOfList(ls, id);
    if k >= 0 {
      assert IndexOfList(r, id) == k;
    } else {
      assert forall j :: 0 <= j < |r| ==> r[j].id != id;
    }
  }

  /** After `deleteList(id)` nothing answers to `id`. */
  lemma DeleteRemovesId(ls: seq<WorkoutList>, id: string)
    ensures FindList(WithoutList(ls, id), id) == None
  {
    var r := WithoutList(ls, id);
    assert forall j :: 0 <= j < |r| ==> r[j].id != id;
  }

  /** Deleting one identifier does not change what any other looks up. */
  lemma DeleteKeepsOthers(ls: seq<WorkoutList>, id: string, other: string)
    requires other != id
    ensures FindList(WithoutList(ls, id), other) == FindList(ls, other)
  {
    var keep := (l: WorkoutList) => l.id != id;
    var p := (l: WorkoutList) => l.id == other;
    FindAfterFilter(ls, keep, p);
    var r := WithoutList(ls, id);
    assert Find(r, p).None? <==> IndexOfList(r, other) == -1;
    assert Find(ls, p).None? <==> IndexOfList(ls, other) == -1;
    if IndexOfList(ls, other) >= 0 {
      assert Find(ls, p) == Some(ls[IndexOfList(ls, other)]);
      assert Find(r, p) == Some(r[IndexOfList(r, other)]);
    }
  }

  /** `Object.assign(list, updates)`: every field the patch names takes the
      patch's value, every other field keeps its own. */
  function MergeList(l: WorkoutList, p: WorkoutListPatch): (r: WorkoutList)
    ensures r.id == (if p.id.Some? then p.id.value else l.id)
    ensures r.name == (if p.name.Some? then p.name.value else l.name)
    ensures r.description == (if p.description.Some? then p.description.value else l.description)
    ensures r.exercises == (if p.exercises.Some? then p.exercises.value else l.exercises)
    ensures r.createdAt == (if p.createdAt.Some? then p.createdAt.value else l.createdAt)
    ensures r.lastUsedAt == (if p.lastUsedAt.Some? then p.lastUsedAt.value else l.lastUsedAt)
    ensures p == WorkoutListPatch(None, None, None, None, None, None) ==> r == l
  {
    WorkoutList(
      if p.id.Some? then p.id.value else l.id,
      if p.name.Some? then p.name.value else l.name,
      if p.description.Some? then p.description.value else l.description,
      if p.exercises.Some? then p.exercises.value else l.exercises,
      if p.createdAt.Some? then p.createdAt.value else l.createdAt,
      if p.lastUsedAt.Some? then p.lastUsedAt.value else l.lastUsedAt)
  }

  /** Applying the same patch twice is applying it once. */
  lemma MergeListIdempotent(l: WorkoutList, p: WorkoutListPatch)
    ensures MergeList(MergeList(l, p), p) == MergeList(l, p)
  {
  }

  /** The lists as `updateList(id, updates)` would write them: None when no
      list has the identifier (nothing is written), otherwise the first match
      merged with the patch, everything else as it was. */
  function PatchFirstList(ls: seq<WorkoutList>, id: string, p: WorkoutListPatch): (r: Option<seq<WorkoutList>>)
    ensures r.None? <==> forall j :: 0 <= j < |ls| ==> ls[j].id != id
    ensures r.Some? ==> (|r.value| == |ls|
      && r.value[IndexOfList(ls, id)] == MergeList(ls[IndexOfList(ls, id)], p)
      && forall j :: 0 <= j < |ls| && j != IndexOfList(ls, id) ==> r.value[j] == ls[j])
  {
    var i := IndexOfList(ls, id);
    if i < 0 then None else Some(ls[i := MergeList(ls[i], p)])
  }

  /** One entry of the browser's key-value store, as text. */
  datatype Entry = Entry(key: string, value: string)

  /** What one entry adds to the character count: nothing when its key or its
      value is empty (both are falsy in JavaScript). */
  function EntryChars(e: Entry): (n: nat)
    ensures n == 0 <==> e.key == [] || e.value == []
    ensures e.key != [] && e.value != [] ==> n == |e.key| + |e.value|
  {
    if e.key != [] && e.value != [] then |e.key| + |e.value| else 0
  }

  /** The characters of keys and values over a run of entries. */
  function UsedChars(es: seq<Entry>): nat
  {
    if es == [] then 0 else UsedChars(es[..|es| - 1]) + EntryChars(es[|es| - 1])
  }

  /** The character count adds up over a split of the entries. */
  lemma {:induction false} UsedCharsAppend(a: seq<Entry>, b: seq<Entry>)
    ensures UsedChars(a + b) == UsedChars(a) + UsedChars(b)
  {
    if b != [] {
      assert (a + b)[..|a + b| - 1] == a + b[..|b| - 1];
      UsedCharsAppend(a, b[..|b| - 1]);
    } else {
      assert a + b == a;
    }
  }

  /** Entries with an empty key or value never count; others count in full. */
  lemma UsedCharsOfOne(e: Entry)
    ensures UsedChars([e]) == EntryChars(e)
  {
    assert [e][..0] == [];
  }

  /** A usage figure at or above 80 percent, stated in integers: the
      percentage `used / STORAGE_LIMIT_BYTES * 100` reaches 80 exactly when
      `used * 100` reaches `80 * STORAGE_LIMIT_BYTES`. */
  lemma NearLimitIntegerForm(used: int)
    ensures (used as real / STORAGE_LIMIT_BYTES as real) * 100.0 >= 80.0
      <==> used * 100 >= 80 * STORAGE_LIMIT_BYTES
  {
  }

  /** `getStorageStats()`'s result; the percentage is a real number here. */
  datatype StorageStats = StorageStats(usedBytes: int, totalBytes: int, usagePercentage: real, isNearLimit: bool)

  class LocalStorageService {
    /** The parsed value under STORAGE_KEY, None when it reads as nothing. */
    var stored: Option<seq<WorkoutList>>

    constructor (initial: Option<seq<WorkoutList>>)
      ensures stored == initial
    {
      stored := initial;
    }

    /** `getStorageData()`: the stored lists, or none at all. */
    function GetStorageData(): seq<WorkoutList>
      reads this
    {
      ListsOf(stored)
    }

    /** `getAllLists()`: a missing or unreadable value reads as no lists, never as an error. */
    function GetAllLists(): (r: seq<WorkoutList>)
      reads this
      ensures stored.None? ==> r == []
      ensures stored.Some? ==> r == stored.value
    {
      GetStorageData()
    }

    /** `getList(id)`: the first stored list with identifier `id`, if any. */
    function GetList(id: string): (r: Option<WorkoutList>)
      reads this
      ensures r.None? <==> forall j :: 0 <= j < |GetAllLists()| ==> GetAllLists()[j].id != id
      ensures r.Some? ==> r.value.id == id && r.value == GetAllLists()[IndexOfList(GetAllLists(), id)]
    {
      FindList(GetAllLists(), id)
    }

    /** `setStorageData(lists)`: replaces the stored value when the browser
        accepts the write; a refused write leaves it and fails with WRITE_ERROR. */
    method SetStorageData(lists: seq<WorkoutList>, writeOk: bool) returns (result: Outcome<string>)
      modifies this
      ensures result == WriteOutcome(writeOk)
      ensures stored == if writeOk then Some(lists) else old(stored)
    {
      if writeOk {
        stored := Some(lists);
        result := Pass;
      } else {
        result := Fail(WRITE_ERROR);
      }
    }

    /** `saveList(list)`: upsert by identifier, then write everything back. */
    method SaveList(list: WorkoutList, writeOk: bool) returns (result: Outcome<string>)
      modifies this
      ensures result == WriteOutcome(writeOk)
      ensures stored == if writeOk then Some(Upsert(old(GetAllLists()), list)) else old(stored)
      ensures writeOk ==> GetList(list.id) == Some(list)
    {
      var lists := GetStorageData();
      var existingIndex := IndexOfList(lists, list.id);
      if existingIndex >= 0 {
        lists := lists[existingIndex := list];
      } else {
        lists := lists + [list];
      }
      result := SetStorageData(lists, writeOk);
      UpsertRoundTrip(old(GetAllLists()), list);
    }

    /** `deleteList(id)`: keep the lists with another identifier, in order,
        and write them back. */
    method DeleteList(id: string, writeOk: bool) returns (result: Outcome<string>)
      modifies this
      ensures result == WriteOutcome(writeOk)
      ensures stored == if writeOk then Some(WithoutList(old(GetAllLists()), id)) else old(stored)
      ensures writeOk ==> GetList(id) == None
    {
      var lists := GetStorageData();
      var filteredLists := WithoutList(lists, id);
      result := SetStorageData(filteredLists, writeOk);
      DeleteRemovesId(old(GetAllLists()), id);
    }

    /** `updateList(id, updates)`: merge the patch into the first list with
        the identifier and write back; with no such list nothing is written
        and nothing can fail. */
    method UpdateList(id: string, updates: WorkoutListPatch, writeOk: bool) returns (result: Outcome<string>)
      modifies this
      ensures PatchFirstList(old(GetAllLists()), id, updates).None? ==> result == Pass && stored == old(stored)
      ensures PatchFirstList(old(GetAllLists()), id, updates).Some? ==>
        result == WriteOutcome(writeOk)
        && stored == if writeOk then PatchFirstList(old(GetAllLists()), id, updates) else old(stored)
    {
      var lists := GetStorageData();
      var i := IndexOfList(lists, id);
      if i >= 0 {
        lists := lists[i := MergeList(lists[i], updates)];
        result := SetStorageData(lists, writeOk);
      } else {
        result := Pass;
      }
    }

    /** `calculateLocalStorageSize()` over the browser store's entries: twice
        the characters of every entry with a non-empty key and value (two
        bytes per UTF-16 code unit). */
    method CalculateLocalStorageSize(entries: seq<Entry>) returns (bytes: int)
      ensures bytes == 2 * UsedChars(entries)
      ensures bytes >= 0
    {
      var totalSize := 0;
      for i := 0 to |entries|
        invariant totalSize == UsedChars(entries[..i])
      {
        assert entries[..i + 1][..i] == entries[..i];
        var key := entries[i].key;
        if key != [] {
          var value := entries[i].value;
          if value != [] {
            totalSize := totalSize + |key| + |value|;
          }
        }
      }
      assert entries[..|entries|] == entries;
      bytes := totalSize * 2;
    }

    /** `getUsagePercentage()`: the used bytes as a percentage of the 5 MB ceiling. */
    method GetUsagePercentage(entries: seq<Entry>) returns (percentage: real)
      ensures percentage == (2 * UsedChars(entries)) as real / STORAGE_LIMIT_BYTES as real * 100.0
      ensures percentage >= 0.0
    {
      var usedBytes := CalculateLocalStorageSize(entries);
      percentage := (usedBytes as real / STORAGE_LIMIT_BYTES as real) * 100.0;
    }

    /** `getStorageStats()`: used and total bytes, the percentage, and the
        warning flag, which is raised from 80 percent on. */
    method GetStorageStats(entries: seq<Entry>) returns (stats: StorageStats)
      ensures stats.usedBytes == 2 * UsedChars(entries) && stats.usedBytes >= 0
      ensures stats.totalBytes == STORAGE_LIMIT_BYTES
      ensures stats.usagePercentage == (stats.usedBytes as real / STORAGE_LIMIT_BYTES as real) * 100.0
      ensures stats.isNearLimit <==> stats.usedBytes * 100 >= 80 * STORAGE_LIMIT_BYTES
    {
      var usedBytes := CalculateLocalStorageSize(entries);
      var usagePercentage := (usedBytes as real / STORAGE_LIMIT_BYTES as real) * 100.0;
      NearLimitIntegerForm(usedBytes);
      stats := StorageStats(usedBytes, STORAGE_LIMIT_BYTES, usagePercentage, usagePercentage >= 80.0);
    }
  }
}
