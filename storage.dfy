/** The storage contract (lib/operations/v2/adapters/storage/base.rb) and the in-memory adapter
    (lib/operations/v2/adapters/storage/memory.rb, whose code lib/operations/v2/memory_storage.rb
    repeats): a Hash from task id to the task's `to_h` snapshot. */
module Storage {
  import opened Values
  import opened Errors
  import opened Records
  import opened OrderedMaps
  import opened Tasks

  /** The store's contents and the id oracle's next serial. */
  datatype StoreState = StoreState(snapshots: Hash<TaskId, Snapshot>, nextSerial: nat) {
    /** Every snapshot is kept under its own id, and the oracle has not handed that id out again. */
    ghost predicate Valid() {
      forall k :: k in snapshots.entries ==> k.serial < nextSerial && snapshots.entries[k].id == Some(k)
    }
  }

  /** A store in which every snapshot sits under its own id. */
  type Store = s: StoreState | s.Valid() witness StoreState(OrderedMap([], map[]), 0)

  function EmptyStore(): (s: Store)
    ensures s.snapshots.entries == map[]
  {
    StoreState(Empty(), 0)
  }

  datatype SaveResult = SaveResult(store: Store, task: TaskData)

  /** `save(task)`: keep the id or draw a fresh one, stamp `updated_at`, store the snapshot. */
  function Saved(s: Store, t: TaskData, now: Time): (r: SaveResult)
    ensures r.task == t.(id := r.task.id, updatedAt := now) && r.task.id.Some?
    ensures t.id.Some? ==> r.task.id == t.id
    ensures t.id.None? ==> r.task.id.value !in s.snapshots.entries
    ensures r.store.snapshots.entries == s.snapshots.entries[r.task.id.value := ToH(r.task)]
    ensures r.task.id.value in s.snapshots.entries ==> r.store.snapshots.keys == s.snapshots.keys
    ensures r.task.id.value !in s.snapshots.entries ==> r.store.snapshots.keys == s.snapshots.keys + [r.task.id.value]
  {
    var id := t.id.GetOr(TaskId(s.nextSerial));
    var serial := if id.serial < s.nextSerial then s.nextSerial else id.serial + 1;
    var saved := t.(id := Some(id), updatedAt := now);
    SaveResult(StoreState(Put(s.snapshots, id, ToH(saved)), serial), saved)
  }

  /** Saving a task a second time overwrites its entry: the store does not grow. */
  lemma ResaveDoesNotGrow(s: Store, t: TaskData, now: Time, later: Time)
    ensures var first := Saved(s, t, now);
            |Saved(first.store, first.task, later).store.snapshots.keys| == |first.store.snapshots.keys|
  {
  }

  /** `find(id)`: the restored task, or nil. */
  function Found(s: StoreState, id: TaskId): (r: Option<TaskData>)
    ensures r.None? <==> id !in s.snapshots.entries
    ensures r.Some? ==> ToH(r.value) == s.snapshots.entries[id]
  {
    if id in s.snapshots.entries then Some(RestoreFrom(s.snapshots.entries[id])) else None
  }

  /** What is saved can be found again, field for field. */
  lemma FindAfterSave(s: Store, t: TaskData, now: Time)
    requires WellFormedStatus(t.status)
    ensures var r := Saved(s, t, now); Found(r.store, r.task.id.value) == Some(r.task)
  {
    var r := Saved(s, t, now);
    RestoreAfterToH(r.task);
  }

  /** The restored tasks of a list of snapshots. */
  function Restored(snapshots: seq<Snapshot>): (r: seq<TaskData>)
    ensures |r| == |snapshots|
    ensures forall i :: 0 <= i < |r| ==> r[i] == RestoreFrom(snapshots[i])
  {
    seq(|snapshots|, i requires 0 <= i < |snapshots| => RestoreFrom(snapshots[i]))
  }

  predicate MatchesType(s: Snapshot, typeFilter: Option<string>) {
    typeFilter.None? || s.typeName == typeFilter.value
  }

  /** Due for waking: waiting, with a wake time at or before `now`. */
  predicate IsSleeping(s: Snapshot, typeFilter: Option<string>, now: Time) {
    s.status == "waiting" && s.wakeAt.Some? && s.wakeAt.value <= now && MatchesType(s, typeFilter)
  }

  function SleepingFilter(typeFilter: Option<string>, now: Time): Snapshot -> bool {
    (x: Snapshot) => IsSleeping(x, typeFilter, now)
  }

  /** The ids of the snapshots due for waking, in store order. */
  function SleepingIds(s: Store, typeFilter: Option<string>, now: Time): seq<TaskId> {
    KeysWhere(s.snapshots.keys, s.snapshots.entries, SleepingFilter(typeFilter, now))
  }

  /** `sleeping_tasks(task_class)`: one restored task per due snapshot, in store order. */
  function SleepingTasks(s: Store, typeFilter: Option<string>, now: Time): (r: seq<TaskData>)
    ensures forall d :: d in r <==> exists k :: k in s.snapshots.entries && IsSleeping(s.snapshots.entries[k], typeFilter, now)
                                                 && d == RestoreFrom(s.snapshots.entries[k])
    ensures Distinct(SleepingIds(s, typeFilter, now)) && |r| == |SleepingIds(s, typeFilter, now)|
    ensures forall i :: 0 <= i < |r| ==> r[i] == RestoreFrom(s.snapshots.entries[SleepingIds(s, typeFilter, now)[i]])
  {
    var selected := Select(s.snapshots, SleepingFilter(typeFilter, now));
    assert forall x :: SleepingFilter(typeFilter, now)(x) == IsSleeping(x, typeFilter, now);
    KeysWhereDistinct(s.snapshots.keys, s.snapshots.entries, SleepingFilter(typeFilter, now));
    RestoredMembers(selected);
    Restored(selected)
  }

  function ChildFilter(parentId: Option<TaskId>): Snapshot -> bool {
    (x: Snapshot) => x.parentTaskId == parentId
  }

  /** The ids of the snapshots whose parent id is `parent`'s, in store order. */
  function ChildIds(s: Store, parent: TaskData): seq<TaskId> {
    KeysWhere(s.snapshots.keys, s.snapshots.entries, ChildFilter(parent.id))
  }

  /** `sub_tasks_of(task)`: one restored task per snapshot whose parent id equals the task's
      id, in store order. For a task without an id these are the parentless tasks. */
  function SubTasksOf(s: Store, parent: TaskData): (r: seq<TaskData>)
    ensures forall d :: d in r <==> exists k :: k in s.snapshots.entries && s.snapshots.entries[k].parentTaskId == parent.id
                                                 && d == RestoreFrom(s.snapshots.entries[k])
    ensures Distinct(ChildIds(s, parent)) && |r| == |ChildIds(s, parent)|
    ensures forall i :: 0 <= i < |r| ==> r[i] == RestoreFrom(s.snapshots.entries[ChildIds(s, parent)[i]])
  {
    var selected := Select(s.snapshots, ChildFilter(parent.id));
    KeysWhereDistinct(s.snapshots.keys, s.snapshots.entries, ChildFilter(parent.id));
    RestoredMembers(selected);
    Restored(selected)
  }

  /** Old enough to delete: a deletion time at or before `before`. */
  predicate IsExpired(s: Snapshot, typeFilter: Option<string>, before: Time) {
    s.deleteAt.Some? && s.deleteAt.value <= before && MatchesType(s, typeFilter)
  }

  function ExpiredFilter(typeFilter: Option<string>, before: Time): Snapshot -> bool {
    (x: Snapshot) => IsExpired(x, typeFilter, before)
  }

  function KeptFilter(typeFilter: Option<string>, before: Time): Snapshot -> bool {
    (x: Snapshot) => !IsExpired(x, typeFilter, before)
  }

  /** The snapshots `delete_old` keeps. */
  function Kept(entries: map<TaskId, Snapshot>, typeFilter: Option<string>, before: Time): map<TaskId, Snapshot> {
    map k | k in entries && !IsExpired(entries[k], typeFilter, before) :: entries[k]
  }

  /** The in-memory storage adapter. */
  class MemoryStore {
    var store: Hash<TaskId, Snapshot>
    var nextSerial: nat

    function State(): StoreState
      reads this
    {
      StoreState(store, nextSerial)
    }

    ghost predicate Valid()
      reads this
    {
      State().Valid()
    }

    constructor ()
      ensures Valid() && store.entries == map[]
    {
      store := Empty();
      nextSerial := 0;
    }

    /** `save(task)`: assigns the task's id when it has none, stamps `updated_at`, and overwrites
        the snapshot under that id. */
    method Save(task: Task, now: Time)
      requires Valid()
      modifies this, task
      ensures Valid()
      ensures State() == Saved(old(State()), old(task.Data()), now).store
      ensures task.Data() == Saved(old(State()), old(task.Data()), now).task
    {
      if task.id.None? {
        task.id := Some(TaskId(nextSerial));
      }
      var id := task.id.value;
      if nextSerial <= id.serial {
        nextSerial := id.serial + 1;
      }
      task.updatedAt := now;
      store := Put(store, id, task.ToH());
    }

    /** `find(id)`: a task restored from the stored snapshot, or nil. */
    method Find(id: TaskId) returns (task: Task?)
      ensures id !in store.entries ==> task == null
      ensures id in store.entries ==> task != null && fresh(task) && Some(task.Data()) == Found(State(), id)
    {
      if id !in store.entries {
        return null;
      }
      task := new Task.RestoreFrom(store.entries[id]);
    }

    /** `delete_old(task_class, before:)`: removes the expired snapshots and answers how many
        it removed. */
    method DeleteOld(typeFilter: Option<string>, before: Time) returns (count: nat)
      requires Valid()
      modifies this
      ensures Valid() && nextSerial == old(nextSerial)
      ensures store.entries == Kept(old(store.entries), typeFilter, before)
      ensures store.keys == KeysWhere(old(store.keys), old(store.entries), KeptFilter(typeFilter, before))
      ensures count == |old(store.keys)| - |store.keys|
    {
      var toDelete := KeysWhere(store.keys, store.entries, ExpiredFilter(typeFilter, before));
      KeysWhereDistinct(store.keys, store.entries, ExpiredFilter(typeFilter, before));
      WithoutKeysWhere(store.keys, store.entries, ExpiredFilter(typeFilter, before), KeptFilter(typeFilter, before));
      KeptWithout(store, typeFilter, before);
      DeleteEach(toDelete);
      count := |toDelete|;
    }

    /** `to_delete.each { |data| @store.delete(data[:id]) }`. A snapshot's id is its key, so
        deleting `data[:id]` deletes the selected entry. */
    method DeleteEach(keys: seq<TaskId>)
      requires Valid() && Distinct(keys)
      requires forall k :: k in keys ==> k in store.entries
      modifies this
      ensures Valid() && nextSerial == old(nextSerial)
      ensures store.entries == map k | k in old(store.entries) && k !in keys :: old(store.entries)[k]
      ensures store.keys == Without(old(store.keys), keys)
      ensures |store.keys| == |old(store.keys)| - |keys|
    {
      var i := 0;
      DeletedNothing(store, keys);
      while i < |keys|
        invariant 0 <= i <= |keys|
        invariant Valid() && nextSerial == old(nextSerial)
        invariant Deleted(old(store), store, keys[..i])
      {
        DeleteNext(old(store), store, keys, i);
        Delete(keys[i]);
        i := i + 1;
      }
      assert keys[..i] == keys;
      assert store.entries == Dropped(old(store.entries), keys);
    }

    /** `@store.delete(id)`. */
    method Delete(id: TaskId)
      requires Valid()
      modifies this
      ensures Valid() && nextSerial == old(nextSerial)
      ensures store == Remove(old(store), id)
    {
      RemoveKeepsValid(State(), id);
      store := Remove(store, id);
    }
  }

  /** Deleting the expired keys leaves exactly the snapshots `delete_old` keeps. */
  lemma KeptWithout(m: Hash<TaskId, Snapshot>, typeFilter: Option<string>, before: Time)
    ensures var gone := KeysWhere(m.keys, m.entries, ExpiredFilter(typeFilter, before));
            (map k | k in m.entries && k !in gone :: m.entries[k]) == Kept(m.entries, typeFilter, before)
  {
    var gone := KeysWhere(m.keys, m.entries, ExpiredFilter(typeFilter, before));
    forall k | k in m.entries
      ensures k in gone <==> IsExpired(m.entries[k], typeFilter, before)
    {
      assert ExpiredFilter(typeFilter, before)(m.entries[k]) == IsExpired(m.entries[k], typeFilter, before);
    }
  }

  /** The entries of `m0` whose keys are not listed in `gone`. */
  function Dropped(m0: map<TaskId, Snapshot>, gone: seq<TaskId>): map<TaskId, Snapshot> {
    map k | k in m0 && k !in gone :: m0[k]
  }

  /** `m` is `m0` after deleting the keys `gone`, one by one. */
  ghost predicate Deleted(m0: Hash<TaskId, Snapshot>, m: Hash<TaskId, Snapshot>, gone: seq<TaskId>) {
    && m.entries == Dropped(m0.entries, gone)
    && m.keys == Without(m0.keys, gone)
    && |m.keys| == |m0.keys| - |gone|
  }

  /** Before the first deletion nothing is deleted. */
  lemma DeletedNothing(m: Hash<TaskId, Snapshot>, keys: seq<TaskId>)
    ensures Deleted(m, m, keys[..0])
  {
    assert keys[..0] == [];
    WithoutNothing(m.keys);
    assert Dropped(m.entries, keys[..0]) == m.entries;
  }

  /** Deleting the next listed key, still present, extends the deletion by that key. */
  lemma DeleteNext(m0: Hash<TaskId, Snapshot>, m: Hash<TaskId, Snapshot>, keys: seq<TaskId>, i: nat)
    requires i < |keys| && Distinct(keys) && forall k :: k in keys ==> k in m0.entries
    requires Deleted(m0, m, keys[..i])
    ensures Deleted(m0, Remove(m, keys[i]), keys[..i + 1])
  {
    var k := keys[i];
    var gone := keys[..i];
    assert keys[..i + 1] == gone + [k];
    assert k in m.entries by {
      assert k in m0.entries;
      assert k !in gone by {
        forall j | 0 <= j < i ensures gone[j] != k {
          assert gone[j] == keys[j];
        }
      }
    }
    DeleteStep(m0.entries, m, keys, i);
    assert Remove(m, k).keys == Without(m0.keys, keys[..i + 1]) by {
      WithoutOneMore(m0.keys, gone, k);
    }
  }

  /** Deleting the next key of the list extends the deleted prefix by one. */
  lemma DeleteStep(m0: map<TaskId, Snapshot>, m: Hash<TaskId, Snapshot>, keys: seq<TaskId>, i: nat)
    requires i < |keys|
    requires m.entries == Dropped(m0, keys[..i])
    ensures Remove(m, keys[i]).entries == Dropped(m0, keys[..i + 1])
  {
    assert keys[..i + 1] == keys[..i] + [keys[i]];
  }

  lemma RemoveKeepsValid(s: Store, key: TaskId)
    ensures StoreState(Remove(s.snapshots, key), s.nextSerial).Valid()
  {
  }

  /** A task is restored from the selection exactly when it is restored from one of its snapshots. */
  lemma RestoredMembers(snapshots: seq<Snapshot>)
    ensures forall d :: d in Restored(snapshots) <==> exists x :: x in snapshots && d == RestoreFrom(x)
  {
    var r := Restored(snapshots);
    forall d ensures d in r <==> exists x :: x in snapshots && d == RestoreFrom(x) {
      if d in r {
        var i :| 0 <= i < |r| && r[i] == d;
        assert snapshots[i] in snapshots;
      }
      if exists x :: x in snapshots && d == RestoreFrom(x) {
        var x :| x in snapshots && d == RestoreFrom(x);
        var i :| 0 <= i < |snapshots| && snapshots[i] == x;
        assert r[i] == d;
      }
    }
  }

  lemma {:induction false} KeysWhereDistinct<K(!new), V(!new)>(ks: seq<K>, entries: map<K, V>, p: V -> bool)
    requires forall k :: k in ks ==> k in entries
    requires Distinct(ks)
    ensures Distinct(KeysWhere(ks, entries, p))
  {
    if ks != [] {
      KeysWhereDistinct(ks[1..], entries, p);
      var rest := KeysWhere(ks[1..], entries, p);
      assert ks[0] !in ks[1..] by {
        forall j | 0 <= j < |ks[1..]| ensures ks[1..][j] != ks[0] {
          assert ks[1..][j] == ks[j + 1];
        }
      }
      if p(entries[ks[0]]) {
        var r := [ks[0]] + rest;
        forall i, j | 0 <= i < j < |r| ensures r[i] != r[j] {
          assert r[j] == rest[j - 1];
          if i > 0 {
            assert r[i] == rest[i - 1];
          }
        }
      }
    }
  }

  /** The adapter operations the abstract base class leaves to subclasses. */
  datatype StorageOperation = SaveTask | FindTask | SleepingTasksQuery | SubTasksQuery | DeleteOldTasks

  function OperationName(op: StorageOperation): string {
    match op
    case SaveTask => "save"
    case FindTask => "find"
    case SleepingTasksQuery => "sleeping_tasks"
    case SubTasksQuery => "sub_tasks_of"
    case DeleteOldTasks => "delete_old"
  }

  /** What the base adapter does for a contract method a subclass does not override. */
  function Unimplemented(adapterClass: string, op: StorageOperation): (e: Error)
    ensures e.kind == NotImplementedError
    ensures e.message == adapterClass + " must implement #" + OperationName(op)
  {
    Raise(NotImplementedError, adapterClass + " must implement #" + OperationName(op))
  }

  /** An externally owned domain object a task refers to. */
  datatype DomainObject = DomainObject(id: string, className: string)

  /** The domain objects findable by class name and id. */
  type Repository = map<string, map<string, DomainObject>>

  /** `serialise_model(model)`: the `{id, type}` pair. */
  function SerialiseModel(m: DomainObject): (r: ModelRef)
    ensures r.id == m.id && r.typeName == m.className
  {
    ModelRef(m.id, m.className)
  }

  /** `deserialise_model(data, class_name)`: `find` by the pair's id in the named class. */
  function DeserialiseModel(repository: Repository, data: ModelRef, className: string): (r: Option<DomainObject>)
    ensures r.Some? <==> className in repository && data.id in repository[className]
  {
    if className in repository && data.id in repository[className] then Some(repository[className][data.id])
    else None
  }

  /** A stored object comes back from its serialised pair. */
  lemma ModelRoundTrip(repository: Repository, m: DomainObject)
    requires m.className in repository && m.id in repository[m.className]
    requires repository[m.className][m.id] == m
    ensures DeserialiseModel(repository, SerialiseModel(m), SerialiseModel(m).typeName) == Some(m)
  {
  }
}
