# operations — a Dafny model of the task engine

The `operations` gem runs long-lived business processes as **tasks**. A task class declares
named states, and each state has a handler:

- an **action** runs a body and may name a successor;
- a **decision** evaluates conditions and picks the next state;
- a **wait** state sleeps until a condition holds;
- a **result** state completes the task.

Interactions are methods that external callers invoke on a task. They are guarded by the states
in which they are legal.

This project models two generations of that engine and proves properties about them:

- **The V2 engine** (`lib/operations/v2`):
  - the task record and its `to_h`/`restore_from` round trip (`task_record.dfy`);
  - the class-level DSL with its attributes, models and validations (`dsl.dfy`);
  - the five handler kinds (`handlers.dfy`, with first-match selection in `selection.dfy`);
  - `Task.new` (`tasks.dfy`) and the in-memory storage adapter (`storage.dfy`);
  - the execution loop, wake-up, interactions and the inline executor. `execution.dfy` states
    each of them as a function over a task and its store. `engine.dfy` performs the same steps
    in place on a task object and a store object, and every method there is proved to leave
    those objects exactly as the function describes.
- **The legacy engine** (`app/models/operations`), which comes in three handler families:
  - `Task::Plan` (`legacy_plan.dfy`);
  - `Task::StateManagement` (`legacy_state_machine.dfy` for the handler classes nested in
    `state_management.rb`, and `legacy_carrier_handlers.dfy` for the ones under
    `state_management/`). The two sets do not coexist: the files reopen the same constants
    (`StateManagement::ActionHandler`, `DecisionHandler`, `CompletionHandler`), so at run time
    whichever file loads last supplies `initialize` and `call`, and a nested `call(task)`
    and a file `call(task, data)` are never both live. The model states each set as written,
    as two alternative definitions;
  - `Agent` (`legacy_agent.dfy`).

  Alongside these are the input checks and data carrier (`legacy_inputs.dfy`), the background
  timeout (`legacy_background.dfy`), the testing harness (`legacy_testing.dfy`) and the
  structure export (`legacy_exports.dfy`). The code the handlers run on the task or its carrier
  is modelled as the list of calls it makes (`legacy_calls.dfy`).

Ruby Hashes keep insertion order, and several behaviours depend on it: the class-level `go_to`
binds to the most recently declared action, and `delete_old` walks the store. So every Hash the
engine reads in order is an `OrderedMap` (`ordered_map.dfy`): a key sequence with no repeats,
plus a map over exactly those keys.

Several conclusions follow from the code as written and differ from what its comments or tests
suggest. Each is stated as a lemma:

- A stored `false` attribute reads as the declared default (`Dsl.StoredFalseReadsDefault`).
- A child started from the first step of `Task.call` has no parent id, because the parent has no
  id until it is saved (`Execution.FirstStepChildrenHaveNoParent`).
- A started child has no wake time, so `sleeping_tasks` never returns it
  (`Execution.StartedChildIsNeverDue`).
- An expired timeout raises but does not mark the task failed
  (`Execution.ExpiredWakeUpRaisesTimeout`).
- The inline executor's `wake` reactivates completed and failed tasks
  (`Execution.WakeReactivatesFinishedTasks`).
- A V2 action's declared successor overrides a `go_to` made by its body
  (`Execution.StaticSuccessorOverridesBody`). The StateManagement action does the reverse
  (`LegacyCarrierHandlers.GoToInBodyWins`).
- The StateManagement file handlers pass the data carrier as the `go_to` message, so the carrier
  becomes the status message (`LegacyTesting.HandlingDecisionRecordsTheBranch`).
- The production `DataCarrier` has no `go_to`, so such a call raises NoMethodError outside the
  testing harness (`LegacyInputs.DataCarrierReceives`).
- The export of a StateManagement decision always lists `true` and `false` transitions, because
  both branch variables are assigned nil in its constructor (`LegacyExports.HandlerToH`).

`lib/operations/v2/inline_executor.rb` and `lib/operations/v2/memory_storage.rb` repeat the code
of `adapters/executor/inline.rb` and `adapters/storage/memory.rb`. The model follows the latter
two, and the rows below cite them.

## Model

| member | source | states |
|---|---|---|
| Records.RestoreAfterToH | lib/operations/v2/task.rb:53-92 | restoring the hash `to_h` produces gives back every field of the task, the status going through its string form |
| Records.ToHAfterRestore | lib/operations/v2/task.rb:53-92 | any stored hash survives `restore_from` followed by `to_h` unchanged |
| Tasks.Initialized | lib/operations/v2/task.rb:12-47 | `initialize` keeps the given id and parent, names the class as type, defaults the status to active and the state to the initial state, sets `timeout_at` to now plus the execution timeout and `delete_at` to now plus the deletion time unless given, and records no exception |
| Tasks.NewData | lib/operations/v2/task.rb:12-50 | `Task.new` succeeds exactly when `validate!` finds nothing, returning the initialised task; otherwise it raises a ValidationError (or NoMethodError from a failed validation block) |
| Tasks.NewTaskDefaults | lib/operations/v2/task.rb:12-23 | a task built without system keywords is active in the initial state with no id, parent or wake time, created and updated now, timing out and expiring relative to now |
| Tasks.GoToData | lib/operations/v2/task.rb:138-146 | `go_to` sets the state first; with a handler for it the task is active exactly when that handler is immediate, and waiting until now plus the background delay otherwise; without one it raises NoMethodError with only the state changed; no other field changes |
| Tasks.SleepData | lib/operations/v2/task.rb:148-151 | `sleep_until_woken` makes the task waiting until now plus the background delay and changes nothing else |
| Tasks.CompleteData | lib/operations/v2/task.rb:159-161 | `complete` sets the status to completed and changes nothing else |
| Tasks.RecordedError | lib/operations/v2/task.rb:228-232 | `record_error!` marks the task failed with the exception's class name, message and newline-joined backtrace, and changes nothing else |
| Tasks.Task.RestoreFrom | lib/operations/v2/task.rb:74-92 | the restored object's fields are exactly those of the snapshot |
| Tasks.Task.Init | lib/operations/v2/task.rb:12-46 | the object's fields are the initialised fields, with the declared attributes before defaults are filled |
| Tasks.Task.New | lib/operations/v2/task.rb:12-50 | a fresh object holding the validated task, or no object and the validation error |
| Tasks.Task.ToH | lib/operations/v2/task.rb:53-71 | `to_h` gives a snapshot from which `restore_from` rebuilds every field of the object (status through its string form) |
| Tasks.Task.GoTo | lib/operations/v2/task.rb:138-146 | the object's fields and the raised error are those `GoToData` describes |
| Tasks.Task.SleepUntilWoken | lib/operations/v2/task.rb:148-151 | the object's fields become those `SleepData` describes |
| Tasks.Task.Complete | lib/operations/v2/task.rb:159-161 | the object's fields become those `CompleteData` describes |
| Dsl.Downcase | lib/operations/v2/dsl.rb:104-105 | each character is lowered, so no upper-case letter is left, and the length is kept |
| Dsl.Capitalize | lib/operations/v2/dsl.rb:104-105 | `capitalize` agrees with its input up to case, leaves no lower-case first letter and no upper-case letter after it, and keeps the length |
| Dsl.CapitalizeIsDetermined | lib/operations/v2/dsl.rb:104-105 | those facts determine the result: any string with them is `Capitalize` of the input |
| Dsl.Singular | lib/operations/v2/dsl.rb:116-117 | `sub(/s$/, "")` drops exactly one trailing "s" and leaves other names alone |
| Dsl.Definition.constructor | lib/operations/v2/dsl.rb:132-146 | a class body starts with no settings, no handlers, no definitions and no indexed attributes |
| Dsl.Definition.InitialState | lib/operations/v2/dsl.rb:39-41 | the initial state is "start" unless `starts_with` set one |
| Dsl.Definition.BackgroundDelay | lib/operations/v2/dsl.rb:59-61 | the background delay is 60 seconds unless `delay` set one |
| Dsl.Definition.ExecutionTimeout | lib/operations/v2/dsl.rb:63-65 | the execution timeout is 86400 seconds unless `timeout` set one |
| Dsl.Definition.DeletionTime | lib/operations/v2/dsl.rb:67-69 | the deletion time is 7776000 seconds unless `delete_after` set one |
| Dsl.Definition.StartsWith | lib/operations/v2/dsl.rb:9-11 | `starts_with` sets the initial state, and every other field stays as it was |
| Dsl.Definition.Register | lib/operations/v2/dsl.rb:75-81 | `state_handlers[name] = handler`: `handler_for` now finds the handler under that state, every other state keeps its handler, and every other field stays as it was |
| Dsl.Definition.Action | lib/operations/v2/dsl.rb:13-15 | `action` registers a new action handler without successor under its state, and every other field stays as it was |
| Dsl.Definition.ActionThen | lib/operations/v2/dsl.rb:13-15 | `action(...).then(next)` registers the action with `next` as successor, because `then` updates the registered object; every other field stays as it was |
| Dsl.Definition.Decision | lib/operations/v2/dsl.rb:17-19 | `decision` registers a decision handler built from the configuration block, and every other field stays as it was |
| Dsl.Definition.WaitUntil | lib/operations/v2/dsl.rb:21-23 | `wait_until` registers a wait handler built from the configuration block, and every other field stays as it was |
| Dsl.Definition.Result | lib/operations/v2/dsl.rb:29-31 | `result` registers a result handler, and every other field stays as it was |
| Dsl.Definition.Interaction | lib/operations/v2/dsl.rb:25-27 | `interaction` registers an interaction handler, allowed in every state until `when` restricts it; every other field stays as it was |
| Dsl.Definition.GoTo | lib/operations/v2/dsl.rb:33-37 | the class-level `go_to` sets the successor of the most recently declared action and changes no other handler, no key order and no other field; without any action it raises ArgumentError "No action handler defined yet" and changes nothing |
| Dsl.Definition.Delay | lib/operations/v2/dsl.rb:43-45 | `delay` sets the background delay, and every other field stays as it was |
| Dsl.Definition.Timeout | lib/operations/v2/dsl.rb:47-49 | `timeout` sets the execution timeout, and every other field stays as it was |
| Dsl.Definition.DeleteAfter | lib/operations/v2/dsl.rb:51-53 | `delete_after` sets the deletion time, and every other field stays as it was |
| Dsl.Definition.OnTimeout | lib/operations/v2/dsl.rb:55-57 | `on_timeout` stores the timeout handler, and every other field stays as it was |
| Dsl.Definition.HasAttribute | lib/operations/v2/dsl.rb:92-102 | `has_attribute` records the definition and defines a reader that falls back to the default; every other field stays as it was |
| Dsl.Definition.HasModel | lib/operations/v2/dsl.rb:104-114 | `has_model` records the class name, by default the capitalised name, and defines a model reader; every other field stays as it was |
| Dsl.Definition.HasModels | lib/operations/v2/dsl.rb:116-126 | `has_models` records the class name, by default the capitalised singular, and defines a list reader; every other field stays as it was |
| Dsl.Definition.Validates | lib/operations/v2/dsl.rb:128-130 | `validates` records the presence rule for the attribute, and every other field stays as it was |
| Dsl.Definition.Index | lib/operations/v2/dsl.rb:148-152 | `index` appends the names, every other field stays as it was, and nothing the engine reads changes |
| Dsl.LastAction | lib/operations/v2/dsl.rb:34 | the key found is an action handler's, and none is found only when no handler is an action |
| Dsl.ReadAttribute | lib/operations/v2/dsl.rb:95-97 | the attribute reader returns the stored value when it is truthy and the default otherwise |
| Dsl.StoredFalseReadsDefault | lib/operations/v2/dsl.rb:95-97 | a stored `false` reads as the default, because the reader uses `\|\|` |
| Dsl.Read | lib/operations/v2/dsl.rb:95-121 | a reader exists exactly for the declared names (NoMethodError otherwise), and an unset list of models reads as empty |
| Dsl.ArrayOf | lib/operations/v2/dsl.rb:123-125 | `Array(values)`: nil becomes empty, one model a one-element list, a list itself |
| Dsl.ModelsSetterThenReader | lib/operations/v2/dsl.rb:119-125 | reading a list of models after setting it gives back `Array` of what was set |
| Dsl.Validate | lib/operations/v2/dsl.rb:155-163 | `validate!` passes exactly when every rule passes; a failure is a ValidationError, or a NoMethodError from a rule naming no reader |
| Dsl.CheckRule | lib/operations/v2/dsl.rb:157-161 | one rule fails only with a ValidationError or a NoMethodError; a rule without presence fails exactly when no reader answers to the name |
| Dsl.FirstRulePassed | lib/operations/v2/dsl.rb:156-162 | once the first rule passes, the remaining rules decide: all pass exactly when the rest pass, and the first failure among the rest is the first failure overall |
| Dsl.ValidateRules | lib/operations/v2/dsl.rb:156-162 | the rules are checked in order and the first failing rule's error is raised |
| Dsl.BlankRequiredAttributeFails | lib/operations/v2/dsl.rb:159-161 | an attribute under a presence rule that reads nil or "" makes validation fail |
| Dsl.FilledDefaultsOnlyFillsNil | lib/operations/v2/dsl.rb:165-172 | `initialize_attributes` gives a nil attribute its truthy default and leaves every other attribute as it was |
| Dsl.FilledStep | lib/operations/v2/dsl.rb:167-171 | handling one more definition sets that attribute to its default exactly when it needs one |
| Dsl.InitializeAttributes | lib/operations/v2/dsl.rb:165-172 | the loop over the definitions yields the attributes with defaults filled |
| Handlers.NewAction | lib/operations/v2/handlers/action_handler.rb:7-20 | a new action handler has no successor and is immediate |
| Handlers.Then | lib/operations/v2/handlers/action_handler.rb:13-16 | `then` sets the successor and keeps the name and the body |
| Handlers.When | lib/operations/v2/handlers/interaction_handler.rb:21-24 | `when` replaces the allowed states and keeps the rest |
| Handlers.Decide | lib/operations/v2/handlers/decision_handler.rb:34-60 | with `if_true`/`if_false` set, only the first condition is evaluated and picks the true or false state (no condition at all raises ArgumentError); otherwise the first condition that holds picks the destination at its index, none holding raises NoDecision "No conditions matched in <name>", and an error in a condition propagates |
| Handlers.BooleanPathReadsFirstConditionOnly | lib/operations/v2/handlers/decision_handler.rb:48-52 | on the true/false path, conditions after the first and the destination list make no difference |
| Handlers.MultiplePathStopsAtFirstMatch | lib/operations/v2/handlers/decision_handler.rb:54-60 | on the multiple-condition path the first matching condition decides, whatever conditions follow it |
| Handlers.Wait | lib/operations/v2/handlers/wait_handler.rb:9-17 | a wait handler goes where the decision goes, sleeps when the decision raises NoDecision, and lets every other error through |
| Handlers.BooleanWaitNeverSleeps | lib/operations/v2/handlers/wait_handler.rb:9-17 | a wait with `if_true`/`if_false` never sleeps, since that path never raises NoDecision |
| Handlers.WaitSleepsWhenNothingMatches | lib/operations/v2/handlers/wait_handler.rb:9-17 | a wait whose conditions are all false sleeps |
| Selection.FirstTrue | lib/operations/v2/handlers/decision_handler.rb:55-58 | `find` followed by `index`: the index found holds a condition that is true after only false ones; none is found exactly when all are false; an error is the first error met after only false conditions |
| Selection.LaterConditionsIgnored | lib/operations/v2/handlers/decision_handler.rb:55 | `find` stops at the first match: conditions after it are never evaluated |
| OrderedMaps.Empty | lib/operations/v2/dsl.rb:75-77 | `@state_handlers \|\|= {}` and the other registries start empty |
| OrderedMaps.Put | lib/operations/v2/dsl.rb:14 | `hash[key] = value` stores the value under the key; an existing key keeps its position, a new key goes last |
| OrderedMaps.RemoveFromSeq | lib/operations/v2/adapters/storage/memory.rb:57 | removing a key from the key order keeps every other key and drops that one |
| OrderedMaps.RemoveFromSeqDistinct | lib/operations/v2/adapters/storage/memory.rb:57 | the key order stays free of repeats after a deletion |
| OrderedMaps.RemoveAt | lib/operations/v2/adapters/storage/memory.rb:57 | deleting the key that sits at a given position p of a key order without repeats leaves the keys before p followed by the keys after p |
| OrderedMaps.RemoveFromSeqAt | lib/operations/v2/adapters/storage/memory.rb:57 | deleting the key at position p of a key order without repeats leaves the keys before p followed by the keys after p, each in its old order |
| OrderedMaps.Remove | lib/operations/v2/adapters/storage/memory.rb:57 | `hash.delete(key)` drops exactly that entry and takes the key out of the key order; a present key at position p leaves the keys before and after it in their old order, and an absent key leaves the order alone |
| OrderedMaps.RemoveCount | lib/operations/v2/adapters/storage/memory.rb:57 | deleting a present key shortens the key order by exactly one |
| OrderedMaps.RemoveAbsent | lib/operations/v2/adapters/storage/memory.rb:57 | deleting an absent key changes nothing |
| OrderedMaps.Select | lib/operations/v2/adapters/storage/memory.rb:36-37 | `values.select` keeps exactly the values that satisfy the block: one per satisfying key, in key order |
| OrderedMaps.SelectFrom | lib/operations/v2/adapters/storage/memory.rb:36-37 | selecting along the key order gives, position by position, the value of each key that `KeysWhere` selects |
| OrderedMaps.KeysWhere | lib/operations/v2/adapters/storage/memory.rb:53-55 | the keys whose values satisfy the block, and only those |
| OrderedMaps.KeysWhereAppend | lib/operations/v2/adapters/storage/memory.rb:53-55 | selecting from a concatenation is concatenating the selections, so the selection keeps key order |
| OrderedMaps.Without | lib/operations/v2/adapters/storage/memory.rb:57 | the keys left after deleting a list of keys: exactly those not listed, in their old order |
| OrderedMaps.WithoutOneMore | lib/operations/v2/adapters/storage/memory.rb:57 | one `delete` after deleting a list is deleting the longer list |
| OrderedMaps.WithoutNothing | lib/operations/v2/adapters/storage/memory.rb:57 | deleting no keys leaves the order as it was |
| OrderedMaps.WithoutAgrees | lib/operations/v2/adapters/storage/memory.rb:57 | what is left depends on the deleted list only through the keys that were present |
| OrderedMaps.WithoutKeysWhere | lib/operations/v2/adapters/storage/memory.rb:53-57 | deleting the keys whose values satisfy the block leaves, in order, the keys whose values do not |
| OrderedMaps.LastKeyWhere | lib/operations/v2/dsl.rb:34 | `values.reverse.find`: the key found satisfies the block and no later key does; none is found only when no value satisfies it |
| OrderedMaps.LastIndexWhere | lib/operations/v2/dsl.rb:34 | scanning back from position n finds the last satisfying position before n, or reports that none satisfies |
| Storage.EmptyStore | lib/operations/v2/adapters/storage/memory.rb:11-14 | a new adapter holds no tasks |
| Storage.Saved | lib/operations/v2/adapters/storage/memory.rb:16-23 | `save` keeps the task's id or assigns one not yet used, stamps `updated_at`, and stores the task's `to_h` under its id; a new id is appended to the store's order and an existing one keeps its place |
| Storage.ResaveDoesNotGrow | lib/operations/v2/adapters/storage/memory.rb:16-23 | saving the same task again overwrites its entry, so the store does not grow |
| Storage.Found | lib/operations/v2/adapters/storage/memory.rb:25-31 | `find` returns nil exactly for an unknown id, and otherwise a task whose `to_h` is the stored hash |
| Storage.FindAfterSave | lib/operations/v2/adapters/storage/memory.rb:16-31 | finding a task by the id `save` gave it returns the saved task, field for field |
| Storage.Restored | lib/operations/v2/adapters/storage/memory.rb:39-67 | `map { restore_task }` restores each hash in order |
| Storage.SleepingTasks | lib/operations/v2/adapters/storage/memory.rb:33-41 | `sleeping_tasks` returns exactly the restored tasks that are waiting with a wake time at or before now, filtered by class when one is given: one per due snapshot, each id once, in store order |
| Storage.SubTasksOf | lib/operations/v2/adapters/storage/memory.rb:43-49 | `sub_tasks_of` returns exactly the restored tasks whose parent id equals the task's id: one per such snapshot, each id once, in store order |
| Storage.MemoryStore.constructor | lib/operations/v2/adapters/storage/memory.rb:11-14 | a new adapter object holds no tasks |
| Storage.MemoryStore.Save | lib/operations/v2/adapters/storage/memory.rb:16-23 | the adapter's contents and the task object become what `Saved` describes |
| Storage.MemoryStore.Find | lib/operations/v2/adapters/storage/memory.rb:25-31 | nil for an unknown id, otherwise a fresh task object whose fields are those `Found` describes |
| Storage.MemoryStore.DeleteOld | lib/operations/v2/adapters/storage/memory.rb:51-60 | `delete_old` removes exactly the tasks whose `delete_at` is at or before the cut-off (of the given class, when one is given), leaves the other tasks in their store order, and returns how many it removed |
| Storage.MemoryStore.DeleteEach | lib/operations/v2/adapters/storage/memory.rb:57 | deleting each listed id removes exactly those entries, keeps the remaining ids in their store order, and shortens the store by their number |
| Storage.MemoryStore.Delete | lib/operations/v2/adapters/storage/memory.rb:57 | `@store.delete(id)` removes that entry from the store, keeps the other ids in order and every remaining hash under its own id |
| Storage.KeptWithout | lib/operations/v2/adapters/storage/memory.rb:53-57 | deleting the ids that the `select` picks leaves exactly the hashes that are not expired |
| Storage.DeletedNothing | lib/operations/v2/adapters/storage/memory.rb:57 | before the first `delete` the store is the store minus no ids |
| Storage.DeleteStep | lib/operations/v2/adapters/storage/memory.rb:57 | one more `delete` removes the entry of one more listed id |
| Storage.DeleteNext | lib/operations/v2/adapters/storage/memory.rb:57 | deleting the next listed id extends the deletion by that id, entries and key order alike |
| Storage.RemoveKeepsValid | lib/operations/v2/adapters/storage/memory.rb:57 | after a deletion every remaining hash still sits under its own id |
| Storage.KeysWhereDistinct | lib/operations/v2/adapters/storage/memory.rb:53-57 | the ids selected for deletion are distinct, so each is deleted once |
| Storage.Unimplemented | lib/operations/v2/adapters/storage/base.rb:11-42 | a contract method the base adapter leaves to subclasses raises NotImplementedError "<class> must implement #<method>" |
| Storage.SerialiseModel | lib/operations/v2/adapters/storage/base.rb:48-50 | `serialise_model` keeps the model's id and class name |
| Storage.DeserialiseModel | lib/operations/v2/adapters/storage/base.rb:57-59 | `deserialise_model` finds an object exactly when its class exists and holds that id |
| Storage.ModelRoundTrip | lib/operations/v2/adapters/storage/base.rb:48-59 | deserialising a serialised model gives back the same model |
| Execution.StartChild | lib/operations/v2/task.rb:188-190 | `start` leaves the running task as it was; the child goes to the store |
| Execution.GoToWorld | lib/operations/v2/task.rb:138-146 | `go_to` changes the task only, never the store |
| Execution.WithErrorRecorded | lib/operations/v2/task.rb:228-234 | `record_error!` marks the task failed with the exception's class and message, keeps everything else, and saves it |
| Execution.SavedWorld | lib/operations/v2/task.rb:131 | `storage.save(self)` leaves the task stored under its id, changed only in its id and `updated_at` |
| Execution.StepOnce | lib/operations/v2/task.rb:125-134 | a pass of the loop either saves the task after its handler, or stops with the error recorded on the failed task |
| Execution.LoopFinishedIsStable | lib/operations/v2/task.rb:124 | the loop ends only when the task is no longer active or the last pass left the state unchanged |
| Execution.LoopFinishedIsSaved | lib/operations/v2/task.rb:124-132 | once at least one pass ran, the finished loop leaves the task saved |
| Execution.LoopRaisedIsRecorded | lib/operations/v2/task.rb:133-135 | a loop that raised has recorded its error on the task |
| Execution.RunUnfolds | lib/operations/v2/task.rb:124-132 | while the loop condition holds, a run is one pass followed by the rest of the run from the new state |
| Execution.LoopUnfolds | lib/operations/v2/task.rb:124-132 | for any loop body, while the condition holds and passes remain, the loop raises what a stopping pass raised or goes on from the world the pass left |
| Execution.StepOf | lib/operations/v2/task.rb:124-132 | the loop body of a task class, as one step value, gives the same run |
| Execution.FinishedRunIsStable | lib/operations/v2/task.rb:124 | `execute_state_machine` returns only when the task is not active or its state did not change in the last pass |
| Execution.InactiveTaskRunsNothing | lib/operations/v2/task.rb:122-124 | a task that is not active, or whose state is the one the last pass started from, runs no handler and changes nothing |
| Execution.FinishedRunIsSaved | lib/operations/v2/task.rb:130-131 | after a run with at least one pass the task is saved |
| Execution.RaisedRunIsRecorded | lib/operations/v2/task.rb:133-135 | any error in a run leaves the task failed with the exception recorded and saved, and is re-raised |
| Execution.MissingHandlerRaisesInvalidState | lib/operations/v2/task.rb:126-135 | a state without a handler raises InvalidState "No handler for state: …" and the task is recorded failed in that state |
| Execution.ResultHandlerEndsTheRun | lib/operations/v2/handlers/result_handler.rb:13-15 | a result state completes the task, keeps its state, attributes and models, and the loop ends |
| Execution.ActionWithoutSuccessorStops | lib/operations/v2/handlers/action_handler.rb:22-25 | an action with no `then` whose body only assigns attributes leaves the task active in the same state, so the loop ends |
| Execution.SettersKeepStateAndStatus | lib/operations/v2/dsl.rb:92-126 | attribute and model setters never raise and never change state or status |
| Execution.StaticSuccessorOverridesBody | lib/operations/v2/handlers/action_handler.rb:22-25 | when the body succeeds, the declared `then` state is where the task goes, whatever the body's own `go_to` chose |
| Execution.BodyErrorSkipsSuccessor | lib/operations/v2/handlers/action_handler.rb:22-25 | an error in the body stops the action before its declared successor |
| Execution.WaitWithoutMatchSleeps | lib/operations/v2/handlers/wait_handler.rb:9-17 | a wait state in which no condition holds keeps its state, sleeps with wake time now plus `background_delay`, and the loop ends |
| Execution.StartedChildIsSavedWaiting | lib/operations/v2/task.rb:188-190 | a child started by `start` is built waiting with this task's id as its parent and saved under its own id |
| Execution.FirstStepChildrenHaveNoParent | lib/operations/v2/task.rb:95-100 | `Task.call` saves nothing before the first step, so a child started there gets a nil parent id |
| Execution.StartedChildIsNeverDue | lib/operations/v2/task.rb:106-111 | a started child has no wake time unless its arguments give one, so `sleeping_tasks` never returns it |
| Execution.SubTasksWithStatus | lib/operations/v2/task.rb:192-206 | `active_sub_tasks` and its siblings return exactly the sub-tasks with that status, at their positions in `sub_tasks` and in that order |
| Execution.FilterByStatus | lib/operations/v2/task.rb:197-205 | `select(&:active?)` and its siblings keep a task if and only if it has that status |
| Execution.FilterByStatusPositions | lib/operations/v2/task.rb:197-205 | the selection keeps the original order: as many tasks as matching positions, the i-th being the task at the i-th matching position |
| Execution.StatusIndexes | lib/operations/v2/task.rb:197-205 | the positions `select` keeps: increasing, each holding a task with the status, and every such position included |
| Execution.ExpiredWakeUpRaisesTimeout | lib/operations/v2/task.rb:236-247 | an expired task without a timeout callback raises Timeout "Timeout expired", and is not marked failed |
| Execution.ExpiredWakeUpRunsCallback | lib/operations/v2/task.rb:240-244 | an expired task with a timeout callback runs only the callback: no handler runs and nothing else is saved |
| Execution.WakeReactivatesFinishedTasks | lib/operations/v2/adapters/executor/inline.rb:20-23 | the inline `wake` sets status active whatever it was, so waking a completed or failed task in a result state runs it again to completion |
| Execution.IllegalInteractionChangesNothing | lib/operations/v2/handlers/interaction_handler.rb:30-34 | an interaction called in a state it does not list raises InvalidState and changes nothing |
| Execution.UnrestrictedInteractionRuns | lib/operations/v2/handlers/interaction_handler.rb:30-41 | an interaction with no `when` runs its body in any state, and wakes nothing when the body leaves the task not waiting |
| Execution.LaterOnlySaves | lib/operations/v2/task.rb:106-111 | with the inline executor, `Task.later` builds the task waiting, saves it and runs no handler |
| Engine.StartChild | lib/operations/v2/task.rb:188-190 | `start` on the task object and the store adapter leaves them as `Execution.StartChild` describes |
| Engine.PerformOp | lib/operations/v2/dsl.rb:92-126 | one operation of a body, done in place on the task object and the store, gives exactly the world `Execution.ApplyOp` describes |
| Engine.Perform | lib/operations/v2/handlers/action_handler.rb:23 | `instance_exec` of a body, operation by operation, stops at the first error and leaves the world `Execution.ApplyOps` describes |
| Engine.InvokeHandler | lib/operations/v2/handlers/action_handler.rb:22-25 | `handler.call(task)` in place, for every handler kind, leaves the world `Execution.CallHandler` describes |
| Engine.RecordError | lib/operations/v2/task.rb:228-234 | `record_error!` fails the task object with the exception and saves it, as `Execution.WithErrorRecorded` describes |
| Engine.Pass | lib/operations/v2/task.rb:125-134 | one pass of the loop in place: either the saved task of `Execution.StepOnce`, or its error recorded and returned |
| Engine.ExecuteStateMachine | lib/operations/v2/task.rb:121-136 | the `while` loop over the task object ends with the task, the store and the error that `Execution.ExecuteStateMachine` gives, or reports that the bound on passes ran out |
| Engine.ExecutorUnimplemented | lib/operations/v2/adapters/executor/base.rb:11-27 | an executor that does not override `call`, `later` or `wake` raises NotImplementedError "<class> must implement #<method>" |
| Engine.InlineCall | lib/operations/v2/adapters/executor/inline.rb:10-13 | the inline `call` runs the loop, as `Execution.InlineCall` describes |
| Engine.InlineLater | lib/operations/v2/adapters/executor/inline.rb:15-18 | the inline `later` is the same as its `call` |
| Engine.InlineWake | lib/operations/v2/adapters/executor/inline.rb:20-23 | the inline `wake` sets the task active and calls it |
| Engine.WakeUp | lib/operations/v2/task.rb:153-157 | `wake_up!` on the task object: the timeout callback or Timeout when expired, otherwise the executor's `wake` and a save |
| Engine.Interact | lib/operations/v2/handlers/interaction_handler.rb:15-41 | calling an interaction on the task object: the legal-state guard, the body, then `wake_up!` if the body left the task waiting |
| Engine.Call | lib/operations/v2/task.rb:95-100 | `Task.call` builds a fresh task object, runs it and saves it, or changes nothing when `new` raises |
| Engine.Later | lib/operations/v2/task.rb:106-111 | `Task.later` builds a fresh waiting task, saves it and hands it to the executor |
| Engine.Test | lib/operations/v2/task.rb:209-214 | `Task.test` builds a fresh task in the given state and calls that state's handler once |
| LegacyInputs.Difference | app/models/operations/task/input_validation.rb:13 | Ruby's `list - other`: exactly the listed names not in `other`, never longer than the list, and the list itself exactly when none is excluded |
| LegacyInputs.DifferenceOfConcatenation | app/models/operations/task/input_validation.rb:13 | the difference keeps the list's order: it distributes over concatenation |
| LegacyInputs.InputsReplaceOptionalAppends | app/models/operations/task/input_validation.rb:2-4 | a second `inputs` replaces the required list, a second `optional` appends to the optional list, and neither touches the other list |
| LegacyInputs.MissingInputsFrom | app/models/operations/task/input_validation.rb:13 | `missing_inputs_from` lists exactly the required names that are not keys of the hash |
| LegacyInputs.PresentIffAllRequiredAreKeys | app/models/operations/task/input_validation.rb:11 | `required_inputs_are_present_in?` holds exactly when every required name is a key |
| LegacyInputs.ValidateInputs | app/models/operations/task/input_validation.rb:15-17 | `validate_inputs!` raises exactly when a required name is missing, with ArgumentError "Missing inputs: …" naming the missing ones |
| LegacyInputs.CarrierInputs | app/models/operations/task/data_carrier.rb:12-15 | `DataCarrier#inputs` raises exactly when a listed name is not a key, naming those in order |
| LegacyInputs.CarrierInputsAgreeWithValidation | app/models/operations/task/data_carrier.rb:12-15 | a carrier checks its inputs exactly as `validate_inputs!` checks a required list |
| LegacyInputs.CarrierOptional | app/models/operations/task/data_carrier.rb:17 | `DataCarrier#optional` returns nil |
| LegacyInputs.DataCarrierReceives | app/models/operations/task/data_carrier.rb:1-10 | the production carrier forwards exactly `fail_with`, `call`, `start` and `complete`; `go_to`, `record_state_transition!` and `record_exception` raise NoMethodError; `wake_up!` and `perform` are answered from the OpenStruct table and reach no task |
| LegacyInputs.CallSubTaskNow | app/models/operations/task/sub_tasks.rb:2-6 | the sub-task runs to its results; its error propagates; the result handler, when given, receives the results and its error propagates too |
| LegacyAgent.WaitImmediate | app/models/operations/agent/wait_handler.rb:9 | an agent's wait handler is never immediate |
| LegacyAgent.CallWait | app/models/operations/agent/wait_handler.rb:22-27 | the first true condition sends the carrier to its paired destination; when none is true the carrier goes to the task's current state; an error in a condition propagates and nothing is sent |
| LegacyAgent.NewInteraction | app/models/operations/agent/interaction_handler.rb:2-5 | a new interaction has no legal states, so it is callable anywhere |
| LegacyAgent.Interact | app/models/operations/agent/interaction_handler.rb:17-29 | outside its legal states an interaction raises InvalidState "<class>#<name> cannot be called in <state>" and records the exception; otherwise the body runs on the carrier, then the transition is recorded and the task performed |
| LegacyAgent.UnrestrictedInteractionRunsAnywhere | app/models/operations/agent/interaction_handler.rb:2-18 | an interaction with no `when` raises only what its body raises |
| LegacyAgent.Settings.constructor | app/models/operations/agent/plan.rb:4-18 | no delay, timeout or callback is set at first |
| LegacyAgent.Settings.BackgroundDelay | app/models/operations/agent/plan.rb:13 | an agent's background delay is five minutes unless `delay` set it |
| LegacyAgent.Settings.ExecutionTimeout | app/models/operations/agent/plan.rb:15 | an agent's execution timeout is 24 hours unless `timeout` set it |
| LegacyAgent.Settings.Delay | app/models/operations/agent/plan.rb:5 | `delay(value)` sets the background delay and nothing else |
| LegacyAgent.Settings.Timeout | app/models/operations/agent/plan.rb:7 | `timeout(value)` sets the execution timeout and nothing else |
| LegacyAgent.Settings.OnTimeout | app/models/operations/agent/plan.rb:9 | `on_timeout` stores the callback and nothing else |
| LegacyAgent.CheckTimeout | app/models/operations/agent/plan.rb:20-28 | `timeout!` does nothing unless `times_out_at` is present and before now; then it runs the callback, or raises Timeout "Timeout expired" when there is none |
| LegacyAgent.TimeoutAtNowIsNotExpired | app/models/operations/agent/plan.rb:28 | the comparison is strict: a deadline equal to now, or no deadline, has not expired |
| LegacyPlan.NewAction | app/models/operations/task/plan/action_handler.rb:4-8 | a new Plan action has no successor |
| LegacyPlan.Then | app/models/operations/task/plan/action_handler.rb:10-12 | `then` sets the successor and returns the state it was given, not the handler |
| LegacyPlan.ActionImmediate | app/models/operations/task/plan/action_handler.rb:14 | a Plan action is always immediate |
| LegacyPlan.CallAction | app/models/operations/task/plan/action_handler.rb:16-19 | the body runs on the task, then `go_to(next_state)` always follows, even with no successor; an error in the body, or a missing body, propagates before any `go_to` |
| LegacyPlan.DecisionCondition | app/models/operations/task/plan/decision_handler.rb:13-19 | `condition` appends the condition, appends its destination only when one is given, records the label at the condition's index, and changes nothing else |
| LegacyPlan.CallDecision | app/models/operations/task/plan/decision_handler.rb:31-48 | missing inputs raise first; with a true or false branch set, the first condition alone picks the branch (no condition raises ArgumentError); otherwise the first true condition's paired destination is the target, and none true raises NoDecision "No conditions matched <name>" |
| LegacyPlan.BranchesOverrideDestinations | app/models/operations/task/plan/decision_handler.rb:33-41 | once a branch is set, later conditions and the destination list have no effect |
| LegacyPlan.MultipleDecisionStopsAtFirstMatch | app/models/operations/task/plan/decision_handler.rb:43-48 | conditions after the first true one are never consulted |
| LegacyPlan.PairedDeclarationKeepsAlignment | app/models/operations/task/plan/decision_handler.rb:13-15 | declaring each condition with its destination keeps destination i paired with condition i |
| LegacyPlan.UnpairedConditionTakesNextDestination | app/models/operations/task/plan/decision_handler.rb:13-47 | a condition declared without a destination shifts the pairing: when it matches, the next declared destination is the target |
| LegacyPlan.CallWait | app/models/operations/task/plan/wait_handler.rb:22-27 | the task goes to the destination of the first true condition, or stays in its current state when none is true; an error in a condition propagates and no `go_to` happens |
| LegacyPlan.WaitVariantsAgree | app/models/operations/task/plan/wait_handler.rb:22-27 | the Plan and the Agent wait handlers choose the same next state and raise the same errors; one calls `go_to` on the task, the other on the carrier |
| LegacyPlan.Interact | app/models/operations/task/plan/interaction_handler.rb:13-18 | outside its legal states the generated method raises InvalidState "<class>#<name> cannot be called in <state>"; otherwise the body runs and `wake_up!` follows unless the body raised |
| LegacyPlan.InteractionVariantsDifferOnlyInBookkeeping | app/models/operations/task/plan/interaction_handler.rb:13-18 | the Plan and the Agent interactions raise the same errors; the Agent one also records the exception, or records the transition and performs where the Plan one wakes up |
| LegacyPlan.NewResultHandler | app/models/operations/task/plan/result_handler.rb:2-4 | `Plan::ResultHandler.new` accepts exactly one positional argument and raises ArgumentError for any other count |
| LegacyPlan.ResultDeclarationRaisesAsWritten | app/models/operations/task/plan.rb:18 | the three arguments `result` passes make `ResultHandler.new` raise ArgumentError |
| LegacyPlan.LastAction | app/models/operations/task/plan.rb:22 | `state_handlers.values.reverse.find`: the key found holds an action handler, and none is found only when no handler is an action |
| LegacyPlan.Definition.constructor | app/models/operations/task/plan.rb:12-28 | a class starts with no initial state and no handlers |
| LegacyPlan.Definition.StartsWith | app/models/operations/task/plan.rb:10 | `starts_with` sets the initial state and nothing else |
| LegacyPlan.Definition.Register | app/models/operations/task/plan.rb:14-30 | registering under a state replaces any earlier handler of that name, changes no other state's handler, and makes a non-blank state valid |
| LegacyPlan.Definition.Decision | app/models/operations/task/plan.rb:14 | `decision` registers the configured decision handler under its name |
| LegacyPlan.Definition.Action | app/models/operations/task/plan.rb:16 | `action` registers a new action handler, without a successor, under its name |
| LegacyPlan.Definition.ResultAsWritten | app/models/operations/task/plan.rb:18 | as written, `result` raises ArgumentError and registers nothing |
| LegacyPlan.Definition.Result | app/models/operations/task/plan.rb:18 | `result` as intended registers a result handler with its input lists under its name, which makes the state valid |
| LegacyPlan.Definition.WaitUntil | app/models/operations/agent/plan.rb:11 | `wait_until` registers the configured agent wait handler under its name |
| LegacyPlan.Definition.GoTo | app/models/operations/task/plan.rb:20-26 | the class-level `go_to` sets the successor of the most recently declared action and changes nothing else, or raises ArgumentError "No action handler defined yet" when there is no action |
| LegacyPlan.BlankStateIsInvalid | app/models/operations/task/plan.rb:34-36 | a blank state is invalid even when a handler is registered under it |
| LegacyPlan.ActionThenGoTo | app/models/operations/task/plan.rb:16-26 | `action :a` followed by `go_to :b` gives a the successor b and changes no other handler |
| LegacyCalls.TargetOf | app/models/operations/task/plan/decision_handler.rb:27-29 | `state \|\| handler`: a given state wins, a block is the target only when no state is given, and the branch stays nil only when neither is given |
| LegacyCalls.AddCondition | app/models/operations/task/plan/wait_handler.rb:11-16 | `condition` appends the condition, keeps the destinations, and stores a given label under the new condition's index |
| LegacyCalls.ConditionsFollowDeclarationOrder | app/models/operations/task/plan/wait_handler.rb:11-16 | a configuration block's conditions are kept one per declaration, in declaration order |
| LegacyCalls.LabelsFollowDeclarationOrder | app/models/operations/task/plan/wait_handler.rb:11-20 | `condition_labels` holds exactly the labelled conditions' indexes, each with its own label, and is empty when no label was given |
| LegacyCalls.SelectDestination | app/models/operations/task/plan/wait_handler.rb:24-25 | the destination paired with the first true condition, or the fallback when none is true; an error in a condition propagates |
| LegacyStateMachine.Moved | app/models/operations/task/state_management.rb:5 | `update!(state:, status_message:)` sets the state and the message, which defaults to the state's name, and keeps the data, the results and the completion |
| LegacyStateMachine.GoToState | app/models/operations/task/state_management.rb:4-38 | `go_to` to an invalid state raises RecordInvalid after assigning it; to a valid one it saves and processes the new state's handler |
| LegacyStateMachine.CompleteTask | app/models/operations/task/state_management.rb:9-38 | `complete` marks the task completed with the results, and raises RecordInvalid when the state is not valid |
| LegacyStateMachine.Start | app/models/operations/task/state_management.rb:17-38 | `start` creates nothing when the initial state is invalid, and otherwise processes the initial state of the created row |
| LegacyStateMachine.GoToKeeps | app/models/operations/task/state_management.rb:4-38 | a `go_to` that does not raise leaves the task in a valid state |
| LegacyStateMachine.ProcessKeeps | app/models/operations/task/state_management.rb:35-38 | processing a valid state leaves the task in a valid state unless it raises |
| LegacyStateMachine.RunStepsKeeps | app/models/operations/task/state_management.rb:35-48 | running a block from a valid state leaves the task in a valid state unless it raises |
| LegacyStateMachine.StartedTaskIsValid | app/models/operations/task/state_management.rb:17-38 | a task `start` created and ran without error is in a valid state |
| LegacyStateMachine.DecisionFollowsAnswer | app/models/operations/task/state_management.rb:66-69 | the nested decision goes to the true state exactly when its condition, or the task's method of its name, answers truthily; an error in the answer propagates |
| LegacyStateMachine.BlocklessActionCallsMethod | app/models/operations/task/state_management.rb:46-48 | an action without a block calls the task method of its name, or raises NoMethodError when there is none |
| LegacyStateMachine.CompletionCompletes | app/models/operations/task/state_management.rb:78-82 | a completion state completes the task with the results its block filled in, or an empty hash without a block, and keeps its state and data |
| LegacyStateMachine.GoToFinalState | app/models/operations/task/state_management.rb:78-82 | `go_to` a completion state without a block ends with the task completed there, the message being the state's name and the results empty |
| LegacyStateMachine.FailureStopsTheBlock | app/models/operations/task/state_management.rb:46-48 | a block step that raises stops the block: later steps never run |
| LegacyStateMachine.ConfigureDecision | app/models/operations/task/state_management.rb:52-64 | the configuration block builds a decision handler of the given name |
| LegacyStateMachine.LastConditionWins | app/models/operations/task/state_management.rb:60 | a second `condition` replaces the first: the handler keeps the last one |
| LegacyStateMachine.NoConditionAsksTheTask | app/models/operations/task/state_management.rb:54-67 | without a `condition` the handler has none, so it asks the task's method of its name |
| LegacyStateMachine.Definition.constructor | app/models/operations/task/state_management.rb:21-29 | a class starts with no initial state and no handlers |
| LegacyStateMachine.Definition.StartsWith | app/models/operations/task/state_management.rb:19 | `starts_with` sets the initial state and nothing else |
| LegacyStateMachine.Definition.Register | app/models/operations/task/state_management.rb:23-31 | registering replaces an earlier handler of that name and changes no other state's handler |
| LegacyStateMachine.Definition.Decision | app/models/operations/task/state_management.rb:23 | `decision` registers the handler its configuration block builds |
| LegacyStateMachine.Definition.Action | app/models/operations/task/state_management.rb:25 | `action` registers an action handler with its optional block |
| LegacyStateMachine.Definition.EndsWith | app/models/operations/task/state_management.rb:27 | `ends_with` registers a completion handler with its optional block |
| LegacyStateMachine.Task.SetRow | app/models/operations/task/state_management.rb:5-9 | `update!` replaces the row's columns with the new values |
| LegacyStateMachine.Task.constructor | app/models/operations/task/state_management.rb:17 | the new row is the one `create!` saves |
| LegacyStateMachine.Task.GoTo | app/models/operations/task/state_management.rb:4-7 | `go_to` on the task object leaves the row and the outcome `GoToState` describes |
| LegacyStateMachine.Task.Complete | app/models/operations/task/state_management.rb:9 | `complete` on the task object leaves the row and the outcome `CompleteTask` describes |
| LegacyStateMachine.Task.ProcessCurrentState | app/models/operations/task/state_management.rb:35 | `process_current_state` on the task object leaves the row and the outcome that processing describes |
| LegacyStateMachine.Task.RunBlock | app/models/operations/task/state_management.rb:46-48 | a block run on the task object, step by step, leaves the row and the outcome `RunSteps` describes |
| LegacyStateMachine.StartTask | app/models/operations/task/state_management.rb:17 | `start` returns no task exactly when `create!` raised, and otherwise a fresh task left as `Start` describes |
| LegacyCarrierHandlers.StateAfter | app/models/operations/task/state_management/action_handler.rb:18 | the task's state after a body's calls: the target of its last `go_to`, or the state it started in when it made none |
| LegacyCarrierHandlers.NewAction | app/models/operations/task/state_management/action_handler.rb:4-10 | a new StateManagement action has no successor and empty input lists |
| LegacyCarrierHandlers.CallAction | app/models/operations/task/state_management/action_handler.rb:12-32 | the body runs on the carrier and its value is returned; a static transition follows only when the body did not raise and a successor is declared, and then it is the only call added |
| LegacyCarrierHandlers.GoToInBodyWins | app/models/operations/task/state_management/action_handler.rb:16-18 | when the body moved the task to another state, the declared successor is skipped |
| LegacyCarrierHandlers.StaticSuccessorFires | app/models/operations/task/state_management/action_handler.rb:18-27 | when the body stayed in the handler's state, the task goes to the declared successor with the carrier's data as the message |
| LegacyCarrierHandlers.InputNamedSuccessor | app/models/operations/task/state_management/action_handler.rb:22-25 | a successor named like an input goes to that input's value when it is truthy, and nowhere otherwise |
| LegacyCarrierHandlers.ConstructedActionNeverNamesAnInput | app/models/operations/task/state_management/action_handler.rb:6-23 | the input lists start empty and nothing in the class fills them, so a constructed action never takes the input-named branch |
| LegacyCarrierHandlers.ConfigureDecision | app/models/operations/task/state_management/decision_handler.rb:4-16 | the configuration block builds a decision of the given name |
| LegacyCarrierHandlers.LaterConditionReplacesEarlier | app/models/operations/task/state_management/decision_handler.rb:12 | a second `condition` replaces the first: the handler keeps the last one |
| LegacyCarrierHandlers.CallDecision | app/models/operations/task/state_management/decision_handler.rb:18-23 | missing inputs raise first; then the condition, or the task's method of the decision's name, picks the true or false branch; a block branch runs on the carrier, any other goes to the carrier's `go_to` with the carrier as the message; an error in the answer propagates |
| LegacyCarrierHandlers.MissingInputsComeFirst | app/models/operations/task/state_management/decision_handler.rb:19 | with a required input missing, the decision raises ArgumentError whatever its condition |
| LegacyCarrierHandlers.WaitCondition | app/models/operations/task/state_management/wait_handler.rb:10 | this wait handler's `condition` takes no label: the labels stay as they were |
| LegacyCarrierHandlers.CallWait | app/models/operations/task/state_management/wait_handler.rb:14-26 | outside the background it raises CannotWaitInForeground "<class> cannot wait in the foreground"; otherwise the carrier goes to the destination of the first true condition, or to the task's state when none is true |
| LegacyCarrierHandlers.BackgroundWaitIsAgentWait | app/models/operations/task/state_management/wait_handler.rb:14-26 | in the background this wait handler does exactly what the Agent wait handler does |
| LegacyCarrierHandlers.ForegroundWaitNeverAsks | app/models/operations/task/state_management/wait_handler.rb:15 | in the foreground it raises before evaluating any condition and makes no call |
| LegacyCarrierHandlers.CallCompletion | app/models/operations/task/state_management/completion_handler.rb:9-13 | the block, when given, fills a fresh results object on the carrier; then the carrier completes with those results; an error in the block propagates before `complete` |
| LegacyCarrierHandlers.CompletionStartsAfresh | app/models/operations/task/state_management/completion_handler.rb:10-12 | the results the task completes with are exactly those the block filled into a new object, or none without a block |
| LegacyCarrierHandlers.CallHandler | app/models/operations/task/state_management/action_handler.rb:12 | each registered handler kind is called with the task and its carrier |
| LegacyBackground.Settings.constructor | app/models/operations/task/background.rb:4-18 | no delay or timeout is set at first |
| LegacyBackground.Settings.BackgroundDelay | app/models/operations/task/background.rb:13 | the background delay is one second unless `delay` set it |
| LegacyBackground.Settings.ExecutionTimeout | app/models/operations/task/background.rb:15 | the execution timeout is five minutes unless `timeout` set it |
| LegacyBackground.Settings.Delay | app/models/operations/task/background.rb:5-7 | `delay(value)` sets the background delay and nothing else |
| LegacyBackground.Settings.Timeout | app/models/operations/task/background.rb:9-11 | `timeout(value)` sets the execution timeout and nothing else |
| LegacyBackground.Settings.WithTimeout | app/models/operations/task/background.rb:17 | `with_timeout` adds the deadline now plus the execution timeout under `_execution_timeout` and keeps every other key |
| LegacyBackground.CheckTimeout | app/models/operations/task/background.rb:22-25 | `timeout!` raises Timeout "Timeout expired" exactly when a deadline is present and before now |
| LegacyBackground.TimesOutAfterTheTimeout | app/models/operations/task/background.rb:17-25 | a task started `with_timeout` at a given time times out exactly when more than the execution timeout has passed |
| LegacyBackground.NoDeadlineNeverTimesOut | app/models/operations/task/background.rb:25 | data without a deadline never times out |
| LegacyExports.Digit | app/models/operations/task/exports.rb:37 | a digit is one of '0' to '9' |
| LegacyExports.Decimal | app/models/operations/task/exports.rb:37 | `n.to_s` is a string of decimal digits without a leading zero, one digit exactly below ten |
| LegacyExports.DecimalValue | app/models/operations/task/exports.rb:37 | `n.to_s` denotes `n`: its digits read back as the number |
| LegacyExports.DecimalInjective | app/models/operations/task/exports.rb:37 | different numbers print differently |
| LegacyExports.ConditionKeyInjective | app/models/operations/task/exports.rb:37-42 | different condition indexes give different `condition_<i>` keys |
| LegacyExports.ConditionKeysDistinct | app/models/operations/task/exports.rb:37-42 | no two condition indexes share a key |
| LegacyExports.NumberedKeys | app/models/operations/task/exports.rb:42 | the keys of the numbered pairs, one per index, in order |
| LegacyExports.NumberedEntriesAreIndexed | app/models/operations/task/exports.rb:42 | with keys that never repeat, each destination keeps its own entry, and every entry comes from a destination |
| LegacyExports.NumberedIsHash | app/models/operations/task/exports.rb:42 | `to_h` of the numbered pairs is a well-formed Hash: its keys in order, no key repeated |
| LegacyExports.IndexedTransitions | app/models/operations/task/exports.rb:41-43 | the wait transitions map `condition_<i>` to the i-th destination, one entry per destination, in order |
| LegacyExports.TrueFalse | app/models/operations/task/exports.rb:35 | a decision's transitions are "true" and "false", in that order, with its two branches |
| LegacyExports.HandlerToH | app/models/operations/task/exports.rb:10-23 | each StateManagement handler kind exports its type, transitions or successor, and its input lists; a decision always exports true and false; a wait exports no inputs; any other handler exports unknown |
| LegacyExports.ExportStates | app/models/operations/task/exports.rb:7 | every state is exported under its own key, in declaration order, as `handler_to_h` describes |
| LegacyExports.ToH | app/models/operations/task/exports.rb:6-8 | the class export holds the name, the initial state, both input lists and the exported states |
| LegacyExports.ExportDescribesEveryState | app/models/operations/task/exports.rb:7 | exactly the declared states are described, in declaration order |
| LegacyExports.WaitExportHasEveryDestination | app/models/operations/task/exports.rb:17-43 | a wait export has one transition per destination, keyed by the condition's index |
| LegacyTesting.WithSubTask | app/models/operations/task/testing.rb:60-63 | `record_sub_task` starts the list when there is none and appends the class |
| LegacyTesting.SubTaskClasses | app/models/operations/task/testing.rb:42-54 | the classes the `call` and `start` calls of a sequence name, never more than there are calls |
| LegacyTesting.SubTasksInCallOrder | app/models/operations/task/testing.rb:42-63 | the sub-task list records every `call` and `start` in the order they were made, and stays nil when there were none |
| LegacyTesting.LastCarrierGoToWins | app/models/operations/task/testing.rb:26-29 | after several `go_to` calls the carrier holds the last one's state, and its message or the state's name |
| LegacyTesting.NoCompleteNoResults | app/models/operations/task/testing.rb:56-58 | without a `complete` call the completion results stay as they were |
| LegacyTesting.TestTask.constructor | app/models/operations/task/testing.rb:7 | the test task starts in the given state |
| LegacyTesting.TestTask.GoTo | app/models/operations/task/testing.rb:13-16 | the overridden `go_to` only sets the state |
| LegacyTesting.TestResultCarrier.constructor | app/models/operations/task/testing.rb:9-25 | the carrier starts with the data and none of the recorded fields |
| LegacyTesting.TestResultCarrier.GoTo | app/models/operations/task/testing.rb:26-29 | `go_to` records the next state and the message, or the state's name when there is none, and nothing else |
| LegacyTesting.TestResultCarrier.FailWith | app/models/operations/task/testing.rb:31-33 | `fail_with` records the failure message and nothing else |
| LegacyTesting.TestResultCarrier.Inputs | app/models/operations/task/testing.rb:35-38 | `inputs` raises exactly when a listed name is not a key, with ArgumentError "Missing inputs: …" naming those names in order |
| LegacyTesting.TestResultCarrier.Optional | app/models/operations/task/testing.rb:40 | `optional` returns nil |
| LegacyTesting.TestResultCarrier.RecordSubTask | app/models/operations/task/testing.rb:60-63 | `record_sub_task` appends the class to the list, starting it when needed, and nothing else |
| LegacyTesting.TestResultCarrier.Call | app/models/operations/task/testing.rb:42-48 | `call` records the sub-task and returns `{answer: 42}` without running the sub-task; the calls its result block makes on the carrier are the body's next calls (see LegacyTesting.ResultBlockFollowsTheCall) |
| LegacyTesting.TestResultCarrier.Start | app/models/operations/task/testing.rb:50-54 | `start` records the sub-task and returns nil |
| LegacyTesting.TestResultCarrier.Complete | app/models/operations/task/testing.rb:56-58 | `complete` records the results and nothing else |
| LegacyTesting.TestResultCarrier.Receive | app/models/operations/task/testing.rb:13-63 | a call made by handler code on the carrier or the task leaves them as `AfterCall` describes |
| LegacyTesting.TestResultCarrier.ReceiveEach | app/models/operations/task/testing.rb:25-63 | the calls in order leave the carrier and the task as `AfterCalls` describes |
| LegacyTesting.AfterCallsAppend | app/models/operations/task/testing.rb:42-48 | receiving one list of carrier calls and then another is receiving the two lists joined, so a block's calls can be spliced into the body's list |
| LegacyTesting.ResultBlockFollowsTheCall | app/models/operations/task/testing.rb:42-48 | the result block's calls act on the carrier after `call` has recorded the sub-task, as `result_handler&.call(result)` runs after `record_sub_task` |
| LegacyTesting.Handling | app/models/operations/task/testing.rb:5-20 | `handling` runs the state's handler once on a test task and a test carrier, and yields the completion results when there are some, or else the carrier |
| LegacyTesting.HandlingCompletionYieldsResults | app/models/operations/task/testing.rb:19 | handling a completion state without a block yields empty results |
| LegacyTesting.HandlingDecisionRecordsTheBranch | app/models/operations/task/testing.rb:18-29 | handling a decision yields the carrier with the chosen branch as its next state and the carrier as its message |
| LegacyTesting.HandlingWaitInForeground | app/models/operations/task/testing.rb:7-18 | with `background?` false for the test task, handling a wait state raises CannotWaitInForeground and evaluates no condition |

## Findings

| source | as written | input that shows it | evidently intended | confidence | as-written member | corrected member |
|---|---|---|---|---|---|---|
| app/models/operations/task/plan.rb:18 | `result` calls `ResultHandler.new(name, inputs, optional, &results)`, but `Plan::ResultHandler#initialize` (plan/result_handler.rb:2-4) takes the name alone | `result :finished` in a class that uses `Task::Plan`: three positional arguments against an arity of one, so ArgumentError | the declaration registers a result handler under the state, carrying its input lists | not executed; medium, because it rests on `ResultHandler` resolving to `Plan::ResultHandler` in that module | LegacyPlan.Definition.ResultAsWritten | LegacyPlan.Definition.Result |

## Left out

- Tasks.NewData and Engine.Test (with Tasks.Initialized and Execution.Test) model a `current_state` given by the caller as its `to_s`. Ruby keeps the object as given: `initialize` stores `attrs.delete(:current_state)` unconverted (lib/operations/v2/task.rb:17), and `self.test(state, **attributes)` passes `state` straight in (task.rb:209-210); only `go_to` converts with `.to_s` (task.rb:139). For a Symbol state, such as `.test :check_day`, Ruby then differs from the model in four places: `in?(state)` compares `current_state == state.to_s` and answers false (task.rb:181-183); an interaction restricted by `when` compares the state with strings (lib/operations/v2/handlers/interaction_handler.rb:22, 31) and raises InvalidState; `to_h` stores the Symbol (task.rb:58); and `execute_state_machine` compares `previous_state != current_state` (task.rb:124), so a handler that `go_to`s the same state name runs one more pass.
- LegacyCarrierHandlers.CallWait and LegacyTesting.HandlingWaitInForeground take `task.background?` (state_management/wait_handler.rb:15) as an input, the `background` field of the task view. Nothing in the repository defines `background?` since the migration db/migrate/20250407143513_agent_fields.rb:5 removed the `background` column, so as the code stands Ruby raises NoMethodError at that line before any wait logic runs. The model follows the behaviour that wait_handler_spec.rb:24-29 expects instead.
- Thread safety: the Mutex around the memory store and the executor's threads are not modelled. Every operation runs alone.
- Time is a `now` parameter of each operation, and one value serves a whole run. Ids come from a counter in the store, where the source uses random UUIDs.
- Bodies, conditions, timeout callbacks and interaction implementations are functions of the task or the data as they stood when the block started. They return the operations or calls they perform in order. A block cannot read back a value it changed earlier, and the value returned by a sub-task `call` is not fed back into the block.
- `Execution.Run`, `Engine.ExecuteStateMachine` and the legacy `Process` chain take a bound on handler calls (`fuel`). Ruby has no such bound, and a cycle of actions loops forever. When the bound runs out the run ends as `Exhausted` or `OutOfFuel`, and no property is claimed about it.
- `puts` and `Rails.logger` output is not modelled.
- ActiveRecord persistence is modelled as a row of the columns the handlers write. Validations other than `state_is_valid`, callbacks, `GlobalIDSerialiser` and the database itself are left out.
- `blank?` recognises the ASCII whitespace characters only, not Unicode whitespace.
- The carrier's OpenStruct table is the task's data map. Its `task` key and the reflection on `to_h` are not modelled.
- The result block given to the testing carrier's `call` (app/models/operations/task/testing.rb:42-48) is not run as a separate block. Ruby does run it, with `{answer: 42}`, and because handler bodies run through `data.instance_exec` (state_management/action_handler.rb:14, state_management/decision_handler.rb:20-22) its `self` is the carrier, so its `go_to`, `fail_with`, `complete` or `call` do change `next_state`, `failure_message`, `completion_results` or `sub_tasks`. A body is modelled as the list of carrier calls it makes, so those calls appear in that list right after the `call` that carries the block; LegacyTesting.TestResultCarrier.ReceiveEach then applies them in that order, and LegacyTesting.ResultBlockFollowsTheCall states that they act on the carrier as `call` left it.
- In the legacy engine, `wake_up!`, `record_state_transition!`, `perform` and `record_exception` are recorded as calls made by handler code. What the task runner then does with them is not part of this model, and the testing harness leaves its records unchanged on them.
- LegacyBackground.CheckTimeout: a `_execution_timeout` value that is not an integer time is treated as no deadline. Ruby would compare it with `<`, and could raise.
- `plan/result_handler.rb`'s `call` (`task.completed!`) is not modelled, because a Plan result handler can never be registered as written (see Findings).
- LegacyTesting.Handling covers the handler classes under `state_management/` only. Those are the ones whose `call` takes the task and a data carrier.
- `Object.const_get(class_name).find(id)` in `deserialise_model` is modelled as a repository: a map from class names to the ids that class can find. Only `Storage.DeserialiseModel` and `Storage.ModelRoundTrip` use it.
- Records.ToH and Records.RestoreFrom store a task's models as their `{id, type}` references, unchanged, instead of routing them through `serialize_models` and `deserialize_models` (task.rb:216-224, 249-257). The model therefore does not capture that `find`, `sleeping_tasks` and `sub_tasks_of` fail when a referenced record can no longer be found. The models part of `Records.RestoreAfterToH` and `Storage.FindAfterSave` holds because of that simplification.
- Records.ToH, Records.RestoreFrom and Execution.WakeUp treat a snapshot as a copy. In Ruby the stored hash and every task restored from it share one attributes Hash (task.rb:59, 79), and attribute setters update it in place (dsl.rb:99-100). So a timeout callback that sets an attribute during an expired `wake_up!` changes the stored snapshot without a save, and two `find`s of one id share their attributes. The model does not capture this aliasing.
- The nested StateManagement handler classes and the files under `state_management/` reopen the same constants, and load order decides which `initialize` and `call` are live. The model keeps both sets side by side (`LegacyStateMachine` and `LegacyCarrierHandlers`) and does not model the merge.
- Dsl.UpcaseChar, Dsl.DowncaseChar, Dsl.Downcase and Dsl.Capitalize change ASCII letters only. Ruby's `capitalize` and `downcase` also map non-ASCII letters.
- Dsl.Singular drops a final "s" only at the very end of the string. Ruby's `/s$/` also matches an "s" just before a trailing newline.
- Dsl.Read raises NoMethodError for any name not declared through the DSL. Ruby's `send(attr)` (dsl.rb:157) would also reach the task's own accessors, such as `current_state`.
- LegacyCalls.CarrierMessage can express only no message or the carrier itself. It cannot express a string message passed to the testing carrier's `go_to` (testing.rb:26-28).
- `Task.perform_now`, `Task.perform_later` and `Task.find` are aliases of `call`, `later` and the storage `find`, and are not modelled separately.
- LegacyPlan.NewResultHandler: the ArgumentError message omits the argument counts that Ruby prints.
