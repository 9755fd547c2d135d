# Memento: snapshot, transaction and transactional method

A Dafny model of a small Python snapshot-and-rollback mechanism.

- `memento(obj, deep)` copies an object's whole field map. It returns a restore action that clears the object's fields and refills them from the copy.
- A `Transaction` guard holds a fixed list of target objects and one restore action per target. It commits once when constructed. `commit` re-captures every target. `rollback` runs every stored restore action in target order, and may run any number of times (with the immutable values modelled here; see "Left out").
- The `Transactional` wrapper snapshots the receiver before a method call. If the call raises, the wrapper restores the snapshot and re-raises the same error.
- A demo entity `NumObj` has one field, `value`. It is driven through two scripted scenarios.

## Layout

- `values.dfy` (module `Values`): field values (`Int`, `Str`), errors, `Result`, `Outcome`, and the Python `+` / `+=` semantics the demo relies on.
- `memento.dfy` (module `Memento`):
  - `Obj` is any object, and its `fields` map is its `__dict__`.
  - `Snapshot` is the restore action `memento` returns. `Capture` makes one, and `Restore` invokes it.
  - `Captures` snapshots a list of objects.
  - `Replay` is the ghost specification of running a list of restore actions in order, with lemmas about it.
- `transactions.dfy` (module `Transactions`): the `Transaction` class and the `Transactional` wrapper.
- `numobj.dfy` (module `NumObjDemo`): `NumObj` construction, `increment`, `do_stuff`, and the two scenarios of `main`.

An object is a class `Obj` with one mutable field, `fields: map<string, Value>`. Python's generic `__dict__` access becomes reads and writes of that map. A restore action is the value `Snapshot(target, state, deep)`. Invoking it is the method `Restore`, which clears the map and refills it from `state`, as lines 8-9 do. `Capture` is a function that reads the object, so capturing a memento cannot change it.

Objects are changed in place by `Restore`, `Transaction.Rollback`, `Transactional`, `AddTo` and `Increment`. `Transaction.Commit` changes no target: it replaces the guard's snapshots. Each contract gives the new state in terms of the old one. The lemmas about `Replay` state the order and idempotence properties of rollback for all inputs.

A wrapped method is passed to `Transactional` as a function `Fields -> Outcome<R>`. The function maps the receiver's field map on entry to the map reached when the call returned or raised, together with the result or the error. The wrapper first writes the map reached, since the method mutated the object in place. If the call raised, the wrapper then restores the snapshot. The Python exception becomes `Err(error)`: the wrapper returns it only after restoring, and returns it unchanged.

## Model

| member | source | states |
|---|---|---|
| `Memento.Capture` | behavioral/memento/memento.py:4-5 | The restore action for `obj`, holding its current field map and the `deep` flag. It only reads `obj`, so capturing changes nothing. |
| `Memento.Restore` | behavioral/memento/memento.py:7-9 | After the restore action runs, the target's field map is exactly the captured copy. Fields added since capture are gone and deleted fields are back. Only the target is modified, so running it twice leaves the state of running it once. |
| `Memento.Captures` | behavioral/memento/memento.py:26 | One snapshot per target, in target order. Snapshot `i` belongs to target `i`, holds that target's current field map and carries the given `deep` flag. |
| `Memento.ReplayUntargeted` | behavioral/memento/memento.py:28-30 | Running a list of restore actions leaves every object that none of them names with its field map. |
| `Memento.ReplayLastWins` | behavioral/memento/memento.py:28-30 | For an object that some restore action names, the map it ends with does not depend on its state before the rollback. |
| `Memento.ReplayLast` | behavioral/memento/memento.py:28-30 | When snapshot `j` names an object and no later snapshot in the list does, the object ends with snapshot `j`'s map: the last restore action for an object decides. |
| `Memento.ReplayIdempotent` | behavioral/memento/memento.py:28-30 | Running the same list of restore actions twice gives the same field map as running it once. |
| `Memento.ReplayConsistent` | behavioral/memento/memento.py:25-30 | When the snapshots of any one object agree, running them all in order puts every named object back to its own snapshot. This holds even when an object is listed more than once. |
| `Transactions.Transaction.constructor` | behavioral/memento/memento.py:20-23 | Stores `deep` and the targets, then commits. So there is one snapshot per target (as many snapshots as targets), each taken at construction with the given `deep` flag. |
| `Transactions.Transaction.Commit` | behavioral/memento/memento.py:25-26 | Replaces all snapshots with fresh captures of every target's current state, in target order, and re-establishes the guard's invariant. |
| `Transactions.Transaction.Rollback` | behavioral/memento/memento.py:28-30 | Runs the stored restore actions in target order. Each target ends with `Replay` of the stored list from its prior state, which is its snapshot at the last commit. The snapshots are not modified, so a second rollback has the same effect. |
| `Transactions.Transactional` | behavioral/memento/memento.py:42-48 | Returns exactly the wrapped call's result or error. On a normal return, the object keeps all of the call's mutations. On an error, the object's field map equals its pre-call map, a shallow snapshot taken before the call. |
| `Values.Plus` | behavioral/memento/memento.py:62 | Python `+` on the field values used here: ints add, strs concatenate, and a mix raises a TypeError naming both operand types (as at lines 67 and 84). |
| `Values.AugAdd` | behavioral/memento/memento.py:62 | `obj.name += rhs` on a field map. It succeeds exactly when the field exists and the operand types match, and then changes only that field, to the sum. A missing field raises AttributeError, a type mismatch raises TypeError, and on failure nothing is stored. |
| `NumObjDemo.NewNumObj` | behavioral/memento/memento.py:55-56 | A fresh object whose only field is `value`. |
| `NumObjDemo.AddTo` | behavioral/memento/memento.py:84 | The in-place augmented assignment: the new field map and the outcome are those of `AugAdd` on the old map. |
| `NumObjDemo.Increment` | behavioral/memento/memento.py:61-62 | `self.value += 1` in place: the new field map and the outcome are those of `AugAdd(old, "value", Int(1))`. |
| `NumObjDemo.DoStuffBody` | behavioral/memento/memento.py:65-67 | Whatever the field map, the body of `do_stuff` raises `TypeError("str", "int")`, having already set `value` to `"1111"`. |
| `NumObjDemo.DoStuff` | behavioral/memento/memento.py:64-67 | The transactional `do_stuff` always passes that TypeError to its caller and leaves the object as it was before the call. |
| `NumObjDemo.TransactionScenario` | behavioral/memento/memento.py:71-88 | Starting from `NumObj(-1)`, the displayed values are -1, 0, 1, 2 (three increments), then 3, 4, 5 after the commit. `value += 'x'` raises, the handler rolls back, and 2 is displayed. The object ends with `value == 2`. |
| `NumObjDemo.DoStuffScenario` | behavioral/memento/memento.py:90-99 | `do_stuff` raises `TypeError("str", "int")` and the object is displayed unchanged. |
| `NumObjDemo.Demonstration` | behavioral/memento/memento.py:70-99 | The whole of `main`: the displayed values are exactly -1, 0, 1, 2, 3, 4, 5, 2, 2, the rollback ran, and `do_stuff` raised `TypeError("str", "int")`. |

## Left out

- Shallow and deep copies (line 5) differ only in whether nested mutable values are shared with the live object. Field values here are immutable, so the two copies hold the same map. The `deep` flag is recorded in each `Snapshot` and passed through (lines 21, 26), but aliasing is not modelled. Line 9 refills the object with the snapshot's own value objects. So after one rollback, even a deep snapshot shares nested mutable values with its target, and a later in-place change to such a value would also change the stored snapshot. Repeated rollbacks return to the commit point only because the values here are immutable.
- A failure of `deepcopy` on an uncopyable value is not modelled. It depends on library behaviour outside this repository, so capture never fails here.
- Python's reflection (`__dict__`, `clear`, `update`) becomes the explicit `fields` map of `Obj`, and the restore action becomes the `Snapshot` value.
- The descriptor binding `__get__` (line 40) and the argument forwarding `*args, **kwargs` are out: the wrapper is a combinator taking the object and the call.
- Transactional: the wrapped call can change only its receiver. A Python method could also mutate other objects, and the wrapper would not roll those back either.
- Transactional: only `Exception` is caught at line 46. `BaseException` failures that are not `Exception` are not distinguished, and every error is treated as caught.
- The class-level defaults `deep = False` and `states = []` (lines 17-18) are shadowed by the instance assignments in `__init__` and `commit`. `states` is an instance field here.
- `__repr__` (lines 58-59), `print`, `traceback.print_exc` and `sys.stdout` in `main` are output only. The scenarios return the displayed `value`s instead.
- Python's attribute lookup falling back to class attributes when `value` is missing on the instance is not modelled. A missing field raises AttributeError.
- Values other than `int` and `str`, and Python's wording of its TypeError messages, are not modelled. The error records the two operand type names.
- There is no concurrency to model.
