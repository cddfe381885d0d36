# Optimistic todo cache

A Dafny model of the optimistic-update cache layer of a small todo-list
client (`libs/todo/api.ts`). The client keeps one cached collection, the
result of the `getTodos` query. Each mutation endpoint (`addTodo`,
`updateTodo`, `deleteTodo`) changes that collection at once, sends its
request, and then either keeps the change (after swapping the provisional
id of an add for the server's record) or rolls it back with
`patchResult.undo()`.

Modules:

- `Wrappers`: `Option`, and `Outcome`, the way a request's `queryFulfilled` promise settles.
- `TodoType`: the `Todo` record, the create body `NewTodo` (`Omit<Todo, "id">`),
  the update body `Partial` (`Partial<Todo>`), and `Assign` (`Object.assign`).
- `Draft`: the array operations the recipes use on the cached collection:
  `findIndex`, `push`, `splice`, and their inverses.
- `Recipes`: the four `updateQueryData` recipes as pure functions on
  `seq<Todo>`. It also has the `Undo` that `patchResult.undo()` applies and the
  round-trip lemmas.
- `TodoApi`: the cache as a state holding the collection and at most one
  pending mutation, with `Start*`, `Succeed*` and `Fail` transitions. It also
  has each endpoint run from issue to settlement, the settle-to-server lemma
  and two concrete scenarios.

The network outcome is a parameter (`Outcome`), never an effect. The
provisional id `temp-${Date.now()}` is a parameter `tempId`. It must not
already be in the collection. `undo()` is modelled by an `Undo` value recorded
when the mutation starts. `Undo` shrinks the collection back after a push,
writes back the prior field values after a merge, and re-inserts the removed
entry at its old index after a splice. `TodoApi.Valid` ties that value to the
pre-mutation snapshot.

## Model

| member | source | states |
|---|---|---|
| `TodoType.WithId` | libs/todo/api.ts:28 | `{ ...todo, id: tempId }` carries the given id and exactly the payload's `todo` and `completed` |
| `TodoType.Assign` | libs/todo/api.ts:67 | `Object.assign`: every field present in the update overwrites the old value; every absent field keeps its old value |
| `TodoType.Prior` | libs/todo/api.ts:72-74 | the write-back an undo of a merge records has exactly the fields the update set |
| `TodoType.AssignPriorRestores` | libs/todo/api.ts:72-74 | writing back the prior values undoes a merge exactly |
| `Draft.FindIndex` | libs/todo/api.ts:86-87 | `findIndex` returns -1 exactly when no entry has the id; otherwise it returns a position holding the id with no earlier entry holding it |
| `Draft.FindIndexAppendFresh` | libs/todo/api.ts:35-37 | after pushing onto a collection where the id is fresh, `findIndex` finds the pushed entry, or nothing |
| `Draft.Splice` | libs/todo/api.ts:88 | `splice(i, 1)` drops position i: one entry fewer, earlier entries in place, later ones shifted down in order, and the multiset loses exactly that entry |
| `Draft.InsertAtUndoesSplice` | libs/todo/api.ts:93-95 | re-inserting the spliced entry at its index rebuilds the original collection |
| `Recipes.OptimisticAdd` | libs/todo/api.ts:26-30 | the optimistic add grows the collection by exactly one entry at the end, with the provisional id and the payload's fields; earlier entries are unchanged |
| `Recipes.ReconcileAdd` | libs/todo/api.ts:34-41 | on success the first entry with the provisional id becomes the server's record; length and every other position are unchanged; with no such entry the collection is unchanged |
| `Recipes.ReconcileAfterAdd` | libs/todo/api.ts:25-41 | with a fresh provisional id, add then reconcile leaves the old collection with the server's record appended |
| `Recipes.ReconcileAfterAddCollision` | libs/todo/api.ts:35-40 | if the provisional id was already present, the older entry is replaced and the provisional entry is left behind |
| `Recipes.OptimisticUpdate` | libs/todo/api.ts:63-70 | the update merges the fields into the first entry with the id only; length and every other entry are unchanged; an absent id is a no-op |
| `Recipes.UpdateIdempotent` | libs/todo/api.ts:64-69 | an update that does not rename its entry gives the same collection when applied twice |
| `Recipes.UpdateNothing` | libs/todo/api.ts:65-67 | an update with no fields leaves the collection unchanged |
| `Recipes.OptimisticDelete` | libs/todo/api.ts:84-91 | the delete removes exactly the first entry with the id: one entry fewer, the rest in order; an absent id is a no-op |
| `Recipes.UpdateUndoRestores` | libs/todo/api.ts:63-74 | the undo of an update writes back the merged entry's prior field values and restores the pre-update collection |
| `Recipes.DeleteUndoRestores` | libs/todo/api.ts:84-95 | the undo of a delete restores the pre-delete collection, and is a no-op when the id was absent |
| `Recipes.UndoRestores` | libs/todo/api.ts:23-95 | for every mutation, present id or not, the recorded undo returns the collection to its state before the recipe |
| `Recipes.DeleteUndoneByReinsert` | libs/todo/api.ts:84-95 | delete rollback re-inserts the removed entry at its original index and reproduces the pre-delete collection |
| `TodoApi.Start` | libs/todo/api.ts:26-91 | issuing any of the three mutations (add at 26-30, update at 63-70, delete at 84-91) yields a consistent cache: snapshot recorded, recipe applied, inverse recorded |
| `TodoApi.StartAdd` | libs/todo/api.ts:25-30 | issuing an add appends the provisional entry and leaves the earlier entries unchanged |
| `TodoApi.StartUpdate` | libs/todo/api.ts:62-70 | issuing an update changes only the first entry with the id, as `Object.assign` would |
| `TodoApi.StartDelete` | libs/todo/api.ts:83-91 | issuing a delete splices out the first entry with the id, or changes nothing if the id is absent |
| `TodoApi.SucceedAdd` | libs/todo/api.ts:32-41 | a fulfilled create leaves the pre-add collection with the server's record appended and nothing pending |
| `TodoApi.SucceedUpdate` | libs/todo/api.ts:72-74 | a fulfilled update keeps the optimistic merge and does not merge the response again |
| `TodoApi.SucceedDelete` | libs/todo/api.ts:93-95 | a fulfilled delete keeps the removal |
| `TodoApi.Fail` | libs/todo/api.ts:42-95 | for any of the three mutations (undo at 42-44, 72-74 and 93-95), a rejected request's undo restores exactly the pre-mutation collection and clears the pending mutation |
| `TodoApi.AddTodo` | libs/todo/api.ts:23-45 | an add ends with the server's record appended on success, or with the original collection on failure (no provisional entry left behind) |
| `TodoApi.UpdateTodo` | libs/todo/api.ts:58-75 | an update ends merged on success, or with the original collection on failure |
| `TodoApi.DeleteTodo` | libs/todo/api.ts:82-96 | a delete ends without the entry on success, or with the original collection, entry at its old index, on failure |
| `TodoApi.SettledCacheMatchesRemote` | libs/todo/api.ts:16-97 | when every request succeeds and provisional ids are fresh, the settled cache equals the collection of a remote that appends created records and applies updates and deletes to the entry with the id |
| `TodoApi.ScenarioAddConfirmed` | libs/todo/api.ts:23-45 | empty collection, add "buy milk" confirmed with id "42", ends as exactly that one record |
| `TodoApi.ScenarioDeleteRolledBack` | libs/todo/api.ts:82-96 | deleting the only entry empties the cache while the request is in flight, and the rejection restores it |
| `TodoApi.FailedToggleRestores` | components/TodoList.tsx:82-87 | a failed checkbox toggle restores the entry's previous `completed` flag |

## Left out

- Network I/O: `fetchBaseQuery`, URLs, HTTP methods, JSON bodies and the `getTodos` fetch (libs/todo/api.ts:6-22, 52-57, 78-81). The fetched collection is the argument of the function `TodoApi.Fetched`, and a request's result is an `Outcome` parameter.
- The loading phase: every mutation starts from an already loaded collection. components/TodoList.tsx:54-70 lets an add be issued while `getTodos` is still loading; the model does not cover a mutation issued before the first fetch settles.
- RTK Query and Immer internals. How `updateQueryData` turns a recipe into patches and how `undo()` applies the inverse patches is abstracted by the `Undo` value. The model does not show that Immer's patch lists have this effect.
- Concurrent mutations: only one mutation is in flight at a time (`Start*` require nothing pending). Two mutations racing on the same entry are not coordinated by the source either.
- `Date.now()`-based provisional ids: `tempId` is a parameter. Freshness is a precondition of `StartAdd` and `AddTodo`. `ReconcileAfterAddCollision` shows what happens without it.
- `Object.assign` of a property explicitly set to `undefined`: the update datatype only has present or absent fields.
- `find` returns a reference to the entry that `findIndex` would point at. So the update recipe's in-place merge is modelled as a positional update at `FindIndex`, and `find` has no separate member.
- `TodoApi.SettledCacheMatchesRemote`: the remote's behaviour is not in this code. The lemma holds for a remote that appends created records and applies update and delete to the first entry with the id.
- components/TodoList.tsx, components/Loading.tsx: rendering, input state and event wiring are UI.
- libs/store.ts: store configuration only. libs/todo/reducer.ts: a slice with no reducers.
- The `Todo` type's own declaration file is not part of this model. Its shape `{ id, todo, completed }` follows from how api.ts and TodoList.tsx use it.
