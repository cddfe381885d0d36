/** The recipes each mutation endpoint hands to `updateQueryData("getTodos")`,
    as pure transformations of the cached collection, together with the
    inverse that `patchResult.undo()` applies. */
module Recipes {
  import opened Wrappers
  import opened TodoType
  import opened Draft

  /** A mutation request: the argument of `addTodo`, `updateTodo` or `deleteTodo`. */
  datatype Mutation =
    | Add(payload: NewTodo, tempId: Id)
    | Update(id: Id, fields: Partial)
    | Delete(id: Id)

  /** The provisional id of an add must not already be in the collection;
      updates and deletes may name any id, present or not. */
  predicate Admissible(s: seq<Todo>, m: Mutation)
  {
    m.Add? ==> !Contains(s, m.tempId)
  }

  /** addTodo's optimistic recipe: push the payload under the provisional id. */
  function OptimisticAdd(s: seq<Todo>, payload: NewTodo, tempId: Id): (r: seq<Todo>)
    ensures |r| == |s| + 1
    ensures r[..|s|] == s
    ensures r[|s|].id == tempId && Strip(r[|s|]) == payload
  {
    Push(s, WithId(payload, tempId))
  }

  /** addTodo's reconcile recipe: the first entry holding the provisional id
      becomes the server's record; with no such entry nothing changes. */
  function ReconcileAdd(s: seq<Todo>, tempId: Id, created: Todo): (r: seq<Todo>)
    ensures !Contains(s, tempId) ==> r == s
    ensures |r| == |s|
    ensures Contains(s, tempId) ==> r[FindIndex(s, tempId)] == created
    ensures forall j :: 0 <= j < |s| && j != FindIndex(s, tempId) ==> r[j] == s[j]
  {
    var i := FindIndex(s, tempId);
    if i != NotFound then s[i := created] else s
  }

  /** updateTodo's optimistic recipe: merge the fields into the first entry
      with the id; with no such entry nothing changes. */
  function OptimisticUpdate(s: seq<Todo>, id: Id, fields: Partial): (r: seq<Todo>)
    ensures |r| == |s|
    ensures !Contains(s, id) ==> r == s
    ensures Contains(s, id) ==> r[FindIndex(s, id)] == Assign(s[FindIndex(s, id)], fields)
    ensures forall j :: 0 <= j < |s| && j != FindIndex(s, id) ==> r[j] == s[j]
  {
    var i := FindIndex(s, id);
    if i != NotFound then s[i := Assign(s[i], fields)] else s
  }

  /** deleteTodo's optimistic recipe: splice out the first entry with the id;
      with no such entry nothing changes. */
  function OptimisticDelete(s: seq<Todo>, id: Id): (r: seq<Todo>)
    ensures !Contains(s, id) ==> r == s
    ensures Contains(s, id) ==> |r| == |s| - 1
    ensures Contains(s, id) ==> r == Splice(s, FindIndex(s, id))
    ensures Contains(s, id) ==> multiset(r) + multiset{s[FindIndex(s, id)]} == multiset(s)
  {
    var i := FindIndex(s, id);
    if i != NotFound then Splice(s, i) else s
  }

  /** The recipe a mutation applies before its request completes. */
  function Apply(s: seq<Todo>, m: Mutation): seq<Todo>
  {
    match m
    case Add(payload, tempId) => OptimisticAdd(s, payload, tempId)
    case Update(id, fields) => OptimisticUpdate(s, id, fields)
    case Delete(id) => OptimisticDelete(s, id)
  }

  /** What `patchResult.undo()` writes back: shrink to the old length after a
      push, restore the prior field values of the merged entry, re-insert the
      spliced entry at its old position, or nothing when the recipe changed nothing. */
  datatype Undo =
    | Keep
    | Shrink(length: nat)
    | Revert(index: nat, prior: Partial)
    | Reinsert(index: nat, entry: Todo)

  /** The undo recorded when `m` is applied to `s`. */
  function Inverse(s: seq<Todo>, m: Mutation): Undo
  {
    match m
    case Add(_, _) => Shrink(|s|)
    case Update(id, fields) =>
      var i := FindIndex(s, id);
      if i == NotFound then Keep else Revert(i, Prior(s[i], fields))
    case Delete(id) =>
      var i := FindIndex(s, id);
      if i == NotFound then Keep else Reinsert(i, s[i])
  }

  /** Applies an undo; one whose position does not fit the collection changes nothing. */
  function ApplyUndo(s: seq<Todo>, u: Undo): seq<Todo>
  {
    match u
    case Keep => s
    case Shrink(n) => if n <= |s| then Truncate(s, n) else s
    case Revert(i, prior) => if i < |s| then s[i := Assign(s[i], prior)] else s
    case Reinsert(i, t) => if i <= |s| then InsertAt(s, i, t) else s
  }

  /** Rolling back an update writes the prior field values of the merged entry back. */
  lemma UpdateUndoRestores(s: seq<Todo>, id: Id, fields: Partial)
    ensures ApplyUndo(OptimisticUpdate(s, id, fields), Inverse(s, Update(id, fields))) == s
  {
    var i := FindIndex(s, id);
    if i != NotFound {
      var r := OptimisticUpdate(s, id, fields);
      AssignPriorRestores(s[i], fields);
      assert r[i := Assign(r[i], Prior(s[i], fields))] == s;
    }
  }

  /** Rolling back a delete re-inserts the spliced entry at its index. */
  lemma DeleteUndoRestores(s: seq<Todo>, id: Id)
    ensures ApplyUndo(OptimisticDelete(s, id), Inverse(s, Delete(id))) == s
  {
    var i := FindIndex(s, id);
    if i != NotFound {
      InsertAtUndoesSplice(s, i);
    }
  }

  /** Rollback: the recorded undo returns the collection to its state before
      the mutation, for every mutation, whether or not its id was present. */
  lemma {:induction false} UndoRestores(s: seq<Todo>, m: Mutation)
    ensures ApplyUndo(Apply(s, m), Inverse(s, m)) == s
  {
    match m
    case Add(payload, tempId) =>
      TruncateUndoesPush(s, WithId(payload, tempId));
    case Update(id, fields) =>
      UpdateUndoRestores(s, id, fields);
    case Delete(id) =>
      DeleteUndoRestores(s, id);
  }

  /** The delete rollback in the source's terms: re-inserting the removed
      entry at its original index reproduces the pre-delete collection. */
  lemma DeleteUndoneByReinsert(s: seq<Todo>, id: Id)
    requires Contains(s, id)
    ensures InsertAt(OptimisticDelete(s, id), FindIndex(s, id), s[FindIndex(s, id)]) == s
  {
    InsertAtUndoesSplice(s, FindIndex(s, id));
  }

  /** With a fresh provisional id, add followed by reconcile leaves exactly the
      server's record appended: the provisional entry is the one replaced. */
  lemma ReconcileAfterAdd(s: seq<Todo>, payload: NewTodo, tempId: Id, created: Todo)
    requires !Contains(s, tempId)
    ensures ReconcileAdd(OptimisticAdd(s, payload, tempId), tempId, created) == s + [created]
  {
    FindIndexAppendFresh(s, WithId(payload, tempId), tempId);
  }

  /** Without freshness the reconcile hits the older entry that already held
      the id, and the provisional entry stays behind. */
  lemma ReconcileAfterAddCollision(s: seq<Todo>, payload: NewTodo, tempId: Id, created: Todo)
    requires Contains(s, tempId)
    ensures ReconcileAdd(OptimisticAdd(s, payload, tempId), tempId, created)
         == s[FindIndex(s, tempId) := created] + [WithId(payload, tempId)]
  {
    FindIndexAppendPresent(s, WithId(payload, tempId), tempId);
  }

  /** An update that does not rename its entry is idempotent: re-applying it
      finds the same entry and writes the same values. */
  lemma UpdateIdempotent(s: seq<Todo>, id: Id, fields: Partial)
    requires fields.id.None? || fields.id == Some(id)
    ensures OptimisticUpdate(OptimisticUpdate(s, id, fields), id, fields) == OptimisticUpdate(s, id, fields)
  {
    var i := FindIndex(s, id);
    if i != NotFound {
      var s' := OptimisticUpdate(s, id, fields);
      FindIndexIsFirst(s', id, i);
      AssignIdempotent(s[i], fields);
    }
  }

  /** An update with no fields leaves the collection as it was. */
  lemma UpdateNothing(s: seq<Todo>, id: Id)
    ensures OptimisticUpdate(s, id, NoFields) == s
  {
    var i := FindIndex(s, id);
    if i != NotFound {
      AssignNothing(s[i]);
    }
  }
}
