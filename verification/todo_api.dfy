/** The optimistic-update lifecycle of the cached `getTodos` collection: a
    mutation is applied before its request completes, then either confirmed
    (reconciled, for an add) or rolled back by its recorded undo. */
module TodoApi {
  import opened Wrappers
  import opened TodoType
  import opened Draft
  import opened Recipes

  /** The mutation in flight, the collection it was applied to, and the undo
      its patch recorded. */
  datatype Pending = Pending(mutation: Mutation, snapshot: seq<Todo>, undo: Undo)

  /** The cache: the collection the view renders, and at most one pending mutation. */
  datatype Cache = Cache(todos: seq<Todo>, pending: Option<Pending>)

  /** A freshly fetched collection becomes the baseline, nothing pending. */
  function Fetched(todos: seq<Todo>): Cache
  {
    Cache(todos, None)
  }

  /** The cache shows the snapshot with exactly the pending mutation applied,
      and the recorded undo is that mutation's inverse. */
  ghost predicate Valid(c: Cache)
  {
    c.pending.Some? ==>
      var p := c.pending.value;
      && Admissible(p.snapshot, p.mutation)
      && c.todos == Apply(p.snapshot, p.mutation)
      && p.undo == Inverse(p.snapshot, p.mutation)
  }

  /** Issues a mutation: applies its recipe at once and records its undo. */
  function Start(c: Cache, m: Mutation): (r: Cache)
    requires c.pending.None?
    requires Admissible(c.todos, m)
    ensures Valid(r)
    ensures r.pending.Some? && r.pending.value.snapshot == c.todos && r.pending.value.mutation == m
  {
    Cache(Apply(c.todos, m), Some(Pending(m, c.todos, Inverse(c.todos, m))))
  }

  /** `addTodo` issued: the provisional entry is appended, all earlier entries
      stay as they were. */
  function StartAdd(c: Cache, payload: NewTodo, tempId: Id): (r: Cache)
    requires c.pending.None?
    requires !Contains(c.todos, tempId)
    ensures Valid(r) && r.pending.Some? && r.pending.value.snapshot == c.todos
    ensures |r.todos| == |c.todos| + 1
    ensures r.todos[..|c.todos|] == c.todos
    ensures r.todos[|c.todos|] == WithId(payload, tempId)
  {
    Start(c, Add(payload, tempId))
  }

  /** `updateTodo` issued: only the first entry with the id is merged. */
  function StartUpdate(c: Cache, id: Id, fields: Partial): (r: Cache)
    requires c.pending.None?
    ensures Valid(r) && r.pending.Some? && r.pending.value.snapshot == c.todos
    ensures |r.todos| == |c.todos|
    ensures !Contains(c.todos, id) ==> r.todos == c.todos
    ensures Contains(c.todos, id) ==>
      r.todos[FindIndex(c.todos, id)] == Assign(c.todos[FindIndex(c.todos, id)], fields)
    ensures forall j :: 0 <= j < |c.todos| && j != FindIndex(c.todos, id) ==> r.todos[j] == c.todos[j]
  {
    Start(c, Update(id, fields))
  }

  /** `deleteTodo` issued: the first entry with the id is spliced out. */
  function StartDelete(c: Cache, id: Id): (r: Cache)
    requires c.pending.None?
    ensures Valid(r) && r.pending.Some? && r.pending.value.snapshot == c.todos
    ensures !Contains(c.todos, id) ==> r.todos == c.todos
    ensures Contains(c.todos, id) ==> r.todos == Splice(c.todos, FindIndex(c.todos, id))
  {
    Start(c, Delete(id))
  }

  /** The create request fulfilled: the provisional entry is replaced by the
      server's record, which leaves the snapshot with that record appended. */
  function SucceedAdd(c: Cache, created: Todo): (r: Cache)
    requires Valid(c) && c.pending.Some? && c.pending.value.mutation.Add?
    ensures r.pending.None?
    ensures r.todos == c.pending.value.snapshot + [created]
  {
    var p := c.pending.value;
    ReconcileAfterAdd(p.snapshot, p.mutation.payload, p.mutation.tempId, created);
    Cache(ReconcileAdd(c.todos, p.mutation.tempId, created), None)
  }

  /** The update request fulfilled: the optimistic merge is final; the
      server's response is not merged again. */
  function SucceedUpdate(c: Cache): (r: Cache)
    requires Valid(c) && c.pending.Some? && c.pending.value.mutation.Update?
    ensures r.pending.None?
    ensures r.todos == OptimisticUpdate(c.pending.value.snapshot, c.pending.value.mutation.id, c.pending.value.mutation.fields)
  {
    Cache(c.todos, None)
  }

  /** The delete request fulfilled: the removal is final. */
  function SucceedDelete(c: Cache): (r: Cache)
    requires Valid(c) && c.pending.Some? && c.pending.value.mutation.Delete?
    ensures r.pending.None?
    ensures r.todos == OptimisticDelete(c.pending.value.snapshot, c.pending.value.mutation.id)
  {
    Cache(c.todos, None)
  }

  /** The request rejected: `patchResult.undo()` applies the recorded undo,
      which brings back exactly the collection seen before the mutation. */
  function Fail(c: Cache): (r: Cache)
    requires Valid(c) && c.pending.Some?
    ensures r.pending.None?
    ensures r.todos == c.pending.value.snapshot
  {
    var p := c.pending.value;
    UndoRestores(p.snapshot, p.mutation);
    Cache(ApplyUndo(c.todos, p.undo), None)
  }

  /** `addTodo` from issue to settlement. */
  function AddTodo(todos: seq<Todo>, payload: NewTodo, tempId: Id, outcome: Outcome<Todo>): (r: seq<Todo>)
    requires !Contains(todos, tempId)
    ensures outcome.Fulfilled? ==> r == todos + [outcome.data]
    ensures outcome.Rejected? ==> r == todos
  {
    var c := StartAdd(Fetched(todos), payload, tempId);
    match outcome
    case Fulfilled(created) => SucceedAdd(c, created).todos
    case Rejected => Fail(c).todos
  }

  /** `updateTodo` from issue to settlement; the response body is ignored. */
  function UpdateTodo(todos: seq<Todo>, id: Id, fields: Partial, outcome: Outcome<Todo>): (r: seq<Todo>)
    ensures outcome.Fulfilled? ==> r == OptimisticUpdate(todos, id, fields)
    ensures outcome.Rejected? ==> r == todos
  {
    var c := StartUpdate(Fetched(todos), id, fields);
    match outcome
    case Fulfilled(_) => SucceedUpdate(c).todos
    case Rejected => Fail(c).todos
  }

  /** `deleteTodo` from issue to settlement; the request has no response body. */
  function DeleteTodo(todos: seq<Todo>, id: Id, outcome: Outcome<()>): (r: seq<Todo>)
    ensures outcome.Fulfilled? ==> r == OptimisticDelete(todos, id)
    ensures outcome.Rejected? ==> r == todos
  {
    var c := StartDelete(Fetched(todos), id);
    match outcome
    case Fulfilled(_) => SucceedDelete(c).todos
    case Rejected => Fail(c).todos
  }

  /** A mutation issued and fulfilled; `created` is the record a create
      request returns, unused by the other two. */
  datatype Confirmed = Confirmed(mutation: Mutation, created: Todo)

  /** The cache after one mutation is issued against `todos` and fulfilled:
      the recipe is applied, then an add's reconcile replaces the first entry
      holding the provisional id, whichever entry that is. */
  function SettleOne(todos: seq<Todo>, step: Confirmed): seq<Todo>
  {
    match step.mutation
    case Add(payload, tempId) => ReconcileAdd(OptimisticAdd(todos, payload, tempId), tempId, step.created)
    case Update(id, fields) => UpdateTodo(todos, id, fields, Fulfilled(step.created))
    case Delete(id) => DeleteTodo(todos, id, Fulfilled(()))
  }

  /** The cache after each mutation in turn is issued and fulfilled. */
  function Settle(todos: seq<Todo>, steps: seq<Confirmed>): seq<Todo>
    decreases |steps|
  {
    if |steps| == 0 then todos else Settle(SettleOne(todos, steps[0]), steps[1..])
  }

  /** The remote resource as a reference: a create appends the record it
      returns, an update merges the fields into the entry with the id, a
      delete removes that entry. */
  function Remote(server: seq<Todo>, steps: seq<Confirmed>): seq<Todo>
    decreases |steps|
  {
    if |steps| == 0 then server
    else
      var next :=
        match steps[0].mutation
        case Add(_, _) => server + [steps[0].created]
        case Update(id, fields) => OptimisticUpdate(server, id, fields)
        case Delete(id) => OptimisticDelete(server, id);
      Remote(next, steps[1..])
  }

  /** Every add in the run uses a provisional id fresh in the cache it is issued against. */
  predicate FreshRun(todos: seq<Todo>, steps: seq<Confirmed>)
    decreases |steps|
  {
    |steps| == 0 ||
      (Admissible(todos, steps[0].mutation) && FreshRun(SettleOne(todos, steps[0]), steps[1..]))
  }

  /** Eventual consistency: when every request succeeds and the provisional
      ids are fresh, the settled cache equals what a fresh fetch returns. */
  lemma {:induction false} SettledCacheMatchesRemote(todos: seq<Todo>, steps: seq<Confirmed>)
    requires FreshRun(todos, steps)
    ensures Settle(todos, steps) == Remote(todos, steps)
    decreases |steps|
  {
    if |steps| != 0 {
      var m := steps[0].mutation;
      if m.Add? {
        ReconcileAfterAdd(todos, m.payload, m.tempId, steps[0].created);
      }
      SettledCacheMatchesRemote(SettleOne(todos, steps[0]), steps[1..]);
    }
  }

  /** An empty collection, "buy milk" added and confirmed with server id "42". */
  lemma ScenarioAddConfirmed()
    ensures AddTodo([], NewTodo("buy milk", false), "temp-1", Fulfilled(Todo("42", "buy milk", false)))
         == [Todo("42", "buy milk", false)]
  {
  }

  /** Deleting the only entry empties the cache while the request is in
      flight; the rejection brings the entry back. */
  lemma ScenarioDeleteRolledBack()
    ensures StartDelete(Fetched([Todo("1", "a", false)]), "1").todos == []
    ensures DeleteTodo([Todo("1", "a", false)], "1", Rejected) == [Todo("1", "a", false)]
  {
    assert [Todo("1", "a", false)][0].id == "1";
  }

  /** A failed toggle restores the entry's previous `completed` flag. */
  lemma FailedToggleRestores(todos: seq<Todo>, id: Id, done: bool)
    requires Contains(todos, id)
    ensures var c := Fail(StartUpdate(Fetched(todos), id, Partial(None, None, Some(done))));
      c.todos[FindIndex(todos, id)].completed == todos[FindIndex(todos, id)].completed
  {
  }
}
