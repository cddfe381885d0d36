/** The record shape shared by the cache and the remote todo resource. */
module TodoType {
  import opened Wrappers

  /** Identifiers are opaque strings: assigned by the remote resource, or a
      locally generated provisional id while a create request is in flight. */
  type Id = string

  datatype Todo = Todo(id: Id, todo: string, completed: bool)

  /** `Omit<Todo, "id">`: the body of a create request. */
  datatype NewTodo = NewTodo(todo: string, completed: bool)

  /** `Partial<Todo>`: the fields an update request carries; an absent field is `None`. */
  datatype Partial = Partial(id: Option<Id>, todo: Option<string>, completed: Option<bool>)

  const NoFields := Partial(None, None, None)

  /** The value a field takes after a merge: the new one if present, else the current one. */
  function OrElse<T>(field: Option<T>, current: T): T
  {
    match field
    case Some(v) => v
    case None => current
  }

  /** The create body a record corresponds to: the record without its id. */
  function Strip(t: Todo): NewTodo
  {
    NewTodo(t.todo, t.completed)
  }

  /** `{ ...payload, id }`: the full record built from a create body and an id. */
  function WithId(payload: NewTodo, id: Id): (t: Todo)
    ensures t.id == id
    ensures Strip(t) == payload
  {
    Todo(id, payload.todo, payload.completed)
  }

  lemma WithIdStripRoundTrip(t: Todo)
    ensures WithId(Strip(t), t.id) == t
  {
  }

  /** `Object.assign(t, fields)`: every field present in `fields` is
      overwritten, every absent field keeps its old value. */
  function Assign(t: Todo, fields: Partial): (r: Todo)
    ensures fields.id.Some? ==> r.id == fields.id.value
    ensures fields.id.None? ==> r.id == t.id
    ensures fields.todo.Some? ==> r.todo == fields.todo.value
    ensures fields.todo.None? ==> r.todo == t.todo
    ensures fields.completed.Some? ==> r.completed == fields.completed.value
    ensures fields.completed.None? ==> r.completed == t.completed
  {
    Todo(OrElse(fields.id, t.id), OrElse(fields.todo, t.todo), OrElse(fields.completed, t.completed))
  }

  /** The fields an undo writes back to reverse `Assign(t, fields)`: the prior
      value of exactly those fields that `fields` sets. */
  function Prior(t: Todo, fields: Partial): (p: Partial)
    ensures p.id.Some? <==> fields.id.Some?
    ensures p.todo.Some? <==> fields.todo.Some?
    ensures p.completed.Some? <==> fields.completed.Some?
  {
    Partial(
      if fields.id.Some? then Some(t.id) else None,
      if fields.todo.Some? then Some(t.todo) else None,
      if fields.completed.Some? then Some(t.completed) else None)
  }

  /** Writing back the prior values undoes a merge. */
  lemma AssignPriorRestores(t: Todo, fields: Partial)
    ensures Assign(Assign(t, fields), Prior(t, fields)) == t
  {
  }

  /** Merging the same fields twice is the same as merging them once. */
  lemma AssignIdempotent(t: Todo, fields: Partial)
    ensures Assign(Assign(t, fields), fields) == Assign(t, fields)
  {
  }

  /** Merging no fields changes nothing. */
  lemma AssignNothing(t: Todo)
    ensures Assign(t, NoFields) == t
  {
  }
}
