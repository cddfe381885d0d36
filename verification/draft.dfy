/** The array operations the cache recipes perform on the cached collection,
    with JavaScript's `Array.prototype` semantics, on an immutable sequence. */
module Draft {
  import opened TodoType

  /** What `findIndex` returns when no element matches. */
  const NotFound: int := -1

  /** Some entry of `s` carries `id`. */
  predicate Contains(s: seq<Todo>, id: Id)
  {
    exists j :: 0 <= j < |s| && s[j].id == id
  }

  /** `s.findIndex(t => t.id === id)`: the position of the FIRST entry with
      `id`, or `NotFound` when there is none. */
  function FindIndex(s: seq<Todo>, id: Id): (r: int)
    ensures NotFound <= r < |s|
    ensures r == NotFound <==> !Contains(s, id)
    ensures 0 <= r ==> s[r].id == id
    ensures 0 <= r ==> forall j :: 0 <= j < r ==> s[j].id != id
  {
    if |s| == 0 then NotFound
    else if s[0].id == id then 0
    else
      var k := FindIndex(s[1..], id);
      if k == NotFound then NotFound else k + 1
  }

  /** Any position holding `id` with no earlier holder is the one `findIndex` returns. */
  lemma FindIndexIsFirst(s: seq<Todo>, id: Id, i: nat)
    requires i < |s| && s[i].id == id
    requires forall j :: 0 <= j < i ==> s[j].id != id
    ensures FindIndex(s, id) == i
  {
  }

  /** Appending an entry does not move the first hit of an id already present. */
  lemma FindIndexAppendPresent(s: seq<Todo>, x: Todo, id: Id)
    requires Contains(s, id)
    ensures FindIndex(s + [x], id) == FindIndex(s, id)
  {
    var i := FindIndex(s, id);
    FindIndexIsFirst(s + [x], id, i);
  }

  /** When `id` is fresh in `s`, the only candidate in `s + [x]` is the appended entry. */
  lemma {:induction false} FindIndexAppendFresh(s: seq<Todo>, x: Todo, id: Id)
    requires !Contains(s, id)
    ensures FindIndex(s + [x], id) == if x.id == id then |s| else NotFound
  {
    if |s| == 0 {
      assert s + [x] == [x];
    } else {
      assert (s + [x])[1..] == s[1..] + [x];
      FindIndexAppendFresh(s[1..], x, id);
    }
  }

  /** `draft.push(x)`. */
  function Push(s: seq<Todo>, x: Todo): seq<Todo>
  {
    s + [x]
  }

  /** What undoing a push leaves: the first `n` entries. */
  function Truncate(s: seq<Todo>, n: nat): (r: seq<Todo>)
    requires n <= |s|
    ensures |r| == n
    ensures forall j :: 0 <= j < n ==> r[j] == s[j]
  {
    s[..n]
  }

  /** `draft.splice(i, 1)`: drops position `i`, the entries after it move down
      by one and keep their relative order. */
  function Splice(s: seq<Todo>, i: nat): (r: seq<Todo>)
    requires i < |s|
    ensures |r| == |s| - 1
    ensures forall j :: 0 <= j < i ==> r[j] == s[j]
    ensures forall j :: i <= j < |r| ==> r[j] == s[j + 1]
    ensures multiset(r) + multiset{s[i]} == multiset(s)
  {
    assert s == s[..i] + [s[i]] + s[i + 1..];
    s[..i] + s[i + 1..]
  }

  /** `draft.splice(i, 0, x)`: puts `x` at position `i`, the entries from `i`
      on move up by one. */
  function InsertAt(s: seq<Todo>, i: nat, x: Todo): (r: seq<Todo>)
    requires i <= |s|
    ensures |r| == |s| + 1
    ensures r[i] == x
    ensures forall j :: 0 <= j < i ==> r[j] == s[j]
    ensures forall j :: i < j < |r| ==> r[j] == s[j - 1]
  {
    s[..i] + [x] + s[i..]
  }

  /** Re-inserting the removed entry at its old position undoes a splice. */
  lemma InsertAtUndoesSplice(s: seq<Todo>, i: nat)
    requires i < |s|
    ensures InsertAt(Splice(s, i), i, s[i]) == s
  {
    var r := InsertAt(Splice(s, i), i, s[i]);
    assert forall j :: 0 <= j < |s| ==> r[j] == s[j];
  }

  /** Splicing out what was just inserted gives the sequence back. */
  lemma SpliceUndoesInsertAt(s: seq<Todo>, i: nat, x: Todo)
    requires i <= |s|
    ensures Splice(InsertAt(s, i, x), i) == s
  {
    var r := Splice(InsertAt(s, i, x), i);
    assert forall j :: 0 <= j < |s| ==> r[j] == s[j];
  }

  /** Truncating to the old length undoes a push. */
  lemma TruncateUndoesPush(s: seq<Todo>, x: Todo)
    ensures Truncate(Push(s, x), |s|) == s
  {
  }
}
