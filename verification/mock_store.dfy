/** The shape shared by the three in-memory repositories: an array of
    records identified by an `id` string, and a `shouldThrowError` switch
    that makes every guarded operation fail with `firestoreError("Mock
    error")` before it touches the array. */
module MockStore {

  import opened Wrappers
  import opened Seqs
  import opened RepositoryErrors

  datatype Store<T> = Store(items: seq<T>, shouldThrowError: bool)

  /** The error every guarded operation throws while the switch is on. */
  const MockFailure: RepositoryError := FirestoreError(MockErrorMessage)

  function HasId<T>(key: T -> string, id: string): T -> bool
  {
    x => key(x) == id
  }

  function LacksId<T>(key: T -> string, id: string): T -> bool
  {
    x => key(x) != id
  }

  /** `create…(_:)`: appends at the end. */
  function Create<T(!new)>(st: Store<T>, x: T): (r: (Store<T>, Outcome<RepositoryError>))
    ensures st.shouldThrowError ==> r == (st, Fail(MockFailure))
    ensures !st.shouldThrowError ==> r.1 == Pass && r.0.shouldThrowError == st.shouldThrowError
    ensures !st.shouldThrowError ==>
              |r.0.items| == |st.items| + 1 && r.0.items[|st.items|] == x
              && r.0.items[..|st.items|] == st.items
  {
    if st.shouldThrowError then (st, Fail(MockFailure))
    else (st.(items := st.items + [x]), Pass)
  }

  /** `get…(id:)`: the first record with the id, or `documentNotFound`. */
  function Get<T(!new)>(st: Store<T>, key: T -> string, id: string): (r: Result<T, RepositoryError>)
    ensures st.shouldThrowError ==> r == Failure(MockFailure)
    ensures !st.shouldThrowError ==>
              (r == Failure(DocumentNotFound) <==> forall i :: 0 <= i < |st.items| ==> key(st.items[i]) != id)
    ensures r.Success? ==> exists i :: IsFirst(st.items, HasId(key, id), i) && st.items[i] == r.value
  {
    if st.shouldThrowError then Failure(MockFailure)
    else match First(st.items, HasId(key, id))
      case None => Failure(DocumentNotFound)
      case Some(x) => Success(x)
  }

  /** `update…(_:)`: the first record with the same id is replaced, every
      other position is left alone; without such a record nothing changes. */
  function Update<T(!new)>(st: Store<T>, key: T -> string, x: T): (r: (Store<T>, Outcome<RepositoryError>))
    ensures st.shouldThrowError ==> r == (st, Fail(MockFailure))
    ensures !st.shouldThrowError ==> r.1 == Pass && |r.0.items| == |st.items|
    ensures !st.shouldThrowError ==>
              forall i :: 0 <= i < |st.items| ==>
                r.0.items[i] == (if IsFirst(st.items, HasId(key, key(x)), i) then x else st.items[i])
  {
    if st.shouldThrowError then (st, Fail(MockFailure))
    else (st.(items := UpdateFirst(st.items, HasId(key, key(x)), _ => x)), Pass)
  }

  /** `approve…(id:)` and `pinPromo(id:isPinned:)`: `f` rewrites the first
      record with the id; nothing else changes. */
  function Modify<T(!new)>(st: Store<T>, key: T -> string, id: string, f: T -> T)
    : (r: (Store<T>, Outcome<RepositoryError>))
    ensures st.shouldThrowError ==> r == (st, Fail(MockFailure))
    ensures !st.shouldThrowError ==> r.1 == Pass && |r.0.items| == |st.items|
    ensures !st.shouldThrowError ==>
              forall i :: 0 <= i < |st.items| ==>
                r.0.items[i] == (if IsFirst(st.items, HasId(key, id), i) then f(st.items[i]) else st.items[i])
  {
    if st.shouldThrowError then (st, Fail(MockFailure))
    else (st.(items := UpdateFirst(st.items, HasId(key, id), f)), Pass)
  }

  /** `delete…(id:)`: every record with the id goes; the rest keep their
      order. */
  function Delete<T(!new)>(st: Store<T>, key: T -> string, id: string): (r: (Store<T>, Outcome<RepositoryError>))
    ensures st.shouldThrowError ==> r == (st, Fail(MockFailure))
    ensures !st.shouldThrowError ==> r.1 == Pass
    ensures !st.shouldThrowError ==> forall x :: x in r.0.items <==> x in st.items && key(x) != id
    ensures !st.shouldThrowError ==>
              forall x :: multiset(r.0.items)[x] == if key(x) != id then multiset(st.items)[x] else 0
  {
    if st.shouldThrowError then (st, Fail(MockFailure))
    else
      var kept := Filter(st.items, LacksId(key, id));
      assert forall x :: multiset(kept)[x] == if key(x) != id then multiset(st.items)[x] else 0 by {
        forall x {
          FilterCount(st.items, LacksId(key, id), x);
        }
      }
      (st.(items := kept), Pass)
  }

  /** Deleting keeps the survivors in store order: deleting from two
      halves and joining them is deleting from the whole. */
  lemma DeleteKeepsOrder<T(!new)>(a: seq<T>, b: seq<T>, key: T -> string, id: string)
    ensures Delete(Store(a + b, false), key, id).0.items
         == Delete(Store(a, false), key, id).0.items + Delete(Store(b, false), key, id).0.items
  {
    FilterAppend(a, b, LacksId(key, id));
  }

  /** A guarded query: the records satisfying `p`, in store order. */
  function Query<T(!new)>(st: Store<T>, p: T -> bool): (r: Result<seq<T>, RepositoryError>)
    ensures st.shouldThrowError ==> r == Failure(MockFailure)
    ensures !st.shouldThrowError ==> r.Success? && forall x :: x in r.value <==> x in st.items && p(x)
  {
    if st.shouldThrowError then Failure(MockFailure) else Success(Filter(st.items, p))
  }

  /** A rewrite that keeps ids keeps the position of the first record with
      any id. */
  lemma ModifyKeepsFirst<T(!new)>(st: Store<T>, key: T -> string, id: string, f: T -> T, other: string)
    requires !st.shouldThrowError
    requires forall x :: key(f(x)) == key(x)
    ensures forall k :: IsFirst(Modify(st, key, id, f).0.items, HasId(key, other), k)
                    <==> IsFirst(st.items, HasId(key, other), k)
  {
    var items := Modify(st, key, id, f).0.items;
    assert forall k :: 0 <= k < |st.items| ==> key(items[k]) == key(st.items[k]);
  }

  /** A record created under a new id is found under that id. */
  lemma GetAfterCreate<T(!new)>(st: Store<T>, key: T -> string, x: T)
    requires !st.shouldThrowError
    requires forall i :: 0 <= i < |st.items| ==> key(st.items[i]) != key(x)
    ensures Get(Create(st, x).0, key, key(x)) == Success(x)
  {
    var items := Create(st, x).0.items;
    assert IsFirst(items, HasId(key, key(x)), |st.items|);
  }

  /** Creating a record under an id already in use does not hide the older
      record: `get` keeps returning it. */
  lemma CreateDuplicateStaysHidden<T(!new)>(st: Store<T>, key: T -> string, x: T, older: T)
    requires !st.shouldThrowError
    requires Get(st, key, key(x)) == Success(older)
    ensures Get(Create(st, x).0, key, key(x)) == Success(older)
  {
    var p := HasId(key, key(x));
    var items := Create(st, x).0.items;
    var i :| IsFirst(st.items, p, i) && st.items[i] == older;
    assert forall k :: 0 <= k < |st.items| ==> items[k] == st.items[k];
    assert IsFirst(items, p, i);
    var r := Get(Create(st, x).0, key, key(x));
    var j :| IsFirst(items, p, j) && items[j] == r.value;
    FirstIsUnique(items, p, i, j);
  }

  /** After an update of a stored id, `get` returns the new record. */
  lemma GetAfterUpdate<T(!new)>(st: Store<T>, key: T -> string, x: T)
    requires !st.shouldThrowError
    requires Get(st, key, key(x)).Success?
    ensures Get(Update(st, key, x).0, key, key(x)) == Success(x)
  {
    var p := HasId(key, key(x));
    var items := Update(st, key, x).0.items;
    var i :| IsFirst(st.items, p, i);
    assert items[i] == x;
    assert forall k :: 0 <= k < i ==> items[k] == st.items[k] by {
      forall k | 0 <= k < i ensures items[k] == st.items[k] {
        assert !IsFirst(st.items, p, k);
      }
    }
    assert IsFirst(items, p, i);
    var r := Get(Update(st, key, x).0, key, key(x));
    var j :| IsFirst(items, p, j) && items[j] == r.value;
    FirstIsUnique(items, p, i, j);
  }

  /** After a delete, the id is not found. */
  lemma GetAfterDelete<T(!new)>(st: Store<T>, key: T -> string, id: string)
    requires !st.shouldThrowError
    ensures Get(Delete(st, key, id).0, key, id) == Failure(DocumentNotFound)
  {
    var items := Delete(st, key, id).0.items;
    forall i | 0 <= i < |items|
      ensures key(items[i]) != id
    {
      assert items[i] in items;
    }
  }

  /** Deleting the id of a record just created removes it along with any
      older record of that id, and leaves the rest in order. */
  lemma {:induction false} DeleteUndoesCreate<T(!new)>(st: Store<T>, key: T -> string, x: T)
    requires !st.shouldThrowError
    ensures Delete(Create(st, x).0, key, key(x)).0 == Delete(st, key, key(x)).0
  {
    FilterAppend(st.items, [x], LacksId(key, key(x)));
    assert Filter([x], LacksId(key, key(x))) == [];
  }
}
