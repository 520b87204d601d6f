/** Results, and the ordered record collection every service reads and writes:
    an insertion-order list of ids beside a map from id to record. */
module Tables {

  datatype Option<+T> = None | Some(value: T)

  datatype Result<+T, +E> = Success(value: T) | Failure(error: E)

  /** The error kinds of the services' application errors. */
  datatype Error = NotFound | Conflict | Validation | Forbidden | Internal

  datatype Table<R> = Table(order: seq<string>, rows: map<string, R>)

  ghost predicate NoDup<K>(ids: seq<K>) {
    forall i, j :: 0 <= i < j < |ids| ==> ids[i] != ids[j]
  }

  /** The representation invariant of a collection: the order list is
      duplicate-free and lists exactly the stored ids, none of them empty. */
  ghost predicate Sound<R>(t: Table<R>) {
    && NoDup(t.order)
    && (forall id :: id in t.order <==> id in t.rows)
    && "" !in t.rows
  }

  function Insert<R>(t: Table<R>, id: string, row: R): Table<R> {
    Table(t.order + [id], t.rows[id := row])
  }

  function Put<R>(t: Table<R>, id: string, row: R): Table<R> {
    t.(rows := t.rows[id := row])
  }

  /** The order list without its first occurrence of id. */
  function RemoveFirst(ids: seq<string>, id: string): seq<string> {
    if ids == [] then []
    else if ids[0] == id then ids[1..]
    else [ids[0]] + RemoveFirst(ids[1..], id)
  }

  function Drop<R>(t: Table<R>, id: string): Table<R> {
    Table(RemoveFirst(t.order, id), t.rows - {id})
  }

  lemma PrefixStep<K>(s: seq<K>, i: nat)
    requires i < |s|
    ensures s[..i + 1] == s[..i] + [s[i]]
  {
  }

  lemma {:induction false} RemoveFirstElements(ids: seq<string>, id: string)
    requires NoDup(ids)
    ensures NoDup(RemoveFirst(ids, id))
    ensures forall x :: x in RemoveFirst(ids, id) <==> x in ids && x != id
  {
    if ids != [] {
      var tail := ids[1..];
      RemoveFirstElements(tail, id);
      assert forall x :: x in ids <==> x == ids[0] || x in tail;
      if ids[0] != id {
        assert ids[0] !in RemoveFirst(tail, id);
        assert RemoveFirst(ids, id)[1..] == RemoveFirst(tail, id);
        assert forall x :: x in RemoveFirst(ids, id) <==> x == ids[0] || x in RemoveFirst(tail, id);
      }
    }
  }

  lemma {:induction false} RemoveFirstAt(ids: seq<string>, id: string, k: nat)
    requires k < |ids| && ids[k] == id && forall j :: 0 <= j < k ==> ids[j] != id
    ensures RemoveFirst(ids, id) == ids[..k] + ids[k + 1..]
  {
    if k > 0 {
      RemoveFirstAt(ids[1..], id, k - 1);
    }
  }

  lemma InsertSound<R>(t: Table<R>, id: string, row: R)
    requires Sound(t) && id !in t.rows && id != ""
    ensures Sound(Insert(t, id, row))
  {
  }

  lemma PutSound<R>(t: Table<R>, id: string, row: R)
    requires Sound(t) && id in t.rows
    ensures Sound(Put(t, id, row))
  {
  }

  lemma DropSound<R>(t: Table<R>, id: string)
    requires Sound(t)
    ensures Sound(Drop(t, id))
  {
    RemoveFirstElements(t.order, id);
  }
}
