/** The order lists of the in-memory document store: slices over arrays on the heap,
    appended to in spare capacity and shifted in place by deletions. */
module OrderLists {
  import opened Tables

  /** A slice: the first len cells of a backing array. */
  datatype Slice = Slice(cells: array<string>, len: nat)

  ghost predicate Holds(s: Slice, ids: seq<string>)
    reads s.cells
  {
    s.len <= s.cells.Length && s.cells[..s.len] == ids
  }

  /** A larger backing array with the slice's cells copied over. */
  method Grow(s: Slice, capacity: nat) returns (grown: array<string>)
    requires s.len <= s.cells.Length && s.len <= capacity
    ensures fresh(grown) && grown.Length == capacity && grown[..s.len] == s.cells[..s.len]
  {
    grown := new string[capacity];
    for i := 0 to s.len
      invariant grown[..i] == s.cells[..i]
    {
      grown[i] := s.cells[i];
    }
  }

  method FromSeq(ids: seq<string>) returns (s: Slice)
    ensures fresh(s.cells) && Holds(s, ids)
  {
    var cells := new string[|ids|](k requires 0 <= k < |ids| => ids[k]);
    s := Slice(cells, |ids|);
  }

  /** Closes the gap at i by moving the cells behind it one place left. */
  method ShiftLeft(cells: array<string>, i: nat, len: nat)
    requires i < len <= cells.Length
    modifies cells
    ensures cells[..len - 1] == old(cells[..i]) + old(cells[i + 1..len])
  {
    var k := i;
    while k < len - 1
      invariant i <= k <= len - 1
      invariant forall j :: 0 <= j < i ==> cells[j] == old(cells[j])
      invariant forall j :: i <= j < k ==> cells[j] == old(cells[j + 1])
      invariant forall j :: k <= j < len ==> cells[j] == old(cells[j])
    {
      cells[k] := cells[k + 1];
      k := k + 1;
    }
  }

  /** The slice without its first cell holding the id, over the same array. */
  method CloseGap(s: Slice, i: nat, ghost ids: seq<string>, ghost id: string) returns (shorter: Slice)
    requires Holds(s, ids) && i < s.len && ids[i] == id && forall k :: 0 <= k < i ==> ids[k] != id
    modifies s.cells
    ensures Holds(shorter, RemoveFirst(ids, id)) && shorter.cells == s.cells
  {
    RemoveFirstAt(ids, id, i);
    ShiftLeft(s.cells, i, s.len);
    shorter := Slice(s.cells, s.len - 1);
  }

  /** The place of the first cell holding the id, or the length when none does. */
  method IndexOf(s: Slice, id: string) returns (i: nat)
    requires s.len <= s.cells.Length
    ensures i <= s.len && (forall k :: 0 <= k < i ==> s.cells[k] != id) && (i < s.len ==> s.cells[i] == id)
  {
    i := 0;
    while i < s.len && s.cells[i] != id
      invariant i <= s.len && forall k :: 0 <= k < i ==> s.cells[k] != id
    {
      i := i + 1;
    }
  }

  lemma {:induction false} NothingToRemove(ids: seq<string>, id: string)
    requires id !in ids
    ensures RemoveFirst(ids, id) == ids
  {
    if ids != [] {
      assert ids[0] in ids;
      NothingToRemove(ids[1..], id);
    }
  }

  lemma CopyOneMore(lists: map<string, seq<string>>, left: set<string>, coll: string)
    requires coll in left && coll in lists
    ensures (lists - left)[coll := lists[coll]] == lists - (left - {coll})
  {
  }

  /** The map from collection to slice; no two collections share a backing array. */
  class OrderMap {
    var slices: map<string, Slice>
    ghost var lists: map<string, seq<string>>
    ghost var Repr: set<array<string>>

    ghost predicate Valid()
      reads this, Repr
    {
      && slices.Keys == lists.Keys
      && (forall c :: c in slices ==> slices[c].cells in Repr && Holds(slices[c], lists[c]))
      && (forall c, d :: c in slices && d in slices && c != d ==> slices[c].cells != slices[d].cells)
    }

    /** Valid but for what one collection's slice holds. */
    ghost predicate ValidBut(coll: string)
      reads this, Repr
    {
      && slices.Keys == lists.Keys
      && (forall c :: c in slices ==> slices[c].cells in Repr && (c != coll ==> Holds(slices[c], lists[c])))
      && (forall c, d :: c in slices && d in slices && c != d ==> slices[c].cells != slices[d].cells)
    }

    constructor ()
      ensures Valid() && lists == map[] && Repr == {}
    {
      slices, lists, Repr := map[], map[], {};
    }

    /** Gives a collection a slice of its own array or of a new one. */
    method Assign(coll: string, s: Slice, ghost ids: seq<string>)
      requires ValidBut(coll) && Holds(s, ids)
      requires s.cells !in Repr || (coll in slices && s.cells == slices[coll].cells)
      modifies this
      ensures Valid() && Repr == old(Repr) + {s.cells} && lists == old(lists)[coll := ids]
    {
      slices, lists, Repr := slices[coll := s], lists[coll := ids], Repr + {s.cells};
    }

    /** Go's append: into spare capacity when there is some, else into a larger copy. */
    method Append(coll: string, id: string)
      requires Valid() && coll in lists
      modifies this, Repr
      ensures Valid() && fresh(Repr - old(Repr)) && lists == old(lists)[coll := old(lists)[coll] + [id]]
    {
      var s := slices[coll];
      if s.len < s.cells.Length {
        s.cells[s.len] := id;
        Assign(coll, Slice(s.cells, s.len + 1), lists[coll] + [id]);
      } else {
        var grown := Grow(s, 2 * s.len + 1);
        grown[s.len] := id;
        Assign(coll, Slice(grown, s.len + 1), lists[coll] + [id]);
      }
    }

    /** Removes the first occurrence of an id by shifting the tail one place left. */
    method Remove(coll: string, id: string)
      requires Valid() && coll in lists
      modifies this, Repr
      ensures Valid() && Repr == old(Repr) && lists == old(lists)[coll := RemoveFirst(old(lists)[coll], id)]
    {
      var s := slices[coll];
      ghost var ids := lists[coll];
      var i := IndexOf(s, id);
      if i < s.len {
        s := CloseGap(s, i, ids, id);
        Assign(coll, s, RemoveFirst(ids, id));
      } else {
        NothingToRemove(ids, id);
        Assign(coll, s, ids);
      }
    }

    /** Copies every order list into an array of its own. */
    method Clone() returns (copy: OrderMap)
      requires Valid()
      ensures fresh(copy) && fresh(copy.Repr) && copy.Valid() && copy.lists == lists
    {
      copy := new OrderMap();
      var left := slices.Keys;
      while left != {}
        invariant left <= slices.Keys
        invariant fresh(copy) && fresh(copy.Repr) && copy.Valid() && copy.lists == lists - left
        modifies copy
        decreases left
      {
        var c :| c in left;
        copy.AssignCopy(c, slices[c], lists[c]);
        CopyOneMore(lists, left, c);
        left := left - {c};
      }
    }

    /** Gives a collection a slice holding the ids over an array of its own. */
    method AssignList(coll: string, ids: seq<string>)
      requires Valid()
      modifies this
      ensures Valid() && fresh(Repr - old(Repr)) && lists == old(lists)[coll := ids]
    {
      var s := FromSeq(ids);
      Assign(coll, s, ids);
    }

    method AssignCopy(coll: string, s: Slice, ghost ids: seq<string>)
      requires Valid() && Holds(s, ids)
      modifies this
      ensures Valid() && fresh(Repr - old(Repr)) && lists == old(lists)[coll := ids]
    {
      var cells := Grow(s, s.len);
      Assign(coll, Slice(cells, s.len), ids);
    }
  }
}

/** The in-memory document store: records in maps, order lists on the heap, and a
    transaction that rolls back to copies taken at its start. */
module DocumentStore {
  import opened Tables
  import opened Documents
  import opened OrderLists
  import Ids
  import Text

  type Rows = map<string, Record>

  function ErrorOf<T>(r: Result<T, Error>): Option<Error> {
    if r.Failure? then Some(r.error) else None
  }

  /** What the store's fields amount to: each collection's order list and records. */
  ghost predicate Shows(docs: Docs, data: map<string, Rows>, lists: map<string, seq<string>>,
                        sessions: map<string, Session>) {
    && docs.sessions == sessions && docs.colls.Keys == data.Keys == lists.Keys
    && forall c :: c in data ==> docs.colls[c] == Table(lists[c], data[c])
  }

  lemma ShowsOne(a: Docs, b: Docs, data: map<string, Rows>, lists: map<string, seq<string>>,
                 sessions: map<string, Session>)
    requires Shows(a, data, lists, sessions) && Shows(b, data, lists, sessions)
    ensures a == b
  {
    assert a.colls == b.colls;
  }

  lemma ShowsUpdate(docs: Docs, data: map<string, Rows>, lists: map<string, seq<string>>,
                    sessions: map<string, Session>,
                    coll: string, rows: Rows, ids: seq<string>)
    requires Shows(docs, data, lists, sessions)
    ensures Shows(WithTable(docs, coll, Table(ids, rows)), data[coll := rows], lists[coll := ids], sessions)
  {
  }

  lemma ShowsEnsure(docs: Docs, data: map<string, Rows>, lists: map<string, seq<string>>,
                    sessions: map<string, Session>,
                    coll: string)
    requires Shows(docs, data, lists, sessions)
    ensures coll in data ==> Ensure(docs, coll) == docs && TableOf(docs, coll).rows == data[coll]
    ensures coll !in data ==> Shows(Ensure(docs, coll), data[coll := map[]], lists[coll := []], sessions)
                              && TableOf(docs, coll).rows == map[]
  {
    if coll in data {
      assert docs.colls[coll := docs.colls[coll]] == docs.colls;
    }
  }

  lemma ShowsInsert(before: Docs, data: map<string, Rows>, lists: map<string, seq<string>>,
                    sessions: map<string, Session>,
                    coll: string, id: string, record: Record)
    requires Shows(Ensure(before, coll), data, lists, sessions) && coll in data
    ensures Shows(WithTable(before, coll, Insert(TableOf(before, coll), id, record)),
                  data[coll := data[coll][id := record]], lists[coll := lists[coll] + [id]], sessions)
  {
    ShowsUpdate(Ensure(before, coll), data, lists, sessions, coll, data[coll][id := record], lists[coll] + [id]);
    EnsureThenWrite(before, coll, Insert(TableOf(before, coll), id, record));
  }

  lemma ShowsDrop(before: Docs, data: map<string, Rows>, lists: map<string, seq<string>>,
                  sessions: map<string, Session>,
                  coll: string, id: string)
    requires Shows(Ensure(before, coll), data, lists, sessions) && coll in data
    ensures Shows(WithTable(before, coll, Drop(TableOf(before, coll), id)),
                  data[coll := data[coll] - {id}], lists[coll := RemoveFirst(lists[coll], id)], sessions)
  {
    ShowsUpdate(Ensure(before, coll), data, lists, sessions, coll, data[coll] - {id}, RemoveFirst(lists[coll], id));
    EnsureThenWrite(before, coll, Drop(TableOf(before, coll), id));
  }

  lemma ShowsPut(before: Docs, data: map<string, Rows>, lists: map<string, seq<string>>, sessions: map<string, Session>,
                 coll: string, id: string, record: Record)
    requires Shows(Ensure(before, coll), data, lists, sessions) && coll in data
    ensures Shows(WithTable(before, coll, Put(TableOf(before, coll), id, record)),
                  data[coll := data[coll][id := record]], lists, sessions)
  {
    ShowsUpdate(Ensure(before, coll), data, lists, sessions, coll, data[coll][id := record], lists[coll]);
    EnsureThenWrite(before, coll, Put(TableOf(before, coll), id, record));
    assert lists[coll := lists[coll]] == lists;
  }

  /** Making sure a collection exists and then writing it is just writing it. */
  lemma EnsureThenWrite(d: Docs, coll: string, t: Table<Record>)
    ensures WithTable(Ensure(d, coll), coll, t) == WithTable(d, coll, t)
    ensures TableOf(Ensure(d, coll), coll) == TableOf(d, coll)
  {
  }

  /** The replacement's records one by one, ids generated where missing. */
  method BuildTable(prefixes: Prefixes, coll: string, records: seq<Record>, stamp: string)
    returns (ids: seq<string>, rows: Rows)
    ensures Table(ids, rows) == Replacement(records, prefixes, coll, stamp)
  {
    rows, ids := map[], [];
    for i := 0 to |records|
      invariant Table(ids, rows) == Replacement(records[..i], prefixes, coll, stamp)
    {
      assert records[..i + 1][..i] == records[..i];
      var r := records[i];
      var id := IdOf(r);
      if id == "" {
        id := Ids.NextIdByScan(rows.Keys, PrefixOf(prefixes, coll), WidthOf(coll), stamp);
        r := r.Set("id", Str(id));
      }
      rows, ids := rows[id := r], ids + [id];
    }
    assert records[..|records|] == records;
  }

  lemma ReplaceEffect(d: Docs, prefixes: Prefixes, coll: string, records: seq<Record>, stamp: string)
    ensures Effect(d, prefixes, Op.ReplaceAll(coll, records, stamp))
         == (WithTable(Ensure(d, coll), coll, Replacement(records, prefixes, coll, stamp)), None)
  {
    EnsureThenWrite(d, coll, Replacement(records, prefixes, coll, stamp));
  }

  // --- the operations on one stored record, found or not ---

  lemma ArchiveEffect(d: Docs, prefixes: Prefixes, coll: string, id: string, now: string)
    ensures var t := TableOf(d, coll);
            Effect(d, prefixes, Op.Archive(coll, id, now))
            == (if id !in t.rows then (Ensure(d, coll), Some(NotFound))
                else (WithTable(d, coll, Put(t, id, ArchivedRecord(t.rows[id], now))), None))
  {
  }

  lemma RestoreEffect(d: Docs, prefixes: Prefixes, coll: string, id: string)
    ensures var t := TableOf(d, coll);
            Effect(d, prefixes, Op.Restore(coll, id))
            == (if id !in t.rows then (Ensure(d, coll), Some(NotFound))
                else (WithTable(d, coll, Put(t, id, RestoredRecord(t.rows[id]))), None))
  {
  }

  lemma DeleteEffect(d: Docs, prefixes: Prefixes, coll: string, id: string)
    ensures var t := TableOf(d, coll);
            Effect(d, prefixes, Op.PermanentDelete(coll, id))
            == (if id !in t.rows then (Ensure(d, coll), Some(NotFound))
                else (WithTable(d, coll, Drop(t, id)), None))
  {
  }

  class Store {
    const prefixes: Prefixes
    var data: map<string, Rows>
    var order: OrderMap
    var sessions: map<string, Session>
    ghost var docs: Docs

    /** docs is what the fields show, and nothing else is (ShowsOne). */
    ghost predicate Valid()
      reads this, order, order.Repr
    {
      order.Valid() && Shows(docs, data, order.lists, sessions)
    }

    constructor (prefixes: Prefixes)
      ensures Valid() && fresh(order) && fresh(order.Repr) && docs == Docs(map[], map[]) && this.prefixes == prefixes
    {
      this.prefixes := prefixes;
      data, sessions, docs := map[], map[], Docs(map[], map[]);
      order := new OrderMap();
    }

    /** Still valid, over the same order map, whose new backing arrays are fresh. */
    twostate predicate Kept()
      reads this, order, order.Repr
    {
      Valid() && order == old(order) && fresh(order.Repr - old(order.Repr))
    }

    /** An operation did what the specification says, failing when it says so and with
        the error it names. */
    ghost predicate Did(before: Docs, op: Op, failed: Option<Error>)
      requires Valid()
      reads this, order, order.Repr
    {
      (docs, failed) == Effect(before, prefixes, op)
    }

    /** What a call returned is what is now stored. */
    ghost predicate Returned(coll: string, id: string, record: Record)
      reads this
    {
      coll in data && id in data[coll] && data[coll][id] == record
    }

    /** Sets a collection's records once its order list is in place. */
    method SetRows(coll: string, rows: Rows, ghost after: Docs)
      requires order.Valid() && Shows(after, data[coll := rows], order.lists, sessions)
      modifies this`data, this`docs
      ensures Valid() && data == old(data)[coll := rows] && docs == after
    {
      data := data[coll := rows];
      docs := after;
    }

    method EnsureCollection(coll: string)
      requires Valid()
      modifies this, order
      ensures Kept() && docs == Ensure(old(docs), coll)
      ensures coll in data && data[coll] == TableOf(old(docs), coll).rows
    {
      ShowsEnsure(docs, data, order.lists, sessions, coll);
      if coll !in data {
        ghost var after := Ensure(docs, coll);
        order.AssignList(coll, []);
        SetRows(coll, map[], after);
      }
    }

    /** Stores a record under a new id, at the end of the order list. The write
        helpers follow EnsureCollection and speak of the documents before it. */
    method InsertRecord(ghost before: Docs, coll: string, id: string, record: Record)
      requires Valid() && docs == Ensure(before, coll) && coll in data
      modifies this, order, order.Repr
      ensures Kept() && docs == WithTable(before, coll, Insert(TableOf(before, coll), id, record))
    {
      var rows := data[coll][id := record];
      ghost var after := WithTable(before, coll, Insert(TableOf(before, coll), id, record));
      ShowsInsert(before, data, order.lists, sessions, coll, id, record);
      order.Append(coll, id);
      SetRows(coll, rows, after);
    }

    /** Stores another record under an id in use. */
    method PutRecord(ghost before: Docs, coll: string, id: string, record: Record)
      requires Valid() && docs == Ensure(before, coll) && coll in data
      modifies this
      ensures Kept() && docs == WithTable(before, coll, Put(TableOf(before, coll), id, record))
    {
      ShowsPut(before, data, order.lists, sessions, coll, id, record);
      SetRows(coll, data[coll][id := record], WithTable(before, coll, Put(TableOf(before, coll), id, record)));
    }

    method DropRecord(ghost before: Docs, coll: string, id: string)
      requires Valid() && docs == Ensure(before, coll) && coll in data
      modifies this, order, order.Repr
      ensures Kept() && docs == WithTable(before, coll, Drop(TableOf(before, coll), id))
    {
      var rows := data[coll] - {id};
      ghost var after := WithTable(before, coll, Drop(TableOf(before, coll), id));
      ShowsDrop(before, data, order.lists, sessions, coll, id);
      order.Remove(coll, id);
      SetRows(coll, rows, after);
    }

    method ReplaceTable(coll: string, ids: seq<string>, rows: Rows)
      requires Valid() && coll in data
      modifies this, order
      ensures Kept() && docs == WithTable(old(docs), coll, Table(ids, rows))
    {
      ghost var after := WithTable(docs, coll, Table(ids, rows));
      ShowsUpdate(docs, data, order.lists, sessions, coll, rows, ids);
      order.AssignList(coll, ids);
      SetRows(coll, rows, after);
    }

    method CreateRecord(coll: string, record: Record, now: string, stamp: string) returns (r: Result<Record, Error>)
      requires Valid()
      modifies this, order, order.Repr
      ensures Kept() && Did(old(docs), Op.Create(coll, record, now, stamp), ErrorOf(r))
      ensures r.Success? ==> Returned(coll, CreateId(old(docs), prefixes, coll, record, stamp), r.value)
    {
      ghost var before := docs;
      EnsureCollection(coll);
      var id := IdOf(record);
      if id == "" {
        if coll == "chat" {
          id := stamp;
        } else {
          id := Ids.NextIdByScan(data[coll].Keys, PrefixOf(prefixes, coll), WidthOf(coll), stamp);
        }
      }
      if id in data[coll] {
        return Failure(Conflict);
      }
      var stored := Stamped(record, id, now);
      InsertRecord(before, coll, id, stored);
      return Success(stored);
    }

    method UpdateRecord(coll: string, id: string, patch: Record) returns (r: Result<Record, Error>)
      requires Valid()
      modifies this, order, order.Repr
      ensures Kept() && Did(old(docs), Op.Update(coll, id, patch), ErrorOf(r))
      ensures r.Success? ==> Returned(coll, id, r.value)
    {
      ghost var before := docs;
      EnsureCollection(coll);
      if id !in data[coll] {
        return Failure(NotFound);
      }
      var updated := Merged(data[coll][id], patch);
      PutRecord(before, coll, id, updated);
      return Success(updated);
    }

    method ArchiveRecord(coll: string, id: string, now: string) returns (r: Result<(), Error>)
      requires Valid()
      modifies this, order, order.Repr
      ensures Kept() && Did(old(docs), Op.Archive(coll, id, now), ErrorOf(r))
    {
      ghost var before := docs;
      ArchiveEffect(before, prefixes, coll, id, now);
      EnsureCollection(coll);
      if id !in data[coll] {
        return Failure(NotFound);
      }
      var archived := data[coll][id].Set("archived", Bool(true));
      archived := archived.Set("archivedAt", Str(now));
      PutRecord(before, coll, id, archived);
      return Success(());
    }

    static method Reinstate(r: Record) returns (restored: Record)
      ensures restored == RestoredRecord(r)
    {
      restored := r.Set("archived", Bool(false)).Without("archivedAt");
      if Text.EqualFold(GetString(restored, "status"), "archived") {
        restored := restored.Set("status", Str("active"));
      }
    }

    /** The restored record in place of the stored one. */
    method ReinstateRecord(ghost before: Docs, coll: string, id: string)
      requires Valid() && docs == Ensure(before, coll) && coll in data && id in data[coll]
      requires data[coll] == TableOf(before, coll).rows
      modifies this
      ensures Kept()
      ensures var t := TableOf(before, coll);
              docs == WithTable(before, coll, Put(t, id, RestoredRecord(t.rows[id])))
    {
      var restored := Reinstate(data[coll][id]);
      PutRecord(before, coll, id, restored);
    }

    method RestoreRecord(coll: string, id: string) returns (r: Result<(), Error>)
      requires Valid()
      modifies this, order, order.Repr
      ensures Kept() && Did(old(docs), Op.Restore(coll, id), ErrorOf(r))
    {
      ghost var before := docs;
      RestoreEffect(before, prefixes, coll, id);
      EnsureCollection(coll);
      if id !in data[coll] {
        return Failure(NotFound);
      }
      ReinstateRecord(before, coll, id);
      return Success(());
    }

    method PermanentDeleteRecord(coll: string, id: string) returns (r: Result<(), Error>)
      requires Valid()
      modifies this, order, order.Repr
      ensures Kept() && Did(old(docs), Op.PermanentDelete(coll, id), ErrorOf(r))
    {
      ghost var before := docs;
      DeleteEffect(before, prefixes, coll, id);
      EnsureCollection(coll);
      if id !in data[coll] {
        return Failure(NotFound);
      }
      DropRecord(before, coll, id);
      return Success(());
    }

    method ReplaceAllRecords(coll: string, records: seq<Record>, stamp: string)
      requires Valid()
      modifies this, order, order.Repr
      ensures Kept() && Did(old(docs), Op.ReplaceAll(coll, records, stamp), None)
    {
      ghost var before := docs;
      EnsureCollection(coll);
      var ids, rows := BuildTable(prefixes, coll, records, stamp);
      ReplaceEffect(before, prefixes, coll, records, stamp);
      ReplaceTable(coll, ids, rows);
    }

    method PutSession(id: string, session: Session)
      requires Valid()
      modifies this
      ensures Kept() && Did(old(docs), Op.PutSession(id, session), None)
    {
      sessions := sessions[id := session];
      docs := docs.(sessions := sessions);
    }

    method RevokeSession(id: string)
      requires Valid()
      modifies this
      ensures Kept() && Did(old(docs), Op.RevokeSession(id), None)
    {
      if id in sessions {
        sessions := sessions[id := sessions[id].(active := false)];
        docs := docs.(sessions := sessions);
      }
    }

    method ClearSessions()
      requires Valid()
      modifies this
      ensures Kept() && Did(old(docs), Op.ClearSessions, None)
    {
      sessions := map[];
      docs := docs.(sessions := map[]);
    }

    method Execute(op: Op) returns (failed: Option<Error>)
      requires Valid()
      modifies this, order, order.Repr
      ensures Kept() && Did(old(docs), op, failed)
    {
      failed := None;
      match op {
        case Create(coll, record, now, stamp) =>
          var r := CreateRecord(coll, record, now, stamp);
          failed := ErrorOf(r);
        case Update(coll, id, patch) =>
          var r := UpdateRecord(coll, id, patch);
          failed := ErrorOf(r);
        case Archive(coll, id, now) =>
          var r := ArchiveRecord(coll, id, now);
          failed := ErrorOf(r);
        case Restore(coll, id) =>
          var r := RestoreRecord(coll, id);
          failed := ErrorOf(r);
        case PermanentDelete(coll, id) =>
          var r := PermanentDeleteRecord(coll, id);
          failed := ErrorOf(r);
        case ReplaceAll(coll, records, stamp) => ReplaceAllRecords(coll, records, stamp);
        case PutSession(id, session) => PutSession(id, session);
        case RevokeSession(id) => RevokeSession(id);
        case ClearSessions => ClearSessions();
      }
    }

    // --- transactions ---

    /** Runs store operations in order up to the first error that is returned. */
    method RunActions(actions: seq<Action>) returns (failed: Option<Error>)
      requires Valid()
      modifies this, order, order.Repr
      ensures Kept() && (docs, failed) == Perform(old(docs), prefixes, actions)
    {
      failed := None;
      var i := 0;
      while i < |actions| && failed.None?
        invariant i <= |actions| && Kept()
        invariant failed.None? ==>
                    Perform(old(docs), prefixes, actions) == Perform(docs, prefixes, actions[i..])
        invariant failed.Some? ==> Perform(old(docs), prefixes, actions) == (docs, failed)
      {
        PerformStep(docs, prefixes, actions, i);
        var r := Execute(actions[i].op);
        if r.Some? && actions[i].returnsError {
          failed := r;
        }
        i := i + 1;
      }
    }

    /** Runs a function's store operations and its verdict; any error it returns
        restores the snapshot taken at the start. */
    method WithTx(actions: seq<Action>, verdict: Option<Error>) returns (failed: Option<Error>)
      requires Valid()
      modifies this, order, order.Repr
      ensures Valid() && (order == old(order) || fresh(order)) && fresh(order.Repr - old(order.Repr))
      ensures var error := Perform(old(docs), prefixes, actions).1; failed == if error.Some? then error else verdict
      ensures docs == if failed.Some? then old(docs) else Perform(old(docs), prefixes, actions).0
    {
      var snapData, snapSessions := data, sessions;
      var snapOrder := order.Clone();
      ghost var before := docs;
      assert Shows(before, snapData, snapOrder.lists, snapSessions);
      failed := RunActions(actions);
      if failed.None? {
        failed := verdict;
      }
      if failed.Some? {
        RestoreSnapshot(snapData, snapOrder, snapSessions, before);
      }
    }

    method RestoreSnapshot(data: map<string, Rows>, order: OrderMap, sessions: map<string, Session>, ghost docs: Docs)
      requires order.Valid() && Shows(docs, data, order.lists, sessions)
      modifies this
      ensures Valid() && this.order == order && this.docs == docs
    {
      this.data, this.order, this.sessions, this.docs := data, order, sessions, docs;
    }
  }

  /** One more action performed. */
  lemma PerformStep(d: Docs, prefixes: Prefixes, actions: seq<Action>, i: nat)
    requires i < |actions|
    ensures var r := Effect(d, prefixes, actions[i].op);
            Perform(d, prefixes, actions[i..]) ==
            if r.1.Some? && actions[i].returnsError then r else Perform(r.0, prefixes, actions[i + 1..])
  {
    assert actions[i..][0] == actions[i] && actions[i..][1..] == actions[i + 1..];
  }
}
