/** What each operation of the document store makes of its collections. */
module Documents {
  import opened Tables
  import Ids
  import Text

  datatype Value = Str(s: string) | Num(n: int) | Bool(b: bool) | Null
                 | List(items: seq<Value>) | Obj(fields: map<string, Value>)

  datatype Record = Record(fields: map<string, Value>) {
    function Set(key: string, v: Value): Record {
      Record(fields[key := v])
    }

    function Without(key: string): Record {
      Record(fields - {key})
    }
  }

  datatype Session = Session(userId: string, active: bool)

  /** The collections and the runtime sessions. */
  datatype Docs = Docs(colls: map<string, Table<Record>>, sessions: map<string, Session>)

  function GetString(r: Record, key: string): string {
    if key in r.fields && r.fields[key].Str? then r.fields[key].s else ""
  }

  function IdOf(r: Record): string {
    GetString(r, "id")
  }

  /** How ids are generated: a prefix for each known collection. */
  type Prefixes = map<string, string>

  function PrefixOf(prefixes: Prefixes, coll: string): string {
    if coll in prefixes && prefixes[coll] != "" then prefixes[coll]
    else Text.Upper(coll[..if |coll| < 3 then |coll| else 3]) + "-"
  }

  function WidthOf(coll: string): nat {
    if coll == "invoices" || coll == "payments" then 5 else 4
  }

  /** The id a create call generates; stamp is the unique id or clock stamp at hand. */
  ghost function GeneratedId(t: Table<Record>, prefixes: Prefixes, coll: string, stamp: string): string {
    if coll == "chat" then stamp else Ids.NextId(t.rows.Keys, PrefixOf(prefixes, coll), WidthOf(coll), stamp)
  }

  const EmptyTable: Table<Record> := Table([], map[])

  function TableOf(d: Docs, coll: string): Table<Record> {
    if coll in d.colls then d.colls[coll] else EmptyTable
  }

  /** Every write first makes sure the collection exists. */
  function Ensure(d: Docs, coll: string): Docs {
    d.(colls := d.colls[coll := TableOf(d, coll)])
  }

  function WithTable(d: Docs, coll: string, t: Table<Record>): Docs {
    d.(colls := d.colls[coll := t])
  }

  function Stamped(r: Record, id: string, now: string): Record {
    var named := if IdOf(r) == "" then r.Set("id", Str(id)) else r;
    var dated := if GetString(named, "createdAt") == "" then named.Set("createdAt", Str(now)) else named;
    var touched := dated.Set("updatedAt", Str(now));
    if "archived" in touched.fields then touched else touched.Set("archived", Bool(false))
  }

  /** Every field of the patch but the id. */
  function Merged(r: Record, patch: Record): Record {
    Record(r.fields + (patch.fields - {"id"}))
  }

  function ArchivedRecord(r: Record, now: string): Record {
    r.Set("archived", Bool(true)).Set("archivedAt", Str(now))
  }

  function RestoredRecord(r: Record): Record {
    var cleared := r.Set("archived", Bool(false)).Without("archivedAt");
    if Text.EqualFold(GetString(cleared, "status"), "archived") then cleared.Set("status", Str("active")) else cleared
  }

  datatype Op =
    | Create(coll: string, record: Record, now: string, stamp: string)
    | Update(coll: string, id: string, patch: Record)
    | Archive(coll: string, id: string, now: string)
    | Restore(coll: string, id: string)
    | PermanentDelete(coll: string, id: string)
    | ReplaceAll(coll: string, records: seq<Record>, stamp: string)
    | PutSession(id: string, session: Session)
    | RevokeSession(id: string)
    | ClearSessions

  ghost function CreateId(d: Docs, prefixes: Prefixes, coll: string, record: Record, stamp: string): string {
    if IdOf(record) == "" then GeneratedId(TableOf(d, coll), prefixes, coll, stamp) else IdOf(record)
  }

  /** A bulk replacement builds its table record by record; ids generated on the
      way see the ids already placed. */
  ghost function Replacement(records: seq<Record>, prefixes: Prefixes, coll: string, stamp: string): Table<Record> {
    if records == [] then EmptyTable
    else
      var t := Replacement(records[..|records| - 1], prefixes, coll, stamp);
      var r := records[|records| - 1];
      var id :=
        if IdOf(r) == "" then Ids.NextId(t.rows.Keys, PrefixOf(prefixes, coll), WidthOf(coll), stamp)
        else IdOf(r);
      Insert(t, id, if IdOf(r) == "" then r.Set("id", Str(id)) else r)
  }

  /** The new collections, and the error if the operation reports one. A failed
      write may still have created its collection. */
  ghost function Effect(d: Docs, prefixes: Prefixes, op: Op): (Docs, Option<Error>) {
    match op
    case Create(coll, record, now, stamp) =>
      var t := TableOf(d, coll);
      var id := CreateId(d, prefixes, coll, record, stamp);
      if id in t.rows then (Ensure(d, coll), Some(Conflict))
      else (WithTable(d, coll, Insert(t, id, Stamped(record, id, now))), None)
    case Update(coll, id, patch) =>
      var t := TableOf(d, coll);
      if id !in t.rows then (Ensure(d, coll), Some(NotFound))
      else (WithTable(d, coll, Put(t, id, Merged(t.rows[id], patch))), None)
    case Archive(coll, id, now) =>
      var t := TableOf(d, coll);
      if id !in t.rows then (Ensure(d, coll), Some(NotFound))
      else (WithTable(d, coll, Put(t, id, ArchivedRecord(t.rows[id], now))), None)
    case Restore(coll, id) =>
      var t := TableOf(d, coll);
      if id !in t.rows then (Ensure(d, coll), Some(NotFound))
      else (WithTable(d, coll, Put(t, id, RestoredRecord(t.rows[id]))), None)
    case PermanentDelete(coll, id) =>
      var t := TableOf(d, coll);
      if id !in t.rows then (Ensure(d, coll), Some(NotFound)) else (WithTable(d, coll, Drop(t, id)), None)
    case ReplaceAll(coll, records, stamp) => (WithTable(d, coll, Replacement(records, prefixes, coll, stamp)), None)
    case PutSession(id, session) => (d.(sessions := d.sessions[id := session]), None)
    case RevokeSession(id) =>
      (if id in d.sessions then d.(sessions := d.sessions[id := d.sessions[id].(active := false)]) else d, None)
    case ClearSessions => (d.(sessions := map[]), None)
  }

  /** What runs inside a transaction: operations in order, each marked with whether
      its error is returned or dropped, then the verdict of the function itself. */
  datatype Action = Action(op: Op, returnsError: bool)

  /** The documents after the actions, stopping at the first returned error. */
  ghost function Perform(d: Docs, prefixes: Prefixes, actions: seq<Action>): (Docs, Option<Error>)
    decreases |actions|
  {
    if actions == [] then (d, None)
    else
      var r := Effect(d, prefixes, actions[0].op);
      if r.1.Some? && actions[0].returnsError then r else Perform(r.0, prefixes, actions[1..])
  }

  // --- the representation every run keeps ---

  /** Order lists are duplicate-free and list exactly the stored ids, and each
      record carries the id it is stored under. */
  ghost predicate Represented(d: Docs) {
    forall c :: c in d.colls ==> RepresentedTable(d.colls[c])
  }

  ghost predicate RepresentedTable(t: Table<Record>) {
    Sound(t) && forall id :: id in t.rows ==> IdOf(t.rows[id]) == id
  }

  predicate DistinctIds(records: seq<Record>) {
    && (forall i :: 0 <= i < |records| ==> IdOf(records[i]) != "")
    && (forall i, j :: 0 <= i < j < |records| ==> IdOf(records[i]) != IdOf(records[j]))
  }

  /** Bulk replacements carry distinct, non-empty ids; unique ids are never empty. */
  predicate WellGiven(op: Op) {
    match op
    case ReplaceAll(_, records, _) => DistinctIds(records)
    case Create(coll, _, _, stamp) => coll == "chat" ==> stamp != ""
    case _ => true
  }

  lemma GeneratedNotEmpty(d: Docs, prefixes: Prefixes, coll: string, record: Record, stamp: string)
    requires coll == "chat" ==> stamp != ""
    ensures CreateId(d, prefixes, coll, record, stamp) != ""
  {
    assert PrefixOf(prefixes, coll) != "";
  }

  lemma RecordKeepsId(r: Record, id: string, now: string, patch: Record)
    requires IdOf(r) == id != ""
    ensures IdOf(Merged(r, patch)) == id && IdOf(ArchivedRecord(r, now)) == id && IdOf(RestoredRecord(r)) == id
  {
    Distinct();
  }

  lemma StampedHasId(r: Record, id: string, now: string)
    requires IdOf(r) == "" || IdOf(r) == id
    ensures IdOf(Stamped(r, id, now)) == id
  {
    Distinct();
  }

  lemma Distinct()
    ensures "id" != "createdAt" && "id" != "updatedAt" && "id" != "archived" && "id" != "archivedAt" && "id" != "status"
  {
    assert |"id"| == 2 && |"createdAt"| == 9 && |"updatedAt"| == 9;
    assert |"archived"| == 8 && |"archivedAt"| == 10 && |"status"| == 6;
  }

  /** A bulk replacement with non-empty ids is represented exactly when the ids are distinct. */
  lemma {:induction false} ReplacementRepresented(records: seq<Record>, prefixes: Prefixes, coll: string, stamp: string)
    requires forall i :: 0 <= i < |records| ==> IdOf(records[i]) != ""
    ensures var t := Replacement(records, prefixes, coll, stamp);
            && |t.order| == |records| && (forall i :: 0 <= i < |records| ==> t.order[i] == IdOf(records[i]))
            && (forall id :: id in t.rows <==> id in t.order) && "" !in t.rows
            && (forall id :: id in t.rows ==> IdOf(t.rows[id]) == id)
            && (RepresentedTable(t) <==> DistinctIds(records))
  {
    if records != [] {
      var before := records[..|records| - 1];
      ReplacementRepresented(before, prefixes, coll, stamp);
      var t := Replacement(records, prefixes, coll, stamp);
      assert t.order == Replacement(before, prefixes, coll, stamp).order + [IdOf(records[|records| - 1])];
      forall i | 0 <= i < |records| ensures t.order[i] == IdOf(records[i]) {
        if i < |before| {
          assert before[i] == records[i];
        }
      }
      assert NoDup(t.order) <==> DistinctIds(records);
    }
  }

  lemma WriteRepresented(d: Docs, coll: string, t: Table<Record>)
    requires Represented(d) && RepresentedTable(t)
    ensures Represented(WithTable(d, coll, t))
  {
  }

  lemma EffectRepresented(d: Docs, prefixes: Prefixes, op: Op)
    requires Represented(d) && WellGiven(op)
    ensures Represented(Effect(d, prefixes, op).0)
  {
    assert RepresentedTable(EmptyTable);
    match op
    case Create(coll, record, now, stamp) =>
      var t, id := TableOf(d, coll), CreateId(d, prefixes, coll, record, stamp);
      GeneratedNotEmpty(d, prefixes, coll, record, stamp);
      if id !in t.rows {
        StampedHasId(record, id, now);
        InsertSound(t, id, Stamped(record, id, now));
        WriteRepresented(d, coll, Insert(t, id, Stamped(record, id, now)));
      } else {
        WriteRepresented(d, coll, t);
      }
    case Update(coll, id, patch) => RewriteRepresented(d, coll, id, "", patch);
    case Archive(coll, id, now) => RewriteRepresented(d, coll, id, now, Record(map[]));
    case Restore(coll, id) => RewriteRepresented(d, coll, id, "", Record(map[]));
    case PermanentDelete(coll, id) =>
      DropSound(TableOf(d, coll), id);
      WriteRepresented(d, coll, TableOf(d, coll));
      WriteRepresented(d, coll, Drop(TableOf(d, coll), id));
    case ReplaceAll(coll, records, stamp) =>
      ReplacementRepresented(records, prefixes, coll, stamp);
      WriteRepresented(d, coll, Replacement(records, prefixes, coll, stamp));
    case _ =>
  }

  /** Rewriting one record in place, whichever of the three rewrites it is. */
  lemma RewriteRepresented(d: Docs, coll: string, id: string, now: string, patch: Record)
    requires Represented(d)
    ensures Represented(Ensure(d, coll))
    ensures var t := TableOf(d, coll);
            id in t.rows ==>
              && Represented(WithTable(d, coll, Put(t, id, Merged(t.rows[id], patch))))
              && Represented(WithTable(d, coll, Put(t, id, ArchivedRecord(t.rows[id], now))))
              && Represented(WithTable(d, coll, Put(t, id, RestoredRecord(t.rows[id]))))
  {
    var t := TableOf(d, coll);
    assert RepresentedTable(t);
    WriteRepresented(d, coll, t);
    if id in t.rows {
      RecordKeepsId(t.rows[id], id, now, patch);
      PutRepresented(d, coll, id, Merged(t.rows[id], patch));
      PutRepresented(d, coll, id, ArchivedRecord(t.rows[id], now));
      PutRepresented(d, coll, id, RestoredRecord(t.rows[id]));
    }
  }

  lemma PutRepresented(d: Docs, coll: string, id: string, r: Record)
    requires Represented(d) && id in TableOf(d, coll).rows && IdOf(r) == id
    ensures Represented(WithTable(d, coll, Put(TableOf(d, coll), id, r)))
  {
    PutSound(TableOf(d, coll), id, r);
    WriteRepresented(d, coll, Put(TableOf(d, coll), id, r));
  }

  ghost function RunOps(d: Docs, prefixes: Prefixes, ops: seq<Op>): Docs
    decreases |ops|
  {
    if ops == [] then d else RunOps(Effect(d, prefixes, ops[0]).0, prefixes, ops[1..])
  }

  /** Over every run of operations the collections stay represented. */
  lemma {:induction false} RunRepresented(d: Docs, prefixes: Prefixes, ops: seq<Op>)
    requires Represented(d) && forall op :: op in ops ==> WellGiven(op)
    ensures Represented(RunOps(d, prefixes, ops))
    decreases |ops|
  {
    if ops != [] {
      EffectRepresented(d, prefixes, ops[0]);
      RunRepresented(Effect(d, prefixes, ops[0]).0, prefixes, ops[1..]);
    }
  }

  /** A create call that asks for a generated id conflicts only once the numbers
      are exhausted and the fallback id is taken (a unique id, for chat). */
  lemma GeneratedIdConflictsExactlyWhen(d: Docs, prefixes: Prefixes, coll: string, record: Record, now: string,
                                        stamp: string)
    requires IdOf(record) == ""
    ensures Effect(d, prefixes, Create(coll, record, now, stamp)).1.Some? <==>
            if coll == "chat" then stamp in TableOf(d, coll).rows
            else Ids.MaxNumber(TableOf(d, coll).rows.Keys, PrefixOf(prefixes, coll)) == Ids.MAX_INT
                 && PrefixOf(prefixes, coll) + stamp in TableOf(d, coll).rows
  {
    var ids := TableOf(d, coll).rows.Keys;
    Ids.ScanIsFresh(ids, PrefixOf(prefixes, coll), WidthOf(coll), Ids.MaxNumber(ids, PrefixOf(prefixes, coll)));
  }
}
