/** What the store's record operations and id generation do to a record, field by field. */
module RecordMeaning {
  import opened Tables
  import opened Documents
  import Ids
  import Text

  /** The same field, or absent from both. */
  predicate SameField(r: Record, s: Record, key: string) {
    (key in r.fields <==> key in s.fields) && (key in r.fields ==> r.fields[key] == s.fields[key])
  }

  lemma FlagKeys()
    ensures "archived" != "archivedAt" && "archived" != "status" && "archivedAt" != "status"
  {
    assert |"archived"| == 8 && |"archivedAt"| == 10 && |"status"| == 6;
  }

  lemma StampKeys()
    ensures "id" != "createdAt" && "id" != "updatedAt" && "id" != "archived"
    ensures "createdAt" != "updatedAt" && "createdAt" != "archived" && "updatedAt" != "archived"
  {
    assert |"id"| == 2 && |"createdAt"| == 9 && |"updatedAt"| == 9 && |"archived"| == 8;
    assert "createdAt"[0] == 'c' && "updatedAt"[0] == 'u';
  }

  /** Archiving flags and dates the record and touches nothing else. */
  lemma ArchivedTells(r: Record, now: string, key: string)
    ensures var a := ArchivedRecord(r, now);
            && a.fields["archived"] == Bool(true) && GetString(a, "archivedAt") == now
            && (key != "archived" && key != "archivedAt" ==> SameField(a, r, key))
  {
    FlagKeys();
  }

  /** Restoring clears flag and date, makes an archived status active, and touches nothing
      else. */
  lemma RestoredTells(r: Record, key: string)
    ensures var s := RestoredRecord(r);
            && s.fields["archived"] == Bool(false) && "archivedAt" !in s.fields
            && (Text.EqualFold(GetString(r, "status"), "archived") ==> GetString(s, "status") == "active")
            && (!Text.EqualFold(GetString(r, "status"), "archived") ==> SameField(s, r, "status"))
            && (key !in {"archived", "archivedAt", "status"} ==> SameField(s, r, key))
  {
    FlagKeys();
  }

  /** Restoring undoes archiving: every field but flag and date is as it was, save for a
      status that said archived. */
  lemma RestoreUndoesArchive(r: Record, now: string, key: string)
    requires !Text.EqualFold(GetString(r, "status"), "archived")
    ensures var s := RestoredRecord(ArchivedRecord(r, now));
            && s.fields["archived"] == Bool(false) && "archivedAt" !in s.fields
            && (key !in {"archived", "archivedAt"} ==> SameField(s, r, key))
  {
    ArchivedTells(r, now, key);
    ArchivedTells(r, now, "status");
    FlagKeys();
    RestoredTells(ArchivedRecord(r, now), key);
  }

  /** A new record keeps what it brings; an id, the two dates and the flag are filled in
      where they are missing, and the date of change always. */
  lemma StampedTells(r: Record, id: string, now: string, key: string)
    ensures var s := Stamped(r, id, now);
            && IdOf(s) == (if IdOf(r) == "" then id else IdOf(r))
            && GetString(s, "createdAt") == (if GetString(r, "createdAt") == "" then now else GetString(r, "createdAt"))
            && GetString(s, "updatedAt") == now
            && ("archived" in r.fields ==> SameField(s, r, "archived"))
            && ("archived" !in r.fields ==> s.fields["archived"] == Bool(false))
            && (key !in {"id", "createdAt", "updatedAt", "archived"} ==> SameField(s, r, key))
  {
    StampKeys();
  }

  /** A patch replaces the fields it names, the id never among them. */
  lemma MergedTells(r: Record, patch: Record, key: string)
    ensures key in patch.fields && key != "id" ==> SameField(Merged(r, patch), patch, key)
    ensures key !in patch.fields || key == "id" ==> SameField(Merged(r, patch), r, key)
  {
  }

  /** Which error an operation reports: a conflict exactly for a create under an id in use,
      not found exactly for a record that is not there, and none otherwise. */
  lemma ErrorsTell(d: Docs, prefixes: Prefixes, op: Op)
    ensures Effect(d, prefixes, op).1 == Some(Conflict)
       <==> op.Create? && CreateId(d, prefixes, op.coll, op.record, op.stamp) in TableOf(d, op.coll).rows
    ensures Effect(d, prefixes, op).1 == Some(NotFound)
       <==> (op.Update? || op.Archive? || op.Restore? || op.PermanentDelete?) && op.id !in TableOf(d, op.coll).rows
    ensures Effect(d, prefixes, op).1.Some? ==> Effect(d, prefixes, op).1.value in {Conflict, NotFound}
  {
  }

  /** Sessions: put, ended one by one, cleared; collections are not touched. */
  lemma SessionsTell(d: Docs, prefixes: Prefixes, id: string, session: Session, other: string)
    requires other != id
    ensures var put := Effect(d, prefixes, PutSession(id, session)).0;
            && id in put.sessions && put.sessions[id] == session && put.colls == d.colls
            && (other in put.sessions <==> other in d.sessions)
            && (other in d.sessions ==> put.sessions[other] == d.sessions[other])
    ensures var ended := Effect(d, prefixes, RevokeSession(id)).0;
            && ended.colls == d.colls && ended.sessions.Keys == d.sessions.Keys
            && (id in d.sessions ==> !ended.sessions[id].active && ended.sessions[id].userId == d.sessions[id].userId)
            && (other in d.sessions ==> ended.sessions[other] == d.sessions[other])
    ensures Effect(d, prefixes, ClearSessions).0 == Docs(d.colls, map[])
  {
  }

  /** A bulk replacement with distinct ids holds each record it was given, unchanged, under
      its own id. */
  lemma {:induction false} ReplacementHolds(records: seq<Record>, prefixes: Prefixes, coll: string, stamp: string,
                                            i: nat)
    requires DistinctIds(records) && i < |records|
    ensures var t := Replacement(records, prefixes, coll, stamp);
            IdOf(records[i]) in t.rows && t.rows[IdOf(records[i])] == records[i]
    decreases |records|
  {
    var last := |records| - 1;
    if i < last {
      var before := records[..last];
      assert forall k :: 0 <= k < |before| ==> before[k] == records[k];
      ReplacementHolds(before, prefixes, coll, stamp, i);
    }
  }

  /** Every record carries the id it is stored under. */
  predicate CarryIds(t: Table<Record>) {
    forall id :: id in t.rows ==> IdOf(t.rows[id]) == id
  }

  /** Whatever records it is given, each is stored under the id it carries afterwards. */
  lemma {:induction false} ReplacementCarriesIds(records: seq<Record>, prefixes: Prefixes, coll: string, stamp: string)
    ensures CarryIds(Replacement(records, prefixes, coll, stamp))
    decreases |records|
  {
    if records != [] {
      var before, r := records[..|records| - 1], records[|records| - 1];
      ReplacementCarriesIds(before, prefixes, coll, stamp);
      var t := Replacement(before, prefixes, coll, stamp);
      var id := if IdOf(r) == "" then Ids.NextId(t.rows.Keys, PrefixOf(prefixes, coll), WidthOf(coll), stamp)
                else IdOf(r);
      CarriesId(r, id);
      OneMoreCarries(t, id, if IdOf(r) == "" then r.Set("id", Str(id)) else r);
    }
  }

  lemma OneMoreCarries(t: Table<Record>, id: string, stored: Record)
    requires IdOf(stored) == id && CarryIds(t)
    ensures CarryIds(Insert(t, id, stored))
  {
  }

  lemma CarriesId(r: Record, id: string)
    ensures IdOf(r.Set("id", Str(id))) == id
  {
  }

  /** How many digits the numbers of a collection are padded to. */
  function Digits(coll: string): nat {
    if coll in {"invoices", "payments"} then 5 else 4
  }

  /** While the numbers fit, a generated id is the collection's prefix and the next number
      in five digits for invoices and payments, in four for the rest. */
  lemma GeneratedIdTells(t: Table<Record>, prefixes: Prefixes, coll: string, stamp: string)
    requires coll != "chat"
    requires Ids.MaxNumber(t.rows.Keys, PrefixOf(prefixes, coll)) + 1 < Ids.Pow10(Digits(coll))
    ensures var id, prefix := GeneratedId(t, prefixes, coll, stamp), PrefixOf(prefixes, coll);
            && |id| == |prefix| + Digits(coll) && Text.HasPrefix(id, prefix)
            && Ids.Atoi(id[|prefix|..]) == Some(Ids.MaxNumber(t.rows.Keys, prefix) + 1)
  {
    var prefix := PrefixOf(prefixes, coll);
    var m, width := Ids.MaxNumber(t.rows.Keys, prefix), Digits(coll);
    assert Ids.Pow10(5) == 100000 && Ids.Pow10(4) == 10000;
    assert Ids.Pow10(width) <= Ids.MAX_INT;
    Ids.PaddedLength(width, m + 1);
    Ids.PaddedParses(width, m + 1);
    var id := prefix + Ids.Padded(width, m + 1);
    assert id[|prefix|..] == Ids.Padded(width, m + 1);
  }

  /** A collection with a prefix of its own uses it. */
  lemma OwnPrefix(prefixes: Prefixes, coll: string)
    requires coll in prefixes && prefixes[coll] != ""
    ensures PrefixOf(prefixes, coll) == prefixes[coll]
  {
  }

  /** Collections without a prefix of their own take their first three letters, in upper
      case, and a dash. */
  lemma DefaultPrefix(prefixes: Prefixes, coll: string)
    requires coll !in prefixes && |coll| >= 3
    ensures PrefixOf(prefixes, coll) == [Text.UpperChar(coll[0]), Text.UpperChar(coll[1]), Text.UpperChar(coll[2]), '-']
  {
    assert coll[..3] == [coll[0], coll[1], coll[2]];
  }
}
