/** The books as the document store holds them: typed views of its records, and what
    the store's operations and transactions make of those. */
module StoredBooks {
  import opened Tables
  import opened Money
  import opened Finance
  import opened Documents
  import DocumentStore
  import Text
  import opened Accounting
  import opened Integrity

  const INVOICES := "invoices"
  const PAYMENTS := "payments"
  const CLIENTS := "clients"

  function GetNum(r: Record, key: string): int {
    if key in r.fields && r.fields[key].Num? then r.fields[key].n else 0
  }

  predicate GetFlag(r: Record, key: string) {
    key in r.fields && r.fields[key] == Bool(true)
  }

  function PaymentStatusOf(word: string): PaymentStatus {
    if Text.EqualFold(word, "completed") then Completed(word == "completed")
    else if word == "" then Blank
    else if word == "active" then Active
    else if Text.EqualFold(word, "archived") then PaymentStatus.ArchivedWord
    else PaymentStatus.Other(word)
  }

  function InvoiceStatusOf(word: string): InvoiceStatus {
    if word == "draft" then Draft
    else if word == "sent" then Sent
    else if word == "partially_paid" then PartiallyPaid
    else if word == "overdue" then Overdue
    else if word == "paid" then Paid
    else if word == "cancelled" then Cancelled
    else if Text.EqualFold(word, "archived") then InvoiceStatus.ArchivedWord
    else InvoiceStatus.Other(word)
  }

  function PaymentOf(r: Record): Payment {
    Payment(GetString(r, "invoiceId"), GetString(r, "clientId"), PaymentStatusOf(GetString(r, "status")),
            GetString(r, "reference"), GetNum(r, "amount"), GetFlag(r, "archived"))
  }

  /** Due dates are parsed by whatever parser the code uses. */
  function InvoiceOf(r: Record, parse: string -> Option<Day>): Invoice {
    Invoice(GetString(r, "clientId"), InvoiceStatusOf(GetString(r, "status")), parse(GetString(r, "dueDate")),
            GetNum(r, "total"), GetNum(r, "paidAmount"), GetNum(r, "remainingAmount"), GetFlag(r, "archived"))
  }

  function ClientOf(r: Record): Client {
    Client(GetNum(r, "revenue"), GetNum(r, "outstanding"),
           GetFlag(r, "archived") || Text.EqualFold(GetString(r, "status"), "archived"))
  }

  /** Archived as the store's lists see it: by flag or by any spelling of the status. */
  predicate SaysArchived(r: Record) {
    GetFlag(r, "archived") || Text.EqualFold(GetString(r, "status"), "archived")
  }

  /** The finance lists leave out exactly the records the store's lists leave out. */
  lemma ListedTells(r: Record, parse: string -> Option<Day>)
    ensures Live(InvoiceOf(r, parse)) <==> !SaysArchived(r)
    ensures LivePayment(PaymentOf(r)) <==> !SaysArchived(r)
    ensures ListedClient(ClientOf(r)) <==> !SaysArchived(r)
  {
    ArchivedWords(GetString(r, "status"));
    var word := GetString(r, "status");
    assert |Text.Lower(word)| == |word| && |Text.Lower("archived")| == 8;
    assert "draft"[0] == 'd' && "overdue"[0] == 'o' && |"sent"| == 4 && |"paid"| == 4;
    assert |"draft"| == 5 && |"partially_paid"| == 14 && |"overdue"| == 7 && |"cancelled"| == 9;
  }

  function Typed<R>(t: Table<Record>, view: Record -> R): Table<R> {
    Table(t.order, map id | id in t.rows :: view(t.rows[id]))
  }

  function InvoiceView(parse: string -> Option<Day>): Record -> Invoice {
    (r: Record) => InvoiceOf(r, parse)
  }

  /** The finance tables a document store shows. */
  function BooksOf(d: Docs, parse: string -> Option<Day>): Books {
    Books(Typed(TableOf(d, INVOICES), InvoiceView(parse)), Typed(TableOf(d, PAYMENTS), PaymentOf),
          Typed(TableOf(d, CLIENTS), ClientOf))
  }

  /** A finance call's transaction that ends in an error leaves the books as they were:
      the rollback of the finance services is that of the store. */
  method Transact(store: DocumentStore.Store, actions: seq<Action>, verdict: Option<Error>,
                  parse: string -> Option<Day>)
    returns (failed: Option<Error>)
    requires store.Valid()
    modifies store, store.order, store.order.Repr
    ensures store.Valid()
    ensures failed.Some? ==> BooksOf(store.docs, parse) == old(BooksOf(store.docs, parse))
    ensures failed.None? ==>
              BooksOf(store.docs, parse) == BooksOf(Perform(old(store.docs), store.prefixes, actions).0, parse)
  {
    failed := store.WithTx(actions, verdict);
  }

  // --- typed effects of the store's operations ---

  lemma TypedPut<R>(t: Table<Record>, id: string, r: Record, view: Record -> R)
    ensures Typed(Put(t, id, r), view) == Put(Typed(t, view), id, view(r))
  {
    assert Typed(Put(t, id, r), view).rows == Put(Typed(t, view), id, view(r)).rows;
  }

  lemma TypedDrop<R>(t: Table<Record>, id: string, view: Record -> R)
    ensures Typed(Drop(t, id), view) == Drop(Typed(t, view), id)
  {
    assert Typed(Drop(t, id), view).rows == Drop(Typed(t, view), id).rows;
  }

  lemma Names()
    ensures INVOICES != PAYMENTS && PAYMENTS != CLIENTS && INVOICES != CLIENTS
    ensures "archived" != "archivedAt" && "archived" != "status" && "archivedAt" != "status"
  {
    assert "invoices"[0] == 'i' && "payments"[0] == 'p' && "clients"[0] == 'c';
    assert |"archived"| == 8 && |"archivedAt"| == 10 && |"status"| == 6;
  }

  lemma OtherKeys()
    ensures forall key :: key in ["invoiceId", "clientId", "reference", "amount"]
              ==> key != "archived" && key != "archivedAt" && key != "status"
  {
    assert |"invoiceId"| == 9 && |"clientId"| == 8 && |"reference"| == 9 && |"amount"| == 6;
    assert "clientId"[0] == 'c' && "archived"[0] == 'a' && "amount"[0] == 'a' && "status"[0] == 's';
  }

  /** The fields of a payment that the record flags do not touch. */
  predicate SameTerms(r: Record, s: Record) {
    && GetString(r, "invoiceId") == GetString(s, "invoiceId") && GetString(r, "clientId") == GetString(s, "clientId")
    && GetString(r, "reference") == GetString(s, "reference") && GetNum(r, "amount") == GetNum(s, "amount")
  }

  lemma ArchivedKeepsTerms(r: Record, now: string)
    ensures SameTerms(ArchivedRecord(r, now), r)
  {
    OtherKeys();
    assert "invoiceId" in ["invoiceId", "clientId", "reference", "amount"];
    assert "clientId" in ["invoiceId", "clientId", "reference", "amount"];
    assert "reference" in ["invoiceId", "clientId", "reference", "amount"];
    assert "amount" in ["invoiceId", "clientId", "reference", "amount"];
  }

  lemma RestoredKeepsTerms(r: Record)
    ensures SameTerms(RestoredRecord(r), r)
  {
    OtherKeys();
    assert "invoiceId" in ["invoiceId", "clientId", "reference", "amount"];
    assert "clientId" in ["invoiceId", "clientId", "reference", "amount"];
    assert "reference" in ["invoiceId", "clientId", "reference", "amount"];
    assert "amount" in ["invoiceId", "clientId", "reference", "amount"];
  }

  lemma ArchivedView(r: Record, now: string)
    ensures PaymentOf(ArchivedRecord(r, now)) == PaymentOf(r).(archived := true)
  {
    Names();
    ArchivedKeepsTerms(r, now);
  }

  lemma ActiveWord()
    ensures !Text.EqualFold("active", "completed") && PaymentStatusOf("active") == Active
  {
    assert |Text.Lower("active")| == 6 && |Text.Lower("completed")| == 9;
  }

  lemma ArchivedWords(word: string)
    ensures Text.EqualFold(word, "archived") <==> PaymentStatusOf(word).ArchivedWord?
  {
    assert |Text.Lower(word)| == |word| && |Text.Lower("archived")| == 8 && |Text.Lower("completed")| == 9;
    assert word == "active" ==> |word| == 6;
  }

  lemma RestoredStatus(r: Record)
    ensures !GetFlag(RestoredRecord(r), "archived")
    ensures PaymentStatusOf(GetString(RestoredRecord(r), "status"))
            == (if PaymentStatusOf(GetString(r, "status")).ArchivedWord? then Active
                else PaymentStatusOf(GetString(r, "status")))
  {
    Names();
    ActiveWord();
    ArchivedWords(GetString(r, "status"));
  }

  lemma RestoredView(r: Record)
    ensures PaymentOf(RestoredRecord(r)) == Restored(PaymentOf(r))
  {
    RestoredKeepsTerms(r);
    RestoredStatus(r);
  }

  lemma PaymentsWritten(d: Docs, t: Table<Record>, parse: string -> Option<Day>)
    ensures BooksOf(WithTable(d, PAYMENTS, t), parse) == BooksOf(d, parse).(payments := Typed(t, PaymentOf))
  {
    Names();
  }

  // --- the first writes of archiving, restoring and deleting, as the store's own operations ---

  lemma ArchiveIsTheStores(d: Docs, prefixes: Prefixes, id: string, now: string, parse: string -> Option<Day>)
    requires id in TableOf(d, PAYMENTS).rows
    ensures var b := BooksOf(d, parse);
            && id in b.payments.rows
            && BooksOf(Effect(d, prefixes, Op.Archive(PAYMENTS, id, now)).0, parse)
               == b.(payments := Put(b.payments, id, b.payments.rows[id].(archived := true)))
  {
    var t := TableOf(d, PAYMENTS);
    var r := ArchivedRecord(t.rows[id], now);
    ArchivedView(t.rows[id], now);
    TypedPut(t, id, r, PaymentOf);
    PaymentsWritten(d, Put(t, id, r), parse);
  }

  lemma RestoreIsTheStores(d: Docs, prefixes: Prefixes, id: string, parse: string -> Option<Day>)
    requires id in TableOf(d, PAYMENTS).rows
    ensures var b := BooksOf(d, parse);
            && id in b.payments.rows
            && BooksOf(Effect(d, prefixes, Op.Restore(PAYMENTS, id)).0, parse)
               == b.(payments := Put(b.payments, id, Restored(b.payments.rows[id])))
  {
    var t := TableOf(d, PAYMENTS);
    var r := RestoredRecord(t.rows[id]);
    RestoredView(t.rows[id]);
    TypedPut(t, id, r, PaymentOf);
    PaymentsWritten(d, Put(t, id, r), parse);
  }

  lemma DeleteIsTheStores(d: Docs, prefixes: Prefixes, id: string, parse: string -> Option<Day>)
    requires id in TableOf(d, PAYMENTS).rows
    ensures var b := BooksOf(d, parse);
            && BooksOf(Effect(d, prefixes, Op.PermanentDelete(PAYMENTS, id)).0, parse)
               == b.(payments := Drop(b.payments, id))
  {
    var t := TableOf(d, PAYMENTS);
    TypedDrop(t, id, PaymentOf);
    PaymentsWritten(d, Drop(t, id), parse);
  }
}
