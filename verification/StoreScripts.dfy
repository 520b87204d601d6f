/** Finance steps as sequences of store operations: what each writes into the records,
    field by field, and what that makes of the books. */
module StoreScripts {
  import opened Tables
  import opened Money
  import opened Finance
  import opened Documents
  import opened StoredBooks
  import DocumentStore
  import Text

  // --- scripts ---

  /** The store operations a call performs and the error it ends in of its own. */
  datatype Script = Script(actions: seq<Action>, verdict: Option<Error>)

  const Nothing := Script([], None)

  function Refuse(e: Error): Script { Script([], Some(e)) }

  function Write(op: Op): Script { Script([Action(op, true)], None) }

  /** A write whose error is dropped. */
  function WriteAnyway(op: Op): Script { Script([Action(op, false)], None) }

  function Then(a: Script, b: Script): Script {
    if a.verdict.Some? then a else Script(a.actions + b.actions, b.verdict)
  }

  /** The documents the script leaves, before any rollback, and the error it ends in. */
  ghost function Played(d: Docs, prefixes: Prefixes, s: Script): (Docs, Option<Error>) {
    var r := Perform(d, prefixes, s.actions);
    (r.0, if r.1.Some? then r.1 else s.verdict)
  }

  lemma {:induction false} PerformConcat(d: Docs, prefixes: Prefixes, a: seq<Action>, b: seq<Action>)
    ensures Perform(d, prefixes, a + b)
         == if Perform(d, prefixes, a).1.Some? then Perform(d, prefixes, a)
            else Perform(Perform(d, prefixes, a).0, prefixes, b)
    decreases |a|
  {
    if a == [] {
      assert a + b == b;
    } else {
      assert (a + b)[1..] == a[1..] + b;
      PerformConcat(Effect(d, prefixes, a[0].op).0, prefixes, a[1..], b);
    }
  }

  lemma PlayedThen(d: Docs, prefixes: Prefixes, a: Script, b: Script)
    ensures Played(d, prefixes, Then(a, b))
         == if Played(d, prefixes, a).1.Some? then Played(d, prefixes, a)
            else Played(Played(d, prefixes, a).0, prefixes, b)
  {
    PerformConcat(d, prefixes, a.actions, b.actions);
  }

  lemma PlayedWrite(d: Docs, prefixes: Prefixes, op: Op)
    ensures Played(d, prefixes, Write(op)) == Effect(d, prefixes, op)
    ensures Played(d, prefixes, WriteAnyway(op)) == (Effect(d, prefixes, op).0, None)
    ensures Played(d, prefixes, Nothing) == (d, None)
  {
    var r := Effect(d, prefixes, op);
    assert Perform(r.0, prefixes, []) == (r.0, None);
    assert [Action(op, true)][1..] == [] && [Action(op, false)][1..] == [];
    assert Perform(d, prefixes, [Action(op, false)]) == (r.0, None);
    assert Perform(d, prefixes, [Action(op, true)]) == r;
  }

  /** A parser of due dates. */
  type DueParser = string -> Option<Day>

  /** The script ends as the finance model says: in its error, or without one and with
      its books. */
  ghost predicate Yields(d: Docs, prefixes: Prefixes, s: Script, parse: DueParser, r: Result<Books, Error>) {
    match r
    case Success(b) => Played(d, prefixes, s).1.None? && BooksOf(Played(d, prefixes, s).0, parse) == b
    case Failure(e) => Played(d, prefixes, s).1 == Some(e)
  }

  lemma ThenYields(d: Docs, prefixes: Prefixes, a: Script, b: Script, parse: DueParser,
                   r: Result<Books, Error>, next: Result<Books, Error>)
    requires Yields(d, prefixes, a, parse, r)
    requires r.Success? ==> Yields(Played(d, prefixes, a).0, prefixes, b, parse, next)
    ensures Yields(d, prefixes, Then(a, b), parse, if r.Failure? then r else next)
  {
    PlayedThen(d, prefixes, a, b);
  }

  lemma NothingYields(d: Docs, prefixes: Prefixes, parse: DueParser)
    ensures Yields(d, prefixes, Nothing, parse, Success(BooksOf(d, parse)))
  {
  }

  // --- patched records ---

  lemma MergedField(r: Record, patch: Record, key: string)
    requires key != "id"
    ensures GetString(Merged(r, patch), key) == if key in patch.fields then GetString(patch, key) else GetString(r, key)
    ensures GetNum(Merged(r, patch), key) == if key in patch.fields then GetNum(patch, key) else GetNum(r, key)
    ensures GetFlag(Merged(r, patch), key) <==> if key in patch.fields then GetFlag(patch, key) else GetFlag(r, key)
  {
  }

  function Given<T>(patch: Record, key: string, value: T): Option<T> {
    if key in patch.fields then Some(value) else None
  }

  /** The patch of a payment as the finance model sees it. */
  function PaymentPatchOf(patch: Record): PaymentPatch {
    PaymentPatch(Given(patch, "invoiceId", GetString(patch, "invoiceId")),
                 Given(patch, "clientId", GetString(patch, "clientId")),
                 Given(patch, "status", PaymentStatusOf(GetString(patch, "status"))),
                 Given(patch, "reference", GetString(patch, "reference")),
                 Given(patch, "amount", GetNum(patch, "amount")),
                 Given(patch, "archived", GetFlag(patch, "archived")))
  }

  function InvoicePatchOf(patch: Record, parse: DueParser): InvoicePatch {
    InvoicePatch(Given(patch, "clientId", GetString(patch, "clientId")),
                 Given(patch, "status", InvoiceStatusOf(GetString(patch, "status"))),
                 Given(patch, "dueDate", parse(GetString(patch, "dueDate"))),
                 Given(patch, "total", GetNum(patch, "total")),
                 Given(patch, "paidAmount", GetNum(patch, "paidAmount")),
                 Given(patch, "remainingAmount", GetNum(patch, "remainingAmount")),
                 Given(patch, "archived", GetFlag(patch, "archived")))
  }

  lemma PatchedPaymentView(r: Record, patch: Record)
    ensures PaymentOf(Merged(r, patch)) == PatchPayment(PaymentOf(r), PaymentPatchOf(patch))
  {
    MergedField(r, patch, "invoiceId");
    MergedField(r, patch, "clientId");
    MergedField(r, patch, "status");
    MergedField(r, patch, "reference");
    MergedField(r, patch, "amount");
    MergedField(r, patch, "archived");
  }

  lemma PatchedInvoiceView(r: Record, patch: Record, parse: DueParser)
    ensures InvoiceOf(Merged(r, patch), parse) == PatchInvoice(InvoiceOf(r, parse), InvoicePatchOf(patch, parse))
  {
    MergedField(r, patch, "clientId");
    MergedField(r, patch, "status");
    MergedField(r, patch, "dueDate");
    MergedField(r, patch, "total");
    MergedField(r, patch, "paidAmount");
    MergedField(r, patch, "remainingAmount");
    MergedField(r, patch, "archived");
  }

  /** How a derived status is spelled in the store. */
  function StatusWord(st: InvoiceStatus): string {
    match st
    case Draft => "draft"
    case Sent => "sent"
    case PartiallyPaid => "partially_paid"
    case Overdue => "overdue"
    case Paid => "paid"
    case Cancelled => "cancelled"
    case ArchivedWord => "archived"
    case Other(text) => text
  }

  lemma StatusWordReads(st: InvoiceStatus)
    requires !st.ArchivedWord? && !st.Other?
    ensures InvoiceStatusOf(StatusWord(st)) == st
  {
    assert |"draft"| == 5 && |"sent"| == 4 && |"partially_paid"| == 14 && |"overdue"| == 7 && |"paid"| == 4;
    assert "sent"[0] == 's' && "paid"[0] == 'p' && |"cancelled"| == 9;
  }

  /** What a sync writes into an invoice's record. */
  function SyncPatch(inv: Invoice, paid: int, today: Day): Record {
    Record(map["paidAmount" := Num(paid),
               "status" := Str(StatusWord(DeriveStatus(inv.status, inv.due, inv.total, paid, today))),
               "remainingAmount" := Num(Remaining(inv.total, paid))])
  }

  /** What a recalculation writes into a client's record. */
  function TotalsPatch(revenue: int, outstanding: int): Record {
    Record(map["revenue" := Num(revenue), "outstanding" := Num(outstanding)])
  }

  lemma SyncPatchFields(inv: Invoice, paid: int, today: Day)
    ensures var q := SyncPatch(inv, paid, today);
            && q.fields.Keys == {"paidAmount", "status", "remainingAmount"}
            && GetNum(q, "paidAmount") == paid && GetNum(q, "remainingAmount") == Remaining(inv.total, paid)
            && GetString(q, "status") == StatusWord(DeriveStatus(inv.status, inv.due, inv.total, paid, today))
  {
    assert |"paidAmount"| == 10 && |"status"| == 6 && |"remainingAmount"| == 15;
  }

  lemma SyncedView(r: Record, paid: int, today: Day, parse: DueParser)
    ensures InvoiceOf(Merged(r, SyncPatch(InvoiceOf(r, parse), paid, today)), parse)
         == Settle(InvoiceOf(r, parse), paid, today)
  {
    var inv := InvoiceOf(r, parse);
    var q := SyncPatch(inv, paid, today);
    SyncPatchFields(inv, paid, today);
    UnsyncedKeys();
    StatusWordReads(DeriveStatus(inv.status, inv.due, inv.total, paid, today));
    PatchedInvoiceView(r, q, parse);
  }

  lemma UnsyncedKeys()
    ensures forall key :: key in ["clientId", "dueDate", "total", "archived"]
              ==> key !in {"paidAmount", "status", "remainingAmount"}
    ensures "clientId" in ["clientId", "dueDate", "total", "archived"]
    ensures "dueDate" in ["clientId", "dueDate", "total", "archived"]
    ensures "total" in ["clientId", "dueDate", "total", "archived"]
    ensures "archived" in ["clientId", "dueDate", "total", "archived"]
  {
    assert |"clientId"| == 8 && |"dueDate"| == 7 && |"total"| == 5 && |"archived"| == 8;
    assert |"paidAmount"| == 10 && |"status"| == 6 && |"remainingAmount"| == 15;
  }

  lemma TotalsView(r: Record, revenue: int, outstanding: int)
    ensures ClientOf(Merged(r, TotalsPatch(revenue, outstanding)))
         == ClientOf(r).(revenue := revenue, outstanding := outstanding)
  {
    var q := TotalsPatch(revenue, outstanding);
    assert |"revenue"| == 7 && |"outstanding"| == 11 && |"archived"| == 8 && |"status"| == 6;
    MergedField(r, q, "revenue");
    MergedField(r, q, "outstanding");
    MergedField(r, q, "archived");
    MergedField(r, q, "status");
  }

  // --- single writes, on the books ---

  lemma InvoicesWritten(d: Docs, t: Table<Record>, parse: DueParser)
    ensures BooksOf(WithTable(d, INVOICES, t), parse) == BooksOf(d, parse).(invoices := Typed(t, InvoiceView(parse)))
  {
    Names();
  }

  lemma ClientsWritten(d: Docs, t: Table<Record>, parse: DueParser)
    ensures BooksOf(WithTable(d, CLIENTS, t), parse) == BooksOf(d, parse).(clients := Typed(t, ClientOf))
  {
    Names();
  }

  lemma UpdateInvoiceYields(d: Docs, prefixes: Prefixes, id: string, patch: Record, after: Invoice, parse: DueParser)
    requires id in TableOf(d, INVOICES).rows
    requires after == InvoiceOf(Merged(TableOf(d, INVOICES).rows[id], patch), parse)
    ensures var b := BooksOf(d, parse);
            Yields(d, prefixes, Write(Op.Update(INVOICES, id, patch)), parse,
                   Success(b.(invoices := Put(b.invoices, id, after))))
  {
    var t := TableOf(d, INVOICES);
    var r := Merged(t.rows[id], patch);
    PlayedWrite(d, prefixes, Op.Update(INVOICES, id, patch));
    TypedPut(t, id, r, InvoiceView(parse));
    InvoicesWritten(d, Put(t, id, r), parse);
  }

  lemma UpdateClientYields(d: Docs, prefixes: Prefixes, id: string, patch: Record, after: Client, parse: DueParser)
    requires id in TableOf(d, CLIENTS).rows
    requires after == ClientOf(Merged(TableOf(d, CLIENTS).rows[id], patch))
    ensures var b := BooksOf(d, parse);
            var r: Result<Books, Error> := Success(b.(clients := Put(b.clients, id, after)));
            && Yields(d, prefixes, Write(Op.Update(CLIENTS, id, patch)), parse, r)
            && Yields(d, prefixes, WriteAnyway(Op.Update(CLIENTS, id, patch)), parse, r)
  {
    var t := TableOf(d, CLIENTS);
    var r := Merged(t.rows[id], patch);
    PlayedWrite(d, prefixes, Op.Update(CLIENTS, id, patch));
    TypedPut(t, id, r, ClientOf);
    ClientsWritten(d, Put(t, id, r), parse);
  }

  lemma UpdatePaymentYields(d: Docs, prefixes: Prefixes, id: string, patch: Record, parse: DueParser)
    requires id in TableOf(d, PAYMENTS).rows
    ensures var b := BooksOf(d, parse);
            && id in b.payments.rows
            && Yields(d, prefixes, Write(Op.Update(PAYMENTS, id, patch)), parse,
                      Success(b.(payments := Put(b.payments, id,
                                                 PatchPayment(b.payments.rows[id], PaymentPatchOf(patch))))))
  {
    var t := TableOf(d, PAYMENTS);
    var r := Merged(t.rows[id], patch);
    PlayedWrite(d, prefixes, Op.Update(PAYMENTS, id, patch));
    PatchedPaymentView(t.rows[id], patch);
    TypedPut(t, id, r, PaymentOf);
    PaymentsWritten(d, Put(t, id, r), parse);
  }

  // --- syncing and recalculating ---

  function SyncScript(b: Books, id: string, today: Day): Script {
    if id == "" then Nothing
    else if id !in b.invoices.rows then Refuse(NotFound)
    else Write(Op.Update(INVOICES, id, SyncPatch(b.invoices.rows[id], PaidOn(b.payments, id), today)))
  }

  lemma SyncYields(d: Docs, prefixes: Prefixes, id: string, today: Day, parse: DueParser)
    ensures var b := BooksOf(d, parse);
            Yields(d, prefixes, SyncScript(b, id, today), parse, Sync(b, id, today))
  {
    var b := BooksOf(d, parse);
    if id != "" && id in b.invoices.rows {
      var paid := PaidOn(b.payments, id);
      var r := TableOf(d, INVOICES).rows[id];
      SyncedView(r, paid, today, parse);
      UpdateInvoiceYields(d, prefixes, id, SyncPatch(b.invoices.rows[id], paid, today),
                          Settle(b.invoices.rows[id], paid, today), parse);
    }
  }

  function TotalsOp(b: Books, id: string): Op {
    Op.Update(CLIENTS, id, TotalsPatch(RevenueOf(b.invoices, id), OutstandingOf(b.invoices, id)))
  }

  function RecalcScript(b: Books, id: string): Script {
    if id == "" then Nothing
    else if id !in b.clients.rows then Refuse(NotFound)
    else Write(TotalsOp(b, id))
  }

  function RecalcAnywayScript(b: Books, id: string): Script {
    if id == "" || id !in b.clients.rows then Nothing else WriteAnyway(TotalsOp(b, id))
  }

  lemma RecalcYields(d: Docs, prefixes: Prefixes, id: string, parse: DueParser)
    ensures var b := BooksOf(d, parse);
            && Yields(d, prefixes, RecalcScript(b, id), parse, Recalc(b, id))
            && Yields(d, prefixes, RecalcAnywayScript(b, id), parse, Success(RecalcIfAny(b, id)))
  {
    var b := BooksOf(d, parse);
    if id != "" && id in b.clients.rows {
      var r := TableOf(d, CLIENTS).rows[id];
      TotalsView(r, RevenueOf(b.invoices, id), OutstandingOf(b.invoices, id));
      UpdateClientYields(d, prefixes, id, TotalsPatch(RevenueOf(b.invoices, id), OutstandingOf(b.invoices, id)),
                         Recalculated(b, id), parse);
    } else {
      NothingYields(d, prefixes, parse);
    }
  }

  function SideEffectsScript(b: Books, p: Payment, today: Day): Script {
    var synced := Sync(b, p.invoiceId, today);
    Then(SyncScript(b, p.invoiceId, today),
         if synced.Failure? then Nothing
         else RecalcScript(synced.value, if p.invoiceId == "" then p.clientId else AffectedClient(b, p)))
  }

  lemma SideEffectsYield(d: Docs, prefixes: Prefixes, p: Payment, today: Day, parse: DueParser)
    ensures var b := BooksOf(d, parse);
            Yields(d, prefixes, SideEffectsScript(b, p, today), parse, SideEffects(b, p, today))
  {
    var b := BooksOf(d, parse);
    var first, synced := SyncScript(b, p.invoiceId, today), Sync(b, p.invoiceId, today);
    SyncYields(d, prefixes, p.invoiceId, today, parse);
    if synced.Success? {
      var c := if p.invoiceId == "" then p.clientId else AffectedClient(b, p);
      RecalcYields(Played(d, prefixes, first).0, prefixes, c, parse);
      ThenYields(d, prefixes, first, RecalcScript(synced.value, c), parse, synced, Recalc(synced.value, c));
    } else {
      ThenYields(d, prefixes, first, Nothing, parse, synced, synced);
    }
  }

  function LeaveScript(b: Books, before: Payment, after: Payment, today: Day): Script {
    if before.invoiceId == "" || before.invoiceId == after.invoiceId then Nothing
    else
      var synced := Sync(b, before.invoiceId, today);
      Then(SyncScript(b, before.invoiceId, today),
           if synced.Failure? then Nothing else RecalcAnywayScript(synced.value, before.clientId))
  }

  lemma LeaveYields(d: Docs, prefixes: Prefixes, before: Payment, after: Payment, today: Day, parse: DueParser)
    ensures var b := BooksOf(d, parse);
            Yields(d, prefixes, LeaveScript(b, before, after, today), parse, LeaveInvoice(b, before, after, today))
  {
    var b := BooksOf(d, parse);
    if before.invoiceId == "" || before.invoiceId == after.invoiceId {
      NothingYields(d, prefixes, parse);
    } else {
      var first, synced := SyncScript(b, before.invoiceId, today), Sync(b, before.invoiceId, today);
      SyncYields(d, prefixes, before.invoiceId, today, parse);
      if synced.Success? {
        RecalcYields(Played(d, prefixes, first).0, prefixes, before.clientId, parse);
        ThenYields(d, prefixes, first, RecalcAnywayScript(synced.value, before.clientId), parse, synced,
                   Success(RecalcIfAny(synced.value, before.clientId)));
      } else {
        ThenYields(d, prefixes, first, Nothing, parse, synced, synced);
      }
    }
  }
}
