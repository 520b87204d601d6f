/** Invoices, payments and clients, the totals derived from them, and what each
    service call makes of the books. A call either succeeds with new books or
    fails; a failed transaction leaves the books as they were. */
module Finance {
  import opened Tables
  import opened Sums
  import opened Money
  import Text

  datatype Invoice = Invoice(
    clientId: string, status: InvoiceStatus, due: Option<Day>, total: int,
    paid: int, remaining: int, archived: bool)

  /** Completed records whether the stored word is spelled exactly "completed";
      ArchivedWord is any spelling of "archived" up to letter case. */
  datatype PaymentStatus = Completed(exact: bool) | Blank | Active | ArchivedWord | Other(text: string)

  datatype Payment = Payment(
    invoiceId: string, clientId: string, status: PaymentStatus, reference: string,
    amount: int, archived: bool)

  /** archived says what the store says of the whole record: by its flag, or by any
      spelling of the status word. */
  datatype Client = Client(revenue: int, outstanding: int, archived: bool)

  datatype Books = Books(invoices: Table<Invoice>, payments: Table<Payment>, clients: Table<Client>)

  ghost predicate SoundBooks(b: Books) {
    Sound(b.invoices) && Sound(b.payments) && Sound(b.clients)
  }

  // --- derived totals ---

  /** A payment counts toward an invoice while it is completed and not archived. */
  predicate Counts(p: Payment, invoiceId: string) {
    !p.archived && p.status.Completed? && p.invoiceId == invoiceId
  }

  function PaidWeight(rows: map<string, Payment>, invoiceId: string): string -> int {
    (id: string) => if id in rows && Counts(rows[id], invoiceId) then rows[id].amount else 0
  }

  function PaidOn(t: Table<Payment>, invoiceId: string): int {
    Sum(t.order, PaidWeight(t.rows, invoiceId))
  }

  /** Not archived, by flag or by status word: what the store lists by default. */
  predicate Live(inv: Invoice) {
    !inv.archived && !inv.status.ArchivedWord?
  }

  function Earned(inv: Invoice): int {
    if Live(inv) && inv.status.Paid? then inv.total else 0
  }

  function RevenueWeight(rows: map<string, Invoice>, clientId: string): string -> int {
    (id: string) => if id in rows && rows[id].clientId == clientId then Earned(rows[id]) else 0
  }

  function RevenueOf(t: Table<Invoice>, clientId: string): int {
    Sum(t.order, RevenueWeight(t.rows, clientId))
  }

  function Due(inv: Invoice): int {
    if Live(inv) && IsOutstanding(inv.status) then Remaining(inv.total, inv.paid) else 0
  }

  function OutstandingWeight(rows: map<string, Invoice>, clientId: string): string -> int {
    (id: string) => if id in rows && rows[id].clientId == clientId then Due(rows[id]) else 0
  }

  function OutstandingOf(t: Table<Invoice>, clientId: string): int {
    Sum(t.order, OutstandingWeight(t.rows, clientId))
  }

  // --- the reconciled state ---

  function Settle(inv: Invoice, paid: int, today: Day): Invoice {
    inv.(paid := paid,
         status := DeriveStatus(inv.status, inv.due, inv.total, paid, today),
         remaining := Remaining(inv.total, paid))
  }

  predicate PaidInFull(total: int, paid: int) {
    total > 0 && paid >= total
  }

  /** What an invoice shows on a day, given what is paid on it and the status it had:
      drafts and cancelled invoices keep theirs; the others are paid once a positive
      total is covered, partly paid once something is, and before that sent up to the
      due day and overdue after it. */
  predicate Shows(inv: Invoice, was: InvoiceStatus, paid: int, today: Day) {
    && inv.paid == paid
    && (paid <= inv.total ==> inv.remaining == inv.total - paid) && (paid > inv.total ==> inv.remaining == 0)
    && (if was.Draft? || was.Cancelled? then inv.status == was
        else
          && (inv.status.Paid? <==> PaidInFull(inv.total, paid))
          && (inv.status.PartiallyPaid? <==> paid > 0 && !PaidInFull(inv.total, paid))
          && (inv.status.Overdue? <==> paid <= 0 && DuePassed(inv.due, today))
          && (inv.status.Sent? <==> paid <= 0 && !DuePassed(inv.due, today)))
  }

  /** The invoice's stored totals and status are the derived ones, as of some day. */
  ghost predicate InvoiceSettled(b: Books, id: string)
    requires id in b.invoices.rows
  {
    var inv := b.invoices.rows[id];
    exists day: Day :: inv == Settle(inv, PaidOn(b.payments, id), day)
  }

  ghost predicate ClientSettled(b: Books, id: string)
    requires id in b.clients.rows
  {
    && b.clients.rows[id].revenue == RevenueOf(b.invoices, id)
    && b.clients.rows[id].outstanding == OutstandingOf(b.invoices, id)
  }

  /** Reconciled, except possibly at the listed invoices and clients. */
  ghost predicate ReconciledExcept(b: Books, invoices: set<string>, clients: set<string>) {
    && SoundBooks(b)
    && (forall i :: i in b.invoices.rows && i !in invoices ==> InvoiceSettled(b, i))
    && (forall c :: c in b.clients.rows && c !in clients ==> ClientSettled(b, c))
  }

  ghost predicate Reconciled(b: Books) {
    ReconciledExcept(b, {}, {})
  }

  /** Every payment names the client of the invoice it is booked on. */
  ghost predicate Linked(b: Books) {
    forall p :: p in b.payments.rows && b.payments.rows[p].invoiceId in b.invoices.rows
      ==> b.payments.rows[p].clientId == b.invoices.rows[b.payments.rows[p].invoiceId].clientId
  }

  // --- the synchronisation steps ---

  function Sync(b: Books, invoiceId: string, today: Day): Result<Books, Error> {
    if invoiceId == "" then Success(b)
    else if invoiceId !in b.invoices.rows then Failure(NotFound)
    else Success(b.(invoices := Put(b.invoices, invoiceId,
                      Settle(b.invoices.rows[invoiceId], PaidOn(b.payments, invoiceId), today))))
  }

  function Recalculated(b: Books, clientId: string): Client
    requires clientId in b.clients.rows
  {
    b.clients.rows[clientId].(revenue := RevenueOf(b.invoices, clientId),
                              outstanding := OutstandingOf(b.invoices, clientId))
  }

  function Recalc(b: Books, clientId: string): Result<Books, Error> {
    if clientId == "" then Success(b)
    else if clientId !in b.clients.rows then Failure(NotFound)
    else Success(b.(clients := Put(b.clients, clientId, Recalculated(b, clientId))))
  }

  /** Recalculation whose error the caller drops. */
  function RecalcIfAny(b: Books, clientId: string): Books {
    var r := Recalc(b, clientId);
    if r.Success? then r.value else b
  }

  /** The client a payment's side effects recalculate. */
  function AffectedClient(b: Books, p: Payment): string {
    if p.clientId == "" && p.invoiceId in b.invoices.rows then b.invoices.rows[p.invoiceId].clientId
    else p.clientId
  }

  function SideEffects(b: Books, p: Payment, today: Day): Result<Books, Error> {
    var synced := Sync(b, p.invoiceId, today);
    if synced.Failure? then synced
    else Recalc(synced.value, if p.invoiceId == "" then p.clientId else AffectedClient(b, p))
  }

  // --- validation ---

  function ExcludingWeight(rows: map<string, Payment>, invoiceId: string, excludeId: string): string -> int {
    (id: string) =>
      if id in rows && Counts(rows[id], invoiceId) && !(excludeId != "" && id == excludeId)
      then rows[id].amount else 0
  }

  function PaidExcluding(t: Table<Payment>, invoiceId: string, excludeId: string): int {
    Sum(t.order, ExcludingWeight(t.rows, invoiceId, excludeId))
  }

  function Balance(b: Books, invoiceId: string, excludeId: string): int {
    if invoiceId !in b.invoices.rows then 0
    else Remaining(b.invoices.rows[invoiceId].total, PaidExcluding(b.payments, invoiceId, excludeId))
  }

  function ReferenceKey(reference: string): string {
    Text.Lower(Text.Trim(reference))
  }

  /** Two payments clash when both are completed on one invoice, archived or
      not, under one non-blank reference. */
  predicate SameReference(p: Payment, invoiceId: string, reference: string) {
    && p.invoiceId == invoiceId && p.status.Completed?
    && Text.Trim(reference) != ""
    && ReferenceKey(p.reference) == ReferenceKey(reference)
  }

  predicate ReferenceTaken(t: Table<Payment>, invoiceId: string, reference: string, excludeId: string) {
    exists id | id in t.order :: id in t.rows && !(excludeId != "" && id == excludeId)
                                 && SameReference(t.rows[id], invoiceId, reference)
  }

  function Validate(b: Books, p: Payment, excludeId: string): Result<(), Error> {
    if p.invoiceId == "" then Failure(Validation)
    else if p.amount <= 0 then Failure(Validation)
    else if p.amount > Balance(b, p.invoiceId, excludeId) then Failure(Validation)
    else if ReferenceTaken(b.payments, p.invoiceId, p.reference, excludeId) then Failure(Conflict)
    else Success(())
  }

  // --- the calls ---

  datatype PaymentDraft = PaymentDraft(id: string, payment: Payment)

  datatype PaymentPatch = PaymentPatch(
    invoiceId: Option<string>, clientId: Option<string>, status: Option<PaymentStatus>,
    reference: Option<string>, amount: Option<int>, archived: Option<bool>)

  /** total is the total that reaches the store once tax has been computed. */
  datatype InvoicePatch = InvoicePatch(
    clientId: Option<string>, status: Option<InvoiceStatus>, due: Option<Option<Day>>,
    total: Option<int>, paid: Option<int>, remaining: Option<int>, archived: Option<bool>)

  function Or<T>(patch: Option<T>, current: T): T {
    if patch.Some? then patch.value else current
  }

  function PatchPayment(p: Payment, q: PaymentPatch): Payment {
    Payment(Or(q.invoiceId, p.invoiceId), Or(q.clientId, p.clientId), Or(q.status, p.status),
            Or(q.reference, p.reference), Or(q.amount, p.amount), Or(q.archived, p.archived))
  }

  function PatchInvoice(inv: Invoice, q: InvoicePatch): Invoice {
    Invoice(Or(q.clientId, inv.clientId), Or(q.status, inv.status), Or(q.due, inv.due),
            Or(q.total, inv.total), Or(q.paid, inv.paid), Or(q.remaining, inv.remaining),
            Or(q.archived, inv.archived))
  }

  /** What the clock and the id generator hand to a call. */
  datatype Env = Env(today: Day, stamp: string, nextId: string)

  /** The record a create call stores: blanks defaulted, client taken from the invoice. */
  function Enriched(b: Books, p: Payment, env: Env): Payment {
    var q := p.(status := if p.status.Blank? then Completed(true) else p.status,
                reference := if p.reference == "" then env.stamp else p.reference);
    if q.clientId == "" && q.invoiceId in b.invoices.rows
    then q.(clientId := b.invoices.rows[q.invoiceId].clientId) else q
  }

  function IdFor(given: string, env: Env): string {
    if given == "" then env.nextId else given
  }

  function CreatePayment(b: Books, d: PaymentDraft, env: Env): Result<Books, Error> {
    var p := Enriched(b, d.payment, env);
    var id := IdFor(d.id, env);
    var valid := Validate(b, p, "");
    if valid.Failure? then Failure(valid.error)
    else if id in b.payments.rows then Failure(Conflict)
    else SideEffects(b.(payments := Insert(b.payments, id, p)), p, env.today)
  }

  /** A payment that leaves an invoice: the old invoice and client first. */
  function LeaveInvoice(b: Books, before: Payment, after: Payment, today: Day): Result<Books, Error> {
    if before.invoiceId == "" || before.invoiceId == after.invoiceId then Success(b)
    else
      var synced := Sync(b, before.invoiceId, today);
      if synced.Failure? then synced else Success(RecalcIfAny(synced.value, before.clientId))
  }

  function UpdatePayment(b: Books, id: string, q: PaymentPatch, env: Env): Result<Books, Error> {
    if id !in b.payments.rows then Failure(NotFound)
    else
      var before := b.payments.rows[id];
      var after := PatchPayment(before, q);
      var valid := Validate(b, after, id);
      if valid.Failure? then Failure(valid.error)
      else
        var left := LeaveInvoice(b.(payments := Put(b.payments, id, after)), before, after, env.today);
        if left.Failure? then left else SideEffects(left.value, after, env.today)
  }

  function DeletePayment(b: Books, id: string, env: Env): Result<Books, Error> {
    if id !in b.payments.rows then Failure(NotFound)
    else SideEffects(b.(payments := Drop(b.payments, id)), b.payments.rows[id], env.today)
  }

  function ArchivePayment(b: Books, id: string, env: Env): Result<Books, Error> {
    if id !in b.payments.rows then Failure(NotFound)
    else
      var before := b.payments.rows[id];
      SideEffects(b.(payments := Put(b.payments, id, before.(archived := true))), before, env.today)
  }

  function Restored(p: Payment): Payment {
    p.(archived := false, status := if p.status.ArchivedWord? then Active else p.status)
  }

  function RestorePayment(b: Books, id: string, env: Env): Result<Books, Error> {
    if id !in b.payments.rows then Failure(NotFound)
    else
      var p := Restored(b.payments.rows[id]);
      SideEffects(b.(payments := Put(b.payments, id, p)), p, env.today)
  }

  /** The record an invoice create call stores. */
  function Drafted(inv: Invoice): Invoice {
    inv.(status := if inv.status == InvoiceStatus.Other("") then Draft else inv.status,
         remaining := Remaining(inv.total, inv.paid))
  }

  function CreateInvoice(b: Books, given: string, inv: Invoice, env: Env): Result<Books, Error> {
    var id := IdFor(given, env);
    if id in b.invoices.rows then Failure(Conflict)
    else Recalc(b.(invoices := Insert(b.invoices, id, Drafted(inv))), inv.clientId)
  }

  function UpdateInvoice(b: Books, id: string, q: InvoicePatch, env: Env): Result<Books, Error> {
    if id !in b.invoices.rows then Failure(NotFound)
    else
      var before := b.invoices.rows[id];
      var after := PatchInvoice(before, q);
      var synced := Sync(b.(invoices := Put(b.invoices, id, after)), id, env.today);
      if synced.Failure? then synced
      else
        var left :=
          if before.clientId != after.clientId then RecalcIfAny(synced.value, before.clientId) else synced.value;
        Success(RecalcIfAny(left, after.clientId))
  }

  datatype Call =
    | PayCreate(draft: PaymentDraft, env: Env)
    | PayUpdate(id: string, patch: PaymentPatch, env: Env)
    | PayDelete(id: string, env: Env)
    | PayArchive(id: string, env: Env)
    | PayRestore(id: string, env: Env)
    | InvCreate(id: string, invoice: Invoice, env: Env)
    | InvUpdate(id: string, change: InvoicePatch, env: Env)

  function Outcome(b: Books, call: Call): Result<Books, Error> {
    match call
    case PayCreate(d, env) => CreatePayment(b, d, env)
    case PayUpdate(id, q, env) => UpdatePayment(b, id, q, env)
    case PayDelete(id, env) => DeletePayment(b, id, env)
    case PayArchive(id, env) => ArchivePayment(b, id, env)
    case PayRestore(id, env) => RestorePayment(b, id, env)
    case InvCreate(id, inv, env) => CreateInvoice(b, id, inv, env)
    case InvUpdate(id, q, env) => UpdateInvoice(b, id, q, env)
  }

  /** A failed call rolls back. */
  function Step(b: Books, call: Call): Books {
    var r := Outcome(b, call);
    if r.Success? then r.value else b
  }

  function Run(b: Books, calls: seq<Call>): Books
    decreases |calls|
  {
    if calls == [] then b else Run(Step(b, calls[0]), calls[1..])
  }
}
