/** What holds of payments over every run: no overpayment, unique references,
    conservation of each client's totals, and where a call falls short. */
module PaymentLaws {
  import opened Tables
  import opened Sums
  import opened Money
  import opened Finance
  import opened Reconciliation

  // --- soundness of the tables over every call ---

  /** The id generator and the caller never supply an empty id. */
  predicate NamesRecord(call: Call) {
    match call
    case PayCreate(d, env) => IdFor(d.id, env) != ""
    case InvCreate(id, inv, env) => IdFor(id, env) != ""
    case _ => true
  }

  lemma CreateInvoiceFrame(b: Books, given: string, inv: Invoice, env: Env)
    requires CreateInvoice(b, given, inv, env).Success?
    ensures var b' := CreateInvoice(b, given, inv, env).value;
            && IdFor(given, env) !in b.invoices.rows && b'.payments == b.payments
            && b'.invoices == Insert(b.invoices, IdFor(given, env), Drafted(inv))
            && SameTerms(b.(invoices := b'.invoices), b')
  {
  }

  lemma SameTermsSound(b: Books, b': Books)
    requires SoundBooks(b) && SameTerms(b, b') && Sound(b'.payments)
    ensures SoundBooks(b')
  {
  }

  lemma PaymentsAfterSound(b: Books, call: Call)
    requires SoundBooks(b) && NamesRecord(call)
    requires call.PayCreate? ==> IdFor(call.draft.id, call.env) !in b.payments.rows
    ensures Sound(PaymentsAfter(b, call))
  {
    if call.PayDelete? {
      DropSound(b.payments, call.id);
    }
  }

  lemma CallSound(b: Books, call: Call)
    requires SoundBooks(b) && NamesRecord(call)
    ensures SoundBooks(Step(b, call))
  {
    if Outcome(b, call).Success? {
      if call.InvCreate? {
        CreateInvoiceFrame(b, call.id, call.invoice, call.env);
        InsertSound(b.invoices, IdFor(call.id, call.env), Drafted(call.invoice));
        SameTermsSound(b.(invoices := Step(b, call).invoices), Step(b, call));
      } else if call.InvUpdate? {
        UpdateInvoiceFrame(b, call.id, call.change, call.env);
        var b1 := b.(invoices := Put(b.invoices, call.id, PatchInvoice(b.invoices.rows[call.id], call.change)));
        SameTermsSound(b1, Step(b, call));
      } else {
        PaymentCallFrame(b, call);
        if call.PayCreate? {
          CreateMeans(b, call.draft, call.env);
        }
        PaymentsAfterSound(b, call);
        SameTermsSound(b, Step(b, call));
      }
    }
  }

  // --- no overpayment ---

  ghost predicate PositivePayments(t: Table<Payment>) {
    forall p :: p in t.rows && t.rows[p].status.Completed? ==> t.rows[p].amount > 0
  }

  ghost predicate NoOverpayment(b: Books) {
    forall i :: i in b.invoices.rows ==> PaidOn(b.payments, i) <= b.invoices.rows[i].total
  }

  /** Restoring a payment is not re-validated, so it is not a call of these runs;
      an invoice's total is never set below what is already paid on it. */
  ghost predicate RespectsTotals(b: Books, call: Call) {
    match call
    case PayRestore(_, _) => false
    case InvCreate(id, inv, env) => PaidOn(b.payments, IdFor(id, env)) <= inv.total
    case InvUpdate(id, q, env) => q.total.Some? ==> PaidOn(b.payments, id) <= q.total.value
    case _ => true
  }

  /** Leaving a payment out of the paid amount subtracts exactly what it counted. */
  lemma PaidExcludingIs(t: Table<Payment>, invoiceId: string, id: string)
    requires Sound(t)
    ensures PaidExcluding(t, invoiceId, "") == PaidOn(t, invoiceId)
    ensures id in t.rows ==>
      PaidExcluding(t, invoiceId, id)
      == PaidOn(t, invoiceId) - (if Counts(t.rows[id], invoiceId) then t.rows[id].amount else 0)
  {
    SumSame(t.order, PaidWeight(t.rows, invoiceId), ExcludingWeight(t.rows, invoiceId, ""));
    if id in t.rows {
      SumChange(t.order, id, PaidWeight(t.rows, invoiceId), ExcludingWeight(t.rows, invoiceId, id));
    }
  }

  lemma CreateWithinTotals(b: Books, d: PaymentDraft, env: Env)
    requires SoundBooks(b) && NoOverpayment(b) && CreatePayment(b, d, env).Success?
    ensures NoOverpayment(CreatePayment(b, d, env).value)
  {
    CreateMeans(b, d, env);
    PaymentCallFrame(b, PayCreate(d, env));
    var p := Enriched(b, d.payment, env);
    forall i | i in b.invoices.rows
      ensures PaidOn(Insert(b.payments, IdFor(d.id, env), p), i) <= b.invoices.rows[i].total
    {
      PaidOnInsert(b.payments, IdFor(d.id, env), p, i);
      PaidExcludingIs(b.payments, i, "");
    }
  }

  lemma UpdateMeans(b: Books, id: string, q: PaymentPatch, env: Env)
    requires UpdatePayment(b, id, q, env).Success?
    ensures id in b.payments.rows && Validate(b, PatchPayment(b.payments.rows[id], q), id).Success?
  {
  }

  lemma UpdateWithinTotals(b: Books, id: string, q: PaymentPatch, env: Env)
    requires SoundBooks(b) && NoOverpayment(b) && PositivePayments(b.payments)
    requires UpdatePayment(b, id, q, env).Success?
    ensures NoOverpayment(UpdatePayment(b, id, q, env).value)
  {
    UpdateMeans(b, id, q, env);
    PaymentCallFrame(b, PayUpdate(id, q, env));
    var after := PatchPayment(b.payments.rows[id], q);
    forall i | i in b.invoices.rows
      ensures PaidOn(Put(b.payments, id, after), i) <= b.invoices.rows[i].total
    {
      PaidOnPut(b.payments, id, after, i);
      PaidExcludingIs(b.payments, i, id);
    }
  }

  /** Taking a payment away, or archiving it, lowers what is paid. */
  lemma LessIsPaid(b: Books, call: Call)
    requires SoundBooks(b) && NoOverpayment(b) && PositivePayments(b.payments)
    requires Outcome(b, call).Success? && (call.PayDelete? || call.PayArchive?)
    ensures NoOverpayment(Step(b, call)) && PositivePayments(Step(b, call).payments)
  {
    PaymentCallFrame(b, call);
    var t := PaymentsAfter(b, call);
    forall i | i in b.invoices.rows ensures PaidOn(t, i) <= PaidOn(b.payments, i) {
      if call.PayDelete? {
        PaidOnDrop(b.payments, call.id, i);
      } else {
        PaidOnPut(b.payments, call.id, b.payments.rows[call.id].(archived := true), i);
      }
    }
  }

  lemma CallWithinTotals(b: Books, call: Call)
    requires SoundBooks(b) && NamesRecord(call)
    requires NoOverpayment(b) && PositivePayments(b.payments) && RespectsTotals(b, call)
    ensures NoOverpayment(Step(b, call)) && PositivePayments(Step(b, call).payments)
  {
    if Outcome(b, call).Success? {
      if call.PayCreate? {
        CreateMeans(b, call.draft, call.env);
        PaymentCallFrame(b, call);
        CreateWithinTotals(b, call.draft, call.env);
      } else if call.PayUpdate? {
        UpdateMeans(b, call.id, call.patch, call.env);
        PaymentCallFrame(b, call);
        UpdateWithinTotals(b, call.id, call.patch, call.env);
      } else if call.InvCreate? {
        CreateInvoiceFrame(b, call.id, call.invoice, call.env);
      } else if call.InvUpdate? {
        UpdateInvoiceFrame(b, call.id, call.change, call.env);
      } else {
        LessIsPaid(b, call);
      }
    }
  }

  ghost predicate RunRespectsTotals(b: Books, calls: seq<Call>)
    decreases |calls|
  {
    calls == [] || (NamesRecord(calls[0]) && RespectsTotals(b, calls[0])
                    && RunRespectsTotals(Step(b, calls[0]), calls[1..]))
  }

  /** Over every run, what is paid on an invoice never exceeds its total. */
  lemma {:induction false} RunNeverOverpays(b: Books, calls: seq<Call>)
    requires SoundBooks(b) && NoOverpayment(b) && PositivePayments(b.payments)
    requires RunRespectsTotals(b, calls)
    ensures NoOverpayment(Run(b, calls)) && PositivePayments(Run(b, calls).payments)
    decreases |calls|
  {
    if calls != [] {
      CallWithinTotals(b, calls[0]);
      CallSound(b, calls[0]);
      RunNeverOverpays(Step(b, calls[0]), calls[1..]);
    }
  }

  // --- what validation refuses ---

  /** Another completed payment of the invoice, archived or not, bears the same reference
      up to letter case and surrounding space. */
  predicate Duplicate(t: Table<Payment>, p: Payment, excludeId: string, other: string) {
    && other in t.rows && (excludeId == "" || other != excludeId)
    && t.rows[other].invoiceId == p.invoiceId && t.rows[other].status.Completed?
    && Text.Trim(p.reference) != ""
    && Text.EqualFold(Text.Trim(t.rows[other].reference), Text.Trim(p.reference))
  }

  /** What may still be paid on an invoice, a payment of it left out of account. */
  predicate Affordable(b: Books, p: Payment, excludeId: string) {
    && p.invoiceId in b.invoices.rows
    && p.amount + PaidExcluding(b.payments, p.invoiceId, excludeId) <= b.invoices.rows[p.invoiceId].total
  }

  /** A payment is refused as invalid exactly without an invoice, without a positive amount
      or beyond what its invoice still asks for, and else as a conflict exactly for a
      duplicate reference. */
  lemma ValidationTells(b: Books, p: Payment, excludeId: string)
    requires Sound(b.payments)
    ensures Validate(b, p, excludeId) == Failure(Validation)
       <==> p.invoiceId == "" || p.amount <= 0 || !Affordable(b, p, excludeId)
    ensures Validate(b, p, excludeId) == Failure(Conflict)
       <==> (&& p.invoiceId != "" && p.amount > 0 && Affordable(b, p, excludeId)
             && exists other :: Duplicate(b.payments, p, excludeId, other))
    ensures Validate(b, p, excludeId).Failure?
            ==> Validate(b, p, excludeId).error == Validation || Validate(b, p, excludeId).error == Conflict
  {
    TakenTells(b.payments, p, excludeId);
  }

  lemma TakenTells(t: Table<Payment>, p: Payment, excludeId: string)
    requires Sound(t)
    ensures ReferenceTaken(t, p.invoiceId, p.reference, excludeId)
       <==> exists other :: Duplicate(t, p, excludeId, other)
  {
    if other :| Duplicate(t, p, excludeId, other) {
      assert other in t.order && SameReference(t.rows[other], p.invoiceId, p.reference);
    }
    if ReferenceTaken(t, p.invoiceId, p.reference, excludeId) {
      var other :| other in t.order && other in t.rows && !(excludeId != "" && other == excludeId)
                   && SameReference(t.rows[other], p.invoiceId, p.reference);
      assert Duplicate(t, p, excludeId, other);
    }
  }

  /** Restoring keeps within the total exactly when the payment was not a
      completed archived one, or its amount still fits the invoice's balance. */
  lemma RestoreWithinTotals(b: Books, id: string, env: Env)
    requires SoundBooks(b) && NoOverpayment(b) && PositivePayments(b.payments)
    requires RestorePayment(b, id, env).Success?
    ensures var p := b.payments.rows[id];
            NoOverpayment(RestorePayment(b, id, env).value)
            <==> (!p.archived || !p.status.Completed? || p.invoiceId == ""
                  || p.amount <= Balance(b, p.invoiceId, id))
  {
    RestoredBooks(b, id, env);
    OnlyPaymentsMatter(b, RestorePayment(b, id, env).value);
    RestoredWithin(b, id);
  }

  lemma RestoredBooks(b: Books, id: string, env: Env)
    requires RestorePayment(b, id, env).Success?
    ensures id in b.payments.rows
    ensures b.payments.rows[id].invoiceId == "" || b.payments.rows[id].invoiceId in b.invoices.rows
    ensures var b' := RestorePayment(b, id, env).value;
            b'.payments == Put(b.payments, id, Restored(b.payments.rows[id])) && SameTerms(b, b')
  {
    var p := Restored(b.payments.rows[id]);
    SideEffectsFrame(b.(payments := Put(b.payments, id, p)), p, env.today);
  }

  /** Invoices keeping their totals, what is paid decides. */
  lemma OnlyPaymentsMatter(b: Books, b': Books)
    requires SameTerms(b, b')
    ensures NoOverpayment(b') <==> NoOverpayment(b.(payments := b'.payments))
  {
  }

  lemma RestoredWithin(b: Books, id: string)
    requires SoundBooks(b) && NoOverpayment(b) && PositivePayments(b.payments) && id in b.payments.rows
    requires b.payments.rows[id].invoiceId == "" || b.payments.rows[id].invoiceId in b.invoices.rows
    ensures var p := b.payments.rows[id];
            NoOverpayment(b.(payments := Put(b.payments, id, Restored(p))))
            <==> (!p.archived || !p.status.Completed? || p.invoiceId == ""
                  || p.amount <= Balance(b, p.invoiceId, id))
  {
    var p := b.payments.rows[id];
    forall i | i in b.invoices.rows
      ensures PaidOn(Put(b.payments, id, Restored(p)), i) == PaidOn(b.payments, i)
           + (if p.archived && p.status.Completed? && p.invoiceId == i then p.amount else 0)
    {
      PaidOnRestored(b.payments, id, i);
    }
    PaidOnRestored(b.payments, id, p.invoiceId);
  }

  lemma PaidOnRestored(t: Table<Payment>, id: string, i: string)
    requires Sound(t) && id in t.rows
    ensures var p := t.rows[id];
            && PaidOn(Put(t, id, Restored(p)), i)
               == PaidOn(t, i) + (if p.archived && p.status.Completed? && p.invoiceId == i then p.amount else 0)
            && PaidExcluding(t, i, id) == PaidOn(t, i) - (if Counts(p, i) then p.amount else 0)
  {
    PaidOnPut(t, id, Restored(t.rows[id]), i);
    PaidExcludingIs(t, i, id);
  }

  // --- payment references ---

  ghost predicate UniqueReferences(t: Table<Payment>) {
    forall p, q :: p in t.rows && q in t.rows && p != q && t.rows[q].status.Completed?
      ==> !SameReference(t.rows[p], t.rows[q].invoiceId, t.rows[q].reference)
  }

  /** A payment whose reference is free may be written. */
  lemma WriteKeepsUnique(t: Table<Payment>, t': Table<Payment>, id: string, p: Payment)
    requires Sound(t) && UniqueReferences(t)
    requires t'.rows == t.rows[id := p]
    requires !ReferenceTaken(t, p.invoiceId, p.reference, id)
    requires id != ""
    ensures UniqueReferences(t')
  {
    forall x, y | x in t'.rows && y in t'.rows && x != y && t'.rows[y].status.Completed?
      ensures !SameReference(t'.rows[x], t'.rows[y].invoiceId, t'.rows[y].reference)
    {
      if y == id {
        assert x in t.order;
      } else if x == id {
        assert y in t.order;
        assert !SameReference(t.rows[y], p.invoiceId, p.reference);
      }
    }
  }

  lemma CreateKeepsUnique(b: Books, d: PaymentDraft, env: Env)
    requires SoundBooks(b) && UniqueReferences(b.payments) && IdFor(d.id, env) != ""
    requires CreatePayment(b, d, env).Success?
    ensures UniqueReferences(Insert(b.payments, IdFor(d.id, env), Enriched(b, d.payment, env)))
  {
    CreateMeans(b, d, env);
    var p, id := Enriched(b, d.payment, env), IdFor(d.id, env);
    assert id !in b.payments.order;
    WriteKeepsUnique(b.payments, Insert(b.payments, id, p), id, p);
  }

  lemma UpdateKeepsUnique(b: Books, id: string, q: PaymentPatch, env: Env)
    requires SoundBooks(b) && UniqueReferences(b.payments)
    requires UpdatePayment(b, id, q, env).Success?
    ensures id in b.payments.rows && UniqueReferences(Put(b.payments, id, PatchPayment(b.payments.rows[id], q)))
  {
    UpdateMeans(b, id, q, env);
    var after := PatchPayment(b.payments.rows[id], q);
    WriteKeepsUnique(b.payments, Put(b.payments, id, after), id, after);
  }

  /** Archiving and restoring touch neither reference nor completion. */
  lemma RewriteKeepsUnique(t: Table<Payment>, id: string, p: Payment)
    requires UniqueReferences(t) && id in t.rows
    requires p.invoiceId == t.rows[id].invoiceId && p.reference == t.rows[id].reference
    requires p.status.Completed? == t.rows[id].status.Completed?
    ensures UniqueReferences(Put(t, id, p))
  {
  }

  lemma DropKeepsUnique(t: Table<Payment>, id: string)
    requires UniqueReferences(t)
    ensures UniqueReferences(Drop(t, id))
  {
  }

  lemma CallKeepsUnique(b: Books, call: Call)
    requires SoundBooks(b) && NamesRecord(call) && UniqueReferences(b.payments)
    ensures UniqueReferences(Step(b, call).payments)
  {
    if call.InvCreate? || call.InvUpdate? {
      InvoiceCallKeepsPayments(b, call);
    } else if Outcome(b, call).Success? {
      PaymentCallFrame(b, call);
      PaymentsAfterUnique(b, call);
    }
  }

  lemma InvoiceCallKeepsPayments(b: Books, call: Call)
    requires call.InvCreate? || call.InvUpdate?
    ensures Step(b, call).payments == b.payments
  {
  }

  lemma PaymentsAfterUnique(b: Books, call: Call)
    requires SoundBooks(b) && NamesRecord(call) && UniqueReferences(b.payments)
    requires Outcome(b, call).Success? && !call.InvCreate? && !call.InvUpdate?
    ensures UniqueReferences(PaymentsAfter(b, call))
  {
    match call
    case PayCreate(d, env) => CreateKeepsUnique(b, d, env);
    case PayUpdate(id, q, env) => UpdateKeepsUnique(b, id, q, env);
    case PayDelete(id, env) => DropKeepsUnique(b.payments, id);
    case PayArchive(id, env) => RewriteKeepsUnique(b.payments, id, b.payments.rows[id].(archived := true));
    case PayRestore(id, env) => RewriteKeepsUnique(b.payments, id, Restored(b.payments.rows[id]));
  }

  predicate RunNamesRecords(calls: seq<Call>) {
    forall k :: 0 <= k < |calls| ==> NamesRecord(calls[k])
  }

  /** Over every run, completed payments of one invoice never share a reference. */
  lemma {:induction false} RunKeepsReferencesUnique(b: Books, calls: seq<Call>)
    requires SoundBooks(b) && UniqueReferences(b.payments) && RunNamesRecords(calls)
    ensures SoundBooks(Run(b, calls)) && UniqueReferences(Run(b, calls).payments)
    decreases |calls|
  {
    if calls != [] {
      CallSound(b, calls[0]);
      CallKeepsUnique(b, calls[0]);
      RunKeepsReferencesUnique(Step(b, calls[0]), calls[1..]);
    }
  }

  // --- conservation ---

  predicate Billed(inv: Invoice) {
    Live(inv) && !inv.status.Draft? && !inv.status.Cancelled?
  }

  function BilledTotal(rows: map<string, Invoice>, clientId: string): string -> int {
    (id: string) => if id in rows && Billed(rows[id]) && rows[id].clientId == clientId then rows[id].total else 0
  }

  function BilledPaid(rows: map<string, Invoice>, clientId: string): string -> int {
    (id: string) => if id in rows && Billed(rows[id]) && rows[id].clientId == clientId then rows[id].paid else 0
  }

  /** A settled, billed, not overpaid invoice splits into paid and due. */
  lemma PaidPlusDue(b: Books, id: string)
    requires id in b.invoices.rows && InvoiceSettled(b, id)
    requires PaidOn(b.payments, id) <= b.invoices.rows[id].total
    ensures Billed(b.invoices.rows[id]) ==>
              b.invoices.rows[id].total == b.invoices.rows[id].paid + Due(b.invoices.rows[id])
    ensures !Billed(b.invoices.rows[id]) ==> Due(b.invoices.rows[id]) == 0
  {
  }

  /** In a reconciled state each client's billed totals equal what was paid on
      them plus the client's outstanding. */
  lemma Conservation(b: Books, c: string)
    requires Reconciled(b) && NoOverpayment(b) && c in b.clients.rows
    ensures Sum(b.invoices.order, BilledTotal(b.invoices.rows, c))
         == Sum(b.invoices.order, BilledPaid(b.invoices.rows, c)) + b.clients.rows[c].outstanding
  {
    forall id | id in b.invoices.order
      ensures BilledTotal(b.invoices.rows, c)(id)
           == BilledPaid(b.invoices.rows, c)(id) + OutstandingWeight(b.invoices.rows, c)(id)
    {
      PaidPlusDue(b, id);
    }
    SumPlus(b.invoices.order, BilledPaid(b.invoices.rows, c), OutstandingWeight(b.invoices.rows, c),
            BilledTotal(b.invoices.rows, c));
    assert ClientSettled(b, c);
  }

  // --- a payment that names another client than its invoice ---

  /** The client's stored totals agree with an invoice table. */
  ghost predicate TotalsHold(b: Books, t: Table<Invoice>, c: string) {
    c in b.clients.rows ==>
      && RevenueOf(t, c) == b.clients.rows[c].revenue
      && OutstandingOf(t, c) == b.clients.rows[c].outstanding
  }

  /** Rewriting an invoice shifts its client's totals by what it owes and earns. */
  lemma TotalsAfterPut(b: Books, i: string, inv: Invoice, c: string)
    requires Sound(b.invoices) && i in b.invoices.rows && c == inv.clientId == b.invoices.rows[i].clientId
    requires TotalsHold(b, b.invoices, c)
    ensures TotalsHold(b, Put(b.invoices, i, inv), c)
       <==> (c in b.clients.rows ==> Due(inv) == Due(b.invoices.rows[i]) && Earned(inv) == Earned(b.invoices.rows[i]))
  {
    var rows, rows' := b.invoices.rows, Put(b.invoices, i, inv).rows;
    SumChange(b.invoices.order, i, OutstandingWeight(rows, c), OutstandingWeight(rows', c));
    SumChange(b.invoices.order, i, RevenueWeight(rows, c), RevenueWeight(rows', c));
  }

  /** Whether a payment about to be booked moves what its invoice's client owes. */
  predicate MovesClient(b: Books, p: Payment) {
    && Counts(p, p.invoiceId) && p.invoiceId in b.invoices.rows
    && var inv := b.invoices.rows[p.invoiceId];
       !inv.archived && !inv.status.Draft? && !inv.status.Cancelled? && inv.clientId in b.clients.rows
  }

  /** A payment within the balance lowers what a billed invoice owes by its amount. */
  lemma DueMoves(inv: Invoice, paid: int, amount: int, before: Day, today: Day)
    requires inv == Settle(inv, paid, before) && 0 < amount <= Remaining(inv.total, paid)
    ensures var after := Settle(inv, paid + amount, today);
            if inv.archived || inv.status.Draft? || inv.status.Cancelled?
            then Due(after) == Due(inv) && Earned(after) == Earned(inv)
            else Due(after) == Due(inv) - amount
  {
  }

  lemma DueStays(inv: Invoice, paid: int, before: Day, today: Day)
    requires inv == Settle(inv, paid, before)
    ensures var after := Settle(inv, paid, today);
            Due(after) == Due(inv) && Earned(after) == Earned(inv)
  {
  }

  lemma InsertMoves(b: Books, p: Payment, id: string, today: Day)
    requires SoundBooks(b) && id !in b.payments.rows && p.invoiceId in b.invoices.rows
    requires InvoiceSettled(b, p.invoiceId) && 0 < p.amount <= Balance(b, p.invoiceId, "")
    ensures var inv := b.invoices.rows[p.invoiceId];
            var after := Settle(inv, PaidOn(Insert(b.payments, id, p), p.invoiceId), today);
            (Due(after) == Due(inv) && Earned(after) == Earned(inv))
            <==> (inv.archived || inv.status.Draft? || inv.status.Cancelled? || !Counts(p, p.invoiceId))
  {
    var inv := b.invoices.rows[p.invoiceId];
    var paid := PaidOn(b.payments, p.invoiceId);
    var day: Day :| inv == Settle(inv, paid, day);
    PaidOnInsert(b.payments, id, p, p.invoiceId);
    PaidExcludingIs(b.payments, p.invoiceId, "");
    if Counts(p, p.invoiceId) {
      DueMoves(inv, paid, p.amount, day, today);
    } else {
      DueStays(inv, paid, day, today);
    }
  }

  /** Syncing the invoice of a new payment puts its client out of date exactly
      when the payment moves what that client owes. */
  lemma SyncMoves(b: Books, p: Payment, id: string, today: Day)
    requires Reconciled(b) && id !in b.payments.rows && p.invoiceId in b.invoices.rows
    requires 0 < p.amount <= Balance(b, p.invoiceId, "")
    ensures var inv := b.invoices.rows[p.invoiceId];
            var settled := Settle(inv, PaidOn(Insert(b.payments, id, p), p.invoiceId), today);
            TotalsHold(b, Put(b.invoices, p.invoiceId, settled), inv.clientId) <==> !MovesClient(b, p)
  {
    var inv := b.invoices.rows[p.invoiceId];
    assert InvoiceSettled(b, p.invoiceId);
    assert inv.clientId in b.clients.rows ==> ClientSettled(b, inv.clientId);
    InsertMoves(b, p, id, today);
    TotalsAfterPut(b, p.invoiceId, Settle(inv, PaidOn(Insert(b.payments, id, p), p.invoiceId), today), inv.clientId);
  }

  lemma ExceptOneClient(b: Books, c: string)
    requires ReconciledExcept(b, {}, {c})
    ensures Reconciled(b) <==> (c in b.clients.rows ==> ClientSettled(b, c))
  {
  }

  /** Recalculating some other client leaves the invoice's client as the sync left it. */
  lemma MislinkedSideEffects(b1: Books, p: Payment, c: string, today: Day)
    requires ReconciledExcept(b1, {p.invoiceId}, {}) && SideEffects(b1, p, today).Success?
    requires p.invoiceId in b1.invoices.rows && c == b1.invoices.rows[p.invoiceId].clientId
    requires p.clientId != c && p.clientId != ""
    ensures Reconciled(SideEffects(b1, p, today).value)
            <==> TotalsHold(b1, Sync(b1, p.invoiceId, today).value.invoices, c)
  {
    SyncStep(b1, p.invoiceId, today, {p.invoiceId}, {});
    SyncFrame(b1, p.invoiceId, today);
    assert {p.invoiceId} - {p.invoiceId} == {} && {} + {c} == {c};
    RecalcAnother(Sync(b1, p.invoiceId, today).value, p.clientId, c);
  }

  lemma RecalcAnother(b: Books, n: string, c: string)
    requires ReconciledExcept(b, {}, {c}) && n != c
    ensures Reconciled(RecalcIfAny(b, n)) <==> TotalsHold(b, b.invoices, c)
  {
    RecalcStep(b, n, {}, {c});
    RecalcFrame(b, n);
    assert {c} - {n} == {c};
    ExceptOneClient(RecalcIfAny(b, n), c);
  }

  lemma MislinkedCreate(b: Books, d: PaymentDraft, env: Env)
    requires Reconciled(b) && NamesRecord(PayCreate(d, env))
    requires CreatePayment(b, d, env).Success?
    requires var p := Enriched(b, d.payment, env);
             p.invoiceId in b.invoices.rows && p.clientId != b.invoices.rows[p.invoiceId].clientId && p.clientId != ""
    ensures Reconciled(CreatePayment(b, d, env).value) <==> !MovesClient(b, Enriched(b, d.payment, env))
  {
    CreateMeans(b, d, env);
    var p := Enriched(b, d.payment, env);
    var id := IdFor(d.id, env);
    InsertDisturbs(b, id, p);
    MislinkedSideEffects(b.(payments := Insert(b.payments, id, p)), p, b.invoices.rows[p.invoiceId].clientId,
                         env.today);
    SyncMoves(b, p, id, env.today);
  }

  /** A successful create keeps the books reconciled exactly when the payment
      names its invoice's client, or the invoice owes nothing that could move. */
  lemma CreateKeepsExactlyWhen(b: Books, d: PaymentDraft, env: Env)
    requires Reconciled(b) && NamesRecord(PayCreate(d, env))
    requires CreatePayment(b, d, env).Success?
    ensures var p := Enriched(b, d.payment, env);
            p.invoiceId in b.invoices.rows &&
            (Reconciled(CreatePayment(b, d, env).value)
             <==> (p.clientId == b.invoices.rows[p.invoiceId].clientId || !MovesClient(b, p)))
  {
    CreateMeans(b, d, env);
    var p := Enriched(b, d.payment, env);
    assert p.invoiceId in b.invoices.rows;
    if p.clientId == b.invoices.rows[p.invoiceId].clientId {
      InsertDisturbs(b, IdFor(d.id, env), p);
      SideEffectsStep(b.(payments := Insert(b.payments, IdFor(d.id, env), p)), p, env.today);
    } else {
      MislinkedCreate(b, d, env);
    }
  }
}
