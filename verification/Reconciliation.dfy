/** The incremental bookkeeping agrees with the from-scratch definition over
    every run of calls. */
module Reconciliation {
  import opened Tables
  import opened Sums
  import opened Money
  import opened Finance

  // --- one write, and whose totals it can disturb ---

  lemma PaidOnPut(t: Table<Payment>, id: string, p: Payment, invoiceId: string)
    requires Sound(t) && id in t.rows
    ensures PaidOn(Put(t, id, p), invoiceId)
         == PaidOn(t, invoiceId) - (if Counts(t.rows[id], invoiceId) then t.rows[id].amount else 0)
                                 + (if Counts(p, invoiceId) then p.amount else 0)
  {
    SumChange(t.order, id, PaidWeight(t.rows, invoiceId), PaidWeight(Put(t, id, p).rows, invoiceId));
  }

  lemma PaidOnInsert(t: Table<Payment>, id: string, p: Payment, invoiceId: string)
    requires Sound(t) && id !in t.rows
    ensures PaidOn(Insert(t, id, p), invoiceId)
         == PaidOn(t, invoiceId) + (if Counts(p, invoiceId) then p.amount else 0)
  {
    var w := PaidWeight(Insert(t, id, p).rows, invoiceId);
    SumAppend(t.order, id, w);
    SumSame(t.order, PaidWeight(t.rows, invoiceId), w);
  }

  lemma PaidOnDrop(t: Table<Payment>, id: string, invoiceId: string)
    requires Sound(t) && id in t.rows
    ensures PaidOn(Drop(t, id), invoiceId)
         == PaidOn(t, invoiceId) - (if Counts(t.rows[id], invoiceId) then t.rows[id].amount else 0)
  {
    SumRemove(t.order, id, PaidWeight(t.rows, invoiceId));
    RemoveFirstElements(t.order, id);
    SumSame(RemoveFirst(t.order, id), PaidWeight(t.rows, invoiceId), PaidWeight(Drop(t, id).rows, invoiceId));
  }

  /** Payments changed only for the listed invoices. */
  lemma PaymentsWritten(b: Books, t: Table<Payment>, invoices: set<string>)
    requires Reconciled(b) && Sound(t)
    requires forall i :: i in b.invoices.rows && i !in invoices ==> PaidOn(t, i) == PaidOn(b.payments, i)
    ensures ReconciledExcept(b.(payments := t), invoices, {})
  {
    var b' := b.(payments := t);
    forall i | i in b'.invoices.rows && i !in invoices
      ensures InvoiceSettled(b', i)
    {
      assert InvoiceSettled(b, i);
    }
    forall c | c in b'.clients.rows ensures ClientSettled(b', c) {
      assert ClientSettled(b, c);
    }
  }

  /** Rewriting one invoice moves only the totals of the clients it names. */
  lemma ClientTotalsPut(t: Table<Invoice>, id: string, inv: Invoice, c: string)
    requires Sound(t) && id in t.rows && c != t.rows[id].clientId && c != inv.clientId
    ensures RevenueOf(Put(t, id, inv), c) == RevenueOf(t, c)
    ensures OutstandingOf(Put(t, id, inv), c) == OutstandingOf(t, c)
  {
    var rows := Put(t, id, inv).rows;
    SumSame(t.order, RevenueWeight(t.rows, c), RevenueWeight(rows, c));
    SumSame(t.order, OutstandingWeight(t.rows, c), OutstandingWeight(rows, c));
  }

  lemma InvoicePut(b: Books, id: string, inv: Invoice, invoices: set<string>, clients: set<string>)
    requires ReconciledExcept(b, invoices, clients) && id in b.invoices.rows
    ensures ReconciledExcept(b.(invoices := Put(b.invoices, id, inv)), invoices + {id},
                             clients + {b.invoices.rows[id].clientId, inv.clientId})
  {
    var b' := b.(invoices := Put(b.invoices, id, inv));
    forall i | i in b'.invoices.rows && i !in invoices + {id}
      ensures InvoiceSettled(b', i)
    {
      assert InvoiceSettled(b, i);
    }
    forall c | c in b'.clients.rows && c !in clients + {b.invoices.rows[id].clientId, inv.clientId}
      ensures ClientSettled(b', c)
    {
      assert ClientSettled(b, c);
      ClientTotalsPut(b.invoices, id, inv, c);
    }
  }

  /** Settling forgets how the invoice was settled before: only what is paid now
      and the day count, so the order of payments leaves no trace. */
  lemma SettleForgets(inv: Invoice, before: int, earlier: Day, paid: int, day: Day)
    ensures Settle(Settle(inv, before, earlier), paid, day) == Settle(inv, paid, day)
  {
  }

  /** Syncing an invoice settles it and leaves its client to be recalculated. */
  lemma SyncStep(b: Books, id: string, today: Day, invoices: set<string>, clients: set<string>)
    requires ReconciledExcept(b, invoices, clients)
    requires id in b.invoices.rows
    ensures Sync(b, id, today).Success?
    ensures ReconciledExcept(Sync(b, id, today).value, invoices - {id}, clients + {b.invoices.rows[id].clientId})
  {
    var inv := Settle(b.invoices.rows[id], PaidOn(b.payments, id), today);
    InvoicePut(b, id, inv, invoices, clients);
    var b' := Sync(b, id, today).value;
    SettleForgets(b.invoices.rows[id], PaidOn(b.payments, id), today, PaidOn(b.payments, id), today);
    assert InvoiceSettled(b', id);
  }

  /** Recalculating a client settles it and disturbs nothing. */
  lemma RecalcStep(b: Books, c: string, invoices: set<string>, clients: set<string>)
    requires ReconciledExcept(b, invoices, clients)
    ensures ReconciledExcept(RecalcIfAny(b, c), invoices, clients - {c})
  {
    var b' := RecalcIfAny(b, c);
    forall i | i in b'.invoices.rows && i !in invoices
      ensures InvoiceSettled(b', i)
    {
      assert InvoiceSettled(b, i);
    }
    forall k | k in b'.clients.rows && k !in clients - {c}
      ensures ClientSettled(b', k)
    {
      if k != c {
        assert ClientSettled(b, k);
      }
    }
  }

  /** The side effects of a payment bring its invoice and client back in line. */
  lemma SideEffectsStep(b: Books, p: Payment, today: Day)
    requires ReconciledExcept(b, {p.invoiceId}, {})
    requires p.invoiceId in b.invoices.rows ==> p.clientId == b.invoices.rows[p.invoiceId].clientId
    requires SideEffects(b, p, today).Success?
    ensures Reconciled(SideEffects(b, p, today).value)
  {
    if p.invoiceId == "" {
      assert ReconciledExcept(b, {}, {});
      RecalcStep(b, p.clientId, {}, {});
    } else {
      SyncStep(b, p.invoiceId, today, {p.invoiceId}, {});
      RecalcStep(Sync(b, p.invoiceId, today).value, p.clientId, {}, {p.clientId});
    }
  }

  // --- the calls ---

  /** What a caller must respect so that payments keep naming the client of the
      invoice they are booked on; on creating an invoice, that it starts unpaid,
      as a draft or sent. Checked on the call's own arguments. */
  ghost predicate RespectsLinks(b: Books, call: Call) {
    match call
    case PayCreate(d, env) =>
      && IdFor(d.id, env) != ""
      && (d.payment.clientId != "" && d.payment.invoiceId in b.invoices.rows
          ==> d.payment.clientId == b.invoices.rows[d.payment.invoiceId].clientId)
    case PayUpdate(id, q, env) =>
      id in b.payments.rows ==>
        var after := PatchPayment(b.payments.rows[id], q);
        after.invoiceId in b.invoices.rows ==> after.clientId == b.invoices.rows[after.invoiceId].clientId
    case InvCreate(id, inv, env) =>
      && IdFor(id, env) != "" && inv.paid == 0
      && (inv.status.Draft? || inv.status.Sent? || inv.status == InvoiceStatus.Other(""))
      && (forall p :: p in b.payments.rows ==> b.payments.rows[p].invoiceId != IdFor(id, env))
    case InvUpdate(id, q, env) =>
      id in b.invoices.rows ==>
        forall p :: p in b.payments.rows && b.payments.rows[p].invoiceId == id
          ==> b.payments.rows[p].clientId == Or(q.clientId, b.invoices.rows[id].clientId)
    case _ => true
  }

  /** Booking a new payment disturbs only its own invoice. */
  lemma InsertDisturbs(b: Books, id: string, p: Payment)
    requires Reconciled(b) && id !in b.payments.rows && id != ""
    ensures ReconciledExcept(b.(payments := Insert(b.payments, id, p)), {p.invoiceId}, {})
  {
    forall i | i in b.invoices.rows && i != p.invoiceId
      ensures PaidOn(Insert(b.payments, id, p), i) == PaidOn(b.payments, i)
    {
      PaidOnInsert(b.payments, id, p, i);
    }
    PaymentsWritten(b, Insert(b.payments, id, p), {p.invoiceId});
  }

  /** What a successful create call passed on its way. */
  lemma CreateMeans(b: Books, d: PaymentDraft, env: Env)
    requires CreatePayment(b, d, env).Success?
    ensures var p := Enriched(b, d.payment, env);
            var id := IdFor(d.id, env);
            && id !in b.payments.rows && Validate(b, p, "").Success?
            && CreatePayment(b, d, env) == SideEffects(b.(payments := Insert(b.payments, id, p)), p, env.today)
  {
  }

  lemma CreateKeeps(b: Books, d: PaymentDraft, env: Env)
    requires Reconciled(b) && RespectsLinks(b, PayCreate(d, env))
    requires CreatePayment(b, d, env).Success?
    ensures Reconciled(CreatePayment(b, d, env).value)
  {
    CreateMeans(b, d, env);
    var p := Enriched(b, d.payment, env);
    var id := IdFor(d.id, env);
    InsertDisturbs(b, id, p);
    SideEffectsStep(b.(payments := Insert(b.payments, id, p)), p, env.today);
  }

  lemma PutDisturbs(b: Books, id: string, after: Payment)
    requires Reconciled(b) && id in b.payments.rows
    ensures ReconciledExcept(b.(payments := Put(b.payments, id, after)),
                             {b.payments.rows[id].invoiceId, after.invoiceId}, {})
  {
    var t := Put(b.payments, id, after);
    forall i | i in b.invoices.rows && i !in {b.payments.rows[id].invoiceId, after.invoiceId}
      ensures PaidOn(t, i) == PaidOn(b.payments, i)
    {
      PaidOnPut(b.payments, id, after, i);
    }
    PaymentsWritten(b, t, {b.payments.rows[id].invoiceId, after.invoiceId});
  }

  /** Leaving an invoice settles it and its client before the new one is touched. */
  lemma LeaveInvoiceStep(b: Books, before: Payment, after: Payment, today: Day)
    requires ReconciledExcept(b, {before.invoiceId, after.invoiceId}, {})
    requires before.invoiceId in b.invoices.rows ==> before.clientId == b.invoices.rows[before.invoiceId].clientId
    requires LeaveInvoice(b, before, after, today).Success?
    ensures ReconciledExcept(LeaveInvoice(b, before, after, today).value, {after.invoiceId}, {})
    ensures LeaveInvoice(b, before, after, today).value.invoices.rows.Keys == b.invoices.rows.Keys
    ensures forall i :: i in b.invoices.rows ==>
              LeaveInvoice(b, before, after, today).value.invoices.rows[i].clientId == b.invoices.rows[i].clientId
    ensures LeaveInvoice(b, before, after, today).value.payments == b.payments
  {
    if before.invoiceId != "" && before.invoiceId != after.invoiceId {
      SyncStep(b, before.invoiceId, today, {before.invoiceId, after.invoiceId}, {});
      RecalcStep(Sync(b, before.invoiceId, today).value, before.clientId, {after.invoiceId}, {before.clientId});
    } else {
      assert forall i :: i in b.invoices.rows && i !in {after.invoiceId} ==> InvoiceSettled(b, i);
    }
  }

  lemma UpdateKeeps(b: Books, id: string, q: PaymentPatch, env: Env)
    requires Reconciled(b) && Linked(b) && RespectsLinks(b, PayUpdate(id, q, env))
    requires UpdatePayment(b, id, q, env).Success?
    ensures Reconciled(UpdatePayment(b, id, q, env).value)
  {
    var before := b.payments.rows[id];
    var after := PatchPayment(before, q);
    var b1 := b.(payments := Put(b.payments, id, after));
    PutDisturbs(b, id, after);
    LeaveInvoiceStep(b1, before, after, env.today);
    SideEffectsStep(LeaveInvoice(b1, before, after, env.today).value, after, env.today);
  }

  lemma DropDisturbs(b: Books, id: string)
    requires Reconciled(b) && id in b.payments.rows
    ensures ReconciledExcept(b.(payments := Drop(b.payments, id)), {b.payments.rows[id].invoiceId}, {})
  {
    DropSound(b.payments, id);
    forall i | i in b.invoices.rows && i != b.payments.rows[id].invoiceId
      ensures PaidOn(Drop(b.payments, id), i) == PaidOn(b.payments, i)
    {
      PaidOnDrop(b.payments, id, i);
    }
    PaymentsWritten(b, Drop(b.payments, id), {b.payments.rows[id].invoiceId});
  }

  lemma DeleteKeeps(b: Books, id: string, env: Env)
    requires Reconciled(b) && Linked(b)
    requires DeletePayment(b, id, env).Success?
    ensures Reconciled(DeletePayment(b, id, env).value)
  {
    var p := b.payments.rows[id];
    DropDisturbs(b, id);
    SideEffectsStep(b.(payments := Drop(b.payments, id)), p, env.today);
  }

  /** Archiving and restoring rewrite a payment in place on its own invoice. */
  lemma RewriteKeeps(b: Books, id: string, p: Payment, today: Day)
    requires Reconciled(b) && Linked(b) && id in b.payments.rows
    requires p.invoiceId == b.payments.rows[id].invoiceId && p.clientId == b.payments.rows[id].clientId
    ensures var r := SideEffects(b.(payments := Put(b.payments, id, p)), p, today);
            r.Success? ==> Reconciled(r.value)
  {
    var b1 := b.(payments := Put(b.payments, id, p));
    PutDisturbs(b, id, p);
    assert {b.payments.rows[id].invoiceId, p.invoiceId} == {p.invoiceId};
    if SideEffects(b1, p, today).Success? {
      SideEffectsStep(b1, p, today);
    }
  }

  lemma ArchiveKeeps(b: Books, id: string, env: Env)
    requires Reconciled(b) && Linked(b)
    requires ArchivePayment(b, id, env).Success?
    ensures Reconciled(ArchivePayment(b, id, env).value)
  {
    var p := b.payments.rows[id];
    RewriteKeeps(b, id, p.(archived := true), env.today);
    var b1 := b.(payments := Put(b.payments, id, p.(archived := true)));
    assert SideEffects(b1, p, env.today) == SideEffects(b1, p.(archived := true), env.today);
  }

  lemma InvoiceInsert(b: Books, id: string, inv: Invoice)
    requires Reconciled(b) && id !in b.invoices.rows && id != ""
    requires inv.paid == 0 && (inv.status.Draft? || inv.status.Sent?) && inv.remaining == Remaining(inv.total, 0)
    requires forall p :: p in b.payments.rows ==> b.payments.rows[p].invoiceId != id
    ensures ReconciledExcept(b.(invoices := Insert(b.invoices, id, inv)), {}, {inv.clientId})
  {
    var b' := b.(invoices := Insert(b.invoices, id, inv));
    forall i | i in b'.invoices.rows
      ensures InvoiceSettled(b', i)
    {
      if i == id {
        NewInvoiceSettled(b', id);
      } else {
        assert InvoiceSettled(b, i);
      }
    }
    forall c | c in b'.clients.rows && c !in {inv.clientId}
      ensures ClientSettled(b', c)
    {
      assert ClientSettled(b, c);
      ClientTotalsInsert(b.invoices, id, inv, c);
    }
  }

  /** An invoice without payments, unpaid and a draft or sent, is settled. */
  lemma NewInvoiceSettled(b: Books, id: string)
    requires id in b.invoices.rows && forall p :: p in b.payments.rows ==> b.payments.rows[p].invoiceId != id
    requires var inv := b.invoices.rows[id];
             inv.paid == 0 && (inv.status.Draft? || inv.status.Sent?) && inv.remaining == Remaining(inv.total, 0)
    ensures InvoiceSettled(b, id)
  {
    var inv := b.invoices.rows[id];
    SumZero(b.payments.order, PaidWeight(b.payments.rows, id));
    assert PaidOn(b.payments, id) == 0;
    var day := if inv.due.Some? then inv.due.value else 0;
    assert inv == Settle(inv, 0, day);
  }

  /** A new invoice moves only the totals of the client it names. */
  lemma ClientTotalsInsert(t: Table<Invoice>, id: string, inv: Invoice, c: string)
    requires Sound(t) && id !in t.rows && c != inv.clientId
    ensures RevenueOf(Insert(t, id, inv), c) == RevenueOf(t, c)
    ensures OutstandingOf(Insert(t, id, inv), c) == OutstandingOf(t, c)
  {
    var rows := Insert(t, id, inv).rows;
    SumAppend(t.order, id, RevenueWeight(rows, c));
    SumAppend(t.order, id, OutstandingWeight(rows, c));
    SumSame(t.order, RevenueWeight(t.rows, c), RevenueWeight(rows, c));
    SumSame(t.order, OutstandingWeight(t.rows, c), OutstandingWeight(rows, c));
  }

  lemma CreateInvoiceKeeps(b: Books, given: string, inv: Invoice, env: Env)
    requires Reconciled(b) && RespectsLinks(b, InvCreate(given, inv, env))
    requires CreateInvoice(b, given, inv, env).Success?
    ensures Reconciled(CreateInvoice(b, given, inv, env).value)
  {
    var id := IdFor(given, env);
    InvoiceInsert(b, id, Drafted(inv));
    RecalcStep(b.(invoices := Insert(b.invoices, id, Drafted(inv))), inv.clientId, {}, {inv.clientId});
  }

  lemma UpdateInvoiceKeeps(b: Books, id: string, q: InvoicePatch, env: Env)
    requires Reconciled(b)
    requires UpdateInvoice(b, id, q, env).Success?
    ensures Reconciled(UpdateInvoice(b, id, q, env).value)
  {
    var before := b.invoices.rows[id];
    var after := PatchInvoice(before, q);
    var both := {before.clientId, after.clientId};
    InvoicePut(b, id, after, {}, {});
    var b1 := b.(invoices := Put(b.invoices, id, after));
    SyncStep(b1, id, env.today, {id}, both);
    var b2 := Sync(b1, id, env.today).value;
    RecalcStep(b2, before.clientId, {}, both);
    var b3 := if before.clientId != after.clientId then RecalcIfAny(b2, before.clientId) else b2;
    RecalcStep(b3, after.clientId, {}, {after.clientId});
  }

  lemma CallKeeps(b: Books, call: Call)
    requires Reconciled(b) && Linked(b) && RespectsLinks(b, call)
    ensures Reconciled(Step(b, call))
  {
    if Outcome(b, call).Success? {
      match call
      case PayCreate(d, env) => CreateKeeps(b, d, env);
      case PayUpdate(id, q, env) => UpdateKeeps(b, id, q, env);
      case PayDelete(id, env) => DeleteKeeps(b, id, env);
      case PayArchive(id, env) => ArchiveKeeps(b, id, env);
      case PayRestore(id, env) => RewriteKeeps(b, id, Restored(b.payments.rows[id]), env.today);
      case InvCreate(id, inv, env) => CreateInvoiceKeeps(b, id, inv, env);
      case InvUpdate(id, q, env) => UpdateInvoiceKeeps(b, id, q, env);
    }
  }

  // --- links ---

  /** The same invoices, naming the same clients over the same totals, and the
      same clients: only derived fields may differ. */
  ghost predicate SameTerms(b: Books, b': Books) {
    && b'.invoices.rows.Keys == b.invoices.rows.Keys && b'.invoices.order == b.invoices.order
    && b'.clients.rows.Keys == b.clients.rows.Keys && b'.clients.order == b.clients.order
    && (forall i :: i in b.invoices.rows ==> b'.invoices.rows[i].clientId == b.invoices.rows[i].clientId
                                             && b'.invoices.rows[i].total == b.invoices.rows[i].total)
  }

  lemma SyncFrame(b: Books, id: string, today: Day)
    requires Sync(b, id, today).Success?
    ensures Sync(b, id, today).value.payments == b.payments && SameTerms(b, Sync(b, id, today).value)
    ensures Sync(b, id, today).value.clients == b.clients
  {
  }

  lemma RecalcFrame(b: Books, c: string)
    ensures RecalcIfAny(b, c).payments == b.payments && SameTerms(b, RecalcIfAny(b, c))
    ensures RecalcIfAny(b, c).invoices == b.invoices
    ensures forall k :: k in b.clients.rows && k != c ==> RecalcIfAny(b, c).clients.rows[k] == b.clients.rows[k]
  {
  }

  lemma SideEffectsFrame(b: Books, p: Payment, today: Day)
    requires SideEffects(b, p, today).Success?
    ensures var b' := SideEffects(b, p, today).value;
            b'.payments == b.payments && SameTerms(b, b')
  {
  }

  lemma LeaveInvoiceFrame(b: Books, before: Payment, after: Payment, today: Day)
    requires LeaveInvoice(b, before, after, today).Success?
    ensures var b' := LeaveInvoice(b, before, after, today).value;
            b'.payments == b.payments && SameTerms(b, b')
  {
  }

  /** The payments a successful payment call leaves. */
  function PaymentsAfter(b: Books, call: Call): Table<Payment> {
    match call
    case PayCreate(d, env) => Insert(b.payments, IdFor(d.id, env), Enriched(b, d.payment, env))
    case PayUpdate(id, q, env) =>
      if id in b.payments.rows then Put(b.payments, id, PatchPayment(b.payments.rows[id], q)) else b.payments
    case PayDelete(id, env) => Drop(b.payments, id)
    case PayArchive(id, env) =>
      if id in b.payments.rows then Put(b.payments, id, b.payments.rows[id].(archived := true)) else b.payments
    case PayRestore(id, env) =>
      if id in b.payments.rows then Put(b.payments, id, Restored(b.payments.rows[id])) else b.payments
    case _ => b.payments
  }

  /** A successful payment call writes exactly its payment; no invoice changes
      its client or total. */
  lemma PaymentCallFrame(b: Books, call: Call)
    requires Outcome(b, call).Success? && !call.InvCreate? && !call.InvUpdate?
    ensures var b' := Outcome(b, call).value;
            b'.payments == PaymentsAfter(b, call) && SameTerms(b, b')
  {
    var b1 := b.(payments := PaymentsAfter(b, call));
    match call
    case PayCreate(d, env) =>
      CreateMeans(b, d, env);
      SideEffectsFrame(b1, Enriched(b, d.payment, env), env.today);
    case PayUpdate(id, q, env) =>
      var before := b.payments.rows[id];
      var after := PatchPayment(before, q);
      LeaveInvoiceFrame(b1, before, after, env.today);
      SideEffectsFrame(LeaveInvoice(b1, before, after, env.today).value, after, env.today);
    case PayDelete(id, env) => SideEffectsFrame(b1, b.payments.rows[id], env.today);
    case PayArchive(id, env) => SideEffectsFrame(b1, b.payments.rows[id], env.today);
    case PayRestore(id, env) => SideEffectsFrame(b1, Restored(b.payments.rows[id]), env.today);
  }

  lemma PaymentLinksKept(b: Books, call: Call)
    requires Linked(b) && RespectsLinks(b, call)
    requires Outcome(b, call).Success? && !call.InvCreate? && !call.InvUpdate?
    ensures Linked(Step(b, call))
  {
    PaymentCallFrame(b, call);
  }

  /** An invoice update rewrites that invoice and derived fields only. */
  lemma UpdateInvoiceFrame(b: Books, id: string, q: InvoicePatch, env: Env)
    requires UpdateInvoice(b, id, q, env).Success?
    ensures var b' := UpdateInvoice(b, id, q, env).value;
            && id in b.invoices.rows && b'.payments == b.payments
            && SameTerms(b.(invoices := Put(b.invoices, id, PatchInvoice(b.invoices.rows[id], q))), b')
  {
    var before := b.invoices.rows[id];
    var b1 := b.(invoices := Put(b.invoices, id, PatchInvoice(before, q)));
    SyncFrame(b1, id, env.today);
    var b2 := Sync(b1, id, env.today).value;
    RecalcFrame(b2, before.clientId);
    RecalcFrame(b2, PatchInvoice(before, q).clientId);
    RecalcFrame(RecalcIfAny(b2, before.clientId), PatchInvoice(before, q).clientId);
  }

  lemma NewInvoiceLinks(b: Books, given: string, inv: Invoice, env: Env)
    requires Linked(b) && CreateInvoice(b, given, inv, env).Success?
    requires forall p :: p in b.payments.rows ==> b.payments.rows[p].invoiceId != IdFor(given, env)
    ensures Linked(CreateInvoice(b, given, inv, env).value)
  {
  }

  lemma ChangedInvoiceLinks(b: Books, id: string, q: InvoicePatch, env: Env)
    requires Linked(b) && UpdateInvoice(b, id, q, env).Success?
    requires forall p :: p in b.payments.rows && b.payments.rows[p].invoiceId == id
               ==> b.payments.rows[p].clientId == PatchInvoice(b.invoices.rows[id], q).clientId
    ensures Linked(UpdateInvoice(b, id, q, env).value)
  {
    UpdateInvoiceFrame(b, id, q, env);
  }

  lemma LinksKept(b: Books, call: Call)
    requires Linked(b) && RespectsLinks(b, call)
    ensures Linked(Step(b, call))
  {
    if Outcome(b, call).Success? {
      match call
      case InvCreate(id, inv, env) => NewInvoiceLinks(b, id, inv, env);
      case InvUpdate(id, q, env) => ChangedInvoiceLinks(b, id, q, env);
      case _ => PaymentLinksKept(b, call);
    }
  }

  /** Every call of the run respects links in the state it meets. */
  ghost predicate RunRespectsLinks(b: Books, calls: seq<Call>)
    decreases |calls|
  {
    calls == [] || (RespectsLinks(b, calls[0]) && RunRespectsLinks(Step(b, calls[0]), calls[1..]))
  }

  /** Over every run, incremental bookkeeping equals the from-scratch totals. */
  lemma {:induction false} RunReconciled(b: Books, calls: seq<Call>)
    requires Reconciled(b) && Linked(b) && RunRespectsLinks(b, calls)
    ensures Reconciled(Run(b, calls)) && Linked(Run(b, calls))
    decreases |calls|
  {
    if calls != [] {
      CallKeeps(b, calls[0]);
      LinksKept(b, calls[0]);
      RunReconciled(Step(b, calls[0]), calls[1..]);
    }
  }
}
