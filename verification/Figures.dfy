/** What the derived figures mean in terms of totals, payments and days alone. */
module Figures {
  import opened Tables
  import opened Sums
  import opened Money
  import opened Finance
  import opened Reconciliation
  import opened PaymentLaws
  import opened Repair
  import opened ExactReconciliation

  // --- an invoice on a day ---

  /** A sync on a day leaves the invoice showing that day. */
  lemma SyncShows(b: Books, id: string, today: Day)
    requires id != "" && Sync(b, id, today).Success?
    ensures var b' := Sync(b, id, today).value;
            && id in b.invoices.rows && id in b'.invoices.rows
            && Shows(b'.invoices.rows[id], b.invoices.rows[id].status, PaidOn(b.payments, id), today)
  {
  }

  lemma SideEffectsShow(b: Books, p: Payment, today: Day)
    requires p.invoiceId != "" && SideEffects(b, p, today).Success?
    ensures var b' := SideEffects(b, p, today).value;
            && p.invoiceId in b.invoices.rows && p.invoiceId in b'.invoices.rows
            && Shows(b'.invoices.rows[p.invoiceId], b.invoices.rows[p.invoiceId].status,
                     PaidOn(b.payments, p.invoiceId), today)
  {
    SyncShows(b, p.invoiceId, today);
    var c := AffectedClient(b, p);
    RecalcFrame(Sync(b, p.invoiceId, today).value, c);
  }

  predicate PaymentCall(call: Call) {
    !call.InvCreate? && !call.InvUpdate?
  }

  /** Whatever payment call succeeds, the invoice its payment is on then shows the day of
      the call and the payments there now are. */
  lemma PaymentCallShows(b: Books, call: Call)
    requires PaymentCall(call) && Outcome(b, call).Success?
    ensures !call.PayCreate? ==> call.id in b.payments.rows
    ensures var i := Affecting(b, call).invoiceId;
            i != "" ==>
              var b' := Outcome(b, call).value;
              && i in b.invoices.rows && i in b'.invoices.rows
              && Shows(b'.invoices.rows[i], b.invoices.rows[i].status, PaidOn(b'.payments, i), call.env.today)
  {
    PaymentCallFrame(b, call);
    var b1 := Written(b, call);
    match call
    case PayCreate(d, env) => CreateShows(b, d, env);
    case PayUpdate(id, q, env) => UpdateShows(b, id, q, env);
    case PayDelete(id, env) =>
      if b.payments.rows[id].invoiceId != "" {
        SideEffectsShow(b1, b.payments.rows[id], env.today);
      }
    case PayArchive(id, env) =>
      if b.payments.rows[id].invoiceId != "" {
        SideEffectsShow(b1, b.payments.rows[id], env.today);
      }
    case PayRestore(id, env) =>
      if b.payments.rows[id].invoiceId != "" {
        SideEffectsShow(b1, Restored(b.payments.rows[id]), env.today);
      }
  }

  lemma CreateShows(b: Books, d: PaymentDraft, env: Env)
    requires CreatePayment(b, d, env).Success?
    ensures var p, b' := Enriched(b, d.payment, env), CreatePayment(b, d, env).value;
            && p.invoiceId in b.invoices.rows && p.invoiceId in b'.invoices.rows
            && Shows(b'.invoices.rows[p.invoiceId], b.invoices.rows[p.invoiceId].status,
                     PaidOn(Written(b, PayCreate(d, env)).payments, p.invoiceId), env.today)
  {
    CreateMeans(b, d, env);
    SideEffectsShow(Written(b, PayCreate(d, env)), Enriched(b, d.payment, env), env.today);
  }

  lemma UpdateShows(b: Books, id: string, q: PaymentPatch, env: Env)
    requires UpdatePayment(b, id, q, env).Success?
    ensures id in b.payments.rows
    ensures var after, b' := PatchPayment(b.payments.rows[id], q), UpdatePayment(b, id, q, env).value;
            && after.invoiceId in b.invoices.rows && after.invoiceId in b'.invoices.rows
            && Shows(b'.invoices.rows[after.invoiceId], b.invoices.rows[after.invoiceId].status,
                     PaidOn(Written(b, PayUpdate(id, q, env)).payments, after.invoiceId), env.today)
  {
    UpdateMeans(b, id, q, env);
    var before, after := b.payments.rows[id], PatchPayment(b.payments.rows[id], q);
    var b1 := Written(b, PayUpdate(id, q, env));
    var left := LeaveInvoice(b1, before, after, env.today).value;
    LeftAlone(b1, before, after, env.today);
    SideEffectsShow(left, after, env.today);
  }

  /** Leaving an invoice does not touch the other. */
  lemma LeftAlone(b: Books, before: Payment, after: Payment, today: Day)
    requires LeaveInvoice(b, before, after, today).Success?
    ensures var l := LeaveInvoice(b, before, after, today).value;
            l.payments == b.payments && (after.invoiceId in l.invoices.rows <==> after.invoiceId in b.invoices.rows)
            && (after.invoiceId in b.invoices.rows
                ==> l.invoices.rows[after.invoiceId] == b.invoices.rows[after.invoiceId])
  {
    if before.invoiceId != "" && before.invoiceId != after.invoiceId {
      RecalcFrame(Sync(b, before.invoiceId, today).value, before.clientId);
    }
  }

  /** When a payment moves, the invoice it leaves shows the day too. */
  lemma LeaveShows(b: Books, before: Payment, after: Payment, today: Day)
    requires before.invoiceId != "" && before.invoiceId != after.invoiceId
    requires LeaveInvoice(b, before, after, today).Success?
    ensures var i, l := before.invoiceId, LeaveInvoice(b, before, after, today).value;
            && i in b.invoices.rows && i in l.invoices.rows
            && Shows(l.invoices.rows[i], b.invoices.rows[i].status, PaidOn(b.payments, i), today)
  {
    SyncShows(b, before.invoiceId, today);
    RecalcFrame(Sync(b, before.invoiceId, today).value, before.clientId);
  }

  /** A successful invoice update leaves the invoice showing its day, as patched. */
  lemma InvoiceUpdateShows(b: Books, id: string, q: InvoicePatch, env: Env)
    requires id != "" && UpdateInvoice(b, id, q, env).Success?
    ensures var b' := UpdateInvoice(b, id, q, env).value;
            && id in b.invoices.rows && id in b'.invoices.rows
            && Shows(b'.invoices.rows[id], PatchInvoice(b.invoices.rows[id], q).status, PaidOn(b.payments, id),
                     env.today)
  {
    var before, after := b.invoices.rows[id], PatchInvoice(b.invoices.rows[id], q);
    var b1 := b.(invoices := Put(b.invoices, id, after));
    SyncShows(b1, id, env.today);
    var synced := Sync(b1, id, env.today).value;
    RecalcFrame(synced, before.clientId);
    RecalcFrame(synced, after.clientId);
    RecalcFrame(RecalcIfAny(synced, before.clientId), after.clientId);
  }

  /** After a repair every invoice shows the day of the repair. */
  lemma RepairShows(b: Books, today: Day)
    requires RepairAll(b, today).Success?
    ensures var r := RepairAll(b, today).value;
            r.payments == b.payments && r.invoices.rows.Keys == b.invoices.rows.Keys
            && forall i :: i in b.invoices.rows ==>
                 Shows(r.invoices.rows[i], b.invoices.rows[i].status, PaidOn(b.payments, i), today)
  {
  }

  // --- when a call fails ---

  /** Someone or something the side effects of a payment need is not there: the invoice it
      names, or the client to recalculate. */
  predicate Dangling(b: Books, p: Payment) {
    || (p.invoiceId != "" && p.invoiceId !in b.invoices.rows)
    || (p.clientId != "" && p.clientId !in b.clients.rows)
    || (p.clientId == "" && p.invoiceId in b.invoices.rows && b.invoices.rows[p.invoiceId].clientId != ""
        && b.invoices.rows[p.invoiceId].clientId !in b.clients.rows)
  }

  lemma SideEffectsFailExactlyWhen(b: Books, p: Payment, today: Day)
    requires "" !in b.invoices.rows
    ensures SideEffects(b, p, today).Failure? <==> Dangling(b, p)
    ensures SideEffects(b, p, today).Failure? ==> SideEffects(b, p, today).error == NotFound
  {
    if p.invoiceId in b.invoices.rows {
      SyncFrame(b, p.invoiceId, today);
    }
  }

  /** Deleting, archiving and restoring fail exactly for a payment that is not there or whose
      invoice or client is not; creating as well when it is invalid or its id is taken. */
  lemma PaymentCallFails(b: Books, id: string, d: PaymentDraft, env: Env)
    requires "" !in b.invoices.rows
    ensures DeletePayment(b, id, env).Failure? <==> id !in b.payments.rows || Dangling(b, b.payments.rows[id])
    ensures ArchivePayment(b, id, env).Failure? <==> id !in b.payments.rows || Dangling(b, b.payments.rows[id])
    ensures RestorePayment(b, id, env).Failure? <==> id !in b.payments.rows || Dangling(b, b.payments.rows[id])
    ensures var p := Enriched(b, d.payment, env);
            CreatePayment(b, d, env).Failure?
            <==> Validate(b, p, "").Failure? || IdFor(d.id, env) in b.payments.rows || Dangling(b, p)
  {
    var p, id' := Enriched(b, d.payment, env), IdFor(d.id, env);
    SideEffectsFailExactlyWhen(b.(payments := Insert(b.payments, id', p)), p, env.today);
    if id in b.payments.rows {
      var q := b.payments.rows[id];
      SideEffectsFailExactlyWhen(b.(payments := Drop(b.payments, id)), q, env.today);
      SideEffectsFailExactlyWhen(b.(payments := Put(b.payments, id, q.(archived := true))), q, env.today);
      SideEffectsFailExactlyWhen(b.(payments := Put(b.payments, id, Restored(q))), Restored(q), env.today);
    }
  }

  // --- a client's figures from totals and payments alone ---

  /** Neither archived, nor a draft, nor cancelled. */
  predicate Charged(inv: Invoice) {
    !inv.archived && !inv.status.Draft? && !inv.status.Cancelled?
  }

  /** The totals of the client's invoices that are paid in full. */
  function EarnedFromPayments(b: Books, c: string): string -> int {
    (i: string) =>
      if i in b.invoices.rows && b.invoices.rows[i].clientId == c && Charged(b.invoices.rows[i])
         && PaidInFull(b.invoices.rows[i].total, PaidOn(b.payments, i))
      then b.invoices.rows[i].total else 0
  }

  /** What is missing on the client's invoices that are not. */
  function OwedFromPayments(b: Books, c: string): string -> int {
    (i: string) =>
      if i in b.invoices.rows && b.invoices.rows[i].clientId == c && Charged(b.invoices.rows[i])
         && b.invoices.rows[i].total > PaidOn(b.payments, i)
      then b.invoices.rows[i].total - PaidOn(b.payments, i) else 0
  }

  lemma SettledFigures(b: Books, i: string)
    requires i in b.invoices.rows && InvoiceSettled(b, i)
    ensures var inv := b.invoices.rows[i];
            && Earned(inv) == (if Charged(inv) && PaidInFull(inv.total, PaidOn(b.payments, i)) then inv.total else 0)
            && Due(inv) == (if Charged(inv) && inv.total > PaidOn(b.payments, i)
                            then inv.total - PaidOn(b.payments, i) else 0)
  {
    var inv := b.invoices.rows[i];
    var day: Day :| inv == Settle(inv, PaidOn(b.payments, i), day);
    if Charged(inv) {
      DerivedStatusTells(inv.status, inv.due, inv.total, PaidOn(b.payments, i), day);
    }
  }

  /** In reconciled books a client's revenue is the totals of its charged invoices paid in
      full, and its outstanding what is missing on its charged invoices: no derived
      figure and no day enters. */
  lemma ClientFigures(b: Books, c: string)
    requires Reconciled(b) && c in b.clients.rows
    ensures b.clients.rows[c].revenue == Sum(b.invoices.order, EarnedFromPayments(b, c))
    ensures b.clients.rows[c].outstanding == Sum(b.invoices.order, OwedFromPayments(b, c))
  {
    forall i | i in b.invoices.order
      ensures RevenueWeight(b.invoices.rows, c)(i) == EarnedFromPayments(b, c)(i)
      ensures OutstandingWeight(b.invoices.rows, c)(i) == OwedFromPayments(b, c)(i)
    {
      SettledFigures(b, i);
    }
    SumSame(b.invoices.order, RevenueWeight(b.invoices.rows, c), EarnedFromPayments(b, c));
    SumSame(b.invoices.order, OutstandingWeight(b.invoices.rows, c), OwedFromPayments(b, c));
    assert ClientSettled(b, c);
  }
}
