/** The payment and invoice services over the stored tables: every call runs in a
    transaction, rolled back on the first error. Each method is proved against
    the function of Finance or Repair that says what the call makes of the books. */
module BackOfficeService {
  import opened Tables
  import opened Sums
  import opened Money
  import opened Finance
  import opened Repair
  import Text

  class BackOffice {
    var invoices: Table<Invoice>
    var payments: Table<Payment>
    var clients: Table<Client>

    function State(): Books
      reads this
    {
      Books(invoices, payments, clients)
    }

    constructor (b: Books)
      ensures State() == b
    {
      invoices, payments, clients := b.invoices, b.payments, b.clients;
    }

    /** What a failed transaction does: back to the snapshot taken at its start. */
    method Rollback(snapshot: Books)
      modifies this
      ensures State() == snapshot
    {
      invoices, payments, clients := snapshot.invoices, snapshot.payments, snapshot.clients;
    }

    // --- shared synchronisation ---

    method PaidSoFar(invoiceId: string) returns (paid: int)
      ensures paid == PaidOn(payments, invoiceId)
    {
      paid := 0;
      for i := 0 to |payments.order|
        invariant paid == Sum(payments.order[..i], PaidWeight(payments.rows, invoiceId))
      {
        var id := payments.order[i];
        SumAppend(payments.order[..i], id, PaidWeight(payments.rows, invoiceId));
        assert payments.order[..i + 1] == payments.order[..i] + [id];
        if id !in payments.rows || payments.rows[id].invoiceId != invoiceId {
          continue;
        }
        if payments.rows[id].archived {
          continue;
        }
        if !payments.rows[id].status.Completed? {
          continue;
        }
        paid := paid + payments.rows[id].amount;
      }
      assert payments.order[..|payments.order|] == payments.order;
    }

    method SyncInvoiceFromPayments(invoiceId: string, today: Day) returns (r: Result<(), Error>)
      modifies this
      ensures var s := Sync(old(State()), invoiceId, today);
              State() == (if s.Success? then s.value else old(State()))
              && (r.Success? <==> s.Success?) && (r.Failure? ==> r.error == s.error)
      ensures r.Success? && invoiceId != "" ==>
                && invoiceId in old(invoices).rows && invoiceId in invoices.rows
                && Shows(invoices.rows[invoiceId], old(invoices).rows[invoiceId].status, PaidOn(payments, invoiceId),
                         today)
    {
      if invoiceId == "" {
        return Success(());
      }
      if invoiceId !in invoices.rows {
        return Failure(NotFound);
      }
      var inv := invoices.rows[invoiceId];
      var paid := PaidSoFar(invoiceId);
      var status := DeriveStatus(inv.status, inv.due, inv.total, paid, today);
      var remaining := Remaining(inv.total, paid);
      invoices := Put(invoices, invoiceId, inv.(paid := paid, status := status, remaining := remaining));
      return Success(());
    }

    method RecalcClientFinancials(clientId: string) returns (r: Result<(), Error>)
      modifies this
      ensures State() == RecalcIfAny(old(State()), clientId)
      ensures r.Success? <==> Recalc(old(State()), clientId).Success?
      ensures r.Failure? ==> r.error == Recalc(old(State()), clientId).error
    {
      if clientId == "" {
        return Success(());
      }
      if clientId !in clients.rows {
        return Failure(NotFound);
      }
      var revenue, outstanding := 0, 0;
      for i := 0 to |invoices.order|
        invariant State() == old(State())
        invariant revenue == Sum(invoices.order[..i], RevenueWeight(invoices.rows, clientId))
        invariant outstanding == Sum(invoices.order[..i], OutstandingWeight(invoices.rows, clientId))
      {
        var id := invoices.order[i];
        SumAppend(invoices.order[..i], id, RevenueWeight(invoices.rows, clientId));
        SumAppend(invoices.order[..i], id, OutstandingWeight(invoices.rows, clientId));
        assert invoices.order[..i + 1] == invoices.order[..i] + [id];
        if id !in invoices.rows || !Live(invoices.rows[id]) || invoices.rows[id].clientId != clientId {
          continue;
        }
        var inv := invoices.rows[id];
        if inv.status.Paid? {
          revenue := revenue + inv.total;
        }
        if IsOutstanding(inv.status) {
          outstanding := outstanding + Remaining(inv.total, inv.paid);
        }
      }
      assert invoices.order[..|invoices.order|] == invoices.order;
      clients := Put(clients, clientId, clients.rows[clientId].(revenue := revenue, outstanding := outstanding));
      return Success(());
    }

    method RemainingBalance(invoiceId: string, excludeId: string) returns (balance: int)
      ensures balance == Balance(State(), invoiceId, excludeId)
    {
      if invoiceId !in invoices.rows {
        return 0;
      }
      ghost var w := ExcludingWeight(payments.rows, invoiceId, excludeId);
      var paid := 0;
      for i := 0 to |payments.order|
        invariant paid == Sum(payments.order[..i], w)
      {
        var id := payments.order[i];
        SumAppend(payments.order[..i], id, w);
        assert payments.order[..i + 1] == payments.order[..i] + [id];
        if id !in payments.rows || payments.rows[id].invoiceId != invoiceId || payments.rows[id].archived {
          continue;
        }
        if !payments.rows[id].status.Completed? || (excludeId != "" && id == excludeId) {
          continue;
        }
        paid := paid + payments.rows[id].amount;
      }
      assert payments.order[..|payments.order|] == payments.order;
      return Remaining(invoices.rows[invoiceId].total, paid);
    }

    method AssertValid(p: Payment, excludeId: string) returns (r: Result<(), Error>)
      ensures r == Validate(State(), p, excludeId)
    {
      if p.invoiceId == "" {
        return Failure(Validation);
      }
      if p.amount <= 0 {
        return Failure(Validation);
      }
      var remaining := RemainingBalance(p.invoiceId, excludeId);
      if p.amount > remaining {
        return Failure(Validation);
      }
      var reference := Text.Trim(p.reference);
      if reference == "" {
        return Success(());
      }
      for i := 0 to |payments.order|
        invariant forall k :: 0 <= k < i ==>
                    var id := payments.order[k];
                    !(id in payments.rows && !(excludeId != "" && id == excludeId)
                      && SameReference(payments.rows[id], p.invoiceId, p.reference))
      {
        var id := payments.order[i];
        if id !in payments.rows || payments.rows[id].invoiceId != p.invoiceId || (excludeId != "" && id == excludeId) {
          continue;
        }
        if !payments.rows[id].status.Completed? {
          continue;
        }
        if Text.EqualFold(Text.Trim(payments.rows[id].reference), reference) {
          assert ReferenceTaken(payments, p.invoiceId, p.reference, excludeId);
          return Failure(Conflict);
        }
      }
      return Success(());
    }

    method SyncPaymentSideEffects(p: Payment, today: Day) returns (r: Result<(), Error>)
      modifies this
      ensures var s := SideEffects(old(State()), p, today);
              (r.Success? <==> s.Success?) && (r.Failure? ==> r.error == s.error)
              && (s.Success? ==> State() == s.value)
    {
      var affected := p.clientId;
      if p.invoiceId != "" {
        r := SyncInvoiceFromPayments(p.invoiceId, today);
        if r.Failure? {
          return;
        }
        if affected == "" {
          affected := invoices.rows[p.invoiceId].clientId;
        }
      }
      r := RecalcClientFinancials(affected);
    }

    // --- payments ---

    method CreatePaymentCall(d: PaymentDraft, env: Env) returns (r: Result<Payment, Error>)
      modifies this
      ensures State() == Step(old(State()), PayCreate(d, env))
      ensures r.Success? <==> CreatePayment(old(State()), d, env).Success?
      ensures r.Success? ==> r.value == Enriched(old(State()), d.payment, env)
      ensures r.Failure? ==> r.error == CreatePayment(old(State()), d, env).error
    {
      var snapshot := State();
      var p := d.payment;
      if p.status.Blank? {
        p := p.(status := Completed(true));
      }
      if p.reference == "" {
        p := p.(reference := env.stamp);
      }
      if p.invoiceId in invoices.rows && p.clientId == "" {
        p := p.(clientId := invoices.rows[p.invoiceId].clientId);
      }
      assert p == Enriched(snapshot, d.payment, env);
      var valid := AssertValid(p, "");
      if valid.Failure? {
        return Failure(valid.error);
      }
      var id := if d.id == "" then env.nextId else d.id;
      if id in payments.rows {
        return Failure(Conflict);
      }
      payments := Insert(payments, id, p);
      var synced := SyncPaymentSideEffects(p, env.today);
      if synced.Failure? {
        Rollback(snapshot);
        return Failure(synced.error);
      }
      return Success(p);
    }

    method UpdatePaymentCall(id: string, q: PaymentPatch, env: Env) returns (r: Result<Payment, Error>)
      modifies this
      ensures State() == Step(old(State()), PayUpdate(id, q, env))
      ensures r.Success? <==> UpdatePayment(old(State()), id, q, env).Success?
      ensures r.Success? ==> r.value == PatchPayment(old(State()).payments.rows[id], q)
      ensures r.Failure? ==> r.error == UpdatePayment(old(State()), id, q, env).error
    {
      var snapshot := State();
      if id !in payments.rows {
        return Failure(NotFound);
      }
      var before := payments.rows[id];
      var after := PatchPayment(before, q);
      var valid := AssertValid(after, id);
      if valid.Failure? {
        return Failure(valid.error);
      }
      payments := Put(payments, id, after);
      var synced: Result<(), Error>;
      if before.invoiceId != "" && before.invoiceId != after.invoiceId {
        synced := SyncInvoiceFromPayments(before.invoiceId, env.today);
        if synced.Failure? {
          Rollback(snapshot);
          return Failure(synced.error);
        }
        if before.clientId != "" {
          var _ := RecalcClientFinancials(before.clientId);
        }
      }
      ghost var patched := snapshot.(payments := Put(snapshot.payments, id, after));
      assert State() == LeaveInvoice(patched, before, after, env.today).value;
      synced := SyncPaymentSideEffects(after, env.today);
      if synced.Failure? {
        Rollback(snapshot);
        return Failure(synced.error);
      }
      return Success(after);
    }

    method DeletePaymentCall(id: string, env: Env) returns (r: Result<(), Error>)
      modifies this
      ensures State() == Step(old(State()), PayDelete(id, env))
      ensures r.Success? <==> DeletePayment(old(State()), id, env).Success?
    {
      var snapshot := State();
      if id !in payments.rows {
        return Failure(NotFound);
      }
      var before := payments.rows[id];
      payments := Drop(payments, id);
      r := SyncPaymentSideEffects(before, env.today);
      if r.Failure? {
        Rollback(snapshot);
      }
    }

    method ArchivePaymentCall(id: string, env: Env) returns (r: Result<(), Error>)
      modifies this
      ensures State() == Step(old(State()), PayArchive(id, env))
      ensures r.Success? <==> ArchivePayment(old(State()), id, env).Success?
    {
      var snapshot := State();
      if id !in payments.rows {
        return Failure(NotFound);
      }
      var before := payments.rows[id];
      payments := Put(payments, id, before.(archived := true));
      r := SyncPaymentSideEffects(before, env.today);
      if r.Failure? {
        Rollback(snapshot);
      }
    }

    method RestorePaymentCall(id: string, env: Env) returns (r: Result<(), Error>)
      modifies this
      ensures State() == Step(old(State()), PayRestore(id, env))
      ensures r.Success? <==> RestorePayment(old(State()), id, env).Success?
    {
      var snapshot := State();
      if id !in payments.rows {
        return Failure(NotFound);
      }
      var p := payments.rows[id].(archived := false);
      if p.status.ArchivedWord? {
        p := p.(status := Active);
      }
      payments := Put(payments, id, p);
      r := SyncPaymentSideEffects(p, env.today);
      if r.Failure? {
        Rollback(snapshot);
      }
    }

    // --- invoices ---

    method CreateInvoiceCall(given: string, inv: Invoice, env: Env) returns (r: Result<Invoice, Error>)
      modifies this
      ensures State() == Step(old(State()), InvCreate(given, inv, env))
      ensures r.Success? <==> CreateInvoice(old(State()), given, inv, env).Success?
    {
      var snapshot := State();
      var stored := inv.(remaining := Remaining(inv.total, inv.paid));
      if stored.status == InvoiceStatus.Other("") {
        stored := stored.(status := Draft);
      }
      var id := if given == "" then env.nextId else given;
      if id in invoices.rows {
        return Failure(Conflict);
      }
      invoices := Insert(invoices, id, stored);
      if inv.clientId != "" {
        var recalculated := RecalcClientFinancials(inv.clientId);
        if recalculated.Failure? {
          Rollback(snapshot);
          return Failure(recalculated.error);
        }
      }
      return Success(stored);
    }

    method UpdateInvoiceCall(id: string, q: InvoicePatch, env: Env) returns (r: Result<Invoice, Error>)
      modifies this
      ensures State() == Step(old(State()), InvUpdate(id, q, env))
      ensures r.Success? <==> UpdateInvoice(old(State()), id, q, env).Success?
      ensures r.Success? ==> r.value == State().invoices.rows[id]
    {
      if id !in invoices.rows {
        return Failure(NotFound);
      }
      var before := invoices.rows[id];
      var after := PatchInvoice(before, q);
      invoices := Put(invoices, id, after);
      var synced := SyncInvoiceFromPayments(id, env.today);
      if before.clientId != "" && before.clientId != after.clientId {
        var _ := RecalcClientFinancials(before.clientId);
      }
      if after.clientId != "" {
        var _ := RecalcClientFinancials(after.clientId);
      }
      return Success(invoices.rows[id]);
    }

    // --- repair ---

    /** Resyncs every invoice, then recalculates the owning clients in whatever
        order the set of touched clients is walked. */
    method RepairAllFinancials(today: Day) returns (r: Result<nat, Error>)
      requires Sound(invoices)
      modifies this
      ensures var s := RepairAll(old(State()), today);
              State() == (if s.Success? then s.value else old(State()))
              && (r.Success? <==> s.Success?)
      ensures r.Success? ==> r.value == |old(invoices).order|
    {
      var snapshot := State();
      var n, touched := SettleAll(today);
      SettledAtEnds(snapshot, today);
      var done := RecalcAll(touched);
      if !done {
        Rollback(snapshot);
        return Failure(NotFound);
      }
      return Success(n);
    }

    /** Resyncs every invoice and collects the clients that own one. */
    method SettleAll(today: Day) returns (n: nat, touched: set<string>)
      requires Sound(invoices)
      modifies this
      ensures n == |old(invoices).order| && touched == Owners(old(invoices))
      ensures State() == PartlySettled(old(State()), today, old(invoices).rows.Keys)
    {
      var snapshot := State();
      var order := invoices.order;
      SettledAtEnds(snapshot, today);
      touched, n := {}, 0;
      for i := 0 to |order|
        invariant n == i
        invariant State() == PartlySettled(snapshot, today, Elements(order[..i]))
        invariant touched == OwnersAmong(snapshot.invoices, order[..i])
      {
        SettleInvoice(snapshot, today, i);
        n := n + 1;
        OwnersNext(snapshot.invoices, i);
        var owner := snapshot.invoices.rows[order[i]].clientId;
        if owner != "" {
          touched := touched + {owner};
        }
      }
      AllOwners(snapshot.invoices);
    }

    /** Syncs the next invoice of the order list. */
    method SettleInvoice(snapshot: Books, today: Day, i: nat)
      requires Sound(snapshot.invoices) && i < |snapshot.invoices.order|
      requires State() == PartlySettled(snapshot, today, Elements(snapshot.invoices.order[..i]))
      modifies this
      ensures State() == PartlySettled(snapshot, today, Elements(snapshot.invoices.order[..i + 1]))
    {
      SettleNext(snapshot, today, i);
      var _ := SyncInvoiceFromPayments(snapshot.invoices.order[i], today);
    }

    /** Recalculates a set of clients; stops at the first that is missing. */
    method RecalcAll(touched: set<string>) returns (done: bool)
      requires "" !in touched
      modifies this
      ensures done <==> touched <= old(clients).rows.Keys
      ensures done ==> State() == old(State()).(clients := RecalculatedClients(old(State()), touched))
    {
      ghost var start := State();
      var left := touched;
      while left != {}
        invariant left <= touched && touched - left <= start.clients.rows.Keys
        invariant State() == start.(clients := RecalculatedClients(start, touched - left))
        decreases left
      {
        var c :| c in left;
        var before := State();
        var recalculated := RecalcClientFinancials(c);
        if recalculated.Failure? {
          return false;
        }
        left := left - {c};
        assert clients.rows == RecalculatedClients(start, touched - left).rows;
      }
      assert touched - left == touched;
      return true;
    }
  }

  ghost function Elements(ids: seq<string>): set<string> {
    set id | id in ids
  }

  /** One more invoice of the order list settled. */
  lemma SettleNext(b: Books, today: Day, i: nat)
    requires Sound(b.invoices) && i < |b.invoices.order|
    ensures var order := b.invoices.order;
            && order[i] in b.invoices.rows
            && Sync(PartlySettled(b, today, Elements(order[..i])), order[i], today)
               == Success(PartlySettled(b, today, Elements(order[..i + 1])))
  {
    var order := b.invoices.order;
    PrefixStep(order, i);
    assert order[i] in order;
    assert Elements(order[..i + 1]) == Elements(order[..i]) + {order[i]};
    SettleOne(b, today, Elements(order[..i]), order[i]);
  }

  lemma OwnersNext(t: Table<Invoice>, i: nat)
    requires Sound(t) && i < |t.order|
    ensures t.order[i] in t.rows
    ensures OwnersAmong(t, t.order[..i + 1])
         == OwnersAmong(t, t.order[..i])
            + (if t.rows[t.order[i]].clientId != "" then {t.rows[t.order[i]].clientId} else {})
  {
    PrefixStep(t.order, i);
    assert t.order[i] in t.order;
    OwnersAmongAppend(t, t.order[..i], t.order[i]);
  }

  function OwnersAmong(t: Table<Invoice>, ids: seq<string>): set<string> {
    set i | i in ids && i in t.rows && t.rows[i].clientId != "" :: t.rows[i].clientId
  }

  lemma OwnersAmongAppend(t: Table<Invoice>, ids: seq<string>, id: string)
    requires id in t.rows
    ensures OwnersAmong(t, ids + [id])
            == OwnersAmong(t, ids) + (if t.rows[id].clientId != "" then {t.rows[id].clientId} else {})
  {
    assert forall i :: i in ids + [id] <==> i in ids || i == id;
  }

  lemma AllOwners(t: Table<Invoice>)
    requires Sound(t)
    ensures t.order[..|t.order|] == t.order
    ensures OwnersAmong(t, t.order) == Owners(t) && Elements(t.order) == t.rows.Keys
  {
    assert forall i :: i in t.order <==> i in t.rows;
  }
}
