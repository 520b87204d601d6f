/** Repairing every derived figure from scratch. */
module Repair {
  import opened Tables
  import opened Sums
  import opened Money
  import opened Finance
  import opened Reconciliation

  function SettledInvoices(b: Books, today: Day): Table<Invoice> {
    b.invoices.(rows := map i | i in b.invoices.rows :: Settle(b.invoices.rows[i], PaidOn(b.payments, i), today))
  }

  /** A repair on its way: the done invoices settled, the others as they were. */
  function PartlySettled(b: Books, today: Day, done: set<string>): Books {
    b.(invoices := b.invoices.(rows := map i | i in b.invoices.rows ::
         if i in done then Settle(b.invoices.rows[i], PaidOn(b.payments, i), today) else b.invoices.rows[i]))
  }

  lemma SettleOne(b: Books, today: Day, done: set<string>, id: string)
    requires id in b.invoices.rows && id !in done && id != ""
    ensures Sync(PartlySettled(b, today, done), id, today) == Success(PartlySettled(b, today, done + {id}))
  {
    assert Sync(PartlySettled(b, today, done), id, today).value.invoices.rows
        == PartlySettled(b, today, done + {id}).invoices.rows;
  }

  lemma SettledAtEnds(b: Books, today: Day)
    ensures PartlySettled(b, today, {}) == b
    ensures PartlySettled(b, today, b.invoices.rows.Keys) == b.(invoices := SettledInvoices(b, today))
  {
    assert PartlySettled(b, today, {}).invoices.rows == b.invoices.rows;
    assert PartlySettled(b, today, b.invoices.rows.Keys).invoices.rows == SettledInvoices(b, today).rows;
  }

  /** The clients that own an invoice, archived or not. */
  function Owners(t: Table<Invoice>): set<string> {
    set i | i in t.rows && t.rows[i].clientId != "" :: t.rows[i].clientId
  }

  function RecalculatedClients(b: Books, clients: set<string>): Table<Client> {
    b.clients.(rows := map c | c in b.clients.rows ::
                 if c in clients then Recalculated(b, c) else b.clients.rows[c])
  }

  function Repaired(b: Books, today: Day): Books {
    var b1 := b.(invoices := SettledInvoices(b, today));
    b1.(clients := RecalculatedClients(b1, Owners(b.invoices)))
  }

  /** Repair fails, and rolls back, exactly when some invoice's client is missing. */
  function RepairAll(b: Books, today: Day): Result<Books, Error> {
    if Owners(b.invoices) <= b.clients.rows.Keys then Success(Repaired(b, today)) else Failure(NotFound)
  }

  /** From any sound store, repair settles every invoice and every owning client,
      and touches no other client. */
  lemma RepairSettles(b: Books, today: Day)
    requires SoundBooks(b)
    ensures SoundBooks(Repaired(b, today))
    ensures forall i :: i in b.invoices.rows ==> InvoiceSettled(Repaired(b, today), i)
    ensures forall c :: c in Owners(b.invoices) && c in b.clients.rows ==> ClientSettled(Repaired(b, today), c)
    ensures forall c :: c in b.clients.rows && c !in Owners(b.invoices) ==>
              Repaired(b, today).clients.rows[c] == b.clients.rows[c]
  {
    var r := Repaired(b, today);
    forall i | i in b.invoices.rows ensures InvoiceSettled(r, i) {
      SettleForgets(b.invoices.rows[i], PaidOn(b.payments, i), today, PaidOn(b.payments, i), today);
      assert r.invoices.rows[i] == Settle(r.invoices.rows[i], PaidOn(r.payments, i), today);
    }
  }

  lemma NoInvoiceNoTotals(t: Table<Invoice>, c: string)
    requires c != "" && c !in Owners(t)
    ensures RevenueOf(t, c) == 0 && OutstandingOf(t, c) == 0
  {
    SumZero(t.order, RevenueWeight(t.rows, c));
    SumZero(t.order, OutstandingWeight(t.rows, c));
  }

  lemma SameOwners(b: Books, today: Day)
    ensures Owners(SettledInvoices(b, today)) == Owners(b.invoices)
  {
    var t := SettledInvoices(b, today);
    forall c ensures c in Owners(t) <==> c in Owners(b.invoices) {
      if c in Owners(t) {
        var i :| i in t.rows && t.rows[i].clientId != "" && t.rows[i].clientId == c;
        assert b.invoices.rows[i].clientId == c;
      }
      if c in Owners(b.invoices) {
        var i :| i in b.invoices.rows && b.invoices.rows[i].clientId != "" && b.invoices.rows[i].clientId == c;
        assert t.rows[i].clientId == c;
      }
    }
  }

  /** A successful repair reconciles the books exactly when the clients that own
      no invoice carried no revenue and no outstanding to begin with. */
  lemma RepairReconciles(b: Books, today: Day)
    requires SoundBooks(b) && RepairAll(b, today).Success?
    ensures Reconciled(RepairAll(b, today).value) <==>
            (forall c :: c in b.clients.rows && c !in Owners(b.invoices)
               ==> b.clients.rows[c].revenue == 0 && b.clients.rows[c].outstanding == 0)
  {
    RepairSettles(b, today);
    SameOwners(b, today);
    var r := Repaired(b, today);
    forall c | c in b.clients.rows && c !in Owners(b.invoices)
      ensures ClientSettled(r, c) <==> b.clients.rows[c].revenue == 0 && b.clients.rows[c].outstanding == 0
    {
      NoInvoiceNoTotals(r.invoices, c);
    }
  }

  /** A repair goes through exactly when every client an invoice names is there. */
  lemma RepairSucceedsExactlyWhen(b: Books, today: Day)
    ensures RepairAll(b, today).Success?
       <==> forall i :: i in b.invoices.rows && b.invoices.rows[i].clientId != ""
              ==> b.invoices.rows[i].clientId in b.clients.rows
    ensures RepairAll(b, today).Failure? ==> RepairAll(b, today).error == NotFound
  {
    if RepairAll(b, today).Success? {
      forall i | i in b.invoices.rows && b.invoices.rows[i].clientId != ""
        ensures b.invoices.rows[i].clientId in b.clients.rows
      {
        assert b.invoices.rows[i].clientId in Owners(b.invoices);
      }
    }
  }

  /** A second repair at the same instant changes nothing. */
  lemma RepairTwice(b: Books, today: Day)
    requires RepairAll(b, today).Success?
    ensures RepairAll(RepairAll(b, today).value, today) == RepairAll(b, today)
  {
    var r := Repaired(b, today);
    SameOwners(b, today);
    var again := SettledInvoices(r, today);
    forall i | i in b.invoices.rows ensures again.rows[i] == r.invoices.rows[i] {
      SettleForgets(b.invoices.rows[i], PaidOn(b.payments, i), today, PaidOn(b.payments, i), today);
    }
    assert again.rows == r.invoices.rows;
    var r1 := r.(invoices := again);
    assert r1 == r;
    forall c | c in r.clients.rows
      ensures RecalculatedClients(r1, Owners(r.invoices)).rows[c] == r.clients.rows[c]
    {
      assert c in b.clients.rows;
    }
    assert RecalculatedClients(r1, Owners(r.invoices)).rows == r.clients.rows;
  }

  /** The same invoice, but for a status that may have moved between sent and overdue. */
  predicate SameButForTheDay(inv: Invoice, inv': Invoice) {
    && inv' == inv.(status := inv'.status)
    && (inv'.status == inv.status
        || ((inv.status.Sent? || inv.status.Overdue?) && (inv'.status.Sent? || inv'.status.Overdue?)))
  }

  lemma Resettled(inv: Invoice, paid: int, day: Day, today: Day)
    requires inv == Settle(inv, paid, day)
    ensures SameButForTheDay(inv, Settle(inv, paid, today))
  {
  }

  /** On reconciled books repair leaves every client and every stored amount, and
      may only move a status between sent and overdue. */
  lemma RepairOfReconciled(b: Books, today: Day)
    requires Reconciled(b)
    ensures Repaired(b, today).clients == b.clients
    ensures forall i :: i in b.invoices.rows ==>
              SameButForTheDay(b.invoices.rows[i], Repaired(b, today).invoices.rows[i])
  {
    var b1 := b.(invoices := SettledInvoices(b, today));
    SettledIsTheSame(b, today);
    forall c | c in b.clients.rows ensures Recalculated(b1, c) == b.clients.rows[c] {
      QuietTotals(b.invoices, b1.invoices, c);
      assert ClientSettled(b, c);
    }
    assert RecalculatedClients(b1, Owners(b.invoices)).rows == b.clients.rows;
  }

  lemma SettledIsTheSame(b: Books, today: Day)
    requires Reconciled(b)
    ensures forall i :: i in b.invoices.rows ==>
              SameButForTheDay(b.invoices.rows[i], SettledInvoices(b, today).rows[i])
  {
    forall i | i in b.invoices.rows
      ensures SameButForTheDay(b.invoices.rows[i], SettledInvoices(b, today).rows[i])
    {
      assert InvoiceSettled(b, i);
      var day: Day :| b.invoices.rows[i] == Settle(b.invoices.rows[i], PaidOn(b.payments, i), day);
      Resettled(b.invoices.rows[i], PaidOn(b.payments, i), day, today);
    }
  }

  lemma QuietTotals(t: Table<Invoice>, t': Table<Invoice>, c: string)
    requires t'.order == t.order && t'.rows.Keys == t.rows.Keys
    requires forall i :: i in t.rows ==> SameButForTheDay(t.rows[i], t'.rows[i])
    ensures RevenueOf(t', c) == RevenueOf(t, c) && OutstandingOf(t', c) == OutstandingOf(t, c)
  {
    SumSame(t.order, RevenueWeight(t.rows, c), RevenueWeight(t'.rows, c));
    SumSame(t.order, OutstandingWeight(t.rows, c), OutstandingWeight(t'.rows, c));
  }
}
