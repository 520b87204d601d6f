/** The integrity checker's financial checks, and what a repair leaves for them
    to find. */
module Integrity {
  import opened Tables
  import opened Sums
  import opened Listing
  import opened Money
  import opened Finance
  import opened Accounting
  import opened Agreement
  import opened Repair
  import opened Reconciliation
  import opened PaymentLaws

  datatype Issue =
    | PaidMismatch(invoiceId: string, expected: int, actual: int)
    | RemainingMismatch(invoiceId: string, expected: int, actual: int)
    | OutstandingMismatch(clientId: string, expected: int, actual: int)
    | DashboardMismatch(expected: int, actual: int)

  predicate ListedClient(c: Client) { !c.archived }

  function ExactOn(invoiceId: string): Row<Payment> -> int {
    (r: Row<Payment>) =>
      if r.record.invoiceId == invoiceId && r.record.status == Completed(true) then r.record.amount else 0
  }

  function OwedBy(clientId: string): Row<Invoice> -> int {
    (r: Row<Invoice>) => if r.record.clientId == clientId && IsOutstanding(r.record.status)
                         then Remaining(r.record.total, r.record.paid) else 0
  }

  function InvoiceIssues(r: Row<Invoice>, payments: seq<Row<Payment>>): seq<Issue> {
    var paid := Sum(payments, ExactOn(r.id));
    var remaining := Remaining(r.record.total, paid);
    (if r.record.paid != paid then [PaidMismatch(r.id, paid, r.record.paid)] else [])
    + (if r.record.remaining != remaining then [RemainingMismatch(r.id, remaining, r.record.remaining)] else [])
  }

  function ClientIssues(c: Row<Client>, invoices: seq<Row<Invoice>>): seq<Issue> {
    var expected := Sum(invoices, OwedBy(c.id));
    if c.record.outstanding != expected then [OutstandingMismatch(c.id, expected, c.record.outstanding)] else []
  }

  function AllInvoiceIssues(rows: seq<Row<Invoice>>, payments: seq<Row<Payment>>): seq<Issue> {
    if rows == [] then [] else InvoiceIssues(rows[0], payments) + AllInvoiceIssues(rows[1..], payments)
  }

  function AllClientIssues(rows: seq<Row<Client>>, invoices: seq<Row<Invoice>>): seq<Issue> {
    if rows == [] then [] else ClientIssues(rows[0], invoices) + AllClientIssues(rows[1..], invoices)
  }

  function DashboardIssues(invoices: seq<Row<Invoice>>, kpi: int): seq<Issue> {
    var expected := Sum(invoices, RowDue);
    if kpi != expected then [DashboardMismatch(expected, kpi)] else []
  }

  /** What the checker reports of one invoice: its paid and its remaining amount, each
      exactly when it is not what the payments give. */
  lemma InvoiceIssuesTell(r: Row<Invoice>, payments: seq<Row<Payment>>, issue: Issue)
    ensures var paid := Sum(payments, ExactOn(r.id));
            issue in InvoiceIssues(r, payments) <==>
              || (r.record.paid != paid && issue == PaidMismatch(r.id, paid, r.record.paid))
              || (r.record.remaining != Remaining(r.record.total, paid)
                  && issue == RemainingMismatch(r.id, Remaining(r.record.total, paid), r.record.remaining))
  {
  }

  /** Of one client its outstanding, and of the dashboard its total, each exactly when it is
      not what the invoices give. */
  lemma TotalIssuesTell(c: Row<Client>, invoices: seq<Row<Invoice>>, kpi: int, issue: Issue)
    ensures issue in ClientIssues(c, invoices) <==>
              c.record.outstanding != Sum(invoices, OwedBy(c.id))
              && issue == OutstandingMismatch(c.id, Sum(invoices, OwedBy(c.id)), c.record.outstanding)
    ensures issue in DashboardIssues(invoices, kpi) <==>
              kpi != Sum(invoices, RowDue) && issue == DashboardMismatch(Sum(invoices, RowDue), kpi)
  {
  }

  method TotalOver<K>(keys: seq<K>, w: K -> int) returns (total: int)
    ensures total == Sum(keys, w)
  {
    total := 0;
    for i := 0 to |keys|
      invariant total == Sum(keys[..i], w)
    {
      SumAppend(keys[..i], keys[i], w);
      assert keys[..i + 1] == keys[..i] + [keys[i]];
      total := total + w(keys[i]);
    }
    assert keys[..|keys|] == keys;
  }

  method CheckInvoice(inv: Row<Invoice>, payments: seq<Row<Payment>>) returns (issues: seq<Issue>)
    ensures issues == InvoiceIssues(inv, payments)
  {
    issues := [];
    var paid := TotalOver(payments, ExactOn(inv.id));
    if inv.record.paid != paid {
      issues := issues + [PaidMismatch(inv.id, paid, inv.record.paid)];
    }
    var remaining := Remaining(inv.record.total, paid);
    if inv.record.remaining != remaining {
      issues := issues + [RemainingMismatch(inv.id, remaining, inv.record.remaining)];
    }
  }

  method CheckInvoices(invoices: seq<Row<Invoice>>, payments: seq<Row<Payment>>) returns (issues: seq<Issue>)
    ensures issues == AllInvoiceIssues(invoices, payments)
  {
    issues := [];
    for i := 0 to |invoices|
      invariant issues + AllInvoiceIssues(invoices[i..], payments) == AllInvoiceIssues(invoices, payments)
    {
      var found := CheckInvoice(invoices[i], payments);
      InvoiceIssuesStep(issues, invoices, i, payments);
      issues := issues + found;
    }
  }

  lemma InvoiceIssuesStep(issues: seq<Issue>, rows: seq<Row<Invoice>>, i: nat, payments: seq<Row<Payment>>)
    requires i < |rows|
    ensures issues + AllInvoiceIssues(rows[i..], payments)
         == (issues + InvoiceIssues(rows[i], payments)) + AllInvoiceIssues(rows[i + 1..], payments)
  {
    assert rows[i..][1..] == rows[i + 1..];
  }

  lemma ClientIssuesStep(issues: seq<Issue>, rows: seq<Row<Client>>, i: nat, invoices: seq<Row<Invoice>>)
    requires i < |rows|
    ensures issues + AllClientIssues(rows[i..], invoices)
         == (issues + ClientIssues(rows[i], invoices)) + AllClientIssues(rows[i + 1..], invoices)
  {
    assert rows[i..][1..] == rows[i + 1..];
  }

  method CheckClient(client: Row<Client>, invoices: seq<Row<Invoice>>) returns (issues: seq<Issue>)
    ensures issues == ClientIssues(client, invoices)
  {
    issues := [];
    var expected := TotalOver(invoices, OwedBy(client.id));
    if client.record.outstanding != expected {
      issues := issues + [OutstandingMismatch(client.id, expected, client.record.outstanding)];
    }
  }

  method CheckClients(clients: seq<Row<Client>>, invoices: seq<Row<Invoice>>) returns (issues: seq<Issue>)
    ensures issues == AllClientIssues(clients, invoices)
  {
    issues := [];
    for i := 0 to |clients|
      invariant issues + AllClientIssues(clients[i..], invoices) == AllClientIssues(clients, invoices)
    {
      var found := CheckClient(clients[i], invoices);
      ClientIssuesStep(issues, clients, i, invoices);
      issues := issues + found;
    }
  }

  method RunChecks(clients: seq<Row<Client>>, invoices: seq<Row<Invoice>>, payments: seq<Row<Payment>>, kpi: int)
    returns (issues: seq<Issue>)
    ensures issues == AllInvoiceIssues(invoices, payments) + AllClientIssues(clients, invoices)
                      + DashboardIssues(invoices, kpi)
  {
    var ofInvoices := CheckInvoices(invoices, payments);
    var ofClients := CheckClients(clients, invoices);
    issues := ofInvoices + ofClients;
    var expected := TotalOver(invoices, RowDue);
    if kpi != expected {
      issues := issues + [DashboardMismatch(expected, kpi)];
    }
  }

  lemma {:induction false} InvoicesClean(rows: seq<Row<Invoice>>, payments: seq<Row<Payment>>)
    ensures AllInvoiceIssues(rows, payments) == [] <==> forall r :: r in rows ==> InvoiceIssues(r, payments) == []
  {
    if rows != [] {
      InvoicesClean(rows[1..], payments);
      assert forall r :: r in rows <==> r == rows[0] || r in rows[1..];
    }
  }

  lemma {:induction false} ClientsClean(rows: seq<Row<Client>>, invoices: seq<Row<Invoice>>)
    ensures AllClientIssues(rows, invoices) == [] <==> forall r :: r in rows ==> ClientIssues(r, invoices) == []
  {
    if rows != [] {
      ClientsClean(rows[1..], invoices);
      assert forall r :: r in rows <==> r == rows[0] || r in rows[1..];
    }
  }

  // --- the checker on the store's own lists ---

  function MisspelledOnWeight(rows: map<string, Payment>, invoiceId: string): string -> int {
    (id: string) => if id in rows && Counts(rows[id], invoiceId) && !rows[id].status.exact then rows[id].amount else 0
  }

  function MisspelledOn(t: Table<Payment>, invoiceId: string): int {
    Sum(t.order, MisspelledOnWeight(t.rows, invoiceId))
  }

  function ExactWeight(rows: map<string, Payment>, invoiceId: string): string -> int {
    (id: string) => if id in rows && Counts(rows[id], invoiceId) && rows[id].status.exact then rows[id].amount else 0
  }

  /** The checker sees the counted payments spelled exactly "completed". */
  lemma CheckerPaid(t: Table<Payment>, invoiceId: string)
    ensures Sum(GetAll(t, LivePayment), ExactOn(invoiceId)) == PaidOn(t, invoiceId) - MisspelledOn(t, invoiceId)
  {
    SumListed(t.order, t.rows, LivePayment, ExactOn(invoiceId), ExactWeight(t.rows, invoiceId));
    SumPlus(t.order, ExactWeight(t.rows, invoiceId), MisspelledOnWeight(t.rows, invoiceId),
            PaidWeight(t.rows, invoiceId));
  }

  lemma CheckerOwed(t: Table<Invoice>, c: string)
    ensures Sum(GetAll(t, LiveInvoice), OwedBy(c)) == OutstandingOf(t, c)
  {
    SumListed(t.order, t.rows, LiveInvoice, OwedBy(c), OutstandingWeight(t.rows, c));
  }

  ghost predicate CleanBill(b: Books, kpi: int) {
    var invoices := GetAll(b.invoices, LiveInvoice);
    AllInvoiceIssues(invoices, GetAll(b.payments, LivePayment))
    + AllClientIssues(GetAll(b.clients, ListedClient), invoices)
    + DashboardIssues(invoices, kpi) == []
  }

  /** A settled invoice passes exactly when no misspelled payment counts on it. */
  lemma SettledInvoicePasses(b: Books, id: string)
    requires id in b.invoices.rows && InvoiceSettled(b, id)
    ensures InvoiceIssues(Row(id, b.invoices.rows[id]), GetAll(b.payments, LivePayment)) == []
       <==> MisspelledOn(b.payments, id) == 0
  {
    CheckerPaid(b.payments, id);
  }

  /** After a repair the checker, given full lists and the dashboard's own figure,
      finds nothing exactly when no listed invoice counts a payment whose status
      is spelled in another letter case, and no listed client without invoices
      carries an outstanding amount. */
  lemma RepairPassesChecks(b: Books, today: Day)
    requires SoundBooks(b) && RepairAll(b, today).Success?
    ensures var r := RepairAll(b, today).value;
            CleanBill(r, Sum(GetAll(r.invoices, LiveInvoice), RowDue)) <==>
            ((forall i :: i in r.invoices.rows && Live(r.invoices.rows[i]) ==> MisspelledOn(b.payments, i) == 0)
             && (forall c :: c in b.clients.rows && !b.clients.rows[c].archived && c !in Owners(b.invoices)
                   ==> b.clients.rows[c].outstanding == 0))
  {
    var r := Repaired(b, today);
    RepairSettles(b, today);
    SameOwners(b, today);
    var invoices, payments := GetAll(r.invoices, LiveInvoice), GetAll(r.payments, LivePayment);
    InvoicesPass(r);
    ClientsPass(b, today);
  }

  /** Payments being positive, their misspelled amounts are nothing when there are none. */
  lemma NoneMisspelled(t: Table<Payment>, invoiceId: string)
    requires Sound(t) && PositivePayments(t)
    ensures MisspelledOn(t, invoiceId) == 0
       <==> forall p :: p in t.rows && Counts(t.rows[p], invoiceId) ==> t.rows[p].status.exact
  {
    var w := MisspelledOnWeight(t.rows, invoiceId);
    SumOfNonNegative(t.order, w);
    if Sum(t.order, w) == 0 {
      forall p | p in t.rows && Counts(t.rows[p], invoiceId) ensures t.rows[p].status.exact {
        assert p in t.order && w(p) == 0;
      }
    }
  }

  /** A settled invoice passes exactly when no payment counted on it is spelled in
      another letter case. */
  lemma SettledInvoicePassesExactlyWhen(b: Books, id: string)
    requires SoundBooks(b) && PositivePayments(b.payments)
    requires id in b.invoices.rows && InvoiceSettled(b, id)
    ensures InvoiceIssues(Row(id, b.invoices.rows[id]), GetAll(b.payments, LivePayment)) == []
       <==> forall p :: p in b.payments.rows && Counts(b.payments.rows[p], id) ==> b.payments.rows[p].status.exact
  {
    SettledInvoicePasses(b, id);
    NoneMisspelled(b.payments, id);
  }

  /** After a repair the checker finds nothing exactly when no payment counted on a
      live invoice is spelled in another letter case, and no listed client without
      invoices carries an outstanding amount. */
  lemma RepairPassesExactlyWhen(b: Books, today: Day)
    requires SoundBooks(b) && PositivePayments(b.payments) && RepairAll(b, today).Success?
    ensures var r := RepairAll(b, today).value;
            CleanBill(r, Sum(GetAll(r.invoices, LiveInvoice), RowDue)) <==>
            ((forall i, p ::
                i in r.invoices.rows && Live(r.invoices.rows[i])
                && p in b.payments.rows && Counts(b.payments.rows[p], i)
                ==> b.payments.rows[p].status.exact)
             && (forall c :: c in b.clients.rows && !b.clients.rows[c].archived && c !in Owners(b.invoices)
                   ==> b.clients.rows[c].outstanding == 0))
  {
    RepairPassesChecks(b, today);
    forall i | i in b.invoices.rows
      ensures MisspelledOn(b.payments, i) == 0
         <==> forall p :: p in b.payments.rows && Counts(b.payments.rows[p], i) ==> b.payments.rows[p].status.exact
    {
      NoneMisspelled(b.payments, i);
    }
  }

  lemma InvoicesPass(r: Books)
    requires SoundBooks(r) && forall i :: i in r.invoices.rows ==> InvoiceSettled(r, i)
    ensures AllInvoiceIssues(GetAll(r.invoices, LiveInvoice), GetAll(r.payments, LivePayment)) == [] <==>
            (forall i :: i in r.invoices.rows && Live(r.invoices.rows[i]) ==> MisspelledOn(r.payments, i) == 0)
  {
    var invoices, payments := GetAll(r.invoices, LiveInvoice), GetAll(r.payments, LivePayment);
    InvoicesClean(invoices, payments);
    ListedElements(r.invoices.order, r.invoices.rows, LiveInvoice);
    forall i | i in r.invoices.rows && Live(r.invoices.rows[i])
      ensures Row(i, r.invoices.rows[i]) in invoices
      ensures InvoiceIssues(Row(i, r.invoices.rows[i]), payments) == [] <==> MisspelledOn(r.payments, i) == 0
    {
      SettledInvoicePasses(r, i);
    }
    forall row | row in invoices
      ensures row.id in r.invoices.rows && row == Row(row.id, r.invoices.rows[row.id]) && Live(row.record)
    {
    }
  }

  lemma ClientPasses(b: Books, today: Day, c: string)
    requires SoundBooks(b) && c in b.clients.rows
    ensures var r := Repaired(b, today);
            ClientIssues(Row(c, r.clients.rows[c]), GetAll(r.invoices, LiveInvoice)) == []
            <==> (c !in Owners(b.invoices) ==> b.clients.rows[c].outstanding == 0)
  {
    var r := Repaired(b, today);
    RepairSettles(b, today);
    SameOwners(b, today);
    CheckerOwed(r.invoices, c);
    if c in Owners(b.invoices) {
      assert ClientSettled(r, c);
    } else {
      NoInvoiceNoTotals(r.invoices, c);
    }
  }

  lemma ClientsPass(b: Books, today: Day)
    requires SoundBooks(b) && RepairAll(b, today).Success?
    ensures var r := Repaired(b, today);
            AllClientIssues(GetAll(r.clients, ListedClient), GetAll(r.invoices, LiveInvoice)) == [] <==>
            (forall c :: c in b.clients.rows && !b.clients.rows[c].archived && c !in Owners(b.invoices)
               ==> b.clients.rows[c].outstanding == 0)
  {
    var r := Repaired(b, today);
    var clients, invoices := GetAll(r.clients, ListedClient), GetAll(r.invoices, LiveInvoice);
    ClientsClean(clients, invoices);
    ListedElements(r.clients.order, r.clients.rows, ListedClient);
    forall c | c in b.clients.rows && !b.clients.rows[c].archived
      ensures Row(c, r.clients.rows[c]) in clients
      ensures ClientIssues(Row(c, r.clients.rows[c]), invoices) == []
         <==> (c !in Owners(b.invoices) ==> b.clients.rows[c].outstanding == 0)
    {
      ClientPasses(b, today, c);
    }
    forall row | row in clients
      ensures row.id in b.clients.rows && !b.clients.rows[row.id].archived && row == Row(row.id, r.clients.rows[row.id])
    {
    }
  }
}
