/** The ledger, the dashboard and the clients' records put one figure on what is
    owed. */
module Agreement {
  import opened Tables
  import opened Sums
  import opened Listing
  import opened Money
  import opened Finance
  import opened Reconciliation
  import opened PaymentLaws
  import opened Accounting

  function RowDue(r: Row<Invoice>): int {
    if IsOutstanding(r.record.status) then Remaining(r.record.total, r.record.paid) else 0
  }

  /** The dashboard's loop over the listed invoices. */
  method DashboardOutstanding(b: Books) returns (total: int)
    ensures total == Sum(GetAll(b.invoices, LiveInvoice), RowDue)
  {
    var invoices := GetAll(b.invoices, LiveInvoice);
    total := 0;
    for i := 0 to |invoices|
      invariant total == Sum(invoices[..i], RowDue)
    {
      var inv := invoices[i].record;
      var balance := Remaining(inv.total, inv.paid);
      SumAppend(invoices[..i], invoices[i], RowDue);
      assert invoices[..i + 1] == invoices[..i] + [invoices[i]];
      if IsOutstanding(inv.status) {
        total := total + balance;
      }
    }
    assert invoices[..|invoices|] == invoices;
  }

  function OwedWeight(rows: map<string, Invoice>): string -> int {
    (id: string) => if id in rows then Due(rows[id]) else 0
  }

  function BilledWeight(rows: map<string, Invoice>): string -> int {
    (id: string) => if id in rows && Billed(rows[id]) then rows[id].total else 0
  }

  predicate Counted(p: Payment) {
    !p.archived && p.status.Completed?
  }

  function CountedWeight(rows: map<string, Payment>): string -> int {
    (id: string) => if id in rows && Counted(rows[id]) then rows[id].amount else 0
  }

  /** The payments whose stored word is spelled exactly as the ledger expects. */
  function JournalledWeight(rows: map<string, Payment>): string -> int {
    (id: string) => if id in rows && Counted(rows[id]) && rows[id].status.exact then rows[id].amount else 0
  }

  function MisspelledWeight(rows: map<string, Payment>): string -> int {
    (id: string) => if id in rows && Counted(rows[id]) && !rows[id].status.exact then rows[id].amount else 0
  }

  function MisspelledTotal(t: Table<Payment>): int {
    Sum(t.order, MisspelledWeight(t.rows))
  }

  function ClientOutstanding(rows: map<string, Client>): string -> int {
    (id: string) => if id in rows then rows[id].outstanding else 0
  }

  /** The net receivable balance of the system and manual journals. */
  function Receivable(b: Books, stored: seq<Journal>): int {
    BalanceOf(AllLines(SystemJournals(b) + ManualJournals(stored)), RECEIVABLE)
  }

  // --- the dashboard ---

  lemma DashboardIsOwed(b: Books)
    ensures Sum(GetAll(b.invoices, LiveInvoice), RowDue) == Sum(b.invoices.order, OwedWeight(b.invoices.rows))
  {
    SumListed(b.invoices.order, b.invoices.rows, LiveInvoice, RowDue, OwedWeight(b.invoices.rows));
  }

  // --- the clients ---

  /** Every unpaid invoice names a stored client. */
  ghost predicate InvoicesHaveClients(b: Books) {
    forall i :: i in b.invoices.rows && Due(b.invoices.rows[i]) != 0 ==> b.invoices.rows[i].clientId in b.clients.rows
  }

  lemma ClientsAreOwed(b: Books)
    requires Reconciled(b) && InvoicesHaveClients(b)
    ensures Sum(b.clients.order, ClientOutstanding(b.clients.rows))
            == Sum(b.invoices.order, OwedWeight(b.invoices.rows))
  {
    var rows := b.invoices.rows;
    var row := (c: string) => OutstandingWeight(rows, c);
    var col := (i: string) => (c: string) => OutstandingWeight(rows, c)(i);
    forall c | c in b.clients.order
      ensures ClientOutstanding(b.clients.rows)(c) == Sum(b.invoices.order, row(c))
    {
      assert ClientSettled(b, c);
    }
    forall i | i in b.invoices.order
      ensures OwedWeight(rows)(i) == Sum(b.clients.order, col(i))
    {
      if rows[i].clientId in b.clients.order {
        SumOnly(b.clients.order, rows[i].clientId, col(i));
      } else {
        SumZero(b.clients.order, col(i));
      }
    }
    SumSwap(b.clients.order, b.invoices.order, row, col, ClientOutstanding(b.clients.rows), OwedWeight(rows));
  }

  // --- the ledger ---

  lemma BalanceConcat(a: seq<Line>, c: seq<Line>, account: string)
    ensures BalanceOf(a + c, account) == BalanceOf(a, account) + BalanceOf(c, account)
  {
    SumConcat(a, c, DebitTo(account));
    SumConcat(a, c, CreditTo(account));
  }

  lemma {:induction false} AllLinesConcat(a: seq<Journal>, c: seq<Journal>)
    ensures AllLines(a + c) == AllLines(a) + AllLines(c)
  {
    if a == [] {
      assert a + c == c;
    } else {
      assert (a + c)[1..] == a[1..] + c;
      AllLinesConcat(a[1..], c);
    }
  }

  lemma SingleBalance(line: Line, account: string)
    ensures BalanceOf([line], account) == if line.account == account then line.debit - line.credit else 0
  {
    assert [line][1..] == [];
    assert Sum([line], DebitTo(account)) == DebitTo(account)(line);
    assert Sum([line], CreditTo(account)) == CreditTo(account)(line);
  }

  lemma PairBalance(first: Line, second: Line, account: string)
    ensures BalanceOf([first, second], account)
         == (if first.account == account then first.debit - first.credit else 0)
          + (if second.account == account then second.debit - second.credit else 0)
  {
    SingleBalance(first, account);
    SingleBalance(second, account);
    BalanceConcat([first], [second], account);
    assert [first] + [second] == [first, second];
  }

  lemma AccountsDiffer()
    ensures RECEIVABLE != FEES && RECEIVABLE != BANK && FEES != BANK
  {
    assert |RECEIVABLE| == 19 && |FEES| == 17 && |BANK| == 4;
  }

  function RowBilled(r: Row<Invoice>): int {
    if r.record.status.Draft? || r.record.status.Cancelled? then 0 else r.record.total
  }

  function RowJournalled(r: Row<Payment>): int {
    if r.record.status == Completed(true) then r.record.amount else 0
  }

  /** What a billed amount puts on an account. */
  function BilledOn(account: string, amount: int): int {
    if account == RECEIVABLE then amount else if account == FEES then -amount else 0
  }

  /** And what a paid amount does. */
  function PaidInto(account: string, amount: int): int {
    if account == BANK then amount else if account == RECEIVABLE then -amount else 0
  }

  lemma {:induction false} InvoiceSide(rows: seq<Row<Invoice>>, account: string)
    ensures BalanceOf(AllLines(InvoiceJournals(rows)), account) == BilledOn(account, Sum(rows, RowBilled))
    ensures forall l :: l in AllLines(InvoiceJournals(rows)) ==> l.account == RECEIVABLE || l.account == FEES
  {
    AccountsDiffer();
    if rows != [] {
      InvoiceSide(rows[1..], account);
      var inv := rows[0].record;
      if !(inv.status.Draft? || inv.status.Cancelled?) {
        BalanceConcat(InvoiceLines(inv), AllLines(InvoiceJournals(rows[1..])), account);
        PairBalance(Line(RECEIVABLE, inv.total, 0), Line(FEES, 0, inv.total), account);
        assert InvoiceJournals(rows)[1..] == InvoiceJournals(rows[1..]);
      } else {
        assert InvoiceJournals(rows) == InvoiceJournals(rows[1..]);
      }
    }
  }

  lemma {:induction false} PaymentSide(rows: seq<Row<Payment>>, account: string)
    ensures BalanceOf(AllLines(PaymentJournals(rows)), account) == PaidInto(account, Sum(rows, RowJournalled))
    ensures forall l :: l in AllLines(PaymentJournals(rows)) ==> l.account == BANK || l.account == RECEIVABLE
  {
    AccountsDiffer();
    if rows != [] {
      PaymentSide(rows[1..], account);
      var p := rows[0].record;
      if p.status == Completed(true) {
        BalanceConcat(PaymentLines(p), AllLines(PaymentJournals(rows[1..])), account);
        PairBalance(Line(BANK, p.amount, 0), Line(RECEIVABLE, 0, p.amount), account);
        assert PaymentJournals(rows)[1..] == PaymentJournals(rows[1..]);
      } else {
        assert PaymentJournals(rows) == PaymentJournals(rows[1..]);
      }
    }
  }

  ghost predicate Untouched(lines: seq<Line>, account: string) {
    forall l :: l in lines ==> l.account != account
  }

  lemma {:induction false} InvoiceDebits(rows: seq<Row<Invoice>>)
    ensures Sum(AllLines(InvoiceJournals(rows)), DebitOf) == Sum(rows, RowBilled)
  {
    if rows != [] {
      InvoiceDebits(rows[1..]);
      var inv := rows[0].record;
      if !(inv.status.Draft? || inv.status.Cancelled?) {
        SumConcat(InvoiceLines(inv), AllLines(InvoiceJournals(rows[1..])), DebitOf);
        PairDebits(Line(RECEIVABLE, inv.total, 0), Line(FEES, 0, inv.total));
        assert InvoiceJournals(rows)[1..] == InvoiceJournals(rows[1..]);
      } else {
        assert InvoiceJournals(rows) == InvoiceJournals(rows[1..]);
      }
    }
  }

  lemma {:induction false} PaymentDebits(rows: seq<Row<Payment>>)
    ensures Sum(AllLines(PaymentJournals(rows)), DebitOf) == Sum(rows, RowJournalled)
  {
    if rows != [] {
      PaymentDebits(rows[1..]);
      var p := rows[0].record;
      if p.status == Completed(true) {
        SumConcat(PaymentLines(p), AllLines(PaymentJournals(rows[1..])), DebitOf);
        PairDebits(Line(BANK, p.amount, 0), Line(RECEIVABLE, 0, p.amount));
        assert PaymentJournals(rows)[1..] == PaymentJournals(rows[1..]);
      } else {
        assert PaymentJournals(rows) == PaymentJournals(rows[1..]);
      }
    }
  }

  lemma PairDebits(first: Line, second: Line)
    ensures Sum([first, second], DebitOf) == first.debit + second.debit
  {
    assert [first, second][1..] == [second] && [second][1..] == [];
    assert Sum([second], DebitOf) == second.debit;
  }

  /** The debit column of the derived journals: everything billed and everything banked. */
  lemma SystemDebits(b: Books)
    ensures Sum(AllLines(SystemJournals(b)), DebitOf) == BilledTotals(b) + BankedTotals(b)
  {
    var invoices := GetAll(b.invoices, LiveInvoice);
    var payments := GetAll(b.payments, LivePayment);
    AllLinesConcat(InvoiceJournals(invoices), PaymentJournals(payments));
    SumConcat(AllLines(InvoiceJournals(invoices)), AllLines(PaymentJournals(payments)), DebitOf);
    InvoiceDebits(invoices);
    PaymentDebits(payments);
    SumListed(b.invoices.order, b.invoices.rows, LiveInvoice, RowBilled, BilledWeight(b.invoices.rows));
    SumListed(b.payments.order, b.payments.rows, LivePayment, RowJournalled, JournalledWeight(b.payments.rows));
  }

  /** What live invoices bill, drafts and cancelled ones left out. */
  function BilledTotals(b: Books): int {
    Sum(b.invoices.order, BilledWeight(b.invoices.rows))
  }

  /** The live payments spelled "completed". */
  function BankedTotals(b: Books): int {
    Sum(b.payments.order, JournalledWeight(b.payments.rows))
  }

  /** What the derived journals put on each account: receivables hold what is billed less
      what came in, fees what is billed, the bank what came in, and nothing else occurs. */
  lemma SystemSides(b: Books)
    ensures BalanceOf(AllLines(SystemJournals(b)), RECEIVABLE) == BilledTotals(b) - BankedTotals(b)
    ensures BalanceOf(AllLines(SystemJournals(b)), FEES) == -BilledTotals(b)
    ensures BalanceOf(AllLines(SystemJournals(b)), BANK) == BankedTotals(b)
    ensures forall l :: l in AllLines(SystemJournals(b)) ==> l.account in {RECEIVABLE, FEES, BANK}
  {
    AccountsDiffer();
    SystemSide(b, RECEIVABLE);
    SystemSide(b, FEES);
    SystemSide(b, BANK);
  }

  lemma SystemSide(b: Books, account: string)
    ensures BalanceOf(AllLines(SystemJournals(b)), account)
         == BilledOn(account, BilledTotals(b)) + PaidInto(account, BankedTotals(b))
    ensures forall l :: l in AllLines(SystemJournals(b)) ==> l.account in {RECEIVABLE, FEES, BANK}
  {
    var invoices := GetAll(b.invoices, LiveInvoice);
    var payments := GetAll(b.payments, LivePayment);
    AllLinesConcat(InvoiceJournals(invoices), PaymentJournals(payments));
    BalanceConcat(AllLines(InvoiceJournals(invoices)), AllLines(PaymentJournals(payments)), account);
    InvoiceSide(invoices, account);
    PaymentSide(payments, account);
    SumListed(b.invoices.order, b.invoices.rows, LiveInvoice, RowBilled, BilledWeight(b.invoices.rows));
    SumListed(b.payments.order, b.payments.rows, LivePayment, RowJournalled, JournalledWeight(b.payments.rows));
  }

  lemma ReceivableSides(b: Books, stored: seq<Journal>)
    requires Untouched(AllLines(ManualJournals(stored)), RECEIVABLE)
    ensures Receivable(b, stored) == Sum(b.invoices.order, BilledWeight(b.invoices.rows))
                                   - Sum(b.payments.order, JournalledWeight(b.payments.rows))
  {
    SystemSides(b);
    ManualAdds(b, stored, RECEIVABLE);
    NothingOn(AllLines(ManualJournals(stored)), RECEIVABLE);
  }

  lemma ManualAdds(b: Books, stored: seq<Journal>, account: string)
    ensures BalanceOf(AllLines(SystemJournals(b) + ManualJournals(stored)), account)
         == BalanceOf(AllLines(SystemJournals(b)), account) + BalanceOf(AllLines(ManualJournals(stored)), account)
  {
    AllLinesConcat(SystemJournals(b), ManualJournals(stored));
    BalanceConcat(AllLines(SystemJournals(b)), AllLines(ManualJournals(stored)), account);
  }

  lemma NothingOn(lines: seq<Line>, account: string)
    requires Untouched(lines, account)
    ensures BalanceOf(lines, account) == 0
  {
    SumZero(lines, DebitTo(account));
    SumZero(lines, CreditTo(account));
  }

  /** The trial balance, account by account: what the books put there and what was posted
      by hand. An account the books know nothing of holds what was posted alone. */
  lemma TrialRows(b: Books, stored: seq<Journal>, rows: seq<LedgerRow>, r: LedgerRow)
    requires IsLedger(rows, AllLines(SystemJournals(b) + ManualJournals(stored))) && r in rows
    ensures r.balance == BalanceOf(AllLines(ManualJournals(stored)), r.account)
                       + (if r.account == RECEIVABLE then BilledTotals(b) - BankedTotals(b)
                          else if r.account == FEES then -BilledTotals(b)
                          else if r.account == BANK then BankedTotals(b)
                          else 0)
  {
    SystemSides(b);
    SystemSide(b, r.account);
    ManualAdds(b, stored, r.account);
  }

  // --- payments regrouped by invoice ---

  /** Every counted payment sits on a billed invoice. */
  ghost predicate PaymentsOnBilled(b: Books) {
    forall p :: p in b.payments.rows && Counted(b.payments.rows[p]) ==>
      b.payments.rows[p].invoiceId in b.invoices.rows && Billed(b.invoices.rows[b.payments.rows[p].invoiceId])
  }

  lemma PaidRegrouped(b: Books, paid: string -> int)
    requires SoundBooks(b) && PaymentsOnBilled(b)
    requires forall i :: i in b.invoices.rows ==> paid(i) == PaidOn(b.payments, i)
    ensures Sum(b.invoices.order, paid) == Sum(b.payments.order, CountedWeight(b.payments.rows))
  {
    var rows := b.payments.rows;
    var row := (i: string) => PaidWeight(rows, i);
    var col := (p: string) => (i: string) => PaidWeight(rows, i)(p);
    forall p | p in b.payments.order
      ensures CountedWeight(rows)(p) == Sum(b.invoices.order, col(p))
    {
      if Counted(rows[p]) {
        SumOnly(b.invoices.order, rows[p].invoiceId, col(p));
      } else {
        SumZero(b.invoices.order, col(p));
      }
    }
    SumSwap(b.invoices.order, b.payments.order, row, col, paid, CountedWeight(rows));
  }

  lemma UnbilledUnpaid(b: Books, i: string)
    requires SoundBooks(b) && PaymentsOnBilled(b) && i in b.invoices.rows && !Billed(b.invoices.rows[i])
    ensures PaidOn(b.payments, i) == 0
  {
    SumZero(b.payments.order, PaidWeight(b.payments.rows, i));
  }

  /** What is billed is what is owed plus every counted payment. */
  lemma BilledSplits(b: Books)
    requires Reconciled(b) && NoOverpayment(b) && PaymentsOnBilled(b)
    ensures Sum(b.invoices.order, BilledWeight(b.invoices.rows))
         == Sum(b.invoices.order, OwedWeight(b.invoices.rows)) + Sum(b.payments.order, CountedWeight(b.payments.rows))
  {
    var paid := (i: string) => PaidOn(b.payments, i);
    PaidRegrouped(b, paid);
    forall i | i in b.invoices.order
      ensures BilledWeight(b.invoices.rows)(i) == OwedWeight(b.invoices.rows)(i) + paid(i)
    {
      SplitAt(b, i);
    }
    SumPlus(b.invoices.order, OwedWeight(b.invoices.rows), paid, BilledWeight(b.invoices.rows));
  }

  lemma SplitAt(b: Books, i: string)
    requires Reconciled(b) && NoOverpayment(b) && PaymentsOnBilled(b) && i in b.invoices.rows
    ensures (if Billed(b.invoices.rows[i]) then b.invoices.rows[i].total else 0)
         == Due(b.invoices.rows[i]) + PaidOn(b.payments, i)
  {
    assert InvoiceSettled(b, i);
    PaidPlusDue(b, i);
    if !Billed(b.invoices.rows[i]) {
      UnbilledUnpaid(b, i);
    }
  }

  /** In reconciled books with nothing overpaid, the dashboard total is the sum of
      the clients' outstanding, and the receivable balance exceeds it by exactly
      the completed payments whose status is spelled in another letter case. */
  lemma ThreeWaysAgree(b: Books, stored: seq<Journal>)
    requires Reconciled(b) && NoOverpayment(b)
    requires PaymentsOnBilled(b) && InvoicesHaveClients(b)
    requires Untouched(AllLines(ManualJournals(stored)), RECEIVABLE)
    ensures Sum(GetAll(b.invoices, LiveInvoice), RowDue) == Sum(b.clients.order, ClientOutstanding(b.clients.rows))
    ensures Receivable(b, stored) == Sum(GetAll(b.invoices, LiveInvoice), RowDue) + MisspelledTotal(b.payments)
  {
    DashboardIsOwed(b);
    ClientsAreOwed(b);
    ReceivableSides(b, stored);
    BilledSplits(b);
    CountedSplits(b.payments);
  }

  /** Every counted payment is journalled or spelled otherwise. */
  lemma CountedSplits(t: Table<Payment>)
    ensures Sum(t.order, CountedWeight(t.rows)) == Sum(t.order, JournalledWeight(t.rows)) + MisspelledTotal(t)
  {
    SumPlus(t.order, JournalledWeight(t.rows), MisspelledWeight(t.rows), CountedWeight(t.rows));
  }

  lemma {:induction false} SumOfNonNegative(keys: seq<string>, w: string -> int)
    requires forall k :: k in keys ==> w(k) >= 0
    ensures Sum(keys, w) >= 0
    ensures Sum(keys, w) == 0 <==> forall k :: k in keys ==> w(k) == 0
  {
    if keys != [] {
      SumOfNonNegative(keys[1..], w);
      assert forall k :: k in keys <==> k == keys[0] || k in keys[1..];
    }
  }

  /** The three figures agree exactly when every counted payment is spelled
      "completed". */
  lemma AgreeExactlyWhen(b: Books, stored: seq<Journal>)
    requires Reconciled(b) && NoOverpayment(b) && PositivePayments(b.payments)
    requires PaymentsOnBilled(b) && InvoicesHaveClients(b)
    requires Untouched(AllLines(ManualJournals(stored)), RECEIVABLE)
    ensures Receivable(b, stored) == Sum(GetAll(b.invoices, LiveInvoice), RowDue)
       <==> forall p :: p in b.payments.rows && Counted(b.payments.rows[p]) ==> b.payments.rows[p].status.exact
  {
    ThreeWaysAgree(b, stored);
    SumOfNonNegative(b.payments.order, MisspelledWeight(b.payments.rows));
    if forall k :: k in b.payments.order ==> MisspelledWeight(b.payments.rows)(k) == 0 {
      forall p | p in b.payments.rows && Counted(b.payments.rows[p]) ensures b.payments.rows[p].status.exact {
        assert MisspelledWeight(b.payments.rows)(p) == 0;
      }
    }
  }
}
