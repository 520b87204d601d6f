/** Double-entry journals, the ledger built from them and the trial balance. */
module Accounting {
  import opened Tables
  import opened Sums
  import opened Listing
  import opened Money
  import opened Finance
  import Text

  datatype Line = Line(account: string, debit: int, credit: int)

  /** Manual journals are the ones a user posts; the other sources are reserved
      for what the service derives. */
  datatype Source = Manual | FromInvoice | FromPayment

  datatype Journal = Journal(source: Source, lines: seq<Line>, archived: bool)

  datatype LedgerRow = LedgerRow(account: string, debit: int, credit: int, balance: int)

  datatype Trial = Trial(rows: seq<LedgerRow>, totalDebit: int, totalCredit: int, balanced: bool)

  const RECEIVABLE := "Accounts Receivable"
  const FEES := "Professional Fees"
  const BANK := "Bank"

  // --- what the loops compute ---

  function DebitOf(line: Line): int { line.debit }

  function CreditOf(line: Line): int { line.credit }

  function AllLines(journals: seq<Journal>): seq<Line> {
    if journals == [] then [] else journals[0].lines + AllLines(journals[1..])
  }

  function DebitTo(account: string): Line -> int {
    (line: Line) => if line.account == account then line.debit else 0
  }

  function CreditTo(account: string): Line -> int {
    (line: Line) => if line.account == account then line.credit else 0
  }

  /** The net balance the lines give an account. */
  function BalanceOf(lines: seq<Line>, account: string): int {
    Sum(lines, DebitTo(account)) - Sum(lines, CreditTo(account))
  }

  ghost predicate Balanced(lines: seq<Line>) {
    Sum(lines, DebitOf) == Sum(lines, CreditOf)
  }

  function InvoiceLines(inv: Invoice): seq<Line> {
    [Line(RECEIVABLE, inv.total, 0), Line(FEES, 0, inv.total)]
  }

  function PaymentLines(p: Payment): seq<Line> {
    [Line(BANK, p.amount, 0), Line(RECEIVABLE, 0, p.amount)]
  }

  predicate LiveInvoice(inv: Invoice) { Live(inv) }

  predicate LivePayment(p: Payment) { !p.archived && !p.status.ArchivedWord? }

  function InvoiceJournals(rows: seq<Row<Invoice>>): seq<Journal> {
    if rows == [] then []
    else (if rows[0].record.status.Draft? || rows[0].record.status.Cancelled? then []
          else [Journal(FromInvoice, InvoiceLines(rows[0].record), false)])
         + InvoiceJournals(rows[1..])
  }

  /** Payments are journalled when the stored word is exactly "completed". */
  function PaymentJournals(rows: seq<Row<Payment>>): seq<Journal> {
    if rows == [] then []
    else (if rows[0].record.status == Completed(true)
          then [Journal(FromPayment, PaymentLines(rows[0].record), false)] else [])
         + PaymentJournals(rows[1..])
  }

  function SystemJournals(b: Books): seq<Journal> {
    InvoiceJournals(GetAll(b.invoices, LiveInvoice)) + PaymentJournals(GetAll(b.payments, LivePayment))
  }

  predicate ShownAsManual(j: Journal) { !j.archived && j.source.Manual? }

  function ManualJournals(stored: seq<Journal>): seq<Journal> {
    if stored == [] then []
    else (if ShownAsManual(stored[0]) then [stored[0]] else []) + ManualJournals(stored[1..])
  }

  /** The ledger groups the lines: one row for each account that occurs. */
  ghost predicate IsLedger(rows: seq<LedgerRow>, lines: seq<Line>) {
    && (forall i, j :: 0 <= i < j < |rows| ==> rows[i].account != rows[j].account)
    && (forall r :: r in rows ==>
          && r.debit == Sum(lines, DebitTo(r.account)) && r.credit == Sum(lines, CreditTo(r.account))
          && r.balance == r.debit - r.credit)
    && RowAccounts(rows) == LineAccounts(lines)
  }

  function RowAccounts(rows: seq<LedgerRow>): set<string> {
    set r | r in rows :: r.account
  }

  function LineAccounts(lines: seq<Line>): set<string> {
    set l | l in lines :: l.account
  }

  lemma RowAccountsAppend(rows: seq<LedgerRow>, row: LedgerRow)
    ensures RowAccounts(rows + [row]) == RowAccounts(rows) + {row.account}
  {
    assert forall r :: r in rows + [row] <==> r in rows || r == row;
  }

  lemma LineAccountsAppend(lines: seq<Line>, line: Line)
    ensures LineAccounts(lines + [line]) == LineAccounts(lines) + {line.account}
  {
    assert forall l :: l in lines + [line] <==> l in lines || l == line;
  }

  // --- regrouping lines by account preserves both columns ---

  function RowDebit(r: LedgerRow): int { r.debit }

  function RowCredit(r: LedgerRow): int { r.credit }

  /** A line has exactly one row, so it is spread over the ledger once. */
  lemma OneRowPerLine(rows: seq<LedgerRow>, l: Line, value: int, w: LedgerRow -> int)
    requires forall i, j :: 0 <= i < j < |rows| ==> rows[i].account != rows[j].account
    requires l.account in RowAccounts(rows)
    requires forall r :: r in rows ==> w(r) == (if l.account == r.account then value else 0)
    ensures Sum(rows, w) == value
  {
    var own :| own in rows && own.account == l.account;
    assert NoDup(rows);
    forall r | r in rows && r != own ensures w(r) == 0 {
      var i :| 0 <= i < |rows| && rows[i] == r;
      var j :| 0 <= j < |rows| && rows[j] == own;
      assert i != j;
    }
    SumOnly(rows, own, w);
  }

  /** Summing a column over the ledger is summing it over the lines. */
  lemma ColumnPreserved(rows: seq<LedgerRow>, lines: seq<Line>, column: Line -> int, rowColumn: LedgerRow -> int,
                        to: LedgerRow -> (Line -> int))
    requires forall i, j :: 0 <= i < j < |rows| ==> rows[i].account != rows[j].account
    requires RowAccounts(rows) == LineAccounts(lines)
    requires forall r, l :: r in rows && l in lines ==> to(r)(l) == (if l.account == r.account then column(l) else 0)
    requires forall r :: r in rows ==> rowColumn(r) == Sum(lines, to(r))
    ensures Sum(rows, rowColumn) == Sum(lines, column)
  {
    var spread := (l: Line) => (r: LedgerRow) => if l.account == r.account then column(l) else 0;
    forall l | l in lines ensures column(l) == Sum(rows, spread(l)) {
      assert l.account in RowAccounts(rows);
      OneRowPerLine(rows, l, column(l), spread(l));
    }
    SumSwap(rows, lines, to, spread, rowColumn, column);
  }

  lemma DebitsPreserved(rows: seq<LedgerRow>, lines: seq<Line>)
    requires IsLedger(rows, lines)
    ensures Sum(rows, RowDebit) == Sum(lines, DebitOf)
  {
    ColumnPreserved(rows, lines, DebitOf, RowDebit, (r: LedgerRow) => DebitTo(r.account));
  }

  lemma CreditsPreserved(rows: seq<LedgerRow>, lines: seq<Line>)
    requires IsLedger(rows, lines)
    ensures Sum(rows, RowCredit) == Sum(lines, CreditOf)
  {
    ColumnPreserved(rows, lines, CreditOf, RowCredit, (r: LedgerRow) => CreditTo(r.account));
  }

  // --- every journal balances ---

  lemma {:induction false} LinesBalance(journals: seq<Journal>)
    requires forall j :: j in journals ==> Balanced(j.lines)
    ensures Balanced(AllLines(journals))
  {
    if journals != [] {
      LinesBalance(journals[1..]);
      SumConcat(journals[0].lines, AllLines(journals[1..]), DebitOf);
      SumConcat(journals[0].lines, AllLines(journals[1..]), CreditOf);
    }
  }

  lemma PairBalances(a: Line, c: Line)
    requires a.debit + c.debit == a.credit + c.credit
    ensures Balanced([a, c])
  {
    assert [a, c][1..] == [c] && [c][1..] == [];
    assert Sum([c], DebitOf) == c.debit && Sum([c], CreditOf) == c.credit;
  }

  lemma {:induction false} InvoiceJournalsBalance(rows: seq<Row<Invoice>>)
    ensures forall j :: j in InvoiceJournals(rows) ==> Balanced(j.lines)
  {
    if rows != [] {
      InvoiceJournalsBalance(rows[1..]);
      var inv := rows[0].record;
      PairBalances(Line(RECEIVABLE, inv.total, 0), Line(FEES, 0, inv.total));
    }
  }

  lemma {:induction false} PaymentJournalsBalance(rows: seq<Row<Payment>>)
    ensures forall j :: j in PaymentJournals(rows) ==> Balanced(j.lines)
  {
    if rows != [] {
      PaymentJournalsBalance(rows[1..]);
      var p := rows[0].record;
      PairBalances(Line(BANK, p.amount, 0), Line(RECEIVABLE, 0, p.amount));
    }
  }

  lemma {:induction false} ManualJournalsAreStored(stored: seq<Journal>)
    ensures forall j :: j in ManualJournals(stored) <==> j in stored && !j.archived && j.source == Manual
  {
    if stored != [] {
      ManualJournalsAreStored(stored[1..]);
      assert forall j :: j in stored <==> j == stored[0] || j in stored[1..];
    }
  }

  ghost predicate AllBalanced(journals: seq<Journal>) {
    forall j :: j in journals ==> Balanced(j.lines)
  }

  lemma ListBalances(b: Books, stored: seq<Journal>)
    requires AllBalanced(stored)
    ensures Balanced(AllLines(SystemJournals(b) + ManualJournals(stored)))
  {
    InvoiceJournalsBalance(GetAll(b.invoices, LiveInvoice));
    PaymentJournalsBalance(GetAll(b.payments, LivePayment));
    ManualJournalsAreStored(stored);
    LinesBalance(SystemJournals(b) + ManualJournals(stored));
  }

  // --- the service ---

  datatype Totals = Totals(debit: int, credit: int)

  /** The aggregation map of the lines seen so far. */
  ghost predicate Aggregates(m: map<string, Totals>, lines: seq<Line>) {
    && m.Keys == LineAccounts(lines)
    && forall a :: a in m ==> m[a] == Totals(Sum(lines, DebitTo(a)), Sum(lines, CreditTo(a)))
  }

  function Aggregate(m: map<string, Totals>, line: Line): map<string, Totals> {
    var t := if line.account in m then m[line.account] else Totals(0, 0);
    m[line.account := Totals(t.debit + line.debit, t.credit + line.credit)]
  }

  lemma AggregateStep(m: map<string, Totals>, lines: seq<Line>, line: Line)
    requires Aggregates(m, lines)
    ensures Aggregates(Aggregate(m, line), lines + [line])
  {
    LineAccountsAppend(lines, line);
    var m' := Aggregate(m, line);
    if line.account !in m {
      SumZero(lines, DebitTo(line.account));
      SumZero(lines, CreditTo(line.account));
    }
    forall a | a in m'
      ensures m'[a] == Totals(Sum(lines + [line], DebitTo(a)), Sum(lines + [line], CreditTo(a)))
    {
      SumAppend(lines, line, DebitTo(a));
      SumAppend(lines, line, CreditTo(a));
    }
  }

  lemma {:induction false} AllLinesPrefix(journals: seq<Journal>, i: nat)
    requires i < |journals|
    ensures AllLines(journals[..i + 1]) == AllLines(journals[..i]) + journals[i].lines
  {
    if i == 0 {
      assert journals[..1][1..] == [];
    } else {
      AllLinesPrefix(journals[1..], i - 1);
      assert journals[..i + 1][1..] == journals[1..][..i];
      assert journals[..i][1..] == journals[1..][..i - 1];
    }
  }

  /** A journal is refused unless its debits equal its credits and are positive. */
  method AssertBalanced(lines: seq<Line>) returns (r: Result<(), Error>)
    ensures r.Success? <==> Balanced(lines) && Sum(lines, DebitOf) > 0
    ensures r.Failure? ==> r.error == Validation
  {
    var debit, credit := 0, 0;
    for i := 0 to |lines|
      invariant debit == Sum(lines[..i], DebitOf)
      invariant credit == Sum(lines[..i], CreditOf)
    {
      SumAppend(lines[..i], lines[i], DebitOf);
      SumAppend(lines[..i], lines[i], CreditOf);
      assert lines[..i + 1] == lines[..i] + [lines[i]];
      debit, credit := debit + lines[i].debit, credit + lines[i].credit;
    }
    assert lines[..|lines|] == lines;
    if debit != credit {
      return Failure(Validation);
    }
    if debit <= 0 {
      return Failure(Validation);
    }
    return Success(());
  }

  /** Groups the journals' lines by account, in no particular order. */
  method BuildLedger(journals: seq<Journal>) returns (rows: seq<LedgerRow>)
    ensures IsLedger(rows, AllLines(journals))
  {
    var m: map<string, Totals> := map[];
    for i := 0 to |journals|
      invariant Aggregates(m, AllLines(journals[..i]))
    {
      AggregatesLines(m, AllLines(journals[..i]), journals[i].lines);
      AllLinesPrefix(journals, i);
      m := AddJournal(m, journals[i].lines);
    }
    assert journals[..|journals|] == journals;
    rows := ReadOut(m, AllLines(journals));
  }

  method AddJournal(m0: map<string, Totals>, lines: seq<Line>) returns (m: map<string, Totals>)
    ensures m == AggregateAll(m0, lines)
  {
    m := m0;
    for k := 0 to |lines|
      invariant AggregateAll(m, lines[k..]) == AggregateAll(m0, lines)
    {
      assert lines[k..][1..] == lines[k + 1..];
      var t := if lines[k].account in m then m[lines[k].account] else Totals(0, 0);
      m := m[lines[k].account := Totals(t.debit + lines[k].debit, t.credit + lines[k].credit)];
    }
  }

  function AggregateAll(m: map<string, Totals>, lines: seq<Line>): map<string, Totals>
    decreases |lines|
  {
    if lines == [] then m else AggregateAll(Aggregate(m, lines[0]), lines[1..])
  }

  lemma {:induction false} AggregatesLines(m: map<string, Totals>, before: seq<Line>, lines: seq<Line>)
    requires Aggregates(m, before)
    ensures Aggregates(AggregateAll(m, lines), before + lines)
    decreases |lines|
  {
    if lines == [] {
      assert before + lines == before;
    } else {
      AggregateStep(m, before, lines[0]);
      AggregatesLines(Aggregate(m, lines[0]), before + [lines[0]], lines[1..]);
      assert before + [lines[0]] + lines[1..] == before + lines;
    }
  }

  /** The rows read out of the aggregation map so far. */
  ghost predicate PartLedger(rows: seq<LedgerRow>, m: map<string, Totals>, left: set<string>) {
    && left <= m.Keys && RowAccounts(rows) == m.Keys - left
    && (forall i, j :: 0 <= i < j < |rows| ==> rows[i].account != rows[j].account)
    && (forall i :: 0 <= i < |rows| ==> IsRowOf(rows[i], m) && rows[i].account !in left)
  }

  predicate IsRowOf(row: LedgerRow, m: map<string, Totals>) {
    && row.account in m && row.debit == m[row.account].debit && row.credit == m[row.account].credit
    && row.balance == row.debit - row.credit
  }

  lemma PartLedgerStep(rows: seq<LedgerRow>, m: map<string, Totals>, left: set<string>, row: LedgerRow)
    requires PartLedger(rows, m, left) && row.account in left && IsRowOf(row, m)
    ensures PartLedger(rows + [row], m, left - {row.account})
  {
    RowAccountsAppend(rows, row);
  }

  method ReadOut(m: map<string, Totals>, ghost lines: seq<Line>) returns (rows: seq<LedgerRow>)
    requires Aggregates(m, lines)
    ensures IsLedger(rows, lines)
  {
    rows := [];
    var left := m.Keys;
    while left != {}
      invariant PartLedger(rows, m, left)
      decreases left
    {
      var a :| a in left;
      var row := LedgerRow(a, m[a].debit, m[a].credit, m[a].debit - m[a].credit);
      PartLedgerStep(rows, m, left, row);
      rows := rows + [row];
      left := left - {a};
    }
  }

  class AccountingService {
    var stored: seq<Journal>

    /** Every stored journal came through PostJournal. */
    ghost predicate Valid()
      reads this
    {
      AllBalanced(stored)
    }

    constructor ()
      ensures Valid() && stored == []
    {
      stored := [];
    }

    method PostJournal(lines: seq<Line>) returns (r: Result<Journal, Error>)
      requires Valid()
      modifies this
      ensures Valid()
      ensures r.Success? <==> Balanced(lines) && Sum(lines, DebitOf) > 0
      ensures r.Success? ==> stored == old(stored) + [r.value] && Sum(r.value.lines, DebitOf) == Sum(lines, DebitOf)
                             && |r.value.lines| == |lines|
                             && forall i :: 0 <= i < |lines| ==>
                                  r.value.lines[i] == Line(Text.Trim(lines[i].account), lines[i].debit, lines[i].credit)
      ensures r.Failure? ==> stored == old(stored)
    {
      var checked := AssertBalanced(lines);
      if checked.Failure? {
        return Failure(checked.error);
      }
      var kept: seq<Line> := [];
      for i := 0 to |lines|
        invariant stored == old(stored)
        invariant |kept| == i
        invariant forall k :: 0 <= k < i ==>
                    kept[k] == Line(Text.Trim(lines[k].account), lines[k].debit, lines[k].credit)
        invariant Sum(kept, DebitOf) == Sum(lines[..i], DebitOf)
        invariant Sum(kept, CreditOf) == Sum(lines[..i], CreditOf)
      {
        var line := Line(Text.Trim(lines[i].account), lines[i].debit, lines[i].credit);
        assert lines[..i + 1] == lines[..i] + [lines[i]];
        SumAppend(lines[..i], lines[i], DebitOf);
        SumAppend(lines[..i], lines[i], CreditOf);
        SumAppend(kept, line, DebitOf);
        SumAppend(kept, line, CreditOf);
        kept := kept + [line];
      }
      assert lines[..|lines|] == lines;
      var journal := Journal(Manual, kept, false);
      assert Balanced(journal.lines);
      stored := stored + [journal];
      assert forall j :: j in stored ==> j in old(stored) || j == journal;
      return Success(journal);
    }

    /** The trial balance of the whole list always balances. */
    method TrialBalance(b: Books) returns (trial: Trial)
      requires Valid()
      ensures IsLedger(trial.rows, AllLines(SystemJournals(b) + ManualJournals(stored)))
      ensures trial.totalDebit == Sum(AllLines(SystemJournals(b) + ManualJournals(stored)), DebitOf)
      ensures trial.totalDebit == trial.totalCredit && trial.balanced
    {
      var journals := ListJournals(b);
      var rows := BuildLedger(journals);
      var debit, credit := 0, 0;
      for i := 0 to |rows|
        invariant debit == Sum(rows[..i], RowDebit)
        invariant credit == Sum(rows[..i], RowCredit)
      {
        SumAppend(rows[..i], rows[i], RowDebit);
        SumAppend(rows[..i], rows[i], RowCredit);
        assert rows[..i + 1] == rows[..i] + [rows[i]];
        debit, credit := debit + rows[i].debit, credit + rows[i].credit;
      }
      assert rows[..|rows|] == rows;
      DebitsPreserved(rows, AllLines(journals));
      CreditsPreserved(rows, AllLines(journals));
      ListBalances(b, stored);
      trial := Trial(rows, debit, credit, debit == credit);
    }

    method ListJournals(b: Books) returns (journals: seq<Journal>)
      ensures journals == SystemJournals(b) + ManualJournals(stored)
    {
      var fromInvoices := BuildInvoiceJournals(GetAll(b.invoices, LiveInvoice));
      var fromPayments := BuildPaymentJournals(GetAll(b.payments, LivePayment));
      var manual: seq<Journal> := [];
      for i := 0 to |stored|
        invariant manual + ManualJournals(stored[i..]) == ManualJournals(stored)
      {
        assert stored[i..][1..] == stored[i + 1..];
        if stored[i].archived || !stored[i].source.Manual? {
          continue;
        }
        manual := manual + [stored[i]];
      }
      journals := fromInvoices + fromPayments + manual;
    }
  }

  method BuildInvoiceJournals(invoices: seq<Row<Invoice>>) returns (out: seq<Journal>)
    ensures out == InvoiceJournals(invoices)
  {
    out := [];
    for i := 0 to |invoices|
      invariant out + InvoiceJournals(invoices[i..]) == InvoiceJournals(invoices)
    {
      var inv := invoices[i].record;
      assert invoices[i..][1..] == invoices[i + 1..];
      if inv.status.Draft? || inv.status.Cancelled? {
        continue;
      }
      out := out + [Journal(FromInvoice, InvoiceLines(inv), false)];
    }
  }

  method BuildPaymentJournals(payments: seq<Row<Payment>>) returns (out: seq<Journal>)
    ensures out == PaymentJournals(payments)
  {
    out := [];
    for i := 0 to |payments|
      invariant out + PaymentJournals(payments[i..]) == PaymentJournals(payments)
    {
      var p := payments[i].record;
      assert payments[i..][1..] == payments[i + 1..];
      if p.status != Completed(true) {
        continue;
      }
      out := out + [Journal(FromPayment, PaymentLines(p), false)];
    }
  }
}
