/** Inputs at which the finance services fall short of what they promise: one for
    each condition the exact theorems name. */
module Shortfalls {
  import opened Tables
  import opened Sums
  import opened Money
  import opened Finance
  import opened Reconciliation
  import opened PaymentLaws
  import opened ExactReconciliation
  import opened Listing
  import opened Accounting
  import opened Agreement
  import opened Repair
  import opened Integrity
  import Text

  const Today := Env(0, " ", "")

  lemma SumOne<K>(k: K, w: K -> int)
    ensures Sum([k], w) == w(k)
  {
    assert [k][1..] == [];
  }

  lemma SumTwo<K>(j: K, k: K, w: K -> int)
    ensures Sum([j, k], w) == w(j) + w(k)
  {
    assert [j, k][1..] == [k];
    SumOne(k, w);
  }

  lemma BlankReference()
    ensures Text.Trim(" ") == ""
  {
    assert Text.TrimLeft(" ") == Text.TrimLeft("") == "";
  }

  /** A completed payment without a reference. */
  function Pays(invoiceId: string, clientId: string, amount: int): Payment {
    Payment(invoiceId, clientId, Completed(true), " ", amount, false)
  }

  /** Client "c" owes invoice "i", client "d" owes invoice "j", and of the first 50 is
      paid by payment "p". */
  function TwoClients(): Books {
    Books(Table(["i", "j"], map["i" := Invoice("c", PartiallyPaid, None, 100, 50, 50, false),
                                "j" := Invoice("d", Sent, None, 100, 0, 100, false)]),
          Table(["p"], map["p" := Pays("i", "c", 50)]),
          Table(["c", "d"], map["c" := Client(0, 50, false), "d" := Client(0, 100, false)]))
  }

  lemma TwoClientsReconciled()
    ensures Reconciled(TwoClients()) && Linked(TwoClients())
  {
    TwoClientsSound(TwoClients());
    TwoClientsSettled(TwoClients());
  }

  lemma TwoClientsSound(b: Books)
    requires b == TwoClients()
    ensures SoundBooks(b) && Linked(b) && b.invoices.rows.Keys == {"i", "j"}
  {
  }

  lemma TwoClientsSettled(b: Books)
    requires b == TwoClients()
    ensures forall i :: i in b.invoices.rows ==> InvoiceSettled(b, i)
    ensures forall c :: c in b.clients.rows ==> ClientSettled(b, c)
  {
    BothSettled(b);
    forall c | c in b.clients.rows ensures ClientSettled(b, c) {
      TwoClientTotals(b, c);
    }
  }

  lemma BothSettled(b: Books)
    requires b == TwoClients()
    ensures InvoiceSettled(b, "i") && InvoiceSettled(b, "j")
  {
    SumOne("p", PaidWeight(b.payments.rows, "i"));
    SumOne("p", PaidWeight(b.payments.rows, "j"));
    StartsSettledIs(b, "i");
    StartsSettledIs(b, "j");
  }

  lemma TwoClientTotals(b: Books, c: string)
    requires b == TwoClients() && c in b.clients.rows
    ensures ClientSettled(b, c)
  {
    SumTwo("i", "j", RevenueWeight(b.invoices.rows, c));
    SumTwo("i", "j", OutstandingWeight(b.invoices.rows, c));
  }

  function MoveTo(invoiceId: string): PaymentPatch {
    PaymentPatch(Some(invoiceId), None, None, None, None, None)
  }

  /** A patch of the invoice alone moves a payment to another client's invoice: it is
      accepted, and that client's totals are left behind. */
  lemma MoveAcrossClients()
    ensures var b := TwoClients();
            && Reconciled(b) && Linked(b) && UpdatePayment(b, "p", MoveTo("j"), Today).Success?
            && !Reconciled(UpdatePayment(b, "p", MoveTo("j"), Today).value)
  {
    var b := TwoClients();
    TwoClientsReconciled();
    SumOne("p", ExcludingWeight(b.payments.rows, "j", "p"));
    MoveAccepted(b);
    UpdateKeepsExactlyWhen(b, "p", MoveTo("j"), Today);
  }

  lemma MoveAccepted(b: Books)
    requires b == TwoClients() && PaidExcluding(b.payments, "j", "p") == 0
    ensures PatchPayment(b.payments.rows["p"], MoveTo("j")) == Pays("j", "c", 50)
    ensures UpdatePayment(b, "p", MoveTo("j"), Today).Success?
  {
    BlankReference();
    var after := Pays("j", "c", 50);
    assert Balance(b, "j", "p") == 100 && Validate(b, after, "p").Success?;
  }

  // --- creating payments on one invoice ---

  /** Client "c" owes all of invoice "i"; client "d" owes nothing. */
  function OneInvoice(): Books {
    Books(Table(["i"], map["i" := Invoice("c", Sent, None, 100, 0, 100, false)]), Table([], map[]),
          Table(["c", "d"], map["c" := Client(0, 100, false), "d" := Client(0, 0, false)]))
  }

  lemma OneInvoiceReconciled()
    ensures Reconciled(OneInvoice()) && Linked(OneInvoice()) && NoOverpayment(OneInvoice())
  {
    var b := OneInvoice();
    StartsSettledIs(b, "i");
    forall c | c in b.clients.rows ensures ClientSettled(b, c) {
      OneInvoiceTotals(b, c);
    }
  }

  lemma OneInvoiceTotals(b: Books, c: string)
    requires b == OneInvoice() && c in b.clients.rows
    ensures ClientSettled(b, c)
  {
    SumOne("i", RevenueWeight(b.invoices.rows, c));
    SumOne("i", OutstandingWeight(b.invoices.rows, c));
  }

  function Booking(id: string, p: Payment): Call {
    PayCreate(PaymentDraft(id, p), Today)
  }

  /** A payment of a positive amount within the balance, without a reference and
      naming a stored client, is accepted. */
  lemma Accepted(b: Books, id: string, p: Payment)
    requires id != "" && id !in b.payments.rows && p.invoiceId in b.invoices.rows && p.invoiceId != ""
    requires !p.status.Blank? && p.reference == " " && p.clientId in b.clients.rows && p.clientId != ""
    requires 0 < p.amount <= Balance(b, p.invoiceId, "")
    ensures Outcome(b, Booking(id, p)).Success? && Enriched(b, p, Today) == p
  {
    BlankReference();
  }

  /** A payment that names another client than its invoice's is accepted, and the
      books are no longer reconciled. */
  lemma CreateForAnotherClient()
    ensures var b := OneInvoice();
            && Reconciled(b) && Outcome(b, Booking("p", Pays("i", "d", 50))).Success?
            && !Reconciled(Step(b, Booking("p", Pays("i", "d", 50))))
  {
    OneInvoiceReconciled();
    Accepted(OneInvoice(), "p", Pays("i", "d", 50));
    CreateKeepsExactlyWhen(OneInvoice(), PaymentDraft("p", Pays("i", "d", 50)), Today);
  }

  // --- restoring overpays ---

  /** Pay in full, archive the payment, pay in full again, restore the first. */
  function PayTwice(): seq<Call> {
    [Booking("p", Pays("i", "c", 100)), PayArchive("p", Today),
     Booking("q", Pays("i", "c", 100)), PayRestore("p", Today)]
  }

  /** The terms of the single invoice and the payments so far. */
  ghost predicate Holding(b: Books, order: seq<string>, rows: map<string, Payment>) {
    && b.payments == Table(order, rows) && "c" in b.clients.rows
    && b.invoices.rows.Keys == {"i"} && b.invoices.rows["i"].clientId == "c" && b.invoices.rows["i"].total == 100
  }

  lemma HoldingKept(b: Books, call: Call, order: seq<string>, rows: map<string, Payment>)
    requires "c" in b.clients.rows && b.invoices.rows.Keys == {"i"}
    requires b.invoices.rows["i"].clientId == "c" && b.invoices.rows["i"].total == 100
    requires Outcome(b, call).Success? && !call.InvCreate? && !call.InvUpdate?
    requires PaymentsAfter(b, call) == Table(order, rows)
    ensures Holding(Step(b, call), order, rows)
  {
    PaymentCallFrame(b, call);
    assert "i" in b.invoices.rows;
  }

  lemma Booked(b: Books, order: seq<string>, rows: map<string, Payment>, id: string, p: Payment)
    requires Holding(b, order, rows) && id != "" && id !in rows
    requires p.invoiceId == "i" && p.status.Completed? && p.reference == " " && p.clientId == "c"
    requires 0 < p.amount <= Balance(b, "i", "")
    ensures Outcome(b, Booking(id, p)).Success? && Holding(Step(b, Booking(id, p)), order + [id], rows[id := p])
  {
    assert "i" in b.invoices.rows;
    Accepted(b, id, p);
    HoldingKept(b, Booking(id, p), order + [id], rows[id := p]);
  }

  lemma ArchivedAgain(b: Books, order: seq<string>, rows: map<string, Payment>)
    requires Holding(b, order, rows) && "p" in rows && rows["p"].invoiceId == "i" && rows["p"].clientId == "c"
    ensures Outcome(b, PayArchive("p", Today)).Success?
    ensures Holding(Step(b, PayArchive("p", Today)), order, rows["p" := rows["p"].(archived := true)])
  {
    assert "i" in b.invoices.rows;
    HoldingKept(b, PayArchive("p", Today), order, rows["p" := rows["p"].(archived := true)]);
  }

  lemma RestoredAgain(b: Books, order: seq<string>, rows: map<string, Payment>)
    requires Holding(b, order, rows) && "p" in rows && rows["p"].invoiceId == "i" && rows["p"].clientId == "c"
    ensures Outcome(b, PayRestore("p", Today)).Success?
    ensures Holding(Step(b, PayRestore("p", Today)), order, rows["p" := Restored(rows["p"])])
  {
    assert "i" in b.invoices.rows;
    HoldingKept(b, PayRestore("p", Today), order, rows["p" := Restored(rows["p"])]);
  }

  const Full := Pays("i", "c", 100)
  const Shelved := Full.(archived := true)

  lemma OpeningBalance()
    ensures Holding(OneInvoice(), [], map[]) && Balance(OneInvoice(), "i", "") == 100
  {
  }

  lemma SecondBalance(b: Books)
    requires Holding(b, ["p"], map["p" := Shelved])
    ensures Balance(b, "i", "") == 100
  {
    SumOne("p", ExcludingWeight(b.payments.rows, "i", ""));
    assert "i" in b.invoices.rows;
  }

  lemma PaidTwice(b: Books)
    requires Holding(b, ["p", "q"], map["p" := Full, "q" := Full])
    ensures !NoOverpayment(b)
  {
    SumTwo("p", "q", PaidWeight(b.payments.rows, "i"));
    assert "i" in b.invoices.rows && PaidOn(b.payments, "i") == 200;
  }

  /** Each call of the run succeeds. */
  predicate AllAccepted(b: Books, calls: seq<Call>)
    decreases |calls|
  {
    calls == [] || (Outcome(b, calls[0]).Success? && AllAccepted(Step(b, calls[0]), calls[1..]))
  }

  /** Every call goes through, and in the end an invoice is overpaid. */
  ghost predicate Overpays(b: Books, calls: seq<Call>) {
    AllAccepted(b, calls) && !NoOverpayment(Run(b, calls))
  }

  lemma RunFirst(b: Books, call: Call, rest: seq<Call>)
    ensures Run(b, [call] + rest) == Run(Step(b, call), rest)
    ensures AllAccepted(b, [call] + rest) <==> Outcome(b, call).Success? && AllAccepted(Step(b, call), rest)
  {
    assert ([call] + rest)[1..] == rest;
  }

  /** The restored payment comes on top of the second. */
  lemma LastCallOverpays(b: Books)
    requires Holding(b, ["p", "q"], map["p" := Shelved, "q" := Full])
    ensures Overpays(b, [PayRestore("p", Today)] + [])
  {
    RestoredAgain(b, ["p", "q"], map["p" := Shelved, "q" := Full]);
    assert map["p" := Shelved, "q" := Full]["p" := Restored(Shelved)] == map["p" := Full, "q" := Full];
    PaidTwice(Step(b, PayRestore("p", Today)));
    RunFirst(b, PayRestore("p", Today), []);
  }

  lemma LastTwoCallsOverpay(b: Books)
    requires Holding(b, ["p"], map["p" := Shelved])
    ensures Overpays(b, [Booking("q", Full)] + ([PayRestore("p", Today)] + []))
  {
    SecondBalance(b);
    Booked(b, ["p"], map["p" := Shelved], "q", Full);
    assert ["p"] + ["q"] == ["p", "q"];
    LastCallOverpays(Step(b, Booking("q", Full)));
    RunFirst(b, Booking("q", Full), [PayRestore("p", Today)] + []);
  }

  lemma LastThreeCallsOverpay(b: Books)
    requires Holding(b, ["p"], map["p" := Full])
    ensures Overpays(b, [PayArchive("p", Today)] + ([Booking("q", Full)] + ([PayRestore("p", Today)] + [])))
  {
    ArchivedAgain(b, ["p"], map["p" := Full]);
    assert map["p" := Full]["p" := Shelved] == map["p" := Shelved];
    LastTwoCallsOverpay(Step(b, PayArchive("p", Today)));
    RunFirst(b, PayArchive("p", Today), [Booking("q", Full)] + ([PayRestore("p", Today)] + []));
  }

  lemma AllCallsOverpay(b: Books)
    requires Holding(b, [], map[]) && Balance(b, "i", "") == 100
    ensures Overpays(b, PayTwice())
  {
    Booked(b, [], map[], "p", Full);
    assert [] + ["p"] == ["p"];
    LastThreeCallsOverpay(Step(b, Booking("p", Full)));
    RunFirst(b, Booking("p", Full), AfterFirst());
    PayTwiceIs();
  }

  function AfterFirst(): seq<Call> {
    [PayArchive("p", Today)] + ([Booking("q", Full)] + ([PayRestore("p", Today)] + []))
  }

  lemma PayTwiceIs()
    ensures PayTwice() == [Booking("p", Full)] + AfterFirst()
  {
  }

  /** Each call is accepted, and in the end 200 are paid on an invoice of 100. */
  lemma RestoreOverpays()
    ensures Reconciled(OneInvoice()) && NoOverpayment(OneInvoice())
    ensures AllAccepted(OneInvoice(), PayTwice()) && !NoOverpayment(Run(OneInvoice(), PayTwice()))
  {
    OneInvoiceReconciled();
    OpeningBalance();
    AllCallsOverpay(OneInvoice());
  }

  // --- a status word in another letter case ---

  const Shouted := Pays("i", "c", 40).(status := Completed(false))

  /** The books once that payment is booked. */
  ghost predicate ShoutedOn(b: Books) {
    && Holding(b, ["p"], map["p" := Shouted]) && Reconciled(b) && Billed(b.invoices.rows["i"])
  }

  /** Syncing never makes a sent invoice a draft or cancelled one. */
  lemma SyncedStaysBilled(b: Books, id: string, p: Payment)
    requires p.invoiceId in b.invoices.rows && Billed(b.invoices.rows[p.invoiceId])
    requires SideEffects(b, p, 0).Success?
    ensures p.invoiceId in SideEffects(b, p, 0).value.invoices.rows
    ensures Billed(SideEffects(b, p, 0).value.invoices.rows[p.invoiceId])
  {
  }

  lemma ShoutedBooks(b: Books)
    requires Holding(b, [], map[]) && Balance(b, "i", "") == 100 && Reconciled(b) && Billed(b.invoices.rows["i"])
    ensures Outcome(b, Booking("p", Shouted)).Success? && ShoutedOn(Step(b, Booking("p", Shouted)))
  {
    assert "i" in b.invoices.rows;
    Booked(b, [], map[], "p", Shouted);
    ShoutedAsIs(b);
    ShoutedReconciles(b);
    ShoutedStaysBilled(b);
    ShoutedIs(Step(b, Booking("p", Shouted)));
  }

  lemma ShoutedIs(b: Books)
    requires Holding(b, [] + ["p"], map[]["p" := Shouted]) && Reconciled(b) && Billed(b.invoices.rows["i"])
    ensures ShoutedOn(b)
  {
    assert [] + ["p"] == ["p"] && map[]["p" := Shouted] == map["p" := Shouted];
  }

  lemma ShoutedAsIs(b: Books)
    ensures Enriched(b, Shouted, Today) == Shouted
  {
  }

  lemma ShoutedReconciles(b: Books)
    requires Holding(b, [], map[]) && Reconciled(b) && Outcome(b, Booking("p", Shouted)).Success?
    requires Enriched(b, Shouted, Today) == Shouted
    ensures Reconciled(Step(b, Booking("p", Shouted)))
  {
    CreateKeeps(b, PaymentDraft("p", Shouted), Today);
  }

  lemma ShoutedStaysBilled(b: Books)
    requires "i" in b.invoices.rows && Billed(b.invoices.rows["i"]) && Outcome(b, Booking("p", Shouted)).Success?
    requires Enriched(b, Shouted, Today) == Shouted
    ensures "i" in Step(b, Booking("p", Shouted)).invoices.rows
    ensures Billed(Step(b, Booking("p", Shouted)).invoices.rows["i"])
  {
    CreateMeans(b, PaymentDraft("p", Shouted), Today);
    SyncedStaysBilled(b.(payments := Insert(b.payments, "p", Shouted)), "p", Shouted);
  }

  lemma ShoutedFigures(b: Books)
    requires ShoutedOn(b)
    ensures PaidOn(b.payments, "i") == 40 && MisspelledOn(b.payments, "i") == 40
    ensures NoOverpayment(b)
  {
    SumOne("p", PaidWeight(b.payments.rows, "i"));
    SumOne("p", MisspelledOnWeight(b.payments.rows, "i"));
    assert "i" in b.invoices.rows;
  }

  lemma LedgerMisses(b: Books)
    requires ShoutedOn(b)
    ensures Receivable(b, []) != Sum(GetAll(b.invoices, LiveInvoice), RowDue)
  {
    ShoutedFigures(b);
    PositiveShout(b.payments);
    OneMisspelledDisagrees(b, "p");
  }

  lemma PositiveShout(t: Table<Payment>)
    requires t == Table(["p"], map["p" := Shouted])
    ensures Sound(t) && PositivePayments(t) && "p" in t.rows && t.rows["p"] == Shouted
  {
  }

  lemma OneMisspelledDisagrees(b: Books, p: string)
    requires Reconciled(b) && NoOverpayment(b) && PositivePayments(b.payments)
    requires PaymentsOnBilled(b) && InvoicesHaveClients(b)
    requires p in b.payments.rows && Counted(b.payments.rows[p]) && !b.payments.rows[p].status.exact
    ensures Receivable(b, []) != Sum(GetAll(b.invoices, LiveInvoice), RowDue)
  {
    AgreeExactlyWhen(b, []);
  }

  lemma RepairAccepted(b: Books)
    requires ShoutedOn(b)
    ensures RepairAll(b, 0).Success?
  {
  }

  lemma RepairFails(b: Books)
    requires ShoutedOn(b) && RepairAll(b, 0).Success?
    ensures var r := RepairAll(b, 0).value;
            !CleanBill(r, Sum(GetAll(r.invoices, LiveInvoice), RowDue))
  {
    ShoutedFigures(b);
    SyncedLive(b);
    OneMisspelledFails(b, "i");
  }

  /** One live invoice with a payment spelled otherwise is enough. */
  lemma OneMisspelledFails(b: Books, i: string)
    requires SoundBooks(b) && RepairAll(b, 0).Success? && MisspelledOn(b.payments, i) != 0
    requires i in Repaired(b, 0).invoices.rows && Live(Repaired(b, 0).invoices.rows[i])
    ensures var r := RepairAll(b, 0).value;
            !CleanBill(r, Sum(GetAll(r.invoices, LiveInvoice), RowDue))
  {
    RepairPassesChecks(b, 0);
  }

  lemma SyncedLive(b: Books)
    requires "i" in b.invoices.rows && Billed(b.invoices.rows["i"])
    ensures "i" in Repaired(b, 0).invoices.rows && Live(Repaired(b, 0).invoices.rows["i"])
  {
  }

  /** Booked as "Completed", a payment counts for invoice, client and dashboard but not
      for the ledger, and a repaired store still fails the checker. */
  lemma ShoutedPaymentIsMissed()
    ensures var b := OneInvoice();
            && Reconciled(b) && Outcome(b, Booking("p", Shouted)).Success?
            && var b' := Step(b, Booking("p", Shouted));
               && Reconciled(b') && NoOverpayment(b')
               && Receivable(b', []) != Sum(GetAll(b'.invoices, LiveInvoice), RowDue)
               && RepairAll(b', 0).Success?
               && var r := RepairAll(b', 0).value;
                  !CleanBill(r, Sum(GetAll(r.invoices, LiveInvoice), RowDue))
  {
    OneInvoiceReconciled();
    OpeningBalance();
    ShoutedBooks(OneInvoice());
    var b' := Step(OneInvoice(), Booking("p", Shouted));
    ShoutedFigures(b');
    LedgerMisses(b');
    RepairAccepted(b');
    RepairFails(b');
  }

  // --- a client without invoices ---

  /** A client that carries a figure but owns no invoice. */
  function StaleClient(): Books {
    Books(Table([], map[]), Table([], map[]), Table(["c"], map["c" := Client(0, 5, false)]))
  }

  /** Repair succeeds and leaves the figure, which the checker then reports. */
  lemma RepairLeavesStale()
    ensures RepairAll(StaleClient(), 0).Success? && !Reconciled(RepairAll(StaleClient(), 0).value)
    ensures var r := RepairAll(StaleClient(), 0).value;
            !CleanBill(r, Sum(GetAll(r.invoices, LiveInvoice), RowDue))
  {
    var b := StaleClient();
    assert Owners(b.invoices) == {};
    assert "c" in b.clients.rows;
    RepairReconciles(b, 0);
    RepairPassesChecks(b, 0);
  }
}
