/** The records that create calls store, and how the finance model sees them. */
module StoredDrafts {
  import opened Tables
  import opened Money
  import opened Finance
  import opened Documents
  import opened StoredBooks
  import opened StoreScripts
  import Text

  /** What the clock, the generators and the wording hand to a call. */
  datatype Moment = Moment(today: Day, now: string, date: string, reference: string, stamp: string, activity: Record)

  function Default(r: Record, key: string, word: string): Record {
    if GetString(r, key) == "" then r.Set(key, Str(word)) else r
  }

  /** A key that no payment field is read from. */
  predicate Foreign(key: string) {
    key !in ["invoiceId", "clientId", "status", "reference", "amount", "archived", "id"]
  }

  lemma SetForeign(r: Record, key: string, v: Value)
    requires Foreign(key)
    ensures PaymentOf(r.Set(key, v)) == PaymentOf(r) && IdOf(r.Set(key, v)) == IdOf(r)
  {
    var own := ["invoiceId", "clientId", "status", "reference", "amount", "archived", "id"];
    assert own[0] in own && own[1] in own && own[2] in own && own[3] in own && own[4] in own && own[5] in own
           && own[6] in own;
  }

  lemma DefaultForeign(r: Record, key: string, word: string)
    requires Foreign(key)
    ensures PaymentOf(Default(r, key, word)) == PaymentOf(r) && IdOf(Default(r, key, word)) == IdOf(r)
  {
    SetForeign(r, key, Str(word));
  }

  lemma ForeignKeys()
    ensures Foreign("paymentDate") && Foreign("method") && Foreign("clientName") && Foreign("invoiceNumber")
    ensures Foreign("createdAt") && Foreign("updatedAt")
  {
    assert |"paymentDate"| == 11 && |"method"| == 6 && |"clientName"| == 10 && |"invoiceNumber"| == 13;
    assert |"invoiceId"| == 9 && |"clientId"| == 8 && |"status"| == 6 && |"reference"| == 9 && |"amount"| == 6;
    assert |"archived"| == 8 && |"id"| == 2 && |"createdAt"| == 9 && |"updatedAt"| == 9;
    assert "method"[0] == 'm' && "status"[0] == 's' && "amount"[0] == 'a';
    assert "createdAt"[0] == 'c' && "updatedAt"[0] == 'u' && "invoiceId"[0] == 'i' && "reference"[0] == 'r';
  }

  /** The blanks of a new payment filled in before its invoice is looked at. */
  function Defaulted(r: Record, at: Moment): Record {
    var dated := Default(Default(r, "paymentDate", at.date), "method", "bank_transfer");
    var worded := Default(Default(dated, "status", "completed"), "reference", at.reference);
    worded.Set("amount", Num(GetNum(worded, "amount")))
  }

  /** The record a payment create call stores: enriched from the invoice, if there is one. */
  function EnrichedRecord(invoices: map<string, Record>, r: Record, at: Moment): Record {
    var filled := Defaulted(r, at);
    var i := GetString(filled, "invoiceId");
    if i != "" && i in invoices then
      var named := Default(filled, "clientId", GetString(invoices[i], "clientId"));
      Default(Default(named, "clientName", GetString(invoices[i], "clientName")),
              "invoiceNumber", GetString(invoices[i], "invoiceNumber"))
    else filled
  }

  lemma OwnKeys()
    ensures "invoiceId" != "clientId" && "invoiceId" != "status" && "invoiceId" != "reference"
    ensures "invoiceId" != "amount"
    ensures "clientId" != "status" && "clientId" != "reference" && "clientId" != "amount" && "clientId" != "archived"
    ensures "status" != "reference" && "status" != "amount" && "status" != "archived"
    ensures "reference" != "amount" && "reference" != "archived" && "amount" != "archived" && "invoiceId" != "archived"
    ensures "id" !in ["invoiceId", "clientId", "status", "reference", "amount", "archived"]
  {
    assert |"invoiceId"| == 9 && |"clientId"| == 8 && |"status"| == 6 && |"reference"| == 9 && |"amount"| == 6;
    assert |"archived"| == 8 && |"id"| == 2;
    assert "invoiceId"[0] == 'i' && "reference"[0] == 'r' && "status"[0] == 's' && "amount"[0] == 'a';
    assert "clientId"[0] == 'c' && "archived"[0] == 'a';
  }

  lemma StatusDefaulted(r: Record)
    ensures var p := PaymentOf(r);
            PaymentOf(Default(r, "status", "completed"))
            == p.(status := if p.status.Blank? then Completed(true) else p.status)
    ensures IdOf(Default(r, "status", "completed")) == IdOf(r)
  {
    OwnKeys();
    assert "id" != "status" by { assert |"id"| == 2 && |"status"| == 6; }
    BlankWord(GetString(r, "status"));
    assert Text.EqualFold("completed", "completed");
  }

  lemma BlankWord(word: string)
    ensures PaymentStatusOf(word).Blank? <==> word == ""
  {
    assert |Text.Lower(word)| == |word| && |Text.Lower("completed")| == 9;
  }

  lemma ReferenceDefaulted(r: Record, reference: string)
    ensures var p := PaymentOf(r);
            PaymentOf(Default(r, "reference", reference))
            == p.(reference := if p.reference == "" then reference else p.reference)
    ensures IdOf(Default(r, "reference", reference)) == IdOf(r)
  {
    OwnKeys();
    assert |"id"| == 2 && |"reference"| == 9;
  }

  lemma AmountRounded(r: Record)
    ensures PaymentOf(r.Set("amount", Num(GetNum(r, "amount")))) == PaymentOf(r)
    ensures IdOf(r.Set("amount", Num(GetNum(r, "amount")))) == IdOf(r)
  {
    OwnKeys();
    assert |"id"| == 2 && |"amount"| == 6;
  }

  lemma ClientDefaulted(r: Record, client: string)
    ensures var p := PaymentOf(r);
            PaymentOf(Default(r, "clientId", client)) == p.(clientId := if p.clientId == "" then client else p.clientId)
    ensures IdOf(Default(r, "clientId", client)) == IdOf(r)
  {
    OwnKeys();
    assert |"id"| == 2 && |"clientId"| == 8;
  }

  lemma DefaultedView(r: Record, at: Moment)
    ensures var p := PaymentOf(r);
            PaymentOf(Defaulted(r, at)) == p.(status := if p.status.Blank? then Completed(true) else p.status,
                                              reference := if p.reference == "" then at.reference else p.reference)
    ensures IdOf(Defaulted(r, at)) == IdOf(r)
  {
    ForeignKeys();
    var dated := Default(r, "paymentDate", at.date);
    DefaultForeign(r, "paymentDate", at.date);
    var paidBy := Default(dated, "method", "bank_transfer");
    DefaultForeign(dated, "method", "bank_transfer");
    StatusDefaulted(paidBy);
    var worded := Default(paidBy, "status", "completed");
    ReferenceDefaulted(worded, at.reference);
    AmountRounded(Default(worded, "reference", at.reference));
  }

  /** The record is the one the finance model stores; without an invoice none is. */
  lemma EnrichedView(b: Books, invoices: map<string, Record>, r: Record, at: Moment, env: Env, parse: DueParser)
    requires b.invoices.rows == map i | i in invoices :: InvoiceView(parse)(invoices[i])
    requires env.stamp == at.reference
    ensures GetString(r, "invoiceId") != "" ==>
              PaymentOf(EnrichedRecord(invoices, r, at)) == Enriched(b, PaymentOf(r), env)
    ensures PaymentOf(EnrichedRecord(invoices, r, at)).invoiceId == GetString(r, "invoiceId")
    ensures IdOf(EnrichedRecord(invoices, r, at)) == IdOf(r)
  {
    DefaultedView(r, at);
    var filled := Defaulted(r, at);
    var i := GetString(filled, "invoiceId");
    assert i == PaymentOf(r).invoiceId;
    if i != "" && i in invoices {
      ForeignKeys();
      ClientDefaulted(filled, GetString(invoices[i], "clientId"));
      var named := Default(filled, "clientId", GetString(invoices[i], "clientId"));
      DefaultForeign(named, "clientName", GetString(invoices[i], "clientName"));
      DefaultForeign(Default(named, "clientName", GetString(invoices[i], "clientName")),
                     "invoiceNumber", GetString(invoices[i], "invoiceNumber"));
    }
  }

  lemma TextKeys()
    ensures "paymentDate" !in ["method", "status", "reference", "amount", "clientId", "clientName", "invoiceNumber"]
    ensures "method" !in ["status", "reference", "amount", "clientId", "clientName", "invoiceNumber"]
    ensures "invoiceId" !in ["paymentDate", "method", "status", "reference", "amount", "clientId", "clientName",
                             "invoiceNumber"]
    ensures "clientName" !in ["paymentDate", "method", "status", "reference", "amount", "clientId", "invoiceNumber"]
    ensures "invoiceNumber" !in ["paymentDate", "method", "status", "reference", "amount", "clientId"]
  {
    assert |"paymentDate"| == 11 && |"method"| == 6 && |"status"| == 6 && |"reference"| == 9 && |"amount"| == 6;
    assert |"clientId"| == 8 && |"clientName"| == 10 && |"invoiceNumber"| == 13 && |"invoiceId"| == 9;
    assert "method"[0] == 'm' && "status"[0] == 's' && "amount"[0] == 'a' && "reference"[0] == 'r';
    assert "invoiceId"[0] == 'i';
  }

  /** The texts of a new payment: today's date and a bank transfer unless it says otherwise,
      and the names its invoice knows. */
  lemma EnrichedTexts(invoices: map<string, Record>, r: Record, at: Moment)
    ensures var rec, i := EnrichedRecord(invoices, r, at), GetString(r, "invoiceId");
            && GetString(rec, "paymentDate") == Filled(GetString(r, "paymentDate"), at.date)
            && GetString(rec, "method") == Filled(GetString(r, "method"), "bank_transfer")
            && GetString(rec, "invoiceId") == i
            && (i != "" && i in invoices ==>
                  && GetString(rec, "clientName")
                     == Filled(GetString(r, "clientName"), GetString(invoices[i], "clientName"))
                  && GetString(rec, "invoiceNumber")
                     == Filled(GetString(r, "invoiceNumber"), GetString(invoices[i], "invoiceNumber")))
  {
    DefaultedTexts(r, at);
    var filled := Defaulted(r, at);
    var i := GetString(filled, "invoiceId");
    if i != "" && i in invoices {
      FromInvoice(filled, invoices[i]);
    }
  }

  lemma FromInvoice(filled: Record, inv: Record)
    ensures var named := Default(filled, "clientId", GetString(inv, "clientId"));
            var rec := Default(Default(named, "clientName", GetString(inv, "clientName")),
                               "invoiceNumber", GetString(inv, "invoiceNumber"));
            && GetString(rec, "clientName") == Filled(GetString(filled, "clientName"), GetString(inv, "clientName"))
            && GetString(rec, "invoiceNumber")
               == Filled(GetString(filled, "invoiceNumber"), GetString(inv, "invoiceNumber"))
            && GetString(rec, "paymentDate") == GetString(filled, "paymentDate")
            && GetString(rec, "method") == GetString(filled, "method")
            && GetString(rec, "invoiceId") == GetString(filled, "invoiceId")
  {
    TextKeys();
    var named := Default(filled, "clientId", GetString(inv, "clientId"));
    var again := Default(named, "clientName", GetString(inv, "clientName"));
    DefaultTells(filled, "clientId", GetString(inv, "clientId"));
    DefaultTells(named, "clientName", GetString(inv, "clientName"));
    DefaultTells(again, "invoiceNumber", GetString(inv, "invoiceNumber"));
  }

  lemma DefaultTells(r: Record, key: string, word: string)
    ensures GetString(Default(r, key, word), key) == Filled(GetString(r, key), word)
    ensures forall other :: other != key ==> GetString(Default(r, key, word), other) == GetString(r, other)
  {
  }

  function Filled(given: string, otherwise: string): string {
    if given == "" then otherwise else given
  }

  lemma DefaultedTexts(r: Record, at: Moment)
    ensures var rec := Defaulted(r, at);
            && GetString(rec, "paymentDate") == Filled(GetString(r, "paymentDate"), at.date)
            && GetString(rec, "method") == Filled(GetString(r, "method"), "bank_transfer")
            && GetString(rec, "invoiceId") == GetString(r, "invoiceId")
            && GetString(rec, "clientName") == GetString(r, "clientName")
            && GetString(rec, "invoiceNumber") == GetString(r, "invoiceNumber")
  {
    TextKeys();
    var dated := Default(r, "paymentDate", at.date);
    var paidBy := Default(dated, "method", "bank_transfer");
    var worded := Default(paidBy, "status", "completed");
    DefaultTells(r, "paymentDate", at.date);
    DefaultTells(dated, "method", "bank_transfer");
    DefaultTells(paidBy, "status", "completed");
    DefaultTells(worded, "reference", at.reference);
    AmountAlone(Default(worded, "reference", at.reference));
  }

  lemma AmountAlone(r: Record)
    ensures forall other :: other != "amount" ==>
              GetString(r.Set("amount", Num(GetNum(r, "amount"))), other) == GetString(r, other)
  {
  }

  /** What the store adds on creation concerns neither payments nor their flags. */
  lemma StampedView(r: Record, id: string, now: string)
    ensures PaymentOf(Stamped(r, id, now)) == PaymentOf(r)
  {
    ForeignKeys();
    var named := if IdOf(r) == "" then r.Set("id", Str(id)) else r;
    IdIsForeign(r, Str(id));
    var dated := if GetString(named, "createdAt") == "" then named.Set("createdAt", Str(now)) else named;
    SetForeign(named, "createdAt", Str(now));
    SetForeign(dated, "updatedAt", Str(now));
    if "archived" !in dated.Set("updatedAt", Str(now)).fields {
      FlagCleared(dated.Set("updatedAt", Str(now)));
    }
  }

  lemma IdIsForeign(r: Record, v: Value)
    ensures PaymentOf(r.Set("id", v)) == PaymentOf(r)
  {
    OwnKeys();
    var own := ["invoiceId", "clientId", "status", "reference", "amount", "archived"];
    assert own[0] in own && own[1] in own && own[2] in own && own[3] in own && own[4] in own && own[5] in own;
  }

  lemma FlagCleared(r: Record)
    requires "archived" !in r.fields
    ensures PaymentOf(r.Set("archived", Bool(false))) == PaymentOf(r)
  {
    OwnKeys();
  }

  // --- invoices ---

  /** The record an invoice create call stores, given one with its texts, its due date
      and its total in place. */
  function DraftRecord(r: Record): Record {
    var worded := Default(r, "status", "draft");
    worded.Set("paidAmount", Num(GetNum(r, "paidAmount")))
          .Set("remainingAmount", Num(Remaining(GetNum(r, "total"), GetNum(r, "paidAmount"))))
  }

  predicate InvoiceKey(key: string) {
    key in ["clientId", "status", "dueDate", "total", "paidAmount", "remainingAmount", "archived"]
  }

  lemma SetForeignToInvoice(r: Record, key: string, v: Value, parse: DueParser)
    requires !InvoiceKey(key)
    ensures InvoiceOf(r.Set(key, v), parse) == InvoiceOf(r, parse)
  {
    var own := ["clientId", "status", "dueDate", "total", "paidAmount", "remainingAmount", "archived"];
    assert own[0] in own && own[1] in own && own[2] in own && own[3] in own && own[4] in own && own[5] in own
           && own[6] in own;
  }

  lemma InvoiceKeys()
    ensures !InvoiceKey("id") && !InvoiceKey("createdAt") && !InvoiceKey("updatedAt")
    ensures forall i, j :: 0 <= i < j < 7 ==>
              var own := ["clientId", "status", "dueDate", "total", "paidAmount", "remainingAmount", "archived"];
              own[i] != own[j]
  {
    assert |"clientId"| == 8 && |"status"| == 6 && |"dueDate"| == 7 && |"total"| == 5 && |"paidAmount"| == 10;
    assert |"remainingAmount"| == 15 && |"archived"| == 8 && |"id"| == 2 && |"createdAt"| == 9 && |"updatedAt"| == 9;
    assert "clientId"[0] == 'c' && "archived"[0] == 'a';
  }

  lemma InvoiceStatusDefaulted(r: Record, parse: DueParser)
    ensures var inv := InvoiceOf(r, parse);
            InvoiceOf(Default(r, "status", "draft"), parse)
            == inv.(status := if inv.status == InvoiceStatus.Other("") then Draft else inv.status)
    ensures IdOf(Default(r, "status", "draft")) == IdOf(r)
  {
    InvoiceKeys();
    assert |"id"| == 2 && |"status"| == 6;
    var word := GetString(r, "status");
    assert |Text.Lower(word)| == |word| && |Text.Lower("archived")| == 8;
  }

  lemma PaidSet(r: Record, paid: int, parse: DueParser)
    ensures InvoiceOf(r.Set("paidAmount", Num(paid)), parse) == InvoiceOf(r, parse).(paid := paid)
    ensures IdOf(r.Set("paidAmount", Num(paid))) == IdOf(r)
  {
    InvoiceKeys();
    assert |"id"| == 2 && |"paidAmount"| == 10;
  }

  lemma RemainingSet(r: Record, left: int, parse: DueParser)
    ensures InvoiceOf(r.Set("remainingAmount", Num(left)), parse) == InvoiceOf(r, parse).(remaining := left)
    ensures IdOf(r.Set("remainingAmount", Num(left))) == IdOf(r)
  {
    InvoiceKeys();
    assert |"id"| == 2 && |"remainingAmount"| == 15;
  }

  lemma DraftView(r: Record, parse: DueParser)
    ensures InvoiceOf(DraftRecord(r), parse) == Drafted(InvoiceOf(r, parse)) && IdOf(DraftRecord(r)) == IdOf(r)
  {
    InvoiceStatusDefaulted(r, parse);
    var worded := Default(r, "status", "draft");
    var paid := GetNum(r, "paidAmount");
    PaidSet(worded, paid, parse);
    RemainingSet(worded.Set("paidAmount", Num(paid)), Remaining(GetNum(r, "total"), paid), parse);
  }

  lemma StampedInvoiceView(r: Record, id: string, now: string, parse: DueParser)
    ensures InvoiceOf(Stamped(r, id, now), parse) == InvoiceOf(r, parse)
  {
    InvoiceKeys();
    var named := if IdOf(r) == "" then r.Set("id", Str(id)) else r;
    SetForeignToInvoice(r, "id", Str(id), parse);
    var dated := if GetString(named, "createdAt") == "" then named.Set("createdAt", Str(now)) else named;
    SetForeignToInvoice(named, "createdAt", Str(now), parse);
    SetForeignToInvoice(dated, "updatedAt", Str(now), parse);
    var touched := dated.Set("updatedAt", Str(now));
    if "archived" !in touched.fields {
      InvoiceFlagCleared(touched, parse);
    }
  }

  lemma InvoiceFlagCleared(r: Record, parse: DueParser)
    requires "archived" !in r.fields
    ensures InvoiceOf(r.Set("archived", Bool(false)), parse) == InvoiceOf(r, parse)
  {
    InvoiceKeys();
  }
}
