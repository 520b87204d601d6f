/** Every finance call as a transaction of the document store: the operations it performs
    on the records make of the books exactly what the finance model says, and a call that
    fails leaves every record as it was. */
module StoredCalls {
  import opened Tables
  import opened Money
  import opened Finance
  import opened Documents
  import opened StoredBooks
  import opened StoreScripts
  import opened StoredDrafts
  import DocumentStore

  const ACTIVITIES := "activities"

  /** The calls as the services receive them, in terms of records. */
  datatype StoredCall =
    | CreatePay(record: Record, at: Moment)
    | UpdatePay(id: string, patch: Record, at: Moment)
    | DeletePay(id: string, at: Moment)
    | ArchivePay(id: string, at: Moment)
    | RestorePay(id: string, at: Moment)
    | CreateInv(record: Record, at: Moment)
    | UpdateInv(id: string, patch: Record, at: Moment)

  ghost function EnvOf(d: Docs, prefixes: Prefixes, coll: string, at: Moment): Env {
    Env(at.today, at.reference, GeneratedId(TableOf(d, coll), prefixes, coll, at.stamp))
  }

  /** The call as the finance model sees it. */
  ghost function TypedCall(d: Docs, prefixes: Prefixes, call: StoredCall, parse: DueParser): Call {
    match call
    case CreatePay(r, at) => PayCreate(PaymentDraft(IdOf(r), PaymentOf(r)), EnvOf(d, prefixes, PAYMENTS, at))
    case UpdatePay(id, patch, at) => PayUpdate(id, PaymentPatchOf(patch), EnvOf(d, prefixes, PAYMENTS, at))
    case DeletePay(id, at) => PayDelete(id, EnvOf(d, prefixes, PAYMENTS, at))
    case ArchivePay(id, at) => PayArchive(id, EnvOf(d, prefixes, PAYMENTS, at))
    case RestorePay(id, at) => PayRestore(id, EnvOf(d, prefixes, PAYMENTS, at))
    case CreateInv(r, at) => InvCreate(IdOf(r), InvoiceOf(r, parse), EnvOf(d, prefixes, INVOICES, at))
    case UpdateInv(id, patch, at) => InvUpdate(id, InvoicePatchOf(patch, parse), EnvOf(d, prefixes, INVOICES, at))
  }

  // --- what each call performs ---

  function NoteScript(at: Moment): Script {
    WriteAnyway(Create(ACTIVITIES, at.activity, at.now, at.stamp))
  }

  ghost function CreatePayScript(d: Docs, prefixes: Prefixes, r: Record, at: Moment, parse: DueParser): Script {
    var b, rec := BooksOf(d, parse), EnrichedRecord(TableOf(d, INVOICES).rows, r, at);
    var p := PaymentOf(rec);
    var booked := b.(payments := Insert(b.payments, CreateId(d, prefixes, PAYMENTS, rec, at.stamp), p));
    var valid := Validate(b, p, "");
    if valid.Failure? then Refuse(valid.error)
    else Then(Write(Create(PAYMENTS, rec, at.now, at.stamp)),
              Then(SideEffectsScript(booked, p, at.today), NoteScript(at)))
  }

  function UpdatePayScript(b: Books, id: string, patch: Record, at: Moment): Script {
    if id !in b.payments.rows then Refuse(NotFound)
    else
      var before := b.payments.rows[id];
      var after := PatchPayment(before, PaymentPatchOf(patch));
      var valid := Validate(b, after, id);
      if valid.Failure? then Refuse(valid.error)
      else
        var b1 := b.(payments := Put(b.payments, id, after));
        var left := LeaveInvoice(b1, before, after, at.today);
        Then(Write(Op.Update(PAYMENTS, id, patch)),
             Then(LeaveScript(b1, before, after, at.today),
                  if left.Failure? then Nothing else SideEffectsScript(left.value, after, at.today)))
  }

  /** Deleting, archiving and restoring: one write, then the side effects of a payment. */
  function InPlaceScript(op: Op, b1: Books, p: Payment, at: Moment): Script {
    Then(Write(op), SideEffectsScript(b1, p, at.today))
  }

  function DeletePayScript(b: Books, id: string, at: Moment): Script {
    if id !in b.payments.rows then Refuse(NotFound)
    else InPlaceScript(Op.PermanentDelete(PAYMENTS, id), b.(payments := Drop(b.payments, id)), b.payments.rows[id], at)
  }

  function ArchivePayScript(b: Books, id: string, at: Moment): Script {
    if id !in b.payments.rows then Refuse(NotFound)
    else
      var p := b.payments.rows[id];
      InPlaceScript(Op.Archive(PAYMENTS, id, at.now), b.(payments := Put(b.payments, id, p.(archived := true))), p, at)
  }

  function RestorePayScript(b: Books, id: string, at: Moment): Script {
    if id !in b.payments.rows then Refuse(NotFound)
    else
      var p := Restored(b.payments.rows[id]);
      InPlaceScript(Op.Restore(PAYMENTS, id), b.(payments := Put(b.payments, id, p)), p, at)
  }

  ghost function CreateInvScript(d: Docs, prefixes: Prefixes, r: Record, at: Moment, parse: DueParser): Script {
    var b, rec := BooksOf(d, parse), DraftRecord(r);
    var inv := InvoiceOf(rec, parse);
    var drafted := b.(invoices := Insert(b.invoices, CreateId(d, prefixes, INVOICES, rec, at.stamp), inv));
    Then(Write(Create(INVOICES, rec, at.now, at.stamp)), Then(RecalcScript(drafted, inv.clientId), NoteScript(at)))
  }

  function UpdateInvScript(b: Books, id: string, patch: Record, at: Moment, parse: DueParser): Script {
    if id !in b.invoices.rows then Refuse(NotFound)
    else
      var before := b.invoices.rows[id];
      var after := PatchInvoice(before, InvoicePatchOf(patch, parse));
      var b1 := b.(invoices := Put(b.invoices, id, after));
      var synced := Sync(b1, id, at.today);
      Then(Write(Op.Update(INVOICES, id, patch)),
           Then(SyncScript(b1, id, at.today),
                if synced.Failure? then Nothing else OwnersScript(synced.value, before.clientId, after.clientId)))
  }

  /** The old client of an invoice, if it is another, and the new one. */
  function OwnersScript(b: Books, before: string, after: string): Script {
    if before != after then Then(RecalcAnywayScript(b, before), RecalcAnywayScript(RecalcIfAny(b, before), after))
    else RecalcAnywayScript(b, after)
  }

  ghost function ScriptOf(d: Docs, prefixes: Prefixes, call: StoredCall, parse: DueParser): Script {
    var b := BooksOf(d, parse);
    match call
    case CreatePay(r, at) => CreatePayScript(d, prefixes, r, at, parse)
    case UpdatePay(id, patch, at) => UpdatePayScript(b, id, patch, at)
    case DeletePay(id, at) => DeletePayScript(b, id, at)
    case ArchivePay(id, at) => ArchivePayScript(b, id, at)
    case RestorePay(id, at) => RestorePayScript(b, id, at)
    case CreateInv(r, at) => CreateInvScript(d, prefixes, r, at, parse)
    case UpdateInv(id, patch, at) => UpdateInvScript(b, id, patch, at, parse)
  }

  // --- each call does what the finance model says ---

  lemma InPlaceYields(d: Docs, prefixes: Prefixes, op: Op, b1: Books, p: Payment, at: Moment, parse: DueParser)
    requires Yields(d, prefixes, Write(op), parse, Success(b1))
    ensures Yields(d, prefixes, InPlaceScript(op, b1, p, at), parse, SideEffects(b1, p, at.today))
  {
    SideEffectsYield(Played(d, prefixes, Write(op)).0, prefixes, p, at.today, parse);
    ThenYields(d, prefixes, Write(op), SideEffectsScript(b1, p, at.today), parse, Success(b1),
               SideEffects(b1, p, at.today));
  }

  lemma DeletePayYields(d: Docs, prefixes: Prefixes, id: string, at: Moment, env: Env, parse: DueParser)
    requires env.today == at.today
    ensures var b := BooksOf(d, parse);
            Yields(d, prefixes, DeletePayScript(b, id, at), parse, DeletePayment(b, id, env))
  {
    var b := BooksOf(d, parse);
    if id in b.payments.rows {
      DeleteIsTheStores(d, prefixes, id, parse);
      PlayedWrite(d, prefixes, Op.PermanentDelete(PAYMENTS, id));
      InPlaceYields(d, prefixes, Op.PermanentDelete(PAYMENTS, id), b.(payments := Drop(b.payments, id)),
                    b.payments.rows[id], at, parse);
    }
  }

  lemma ArchivePayYields(d: Docs, prefixes: Prefixes, id: string, at: Moment, env: Env, parse: DueParser)
    requires env.today == at.today
    ensures var b := BooksOf(d, parse);
            Yields(d, prefixes, ArchivePayScript(b, id, at), parse, ArchivePayment(b, id, env))
  {
    var b := BooksOf(d, parse);
    if id in b.payments.rows {
      var p := b.payments.rows[id];
      ArchiveIsTheStores(d, prefixes, id, at.now, parse);
      PlayedWrite(d, prefixes, Op.Archive(PAYMENTS, id, at.now));
      InPlaceYields(d, prefixes, Op.Archive(PAYMENTS, id, at.now),
                    b.(payments := Put(b.payments, id, p.(archived := true))), p, at, parse);
    }
  }

  lemma RestorePayYields(d: Docs, prefixes: Prefixes, id: string, at: Moment, env: Env, parse: DueParser)
    requires env.today == at.today
    ensures var b := BooksOf(d, parse);
            Yields(d, prefixes, RestorePayScript(b, id, at), parse, RestorePayment(b, id, env))
  {
    var b := BooksOf(d, parse);
    if id in b.payments.rows {
      var p := Restored(b.payments.rows[id]);
      RestoreIsTheStores(d, prefixes, id, parse);
      PlayedWrite(d, prefixes, Op.Restore(PAYMENTS, id));
      InPlaceYields(d, prefixes, Op.Restore(PAYMENTS, id), b.(payments := Put(b.payments, id, p)), p, at, parse);
    }
  }

  lemma UpdatePayYields(d: Docs, prefixes: Prefixes, id: string, patch: Record, at: Moment, env: Env, parse: DueParser)
    requires env.today == at.today
    ensures var b := BooksOf(d, parse);
            Yields(d, prefixes, UpdatePayScript(b, id, patch, at), parse,
                   UpdatePayment(b, id, PaymentPatchOf(patch), env))
  {
    var b := BooksOf(d, parse);
    if id in b.payments.rows {
      var before := b.payments.rows[id];
      var after := PatchPayment(before, PaymentPatchOf(patch));
      if Validate(b, after, id).Success? {
        var b1 := b.(payments := Put(b.payments, id, after));
        var write := Write(Op.Update(PAYMENTS, id, patch));
        UpdatePaymentYields(d, prefixes, id, patch, parse);
        var d1 := Played(d, prefixes, write).0;
        MovedYields(d1, prefixes, before, after, at.today, parse);
        var left := LeaveInvoice(b1, before, after, at.today);
        var rest := Then(LeaveScript(b1, before, after, at.today),
                         if left.Failure? then Nothing else SideEffectsScript(left.value, after, at.today));
        ThenYields(d, prefixes, write, rest, parse, Success(b1),
                   if left.Failure? then left else SideEffects(left.value, after, at.today));
      }
    }
  }

  lemma MovedYields(d: Docs, prefixes: Prefixes, before: Payment, after: Payment, today: Day, parse: DueParser)
    ensures var b := BooksOf(d, parse);
            var left := LeaveInvoice(b, before, after, today);
            Yields(d, prefixes, Then(LeaveScript(b, before, after, today),
                                     if left.Failure? then Nothing else SideEffectsScript(left.value, after, today)),
                   parse, if left.Failure? then left else SideEffects(left.value, after, today))
  {
    var b := BooksOf(d, parse);
    var first, left := LeaveScript(b, before, after, today), LeaveInvoice(b, before, after, today);
    LeaveYields(d, prefixes, before, after, today, parse);
    if left.Success? {
      SideEffectsYield(Played(d, prefixes, first).0, prefixes, after, today, parse);
      ThenYields(d, prefixes, first, SideEffectsScript(left.value, after, today), parse, left,
                 SideEffects(left.value, after, today));
    } else {
      ThenYields(d, prefixes, first, Nothing, parse, left, left);
    }
  }

  // --- creates ---

  lemma TypedInsert<R>(t: Table<Record>, id: string, r: Record, view: Record -> R)
    ensures Typed(Insert(t, id, r), view) == Insert(Typed(t, view), id, view(r))
  {
    assert Typed(Insert(t, id, r), view).rows == Insert(Typed(t, view), id, view(r)).rows;
  }

  lemma InsertPaymentYields(d: Docs, prefixes: Prefixes, rec: Record, at: Moment, parse: DueParser)
    ensures var b, id := BooksOf(d, parse), CreateId(d, prefixes, PAYMENTS, rec, at.stamp);
            Yields(d, prefixes, Write(Create(PAYMENTS, rec, at.now, at.stamp)), parse,
                   if id in b.payments.rows then Failure(Conflict)
                   else Success(b.(payments := Insert(b.payments, id, PaymentOf(rec)))))
  {
    var t, id := TableOf(d, PAYMENTS), CreateId(d, prefixes, PAYMENTS, rec, at.stamp);
    var stored := Stamped(rec, id, at.now);
    PlayedWrite(d, prefixes, Create(PAYMENTS, rec, at.now, at.stamp));
    StampedView(rec, id, at.now);
    TypedInsert(t, id, stored, PaymentOf);
    PaymentsWritten(d, Insert(t, id, stored), parse);
  }

  lemma InsertInvoiceYields(d: Docs, prefixes: Prefixes, rec: Record, at: Moment, parse: DueParser)
    ensures var b, id := BooksOf(d, parse), CreateId(d, prefixes, INVOICES, rec, at.stamp);
            Yields(d, prefixes, Write(Create(INVOICES, rec, at.now, at.stamp)), parse,
                   if id in b.invoices.rows then Failure(Conflict)
                   else Success(b.(invoices := Insert(b.invoices, id, InvoiceOf(rec, parse)))))
  {
    var t, id := TableOf(d, INVOICES), CreateId(d, prefixes, INVOICES, rec, at.stamp);
    var stored := Stamped(rec, id, at.now);
    PlayedWrite(d, prefixes, Create(INVOICES, rec, at.now, at.stamp));
    StampedInvoiceView(rec, id, at.now, parse);
    TypedInsert(t, id, stored, InvoiceView(parse));
    InvoicesWritten(d, Insert(t, id, stored), parse);
  }

  /** The activity noted at the end is none of the books' business. */
  lemma NoteYields(d: Docs, prefixes: Prefixes, at: Moment, parse: DueParser)
    ensures Yields(d, prefixes, NoteScript(at), parse, Success(BooksOf(d, parse)))
  {
    var op := Create(ACTIVITIES, at.activity, at.now, at.stamp);
    PlayedWrite(d, prefixes, op);
    assert ACTIVITIES[0] == 'a' && INVOICES[0] == 'i' && PAYMENTS[0] == 'p' && CLIENTS[0] == 'c';
    var d' := Effect(d, prefixes, op).0;
    assert TableOf(d', INVOICES) == TableOf(d, INVOICES) && TableOf(d', PAYMENTS) == TableOf(d, PAYMENTS)
           && TableOf(d', CLIENTS) == TableOf(d, CLIENTS);
  }

  /** The activity is recorded under its own or a generated id, unless that is in use. */
  lemma NoteTells(d: Docs, prefixes: Prefixes, at: Moment)
    ensures var id := CreateId(d, prefixes, ACTIVITIES, at.activity, at.stamp);
            var d' := Played(d, prefixes, NoteScript(at)).0;
            id in TableOf(d', ACTIVITIES).rows
            && (id !in TableOf(d, ACTIVITIES).rows
                ==> TableOf(d', ACTIVITIES).rows[id] == Stamped(at.activity, id, at.now))
  {
    PlayedWrite(d, prefixes, Create(ACTIVITIES, at.activity, at.now, at.stamp));
  }

  lemma NotedYields(d: Docs, prefixes: Prefixes, s: Script, at: Moment, parse: DueParser, r: Result<Books, Error>)
    requires Yields(d, prefixes, s, parse, r)
    ensures Yields(d, prefixes, Then(s, NoteScript(at)), parse, r)
  {
    NoteYields(Played(d, prefixes, s).0, prefixes, at, parse);
    ThenYields(d, prefixes, s, NoteScript(at), parse, r, r);
  }

  /** A payment without an invoice is refused, whatever else it says. */
  lemma EnrichedFor(d: Docs, r: Record, at: Moment, env: Env, parse: DueParser)
    requires env.stamp == at.reference
    ensures var b, rec := BooksOf(d, parse), EnrichedRecord(TableOf(d, INVOICES).rows, r, at);
            && IdOf(rec) == IdOf(r)
            && Validate(b, PaymentOf(rec), "") == Validate(b, Enriched(b, PaymentOf(r), env), "")
            && (Validate(b, PaymentOf(rec), "").Success? ==> PaymentOf(rec) == Enriched(b, PaymentOf(r), env))
  {
    EnrichedView(BooksOf(d, parse), TableOf(d, INVOICES).rows, r, at, env, parse);
  }

  lemma CreatePayYields(d: Docs, prefixes: Prefixes, r: Record, at: Moment, parse: DueParser)
    ensures Yields(d, prefixes, CreatePayScript(d, prefixes, r, at, parse), parse,
                   CreatePayment(BooksOf(d, parse), PaymentDraft(IdOf(r), PaymentOf(r)),
                                 EnvOf(d, prefixes, PAYMENTS, at)))
  {
    var b, rec := BooksOf(d, parse), EnrichedRecord(TableOf(d, INVOICES).rows, r, at);
    var p, id := PaymentOf(rec), CreateId(d, prefixes, PAYMENTS, rec, at.stamp);
    EnrichedFor(d, r, at, EnvOf(d, prefixes, PAYMENTS, at), parse);
    if Validate(b, p, "").Success? {
      var write := Write(Create(PAYMENTS, rec, at.now, at.stamp));
      var booked := b.(payments := Insert(b.payments, id, p));
      var effects := SideEffectsScript(booked, p, at.today);
      InsertPaymentYields(d, prefixes, rec, at, parse);
      var d1 := Played(d, prefixes, write).0;
      if id !in b.payments.rows {
        SideEffectsYield(d1, prefixes, p, at.today, parse);
        NotedYields(d1, prefixes, effects, at, parse, SideEffects(booked, p, at.today));
      }
      ThenYields(d, prefixes, write, Then(effects, NoteScript(at)), parse,
                 if id in b.payments.rows then Failure(Conflict) else Success(booked),
                 SideEffects(booked, p, at.today));
    }
  }

  lemma CreateInvYields(d: Docs, prefixes: Prefixes, r: Record, at: Moment, parse: DueParser)
    ensures Yields(d, prefixes, CreateInvScript(d, prefixes, r, at, parse), parse,
                   CreateInvoice(BooksOf(d, parse), IdOf(r), InvoiceOf(r, parse), EnvOf(d, prefixes, INVOICES, at)))
  {
    var b, rec := BooksOf(d, parse), DraftRecord(r);
    var inv, id := InvoiceOf(rec, parse), CreateId(d, prefixes, INVOICES, rec, at.stamp);
    DraftView(r, parse);
    var write := Write(Create(INVOICES, rec, at.now, at.stamp));
    var drafted := b.(invoices := Insert(b.invoices, id, inv));
    InsertInvoiceYields(d, prefixes, rec, at, parse);
    var d1 := Played(d, prefixes, write).0;
    if id !in b.invoices.rows {
      RecalcYields(d1, prefixes, inv.clientId, parse);
      NotedYields(d1, prefixes, RecalcScript(drafted, inv.clientId), at, parse, Recalc(drafted, inv.clientId));
    }
    ThenYields(d, prefixes, write, Then(RecalcScript(drafted, inv.clientId), NoteScript(at)), parse,
               if id in b.invoices.rows then Failure(Conflict) else Success(drafted), Recalc(drafted, inv.clientId));
  }

  lemma OwnersYield(d: Docs, prefixes: Prefixes, before: string, after: string, parse: DueParser)
    ensures var b := BooksOf(d, parse);
            Yields(d, prefixes, OwnersScript(b, before, after), parse,
                   Success(RecalcIfAny(if before != after then RecalcIfAny(b, before) else b, after)))
  {
    var b := BooksOf(d, parse);
    if before != after {
      var b1 := RecalcIfAny(b, before);
      RecalcYields(d, prefixes, before, parse);
      RecalcYields(Played(d, prefixes, RecalcAnywayScript(b, before)).0, prefixes, after, parse);
      ThenYields(d, prefixes, RecalcAnywayScript(b, before), RecalcAnywayScript(b1, after), parse, Success(b1),
                 Success(RecalcIfAny(b1, after)));
    } else {
      RecalcYields(d, prefixes, after, parse);
    }
  }

  lemma UpdateInvYields(d: Docs, prefixes: Prefixes, id: string, patch: Record, at: Moment, env: Env, parse: DueParser)
    requires env.today == at.today
    ensures var b := BooksOf(d, parse);
            Yields(d, prefixes, UpdateInvScript(b, id, patch, at, parse), parse,
                   UpdateInvoice(b, id, InvoicePatchOf(patch, parse), env))
  {
    var b := BooksOf(d, parse);
    if id in b.invoices.rows {
      var before := b.invoices.rows[id];
      var after := PatchInvoice(before, InvoicePatchOf(patch, parse));
      var b1 := b.(invoices := Put(b.invoices, id, after));
      var write := Write(Op.Update(INVOICES, id, patch));
      PatchedInvoiceView(TableOf(d, INVOICES).rows[id], patch, parse);
      UpdateInvoiceYields(d, prefixes, id, patch, after, parse);
      ResettledYields(Played(d, prefixes, write).0, prefixes, id, before.clientId, after.clientId, at.today, parse);
      var synced := Sync(b1, id, at.today);
      var owners := if synced.Failure? then Nothing else OwnersScript(synced.value, before.clientId, after.clientId);
      ThenYields(d, prefixes, write, Then(SyncScript(b1, id, at.today), owners), parse, Success(b1),
                 UpdateInvoice(b, id, InvoicePatchOf(patch, parse), env));
    }
  }

  lemma ResettledYields(d: Docs, prefixes: Prefixes, id: string, before: string, after: string, today: Day,
                        parse: DueParser)
    ensures var b := BooksOf(d, parse);
            var synced := Sync(b, id, today);
            Yields(d, prefixes, Then(SyncScript(b, id, today),
                                     if synced.Failure? then Nothing else OwnersScript(synced.value, before, after)),
                   parse,
                   if synced.Failure? then synced
                   else Success(RecalcIfAny(if before != after then RecalcIfAny(synced.value, before)
                                            else synced.value, after)))
  {
    var b := BooksOf(d, parse);
    var first, synced := SyncScript(b, id, today), Sync(b, id, today);
    SyncYields(d, prefixes, id, today, parse);
    if synced.Success? {
      OwnersYield(Played(d, prefixes, first).0, prefixes, before, after, parse);
      ThenYields(d, prefixes, first, OwnersScript(synced.value, before, after), parse, synced,
                 Success(RecalcIfAny(if before != after then RecalcIfAny(synced.value, before) else synced.value,
                                     after)));
    } else {
      ThenYields(d, prefixes, first, Nothing, parse, synced, synced);
    }
  }

  // --- calls and runs ---

  /** Whatever the store holds: the operations a call performs on the records end in the
      error of the finance model or leave the books it says. */
  lemma CallIsItsScript(d: Docs, prefixes: Prefixes, call: StoredCall, parse: DueParser)
    ensures Yields(d, prefixes, ScriptOf(d, prefixes, call, parse), parse,
                   Outcome(BooksOf(d, parse), TypedCall(d, prefixes, call, parse)))
  {
    if call.CreateInv? {
      CreatedInvoiceYields(d, prefixes, call.record, call.at, parse);
    } else if call.UpdateInv? {
      PatchedInvoiceYields(d, prefixes, call.id, call.patch, call.at, parse);
    } else if call.CreatePay? || call.UpdatePay? {
      WrittenPaymentYields(d, prefixes, call, parse);
    } else {
      StoredPaymentYields(d, prefixes, call, parse);
    }
  }

  ghost predicate IsItsScript(d: Docs, prefixes: Prefixes, call: StoredCall, parse: DueParser) {
    Yields(d, prefixes, ScriptOf(d, prefixes, call, parse), parse,
           Outcome(BooksOf(d, parse), TypedCall(d, prefixes, call, parse)))
  }

  lemma CreatedInvoiceYields(d: Docs, prefixes: Prefixes, r: Record, at: Moment, parse: DueParser)
    ensures IsItsScript(d, prefixes, CreateInv(r, at), parse)
  {
    CreateInvYields(d, prefixes, r, at, parse);
    CreateInvScriptIs(d, prefixes, r, at, parse);
    CreateInvIs(d, prefixes, r, at, parse);
    CreateMeansInvoice(BooksOf(d, parse), IdOf(r), InvoiceOf(r, parse), EnvOf(d, prefixes, INVOICES, at));
  }

  lemma CreateInvScriptIs(d: Docs, prefixes: Prefixes, r: Record, at: Moment, parse: DueParser)
    ensures ScriptOf(d, prefixes, CreateInv(r, at), parse) == CreateInvScript(d, prefixes, r, at, parse)
  {
  }

  lemma CreateInvIs(d: Docs, prefixes: Prefixes, r: Record, at: Moment, parse: DueParser)
    ensures TypedCall(d, prefixes, CreateInv(r, at), parse)
         == InvCreate(IdOf(r), InvoiceOf(r, parse), EnvOf(d, prefixes, INVOICES, at))
  {
  }

  lemma CreateMeansInvoice(b: Books, id: string, inv: Invoice, env: Env)
    ensures Outcome(b, InvCreate(id, inv, env)) == CreateInvoice(b, id, inv, env)
  {
  }

  lemma PatchedInvoiceYields(d: Docs, prefixes: Prefixes, id: string, patch: Record, at: Moment, parse: DueParser)
    ensures IsItsScript(d, prefixes, UpdateInv(id, patch, at), parse)
  {
    UpdateInvYields(d, prefixes, id, patch, at, EnvOf(d, prefixes, INVOICES, at), parse);
  }

  lemma WrittenPaymentYields(d: Docs, prefixes: Prefixes, call: StoredCall, parse: DueParser)
    requires call.CreatePay? || call.UpdatePay?
    ensures IsItsScript(d, prefixes, call, parse)
  {
    if call.CreatePay? {
      CreatePayYields(d, prefixes, call.record, call.at, parse);
    } else {
      UpdatePayYields(d, prefixes, call.id, call.patch, call.at, EnvOf(d, prefixes, PAYMENTS, call.at), parse);
    }
  }

  lemma StoredPaymentYields(d: Docs, prefixes: Prefixes, call: StoredCall, parse: DueParser)
    requires call.DeletePay? || call.ArchivePay? || call.RestorePay?
    ensures IsItsScript(d, prefixes, call, parse)
  {
    var env := EnvOf(d, prefixes, PAYMENTS, call.at);
    if call.DeletePay? {
      DeletePayYields(d, prefixes, call.id, call.at, env, parse);
    } else if call.ArchivePay? {
      ArchivePayYields(d, prefixes, call.id, call.at, env, parse);
    } else {
      RestorePayYields(d, prefixes, call.id, call.at, env, parse);
    }
  }

  /** The documents after the call's transaction. */
  ghost function StoredStep(d: Docs, prefixes: Prefixes, call: StoredCall, parse: DueParser): Docs {
    var r := Played(d, prefixes, ScriptOf(d, prefixes, call, parse));
    if r.1.Some? then d else r.0
  }

  ghost function StoredRun(d: Docs, prefixes: Prefixes, calls: seq<StoredCall>, parse: DueParser): Docs
    decreases |calls|
  {
    if calls == [] then d else StoredRun(StoredStep(d, prefixes, calls[0], parse), prefixes, calls[1..], parse)
  }

  /** The run as the finance model sees it, ids as the store generates them on the way. */
  ghost function TypedRun(d: Docs, prefixes: Prefixes, calls: seq<StoredCall>, parse: DueParser): seq<Call>
    decreases |calls|
  {
    if calls == [] then []
    else [TypedCall(d, prefixes, calls[0], parse)]
         + TypedRun(StoredStep(d, prefixes, calls[0], parse), prefixes, calls[1..], parse)
  }

  /** Over every run of transactions on the store, the books it shows are those of the
      finance model's run. */
  lemma {:induction false} StoredRunIsTheRun(d: Docs, prefixes: Prefixes, calls: seq<StoredCall>, parse: DueParser)
    ensures BooksOf(StoredRun(d, prefixes, calls, parse), parse)
         == Run(BooksOf(d, parse), TypedRun(d, prefixes, calls, parse))
    decreases |calls|
  {
    if calls != [] {
      var d1 := StoredStep(d, prefixes, calls[0], parse);
      CallIsItsScript(d, prefixes, calls[0], parse);
      assert BooksOf(d1, parse) == Step(BooksOf(d, parse), TypedCall(d, prefixes, calls[0], parse));
      StoredRunIsTheRun(d1, prefixes, calls[1..], parse);
      var rest := TypedRun(d1, prefixes, calls[1..], parse);
      assert ([TypedCall(d, prefixes, calls[0], parse)] + rest)[1..] == rest;
    }
  }

  /** The call's transaction on the store itself: the books become those of the finance
      model, and an error is its error and leaves every document as it was. */
  method RunCall(store: DocumentStore.Store, ghost call: StoredCall, actions: seq<Action>, verdict: Option<Error>,
                 parse: DueParser)
    returns (failed: Option<Error>)
    requires store.Valid()
    requires Script(actions, verdict) == ScriptOf(store.docs, store.prefixes, call, parse)
    modifies store, store.order, store.order.Repr
    ensures store.Valid() && store.docs == StoredStep(old(store.docs), store.prefixes, call, parse)
    ensures var b, typed := old(BooksOf(store.docs, parse)), old(TypedCall(store.docs, store.prefixes, call, parse));
            && BooksOf(store.docs, parse) == Step(b, typed)
            && failed == DocumentStore.ErrorOf(Outcome(b, typed))
    ensures failed.Some? ==> store.docs == old(store.docs)
  {
    CallIsItsScript(store.docs, store.prefixes, call, parse);
    failed := store.WithTx(actions, verdict);
  }
}
