/** Exactly which calls keep the books reconciled, whatever client a payment names
    and whatever figures an invoice is created with. */
module ExactReconciliation {
  import opened Tables
  import opened Sums
  import opened Money
  import opened Finance
  import opened Reconciliation
  import opened PaymentLaws

  // --- what syncing an invoice moves ---

  /** What client c owes more once the invoice is synced. */
  function DueShift(b: Books, invoiceId: string, c: string, today: Day): int {
    if invoiceId in b.invoices.rows && b.invoices.rows[invoiceId].clientId == c
    then Due(Settle(b.invoices.rows[invoiceId], PaidOn(b.payments, invoiceId), today)) - Due(b.invoices.rows[invoiceId])
    else 0
  }

  /** What client c brought in more once the invoice is synced. */
  function EarnedShift(b: Books, invoiceId: string, c: string, today: Day): int {
    if invoiceId in b.invoices.rows && b.invoices.rows[invoiceId].clientId == c
    then Earned(Settle(b.invoices.rows[invoiceId], PaidOn(b.payments, invoiceId), today))
         - Earned(b.invoices.rows[invoiceId])
    else 0
  }

  lemma TotalsPut(t: Table<Invoice>, id: string, inv: Invoice, c: string)
    requires Sound(t) && id in t.rows && inv.clientId == t.rows[id].clientId
    ensures OutstandingOf(Put(t, id, inv), c)
         == OutstandingOf(t, c) + (if inv.clientId == c then Due(inv) - Due(t.rows[id]) else 0)
    ensures RevenueOf(Put(t, id, inv), c)
         == RevenueOf(t, c) + (if inv.clientId == c then Earned(inv) - Earned(t.rows[id]) else 0)
  {
    var rows := Put(t, id, inv).rows;
    SumChange(t.order, id, OutstandingWeight(t.rows, c), OutstandingWeight(rows, c));
    SumChange(t.order, id, RevenueWeight(t.rows, c), RevenueWeight(rows, c));
  }

  lemma SyncTotals(b: Books, id: string, today: Day, c: string)
    requires SoundBooks(b) && Sync(b, id, today).Success?
    ensures var t := Sync(b, id, today).value.invoices;
            && OutstandingOf(t, c) == OutstandingOf(b.invoices, c) + DueShift(b, id, c, today)
            && RevenueOf(t, c) == RevenueOf(b.invoices, c) + EarnedShift(b, id, c, today)
  {
    if id != "" {
      TotalsPut(b.invoices, id, Settle(b.invoices.rows[id], PaidOn(b.payments, id), today), c);
    }
  }

  /** The client's stored totals lag behind an invoice table by these amounts. */
  ghost predicate LagsBy(b: Books, c: string, due: int, earned: int)
    requires c in b.clients.rows
  {
    && OutstandingOf(b.invoices, c) == b.clients.rows[c].outstanding + due
    && RevenueOf(b.invoices, c) == b.clients.rows[c].revenue + earned
  }

  lemma SyncLags(b: Books, id: string, today: Day, c: string, due: int, earned: int)
    requires SoundBooks(b) && Sync(b, id, today).Success? && c in b.clients.rows && LagsBy(b, c, due, earned)
    ensures c in Sync(b, id, today).value.clients.rows
    ensures LagsBy(Sync(b, id, today).value, c, due + DueShift(b, id, c, today), earned + EarnedShift(b, id, c, today))
  {
    SyncTotals(b, id, today, c);
  }

  lemma RecalcLags(b: Books, n: string, c: string, due: int, earned: int)
    requires c in b.clients.rows && c != "" && LagsBy(b, c, due, earned)
    ensures c in RecalcIfAny(b, n).clients.rows
    ensures LagsBy(RecalcIfAny(b, n), c, if c == n then 0 else due, if c == n then 0 else earned)
  {
  }

  /** Books whose invoices are all settled are reconciled when no client lags. */
  lemma NobodyLags(b: Books, clients: set<string>)
    requires ReconciledExcept(b, {}, clients)
    ensures Reconciled(b) <==> forall c :: c in b.clients.rows ==> LagsBy(b, c, 0, 0)
  {
    assert forall c :: c in b.clients.rows ==> (ClientSettled(b, c) <==> LagsBy(b, c, 0, 0));
  }

  // --- a payment's side effects, exactly ---

  /** Which invoice a payment call syncs first and which client it then recalculates,
      if the payment leaves an invoice; then the invoice it is on and the last client. */
  datatype Trail = Trail(left: string, leftClient: string, on: string, last: string)

  /** The client is recalculated last, or what the syncs it missed move cancels out. */
  predicate CaughtUp(b: Books, tr: Trail, today: Day, c: string) {
    c == tr.last ||
    (&& DueShift(b, tr.on, c, today) + (if c == tr.leftClient then 0 else DueShift(b, tr.left, c, today)) == 0
     && EarnedShift(b, tr.on, c, today) + (if c == tr.leftClient then 0 else EarnedShift(b, tr.left, c, today)) == 0)
  }

  predicate NobodyLeftBehind(b: Books, tr: Trail, today: Day) {
    forall c | c in b.clients.rows :: CaughtUp(b, tr, today, c)
  }

  lemma SettledLags(b: Books, invoices: set<string>, c: string)
    requires ReconciledExcept(b, invoices, {}) && c in b.clients.rows
    ensures LagsBy(b, c, 0, 0) && c != ""
  {
    assert ClientSettled(b, c);
  }

  /** Syncing and recalculating leave the invoices settled. */
  lemma SideEffectsSettle(b: Books, p: Payment, today: Day, clients: set<string>)
    requires ReconciledExcept(b, if p.invoiceId == "" then {} else {p.invoiceId}, clients)
    requires SideEffects(b, p, today).Success?
    ensures ReconciledExcept(SideEffects(b, p, today).value, {},
                             clients + (if p.invoiceId == "" then {} else {b.invoices.rows[p.invoiceId].clientId}))
  {
    if p.invoiceId == "" {
      RecalcStep(b, p.clientId, {}, clients);
    } else {
      SyncStep(b, p.invoiceId, today, {p.invoiceId}, clients);
      var owner := b.invoices.rows[p.invoiceId].clientId;
      RecalcStep(Sync(b, p.invoiceId, today).value, AffectedClient(b, p), {}, clients + {owner});
    }
  }

  lemma SideEffectsLag(b: Books, p: Payment, today: Day, c: string, due: int, earned: int)
    requires SoundBooks(b) && SideEffects(b, p, today).Success?
    requires c in b.clients.rows && c != "" && LagsBy(b, c, due, earned)
    ensures c in SideEffects(b, p, today).value.clients.rows
    ensures var last := if p.invoiceId == "" then p.clientId else AffectedClient(b, p);
            LagsBy(SideEffects(b, p, today).value, c,
                   if c == last then 0 else due + DueShift(b, p.invoiceId, c, today),
                   if c == last then 0 else earned + EarnedShift(b, p.invoiceId, c, today))
  {
    SyncLags(b, p.invoiceId, today, c, due, earned);
    var s := Sync(b, p.invoiceId, today).value;
    RecalcLags(s, if p.invoiceId == "" then p.clientId else AffectedClient(b, p), c,
               due + DueShift(b, p.invoiceId, c, today), earned + EarnedShift(b, p.invoiceId, c, today));
  }

  function StayTrail(b: Books, p: Payment): Trail {
    Trail("", "", p.invoiceId, if p.invoiceId == "" then p.clientId else AffectedClient(b, p))
  }

  lemma StayClient(b: Books, p: Payment, today: Day, c: string)
    requires ReconciledExcept(b, if p.invoiceId == "" then {} else {p.invoiceId}, {})
    requires SideEffects(b, p, today).Success? && c in b.clients.rows
    ensures c in SideEffects(b, p, today).value.clients.rows
    ensures LagsBy(SideEffects(b, p, today).value, c, 0, 0) <==> CaughtUp(b, StayTrail(b, p), today, c)
  {
    SettledLags(b, if p.invoiceId == "" then {} else {p.invoiceId}, c);
    SideEffectsLag(b, p, today, c, 0, 0);
    var last := c == StayTrail(b, p).last;
    LagsOnce(SideEffects(b, p, today).value, c,
             if last then 0 else DueShift(b, p.invoiceId, c, today),
             if last then 0 else EarnedShift(b, p.invoiceId, c, today));
    StayCaughtUp(b, p, today, c);
  }

  lemma StayCaughtUp(b: Books, p: Payment, today: Day, c: string)
    requires "" !in b.invoices.rows
    ensures CaughtUp(b, StayTrail(b, p), today, c)
       <==> (c == StayTrail(b, p).last
             || (DueShift(b, p.invoiceId, c, today) == 0 && EarnedShift(b, p.invoiceId, c, today) == 0))
  {
    assert DueShift(b, "", c, today) == 0 && EarnedShift(b, "", c, today) == 0;
  }

  /** One invoice involved: reconciled exactly when nobody is left behind. */
  lemma StayExactly(b: Books, p: Payment, today: Day)
    requires ReconciledExcept(b, if p.invoiceId == "" then {} else {p.invoiceId}, {})
    requires SideEffects(b, p, today).Success?
    ensures Reconciled(SideEffects(b, p, today).value) <==> NobodyLeftBehind(b, StayTrail(b, p), today)
  {
    var r := SideEffects(b, p, today).value;
    SideEffectsSettle(b, p, today, {});
    SameClients(b, p, today);
    NobodyLags(r, {} + if p.invoiceId == "" then {} else {b.invoices.rows[p.invoiceId].clientId});
    forall c | c in b.clients.rows
      ensures LagsBy(r, c, 0, 0) <==> CaughtUp(b, StayTrail(b, p), today, c)
    {
      StayClient(b, p, today, c);
    }
  }

  lemma SameClients(b: Books, p: Payment, today: Day)
    requires SideEffects(b, p, today).Success?
    ensures SideEffects(b, p, today).value.clients.rows.Keys == b.clients.rows.Keys
  {
    SideEffectsFrame(b, p, today);
  }

  function MoveTrail(b: Books, before: Payment, after: Payment): Trail {
    Trail(before.invoiceId, before.clientId, after.invoiceId, StayTrail(b, after).last)
  }

  /** What leaving an invoice keeps for the second half of a move. */
  lemma LeftBehind(b: Books, before: Payment, after: Payment, today: Day)
    requires ReconciledExcept(b, {before.invoiceId, after.invoiceId}, {})
    requires before.invoiceId != "" && after.invoiceId != before.invoiceId
    requires LeaveInvoice(b, before, after, today).Success?
    ensures before.invoiceId in b.invoices.rows
    ensures var l := LeaveInvoice(b, before, after, today).value;
            && ReconciledExcept(l, {after.invoiceId}, {b.invoices.rows[before.invoiceId].clientId})
            && l.payments == b.payments && l.clients.rows.Keys == b.clients.rows.Keys
            && l.invoices.rows.Keys == b.invoices.rows.Keys
            && (after.invoiceId in b.invoices.rows
                ==> l.invoices.rows[after.invoiceId] == b.invoices.rows[after.invoiceId])
  {
    LeftSettled(b, before, after, today);
    OnlyOneSynced(b, before, after, today);
  }

  lemma LeftSettled(b: Books, before: Payment, after: Payment, today: Day)
    requires ReconciledExcept(b, {before.invoiceId, after.invoiceId}, {})
    requires before.invoiceId != "" && after.invoiceId != before.invoiceId
    requires LeaveInvoice(b, before, after, today).Success?
    ensures before.invoiceId in b.invoices.rows
    ensures ReconciledExcept(LeaveInvoice(b, before, after, today).value, {after.invoiceId},
                             {b.invoices.rows[before.invoiceId].clientId})
  {
    LeftSynced(b, before, after, today);
    RecalcStep(Sync(b, before.invoiceId, today).value, before.clientId, {after.invoiceId},
               {b.invoices.rows[before.invoiceId].clientId});
  }

  lemma LeftSynced(b: Books, before: Payment, after: Payment, today: Day)
    requires ReconciledExcept(b, {before.invoiceId, after.invoiceId}, {})
    requires before.invoiceId != "" && after.invoiceId != before.invoiceId
    requires Sync(b, before.invoiceId, today).Success?
    ensures before.invoiceId in b.invoices.rows
    ensures ReconciledExcept(Sync(b, before.invoiceId, today).value, {after.invoiceId},
                             {b.invoices.rows[before.invoiceId].clientId})
  {
    var owner := b.invoices.rows[before.invoiceId].clientId;
    SyncStep(b, before.invoiceId, today, {before.invoiceId, after.invoiceId}, {});
    assert {before.invoiceId, after.invoiceId} - {before.invoiceId} == {after.invoiceId};
    assert {} + {owner} == {owner};
  }

  lemma OnlyOneSynced(b: Books, before: Payment, after: Payment, today: Day)
    requires before.invoiceId != "" && after.invoiceId != before.invoiceId
    requires LeaveInvoice(b, before, after, today).Success?
    ensures var l := LeaveInvoice(b, before, after, today).value;
            && l.payments == b.payments && l.clients.rows.Keys == b.clients.rows.Keys
            && l.invoices.rows.Keys == b.invoices.rows.Keys
            && (after.invoiceId in b.invoices.rows
                ==> l.invoices.rows[after.invoiceId] == b.invoices.rows[after.invoiceId])
  {
    RecalcFrame(Sync(b, before.invoiceId, today).value, before.clientId);
    LeaveInvoiceFrame(b, before, after, today);
  }

  lemma LeaveLags(b: Books, before: Payment, after: Payment, today: Day, c: string)
    requires SoundBooks(b) && before.invoiceId != "" && after.invoiceId != before.invoiceId
    requires LeaveInvoice(b, before, after, today).Success?
    requires c in b.clients.rows && c != "" && LagsBy(b, c, 0, 0)
    ensures c in LeaveInvoice(b, before, after, today).value.clients.rows
    ensures LagsBy(LeaveInvoice(b, before, after, today).value, c,
                   if c == before.clientId then 0 else DueShift(b, before.invoiceId, c, today),
                   if c == before.clientId then 0 else EarnedShift(b, before.invoiceId, c, today))
  {
    SyncLags(b, before.invoiceId, today, c, 0, 0);
    RecalcLags(Sync(b, before.invoiceId, today).value, before.clientId, c,
               DueShift(b, before.invoiceId, c, today), EarnedShift(b, before.invoiceId, c, today));
  }

  function Moved(b: Books, before: Payment, after: Payment, today: Day): Result<Books, Error> {
    var left := LeaveInvoice(b, before, after, today);
    if left.Failure? then left else SideEffects(left.value, after, today)
  }

  /** Two invoices involved: reconciled exactly when nobody is left behind. */
  lemma MoveExactly(b: Books, before: Payment, after: Payment, today: Day)
    requires ReconciledExcept(b, {before.invoiceId, after.invoiceId}, {})
    requires before.invoiceId != "" && after.invoiceId != "" && after.invoiceId != before.invoiceId
    requires Moved(b, before, after, today).Success?
    ensures Reconciled(Moved(b, before, after, today).value)
       <==> NobodyLeftBehind(b, MoveTrail(b, before, after), today)
  {
    LeftBehind(b, before, after, today);
    var l := LeaveInvoice(b, before, after, today).value;
    var r := Moved(b, before, after, today).value;
    var owner := b.invoices.rows[before.invoiceId].clientId;
    SideEffectsSettle(l, after, today, {owner});
    SameClients(l, after, today);
    NobodyLags(r, {owner} + {l.invoices.rows[after.invoiceId].clientId});
    forall c | c in b.clients.rows
      ensures LagsBy(r, c, 0, 0) <==> CaughtUp(b, MoveTrail(b, before, after), today, c)
    {
      SettledLags(b, {before.invoiceId, after.invoiceId}, c);
      MoveClient(b, l, before, after, today, c);
    }
  }

  lemma MoveClient(b: Books, l: Books, before: Payment, after: Payment, today: Day, c: string)
    requires SoundBooks(b) && SoundBooks(l) && c in b.clients.rows && c != "" && LagsBy(b, c, 0, 0)
    requires before.invoiceId != "" && after.invoiceId != "" && after.invoiceId != before.invoiceId
    requires LeaveInvoice(b, before, after, today) == Success(l) && SideEffects(l, after, today).Success?
    ensures c in SideEffects(l, after, today).value.clients.rows
    ensures LagsBy(SideEffects(l, after, today).value, c, 0, 0)
       <==> CaughtUp(b, MoveTrail(b, before, after), today, c)
  {
    var due := if c == before.clientId then 0 else DueShift(b, before.invoiceId, c, today);
    var earned := if c == before.clientId then 0 else EarnedShift(b, before.invoiceId, c, today);
    LeaveLags(b, before, after, today, c);
    OnlyOneSynced(b, before, after, today);
    FromLeft(b, l, after, today, c, due, earned);
  }

  /** The second half of a move, over what the first half left. */
  lemma FromLeft(b: Books, l: Books, after: Payment, today: Day, c: string, due: int, earned: int)
    requires SoundBooks(l) && SideEffects(l, after, today).Success? && after.invoiceId != ""
    requires c in l.clients.rows && c != "" && LagsBy(l, c, due, earned)
    requires l.payments == b.payments && (after.invoiceId in l.invoices.rows <==> after.invoiceId in b.invoices.rows)
    requires after.invoiceId in b.invoices.rows ==> l.invoices.rows[after.invoiceId] == b.invoices.rows[after.invoiceId]
    ensures var r := SideEffects(l, after, today).value;
            && c in r.clients.rows
            && (LagsBy(r, c, 0, 0) <==> (c == StayTrail(b, after).last
                                         || (due + DueShift(b, after.invoiceId, c, today) == 0
                                             && earned + EarnedShift(b, after.invoiceId, c, today) == 0)))
  {
    SameShift(b, l, after.invoiceId, c, today);
    LastAfterLeaving(b, l, after);
    SideEffectsLag(l, after, today, c, due, earned);
    var last := c == StayTrail(b, after).last;
    LagsOnce(SideEffects(l, after, today).value, c,
             if last then 0 else due + DueShift(b, after.invoiceId, c, today),
             if last then 0 else earned + EarnedShift(b, after.invoiceId, c, today));
  }

  lemma LagsOnce(b: Books, c: string, due: int, earned: int)
    requires c in b.clients.rows && LagsBy(b, c, due, earned)
    ensures LagsBy(b, c, 0, 0) <==> due == 0 && earned == 0
  {
  }

  lemma SameShift(b: Books, l: Books, i: string, c: string, today: Day)
    requires l.payments == b.payments && (i in l.invoices.rows <==> i in b.invoices.rows)
    requires i in b.invoices.rows ==> l.invoices.rows[i] == b.invoices.rows[i]
    ensures DueShift(l, i, c, today) == DueShift(b, i, c, today)
    ensures EarnedShift(l, i, c, today) == EarnedShift(b, i, c, today)
  {
  }

  lemma LastAfterLeaving(b: Books, l: Books, after: Payment)
    requires after.invoiceId in l.invoices.rows <==> after.invoiceId in b.invoices.rows
    requires after.invoiceId in b.invoices.rows ==> l.invoices.rows[after.invoiceId] == b.invoices.rows[after.invoiceId]
    ensures StayTrail(l, after).last == StayTrail(b, after).last
  {
  }

  // --- every call, exactly ---

  lemma BlankIsNoInvoice(b: Books, invoices: set<string>)
    requires ReconciledExcept(b, invoices, {})
    ensures ReconciledExcept(b, invoices - {""}, {})
  {
  }

  /** The books with the call's own payment written, before any side effect. */
  function Written(b: Books, call: Call): Books {
    b.(payments := PaymentsAfter(b, call))
  }

  /** The payment whose side effects the call runs. */
  function Affecting(b: Books, call: Call): Payment
    requires call.PayUpdate? || call.PayDelete? || call.PayArchive? || call.PayRestore? ==> call.id in b.payments.rows
    requires !call.InvCreate? && !call.InvUpdate?
  {
    match call
    case PayCreate(d, env) => Enriched(b, d.payment, env)
    case PayUpdate(id, q, env) => PatchPayment(b.payments.rows[id], q)
    case PayRestore(id, env) => Restored(b.payments.rows[id])
    case PayDelete(id, env) => b.payments.rows[id]
    case PayArchive(id, env) => b.payments.rows[id]
  }

  predicate Moves(b: Books, call: Call) {
    && call.PayUpdate? && call.id in b.payments.rows
    && var before := b.payments.rows[call.id];
       before.invoiceId != "" && before.invoiceId != PatchPayment(before, call.patch).invoiceId
  }

  /** The figures a new invoice comes with are those its payments give it. */
  predicate StartsSettled(b: Books, id: string, inv: Invoice) {
    && inv.paid == PaidOn(b.payments, id)
    && (inv.status.Draft? || inv.status.Cancelled?
        || (if inv.paid <= 0 then inv.status.Sent? || (inv.status.Overdue? && inv.due.Some?)
            else if inv.paid >= inv.total && inv.total > 0 then inv.status.Paid?
            else inv.status.PartiallyPaid?))
  }

  /** What a call may do to reconciled books: a payment call leaves no client behind,
      an invoice is created with the figures its payments give it. */
  predicate Harmless(b: Books, call: Call) {
    match call
    case InvCreate(id, inv, env) => StartsSettled(b, IdFor(id, env), Drafted(inv))
    case InvUpdate(_, _, _) => true
    case PayCreate(_, _) => NobodyLeftBehind(Written(b, call), StayTrail(b, Affecting(b, call)), call.env.today)
    case PayUpdate(id, _, env) =>
      id in b.payments.rows ==>
        NobodyLeftBehind(Written(b, call),
                         if Moves(b, call) then MoveTrail(b, b.payments.rows[id], Affecting(b, call))
                         else StayTrail(b, Affecting(b, call)),
                         env.today)
    case PayDelete(id, env) =>
      id in b.payments.rows ==> NobodyLeftBehind(Written(b, call), StayTrail(b, Affecting(b, call)), env.today)
    case PayArchive(id, env) =>
      id in b.payments.rows ==> NobodyLeftBehind(Written(b, call), StayTrail(b, Affecting(b, call)), env.today)
    case PayRestore(id, env) =>
      id in b.payments.rows ==> NobodyLeftBehind(Written(b, call), StayTrail(b, Affecting(b, call)), env.today)
  }

  lemma SameTrail(b: Books, b1: Books, before: Payment, after: Payment)
    requires b1.invoices == b.invoices
    ensures StayTrail(b1, after) == StayTrail(b, after) && MoveTrail(b1, before, after) == MoveTrail(b, before, after)
  {
  }

  lemma CreateExactly(b: Books, d: PaymentDraft, env: Env)
    requires Reconciled(b) && IdFor(d.id, env) != "" && CreatePayment(b, d, env).Success?
    ensures Reconciled(CreatePayment(b, d, env).value) <==> Harmless(b, PayCreate(d, env))
  {
    CreateMeans(b, d, env);
    var p := Enriched(b, d.payment, env);
    InsertDisturbs(b, IdFor(d.id, env), p);
    SameTrail(b, Written(b, PayCreate(d, env)), p, p);
    StayExactly(Written(b, PayCreate(d, env)), p, env.today);
  }

  lemma UpdateExactly(b: Books, id: string, q: PaymentPatch, env: Env)
    requires Reconciled(b) && UpdatePayment(b, id, q, env).Success?
    ensures Reconciled(UpdatePayment(b, id, q, env).value) <==> Harmless(b, PayUpdate(id, q, env))
  {
    UpdateMeans(b, id, q, env);
    var before := b.payments.rows[id];
    var after := PatchPayment(before, q);
    var b1 := Written(b, PayUpdate(id, q, env));
    PutDisturbs(b, id, after);
    SameTrail(b, b1, before, after);
    if Moves(b, PayUpdate(id, q, env)) {
      MoveExactly(b1, before, after, env.today);
    } else {
      BlankIsNoInvoice(b1, {before.invoiceId, after.invoiceId});
      assert {before.invoiceId, after.invoiceId} - {""} == {after.invoiceId};
      StayExactly(b1, after, env.today);
    }
  }

  /** Deleting, archiving and restoring, whose side effects are of a payment still on
      its invoice. */
  lemma InPlaceExactly(b1: Books, p: Payment, today: Day)
    requires ReconciledExcept(b1, {p.invoiceId}, {}) && SideEffects(b1, p, today).Success?
    ensures Reconciled(SideEffects(b1, p, today).value) <==> NobodyLeftBehind(b1, StayTrail(b1, p), today)
  {
    BlankIsNoInvoice(b1, {p.invoiceId});
    assert p.invoiceId == "" ==> {p.invoiceId} - {""} == {};
    StayExactly(b1, p, today);
  }

  lemma RewriteExactly(b: Books, id: string, p: Payment, effects: Payment, today: Day)
    requires Reconciled(b) && id in b.payments.rows
    requires p.invoiceId == b.payments.rows[id].invoiceId == effects.invoiceId
    requires SideEffects(b.(payments := Put(b.payments, id, p)), effects, today).Success?
    ensures var b1 := b.(payments := Put(b.payments, id, p));
            Reconciled(SideEffects(b1, effects, today).value) <==> NobodyLeftBehind(b1, StayTrail(b, effects), today)
  {
    var b1 := b.(payments := Put(b.payments, id, p));
    PutDisturbs(b, id, p);
    assert {b.payments.rows[id].invoiceId, p.invoiceId} == {effects.invoiceId};
    SameTrail(b, b1, effects, effects);
    InPlaceExactly(b1, effects, today);
  }

  lemma DeleteExactly(b: Books, id: string, env: Env)
    requires Reconciled(b) && DeletePayment(b, id, env).Success?
    ensures Reconciled(DeletePayment(b, id, env).value) <==> Harmless(b, PayDelete(id, env))
  {
    DropDisturbs(b, id);
    SameTrail(b, Written(b, PayDelete(id, env)), b.payments.rows[id], b.payments.rows[id]);
    InPlaceExactly(Written(b, PayDelete(id, env)), b.payments.rows[id], env.today);
  }

  lemma ArchiveExactly(b: Books, id: string, env: Env)
    requires Reconciled(b) && ArchivePayment(b, id, env).Success?
    ensures Reconciled(ArchivePayment(b, id, env).value) <==> Harmless(b, PayArchive(id, env))
  {
    RewriteExactly(b, id, b.payments.rows[id].(archived := true), b.payments.rows[id], env.today);
  }

  lemma RestoreExactly(b: Books, id: string, env: Env)
    requires Reconciled(b) && RestorePayment(b, id, env).Success?
    ensures Reconciled(RestorePayment(b, id, env).value) <==> Harmless(b, PayRestore(id, env))
  {
    RestoreMeans(b, id, env);
    RewriteExactly(b, id, Restored(b.payments.rows[id]), Restored(b.payments.rows[id]), env.today);
  }

  lemma RestoreMeans(b: Books, id: string, env: Env)
    requires id in b.payments.rows
    ensures var p := Restored(b.payments.rows[id]);
            var b1 := b.(payments := Put(b.payments, id, p));
            && RestorePayment(b, id, env) == SideEffects(b1, p, env.today)
            && (Harmless(b, PayRestore(id, env)) <==> NobodyLeftBehind(b1, StayTrail(b, p), env.today))
  {
  }

  /** A figure is settled as of some day exactly when it is the one payments give. */
  lemma StartsSettledIs(b: Books, id: string)
    requires id in b.invoices.rows
    requires b.invoices.rows[id].remaining == Remaining(b.invoices.rows[id].total, b.invoices.rows[id].paid)
    ensures InvoiceSettled(b, id) <==> StartsSettled(b, id, b.invoices.rows[id])
  {
    var inv := b.invoices.rows[id];
    if StartsSettled(b, id, inv) {
      var day := match inv.due case None => 0 case Some(due) => if inv.status.Overdue? then due + 1 else due;
      assert inv == Settle(inv, PaidOn(b.payments, id), day);
    }
  }

  /** Inserting an invoice disturbs nothing but itself and its client's totals. */
  lemma InsertedExcept(b: Books, id: string, inv: Invoice)
    requires Reconciled(b) && id !in b.invoices.rows && id != ""
    ensures ReconciledExcept(b.(invoices := Insert(b.invoices, id, inv)), {id}, {inv.clientId})
  {
    var b' := b.(invoices := Insert(b.invoices, id, inv));
    forall i | i in b'.invoices.rows && i != id ensures InvoiceSettled(b', i) {
      assert InvoiceSettled(b, i);
    }
    forall c | c in b'.clients.rows && c != inv.clientId ensures ClientSettled(b', c) {
      assert ClientSettled(b, c);
      ClientTotalsInsert(b.invoices, id, inv, c);
    }
  }

  lemma CreateInvoiceExactly(b: Books, given: string, inv: Invoice, env: Env)
    requires Reconciled(b) && IdFor(given, env) != "" && CreateInvoice(b, given, inv, env).Success?
    ensures Reconciled(CreateInvoice(b, given, inv, env).value) <==> Harmless(b, InvCreate(given, inv, env))
  {
    var id := IdFor(given, env);
    var b1 := b.(invoices := Insert(b.invoices, id, Drafted(inv)));
    InsertedExcept(b, id, Drafted(inv));
    OnlyInvoiceOff(b1, id, inv.clientId);
    DraftSettled(b, id, Drafted(inv));
    CreateHarmless(b, given, inv, env);
  }

  lemma CreateHarmless(b: Books, given: string, inv: Invoice, env: Env)
    ensures Harmless(b, InvCreate(given, inv, env)) <==> StartsSettled(b, IdFor(given, env), Drafted(inv))
  {
  }

  lemma DraftSettled(b: Books, id: string, inv: Invoice)
    requires inv.remaining == Remaining(inv.total, inv.paid)
    ensures var r := RecalcIfAny(b.(invoices := Insert(b.invoices, id, inv)), inv.clientId);
            id in r.invoices.rows && (InvoiceSettled(r, id) <==> StartsSettled(b, id, inv))
  {
    var b1 := b.(invoices := Insert(b.invoices, id, inv));
    RecalcFrame(b1, inv.clientId);
    StartsSettledIs(RecalcIfAny(b1, inv.clientId), id);
  }

  lemma OnlyInvoiceOff(b1: Books, id: string, c: string)
    requires id in b1.invoices.rows && ReconciledExcept(b1, {id}, {c}) && Recalc(b1, c).Success?
    ensures id in Recalc(b1, c).value.invoices.rows
    ensures Reconciled(Recalc(b1, c).value) <==> InvoiceSettled(Recalc(b1, c).value, id)
  {
    RecalcFrame(b1, c);
    RecalcStep(b1, c, {id}, {c});
    assert {c} - {c} == {};
  }

  /** From reconciled books - whichever clients their payments name - a call reaches
      reconciled books exactly when it fails or is harmless. */
  lemma CallKeepsExactlyWhen(b: Books, call: Call)
    requires Reconciled(b) && NamesRecord(call)
    ensures Reconciled(Step(b, call)) <==> (Outcome(b, call).Success? ==> Harmless(b, call))
  {
    if Outcome(b, call).Success? {
      match call
      case PayCreate(d, env) => CreateExactly(b, d, env);
      case PayUpdate(id, q, env) => UpdateExactly(b, id, q, env);
      case PayDelete(id, env) => DeleteExactly(b, id, env);
      case PayArchive(id, env) => ArchiveExactly(b, id, env);
      case PayRestore(id, env) => RestoreExactly(b, id, env);
      case InvCreate(id, inv, env) => CreateInvoiceExactly(b, id, inv, env);
      case InvUpdate(id, q, env) => UpdateInvoiceKeeps(b, id, q, env);
    }
  }

  ghost predicate ReconciledThroughout(b: Books, calls: seq<Call>)
    decreases |calls|
  {
    Reconciled(b) && (calls == [] || ReconciledThroughout(Step(b, calls[0]), calls[1..]))
  }

  predicate HarmlessThroughout(b: Books, calls: seq<Call>)
    decreases |calls|
  {
    calls == [] || ((Outcome(b, calls[0]).Success? ==> Harmless(b, calls[0]))
                    && HarmlessThroughout(Step(b, calls[0]), calls[1..]))
  }

  /** Any run of payment and invoice calls: the books are reconciled all along exactly
      when every call that succeeds is harmless where it happens. */
  lemma {:induction false} RunReconciledExactlyWhen(b: Books, calls: seq<Call>)
    requires Reconciled(b) && RunNamesRecords(calls)
    ensures ReconciledThroughout(b, calls) <==> HarmlessThroughout(b, calls)
    decreases |calls|
  {
    if calls != [] {
      CallKeepsExactlyWhen(b, calls[0]);
      if Reconciled(Step(b, calls[0])) {
        RunReconciledExactlyWhen(Step(b, calls[0]), calls[1..]);
      }
    }
  }

  // --- updates of linked books ---

  /** Whether the update changes what the payment's invoice owes its client: the
      invoice is billed, its client is stored, and what remains is another amount. */
  predicate OwesDifferently(b: Books, id: string, after: Payment)
    requires after.invoiceId in b.invoices.rows
  {
    var inv := b.invoices.rows[after.invoiceId];
    var paid := PaidExcluding(b.payments, after.invoiceId, id)
                + (if Counts(after, after.invoiceId) then after.amount else 0);
    && !inv.archived && !inv.status.Draft? && !inv.status.Cancelled? && inv.clientId in b.clients.rows
    && Remaining(inv.total, paid) != inv.remaining
  }

  /** On a settled invoice within its total, what is owed and earned moves exactly
      when what remains does. */
  lemma ShiftIs(inv: Invoice, paid: int, before: Day, paid': int, today: Day)
    requires inv == Settle(inv, paid, before)
    ensures var after := Settle(inv, paid', today);
            (Due(after) == Due(inv) && Earned(after) == Earned(inv))
            <==> (inv.archived || inv.status.Draft? || inv.status.Cancelled?
                  || Remaining(inv.total, paid') == inv.remaining)
  {
  }

  lemma OnShift(b: Books, id: string, after: Payment, today: Day)
    requires Reconciled(b) && id in b.payments.rows && after.invoiceId in b.invoices.rows
    ensures var b1 := b.(payments := Put(b.payments, id, after));
            var c := b.invoices.rows[after.invoiceId].clientId;
            c in b.clients.rows ==>
              ((DueShift(b1, after.invoiceId, c, today) == 0 && EarnedShift(b1, after.invoiceId, c, today) == 0)
               <==> !OwesDifferently(b, id, after))
  {
    var i := after.invoiceId;
    var inv := b.invoices.rows[i];
    assert InvoiceSettled(b, i);
    var day: Day :| inv == Settle(inv, PaidOn(b.payments, i), day);
    PaidWith(b.payments, id, after);
    ShiftIs(inv, PaidOn(b.payments, i), day, PaidOn(Put(b.payments, id, after), i), today);
  }

  lemma PaidWith(t: Table<Payment>, id: string, after: Payment)
    requires Sound(t) && id in t.rows
    ensures PaidOn(Put(t, id, after), after.invoiceId)
            == PaidExcluding(t, after.invoiceId, id) + (if Counts(after, after.invoiceId) then after.amount else 0)
  {
    PaidOnPut(t, id, after, after.invoiceId);
    PaidExcludingIs(t, after.invoiceId, id);
  }

  /** In linked books an update, of whatever fields and with or without a move, keeps
      the books reconciled exactly when it names no client or its invoice's client, or
      changes nothing of what that invoice owes. */
  lemma UpdateKeepsExactlyWhen(b: Books, id: string, q: PaymentPatch, env: Env)
    requires Reconciled(b) && Linked(b) && UpdatePayment(b, id, q, env).Success?
    ensures var after := PatchPayment(b.payments.rows[id], q);
            && after.invoiceId in b.invoices.rows
            && (Reconciled(UpdatePayment(b, id, q, env).value)
                <==> (after.clientId == "" || after.clientId == b.invoices.rows[after.invoiceId].clientId
                      || !OwesDifferently(b, id, after)))
  {
    UpdateMeans(b, id, q, env);
    UpdateExactly(b, id, q, env);
    var before, after := b.payments.rows[id], PatchPayment(b.payments.rows[id], q);
    assert after.invoiceId in b.invoices.rows;
    OnShift(b, id, after, env.today);
    LinkedTrail(b, id, q, env);
  }

  /** Whom an update of linked books can leave behind: the client of the invoice the
      payment is on, when another client was recalculated. */
  lemma LinkedTrail(b: Books, id: string, q: PaymentPatch, env: Env)
    requires Reconciled(b) && Linked(b) && UpdatePayment(b, id, q, env).Success?
    requires PatchPayment(b.payments.rows[id], q).invoiceId in b.invoices.rows
    ensures var after := PatchPayment(b.payments.rows[id], q);
            var b1 := Written(b, PayUpdate(id, q, env));
            var c := b.invoices.rows[after.invoiceId].clientId;
            Harmless(b, PayUpdate(id, q, env)) <==>
              (after.clientId == "" || after.clientId == c || c !in b.clients.rows
               || (DueShift(b1, after.invoiceId, c, env.today) == 0
                   && EarnedShift(b1, after.invoiceId, c, env.today) == 0))
  {
    UpdateMeans(b, id, q, env);
    HarmlessUpdate(b, id, q, env);
    OwnTrail(b, id, q, env);
    LeftOwnClient(Written(b, PayUpdate(id, q, env)), UpdateTrail(b, id, q, env), env.today);
  }

  function UpdateTrail(b: Books, id: string, q: PaymentPatch, env: Env): Trail
    requires id in b.payments.rows
  {
    var before, after := b.payments.rows[id], PatchPayment(b.payments.rows[id], q);
    if Moves(b, PayUpdate(id, q, env)) then MoveTrail(b, before, after) else StayTrail(b, after)
  }

  lemma HarmlessUpdate(b: Books, id: string, q: PaymentPatch, env: Env)
    requires id in b.payments.rows
    ensures Harmless(b, PayUpdate(id, q, env))
       <==> NobodyLeftBehind(Written(b, PayUpdate(id, q, env)), UpdateTrail(b, id, q, env), env.today)
  {
  }

  /** In linked books the client recalculated first is that of the invoice left. */
  lemma OwnTrail(b: Books, id: string, q: PaymentPatch, env: Env)
    requires SoundBooks(b) && Linked(b) && id in b.payments.rows
    requires PatchPayment(b.payments.rows[id], q).invoiceId in b.invoices.rows
    ensures var after, tr := PatchPayment(b.payments.rows[id], q), UpdateTrail(b, id, q, env);
            && tr.on == after.invoiceId
            && tr.last == (if after.clientId == "" then b.invoices.rows[tr.on].clientId
                           else after.clientId)
            && (tr.left in b.invoices.rows ==> b.invoices.rows[tr.left].clientId == tr.leftClient)
  {
  }

  /** When the client recalculated first is that of the invoice left, only the client
      of the other invoice can be left behind. */
  lemma LeftOwnClient(b1: Books, tr: Trail, today: Day)
    requires tr.on in b1.invoices.rows
    requires tr.left in b1.invoices.rows ==> b1.invoices.rows[tr.left].clientId == tr.leftClient
    ensures var c := b1.invoices.rows[tr.on].clientId;
            NobodyLeftBehind(b1, tr, today) <==>
              (c == tr.last || c !in b1.clients.rows
               || (DueShift(b1, tr.on, c, today) == 0 && EarnedShift(b1, tr.on, c, today) == 0))
  {
    var owner := b1.invoices.rows[tr.on].clientId;
    forall k ensures (if k == tr.leftClient then 0 else DueShift(b1, tr.left, k, today)) == 0
      ensures (if k == tr.leftClient then 0 else EarnedShift(b1, tr.left, k, today)) == 0
      ensures k != owner ==> DueShift(b1, tr.on, k, today) == 0 && EarnedShift(b1, tr.on, k, today) == 0
    {
    }
    if owner in b1.clients.rows && NobodyLeftBehind(b1, tr, today) {
      assert CaughtUp(b1, tr, today, owner);
    }
  }
}
