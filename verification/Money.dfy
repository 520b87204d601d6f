/** Invoice arithmetic in integer paise. */
module Money {
  import opened Tables

  type Day = int

  /** Invoice statuses as the code tells them apart. ArchivedWord is any spelling
      of "archived" up to letter case; Other is every remaining string. */
  datatype InvoiceStatus =
    | Draft | Sent | PartiallyPaid | Overdue | Paid | Cancelled
    | ArchivedWord | Other(text: string)

  function Remaining(total: int, paid: int): (r: int)
    ensures r >= 0 && (paid <= total ==> r + paid == total) && (paid > total ==> r == 0)
  {
    if total - paid > 0 then total - paid else 0
  }

  predicate IsOutstanding(status: InvoiceStatus) {
    status.Sent? || status.PartiallyPaid? || status.Overdue?
  }

  /** The status an invoice takes from its payments. due is None when the stored
      due date is empty or does not parse. */
  function DeriveStatus(current: InvoiceStatus, due: Option<Day>, total: int, paid: int, today: Day): InvoiceStatus {
    if current.Cancelled? || current.Draft? then current
    else if paid <= 0 then (if due.Some? && due.value < today then Overdue else Sent)
    else if paid >= total && total > 0 then Paid
    else PartiallyPaid
  }

  predicate DuePassed(due: Option<Day>, today: Day) {
    due.Some? && due.value < today
  }

  /** What the derived status says of an invoice that is neither draft nor cancelled:
      paid exactly when a positive total has nothing remaining, owing otherwise; with
      nothing paid, overdue from the day after its due day on, and sent till then. */
  lemma DerivedStatusTells(current: InvoiceStatus, due: Option<Day>, total: int, paid: int, today: Day)
    requires !current.Draft? && !current.Cancelled?
    ensures var st := DeriveStatus(current, due, total, paid, today);
            && (st.Paid? <==> total > 0 && Remaining(total, paid) == 0)
            && (IsOutstanding(st) <==> !st.Paid?)
            && (st.Overdue? <==> paid <= 0 && DuePassed(due, today))
            && (st.Sent? <==> paid <= 0 && !DuePassed(due, today))
            && (st.PartiallyPaid? && total > 0 ==> 0 < Remaining(total, paid) < total)
  {
  }

  /** Drafts and cancelled invoices stay what they are; days alone never take an invoice
      back from overdue. */
  lemma DerivedStatusStays(current: InvoiceStatus, due: Option<Day>, total: int, paid: int, today: Day, later: Day)
    requires today <= later
    ensures current.Draft? || current.Cancelled? ==> DeriveStatus(current, due, total, paid, today) == current
    ensures DeriveStatus(current, due, total, paid, today).Overdue?
            ==> DeriveStatus(current, due, total, paid, later).Overdue?
  {
  }
}
