/** The gated work-item protocol: what each call decides from what it reads, the
    guarded commit, and the step machine in which reads and commits of many calls
    interleave with whole-call edits. */
module Gates {
  import opened Tables
  import opened Practice
  import Visibility
  import Text

  datatype Action = ActTransition | ActVerifyTL | ActVerifyCA | ActClose | ActReopen

  /** One entry of the append-only transition history, oldest first. */
  datatype Entry = Entry(workId: string, from: Status, to: Status, action: Action, remarks: string, actorId: string)

  /** The stored work items and their history. */
  datatype Board = Board(work: map<string, WorkItem>, history: seq<Entry>)

  /** A gate's pending write: the whole item as it will be stored, the status the
      commit expects to find, and the history entry. */
  datatype GateWrite = GateWrite(work: WorkItem, expected: StatusText, entry: Entry)

  // --- history ---

  function HistoryOf(h: seq<Entry>, id: string): seq<Entry> {
    if h == [] then []
    else HistoryOf(h[..|h| - 1], id) + (if h[|h| - 1].workId == id then [h[|h| - 1]] else [])
  }

  predicate IsTLPass(e: Entry, id: string) {
    e.workId == id && e.action.ActVerifyTL? && e.to.ReadyForCAVerify?
  }

  predicate IsCAPass(e: Entry, id: string) {
    e.workId == id && e.action.ActVerifyCA? && (e.to.Delivered? || e.to.ReadyForManagerClose?)
  }

  /** Who passed the latest TL verification; empty when there is none. */
  function LatestTLPass(h: seq<Entry>, id: string): string {
    if h == [] then ""
    else if IsTLPass(h[|h| - 1], id) then h[|h| - 1].actorId
    else LatestTLPass(h[..|h| - 1], id)
  }

  // --- what a gate call decides ---

  datatype Decision = Pass | Fail | Unknown

  datatype Gate =
    | Move(to: StatusText, remarks: string, overlay: string)
    | TLVerify(decision: Decision, remarks: string)
    | CAVerify(decision: Decision, remarks: string)
    | Close(remarks: string)
    | ReopenGate(reason: string)

  function Read(b: Board, id: string): Result<WorkItem, Error> {
    if id in b.work && !b.work[id].deleted then Success(b.work[id]) else Failure(NotFound)
  }

  predicate Blank(s: string) { Text.Trim(s) == "" }

  function Write(cur: WorkItem, id: string, to: Status, action: Action, remarks: string, actor: Actor): GateWrite {
    GateWrite(cur.(status := Code(to), updatedBy := actor.id), cur.status,
              Entry(id, Normalize(cur.status), to, action, remarks, actor.id))
  }

  function DecideMove(b: Board, actor: Actor, id: string, to: Status, remarks: string, overlay: string)
    : Result<GateWrite, Error>
  {
    if !Has(actor, Permission.Transition) then Failure(Forbidden)
    else if Read(b, id).Failure? then Failure(NotFound)
    else
      var cur := b.work[id];
      var from := Normalize(cur.status);
      if !Visibility.CanView(actor, cur) then Failure(Forbidden)
      else if IsTerminal(from) then Failure(Conflict)
      else if to.ReadyForTLVerify?
              && !(Assignee(cur) == actor.id || cur.tl == actor.id || cur.ownerCA == actor.id
                   || IsLeadership(actor.role))
      then Failure(Forbidden)
      else if !CanTransition(from, to)
              && !(to.ReadyForTLVerify? && (from.InProgress? || from.DocumentReceived? || from.TLRejected?))
      then Failure(Conflict)
      else if to.Cancelled? && !IsLeadership(actor.role) && !IsProfessional(actor.role) then Failure(Forbidden)
      else
        var w := Write(cur, id, to, ActTransition, remarks, actor);
        Success(if overlay == "" then w else w.(work := w.work.(overlay := Text.Upper(Text.Trim(overlay)))))
  }

  function DecideTL(b: Board, actor: Actor, id: string, decision: Decision, remarks: string): Result<GateWrite, Error> {
    if !Has(actor, VerifyTL) then Failure(Forbidden)
    else if actor.role.Manager? then Failure(Forbidden)
    else if decision.Unknown? then Failure(Validation)
    else if decision.Fail? && Blank(remarks) then Failure(Validation)
    else if Read(b, id).Failure? then Failure(NotFound)
    else
      var cur := b.work[id];
      var to := ApplyTLVerify(Normalize(cur.status), decision.Pass?);
      if to.Failure? then Failure(to.error) else Success(Write(cur, id, to.value, ActVerifyTL, remarks, actor))
  }

  function DecideCA(b: Board, actor: Actor, id: string, decision: Decision, remarks: string): Result<GateWrite, Error> {
    if !Has(actor, VerifyCA) then Failure(Forbidden)
    else if actor.role.Manager? then Failure(Forbidden)
    else if decision.Unknown? then Failure(Validation)
    else if decision.Fail? && Blank(remarks) then Failure(Validation)
    else if Read(b, id).Failure? then Failure(NotFound)
    else
      var cur := b.work[id];
      var passer := LatestTLPass(b.history, id);
      var to := ApplyCAVerify(Normalize(cur.status), cur.risk, cur.delegatedClose, decision.Pass?);
      if actor.role.JuniorCA? && cur.risk.High? then Failure(Forbidden)
      else if passer != "" && passer == actor.id then Failure(Forbidden)
      else if to.Failure? then Failure(to.error)
      else Success(Write(cur, id, to.value, ActVerifyCA, remarks, actor))
  }

  function DecideClose(b: Board, actor: Actor, id: string, remarks: string): Result<GateWrite, Error> {
    if Read(b, id).Failure? then Failure(NotFound)
    else
      var cur := b.work[id];
      var to := ApplyClose(Normalize(cur.status));
      if cur.partnerSignoff && !(Has(actor, ClosePartner) && actor.role.Partner?) then Failure(Forbidden)
      else if !cur.partnerSignoff && !Has(actor, CloseManager) && !Has(actor, ClosePartner) then Failure(Forbidden)
      else if to.Failure? then Failure(to.error)
      else
        var w := Write(cur, id, to.value, ActClose, remarks, actor);
        Success(w.(work := w.work.(completionPct := 100)))
  }

  function DecideReopen(b: Board, actor: Actor, id: string, reason: string): Result<GateWrite, Error> {
    if !Has(actor, Reopen) then Failure(Forbidden)
    else if Blank(reason) then Failure(Validation)
    else if Read(b, id).Failure? then Failure(NotFound)
    else
      var cur := b.work[id];
      var to := ApplyReopen(Normalize(cur.status));
      if to.Failure? then Failure(to.error) else Success(Write(cur, id, to.value, ActReopen, reason, actor))
  }

  function Decide(b: Board, actor: Actor, id: string, gate: Gate): Result<GateWrite, Error> {
    match gate
    case Move(to, remarks, overlay) => DecideMove(b, actor, id, Normalize(to), remarks, overlay)
    case TLVerify(decision, remarks) => DecideTL(b, actor, id, decision, remarks)
    case CAVerify(decision, remarks) => DecideCA(b, actor, id, decision, remarks)
    case Close(remarks) => DecideClose(b, actor, id, remarks)
    case ReopenGate(reason) => DecideReopen(b, actor, id, reason)
  }

  /** The guarded commit: refused when the item is gone or its normalized status is
      no longer the expected one; otherwise the item is stored and the entry appended. */
  function Apply(b: Board, g: GateWrite): Result<Board, Error> {
    var id := g.entry.workId;
    if g.expected.Empty? then Failure(Internal)
    else if id !in b.work || b.work[id].deleted then Failure(NotFound)
    else if Normalize(b.work[id].status) != Normalize(g.expected) then Failure(Conflict)
    else
      var w := g.work.(createdBy := b.work[id].createdBy,
                       assigneeId := if g.work.assigneeId == "" then g.work.assignedTo else g.work.assigneeId);
      Success(Board(b.work[id := w], b.history + [g.entry]))
  }

  /** A gate call with nothing in between its read and its commit. */
  function CallGate(b: Board, actor: Actor, id: string, gate: Gate): Result<Board, Error> {
    var d := Decide(b, actor, id, gate);
    if d.Failure? then Failure(d.error) else Apply(b, d.value)
  }

  // --- whole-call edits ---

  datatype WorkPatch = WorkPatch(
    title: Option<string>, description: Option<string>, department: Option<string>, clientId: Option<string>,
    clientName: Option<string>, companyId: Option<string>, engagementId: Option<string>, workType: Option<string>,
    periodKey: Option<string>, fy: Option<string>, priority: Option<string>, status: Option<StatusText>,
    overlay: Option<string>, risk: Option<Risk>, delegatedClose: Option<bool>, partnerSignoff: Option<bool>,
    tags: Option<seq<string>>, estimatedHours: Option<real>, actualHours: Option<real>,
    completionPct: Option<int>, due: Option<int>, parentId: Option<string>)

  datatype Slot = OwnerSlot | TLSlot | AssigneeSlot | OtherSlot

  function Or<T>(patch: Option<T>, current: T): T {
    if patch.Some? then patch.value else current
  }

  function Clamp(pct: int): int {
    if pct < 0 then 0 else if pct > 100 then 100 else pct
  }

  /** One of the four priorities in lower case, spaces and all, else the middle one. */
  function NormalizePriority(p: string): string {
    if Text.Lower(Text.Trim(p)) in ["low", "medium", "high", "urgent"] then Text.Lower(p) else "medium"
  }

  function PatchedTexts(cur: WorkItem, q: WorkPatch): WorkItem {
    cur.(title := Or(q.title, cur.title), description := Or(q.description, cur.description),
         department := Or(q.department, cur.department), clientId := Or(q.clientId, cur.clientId),
         clientName := Or(q.clientName, cur.clientName), companyId := Or(q.companyId, cur.companyId),
         engagementId := Or(q.engagementId, cur.engagementId), workType := Or(q.workType, cur.workType),
         periodKey := Or(q.periodKey, cur.periodKey), fy := Or(q.fy, cur.fy))
  }

  function PatchedFlags(cur: WorkItem, q: WorkPatch): WorkItem {
    cur.(risk := Or(q.risk, cur.risk), delegatedClose := Or(q.delegatedClose, cur.delegatedClose),
         partnerSignoff := Or(q.partnerSignoff, cur.partnerSignoff), tags := Or(q.tags, cur.tags),
         estimatedHours := Or(q.estimatedHours, cur.estimatedHours),
         actualHours := Or(q.actualHours, cur.actualHours),
         due := if q.due.Some? then q.due else cur.due, parentId := Or(q.parentId, cur.parentId))
  }

  function Patched(item: WorkItem, q: WorkPatch, actor: Actor): WorkItem {
    var cur := PatchedFlags(PatchedTexts(item, q), q);
    cur.(priority := if q.priority.Some? then NormalizePriority(q.priority.value) else cur.priority,
         status := if q.status.Some? then Code(Normalize(q.status.value)) else cur.status,
         overlay := if q.overlay.Some? then Text.Upper(Text.Trim(q.overlay.value)) else cur.overlay,
         completionPct := if q.completionPct.Some? then Clamp(q.completionPct.value) else cur.completionPct,
         updatedBy := actor.id)
  }

  function EditWork(b: Board, actor: Actor, id: string, q: WorkPatch): Result<WorkItem, Error> {
    if Read(b, id).Failure? then Failure(NotFound)
    else
      var cur := b.work[id];
      if IsExecutor(actor.role) && Assignee(cur) != actor.id then Failure(Forbidden)
      else if IsTerminal(Normalize(cur.status)) then Failure(Conflict)
      else if !Has(actor, Edit) then Failure(Forbidden)
      else if q.status.Some? && !IsFree(Normalize(q.status.value)) then Failure(Conflict)
      else Success(Patched(cur, q, actor))
  }

  function ReassignWork(b: Board, actor: Actor, id: string, toId: string, toRole: Role): Result<WorkItem, Error> {
    if !Has(actor, Assign) then Failure(Forbidden)
    else if !CanAssignTo(actor.role, toRole) then Failure(Forbidden)
    else if Read(b, id).Failure? then Failure(NotFound)
    else Success(b.work[id].(assignedTo := toId, assignedBy := actor.id, updatedBy := actor.id))
  }

  function AssignSlotOf(b: Board, actor: Actor, id: string, slot: Slot, userId: string, userRole: Role)
    : Result<WorkItem, Error>
  {
    if !Has(actor, Assign) then Failure(Forbidden)
    else if Read(b, id).Failure? then Failure(NotFound)
    else
      var cur := b.work[id].(updatedBy := actor.id);
      match slot
      case OwnerSlot => if !IsLeadership(actor.role) then Failure(Forbidden) else Success(cur.(ownerCA := userId))
      case TLSlot =>
        if !IsLeadership(actor.role) && !IsProfessional(actor.role) then Failure(Forbidden)
        else if !CanAssignTo(actor.role, userRole) && !userRole.TeamLeader? then Failure(Forbidden)
        else Success(cur.(tl := userId))
      case AssigneeSlot =>
        if !CanAssignTo(actor.role, userRole) then Failure(Forbidden)
        else Success(cur.(assigneeId := userId, assignedTo := userId, assignedBy := actor.id))
      case OtherSlot => Failure(Validation)
  }

  function TriadDefaults(actor: Actor, w: WorkItem, assigneeRole: Role): WorkItem {
    var assignee := Assignee(w);
    var owner := if w.ownerCA != "" then w.ownerCA
                 else if IsProfessional(actor.role) then actor.id
                 else if IsProfessional(assigneeRole) && assignee != "" then assignee else "";
    var tl := if w.tl != "" then w.tl
              else if actor.role.TeamLeader? then actor.id
              else if assigneeRole.TeamLeader? && assignee != "" then assignee else "";
    w.(assigneeId := if w.assigneeId == "" then assignee else w.assigneeId, ownerCA := owner, tl := tl)
  }

  predicate NeedsCompany(workType: string) {
    var t := Text.Upper(Text.Trim(workType));
    Text.Contains(t, "GST") || Text.Contains(t, "GSTR") || Text.Contains(t, "ROC")
  }

  /** The status a new item gets: unassigned work may only start open or waiting
      for documents. */
  function InitialStatus(asked: Status, assignee: string): Status {
    if assignee == "" && !asked.Open? && !asked.DocumentPending? then Open else asked
  }

  function NewWork(b: Board, actor: Actor, id: string, w: WorkItem, assigneeRole: Role): Result<WorkItem, Error> {
    var assignee := Assignee(w);
    if !Has(actor, Create) then Failure(Forbidden)
    else if IsSupport(actor.role) then Failure(Forbidden)
    else if Blank(w.title) then Failure(Validation)
    else if assignee != "" && !Has(actor, Assign) then Failure(Forbidden)
    else if assignee != "" && !CanAssignTo(actor.role, assigneeRole) then Failure(Forbidden)
    else if NeedsCompany(w.workType) && Blank(w.companyId) then Failure(Validation)
    else if w.parentId != "" && Read(b, w.parentId).Failure? then Failure(NotFound)
    else
      var kept := w.(id := id, priority := NormalizePriority(w.priority), assignedTo := assignee,
                     assigneeId := if assignee == "" || w.assigneeId == "" then assignee else w.assigneeId,
                     status := Code(InitialStatus(Normalize(w.status), assignee)),
                     overlay := Text.Upper(Text.Trim(w.overlay)),
                     assignedBy := actor.id, createdBy := actor.id, updatedBy := actor.id, deleted := false);
      Success(TriadDefaults(actor, kept, assigneeRole))
  }

  /** The store's unguarded update: a deleted item is not found, the creator is kept. */
  function Store(b: Board, id: string, w: WorkItem): Board {
    if id in b.work && !b.work[id].deleted then b.(work := b.work[id := w.(createdBy := b.work[id].createdBy)]) else b
  }

  // --- the step machine ---

  /** A call between its steps: it reads the item, then - a CA verification does - the
      history, decides, and later commits. at and seen are the lengths of the history
      when the item and when the history was read. */
  datatype InFlight =
    | Reading(actor: Actor, id: string, gate: Gate, item: WorkItem, at: nat)
    | Decided(actor: Actor, gate: Gate, item: WorkItem, write: GateWrite, at: nat, seen: nat)

  /** created records, as the audit log does, the status each item was created in. */
  datatype World = World(board: Board, created: map<string, Status>, calls: map<nat, InFlight>)

  datatype Step =
    | Begin(call: nat, actor: Actor, id: string, gate: Gate)
    | Check(call: nat)
    | Commit(call: nat)
    | Whole(actor: Actor, id: string, gate: Gate)
    | CreateWork(actor: Actor, id: string, draft: WorkItem, assigneeRole: Role)
    | UpdateWork(actor: Actor, id: string, patch: WorkPatch)
    | Reassign(actor: Actor, id: string, toId: string, toRole: Role)
    | AssignSlot(actor: Actor, id: string, slot: Slot, userId: string, userRole: Role)
    | SoftDelete(actor: Actor, id: string)
    | Restore(actor: Actor, id: string)

  const EmptyWorld := World(Board(map[], []), map[], map[])

  /** What a call decides on: the item as it read it, the history as it is now. */
  function AsRead(b: Board, f: InFlight): Board
    requires f.Reading?
  {
    Board(map[f.id := f.item], b.history)
  }

  function Edited(w: World, id: string, r: Result<WorkItem, Error>): World {
    if r.Success? then w.(board := Store(w.board, id, r.value)) else w
  }

  /** One step. A call number already in flight, or an id already in use, cannot be
      taken again: call numbers name calls, and new ids are fresh. */
  function Next(w: World, step: Step): World {
    match step
    case Begin(call, actor, id, gate) =>
      var r := Read(w.board, id);
      if call in w.calls || r.Failure? then w
      else w.(calls := w.calls[call := Reading(actor, id, gate, r.value, |w.board.history|)])
    case Check(call) =>
      if call !in w.calls || !w.calls[call].Reading? then w
      else
        var f := w.calls[call];
        var d := Decide(AsRead(w.board, f), f.actor, f.id, f.gate);
        if d.Failure? then w.(calls := w.calls - {call})
        else w.(calls := w.calls[call := Decided(f.actor, f.gate, f.item, d.value, f.at, |w.board.history|)])
    case Commit(call) =>
      if call !in w.calls || !w.calls[call].Decided? then w
      else
        var r := Apply(w.board, w.calls[call].write);
        World(if r.Success? then r.value else w.board, w.created, w.calls - {call})
    case Whole(actor, id, gate) =>
      var r := CallGate(w.board, actor, id, gate);
      if r.Success? then w.(board := r.value) else w
    case CreateWork(actor, id, draft, assigneeRole) =>
      var r := NewWork(w.board, actor, id, draft, assigneeRole);
      if id in w.board.work || r.Failure? then w
      else World(Board(w.board.work[id := r.value], w.board.history),
                 w.created[id := Normalize(r.value.status)], w.calls)
    case UpdateWork(actor, id, q) => Edited(w, id, EditWork(w.board, actor, id, q))
    case Reassign(actor, id, toId, toRole) => Edited(w, id, ReassignWork(w.board, actor, id, toId, toRole))
    case AssignSlot(actor, id, slot, userId, userRole) =>
      Edited(w, id, AssignSlotOf(w.board, actor, id, slot, userId, userRole))
    case SoftDelete(actor, id) =>
      if !Has(actor, Delete) || IsExecutor(actor.role) || IsSupport(actor.role) || Read(w.board, id).Failure? then w
      else w.(board := w.board.(work := w.board.work[id := w.board.work[id].(deleted := true)]))
    case Restore(actor, id) =>
      if !Has(actor, Delete) || id !in w.board.work || !w.board.work[id].deleted then w
      else w.(board := w.board.(work := w.board.work[id := w.board.work[id].(deleted := false)]))
  }

  function RunFrom(w: World, steps: seq<Step>): World
    decreases |steps|
  {
    if steps == [] then w else RunFrom(Next(w, steps[0]), steps[1..])
  }

  /** A run from the empty store. */
  function Run(steps: seq<Step>): World {
    RunFrom(EmptyWorld, steps)
  }
}
