/** What the work service's tables and record updates mean: the edges of the workflow seen
    from where an item stands, the way out of every status, and what each field of a
    stored item comes from. */
module WorkMeaning {
  import opened Tables
  import opened Practice
  import opened Gates
  import opened GateSafety
  import opened Segregation
  import opened Authority
  import Visibility
  import Text

  // --- the edges, seen from where an item stands ---

  /** Where a move may take an item. */
  function LegalTargets(from: Status): set<Status> {
    match from
    case Open => {DocumentPending, InProgress, Blocked, OnHold, Cancelled}
    case DocumentPending => {DocumentReceived, InProgress, Blocked, Cancelled}
    case DocumentReceived => {DocumentPending, InProgress, ReadyForTLVerify}
    case InProgress => {DocumentPending, DocumentReceived, Blocked, OnHold, ReadyForTLVerify, Cancelled}
    case Blocked => {InProgress, Cancelled}
    case OnHold => {InProgress, Cancelled}
    case TLRejected => {InProgress, ReadyForTLVerify}
    case CARejected => {InProgress}
    case _ => {}
  }

  lemma EdgesFromHere(from: Status, to: Status)
    ensures CanTransition(from, to) <==> from == to || to in LegalTargets(from)
  {
  }

  /** A patch may set exactly the statuses that claim no verification, ask for none, and
      end nothing. */
  lemma FreeMeans(st: Status)
    ensures IsFree(st) <==> Early(st) && !st.ReadyForTLVerify? && !IsTerminal(st)
  {
  }

  // --- every item can be closed ---

  /** A firm the item belongs to. */
  function FirmFor(w: WorkItem): string {
    if Visibility.BelongsToFirm("ABC", w) then "ABC"
    else if Visibility.BelongsToFirm("WM", w) then "WM"
    else if Visibility.BelongsToFirm("PRACTICE", w) then "PRACTICE"
    else "DEFAULT"
  }

  function PartnerOf(firm: string, id: string): Actor {
    Actor(id, Partner, {}, [], firm)
  }

  lemma SomeFirm(w: WorkItem)
    ensures Visibility.CanView(PartnerOf(FirmFor(w), "p"), w)
  {
    assert "ABC" + "-" == "ABC-" && "WM" + "-" == "WM-" && "PRACTICE" + "-" == "PRACTICE-";
  }

  /** The item is there in a given status, and partners of the firm may view it. */
  ghost predicate Stands(b: Board, id: string, st: Status, firm: string) {
    && id in b.work && !b.work[id].deleted && b.work[id].status == Code(st)
    && Visibility.CanView(PartnerOf(firm, "p"), b.work[id])
  }

  /** The next gate call towards closing, by partners who are not the latest TL passer. */
  function NextGate(st: Status): Gate
    requires !IsTerminal(st) && !st.TLVerified?
  {
    if st.InProgress? then Move(Code(ReadyForTLVerify), "", "")
    else if st.ReadyForTLVerify? then TLVerify(Pass, "")
    else if st.ReadyForCAVerify? then CAVerify(Pass, "")
    else if PastVerification(st) || st.CAVerified? then Close("")
    else Move(Code(InProgress), "", "")
  }

  /** How many calls away closing is, at most. */
  function Distance(st: Status): nat {
    if st.Closed? then 0
    else if PastVerification(st) || st.CAVerified? then 1
    else if st.ReadyForCAVerify? then 2
    else if st.ReadyForTLVerify? then 3
    else if st.InProgress? then 4
    else 5
  }

  function Verifier(b: Board, id: string): string {
    if LatestTLPass(b.history, id) == "p" then "q" else "p"
  }

  lemma SameParties(b: Board, g: GateWrite, firm: string)
    requires Apply(b, g).Success?
    requires var id := g.entry.workId;
             Visibility.CanView(PartnerOf(firm, "p"), b.work[id])
             && g.work == b.work[id].(status := g.work.status, updatedBy := g.work.updatedBy,
                                      overlay := g.work.overlay, completionPct := g.work.completionPct)
    ensures Visibility.CanView(PartnerOf(firm, "p"), Apply(b, g).value.work[g.entry.workId])
  {
    var id := g.entry.workId;
    var w, w' := b.work[id], Apply(b, g).value.work[id];
    forall k | 0 <= k < 7 ensures Visibility.Parties(w')[k] in Visibility.Parties(w) {
      assert Visibility.Parties(w)[2] == w.assignedTo;
      assert Visibility.Parties(w)[k] in Visibility.Parties(w);
    }
    forall k | 0 <= k < 7 && Visibility.Parties(w)[k] != "" ensures Visibility.Parties(w)[k] in Visibility.Parties(w') {
      assert Visibility.Parties(w')[k] == Visibility.Parties(w)[k];
    }
  }

  /** A status one step nearer to closing. */
  predicate Nearer(st': Status, st: Status) {
    Distance(st') < Distance(st) && (IsTerminal(st') ==> st'.Closed?) && !st'.TLVerified?
  }

  lemma NextGateDecides(b: Board, id: string, st: Status, firm: string)
    requires Stands(b, id, st, firm) && !IsTerminal(st) && !st.TLVerified?
    ensures var d := Decide(b, PartnerOf(firm, Verifier(b, id)), id, NextGate(st));
            d.Success? && Nearer(d.value.entry.to, st)
  {
    assert Present(b, id);
    EdgesFromHere(st, InProgress);
    EdgesFromHere(st, ReadyForTLVerify);
  }

  lemma GateAdvances(b: Board, id: string, st: Status, firm: string) returns (st': Status)
    requires Stands(b, id, st, firm) && !IsTerminal(st) && !st.TLVerified?
    ensures var r := CallGate(b, PartnerOf(firm, Verifier(b, id)), id, NextGate(st));
            r.Success? && Stands(r.value, id, st', firm) && Nearer(st', st)
  {
    var actor := PartnerOf(firm, Verifier(b, id));
    NextGateDecides(b, id, st, firm);
    DecidedIsWarranted(b, actor, id, NextGate(st));
    var g := Decide(b, actor, id, NextGate(st)).value;
    st' := g.entry.to;
    DecidedExpects(b, actor, id, NextGate(st));
    SameParties(b, g, firm);
  }

  lemma DecidedExpects(b: Board, actor: Actor, id: string, gate: Gate)
    requires Decide(b, actor, id, gate).Success? && Present(b, id)
    ensures Decide(b, actor, id, gate).value.expected == b.work[id].status
    ensures Apply(b, Decide(b, actor, id, gate).value).Success?
  {
    DecidedIsWarranted(b, actor, id, gate);
  }

  /** Some run of at most n whole calls closes the item. */
  ghost predicate Closable(w: World, id: string, firm: string, n: nat) {
    exists steps :: |steps| <= n && WholeCalls(steps) && Stands(RunFrom(w, steps).board, id, Closed, firm)
  }

  lemma OneCallMore(w: World, step: Step, id: string, firm: string, n: nat)
    requires step.Whole? && Closable(Next(w, step), id, firm, n)
    ensures Closable(w, id, firm, n + 1)
  {
    var rest :| |rest| <= n && WholeCalls(rest) && Stands(RunFrom(Next(w, step), rest).board, id, Closed, firm);
    var steps := [step] + rest;
    assert steps[1..] == rest && steps[0] == step;
    assert RunFrom(w, steps) == RunFrom(Next(w, step), rest);
    assert |steps| <= n + 1 && WholeCalls(steps);
  }

  /** Whatever the run so far, an item that is neither cancelled nor TL_VERIFIED can be
      closed by partners in at most five gate calls. */
  lemma {:induction false} CanBeClosed(w: World, id: string, st: Status, firm: string)
    requires Stands(w.board, id, st, firm) && !st.TLVerified? && !st.Cancelled?
    ensures Closable(w, id, firm, Distance(st))
    decreases Distance(st)
  {
    if st.Closed? {
      var none: seq<Step> := [];
      assert RunFrom(w, none) == w && WholeCalls(none) && |none| <= Distance(st);
    } else {
      var st' := GateAdvances(w.board, id, st, firm);
      var step := Whole(PartnerOf(firm, Verifier(w.board, id)), id, NextGate(st));
      CanBeClosed(Next(w, step), id, st', firm);
      OneCallMore(w, step, id, firm, Distance(st'));
      assert Distance(st') + 1 <= Distance(st);
    }
  }

  /** In every interleaving an item created early that is neither deleted nor cancelled can
      still be closed: no such run leads to a dead end. */
  lemma EarlyItemsCanBeClosed(steps: seq<Step>, id: string)
    requires id in Run(steps).created && Early(Run(steps).created[id])
    requires id in Run(steps).board.work && !Run(steps).board.work[id].deleted
    requires !Normalize(Run(steps).board.work[id].status).Cancelled?
    ensures exists firm :: Closable(Run(steps), id, firm, 5)
  {
    RunFromPending(EmptyWorld, steps);
    WorkflowSafety(steps, id);
    var firm := PresentCanBeClosed(Run(steps), id);
  }

  lemma PresentCanBeClosed(w: World, id: string) returns (firm: string)
    requires Present(w.board, id) && w.board.work[id].status.status !in {TLVerified, Cancelled}
    ensures Closable(w, id, firm, 5)
  {
    SomeFirm(w.board.work[id]);
    firm := FirmFor(w.board.work[id]);
    var st := w.board.work[id].status.status;
    CanBeClosed(w, id, st, firm);
    AtMost(w, id, firm, Distance(st), 5);
  }

  lemma AtMost(w: World, id: string, firm: string, n: nat, m: nat)
    requires Closable(w, id, firm, n) && n <= m
    ensures Closable(w, id, firm, m)
  {
  }

  /** No gate call takes an item out of TL_VERIFIED, which only an assigned create reaches:
      a status patch alone does. */
  lemma TLVerifiedIsStuck(b: Board, actor: Actor, id: string, gate: Gate)
    requires Present(b, id) && b.work[id].status == Code(TLVerified)
    requires CallGate(b, actor, id, gate).Success?
    ensures CallGate(b, actor, id, gate).value.work[id].status == Code(TLVerified)
  {
    DecidedIsWarranted(b, actor, id, gate);
    EdgesFromHere(TLVerified, Decide(b, actor, id, gate).value.entry.to);
  }

  // --- where the fields of a patched item come from ---

  /** The texts of an item that a patch may give. */
  datatype TextField =
    | TitleText | DescriptionText | DepartmentText | ClientIdText | ClientNameText | CompanyIdText
    | EngagementIdText | WorkTypeText | PeriodKeyText | FyText | ParentIdText

  function TextOf(w: WorkItem, field: TextField): string {
    match field
    case TitleText => w.title
    case DescriptionText => w.description
    case DepartmentText => w.department
    case ClientIdText => w.clientId
    case ClientNameText => w.clientName
    case CompanyIdText => w.companyId
    case EngagementIdText => w.engagementId
    case WorkTypeText => w.workType
    case PeriodKeyText => w.periodKey
    case FyText => w.fy
    case ParentIdText => w.parentId
  }

  /** What a patch gives for it. */
  function GivenText(q: WorkPatch, field: TextField): Option<string> {
    match field
    case TitleText => q.title
    case DescriptionText => q.description
    case DepartmentText => q.department
    case ClientIdText => q.clientId
    case ClientNameText => q.clientName
    case CompanyIdText => q.companyId
    case EngagementIdText => q.engagementId
    case WorkTypeText => q.workType
    case PeriodKeyText => q.periodKey
    case FyText => q.fy
    case ParentIdText => q.parentId
  }

  /** An accepted patch stores each text it gives under its own name and leaves the others
      as they were. */
  lemma PatchStoresByName(b: Board, actor: Actor, id: string, q: WorkPatch, field: TextField)
    requires EditWork(b, actor, id, q).Success?
    ensures id in b.work
    ensures var w, w' := b.work[id], EditWork(b, actor, id, q).value;
            && TextOf(w', field) == (if GivenText(q, field).Some? then GivenText(q, field).value else TextOf(w, field))
            && w'.updatedBy == actor.id
  {
  }

  /** What a patch may not touch stays: ids, people, and whether the item is deleted. */
  lemma PatchKeepsTheRest(b: Board, actor: Actor, id: string, q: WorkPatch)
    requires EditWork(b, actor, id, q).Success?
    ensures id in b.work
    ensures var w, w' := b.work[id], EditWork(b, actor, id, q).value;
            && w'.(title := w.title, description := w.description, department := w.department, clientId := w.clientId,
                   clientName := w.clientName, companyId := w.companyId, engagementId := w.engagementId,
                   workType := w.workType, periodKey := w.periodKey, fy := w.fy, parentId := w.parentId,
                   updatedBy := w.updatedBy, priority := w.priority, status := w.status, overlay := w.overlay,
                   risk := w.risk, delegatedClose := w.delegatedClose, partnerSignoff := w.partnerSignoff,
                   tags := w.tags, estimatedHours := w.estimatedHours, actualHours := w.actualHours,
                   completionPct := w.completionPct, due := w.due) == w
  {
  }

  /** So for what is not text: given, it is stored; not given, it is kept. Statuses are
      free ones, percentages lie within bounds. */
  lemma PatchStoresFlags(b: Board, actor: Actor, id: string, q: WorkPatch)
    requires EditWork(b, actor, id, q).Success?
    ensures id in b.work
    ensures var w, w' := b.work[id], EditWork(b, actor, id, q).value;
            && (q.risk == None ==> w'.risk == w.risk) && (q.risk.Some? ==> q.risk == Some(w'.risk))
            && (q.delegatedClose == None ==> w'.delegatedClose == w.delegatedClose)
            && (q.delegatedClose.Some? ==> q.delegatedClose == Some(w'.delegatedClose))
            && (q.partnerSignoff == None ==> w'.partnerSignoff == w.partnerSignoff)
            && (q.partnerSignoff.Some? ==> q.partnerSignoff == Some(w'.partnerSignoff))
            && (q.tags == None ==> w'.tags == w.tags) && (q.tags.Some? ==> q.tags == Some(w'.tags))
            && (q.estimatedHours == None ==> w'.estimatedHours == w.estimatedHours)
            && (q.estimatedHours.Some? ==> q.estimatedHours == Some(w'.estimatedHours))
            && (q.actualHours == None ==> w'.actualHours == w.actualHours)
            && (q.actualHours.Some? ==> q.actualHours == Some(w'.actualHours))
            && (q.due == None ==> w'.due == w.due) && (q.due.Some? ==> q.due == w'.due)
            && (q.priority == None ==> w'.priority == w.priority)
            && (q.priority.Some? ==> w'.priority == NormalizePriority(q.priority.value))
            && (q.overlay == None ==> w'.overlay == w.overlay)
            && (q.overlay.Some? ==> w'.overlay == Text.Upper(Text.Trim(q.overlay.value)))
            && (q.status == None ==> w'.status == w.status)
            && (q.status.Some? ==> w'.status == Code(Normalize(q.status.value)) && IsFree(w'.status.status))
            && (q.completionPct == None ==> w'.completionPct == w.completionPct)
            && (q.completionPct.Some? ==> 0 <= w'.completionPct <= 100)
            && (q.completionPct.Some? && 0 <= q.completionPct.value <= 100
                ==> q.completionPct == Some(w'.completionPct))
            && (q.completionPct.Some? && q.completionPct.value < 0 ==> w'.completionPct == 0)
            && (q.completionPct.Some? && q.completionPct.value > 100 ==> w'.completionPct == 100)
  {
  }

  /** An edit is accepted exactly on open work, from the assignee or from someone who is no
      executor, with the permission to edit and no gated status. */
  lemma EditAccepted(b: Board, actor: Actor, id: string, q: WorkPatch)
    requires id in b.work && !b.work[id].deleted
    ensures EditWork(b, actor, id, q).Success?
       <==> (&& Has(actor, Edit) && !IsTerminal(Normalize(b.work[id].status))
             && (IsExecutor(actor.role) ==> Assignee(b.work[id]) == actor.id)
             && (q.status.Some? ==> IsFree(Normalize(q.status.value))))
  {
  }

  // --- slots ---

  /** Who holds a slot of an item. */
  function Holder(w: WorkItem, slot: Slot): string {
    match slot
    case OwnerSlot => w.ownerCA
    case TLSlot => w.tl
    case AssigneeSlot => w.assigneeId
    case OtherSlot => ""
  }

  /** An accepted assignment puts the user into the slot named and nobody into another;
      the assignee stands in both of its fields, under whoever assigned it. */
  lemma AssignedToSlot(b: Board, actor: Actor, id: string, slot: Slot, user: string, role: Role, other: Slot)
    requires AssignSlotOf(b, actor, id, slot, user, role).Success?
    ensures id in b.work && !slot.OtherSlot?
    ensures var w, w' := b.work[id], AssignSlotOf(b, actor, id, slot, user, role).value;
            && Holder(w', slot) == user && (other != slot ==> Holder(w', other) == Holder(w, other))
            && (slot.AssigneeSlot? ==> w'.assignedTo == user && w'.assignedBy == actor.id)
            && (!slot.AssigneeSlot? ==> w'.assignedTo == w.assignedTo && w'.assignedBy == w.assignedBy)
            && w'.updatedBy == actor.id
            && w'.(ownerCA := w.ownerCA, tl := w.tl, assigneeId := w.assigneeId, assignedTo := w.assignedTo,
                   assignedBy := w.assignedBy, updatedBy := w.updatedBy) == w
  {
  }

  /** Owners are set by partners and managers alone, team leaders by them and by CAs, and
      nobody assigns upwards. */
  lemma AssignAccepted(b: Board, actor: Actor, id: string, slot: Slot, user: string, role: Role)
    requires id in b.work && !b.work[id].deleted
    ensures AssignSlotOf(b, actor, id, slot, user, role).Success?
       <==> (&& Has(actor, Assign) && !slot.OtherSlot?
             && (slot.OwnerSlot? ==> IsLeadership(actor.role))
             && (slot.TLSlot? ==> (IsLeadership(actor.role) || IsProfessional(actor.role))
                                  && (CanAssignTo(actor.role, role) || role.TeamLeader?))
             && (slot.AssigneeSlot? ==> CanAssignTo(actor.role, role)))
  {
  }

  /** Outside leadership work goes down the ranks only, and never to or from support by
      team leaders. */
  lemma AssignsDownwards(actor: Role, assignee: Role)
    ensures CanAssignTo(actor, assignee) && !IsLeadership(actor) ==> Rank(assignee) < Rank(actor)
    ensures CanAssignTo(actor, assignee) && actor.TeamLeader? ==> IsExecutor(assignee)
    ensures IsLeadership(actor) ==> CanAssignTo(actor, assignee)
    ensures IsProfessional(actor) ==> (CanAssignTo(actor, assignee)
              <==> !IsLeadership(assignee) && !IsProfessional(assignee))
    ensures actor.TeamLeader? && IsExecutor(assignee) ==> CanAssignTo(actor, assignee)
    ensures IsExecutor(actor) || IsSupport(actor) ==> !CanAssignTo(actor, assignee)
  {
  }

  /** Reassigning, the older call, stores the new assignee in the older field alone. */
  lemma ReassignTells(b: Board, actor: Actor, id: string, user: string, role: Role)
    requires id in b.work && !b.work[id].deleted
    ensures ReassignWork(b, actor, id, user, role).Success? <==> Has(actor, Assign) && CanAssignTo(actor.role, role)
    ensures ReassignWork(b, actor, id, user, role).Success? ==>
              var w, w' := b.work[id], ReassignWork(b, actor, id, user, role).value;
              && w'.assignedTo == user && w'.assignedBy == actor.id && w'.updatedBy == actor.id
              && w'.(assignedTo := w.assignedTo, assignedBy := w.assignedBy, updatedBy := w.updatedBy) == w
  {
  }

  /** So it takes effect exactly when the newer field is blank or already names the user:
      an item assigned when it was created keeps its assignee. */
  lemma ReassignTakesEffectExactlyWhen(b: Board, actor: Actor, id: string, user: string, role: Role)
    requires id in b.work && Text.Trim(user) != "" && ReassignWork(b, actor, id, user, role).Success?
    ensures Assignee(ReassignWork(b, actor, id, user, role).value) == user
       <==> Text.Trim(b.work[id].assigneeId) == "" || b.work[id].assigneeId == user
  {
    FirstOfTwo(b.work[id].assigneeId, user);
  }

  /** Whoever new work is created for keeps it, whomever it is then reassigned to. */
  lemma ReassignedWorkStays(b: Board, creator: Actor, id: string, draft: WorkItem, role: Role,
                            b': Board, actor: Actor, user: string, role': Role)
    requires NewWork(b, creator, id, draft, role).Success? && draft.assigneeId == "" && Assignee(draft) != ""
    requires id in b'.work && b'.work[id] == NewWork(b, creator, id, draft, role).value
    requires ReassignWork(b', actor, id, user, role').Success?
    ensures Assignee(ReassignWork(b', actor, id, user, role').value) == Assignee(draft)
  {
    TriadOfNewWork(b, creator, id, draft, role);
    FirstOfTwo(draft.assigneeId, draft.assignedTo);
    FirstOfTwo(Assignee(draft), user);
  }

  // --- who made an item ---

  lemma StepKeepsCreator(w: World, step: Step, id: string)
    requires id in w.board.work
    ensures id in Next(w, step).board.work && Next(w, step).board.work[id].createdBy == w.board.work[id].createdBy
  {
  }

  /** Over every run, edits and commits of stale items included, an item's creator stays
      who it was. */
  lemma {:induction false} CreatorIsForever(w: World, steps: seq<Step>, id: string)
    requires id in w.board.work
    ensures id in RunFrom(w, steps).board.work
    ensures RunFrom(w, steps).board.work[id].createdBy == w.board.work[id].createdBy
    decreases |steps|
  {
    if steps != [] {
      StepKeepsCreator(w, steps[0], id);
      CreatorIsForever(Next(w, steps[0]), steps[1..], id);
    }
  }

  /** Deleting and restoring change nothing but the mark, and are for those who may delete;
      deleting is not for executors and support. */
  lemma DeletionTells(w: World, actor: Actor, id: string)
    requires id in w.board.work
    ensures var w' := Next(w, SoftDelete(actor, id));
            var allowed := Has(actor, Delete) && !IsExecutor(actor.role) && !IsSupport(actor.role);
            && w'.board.work[id].deleted == (w.board.work[id].deleted || allowed)
            && w' == w.(board := w.board.(work := w.board.work[id := w'.board.work[id]]))
            && w'.board.work[id].(deleted := w.board.work[id].deleted) == w.board.work[id]
    ensures var w' := Next(w, Step.Restore(actor, id));
            && w'.board.work[id].deleted == (w.board.work[id].deleted && !Has(actor, Delete))
            && w' == w.(board := w.board.(work := w.board.work[id := w'.board.work[id]]))
            && w'.board.work[id].(deleted := w.board.work[id].deleted) == w.board.work[id]
  {
    assert w.board.work[id := w.board.work[id]] == w.board.work;
  }

  // --- what a new item starts with ---

  /** A slot keeps who was asked for; else it takes the creator, if of its grade, or else
      the assignee, if of its grade. */
  predicate Derived(holder: string, asked: string, creatorFits: bool, creator: string, assigneeFits: bool,
                    assignee: string) {
    && (asked != "" ==> holder == asked)
    && (asked == "" && creatorFits ==> holder == creator)
    && (asked == "" && !creatorFits && assigneeFits && assignee != "" ==> holder == assignee)
    && (asked == "" && !creatorFits && !(assigneeFits && assignee != "") ==> holder == "")
  }

  /** The ownership triad of a new item: CAs own, team leaders lead. */
  lemma TriadOfNewWork(b: Board, actor: Actor, id: string, draft: WorkItem, role: Role)
    requires NewWork(b, actor, id, draft, role).Success?
    ensures var w, assignee := NewWork(b, actor, id, draft, role).value, Assignee(draft);
            && Derived(w.ownerCA, draft.ownerCA, IsProfessional(actor.role), actor.id, IsProfessional(role), assignee)
            && Derived(w.tl, draft.tl, actor.role.TeamLeader?, actor.id, role.TeamLeader?, assignee)
            && w.assignedTo == assignee
            && w.assigneeId == (if assignee != "" && draft.assigneeId != "" then draft.assigneeId else assignee)
  {
    NewAssignee(draft, id, actor);
  }

  /** Taking the assignee into both fields leaves it the assignee. */
  lemma NewAssignee(draft: WorkItem, id: string, actor: Actor)
    ensures var a := Assignee(draft);
            Assignee(draft.(assignedTo := a, assigneeId := if a == "" || draft.assigneeId == "" then a
                                                           else draft.assigneeId)) == a
  {
    FirstOfTwo(draft.assigneeId, draft.assignedTo);
    var a := Assignee(draft);
    FirstOfTwo(if a == "" || draft.assigneeId == "" then a else draft.assigneeId, a);
  }

  lemma FirstOfTwo(x: string, y: string)
    ensures Text.FirstNonEmpty([x, y]) == if Text.Trim(x) != "" then x else if Text.Trim(y) != "" then y else ""
  {
    assert [x, y][1..] == [y] && [y][1..] == [];
    assert Text.FirstNonEmpty([]) == "";
    assert Text.FirstNonEmpty([y]) == if Text.Trim(y) != "" then y else "";
  }

  /** The rest of a new item is the draft's, but for who made it and what is normalised. */
  lemma NewWorkKeepsDraft(b: Board, actor: Actor, id: string, draft: WorkItem, role: Role)
    requires NewWork(b, actor, id, draft, role).Success?
    ensures var w := NewWork(b, actor, id, draft, role).value;
            && w.id == id && w.createdBy == actor.id && w.updatedBy == actor.id && w.assignedBy == actor.id
            && !w.deleted && w.overlay == Text.Upper(Text.Trim(draft.overlay))
            && w.priority == NormalizePriority(draft.priority)
            && w.status == Code(if Assignee(draft) != "" || Normalize(draft.status) in {Open, DocumentPending}
                                then Normalize(draft.status) else Open)
            && w.(id := draft.id, createdBy := draft.createdBy, updatedBy := draft.updatedBy,
                  assignedBy := draft.assignedBy, deleted := draft.deleted, overlay := draft.overlay,
                  status := draft.status, priority := draft.priority, assignedTo := draft.assignedTo,
                  assigneeId := draft.assigneeId, ownerCA := draft.ownerCA, tl := draft.tl) == draft
  {
  }

  /** A new item is accepted exactly from someone who may create and is no support role,
      with a title, an assignee the creator may assign, a company where the type of work
      needs one, and a parent that is there. */
  lemma NewWorkAccepted(b: Board, actor: Actor, id: string, draft: WorkItem, role: Role)
    ensures NewWork(b, actor, id, draft, role).Success?
       <==> (&& Has(actor, Create) && !IsSupport(actor.role) && !Blank(draft.title)
             && (Assignee(draft) != "" ==> Has(actor, Assign) && CanAssignTo(actor.role, role))
             && (NeedsCompany(draft.workType) ==> !Blank(draft.companyId))
             && (draft.parentId != "" ==> draft.parentId in b.work && !b.work[draft.parentId].deleted))
  {
  }

  // --- words ---

  /** What the legacy words and unknown ones mean: only review asks for a verification, only
      completed claims one, and everything else is open. */
  lemma LegacyWordsTell(t: StatusText)
    ensures t.Code? ==> Normalize(t) == t.status
    ensures !t.Code? ==> (Normalize(t).ReadyForTLVerify? <==> t.Review?) && (Normalize(t).Closed? <==> t.Completed?)
    ensures !t.Code? && !t.Review? && !t.Completed? ==> Normalize(t).Open?
  {
  }

  /** GST or ROC anywhere in the type of work, in whatever case, asks for a company; the
      third word looked for adds nothing. */
  lemma CompanyNeededTells(workType: string)
    ensures var t := Text.Upper(Text.Trim(workType));
            NeedsCompany(workType) <==> Text.Contains(t, "GST") || Text.Contains(t, "ROC")
  {
    var t := Text.Upper(Text.Trim(workType));
    if Text.Contains(t, "GSTR") {
      var i :| 0 <= i <= |t| && Text.OccursAt(t, "GSTR", i);
      assert t[i..i + 3] == t[i..i + 4][..3] == "GST";
      assert Text.OccursAt(t, "GST", i);
    }
  }

  /** A priority is kept up to letter case or becomes the middle one, and one that is none
      of the four words, spaces aside, is not kept. */
  lemma PriorityMeans(p: string)
    ensures Text.EqualFold(NormalizePriority(p), p) || NormalizePriority(p) == "medium"
    ensures Text.Lower(Text.Trim(p)) in ["low", "medium", "high", "urgent"] ==> Text.EqualFold(NormalizePriority(p), p)
    ensures Text.Lower(Text.Trim(p)) !in ["low", "medium", "high", "urgent"] ==> NormalizePriority(p) == "medium"
  {
    assert forall i :: 0 <= i < |p| ==> Text.LowerChar(Text.LowerChar(p[i])) == Text.LowerChar(p[i]);
    assert Text.Lower(Text.Lower(p)) == Text.Lower(p);
  }
}
