/** The vocabulary of work management: roles, permissions, statuses, work items,
    and the role predicates and edge tables over them. */
module Practice {
  import opened Tables
  import Text

  // --- roles ---

  /** Hierarchy roles after normalisation of their spelling. */
  datatype Role =
    | Partner | Manager | CA | SeniorCA | JuniorCA | TeamLeader | Accountant
    | ArticleAssistant | Employee | HR | Reception | Admin | ClientRole

  datatype Permission =
    | View | Create | Edit | Delete | Assign | Transition | VerifyTL | VerifyCA
    | CloseManager | ClosePartner | Reopen | Comment | Upload | UsersCreate | AuditView
    | DashboardManage | DashboardMine | IntakeCreate | IntakeApprove | IntakeReject
    | HierarchyPlace | EngagementCreate | EngagementEdit | EmployeesCreate

  datatype Actor = Actor(id: string, role: Role, permissions: set<Permission>, downline: seq<string>, firmKey: string)

  function AllPermissions(): set<Permission> {
    {View, Create, Edit, Delete, Assign, Permission.Transition, VerifyTL, VerifyCA, CloseManager, ClosePartner, Reopen,
     Comment, Upload, UsersCreate, AuditView, DashboardManage, DashboardMine, IntakeCreate, IntakeApprove,
     IntakeReject, HierarchyPlace, EngagementCreate, EngagementEdit}
  }

  function PermissionsForRole(role: Role): set<Permission> {
    match role
    case Partner => AllPermissions()
    case Manager => AllPermissions() - {ClosePartner, VerifyTL, VerifyCA}
    case CA | SeniorCA =>
      {View, Create, Edit, Delete, Assign, Permission.Transition, VerifyCA, Comment, Upload, UsersCreate, AuditView,
       DashboardManage, DashboardMine, EngagementCreate, EngagementEdit, IntakeCreate}
    case TeamLeader =>
      {View, Create, Edit, Assign, Permission.Transition, VerifyTL, Comment, Upload, UsersCreate, DashboardMine}
    case JuniorCA | Accountant | ArticleAssistant | Employee =>
      {View, Edit, Permission.Transition, Comment, Upload, DashboardMine}
    case Reception => {View, IntakeCreate, Comment, Upload, DashboardMine}
    case HR => {EmployeesCreate, UsersCreate, DashboardMine}
    case Admin => {View, AuditView, DashboardMine}
    case ClientRole => {}
  }

  predicate Has(actor: Actor, permission: Permission) {
    permission in actor.permissions || permission in PermissionsForRole(actor.role)
  }

  function Rank(role: Role): int {
    match role
    case Partner => 110
    case Manager => 100
    case CA => 70
    case SeniorCA => 65
    case TeamLeader => 50
    case JuniorCA => 30
    case Accountant => 25
    case ArticleAssistant => 22
    case Employee => 20
    case Reception | HR => 10
    case Admin => 5
    case ClientRole => 0
  }

  predicate IsLeadership(role: Role) { role.Partner? || role.Manager? }

  predicate IsProfessional(role: Role) { role.CA? || role.SeniorCA? }

  predicate IsExecutor(role: Role) {
    role.JuniorCA? || role.Accountant? || role.ArticleAssistant? || role.Employee?
  }

  predicate IsSupport(role: Role) { role.HR? || role.Reception? || role.Admin? || role.ClientRole? }

  predicate CanAssignTo(actor: Role, assignee: Role) {
    if IsSupport(actor) || IsExecutor(actor) then false
    else if IsLeadership(actor) then true
    else if IsProfessional(actor) then Rank(assignee) <= Rank(TeamLeader)
    else if actor.TeamLeader? then IsExecutor(assignee) || assignee.JuniorCA?
    else false
  }

  // --- statuses ---

  datatype Status =
    | Open | DocumentPending | DocumentReceived | InProgress | Blocked | OnHold
    | ReadyForTLVerify | TLRejected | TLVerified | ReadyForCAVerify | CARejected | CAVerified
    | ReadyForManagerClose | Delivered | Closed | Cancelled

  /** A status string, told apart as normalisation tells it apart, up to letter
      case and surrounding space: a practice code, a legacy task word, exactly
      empty, or anything else. */
  datatype StatusText = Code(status: Status) | Todo | Review | Completed | Empty | Unrecognised(text: string)

  function Normalize(text: StatusText): Status {
    match text
    case Code(status) => status
    case Todo => Open
    case Review => ReadyForTLVerify
    case Completed => Closed
    case Empty => Open
    case Unrecognised(_) => Open
  }

  predicate IsTerminal(status: Status) { status.Closed? || status.Cancelled? }

  /** The operational statuses a patch may set. */
  predicate IsFree(status: Status) {
    || status.Open? || status.DocumentPending? || status.DocumentReceived? || status.InProgress?
    || status.Blocked? || status.OnHold? || status.TLRejected? || status.CARejected?
  }

  /** The statuses a non-verify move may reach this one from. */
  function LegalSources(to: Status): set<Status> {
    match to
    case DocumentPending => {Open, DocumentReceived, InProgress}
    case DocumentReceived => {DocumentPending, InProgress}
    case InProgress => {Open, DocumentReceived, DocumentPending, Blocked, OnHold, TLRejected, CARejected}
    case Blocked => {InProgress, Open, DocumentPending}
    case OnHold => {InProgress, Open}
    case ReadyForTLVerify => {InProgress, DocumentReceived, TLRejected}
    case Cancelled => {Open, DocumentPending, InProgress, Blocked, OnHold}
    case _ => {}
  }

  predicate CanTransition(from: Status, to: Status) {
    from == to || from in LegalSources(to)
  }

  datatype Risk = Low | Medium | High

  function ApplyTLVerify(from: Status, pass: bool): Result<Status, Error> {
    if !from.ReadyForTLVerify? then Failure(Conflict)
    else Success(if pass then ReadyForCAVerify else TLRejected)
  }

  function ApplyCAVerify(from: Status, risk: Risk, delegatedClose: bool, pass: bool): Result<Status, Error> {
    if !from.ReadyForCAVerify? then Failure(Conflict)
    else if !pass then Success(CARejected)
    else if risk.Low? && delegatedClose then Success(Delivered)
    else if risk.Low? then Success(Delivered)
    else Success(ReadyForManagerClose)
  }

  function ApplyClose(from: Status): Result<Status, Error> {
    if from.ReadyForManagerClose? || from.Delivered? || from.CAVerified? then Success(Closed) else Failure(Conflict)
  }

  function ApplyReopen(from: Status): Result<Status, Error> {
    if from.Closed? then Success(Open) else Failure(Conflict)
  }

  // --- work items ---

  datatype WorkItem = WorkItem(
    id: string, title: string, description: string, priority: string, status: StatusText, due: Option<int>,
    assignedBy: string, assignedTo: string, assigneeId: string, ownerCA: string, tl: string,
    clientId: string, clientName: string, companyId: string, engagementId: string,
    workType: string, periodKey: string, fy: string, overlay: string, risk: Risk,
    delegatedClose: bool, partnerSignoff: bool, department: string, tags: seq<string>,
    estimatedHours: real, actualHours: real, completionPct: int, parentId: string,
    createdBy: string, updatedBy: string, deleted: bool)

  function Assignee(w: WorkItem): string {
    Text.FirstNonEmpty([w.assigneeId, w.assignedTo])
  }
}
