/** Intake approval: approvals read, decide and commit in separate steps; rejections
    are whole calls. */
module IntakeDesk {
  import opened Tables
  import opened Practice
  import Text

  datatype IntakeStatus = Waiting | Approved | Rejected

  datatype Intake = Intake(
    status: IntakeStatus, services: seq<string>, createdBy: string, approvedBy: string, rejectedBy: string,
    rejectRemarks: string, clientId: string, companyId: string, ownerCA: string, engagementId: string)

  datatype Engagement = Engagement(
    clientId: string, companyId: string, ownerCA: string, services: seq<string>, title: string, createdBy: string)

  /** What an approval commits: the engagement under its new id and the whole intake. */
  datatype Approval = Approval(intakeId: string, intake: Intake, engagementId: string, engagement: Engagement)

  datatype Desk = Desk(intakes: map<string, Intake>, engagements: map<string, Engagement>)

  predicate Blank(s: string) { Text.Trim(s) == "" }

  datatype Request = Request(clientId: string, companyId: string, ownerCA: string, title: string, services: seq<string>)

  /** The approval decided on the intake as read; engagementId is freshly generated. */
  function DecideApproval(d: Desk, actor: Actor, id: string, q: Request, engagementId: string)
    : Result<Approval, Error>
  {
    if !Has(actor, IntakeApprove) then Failure(Forbidden)
    else if id !in d.intakes then Failure(NotFound)
    else if !d.intakes[id].status.Waiting? then Failure(Conflict)
    else if Blank(q.clientId) then Failure(Validation)
    else if Blank(q.ownerCA) then Failure(Validation)
    else
      var cur := d.intakes[id];
      var services := if q.services == [] then cur.services else q.services;
      var title := if q.title == "" then "Engagement from intake " + id else q.title;
      Success(Approval(id,
        cur.(status := Approved, approvedBy := actor.id, clientId := q.clientId, companyId := q.companyId,
             ownerCA := q.ownerCA, engagementId := engagementId),
        engagementId, Engagement(q.clientId, q.companyId, q.ownerCA, services, title, actor.id)))
  }

  /** The atomic commit, guarded by the stored intake still waiting. */
  function CommitApproval(d: Desk, a: Approval): Result<Desk, Error> {
    if a.intakeId !in d.intakes then Failure(NotFound)
    else if !d.intakes[a.intakeId].status.Waiting? then Failure(Conflict)
    else Success(Desk(d.intakes[a.intakeId := a.intake.(createdBy := d.intakes[a.intakeId].createdBy)],
                      d.engagements[a.engagementId := a.engagement]))
  }

  function RejectIntake(d: Desk, actor: Actor, id: string, remarks: string): Result<Desk, Error> {
    if !Has(actor, IntakeReject) then Failure(Forbidden)
    else if Blank(remarks) then Failure(Validation)
    else if id !in d.intakes then Failure(NotFound)
    else if !d.intakes[id].status.Waiting? then Failure(Conflict)
    else Success(d.(intakes := d.intakes[id :=
           d.intakes[id].(status := Rejected, rejectedBy := actor.id, rejectRemarks := remarks)]))
  }

  /** Creating an intake stores it as waiting under the id it brings, or a generated
      one; an intake already stored under that id is overwritten. */
  function CreateIntake(d: Desk, actor: Actor, id: string, draft: Intake): Result<Desk, Error> {
    if !Has(actor, IntakeCreate) then Failure(Forbidden)
    else Success(d.(intakes := d.intakes[id := draft.(status := Waiting, createdBy := actor.id)]))
  }

  /** Creating an engagement overwrites one stored under the same id. */
  function CreateEngagement(d: Desk, actor: Actor, id: string, e: Engagement): Result<Desk, Error> {
    if !Has(actor, EngagementCreate) then Failure(Forbidden)
    else if Blank(e.clientId) then Failure(Validation)
    else Success(d.(engagements := d.engagements[id := e.(createdBy := actor.id)]))
  }

  // --- what a decision makes of intake and engagement ---

  /** An approval is accepted exactly with the permission, for an intake that waits, naming
      a client and an owner. */
  lemma ApprovalAccepted(d: Desk, actor: Actor, id: string, q: Request, engagementId: string)
    ensures DecideApproval(d, actor, id, q, engagementId).Success?
       <==> (&& Has(actor, IntakeApprove) && id in d.intakes && d.intakes[id].status.Waiting?
             && !Blank(q.clientId) && !Blank(q.ownerCA))
  {
  }

  /** What the whole approval stores: an engagement on the terms asked for, its services
      those of the request or else of the intake, and the intake approved by the actor on
      the same terms, all else of it as it was. Nothing else changes. */
  lemma ApprovalStores(d: Desk, actor: Actor, id: string, q: Request, engagementId: string)
    requires DecideApproval(d, actor, id, q, engagementId).Success?
    ensures id in d.intakes
    ensures var d' := CommitApproval(d, DecideApproval(d, actor, id, q, engagementId).value).value;
            && d'.intakes.Keys == d.intakes.Keys && d'.engagements.Keys == d.engagements.Keys + {engagementId}
            && (forall i :: i in d.intakes && i != id ==> d'.intakes[i] == d.intakes[i])
            && (forall e :: e in d.engagements && e != engagementId ==> d'.engagements[e] == d.engagements[e])
            && var was, now, e := d.intakes[id], d'.intakes[id], d'.engagements[engagementId];
               && now.status.Approved? && now.approvedBy == actor.id && now.engagementId == engagementId
               && now.clientId == q.clientId == e.clientId && now.companyId == q.companyId == e.companyId
               && now.ownerCA == q.ownerCA == e.ownerCA && e.createdBy == actor.id
               && (q.services != [] ==> e.services == q.services)
               && (q.services == [] ==> e.services == was.services)
               && (q.title != "" ==> e.title == q.title) && e.title != ""
               && now.(status := was.status, approvedBy := was.approvedBy, engagementId := was.engagementId,
                       clientId := was.clientId, companyId := was.companyId, ownerCA := was.ownerCA) == was
  {
  }

  /** A rejection is accepted exactly with the permission and remarks, for an intake that
      waits, and records who rejected it and why. */
  lemma RejectionStores(d: Desk, actor: Actor, id: string, remarks: string)
    ensures RejectIntake(d, actor, id, remarks).Success?
       <==> Has(actor, IntakeReject) && !Blank(remarks) && id in d.intakes && d.intakes[id].status.Waiting?
    ensures RejectIntake(d, actor, id, remarks).Success? ==>
              var d' := RejectIntake(d, actor, id, remarks).value;
              && d'.engagements == d.engagements && d'.intakes.Keys == d.intakes.Keys
              && (forall i :: i in d.intakes && i != id ==> d'.intakes[i] == d.intakes[i])
              && var was, now := d.intakes[id], d'.intakes[id];
                 && now.status.Rejected? && now.rejectedBy == actor.id && now.rejectRemarks == remarks
                 && now.(status := was.status, rejectedBy := was.rejectedBy, rejectRemarks := was.rejectRemarks) == was
  {
  }

  /** Creates record who created, and ask for a client where the engagement needs one. */
  lemma CreationStores(d: Desk, actor: Actor, id: string, draft: Intake, e: Engagement)
    ensures CreateIntake(d, actor, id, draft).Success? <==> Has(actor, IntakeCreate)
    ensures CreateIntake(d, actor, id, draft).Success? ==>
              var i := CreateIntake(d, actor, id, draft).value.intakes[id];
              i.status.Waiting? && i.createdBy == actor.id
              && i.(status := draft.status, createdBy := draft.createdBy) == draft
    ensures CreateEngagement(d, actor, id, e).Success? <==> Has(actor, EngagementCreate) && !Blank(e.clientId)
    ensures CreateEngagement(d, actor, id, e).Success? ==>
              var n := CreateEngagement(d, actor, id, e).value.engagements[id];
              n.createdBy == actor.id && n.(createdBy := e.createdBy) == e
  {
  }

  // --- the service over its stores ---

  class IntakeService {
    var intakes: map<string, Intake>
    var engagements: map<string, Engagement>

    function State(): Desk
      reads this
    {
      Desk(intakes, engagements)
    }

    constructor ()
      ensures State() == Desk(map[], map[])
    {
      intakes, engagements := map[], map[];
    }

    method ApproveIntakeAtomic(a: Approval) returns (r: Result<(), Error>)
      modifies this
      ensures var s := CommitApproval(old(State()), a);
              (r.Success? <==> s.Success?) && State() == (if s.Success? then s.value else old(State()))
              && (r.Failure? ==> r.error == s.error)
    {
      if a.intakeId !in intakes {
        return Failure(NotFound);
      }
      var cur := intakes[a.intakeId];
      if !cur.status.Waiting? {
        return Failure(Conflict);
      }
      engagements := engagements[a.engagementId := a.engagement];
      intakes := intakes[a.intakeId := a.intake.(createdBy := cur.createdBy)];
      return Success(());
    }

    /** The whole approval call with nothing in between. */
    method ApproveIntake(actor: Actor, id: string, q: Request, engagementId: string) returns (r: Result<Intake, Error>)
      modifies this
      ensures var d := DecideApproval(old(State()), actor, id, q, engagementId);
              (r.Success? <==> d.Success?)
              && State() == (if d.Success? then CommitApproval(old(State()), d.value).value else old(State()))
              && (r.Success? ==> r.value == intakes[id] && r.value.status.Approved?)
              && (r.Failure? ==> r.error == d.error)
    {
      if !Has(actor, IntakeApprove) {
        return Failure(Forbidden);
      }
      if id !in intakes {
        return Failure(NotFound);
      }
      var cur := intakes[id];
      if !cur.status.Waiting? {
        return Failure(Conflict);
      }
      if Blank(q.clientId) {
        return Failure(Validation);
      }
      if Blank(q.ownerCA) {
        return Failure(Validation);
      }
      var services := q.services;
      if |services| == 0 {
        services := cur.services;
      }
      var title := q.title;
      if title == "" {
        title := "Engagement from intake " + id;
      }
      var engagement := Engagement(q.clientId, q.companyId, q.ownerCA, services, title, actor.id);
      cur := cur.(status := Approved, approvedBy := actor.id, clientId := q.clientId, companyId := q.companyId,
                  ownerCA := q.ownerCA, engagementId := engagementId);
      var committed := ApproveIntakeAtomic(Approval(id, cur, engagementId, engagement));
      assert committed.Success?;
      return Success(intakes[id]);
    }

    method RejectIntakeCall(actor: Actor, id: string, remarks: string) returns (r: Result<Intake, Error>)
      modifies this
      ensures var s := RejectIntake(old(State()), actor, id, remarks);
              (r.Success? <==> s.Success?) && State() == (if s.Success? then s.value else old(State()))
    {
      if !Has(actor, IntakeReject) {
        return Failure(Forbidden);
      }
      if Blank(remarks) {
        return Failure(Validation);
      }
      if id !in intakes {
        return Failure(NotFound);
      }
      var cur := intakes[id];
      if !cur.status.Waiting? {
        return Failure(Conflict);
      }
      cur := cur.(status := Rejected, rejectedBy := actor.id, rejectRemarks := remarks);
      intakes := intakes[id := cur];
      return Success(cur);
    }

    method CreateIntakeCall(actor: Actor, id: string, draft: Intake) returns (r: Result<Intake, Error>)
      modifies this
      ensures var s := CreateIntake(old(State()), actor, id, draft);
              (r.Success? <==> s.Success?) && State() == (if s.Success? then s.value else old(State()))
              && (r.Success? ==> r.value == intakes[id]) && (r.Failure? ==> r.error == s.error)
    {
      if !Has(actor, IntakeCreate) {
        return Failure(Forbidden);
      }
      var stored := draft.(status := Waiting, createdBy := actor.id);
      intakes := intakes[id := stored];
      return Success(stored);
    }

    method CreateEngagementCall(actor: Actor, id: string, e: Engagement) returns (r: Result<Engagement, Error>)
      modifies this
      ensures var s := CreateEngagement(old(State()), actor, id, e);
              (r.Success? <==> s.Success?) && State() == (if s.Success? then s.value else old(State()))
              && (r.Success? ==> r.value == engagements[id]) && (r.Failure? ==> r.error == s.error)
    {
      if !Has(actor, EngagementCreate) {
        return Failure(Forbidden);
      }
      if Blank(e.clientId) {
        return Failure(Validation);
      }
      var stored := e.(createdBy := actor.id);
      engagements := engagements[id := stored];
      return Success(stored);
    }
  }

  // --- the step machine ---

  /** creates and approvals list, as the audit log does, the intakes created and the
      intakes whose approval committed. */
  datatype World = World(desk: Desk, calls: map<nat, Approval>, creates: seq<string>, approvals: seq<string>)

  datatype Step =
    | NewIntake(actor: Actor, id: string, draft: Intake)
    | NewEngagement(actor: Actor, id: string, engagement: Engagement)
    | Begin(call: nat, actor: Actor, id: string, request: Request, engagementId: string)
    | Commit(call: nat)
    | Reject(actor: Actor, id: string, remarks: string)

  /** A generated id is neither stored nor promised to an approval in flight. */
  predicate FreshEngagement(w: World, id: string) {
    id !in w.desk.engagements && forall c | c in w.calls :: w.calls[c].engagementId != id
  }

  /** One step. Creates may bring any id; only the engagement id of an approval is
      always generated. */
  function Next(w: World, step: Step): World {
    match step
    case NewIntake(actor, id, draft) =>
      var r := CreateIntake(w.desk, actor, id, draft);
      if r.Failure? then w else w.(desk := r.value, creates := w.creates + [id])
    case NewEngagement(actor, id, engagement) =>
      var r := CreateEngagement(w.desk, actor, id, engagement);
      if r.Failure? then w else w.(desk := r.value)
    case Begin(call, actor, id, request, engagementId) =>
      var d := DecideApproval(w.desk, actor, id, request, engagementId);
      if call in w.calls || !FreshEngagement(w, engagementId) || d.Failure? then w
      else w.(calls := w.calls[call := d.value])
    case Commit(call) =>
      if call !in w.calls then w
      else
        var r := CommitApproval(w.desk, w.calls[call]);
        if r.Failure? then w.(calls := w.calls - {call})
        else w.(desk := r.value, calls := w.calls - {call}, approvals := w.approvals + [w.calls[call].intakeId])
    case Reject(actor, id, remarks) =>
      var r := RejectIntake(w.desk, actor, id, remarks);
      if r.Failure? then w else w.(desk := r.value)
  }

  function RunFrom(w: World, steps: seq<Step>): World
    decreases |steps|
  {
    if steps == [] then w else RunFrom(Next(w, steps[0]), steps[1..])
  }

  const EmptyWorld := World(Desk(map[], map[]), map[], [], [])

  function Run(steps: seq<Step>): World {
    RunFrom(EmptyWorld, steps)
  }

  /** Only a create sets who created an intake, whatever an approval in flight had read. */
  lemma CreatorKept(w: World, step: Step, i: string)
    requires i in w.desk.intakes && !(step.NewIntake? && step.id == i)
    ensures i in Next(w, step).desk.intakes
    ensures Next(w, step).desk.intakes[i].createdBy == w.desk.intakes[i].createdBy
  {
  }

  // --- what every interleaving keeps ---

  /** Same client, company and owner. */
  predicate SameTerms(e: Engagement, i: Intake) {
    e.clientId == i.clientId && e.companyId == i.companyId && e.ownerCA == i.ownerCA
  }

  /** The intake names a stored engagement with its own client, company and owner. */
  predicate Names(d: Desk, i: Intake) {
    i.engagementId in d.engagements && SameTerms(d.engagements[i.engagementId], i)
  }

  predicate IsApproved(d: Desk, i: string) {
    i in d.intakes && d.intakes[i].status.Approved?
  }

  /** An approval in flight is of one engagement on its intake's own terms, promised
      to nobody else. */
  ghost predicate SoundCalls(w: World) {
    && (forall c :: c in w.calls ==>
          && w.calls[c].intake.status.Approved? && w.calls[c].intake.engagementId == w.calls[c].engagementId
          && SameTerms(w.calls[c].engagement, w.calls[c].intake))
    && (forall c, d :: c in w.calls && d in w.calls && c != d ==> w.calls[c].engagementId != w.calls[d].engagementId)
  }

  /** Approved intakes name stored engagements, each its own and none promised. */
  ghost predicate Exclusive(w: World) {
    && (forall i :: IsApproved(w.desk, i) ==> w.desk.intakes[i].engagementId in w.desk.engagements)
    && (forall i, c :: IsApproved(w.desk, i) && c in w.calls ==>
          w.desk.intakes[i].engagementId != w.calls[c].engagementId)
    && (forall i, j :: IsApproved(w.desk, i) && IsApproved(w.desk, j) && i != j ==>
          w.desk.intakes[i].engagementId != w.desk.intakes[j].engagementId)
  }

  /** How often an intake was created, and how often its approval committed. */
  function Creations(w: World, i: string): nat { multiset(w.creates)[i] }

  function Approvals(w: World, i: string): nat { multiset(w.approvals)[i] }

  /** Approvals never outnumber creations, and an intake not approved is one behind. */
  ghost predicate Counted(w: World) {
    forall i :: CountedAt(w, i)
  }

  predicate CountedAt(w: World, i: string) {
    && (i in w.desk.intakes <==> Creations(w, i) > 0)
    && (IsApproved(w.desk, i) ==> Approvals(w, i) > 0)
    && Approvals(w, i) + (if i in w.desk.intakes && !IsApproved(w.desk, i) then 1 else 0) <= Creations(w, i)
  }

  lemma StepSoundCalls(w: World, step: Step)
    requires SoundCalls(w)
    ensures SoundCalls(Next(w, step))
  {
  }

  lemma CommitExclusive(w: World, call: nat)
    requires SoundCalls(w) && Exclusive(w) && call in w.calls && CommitApproval(w.desk, w.calls[call]).Success?
    ensures Exclusive(Next(w, Commit(call)))
  {
    var w' := Next(w, Commit(call));
    var a := w.calls[call];
    forall i | IsApproved(w'.desk, i) && i != a.intakeId ensures IsApproved(w.desk, i) {
    }
  }

  lemma StepExclusive(w: World, step: Step)
    requires SoundCalls(w) && Exclusive(w)
    ensures Exclusive(Next(w, step))
  {
    if step.Commit? && step.call in w.calls && CommitApproval(w.desk, w.calls[step.call]).Success? {
      CommitExclusive(w, step.call);
    } else {
      var w' := Next(w, step);
      forall i | IsApproved(w'.desk, i) ensures IsApproved(w.desk, i) && w'.desk.intakes[i] == w.desk.intakes[i] {
      }
    }
  }

  lemma CountAppend(s: seq<string>, x: string, i: string)
    ensures multiset(s + [x])[i] == multiset(s)[i] + (if x == i then 1 else 0)
  {
    assert multiset(s + [x]) == multiset(s) + multiset{x};
  }

  lemma StepCounted(w: World, step: Step)
    requires SoundCalls(w) && Counted(w)
    ensures Counted(Next(w, step))
  {
    forall i ensures CountedAt(Next(w, step), i) {
      assert CountedAt(w, i);
      if step.NewIntake? {
        CreateCounted(w, step, i);
      } else if step.Commit? {
        CommitCounted(w, step, i);
      } else {
        OthersCounted(w, step, i);
      }
    }
  }

  lemma CreateCounted(w: World, step: Step, i: string)
    requires CountedAt(w, i) && step.NewIntake?
    ensures CountedAt(Next(w, step), i)
  {
    CountAppend(w.creates, step.id, i);
  }

  lemma CommitCounted(w: World, step: Step, i: string)
    requires SoundCalls(w) && CountedAt(w, i) && step.Commit?
    ensures CountedAt(Next(w, step), i)
  {
    if step.call in w.calls {
      CountAppend(w.approvals, w.calls[step.call].intakeId, i);
    }
  }

  lemma OthersCounted(w: World, step: Step, i: string)
    requires CountedAt(w, i) && !step.NewIntake? && !step.Commit?
    ensures CountedAt(Next(w, step), i)
  {
  }

  lemma {:induction false} RunKeeps(w: World, steps: seq<Step>)
    requires SoundCalls(w) && Exclusive(w) && Counted(w)
    ensures SoundCalls(RunFrom(w, steps)) && Exclusive(RunFrom(w, steps)) && Counted(RunFrom(w, steps))
    decreases |steps|
  {
    if steps != [] {
      StepSoundCalls(w, steps[0]);
      StepExclusive(w, steps[0]);
      StepCounted(w, steps[0]);
      RunKeeps(Next(w, steps[0]), steps[1..]);
    }
  }

  // --- one approval for each creation ---

  /** In every interleaving, whatever ids the creates bring, an intake is approved at
      most once for each time it was created, and one time less while it is not
      approved; where its id was used once, at most one approval commits, and it is
      approved exactly when one did. */
  lemma OneApprovalPerCreation(steps: seq<Step>, i: string)
    ensures var w := Run(steps);
            && Approvals(w, i) + (if i in w.desk.intakes && !IsApproved(w.desk, i) then 1 else 0) <= Creations(w, i)
            && (Creations(w, i) <= 1 ==> Approvals(w, i) <= 1 && (IsApproved(w.desk, i) <==> Approvals(w, i) == 1))
  {
    RunKeeps(EmptyWorld, steps);
    assert CountedAt(Run(steps), i);
  }

  /** A create that is let through under the intake's id. */
  predicate Recreates(step: Step, i: string) {
    step.NewIntake? && step.id == i && Has(step.actor, IntakeCreate)
  }

  /** A step changes a decided intake exactly when it is a create under its id. */
  lemma DecisionKeptExactlyWhen(w: World, step: Step, i: string)
    requires i in w.desk.intakes && !w.desk.intakes[i].status.Waiting?
    ensures i in Next(w, step).desk.intakes
    ensures Next(w, step).desk.intakes[i] == w.desk.intakes[i] <==> !Recreates(step, i)
  {
  }

  /** Once approved or rejected, an intake never changes again, unless created anew. */
  lemma {:induction false} DecisionsAreFinal(w: World, steps: seq<Step>, i: string)
    requires i in w.desk.intakes && !w.desk.intakes[i].status.Waiting?
    requires forall k :: 0 <= k < |steps| ==> !Recreates(steps[k], i)
    ensures i in RunFrom(w, steps).desk.intakes && RunFrom(w, steps).desk.intakes[i] == w.desk.intakes[i]
    decreases |steps|
  {
    if steps != [] {
      DecisionKeptExactlyWhen(w, steps[0], i);
      DecisionsAreFinal(Next(w, steps[0]), steps[1..], i);
    }
  }

  /** Of two approvals of one intake in flight, the second to commit is refused. */
  lemma SecondApprovalConflicts(w: World, first: nat, second: nat)
    requires SoundCalls(w) && first in w.calls && second in w.calls && first != second
    requires w.calls[first].intakeId == w.calls[second].intakeId
    requires CommitApproval(w.desk, w.calls[first]).Success?
    ensures var w' := Next(w, Commit(first));
            CommitApproval(w'.desk, w.calls[second]) == Failure(Conflict)
            && Next(w', Commit(second)).desk == w'.desk && Next(w', Commit(second)).approvals == w'.approvals
  {
  }

  // --- what approved intakes name ---

  ghost predicate AllNamed(d: Desk) {
    forall i :: IsApproved(d, i) ==> Names(d, d.intakes[i])
  }

  /** An engagement create that replaces the engagement an approved intake names by one
      with another client, company or owner. */
  ghost predicate ReplacesTerms(d: Desk, step: Step) {
    && step.NewEngagement? && CreateEngagement(d, step.actor, step.id, step.engagement).Success?
    && exists i :: IsApproved(d, i) && d.intakes[i].engagementId == step.id && !SameTerms(step.engagement, d.intakes[i])
  }

  lemma CommitNamed(w: World, call: nat)
    requires SoundCalls(w) && Exclusive(w) && AllNamed(w.desk)
    requires call in w.calls && CommitApproval(w.desk, w.calls[call]).Success?
    ensures AllNamed(Next(w, Commit(call)).desk)
  {
    var w' := Next(w, Commit(call));
    forall i | IsApproved(w'.desk, i) ensures Names(w'.desk, w'.desk.intakes[i]) {
      if i != w.calls[call].intakeId {
        assert IsApproved(w.desk, i);
      }
    }
  }

  /** Engagements stay as named exactly when the create does not replace one. */
  lemma EngagementCreateExactly(w: World, step: Step)
    requires AllNamed(w.desk) && step.NewEngagement?
    ensures AllNamed(Next(w, step).desk) <==> !ReplacesTerms(w.desk, step)
  {
    var d, d' := w.desk, Next(w, step).desk;
    if CreateEngagement(d, step.actor, step.id, step.engagement).Success? {
      forall i | IsApproved(d, i)
        ensures IsApproved(d', i)
        ensures Names(d', d'.intakes[i]) <==>
                !(d.intakes[i].engagementId == step.id && !SameTerms(step.engagement, d.intakes[i]))
      {
      }
      forall i | IsApproved(d', i) ensures IsApproved(d, i) {
      }
    }
  }

  /** A step keeps every approved intake naming its own engagement exactly when it is
      not a create that replaces a named one on other terms. */
  lemma NamedExactlyWhen(w: World, step: Step)
    requires SoundCalls(w) && Exclusive(w) && AllNamed(w.desk)
    ensures AllNamed(Next(w, step).desk) <==> !ReplacesTerms(w.desk, step)
  {
    if step.NewEngagement? {
      EngagementCreateExactly(w, step);
    } else if step.Commit? && step.call in w.calls && CommitApproval(w.desk, w.calls[step.call]).Success? {
      CommitNamed(w, step.call);
    } else {
      var w' := Next(w, step);
      forall i | IsApproved(w'.desk, i) ensures Names(w'.desk, w'.desk.intakes[i]) {
        assert IsApproved(w.desk, i);
      }
    }
  }

  ghost predicate NamedThroughout(w: World, steps: seq<Step>)
    decreases |steps|
  {
    AllNamed(w.desk) && (steps == [] || NamedThroughout(Next(w, steps[0]), steps[1..]))
  }

  ghost predicate ReplacesNothing(w: World, steps: seq<Step>)
    decreases |steps|
  {
    steps == [] || (!ReplacesTerms(w.desk, steps[0]) && ReplacesNothing(Next(w, steps[0]), steps[1..]))
  }

  lemma {:induction false} RunNamed(w: World, steps: seq<Step>)
    requires SoundCalls(w) && Exclusive(w) && AllNamed(w.desk)
    ensures NamedThroughout(w, steps) <==> ReplacesNothing(w, steps)
    ensures ReplacesNothing(w, steps) ==> AllNamed(RunFrom(w, steps).desk)
    decreases |steps|
  {
    if steps != [] {
      NamedExactlyWhen(w, steps[0]);
      StepSoundCalls(w, steps[0]);
      StepExclusive(w, steps[0]);
      if AllNamed(Next(w, steps[0]).desk) {
        RunNamed(Next(w, steps[0]), steps[1..]);
      }
    }
  }

  /** In every interleaving approved intakes name stored engagements, no two the same
      one; and all along each names one of its own client, company and owner exactly
      when no engagement create replaces a named engagement on other terms. */
  lemma ApprovedNamesItsEngagement(steps: seq<Step>, i: string, j: string)
    requires IsApproved(Run(steps).desk, i)
    ensures Run(steps).desk.intakes[i].engagementId in Run(steps).desk.engagements
    ensures IsApproved(Run(steps).desk, j) && i != j
            ==> Run(steps).desk.intakes[i].engagementId != Run(steps).desk.intakes[j].engagementId
    ensures NamedThroughout(EmptyWorld, steps) <==> ReplacesNothing(EmptyWorld, steps)
    ensures ReplacesNothing(EmptyWorld, steps) ==> Names(Run(steps).desk, Run(steps).desk.intakes[i])
  {
    RunKeeps(EmptyWorld, steps);
    RunNamed(EmptyWorld, steps);
  }

  /** Creates under ids not stored replace nothing: generated ids are of this kind. */
  lemma UnusedIdReplacesNothing(w: World, step: Step)
    requires Exclusive(w) && (step.NewEngagement? ==> step.id !in w.desk.engagements)
    ensures !ReplacesTerms(w.desk, step)
  {
  }

  // --- runs in which a create overwrites ---

  function Clerk(): Actor {
    Actor("m", Manager, {IntakeCreate, IntakeApprove, EngagementCreate}, [], "DEFAULT")
  }

  function NewForm(): Intake {
    Intake(Waiting, [], "", "", "", "", "", "", "", "")
  }

  function Accepting(): Request {
    Request("c", "", "o", "t", [])
  }

  lemma NotBlank(s: string)
    requires |s| == 1 && !Text.IsSpace(s[0])
    ensures !Blank(s)
  {
  }

  /** One intake created and approved under a fresh engagement id. */
  lemma ApprovedOnce(w: World, e: string)
    requires w.calls == map[] && e !in w.desk.engagements
    ensures var steps := [NewIntake(Clerk(), "i", NewForm()), Begin(0, Clerk(), "i", Accepting(), e), Commit(0)];
            var w' := RunFrom(w, steps);
            && w'.calls == map[] && w'.approvals == w.approvals + ["i"]
            && IsApproved(w'.desk, "i") && w'.desk.intakes["i"].engagementId == e
            && w'.desk.intakes["i"].clientId == "c"
            && w'.desk.engagements.Keys == w.desk.engagements.Keys + {e}
  {
    NotBlank("c");
    NotBlank("o");
    var w1 := Next(w, NewIntake(Clerk(), "i", NewForm()));
    var w2 := Next(w1, Begin(0, Clerk(), "i", Accepting(), e));
    var w3 := Next(w2, Commit(0));
    var steps := [NewIntake(Clerk(), "i", NewForm()), Begin(0, Clerk(), "i", Accepting(), e), Commit(0)];
    assert steps[1..] == [Begin(0, Clerk(), "i", Accepting(), e), Commit(0)] && steps[1..][1..] == [Commit(0)];
    assert RunFrom(w2, [Commit(0)]) == w3 by { assert [Commit(0)][1..] == []; }
    assert RunFrom(w1, steps[1..]) == w3;
    assert w2.calls - {0} == map[];
  }

  lemma {:induction false} RunConcat(w: World, a: seq<Step>, b: seq<Step>)
    ensures RunFrom(w, a + b) == RunFrom(RunFrom(w, a), b)
    decreases |a|
  {
    if a == [] {
      assert a + b == b;
    } else {
      assert (a + b)[1..] == a[1..] + b;
      RunConcat(Next(w, a[0]), a[1..], b);
    }
  }

  /** Created again under its own id, an approved intake is approved a second time. */
  lemma RecreatedIsApprovedTwice()
    ensures exists steps :: Run(steps).approvals == ["i", "i"]
  {
    var a := [NewIntake(Clerk(), "i", NewForm()), Begin(0, Clerk(), "i", Accepting(), "e"), Commit(0)];
    var b := [NewIntake(Clerk(), "i", NewForm()), Begin(0, Clerk(), "i", Accepting(), "f"), Commit(0)];
    ApprovedOnce(EmptyWorld, "e");
    assert "f"[0] != "e"[0];
    ApprovedOnce(RunFrom(EmptyWorld, a), "f");
    RunConcat(EmptyWorld, a, b);
    assert Run(a + b).approvals == ["i", "i"];
  }

  /** An engagement created under the id an approved intake names takes its place. */
  lemma ReplacedEngagementIsMisnamed()
    ensures exists steps :: IsApproved(Run(steps).desk, "i") && !Names(Run(steps).desk, Run(steps).desk.intakes["i"])
  {
    var a := [NewIntake(Clerk(), "i", NewForm()), Begin(0, Clerk(), "i", Accepting(), "e"), Commit(0)];
    var other := NewEngagement(Clerk(), "e", Engagement("d", "", "o", [], "t", ""));
    ApprovedOnce(EmptyWorld, "e");
    NotBlank("d");
    RunConcat(EmptyWorld, a, [other]);
    var w := RunFrom(EmptyWorld, a);
    assert RunFrom(w, [other]) == Next(w, other) by { assert [other][1..] == []; }
    assert "d"[0] != "c"[0];
    assert IsApproved(Run(a + [other]).desk, "i") && !Names(Run(a + [other]).desk, Run(a + [other]).desk.intakes["i"]);
  }
}
