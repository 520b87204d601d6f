/** Who may commit what: every entry of every history traced back to the call that made
    it, what that call asked, on what, and by whose authority. */
module Authority {
  import opened Tables
  import opened Practice
  import opened Gates
  import opened GateSafety
  import opened Segregation
  import Visibility
  import Text

  /** What a committing call asked, who asked it, and the item as the call read it. */
  datatype Deed = Deed(actor: Actor, id: string, gate: Gate, item: WorkItem)

  /** The call a step finishes, if it is one that commits. */
  function DeedOf(w: World, step: Step): Option<Deed> {
    if step.Commit? && step.call in w.calls && w.calls[step.call].Decided? then
      var f := w.calls[step.call];
      Some(Deed(f.actor, f.write.entry.workId, f.gate, f.item))
    else if step.Whole? && step.id in w.board.work then
      Some(Deed(step.actor, step.id, step.gate, w.board.work[step.id]))
    else None
  }

  // --- what each gate demands and what it records ---

  /** A verdict of a verifier: never a manager's, and a rejection gives its reasons. */
  predicate Verdict(d: Deed, e: Entry, decision: Decision, remarks: string) {
    && !d.actor.role.Manager? && e.remarks == remarks
    && (decision.Pass? || (decision.Fail? && !Blank(remarks)))
  }

  predicate TLWarrant(d: Deed, e: Entry, decision: Decision, remarks: string) {
    && Verdict(d, e, decision, remarks) && Has(d.actor, VerifyTL) && e.action.ActVerifyTL?
    && e.from.ReadyForTLVerify?
    && (decision.Pass? ==> e.to.ReadyForCAVerify?) && (decision.Fail? ==> e.to.TLRejected?)
  }

  /** Low risk is delivered at once, the rest queues for closing; high risk is not for
      juniors. */
  predicate CAWarrant(d: Deed, e: Entry, decision: Decision, remarks: string) {
    && Verdict(d, e, decision, remarks) && Has(d.actor, VerifyCA) && e.action.ActVerifyCA?
    && e.from.ReadyForCAVerify?
    && (decision.Fail? ==> e.to.CARejected?)
    && (decision.Pass? && d.item.risk.Low? ==> e.to.Delivered?)
    && (decision.Pass? && !d.item.risk.Low? ==> e.to.ReadyForManagerClose?)
    && !(d.actor.role.JuniorCA? && d.item.risk.High?)
  }

  /** Who may close an item: a partner where sign-off is required, else whoever holds one
      of the two permissions to close. */
  predicate MayClose(actor: Actor, item: WorkItem) {
    if item.partnerSignoff then actor.role.Partner? else Has(actor, CloseManager) || Has(actor, ClosePartner)
  }

  predicate CloseWarrant(d: Deed, e: Entry, remarks: string) {
    && MayClose(d.actor, d.item) && e.action.ActClose? && e.remarks == remarks && e.to.Closed?
    && (e.from.ReadyForManagerClose? || e.from.Delivered? || e.from.CAVerified?)
  }

  predicate ReopenWarrant(d: Deed, e: Entry, reason: string) {
    && Has(d.actor, Reopen) && !Blank(reason)
    && e.action.ActReopen? && e.remarks == reason && e.from.Closed? && e.to.Open?
  }

  /** Whose item it is to hand in for review. */
  predicate Answers(actor: Actor, item: WorkItem) {
    actor.id in {Assignee(item), item.tl, item.ownerCA} || IsLeadership(actor.role)
  }

  predicate MoveWarrant(d: Deed, e: Entry, to: StatusText, remarks: string) {
    && Has(d.actor, Permission.Transition) && Visibility.CanView(d.actor, d.item)
    && e.action.ActTransition? && e.remarks == remarks && e.to == Normalize(to)
    && !IsTerminal(e.from) && CanTransition(e.from, e.to)
    && (e.to.ReadyForTLVerify? ==> Answers(d.actor, d.item))
    && (e.to.Cancelled? ==> IsLeadership(d.actor.role) || IsProfessional(d.actor.role))
  }

  /** The entry is what the deed asked for, by its own actor and from the status it read,
      and the actor was entitled to it. */
  predicate Warranted(d: Deed, e: Entry) {
    && e.workId == d.id && e.actorId == d.actor.id && e.from == Normalize(d.item.status)
    && match d.gate
       case Move(to, remarks, _) => MoveWarrant(d, e, to, remarks)
       case TLVerify(decision, remarks) => TLWarrant(d, e, decision, remarks)
       case CAVerify(decision, remarks) => CAWarrant(d, e, decision, remarks)
       case Close(remarks) => CloseWarrant(d, e, remarks)
       case ReopenGate(reason) => ReopenWarrant(d, e, reason)
  }

  /** What the gate leaves of the item: as read, but for the status, who touched it, the
      overlay a move may set, and the percentage a close completes. */
  predicate LeavesItem(d: Deed, e: Entry, w: WorkItem) {
    w == d.item.(status := Code(e.to), updatedBy := d.actor.id,
                 overlay := if d.gate.Move? && d.gate.overlay != "" then Text.Upper(Text.Trim(d.gate.overlay))
                            else d.item.overlay,
                 completionPct := if d.gate.Close? then 100 else d.item.completionPct)
  }

  lemma MoveDecided(b: Board, actor: Actor, id: string, to: StatusText, remarks: string, overlay: string)
    requires DecideMove(b, actor, id, Normalize(to), remarks, overlay).Success?
    ensures id in b.work
    ensures var g, d := DecideMove(b, actor, id, Normalize(to), remarks, overlay).value,
                        Deed(actor, id, Move(to, remarks, overlay), b.work[id]);
            Warranted(d, g.entry) && LeavesItem(d, g.entry, g.work)
  {
    MoveWrites(b, actor, id, Normalize(to), remarks, overlay);
    MoveIsLegal(Normalize(b.work[id].status), Normalize(to));
  }

  lemma TLDecided(b: Board, actor: Actor, id: string, decision: Decision, remarks: string)
    requires DecideTL(b, actor, id, decision, remarks).Success?
    ensures id in b.work
    ensures var g, d := DecideTL(b, actor, id, decision, remarks).value,
                        Deed(actor, id, TLVerify(decision, remarks), b.work[id]);
            Warranted(d, g.entry) && LeavesItem(d, g.entry, g.work)
  {
  }

  lemma CADecided(b: Board, actor: Actor, id: string, decision: Decision, remarks: string)
    requires DecideCA(b, actor, id, decision, remarks).Success?
    ensures id in b.work
    ensures var g, d := DecideCA(b, actor, id, decision, remarks).value,
                        Deed(actor, id, CAVerify(decision, remarks), b.work[id]);
            Warranted(d, g.entry) && LeavesItem(d, g.entry, g.work)
  {
  }

  lemma CloseDecided(b: Board, actor: Actor, id: string, remarks: string)
    requires DecideClose(b, actor, id, remarks).Success?
    ensures id in b.work
    ensures var g, d := DecideClose(b, actor, id, remarks).value, Deed(actor, id, Close(remarks), b.work[id]);
            Warranted(d, g.entry) && LeavesItem(d, g.entry, g.work)
  {
  }

  lemma ReopenDecided(b: Board, actor: Actor, id: string, reason: string)
    requires DecideReopen(b, actor, id, reason).Success?
    ensures id in b.work
    ensures var g, d := DecideReopen(b, actor, id, reason).value, Deed(actor, id, ReopenGate(reason), b.work[id]);
            Warranted(d, g.entry) && LeavesItem(d, g.entry, g.work)
  {
  }

  lemma DecidedIsWarranted(b: Board, actor: Actor, id: string, gate: Gate)
    requires Decide(b, actor, id, gate).Success?
    ensures id in b.work
    ensures var g, d := Decide(b, actor, id, gate).value, Deed(actor, id, gate, b.work[id]);
            Warranted(d, g.entry) && LeavesItem(d, g.entry, g.work)
  {
    match gate
    case Move(to, remarks, overlay) => MoveDecided(b, actor, id, to, remarks, overlay);
    case TLVerify(decision, remarks) => TLDecided(b, actor, id, decision, remarks);
    case CAVerify(decision, remarks) => CADecided(b, actor, id, decision, remarks);
    case Close(remarks) => CloseDecided(b, actor, id, remarks);
    case ReopenGate(reason) => ReopenDecided(b, actor, id, reason);
  }

  // --- over every run ---

  ghost predicate CallWarranted(f: InFlight) {
    f.Decided? ==>
      var d := Deed(f.actor, f.write.entry.workId, f.gate, f.item);
      Warranted(d, f.write.entry) && LeavesItem(d, f.write.entry, f.write.work)
  }

  /** Every decided call in flight is warranted. */
  ghost predicate CallsWarranted(w: World) {
    forall c :: c in w.calls ==> CallWarranted(w.calls[c])
  }

  lemma CheckWarranted(w: World, c: nat)
    requires c in w.calls && w.calls[c].Reading? && c in Next(w, Check(c)).calls
    ensures CallWarranted(Next(w, Check(c)).calls[c])
  {
    var f := w.calls[c];
    DecidedIsWarranted(AsRead(w.board, f), f.actor, f.id, f.gate);
  }

  lemma StepKeepsWarranted(w: World, step: Step)
    requires CallsWarranted(w)
    ensures CallsWarranted(Next(w, step))
  {
    forall c | c in Next(w, step).calls ensures CallWarranted(Next(w, step).calls[c]) {
      NextCalls(w, step, c);
      if c !in w.calls {
        assert Next(w, step).calls[c].Reading?;
      } else if step.Check? && step.call == c && w.calls[c].Reading? {
        CheckWarranted(w, c);
      }
    }
  }

  /** The step appended this entry, and by right. */
  ghost predicate Accounted(w: World, step: Step, e: Entry) {
    && DeedOf(w, step).Some? && Warranted(DeedOf(w, step).value, e)
    && Next(w, step).board.history == w.board.history + [e]
    && e.workId in Next(w, step).board.work
    && Stored(w, step, e, Next(w, step).board.work[e.workId])
  }

  /** What the step stored: the item as the deed leaves it, with the creator on record and
      the assignee in both fields. */
  predicate Stored(w: World, step: Step, e: Entry, stored: WorkItem)
    requires DeedOf(w, step).Some?
  {
    && e.workId in w.board.work
    && LeavesItem(DeedOf(w, step).value, e,
                  stored.(createdBy := DeedOf(w, step).value.item.createdBy,
                          assigneeId := DeedOf(w, step).value.item.assigneeId))
    && stored.createdBy == w.board.work[e.workId].createdBy
    && stored.assigneeId == (if DeedOf(w, step).value.item.assigneeId == "" then stored.assignedTo
                             else DeedOf(w, step).value.item.assigneeId)
  }

  lemma ApplyAccounted(w: World, step: Step, g: GateWrite)
    requires DeedOf(w, step).Some? && Apply(w.board, g).Success?
    requires Next(w, step).board == Apply(w.board, g).value
    requires Warranted(DeedOf(w, step).value, g.entry) && LeavesItem(DeedOf(w, step).value, g.entry, g.work)
    ensures Accounted(w, step, g.entry)
  {
  }

  /** A step that lengthens the history does so by one entry, and by right. */
  lemma StepAccounted(w: World, step: Step)
    requires AllPending(w) && CallsWarranted(w)
    ensures Next(w, step).board.history == w.board.history
            || exists e :: Accounted(w, step, e)
  {
    var eff := StepEffect(w, step);
    assert PictureOf(Next(w, step)).history == After(PictureOf(w), eff).history;
    if eff.Committed? {
      var g := Committing(w, step).value;
      if step.Whole? {
        DecidedIsWarranted(w.board, step.actor, step.id, step.gate);
      } else {
        assert CallWarranted(w.calls[step.call]);
      }
      GateEffect(w, step);
      Applied(w, step, g);
      ApplyAccounted(w, step, g);
    }
  }

  lemma Applied(w: World, step: Step, g: GateWrite)
    requires (step.Commit? || step.Whole?) && Committing(w, step) == Some(g)
    requires Next(w, step).board.history != w.board.history
    ensures Apply(w.board, g).Success? && Next(w, step).board == Apply(w.board, g).value
  {
  }

  lemma {:induction false} RunFromWarranted(w: World, steps: seq<Step>)
    requires AllPending(w) && CallsWarranted(w)
    ensures AllPending(RunFrom(w, steps)) && CallsWarranted(RunFrom(w, steps))
    decreases |steps|
  {
    if steps != [] {
      PendingKept(w, steps[0]);
      StepKeepsWarranted(w, steps[0]);
      RunFromWarranted(Next(w, steps[0]), steps[1..]);
    }
  }

  /** The k-th entry was committed by the n-th step. */
  ghost predicate MadeBy(steps: seq<Step>, k: nat, n: nat)
    requires k < |Run(steps).board.history|
  {
    && n < |steps| && |Run(steps[..n]).board.history| == k
    && Accounted(Run(steps[..n]), steps[n], Run(steps).board.history[k])
  }

  /** In every interleaving every entry of the history was committed by some step, for a
      call that asked for it and whose actor was entitled to it. */
  lemma {:induction false} EveryEntryIsWarranted(steps: seq<Step>, k: nat)
    requires k < |Run(steps).board.history|
    ensures exists n: nat :: MadeBy(steps, k, n)
    decreases |steps|
  {
    var m := |steps| - 1;
    if m >= 0 {
      var before, step := steps[..m], steps[m];
      var w := Run(before);
      LastStep(steps);
      RunFromWarranted(EmptyWorld, before);
      StepAccounted(w, step);
      if k < |w.board.history| {
        EveryEntryIsWarranted(before, k);
        var n: nat :| MadeBy(before, k, n);
        assert steps[..n] == before[..n];
        assert Run(steps).board.history[k] == w.board.history[k];
        assert MadeBy(steps, k, n);
      } else {
        assert MadeBy(steps, k, m);
      }
    }
  }

  lemma LastStep(steps: seq<Step>)
    requires steps != []
    ensures Run(steps) == Next(Run(steps[..|steps| - 1]), steps[|steps| - 1])
  {
    var m := |steps| - 1;
    RunConcat(EmptyWorld, steps[..m], [steps[m]]);
    RunOne(Run(steps[..m]), steps[m]);
    assert steps[..m] + [steps[m]] == steps;
  }

  // --- what the passes on record were ---

  /** The deed a step finished. */
  function DeedAt(steps: seq<Step>, n: nat): Option<Deed>
    requires n < |steps|
  {
    DeedOf(Run(steps[..n]), steps[n])
  }

  /** In every interleaving, what stands in the history as a TL pass or a CA pass was
      decided as one: a call with the decision to pass, by someone who may verify and is no
      manager. Rejections stand there as rejections. */
  lemma PassesWereDecided(steps: seq<Step>, k: nat)
    requires k < |Run(steps).board.history|
    ensures exists n: nat :: MadeBy(steps, k, n) && DeedAt(steps, n).Some?
              && var e, d := Run(steps).board.history[k], DeedAt(steps, n).value;
                 && (IsTLPass(e, e.workId) <==> d.gate.TLVerify? && d.gate.decision.Pass?)
                 && (IsCAPass(e, e.workId) <==> d.gate.CAVerify? && d.gate.decision.Pass?)
                 && (d.gate.TLVerify? && d.gate.decision.Fail? <==> e.action.ActVerifyTL? && e.to.TLRejected?)
                 && (d.gate.CAVerify? && d.gate.decision.Fail? <==> e.action.ActVerifyCA? && e.to.CARejected?)
                 && (e.action.ActVerifyTL? ==> Has(d.actor, VerifyTL) && !d.actor.role.Manager?)
                 && (e.action.ActVerifyCA? ==> Has(d.actor, VerifyCA) && !d.actor.role.Manager?)
  {
    EveryEntryIsWarranted(steps, k);
    var n: nat :| MadeBy(steps, k, n);
    var e, d := Run(steps).board.history[k], DeedAt(steps, n).value;
    assert Warranted(d, e);
  }

  /** In every interleaving, whoever closed an item was entitled to: a partner where the
      item as read required sign-off. The item was then complete. */
  lemma ClosesWereEntitled(steps: seq<Step>, k: nat)
    requires k < |Run(steps).board.history| && Run(steps).board.history[k].action.ActClose?
    ensures exists n: nat :: MadeBy(steps, k, n) && DeedAt(steps, n).Some?
              && var d, e := DeedAt(steps, n).value, Run(steps).board.history[k];
                 && d.gate.Close? && MayClose(d.actor, d.item) && d.actor.id == e.actorId
                 && (d.item.partnerSignoff ==> d.actor.role.Partner?)
                 && Next(Run(steps[..n]), steps[n]).board.work[e.workId].completionPct == 100
  {
    EveryEntryIsWarranted(steps, k);
    var n: nat :| MadeBy(steps, k, n);
    assert Warranted(DeedAt(steps, n).value, Run(steps).board.history[k]);
  }

  /** A commit stores the item as its call read it: the guard is on the status alone, so
      whatever else was edited in between is put back. */
  lemma CommitForgetsEdits(steps: seq<Step>, call: nat)
    requires call in Run(steps).calls && Run(steps).calls[call].Decided?
    requires Apply(Run(steps).board, Run(steps).calls[call].write).Success?
    ensures var f, w' := Run(steps).calls[call], Next(Run(steps), Commit(call));
            var id := f.write.entry.workId;
            && id in w'.board.work
            && w'.board.work[id].(status := f.item.status, updatedBy := f.item.updatedBy, overlay := f.item.overlay,
                                  completionPct := f.item.completionPct, createdBy := f.item.createdBy,
                                  assigneeId := f.item.assigneeId) == f.item
  {
    RunFromWarranted(EmptyWorld, steps);
    CommitStores(Run(steps), call);
  }

  lemma CommitStores(w: World, call: nat)
    requires CallsWarranted(w) && call in w.calls && w.calls[call].Decided?
    requires Apply(w.board, w.calls[call].write).Success?
    ensures var f, w' := w.calls[call], Next(w, Commit(call));
            var id := f.write.entry.workId;
            && id in w'.board.work
            && w'.board.work[id].(status := f.item.status, updatedBy := f.item.updatedBy, overlay := f.item.overlay,
                                  completionPct := f.item.completionPct, createdBy := f.item.createdBy,
                                  assigneeId := f.item.assigneeId) == f.item
  {
    assert CallWarranted(w.calls[call]);
  }

  /** A commit ends its call, whether it goes through or not, and no other. */
  lemma CommitEndsCall(w: World, call: nat, other: nat)
    requires call in w.calls && w.calls[call].Decided? && other != call
    ensures call !in Next(w, Commit(call)).calls
    ensures other in Next(w, Commit(call)).calls <==> other in w.calls
    ensures other in w.calls ==> Next(w, Commit(call)).calls[other] == w.calls[other]
  {
  }

  // --- exactly which calls are accepted ---

  predicate Present(b: Board, id: string) {
    id in b.work && !b.work[id].deleted && b.work[id].status.Code?
  }

  /** A TL verification goes through exactly for a verdict, by someone who may verify and
      is no manager, on an item under review. */
  lemma TLVerifyAccepted(b: Board, actor: Actor, id: string, decision: Decision, remarks: string)
    requires Present(b, id)
    ensures CallGate(b, actor, id, TLVerify(decision, remarks)).Success?
       <==> (&& Has(actor, VerifyTL) && !actor.role.Manager? && !decision.Unknown?
             && (decision.Fail? ==> !Blank(remarks)) && b.work[id].status == Code(ReadyForTLVerify))
  {
  }

  /** A CA verification likewise, save for the latest TL passer and juniors on high risk. */
  lemma CAVerifyAccepted(b: Board, actor: Actor, id: string, decision: Decision, remarks: string)
    requires Present(b, id)
    ensures CallGate(b, actor, id, CAVerify(decision, remarks)).Success?
       <==> (&& Has(actor, VerifyCA) && !actor.role.Manager? && !decision.Unknown?
             && (decision.Fail? ==> !Blank(remarks)) && b.work[id].status == Code(ReadyForCAVerify)
             && !(actor.role.JuniorCA? && b.work[id].risk.High?)
             && (LatestTLPass(b.history, id) == "" || LatestTLPass(b.history, id) != actor.id))
  {
  }

  /** A close goes through exactly for who may close, on an item delivered or queued. */
  lemma CloseAccepted(b: Board, actor: Actor, id: string, remarks: string)
    requires Present(b, id)
    ensures CallGate(b, actor, id, Close(remarks)).Success?
       <==> MayClose(actor, b.work[id]) && b.work[id].status.status in {ReadyForManagerClose, Delivered, CAVerified}
    ensures b.work[id].status.status in {ReadyForManagerClose, Delivered, CAVerified} && !MayClose(actor, b.work[id])
            ==> CallGate(b, actor, id, Close(remarks)) == Failure(Forbidden)
  {
  }

  /** A reopening exactly with the permission, a reason and a closed item. */
  lemma ReopenAccepted(b: Board, actor: Actor, id: string, reason: string)
    requires Present(b, id)
    ensures CallGate(b, actor, id, ReopenGate(reason)).Success?
       <==> Has(actor, Reopen) && !Blank(reason) && b.work[id].status == Code(Closed)
  {
  }

  /** A move exactly along an edge, for who may move and see the item, with review kept to
      its own people and cancelling to seniors. */
  lemma MoveAccepted(b: Board, actor: Actor, id: string, to: StatusText, remarks: string, overlay: string)
    requires Present(b, id)
    ensures CallGate(b, actor, id, Move(to, remarks, overlay)).Success?
       <==> (&& Has(actor, Permission.Transition) && Visibility.CanView(actor, b.work[id])
             && !IsTerminal(b.work[id].status.status) && CanTransition(b.work[id].status.status, Normalize(to))
             && (Normalize(to).ReadyForTLVerify? ==> Answers(actor, b.work[id]))
             && (Normalize(to).Cancelled? ==> IsLeadership(actor.role) || IsProfessional(actor.role)))
  {
    MoveIsLegal(b.work[id].status.status, Normalize(to));
  }

  // --- which roles that is ---

  /** Nothing was granted to the actor beyond the role. */
  predicate ByRoleAlone(actor: Actor) { actor.permissions == {} }

  /** By role alone, TL verification is for partners and team leaders, CA verification for
      partners and CAs, closing and reopening for partners and managers, and partner
      sign-off for partners: an executor verifies and closes nothing. */
  lemma GatesByRole(actor: Actor, item: WorkItem)
    requires ByRoleAlone(actor)
    ensures Has(actor, VerifyTL) && !actor.role.Manager? <==> actor.role in {Partner, TeamLeader}
    ensures Has(actor, VerifyCA) && !actor.role.Manager? <==> actor.role in {Partner, CA, SeniorCA}
    ensures MayClose(actor, item) <==> actor.role.Partner? || (actor.role.Manager? && !item.partnerSignoff)
    ensures Has(actor, Reopen) <==> IsLeadership(actor.role)
    ensures Has(actor, Permission.Transition) <==> !IsSupport(actor.role)
    ensures Has(actor, Assign) <==> IsLeadership(actor.role) || IsProfessional(actor.role) || actor.role.TeamLeader?
    ensures Has(actor, Create) <==> Has(actor, Assign)
    ensures Has(actor, Delete) <==> IsLeadership(actor.role) || IsProfessional(actor.role)
    ensures Has(actor, IntakeApprove) <==> IsLeadership(actor.role)
    ensures Has(actor, IntakeReject) <==> IsLeadership(actor.role)
    ensures Has(actor, IntakeCreate)
       <==> IsLeadership(actor.role) || IsProfessional(actor.role) || actor.role.Reception?
    ensures Has(actor, EngagementCreate) <==> IsLeadership(actor.role) || IsProfessional(actor.role)
    ensures Has(actor, Edit) <==> !IsSupport(actor.role)
    ensures Has(actor, View) <==> actor.role !in {HR, ClientRole}
  {
  }

  /** A grant to the actor counts whatever the role, and by role alone the two permissions
      to close are for partners, the lesser one for managers too. */
  lemma GrantsTell(actor: Actor, permission: Permission)
    ensures permission in actor.permissions ==> Has(actor, permission)
    ensures ByRoleAlone(actor) ==> (Has(actor, ClosePartner) <==> actor.role.Partner?)
    ensures ByRoleAlone(actor) ==> (Has(actor, CloseManager) <==> IsLeadership(actor.role))
    ensures ByRoleAlone(actor) && actor.role.ClientRole? ==> !Has(actor, permission)
  {
  }

  // --- two pairs of eyes ---

  lemma {:induction false} LatestPassIsLater(h: seq<Entry>, id: string, i: nat)
    returns (j: nat)
    requires i < |h| && IsTLPass(h[i], id)
    ensures i <= j < |h| && IsTLPass(h[j], id) && LatestTLPass(h, id) == h[j].actorId
    decreases |h|
  {
    var last := |h| - 1;
    if IsTLPass(h[last], id) {
      j := last;
    } else {
      j := LatestPassIsLater(h[..last], id, i);
    }
  }

  /** A TL pass and a later CA pass since the last reopening, by two different people. */
  ghost predicate SeenByTwo(h: seq<Entry>, id: string) {
    exists i: nat, j: nat :: i < j < |h| && IsTLPass(h[i], id) && IsCAPass(h[j], id) && NoReopenFrom(h, id, i)
                             && (h[i].actorId != h[j].actorId || h[i].actorId == "")
  }

  /** Over whole-call runs, an item created early that is past verification was passed by a
      team leader and then by a CA who is someone else. */
  lemma VerifiedByTwo(steps: seq<Step>, id: string)
    requires WholeCalls(steps)
    requires id in Run(steps).created && Early(Run(steps).created[id])
    ensures id in Run(steps).board.work
    ensures PastVerification(Normalize(Run(steps).board.work[id].status)) ==> SeenByTwo(Run(steps).board.history, id)
  {
    WorkflowSafety(steps, id);
    SegregationOfDuties(steps);
    var h := Run(steps).board.history;
    if PastVerification(Normalize(Run(steps).board.work[id].status)) {
      var i: nat, j: nat :| i < j < |h| && IsTLPass(h[i], id) && IsCAPass(h[j], id) && NoReopenFrom(h, id, i);
      assert h[..j][i] == h[i];
      var k := LatestPassIsLater(h[..j], id, i);
      assert h[..j][k] == h[k] && Separate(h, j);
      assert NoReopenFrom(h, id, k);
    }
  }
}
