/** What every interleaving of gate calls and edits keeps. */
module GateSafety {
  import opened Tables
  import opened Practice
  import opened Gates

  // --- the shape of a step ---

  function Statuses(work: map<string, WorkItem>): map<string, Status> {
    map id | id in work :: Normalize(work[id].status)
  }

  /** An edge some gate may take. */
  predicate LegalEdge(e: Entry) {
    match e.action
    case ActTransition => CanTransition(e.from, e.to) && !IsTerminal(e.from)
    case ActVerifyTL => e.from.ReadyForTLVerify? && (e.to.ReadyForCAVerify? || e.to.TLRejected?)
    case ActVerifyCA => e.from.ReadyForCAVerify? && (e.to.CARejected? || e.to.Delivered? || e.to.ReadyForManagerClose?)
    case ActClose => (e.from.ReadyForManagerClose? || e.from.Delivered? || e.from.CAVerified?) && e.to.Closed?
    case ActReopen => e.from.Closed? && e.to.Open?
  }

  /** A pending write is about one edge: from the status it expects to the status it stores. */
  ghost predicate Pending(g: GateWrite) {
    && g.entry.from == Normalize(g.expected)
    && g.work.status == Code(g.entry.to)
    && g.expected.Code? && !g.work.deleted
    && LegalEdge(g.entry)
  }

  lemma MovePending(b: Board, actor: Actor, id: string, to: Status, remarks: string, overlay: string)
    requires id in b.work && b.work[id].status.Code?
    requires DecideMove(b, actor, id, to, remarks, overlay).Success?
    ensures var g := DecideMove(b, actor, id, to, remarks, overlay).value;
            Pending(g) && g.entry.workId == id && g.entry.actorId == actor.id && g.entry.action.ActTransition?
  {
    MoveIsLegal(Normalize(b.work[id].status), to);
    MoveWrites(b, actor, id, to, remarks, overlay);
  }

  /** The extra way into review names no edge that is not already legal. */
  lemma MoveIsLegal(from: Status, to: Status)
    ensures to.ReadyForTLVerify? && (from.InProgress? || from.DocumentReceived? || from.TLRejected?)
            ==> CanTransition(from, to)
  {
  }

  lemma MoveWrites(b: Board, actor: Actor, id: string, to: Status, remarks: string, overlay: string)
    requires DecideMove(b, actor, id, to, remarks, overlay).Success?
    ensures var g := DecideMove(b, actor, id, to, remarks, overlay).value;
            && id in b.work && !b.work[id].deleted && !IsTerminal(Normalize(b.work[id].status))
            && g.entry == Entry(id, Normalize(b.work[id].status), to, ActTransition, remarks, actor.id)
            && g.expected == b.work[id].status && g.work.status == Code(to) && !g.work.deleted
            && (CanTransition(g.entry.from, to)
                || (to.ReadyForTLVerify?
                    && (g.entry.from.InProgress? || g.entry.from.DocumentReceived? || g.entry.from.TLRejected?)))
  {
  }

  lemma CAPending(b: Board, actor: Actor, id: string, decision: Decision, remarks: string)
    requires id in b.work && b.work[id].status.Code?
    requires DecideCA(b, actor, id, decision, remarks).Success?
    ensures var g := DecideCA(b, actor, id, decision, remarks).value;
            Pending(g) && g.entry.workId == id && g.entry.actorId == actor.id && g.entry.action.ActVerifyCA?
            && (LatestTLPass(b.history, id) == "" || LatestTLPass(b.history, id) != actor.id)
  {
  }

  lemma DecidedIsPending(b: Board, actor: Actor, id: string, gate: Gate)
    requires id in b.work && b.work[id].status.Code?
    requires Decide(b, actor, id, gate).Success?
    ensures Pending(Decide(b, actor, id, gate).value)
    ensures var g := Decide(b, actor, id, gate).value;
            g.entry.workId == id && g.entry.actorId == actor.id
    ensures var g := Decide(b, actor, id, gate).value;
            g.entry.action.ActVerifyCA? ==> LatestTLPass(b.history, id) == "" || LatestTLPass(b.history, id) != actor.id
  {
    match gate
    case Move(to, remarks, overlay) => MovePending(b, actor, id, Normalize(to), remarks, overlay);
    case TLVerify(decision, remarks) =>
    case CAVerify(decision, remarks) => CAPending(b, actor, id, decision, remarks);
    case Close(remarks) =>
    case ReopenGate(reason) =>
  }

  /** What one step does to statuses, history and creation records. */
  datatype Effect = Quiet | Committed(e: Entry) | Born(id: string, st: Status) | StatusPatched(id: string, to: Status)

  /** What the theorems are about: the normalized status of each item, the history
      and the creation records. */
  datatype Picture = Picture(statuses: map<string, Status>, history: seq<Entry>, created: map<string, Status>)

  function PictureOf(w: World): Picture {
    Picture(Statuses(w.board.work), w.board.history, w.created)
  }

  function After(v: Picture, eff: Effect): Picture {
    match eff
    case Quiet => v
    case Committed(e) => Picture(v.statuses[e.workId := e.to], v.history + [e], v.created)
    case Born(id, st) => Picture(v.statuses[id := st], v.history, v.created[id := st])
    case StatusPatched(id, to) => v.(statuses := v.statuses[id := to])
  }

  predicate Allowed(v: Picture, eff: Effect) {
    match eff
    case Quiet => true
    case Committed(e) => e.workId in v.statuses && v.statuses[e.workId] == e.from && LegalEdge(e)
    case Born(id, st) => id !in v.statuses
    case StatusPatched(id, to) => id in v.statuses && !IsTerminal(v.statuses[id]) && IsFree(to)
  }

  ghost predicate HasEffect(w: World, w': World, eff: Effect) {
    Allowed(PictureOf(w), eff) && PictureOf(w') == After(PictureOf(w), eff)
  }

  ghost predicate FlightPending(f: InFlight) {
    match f
    case Reading(_, _, _, item, _) => item.status.Code? && !item.deleted
    case Decided(_, _, _, write, _, _) => Pending(write)
  }

  /** Stored statuses are practice codes, and every call in flight is pending. */
  ghost predicate AllPending(w: World) {
    && (forall id :: id in w.board.work ==> w.board.work[id].status.Code?)
    && (forall c :: c in w.calls ==> FlightPending(w.calls[c]))
  }

  /** A gate only decides on an item it could read. */
  lemma DecidedWasRead(b: Board, actor: Actor, id: string, gate: Gate)
    requires Decide(b, actor, id, gate).Success?
    ensures id in b.work
  {
  }

  lemma ApplyEffect(w: World, w': World, g: GateWrite)
    requires Pending(g) && Apply(w.board, g).Success?
    requires w'.board == Apply(w.board, g).value && w'.created == w.created
    ensures HasEffect(w, w', Committed(g.entry))
  {
    var s, s' := Statuses(w.board.work), Statuses(w'.board.work);
    assert s' == s[g.entry.workId := g.entry.to];
  }

  lemma StoreEffect(w: World, id: string, item: WorkItem)
    requires id in w.board.work && !w.board.work[id].deleted && item.status == w.board.work[id].status
    ensures HasEffect(w, w.(board := Store(w.board, id, item)), Quiet)
  {
    assert Statuses(Store(w.board, id, item).work) == Statuses(w.board.work);
  }

  lemma EditEffect(w: World, actor: Actor, id: string, q: WorkPatch)
    requires EditWork(w.board, actor, id, q).Success?
    ensures exists eff :: HasEffect(w, Edited(w, id, EditWork(w.board, actor, id, q)), eff)
                          && (q.status.None? ==> eff.Quiet?) && (eff.Quiet? || eff.StatusPatched?)
  {
    var item := EditWork(w.board, actor, id, q).value;
    if q.status.None? {
      StoreEffect(w, id, item);
      assert HasEffect(w, Edited(w, id, EditWork(w.board, actor, id, q)), Quiet);
    } else {
      var to := Normalize(q.status.value);
      var w' := w.(board := Store(w.board, id, item));
      assert Statuses(w'.board.work) == Statuses(w.board.work)[id := to];
      assert HasEffect(w, w', StatusPatched(id, to));
    }
  }

  predicate PatchesStatus(step: Step) {
    step.UpdateWork? && step.patch.status.Some?
  }

  lemma BirthEffect(w: World, id: string, item: WorkItem)
    requires id !in w.board.work
    ensures HasEffect(w, World(Board(w.board.work[id := item], w.board.history),
                               w.created[id := Normalize(item.status)], w.calls),
                      Born(id, Normalize(item.status)))
  {
    assert Statuses(w.board.work[id := item]) == Statuses(w.board.work)[id := Normalize(item.status)];
  }

  lemma DeletionEffect(w: World, id: string, deleted: bool)
    requires id in w.board.work
    ensures HasEffect(w, w.(board := w.board.(work := w.board.work[id := w.board.work[id].(deleted := deleted)])),
                      Quiet)
  {
    assert Statuses(w.board.work[id := w.board.work[id].(deleted := deleted)]) == Statuses(w.board.work);
  }

  lemma AssignmentEffect(w: World, step: Step)
    requires step.Reassign? || step.AssignSlot?
    ensures HasEffect(w, Next(w, step), Quiet)
  {
    if step.Reassign? {
      var r := ReassignWork(w.board, step.actor, step.id, step.toId, step.toRole);
      if r.Success? {
        StoreEffect(w, step.id, r.value);
      }
    } else {
      var r := AssignSlotOf(w.board, step.actor, step.id, step.slot, step.userId, step.userRole);
      if r.Success? {
        StoreEffect(w, step.id, r.value);
      }
    }
  }

  /** The gate write a step commits, if it is one that commits. */
  function Committing(w: World, step: Step): Option<GateWrite> {
    if step.Commit? then
      (if step.call in w.calls && w.calls[step.call].Decided? then Some(w.calls[step.call].write) else None)
    else if step.Whole? then
      (var d := Decide(w.board, step.actor, step.id, step.gate); if d.Success? then Some(d.value) else None)
    else None
  }

  lemma GateEffect(w: World, step: Step)
    requires AllPending(w) && (step.Commit? || step.Whole?)
    ensures var g := Committing(w, step);
            if g.Some? && Apply(w.board, g.value).Success?
            then HasEffect(w, Next(w, step), Committed(g.value.entry))
            else HasEffect(w, Next(w, step), Quiet)
  {
    var g := Committing(w, step);
    if g.Some? && Apply(w.board, g.value).Success? {
      if step.Whole? {
        DecidedWasRead(w.board, step.actor, step.id, step.gate);
        DecidedIsPending(w.board, step.actor, step.id, step.gate);
      }
      ApplyEffect(w, Next(w, step), g.value);
    }
  }

  lemma NewWorkIsCoded(b: Board, actor: Actor, id: string, draft: WorkItem, assigneeRole: Role)
    requires NewWork(b, actor, id, draft, assigneeRole).Success?
    ensures NewWork(b, actor, id, draft, assigneeRole).value.status.Code?
  {
  }

  lemma GatePendingKept(w: World, step: Step)
    requires AllPending(w) && (step.Commit? || step.Whole?)
    ensures AllPending(Next(w, step))
  {
    if step.Whole? && Decide(w.board, step.actor, step.id, step.gate).Success? {
      DecidedWasRead(w.board, step.actor, step.id, step.gate);
      DecidedIsPending(w.board, step.actor, step.id, step.gate);
    }
  }

  lemma ReadPendingKept(w: World, step: Step)
    requires AllPending(w) && (step.Begin? || step.Check?)
    ensures AllPending(Next(w, step))
  {
    if step.Check? && step.call in w.calls && w.calls[step.call].Reading? {
      var f := w.calls[step.call];
      if Decide(AsRead(w.board, f), f.actor, f.id, f.gate).Success? {
        DecidedIsPending(AsRead(w.board, f), f.actor, f.id, f.gate);
      }
    }
  }

  lemma PendingKept(w: World, step: Step)
    requires AllPending(w)
    ensures AllPending(Next(w, step))
  {
    if step.Commit? || step.Whole? {
      GatePendingKept(w, step);
    } else if step.Begin? || step.Check? {
      ReadPendingKept(w, step);
    } else if step.CreateWork? {
      if NewWork(w.board, step.actor, step.id, step.draft, step.assigneeRole).Success? {
        NewWorkIsCoded(w.board, step.actor, step.id, step.draft, step.assigneeRole);
      }
    } else {
      EditPendingKept(w, step);
    }
  }

  lemma EditPendingKept(w: World, step: Step)
    requires AllPending(w)
    requires step.UpdateWork? || step.Reassign? || step.AssignSlot? || step.SoftDelete? || step.Restore?
    ensures AllPending(Next(w, step))
  {
  }

  /** Every step has one of the four effects; only a status patch bypasses the gates. */
  lemma StepEffect(w: World, step: Step) returns (eff: Effect)
    requires AllPending(w)
    ensures HasEffect(w, Next(w, step), eff)
    ensures eff.StatusPatched? ==> PatchesStatus(step)
    ensures eff.Committed? ==> Committing(w, step).Some? && eff.e == Committing(w, step).value.entry
  {
    eff := Quiet;
    if step.Commit? || step.Whole? {
      GateEffect(w, step);
      var g := Committing(w, step);
      if g.Some? && Apply(w.board, g.value).Success? {
        eff := Committed(g.value.entry);
      }
    } else if step.CreateWork? {
      if step.id !in w.board.work && NewWork(w.board, step.actor, step.id, step.draft, step.assigneeRole).Success? {
        BirthEffect(w, step.id, NewWork(w.board, step.actor, step.id, step.draft, step.assigneeRole).value);
        var born := NewWork(w.board, step.actor, step.id, step.draft, step.assigneeRole).value;
        eff := Born(step.id, Normalize(born.status));
      }
    } else if step.UpdateWork? {
      if EditWork(w.board, step.actor, step.id, step.patch).Success? {
        EditEffect(w, step.actor, step.id, step.patch);
        eff :| HasEffect(w, Next(w, step), eff) && (step.patch.status.None? ==> eff.Quiet?)
               && (eff.Quiet? || eff.StatusPatched?);
      }
    } else if step.Reassign? || step.AssignSlot? {
      AssignmentEffect(w, step);
    } else if step.SoftDelete? || step.Restore? {
      if step.id in w.board.work {
        DeletionEffect(w, step.id, step.SoftDelete?);
      }
    }
  }

  // --- workflow safety ---

  /** Since the item was last reopened, a TL pass at i and no reopening after it. */
  ghost predicate NoReopenFrom(h: seq<Entry>, id: string, i: nat) {
    forall k :: i <= k < |h| && h[k].workId == id ==> !h[k].action.ActReopen?
  }

  ghost predicate TLPassSince(h: seq<Entry>, id: string) {
    exists i: nat :: i < |h| && IsTLPass(h[i], id) && NoReopenFrom(h, id, i)
  }

  /** Since the last reopening, a TL pass followed later by a CA pass. */
  ghost predicate BothPassedSince(h: seq<Entry>, id: string) {
    exists i: nat, j: nat :: i < j < |h| && IsTLPass(h[i], id) && IsCAPass(h[j], id) && NoReopenFrom(h, id, i)
  }

  predicate PastVerification(st: Status) {
    st.ReadyForManagerClose? || st.Delivered? || st.Closed?
  }

  ghost predicate Safe(h: seq<Entry>, id: string, st: Status) {
    && !st.TLVerified? && !st.CAVerified?
    && (st.ReadyForCAVerify? ==> TLPassSince(h, id))
    && (PastVerification(st) ==> BothPassedSince(h, id))
  }

  /** Statuses that claim no verification yet. */
  predicate Early(st: Status) {
    !st.TLVerified? && !st.ReadyForCAVerify? && !st.CAVerified? && !PastVerification(st)
  }

  lemma AppendKeepsSince(h: seq<Entry>, e: Entry, id: string)
    requires e.workId != id || !e.action.ActReopen?
    ensures TLPassSince(h, id) ==> TLPassSince(h + [e], id)
    ensures BothPassedSince(h, id) ==> BothPassedSince(h + [e], id)
  {
    var h' := h + [e];
    if TLPassSince(h, id) {
      var i: nat :| i < |h| && IsTLPass(h[i], id) && NoReopenFrom(h, id, i);
      assert IsTLPass(h'[i], id) && NoReopenFrom(h', id, i);
    }
    if BothPassedSince(h, id) {
      var i: nat, j: nat :| i < j < |h| && IsTLPass(h[i], id) && IsCAPass(h[j], id) && NoReopenFrom(h, id, i);
      assert IsTLPass(h'[i], id) && IsCAPass(h'[j], id) && NoReopenFrom(h', id, i);
    }
  }

  /** A legal commit keeps an item safe. */
  lemma CommitKeepsSafe(h: seq<Entry>, e: Entry, id: string)
    requires e.workId == id && LegalEdge(e) && Safe(h, id, e.from)
    ensures Safe(h + [e], id, e.to)
  {
    var h' := h + [e];
    if !e.action.ActReopen? {
      AppendKeepsSince(h, e, id);
      if IsTLPass(e, id) {
        assert IsTLPass(h'[|h|], id) && NoReopenFrom(h', id, |h|);
      }
      if IsCAPass(e, id) {
        var i: nat :| i < |h'| && IsTLPass(h'[i], id) && NoReopenFrom(h', id, i);
        assert IsCAPass(h'[|h|], id);
      }
    }
  }

  /** Only known items have a status or a history. */
  ghost predicate Tidy(v: Picture) {
    v.created.Keys == v.statuses.Keys && forall k :: 0 <= k < |v.history| ==> v.history[k].workId in v.created
  }

  ghost predicate SafePicture(v: Picture) {
    Tidy(v) && forall id :: id in v.created && Early(v.created[id]) ==> Safe(v.history, id, v.statuses[id])
  }

  lemma EffectKeepsTidy(v: Picture, eff: Effect)
    requires Tidy(v) && Allowed(v, eff)
    ensures Tidy(After(v, eff))
  {
  }

  lemma NewcomerIsSafe(h: seq<Entry>, id: string, st: Status)
    requires forall k :: 0 <= k < |h| ==> h[k].workId != id
    ensures Safe(h, id, st) <==> Early(st)
  {
  }

  lemma EffectKeepsSafe(v: Picture, eff: Effect)
    requires SafePicture(v) && Allowed(v, eff)
    ensures SafePicture(After(v, eff))
  {
    EffectKeepsTidy(v, eff);
    var v' := After(v, eff);
    forall id | id in v'.created && Early(v'.created[id])
      ensures Safe(v'.history, id, v'.statuses[id])
    {
      if eff.Committed? {
        if eff.e.workId == id {
          CommitKeepsSafe(v.history, eff.e, id);
        } else {
          AppendKeepsSince(v.history, eff.e, id);
        }
      } else if eff.Born? && eff.id == id {
        NewcomerIsSafe(v.history, id, eff.st);
      }
    }
  }

  lemma {:induction false} RunFromSafe(w: World, steps: seq<Step>)
    requires AllPending(w) && SafePicture(PictureOf(w))
    ensures SafePicture(PictureOf(RunFrom(w, steps)))
    decreases |steps|
  {
    if steps != [] {
      var eff := StepEffect(w, steps[0]);
      PendingKept(w, steps[0]);
      EffectKeepsSafe(PictureOf(w), eff);
      RunFromSafe(Next(w, steps[0]), steps[1..]);
    }
  }

  /** In every interleaving: an item created in an early status never stands in
      TL_VERIFIED or CA_VERIFIED, and once past verification its history since the
      last reopening holds a TL pass followed later by a CA pass. */
  lemma WorkflowSafety(steps: seq<Step>, id: string)
    requires id in Run(steps).created && Early(Run(steps).created[id])
    ensures id in Run(steps).board.work
    ensures var st := Normalize(Run(steps).board.work[id].status);
            && !st.TLVerified? && !st.CAVerified?
            && (PastVerification(st) ==> BothPassedSince(Run(steps).board.history, id))
  {
    RunFromSafe(EmptyWorld, steps);
    assert id in PictureOf(Run(steps)).statuses;
  }

  /** Unassigned work is created in an early status, whatever status was asked for. */
  lemma UnassignedStartsEarly(b: Board, actor: Actor, id: string, draft: WorkItem, assigneeRole: Role)
    requires NewWork(b, actor, id, draft, assigneeRole).Success? && Assignee(draft) == ""
    ensures var st := Normalize(NewWork(b, actor, id, draft, assigneeRole).value.status);
            st.Open? || st.DocumentPending?
  {
  }

  /** The item as it stands is safe. */
  ghost predicate SafeItem(w: World, id: string) {
    id in w.board.work ==> Safe(w.board.history, id, Normalize(w.board.work[id].status))
  }

  /** An item just created stays safe however the run goes on exactly when it was
      created in an early status. */
  lemma AlwaysSafeExactlyWhenEarly(steps: seq<Step>, create: Step)
    requires create.CreateWork? && create.id !in Run(steps).board.work
    requires NewWork(Run(steps).board, create.actor, create.id, create.draft, create.assigneeRole).Success?
    ensures var w := Next(Run(steps), create);
            && create.id in w.created
            && ((forall more :: SafeItem(RunFrom(w, more), create.id)) <==> Early(w.created[create.id]))
  {
    RunFromSafe(EmptyWorld, steps);
    RunFromPending(EmptyWorld, steps);
    var w0, w := Run(steps), Next(Run(steps), create);
    var id := create.id;
    assert id in w.board.work && w.created[id] == Normalize(w.board.work[id].status);
    assert id !in w0.created by { assert id !in PictureOf(w0).statuses; }
    NewcomerIsSafe(w0.board.history, id, w.created[id]);
    assert RunFrom(w, []) == w;
    if Early(w.created[id]) {
      forall more ensures SafeItem(RunFrom(w, more), id) {
        SafeOnwards(w0, create, more);
      }
    } else {
      assert !SafeItem(RunFrom(w, []), id);
    }
  }

  lemma SafeOnwards(w0: World, create: Step, more: seq<Step>)
    requires AllPending(w0) && SafePicture(PictureOf(w0))
    requires create.CreateWork? && create.id in Next(w0, create).created && Early(Next(w0, create).created[create.id])
    ensures SafeItem(RunFrom(Next(w0, create), more), create.id)
  {
    RunFromSafe(w0, [create]);
    var w := Next(w0, create);
    assert [create][1..] == [] && RunFrom(w, []) == w;
    PendingKept(w0, create);
    RunFromSafe(w, more);
    var v := PictureOf(RunFrom(w, more));
    CreatedStays(w, more, create.id);
    assert create.id in v.created ==> create.id in v.statuses;
  }

  /** What is recorded of a creation is never changed. */
  lemma {:induction false} CreatedStays(w: World, steps: seq<Step>, id: string)
    requires AllPending(w) && Tidy(PictureOf(w)) && id in w.created
    ensures id in RunFrom(w, steps).created && RunFrom(w, steps).created[id] == w.created[id]
    decreases |steps|
  {
    if steps != [] {
      var eff := StepEffect(w, steps[0]);
      PendingKept(w, steps[0]);
      EffectKeepsTidy(PictureOf(w), eff);
      assert After(PictureOf(w), eff).created[id] == w.created[id];
      CreatedStays(Next(w, steps[0]), steps[1..], id);
    }
  }

  /** Work for "p" with a title, asked for in some status. */
  function AssignedDraft(st: Status): WorkItem {
    WorkItem("", "t", "", "", Code(st), None, "", "p", "p", "", "", "", "", "", "", "", "", "", "", Medium,
             false, false, "", [], 0.0, 0.0, 0, "", "", "", false)
  }

  function AssignedCreate(st: Status): Step {
    CreateWork(Actor("m", Partner, {}, [], "DEFAULT"), "w", AssignedDraft(st), Employee)
  }

  lemma AssignedAccepted(b: Board, st: Status)
    ensures var step := AssignedCreate(st);
            var r := NewWork(b, step.actor, "w", step.draft, step.assigneeRole);
            r.Success? && Normalize(r.value.status) == st
  {
    assert Text.TrimLeft("t") == "t" && Text.TrimRight("t") == "t";
    assert Text.TrimLeft("p") == "p" && Text.TrimRight("p") == "p";
    assert Assignee(AssignedDraft(st)) == "p";
    assert !NeedsCompany("");
  }

  /** Assigned work is created in whatever status is asked for: for every status that is
      not early, DELIVERED among them, a single create leaves an unsafe item. */
  lemma AssignedStartsAnywhere(st: Status)
    requires !Early(st)
    ensures var w := Run([AssignedCreate(st)]);
            "w" in w.created && w.created["w"] == st && "w" in w.board.work && !SafeItem(w, "w")
  {
    AssignedAccepted(EmptyWorld.board, st);
    SingleStep(AssignedCreate(st));
    BornAs(EmptyWorld, AssignedCreate(st), st);
    NewcomerIsSafe([], "w", st);
  }

  lemma BornAs(w: World, step: Step, st: Status)
    requires step.CreateWork? && step.id !in w.board.work
    requires var r := NewWork(w.board, step.actor, step.id, step.draft, step.assigneeRole);
             r.Success? && Normalize(r.value.status) == st
    ensures var w' := Next(w, step);
            && step.id in w'.created && w'.created[step.id] == st && w'.board.history == w.board.history
            && step.id in w'.board.work && Normalize(w'.board.work[step.id].status) == st
  {
  }

  lemma SingleStep(step: Step)
    ensures Run([step]) == Next(EmptyWorld, step)
  {
    assert [step][1..] == [];
    assert RunFrom(Next(EmptyWorld, step), []) == Next(EmptyWorld, step);
  }

  // --- gate commits serialize ---

  /** The next entry starts where the last one ended; when status patches are in
      play it may also start from a free status patched in from a non-terminal one. */
  predicate Follows(last: Status, next: Status, patches: bool) {
    last == next || (patches && !IsTerminal(last) && IsFree(next))
  }

  /** The entries lead from one status to another, each starting where the last ended. */
  ghost predicate Path(entries: seq<Entry>, start: Status, end: Status, patches: bool) {
    if entries == [] then Follows(start, end, patches)
    else
      && Follows(start, entries[0].from, patches)
      && (forall k {:trigger entries[k]} :: 0 < k < |entries| ==> Follows(entries[k - 1].to, entries[k].from, patches))
      && Follows(entries[|entries| - 1].to, end, patches)
  }

  lemma PathExtends(entries: seq<Entry>, start: Status, e: Entry, patches: bool)
    requires Path(entries, start, e.from, patches)
    ensures Path(entries + [e], start, e.to, patches)
  {
  }

  lemma PathPatched(entries: seq<Entry>, start: Status, end: Status, to: Status)
    requires Path(entries, start, end, true) && !IsTerminal(end) && IsFree(to)
    ensures Path(entries, start, to, true)
  {
  }

  lemma HistoryAppend(h: seq<Entry>, e: Entry, id: string)
    ensures HistoryOf(h + [e], id) == HistoryOf(h, id) + (if e.workId == id then [e] else [])
  {
    assert (h + [e])[..|h|] == h;
  }

  lemma {:induction false} NoHistory(h: seq<Entry>, id: string)
    requires forall k :: 0 <= k < |h| ==> h[k].workId != id
    ensures HistoryOf(h, id) == []
  {
    if h != [] {
      NoHistory(h[..|h| - 1], id);
    }
  }

  ghost predicate Contiguous(v: Picture, patches: bool) {
    Tidy(v) && forall id :: id in v.created ==> Path(HistoryOf(v.history, id), v.created[id], v.statuses[id], patches)
  }

  lemma EffectKeepsContiguous(v: Picture, eff: Effect, patches: bool)
    requires Contiguous(v, patches) && Allowed(v, eff)
    requires eff.StatusPatched? ==> patches
    ensures Contiguous(After(v, eff), patches)
  {
    EffectKeepsTidy(v, eff);
    var v' := After(v, eff);
    forall id | id in v'.created
      ensures Path(HistoryOf(v'.history, id), v'.created[id], v'.statuses[id], patches)
    {
      if eff.Committed? {
        HistoryAppend(v.history, eff.e, id);
        if eff.e.workId == id {
          PathExtends(HistoryOf(v.history, id), v.created[id], eff.e, patches);
        }
      } else if eff.Born? && eff.id == id {
        NoHistory(v.history, id);
      } else if eff.StatusPatched? && eff.id == id {
        PathPatched(HistoryOf(v.history, id), v.created[id], v.statuses[id], eff.to);
      }
    }
  }

  predicate NoStatusPatch(steps: seq<Step>) {
    forall k :: 0 <= k < |steps| ==> !PatchesStatus(steps[k])
  }

  lemma {:induction false} RunFromContiguous(w: World, steps: seq<Step>, patches: bool)
    requires AllPending(w) && Contiguous(PictureOf(w), patches) && (patches || NoStatusPatch(steps))
    ensures Contiguous(PictureOf(RunFrom(w, steps)), patches)
    decreases |steps|
  {
    if steps != [] {
      var eff := StepEffect(w, steps[0]);
      PendingKept(w, steps[0]);
      EffectKeepsContiguous(PictureOf(w), eff, patches);
      RunFromContiguous(Next(w, steps[0]), steps[1..], patches);
    }
  }

  /** In every interleaving of gate calls, an item's history is one contiguous path
      from the status it was created in to the one it is in; with status patches in
      play, every gap is a patch from a non-terminal status to a free one. */
  lemma HistoryIsPath(steps: seq<Step>, id: string)
    requires id in Run(steps).created
    ensures id in Run(steps).board.work
    ensures Path(HistoryOf(Run(steps).board.history, id), Run(steps).created[id],
                 Normalize(Run(steps).board.work[id].status), !NoStatusPatch(steps))
  {
    RunFromContiguous(EmptyWorld, steps, !NoStatusPatch(steps));
    assert id in PictureOf(Run(steps)).statuses;
  }

  function Departures(entries: seq<Entry>, st: Status): nat {
    if entries == [] then 0
    else Departures(entries[..|entries| - 1], st) + (if entries[|entries| - 1].from == st then 1 else 0)
  }

  function Arrivals(entries: seq<Entry>, st: Status): nat {
    if entries == [] then 0
    else Arrivals(entries[..|entries| - 1], st) + (if entries[|entries| - 1].to == st then 1 else 0)
  }

  lemma {:induction false} PathCounts(entries: seq<Entry>, start: Status, end: Status, st: Status)
    requires Path(entries, start, end, false)
    ensures Departures(entries, st) + (if end == st then 1 else 0)
         == Arrivals(entries, st) + (if start == st then 1 else 0)
  {
    if entries != [] {
      var last := entries[|entries| - 1];
      assert Path(entries[..|entries| - 1], start, last.from, false);
      PathCounts(entries[..|entries| - 1], start, last.from, st);
    }
  }

  /** In gate-only runs each visit to a status is ended by at most one commit: the
      commits leaving it are the visits to it, less the one the item is still in. */
  lemma OneCommitPerVisit(steps: seq<Step>, id: string, st: Status)
    requires id in Run(steps).created && NoStatusPatch(steps)
    ensures id in Run(steps).board.work
    ensures var entries := HistoryOf(Run(steps).board.history, id);
            Departures(entries, st) + (if Normalize(Run(steps).board.work[id].status) == st then 1 else 0)
            == Arrivals(entries, st) + (if Run(steps).created[id] == st then 1 else 0)
  {
    HistoryIsPath(steps, id);
    PathCounts(HistoryOf(Run(steps).board.history, id), Run(steps).created[id],
               Normalize(Run(steps).board.work[id].status), st);
  }

  lemma {:induction false} RunFromPending(w: World, steps: seq<Step>)
    requires AllPending(w)
    ensures AllPending(RunFrom(w, steps))
    decreases |steps|
  {
    if steps != [] {
      PendingKept(w, steps[0]);
      RunFromPending(Next(w, steps[0]), steps[1..]);
    }
  }

  // --- terminal statuses ---

  /** The history is append-only. */
  lemma {:induction false} HistoryGrows(w: World, steps: seq<Step>)
    requires AllPending(w)
    ensures w.board.history <= RunFrom(w, steps).board.history
    decreases |steps|
  {
    if steps != [] {
      var eff := StepEffect(w, steps[0]);
      PendingKept(w, steps[0]);
      assert w.board.history <= After(PictureOf(w), eff).history;
      HistoryGrows(Next(w, steps[0]), steps[1..]);
    }
  }

  lemma EffectKeepsTerminal(v: Picture, eff: Effect, id: string)
    requires Allowed(v, eff) && id in v.statuses && IsTerminal(v.statuses[id])
    ensures id in After(v, eff).statuses
    ensures After(v, eff).statuses[id] == v.statuses[id]
            || (v.statuses[id].Closed? && eff.Committed? && eff.e.workId == id && eff.e.action.ActReopen?)
  {
  }

  ghost predicate ReopenedSince(h: seq<Entry>, n: nat, id: string) {
    exists k :: n <= k < |h| && h[k].workId == id && h[k].action.ActReopen?
  }

  lemma {:induction false} RunFromTerminal(w: World, steps: seq<Step>, id: string)
    requires AllPending(w) && id in w.board.work && IsTerminal(Normalize(w.board.work[id].status))
    ensures id in RunFrom(w, steps).board.work
    ensures var st, st' := Normalize(w.board.work[id].status), Normalize(RunFrom(w, steps).board.work[id].status);
            st' == st || (st.Closed? && ReopenedSince(RunFrom(w, steps).board.history, |w.board.history|, id))
    decreases |steps|
  {
    if steps != [] {
      var eff := StepEffect(w, steps[0]);
      var w1 := Next(w, steps[0]);
      PendingKept(w, steps[0]);
      EffectKeepsTerminal(PictureOf(w), eff, id);
      assert id in PictureOf(w1).statuses;
      HistoryGrows(w1, steps[1..]);
      if Normalize(w1.board.work[id].status) == Normalize(w.board.work[id].status) {
        RunFromTerminal(w1, steps[1..], id);
      } else {
        StillThere(w1, steps[1..], id);
        var h := RunFrom(w1, steps[1..]).board.history;
        assert h[|w.board.history|] == eff.e;
      }
    }
  }

  lemma {:induction false} StillThere(w: World, steps: seq<Step>, id: string)
    requires AllPending(w) && id in w.board.work
    ensures id in RunFrom(w, steps).board.work
    decreases |steps|
  {
    if steps != [] {
      var eff := StepEffect(w, steps[0]);
      PendingKept(w, steps[0]);
      assert id in PictureOf(Next(w, steps[0])).statuses;
      StillThere(Next(w, steps[0]), steps[1..], id);
    }
  }

  /** However a run goes on, cancelled work stays cancelled, and closed work stays
      closed unless the history gains a reopening of it. */
  lemma TerminalStays(steps: seq<Step>, more: seq<Step>, id: string)
    requires id in Run(steps).board.work && IsTerminal(Normalize(Run(steps).board.work[id].status))
    ensures var w, w' := Run(steps), RunFrom(Run(steps), more);
            && id in w'.board.work
            && (Normalize(w'.board.work[id].status) == Normalize(w.board.work[id].status)
                || (Normalize(w.board.work[id].status).Closed?
                    && ReopenedSince(w'.board.history, |w.board.history|, id)))
  {
    RunFromPending(EmptyWorld, steps);
    RunFromTerminal(Run(steps), more, id);
  }

  /** Of two calls in flight on one item that read the same status, whichever commits
      first, the other then succeeds exactly when the first left the status as it was. */
  lemma SecondCommitConflicts(steps: seq<Step>, first: nat, second: nat)
    requires first in Run(steps).calls && second in Run(steps).calls && first != second
    requires Run(steps).calls[first].Decided? && Run(steps).calls[second].Decided?
    requires var a, c := Run(steps).calls[first].write, Run(steps).calls[second].write;
             a.entry.workId == c.entry.workId && a.entry.from == c.entry.from
    requires Apply(Run(steps).board, Run(steps).calls[first].write).Success?
    ensures var w, w' := Run(steps), Next(Run(steps), Commit(first));
            var e := w.calls[first].write.entry;
            && (Apply(w'.board, w.calls[second].write).Success? <==> e.to == e.from)
            && (e.to != e.from ==> Apply(w'.board, w.calls[second].write) == Failure(Conflict)
                                   && Next(w', Commit(second)).board == w'.board)
  {
    RunFromPending(EmptyWorld, steps);
  }
}
