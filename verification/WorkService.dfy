/** The in-memory work store and the service over it. Each call is proved to do, in
    one piece, what the step machine of Gates says it does. */
module WorkManagement {
  import opened Tables
  import opened Practice
  import opened Gates
  import Visibility
  import Text

  class MemoryStore {
    var work: map<string, WorkItem>
    var transitions: seq<Entry>

    function State(): Board
      reads this
    {
      Board(work, transitions)
    }

    constructor ()
      ensures State() == EmptyWorld.board
    {
      work, transitions := map[], [];
    }

    method GetWork(id: string) returns (r: Result<WorkItem, Error>)
      ensures r == Read(State(), id)
    {
      if id !in work {
        return Failure(NotFound);
      }
      if work[id].deleted {
        return Failure(NotFound);
      }
      return Success(work[id]);
    }

    method UpdateItem(id: string, w: WorkItem) returns (r: Result<(), Error>)
      modifies this
      ensures State() == Store(old(State()), id, w)
      ensures r.Success? <==> Read(old(State()), id).Success?
      ensures r.Success? ==> work == old(work)[id := w.(createdBy := old(work)[id].createdBy)]
      ensures transitions == old(transitions) && (r.Failure? ==> work == old(work) && r.error == NotFound)
    {
      if id !in work || work[id].deleted {
        return Failure(NotFound);
      }
      work := work[id := w.(createdBy := work[id].createdBy)];
      return Success(());
    }

    method ListTransitionHistory(id: string) returns (out: seq<Entry>)
      ensures out == HistoryOf(transitions, id)
    {
      out := [];
      for i := 0 to |transitions|
        invariant out == HistoryOf(transitions[..i], id)
      {
        assert transitions[..i + 1][..i] == transitions[..i];
        if transitions[i].workId == id {
          out := out + [transitions[i]];
        }
      }
      assert transitions[..|transitions|] == transitions;
    }

    method ApplyGateWrite(g: GateWrite) returns (r: Result<(), Error>)
      modifies this
      ensures var s := Apply(old(State()), g);
              (r.Success? <==> s.Success?) && (r.Failure? ==> r.error == s.error)
              && State() == (if s.Success? then s.value else old(State()))
    {
      if g.expected.Empty? {
        return Failure(Internal);
      }
      var id := g.entry.workId;
      var stamped := g.work;
      if stamped.assigneeId == "" {
        stamped := stamped.(assigneeId := stamped.assignedTo);
      }
      if id !in work || work[id].deleted {
        return Failure(NotFound);
      }
      if Normalize(work[id].status) != Normalize(g.expected) {
        return Failure(Conflict);
      }
      work := work[id := stamped.(createdBy := work[id].createdBy)];
      transitions := transitions + [g.entry];
      return Success(());
    }
  }

  /** What a gate call leaves on the board. */
  ghost predicate Gated(before: Board, after: Board, actor: Actor, id: string, gate: Gate, r: Result<WorkItem, Error>) {
    var s := CallGate(before, actor, id, gate);
    && (r.Success? <==> s.Success?)
    && after == (if s.Success? then s.value else before)
    && (r.Failure? ==> r.error == s.error)
    && (r.Success? ==> id in after.work && r.value == after.work[id])
  }

  class Service {
    const store: MemoryStore

    constructor (store: MemoryStore)
      ensures this.store == store
    {
      this.store := store;
    }

    /** The actor of the latest TL pass in the item's history. */
    method TLPassVerifier(id: string) returns (actorId: string)
      ensures actorId == LatestTLPass(store.transitions, id)
    {
      var hist := store.ListTransitionHistory(id);
      LatestInOwnHistory(store.transitions, id);
      actorId := "";
      for i := 0 to |hist|
        invariant actorId == LatestTLPass(hist[..i], id)
      {
        assert hist[..i + 1][..i] == hist[..i];
        if hist[i].action.ActVerifyTL? && hist[i].to.ReadyForCAVerify? {
          actorId := hist[i].actorId;
        }
      }
      assert hist[..|hist|] == hist;
    }

    method Transition(actor: Actor, id: string, toText: StatusText, remarks: string, overlay: string)
      returns (r: Result<WorkItem, Error>)
      modifies store
      ensures Gated(old(store.State()), store.State(), actor, id, Move(toText, remarks, overlay), r)
    {
      var decided := DecideTransition(actor, id, Normalize(toText), remarks, overlay);
      if decided.Failure? {
        return Failure(decided.error);
      }
      r := CommitGate(decided.value);
    }

    /** Hands a decided write to the store and reads the item back. */
    method CommitGate(g: GateWrite) returns (r: Result<WorkItem, Error>)
      requires !g.work.deleted
      modifies store
      ensures var s := Apply(old(store.State()), g);
              (r.Success? <==> s.Success?) && (r.Failure? ==> r.error == s.error)
              && store.State() == (if s.Success? then s.value else old(store.State()))
              && (r.Success? ==> g.entry.workId in store.work && r.value == store.work[g.entry.workId])
    {
      var applied := store.ApplyGateWrite(g);
      if applied.Failure? {
        return Failure(applied.error);
      }
      r := store.GetWork(g.entry.workId);
    }

    method DecideTransition(actor: Actor, id: string, to: Status, remarks: string, overlay: string)
      returns (r: Result<GateWrite, Error>)
      ensures r == DecideMove(store.State(), actor, id, to, remarks, overlay)
      ensures r.Success? ==> !r.value.work.deleted
    {
      if !Has(actor, Permission.Transition) {
        return Failure(Forbidden);
      }
      var got := store.GetWork(id);
      if got.Failure? {
        return Failure(NotFound);
      }
      var cur := got.value;
      if !Visibility.CanView(actor, cur) {
        return Failure(Forbidden);
      }
      var from := Normalize(cur.status);
      if IsTerminal(from) {
        return Failure(Conflict);
      }
      if to.ReadyForTLVerify? {
        var assignee := Assignee(cur);
        var acting := assignee == actor.id || cur.tl == actor.id || cur.ownerCA == actor.id || IsLeadership(actor.role);
        if !acting {
          return Failure(Forbidden);
        }
        if !CanTransition(from, to) && !from.InProgress? && !from.DocumentReceived? && !from.TLRejected? {
          return Failure(Conflict);
        }
      } else if !CanTransition(from, to) {
        return Failure(Conflict);
      }
      if to.Cancelled? && !IsLeadership(actor.role) && !IsProfessional(actor.role) {
        return Failure(Forbidden);
      }
      var next := cur.(status := Code(to), updatedBy := actor.id);
      if overlay != "" {
        next := next.(overlay := Text.Upper(Text.Trim(overlay)));
      }
      return Success(GateWrite(next, cur.status, Entry(id, from, to, ActTransition, remarks, actor.id)));
    }

    method VerifyTLCall(actor: Actor, id: string, decision: Decision, remarks: string)
      returns (r: Result<WorkItem, Error>)
      modifies store
      ensures Gated(old(store.State()), store.State(), actor, id, TLVerify(decision, remarks), r)
    {
      if !Has(actor, VerifyTL) {
        return Failure(Forbidden);
      }
      if actor.role.Manager? {
        return Failure(Forbidden);
      }
      if !decision.Pass? && !decision.Fail? {
        return Failure(Validation);
      }
      if decision.Fail? && Blank(remarks) {
        return Failure(Validation);
      }
      var got := store.GetWork(id);
      if got.Failure? {
        return Failure(NotFound);
      }
      var cur := got.value;
      var to := ApplyTLVerify(Normalize(cur.status), decision.Pass?);
      if to.Failure? {
        return Failure(to.error);
      }
      var from, expected := Normalize(cur.status), cur.status;
      cur := cur.(status := Code(to.value), updatedBy := actor.id);
      r := CommitGate(GateWrite(cur, expected, Entry(id, from, to.value, ActVerifyTL, remarks, actor.id)));
    }

    method VerifyCACall(actor: Actor, id: string, decision: Decision, remarks: string)
      returns (r: Result<WorkItem, Error>)
      modifies store
      ensures Gated(old(store.State()), store.State(), actor, id, CAVerify(decision, remarks), r)
    {
      if !Has(actor, VerifyCA) {
        return Failure(Forbidden);
      }
      if actor.role.Manager? {
        return Failure(Forbidden);
      }
      if !decision.Pass? && !decision.Fail? {
        return Failure(Validation);
      }
      if decision.Fail? && Blank(remarks) {
        return Failure(Validation);
      }
      var got := store.GetWork(id);
      if got.Failure? {
        return Failure(NotFound);
      }
      var cur := got.value;
      if actor.role.JuniorCA? && cur.risk.High? {
        return Failure(Forbidden);
      }
      var passer := TLPassVerifier(id);
      if passer != "" && passer == actor.id {
        return Failure(Forbidden);
      }
      var to := ApplyCAVerify(Normalize(cur.status), cur.risk, cur.delegatedClose, decision.Pass?);
      if to.Failure? {
        return Failure(to.error);
      }
      var from, expected := Normalize(cur.status), cur.status;
      cur := cur.(status := Code(to.value), updatedBy := actor.id);
      r := CommitGate(GateWrite(cur, expected, Entry(id, from, to.value, ActVerifyCA, remarks, actor.id)));
    }

    method CloseWork(actor: Actor, id: string, remarks: string) returns (r: Result<WorkItem, Error>)
      modifies store
      ensures Gated(old(store.State()), store.State(), actor, id, Close(remarks), r)
    {
      var got := store.GetWork(id);
      if got.Failure? {
        return Failure(NotFound);
      }
      var cur := got.value;
      if cur.partnerSignoff {
        if !Has(actor, ClosePartner) {
          return Failure(Forbidden);
        }
        if !actor.role.Partner? {
          return Failure(Forbidden);
        }
      } else if !Has(actor, CloseManager) {
        if !Has(actor, ClosePartner) {
          return Failure(Forbidden);
        }
      }
      var to := ApplyClose(Normalize(cur.status));
      if to.Failure? {
        return Failure(to.error);
      }
      var from, expected := Normalize(cur.status), cur.status;
      cur := cur.(status := Code(to.value), completionPct := 100, updatedBy := actor.id);
      r := CommitGate(GateWrite(cur, expected, Entry(id, from, to.value, ActClose, remarks, actor.id)));
    }

    method ReopenWork(actor: Actor, id: string, reason: string) returns (r: Result<WorkItem, Error>)
      modifies store
      ensures Gated(old(store.State()), store.State(), actor, id, ReopenGate(reason), r)
    {
      if !Has(actor, Reopen) {
        return Failure(Forbidden);
      }
      if Blank(reason) {
        return Failure(Validation);
      }
      var got := store.GetWork(id);
      if got.Failure? {
        return Failure(NotFound);
      }
      var cur := got.value;
      var to := ApplyReopen(Normalize(cur.status));
      if to.Failure? {
        return Failure(to.error);
      }
      var from, expected := Normalize(cur.status), cur.status;
      cur := cur.(status := Code(to.value), updatedBy := actor.id);
      r := CommitGate(GateWrite(cur, expected, Entry(id, from, to.value, ActReopen, reason, actor.id)));
    }

    method UpdateWorkCall(actor: Actor, id: string, q: WorkPatch) returns (r: Result<WorkItem, Error>)
      modifies store
      ensures var s := EditWork(old(store.State()), actor, id, q);
              (r.Success? <==> s.Success?) && (r.Failure? ==> r.error == s.error)
              && store.State() == (if s.Success? then Store(old(store.State()), id, s.value) else old(store.State()))
              && (r.Success? ==> id in store.work && r.value == store.work[id])
    {
      var got := store.GetWork(id);
      if got.Failure? {
        return Failure(NotFound);
      }
      var cur := got.value;
      if IsExecutor(actor.role) {
        if Assignee(cur) != actor.id {
          return Failure(Forbidden);
        }
      }
      if IsTerminal(Normalize(cur.status)) {
        return Failure(Conflict);
      }
      if !Has(actor, Edit) {
        return Failure(Forbidden);
      }
      if q.status.Some? && !IsFree(Normalize(q.status.value)) {
        return Failure(Conflict);
      }
      cur := PatchFields(cur, q, actor);
      var updated := store.UpdateItem(id, cur);
      assert updated.Success?;
      r := store.GetWork(id);
    }

    /** The patched fields, one after another. */
    method PatchFields(cur: WorkItem, q: WorkPatch, actor: Actor) returns (w: WorkItem)
      ensures w == Patched(cur, q, actor)
    {
      var texts := PatchTexts(cur, q);
      var item := PatchFlags(texts, q);
      var status, overlay, priority, pct := item.status, item.overlay, item.priority, item.completionPct;
      if q.overlay.Some? {
        overlay := Text.Upper(Text.Trim(q.overlay.value));
      }
      if q.priority.Some? {
        priority := NormalizePriority(q.priority.value);
      }
      if q.status.Some? {
        status := Code(Normalize(q.status.value));
      }
      if q.completionPct.Some? {
        pct := Clamp(q.completionPct.value);
      }
      w := item.(priority := priority, status := status, overlay := overlay, completionPct := pct,
                 updatedBy := actor.id);
    }

    /** The texts that are taken as they are when they are given. */
    method PatchTexts(cur: WorkItem, q: WorkPatch) returns (w: WorkItem)
      ensures w == PatchedTexts(cur, q)
    {
      var title := Take(cur.title, q.title);
      var description := Take(cur.description, q.description);
      var department := Take(cur.department, q.department);
      var clientId := Take(cur.clientId, q.clientId);
      var clientName := Take(cur.clientName, q.clientName);
      var companyId := Take(cur.companyId, q.companyId);
      var engagementId := Take(cur.engagementId, q.engagementId);
      var workType := Take(cur.workType, q.workType);
      var periodKey := Take(cur.periodKey, q.periodKey);
      var fy := Take(cur.fy, q.fy);
      w := cur.(title := title, description := description, department := department, clientId := clientId,
                clientName := clientName, companyId := companyId, engagementId := engagementId,
                workType := workType, periodKey := periodKey, fy := fy);
    }

    method PatchFlags(cur: WorkItem, q: WorkPatch) returns (w: WorkItem)
      ensures w == PatchedFlags(cur, q)
    {
      var risk := Take(cur.risk, q.risk);
      var delegated := Take(cur.delegatedClose, q.delegatedClose);
      var signoff := Take(cur.partnerSignoff, q.partnerSignoff);
      var tags := Take(cur.tags, q.tags);
      var estimated := Take(cur.estimatedHours, q.estimatedHours);
      var actual := Take(cur.actualHours, q.actualHours);
      var parentId := Take(cur.parentId, q.parentId);
      var due := cur.due;
      if q.due.Some? {
        due := q.due;
      }
      w := cur.(risk := risk, delegatedClose := delegated, partnerSignoff := signoff, tags := tags, due := due,
                estimatedHours := estimated, actualHours := actual, parentId := parentId);
    }

    static method Take<T>(dst: T, src: Option<T>) returns (v: T)
      ensures v == Or(src, dst)
    {
      v := dst;
      if src.Some? {
        v := src.value;
      }
    }

    method ReassignCall(actor: Actor, id: string, toId: string, toRole: Role) returns (r: Result<WorkItem, Error>)
      modifies store
      ensures var s := ReassignWork(old(store.State()), actor, id, toId, toRole);
              (r.Success? <==> s.Success?) && (r.Failure? ==> r.error == s.error)
              && store.State() == (if s.Success? then Store(old(store.State()), id, s.value) else old(store.State()))
    {
      if !Has(actor, Assign) {
        return Failure(Forbidden);
      }
      if !CanAssignTo(actor.role, toRole) {
        return Failure(Forbidden);
      }
      var got := store.GetWork(id);
      if got.Failure? {
        return Failure(NotFound);
      }
      var w := got.value.(assignedTo := toId, assignedBy := actor.id, updatedBy := actor.id);
      var updated := store.UpdateItem(id, w);
      r := store.GetWork(id);
    }

    method AssignSlotCall(actor: Actor, id: string, slot: Slot, userId: string, userRole: Role)
      returns (r: Result<WorkItem, Error>)
      modifies store
      ensures var s := AssignSlotOf(old(store.State()), actor, id, slot, userId, userRole);
              (r.Success? <==> s.Success?) && (r.Failure? ==> r.error == s.error)
              && store.State() == (if s.Success? then Store(old(store.State()), id, s.value) else old(store.State()))
    {
      if !Has(actor, Assign) {
        return Failure(Forbidden);
      }
      var got := store.GetWork(id);
      if got.Failure? {
        return Failure(NotFound);
      }
      var cur := got.value;
      match slot {
        case OwnerSlot =>
          if !IsLeadership(actor.role) {
            return Failure(Forbidden);
          }
          cur := cur.(ownerCA := userId);
        case TLSlot =>
          if !IsLeadership(actor.role) && !IsProfessional(actor.role) {
            return Failure(Forbidden);
          }
          if !CanAssignTo(actor.role, userRole) && !userRole.TeamLeader? {
            return Failure(Forbidden);
          }
          cur := cur.(tl := userId);
        case AssigneeSlot =>
          if !CanAssignTo(actor.role, userRole) {
            return Failure(Forbidden);
          }
          cur := cur.(assigneeId := userId, assignedTo := userId, assignedBy := actor.id);
        case OtherSlot =>
          return Failure(Validation);
      }
      cur := cur.(updatedBy := actor.id);
      var updated := store.UpdateItem(id, cur);
      r := store.GetWork(id);
    }

    /** id is the fresh id the store generates. */
    method CreateWorkCall(actor: Actor, id: string, draft: WorkItem, assigneeRole: Role)
      returns (r: Result<WorkItem, Error>)
      requires id !in store.work
      modifies store
      ensures r == NewWork(old(store.State()), actor, id, draft, assigneeRole)
      ensures store.State() == (if r.Success? then Board(old(store.work)[id := r.value], old(store.transitions))
                                else old(store.State()))
    {
      if !Has(actor, Create) {
        return Failure(Forbidden);
      }
      if IsSupport(actor.role) {
        return Failure(Forbidden);
      }
      if Blank(draft.title) {
        return Failure(Validation);
      }
      var assignee := Assignee(draft);
      if assignee != "" {
        if !Has(actor, Assign) {
          return Failure(Forbidden);
        }
        if !CanAssignTo(actor.role, assigneeRole) {
          return Failure(Forbidden);
        }
      }
      if NeedsCompany(draft.workType) && Blank(draft.companyId) {
        return Failure(Validation);
      }
      if draft.parentId != "" {
        var parent := store.GetWork(draft.parentId);
        if parent.Failure? {
          return Failure(NotFound);
        }
      }
      var kept := FillIn(actor, id, draft, assignee);
      var w := TriadDefaults(actor, kept, assigneeRole);
      store.work := store.work[id := w];
      return Success(w);
    }

    /** The fields a new item is stored with, one after another. */
    method FillIn(actor: Actor, id: string, draft: WorkItem, assignee: string) returns (w: WorkItem)
      ensures w == draft.(id := id, priority := NormalizePriority(draft.priority), assignedTo := assignee,
                          assigneeId := if assignee == "" || draft.assigneeId == "" then assignee else draft.assigneeId,
                          status := Code(InitialStatus(Normalize(draft.status), assignee)),
                          overlay := Text.Upper(Text.Trim(draft.overlay)),
                          assignedBy := actor.id, createdBy := actor.id, updatedBy := actor.id, deleted := false)
    {
      w := draft.(id := id, priority := NormalizePriority(draft.priority), status := Code(Normalize(draft.status)));
      if assignee != "" {
        w := w.(assignedTo := assignee);
        if w.assigneeId == "" {
          w := w.(assigneeId := assignee);
        }
      } else {
        w := w.(assignedTo := "", assigneeId := "");
        var st := Normalize(w.status);
        if !st.Open? && !st.DocumentPending? {
          w := w.(status := Code(Open));
        }
      }
      w := w.(overlay := Text.Upper(Text.Trim(w.overlay)), assignedBy := actor.id, createdBy := actor.id,
              updatedBy := actor.id, deleted := false);
    }
  }

  lemma {:induction false} LatestInOwnHistory(h: seq<Entry>, id: string)
    ensures LatestTLPass(HistoryOf(h, id), id) == LatestTLPass(h, id)
    ensures forall k :: 0 <= k < |HistoryOf(h, id)| ==> HistoryOf(h, id)[k].workId == id
  {
    if h != [] {
      LatestInOwnHistory(h[..|h| - 1], id);
      if h[|h| - 1].workId == id {
        var before := HistoryOf(h[..|h| - 1], id);
        var own := before + [h[|h| - 1]];
        assert HistoryOf(h, id) == own && own[..|own| - 1] == before && own[|own| - 1] == h[|h| - 1];
      } else {
        assert HistoryOf(h, id) == HistoryOf(h[..|h| - 1], id);
      }
    }
  }
}
