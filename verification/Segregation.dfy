/** Segregation of duties: who passed TL verification may not also verify as CA. */
module Segregation {
  import opened Tables
  import opened Practice
  import opened Gates
  import opened GateSafety
  import Visibility
  import Text

  /** No CA verification at k by the actor of the latest TL pass before it. */
  ghost predicate Separate(h: seq<Entry>, k: nat)
    requires k < |h|
  {
    h[k].action.ActVerifyCA? ==> Differs(h[..k], h[k])
  }

  /** The entry's actor is not the latest TL passer of the given history. */
  predicate Differs(h: seq<Entry>, e: Entry) {
    LatestTLPass(h, e.workId) == "" || LatestTLPass(h, e.workId) != e.actorId
  }

  // --- whole-call runs ---

  predicate WholeCalls(steps: seq<Step>) {
    forall k :: 0 <= k < |steps| ==> !steps[k].Begin? && !steps[k].Check? && !steps[k].Commit?
  }

  lemma DecidedDiffers(b: Board, actor: Actor, id: string, gate: Gate)
    requires Decide(b, actor, id, gate).Success?
    ensures var e := Decide(b, actor, id, gate).value.entry;
            e.action.ActVerifyCA? ==> e.workId == id && Differs(b.history, e)
  {
  }

  ghost predicate AllSeparate(h: seq<Entry>) {
    forall k :: 0 <= k < |h| ==> Separate(h, k)
  }

  lemma SeparateAppend(h: seq<Entry>, e: Entry)
    requires AllSeparate(h) && (e.action.ActVerifyCA? ==> Differs(h, e))
    ensures AllSeparate(h + [e])
  {
    var h' := h + [e];
    forall k | 0 <= k < |h'| ensures Separate(h', k) {
      assert h'[..k] == h[..k];
      if k == |h| {
        assert h[..k] == h;
      } else {
        assert Separate(h, k);
      }
    }
  }

  lemma {:induction false} RunFromSeparate(w: World, steps: seq<Step>)
    requires AllPending(w) && AllSeparate(w.board.history) && WholeCalls(steps)
    ensures AllSeparate(RunFrom(w, steps).board.history)
    decreases |steps|
  {
    if steps != [] {
      var eff := StepEffect(w, steps[0]);
      PendingKept(w, steps[0]);
      if eff.Committed? {
        assert steps[0].Whole?;
        DecidedDiffers(w.board, steps[0].actor, steps[0].id, steps[0].gate);
        SeparateAppend(w.board.history, eff.e);
      }
      assert PictureOf(Next(w, steps[0])).history == Next(w, steps[0]).board.history;
      RunFromSeparate(Next(w, steps[0]), steps[1..]);
    }
  }

  /** Over whole-call runs, every CA verification, pass or fail, is by someone other
      than the actor of the latest TL pass before it. */
  lemma SegregationOfDuties(steps: seq<Step>)
    requires WholeCalls(steps)
    ensures AllSeparate(Run(steps).board.history)
  {
    RunFromSeparate(EmptyWorld, steps);
  }

  // --- every interleaving ---

  /** The check held of some earlier history: the one the call read. */
  ghost predicate SeparateWhenRead(h: seq<Entry>, k: nat)
    requires k < |h|
  {
    h[k].action.ActVerifyCA? ==> exists n: nat :: n <= k && Differs(h[..n], h[k])
  }

  ghost predicate ReadsHeld(w: World) {
    && (forall k :: 0 <= k < |w.board.history| ==> SeparateWhenRead(w.board.history, k))
    && (forall c :: c in w.calls && w.calls[c].Decided? ==> HeldWhenRead(w.board.history, w.calls[c]))
  }

  ghost predicate HeldWhenRead(h: seq<Entry>, f: InFlight)
    requires f.Decided?
  {
    f.seen <= |h| && (f.write.entry.action.ActVerifyCA? ==> Differs(h[..f.seen], f.write.entry))
  }

  lemma ReadsAppend(h: seq<Entry>, e: Entry, n: nat)
    requires forall k :: 0 <= k < |h| ==> SeparateWhenRead(h, k)
    requires n <= |h| && (e.action.ActVerifyCA? ==> Differs(h[..n], e))
    ensures forall k :: 0 <= k < |h| + 1 ==> SeparateWhenRead(h + [e], k)
  {
    var h' := h + [e];
    forall k | 0 <= k < |h'| ensures SeparateWhenRead(h', k) {
      if k < |h| {
        assert SeparateWhenRead(h, k);
        if h[k].action.ActVerifyCA? {
          var m: nat :| m <= k && Differs(h[..m], h[k]);
          assert h'[..m] == h[..m];
        }
      } else {
        assert h'[..n] == h[..n];
      }
    }
  }

  lemma CommitKeepsReads(w: World, step: Step, e: Entry, n: nat)
    requires ReadsHeld(w) && n <= |w.board.history|
    requires e.action.ActVerifyCA? ==> Differs(w.board.history[..n], e)
    requires Next(w, step).board.history == w.board.history + [e]
    requires forall c :: c in Next(w, step).calls ==> c in w.calls && Next(w, step).calls[c] == w.calls[c]
    ensures ReadsHeld(Next(w, step))
  {
    ReadsAppend(w.board.history, e, n);
    forall c | c in Next(w, step).calls && w.calls[c].Decided?
      ensures HeldWhenRead(w.board.history + [e], w.calls[c])
    {
      assert HeldWhenRead(w.board.history, w.calls[c]);
      assert (w.board.history + [e])[..w.calls[c].seen] == w.board.history[..w.calls[c].seen];
    }
  }

  lemma CheckKeepsReads(w: World, step: Step)
    requires ReadsHeld(w) && step.Check?
    ensures ReadsHeld(Next(w, step))
  {
    assert w.board.history[..|w.board.history|] == w.board.history;
    if step.call in w.calls && w.calls[step.call].Reading? {
      var f := w.calls[step.call];
      if Decide(AsRead(w.board, f), f.actor, f.id, f.gate).Success? {
        DecidedDiffers(AsRead(w.board, f), f.actor, f.id, f.gate);
      }
    }
  }

  lemma StepKeepsReads(w: World, step: Step)
    requires AllPending(w) && ReadsHeld(w)
    ensures ReadsHeld(Next(w, step))
  {
    var eff := StepEffect(w, step);
    var h := w.board.history;
    assert h[..|h|] == h;
    assert PictureOf(Next(w, step)).history == Next(w, step).board.history;
    if step.Check? {
      CheckKeepsReads(w, step);
    } else if eff.Committed? {
      if step.Commit? {
        CommitKeepsReads(w, step, eff.e, w.calls[step.call].seen);
      } else {
        DecidedDiffers(w.board, step.actor, step.id, step.gate);
        CommitKeepsReads(w, step, eff.e, |h|);
      }
    }
  }

  lemma {:induction false} RunFromReads(w: World, steps: seq<Step>)
    requires AllPending(w) && ReadsHeld(w)
    ensures AllPending(RunFrom(w, steps)) && ReadsHeld(RunFrom(w, steps))
    decreases |steps|
  {
    if steps != [] {
      PendingKept(w, steps[0]);
      StepKeepsReads(w, steps[0]);
      RunFromReads(Next(w, steps[0]), steps[1..]);
    }
  }

  // --- what must happen for a late CA verification to break segregation ---

  /** The latest TL pass of the item, at k. */
  predicate IsLatestPass(h: seq<Entry>, k: nat, id: string)
    requires k < |h|
  {
    IsTLPass(h[k], id) && forall m :: k < m < |h| ==> !IsTLPass(h[m], id)
  }

  lemma {:induction false} LatestPassAt(h: seq<Entry>, id: string, k: nat)
    requires k < |h| && IsLatestPass(h, k, id)
    ensures LatestTLPass(h, id) == h[k].actorId
  {
    if k < |h| - 1 {
      LatestPassAt(h[..|h| - 1], id, k);
    }
  }

  lemma {:induction false} LatestPassExists(h: seq<Entry>, id: string) returns (k: nat)
    requires LatestTLPass(h, id) != ""
    ensures k < |h| && IsLatestPass(h, k, id) && h[k].actorId == LatestTLPass(h, id)
  {
    if IsTLPass(h[|h| - 1], id) {
      k := |h| - 1;
    } else {
      k := LatestPassExists(h[..|h| - 1], id);
    }
  }

  /** An entry that sends the item to review by its team leader. */
  predicate SentToReview(e: Entry, id: string) {
    e.workId == id && e.to.ReadyForTLVerify?
  }

  /** Since a point at which the item was not under review: it is under review now, or
      was passed, only after having been sent there again. */
  ghost predicate CameThroughReview(h: seq<Entry>, at: nat, id: string, now: Status) {
    && (now.ReadyForTLVerify? ==> exists j :: at <= j < |h| && SentToReview(h[j], id))
    && (forall k :: at <= k < |h| && IsTLPass(h[k], id) ==> exists j :: at <= j < k && SentToReview(h[j], id))
  }

  function ItemOf(f: InFlight): string {
    if f.Reading? then f.id else f.write.entry.workId
  }

  function StatusAsRead(f: InFlight): Status {
    if f.Reading? then Normalize(f.item.status) else f.write.entry.from
  }

  ghost predicate FlightRound(v: Picture, f: InFlight) {
    && ItemOf(f) in v.statuses && f.at <= |v.history| && (f.Decided? ==> f.at <= f.seen)
    && (!StatusAsRead(f).ReadyForTLVerify? ==> CameThroughReview(v.history, f.at, ItemOf(f), v.statuses[ItemOf(f)]))
  }

  ghost predicate AllRound(w: World) {
    forall c :: c in w.calls ==> FlightRound(PictureOf(w), w.calls[c])
  }

  lemma CommitRound(h: seq<Entry>, e: Entry, at: nat, id: string, now: Status)
    requires CameThroughReview(h, at, id, now) && at <= |h| && LegalEdge(e) && (e.workId == id ==> now == e.from)
    ensures CameThroughReview(h + [e], at, id, if e.workId == id then e.to else now)
  {
    var h' := h + [e];
    if now.ReadyForTLVerify? {
      var j :| at <= j < |h| && SentToReview(h[j], id);
      assert SentToReview(h'[j], id);
    }
    if e.workId == id && e.to.ReadyForTLVerify? {
      assert SentToReview(h'[|h|], id);
    }
    forall k | at <= k < |h'| && IsTLPass(h'[k], id) ensures exists j :: at <= j < k && SentToReview(h'[j], id) {
      if k < |h| {
        var j :| at <= j < k && SentToReview(h[j], id);
        assert SentToReview(h'[j], id);
      }
    }
  }

  lemma EffectRound(v: Picture, eff: Effect, f: InFlight)
    requires FlightRound(v, f) && Allowed(v, eff)
    ensures FlightRound(After(v, eff), f)
  {
    if eff.Committed? && !StatusAsRead(f).ReadyForTLVerify? {
      CommitRound(v.history, eff.e, f.at, ItemOf(f), v.statuses[ItemOf(f)]);
    }
  }

  lemma DecidedKeepsRead(b: Board, actor: Actor, id: string, gate: Gate)
    requires Decide(b, actor, id, gate).Success?
    ensures id in b.work && var e := Decide(b, actor, id, gate).value.entry;
            e.workId == id && e.from == Normalize(b.work[id].status)
  {
  }

  /** A call that reads or decides in this step, or was in flight before. */
  lemma CallsRound(w: World, step: Step, c: nat)
    requires AllRound(w) && c in Next(w, step).calls
    ensures (c in w.calls && Next(w, step).calls[c] == w.calls[c]) || FlightRound(PictureOf(w), Next(w, step).calls[c])
  {
    NextCalls(w, step, c);
    if c !in w.calls {
      BeginRound(w, step);
    } else if step.Check? && step.call == c && w.calls[c].Reading? {
      CheckRound(w, c);
    }
  }

  /** Only its own first two steps change a call in flight. */
  lemma NextCalls(w: World, step: Step, c: nat)
    requires c in Next(w, step).calls
    ensures c in w.calls || (step.Begin? && step.call == c)
    ensures c in w.calls && Next(w, step).calls[c] != w.calls[c]
            ==> step.Check? && step.call == c && w.calls[c].Reading?
  {
  }

  lemma BeginRound(w: World, step: Step)
    requires step.Begin? && step.call !in w.calls && step.call in Next(w, step).calls
    ensures FlightRound(PictureOf(w), Next(w, step).calls[step.call])
  {
  }

  lemma CheckRound(w: World, c: nat)
    requires AllRound(w) && c in w.calls && w.calls[c].Reading? && c in Next(w, Check(c)).calls
    ensures FlightRound(PictureOf(w), Next(w, Check(c)).calls[c])
  {
    var f := w.calls[c];
    assert FlightRound(PictureOf(w), f);
    if Decide(AsRead(w.board, f), f.actor, f.id, f.gate).Success? {
      DecidedKeepsRead(AsRead(w.board, f), f.actor, f.id, f.gate);
    }
  }

  lemma StepKeepsRound(w: World, step: Step)
    requires AllPending(w) && AllRound(w)
    ensures AllRound(Next(w, step))
  {
    var eff := StepEffect(w, step);
    forall c | c in Next(w, step).calls ensures FlightRound(PictureOf(Next(w, step)), Next(w, step).calls[c]) {
      CallsRound(w, step, c);
      EffectRound(PictureOf(w), eff, Next(w, step).calls[c]);
    }
  }

  lemma {:induction false} RunFromRound(w: World, steps: seq<Step>)
    requires AllPending(w) && AllRound(w)
    ensures AllRound(RunFrom(w, steps))
    decreases |steps|
  {
    if steps != [] {
      PendingKept(w, steps[0]);
      StepKeepsRound(w, steps[0]);
      RunFromRound(Next(w, steps[0]), steps[1..]);
    }
  }

  /** After the call read the history, its own actor passed the item, and nobody has
      passed it since. */
  predicate Overtaken(h: seq<Entry>, f: InFlight, k: nat)
    requires f.Decided?
  {
    && f.seen <= k < |h| && IsLatestPass(h, k, f.write.entry.workId)
    && h[k].actorId == f.write.entry.actorId != ""
  }

  lemma DiffersIs(h: seq<Entry>, f: InFlight)
    requires f.Decided? && f.write.entry.action.ActVerifyCA? && HeldWhenRead(h, f)
    ensures Differs(h, f.write.entry) <==> !exists k: nat :: Overtaken(h, f, k)
  {
    var e := f.write.entry;
    if k: nat :| Overtaken(h, f, k) {
      LatestPassAt(h, e.workId, k);
    }
    if !Differs(h, e) {
      var k := LatestPassExists(h, e.workId);
      if k < f.seen {
        assert IsLatestPass(h[..f.seen], k, e.workId);
        LatestPassAt(h[..f.seen], e.workId, k);
      }
      assert Overtaken(h, f, k);
    }
  }

  /** In every interleaving, a CA verification that commits respects segregation exactly
      when its actor has not passed the item, as the latest to do so, since the call read
      the history. Where its actor has, the item had left CA verification after the call
      read it, was sent to review again, was passed there, and is back. */
  lemma CommitSeparateExactlyWhen(steps: seq<Step>, call: nat)
    requires call in Run(steps).calls && Run(steps).calls[call].Decided?
    requires Run(steps).calls[call].write.entry.action.ActVerifyCA?
    requires Apply(Run(steps).board, Run(steps).calls[call].write).Success?
    ensures var w, f := Run(steps), Run(steps).calls[call];
            var h := w.board.history;
            && Next(w, Commit(call)).board.history == h + [f.write.entry] && f.at <= |h|
            && (Separate(h + [f.write.entry], |h|) <==> !exists k: nat :: Overtaken(h, f, k))
            && (forall k: nat :: Overtaken(h, f, k)
                  ==> exists j :: f.at <= j < k && SentToReview(h[j], f.write.entry.workId))
            && Normalize(w.board.work[f.write.entry.workId].status).ReadyForCAVerify?
  {
    RunFromReads(EmptyWorld, steps);
    RunFromRound(EmptyWorld, steps);
    CommitSeparate(Run(steps), call);
  }

  lemma CommitSeparate(w: World, call: nat)
    requires AllPending(w) && ReadsHeld(w) && AllRound(w)
    requires call in w.calls && w.calls[call].Decided? && w.calls[call].write.entry.action.ActVerifyCA?
    requires Apply(w.board, w.calls[call].write).Success?
    ensures var h, f := w.board.history, w.calls[call];
            && Next(w, Commit(call)).board.history == h + [f.write.entry] && f.at <= |h|
            && (Separate(h + [f.write.entry], |h|) <==> !exists k: nat :: Overtaken(h, f, k))
            && (forall k: nat :: Overtaken(h, f, k)
                  ==> exists j :: f.at <= j < k && SentToReview(h[j], f.write.entry.workId))
            && Normalize(w.board.work[f.write.entry.workId].status).ReadyForCAVerify?
  {
    var h, f := w.board.history, w.calls[call];
    assert HeldWhenRead(h, f) && FlightRound(PictureOf(w), f) && FlightPending(f);
    CommitAppends(w, call);
    DiffersIs(h, f);
    assert (h + [f.write.entry])[..|h|] == h;
  }

  lemma CommitAppends(w: World, call: nat)
    requires call in w.calls && w.calls[call].Decided? && Pending(w.calls[call].write)
    requires Apply(w.board, w.calls[call].write).Success?
    ensures var e := w.calls[call].write.entry;
            && Next(w, Commit(call)).board.history == w.board.history + [e]
            && e.workId in w.board.work && Normalize(w.board.work[e.workId].status) == e.from
  {
  }

  /** In every interleaving, each CA verification was by someone other than the
      latest TL passer of the history its call had read. */
  lemma SeparateWhenReadAlways(steps: seq<Step>)
    ensures forall k :: 0 <= k < |Run(steps).board.history| ==> SeparateWhenRead(Run(steps).board.history, k)
  {
    RunFromReads(EmptyWorld, steps);
  }

  // --- an interleaving in which one actor does both ---

  function SomePartner(id: string): Actor {
    Actor(id, Partner, {}, [], "DEFAULT")
  }

  predicate Short(p: string) { |p| <= 1 }

  /** The item "w" on the board: readable, in the default firm, in a given status. */
  ghost predicate Holds(b: Board, st: Status) {
    && "w" in b.work && !b.work["w"].deleted && b.work["w"].status == Code(st)
    && var w := b.work["w"];
       Short(w.createdBy) && Short(w.assignedBy) && Short(w.assignedTo) && Short(w.ownerCA) && Short(w.tl)
       && Short(w.assigneeId) && Short(w.id)
  }

  lemma PartnerViews(b: Board, st: Status, actor: Actor)
    requires Holds(b, st) && actor.role.Partner? && actor.firmKey == "DEFAULT"
    ensures Visibility.CanView(actor, b.work["w"])
  {
    forall p | p in Visibility.Parties(b.work["w"]) ensures !Visibility.SeededFirm(p) {
      assert Short(p);
    }
  }

  /** Moves, TL passes and CA rejections by partners go through and are recorded. */
  lemma PartnerGate(b: Board, from: Status, to: Status, id: string, gate: Gate, action: Action)
    requires Holds(b, from) && Short(id)
    requires (gate == Move(Code(to), "", "") && action == ActTransition && CanTransition(from, to) && !IsTerminal(from)
              && !to.Cancelled?)
          || (gate == TLVerify(Pass, "") && action == ActVerifyTL && from.ReadyForTLVerify? && to.ReadyForCAVerify?)
          || (gate == CAVerify(Fail, "x") && action == ActVerifyCA && from.ReadyForCAVerify? && to.CARejected?
              && LatestTLPass(b.history, "w") != id)
    ensures CallGate(b, SomePartner(id), "w", gate).Success?
    ensures var b' := CallGate(b, SomePartner(id), "w", gate).value;
            Holds(b', to) && exists e: Entry :: b'.history == b.history + [e] && e.workId == "w" && e.to == to
                                                && e.action == action && e.actorId == id
  {
    PartnerViews(b, from, SomePartner(id));
    assert !Blank("x") by {
      assert Text.TrimLeft("x") == "x" && Text.TrimRight("x") == "x";
    }
    var g := Decide(b, SomePartner(id), "w", gate).value;
    var b' := CallGate(b, SomePartner(id), "w", gate).value;
    assert b'.history == b.history + [g.entry];
  }

  /** Unassigned work with a title, needing neither a company nor a parent, asked
      for as open, and naming nobody of a seeded firm. */
  predicate Plain(draft: WorkItem) {
    && Assignee(draft) == "" && !Blank(draft.title) && !NeedsCompany(draft.workType) && draft.parentId == ""
    && Normalize(draft.status).Open? && Short(draft.ownerCA) && Short(draft.tl)
  }

  /** The least such work. */
  function TitleOnly(): WorkItem {
    AssignedDraft(Open).(assignedTo := "", assigneeId := "")
  }

  lemma TitleOnlyIsPlain(w: WorkItem)
    requires w == TitleOnly()
    ensures Plain(w)
  {
    PlainTexts();
    PlainWhen(w);
  }

  lemma PlainTexts()
    ensures !Blank("t") && !NeedsCompany("")
  {
    assert Text.TrimLeft("t") == "t" && Text.TrimRight("t") == "t";
  }

  lemma PlainWhen(w: WorkItem)
    requires w.assignedTo == "" && w.assigneeId == "" && w.ownerCA == "" && w.tl == "" && w.parentId == ""
    requires !Blank(w.title) && !NeedsCompany(w.workType) && w.status == Code(Open)
    ensures Plain(w)
  {
    UnassignedIs(w);
  }

  lemma UnassignedIs(w: WorkItem)
    requires w.assignedTo == "" && w.assigneeId == ""
    ensures Assignee(w) == ""
  {
    assert ["", ""][1..] == [""] && [""][1..] == [];
    assert Text.Trim("") == "";
  }

  /** A partner's plain unassigned work is accepted as open. */
  lemma Accepted(b: Board, draft: WorkItem, id: string, who: string)
    requires Plain(draft) && Short(id) && Short(who)
    ensures var r := NewWork(b, SomePartner(who), id, draft, Employee);
            && r.Success? && !r.value.deleted && r.value.status == Code(Open)
            && Short(r.value.createdBy) && Short(r.value.assignedBy)
            && Short(r.value.assignedTo) && Short(r.value.ownerCA)
            && Short(r.value.tl) && Short(r.value.assigneeId) && Short(r.value.id)
  {
    var kept := draft.(id := id, priority := NormalizePriority(draft.priority), assignedTo := "", assigneeId := "",
                       status := Code(Open), overlay := Text.Upper(Text.Trim(draft.overlay)),
                       assignedBy := who, createdBy := who, updatedBy := who, deleted := false);
    Visibility.AssigneeIsParty(kept);
  }

  /** Rework by "p" and a TL pass by the given partner. */
  function Rework(who: string): seq<Step> {
    [Whole(SomePartner("p"), "w", Move(Code(InProgress), "", "")),
     Whole(SomePartner("p"), "w", Move(Code(ReadyForTLVerify), "", "")),
     Whole(SomePartner(who), "w", TLVerify(Pass, ""))]
  }

  /** "q" reads as CA verifier; before the commit, "r" rejects and "q" passes TL. */
  function Overtaking(draft: WorkItem): seq<Step> {
    [CreateWork(SomePartner("p"), "w", draft, Employee)] + Rework("p")
    + [Begin(0, SomePartner("q"), "w", CAVerify(Pass, "")), Check(0)]
    + [Whole(SomePartner("r"), "w", CAVerify(Fail, "x"))] + Rework("q")
    + [Commit(0)]
  }

  /** The world while the overtaken call waits: item, latest TL passer, calls. */
  ghost predicate Stage(w: World, st: Status, passer: string, calls: map<nat, InFlight>) {
    Holds(w.board, st) && LatestTLPass(w.board.history, "w") == passer && w.calls == calls
  }

  lemma StageGate(w: World, from: Status, to: Status, passer: string, id: string, gate: Gate, action: Action)
    requires Stage(w, from, passer, w.calls) && Short(id)
    requires (gate == Move(Code(to), "", "") && action == ActTransition && CanTransition(from, to) && !IsTerminal(from)
              && !to.Cancelled?)
          || (gate == TLVerify(Pass, "") && action == ActVerifyTL && from.ReadyForTLVerify? && to.ReadyForCAVerify?)
          || (gate == CAVerify(Fail, "x") && action == ActVerifyCA && from.ReadyForCAVerify? && to.CARejected?
              && passer != id)
    ensures Stage(Next(w, Whole(SomePartner(id), "w", gate)), to, if action.ActVerifyTL? then id else passer, w.calls)
  {
    PartnerGate(w.board, from, to, id, gate, action);
    var h' := Next(w, Whole(SomePartner(id), "w", gate)).board.history;
    assert h'[..|h'| - 1] == w.board.history;
  }

  lemma FirstStage(draft: WorkItem)
    requires Plain(draft)
    ensures Stage(RunFrom(EmptyWorld, [CreateWork(SomePartner("p"), "w", draft, Employee)]), Open, "", map[])
  {
    Accepted(EmptyWorld.board, draft, "w", "p");
    RunOne(EmptyWorld, CreateWork(SomePartner("p"), "w", draft, Employee));
  }

  lemma RunOne(w: World, step: Step)
    ensures RunFrom(w, [step]) == Next(w, step)
  {
    assert [step][1..] == [];
  }

  lemma {:induction false} RunConcat(w: World, a: seq<Step>, c: seq<Step>)
    ensures RunFrom(w, a + c) == RunFrom(RunFrom(w, a), c)
    decreases |a|
  {
    if a == [] {
      assert a + c == c;
    } else {
      assert (a + c)[1..] == a[1..] + c;
      RunConcat(Next(w, a[0]), a[1..], c);
    }
  }

  lemma RunThree(w: World, a: Step, c: Step, d: Step)
    ensures RunFrom(w, [a, c, d]) == Next(Next(Next(w, a), c), d)
  {
    RunConcat(w, [a], [c, d]);
    RunConcat(Next(w, a), [c], [d]);
    assert [a] + [c, d] == [a, c, d] && [c] + [d] == [c, d];
    RunOne(w, a);
    RunOne(Next(w, a), c);
    RunOne(Next(Next(w, a), c), d);
  }

  lemma StageRework(w: World, from: Status, passer: string, who: string)
    requires Stage(w, from, passer, w.calls) && (from.Open? || from.CARejected?) && Short(who)
    ensures Stage(RunFrom(w, Rework(who)), ReadyForCAVerify, who, w.calls)
  {
    var a, c, d := Rework(who)[0], Rework(who)[1], Rework(who)[2];
    StageGate(w, from, InProgress, passer, "p", Move(Code(InProgress), "", ""), ActTransition);
    StageGate(Next(w, a), InProgress, ReadyForTLVerify, passer, "p", Move(Code(ReadyForTLVerify), "", ""),
              ActTransition);
    StageGate(Next(Next(w, a), c), ReadyForTLVerify, ReadyForCAVerify, passer, who, TLVerify(Pass, ""), ActVerifyTL);
    RunThree(w, a, c, d);
  }

  lemma StageReject(w: World)
    requires Stage(w, ReadyForCAVerify, "p", w.calls)
    ensures Stage(RunFrom(w, [Whole(SomePartner("r"), "w", CAVerify(Fail, "x"))]), CARejected, "p", w.calls)
  {
    StageGate(w, ReadyForCAVerify, CARejected, "p", "r", CAVerify(Fail, "x"), ActVerifyCA);
    RunOne(w, Whole(SomePartner("r"), "w", CAVerify(Fail, "x")));
  }

  /** A waiting CA verification by "q". */
  ghost predicate WaitingCA(f: InFlight) {
    f.Decided? && f.write.entry.action == ActVerifyCA && f.write.entry.actorId == "q" && f.write.entry.workId == "w"
    && f.write.expected == Code(ReadyForCAVerify)
  }

  lemma StageBegin(w: World) returns (f: InFlight)
    requires Stage(w, ReadyForCAVerify, "p", map[])
    ensures WaitingCA(f)
    ensures Stage(RunFrom(w, [Begin(0, SomePartner("q"), "w", CAVerify(Pass, "")), Check(0)]), ReadyForCAVerify, "p",
                  map[0 := f])
  {
    var begin := Begin(0, SomePartner("q"), "w", CAVerify(Pass, ""));
    RunConcat(w, [begin], [Check(0)]);
    RunOne(w, begin);
    RunOne(Next(w, begin), Check(0));
    assert [begin] + [Check(0)] == [begin, Check(0)];
    var n := |w.board.history|;
    var r := Reading(SomePartner("q"), "w", CAVerify(Pass, ""), w.board.work["w"], n);
    assert Next(w, begin).calls == map[0 := r];
    var d := Decide(AsRead(w.board, r), SomePartner("q"), "w", CAVerify(Pass, ""));
    assert d.Success?;
    f := Decided(r.actor, r.gate, r.item, d.value, n, n);
  }

  lemma LateCommit(w: World, f: InFlight)
    requires Stage(w, ReadyForCAVerify, "q", map[0 := f]) && WaitingCA(f)
    ensures !AllSeparate(RunFrom(w, [Commit(0)]).board.history)
  {
    RunOne(w, Commit(0));
    var h := Next(w, Commit(0)).board.history;
    assert h == w.board.history + [f.write.entry];
    assert h[..|h| - 1] == w.board.history;
    assert !Separate(h, |h| - 1);
  }

  /** The six parts of the run, each from where the one before it ended. */
  lemma Parts(w: World, a: seq<Step>, b: seq<Step>, c: seq<Step>, d: seq<Step>, e: seq<Step>, f: seq<Step>)
    ensures RunFrom(w, a + b + c + d + e + f)
         == RunFrom(RunFrom(RunFrom(RunFrom(RunFrom(RunFrom(w, a), b), c), d), e), f)
  {
    RunConcat(w, a, b);
    RunConcat(w, a + b, c);
    RunConcat(w, a + b + c, d);
    RunConcat(w, a + b + c + d, e);
    RunConcat(w, a + b + c + d + e, f);
  }

  /** Interleaved, one actor can pass TL verification and then CA verification: the
      call read before its actor's own TL pass, and the status came round again. */
  lemma InterleavingCanBreakSegregation(draft: WorkItem)
    requires Plain(draft)
    ensures !AllSeparate(Run(Overtaking(draft)).board.history)
  {
    var create, begin, reject, commit := [CreateWork(SomePartner("p"), "w", draft, Employee)],
      [Begin(0, SomePartner("q"), "w", CAVerify(Pass, "")), Check(0)],
      [Whole(SomePartner("r"), "w", CAVerify(Fail, "x"))], [Commit(0)];
    FirstStage(draft);
    var w1 := RunFrom(EmptyWorld, create);
    StageRework(w1, Open, "", "p");
    var w2 := RunFrom(w1, Rework("p"));
    var f := StageBegin(w2);
    var w3 := RunFrom(w2, begin);
    StageReject(w3);
    var w4 := RunFrom(w3, reject);
    StageRework(w4, CARejected, "p", "q");
    LateCommit(RunFrom(w4, Rework("q")), f);
    Parts(EmptyWorld, create, Rework("p"), begin, reject, Rework("q"), commit);
  }
}
