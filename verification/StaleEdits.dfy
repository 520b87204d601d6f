/** Edits in two steps. An edit of a work item reads the item; its write-back, which no
    status guard protects, comes later, with anything in between. What that does to the
    safety of the gates, and exactly when it does nothing. */
module StaleEdits {
  import opened Tables
  import opened Practice
  import opened Gates
  import opened GateSafety
  import opened Segregation
  import Text

  /** An edit between its read and its write-back: the item it will store, and the
      length of the history when it read. */
  datatype EditInFlight = EditInFlight(id: string, work: WorkItem, at: nat)

  datatype Floor = Floor(world: World, edits: map<nat, EditInFlight>)

  datatype Act =
    | GateStep(step: Step)
    | ReadEdit(call: nat, step: Step)
    | WriteBack(call: nat)

  const EmptyFloor := Floor(EmptyWorld, map[])

  predicate IsEdit(step: Step) {
    step.UpdateWork? || step.Reassign? || step.AssignSlot?
  }

  /** The item an edit will store, decided on what it read. */
  function DecideEdit(b: Board, step: Step): Result<WorkItem, Error>
    requires IsEdit(step)
  {
    match step
    case UpdateWork(actor, id, q) => EditWork(b, actor, id, q)
    case Reassign(actor, id, toId, toRole) => ReassignWork(b, actor, id, toId, toRole)
    case AssignSlot(actor, id, slot, userId, userRole) => AssignSlotOf(b, actor, id, slot, userId, userRole)
  }

  function Do(f: Floor, act: Act): Floor {
    match act
    case GateStep(step) => f.(world := Next(f.world, step))
    case ReadEdit(call, step) =>
      if call in f.edits || !IsEdit(step) || DecideEdit(f.world.board, step).Failure? then f
      else
        var work := DecideEdit(f.world.board, step).value;
        f.(edits := f.edits[call := EditInFlight(step.id, work, |f.world.board.history|)])
    case WriteBack(call) =>
      if call !in f.edits then f
      else
        var e := f.edits[call];
        Floor(f.world.(board := Store(f.world.board, e.id, e.work)), f.edits - {call})
  }

  function Play(f: Floor, acts: seq<Act>): Floor
    decreases |acts|
  {
    if acts == [] then f else Play(Do(f, acts[0]), acts[1..])
  }

  /** Read and written back with nothing in between, an edit is the whole-call step. */
  lemma UndisturbedEditIsWhole(f: Floor, call: nat, step: Step)
    requires IsEdit(step) && call !in f.edits
    ensures Do(Do(f, ReadEdit(call, step)), WriteBack(call)).world == Next(f.world, step)
  {
  }

  // --- when a write-back is in time ---

  /** The verifications a status claims, all at or after a point of the history and
      with no reopening after them. */
  ghost predicate PassedAgain(h: seq<Entry>, at: nat, id: string, st: Status) {
    if st.ReadyForCAVerify? then
      exists i: nat :: at <= i < |h| && IsTLPass(h[i], id) && NoReopenFrom(h, id, i)
    else
      exists i: nat, j: nat ::
        at <= i < j < |h| && IsTLPass(h[i], id) && IsCAPass(h[j], id) && NoReopenFrom(h, id, i)
  }

  /** The status to be written claims no verification, or the item has not been reopened
      since the edit read it, or has passed again whatever the status claims. */
  ghost predicate InTime(h: seq<Entry>, e: EditInFlight) {
    var st := Normalize(e.work.status);
    Early(st) || !ReopenedSince(h, e.at, e.id) || PassedAgain(h, e.at, e.id, st)
  }

  /** What was safe when read is safe when written exactly when it is in time. */
  lemma SafeExactlyWhenInTime(h: seq<Entry>, e: EditInFlight)
    requires e.at <= |h| && Safe(h[..e.at], e.id, Normalize(e.work.status))
    ensures Safe(h, e.id, Normalize(e.work.status)) <==> InTime(h, e)
  {
    var st := Normalize(e.work.status);
    if !Early(st) {
      if !ReopenedSince(h, e.at, e.id) {
        StillPassed(h, e.at, e.id);
      } else if Safe(h, e.id, st) {
        PassedAfterReopening(h, e.at, e.id, st);
      }
    }
  }

  lemma StillPassed(h: seq<Entry>, at: nat, id: string)
    requires at <= |h| && !ReopenedSince(h, at, id)
    ensures TLPassSince(h[..at], id) ==> TLPassSince(h, id)
    ensures BothPassedSince(h[..at], id) ==> BothPassedSince(h, id)
  {
    var p := h[..at];
    if TLPassSince(p, id) {
      var i: nat :| i < |p| && IsTLPass(p[i], id) && NoReopenFrom(p, id, i);
      NoneReopened(h, at, id, i);
      assert IsTLPass(h[i], id);
    }
    if BothPassedSince(p, id) {
      var i: nat, j: nat :| i < j < |p| && IsTLPass(p[i], id) && IsCAPass(p[j], id) && NoReopenFrom(p, id, i);
      NoneReopened(h, at, id, i);
      assert IsTLPass(h[i], id) && IsCAPass(h[j], id);
    }
  }

  lemma NoneReopened(h: seq<Entry>, at: nat, id: string, i: nat)
    requires at <= |h| && !ReopenedSince(h, at, id) && NoReopenFrom(h[..at], id, i)
    ensures NoReopenFrom(h, id, i)
  {
    forall k | i <= k < |h| && h[k].workId == id ensures !h[k].action.ActReopen? {
      if k < at {
        assert h[..at][k] == h[k];
      }
    }
  }

  lemma PassedAfterReopening(h: seq<Entry>, at: nat, id: string, st: Status)
    requires ReopenedSince(h, at, id) && !Early(st) && Safe(h, id, st)
    ensures PassedAgain(h, at, id, st)
  {
    var k :| at <= k < |h| && h[k].workId == id && h[k].action.ActReopen?;
    if st.ReadyForCAVerify? {
      var i: nat :| i < |h| && IsTLPass(h[i], id) && NoReopenFrom(h, id, i);
      assert k < i;
    } else {
      var i: nat, j: nat :| i < j < |h| && IsTLPass(h[i], id) && IsCAPass(h[j], id) && NoReopenFrom(h, id, i);
      assert k < i;
    }
  }

  // --- what every interleaving keeps ---

  /** Every item created early is safe as it stands. */
  ghost predicate AllSafe(f: Floor) {
    forall id :: id in f.world.created && Early(f.world.created[id]) ==> SafeItem(f.world, id)
  }

  /** An edit in flight read a known item, which was then safe if created early. */
  ghost predicate EditSound(v: Picture, e: EditInFlight) {
    && e.work.status.Code? && e.id in v.created && e.at <= |v.history|
    && (Early(v.created[e.id]) ==> Safe(v.history[..e.at], e.id, Normalize(e.work.status)))
  }

  ghost predicate EditsSound(f: Floor) {
    forall c :: c in f.edits ==> EditSound(PictureOf(f.world), f.edits[c])
  }

  ghost predicate Orderly(f: Floor) {
    AllPending(f.world) && Tidy(PictureOf(f.world)) && EditsSound(f)
  }

  lemma AllSafeIs(f: Floor)
    requires Tidy(PictureOf(f.world))
    ensures AllSafe(f) <==> SafePicture(PictureOf(f.world))
  {
    var v := PictureOf(f.world);
    assert forall id :: id in v.created ==> id in v.statuses;
    assert forall id :: id in f.world.board.work ==> v.statuses[id] == Normalize(f.world.board.work[id].status);
  }

  lemma EditKept(v: Picture, eff: Effect, e: EditInFlight)
    requires Tidy(v) && Allowed(v, eff) && EditSound(v, e)
    ensures EditSound(After(v, eff), e)
  {
    assert After(v, eff).history[..e.at] == v.history[..e.at];
  }

  lemma GateStepKeeps(f: Floor, step: Step)
    requires Orderly(f) && AllSafe(f)
    ensures Orderly(Do(f, GateStep(step))) && AllSafe(Do(f, GateStep(step)))
  {
    var v, f' := PictureOf(f.world), Do(f, GateStep(step));
    var eff := StepEffect(f.world, step);
    PendingKept(f.world, step);
    AllSafeIs(f);
    EffectKeepsSafe(v, eff);
    AllSafeIs(f');
    forall c | c in f'.edits ensures EditSound(PictureOf(f'.world), f'.edits[c]) {
      EditKept(v, eff, f.edits[c]);
    }
  }

  /** An edit leaves the status it read, or sets one that claims no verification. */
  lemma EditDecides(b: Board, step: Step)
    requires IsEdit(step) && DecideEdit(b, step).Success?
    ensures step.id in b.work && !b.work[step.id].deleted
    ensures var st := DecideEdit(b, step).value.status;
            st == b.work[step.id].status || (st.Code? && Early(Normalize(st)))
  {
  }

  lemma EarlyIsSafe(h: seq<Entry>, id: string, st: Status)
    requires Early(st)
    ensures Safe(h, id, st)
  {
  }

  lemma ReadKeeps(f: Floor, call: nat, step: Step)
    requires Orderly(f) && AllSafe(f)
    ensures Orderly(Do(f, ReadEdit(call, step))) && AllSafe(Do(f, ReadEdit(call, step)))
  {
    if call !in f.edits && IsEdit(step) && DecideEdit(f.world.board, step).Success? {
      ReadIsSound(f, step);
    }
  }

  lemma ReadIsSound(f: Floor, step: Step)
    requires Orderly(f) && AllSafe(f) && IsEdit(step) && DecideEdit(f.world.board, step).Success?
    ensures EditSound(PictureOf(f.world),
                      EditInFlight(step.id, DecideEdit(f.world.board, step).value, |f.world.board.history|))
  {
    var b, v := f.world.board, PictureOf(f.world);
    EditDecides(b, step);
    assert step.id in v.statuses;
    assert v.history[..|b.history|] == b.history;
    var st := Normalize(DecideEdit(b, step).value.status);
    if Early(st) {
      EarlyIsSafe(b.history, step.id, st);
    } else if Early(v.created[step.id]) {
      assert SafeItem(f.world, step.id);
    }
  }

  /** The write-back reaches an item that is there and was created early. */
  predicate Lands(f: Floor, call: nat) {
    && call in f.edits
    && var id := f.edits[call].id;
       && id in f.world.board.work && !f.world.board.work[id].deleted
       && id in f.world.created && Early(f.world.created[id])
  }

  lemma WrittenStatuses(b: Board, e: EditInFlight)
    ensures var s, s' := Statuses(b.work), Statuses(Store(b, e.id, e.work).work);
            s' == if e.id in b.work && !b.work[e.id].deleted then s[e.id := Normalize(e.work.status)] else s
  {
    var s, s' := Statuses(b.work), Statuses(Store(b, e.id, e.work).work);
    if e.id in b.work && !b.work[e.id].deleted {
      assert s' == s[e.id := Normalize(e.work.status)];
    }
  }

  lemma WrittenPending(f: Floor, call: nat)
    requires AllPending(f.world) && call in f.edits && f.edits[call].work.status.Code?
    ensures AllPending(Do(f, WriteBack(call)).world)
  {
  }

  lemma WriteBackOrderly(f: Floor, call: nat)
    requires Orderly(f)
    ensures Orderly(Do(f, WriteBack(call)))
  {
    if call in f.edits {
      var v, f' := PictureOf(f.world), Do(f, WriteBack(call));
      WrittenStatuses(f.world.board, f.edits[call]);
      WrittenPending(f, call);
      assert Tidy(PictureOf(f'.world));
      forall c | c in f'.edits ensures EditSound(PictureOf(f'.world), f'.edits[c]) {
        assert EditSound(v, f.edits[c]);
      }
    }
  }

  /** A write-back keeps every item created early safe exactly when it lands on none, or
      is in time. */
  lemma WriteBackSafeExactlyWhen(f: Floor, call: nat)
    requires Orderly(f) && AllSafe(f)
    ensures AllSafe(Do(f, WriteBack(call)))
       <==> (Lands(f, call) ==> InTime(f.world.board.history, f.edits[call]))
  {
    if call in f.edits {
      var e, f' := f.edits[call], Do(f, WriteBack(call));
      assert EditSound(PictureOf(f.world), e);
      OthersStaySafe(f, call);
      if Lands(f, call) {
        SafeExactlyWhenInTime(f.world.board.history, e);
        assert SafeItem(f'.world, e.id) <==> Safe(f.world.board.history, e.id, Normalize(e.work.status));
      }
    }
  }

  lemma OthersStaySafe(f: Floor, call: nat)
    requires AllSafe(f) && call in f.edits
    ensures var f' := Do(f, WriteBack(call));
            forall id :: id in f'.world.created && Early(f'.world.created[id])
                         && (id != f.edits[call].id || !Lands(f, call))
                     ==> SafeItem(f'.world, id)
  {
    var f' := Do(f, WriteBack(call));
    forall id | id in f'.world.created && Early(f'.world.created[id]) && (id != f.edits[call].id || !Lands(f, call))
      ensures SafeItem(f'.world, id)
    {
      assert SafeItem(f.world, id);
    }
  }

  ghost predicate SafeThroughout(f: Floor, acts: seq<Act>)
    decreases |acts|
  {
    AllSafe(f) && (acts == [] || SafeThroughout(Do(f, acts[0]), acts[1..]))
  }

  ghost predicate InTimeThroughout(f: Floor, acts: seq<Act>)
    decreases |acts|
  {
    acts == [] ||
    (&& (acts[0].WriteBack? && Lands(f, acts[0].call) ==> InTime(f.world.board.history, f.edits[acts[0].call]))
     && InTimeThroughout(Do(f, acts[0]), acts[1..]))
  }

  lemma {:induction false} RunSafeExactlyWhen(f: Floor, acts: seq<Act>)
    requires Orderly(f) && AllSafe(f)
    ensures SafeThroughout(f, acts) <==> InTimeThroughout(f, acts)
    decreases |acts|
  {
    if acts != [] {
      match acts[0] {
        case GateStep(step) => GateStepKeeps(f, step);
        case ReadEdit(call, step) => ReadKeeps(f, call, step);
        case WriteBack(call) =>
          WriteBackOrderly(f, call);
          WriteBackSafeExactlyWhen(f, call);
      }
      if AllSafe(Do(f, acts[0])) {
        RunSafeExactlyWhen(Do(f, acts[0]), acts[1..]);
      }
    }
  }

  /** In every interleaving of gate calls and edits in two steps, the items created in an
      early status are safe all along exactly when every write-back that lands on one is
      in time. */
  lemma SafeWithStaleEditsExactlyWhen(acts: seq<Act>)
    ensures SafeThroughout(EmptyFloor, acts) <==> InTimeThroughout(EmptyFloor, acts)
  {
    RunSafeExactlyWhen(EmptyFloor, acts);
  }

  // --- runs in which a write-back comes too late ---

  function Gating(steps: seq<Step>): seq<Act> {
    if steps == [] then [] else [GateStep(steps[0])] + Gating(steps[1..])
  }

  lemma {:induction false} PlayGating(f: Floor, steps: seq<Step>, more: seq<Act>)
    ensures Play(f, Gating(steps) + more) == Play(f.(world := RunFrom(f.world, steps)), more)
    decreases |steps|
  {
    if steps == [] {
      assert Gating(steps) + more == more;
    } else {
      var rest := Gating(steps[1..]) + more;
      assert Gating(steps) + more == [GateStep(steps[0])] + rest;
      PlayFirst(f, GateStep(steps[0]), rest);
      PlayGating(Do(f, GateStep(steps[0])), steps[1..], more);
    }
  }

  lemma PlayFirst(f: Floor, act: Act, more: seq<Act>)
    ensures Play(f, [act] + more) == Play(Do(f, act), more)
  {
    assert ([act] + more)[1..] == more;
  }

  const NoPatch := WorkPatch(None, None, None, None, None, None, None, None, None, None, None, None, None, None, None,
                             None, None, None, None, None, None, None)

  function Touch(): Step { UpdateWork(SomePartner("p"), "w", NoPatch) }

  predicate Verified(st: Status) { st.Delivered? || st.ReadyForManagerClose? }

  lemma CAPassed(b: Board)
    requires Holds(b, ReadyForCAVerify) && LatestTLPass(b.history, "w") == "p"
    ensures CallGate(b, SomePartner("q"), "w", CAVerify(Pass, "")).Success?
    ensures var b' := CallGate(b, SomePartner("q"), "w", CAVerify(Pass, "")).value;
            Holds(b', Delivered) || Holds(b', ReadyForManagerClose)
  {
  }

  lemma ClosedAgain(b: Board, from: Status)
    requires Holds(b, from) && Verified(from)
    ensures CallGate(b, SomePartner("p"), "w", Close("")).Success?
    ensures Holds(CallGate(b, SomePartner("p"), "w", Close("")).value, Closed)
  {
  }

  lemma ReopenedAgain(b: Board)
    requires Holds(b, Closed)
    ensures CallGate(b, SomePartner("p"), "w", ReopenGate("x")).Success?
    ensures var b' := CallGate(b, SomePartner("p"), "w", ReopenGate("x")).value;
            Holds(b', Open) && |b'.history| > 0
            && var e := b'.history[|b'.history| - 1]; e.workId == "w" && e.action.ActReopen?
  {
    assert Text.TrimLeft("x") == "x" && Text.TrimRight("x") == "x";
  }

  lemma TouchKeepsStatus(b: Board, st: Status)
    requires Holds(b, st) && !IsTerminal(st)
    ensures DecideEdit(b, Touch()).Success? && DecideEdit(b, Touch()).value.status == Code(st)
  {
  }

  /** Nothing verified holds right after a reopening. */
  lemma NotSafeAfterReopening(h: seq<Entry>, id: string, st: Status)
    requires |h| > 0 && h[|h| - 1].workId == id && h[|h| - 1].action.ActReopen? && Verified(st)
    ensures !Safe(h, id, st)
  {
    var last := |h| - 1;
    forall i: nat | i < |h| ensures !NoReopenFrom(h, id, i) {
      assert i <= last && h[last].workId == id;
    }
  }

  /** Created by a partner, reworked and passed by "p", and passed by "q". */
  function Verifying(draft: WorkItem): seq<Step> {
    [CreateWork(SomePartner("p"), "w", draft, Employee)] + Rework("p")
    + [Whole(SomePartner("q"), "w", CAVerify(Pass, ""))]
  }

  lemma VerifiedStage(draft: WorkItem) returns (st: Status)
    requires Plain(draft)
    ensures Verified(st) && Holds(RunFrom(EmptyWorld, Verifying(draft)).board, st)
  {
    var create, pass := CreateWork(SomePartner("p"), "w", draft, Employee),
      Whole(SomePartner("q"), "w", CAVerify(Pass, ""));
    FirstStage(draft);
    var w1 := RunFrom(EmptyWorld, [create]);
    StageRework(w1, Open, "", "p");
    var w2 := RunFrom(w1, Rework("p"));
    CAPassed(w2.board);
    RunOne(w2, pass);
    RunConcat(EmptyWorld, [create], Rework("p"));
    RunConcat(EmptyWorld, [create] + Rework("p"), [pass]);
    st := if Holds(Next(w2, pass).board, Delivered) then Delivered else ReadyForManagerClose;
  }

  lemma BornOpen(draft: WorkItem, more: seq<Step>)
    requires Plain(draft)
    ensures var w := RunFrom(EmptyWorld, [CreateWork(SomePartner("p"), "w", draft, Employee)] + more);
            "w" in w.created && Early(w.created["w"])
  {
    var create := CreateWork(SomePartner("p"), "w", draft, Employee);
    Accepted(EmptyWorld.board, draft, "w", "p");
    BornAs(EmptyWorld, create, Open);
    RunOne(EmptyWorld, create);
    RunFromPending(EmptyWorld, [create]);
    RunFromSafe(EmptyWorld, [create]);
    CreatedStays(Next(EmptyWorld, create), more, "w");
    RunConcat(EmptyWorld, [create], more);
  }

  function Reclosing(): seq<Step> {
    [Whole(SomePartner("p"), "w", Close("")), Whole(SomePartner("p"), "w", ReopenGate("x"))]
  }

  /** The item "w" is open, and the last entry on record reopened it. */
  ghost predicate JustReopened(b: Board) {
    && Holds(b, Open) && |b.history| > 0
    && var e := b.history[|b.history| - 1]; e.workId == "w" && e.action.ActReopen?
  }

  lemma ReopenedStage(w: World, st: Status)
    requires Holds(w.board, st) && Verified(st)
    ensures JustReopened(RunFrom(w, Reclosing()).board)
  {
    var close, reopen := Reclosing()[0], Reclosing()[1];
    ClosedAgain(w.board, st);
    ReopenedAgain(Next(w, close).board);
    RunConcat(w, [close], [reopen]);
    assert [close] + [reopen] == Reclosing();
    RunOne(w, close);
    RunOne(Next(w, close), reopen);
  }

  /** An edit of a verified item reads; the item is closed and reopened; the edit writes
      back the status it read. */
  function StaleRun(draft: WorkItem): seq<Act> {
    Gating(Verifying(draft)) + ([ReadEdit(0, Touch())] + (Gating(Reclosing()) + ([WriteBack(0)] + [])))
  }

  lemma LateWriteBack(w: World, st: Status)
    requires Holds(w.board, st) && Verified(st)
    ensures var f' := Play(Floor(w, map[]), [ReadEdit(0, Touch())] + (Gating(Reclosing()) + ([WriteBack(0)] + [])));
            f'.world.created == RunFrom(w, Reclosing()).created && !SafeItem(f'.world, "w")
  {
    LateRun(w);
    ReopenedStage(w, st);
    Touched(w, st);
    var read := Do(Floor(w, map[]), ReadEdit(0, Touch()));
    LateOutcome(Floor(RunFrom(w, Reclosing()), read.edits), st);
  }

  lemma LateOutcome(f: Floor, st: Status)
    requires 0 in f.edits && f.edits[0].id == "w" && f.edits[0].work.status == Code(st) && Verified(st)
    requires JustReopened(f.world.board)
    ensures var w := Do(f, WriteBack(0)).world;
            w.created == f.world.created && !SafeItem(w, "w")
  {
    WrittenOver(f, st);
    NotSafeAfterReopening(f.world.board.history, "w", st);
  }

  lemma LateRun(w: World)
    ensures var read := Do(Floor(w, map[]), ReadEdit(0, Touch()));
            Play(Floor(w, map[]), [ReadEdit(0, Touch())] + (Gating(Reclosing()) + ([WriteBack(0)] + [])))
            == Do(read.(world := RunFrom(w, Reclosing())), WriteBack(0))
  {
    var f := Floor(w, map[]);
    var read := Do(f, ReadEdit(0, Touch()));
    PlayFirst(f, ReadEdit(0, Touch()), Gating(Reclosing()) + ([WriteBack(0)] + []));
    PlayGating(read, Reclosing(), [WriteBack(0)] + []);
    PlayFirst(read.(world := RunFrom(w, Reclosing())), WriteBack(0), []);
  }

  lemma Touched(w: World, st: Status)
    requires Holds(w.board, st) && !IsTerminal(st)
    ensures var edits := Do(Floor(w, map[]), ReadEdit(0, Touch())).edits;
            0 in edits && edits[0].id == "w" && edits[0].work.status == Code(st)
  {
    TouchKeepsStatus(w.board, st);
  }

  lemma WrittenOver(f: Floor, st: Status)
    requires 0 in f.edits && f.edits[0].id == "w" && f.edits[0].work.status == Code(st)
    requires "w" in f.world.board.work && !f.world.board.work["w"].deleted
    ensures var w := Do(f, WriteBack(0)).world;
            && "w" in w.board.work && Normalize(w.board.work["w"].status) == st
            && w.board.history == f.world.board.history && w.created == f.world.created
  {
  }

  /** That run ends with an item created early, standing in a verified status without a
      verification since its reopening. */
  lemma StaleEditBreaksSafety(draft: WorkItem)
    requires Plain(draft)
    ensures var w := Play(EmptyFloor, StaleRun(draft)).world;
            "w" in w.created && Early(w.created["w"]) && !SafeItem(w, "w")
  {
    var st := VerifiedStage(draft);
    var w := RunFrom(EmptyWorld, Verifying(draft));
    LateWriteBack(w, st);
    PlayGating(EmptyFloor, Verifying(draft),
               [ReadEdit(0, Touch())] + (Gating(Reclosing()) + ([WriteBack(0)] + [])));
    var create, rest := [CreateWork(SomePartner("p"), "w", draft, Employee)],
      Rework("p") + [Whole(SomePartner("q"), "w", CAVerify(Pass, ""))];
    BornOpen(draft, rest + Reclosing());
    RunConcat(EmptyWorld, Verifying(draft), Reclosing());
    assert create + (rest + Reclosing()) == Verifying(draft) + Reclosing();
  }

  // --- cancelled work ---

  predicate CancelledNow(f: Floor, id: string) {
    id in f.world.board.work && Normalize(f.world.board.work[id].status).Cancelled?
  }

  ghost predicate CancelledThroughout(f: Floor, acts: seq<Act>, id: string)
    decreases |acts|
  {
    CancelledNow(f, id) && (acts == [] || CancelledThroughout(Do(f, acts[0]), acts[1..], id))
  }

  /** A write-back of the item that had read it before it was cancelled. */
  predicate Revives(f: Floor, act: Act, id: string) {
    && act.WriteBack? && act.call in f.edits && f.edits[act.call].id == id
    && id in f.world.board.work && !f.world.board.work[id].deleted
    && !Normalize(f.edits[act.call].work.status).Cancelled?
  }

  ghost predicate NeverRevived(f: Floor, acts: seq<Act>, id: string)
    decreases |acts|
  {
    acts == [] || (!Revives(f, acts[0], id) && NeverRevived(Do(f, acts[0]), acts[1..], id))
  }

  lemma CancelledStepExactly(f: Floor, act: Act, id: string)
    requires AllPending(f.world) && CancelledNow(f, id)
    ensures CancelledNow(Do(f, act), id) <==> !Revives(f, act, id)
  {
    if act.GateStep? {
      var eff := StepEffect(f.world, act.step);
      EffectKeepsTerminal(PictureOf(f.world), eff, id);
      assert id in PictureOf(Next(f.world, act.step)).statuses;
    }
  }

  lemma OrderlyKept(f: Floor, act: Act)
    requires AllPending(f.world) && forall c :: c in f.edits ==> f.edits[c].work.status.Code?
    ensures AllPending(Do(f, act).world)
    ensures forall c :: c in Do(f, act).edits ==> Do(f, act).edits[c].work.status.Code?
  {
    match act
    case GateStep(step) => PendingKept(f.world, step);
    case ReadEdit(call, step) =>
      if IsEdit(step) && DecideEdit(f.world.board, step).Success? {
        EditDecides(f.world.board, step);
      }
    case WriteBack(call) =>
  }

  /** Cancelled work stays cancelled all along exactly when no write-back of it comes
      that had read it in another status. */
  lemma {:induction false} CancelledStaysExactlyWhen(f: Floor, acts: seq<Act>, id: string)
    requires AllPending(f.world) && forall c :: c in f.edits ==> f.edits[c].work.status.Code?
    requires CancelledNow(f, id)
    ensures CancelledThroughout(f, acts, id) <==> NeverRevived(f, acts, id)
    decreases |acts|
  {
    if acts != [] {
      CancelledStepExactly(f, acts[0], id);
      OrderlyKept(f, acts[0]);
      if CancelledNow(Do(f, acts[0]), id) {
        CancelledStaysExactlyWhen(Do(f, acts[0]), acts[1..], id);
      }
    }
  }

  function Cancelling(): seq<Step> {
    [Whole(SomePartner("p"), "w", Move(Code(Cancelled), "", ""))]
  }

  lemma CancelledStage(w: World)
    requires Holds(w.board, Open)
    ensures Holds(RunFrom(w, Cancelling()).board, Cancelled)
  {
    PartnerViews(w.board, Open, SomePartner("p"));
    RunOne(w, Cancelling()[0]);
  }

  /** An edit of open work reads; the work is cancelled. */
  function StaleCancel(draft: WorkItem): seq<Act> {
    Gating([CreateWork(SomePartner("p"), "w", draft, Employee)])
    + ([ReadEdit(0, Touch())] + (Gating(Cancelling()) + []))
  }

  /** The write-back opens the cancelled work again, and no history records it. */
  lemma CancelledComesBack(draft: WorkItem)
    requires Plain(draft)
    ensures var f := Play(EmptyFloor, StaleCancel(draft));
            && CancelledNow(f, "w") && "w" in Do(f, WriteBack(0)).world.board.work
            && Normalize(Do(f, WriteBack(0)).world.board.work["w"].status).Open?
            && Do(f, WriteBack(0)).world.board.history == f.world.board.history
  {
    var create := CreateWork(SomePartner("p"), "w", draft, Employee);
    FirstStage(draft);
    var w := RunFrom(EmptyWorld, [create]);
    TouchKeepsStatus(w.board, Open);
    CancelledStage(w);
    var read := Do(Floor(w, map[]), ReadEdit(0, Touch()));
    PlayGating(EmptyFloor, [create], [ReadEdit(0, Touch())] + (Gating(Cancelling()) + []));
    PlayFirst(Floor(w, map[]), ReadEdit(0, Touch()), Gating(Cancelling()) + []);
    PlayGating(read, Cancelling(), []);
  }
}
