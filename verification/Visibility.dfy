/** Who may view a work item, and the scoped list that must not show more. */
module Visibility {
  import opened Tables
  import opened Practice
  import Text
  import Hierarchy

  // --- tenancy ---

  function FirmKeyOf(userId: string): string {
    var id := Text.Trim(userId);
    if Text.HasPrefix(id, "ABC-") then "ABC"
    else if Text.HasPrefix(id, "WM-") then "WM"
    else if Text.HasPrefix(id, "PRACTICE-") then "PRACTICE"
    else "DEFAULT"
  }

  function Parties(w: WorkItem): seq<string> {
    [w.createdBy, w.assignedBy, w.assignedTo, w.ownerCA, w.tl, w.assigneeId, w.id]
  }

  predicate SeededFirm(party: string) {
    Text.HasPrefix(party, "ABC-") || Text.HasPrefix(party, "WM-") || Text.HasPrefix(party, "PRACTICE-")
  }

  predicate BelongsToFirm(firmKey: string, w: WorkItem) {
    if firmKey == "" || firmKey == "DEFAULT" then forall p | p in Parties(w) :: !SeededFirm(p)
    else exists p | p in Parties(w) :: Text.HasPrefix(p, firmKey + "-")
  }

  function FirmOf(actor: Actor): string {
    if actor.firmKey == "" then FirmKeyOf(actor.id) else actor.firmKey
  }

  // --- the view rule ---

  predicate InDownline(actor: Actor, user: string) {
    user != "" && user in actor.downline
  }

  predicate CanView(actor: Actor, w: WorkItem) {
    var firm := FirmOf(actor);
    var inFirm := BelongsToFirm(firm, w);
    if actor.role.HR? then false
    else if IsLeadership(actor.role) then inFirm
    else if !inFirm && firm != "DEFAULT" then false
    else
      || Assignee(w) == actor.id || w.assignedBy == actor.id || w.createdBy == actor.id
      || w.ownerCA == actor.id || w.tl == actor.id
      || InDownline(actor, Assignee(w)) || InDownline(actor, w.ownerCA) || InDownline(actor, w.tl)
  }

  /** The people an item names, and those of them through whom managers see it. */
  function People(w: WorkItem): set<string> {
    {Assignee(w), w.assignedBy, w.createdBy, w.ownerCA, w.tl}
  }

  function HeldBy(w: WorkItem): set<string> {
    {Assignee(w), w.ownerCA, w.tl}
  }

  /** HR views nothing, partners and managers their firm's items, and anyone else the items
      that name them or are held by someone who reports to them; across firms only those
      of the default firm do. */
  lemma ViewTells(actor: Actor, w: WorkItem)
    ensures actor.role.HR? ==> !CanView(actor, w)
    ensures IsLeadership(actor.role) ==> (CanView(actor, w) <==> BelongsToFirm(FirmOf(actor), w))
    ensures !actor.role.HR? && !IsLeadership(actor.role) ==>
              (CanView(actor, w)
               <==> (BelongsToFirm(FirmOf(actor), w) || FirmOf(actor) == "DEFAULT")
                    && (actor.id in People(w) || exists u :: u in HeldBy(w) && u != "" && u in actor.downline))
  {
    assert Assignee(w) in HeldBy(w) && w.ownerCA in HeldBy(w) && w.tl in HeldBy(w);
  }

  /** What someone of a seeded firm made belongs to their firm, under the key their id
      gives them; an actor's own key takes precedence. */
  lemma OwnWorkIsTheirFirms(user: string, w: WorkItem)
    requires w.createdBy == user && Text.Trim(user) == user
    ensures FirmKeyOf(user) != "DEFAULT" ==> BelongsToFirm(FirmKeyOf(user), w) && !BelongsToFirm("DEFAULT", w)
    ensures FirmKeyOf(user) == "DEFAULT" <==> !SeededFirm(user)
  {
    assert "ABC" + "-" == "ABC-" && "WM" + "-" == "WM-" && "PRACTICE" + "-" == "PRACTICE-";
    assert Parties(w)[0] == user;
  }

  lemma FirmTells(actor: Actor)
    ensures actor.firmKey != "" ==> FirmOf(actor) == actor.firmKey
    ensures actor.firmKey == "" ==> FirmOf(actor) == FirmKeyOf(actor.id)
  {
  }

  // --- the list filter ---

  datatype ListFilter = ListFilter(
    page: int, pageSize: int, search: string, status: Option<StatusText>, priority: string, assigneeId: string,
    involvedUser: string, ownerCA: string, tl: string, clientId: string, companyId: string, engagementId: string,
    workType: string, periodKey: string, overlay: string, department: string,
    scopeDownline: seq<string>, firmKey: string, forceEmpty: bool, includeDeleted: bool,
    from: Option<int>, to: Option<int>)

  /** Scopes a filter to what the actor's role may list. */
  function ApplyListScope(actor: Actor, f: ListFilter): ListFilter {
    var g := f.(firmKey := FirmOf(actor));
    if IsLeadership(actor.role) then g
    else if actor.role.HR? || actor.role.Reception? then g.(forceEmpty := true)
    else if IsProfessional(actor.role) then
      g.(ownerCA := actor.id, scopeDownline := actor.downline, involvedUser := "", assigneeId := "")
    else if actor.role.TeamLeader? then
      g.(tl := actor.id, scopeDownline := actor.downline, involvedUser := "")
    else g.(assigneeId := actor.id, involvedUser := "")
  }

  /** The part of the filter that is about who owns the item. */
  predicate InScope(f: ListFilter, w: WorkItem) {
    (f.ownerCA != "" || f.tl != "" || |f.scopeDownline| > 0) ==>
      || (f.ownerCA != "" && (w.ownerCA == f.ownerCA || Assignee(w) == f.ownerCA
                              || w.createdBy == f.ownerCA || w.assignedBy == f.ownerCA))
      || (f.tl != "" && (w.tl == f.tl || Assignee(w) == f.tl || w.createdBy == f.tl))
      || (exists id | id in f.scopeDownline :: Assignee(w) == id || w.ownerCA == id || w.tl == id)
      || (f.ownerCA == "" && f.tl == "")
  }

  predicate Involves(f: ListFilter, w: WorkItem) {
    f.involvedUser != "" ==>
      f.involvedUser in [Assignee(w), w.assignedBy, w.createdBy, w.ownerCA, w.tl]
  }

  predicate EqualOrUnset(wanted: string, actual: string) { wanted == "" || actual == wanted }

  predicate FoldedOrUnset(wanted: string, actual: string) { wanted == "" || Text.EqualFold(actual, wanted) }

  function Joined(tags: seq<string>): string {
    if tags == [] then "" else if |tags| == 1 then tags[0] else tags[0] + " " + Joined(tags[1..])
  }

  predicate Mentions(w: WorkItem, search: string) {
    var q := Text.Lower(Text.Trim(search));
    q == "" || Text.Contains(Text.Lower(w.title + " " + w.description + " " + w.clientName + " " + w.department
                                        + " " + Joined(w.tags)), q)
  }

  /** Every test of the list loop that has nothing to do with ownership or firm. */
  predicate MatchesDetails(f: ListFilter, w: WorkItem) {
    && (f.status.Some? ==> Normalize(w.status) == Normalize(f.status.value))
    && FoldedOrUnset(f.priority, w.priority)
    && EqualOrUnset(f.clientId, w.clientId) && EqualOrUnset(f.companyId, w.companyId)
    && EqualOrUnset(f.engagementId, w.engagementId)
    && FoldedOrUnset(f.workType, w.workType) && EqualOrUnset(f.periodKey, w.periodKey)
    && FoldedOrUnset(f.overlay, w.overlay) && FoldedOrUnset(f.department, w.department)
    && (f.from.Some? && w.due.Some? ==> f.from.value <= w.due.value)
    && (f.to.Some? && w.due.Some? ==> w.due.value <= f.to.value)
    && Mentions(w, f.search)
  }

  /** Asked for a user's involvement, items that name the user are listed. */
  lemma InvolvementTells(f: ListFilter, w: WorkItem)
    ensures Involves(f, w) <==> f.involvedUser == "" || f.involvedUser in People(w)
  {
  }

  /** A text of a filter that must equal the item's, or must up to letter case. */
  datatype Wanted = Exact(wanted: string, actual: string) | Folded(wanted: string, actual: string)

  function WantedTexts(f: ListFilter, w: WorkItem): set<Wanted> {
    {Folded(f.priority, w.priority), Exact(f.clientId, w.clientId), Exact(f.companyId, w.companyId),
     Exact(f.engagementId, w.engagementId), Folded(f.workType, w.workType), Exact(f.periodKey, w.periodKey),
     Folded(f.overlay, w.overlay), Folded(f.department, w.department)}
  }

  predicate Met(t: Wanted) {
    t.wanted == "" || (t.Exact? && t.actual == t.wanted) || (t.Folded? && Text.Lower(t.actual) == Text.Lower(t.wanted))
  }

  /** An item matches exactly when every text wanted is met, its status is the one wanted
      however spelled, its due day if it has one lies within the days wanted, both
      included, and what is searched for occurs in it. */
  lemma FilterTells(f: ListFilter, w: WorkItem)
    ensures MatchesDetails(f, w)
       <==> (&& (forall t :: t in WantedTexts(f, w) ==> Met(t))
             && (f.status == None || Normalize(f.status.value) == Normalize(w.status))
             && (w.due == None || ((f.from == None || w.due.value >= f.from.value)
                                   && (f.to == None || w.due.value <= f.to.value)))
             && Mentions(w, f.search))
  {
    var ts := WantedTexts(f, w);
    assert Folded(f.priority, w.priority) in ts && Exact(f.clientId, w.clientId) in ts
           && Exact(f.companyId, w.companyId) in ts && Exact(f.engagementId, w.engagementId) in ts
           && Folded(f.workType, w.workType) in ts && Exact(f.periodKey, w.periodKey) in ts
           && Folded(f.overlay, w.overlay) in ts && Folded(f.department, w.department) in ts;
  }

  /** Nothing searched for occurs everywhere; what occurs in title, description, client
      name, department or a tag, spaces around it aside and in whatever case, is found. */
  lemma SearchFinds(w: WorkItem, search: string, field: string)
    requires field in [w.title, w.description, w.clientName, w.department] || field in w.tags
    requires Text.Contains(Text.Lower(field), Text.Lower(Text.Trim(search)))
    ensures Mentions(w, search)
  {
    var q := Text.Lower(Text.Trim(search));
    if q != "" {
      var head := w.title + " " + w.description + " " + w.clientName + " " + w.department;
      var hay := head + " " + Joined(w.tags);
      if field in w.tags {
        TagsJoined(w.tags, field, q);
        FoundInside(head + " ", Joined(w.tags), "", q);
        assert hay == (head + " ") + Joined(w.tags) + "";
      } else if field == w.title {
        FoundInside("", field, hay[|field|..], q);
        assert hay == "" + field + hay[|field|..];
      } else if field == w.description {
        var before := w.title + " ";
        FoundInside(before, field, hay[|before| + |field|..], q);
        assert hay == before + field + hay[|before| + |field|..];
      } else if field == w.clientName {
        var before := w.title + " " + w.description + " ";
        FoundInside(before, field, hay[|before| + |field|..], q);
        assert hay == before + field + hay[|before| + |field|..];
      } else {
        var before := w.title + " " + w.description + " " + w.clientName + " ";
        FoundInside(before, field, hay[|before| + |field|..], q);
        assert hay == before + field + hay[|before| + |field|..];
      }
    }
  }

  lemma FoundInside(before: string, field: string, rest: string, q: string)
    requires Text.Contains(Text.Lower(field), q)
    ensures Text.Contains(Text.Lower(before + field + rest), q)
  {
    var i :| 0 <= i <= |Text.Lower(field)| && Text.OccursAt(Text.Lower(field), q, i);
    var hay := Text.Lower(before + field + rest);
    assert hay[|before| + i..|before| + i + |q|] == Text.Lower(field)[i..i + |q|];
    assert Text.OccursAt(hay, q, |before| + i);
  }

  lemma {:induction false} TagsJoined(tags: seq<string>, tag: string, q: string)
    requires tag in tags && Text.Contains(Text.Lower(tag), q)
    ensures Text.Contains(Text.Lower(Joined(tags)), q)
  {
    if |tags| == 1 {
      assert Joined(tags) == tag;
    } else if tags[0] == tag {
      FoundInside("", tag, " " + Joined(tags[1..]), q);
      assert Joined(tags) == "" + tag + (" " + Joined(tags[1..]));
    } else {
      TagsJoined(tags[1..], tag, q);
      FoundInside(tags[0] + " ", Joined(tags[1..]), "", q);
      assert Joined(tags) == (tags[0] + " ") + Joined(tags[1..]) + "";
    }
  }

  /** An item the store lists under a filter. */
  predicate Lists(f: ListFilter, w: WorkItem) {
    && !f.forceEmpty
    && (f.includeDeleted || !w.deleted)
    && EqualOrUnset(f.assigneeId, Assignee(w))
    && (f.firmKey != "" ==> BelongsToFirm(f.firmKey, w))
    && InScope(f, w) && Involves(f, w)
    && MatchesDetails(f, w)
  }

  datatype Page = Page(items: seq<WorkItem>, total: nat, page: int, pageSize: int, totalPages: nat)

  function PageStart(total: nat, page: int, size: int): (start: nat)
    requires page >= 1 && size >= 1
    ensures start <= total
  {
    if (page - 1) * size > total then total else (page - 1) * size
  }

  /** The tests one stored item goes through in the list loop. */
  method Selects(f: ListFilter, w: WorkItem) returns (ok: bool)
    requires !f.forceEmpty
    ensures ok == Lists(f, w)
  {
    if w.deleted && !f.includeDeleted {
      return false;
    }
    if f.assigneeId != "" && Assignee(w) != f.assigneeId {
      return false;
    }
    if f.firmKey != "" && !BelongsToFirm(f.firmKey, w) {
      return false;
    }
    return InScope(f, w) && Involves(f, w) && MatchesDetails(f, w);
  }

  /** Walks the stored items in whatever order the map yields them. */
  method Collect(work: map<string, WorkItem>, f: ListFilter) returns (items: seq<WorkItem>, ghost all: seq<string>)
    requires !f.forceEmpty
    ensures NoDup(all) && forall id :: id in all <==> id in work && Lists(f, work[id])
    ensures |items| == |all| && forall k :: 0 <= k < |all| ==> all[k] in work && items[k] == work[all[k]]
  {
    items, all := [], [];
    var left := work.Keys;
    while left != {}
      invariant left <= work.Keys && NoDup(all)
      invariant forall id :: id in all <==> id in work && id !in left && Lists(f, work[id])
      invariant |items| == |all| && forall k :: 0 <= k < |all| ==> all[k] in work && items[k] == work[all[k]]
      decreases left
    {
      var id :| id in left;
      left := left - {id};
      var ok := Selects(f, work[id]);
      if !ok {
        continue;
      }
      items, all := items + [work[id]], all + [id];
    }
  }

  function ItemsOf(work: map<string, WorkItem>, ids: seq<string>): seq<WorkItem>
    requires forall id :: id in ids ==> id in work
  {
    seq(|ids|, k requires 0 <= k < |ids| => work[ids[k]])
  }

  /** The page holds its slice of the listing, and the page count is the least
      that covers the total. */
  predicate IsPageOf(page: Page, items: seq<WorkItem>) {
    && page.total == |items| && page.page >= 1 && page.pageSize >= 1
    && (var start := PageStart(|items|, page.page, page.pageSize);
        page.items == items[start..if start + page.pageSize > |items| then |items| else start + page.pageSize])
    && Covers(page.totalPages, page.pageSize, |items|)
  }

  predicate Covers(pages: nat, size: nat, total: nat) {
    (pages - 1) * size < total <= pages * size || pages == total == 0
  }

  /** A page holds the listing from its place on: its k-th item is the k-th after the pages
      before it, and it is as full as the listing allows. */
  lemma PageHolds(page: Page, items: seq<WorkItem>, k: nat)
    requires IsPageOf(page, items)
    ensures var before := (page.page - 1) * page.pageSize;
            && (k < |page.items| <==> k < page.pageSize && before + k < |items|)
            && (k < |page.items| ==> before + k < |items| && page.items[k] == items[before + k])
  {
    assert (page.page - 1) * page.pageSize >= 0;
  }

  method CutPage(items: seq<WorkItem>, f: ListFilter) returns (page: Page)
    ensures page.page == (if f.page < 1 then 1 else f.page)
    ensures page.pageSize == (if f.pageSize < 1 then 20 else f.pageSize)
    ensures IsPageOf(page, items)
  {
    var number := if f.page < 1 then 1 else f.page;
    var size := if f.pageSize < 1 then 20 else f.pageSize;
    var start := PageStart(|items|, number, size);
    var end := if start + size > |items| then |items| else start + size;
    var pages := CountPages(|items|, size);
    page := Page(items[start..end], |items|, number, size, pages);
  }

  method CountPages(total: nat, size: nat) returns (pages: nat)
    requires size >= 1
    ensures Covers(pages, size, total)
  {
    pages := total / size;
    if total % size != 0 {
      pages := pages + 1;
    }
    PageCount(total, size);
  }

  /** One page of the listing; all names the whole listing, in page order. */
  method ListWork(work: map<string, WorkItem>, f: ListFilter) returns (page: Page, ghost all: seq<string>)
    ensures NoDup(all) && forall id :: id in all <==> id in work && Lists(f, work[id])
    ensures f.forceEmpty ==> page == Page([], 0, 1, f.pageSize, 0)
    ensures !f.forceEmpty ==>
              && page.page == (if f.page < 1 then 1 else f.page)
              && page.pageSize == (if f.pageSize < 1 then 20 else f.pageSize)
              && IsPageOf(page, ItemsOf(work, all))
  {
    if f.forceEmpty {
      all := [];
      return Page([], 0, 1, f.pageSize, 0), all;
    }
    var items;
    items, all := Collect(work, f);
    assert items == ItemsOf(work, all);
    page := CutPage(items, f);
  }

  lemma PageCount(total: nat, size: nat)
    requires size >= 1
    ensures Covers(total / size + (if total % size != 0 then 1 else 0), size, total)
  {
    var q := total / size;
    assert total == q * size + total % size;
    assert (q + 1) * size == q * size + size && (q - 1) * size == q * size - size;
  }

  // --- what is listed may be viewed ---

  /** A preset scope that adds nothing: none, the actor's own id, or one that a
      seeded firm's items alone could match, which a default-firm actor never lists. */
  predicate HarmlessPreset(actor: Actor, preset: string) {
    preset == "" || preset == actor.id || (FirmOf(actor) == "DEFAULT" && SeededFirm(preset))
  }

  /** The scope fields that scoping leaves as the caller preset them. The listing
      endpoint presets none. */
  predicate NoForeignScope(actor: Actor, f: ListFilter) {
    && (IsProfessional(actor.role) ==> HarmlessPreset(actor, f.tl))
    && (actor.role.TeamLeader? ==> HarmlessPreset(actor, f.ownerCA))
  }

  lemma DownlineMatch(actor: Actor, w: WorkItem, id: string)
    requires id in actor.downline && id != ""
    requires Assignee(w) == id || w.ownerCA == id || w.tl == id
    ensures InDownline(actor, Assignee(w)) || InDownline(actor, w.ownerCA) || InDownline(actor, w.tl)
  {
  }

  lemma AssigneeIsParty(w: WorkItem)
    ensures Assignee(w) != "" ==> Assignee(w) in Parties(w)
    ensures w.assigneeId == "" && w.assignedTo == "" ==> Assignee(w) == ""
  {
    assert [w.assigneeId, w.assignedTo][1..] == [w.assignedTo];
    assert [w.assignedTo][1..] == [];
    assert Text.FirstNonEmpty([]) == "";
    assert Text.FirstNonEmpty([w.assignedTo]) == w.assignedTo || Text.FirstNonEmpty([w.assignedTo]) == "";
    assert Parties(w)[2] == w.assignedTo && Parties(w)[5] == w.assigneeId;
  }

  /** A harmless preset matches an item of the actor's firm only as the actor. */
  lemma PresetMatch(actor: Actor, preset: string, w: WorkItem)
    requires HarmlessPreset(actor, preset) && preset != "" && BelongsToFirm(FirmOf(actor), w)
    requires preset in [w.tl, Assignee(w), w.createdBy, w.ownerCA, w.assignedBy]
    ensures preset == actor.id
  {
    AssigneeIsParty(w);
    assert Parties(w)[0] == w.createdBy && Parties(w)[1] == w.assignedBy
        && Parties(w)[3] == w.ownerCA && Parties(w)[4] == w.tl;
    assert preset in Parties(w);
  }

  /** Every listed item passes the view rule. */
  lemma ListedIsViewable(actor: Actor, f: ListFilter, w: WorkItem)
    requires actor.id != "" && "" !in actor.downline
    requires NoForeignScope(actor, f)
    requires Lists(ApplyListScope(actor, f), w)
    ensures CanView(actor, w)
  {
    var g := ApplyListScope(actor, f);
    assert FirmOf(actor) != "";
    if IsProfessional(actor.role) || actor.role.TeamLeader? {
      var preset := if actor.role.TeamLeader? then f.ownerCA else f.tl;
      if preset != "" && preset in [w.tl, Assignee(w), w.createdBy, w.ownerCA, w.assignedBy] {
        PresetMatch(actor, preset, w);
      }
      if id :| id in g.scopeDownline && (Assignee(w) == id || w.ownerCA == id || w.tl == id) {
        DownlineMatch(actor, w, id);
      }
    }
  }

  /** The downline the hierarchy computes never holds a blank user. */
  lemma DownlineHasNoBlank(m: Hierarchy.Managers, root: string, out: seq<string>)
    requires Hierarchy.IsDownline(m, root, out)
    ensures "" !in out
  {
    forall n: nat | n > 0 ensures Hierarchy.Climb(m, "", n).None? {
      assert Hierarchy.ManagerOf(m, "").None?;
    }
  }

  // --- exactly when a preset scope shows too much ---

  /** An item made by one user and assigned to another, matching every other test. */
  function Stray(actor: Actor, f: ListFilter, creator: string, assignee: string): WorkItem {
    WorkItem(if FirmOf(actor) == "DEFAULT" then "" else FirmOf(actor) + "-", Text.Trim(f.search), "", f.priority,
             if f.status.Some? then f.status.value else Empty, None, "", "", assignee, "", "",
             f.clientId, "", f.companyId, f.engagementId, f.workType, f.periodKey, "", f.overlay, Medium,
             false, false, f.department, [], 0.0, 0.0, 0, "", creator, "", false)
  }

  lemma StrayMatches(actor: Actor, f: ListFilter, creator: string, assignee: string)
    ensures MatchesDetails(f, Stray(actor, f, creator, assignee))
  {
    var w := Stray(actor, f, creator, assignee);
    var title := Text.Trim(f.search);
    var hay := w.title + " " + w.description + " " + w.clientName + " " + w.department + " " + Joined(w.tags);
    assert hay[..|title|] == title;
    assert Text.Lower(hay)[0..|title|] == Text.Lower(title);
    assert Text.OccursAt(Text.Lower(hay), Text.Lower(title), 0);
  }

  lemma StrayInFirm(actor: Actor, f: ListFilter, creator: string, assignee: string)
    requires !(FirmOf(actor) == "DEFAULT" && (SeededFirm(creator) || SeededFirm(assignee)))
    ensures BelongsToFirm(FirmOf(actor), Stray(actor, f, creator, assignee))
  {
    var w := Stray(actor, f, creator, assignee);
    assert FirmOf(actor) != "";
    assert Parties(w)[6] == w.id;
    if FirmOf(actor) == "DEFAULT" {
      forall p | p in Parties(w) ensures !SeededFirm(p) {
        assert p == "" || p == creator || p == assignee;
      }
    } else {
      assert w.id in Parties(w) && Text.HasPrefix(w.id, FirmOf(actor) + "-");
    }
  }

  /** For a CA, what is listed is viewable whatever is stored exactly when the
      preset team-leader scope is harmless. */
  lemma ListedIsViewableExactlyWhen(actor: Actor, f: ListFilter)
    requires actor.id != "" && "" !in actor.downline
    requires IsProfessional(actor.role) && !f.forceEmpty
    ensures (forall w :: Lists(ApplyListScope(actor, f), w) ==> CanView(actor, w)) <==> HarmlessPreset(actor, f.tl)
  {
    if HarmlessPreset(actor, f.tl) {
      forall w | Lists(ApplyListScope(actor, f), w) ensures CanView(actor, w) {
        ListedIsViewable(actor, f, w);
      }
    } else {
      var g := ApplyListScope(actor, f);
      var w := Stray(actor, f, f.tl, "");
      StrayMatches(actor, f, f.tl, "");
      StrayInFirm(actor, f, f.tl, "");
      assert MatchesDetails(g, w) == MatchesDetails(f, w);
      AssigneeIsParty(w);
      assert Lists(g, w) && !CanView(actor, w);
    }
  }

  /** An assignee filter under which a team leader lists only what may be viewed: set,
      and set to the actor, to someone of the downline, or to no possible assignee of
      an item of the actor's firm. */
  predicate HarmlessAssignee(actor: Actor, assignee: string) {
    assignee != "" && (assignee == actor.id || InDownline(actor, assignee) || Text.Trim(assignee) == ""
                       || (FirmOf(actor) == "DEFAULT" && SeededFirm(assignee)))
  }

  lemma AssigneeIs(w: WorkItem, assignee: string)
    requires w.assigneeId == assignee && w.assignedTo == ""
    ensures Assignee(w) == if Text.Trim(assignee) != "" then assignee else ""
  {
    assert [w.assigneeId, w.assignedTo][1..] == [w.assignedTo] && [w.assignedTo][1..] == [];
    assert Text.Trim("") == "" && Text.FirstNonEmpty([]) == "" && Text.FirstNonEmpty([w.assignedTo]) == "";
  }

  lemma AssigneeNotBlank(w: WorkItem)
    ensures Assignee(w) == "" || Text.Trim(Assignee(w)) != ""
  {
    assert [w.assigneeId, w.assignedTo][1..] == [w.assignedTo] && [w.assignedTo][1..] == [];
    assert Text.FirstNonEmpty([]) == "" && Text.Trim("") == "";
    assert Text.FirstNonEmpty([w.assignedTo]) == "" || Text.FirstNonEmpty([w.assignedTo]) == w.assignedTo;
  }

  /** For a team leader, what is listed is viewable whatever is stored exactly when the
      preset owner scope or the assignee filter is harmless. */
  lemma LeaderListsViewableExactlyWhen(actor: Actor, f: ListFilter)
    requires actor.id != "" && "" !in actor.downline
    requires actor.role.TeamLeader? && !f.forceEmpty
    ensures (forall w :: Lists(ApplyListScope(actor, f), w) ==> CanView(actor, w))
       <==> (HarmlessPreset(actor, f.ownerCA) || HarmlessAssignee(actor, f.assigneeId))
  {
    if HarmlessPreset(actor, f.ownerCA) {
      forall w | Lists(ApplyListScope(actor, f), w) ensures CanView(actor, w) {
        ListedIsViewable(actor, f, w);
      }
    } else if HarmlessAssignee(actor, f.assigneeId) {
      forall w | Lists(ApplyListScope(actor, f), w) ensures CanView(actor, w) {
        AssignedIsViewable(actor, f, w);
      }
    } else {
      LeaderStray(actor, f);
    }
  }

  lemma AssignedIsViewable(actor: Actor, f: ListFilter, w: WorkItem)
    requires actor.role.TeamLeader? && HarmlessAssignee(actor, f.assigneeId)
    requires Lists(ApplyListScope(actor, f), w)
    ensures CanView(actor, w)
  {
    assert FirmOf(actor) != "";
    AssigneeNotBlank(w);
    AssigneeIsParty(w);
    assert Assignee(w) == f.assigneeId;
  }

  lemma LeaderStray(actor: Actor, f: ListFilter)
    requires actor.id != "" && "" !in actor.downline && actor.role.TeamLeader? && !f.forceEmpty
    requires !HarmlessPreset(actor, f.ownerCA) && !HarmlessAssignee(actor, f.assigneeId)
    ensures var w := Stray(actor, f, f.ownerCA, f.assigneeId);
            Lists(ApplyListScope(actor, f), w) && !CanView(actor, w)
  {
    var w := Stray(actor, f, f.ownerCA, f.assigneeId);
    StrayMatches(actor, f, f.ownerCA, f.assigneeId);
    StrayInFirm(actor, f, f.ownerCA, f.assigneeId);
    AssigneeIs(w, f.assigneeId);
    assert Text.Trim("") == "";
    LeaderLists(actor, f, w);
    LeaderCannotView(actor, w);
  }

  /** A team leader lists what the preset owner created, within the rest of the filter. */
  lemma LeaderLists(actor: Actor, f: ListFilter, w: WorkItem)
    requires actor.role.TeamLeader? && !f.forceEmpty && !w.deleted && w.createdBy == f.ownerCA != ""
    requires Assignee(w) == f.assigneeId && BelongsToFirm(FirmOf(actor), w) && MatchesDetails(f, w)
    ensures Lists(ApplyListScope(actor, f), w)
  {
    ListsIfAll(ApplyListScope(actor, f), f, w, FirmOf(actor));
  }

  /** A filter that differs from another in its scope alone. */
  lemma ListsIfAll(g: ListFilter, f: ListFilter, w: WorkItem, firm: string)
    requires g == f.(firmKey := firm, tl := g.tl, scopeDownline := g.scopeDownline, involvedUser := "")
    requires !f.forceEmpty && !w.deleted && EqualOrUnset(f.assigneeId, Assignee(w)) && BelongsToFirm(firm, w)
    requires w.createdBy == f.ownerCA != "" && MatchesDetails(f, w)
    ensures Lists(g, w)
  {
    assert InScope(g, w) && Involves(g, w);
    assert MatchesDetails(g, w) == MatchesDetails(f, w);
  }

  lemma LeaderCannotView(actor: Actor, w: WorkItem)
    requires actor.role.TeamLeader? && actor.id != ""
    requires w.assignedBy == "" && w.ownerCA == "" && w.tl == "" && w.createdBy != actor.id
    requires Assignee(w) != actor.id && !InDownline(actor, Assignee(w))
    ensures !CanView(actor, w)
  {
  }

  /** Viewable, undeleted and matching the rest of the filter. */
  predicate LeadershipLists(actor: Actor, f: ListFilter, w: WorkItem) {
    && CanView(actor, w) && !w.deleted && EqualOrUnset(f.assigneeId, Assignee(w))
    && InScope(f, w) && Involves(f, w) && MatchesDetails(f, w)
  }

  /** For partners and managers the listing is exactly the viewable, undeleted
      items that match the rest of the filter. */
  lemma LeadershipListsExactly(actor: Actor, f: ListFilter, w: WorkItem)
    requires IsLeadership(actor.role) && !f.forceEmpty && !f.includeDeleted
    ensures Lists(ApplyListScope(actor, f), w) <==> LeadershipLists(actor, f, w)
  {
    assert FirmOf(actor) != "";
    var g := ApplyListScope(actor, f);
    assert MatchesDetails(g, w) == MatchesDetails(f, w);
  }

  // --- what each role lists ---

  /** The item is the actor's in one of the given capacities, or its downline's. */
  predicate OwnOrDownline(actor: Actor, own: set<string>, w: WorkItem) {
    actor.id in own || InDownline(actor, Assignee(w)) || InDownline(actor, w.ownerCA) || InDownline(actor, w.tl)
  }

  /** An owner scope or a team-leader scope that the caller preset. */
  predicate PresetOwner(f: ListFilter, w: WorkItem) {
    f.ownerCA != "" && f.ownerCA in {w.ownerCA, Assignee(w), w.createdBy, w.assignedBy}
  }

  predicate PresetLeader(f: ListFilter, w: WorkItem) {
    f.tl != "" && f.tl in {w.tl, Assignee(w), w.createdBy}
  }

  /** What a listing holds, role by role: partners and managers get what they may view and
      the filter asks for; CAs what they own, are assigned, created or handed out, and
      their downline's; team leaders what they lead, are assigned or created, and their
      downline's; HR and reception nothing; everyone else what is assigned to them. All of
      it of their firm and within the rest of the filter. */
  predicate RoleLists(actor: Actor, f: ListFilter, w: WorkItem) {
    && (f.includeDeleted || !w.deleted) && BelongsToFirm(FirmOf(actor), w) && MatchesDetails(f, w)
    && if IsLeadership(actor.role) then
         CanView(actor, w) && EqualOrUnset(f.assigneeId, Assignee(w)) && InScope(f, w) && Involves(f, w)
       else if actor.role.HR? || actor.role.Reception? then false
       else if IsProfessional(actor.role) then
         OwnOrDownline(actor, {w.ownerCA, Assignee(w), w.createdBy, w.assignedBy}, w) || PresetLeader(f, w)
       else if actor.role.TeamLeader? then
         && (OwnOrDownline(actor, {w.tl, Assignee(w), w.createdBy}, w) || PresetOwner(f, w))
         && EqualOrUnset(f.assigneeId, Assignee(w))
       else Assignee(w) == actor.id && InScope(f, w)
  }

  lemma ScopeOf(g: ListFilter, actor: Actor, w: WorkItem)
    requires "" !in actor.downline && g.scopeDownline == actor.downline && (g.ownerCA != "" || g.tl != "")
    ensures InScope(g, w) <==> PresetOwner(g, w) || PresetLeader(g, w) || OwnOrDownline(actor, {}, w)
  {
    if id :| id in g.scopeDownline && (Assignee(w) == id || w.ownerCA == id || w.tl == id) {
      DownlineMatch(actor, w, id);
    }
    if OwnOrDownline(actor, {}, w) {
      assert Assignee(w) in g.scopeDownline || w.ownerCA in g.scopeDownline || w.tl in g.scopeDownline;
    }
  }

  /** Listing under the scoped filter is exactly what the role lists. */
  lemma ListsByRole(actor: Actor, f: ListFilter, w: WorkItem)
    requires actor.id != "" && "" !in actor.downline
    ensures Lists(ApplyListScope(actor, f), w) <==> !f.forceEmpty && RoleLists(actor, f, w)
  {
    if IsProfessional(actor.role) || actor.role.TeamLeader? {
      ScopedByRole(actor, f, w);
    } else {
      PlainByRole(actor, f, w);
    }
  }

  lemma ScopedByRole(actor: Actor, f: ListFilter, w: WorkItem)
    requires actor.id != "" && "" !in actor.downline && (IsProfessional(actor.role) || actor.role.TeamLeader?)
    ensures Lists(ApplyListScope(actor, f), w) <==> !f.forceEmpty && RoleLists(actor, f, w)
  {
    var g := ApplyListScope(actor, f);
    assert FirmOf(actor) != "";
    SameDetails(g, f, w);
    ScopeOf(g, actor, w);
  }

  lemma PlainByRole(actor: Actor, f: ListFilter, w: WorkItem)
    requires actor.id != "" && !IsProfessional(actor.role) && !actor.role.TeamLeader?
    ensures Lists(ApplyListScope(actor, f), w) <==> !f.forceEmpty && RoleLists(actor, f, w)
  {
    assert FirmOf(actor) != "";
    SameDetails(ApplyListScope(actor, f), f, w);
  }

  /** Scoping changes nothing but the scope. */
  lemma SameDetails(g: ListFilter, f: ListFilter, w: WorkItem)
    requires g == f.(firmKey := g.firmKey, forceEmpty := g.forceEmpty, ownerCA := g.ownerCA, tl := g.tl,
                     scopeDownline := g.scopeDownline, involvedUser := g.involvedUser, assigneeId := g.assigneeId)
    ensures MatchesDetails(g, w) == MatchesDetails(f, w)
  {
  }

  /** The filter presets no scope: the listing endpoint's never does. */
  predicate Unscoped(f: ListFilter) {
    f.ownerCA == "" && f.tl == "" && f.scopeDownline == []
  }

  /** What may be viewed within the firm and the rest of the filter but is not listed: for a
      CA, work that only has them as its team leader; for a team leader, work they own or
      handed out and nothing more; for an executor, work assigned to someone else. */
  lemma ViewableButUnlisted(actor: Actor, f: ListFilter, w: WorkItem)
    requires actor.id != "" && "" !in actor.downline && Unscoped(f)
    requires CanView(actor, w) && BelongsToFirm(FirmOf(actor), w) && MatchesDetails(f, w) && !w.deleted
    requires f.assigneeId == ""
    ensures IsProfessional(actor.role) ==>
              (RoleLists(actor, f, w)
               <==> OwnOrDownline(actor, {w.ownerCA, Assignee(w), w.createdBy, w.assignedBy}, w))
    ensures IsProfessional(actor.role) && !RoleLists(actor, f, w) ==> w.tl == actor.id
    ensures actor.role.TeamLeader? && !RoleLists(actor, f, w) ==> actor.id in {w.ownerCA, w.assignedBy}
    ensures IsExecutor(actor.role) ==> (!RoleLists(actor, f, w) <==> Assignee(w) != actor.id)
  {
  }

  /** What a page holds comes from the listing. */
  lemma OnPage(page: Page, work: map<string, WorkItem>, all: seq<string>, w: WorkItem) returns (id: string)
    requires forall k :: k in all ==> k in work
    requires w in page.items && (page.items == [] || IsPageOf(page, ItemsOf(work, all)))
    ensures id in all && work[id] == w
  {
    var items := ItemsOf(work, all);
    assert w in items;
    var k :| 0 <= k < |items| && items[k] == w;
    id := all[k];
  }

  /** The listing endpoint as a whole: what a caller gets back they may view, and it is a
      page of everything their role lists; HR and reception get the empty page. */
  method ListForActor(work: map<string, WorkItem>, actor: Actor, m: Hierarchy.Managers, f: ListFilter)
    returns (r: Result<Page, Error>, ghost all: seq<string>)
    requires actor.id != "" && Hierarchy.IsDownline(m, actor.id, actor.downline)
    requires NoForeignScope(actor, f)
    ensures r.Failure? <==> !Has(actor, View)
    ensures r.Success? ==> forall w :: w in r.value.items ==>
              CanView(actor, w) && exists id :: id in work && work[id] == w
    ensures r.Success? && !f.forceEmpty ==>
              NoDup(all) && (forall id :: id in all <==> id in work && RoleLists(actor, f, work[id]))
    ensures r.Success? && !f.forceEmpty && !actor.role.HR? && !actor.role.Reception? ==>
              IsPageOf(r.value, ItemsOf(work, all))
    ensures r.Success? && (f.forceEmpty || actor.role.HR? || actor.role.Reception?) ==>
              r.value == Page([], 0, 1, f.pageSize, 0)
  {
    if !Has(actor, View) {
      return Failure(Forbidden), [];
    }
    var scoped := ApplyListScope(actor, f);
    var page;
    page, all := ListWork(work, scoped);
    DownlineHasNoBlank(m, actor.id, actor.downline);
    forall id | id in work ensures Lists(scoped, work[id]) <==> !f.forceEmpty && RoleLists(actor, f, work[id]) {
      ListsByRole(actor, f, work[id]);
    }
    forall w | w in page.items
      ensures CanView(actor, w) && exists id :: id in work && work[id] == w
    {
      var id := OnPage(page, work, all, w);
      ListedIsViewable(actor, f, work[id]);
    }
    return Success(page), all;
  }
}
