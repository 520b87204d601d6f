/** The reporting hierarchy: who reports to whom, directly or through others. */
module Hierarchy {
  import opened Tables

  type Managers = map<string, string>

  /** The manager one step up; blank users and blank managers do not count. */
  function ManagerOf(m: Managers, user: string): Option<string> {
    if user != "" && user in m && m[user] != "" then Some(m[user]) else None
  }

  /** Following managers n times. */
  function Climb(m: Managers, user: string, n: nat): Option<string>
    decreases n
  {
    if n == 0 then Some(user)
    else
      var up := ManagerOf(m, user);
      if up.None? then None else Climb(m, up.value, n - 1)
  }

  /** Following managers one or more times from user arrives at root. */
  ghost predicate ReportsTo(m: Managers, user: string, root: string) {
    exists n: nat :: n > 0 && Climb(m, user, n) == Some(root)
  }

  /** Everyone but the root who reports to the root, directly or not. */
  ghost predicate IsDownline(m: Managers, root: string, out: seq<string>) {
    && NoDup(out)
    && forall u :: u in out <==> u != root && ReportsTo(m, u, root)
  }

  lemma OneStep(m: Managers, user: string, root: string)
    requires ManagerOf(m, user) == Some(root)
    ensures ReportsTo(m, user, root)
  {
    assert Climb(m, root, 0) == Some(root);
    assert Climb(m, user, 1) == Some(root);
  }

  lemma OneMoreStep(m: Managers, user: string, via: string, root: string)
    requires ManagerOf(m, user) == Some(via) && ReportsTo(m, via, root)
    ensures ReportsTo(m, user, root)
  {
    var n: nat :| n > 0 && Climb(m, via, n) == Some(root);
    assert Climb(m, user, n + 1) == Some(root);
  }

  /** The children of each manager, the queue not yet expanded, and everyone seen:
      what has been seen reports to the root, and only queued managers may have
      children unseen. */
  ghost predicate Explored(m: Managers, root: string, seen: set<string>, queue: seq<string>) {
    && root in seen
    && (forall q :: q in queue ==> q in seen)
    && (forall u :: u in seen && u != root ==> u in m && ReportsTo(m, u, root))
    && (forall u, up :: ManagerOf(m, u) == Some(up) && up in seen && up !in queue ==> u in seen)
  }

  /** Once the queue is empty, nobody who reports to the root is unseen. */
  lemma {:induction false} Complete(m: Managers, root: string, seen: set<string>, user: string, n: nat)
    requires Explored(m, root, seen, [])
    requires Climb(m, user, n) == Some(root)
    ensures user in seen
    decreases n
  {
    if n > 0 {
      Complete(m, root, seen, ManagerOf(m, user).value, n - 1);
    }
  }

  ghost predicate IsChildren(m: Managers, children: map<string, seq<string>>) {
    && (forall mgr :: mgr in children ==> NoDup(children[mgr]))
    && (forall u, mgr :: (mgr in children && u in children[mgr]) <==> ManagerOf(m, u) == Some(mgr))
  }

  /** The children map, filled in whatever order the managers map is walked. */
  method ChildrenOf(m: Managers) returns (children: map<string, seq<string>>)
    ensures IsChildren(m, children)
  {
    children := map[];
    var left := m.Keys;
    while left != {}
      invariant left <= m.Keys
      invariant forall mgr :: mgr in children ==> NoDup(children[mgr])
      invariant forall u, mgr :: (mgr in children && u in children[mgr])
                  <==> (u !in left && ManagerOf(m, u) == Some(mgr))
      decreases left
    {
      var child :| child in left;
      left := left - {child};
      var mgr := m[child];
      if child == "" || mgr == "" {
        continue;
      }
      var siblings := if mgr in children then children[mgr] else [];
      children := children[mgr := siblings + [child]];
    }
  }

  method CollectDownlineIDs(m: Managers, root: string) returns (out: seq<string>)
    ensures root != "" ==> IsDownline(m, root, out)
    ensures root == "" ==> out == []
  {
    if root == "" {
      return [];
    }
    if |m| == 0 {
      NobodyReports(m, root);
      return [];
    }
    var children := ChildrenOf(m);
    var seen := {root};
    out := [];
    var queue := [root];
    while queue != []
      invariant Explored(m, root, seen, queue)
      invariant NoDup(out) && forall u :: u in out <==> u in seen && u != root
      decreases m.Keys - seen, |queue|
    {
      var cur := queue[0];
      var kids := if cur in children then children[cur] else [];
      queue, seen, out := Expand(m, root, kids, cur, queue, seen, out);
    }
    forall u | u != root && ReportsTo(m, u, root) ensures u in out {
      var n: nat :| n > 0 && Climb(m, u, n) == Some(root);
      Complete(m, root, seen, u, n);
    }
  }

  lemma NobodyReports(m: Managers, root: string)
    requires m == map[]
    ensures forall u :: !ReportsTo(m, u, root)
  {
    forall u, n: nat | n > 0 ensures Climb(m, u, n) != Some(root) {
      assert ManagerOf(m, u).None?;
    }
  }

  /** One turn of the breadth-first loop: the head of the queue gives way to its
      unseen children. */
  method Expand(m: Managers, root: string, kids: seq<string>, cur: string,
                queue0: seq<string>, seen0: set<string>, out0: seq<string>)
    returns (queue: seq<string>, seen: set<string>, out: seq<string>)
    requires queue0 != [] && cur == queue0[0] && Explored(m, root, seen0, queue0)
    requires NoDup(out0) && forall u :: u in out0 <==> u in seen0 && u != root
    requires forall u :: u in kids <==> ManagerOf(m, u) == Some(cur)
    ensures Explored(m, root, seen, queue)
    ensures NoDup(out) && forall u :: u in out <==> u in seen && u != root
    ensures m.Keys - seen < m.Keys - seen0 || (seen == seen0 && queue == queue0[1..])
    ensures seen0 <= seen
  {
    queue, seen, out := queue0[1..], seen0, out0;
    for i := 0 to |kids|
      invariant seen0 <= seen && root in seen
      invariant forall q :: q in queue ==> q in seen
      invariant forall q :: q in queue0 && q != cur ==> q in queue
      invariant forall u :: u in seen ==> u in seen0 || u in queue
      invariant forall u :: u in seen && u != root ==> u in m && ReportsTo(m, u, root)
      invariant forall k :: 0 <= k < i ==> kids[k] in seen
      invariant NoDup(out) && forall u :: u in out <==> u in seen && u != root
      invariant (seen == seen0 && queue == queue0[1..]) || m.Keys - seen < m.Keys - seen0
    {
      var id := kids[i];
      assert ManagerOf(m, id) == Some(cur);
      if id in seen {
        continue;
      }
      if cur == root {
        OneStep(m, id, root);
      } else {
        OneMoreStep(m, id, cur, root);
      }
      assert id in m.Keys - seen && id !in m.Keys - (seen + {id});
      seen := seen + {id};
      out := out + [id];
      queue := queue + [id];
    }
    forall u, up | ManagerOf(m, u) == Some(up) && up in seen && up !in queue
      ensures u in seen
    {
      if up == cur {
        assert u in kids;
      } else {
        assert up in seen0 && up !in queue0;
      }
    }
  }
}
