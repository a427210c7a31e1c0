// app/application/mock_exams.py and app/application/unlocks.py, `_chapter_nodes`: the nodes of a chapter,
// found with a queue and no record of visited nodes, and the scope summaries built on it.
module Chapters {
  import opened Wrappers

  datatype Node = Node(id: nat, parent: Option<nat>)

  // The ids are primary keys.
  ghost predicate DistinctIds(nodes: seq<Node>) { forall i, j :: 0 <= i < j < |nodes| ==> nodes[i].id != nodes[j].id }

  // The children of a node, in the order of the list.
  function ChildrenOfFirst(nodes: seq<Node>, id: nat, k: nat): seq<Node>
    requires k <= |nodes|
  {
    if k == 0 then []
    else if nodes[k - 1].parent == Some(id) then ChildrenOfFirst(nodes, id, k - 1) + [nodes[k - 1]]
    else ChildrenOfFirst(nodes, id, k - 1)
  }

  function Children(nodes: seq<Node>, id: nat): seq<Node> { ChildrenOfFirst(nodes, id, |nodes|) }

  // Does the parent chain of `n`, followed inside the list, reach the chapter in that many steps?
  ghost predicate Reaches(nodes: seq<Node>, n: Node, chapter: nat, steps: nat)
    decreases steps
  {
    n.id == chapter || (steps > 0 && exists m :: m in nodes && n.parent == Some(m.id) && Reaches(nodes, m, chapter, steps - 1))
  }

  ghost predicate InChapter(nodes: seq<Node>, n: Node, chapter: nat) {
    n in nodes && exists steps: nat :: Reaches(nodes, n, chapter, steps)
  }

  // Exactly the nodes of the chapter, each once.
  ghost predicate IsScope(nodes: seq<Node>, chapter: nat, scope: seq<Node>) {
    DistinctIds(scope) && forall n :: n in scope <==> InChapter(nodes, n, chapter)
  }

  lemma {:induction false} ChildrenAreChildren(nodes: seq<Node>, id: nat, k: nat)
    requires k <= |nodes| && DistinctIds(nodes)
    ensures DistinctIds(ChildrenOfFirst(nodes, id, k))
    ensures forall n :: n in ChildrenOfFirst(nodes, id, k) <==> n in nodes[..k] && n.parent == Some(id)
  {
    if k > 0 {
      ChildrenAreChildren(nodes, id, k - 1);
      assert nodes[..k] == nodes[..k - 1] + [nodes[k - 1]];
      var earlier := ChildrenOfFirst(nodes, id, k - 1);
      forall i | 0 <= i < |earlier| ensures earlier[i].id != nodes[k - 1].id {
        assert earlier[i] in nodes[..k - 1];
      }
    }
  }

  // What the queue loop keeps: found and waiting nodes are distinct nodes of the list that reach the
  // chapter; each has its parent among the found ones; and every child of a found node is found or waiting.
  ghost predicate Exploring(nodes: seq<Node>, chapter: Node, found: seq<Node>, pending: seq<Node>) {
    && DistinctIds(found + pending)
    && (forall n :: n in found + pending ==> InChapter(nodes, n, chapter.id))
    && chapter in found
    && (forall n :: n in found + pending && n != chapter ==> exists m :: m in found && n.parent == Some(m.id))
    && (forall n, m :: n in nodes && m in found && n.parent == Some(m.id) ==> n in found + pending)
  }

  lemma {:induction false} Start(nodes: seq<Node>, chapter: Node)
    requires DistinctIds(nodes) && chapter in nodes && chapter.parent.None?
    ensures Exploring(nodes, chapter, [chapter], Children(nodes, chapter.id))
  {
    var pending := Children(nodes, chapter.id);
    ChildrenAreChildren(nodes, chapter.id, |nodes|);
    assert nodes[..|nodes|] == nodes;
    forall i | 0 <= i < |pending| ensures pending[i].id != chapter.id {
      assert pending[i] in pending;
      if pending[i].id == chapter.id { SameId(nodes, pending[i], chapter); }
    }
    assert Reaches(nodes, chapter, chapter.id, 0);
    forall n | n in pending ensures InChapter(nodes, n, chapter.id) { ReachesFromParent(nodes, n, chapter, chapter.id); }
  }

  lemma {:induction false} SameId(nodes: seq<Node>, a: Node, b: Node)
    requires DistinctIds(nodes) && a in nodes && b in nodes && a.id == b.id
    ensures a == b
  {
    var i :| 0 <= i < |nodes| && nodes[i] == a;
    var j :| 0 <= j < |nodes| && nodes[j] == b;
    assert i == j;
  }

  lemma {:induction false} ReachesFromParent(nodes: seq<Node>, n: Node, m: Node, chapter: nat)
    requires n in nodes && n.parent == Some(m.id) && InChapter(nodes, m, chapter)
    ensures InChapter(nodes, n, chapter)
  {
    var steps: nat :| Reaches(nodes, m, chapter, steps);
    assert Reaches(nodes, n, chapter, steps + 1);
  }

  // Popping a node and queueing its children.  No child is already there: its parent was still waiting.
  lemma {:induction false} Pop(nodes: seq<Node>, chapter: Node, found: seq<Node>, pending: seq<Node>)
    requires DistinctIds(nodes) && chapter in nodes && chapter.parent.None?
    requires Exploring(nodes, chapter, found, pending) && pending != []
    ensures Exploring(nodes, chapter, found + [pending[0]], pending[1..] + Children(nodes, pending[0].id))
  {
    var node := pending[0];
    var children := Children(nodes, node.id);
    ChildrenAreChildren(nodes, node.id, |nodes|);
    assert nodes[..|nodes|] == nodes;
    assert node in found + pending;
    forall n | n in children ensures InChapter(nodes, n, chapter.id) { ReachesFromParent(nodes, n, node, chapter.id); }
    PopDistinct(nodes, chapter, found, pending, children);
    PopMembers(nodes, chapter, found, pending, children);
  }

  lemma {:induction false} PopDistinct(nodes: seq<Node>, chapter: Node, found: seq<Node>, pending: seq<Node>,
      children: seq<Node>)
    requires DistinctIds(nodes) && chapter.parent.None? && Exploring(nodes, chapter, found, pending) && pending != []
    requires DistinctIds(children) && forall n :: n in children <==> n in nodes && n.parent == Some(pending[0].id)
    ensures DistinctIds((found + [pending[0]]) + (pending[1..] + children))
  {
    var all := found + pending;
    assert (found + [pending[0]]) + (pending[1..] + children) == all + children;
    forall i, j | 0 <= i < |all| && 0 <= j < |children| ensures all[i].id != children[j].id {
      ChildIsNew(nodes, chapter, found, pending, all[i], children[j]);
    }
    KeepsDistinct(all, children);
  }

  lemma {:induction false} PopMembers(nodes: seq<Node>, chapter: Node, found: seq<Node>, pending: seq<Node>,
      children: seq<Node>)
    requires Exploring(nodes, chapter, found, pending) && pending != []
    requires forall n :: n in children <==> n in nodes && n.parent == Some(pending[0].id)
    requires forall n :: n in children ==> InChapter(nodes, n, chapter.id)
    ensures
      var all := (found + [pending[0]]) + (pending[1..] + children);
      && (forall n :: n in all ==> InChapter(nodes, n, chapter.id))
      && (forall n :: n in all && n != chapter ==> exists m :: m in found + [pending[0]] && n.parent == Some(m.id))
      && (forall n, m :: n in nodes && m in found + [pending[0]] && n.parent == Some(m.id) ==> n in all)
  {
    assert (found + [pending[0]]) + (pending[1..] + children) == (found + pending) + children;
    assert pending[0] in found + [pending[0]];
    forall n | n in found + pending && n != chapter ensures exists m :: m in found + [pending[0]] && n.parent == Some(m.id) {
      var m :| m in found && n.parent == Some(m.id);
      assert m in found + [pending[0]];
    }
  }

  lemma {:induction false} KeepsDistinct(a: seq<Node>, b: seq<Node>)
    requires DistinctIds(a) && DistinctIds(b) && forall i, j :: 0 <= i < |a| && 0 <= j < |b| ==> a[i].id != b[j].id
    ensures DistinctIds(a + b)
  {
  }

  lemma {:induction false} FoundIsNotWaiting(found: seq<Node>, pending: seq<Node>, i: nat)
    requires DistinctIds(found + pending) && i < |found| && pending != []
    ensures found[i].id != pending[0].id
  {
    var all := found + pending;
    assert all[i] == found[i] && all[|found|] == pending[0];
  }

  lemma {:induction false} ChildIsNew(nodes: seq<Node>, chapter: Node, found: seq<Node>, pending: seq<Node>, n: Node,
      child: Node)
    requires DistinctIds(nodes) && chapter.parent.None? && pending != []
    requires n in found + pending && child in nodes && child.parent == Some(pending[0].id)
    ensures Exploring(nodes, chapter, found, pending) ==> n.id != child.id
  {
    if Exploring(nodes, chapter, found, pending) && n.id == child.id {
      SameId(nodes, n, child);
      var m :| m in found && n.parent == Some(m.id);
      var i :| 0 <= i < |found| && found[i] == m;
      FoundIsNotWaiting(found, pending, i);
    }
  }

  // Distinct nodes of the list are no more than the list holds.
  lemma {:induction false} NoMoreThanListed(nodes: seq<Node>, some: seq<Node>)
    requires DistinctIds(some) && forall n :: n in some ==> n in nodes
    ensures |some| <= |nodes|
  {
    var a, b := IdsOf(some), IdsOf(nodes);
    IdsSize(some);
    IdsSize(nodes);
    assert forall id :: id in a ==> id in b;
    SubsetSize(a, b);
  }

  ghost function IdsOf(nodes: seq<Node>): set<nat> { set n | n in nodes :: n.id }

  lemma {:induction false} IdsSize(nodes: seq<Node>)
    ensures |IdsOf(nodes)| <= |nodes| && (DistinctIds(nodes) ==> |IdsOf(nodes)| == |nodes|)
  {
    if nodes != [] {
      var front, last := nodes[..|nodes| - 1], nodes[|nodes| - 1];
      IdsSize(front);
      assert nodes == front + [last];
      assert IdsOf(nodes) == IdsOf(front) + {last.id};
      if DistinctIds(nodes) {
        assert forall i :: 0 <= i < |front| ==> front[i] == nodes[i] && front[i].id != last.id;
        assert last.id !in IdsOf(front);
      }
    }
  }

  // ---- The order of discovery --------------------------------------------------------------

  // Nearer nodes come first: as many steps as take a later node to the chapter are enough for an earlier one.
  ghost predicate NearestFirst(nodes: seq<Node>, chapter: nat, order: seq<Node>) {
    forall i, j, steps: nat :: 0 <= i <= j < |order| && Reaches(nodes, order[j], chapter, steps) ==>
      Reaches(nodes, order[i], chapter, steps)
  }

  // A waiting node is at most one step farther away than the one to be popped next.
  ghost predicate OneStepAhead(nodes: seq<Node>, chapter: nat, from: Node, pending: seq<Node>) {
    forall j, steps: nat :: 0 <= j < |pending| && Reaches(nodes, from, chapter, steps) ==> Reaches(nodes, pending[j], chapter, steps + 1)
  }

  lemma {:induction false} MoreStepsReach(nodes: seq<Node>, n: Node, chapter: nat, steps: nat)
    requires Reaches(nodes, n, chapter, steps)
    ensures Reaches(nodes, n, chapter, steps + 1)
    decreases steps
  {
    if n.id != chapter {
      var m :| m in nodes && n.parent == Some(m.id) && Reaches(nodes, m, chapter, steps - 1);
      MoreStepsReach(nodes, m, chapter, steps - 1);
    }
  }

  // A child takes one step more than its parent.
  lemma {:induction false} ChildIsOneFarther(nodes: seq<Node>, child: Node, node: Node, chapter: nat, steps: nat)
    requires DistinctIds(nodes) && node in nodes && child.parent == Some(node.id)
    ensures Reaches(nodes, node, chapter, steps) ==> Reaches(nodes, child, chapter, steps + 1)
    ensures Reaches(nodes, child, chapter, steps) && child.id != chapter ==> steps > 0 && Reaches(nodes, node, chapter, steps - 1)
  {
    if Reaches(nodes, child, chapter, steps) && child.id != chapter {
      var m :| m in nodes && child.parent == Some(m.id) && Reaches(nodes, m, chapter, steps - 1);
      SameId(nodes, m, node);
    }
  }

  lemma {:induction false} PopKeepsOrder(nodes: seq<Node>, chapter: nat, found: seq<Node>, pending: seq<Node>,
      children: seq<Node>)
    requires DistinctIds(nodes) && pending != [] && pending[0] in nodes
    requires NearestFirst(nodes, chapter, found + pending) && OneStepAhead(nodes, chapter, pending[0], pending)
    requires forall c :: c in children ==> c.parent == Some(pending[0].id) && c.id != chapter
    ensures NearestFirst(nodes, chapter, (found + [pending[0]]) + (pending[1..] + children))
    ensures pending[1..] + children != [] ==> OneStepAhead(nodes, chapter, (pending[1..] + children)[0], pending[1..] + children)
  {
    var all, node := found + pending, pending[0];
    var after := all + children;
    assert (found + [node]) + (pending[1..] + children) == after;
    assert all[|found|] == node;
    forall i, j, steps: nat | 0 <= i <= j < |after| && Reaches(nodes, after[j], chapter, steps)
      ensures Reaches(nodes, after[i], chapter, steps)
    {
      if j >= |all| {
        var child := children[j - |all|];
        assert child in children;
        ChildIsOneFarther(nodes, child, node, chapter, steps);
        EarlierIsNoFarther(nodes, chapter, found, pending, children, i, steps - 1);
      }
    }
    var rest := pending[1..] + children;
    if rest != [] {
      forall j, steps: nat | 0 <= j < |rest| && Reaches(nodes, rest[0], chapter, steps)
        ensures Reaches(nodes, rest[j], chapter, steps + 1)
      {
        assert after[|found| + 1] == rest[0];
        assert Reaches(nodes, after[|found|], chapter, steps);
        EarlierIsNoFarther(nodes, chapter, found, pending, children, |found| + 1 + j, steps);
      }
    }
  }

  // Whatever stands in the queue or before it, and every new child, is within one step of the popped node.
  lemma {:induction false} EarlierIsNoFarther(nodes: seq<Node>, chapter: nat, found: seq<Node>, pending: seq<Node>,
      children: seq<Node>,
      i: nat, steps: nat)
    requires DistinctIds(nodes) && pending != [] && pending[0] in nodes && i < |found + pending + children|
    requires NearestFirst(nodes, chapter, found + pending) && OneStepAhead(nodes, chapter, pending[0], pending)
    requires forall c :: c in children ==> c.parent == Some(pending[0].id)
    requires Reaches(nodes, pending[0], chapter, steps)
    ensures Reaches(nodes, (found + pending + children)[i], chapter, steps + 1)
  {
    var all := found + pending;
    assert all[|found|] == pending[0];
    if i < |found| {
      assert Reaches(nodes, all[i], chapter, steps);
      MoreStepsReach(nodes, all[i], chapter, steps);
    } else if i < |all| {
      assert all[i] == pending[i - |found|];
    } else {
      var child := children[i - |all|];
      assert child in children;
      ChildIsOneFarther(nodes, child, pending[0], chapter, steps);
    }
  }

  lemma {:induction false} PopInOrder(nodes: seq<Node>, chapter: Node, found: seq<Node>, pending: seq<Node>)
    requires DistinctIds(nodes) && chapter in nodes && chapter.parent.None?
    requires Exploring(nodes, chapter, found, pending) && pending != []
    requires NearestFirst(nodes, chapter.id, found + pending) && OneStepAhead(nodes, chapter.id, pending[0], pending)
    ensures
      var rest := pending[1..] + Children(nodes, pending[0].id);
      && NearestFirst(nodes, chapter.id, (found + [pending[0]]) + rest)
      && (rest != [] ==> OneStepAhead(nodes, chapter.id, rest[0], rest))
  {
    var children := Children(nodes, pending[0].id);
    ChildrenAreOthers(nodes, chapter, pending[0].id);
    assert pending[0] in found + pending;
    PopKeepsOrder(nodes, chapter.id, found, pending, children);
  }

  lemma {:induction false} ChildrenAreOthers(nodes: seq<Node>, chapter: Node, id: nat)
    requires DistinctIds(nodes) && chapter in nodes && chapter.parent.None?
    ensures forall c :: c in Children(nodes, id) ==> c in nodes && c.parent == Some(id) && c.id != chapter.id
  {
    ChildrenAreChildren(nodes, id, |nodes|);
    assert nodes[..|nodes|] == nodes;
    forall c | c in Children(nodes, id) ensures c.id != chapter.id {
      if c.id == chapter.id { SameId(nodes, c, chapter); }
    }
  }

  lemma {:induction false} StartsInOrder(nodes: seq<Node>, chapter: Node)
    requires DistinctIds(nodes) && chapter in nodes && chapter.parent.None?
    ensures
      var pending := Children(nodes, chapter.id);
      && NearestFirst(nodes, chapter.id, [chapter] + pending)
      && (pending != [] ==> OneStepAhead(nodes, chapter.id, pending[0], pending))
  {
    var pending := Children(nodes, chapter.id);
    ChildrenAreOthers(nodes, chapter, chapter.id);
    assert [chapter] + [] == [chapter];
    assert OneStepAhead(nodes, chapter.id, chapter, [chapter]);
    PopKeepsOrder(nodes, chapter.id, [], [chapter], pending);
    assert ([] + [[chapter][0]]) + ([chapter][1..] + pending) == [chapter] + pending;
    assert [chapter][1..] + pending == pending;
  }

  // With an empty queue everything that reaches the chapter has been found.
  lemma {:induction false} NothingIsMissed(nodes: seq<Node>, chapter: Node, found: seq<Node>, n: Node, steps: nat)
    requires DistinctIds(nodes) && chapter in nodes && Exploring(nodes, chapter, found, [])
    requires n in nodes && Reaches(nodes, n, chapter.id, steps)
    ensures n in found
    decreases steps
  {
    if n.id == chapter.id {
      SameId(nodes, n, chapter);
    } else {
      var m :| m in nodes && n.parent == Some(m.id) && Reaches(nodes, m, chapter.id, steps - 1);
      NothingIsMissed(nodes, chapter, found, m, steps - 1);
      assert found + [] == found;
    }
  }

  // `children_by_parent`.
  method GroupByParent(nodes: seq<Node>) returns (children: map<nat, seq<Node>>)
    ensures forall id: nat :: (if id in children then children[id] else []) == Children(nodes, id)
  {
    children := map[];
    for k := 0 to |nodes|
      invariant forall id: nat :: (if id in children then children[id] else []) == ChildrenOfFirst(nodes, id, k)
    {
      if nodes[k].parent.Some? {
        var p := nodes[k].parent.value;
        children := children[p := (if p in children then children[p] else []) + [nodes[k]]];
      }
    }
  }

  // `_chapter_nodes`: terminates from any node without a parent, whatever cycles the other nodes form, and
  // returns exactly the chapter, each node once, the nearer ones first.
  method ChapterNodes(nodes: seq<Node>, chapter: Node, children: map<nat, seq<Node>>) returns (result: seq<Node>)
    requires DistinctIds(nodes) && chapter in nodes && chapter.parent.None?
    requires forall id: nat :: (if id in children then children[id] else []) == Children(nodes, id)
    ensures IsScope(nodes, chapter.id, result) && NearestFirst(nodes, chapter.id, result)
  {
    result := [chapter];
    var pending := if chapter.id in children then children[chapter.id] else [];
    Start(nodes, chapter);
    StartsInOrder(nodes, chapter);
    while pending != []
      invariant Exploring(nodes, chapter, result, pending)
      invariant NearestFirst(nodes, chapter.id, result + pending)
      invariant pending != [] ==> OneStepAhead(nodes, chapter.id, pending[0], pending)
      invariant |result| <= |nodes|
      decreases |nodes| - |result|
    {
      Pop(nodes, chapter, result, pending);
      PopInOrder(nodes, chapter, result, pending);
      NoMoreThanListed(nodes, result + pending);
      var node := pending[0];
      pending := pending[1..];
      result := result + [node];
      pending := pending + if node.id in children then children[node.id] else [];
    }
    assert result + [] == result;
    forall n | InChapter(nodes, n, chapter.id) ensures n in result {
      var steps: nat :| Reaches(nodes, n, chapter.id, steps);
      NothingIsMissed(nodes, chapter, result, n, steps);
    }
  }

  // ---- Scopes ------------------------------------------------------------------------------

  // Different chapters share no node.
  lemma {:induction false} ScopesAreDisjoint(nodes: seq<Node>, a: Node, b: Node, n: Node, i: nat, j: nat)
    requires DistinctIds(nodes) && a in nodes && b in nodes && a.parent.None? && b.parent.None?
    requires n in nodes && Reaches(nodes, n, a.id, i) && Reaches(nodes, n, b.id, j)
    ensures a == b
    decreases i
  {
    if n.id == a.id {
      SameId(nodes, n, a);
      SameId(nodes, n, b);
    } else if n.id == b.id {
      SameId(nodes, n, b);
      assert false;
    } else {
      var m :| m in nodes && n.parent == Some(m.id) && Reaches(nodes, m, a.id, i - 1);
      var l :| l in nodes && n.parent == Some(l.id) && Reaches(nodes, l, b.id, j - 1);
      SameId(nodes, m, l);
      ScopesAreDisjoint(nodes, a, b, m, i - 1, j - 1);
    }
  }

  // A parent cycle of any length: each node's parent is the next one, and the last one's the first.
  ghost predicate ParentCycle(nodes: seq<Node>, cycle: seq<Node>) {
    cycle != [] && forall i :: 0 <= i < |cycle| ==> cycle[i] in nodes && cycle[i].parent == Some(NextOn(cycle, i).id)
  }

  function NextOn(cycle: seq<Node>, i: nat): Node
    requires i < |cycle|
  {
    if i + 1 < |cycle| then cycle[i + 1] else cycle[0]
  }

  // No chapter reaches into a parent cycle.
  lemma {:induction false} CyclesBelongNowhere(nodes: seq<Node>, chapter: Node, cycle: seq<Node>, i: nat, steps: nat)
    requires DistinctIds(nodes) && chapter in nodes && chapter.parent.None? && ParentCycle(nodes, cycle) && i < |cycle|
    ensures !Reaches(nodes, cycle[i], chapter.id, steps)
    decreases steps
  {
    if Reaches(nodes, cycle[i], chapter.id, steps) {
      if cycle[i].id == chapter.id {
        assert false;
      } else {
        var p :| p in nodes && cycle[i].parent == Some(p.id) && Reaches(nodes, p, chapter.id, steps - 1);
        var next := if i + 1 < |cycle| then i + 1 else 0;
        SameId(nodes, p, cycle[next]);
        CyclesBelongNowhere(nodes, chapter, cycle, next, steps - 1);
      }
    }
  }

  function RootsOfFirst(nodes: seq<Node>, k: nat): seq<Node>
    requires k <= |nodes|
  {
    if k == 0 then []
    else if nodes[k - 1].parent.None? then RootsOfFirst(nodes, k - 1) + [nodes[k - 1]]
    else RootsOfFirst(nodes, k - 1)
  }

  // The chapters of a school and the nodes of each, as `specialized_scopes` walks them.
  method SpecializedScopes(nodes: seq<Node>) returns (scopes: seq<seq<Node>>)
    requires DistinctIds(nodes)
    ensures |scopes| == |RootsOfFirst(nodes, |nodes|)|
    ensures forall c :: 0 <= c < |scopes| ==> IsScope(nodes, RootsOfFirst(nodes, |nodes|)[c].id, scopes[c])
  {
    var children := GroupByParent(nodes);
    scopes := [];
    for k := 0 to |nodes|
      invariant |scopes| == |RootsOfFirst(nodes, k)|
      invariant forall c :: 0 <= c < |scopes| ==> IsScope(nodes, RootsOfFirst(nodes, k)[c].id, scopes[c])
    {
      if nodes[k].parent.None? {
        var scope := ChapterNodes(nodes, nodes[k], children);
        scopes := scopes + [scope];
      }
    }
  }

  // What a student has done at one node.
  datatype Progress = Progress(questionTotal: nat, questionDone: nat, strengthened: bool)

  datatype Summary = Summary(strengthened: bool, total: nat, completed: nat) {
    predicate Unlocked() { strengthened && total > 0 && completed >= total }
  }

  // A node is finished when its questions are all done and it has been strengthened.
  predicate Finished(p: Progress) { p.questionTotal > 0 ==> p.strengthened && p.questionDone >= p.questionTotal }

  function TotalOfFirst(scope: seq<Progress>, k: nat): nat
    requires k <= |scope|
  {
    if k == 0 then 0 else TotalOfFirst(scope, k - 1) + scope[k - 1].questionTotal
  }

  // Work beyond a node's own total does not count.
  function DoneOfFirst(scope: seq<Progress>, k: nat): nat
    requires k <= |scope|
  {
    if k == 0 then 0
    else
      var p := scope[k - 1];
      DoneOfFirst(scope, k - 1) + if p.questionDone < p.questionTotal then p.questionDone else p.questionTotal
  }

  // The accumulation over a scope.  Work beyond a node's own total does not make up for another node: the
  // specialized paper opens exactly when there are questions and every node that has some is finished.
  method Summarize(scope: seq<Progress>) returns (s: Summary)
    ensures s.total == TotalOfFirst(scope, |scope|) && s.completed == DoneOfFirst(scope, |scope|)
    ensures s.strengthened <==> forall i :: 0 <= i < |scope| && scope[i].questionTotal > 0 ==> scope[i].strengthened
    ensures s.Unlocked() <==> (exists i :: 0 <= i < |scope| && scope[i].questionTotal > 0)
                              && (forall i :: 0 <= i < |scope| ==> Finished(scope[i]))
  {
    s := Summary(true, 0, 0);
    for k := 0 to |scope|
      invariant s.completed <= s.total
      invariant s.total == TotalOfFirst(scope, k) && s.completed == DoneOfFirst(scope, k)
      invariant s.strengthened <==> forall i :: 0 <= i < k && scope[i].questionTotal > 0 ==> scope[i].strengthened
      invariant s.total > 0 <==> exists i :: 0 <= i < k && scope[i].questionTotal > 0
      invariant s.strengthened && s.completed == s.total <==> forall i :: 0 <= i < k ==> Finished(scope[i])
    {
      var p := scope[k];
      if p.questionTotal > 0 {
        var counted := if p.questionDone < p.questionTotal then p.questionDone else p.questionTotal;
        s := Summary(s.strengthened && p.strengthened, s.total + p.questionTotal, s.completed + counted);
      }
    }
  }
}
