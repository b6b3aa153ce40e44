/** Outline validation: a forest of nodes, partitioned by units whose dependencies have no cycle. */
module Outline {

  datatype Node = Node(nodeKey: string, parentKey: string, unitKey: string, title: string, ordinal: int)
  datatype Unit = Unit(unitKey: string, title: string, ordinal: int, nodeKeys: seq<string>, dependsOn: seq<string>)
  datatype Candidate = Candidate(schemaVersion: string, title: string, requirementSize: string,
                                 nodes: seq<Node>, units: seq<Unit>)

  type Graph = map<string, set<string>>

  // ---------------------------------------------------------------- cycles

  /** Every key's dependencies are keys. */
  predicate Closed(g: Graph) {
    forall k, d | k in g && d in g[k] :: d in g
  }

  /** Consecutive keys are linked by a dependency. */
  predicate IsPath(g: Graph, p: seq<string>) {
    && (forall i | 0 <= i < |p| :: p[i] in g)
    && (forall i, j | 0 <= i < |p| && j == i + 1 && j < |p| :: p[j] in g[p[i]])
  }

  predicate IsCycle(g: Graph, p: seq<string>) {
    p != [] && IsPath(g, p) && p[0] in g[p[|p| - 1]]
  }

  ghost predicate Cyclic(g: Graph) {
    exists p :: IsCycle(g, p)
  }

  predicate Distinct<T(==)>(s: seq<T>) {
    forall i, j | 0 <= i < j < |s| :: s[i] != s[j]
  }

  /** Every key comes after the keys it depends on. */
  ghost predicate Topological(g: Graph, order: seq<string>) {
    && Distinct(order)
    && (forall i | 0 <= i < |order| :: order[i] in g)
    && (forall i, d | 0 <= i < |order| && d in g[order[i]] :: exists j :: 0 <= j < i && order[j] == d)
  }

  ghost function Position(order: seq<string>, k: string): (i: nat)
    requires k in order
    ensures i < |order| && order[i] == k
  {
    var i :| 0 <= i < |order| && order[i] == k;
    i
  }

  /** Along a path that starts in a topological order, positions only fall. */
  lemma {:induction false} PathDescends(g: Graph, order: seq<string>, p: seq<string>, n: nat)
    requires Topological(g, order) && IsPath(g, p) && n < |p| && p[0] in order
    ensures p[n] in order && Position(order, p[n]) <= Position(order, p[0])
  {
    if n > 0 {
      PathDescends(g, order, p, n - 1);
    }
  }

  /** So the last key of such a path does not depend on the first. */
  lemma PathStaysOpen(g: Graph, order: seq<string>, p: seq<string>)
    requires Topological(g, order) && IsPath(g, p) && p != [] && p[0] in order
    ensures p[0] !in g[p[|p| - 1]]
  {
    PathDescends(g, order, p, |p| - 1);
  }

  /** A topological order of all keys rules out cycles. */
  lemma TopologicalIsAcyclic(g: Graph, order: seq<string>)
    requires Topological(g, order) && forall k | k in g :: k in order
    ensures !Cyclic(g)
  {
    forall p | IsPath(g, p) && p != [] ensures !IsCycle(g, p) {
      PathStaysOpen(g, order, p);
    }
  }

  // ---------------------------------------------------------------- the depth-first check

  class CycleCheck {
    const dependencies: Graph
    var visiting: set<string>
    var visited: set<string>
    ghost var stack: seq<string>
    ghost var order: seq<string>

    constructor (dependencies: Graph)
      requires Closed(dependencies)
      ensures Valid() && this.dependencies == dependencies && stack == []
    {
      this.dependencies := dependencies;
      visiting, visited := {}, {};
      stack, order := [], [];
    }

    /** The keys being visited form a path, and the visited keys a topological order. */
    ghost predicate Valid()
      reads this
    {
      && Closed(dependencies)
      && IsPath(dependencies, stack)
      && (forall k :: k in visiting <==> k in stack)
      && Topological(dependencies, order)
      && (forall k :: k in visited <==> k in order)
      && visiting !! visited
    }

    /** The visit of a key.  It fails only on a cycle; otherwise the key and everything it needs is visited. */
    method Visit(key: string) returns (ok: bool)
      requires Valid() && key in dependencies
      requires stack != [] ==> key in dependencies[stack[|stack| - 1]]
      modifies this
      ensures !ok ==> Cyclic(dependencies)
      ensures ok ==>
                Valid() && stack == old(stack) && visiting == old(visiting) && key in visited && old(visited) <= visited
      decreases dependencies.Keys - visiting
    {
      if key in visiting {
        CycleFound(dependencies, stack, key);
        return false;
      }
      if key in visited {
        return true;
      }
      visiting := visiting + {key};
      stack := stack + [key];
      var todo := dependencies[key];
      while todo != {}
        invariant Valid() && stack == old(stack) + [key] && visiting == old(visiting) + {key}
        invariant old(visited) <= visited && key !in visited
        invariant todo <= dependencies[key]
        invariant dependencies[key] - todo <= visited
        decreases todo
      {
        var dependency :| dependency in todo;
        assert stack[|stack| - 1] == key;
        ok := Visit(dependency);
        if !ok {
          return;
        }
        todo := todo - {dependency};
      }
      Finished(dependencies, order, key);
      visiting := visiting - {key};
      stack := stack[..|stack| - 1];
      visited := visited + {key};
      order := order + [key];
      return true;
    }
  }

  /** A key met again while it is being visited closes a cycle. */
  lemma CycleFound(g: Graph, stack: seq<string>, key: string)
    requires IsPath(g, stack) && key in stack && key in g[stack[|stack| - 1]]
    ensures Cyclic(g)
  {
    var i :| 0 <= i < |stack| && stack[i] == key;
    assert IsCycle(g, stack[i..]);
  }

  /** A key whose dependencies are all visited extends the order. */
  lemma Finished(g: Graph, order: seq<string>, key: string)
    requires Topological(g, order) && key in g && key !in order
    requires forall d | d in g[key] :: d in order
    ensures Topological(g, order + [key])
  {
    var after := order + [key];
    forall i, d | 0 <= i < |after| && d in g[after[i]] ensures exists j :: 0 <= j < i && after[j] == d {
      if i < |order| {
        var j :| 0 <= j < i && order[j] == d;
        assert after[j] == d;
      } else {
        var j :| 0 <= j < |order| && order[j] == d;
        assert after[j] == d;
      }
    }
  }

  /** The cycle check is exact: it accepts if and only if the dependencies have no cycle. */
  method ValidateDependencyGraph(dependencies: Graph) returns (ok: bool)
    requires Closed(dependencies)
    ensures ok <==> !Cyclic(dependencies)
  {
    var check := new CycleCheck(dependencies);
    var todo := dependencies.Keys;
    while todo != {}
      invariant check.Valid() && check.dependencies == dependencies && check.stack == []
      invariant todo <= dependencies.Keys && dependencies.Keys - todo <= check.visited
      decreases todo
    {
      var key :| key in todo;
      ok := check.Visit(key);
      if !ok {
        return;
      }
      todo := todo - {key};
    }
    TopologicalIsAcyclic(dependencies, check.order);
    return true;
  }

  // ---------------------------------------------------------------- progress

  /** Some unconfirmed key, reached from the end of a path of unconfirmed keys, has all its dependencies confirmed. */
  lemma {:induction false} ReadyFrom(g: Graph, confirmed: set<string>, p: seq<string>) returns (k: string)
    requires Closed(g) && !Cyclic(g)
    requires p != [] && IsPath(g, p) && Distinct(p) && forall i | 0 <= i < |p| :: p[i] !in confirmed
    ensures k in g && k !in confirmed && g[k] <= confirmed
    decreases g.Keys - set x | x in p
  {
    var last := p[|p| - 1];
    if g[last] <= confirmed {
      return last;
    }
    var d :| d in g[last] && d !in confirmed;
    if d in p {
      CycleFound(g, p, d);
    }
    assert d in g.Keys - (set x | x in p);
    assert d in p + [d];
    k := ReadyFrom(g, confirmed, p + [d]);
  }

  /** With no cycle, confirmation never blocks: short of all units, some unconfirmed unit has every dependency
      confirmed. */
  lemma ConfirmationNeverBlocks(g: Graph, confirmed: set<string>)
    requires Closed(g) && !Cyclic(g) && !(g.Keys <= confirmed)
    ensures exists k :: k in g && k !in confirmed && g[k] <= confirmed
  {
    var start :| start in g.Keys && start !in confirmed;
    var k := ReadyFrom(g, confirmed, [start]);
  }

  // ---------------------------------------------------------------- keys

  function NodeKey(n: Node): string {
    n.nodeKey
  }

  function UnitKey(u: Unit): string {
    u.unitKey
  }

  /** The dictionary of items by key; a later item replaces an earlier one with the same key. */
  function ByKey<T>(items: seq<T>, key: T -> string): map<string, T> {
    if items == [] then map[]
    else
      var last := items[|items| - 1];
      ByKey(items[..|items| - 1], key)[key(last) := last]
  }

  predicate DistinctKeys<T>(items: seq<T>, key: T -> string) {
    forall i, j | 0 <= i < j < |items| :: key(items[i]) != key(items[j])
  }

  lemma {:induction false} ByKeyFinds<T>(items: seq<T>, key: T -> string)
    ensures var m := ByKey(items, key);
            && (forall k | k in m :: m[k] in items && key(m[k]) == k)
            && (forall x | x in items :: key(x) in m)
  {
    if items != [] {
      ByKeyFinds(items[..|items| - 1], key);
      assert items == items[..|items| - 1] + [items[|items| - 1]];
    }
  }

  /** With distinct keys the dictionary holds every item. */
  lemma ByKeyKeeps<T>(items: seq<T>, key: T -> string, x: T)
    requires DistinctKeys(items, key) && x in items
    ensures key(x) in ByKey(items, key) && ByKey(items, key)[key(x)] == x
  {
    ByKeyFinds(items, key);
    var i, j :| 0 <= i < |items| && 0 <= j < |items| && items[i] == x && items[j] == ByKey(items, key)[key(x)];
    assert key(items[i]) == key(items[j]);
  }

  /** Adding an item keeps the keys distinct exactly when its key is new. */
  lemma DistinctSnoc<T>(front: seq<T>, last: T, key: T -> string)
    ensures DistinctKeys(front + [last], key) <==> DistinctKeys(front, key) && key(last) !in ByKey(front, key)
  {
    var items := front + [last];
    ByKeyFinds(front, key);
    if key(last) in ByKey(front, key) {
      var i :| 0 <= i < |front| && front[i] == ByKey(front, key)[key(last)];
      assert key(items[i]) == key(items[|front|]);
    } else {
      assert forall i | 0 <= i < |front| :: items[i] == front[i] && front[i] in front;
    }
  }

  /** The dictionary is as long as the list exactly when the keys are distinct. */
  lemma {:induction false} ByKeyCounts<T>(items: seq<T>, key: T -> string)
    ensures |ByKey(items, key)| <= |items|
    ensures |ByKey(items, key)| == |items| <==> DistinctKeys(items, key)
  {
    if items != [] {
      var front, last := items[..|items| - 1], items[|items| - 1];
      ByKeyCounts(front, key);
      DistinctSnoc(front, last, key);
      assert items == front + [last];
    }
  }

  method Index<T>(items: seq<T>, key: T -> string) returns (m: map<string, T>)
    ensures m == ByKey(items, key)
  {
    m := map[];
    for i := 0 to |items|
      invariant m == ByKey(items[..i], key)
    {
      assert items[..i + 1][..i] == items[..i];
      m := m[key(items[i]) := items[i]];
    }
    assert items[..|items|] == items;
  }

  // ---------------------------------------------------------------- well-formed outlines

  /** A root is reached within the given number of parents. */
  predicate Rooted(nodes: map<string, Node>, parent: string, steps: nat)
    decreases steps
  {
    parent == "" || (steps > 0 && parent in nodes && Rooted(nodes, nodes[parent].parentKey, steps - 1))
  }

  predicate NodeOk(nodes: map<string, Node>, units: map<string, Unit>, node: Node) {
    node.title != "" && node.ordinal >= 0 && node.unitKey in units && Rooted(nodes, node.parentKey, 2)
  }

  predicate UnitOk(nodes: map<string, Node>, units: map<string, Unit>, unit: Unit) {
    && unit.title != "" && unit.ordinal >= 0 && unit.nodeKeys != []
    && (forall k | k in unit.nodeKeys :: k in nodes && nodes[k].unitKey == unit.unitKey)
    && (forall d | d in unit.dependsOn :: d in units && d != unit.unitKey)
  }

  /** The node keys that the units list, in order. */
  function Listed(units: seq<Unit>): seq<string> {
    if units == [] then [] else Listed(units[..|units| - 1]) + units[|units| - 1].nodeKeys
  }

  function Dependencies(units: seq<Unit>): Graph {
    var m := ByKey(units, UnitKey);
    map k | k in m :: set d | d in m[k].dependsOn
  }

  predicate HeaderOk(c: Candidate) {
    && c.schemaVersion == "outline-candidate.v1"
    && c.title != "" && c.requirementSize != "" && c.nodes != [] && 0 < |c.units| <= 15
  }

  predicate KeysOk<T(==)>(items: seq<T>, key: T -> string) {
    DistinctKeys(items, key) && forall x | x in items :: key(x) != ""
  }

  ghost predicate WellFormed(c: Candidate) {
    var nodes, units := ByKey(c.nodes, NodeKey), ByKey(c.units, UnitKey);
    && HeaderOk(c)
    && KeysOk(c.nodes, NodeKey)
    && KeysOk(c.units, UnitKey)
    && (forall n | n in c.nodes :: NodeOk(nodes, units, n))
    && (forall u | u in c.units :: UnitOk(nodes, units, u))
    && Distinct(Listed(c.units))
    && (forall n | n in c.nodes :: n.nodeKey in Listed(c.units))
    && !Cyclic(Dependencies(c.units))
  }

  // ---------------------------------------------------------------- the validation

  /** The dictionary of items, and whether their keys are distinct and non-empty. */
  method IndexDistinct<T(==)>(items: seq<T>, key: T -> string) returns (m: map<string, T>, ok: bool)
    ensures m == ByKey(items, key)
    ensures ok <==> KeysOk(items, key)
    ensures ok ==> "" !in m && forall x | x in items :: key(x) in m && m[key(x)] == x
  {
    m := Index(items, key);
    ok := |m| == |items| && "" !in m;
    ByKeyCounts(items, key);
    ByKeyFinds(items, key);
    if ok {
      forall x | x in items ensures m[key(x)] == x {
        ByKeyKeeps(items, key, x);
      }
    }
  }

  /** The climb from a node to its root: at most three levels, no missing parent, no node met twice. */
  method Climb(nodes: map<string, Node>, node: Node) returns (ok: bool)
    requires "" !in nodes && node.nodeKey in nodes && nodes[node.nodeKey] == node
    ensures ok <==> Rooted(nodes, node.parentKey, 2)
  {
    var depth, seen, parent := 1, {node.nodeKey}, node.parentKey;
    while parent != ""
      invariant 1 <= depth <= 3
      invariant depth == 1 ==> seen == {node.nodeKey} && parent == node.parentKey
      invariant depth == 2 ==>
                node.parentKey in nodes && seen == {node.nodeKey, node.parentKey}
                && parent == nodes[node.parentKey].parentKey
      invariant Rooted(nodes, node.parentKey, 2) <==> Rooted(nodes, parent, 3 - depth)
      decreases 3 - depth
    {
      if parent !in nodes || parent in seen {
        return false;
      }
      seen := seen + {parent};
      depth := depth + 1;
      if depth > 3 {
        return false;
      }
      parent := nodes[parent].parentKey;
    }
    return true;
  }

  method ValidateNodes(list: seq<Node>, nodes: map<string, Node>, units: map<string, Unit>) returns (ok: bool)
    requires "" !in nodes && forall n | n in list :: n.nodeKey in nodes && nodes[n.nodeKey] == n
    ensures ok <==> forall n | n in list :: NodeOk(nodes, units, n)
  {
    for i := 0 to |list|
      invariant forall n | n in list[..i] :: NodeOk(nodes, units, n)
    {
      var node := list[i];
      assert node in list;
      if node.title == "" || node.ordinal < 0 || node.unitKey !in units {
        return false;
      }
      ok := Climb(nodes, node);
      if !ok {
        return;
      }
      assert list[..i + 1] == list[..i] + [node];
    }
    return true;
  }

  /** One unit's nodes are added to those already taken. */
  method Assign(unit: Unit, nodes: map<string, Node>, units: map<string, Unit>, before: set<string>,
                ghost listed: seq<string>)
    returns (ok: bool, taken: set<string>)
    requires Distinct(listed) && forall k :: k in before <==> k in listed
    ensures ok <==> UnitOk(nodes, units, unit) && Distinct(listed + unit.nodeKeys)
    ensures ok ==> forall k :: k in taken <==> k in listed + unit.nodeKeys
  {
    taken := before;
    if unit.title == "" || unit.ordinal < 0 || unit.nodeKeys == [] {
      return false, taken;
    }
    for j := 0 to |unit.nodeKeys|
      invariant Distinct(listed + unit.nodeKeys[..j])
      invariant forall k :: k in taken <==> k in listed + unit.nodeKeys[..j]
      invariant forall k | k in unit.nodeKeys[..j] :: k in nodes && nodes[k].unitKey == unit.unitKey
    {
      var key := unit.nodeKeys[j];
      ghost var here, all := listed + unit.nodeKeys[..j], listed + unit.nodeKeys;
      assert all[|listed| + j] == key && forall i | 0 <= i < |here| :: all[i] == here[i];
      if key !in nodes || nodes[key].unitKey != unit.unitKey || key in taken {
        return false, taken;
      }
      assert listed + unit.nodeKeys[..j + 1] == here + [key];
      taken := taken + {key};
    }
    assert unit.nodeKeys[..|unit.nodeKeys|] == unit.nodeKeys;
    ok := forall d | d in unit.dependsOn :: d in units && d != unit.unitKey;
  }

  lemma {:induction false} ListedPrefix(units: seq<Unit>, n: nat)
    requires n <= |units|
    ensures Listed(units[..n]) <= Listed(units)
  {
    if n == |units| {
      assert units[..n] == units;
    } else {
      ListedPrefix(units[..|units| - 1], n);
      assert units[..|units| - 1][..n] == units[..n];
    }
  }

  method ValidateUnits(list: seq<Unit>, nodes: map<string, Node>, units: map<string, Unit>)
    returns (ok: bool, taken: set<string>)
    ensures ok <==> (forall u | u in list :: UnitOk(nodes, units, u)) && Distinct(Listed(list))
    ensures ok ==> forall k :: k in taken <==> k in Listed(list)
  {
    taken := {};
    for i := 0 to |list|
      invariant forall u | u in list[..i] :: UnitOk(nodes, units, u)
      invariant Distinct(Listed(list[..i]))
      invariant forall k :: k in taken <==> k in Listed(list[..i])
    {
      assert list[..i + 1][..i] == list[..i] && list[..i + 1] == list[..i] + [list[i]];
      ListedPrefix(list, i + 1);
      ok, taken := Assign(list[i], nodes, units, taken, Listed(list[..i]));
      if !ok {
        return;
      }
    }
    assert list[..|list|] == list;
    return true, taken;
  }

  /** Validation accepts exactly the well-formed outlines. */
  method ValidateOutline(c: Candidate) returns (ok: bool)
    ensures ok <==> WellFormed(c)
  {
    if c.schemaVersion != "outline-candidate.v1" || c.title == "" || c.requirementSize == "" || c.nodes == [] {
      return false;
    }
    if c.units == [] || |c.units| > 15 {
      return false;
    }
    var nodes, keysOk := IndexDistinct(c.nodes, NodeKey);
    if !keysOk {
      return false;
    }
    var units;
    units, keysOk := IndexDistinct(c.units, UnitKey);
    if !keysOk {
      return false;
    }
    ok := ValidateNodes(c.nodes, nodes, units);
    if !ok {
      return;
    }
    var taken;
    ok, taken := ValidateUnits(c.units, nodes, units);
    if !ok {
      return;
    }
    AssignedAll(c, taken);
    if taken != nodes.Keys {
      return false;
    }
    DependenciesClosed(c.units, nodes, units);
    ok := ValidateDependencyGraph(Dependencies(c.units));
  }

  /** All listed keys being nodes, listing every node is listing exactly the nodes. */
  lemma AssignedAll(c: Candidate, taken: set<string>)
    requires var nodes := ByKey(c.nodes, NodeKey);
             forall u | u in c.units :: UnitOk(nodes, ByKey(c.units, UnitKey), u)
    requires forall k :: k in taken <==> k in Listed(c.units)
    ensures taken == ByKey(c.nodes, NodeKey).Keys <==> forall n | n in c.nodes :: n.nodeKey in Listed(c.units)
  {
    ByKeyFinds(c.nodes, NodeKey);
    ListedAreNodes(c.units, ByKey(c.nodes, NodeKey), ByKey(c.units, UnitKey));
    var nodes := ByKey(c.nodes, NodeKey);
    if forall n | n in c.nodes :: n.nodeKey in Listed(c.units) {
      forall k | k in nodes ensures k in taken {
        assert nodes[k] in c.nodes && nodes[k].nodeKey == k;
      }
      assert taken == nodes.Keys;
    } else {
      var n :| n in c.nodes && n.nodeKey !in Listed(c.units);
      assert NodeKey(n) in nodes.Keys && NodeKey(n) !in taken;
    }
  }

  lemma {:induction false} ListedAreNodes(list: seq<Unit>, nodes: map<string, Node>, units: map<string, Unit>)
    requires forall u | u in list :: UnitOk(nodes, units, u)
    ensures forall k | k in Listed(list) :: k in nodes
  {
    if list != [] {
      ListedAreNodes(list[..|list| - 1], nodes, units);
      assert UnitOk(nodes, units, list[|list| - 1]);
    }
  }

  lemma DependenciesClosed(list: seq<Unit>, nodes: map<string, Node>, units: map<string, Unit>)
    requires units == ByKey(list, UnitKey) && forall u | u in list :: UnitOk(nodes, units, u)
    ensures Closed(Dependencies(list)) && Dependencies(list).Keys == units.Keys
  {
    ByKeyFinds(list, UnitKey);
    forall k | k in units ensures UnitOk(nodes, units, units[k]) {
      assert units[k] in list;
    }
  }

  // ---------------------------------------------------------------- what acceptance gives

  /** A chain of nodes from the given one up to a root, each the parent of the one before. */
  predicate IsChain(nodes: seq<Node>, p: seq<Node>) {
    && p != [] && (forall n | n in p :: n in nodes)
    && (forall i, j | 0 <= i < |p| && j == i + 1 && j < |p| :: p[j].nodeKey == p[i].parentKey)
    && p[|p| - 1].parentKey == ""
  }

  lemma {:induction false} ChainOf(list: seq<Node>, n: Node, steps: nat) returns (p: seq<Node>)
    requires n in list && Rooted(ByKey(list, NodeKey), n.parentKey, steps)
    ensures IsChain(list, p) && p[0] == n && |p| <= steps + 1
    decreases steps
  {
    if n.parentKey == "" {
      return [n];
    }
    ByKeyFinds(list, NodeKey);
    var parent := ByKey(list, NodeKey)[n.parentKey];
    var q := ChainOf(list, parent, steps - 1);
    return [n] + q;
  }

  /** An accepted outline is a forest of at most three levels. */
  lemma AcceptedOutlineIsForest(c: Candidate, n: Node)
    requires WellFormed(c) && n in c.nodes
    ensures exists p :: IsChain(c.nodes, p) && p[0] == n && |p| <= 3
  {
    var p := ChainOf(c.nodes, n, 2);
  }

  lemma {:induction false} ListedAt(units: seq<Unit>, k: string) returns (u: nat, i: nat)
    requires k in Listed(units)
    ensures u < |units| && i < |units[u].nodeKeys| && units[u].nodeKeys[i] == k
  {
    var last := units[|units| - 1];
    if k in last.nodeKeys {
      u := |units| - 1;
      i :| 0 <= i < |last.nodeKeys| && last.nodeKeys[i] == k;
    } else {
      u, i := ListedAt(units[..|units| - 1], k);
    }
  }

  /** Where the whole list holds a unit's key, and where the lists of later units begin. */
  lemma ListedPlace(units: seq<Unit>, u: nat, i: nat)
    requires u < |units| && i < |units[u].nodeKeys|
    ensures var place := |Listed(units[..u])| + i;
            place < |Listed(units)| && Listed(units)[place] == units[u].nodeKeys[i]
    ensures forall v | u < v <= |units| :: |Listed(units[..u])| + i < |Listed(units[..v])|
  {
    assert units[..u + 1][..u] == units[..u];
    ListedPrefix(units, u + 1);
    assert Listed(units[..u + 1])[|Listed(units[..u])| + i] == units[u].nodeKeys[i];
    forall v | u < v <= |units| ensures |Listed(units[..u])| + i < |Listed(units[..v])| {
      ListedPrefix(units[..v], u + 1);
      assert units[..v][..u + 1] == units[..u + 1];
    }
  }

  lemma ListedOnce(units: seq<Unit>, u: nat, i: nat, v: nat, j: nat)
    requires Distinct(Listed(units)) && u <= v < |units| && i < |units[u].nodeKeys| && j < |units[v].nodeKeys|
    requires units[u].nodeKeys[i] == units[v].nodeKeys[j]
    ensures u == v && i == j
  {
    ListedPlace(units, u, i);
    ListedPlace(units, v, j);
  }

  ghost predicate ListsAt(c: Candidate, k: string, u: nat, i: nat) {
    u < |c.units| && i < |c.units[u].nodeKeys| && c.units[u].nodeKeys[i] == k
  }

  /** The units partition the nodes: every node is listed at exactly one place, in the unit it names. */
  lemma AcceptedOutlineIsPartition(c: Candidate, n: Node)
    requires WellFormed(c) && n in c.nodes
    ensures exists u: nat, i: nat :: ListsAt(c, n.nodeKey, u, i) && c.units[u].unitKey == n.unitKey
    ensures forall u: nat, i: nat, v: nat, j: nat | ListsAt(c, n.nodeKey, u, i) && ListsAt(c, n.nodeKey, v, j) ::
              u == v && i == j
  {
    ByKeyKeeps(c.nodes, NodeKey, n);
    var u, i := ListedAt(c.units, n.nodeKey);
    assert c.units[u] in c.units && ListsAt(c, n.nodeKey, u, i);
    assert ByKey(c.nodes, NodeKey)[NodeKey(n)] == n;
    forall u: nat, i: nat, v: nat, j: nat | ListsAt(c, n.nodeKey, u, i) && ListsAt(c, n.nodeKey, v, j)
      ensures u == v && i == j
    {
      if u <= v {
        ListedOnce(c.units, u, i, v, j);
      } else {
        ListedOnce(c.units, v, j, u, i);
      }
    }
  }

  /** In an accepted outline confirmation never blocks. */
  lemma AcceptedOutlineNeverBlocks(c: Candidate, confirmed: set<string>)
    requires WellFormed(c) && exists u :: u in c.units && u.unitKey !in confirmed
    ensures exists u :: u in c.units && u.unitKey !in confirmed && forall d | d in u.dependsOn :: d in confirmed
  {
    var units := ByKey(c.units, UnitKey);
    ByKeyFinds(c.units, UnitKey);
    DependenciesClosed(c.units, ByKey(c.nodes, NodeKey), units);
    var start :| start in c.units && start.unitKey !in confirmed;
    assert UnitKey(start) in units;
    ConfirmationNeverBlocks(Dependencies(c.units), confirmed);
    var k :| k in Dependencies(c.units) && k !in confirmed && Dependencies(c.units)[k] <= confirmed;
    assert units[k] in c.units;
  }
}
