/**
 * The walk over nested errors: a depth-first search through `errors` and `cause` with one shared set of seen values,
 * over error graphs that may be cyclic.
 */
module ErrorWalk {
  import opened Options
  import opened Sequences

  // Anything that can stand where an error does: a falsy value, another primitive, or an object.
  datatype Value = Falsy | Primitive(kind: string, text: string) | Object(ref: nat)

  // `errors` is absent unless it is an array.
  datatype ErrorObject = ErrorObject(message: string, code: string, errors: Option<seq<Value>>, cause: Value)

  // One entry of the result: an object itself, or a record holding the text of a primitive.
  datatype Item = Node(ref: nat) | Message(text: string)

  type Graph = map<nat, ErrorObject>

  predicate Known(graph: Graph, v: Value) {
    v.Object? ==> v.ref in graph
  }

  predicate WellFormed(graph: Graph) {
    forall r | r in graph ::
      && Known(graph, graph[r].cause)
      && (graph[r].errors.Some? ==> forall v | v in graph[r].errors.value :: Known(graph, v))
  }

  predicate Truthy(v: Value) {
    !v.Falsy?
  }

  predicate IsChild(graph: Graph, v: Value, c: Value) {
    && c != Falsy && v.Object? && v.ref in graph
    && ((graph[v.ref].errors.Some? && c in graph[v.ref].errors.value) || c == graph[v.ref].cause)
  }

  predicate Path(graph: Graph, p: seq<Value>) {
    p != [] && p[0] != Falsy && forall i | 0 <= i < |p| - 1 :: IsChild(graph, p[i], p[i + 1])
  }

  // `v` can be reached from `error` through `errors` and `cause`.
  ghost predicate Reaches(graph: Graph, error: Value, v: Value) {
    exists p :: Path(graph, p) && p[0] == error && p[|p| - 1] == v
  }

  lemma ReachesSelf(graph: Graph, v: Value)
    requires Truthy(v)
    ensures Reaches(graph, v, v)
  {
    assert Path(graph, [v]);
  }

  lemma ReachesThrough(graph: Graph, a: Value, c: Value, v: Value)
    requires Truthy(a) && IsChild(graph, a, c) && Reaches(graph, c, v)
    ensures Reaches(graph, a, v)
  {
    var p :| Path(graph, p) && p[0] == c && p[|p| - 1] == v;
    var q := [a] + p;
    forall i | 0 <= i < |q| - 1 ensures IsChild(graph, q[i], q[i + 1]) {
      if i > 0 { assert q[i] == p[i - 1] && q[i + 1] == p[i]; }
    }
    assert Path(graph, q);
  }

  // All children of the first set lie in the second.
  ghost predicate Closed(graph: Graph, inside: set<Value>, outside: set<Value>) {
    forall v, c | v in inside && IsChild(graph, v, c) :: c in outside
  }

  // Nothing is reachable beyond a closed set.
  lemma {:induction false} ClosedHoldsPaths(graph: Graph, s: set<Value>, p: seq<Value>)
    requires Closed(graph, s, s) && Path(graph, p) && p[0] in s
    ensures p[|p| - 1] in s
    decreases |p|
  {
    if |p| > 1 {
      assert IsChild(graph, p[0], p[1]);
      var q := p[1..];
      forall i | 0 <= i < |q| - 1 ensures IsChild(graph, q[i], q[i + 1]) { assert q[i] == p[i + 1]; }
      ClosedHoldsPaths(graph, s, q);
    }
  }

  // The walk as one list of values still to visit: a new value is listed and its errors and then its cause come next,
  // before everything that was waiting.
  ghost function Order(graph: Graph, universe: set<Value>, waiting: seq<Value>, seen: set<Value>): (r: seq<Value>)
    requires Closed(graph, universe, universe) && Within(waiting, universe)
    decreases |universe - seen|, |waiting|
  {
    if waiting == [] then []
    else if waiting[0] == Falsy || waiting[0] in seen then Order(graph, universe, waiting[1..], seen)
    else
      assert (universe - (seen + {waiting[0]})) + {waiting[0]} == universe - seen;
      [waiting[0]] + Order(graph, universe, Children(graph, waiting[0]) + waiting[1..], seen + {waiting[0]})
  }

  function Children(graph: Graph, v: Value): (r: seq<Value>)
    ensures forall c | c in r && c != Falsy :: IsChild(graph, v, c)
  {
    if v.Object? && v.ref in graph then
      (if graph[v.ref].errors.Some? then graph[v.ref].errors.value else []) + [graph[v.ref].cause]
    else []
  }

  lemma ElementsCons(v: Value, s: seq<Value>)
    ensures Elements([v] + s) == {v} + Elements(s)
  {
    assert forall x :: x in [v] + s <==> x == v || x in s;
  }

  ghost predicate Within(s: seq<Value>, universe: set<Value>) {
    forall v | v in s && v != Falsy :: v in universe
  }

  lemma WithinParts(a: seq<Value>, b: seq<Value>, universe: set<Value>)
    ensures Within(a + b, universe) <==> Within(a, universe) && Within(b, universe)
  {
    assert forall v :: v in a + b <==> v in a || v in b;
  }

  lemma ChildrenWithin(graph: Graph, universe: set<Value>, v: Value)
    requires Closed(graph, universe, universe) && v in universe
    ensures Within(Children(graph, v), universe)
  {
  }

  // A new value comes first, then its children.
  lemma OrderNew(graph: Graph, universe: set<Value>, v: Value, rest: seq<Value>, seen: set<Value>)
    requires Closed(graph, universe, universe) && Within([v] + rest, universe) && v != Falsy && v !in seen
    ensures Within(Children(graph, v) + rest, universe) && |universe - (seen + {v})| < |universe - seen|
    ensures Order(graph, universe, [v] + rest, seen) == [v] + Order(graph, universe, Children(graph, v) + rest, seen + {v})
  {
    WithinParts([v], rest, universe);
    assert v in [v];
    ChildrenWithin(graph, universe, v);
    WithinParts(Children(graph, v), rest, universe);
    assert ([v] + rest)[1..] == rest;
    assert (universe - (seen + {v})) + {v} == universe - seen;
    hide Closed, Children;
  }

  // What waits in front is worked off first.
  lemma {:induction false} OrderInTurn(graph: Graph, universe: set<Value>, a: seq<Value>, b: seq<Value>, seen: set<Value>)
    requires Closed(graph, universe, universe) && Within(a + b, universe)
    ensures Within(a, universe) && Within(b, universe)
    ensures var first := Order(graph, universe, a, seen);
            Order(graph, universe, a + b, seen) == first + Order(graph, universe, b, seen + Elements(first))
    decreases |universe - seen|, |a|
  {
    WithinParts(a, b, universe);
    hide *;
    if a == [] {
      OrderNone(graph, universe, seen);
      assert a + b == b && seen + {} == seen;
    } else {
      var v, rest := a[0], a[1..];
      assert a == [v] + rest && a + b == [v] + (rest + b);
      if v == Falsy || v in seen {
        WithinParts([v], rest + b, universe);
        OrderOld(graph, universe, v, rest + b, seen);
        WithinParts([v], rest, universe);
        OrderOld(graph, universe, v, rest, seen);
        OrderInTurn(graph, universe, rest, b, seen);
      } else {
        OrderNew(graph, universe, v, rest, seen);
        OrderNew(graph, universe, v, rest + b, seen);
        assert Children(graph, v) + (rest + b) == (Children(graph, v) + rest) + b;
        OrderInTurn(graph, universe, Children(graph, v) + rest, b, seen + {v});
        var first := Order(graph, universe, Children(graph, v) + rest, seen + {v});
        ElementsCons(v, first);
        UnionInTurn(seen, {v}, Elements(first));
      }
    }
  }

  lemma OrderNone(graph: Graph, universe: set<Value>, seen: set<Value>)
    requires Closed(graph, universe, universe)
    ensures Within([], universe) && Order(graph, universe, [], seen) == [] && Elements([]) == {}
  {
  }

  lemma UnionInTurn<T>(a: set<T>, b: set<T>, c: set<T>)
    ensures (a + b) + c == a + (b + c)
  {
  }

  // A value seen before, or none at all, is passed over.
  lemma OrderOld(graph: Graph, universe: set<Value>, v: Value, rest: seq<Value>, seen: set<Value>)
    requires Closed(graph, universe, universe) && Within([v] + rest, universe) && Within(rest, universe)
    requires v == Falsy || v in seen
    ensures Order(graph, universe, [v] + rest, seen) == Order(graph, universe, rest, seen)
  {
    assert ([v] + rest)[1..] == rest;
    hide Closed, Children;
  }

  function ItemOf(v: Value): Item
    requires Truthy(v)
  {
    match v
    case Primitive(_, text) => Message(text)
    case Object(ref) => Node(ref)
  }

  function Elements(s: seq<Value>): set<Value> {
    set v | v in s
  }

  ghost predicate Lists(nested: seq<Item>, listed: seq<Value>) {
    |nested| == |listed| && forall i | 0 <= i < |listed| :: Truthy(listed[i]) && nested[i] == ItemOf(listed[i])
  }

  // The values listed so far are new, listed once each, reachable from `error`, and what the seen set gained.
  ghost predicate Gathered(graph: Graph, error: Value, before: set<Value>, after: set<Value>, listed: seq<Value>) {
    && after == before + Elements(listed) && Distinct(listed)
    && (forall v | v in listed :: v !in before && Reaches(graph, error, v))
  }

  lemma GatherMore(graph: Graph, error: Value, child: Value, s0: set<Value>, s1: set<Value>, s2: set<Value>,
                   listed: seq<Value>, more: seq<Value>)
    requires Truthy(error) && (more != [] ==> IsChild(graph, error, child))
    requires Gathered(graph, error, s0, s1, listed) && Gathered(graph, child, s1, s2, more)
    ensures Gathered(graph, error, s0, s2, listed + more)
  {
    forall v | v in more ensures Reaches(graph, error, v) { ReachesThrough(graph, error, child, v); }
    hide Reaches;
    var both := listed + more;
    assert forall v :: v in both <==> v in listed || v in more;
    assert forall i | 0 <= i < |listed| :: both[i] == listed[i] && listed[i] in s1;
    assert forall i | |listed| <= i < |both| :: both[i] == more[i - |listed|] && more[i - |listed|] !in s1;
  }

  // Every value the walk may meet.
  function Universe(graph: Graph, error: Value): set<Value> {
    {error} + (set r, v | r in graph && graph[r].errors.Some? && v in graph[r].errors.value :: v) + (set r | r in graph :: graph[r].cause)
  }

  class SeenSet {
    var values: set<Value>

    constructor ()
      ensures values == {}
    {
      values := {};
    }
  }

  // The first `i` children of a new value are worked off.
  ghost predicate WorkedOff(graph: Graph, universe: set<Value>, error: Value, start: set<Value>, i: nat, listed: seq<Value>) {
    && error in universe && Closed(graph, universe, universe) && i <= |Children(graph, error)|
    && Within(Children(graph, error)[..i], universe)
    && listed == [error] + Order(graph, universe, Children(graph, error)[..i], start + {error})
  }

  lemma WorkOffNext(graph: Graph, universe: set<Value>, error: Value, start: set<Value>, i: nat, listed: seq<Value>,
                    more: seq<Value>, seen: set<Value>)
    requires WorkedOff(graph, universe, error, start, i, listed) && i < |Children(graph, error)|
    requires seen == start + Elements(listed) && (Children(graph, error)[i] != Falsy ==> Children(graph, error)[i] in universe)
    requires more == Order(graph, universe, [Children(graph, error)[i]], seen)
    ensures WorkedOff(graph, universe, error, start, i + 1, listed + more)
  {
    var kids := Children(graph, error);
    var first := Order(graph, universe, kids[..i], start + {error});
    assert kids[..i + 1] == kids[..i] + [kids[i]];
    assert seen == start + {error} + Elements(first) by { assert listed == [error] + first; }
    OrderInTurn(graph, universe, kids[..i], [kids[i]], start + {error});
    assert listed + more == [error] + (first + more);
  }

  lemma AllWorkedOff(graph: Graph, universe: set<Value>, error: Value, start: set<Value>, listed: seq<Value>)
    requires WorkedOff(graph, universe, error, start, |Children(graph, error)|, listed) && error != Falsy && error !in start
    ensures listed == Order(graph, universe, [error], start)
  {
    var kids := Children(graph, error);
    assert kids[..|kids|] == kids && kids + [] == kids && [error][1..] == [];
  }

  method CollectNestedErrors(graph: Graph, error: Value, seen: SeenSet, ghost universe: set<Value>)
    returns (nested: seq<Item>, ghost listed: seq<Value>)
    requires WellFormed(graph) && Known(graph, error)
    requires error in universe && Closed(graph, universe, universe)
    modifies seen
    ensures Lists(nested, listed) && Gathered(graph, error, old(seen.values), seen.values, listed)
    ensures error != Falsy ==> error in seen.values
    ensures listed != [] ==> listed[0] == error
    ensures Closed(graph, Elements(listed), seen.values)
    ensures listed == Order(graph, universe, [error], old(seen.values))
    decreases universe - seen.values, 0
  {
    if !Truthy(error) || error in seen.values { return [], []; }
    ghost var start := seen.values;
    seen.values := seen.values + {error};
    VisitingStart(graph, universe, error, start);
    hide *;
    nested, listed := [ItemOf(error)], [error];
    if error.Object? { nested, listed := CollectChildren(graph, error, seen, universe, start); }
    VisitingEnd(graph, universe, error, start, |Children(graph, error)|, seen.values, nested, listed);
  }

  // Between two children: what is listed so far, and how far the children are worked off.
  ghost predicate Visiting(graph: Graph, universe: set<Value>, error: Value, start: set<Value>, i: nat, seen: set<Value>,
                           nested: seq<Item>, listed: seq<Value>)
  {
    && error in universe && Closed(graph, universe, universe) && i <= |Children(graph, error)|
    && Lists(nested, listed) && Gathered(graph, error, start, seen, listed)
    && listed != [] && listed[0] == error && Closed(graph, Elements(listed) - {error}, seen)
    && start + {error} <= seen
    && (forall k | 0 <= k < i && Children(graph, error)[k] != Falsy :: Children(graph, error)[k] in seen)
    && WorkedOff(graph, universe, error, start, i, listed)
  }

  lemma VisitingStart(graph: Graph, universe: set<Value>, error: Value, start: set<Value>)
    requires error in universe && Closed(graph, universe, universe) && error != Falsy && error !in start
    ensures Visiting(graph, universe, error, start, 0, start + {error}, [ItemOf(error)], [error])
  {
    ReachesSelf(graph, error);
    StartOff(graph, universe, error, start);
    hide Reaches, WorkedOff;
    assert Elements([error]) - {error} == {};
  }

  lemma VisitingEnd(graph: Graph, universe: set<Value>, error: Value, start: set<Value>, i: nat, seen: set<Value>,
                    nested: seq<Item>, listed: seq<Value>)
    requires Visiting(graph, universe, error, start, i, seen, nested, listed) && i == |Children(graph, error)|
    requires error != Falsy && error !in start
    ensures Lists(nested, listed) && Gathered(graph, error, start, seen, listed)
    ensures error in seen && listed[0] == error && Closed(graph, Elements(listed), seen)
    ensures listed == Order(graph, universe, [error], start)
  {
    AllWorkedOff(graph, universe, error, start, listed);
    hide Reaches, WorkedOff, Gathered, Order, Lists;
    forall c | IsChild(graph, error, c) ensures c in seen {
      var kids := Children(graph, error);
      assert c in kids;
    }
  }

  // The error itself, then what its errors and its cause bring.
  method CollectChildren(graph: Graph, error: Value, seen: SeenSet, ghost universe: set<Value>, ghost start: set<Value>)
    returns (nested: seq<Item>, ghost listed: seq<Value>)
    requires WellFormed(graph) && Known(graph, error) && error.Object? && error in universe
    requires Visiting(graph, universe, error, start, 0, seen.values, [ItemOf(error)], [error])
    modifies seen
    ensures Visiting(graph, universe, error, start, |Children(graph, error)|, seen.values, nested, listed)
    decreases universe - seen.values, 2
  {
    nested, listed := [ItemOf(error)], [error];
    var current := graph[error.ref];
    var items := if current.errors.Some? then current.errors.value else [];
    ghost var kids := Children(graph, error);
    assert kids == items + [current.cause];
    hide *;
    var i := 0;
    while i < |items|
      invariant 0 <= i <= |items| && old(seen.values) <= seen.values
      invariant Visiting(graph, universe, error, start, i, seen.values, nested, listed)
    {
      FewerLeft(universe, old(seen.values), seen.values);
      nested, listed := Descend(graph, error, i, items[i], seen, universe, start, nested, listed);
      i := i + 1;
    }
    FewerLeft(universe, old(seen.values), seen.values);
    nested, listed := Descend(graph, error, i, current.cause, seen, universe, start, nested, listed);
  }

  lemma FewerLeft<T>(universe: set<T>, before: set<T>, after: set<T>)
    requires before <= after
    ensures universe - after == universe - before || universe - after < universe - before
  {
  }

  lemma StartOff(graph: Graph, universe: set<Value>, error: Value, start: set<Value>)
    requires error in universe && Closed(graph, universe, universe)
    ensures WorkedOff(graph, universe, error, start, 0, [error])
  {
  }

  // One recursive call, and the push of what it found.
  method Descend(graph: Graph, error: Value, i: nat, child: Value, seen: SeenSet, ghost universe: set<Value>,
                 ghost start: set<Value>, nested: seq<Item>, ghost listed: seq<Value>)
    returns (nested': seq<Item>, ghost listed': seq<Value>)
    requires WellFormed(graph) && Known(graph, error) && error.Object?
    requires i < |Children(graph, error)| && child == Children(graph, error)[i]
    requires Visiting(graph, universe, error, start, i, seen.values, nested, listed)
    modifies seen
    ensures Visiting(graph, universe, error, start, i + 1, seen.values, nested', listed')
    ensures old(seen.values) <= seen.values
    decreases universe - seen.values, 1
  {
    nested', listed' := nested, listed;
    ghost var before := seen.values;
    if Truthy(child) {
      ChildIsKnown(graph, universe, error, start, i, before, nested, listed);
      hide Visiting;
      var found, more := CollectNestedErrors(graph, child, seen, universe);
      VisitMore(graph, universe, error, start, i, before, seen.values, nested, listed, found, more);
      nested', listed' := nested + found, listed + more;
    } else {
      VisitNothing(graph, universe, error, start, i, before, nested, listed);
    }
  }

  lemma ChildIsKnown(graph: Graph, universe: set<Value>, error: Value, start: set<Value>, i: nat, seen: set<Value>,
                     nested: seq<Item>, listed: seq<Value>)
    requires WellFormed(graph) && Visiting(graph, universe, error, start, i, seen, nested, listed)
    requires i < |Children(graph, error)| && Children(graph, error)[i] != Falsy
    ensures var child := Children(graph, error)[i];
            Known(graph, child) && child in universe && Closed(graph, universe, universe)
  {
    assert Children(graph, error)[i] in Children(graph, error);
    hide Reaches, WorkedOff, Gathered, Lists;
  }

  lemma VisitNothing(graph: Graph, universe: set<Value>, error: Value, start: set<Value>, i: nat, seen: set<Value>,
                     nested: seq<Item>, listed: seq<Value>)
    requires Visiting(graph, universe, error, start, i, seen, nested, listed)
    requires i < |Children(graph, error)| && Children(graph, error)[i] == Falsy
    ensures Visiting(graph, universe, error, start, i + 1, seen, nested, listed)
  {
    NothingFalsy(graph, universe, seen);
    WorkOffNext(graph, universe, error, start, i, listed, [], seen);
    assert listed + [] == listed;
    hide Reaches, WorkedOff, Lists;
  }

  lemma VisitMore(graph: Graph, universe: set<Value>, error: Value, start: set<Value>, i: nat, before: set<Value>,
                  after: set<Value>, nested: seq<Item>, listed: seq<Value>, found: seq<Item>, more: seq<Value>)
    requires Visiting(graph, universe, error, start, i, before, nested, listed) && i < |Children(graph, error)|
    requires var child := Children(graph, error)[i];
             && child != Falsy && error != Falsy && child in after
             && Lists(found, more) && Gathered(graph, child, before, after, more) && Closed(graph, Elements(more), after)
             && child in universe && more == Order(graph, universe, [child], before)
    ensures Visiting(graph, universe, error, start, i + 1, after, nested + found, listed + more)
  {
    hide Reaches, WorkedOff, Order, Closed, Lists, IsChild, Children, Gathered, Path, Elements, Within;
    var child := Children(graph, error)[i];
    ChildAt(graph, error, i);
    GatheredAdds(graph, error, start, before, listed);
    GatheredAdds(graph, child, before, after, more);
    GatherMore(graph, error, child, start, before, after, listed, more);
    WorkOffNext(graph, universe, error, start, i, listed, more, before);
    ListsMore(nested, listed, found, more);
    ClosedMore(graph, error, before, after, listed, more);
  }

  lemma ChildAt(graph: Graph, error: Value, i: nat)
    requires i < |Children(graph, error)| && Children(graph, error)[i] != Falsy
    ensures IsChild(graph, error, Children(graph, error)[i])
  {
    assert Children(graph, error)[i] in Children(graph, error);
  }

  lemma GatheredAdds(graph: Graph, error: Value, before: set<Value>, after: set<Value>, listed: seq<Value>)
    requires Gathered(graph, error, before, after, listed)
    ensures after == before + Elements(listed)
  {
  }

  lemma ListsMore(nested: seq<Item>, listed: seq<Value>, found: seq<Item>, more: seq<Value>)
    requires Lists(nested, listed) && Lists(found, more)
    ensures Lists(nested + found, listed + more)
  {
  }

  lemma ClosedMore(graph: Graph, error: Value, before: set<Value>, after: set<Value>, listed: seq<Value>, more: seq<Value>)
    requires Closed(graph, Elements(listed) - {error}, before) && Closed(graph, Elements(more), after) && before <= after
    ensures Closed(graph, Elements(listed + more) - {error}, after)
  {
    assert forall v :: v in listed + more <==> v in listed || v in more;
    hide IsChild;
  }

  lemma NothingFalsy(graph: Graph, universe: set<Value>, seen: set<Value>)
    requires Closed(graph, universe, universe)
    ensures Order(graph, universe, [Falsy], seen) == []
  {
  }

  ghost function Reachable(graph: Graph, error: Value): set<Value> {
    set v | v in Universe(graph, error) && Reaches(graph, error, v)
  }

  // The reachable values are finitely many.
  lemma ReachableIsAll(graph: Graph, error: Value, v: Value)
    ensures v in Reachable(graph, error) <==> Reaches(graph, error, v)
  {
    if p :| Path(graph, p) && p[0] == error && p[|p| - 1] == v {
      ClosedHoldsPaths(graph, Universe(graph, error), p);
    }
  }

  lemma {:induction false} DistinctSize(s: seq<Value>)
    requires Distinct(s)
    ensures |Elements(s)| == |s|
  {
    if s != [] {
      var n := |s| - 1;
      DistinctSize(s[..n]);
      assert Elements(s) == Elements(s[..n]) + {s[n]};
    }
  }

  // How often a node is listed, read off the values behind the list.
  lemma {:induction false} ListedNodes(nested: seq<Item>, listed: seq<Value>, r: nat)
    requires Lists(nested, listed) && Distinct(listed)
    ensures multiset(nested)[Node(r)] == if Object(r) in listed then 1 else 0
  {
    if listed != [] {
      var n := |listed| - 1;
      ListedNodes(nested[..n], listed[..n], r);
      assert nested == nested[..n] + [nested[n]] && listed == listed[..n] + [listed[n]];
    }
  }

  lemma ListedMessages(nested: seq<Item>, listed: seq<Value>, text: string)
    requires Lists(nested, listed)
    ensures Message(text) in nested <==> exists kind :: Primitive(kind, text) in listed
  {
    if i :| 0 <= i < |nested| && nested[i] == Message(text) { assert listed[i] in listed && listed[i].Primitive?; }
    if kind :| Primitive(kind, text) in listed {
      var i :| 0 <= i < |listed| && listed[i] == Primitive(kind, text);
      assert nested[i] == Message(text);
    }
  }

  // One by one, objects as they are and primitives as a record of their text.
  predicate Shows(nested: seq<Item>, values: seq<Value>) {
    |nested| == |values| && forall i | 0 <= i < |values| ::
      || (values[i].Object? && nested[i] == Node(values[i].ref))
      || (values[i].Primitive? && nested[i] == Message(values[i].text))
  }

  // What the callers ask for: every object reachable from the error is listed exactly once, the text of every reachable
  // primitive is there, nothing else is, and they come in the order of the walk, the error itself first.
  method Collect(graph: Graph, error: Value) returns (nested: seq<Item>)
    requires WellFormed(graph) && Known(graph, error)
    ensures forall r :: multiset(nested)[Node(r)] == if error != Falsy && Reaches(graph, error, Object(r)) then 1 else 0
    ensures forall text ::
              Message(text) in nested <==> error != Falsy && exists kind :: Reaches(graph, error, Primitive(kind, text))
    ensures |nested| == if error != Falsy then |Reachable(graph, error)| else 0
    ensures Closed(graph, Universe(graph, error), Universe(graph, error))
    ensures Shows(nested, Order(graph, Universe(graph, error), [error], {}))
  {
    var seen := new SeenSet();
    ghost var listed: seq<Value>;
    UniverseIsClosed(graph, error);
    nested, listed := CollectNestedErrors(graph, error, seen, Universe(graph, error));
    ListedIsReachable(graph, error, seen.values, nested, listed);
    ItemsShow(nested, listed);
    hide *;
    forall r ensures multiset(nested)[Node(r)] == if Object(r) in listed then 1 else 0 { ListedNodes(nested, listed, r); }
    forall text ensures Message(text) in nested <==> exists kind :: Primitive(kind, text) in listed {
      ListedMessages(nested, listed, text);
    }
  }

  lemma UniverseIsClosed(graph: Graph, error: Value)
    ensures Closed(graph, Universe(graph, error), Universe(graph, error)) && error in Universe(graph, error)
  {
  }

  lemma ItemsShow(nested: seq<Item>, listed: seq<Value>)
    requires Lists(nested, listed)
    ensures Shows(nested, listed)
  {
  }

  lemma ListedIsReachable(graph: Graph, error: Value, seen: set<Value>, nested: seq<Item>, listed: seq<Value>)
    requires Lists(nested, listed) && Gathered(graph, error, {}, seen, listed) && Closed(graph, Elements(listed), seen)
    requires error != Falsy ==> error in seen
    requires Closed(graph, Universe(graph, error), Universe(graph, error))
    ensures Distinct(listed) && |nested| == |listed|
    ensures forall v :: v in listed <==> error != Falsy && Reaches(graph, error, v)
    ensures |listed| == if error != Falsy then |Reachable(graph, error)| else 0
  {
    if error != Falsy {
      forall v ensures (v in listed <==> Reaches(graph, error, v)) && (v in Reachable(graph, error) <==> v in listed) {
        ReachedIsListed(graph, error, seen, listed, v);
        ReachableIsAll(graph, error, v);
      }
      hide Reachable, Reaches, Closed, Lists, Gathered;
      assert Elements(listed) == Reachable(graph, error);
    } else {
      forall v | v in listed ensures false { NothingFromFalsy(graph, error, v); }
    }
    DistinctSize(listed);
  }

  lemma NothingFromFalsy(graph: Graph, error: Value, v: Value)
    requires error == Falsy
    ensures !Reaches(graph, error, v)
  {
  }

  lemma ReachedIsListed(graph: Graph, error: Value, seen: set<Value>, listed: seq<Value>, v: Value)
    requires Gathered(graph, error, {}, seen, listed) && Closed(graph, Elements(listed), seen) && error in seen
    ensures v in listed <==> Reaches(graph, error, v)
  {
    if Reaches(graph, error, v) {
      var p :| Path(graph, p) && p[0] == error && p[|p| - 1] == v;
      ClosedHoldsPaths(graph, seen, p);
    }
  }
}
