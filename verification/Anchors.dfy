/**
 * Comment anchors: printing the path from a screen down to an element, and resolving a printed path again.
 */
module Anchors {
  import opened Options
  import opened AnchorText
  import opened Sequences

  class Element {
    const tagName: string
    var children: seq<Element>
    var parent: Element?
    ghost var depth: nat

    constructor (tagName: string)
      ensures this.tagName == tagName && children == [] && parent == null
    {
      this.tagName, children, parent, depth := tagName, [], null, 0;
    }
  }

  // A document: parents and children agree, and children are one level below their parent.
  ghost predicate TreeOk(page: set<Element>)
    reads page
  {
    && (forall e | e in page :: forall i | 0 <= i < |e.children| ::
          e.children[i] in page && e.children[i].parent == e && e.children[i].depth == e.depth + 1)
    && (forall e | e in page :: Distinct(e.children))
    && (forall e | e in page && e.parent != null :: e.parent in page && e in e.parent.children)
  }

  // What the DOM guarantees of element names.
  ghost predicate NamesOk(page: set<Element>, lower: string -> string) {
    forall e | e in page :: lower(e.tagName) != "" && '>' !in lower(e.tagName)
  }

  function Exact(s: string): string {
    s
  }

  // The children whose name, seen through `key`, is `name`.
  function Named(children: seq<Element>, key: string -> string, name: string): seq<Element> {
    if children == [] then []
    else
      var n := |children| - 1;
      Named(children[..n], key, name) + if key(children[n].tagName) == name then [children[n]] else []
  }

  function IndexOf(s: seq<Element>, e: Element): (i: int)
    ensures -1 <= i < |s| && (i >= 0 ==> s[i] == e) && (i == -1 ==> e !in s)
  {
    if s == [] then -1 else if s[0] == e then 0 else
      var i := IndexOf(s[1..], e);
      if i < 0 then -1 else i + 1
  }

  // ---------------------------------------------------------------------------------------------------------
  // One part
  // ---------------------------------------------------------------------------------------------------------

  function PartFor(siblings: seq<Element>, lower: string -> string, node: Element): string {
    var tag := lower(node.tagName);
    var sameTag := Named(siblings, Exact, node.tagName);
    if |sameTag| > 1 && IndexOf(sameTag, node) >= 0 then tag + ":" + Decimal(IndexOf(sameTag, node) + 1) else tag
  }

  // The child a part names, if any.
  function ChildFor(children: seq<Element>, lower: string -> string, part: string): Option<Element> {
    var bits := Split(part, ':');
    var index := if |bits| > 1 && bits[1] != "" then ParseInt(bits[1]) else Some(1);
    var matches := Named(children, lower, bits[0]);
    if index.Some? && 1 <= index.value <= |matches| then Some(matches[index.value - 1]) else None
  }

  lemma {:induction false} NamedPrefix(children: seq<Element>, key: string -> string, name: string, k: nat)
    requires k <= |children|
    ensures Named(children[..k], key, name) <= Named(children, key, name)
  {
    if k == |children| { assert children[..k] == children; }
    else {
      NamedPrefix(children[..|children| - 1], key, name, k);
      assert children[..|children| - 1][..k] == children[..k];
    }
  }

  lemma {:induction false} NamedMembers(children: seq<Element>, key: string -> string, name: string)
    ensures forall e :: e in Named(children, key, name) <==> e in children && key(e.tagName) == name
    ensures forall i | 0 <= i < |Named(children, key, name)| :: Named(children, key, name)[i] in children
    ensures Distinct(children) ==> Distinct(Named(children, key, name))
  {
    if children != [] {
      var n := |children| - 1;
      NamedMembers(children[..n], key, name);
      assert forall e :: e in children <==> e in children[..n] || e == children[n];
    }
  }

  // A child's rank among the children of its name is the number of earlier ones.
  lemma Rank(children: seq<Element>, key: string -> string, k: nat)
    requires k < |children| && Distinct(children)
    ensures var same := Named(children, key, key(children[k].tagName));
            var r := |Named(children[..k], key, key(children[k].tagName))|;
            r < |same| && forall i | 0 <= i < |same| :: same[i] == children[k] <==> i == r
  {
    var name := key(children[k].tagName);
    assert children[..k + 1][..k] == children[..k];
    assert Named(children[..k + 1], key, name) == Named(children[..k], key, name) + [children[k]];
    NamedPrefix(children, key, name, k + 1);
    NamedMembers(children, key, name);
    var same, r := Named(children, key, name), |Named(children[..k], key, name)|;
    assert same[r] == Named(children[..k + 1], key, name)[r] == children[k];
  }

  // No earlier sibling agrees with the node in lower case only.
  predicate CaseAgrees(earlier: seq<Element>, lower: string -> string, node: Element) {
    forall e | e in earlier :: lower(e.tagName) == lower(node.tagName) ==> e.tagName == node.tagName
  }

  lemma {:induction false} CountsAgree(earlier: seq<Element>, lower: string -> string, node: Element)
    ensures var exact := |Named(earlier, Exact, node.tagName)|; var loose := |Named(earlier, lower, lower(node.tagName))|;
            exact <= loose && (exact == loose <==> CaseAgrees(earlier, lower, node))
  {
    if earlier != [] {
      var n := |earlier| - 1;
      CountsAgree(earlier[..n], lower, node);
      assert forall e :: e in earlier <==> e in earlier[..n] || e == earlier[n];
    }
  }

  lemma PartIndex(siblings: seq<Element>, lower: string -> string, k: nat)
    requires k < |siblings| && Distinct(siblings)
    ensures var node := siblings[k]; var r := |Named(siblings[..k], Exact, node.tagName)|;
            && (PartFor(siblings, lower, node) == lower(node.tagName) + ":" + Decimal(r + 1)
                || (r == 0 && PartFor(siblings, lower, node) == lower(node.tagName)))
  {
    Rank(siblings, Exact, k);
    var node := siblings[k];
    var same, r := Named(siblings, Exact, node.tagName), |Named(siblings[..k], Exact, node.tagName)|;
    assert same[r] == node && IndexOf(same, node) == r;
  }

  lemma ReadPart(tag: string, index: nat, indexed: bool)
    requires ':' !in tag && index >= 1
    ensures var bits := Split(if indexed then tag + ":" + Decimal(index) else tag, ':');
            bits == (if indexed then [tag, Decimal(index)] else [tag]) && Decimal(index) != "" && ParseInt(Decimal(index)) == Some(index)
  {
    DecimalDigits(index);
    ParseDecimal(index);
    SplitOne(tag, ':');
    SplitFirst(tag, ':', Decimal(index));
    assert ':' !in Decimal(index);
    SplitOne(Decimal(index), ':');
    assert tag + [':'] + Decimal(index) == tag + ":" + Decimal(index);
  }

  // A printed part leads back to its child exactly when the tag has no colon and no earlier sibling agrees with it in
  // lower case only.
  lemma PartRoundTrip(siblings: seq<Element>, lower: string -> string, k: nat)
    requires k < |siblings| && Distinct(siblings)
    ensures var node := siblings[k];
            ChildFor(siblings, lower, PartFor(siblings, lower, node)) == Some(node)
            <==> ':' !in lower(node.tagName) && CaseAgrees(siblings[..k], lower, node)
  {
    if ':' !in lower(siblings[k].tagName) {
      PlainPartRoundTrip(siblings, lower, k);
    } else {
      ColonPartMisleads(siblings, lower, siblings[k]);
    }
  }

  // What a printed part with this index asks for.
  lemma PlainChild(children: seq<Element>, lower: string -> string, tag: string, index: nat, indexed: bool)
    requires ':' !in tag && index >= 1 && (indexed || index == 1)
    ensures var matches := Named(children, lower, tag);
            ChildFor(children, lower, if indexed then tag + ":" + Decimal(index) else tag) ==
            if index <= |matches| then Some(matches[index - 1]) else None
  {
    ReadPart(tag, index, indexed);
    hide Named, Split, ParseInt, Decimal;
  }

  lemma PlainPartRoundTrip(siblings: seq<Element>, lower: string -> string, k: nat)
    requires k < |siblings| && Distinct(siblings)
    requires ':' !in lower(siblings[k].tagName)
    ensures var node := siblings[k];
            ChildFor(siblings, lower, PartFor(siblings, lower, node)) == Some(node) <==> CaseAgrees(siblings[..k], lower, node)
  {
    var node := siblings[k];
    var tag, part := lower(node.tagName), PartFor(siblings, lower, node);
    var r := |Named(siblings[..k], Exact, node.tagName)|;
    PartIndex(siblings, lower, k);
    Rank(siblings, lower, k);
    CountsAgree(siblings[..k], lower, node);
    PlainChild(siblings, lower, tag, r + 1, part != tag);
    hide Named, Split, ParseInt, Decimal, CaseAgrees, PartFor, ChildFor;
  }

  // Behind a colon the tag is cut off, so another element or none is found.
  lemma ColonPartMisleads(siblings: seq<Element>, lower: string -> string, node: Element)
    requires ':' in lower(node.tagName)
    ensures ChildFor(siblings, lower, PartFor(siblings, lower, node)) != Some(node)
  {
    var part := PartFor(siblings, lower, node);
    HeadHasNone(part, ':');
    NamedMembers(siblings, lower, Split(part, ':')[0]);
    var matches := Named(siblings, lower, Split(part, ':')[0]);
    assert node !in matches;
    hide Named, Split, ParseInt, Decimal, PartFor;
  }

  // The positions up to `n` whose element's name, seen through `key`, is `name`.
  ghost function Places(children: seq<Element>, key: string -> string, name: string, n: nat): set<nat>
    requires n <= |children|
  {
    set i: nat | i < n && key(children[i].tagName) == name
  }

  lemma {:induction false} NamedCount(children: seq<Element>, key: string -> string, name: string, n: nat)
    requires n <= |children|
    ensures |Named(children[..n], key, name)| == |Places(children, key, name, n)|
  {
    if n > 0 {
      NamedCount(children, key, name, n - 1);
      assert children[..n][..n - 1] == children[..n - 1];
      assert Places(children, key, name, n) ==
             Places(children, key, name, n - 1) + if key(children[n - 1].tagName) == name then {n - 1} else {};
    } else {
      assert Places(children, key, name, 0) == {};
    }
  }

  // The text of a part: the lower-cased tag alone if no sibling has the same tag, otherwise with the place of the
  // element among them, counted from one.
  lemma PartSpelled(siblings: seq<Element>, lower: string -> string, k: nat)
    requires k < |siblings| && Distinct(siblings)
    ensures var tag := siblings[k].tagName;
            var same := set i: nat | i < |siblings| && siblings[i].tagName == tag;
            var earlier := set i: nat | i < k && siblings[i].tagName == tag;
            PartFor(siblings, lower, siblings[k]) ==
            if |same| > 1 then lower(tag) + ":" + Decimal(|earlier| + 1) else lower(tag)
  {
    var tag := siblings[k].tagName;
    Rank(siblings, Exact, k);
    NamedCount(siblings, Exact, tag, |siblings|);
    NamedCount(siblings, Exact, tag, k);
    assert siblings[..|siblings|] == siblings;
    assert (set i: nat | i < |siblings| && siblings[i].tagName == tag) == Places(siblings, Exact, tag, |siblings|);
    assert (set i: nat | i < k && siblings[i].tagName == tag) == Places(siblings, Exact, tag, k);
    var same := Named(siblings, Exact, tag);
    assert same[|Named(siblings[..k], Exact, tag)|] == siblings[k];
    assert IndexOf(same, siblings[k]) == |Named(siblings[..k], Exact, tag)|;
    hide Named, Decimal;
  }

  // The child a part leads to: the one whose lower-cased tag is the text before the first colon and which has as many
  // such siblings before it as the index says, counted from one; the index is the number behind the colon, or one.
  lemma ChildSpelled(children: seq<Element>, lower: string -> string, part: string, j: nat)
    requires j < |children| && Distinct(children)
    ensures var bits := Split(part, ':');
            var index := if |bits| > 1 && bits[1] != "" then ParseInt(bits[1]) else Some(1);
            ChildFor(children, lower, part) == Some(children[j])
            <==> index.Some? && lower(children[j].tagName) == bits[0]
                 && |set i: nat | i < j && lower(children[i].tagName) == bits[0]| == index.value - 1
  {
    var tag := Split(part, ':')[0];
    var matches := Named(children, lower, tag);
    NamedMembers(children, lower, tag);
    assert (set i: nat | i < j && lower(children[i].tagName) == tag) == Places(children, lower, tag, j);
    NamedCount(children, lower, tag, j);
    if lower(children[j].tagName) == tag { Rank(children, lower, j); }
    hide Named, Split, ParseInt;
  }

  // ---------------------------------------------------------------------------------------------------------
  // Whole anchors
  // ---------------------------------------------------------------------------------------------------------

  // The parts from `screen` down to `node`; None when `screen` is not on the way up.
  ghost function PartsTo(page: set<Element>, lower: string -> string, node: Element, screen: Element): Option<seq<string>>
    requires TreeOk(page) && node in page
    reads page
    decreases node.depth
  {
    if node == screen then Some([])
    else if node.parent == null then None
    else
      var above := (DepthFalls(page, node); PartsTo(page, lower, node.parent, screen));
      if above.None? then None else Some(above.value + [PartFor(node.parent.children, lower, node)])
  }

  lemma DepthFalls(page: set<Element>, node: Element)
    requires TreeOk(page) && node in page && node.parent != null
    ensures node.parent.depth < node.depth
  {
    var i :| 0 <= i < |node.parent.children| && node.parent.children[i] == node;
  }

  // Following parts downwards.
  ghost function Follow(page: set<Element>, lower: string -> string, node: Element, parts: seq<string>): Option<Element>
    requires TreeOk(page) && node in page
    reads page
    decreases |parts|
  {
    if parts == [] then Some(node)
    else
      var child := ChildFor(node.children, lower, parts[0]);
      if child.None? then None
      else (ChildInPage(page, lower, node, parts[0]); Follow(page, lower, child.value, parts[1..]))
  }

  lemma ChildInPage(page: set<Element>, lower: string -> string, node: Element, part: string)
    requires TreeOk(page) && node in page
    ensures var child := ChildFor(node.children, lower, part);
            child.Some? ==> child.value in page && child.value in node.children && child.value.parent == node
  {
    var matches := Named(node.children, lower, Split(part, ':')[0]);
    NamedMembers(node.children, lower, Split(part, ':')[0]);
    var child := ChildFor(node.children, lower, part);
    if child.Some? {
      assert child.value in matches;
      var i :| 0 <= i < |node.children| && node.children[i] == child.value;
    }
  }

  // Going up and going down again.
  ghost predicate StepOk(page: set<Element>, lower: string -> string, node: Element)
    requires node.parent != null
    reads node, node.parent
  {
    && ':' !in lower(node.tagName)
    && node in node.parent.children
    && CaseAgrees(node.parent.children[..IndexOf(node.parent.children, node)], lower, node)
  }

  // Every element from `node` up to just below `screen` can be told from its siblings by its part.
  ghost predicate Printable(page: set<Element>, lower: string -> string, node: Element, screen: Element)
    requires TreeOk(page) && node in page
    reads page
    decreases node.depth
  {
    node == screen || (
      && node.parent != null && StepOk(page, lower, node)
      && (DepthFalls(page, node); Printable(page, lower, node.parent, screen)))
  }

  lemma StepRoundTrip(page: set<Element>, lower: string -> string, node: Element)
    requires TreeOk(page) && node in page && node.parent != null
    ensures ChildFor(node.parent.children, lower, PartFor(node.parent.children, lower, node)) == Some(node)
            <==> StepOk(page, lower, node)
  {
    PartRoundTrip(node.parent.children, lower, IndexOf(node.parent.children, node));
  }

  lemma {:induction false} FollowAppend(page: set<Element>, lower: string -> string, node: Element, parts: seq<string>, part: string)
    requires TreeOk(page) && node in page
    ensures var mid := Follow(page, lower, node, parts);
            Follow(page, lower, node, parts + [part]) ==
            if mid.None? then None else ChildFor(mid.value.children, lower, part)
    decreases |parts|
  {
    if parts == [] {
      assert ([part])[1..] == [];
      if ChildFor(node.children, lower, part).Some? { ChildInPage(page, lower, node, part); }
    } else {
      assert (parts + [part])[1..] == parts[1..] + [part];
      var child := ChildFor(node.children, lower, parts[0]);
      if child.Some? {
        ChildInPage(page, lower, node, parts[0]);
        FollowAppend(page, lower, child.value, parts[1..], part);
      }
    }
  }

  lemma {:induction false} FollowInPage(page: set<Element>, lower: string -> string, node: Element, parts: seq<string>)
    requires TreeOk(page) && node in page
    ensures var end := Follow(page, lower, node, parts); end.Some? ==> end.value in page
    decreases |parts|
  {
    if parts != [] {
      var child := ChildFor(node.children, lower, parts[0]);
      if child.Some? {
        ChildInPage(page, lower, node, parts[0]);
        FollowInPage(page, lower, child.value, parts[1..]);
      }
    }
  }

  // Following the parts printed for a descendant leads back to it exactly when every step on the way is printable.
  lemma {:induction false} PartsRoundTrip(page: set<Element>, lower: string -> string, node: Element, screen: Element)
    requires TreeOk(page) && node in page && screen in page && PartsTo(page, lower, node, screen).Some?
    ensures Follow(page, lower, screen, PartsTo(page, lower, node, screen).value) == Some(node)
            <==> Printable(page, lower, node, screen)
    decreases node.depth
  {
    if node != screen {
      DepthFalls(page, node);
      PartsRoundTrip(page, lower, node.parent, screen);
      var above := PartsTo(page, lower, node.parent, screen).value;
      var part := PartFor(node.parent.children, lower, node);
      FollowAppend(page, lower, screen, above, part);
      FollowInPage(page, lower, screen, above);
      StepRoundTrip(page, lower, node);
      var mid := Follow(page, lower, screen, above);
      if mid.Some? && ChildFor(mid.value.children, lower, part) == Some(node) {
        ChildInPage(page, lower, mid.value, part);
      }
    }
  }

  method AnchorFor(ghost page: set<Element>, lower: string -> string, node: Element?, screen: Element)
    returns (path: Option<string>)
    requires TreeOk(page) && screen in page && (node != null ==> node in page)
    ensures node == null ==> path == Some("")
    ensures node != null ==>
              path == var parts := PartsTo(page, lower, node, screen); if parts.None? then None else Some(Join(parts.value, '>'))
  {
    if node == null { return Some(Join([], '>')); }
    var cur: Element, parts: seq<string> := node, [];
    Unprinted(page, lower, node, screen);
    while cur != screen
      invariant cur in page && Printed(page, lower, node, screen, cur, parts)
      decreases cur.depth
    {
      PrintedStep(page, lower, node, screen, cur, parts);
      var parent := cur.parent;
      if parent == null { return None; }
      DepthFalls(page, cur);
      IndexOfSelf(page, cur);
      var tag := lower(cur.tagName);
      var sameTag := Named(parent.children, Exact, cur.tagName);
      var part := if |sameTag| > 1 then tag + ":" + Decimal(IndexOf(sameTag, cur) + 1) else tag;
      assert part == PartFor(parent.children, lower, cur);
      hide *;
      parts := [part] + parts;
      cur := parent;
    }
    path := Some(Join(parts, '>'));
    assert PartsTo(page, lower, node, screen) == Some(parts) by { assert [] + parts == parts; }
  }

  // Going up from `node`, the loop stands at `cur` and has printed the parts below it.
  ghost predicate Printed(page: set<Element>, lower: string -> string, node: Element, screen: Element, cur: Element,
                          parts: seq<string>)
    requires TreeOk(page) && node in page && cur in page
    reads page
  {
    var above := PartsTo(page, lower, cur, screen);
    PartsTo(page, lower, node, screen) == if above.None? then None else Some(above.value + parts)
  }

  lemma Unprinted(page: set<Element>, lower: string -> string, node: Element, screen: Element)
    requires TreeOk(page) && node in page
    ensures Printed(page, lower, node, screen, node, [])
  {
    var all := PartsTo(page, lower, node, screen);
    if all.Some? { assert all.value + [] == all.value; }
  }

  lemma PrintedStep(page: set<Element>, lower: string -> string, node: Element, screen: Element, cur: Element,
                    parts: seq<string>)
    requires TreeOk(page) && node in page && cur in page && cur != screen
    requires Printed(page, lower, node, screen, cur, parts)
    ensures cur.parent == null ==> PartsTo(page, lower, node, screen).None?
    ensures cur.parent != null ==> cur.parent in page
    ensures cur.parent != null ==>
              Printed(page, lower, node, screen, cur.parent, [PartFor(cur.parent.children, lower, cur)] + parts)
  {
    if cur.parent != null {
      DepthFalls(page, cur);
      var above := PartsTo(page, lower, cur.parent, screen);
      var part := PartFor(cur.parent.children, lower, cur);
      if above.Some? { assert above.value + [part] + parts == above.value + ([part] + parts); }
    }
  }

  lemma IndexOfSelf(page: set<Element>, node: Element)
    requires TreeOk(page) && node in page && node.parent != null
    ensures IndexOf(Named(node.parent.children, Exact, node.tagName), node) >= 0
  {
    NamedMembers(node.parent.children, Exact, node.tagName);
  }

  method ResolveAnchor(ghost page: set<Element>, lower: string -> string, screen: Element, path: string)
    returns (node: Element?)
    requires TreeOk(page) && screen in page
    ensures path == "" ==> node == null
    ensures path != "" ==>
              node == var end := Follow(page, lower, screen, Split(path, '>')); if end.None? then null else end.value
  {
    if path == "" { return null; }
    var parts := Split(path, '>');
    var cur := screen;
    var i := 0;
    while i < |parts|
      invariant 0 <= i <= |parts| && cur in page
      invariant Follow(page, lower, screen, parts) == Follow(page, lower, cur, parts[i..])
    {
      FollowStep(page, lower, cur, parts, i);
      var bits := Split(parts[i], ':');
      var index := if |bits| > 1 && bits[1] != "" then ParseInt(bits[1]) else Some(1);
      var matches := Named(cur.children, lower, bits[0]);
      assert ChildFor(cur.children, lower, parts[i]) ==
             if index.Some? && 1 <= index.value <= |matches| then Some(matches[index.value - 1]) else None;
      hide *;
      if index.None? || index.value < 1 || index.value > |matches| { return null; }
      cur := matches[index.value - 1];
      i := i + 1;
    }
    FollowEnd(page, lower, cur, parts);
    node := cur;
  }

  lemma FollowStep(page: set<Element>, lower: string -> string, cur: Element, parts: seq<string>, i: nat)
    requires TreeOk(page) && cur in page && i < |parts|
    ensures var child := ChildFor(cur.children, lower, parts[i]);
            && (child.Some? ==> child.value in page)
            && Follow(page, lower, cur, parts[i..]) ==
               if child.None? then None else Follow(page, lower, child.value, parts[i + 1..])
  {
    ChildInPage(page, lower, cur, parts[i]);
    assert parts[i..][1..] == parts[i + 1..];
  }

  lemma FollowEnd(page: set<Element>, lower: string -> string, cur: Element, parts: seq<string>)
    requires TreeOk(page) && cur in page
    ensures Follow(page, lower, cur, parts[|parts|..]) == Some(cur)
  {
  }

  lemma PartsAreClean(page: set<Element>, lower: string -> string, node: Element, screen: Element)
    requires TreeOk(page) && NamesOk(page, lower) && node in page && PartsTo(page, lower, node, screen).Some?
    ensures var parts := PartsTo(page, lower, node, screen).value;
            (forall p | p in parts :: p != "" && '>' !in p) && (parts == [] <==> node == screen)
    decreases node.depth
  {
    if node != screen {
      DepthFalls(page, node);
      PartsAreClean(page, lower, node.parent, screen);
      var siblings := node.parent.children;
      var r := IndexOf(Named(siblings, Exact, node.tagName), node);
      if r >= 0 { DecimalDigits(r + 1); }
      var part := PartFor(siblings, lower, node);
      assert part != "" && '>' !in part;
    }
  }

  // The round trip, for every element under the screen: printing and resolving leads back to the element exactly when
  // neither it nor any element between it and the screen has a colon in its tag or an earlier sibling that agrees with
  // it in lower case only.
  method PrintAndResolve(ghost page: set<Element>, lower: string -> string, node: Element, screen: Element)
    returns (path: Option<string>, back: Element?)
    requires TreeOk(page) && NamesOk(page, lower) && node in page && screen in page
    ensures path.None? <==> PartsTo(page, lower, node, screen).None?
    ensures path.Some? && node == screen ==> path == Some("") && back == null
    ensures path.Some? && node != screen ==> (back == node <==> Printable(page, lower, node, screen))
    ensures path.None? ==> back == null
  {
    path := AnchorFor(page, lower, node, screen);
    if path.None? { return path, null; }
    back := ResolveAnchor(page, lower, screen, path.value);
    PartsAreClean(page, lower, node, screen);
    if node != screen {
      ghost var parts := PartsTo(page, lower, node, screen).value;
      assert parts[0] in parts;
      SplitJoin(parts, '>');
      PartsRoundTrip(page, lower, node, screen);
      FollowInPage(page, lower, screen, parts);
    }
  }

  // Without colons in tags, and with one case per tag among siblings, every element is printable.
  lemma {:induction false} PlainNamesArePrintable(page: set<Element>, lower: string -> string, node: Element, screen: Element)
    requires TreeOk(page) && node in page && PartsTo(page, lower, node, screen).Some?
    requires forall e | e in page :: ':' !in lower(e.tagName)
    requires forall e, f | e in page && f in page && lower(e.tagName) == lower(f.tagName) :: e.tagName == f.tagName
    ensures Printable(page, lower, node, screen)
    decreases node.depth
  {
    if node != screen {
      DepthFalls(page, node);
      PlainNamesArePrintable(page, lower, node.parent, screen);
      var siblings := node.parent.children;
      forall e | e in siblings[..IndexOf(siblings, node)] ensures e in page {
        var i :| 0 <= i < |siblings| && siblings[i] == e;
      }
    }
  }

  function LowerAscii(s: string): string {
    seq(|s|, i requires 0 <= i < |s| => if 'A' <= s[i] <= 'Z' then s[i] - 'A' + 'a' else s[i])
  }

  method Family(screenTag: string, firstTag: string, secondTag: string)
    returns (ghost page: set<Element>, screen: Element, first: Element, second: Element)
    ensures TreeOk(page) && page == {screen, first, second} && fresh(page) && first != second
    ensures screen.children == [first, second] && first.parent == screen && second.parent == screen && screen.parent == null
    ensures screen.tagName == screenTag && first.tagName == firstTag && second.tagName == secondTag
    ensures screen != first && screen != second
  {
    screen := new Element(screenTag);
    first := new Element(firstTag);
    second := new Element(secondTag);
    screen.children := [first, second];
    first.parent, first.depth := screen, screen.depth + 1;
    second.parent, second.depth := screen, screen.depth + 1;
    page := {screen, first, second};
  }

  // An element with a namespaced tag is lost.
  method ColonAnchorIsLost() returns (lost: bool)
    ensures lost
  {
    ghost var page: set<Element>;
    var screen, first, second;
    page, screen, first, second := Family("MAIN", "P", "svg:path");
    NamesOfFamily(page, screen, first, second, "main", "p", "svg:path");
    var path, back := PrintAndResolve(page, LowerAscii, second, screen);
    assert LowerAscii("svg:path")[3] == ':';
    lost := path.Some? && back != second;
  }

  // An element whose earlier sibling differs from it in case only is lost.
  method CaseAnchorIsLost() returns (lost: bool)
    ensures lost
  {
    ghost var page: set<Element>;
    var screen, first, second;
    page, screen, first, second := Family("MAIN", "a", "A");
    NamesOfFamily(page, screen, first, second, "main", "a", "a");
    var path, back := PrintAndResolve(page, LowerAscii, second, screen);
    assert screen.children[..1] == [first];
    lost := path.Some? && back != second;
  }

  lemma NamesOfFamily(page: set<Element>, screen: Element, first: Element, second: Element, a: string, b: string, c: string)
    requires page == {screen, first, second}
    requires LowerAscii(screen.tagName) == a && LowerAscii(first.tagName) == b && LowerAscii(second.tagName) == c
    requires a != "" && b != "" && c != "" && '>' !in a && '>' !in b && '>' !in c
    ensures NamesOk(page, LowerAscii)
  {
  }
}
