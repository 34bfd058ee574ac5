/** The legend (layer tree) helpers of utils/legend.py: find-or-create a group
    along a path, collect the layer nodes of a subtree, look a layer up among
    a group's direct children, and the way `get_layer` reads a legend name. */
module Legend {
  import opened Wrappers
  import opened Strings

  /** A layer-tree node: a group with ordered children, or a layer node
      standing for its map layer. */
  datatype Node = Group(name: string, children: seq<Node>) | Layer(name: string, mapLayer: nat)

  /** `children()`: a layer node has none. */
  function Kids(n: Node): seq<Node> {
    if n.Group? then n.children else []
  }

  /** The node reached by following child indices, if there is one. A
      position is how the model refers to a node object of the tree. */
  function Get(n: Node, pos: seq<nat>): Option<Node>
    decreases |pos|
  {
    if |pos| == 0 then Some(n)
    else match n
      case Layer(_, _) => None
      case Group(_, cs) => if pos[0] < |cs| then Get(cs[pos[0]], pos[1..]) else None
  }

  predicate IsGroupAt(n: Node, pos: seq<nat>) {
    Get(n, pos).Some? && Get(n, pos).value.Group?
  }

  lemma {:induction false} GetConcat(n: Node, pos: seq<nat>, rel: seq<nat>)
    requires Get(n, pos).Some?
    ensures Get(n, pos + rel) == Get(Get(n, pos).value, rel)
    decreases |pos|
  {
    if |pos| == 0 {
      assert pos + rel == rel;
    } else {
      assert (pos + rel)[0] == pos[0] && (pos + rel)[1..] == pos[1..] + rel;
      GetConcat(n.children[pos[0]], pos[1..], rel);
    }
  }

  /** `addGroup` / `addLayer` on the group at `pos`: the child goes last. */
  function AddChild(n: Node, pos: seq<nat>, child: Node): (r: Node)
    requires IsGroupAt(n, pos)
    ensures r.Group? && r.name == n.name
    ensures Get(r, pos) == Some(Group(Get(n, pos).value.name, Get(n, pos).value.children + [child]))
    decreases |pos|
  {
    if |pos| == 0 then Group(n.name, n.children + [child])
    else
      var i := pos[0];
      Group(n.name, n.children[i := AddChild(n.children[i], pos[1..], child)])
  }

  /** The added child sits right after the group's former last child. */
  lemma AddChildPlacesChild(n: Node, pos: seq<nat>, child: Node)
    requires IsGroupAt(n, pos)
    ensures Get(AddChild(n, pos, child), pos + [|Get(n, pos).value.children|]) == Some(child)
  {
    GetConcat(AddChild(n, pos, child), pos, [|Get(n, pos).value.children|]);
  }

  predicate IsPrefix(q: seq<nat>, pos: seq<nat>) {
    |q| <= |pos| && q == pos[..|q|]
  }

  /** Adding a child changes no node except the group it is added to and that
      group's ancestors. */
  lemma {:induction false} AddChildElsewhere(n: Node, pos: seq<nat>, child: Node, q: seq<nat>)
    requires IsGroupAt(n, pos) && Get(n, q).Some? && !IsPrefix(q, pos)
    ensures Get(AddChild(n, pos, child), q) == Get(n, q)
    decreases |pos|
  {
    assert |q| > 0;
    if |pos| > 0 && q[0] == pos[0] {
      AddChildElsewhere(n.children[pos[0]], pos[1..], child, q[1..]);
    }
  }

  /** The `findGroup` of the tree: a lookup under a node. Given a node and a
      name it returns the position, relative to that node, of some group
      with that name below it, or None. */
  type Finder = (Node, string) -> Option<seq<nat>>

  /** What the model assumes of `findGroup`: what it returns is a proper
      descendant group with the name asked for. */
  ghost predicate FinderSound(find: Finder) {
    forall n: Node, s: string :: find(n, s).Some? ==>
      |find(n, s).value| > 0 && IsGroupAt(n, find(n, s).value)
      && Get(n, find(n, s).value).value.name == s
  }

  /** `get_group`: the tree and the group's position after one
      find-or-create step under the group at `parent`. */
  function FoundOrAdded(root: Node, parent: seq<nat>, name: string, find: Finder): (r: (Node, seq<nat>))
    requires IsGroupAt(root, parent) && FinderSound(find)
    ensures IsGroupAt(r.0, r.1) && Get(r.0, r.1).value.name == name
    ensures r.0.Group? && |r.1| > |parent| && r.1[..|parent|] == parent
  {
    var g := Get(root, parent).value;
    match find(g, name)
    case Some(rel) =>
      GetConcat(root, parent, rel);
      assert (parent + rel)[..|parent|] == parent;
      (root, parent + rel)
    case None =>
      var t := AddChild(root, parent, Group(name, []));
      AddChildPlacesChild(root, parent, Group(name, []));
      assert (parent + [|g.children|])[..|parent|] == parent;
      (t, parent + [|g.children|])
  }

  /** `get_group` returns what `findGroup` finds and leaves the tree alone;
      otherwise it appends an empty group of that name to the parent and
      returns it. */
  lemma GetGroupFindsOrAdds(root: Node, parent: seq<nat>, name: string, find: Finder)
    requires IsGroupAt(root, parent) && FinderSound(find)
    ensures var g := Get(root, parent).value;
            var r := FoundOrAdded(root, parent, name, find);
            && (find(g, name).Some? ==> r == (root, parent + find(g, name).value))
            && (find(g, name).None? ==>
                  && r.0 == AddChild(root, parent, Group(name, []))
                  && r.1 == parent + [|g.children|]
                  && Get(r.0, r.1) == Some(Group(name, [])))
  {
    AddChildPlacesChild(root, parent, Group(name, []));
  }

  /** The `path` argument of `get_path`. */
  datatype PathArg = NoPath | PathString(s: string) | PathList(parts: seq<string>)

  /** The parts `get_path` walks: a string is split on "/" keeping empty
      parts; a list or tuple is taken as it is. */
  function PathParts(path: PathArg): seq<string> {
    match path
    case NoPath => []
    case PathString(s) => Split(s, '/')
    case PathList(ps) => ps
  }

  /** A string path is split losslessly: its parts hold no "/" and joined
      with "/" give the string back. */
  lemma PathStringParts(s: string)
    ensures var r := PathParts(PathString(s));
            Join(r, '/') == s && forall i :: 0 <= i < |r| ==> '/' !in r[i]
  {
    JoinSplit(s, '/');
  }

  /** Python truthiness of a `default_group` argument. */
  predicate Truthy(path: PathArg) {
    match path
    case NoPath => false
    case PathString(s) => |s| > 0
    case PathList(ps) => |ps| > 0
  }

  /** A falsy `default_group` leaves nothing to walk but an empty part, and
      a truthy one names at least one part. */
  lemma FalsyPathParts(path: PathArg)
    ensures !Truthy(path) ==> PathParts(path) == [] || PathParts(path) == [""]
    ensures Truthy(path) ==> |PathParts(path)| > 0
  {
    if path.PathString? {
      JoinSplit(path.s, '/');
    }
  }

  /** `get_path`: one `get_group` step per part, each from the previous
      result. */
  function Walk(root: Node, start: seq<nat>, parts: seq<string>, find: Finder): (r: (Node, seq<nat>))
    requires IsGroupAt(root, start) && FinderSound(find)
    ensures IsGroupAt(r.0, r.1)
    ensures root.Group? ==> r.0.Group?
    ensures |parts| > 0 ==> Get(r.0, r.1).value.name == parts[|parts| - 1]
    ensures |r.1| >= |start| + |parts| && r.1[..|start|] == start
    decreases |parts|
  {
    if |parts| == 0 then (root, start)
    else
      var w := Walk(root, start, parts[..|parts| - 1], find);
      var r := FoundOrAdded(w.0, w.1, parts[|parts| - 1], find);
      assert r.1[..|start|] == r.1[..|w.1|][..|start|];
      r
  }

  /** One more part: a `get_group` from where the shorter walk ended. */
  lemma WalkStep(root: Node, start: seq<nat>, parts: seq<string>, i: nat, find: Finder)
    requires IsGroupAt(root, start) && FinderSound(find) && i < |parts|
    ensures var w := Walk(root, start, parts[..i], find);
            Walk(root, start, parts[..i + 1], find) == FoundOrAdded(w.0, w.1, parts[i], find)
  {
    assert parts[..i + 1][..i] == parts[..i];
  }

  /** An empty walk leaves tree and start as they are. */
  lemma WalkEmpty(root: Node, start: seq<nat>, find: Finder)
    requires IsGroupAt(root, start) && FinderSound(find)
    ensures Walk(root, start, [], find) == (root, start)
  {
  }

  /** Walking `a + b` is walking `a`, then `b` from where `a` ended. */
  lemma {:induction false} WalkConcat(root: Node, start: seq<nat>, a: seq<string>, b: seq<string>, find: Finder)
    requires IsGroupAt(root, start) && FinderSound(find)
    ensures var w := Walk(root, start, a, find);
            Walk(root, start, a + b, find) == Walk(w.0, w.1, b, find)
    decreases |b|
  {
    if |b| == 0 {
      assert a + b == a;
    } else {
      assert (a + b)[..|a + b| - 1] == a + b[..|b| - 1];
      assert (a + b)[|a + b| - 1] == b[|b| - 1];
      WalkConcat(root, start, a, b[..|b| - 1], find);
    }
  }

  /** Layer nodes of the first `k` children of `n` and of their subtrees,
      depth first in children order. */
  function LayersIn(n: Node, k: nat): seq<Node>
    requires k <= |Kids(n)|
    decreases n, k
  {
    match n
    case Layer(_, _) => []
    case Group(_, cs) =>
      if k == 0 then []
      else
        var c := cs[k - 1];
        LayersIn(n, k - 1) + (if c.Group? then LayersIn(c, |c.children|) else [c])
  }

  /** What `all_layers(n)` returns. */
  function LayersOf(n: Node): seq<Node> {
    LayersIn(n, |Kids(n)|)
  }

  /** The inner `do_a_group` of `all_layers`: appends the layer nodes below
      `grp` to `result`. */
  method CollectLayers(grp: Node, result: seq<Node>) returns (r: seq<Node>)
    ensures r == result + LayersOf(grp)
    decreases grp
  {
    r := result;
    match grp {
      case Layer(_, _) =>
      case Group(_, cs) =>
        for i := 0 to |cs|
          invariant r == result + LayersIn(grp, i)
        {
          var child := cs[i];
          if child.Group? {
            r := CollectLayers(child, r);
          } else {
            r := r + [child];
          }
        }
    }
  }

  /** Every node of the first `k` children of `n` and below, in pre-order. */
  function DescendantsIn(n: Node, k: nat): seq<Node>
    requires k <= |Kids(n)|
    decreases n, k
  {
    match n
    case Layer(_, _) => []
    case Group(_, cs) =>
      if k == 0 then []
      else
        var c := cs[k - 1];
        DescendantsIn(n, k - 1) + [c] + DescendantsIn(c, |Kids(c)|)
  }

  /** Every node strictly below `n`, in pre-order. */
  function Descendants(n: Node): seq<Node> {
    DescendantsIn(n, |Kids(n)|)
  }

  /** The layer nodes of a sequence of nodes, in order. */
  function OnlyLayers(s: seq<Node>): seq<Node>
    decreases |s|
  {
    if |s| == 0 then []
    else OnlyLayers(s[..|s| - 1]) + (if s[|s| - 1].Layer? then [s[|s| - 1]] else [])
  }

  lemma {:induction false} OnlyLayersMembers(s: seq<Node>)
    ensures forall x :: x in OnlyLayers(s) <==> x in s && x.Layer?
    decreases |s|
  {
    if |s| > 0 {
      OnlyLayersMembers(s[..|s| - 1]);
      assert s == s[..|s| - 1] + [s[|s| - 1]];
    }
  }

  lemma {:induction false} OnlyLayersConcat(a: seq<Node>, b: seq<Node>)
    ensures OnlyLayers(a + b) == OnlyLayers(a) + OnlyLayers(b)
    decreases |b|
  {
    if |b| == 0 {
      assert a + b == a;
    } else {
      assert (a + b)[..|a + b| - 1] == a + b[..|b| - 1];
      assert (a + b)[|a + b| - 1] == b[|b| - 1];
      OnlyLayersConcat(a, b[..|b| - 1]);
    }
  }

  lemma OnlyLayersStep(d1: seq<Node>, c: Node, d2: seq<Node>, tail: seq<Node>)
    requires tail == if c.Group? then OnlyLayers(d2) else [c]
    requires c.Layer? ==> d2 == []
    ensures OnlyLayers(d1) + tail == OnlyLayers(d1 + [c] + d2)
  {
    OnlyLayersConcat(d1 + [c], d2);
    OnlyLayersConcat(d1, [c]);
    assert [c][..0] == [];
  }

  lemma {:induction false} LayersInAreDescendantLayers(n: Node, k: nat)
    requires k <= |Kids(n)|
    ensures LayersIn(n, k) == OnlyLayers(DescendantsIn(n, k))
    decreases n, k
  {
    match n
    case Layer(_, _) =>
    case Group(_, cs) =>
      if k > 0 {
        var c := cs[k - 1];
        var d1, d2 := DescendantsIn(n, k - 1), DescendantsIn(c, |Kids(c)|);
        var tail := if c.Group? then LayersIn(c, |c.children|) else [c];
        assert LayersIn(n, k) == LayersIn(n, k - 1) + tail;
        assert DescendantsIn(n, k) == d1 + [c] + d2;
        LayersInAreDescendantLayers(n, k - 1);
        LayersInAreDescendantLayers(c, |Kids(c)|);
        OnlyLayersStep(d1, c, d2, tail);
      }
  }

  /** `all_layers` returns exactly the layer nodes of the subtree, depth
      first in children order, and never a group. */
  lemma AllLayersAreDescendantLayers(n: Node)
    ensures LayersOf(n) == OnlyLayers(Descendants(n))
    ensures forall x :: x in LayersOf(n) ==> x.Layer? && x in Descendants(n)
  {
    LayersInAreDescendantLayers(n, |Kids(n)|);
    OnlyLayersMembers(Descendants(n));
  }

  /** The nodes of `s` named `name`, in order. */
  function WithName(s: seq<Node>, name: string): (r: seq<Node>)
    ensures |r| <= |s|
    decreases |s|
  {
    if |s| == 0 then []
    else WithName(s[..|s| - 1], name) + (if s[|s| - 1].name == name then [s[|s| - 1]] else [])
  }

  lemma {:induction false} WithNameMembers(s: seq<Node>, name: string)
    ensures forall x :: x in WithName(s, name) <==> x in s && x.name == name
    decreases |s|
  {
    if |s| > 0 {
      WithNameMembers(s[..|s| - 1], name);
      assert s == s[..|s| - 1] + [s[|s| - 1]];
    }
  }

  lemma {:induction false} WithNameConcat(a: seq<Node>, b: seq<Node>, name: string)
    ensures WithName(a + b, name) == WithName(a, name) + WithName(b, name)
    decreases |b|
  {
    if |b| == 0 {
      assert a + b == a;
    } else {
      assert (a + b)[..|a + b| - 1] == a + b[..|b| - 1];
      assert (a + b)[|a + b| - 1] == b[|b| - 1];
      WithNameConcat(a, b[..|b| - 1], name);
    }
  }

  /** Layer nodes named `name` of the first `k` children of `n` and of their
      subtrees, depth first in children order. */
  function NamedLayersIn(n: Node, name: string, k: nat): seq<Node>
    requires k <= |Kids(n)|
    decreases n, k
  {
    match n
    case Layer(_, _) => []
    case Group(_, cs) =>
      if k == 0 then []
      else
        var c := cs[k - 1];
        NamedLayersIn(n, name, k - 1)
        + (if c.Group? then NamedLayersIn(c, name, |c.children|) else if c.name == name then [c] else [])
  }

  /** One more child that is a group: its subtree's layers follow. */
  lemma GroupChildStep(n: Node, name: string, k: nat)
    requires n.Group? && 0 < k <= |n.children| && n.children[k - 1].Group?
    ensures var c := n.children[k - 1];
            && LayersIn(n, k) == LayersIn(n, k - 1) + LayersIn(c, |c.children|)
            && NamedLayersIn(n, name, k) == NamedLayersIn(n, name, k - 1) + NamedLayersIn(c, name, |c.children|)
  {
  }

  /** One more child that is a layer: it follows, and is kept by name. */
  lemma LayerChildStep(n: Node, name: string, k: nat)
    requires n.Group? && 0 < k <= |n.children| && n.children[k - 1].Layer?
    ensures var c := n.children[k - 1];
            && LayersIn(n, k) == LayersIn(n, k - 1) + [c]
            && NamedLayersIn(n, name, k) == NamedLayersIn(n, name, k - 1) + WithName([c], name)
  {
    assert [n.children[k - 1]][..0] == [];
  }

  /** The group-child case of `NamedLayersAreFiltered`. */
  lemma {:induction false} GroupChildFiltered(n: Node, name: string, k: nat)
    requires n.Group? && 0 < k <= |n.children| && n.children[k - 1].Group?
    ensures NamedLayersIn(n, name, k) == WithName(LayersIn(n, k), name)
    decreases n, k, 0
  {
    var c := n.children[k - 1];
    var front, back := LayersIn(n, k - 1), LayersIn(c, |c.children|);
    NamedLayersAreFiltered(n, name, k - 1);
    NamedLayersAreFiltered(c, name, |c.children|);
    GroupChildStep(n, name, k);
    WithNameConcat(front, back, name);
    calc {
      NamedLayersIn(n, name, k);
      NamedLayersIn(n, name, k - 1) + NamedLayersIn(c, name, |c.children|);
      WithName(front, name) + WithName(back, name);
      WithName(front + back, name);
    }
  }

  /** The layer-child case of `NamedLayersAreFiltered`. */
  lemma {:induction false} LayerChildFiltered(n: Node, name: string, k: nat)
    requires n.Group? && 0 < k <= |n.children| && n.children[k - 1].Layer?
    ensures NamedLayersIn(n, name, k) == WithName(LayersIn(n, k), name)
    decreases n, k, 0
  {
    NamedLayersAreFiltered(n, name, k - 1);
    LayerChildStep(n, name, k);
    WithNameConcat(LayersIn(n, k - 1), [n.children[k - 1]], name);
  }

  /** `all_layers_with_name` is `all_layers` filtered by name, in the same
      order. */
  lemma {:induction false} NamedLayersAreFiltered(n: Node, name: string, k: nat)
    requires k <= |Kids(n)|
    ensures NamedLayersIn(n, name, k) == WithName(LayersIn(n, k), name)
    decreases n, k, 1
  {
    if n.Group? && k > 0 {
      if n.children[k - 1].Group? {
        GroupChildFiltered(n, name, k);
      } else {
        LayerChildFiltered(n, name, k);
      }
    }
  }

  /** `all_layers_with_name` returns exactly the layer nodes of the subtree
      named `name`. */
  lemma NamedLayersAreLayersNamed(n: Node, name: string)
    ensures forall x :: x in NamedLayersIn(n, name, |Kids(n)|) <==> x in Descendants(n) && x.Layer? && x.name == name
  {
    NamedLayersAreFiltered(n, name, |Kids(n)|);
    WithNameMembers(LayersOf(n), name);
    AllLayersAreDescendantLayers(n);
    OnlyLayersMembers(Descendants(n));
  }

  /** The inner `do_a_group` of `all_layers_with_name`: appends the layer
      nodes below `grp` named `name` to `result`. */
  method CollectLayersNamed(grp: Node, name: string, result: seq<Node>) returns (r: seq<Node>)
    ensures r == result + NamedLayersIn(grp, name, |Kids(grp)|)
    decreases grp
  {
    r := result;
    match grp {
      case Layer(_, _) =>
      case Group(_, cs) =>
        for i := 0 to |cs|
          invariant r == result + NamedLayersIn(grp, name, i)
        {
          var child := cs[i];
          if child.Group? {
            r := CollectLayersNamed(child, name, r);
          } else if child.name == name {
            r := r + [child];
          }
        }
    }
  }

  /** Index of the first direct child of `group` from index `i` on that is a
      layer named `name`. */
  function SearchFrom(group: Node, name: string, i: nat): (r: Option<nat>)
    requires i <= |Kids(group)|
    ensures r.Some? ==> i <= r.value < |Kids(group)| && Kids(group)[r.value].Layer?
                        && Kids(group)[r.value].name == name
    ensures forall j :: i <= j < |Kids(group)| && (r.None? || j < r.value) ==>
              !(Kids(group)[j].Layer? && Kids(group)[j].name == name)
    decreases |Kids(group)| - i
  {
    if i == |Kids(group)| then None
    else if Kids(group)[i].Layer? && Kids(group)[i].name == name then Some(i)
    else SearchFrom(group, name, i + 1)
  }

  /** `locate_own_layer`: the first direct child that is a layer named
      `name`; child groups are not looked into. */
  function LocateOwnLayer(name: string, group: Node): (r: Option<nat>)
    ensures r.Some? ==> r.value < |Kids(group)| && Kids(group)[r.value].Layer?
                        && Kids(group)[r.value].name == name
    ensures forall j :: 0 <= j < |Kids(group)| && (r.None? || j < r.value) ==>
              !(Kids(group)[j].Layer? && Kids(group)[j].name == name)
  {
    SearchFrom(group, name, 0)
  }

  /** The non-empty parts of `s` split on "/". */
  function NonEmpty(parts: seq<string>): (r: seq<string>)
    ensures forall p :: p in r <==> p in parts && |p| > 0
    decreases |parts|
  {
    if |parts| == 0 then []
    else
      var rest := NonEmpty(parts[1..]);
      assert forall p :: p in parts <==> p == parts[0] || p in parts[1..];
      if |parts[0]| > 0 then [parts[0]] + rest else rest
  }

  /** The components `get_layer` reads from a legend name. */
  function Components(legendName: string): (r: seq<string>)
    ensures forall p :: p in r ==> |p| > 0 && '/' !in p
  {
    NonEmpty(Split(legendName, '/'))
  }

  lemma {:induction false} NonEmptyKeeps(parts: seq<string>)
    requires forall p :: p in parts ==> |p| > 0
    ensures NonEmpty(parts) == parts
    decreases |parts|
  {
    if |parts| > 0 {
      assert forall p :: p in parts[1..] ==> p in parts;
      NonEmptyKeeps(parts[1..]);
      assert [parts[0]] + parts[1..] == parts;
    }
  }

  /** Joining non-empty, slash-free names with "/" and reading the result
      back gives the names again. */
  lemma ComponentsOfJoin(parts: seq<string>)
    requires |parts| >= 1
    requires forall p :: p in parts ==> |p| > 0 && '/' !in p
    ensures Components(Join(parts, '/')) == parts
  {
    SplitJoin(parts, '/');
    NonEmptyKeeps(parts);
  }

  /** The errors `get_layer` raises. */
  datatype LegendError = AssertionError | ValueError | AttributeError

  /** What `get_layer` finds: an existing layer node (`is_new` False), or a
      new layer named `name` for which `add_layer_to_legend` is called with
      `group` (`is_new` True); None is the `group=None` of that call. */
  datatype LayerLookup = Existing(node: Node) | Created(group: Option<seq<nat>>, name: string)

  /** The group `add_layer_to_legend(layer, group=g)` adds the new layer to,
      for the arguments `get_layer` passes, as written: a group is used as it
      is, and None reaches `group.addLayer(layer)`, which raises
      AttributeError. */
  function TargetGroupAsWritten(group: Option<seq<nat>>): (r: Result<seq<nat>, LegendError>)
    ensures r.Failure? <==> group.None?
    ensures r.Failure? ==> r.error == AttributeError
    ensures r.Success? ==> r.value == group.value
  {
    if group.None? then Failure(AttributeError) else Success(group.value)
  }

  /** The same, as `get_layer` documents it: with no group, the new layer is
      placed at the top level, the root. */
  function TargetGroup(group: Option<seq<nat>>): (r: seq<nat>)
    ensures group.Some? ==> r == group.value
    ensures group.None? ==> r == []
  {
    if group.None? then [] else group.value
  }

  function IsNew(l: LayerLookup): bool {
    l.Created?
  }

  /** `get_layer` up to its call of `add_layer_to_legend`: the tree
      afterwards and the result. `current` is the view's current layer and
      `fallback` what `findLayer` gives for each map layer of that name, None
      where the layer is not in the tree. */
  function Resolve(root: Node, legendName: Option<string>, current: Option<Node>, fallback: seq<Option<Node>>,
                   defaultGroup: PathArg, find: Finder): (r: (Node, Result<LayerLookup, LegendError>))
    requires root.Group? && FinderSound(find)
    ensures r.0.Group?
    ensures r.1.Failure? ==> r.0 == root
    ensures r.1.Success? && r.1.value.Created? && r.1.value.group.Some? ==>
              IsGroupAt(r.0, r.1.value.group.value)
  {
    if legendName.None? then (root, Failure(AssertionError))
    else if |legendName.value| == 0 then
      if current.None? then (root, Failure(ValueError)) else (root, Success(Existing(current.value)))
    else
      var path := Components(legendName.value);
      if |path| > 1 then
        var name := path[|path| - 1];
        var w := Walk(root, [], path[..|path| - 1], find);
        var group := Get(w.0, w.1).value;
        match LocateOwnLayer(name, group)
        case Some(i) => (w.0, Success(Existing(Kids(group)[i])))
        case None => (w.0, Success(Created(Some(w.1), name)))
      else
        var found := WithName(LayersOf(root), legendName.value);
        if |found| > 0 then (root, Success(Existing(found[0])))
        else if |fallback| > 0 then
          if fallback[0].None? then (root, Failure(AttributeError))
          else (root, Success(Existing(fallback[0].value)))
        else if Truthy(defaultGroup) then
          var w := Walk(root, [], PathParts(defaultGroup), find);
          (w.0, Success(Created(Some(w.1), legendName.value)))
        else (root, Success(Created(None, legendName.value)))
  }

  /** The two errors: AssertionError exactly for a None name, ValueError
      exactly for an empty name with no current layer; neither touches the
      tree. An empty name otherwise gives the current layer, not new. */
  lemma ResolveErrors(root: Node, legendName: Option<string>, current: Option<Node>, fallback: seq<Option<Node>>,
                      defaultGroup: PathArg, find: Finder)
    requires root.Group? && FinderSound(find)
    ensures var r := Resolve(root, legendName, current, fallback, defaultGroup, find);
            && (r.1 == Failure(AssertionError) <==> legendName.None?)
            && (r.1 == Failure(ValueError) <==> legendName == Some("") && current.None?)
            && (r.1.Failure? ==> r.0 == root)
            && (legendName == Some("") && current.Some? ==> r == (root, Success(Existing(current.value))))
  {
  }

  /** A name with several components: the tree is the one `get_path` leaves
      for the leading components; the result is the first direct layer child
      of that group named by the last component, and a new layer exactly when
      there is none. */
  lemma ResolvePath(root: Node, legendName: string, current: Option<Node>, fallback: seq<Option<Node>>,
                    defaultGroup: PathArg, find: Finder)
    requires root.Group? && FinderSound(find)
    requires |Components(legendName)| > 1
    ensures var path := Components(legendName);
            var name := path[|path| - 1];
            var w := Walk(root, [], path[..|path| - 1], find);
            var group := Get(w.0, w.1).value;
            var r := Resolve(root, Some(legendName), current, fallback, defaultGroup, find);
            && r.0 == w.0 && r.1.Success?
            && group.Group? && group.name == path[|path| - 2]
            && (r.1.value.Existing? ==>
                  r.1.value.node in Kids(group) && r.1.value.node.Layer? && r.1.value.node.name == name)
            && (IsNew(r.1.value) <==> forall c :: c in Kids(group) ==> !(c.Layer? && c.name == name))
            && (IsNew(r.1.value) ==> r.1.value == Created(Some(w.1), name))
  {
    var path := Components(legendName);
    var w := Walk(root, [], path[..|path| - 1], find);
    var group := Get(w.0, w.1).value;
    var name := path[|path| - 1];
    assert path[..|path| - 1][|path| - 2] == path[|path| - 2];
    var found := LocateOwnLayer(name, group);
    if found.None? {
      forall c | c in Kids(group) ensures !(c.Layer? && c.name == name) {
        var j :| 0 <= j < |Kids(group)| && Kids(group)[j] == c;
      }
    }
  }

  /** A name with at most one component is searched, unchanged, in the whole
      tree: the first layer node of that name, else the first fallback
      layer (AttributeError when `findLayer` gave None for it), else a new
      layer for the default group, or for `group=None` when that is falsy.
      The tree changes only when a default group is walked. */
  lemma ResolveSingle(root: Node, legendName: string, current: Option<Node>, fallback: seq<Option<Node>>,
                      defaultGroup: PathArg, find: Finder)
    requires root.Group? && FinderSound(find)
    requires |legendName| > 0 && |Components(legendName)| <= 1
    ensures var found := WithName(LayersOf(root), legendName);
            var r := Resolve(root, Some(legendName), current, fallback, defaultGroup, find);
            && (r.1.Failure? <==> |found| == 0 && |fallback| > 0 && fallback[0].None?)
            && (r.1.Failure? ==> r == (root, Failure(AttributeError)))
            && (|found| > 0 ==> r == (root, Success(Existing(found[0])))
                                && found[0].Layer? && found[0].name == legendName)
            && (|found| == 0 && |fallback| > 0 && fallback[0].Some? ==>
                  r == (root, Success(Existing(fallback[0].value))))
            && (r.1.Success? ==> (IsNew(r.1.value) <==> |found| == 0 && |fallback| == 0))
            && (r.1.Success? && IsNew(r.1.value) ==>
                  && r.1.value.name == legendName
                  && (r.1.value.group.None? <==> !Truthy(defaultGroup)))
            && (r.1.Success? && IsNew(r.1.value) && Truthy(defaultGroup) ==>
                  r.0 == Walk(root, [], PathParts(defaultGroup), find).0)
            && (!(r.1.Success? && IsNew(r.1.value) && Truthy(defaultGroup)) ==> r.0 == root)
  {
    var found := WithName(LayersOf(root), legendName);
    if |found| > 0 {
      assert found[0] in found;
      WithNameMembers(LayersOf(root), legendName);
      AllLayersAreDescendantLayers(root);
    }
  }

  /** As written, a new layer for a single name found nowhere, with no
      fallback layer and a falsy default group, goes to
      `add_layer_to_legend(layer, group=None)`, which raises AttributeError. */
  lemma AsWrittenTopLevelLayerFails(root: Node, legendName: string, current: Option<Node>,
                                    defaultGroup: PathArg, find: Finder)
    requires root.Group? && FinderSound(find)
    requires |legendName| > 0 && |Components(legendName)| <= 1
    requires |WithName(LayersOf(root), legendName)| == 0 && !Truthy(defaultGroup)
    ensures var r := Resolve(root, Some(legendName), current, [], defaultGroup, find);
            && r.1 == Success(Created(None, legendName))
            && TargetGroupAsWritten(r.1.value.group) == Failure(AttributeError)
  {
  }

  /** As documented, every new layer has a group of the resulting tree to
      go to: the top level when no group was chosen, else the group the
      path or the default group led to. */
  lemma NewLayerTargetIsGroup(root: Node, legendName: Option<string>, current: Option<Node>,
                              fallback: seq<Option<Node>>, defaultGroup: PathArg, find: Finder)
    requires root.Group? && FinderSound(find)
    ensures var r := Resolve(root, legendName, current, fallback, defaultGroup, find);
            r.1.Success? && r.1.value.Created? ==>
              && IsGroupAt(r.0, TargetGroup(r.1.value.group))
              && (r.1.value.group.None? ==> TargetGroup(r.1.value.group) == [] && r.0 == root)
  {
  }

  /** A QGIS project's layer tree, reduced to its root node. */
  class LegendTree {
    var root: Node

    constructor (root: Node)
      requires root.Group?
      ensures this.root == root
    {
      this.root := root;
    }

    /** `addGroup` on the group at `parent`. */
    method AddGroup(parent: seq<nat>, name: string) returns (added: seq<nat>)
      requires IsGroupAt(root, parent)
      modifies this
      ensures root == AddChild(old(root), parent, Group(name, []))
      ensures added == parent + [|Get(old(root), parent).value.children|]
    {
      added := parent + [|Get(root, parent).value.children|];
      root := AddChild(root, parent, Group(name, []));
    }

    /** `get_group(name, parent)`. */
    method GetGroup(name: string, parent: seq<nat>, find: Finder) returns (result: seq<nat>)
      requires IsGroupAt(root, parent) && FinderSound(find)
      modifies this
      ensures (root, result) == FoundOrAdded(old(root), parent, name, find)
    {
      var found := find(Get(root, parent).value, name);
      if found.Some? {
        result := parent + found.value;
      } else {
        result := AddGroup(parent, name);
      }
    }

    /** `get_path(path, parent)`: `parent` None means the root. */
    method GetPath(path: PathArg, parent: Option<seq<nat>>, find: Finder) returns (result: seq<nat>)
      requires IsGroupAt(root, if parent.None? then [] else parent.value) && FinderSound(find)
      modifies this
      ensures (root, result)
              == Walk(old(root), if parent.None? then [] else parent.value, PathParts(path), find)
    {
      result := if parent.None? then [] else parent.value;
      if path.NoPath? {
        return;
      }
      var parts := if path.PathString? then Split(path.s, '/') else path.parts;
      assert parts == PathParts(path);
      ghost var start := result;
      for i := 0 to |parts|
        invariant (root, result) == Walk(old(root), start, parts[..i], find)
        invariant IsGroupAt(root, result)
      {
        WalkStep(old(root), start, parts, i, find);
        result := GetGroup(parts[i], result, find);
      }
      assert parts[..|parts|] == parts;
    }

    /** `all_layers(parent)`: `parent` None means the root. */
    method AllLayers(parent: Option<seq<nat>>) returns (result: seq<Node>)
      requires Get(root, if parent.None? then [] else parent.value).Some?
      ensures result == LayersOf(Get(root, if parent.None? then [] else parent.value).value)
    {
      var grp := Get(root, if parent.None? then [] else parent.value).value;
      result := CollectLayers(grp, []);
    }

    /** `all_layers_with_name(name, parent)`: `parent` None means the root. */
    method AllLayersWithName(name: string, parent: Option<seq<nat>>) returns (result: seq<Node>)
      requires Get(root, if parent.None? then [] else parent.value).Some?
      ensures result == WithName(LayersOf(Get(root, if parent.None? then [] else parent.value).value), name)
    {
      var grp := Get(root, if parent.None? then [] else parent.value).value;
      result := CollectLayersNamed(grp, name, []);
      NamedLayersAreFiltered(grp, name, |Kids(grp)|);
    }

    /** The lookup and name handling of `get_layer`. */
    method GetLayer(legendName: Option<string>, current: Option<Node>, fallback: seq<Option<Node>>,
                    defaultGroup: PathArg, find: Finder)
      returns (result: Result<LayerLookup, LegendError>)
      requires root.Group? && FinderSound(find)
      modifies this
      ensures (root, result) == Resolve(old(root), legendName, current, fallback, defaultGroup, find)
    {
      if legendName.None? {
        return Failure(AssertionError);
      }
      var legend := legendName.value;
      if |legend| == 0 {
        if current.None? {
          return Failure(ValueError);
        }
        return Success(Existing(current.value));
      }
      if |Components(legend)| > 1 {
        result := GetLayerInPath(legend, current, fallback, defaultGroup, find);
      } else {
        result := GetLayerByName(legend, current, fallback, defaultGroup, find);
      }
    }

    /** `get_layer` for a name with several components: the last one is
        looked up among the direct children of the group the others name. */
    method GetLayerInPath(legendName: string, ghost current: Option<Node>, ghost fallback: seq<Option<Node>>,
                          ghost defaultGroup: PathArg, find: Finder)
      returns (result: Result<LayerLookup, LegendError>)
      requires root.Group? && FinderSound(find)
      requires |Components(legendName)| > 1
      modifies this
      ensures (root, result) == Resolve(old(root), Some(legendName), current, fallback, defaultGroup, find)
    {
      var path := Components(legendName);
      var legend := path[|path| - 1];
      ghost var w := Walk(root, [], path[..|path| - 1], find);
      var g := GetPath(PathList(path[..|path| - 1]), None, find);
      assert root == w.0 && g == w.1;
      var group := Get(root, g).value;
      var own := LocateOwnLayer(legend, group);
      var layers := if own.Some? then [Kids(group)[own.value]] else [];
      if |layers| == 0 {
        result := Success(Created(Some(g), legend));
      } else {
        result := Success(Existing(layers[0]));
      }
    }

    /** `get_layer` for a single name: searched in the whole tree, then
        among the map layers of that name, else a new layer for the default
        group. */
    method GetLayerByName(legend: string, ghost current: Option<Node>, fallback: seq<Option<Node>>,
                          defaultGroup: PathArg, find: Finder)
      returns (result: Result<LayerLookup, LegendError>)
      requires root.Group? && FinderSound(find)
      requires |legend| > 0 && |Components(legend)| <= 1
      modifies this
      ensures (root, result) == Resolve(old(root), Some(legend), current, fallback, defaultGroup, find)
    {
      var named := AllLayersWithName(legend, None);
      var layers := seq(|named|, i requires 0 <= i < |named| => Some(named[i]));
      if |layers| == 0 {
        layers := fallback;
      }
      var group: Option<seq<nat>> := None;
      if |layers| == 0 {
        if Truthy(defaultGroup) {
          var g := GetPath(defaultGroup, None, find);
          group := Some(g);
        }
        result := Success(Created(group, legend));
      } else {
        var mapLayer := layers[0];
        if mapLayer.None? {
          // `map_layer.layer()` on None
          return Failure(AttributeError);
        }
        result := Success(Existing(mapLayer.value));
      }
    }
  }
}
