/**
 The round trip of CommandRoundTrip: which commands can be invoked through the
 tree their script is nested into, and which command an invocation selects.
 */
module CommandLeaves {
  import opened Common
  import opened CommandMerge
  import opened CommandRoundTrip

  // ----- leaves of a tree and their invocation -----

  datatype Path = Direct(i: nat) | InGroup(i: nat, j: nat) | InSubGroup(i: nat, j: nat, k: nat)

  ghost predicate AllPlain(s: seq<Opt>) {
    forall i :: 0 <= i < |s| ==> s[i].kind.Plain?
  }

  /** A leaf is what a user can invoke. */
  ghost predicate ValidLeaf(tree: seq<Command>, p: Path) {
    p.i < |tree| &&
    match p
    case Direct(i) => AllPlain(tree[i].options)
    case InGroup(i, j) => j < |tree[i].options| && tree[i].options[j].kind.SubCommand?
    case InSubGroup(i, j, k) =>
      && j < |tree[i].options| && tree[i].options[j].kind.SubCommandGroup?
      && k < |Leaves(tree[i].options[j])| && Leaves(tree[i].options[j])[k].kind.SubCommand?
  }

  function PlainPart(s: seq<Opt>): seq<Opt> {
    if s == [] then [] else (if s[0].kind.Plain? then [s[0]] else []) + PlainPart(s[1..])
  }

  lemma {:induction false} PlainPartAppend(s: seq<Opt>, o: Opt)
    requires !o.kind.Plain?
    ensures PlainPart(s + [o]) == PlainPart(s)
  {
    if s != [] {
      assert (s + [o])[1..] == s[1..] + [o];
      PlainPartAppend(s[1..], o);
    }
  }

  lemma {:induction false} AllPlainPart(s: seq<Opt>)
    requires AllPlain(s)
    ensures PlainPart(s) == s
  {
    if s != [] {
      AllPlainPart(s[1..]);
    }
  }

  /** The names on the way to a leaf, its description, the options a user can give, and
      whether it is a chat command. */
  datatype Info = Info(key: Key, text: string, options: seq<Opt>, chat: bool)

  ghost function LeafInfo(tree: seq<Command>, p: Path): Info
    requires ValidLeaf(tree, p)
  {
    var c := tree[p.i];
    match p
    case Direct(_) => Info(Key(c.name, None, None), c.description, PlainPart(c.options), c.rest == 0)
    case InGroup(_, j) =>
      var l := c.options[j];
      Info(Key(l.name, Some(c.name), None), l.description, PlainPart(Leaves(l)), true)
    case InSubGroup(_, j, k) =>
      var l := Leaves(c.options[j])[k];
      Info(Key(l.name, Some(c.options[j].name), Some(c.name)), l.description, PlainPart(Leaves(l)), true)
  }

  /** The options Discord sends when leaf `p` is invoked with `args`. */
  ghost function Invocation(tree: seq<Command>, p: Path, args: seq<Arg>): seq<Arg>
    requires ValidLeaf(tree, p)
  {
    match p
    case Direct(_) => args
    case InGroup(i, j) => [Arg(tree[i].options[j].name, SubCommandValue(args))]
    case InSubGroup(i, j, k) =>
      [Arg(tree[i].options[j].name, SubCommandGroupValue([Arg(Leaves(tree[i].options[j])[k].name,
          SubCommandValue(args))]))]
  }

  ghost predicate Scalars(args: seq<Arg>) {
    forall i :: 0 <= i < |args| ==> args[i].value.Scalar?
  }

  lemma {:induction false} FlattenScalars(f: Flat, args: seq<Arg>)
    requires Scalars(args)
    ensures FlattenFrom(f, args) == Some(f.(options := f.options + args))
    decreases |args|
  {
    if args == [] {
      assert f.options + args == f.options;
    } else {
      FlattenScalars(f.(options := f.options + [args[0]]), args[1..]);
      assert f.options + [args[0]] + args[1..] == f.options + args;
    }
  }

  /** Flattening an invocation recovers the names on its path and the arguments. */
  lemma {:induction false} FlattenInvocation(tree: seq<Command>, p: Path, args: seq<Arg>)
    requires ValidLeaf(tree, p) && Scalars(args)
    ensures var k := LeafInfo(tree, p).key;
      FlattenFrom(Flat(tree[p.i].name, None, None, []), Invocation(tree, p, args))
        == Some(Flat(k.name, k.parentName, k.parentParentName, args))
  {
    var f := Flat(tree[p.i].name, None, None, []);
    var o := Invocation(tree, p, args);
    assert [] + args == args;
    if p.Direct? {
      FlattenScalars(f, args);
    } else {
      assert o[1..] == [];
      assert FlattenFrom(f, o) == FlattenOne(f, o[0]);
    }
  }

  /** The registered command an invocation of `p` runs. */
  ghost function Chosen(cs: seq<Registered>, tree: seq<Command>, p: Path, args: seq<Arg>): Option<nat>
    requires ValidLeaf(tree, p)
  {
    var f := FlattenFrom(Flat(tree[p.i].name, None, None, []), Invocation(tree, p, args));
    if f.Some? && Select(cs, f.value) < |cs| then Some(Select(cs, f.value)) else None
  }

  ghost function BoundInfo(c: Bound): Info {
    var plain := PlainPart(c.options);
    if c.group.None? then Info(Key(c.name, None, None), if c.chat then c.description else "", plain, c.chat)
    else if c.subGroup.None? then Info(Key(c.name, c.group, None), c.description, plain, true)
    else Info(Key(c.name, c.subGroup, c.group), c.description, plain, true)
  }

  ghost predicate Registry(cs: seq<Registered>) {
    && DistinctKeys(cs)
    && forall i :: 0 <= i < |cs| ==> WellNamed(cs[i]) && AllPlain(cs[i].options)
  }

  lemma {:induction false} ChosenByKey(cs: seq<Registered>, tree: seq<Command>, p: Path, args: seq<Arg>, j: nat)
    requires Registry(cs) && ValidLeaf(tree, p) && Scalars(args) && j < |cs|
    requires LeafInfo(tree, p).key == KeyOf(cs[j])
    ensures Chosen(cs, tree, p, args) == Some(j)
  {
    FlattenInvocation(tree, p, args);
    var k := LeafInfo(tree, p).key;
    var f := Flat(k.name, k.parentName, k.parentParentName, args);
    var s := Select(cs, f);
    MatchIsKeyEquality(cs[j], cs[j]);
    assert MatchesCommand(cs[j], f.name, f.parentName, f.parentParentName);
    MatchIsKeyEquality(cs[s], cs[j]);
  }

  // ----- what placing one command does to the leaves -----

  ghost predicate Nested(nodes: seq<Command>) {
    forall i, j :: 0 <= i < |nodes| && 0 <= j < |nodes[i].options| ==> !nodes[i].options[j].kind.Plain?
  }

  ghost function KindAt(nodes: seq<Command>, g: string, x: string): Option<Kind> {
    var i := FindCommand(nodes, g);
    if i == |nodes| then None
    else
      var j := Find(nodes[i].options, x);
      if j < |nodes[i].options| then Some(nodes[i].options[j].kind) else None
  }

  /** What `c` puts under name `x` in group `g` when nothing is there. */
  function Use(c: Bound, g: string, x: string): Option<Kind> {
    if c.group != Some(g) then None
    else if c.subGroup.None? then (if c.name == x then Some(SubCommand) else None)
    else if c.subGroup == Some(x) then Some(SubCommandGroup) else None
  }

  lemma {:induction false} FindGrown(a: seq<Opt>, b: seq<Opt>, name: string)
    requires |b| == |a| || |b| == |a| + 1
    requires forall i :: 0 <= i < |a| ==> a[i].name == b[i].name
    ensures Find(a, name) < |a| ==> Find(b, name) == Find(a, name)
    ensures Find(a, name) == |a| && |b| == |a| + 1 && b[|a|].name == name ==> Find(b, name) == |a|
    ensures Find(a, name) == |a| && !(|b| == |a| + 1 && b[|a|].name == name) ==> Find(b, name) == |b|
  {}

  lemma {:induction false} FindNodeGrown(a: seq<Command>, b: seq<Command>, name: string)
    requires |b| == |a| || |b| == |a| + 1
    requires forall i :: 0 <= i < |a| ==> a[i].name == b[i].name
    ensures FindCommand(a, name) < |a| ==> FindCommand(b, name) == FindCommand(a, name)
    ensures FindCommand(a, name) == |a| && |b| == |a| + 1 && b[|a|].name == name ==> FindCommand(b, name) == |a|
    ensures FindCommand(a, name) == |a| && !(|b| == |a| + 1 && b[|a|].name == name) ==> FindCommand(b, name) == |b|
  {}

  ghost predicate OptionKept(a: Opt, b: Opt) {
    && a.name == b.name && a.kind == b.kind && a.description == b.description
    && Leaves(a) <= Leaves(b) && PlainPart(Leaves(a)) == PlainPart(Leaves(b))
  }

  /** Options keep their place, name, kind and description. */
  lemma {:induction false} PlaceOptionShape(opts: seq<Opt>, c: Bound)
    ensures |PlaceOption(opts, c)| == |opts| || |PlaceOption(opts, c)| == |opts| + 1
    ensures forall i :: 0 <= i < |opts| ==> OptionKept(opts[i], PlaceOption(opts, c)[i])
  {
    if c.subGroup.Some? && Find(opts, c.subGroup.value) < |opts| {
      PlainPartAppend(Leaves(opts[Find(opts, c.subGroup.value)]), AsOption(c));
    }
    hide PlainPart, Find;
  }

  ghost function OptionsOf(nodes: seq<Command>, i: nat): seq<Opt> {
    if i < |nodes| then nodes[i].options else []
  }

  /** Placing touches the options of one node, the first of its group. */
  lemma {:induction false} PlaceShape(nodes: seq<Command>, c: Bound)
    requires c.group.Some?
    ensures var r, at := Place(nodes, c), FindCommand(nodes, c.group.value);
      && |r| == (if at < |nodes| then |nodes| else |nodes| + 1)
      && (forall i :: 0 <= i < |nodes| ==> r[i].name == nodes[i].name && r[i].description == nodes[i].description)
      && (forall i :: 0 <= i < |nodes| && i != at ==> r[i] == nodes[i])
      && r[at].name == c.group.value
      && r[at].options == PlaceOption(OptionsOf(nodes, at), c)
  {}

  lemma {:induction false} PlaceNested(nodes: seq<Command>, c: Bound)
    requires Nested(nodes)
    ensures Nested(Place(nodes, c))
  {}

  lemma {:induction false} PlaceKind(nodes: seq<Command>, c: Bound, g: string, x: string)
    ensures KindAt(Place(nodes, c), g, x) == if KindAt(nodes, g, x).Some? then KindAt(nodes, g, x) else Use(c, g, x)
  {
    if c.group.Some? {
      var r, at := Place(nodes, c), FindCommand(nodes, c.group.value);
      PlaceShape(nodes, c);
      FindNodeGrown(nodes, r, g);
      if c.group.value == g {
        assert FindCommand(r, g) == at;
        PlaceOptionShape(OptionsOf(nodes, at), c);
        hide Place;
        FindGrown(OptionsOf(nodes, at), r[at].options, x);
      }
    }
  }

  /** Leaves stay where they are. */
  lemma {:induction false} PlaceKeepsLeaf(nodes: seq<Command>, c: Bound, p: Path)
    requires ValidLeaf(nodes, p) && !p.Direct?
    ensures ValidLeaf(Place(nodes, c), p) && LeafInfo(Place(nodes, c), p) == LeafInfo(nodes, p)
  {
    if c.group.Some? {
      var at := FindCommand(nodes, c.group.value);
      PlaceShape(nodes, c);
      PlaceOptionShape(OptionsOf(nodes, at), c);
    }
  }

  /** The only new leaf is the placed command, and a plain command sitting where
      its subgroup should be leaves none. */
  lemma {:induction false} PlaceAddsLeaf(nodes: seq<Command>, c: Bound, p: Path)
    requires ValidLeaf(Place(nodes, c), p) && !p.Direct?
    ensures (ValidLeaf(nodes, p) && LeafInfo(nodes, p) == LeafInfo(Place(nodes, c), p))
      || (&& c.group.Some? && LeafInfo(Place(nodes, c), p) == BoundInfo(c)
          && (c.subGroup.Some? ==> KindAt(nodes, c.group.value, c.subGroup.value) != Some(SubCommand)))
  {
    if c.group.Some? {
      var r, at := Place(nodes, c), FindCommand(nodes, c.group.value);
      PlaceShape(nodes, c);
      PlaceOptionShape(OptionsOf(nodes, at), c);
      if p.i == at {
        NewLeaf(OptionsOf(nodes, at), c, p);
      }
    }
  }

  /** Leaves of a single option list, as PlaceAddsLeaf needs them. */
  lemma {:induction false} NewLeaf(opts: seq<Opt>, c: Bound, p: Path)
    requires !p.Direct? && p.j < |PlaceOption(opts, c)|
    ensures var o := PlaceOption(opts, c)[p.j];
      && (p.InGroup? && p.j == |opts| && o.kind.SubCommand? ==> c.subGroup.None? && o == AsOption(c))
      && (p.InSubGroup? && o.kind.SubCommandGroup? && p.k < |Leaves(o)| ==>
            || (p.j < |opts| && p.k < |Leaves(opts[p.j])| && Leaves(o)[p.k] == Leaves(opts[p.j])[p.k])
            || (&& c.subGroup == Some(o.name) && Leaves(o)[p.k] == AsOption(c)
                && (Find(opts, o.name) < |opts| ==> opts[Find(opts, o.name)].kind.SubCommandGroup?)))
  {
    if p.j == |opts| {
      if c.subGroup.Some? {
        assert Leaves(PlaceOption(opts, c)[p.j]) == [AsOption(c)];
      }
    }
  }

  /** Unless a plain command blocks its subgroup, the placed command is a leaf. */
  lemma {:induction false} PlacedIsLeaf(nodes: seq<Command>, c: Bound) returns (p: Path)
    requires Nested(nodes) && c.group.Some?
    requires c.subGroup.Some? ==> KindAt(nodes, c.group.value, c.subGroup.value) != Some(SubCommand)
    ensures !p.Direct? && ValidLeaf(Place(nodes, c), p) && LeafInfo(Place(nodes, c), p) == BoundInfo(c)
  {
    var at := FindCommand(nodes, c.group.value);
    PlaceShape(nodes, c);
    var opts := OptionsOf(nodes, at);
    var r := Place(nodes, c);
    if c.subGroup.None? {
      p := InGroup(at, |opts|);
    } else {
      var j := Find(opts, c.subGroup.value);
      PlaceOptionShape(opts, c);
      if j < |opts| {
        assert !opts[j].kind.Plain?;
        assert Leaves(r[at].options[j]) == Leaves(opts[j]) + [AsOption(c)];
        p := InSubGroup(at, j, |Leaves(opts[j])|);
      } else {
        assert Leaves(r[at].options[j]) == [AsOption(c)];
        p := InSubGroup(at, j, 0);
      }
    }
  }

  // ----- the whole nesting -----

  ghost predicate Declared(groups: seq<CommandGroup>, g: string, x: string) {
    var i := FindGroup(groups, g);
    i < |groups| && HasSubGroup(groups[i].subGroups, x)
  }

  lemma {:induction false} DeclaredFind(s: seq<SubGroup>, x: string)
    ensures Find(EmptySubGroups(s), x) < |s| <==> HasSubGroup(s, x)
  {
    var r := EmptySubGroups(s);
    hide EmptySubGroups, Find;
    if HasSubGroup(s, x) {
      var k :| 0 <= k < |s| && s[k].name == x;
      assert r[k].name == x;
    }
  }

  lemma {:induction false} SameGroupIndex(groups: seq<CommandGroup>, g: string)
    ensures FindCommand(GroupNodes(groups), g) == FindGroup(groups, g)
  {
    var nodes := GroupNodes(groups);
    var i, j := FindGroup(groups, g), FindCommand(nodes, g);
    hide GroupNodes, FindGroup, FindCommand;
    assert forall k :: 0 <= k < i ==> nodes[k].name != g;
    assert forall k :: 0 <= k < j ==> groups[k].name != g;
  }

  lemma {:induction false} GroupNodesNested(groups: seq<CommandGroup>)
    ensures Nested(GroupNodes(groups))
  {
    hide GroupNodes, EmptySubGroups;
  }

  lemma {:induction false} DeclaredKind(groups: seq<CommandGroup>, g: string, x: string)
    ensures KindAt(GroupNodes(groups), g, x) == if Declared(groups, g, x) then Some(SubCommandGroup) else None
  {
    SameGroupIndex(groups, g);
    hide GroupNodes, EmptySubGroups, Find, FindGroup, FindCommand, HasSubGroup;
    var i := FindGroup(groups, g);
    if i < |groups| {
      DeclaredFind(groups[i].subGroups, x);
    }
  }

  /** The node carries a group's name and description, and first its declared subgroups,
      each with its own. */
  ghost predicate Shows(node: Command, g: CommandGroup) {
    && node.name == g.name && node.description == g.description && |g.subGroups| <= |node.options|
    && forall j :: 0 <= j < |g.subGroups| ==>
         && node.options[j].name == g.subGroups[j].name && node.options[j].description == g.subGroups[j].description
         && node.options[j].kind.SubCommandGroup?
  }

  lemma {:induction false} StillShown(nodes: seq<Command>, c: Bound, i: nat, g: CommandGroup)
    requires i < |nodes| && Shows(nodes[i], g)
    ensures i < |Place(nodes, c)| && Shows(Place(nodes, c)[i], g)
  {
    if c.group.Some? {
      PlaceShape(nodes, c);
      PlaceOptionShape(OptionsOf(nodes, FindCommand(nodes, c.group.value)), c);
      hide Place, PlaceOption, FindCommand, PlainPart;
    }
  }

  /** Every declared group has its node, with its texts, in its place. */
  lemma {:induction false} GroupsShown(groups: seq<CommandGroup>, cs: seq<Bound>, n: nat)
    requires n <= |cs|
    ensures |groups| <= |Nodes(groups, cs, n)|
    ensures forall i :: 0 <= i < |groups| ==> Shows(Nodes(groups, cs, n)[i], groups[i])
  {
    if n == 0 {
      hide GroupNodes, EmptySubGroups;
    } else {
      GroupsShown(groups, cs, n - 1);
      forall i | 0 <= i < |groups|
        ensures i < |Nodes(groups, cs, n)| && Shows(Nodes(groups, cs, n)[i], groups[i])
      {
        StillShown(Nodes(groups, cs, n - 1), cs[n - 1], i, groups[i]);
      }
      hide Shows, Place;
    }
  }

  /** `x` was first used in group `g` by command `m`. */
  ghost predicate FirstUse(cs: seq<Bound>, g: string, x: string, m: nat) {
    m < |cs| && Use(cs[m], g, x).Some? && forall k :: 0 <= k < m ==> Use(cs[k], g, x).None?
  }

  lemma {:induction false} KindIsFirstUse(groups: seq<CommandGroup>, cs: seq<Bound>, n: nat, g: string, x: string)
    requires n <= |cs|
    ensures KindAt(Nodes(groups, cs, n), g, x).None? <==> !Declared(groups, g, x) && forall k :: 0 <= k < n ==>
          Use(cs[k], g, x).None?
    ensures KindAt(Nodes(groups, cs, n), g, x) == Some(SubCommand)
      <==> !Declared(groups, g, x) && exists m ::
        0 <= m < n && FirstUse(cs, g, x, m) && Use(cs[m], g, x) == Some(SubCommand)
  {
    hide KindAt, Declared;
    if n == 0 {
      DeclaredKind(groups, g, x);
    } else {
      KindIsFirstUse(groups, cs, n - 1, g, x);
      PlaceKind(Nodes(groups, cs, n - 1), cs[n - 1], g, x);
      if KindAt(Nodes(groups, cs, n - 1), g, x).None? && Use(cs[n - 1], g, x).Some? {
        assert FirstUse(cs, g, x, n - 1);
      }
    }
  }

  lemma {:induction false} NodesNested(groups: seq<CommandGroup>, cs: seq<Bound>, n: nat)
    requires n <= |cs|
    ensures Nested(Nodes(groups, cs, n))
  {
    if n == 0 {
      GroupNodesNested(groups);
    } else {
      NodesNested(groups, cs, n - 1);
      PlaceNested(Nodes(groups, cs, n - 1), cs[n - 1]);
    }
  }

  /** Every leaf is some command's, and its subgroup is the first of its name. */
  lemma {:induction false} LeafOrigin(groups: seq<CommandGroup>, cs: seq<Bound>, n: nat, p: Path) returns (m: nat)
    requires n <= |cs| && ValidLeaf(Nodes(groups, cs, n), p) && !p.Direct?
    ensures m < n && cs[m].group.Some? && LeafInfo(Nodes(groups, cs, n), p) == BoundInfo(cs[m])
    ensures cs[m].subGroup.Some? ==>
          KindAt(Nodes(groups, cs, n), cs[m].group.value, cs[m].subGroup.value) == Some(SubCommandGroup)
  {
    if n == 0 {
      assert false;
    } else {
      var nodes, c := Nodes(groups, cs, n - 1), cs[n - 1];
      PlaceAddsLeaf(nodes, c, p);
      hide ValidLeaf, LeafInfo, KindAt, Place, BoundInfo, Use;
      if ValidLeaf(nodes, p) && LeafInfo(nodes, p) == LeafInfo(Place(nodes, c), p) {
        m := LeafOrigin(groups, cs, n - 1, p);
      } else {
        m := n - 1;
      }
      if cs[m].subGroup.Some? {
        NodesNested(groups, cs, n - 1);
        KindStays(nodes, c, cs[m], m == n - 1);
      }
    }
  }

  lemma {:induction false} KindStays(nodes: seq<Command>, c: Bound, d: Bound, placed: bool)
    requires Nested(nodes) && d.group.Some? && d.subGroup.Some?
    requires if placed then c == d && KindAt(nodes, d.group.value, d.subGroup.value) != Some(SubCommand)
             else KindAt(nodes, d.group.value, d.subGroup.value) == Some(SubCommandGroup)
    ensures KindAt(Place(nodes, c), d.group.value, d.subGroup.value) == Some(SubCommandGroup)
  {
    PlaceKind(nodes, c, d.group.value, d.subGroup.value);
  }

  lemma {:induction false} LeafStays(groups: seq<CommandGroup>, cs: seq<Bound>, m: nat, n: nat, p: Path)
    requires m <= n <= |cs| && ValidLeaf(Nodes(groups, cs, m), p) && !p.Direct?
    ensures ValidLeaf(Nodes(groups, cs, n), p) && LeafInfo(Nodes(groups, cs, n), p) == LeafInfo(Nodes(groups, cs, m), p)
  {
    if m < n {
      LeafStays(groups, cs, m, n - 1, p);
      PlaceKeepsLeaf(Nodes(groups, cs, n - 1), cs[n - 1], p);
    }
  }

  /** Command `j` names a subgroup that is not declared and whose name an earlier
      plain command of the group took before any subgroup did. */
  ghost predicate Shadowed(groups: seq<CommandGroup>, cs: seq<Bound>, j: nat)
    requires j < |cs|
  {
    cs[j].group.Some? && cs[j].subGroup.Some? &&
    var g, x := cs[j].group.value, cs[j].subGroup.value;
    !Declared(groups, g, x) && exists m :: 0 <= m < j && FirstUse(cs, g, x, m) && cs[m].subGroup.None?
  }

  lemma {:induction false} ShadowedKind(groups: seq<CommandGroup>, cs: seq<Bound>, j: nat)
    requires j < |cs| && cs[j].group.Some? && cs[j].subGroup.Some?
    ensures Shadowed(groups, cs, j) <==>
      KindAt(Nodes(groups, cs, j), cs[j].group.value, cs[j].subGroup.value) == Some(SubCommand)
  {
    var g, x := cs[j].group.value, cs[j].subGroup.value;
    KindIsFirstUse(groups, cs, j, g, x);
    assert forall m :: 0 <= m < j && FirstUse(cs, g, x, m) ==>
      (cs[m].subGroup.None? <==> Use(cs[m], g, x) == Some(SubCommand));
  }

  lemma {:induction false} BlockedStays(groups: seq<CommandGroup>, cs: seq<Bound>, m: nat, n: nat, g: string, x: string)
    requires m <= n <= |cs| && KindAt(Nodes(groups, cs, m), g, x) == Some(SubCommand)
    ensures KindAt(Nodes(groups, cs, n), g, x) == Some(SubCommand)
  {
    if m < n {
      BlockedStays(groups, cs, m, n - 1, g, x);
      PlaceKind(Nodes(groups, cs, n - 1), cs[n - 1], g, x);
    }
  }

  lemma {:induction false} GroupedHasLeaf(groups: seq<CommandGroup>, cs: seq<Bound>, j: nat) returns (p: Path)
    requires j < |cs| && cs[j].group.Some? && !Shadowed(groups, cs, j)
    ensures !p.Direct? && ValidLeaf(Nodes(groups, cs, |cs|), p)
          && LeafInfo(Nodes(groups, cs, |cs|), p) == BoundInfo(cs[j])
  {
    hide Place, KindAt, Shadowed;
    NodesNested(groups, cs, j);
    if cs[j].subGroup.Some? { ShadowedKind(groups, cs, j); }
    p := PlacedIsLeaf(Nodes(groups, cs, j), cs[j]);
    LeafStays(groups, cs, j + 1, |cs|, p);
  }

  // ----- top level commands -----

  lemma {:induction false} TopOrigin(cs: seq<Bound>, i: nat) returns (m: nat)
    requires i < |TopLevel(cs)|
    ensures m < |cs| && cs[m].group.None? && TopLevel(cs)[i] == AsCommand(cs[m])
    decreases |cs|
  {
    if i < |TopLevel(cs[..|cs| - 1])| {
      m := TopOrigin(cs[..|cs| - 1], i);
    } else {
      m := |cs| - 1;
    }
  }

  lemma {:induction false} TopHas(cs: seq<Bound>, m: nat) returns (i: nat)
    requires m < |cs| && cs[m].group.None?
    ensures i < |TopLevel(cs)| && TopLevel(cs)[i] == AsCommand(cs[m])
    decreases |cs|
  {
    if m == |cs| - 1 {
      i := |TopLevel(cs[..|cs| - 1])|;
    } else {
      i := TopHas(cs[..|cs| - 1], m);
    }
  }

  function Shift(p: Path, n: nat): Path { p.(i := p.i + n) }

  function Unshift(p: Path, n: nat): Path
    requires n <= p.i
  {
    p.(i := p.i - n)
  }

  lemma {:induction false} ShiftLeaf(a: seq<Command>, b: seq<Command>, p: Path)
    ensures ValidLeaf(a + b, Shift(p, |a|)) <==> ValidLeaf(b, p)
    ensures ValidLeaf(b, p) ==> LeafInfo(a + b, Shift(p, |a|)) == LeafInfo(b, p)
  {}

  lemma {:induction false} BoundKey(c: Registered)
    ensures BoundInfo(Bind(c)).key == KeyOf(c) && BoundInfo(Bind(c)).options == PlainPart(c.options)
  {}

  // ----- the theorems -----

  function Tree(groups: seq<CommandGroup>, cs: seq<Registered>): seq<Command> {
    Nest(groups, BindAll(cs))
  }

  /** `p` is a leaf, but not a group that no command belongs to. */
  ghost predicate CommandLeaf(groups: seq<CommandGroup>, cs: seq<Registered>, p: Path) {
    ValidLeaf(Tree(groups, cs), p) && (p.Direct? ==> p.i < |TopLevel(BindAll(cs))|)
  }

  lemma {:induction false} TopLeafInfo(groups: seq<CommandGroup>, cs: seq<Registered>, p: Path) returns (j: nat)
    requires CommandLeaf(groups, cs, p) && p.i < |TopLevel(BindAll(cs))|
    requires forall i :: 0 <= i < |cs| ==> AllPlain(cs[i].options)
    ensures j < |cs| && LeafInfo(Tree(groups, cs), p) == BoundInfo(Bind(cs[j]))
  {
    var bs := BindAll(cs);
    TopLeafIsDirect(groups, cs, p);
    j := TopOrigin(bs, p.i);
    assert Tree(groups, cs)[p.i] == TopLevel(bs)[p.i];
  }

  lemma {:induction false} NodeLeafInfo(groups: seq<CommandGroup>, cs: seq<Registered>, p: Path) returns (j: nat)
    requires CommandLeaf(groups, cs, p) && p.i >= |TopLevel(BindAll(cs))|
    ensures j < |cs| && LeafInfo(Tree(groups, cs), p) == BoundInfo(Bind(cs[j]))
  {
    var bs := BindAll(cs);
    var top, nodes := TopLevel(bs), Nodes(groups, bs, |bs|);
    var q := Unshift(p, |top|);
    assert Shift(q, |top|) == p;
    ShiftLeaf(top, nodes, q);
    hide ValidLeaf, LeafInfo, BoundInfo, KindAt;
    j := LeafOrigin(groups, bs, |bs|, q);
  }

  /** Whatever leaf is invoked, the arguments reach exactly one command, the one
      whose names, description and options the leaf carries. */
  lemma {:induction false} InvokedLeafSelectsItsCommand(groups: seq<CommandGroup>, cs: seq<Registered>, p: Path,
      args: seq<Arg>) returns (j: nat)
    requires Registry(cs) && CommandLeaf(groups, cs, p) && Scalars(args)
    ensures j < |cs| && Chosen(cs, Tree(groups, cs), p, args) == Some(j)
    ensures LeafInfo(Tree(groups, cs), p) == BoundInfo(Bind(cs[j]))
    ensures LeafInfo(Tree(groups, cs), p).options == cs[j].options
  {
    hide ValidLeaf, LeafInfo, BoundInfo, Chosen, Bind, KeyOf, PlainPart;
    if p.i < |TopLevel(BindAll(cs))| {
      j := TopLeafInfo(groups, cs, p);
    } else {
      j := NodeLeafInfo(groups, cs, p);
    }
    BoundKey(cs[j]);
    AllPlainPart(cs[j].options);
    ChosenByKey(cs, Tree(groups, cs), p, args, j);
  }

  /** Some leaf selects command `j`. */
  ghost predicate Invocable(groups: seq<CommandGroup>, cs: seq<Registered>, j: nat, args: seq<Arg>) {
    exists p :: CommandLeaf(groups, cs, p) && Chosen(cs, Tree(groups, cs), p, args) == Some(j)
  }

  /** A command can be invoked exactly when no plain command shadows its subgroup. */
  lemma {:induction false} InvocableExactly(groups: seq<CommandGroup>, cs: seq<Registered>, j: nat, args: seq<Arg>)
    requires Registry(cs) && j < |cs| && Scalars(args)
    ensures Invocable(groups, cs, j, args) <==> !Shadowed(groups, BindAll(cs), j)
  {
    if Shadowed(groups, BindAll(cs), j) {
      forall p | CommandLeaf(groups, cs, p) ensures Chosen(cs, Tree(groups, cs), p, args) != Some(j) {
        var k := InvokedLeafSelectsItsCommand(groups, cs, p, args);
        if k == j { ShadowedHasNoLeaf(groups, cs, j, p); }
      }
    } else {
      var p := HasLeaf(groups, cs, j);
      var k := InvokedLeafSelectsItsCommand(groups, cs, p, args);
      BoundKey(cs[j]);
      BoundKey(cs[k]);
    }
  }

  lemma {:induction false} TopLeafHasNoGroup(groups: seq<CommandGroup>, cs: seq<Registered>, c: Bound, p: Path)
    requires CommandLeaf(groups, cs, p) && p.i < |TopLevel(BindAll(cs))| && c.group.Some?
    requires forall i :: 0 <= i < |cs| ==> AllPlain(cs[i].options)
    ensures LeafInfo(Tree(groups, cs), p) != BoundInfo(c)
  {
    TopLeafIsDirect(groups, cs, p);
  }

  lemma {:induction false} ShadowedHasNoNode(groups: seq<CommandGroup>, bs: seq<Bound>, j: nat, q: Path)
    requires j < |bs| && Shadowed(groups, bs, j) && ValidLeaf(Nodes(groups, bs, |bs|), q) && !q.Direct?
    ensures LeafInfo(Nodes(groups, bs, |bs|), q) != BoundInfo(bs[j])
  {
    ShadowedKind(groups, bs, j);
    BlockedStays(groups, bs, j, |bs|, bs[j].group.value, bs[j].subGroup.value);
    hide ValidLeaf, LeafInfo, BoundInfo, KindAt, Nodes, FirstUse, Declared;
    var m := LeafOrigin(groups, bs, |bs|, q);
    SameInfo(bs[m], bs[j]);
  }

  lemma {:induction false} ShadowedHasNoLeaf(groups: seq<CommandGroup>, cs: seq<Registered>, j: nat, p: Path)
    requires j < |cs| && Shadowed(groups, BindAll(cs), j) && CommandLeaf(groups, cs, p)
    requires forall i :: 0 <= i < |cs| ==> AllPlain(cs[i].options)
    ensures LeafInfo(Tree(groups, cs), p) != BoundInfo(Bind(cs[j]))
  {
    hide ValidLeaf, LeafInfo, BoundInfo, KindAt, Nodes, Bind, FirstUse, Declared, AllPlain;
    var bs := BindAll(cs);
    var top, nodes := TopLevel(bs), Nodes(groups, bs, |bs|);
    if p.i < |top| {
      TopLeafHasNoGroup(groups, cs, bs[j], p);
    } else {
      var q := Unshift(p, |top|);
      assert Shift(q, |top|) == p;
      ShiftLeaf(top, nodes, q);
      ShadowedHasNoNode(groups, bs, j, q);
    }
  }

  lemma {:induction false} TopLeafIsDirect(groups: seq<CommandGroup>, cs: seq<Registered>, p: Path)
    requires ValidLeaf(Tree(groups, cs), p) && forall i :: 0 <= i < |cs| ==> AllPlain(cs[i].options)
    ensures p.i < |TopLevel(BindAll(cs))| ==> p.Direct?
  {
    var bs := BindAll(cs);
    if p.i < |TopLevel(bs)| {
      var m := TopOrigin(bs, p.i);
      assert Tree(groups, cs)[p.i] == AsCommand(bs[m]) && AllPlain(cs[m].options);
    }
  }

  lemma {:induction false} SameInfo(a: Bound, b: Bound)
    requires a.group.Some? && b.group.Some?
    ensures BoundInfo(a) == BoundInfo(b) ==> a.group == b.group && a.subGroup == b.subGroup
  {}

  lemma {:induction false} HasLeaf(groups: seq<CommandGroup>, cs: seq<Registered>, j: nat) returns (p: Path)
    requires j < |cs| && AllPlain(cs[j].options) && !Shadowed(groups, BindAll(cs), j)
    ensures CommandLeaf(groups, cs, p) && LeafInfo(Tree(groups, cs), p) == BoundInfo(Bind(cs[j]))
  {
    var bs := BindAll(cs);
    var top, nodes := TopLevel(bs), Nodes(groups, bs, |bs|);
    if bs[j].group.None? {
      var i := TopHas(bs, j);
      assert Tree(groups, cs)[i] == top[i];
      p := Direct(i);
    } else {
      var q := GroupedHasLeaf(groups, bs, j);
      ShiftLeaf(top, nodes, q);
      p := Shift(q, |top|);
    }
  }

  /** Two registered commands, neither of which repeats the other's names, of
      which the second cannot be invoked when its subgroup is not declared. */
  lemma {:induction false} ShadowedCommandCannotBeInvoked(args: seq<Arg>)
    requires Scalars(args)
    ensures exists cs :: Registry(cs) && |cs| == 2 && Invocable([], cs, 0, args) && !Invocable([], cs, 1, args)
  {
    var g := Group("g", "", None);
    var a, b := Registered("x", "", true, [], Some(g)), Registered("y", "", true, [], Some(Group("x", "", Some(g))));
    var cs := [a, b];
    var bs := BindAll(cs);
    assert bs[0] == Bind(a) && bs[1] == Bind(b);
    assert KeyOf(a) != KeyOf(b) && Registry(cs);
    assert FirstUse(bs, "g", "x", 0);
    assert Shadowed([], bs, 1) && !Shadowed([], bs, 0);
    InvocableExactly([], cs, 0, args);
    InvocableExactly([], cs, 1, args);
  }

  // ----- groups collected by the script itself -----

  ghost predicate DistinctGroups(groups: seq<CommandGroup>) {
    forall i, j :: 0 <= i < j < |groups| ==> groups[i].name != groups[j].name
  }

  lemma {:induction false} CollectDeclares(groups: seq<CommandGroup>, c: Registered, g: string, x: string)
    requires Declared(groups, g, x) || (Bind(c).group == Some(g) && Bind(c).subGroup == Some(x))
    ensures Declared(Collect(groups, c), g, x)
  {
    var r := Collect(groups, c);
    var i := FindGroup(groups, g);
    FindGroupGrown(groups, r, g);
    if i < |groups| {
      if HasSubGroup(groups[i].subGroups, x) {
        var k :| 0 <= k < |groups[i].subGroups| && groups[i].subGroups[k].name == x;
        assert r[i].subGroups[k].name == x;
      } else {
        assert r[i].subGroups[|groups[i].subGroups|].name == x;
      }
    } else {
      assert r[i].subGroups[0].name == x;
    }
  }

  lemma {:induction false} FindGroupGrown(a: seq<CommandGroup>, b: seq<CommandGroup>, name: string)
    requires |b| == |a| || |b| == |a| + 1
    requires forall i :: 0 <= i < |a| ==> a[i].name == b[i].name
    ensures FindGroup(a, name) < |a| ==> FindGroup(b, name) == FindGroup(a, name)
    ensures FindGroup(a, name) == |a| && |b| == |a| + 1 && b[|a|].name == name ==> FindGroup(b, name) == |a|
  {}

  lemma {:induction false} CollectedDeclares(cs: seq<Registered>, j: nat)
    requires j < |cs| && Bind(cs[j]).subGroup.Some?
    ensures Declared(CollectGroups(cs), Bind(cs[j]).group.value, Bind(cs[j]).subGroup.value)
    decreases |cs|
  {
    if j < |cs| - 1 { CollectedDeclares(cs[..|cs| - 1], j); }
    CollectDeclares(CollectGroups(cs[..|cs| - 1]), cs[|cs| - 1], Bind(cs[j]).group.value, Bind(cs[j]).subGroup.value);
  }

  ghost predicate UsedBy(cs: seq<Bound>, g: string) {
    exists m :: 0 <= m < |cs| && cs[m].group == Some(g)
  }

  lemma {:induction false} CollectShape(a: seq<CommandGroup>, c: Registered)
    ensures var b := Collect(a, c);
      && |a| <= |b| <= |a| + 1 && (forall i :: 0 <= i < |a| ==> a[i].name == b[i].name)
      && (|b| == |a| + 1 ==> Bind(c).group == Some(b[|a|].name) && FindGroup(a, b[|a|].name) == |a|)
  {}

  lemma {:induction false} StillUsed(front: seq<Registered>, c: Registered, g: string)
    requires UsedBy(BindAll(front), g) || Bind(c).group == Some(g)
    ensures UsedBy(BindAll(front + [c]), g)
  {
    var a, b := BindAll(front), BindAll(front + [c]);
    assert b[|front|] == Bind(c);
    if UsedBy(a, g) {
      var m :| 0 <= m < |a| && a[m].group == Some(g);
      assert b[m] == a[m];
    }
  }

  /** Every group is collected once. */
  lemma {:induction false} CollectedOnce(cs: seq<Registered>)
    ensures DistinctGroups(CollectGroups(cs))
    decreases |cs|
  {
    if cs != [] {
      var front, c := cs[..|cs| - 1], cs[|cs| - 1];
      CollectedOnce(front);
      var a, b := CollectGroups(front), CollectGroups(cs);
      CollectShape(a, c);
      hide Collect, CollectGroups, Bind;
      forall i, j | 0 <= i < j < |b| ensures b[i].name != b[j].name {
        if j < |a| { assert a[i].name != a[j].name; } else { assert a[i].name != b[j].name; }
      }
    }
  }

  /** Every collected group is some command's. */
  lemma {:induction false} CollectedUsed(cs: seq<Registered>)
    ensures forall i :: 0 <= i < |CollectGroups(cs)| ==> UsedBy(BindAll(cs), CollectGroups(cs)[i].name)
    decreases |cs|
  {
    if cs != [] {
      var front, c := cs[..|cs| - 1], cs[|cs| - 1];
      CollectedUsed(front);
      var a, b := CollectGroups(front), CollectGroups(cs);
      assert cs == front + [c];
      CollectShape(a, c);
      hide Collect, CollectGroups, Bind, UsedBy, BindAll, FindGroup;
      forall i | 0 <= i < |b| ensures UsedBy(BindAll(cs), b[i].name) {
        assert i < |a| ==> b[i].name == a[i].name;
        StillUsed(front, c, b[i].name);
      }
    }
  }

  // ----- the description of a collected group -----

  /** Command `m` is the first that belongs to group `name`. */
  ghost predicate FirstUser(cs: seq<Registered>, name: string, m: nat) {
    m < |cs| && Bind(cs[m]).group == Some(name) && forall k :: 0 <= k < m ==> Bind(cs[k]).group != Some(name)
  }

  lemma {:induction false} CollectedHas(cs: seq<Registered>, m: nat)
    requires m < |cs| && Bind(cs[m]).group.Some?
    ensures FindGroup(CollectGroups(cs), Bind(cs[m]).group.value) < |CollectGroups(cs)|
    decreases |cs|
  {
    var a, g := CollectGroups(cs[..|cs| - 1]), Bind(cs[m]).group.value;
    if m < |cs| - 1 { CollectedHas(cs[..|cs| - 1], m); }
    CollectShape(a, cs[|cs| - 1]);
    FindGroupGrown(a, CollectGroups(cs), g);
  }

  lemma {:induction false} CollectKeepsText(a: seq<CommandGroup>, c: Registered, i: nat)
    requires i < |Collect(a, c)|
    ensures i < |a| ==> Collect(a, c)[i].description == a[i].description
    ensures i >= |a| ==> c.group.Some? && Collect(a, c)[i].description == c.group.value.description
  {}

  /** A collected group carries the description of the innermost group of the
      first command that belongs to it. */
  lemma {:induction false} CollectedDescription(cs: seq<Registered>, i: nat, m: nat)
    requires i < |CollectGroups(cs)| && FirstUser(cs, CollectGroups(cs)[i].name, m)
    ensures CollectGroups(cs)[i].description == cs[m].group.value.description
    decreases |cs|
  {
    var front, c := cs[..|cs| - 1], cs[|cs| - 1];
    var a, b := CollectGroups(front), CollectGroups(cs);
    CollectShape(a, c);
    CollectKeepsText(a, c, i);
    hide Collect, CollectGroups, FindGroup, UsedBy, BindAll;
    if i < |a| {
      CollectedUsed(front);
      FirstUserEarlier(cs, a[i].name, m);
      hide FirstUser, Bind;
      CollectedDescription(front, i, m);
    } else if m < |front| {
      CollectedHas(front, m);
    }
  }

  lemma {:induction false} FirstUserEarlier(cs: seq<Registered>, name: string, m: nat)
    requires FirstUser(cs, name, m) && UsedBy(BindAll(cs[..|cs| - 1]), name)
    ensures FirstUser(cs[..|cs| - 1], name, m)
  {
    var front := cs[..|cs| - 1];
    var k :| 0 <= k < |front| && BindAll(front)[k].group == Some(name);
    assert Bind(cs[k]).group == Some(name);
  }

  /** Command `m` is the first in subgroup `x` of group `g`. */
  ghost predicate FirstInSubGroup(cs: seq<Registered>, g: string, x: string, m: nat) {
    && m < |cs| && Bind(cs[m]).group == Some(g) && Bind(cs[m]).subGroup == Some(x)
    && forall k :: 0 <= k < m ==> !(Bind(cs[k]).group == Some(g) && Bind(cs[k]).subGroup == Some(x))
  }

  lemma {:induction false} CollectSubGroups(a: seq<CommandGroup>, c: Registered, i: nat, j: nat)
    requires i < |Collect(a, c)| && j < |Collect(a, c)[i].subGroups|
    ensures var b := Collect(a, c);
      if i < |a| && j < |a[i].subGroups| then b[i].subGroups[j] == a[i].subGroups[j]
      else
        && c.group.Some? && Bind(c).group == Some(b[i].name) && Bind(c).subGroup == Some(b[i].subGroups[j].name)
        && b[i].subGroups[j].description == c.group.value.description && !Declared(a, b[i].name, b[i].subGroups[j].name)
  {
  }

  lemma {:induction false} UndeclaredUnused(cs: seq<Registered>, g: string, x: string)
    requires !Declared(CollectGroups(cs), g, x)
    ensures forall k :: 0 <= k < |cs| ==> !(Bind(cs[k]).group == Some(g) && Bind(cs[k]).subGroup == Some(x))
  {
    hide Declared;
    forall k | 0 <= k < |cs| && Bind(cs[k]).subGroup.Some?
      ensures Declared(CollectGroups(cs), Bind(cs[k]).group.value, Bind(cs[k]).subGroup.value)
    {
      CollectedDeclares(cs, k);
    }
  }

  /** A collected subgroup carries the description of the group of the first command in
      it. */
  lemma {:induction false} CollectedSubGroup(cs: seq<Registered>, i: nat, j: nat) returns (m: nat)
    requires i < |CollectGroups(cs)| && j < |CollectGroups(cs)[i].subGroups|
    ensures var g := CollectGroups(cs)[i];
      && FirstInSubGroup(cs, g.name, g.subGroups[j].name, m)
      && cs[m].group.Some? && g.subGroups[j].description == cs[m].group.value.description
    decreases |cs|
  {
    var front, c := cs[..|cs| - 1], cs[|cs| - 1];
    var a, b := CollectGroups(front), CollectGroups(cs);
    assert cs == front + [c] && b == Collect(a, c);
    CollectShape(a, c);
    CollectSubGroups(a, c, i, j);
    hide Collect, Declared, CollectGroups, FirstInSubGroup, FindGroup, Bind;
    if i < |a| && j < |a[i].subGroups| {
      m := CollectedSubGroup(front, i, j);
      FirstStays(front, c, b[i].name, b[i].subGroups[j].name, m);
    } else {
      m := |front|;
      UndeclaredUnused(front, b[i].name, b[i].subGroups[j].name);
      FirstHere(front, c, b[i].name, b[i].subGroups[j].name);
    }
  }

  lemma {:induction false} FirstStays(front: seq<Registered>, c: Registered, g: string, x: string, m: nat)
    requires FirstInSubGroup(front, g, x, m)
    ensures FirstInSubGroup(front + [c], g, x, m) && (front + [c])[m] == front[m]
  {
  }

  lemma {:induction false} FirstHere(front: seq<Registered>, c: Registered, g: string, x: string)
    requires Bind(c).group == Some(g) && Bind(c).subGroup == Some(x)
    requires forall k :: 0 <= k < |front| ==> !(Bind(front[k]).group == Some(g) && Bind(front[k]).subGroup == Some(x))
    ensures FirstInSubGroup(front + [c], g, x, |front|)
  {
  }

  /** The description of the outermost group of a grouped command. */
  function OwnDescription(c: Registered): string
    requires c.group.Some?
  {
    if c.group.value.parent.Some? then c.group.value.parent.value.description else c.group.value.description
  }

  /** It is the group's own description exactly when that first command sits
      directly in the group, or in a subgroup described alike. */
  lemma {:induction false} CollectedDescriptionIsOwnExactly(cs: seq<Registered>, i: nat, m: nat)
    requires i < |CollectGroups(cs)| && FirstUser(cs, CollectGroups(cs)[i].name, m)
    ensures CollectGroups(cs)[i].description == OwnDescription(cs[m]) <==>
      var g := cs[m].group.value; g.parent.None? || g.description == g.parent.value.description
  {
    CollectedDescription(cs, i, m);
  }

  /** A group first met through a subgroup carries the subgroup's description. */
  lemma {:induction false} CollectedDescriptionIsWrong()
    ensures exists cs, i: nat, m: nat ::
              && i < |CollectGroups(cs)| && FirstUser(cs, CollectGroups(cs)[i].name, m)
              && CollectGroups(cs)[i].description != OwnDescription(cs[m])
  {
    var g := Group("g", "the group", None);
    var cs := [Registered("y", "", true, [], Some(Group("x", "the subgroup", Some(g))))];
    assert cs[..0] == [];
    assert CollectGroups(cs) == Collect([], cs[0]);
    assert |CollectGroups(cs)| == 1 && CollectGroups(cs)[0].name == "g";
    assert FirstUser(cs, CollectGroups(cs)[0].name, 0);
    CollectedDescriptionIsOwnExactly(cs, 0, 0);
  }

  /** A node without options is a declared group that no command has used. */
  lemma {:induction false} EmptyNode(groups: seq<CommandGroup>, cs: seq<Bound>, n: nat, i: nat)
    requires n <= |cs| && DistinctGroups(groups) && i < |Nodes(groups, cs, n)| && Nodes(groups, cs, n)[i].options == []
    ensures i < |groups| && Nodes(groups, cs, n)[i].name == groups[i].name
    ensures !UsedBy(cs[..n], groups[i].name)
  {
    if n > 0 {
      var nodes, c := Nodes(groups, cs, n - 1), cs[n - 1];
      NodesKeepNames(groups, cs, n - 1);
      if c.group.Some? {
        PlaceShape(nodes, c);
        assert |PlaceOption(OptionsOf(nodes, FindCommand(nodes, c.group.value)), c)| > 0;
        assert i != FindCommand(nodes, c.group.value);
      }
      EmptyNode(groups, cs, n - 1, i);
      assert cs[..n] == cs[..n - 1] + [c];
      assert c.group != Some(groups[i].name);
    }
  }

  ghost predicate DistinctNodes(nodes: seq<Command>) {
    forall i, j :: 0 <= i < j < |nodes| ==> nodes[i].name != nodes[j].name
  }

  lemma {:induction false} PlaceKeepsNames(nodes: seq<Command>, c: Bound)
    requires DistinctNodes(nodes) && c.group.Some?
    ensures DistinctNodes(Place(nodes, c))
  {}

  lemma {:induction false} NodesKeepNames(groups: seq<CommandGroup>, cs: seq<Bound>, n: nat)
    requires n <= |cs| && DistinctGroups(groups)
    ensures DistinctNodes(Nodes(groups, cs, n))
  {
    if n > 0 {
      NodesKeepNames(groups, cs, n - 1);
      if cs[n - 1].group.Some? { PlaceKeepsNames(Nodes(groups, cs, n - 1), cs[n - 1]); }
    }
  }

  /** Invoking `p` runs the one command whose names and description it carries. */
  ghost predicate SelectsItsCommand(cs: seq<Registered>, tree: seq<Command>, p: Path, args: seq<Arg>)
    requires ValidLeaf(tree, p)
  {
    exists j :: 0 <= j < |cs| && Chosen(cs, tree, p, args) == Some(j) && LeafInfo(tree, p) == BoundInfo(Bind(cs[j]))
  }

  /** With the groups the script collects from its own commands, every leaf of the
      tree runs its own command and every command has a leaf. */
  lemma {:induction false} ScriptRoundTrip(cs: seq<Registered>, args: seq<Arg>)
    requires Registry(cs) && Scalars(args)
    ensures var tree := Tree(CollectGroups(cs), cs);
      forall p :: ValidLeaf(tree, p) ==> SelectsItsCommand(cs, tree, p, args)
    ensures forall j :: 0 <= j < |cs| ==> Invocable(CollectGroups(cs), cs, j, args)
  {
    hide CommandLeaf, Registry, Shadowed;
    var groups := CollectGroups(cs);
    forall p | ValidLeaf(Tree(groups, cs), p) ensures SelectsItsCommand(cs, Tree(groups, cs), p, args) {
      NoUnusedGroup(cs, p);
      var j := InvokedLeafSelectsItsCommand(groups, cs, p, args);
    }
    forall j | 0 <= j < |cs| ensures Invocable(groups, cs, j, args) {
      NotShadowed(cs, j);
      InvocableExactly(groups, cs, j, args);
    }
  }

  lemma {:induction false} NotShadowed(cs: seq<Registered>, j: nat)
    requires j < |cs|
    ensures !Shadowed(CollectGroups(cs), BindAll(cs), j)
  {
    if Bind(cs[j]).subGroup.Some? { CollectedDeclares(cs, j); }
  }

  lemma {:induction false} NestedIsNotPlain(nodes: seq<Command>, i: nat)
    requires Nested(nodes) && i < |nodes| && nodes[i].options != []
    ensures !AllPlain(nodes[i].options)
  {
    assert !nodes[i].options[0].kind.Plain?;
  }

  lemma {:induction false} NoUnusedGroup(cs: seq<Registered>, p: Path)
    requires ValidLeaf(Tree(CollectGroups(cs), cs), p)
    ensures CommandLeaf(CollectGroups(cs), cs, p)
  {
    var groups, bs := CollectGroups(cs), BindAll(cs);
    var top, nodes := TopLevel(bs), Nodes(groups, bs, |bs|);
    if p.Direct? && p.i >= |top| {
      var i := p.i - |top|;
      assert Tree(groups, cs)[p.i] == nodes[i];
      NodesNested(groups, bs, |bs|);
      CollectedUsed(cs);
      CollectedOnce(cs);
      if nodes[i].options != [] { NestedIsNotPlain(nodes, i); }
      assert bs[..|bs|] == bs;
      EmptyNode(groups, bs, |bs|, i);
    }
  }
}
