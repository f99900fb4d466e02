/**
 The two halves together: the commands of several scripts, each nested into its own
 tree, the trees merged, a leaf of the merged tree invoked, and the invocation
 matched against all registered commands.
 */
module CommandScripts {
  import opened Common
  import opened CommandMerge
  import opened CommandRoundTrip
  import opened CommandLeaves
  import Conflicts = CommandConflicts

  /** The trees of all scripts, one after the other. */
  function Trees(scripts: seq<seq<Registered>>): seq<Command> {
    if scripts == [] then [] else Tree(CollectGroups(scripts[0]), scripts[0]) + Trees(scripts[1..])
  }

  /** All registered commands. */
  function AllCommands(scripts: seq<seq<Registered>>): seq<Registered> {
    if scripts == [] then [] else scripts[0] + AllCommands(scripts[1..])
  }

  function MergedTree(scripts: seq<seq<Registered>>): seq<Command> { MergeAll(Trees(scripts)) }

  // ----- where the leaves of a merged tree come from -----

  ghost predicate HasSub(s: seq<Opt>, name: string) {
    exists j :: 0 <= j < |s| && s[j].kind.SubCommand? && s[j].name == name
  }

  ghost predicate HasSubLeaf(s: seq<Opt>, group: string, name: string) {
    exists j :: 0 <= j < |s| && s[j].kind.SubCommandGroup? && s[j].name == group && HasSub(Leaves(s[j]), name)
  }

  lemma {:induction false} AddMissingSub(d: seq<Opt>, s: seq<Opt>, name: string)
    requires HasSub(AddMissing(d, s), name)
    ensures HasSub(d, name) || HasSub(s, name)
    decreases |s|
  {
    if s != [] {
      var e := if Find(d, s[0].name) < |d| then d else d + [s[0]];
      AddMissingSub(e, s[1..], name);
      if HasSub(s[1..], name) {
        var j :| 0 <= j < |s[1..]| && s[1..][j].kind.SubCommand? && s[1..][j].name == name;
        assert s[j + 1].name == name;
      }
    }
  }

  lemma {:induction false} OptionSub(d: seq<Opt>, o: Opt, group: string, name: string)
    ensures HasSub(MergeOption(d, o), name) ==> HasSub(d, name) || (o.kind.SubCommand? && o.name == name)
    ensures HasSubLeaf(MergeOption(d, o), group, name) ==>
      HasSubLeaf(d, group, name) || (o.kind.SubCommandGroup? && o.name == group && HasSub(Leaves(o), name))
  {
    var e, i := MergeOption(d, o), Find(d, o.name);
    if HasSubLeaf(e, group, name) {
      var j :| 0 <= j < |e| && e[j].kind.SubCommandGroup? && e[j].name == group && HasSub(Leaves(e[j]), name);
      if j < |d| && e[j] != d[j] {
        if d[i].options.Some? && Leaves(o) != [] { AddMissingSub(Leaves(d[i]), Leaves(o), name); }
      }
    }
  }

  lemma {:induction false} OptionsSub(d: seq<Opt>, s: seq<Opt>, group: string, name: string)
    ensures HasSub(MergeOptions(d, s), name) ==> HasSub(d, name) || HasSub(s, name)
    ensures HasSubLeaf(MergeOptions(d, s), group, name) ==> HasSubLeaf(d, group, name) || HasSubLeaf(s, group, name)
    decreases |s|
  {
    if s != [] && !s[0].kind.Plain? {
      OptionSub(d, s[0], group, name);
      OptionsSub(MergeOption(d, s[0]), s[1..], group, name);
      assert forall j :: 0 <= j < |s[1..]| ==> s[1..][j] == s[j + 1];
      hide HasSub;
      TailSub(s, group, name);
    }
  }

  lemma {:induction false} TailSub(s: seq<Opt>, group: string, name: string)
    requires s != []
    ensures HasSub(s[1..], name) ==> HasSub(s, name)
    ensures HasSubLeaf(s[1..], group, name) ==> HasSubLeaf(s, group, name)
  {
    if HasSub(s[1..], name) {
      var j :| 0 <= j < |s[1..]| && s[1..][j].kind.SubCommand? && s[1..][j].name == name;
      assert s[j + 1].name == name;
    }
    if HasSubLeaf(s[1..], group, name) {
      var j :| 0 <= j < |s[1..]| && s[1..][j].kind.SubCommandGroup? && s[1..][j].name == group
            && HasSub(Leaves(s[1..][j]), name);
      assert s[j + 1].name == group;
    }
  }

  /** What a leaf of command `c` looks like from outside. */
  ghost predicate Bears(c: Command, k: Key) {
    match (k.parentName, k.parentParentName)
    case (None, None) => c.name == k.name && AllPlain(c.options)
    case (Some(g), None) => c.name == g && HasSub(c.options, k.name)
    case (Some(x), Some(g)) => c.name == g && HasSubLeaf(c.options, x, k.name)
    case (None, Some(_)) => false
  }

  lemma {:induction false} MergedBears(d: Command, c: Command, k: Key)
    requires d.name == c.name && Bears(Merged(d, c), k)
    ensures Bears(d, k) || Bears(c, k)
  {
    MergedGrows(d, c);
    if k.parentName.Some? {
      OptionsSub(d.options, c.options, k.parentName.value, k.name);
    } else {
      var r := Merged(d, c).options;
      assert forall i :: 0 <= i < |d.options| ==> d.options[i].kind == r[i].kind;
    }
  }

  ghost predicate Born(cs: seq<Command>, k: Key) { exists m :: 0 <= m < |cs| && Bears(cs[m], k) }

  lemma {:induction false} MergeBears(cs: seq<Command>, k: Key)
    requires Born(MergeAll(cs), k)
    ensures Born(cs, k)
    decreases |cs|
  {
    if cs != [] {
      var front, c := cs[..|cs| - 1], cs[|cs| - 1];
      var acc := MergeAll(front);
      assert cs == front + [c];
      MergeFromAppend([], front, [c]);
      assert [c][1..] == [] && MergeFrom(acc, [c]) == MergeFrom(MergeInto(acc, c), []);
      hide Bears, MergeAll, MergeFrom;
      var i :| 0 <= i < |MergeInto(acc, c)| && Bears(MergeInto(acc, c)[i], k);
      var at := FindCommand(acc, c.name);
      if at < |acc| && i == at { MergedBears(acc[at], c, k); }
      if Bears(c, k) {
        assert Bears(cs[|cs| - 1], k);
      } else {
        assert Bears(acc[i], k);
        MergeBears(front, k);
        var m :| 0 <= m < |front| && Bears(front[m], k);
        assert Bears(cs[m], k);
      }
    }
  }

  /** A leaf is what its command bears. */
  lemma {:induction false} LeafIsBorne(tree: seq<Command>, p: Path)
    requires ValidLeaf(tree, p)
    ensures Bears(tree[p.i], LeafInfo(tree, p).key)
  {
    if p.InSubGroup? {
      assert HasSub(Leaves(tree[p.i].options[p.j]), Leaves(tree[p.i].options[p.j])[p.k].name);
    }
  }

  lemma {:induction false} BorneIsLeaf(tree: seq<Command>, i: nat, k: Key) returns (p: Path)
    requires i < |tree| && Bears(tree[i], k)
    ensures ValidLeaf(tree, p) && LeafInfo(tree, p).key == k
  {
    var c := tree[i];
    match (k.parentName, k.parentParentName)
    case (None, None) => p := Direct(i);
    case (Some(g), None) =>
      var j :| 0 <= j < |c.options| && c.options[j].kind.SubCommand? && c.options[j].name == k.name;
      p := InGroup(i, j);
    case (Some(x), Some(g)) =>
      var j :| 0 <= j < |c.options| && c.options[j].kind.SubCommandGroup? && c.options[j].name == x
            && HasSub(Leaves(c.options[j]), k.name);
      var l :| 0 <= l < |Leaves(c.options[j])| && Leaves(c.options[j])[l].kind.SubCommand?
            && Leaves(c.options[j])[l].name == k.name;
      p := InSubGroup(i, j, l);
  }

  // ----- every leaf selects a command -----

  lemma {:induction false} FrontRegistry(a: seq<Registered>, b: seq<Registered>)
    requires Registry(a + b)
    ensures Registry(a) && Registry(b)
  {
    var c := a + b;
    assert forall i :: 0 <= i < |a| ==> c[i] == a[i];
    assert forall i :: 0 <= i < |b| ==> c[|a| + i] == b[i];
  }

  lemma {:induction false} BornInEither(a: seq<Command>, b: seq<Command>, k: Key)
    requires Born(a + b, k)
    ensures (exists m :: 0 <= m < |a| && Bears(a[m], k)) || Born(b, k)
  {
    hide Bears;
    var m :| 0 <= m < |a + b| && Bears((a + b)[m], k);
    if m >= |a| { assert Bears(b[m - |a|], k); }
  }

  /** A name borne by some script's tree is some registered command's. */
  lemma {:induction false} BornIsRegistered(scripts: seq<seq<Registered>>, k: Key) returns (j: nat)
    requires Registry(AllCommands(scripts)) && Born(Trees(scripts), k)
    ensures j < |AllCommands(scripts)| && KeyOf(AllCommands(scripts)[j]) == k
    decreases |scripts|
  {
    var cs, rest := scripts[0], scripts[1..];
    var tree, all := Tree(CollectGroups(cs), cs), AllCommands(rest);
    assert Trees(scripts) == tree + Trees(rest) && AllCommands(scripts) == cs + all;
    hide Bears, Tree, CollectGroups, Registry, KeyOf, Trees, AllCommands, Born;
    FrontRegistry(cs, all);
    BornInEither(tree, Trees(rest), k);
    if Born(Trees(rest), k) {
      var i := BornIsRegistered(rest, k);
      j := |cs| + i;
      assert (cs + all)[j] == all[i];
    } else {
      var m :| 0 <= m < |tree| && Bears(tree[m], k);
      j := TreeBears(cs, m, k);
      assert (cs + all)[j] == cs[j];
    }
  }

  lemma {:induction false} TreeBears(cs: seq<Registered>, m: nat, k: Key) returns (j: nat)
    requires Registry(cs) && m < |Tree(CollectGroups(cs), cs)| && Bears(Tree(CollectGroups(cs), cs)[m], k)
    ensures j < |cs| && KeyOf(cs[j]) == k
  {
    var tree := Tree(CollectGroups(cs), cs);
    hide Tree, Bears, CollectGroups;
    var p := BorneIsLeaf(tree, m, k);
    NoUnusedGroup(cs, p);
    j := InvokedLeafSelectsItsCommand(CollectGroups(cs), cs, p, []);
    BoundKey(cs[j]);
  }

  /** Whatever leaf of the merged tree is invoked, with whatever conflicts between the
      scripts, the arguments reach exactly the registered command whose names it
      carries. */
  lemma {:induction false} MergedLeafSelects(scripts: seq<seq<Registered>>, p: Path, args: seq<Arg>) returns (j: nat)
    requires Registry(AllCommands(scripts)) && ValidLeaf(MergedTree(scripts), p) && Scalars(args)
    ensures j < |AllCommands(scripts)| && Chosen(AllCommands(scripts), MergedTree(scripts), p, args) == Some(j)
    ensures LeafInfo(MergedTree(scripts), p).key == KeyOf(AllCommands(scripts)[j])
  {
    var tree := MergedTree(scripts);
    LeafIsBorne(tree, p);
    hide Bears, ValidLeaf, LeafInfo, Registry, Chosen;
    assert Born(tree, LeafInfo(tree, p).key);
    MergeBears(Trees(scripts), LeafInfo(tree, p).key);
    j := BornIsRegistered(scripts, LeafInfo(tree, p).key);
    ChosenByKey(AllCommands(scripts), tree, p, args, j);
  }

  // ----- which commands can be invoked through the merged tree -----

  /** What every command of a script's tree satisfies: either all its options are
      plain or none is, and its subgroups hold subcommands. */
  ghost predicate WellFormed(c: Command) {
    (AllPlain(c.options) || !HasPlain(c.options)) && LeavesAreSubs(c.options)
  }

  ghost predicate AllSubs(s: seq<Opt>) { forall k :: 0 <= k < |s| ==> s[k].kind.SubCommand? }

  ghost predicate LeavesAreSubs(s: seq<Opt>) {
    forall j :: 0 <= j < |s| && s[j].kind.SubCommandGroup? ==> AllSubs(Leaves(s[j]))
  }

  lemma {:induction false} AddMissingSubs(d: seq<Opt>, s: seq<Opt>)
    requires AllSubs(d) && AllSubs(s)
    ensures AllSubs(AddMissing(d, s))
    decreases |s|
  {
    if s != [] {
      AddMissingSubs(if Find(d, s[0].name) < |d| then d else d + [s[0]], s[1..]);
    }
  }

  lemma {:induction false} OptionKeeps(d: seq<Opt>, o: Opt)
    requires DistinctNames(d) && LeavesAreSubs(d) && (o.kind.SubCommandGroup? ==> AllSubs(Leaves(o)))
    ensures DistinctNames(MergeOption(d, o)) && LeavesAreSubs(MergeOption(d, o))
  {
    var i := Find(d, o.name);
    if i < |d| && d[i].kind.SubCommandGroup? && o.kind.SubCommandGroup? {
      AddMissingSubs(Leaves(d[i]), Leaves(o));
    }
  }

  lemma {:induction false} OptionsKeep(d: seq<Opt>, s: seq<Opt>)
    requires DistinctNames(d) && LeavesAreSubs(d) && LeavesAreSubs(s)
    ensures DistinctNames(MergeOptions(d, s)) && LeavesAreSubs(MergeOptions(d, s))
    decreases |s|
  {
    if s != [] && !s[0].kind.Plain? {
      OptionKeeps(d, s[0]);
      assert forall j :: 0 <= j < |s[1..]| ==> s[1..][j] == s[j + 1];
      OptionsKeep(MergeOption(d, s[0]), s[1..]);
    }
  }

  ghost predicate Fit(c: Command) { DistinctNames(c.options) && WellFormed(c) }

  lemma {:induction false} MergedFit(d: Command, c: Command)
    requires Fit(d) && Fit(c)
    ensures Fit(Merged(d, c)) && Merged(d, c).name == d.name
  {
    OptionsKeep(d.options, c.options);
    Conflicts.StillNested(d, c);
  }

  ghost predicate FitTree(cs: seq<Command>) {
    && (forall i :: 0 <= i < |cs| ==> Fit(cs[i]))
    && (forall i, j :: 0 <= i < j < |cs| ==> cs[i].name != cs[j].name)
  }

  lemma {:induction false} MergeIntoFit(acc: seq<Command>, c: Command)
    requires FitTree(acc) && Fit(c)
    ensures FitTree(MergeInto(acc, c))
  {
    hide Fit, Merged;
    var i := FindCommand(acc, c.name);
    if i < |acc| { MergedFit(acc[i], c); }
  }

  lemma {:induction false} MergeFit(cs: seq<Command>)
    requires forall i :: 0 <= i < |cs| ==> Fit(cs[i])
    ensures FitTree(MergeAll(cs))
    decreases |cs|
  {
    if cs != [] {
      var front, c := cs[..|cs| - 1], cs[|cs| - 1];
      assert cs == front + [c];
      MergeFit(front);
      MergeFromAppend([], front, [c]);
      assert [c][1..] == [] && MergeFrom(MergeAll(front), [c]) == MergeFrom(MergeInto(MergeAll(front), c), []);
      hide FitTree, Fit, MergeInto;
      MergeIntoFit(MergeAll(front), c);
    }
  }

  /** The position of an option in a list of distinct names. */
  lemma {:induction false} KindOfSub(s: seq<Opt>, name: string)
    requires DistinctNames(s)
    ensures HasSub(s, name) ==> Conflicts.ChildKind(s, name) == Some(false)
    ensures Conflicts.ChildKind(s, name) == Some(false) && !HasPlain(s) ==> HasSub(s, name)
  {
    if HasSub(s, name) {
      var j :| 0 <= j < |s| && s[j].kind.SubCommand? && s[j].name == name;
      assert Find(s, name) == j;
    }
  }

  lemma {:induction false} KindOfLeaf(s: seq<Opt>, group: string, name: string)
    requires DistinctNames(s) && LeavesAreSubs(s)
    ensures HasSubLeaf(s, group, name) <==> Conflicts.HasLeaf(s, group, name)
  {
    if HasSubLeaf(s, group, name) {
      var j :| 0 <= j < |s| && s[j].kind.SubCommandGroup? && s[j].name == group && HasSub(Leaves(s[j]), name);
      assert Find(s, group) == j;
      var l :| 0 <= l < |Leaves(s[j])| && Leaves(s[j])[l].kind.SubCommand? && Leaves(s[j])[l].name == name;
      assert Find(Leaves(s[j]), name) <= l;
    }
    if Conflicts.HasLeaf(s, group, name) {
      var j := Find(s, group);
      var l := Find(Leaves(s[j]), name);
      assert Leaves(s[j])[l].kind.SubCommand?;
      assert HasSub(Leaves(s[j]), name);
    }
  }

  /** Whether the merge of `cs` leaves a command with names `k` invocable: a direct
      command if nothing is nested under its name or its first definition is direct,
      a subcommand if the first definition of its name is one, a subgroup's command
      if the first definition of the subgroup is a subgroup. */
  ghost predicate Survives(cs: seq<Command>, k: Key) {
    match (k.parentName, k.parentParentName)
    case (None, None) =>
      FindCommand(cs, k.name) < |cs| && (Conflicts.Closed(cs, k.name) || forall o ::
        Conflicts.FirstKind(cs, k.name, o).None?)
    case (Some(g), None) => !Conflicts.Closed(cs, g) && Conflicts.FirstKind(cs, g, k.name) == Some(false)
    case (Some(x), Some(g)) =>
      !Conflicts.Closed(cs, g) && Conflicts.FirstKind(cs, g, x) == Some(true) && Conflicts.OffersLeaf(cs, g, x, k.name)
    case (None, Some(_)) => false
  }

  lemma {:induction false} NestedSurvives(cs: seq<Command>, k: Key)
    requires (forall i :: 0 <= i < |cs| ==> Fit(cs[i])) && k.parentName.Some?
    ensures Born(MergeAll(cs), k) <==> Survives(cs, k)
  {
    var t := MergeAll(cs);
    MergeFit(cs);
    var g := if k.parentParentName.Some? then k.parentParentName.value else k.parentName.value;
    var child := if k.parentParentName.Some? then k.parentName.value else k.name;
    Conflicts.MergeRepresents(cs, g, child, k.name);
    var i := FindCommand(t, g);
    if i < |t| {
      assert Fit(t[i]);
      KindOfSub(t[i].options, child);
      KindOfLeaf(t[i].options, child, k.name);
      HasNested(t[i].options, child, k.name);
    }
    hide Conflicts.FirstKind, Conflicts.OffersLeaf, Conflicts.HasLeaf, HasSub, HasSubLeaf, MergeAll, HasPlain, Fit,
        AllPlain;
    assert Born(t, k) <==> i < |t| && Bears(t[i], k);
  }

  /** A list of plain options has no subcommand and no subgroup. */
  lemma {:induction false} HasNested(s: seq<Opt>, child: string, leaf: string)
    ensures AllPlain(s) || !HasPlain(s) ==> (HasSub(s, child) || HasSubLeaf(s, child, leaf) ==> !HasPlain(s))
  {
  }

  lemma {:induction false} DirectSurvives(cs: seq<Command>, k: Key)
    requires (forall i :: 0 <= i < |cs| ==> Fit(cs[i])) && k.parentName.None?
    ensures Born(MergeAll(cs), k) <==> Survives(cs, k)
  {
    var t := MergeAll(cs);
    MergeFit(cs);
    var i := FindCommand(t, k.name);
    forall o ensures Conflicts.Represents(t, cs, k.name, o, "") { Conflicts.MergeRepresents(cs, k.name, o, ""); }
    assert Conflicts.Represents(t, cs, k.name, "", "");
    if i < |t| {
      assert Fit(t[i]);
      if !HasPlain(t[i].options) {
        forall o ensures Conflicts.ChildKind(t[i].options, o) == Conflicts.FirstKind(cs, k.name, o) {
          assert Conflicts.Represents(t, cs, k.name, o, "");
        }
        EmptyHasNoChild(t[i].options);
      }
    }
    hide Conflicts.FirstKind, Conflicts.OffersLeaf, Conflicts.HasLeaf, MergeAll, Fit;
  }

  lemma {:induction false} EmptyHasNoChild(s: seq<Opt>)
    requires !HasPlain(s)
    ensures AllPlain(s) <==> forall o :: Conflicts.ChildKind(s, o).None?
  {
    if s != [] {
      assert !s[0].kind.Plain?;
      assert Conflicts.ChildKind(s, s[0].name).Some?;
    }
  }

  // ----- script trees are well formed -----

  ghost predicate NodesHoldSubs(nodes: seq<Command>) {
    forall i :: 0 <= i < |nodes| ==> LeavesAreSubs(nodes[i].options)
  }

  lemma {:induction false} PlaceHoldsSubs(nodes: seq<Command>, c: Bound)
    requires NodesHoldSubs(nodes)
    ensures NodesHoldSubs(Place(nodes, c))
  {
    if c.group.Some? {
      PlaceShape(nodes, c);
      var at := FindCommand(nodes, c.group.value);
      var opts := OptionsOf(nodes, at);
      var r := PlaceOption(opts, c);
      assert LeavesAreSubs(opts);
      forall j | 0 <= j < |r| && r[j].kind.SubCommandGroup? ensures AllSubs(Leaves(r[j])) {
        if j < |opts| { assert opts[j].kind.SubCommandGroup?; }
      }
    }
  }

  lemma {:induction false} NodesHold(groups: seq<CommandGroup>, cs: seq<Bound>, n: nat)
    requires n <= |cs|
    ensures NodesHoldSubs(Nodes(groups, cs, n))
  {
    if n > 0 {
      NodesHold(groups, cs, n - 1);
      PlaceHoldsSubs(Nodes(groups, cs, n - 1), cs[n - 1]);
    }
  }

  lemma {:induction false} TreeWellFormed(groups: seq<CommandGroup>, cs: seq<Registered>, m: nat)
    requires m < |Tree(groups, cs)| && forall i :: 0 <= i < |cs| ==> AllPlain(cs[i].options)
    ensures WellFormed(Tree(groups, cs)[m])
  {
    var bs := BindAll(cs);
    var top, nodes := TopLevel(bs), Nodes(groups, bs, |bs|);
    if m < |top| {
      var i := TopOrigin(bs, m);
      assert Tree(groups, cs)[m] == AsCommand(bs[i]) && AllPlain(cs[i].options);
    } else {
      NodesHold(groups, bs, |bs|);
      NodesNested(groups, bs, |bs|);
      assert Tree(groups, cs)[m] == nodes[m - |top|];
    }
  }

  lemma {:induction false} TreesWellFormed(scripts: seq<seq<Registered>>, m: nat)
    requires Registry(AllCommands(scripts)) && m < |Trees(scripts)|
    ensures WellFormed(Trees(scripts)[m])
    decreases |scripts|
  {
    var tree := Tree(CollectGroups(scripts[0]), scripts[0]);
    FrontRegistry(scripts[0], AllCommands(scripts[1..]));
    if m < |tree| {
      TreeWellFormed(CollectGroups(scripts[0]), scripts[0], m);
    } else {
      TreesWellFormed(scripts[1..], m - |tree|);
    }
  }

  // ----- the theorem -----

  /** A registered command can be invoked through the merged tree of all scripts
      exactly when no conflict with another script hides its names. */
  lemma {:induction false} MergedInvocableExactly(scripts: seq<seq<Registered>>, j: nat, args: seq<Arg>)
    requires Registry(AllCommands(scripts)) && j < |AllCommands(scripts)| && Scalars(args)
    requires forall m :: 0 <= m < |Trees(scripts)| ==> DistinctNames(Trees(scripts)[m].options)
    ensures (exists p ::
          ValidLeaf(MergedTree(scripts), p) && Chosen(AllCommands(scripts), MergedTree(scripts), p, args) == Some(j))
      <==> Survives(Trees(scripts), KeyOf(AllCommands(scripts)[j]))
  {
    var all, tree, k := AllCommands(scripts), MergedTree(scripts), KeyOf(AllCommands(scripts)[j]);
    forall m | 0 <= m < |Trees(scripts)| ensures Fit(Trees(scripts)[m]) { TreesWellFormed(scripts, m); }
    if k.parentName.Some? { NestedSurvives(Trees(scripts), k); } else { DirectSurvives(Trees(scripts), k); }
    hide Bears, ValidLeaf, LeafInfo, Chosen, Survives, DistinctNames, Fit, KeyOf;
    if Born(tree, k) {
      var i :| 0 <= i < |tree| && Bears(tree[i], k);
      var p := BorneIsLeaf(tree, i, k);
      ChosenByKey(all, tree, p, args, j);
    }
    forall p | ValidLeaf(tree, p) && Chosen(all, tree, p, args) == Some(j) ensures Born(tree, k) {
      var q := MergedLeafSelects(scripts, p, args);
      LeafIsBorne(tree, p);
      LeafInTree(tree, p);
    }
  }

  lemma {:induction false} LeafInTree(tree: seq<Command>, p: Path)
    requires ValidLeaf(tree, p)
    ensures p.i < |tree|
  {
  }
}
