/**
 Merging refines a left-biased union: read as a partial map from paths to
 definitions, the merged tree is the union of the input trees in order, the
 earliest definition of each path winning, except that the description of a
 command or subgroup is the first that is not the placeholder.
 */
module CommandUnion {
  import opened Common
  import opened CommandMerge

  datatype Path = Root(command: string) | Child(command: string, child: string) | Leaf(command: string,
      child: string, leaf: string)

  /** What a path denotes: a command (with its plain options, if it is invoked
      directly), a subgroup, or the whole definition of a subcommand. */
  datatype Entry =
    | CommandEntry(description: string, rest: nat, plain: seq<Opt>)
    | GroupEntry(description: string, rest: nat)
    | DefEntry(def: Opt)

  function EntryOf(o: Opt): Entry {
    if o.kind.SubCommandGroup? then GroupEntry(o.description, o.rest) else DefEntry(o)
  }

  function LeafAt(s: seq<Opt>, leaf: string): Option<Entry> {
    var i := Find(s, leaf);
    if i < |s| then Some(DefEntry(s[i])) else None
  }

  function ChildAt(s: seq<Opt>, child: string): Option<Entry> {
    var i := Find(s, child);
    if i < |s| then Some(EntryOf(s[i])) else None
  }

  function LeafOf(s: seq<Opt>, child: string, leaf: string): Option<Entry> {
    var i := Find(s, child);
    if i < |s| && s[i].kind.SubCommandGroup? then LeafAt(Leaves(s[i]), leaf) else None
  }

  /** The definition a single command gives a path. */
  function At(c: Command, p: Path): Option<Entry> {
    if c.name != p.command then None
    else match p
      case Root(_) => Some(CommandEntry(c.description, c.rest, if HasPlain(c.options) then c.options else []))
      case Child(_, child) => if HasPlain(c.options) then None else ChildAt(c.options, child)
      case Leaf(_, child, leaf) => if HasPlain(c.options) then None else LeafOf(c.options, child, leaf)
  }

  function TreeAt(cs: seq<Command>, p: Path): Option<Entry> {
    var i := FindCommand(cs, p.command);
    if i < |cs| then At(cs[i], p) else None
  }

  // ----- the reference -----

  function Plus(a: Option<Entry>, b: Option<Entry>): Option<Entry> {
    match (a, b)
    case (None, _) => b
    case (Some(CommandEntry(d, r, s)), Some(CommandEntry(e, _, _))) => Some(CommandEntry(Described(d, e), r, s))
    case (Some(GroupEntry(d, r)), Some(GroupEntry(e, _))) => Some(GroupEntry(Described(d, e), r))
    case _ => a
  }

  function UnionAt(cs: seq<Command>, p: Path): Option<Entry> {
    if cs == [] then None else Plus(UnionAt(cs[..|cs| - 1], p), At(cs[|cs| - 1], p))
  }

  // ----- hypotheses -----

  /** Names are distinct at every level. */
  ghost predicate Clean(c: Command) {
    DistinctNames(c.options) && CleanLeaves(c.options)
  }

  ghost predicate CleanLeaves(s: seq<Opt>) {
    forall i :: 0 <= i < |s| && s[i].kind.SubCommandGroup? ==> DistinctNames(Leaves(s[i]))
  }

  ghost predicate Nestable(s: seq<Opt>) {
    forall i :: 0 <= i < |s| ==> !s[i].kind.Plain?
  }

  ghost predicate PlainIn(cs: seq<Command>, name: string) {
    exists i :: 0 <= i < |cs| && cs[i].name == name && HasPlain(cs[i].options)
  }

  ghost predicate GroupIn(cs: seq<Command>, name: string, child: string) {
    exists i, j :: 0 <= i < |cs| && cs[i].name == name && 0 <= j < |cs[i].options| &&
      cs[i].options[j].name == child && cs[i].options[j].kind.SubCommandGroup?
  }

  /** No two definitions disagree on whether a command is invoked directly, nor
      on whether a child is a subcommand or a subgroup. */
  ghost predicate Agree(a: Command, b: Command) {
    a.name == b.name ==>
      && (HasPlain(a.options) ==> forall j :: 0 <= j < |b.options| ==> b.options[j].kind.Plain?)
      && forall i, j :: 0 <= i < |a.options| && 0 <= j < |b.options| && a.options[i].name == b.options[j].name ==>
        a.options[i].kind.SubCommandGroup? == b.options[j].kind.SubCommandGroup?
  }

  ghost predicate AllAgree(cs: seq<Command>) {
    forall i, j :: 0 <= i < |cs| && 0 <= j < |cs| ==> Agree(cs[i], cs[j])
  }

  /** `c` has the kinds that `all` gives its paths. */
  ghost predicate Conforms(all: seq<Command>, c: Command) {
    && (if PlainIn(all, c.name) then forall j :: 0 <= j < |c.options| ==>
      c.options[j].kind.Plain? else Nestable(c.options))
    && forall j :: 0 <= j < |c.options| ==>
      (c.options[j].kind.SubCommandGroup? <==> GroupIn(all, c.name, c.options[j].name))
  }

  lemma {:induction false} MembersConform(cs: seq<Command>, k: nat)
    requires AllAgree(cs) && k < |cs|
    ensures Conforms(cs, cs[k])
  {}

  // ----- leaves -----

  lemma {:induction false} FindSnoc(d: seq<Opt>, o: Opt, name: string)
    ensures Find(d + [o], name) == if Find(d, name) < |d| then Find(d, name) else if o.name == name then |d|
          else |d| + 1
  {
    var e := d + [o];
    if Find(d, name) < |d| {
      FindPrefix(d, e, name);
    } else {
      assert e[|d|] == o;
      assert forall j :: 0 <= j < |d| ==> e[j].name != name;
    }
  }

  lemma {:induction false} LeafAtSnoc(d: seq<Opt>, o: Opt, leaf: string)
    ensures LeafAt(d + [o], leaf) == Plus(LeafAt(d, leaf), if o.name == leaf then Some(DefEntry(o)) else None)
  {
    FindSnoc(d, o, leaf);
  }

  lemma {:induction false} LeafAtHead(s: seq<Opt>, leaf: string)
    requires s != [] && DistinctNames(s)
    ensures LeafAt(s, leaf) == if s[0].name == leaf then Some(DefEntry(s[0])) else LeafAt(s[1..], leaf)
    ensures s[0].name == leaf ==> LeafAt(s[1..], leaf) == None
    ensures DistinctNames(s[1..])
  {}

  lemma {:induction false} DistinctSnoc(d: seq<Opt>, o: Opt)
    requires DistinctNames(d) && Find(d, o.name) == |d|
    ensures DistinctNames(d + [o])
  {}

  lemma {:induction false} AddMissingIsUnion(d: seq<Opt>, s: seq<Opt>, leaf: string)
    requires DistinctNames(d) && DistinctNames(s)
    ensures DistinctNames(AddMissing(d, s))
    ensures LeafAt(AddMissing(d, s), leaf) == Plus(LeafAt(d, leaf), LeafAt(s, leaf))
    decreases |s|
  {
    if s != [] {
      LeafAtHead(s, leaf);
      if Find(d, s[0].name) < |d| {
        assert s[0].name == leaf ==> LeafAt(d, leaf).Some?;
        hide Find, LeafAt, DistinctNames;
        AddMissingIsUnion(d, s[1..], leaf);
      } else {
        LeafAtSnoc(d, s[0], leaf);
        DistinctSnoc(d, s[0]);
        hide Find, LeafAt, DistinctNames;
        AddMissingIsUnion(d + [s[0]], s[1..], leaf);
      }
    }
  }

  lemma {:induction false} AddToNothing(d: seq<Opt>, s: seq<Opt>)
    requires DistinctNames(d + s)
    ensures AddMissing(d, s) == d + s
    decreases |s|
  {
    if s == [] {
      assert d + s == d;
    } else {
      assert Find(d, s[0].name) == |d| by {
        assert (d + s)[|d|] == s[0];
        assert forall i :: 0 <= i < |d| ==> d[i].name == (d + s)[i].name;
      }
      assert d + [s[0]] + s[1..] == d + s;
      AddToNothing(d + [s[0]], s[1..]);
    }
  }

  lemma {:induction false} SubgroupLeaves(d: Opt, s: Opt)
    requires DistinctNames(Leaves(s))
    ensures Leaves(Subgroups(d, s)) == AddMissing(Leaves(d), Leaves(s))
  {
    if d.options.None? {
      assert [] + Leaves(s) == Leaves(s);
      AddToNothing([], Leaves(s));
    }
  }

  // ----- options -----

  /** One list of options agrees with another on the kinds of shared names. */
  ghost predicate SameKinds(d: seq<Opt>, s: seq<Opt>) {
    forall i, j :: 0 <= i < |d| && 0 <= j < |s| && d[i].name == s[j].name ==>
      d[i].kind.SubCommandGroup? == s[j].kind.SubCommandGroup?
  }

  ghost predicate CleanOptions(s: seq<Opt>) {
    DistinctNames(s) && CleanLeaves(s) && Nestable(s)
  }

  lemma {:induction false} MergeOptionClean(d: seq<Opt>, o: Opt)
    requires CleanOptions(d) && CleanOptions([o]) && SameKinds(d, [o])
    ensures CleanOptions(MergeOption(d, o))
  {
    var i, e := Find(d, o.name), MergeOption(d, o);
    assert [o][0] == o;
    if i < |d| && o.kind.SubCommandGroup? {
      assert d[i].kind.SubCommandGroup?;
      SubgroupLeaves(d[i], o);
      AddMissingIsUnion(Leaves(d[i]), Leaves(o), "");
    }
  }

  lemma {:induction false} MergeOptionUnion(d: seq<Opt>, o: Opt, child: string, leaf: string)
    requires CleanOptions(d) && CleanOptions([o]) && SameKinds(d, [o])
    ensures ChildAt(MergeOption(d, o), child) == Plus(ChildAt(d, child),
        if o.name == child then Some(EntryOf(o)) else None)
    ensures LeafOf(MergeOption(d, o), child, leaf)
         == Plus(LeafOf(d, child, leaf), if o.name == child
           && o.kind.SubCommandGroup? then LeafAt(Leaves(o), leaf) else None)
  {
    var i, e := Find(d, o.name), MergeOption(d, o);
    assert [o][0] == o;
    if i == |d| {
      FindSnoc(d, o, child);
    } else if o.kind.SubCommandGroup? {
      assert d[i].kind.SubCommandGroup?;
      SubgroupLeaves(d[i], o);
      AddMissingIsUnion(Leaves(d[i]), Leaves(o), leaf);
      SameNames(d, e, child);
    }
  }

  lemma {:induction false} SameNames(d: seq<Opt>, e: seq<Opt>, name: string)
    requires |d| == |e| && forall k :: 0 <= k < |d| ==> d[k].name == e[k].name
    ensures Find(d, name) == Find(e, name)
  {}

  /** Names and kinds of a merged option come from one side or the other. */
  lemma {:induction false} MergeOptionKinds(d: seq<Opt>, o: Opt, t: seq<Opt>)
    requires SameKinds(d, t) && SameKinds([o], t)
    ensures SameKinds(MergeOption(d, o), t)
  {}

  lemma {:induction false} MergeOptionsIsUnion(d: seq<Opt>, s: seq<Opt>, child: string, leaf: string)
    requires CleanOptions(d) && CleanOptions(s) && SameKinds(d, s)
    ensures CleanOptions(MergeOptions(d, s))
    ensures ChildAt(MergeOptions(d, s), child) == Plus(ChildAt(d, child), ChildAt(s, child))
    ensures LeafOf(MergeOptions(d, s), child, leaf) == Plus(LeafOf(d, child, leaf), LeafOf(s, child, leaf))
    decreases |s|
  {
    if s != [] {
      var e := MergeOption(d, s[0]);
      HeadAndTail(d, s, child);
      MergeOptionClean(d, s[0]);
      MergeOptionUnion(d, s[0], child, leaf);
      MergeOptionKinds(d, s[0], s[1..]);
      hide CleanOptions, SameKinds, MergeOption;
      MergeOptionsIsUnion(e, s[1..], child, leaf);
    }
  }

  lemma {:induction false} HeadAndTail(d: seq<Opt>, s: seq<Opt>, child: string)
    requires CleanOptions(s) && SameKinds(d, s) && s != []
    ensures CleanOptions([s[0]]) && CleanOptions(s[1..]) && !s[0].kind.Plain?
    ensures SameKinds(d, [s[0]]) && SameKinds(d, s[1..]) && SameKinds([s[0]], s[1..])
    ensures s[0].name == child ==> Find(s[1..], child) == |s[1..]| && Find(s, child) == 0
    ensures s[0].name != child ==> Find(s, child) == 1 + Find(s[1..], child)
  {}

  // ----- commands -----

  /** Commands invoked directly do not mix: the first keeps its options. */
  lemma {:induction false} PlainIsUnion(all: seq<Command>, d: Command, s: Command, p: Path)
    requires d.name == s.name && Conforms(all, d) && Conforms(all, s) && PlainIn(all, d.name)
    ensures Merged(d, s).options == d.options
    ensures At(Merged(d, s), p) == Plus(At(d, p), At(s, p))
  {}

  lemma {:induction false} NestedIsUnion(all: seq<Command>, d: Command, s: Command, p: Path)
    requires d.name == s.name && Clean(d) && Clean(s) && Conforms(all, d) && Conforms(all, s) && !PlainIn(all, d.name)
    ensures At(Merged(d, s), p) == Plus(At(d, p), At(s, p))
    ensures Clean(Merged(d, s))
  {
    var child, leaf := if p.Root? then "" else p.child, if p.Leaf? then p.leaf else "";
    assert SameKinds(d.options, s.options);
    assert !HasPlain(d.options) && !HasPlain(s.options);
    MergeOptionsIsUnion(d.options, s.options, child, leaf);
    hide ChildAt, LeafOf, Conforms, MergeOptions;
  }

  lemma {:induction false} MergedIsUnion(all: seq<Command>, d: Command, s: Command, p: Path)
    requires d.name == s.name && Clean(d) && Clean(s) && Conforms(all, d) && Conforms(all, s)
    ensures At(Merged(d, s), p) == Plus(At(d, p), At(s, p))
    ensures Clean(Merged(d, s))
  {
    if PlainIn(all, d.name) {
      PlainIsUnion(all, d, s, p);
    } else {
      NestedIsUnion(all, d, s, p);
    }
  }

  lemma {:induction false} MergeOptionsOrigin(d: seq<Opt>, s: seq<Opt>)
    ensures forall k :: 0 <= k < |MergeOptions(d, s)| ==> FromEither(d, s, MergeOptions(d, s)[k])
    decreases |s|
  {
    var r := MergeOptions(d, s);
    if s == [] || s[0].kind.Plain? {
    } else {
      var e := MergeOption(d, s[0]);
      MergeOptionsOrigin(e, s[1..]);
      forall k | 0 <= k < |r| ensures FromEither(d, s, r[k]) {
        assert FromEither(e, s[1..], r[k]);
        if i :| 0 <= i < |e| && SameShape(e[i], r[k]) {
          if i < |d| { assert SameShape(d[i], r[k]); } else { assert SameShape(s[0], r[k]); }
        } else {
          var j :| 0 <= j < |s[1..]| && SameShape(s[1..][j], r[k]);
          assert SameShape(s[j + 1], r[k]);
        }
      }
    }
  }

  ghost predicate SameShape(a: Opt, b: Opt) { a.name == b.name && a.kind == b.kind }

  ghost predicate FromEither(d: seq<Opt>, s: seq<Opt>, o: Opt) {
    || (exists i :: 0 <= i < |d| && SameShape(d[i], o))
    || (exists i :: 0 <= i < |s| && SameShape(s[i], o))
  }

  lemma {:induction false} MergedConforms(all: seq<Command>, d: Command, s: Command)
    requires d.name == s.name && Conforms(all, d) && Conforms(all, s)
    ensures Conforms(all, Merged(d, s))
  {
    MergeOptionsOrigin(d.options, s.options);
    var r := Merged(d, s);
    forall j | 0 <= j < |r.options|
      ensures r.options[j].kind.SubCommandGroup? <==> GroupIn(all, r.name, r.options[j].name)
      ensures r.options[j].kind.Plain? <==> PlainIn(all, r.name)
    {
      if !HasPlain(d.options) {
        assert FromEither(d.options, s.options, r.options[j]);
      }
    }
  }

  // ----- lists of commands -----

  ghost predicate CleanTree(cs: seq<Command>) {
    && (forall i, j :: 0 <= i < j < |cs| ==> cs[i].name != cs[j].name)
    && forall i :: 0 <= i < |cs| ==> Clean(cs[i])
  }

  ghost predicate AllConform(all: seq<Command>, cs: seq<Command>) {
    forall i :: 0 <= i < |cs| ==> Conforms(all, cs[i])
  }

  lemma {:induction false} MergeIntoClean(all: seq<Command>, acc: seq<Command>, c: Command)
    requires CleanTree(acc) && AllConform(all, acc) && Clean(c) && Conforms(all, c)
    ensures CleanTree(MergeInto(acc, c)) && AllConform(all, MergeInto(acc, c))
  {
    hide Clean, Conforms, Merged;
    var i := FindCommand(acc, c.name);
    if i < |acc| {
      MergedName(acc[i], c);
      MergedIsUnion(all, acc[i], c, Root(""));
      MergedConforms(all, acc[i], c);
    }
  }

  lemma {:induction false} MergeIntoIsUnion(all: seq<Command>, acc: seq<Command>, c: Command, p: Path)
    requires CleanTree(acc) && AllConform(all, acc) && Clean(c) && Conforms(all, c)
    ensures TreeAt(MergeInto(acc, c), p) == Plus(TreeAt(acc, p), At(c, p))
  {
    var r, i := MergeInto(acc, c), FindCommand(acc, c.name);
    OtherName(c, p);
    if i < |acc| {
      assert Clean(acc[i]) && Conforms(all, acc[i]);
      hide Clean, Conforms, At, Merged, CleanTree, AllConform, FindCommand;
      MergedName(acc[i], c);
      MergedIsUnion(all, acc[i], c, p);
      SameCommandNames(acc, r, p.command);
    } else {
      hide Clean, Conforms, At, CleanTree, AllConform, FindCommand;
      FindCommandSnoc(acc, c, p.command);
    }
  }

  lemma {:induction false} OtherName(c: Command, p: Path)
    ensures c.name != p.command ==> At(c, p) == None
  {}

  lemma {:induction false} SameCommandNames(d: seq<Command>, e: seq<Command>, name: string)
    requires |d| == |e| && forall k :: 0 <= k < |d| ==> d[k].name == e[k].name
    ensures FindCommand(d, name) == FindCommand(e, name)
  {}

  lemma {:induction false} FindCommandSnoc(d: seq<Command>, c: Command, name: string)
    ensures FindCommand(d + [c], name) ==
      if FindCommand(d, name) < |d| then FindCommand(d, name) else if c.name == name then |d| else |d| + 1
  {
    var e := d + [c];
    if FindCommand(d, name) < |d| {
      SameFirst(d, e, name);
    } else {
      assert e[|d|] == c;
      assert forall j :: 0 <= j < |d| ==> e[j].name != name;
    }
  }

  lemma {:induction false} MergePrefix(all: seq<Command>, n: nat, p: Path)
    requires n <= |all| && AllAgree(all) && forall i :: 0 <= i < |all| ==> Clean(all[i])
    ensures CleanTree(MergeAll(all[..n])) && AllConform(all, MergeAll(all[..n]))
    ensures TreeAt(MergeAll(all[..n]), p) == UnionAt(all[..n], p)
  {
    hide CleanTree, AllConform, At, Plus, Clean, Conforms, AllAgree, TreeAt, MergeInto;
    if n == 0 {
      NothingYet(all, p);
    } else {
      MergePrefix(all, n - 1, p);
      MembersConform(all, n - 1);
      assert all[..n] == all[..n - 1] + [all[n - 1]];
      MergeFromAppend([], all[..n - 1], [all[n - 1]]);
      assert [all[n - 1]][1..] == [];
      var acc := MergeAll(all[..n - 1]);
      assert MergeFrom(acc, [all[n - 1]]) == MergeInto(acc, all[n - 1]);
      assert all[..n][..n - 1] == all[..n - 1];
      MergeIntoIsUnion(all, acc, all[n - 1], p);
      MergeIntoClean(all, acc, all[n - 1]);
    }
  }

  lemma {:induction false} NothingYet(all: seq<Command>, p: Path)
    ensures CleanTree([]) && AllConform(all, []) && TreeAt([], p) == None
  {}

  /** The merged tree is the left-biased union of the inputs, with distinct names
      at every level. */
  lemma {:induction false} MergeIsLeftBiasedUnion(cs: seq<Command>, p: Path)
    requires AllAgree(cs) && forall i :: 0 <= i < |cs| ==> Clean(cs[i])
    ensures CleanTree(MergeAll(cs))
    ensures TreeAt(MergeAll(cs), p) == UnionAt(cs, p)
  {
    assert cs[..|cs|] == cs;
    MergePrefix(cs, |cs|, p);
  }

  // ----- reading the union -----

  function Text(e: Entry): string {
    match e
    case CommandEntry(d, _, _) => d
    case GroupEntry(d, _) => d
    case DefEntry(o) => o.description
  }

  function WithText(e: Entry, d: string): Entry {
    if e.DefEntry? then e else e.(description := d)
  }

  /** Paths of one name have one kind of entry. */
  ghost predicate OneKind(cs: seq<Command>, p: Path) {
    forall i, j :: 0 <= i < |cs| && 0 <= j < |cs| && At(cs[i], p).Some? && At(cs[j], p).Some? ==>
      (At(cs[i], p).value.GroupEntry? <==> At(cs[j], p).value.GroupEntry?)
  }

  lemma {:induction false} AgreeingIsOneKind(cs: seq<Command>, p: Path)
    requires AllAgree(cs)
    ensures OneKind(cs, p)
  {}

  /** The description the union gives: the first real one, else the placeholder. */
  function FirstText(cs: seq<Command>, p: Path): string {
    if cs == [] then PLACEHOLDER
    else if At(cs[0], p).Some? && Text(At(cs[0], p).value) != PLACEHOLDER then Text(At(cs[0], p).value)
    else FirstText(cs[1..], p)
  }

  lemma {:induction false} FirstTextSnoc(cs: seq<Command>, c: Command, p: Path)
    ensures FirstText(cs + [c], p) ==
      Described(FirstText(cs, p), if At(c, p).Some? then Text(At(c, p).value) else PLACEHOLDER)
  {
    hide At, Text;
    if cs == [] {
      assert cs + [c] == [c] && [c][1..] == [];
    } else {
      assert (cs + [c])[1..] == cs[1..] + [c];
      FirstTextSnoc(cs[1..], c, p);
    }
  }

  /** `i` is the first command to define `p`. */
  ghost predicate FirstAt(cs: seq<Command>, p: Path, i: nat)
  {
    i < |cs| && At(cs[i], p).Some? && forall j :: 0 <= j < i ==> At(cs[j], p).None?
  }

  lemma {:induction false} OneKindFront(front: seq<Command>, c: Command, p: Path)
    requires OneKind(front + [c], p)
    ensures OneKind(front, p)
  {
    var cs := front + [c];
    forall i, j | 0 <= i < |front| && 0 <= j < |front| && At(front[i], p).Some? && At(front[j], p).Some?
      ensures At(front[i], p).value.GroupEntry? <==> At(front[j], p).value.GroupEntry?
    {
      assert cs[i] == front[i] && cs[j] == front[j];
    }
  }

  lemma {:induction false} PlusNone(a: Option<Entry>, b: Option<Entry>)
    ensures Plus(a, b).None? <==> a.None? && b.None?
  {}

  lemma {:induction false} UnionIsFirst(cs: seq<Command>, p: Path)
    requires OneKind(cs, p)
    ensures UnionAt(cs, p).None? <==> forall i :: 0 <= i < |cs| ==> At(cs[i], p).None?
    ensures forall i: nat :: FirstAt(cs, p, i) ==>
          UnionAt(cs, p) == Some(WithText(At(cs[i], p).value, FirstText(cs, p)))
    decreases |cs|
  {
    if cs != [] {
      var front, c := cs[..|cs| - 1], cs[|cs| - 1];
      assert cs == front + [c];
      assert UnionAt(cs, p) == Plus(UnionAt(front, p), At(c, p));
      hide At, Plus, Text, WithText, FirstText, OneKind, UnionAt;
      OneKindFront(front, c, p);
      FirstTextSnoc(front, c, p);
      UnionIsFirst(front, p);
      PlusNone(UnionAt(front, p), At(c, p));
      forall i: nat | FirstAt(cs, p, i) ensures UnionAt(cs, p) == Some(WithText(At(cs[i], p).value, FirstText(cs, p))) {
        UnionStep(front, c, p, i);
      }
    }
  }

  lemma {:induction false} NoTextBefore(cs: seq<Command>, p: Path)
    requires forall j :: 0 <= j < |cs| ==> At(cs[j], p).None?
    ensures FirstText(cs, p) == PLACEHOLDER
  {
    if cs != [] { NoTextBefore(cs[1..], p); }
  }

  lemma {:induction false} UnionStep(front: seq<Command>, c: Command, p: Path, i: nat)
    requires OneKind(front + [c], p) && FirstAt(front + [c], p, i)
    requires UnionAt(front, p).None? <==> forall i :: 0 <= i < |front| ==> At(front[i], p).None?
    requires FirstAt(front, p, i) ==> UnionAt(front, p) == Some(WithText(At(front[i], p).value, FirstText(front, p)))
    requires FirstText(front + [c], p) ==
      Described(FirstText(front, p), if At(c, p).Some? then Text(At(c, p).value) else PLACEHOLDER)
    ensures Plus(UnionAt(front, p), At(c, p)) == Some(WithText(At((front + [c])[i], p).value, FirstText(front + [c],
        p)))
  {
    SameSort(c, p);
    var cs := front + [c];
    assert cs[|front|] == c && forall j :: 0 <= j < |front| ==> cs[j] == front[j];
    if i == |front| {
      NoTextBefore(front, p);
    } else {
      SameSort(front[i], p);
      assert FirstAt(front, p, i);
    }
  }

  /** A path of length one denotes a command, a longer one does not. */
  lemma {:induction false} SameSort(c: Command, p: Path)
    ensures At(c, p).Some? ==> (At(c, p).value.CommandEntry? <==> p.Root?)
  {}

  /** No path is lost or invented; each keeps its first definition; commands and
      subgroups carry the first description that is not the placeholder. */
  lemma {:induction false} MergedPathsExactly(cs: seq<Command>, p: Path)
    requires AllAgree(cs) && forall i :: 0 <= i < |cs| ==> Clean(cs[i])
    ensures TreeAt(MergeAll(cs), p).Some? <==> exists i :: 0 <= i < |cs| && At(cs[i], p).Some?
    ensures forall i: nat :: FirstAt(cs, p, i) ==>
          TreeAt(MergeAll(cs), p) == Some(WithText(At(cs[i], p).value, FirstText(cs, p)))
  {
    MergeIsLeftBiasedUnion(cs, p);
    AgreeingIsOneKind(cs, p);
    UnionIsFirst(cs, p);
  }

  /** Agreement is needed: a subcommand in one script hides the leaves that
      another script puts in a subgroup of the same name. */
  lemma {:induction false} KindConflictLosesPath()
    ensures exists a: Command, b: Command, p: Path ::
          Clean(a) && Clean(b) && At(b, p).Some? && TreeAt(MergeAll([a, b]), p).None?
  {
    var leaf := Opt("l", "", SubCommand, None, 0);
    var x, y := Opt("x", "", SubCommand, None, 0), Opt("x", "", SubCommandGroup, Some([leaf]), 0);
    var a, b := Command("c", "", [x], 0), Command("c", "", [y], 0);
    var p := Leaf("c", "x", "l");
    assert [a, b][1..] == [b] && [b][1..] == [];
    assert MergeInto([], a) == [a] && MergeInto([a], b) == [a][0 := Merged(a, b)];
    assert MergeOptions([x], [y]) == [x] by { assert [y][1..] == []; }
    assert Merged(a, b) == a;
    assert MergeAll([a, b]) == MergeFrom([a], [b]) == MergeFrom([a], []);
    assert Clean(a) && Clean(b);
    assert Leaves(y)[0] == leaf && Find(Leaves(y), "l") == 0;
    assert At(b, p).Some? && TreeAt([a], p).None?;
  }
}
