/**
 Which paths survive merging when scripts disagree on kinds: the exact condition,
 per path, for any list of commands with distinct option names.
 */
module CommandConflicts {
  import opened Common
  import opened CommandMerge
  import opened CommandUnion

  /** The options a merge takes from a source command: those before the first
      plain one. */
  function NestPart(s: seq<Opt>): seq<Opt> {
    if s == [] || s[0].kind.Plain? then [] else [s[0]] + NestPart(s[1..])
  }

  /** Whether the first option called `child` is a subgroup. */
  function ChildKind(s: seq<Opt>, child: string): Option<bool> {
    var i := Find(s, child);
    if i < |s| then Some(s[i].kind.SubCommandGroup?) else None
  }

  predicate Named(s: seq<Opt>, name: string) { Find(s, name) < |s| }

  predicate HasLeaf(s: seq<Opt>, child: string, leaf: string) {
    ChildKind(s, child) == Some(true) && Named(Leaves(s[Find(s, child)]), leaf)
  }

  /** What a command offers to a merge. */
  predicate Offers(c: Command, p: Path) {
    c.name == p.command &&
    match p
    case Root(_) => true
    case Child(_, child) => Named(NestPart(c.options), child)
    case Leaf(_, child, leaf) => HasLeaf(NestPart(c.options), child, leaf)
  }

  // ----- one option -----

  lemma {:induction false} AddMissingNames(d: seq<Opt>, s: seq<Opt>, name: string)
    ensures Named(AddMissing(d, s), name) <==> Named(d, name) || Named(s, name)
    decreases |s|
  {
    if s != [] {
      var e := if Named(d, s[0].name) then d else d + [s[0]];
      FindSnoc(d, s[0], name);
      assert Named(s, name) <==> s[0].name == name || Named(s[1..], name);
      AddMissingNames(e, s[1..], name);
    }
  }

  lemma {:induction false} SubgroupNames(d: Opt, s: Opt, name: string)
    ensures Named(Leaves(Subgroups(d, s)), name) <==> Named(Leaves(d), name) || Named(Leaves(s), name)
  {
    AddMissingNames(Leaves(d), Leaves(s), name);
  }

  lemma {:induction false} OptionKind(d: seq<Opt>, o: Opt, child: string)
    ensures ChildKind(MergeOption(d, o), child) ==
      if Named(d, child) then ChildKind(d, child) else if o.name == child then Some(o.kind.SubCommandGroup?) else None
  {
    var e := MergeOption(d, o);
    FindSnoc(d, o, child);
    if Named(d, o.name) { SameNames(d, e, child); }
  }

  lemma {:induction false} OptionLeaf(d: seq<Opt>, o: Opt, child: string, leaf: string)
    ensures HasLeaf(MergeOption(d, o), child, leaf) <==>
      && ChildKind(MergeOption(d, o), child) == Some(true)
      && (HasLeaf(d, child, leaf) || (o.name == child && o.kind.SubCommandGroup? && Named(Leaves(o), leaf)))
  {
    var e, i := MergeOption(d, o), Find(d, o.name);
    if i == |d| {
      FindSnoc(d, o, child);
    } else {
      SubgroupNames(d[i], o, leaf);
      SameNames(d, e, child);
    }
  }

  // ----- option lists -----

  lemma {:induction false} FindCons(o: Opt, u: seq<Opt>, name: string)
    ensures Find([o] + u, name) == if o.name == name then 0 else 1 + Find(u, name)
  {
    assert ([o] + u)[1..] == u;
  }

  lemma {:induction false} ConsKind(o: Opt, u: seq<Opt>, child: string, leaf: string)
    ensures ChildKind([o] + u, child) == if o.name == child then Some(o.kind.SubCommandGroup?) else ChildKind(u, child)
    ensures HasLeaf([o] + u, child, leaf) <==>
      if o.name == child then o.kind.SubCommandGroup? && Named(Leaves(o), leaf) else HasLeaf(u, child, leaf)
  {
    FindCons(o, u, child);
    var t, i := [o] + u, Find(u, child);
    if o.name == child {
      assert t[0] == o;
    } else if i < |u| {
      assert t[1 + i] == u[i];
    }
  }

  lemma {:induction false} TailIsDistinct(s: seq<Opt>, child: string)
    requires DistinctNames(s) && s != []
    ensures DistinctNames(s[1..])
    ensures s[0].name == child ==> !Named(NestPart(s[1..]), child)
  {
    PartIsPrefix(s[1..]);
    hide NestPart, Find;
    assert forall k :: 0 <= k < |NestPart(s[1..])| ==> NestPart(s[1..])[k] == s[k + 1];
  }

  lemma {:induction false} HeadOfPart(s: seq<Opt>, child: string, leaf: string)
    requires s != [] && !s[0].kind.Plain?
    ensures var t, u, o := NestPart(s), NestPart(s[1..]), s[0];
      && ChildKind(t, child) == (if o.name == child then Some(o.kind.SubCommandGroup?) else ChildKind(u, child))
      && (HasLeaf(t, child, leaf) <==>
            if o.name == child then o.kind.SubCommandGroup? && Named(Leaves(o), leaf) else HasLeaf(u, child, leaf))
  {
    assert NestPart(s) == [s[0]] + NestPart(s[1..]);
    ConsKind(s[0], NestPart(s[1..]), child, leaf);
    hide NestPart, HasLeaf, ChildKind, Named;
  }

  lemma {:induction false} PartIsPrefix(s: seq<Opt>)
    ensures NestPart(s) <= s
    ensures !HasPlain(s) ==> NestPart(s) == s
  {
    if s != [] && !s[0].kind.Plain? {
      PartIsPrefix(s[1..]);
      if !HasPlain(s) {
        assert forall k :: 0 <= k < |s[1..]| ==> s[1..][k] == s[k + 1];
      }
    }
  }

  lemma {:induction false} OptionsPresence(d: seq<Opt>, s: seq<Opt>, child: string, leaf: string)
    requires DistinctNames(s)
    ensures var r, t := MergeOptions(d, s), NestPart(s);
      && ChildKind(r, child) == (if Named(d, child) then ChildKind(d, child) else ChildKind(t, child))
      && (HasLeaf(r, child, leaf) <==>
        ChildKind(r, child) == Some(true) && (HasLeaf(d, child, leaf) || HasLeaf(t, child, leaf)))
    decreases |s|
  {
    if s != [] && !s[0].kind.Plain? {
      TailIsDistinct(s, child);
      HeadOfPart(s, child, leaf);
      OptionKind(d, s[0], child);
      OptionLeaf(d, s[0], child, leaf);
      hide NestPart, MergeOption, DistinctNames;
      OptionsPresence(MergeOption(d, s[0]), s[1..], child, leaf);
    }
  }

  lemma {:induction false} StillNested(d: Command, s: Command)
    ensures HasPlain(Merged(d, s).options) <==> HasPlain(d.options)
  {
    MergedGrows(d, s);
    var r := Merged(d, s);
    if HasPlain(d.options) {
      assert r.options == d.options;
    } else {
      assert forall i :: 0 <= i < |d.options| ==> r.options[i].kind == d.options[i].kind;
    }
  }

  // ----- lists of commands -----

  /** The first command of this name is invoked directly. */
  predicate Closed(cs: seq<Command>, name: string) {
    var i := FindCommand(cs, name);
    i < |cs| && HasPlain(cs[i].options)
  }

  /** Whether the first definition of a child is a subgroup. */
  function FirstKind(cs: seq<Command>, name: string, child: string): Option<bool> {
    if cs == [] then None
    else
      var r, c := FirstKind(cs[..|cs| - 1], name, child), cs[|cs| - 1];
      if r.Some? then r else if c.name == name then ChildKind(NestPart(c.options), child) else None
  }

  predicate OffersLeaf(cs: seq<Command>, name: string, child: string, leaf: string) {
    exists i :: 0 <= i < |cs| && cs[i].name == name && HasLeaf(NestPart(cs[i].options), child, leaf)
  }

  lemma {:induction false} OffersLeafSnoc(cs: seq<Command>, c: Command, name: string, child: string, leaf: string)
    ensures OffersLeaf(cs + [c], name, child, leaf) <==>
      OffersLeaf(cs, name, child, leaf) || (c.name == name && HasLeaf(NestPart(c.options), child, leaf))
  {
    hide HasLeaf, NestPart;
    var ds := cs + [c];
    assert ds[|cs|] == c && forall i :: 0 <= i < |cs| ==> ds[i] == cs[i];
    if OffersLeaf(cs, name, child, leaf) {
      var i :| 0 <= i < |cs| && cs[i].name == name && HasLeaf(NestPart(cs[i].options), child, leaf);
      assert ds[i].name == name;
    }
  }

  lemma {:induction false} LeafHasKind(cs: seq<Command>, name: string, child: string, leaf: string)
    ensures OffersLeaf(cs, name, child, leaf) ==> FirstKind(cs, name, child).Some?
    decreases |cs|
  {
    if cs != [] {
      assert cs == cs[..|cs| - 1] + [cs[|cs| - 1]];
      LeafHasKind(cs[..|cs| - 1], name, child, leaf);
      OffersLeafSnoc(cs[..|cs| - 1], cs[|cs| - 1], name, child, leaf);
      hide NestPart, OffersLeaf;
    }
  }

  /** The merged command of this name, against the list it was merged from. */
  ghost predicate Represents(acc: seq<Command>, cs: seq<Command>, name: string, child: string, leaf: string) {
    var i, f := FindCommand(acc, name), FindCommand(cs, name);
    && (i < |acc| <==> f < |cs|)
    && (i == |acc| ==> FirstKind(cs, name, child).None? && !OffersLeaf(cs, name, child, leaf))
    && (i < |acc| && f < |cs| ==> (HasPlain(acc[i].options) <==> HasPlain(cs[f].options)))
    && (i < |acc| && !Closed(cs, name) ==>
          && ChildKind(acc[i].options, child) == FirstKind(cs, name, child)
          && (HasLeaf(acc[i].options, child, leaf) <==>
                FirstKind(cs, name, child) == Some(true) && OffersLeaf(cs, name, child, leaf)))
  }

  /** Merging one more command into the first of its name. */
  lemma {:induction false} MergedPresence(d: Command, c: Command, child: string, leaf: string)
    requires DistinctNames(c.options) && !HasPlain(d.options)
    ensures var r, t := Merged(d, c).options, NestPart(c.options);
      && ChildKind(r, child) == (if Named(d.options, child) then ChildKind(d.options, child) else ChildKind(t, child))
      && (HasLeaf(r, child, leaf) <==>
        ChildKind(r, child) == Some(true) && (HasLeaf(d.options, child, leaf) || HasLeaf(t, child, leaf)))
  {
    OptionsPresence(d.options, c.options, child, leaf);
  }

  /** What one more command adds to the list's side. */
  lemma {:induction false} ListStep(cs: seq<Command>, c: Command, name: string, child: string, leaf: string)
    ensures FirstKind(cs + [c], name, child) == var k := FirstKind(cs, name, child);
      if k.Some? then k else if c.name == name then ChildKind(NestPart(c.options), child) else None
    ensures OffersLeaf(cs + [c], name, child, leaf) <==>
      OffersLeaf(cs, name, child, leaf) || (c.name == name && HasLeaf(NestPart(c.options), child, leaf))
    ensures FindCommand(cs, name) < |cs| ==> FindCommand(cs + [c], name) == FindCommand(cs, name)
    ensures FindCommand(cs, name) == |cs| ==> FindCommand(cs + [c], name) == if c.name == name then |cs| else |cs| + 1
    ensures FindCommand(cs, name) < |cs| ==> (Closed(cs + [c], name) <==> Closed(cs, name))
  {
    var ds := cs + [c];
    assert ds[..|cs|] == cs && ds[|cs|] == c;
    FindCommandSnoc(cs, c, name);
    OffersLeafSnoc(cs, c, name, child, leaf);
    hide NestPart, HasLeaf, HasPlain;
  }

  lemma {:induction false} RepresentsOther(acc: seq<Command>, cs: seq<Command>, c: Command, name: string,
      child: string, leaf: string)
    requires Represents(acc, cs, name, child, leaf) && c.name != name
    ensures Represents(MergeInto(acc, c), cs + [c], name, child, leaf)
  {
    var r, i := MergeInto(acc, c), FindCommand(acc, c.name);
    ListStep(cs, c, name, child, leaf);
    if i < |acc| {
      MergedName(acc[i], c);
      SameCommandNames(acc, r, name);
    } else {
      FindCommandSnoc(acc, c, name);
    }
    hide Merged, FirstKind, OffersLeaf, HasLeaf, NestPart, ChildKind, HasPlain, FindCommand;
  }

  lemma {:induction false} RepresentsNew(acc: seq<Command>, cs: seq<Command>, c: Command, child: string, leaf: string)
    requires Represents(acc, cs, c.name, child, leaf) && FindCommand(acc, c.name) == |acc|
    ensures Represents(MergeInto(acc, c), cs + [c], c.name, child, leaf)
  {
    ListStep(cs, c, c.name, child, leaf);
    FindCommandSnoc(acc, c, c.name);
    PartIsPrefix(c.options);
    hide FirstKind, OffersLeaf, NestPart, HasPlain, FindCommand;
  }

  lemma {:induction false} RepresentsMerged(acc: seq<Command>, cs: seq<Command>, c: Command, child: string,
      leaf: string)
    requires DistinctNames(c.options) && Represents(acc, cs, c.name, child, leaf) && FindCommand(acc, c.name) < |acc|
    ensures Represents(MergeInto(acc, c), cs + [c], c.name, child, leaf)
  {
    var r, i := MergeInto(acc, c), FindCommand(acc, c.name);
    ListStep(cs, c, c.name, child, leaf);
    LeafHasKind(cs, c.name, child, leaf);
    MergedName(acc[i], c);
    StillNested(acc[i], c);
    SameCommandNames(acc, r, c.name);
    var d, k := acc[i].options, FirstKind(cs, c.name, child);
    if !HasPlain(d) {
      MergedPresence(acc[i], c, child, leaf);
      assert Named(d, child) <==> ChildKind(d, child).Some?;
    }
    hide Merged, FirstKind, OffersLeaf, HasLeaf, NestPart, DistinctNames, HasPlain, FindCommand, Find, Named, ChildKind;
  }

  lemma {:induction false} RepresentsStep(acc: seq<Command>, cs: seq<Command>, c: Command, name: string,
      child: string, leaf: string)
    requires DistinctNames(c.options) && Represents(acc, cs, name, child, leaf)
    ensures Represents(MergeInto(acc, c), cs + [c], name, child, leaf)
  {
    if c.name != name {
      RepresentsOther(acc, cs, c, name, child, leaf);
    } else if FindCommand(acc, name) == |acc| {
      RepresentsNew(acc, cs, c, child, leaf);
    } else {
      RepresentsMerged(acc, cs, c, child, leaf);
    }
  }

  lemma {:induction false} MergeRepresents(cs: seq<Command>, name: string, child: string, leaf: string)
    requires forall i :: 0 <= i < |cs| ==> DistinctNames(cs[i].options)
    ensures Represents(MergeAll(cs), cs, name, child, leaf)
    decreases |cs|
  {
    if cs != [] {
      var front, c := cs[..|cs| - 1], cs[|cs| - 1];
      assert cs == front + [c];
      MergeRepresents(front, name, child, leaf);
      MergeFromAppend([], front, [c]);
      assert [c][1..] == [];
      assert MergeFrom(MergeAll(front), [c]) == MergeFrom(MergeInto(MergeAll(front), c), []);
      hide Represents, DistinctNames, MergeInto;
      RepresentsStep(MergeAll(front), front, c, name, child, leaf);
    }
  }

  // ----- the theorem -----

  /** Path `p` is hidden by a conflict of kinds: the first command of its name is
      invoked directly, or the first definition of its subgroup is a subcommand. */
  predicate Hidden(cs: seq<Command>, p: Path) {
    match p
    case Root(_) => false
    case Child(n, _) => Closed(cs, n)
    case Leaf(n, child, _) => Closed(cs, n) || FirstKind(cs, n, child) == Some(false)
  }

  predicate Offered(cs: seq<Command>, p: Path) {
    exists i :: 0 <= i < |cs| && Offers(cs[i], p)
  }

  lemma {:induction false} KindIsOffered(cs: seq<Command>, name: string, child: string)
    ensures FirstKind(cs, name, child).Some? <==> Offered(cs, Child(name, child))
    decreases |cs|
  {
    hide NestPart;
    var p := Child(name, child);
    if cs != [] {
      var front, c := cs[..|cs| - 1], cs[|cs| - 1];
      KindIsOffered(front, name, child);
      if Offered(front, p) {
        var i :| 0 <= i < |front| && Offers(front[i], p);
        assert Offers(cs[i], p);
      }
      if Offers(c, p) {
        assert Offers(cs[|cs| - 1], p);
      }
    }
  }

  /** A merged tree has exactly the paths that some command offers and no conflict
      of kinds hides. */
  lemma {:induction false} PathsSurviveExactly(cs: seq<Command>, p: Path)
    requires forall i :: 0 <= i < |cs| ==> DistinctNames(cs[i].options)
    ensures TreeAt(MergeAll(cs), p).Some? <==> Offered(cs, p) && !Hidden(cs, p)
  {
    var child, leaf := if p.Root? then "" else p.child, if p.Leaf? then p.leaf else "";
    MergeRepresents(cs, p.command, child, leaf);
    KindIsOffered(cs, p.command, child);
    RootOffered(cs, p.command);
    LeafOffered(cs, p.command, child, leaf);
    hide MergeAll, FirstKind, Offers, OffersLeaf;
  }

  lemma {:induction false} RootOffered(cs: seq<Command>, name: string)
    ensures Offered(cs, Root(name)) <==> FindCommand(cs, name) < |cs|
  {
    var i := FindCommand(cs, name);
    if i < |cs| { assert Offers(cs[i], Root(name)); }
  }

  lemma {:induction false} LeafOffered(cs: seq<Command>, name: string, child: string, leaf: string)
    ensures Offered(cs, Leaf(name, child, leaf)) <==> OffersLeaf(cs, name, child, leaf)
  {
    hide HasLeaf, NestPart;
    if OffersLeaf(cs, name, child, leaf) {
      var i :| 0 <= i < |cs| && cs[i].name == name && HasLeaf(NestPart(cs[i].options), child, leaf);
      assert Offers(cs[i], Leaf(name, child, leaf));
    }
  }

  /** For a command that is not invoked directly, what it offers is what it defines. */
  lemma {:induction false} OffersWhatItDefines(c: Command, p: Path)
    requires !HasPlain(c.options)
    ensures Offers(c, p) <==> At(c, p).Some?
  {
    PartIsPrefix(c.options);
  }

  /** The first command is invoked directly and the second nests something, or the
      first has a subcommand where the second has a subgroup with a leaf. */
  ghost predicate Conflict(a: Command, b: Command) {
    && !HasPlain(b.options)
    && if HasPlain(a.options) then b.options != [] else KindsClash(a.options, b.options)
  }

  ghost predicate KindsClash(s: seq<Opt>, t: seq<Opt>) {
    exists i, j ::
      && 0 <= i < |s| && 0 <= j < |t| && s[i].name == t[j].name
      && !s[i].kind.SubCommandGroup? && t[j].kind.SubCommandGroup? && Leaves(t[j]) != []
  }

  lemma {:induction false} PairPath(a: Command, b: Command, p: Path)
    requires a.name == b.name && DistinctNames(a.options) && DistinctNames(b.options) && !HasPlain(b.options)
    ensures At(b, p).Some? ==> (TreeAt(MergeAll([a, b]), p).None? <==>
      && !p.Root?
      && (HasPlain(a.options) || (p.Leaf? && ChildKind(a.options, p.child) == Some(false))))
  {
    var cs := [a, b];
    PathsSurviveExactly(cs, p);
    OffersWhatItDefines(b, p);
    if At(b, p).Some? {
      assert Offers(cs[1], p);
      assert FindCommand(cs, p.command) == 0;
      PartIsPrefix(a.options);
      assert cs[..1] == [a] && [a][..0] == [];
      assert !p.Root? ==> FirstKind([a], p.command, p.child) == ChildKind(NestPart(a.options), p.child);
      if p.Leaf? {
        assert FirstKind(cs, p.command, p.child) ==
          if FirstKind([a], p.command, p.child).Some? then FirstKind([a], p.command, p.child)
            else ChildKind(NestPart(b.options), p.child);
      }
    }
  }

  /** Of two commands of one name, the second loses a path exactly on a conflict. */
  lemma {:induction false} PairLosesExactly(a: Command, b: Command)
    requires a.name == b.name && DistinctNames(a.options) && DistinctNames(b.options)
    ensures (exists p :: At(b, p).Some? && TreeAt(MergeAll([a, b]), p).None?) <==> Conflict(a, b)
  {
    if Conflict(a, b) {
      var p := LostPath(a, b);
      PairPath(a, b, p);
    } else {
      forall p | At(b, p).Some? ensures TreeAt(MergeAll([a, b]), p).Some? {
        if HasPlain(b.options) {
          PathsSurviveExactly([a, b], p);
          assert Offers([a, b][1], p);
        } else {
          PairPath(a, b, p);
          KeptPath(a, b, p);
        }
      }
    }
  }

  lemma {:induction false} KeptPath(a: Command, b: Command, p: Path)
    requires !Conflict(a, b) && At(b, p).Some? && a.name == b.name && !HasPlain(b.options)
    ensures p.Root? || (!HasPlain(a.options) && (p.Leaf? ==> ChildKind(a.options, p.child) != Some(false)))
  {
    if !p.Root? {
      assert b.options != [];
      if p.Leaf? && !HasPlain(a.options) {
        var i, j := Find(a.options, p.child), Find(b.options, p.child);
        assert Leaves(b.options[j]) != [];
      }
    }
  }

  lemma {:induction false} LostPath(a: Command, b: Command) returns (p: Path)
    requires a.name == b.name && DistinctNames(a.options) && DistinctNames(b.options) && Conflict(a, b)
    ensures At(b, p).Some? && !p.Root?
    ensures HasPlain(a.options) || (p.Leaf? && ChildKind(a.options, p.child) == Some(false))
  {
    if HasPlain(a.options) {
      p := Child(b.name, b.options[0].name);
    } else {
      var i, j :| 0 <= i < |a.options| && 0 <= j < |b.options| && a.options[i].name == b.options[j].name
        && !a.options[i].kind.SubCommandGroup? && b.options[j].kind.SubCommandGroup? && Leaves(b.options[j]) != [];
      assert Find(a.options, a.options[i].name) == i && Find(b.options, b.options[j].name) == j;
      var l := Leaves(b.options[j])[0].name;
      p := Leaf(b.name, b.options[j].name, l);
      assert Find(Leaves(b.options[j]), l) == 0;
    }
  }
}
