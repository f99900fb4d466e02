/**
 Merging the command trees of several scripts
 (cmd/scheduler/src/command_manager.rs): commands of the same name are folded into
 the first one, subgroups of the same name into the first one, and a placeholder
 description yields to the first real one.
 */
module CommandMerge {
  import opened Common

  const PLACEHOLDER := "no description"

  datatype Kind = SubCommand | SubCommandGroup | Plain(tag: nat)

  /** `rest` stands for the fields merging never looks at. */
  datatype Opt = Opt(name: string, description: string, kind: Kind, options: Option<seq<Opt>>, rest: nat)

  datatype Command = Command(name: string, description: string, options: seq<Opt>, rest: nat)

  // ----- the functions the loops compute -----

  /** The first option called `name`, or the length if there is none. */
  function Find(s: seq<Opt>, name: string): (i: nat)
    ensures i <= |s| && (i < |s| ==> s[i].name == name)
    ensures forall j :: 0 <= j < i ==> s[j].name != name
  {
    if s == [] || s[0].name == name then 0 else 1 + Find(s[1..], name)
  }

  function FindCommand(s: seq<Command>, name: string): (i: nat)
    ensures i <= |s| && (i < |s| ==> s[i].name == name)
    ensures forall j :: 0 <= j < i ==> s[j].name != name
  {
    if s == [] || s[0].name == name then 0 else 1 + FindCommand(s[1..], name)
  }

  predicate HasPlain(s: seq<Opt>) {
    exists i :: 0 <= i < |s| && s[i].kind.Plain?
  }

  function Described(dst: string, src: string): string {
    if dst == PLACEHOLDER && src != PLACEHOLDER then src else dst
  }

  /** Appends the options of `s` whose name is not taken. */
  function AddMissing(d: seq<Opt>, s: seq<Opt>): seq<Opt>
    decreases |s|
  {
    if s == [] then d
    else AddMissing(if Find(d, s[0].name) < |d| then d else d + [s[0]], s[1..])
  }

  function Leaves(o: Opt): seq<Opt> {
    if o.options.Some? then o.options.value else []
  }

  /** A missing option list is replaced by the whole source list. */
  function MergeLeaves(d: Option<seq<Opt>>, s: seq<Opt>): Option<seq<Opt>> {
    if s == [] then d else if d.None? then Some(s) else Some(AddMissing(d.value, s))
  }

  function Subgroups(dst: Opt, src: Opt): Opt {
    dst.(description := Described(dst.description, src.description), options := MergeLeaves(dst.options, Leaves(src)))
  }

  /** One option of the source command. */
  function MergeOption(d: seq<Opt>, o: Opt): seq<Opt> {
    var i := Find(d, o.name);
    if i == |d| then d + [o]
    else if d[i].kind.SubCommandGroup? && o.kind.SubCommandGroup? then d[i := Subgroups(d[i], o)]
    else d
  }

  function MergeOptions(d: seq<Opt>, s: seq<Opt>): seq<Opt>
    decreases |s|
  {
    if s == [] || s[0].kind.Plain? then d else MergeOptions(MergeOption(d, s[0]), s[1..])
  }

  function Merged(dst: Command, src: Command): Command {
    dst.(description := Described(dst.description, src.description),
         options := if HasPlain(dst.options) then dst.options else MergeOptions(dst.options, src.options))
  }

  function MergeInto(acc: seq<Command>, c: Command): seq<Command> {
    var i := FindCommand(acc, c.name);
    if i == |acc| then acc + [c] else acc[i := Merged(acc[i], c)]
  }

  function MergeFrom(acc: seq<Command>, cs: seq<Command>): seq<Command>
    decreases |cs|
  {
    if cs == [] then acc else MergeFrom(MergeInto(acc, cs[0]), cs[1..])
  }

  function MergeAll(cs: seq<Command>): seq<Command> { MergeFrom([], cs) }

  function Flatten(scripts: seq<seq<Command>>): seq<Command> {
    if scripts == [] then [] else scripts[0] + Flatten(scripts[1..])
  }

  // ----- the loops -----

  method FindName(s: seq<Opt>, name: string) returns (i: nat)
    ensures i == Find(s, name)
  {
    i := 0;
    while i < |s| && s[i].name != name
      invariant i <= |s| && forall j :: 0 <= j < i ==> s[j].name != name
    {
      i := i + 1;
    }
  }

  /** Once every name of `s` is taken, nothing is added. */
  lemma {:induction false} NothingMissing(d: seq<Opt>, s: seq<Opt>)
    requires forall k :: 0 <= k < |s| ==> Find(d, s[k].name) < |d|
    ensures AddMissing(d, s) == d
    decreases |s|
  {
    if s != [] {
      NothingMissing(d, s[1..]);
    }
  }

  lemma {:induction false} OwnNames(s: seq<Opt>)
    ensures forall k :: 0 <= k < |s| ==> Find(s, s[k].name) < |s|
  {}

  lemma {:induction false} LeavesStep(d: Option<seq<Opt>>, s: seq<Opt>)
    requires s != []
    ensures d.None? ==> MergeLeaves(d, s) == MergeLeaves(Some(s), s[1..])
    ensures d.Some? && Find(d.value, s[0].name) < |d.value| ==> MergeLeaves(d, s) == MergeLeaves(d, s[1..])
    ensures d.Some? && Find(d.value, s[0].name) == |d.value| ==>
          MergeLeaves(d, s) == MergeLeaves(Some(d.value + [s[0]]), s[1..])
  {
    OwnNames(s);
    NothingMissing(s, s[1..]);
  }

  /** `merge_subgroups`.  While the destination has no option list the loop
      installs a copy of the whole source list, and then finds every name taken. */
  method MergeSubgroups(dst: Opt, src: Opt) returns (r: Opt)
    ensures r == Subgroups(dst, src)
  {
    r := dst;
    if r.description == PLACEHOLDER && src.description != PLACEHOLDER {
      r := r.(description := src.description);
    }
    var opts := if src.options.Some? then src.options.value else [];
    assert opts[0..] == opts;
    for i := 0 to |opts|
      invariant r == dst.(description := Described(dst.description, src.description), options := r.options)
      invariant r.options.None? ==> i == 0
      invariant MergeLeaves(dst.options, opts) == MergeLeaves(r.options, opts[i..])
    {
      assert opts[i..][0] == opts[i] && opts[i..][1..] == opts[i + 1..];
      LeavesStep(r.options, opts[i..]);
      if r.options.Some? {
        var at := FindName(r.options.value, opts[i].name);
        if at < |r.options.value| {
          continue;
        }
        r := r.(options := Some(r.options.value + [opts[i]]));
      } else {
        r := r.(options := src.options);
      }
    }
  }

  /** `merge_command`. */
  method MergeCommand(dst: Command, src: Command) returns (r: Command)
    ensures r == Merged(dst, src)
  {
    r := dst;
    if r.description == PLACEHOLDER && src.description != PLACEHOLDER {
      r := r.(description := src.description);
    }
    for i := 0 to |r.options|
      invariant forall j :: 0 <= j < i ==> !r.options[j].kind.Plain?
    {
      if r.options[i].kind.Plain? {
        return;
      }
    }
    assert src.options[0..] == src.options;
    for i := 0 to |src.options|
      invariant r == dst.(description := Described(dst.description, src.description), options := r.options)
      invariant MergeOptions(dst.options, src.options) == MergeOptions(r.options, src.options[i..])
    {
      var opt := src.options[i];
      assert src.options[i..][0] == opt && src.options[i..][1..] == src.options[i + 1..];
      if opt.kind.Plain? {
        return;
      }
      var at := FindName(r.options, opt.name);
      if at < |r.options| {
        if r.options[at].kind == SubCommandGroup && opt.kind == SubCommandGroup {
          var merged := MergeSubgroups(r.options[at], opt);
          r := r.(options := r.options[at := merged]);
        } else {
          continue;
        }
      } else {
        r := r.(options := r.options + [opt]);
      }
    }
  }

  lemma {:induction false} MergeFromAppend(acc: seq<Command>, a: seq<Command>, b: seq<Command>)
    ensures MergeFrom(acc, a + b) == MergeFrom(MergeFrom(acc, a), b)
    decreases |a|
  {
    if a == [] {
      assert a + b == b;
    } else {
      assert (a + b)[1..] == a[1..] + b;
      MergeFromAppend(MergeInto(acc, a[0]), a[1..], b);
    }
  }

  lemma {:induction false} FlattenSnoc(a: seq<seq<Command>>, x: seq<Command>)
    ensures Flatten(a + [x]) == Flatten(a) + x
  {
    if a == [] {
      assert a + [x] == [x] && [x][1..] == [];
    } else {
      assert (a + [x])[1..] == a[1..] + [x];
      FlattenSnoc(a[1..], x);
    }
  }

  /** One command of one script. */
  method AddCommand(acc: seq<Command>, c: Command) returns (r: seq<Command>)
    ensures r == MergeInto(acc, c)
  {
    var i := 0;
    while i < |acc| && acc[i].name != c.name
      invariant i <= |acc| && forall j :: 0 <= j < i ==> acc[j].name != c.name
    {
      i := i + 1;
    }
    if i < |acc| {
      var merged := MergeCommand(acc[i], c);
      r := acc[i := merged];
    } else {
      r := acc + [c];
    }
  }

  /** `merge_script_commands`. */
  method MergeScriptCommands(scripts: seq<seq<Command>>) returns (result: seq<Command>)
    ensures result == MergeAll(Flatten(scripts))
  {
    result := [];
    for i := 0 to |scripts|
      invariant result == MergeAll(Flatten(scripts[..i]))
    {
      ghost var before := result;
      assert scripts[i][0..] == scripts[i];
      for j := 0 to |scripts[i]|
        invariant MergeFrom(before, scripts[i]) == MergeFrom(result, scripts[i][j..])
      {
        assert scripts[i][j..][1..] == scripts[i][j + 1..];
        result := AddCommand(result, scripts[i][j]);
      }
      assert scripts[..i + 1] == scripts[..i] + [scripts[i]];
      FlattenSnoc(scripts[..i], scripts[i]);
      MergeFromAppend([], Flatten(scripts[..i]), scripts[i]);
    }
    assert scripts[..|scripts|] == scripts;
  }

  // ----- absorption -----

  ghost predicate AbsorbsText(d: string, s: string) { d != PLACEHOLDER || s == PLACEHOLDER }

  ghost predicate AbsorbsGroup(d: Opt, s: Opt) {
    && AbsorbsText(d.description, s.description)
    && (Leaves(s) != [] ==> d.options.Some?)
    && forall k :: 0 <= k < |Leaves(s)| ==> Find(Leaves(d), Leaves(s)[k].name) < |Leaves(d)|
  }

  /** `d` already holds whatever merging option `o` could add. */
  ghost predicate AbsorbsOption(d: seq<Opt>, o: Opt) {
    var i := Find(d, o.name);
    i < |d| && (d[i].kind.SubCommandGroup? && o.kind.SubCommandGroup? ==> AbsorbsGroup(d[i], o))
  }

  ghost predicate NoPlain(s: seq<Opt>, n: nat)
    requires n <= |s|
  {
    forall k :: 0 <= k < n ==> !s[k].kind.Plain?
  }

  ghost predicate AbsorbsOptions(d: seq<Opt>, s: seq<Opt>) {
    forall k {:trigger s[k]} :: 0 <= k < |s| && NoPlain(s, k + 1) ==> AbsorbsOption(d, s[k])
  }

  ghost predicate Absorbs(d: Command, s: Command) {
    && AbsorbsText(d.description, s.description)
    && (HasPlain(d.options) || AbsorbsOptions(d.options, s.options))
  }

  ghost predicate AbsorbedBy(acc: seq<Command>, c: Command) {
    var i := FindCommand(acc, c.name);
    i < |acc| && Absorbs(acc[i], c)
  }

  // What merging leaves in place: positions, names and kinds stay, descriptions
  // only leave the placeholder, option lists only grow at the end.

  ghost predicate GroupGrows(a: Opt, b: Opt) {
    && a.name == b.name && a.kind == b.kind
    && (a.description == b.description || a.description == PLACEHOLDER)
    && (a.options.Some? ==> b.options.Some? && a.options.value <= b.options.value)
  }

  ghost predicate OptionsGrow(a: seq<Opt>, b: seq<Opt>) {
    && |a| <= |b|
    && (forall i :: 0 <= i < |a| ==> GroupGrows(a[i], b[i]))
    && (forall i :: |a| <= i < |b| ==> !b[i].kind.Plain?)
  }

  ghost predicate Grows(a: Command, b: Command) {
    && a.name == b.name
    && (a.description == b.description || a.description == PLACEHOLDER)
    && OptionsGrow(a.options, b.options)
  }

  lemma {:induction false} FindPrefix(a: seq<Opt>, b: seq<Opt>, name: string)
    requires |a| <= |b| && forall i :: 0 <= i < |a| ==> a[i].name == b[i].name
    requires Find(a, name) < |a|
    ensures Find(b, name) == Find(a, name)
  {}

  lemma {:induction false} OptionAbsorptionKept(a: seq<Opt>, b: seq<Opt>, o: Opt)
    requires OptionsGrow(a, b) && AbsorbsOption(a, o)
    ensures AbsorbsOption(b, o)
  {}

  lemma {:induction false} AbsorptionKept(a: Command, b: Command, c: Command)
    requires Grows(a, b) && Absorbs(a, c)
    ensures Absorbs(b, c)
  {}

  lemma {:induction false} AddMissingGrows(d: seq<Opt>, s: seq<Opt>)
    ensures d <= AddMissing(d, s)
    ensures forall k :: 0 <= k < |s| ==> Find(AddMissing(d, s), s[k].name) < |AddMissing(d, s)|
    decreases |s|
  {
    if s != [] {
      var e := if Find(d, s[0].name) < |d| then d else d + [s[0]];
      assert AddMissing(d, s) == AddMissing(e, s[1..]) && d <= e;
      assert Find(e, s[0].name) < |e| by {
        assert e != d ==> e[|d|].name == s[0].name;
      }
      hide Find, AddMissing;
      AddMissingGrows(e, s[1..]);
      FindPrefix(e, AddMissing(d, s), s[0].name);
      forall k | 0 <= k < |s| ensures Find(AddMissing(d, s), s[k].name) < |AddMissing(d, s)| {
        if k > 0 { assert s[k] == s[1..][k - 1]; }
      }
    }
  }

  lemma {:induction false} SubgroupsGrow(d: Opt, s: Opt)
    ensures GroupGrows(d, Subgroups(d, s)) && AbsorbsGroup(Subgroups(d, s), s)
  {
    AddMissingGrows(Leaves(d), Leaves(s));
    OwnNames(Leaves(s));
  }

  lemma {:induction false} MergeOptionGrows(d: seq<Opt>, o: Opt)
    requires !o.kind.Plain?
    ensures OptionsGrow(d, MergeOption(d, o)) && AbsorbsOption(MergeOption(d, o), o)
  {
    var i, e := Find(d, o.name), MergeOption(d, o);
    if i < |d| {
      SubgroupsGrow(d[i], o);
      if e != d {
        FindPrefix(d, e, o.name);
      }
    } else {
      assert e[|d|].name == o.name;
      assert Find(e, o.name) == |d|;
      OwnNames(Leaves(o));
    }
  }

  lemma {:induction false} OptionsGrowTransitive(a: seq<Opt>, b: seq<Opt>, c: seq<Opt>)
    requires OptionsGrow(a, b) && OptionsGrow(b, c)
    ensures OptionsGrow(a, c)
  {}

  lemma {:induction false} MergeOptionsGrows(d: seq<Opt>, s: seq<Opt>)
    ensures OptionsGrow(d, MergeOptions(d, s)) && AbsorbsOptions(MergeOptions(d, s), s)
    decreases |s|
  {
    if s != [] && !s[0].kind.Plain? {
      var e, r := MergeOption(d, s[0]), MergeOptions(d, s);
      MergeOptionGrows(d, s[0]);
      MergeOptionsGrows(e, s[1..]);
      OptionsGrowTransitive(d, e, r);
      forall k | 0 <= k < |s| && NoPlain(s, k + 1) ensures AbsorbsOption(r, s[k]) {
        if k == 0 {
          OptionAbsorptionKept(e, r, s[0]);
        } else {
          assert s[k] == s[1..][k - 1] && NoPlain(s[1..], k);
        }
      }
    }
  }

  lemma {:induction false} MergedGrows(d: Command, s: Command)
    ensures Grows(d, Merged(d, s)) && Absorbs(Merged(d, s), s)
  {
    MergeOptionsGrows(d.options, s.options);
  }

  /** A command that merging with itself leaves alone: no subgroup of it repeats
      an earlier subgroup's name with something new, or it has plain options. */
  ghost predicate SelfAbsorbing(c: Command) { Absorbs(c, c) }

  ghost predicate DistinctNames(s: seq<Opt>) {
    forall i, j :: 0 <= i < j < |s| ==> s[i].name != s[j].name
  }

  lemma {:induction false} DistinctIsSelfAbsorbing(c: Command)
    requires DistinctNames(c.options)
    ensures SelfAbsorbing(c)
  {}

  /** What the merged list absorbs it goes on absorbing. */
  lemma {:induction false} MergeIntoKeeps(acc: seq<Command>, c: Command, e: Command)
    requires AbsorbedBy(acc, e)
    ensures AbsorbedBy(MergeInto(acc, c), e)
  {
    hide Absorbs, Merged, Grows;
    var r, i, j := MergeInto(acc, c), FindCommand(acc, c.name), FindCommand(acc, e.name);
    if i < |acc| {
      MergedGrows(acc[i], c);
      MergedName(acc[i], c);
      if i == j { AbsorptionKept(acc[i], r[i], e); }
    }
    SameFirst(acc, r, e.name);
  }

  /** A command is absorbed once merged, unless it is the first of its name and does
      not absorb itself. */
  lemma {:induction false} MergeIntoAbsorbs(acc: seq<Command>, c: Command)
    requires SelfAbsorbing(c) || FindCommand(acc, c.name) < |acc|
    ensures AbsorbedBy(MergeInto(acc, c), c)
  {
    hide Absorbs, Merged, Grows;
    var r, i := MergeInto(acc, c), FindCommand(acc, c.name);
    if i < |acc| {
      MergedGrows(acc[i], c);
      MergedName(acc[i], c);
      SameFirst(acc, r, c.name);
    } else {
      assert r[|acc|] == c;
      assert FindCommand(r, c.name) == |acc|;
    }
  }

  lemma {:induction false} MergedName(d: Command, s: Command)
    ensures Merged(d, s).name == d.name
  {}

  lemma {:induction false} SameFirst(a: seq<Command>, b: seq<Command>, name: string)
    requires |a| <= |b| && forall i :: 0 <= i < |a| ==> a[i].name == b[i].name
    requires FindCommand(a, name) < |a|
    ensures FindCommand(b, name) == FindCommand(a, name)
  {}

  lemma {:induction false} MergeFromKeeps(acc: seq<Command>, cs: seq<Command>, e: Command)
    requires AbsorbedBy(acc, e)
    ensures AbsorbedBy(MergeFrom(acc, cs), e)
    decreases |cs|
  {
    hide AbsorbedBy, MergeInto;
    if cs != [] {
      MergeIntoKeeps(acc, cs[0], e);
      MergeFromKeeps(MergeInto(acc, cs[0]), cs[1..], e);
    }
  }

  /** Names stay, and the merged command's is there. */
  lemma {:induction false} MergeIntoNames(acc: seq<Command>, c: Command, name: string)
    requires FindCommand(acc, name) < |acc| || c.name == name
    ensures FindCommand(MergeInto(acc, c), name) < |MergeInto(acc, c)|
  {
    hide Merged;
    var r, i := MergeInto(acc, c), FindCommand(acc, c.name);
    if i < |acc| {
      MergedName(acc[i], c);
      SameFirst(acc, r, name);
    } else if FindCommand(acc, name) < |acc| {
      SameFirst(acc, r, name);
    } else {
      assert r[|acc|].name == name;
    }
  }

  lemma {:induction false} MergeFromNames(acc: seq<Command>, cs: seq<Command>, name: string)
    requires FindCommand(acc, name) < |acc| || FindCommand(cs, name) < |cs|
    ensures FindCommand(MergeFrom(acc, cs), name) < |MergeFrom(acc, cs)|
    decreases |cs|
  {
    if cs != [] {
      var next := MergeInto(acc, cs[0]);
      if FindCommand(acc, name) < |acc| || cs[0].name == name { MergeIntoNames(acc, cs[0], name); }
      hide MergeInto;
      MergeFromNames(next, cs[1..], name);
    }
  }

  lemma {:induction false} MergeFromAbsorbs(acc: seq<Command>, cs: seq<Command>, i: nat)
    requires i < |cs|
    requires SelfAbsorbing(cs[i]) || FindCommand(acc, cs[i].name) < |acc| || FindCommand(cs, cs[i].name) < i
    ensures AbsorbedBy(MergeFrom(acc, cs), cs[i])
    decreases |cs|
  {
    hide AbsorbedBy, SelfAbsorbing, MergeInto;
    var next, name := MergeInto(acc, cs[0]), cs[i].name;
    if i == 0 {
      MergeIntoAbsorbs(acc, cs[0]);
      MergeFromKeeps(next, cs[1..], cs[0]);
    } else {
      if FindCommand(acc, name) < |acc| || cs[0].name == name { MergeIntoNames(acc, cs[0], name); }
      assert cs[i] == cs[1..][i - 1];
      MergeFromAbsorbs(next, cs[1..], i - 1);
    }
  }

  // ----- absorption is exactly the fixed point of merging -----

  lemma {:induction false} SubgroupsFixed(d: Opt, s: Opt)
    ensures Subgroups(d, s) == d <==> AbsorbsGroup(d, s)
  {
    SubgroupsGrow(d, s);
    if AbsorbsGroup(d, s) {
      NothingMissing(Leaves(d), Leaves(s));
    }
  }

  lemma {:induction false} MergeOptionFixed(d: seq<Opt>, o: Opt)
    requires !o.kind.Plain?
    ensures MergeOption(d, o) == d <==> AbsorbsOption(d, o)
  {
    MergeOptionGrows(d, o);
    var i := Find(d, o.name);
    if i < |d| {
      SubgroupsFixed(d[i], o);
    }
  }

  lemma {:induction false} MergeOptionsFixed(d: seq<Opt>, s: seq<Opt>)
    ensures MergeOptions(d, s) == d <==> AbsorbsOptions(d, s)
    decreases |s|
  {
    MergeOptionsGrows(d, s);
    if AbsorbsOptions(d, s) && s != [] && !s[0].kind.Plain? {
      assert NoPlain(s, 1);
      MergeOptionFixed(d, s[0]);
      assert AbsorbsOptions(d, s[1..]) by {
        forall k | 0 <= k < |s[1..]| && NoPlain(s[1..], k + 1) ensures AbsorbsOption(d, s[1..][k]) {
          assert forall m :: 1 <= m < k + 2 ==> s[m] == s[1..][m - 1];
          assert NoPlain(s, k + 2) && s[1..][k] == s[k + 1];
        }
      }
      MergeOptionsFixed(d, s[1..]);
    }
  }

  lemma {:induction false} MergedFixed(d: Command, s: Command)
    ensures Merged(d, s) == d <==> Absorbs(d, s)
  {
    MergedGrows(d, s);
    MergeOptionsFixed(d.options, s.options);
  }

  lemma {:induction false} AbsorbedChangesNothing(acc: seq<Command>, cs: seq<Command>)
    requires forall i :: 0 <= i < |cs| ==> AbsorbedBy(acc, cs[i])
    ensures MergeFrom(acc, cs) == acc
    decreases |cs|
  {
    if cs != [] {
      assert AbsorbedBy(acc, cs[0]);
      var i := FindCommand(acc, cs[0].name);
      MergedFixed(acc[i], cs[0]);
      assert acc[i := acc[i]] == acc;
      AbsorbedChangesNothing(acc, cs[1..]);
    }
  }

  /** Command `i` is the first of its name. */
  ghost predicate FirstOfName(cs: seq<Command>, i: nat)
    requires i < |cs|
  {
    FindCommand(cs, cs[i].name) == i
  }

  /** Merging a list of commands twice over is merging it once exactly when the merged
      list absorbs the first command of each name; the others it always absorbs. */
  lemma {:induction false} ListIdempotentExactly(cs: seq<Command>)
    ensures MergeAll(cs + cs) == MergeAll(cs) <==>
      forall i :: 0 <= i < |cs| && FirstOfName(cs, i) ==> AbsorbedBy(MergeAll(cs), cs[i])
  {
    var t := MergeAll(cs);
    MergeFromAppend([], cs, cs);
    hide AbsorbedBy, SelfAbsorbing;
    if forall i :: 0 <= i < |cs| && FirstOfName(cs, i) ==> AbsorbedBy(t, cs[i]) {
      forall i | 0 <= i < |cs| ensures AbsorbedBy(t, cs[i]) {
        if !FirstOfName(cs, i) { MergeFromAbsorbs([], cs, i); }
      }
      AbsorbedChangesNothing(t, cs);
    }
    if MergeFrom(t, cs) == t {
      forall i | 0 <= i < |cs| ensures AbsorbedBy(t, cs[i]) {
        MergeFromNames([], cs, cs[i].name);
        MergeFromAbsorbs(t, cs, i);
      }
    }
  }

  /** So it is if every command absorbs itself, whatever kinds conflict and wherever
      plain options cut a merge short. */
  lemma {:induction false} MergeIsIdempotent(cs: seq<Command>)
    requires forall i :: 0 <= i < |cs| ==> SelfAbsorbing(cs[i])
    ensures MergeAll(cs + cs) == MergeAll(cs)
  {
    hide AbsorbedBy, SelfAbsorbing;
    forall i | 0 <= i < |cs| ensures AbsorbedBy(MergeAll(cs), cs[i]) { MergeFromAbsorbs([], cs, i); }
    ListIdempotentExactly(cs);
  }

  /** The same for distinct option names within each command. */
  lemma {:induction false} DistinctNamesMergeIdempotently(cs: seq<Command>)
    requires forall i :: 0 <= i < |cs| ==> DistinctNames(cs[i].options)
    ensures MergeAll(cs + cs) == MergeAll(cs)
  {
    forall i | 0 <= i < |cs| ensures SelfAbsorbing(cs[i]) { DistinctIsSelfAbsorbing(cs[i]); }
    MergeIsIdempotent(cs);
  }

  /** The condition is sharp: a command that is not self-absorbing is, alone, a
      list on which idempotence fails. */
  lemma {:induction false} IdempotentExactly(c: Command)
    ensures MergeAll([c] + [c]) == MergeAll([c]) <==> SelfAbsorbing(c)
  {
    MergeFromAppend([], [c], [c]);
    assert MergeInto([], c) == [c] && MergeAll([c]) == [c];
    assert MergeFrom([c], [c]) == MergeInto([c], c) by { assert [c][1..] == []; }
    assert [c][0 := Merged(c, c)] == [Merged(c, c)];
    MergedFixed(c, c);
  }

  /** Two subgroups of one name in one command: the second merge moves `b` up. */
  lemma {:induction false} RepeatedSubgroupIsNotIdempotent()
    ensures exists c: Command :: !HasPlain(c.options) && MergeAll([c] + [c]) != MergeAll([c])
  {
    var a, b := Opt("a", "", SubCommand, None, 0), Opt("b", "", SubCommand, None, 0);
    var x, y := Opt("x", "", SubCommandGroup, Some([a]), 0), Opt("x", "", SubCommandGroup, Some([b]), 0);
    var c := Command("c", "", [x, y], 0);
    IdempotentExactly(c);
    assert NoPlain(c.options, 2) && c.options[1] == y;
    assert Leaves(y)[0].name == "b" && Leaves(x)[0].name == "a";
    assert Find(Leaves(x), "b") == 1;
    assert !AbsorbsGroup(x, y);
    assert Find(c.options, "x") == 0;
    assert !AbsorbsOption(c.options, y);
    assert !AbsorbsOptions(c.options, c.options);
  }
}
