/**
 From a registered command to Discord's command tree and back: commands are bound
 and their groups collected (components/runtime/src/ts/script.ts), nested into a
 tree (cmd/scheduler/src/command_manager.rs), invoked at a leaf, flattened to a
 name with its parents (components/runtime-models/src/internal/interaction.rs) and
 matched against the registered commands (components/runtime/src/ts/commands.ts).
 */
module CommandRoundTrip {
  import opened Common
  import opened CommandMerge

  datatype Group = Group(name: string, description: string, parent: Option<Group>)

  /** A command as a script registers it; `options` are plain. */
  datatype Registered = Registered(name: string, description: string, chat: bool, options: seq<Opt>,
      group: Option<Group>)

  /** The same command as it reaches the scheduler. */
  datatype Bound = Bound(name: string, description: string, chat: bool, options: seq<Opt>, group: Option<string>,
      subGroup: Option<string>)

  datatype SubGroup = SubGroup(name: string, description: string)
  datatype CommandGroup = CommandGroup(name: string, description: string, subGroups: seq<SubGroup>)

  // ----- binding (script.ts) -----

  function Bind(c: Registered): Bound {
    match c.group
    case None => Bound(c.name, c.description, c.chat, c.options, None, None)
    case Some(g) =>
      if g.parent.Some?
      then Bound(c.name, c.description, c.chat, c.options, Some(g.parent.value.name), Some(g.name))
      else Bound(c.name, c.description, c.chat, c.options, Some(g.name), None)
  }

  function BindAll(cs: seq<Registered>): (r: seq<Bound>)
    ensures |r| == |cs| && forall i :: 0 <= i < |cs| ==> r[i] == Bind(cs[i])
  {
    if cs == [] then [] else [Bind(cs[0])] + BindAll(cs[1..])
  }

  function FindGroup(s: seq<CommandGroup>, name: string): (i: nat)
    ensures i <= |s| && (i < |s| ==> s[i].name == name)
    ensures forall j :: 0 <= j < i ==> s[j].name != name
  {
    if s == [] || s[0].name == name then 0 else 1 + FindGroup(s[1..], name)
  }

  predicate HasSubGroup(s: seq<SubGroup>, name: string) {
    exists i :: 0 <= i < |s| && s[i].name == name
  }

  /** One command of the group collection.  A parent first met through a subgroup
      is given that subgroup's description. */
  function Collect(groups: seq<CommandGroup>, c: Registered): seq<CommandGroup> {
    if c.group.None? then groups
    else
      var g := c.group.value;
      if g.parent.None? then
        if FindGroup(groups, g.name) < |groups| then groups else groups + [CommandGroup(g.name, g.description, [])]
      else
        var i := FindGroup(groups, g.parent.value.name);
        if i == |groups| then groups + [CommandGroup(g.parent.value.name, g.description, [SubGroup(g.name,
            g.description)])]
        else if HasSubGroup(groups[i].subGroups, g.name) then groups
        else groups[i := groups[i].(subGroups := groups[i].subGroups + [SubGroup(g.name, g.description)])]
  }

  function CollectGroups(cs: seq<Registered>): seq<CommandGroup> {
    if cs == [] then [] else Collect(CollectGroups(cs[..|cs| - 1]), cs[|cs| - 1])
  }

  // ----- nesting (command_manager.rs) -----

  function AsOption(c: Bound): Opt {
    Opt(c.name, c.description, SubCommand, if c.options == [] then None else Some(c.options), 0)
  }

  function AsCommand(c: Bound): Command {
    Command(c.name, if c.chat then c.description else "", c.options, if c.chat then 0 else 1)
  }

  /** The commands without a group. */
  function TopLevel(cs: seq<Bound>): seq<Command> {
    if cs == [] then []
    else TopLevel(cs[..|cs| - 1]) + if cs[|cs| - 1].group.None? then [AsCommand(cs[|cs| - 1])] else []
  }

  function EmptySubGroups(s: seq<SubGroup>): (r: seq<Opt>)
    ensures |r| == |s|
    ensures forall i :: 0 <= i < |s| ==> r[i] == Opt(s[i].name, s[i].description, SubCommandGroup, None, 0)
  {
    if s == [] then [] else [Opt(s[0].name, s[0].description, SubCommandGroup, None, 0)] + EmptySubGroups(s[1..])
  }

  function GroupNode(g: CommandGroup): Command {
    Command(g.name, g.description, EmptySubGroups(g.subGroups), 0)
  }

  function GroupNodes(gs: seq<CommandGroup>): (r: seq<Command>)
    ensures |r| == |gs| && forall i :: 0 <= i < |gs| ==> r[i] == GroupNode(gs[i])
  {
    if gs == [] then [] else [GroupNode(gs[0])] + GroupNodes(gs[1..])
  }

  function UnknownGroup(name: string): Command {
    Command(name, PLACEHOLDER, [], 0)
  }

  /** Where a grouped command goes among its group's options. */
  function PlaceOption(opts: seq<Opt>, c: Bound): seq<Opt> {
    if c.subGroup.None? then opts + [AsOption(c)]
    else
      var j := Find(opts, c.subGroup.value);
      if j < |opts| then opts[j := opts[j].(options := Some(Leaves(opts[j]) + [AsOption(c)]))]
      else opts + [Opt(c.subGroup.value, PLACEHOLDER, SubCommandGroup, Some([AsOption(c)]), 0)]
  }

  function WithGroup(nodes: seq<Command>, name: string): seq<Command> {
    if FindCommand(nodes, name) < |nodes| then nodes else nodes + [UnknownGroup(name)]
  }

  function Place(nodes: seq<Command>, c: Bound): seq<Command> {
    if c.group.None? then nodes
    else
      var ns := WithGroup(nodes, c.group.value);
      var i := FindCommand(nodes, c.group.value);
      ns[i := ns[i].(options := PlaceOption(ns[i].options, c))]
  }

  /** The group nodes after the first `n` commands. */
  function Nodes(groups: seq<CommandGroup>, cs: seq<Bound>, n: nat): seq<Command>
    requires n <= |cs|
  {
    if n == 0 then GroupNodes(groups) else Place(Nodes(groups, cs, n - 1), cs[n - 1])
  }

  function Nest(groups: seq<CommandGroup>, cs: seq<Bound>): seq<Command> {
    TopLevel(cs) + Nodes(groups, cs, |cs|)
  }

  // ----- flattening (interaction.rs) -----

  datatype Value = SubCommandValue(options: seq<Arg>) | SubCommandGroupValue(options: seq<Arg>) | Scalar(n: int)
  datatype Arg = Arg(name: string, value: Value)

  datatype Flat = Flat(name: string, parentName: Option<string>, parentParentName: Option<string>, options: seq<Arg>)

  /** One option; an empty subcommand group is indexed out of range. */
  function FlattenOne(f: Flat, o: Arg): Option<Flat> {
    match o.value
    case SubCommandValue(s) => Some(Flat(o.name, Some(f.name), f.parentParentName, f.options + s))
    case SubCommandGroupValue(s) =>
      if s == [] then None
      else Some(Flat(s[0].name, Some(o.name), Some(f.name),
                     f.options + if s[0].value.SubCommandValue? then s[0].value.options else []))
    case Scalar(_) => Some(f.(options := f.options + [o]))
  }

  function FlattenFrom(f: Flat, options: seq<Arg>): Option<Flat>
    decreases |options|
  {
    if options == [] then Some(f)
    else
      var g := FlattenOne(f, options[0]);
      if g.None? then None else FlattenFrom(g.value, options[1..])
  }

  /** The conversion of an application command interaction; None is the panic. */
  method FlattenInteraction(commandName: string, options: seq<Arg>) returns (r: Option<Flat>)
    ensures r == FlattenFrom(Flat(commandName, None, None, []), options)
  {
    var name := commandName;
    var parentName, parentParentName := None, None;
    var opts := [];
    assert options[0..] == options;
    for i := 0 to |options|
      invariant FlattenFrom(Flat(commandName, None, None, []), options)
             == FlattenFrom(Flat(name, parentName, parentParentName, opts), options[i..])
    {
      var opt := options[i];
      assert options[i..][0] == opt && options[i..][1..] == options[i + 1..];
      match opt.value {
        case SubCommandValue(subCmd) =>
          parentName := Some(name);
          name := opt.name;
          opts := opts + subCmd;
        case SubCommandGroupValue(subCmdGroup) =>
          if subCmdGroup == [] {
            return None;
          }
          parentName := Some(opt.name);
          parentParentName := Some(name);
          var cmd := subCmdGroup[0];
          name := cmd.name;
          if cmd.value.SubCommandValue? {
            opts := opts + cmd.value.options;
          } else {
            assert opts + [] == opts;
          }
        case Scalar(_) =>
          opts := opts + [opt];
      }
    }
    return Some(Flat(name, parentName, parentParentName, opts));
  }

  // ----- matching (commands.ts) -----

  /** JavaScript truthiness of an optional string. */
  predicate Truthy(s: Option<string>) { s.Some? && s.value != "" }

  predicate MatchesCommand(c: Registered, name: string, parentName: Option<string>, parentParentName: Option<string>) {
    if Truthy(parentParentName) then
      c.group.Some? && c.group.value.parent.Some? && c.name == name &&
      Some(c.group.value.name) == parentName && Some(c.group.value.parent.value.name) == parentParentName
    else if Truthy(parentName) then
      c.group.Some? && c.group.value.parent.None? && c.name == name && Some(c.group.value.name) == parentName
    else c.group.None? && c.name == name
  }

  datatype Key = Key(name: string, parentName: Option<string>, parentParentName: Option<string>)

  function KeyOf(c: Registered): Key {
    Key(c.name,
        if c.group.None? then None else Some(c.group.value.name),
        if c.group.None? || c.group.value.parent.None? then None else Some(c.group.value.parent.value.name))
  }

  predicate MatchesKey(c: Registered, k: Key) {
    MatchesCommand(c, k.name, k.parentName, k.parentParentName)
  }

  /** The outermost group, if any, has a name. */
  predicate WellNamed(c: Registered) {
    Bind(c).group != Some("")
  }

  lemma {:induction false} MatchIsKeyEquality(c: Registered, d: Registered)
    requires WellNamed(d)
    ensures MatchesKey(c, KeyOf(d)) <==> KeyOf(c) == KeyOf(d)
  {}

  /** Without a name the outermost group is not seen: such a command matches no
      lookup of its own key. */
  lemma {:induction false} NamelessGroupNeverMatches(c: Registered)
    ensures MatchesKey(c, KeyOf(c)) <==> WellNamed(c)
  {}

  ghost predicate DistinctKeys(cs: seq<Registered>) {
    forall i, j :: 0 <= i < j < |cs| ==> KeyOf(cs[i]) != KeyOf(cs[j])
  }

  /** The command a lookup finds, or the length. */
  function Select(cs: seq<Registered>, f: Flat): (i: nat)
    ensures i <= |cs| && (i < |cs| ==> MatchesCommand(cs[i], f.name, f.parentName, f.parentParentName))
    ensures forall j :: 0 <= j < i ==> !MatchesCommand(cs[j], f.name, f.parentName, f.parentParentName)
  {
    if cs == [] || MatchesCommand(cs[0], f.name, f.parentName, f.parentParentName) then 0 else 1 + Select(cs[1..], f)
  }

  /** No command matches the names of an earlier one. */
  ghost predicate NoDuplicates(cs: seq<Registered>) {
    forall i, j :: 0 <= i < j < |cs| ==> !MatchesKey(cs[j], KeyOf(cs[i]))
  }

  /** So commands whose outermost group has a name have distinct keys. */
  lemma {:induction false} RegisteredKeysDistinct(cs: seq<Registered>)
    requires NoDuplicates(cs) && forall i :: 0 <= i < |cs| ==> WellNamed(cs[i])
    ensures DistinctKeys(cs)
  {
    forall i, j | 0 <= i < j < |cs| ensures KeyOf(cs[i]) != KeyOf(cs[j]) {
      MatchIsKeyEquality(cs[j], cs[i]);
    }
  }

  class System {
    var commands: seq<Registered>

    ghost predicate Valid()
      reads this
    {
      NoDuplicates(commands)
    }

    constructor ()
      ensures Valid() && commands == []
    {
      commands := [];
    }

    /** `addCommand`: refuses exactly the commands that match an earlier one. */
    method AddCommand(cmd: Registered) returns (ok: bool)
      requires Valid()
      modifies this
      ensures Valid()
      ensures ok <==> forall i :: 0 <= i < |old(commands)| ==> !MatchesKey(cmd, KeyOf(old(commands)[i]))
      ensures commands == if ok then old(commands) + [cmd] else old(commands)
    {
      for i := 0 to |commands|
        invariant commands == old(commands)
        invariant forall j :: 0 <= j < i ==> !MatchesKey(cmd, KeyOf(commands[j]))
      {
        var k := KeyOf(commands[i]);
        if MatchesCommand(cmd, k.name, k.parentName, k.parentParentName) {
          return false;
        }
      }
      commands := commands + [cmd];
      return true;
    }

    /** The lookup of `handleInteractionCreate`. */
    method Lookup(f: Flat) returns (i: nat)
      ensures i == Select(commands, f)
    {
      i := 0;
      while i < |commands| && !MatchesCommand(commands[i], f.name, f.parentName, f.parentParentName)
        invariant i <= |commands|
        invariant forall j :: 0 <= j < i ==> !MatchesCommand(commands[j], f.name, f.parentName, f.parentParentName)
      {
        i := i + 1;
      }
    }
  }

  // ----- the nesting loop -----

  /** The second half of `to_twilight_commands`, for one command. */
  method AddToGroups(nodes: seq<Command>, cmd: Bound) returns (r: seq<Command>)
    ensures r == Place(nodes, cmd)
  {
    r := nodes;
    if cmd.group.None? {
      return;
    }
    var i := 0;
    while i < |r| && r[i].name != cmd.group.value
      invariant i <= |r| && forall j :: 0 <= j < i ==> r[j].name != cmd.group.value
    {
      i := i + 1;
    }
    assert i == FindCommand(nodes, cmd.group.value);
    if i == |r| {
      r := r + [UnknownGroup(cmd.group.value)];
    }
    var group := r[i];
    if cmd.subGroup.Some? {
      var j := FindName(group.options, cmd.subGroup.value);
      if j < |group.options| {
        var g := group.options[j];
        if g.options.Some? {
          g := g.(options := Some(g.options.value + [AsOption(cmd)]));
        } else {
          assert Leaves(g) + [AsOption(cmd)] == [AsOption(cmd)];
          g := g.(options := Some([AsOption(cmd)]));
        }
        group := group.(options := group.options[j := g]);
      } else {
        var g := Opt(cmd.subGroup.value, PLACEHOLDER, SubCommandGroup, Some([AsOption(cmd)]), 0);
        group := group.(options := group.options + [g]);
      }
    } else {
      group := group.(options := group.options + [AsOption(cmd)]);
    }
    r := r[i := group];
  }

  /** `to_twilight_commands`. */
  method ToTwilightCommands(commands: seq<Bound>, groups: seq<CommandGroup>) returns (result: seq<Command>)
    ensures result == Nest(groups, commands)
  {
    result := [];
    for i := 0 to |commands|
      invariant result == TopLevel(commands[..i])
    {
      assert commands[..i + 1][..i] == commands[..i];
      if commands[i].group.None? {
        result := result + [AsCommand(commands[i])];
      }
    }
    var nodes := GroupNodes(groups);
    for i := 0 to |commands|
      invariant nodes == Nodes(groups, commands, i)
    {
      nodes := AddToGroups(nodes, commands[i]);
    }
    assert commands[..|commands|] == commands;
    result := result + nodes;
  }
}
