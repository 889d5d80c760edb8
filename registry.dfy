/** The plugin's bookkeeping on the host's command registry: registering a
    command, `start` (one section and five commands) and `stop` (remove the
    section and truncate the command list at the plugin's first command). */
module Registry {
  import opened Descriptors
  import opened IdAllocation
  import JsArray
  import StartRequests

  /** The host module that owns `BUILT_IN_COMMANDS` and `BUILT_IN_SECTIONS`;
      `getModule('BUILT_IN_COMMANDS')` always yields this one object. */
  class CommandRegistry {
    var commands: seq<Command>
    var sections: seq<Section>

    constructor (commands: seq<Command>, sections: seq<Section>)
      ensures this.commands == commands && this.sections == sections
    {
      this.commands := commands;
      this.sections := sections;
    }
  }

  /** The object `{ applicationId, id: freshId, target: CHAT, type: BUILT_IN,
      ...request }`; `DescribeOverrides` states what it holds. */
  function Describe(request: CommandRequest, freshId: string): (c: Command) {
    Command(
      request.applicationId.GetOr(APPLICATION_ID),
      request.id.GetOr(freshId),
      request.target.GetOr(Chat),
      request.kind.GetOr(BuiltIn),
      request.name,
      request.description,
      request.options,
      request.execute)
  }

  /** The command list after `registerCommand(request)`: one entry longer
      and the earlier entries kept. */
  function Registered(commands: seq<Command>, request: CommandRequest): (r: seq<Command>)
    ensures |r| == |commands| + 1 && r[..|commands|] == commands
  {
    commands + [Describe(request, NextAvailableCommandId(commands))]
  }

  /** The command list after registering `requests` one after the other:
      one entry more per request. */
  function RegisteredAll(commands: seq<Command>, requests: seq<CommandRequest>): (r: seq<Command>)
    ensures |r| == |commands| + |requests|
    decreases |requests|
  {
    if requests == [] then commands
    else RegisteredAll(Registered(commands, requests[0]), requests[1..])
  }

  /** The section list after the `splice` in `stop`: exactly one section
      fewer (none from an empty list), and nothing that was not there. */
  function WithoutPluginSection(sections: seq<Section>): (r: seq<Section>)
    ensures sections == [] ==> r == []
    ensures sections != [] ==> |r| == |sections| - 1
    ensures forall s :: s in r ==> s in sections
  {
    var i := JsArray.IndexOf(sections, JsArray.Find(sections, IsPluginSection));
    var r := JsArray.Splice(sections, i, 1);
    assert sections != [] ==> r == sections[..JsArray.SpliceStart(|sections|, i)] + sections[JsArray.SpliceStart(|sections|, i) + 1..];
    r
  }

  /** The command list after the `splice` in `stop`: a prefix of the old
      list that holds no plugin command, strictly shorter whenever the list
      was not empty. */
  function WithoutPluginCommands(commands: seq<Command>): (r: seq<Command>)
    ensures |r| <= |commands| && r == commands[..|r|]
    ensures commands != [] ==> |r| < |commands|
    ensures forall c :: c in r ==> !IsPluginCommand(c)
  {
    var first := JsArray.IndexOf(commands, JsArray.Find(commands, IsPluginCommand));
    JsArray.IndexOfFind(commands, IsPluginCommand);
    var r := JsArray.Splice(commands, first, |commands| - first);
    assert first >= 0 ==> r == commands[..first];
    assert first == -1 && commands != [] ==> r == commands[..|commands| - 1];
    r
  }

  /** `registerCommand(request)`: pushes the descriptor built from the
      defaults and `request` and returns it. Its id, unless the request
      overrides it, is used by no command registered before; unless the
      request overrides them it carries the plugin's application id, the
      CHAT target and the BUILT_IN type; the request's own fields are
      carried over; the earlier commands and the sections are untouched. */
  method RegisterCommand(registry: CommandRegistry, request: CommandRequest) returns (c: Command)
    modifies registry
    ensures registry.commands == old(registry.commands) + [c]
    ensures registry.sections == old(registry.sections)
    ensures c == Describe(request, NextAvailableCommandId(old(registry.commands)))
    ensures request.id.None? ==> !IdInUse(old(registry.commands), c.id)
    ensures request.applicationId.None? ==> IsPluginCommand(c)
    ensures request.target.None? ==> c.target == Chat
    ensures request.kind.None? ==> c.kind == BuiltIn
    ensures c.name == request.name && c.description == request.description
    ensures c.options == request.options && c.execute == request.execute
  {
    c := Describe(request, NextAvailableCommandId(registry.commands));
    registry.commands := registry.commands + [c];
  }

  /** The registry part of `start`: push the plugin's section, then register
      panic, relaunch, say, modal and option_types in that order. */
  method Start(registry: CommandRegistry)
    modifies registry
    ensures registry.sections == old(registry.sections) + [PLUGIN_SECTION]
    ensures registry.commands == RegisteredAll(old(registry.commands), StartRequests.All())
  {
    ghost var c0 := registry.commands;
    registry.sections := registry.sections + [PLUGIN_SECTION];
    var _ := RegisterCommand(registry, StartRequests.PANIC);
    var _ := RegisterCommand(registry, StartRequests.RELAUNCH);
    var _ := RegisterCommand(registry, StartRequests.SAY);
    var _ := RegisterCommand(registry, StartRequests.MODAL);
    var _ := RegisterCommand(registry, StartRequests.OPTION_TYPES);
    RegisteredFive(c0, StartRequests.All());
  }

  /** Registering five requests is five single registrations in a row. */
  lemma RegisteredFive(commands: seq<Command>, requests: seq<CommandRequest>)
    requires |requests| == 5
    ensures RegisteredAll(commands, requests) ==
      Registered(Registered(Registered(Registered(Registered(
        commands, requests[0]), requests[1]), requests[2]), requests[3]), requests[4])
  {
    var c1 := Registered(commands, requests[0]);
    var c2 := Registered(c1, requests[1]);
    var c3 := Registered(c2, requests[2]);
    var c4 := Registered(c3, requests[3]);
    var c5 := Registered(c4, requests[4]);
    assert RegisteredAll(c5, requests[5..]) == c5;
    assert RegisteredAll(c4, requests[4..]) == c5;
    assert RegisteredAll(c3, requests[3..]) == c5;
    assert RegisteredAll(c2, requests[2..]) == c5;
    assert RegisteredAll(c1, requests[1..]) == c5;
  }

  /** `stop`: splice out the section found by the plugin's id, then cut the
      command list from the first plugin command to the end. */
  method Stop(registry: CommandRegistry)
    modifies registry
    ensures registry.sections == WithoutPluginSection(old(registry.sections))
    ensures registry.commands == WithoutPluginCommands(old(registry.commands))
  {
    var sectionIndex := JsArray.IndexOf(registry.sections, JsArray.Find(registry.sections, IsPluginSection));
    registry.sections := JsArray.Splice(registry.sections, sectionIndex, 1);
    var firstVizalityCommandIndex := JsArray.IndexOf(registry.commands, JsArray.Find(registry.commands, IsPluginCommand));
    registry.commands := JsArray.Splice(registry.commands, firstVizalityCommandIndex, |registry.commands| - firstVizalityCommandIndex);
  }

  /** Registering a list of requests appends one descriptor per request
      and keeps the earlier commands in place and in order. */
  lemma {:induction false} RegisteredAllPrefix(commands: seq<Command>, requests: seq<CommandRequest>)
    ensures |RegisteredAll(commands, requests)| == |commands| + |requests|
    ensures RegisteredAll(commands, requests)[..|commands|] == commands
    decreases |requests|
  {
    if requests != [] {
      var next := Registered(commands, requests[0]);
      RegisteredAllPrefix(next, requests[1..]);
      var r := RegisteredAll(next, requests[1..]);
      assert r[..|commands|] == r[..|next|][..|commands|];
    }
  }

  /** The k-th appended descriptor is built from the k-th request, with the
      id allocated against everything in the list when it was pushed. */
  lemma {:induction false} RegisteredAllAt(commands: seq<Command>, requests: seq<CommandRequest>, k: nat)
    requires k < |requests|
    ensures |RegisteredAll(commands, requests)| == |commands| + |requests|
    ensures var r := RegisteredAll(commands, requests);
      r[|commands| + k] == Describe(requests[k], NextAvailableCommandId(r[..|commands| + k]))
    decreases |requests|
  {
    var next := Registered(commands, requests[0]);
    var r := RegisteredAll(next, requests[1..]);
    assert RegisteredAll(commands, requests) == r;
    if k == 0 {
      RegisteredAllPrefix(next, requests[1..]);
      assert r[..|next|] == next;
      assert r[|commands|] == next[|commands|];
      assert r[..|commands|] == commands;
    } else {
      var rest := requests[1..];
      RegisteredAllAt(next, rest, k - 1);
      var j := |next| + (k - 1);
      assert r[j] == Describe(rest[k - 1], NextAvailableCommandId(r[..j]));
      assert j == |commands| + k && rest[k - 1] == requests[k];
    }
  }

  /** Because the spread comes last, every field the request sets wins over
      its default, the defaults fill only what the request leaves out, and
      the request's other fields are carried over unchanged. */
  lemma DescribeOverrides(request: CommandRequest, freshId: string)
    ensures var c := Describe(request, freshId);
      c.applicationId == (if request.applicationId.Some? then request.applicationId.value else APPLICATION_ID) &&
      c.id == (if request.id.Some? then request.id.value else freshId) &&
      c.target == (if request.target.Some? then request.target.value else Chat) &&
      c.kind == (if request.kind.Some? then request.kind.value else BuiltIn) &&
      c.name == request.name && c.description == request.description &&
      c.options == request.options && c.execute == request.execute
  {
  }

  /** The descriptor of a request that sets none of the defaulted fields
      is the plugin's, targets CHAT, is BUILT_IN and has the fresh id. */
  lemma DescribeDefaults(request: CommandRequest, freshId: string)
    requires UsesDefaults(request)
    ensures var c := Describe(request, freshId);
      c.id == freshId && IsPluginCommand(c) && c.target == Chat && c.kind == BuiltIn &&
      c.name == request.name && c.execute == request.execute
  {
  }

  /** Each command appended for a defaulted request is a plugin command
      that targets CHAT, is BUILT_IN and has an id no command before it in
      the list uses. */
  lemma AppendedFreshPlugin(commands: seq<Command>, requests: seq<CommandRequest>, i: int)
    requires forall j :: 0 <= j < |requests| ==> UsesDefaults(requests[j])
    requires |commands| <= i < |commands| + |requests|
    ensures var r := RegisteredAll(commands, requests);
      i < |r| && IsPluginCommand(r[i]) && r[i].target == Chat && r[i].kind == BuiltIn &&
      !IdInUse(r[..i], r[i].id)
  {
    var k := i - |commands|;
    RegisteredAllAt(commands, requests, k);
    var r := RegisteredAll(commands, requests);
    var newId := NextAvailableCommandId(r[..i]);
    DescribeDefaults(requests[k], newId);
  }

  /** The command list after registering defaulted requests: the earlier
      commands are kept, and each appended one is a plugin command with an
      id that nothing before it in the list uses. */
  predicate AppendsFreshPluginCommands(commands: seq<Command>, r: seq<Command>) {
    |commands| <= |r| && r[..|commands|] == commands &&
    forall i :: |commands| <= i < |r| ==>
      IsPluginCommand(r[i]) && r[i].target == Chat && r[i].kind == BuiltIn && !IdInUse(r[..i], r[i].id)
  }

  lemma RegisteredAllFresh(commands: seq<Command>, requests: seq<CommandRequest>)
    requires forall i :: 0 <= i < |requests| ==> UsesDefaults(requests[i])
    ensures |RegisteredAll(commands, requests)| == |commands| + |requests|
    ensures AppendsFreshPluginCommands(commands, RegisteredAll(commands, requests))
  {
    RegisteredAllPrefix(commands, requests);
    forall i | |commands| <= i < |commands| + |requests| {
      AppendedFreshPlugin(commands, requests, i);
    }
  }

  /** Appended ids that are fresh at the moment of their push are pairwise
      distinct and collide with no earlier id. */
  lemma AppendedIdsDistinct(commands: seq<Command>, r: seq<Command>)
    requires AppendsFreshPluginCommands(commands, r)
    ensures forall i, j :: |commands| <= i < j < |r| ==> r[i].id != r[j].id
    ensures forall i, c :: |commands| <= i < |r| && c in commands ==> c.id != r[i].id
  {
    forall i, j | |commands| <= i < j < |r|
      ensures r[i].id != r[j].id
    {
      assert r[i] in r[..j];
    }
    forall i, c | |commands| <= i < |r| && c in commands
      ensures c.id != r[i].id
    {
      assert r[..i][..|commands|] == commands;
      assert c in r[..i];
    }
  }

  /** Registering requests that set none of the defaulted fields appends
      one plugin command per request, targeting CHAT and BUILT_IN, with ids
      that are pairwise distinct and collide with no earlier id. */
  lemma RegisteredDefaultsFresh(commands: seq<Command>, requests: seq<CommandRequest>)
    requires forall i :: 0 <= i < |requests| ==> UsesDefaults(requests[i])
    ensures var r := RegisteredAll(commands, requests);
      |r| == |commands| + |requests| &&
      r[..|commands|] == commands &&
      (forall i :: |commands| <= i < |r| ==>
        IsPluginCommand(r[i]) && r[i].target == Chat && r[i].kind == BuiltIn) &&
      (forall i, j :: |commands| <= i < j < |r| ==> r[i].id != r[j].id) &&
      (forall i, c :: |commands| <= i < |r| && c in commands ==> c.id != r[i].id)
  {
    RegisteredAllFresh(commands, requests);
    AppendedIdsDistinct(commands, RegisteredAll(commands, requests));
  }

  /** After `start` the command list has grown by exactly five plugin
      commands, targeting CHAT and BUILT_IN, with pairwise distinct ids that
      no earlier command uses. */
  lemma StartRegistersFive(commands: seq<Command>)
    ensures var r := RegisteredAll(commands, StartRequests.All());
      |r| == |commands| + 5 &&
      r[..|commands|] == commands &&
      (forall i :: |commands| <= i < |r| ==>
        IsPluginCommand(r[i]) && r[i].target == Chat && r[i].kind == BuiltIn) &&
      (forall i, j :: |commands| <= i < j < |r| ==> r[i].id != r[j].id) &&
      (forall i, c :: |commands| <= i < |r| && c in commands ==> c.id != r[i].id)
  {
    RegisteredDefaultsFresh(commands, StartRequests.All());
  }

  /** The five commands `start` appends are panic, relaunch, say, modal and
      option_types, in that order, each with its own handler. */
  lemma StartCommandNames(commands: seq<Command>)
    ensures var r := RegisteredAll(commands, StartRequests.All());
      |r| == |commands| + 5 &&
      [r[|commands|].name, r[|commands| + 1].name, r[|commands| + 2].name,
       r[|commands| + 3].name, r[|commands| + 4].name]
        == ["panic", "relaunch", "say", "modal", "option_types"] &&
      [r[|commands|].execute, r[|commands| + 1].execute, r[|commands| + 2].execute,
       r[|commands| + 3].execute, r[|commands| + 4].execute]
        == [Panic, Relaunch, Say, ShowModal, LogOptions]
  {
    var requests := StartRequests.All();
    RegisteredAllAt(commands, requests, 0);
    RegisteredAllAt(commands, requests, 1);
    RegisteredAllAt(commands, requests, 2);
    RegisteredAllAt(commands, requests, 3);
    RegisteredAllAt(commands, requests, 4);
  }

  /** `stop` removes the first section carrying the plugin's id and keeps
      the others in their order. */
  lemma StopRemovesPluginSection(sections: seq<Section>, i: int)
    requires 0 <= i < |sections| && IsPluginSection(sections[i])
    requires forall j :: 0 <= j < i ==> !IsPluginSection(sections[j])
    ensures WithoutPluginSection(sections) == sections[..i] + sections[i + 1..]
  {
    JsArray.IndexOfFind(sections, IsPluginSection);
    JsArray.SpliceOne(sections, i);
  }

  /** With no plugin section present, `indexOf` yields -1 and `splice(-1, 1)`
      removes the LAST section (nothing, if there are none). */
  lemma StopWithoutPluginSection(sections: seq<Section>)
    requires forall s :: s in sections ==> !IsPluginSection(s)
    ensures sections == [] ==> WithoutPluginSection(sections) == []
    ensures sections != [] ==> WithoutPluginSection(sections) == sections[..|sections| - 1]
  {
    JsArray.IndexOfFind(sections, IsPluginSection);
    JsArray.SpliceMinusOne(sections, 1);
  }

  /** `stop` keeps exactly the commands before the first plugin command and
      drops that one and everything after it, whoever registered them. */
  lemma StopKeepsPrefix(commands: seq<Command>, i: int)
    requires 0 <= i < |commands| && IsPluginCommand(commands[i])
    requires forall j :: 0 <= j < i ==> !IsPluginCommand(commands[j])
    ensures WithoutPluginCommands(commands) == commands[..i]
  {
    JsArray.IndexOfFind(commands, IsPluginCommand);
    JsArray.SpliceToEnd(commands, i);
  }

  /** A block of commands appended after the plugin's own, by anyone, is
      dropped together with it. */
  lemma StopDropsLaterCommands(before: seq<Command>, after: seq<Command>)
    requires forall c :: c in before ==> !IsPluginCommand(c)
    requires after != [] && IsPluginCommand(after[0])
    ensures WithoutPluginCommands(before + after) == before
  {
    var all := before + after;
    forall j | 0 <= j < |before|
      ensures !IsPluginCommand(all[j])
    {
      assert all[j] in before;
    }
    StopKeepsPrefix(all, |before|);
    assert all[..|before|] == before;
  }

  /** With no plugin command present, the `splice(-1, length + 1)` in `stop`
      removes the LAST command (nothing, if there are none). */
  lemma StopWithoutPluginCommands(commands: seq<Command>)
    requires forall c :: c in commands ==> !IsPluginCommand(c)
    ensures commands == [] ==> WithoutPluginCommands(commands) == []
    ensures commands != [] ==> WithoutPluginCommands(commands) == commands[..|commands| - 1]
  {
    JsArray.IndexOfFind(commands, IsPluginCommand);
    JsArray.SpliceMinusOne(commands, |commands| + 1);
  }

  /** Pushing the plugin's section and then removing it restores a section
      list that held no plugin section. */
  lemma SectionRoundTrip(sections: seq<Section>)
    requires forall s :: s in sections ==> !IsPluginSection(s)
    ensures WithoutPluginSection(sections + [PLUGIN_SECTION]) == sections
  {
    var s := sections + [PLUGIN_SECTION];
    forall j | 0 <= j < |sections|
      ensures !IsPluginSection(s[j])
    {
      assert s[j] in sections;
    }
    StopRemovesPluginSection(s, |sections|);
    assert s[..|sections|] + s[|sections| + 1..] == sections;
  }

  /** Registering defaulted requests and then truncating at the first
      plugin command restores a command list that held none. */
  lemma RegisterThenTruncate(commands: seq<Command>, requests: seq<CommandRequest>)
    requires forall c :: c in commands ==> !IsPluginCommand(c)
    requires requests != [] && forall i :: 0 <= i < |requests| ==> UsesDefaults(requests[i])
    ensures WithoutPluginCommands(RegisteredAll(commands, requests)) == commands
  {
    var r := RegisteredAll(commands, requests);
    RegisteredAllPrefix(commands, requests);
    AppendedFreshPlugin(commands, requests, |commands|);
    assert commands + r[|commands|..] == r;
    StopDropsLaterCommands(commands, r[|commands|..]);
  }

  /** Registering the five commands of `start` and then truncating at the
      first plugin command restores a command list that held none. */
  lemma CommandRoundTrip(commands: seq<Command>)
    requires forall c :: c in commands ==> !IsPluginCommand(c)
    ensures WithoutPluginCommands(RegisteredAll(commands, StartRequests.All())) == commands
  {
    RegisterThenTruncate(commands, StartRequests.All());
  }

  /** `start` then `stop`, with nothing pushed in between, restores both
      lists exactly, provided neither held a plugin entry beforehand. */
  lemma StartStopRoundTrip(sections: seq<Section>, commands: seq<Command>)
    requires forall s :: s in sections ==> !IsPluginSection(s)
    requires forall c :: c in commands ==> !IsPluginCommand(c)
    ensures WithoutPluginSection(sections + [PLUGIN_SECTION]) == sections
    ensures WithoutPluginCommands(RegisteredAll(commands, StartRequests.All())) == commands
  {
    SectionRoundTrip(sections);
    CommandRoundTrip(commands);
  }

  /** The round trip on the registry object itself. */
  method StartThenStop(registry: CommandRegistry)
    requires forall s :: s in registry.sections ==> !IsPluginSection(s)
    requires forall c :: c in registry.commands ==> !IsPluginCommand(c)
    modifies registry
    ensures registry.sections == old(registry.sections)
    ensures registry.commands == old(registry.commands)
  {
    StartStopRoundTrip(registry.sections, registry.commands);
    Start(registry);
    Stop(registry);
  }
}
