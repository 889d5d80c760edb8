/** The records the plugin pushes into the host's command registry: command
    descriptors, the caller-supplied command literal they are built from, and
    section descriptors. The host's enumerations are opaque: only the members
    the plugin names are distinguished. */
module Descriptors {
  import opened Wrappers

  /** The plugin's application id, shared by its section and its commands. */
  const APPLICATION_ID: string := "861848400714399765"

  /** `ApplicationCommandTarget`: the plugin only uses CHAT. */
  datatype CommandTarget = Chat | OtherTarget(code: int)

  /** `ApplicationCommandType`: the plugin only uses BUILT_IN. */
  datatype CommandType = BuiltIn | OtherCommandType(code: int)

  /** `ApplicationCommandSectionType`: the plugin only uses GUILD. */
  datatype SectionType = Guild | OtherSectionType(code: int)

  /** `ApplicationCommandOptionType`. */
  datatype OptionType =
    | StringOption | IntegerOption | BooleanOption | UserOption | ChannelOption
    | RoleOption | MentionableOption | SubCommand | SubCommandGroup

  datatype Choice = Choice(name: string)

  /** One typed parameter of a command; `required` and `choices` may be absent. */
  datatype CommandOption = CommandOption(
    kind: OptionType,
    name: string,
    description: string,
    required: Option<bool>,
    choices: Option<seq<Choice>>)

  /** The `execute` callback, kept as an opaque value: what a handler does
      when the host runs it lies outside this model. */
  datatype Handler = Panic | Relaunch | Say | ShowModal | LogOptions | HostHandler(name: string)

  /** An entry of `BUILT_IN_COMMANDS`. */
  datatype Command = Command(
    applicationId: string,
    id: string,
    target: CommandTarget,
    kind: CommandType,
    name: string,
    description: string,
    options: Option<seq<CommandOption>>,
    execute: Handler)

  /** The object literal handed to `registerCommand`. The four fields that
      have defaults may be left out (None); when given they win, because the
      literal is spread after the defaults. */
  datatype CommandRequest = CommandRequest(
    applicationId: Option<string>,
    id: Option<string>,
    target: Option<CommandTarget>,
    kind: Option<CommandType>,
    name: string,
    description: string,
    options: Option<seq<CommandOption>>,
    execute: Handler)

  /** An entry of `BUILT_IN_SECTIONS`. */
  datatype Section = Section(id: string, kind: SectionType, name: string, icon: string)

  /** The section `start` pushes. */
  const PLUGIN_SECTION: Section :=
    Section(APPLICATION_ID, Guild, "Vizality Commands", "838cbc9f20a59ff7bad484c077220def")

  /** `section.id === applicationId`, the test `stop` looks for. */
  predicate IsPluginSection(s: Section) {
    s.id == APPLICATION_ID
  }

  /** `command.applicationId === applicationId`, the test `stop` looks for. */
  predicate IsPluginCommand(c: Command) {
    c.applicationId == APPLICATION_ID
  }

  /** A request that leaves all four defaulted fields to `registerCommand`. */
  predicate UsesDefaults(r: CommandRequest) {
    r.applicationId.None? && r.id.None? && r.target.None? && r.kind.None?
  }
}
