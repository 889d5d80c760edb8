/** The five command literals `start` hands to `registerCommand`, with their
    option lists. None of them sets `applicationId`, `id`, `target` or
    `type`, so each takes all four defaults. */
module StartRequests {
  import opened Wrappers
  import opened Descriptors

  function Opt(kind: OptionType, name: string, description: string): (o: CommandOption) {
    CommandOption(kind, name, description, None, None)
  }

  function OptWithChoices(kind: OptionType, name: string, description: string, choices: seq<string>): (o: CommandOption) {
    CommandOption(kind, name, description, None, Some(seq(|choices|, i requires 0 <= i < |choices| => Choice(choices[i]))))
  }

  const PANIC: CommandRequest := CommandRequest(
    None, None, None, None,
    "panic", "Temporarily disables Vizality. Reload Discord to restore.",
    None, Panic)

  const RELAUNCH: CommandRequest := CommandRequest(
    None, None, None, None,
    "relaunch", "Forcefully relaunches Discord.",
    None, Relaunch)

  const SAY: CommandRequest := CommandRequest(
    None, None, None, None,
    "say", "Just a test command.",
    Some([CommandOption(StringOption, "message", "Message to say.", Some(true), None)]),
    Say)

  const MODAL: CommandRequest := CommandRequest(
    None, None, None, None,
    "modal", "Opens a modal.",
    Some([
      CommandOption(StringOption, "header", "The modal's header.", Some(true), None),
      Opt(StringOption, "content", "The modal's content."),
      OptWithChoices(StringOption, "separator", "Toggles the header and content separator.", ["Show", "Hide"]),
      OptWithChoices(StringOption, "size", "Size of the modal.", ["Dynamic", "Large", "Medium", "Small"])
    ]),
    ShowModal)

  const OPTION_TYPES: CommandRequest := CommandRequest(
    None, None, None, None,
    "option_types", "You can have spaces in the command name, I just think it looks kind of weird.",
    Some([
      Opt(SubCommand, "SUB_COMMAND", "Doesn't seem to work with built-in commands."),
      Opt(SubCommandGroup, "SUB_COMMAND_GROUP", "Doesn't seem to work with built-in commands."),
      Opt(StringOption, "STRING", "(Descriptions are required.)"),
      Opt(IntegerOption, "INTEGER", "(Descriptions are required.)"),
      Opt(BooleanOption, "BOOLEAN", "(Descriptions are required.)"),
      Opt(UserOption, "USER", "(Descriptions are required.)"),
      Opt(ChannelOption, "CHANNEL", "(Descriptions are required.)"),
      Opt(RoleOption, "ROLE", "(Descriptions are required.)"),
      Opt(MentionableOption, "MENTIONABLE", "(Descriptions are required.)"),
      OptWithChoices(StringOption, "STRING with choices",
        "There's supposed to be a `value` parameter for each choice, but it doesn't seem to do anything.",
        ["Choice A", "Choice B", "Choice C"]),
      OptWithChoices(IntegerOption, "INTEGER with choices",
        "Don't be decieved! This option still returns a string. (Check the console after executing.)",
        ["1", "2", "3"])
    ]),
    LogOptions)

  /** The literals in the order `start` registers them. */
  function All(): (r: seq<CommandRequest>)
    ensures |r| == 5
    ensures forall i :: 0 <= i < |r| ==> UsesDefaults(r[i])
  {
    [PANIC, RELAUNCH, SAY, MODAL, OPTION_TYPES]
  }
}
