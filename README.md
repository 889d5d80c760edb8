# Vizality command registry bookkeeping, in Dafny

The plugin `vizality-commands-rewrite` adds its own "built-in" chat commands
to the Discord client by writing into two arrays owned by the host:
`BUILT_IN_SECTIONS` (headers in the command picker) and `BUILT_IN_COMMANDS`
(the command descriptors). This project models that bookkeeping and proves
what it does:

- **Fresh ids.** `getNextAvailableCommandID` tries the id strings `"-1"`,
  `"-2"`, … and returns the first one no registered command uses.
- **Registration.** `registerCommand` builds a descriptor from defaults (the
  plugin's application id, a fresh id, the CHAT target, the BUILT_IN type),
  lets the caller's fields override them, and pushes it.
- **start.** Pushes the plugin's section, then registers panic, relaunch,
  say, modal and option_types.
- **stop.** Splices out the section whose id is the plugin's application
  id. Then it truncates the command list at the first command that carries
  that id.

Layout, one module per file:

- `wrappers.dfy` (`Wrappers`): `Option`, standing for JavaScript's
  `undefined` and for fields left out of an object literal.
- `js_array.dfy` (`JsArray`): `Array.prototype.find`, `indexOf` and
  `splice` with JavaScript's semantics. A negative `splice` start counts
  back from the end, and the start and the delete count are clamped.
- `descriptors.dfy` (`Descriptors`): the command, section and option
  records, the command literal handed to `registerCommand`, and the
  plugin's constants.
- `id_allocation.dfy` (`IdAllocation`): `${n}` as a decimal string, its
  inverse, and the recursive id search.
- `requests.dfy` (`StartRequests`): the five command literals of `start`,
  options included.
- `registry.dfy` (`Registry`): the host registry as a class with the two
  lists as fields. It holds the methods `RegisterCommand`, `Start` and
  `Stop`, the functions that specify them, and the lemmas about them.

The id search is recursive in the source. Here `FirstFreeCandidate` does
that recursion on the candidate number and `NextAvailableCommandId` renders
the result. Termination is proved with a finite measure: the set of
registered commands whose id reads back as a candidate at or below the
current one. Every probe that hits shrinks that set by at least one.

`stop` is modelled exactly as written, including two cases a reader might
not expect:

- With no plugin section present, `indexOf` yields -1 and `splice(-1, 1)`
  removes the last section.
- With no plugin command present, `splice(-1, length + 1)` removes the last
  command.

Commands that someone else pushed after the plugin's block are dropped too.
The round trip (start, then stop, with nothing pushed in between) restores
both lists exactly, provided they held no plugin entry to begin with.

`start` registers exactly five commands: panic, relaunch, say, modal and
option_types.

## Model

| member | source | states |
|---|---|---|
| `JsArray.Find` | index.js:249 | `find` returns the first element of the array that satisfies the predicate (none before it does), and returns nothing exactly when no element does |
| `JsArray.IndexOf` | index.js:248-250 | `indexOf` returns -1 for `undefined` or an absent value; otherwise it returns the first index holding that value |
| `JsArray.IndexOfFind` | index.js:254-256 | `indexOf(find(p))` is the first index whose element satisfies `p`, or -1 when no element does |
| `JsArray.Splice` | index.js:247-260 | `splice` never lengthens the array and keeps only elements it had; a delete count of zero or less changes nothing, and a positive count with a start inside a non-empty array removes at least one element (`SpliceOne`, `SpliceMinusOne` and `SpliceToEnd` give the exact result in the cases `stop` uses) |
| `JsArray.SpliceOne` | index.js:247-252 | `splice(i, 1)` at a valid index removes that one element and keeps the rest in order |
| `JsArray.SpliceMinusOne` | index.js:257-260 | `splice(-1, n)` with `n >= 1` removes only the last element; on an empty array it removes nothing |
| `JsArray.SpliceToEnd` | index.js:257-260 | `splice(i, length - i)` truncates the array to its first `i` elements |
| `IdAllocation.IdString` | index.js:21-22 | `${n}` is a non-empty string that starts with a minus sign exactly when `n` is negative (`IdRoundTrip`, `IdStringInjective` and `IdStringCanonical` add that it reads back as `n`, is injective and has no leading zero) |
| `IdAllocation.ParseId` | index.js:21-22 | a string that reads back as a number is non-empty, and one that reads back as a negative number starts with a minus sign (`IdRoundTrip` makes it the left inverse of `IdString`) |
| `IdAllocation.DecimalNoLeadingZero` | index.js:21-22 | the decimal digits of a positive number never start with `0` |
| `IdAllocation.IdStringCanonical` | index.js:21-22 | `${n}` is the canonical spelling: `"0"` for zero, and otherwise no `0` right after the optional minus sign, so the probes compare against `"-1"`, `"-2"`, … and not against another spelling of the same number |
| `IdAllocation.DecimalRoundTrip` | index.js:22 | reading back the decimal digits of `n` gives `n` |
| `IdAllocation.IdRoundTrip` | index.js:22 | the id string `${n}` of any integer reads back as `n` |
| `IdAllocation.IdStringInjective` | index.js:21 | two candidates have the same id string exactly when they are equal, so probing distinct candidates compares distinct strings |
| `IdAllocation.FindById` | index.js:21 | the `find` on command ids succeeds exactly when some command has that id, and what it finds has that id |
| `IdAllocation.BlockersShrink` | index.js:21 | a probe that hits leaves strictly fewer commands that can block later candidates, so the recursion terminates |
| `IdAllocation.FirstFreeCandidate` | index.js:20-23 | the candidate found is at most the start value, no command uses it, and every candidate above it up to the start value is taken |
| `IdAllocation.NextAvailableCommandId` | index.js:20-23 | the returned id is used by no command. It is the canonical string `${n}` of a number `n <= -1` by default, and every candidate `k` with `n < k <= -1` is already taken (there is none when `n = -1`) |
| `StartRequests.All` | index.js:88-241 | `start` registers five command literals, and none sets `applicationId`, `id`, `target` or `type` |
| `Registry.Registered` | index.js:47-58 | one `registerCommand` appends exactly one descriptor and keeps the earlier ones in order (`DescribeOverrides` states what the descriptor holds) |
| `Registry.RegisteredAll` | index.js:88-241 | registering a list of literals in order appends one descriptor per literal (`RegisteredAllPrefix` and `RegisteredAllAt` state what they are) |
| `Registry.DescribeOverrides` | index.js:48-54 | the descriptor that `Describe` builds from the spread literal takes each of `applicationId`, `id`, `target` and `type` from the literal when it sets it and from the default otherwise, and carries the name, description, options and handler over unchanged |
| `Registry.RegisterCommand` | index.js:47-59 | pushes exactly one descriptor at the end, keeps the earlier commands and the sections, and returns the pushed descriptor. Its id is free unless overridden. The plugin id, CHAT and BUILT_IN apply unless overridden. The literal's own fields are carried over |
| `Registry.DescribeDefaults` | index.js:48-54 | a literal that sets none of the defaulted fields gets the fresh id, the plugin's application id, CHAT and BUILT_IN, and keeps its name and handler |
| `Registry.RegisteredAllPrefix` | index.js:56 | registering k literals appends exactly k entries and leaves the earlier entries unchanged and in order |
| `Registry.RegisteredAllAt` | index.js:47-56 | the k-th appended descriptor is built from the k-th literal, with the id allocated against the whole list at the moment of its push |
| `Registry.AppendedFreshPlugin` | index.js:47-56 | each appended command for a defaulted literal is a plugin command for CHAT and BUILT_IN, and its id is used by nothing before it in the list |
| `Registry.RegisteredAllFresh` | index.js:47-56 | after registering defaulted literals, every appended entry is a plugin command whose id was fresh when it was pushed |
| `Registry.AppendedIdsDistinct` | index.js:20-23 | ids that are fresh when pushed are pairwise distinct and collide with no id that was there before |
| `Registry.RegisteredDefaultsFresh` | index.js:47-56 | registering defaulted literals appends one plugin command per literal with pairwise distinct ids new to the list |
| `Registry.Start` | index.js:81-241 | the section list gains exactly the plugin section at its end, and the command list is the old one with the five literals registered in order |
| `Registry.StartRegistersFive` | index.js:88-241 | after `start` the command list has grown by exactly five plugin commands (CHAT, BUILT_IN) with pairwise distinct ids that collide with no earlier id, and the earlier commands are unchanged |
| `Registry.StartCommandNames` | index.js:88-241 | the five appended commands are panic, relaunch, say, modal and option_types, in that order, with their own handlers |
| `Registry.Stop` | index.js:244-261 | the sections become the result of `splice(indexOf(find(section.id === applicationId)), 1)`, and the commands are cut from `indexOf(find(command.applicationId === applicationId))` to the end |
| `Registry.WithoutPluginSection` | index.js:247-252 | the section `splice` of `stop` removes exactly one section from a non-empty list, nothing from an empty one, and adds nothing (`StopRemovesPluginSection` and `StopWithoutPluginSection` say which one) |
| `Registry.WithoutPluginCommands` | index.js:254-260 | the command truncation of `stop` keeps a proper prefix of a non-empty list, and that prefix holds no plugin command (`StopKeepsPrefix` and `StopWithoutPluginCommands` say where it is cut) |
| `Registry.StopRemovesPluginSection` | index.js:247-252 | `stop` removes the first section that carries the plugin's id and keeps the other sections in their order |
| `Registry.StopWithoutPluginSection` | index.js:247-252 | with no plugin section, `stop` removes the last section (or nothing from an empty list) |
| `Registry.StopKeepsPrefix` | index.js:254-260 | `stop` keeps exactly the commands before the first plugin command and drops the rest |
| `Registry.StopDropsLaterCommands` | index.js:254-260 | commands pushed by anyone after the plugin's block are dropped along with it |
| `Registry.StopWithoutPluginCommands` | index.js:254-260 | with no plugin command, `stop` removes the last command (or nothing from an empty list) |
| `Registry.SectionRoundTrip` | index.js:81-86 | pushing the plugin section and then running the `stop` splice restores a section list that held no plugin section |
| `Registry.RegisterThenTruncate` | index.js:254-260 | registering one or more defaulted literals and then running the `stop` truncation restores a command list that held no plugin command |
| `Registry.CommandRoundTrip` | index.js:88-260 | registering the five commands of `start` and then running the `stop` truncation restores a command list that held no plugin command |
| `Registry.StartStopRoundTrip` | index.js:81-261 | `start` then `stop`, with nothing pushed in between, restores both lists exactly, provided neither held a plugin entry (the converse does not hold) |
| `Registry.StartThenStop` | index.js:244-261 | the same round trip on the registry object: running `Start` and then `Stop` leaves both fields as they were |

## Left out

- The effects of the `execute` handlers are not modelled (`vizality.stop()`, `DiscordNative.app.relaunch()`, `this.log`, `openModal` with its JSX tree). They are calls into the host and UI rendering. A handler is an opaque value carried in the descriptor.
- `sendVizalityBotMessage` is not modelled. It only relays to the host's `createBotMessage` and `receiveMessage`, which are not part of this model.
- The `getModule` lookups are not modelled. The registry is a parameter of `Start` and `Stop`, and the host enumerations are opaque datatypes that name only the members the plugin uses.
- `getOptionalString` and the `?.trim() || ''` handling of arguments are not modelled. They only feed the handlers.
- The optional `predicate` field that the documentation of `registerCommand` mentions is not in the command literal, because no command of `start` sets it.
- JavaScript's `indexOf` compares by reference and the model compares by value. This makes no difference here: an element equal to the one `find` returned also satisfies the predicate, so it cannot come earlier in the list. The arrays are assumed to hold no `undefined` entries.
- IdAllocation.NextAvailableCommandId: the search has no depth limit and candidates are unbounded integers. In JavaScript, `getNextAvailableCommandID` recurses once per taken candidate and engines do not eliminate tail calls, so some ten thousand consecutive taken ids would throw `RangeError: Maximum call stack size exceeded`; the model always returns the first free id instead. Beyond that, JavaScript numbers lose precision past 2^53 and `${}` switches to exponent notation at 1e21.
- Concurrency is not modelled. The host calls `start` and `stop` on its single thread, and the round-trip lemmas require that nothing else is pushed in between.
