# ArguDuck registry and parser, modelled in Dafny

ArguDuck is a small command-line argument library for Go. A program declares
flags and typed options (string, int, float64, boolean flag), each with a full
name, a short, help text and a help group. A short may be any string, the
empty one included; only uniqueness is checked. Only a one-character short can
be reached from the command line. `Parse`
then walks the argument list once and overwrites the declared values in a
name-to-value store. A `--help` or `-h` token makes it print grouped help text
and exit instead.

This project models that core:

- the parser object `ArguDuck` with its fields (`Args`, `arguments`,
  `shortToFullName`, `helpText`, `aboutMessage`, `parsed`, `helpFlagFound`,
  `programArgs`), as a Dafny class whose methods update the fields in place;
- the argument records of `argumenttypes.go`, as one `Descriptor` datatype with a kind tag;
- the error-code constants of `arguduck_error_codes.go`, as an enum.

Each imperative method is proved against a pure function:

- declaration (`Registry.Declare`);
- value assignment (`Dispatch.AssignValue`);
- the token scan (`Dispatch.ScanUpTo`, `Dispatch.Scan`);
- help layout (`HelpText.SetHelpText`, `HelpText.RenderHelp`, whose layout `HelpText.RenderHelpLayout` states).

The properties are lemmas about those functions.

Layout:

| file | module | models |
|---|---|---|
| error_codes.dfy | ErrorCodes | `ArguDuckErrorString` constants |
| descriptors.dfy | Descriptors | argument records, stored values |
| help_text.dfy | HelpText | `setHelpText`, `printHelpText` layout |
| registry.dfy | Registry | `addArgument`, `determineGroup`, the registry invariants |
| dispatch.dfy | Dispatch | `setArgValue`, `getFullNameFromShort`, the scan in `Parse`, `strconv.Atoi` |
| arguduck.dfy | ArguDuckParser | the `ArguDuck` type and its methods |
| scenarios.dfy | Scenarios | the repository's string-argument test and small command lines |
| options.dfy | Options | an `Option` type |

## Behaviour kept as the code has it

The model follows the code where it differs from what its comments or a
natural reading suggest:

- **The automatic help flag is never added.** The comment at arguduck.go:48
  says a help flag is created when none exists. The condition at arguduck.go:49-53
  calls `Flag("help", "h", …)` only when `"h"` is already an alias, and that
  call is always refused. `Registry.AutoHelpNeverDeclares` and `Parse` prove
  that the registry is left unchanged.
- **A short that nobody owns is fatal, not ignored.** It resolves to the name
  `""`. Looking `""` up in the store finds nothing, and `setArgValue` panics
  (arguduck.go:273-287). The only exception is a program that declared `""` as a name.
  An unknown `--name` and a float option panic in the same way.
- **A missing value is an out-of-range read.** A string or int option given as
  the last token reads past the end of the list (arguduck.go:277, 279). The
  model reports this as `Failure(IndexOutOfRange(i))`, with the store as it was
  at that moment and `parsed` still false.
- **A bad integer is silently dropped.** `setArgValue` reports it, but the
  scan ignores the report (arguduck.go:77, 85, 95). The stored value stays as it
  was, and the scan goes on (`Dispatch.Step`, `Dispatch.InvalidIntegerKeepsRunning`, `Dispatch.InvalidIntegerIsDropped`).
- **The empty short counts.** The uniqueness check covers it
  (arguduck.go:178), so two declarations without a short collide.
- **Values are dispatched again.** A value token that starts with `-` is
  taken as the value, then handled as an option on the next iteration.
- **After help, `parsed` stays false and `helpFlagFound` stays true.** In the
  model, `Parse` returns the help screen instead of ending the process. A later
  `Parse` on the same object therefore returns the help screen again, whatever
  its tokens.

## Model

| member | source | states |
|---|---|---|
| ErrorCodes.Text | arguduck_error_codes.go:6-9 | the code's string; it is empty exactly for OK |
| ErrorCodes.TextInjective | arguduck_error_codes.go:6-9 | no two codes share a string |
| Descriptors.NewDescriptor | arguduck.go:187-198 | the type switch: the descriptor keeps name, short, help and group, and its kind matches the default's dynamic type; string and int defaults are kept |
| Descriptors.GettersReturnBaseFields | argumenttypes.go:13-117 | all four records embed the same base record, and `getName`, `getShort`, `getHelp`, `getGroup` return its fields unchanged |
| Descriptors.DefaultsFollowTheKind | argumenttypes.go:21-72 | string and int records carry a default of their own type; the flag record carries none |
| HelpText.PadRight | arguduck.go:265 | `%-Ns`: the text kept whole, blank-padded to at least N characters |
| HelpText.SetHelpText | arguduck.go:258-268 | help-line length, four-blank indent, the name at column 4, the help text at the end |
| HelpText.HelpLineColumns | arguduck.go:261-265 | the whole line, for any name and short: with w the larger of the name's length and 25, and sw the larger of the short field's length and 4, the line is four blanks, the name blank-padded to w, one blank, the short field (`-c`, or empty without a short) blank-padded to sw, one blank, the help text |
| HelpText.HelpLineFixedColumns | arguduck.go:261-265 | when name and short fit their fields, the short field sits at column 30 and the help starts at column 35, with blanks between |
| HelpText.RenderHelp | arguduck.go:231-254 | the help screen for one iteration order of the group map; its layout is the contract of `RenderHelpLayout`, and `RenderHelpIsComplete` shows it lists every group and line |
| HelpText.RenderHelpLayout | arguduck.go:231-254 | about and a blank line when about is set, then Usage with its lines and a blank, then the other groups |
| HelpText.RenderGroupsAppend | arguduck.go:244-253 | one more group in the iteration order appends exactly that group's block |
| HelpText.GroupBlockRendered | arguduck.go:244-253 | every non-Usage group in the order appears as one block: name, lines, blank |
| HelpText.LineOnScreen | arguduck.go:238-253 | any recorded help line of any group is on the help screen |
| HelpText.RenderGroupsListsName | arguduck.go:244-247 | every non-Usage group in the order has its name among the rendered groups |
| HelpText.GroupOnScreen | arguduck.go:238-253 | the name of every group is on the help screen |
| HelpText.RenderHelpIsComplete | arguduck.go:231-254 | for every iteration order of the map, the screen lists every group and every recorded line |
| Registry.DetermineGroup | arguduck.go:153-158 | the first supplied group, else Usage |
| Registry.HelpLinesOf | arguduck.go:205-207 | a group's help lines: at most one per descriptor, and the line of every member declared in that group; `HelpLinesOfOnlyGroup` gives the converse and `HelpLinesOfAppend` the declaration order |
| Registry.HelpLinesOfOnlyGroup | arguduck.go:205-207 | every help line of a group is the line of some descriptor declared in that group |
| Registry.Declare | arguduck.go:170-210 | ARG_IN_USE exactly when the name is taken; SHORT_IN_USE exactly when the name is free and the short (empty included) is taken; UNKNOWN_TYPE exactly for an unsupported default; every refusal leaves the registry unchanged |
| Registry.DeclareSucceeds | arguduck.go:200-207 | a fresh declaration adds the name bound to its default, appends the descriptor, aliases the short to the name, adds a help line to a non-empty group only; nothing else changes |
| Registry.HelpLinesOfAppend | arguduck.go:221-227 | a new descriptor's line goes to the end of its own group and nowhere else |
| Registry.DeclarePreservesWellFormed | arguduck.go:170-210 | every declaration keeps the invariants: unique names, unique shorts, store and alias table match the descriptors, help lines in declaration order |
| Registry.EmptyIsWellFormed | arguduck.go:26-36 | the fresh registry satisfies the invariants |
| Registry.RetypedStoreKeepsWellFormed | arguduck.go:272-291 | overwriting stored values without changing their types keeps the invariants |
| Registry.AutoHelpNeverDeclares | arguduck.go:49-53 | with "h" already an alias, the help-flag declaration is refused and changes nothing |
| Registry.DuplicateNameRefused | arguduck.go:174-176 | after a successful declaration, the same name is refused with ARG_IN_USE and the registry is kept |
| Registry.HelpScreenListsGroupedArguments | arguduck.go:205-207 | every argument declared in a non-empty group has its line on the help screen |
| Dispatch.Atoi | arguduck.go:279 | integer parsing succeeds exactly on an optional sign followed by one or more decimal digits |
| Dispatch.AtoiReadsDecimal | arguduck.go:279 | every integer written in decimal is read back as itself |
| Dispatch.AssignValue | arguduck.go:272-291 | keys and value types never change; a panic happens exactly for a missing name, a float, or a string/int with no next token, and carries `UnsupportedType(name)` for the first two and `IndexOutOfRange(argIndex)` for the third; an invalid integer report happens exactly for an int whose next token is not an integer literal; without an assignment the store is unchanged; only the target changes; a flag becomes true, a string becomes the next token, an int becomes the next token's integer value |
| Dispatch.GetFullNameFromShort | arguduck.go:214-217 | the owner of a short and true, or "" and false when nobody owns it |
| Dispatch.Targets | arguduck.go:69-98 | the names one token asks to assign, in order; its rules are the contract of `TargetsRules` |
| Dispatch.TargetsRules | arguduck.go:69-98 | no target for a token without a dash or for a lone dash; `--x` targets `x`; `-x` and every character of `-abc` target the alias's owner or "" |
| Dispatch.Step | arguduck.go:77-95 | one `setArgValue` call of the loop: its error report is ignored, and a panic ends the scan; `InvalidIntegerKeepsRunning` states the first for all inputs at all three call sites, `ScanPanicIsFinal` the second |
| Dispatch.InvalidIntegerKeepsRunning | arguduck.go:77-95 | at every `setArgValue` call site, an invalid-integer report leaves the store unchanged and the scan running |
| Dispatch.InvalidIntegerIsDropped | arguduck.go:75-78 | `--x` for an int option followed by a token that is not an integer leaves the store unchanged, and the scan keeps running |
| Dispatch.ApplyNames | arguduck.go:93-96 | the names of one token assigned in order from the same next token, stopping at a panic; `ApplyNamesPanicIsFinal`, `FlagsNeverPanic` and `FlagsThenValueOptionPanics` state its behaviour |
| Dispatch.ScanUpTo | arguduck.go:67-99 | the scan after the first n tokens; `ScanKeepsShape`, `ScanPanicIsFinal` and the per-token lemmas below state its behaviour |
| Dispatch.Scan | arguduck.go:67-99 | the scan over all tokens; `LastTokenScan` and the trailing-option lemmas below state how it ends |
| Dispatch.ScanKeepsShape | arguduck.go:67-99 | the scan never adds or removes keys and never changes a value's type, whether it finishes or panics |
| Dispatch.ScanPanicIsFinal | arguduck.go:67-99 | once a panic happens, later tokens change nothing |
| Dispatch.ApplyNamesPanicIsFinal | arguduck.go:93-96 | a panic in one character of a cluster ends the whole token |
| Dispatch.ApplyNamesSnoc | arguduck.go:93-96 | assigning one more character's owner is one more step of the cluster loop |
| Dispatch.ClusterTargets | arguduck.go:89-94 | a cluster `-abc` targets one name per character after the dash: that character's owner, or "" |
| Dispatch.FlagsNeverPanic | arguduck.go:284-285 | a run of flags never panics, since a flag reads no token |
| Dispatch.FlagsThenValueOptionPanics | arguduck.go:276-279 | with no token left to read, the first string or int option after a run of flags panics with an out-of-range read |
| Dispatch.SkipsNonOptionTokens | arguduck.go:70-72 | a token without a leading dash, or a lone dash, leaves the scan unchanged |
| Dispatch.FullNameAssignsName | arguduck.go:75-79 | `--x` assigns name `x` from the next token |
| Dispatch.LastTokenScan | arguduck.go:67-99 | a scan still running at the last token ends with that token's targets assigned to the store reached so far |
| Dispatch.ValueOptionWithoutTokenPanics | arguduck.go:276-279 | a string or int option with no token left to read panics with an out-of-range read and keeps the store |
| Dispatch.LongValueOptionWithoutTokenPanics | arguduck.go:75-78 | `--x` for a string or int option, with no token left to read, panics and keeps the store |
| Dispatch.ShortValueOptionWithoutTokenPanics | arguduck.go:82-86 | `-c` for the short of a string or int option, with no token left to read, panics and keeps the store |
| Dispatch.TrailingValueOptionPanics | arguduck.go:75-78 | `--x` for a string or int option as the last token panics with an out-of-range read, keeping the store reached before it |
| Dispatch.TrailingShortOptionPanics | arguduck.go:82-86 | `-c` for the short of a string or int option as the last token panics with an out-of-range read, keeping the store reached before it |
| Dispatch.ClusterPanics | arguduck.go:89-98 | with no token left to read, a cluster panics at its first character that belongs to a string or int option, when only flags come before it |
| Dispatch.TrailingClusterPanics | arguduck.go:89-98 | a cluster as the last token panics with an out-of-range read at its first character that belongs to a string or int option, when only flags come before it |
| Dispatch.ShortAssignsOwner | arguduck.go:82-87 | `-c` assigns the owner of the short `c` from the next token, or the name "" when nobody owns `c` |
| Dispatch.UnknownShortPanics | arguduck.go:82-86 | a single-dash short that nobody owns panics unless "" is a declared name |
| ArguDuckParser.ArguDuck.constructor | arguduck.go:26-36 | empty registry, empty about text, not parsed, help not found |
| ArguDuckParser.ArguDuck.GetAbout | arguduck.go:160-162 | the about message; `SetAbout` states that it returns the message last set |
| ArguDuckParser.ArguDuck.SetAbout | arguduck.go:160-166 | after setting, `GetAbout` returns the message |
| ArguDuckParser.ArguDuck.AddHelpText | arguduck.go:221-227 | the argument's line is appended to its group, with an empty group read as Usage |
| ArguDuckParser.ArguDuck.AddArgument | arguduck.go:170-210 | the new fields are what `Declare` gives; a refusal changes nothing; the invariants are kept |
| ArguDuckParser.ArguDuck.Register | arguduck.go:174-208 | the checks and field updates of `addArgument`: the new fields are what `Declare` gives, and a refusal changes nothing |
| ArguDuckParser.ArguDuck.Flag | arguduck.go:106-114 | declares with default false and the group from `determineGroup`; never UNKNOWN_TYPE |
| ArguDuckParser.ArguDuck.Float | arguduck.go:118-126 | declares a float argument; never UNKNOWN_TYPE |
| ArguDuckParser.ArguDuck.Int | arguduck.go:131-139 | declares an int argument with its default; never UNKNOWN_TYPE |
| ArguDuckParser.ArguDuck.String | arguduck.go:143-151 | declares a string argument with its default; never UNKNOWN_TYPE |
| ArguDuckParser.ArguDuck.SetArgValue | arguduck.go:272-291 | the new store and the status are what `AssignValue` gives |
| ArguDuckParser.ArguDuck.DispatchToken | arguduck.go:67-98 | one loop iteration assigns the token's targets in order and reports the first panic |
| ArguDuckParser.ArguDuck.DispatchCluster | arguduck.go:89-98 | the cluster branch assigns the owner of each character in order and reports the first panic |
| ArguDuckParser.ArguDuck.PrintHelpText | arguduck.go:231-254 | the lines are the help screen for some iteration order that visits every group once |
| ArguDuckParser.ArguDuck.DeclareHelpFlag | arguduck.go:48-53 | the help-flag step changes nothing and keeps the invariants |
| ArguDuckParser.ArguDuck.FindHelpFlag | arguduck.go:55-60 | help is found exactly when it was found before or a token is `--help` or `-h` |
| ArguDuckParser.ArguDuck.ScanTokens | arguduck.go:67-99 | the store is the scan's result, and a panic is reported exactly when the scan panics |
| ArguDuckParser.ArguDuck.DispatchAll | arguduck.go:67-101 | the store is the scan's result; `parsed` is set exactly when no panic happened |
| ArguDuckParser.ArguDuck.Parse | arguduck.go:40-102 | a no-op once parsed; the registry is never changed; with a help token, help is produced and no value is assigned; otherwise the store is the scan's result and `parsed` is set exactly when nothing panicked |
| Scenarios.StringArgumentScan | arguduck_test.go:11-28 | `--testarg hello` stores "hello" |
| Scenarios.StringArgumentParsing | arguduck_test.go:11-28 | declaring `testarg`, then parsing `--testarg hello` on the object, reads back "hello" |
| Scenarios.ClusterSetsEachFlag | arguduck.go:89-98 | `-ab` sets both flags |
| Scenarios.IntOptionFromShort | arguduck.go:278-283 | `-p 9090` stores 9090 |
| Scenarios.InvalidIntegerIsIgnored | arguduck.go:279-282 | `-p abc` keeps the old integer and the scan goes on |
| Scenarios.ValueTokensAreNotSkipped | arguduck.go:67-79 | `--name -f` stores "-f" in `name` and then sets the flag `force` (short `f`) |

## Left out

- Reading `os.Args` (arguduck.go:46): `Parse` takes the token list as a parameter.
- Printing and `os.Exit(0)` (arguduck.go:63-64, 234-252): the help screen is returned as lines in `HelpRequested`.
- Panics are modelled as a `Failure` outcome. The store keeps the changes made before the panic. A panic's message text is not modelled.
- The `error` values and their message texts (arguduck.go:175, 180, 197, 281): only the error codes are modelled.
- Float values: a float is the opaque `VFloat`, and `Float` takes no default value. The float64 default (arguduck.go:118-119) and the float32 field (argumenttypes.go:96) are not modelled.
- Dispatch.Atoi: the 64-bit range of Go's `int` and the overflow error of `strconv.Atoi` are not modelled, because integers here are unbounded.
- Go strings are bytes and a cluster is walked by rune (arguduck.go:82, 90, 93). Here a token is a sequence of characters, and `%-25s` pads by character count.
- The order of the non-Usage groups on the help screen is Go's random map order. It is modelled as an arbitrary choice, and `PrintHelpText` promises only that some order of all groups was used.
- `addArgument` is variadic in its group, but it is only ever called with exactly one group (the `determineGroup` result). It is modelled with a single `group` parameter.
- argumenttypes.go names its records `StringArgument` and friends, while arguduck.go:189-195 builds `stringArgument` and friends. Both are one `Descriptor` datatype here.
