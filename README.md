# brother-cube-telegram in Dafny

A model of the core of brother-cube-telegram. This is a Telegram bot that prints labels on a Brother P-touch printer through `ptouch-print`. The printer's power is switched by an active-low GPIO relay. An auto-shutdown timer switches the printer off after a period of inactivity.

The model covers these parts of the system:

- **Power management** (`printers/brother.go`):
  - `ensurePrinterOn`: switch the relay on, then probe the printer with linear back-off retries, then re-arm the auto-shutdown timer.
  - the timer's fire
  - `Close`
  - `exec`, which runs a command only once the printer is powered
  - the printing and preview operations built on `exec`, with their argument vectors and the preview file path

  The state machine is stated once, on values, in module `Power`: `EnsureOn`, `Fire` and `Close` each give the error, the new state, the relay writes and the probes and sleeps. The class `Printers.Printer` keeps the source's mutable fields: the relay, the timer and a clock. Its methods are proved to perform exactly those steps.
- **The relay** (`gpio/relay.go`): the class `Gpio.Relay` with its remembered `lastState`. A ghost log records every pin write.
- **Configuration arithmetic** (`config/config.go`):
  - the retry and auto-shutdown delays
  - the folder permission bits
  - the log-level switch
  - the `~/` expansion of the drafts folder, together with `filepath.Join` and `filepath.Clean` on `/`-separated paths
- **The Telegram side**:
  - the allow-list middleware (`telegram/middleware_authorization.go`)
  - the command registry and usage messages (`telegram/bot.go`)
  - the `/size` handler (`telegram/handler_size.go`)
  - the `/preset` handler and its listings (`telegram/handler_preset.go`)

The handlers are modelled as functions from an update to an outcome: ignore the update, reply with a text, list the presets, or print with given arguments. Separate functions give the reply to the print's result.

Go library behaviour that the core depends on is written out in modules `Text` and `Numbers`, restricted to ASCII:

- `strings.Split`, `SplitN`, `Join`, `TrimSpace`, `ToUpper`
- `strconv.ParseInt(s, 10, 64)`, and `Atoi`, which on a 64-bit platform is the same function: an optional '+' or '-' sign, decimal digits, and an error for a value outside int64
- `fmt`'s `%d`

The world outside the program is passed in as parameters:

- whether each relay pin write succeeds
- the outcomes of the liveness probes
- the exit status and output of the print command
- the file system's answers during a preview
- the value of `TELEGRAM_ALLOWED_CHAT_IDS` (`""` when it is unset)
- the home directory (`""` when unknown)

Durations are whole seconds on an explicit clock.

Behaviours of the code worth knowing:

- `Printer.Close` returns the relay's `TurnOff` error. It does not swallow it; only `Relay.Close` swallows it.
- The timer is not armed exactly when the relay is on. A fresh `TurnOn` whose probes all fail leaves the relay on with the timer stopped (`Power.EnsureOnNoResponse`, `Power.EnsureOnFiveFailedProbes`). The model proves that an armed timer implies the relay is on (`Power.Consistent`).
- `GetFolderPermissions` is not the identity. `os.FileMode` is a `uint32`, so the conversion keeps the low 32 bits.

## Model

| member | source | states |
|---|---|---|
| Text.TrimLeft | telegram/handler_size.go:71 | the result is a suffix of the input, everything removed is white space, and the result does not start with white space |
| Text.TrimRight | telegram/handler_size.go:71 | the result is a prefix of the input, everything removed is white space, and the result does not end with white space |
| Text.TrimSpace | telegram/middleware_authorization.go:55 | the trimmed string neither starts nor ends with white space |
| Text.TrimSpaceSlice | telegram/middleware_authorization.go:55 | TrimSpace is the input with only white space removed from each end: a slice of the input with white space before and after it |
| Text.TrimSpaceIdempotent | telegram/handler_preset.go:48 | trimming twice is trimming once |
| Text.TrimSpaceEmptyIff | telegram/handler_size.go:84 | TrimSpace is empty exactly when every character is white space |
| Text.TrimSpaceKeeps | telegram/handler_preset.go:48 | a string that neither starts nor ends with white space is unchanged by TrimSpace |
| Text.IndexOf | telegram/handler_size.go:52 | the index found holds the separator and no earlier index does; no index means the separator is absent |
| Text.Split | telegram/handler_size.go:52 | at least one piece, no piece holds the separator, and joining the pieces with it gives back the input |
| Text.SplitN | telegram/handler_preset.go:48 | between one and n pieces, none but the last holds the separator (nor the last when fewer than n), and joining gives back the input |
| Text.SplitThree | telegram/handler_size.go:62-71 | three or more pieces exactly when the text is a, separator, b, separator, rest with a and b free of it; the pieces after the second join back to rest |
| Text.SplitSingle | telegram/handler_size.go:54 | Split gives one piece exactly when the separator does not occur |
| Text.SplitNSingle | telegram/handler_preset.go:50 | the same for SplitN with n >= 2 |
| Text.SplitTwo | telegram/handler_size.go:62 | a, separator, b with neither part holding it splits into exactly [a, b] |
| Text.SplitAt | telegram/handler_size.go:52 | splitting a + separator + t, with a free of it, gives a followed by the pieces of t |
| Text.SplitNAt | telegram/handler_preset.go:48 | the same for SplitN with room for two or more pieces |
| Text.UpperChar | config/config.go:100 | lower-case ASCII letters move to upper case; every other character is kept; the result is never lower-case |
| Text.ToUpper | config/config.go:100 | same length, each character upper-cased |
| Numbers.DigitsValueOfDigits | telegram/handler_preset.go:95 | the decimal digits of n read back as n |
| Numbers.ParseInt | telegram/middleware_authorization.go:60 | succeeds exactly on an optionally signed, non-empty run of decimal digits whose value fits in int64, and returns that value |
| Numbers.AtoiFormatRoundTrip | telegram/handler_size.go:74 | Atoi reads back every int64 written with `%d` |
| Numbers.AtoiPlusSign | telegram/handler_size.go:74 | Atoi accepts a leading '+' before the digits of a non-negative int64 |
| Numbers.AtoiRejectsOutOfRange | telegram/handler_size.go:74-75 | a well-formed number outside the int64 range is an error, not a wrapped value |
| Numbers.FormatInt | telegram/handler_preset.go:95 | `%d` gives digits, with a leading '-' for a negative number |
| Numbers.ParseFormatRoundTrip | printers/brother.go:183-191 | every int64 formatted with `%d` parses back to itself |
| Numbers.FormatIntInjective | printers/brother.go:213 | different numbers format differently |
| Numbers.FormatIntPlain | telegram/handler_preset.go:95-98 | a formatted number holds no space, comma or slash |
| Config.GetAutoShutdownDelay | config/config.go:84-86 | the delay is a whole number of minutes, and dividing it by sixty gives back the configured minutes; it is not negative for a non-negative setting |
| Config.GetRetryDelay | config/config.go:89-91 | the delay of retry i is the base delay plus i seconds |
| Config.RetryDelayStep | config/config.go:89-91 | consecutive retries wait exactly one second longer |
| Config.RetryScheduleFiveFive | config/config.go:89-91 | five attempts with a five-second base wait 5, 6, 7 and 8 seconds |
| Config.GetFolderPermissions | config/config.go:94-96 | the mode is the configured int modulo 2^32: equal to it when it is in range, always in [0, 2^32) |
| Config.GetLogLevel | config/config.go:99-112 | DEBUG, WARN and ERROR, after upper-casing, select their levels (in both directions); every other string selects INFO |
| Config.LogLevelRoundTrip | config/config.go:99-112 | every level is read back from its lower- or upper-case name |
| Config.LogLevelIgnoresCase | config/config.go:100 | upper-casing the setting first does not change the level |
| Config.Resolve | config/config.go:121 | the resolved elements are never empty or "." and come from the input; a rooted path keeps no ".." |
| Config.Clean | config/config.go:121 | the cleaned path is never empty, has no "//", and ends in '/' only when it is the root "/" |
| Config.JoinElements | config/config.go:121 | path elements that are non-empty and free of '/', joined by '/', give a path with no "//" that neither starts nor ends with '/' |
| Config.CleanKeepsRoot | config/config.go:121 | Clean keeps a path absolute exactly when it was absolute |
| Config.JoinPath | config/config.go:121 | joining onto an absolute directory gives an absolute path |
| Config.ExpandPath | config/config.go:115-124 | a "~/" path with a known home becomes Join(home, rest); every other path, and any path when the home is unknown, is unchanged |
| Config.ExpandPathAbsolute | config/config.go:115-124 | with an absolute home, a "~/" path expands to an absolute path |
| Config.ExpandPathBareTilde | config/config.go:116 | a bare "~" is not expanded |
| Gpio.Relay.constructor | gpio/relay.go:37-43 | a new relay remembers High, reads as off, and has written nothing |
| Gpio.Relay.GetState | gpio/relay.go:75-77 | on exactly when the remembered level is Low (active-low) |
| Gpio.Relay.TurnOn | gpio/relay.go:47-54 | writes Low; the remembered level becomes Low only when the write succeeds; the error is reported exactly when it fails |
| Gpio.Relay.TurnOff | gpio/relay.go:57-64 | writes High; the remembered level becomes High only when the write succeeds; the error is reported exactly when it fails |
| Gpio.Relay.Toggle | gpio/relay.go:67-72 | writes the opposite of the remembered level; a successful toggle negates the state, a failed one keeps it |
| Gpio.Relay.Close | gpio/relay.go:80-88 | writes High and always reports success |
| Power.ProbeBudget | printers/brother.go:115-118 | at least one probe; exactly RetryAttempts probes for a positive setting |
| Power.ProbesRunFrom | printers/brother.go:118-124 | probing from i stops at the first success or at the budget, never earlier |
| Power.ProbesRun | printers/brother.go:115-124 | between 1 and the budget probes; all but the last fail; stopping early means the last succeeded |
| Power.ProbesRunUnique | printers/brother.go:115-124 | those three properties determine the number of probes |
| Power.ProbeTraceShape | printers/brother.go:115-124 | probes and sleeps alternate: probe j at position 2j, and before retry j+1 a sleep of base + j |
| Power.ProbeTraceSleeps | printers/brother.go:118-119 | the sleeps between m probes are the first m-1 delays of the retry schedule, in order |
| Power.SleepTimeClosedForm | printers/brother.go:118-124 | with a base delay that is not negative, m probes sleep (m-1)·base + (m-1)(m-2)/2 seconds in all |
| Power.EnsureOnNoRelay | printers/brother.go:98-101 | without a relay: success, no write, no probe, timer untouched |
| Power.EnsureOnWrites | printers/brother.go:103-112 | at most one write: Low, exactly when the relay was off; a failed write is the error, before any probe, with nothing changed |
| Power.EnsureOnSucceedsIff | printers/brother.go:97-134 | success exactly without a relay, or with the relay on (or switched on) and one of the first ProbeBudget probes answering |
| Power.EnsureOnProbes | printers/brother.go:114-129 | with power, the events are m probes (1 <= m <= budget, all but the last failing) separated by the retry delays |
| Power.EnsureOnSleepsFollowSchedule | printers/brother.go:114-129 | the sleeps of a call are a prefix of the configured retry schedule (base, base+1, …, RetryAttempts-1 delays), and all of it when every probe fails |
| Power.EnsureOnArmsTimer | printers/brother.go:131-133 | after a success with a relay, the relay is on and the timer fires one delay after the current time |
| Power.EnsureOnNoResponse | printers/brother.go:103-128 | when no probe answers, the relay is left on with no High written, and the timer is the one set before probing |
| Power.EnsureOnConsistent | printers/brother.go:97-134 | ensurePrinterOn keeps the invariant (no timer without a relay; an armed timer means the relay is on) |
| Power.EnsureOnFiveFailedProbes | printers/brother.go:108-128 | five attempts, base five, relay off, silent printer: Low, five probes with sleeps 5, 6, 7, 8, NoResponse, 26 seconds spent |
| Power.FireTurnsOffOnlyIfOn | printers/brother.go:62-74 | a fire writes High exactly when the relay is on, disarms the timer, and never errs |
| Power.FireConsistent | printers/brother.go:62-74 | a fire keeps the invariant |
| Power.CloseIdempotent | printers/brother.go:231-254 | after a successful Close a second Close writes nothing and errs with nothing |
| Power.CloseOutcome | printers/brother.go:231-254 | Close errs exactly on a failed switch-off; otherwise the relay is off or absent; the timer is stopped; at most one write, never Low |
| Power.TwoMinuteShutdown | printers/brother.go:62-94 | with a two-minute delay, the timer is due after 120 idle seconds and not at 119, and its fire is the single write High and leaves nothing armed |
| Printers.ExecRunsOnlyWhenPowered | printers/brother.go:258-273 | the command runs, as the last event, exactly when powering on succeeded; a power failure is returned as such with nothing run |
| Printers.VersionOf | printers/brother.go:137-145 | any failure gives "Unknown version"; a success gives the output |
| Printers.PresetArgsShape | printers/brother.go:182-199 | the font pair comes first exactly for a non-empty family; the vector ends with the size (which parses back to the preset's) and the text |
| Printers.PreviewPathInjective | printers/brother.go:213 | two users never share a preview file |
| Printers.PreviewErrorOrder | printers/brother.go:201-228 | folder failure comes first, with nothing powered or run; then the exec's error; then the read-back failure; success returns the file's bytes |
| Printers.Printer.constructor | printers/brother.go:26-59 | a new printer has its timer stopped and satisfies the invariant |
| Printers.Printer.ResetAutoShutdownTimer | printers/brother.go:77-94 | without a relay nothing; with one the timer fires one delay from now |
| Printers.Printer.Sleep | printers/brother.go:119 | the clock advances by the sleep's length and the sleep is recorded |
| Printers.Printer.ExecDirectInfo | printers/brother.go:277-288 | one probe, recorded, with no power check |
| Printers.Printer.EnsurePrinterOn | printers/brother.go:97-134 | the retry loop performs exactly Power.EnsureOn: the same error, relay writes, probes and sleeps, timer and clock, and it keeps the invariant |
| Printers.Printer.ProbeWithRetries | printers/brother.go:114-129 | the retry loop runs exactly ProbesRun probes with the retry sleeps between them, and answers whether the last one succeeded |
| Printers.Printer.AutoShutdownFire | printers/brother.go:64-72 | one fire of a due timer performs exactly Power.Fire |
| Printers.Printer.Close | printers/brother.go:231-254 | performs exactly Power.Close, including its error |
| Printers.Printer.Exec | printers/brother.go:258-273 | performs exactly ExecOn |
| Printers.Printer.GetVersion | printers/brother.go:137-145 | returns VersionOf of the exec of --version |
| Printers.Printer.GetPrinterInfo | printers/brother.go:148-156 | returns the exec of --info, error included |
| Printers.Printer.PrintLabelYolo | printers/brother.go:158-168 | execs the configured font size and the text |
| Printers.Printer.PrintLabel | printers/brother.go:170-180 | execs the given font size and the text |
| Printers.Printer.PrintLabelWithPreset | printers/brother.go:182-199 | the arguments, built by appending, are PresetArgs; it execs them |
| Printers.Printer.PreviewLabel | printers/brother.go:201-228 | performs exactly Preview |
| TelegramAuthorization.PresentMembers | telegram/middleware_authorization.go:60-66 | a value is kept exactly when some parsed token holds it |
| TelegramAuthorization.PresentAppend | telegram/middleware_authorization.go:54-67 | the values of a concatenation are those of each part in turn |
| TelegramAuthorization.AllowedIDsMembers | telegram/middleware_authorization.go:49-70 | an id is allowed exactly when some token, once trimmed, parses to it |
| TelegramAuthorization.AllowedIDsAppend | telegram/middleware_authorization.go:49-70 | the allowed ids keep the order of the tokens |
| TelegramAuthorization.AllowedIDsStep | telegram/middleware_authorization.go:55-66 | one more token appends its id, if it has one, and nothing else |
| TelegramAuthorization.NoValidTokenAllowsNobody | telegram/middleware_authorization.go:56-64 | a list of only empty or invalid tokens allows nobody |
| TelegramAuthorization.ParseAllowedChatIDs | telegram/middleware_authorization.go:49-70 | the loop returns exactly AllowedIDs of the comma-separated tokens |
| TelegramAuthorization.IsAuthorized | telegram/middleware_authorization.go:73-75 | true exactly when the id is in the list |
| TelegramAuthorization.AuthorizationMiddleware | telegram/middleware_authorization.go:15-46 | an update without message, or any update when the variable is empty, goes on; otherwise it goes on exactly when some token names the chat, and is refused for that chat otherwise |
| TelegramBot.RegistryKeys | telegram/bot.go:21-58 | the registry's keys are exactly help, status, preview, size, preset and ppreview |
| TelegramBot.RegistrySize | telegram/bot.go:21-58 | the six names are distinct: the registry has six entries |
| TelegramBot.GetRegisteredCommands | telegram/bot.go:61-76 | every registry entry and nothing else, then the text-message entry last |
| TelegramBot.GetCommandUsageMessage | telegram/bot.go:117-122 | a registered command gets its entry's usage, example and description; an unregistered command gets the "not available" text |
| TelegramBot.GetCommandUsageMessageWithError | telegram/bot.go:125-130 | the error comes first, followed by a blank line and the command's details or the fallback |
| TelegramBot.UsageMessageFallbackIff | telegram/bot.go:117-122 | the usage message is the fallback exactly for unregistered commands |
| TelegramBot.UsageDetailsFallbackIff | telegram/bot.go:125-130 | the same after the error |
| TelegramBot.HandlersMatchRegistry | telegram/bot.go:103-108 | every command GetBot registers is in the registry, so no registration warns, and every registry entry has a handler |
| TelegramSize.ParseSize | telegram/handler_size.go:52-94 | a printed label is never empty and is already trimmed |
| TelegramSize.SizeIgnoredIff | telegram/handler_size.go:32-45 | the handler is silent exactly for an update without message, text or sender |
| TelegramSize.SizeUsageWithoutSpace | telegram/handler_size.go:52-60 | the plain usage message is the answer exactly when the text has no space |
| TelegramSize.UsageRepliesDiffer | telegram/bot.go:117-130 | each usage error of /size reads differently from the plain usage message |
| TelegramSize.SizeMissingText | telegram/handler_size.go:62-68 | exactly two pieces give the missing-text error |
| TelegramSize.SizePrintIff | telegram/handler_size.go:52-94 | PrintLabel is called with (label, n) exactly when the text is command, size, rest separated by single spaces, Atoi(size) = n, and label = TrimSpace(rest) is not empty |
| TelegramSize.SizeCheckedBeforeLabel | telegram/handler_size.go:74-82 | an invalid size is reported whatever follows it, even an empty label |
| TelegramSize.SizeEmptyLabel | telegram/handler_size.go:84-91 | a valid size followed only by white space gives the empty-label error ("/size 32 ") |
| TelegramSize.SizeDoubleSpace | telegram/handler_size.go:52-82 | two spaces after the command make the size the empty piece, reported as invalid |
| TelegramSize.SizeReplyInjective | telegram/handler_size.go:95-110 | the reply tells success from failure, and one error from another |
| TelegramPreset.ParsePreset | telegram/handler_preset.go:48-76 | a print uses the named preset, which exists; a not-found name does not exist |
| TelegramPreset.PresetIgnoredIff | telegram/handler_preset.go:32-45 | the handler is silent exactly for an update without message, text or sender |
| TelegramPreset.PresetListIff | telegram/handler_preset.go:48-54 | the presets are listed exactly when the trimmed text has no space |
| TelegramPreset.PresetMissingText | telegram/handler_preset.go:56-62 | a command and a single word give the usage error |
| TelegramPreset.PresetPrintIff | telegram/handler_preset.go:48-82 | a print with (name, text, preset) happens exactly when the trimmed text is command, name, text separated by single spaces and the name is configured |
| TelegramPreset.PresetNotFoundIff | telegram/handler_preset.go:64-76 | the not-found reply names the second piece exactly when that name is not configured, whatever follows |
| TelegramPreset.PiecesPrintIff | telegram/handler_preset.go:48-62 | the trimmed text splits into three pieces with `name` second and `text` third exactly when it is command, name and text joined by single spaces |
| TelegramPreset.PiecesSecondIff | telegram/handler_preset.go:48-62 | the trimmed text splits into three pieces with `name` second exactly when it is a command, that name and some rest joined by single spaces |
| TelegramPreset.PresetKeepsInnerSpaces | telegram/handler_preset.go:64-65 | "/preset name text" prints text verbatim, its inner spaces included |
| TelegramPreset.FontInfoMentionsFamily | telegram/handler_preset.go:95-98 | the success reply names a font exactly when the preset has a family |
| TelegramPreset.PresetReplySuccessIff | telegram/handler_preset.go:83-102 | the reply starts with the check mark exactly when the print succeeded |
| TelegramPreset.BuildPresetUsage | telegram/handler_preset.go:105-139 | the loop builds exactly UsageMessage: "No presets" for no names, otherwise header, one line per configured name in order, footer |
| TelegramPreset.BuildPresetNotFound | telegram/handler_preset.go:141-163 | the loop builds exactly NotFoundMessage: the name, then the short listing when there are names |
| TelegramPreset.ListingAppend | telegram/handler_preset.go:120-129 | the listing of a concatenation is the listing of each part in turn |
| TelegramPreset.LinesAppend | telegram/handler_preset.go:120-129 | the concatenated lines of two name lists are the lines of each list in turn, whatever the line of a name is |
| TelegramPreset.ListingStep | telegram/handler_preset.go:120-129 | one more name adds its line at the end of the listing when it has a preset, and nothing otherwise |
| TelegramPreset.ListingOne | telegram/handler_preset.go:121-128 | one name gives its line when it has a preset, nothing otherwise |
| TelegramPreset.ListingInOrder | telegram/handler_preset.go:150-155 | a name's line sits between the lines of the names before and after it |
| TelegramPreset.ListingSkipsUnknown | telegram/handler_preset.go:151-154 | names without a preset add nothing |
| TelegramPreset.UsageWithoutPresets | telegram/handler_preset.go:109-115 | no names give exactly "❌ No presets are configured." |
| TelegramPreset.UsageWithOnlyUnknownNames | telegram/handler_preset.go:117-132 | names none of which has a preset give the header and the footer alone |

## Left out

- Concurrency is not modelled: the timer mutex, the goroutine running `autoShutdownRoutine`, and draining the timer's channel in `resetAutoShutdownTimer`. Each fire is an atomic step (`Printers.Printer.AutoShutdownFire`) taken when the timer is due.
- `NewPrinter` and `NewRelay` are modelled only by the state they set up. Host initialisation, pin lookup, logging, the initial version and info queries, and starting the goroutine are left out.
- Running `ptouch-print`, the file system, `os.Getenv`, `os.UserHomeDir` and every call to the Telegram API are I/O. Their answers are parameters.
- Printers.Printer.AdvanceClock has no counterpart in the source. It stands for time passing between operations.
- The printer model's clock does not advance while a command runs. Only the retry sleeps take time.
- Power.ProbeOk: a probe beyond the supplied list counts as a failure.
- `config.Load`, `config.Get`, the YAML defaults and the logger are not part of this model.
- `GetPreset` and `GetPresetNames` are not defined in the source files modelled here. The presets are a map from name to preset, and `GetPreset` returns nil exactly for a missing name. The names are a sequence in the order `GetPresetNames` returns them.
- `PreviewLabelWithPreset` is not part of this model.
- The `/ppreview`, `/preview`, `/help`, `/status`, default and unknown-command handlers are not part of this model. Neither are the logging, printer and recovery middlewares.
- `sendUnauthorizedMessage` is not part of this model. A refusal is the outcome `Unauthorized(chatId)`.
- TelegramSize.SizeReply and TelegramPreset.PresetReply take the printer error's text as a string. The wording `fmt.Errorf` gives the error in `printers/brother.go` is not modelled.
- Text.TrimSpace and Text.ToUpper treat ASCII only. Go's `strings.TrimSpace` also trims Unicode spaces. Go's `strings.ToUpper` maps non-ASCII letters too; for the log level this changes nothing, since no non-ASCII string upper-cases to DEBUG, WARN or ERROR.
- Config.GetAutoShutdownDelay does not model the overflow of `time.Duration`'s int64 nanoseconds. This needs delays of about 292 years.
- Config.GetRetryDelay does not model that overflow either.
- The argument names `--info`, `--fontsize`, `--text`, `--font` and `--writepng` stand for constants that are declared outside `printers/brother.go`.
- Concrete error values are simplified to error kinds: `Gpio.RelayError`, `Power.PowerError` and `Printers.PrinterError`.
