# mlog leveled logger, modelled in Dafny

This project models the leveled logger of the Go package `mlog` (`logger.go`).
A `Logger` holds one integer threshold, `level`, and four channels: error,
warning, info and debug. Each emit method compares its tier's fixed rank
(Error 0, Warning 1, Info 2, Debug 3) with the threshold and writes only when
the rank is at most the threshold. `Error` writes its message and then aborts
with the same message. The threshold is set from an integer (`SetLevel`,
unchecked) or from a level name (`SetLevelByName`). The name is upper-cased
and looked up in a four-entry table. A name missing from the table yields the
map's zero value, 0, which is Error's rank.

Two modules:

- `Strings` (`strings.dfy`): ASCII upper-casing, standing in for the string
  library's upper-case conversion. It also defines `IsCasingOf(s, key)`
  ("`s` spells `key` in some mixture of cases"), and proves that for an
  upper-case key, upper-casing `s` gives the key exactly when `s` is a casing
  of it.
- `Mlog` (`logger.dfy`): the level constants and the name table; the filter
  `Emits` and `Emitted`, the lines one emit call appends; `LevelByName`;
  the package default threshold as the class `Defaults`; and the class
  `Logger`. The four line writers are reduced to one abstract sink, the field
  `written: seq<Line>`. Each `Line` is a (channel prefix, message) pair.
  Aborting is an explicit result: `Error` returns `Fault(message)` where the
  source panics, and `Skipped` where it returns normally. The frames show
  that no emit method changes `level`, and that `SetLevel` and
  `SetLevelByName` leave the sink alone. The method `Usage` is a client that
  checks, from the contracts alone, that a logger snapshots the default
  threshold, that the filter works, that names are matched without regard to
  case, that unknown names select Error, and that `Error` behaves as
  log-then-abort.

## Model

| member | source | states |
|---|---|---|
| `Strings.UpperChar` | logger.go:83 | the result is never a lower-case ASCII letter; a lower-case letter becomes its upper-case form, every other character is kept |
| `Strings.ToUpper` | logger.go:83 | upper-casing keeps the length and maps every character through `UpperChar`, so the result has no lower-case letters |
| `Strings.ToUpperIdempotent` | logger.go:83 | upper-casing an upper-cased name changes nothing |
| `Strings.CasingIffUpper` | logger.go:83 | for a key with no lower-case letters, `ToUpper(s) == key` holds exactly when `s` is some casing of the key |
| `Mlog.LevelsOrdered` | logger.go:16-21 | the tiers are 0, 1, 2, 3 and Error < Warning < Info < Debug |
| `Mlog.LevelNamesUpper` | logger.go:23-28 | every key of the name table is upper-case, so upper-casing a name can reach it |
| `Mlog.EmitsMonotoneInLevel` | logger.go:38-70 | a tier that emits at threshold L emits at every threshold above L |
| `Mlog.EmitsMonotoneInSeverity` | logger.go:38-70 | when a tier emits, every tier of lower rank (more severe) emits at the same threshold |
| `Mlog.EmitsAtExtremes` | logger.go:38-70 | at threshold Debug all four tiers emit; at threshold Error only Error emits; below Error none emits |
| `Mlog.Emitted` | logger.go:38-70 | one emit call appends at most one line; it appends one exactly when the tier's rank is at most the threshold, and that line carries the channel's prefix and the message |
| `Mlog.LevelByName` | logger.go:80-84 | a name always selects one of the four tiers, never anything outside 0..3 |
| `Mlog.LevelByNameSpec` | logger.go:23-28 | a name selects Warning, Info or Debug exactly when it is a casing of "WARNING", "INFO" or "DEBUG", and Error otherwise, including every casing of "ERROR" |
| `Mlog.LevelByNameIgnoresCase` | logger.go:80-84 | any casing of a table name selects that name's tier |
| `Mlog.LevelByNameUnknown` | logger.go:83 | a name that is no casing of a table name selects Error's rank, 0 (the map's zero value), not a failure or "no change" |
| `Mlog.Defaults.constructor` | logger.go:12 | the package default threshold starts at Info |
| `Mlog.Logger.NewLogger` | logger.go:92-103 | a new logger's threshold is the default as read at construction, its sink is empty, and its channels carry the prefixes `[ERROR]: `, `[WARNING]: `, `[INFO]: `, `[DEBUG]: ` |
| `Mlog.Logger.Error` | logger.go:38-46 | at a threshold of 0 or more, one `[ERROR]: ` line with the message is appended and the call faults with that same message; below 0 nothing is written and the call returns normally; the threshold is unchanged |
| `Mlog.Logger.Warning` | logger.go:48-54 | appends one `[WARNING]: ` line with the message when 1 is at most the threshold, else leaves the sink alone; earlier lines and the threshold are unchanged |
| `Mlog.Logger.Info` | logger.go:56-62 | appends one `[INFO]: ` line with the message when 2 is at most the threshold, else leaves the sink alone; earlier lines and the threshold are unchanged |
| `Mlog.Logger.Debug` | logger.go:64-70 | appends one `[DEBUG]: ` line with the message when 3 is at most the threshold, else leaves the sink alone; earlier lines and the threshold are unchanged |
| `Mlog.Logger.SetLevel` | logger.go:74-78 | the threshold becomes the given integer, with no range check; nothing else changes |
| `Mlog.Logger.SetLevelByName` | logger.go:80-84 | the threshold becomes the tier the name selects, always within 0..3; nothing else changes |
| `Mlog.Logger.Level` | logger.go:86-90 | returns the current threshold, so after `SetLevel(x)` it returns `x` |

## Left out

- The read/write lock around the threshold: the accessors are modelled as plain sequential reads and writes of the field, so concurrent callers are not modelled.
- The line writer's own output step: date and time stamps, the caller's file and line, and the write to the output stream are I/O, clock access and runtime introspection. Each write is one abstract `(prefix, message)` line.
- The output stream is shared by every logger built while it was the default; the model gives each logger its own sink, so interleaving across loggers is not captured.
- The default output stream and the default line-format flags: they only configure the writers. Only the default threshold is modelled (`Defaults`).
- Printf-style formatting in `Warning`, `Info` and `Debug`: the formatted message is an opaque string supplied by the caller.
- `Mlog.Logger.Error`: takes the error's message string, not an error value; calling the error's message method is not modelled.
- `Mlog.Logger.Error`: the panic is the explicit result `Fault(message)`; process termination and recovery by callers are not modelled.
- `Strings.ToUpper`: upper-cases ASCII letters only. The Unicode-aware conversion of the source also maps some non-ASCII letters onto table letters (dotless `ı` becomes `I`, so `ınfo` selects Info there); the model treats such names as unknown.
