# Tool executors of an agentic inference gateway, in Dafny

The gateway lets a language model call a fixed set of tools. Each tool runs
something external (a shell command, a file read, an HTTP request) and then
reshapes the raw outcome with deterministic code. This project models that
reshaping, from `server/tools/tools.ts`, and proves what it guarantees:

- `Search` — `searchTextInClient`: the loop that parses `grep -rn` (Unix) and
  `findstr /spin` (Windows) output into `{filePath, line, text}` records,
  including the exact semantics of the two regular expressions (JavaScript
  `.` excludes line terminators, `$` is end of input, the first group is
  lazy), the Windows `path:text` fallback and the error branch. The loop is
  an imperative method proved against a specification function.
- `Quoting` — the rewriting of the search text before it goes into the shell
  command: quotes doubled for `cmd`, and on Unix a replacement of `"` by
  `'\"'`, which in JavaScript is the one-character string `"`, so the text is
  left unchanged (proved).
- `Listing` — `getClientFolderStructure`: stripping `<client folder><sep>` from
  each listing line, joining and trimming.
- `ReadFile` — `readFileContent`: choosing between the `filePath` and `path`
  arguments and building `../client/<path>` without normalisation.
- `Lint` — `findClientLintErrors`: flattening ESLint's per-file JSON report
  into one tagged list, and the error and parse-failure branches.
- `Weather` — `getCurrentWeather`: the API-key check, the `res.ok` test and the
  shaping of the service's JSON into a flat record.
- Support modules: `Wrappers` (Option), `Json` (JavaScript values, truthiness,
  property reads), `Text` (`trim`, `split`/`join`, `indexOf`, decimal digits)
  and `Exec` (what `exec` hands its callback).

The shell, the file system, the network and `JSON.parse` are inputs: an
`ExecOutcome` (error message, stdout, stderr), a function from path to read
outcome, a `FetchOutcome`, and a function from text to parsed report.
`process.platform === 'win32'` is the boolean `isWin`.

Four behaviours of the code are modelled as written although they are
surprising or unsafe:
a missing weather API key throws instead of returning a configuration error;
the Unix search text is not escaped; `..` segments in a file path are not
blocked; and a line that still ends in `\r` never gets a line number on
Windows (`CarriageReturnLineIsUnnumbered`).

## Model

| member | source | states |
|---|---|---|
| `Text.Trim` | server/tools/tools.ts:186 | `s.trim()` is `s` with white space removed at both ends; it is empty exactly when `s` is blank, which is the skip test for a line |
| `Text.IndexOf` | server/tools/tools.ts:194 | `line.indexOf(':')`: the first position of the character, or none exactly when it does not occur |
| `Text.Split` | server/tools/tools.ts:184 | `split('\n')` yields at least one part and no part contains the separator |
| `Text.StartsWith` | server/tools/tools.ts:102 | definition: `line.startsWith(prefix)`; `StripPrefix` and `RelativiseLines` state what follows from it |
| `Text.Join` | server/tools/tools.ts:103 | definition: `.join('\n')`; `JoinSplit` and `SplitJoin` tie it to `Split` |
| `Text.JoinSplit` | server/tools/tools.ts:101-103 | joining the parts of a split with the same separator gives back the original string |
| `Text.SplitJoin` | server/tools/tools.ts:101-103 | splitting a join of separator-free parts gives back the parts, so the number of lines is preserved |
| `Text.DigitsValue` | server/tools/tools.ts:191 | definition: `Number(match[2])` (also at line 203) on a run of decimal digits, as an unbounded natural; `DecimalRoundTrip` ties it to `Decimal` |
| `Text.Decimal` | server/tools/tools.ts:35 | `${res.status}`: at least one decimal digit, with no leading zero when there is more than one |
| `Text.DecimalRoundTrip` | server/tools/tools.ts:35 | the decimal text a status number is rendered as reads back as that number |
| `Search.FindSeparator` | server/tools/tools.ts:189 | the lazy group stops at the first `:<digits>:`: the position found is a separator and no earlier one exists; none is found only when there is none |
| `Search.MatchNumbered` | server/tools/tools.ts:189-191 | `^(.*?):(\d+):(.*)$` matches exactly the lines with no line terminator that contain `:<digits>:`; the record splits the line at the first such separator, with `line` the digits' value and `text` the rest |
| `Search.DotSlashRest` | server/tools/tools.ts:201 | `^\.?\/?` removes exactly the longest of `""`, `.`, `/` and `./` that the line starts with, and the rest is the line's suffix |
| `Search.DotSlashKeepsShape` | server/tools/tools.ts:201 | removing the optional `./` never changes whether the rest matches, so the greedy prefix is the one kept |
| `Search.ParseUnixLine` | server/tools/tools.ts:199-205 | a Unix line gives a numbered record exactly when it has no line terminator and contains `:<digits>:`; the record splits the line after the `./` at the first separator |
| `Search.ParseWindowsLine` | server/tools/tools.ts:187-198 | a Windows line gives a numbered record exactly when the numbered pattern matches; otherwise it gives `{before, null, after}` split at the first colon when that colon is not at index 0; it is dropped exactly when the pattern fails and it has no colon or starts with one |
| `Search.CarriageReturnLineIsUnnumbered` | server/tools/tools.ts:189-197 | on Windows a line holding `\r` never gets a line number |
| `Search.CarriageReturnLineIsDroppedOnUnix` | server/tools/tools.ts:201-204 | on Unix a line holding `\r` yields no record |
| `Search.LineMatch` | server/tools/tools.ts:185-205 | the record one output line yields: a blank line yields none, and on Unix every record carries a line number; the rest is in `ParseUnixLine` and `ParseWindowsLine` |
| `Search.MatchesOf` | server/tools/tools.ts:183-206 | the records of all output lines in order, never more than there are lines; its properties are in `MatchesOfAppend`, `MatchesOfBound` and `MatchesOfMembers` |
| `Search.CollectAppend` | server/tools/tools.ts:183-206 | pushing per line in a loop over concatenated lines concatenates the results |
| `Search.CollectCount` | server/tools/tools.ts:183-206 | the loop pushes exactly one record per line that yields one |
| `Search.CollectMembers` | server/tools/tools.ts:183-206 | a record is pushed exactly when some line yields it |
| `Search.ParsedCountBound` | server/tools/tools.ts:186 | when blank lines yield nothing, the records number at most the non-blank lines |
| `Search.MatchesOfAppend` | server/tools/tools.ts:183-206 | search results appear in input-line order |
| `Search.MatchesOfBound` | server/tools/tools.ts:186 | there are at most as many search results as non-blank lines |
| `Search.MatchesOfMembers` | server/tools/tools.ts:185-206 | every result comes from one output line's parse, and every line that parses contributes its record |
| `Search.ParseSearchOutput` | server/tools/tools.ts:182-206 | the loop over `stdout.split('\n')` that skips blank lines and pushes each line's record computes exactly the specified result list |
| `Exec.FailedWithoutOutput` | server/tools/tools.ts:178 | definition: the guard `error && !stdout`, shared by `SearchTextInClient` and `FindClientLintErrors` (line 145) |
| `Search.SearchTextInClient` | server/tools/tools.ts:177-207 | an error with empty stdout gives `{error, stderr}`; otherwise stdout is parsed even if the command failed |
| `Quoting.ReplaceQuotes` | server/tools/tools.ts:174-175 | replacing every `"` by a replacement string changes the length by (replacement length − 1) per quote |
| `Quoting.WindowsQuote` | server/tools/tools.ts:174 | the `cmd` rewriting adds one character per quote; `WindowsQuoteCounts` and `WindowsQuoteRoundTrip` say which |
| `Quoting.UnixQuote` | server/tools/tools.ts:175 | the `sh` rewriting keeps the length; `UnixQuoteIsIdentity` shows it keeps the text |
| `Quoting.UnixQuoteIsIdentity` | server/tools/tools.ts:175 | the Unix rewriting returns the text unchanged |
| `Quoting.WindowsQuoteCounts` | server/tools/tools.ts:174 | the doubled text has twice as many quotes as the original |
| `Quoting.WindowsQuoteRoundTrip` | server/tools/tools.ts:174 | reading each `""` back as `"` recovers the original text |
| `Listing.ListingPrefix` | server/tools/tools.ts:100 | definition: the client folder followed by `\` on Windows and `/` elsewhere |
| `Listing.StripPrefix` | server/tools/tools.ts:101-103 | a line starting with the prefix loses exactly that prefix; any other line is unchanged |
| `Listing.StripAll` | server/tools/tools.ts:102 | the `.map` keeps the number of lines and strips each line by `StripPrefix` |
| `Listing.Relativise` | server/tools/tools.ts:101-103 | definition: strip every line of the split output and join again; its properties are in `RelativiseLines` and `RelativiseWithoutPrefix` |
| `Listing.GetClientFolderStructure` | server/tools/tools.ts:90-108 | any command error gives `{error, stderr}`, even with output; otherwise the structure is the trimmed, relativised listing |
| `Listing.RelativiseLines` | server/tools/tools.ts:99-103 | the listing keeps its number of lines; a line starting with the prefix loses exactly one copy of it, every other line is unchanged |
| `Listing.RelativiseWithoutPrefix` | server/tools/tools.ts:101-103 | when no line starts with the prefix the listing is unchanged |
| `ReadFile.Given` | server/tools/tools.ts:121-122 | definition: an argument is truthy when it is present and non-empty; `SelectPath` and `ReadFileContent` are stated with it |
| `ReadFile.SelectPath` | server/tools/tools.ts:121 | the path is `filePath` when it is non-empty, else `path` when non-empty, else none |
| `ReadFile.FullPath` | server/tools/tools.ts:125 | definition: `../client/` followed by the argument; its properties are in `FullPathKeepsArgument` and `TraversalIsNotBlocked` |
| `ReadFile.ReadFileContent` | server/tools/tools.ts:120-131 | with no usable argument the result is `{error: "No filePath or path provided."}`; otherwise both the success and failure results carry `../client/<path>` and report the read of exactly that path |
| `ReadFile.ReadFileContentReadsOnlyFullPath` | server/tools/tools.ts:121-127 | the result depends on the file system only at the built path, and not at all when no path is given |
| `ReadFile.FullPathKeepsArgument` | server/tools/tools.ts:125 | the built path is `../client/` followed by the argument verbatim |
| `ReadFile.TraversalIsNotBlocked` | server/tools/tools.ts:121-127 | for any file system, a `filePath` starting with `../` is read at `../client/` followed by it, a path that starts `../client/../` and so leaves the client folder |
| `Lint.Tag` | server/tools/tools.ts:151-154 | a tagged message has the message's keys plus `filePath`; the message's own values win, and `filePath` is the file's path when the message has none |
| `Lint.TagAll` | server/tools/tools.ts:151-154 | one file's messages, each tagged with the file's path, in order |
| `Lint.Flatten` | server/tools/tools.ts:151-154 | every flattened entry carries a `filePath`; the layout is in `FlattenLength`, `FlattenAt` and `FlattenAppend` |
| `Lint.FlattenLength` | server/tools/tools.ts:151-154 | the flattened list has as many entries as the report has messages |
| `Lint.FlattenAt` | server/tools/tools.ts:151-154 | message `j` of file `i` is at position (messages before file `i`) + `j`, tagged with its file's path |
| `Lint.FlattenAppend` | server/tools/tools.ts:151 | flattening keeps file order |
| `Lint.FindClientLintErrors` | server/tools/tools.ts:144-158 | error with empty stdout gives `{error, stderr}`; a parsed report gives exactly its flattened messages, one per message, with stderr; a parse failure gives the fixed message, details, raw stdout and stderr |
| `Weather.HasKey` | server/tools/tools.ts:28 | definition: `!apiKey` is false only for a present, non-empty key |
| `Weather.IsOk` | server/tools/tools.ts:34 | definition: `res.ok` is a status from 200 to 299 |
| `Weather.StatusMessage` | server/tools/tools.ts:35 | definition of the status error text; its properties are in `StatusMessageReadsBack` |
| `Weather.NoPropertiesMessage` | server/tools/tools.ts:39 | definition: the runtime's text for reading `location` of a null or undefined body |
| `Weather.ErrorText` | server/tools/tools.ts:54 | the error text is the thrown message, or `Failed to fetch weather data` when that is empty; never empty |
| `Weather.Shape` | server/tools/tools.ts:38-50 | location falls back to the argument and region/country are undefined without `data.location`; the `current` fields are undefined without `data.current`; condition/icon also need `current.condition` |
| `Weather.GetCurrentWeather` | server/tools/tools.ts:24-56 | a missing key throws whatever the response; a report is returned exactly for an ok response with a non-null body; the report is the shaped body; a non-ok status gives `{location, "Weather API error: <status> <statusText>"}`; a network failure or bad JSON gives its message (or the fallback), and a null or undefined body the runtime's property-read message; every error result names the requested location |
| `Weather.StatusMessageReadsBack` | server/tools/tools.ts:35 | the status error message is the fixed prefix, the status digits (reading back as the status), a space and the status text |
| `Json.Truthy` | server/tools/tools.ts:39-49 | definition: the JavaScript falsy values a JSON value can take are undefined, null, false, 0 and the empty string |
| `Json.Get` | server/tools/tools.ts:39-49 | definition: a property read is an object's own property, or undefined |

## Left out

- `exec`, `fs.readFile` and `fetch` (server/tools/tools.ts:33, 68, 90, 127, 144, 177), with `exec`'s timeout and output buffer limit: I/O; their outcomes are inputs.
- The shell command strings and the client folder's absolute path (server/tools/tools.ts:85-88, 140-143, 170-175 apart from the quote rewriting): the path is a parameter and running a command is an input; the exclusion of `node_modules` happens inside those commands.
- `getCurrentDateTime` (server/tools/tools.ts:8-19): it only reads the clock and formats it with locale data.
- `runTerminalCommand` (server/tools/tools.ts:60-78): it returns `exec`'s outputs unchanged.
- `JSON.parse` and `res.json()`: the parse of stdout is a function parameter, and an exception thrown by the `flatMap` on a report of the wrong shape counts as a parse failure; the weather body is an input.
- `encodeURIComponent` and the weather URL (server/tools/tools.ts:31): library behaviour and a network address.
- `Number()` on digit runs (server/tools/tools.ts:191, 203): line numbers are unbounded naturals, so floating-point rounding of very long digit runs is not modelled.
- JSON numbers are reals; property reads see own properties only, with no prototype chain.
- The zod schemas and the `tool()` wrapper (server/tools/tools.ts:10-12, 23-25, 62-65, 116-119, 166-168): only the weather location's 2–100 length bound is kept, as a precondition.
- String lengths: JavaScript counts UTF-16 code units and the model counts characters, so the 2–100 bound on the weather location differs for text outside the Basic Multilingual Plane; the `URIError` that `encodeURIComponent` throws on a lone surrogate (server/tools/tools.ts:31, before the `try`) is not represented.
- Weather.ErrorText: a thrown value that is not an `Error` is not modelled; every failure carries a message string.
- server/controllers/ai.ts, server/index.ts and client/src/App.jsx: the model call with its step bound lives in the `ai` library, and the rest is HTTP wiring and user interface; they are not part of this model.
