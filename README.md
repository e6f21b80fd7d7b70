# gansiweather start-up and status line, in Dafny

gansiweather prints the current weather as one coloured line for a shell
prompt. This project models the two deterministic parts of its program
`ansiweather.go`:

- **Start-up** (`startup.dfy`, module `Startup`). The four package-level
  settings (`api_key`, `cache_seconds`, `location`, `units`) with their
  defaults form the class `Globals`. `Globals.ReadConfig` checks a decoded
  configuration record and merges it into them. `Globals.Start` decides what
  to do from `$HOME` and from what stat reported about
  `$HOME/.config/gansiweather.conf`. Each method is proved equal to a pure
  specification (`AfterReadConfig`, `AfterStart`). The lemmas about those
  functions state the promises: an error assigns nothing, and a merge keeps
  the settings usable. Starting twice is the same as starting once. The
  fields a record sets do not depend on the earlier settings.
- **Status line** (`status_line.dfy`, module `StatusLine`). `Color` looks a
  key up in the colour table and wraps the escape code in `%{`...`%}` in
  shell mode. `FormatWData` concatenates codes, punctuation and the city,
  temperature and humidity exactly as the source does. As a partner,
  `ParseStatusLine` reads the three fields back out of a line. Two lemmas
  prove that it inverts `FormatWData` in both directions. This holds whenever
  the city and temperature contain no code lead character: ESC, or `%` in
  shell mode.

`cache_seconds` is assigned (ansiweather.go:25, 122-124) but never read; the
program has no cache, lock or staleness check, so the model has none.

## Model

| member | source | states |
|---|---|---|
| `Startup.Globals.constructor` | ansiweather.go:23-27 | the settings start as the defaults: empty key, 600 seconds, "Seattle,WA", "imperial"; these are usable |
| `Startup.AfterReadConfig` | ansiweather.go:98-131 | an error is returned exactly when the file could not be loaded or the record has no API key; then nothing is assigned; on success the key is the record's, and cache seconds, location and units are overridden only by a positive or non-empty field |
| `Startup.Globals.ReadConfig` | ansiweather.go:98-131 | the new settings and the returned error are those of `AfterReadConfig` on the old settings; usable settings stay usable |
| `Startup.AfterStart` | ansiweather.go:70-96 | no `$HOME` is an error; a missing config file succeeds with the settings untouched; another stat error is passed on; a non-regular file is an error naming the path; a regular file is read with `readConfig`; every error leaves the settings unchanged |
| `Startup.Globals.Start` | ansiweather.go:70-96 | the new settings and the returned error are those of `AfterStart` on the old settings; usable settings stay usable |
| `Startup.AfterStartAsWritten` | ansiweather.go:79-95 | as the code is written, a missing config file returns stat's not-exist error; every other input behaves as `AfterStart` |
| `Startup.MissingConfigFailsAsWritten` | ansiweather.go:79-95 | with `$HOME` set and no config file, the as-written start fails while the corrected start succeeds |
| `Startup.Message` | ansiweather.go:73-118 | the printed error texts: the path-specific errors begin with the path and ": ", and stat, open, read and decode errors are passed on unchanged |
| `Startup.StartKeepsUsable` | ansiweather.go:117-131 | from usable settings, any start leaves a positive cache time, a location and units |
| `Startup.StartIdempotent` | ansiweather.go:70-131 | starting a second time with the same file gives the same settings and error as starting once |
| `Startup.StartTakesKey` | ansiweather.go:117-121 | reading a regular file succeeds if and only if the record has a key, and that key is then in force |
| `Startup.StartOverridesPrior` | ansiweather.go:117-131 | from any two earlier settings, the same record gives the same error and the same value for every field it sets |
| `StatusLine.Color` | ansiweather.go:202-219 | None (the panic) exactly for a key outside the table; otherwise the table's code, wrapped in `%{`...`%}` exactly in shell mode |
| `StatusLine.ShellWrapsCode` | ansiweather.go:210-218 | a key's shell-mode code is its plain code inside `%{`...`%}`, and the plain code begins with ESC |
| `StatusLine.CodeStartsWithLead` | ansiweather.go:202-218 | every code begins with ESC, or with `%` in shell mode |
| `StatusLine.FormatWData` | ansiweather.go:221-243 | the line begins with the text code followed by the city and ends with the clear code |
| `StatusLine.FormatLayout` | ansiweather.go:228-242 | the line is the city, the temperature and the humidity, in that order, between four constant stretches of codes and punctuation |
| `StatusLine.ParseFormat` | ansiweather.go:221-243 | parsing a formatted line gives back its city, temperature and humidity when city and temperature hold no lead character |
| `StatusLine.FormatParse` | ansiweather.go:221-243 | every line the parser accepts is exactly the formatted line of the fields it returns |
| `StatusLine.ShellModeLength` | ansiweather.go:215-217 | shell mode makes the line exactly 33 characters longer: four for each of the eight codes and one `%` |
| `StatusLine.PercentBeforeClear` | ansiweather.go:236-241 | the character before the final clear code is `%` exactly when shell mode is on or the humidity itself ends in `%` |

## Findings

| source | as written | input that shows it | evidently intended | confidence | as-written member | corrected member |
|---|---|---|---|---|---|---|
| ansiweather.go:79-95 | `fi, err := os.Stat(cfile)` assigns the named result `err`, so the bare `return` at the end returns the not-exist error | `$HOME` set and no file at `$HOME/.config/gansiweather.conf`: `start` fails and `main` exits with status 1 | a missing config file is skipped (the `os.IsNotExist` test) and start-up succeeds with the defaults | high; not executed | `Startup.AfterStartAsWritten` (shown by `Startup.MissingConfigFailsAsWritten`) | `Startup.AfterStart` (used by `Startup.Globals.Start`) |

`PercentBeforeClear` differs from the simple reading that the `%` before the
clear code appears if and only if shell mode is on. The humidity the service
returns normally ends in `%` itself, for example "65%". So without shell mode
a `%` can stand there too. The lemma states the exact condition.

## Left out

- `queryWService` (ansiweather.go:156-184): a network HTTP GET with a hard-coded city and state, and a panic on a non-200 status.
- `parseWJson` (ansiweather.go:186-200) and its test: JSON decoding and the `%.02f` formatting of a `float64` temperature.
- `main` (ansiweather.go:48-68), `init` (ansiweather.go:43-46) and the `flag.Parse()` call at the top of `start` (ansiweather.go:71): process exit, printing and flag parsing, including the exit on a bad flag. The `-shell` flag that `flag.Parse()` sets is the `shell` parameter of `Color` and `FormatWData`.
- `os.Getenv`, `os.Stat`, `os.Open`, `ioutil.ReadAll` and `json.Unmarshal`: their results are the inputs `home`, `Stat` and `Load`. What each error message says is kept as an opaque `reason` string.
- `Startup.Message`: does not model the text Go adds to stat, open, read and decode errors; those reasons are opaque strings here.
