# smart_raw: a verified model of the Munin raw S.M.A.R.T. values plugin

`smart_raw.py` is a Munin plugin that graphs raw S.M.A.R.T. attribute
values. Without arguments (`fetch`) it runs `smartctl --all` on every
configured drive and parses the attribute table of its report. It then
prints one `smart_raw_{id}_{device}.value {raw}` line for every configured
attribute id that the drive reports. Finally it merges the attribute names
it saw into a JSON state file. With `config` it prints the graph header
and, for every drive and configured id, a label taken from the state file
(`Unknown` when the id has no recorded name) and a lower bound. With
`autoconf` it says whether smartctl can be executed.

This project models that behaviour in Dafny, module by module:

| module | file | what it models |
|---|---|---|
| `Wrappers` | wrappers.dfy | `Option` and `Result` |
| `Text` | text.dfy | Python's `str.isspace`, `str.split()`, `str.join` and `os.path.basename` |
| `RowPattern` | rowpattern.dfy | the data-row expression `SMART_LINE` |
| `Smartctl` | smartctl.dfy | the table parser `smartctl()` |
| `State` | state.dfy | the state file and `munin_state` |
| `Settings` | settings.dfy | the `MUNIN_STATEFILE` check and `settings()` |
| `Plugin` | plugin.dfy | the templates, `munin_fetch`, `munin_config` and `main` |

Notes on the modules:

- **`RowPattern`**: the expression is stated twice. `Matches` gives the cut
  points the expression names. `IsSmartLine` is a scanner. A lemma proves
  that the two accept the same lines.
- **`Smartctl`**: the loop is a method, `ParseOutput`, proved equal to the
  fold `Parse`.
- **`State`**: `StateFile` is a class whose fields are the file's parsed
  contents and the number of times it has been rewritten.
- **`Plugin`**: the loops of `munin_fetch` and `munin_config` are methods.
  They are proved against the functions `FetchRun` and `ConfigText`, and
  the properties of the commands are lemmas about those functions.

The outside world is a set of inputs:

- the four environment variables (`Settings.Env`);
- the results of `which('smartctl')` and `glob.glob('/dev/sd?')`;
- the command-line arguments;
- `tool`, a map from a drive path to the lines smartctl prints for it;
- `isExecutable`, which says whether a path is an executable file;
- the state file's contents before the run.

A run yields the text printed and the exit status, or the exception raised
(`Plugin.Outcome`). It also leaves the state file's new contents and its
number of rewrites.

Fetch responses are modelled as they are written:

- each template ends in a newline;
- the pieces are joined with newlines;
- `print` adds one more newline.

The printed text therefore has a blank line between blocks.

## Model

| member | source | states |
|---|---|---|
| Text.IsSpace | smart_raw.py:47 | defines white space as `\s` and `str.split()` see it, Python's `str.isspace`: tab to carriage return, the file/group/record/unit separators, space, U+0085, U+00A0 and the Unicode space, line and paragraph separators |
| Text.IsDigit | smart_raw.py:47 | defines `\d` as an ASCII decimal digit |
| Text.Words | smart_raw.py:81 | defines `line.split()` as the maximal runs of non-space characters, left to right; its properties are proved by `Text.WordsAreTokens`, `Text.WordsAfterBlank` and `Text.WordsOfJoin` |
| Text.WordsAreTokens | smart_raw.py:81 | `line.split()` yields non-empty tokens without white space; there are none exactly when the line is blank, and the first starts at the line's first non-space character |
| Text.WordsAfterBlank | smart_raw.py:60 | leading white space adds no token to `split()` |
| Text.WordsOfJoin | smart_raw.py:62 | splitting space-joined tokens gives the tokens back |
| Text.Join | smart_raw.py:117 | defines `sep.join(xs)`: the pieces in order with `sep` between neighbours, the empty string for no pieces |
| Text.Basename | smart_raw.py:109 | defines `os.path.basename` as what follows the last '/'; `Text.BasenameIsLastComponent` characterizes it |
| Text.BasenameIsLastComponent | smart_raw.py:109 | `os.path.basename` is the longest suffix without '/': a '/'-free suffix that is all of the path or follows a '/' |
| Text.BasenameUnder | smart_raw.py:60 | the device name of `/dev/{d}` is `d` when `d` has no '/' |
| RowPattern.Matches | smart_raw.py:47 | defines a match of `^\s*\d+.*\s+\d{3}\s+\d{3}\s+\d{3}\s+` as the existence of cut points splitting the line's start into those pieces, `.` excluding newlines |
| RowPattern.IsSmartLine | smart_raw.py:47 | defines `SMART_LINE.search(line)` as a left-to-right scan: leading white space, a digit, then some white-space run before which no newline occurs, followed by three three-digit tokens separated and followed by white space |
| RowPattern.SmartLineMatchesPattern | smart_raw.py:47 | the scanner accepts a line exactly when `^\s*\d+.*\s+\d{3}\s+\d{3}\s+\d{3}\s+` matches it |
| RowPattern.ScannedLineMatches | smart_raw.py:47 | a line the scanner accepts splits into the pieces of the expression |
| RowPattern.MatchedLineScans | smart_raw.py:47 | a line the expression matches is accepted by the scanner |
| Smartctl.Step | smart_raw.py:79-96 | defines one turn of the loop: a line the expression rejects, or whose first token is already a key, leaves the output alone; a new id with fewer than ten tokens raises `IndexError` (`TooFewFields`); otherwise the line's record is stored under its id |
| Smartctl.Parse | smart_raw.py:77-97 | defines `smartctl()`'s result as `Step` folded over the lines from the empty map, the first error ending the parse |
| Smartctl.ToRecord | smart_raw.py:85-96 | a record's fields, in order id, name, flag, value, worst, thresh, type, updated, when_failed, raw, are the first ten tokens; later tokens are dropped |
| Smartctl.RowId | smart_raw.py:82 | a data row's id is its first token, a word starting with a digit |
| Smartctl.ParseOutput | smart_raw.py:71-97 | the parsing loop returns the fold of its per-line step over the lines, stopping at the first IndexError |
| Smartctl.ParseFailureStays | smart_raw.py:85-95 | once a line has raised, the lines after it change nothing |
| Smartctl.ParseCharacterized | smart_raw.py:78-96 | the keys are exactly the ids of the matching lines, each with the record of the first line carrying it; the parse fails exactly when such a first line has fewer than ten tokens; non-matching lines and later lines with a known id are ignored |
| Smartctl.ParsedKeysAreIds | smart_raw.py:82-86 | every record is stored under its own `id` field |
| State.Load | smart_raw.py:137-141 | defines the state `munin_state` reads: the file's object, or `{}` when the file is missing or cannot be parsed |
| State.Written | smart_raw.py:143-151 | defines the file after `munin_state(**kw)`: the read state merged with `kw` when some key was missing or differed, otherwise the file untouched |
| State.ChangedIff | smart_raw.py:143-147 | `modified` is raised exactly when the merge changes the state |
| State.MergeStep | smart_raw.py:144-147 | one turn of the merge loop sets the key and raises the flag exactly when the key was missing or differed |
| State.StateFile.Update | smart_raw.py:135-153 | `munin_state(**kw)` returns the read state merged with `kw`, rewrites the file with it exactly when some key was missing or differed, and leaves the file alone otherwise |
| State.LoadAfterUpdate | smart_raw.py:137-153 | after an update every supplied key has its supplied value, other keys keep theirs, and no key is removed |
| State.UpdateIdempotent | smart_raw.py:143-151 | repeating an update changes nothing and writes nothing |
| Settings.DriveList | smart_raw.py:56-60 | defines the drives as the globbed `/dev/sd?` devices when `smart_raw_drives` is unset, else its tokens each under `/dev/`; `Settings.ConfiguredDrives` proves its properties |
| Settings.ParamList | smart_raw.py:62 | defines the ids as the tokens of `smart_raw_params`, or of `5 187 188 197 198` when it is unset; `Settings.DefaultParamList` gives the default |
| Settings.DevicePaths | smart_raw.py:60 | the i-th drive is `/dev/` followed by the i-th token |
| Settings.Executable | smart_raw.py:52-54 | `smart_raw_smartctl` when set (even to ""), else the result of `which`; empty or missing raises |
| Settings.Resolve | smart_raw.py:27-28 | startup fails exactly when `MUNIN_STATEFILE` is unset or empty or no executable is found, the statefile check coming first |
| Settings.DefaultParamList | smart_raw.py:62 | without `smart_raw_params` the ids are 5, 187, 188, 197 and 198 in that order |
| Settings.ConfiguredDrives | smart_raw.py:56-60 | with `smart_raw_drives` set, the drives are its tokens under `/dev/`, in order, each with the token as its device name when the token has no '/' |
| Plugin.ConfigEntry | smart_raw.py:37-40 | defines the SMART_CONFIG template: `smart_raw_{id}_{device}.label {device}: {name}` and `smart_raw_{id}_{device}.min 0`, each ending in a newline |
| Plugin.FetchEntry | smart_raw.py:41-43 | defines the SMART_FETCH template: `smart_raw_{id}_{device}.value {raw}` and a newline, from the record's id and raw value |
| Plugin.ScanReports | smart_raw.py:105 | defines `smartctl(drive)` as `Smartctl.Parse` of the lines smartctl prints for the drive |
| Plugin.KnownNames | smart_raw.py:114 | the known names map each parsed id to its record's name |
| Plugin.ReportsKeyedById | smart_raw.py:114 | the reports' parses file each record under its id, so `s['id']` is the key |
| Plugin.DriveNames | smart_raw.py:114 | defines the names a drive's report gives its ids, none when the report cannot be parsed |
| Plugin.DriveValues | smart_raw.py:106-111 | defines a drive's value lines: the SMART_FETCH line of each configured id the drive reports, in configured order, with the drive's basename as device |
| Plugin.Reported | smart_raw.py:106-107 | the ids printed for a drive are the configured ids it reports, in configured order |
| Plugin.DriveValuesAt | smart_raw.py:106-111 | a drive's i-th value line is `smart_raw_{id}_{device}.value {raw}` for the i-th configured id it reports |
| Plugin.DriveValuesFields | smart_raw.py:106-111 | every value line of a drive is that of a configured id on that drive |
| Plugin.FetchRun | smart_raw.py:102-115 | defines a run of `munin_fetch` over the drives: per drive, parse its report, append its value lines and merge its names into the file, counting rewrites; the first parse error ends the run with the file as the earlier drives left it |
| Plugin.AppendValues | smart_raw.py:106-111 | the inner loop appends exactly the drive's value lines |
| Plugin.FetchDrive | smart_raw.py:104-115 | one turn of the drive loop advances the run by that drive: lines, file and error |
| Plugin.MuninFetch | smart_raw.py:100-117 | `munin_fetch` prints the joined value lines of all drives and leaves the file as the drive-by-drive merges leave it, or raises the first parse error |
| Plugin.FetchRunStep | smart_raw.py:103-115 | one more drive appends its value lines and merges its names, or fails with its parse error |
| Plugin.FetchFailureStays | smart_raw.py:105 | after a drive's report fails to parse, later drives change nothing |
| Plugin.FetchSucceedsIff | smart_raw.py:103-105 | in the model, fetch succeeds exactly when every drive's report parses (starting smartctl, decoding its output and rewriting the state file cannot fail here) |
| Plugin.FetchStopsAt | smart_raw.py:103-115 | the first unparsable report ends fetch with its error, the file as the earlier drives left it |
| Plugin.FetchIgnoresState | smart_raw.py:100-117 | the printed lines and the error do not depend on the state file |
| Plugin.FetchedFieldsConfigured | smart_raw.py:103-111 | every printed line is the value line of a configured id on a configured drive |
| Plugin.FetchMerges | smart_raw.py:113-115 | a successful fetch leaves the old state merged with every drive's names, later drives overriding earlier ones |
| Plugin.AllNamesLastReporter | smart_raw.py:113-115 | the merged name of an id is the one the last drive reporting it gave |
| Plugin.LastReporterWins | smart_raw.py:103-115 | after a fetch an id's name is the last reporting drive's, whether or not the id is configured, and no key is removed |
| Plugin.AgreedNamesKept | smart_raw.py:113-115 | when no two drives name an id differently, the merged names hold every drive's names |
| Plugin.FetchStable | smart_raw.py:143-151 | a fetch whose names are all recorded already writes nothing |
| Plugin.RefetchWritesNothing | smart_raw.py:100-117 | a second fetch over the same reports prints the same lines and writes nothing, when drives agree on names |
| Plugin.Label | smart_raw.py:129 | defines `known_names.get(param, 'Unknown')` |
| Plugin.DriveConfig | smart_raw.py:126-131 | defines a drive's declarations: one SMART_CONFIG entry per configured id, in order, with the drive's basename as device and the id's label |
| Plugin.ConfigBody | smart_raw.py:125-131 | defines the declarations of all drives, drive after drive |
| Plugin.ConfigText | smart_raw.py:122-132 | defines what `config` prints before print's newline: the HEADER_CONFIG block (`HeaderConfig`, smart_raw.py:32-36) and the declarations, joined with newlines |
| Plugin.DriveConfigAt | smart_raw.py:126-131 | a drive's j-th declaration is that of the j-th configured id |
| Plugin.AppendLabels | smart_raw.py:126-131 | the inner loop appends exactly the drive's declarations |
| Plugin.ConfigLength | smart_raw.py:125-131 | config prints one declaration per drive and configured id |
| Plugin.ConfigEntryAt | smart_raw.py:122-131 | the declaration of the j-th id on the i-th drive is at i * \|params\| + j and labels the field with the recorded name or `Unknown` |
| Plugin.ConfigTextLayout | smart_raw.py:124-132 | config prints the header, then the declarations separated by newlines |
| Plugin.MuninConfig | smart_raw.py:120-132 | `munin_config` prints the header and the declarations, labelled from the state it reads, and never writes the file |
| Plugin.FetchThenConfigLabels | smart_raw.py:114-129 | after a fetch, config labels an id with the name the last drive reporting it gave |
| Plugin.SelectCommand | smart_raw.py:157-170 | no argument selects fetch, `config` and `autoconf` select theirs, anything else is invalid |
| Plugin.RunSpec | smart_raw.py:156-170 | defines one run: startup errors, then the command chosen from the arguments; fetch prints its joined lines or raises the parse error, config prints its text from the state read, autoconf prints `yes` with status 0 or the refusal with status 1, other arguments raise |
| Plugin.RunCommands | smart_raw.py:156-170 | only fetch writes the file; autoconf exits with status 1 exactly when smartctl cannot be executed; other arguments raise |
| Plugin.Run | smart_raw.py:156-170 | `main` after the module-level settings does what the chosen command does, or raises |

## Left out

- Running smartctl is not modelled. This covers `subprocess.run`, decoding its output and `splitlines`. The report of a drive is the input `tool[drive]`, a drive missing from it reports nothing, and the same drive always reports the same lines.
- JSON file handling is not modelled: opening, reading and writing the file, and `json.dump`'s formatting. The file is the `stored` field, with `None` for a file that is missing or cannot be parsed.
- A state file holding valid JSON that is not an object (a list, string, number, boolean or `null`) is not modelled. `munin_state` then raises `AttributeError` at `state.get` (smart_raw.py:145) only when it is given updates: a fetch where some drive reports a data row. A fetch where no drive reports a data row calls it with no updates and does not raise. `config` also calls it with no updates, so it returns that value unchanged, and `known_names.get` in `munin_config` (smart_raw.py:129) raises `AttributeError` when there is at least one drive and one id.
- A state file whose object holds values that are not strings is not modelled. On fetch, such a value compares unequal to the reported name, so it is replaced and the file rewritten (smart_raw.py:145-151). On `config`, it is printed as the label through `str()`, e.g. `3`, `True` or `None` (smart_raw.py:127-131).
- Text.IsDigit: `\d` in the row expression is modelled as the ASCII digits `0`-`9` only. Python's `\d` in a `str` pattern without `re.ASCII` also matches every other Unicode decimal digit, so a row whose id or three-digit tokens use such digits matches in the source but not in the model. RowPattern.Matches, RowPattern.IsSmartLine and Smartctl.Step inherit this narrowing. smartctl prints its attribute table in ASCII.
- `print`, `sys.exit` and the traceback an uncaught exception writes are not modelled. A run's result is the printed text with its status, or the exception (`Raised`).
- The environment variables, `which('smartctl')`, `glob.glob('/dev/sd?')` and the autoconf check `os.path.isfile(...) and os.access(..., os.X_OK)` are inputs, not modelled: they query the operating system.
- State.StateFile.Update: the merge loop takes the keys in any order, not `kw`'s insertion order. The result does not depend on the order.
- State.StateFile.Update: the model assumes every rewrite of the state file succeeds. In the source the read (smart_raw.py:137-141) is guarded by `try`, but the rewrite (`open(..., 'w')` and `json.dump`, smart_raw.py:150-151) is not. When the file or its directory cannot be written, `munin_state` raises `OSError` on the first update that changes a name. When `json.dump` fails partway, for instance on a full disk, the file has already been emptied by `open(..., 'w')`: the next read falls back to `{}` and every recorded name is lost. So across runs, 'no key is removed' (State.LoadAfterUpdate, Plugin.LastReporterWins) holds only while rewrites succeed.
- Plugin.FetchSucceedsIff: the model's fetch fails only on a data row with fewer than ten tokens. It does not raise when smartctl cannot be started (`FileNotFoundError` or `PermissionError` from `subprocess.run` when `smart_raw_smartctl` names a missing or non-executable file, smart_raw.py:73-76), nor when smartctl's output is not valid UTF-8 (`UnicodeDecodeError` from `.decode()`, smart_raw.py:78). It also does not raise when rewriting the state file fails (`OSError` from `open(..., 'w')` or `json.dump`, smart_raw.py:150-151). `munin_fetch` then prints nothing, because its `print` (smart_raw.py:117) comes after the loop. All three depend on the operating system or on the bytes smartctl writes. The model takes the report as already-decoded lines and every rewrite as successful.
- Plugin.RefetchWritesNothing: requires that no two drives give an id different names. Without that, every fetch rewrites the file: the last drive reporting the id overrides the others each time.
- Plugin.KnownNames: keyed by the map key, not `s['id']`. Plugin.ReportsKeyedById proves the two are equal for parsed reports.
