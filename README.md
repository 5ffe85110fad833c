# anyrun in Dafny

anyrun is a small process supervisor. A Go server reads a list of applications from
a TOML-like file (`anyrun.toml`). It starts, stops and restarts them on request. It
reports whether each one is running, and it guards its HTTP API with a login. A React
client shows the applications in a searchable list of ten-row pages, and it has dialogs
that add, edit and delete entries.

This project models the core of both sides and proves properties about the model:

- `wrappers.dfy`, `text.dfy`: `Option`/`Result` and JavaScript-style `||` defaults. They
  also model the Go and JavaScript string operations the core relies on:
  `strings.TrimSpace`, `strings.Trim(v, "\"")`, `SplitN(…, 2)`, `strings.Split`,
  `strings.Fields`, `strconv.Atoi` on 64-bit integers, `%d`, `parseInt` and ASCII
  `toLowerCase`/`includes`.
- `config.dfy`: the configuration records and the line-by-line reader `LoadConfig`. The
  reader is a loop over the lines, specified by a fold `Run` of the per-line rule `Step`.
  An independent reference definition (`AppSections`/`Records`/`Named`) says which
  applications a file describes.
- `config_writer.dfy`: the writer `saveConfig`. It proves what the reader gets back from
  what the writer wrote. It also holds the corrected writer that keeps the `[user]` section.
- `auth.dfy`: password checking, the token gate in front of the API, and the
  change-password handler.
- `process.dfy`: the command line built for an application, and the process table with
  its three operations: start, stop and status query.
- `handlers.dfy`: the start/stop handlers for one application, and the start-all,
  stop-all and restart-all handlers with their failure reports.
- `view.dfy`: the client's merged list, search, pages and page buttons. It also covers
  the list rewrites behind saving and deleting an application.
- `add_app.dfy`, `edit_app.dfy`: the add and edit dialogs.

A value is written back as `"%s"` with no escaping. So the round-trip lemmas require the
written texts to have no `"` at either end and no line break (`Savable`). With such
values, reading what was written gives back every application exactly.

## Model

| member | source | states |
|---|---|---|
| ConfigFile.KeyValue | config.go:135-145 | a line yields a key/value pair exactly when it contains `=` |
| ConfigFile.LoadConfig | config.go:35-182 | an unreadable file gives the fallback configuration (port 5173, no apps, user `admin` on first login) and the error; a readable one gives the fold of the per-line rule over its lines, final record flushed, and no error |
| ConfigFile.ReadLine | config.go:68-173 | one pass of the reader's loop is exactly the per-line rule `Step` |
| ConfigFile.RunAppend | config.go:68-173 | reading two runs of lines one after the other is reading their concatenation |
| ConfigFile.IgnorableLineHasNoEffect | config.go:69-72 | a blank or `#` line inserted anywhere leaves the parsed configuration unchanged |
| ConfigFile.StrayKeyLineIgnored | config.go:106-133 | before the first `[[apps]]` and outside `[user]`, a key line changes nothing |
| ConfigFile.UIPortLineSetsPort | config.go:80-94 | a `uiPort`/`ui_port` line changes only the port, and only when it has an `=` and the value, trimmed of spaces and quotes, is an integer |
| ConfigFile.UIPortBadValueKept | config.go:82-91 | a port line without `=` or with a non-integer value changes nothing |
| ConfigFile.UserKeyLineSets | config.go:106-131 | before the first `[[apps]]` and inside `[user]`, `username` and `passwordHash` take the value, `firstLogin` is true exactly for `true`/`True`/`TRUE`/`1`, and other keys change nothing |
| ConfigFile.AppsLineStartsRecord | config.go:96-104 | `[[apps]]` closes the open record, keeping it only if named, opens an empty one and leaves the `[user]` section |
| ConfigFile.BooleanKeys | config.go:156-161 | `daemon`, `autostart` and `firstLogin` are true exactly for `true`, `True`, `TRUE` and `1` |
| ConfigFile.BadValuesIgnored | config.go:162-171 | a non-integer `timeout`/`port` and an unknown key leave the record unchanged |
| ConfigFile.ParsedAppsNamed | config.go:98-101 | every application read has a non-empty name |
| ConfigFile.UIPortDefault | config.go:64 | without a `uiPort`/`ui_port` line the port is 5173 |
| ConfigFile.UserDefault | config.go:65-66 | without a `[user]` line the user is blank with first login set |
| ConfigFile.AppsAreNamedSections | config.go:96-178 | the applications read are the named records of the `[[apps]]` blocks, in file order |
| ConfigWriter.AppBlocks | api.go:39-51 | each application is written as an eleven-line block |
| ConfigWriter.SaveConfig | api.go:30-53 | a create error is returned and nothing written; otherwise the header and one block per application are written |
| ConfigWriter.SaveLoadRoundTrip | api.go:30-53 | reading back what `saveConfig` wrote gives the same port and the same applications, but a blank user |
| ConfigWriter.SaveLosesChangedPassword | api.go:182-191 | a concrete configuration whose changed password does not survive save and reload |
| ConfigWriter.SaveWithUserRoundTrip | api.go:30-53 | the corrected writer's output reads back as the configuration itself |
| Auth.Authenticate | api.go:63-75 | no user or another name is refused; the right name on first login with no hash is accepted; otherwise the right name is accepted exactly when the password hashes to the stored hash |
| Auth.Gate | api.go:78-106 | a request passes exactly for the open paths, for a user with neither a hash nor first login, or with the exact bearer token; a rejection is 401, `Unauthorized` exactly when no header was sent |
| Auth.GateOpenWithoutPassword | api.go:86-90 | with no password hash and first login over, every request passes |
| Auth.GateRejections | api.go:92-103 | a missing header gives `Unauthorized`, a wrong one `Invalid token` |
| Auth.FirstLoginAcceptsAnyPassword | api.go:70-73 | on first login with no hash, any password is accepted for the right name |
| Auth.Server.ChangePassword | api.go:159-194 | a failed check gives 401 and no change; otherwise the user becomes the given name with the new hash and first login off, and the save gives 500, or 200 with the text `saveConfig` writes, which has no `[user]` section |
| Auth.NewPasswordWorks | api.go:182-188 | after the change the new password authenticates and the old one does only if it hashes the same |
| Auth.ChangedPasswordSurvivesReload | api.go:182-191 | with the corrected writer, the new password still authenticates after reload |
| Auth.ReloadAfterSaveBlanksLogin | config.go:66 | after the writer as written and a reload, only the empty user name authenticates |
| Process.ArgWords | process.go:75-77 | the argument text is split into its whitespace-separated words |
| Process.BuildCommand | process.go:31-99 | an error exactly when neither `execute` nor `appPath` is set; the program is `execute`, or `appPath` when `execute` is empty; no argument is empty |
| Process.CommandArguments | process.go:31-99 | the arguments are the type's leading words, then `appPath` if set, then the words of `args` |
| Process.JarArguments | process.go:32-38 | `java` with a `.jar` path runs `java -jar <path> <args>` |
| Process.NpmArguments | process.go:50-59 | `npm` runs `npm run <path> <args>` |
| Process.PlainArguments | process.go:39-77 | any other program gets the path, then the words of `args` |
| Process.SameCommandOnEveryPlatform | process.go:31-99 | the Windows and Unix branches build the same command |
| Process.DirectPathRepeated | process.go:69-99 | with `execute` empty the path is both the program and its first argument |
| Process.ArgsReachProgram | process.go:75-77 | words joined by single spaces reach the program as those words, last in the argument list |
| Process.StartResult | process.go:29-137 | success exactly when a command exists and the process started with a positive pid, which then records the pid and start time; every error keeps or removes the entry as the source does; positive pids stay positive |
| Process.StopResult | process.go:139-183 | an unknown name gives `app not running` and no change; success removes the entry, on Windows or after a failed signal only if the kill succeeded; an error keeps the table |
| Process.StatusResult | process.go:185-225 | `running` exactly when tracked and (Windows) the pid is positive or (Unix) the process answers a signal; a stopped application is dropped from the table with pid 0 and no start time |
| Process.RestartForgetsEarlierProcess | process.go:105-108 | starting an application that is already tracked replaces its entry |
| Process.StartThenStop | process.go:105-181 | starting and then stopping with no errors leaves the application untracked |
| Process.WindowsTrackedIsRunning | process.go:191-198 | on Windows a tracked application always reports `running` |
| Process.ProcessTable.StartApp | process.go:29-137 | the table and error are those of `StartResult` on the old table |
| Process.ProcessTable.StopApp | process.go:139-183 | the table and error are those of `StopResult` on the old table |
| Process.ProcessTable.QueryStatus | process.go:185-225 | the table and status are those of `StatusResult` on the old table |
| Handlers.FirstNamed | api.go:219-221 | the first index with the name, or none exactly when no entry has it |
| Handlers.ActionResponse | api.go:222-229 | 200 exactly when the operation returned no error, otherwise 500 |
| Handlers.HandleStart | api.go:215-236 | an unknown name gives 404 and no change; otherwise the first entry of that name is started as `StartResult` says and the answer reports its error |
| Handlers.HandleStop | api.go:238-259 | an unknown name gives 404 and no change; otherwise the first entry of that name is stopped as `StopResult` says |
| Handlers.Failures | api.go:264-270 | the failure list is empty exactly when no attempt reported an error |
| Handlers.BulkResponse | api.go:271-277 | 200 exactly when nothing failed, otherwise 500 |
| Handlers.StartAll | api.go:262-278 | every application is started in order, and the table and answer are those of the start fold |
| Handlers.StopAll | api.go:280-296 | every application is stopped in order, and the table and answer are those of the stop fold |
| Handlers.RestartAll | api.go:298-325 | a stop pass that ignores `app not running`, then a start pass over the stopped table, tagged `(stop)` and `(start)` |
| Handlers.StartEachAttemptsEach | api.go:265-270 | the i-th start is attempted on the table the first i starts left |
| Handlers.StopEachAttemptsEach | api.go:283-288 | the i-th stop is attempted on the table the first i stops left |
| Handlers.StartEachPrefix | api.go:265-270 | starting the first m applications gives the first m errors of starting all of them |
| Handlers.StopEachPrefix | api.go:283-288 | stopping the first m applications gives the first m errors of stopping all of them |
| Handlers.StopEachRemoves | api.go:280-296 | when no kill fails, stopping all untracks every listed name and reports only `app not running` |
| Handlers.RestartStopPhaseQuiet | api.go:302-308 | when no kill fails, the stop pass of a restart reports nothing |
| Handlers.StartEachSucceeds | api.go:262-278 | when every application has a command and every start gives a positive pid, all are tracked and none fails |
| View.FindStatus | web/src/App.jsx:40 | the first status entry with the name, or none exactly when no entry has it |
| View.Merge | web/src/App.jsx:39-48 | one row per configured application, in order, with the path and with pid, status and port from the matching status or `stopped` and nulls |
| View.UnmatchedStatusesIgnored | web/src/App.jsx:39-48 | status entries for unknown names change nothing, wherever they stand |
| View.Filter | web/src/App.jsx:68-71 | the kept rows are exactly the matching rows |
| View.Search | web/src/App.jsx:64-74 | an empty term keeps every row; otherwise a row is kept exactly when it matches |
| View.FilterAppend | web/src/App.jsx:68-71 | the filter keeps the rows' order |
| View.SearchIdempotent | web/src/App.jsx:64-74 | searching a search result again changes nothing |
| View.SearchIgnoresCase | web/src/App.jsx:69-70 | the search does not depend on the case of the term |
| View.PageCount | web/src/App.jsx:76 | the least number of ten-row pages holding all the rows |
| View.PageRows | web/src/App.jsx:351 | at most ten rows, and exactly the rows of that page's range |
| View.RowOnPage | web/src/App.jsx:351 | every row appears on one counted page, at its place |
| View.CountedPagesNotEmpty | web/src/App.jsx:351 | every counted page shows at least one row |
| View.AppList.Refresh | web/src/App.jsx:63-79 | the filtered rows are the search result, and the page goes back to 1 exactly when it lies past the last page |
| View.AppList.FetchApps | web/src/App.jsx:28-50 | the rows become the merge of the configuration and the statuses, the filtered list is the search over them, and the page stays unless it lies past the last page of a non-empty filtered list, when it goes back to 1 |
| View.AppList.SetSearchTerm | web/src/App.jsx:63-79 | typing in the search box (App.jsx:333) sets the term to the typed text; the filtered list becomes the search with it, and the page stays unless it lies past the last page of a non-empty filtered list, when it goes back to 1 |
| View.AppList.PrevPage | web/src/App.jsx:458 | page 1 stays, any other page goes back one |
| View.AppList.NextPage | web/src/App.jsx:464 | the last counted page stays, any earlier page goes on one |
| View.AppList.Visible | web/src/App.jsx:351 | at most ten rows, all from the filtered list, and some whenever the filtered list has any |
| View.ReplaceByName | web/src/App.jsx:174 | every entry with the record's name becomes the record, the others are kept |
| View.ReplaceWithoutMatch | web/src/App.jsx:174 | a record whose name matches nothing leaves the list as it was |
| View.ReplaceIdempotent | web/src/App.jsx:174 | replacing twice is replacing once |
| View.RemoveByName | web/src/App.jsx:234 | exactly the entries with other names are kept |
| View.RemoveAppend | web/src/App.jsx:234 | removal keeps the order of the remaining entries |
| View.RemoveWithoutMatch | web/src/App.jsx:234 | removing a name nothing has changes nothing |
| View.SaveApp | web/src/App.jsx:164-208 | editing replaces by name, adding appends; a restart is asked exactly when requested and the name is non-empty |
| View.DeleteApp | web/src/App.jsx:216-234 | nothing happens without a chosen application; a stop is sent exactly when asked and the application runs; the posted list drops its name |
| AddApp.Tokenize | web/src/AddAppModal.jsx:30 | the words are non-empty, contain no space and come from the split |
| AddApp.TokenizeWords | web/src/AddAppModal.jsx:30 | words joined by single spaces come back as the same words |
| AddApp.TokenizeFirstWord | web/src/AddAppModal.jsx:30 | runs of spaces separate words like one space |
| AddApp.WithEntry | web/src/AddAppModal.jsx:42-47 | the posted list is the fetched one, or empty, with the entry appended |
| AddApp.AddKeepsNamesDistinct | web/src/AddAppModal.jsx:36-47 | when the names were distinct and the new one is free, the posted names are distinct |
| AddApp.AddForm.NewEntry | web/src/AddAppModal.jsx:24-33 | the entry carries every field of the form as it stands, the arguments as `Tokenize` of the text (non-empty words without spaces) and the timeout as `parseInt` of its text |
| AddApp.AddForm.Submit | web/src/AddAppModal.jsx:15-76 | a taken name stops with no change; otherwise the entry is appended and posted; a failed save keeps the form and a successful one resets it |
| EditApp.Normalize | web/src/EditAppModal.jsx:17-41 | each field is the application's value when truthy, otherwise its default; no application gives the defaults |
| EditApp.NormalizeIdempotent | web/src/EditAppModal.jsx:17-41 | filling the form from a record it produced gives the same record |
| EditApp.NormalizeKeeps | web/src/EditAppModal.jsx:17-41 | a record with a type and a non-zero timeout passes through unchanged |
| EditApp.ZeroTimeoutBecomesDefault | web/src/EditAppModal.jsx:27 | a timeout of 0 becomes 60 |
| EditApp.UpdateField | web/src/EditAppModal.jsx:43-45 | the named key takes the new value and every other key keeps its own |
| EditApp.UpdatesCommute | web/src/EditAppModal.jsx:43-45 | updates of different keys commute, and a second update of a key overrides the first |
| EditApp.DistinctUpdatesCommute | web/src/EditAppModal.jsx:43-45 | two updates of different keys give the same record in either order |
| EditApp.SecondUpdateWins | web/src/EditAppModal.jsx:43-45 | a second update of the same key leaves the record as the second update alone would |
| EditApp.TimeoutInput | web/src/EditAppModal.jsx:311 | a non-number or 0 gives 60, any other number is kept, and the result is never 0 |
| EditApp.NonNumericTimeout | web/src/EditAppModal.jsx:311 | text without digits gives 60 |
| EditApp.HandleSave | web/src/EditAppModal.jsx:49-51 | the record and the restart flag are handed over unchanged |
| EditApp.SaveEditWithoutRestart | web/src/EditAppModal.jsx:14 | with the restart box left unticked, saving asks for no restart and the replaced entries carry no port |

## Left out

- HTTP and JSON: request decoding, headers, content types and the trailing newline
  `http.Error` adds are not modelled. The handlers return a status and a body.
- Files: the choice of the configuration file and the reading and writing of it are
  left out. The reader takes the file's contents or the read error, and the writer
  takes whether the file could be created and returns the text. Errors from the
  individual writes are ignored by the source and do not appear.
- Processes: `exec.Command`, `cmd.Start`, `Signal(0)` and `Kill` are parameters. The
  model takes the spawn outcome and pid, whether the process answered, and the
  signal and kill errors. The half-second wait, the `cmd.Wait` goroutine for daemons
  and the five-second wait for the process to exit after a stop are left out.
- Concurrency: the configuration mutex and the client's two-second polling timer are
  left out; the process table is shared by the handlers without a lock in the source. Each operation is modelled as one atomic step.
- `generatePasswordHash` (MD5) is a function parameter `hash`.
- Clock: the start time is a parameter.
- The `/api/apps` listing handler, the login and user-config handlers, and the
  configuration read handler are not part of this model. The configuration save handler
  (api.go:331-341) is covered by the writer and the reload lemmas, not as a handler.
- Auth.Server.ChangePassword: does not model the method check and the body decoding that
  come before the password check.
- Handlers.HandleStart: takes the application list as a parameter; the `reloadConfig`
  call the handler makes first (api.go:218) is left out.
- Handlers.HandleStop: the same, for the reload at api.go:241.
- Handlers.StartAll: the same, for the reload at api.go:263.
- Handlers.StopAll: the same, for the reload at api.go:281.
- Handlers.RestartAll: the same, for the reload at api.go:299.
- Text.Lower: only ASCII letters are folded. JavaScript's `toLowerCase` also folds
  other scripts.
- Text.ParseIntJs: decimal digits after optional white space (including the Unicode
  spaces JavaScript skips) and one sign. The `0x` hexadecimal prefix is not modelled.
  The result is an unbounded integer, where JavaScript's `parseInt` returns a double:
  beyond 2^53 the model keeps the exact value (`"9007199254740993"` gives
  9007199254740993, JavaScript 9007199254740992), and the model has no `Infinity`.
- The client and the server spell some field names differently (`AppType` vs `appType`,
  a list vs a string for `args`). Each dialog is modelled with its own names, and the
  model does not state what the server would make of them.
- EditApp.UpdateField: keys are the eight names the form passes, as an enumeration. An
  arbitrary key string, which would add a new property to the record, is not modelled.
- AddApp.AddForm: the timeout is kept as text and parsed at submit time. The name of a
  client-side application is always present (`ClientApp.Name` is not optional).

## Findings

| source | as written | input that shows it | evidently intended | confidence | as-written member | corrected member |
|---|---|---|---|---|---|---|
| api.go:38-51 | `saveConfig` writes the port and the applications but no `[user]` section, so the password that change-password (api.go:182-191) saves is lost when the file is read again | port 5173, no applications, user `admin` with hash `0cc175b9c0f1b6a831c399e269772661` and first login off; after saving and reloading, the user is blank and `admin` no longer authenticates | the writer also writes the `[user]` section, so the saved user is read back | not executed | ConfigWriter.SaveLosesChangedPassword | ConfigWriter.SaveWithUserRoundTrip |
