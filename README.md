# Command runner: a Dafny model

This project models the command-interpretation and bookkeeping layer of a small Python
command runner. The runner reads commands such as `list repos github_main`, resolves
them to a method of a service class through account profiles, calls the method and keeps
the result in an append-only SQLite table. A scheduler re-runs stored commands on cron
schedules. Around this core sit a handful of small helpers: an XML-to-dict converter, an
e-mail syntax check, date strings, two account state machines, message routing, log
retention and a colour classifier.

The database tables are sequences of records held by a class (`ResultStore.ResultTable`,
`ScheduledTasks.TaskTable`). Everything the code only calls is a parameter:

- JSON encoding and decoding;
- croniter;
- the clock;
- `shlex.split`;
- service construction and method calls.

Python values (`None`, booleans, ints, strings, lists and insertion-ordered dicts) are the
datatype `PyValues.Value`. Exceptions are `PyValues.Exc`.

Modules, one per file:

- `Wrappers`, `Text`, `PyValues`, `Seqs`: shared vocabulary (Option/Result, ASCII string
  helpers, Python values and `str()`, order-preserving filtering).
- `Filtering`, `Printing`: `filter_data` and `print_value`.
- `ResultStore`: `save_result` and `get_latest_result` over the `query` table.
- `Dispatcher`: `execute_command` of `src/execute_command.py`.
- `Runner`: `execute_command` and `main` of the older `runner.py`.
- `ScheduledTasks`: the `scheduled_tasks` table and its four access functions.
- `Scheduler`: the tick `run_scheduled_tasks` of `eventdb.py`.
- `XmlToDict`, `Email`, `Dates`, `ServiceAccount`, `ProfileAccount`, `Message`, `LogFile`,
  `ColorName`: the helpers.

The imperative parts are methods proved against a specification function:

- the alias loop;
- the argument loop;
- the command loop of `main`;
- saving and updating rows;
- the scheduler loop;
- the XML loop;
- the account classes;
- log removal.

The properties are lemmas about those functions.

## Model

| member | source | states |
|---|---|---|
| Dispatcher.AliasIndexFrom | src/execute_command.py:62-68 | the alias position is the first token at or after `i` that is a profile key; no token before it is one |
| Dispatcher.FindAlias | src/execute_command.py:62-68 | the loop collects exactly the tokens before the first profile key and stops at that key, or finds no alias |
| Dispatcher.ExecuteCommand | src/execute_command.py:11-110 | the outcome is the one the decision procedure prescribes, and the result table grows by exactly the decided row, with earlier rows and id order kept |
| Dispatcher.ExecuteFilter | src/execute_command.py:35-48 | the `filter` branch reports the filter decision and appends exactly its row, if any |
| Dispatcher.ExecutePrint | src/execute_command.py:49-60 | the `print value` branch reports the print decision and changes no state |
| Dispatcher.ExecuteService | src/execute_command.py:62-110 | the service branch reports the service decision and appends exactly its row, if any |
| Dispatcher.Decide | src/execute_command.py:15-110 | whichever branch is taken, a row is saved exactly when filtered data or a call result is reported saved |
| Dispatcher.SqlQueryIsOnlyRouted | src/execute_command.py:15-27 | a command starting with SELECT, after leading whitespace and in any case, goes down the SQL path, and nothing is resolved or saved |
| Dispatcher.SqlQueryExamples | src/execute_command.py:15 | ` select 1` is a SQL query and `list 1` is not |
| Dispatcher.ShortCommandIsInvalid | src/execute_command.py:29-32 | fewer than two tokens is logged as an invalid format and saves nothing |
| Dispatcher.Dispatch | src/execute_command.py:35-110 | a row is saved exactly when filtered data or a call result is reported saved |
| Dispatcher.FilterCommand | src/execute_command.py:35-48 | the filter form saves exactly when it reports filtered data saved |
| Dispatcher.PrintCommand | src/execute_command.py:49-60 | the `print value` form never saves |
| Dispatcher.ServiceCommand | src/execute_command.py:62-110 | the service form saves exactly when it reports the call result saved |
| Dispatcher.ServiceReturnSaves | src/execute_command.py:62-108 | once the alias, the service, the instance and the method are all found and the call returns `v`, exactly one row is saved, naming the alias, the service, the lower-cased method and `v` |
| Dispatcher.FilterSavesUnderItsKey | src/execute_command.py:35-48 | `filter svc_m k v` reads the latest result of (svc, m), split at the first `_`; with falsy data it saves nothing, and otherwise it saves the filtered data once under the name `name` |
| Dispatcher.ServiceSaveResolvesFirstAlias | src/execute_command.py:62-107 | a saved row names the first profile-key token as the account, the lower-cased `_`-join of the tokens before it as the method, and the profile's `service` as the service; the constructor got the other profile fields and the call got the arguments after the alias |
| Dispatcher.NoAliasSavesNothing | src/execute_command.py:70-72 | with no profile key among the tokens, an invalid alias is logged and nothing is saved |
| Dispatcher.ServiceFailuresSaveNothing | src/execute_command.py:79-110 | four failures are logged in the code's order and none saves: an unknown service, a constructor `TypeError` (checked before the method; any other constructor exception escapes), a missing method, and an exception from the call (logged, not raised) |
| Dispatcher.ListReposExample | src/execute_command.py:62-74 | `list repos github_main filter=x` finds the alias at index 2 and the method `list_repos` |
| Runner.ParseArgs | runner.py:59-65 | the argument loop builds exactly the dict of the token fold |
| Runner.ArgsKeys | runner.py:59-65 | the keywords are exactly the keys of the tokens |
| Runner.LastTokenWins | runner.py:59-65 | each keyword holds the value of its last token, so a later duplicate overrides an earlier one |
| Runner.TokenForms | runner.py:61-65 | `key=value` splits at the first `=`, so the value may hold `=`; a bare token maps to `True` |
| Runner.CallsOnlyAResolvedMethod | runner.py:36-68 | a call happens exactly when there are two or more tokens, the module is known and has a class, the instance is built and has the method; it gets the parsed arguments of the tokens after the second |
| Runner.RejectionLines | runner.py:38-56 | each rejection prints its own error line and calls nothing |
| Runner.CallExceptionsAreCaught | runner.py:67-71 | an exception from the method is printed as `Error executing M.m: ...` and never escapes; only tokenizing and instantiating can raise out |
| Runner.TestModuleExample | runner.py:36-71 | `TestModule test_method arg1=value1` calls with `arg1='value1'` and prints `Result of TestModule.test_method: test_result` |
| Runner.RunMain | runner.py:73-96 | with the wrong number of arguments it prints the usage line and exits 1; otherwise it runs the commands in order until one raises, and exits 0 exactly when none did |
| Runner.EveryCommandRunsInOrder | runner.py:94-96 | when no exception escapes, every command is carried out once, in order |
| Runner.RunStopsAtEscape | runner.py:94-96 | an escaping exception ends the run at that command |
| Filtering.FilterList | src/filter_data.py:2-3 | a list result is the order-preserving subsequence of exactly the matching records, with every copy of each kept; a non-dict record raises `AttributeError` |
| Filtering.FilterDict | src/filter_data.py:4-5 | a dict result keeps exactly the entries whose record matches, every copy of each, with keys, values and order unchanged; a non-dict value raises `AttributeError` |
| Filtering.FilterOther | src/filter_data.py:6-7 | anything else is returned unchanged |
| Filtering.FilterIdempotent | src/filter_data.py:1-7 | filtering the result again with the same key and value changes nothing |
| Filtering.FilterIgnoresCase | src/filter_data.py:3-5 | filter values that are equal ignoring case give the same result |
| Filtering.MissingFieldMatchesOnlyEmpty | src/filter_data.py:3-5 | a record lacking the field matches exactly the empty filter value |
| Printing.PrintValue | src/print_value.py:3-12 | the loop prints exactly the lines the specification gives |
| Printing.NoMatchPrintsOneLine | src/print_value.py:11-12 | an empty filter result prints the single `No data found matching the filter: k=v` line |
| Printing.ListPrintsOneLinePerMatch | src/print_value.py:6-8 | a list prints one `value_key: ...` line per matching record, in order, showing the field or `Not found` |
| Printing.DictPrintsOneLine | src/print_value.py:9-10 | a dict with matches prints one line, looking `value_key` up among the filtered dict's own keys |
| Printing.OtherTruthyPrintsNothing | src/print_value.py:5-10 | truthy data that is neither a list nor a dict prints nothing |
| ResultStore.LatestIndex | src/get_latest_result.py:22-27 | the selected row matches the pair and has the greatest timestamp among matching rows; none exactly when no row matches |
| ResultStore.GetLatestResult | src/get_latest_result.py:17-38 | `None` without a matching row; otherwise the decoded text, or the raw text where decoding fails, of a matching row of greatest timestamp |
| ResultStore.ResultTable.SaveResult | src/save_result.py:17-31 | one row is appended with a fresh id, the text stored verbatim for a string and as JSON otherwise; earlier rows are untouched |
| ResultStore.OtherPairsDoNotAffectLatest | src/get_latest_result.py:22-27 | a save for another (service, method) pair never changes the lookup |
| ResultStore.LatestIsNewestSave | src/get_latest_result.py:22-27 | a save newer than every earlier row of its pair is what the lookup returns next |
| ResultStore.SaveThenGetNonString | src/save_result.py:23-24 | with a lawful codec, a non-string result with no repeated dict key survives a save and then a get |
| ResultStore.JsonLookingStringComesBackDecoded | src/get_latest_result.py:32-36 | the string `42` saved verbatim reads back as the integer 42 |
| ResultStore.StoredNullLooksAbsent | src/get_latest_result.py:32-38 | a stored JSON `null` reads back the same as no row at all |
| ScheduledTasks.TaskTable.AddScheduledTask | src/add_scheduled_task.py:16-24 | one pending row with no run times is appended under a fresh id |
| ScheduledTasks.TaskTable.UpdateScheduledTask | src/update_scheduled_task.py:16-25 | the table becomes the reference update of the row with that id |
| ScheduledTasks.TaskTable.GetScheduledTasks | src/get_scheduled_tasks.py:16-29 | every row is returned, unfiltered, in table order |
| ScheduledTasks.UpdateTouchesOnlyItsRow | src/update_scheduled_task.py:21-25 | the targeted row gets the three new values and keeps id, command and schedule; other rows are unchanged |
| ScheduledTasks.UpdateOfAbsentIdChangesNothing | src/update_scheduled_task.py:24 | an id not in the table changes nothing |
| ScheduledTasks.UpdateIdempotent | src/update_scheduled_task.py:21-25 | repeating an update gives the same table |
| ScheduledTasks.UpdateAtIndex | src/update_scheduled_task.py:21-25 | with increasing ids, updating row `i`'s id replaces exactly row `i` |
| ScheduledTasks.MissingKey | src/process_scheduled_tasks.py:9-10 | an entry raises `KeyError` exactly when it lacks `command` or `cron` |
| ScheduledTasks.FirstIncomplete | src/process_scheduled_tasks.py:8-12 | the entries before the returned index are complete, and the entry at it is not |
| ScheduledTasks.ProcessScheduledTasks | src/process_scheduled_tasks.py:6-12 | pending rows for the entries before the first incomplete one, in list order; that entry's missing key raises `KeyError` |
| Scheduler.StopIndexFrom | eventdb.py:30-45 | the tick gets past every task before the index, and at the index sits a due task whose schedule croniter rejects |
| Scheduler.StopIndexIs | eventdb.py:30-45 | the stopping point is unique |
| Scheduler.StopsAt | eventdb.py:30-45 | a known stopping point fixes how many tasks the tick reaches |
| Scheduler.HandledRow | eventdb.py:30-47 | row `j` is ticked exactly when the tick got past it, and is otherwise as read |
| Scheduler.SkipStep | eventdb.py:33 | a task that is not due leaves the table as it is |
| Scheduler.UpdateStep | eventdb.py:43-47 | writing a due task's row back handles exactly that task |
| Scheduler.TickOne | eventdb.py:31-47 | one loop step stops exactly at a due task croniter rejects, and otherwise handles the task |
| Scheduler.RunScheduledTasks | eventdb.py:21-48 | the table becomes the handled table up to the stopping point; the dispatched ids are the due tasks reached, in order; `ValueError` exactly when croniter rejects a due task |
| Scheduler.TickStatusFollowsDispatch | eventdb.py:33-47 | a task that is not due is untouched; a due task gets `last_run = now`, `next_run` from its schedule, and status `completed` exactly when dispatch returned, else `failed` |
| Scheduler.UnreachedRowsUnchanged | eventdb.py:30-47 | rows after the stopping point are as read |
| Scheduler.AsWrittenTickFailsEveryDueTask | eventdb.py:36-41 | as written (`execute_command` imported at line 12 from `runner.py`), every due task the tick gets past ends `failed` |
| Scheduler.AsWrittenCounterexample | eventdb.py:36-41 | a due task whose command dispatches cleanly ends `failed` as written and `completed` with a three-parameter dispatcher |
| XmlToDict.Convert | src/xml_to_json.py:8-15 | the result is always a dict, and empty for a childless element |
| XmlToDict.XmlToDictOf | src/xml_to_json.py:8-15 | the loop with recursion computes the reference conversion |
| XmlToDict.LastWithTag | src/xml_to_json.py:10-14 | finds the last of the first `n` children with a tag, or none |
| XmlToDict.FoldKeys | src/xml_to_json.py:10-14 | the keys are exactly the children's tags |
| XmlToDict.FoldDistinct | src/xml_to_json.py:10-14 | no key appears twice |
| XmlToDict.FoldGet | src/xml_to_json.py:10-14 | a tag maps to the value of its last child: text for a leaf, a nested dict otherwise |
| XmlToDict.ConvertShape | src/xml_to_json.py:8-15 | the keys of the result are the children's tags, each once, holding the last such child's value |
| XmlToDict.ConvertIgnoresTextAndAttributes | src/xml_to_json.py:8-15 | the element's own text and attributes do not reach the result |
| XmlToDict.NestedExample | src/xml_to_json.py:8-15 | `<root><a>1</a><b><c>2</c></b><a>3</a></root>` becomes `{'a': '3', 'b': {'c': '2'}}` |
| Email.IsValidEmail | python/email_utils.py:44-46 | the check holds exactly for the addresses the anchored pattern matches, including the one trailing newline `$` admits |
| Email.ValidBodyInLanguage | email_service/src/email_service/email_utils.py:36-38 | splitting at the first `@` and the last `.` decides membership in the pattern's language |
| Email.LastIndexOf | python/email_utils.py:45 | gives the last occurrence of a character, or none |
| Email.OnlyAt | python/email_utils.py:45 | in a matching string the only `@` is the separator |
| Email.ValidHasOneAt | python/email_utils.py:44-46 | a valid address holds exactly one `@` |
| Email.ValidExamples | email_service/tests/test_email_utils.py:24 | `user@example.com` is valid, and so is it with a trailing newline |
| Email.NoAtIsInvalid | email_service/tests/test_email_utils.py:25 | `invalid_email` is rejected |
| Email.NoDotIsInvalid | email_service/tests/test_email_utils.py:26 | `user@example` is rejected |
| Email.EmptyLocalPartIsInvalid | email_service/tests/test_email_utils.py:27 | `@example.com` is rejected |
| Email.DigitInTopLevelDomainIsInvalid | python/email_utils.py:45 | a digit in the top-level domain is rejected |
| Dates.PreviousDay | python/date_converters.py:6-7 | the day before is a valid date, and does not exist only for 0001-01-01 (`OverflowError`) |
| Dates.NextDay | python/date_converters.py:6-7 | the reference successor is valid, and does not exist only for 9999-12-31 |
| Dates.PreviousDayInvertsNextDay | python/date_converters.py:6-7 | the day before and the day after are inverse steps |
| Dates.PreviousDate | python/date_converters.py:6-7 | the result is an error exactly for 0001-01-01, and that error is `OverflowError` |
| Dates.FormatLayout | python/date_converters.py:3-4 | the output is `YYYY-MM-DD`: ten characters, digits and dashes in place, and year, month and day read back |
| Dates.FormatInjective | python/date_converters.py:3-4 | different dates print differently |
| Dates.TestSuiteDates | tests/test_date_converters.py:7-15 | at 2023-05-15 the two functions give `2023-05-15` and `2023-05-14` |
| Dates.PreviousDayBoundaries | python/date_converters.py:6-7 | the day before crosses month and year ends and honours Gregorian leap years |
| Dates.LeapDayExample | python/date_converters.py:6-7 | the day before 2024-03-01 prints `2024-02-29` |
| ServiceAccount.Account.constructor | python/Account.py:8-13 | a new account has all five slots empty |
| ServiceAccount.Account.Connect | python/Account.py:15-31 | the new slots and the return value are the reference connect's |
| ServiceAccount.Account.Disconnect | python/Account.py:33-47 | the new slots and the return value are the reference disconnect's |
| ServiceAccount.FirstMissing | python/Account.py:17-27 | gives the first constructor keyword missing from the arguments, or none when all are present |
| ServiceAccount.ConnectChangesOnlyItsSlot | python/Account.py:15-31 | success fills exactly the service's own slot (both mail services fill `email_service`) and returns the message; an unsupported type raises `ValueError`, and every failure leaves the slots as they were |
| ServiceAccount.DisconnectChangesOnlyItsSlot | python/Account.py:33-47 | a disconnect empties exactly its own slot; an unsupported type raises `ValueError` and changes nothing |
| ServiceAccount.ConnectThenDisconnect | python/Account.py:15-47 | connect then disconnect of a type leaves its slot empty and the others as before |
| ServiceAccount.MailServicesShareASlot | python/Account.py:34-35 | disconnecting Outlook drops a Gmail connection |
| ProfileAccount.Contains | Account.py:13 | `in` tests dict keys, list items and substrings, and raises `TypeError` on `None` and numbers |
| ProfileAccount.SubstringFrom | Account.py:13 | decides whether the needle occurs at or after an index |
| ProfileAccount.Account.constructor | Account.py:4-6 | a new profile is not connected and holds no address |
| ProfileAccount.Account.Connect | Account.py:8-23 | the new state and the reply are the reference connect's, and consistency is kept |
| ProfileAccount.Account.Disconnect | Account.py:25-33 | the new state and the reply are the reference disconnect's |
| ProfileAccount.ConnectOutcome | Account.py:8-23 | connect returns `True` exactly when the address is a key of the mapping, and then holds it; any other outcome leaves the state unchanged; a missing file returns `False` |
| ProfileAccount.DisconnectOutcome | Account.py:25-33 | disconnect returns `True` exactly when connected, always ends disconnected, and a second one returns `False` |
| ProfileAccount.ConnectThenDisconnect | Account.py:8-33 | after a successful connect, disconnect reports that address |
| ProfileAccount.ContainsExamples | Account.py:13 | a key mismatch, a list member and a substring behave as Python's `in` does |
| Message.Lookup | python/Message.py:30-40 | the arguments are found in order, or the first missing keyword raises `KeyError` |
| Message.ListFollowsRoute | python/Message.py:10-28 | `list` delegates a known service to its slot's listing method, gives that service's not-connected error when the slot is empty, and reports any other name as unsupported |
| Message.ListDelegatesToHeldConnection | python/Message.py:10-26 | `list` only calls a connection the account holds, in the slot of the name |
| Message.CreateIssueDelegatesToHeldConnection | python/Message.py:30-40 | `create_issue` only calls the held GitLab or GitHub connection |
| Message.SingleSlotOperations | python/Message.py:5-8 | `create`, `purge_cache` and `create_database` delegate exactly when their slot is held, passing their arguments on |
| Message.UnsupportedIgnoresAccount | python/Message.py:27-28 | an unsupported name gets the same answer whatever the account holds |
| Message.CreateIssueChecksSlotFirst | python/Message.py:30-40 | the slot is checked before the keyword arguments; with the slot held, a missing `title` raises |
| Message.ListAfterConnectAndDisconnect | python/Message.py:10-28 | after connecting GitHub, `list('github')` lists that connection's repositories, and after disconnecting it gives the not-connected error |
| LogFile.Disk.Remove | src/manage_log_file.py:7 | removing an existing path deletes exactly that path |
| LogFile.ManageLogFile | src/manage_log_file.py:4-14 | the file set and the printed lines are the reference decision's |
| LogFile.RetentionOfOneAndBelow | src/manage_log_file.py:5-8 | with a retention of 1 the file is gone and the removal line is printed even if it was absent; a retention of 0 or less removes and prints nothing |
| LogFile.LongerRetention | src/manage_log_file.py:9-14 | with a retention above 1 the file is removed, and a line printed, exactly when it exists and is at least that many whole days old |
| LogFile.OnlyTheLogFile | src/manage_log_file.py:4-14 | no other path or modification time changes, and a second call removes nothing more |
| LogFile.AgeRoundsDown | src/manage_log_file.py:11-12 | age counts whole days rounded down: one microsecond short of two days is one day |
| ColorName.LightAndDarkComeFirst | python/app.py:182-185 | `white` exactly when all channels exceed 200, `black` exactly when all are below 50 |
| ColorName.LargestChannelNamesColor | python/app.py:186-193 | otherwise a strictly largest channel names the colour, and a tie for the largest gives `mixed` |
| ColorName.NameIsOneOfSix | python/app.py:180-193 | the result is one of the six names |
| ColorName.ColorExamples | python/app.py:180-193 | pure red is red, mid grey is mixed, near-white is white, near-black is black |

## Left out

- `shlex.split`: a parameter. The dispatcher takes the tokens; the runner takes a tokenizer that may raise `ValueError`.
- The SQL path of `execute_command`: modelled only as routing. `execute_sql_query`, the table printing and all SQLite plumbing are not modelled (connections, commits, schema creation, `runnerdb.py`).
- `json.dumps`/`json.loads`: an abstract codec. The only property relied on is "decode inverts encode" for values with no repeated dict key, and only in the lemmas that require it.
- Dispatcher.ServiceCommand: takes `save_result` never to raise. In the source it sits inside the `try` of lines 102-110, so a result `json.dumps` cannot encode, or an SQLite error, is logged as `Error executing ...` and no row is written; the model's `encode` is total and every returned call saves.
- croniter: an abstract function. Its rejection of a schedule is `ValueError`.
- `parse_command_args`: an abstract function. Its source is not part of this model. It is called outside the `try` of `execute_command`, and the model takes it to return and never raise.
- Reflection-based discovery (`list_classes_and_objects`): a given registry.
- Runner.RunMain: the start-up listing that `runner.py` `main` prints, the `Executing commands:` line and the `RUN: <command>` line before each command are not modelled; only the line each command's outcome prints is.
- Loading YAML: a parameter. `main` receives the `commands` list, and the profile account receives the loaded private data or `Missing`. A commands file without a `commands` key is not modelled.
- PyValues.Value: has no float and no tuple. Floats from decoded JSON results, YAML data or records, and their `str()` rendering in `filter_data` and `print_value`, are not represented.
- Case mapping: covers ASCII letters only.
- `str()` of nested values: does not add the escaping Python's `repr` applies to quotes and control characters.
- Logging: the logger's messages are a datatype of outcomes, not text.
- Service classes and their network calls: not modelled. A constructed service is a record of its type and arguments, and a call is the `Delegate` reply naming the method and arguments. The `ValueError` raised by an unsupported service type carries no message text.
- Dates.Format: pads every year to four digits. `%Y` for years below 1000 depends on the platform's `strftime`.
- Dates.CurrentDate: states no property of its own. Its layout is `Dates.FormatLayout`.
- The date functions read the calendar date of `datetime.now()` as a parameter. Time zones and the time of day are not modelled.
- `xml_to_json`: only library glue (`ET.fromstring` and `json.dumps`), so it is left out.
- Scheduler.RunScheduledTasks: the dispatch of a command is the abstract `completes`. Which `execute_command` a fixed scheduler would call is not fixed here. Logging and ISO-format timestamps are replaced by integers.
- Scheduler.RunScheduledTasks: the configuration loading before the loop is not modelled; a missing configuration file would raise there.
- LogFile.ManageLogFile: the file system is a map from path to modification time, and the check-then-remove race with other processes is not modelled. The age is elapsed time in microseconds; the source subtracts two naive local datetimes, which differ from elapsed time by the offset change when a daylight-saving switch falls between them.
- `check_ports`, the e-mail senders, the network services and the rest of `python/app.py` are not modelled: they are sockets, HTTP, OpenCV and floating point.
- Runner.RunMain: a Python exception escaping a command ends the process with status 1. The model records this as exit code 1, without the traceback.

## Findings

| source | as written | input that shows it | evidently intended | confidence | as-written member | corrected member |
|---|---|---|---|---|---|---|
| eventdb.py:37 | the tick imports `execute_command` from `runner`, which takes two parameters (`runner.py:36`), and calls it with three; the `TypeError` is caught, so every due task is marked `failed` | a due task `list repos github_main` with schedule `0 * * * *` whose command would run without error | dispatch with a three-parameter `execute_command`; status `completed` exactly when the command returns | not executed | Scheduler.AsWrittenCounterexample | Scheduler.TickStatusFollowsDispatch |
