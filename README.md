# Browser fleet manager — a Dafny model

The repository manages a fleet of synthetic browser identities. It covers:

- an SQLite store of browsers, their fingerprints, proxies, e-mail accounts and scheduled commands (`browser_manager.py`);
- a Playwright executor that opens a session per browser, runs an interaction plan and closes it, in groups of ten, under a scheduler loop (`playwright_executor.py`);
- CSV importers that find or create proxies and e-mail accounts and write browser rows (`csv_import_utility.py`);
- two fingerprint testers that draw random combinations of screen, timezone, language, fonts, WebGL strings and hardware and submit them to fingerprinting sites (`fingerprint_tester.py`, `Attributes/tester.py`);
- a Django application whose CSV upload validates, normalises and bulk-inserts users, and whose form adds one user (`views.py`, `models.py`).

The model keeps what these files decide and leaves out what they delegate:

- Tables are sequences of typed rows in a `Store.Database` class.
  - `AUTOINCREMENT` counters are fields.
  - NOT NULL and UNIQUE violations are `Result` errors, and so is a bound integer outside SQLite's signed 64-bit INTEGER range, on which Python's `sqlite3` raises `OverflowError`.
- The current time is a `now` parameter, or `Environment.clock` inside the executor, in whole seconds since the epoch.
- Randomness is an injected `Source` (a function from draw position to a natural number).
  - `random.randint`, `random.choice`, `random.sample` and `random.random() < p` are functions over it.
  - Each such function returns the next position.
- `uuid4` values come from `Rand.Entropy.uuids`.
- The Playwright driver is the `Executor.Environment` oracle.
  - Each call is recorded in `calls`, and `succeeds(k)` says whether the k-th call returns or raises.
  - Pauses are recorded in `pauses`; a store query's success is `storeUp(k)`; a stop request during round k is `stopDuring(k)`.
- The browser of the fingerprint tester is a `FingerprintTester.Driver` oracle.
  - `opens(s)` says whether `new_context`, `new_page` and both `add_init_script` calls return for the context settings `s`, and `closes(s)` whether `context.close()` returns.
  - A site visit is a `Visit` function from the context settings and the site to a result or an error message.
- CSV files arrive already read: each row is a map from the header names to optional cells. A missing cell is `None`, as `csv.DictReader` gives it.

Modules: `Wrappers` (Option, Result), `Seqs` (filter, dedup, stable sort, chunks), `Text` (Python `strip`, `lower`, `split`, `int()`, `str()`, and SQLite text comparison), `Rand`, `Clock`, `Store`, `Fleet`, `Executor`, `CsvImport`, `Picks`, `FingerprintTester`, `AdvancedTester`, `Users`, `UserViews`.

## Model

| member | source | states |
|---|---|---|
| Fleet.GenerateFingerprint | scripts/browser_manager/browser_manager.py:60-107 | The screen equals the viewport and the viewport is one of the catalogue sizes. `fonts` holds 5 to 9 distinct names from the 9-font catalogue. The WebGL renderer embeds an integer in 10000..99999. User agent, timezone, locale, platform, colour depths and WebGL vendor come from their catalogues. The canvas fingerprint is 32 ASCII letters and digits. |
| Fleet.FindBrowser | scripts/browser_manager/browser_manager.py:115-120 | A row is found exactly when some row has that `browser_id`, and the row found has it. |
| Fleet.FindProxy | scripts/browser_manager/browser_manager.py:155-157 | A proxy is found exactly when some proxy row has that id. |
| Fleet.GenerateLaunchCommand | scripts/browser_manager/browser_manager.py:114-120 | The command fails exactly when the `browser_id` is unknown, with a not-found error naming it. |
| Fleet.GenerateLaunchCommandSpec | scripts/browser_manager/browser_manager.py:118-164 | For a known id, the following hold. User agent, viewport, screen, timezone and locale equal the fingerprint's. Accept-Language is `locale + ",en;q=0.9"`. The overrides carry the fingerprint's WebGL, canvas and font values. A proxy is attached exactly when `use_proxy` is set, `proxy_id` is non-null and non-zero and the proxy row exists, and it is built from that row. |
| Fleet.ProxyForShape | scripts/browser_manager/browser_manager.py:158-164 | The server is `http://host:port`. An empty or NULL username or password becomes None; otherwise it is kept. |
| Fleet.CreateBrowser | scripts/browser_manager/browser_manager.py:170-196 | It draws one uuid and one fingerprint. It succeeds exactly when a name is given and the uuid is fresh. It then appends exactly one row: status `inactive`, never interacted, the copied columns equal to the fingerprint, and the next rowid. On failure nothing changes. Other tables never change. |
| Fleet.GenerateInteractionCommands | scripts/browser_manager/browser_manager.py:214-295 | Always 14 commands. The first 10 are the fixed e-mail steps. Then come a navigate to one of the browsing sites, a scroll down by 200..500, a wait of 1000..3000 ms and a click on link 0..5. |
| Fleet.GenerateInteractionCommandsReaches | scripts/browser_manager/browser_manager.py:279-288 | Every plan of that shape is produced by some random source, so the ranges are exact. |
| Fleet.PlaceholdersNotSubstituted | scripts/browser_manager/browser_manager.py:224-242 | The fill steps carry the literal `{{email_address}}` and `{{email_password}}` placeholders. |
| Fleet.ScheduleBrowserBatch | scripts/browser_manager/browser_manager.py:297-321 | The batch command lists the selected ids, echoes the size and interval, and sets the next batch time to now plus interval × 60 seconds. |
| Fleet.SelectBatchSound | scripts/browser_manager/browser_manager.py:302-314 | Every selected browser is a stored row with `to_interact` set and status other than `running`. The selection is the first min(`batch_size`, eligible) rows of the eligible ones in `last_interaction` order, NULL first, with ties kept in table order; a negative limit selects every eligible row. |
| Fleet.SelectBatchLeavesOnlyLater | scripts/browser_manager/browser_manager.py:302-314 | An eligible browser that is left out comes no earlier than every selected one. A never-run browser is left out only when every selected one has never run. |
| Fleet.SelectBatchComplete | scripts/browser_manager/browser_manager.py:302-314 | When the eligible rows fit within the limit, every one of them is selected. |
| Fleet.SaveCommand | scripts/browser_manager/browser_manager.py:323-338 | It appends exactly one `pending` command under the next id, leaves the other tables alone and returns nothing. |
| Fleet.PendingOf | scripts/browser_manager/browser_manager.py:346-350 | Exactly the pending commands of that browser. |
| Fleet.PendingDue | scripts/browser_manager/browser_manager.py:352-356 | Exactly the pending commands that are unscheduled or scheduled at or before now (the corrected comparison; see Findings). |
| Fleet.GetPendingCommandsSpec | scripts/browser_manager/browser_manager.py:340-373 | With an id, the result holds that browser's pending commands, each as often as it is stored. Without one, it holds the due pending commands in the same way. Both are ordered by `scheduled_time`, NULL first. |
| Fleet.PendingDueAsWritten | scripts/browser_manager/browser_manager.py:352-356 | The global query as written compares the stored ISO text with SQLite's `datetime('now')` text. |
| Fleet.AsWrittenMissesSameDayCommands | scripts/browser_manager/browser_manager.py:352-356 | A pending command whose time falls earlier on the current day is due, yet the query as written never returns it. |
| Fleet.AsWrittenMissesMorningCommand | scripts/browser_manager/browser_manager.py:352-356 | A concrete instance: 09:00 on 2024-05-01, queried at 12:00 the same day. |
| Fleet.GetBrowserList | scripts/browser_manager/browser_manager.py:375-398 | One summary per stored browser. |
| Fleet.GetBrowserListSpec | scripts/browser_manager/browser_manager.py:380-398 | The listing is ordered newest first and holds each browser's summary exactly as often as the browser is stored. |
| Store.Database.constructor | scripts/browser_manager/browser_manager.py:15-58 | The store starts with empty tables and zero counters. |
| Store.Database.InsertBrowser | scripts/browser_manager/browser_manager.py:180-191 | A NULL name is refused with a NOT NULL violation, and a taken `browser_id` is refused. Otherwise one row is appended with status `inactive` and the counter's next id. The table invariant (unique ids, copied columns equal the fingerprint, ids below the counter) is kept. |
| Store.Database.InsertCommand | scripts/browser_manager/browser_manager.py:329-335 | It appends one `pending` command under the next id and changes nothing else. |
| Store.Database.InsertProxy | scripts/browser_manager/csv_import_utility.py:18-30 | A port outside the signed 64-bit range is refused, and so is a NULL host. Otherwise one `active` proxy is appended under the next id. |
| Store.Database.InsertAccount | scripts/browser_manager/csv_import_utility.py:33-44 | NULL email, password or provider is refused, and so is a taken email. Otherwise one `active` account is appended, so emails stay unique. |
| Store.Database.SetStatus | scripts/browser_manager/playwright_executor.py:321-332 | Exactly the rows with that id get the new status, and the table invariant is kept. |
| Store.Database.SetLastInteraction | scripts/browser_manager/playwright_executor.py:334-345 | Exactly the rows with that id get the new `last_interaction`, and the table invariant is kept. |
| Store.StatusOf | scripts/browser_manager/playwright_executor.py:321-332 | A status is read exactly when the id is stored. |
| Store.StatusAfterWrite | scripts/browser_manager/playwright_executor.py:321-332 | After a write, the id reads the written status, and every other id reads what it read before. |
| Store.StatusAfterTouch | scripts/browser_manager/playwright_executor.py:334-345 | Touching `last_interaction` changes no status. |
| Clock.SameDayIsoAboveSqlite | scripts/browser_manager/browser_manager.py:334-355 | For two instants on the same day, the `T`-separated ISO text sorts above SQLite's space-separated text. |
| Executor.AttemptAll | scripts/browser_manager/playwright_executor.py:17-47 | When every driver call returns, all of them are made, in order. |
| Executor.LaunchCalls | scripts/browser_manager/playwright_executor.py:17-34 | A launch is eight driver calls: start Playwright, launch Chromium, new context, new page, add the init script, and so on. |
| Executor.LaunchesMakesAll | scripts/browser_manager/playwright_executor.py:17-47 | A launch that succeeds made exactly the calls of the generated launch command. |
| Executor.DispatchFacts | scripts/browser_manager/playwright_executor.py:107-145 | An unknown command type makes no call and no pause. A scroll up moves by the negated amount. A wait sleeps the command's milliseconds and makes no driver call. |
| Executor.StatusWriteKeepsRunning | scripts/browser_manager/playwright_executor.py:42-45 | A status write for an inactive id keeps every active id reading `running`. |
| Executor.PlanStep | scripts/browser_manager/playwright_executor.py:290-294 | Running the next command extends the calls by its dispatch and the pauses by its pause and a 1–3 s delay. |
| Executor.SessionRowsAt | scripts/browser_manager/playwright_executor.py:282-304 | A completed session changes only its own row: status `inactive` and `last_interaction` set. |
| Executor.NextGroupBookkeeping | scripts/browser_manager/playwright_executor.py:264-278 | After each group of ten, the groups run so far followed by the groups still to come are the chunks of the whole list. |
| Executor.FinishedCompletes | scripts/browser_manager/playwright_executor.py:282-304 | A launch followed by the plan, the `last_interaction` write and the close is a completed session. |
| Executor.Environment.CallAll | scripts/browser_manager/playwright_executor.py:17-47 | The calls stop at the first one that raises, and the result says whether all returned. |
| Executor.Environment.Perform | scripts/browser_manager/playwright_executor.py:107-145 | A command's driver calls and pauses are its dispatch, and the error is swallowed. |
| Executor.PlaywrightExecutor.LaunchBrowser | scripts/browser_manager/playwright_executor.py:17-47 | An unknown id fails with not-found. The launch succeeds exactly when every launch call returns. It then adds the session to `active_browsers` and writes `running`. A failure changes neither the map nor the store. Active ids keep reading `running`. |
| Executor.PlaywrightExecutor.ExecuteCommand | scripts/browser_manager/playwright_executor.py:105-145 | For an active id, the command is dispatched and the result is always Ok, whatever the driver raises. An inactive id is launched first. The result is Ok exactly when that launch succeeds, and then it holds the launch calls followed by the dispatch, one clock reading, the new session and the row reading `running`. A failed launch makes only its own calls and returns not-found exactly when the row is missing. |
| Executor.PlaywrightExecutor.CloseBrowser | scripts/browser_manager/playwright_executor.py:306-319 | A non-active id changes nothing. An active id leaves the map and its row reads `inactive`, even when a close call raised; the close calls stop at the first that raises. |
| Executor.PlaywrightExecutor.RunSingleBrowserSession | scripts/browser_manager/playwright_executor.py:282-304 | The session completes exactly when the launch succeeds. A completed session ran the launch, then the 14-step plan, then wrote `last_interaction`, then closed. An abandoned one wrote no `last_interaction` and still closed. Either way the id is no longer active. |
| Executor.PlaywrightExecutor.RunPlan | scripts/browser_manager/playwright_executor.py:290-294 | Every command of the plan runs in order, each followed by a random pause; one failing command does not stop the rest. |
| Executor.PlaywrightExecutor.TouchLastInteraction | scripts/browser_manager/playwright_executor.py:334-345 | It reads the clock once and writes that instant to the id's `last_interaction`. |
| Executor.PlaywrightExecutor.RunBrowserBatch | scripts/browser_manager/playwright_executor.py:256-279 | When the store query fails, nothing changes. Otherwise the selected ids run in the groups `Chunks(ids, 10)`, one session per id in list order. Each session completes exactly when its launch succeeds, a five-second delay follows every group, and none of the ids stays active. Only those ids change status, each to `inactive`. |
| Executor.PlaywrightExecutor.RunNextGroup | scripts/browser_manager/playwright_executor.py:264-278 | One loop step runs the next slice of at most ten ids, then the five-second delay. It extends the batch's sessions, and the rest of the list follows it. |
| Executor.PlaywrightExecutor.RunGroup | scripts/browser_manager/playwright_executor.py:270-275 | Each member of a group gets a session, in order, each completing or being abandoned as its launch decides. After the group none is active, and only members changed status, each to `inactive`. |
| Executor.PlaywrightExecutor.RunGroups | scripts/browser_manager/playwright_executor.py:264-278 | The loop over the groups: after each one, the sessions so far are those of the ids before it, in groups of ten with a delay after each. |
| Executor.PlaywrightExecutor.RunGroupAndWait | scripts/browser_manager/playwright_executor.py:270-278 | A group's sessions followed by exactly one five-second delay. |
| Executor.PlaywrightExecutor.RunMember | scripts/browser_manager/playwright_executor.py:270-275 | One more member's session completes or is abandoned as its launch decides, begins where the previous one ended, and settles only that id. |
| Executor.BrowserScheduler.StopAutomation | scripts/browser_manager/playwright_executor.py:372-375 | Clears the flag and nothing else. |
| Executor.BrowserScheduler.RunRound | scripts/browser_manager/playwright_executor.py:359-370 | The batch runs exactly when the store is up. After a batch that ran, interval × 60 s is waited after the batch's own pauses; after an error, 60 s is waited and nothing else changed. |
| Executor.BrowserScheduler.StartContinuousAutomation | scripts/browser_manager/playwright_executor.py:354-370 | Rounds repeat while the flag stays set. Each round runs its batch and its wait, and begins in the state the previous round left. The loop ends exactly when a stop was requested during the last round, or when the round bound is reached. |
| Seqs.ChunksFlatten | scripts/browser_manager/playwright_executor.py:264-267 | Concatenating the groups gives back the original list. |
| Seqs.ChunksSizes | scripts/browser_manager/playwright_executor.py:264-267 | Every group has 1 to 10 ids, and every group but the last has exactly 10. |
| Seqs.ChunksOfTwentyFive | scripts/browser_manager/playwright_executor.py:264-267 | 25 ids give groups of 10, 10 and 5. |
| CsvImport.ParseProxyRow | scripts/browser_manager/csv_import_utility.py:63-74 | A line is read exactly when `host` and `port` are present and the port is a Python integer. `name`, `username` and `password` default to `''`, and `protocol` defaults to `'http'`. |
| CsvImport.ImportedProxiesSpec | scripts/browser_manager/csv_import_utility.py:62-81 | The rows written are the readable lines whose port fits a 64-bit INTEGER and whose host is not NULL, in file order, under consecutive ids. |
| CsvImport.WriteProxies | scripts/browser_manager/csv_import_utility.py:62-81 | It appends exactly those rows to the proxies table and returns their ids in order; a line with an out-of-range port gets no row and no id. |
| CsvImport.ImportProxies | scripts/browser_manager/csv_import_utility.py:49-91 | Lines that raise are skipped, including a NULL host and a port outside the 64-bit range. Only the proxies table and its counter change, and the ids list has one entry per written line. |
| CsvImport.ParseAccountRow | scripts/browser_manager/csv_import_utility.py:106-117 | A line is read exactly when `email` and `password` are present; provider defaults to `gmail`. |
| CsvImport.ImportedAccountsSpec | scripts/browser_manager/csv_import_utility.py:93-134 | The imported accounts get consecutive ids, and their emails are new to the table and pairwise distinct. |
| CsvImport.ImportEmailAccounts | scripts/browser_manager/csv_import_utility.py:93-134 | It appends exactly the accounts whose insert succeeds, and returns their ids in order. |
| CsvImport.FindProxy | scripts/browser_manager/csv_import_utility.py:192-200 | A proxy is found exactly when some row matches host, port and username. A NULL username matches nothing. |
| CsvImport.OverflowingPortNotWritten | scripts/browser_manager/csv_import_utility.py:65-81 | A proxies line with port 2^63 parses but writes no row. |
| CsvImport.FindProxySnoc | scripts/browser_manager/csv_import_utility.py:192-200 | An appended row is found only when no earlier row matches. |
| CsvImport.CreateOrFindProxy | scripts/browser_manager/csv_import_utility.py:186-212 | A port outside the 64-bit range raises before anything is read or written. Otherwise a matching proxy's id is returned and nothing is inserted, whatever the password; failing that, one row is inserted and its id returned, and a repeated call then finds it. |
| CsvImport.FindAccount | scripts/browser_manager/csv_import_utility.py:220-221 | An account is found exactly when its email is stored. |
| CsvImport.CreateOrFindEmailAccount | scripts/browser_manager/csv_import_utility.py:214-236 | A stored email returns the first id, whatever password or provider is given. Otherwise the new account is inserted, or the NOT NULL error is reported. |
| CsvImport.ProxyColumns | scripts/browser_manager/csv_import_utility.py:147-154 | No proxy is made exactly when `proxy_host` is absent or empty; otherwise the key is the line's host and integer port. |
| CsvImport.AccountColumns | scripts/browser_manager/csv_import_utility.py:157-164 | No account is made exactly when `email` is absent or empty. |
| CsvImport.ToInteractColumn | scripts/browser_manager/csv_import_utility.py:171 | An absent field gives false, and a NULL field raises. Otherwise the value is true exactly when the field in lower case is `true`. |
| CsvImport.ImportBrowserRow | scripts/browser_manager/csv_import_utility.py:143-173 | A line with a proxy part whose port fits 64 bits leaves a proxy row with its host, port and username in the table; one whose port does not is skipped and leaves the proxies table unchanged. A written browser row records the resolved proxy and account ids, the name (default `Browser_{k+1}`) and `to_interact`. A line is written exactly when all its steps succeed. |
| CsvImport.OverflowingProxyPortSkipsLine | scripts/browser_manager/csv_import_utility.py:146-177 | A browsers line whose `proxy_port` is 2^63 is never written, whatever the tables hold. |
| CsvImport.ImportBrowsers | scripts/browser_manager/csv_import_utility.py:136-184 | Each line is written exactly when all its steps succeed on the tables it met, an in-range `proxy_port` among them. The ids list has one distinct entry per written line, in file order, and each written row describes its line. The proxies and accounts tables only grow. |
| CsvImport.ImportNextRow | scripts/browser_manager/csv_import_utility.py:143-177 | Line `i` is accepted exactly when its steps succeed on the tables it met, and the progress of the import extends by that line. |
| CsvImport.SnapshotsStep | scripts/browser_manager/csv_import_utility.py:140-177 | The tables a line meets extend the per-line record: earlier lines keep what they met, and the new line is accepted exactly when its steps succeed. |
| CsvImport.ProgressStep | scripts/browser_manager/csv_import_utility.py:143-177 | One line keeps the import loop's invariant, whether it was written or skipped. |
| CsvImport.GetProxyListSpec | scripts/browser_manager/csv_import_utility.py:316-337 | Every proxy appears exactly as often as it is stored, newest first, with every column but the password. |
| CsvImport.GetEmailAccountsListSpec | scripts/browser_manager/csv_import_utility.py:339-359 | Every account appears exactly as often as it is stored, newest first, without its password. |
| Picks.Uncommon | scripts/fingerprint_tester/Attributes/tester.py:74 | The uncommon values are exactly the values of the list that are not in the common list. |
| Picks.CommonAmong | scripts/fingerprint_tester/Attributes/tester.py:78 | The candidates are exactly the common values that the list holds. |
| Picks.WeightedChoice | scripts/fingerprint_tester/Attributes/tester.py:71-102 | The result is an element of the list. If the coin lands (and the common list is non-empty), the pick is a common value the list holds, and it raises when there is none. Otherwise it prefers values outside the common list, and raises only on an empty list. |
| Picks.WeightedReachesUncommon | scripts/fingerprint_tester/fingerprint_tester.py:39-48 | Below certainty, every uncommon value can be picked. |
| Picks.WeightedReachesCommon | scripts/fingerprint_tester/fingerprint_tester.py:39-48 | Above zero, every common value in the list can be picked. |
| Picks.CollectDistinct | scripts/fingerprint_tester/fingerprint_tester.py:109-121 | The result is the draws in order with repeats dropped. There are no duplicates and at most n entries, and the first draw that raises ends the loop with its error. |
| Picks.RepeatAll | scripts/fingerprint_tester/fingerprint_tester.py:109-121 | A property of every successful draw holds of every drawn value. |
| FingerprintTester.WeightedResolution | scripts/fingerprint_tester/fingerprint_tester.py:39-48 | The weighted choice with a 30% common threshold (see Picks.WeightedChoice). |
| FingerprintTester.WeightedTimezone | scripts/fingerprint_tester/fingerprint_tester.py:50-59 | The same with 25%. |
| FingerprintTester.WeightedLanguage | scripts/fingerprint_tester/fingerprint_tester.py:61-70 | The same with 20%. |
| FingerprintTester.DrawCombination | scripts/fingerprint_tester/fingerprint_tester.py:111-117 | Each field is taken from its data list; an empty list makes the draw raise. |
| FingerprintTester.GenerateCombinations | scripts/fingerprint_tester/fingerprint_tester.py:104-123 | The result is the draws with repeats dropped: at most `max_combinations` pairwise distinct combinations, every field from its data list. |
| FingerprintTester.ParseResolution | scripts/fingerprint_tester/fingerprint_tester.py:129 | `"WxH"` parses exactly when it splits at `x` into two Python integers. |
| FingerprintTester.ParseResolutionRoundTrip | scripts/fingerprint_tester/fingerprint_tester.py:129 | Formatting (W, H) as `WxH` parses back to (W, H). |
| FingerprintTester.Locale | scripts/fingerprint_tester/fingerprint_tester.py:135 | The locale is the text before the first comma. |
| FingerprintTester.LocaleOf | scripts/fingerprint_tester/fingerprint_tester.py:135 | `locale,rest` gives back `locale`. |
| FingerprintTester.SettingsOf | scripts/fingerprint_tester/fingerprint_tester.py:129-140 | Context settings exist exactly when the resolution parses. They carry the user agent, timezone, locale and Accept-Language of the combination. |
| FingerprintTester.TestCombination | scripts/fingerprint_tester/fingerprint_tester.py:125-229 | The whole combination fails exactly when the resolution does not parse, the context does not open, or it does not close after the visits. Otherwise there is one result per site, in order, and a failing site records its error without stopping the others. |
| FingerprintTester.UniquenessVerdict | scripts/fingerprint_tester/fingerprint_tester.py:358-364 | Unique exactly when some non-error site result says `is_unique`. |
| FingerprintTester.Judge | scripts/fingerprint_tester/fingerprint_tester.py:356-364 | The verdict for a combination is unique exactly when its settings exist, its context opens and closes, and some site reports it unique. |
| FingerprintTester.RunTests | scripts/fingerprint_tester/fingerprint_tester.py:348-377 | It keeps one record per unique combination, in order, under its 1-based id. |
| FingerprintTester.RunTestsRecordsUnique | scripts/fingerprint_tester/fingerprint_tester.py:348-377 | Every record names a unique combination, the ids increase, and every unique combination is recorded. |
| AdvancedTester.FlashPlugins | scripts/fingerprint_tester/Attributes/tester.py:29-46 | A non-list or empty input gives `[]`. Otherwise the result has the drawn size, at most `min(max_plugins, len)`, and is a sub-multiset of the input. A draw of the full length returns every plugin, and an empty range raises. |
| AdvancedTester.WeightedResolution | scripts/fingerprint_tester/Attributes/tester.py:71-80 | The weighted choice with a 20% threshold. |
| AdvancedTester.WeightedTimezone | scripts/fingerprint_tester/Attributes/tester.py:82-91 | The same with 15%. |
| AdvancedTester.WeightedLanguage | scripts/fingerprint_tester/Attributes/tester.py:93-102 | The same with 10%. |
| AdvancedTester.AvailableCommon | scripts/fingerprint_tester/Attributes/tester.py:107 | Exactly the fonts that contain one of the common font names. |
| AdvancedTester.FontSubset | scripts/fingerprint_tester/Attributes/tester.py:104-118 | It raises exactly when `min(max_fonts, len) < min_fonts`. Otherwise the result is duplicate-free, drawn from the fonts, holds a common font when one is available, and has at least `min_fonts` entries for a distinct list. |
| AdvancedTester.WebglEntry | scripts/fingerprint_tester/Attributes/tester.py:126-134 | A line splits at its first `\|` with both parts stripped, and a line without one gives the stripped text twice. |
| AdvancedTester.WebglEntryRoundTrip | scripts/fingerprint_tester/Attributes/tester.py:126-134 | `vendor\|renderer` splits back into its two stripped parts. |
| AdvancedTester.ParseWebglData | scripts/fingerprint_tester/Attributes/tester.py:120-135 | The two lists are as long as the input, and entry k of each is line k's split. |
| AdvancedTester.DrawProfile | scripts/fingerprint_tester/Attributes/tester.py:218-224 | The seven profile fields are taken from their data lists; any empty list raises. |
| AdvancedTester.DrawWebgl | scripts/fingerprint_tester/Attributes/tester.py:226-227 | The vendor is some vendor and the renderer some renderer. |
| AdvancedTester.DrawWebglPairsAny | scripts/fingerprint_tester/Attributes/tester.py:226-227 | Any vendor can come with any renderer: pairs from the file are not preserved. |
| AdvancedTester.DrawHardware | scripts/fingerprint_tester/Attributes/tester.py:228-234 | `hardware_concurrency` is in [2,32], `canvas_noise` in [1,10] and `webgl_noise` in [1,5]. The remaining fields come from their fixed lists. |
| AdvancedTester.DrawHardwareReaches | scripts/fingerprint_tester/Attributes/tester.py:228-234 | Every in-range hardware record can be drawn. |
| AdvancedTester.DrawAdvanced | scripts/fingerprint_tester/Attributes/tester.py:213-237 | Every field of a combination comes from its source. Fewer than 20 fonts, or an empty WebGL list, makes it raise. |
| AdvancedTester.GenerateAdvancedCombinations | scripts/fingerprint_tester/Attributes/tester.py:206-242 | The result is the draws with repeats dropped: at most `max_combinations` entries, no two equal, each drawable from the data. |
| Users.Display | browser_automation/email_manager/models.py:60-61 | `str(user)` is `username (profile_id)`, with `None` for a missing profile id. |
| Users.DisplaySeparatesProfiles | browser_automation/email_manager/models.py:60-61 | For one username, two users display alike exactly when their profile ids print alike. |
| Users.ProxyConfigOf | browser_automation/email_manager/models.py:63-68 | An empty or missing address gives None. An address without exactly one `:` raises the unpacking error, and a non-integer port raises the `int()` error. |
| Users.ProxyConfigSound | browser_automation/email_manager/models.py:66-67 | A parsed config is the address's text before and after its single `:`, with the port as its integer value. |
| Users.ProxyConfigRoundTrip | browser_automation/email_manager/models.py:66-67 | `ip:port` with a colon-free ip parses back to (ip, port). |
| UserViews.ReaderRow | browser_automation/email_manager/views.py:99-105 | A DictReader row maps each header name to its cell, and to `None` past the end of the record. |
| UserViews.CleanRow | browser_automation/email_manager/views.py:140 | Keys are the non-empty header names, stripped, each with its cell. |
| UserViews.CleanRowOfPlainHeader | browser_automation/email_manager/views.py:140 | With distinct stripped names, each column's cell is found under its stripped name. |
| UserViews.MissingHeaders | browser_automation/email_manager/views.py:111-123 | Exactly the required names that no stripped header name equals. |
| UserViews.MissingInRow | browser_automation/email_manager/views.py:143 | Exactly the required fields that are absent or blank; the list is empty exactly when all four are filled. |
| UserViews.BuildUser | browser_automation/email_manager/views.py:172-190 | The username is stripped, and the email is stripped and lower-cased, both non-empty. The flags are true exactly for `true`, `1` or `yes` after strip and lower-case. An empty proxy address becomes None. `profile_id` is `username_row`. A blank temporary password gives a generated one. |
| UserViews.RowOutcomeCases | browser_automation/email_manager/views.py:138-225 | A NULL required cell is a processing error. A missing or blank field is listed with its names. A broken transaction fails every later row. A taken username is reported before a taken email. Otherwise the row becomes a new user. |
| UserViews.ImportFoldCounted | browser_automation/email_manager/views.py:130-225 | The bookkeeping holds along the whole loop. `error_count` equals errors plus duplicates. `success_count` equals the users flushed so far, a multiple of 1000. Every row read is counted once. |
| UserViews.ImportFoldUnclashed | browser_automation/email_manager/views.py:196-202 | Each bulk insert that raises nothing keeps usernames and profile ids unique. |
| UserViews.TransactionOutcome | browser_automation/email_manager/views.py:130-239 | When the transaction commits, exactly `success_count` users are added after the stored ones, and success plus errors equals the rows read. When the final insert raises, the table is unchanged. |
| UserViews.ImportOutcome | browser_automation/email_manager/views.py:86-246 | A missing required header creates no user and reports exactly one error. When the final insert raises and rolls back, the table is unchanged, while `success_count` still counts the earlier batches (a multiple of 1000). Otherwise the users are added and the counters cover every row. |
| UserViews.ProcessRow | browser_automation/email_manager/views.py:132-225 | One loop iteration: the row's outcome is applied, and a full buffer of 1000 is flushed into the table. |
| UserViews.InsertRows | browser_automation/email_manager/views.py:130-225 | The loop leaves the counters, buffer and table as the fold over the rows says. |
| UserViews.RunTransaction | browser_automation/email_manager/views.py:130-239 | The loop and the final flush give the transaction's results and table. |
| UserViews.ProcessMergedCsv | browser_automation/email_manager/views.py:86-246 | The results and the users table are those of the import. |
| UserViews.FormUser | browser_automation/email_manager/views.py:269-296 | The posted fields are stripped. A checkbox is on exactly when it posts `on`. `profile_id` is `username_{count+1}`. A password is set only when one is posted. |
| UserViews.AddUserOutcome | browser_automation/email_manager/views.py:276-301 | An empty username or email is rejected first. Then a taken username is rejected before a taken email. Otherwise the user is created, unless `create` breaks a unique column. |
| UserViews.UserTable.AddUser | browser_automation/email_manager/views.py:266-309 | The table gains the created user, or nothing on rejection. |
| UserViews.AddUserUnclashed | browser_automation/email_manager/views.py:289-296 | A created user keeps usernames and profile ids unique. |
| UserViews.AddUserTwice | browser_automation/email_manager/views.py:280-282 | Posting the same form again is rejected as a duplicate username. |

## Findings

| source | as written | input that shows it | evidently intended | confidence | as-written member | corrected member |
|---|---|---|---|---|---|---|
| scripts/browser_manager/browser_manager.py:352-356 | `scheduled_time` is stored as `isoformat()` text with a `T` separator (line 334). The global query compares it as text with SQLite's `datetime('now')`, which uses a space. | A pending command scheduled at 2024-05-01 09:00 UTC, queried at 12:00 on the same day: `'2024-05-01T09:00:00' <= '2024-05-01 12:00:00'` is false, because `T` sorts above a space, so the command is not returned. | A command scheduled at or before now is due. | not executed | Fleet.AsWrittenMissesMorningCommand | Fleet.GetPendingCommandsSpec |

`Fleet.AsWrittenMissesSameDayCommands` generalises the counterexample: every same-day earlier command is missed. `Fleet.PendingDueAsWritten` models the comparison as written, and `Fleet.PendingDue` is the corrected filter.

## Left out

- Timestamps are whole seconds, and rows whose sort keys are equal keep their table order. Both are modelling choices. `datetime.now().isoformat()` keeps microseconds, so two `last_interaction` or `created_at` values of the same second are not ties in the source, and SQLite promises no order among rows with equal ORDER BY keys.
- `Store.Database.InsertBrowser`: the `proxy_id` and `email_account_id` it binds are not checked against the 64-bit range. In the project they are row ids the tables issued.
- File reading and writing and CSV parsing itself. Rows arrive as maps from header to optional cell.
- `export_browsers_to_csv`, `generate_sample_csv_files`, the sample data, and the `argparse` entry points of every script. These are I/O and command-line dispatch.
- The call mismatch at `playwright_executor.py:417`, which passes `use_proxy` to a method that does not take it. It lies in the command-line entry point.
- `init_proxy_accounts_tables` and the rest of the SQLite connection handling. Its schema is modelled by `Store`, and SQL text, connections and `transaction.atomic` are not.
- Django ORM behaviour beyond the unique checks the model states, plus `admin.py`, both `urls.py`, `delete_user`, `edit_user`, the dashboard views and login.
- `csv_merger.py` (both copies), which is a thin wrapper over pandas. `ua.py`, which is an interactive script.
- Playwright itself: the init-script JavaScript of `apply_fingerprint_overrides` is a marker carrying the values it would inject, and page navigation is a recorded driver call.
- `process_emails` and its DOM handling, the inside of `execute_custom_action`, and `generate_ai_reply`. The OpenAI call is a foreign service, and a custom action is one driver call that may raise.
- The `extract_*` scrapers of both testers, which are behind the `Visit` oracle.
- `test_advanced_combination`, `run_advanced_tests`, `save_results` and the reporting in `tester.py`. They are site visits, floats and file output.
- The `uniqueness_scores` list, the timestamps and the uniqueness percentage, ranking and averages. These are floats and clocks.
- asyncio concurrency. The members of a group run one after another, and `gather`'s collected exceptions are modelled as sessions that end abandoned. The semaphores of the testers are not modelled: `run_tests` appends a record when its combination finishes, so under the semaphore and `gather` the records land in completion order. "In order" and "the ids increase" in `FingerprintTester.RunTests` and `FingerprintTester.RunTestsRecordsUnique` hold for the sequential model only; the set of records is the same either way.
- Floats: `audio_fingerprint` is left out. `device_memory` and `pixel_ratio` are kept in quarters. `random.uniform` delays are recorded as pause markers with their bounds.
- `random.random() < p` is modelled as a draw modulo 100 below the percentage, which keeps the thresholds but not the exact float probabilities.
- Python `int()`: underscores and non-ASCII digits are not accepted by `Text.ParseInt`. Python `str.lower` is ASCII lower-casing only.
- `AdvancedTester.FontSubset`: Python's set order is modelled as first occurrence. The result's bound is stated as `min(max_fonts, len) + 3` and not the exact size, because the common fonts are added after the sample.
- Password hashing and Django's random password generation, which are modelled as `GeneratedPassword` and `GivenPassword` markers.
- Extra cells beyond the header (DictReader's `restkey`), which the views never read.
- The empty-after-normalisation check at `views.py:155-158`, which cannot fire because the fields are already non-blank.
- `FingerprintTester.RunTests`: a combination whose resolution does not parse, or whose context does not open or close, is recorded as never unique, since its error entry has no site results.
- `Executor.BrowserScheduler.StartContinuousAutomation`: the `while self.running` loop is bounded by a `maxRounds` argument, so runs longer than that bound are not described.
- `Fleet.ScheduleBrowserBatch`: `schedule_browser_batch` calls `datetime.now()` twice, once for `scheduled_time` and once for `next_batch_time`. The model reads the clock once and uses that `now` for both, so it does not capture the two readings differing.
- `Executor.PlaywrightExecutor.RunBrowserBatch`: the selected ids are not all stated to read `inactive` afterwards. A selected id that was not active and whose launch raised keeps the status it had, because selection admits every status except `running`. What is stated is that only selected ids change status, and each only to `inactive`.
- `Executor.PlaywrightExecutor`: its invariant is that every active id reads `running`. The store's own invariant is kept by each write and is not repeated there.
