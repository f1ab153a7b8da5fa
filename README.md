# SurgeCLI core, modelled in Dafny

SurgeCLI is a Typer command-line tool for Linux diagnostics. This project models three parts of it:

- **`monitor` and `network`** (cli/app.py):
  - the metric parsers `get_load`, `get_cpu`, `get_memory` and `get_disk`;
  - the interval check and the panel sequence of `monitor`;
  - inside `network`: `normalize_url`, `summarize_ping`, `summarize_trace`, the validation block, the probe sequence with its `traceroute or mtr` and `dig or nslookup` fallbacks, and the order of the printed sections.
- **The AI monitor** (cli/ai/ai_monitor.py):
  - `SystemSnapshot.to_dict`;
  - the parsing in `MetricCollector.collect`;
  - `CommandExecutor.is_diagnostic_command` and `execute`, the confirmation gate in front of a command;
  - on `AIMonitor`: `_format_response`, `_extract_commands`, `run_fixes`, and the `include_raw` choice of `analyze`.
- **The `merge` decorator** (cli/merge.py):
  - `declared_defaults`;
  - the advertised signature in which options default to None;
  - the wrapper's loop, which resolves each parameter from the explicit argument, then the configuration section, then the declared default, then None.

Files:

| file | module | contents |
|---|---|---|
| wrappers.dfy | `Wrappers` | `Option` and `Result` |
| pystr.dfy | `PyStr` | the Python `str` operations the parsers use, with CPython's edge cases for ASCII text: `split()`, `split(c)`, `splitlines()`, `strip()`, `strip(c)`, `int()`, `upper()`, slicing and `in` |
| app.dfy | `App` | cli/app.py |
| ai_monitor.dfy | `AiMonitor` | cli/ai/ai_monitor.py |
| merge.dfy | `Merge` | cli/merge.py |

External effects are modelled as oracles:

- **The shell behind `run_cmd` in cli/app.py.** This is the class `App.Shell`. It holds `respond`, a function from command line to printed text, and `calls`, the log of commands run. The probes of `network` are methods on it. Each probe is proved against a specification function that gives the commands run and the lines printed. The properties of `network` (section order, fallbacks, validation exits) are lemmas about that function.
- **In cli/ai/ai_monitor.py, the user and the machine.** These are the class `AiMonitor.Host`:
  - `answers(n)` is the user's reply to the n-th `Confirm.ask`;
  - `system(cmd)` is the completed process for a command, or None when `subprocess.run` raises;
  - `log` records every prompt and every command started.

  The safety property "a command that is not allow-listed runs only after a yes to both prompts" is stated over that log (`AiMonitor.FixesConfirmed`).
- **`merge`.** It works on values: parameters, the bound arguments and the configuration are inputs. The dict comprehension `declared_defaults` is the function `Merge.DeclaredDefaults`. The loop building `new_params` is the method `Merge.NewParams`, whose contract states each new parameter by index. The wrapper's resolution loop is the method `Merge.ResolveArgs`, proved against the function `Merge.Merged`.

The main model follows the code as written, including the two places where the code evidently differs from what its authors meant (see "## Findings"). The intended behaviour of each is defined beside it, with its property proved.

Python's `float(...)` is not modelled. Numeric tokens stay text, as the token strings `float` would read. cli/app.py shows the disk percentage with its `%`. `collect` strips the `%` before `float` (`AiMonitor.DiskPercentStripped`).

## Model

| member | source | states |
|---|---|---|
| App.LoadAverages | cli/app.py:62-71 | get_load's averages: the words of the awk output with commas removed, as text; see App.LoadOfCommaList |
| App.RemoveCommas | cli/app.py:68 | one token per input word, each with every comma removed (`x.replace(",", "")`) |
| App.LoadOfCommaList | cli/app.py:62-71 | on uptime's "a, b, c" load list (comma-free words), get_load returns exactly those words, in order |
| App.CpuUsage | cli/app.py:74-83 | a successful parse gives three whitespace-free tokens, and needs a line with at least four comma segments |
| App.CpuOfSegments | cli/app.py:78-81 | get_cpu succeeds exactly when segment 0 has two words and segments 1 and 3 exist and are non-blank; it then returns the second-to-last word of segment 0 and the first words of segments 1 and 3; otherwise IndexError |
| App.CpuOfSplit | cli/app.py:78-81 | the same, stated for the segments `split(",")` gives on the top line |
| App.Memory | cli/app.py:86-93 | get_memory: words 1-3 of the free row, or IndexError; see App.RowParsers |
| App.Disk | cli/app.py:96-103 | get_disk: words 1-4 of the df row, percent sign kept, or IndexError; see App.RowParsers |
| App.RowParsers | cli/app.py:86-103 | get_memory returns words 1-3 of the row unchanged and get_disk words 1-4 (the percentage keeps its "%"); a shorter row gives IndexError |
| App.NormalizeUrl | cli/app.py:280-281 | the result always starts with http:// or https://; a URL that already does is unchanged; any other gets "http://" prepended |
| App.NormalizeUrlIdempotent | cli/app.py:280-281 | normalize_url applied twice equals normalize_url applied once |
| App.LatestIsLastSet | cli/app.py:290-302 | a field of summarize_ping is unset exactly when no line sets it; otherwise it holds what the last line that sets it gives |
| App.LatestAppend | cli/app.py:290-302 | a later line that sets a field overwrites every earlier one |
| App.StatisticsStep | cli/app.py:291-297 | a statistics line updates `sent` and `loss` when it parses, and leaves them as they were when int() or the index raises |
| App.RttStep | cli/app.py:298-302 | an rtt/round-trip line updates `avg` only when the "=" and "/" fields exist |
| App.PingSummary | cli/app.py:287-312 | the specification of summarize_ping that the loop is proved against; see App.LatestIsLastSet, App.PingWithoutStatistics |
| App.SummarizePing | cli/app.py:287-312 | the loop over the lines returns the specification PingSummary: the set fields joined by " \| " in the order sent, loss, avg, or the fallback text |
| App.PingWithoutStatistics | cli/app.py:312 | output with neither a statistics nor an rtt line gives the first 200 characters of the stripped output, and "" for empty output |
| App.LossOfIsWord | cli/app.py:292-295 | on the standard "N packets transmitted, M received, P packet loss" line, sent is int(N) and loss is the word "packet" (parts[6]) |
| App.IntendedLossIsPercentage | cli/app.py:292-295 | the intended reading (parts[5]) of that line gives the percentage P |
| App.NonBlank | cli/app.py:315 | keeps exactly the lines whose strip() is non-empty |
| App.NonBlankAppend | cli/app.py:315 | the filter keeps line order: the non-blank lines of a + b are those of a, then those of b |
| App.SummarizeTrace | cli/app.py:314-318 | summarize_trace; see App.TraceSummaryShape |
| App.TraceSummaryShape | cli/app.py:314-318 | at most max_lines non-blank lines: the output itself; more: its lines are the first 6 non-blank lines, "...", and the last 6 |
| App.Shell.constructor | cli/app.py:52-59 | a shell with the given responses and no command run yet |
| App.Shell.Run | cli/app.py:52-59 | run_cmd logs the command and returns its output stripped |
| App.Shell.RunEither | cli/app.py:350 | `run_cmd(a) or run_cmd(b)`: b runs only when a's stripped output is empty |
| App.Validate | cli/app.py:320-336 | exit 2 exactly when a supplied host, url or domain is blank, checked in that order with its own message; exit 1 exactly when nothing at all was requested |
| App.NetworkSpec | cli/app.py:320-385 | a rejected invocation runs nothing and prints only its warning; the exit code is 0 exactly when validation passes |
| App.PingProbe | cli/app.py:339-346 | runs `ping -c N host` and prints the "Ping" heading, then the summary or the warning |
| App.TraceProbe | cli/app.py:349-355 | runs traceroute, falls back to `mtr -r`, prints the summary or the warning |
| App.MaybeTrace | cli/app.py:348-355 | traceroute section only without --no-trace |
| App.HostProbe | cli/app.py:339-355 | the ping section followed by the optional trace section |
| App.UrlProbe | cli/app.py:358-367 | curl's brief line for the normalized URL, then its headers or the warning |
| App.DnsProbe | cli/app.py:370-379 | dig, falling back to nslookup, then the answer or the warning |
| App.SocketsProbe | cli/app.py:382-385 | `ss -tulwn` output or the warning |
| App.MaybeHost | cli/app.py:339 | the host section exactly when --host is truthy |
| App.MaybeUrl | cli/app.py:358 | the curl section exactly when --url is truthy |
| App.MaybeDns | cli/app.py:370 | the DNS section exactly when --domain is truthy |
| App.MaybeSockets | cli/app.py:382 | the sockets section exactly when --sockets is set |
| App.Network | cli/app.py:320-385 | network's exit code, commands run and lines printed are those of NetworkSpec |
| App.PingHeadings | cli/app.py:340 | the ping section prints the one heading "Ping" |
| App.TraceHeadings | cli/app.py:349 | the trace section prints the one heading "Traceroute" |
| App.OptionalTraceHeadings | cli/app.py:348-349 | "Traceroute" is printed exactly without --no-trace |
| App.HostHeadings | cli/app.py:339-349 | the host part prints "Ping" then, without --no-trace, "Traceroute"; nothing without a host |
| App.UrlHeadings | cli/app.py:359 | the curl section prints the one heading "HTTP (curl)" |
| App.DnsHeadings | cli/app.py:371 | the DNS section prints the one heading "DNS" |
| App.SocketsHeadings | cli/app.py:383 | the sockets section prints the one heading "Sockets (ss)" |
| App.OtherHeadings | cli/app.py:358-383 | the url, dns and sockets parts print their heading exactly when requested |
| App.SpecParts | cli/app.py:338-385 | after validation, the commands and output are those of the host, url, dns and sockets parts, in that order |
| App.NetworkSectionOrder | cli/app.py:338-385 | the headings printed are exactly those requested, in the fixed order Ping, Traceroute, HTTP (curl), DNS, Sockets (ss) |
| App.TraceCalls | cli/app.py:350 | `mtr -r host` runs exactly when traceroute's output is empty |
| App.HostTraceCalls | cli/app.py:348-350 | in the host part, mtr runs exactly when tracing is on and traceroute printed nothing |
| App.TracerouteFallback | cli/app.py:348-350 | over the whole command: mtr runs exactly when --no-trace is off and traceroute printed nothing |
| App.TracerouteFallbackPrinted | cli/app.py:350-355 | in that case the summary of mtr's output is printed |
| App.DnsSectionCalls | cli/app.py:372-374 | nslookup runs exactly when dig's output is empty |
| App.DnsFallback | cli/app.py:370-374 | over the whole command: nslookup runs exactly when dig printed nothing |
| App.EmptyUrlExits | cli/app.py:324-326 | `--url ""` with no host exits 2 with the url warning before any probe |
| App.MetricPanel | cli/app.py:163-230 | a panel carries its metric's title and every row has one cell per column |
| App.Panels | cli/app.py:192-230 | one panel per requested metric, in order |
| App.RunMetricsShown | cli/app.py:161-234 | when every requested panel reads, the dashboard holds those panels, after running their commands in order |
| App.RunMetricsCrash | cli/app.py:163-230 | the first panel that raises IndexError ends the command after its own commands |
| App.RunMetricsOutcome | cli/app.py:161-234 | the dashboard is shown exactly when all requested panels read; reading never gives BadParameter |
| App.MonitorDashboard | cli/app.py:147-234 | with a positive interval and readable panels, monitor shows exactly the requested panels in order |
| App.MonitorCrash | cli/app.py:147-230 | with a positive interval, a panel that raises stops monitor after it |
| App.MonitorOutcomes | cli/app.py:147-148 | BadParameter exactly for interval <= 0, and then nothing runs; the dashboard exactly for a positive interval and readable panels |
| App.MonitorStep | cli/app.py:163-230 | one `if <flag>:` block of monitor keeps the invariant relating panels and commands to the specification |
| App.MonitorSteps | cli/app.py:163-230 | two consecutive blocks keep it |
| App.MonitorBlocks | cli/app.py:161-230 | the four blocks produce the panels and commands of the specification, or its crash |
| App.Monitor | cli/app.py:147-234 | monitor's commands and outcome are those of MonitorSpec |
| AiMonitor.ToDict | cli/ai/ai_monitor.py:80-81 | to_dict: the fields of asdict that are not None, in declaration order; see AiMonitor.ToDictOmitsNone, AiMonitor.ToDictKeys |
| AiMonitor.PresentExactly | cli/ai/ai_monitor.py:81 | the comprehension keeps a pair (k, v) exactly when the field k held Some(v) |
| AiMonitor.ToDictOmitsNone | cli/ai/ai_monitor.py:80-81 | to_dict holds (k, v) exactly when field k has the value v, not None |
| AiMonitor.ToDictKeys | cli/ai/ai_monitor.py:69-81 | to_dict has the four reading keys always and each raw key exactly when that output was collected |
| AiMonitor.Host.constructor | cli/ai/ai_monitor.py:196-204 | no prompt answered and no command started yet |
| AiMonitor.Host.Ask | cli/ai/ai_monitor.py:198 | Confirm.ask returns the next answer; the prompt and answer are logged |
| AiMonitor.Host.Invoke | cli/ai/ai_monitor.py:202-204 | subprocess.run is logged and gives the machine's completion |
| AiMonitor.RunCmd | cli/ai/ai_monitor.py:94-104 | run_cmd as a function of the machine: stripped stdout, or None when subprocess.run raises; AiMonitor.RunCommand is proved against it |
| AiMonitor.RunCommand | cli/ai/ai_monitor.py:94-104 | run_cmd runs the command once and gives its stripped stdout, or None when subprocess.run raises |
| AiMonitor.StripCommas | cli/ai/ai_monitor.py:113 | each load word with commas stripped from both ends (`x.strip(",")`) |
| AiMonitor.ReadLoad | cli/ai/ai_monitor.py:112-113 | the load words from the awk command; None output raises AttributeError |
| AiMonitor.ReadCores | cli/ai/ai_monitor.py:116 | int() of nproc's output |
| AiMonitor.ReadMemory | cli/ai/ai_monitor.py:118-123 | words 1-3 of the Mem row as total, used and free |
| AiMonitor.ReadDisk | cli/ai/ai_monitor.py:126-127 | word 4 of the df row with "%" stripped |
| AiMonitor.CombineCases | cli/ai/ai_monitor.py:110-135 | the snapshot is built exactly when all four readings succeed; otherwise the first failure is raised after its own command |
| AiMonitor.CollectReadings | cli/ai/ai_monitor.py:110-135 | the commands uptime, awk, nproc, free, df run in order until the first failure; the result is the readings' snapshot or that exception |
| AiMonitor.Collection | cli/ai/ai_monitor.py:106-145 | the specification of collect; see AiMonitor.CombineCases, AiMonitor.CollectRawOnlyWhenAsked, AiMonitor.CollectCommands |
| AiMonitor.Collect | cli/ai/ai_monitor.py:106-145 | collect's commands and result are those of Collection |
| AiMonitor.CollectRawOnlyWhenAsked | cli/ai/ai_monitor.py:138-142 | the raw fields are set exactly when include_raw is true, from uptime, free -m, df -h and top; the readings and whether collect raises do not depend on it |
| AiMonitor.CollectCommands | cli/ai/ai_monitor.py:110-142 | a successful collect runs the five reading commands and, with include_raw, the three raw ones |
| AiMonitor.CollectStopsAtFirstError | cli/ai/ai_monitor.py:112-116 | a failing load reading raises AttributeError after two commands; a failing core count raises after three |
| AiMonitor.DecimalInt | cli/ai/ai_monitor.py:116-122 | int() of a decimal numeral is its value |
| AiMonitor.MemoryOfNumerals | cli/ai/ai_monitor.py:118-123 | a Mem row with numerals in words 1-3 gives those numbers as total, used, free |
| AiMonitor.MemoryShortRow | cli/ai/ai_monitor.py:120 | a row of fewer than two words raises IndexError |
| AiMonitor.DiskPercentStripped | cli/ai/ai_monitor.py:127 | "21%" becomes "21": the "%" is stripped before float() |
| AiMonitor.AnyOccurs | cli/ai/ai_monitor.py:184 | `any(cmd in s for cmd in subs)`: true exactly when some entry is a substring |
| AiMonitor.IsDiagnosticCommand | cli/ai/ai_monitor.py:168-184 | true exactly when some allow-listed command is a substring of the command |
| AiMonitor.StatusIsDiagnostic | cli/ai/ai_monitor.py:168-184 | `sudo systemctl status nginx` is allow-listed |
| AiMonitor.NotDiagnosticWithoutLetters | cli/ai/ai_monitor.py:168-184 | a command without "t", "p" and "f" (a kill, a mkdir) is never allow-listed |
| AiMonitor.PdfPathSkipsPrompt | cli/ai/ai_monitor.py:182-199 | as written, `rm -rf /srv/pdf` holds "df", so it is allow-listed and execute runs it with no prompt |
| AiMonitor.IntendedIsStricter | cli/ai/ai_monitor.py:182-184 | every command the intended allow-list test accepts is accepted by the substring test too |
| AiMonitor.IntendedRejectsOtherCommands | cli/ai/ai_monitor.py:182-184 | under the intended test, a command whose first letter begins no allow-listed command and is not the s of sudo is never allow-listed |
| AiMonitor.IntendedRejectsPdfPath | cli/ai/ai_monitor.py:182-184 | under the intended test, `rm -rf /srv/pdf` is not allow-listed, so execute asks first |
| AiMonitor.Execution | cli/ai/ai_monitor.py:186-209 | the specification of execute; see AiMonitor.ExecuteGate, AiMonitor.ExecuteReports |
| AiMonitor.Execute | cli/ai/ai_monitor.py:186-209 | execute's prompts, commands and result are those of Execution |
| AiMonitor.ExecuteGate | cli/ai/ai_monitor.py:195-199 | a non-allow-listed command under confirmation asks "Execute this fix?" first, runs exactly on yes, and on no returns (False, "Cancelled by user"); otherwise it runs with no prompt |
| AiMonitor.ExecuteReports | cli/ai/ai_monitor.py:201-206 | a command that ran reports success exactly for return code 0, with its stdout |
| AiMonitor.CommandsIn | cli/ai/ai_monitor.py:371-387 | the specification of _extract_commands over the lines; see AiMonitor.CommandsFromLines, AiMonitor.CommandsToLines, AiMonitor.NoCommands |
| AiMonitor.CommandsInAppend | cli/ai/ai_monitor.py:376-385 | the commands of two blocks of lines are those of each, in order |
| AiMonitor.CommandsStep | cli/ai/ai_monitor.py:376-385 | one more line adds its command, if any, at the end |
| AiMonitor.CommandInShape | cli/ai/ai_monitor.py:377-385 | a command taken from a line is non-empty and has no surrounding whitespace |
| AiMonitor.CommandsFromLines | cli/ai/ai_monitor.py:371-387 | every extracted command is what some line of the reply yields |
| AiMonitor.CommandsToLines | cli/ai/ai_monitor.py:371-387 | every command a line yields is in the extracted list |
| AiMonitor.NoCommands | cli/ai/ai_monitor.py:371-387 | no command is extracted exactly when no line yields one |
| AiMonitor.CommandsClean | cli/ai/ai_monitor.py:382-385 | every extracted command is non-empty and stripped |
| AiMonitor.DollarLine | cli/ai/ai_monitor.py:380-382 | " $ df -h" yields "df -h" |
| AiMonitor.Monitor.ExtractCommands | cli/ai/ai_monitor.py:371-387 | the loop returns the commands of the reply's "\n"-separated lines, in line order |
| AiMonitor.Important | cli/ai/ai_monitor.py:313-317 | keeps exactly the lines whose upper-case form contains SUMMARY:, CRITICAL: or ACTION: |
| AiMonitor.ImportantAppend | cli/ai/ai_monitor.py:313-317 | the filter keeps line order: the marked lines of a + b are those of a, then those of b |
| AiMonitor.JoinLines | cli/ai/ai_monitor.py:320 | splitting a "\n"-join of newline-free lines gives those lines back |
| AiMonitor.ImportantLines | cli/ai/ai_monitor.py:312-317 | no kept line contains "\n" |
| AiMonitor.FormatResponse | cli/ai/ai_monitor.py:308-327 | _format_response for a verbosity and data format; see AiMonitor.ConciseDropsFirstThree, AiMonitor.OtherVerbosities |
| AiMonitor.ConciseDropsFirstThree | cli/ai/ai_monitor.py:310-320 | CONCISE gives "" for at most three marked lines, and otherwise exactly the marked lines after the first three |
| AiMonitor.ConciseLosesSummary | cli/ai/ai_monitor.py:310-320 | a one-line reply starting with SUMMARY: is marked, yet CONCISE gives "" |
| AiMonitor.IntendedConciseKeepsFirstThree | cli/ai/ai_monitor.py:319 | the intended CONCISE keeps the first three marked lines, in order |
| AiMonitor.OtherVerbosities | cli/ai/ai_monitor.py:322-327 | NORMAL returns the reply; DETAILED appends "\n\n[Context: Using <format> format]" |
| AiMonitor.Fixes | cli/ai/ai_monitor.py:389-412 | the specification of run_fixes; see AiMonitor.FixesOnePerCommand, AiMonitor.FixesConfirmed, AiMonitor.FixesStopAtError |
| AiMonitor.FixesStopAtError | cli/ai/ai_monitor.py:393-397 | an exception from execute ends run_fixes: later commands are neither asked about nor run |
| AiMonitor.FixesExtend | cli/ai/ai_monitor.py:393-410 | one more command after earlier ones went through adds its step's prompts, commands and result |
| AiMonitor.FixesOnePerCommand | cli/ai/ai_monitor.py:391-412 | run_fixes returns one result per command, in order, each output at most 200 characters |
| AiMonitor.FixStepOutcome | cli/ai/ai_monitor.py:396-410 | a declined command records (cmd, False, "Skipped by user"); an executed one records success and the first 200 characters of the output |
| AiMonitor.ConfirmedAppend | cli/ai/ai_monitor.py:393-410 | confirmation before every command is kept by concatenation |
| AiMonitor.FixStepConfirmed | cli/ai/ai_monitor.py:396-397 | within one step, a command runs only after a yes to "Execute this command?" and, unless allow-listed, a yes to "Execute this fix?" |
| AiMonitor.FixesConfirmed | cli/ai/ai_monitor.py:389-412 | over all of run_fixes, no command runs before those confirmations |
| AiMonitor.PrepareData | cli/ai/ai_monitor.py:260-297 | whether _prepare_data raises: RAW never; STRUCTURED and HYBRID divide each load by cpu_cores, then used by total; see AiMonitor.AnalyzeDivisionByZero |
| AiMonitor.MemoryKeys | cli/ai/ai_monitor.py:119-123 | the memory dict of a readable Mem row has exactly the keys total, used and free, with total = int(word 1) |
| AiMonitor.AnalyzeDivisionByZero | cli/ai/ai_monitor.py:260-297 | after a successful collect, _prepare_data raises exactly when the format is not RAW and either nproc gave 0 with load averages present or free's total is 0, and the error is ZeroDivisionError (never KeyError) |
| AiMonitor.AnalyzeRawChoice | cli/ai/ai_monitor.py:338-340 | analyze collects the raw outputs exactly when the format is not STRUCTURED |
| AiMonitor.Monitor.constructor | cli/ai/ai_monitor.py:236-244 | an AIMonitor with the given format and verbosity |
| AiMonitor.Monitor.RunFixes | cli/ai/ai_monitor.py:389-412 | the loop's prompts, commands and result are those of Fixes |
| AiMonitor.Monitor.RunFix | cli/ai/ai_monitor.py:394-410 | one pass of the loop: its prompts, commands and result are those of FixStep |
| AiMonitor.Monitor.Analyze | cli/ai/ai_monitor.py:330-369 | analyze collects with include_raw = not STRUCTURED; an exception from collect propagates; then _prepare_data's ZeroDivisionError propagates; otherwise it returns the snapshot, the formatted reply and the extracted commands |
| Merge.DeclaredDefaults | cli/merge.py:27-31 | holds only parameter names |
| Merge.DeclaredDefaultsExactly | cli/merge.py:27-31 | a parameter is in declared_defaults exactly when it declared a default, and with that default |
| Merge.NewParams | cli/merge.py:34-43 | same names and kinds, in order; default None except for var-positional, var-keyword and positional-only parameters, which keep theirs |
| Merge.SectionKey | cli/merge.py:51 | the given section unless it is None or "", else the function's name |
| Merge.Section | cli/merge.py:49-56 | the named table of a dict config_data, and {} when the table is absent, config_data is not a dict, or the global is missing |
| Merge.Merged | cli/merge.py:59-75 | the specification of final_args; see Merge.MergedEntries, Merge.Precedence |
| Merge.MergedEntries | cli/merge.py:61-77 | final_args has exactly the parameter names as keys, each with its resolved value |
| Merge.Precedence | cli/merge.py:62-75 | an explicit non-None argument wins; then a config key, even over a declared default; then the declared default; then None |
| Merge.ExplicitNoneIsAbsent | cli/merge.py:58-66 | passing None explicitly gives the same final_args as not passing the argument |
| Merge.UnknownConfigIgnored | cli/merge.py:61-77 | config keys that name no parameter do not change final_args |
| Merge.ResolveArgs | cli/merge.py:59-75 | the loop with its `continue`s builds Merged |
| Merge.Decorate | cli/merge.py:25-44 | keeps the original signature and declared_defaults, and advertises the None-default signature |
| Merge.Wrapper | cli/merge.py:48-77 | the keyword arguments func is called with are Merged over the section chosen by SectionKey |

## Findings

| source | as written | input that shows it | evidently intended | confidence | as-written member | corrected member |
|---|---|---|---|---|---|---|
| cli/app.py:292-295 | `loss = parts[6]` after removing commas | "5 packets transmitted, 5 received, 0% packet loss, time 4005ms" gives loss "packet" | `parts[5]`, the percentage "0%" | high, not executed | App.LossOfIsWord | App.IntendedLossIsPercentage |
| cli/ai/ai_monitor.py:319-320 | `"\n".join(important[3:])` | a reply whose only marked line is "SUMMARY: ok" gives "" under CONCISE | `important[:3]`, as the comment "maxing 3 lines" says | high, not executed | AiMonitor.ConciseLosesSummary | AiMonitor.IntendedConciseKeepsFirstThree |
| cli/ai/ai_monitor.py:182-184 | `any(cmd in command for cmd in ...)`, a substring test | "rm -rf /srv/pdf" holds "df", so execute runs it without asking "Execute this fix?" | the command, perhaps under sudo, is one of the allow-listed commands, alone or with further arguments | medium, not executed | AiMonitor.PdfPathSkipsPrompt | AiMonitor.IntendedRejectsOtherCommands |

`network`, `analyze` and the rest of the model use the code as written (`App.PingSummary`, `AiMonitor.FormatResponse`). The corrected definitions `App.IntendedLossOf` / `App.IntendedPingSummary`, `AiMonitor.IntendedConcise` and `AiMonitor.IntendedIsDiagnostic` sit beside them, with the intended property proved. `run_fixes` still asks "Execute this command?" before every command, so `AiMonitor.FixesConfirmed` holds under the substring test too.

## Left out

- Process execution, timeouts and the console: `subprocess.run` and `Confirm.ask` are the oracles described above, and nothing is printed with Rich.
- Floating point: `float(...)` in get_load, and the per-core load division and status thresholds of `monitor --verbose` (cli/app.py:68-69, 170-190). Tokens stay text; `--verbose` is not modelled.
- `float()` raising ValueError on a non-numeric load or disk token, in both files. Only int() parsing is modelled (`PyStr.ParseInt`).
- App.MetricPanel: the load panel does not check that nproc prints a number, since `float(run_cmd("nproc"))` is floating point.
- `get_io` and the `--io` flag, which select nothing.
- Rich tables, panels and `create_table`; a panel is its title, column headers and rows.
- `monitor_loop`, `run_ai_monitor`, `SYSTEM_PROMPT`, the LLM client and its conversation memory (foreign calls). `analyze` is given the model's reply as an input. Of `_prepare_data`, only whether it raises is modelled (`AiMonitor.PrepareData`); the JSON text it builds and its float arithmetic are not.
- AiMonitor.Monitor.Analyze: an exception raised by `self.llm.invoke` (network or API errors) or by `memory.save_context` is not among its results, because the LLM client is not modelled.
- AiMonitor.Execute: the except branch is modelled as the TypeError that `str("Error is: ", err)` raises, so an exception in subprocess.run propagates out of execute as TypeError.
- `str.upper()` is ASCII-only here (`PyStr.Upper`), and `strip()` uses the str.isspace character set; no other Unicode case mapping is modelled.
- PyStr.ParseInt: `int()` accepts only ASCII digits here; CPython also accepts every other Unicode decimal digit (`int("１２") == 12`), where the model gives ValueError.
- Merge: Python's `bind_partial` (matching positional arguments to parameters, and its TypeError on unknown ones) is not modelled; the bound arguments are an input. Calling `func(**final_args)` is also left out; the wrapper returns final_args.
- Merge.Section: a configuration section that is a TOML scalar rather than a table is not modelled.
- config/config.py (reading and writing the TOML file) is I/O. Typer's own argument parsing and exit codes are framework behaviour.
