# LocalRun agent lifecycle, in Dafny

LocalRun's macOS agent is a small local server that runs in the background
as a per-user launchd LaunchAgent. Its command line
(`macos/localrun_agent/cli.py`) manages that service: `install` writes the
LaunchAgent descriptor (a property list under `~/Library/LaunchAgents`),
`uninstall` unloads it and removes it together with the config record
`~/.localrun/agent.json`, `start` and `stop` load and unload it with
`launchctl`, `restart` does both, and `status` runs `launchctl list`,
reports the service running when the text `com.localrun.agent` occurs
anywhere in its output (a substring test, not a comparison of labels), and
shows the port, pid and version found in the config record.

This project models that controller:

- `Paths`: the label, the default port and the four per-user paths
  (`CONFIG_DIR`, `CONFIG_FILE`, `PLIST_PATH`, `LOG_FILE`) as functions of the
  home directory; the config directory, the descriptor, the config record
  and the log file are proved pairwise distinct and all below the home
  directory.
- `Plist`: the descriptor as a record, a generic renderer, and the literal
  text `install` writes; the text is proved to be exactly the rendering of
  the agent's descriptor, and to determine the executable path it embeds.
- `Text`: the string operations the commands depend on (`str.strip` with
  Python's whitespace set, `str.lower`, the `in` substring test), each
  specified by what it means.
- `Launchctl`: the programs' results as inputs (`Completed(code, stdout,
  stderr)` or `NotLaunched` when the program cannot be started), the command
  lines issued, and the exit-code/diagnostic classification `start` and
  `stop` share.
- `Config`: the config record as a parsed JSON value and the view `status`
  displays, with its defaults.
- `Lifecycle`: each command as a function from the host state (descriptor,
  directories, config record), the results of the programs it runs and any
  failing file-system step, to the new state, the report, and the programs
  run. Exit codes follow the source: `sys.exit(1)` on every reported error.
- `Launchd`: how `launchctl` itself behaves is not part of the source; it is
  stated as explicit assumptions (`LoadBehaves`, `UnloadBehaves`) over the
  set of loaded labels, and the idempotence of `start`, `stop` and `restart`
  is proved under them.
- `Agent`: the controller as an object whose fields are the managed files;
  its methods carry out each command step by step, in the source's order,
  and are proved to produce exactly the state, report and program calls of
  the `Lifecycle` function.

Where the code's behaviour may surprise, the model follows the code:

- a config record that `json.load` rejects makes `status` exit with 1 (the
  read is inside the command's `try`), even when the service is stopped;
- the exit code of `launchctl list` is ignored: from the listing, `status`
  fails only when the program cannot be started (the config record can
  make it fail too, as the neighbouring items say);
- a config record that parses but is not a JSON object makes `status` fail
  only when the service is running, because `config.get` is only evaluated
  then;
- in `restart`, a `stop` that exits with 1 raises `SystemExit`, which is not
  an `Exception`, so `start` never runs;
- `install` creates `~/.localrun` before it runs `which`, so a failed lookup
  still leaves the config directory behind;
- `uninstall` stops at the first failure and exits with 1: a `launchctl`
  that cannot be started removes nothing, and a failing unlink of the
  descriptor leaves the config record in place.

## Model

| member | source | states |
|---|---|---|
| Paths.PathsDistinct | macos/localrun_agent/cli.py:19-22 | the config directory, the descriptor, the config record and the log file are four different paths, each strictly below the home directory |
| Text.Strip | macos/localrun_agent/cli.py:53-56 | the result is a contiguous slice of the input with no Python whitespace at either end, and everything cut off on either side is whitespace |
| Text.StripIdempotent | macos/localrun_agent/cli.py:53-56 | stripping a stripped path changes nothing |
| Text.Lower | macos/localrun_agent/cli.py:152 | lower-casing keeps the length and maps every character by itself |
| Text.Contains | macos/localrun_agent/cli.py:213 | the substring test holds exactly when the pattern occurs at some index |
| Text.ContainsLowerIff | macos/localrun_agent/cli.py:180 | testing the lower-cased text for a lower-case phrase holds exactly when some slice of the original text lower-cases to the phrase |
| Plist.TemplateDescribesAgent | macos/localrun_agent/cli.py:59-84 | the text `install` writes is the rendering of the descriptor with label `com.localrun.agent`, arguments `[bin, serve, --port, 47777]`, run at load, keep alive, both output streams to the log file and the home directory as working directory |
| Plist.TemplateDeterminesProgram | macos/localrun_agent/cli.py:67 | for a fixed log file and home, two different executable paths never produce the same text |
| Launchctl.Classify | macos/localrun_agent/cli.py:146-156 | exit 0 is success; a non-zero exit is benign exactly when the diagnostic contains the phrase ignoring case, and a failure exactly when it does not |
| Launchctl.ClassifyIgnoresCase | macos/localrun_agent/cli.py:152 | diagnostics that differ only in letter case are classified alike |
| Launchctl.PhraseAnywhereIsBenign | macos/localrun_agent/cli.py:180 | a non-zero exit whose diagnostic holds the phrase anywhere, in any case, is benign |
| Config.RunningView | macos/localrun_agent/cli.py:225-229 | a running service shows the record's port, pid and version, defaulting to 47777, `N/A` and `N/A` |
| Config.RunningViewReadsThreeKeys | macos/localrun_agent/cli.py:227-229 | records that agree on port, pid and version show the same, whatever other keys they hold |
| Lifecycle.ExitCode | macos/localrun_agent/cli.py:156-160 | every command exits with 0 or 1, and a `restart` cut short exits as its `stop` did |
| Lifecycle.Install | macos/localrun_agent/cli.py:45-99 | the config directory is created first; success exactly when no step fails and `which` succeeds, and then the descriptor holds the template for the stripped `which` output; on a failure the new state is exactly what the steps before it did (nothing after a failing config-directory `mkdir`; the config directory after a failed `which` or a failing LaunchAgents `mkdir`; both directories after a failing write), the reason is the failing `mkdir` of the config directory, else "executable not found" when `which` fails, else the failing LaunchAgents `mkdir` or write, and the config record is never changed |
| Lifecycle.Uninstall | macos/localrun_agent/cli.py:102-128 | `launchctl unload` runs exactly when the descriptor exists; success exactly when unload could be started and no needed unlink fails, and then both files are gone and the report says which were removed; on a failure nothing is removed when `launchctl` cannot be started or the descriptor's unlink fails, and only the descriptor is removed when the config record's unlink fails |
| Lifecycle.Start | macos/localrun_agent/cli.py:131-160 | without a descriptor nothing runs and the report is "not installed"; otherwise `launchctl load` runs once, a load that cannot be started is a crash, and a finished one is reported as started on exit 0, as already running when the diagnostic says "already loaded" in any case, and otherwise as a failure echoing the raw diagnostic; the exit is 0 exactly for started and already running; the state never changes |
| Lifecycle.Stop | macos/localrun_agent/cli.py:163-188 | the same for `launchctl unload`: stopped on exit 0, already stopped on "not currently loaded" in any case, otherwise a failure echoing the diagnostic |
| Lifecycle.Restart | macos/localrun_agent/cli.py:191-199 | runs `stop`; a failed `stop` ends the command without any `launchctl load`; otherwise `start` follows, and the exit is 0 exactly when both halves succeed |
| Lifecycle.Status | macos/localrun_agent/cli.py:202-240 | runs only `launchctl list` and changes nothing; succeeds exactly when the listing could be run, the record parses, and a running service has no record or an object record; the service is shown running exactly when the label occurs in the listing, and then with the record's port, pid and version and their defaults (no record reads as an empty one) |
| Lifecycle.UninstallIdempotent | macos/localrun_agent/cli.py:102-128 | after a successful `uninstall`, another one runs nothing, changes nothing and reports nothing removed |
| Lifecycle.UninstallIgnoresUnloadExit | macos/localrun_agent/cli.py:108-112 | the outcome of `uninstall` does not depend on how `launchctl unload` exited |
| Lifecycle.InstallThenUninstall | macos/localrun_agent/cli.py:45-128 | `install` (successful or not) then `uninstall` leaves neither the descriptor nor the config record, when `launchctl` can be started and no unlink fails |
| Lifecycle.FailedInstallThenStart | macos/localrun_agent/cli.py:135-137 | after a failed `install` from a clean state, `start` still reports "not installed" and runs nothing |
| Lifecycle.InstallThenStart | macos/localrun_agent/cli.py:140-144 | after a successful `install`, `start` loads the descriptor path that now holds the template |
| Lifecycle.StartAlreadyLoaded | macos/localrun_agent/cli.py:150-153 | a failing load whose diagnostic says "already loaded" in any case is reported as already running with exit 0 |
| Lifecycle.StopNotLoaded | macos/localrun_agent/cli.py:179-181 | a failing unload whose diagnostic says "not currently loaded" in any case is reported as already stopped with exit 0 |
| Lifecycle.RestartWithoutDescriptor | macos/localrun_agent/cli.py:191-199 | without a descriptor `restart` exits with 1 after `stop` and runs no program |
| Lifecycle.StatusIgnoresDescriptor | macos/localrun_agent/cli.py:205-213 | what `status` reports does not depend on whether the descriptor exists |
| Lifecycle.StatusDefaults | macos/localrun_agent/cli.py:227-229 | a running service without a record shows port 47777, pid and version `N/A` |
| Lifecycle.StatusPortFromConfig | macos/localrun_agent/cli.py:227-229 | a record `{"port": 9000}` shows port 9000 and `N/A` for the rest |
| Lifecycle.StatusUnparsableConfig | macos/localrun_agent/cli.py:216-219 | a record `json.load` rejects makes `status` fail with exit 1 |
| Lifecycle.StatusNothingInstalled | macos/localrun_agent/cli.py:213-232 | with no record and the label absent from the listing, the service is shown stopped with exit 0 |
| Launchd.LoadRunSettles | macos/localrun_agent/cli.py:140-153 | under the assumed `launchctl load` behaviour, after the first load the label stays loaded and the set of labels no longer changes |
| Launchd.UnloadRunSettles | macos/localrun_agent/cli.py:171-181 | under the assumed `launchctl unload` behaviour, after the first unload the label stays unloaded and the set no longer changes |
| Launchd.StartRepeated | macos/localrun_agent/cli.py:146-153 | repeated `start`: the first starts or finds it running, every later one reports "already running" and changes nothing |
| Launchd.StopRepeated | macos/localrun_agent/cli.py:177-181 | repeated `stop`: the first stops or finds it stopped, every later one reports "already stopped" and changes nothing |
| Launchd.RestartLoaded | macos/localrun_agent/cli.py:191-199 | `restart` of a loaded service reports a real stop and a real start and leaves the loaded labels as they were |
| Launchd.RestartNotLoaded | macos/localrun_agent/cli.py:191-199 | `restart` of an unloaded service reports "already stopped", then a real start, and the label is loaded afterwards |
| Launchd.ListedLabelOccurs | macos/localrun_agent/cli.py:213 | a listing that holds the label contains it as a substring |
| Launchd.StatusSeesLoadedLabel | macos/localrun_agent/cli.py:207-213 | when the label is among the listed labels and the config record is absent or a JSON object (as the running server writes it), `status` shows the service running |
| Launchd.StatusSubstringMatch | macos/localrun_agent/cli.py:213 | a listing holding only `com.localrun.agent.helper` is also shown as running: the test is a substring test, not label equality |
| Agent.Controller.Install | macos/localrun_agent/cli.py:45-99 | the step-by-step `install` yields exactly the state, report and program calls of `Lifecycle.Install` |
| Agent.Controller.Uninstall | macos/localrun_agent/cli.py:102-128 | the same for `uninstall` |
| Agent.Controller.Start | macos/localrun_agent/cli.py:131-160 | the same for `start` |
| Agent.Controller.Stop | macos/localrun_agent/cli.py:163-188 | the same for `stop` |
| Agent.Controller.Restart | macos/localrun_agent/cli.py:191-199 | `restart` invoking the object's own `stop` and `start` yields exactly `Lifecycle.Restart` |
| Agent.Controller.Status | macos/localrun_agent/cli.py:202-240 | the same for `status` |

## Left out

- `serve` (cli.py:32-42) and the server it runs: outside the lifecycle controller.
- `logs` (cli.py:243-265): reads and follows the log file; pure I/O.
- The Node helper `serve.ts`: a separate program, not part of this model.
- Terminal output: the messages, emoji and the `click` framework are not modelled; each command's report and exit code stand for what it prints.
- JSON parsing: the config record enters the model already parsed, or as unparsable; `json.load` itself is not modelled, nor the formatting of displayed values.
- Real file-system and process I/O: `which` and `launchctl` results and any failing file operation are inputs; the model does not decide when they happen.
- The behaviour of `launchctl` and launchd: only assumed, in `Launchd.LoadBehaves` and `Launchd.UnloadBehaves`; the registry's label is taken to be the descriptor's fixed label.
- Concurrency: two commands running at once, and launchd restarting the server (`KeepAlive`), are not modelled.
- Text.Lower: lower-cases ASCII letters only; Python's full Unicode lower-casing is not modelled (the phrases compared are ASCII).
- Paths: the home directory is taken without a trailing `/`; pathlib's normalisation is not modelled.
- Lifecycle.Install: a failing write is taken to leave the descriptor as it was, although `open(..., "w")` truncates an existing file before writing; truncated or partially written files are not modelled.
- Plist: values are interpolated without XML escaping, so a path containing `&` or `<` yields text that is not well-formed XML; the model renders text and does not parse XML.
