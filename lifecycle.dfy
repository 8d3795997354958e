/** The lifecycle commands of cli.py (`install`, `uninstall`, `start`,
    `stop`, `restart`, `status`) as functions from the host state before
    the command, and the results of the external programs it runs, to the
    state after it, what it reports and which programs it ran. */
module Lifecycle {
  import opened Optional
  import opened Text
  import opened Paths
  import opened Plist
  import opened Launchctl
  import opened Config

  /** The part of the user's file system the controller looks at. */
  datatype Host = Host(
    plist: Option<string>,            // ~/Library/LaunchAgents/com.localrun.agent.plist, its text
    launchAgentsDir: bool,            // ~/Library/LaunchAgents exists
    configDir: bool,                  // ~/.localrun exists
    config: Option<ConfigContent>)    // ~/.localrun/agent.json, as json.load reads it

  /** The file-system operations that can raise an OSError. */
  datatype FsStep = MakeConfigDir | MakeLaunchAgentsDir | WritePlist | UnlinkPlist | UnlinkConfig

  /** Which operation, if any, raises when the command reaches it. */
  datatype Fault = NoFault | FailAt(step: FsStep)

  datatype InstallError = ExecutableNotFound | FsError(step: FsStep)

  /** What a command tells the user. */
  datatype Report =
    | Installed(program: string)
    | InstallFailed(reason: InstallError)
    | Uninstalled(removedPlist: bool, removedConfig: bool)
    | UninstallFailed
    | NotInstalled
    | Started
    | AlreadyRunning
    | StartFailed(stderr: string)
    | Stopped
    | AlreadyStopped
    | StopFailed(stderr: string)
    | Shown(view: StatusView)
    | Crashed                                          // an exception caught by `except Exception`
    | Restarted(stop: Report, start: Option<Report>)   // `start` is absent when `stop` exited

  /** The process exit code: 1 for every reported error, 0 otherwise. */
  function ExitCode(r: Report): (code: int)
    ensures code == 0 || code == 1
    ensures r.Restarted? && r.start.None? ==> code == ExitCode(r.stop)
  {
    match r
    case Installed(_) => 0
    case Uninstalled(_, _) => 0
    case Started => 0
    case AlreadyRunning => 0
    case Stopped => 0
    case AlreadyStopped => 0
    case Shown(_) => 0
    case Restarted(s, t) => if t.Some? then ExitCode(t.value) else ExitCode(s)
    case _ => 1
  }

  /** One command run: the state after it, its report, and the command
      lines of the external programs it started, in order. */
  datatype Outcome = Outcome(after: Host, report: Report, calls: seq<seq<string>>)

  /** `install`: create the config directory, resolve the executable with
      `which`, create the LaunchAgents directory, write the descriptor. */
  function Install(home: string, h: Host, which: ProcResult, fault: Fault): (o: Outcome)
    ensures o.after.config == h.config
    ensures o.calls == if fault == FailAt(MakeConfigDir) then [] else [WhichArgv()]
    ensures fault != FailAt(MakeConfigDir) ==> o.after.configDir
    ensures o.report.Installed? <==>
              && fault !in {FailAt(MakeConfigDir), FailAt(MakeLaunchAgentsDir), FailAt(WritePlist)}
              && which.Completed? && which.returncode == 0
    ensures o.report.Installed? ==>
              && o.report.program == Strip(which.stdout)
              && o.after == Host(Some(Template(o.report.program, LogFile(home), home)), true, true, h.config)
    ensures !o.report.Installed? ==> o.report.InstallFailed? && o.after.plist == h.plist
    ensures fault != FailAt(MakeConfigDir) && !(which.Completed? && which.returncode == 0) ==>
              o.report == InstallFailed(ExecutableNotFound) && o.after == h.(configDir := true)
    ensures !o.report.Installed? ==>
              o.after == if fault == FailAt(MakeConfigDir) then h
                         else if !(which.Completed? && which.returncode == 0) || fault == FailAt(MakeLaunchAgentsDir)
                         then h.(configDir := true)
                         else h.(configDir := true, launchAgentsDir := true)
    ensures !o.report.Installed? ==>
              o.report == InstallFailed(if fault == FailAt(MakeConfigDir) then FsError(MakeConfigDir)
                                        else if !(which.Completed? && which.returncode == 0) then ExecutableNotFound
                                        else FsError(fault.step))
  {
    if fault == FailAt(MakeConfigDir) then
      Outcome(h, InstallFailed(FsError(MakeConfigDir)), [])
    else
      var h1 := h.(configDir := true);
      var calls := [WhichArgv()];
      if !which.Completed? || which.returncode != 0 then
        Outcome(h1, InstallFailed(ExecutableNotFound), calls)
      else
        var bin := Strip(which.stdout);
        if fault == FailAt(MakeLaunchAgentsDir) then
          Outcome(h1, InstallFailed(FsError(MakeLaunchAgentsDir)), calls)
        else
          var h2 := h1.(launchAgentsDir := true);
          if fault == FailAt(WritePlist) then
            Outcome(h2, InstallFailed(FsError(WritePlist)), calls)
          else
            Outcome(h2.(plist := Some(Template(bin, LogFile(home), home))), Installed(bin), calls)
  }

  /** `uninstall`: if the descriptor exists, `launchctl unload` it (its exit
      code is ignored), then remove the descriptor and the config record,
      each only when present. */
  function Uninstall(home: string, h: Host, unload: ProcResult, fault: Fault): (o: Outcome)
    ensures o.after.launchAgentsDir == h.launchAgentsDir && o.after.configDir == h.configDir
    ensures o.calls == if h.plist.Some? then [UnloadArgv(home)] else []
    ensures ExitCode(o.report) == 0 <==>
              && (h.plist.Some? ==> unload.Completed? && fault != FailAt(UnlinkPlist))
              && (h.config.Some? ==> fault != FailAt(UnlinkConfig))
    ensures ExitCode(o.report) == 0 ==>
              && o.report == Uninstalled(h.plist.Some?, h.config.Some?)
              && o.after.plist.None? && o.after.config.None?
    ensures ExitCode(o.report) != 0 ==> o.report == UninstallFailed
    ensures ExitCode(o.report) != 0 ==>
              o.after == if h.plist.Some? && (unload.NotLaunched? || fault == FailAt(UnlinkPlist)) then h
                         else h.(plist := None)
  {
    var calls := if h.plist.Some? then [UnloadArgv(home)] else [];
    if h.plist.Some? && unload.NotLaunched? then
      Outcome(h, UninstallFailed, calls)
    else if h.plist.Some? && fault == FailAt(UnlinkPlist) then
      Outcome(h, UninstallFailed, calls)
    else
      var h1 := h.(plist := None);
      if h.config.Some? && fault == FailAt(UnlinkConfig) then
        Outcome(h1, UninstallFailed, calls)
      else
        Outcome(h1.(config := None), Uninstalled(h.plist.Some?, h.config.Some?), calls)
  }

  /** `start`: refuse when the descriptor is missing, otherwise
      `launchctl load` it and classify the result. */
  function Start(home: string, h: Host, load: ProcResult): (o: Outcome)
    ensures o.after == h
    ensures h.plist.None? ==> o.report == NotInstalled && o.calls == []
    ensures h.plist.Some? ==> o.calls == [LoadArgv(home)]
    ensures ExitCode(o.report) == 0 <==>
              h.plist.Some? && load.Completed?
              && (load.returncode == 0 || exists i :: OccursIgnoringCase(load.stderr, AlreadyLoaded, i))
    ensures o.report.Started? ==> load.Completed? && load.returncode == 0
    ensures o.report.StartFailed? ==> load.Completed? && load.returncode != 0 && o.report.stderr == load.stderr
    ensures o.report in {NotInstalled, Started, AlreadyRunning, Crashed} || o.report.StartFailed?
    ensures h.plist.Some? && load.NotLaunched? ==> o.report == Crashed
    ensures h.plist.Some? && load.Completed? ==>
              o.report == if load.returncode == 0 then Started
                          else if exists i :: OccursIgnoringCase(load.stderr, AlreadyLoaded, i) then AlreadyRunning
                          else StartFailed(load.stderr)
  {
    if h.plist.None? then
      Outcome(h, NotInstalled, [])
    else
      var calls := [LoadArgv(home)];
      match load
      case NotLaunched => Outcome(h, Crashed, calls)
      case Completed(code, _, err) =>
        match Classify(code, err, AlreadyLoaded)
        case Success => Outcome(h, Started, calls)
        case Benign => Outcome(h, AlreadyRunning, calls)
        case Failure => Outcome(h, StartFailed(err), calls)
  }

  /** `stop`: refuse when the descriptor is missing, otherwise
      `launchctl unload` it and classify the result. */
  function Stop(home: string, h: Host, unload: ProcResult): (o: Outcome)
    ensures o.after == h
    ensures h.plist.None? ==> o.report == NotInstalled && o.calls == []
    ensures h.plist.Some? ==> o.calls == [UnloadArgv(home)]
    ensures ExitCode(o.report) == 0 <==>
              h.plist.Some? && unload.Completed?
              && (unload.returncode == 0 || exists i :: OccursIgnoringCase(unload.stderr, NotLoaded, i))
    ensures o.report.Stopped? ==> unload.Completed? && unload.returncode == 0
    ensures o.report.StopFailed? ==> unload.Completed? && unload.returncode != 0 && o.report.stderr == unload.stderr
    ensures o.report in {NotInstalled, Stopped, AlreadyStopped, Crashed} || o.report.StopFailed?
    ensures h.plist.Some? && unload.NotLaunched? ==> o.report == Crashed
    ensures h.plist.Some? && unload.Completed? ==>
              o.report == if unload.returncode == 0 then Stopped
                          else if exists i :: OccursIgnoringCase(unload.stderr, NotLoaded, i) then AlreadyStopped
                          else StopFailed(unload.stderr)
  {
    if h.plist.None? then
      Outcome(h, NotInstalled, [])
    else
      var calls := [UnloadArgv(home)];
      match unload
      case NotLaunched => Outcome(h, Crashed, calls)
      case Completed(code, _, err) =>
        match Classify(code, err, NotLoaded)
        case Success => Outcome(h, Stopped, calls)
        case Benign => Outcome(h, AlreadyStopped, calls)
        case Failure => Outcome(h, StopFailed(err), calls)
  }

  /** `restart`: `stop`, then `start` unless `stop` exited with code 1
      (its `sys.exit` ends the whole command). */
  function Restart(home: string, h: Host, unload: ProcResult, load: ProcResult): (o: Outcome)
    ensures o.after == h
    ensures o.report.Restarted? && o.report.stop == Stop(home, h, unload).report
    ensures ExitCode(o.report) == 0 <==>
              ExitCode(Stop(home, h, unload).report) == 0 && ExitCode(Start(home, h, load).report) == 0
    ensures ExitCode(Stop(home, h, unload).report) != 0 ==>
              o.report.start.None? && o.calls == Stop(home, h, unload).calls && LoadArgv(home) !in o.calls
    ensures ExitCode(Stop(home, h, unload).report) == 0 ==>
              o.report.start == Some(Start(home, h, load).report)
              && o.calls == [UnloadArgv(home), LoadArgv(home)]
  {
    var s := Stop(home, h, unload);
    if ExitCode(s.report) != 0 then
      Outcome(s.after, Restarted(s.report, None), s.calls)
    else
      var t := Start(home, s.after, load);
      Outcome(t.after, Restarted(s.report, Some(t.report)), s.calls + t.calls)
  }

  /** `status`: the service runs when the label occurs in the output of
      `launchctl list`; the config record supplies the displayed values. */
  function Status(home: string, h: Host, list: ProcResult): (o: Outcome)
    ensures o.after == h && o.calls == [ListArgv()]
    ensures ExitCode(o.report) == 0 <==>
              && list.Completed?
              && h.config != Some(Unparsable)
              && (Contains(list.stdout, Label) ==> h.config.None? || h.config.value.value.JObject?)
    ensures o.report.Shown? ==> (o.report.view.Running? <==> exists i :: OccursAt(list.stdout, Label, i))
    ensures !o.report.Shown? ==> o.report == Crashed
    ensures o.report.Shown? && o.report.view.Running? ==>
              o.report.view == RunningView(if h.config.None? then map[] else h.config.value.value.fields)
  {
    match list
    case NotLaunched => Outcome(h, Crashed, [ListArgv()])
    case Completed(_, out, _) =>
      var running := Contains(out, Label);
      if h.config == Some(Unparsable) then
        Outcome(h, Crashed, [ListArgv()])
      else
        var cfg := if h.config.None? then JObject(map[]) else h.config.value.value;
        if !running then
          Outcome(h, Shown(NotRunning), [ListArgv()])
        else if cfg.JObject? then
          Outcome(h, Shown(RunningView(cfg.fields)), [ListArgv()])
        else
          Outcome(h, Crashed, [ListArgv()])
  }

  // ---- Properties of the commands -------------------------------------

  /** After an `uninstall` that succeeded, another one finds nothing to do:
      it runs no program, changes nothing and succeeds, whatever `launchctl`
      or the file system would have done. */
  lemma UninstallIdempotent(home: string, h: Host, u1: ProcResult, f1: Fault, u2: ProcResult, f2: Fault)
    requires ExitCode(Uninstall(home, h, u1, f1).report) == 0
    ensures var o1 := Uninstall(home, h, u1, f1);
            var o2 := Uninstall(home, o1.after, u2, f2);
            o2.after == o1.after && o2.report == Uninstalled(false, false) && o2.calls == []
  {
  }

  /** `uninstall` ignores how `launchctl unload` exited (`check=False`):
      only whether it could be started matters. */
  lemma UninstallIgnoresUnloadExit(home: string, h: Host, r1: ProcResult, r2: ProcResult, fault: Fault)
    requires r1.Completed? && r2.Completed?
    ensures Uninstall(home, h, r1, fault) == Uninstall(home, h, r2, fault)
  {
  }

  /** `install` followed by `uninstall` leaves neither the descriptor nor the
      config record, from any starting state and whether or not `install`
      succeeded. */
  lemma InstallThenUninstall(home: string, h: Host, which: ProcResult, fault: Fault, unload: ProcResult)
    requires unload.Completed?
    ensures var o := Uninstall(home, Install(home, h, which, fault).after, unload, NoFault);
            o.after.plist.None? && o.after.config.None? && ExitCode(o.report) == 0
  {
  }

  /** When there is no descriptor, a failed `install` leaves it missing, so a
      following `start` still exits with 1 and runs no `launchctl`. */
  lemma FailedInstallThenStart(home: string, h: Host, which: ProcResult, fault: Fault, load: ProcResult)
    requires h.plist.None?
    requires !Install(home, h, which, fault).report.Installed?
    ensures var o := Start(home, Install(home, h, which, fault).after, load);
            o.report == NotInstalled && ExitCode(o.report) == 1 && o.calls == []
  {
  }

  /** A successful `install` makes `start` issue `launchctl load` on the
      descriptor it wrote. */
  lemma InstallThenStart(home: string, h: Host, which: ProcResult, load: ProcResult)
    requires which.Completed? && which.returncode == 0
    ensures var i := Install(home, h, which, NoFault);
            i.report == Installed(Strip(which.stdout))
            && i.after.plist == Some(Template(Strip(which.stdout), LogFile(home), home))
            && Start(home, i.after, load).calls == [LoadArgv(home)]
  {
  }

  /** `launchctl load` failing with a diagnostic that says the service is
      already loaded, in any capitalisation, is reported as "already
      running" and exits with 0. */
  lemma StartAlreadyLoaded(home: string, h: Host, code: int, out: string, before: string, shown: string, after: string)
    requires h.plist.Some? && code != 0
    requires Lower(shown) == AlreadyLoaded
    ensures var o := Start(home, h, Completed(code, out, before + shown + after));
            o.report == AlreadyRunning && ExitCode(o.report) == 0 && o.after == h
  {
    PhraseAnywhereIsBenign(code, before, shown, after, AlreadyLoaded);
  }

  /** The symmetric case for `stop`: "not currently loaded" is "already stopped". */
  lemma StopNotLoaded(home: string, h: Host, code: int, out: string, before: string, shown: string, after: string)
    requires h.plist.Some? && code != 0
    requires Lower(shown) == NotLoaded
    ensures var o := Stop(home, h, Completed(code, out, before + shown + after));
            o.report == AlreadyStopped && ExitCode(o.report) == 0 && o.after == h
  {
    PhraseAnywhereIsBenign(code, before, shown, after, NotLoaded);
  }

  /** Without a descriptor `restart` stops at `stop`: it exits with 1 and
      runs no program at all. */
  lemma RestartWithoutDescriptor(home: string, h: Host, unload: ProcResult, load: ProcResult)
    requires h.plist.None?
    ensures var o := Restart(home, h, unload, load);
            o.report == Restarted(NotInstalled, None) && ExitCode(o.report) == 1 && o.calls == []
  {
  }

  /** `status` does not look at the descriptor: being registered is decided
      by the `launchctl list` output alone, installed or not. */
  lemma StatusIgnoresDescriptor(home: string, h: Host, plist: Option<string>, list: ProcResult)
    ensures Status(home, h, list).report == Status(home, h.(plist := plist), list).report
  {
  }

  /** A running service without a config record shows the defaults: port
      47777, pid and version `N/A`. */
  lemma StatusDefaults(home: string, h: Host, list: ProcResult)
    requires h.config.None? && list.Completed? && Contains(list.stdout, Label)
    ensures Status(home, h, list).report == Shown(Running(JInt(47777), JStr("N/A"), JStr("N/A")))
  {
  }

  /** A record `{"port": 9000}` of a running service shows port 9000 and
      `N/A` for pid and version. */
  lemma StatusPortFromConfig(home: string, h: Host, list: ProcResult)
    requires h.config == Some(Parsed(JObject(map["port" := JInt(9000)])))
    requires list.Completed? && Contains(list.stdout, Label)
    ensures Status(home, h, list).report == Shown(Running(JInt(9000), JStr("N/A"), JStr("N/A")))
  {
  }

  /** A config file `json.load` rejects makes `status` fail (exit 1), even
      when the service is not running. */
  lemma StatusUnparsableConfig(home: string, h: Host, list: ProcResult)
    requires h.config == Some(Unparsable)
    ensures Status(home, h, list).report == Crashed && ExitCode(Status(home, h, list).report) == 1
  {
  }

  /** With nothing installed and the label absent from the listing,
      `status` reports the service stopped and exits with 0. */
  lemma StatusNothingInstalled(home: string, launchAgentsDir: bool, configDir: bool, list: ProcResult)
    requires list.Completed? && !Contains(list.stdout, Label)
    ensures var o := Status(home, Host(None, launchAgentsDir, configDir, None), list);
            o.report == Shown(NotRunning) && ExitCode(o.report) == 0
  {
  }
}
