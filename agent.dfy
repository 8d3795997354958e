/** The controller as the command line runs it: an object holding the
    files it manages, whose commands change them step by step in the order
    cli.py does. Each command is specified by the function of the same
    name in Lifecycle. */
module Agent {
  import opened Optional
  import opened Text
  import opened Paths
  import opened Plist
  import opened Launchctl
  import opened Config
  import opened Lifecycle

  class Controller {
    const home: string
    var plist: Option<string>
    var launchAgentsDir: bool
    var configDir: bool
    var config: Option<ConfigContent>
    /** The command lines of the external programs run so far. */
    var issued: seq<seq<string>>

    function Snapshot(): Host
      reads this
    {
      Host(plist, launchAgentsDir, configDir, config)
    }

    constructor (home: string, initial: Host)
      ensures this.home == home && Snapshot() == initial && issued == []
    {
      this.home := home;
      plist := initial.plist;
      launchAgentsDir := initial.launchAgentsDir;
      configDir := initial.configDir;
      config := initial.config;
      issued := [];
    }

    method Install(which: ProcResult, fault: Fault) returns (report: Report)
      modifies this
      ensures var o := Lifecycle.Install(home, old(Snapshot()), which, fault);
              Snapshot() == o.after && report == o.report && issued == old(issued) + o.calls
    {
      if fault == FailAt(MakeConfigDir) {
        return InstallFailed(FsError(MakeConfigDir));
      }
      configDir := true;
      issued := issued + [WhichArgv()];
      if !which.Completed? || which.returncode != 0 {
        return InstallFailed(ExecutableNotFound);
      }
      var bin := Strip(which.stdout);
      var content := Template(bin, LogFile(home), home);
      if fault == FailAt(MakeLaunchAgentsDir) {
        return InstallFailed(FsError(MakeLaunchAgentsDir));
      }
      launchAgentsDir := true;
      if fault == FailAt(WritePlist) {
        return InstallFailed(FsError(WritePlist));
      }
      plist := Some(content);
      report := Installed(bin);
    }

    method Uninstall(unload: ProcResult, fault: Fault) returns (report: Report)
      modifies this
      ensures var o := Lifecycle.Uninstall(home, old(Snapshot()), unload, fault);
              Snapshot() == o.after && report == o.report && issued == old(issued) + o.calls
    {
      if plist.Some? {
        issued := issued + [UnloadArgv(home)];
        if unload.NotLaunched? {
          return UninstallFailed;
        }
      }
      var removedPlist := false;
      if plist.Some? {
        if fault == FailAt(UnlinkPlist) {
          return UninstallFailed;
        }
        plist := None;
        removedPlist := true;
      }
      var removedConfig := false;
      if config.Some? {
        if fault == FailAt(UnlinkConfig) {
          return UninstallFailed;
        }
        config := None;
        removedConfig := true;
      }
      report := Uninstalled(removedPlist, removedConfig);
    }

    method Start(load: ProcResult) returns (report: Report)
      modifies this
      ensures var o := Lifecycle.Start(home, old(Snapshot()), load);
              Snapshot() == o.after && report == o.report && issued == old(issued) + o.calls
    {
      if plist.None? {
        return NotInstalled;
      }
      issued := issued + [LoadArgv(home)];
      if load.NotLaunched? {
        return Crashed;
      }
      if load.returncode == 0 {
        report := Started;
      } else if Contains(Lower(load.stderr), AlreadyLoaded) {
        report := AlreadyRunning;
      } else {
        report := StartFailed(load.stderr);
      }
    }

    method Stop(unload: ProcResult) returns (report: Report)
      modifies this
      ensures var o := Lifecycle.Stop(home, old(Snapshot()), unload);
              Snapshot() == o.after && report == o.report && issued == old(issued) + o.calls
    {
      if plist.None? {
        return NotInstalled;
      }
      issued := issued + [UnloadArgv(home)];
      if unload.NotLaunched? {
        return Crashed;
      }
      if unload.returncode == 0 {
        report := Stopped;
      } else if Contains(Lower(unload.stderr), NotLoaded) {
        report := AlreadyStopped;
      } else {
        report := StopFailed(unload.stderr);
      }
    }

    method Restart(unload: ProcResult, load: ProcResult) returns (report: Report)
      modifies this
      ensures var o := Lifecycle.Restart(home, old(Snapshot()), unload, load);
              Snapshot() == o.after && report == o.report && issued == old(issued) + o.calls
    {
      var stopped := Stop(unload);
      if ExitCode(stopped) != 0 {
        return Restarted(stopped, None);
      }
      var started := Start(load);
      report := Restarted(stopped, Some(started));
    }

    method Status(list: ProcResult) returns (report: Report)
      modifies this
      ensures var o := Lifecycle.Status(home, old(Snapshot()), list);
              Snapshot() == o.after && report == o.report && issued == old(issued) + o.calls
    {
      issued := issued + [ListArgv()];
      if list.NotLaunched? {
        return Crashed;
      }
      var running := Contains(list.stdout, Label);
      var fields: map<string, Json> := map[];
      if config.Some? {
        match config.value
        case Unparsable =>
          return Crashed;
        case Parsed(v) =>
          if !running {
            return Shown(NotRunning);
          }
          if !v.JObject? {
            return Crashed;
          }
          fields := v.fields;
      }
      if !running {
        return Shown(NotRunning);
      }
      report := Shown(Running(Get(fields, "port", JInt(DefaultPort)), Get(fields, "pid", NotAvailable),
                              Get(fields, "version", NotAvailable)));
    }
  }
}
