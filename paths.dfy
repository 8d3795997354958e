/** The fixed names and per-user locations the agent works with
    (`CONFIG_DIR`, `CONFIG_FILE`, `PLIST_PATH`, `LOG_FILE` in cli.py).
    The home directory is a parameter: a path without a trailing `/`. */
module Paths {

  /** The launchd label, which is also the descriptor's file name stem. */
  const Label: string := "com.localrun.agent"

  /** The port the descriptor passes to `serve` and `status` shows by default. */
  const DefaultPort: int := 47777

  /** The executable that `install` looks up with `which`. */
  const Executable: string := "localrun-agent"

  /** pathlib's `/` on a directory without a trailing separator. */
  function Join(dir: string, name: string): string {
    dir + "/" + name
  }

  function ConfigDir(home: string): string {
    Join(home, ".localrun")
  }

  function ConfigFile(home: string): string {
    Join(ConfigDir(home), "agent.json")
  }

  function LaunchAgentsDir(home: string): string {
    Join(Join(home, "Library"), "LaunchAgents")
  }

  function PlistPath(home: string): string {
    Join(LaunchAgentsDir(home), Label + ".plist")
  }

  function LogFile(home: string): string {
    Join(Join(Join(home, "Library"), "Logs"), "localrun-agent.log")
  }

  /** `p` is a path strictly below `home`. */
  predicate Below(home: string, p: string) {
    |p| > |home| + 1 && p[..|home| + 1] == home + "/"
  }

  lemma BelowJoin(home: string, dir: string, name: string)
    requires dir == home || Below(home, dir)
    requires name != []
    ensures Below(home, Join(dir, name))
  {
    var p := Join(dir, name);
    assert p[..|dir|] == dir;
    assert p[|dir|] == '/';
    assert p[..|home| + 1] == home + "/";
  }

  /** The config directory, the descriptor, the config record and the log
      are four different paths under every home directory, and all of them
      lie below it. */
  lemma PathsDistinct(home: string)
    ensures ConfigDir(home) != PlistPath(home)
    ensures ConfigDir(home) != ConfigFile(home)
    ensures ConfigDir(home) != LogFile(home)
    ensures PlistPath(home) != ConfigFile(home)
    ensures PlistPath(home) != LogFile(home)
    ensures ConfigFile(home) != LogFile(home)
    ensures Below(home, ConfigDir(home))
    ensures Below(home, PlistPath(home)) && Below(home, ConfigFile(home)) && Below(home, LogFile(home))
  {
    assert |ConfigDir(home)| == |home| + 10;
    assert |PlistPath(home)| == |home| + 46;
    assert |ConfigFile(home)| == |home| + 21;
    assert |LogFile(home)| == |home| + 32;
    BelowJoin(home, home, "Library");
    BelowJoin(home, Join(home, "Library"), "LaunchAgents");
    BelowJoin(home, LaunchAgentsDir(home), Label + ".plist");
    BelowJoin(home, home, ".localrun");
    BelowJoin(home, ConfigDir(home), "agent.json");
    BelowJoin(home, Join(home, "Library"), "Logs");
    BelowJoin(home, Join(Join(home, "Library"), "Logs"), "localrun-agent.log");
  }
}
