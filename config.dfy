/** The agent's config record (`~/.localrun/agent.json`), which the running
    server writes and `status` reads for display, and the status report. */
module Config {
  import opened Paths

  /** A JSON value as `json.load` returns it. */
  datatype Json =
    | JNull
    | JBool(b: bool)
    | JInt(n: int)
    | JReal(r: real)
    | JStr(s: string)
    | JArray(items: seq<Json>)
    | JObject(fields: map<string, Json>)

  /** What reading the config file yields: text `json.load` rejects (or a
      file that cannot be opened), or a parsed JSON value. */
  datatype ConfigContent = Unparsable | Parsed(value: Json)

  /** `dict.get(key, default)`. */
  function Get(fields: map<string, Json>, key: string, default: Json): Json {
    if key in fields then fields[key] else default
  }

  /** The placeholder shown for a missing pid or version. */
  const NotAvailable: Json := JStr("N/A")

  /** What `status` shows: the service is stopped, or it runs and the
      config record supplies port, pid and version for display. */
  datatype StatusView =
    | NotRunning
    | Running(port: Json, pid: Json, version: Json)

  /** The running view of a config object, with the display defaults:
      port 47777, and `N/A` for pid and version. */
  function RunningView(fields: map<string, Json>): (v: StatusView)
    ensures v.Running?
    ensures v.port == (if "port" in fields then fields["port"] else JInt(DefaultPort))
    ensures v.pid == (if "pid" in fields then fields["pid"] else NotAvailable)
    ensures v.version == (if "version" in fields then fields["version"] else NotAvailable)
  {
    Running(Get(fields, "port", JInt(DefaultPort)), Get(fields, "pid", NotAvailable),
            Get(fields, "version", NotAvailable))
  }

  /** Display reads only the three keys: other keys (such as `started_at`,
      which the server also writes) never change what is shown. */
  lemma RunningViewReadsThreeKeys(f1: map<string, Json>, f2: map<string, Json>)
    requires forall k :: k in {"port", "pid", "version"} ==> (k in f1 <==> k in f2)
    requires forall k :: k in {"port", "pid", "version"} && k in f1 ==> f1[k] == f2[k]
    ensures RunningView(f1) == RunningView(f2)
  {
    assert "port" in {"port", "pid", "version"};
    assert "pid" in {"port", "pid", "version"};
    assert "version" in {"port", "pid", "version"};
  }
}
