/** The external programs the controller runs (`which`, `launchctl`) and
    how it reads their results. Their behaviour is not modelled here: each
    command receives the result as an input. */
module Launchctl {
  import opened Text
  import opened Paths

  /** What `subprocess.run`/`check_output` hands back: the process ran and
      exited with a code and its captured output, or it could not be started
      at all (the program is missing), which raises an exception. */
  datatype ProcResult =
    | Completed(returncode: int, stdout: string, stderr: string)
    | NotLaunched

  /** The command lines the controller issues. */
  function WhichArgv(): seq<string> { ["which", Executable] }
  function LoadArgv(home: string): seq<string> { ["launchctl", "load", PlistPath(home)] }
  function UnloadArgv(home: string): seq<string> { ["launchctl", "unload", PlistPath(home)] }
  function ListArgv(): seq<string> { ["launchctl", "list"] }

  /** The diagnostic phrases that mark a repeated `load` or `unload`. */
  const AlreadyLoaded: string := "already loaded"
  const NotLoaded: string := "not currently loaded"

  /** How `start` and `stop` read a finished `launchctl` run. */
  datatype Verdict = Success | Benign | Failure

  /** Exit code 0 is success; otherwise the run is a benign repetition when
      the lower-cased diagnostic contains `phrase`, and a failure if not. */
  function Classify(returncode: int, stderr: string, phrase: string): (v: Verdict)
    ensures v == Success <==> returncode == 0
    ensures v == Benign <==> returncode != 0 && exists i :: OccursIgnoringCase(stderr, phrase, i)
    ensures v == Failure <==> returncode != 0 && forall i :: !OccursIgnoringCase(stderr, phrase, i)
  {
    ContainsLowerIff(stderr, phrase);
    if returncode == 0 then Success
    else if Contains(Lower(stderr), phrase) then Benign
    else Failure
  }

  /** Only the exit code and the diagnostic matter, and the diagnostic only
      up to the case of its letters. */
  lemma ClassifyIgnoresCase(returncode: int, e1: string, e2: string, phrase: string)
    requires Lower(e1) == Lower(e2)
    ensures Classify(returncode, e1, phrase) == Classify(returncode, e2, phrase)
  {
    ContainsLowerIff(e1, phrase);
    ContainsLowerIff(e2, phrase);
  }

  /** A non-zero exit whose diagnostic carries the phrase, in any mix of
      cases and anywhere in the text, is benign. */
  lemma PhraseAnywhereIsBenign(returncode: int, before: string, shown: string, after: string, phrase: string)
    requires returncode != 0
    requires Lower(shown) == phrase
    ensures Classify(returncode, before + shown + after, phrase) == Benign
  {
    var e := before + shown + after;
    assert e[|before|..|before| + |shown|] == shown;
    assert OccursIgnoringCase(e, phrase, |before|);
  }
}
