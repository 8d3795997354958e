/** What the controller's idempotence rests on but does not define: how
    `launchctl` answers. The predicates below are ASSUMPTIONS about the
    service manager, stated over the set of loaded labels before and after
    one `launchctl` run; every lemma that uses them says so in its
    `requires`. */
module Launchd {
  import opened Optional
  import opened Text
  import opened Paths
  import opened Launchctl
  import opened Config
  import opened Lifecycle

  /** Assumed: loading the agent's descriptor adds its label and exits with
      0, unless the label is already loaded, in which case nothing changes
      and the run fails with a diagnostic saying "already loaded". */
  predicate LoadBehaves(before: set<string>, reply: ProcResult, after: set<string>) {
    && reply.Completed?
    && if Label in before then
         after == before && reply.returncode != 0 && Contains(Lower(reply.stderr), AlreadyLoaded)
       else
         after == before + {Label} && reply.returncode == 0
  }

  /** Assumed: unloading removes the label and exits with 0, unless it is
      not loaded, in which case nothing changes and the run fails with a
      diagnostic saying "not currently loaded". */
  predicate UnloadBehaves(before: set<string>, reply: ProcResult, after: set<string>) {
    && reply.Completed?
    && if Label in before then
         after == before - {Label} && reply.returncode == 0
       else
         after == before && reply.returncode != 0 && Contains(Lower(reply.stderr), NotLoaded)
  }

  /** `regs` are the loaded labels before and after each of the `replies`
      of successive `launchctl load` runs. */
  predicate LoadRun(regs: seq<set<string>>, replies: seq<ProcResult>) {
    |regs| == |replies| + 1 && forall i :: 0 <= i < |replies| ==> LoadBehaves(regs[i], replies[i], regs[i + 1])
  }

  predicate UnloadRun(regs: seq<set<string>>, replies: seq<ProcResult>) {
    |regs| == |replies| + 1 && forall i :: 0 <= i < |replies| ==> UnloadBehaves(regs[i], replies[i], regs[i + 1])
  }

  /** Once a load has run, the label stays loaded and nothing changes. */
  lemma {:induction false} LoadRunSettles(regs: seq<set<string>>, replies: seq<ProcResult>, k: nat)
    requires LoadRun(regs, replies)
    requires 1 <= k <= |replies|
    ensures Label in regs[k] && regs[k] == regs[1]
  {
    if k > 1 {
      LoadRunSettles(regs, replies, k - 1);
      assert LoadBehaves(regs[k - 1], replies[k - 1], regs[k]);
    } else {
      assert LoadBehaves(regs[0], replies[0], regs[1]);
    }
  }

  lemma {:induction false} UnloadRunSettles(regs: seq<set<string>>, replies: seq<ProcResult>, k: nat)
    requires UnloadRun(regs, replies)
    requires 1 <= k <= |replies|
    ensures Label !in regs[k] && regs[k] == regs[1]
  {
    if k > 1 {
      UnloadRunSettles(regs, replies, k - 1);
      assert UnloadBehaves(regs[k - 1], replies[k - 1], regs[k]);
    } else {
      assert UnloadBehaves(regs[0], replies[0], regs[1]);
    }
  }

  /** Repeated `start` with no `stop` in between: the first one starts the
      service or finds it running, every later one reports "already
      running", exits with 0 and leaves the loaded labels as they are. */
  lemma StartRepeated(home: string, h: Host, regs: seq<set<string>>, replies: seq<ProcResult>)
    requires h.plist.Some?
    requires LoadRun(regs, replies)
    ensures |replies| > 0 ==> Start(home, h, replies[0]).report in {Started, AlreadyRunning}
    ensures forall k :: 1 <= k < |replies| ==>
              Start(home, h, replies[k]).report == AlreadyRunning && regs[k + 1] == regs[k]
  {
    if |replies| > 0 {
      assert LoadBehaves(regs[0], replies[0], regs[1]);
    }
    forall k | 1 <= k < |replies|
      ensures Start(home, h, replies[k]).report == AlreadyRunning && regs[k + 1] == regs[k]
    {
      LoadRunSettles(regs, replies, k);
      assert LoadBehaves(regs[k], replies[k], regs[k + 1]);
      ContainsLowerIff(replies[k].stderr, AlreadyLoaded);
    }
  }

  /** Repeated `stop` with no `start` in between, symmetrically. */
  lemma StopRepeated(home: string, h: Host, regs: seq<set<string>>, replies: seq<ProcResult>)
    requires h.plist.Some?
    requires UnloadRun(regs, replies)
    ensures |replies| > 0 ==> Stop(home, h, replies[0]).report in {Stopped, AlreadyStopped}
    ensures forall k :: 1 <= k < |replies| ==>
              Stop(home, h, replies[k]).report == AlreadyStopped && regs[k + 1] == regs[k]
  {
    if |replies| > 0 {
      assert UnloadBehaves(regs[0], replies[0], regs[1]);
    }
    forall k | 1 <= k < |replies|
      ensures Stop(home, h, replies[k]).report == AlreadyStopped && regs[k + 1] == regs[k]
    {
      UnloadRunSettles(regs, replies, k);
      assert UnloadBehaves(regs[k], replies[k], regs[k + 1]);
      ContainsLowerIff(replies[k].stderr, NotLoaded);
    }
  }

  /** `restart` of a loaded service stops it and starts it again: both
      halves report real work, it exits with 0, and the loaded labels end
      as they began. */
  lemma RestartLoaded(home: string, h: Host, r0: set<string>, unload: ProcResult, r1: set<string>,
                      load: ProcResult, r2: set<string>)
    requires h.plist.Some? && Label in r0
    requires UnloadBehaves(r0, unload, r1) && LoadBehaves(r1, load, r2)
    ensures Restart(home, h, unload, load).report == Restarted(Stopped, Some(Started))
    ensures r2 == r0
  {
  }

  /** `restart` of a service that is not loaded: "already stopped", then a
      real start, and the label is loaded afterwards. */
  lemma RestartNotLoaded(home: string, h: Host, r0: set<string>, unload: ProcResult, r1: set<string>,
                         load: ProcResult, r2: set<string>)
    requires h.plist.Some? && Label !in r0
    requires UnloadBehaves(r0, unload, r1) && LoadBehaves(r1, load, r2)
    ensures Restart(home, h, unload, load).report == Restarted(AlreadyStopped, Some(Started))
    ensures r2 == r0 + {Label}
  {
    ContainsLowerIff(unload.stderr, NotLoaded);
  }

  /** The tab-separated table `launchctl list` prints, one line per label. */
  function Listing(labels: seq<string>): string {
    "PID\tStatus\tLabel\n" + ListingLines(labels)
  }

  function ListingLines(labels: seq<string>): string {
    if labels == [] then "" else "-\t0\t" + labels[0] + "\n" + ListingLines(labels[1..])
  }

  lemma {:induction false} ListedLabelOccurs(labels: seq<string>)
    requires Label in labels
    ensures Contains(ListingLines(labels), Label)
  {
    var line := "-\t0\t" + labels[0] + "\n";
    if labels[0] == Label {
      ContainsSuffix("-\t0\t", Label);
      ContainsExtend("", "-\t0\t" + Label, "\n" + ListingLines(labels[1..]), Label);
      assert "" + ("-\t0\t" + Label) + ("\n" + ListingLines(labels[1..])) == ListingLines(labels);
    } else {
      ListedLabelOccurs(labels[1..]);
      ContainsExtend(line, ListingLines(labels[1..]), "", Label);
      assert line + ListingLines(labels[1..]) + "" == ListingLines(labels);
    }
  }

  /** With a listing of a label set that holds the agent's label, `status`
      reports the service running, whether or not the server has written its
      config record. */
  lemma StatusSeesLoadedLabel(home: string, h: Host, labels: seq<string>, code: int, err: string)
    requires Label in labels
    requires h.config.None? || (h.config.value.Parsed? && h.config.value.value.JObject?)
    ensures Status(home, h, Completed(code, Listing(labels), err)).report.view.Running?
  {
    ListedLabelOccurs(labels);
    ContainsExtend("PID\tStatus\tLabel\n", ListingLines(labels), "", Label);
    assert "PID\tStatus\tLabel\n" + ListingLines(labels) + "" == Listing(labels);
  }

  /** The substring test is wider than membership: another label that
      begins with the agent's label also makes `status` report it running. */
  lemma StatusSubstringMatch(home: string, h: Host, code: int, err: string)
    requires h.config.None?
    ensures Label !in ["com.localrun.agent.helper"]
    ensures Status(home, h, Completed(code, Listing(["com.localrun.agent.helper"]), err)).report.view.Running?
  {
    var other := "com.localrun.agent.helper";
    assert other == Label + ".helper";
    assert ["com.localrun.agent.helper"][1..] == [];
    ContainsPrefix(Label, ".helper");
    ContainsExtend("PID\tStatus\tLabel\n-\t0\t", other, "\n", Label);
    assert Listing([other]) == "PID\tStatus\tLabel\n-\t0\t" + other + "\n";
  }
}
