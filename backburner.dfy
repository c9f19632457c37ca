/** Backburner job submission and tracking from the post-export examples:
    the `cmdjob` command line, the job id found in its output, the
    postExportAsset hooks that collect job ids, and the idle-loop callback
    that re-imports exported clips once their jobs are complete. Running the
    command, the Wiretap state query and the idle-event scheduler are inputs
    and outputs here. */
module Backburner {
  import opened Py

  // ---------------------------------------------------------------- command line

  /** The Backburner command job executable, built with `os.path.join`. */
  function CmdJob(): (r: string)
    ensures r == "/opt/Autodesk/backburner/cmdjob"
  {
    PathJoin(PathJoin(PathJoin("/opt", "Autodesk"), "backburner"), "cmdjob")
  }

  /** The `dependencies` argument: None, one job id, or a list of job ids. */
  datatype Deps = NoDeps | JobDep(id: string) | JobDeps(ids: seq<string>)

  /** Python truthiness of the argument: an empty id or an empty list is false. */
  predicate Truthy(d: Deps) {
    match d
    case NoDeps => false
    case JobDep(id) => id != ""
    case JobDeps(ids) => ids != []
  }

  /** The text after `-dependencies:`. */
  function DepsText(d: Deps): string {
    match d
    case NoDeps => ""
    case JobDep(id) => id
    case JobDeps(ids) => Join(ids, ",")
  }

  function Quoted(s: string): string { "\"" + s + "\"" }

  /** The argument list `create_backburner_job` appends, in order. */
  function Arguments(jobName: string, description: string, deps: Deps): (r: seq<string>)
    ensures |r| == if Truthy(deps) then 5 else 4
    ensures r[0] == "-userRights" && r[1] == "-timeout:600"
    ensures r[2] == "-jobName:" + Quoted(jobName) && r[3] == "-description:" + Quoted(description)
    ensures Truthy(deps) ==> r[4] == "-dependencies:" + DepsText(deps)
  {
    var base := ["-userRights", "-timeout:600", "-jobName:" + Quoted(jobName), "-description:" + Quoted(description)];
    if Truthy(deps) then base + ["-dependencies:" + DepsText(deps)] else base
  }

  /** Builds the argument list by successive appends, as the source does. */
  method BuildArguments(jobName: string, description: string, deps: Deps) returns (args: seq<string>)
    ensures args == Arguments(jobName, description, deps)
  {
    args := [];
    args := args + ["-userRights"];
    args := args + ["-timeout:600"];
    args := args + ["-jobName:" + Quoted(jobName)];
    args := args + ["-description:" + Quoted(description)];
    if Truthy(deps) {
      match deps
      case JobDeps(ids) =>
        args := args + ["-dependencies:" + Join(ids, ",")];
      case JobDep(id) =>
        args := args + ["-dependencies:" + id];
    }
  }

  /** `"%s %s %s" % (executable, " ".join(args), cmd)` */
  function FullCommand(args: seq<string>, cmd: string): string {
    CmdJob() + " " + Join(args, " ") + " " + cmd
  }

  lemma Join4(a: string, b: string, c: string, d: string, sep: string)
    ensures Join([a, b, c, d], sep) == a + sep + b + sep + c + sep + d
  {
    assert Join([d], sep) == d;
    assert [c, d][1..] == [d];
    assert Join([c, d], sep) == c + sep + d;
    assert [b, c, d][1..] == [c, d];
    assert Join([b, c, d], sep) == b + sep + c + sep + d;
    assert [a, b, c, d][1..] == [b, c, d];
  }

  /** The dependencies flag with its leading space, present only when the argument is truthy. */
  function DepsFlag(deps: Deps): string {
    if Truthy(deps) then " " + ("-dependencies:" + DepsText(deps)) else ""
  }

  /** `" ".join` of the arguments: the fixed flags, name, description, then the
      dependencies flag only when the argument is truthy. */
  lemma ArgumentsJoined(jobName: string, description: string, deps: Deps)
    ensures Join(Arguments(jobName, description, deps), " ")
      == "-userRights" + " " + "-timeout:600" + " " + ("-jobName:" + Quoted(jobName))
         + " " + ("-description:" + Quoted(description)) + DepsFlag(deps)
  {
    var n := "-jobName:" + Quoted(jobName);
    var d := "-description:" + Quoted(description);
    var base := ["-userRights", "-timeout:600", n, d];
    var x := "-userRights" + " " + "-timeout:600" + " " + n + " " + d;
    Join4("-userRights", "-timeout:600", n, d, " ");
    if Truthy(deps) {
      var f := "-dependencies:" + DepsText(deps);
      JoinSnoc(base, f, " ");
      assert x + " " + f == x + (" " + f);
    } else {
      assert x + "" == x;
    }
  }

  /** A list of comma-free job ids is recovered from its `-dependencies:` text. */
  lemma DepsTextRoundTrip(ids: seq<string>)
    requires |ids| > 0
    requires forall i :: 0 <= i < |ids| ==> ',' !in ids[i]
    ensures Split(DepsText(JobDeps(ids)), ',') == ids
  {
    SplitJoin(ids, ',');
  }

  // ---------------------------------------------------------------- job id

  const Marker: string := "Successfully submitted job "

  /** `(?<=Successfully submitted job )\d` matches at offset p. */
  predicate MatchAt(s: string, p: nat) {
    |Marker| <= p < |s| && s[p - |Marker|..p] == Marker && IsDigit(s[p])
  }

  /** Length of the run of digits starting at p (the greedy `\d+`). */
  function DigitRun(s: string, p: nat): (n: nat)
    requires p <= |s|
    ensures p + n <= |s| && AllDigits(s[p..p + n])
    ensures p + n == |s| || !IsDigit(s[p + n])
    decreases |s| - p
  {
    if p < |s| && IsDigit(s[p]) then
      var n := DigitRun(s, p + 1);
      assert s[p..p + 1 + n] == [s[p]] + s[p + 1..p + 1 + n];
      1 + n
    else 0
  }

  /** `re.search` scanning from offset p: the first offset that matches. */
  function SearchFrom(s: string, p: nat): (r: Option<nat>)
    ensures r.Some? ==> p <= r.value && MatchAt(s, r.value)
    ensures r.Some? ==> forall q :: p <= q < r.value ==> !MatchAt(s, q)
    ensures r.None? ==> forall q :: p <= q ==> !MatchAt(s, q)
    decreases |s| - p
  {
    if p >= |s| then None
    else if MatchAt(s, p) then Some(p)
    else SearchFrom(s, p + 1)
  }

  /** The job id in the submission output, or None when the marker is not
      followed by a digit anywhere. */
  function JobId(out: string): (r: Option<string>)
    ensures r.None? <==> forall q :: !MatchAt(out, q)
    ensures r.Some? ==> |r.value| > 0 && AllDigits(r.value) && Contains(out, Marker + r.value)
    ensures r.Some? ==> exists p: nat :: FirstMatch(out, p) && IdAt(out, p, r.value)
  {
    match SearchFrom(out, 0)
    case None => None
    case Some(p) =>
      var n := DigitRun(out, p);
      var id := out[p..p + n];
      assert out[p - |Marker|..p + n] == Marker + id;
      ContainsOccurs(out, Marker + id);
      assert OccursAt(out, Marker + id, p - |Marker|);
      assert FirstMatch(out, p) && IdAt(out, p, id);
      Some(id)
  }

  /** `id` is the whole digit run at offset p. */
  predicate IdAt(s: string, p: nat, id: string) {
    p + |id| <= |s| && s[p..p + |id|] == id && (p + |id| == |s| || !IsDigit(s[p + |id|]))
  }

  /** p is where `re.search` stops: a match with none before it. */
  predicate FirstMatch(s: string, p: nat) {
    MatchAt(s, p) && forall q :: 0 <= q < p ==> !MatchAt(s, q)
  }

  /** Whatever precedes the marker, as long as it holds no match of its
      own, the id after the marker comes back whole and no later
      occurrence is looked at. */
  lemma JobIdOfSubmission(pre: string, id: string, rest: string)
    requires |id| > 0 && AllDigits(id)
    requires |rest| == 0 || !IsDigit(rest[0])
    requires forall q :: 0 <= q < |pre| + |Marker| ==> !MatchAt(pre + Marker + id + rest, q)
    ensures JobId(pre + Marker + id + rest) == Some(id)
  {
    var s := pre + Marker + id + rest;
    var p := |pre| + |Marker|;
    assert s[p - |Marker|..p] == Marker;
    assert s[p] == id[0];
    assert MatchAt(s, p);
    assert SearchFrom(s, 0) == Some(p);
    assert s[p..] == id + rest;
    DigitRunOf(s, p, id, rest);
    assert s[p..p + |id|] == id;
  }

  /** Output that begins with the marker: nothing before it can match. */
  lemma JobIdOfBareSubmission(id: string, rest: string)
    requires |id| > 0 && AllDigits(id)
    requires |rest| == 0 || !IsDigit(rest[0])
    ensures JobId(Marker + id + rest) == Some(id)
  {
    var s := "" + Marker + id + rest;
    assert s == Marker + id + rest;
    forall q | 0 <= q < |Marker|
      ensures !MatchAt(s, q)
    {
    }
    JobIdOfSubmission("", id, rest);
  }

  lemma {:induction false} DigitRunOf(s: string, p: nat, id: string, rest: string)
    requires p + |id| + |rest| == |s| && s[p..] == id + rest
    requires AllDigits(id) && (|rest| == 0 || !IsDigit(rest[0]))
    ensures DigitRun(s, p) == |id|
    decreases |id|
  {
    if |id| == 0 {
      if p < |s| {
        assert s[p] == rest[0];
      }
    } else {
      assert s[p] == id[0];
      assert s[p + 1..] == id[1..] + rest;
      DigitRunOf(s, p + 1, id[1..], rest);
    }
  }

  /** `create_backburner_job`: the command line it runs, written out, and the
      job id read from that command's output `out`. */
  method CreateBackburnerJob(jobName: string, description: string, deps: Deps, cmd: string, out: string)
    returns (fullCmd: string, jobId: Option<string>)
    ensures fullCmd == CmdJob() + " " + ("-userRights" + " " + "-timeout:600" + " " + ("-jobName:" + Quoted(jobName))
                                         + " " + ("-description:" + Quoted(description)) + DepsFlag(deps)) + " " + cmd
    ensures jobId == JobId(out)
  {
    var args := BuildArguments(jobName, description, deps);
    fullCmd := FullCommand(args, cmd);
    ArgumentsJoined(jobName, description, deps);
    jobId := JobId(out);
  }

  /** The command `create_python_backburner_job` submits: the script's path,
      the function name and its arguments; without arguments `" ".join(None)`
      raises TypeError. */
  function PythonJobCommand(script: string, func: string, args: Option<seq<string>>): (r: Result<string>)
    ensures r.Ok? <==> args.Some?
    ensures r.Ok? ==> r.value == script + " " + func + " " + Join(args.value, " ")
  {
    match args
    case None => Err(TypeError)
    case Some(a) =>
      JoinCons(func, [Join(a, " ")], " ");
      JoinCons(script, [func, Join(a, " ")], " ");
      Ok(Join([script, func, Join(a, " ")], " "))
  }

  // ---------------------------------------------------------------- export hooks

  /** The `info` dictionary an export hands to postExportAsset. */
  datatype AssetInfo = AssetInfo(backgroundJobId: string, destinationPath: string, resolvedPath: string, assetName: string)

  function FullPath(info: AssetInfo): string { PathJoin(info.destinationPath, info.resolvedPath) }

  /** The `userData` list the hooks append to. */
  class UserData<T> {
    var items: seq<T>

    constructor()
      ensures items == []
    {
      items := [];
    }

    method Append(x: T)
      modifies this
      ensures items == old(items) + [x]
    {
      items := items + [x];
    }
  }

  /** The zip example's hook: in background mode the asset's job id is kept. */
  method ZipPostExportAsset(foreground: bool, info: AssetInfo, userData: UserData<string>)
    modifies userData
    ensures userData.items == old(userData.items) + (if foreground then [] else [info.backgroundJobId])
  {
    if !foreground {
      userData.Append(info.backgroundJobId);
    }
  }

  /** The job ids of the exported assets, in export order. */
  function BackgroundIds(infos: seq<AssetInfo>): (r: seq<string>)
    ensures |r| == |infos|
    ensures forall i :: 0 <= i < |infos| ==> r[i] == infos[i].backgroundJobId
  {
    if |infos| == 0 then [] else BackgroundIds(infos[..|infos| - 1]) + [infos[|infos| - 1].backgroundJobId]
  }

  /** The export calls the hook once per asset, in order. */
  method ExportWithZipHook(foreground: bool, infos: seq<AssetInfo>) returns (ids: seq<string>)
    ensures foreground ==> ids == []
    ensures !foreground ==> ids == BackgroundIds(infos)
  {
    var userData := new UserData<string>();
    var i := 0;
    while i < |infos|
      invariant 0 <= i <= |infos|
      invariant userData.items == if foreground then [] else BackgroundIds(infos[..i])
    {
      ZipPostExportAsset(foreground, infos[i], userData);
      assert infos[..i + 1][..i] == infos[..i];
      i := i + 1;
    }
    assert infos[..i] == infos;
    ids := userData.items;
  }

  function ZipCommand(exportDir: string): string { "zip -r " + exportDir + ".zip " + exportDir }

  /** `export_movie_and_zip`: the zip job depends on every background export job. */
  method ExportMovieAndZip(foreground: bool, infos: seq<AssetInfo>, exportDir: string) returns (cmd: string)
    ensures cmd == FullCommand(Arguments("Zipping Exported Files", "Zipping Exported Files",
                                         JobDeps(if foreground then [] else BackgroundIds(infos))), ZipCommand(exportDir))
    ensures foreground || infos == [] ==>
              cmd == CmdJob() + " " + ("-userRights" + " " + "-timeout:600" + " " + ("-jobName:" + Quoted("Zipping Exported Files"))
                                       + " " + ("-description:" + Quoted("Zipping Exported Files"))) + " " + ZipCommand(exportDir)
  {
    var ids := ExportWithZipHook(foreground, infos);
    var args := BuildArguments("Zipping Exported Files", "Zipping Exported Files", JobDeps(ids));
    cmd := FullCommand(args, ZipCommand(exportDir));
    ArgumentsJoined("Zipping Exported Files", "Zipping Exported Files", JobDeps(ids));
  }

  /** What the rename hook does with one asset. */
  datatype RenameAction = RenameNow(from: string, to: string) | SubmitRename(cmd: string)

  /** The rename example's hook: rename at once in foreground, otherwise submit
      a python job that depends on the asset's export job. */
  function RenamePostExportAsset(foreground: bool, script: string, info: AssetInfo): (r: RenameAction)
    ensures foreground ==> r == RenameNow(FullPath(info), FullPath(info) + "_renamed")
    ensures !foreground ==> r.SubmitRename?
    ensures !foreground ==> r.cmd == FullCommand(Arguments("Renaming " + info.assetName, "Renaming " + info.assetName, JobDep(info.backgroundJobId)),
                                                 script + " " + "rename_function" + " " + (FullPath(info) + " " + (FullPath(info) + "_renamed")))
  {
    var full := FullPath(info);
    if foreground then RenameNow(full, full + "_renamed")
    else
      var command := PythonJobCommand(script, "rename_function", Some([full, full + "_renamed"]));
      JoinCons(full, [full + "_renamed"], " ");
      assert [full] + [full + "_renamed"] == [full, full + "_renamed"];
      SubmitRename(FullCommand(Arguments("Renaming " + info.assetName, "Renaming " + info.assetName, JobDep(info.backgroundJobId)), command.value))
  }

  /** A background job and the file it produces. */
  type Job = (string, string)

  /** The re-import example's hook: every asset's job id and full path. */
  method ReimportPostExportAsset(info: AssetInfo, userData: UserData<Job>)
    modifies userData
    ensures userData.items == old(userData.items) + [(info.backgroundJobId, FullPath(info))]
  {
    userData.Append((info.backgroundJobId, FullPath(info)));
  }

  function JobsOf(infos: seq<AssetInfo>): (r: seq<Job>)
    ensures |r| == |infos|
    ensures forall i :: 0 <= i < |infos| ==> r[i] == (infos[i].backgroundJobId, FullPath(infos[i]))
  {
    if |infos| == 0 then [] else JobsOf(infos[..|infos| - 1]) + [(infos[|infos| - 1].backgroundJobId, FullPath(infos[|infos| - 1]))]
  }

  method ExportWithReimportHook(infos: seq<AssetInfo>) returns (jobs: seq<Job>)
    ensures jobs == JobsOf(infos)
  {
    var userData := new UserData<Job>();
    var i := 0;
    while i < |infos|
      invariant 0 <= i <= |infos|
      invariant userData.items == JobsOf(infos[..i])
    {
      ReimportPostExportAsset(infos[i], userData);
      assert infos[..i + 1][..i] == infos[..i];
      i := i + 1;
    }
    assert infos[..i] == infos;
    jobs := userData.items;
  }

  // ---------------------------------------------------------------- re-import poller

  /** What one call of the callback asks the host to do. */
  datatype Effect = Effect(imported: Option<string>, rescheduled: bool)

  /** One call of `ReImportCallback.__call__`. `query` holds the state the
      Backburner manager reports for a job id; an id it has no entry for is a
      failed query. Popping an empty list raises IndexError. */
  function Poll(jobs: seq<Job>, query: map<string, string>): Result<(seq<Job>, Effect)> {
    if |jobs| == 0 then Err(IndexError)
    else
      var job := jobs[|jobs| - 1];
      var rest := jobs[..|jobs| - 1];
      if job.0 !in query then Ok((rest, Effect(None, false)))
      else if query[job.0] != "complete" then Ok((rest + [job], Effect(None, true)))
      else Ok((rest, Effect(Some(job.1), |rest| > 0)))
  }

  /** A job that is not complete goes back where it was; the callback runs again. */
  lemma PollWaiting(jobs: seq<Job>, query: map<string, string>)
    requires |jobs| > 0 && jobs[|jobs| - 1].0 in query && query[jobs[|jobs| - 1].0] != "complete"
    ensures Poll(jobs, query) == Ok((jobs, Effect(None, true)))
  {
    assert jobs[..|jobs| - 1] + [jobs[|jobs| - 1]] == jobs;
  }

  /** A complete job is removed and its path imported; the callback runs again
      iff jobs remain. */
  lemma PollComplete(jobs: seq<Job>, query: map<string, string>)
    requires |jobs| > 0 && jobs[|jobs| - 1].0 in query && query[jobs[|jobs| - 1].0] == "complete"
    ensures Poll(jobs, query).Ok?
    ensures Poll(jobs, query).value.0 + [jobs[|jobs| - 1]] == jobs
    ensures Poll(jobs, query).value.1 == Effect(Some(jobs[|jobs| - 1].1), |jobs| > 1)
  {
  }

  /** A failed query drops the job: nothing is imported and polling stops. */
  lemma PollFailed(jobs: seq<Job>, query: map<string, string>)
    requires |jobs| > 0 && jobs[|jobs| - 1].0 !in query
    ensures Poll(jobs, query) == Ok((jobs[..|jobs| - 1], Effect(None, false)))
  {
  }

  /** The host calling the callback for as long as it reschedules itself, at
      most `n` times: the jobs left and the paths imported, in order.
      `query` is one fixed map of job states for the whole run: the host's
      jobs are taken not to change state between calls. */
  function Run(jobs: seq<Job>, query: map<string, string>, n: nat): (seq<Job>, seq<string>)
    decreases n
  {
    if n == 0 then (jobs, [])
    else
      match Poll(jobs, query)
      case Err(_) => (jobs, [])
      case Ok(step) =>
        var imported := if step.1.imported.Some? then [step.1.imported.value] else [];
        if step.1.rescheduled then
          var next := Run(step.0, query, n - 1);
          (next.0, imported + next.1)
        else (step.0, imported)
  }

  predicate AllComplete(jobs: seq<Job>, query: map<string, string>) {
    forall i :: 0 <= i < |jobs| ==> jobs[i].0 in query && query[jobs[i].0] == "complete"
  }

  function Paths(jobs: seq<Job>): (r: seq<string>)
    ensures |r| == |jobs|
    ensures forall i :: 0 <= i < |jobs| ==> r[i] == jobs[i].1
  {
    if |jobs| == 0 then [] else Paths(jobs[..|jobs| - 1]) + [jobs[|jobs| - 1].1]
  }

  function Reverse<T>(xs: seq<T>): (r: seq<T>)
    ensures |r| == |xs|
    ensures forall i :: 0 <= i < |xs| ==> r[i] == xs[|xs| - 1 - i]
  {
    if |xs| == 0 then [] else [xs[|xs| - 1]] + Reverse(xs[..|xs| - 1])
  }

  /** When every export is complete, one call per job imports every path,
      last-exported first, and leaves nothing pending. */
  lemma {:induction false} RunAllComplete(jobs: seq<Job>, query: map<string, string>)
    requires |jobs| > 0 && AllComplete(jobs, query)
    ensures Run(jobs, query, |jobs|) == ([], Reverse(Paths(jobs)))
    decreases |jobs|
  {
    var rest := jobs[..|jobs| - 1];
    PollComplete(jobs, query);
    assert Poll(jobs, query) == Ok((rest, Effect(Some(jobs[|jobs| - 1].1), |rest| > 0)));
    assert Paths(jobs) == Paths(rest) + [jobs[|jobs| - 1].1];
    if |rest| > 0 {
      assert AllComplete(rest, query) by {
        forall i | 0 <= i < |rest| ensures rest[i].0 in query && query[rest[i].0] == "complete" {
          assert rest[i] == jobs[i];
        }
      }
      RunAllComplete(rest, query);
      assert Run(jobs, query, |jobs|) == ([], [jobs[|jobs| - 1].1] + Reverse(Paths(rest)));
    } else {
      assert Paths(rest) == [];
      assert Run(jobs, query, |jobs|) == ([], [jobs[|jobs| - 1].1]);
      assert Reverse(Paths(rest)) == [];
      assert [jobs[|jobs| - 1].1] + Reverse(Paths(rest)) == [jobs[|jobs| - 1].1];
    }
    assert Reverse(Paths(jobs)) == [jobs[|jobs| - 1].1] + Reverse(Paths(rest)) by {
      assert Paths(jobs)[..|jobs| - 1] == Paths(rest);
    }
  }

  /** Only the last job is ever polled: while it is not complete, no other job
      is imported, however many times the callback runs. The job states are
      the one fixed `query` map, so the last job stays incomplete for the
      whole run; a job finishing between calls is not modelled here. */
  lemma {:induction false} RunStallsOnLast(jobs: seq<Job>, query: map<string, string>, n: nat)
    requires |jobs| > 0 && jobs[|jobs| - 1].0 in query && query[jobs[|jobs| - 1].0] != "complete"
    ensures Run(jobs, query, n) == (jobs, [])
    decreases n
  {
    if n > 0 {
      PollWaiting(jobs, query);
      RunStallsOnLast(jobs, query, n - 1);
      var next := Run(jobs, query, n - 1);
      assert Run(jobs, query, n) == (next.0, [] + next.1);
      assert [] + next.1 == next.1;
    }
  }

  /** `ReImportCallback`: the pending list it pops from and appends back to. */
  class ReImportCallback {
    var jobs: seq<Job>

    constructor(jobs: seq<Job>)
      ensures this.jobs == jobs
    {
      this.jobs := jobs;
    }

    /** `__call__`: query the last job and act on its state. */
    method Call(query: map<string, string>) returns (r: Result<Effect>)
      modifies this
      ensures Poll(old(jobs), query).Err? ==> r.Err? && r.error == IndexError && jobs == old(jobs)
      ensures Poll(old(jobs), query).Ok? ==> r == Ok(Poll(old(jobs), query).value.1) && jobs == Poll(old(jobs), query).value.0
    {
      if |jobs| == 0 {
        return Err(IndexError);
      }
      var job := jobs[|jobs| - 1];
      jobs := jobs[..|jobs| - 1];
      if job.0 !in query {
        r := Ok(Effect(None, false));
      } else if query[job.0] != "complete" {
        jobs := jobs + [job];
        r := Ok(Effect(None, true));
      } else {
        r := Ok(Effect(Some(job.1), |jobs| > 0));
      }
    }
  }
}
