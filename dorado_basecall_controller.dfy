/**
  The resumable dorado job planner. Each pod5 directory named in a list
  file becomes at most one shell command: directories whose completion
  sentinel exists are skipped, a non-empty partial BAM is renamed to a
  checkpoint, and a non-empty checkpoint turns the command into one that
  resumes from it. Before a command runs, a device flag is spliced in
  front of its `>` redirection.

  The file system is the map `FileSizes` from the path of every regular
  file to its size; running the commands is left to the caller.
 */
module DoradoBasecallController {
  import opened PyText
  import opened PosixPath

  type Path = string

  /** `os.path.isfile(p)` is `p in fs`, and `os.path.getsize(p)` is `fs[p]`. */
  type FileSizes = map<Path, nat>

  /** The installation the commands call, and the command prefix they share. */
  const DoradoInstall: string := "/data/tanner_scripts/dorado-0.6.1-linux-x64"
  const DoradoBasecaller: string := DoradoInstall + "/bin/dorado" + " basecaller -r "

  /** What `run_job` inserts in front of the redirection. */
  const DeviceFlag: string := " --device cuda:all "

  /** The characters `strip('.bam')` removes: a set, not a suffix. */
  const BamChars: set<char> := {'.', 'b', 'a', 'm'}

  /** The model dictionary of `initialize_jobs_from_list`: it has the key `r10` only. */
  datatype ModelLookup = Model(name: string) | MissingKey

  function ModelFor(pore: string): (r: ModelLookup)
    ensures r.Model? <==> pore == "r10"
  {
    if pore == "r10" then Model("sup,5mCG_5hmCG") else MissingKey
  }

  // ---------------------------------------------------------------------
  // Names derived from a pod5 directory

  function OutBam(d: Path): Path
  {
    Dirname(d) + "/" + Basename(d) + ".bam"
  }

  function Sentinel(d: Path): Path
  {
    Dirname(d) + "/" + Basename(d) + ".BASECALLING_COMPLETE"
  }

  /** `out_bam.strip('.bam') + ".checkpoint.bam"`. */
  function Checkpoint(d: Path): Path
  {
    Strip(OutBam(d), BamChars) + ".checkpoint.bam"
  }

  /**
    For a directory `parent/name` (the last `/` not doubled), the BAM and
    the sentinel are the siblings `parent/name.bam` and
    `parent/name.BASECALLING_COMPLETE`.
   */
  lemma SiblingNames(d: Path)
    requires RFind(d, '/') >= 1 && d[RFind(d, '/') - 1] != '/'
    ensures OutBam(d) == d + ".bam"
    ensures Sentinel(d) == d + ".BASECALLING_COMPLETE"
  {
    DirnameSlashBasename(d);
  }

  /**
    The checkpoint is the sibling `parent/name.checkpoint.bam` only when
    neither the first character of the path nor the last character of
    its name is one of `.`, `b`, `a`, `m`.
   */
  lemma CheckpointOfPlainName(d: Path)
    requires RFind(d, '/') >= 1 && d[RFind(d, '/') - 1] != '/'
    requires d[0] !in BamChars && d[|d| - 1] !in BamChars
    ensures Checkpoint(d) == d + ".checkpoint.bam"
  {
    SiblingNames(d);
    StripSuffix(d, ".bam", BamChars);
  }

  /**
    Because the strip works on characters, appending letters from `.`,
    `b`, `a`, `m` to a directory name does not change its checkpoint:
    `/runs/l` and `/runs/lamb` share `/runs/l.checkpoint.bam`.
   */
  lemma CheckpointsCollide(d: Path, t: string)
    requires RFind(d, '/') >= 1 && d[RFind(d, '/') - 1] != '/'
    requires d[0] !in BamChars && d[|d| - 1] !in BamChars
    requires AllIn(t, BamChars)
    ensures Checkpoint(d + t) == Checkpoint(d) == d + ".checkpoint.bam"
  {
    AllInExcludes(t, BamChars, '/');
    ExtendedSibling(d, t);
    AllInAppend(t, ".bam", BamChars);
    StripSuffix(d, t + ".bam", BamChars);
    CheckpointOfPlainName(d);
  }

  /** The BAM of `./run` is `./run.bam`. */
  lemma DotRunBam()
    ensures OutBam("./run") == "./run.bam"
  {
    var d := "./run";
    assert RFind(d, '/') == 1;
    assert TrailStart(d, {'/'}, 2) == 1;
    assert Dirname(d) == "." && Basename(d) == "run";
  }

  /** Stripping `.bam` characters from `./run.bam` leaves `/run`. */
  lemma StripDotRunBam()
    ensures Strip("./run.bam", BamChars) == "/run"
  {
    var b := "./run.bam";
    var r := Strip(b, BamChars);
    assert LeadCount(b, BamChars) == 1;
    assert b[4] == 'n';
    assert b[5] in BamChars && b[6] in BamChars && b[7] in BamChars && b[8] in BamChars;
    assert |r| == 4;
    assert r == b[1..5];
  }

  /**
    The strip also works from the front: for the directory `./run` the
    leading `.` goes, and the checkpoint lands at the filesystem root.
   */
  lemma LeadingDotStripped()
    ensures Checkpoint("./run") == "/run.checkpoint.bam"
  {
    DotRunBam();
    StripDotRunBam();
  }

  /** Extending the name by text without `/` keeps the BAM a sibling. */
  lemma ExtendedSibling(d: Path, t: string)
    requires RFind(d, '/') >= 1 && d[RFind(d, '/') - 1] != '/'
    requires '/' !in t
    ensures OutBam(d + t) == d + (t + ".bam")
  {
    var i, e := RFind(d, '/'), d + t;
    RFindAppend(d, t, '/');
    assert e[i - 1] == d[i - 1];
    DirnameSlashBasename(e);
  }

  /** A sentinel is never the BAM or the checkpoint of any directory: the two never meet in a rename. */
  lemma SentinelIsNotRenamed(d: Path, e: Path)
    ensures Sentinel(d) != OutBam(e) && Sentinel(d) != Checkpoint(e)
  {
    var s := Sentinel(d);
    assert s[|s| - 1] == 'E';
    assert OutBam(e)[|OutBam(e)| - 1] == 'm';
    assert Checkpoint(e)[|Checkpoint(e)| - 1] == 'm';
  }

  // ---------------------------------------------------------------------
  // Targets, jobs and their command text

  /** A pod5 directory with the three file names the loop derives from it. */
  datatype Target = Target(dir: Path, out: Path, message: Path, checkpoint: Path)

  /** The names computed at the top of each iteration of the planning loop. */
  function TargetFor(d: Path): (t: Target)
    ensures t.dir == d
  {
    Target(d, OutBam(d), Sentinel(d), Checkpoint(d))
  }

  function Targets(dirs: seq<Path>): (ts: seq<Target>)
    ensures |ts| == |dirs|
  {
    seq(|dirs|, k requires 0 <= k < |dirs| => TargetFor(dirs[k]))
  }

  /** Every target carries the names of its own directory. */
  predicate WellNamed(ts: seq<Target>)
  {
    forall k :: 0 <= k < |ts| ==> ts[k] == TargetFor(ts[k].dir)
  }

  /** A planned job: the plain command for a target, or the command that resumes from its checkpoint. */
  datatype DoradoJob = Basecall(target: Target) | ResumeBasecall(target: Target)

  /** The command text up to the redirection: the model, then the directory. */
  function CommandHead(model: string, d: Path): string
  {
    DoradoBasecaller + " " + model + "  " + d + "  "
  }

  /** The redirection to the BAM and the `touch` of the sentinel. */
  function RedirectAndTouch(t: Target): string
  {
    "> " + t.out + "  && touch " + t.message + " "
  }

  function PlainCommand(model: string, t: Target): string
  {
    CommandHead(model, t.dir) + RedirectAndTouch(t)
  }

  /** The resuming command up to the redirection: the plain head and the checkpoint to resume from. */
  function ResumeHead(model: string, t: Target): string
  {
    CommandHead(model, t.dir) + "--resume-from " + t.checkpoint + "  "
  }

  /** The redirection and `touch`, then the removal of the checkpoint. */
  function ResumeTail(t: Target): string
  {
    RedirectAndTouch(t) + " && rm " + t.checkpoint + " "
  }

  function ResumeCommand(model: string, t: Target): string
  {
    ResumeHead(model, t) + ResumeTail(t)
  }

  /** The shell command `initialize_jobs_from_list` appends for a job. */
  function CommandText(model: string, job: DoradoJob): string
  {
    match job
    case Basecall(t) => PlainCommand(model, t)
    case ResumeBasecall(t) => ResumeCommand(model, t)
  }

  /** The job list `initialize_jobs_from_list` returns: one command text per job. */
  function Commands(model: string, jobs: seq<DoradoJob>): (cmds: seq<string>)
    ensures |cmds| == |jobs|
  {
    seq(|jobs|, k requires 0 <= k < |jobs| => CommandText(model, jobs[k]))
  }

  // ---------------------------------------------------------------------
  // Planning

  predicate NonEmptyFile(fs: FileSizes, p: Path)
  {
    p in fs && fs[p] > 0
  }

  /** `os.rename(src, dst)`: `dst` takes over the size of `src`, replacing any file there. */
  function Rename(fs: FileSizes, src: Path, dst: Path): (r: FileSizes)
    requires src in fs
    ensures dst in r && r[dst] == fs[src]
    ensures src != dst ==> src !in r
    ensures forall p :: p != src && p != dst ==> (p in r <==> p in fs) && (p in r ==> r[p] == fs[p])
  {
    (fs - {src})[dst := fs[src]]
  }

  /** One iteration of the planning loop for target `t`: the jobs it adds and the files it leaves. */
  function PlanStep(t: Target, fs: FileSizes): (seq<DoradoJob>, FileSizes)
  {
    if t.message in fs then ([], fs)
    else
      var fs1 := if t.out in fs && fs[t.out] > 0 then Rename(fs, t.out, t.checkpoint) else fs;
      var job := if t.checkpoint in fs1 && fs1[t.checkpoint] > 0 then ResumeBasecall(t) else Basecall(t);
      ([job], fs1)
  }

  /**
    A target whose sentinel exists adds no job and changes nothing;
    otherwise a non-empty BAM is renamed to the checkpoint, and the one
    job resumes exactly when the BAM or the checkpoint was a non-empty
    file before the iteration.
   */
  lemma PlanStepSpec(t: Target, fs: FileSizes)
    ensures var r := PlanStep(t, fs);
      (t.message in fs <==> r.0 == []) &&
      (t.message in fs ==> r.1 == fs) &&
      (t.message !in fs ==>
        r.0 == [if NonEmptyFile(fs, t.out) || NonEmptyFile(fs, t.checkpoint)
                then ResumeBasecall(t) else Basecall(t)]) &&
      (t.message !in fs && NonEmptyFile(fs, t.out) ==>
        r.1 == Rename(fs, t.out, t.checkpoint)) &&
      (!NonEmptyFile(fs, t.out) ==> r.1 == fs)
  {
  }

  /** The loop of `initialize_jobs_from_list` over its targets, in list order. */
  function Plan(ts: seq<Target>, fs: FileSizes): (seq<DoradoJob>, FileSizes)
  {
    if |ts| == 0 then ([], fs)
    else
      var before := Plan(ts[..|ts| - 1], fs);
      var step := PlanStep(ts[|ts| - 1], before.1);
      (before.0 + step.0, step.1)
  }

  /** The targets whose sentinel does not exist before planning starts, in list order. */
  function Pending(ts: seq<Target>, fs: FileSizes): seq<Target>
  {
    if |ts| == 0 then []
    else Pending(ts[..|ts| - 1], fs) + (if ts[|ts| - 1].message in fs then [] else [ts[|ts| - 1]])
  }

  /** Planning never creates or removes a sentinel. */
  lemma {:induction false} PlanKeepsSentinels(ts: seq<Target>, fs: FileSizes, e: Path)
    requires WellNamed(ts)
    ensures Sentinel(e) in Plan(ts, fs).1 <==> Sentinel(e) in fs
  {
    if |ts| > 0 {
      var t := ts[|ts| - 1];
      var init := ts[..|ts| - 1];
      assert WellNamed(init) by {
        forall k | 0 <= k < |init| ensures init[k] == TargetFor(init[k].dir) {
          assert init[k] == ts[k];
        }
      }
      PlanKeepsSentinels(init, fs, e);
      PlanStepSpec(t, Plan(init, fs).1);
      SentinelIsNotRenamed(e, t.dir);
    }
  }

  /**
    The planner emits exactly one job per target without a sentinel, in
    list order, and none for a target with a sentinel.
   */
  lemma {:induction false} PlanMatchesPending(ts: seq<Target>, fs: FileSizes)
    requires WellNamed(ts)
    ensures var jobs := Plan(ts, fs).0;
      |jobs| == |Pending(ts, fs)| &&
      forall k :: 0 <= k < |jobs| ==> jobs[k].target == Pending(ts, fs)[k]
  {
    if |ts| > 0 {
      var t := ts[|ts| - 1];
      var init := ts[..|ts| - 1];
      assert WellNamed(init) by {
        forall k | 0 <= k < |init| ensures init[k] == TargetFor(init[k].dir) {
          assert init[k] == ts[k];
        }
      }
      PlanMatchesPending(init, fs);
      assert t == TargetFor(t.dir);
      PlanKeepsSentinels(init, fs, t.dir);
      PlanStepSpec(t, Plan(init, fs).1);
    }
  }

  // ---------------------------------------------------------------------
  // The list file and the planning method

  /** `[line.strip() for line in open(pod5_list_file)]`. */
  function PodDirs(listText: string): (dirs: seq<Path>)
    ensures |dirs| == |Lines(listText)|
  {
    var ls := Lines(listText);
    seq(|ls|, k requires 0 <= k < |ls| => Strip(ls[k], Whitespace))
  }

  /** A list file holding one (trimmed) directory per line is read back as those directories. */
  lemma PodDirsOfListFile(dirs: seq<Path>)
    requires |dirs| >= 1
    requires forall k :: 0 <= k < |dirs| ==> '\n' !in dirs[k] && '\r' !in dirs[k] && Trimmed(dirs[k], Whitespace)
    ensures PodDirs(PrintedLines(dirs)) == dirs
  {
    LinesOfPrinted(dirs);
    forall k | 0 <= k < |dirs|
      ensures PodDirs(PrintedLines(dirs))[k] == dirs[k]
    {
      StripSuffix(dirs[k], "\n", Whitespace);
    }
  }

  datatype PlanResult = Jobs(model: string, jobs: seq<DoradoJob>) | KeyError(key: string)

  /**
    What `initialize_jobs_from_list` computes on the targets of its
    directories. The model dictionary is consulted for every directory,
    before the sentinel check, so a pore other than `r10` raises
    `KeyError` as soon as the list is non-empty, before any file is
    renamed.
   */
  function InitializeJobs(pore: string, ts: seq<Target>, fs: FileSizes): (PlanResult, FileSizes)
  {
    match ModelFor(pore)
    case MissingKey => if |ts| == 0 then (Jobs("", []), fs) else (KeyError(pore), fs)
    case Model(m) => var p := Plan(ts, fs); (Jobs(m, p.0), p.1)
  }

  /** `initialize_jobs_from_list`: read the list file, then plan its directories. */
  method InitializeJobsFromList(listText: string, pore: string, fs0: FileSizes)
    returns (r: PlanResult, fs: FileSizes)
    ensures (r, fs) == InitializeJobs(pore, Targets(PodDirs(listText)), fs0)
  {
    r, fs := PlanTargets(Targets(PodDirs(listText)), pore, fs0);
  }

  /** The loop of `initialize_jobs_from_list`, renaming files as it goes. */
  method PlanTargets(ts: seq<Target>, pore: string, fs0: FileSizes)
    returns (r: PlanResult, fs: FileSizes)
    ensures (r, fs) == InitializeJobs(pore, ts, fs0)
  {
    var jobs: seq<DoradoJob> := [];
    fs := fs0;
    var i := 0;
    while i < |ts|
      invariant 0 <= i <= |ts|
      invariant ModelFor(pore).MissingKey? ==> i == 0 && jobs == [] && fs == fs0
      invariant ModelFor(pore).Model? ==> (jobs, fs) == Plan(ts[..i], fs0)
    {
      var t := ts[i];
      var lookup := ModelFor(pore);
      if lookup.MissingKey? {
        return KeyError(pore), fs0;
      }
      ghost var step := PlanStep(t, fs);
      assert ts[..i + 1][..i] == ts[..i];
      assert Plan(ts[..i + 1], fs0) == (jobs + step.0, step.1);
      if t.message in fs {
        assert jobs + [] == jobs;
        i := i + 1;
        continue;
      }
      if t.out in fs && fs[t.out] > 0 {
        fs := Rename(fs, t.out, t.checkpoint);
      }
      var job := Basecall(t);
      if t.checkpoint in fs && fs[t.checkpoint] > 0 {
        job := ResumeBasecall(t);
      }
      jobs := jobs + [job];
      i := i + 1;
    }
    assert ts[..i] == ts;
    r := Jobs(if ModelFor(pore).Model? then ModelFor(pore).name else "", jobs);
  }

  /** `main` lets the pore `r9` through, but the model table has no `r9` entry. */
  lemma R9RaisesKeyError(ts: seq<Target>, fs: FileSizes)
    requires |ts| > 0
    ensures InitializeJobs("r9", ts, fs).0 == KeyError("r9")
    ensures InitializeJobs("r9", ts, fs).1 == fs
  {
  }

  // ---------------------------------------------------------------------
  // run_job

  /**
    Where `run_job` splices the device flag: at the first `>`. Without a
    `>`, `find` returns -1 and the slices `[:-1]` and `[-1:]` put the flag
    in front of the last character (of nothing, for an empty command).
   */
  function SpliceAt(cmd: string): (p: nat)
    ensures p <= |cmd|
    ensures '>' in cmd ==> p < |cmd| && cmd[p] == '>' && forall k :: 0 <= k < p ==> cmd[k] != '>'
    ensures '>' !in cmd ==> p == if |cmd| == 0 then 0 else |cmd| - 1
  {
    var i := Find(cmd, '>');
    if i >= 0 then i else if |cmd| == 0 then 0 else |cmd| - 1
  }

  /** The command `run_job` hands to the shell. */
  function RunJobCommand(cmd: string): (r: string)
    ensures |r| == |cmd| + |DeviceFlag|
  {
    var p := SpliceAt(cmd);
    cmd[..p] + DeviceFlag + cmd[p..]
  }

  /** The flag sits at the splice point, and deleting it gives back the original command. */
  lemma RunJobCommandRemovesFlag(cmd: string)
    ensures var r, p := RunJobCommand(cmd), SpliceAt(cmd);
      r[..p] + r[p + |DeviceFlag|..] == cmd && r[p..p + |DeviceFlag|] == DeviceFlag
  {
    var r, p := RunJobCommand(cmd), SpliceAt(cmd);
    assert r[..p] == cmd[..p] && r[p + |DeviceFlag|..] == cmd[p..];
  }

  /** The flag lands immediately in front of the first redirection. */
  lemma SpliceBeforeRedirect(head: string, tail: string)
    requires '>' !in head && |tail| > 0 && tail[0] == '>'
    ensures RunJobCommand(head + tail) == head + DeviceFlag + tail
  {
    var cmd := head + tail;
    assert cmd[..|head|] == head && cmd[|head|..] == tail;
    FindAt(cmd, '>', |head|);
  }

  lemma NoRedirectInBasecaller()
    ensures '>' !in DoradoBasecaller
  {
    assert '>' !in DoradoInstall;
    assert '>' !in "/bin/dorado";
    assert '>' !in " basecaller -r ";
  }

  /** The BAM name has no `>` when the directory has none: it is made of parts of the directory. */
  lemma NoRedirectInOutBam(d: Path)
    requires '>' !in d
    ensures '>' !in OutBam(d)
  {
    var dir, base := Dirname(d), Basename(d);
    assert '>' !in dir by {
      DirnameSpec(d);
      NotInSlice(d, '>', 0, |dir|);
      assert d[0..|dir|] == dir;
    }
    assert '>' !in base by {
      BasenameSpec(d);
      NotInSlice(d, '>', |d| - |base|, |d|);
    }
  }

  /** The checkpoint name has no `>` when the directory has none: it is a slice of the BAM name. */
  lemma NoRedirectInCheckpoint(d: Path)
    requires '>' !in d
    ensures '>' !in Checkpoint(d)
  {
    NoRedirectInOutBam(d);
    var out := OutBam(d);
    var s, i := Strip(out, BamChars), LeadCount(out, BamChars);
    NotInSlice(out, '>', i, i + |s|);
  }

  /** For every job of a directory without `>`, the flag goes right before `> <bam>`. */
  lemma DeviceFlagPrecedesOutput(model: string, d: Path)
    requires '>' !in model && '>' !in d
    ensures var t := TargetFor(d);
      RunJobCommand(PlainCommand(model, t)) == CommandHead(model, d) + DeviceFlag + RedirectAndTouch(t) &&
      RunJobCommand(ResumeCommand(model, t)) == ResumeHead(model, t) + DeviceFlag + ResumeTail(t)
  {
    var t := TargetFor(d);
    assert '>' !in CommandHead(model, d) by {
      NoRedirectInBasecaller();
    }
    NoRedirectInCheckpoint(d);
    SpliceBeforeRedirect(CommandHead(model, d), RedirectAndTouch(t));
    SpliceBeforeRedirect(ResumeHead(model, t), ResumeTail(t));
  }

  // ---------------------------------------------------------------------
  // main

  datatype Outcome = Rejected | Ran(result: PlanResult, executed: seq<string>)

  predicate PoreAccepted(pore: string)
  {
    pore == "r10" || pore == "r9"
  }

  /** The shell commands `run_job` runs for a job list, in order. */
  function Dispatched(cmds: seq<string>): (run: seq<string>)
    ensures |run| == |cmds|
  {
    if |cmds| == 0 then []
    else Dispatched(cmds[..|cmds| - 1]) + [RunJobCommand(cmds[|cmds| - 1])]
  }

  /** Each dispatched command is the listed command with the device flag spliced in. */
  lemma {:induction false} DispatchedAt(cmds: seq<string>, k: nat)
    requires k < |cmds|
    ensures Dispatched(cmds)[k] == RunJobCommand(cmds[k])
  {
    if k < |cmds| - 1 {
      DispatchedAt(cmds[..|cmds| - 1], k);
    }
  }

  /** `pool.map(run_job, job_list)`, taken as running the commands one after the other. */
  method RunJobs(cmds: seq<string>) returns (executed: seq<string>)
    ensures executed == Dispatched(cmds)
  {
    executed := [];
    var k := 0;
    while k < |cmds|
      invariant 0 <= k <= |cmds|
      invariant executed == Dispatched(cmds[..k])
    {
      assert cmds[..k + 1][..k] == cmds[..k];
      executed := executed + [RunJobCommand(cmds[k])];
      k := k + 1;
    }
    assert cmds[..k] == cmds;
  }

  /**
    `main`: reject an unknown pore before reading the list, otherwise plan
    the jobs and hand each command to `run_job`. Nothing is executed when
    planning raised.
   */
  method RunController(pore: string, listText: string, fs0: FileSizes) returns (o: Outcome, fs: FileSizes)
    ensures !PoreAccepted(pore) <==> o.Rejected?
    ensures o.Rejected? ==> fs == fs0
    ensures o.Ran? ==> (o.result, fs) == InitializeJobs(pore, Targets(PodDirs(listText)), fs0)
    ensures o.Ran? && o.result.Jobs? ==> o.executed == Dispatched(Commands(o.result.model, o.result.jobs))
    ensures o.Ran? && o.result.KeyError? ==> o.executed == []
  {
    if pore != "r10" && pore != "r9" {
      return Rejected, fs0;
    }
    var r;
    r, fs := InitializeJobsFromList(listText, pore, fs0);
    var executed: seq<string> := [];
    if r.Jobs? {
      executed := RunJobs(Commands(r.model, r.jobs));
    }
    o := Ran(r, executed);
  }
}
