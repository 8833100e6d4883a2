/**
  The incremental Guppy basecalling controller. It finds the sample
  directories of a running experiment whose raw reads are written to a
  plain `fast5` directory, keeps per sample the set of fast5 files
  already handed to a job and a job counter, rebuilds both from the
  manifests of earlier runs, turns the files that appeared since the
  last round into at most one Guppy job per sample, and keeps
  dispatching those jobs until a round finds nothing new.

  The experiment directory, the globs, the sample directories' listings
  and the manifests' contents are inputs; the jobs are returned instead
  of being run.
 */
module BaseCallController {
  import opened Wrappers
  import opened PyText
  import opened PosixPath

  type Path = string

  /** The batches concatenated in order. */
  function Flatten<T>(batches: seq<seq<T>>): seq<T>
  {
    if |batches| == 0 then [] else Flatten(batches[..|batches| - 1]) + batches[|batches| - 1]
  }

  lemma FlattenAppend<T>(batches: seq<seq<T>>, b: seq<T>)
    ensures Flatten(batches + [b]) == Flatten(batches) + b
  {
    assert (batches + [b])[..|batches|] == batches;
  }

  // ---------------------------------------------------------------
  // Discovery of the sample directories to basecall
  // ---------------------------------------------------------------

  /** One entry of the experiment directory and the paths its `fast5*` glob matched. */
  datatype SampleListing = SampleListing(sample: string, matches: seq<Path>)

  /** Some match has exactly the basename `name`. */
  predicate HasDirNamed(matches: seq<Path>, name: string)
  {
    HasNameFrom(matches, name, 0)
  }

  /** Some match from index `i` on has exactly the basename `name`. */
  predicate HasNameFrom(matches: seq<Path>, name: string, i: nat)
    decreases |matches| - i
  {
    i < |matches| && (Basename(matches[i]) == name || HasNameFrom(matches, name, i + 1))
  }

  /** A sample is passed over when its glob matched nothing or matched a `fast5_pass` directory. */
  predicate Ineligible(l: SampleListing)
  {
    |l.matches| == 0 || HasDirNamed(l.matches, "fast5_pass")
  }

  /** An eligible sample with a directory named exactly `fast5` adds the parent of its first match. */
  predicate Contributes(l: SampleListing)
  {
    !Ineligible(l) && HasDirNamed(l.matches, "fast5")
  }

  /**
    What visiting one sample does: pass over it, add a directory to the
    set, or add nothing and still compare the set's size with the target.
   */
  datatype Visit = PassedOver | Adds(dir: Path) | AddsNothing

  function VisitOf(l: SampleListing): Visit
  {
    if Ineligible(l) then PassedOver
    else if Contributes(l) then Adds(Dirname(l.matches[0]))
    else AddsNothing
  }

  /** The visits of a sequence of listings. */
  function Visits(ls: seq<SampleListing>): (vs: seq<Visit>)
    ensures |vs| == |ls|
  {
    seq(|ls|, k requires 0 <= k < |ls| => VisitOf(ls[k]))
  }

  lemma VisitsSnoc(ls: seq<SampleListing>, j: nat)
    requires j < |ls|
    ensures Visits(ls[..j + 1]) == Visits(ls[..j]) + [VisitOf(ls[j])]
  {
  }

  lemma VisitsAppend(a: seq<SampleListing>, b: seq<SampleListing>)
    ensures Visits(a + b) == Visits(a) + Visits(b)
  {
  }

  /** The set of directories collected after the visits, in order. */
  function Collected(vs: seq<Visit>): set<Path>
  {
    if |vs| == 0 then {}
    else Collected(vs[..|vs| - 1]) + (if vs[|vs| - 1].Adds? then {vs[|vs| - 1].dir} else {})
  }

  /**
    What discovery returns after the visits: the collected set at the
    first visit of a sample not passed over at which the set has reached
    `num`, or `None` while still waiting.
   */
  function Discover(vs: seq<Visit>, num: int): Option<set<Path>>
  {
    if |vs| == 0 then None
    else
      var prev := Discover(vs[..|vs| - 1], num);
      if prev.Some? then prev
      else if !vs[|vs| - 1].PassedOver? && |Collected(vs)| >= num then Some(Collected(vs))
      else None
  }

  /**
    The polling loop of discovery, one round per listing of the
    experiment directory; the set grows across rounds. It returns `None`
    when the given rounds run out before the set is large enough.
   */
  method GetSampleBasecallDirs(rounds: seq<seq<SampleListing>>, numBasecall: int)
    returns (r: Option<set<Path>>)
    ensures r == Discover(Visits(Flatten(rounds)), numBasecall)
  {
    var basecallSamples: set<Path> := {};
    var i := 0;
    while i < |rounds|
      invariant 0 <= i <= |rounds|
      invariant basecallSamples == Collected(Visits(Flatten(rounds[..i])))
      invariant Discover(Visits(Flatten(rounds[..i])), numBasecall) == None
    {
      assert Visits(Flatten(rounds[..i + 1])) == Visits(Flatten(rounds[..i])) + Visits(rounds[i]) by {
        assert rounds[..i + 1][..i] == rounds[..i];
        VisitsAppend(Flatten(rounds[..i]), rounds[i]);
      }
      r, basecallSamples := VisitSamples(Visits(Flatten(rounds[..i])), rounds[i], basecallSamples, numBasecall);
      if r.Some? {
        FlattenPrefix(rounds, i + 1);
        VisitsPrefix(Flatten(rounds[..i + 1]), Flatten(rounds));
        DiscoverPrefix(Visits(Flatten(rounds[..i + 1])), Visits(Flatten(rounds)), numBasecall);
        return;
      }
      i := i + 1;
    }
    assert rounds[..i] == rounds;
    r := None;
  }

  /** One round of discovery: the samples of one listing of the experiment directory. */
  method VisitSamples(ghost before: seq<Visit>, samples: seq<SampleListing>,
                      collected: set<Path>, numBasecall: int)
    returns (r: Option<set<Path>>, basecallSamples: set<Path>)
    requires collected == Collected(before) && Discover(before, numBasecall) == None
    ensures r == Discover(before + Visits(samples), numBasecall)
    ensures r == None ==> basecallSamples == Collected(before + Visits(samples))
  {
    basecallSamples := collected;
    ghost var seen := before;
    var j := 0;
    while j < |samples|
      invariant 0 <= j <= |samples|
      invariant seen == before + Visits(samples[..j])
      invariant basecallSamples == Collected(seen)
      invariant Discover(seen, numBasecall) == None
    {
      var l := samples[j];
      VisitsSnoc(samples, j);
      AppendAssoc(before, Visits(samples[..j]), [VisitOf(l)]);
      VisitStep(seen, VisitOf(l), numBasecall);
      seen := seen + [VisitOf(l)];
      var v := VisitOf(l);  // the two `any` tests of the glob's basenames
      if v.PassedOver? {
        j := j + 1;
        continue;
      } else if v.Adds? {
        basecallSamples := basecallSamples + {v.dir};
      }
      if |basecallSamples| >= numBasecall {
        FoundEarly(before, samples, j, numBasecall);
        return Some(basecallSamples), basecallSamples;
      }
      j := j + 1;
    }
    assert samples[..j] == samples;
    return None, basecallSamples;
  }

  /** Discovery that ends at the `j`-th sample of a round ignores the rest of the round. */
  lemma FoundEarly(before: seq<Visit>, samples: seq<SampleListing>, j: nat, num: int)
    requires j < |samples| && Discover(before + Visits(samples[..j + 1]), num).Some?
    ensures Discover(before + Visits(samples), num) == Discover(before + Visits(samples[..j + 1]), num)
  {
    assert samples == samples[..j + 1] + samples[j + 1..];
    VisitsAppend(samples[..j + 1], samples[j + 1..]);
    AppendAssoc(before, Visits(samples[..j + 1]), Visits(samples[j + 1..]));
    DiscoverPrefix(before + Visits(samples[..j + 1]), before + Visits(samples), num);
  }

  /** Concatenation is associative; stated generically so no element type is unfolded. */
  lemma AppendAssoc<T>(a: seq<T>, b: seq<T>, c: seq<T>)
    ensures a + (b + c) == (a + b) + c
  {
  }

  /** Visiting one more sample. */
  lemma VisitStep(vs: seq<Visit>, v: Visit, num: int)
    ensures Collected(vs + [v]) == Collected(vs) + (if v.Adds? then {v.dir} else {})
    ensures Discover(vs, num) == None ==>
      Discover(vs + [v], num) ==
        (if !v.PassedOver? && |Collected(vs + [v])| >= num then Some(Collected(vs + [v])) else None)
  {
    assert (vs + [v])[..|vs|] == vs;
  }

  /** The batches up to `n` concatenate to a prefix of all of them. */
  lemma {:induction false} FlattenPrefix<T>(batches: seq<seq<T>>, n: nat)
    requires n <= |batches|
    ensures Flatten(batches[..n]) <= Flatten(batches)
  {
    if n < |batches| {
      FlattenPrefix(batches[..|batches| - 1], n);
      assert batches[..|batches| - 1][..n] == batches[..n];
    } else {
      assert batches[..n] == batches;
    }
  }

  lemma VisitsPrefix(a: seq<SampleListing>, b: seq<SampleListing>)
    requires a <= b
    ensures Visits(a) <= Visits(b)
  {
  }

  /** Once discovery has returned, visiting more samples does not change what it returned. */
  lemma {:induction false} DiscoverPrefix(a: seq<Visit>, b: seq<Visit>, num: int)
    requires a <= b && Discover(a, num).Some?
    ensures Discover(b, num) == Discover(a, num)
    decreases |b|
  {
    if |b| > |a| {
      DiscoverPrefix(a, b[..|b| - 1], num);
    } else {
      assert a == b;
    }
  }

  /** A directory is collected exactly when some visit added it. */
  lemma {:induction false} CollectedVisits(vs: seq<Visit>, p: Path)
    ensures p in Collected(vs) <==> exists k :: 0 <= k < |vs| && vs[k] == Adds(p)
  {
    if |vs| > 0 {
      var init := vs[..|vs| - 1];
      CollectedVisits(init, p);
      if p in Collected(init) {
        var k :| 0 <= k < |init| && init[k] == Adds(p);
        assert vs[k] == init[k];
      } else if vs[|vs| - 1] == Adds(p) {
      } else {
        forall k | 0 <= k < |vs|
          ensures vs[k] != Adds(p)
        {
          if k < |init| {
            assert init[k] == vs[k];
          }
        }
      }
    }
  }

  /**
    A directory is collected exactly when some visited sample that is not
    passed over has a `fast5` directory and that sample's first match has
    it as parent: ineligibility takes precedence over a `fast5` match.
   */
  lemma CollectedMembers(ls: seq<SampleListing>, p: Path)
    ensures p in Collected(Visits(ls)) <==>
      exists k :: 0 <= k < |ls| && Contributes(ls[k]) && Dirname(ls[k].matches[0]) == p
  {
    CollectedVisits(Visits(ls), p);
    if p in Collected(Visits(ls)) {
      var k :| 0 <= k < |ls| && Visits(ls)[k] == Adds(p);
      assert VisitOf(ls[k]) == Adds(p);
    } else {
      forall k | 0 <= k < |ls| && Contributes(ls[k])
        ensures Dirname(ls[k].matches[0]) != p
      {
        assert Visits(ls)[k] == VisitOf(ls[k]);
      }
    }
  }

  /**
    The set grows by at most one directory per sample and is checked
    after every sample not passed over, so for `num >= 1` discovery
    returns a set of exactly `num` collected directories, and while it
    waits the set is still smaller than `num`.
   */
  lemma {:induction false} DiscoverySize(vs: seq<Visit>, num: int)
    requires num >= 1
    ensures Discover(vs, num) == None ==> |Collected(vs)| < num
    ensures Discover(vs, num).Some? ==>
      |Discover(vs, num).value| == num && Discover(vs, num).value <= Collected(vs)
  {
    if |vs| > 0 {
      DiscoverySize(vs[..|vs| - 1], num);
    }
  }

  // ---------------------------------------------------------------
  // Devices
  // ---------------------------------------------------------------

  /**
    The command `run_job` runs for its `callNumber`-th call within one pool
    worker: the second component of the identity of a fresh `Process`
    built inside the worker counts the processes that worker has built,
    so it is 1 on the worker's first job and 2 on its second. The first
    job gets GPU 0, the second GPU 1, and later jobs no device at all.
   */
  function WithGuppyDevice(command: string, callNumber: int): string
  {
    if callNumber == 1 then command + " --device CUDA:0"
    else if callNumber == 2 then command + " --device CUDA:1"
    else command
  }

  /**
    The command is kept as a prefix, only the first two calls add a
    device, and the two of them are sent to different devices.
   */
  lemma GuppyDevices(command: string, callNumber: int)
    ensures var r := WithGuppyDevice(command, callNumber);
      |r| >= |command| && r[..|command|] == command &&
      (r == command <==> callNumber != 1 && callNumber != 2)
    ensures WithGuppyDevice(command, 1) != WithGuppyDevice(command, 2)
  {
    var r := WithGuppyDevice(command, callNumber);
    assert callNumber == 1 || callNumber == 2 ==> |r| == |command| + 16;
    assert WithGuppyDevice(command, 1)[|command| + 15] == '0';
    assert WithGuppyDevice(command, 2)[|command| + 15] == '1';
  }

  /** The commands one pool worker runs for the jobs it is handed, in order. */
  function WorkerCommands(jobs: seq<string>): (cmds: seq<string>)
    ensures |cmds| == |jobs|
  {
    seq(|jobs|, k requires 0 <= k < |jobs| => WithGuppyDevice(jobs[k], k + 1))
  }

  /**
    Every worker sends its first job to GPU 0 and its second to GPU 1, and
    runs its later jobs with no device: two workers busy with their first
    jobs at once share GPU 0.
   */
  lemma WorkerDevices(jobs: seq<string>)
    ensures forall k :: 0 <= k < |jobs| ==>
      var cmd := WorkerCommands(jobs)[k];
      (k == 0 ==> cmd == jobs[k] + " --device CUDA:0") &&
      (k == 1 ==> cmd == jobs[k] + " --device CUDA:1") &&
      (k >= 2 ==> cmd == jobs[k])
  {
  }

  // ---------------------------------------------------------------
  // Jobs
  // ---------------------------------------------------------------

  /** A Guppy job: the sample directory, its job number and the fast5 files its manifest lists. */
  datatype GuppyJob = GuppyJob(sampleDir: Path, number: nat, files: set<string>)

  function Fast5Dir(sampleDir: Path): Path
  {
    sampleDir + "/fast5"
  }

  /** The manifest of job `k`: `<sample>/fastq/tmp/fast5_list_<k>.txt`. */
  function InputList(sampleDir: Path, k: nat): Path
  {
    sampleDir + "/fastq/tmp/fast5_list_" + NatToString(k) + ".txt"
  }

  /** The output directory of job `k`: `<sample>/fastq/guppy_job_<k>`. */
  function SaveDir(sampleDir: Path, k: nat): Path
  {
    sampleDir + "/fastq/" + "guppy_job_" + NatToString(k)
  }

  /**
    The command line of a job, as the adjacent literals concatenate:
    there is no space before `--input_path` nor before `--save_path`.
   */
  function GuppyCommand(job: GuppyJob): string
  {
    "guppy_basecaller --disable_pings" + "--input_path " + Fast5Dir(job.sampleDir)
    + " --input_file_list " + InputList(job.sampleDir, job.number)
    + "--save_path " + SaveDir(job.sampleDir, job.number)
    + " --min_qscore 7 " + "-c dna_r9.4.1_450bps_hac_prom.cfg " + "--compress_fastq -q 50000 "
  }

  /** Two strings that differ only in a middle part are equal only if the middle parts are. */
  lemma MiddleCancel(p: string, a: string, b: string, q: string)
    requires p + a + q == p + b + q
    ensures a == b
  {
    var s := p + a + q;
    assert |a| == |b|;
    assert s[|p|..|p| + |a|] == a;
    assert (p + b + q)[|p|..|p| + |b|] == b;
  }

  /** Different job numbers of one sample never share a manifest or an output directory. */
  lemma JobPathsDistinct(sampleDir: Path, m: nat, n: nat)
    requires m != n
    ensures InputList(sampleDir, m) != InputList(sampleDir, n)
    ensures SaveDir(sampleDir, m) != SaveDir(sampleDir, n)
  {
    NatToStringInjective(m, n);
    var p := sampleDir + "/fastq/tmp/fast5_list_";
    if InputList(sampleDir, m) == InputList(sampleDir, n) {
      MiddleCancel(p, NatToString(m), NatToString(n), ".txt");
    }
    var q := sampleDir + "/fastq/" + "guppy_job_";
    if SaveDir(sampleDir, m) == SaveDir(sampleDir, n) {
      MiddleCancel(q, NatToString(m), NatToString(n), "");
    }
  }

  // ---------------------------------------------------------------
  // The per-sample tables and one round of job building
  // ---------------------------------------------------------------

  /**
    The two per-sample tables, both `defaultdict`s: the fast5 files
    already listed in a job's manifest (empty by default) and the next
    job number (0 by default).
   */
  datatype Ledger = Ledger(called: map<Path, set<string>>, number: map<Path, nat>)
  {
    function CalledIn(d: Path): set<string>
    {
      if d in called then called[d] else {}
    }

    function NumberIn(d: Path): nat
    {
      if d in number then number[d] else 0
    }
  }

  /** The files present in a sample directory that no job has listed yet. */
  function NewFiles(l: Ledger, d: Path, listing: Path -> set<string>): set<string>
  {
    listing(d) - l.CalledIn(d)
  }

  /**
    One sample of a round: with new files it gets a job numbered with its
    counter, then its counter goes up by one and its called set becomes
    the files now present; without new files nothing happens.
   */
  function SampleStep(jobs: seq<GuppyJob>, l: Ledger, d: Path, listing: Path -> set<string>)
    : (seq<GuppyJob>, Ledger)
  {
    var newFiles := NewFiles(l, d, listing);
    if |newFiles| > 0 then
      (jobs + [GuppyJob(d, l.NumberIn(d), newFiles)],
       Ledger(l.called[d := listing(d)], l.number[d := l.NumberIn(d) + 1]))
    else (jobs, l)
  }

  /** One round over the sample directories in iteration order. */
  function Update(dirs: seq<Path>, l: Ledger, listing: Path -> set<string>): (seq<GuppyJob>, Ledger)
  {
    if |dirs| == 0 then ([], l)
    else
      var u := Update(dirs[..|dirs| - 1], l, listing);
      SampleStep(u.0, u.1, dirs[|dirs| - 1], listing)
  }

  predicate Distinct<T(==)>(s: seq<T>)
  {
    forall i, j :: 0 <= i < j < |s| ==> s[i] != s[j]
  }

  /** A round leaves the entries of a sample it does not list as they were. */
  lemma {:induction false} UpdateFrame(dirs: seq<Path>, l: Ledger, listing: Path -> set<string>, e: Path)
    requires e !in dirs
    ensures Update(dirs, l, listing).1.CalledIn(e) == l.CalledIn(e)
    ensures Update(dirs, l, listing).1.NumberIn(e) == l.NumberIn(e)
  {
    if |dirs| > 0 {
      var init := dirs[..|dirs| - 1];
      assert e !in init;
      UpdateFrame(init, l, listing, e);
    }
  }

  /** After a round every listed sample has all its present files marked as called. */
  lemma {:induction false} UpdateSettles(dirs: seq<Path>, l: Ledger, listing: Path -> set<string>, e: Path)
    requires e in dirs
    ensures listing(e) <= Update(dirs, l, listing).1.CalledIn(e)
  {
    var init := dirs[..|dirs| - 1];
    var d := dirs[|dirs| - 1];
    var u := Update(init, l, listing);
    if e != d {
      assert e in init;
      UpdateSettles(init, l, listing, e);
      assert Update(dirs, l, listing).1.CalledIn(e) == u.1.CalledIn(e);
    } else if |NewFiles(u.1, d, listing)| == 0 {
      assert NewFiles(u.1, d, listing) == {};
    }
  }

  /** A round in which no listed sample has new files produces no job and changes nothing. */
  lemma {:induction false} NothingNew(dirs: seq<Path>, l: Ledger, listing: Path -> set<string>)
    requires forall d :: d in dirs ==> NewFiles(l, d, listing) == {}
    ensures Update(dirs, l, listing) == ([], l)
  {
    if |dirs| > 0 {
      var init := dirs[..|dirs| - 1];
      assert forall d :: d in init ==> d in dirs;
      NothingNew(init, l, listing);
      assert NewFiles(l, dirs[|dirs| - 1], listing) == {};
    }
  }

  /** A second round right after the first, over the same files, produces no job. */
  lemma UpdateIdempotent(dirs: seq<Path>, l: Ledger, listing: Path -> set<string>)
    ensures var m := Update(dirs, l, listing).1; Update(dirs, m, listing) == ([], m)
  {
    var m := Update(dirs, l, listing).1;
    forall d | d in dirs
      ensures NewFiles(m, d, listing) == {}
    {
      UpdateSettles(dirs, l, listing, d);
    }
    NothingNew(dirs, m, listing);
  }

  /** Every job of a round belongs to a listed sample; the jobs before the last sample's are kept. */
  lemma UpdateJobsPrefix(dirs: seq<Path>, l: Ledger, listing: Path -> set<string>)
    requires |dirs| > 0
    ensures var js := Update(dirs[..|dirs| - 1], l, listing).0; var jobs := Update(dirs, l, listing).0;
      |js| <= |jobs| <= |js| + 1 && jobs[..|js|] == js &&
      (|jobs| > |js| ==> jobs[|js|].sampleDir == dirs[|dirs| - 1])
    ensures var u := Update(dirs[..|dirs| - 1], l, listing).1; var d := dirs[|dirs| - 1];
      |Update(dirs, l, listing).0| > |Update(dirs[..|dirs| - 1], l, listing).0| ==>
        Update(dirs, l, listing).0[|Update(dirs[..|dirs| - 1], l, listing).0|] ==
          GuppyJob(d, u.NumberIn(d), NewFiles(u, d, listing))
  {
  }

  /**
    For an iteration order without repetitions (a set's), the `k`-th job
    of a round belongs to a listed sample that had new files, lists
    exactly those files, and carries the sample's number before the round.
   */
  lemma {:induction false} UpdateJobAt(dirs: seq<Path>, l: Ledger, listing: Path -> set<string>, k: nat)
    requires Distinct(dirs) && k < |Update(dirs, l, listing).0|
    ensures var job := Update(dirs, l, listing).0[k];
      job.sampleDir in dirs && job.files != {} &&
      job.files == NewFiles(l, job.sampleDir, listing) &&
      job.number == l.NumberIn(job.sampleDir)
  {
    var init := dirs[..|dirs| - 1];
    var d := dirs[|dirs| - 1];
    var js := Update(init, l, listing).0;
    UpdateJobsPrefix(dirs, l, listing);
    assert Distinct(init);
    if k < |js| {
      UpdateJobAt(init, l, listing, k);
      assert Update(dirs, l, listing).0[k] == js[k];
    } else {
      assert d !in init;
      UpdateFrame(init, l, listing, d);
    }
  }

  /** For such an order, a round never gives two jobs to one sample. */
  lemma {:induction false} UpdateOneJobPerSample(dirs: seq<Path>, l: Ledger, listing: Path -> set<string>,
                                                 i: nat, j: nat)
    requires Distinct(dirs) && i < j < |Update(dirs, l, listing).0|
    ensures Update(dirs, l, listing).0[i].sampleDir != Update(dirs, l, listing).0[j].sampleDir
  {
    var init := dirs[..|dirs| - 1];
    var d := dirs[|dirs| - 1];
    var js := Update(init, l, listing).0;
    UpdateJobsPrefix(dirs, l, listing);
    assert Distinct(init);
    if j < |js| {
      UpdateOneJobPerSample(init, l, listing, i, j);
    } else {
      UpdateJobAt(init, l, listing, i);
      assert d !in init;
    }
  }

  /** For such an order, every listed sample with new files gets a job in the round. */
  lemma {:induction false} UpdateJobFor(dirs: seq<Path>, l: Ledger, listing: Path -> set<string>, e: Path)
    requires Distinct(dirs) && e in dirs && NewFiles(l, e, listing) != {}
    ensures exists k :: 0 <= k < |Update(dirs, l, listing).0| && Update(dirs, l, listing).0[k].sampleDir == e
  {
    var init := dirs[..|dirs| - 1];
    var d := dirs[|dirs| - 1];
    var js := Update(init, l, listing).0;
    UpdateJobsPrefix(dirs, l, listing);
    assert Distinct(init);
    if e != d {
      assert e in init;
      UpdateJobFor(init, l, listing, e);
      var k :| 0 <= k < |js| && js[k].sampleDir == e;
      assert Update(dirs, l, listing).0[k] == js[k];
    } else {
      assert d !in init;
      UpdateFrame(init, l, listing, d);
      assert NewFiles(Update(init, l, listing).1, d, listing) != {};
    }
  }

  /**
    For such an order, the tables after a round: exactly the samples that
    had new files have their called set replaced by the files present and
    their counter raised by one.
   */
  lemma {:induction false} UpdateLedger(dirs: seq<Path>, l: Ledger, listing: Path -> set<string>, e: Path)
    requires Distinct(dirs)
    ensures var m := Update(dirs, l, listing).1; var renewed := e in dirs && NewFiles(l, e, listing) != {};
      m.CalledIn(e) == (if renewed then listing(e) else l.CalledIn(e)) &&
      m.NumberIn(e) == (if renewed then l.NumberIn(e) + 1 else l.NumberIn(e))
  {
    if |dirs| > 0 {
      var init := dirs[..|dirs| - 1];
      var d := dirs[|dirs| - 1];
      var u := Update(init, l, listing);
      assert Distinct(init);
      assert d !in init;
      assert e in dirs <==> e in init || e == d;
      SampleStepLedger(u.0, u.1, d, listing, e);
      if e == d {
        UpdateFrame(init, l, listing, d);
        assert NewFiles(u.1, d, listing) == NewFiles(l, d, listing);
      } else {
        UpdateLedger(init, l, listing, e);
      }
    }
  }

  /** One sample's step renews the entries of that sample alone, and only when it had new files. */
  lemma SampleStepLedger(jobs: seq<GuppyJob>, l: Ledger, d: Path, listing: Path -> set<string>, e: Path)
    ensures var m := SampleStep(jobs, l, d, listing).1; var renewed := e == d && NewFiles(l, d, listing) != {};
      m.CalledIn(e) == (if renewed then listing(e) else l.CalledIn(e)) &&
      m.NumberIn(e) == (if renewed then l.NumberIn(e) + 1 else l.NumberIn(e))
  {
  }

  /**
    Jobs carry, per sample, strictly increasing numbers, all below the
    sample's current counter.
   */
  predicate Numbered(jobs: seq<GuppyJob>, l: Ledger)
  {
    (forall a, b :: 0 <= a < b < |jobs| && jobs[a].sampleDir == jobs[b].sampleDir ==>
       jobs[a].number < jobs[b].number) &&
    (forall a :: 0 <= a < |jobs| ==> jobs[a].number < l.NumberIn(jobs[a].sampleDir))
  }

  /** One sample's step keeps the jobs numbered. */
  lemma SampleStepKeepsNumbered(jobs: seq<GuppyJob>, l: Ledger, d: Path, listing: Path -> set<string>)
    requires Numbered(jobs, l)
    ensures Numbered(SampleStep(jobs, l, d, listing).0, SampleStep(jobs, l, d, listing).1)
  {
    var r := SampleStep(jobs, l, d, listing);
    if |NewFiles(l, d, listing)| > 0 {
      forall a | 0 <= a < |r.0|
        ensures r.0[a].number < r.1.NumberIn(r.0[a].sampleDir)
      {
        if a < |jobs| {
          assert r.0[a] == jobs[a];
        }
      }
    }
  }

  /** Jobs already produced pass through a sample's step unchanged. */
  lemma SampleStepAppend(a: seq<GuppyJob>, b: seq<GuppyJob>, l: Ledger, d: Path, listing: Path -> set<string>)
    ensures SampleStep(a + b, l, d, listing) == (a + SampleStep(b, l, d, listing).0, SampleStep(b, l, d, listing).1)
  {
    if |NewFiles(l, d, listing)| > 0 {
      AppendAssoc(a, b, [GuppyJob(d, l.NumberIn(d), NewFiles(l, d, listing))]);
    }
  }

  /**
    A round keeps the jobs produced so far numbered: whatever the order
    of the samples, no two jobs of a sample ever get the same number.
   */
  lemma {:induction false} UpdateKeepsNumbered(jobs: seq<GuppyJob>, dirs: seq<Path>, l: Ledger,
                                               listing: Path -> set<string>)
    requires Numbered(jobs, l)
    ensures Numbered(jobs + Update(dirs, l, listing).0, Update(dirs, l, listing).1)
  {
    if |dirs| > 0 {
      var init := dirs[..|dirs| - 1];
      var d := dirs[|dirs| - 1];
      UpdateKeepsNumbered(jobs, init, l, listing);
      var u := Update(init, l, listing);
      SampleStepKeepsNumbered(jobs + u.0, u.1, d, listing);
      SampleStepAppend(jobs, u.0, u.1, d, listing);
    } else {
      assert jobs + [] == jobs;
    }
  }

  /** Jobs numbered this way never share a manifest or an output directory within a sample. */
  lemma NumberedPathsDistinct(jobs: seq<GuppyJob>, l: Ledger, a: nat, b: nat)
    requires Numbered(jobs, l) && a < b < |jobs| && jobs[a].sampleDir == jobs[b].sampleDir
    ensures InputList(jobs[a].sampleDir, jobs[a].number) != InputList(jobs[b].sampleDir, jobs[b].number)
    ensures SaveDir(jobs[a].sampleDir, jobs[a].number) != SaveDir(jobs[b].sampleDir, jobs[b].number)
  {
    JobPathsDistinct(jobs[a].sampleDir, jobs[a].number, jobs[b].number);
  }

  /** The commands `update_job_list` returns, in job order. */
  function Commands(jobs: seq<GuppyJob>): (cmds: seq<string>)
    ensures |cmds| == |jobs|
  {
    seq(|jobs|, k requires 0 <= k < |jobs| => GuppyCommand(jobs[k]))
  }

  // ---------------------------------------------------------------
  // Recovery from the manifests of an earlier run
  // ---------------------------------------------------------------

  function TmpDir(sampleDir: Path): Path
  {
    sampleDir + "/fastq/tmp"
  }

  function ManifestPath(sampleDir: Path, name: string): Path
  {
    TmpDir(sampleDir) + "/" + name
  }

  /** The names `line.strip()` gives for the lines of a file, in order. */
  function StrippedLines(lines: seq<string>): (names: seq<string>)
    ensures |names| == |lines|
  {
    seq(|lines|, k requires 0 <= k < |lines| => Strip(lines[k], Whitespace))
  }

  /** The file names a manifest holding `text` lists, one per line. */
  function ManifestNames(text: string): seq<string>
  {
    StrippedLines(Lines(text))
  }

  /** Adding names to a sample's called set one at a time. */
  function AddNames(d: Path, names: seq<string>, l: Ledger): Ledger
  {
    if |names| == 0 then l
    else
      AddName(d, names[|names| - 1], AddNames(d, names[..|names| - 1], l))
  }

  /** One name added to the called set of `d`. */
  function AddName(d: Path, name: string, l: Ledger): Ledger
  {
    Ledger(l.called[d := l.CalledIn(d) + {name}], l.number)
  }

  lemma AddNamesStep(d: Path, names: seq<string>, k: nat, l: Ledger)
    requires k < |names|
    ensures AddNames(d, names[..k + 1], l) == AddName(d, names[k], AddNames(d, names[..k], l))
  {
    assert names[..k + 1][..k] == names[..k];
  }

  /** What reading a manifest at a path yields, for files with the given contents. */
  function ReadManifest(content: Path -> string): Path -> seq<string>
  {
    p => ManifestNames(content(p))
  }

  /**
    Reading the manifests of a sample in order; `listed` gives the names
    each manifest lists, and each manifest raises the counter by one.
   */
  function AddManifests(d: Path, names: seq<string>, l: Ledger, listed: Path -> seq<string>): Ledger
  {
    if |names| == 0 then l
    else
      var m := AddManifests(d, names[..|names| - 1], l, listed);
      Bump(d, AddNames(d, listed(ManifestPath(d, names[|names| - 1])), m))
  }

  /** The counter of `d` raised by one, the called sets left alone. */
  function Bump(d: Path, a: Ledger): Ledger
  {
    Ledger(a.called, a.number[d := a.NumberIn(d) + 1])
  }

  /** Reading one more manifest of a sample, spelled out for the loop that does it. */
  lemma AddManifestsStep(d: Path, names: seq<string>, j: nat, l: Ledger, content: Path -> string)
    requires j < |names|
    ensures AddManifests(d, names[..j + 1], l, ReadManifest(content)) ==
      Bump(d, AddNames(d, ManifestNames(content(ManifestPath(d, names[j]))),
                       AddManifests(d, names[..j], l, ReadManifest(content))))
  {
    assert names[..j + 1][..j] == names[..j];
  }

  /**
    Recovery over the sample directories in order, given the directories
    that exist with their listings (`tmp`) and the files' contents. The
    flag says that recovery stopped at a sample without a `fastq/tmp`
    directory; nothing after that sample is read.
   */
  function Recover(dirs: seq<Path>, l: Ledger, tmp: map<Path, seq<string>>, listed: Path -> seq<string>): (Ledger, bool)
  {
    if |dirs| == 0 then (l, false)
    else
      var u := Recover(dirs[..|dirs| - 1], l, tmp, listed);
      var d := dirs[|dirs| - 1];
      if u.1 then u
      else if TmpDir(d) !in tmp then (u.0, true)
      else (AddManifests(d, tmp[TmpDir(d)], u.0, listed), false)
  }

  /** Names are added to their own sample only, and the counters do not move. */
  lemma {:induction false} AddNamesAt(d: Path, names: seq<string>, l: Ledger, e: Path, x: string)
    ensures AddNames(d, names, l).number == l.number
    ensures e != d ==> AddNames(d, names, l).CalledIn(e) == l.CalledIn(e)
    ensures x in AddNames(d, names, l).CalledIn(d) <==> x in l.CalledIn(d) || x in names
  {
    if |names| > 0 {
      var init := names[..|names| - 1];
      AddNamesAt(d, init, l, e, x);
      assert names == init + [names[|names| - 1]];
    }
  }

  /**
    Recovering a sample from its manifests adds every name each
    manifest lists to its called set and raises its counter by one per
    manifest; other samples are untouched.
   */
  lemma {:induction false} AddManifestsAt(d: Path, names: seq<string>, l: Ledger, listed: Path -> seq<string>,
                                          e: Path, x: string)
    ensures AddManifests(d, names, l, listed).NumberIn(d) == l.NumberIn(d) + |names|
    ensures e != d ==>
      AddManifests(d, names, l, listed).CalledIn(e) == l.CalledIn(e) &&
      AddManifests(d, names, l, listed).NumberIn(e) == l.NumberIn(e)
    ensures x in AddManifests(d, names, l, listed).CalledIn(d) <==>
      x in l.CalledIn(d) ||
      exists k :: 0 <= k < |names| && x in listed(ManifestPath(d, names[k]))
  {
    if |names| > 0 {
      var init := names[..|names| - 1];
      var last := names[|names| - 1];
      AddManifestsAt(d, init, l, listed, e, x);
      var m := AddManifests(d, init, l, listed);
      AddNamesAt(d, listed(ManifestPath(d, last)), m, e, x);
      if x in listed(ManifestPath(d, last)) {
        assert names[|names| - 1] == last;
      }
      if exists k :: 0 <= k < |init| && x in listed(ManifestPath(d, init[k])) {
        var k :| 0 <= k < |init| && x in listed(ManifestPath(d, init[k]));
        assert names[k] == init[k];
      }
      if exists k :: 0 <= k < |names| && x in listed(ManifestPath(d, names[k])) {
        var k :| 0 <= k < |names| && x in listed(ManifestPath(d, names[k]));
        if k < |init| {
          assert init[k] == names[k];
        }
      }
    }
  }

  /** Once recovery has stopped, later samples change nothing. */
  lemma {:induction false} RecoverStaysStopped(dirs: seq<Path>, n: nat, l: Ledger,
                                               tmp: map<Path, seq<string>>, listed: Path -> seq<string>)
    requires n <= |dirs| && Recover(dirs[..n], l, tmp, listed).1
    ensures Recover(dirs, l, tmp, listed) == Recover(dirs[..n], l, tmp, listed)
    decreases |dirs|
  {
    if n < |dirs| {
      var init := dirs[..|dirs| - 1];
      assert init[..n] == dirs[..n];
      RecoverStaysStopped(init, n, l, tmp, listed);
    } else {
      assert dirs[..n] == dirs;
    }
  }

  /**
    A sample without a `fastq/tmp` directory ends recovery: the tables
    are those left by the samples before it, whatever follows.
   */
  lemma RecoverStopsAt(dirs: seq<Path>, k: nat, l: Ledger, tmp: map<Path, seq<string>>, listed: Path -> seq<string>)
    requires k < |dirs| && TmpDir(dirs[k]) !in tmp
    ensures Recover(dirs, l, tmp, listed).0 == Recover(dirs[..k], l, tmp, listed).0
    ensures Recover(dirs, l, tmp, listed).1
  {
    assert dirs[..k + 1][..k] == dirs[..k];
    RecoverStaysStopped(dirs, k + 1, l, tmp, listed);
  }

  /**
    A manifest as a round writes it (the names joined by newlines, one
    more newline at the end) is read back as exactly its names, in order,
    for names without a newline or surrounding whitespace.
   */
  lemma ManifestRoundTrip(names: seq<string>)
    requires |names| >= 1
    requires forall k :: 0 <= k < |names| ==> '\n' !in names[k] && '\r' !in names[k] && Trimmed(names[k], Whitespace)
    ensures ManifestNames(PrintedLines(names)) == names
  {
    LinesOfPrinted(names);
    var lines := Lines(PrintedLines(names));
    assert AllIn("\n", Whitespace);
    forall k | 0 <= k < |names|
      ensures Strip(lines[k], Whitespace) == names[k]
    {
      StripSuffix(names[k], "\n", Whitespace);
    }
  }

  // ---------------------------------------------------------------
  // The rounds of `main`
  // ---------------------------------------------------------------

  /**
    Where `main` stands between two calls of `update_job_list`: waiting
    for a first job list of at least `num_basecall_samples` jobs, draining
    (remembering whether the previous round was empty), or done.
   */
  datatype Phase = WarmingUp | Draining(afterEmpty: bool) | Finished

  /** Before the first round: with a target below 1 neither loop of `main` runs. */
  function StartPhase(num: int): Phase
  {
    if num <= 0 then Finished else WarmingUp
  }

  /** The jobs a round built are handed to the pool. */
  predicate Dispatches(p: Phase, num: int, jobs: seq<GuppyJob>)
  {
    (p.WarmingUp? && |jobs| >= num) || (p.Draining? && |jobs| > 0)
  }

  /**
    The phase after a round that built `jobs`: the warm-up ends with a
    list large enough, and draining ends at the second empty round in a
    row (the one after the ten-minute wait).
   */
  function NextPhase(p: Phase, num: int, jobs: seq<GuppyJob>): Phase
  {
    match p
    case WarmingUp => if |jobs| >= num then Draining(false) else WarmingUp
    case Draining(afterEmpty) => if |jobs| > 0 then Draining(false) else if afterEmpty then Finished else Draining(true)
    case Finished => Finished
  }

  /**
    The job lists of successive calls of `update_job_list`, one listing
    of the sample directories per call, and the tables after the last.
   */
  function Rounds(dirs: seq<Path>, l: Ledger, listings: seq<Path -> set<string>>): (r: (seq<seq<GuppyJob>>, Ledger))
    ensures |r.0| == |listings|
  {
    if |listings| == 0 then ([], l)
    else
      var before := Rounds(dirs, l, listings[..|listings| - 1]);
      var u := Update(dirs, before.1, listings[|listings| - 1]);
      (before.0 + [u.0], u.1)
  }

  /** The rounds over the first listings are the first rounds. */
  lemma {:induction false} RoundsPrefix(dirs: seq<Path>, l: Ledger, listings: seq<Path -> set<string>>, n: nat)
    requires n <= |listings|
    ensures Rounds(dirs, l, listings).0[..n] == Rounds(dirs, l, listings[..n]).0
    decreases |listings|
  {
    if n < |listings| {
      var init := listings[..|listings| - 1];
      assert init[..n] == listings[..n];
      RoundsPrefix(dirs, l, init, n);
      assert Rounds(dirs, l, listings).0[..n] == Rounds(dirs, l, init).0[..n];
    } else {
      assert listings[..n] == listings;
    }
  }

  /** Where the rounds stand: the job lists handed to the pool, the phase, and how many rounds were run. */
  datatype Progress = Progress(batches: seq<seq<GuppyJob>>, phase: Phase, used: nat)

  /**
    Running the rounds that build `jobLists` from phase `p`: each list
    is handed to the pool or dropped, and once done no further round runs.
   */
  function Proceed(num: int, p: Phase, jobLists: seq<seq<GuppyJob>>): (r: Progress)
    ensures r.used <= |jobLists|
  {
    if |jobLists| == 0 then Progress([], p, 0)
    else Advance(num, Proceed(num, p, jobLists[..|jobLists| - 1]), jobLists[|jobLists| - 1])
  }

  /** One more round that built `jobs`: handed to the pool or dropped, unless the rounds are done. */
  function Advance(num: int, before: Progress, jobs: seq<GuppyJob>): (r: Progress)
    ensures r.used <= before.used + 1
  {
    if before.phase.Finished? then before
    else
      Progress(before.batches + (if Dispatches(before.phase, num, jobs) then [jobs] else []),
               NextPhase(before.phase, num, jobs), before.used + 1)
  }

  /**
    While draining, a round that built jobs hands them to the pool and
    keeps draining; one that built none marks the rounds as just emptied.
   */
  lemma DrainAdvance(num: int, sent: seq<seq<GuppyJob>>, jobs: seq<GuppyJob>, i: nat)
    ensures Advance(num, Progress(sent, Draining(false), i), jobs) ==
      if |jobs| > 0 then Progress(sent + [jobs], Draining(false), i + 1) else Progress(sent, Draining(true), i + 1)
  {
    if |jobs| == 0 {
      assert sent + [] == sent;
    }
  }

  /** Once done, later rounds change nothing. */
  lemma {:induction false} ProceedStaysFinished(num: int, p: Phase, jobLists: seq<seq<GuppyJob>>, n: nat)
    requires n <= |jobLists| && Proceed(num, p, jobLists[..n]).phase.Finished?
    ensures Proceed(num, p, jobLists) == Proceed(num, p, jobLists[..n])
    decreases |jobLists|
  {
    if n < |jobLists| {
      var init := jobLists[..|jobLists| - 1];
      assert init[..n] == jobLists[..n];
      ProceedStaysFinished(num, p, init, n);
    } else {
      assert jobLists[..n] == jobLists;
    }
  }

  /** Before it is done, every round has been run. */
  lemma {:induction false} ProceedUsesAll(num: int, p: Phase, jobLists: seq<seq<GuppyJob>>)
    requires !Proceed(num, p, jobLists).phase.Finished?
    ensures Proceed(num, p, jobLists).used == |jobLists|
  {
    if |jobLists| > 0 {
      ProceedUsesAll(num, p, jobLists[..|jobLists| - 1]);
    }
  }

  /**
    After the first `i` rounds, which built `built` and left the tables
    at `l`, the rounds of `main` stand at `p`.
   */
  ghost predicate Reached(dirs: seq<Path>, num: int, l0: Ledger, listings: seq<Path -> set<string>>,
                          i: nat, built: seq<seq<GuppyJob>>, l: Ledger, p: Progress)
  {
    i <= |listings| && (built, l) == Rounds(dirs, l0, listings[..i]) && Proceed(num, StartPhase(num), built) == p
  }

  /** The next round: `update_job_list` over the next listing, then one step of the rounds. */
  lemma ReachedStep(dirs: seq<Path>, num: int, l0: Ledger, listings: seq<Path -> set<string>>,
                    i: nat, built: seq<seq<GuppyJob>>, l: Ledger, p: Progress)
    requires i < |listings| && Reached(dirs, num, l0, listings, i, built, l, p)
    ensures var u := Update(dirs, l, listings[i]);
      Reached(dirs, num, l0, listings, i + 1, built + [u.0], u.1, Advance(num, p, u.0))
  {
    var u := Update(dirs, l, listings[i]);
    RoundsSnoc(dirs, l0, listings[..i], listings[i]);
    assert listings[..i] + [listings[i]] == listings[..i + 1];
    ProceedSnoc(num, StartPhase(num), built, u.0);
  }

  /**
    Where the rounds stand once they are done or the listings have run
    out: what was reached after the first `i` rounds is the outcome over
    all listings.
   */
  lemma Settled(dirs: seq<Path>, num: int, l0: Ledger, listings: seq<Path -> set<string>>,
                i: nat, built: seq<seq<GuppyJob>>, l: Ledger, p: Progress)
    requires Reached(dirs, num, l0, listings, i, built, l, p) && p.used == i
    requires i == |listings| || p.phase.Finished?
    ensures Proceed(num, StartPhase(num), Rounds(dirs, l0, listings).0) == p
    ensures l == Rounds(dirs, l0, listings[..p.used]).1
  {
    RoundsPrefix(dirs, l0, listings, i);
    if i == |listings| {
      assert listings[..i] == listings;
    } else {
      ProceedStaysFinished(num, StartPhase(num), Rounds(dirs, l0, listings).0, i);
    }
  }

  /**
    Every job list handed to the pool is one a round built, and holds at
    least one job when the target is at least 1.
   */
  lemma {:induction false} ProceedBatches(num: int, p: Phase, jobLists: seq<seq<GuppyJob>>, k: nat)
    requires k < |Proceed(num, p, jobLists).batches|
    ensures Proceed(num, p, jobLists).batches[k] in jobLists
    ensures num >= 1 ==> Proceed(num, p, jobLists).batches[k] != []
  {
    var init := jobLists[..|jobLists| - 1];
    var before := Proceed(num, p, init);
    if k < |before.batches| {
      ProceedBatches(num, p, init, k);
      assert Proceed(num, p, jobLists).batches[k] == before.batches[k];
    }
  }

  /** A round that builds no job leaves the tables as they were. */
  lemma {:induction false} UpdateEmptyKeeps(dirs: seq<Path>, l: Ledger, listing: Path -> set<string>)
    requires Update(dirs, l, listing).0 == []
    ensures Update(dirs, l, listing).1 == l
  {
    if |dirs| > 0 {
      var init := dirs[..|dirs| - 1];
      UpdateJobsPrefix(dirs, l, listing);
      UpdateEmptyKeeps(init, l, listing);
    }
  }

  /**
    Over an unchanging listing, the second round finds nothing new, and
    nor does any round after it.
   */
  lemma QuietRounds(dirs: seq<Path>, l: Ledger, listing: Path -> set<string>)
    ensures var r := Rounds(dirs, l, [listing, listing, listing]).0; r[1] == [] && r[2] == []
  {
    var u := Update(dirs, l, listing);
    UpdateIdempotent(dirs, l, listing);
    RoundsSnoc(dirs, l, [], listing);
    assert [] + [listing] == [listing];
    RoundsSnoc(dirs, l, [listing], listing);
    assert [listing] + [listing] == [listing, listing];
    RoundsSnoc(dirs, l, [listing, listing], listing);
    assert [listing, listing] + [listing] == [listing, listing, listing];
  }

  /** One more sample directory adds that sample's step at the end of the round. */
  lemma UpdateSnoc(dirs: seq<Path>, d: Path, l: Ledger, listing: Path -> set<string>)
    ensures var u := Update(dirs, l, listing); Update(dirs + [d], l, listing) == SampleStep(u.0, u.1, d, listing)
  {
    var all := dirs + [d];
    assert all[..|all| - 1] == dirs;
  }

  /** One more listing adds one more round, run on the tables the earlier rounds left. */
  lemma RoundsSnoc(dirs: seq<Path>, l: Ledger, listings: seq<Path -> set<string>>, listing: Path -> set<string>)
    ensures var before := Rounds(dirs, l, listings); var u := Update(dirs, before.1, listing);
      Rounds(dirs, l, listings + [listing]) == (before.0 + [u.0], u.1)
  {
    var all := listings + [listing];
    assert all[..|all| - 1] == listings;
    assert all[|all| - 1] == listing;
  }

  /**
    Once the sample directories stop growing, `main` ends: while draining,
    three rounds over the same listing finish it.
   */
  lemma EndsWhenQuiet(dirs: seq<Path>, num: int, b: bool, l: Ledger, listing: Path -> set<string>)
    ensures Proceed(num, Draining(b), Rounds(dirs, l, [listing, listing, listing]).0).phase == Finished
  {
    var r := Rounds(dirs, l, [listing, listing, listing]).0;
    QuietRounds(dirs, l, listing);
    var p := Draining(b);
    ProceedSnoc(num, p, [], r[0]);
    assert [] + [r[0]] == [r[0]];
    ProceedSnoc(num, p, [r[0]], []);
    assert [r[0]] + [[]] == [r[0], []];
    ProceedSnoc(num, p, [r[0], []], []);
    assert [r[0], []] + [[]] == r;
  }

  /** One more round steps the phase once, unless it is done. */
  lemma ProceedSnoc(num: int, p: Phase, jobLists: seq<seq<GuppyJob>>, jobs: seq<GuppyJob>)
    ensures Proceed(num, p, jobLists + [jobs]) == Advance(num, Proceed(num, p, jobLists), jobs)
  {
    var all := jobLists + [jobs];
    assert all[..|all| - 1] == jobLists;
  }

  /** The example of `WarmUpLosesFiles`: at first only sample `A` has a file ... */
  function FirstListing(): Path -> set<string>
  {
    d => if d == "A" then {"a1"} else {}
  }

  /** ... then `A` has a second and `B` its first. */
  function SecondListing(): Path -> set<string>
  {
    d => if d == "A" then {"a1", "a2"} else {"b1"}
  }

  lemma WarmUpFirstRoundA()
    ensures Update(["A"], Ledger(map[], map[]), FirstListing()) ==
      ([GuppyJob("A", 0, {"a1"})], Ledger(map["A" := {"a1"}], map["A" := 1]))
  {
    var l0, first := Ledger(map[], map[]), FirstListing();
    assert [] + ["A"] == ["A"];
    UpdateSnoc([], "A", l0, first);
    assert Update([], l0, first) == ([], l0);
    assert first("A") == {"a1"} && l0.CalledIn("A") == {};
    assert |NewFiles(l0, "A", first)| == 1;
    var step := SampleStep([], l0, "A", first);
    assert step.0 == [GuppyJob("A", 0, {"a1"})];
    assert step.1.called == map["A" := {"a1"}] && step.1.number == map["A" := 1];
  }

  /** In the first round only `A` gets a job. */
  lemma WarmUpFirstRound()
    ensures Update(["A", "B"], Ledger(map[], map[]), FirstListing()) ==
      ([GuppyJob("A", 0, {"a1"})], Ledger(map["A" := {"a1"}], map["A" := 1]))
  {
    var l1, first := Ledger(map["A" := {"a1"}], map["A" := 1]), FirstListing();
    assert ["A"] + ["B"] == ["A", "B"];
    UpdateSnoc(["A"], "B", Ledger(map[], map[]), first);
    WarmUpFirstRoundA();
    assert first("B") == {};
    assert NewFiles(l1, "B", first) == {};
  }

  lemma WarmUpSecondRoundA()
    ensures Update(["A"], Ledger(map["A" := {"a1"}], map["A" := 1]), SecondListing()) ==
      ([GuppyJob("A", 1, {"a2"})], Ledger(map["A" := {"a1", "a2"}], map["A" := 2]))
  {
    var l1, second := Ledger(map["A" := {"a1"}], map["A" := 1]), SecondListing();
    assert [] + ["A"] == ["A"];
    UpdateSnoc([], "A", l1, second);
    assert Update([], l1, second) == ([], l1);
    assert second("A") == {"a1", "a2"} && l1.CalledIn("A") == {"a1"};
    assert NewFiles(l1, "A", second) == {"a2"};
    assert |NewFiles(l1, "A", second)| == 1;
    var step := SampleStep([], l1, "A", second);
    assert step.0 == [GuppyJob("A", 1, {"a2"})];
    assert step.1.called == map["A" := {"a1", "a2"}] && step.1.number == map["A" := 2];
  }

  /** In the second round both samples get a job. */
  lemma WarmUpSecondRound()
    ensures Update(["A", "B"], Ledger(map["A" := {"a1"}], map["A" := 1]), SecondListing()) ==
      ([GuppyJob("A", 1, {"a2"}), GuppyJob("B", 0, {"b1"})],
       Ledger(map["A" := {"a1", "a2"}, "B" := {"b1"}], map["A" := 2, "B" := 1]))
  {
    var l2, second := Ledger(map["A" := {"a1", "a2"}], map["A" := 2]), SecondListing();
    assert ["A"] + ["B"] == ["A", "B"];
    UpdateSnoc(["A"], "B", Ledger(map["A" := {"a1"}], map["A" := 1]), second);
    WarmUpSecondRoundA();
    assert second("B") == {"b1"} && l2.CalledIn("B") == {};
    assert |NewFiles(l2, "B", second)| == 1;
    var step := SampleStep([GuppyJob("A", 1, {"a2"})], l2, "B", second);
    assert step.0 == [GuppyJob("A", 1, {"a2"}), GuppyJob("B", 0, {"b1"})];
    assert step.1.called == map["A" := {"a1", "a2"}, "B" := {"b1"}];
    assert step.1.number == map["A" := 2, "B" := 1];
  }

  /**
    During the warm-up a job list shorter than the target is dropped: if
    the first round builds such a list and the second a long enough one,
    only the second is handed to the pool, although the first round has
    already marked its files as called.
   */
  lemma {:induction false} WarmUpDropsShortList(dirs: seq<Path>, num: int, l0: Ledger,
                                                first: Path -> set<string>, second: Path -> set<string>)
    requires var u := Update(dirs, l0, first); |u.0| < num <= |Update(dirs, u.1, second).0|
    ensures var u := Update(dirs, l0, first);
      Proceed(num, WarmingUp, Rounds(dirs, l0, [first, second]).0).batches == [Update(dirs, u.1, second).0]
  {
    var u := Update(dirs, l0, first);
    TwoRounds(dirs, l0, first, second);
    WarmUpReplaces(num, u.0, Update(dirs, u.1, second).0);
  }

  /** The job lists of two rounds, the second built on the first's ledger. */
  lemma TwoRounds(dirs: seq<Path>, l0: Ledger, first: Path -> set<string>, second: Path -> set<string>)
    ensures var u := Update(dirs, l0, first);
      Rounds(dirs, l0, [first, second]).0 == [u.0, Update(dirs, u.1, second).0]
  {
    RoundsSnoc(dirs, l0, [], first);
    assert [] + [first] == [first];
    RoundsSnoc(dirs, l0, [first], second);
    assert [first] + [second] == [first, second];
  }

  /** A warm-up list that is too short is dropped, and the next one, long enough, is dispatched alone. */
  lemma WarmUpReplaces(num: int, jobs1: seq<GuppyJob>, jobs2: seq<GuppyJob>)
    requires |jobs1| < num <= |jobs2|
    ensures Proceed(num, WarmingUp, [jobs1, jobs2]).batches == [jobs2]
  {
    ProceedSnoc(num, WarmingUp, [], jobs1);
    assert [] + [jobs1] == [jobs1];
    ProceedSnoc(num, WarmingUp, [jobs1], jobs2);
    assert [jobs1] + [jobs2] == [jobs1, jobs2];
  }

  /**
    An instance: with two samples and a target of two, a first round in
    which only `A` has a file builds a job for it and marks the file as
    called, but that list is too short and is replaced by the next
    round's, so the file `a1` is never basecalled.
   */
  lemma WarmUpLosesFiles(dirs: seq<Path>, l0: Ledger, first: Path -> set<string>, second: Path -> set<string>)
    requires dirs == ["A", "B"] && l0 == Ledger(map[], map[])
    requires first == FirstListing() && second == SecondListing()
    ensures var p := Proceed(2, WarmingUp, Rounds(dirs, l0, [first, second]).0);
      "a1" in Update(dirs, l0, first).1.CalledIn("A") &&
      p.batches == [[GuppyJob("A", 1, {"a2"}), GuppyJob("B", 0, {"b1"})]]
  {
    WarmUpExampleRounds(dirs, l0, first, second);
    WarmUpDropsShortList(dirs, 2, l0, first, second);
  }

  /** The two rounds of the example, on variables so that they are not unfolded further. */
  lemma WarmUpExampleRounds(dirs: seq<Path>, l0: Ledger, first: Path -> set<string>, second: Path -> set<string>)
    requires dirs == ["A", "B"] && l0 == Ledger(map[], map[])
    requires first == FirstListing() && second == SecondListing()
    ensures var u := Update(dirs, l0, first);
      u == ([GuppyJob("A", 0, {"a1"})], Ledger(map["A" := {"a1"}], map["A" := 1])) &&
      Update(dirs, u.1, second).0 == [GuppyJob("A", 1, {"a2"}), GuppyJob("B", 0, {"b1"})]
  {
    WarmUpFirstRound();
    WarmUpSecondRound();
  }

  /** The commands of each job list, as `pool.map` receives them. */
  function CommandBatches(batches: seq<seq<GuppyJob>>): (cmds: seq<seq<string>>)
    ensures |cmds| == |batches|
  {
    seq(|batches|, k requires 0 <= k < |batches| => Commands(batches[k]))
  }

  lemma CommandBatchesSnoc(batches: seq<seq<GuppyJob>>, jobs: seq<GuppyJob>)
    ensures CommandBatches(batches + [jobs]) == CommandBatches(batches) + [Commands(jobs)]
  {
    var a, b := CommandBatches(batches + [jobs]), CommandBatches(batches) + [Commands(jobs)];
    forall k | 0 <= k < |a|
      ensures a[k] == b[k]
    {
      if k < |batches| {
        assert (batches + [jobs])[k] == batches[k];
      }
    }
  }

  // ---------------------------------------------------------------
  // The controller's state and its rounds
  // ---------------------------------------------------------------

  /**
    The two `defaultdict`s the controller threads through its rounds:
    per sample directory, the fast5 files already listed in a job's
    manifest and the next job number.
   */
  class JobTracker {
    var called: map<Path, set<string>>
    var jobNumber: map<Path, nat>

    /** Both tables as a value. */
    function State(): Ledger
      reads this
    {
      Ledger(called, jobNumber)
    }

    /** Both tables start empty; every sample reads as no files and job 0. */
    constructor ()
      ensures State() == Ledger(map[], map[])
    {
      called := map[];
      jobNumber := map[];
    }

    /**
      `update_job_list`: one round over the sample directories in order,
      with `listing` giving the files now present in each. Returns the
      jobs (each standing for the manifest it writes) and their commands.
     */
    method UpdateJobList(basecallDirs: seq<Path>, listing: Path -> set<string>)
      returns (jobs: seq<GuppyJob>, commands: seq<string>)
      modifies this
      ensures (jobs, State()) == Update(basecallDirs, old(State()), listing)
      ensures commands == Commands(jobs)
    {
      ghost var l0 := State();
      jobs := [];
      var i := 0;
      while i < |basecallDirs|
        invariant 0 <= i <= |basecallDirs|
        invariant (jobs, State()) == Update(basecallDirs[..i], l0, listing)
      {
        assert basecallDirs[..i + 1][..i] == basecallDirs[..i];
        jobs := UpdateSample(jobs, basecallDirs[i], listing);
        i := i + 1;
      }
      assert basecallDirs[..i] == basecallDirs;
      commands := Commands(jobs);
    }

    /**
      The rounds of `main` once the tables are primed: call
      `update_job_list` until a list of at least `numBasecall` jobs comes
      back, then hand each non-empty list to the pool and call again,
      calling once more after an empty round (the ten-minute wait), until
      that call too comes back empty. The `i`-th call sees the files
      `listings[i]`; when the listings run out the rounds stop unfinished.
     */
    method Drain(basecallDirs: seq<Path>, numBasecall: int, listings: seq<Path -> set<string>>)
      returns (dispatched: seq<seq<string>>, finished: bool)
      modifies this
      ensures var p := Proceed(numBasecall, StartPhase(numBasecall), Rounds(basecallDirs, old(State()), listings).0);
        dispatched == CommandBatches(p.batches) && finished == p.phase.Finished? &&
        State() == Rounds(basecallDirs, old(State()), listings[..p.used]).1
    {
      ghost var l0 := State();
      ghost var built: seq<seq<GuppyJob>> := [];
      ghost var p := Progress([], StartPhase(numBasecall), 0);
      ghost var jobs: seq<GuppyJob> := [];
      var jobList: seq<string> := [];
      var i := 0;
      assert listings[..0] == [];
      // The warm-up: wait for a list of at least `numBasecall` jobs.
      while |jobList| < numBasecall
        invariant Reached(basecallDirs, numBasecall, l0, listings, i, built, State(), p) && p.used == i
        invariant jobList == Commands(jobs) && (numBasecall < 1 ==> jobs == [])
        invariant p == if numBasecall < 1 then Progress([], Finished, 0)
                       else if |jobs| < numBasecall then Progress([], WarmingUp, i)
                       else Progress([jobs], Draining(false), i)
        decreases |listings| - i
      {
        if i == |listings| {
          Settled(basecallDirs, numBasecall, l0, listings, i, built, State(), p);
          return [], false;
        }
        jobs, jobList := UpdateRound(basecallDirs, numBasecall, listings, i, l0, built, p);
        built, p, i := built + [jobs], Advance(numBasecall, p, jobs), i + 1;
      }
      if |jobList| == 0 {
        Settled(basecallDirs, numBasecall, l0, listings, i, built, State(), p);
        return [], true;
      }
      dispatched, finished := DrainFrom(basecallDirs, numBasecall, listings, i, jobs, jobList, l0, built);
    }

    /**
      The two nested loops of `main` that follow the warm-up: the last
      round built the non-empty list `jobList0`, and nothing has been
      handed to the pool yet.
     */
    method DrainFrom(basecallDirs: seq<Path>, numBasecall: int, listings: seq<Path -> set<string>>,
                     i0: nat, ghost jobs0: seq<GuppyJob>, jobList0: seq<string>,
                     ghost l0: Ledger, ghost built0: seq<seq<GuppyJob>>)
      returns (dispatched: seq<seq<string>>, finished: bool)
      requires jobList0 == Commands(jobs0) && |jobs0| > 0
      requires Reached(basecallDirs, numBasecall, l0, listings, i0, built0, State(), Progress([jobs0], Draining(false), i0))
      modifies this
      ensures var p := Proceed(numBasecall, StartPhase(numBasecall), Rounds(basecallDirs, l0, listings).0);
        dispatched == CommandBatches(p.batches) && finished == p.phase.Finished? &&
        State() == Rounds(basecallDirs, l0, listings[..p.used]).1
    {
      ghost var built, jobs, p := built0, jobs0, Progress([jobs0], Draining(false), i0);
      ghost var sent: seq<seq<GuppyJob>> := [];
      var i, jobList := i0, jobList0;
      dispatched := [];
      assert sent + [jobs] == [jobs];
      while |jobList| > 0
        invariant Reached(basecallDirs, numBasecall, l0, listings, i, built, State(), p) && p.used == i
        invariant jobList == Commands(jobs) && dispatched == CommandBatches(sent)
        invariant p == if |jobs| > 0 then Progress(sent + [jobs], Draining(false), i) else Progress(sent, Finished, i)
        decreases |listings| - i
      {
        var ranOut;
        i, built, sent, dispatched, ranOut := PoolRounds(basecallDirs, numBasecall, listings, i, jobs, jobList, l0, built, sent, dispatched);
        if ranOut {
          Settled(basecallDirs, numBasecall, l0, listings, i, built, State(), Progress(sent, Draining(false), i));
          return dispatched, false;
        }
        p := Progress(sent, Draining(true), i);
        // time.sleep(600), then one more round.
        if i == |listings| {
          Settled(basecallDirs, numBasecall, l0, listings, i, built, State(), p);
          return dispatched, false;
        }
        jobs, jobList := UpdateRound(basecallDirs, numBasecall, listings, i, l0, built, p);
        built, p, i := built + [jobs], Advance(numBasecall, p, jobs), i + 1;
      }
      Settled(basecallDirs, numBasecall, l0, listings, i, built, State(), p);
      finished := true;
    }

    /**
      The inner loop of `main`: hand the non-empty list `jobList0` to the
      pool, and so on with each list the next round builds, until a round
      builds none (`ranOut` is false) or the listings run out (`ranOut`).
     */
    method PoolRounds(basecallDirs: seq<Path>, numBasecall: int, listings: seq<Path -> set<string>>,
                      i0: nat, ghost jobs0: seq<GuppyJob>, jobList0: seq<string>, ghost l0: Ledger,
                      ghost built0: seq<seq<GuppyJob>>, ghost sent0: seq<seq<GuppyJob>>, dispatched0: seq<seq<string>>)
      returns (i: nat, ghost built: seq<seq<GuppyJob>>, ghost sent: seq<seq<GuppyJob>>,
               dispatched: seq<seq<string>>, ranOut: bool)
      requires jobList0 == Commands(jobs0) && |jobs0| > 0 && dispatched0 == CommandBatches(sent0)
      requires Reached(basecallDirs, numBasecall, l0, listings, i0, built0, State(), Progress(sent0 + [jobs0], Draining(false), i0))
      modifies this
      ensures i0 <= i && dispatched == CommandBatches(sent)
      ensures ranOut ==> i == |listings|
      ensures ranOut ==> Reached(basecallDirs, numBasecall, l0, listings, i, built, State(), Progress(sent, Draining(false), i))
      ensures !ranOut ==> Reached(basecallDirs, numBasecall, l0, listings, i, built, State(), Progress(sent, Draining(true), i))
    {
      ghost var jobs, p := jobs0, Progress(sent0 + [jobs0], Draining(false), i0);
      var jobList;
      i, built, sent, dispatched, jobList := i0, built0, sent0, dispatched0, jobList0;
      while |jobList| > 0
        invariant i0 <= i
        invariant Reached(basecallDirs, numBasecall, l0, listings, i, built, State(), p) && p.used == i
        invariant jobList == Commands(jobs) && dispatched == CommandBatches(sent)
        invariant p == if |jobs| > 0 then Progress(sent + [jobs], Draining(false), i) else Progress(sent, Draining(true), i)
        decreases |listings| - i
      {
        dispatched := dispatched + [jobList];  // pool.map(run_job, job_list)
        CommandBatchesSnoc(sent, jobs);
        sent := sent + [jobs];
        if i == |listings| {
          return i, built, sent, dispatched, true;
        }
        jobs, jobList := UpdateRound(basecallDirs, numBasecall, listings, i, l0, built, p);
        DrainAdvance(numBasecall, sent, jobs, i);
        built, p, i := built + [jobs], Advance(numBasecall, p, jobs), i + 1;
      }
      ranOut := false;
    }

    /** The `i`-th call of `update_job_list`, which adds the `i`-th round and steps the rounds once. */
    method UpdateRound(basecallDirs: seq<Path>, numBasecall: int, listings: seq<Path -> set<string>>, i: nat,
                       ghost l0: Ledger, ghost built: seq<seq<GuppyJob>>, ghost p: Progress)
      returns (jobs: seq<GuppyJob>, commands: seq<string>)
      requires i < |listings| && Reached(basecallDirs, numBasecall, l0, listings, i, built, State(), p)
      modifies this
      ensures commands == Commands(jobs)
      ensures Reached(basecallDirs, numBasecall, l0, listings, i + 1, built + [jobs], State(), Advance(numBasecall, p, jobs))
    {
      ghost var l := State();
      jobs, commands := UpdateJobList(basecallDirs, listings[i]);
      ReachedStep(basecallDirs, numBasecall, l0, listings, i, built, l, p);
    }

    /** The body of `update_job_list`'s loop for one sample directory. */
    method UpdateSample(jobs: seq<GuppyJob>, sampleDir: Path, listing: Path -> set<string>)
      returns (jobs': seq<GuppyJob>)
      modifies this
      ensures (jobs', State()) == SampleStep(jobs, old(State()), sampleDir, listing)
    {
      jobs' := jobs;
      var calledHere := if sampleDir in called then called[sampleDir] else {};
      var newFiles := listing(sampleDir) - calledHere;
      if |newFiles| > 0 {
        var number := if sampleDir in jobNumber then jobNumber[sampleDir] else 0;
        jobs' := jobs' + [GuppyJob(sampleDir, number, newFiles)];
        jobNumber := jobNumber[sampleDir := number + 1];
        called := called[sampleDir := listing(sampleDir)];
      }
    }

    /**
      `initialize_fast5_dir`: for each sample in order, stop at the first
      without a `fastq/tmp` directory; otherwise add the stripped lines of
      every manifest there to the sample's called set and raise its job
      number once per manifest. `tmp` lists the existing `fastq/tmp`
      directories, `content` gives the files' text.
     */
    method InitializeFast5Dir(basecallDirs: seq<Path>, tmp: map<Path, seq<string>>, content: Path -> string)
      modifies this
      ensures State() == Recover(basecallDirs, old(State()), tmp, ReadManifest(content)).0
    {
      ghost var l0 := State();
      ghost var listed := ReadManifest(content);
      var i := 0;
      while i < |basecallDirs|
        invariant 0 <= i <= |basecallDirs|
        invariant !Recover(basecallDirs[..i], l0, tmp, listed).1
        invariant State() == Recover(basecallDirs[..i], l0, tmp, listed).0
      {
        var sampleDir := basecallDirs[i];
        assert basecallDirs[..i + 1][..i] == basecallDirs[..i];
        if TmpDir(sampleDir) !in tmp {
          RecoverStopsAt(basecallDirs, i, l0, tmp, listed);
          return;
        }
        RecoverSample(sampleDir, tmp[TmpDir(sampleDir)], content);
        i := i + 1;
      }
      assert basecallDirs[..i] == basecallDirs;
    }

    /** The loop over one sample's manifests. */
    method RecoverSample(sampleDir: Path, manifests: seq<string>, content: Path -> string)
      modifies this
      ensures State() == AddManifests(sampleDir, manifests, old(State()), ReadManifest(content))
    {
      ghost var l0 := State();
      ghost var listed := ReadManifest(content);
      var j := 0;
      while j < |manifests|
        invariant 0 <= j <= |manifests|
        invariant State() == AddManifests(sampleDir, manifests[..j], l0, listed)
      {
        var path := ManifestPath(sampleDir, manifests[j]);
        ReadLines(sampleDir, content(path));
        NextJobNumber(sampleDir);
        AddManifestsStep(sampleDir, manifests, j, l0, content);
        j := j + 1;
      }
      assert manifests[..j] == manifests;
    }

    /** `job_number_dict[sample_dir] += 1`. */
    method NextJobNumber(sampleDir: Path)
      modifies this
      ensures State() == Bump(sampleDir, old(State()))
    {
      jobNumber := jobNumber[sampleDir := 1 + if sampleDir in jobNumber then jobNumber[sampleDir] else 0];
    }

    /** `fast5s_called_dict[sample_dir].add(name)`. */
    method AddCalled(sampleDir: Path, name: string)
      modifies this
      ensures State() == AddName(sampleDir, name, old(State()))
    {
      called := called[sampleDir := (if sampleDir in called then called[sampleDir] else {}) + {name}];
    }

    /** The lines of one manifest, stripped, join the sample's called set. */
    method ReadLines(sampleDir: Path, text: string)
      modifies this
      ensures State() == AddNames(sampleDir, ManifestNames(text), old(State()))
    {
      ghost var l0 := State();
      var lines := Lines(text);
      ghost var names := ManifestNames(text);
      var k := 0;
      while k < |lines|
        invariant 0 <= k <= |lines|
        invariant State() == AddNames(sampleDir, names[..k], l0)
      {
        var name := Strip(lines[k], Whitespace);
        AddCalled(sampleDir, name);
        AddNamesStep(sampleDir, names, k, l0);
        k := k + 1;
      }
      assert names[..k] == names;
    }
  }

  /**
    `main`: discover the sample directories over the successive listings
    of the experiment directory, prime the tables from the manifests left
    by an earlier run, then run the rounds. The discovered set is walked
    in the order `order`; `tmp` and `content` stand for the existing
    `fastq/tmp` directories and the manifests' text, and `listings` for
    the files each call of `update_job_list` sees. If the listings of the
    experiment directory run out before enough samples are found, nothing
    is dispatched and the run is unfinished.
   */
  method Controller(experiment: seq<seq<SampleListing>>, numBasecall: int, order: seq<Path>,
                    tmp: map<Path, seq<string>>, content: Path -> string, listings: seq<Path -> set<string>>)
    returns (found: Option<set<Path>>, dispatched: seq<seq<string>>, finished: bool)
    requires Distinct(order)
    requires var d := Discover(Visits(Flatten(experiment)), numBasecall);
      d.Some? ==> (set p | p in order) == d.value
    ensures found == Discover(Visits(Flatten(experiment)), numBasecall)
    ensures found.None? ==> dispatched == [] && !finished
    ensures found.Some? ==>
      var primed := Recover(order, Ledger(map[], map[]), tmp, ReadManifest(content)).0;
      var p := Proceed(numBasecall, StartPhase(numBasecall), Rounds(order, primed, listings).0);
      dispatched == CommandBatches(p.batches) && finished == p.phase.Finished?
  {
    found := GetSampleBasecallDirs(experiment, numBasecall);
    if found.None? {
      return found, [], false;
    }
    var tracker := new JobTracker();
    tracker.InitializeFast5Dir(order, tmp, content);
    dispatched, finished := tracker.Drain(order, numBasecall, listings);
  }
}
