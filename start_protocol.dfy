/**
  `start_protocol.py`: the R9 protocol starter. It prepares the specs as
  the R10 starter does, except that a position without a flow cell ends
  it, and then starts a run on every spec with arguments built from the
  command line's settings.
 */
module StartProtocol {
  import opened Wrappers
  import opened PyText
  import opened ExperimentSpecs

  /** The run's settings from the command line; the two hour values are kept as the text Python prints for them. */
  datatype Settings = Settings(experimentTime: string, fast5ReadsPerFile: int, muxScanPeriod: string,
                               fastqReadsPerFile: int, minQscore: int)

  /** The fifteen arguments every run starts with. */
  function CommonArguments(s: Settings): (args: seq<string>)
    ensures |args| == 15
  {
    ["--experiment_time=" + s.experimentTime, "--start_bias_voltage=-165", "--fast5=on", "--fast5_data",
     "raw", "fastq", "vbz_compress", "--min_read_length=200", "--generate_bulk_file=off",
     "--active_channel_selection=on", "--pore_reserve=off",
     "--fast5_reads_per_file=" + IntToString(s.fast5ReadsPerFile),
     "--mux_scan_period=" + s.muxScanPeriod,
     "--guppy_filename=dna_r9.4.1_450bps_hac_prom.cfg", "--bam=off"]
  }

  /** Live basecalling on, to compressed FASTQ with a quality floor. */
  function BasecallingOn(s: Settings): (args: seq<string>)
    ensures |args| == 7
  {
    ["--base_calling=on", "--fastq=on", "--fastq_data", "compress",
     "--fastq_reads_per_file=" + IntToString(s.fastqReadsPerFile), "--read_filtering",
     "min_qscore=" + IntToString(s.minQscore)]
  }

  const BasecallingOff: seq<string> := ["--base_calling=off", "--fastq=off"]

  /** The protocol arguments for a spec. */
  function ProtocolArguments(s: Settings, basecalling: bool): seq<string>
  {
    CommonArguments(s) + (if basecalling then BasecallingOn(s) else BasecallingOff)
  }

  /**
    The arguments are the fifteen common ones, then the basecalling block
    or exactly `--base_calling=off --fastq=off`.
   */
  lemma ArgumentsShape(s: Settings, basecalling: bool)
    ensures var args := ProtocolArguments(s, basecalling);
      |args| == (if basecalling then 22 else 17) && args[..15] == CommonArguments(s) &&
      args[0] == "--experiment_time=" + s.experimentTime &&
      args[11] == "--fast5_reads_per_file=" + IntToString(s.fast5ReadsPerFile) &&
      args[12] == "--mux_scan_period=" + s.muxScanPeriod &&
      args[15..] == (if basecalling then BasecallingOn(s) else BasecallingOff) &&
      (basecalling ==> args[19] == "--fastq_reads_per_file=" + IntToString(s.fastqReadsPerFile) &&
                       args[21] == "min_qscore=" + IntToString(s.minQscore))
  {
    var args := ProtocolArguments(s, basecalling);
    assert args[..15] == CommonArguments(s);
    assert args[15..] == if basecalling then BasecallingOn(s) else BasecallingOff;
  }

  /**
    The arguments tell the settings apart: two runs with the same
    arguments have the same experiment time, reads per file, mux-scan
    period and basecalling choice, and, when basecalling, the same FASTQ
    reads per file and quality floor.
   */
  lemma ArgumentsDetermineSettings(s: Settings, b: bool, t: Settings, c: bool)
    requires ProtocolArguments(s, b) == ProtocolArguments(t, c)
    ensures b == c && s.experimentTime == t.experimentTime && s.muxScanPeriod == t.muxScanPeriod
    ensures s.fast5ReadsPerFile == t.fast5ReadsPerFile
    ensures b ==> s.fastqReadsPerFile == t.fastqReadsPerFile && s.minQscore == t.minQscore
  {
    ArgumentsShape(s, b);
    ArgumentsShape(t, c);
    SuffixDetermines("--experiment_time=", s.experimentTime, t.experimentTime);
    SuffixDetermines("--mux_scan_period=", s.muxScanPeriod, t.muxScanPeriod);
    if s.fast5ReadsPerFile != t.fast5ReadsPerFile {
      IntToStringInjective(s.fast5ReadsPerFile, t.fast5ReadsPerFile);
      PrefixKeepsApart("--fast5_reads_per_file=", IntToString(s.fast5ReadsPerFile), IntToString(t.fast5ReadsPerFile));
    }
    if b {
      if s.fastqReadsPerFile != t.fastqReadsPerFile {
        IntToStringInjective(s.fastqReadsPerFile, t.fastqReadsPerFile);
        PrefixKeepsApart("--fastq_reads_per_file=", IntToString(s.fastqReadsPerFile), IntToString(t.fastqReadsPerFile));
      }
      if s.minQscore != t.minQscore {
        IntToStringInjective(s.minQscore, t.minQscore);
        PrefixKeepsApart("min_qscore=", IntToString(s.minQscore), IntToString(t.minQscore));
      }
    }
  }

  /** Equal strings with the same prefix have the same rest. */
  lemma SuffixDetermines(p: string, a: string, b: string)
    requires p + a == p + b
    ensures a == b
  {
    assert (p + a)[|p|..] == a && (p + b)[|p|..] == b;
  }

  /** The run started for a spec. */
  function StartOf(spec: Spec, s: Settings): Start
    requires spec.position.Some?
  {
    Start(spec.position.value.name, spec.protocolId, ProtocolArguments(s, spec.basecalling),
          spec.entry.sampleId, spec.entry.experimentId)
  }

  /** The start loop: a run on every spec in order, up to the first without a position. */
  function Launches(specs: seq<Spec>, s: Settings): (seq<Start>, Option<Halt>)
  {
    if |specs| == 0 then ([], None)
    else
      var before := Launches(specs[..|specs| - 1], s);
      var spec := specs[|specs| - 1];
      if before.1.Some? then before
      else if spec.position.None? then (before.0, Some(NoPosition))
      else (before.0 + [StartOf(spec, s)], None)
  }

  /** The loop ends early exactly at a spec without a position. */
  lemma {:induction false} LaunchesHalt(specs: seq<Spec>, s: Settings)
    ensures var l := Launches(specs, s);
      (l.1.None? <==> Connected(specs) == |specs|) && (l.1.Some? ==> l.1.value == NoPosition)
  {
    if |specs| > 0 {
      LaunchesHalt(specs[..|specs| - 1], s);
    }
  }

  /** Every spec the loop gets through is started, in order, and no other. */
  lemma {:induction false} LaunchesStarts(specs: seq<Spec>, s: Settings)
    ensures var l := Launches(specs, s); var n := Connected(specs);
      |l.0| == n && forall k :: 0 <= k < n ==> l.0[k] == StartOf(specs[k], s)
  {
    if |specs| > 0 {
      var m := |specs| - 1;
      var init := specs[..m];
      LaunchesStarts(init, s);
      LaunchesHalt(init, s);
      var before, after := Launches(init, s).0, Launches(specs, s).0;
      var n0, n := Connected(init), Connected(specs);
      assert n == n0 || (n == m + 1 && n0 == m && after == before + [StartOf(specs[m], s)]);
      assert n == n0 ==> after == before;
      forall k | 0 <= k < n
        ensures after[k] == StartOf(specs[k], s)
      {
        if k < n0 {
          assert after[k] == before[k];
          assert init[k] == specs[k];
        }
      }
    }
  }

  /** The start loop of `main`. */
  method StartProtocols(specs: seq<Spec>, s: Settings) returns (starts: seq<Start>, halted: Option<Halt>)
    ensures (starts, halted) == Launches(specs, s)
  {
    starts, halted := [], None;
    var i := 0;
    while i < |specs|
      invariant 0 <= i <= |specs|
      invariant (starts, None) == Launches(specs[..i], s)
    {
      assert specs[..i + 1][..i] == specs[..i];
      var spec := specs[i];
      if spec.position.None? {
        halted := Some(NoPosition);
        LaunchStops(specs, i + 1, s);
        return;
      }
      starts := starts + [Start(spec.position.value.name, spec.protocolId, ProtocolArguments(s, spec.basecalling),
                                spec.entry.sampleId, spec.entry.experimentId)];
      i := i + 1;
    }
    assert specs[..i] == specs;
  }

  /** Once the loop has ended early, the later specs do not matter. */
  lemma {:induction false} LaunchStops(specs: seq<Spec>, n: nat, s: Settings)
    requires n <= |specs| && Launches(specs[..n], s).1.Some?
    ensures Launches(specs, s) == Launches(specs[..n], s)
    decreases |specs|
  {
    if n < |specs| {
      var init := specs[..|specs| - 1];
      assert init[..n] == specs[..n];
      LaunchStops(init, n, s);
    } else {
      assert specs[..n] == specs;
    }
  }

  /**
    `main`: prepare the specs, where a position without a flow cell ends
    the starter, then start a run on each. The instrument is read through
    `cells` while preparing.
   */
  method StartAll(sheet: Option<seq<SheetEntry>>, positions: seq<Position>, num: int,
                  cells: string -> FlowCellInfo, kit: string, find: (string, string, bool) -> Option<string>,
                  s: Settings)
    returns (starts: seq<Start>, halted: Option<Halt>)
    ensures var prepared := Prepared(sheet, positions, num, cells, kit, find, true);
      prepared.Fail? ==> starts == [] && halted == Some(prepared.halt)
    ensures var prepared := Prepared(sheet, positions, num, cells, kit, find, true);
      prepared.Ok? ==> (starts, halted) == Launches(prepared.value, s)
  {
    var specs;
    specs, halted := Prepare(sheet, positions, num, cells, kit, find, true);
    if halted.Some? {
      return [], halted;
    }
    starts, halted := StartProtocols(specs, s);
  }
}
