# Nanopore run-control scripts: a Dafny model

These scripts drive an Oxford Nanopore sequencing tower through MinKNOW.
This project models their bookkeeping and decision logic and proves
properties of it:

- **`base_call_controller.py`** is the incremental Guppy basecalling
  controller.
  - It finds the samples of a running experiment whose reads go to a
    plain `fast5` directory.
  - It keeps two tables per sample: the fast5 files already handed to a
    job, and a job counter.
  - It rebuilds both tables from the manifests of an earlier run.
  - Each round turns the new files into at most one Guppy job per
    sample.
  - It keeps dispatching job lists to a two-worker pool until two rounds
    in a row find nothing.
- **`dorado_basecall_controller.py`** is the resumable Dorado planner.
  - It derives three names from each listed pod5 directory: the BAM, the
    completion sentinel and the checkpoint.
  - It skips directories that have a sentinel.
  - It renames a non-empty partial BAM to the checkpoint and resumes
    from it.
  - It splices a device flag in front of the `>` redirection.
- **`start_protocol.r10.py`** and **`start_protocol.py`** are the protocol
  starters.
  - They build one experiment spec per sample-sheet row.
  - They give each spec the position of the same name, refusing two rows
    for one position.
  - They flag the first N specs for live basecalling and look up each
    protocol.
  - They start runs with fixed argument lists.
  - The R10 starter can then watch the runs and stop each one once its
    yield passes its target.
- **`run_until.py`** makes one pass over the positions and stops every
  watched run whose yield is strictly above a target in gigabases.

## How the model is laid out

| file | module | contents |
|---|---|---|
| `wrappers.dfy` | `Wrappers` | `Option` |
| `pytext.dfy` | `PyText` | the Python string operations the scripts use |
| `posixpath.dfy` | `PosixPath` | `os.path.basename` and `os.path.dirname` |
| `base_call_controller.dfy` | `BaseCallController` | discovery, device mapping, rounds and recovery as functions; class `JobTracker` for the two `defaultdict`s the controller changes in place |
| `dorado_basecall_controller.dfy` | `DoradoBasecallController` | planning over a map from paths to file sizes, and the `run_job` splice |
| `experiment_specs.dfy` | `ExperimentSpecs` | the spec preparation both starters share, with class `SpecList` for the list they update in place |
| `start_protocol_r10.dfy` | `StartProtocolR10` | the R10 start loop, the yield targets, and class `Watcher` for the run-until loop |
| `start_protocol.dfy` | `StartProtocol` | the R9 start loop |
| `run_until.dfy` | `RunUntil` | the single-pass stopper |

### Inputs in place of the outside world

- **Instrument.** What MinKNOW reports is a function parameter:
  - flow-cell info per position name;
  - acquisition status per position name;
  - the protocol lookup `(product code, kit, basecalling) -> identifier`;
  - per-round readings of yield and pore counts.

  Starting or stopping a protocol is recorded in the result, not
  performed.
- **Filesystem.** It is a set of inputs:
  - a listing function per sample directory;
  - the `fastq/tmp` directory listings;
  - manifest and pod5 list-file contents, which are read as Python's universal-newline
    mode reads text: `\r\n` and a bare `\r` end a line as `\n` does
    (`Translated`);
  - for the Dorado planner, a map from paths to file sizes, where a path
    in the map is a file.
- **Loops without an end.** Each unbounded polling loop runs over a
  given sequence of rounds.

### Where the code cannot run as written

`base_call_controller.py` does not parse, so the model follows the
evident intent:

- line 39: `experimnet_dir` and `sample_dir` are undefined. The glob
  results per sample are an input.
- line 43: `basecall_dirs.add` adds to `basecall_samples`.
- line 66: `fast5_file` is undefined. A job carries the file set that
  its manifest lists, and the manifest text is the names joined by
  newlines plus a final newline.
- line 74: `sample_id` is read as `sample_dir`.
- line 82: the stray `:` is ignored.
- line 84: the file is opened as `<sample>/fastq/tmp/<name>`, not by its
  bare name.
- line 87: `job_num_dict` is read as `job_number_dict`.
- line 95: the `None` result is not assigned back, so recovery updates
  the tables.
- line 116: `print` is left out.

Line 61 lists `sample_dir` itself, not `sample_dir/fast5`. The model
keeps that as written: the listing function is queried at the sample
directory.

### Behaviour the proofs bring out

- **Base-call warm-up drops files.** Each warm-up round of
  `base_call_controller.py` marks the files it found as called. A round
  whose job list is shorter than the target throws that list away, so
  those files are never basecalled (`WarmUpLosesFiles`).
- **Base-call recovery stops early.** Recovery stops at the first sample
  without `fastq/tmp`, leaving the later samples alone (`RecoverStopsAt`).
- **Checkpoint names collide.** `strip('.bam')` strips characters, not a
  suffix, and from both ends. Any two directories that differ only by
  trailing characters from `{'.', 'b', 'a', 'm'}` share a checkpoint
  (`CheckpointsCollide`). Leading characters from the set go too: the
  directory `./run` has the checkpoint `/run.checkpoint.bam`
  (`LeadingDotStripped`) and
  `bam/x` has `/x.checkpoint.bam`, both at the filesystem root; a bare
  `run`, whose output is `/run.bam`, has its checkpoint at
  `/run.checkpoint.bam` as well.
- **GPUs follow the call count, not the worker.** `run_job` picks the
  device from the number of processes its worker has built, so each
  worker's first job runs on CUDA:0, its second on CUDA:1 and every later
  one with no device flag. Two workers on their first jobs at once share
  CUDA:0 (`WorkerDevices`).
- **Spaces after commas stay in position names.** `run_until.py` strips
  the whole `--flowcell_positions` value but not the names, so
  `1A, 2B` watches ` 2B` and never `2B` (`SpaceAfterCommaKept`).
- **The `r9` pore fails.** `main` accepts it, but the model table has no
  `r9` entry, so a non-empty list raises `KeyError`
  (`R9RaisesKeyError`).
- **A command without `>`.** The flag goes in before the command's last
  character, because `find` returns -1.
- **R10 positions are recorded before the check.** The R10 start loop
  records a spec's position before checking its flow cell. So a position
  without a flow cell is still watched.
- **The R10 watch can quit at once.** The watch quits as soon as every
  position seen sequencing has finished. If no position is sequencing in
  the first round, it quits at once with nothing stopped
  (`QuietFirstRoundQuits`).

## Model

| member | source | states |
|---|---|---|
| BaseCallController.GetSampleBasecallDirs | base_call_controller.py:35-46 | the polling loop returns what discovery over all samples of all rounds, in order, returns (the first set that reached the target, checked after each eligible sample), or None while the rounds run out first |
| BaseCallController.VisitSamples | base_call_controller.py:40-45 | one round over the samples continues discovery from the set collected so far; when it does not return, the set is the one collected over all visits |
| BaseCallController.CollectedMembers | base_call_controller.py:41-43 | a directory is collected iff some sample has a non-empty glob with no `fast5_pass` match and a `fast5` match, and the directory is the parent of that sample's first match |
| BaseCallController.CollectedVisits | base_call_controller.py:42-43 | a directory is in the set iff some visit added it |
| BaseCallController.DiscoverySize | base_call_controller.py:45 | for a target of at least 1, discovery that has not returned holds fewer than the target; once it returns, the set has exactly the target's size and lies within what was collected |
| BaseCallController.DiscoverPrefix | base_call_controller.py:45 | once discovery has returned, visiting more samples does not change its result |
| BaseCallController.GuppyDevices | base_call_controller.py:49-54 | the command `run_job` runs extends the given one, and is unchanged iff its call number within the pool worker is neither 1 nor 2; the first and second calls get different devices (CUDA:0 and CUDA:1) |
| BaseCallController.WorkerDevices | base_call_controller.py:48-54 | within each pool worker the first job runs on CUDA:0, the second on CUDA:1 and every later job with no device flag |
| BaseCallController.JobPathsDistinct | base_call_controller.py:64-65 | two different job numbers of a sample never share a manifest path or an output directory |
| BaseCallController.UpdateFrame | base_call_controller.py:57-75 | a round leaves the called set and counter of a sample it does not list unchanged |
| BaseCallController.UpdateSettles | base_call_controller.py:74 | after a round every listed sample has all its present files marked as called |
| BaseCallController.NothingNew | base_call_controller.py:62-63 | a round in which no listed sample has a file outside its called set builds no job and leaves both tables unchanged |
| BaseCallController.UpdateIdempotent | base_call_controller.py:57-75 | a second round right after the first over the same files builds no job and changes nothing |
| BaseCallController.UpdateJobsPrefix | base_call_controller.py:59-72 | adding a sample directory to the round keeps the earlier jobs and adds at most one, for that sample, numbered by its counter and listing exactly its new files |
| BaseCallController.UpdateJobAt | base_call_controller.py:62-73 | each job of a round is for a listed sample, lists exactly that sample's files not yet called (never none), and carries the sample's counter from before the round |
| BaseCallController.UpdateOneJobPerSample | base_call_controller.py:59-73 | with each sample listed once, no two jobs of a round are for the same sample |
| BaseCallController.UpdateJobFor | base_call_controller.py:62-72 | with each sample listed once, every listed sample with new files gets a job in the round |
| BaseCallController.UpdateLedger | base_call_controller.py:62-74 | after a round a sample's called set is its present files and its counter is one higher iff it was listed and had new files; otherwise both are as before |
| BaseCallController.SampleStepLedger | base_call_controller.py:60-74 | one sample's step renews the entries of that sample alone, and only when it had new files |
| BaseCallController.SampleStepKeepsNumbered | base_call_controller.py:64-73 | one sample's step keeps the jobs' numbers strictly increasing per sample and all below the sample's counter |
| BaseCallController.UpdateKeepsNumbered | base_call_controller.py:59-73 | rounds keep every job's number below its sample's counter, and a sample's numbers increasing across all jobs ever built |
| BaseCallController.NumberedPathsDistinct | base_call_controller.py:64-73 | jobs numbered that way never share a manifest or output directory within a sample |
| BaseCallController.AddNamesAt | base_call_controller.py:85-86 | adding a manifest's names touches only that sample's called set, which becomes the old set plus the names, and no counter |
| BaseCallController.AddManifestsAt | base_call_controller.py:83-87 | reading a sample's manifests raises its counter by the number of manifests, leaves other samples unchanged, and adds exactly the names some manifest lists |
| BaseCallController.RecoverStaysStopped | base_call_controller.py:78-80 | once recovery has returned, the later samples change nothing |
| BaseCallController.RecoverStopsAt | base_call_controller.py:79-80 | a sample without `fastq/tmp` ends recovery: the tables are those built from the samples before it |
| BaseCallController.ManifestRoundTrip | base_call_controller.py:66 | a manifest written from names without newlines, carriage returns or surrounding blanks reads back, line by stripped line, as those names |
| BaseCallController.RoundsPrefix | base_call_controller.py:102-115 | the rounds over the first n listings are the first n rounds |
| BaseCallController.ProceedStaysFinished | base_call_controller.py:109-115 | once the drain has ended, later rounds change nothing |
| BaseCallController.ProceedUsesAll | base_call_controller.py:102-115 | until the drain ends, every round given has been run |
| BaseCallController.ProceedBatches | base_call_controller.py:109-111 | every list handed to the pool is one a round built, and for a target of at least 1 it is never empty |
| BaseCallController.UpdateEmptyKeeps | base_call_controller.py:62-74 | a round that builds no job leaves both tables as they were |
| BaseCallController.QuietRounds | base_call_controller.py:112-115 | with no new files, the rounds after the first build nothing |
| BaseCallController.EndsWhenQuiet | base_call_controller.py:109-115 | while draining, three rounds over unchanged files end the controller |
| BaseCallController.WarmUpReplaces | base_call_controller.py:103-104 | a warm-up job list shorter than the target is dropped and the next, long enough, is the one handed to the pool |
| BaseCallController.WarmUpDropsShortList | base_call_controller.py:103-104 | when the first round builds fewer jobs than the target and the second enough, only the second round's jobs are ever dispatched |
| BaseCallController.WarmUpLosesFiles | base_call_controller.py:102-111 | an instance: file `a1` is marked called in the first round, yet the only list dispatched holds jobs for `a2` and `b1` alone |
| BaseCallController.JobTracker.constructor | base_call_controller.py:93-94 | both tables start empty |
| BaseCallController.JobTracker.UpdateJobList | base_call_controller.py:57-75 | the jobs and the new tables are those of one round from the old tables; the commands are the jobs' commands, in order |
| BaseCallController.JobTracker.UpdateSample | base_call_controller.py:60-74 | the loop body for one sample directory is that sample's step |
| BaseCallController.JobTracker.Drain | base_call_controller.py:102-115 | the batches handed to the pool, and whether the controller ended, are those of the rounds over the listings from the current tables; the tables end as the rounds actually run left them |
| BaseCallController.JobTracker.DrainFrom | base_call_controller.py:108-115 | the drain loops, started on the list that ended the warm-up, have the same result as the rounds over all listings |
| BaseCallController.DrainAdvance | base_call_controller.py:110-112 | while draining, a round that built jobs hands them to the pool and keeps draining, and a round that built none marks the rounds as just emptied |
| BaseCallController.JobTracker.PoolRounds | base_call_controller.py:110-112 | the inner loop dispatches lists until a round builds none or the listings run out, keeping the rounds' progress |
| BaseCallController.JobTracker.UpdateRound | base_call_controller.py:112 | each call of `update_job_list` adds one round and steps the progress once |
| BaseCallController.JobTracker.InitializeFast5Dir | base_call_controller.py:77-87 | the tables become those recovery computes from the old tables, the `fastq/tmp` listings and the manifests' contents |
| BaseCallController.JobTracker.RecoverSample | base_call_controller.py:83-87 | reading one sample's manifests adds every stripped line of each to its called set and counts each manifest |
| BaseCallController.JobTracker.NextJobNumber | base_call_controller.py:87 | the sample's counter rises by one and nothing else changes |
| BaseCallController.JobTracker.AddCalled | base_call_controller.py:86 | the name joins the sample's called set and nothing else changes |
| BaseCallController.JobTracker.ReadLines | base_call_controller.py:85-86 | every stripped line of the manifest joins the sample's called set |
| BaseCallController.Controller | base_call_controller.py:90-117 | `main`: nothing is dispatched while discovery does not return; otherwise recovery primes the tables and the dispatched batches and the end are those of the rounds over the listings |
| DoradoBasecallController.ModelFor | dorado_basecall_controller.py:61 | the model table has an entry iff the pore is `r10` |
| DoradoBasecallController.SiblingNames | dorado_basecall_controller.py:63-64 | for a directory with a parent, the BAM is the directory's path plus `.bam` and the sentinel its path plus `.BASECALLING_COMPLETE` |
| DoradoBasecallController.CheckpointOfPlainName | dorado_basecall_controller.py:65 | for a directory whose name neither starts nor ends with `.`, `b`, `a` or `m`, the checkpoint is its path plus `.checkpoint.bam` |
| DoradoBasecallController.CheckpointsCollide | dorado_basecall_controller.py:65 | a directory extended by characters from `{'.', 'b', 'a', 'm'}` gets the same checkpoint as the plain one |
| DoradoBasecallController.LeadingDotStripped | dorado_basecall_controller.py:63-65 | the strip also removes leading characters: the directory `./run` has the checkpoint `/run.checkpoint.bam`, at the filesystem root |
| DoradoBasecallController.ExtendedSibling | dorado_basecall_controller.py:63 | extending a directory's name by text without `/` extends its BAM name the same way |
| DoradoBasecallController.SentinelIsNotRenamed | dorado_basecall_controller.py:64-73 | no directory's sentinel is any directory's BAM or checkpoint, so a rename never touches a sentinel |
| DoradoBasecallController.Commands | dorado_basecall_controller.py:82-83 | one command per planned job, in order |
| DoradoBasecallController.Rename | dorado_basecall_controller.py:73 | after the rename the destination has the source's size, the source is gone unless it is the destination, and no other file changes |
| DoradoBasecallController.PlanStepSpec | dorado_basecall_controller.py:71-82 | a directory with a sentinel gets no job and no rename; otherwise one job, resuming iff the BAM or the checkpoint is a non-empty file; a non-empty BAM is renamed to the checkpoint and nothing else changes the files |
| DoradoBasecallController.PlanKeepsSentinels | dorado_basecall_controller.py:62-82 | planning neither creates nor removes any sentinel |
| DoradoBasecallController.PlanMatchesPending | dorado_basecall_controller.py:62-82 | the jobs are exactly one per listed directory without a sentinel, in list order |
| DoradoBasecallController.PodDirsOfListFile | dorado_basecall_controller.py:57 | a list file holding one trimmed directory per line, with no carriage return, reads back as those directories |
| DoradoBasecallController.InitializeJobsFromList | dorado_basecall_controller.py:55-83 | reading the list file and planning its directories gives the planned jobs (or the KeyError) and the renamed files |
| DoradoBasecallController.PlanTargets | dorado_basecall_controller.py:62-83 | the planning loop with its renames computes the planned jobs and files |
| DoradoBasecallController.R9RaisesKeyError | dorado_basecall_controller.py:61-70 | with pore `r9` and a non-empty list, the lookup fails with KeyError before any file is touched |
| DoradoBasecallController.SpliceAt | dorado_basecall_controller.py:49 | the splice point is the first `>` when there is one, else the index of the last character (`find` gives -1) |
| DoradoBasecallController.RunJobCommand | dorado_basecall_controller.py:51 | the command run is the original lengthened by the device flag |
| DoradoBasecallController.RunJobCommandRemovesFlag | dorado_basecall_controller.py:49-51 | the flag sits at the splice point, and deleting it gives back the original command |
| DoradoBasecallController.SpliceBeforeRedirect | dorado_basecall_controller.py:49-51 | when the first `>` begins the tail, the flag goes exactly between head and tail |
| DoradoBasecallController.DeviceFlagPrecedesOutput | dorado_basecall_controller.py:66-81 | for a model and directory without `>`, both the plain and the resuming command get the flag right before `> <bam>` |
| DoradoBasecallController.DispatchedAt | dorado_basecall_controller.py:92 | each command run by the pool is the listed command with the flag spliced in |
| DoradoBasecallController.RunJobs | dorado_basecall_controller.py:92 | the pool runs every listed command, in order, with the flag spliced in |
| DoradoBasecallController.RunController | dorado_basecall_controller.py:85-94 | a pore other than `r10` or `r9` is rejected with no file touched; otherwise the jobs are planned and, unless the lookup failed, all of them run |
| ExperimentSpecs.Connected | start_protocol.r10.py:214-215 | the specs before the returned index all have a position, and the spec at it has none |
| ExperimentSpecs.FreshSpecs | start_protocol.r10.py:126-136 | one spec per sheet row, in order, with no position, no basecalling and an empty protocol |
| ExperimentSpecs.MatchIndices | start_protocol.r10.py:140-142 | exactly the indices of the specs whose row names the position, in increasing order |
| ExperimentSpecs.PositionNoMatch | start_protocol.r10.py:144-145 | with no row naming the position, the specs are unchanged |
| ExperimentSpecs.PositionManyMatches | start_protocol.r10.py:146-148 | two rows naming one position end the starter |
| ExperimentSpecs.PositionOneMatch | start_protocol.r10.py:151 | with exactly one row naming the position, that spec gets it and no other spec changes |
| ExperimentSpecs.WithPositionsPlaces | start_protocol.r10.py:156-159 | after all positions, each spec keeps its row and flags and has either its old position or one of the instrument's positions whose name its row gives |
| ExperimentSpecs.FlagFirstExactly | start_protocol.r10.py:162-166 | exactly the first `num_basecall_samples` specs are flagged for basecalling, and nothing else about any spec changes |
| ExperimentSpecs.ProductCode | start_protocol.r10.py:182-184 | the product code is the reported one, or the user's when none is reported; it is empty only when both are |
| ExperimentSpecs.ProtocolIdsOk | start_protocol.r10.py:169-195 | the lookup succeeds iff every spec's does, and then each spec gets its own protocol |
| ExperimentSpecs.ProtocolIdsFail | start_protocol.py:189-191 | a failed lookup fails with the reason of the first spec that fails, every earlier spec having succeeded |
| ExperimentSpecs.ProtocolIdOf | start_protocol.r10.py:176-195 | a looked-up spec has a position, keeps all but its protocol, gets the protocol found for its product code, kit and basecalling choice when it has a flow cell, and is skipped unchanged without one (R10 only) |
| ExperimentSpecs.SpecList.constructor | start_protocol.r10.py:205 | the list starts empty |
| ExperimentSpecs.SpecList.AddSampleSheetEntries | start_protocol.r10.py:123-136 | a fresh spec is appended for each row of the sheet, if one was given |
| ExperimentSpecs.SpecList.AddPositionToSpecs | start_protocol.r10.py:138-151 | the list becomes the one position's result, or the call reports the exit for two matching rows |
| ExperimentSpecs.SpecList.AddPositionInfo | start_protocol.r10.py:156-159 | the list becomes the result of all positions in turn, or the call reports the exit |
| ExperimentSpecs.SpecList.AddBasecallingInfo | start_protocol.r10.py:162-166 | the list becomes the one with its first specs flagged |
| ExperimentSpecs.AbortStays | start_protocol.r10.py:157-159 | once a position ends the starter, later positions do not matter |
| ExperimentSpecs.AddProtocolIds | start_protocol.py:179-207 | the list becomes the looked-up specs, or the call reports why the starter ends |
| ExperimentSpecs.IdsStopAt | start_protocol.py:189-191 | once a spec ends the lookup, later specs do not matter |
| ExperimentSpecs.Prepare | start_protocol.r10.py:205-209 | the four preparation steps on a new list give the prepared specs, or the reason the starter ends |
| StartProtocolR10.ArgumentsShape | start_protocol.r10.py:222-251 | the arguments are the 11 common ones, then the 9-entry basecalling block or exactly `--base_calling=off --bam=off`; `--base_calling=on` occurs iff the spec basecalls and `--base_calling=off` iff not |
| StartProtocolR10.LaunchesPositions | start_protocol.r10.py:214-216 | the start loop ends early iff some spec has no position; it records the position of every spec before that, in order |
| StartProtocolR10.LaunchesStarts | start_protocol.r10.py:214-220 | the runs started are those of the specs the loop got through whose flow cell is present and not already sequencing, in order |
| StartProtocolR10.StartsOfMembers | start_protocol.r10.py:218-220 | a run is started iff it belongs to a spec with a flow cell not already at status 3, with that spec's position, protocol, arguments, sample and group |
| StartProtocolR10.StartProtocols | start_protocol.r10.py:211-260 | the loop records the positions, starts the runs and ends early as the start loop's definition says |
| StartProtocolR10.LaunchStops | start_protocol.r10.py:215 | once the loop has ended early, later specs do not matter |
| StartProtocolR10.TargetYields | start_protocol.r10.py:271-274 | filling the target table row by row gives the table of the sheet's targets in bases |
| StartProtocolR10.TargetDefault | start_protocol.r10.py:272 | a position no row names has the 120-gigabase target |
| StartProtocolR10.TargetLastRow | start_protocol.r10.py:273-274 | a position takes the target of the last row that names it |
| StartProtocolR10.RoundKeepsFinishedRunning | start_protocol.r10.py:297-310 | a round only grows both sets and keeps every finished position among the running ones |
| StartProtocolR10.RoundDecides | start_protocol.r10.py:284-310 | a position's run is stopped iff it was examined, its yield is strictly above its target and it has more than 2000 pores; it is finished afterwards iff it was already, or it was examined with its yield strictly above its target; it is running iff it was, or it was examined |
| StartProtocolR10.RoundUntouched | start_protocol.r10.py:281-284 | a position that does not report in a round is not stopped and its membership in both sets is unchanged |
| StartProtocolR10.QuitMeansAllFinished | start_protocol.r10.py:312 | with the finished positions among the running ones, equal sizes mean every running position has finished |
| StartProtocolR10.QuietRound | start_protocol.r10.py:284-297 | a round in which no position is examined changes nothing and stops nothing |
| StartProtocolR10.QuietFirstRoundQuits | start_protocol.r10.py:276-316 | a first round in which no position is examined ends the watch with nothing stopped |
| StartProtocolR10.Watcher.constructor | start_protocol.r10.py:276-277 | both sets start empty |
| StartProtocolR10.Watcher.Poll | start_protocol.r10.py:283-312 | one round updates the two sets and stops the runs as a round of the watch does; it reports quitting iff the sets have the same size |
| StartProtocolR10.Watcher.Monitor | start_protocol.r10.py:279-316 | the loop runs rounds until one ends the watch or the rounds run out, with the watch's sets and stopped runs |
| StartProtocolR10.WatchEnds | start_protocol.r10.py:312-316 | once the watch has ended, later rounds do not matter |
| StartProtocolR10.WatchedEndsAllFinished | start_protocol.r10.py:297-316 | through every round the finished positions stay among the running ones, and the watch ends only when they are all finished |
| StartProtocolR10.StartAll | start_protocol.r10.py:197-316 | `main`: a starter that ends while preparing starts and stops nothing; otherwise it starts the runs the start loop does, and with run-until on and the loop complete it stops the runs the watch does |
| StartProtocol.ArgumentsShape | start_protocol.py:228-259 | the arguments are the 15 common ones, with the experiment time first and the reads per file and mux-scan period at 11 and 12, then the 7-entry basecalling block with the FASTQ reads per file and quality floor, or exactly `--base_calling=off --fastq=off` |
| StartProtocol.ArgumentsDetermineSettings | start_protocol.py:240-253 | equal argument lists mean equal basecalling choice, experiment time, mux-scan period and fast5 reads per file, and, when basecalling, equal FASTQ reads per file and quality floor |
| StartProtocol.LaunchesHalt | start_protocol.py:225-226 | the start loop ends early iff some spec has no position |
| StartProtocol.LaunchesStarts | start_protocol.py:225-268 | every spec before the first without a position gets a run with its own position, protocol, arguments, sample and group, in order, and no other spec does |
| StartProtocol.StartProtocols | start_protocol.py:225-268 | the loop starts the runs and ends early as the start loop's definition says |
| StartProtocol.LaunchStops | start_protocol.py:226 | once the loop has ended early, later specs do not matter |
| StartProtocol.StartAll | start_protocol.py:209-268 | `main`: a starter that ends while preparing (including at a position without a flow cell) starts nothing; otherwise it starts the runs of the start loop |
| RunUntil.StopListMembers | run_until.py:33-45 | a run is stopped iff one of its readings is watched, at status 3 and strictly above the target; a yield equal to the target does not stop it |
| RunUntil.RunUntil | run_until.py:33-45 | the pass stops exactly the runs of the stop list, in position order |
| RunUntil.SpaceAfterCommaKept | run_until.py:27 | only the whole argument is stripped: `1A, 2B` watches `1A` and ` 2B`, so the position `2B` is not watched |
| RunUntil.TargetPositionsRoundTrip | run_until.py:25-27 | naming positions separated by commas watches exactly those positions, for names that are non-empty, hold no comma and have no surrounding blanks |
| PyText.Find | dorado_basecall_controller.py:49 | `find` gives the first index holding the character, or -1 iff it does not occur |
| PyText.Strip | run_until.py:27 | `strip()` gives the middle slice left by removing the leading and trailing characters of the set, and neither end of the result is in the set |
| PyText.StripTrimmed | run_until.py:27 | stripping a string whose ends are not blank changes nothing |
| PyText.StripSuffix | dorado_basecall_controller.py:65 | a trimmed string followed only by stripped characters strips back to itself |
| PyText.Split | run_until.py:27 | `split(',')` gives at least one part, no part holds the separator, and joining the parts gives back the string |
| PyText.SplitJoin | run_until.py:27 | splitting a join of separator-free parts gives back the parts |
| PyText.Translated | base_call_controller.py:84-85 | universal-newline reading leaves no carriage return in the text and never lengthens it |
| PyText.TranslatedPlain | base_call_controller.py:84-85 | text without a carriage return is read as written |
| PyText.SplitLines | base_call_controller.py:85 | cutting after each newline gives non-empty pieces that concatenate back to the text |
| PyText.SplitLinesAreLines | base_call_controller.py:85 | no piece holds a newline before its last character |
| PyText.SplitLinesEnded | base_call_controller.py:85 | every piece but the last ends with a newline |
| PyText.Lines | base_call_controller.py:84-85 | iterating a text file gives non-empty lines that concatenate to the text as universal newlines read it |
| PyText.CarriageReturnEndsLine | base_call_controller.py:84-85 | a bare carriage return ends a line: `a\rb\n` reads as the lines `a\n` and `b\n` |
| PyText.CarriageReturnNewlineEndsLine | base_call_controller.py:84-85 | a carriage return followed by a newline ends one line, read as a newline: `a\r\nb` reads as `a\n` and `b` |
| PyText.LinesOfPrinted | base_call_controller.py:66 | a file printed from names without newlines or carriage returns reads back one name per line, each with its newline |
| PyText.NatToString | base_call_controller.py:64 | `%d` of a natural number is a non-empty string of digits that starts with `0` only for 0 |
| PyText.ParseNatToString | base_call_controller.py:64 | reading back a rendered number gives the number |
| PyText.NatToStringInjective | base_call_controller.py:64-65 | different numbers render differently |
| PyText.IntToStringInjective | start_protocol.py:240 | different integers, negative ones included, render differently |
| PosixPath.BasenameSpec | dorado_basecall_controller.py:63 | the basename is a suffix of the path without `/` |
| PosixPath.DirnameSpec | dorado_basecall_controller.py:63 | the dirname is a prefix of the path, empty when the path has no `/` |
| PosixPath.DirnameSlashBasename | dorado_basecall_controller.py:63 | dirname, `/` and basename put back together give the path, for a path whose last `/` follows a non-`/` |

## Left out

- MinKNOW gRPC (`Manager`, `connect`, `get_flow_cell_info`, `current_status`, `get_acquisition_info`, `start_protocol`, `stop_protocol`) is not called: its answers are function parameters and its actions are recorded in the results.
- `argparse`, `pandas.read_table` and every `print` are left out; the sheet is a sequence of rows and the options are parameters.
- `os.system`, `multiprocessing.Pool` and `time.sleep` are left out: the pool is a sequential map over the job list, and the waits only separate rounds.
- The call number of `run_job` in `base_call_controller.py` (the second component of a fresh `Process` identity) comes from the runtime; it is a parameter, and `WorkerCommands` takes the order in which one worker receives its jobs as given.
- The filesystem is not modelled as such. Glob results, listings, `fastq/tmp` listings and manifest contents are inputs, and the Dorado planner works over a map from paths to sizes. The `mkdir` calls of `base_call_controller.py` lines 96-100 and the writing of manifests are left out: a job carries the file set its manifest would list.
- BaseCallController.GetSampleBasecallDirs: the `while True` loop runs over a given sequence of rounds and returns None when they run out, where the script would keep polling.
- BaseCallController.JobTracker.Drain: runs over a given sequence of listings and may stop when they run out before the controller would end.
- StartProtocolR10.Watcher.Monitor: runs over a given sequence of rounds and may stop before the watch ends.
- Float arithmetic is left out. Yield targets are whole gigabases times 10^9 (`row.target * 1e9`, `float(args.target)`). The R9 starter's `experiment_duration` and `mux_scan_period` are kept as the text Python prints for them.
- `total_yield` and everything else that is only printed are left out.
- `mux_scan_results[-1]` raising on an empty list is left out: the pore count is part of each reading.
- The `defaultdict` insertion that printing `target_yields[pos.name]` causes is left out; it changes nothing the loop decides.
- The R10 starter reads the flow cell and status twice; `StartAll` takes the preparation-time and start-time answers as separate parameters rather than one changing instrument.
- `ExperimentSpec` objects are values: `matches[0].position = position` changes the spec in the list, and there is no other alias in the scripts.
- `run_until_rapid.py` (float rates, median and plotting) and `extract_run_info.py` (JSON lookups for printing) are not part of this model.
