/**
  `start_protocol.r10.py`: starts the sequencing protocol on every
  position of the sample sheet that has a flow cell and is not already
  sequencing, then optionally watches the yields and ends each run once
  it passes its target.
 */
module StartProtocolR10 {
  import opened Wrappers
  import opened ExperimentSpecs

  /** The acquisition status `PROCESSING`: the flow cell is sequencing. */
  const Processing: int := 3

  /** The arguments every run starts with. */
  const CommonArguments: seq<string> := [
    "--fast5=off", "--pod5=on", "--fastq=off", "--generate_bulk_file=off",
    "--active_channel_selection=on", "--pod5_reads_per_file=10000", "--mux_scan_period=2",
    "--pore_reserve=off", "--min_read_length=200", "--kit", "SQK-LSK114-XL"]

  /** Live basecalling on, with the modified-base model and a quality floor of 10. */
  const BasecallingOn: seq<string> := [
    "--base_calling=on", "--fastq=off", "--bam=on",
    "--guppy_filename=dna_r10.4.1_e8.2_400bps_5khz_modbases_5hmc_5mc_cg_sup_prom.cfg",
    "--read_filtering", "min_qscore=10", "--read_splitting", "enable=on", "--min_read_length=200"]

  const BasecallingOff: seq<string> := ["--base_calling=off", "--bam=off"]

  /** The protocol arguments for a spec. */
  function ProtocolArguments(basecalling: bool): seq<string>
  {
    CommonArguments + (if basecalling then BasecallingOn else BasecallingOff)
  }

  /**
    The arguments are the eleven common ones followed by the basecalling
    block or exactly `--base_calling=off --bam=off`; which one can be read
    back from the arguments.
   */
  lemma ArgumentsShape(basecalling: bool)
    ensures var args := ProtocolArguments(basecalling);
      |args| == (if basecalling then 20 else 13) && args[..11] == CommonArguments &&
      args[11..] == (if basecalling then BasecallingOn else BasecallingOff) &&
      ("--base_calling=on" in args <==> basecalling) && ("--base_calling=off" in args <==> !basecalling)
  {
    var args := ProtocolArguments(basecalling);
    assert args[..11] == CommonArguments;
    assert args[11..] == if basecalling then BasecallingOn else BasecallingOff;
    if basecalling {
      assert args[11] == "--base_calling=on";
      assert "--base_calling=off" !in CommonArguments && "--base_calling=off" !in BasecallingOn;
    } else {
      assert args[11] == "--base_calling=off";
      assert "--base_calling=on" !in CommonArguments && "--base_calling=on" !in BasecallingOff;
    }
  }

  /** What the start loop did: the positions it recorded, the runs it started, and why it ended early if it did. */
  datatype Launch = Launch(samplePositions: seq<string>, starts: seq<Start>, halted: Option<Halt>)

  /** The spec's position has a flow cell that is not already sequencing, so a run is started. */
  predicate Starts(spec: Spec, cells: string -> FlowCellInfo, status: string -> int)
    requires spec.position.Some?
  {
    var name := spec.position.value.name;
    cells(name).hasFlowCell && status(name) != Processing
  }

  /** The run started for a spec. */
  function StartOf(spec: Spec): Start
    requires spec.position.Some?
  {
    Start(spec.position.value.name, spec.protocolId, ProtocolArguments(spec.basecalling),
          spec.entry.sampleId, spec.entry.experimentId)
  }

  /**
    One spec of the start loop: connect (which fails without a position),
    record the position, then start a run unless there is no flow cell or
    it is already sequencing.
   */
  function LaunchStep(acc: Launch, spec: Spec, cells: string -> FlowCellInfo, status: string -> int): Launch
  {
    if acc.halted.Some? then acc
    else if spec.position.None? then acc.(halted := Some(NoPosition))
    else
      var positions := acc.samplePositions + [spec.position.value.name];
      if Starts(spec, cells, status) then Launch(positions, acc.starts + [StartOf(spec)], None)
      else Launch(positions, acc.starts, None)
  }

  /** The start loop over all specs. */
  function Launches(specs: seq<Spec>, cells: string -> FlowCellInfo, status: string -> int): Launch
  {
    if |specs| == 0 then Launch([], [], None)
    else LaunchStep(Launches(specs[..|specs| - 1], cells, status), specs[|specs| - 1], cells, status)
  }

  /**
    The loop stops at the first spec without a position, having recorded
    the position of every spec before it, in order.
   */
  lemma {:induction false} LaunchesPositions(specs: seq<Spec>, cells: string -> FlowCellInfo, status: string -> int)
    ensures var l := Launches(specs, cells, status); var n := Connected(specs);
      (l.halted.None? <==> n == |specs|) && (l.halted.Some? ==> l.halted.value == NoPosition) &&
      |l.samplePositions| == n &&
      forall k :: 0 <= k < n ==> l.samplePositions[k] == specs[k].position.value.name
  {
    if |specs| > 0 {
      var m := |specs| - 1;
      LaunchesPositions(specs[..m], cells, status);
      var n0 := Connected(specs[..m]);
      forall k | 0 <= k < n0
        ensures specs[..m][k] == specs[k]
      {
      }
    }
  }

  /**
    The runs the loop started are, in order, those of the specs it got
    through whose flow cell is present and not already sequencing.
   */
  lemma {:induction false} LaunchesStarts(specs: seq<Spec>, cells: string -> FlowCellInfo, status: string -> int)
    ensures Launches(specs, cells, status).starts == StartsOf(specs[..Connected(specs)], cells, status)
  {
    if |specs| > 0 {
      var m := |specs| - 1;
      var init := specs[..m];
      LaunchesStarts(init, cells, status);
      LaunchesPositions(init, cells, status);
      var n0 := Connected(init);
      if n0 == m && specs[m].position.Some? {
        assert init[..m] == init;
        assert specs[..|specs|] == specs;
      } else {
        assert Connected(specs) == n0;
        assert init[..n0] == specs[..n0];
      }
    }
  }

  /** The runs started for the specs that start one, in order. */
  function StartsOf(specs: seq<Spec>, cells: string -> FlowCellInfo, status: string -> int): seq<Start>
    requires forall k :: 0 <= k < |specs| ==> specs[k].position.Some?
  {
    if |specs| == 0 then []
    else
      var last := specs[|specs| - 1];
      StartsOf(specs[..|specs| - 1], cells, status) + (if Starts(last, cells, status) then [StartOf(last)] else [])
  }

  /** Every run started belongs to a spec that starts one, and such a spec gets exactly the run of its spec. */
  lemma {:induction false} StartsOfMembers(specs: seq<Spec>, cells: string -> FlowCellInfo, status: string -> int)
    requires forall k :: 0 <= k < |specs| ==> specs[k].position.Some?
    ensures forall s :: s in StartsOf(specs, cells, status) <==>
      exists k :: 0 <= k < |specs| && Starts(specs[k], cells, status) && s == StartOf(specs[k])
  {
    if |specs| > 0 {
      var m := |specs| - 1;
      StartsOfMembers(specs[..m], cells, status);
      forall s | s in StartsOf(specs, cells, status)
        ensures exists k :: 0 <= k < |specs| && Starts(specs[k], cells, status) && s == StartOf(specs[k])
      {
        if s in StartsOf(specs[..m], cells, status) {
          var k :| 0 <= k < m && Starts(specs[..m][k], cells, status) && s == StartOf(specs[..m][k]);
          assert specs[..m][k] == specs[k];
        }
      }
      forall k | 0 <= k < |specs| && Starts(specs[k], cells, status)
        ensures StartOf(specs[k]) in StartsOf(specs, cells, status)
      {
        if k < m {
          assert specs[..m][k] == specs[k];
        }
      }
    }
  }

  /** The start loop of `main`. */
  method StartProtocols(specs: seq<Spec>, cells: string -> FlowCellInfo, status: string -> int)
    returns (samplePositions: seq<string>, starts: seq<Start>, halted: Option<Halt>)
    ensures Launch(samplePositions, starts, halted) == Launches(specs, cells, status)
  {
    samplePositions, starts, halted := [], [], None;
    var i := 0;
    while i < |specs|
      invariant 0 <= i <= |specs|
      invariant Launch(samplePositions, starts, None) == Launches(specs[..i], cells, status)
    {
      assert specs[..i + 1][..i] == specs[..i];
      var spec := specs[i];
      if spec.position.None? {
        halted := Some(NoPosition);
        LaunchStops(specs, i + 1, cells, status);
        return;
      }
      var name := spec.position.value.name;
      samplePositions := samplePositions + [name];
      var info := cells(name);
      if !info.hasFlowCell {
        i := i + 1;
        continue;
      }
      if status(name) == Processing {
        i := i + 1;
        continue;  // the flow cell is already sequencing
      }
      starts := starts + [Start(name, spec.protocolId, ProtocolArguments(spec.basecalling),
                                spec.entry.sampleId, spec.entry.experimentId)];
      i := i + 1;
    }
    assert specs[..i] == specs;
  }

  /** Once the loop has ended early, the later specs do not matter. */
  lemma {:induction false} LaunchStops(specs: seq<Spec>, n: nat, cells: string -> FlowCellInfo, status: string -> int)
    requires n <= |specs| && Launches(specs[..n], cells, status).halted.Some?
    ensures Launches(specs, cells, status) == Launches(specs[..n], cells, status)
    decreases |specs|
  {
    if n < |specs| {
      var init := specs[..|specs| - 1];
      assert init[..n] == specs[..n];
      LaunchStops(init, n, cells, status);
    } else {
      assert specs[..n] == specs;
    }
  }

  // The yield targets of the sample sheet.

  /** A target row of the sample sheet: a position and its target in gigabases. */
  datatype TargetRow = TargetRow(positionId: string, gigabases: int)

  const Giga: int := 1000000000

  /** A position the sheet gives no target gets 120 gigabases. */
  const DefaultTarget: int := 120 * Giga

  /** The targets in bases; a later row for a position replaces an earlier one. */
  function TargetTable(rows: seq<TargetRow>): map<string, int>
  {
    if |rows| == 0 then map[]
    else
      var last := rows[|rows| - 1];
      TargetTable(rows[..|rows| - 1])[last.positionId := last.gigabases * Giga]
  }

  /** `target_yields[name]`: the default when the sheet gives none. */
  function TargetOf(table: map<string, int>, name: string): int
  {
    if name in table then table[name] else DefaultTarget
  }

  /** Filling the table of targets row by row. */
  method TargetYields(rows: seq<TargetRow>) returns (table: map<string, int>)
    ensures table == TargetTable(rows)
  {
    table := map[];
    var i := 0;
    while i < |rows|
      invariant 0 <= i <= |rows|
      invariant table == TargetTable(rows[..i])
    {
      assert rows[..i + 1][..i] == rows[..i];
      table := table[rows[i].positionId := rows[i].gigabases * Giga];
      i := i + 1;
    }
    assert rows[..i] == rows;
  }

  /** A position no row names has the 120-gigabase target. */
  lemma {:induction false} TargetDefault(rows: seq<TargetRow>, name: string)
    requires forall k :: 0 <= k < |rows| ==> rows[k].positionId != name
    ensures TargetOf(TargetTable(rows), name) == DefaultTarget
  {
    if |rows| > 0 {
      TargetDefault(rows[..|rows| - 1], name);
    }
  }

  /** A position takes the target of the last row that names it. */
  lemma {:induction false} TargetLastRow(rows: seq<TargetRow>, name: string, k: nat)
    requires k < |rows| && rows[k].positionId == name
    requires forall j :: k < j < |rows| ==> rows[j].positionId != name
    ensures TargetOf(TargetTable(rows), name) == rows[k].gigabases * Giga
  {
    var n := |rows| - 1;
    if k < n {
      TargetLastRow(rows[..n], name, k);
    }
  }

  // The run-until watch.

  /** What one position reports in a round of the watch. */
  datatype Reading = Reading(name: string, hasFlowCell: bool, status: int, yieldBases: int, pores: int)

  /** The positions seen sequencing, and those whose run reached its target. */
  datatype Watch = Watch(running: set<string>, finished: set<string>)

  /** The least number of single pores above which a run that reached its target is stopped. */
  const PoreFloor: int := 2000

  /** The watch looks at a position's yield: one of the sheet's, with a flow cell, sequencing, and not yet finished. */
  predicate Examined(w: Watch, r: Reading, samplePositions: seq<string>)
  {
    r.name !in w.finished && r.name in samplePositions && r.hasFlowCell && r.status == Processing
  }

  /**
    One position in a round: an examined one counts as running; past its
    target it is finished, and its run is stopped while it still has more
    than 2000 pores. Returns the new watch and whether the run was stopped.
   */
  function Observe(w: Watch, r: Reading, samplePositions: seq<string>, table: map<string, int>): (Watch, bool)
  {
    if !Examined(w, r, samplePositions) then (w, false)
    else
      var running := w.running + {r.name};
      var target := TargetOf(table, r.name);
      if r.yieldBases > target && r.pores > PoreFloor then (Watch(running, w.finished + {r.name}), true)
      else if r.yieldBases > target then (Watch(running, w.finished + {r.name}), false)
      else (Watch(running, w.finished), false)
  }

  /** One round of the watch over the positions' readings: the new watch and the runs stopped, in order. */
  function Round(w: Watch, readings: seq<Reading>, samplePositions: seq<string>, table: map<string, int>): (Watch, seq<string>)
  {
    if |readings| == 0 then (w, [])
    else
      var before := Round(w, readings[..|readings| - 1], samplePositions, table);
      var after := Observe(before.0, readings[|readings| - 1], samplePositions, table);
      (after.0, before.1 + (if after.1 then [readings[|readings| - 1].name] else []))
  }

  /** The watch only grows, and a finished position is always one seen running. */
  lemma {:induction false} RoundKeepsFinishedRunning(w: Watch, readings: seq<Reading>, samplePositions: seq<string>,
                                                      table: map<string, int>)
    requires w.finished <= w.running
    ensures var w' := Round(w, readings, samplePositions, table).0;
      w'.finished <= w'.running && w.running <= w'.running && w.finished <= w'.finished
  {
    if |readings| > 0 {
      RoundKeepsFinishedRunning(w, readings[..|readings| - 1], samplePositions, table);
    }
  }

  /** The names of the readings are distinct: each position reports once a round. */
  predicate DistinctNames(readings: seq<Reading>)
  {
    forall i, j :: 0 <= i < j < |readings| ==> readings[i].name != readings[j].name
  }

  /**
    In a round, a position's run is stopped exactly when it is examined,
    its yield is strictly above its target and it has more than 2000
    pores; it is finished afterwards exactly when it was already, or it
    was examined with its yield strictly above its target.
   */
  lemma {:induction false} RoundDecides(w: Watch, readings: seq<Reading>, samplePositions: seq<string>,
                                         table: map<string, int>, k: nat)
    requires DistinctNames(readings) && k < |readings|
    ensures var r := readings[k]; var out := Round(w, readings, samplePositions, table);
      var over := Examined(w, r, samplePositions) && r.yieldBases > TargetOf(table, r.name);
      (r.name in out.1 <==> over && r.pores > PoreFloor) &&
      (r.name in out.0.finished <==> r.name in w.finished || over) &&
      (r.name in out.0.running <==> r.name in w.running || Examined(w, r, samplePositions))
  {
    var n := |readings| - 1;
    var init := readings[..n];
    var name := readings[k].name;
    var before := Round(w, init, samplePositions, table);
    var after := Observe(before.0, readings[n], samplePositions, table);
    assert Round(w, readings, samplePositions, table) ==
      (after.0, before.1 + (if after.1 then [readings[n].name] else []));
    if k < n {
      assert init[k] == readings[k];
      RoundDecides(w, init, samplePositions, table, k);
      ObserveOther(before.0, readings[n], samplePositions, table, name);
    } else {
      assert forall j :: 0 <= j < |init| ==> init[j].name != name by {
        forall j | 0 <= j < |init| ensures init[j].name != name {
          assert init[j] == readings[j];
        }
      }
      RoundUntouched(w, init, samplePositions, table, name);
    }
  }

  /** Observing one position leaves every other position as it was. */
  lemma ObserveOther(w: Watch, r: Reading, samplePositions: seq<string>, table: map<string, int>, name: string)
    requires r.name != name
    ensures var o := Observe(w, r, samplePositions, table);
      (name in o.0.running <==> name in w.running) && (name in o.0.finished <==> name in w.finished)
  {
  }

  /** A position that does not report in a round is left as it was. */
  lemma {:induction false} RoundUntouched(w: Watch, readings: seq<Reading>, samplePositions: seq<string>,
                                           table: map<string, int>, name: string)
    ensures var out := Round(w, readings, samplePositions, table);
      (forall k :: 0 <= k < |readings| ==> readings[k].name != name) ==>
        name !in out.1 && (name in out.0.running <==> name in w.running) &&
        (name in out.0.finished <==> name in w.finished)
  {
    if |readings| > 0 {
      RoundUntouched(w, readings[..|readings| - 1], samplePositions, table, name);
    }
  }

  /** Equal sizes mean every position seen running has finished. */
  lemma QuitMeansAllFinished(w: Watch)
    requires w.finished <= w.running
    ensures |w.running| == |w.finished| <==> w.running == w.finished
  {
    if |w.running| == |w.finished| {
      assert |w.running - w.finished| == |w.running| - |w.finished|;
      assert w.running - w.finished == {};
    }
  }

  /**
    A first round in which no position is examined (none of the sheet's
    runs is sequencing yet) ends the watch at once, with nothing stopped.
   */
  lemma QuietFirstRoundQuits(readings: seq<Reading>, samplePositions: seq<string>, table: map<string, int>)
    requires forall k :: 0 <= k < |readings| ==> !Examined(Watch({}, {}), readings[k], samplePositions)
    ensures var out := Round(Watch({}, {}), readings, samplePositions, table);
      out == (Watch({}, {}), []) && |out.0.running| == |out.0.finished|
  {
    QuietRound(Watch({}, {}), readings, samplePositions, table);
  }

  /** A round in which no position is examined changes nothing. */
  lemma {:induction false} QuietRound(w: Watch, readings: seq<Reading>, samplePositions: seq<string>, table: map<string, int>)
    requires forall k :: 0 <= k < |readings| ==> !Examined(w, readings[k], samplePositions)
    ensures Round(w, readings, samplePositions, table) == (w, [])
  {
    if |readings| > 0 {
      var init := readings[..|readings| - 1];
      forall k | 0 <= k < |init|
        ensures !Examined(w, init[k], samplePositions)
      {
        assert init[k] == readings[k];
      }
      QuietRound(w, init, samplePositions, table);
      assert Round(w, readings, samplePositions, table).1 == [];
    } else {
      assert Round(w, readings, samplePositions, table).1 == [];
    }
  }

  /** The run-until watch: the two sets `main` updates between rounds. */
  class Watcher {
    var running: set<string>
    var finished: set<string>

    function State(): Watch
      reads this
    {
      Watch(running, finished)
    }

    constructor ()
      ensures State() == Watch({}, {})
    {
      running := {};
      finished := {};
    }

    /**
      One round of the watch: returns the runs stopped, in order, and
      whether the watch ends (as many finished as seen running).
     */
    method Poll(readings: seq<Reading>, samplePositions: seq<string>, table: map<string, int>)
      returns (stopped: seq<string>, quit: bool)
      modifies this
      ensures (State(), stopped) == Round(old(State()), readings, samplePositions, table)
      ensures quit <==> |running| == |finished|
    {
      ghost var w0 := State();
      stopped := [];
      var i := 0;
      while i < |readings|
        invariant 0 <= i <= |readings|
        invariant (State(), stopped) == Round(w0, readings[..i], samplePositions, table)
      {
        assert readings[..i + 1][..i] == readings[..i];
        var pos := readings[i];
        ghost var out := Observe(State(), pos, samplePositions, table);
        ghost var stopped0 := stopped;
        if pos.name !in finished && pos.name in samplePositions && pos.hasFlowCell && pos.status == Processing {
          running := running + {pos.name};
          var target := TargetOf(table, pos.name);
          if pos.yieldBases > target && pos.pores > PoreFloor {
            stopped := stopped + [pos.name];  // stop_protocol
            finished := finished + {pos.name};
          } else if pos.yieldBases > target {
            finished := finished + {pos.name};
          }
        }
        assert stopped == stopped0 + (if out.1 then [pos.name] else []);
        i := i + 1;
      }
      assert readings[..i] == readings;
      quit := |running| == |finished|;
    }

    /**
      The `while True` loop of the watch over successive rounds, up to the
      one that ends it or until the rounds run out; `stopped` lists every
      run stopped, in order.
     */
    method Monitor(rounds: seq<seq<Reading>>, samplePositions: seq<string>, table: map<string, int>)
      returns (stopped: seq<string>, quit: bool)
      modifies this
      ensures (State(), stopped, quit) == Watched(old(State()), rounds, samplePositions, table)
    {
      ghost var w0 := State();
      stopped, quit := [], false;
      var i := 0;
      while i < |rounds|
        invariant 0 <= i <= |rounds|
        invariant (State(), stopped, false) == Watched(w0, rounds[..i], samplePositions, table)
      {
        assert rounds[..i + 1][..i] == rounds[..i];
        var more;
        more, quit := Poll(rounds[i], samplePositions, table);
        stopped := stopped + more;
        if quit {
          WatchEnds(w0, rounds, i + 1, samplePositions, table);
          return;
        }
        i := i + 1;
      }
      assert rounds[..i] == rounds;
    }
  }

  /** The rounds of the watch, the last of them the one that ends it, if any does. */
  function Watched(w: Watch, rounds: seq<seq<Reading>>, samplePositions: seq<string>, table: map<string, int>)
    : (Watch, seq<string>, bool)
  {
    if |rounds| == 0 then (w, [], false)
    else
      var before := Watched(w, rounds[..|rounds| - 1], samplePositions, table);
      if before.2 then before
      else
        var out := Round(before.0, rounds[|rounds| - 1], samplePositions, table);
        (out.0, before.1 + out.1, |out.0.running| == |out.0.finished|)
  }

  /** Once the watch has ended, later rounds do not matter. */
  lemma {:induction false} WatchEnds(w: Watch, rounds: seq<seq<Reading>>, n: nat, samplePositions: seq<string>,
                                      table: map<string, int>)
    requires n <= |rounds| && Watched(w, rounds[..n], samplePositions, table).2
    ensures Watched(w, rounds, samplePositions, table) == Watched(w, rounds[..n], samplePositions, table)
    decreases |rounds|
  {
    if n < |rounds| {
      var init := rounds[..|rounds| - 1];
      assert init[..n] == rounds[..n];
      WatchEnds(w, init, n, samplePositions, table);
    } else {
      assert rounds[..n] == rounds;
    }
  }

  /** Through every round the watch keeps its finished positions among the running ones, and it ends only when they are all finished. */
  lemma {:induction false} WatchedEndsAllFinished(w: Watch, rounds: seq<seq<Reading>>, samplePositions: seq<string>,
                                                   table: map<string, int>)
    requires w.finished <= w.running
    ensures var out := Watched(w, rounds, samplePositions, table);
      out.0.finished <= out.0.running && (out.2 ==> out.0.running == out.0.finished)
  {
    if |rounds| > 0 {
      var before := Watched(w, rounds[..|rounds| - 1], samplePositions, table);
      WatchedEndsAllFinished(w, rounds[..|rounds| - 1], samplePositions, table);
      if !before.2 {
        RoundKeepsFinishedRunning(before.0, rounds[|rounds| - 1], samplePositions, table);
        QuitMeansAllFinished(Round(before.0, rounds[|rounds| - 1], samplePositions, table).0);
      }
    }
  }

  /**
    `main`: prepare the specs, start the runs, and, with `--run_until`,
    watch the yields against the sheet's targets. The instrument is read
    through `cells` and `status` while preparing and `cellsNow` and
    `statusNow` while starting; `rounds` are its readings during the watch.
   */
  method StartAll(sheet: Option<seq<SheetEntry>>, positions: seq<Position>, num: int,
                  cells: string -> FlowCellInfo, kit: string, find: (string, string, bool) -> Option<string>,
                  cellsNow: string -> FlowCellInfo, statusNow: string -> int,
                  runUntil: bool, targets: seq<TargetRow>, rounds: seq<seq<Reading>>)
    returns (starts: seq<Start>, stopped: seq<string>, halted: Option<Halt>)
    ensures var prepared := Prepared(sheet, positions, num, cells, kit, find, false);
      prepared.Fail? ==> starts == [] && stopped == [] && halted == Some(prepared.halt)
    ensures var prepared := Prepared(sheet, positions, num, cells, kit, find, false);
      prepared.Ok? ==>
        var l := Launches(prepared.value, cellsNow, statusNow);
        starts == l.starts && halted == l.halted &&
        stopped == (if runUntil && l.halted.None?
                    then Watched(Watch({}, {}), rounds, l.samplePositions, TargetTable(targets)).1 else [])
  {
    var specs;
    specs, halted := Prepare(sheet, positions, num, cells, kit, find, false);
    if halted.Some? {
      return [], [], halted;
    }
    var samplePositions;
    samplePositions, starts, halted := StartProtocols(specs, cellsNow, statusNow);
    stopped := [];
    if halted.Some? || !runUntil {
      return;
    }
    var table := TargetYields(targets);
    var watcher := new Watcher();
    var quit;
    stopped, quit := watcher.Monitor(rounds, samplePositions, table);
  }
}
