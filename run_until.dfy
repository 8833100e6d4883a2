/**
  `run_until.py`: one pass over the instrument's positions that stops
  every watched run whose estimated yield is past a target given in
  gigabases.
 */
module RunUntil {
  import opened Wrappers
  import opened PyText

  /** The acquisition status `PROCESSING`: the flow cell is sequencing. */
  const Processing: int := 3

  const Giga: int := 1000000000

  /**
    The positions to watch: none given means every position; otherwise
    the comma-separated names of the argument, after stripping whitespace
    from its two ends.
   */
  function TargetPositions(flowcellPositions: Option<string>): Option<set<string>>
  {
    if flowcellPositions.None? then None
    else
      var parts := Split(Strip(flowcellPositions.value, Whitespace), ',');
      Some(set k | 0 <= k < |parts| :: parts[k])
  }

  /** The position is watched. */
  predicate Watched(targets: Option<set<string>>, name: string)
  {
    targets.None? || name in targets.value
  }

  /** What a watched position reports. */
  datatype Reading = Reading(name: string, status: int, yieldBases: int)

  /** The run is stopped: watched, sequencing, and its yield strictly past `gigabases` billion bases. */
  predicate Stops(targets: Option<set<string>>, r: Reading, gigabases: int)
  {
    Watched(targets, r.name) && r.status == Processing && r.yieldBases > gigabases * Giga
  }

  /** The runs the pass stops, in the order of the positions. */
  function StopList(readings: seq<Reading>, targets: Option<set<string>>, gigabases: int): seq<string>
  {
    if |readings| == 0 then []
    else
      var last := readings[|readings| - 1];
      StopList(readings[..|readings| - 1], targets, gigabases) + (if Stops(targets, last, gigabases) then [last.name] else [])
  }

  /**
    A position's run is stopped exactly when one of its readings is
    watched, sequencing and strictly past the target; a yield equal to the
    target does not stop it.
   */
  lemma {:induction false} StopListMembers(readings: seq<Reading>, targets: Option<set<string>>, gigabases: int, name: string)
    ensures name in StopList(readings, targets, gigabases) <==>
      exists k :: 0 <= k < |readings| && readings[k].name == name && Stops(targets, readings[k], gigabases)
  {
    if |readings| > 0 {
      var n := |readings| - 1;
      StopListMembers(readings[..n], targets, gigabases, name);
      if exists k :: 0 <= k < n && readings[..n][k].name == name && Stops(targets, readings[..n][k], gigabases) {
        var k :| 0 <= k < n && readings[..n][k].name == name && Stops(targets, readings[..n][k], gigabases);
        assert readings[k] == readings[..n][k];
      }
      if exists k :: 0 <= k < |readings| && readings[k].name == name && Stops(targets, readings[k], gigabases) {
        var k :| 0 <= k < |readings| && readings[k].name == name && Stops(targets, readings[k], gigabases);
        if k < n {
          assert readings[..n][k] == readings[k];
        }
      }
    }
  }

  /**
    `main`'s pass over the positions, `readings` standing for what each
    position reports (a position that is not watched is never read).
   */
  method RunUntil(readings: seq<Reading>, flowcellPositions: Option<string>, gigabases: int)
    returns (stopped: seq<string>)
    ensures stopped == StopList(readings, TargetPositions(flowcellPositions), gigabases)
  {
    var targetYield := gigabases * Giga;
    var targets := TargetPositions(flowcellPositions);
    stopped := [];
    var i := 0;
    while i < |readings|
      invariant 0 <= i <= |readings|
      invariant stopped == StopList(readings[..i], targets, gigabases)
    {
      assert readings[..i + 1][..i] == readings[..i];
      var pos := readings[i];
      if targets.None? || pos.name in targets.value {
        if pos.status != Processing {
          i := i + 1;
          continue;
        }
        if pos.yieldBases > targetYield {
          stopped := stopped + [pos.name];  // stop_protocol
        }
      }
      i := i + 1;
    }
    assert readings[..i] == readings;
  }

  /** A join of non-empty names with neither end blank, by a non-blank separator, has neither end blank. */
  lemma {:induction false} JoinTrimmed(names: seq<string>, c: char)
    requires |names| >= 1 && c !in Whitespace
    requires forall k :: 0 <= k < |names| ==> names[k] != "" && Trimmed(names[k], Whitespace)
    ensures var j := Join(names, [c]); |j| >= |names[0]| && j[..|names[0]|] == names[0] && Trimmed(j, Whitespace)
  {
    if |names| > 1 {
      var rest := names[1..];
      JoinTrimmed(rest, c);
      var j := Join(names, [c]);
      var r := Join(rest, [c]);
      assert j == names[0] + [c] + r;
      assert j[..|names[0]|] == names[0];
      assert j[|j| - 1] == r[|r| - 1];
      assert r[..|rest[0]|] == rest[0];
    }
  }

  /**
    Naming positions on the command line, separated by commas, watches
    exactly those positions, provided no name is empty, holds a comma or
    starts or ends with whitespace.
   */
  lemma TargetPositionsRoundTrip(names: seq<string>)
    requires |names| >= 1
    requires forall k :: 0 <= k < |names| ==> names[k] != "" && ',' !in names[k] && Trimmed(names[k], Whitespace)
    ensures TargetPositions(Some(Join(names, [',']))) == Some(set k | 0 <= k < |names| :: names[k])
  {
    JoinTrimmed(names, ',');
    StripTrimmed(Join(names, [',']), Whitespace);
    SplitJoin(names, ',');
  }

  /** The argument `"1A, 2B"` is cut at its comma, the space kept. */
  lemma {:induction false} SpacedArgumentParts()
    ensures Split(Strip("1A, 2B", Whitespace), ',') == ["1A", " 2B"]
  {
    var names := ["1A", " 2B"];
    assert Join(names, [',']) == "1A, 2B";
    assert Trimmed("1A, 2B", Whitespace);
    StripTrimmed("1A, 2B", Whitespace);
    SplitJoin(names, ',');
  }

  /**
    Only the whole argument is stripped, not the names between commas: a
    space after a comma stays in the next name, so `"1A, 2B"` watches
    `1A` and ` 2B`, and the position `2B` is not watched.
   */
  lemma SpaceAfterCommaKept()
    ensures TargetPositions(Some("1A, 2B")) == Some({"1A", " 2B"})
    ensures !Watched(TargetPositions(Some("1A, 2B")), "2B")
  {
    SpacedArgumentParts();
    var names := ["1A", " 2B"];
    assert (set k | 0 <= k < |names| :: names[k]) == {"1A", " 2B"} by {
      assert names[0] == "1A" && names[1] == " 2B";
    }
    assert " 2B" != "2B" by { assert |" 2B"| != |"2B"|; }
  }
}
