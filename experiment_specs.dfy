/**
  The experiment specs shared by both protocol starters: one spec per
  row of the sample sheet, which the starter then matches to a flow-cell
  position, flags for live basecalling, and gives a protocol identifier.
  `start_protocol.r10.py` and `start_protocol.py` carry the same code for
  all of this; they differ only in what a position without a flow cell
  does when the identifiers are looked up.
 */
module ExperimentSpecs {
  import opened Wrappers

  /** One row of the sample sheet. */
  datatype SheetEntry = SheetEntry(positionId: string, sampleId: string, experimentId: string)

  /** A flow-cell position of the instrument, known by its name. */
  datatype Position = Position(name: string)

  /** An `ExperimentSpec`: a row, the position it runs on, whether to basecall, and its protocol. */
  datatype Spec = Spec(entry: SheetEntry, position: Option<Position>, basecalling: bool, protocolId: string)

  /** Why a starter ends early. */
  datatype Halt =
    | MultipleExperiments  // two rows name one position: `sys.exit(1)`
    | NoPosition           // a row whose position was never found: `None.connect()` raises
    | NoProtocol           // no protocol fits: `None.identifier` raises
    | NoFlowCell           // `start_protocol.py` only: `sys.exit(1)`

  datatype Result<T> = Ok(value: T) | Fail(halt: Halt)

  /** What the instrument reports about the flow cell in a position. */
  datatype FlowCellInfo = FlowCellInfo(hasFlowCell: bool, productCode: string, userProductCode: string)

  /** One `start_protocol` call: where, which protocol, with what arguments, and for which sample. */
  datatype Start = Start(position: string, protocolId: string, args: seq<string>, sampleId: string, groupId: string)

  /**
    The specs a starter's start loop gets through: all of them, or those
    before the first without a position, where `spec.position.connect()`
    raises.
   */
  function Connected(specs: seq<Spec>): (n: nat)
    ensures n <= |specs| && forall k :: 0 <= k < n ==> specs[k].position.Some?
    ensures n < |specs| ==> specs[n].position.None?
  {
    if |specs| == 0 then 0
    else
      var n := Connected(specs[..|specs| - 1]);
      if n == |specs| - 1 && specs[n].position.Some? then |specs| else n
  }

  /** A fresh spec for each row, with no position, no basecalling and no protocol yet. */
  function FreshSpecs(rows: seq<SheetEntry>): (r: seq<Spec>)
    ensures |r| == |rows|
    ensures forall k :: 0 <= k < |r| ==> r[k].entry == rows[k] && r[k].position == None
    ensures forall k :: 0 <= k < |r| ==> !r[k].basecalling && r[k].protocolId == ""
  {
    seq(|rows|, k requires 0 <= k < |rows| => Spec(rows[k], None, false, ""))
  }

  /** The spec's row names the position. */
  predicate Matches(spec: Spec, name: string)
  {
    spec.entry.positionId == name
  }

  /** The indices of the specs whose row names position `name`, in order. */
  function MatchIndices(specs: seq<Spec>, name: string): (ks: seq<nat>)
    ensures forall j :: 0 <= j < |ks| ==> ks[j] < |specs| && Matches(specs[ks[j]], name)
    ensures forall k :: 0 <= k < |specs| && Matches(specs[k], name) ==> k in ks
    ensures forall i, j :: 0 <= i < j < |ks| ==> ks[i] < ks[j]
  {
    if |specs| == 0 then []
    else
      var n := |specs| - 1;
      var before := MatchIndices(specs[..n], name);
      if Matches(specs[n], name) then before + [n] else before
  }

  /**
    `add_position_to_specs`: the one spec whose row names the position
    runs on it; with none nothing changes, with several the starter exits.
   */
  function WithPosition(specs: seq<Spec>, p: Position): Result<seq<Spec>>
  {
    var ks := MatchIndices(specs, p.name);
    if |ks| == 0 then Ok(specs)
    else if |ks| > 1 then Fail(MultipleExperiments)
    else Ok(specs[ks[0] := specs[ks[0]].(position := Some(p))])
  }

  /** With no row naming the position there are no matches. */
  lemma {:induction false} NoMatches(specs: seq<Spec>, name: string)
    requires forall k :: 0 <= k < |specs| ==> !Matches(specs[k], name)
    ensures MatchIndices(specs, name) == []
  {
    if |specs| > 0 {
      var n := |specs| - 1;
      NoMatches(specs[..n], name);
    }
  }

  /** With only row `k` naming the position, it is the one match. */
  lemma {:induction false} OneMatch(specs: seq<Spec>, name: string, k: nat)
    requires k < |specs| && Matches(specs[k], name)
    requires forall j :: 0 <= j < |specs| && j != k ==> !Matches(specs[j], name)
    ensures MatchIndices(specs, name) == [k]
  {
    var n := |specs| - 1;
    if n == k {
      NoMatches(specs[..n], name);
    } else {
      OneMatch(specs[..n], name, k);
    }
  }

  /** No row names the position: the specs are left as they are. */
  lemma PositionNoMatch(specs: seq<Spec>, p: Position)
    requires forall k :: 0 <= k < |specs| ==> !Matches(specs[k], p.name)
    ensures WithPosition(specs, p) == Ok(specs)
  {
    NoMatches(specs, p.name);
  }

  /** Two rows name the position: the starter exits. */
  lemma PositionManyMatches(specs: seq<Spec>, p: Position, i: nat, j: nat)
    requires i < j < |specs| && Matches(specs[i], p.name) && Matches(specs[j], p.name)
    ensures WithPosition(specs, p) == Fail(MultipleExperiments)
  {
    var ks := MatchIndices(specs, p.name);
    assert i in ks && j in ks;
  }

  /** Exactly row `k` names the position: that spec, and no other, gets it. */
  lemma PositionOneMatch(specs: seq<Spec>, p: Position, k: nat)
    requires k < |specs| && Matches(specs[k], p.name)
    requires forall j :: 0 <= j < |specs| && j != k ==> !Matches(specs[j], p.name)
    ensures WithPosition(specs, p).Ok?
    ensures var r := WithPosition(specs, p).value;
      |r| == |specs| && r[k] == specs[k].(position := Some(p)) &&
      forall j :: 0 <= j < |specs| && j != k ==> r[j] == specs[j]
  {
    OneMatch(specs, p.name, k);
  }

  /** `add_position_info`: every position of the instrument in turn, stopping at an exit. */
  function WithPositions(specs: seq<Spec>, positions: seq<Position>): Result<seq<Spec>>
  {
    if |positions| == 0 then Ok(specs)
    else
      match WithPositions(specs, positions[..|positions| - 1])
      case Fail(h) => Fail(h)
      case Ok(s) => WithPosition(s, positions[|positions| - 1])
  }

  /** A spec whose position came from `positions` by its own row's name, or was already there. */
  predicate PlacedFrom(before: Spec, after: Spec, positions: seq<Position>)
  {
    after.(position := before.position) == before &&
    (after.position == before.position ||
     exists j :: 0 <= j < |positions| && after.position == Some(positions[j]) && positions[j].name == before.entry.positionId)
  }

  /**
    Placing the positions changes nothing but the positions of the specs,
    and each spec only receives a position its own row names.
   */
  lemma {:induction false} WithPositionsPlaces(specs: seq<Spec>, positions: seq<Position>)
    requires WithPositions(specs, positions).Ok?
    ensures var r := WithPositions(specs, positions).value;
      |r| == |specs| && forall k :: 0 <= k < |specs| ==> PlacedFrom(specs[k], r[k], positions)
  {
    if |positions| > 0 {
      var n := |positions| - 1;
      var init := positions[..n];
      WithPositionsPlaces(specs, init);
      var s := WithPositions(specs, init).value;
      var r := WithPositions(specs, positions).value;
      var ks := MatchIndices(s, positions[n].name);
      forall k | 0 <= k < |specs|
        ensures PlacedFrom(specs[k], r[k], positions)
      {
        assert PlacedFrom(specs[k], s[k], init);
        if r[k] != s[k] {
          assert k == ks[0];
          assert r[k].position == Some(positions[n]);
        } else if s[k].position != specs[k].position {
          var j :| 0 <= j < |init| && s[k].position == Some(init[j]) && init[j].name == specs[k].entry.positionId;
          assert positions[j] == init[j];
        }
      }
    }
  }

  /**
    `add_basecalling_info`: the specs in order are flagged for
    basecalling until `num` are, then the loop returns.
   */
  function FlagFirst(specs: seq<Spec>, num: int): (r: seq<Spec>)
    ensures |r| == |specs|
  {
    seq(|specs|, k requires 0 <= k < |specs| => if k < num then specs[k].(basecalling := true) else specs[k])
  }

  /**
    Starting from fresh specs, exactly the first `min(num, |specs|)` are
    basecalled (none when `num` is not positive), and nothing else changes.
   */
  lemma FlagFirstExactly(specs: seq<Spec>, num: int)
    requires forall k :: 0 <= k < |specs| ==> !specs[k].basecalling
    ensures var r := FlagFirst(specs, num);
      (forall k :: 0 <= k < |specs| ==> (r[k].basecalling <==> k < num)) &&
      (forall k :: 0 <= k < |specs| ==> r[k].(basecalling := false) == specs[k])
  {
  }

  /** The product code, or the one the user gave when the flow cell reports none. */
  function ProductCode(info: FlowCellInfo): (r: string)
    ensures r == info.productCode || r == info.userProductCode
    ensures r == "" <==> info.productCode == "" && info.userProductCode == ""
  {
    if info.productCode == "" then info.userProductCode else info.productCode
  }

  /**
    One spec in `add_protocol_ids`: connect to its position (which fails
    without one), read the flow cell, and look up the protocol for the
    product code, kit and basecalling choice. Without a flow cell the
    spec is skipped, or the starter exits when `exitOnEmpty`.
   */
  function WithProtocolId(spec: Spec, cells: string -> FlowCellInfo, kit: string,
                          find: (string, string, bool) -> Option<string>, exitOnEmpty: bool): Result<Spec>
  {
    if spec.position.None? then Fail(NoPosition)
    else
      var info := cells(spec.position.value.name);
      if !info.hasFlowCell then (if exitOnEmpty then Fail(NoFlowCell) else Ok(spec))
      else
        match find(ProductCode(info), kit, spec.basecalling)
        case None => Fail(NoProtocol)
        case Some(id) => Ok(spec.(protocolId := id))
  }

  /** `add_protocol_ids`: every spec in order, up to the first that ends the starter. */
  function ProtocolIds(specs: seq<Spec>, cells: string -> FlowCellInfo, kit: string,
                       find: (string, string, bool) -> Option<string>, exitOnEmpty: bool): Result<seq<Spec>>
  {
    if |specs| == 0 then Ok([])
    else
      match ProtocolIds(specs[..|specs| - 1], cells, kit, find, exitOnEmpty)
      case Fail(h) => Fail(h)
      case Ok(done) =>
        match WithProtocolId(specs[|specs| - 1], cells, kit, find, exitOnEmpty)
        case Fail(h) => Fail(h)
        case Ok(s) => Ok(done + [s])
  }

  /** The identifiers are all found exactly when no spec ends the starter, and then each spec gets its own. */
  lemma {:induction false} ProtocolIdsOk(specs: seq<Spec>, cells: string -> FlowCellInfo, kit: string,
                                         find: (string, string, bool) -> Option<string>, exitOnEmpty: bool)
    ensures var r := ProtocolIds(specs, cells, kit, find, exitOnEmpty);
      r.Ok? <==> forall k :: 0 <= k < |specs| ==> WithProtocolId(specs[k], cells, kit, find, exitOnEmpty).Ok?
    ensures var r := ProtocolIds(specs, cells, kit, find, exitOnEmpty);
      r.Ok? ==> (|r.value| == |specs| &&
        forall k :: 0 <= k < |specs| ==> r.value[k] == WithProtocolId(specs[k], cells, kit, find, exitOnEmpty).value)
  {
    if |specs| > 0 {
      var n := |specs| - 1;
      ProtocolIdsOk(specs[..n], cells, kit, find, exitOnEmpty);
      if ProtocolIds(specs[..n], cells, kit, find, exitOnEmpty).Fail? {
        var k :| 0 <= k < n && WithProtocolId(specs[..n][k], cells, kit, find, exitOnEmpty).Fail?;
        assert specs[..n][k] == specs[k];
      } else {
        forall k | 0 <= k < n
          ensures WithProtocolId(specs[k], cells, kit, find, exitOnEmpty).Ok?
        {
          assert specs[..n][k] == specs[k];
        }
      }
    }
  }

  /** The starter ends at the first spec that ends it, with that spec's reason. */
  lemma {:induction false} ProtocolIdsFail(specs: seq<Spec>, cells: string -> FlowCellInfo, kit: string,
                                           find: (string, string, bool) -> Option<string>, exitOnEmpty: bool)
    requires ProtocolIds(specs, cells, kit, find, exitOnEmpty).Fail?
    ensures exists k :: (0 <= k < |specs| &&
      WithProtocolId(specs[k], cells, kit, find, exitOnEmpty) == Fail(ProtocolIds(specs, cells, kit, find, exitOnEmpty).halt) &&
      forall j :: 0 <= j < k ==> WithProtocolId(specs[j], cells, kit, find, exitOnEmpty).Ok?)
  {
    var n := |specs| - 1;
    var h := ProtocolIds(specs, cells, kit, find, exitOnEmpty).halt;
    if ProtocolIds(specs[..n], cells, kit, find, exitOnEmpty).Fail? {
      ProtocolIdsFail(specs[..n], cells, kit, find, exitOnEmpty);
      var k :| 0 <= k < n &&
        WithProtocolId(specs[..n][k], cells, kit, find, exitOnEmpty) == Fail(h) &&
        forall j :: 0 <= j < k ==> WithProtocolId(specs[..n][j], cells, kit, find, exitOnEmpty).Ok?;
      assert specs[..n][k] == specs[k];
      forall j | 0 <= j < k
        ensures WithProtocolId(specs[j], cells, kit, find, exitOnEmpty).Ok?
      {
        assert specs[..n][j] == specs[j];
      }
    } else {
      ProtocolIdsOk(specs[..n], cells, kit, find, exitOnEmpty);
      forall j | 0 <= j < n
        ensures WithProtocolId(specs[j], cells, kit, find, exitOnEmpty).Ok?
      {
        assert specs[..n][j] == specs[j];
      }
    }
  }

  /** A looked-up spec keeps its row, position and basecalling; it gets a protocol only with a flow cell. */
  lemma ProtocolIdOf(spec: Spec, cells: string -> FlowCellInfo, kit: string,
                     find: (string, string, bool) -> Option<string>, exitOnEmpty: bool)
    requires WithProtocolId(spec, cells, kit, find, exitOnEmpty).Ok?
    ensures var s := WithProtocolId(spec, cells, kit, find, exitOnEmpty).value;
      var info := cells(spec.position.value.name);
      spec.position.Some? && s.(protocolId := spec.protocolId) == spec &&
      (info.hasFlowCell ==> Some(s.protocolId) == find(ProductCode(info), kit, spec.basecalling)) &&
      (!info.hasFlowCell ==> !exitOnEmpty && s == spec)
  {
  }

  /** The list of specs that the starter builds up and updates in place. */
  class SpecList {
    var specs: seq<Spec>

    constructor ()
      ensures specs == []
    {
      specs := [];
    }

    /** `add_sample_sheet_entries`: a spec for each row of the sheet, if one was given. */
    method AddSampleSheetEntries(sheet: Option<seq<SheetEntry>>)
      modifies this
      ensures specs == old(specs) + (if sheet.Some? then FreshSpecs(sheet.value) else [])
    {
      if sheet.None? {
        return;
      }
      var rows := sheet.value;
      ghost var s0 := specs;
      var i := 0;
      while i < |rows|
        invariant 0 <= i <= |rows|
        invariant specs == s0 + FreshSpecs(rows[..i])
      {
        assert FreshSpecs(rows[..i + 1]) == FreshSpecs(rows[..i]) + [Spec(rows[i], None, false, "")];
        specs := specs + [Spec(rows[i], None, false, "")];
        i := i + 1;
      }
      assert rows[..i] == rows;
    }

    /** `add_position_to_specs`; `ok` is false where the starter exits. */
    method AddPositionToSpecs(p: Position) returns (ok: bool)
      modifies this
      ensures ok ==> WithPosition(old(specs), p) == Ok(specs)
      ensures !ok ==> WithPosition(old(specs), p) == Fail(MultipleExperiments)
    {
      var matches := MatchIndices(specs, p.name);
      if |matches| == 0 {
        return true;
      }
      if |matches| > 1 {
        return false;
      }
      specs := specs[matches[0] := specs[matches[0]].(position := Some(p))];
      ok := true;
    }

    /** `add_position_info`: the instrument's positions in order. */
    method AddPositionInfo(positions: seq<Position>) returns (ok: bool)
      modifies this
      ensures ok ==> WithPositions(old(specs), positions) == Ok(specs)
      ensures !ok ==> WithPositions(old(specs), positions) == Fail(MultipleExperiments)
    {
      ghost var s0 := specs;
      var i := 0;
      while i < |positions|
        invariant 0 <= i <= |positions|
        invariant WithPositions(s0, positions[..i]) == Ok(specs)
      {
        assert positions[..i + 1][..i] == positions[..i];
        ok := AddPositionToSpecs(positions[i]);
        if !ok {
          AbortStays(s0, positions, i + 1);
          return;
        }
        i := i + 1;
      }
      assert positions[..i] == positions;
      ok := true;
    }

    /** `add_basecalling_info`. */
    method AddBasecallingInfo(num: int)
      modifies this
      ensures specs == FlagFirst(old(specs), num)
    {
      ghost var s0 := specs;
      var i := 0;
      while i < |specs|
        invariant 0 <= i <= |specs| && |specs| == |s0|
        invariant forall k :: 0 <= k < |s0| ==> specs[k] == if k < i then FlagFirst(s0, num)[k] else s0[k]
      {
        if i < num {
          specs := specs[i := specs[i].(basecalling := true)];
        } else {
          return;
        }
        i := i + 1;
      }
    }
  }

  /** Once a position ends the starter, the later ones do not matter. */
  lemma {:induction false} AbortStays(specs: seq<Spec>, positions: seq<Position>, n: nat)
    requires n <= |positions| && WithPositions(specs, positions[..n]).Fail?
    ensures WithPositions(specs, positions) == WithPositions(specs, positions[..n])
    decreases |positions|
  {
    if n < |positions| {
      var init := positions[..|positions| - 1];
      assert init[..n] == positions[..n];
      AbortStays(specs, init, n);
    } else {
      assert positions[..n] == positions;
    }
  }

  /**
    `add_protocol_ids` of either starter, with `exitOnEmpty` telling
    whether a position without a flow cell ends it; `halted` is the reason
    the starter ends, if it does.
   */
  method AddProtocolIds(list: SpecList, cells: string -> FlowCellInfo, kit: string,
                        find: (string, string, bool) -> Option<string>, exitOnEmpty: bool)
    returns (halted: Option<Halt>)
    modifies list
    ensures halted.None? ==> ProtocolIds(old(list.specs), cells, kit, find, exitOnEmpty) == Ok(list.specs)
    ensures halted.Some? ==> ProtocolIds(old(list.specs), cells, kit, find, exitOnEmpty) == Fail(halted.value)
  {
    ghost var s0 := list.specs;
    var i := 0;
    while i < |list.specs|
      invariant 0 <= i <= |list.specs| && |list.specs| == |s0|
      invariant ProtocolIds(s0[..i], cells, kit, find, exitOnEmpty) == Ok(list.specs[..i])
      invariant list.specs[i..] == s0[i..]
    {
      assert s0[..i + 1][..i] == s0[..i];
      assert list.specs[i] == s0[i] by { assert list.specs[i..][0] == s0[i..][0]; }
      var spec := list.specs[i];
      if spec.position.None? {
        IdsStopAt(s0, i + 1, cells, kit, find, exitOnEmpty);
        return Some(NoPosition);
      }
      var info := cells(spec.position.value.name);
      if !info.hasFlowCell {
        if exitOnEmpty {
          IdsStopAt(s0, i + 1, cells, kit, find, exitOnEmpty);
          return Some(NoFlowCell);
        }
        assert list.specs[..i + 1] == list.specs[..i] + [spec];
      } else {
        var code := ProductCode(info);
        var found := find(code, kit, spec.basecalling);
        if found.None? {
          IdsStopAt(s0, i + 1, cells, kit, find, exitOnEmpty);
          return Some(NoProtocol);
        }
        ghost var before := list.specs;
        list.specs := list.specs[i := spec.(protocolId := found.value)];
        assert list.specs[..i] == before[..i];
        assert list.specs[..i + 1] == before[..i] + [spec.(protocolId := found.value)];
        assert list.specs[i + 1..] == before[i + 1..];
      }
      i := i + 1;
    }
    assert s0[..i] == s0 && list.specs[..i] == list.specs;
    halted := None;
  }

  /** Once a spec ends the lookup, the later ones do not matter. */
  lemma {:induction false} IdsStopAt(specs: seq<Spec>, n: nat, cells: string -> FlowCellInfo, kit: string,
                                     find: (string, string, bool) -> Option<string>, exitOnEmpty: bool)
    requires n <= |specs| && ProtocolIds(specs[..n], cells, kit, find, exitOnEmpty).Fail?
    ensures ProtocolIds(specs, cells, kit, find, exitOnEmpty) == ProtocolIds(specs[..n], cells, kit, find, exitOnEmpty)
    decreases |specs|
  {
    if n < |specs| {
      var init := specs[..|specs| - 1];
      assert init[..n] == specs[..n];
      IdsStopAt(init, n, cells, kit, find, exitOnEmpty);
    } else {
      assert specs[..n] == specs;
    }
  }

  /**
    The first four steps of either starter's `main`: the sheet's rows as
    specs, their positions, the basecalling flags and the protocols.
   */
  function Prepared(sheet: Option<seq<SheetEntry>>, positions: seq<Position>, num: int,
                    cells: string -> FlowCellInfo, kit: string,
                    find: (string, string, bool) -> Option<string>, exitOnEmpty: bool): Result<seq<Spec>>
  {
    var initial := if sheet.Some? then FreshSpecs(sheet.value) else [];
    match WithPositions(initial, positions)
    case Fail(h) => Fail(h)
    case Ok(placed) => ProtocolIds(FlagFirst(placed, num), cells, kit, find, exitOnEmpty)
  }

  /** Runs those four steps on a new list of specs; `halted` is the reason the starter ends, if it does. */
  method Prepare(sheet: Option<seq<SheetEntry>>, positions: seq<Position>, num: int,
                 cells: string -> FlowCellInfo, kit: string,
                 find: (string, string, bool) -> Option<string>, exitOnEmpty: bool)
    returns (specs: seq<Spec>, halted: Option<Halt>)
    ensures halted.None? ==> Prepared(sheet, positions, num, cells, kit, find, exitOnEmpty) == Ok(specs)
    ensures halted.Some? ==> Prepared(sheet, positions, num, cells, kit, find, exitOnEmpty) == Fail(halted.value)
  {
    var list := new SpecList();
    list.AddSampleSheetEntries(sheet);
    assert list.specs == if sheet.Some? then FreshSpecs(sheet.value) else [];
    var ok := list.AddPositionInfo(positions);
    if !ok {
      return [], Some(MultipleExperiments);
    }
    list.AddBasecallingInfo(num);
    halted := AddProtocolIds(list, cells, kit, find, exitOnEmpty);
    specs := list.specs;
  }
}
