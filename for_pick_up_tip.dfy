/**
 * Picking up tips: the pipette is recorded as carrying a tip, and every
 * tiprack well one of its channels reaches is recorded as used.
 */
module PickUpTipHandler {
  import opened RobotModel

  /** The tiprack's wells as the state records them; a tiprack the state does not list records none. */
  function RackOf(tips: TipState, tiprack: LabwareId): map<WellName, bool>
  {
    if tiprack in tips.tipracks then tips.tipracks[tiprack] else map[]
  }

  /** Reference definition: the rack with every well in `wells` marked used and every other well as it was. */
  function Consumed(rack: map<WellName, bool>, wells: seq<WellName>): map<WellName, bool>
  {
    map w | w in rack.Keys + (set x | x in wells) :: if w in wells then false else rack[w]
  }

  /** The robot state after a pick-up. */
  function PickUpTip(params: Params, ctx: InvariantContext, s: RobotState): RobotState
  {
    var wells := ctx.wellsForTips(params.pipette, params.labware, params.well);
    var tips := s.tipState;
    s.(tipState := TipState(
      tips.tipracks[params.labware := Consumed(RackOf(tips, params.labware), wells)],
      tips.pipettes[params.pipette := true]))
  }

  /** Marking one more well used is marking it after the ones before. */
  lemma ConsumedNext(rack: map<WellName, bool>, wells: seq<WellName>, i: nat)
    requires i < |wells|
    ensures Consumed(rack, wells[..i + 1]) == Consumed(rack, wells[..i])[wells[i] := false]
  {
    assert wells[..i + 1] == wells[..i] + [wells[i]];
  }

  /** Marks the tiprack well of each channel used, channel by channel. */
  method ConsumeTips(rack0: map<WellName, bool>, wells: seq<WellName>) returns (rack: map<WellName, bool>)
    ensures rack == Consumed(rack0, wells)
  {
    rack := rack0;
    var i := 0;
    assert wells[..0] == [];
    while i < |wells|
      invariant 0 <= i <= |wells|
      invariant rack == Consumed(rack0, wells[..i])
    {
      ConsumedNext(rack0, wells, i);
      rack := rack[wells[i] := false];
      i := i + 1;
    }
    assert wells[..|wells|] == wells;
  }

  /** forPickUpTip: sets the pipette's tip flag and uses up the tips its channels reach. */
  method ForPickUpTip(params: Params, ctx: InvariantContext, draft: Draft)
    modifies draft
    ensures draft.Value() ==
      AppendStep(old(draft.Value()), RobotStateAndWarnings(PickUpTip(params, ctx, old(draft.robotState)), []))
  {
    var wells := ctx.wellsForTips(params.pipette, params.labware, params.well);
    var tips := draft.robotState.tipState;
    var rack := ConsumeTips(RackOf(tips, params.labware), wells);
    draft.robotState := draft.robotState.(tipState := TipState(
      tips.tipracks[params.labware := rack], tips.pipettes[params.pipette := true]));
  }

  /**
   * A pick-up marks exactly the wells its channels reach as used in the named
   * tiprack, leaves every other well of it, every other tiprack, the liquid
   * and the modules as they were, and sets only this pipette's tip flag.
   */
  lemma PickUpTipChanges(params: Params, ctx: InvariantContext, s: RobotState, tiprack: LabwareId, w: WellName, p: PipetteId)
    ensures var wells := ctx.wellsForTips(params.pipette, params.labware, params.well);
      var r := PickUpTip(params, ctx, s);
      && r.liquidState == s.liquidState && r.modules == s.modules
      && params.labware in r.tipState.tipracks
      && (w in wells ==> w in r.tipState.tipracks[params.labware] && !r.tipState.tipracks[params.labware][w])
      && (w !in wells ==> (w in RackOf(r.tipState, params.labware) <==> w in RackOf(s.tipState, params.labware)))
      && (w !in wells && w in RackOf(s.tipState, params.labware) ==>
            RackOf(r.tipState, params.labware)[w] == RackOf(s.tipState, params.labware)[w])
      && (tiprack != params.labware ==> RackOf(r.tipState, tiprack) == RackOf(s.tipState, tiprack))
      && params.pipette in r.tipState.pipettes && r.tipState.pipettes[params.pipette]
      && (p != params.pipette ==> (p in r.tipState.pipettes <==> p in s.tipState.pipettes))
      && (p != params.pipette && p in s.tipState.pipettes ==> r.tipState.pipettes[p] == s.tipState.pipettes[p])
  {
  }

  /**
   * A single-channel pick-up at A1 of a listed tiprack marks only A1 used; an
   * 8-channel pick-up at A1 marks the whole first column used.
   */
  lemma PickUpScenarios(rack: map<WellName, bool>)
    ensures Consumed(rack, ["A1"]) == rack["A1" := false]
    ensures Consumed(rack, ["A1", "B1", "C1", "D1", "E1", "F1", "G1", "H1"]) ==
      rack["A1" := false]["B1" := false]["C1" := false]["D1" := false]["E1" := false]["F1" := false]["G1" := false]["H1" := false]
  {
  }
}
