/**
 * Dispensing, blowing out and dropping a tip: every channel of the pipette
 * releases liquid from its tip into the well its channel reaches. Blow-out and
 * drop-tip release everything the tip holds (the full-volume mode); drop-tip
 * then records that the pipette has no tip.
 */
module DispenseHandler {
  import opened Liquid
  import opened RobotModel
  import opened Channels

  // ---------------------------------------------------------------------------
  // What the handlers compute.

  /** What a tip gives up: everything it holds in full-volume mode, otherwise the requested volume. */
  ghost function ReleasedVolume(useFullVolume: bool, volume: real, tip: Contents): real
  {
    if useFullVolume then Total(tip) else volume
  }

  /** One channel: the tip gives up its draw and the well takes it in. */
  ghost function Release(useFullVolume: bool, volume: real, tip: Contents, well: Contents): TipAndWell
  {
    var split := SplitLiquid(ReleasedVolume(useFullVolume, volume, tip), tip);
    TipAndWell(split.source, MergeLiquid(well, split.dest))
  }

  ghost function ReleaseStep(useFullVolume: bool, volume: real): (Contents, Contents) -> TipAndWell
  {
    (tip: Contents, well: Contents) => Release(useFullVolume, volume, tip, well)
  }

  /** What a full-volume release pours into the well: every ingredient the tip holds (at 0 when it holds nothing). */
  ghost function Poured(tip: Contents): Contents
  {
    if Total(tip) != 0.0 then tip else Zeroed(tip)
  }

  /** Releasing liquid raises no warning. */
  function NoWarnings(): Contents -> seq<Warning>
  {
    (well: Contents) => []
  }

  /** dispenseUpdateLiquidState: channels 0 .. |wells|-1 in order, channel i releasing into wells[i]. */
  ghost function DispenseLiquid(
    ls: LiquidState, p: PipetteId, lw: LabwareId, wells: seq<WellName>, useFullVolume: bool, volume: real): LiquidState
  {
    ChannelFold(ls, p, lw, wells, ReleaseStep(useFullVolume, volume), |wells|)
  }

  /** The robot state after a dispense; tips and modules are untouched. */
  ghost function Dispense(params: Params, ctx: InvariantContext, s: RobotState, useFullVolume: bool): (r: RobotState)
    ensures r.tipState == s.tipState && r.modules == s.modules
  {
    var wells := ctx.wellsForTips(params.pipette, params.labware, params.well);
    s.(liquidState := DispenseLiquid(s.liquidState, params.pipette, params.labware, wells, useFullVolume, params.volume))
  }

  /** The robot state after a drop-tip: the full-volume dispense, then the pipette's tip flag cleared. */
  ghost function DropTip(params: Params, ctx: InvariantContext, s: RobotState): (r: RobotState)
    ensures r.tipState.tipracks == s.tipState.tipracks && r.modules == s.modules
    ensures r.tipState.pipettes == s.tipState.pipettes[params.pipette := false]
  {
    var dispensed := Dispense(params, ctx, s, true);
    dispensed.(tipState := dispensed.tipState.(pipettes := dispensed.tipState.pipettes[params.pipette := false]))
  }

  // ---------------------------------------------------------------------------
  // The handlers, on the draft in place.

  /** One channel's release, computed. */
  method ReleaseOne(useFullVolume: bool, volume: real, tip: Contents, well: Contents) returns (out: TipAndWell)
    ensures out == ReleaseStep(useFullVolume, volume)(tip, well)
  {
    var total := LocationTotalVolume(tip);
    var split := SplitWithTotal(if useFullVolume then total else volume, tip, total);
    out := TipAndWell(split.source, MergeLiquid(well, split.dest));
  }

  /** dispenseUpdateLiquidState, channel by channel. */
  method DispenseUpdateLiquidState(
    ls0: LiquidState, p: PipetteId, lw: LabwareId, wells: seq<WellName>, useFullVolume: bool, volume: real)
    returns (ls: LiquidState)
    ensures ls == DispenseLiquid(ls0, p, lw, wells, useFullVolume, volume)
  {
    ls := ls0;
    var i := 0;
    while i < |wells|
      invariant 0 <= i <= |wells|
      invariant ls == ChannelFold(ls0, p, lw, wells, ReleaseStep(useFullVolume, volume), i)
    {
      FoldNext(ls0, p, lw, wells, ReleaseStep(useFullVolume, volume), NoWarnings(), i);
      var out := ReleaseOne(useFullVolume, volume, At(ls, TipOf(p, i)), At(ls, WellOf(lw, wells[i])));
      ls := ls[TipOf(p, i) := out.tip][WellOf(lw, wells[i]) := out.well];
      i := i + 1;
    }
  }

  /** forDispense: releases `params.volume` from each tip. */
  method ForDispense(params: Params, ctx: InvariantContext, draft: Draft)
    modifies draft
    ensures draft.Value() ==
      AppendStep(old(draft.Value()), RobotStateAndWarnings(Dispense(params, ctx, old(draft.robotState), false), []))
  {
    var wells := ctx.wellsForTips(params.pipette, params.labware, params.well);
    var ls := DispenseUpdateLiquidState(draft.robotState.liquidState, params.pipette, params.labware, wells, false, params.volume);
    draft.robotState := draft.robotState.(liquidState := ls);
  }

  /** forBlowout: empties every tip of the pipette into the wells its channels reach. */
  method ForBlowout(params: Params, ctx: InvariantContext, draft: Draft)
    modifies draft
    ensures draft.Value() ==
      AppendStep(old(draft.Value()), RobotStateAndWarnings(Dispense(params, ctx, old(draft.robotState), true), []))
  {
    var wells := ctx.wellsForTips(params.pipette, params.labware, params.well);
    var ls := DispenseUpdateLiquidState(draft.robotState.liquidState, params.pipette, params.labware, wells, true, params.volume);
    draft.robotState := draft.robotState.(liquidState := ls);
  }

  /** forDropTip: empties every tip into the target well, then marks the pipette as having no tip. */
  method ForDropTip(params: Params, ctx: InvariantContext, draft: Draft)
    modifies draft
    ensures draft.Value() ==
      AppendStep(old(draft.Value()), RobotStateAndWarnings(DropTip(params, ctx, old(draft.robotState)), []))
  {
    var wells := ctx.wellsForTips(params.pipette, params.labware, params.well);
    var ls := DispenseUpdateLiquidState(draft.robotState.liquidState, params.pipette, params.labware, wells, true, params.volume);
    var tips := draft.robotState.tipState;
    draft.robotState := draft.robotState.(liquidState := ls, tipState := tips.(pipettes := tips.pipettes[params.pipette := false]));
  }

  // ---------------------------------------------------------------------------
  // One channel.

  /**
   * Full-volume release: the tip keeps its ingredients but holds nothing
   * (every entry at 0 when it held anything), and the well gains exactly what
   * the tip held, every ingredient merged in.
   */
  lemma ReleaseAll(volume: real, tip: Contents, well: Contents)
    ensures var out := Release(true, volume, tip, well);
      && out.tip.Keys == tip.Keys
      && Total(out.tip) == 0.0
      && Total(out.well) == Total(well) + Total(tip)
      && (Total(tip) != 0.0 ==> out == TipAndWell(Zeroed(tip), MergeLiquid(well, tip)))
      && (Total(tip) == 0.0 ==> out == TipAndWell(tip, MergeLiquid(well, Zeroed(tip))))
      && out.well == MergeLiquid(well, Poured(tip))
  {
    var split := SplitLiquid(Total(tip), tip);
    if Total(tip) != 0.0 {
      SplitEverything(tip);
      TotalZeroed(tip);
    } else {
      assert split == SourceAndDest(tip, Zeroed(tip));
      TotalZeroed(tip);
    }
    TotalMerge(well, split.dest);
  }

  /** A release of `volume`: the well gains exactly `volume`; the tip loses it, or everything when it held less. */
  lemma ReleaseVolumes(volume: real, tip: Contents, well: Contents)
    requires NonNegative(tip) && volume >= 0.0
    ensures var out := Release(false, volume, tip, well);
      && Total(out.well) == Total(well) + volume
      && Total(out.tip) == if volume > Total(tip) then 0.0 else Total(tip) - volume
  {
    SplitTotals(volume, tip);
    TotalMerge(well, SplitLiquid(volume, tip).dest);
  }

  /** An empty tip releases nothing: tip and well stay as they were. */
  lemma ReleaseEmptyTip(volume: real, well: Contents)
    ensures Release(true, volume, map[], well) == TipAndWell(map[], well)
  {
    TotalEmpty();
    assert SplitLiquid(0.0, map[]) == SourceAndDest(map[], map[]);
    MergeEmpty(well);
  }

  // ---------------------------------------------------------------------------
  // The whole pipette.

  /** With the channels at different wells, channel i's tip and well end as its own release makes them. */
  lemma DispenseSeparateChannel(
    params: Params, ctx: InvariantContext, s: RobotState, useFullVolume: bool, wells: seq<WellName>, i: nat)
    requires wells == ctx.wellsForTips(params.pipette, params.labware, params.well)
    requires DistinctWells(wells, |wells|) && i < |wells|
    ensures var out := Release(useFullVolume, params.volume,
        At(s.liquidState, TipOf(params.pipette, i)), At(s.liquidState, WellOf(params.labware, wells[i])));
      && At(Dispense(params, ctx, s, useFullVolume).liquidState, TipOf(params.pipette, i)) == out.tip
      && At(Dispense(params, ctx, s, useFullVolume).liquidState, WellOf(params.labware, wells[i])) == out.well
  {
    FoldChannel(s.liquidState, params.pipette, params.labware, wells, ReleaseStep(useFullVolume, params.volume), |wells|, i);
  }

  /** A dispense changes only the pipette's tips and the wells its channels reach. */
  lemma DispenseFrame(
    params: Params, ctx: InvariantContext, s: RobotState, useFullVolume: bool, wells: seq<WellName>, loc: Location)
    requires wells == ctx.wellsForTips(params.pipette, params.labware, params.well)
    requires Untouched(params.pipette, params.labware, wells, |wells|, loc)
    ensures At(Dispense(params, ctx, s, useFullVolume).liquidState, loc) == At(s.liquidState, loc)
  {
    FoldKeepsOthers(s.liquidState, params.pipette, params.labware, wells, ReleaseStep(useFullVolume, params.volume), |wells|, loc);
  }

  /** A full-volume dispense leaves every tip of the pipette holding nothing. */
  lemma FullDispenseEmptiesTips(ls: LiquidState, p: PipetteId, lw: LabwareId, wells: seq<WellName>, volume: real, i: nat)
    requires i < |wells|
    ensures Total(At(DispenseLiquid(ls, p, lw, wells, true, volume), TipOf(p, i))) == 0.0
  {
    var step := ReleaseStep(true, volume);
    forall tip, well
      ensures Total(step(tip, well).tip) == 0.0
    {
      ReleaseAll(volume, tip, well);
    }
    FoldEmptiesTips(ls, p, lw, wells, step, |wells|, i);
  }

  /**
   * All channels emptying into one well `w` (a trough, or the trash): the well
   * gains what all the tips held together.
   */
  lemma FullDispenseIntoOneWell(ls: LiquidState, p: PipetteId, lw: LabwareId, w: WellName, wells: seq<WellName>, volume: real)
    requires forall j :: 0 <= j < |wells| ==> wells[j] == w
    ensures Total(At(DispenseLiquid(ls, p, lw, wells, true, volume), WellOf(lw, w))) ==
      Total(At(ls, WellOf(lw, w))) + TipsTotal(ls, p, |wells|)
  {
    var step := ReleaseStep(true, volume);
    forall tip, well
      ensures Total(step(tip, well).well) == Total(well) + Total(tip)
    {
      ReleaseAll(volume, tip, well);
    }
    FoldIntoOneWell(ls, p, lw, w, wells, step, |wells|);
  }

  /**
   * After a full-volume dispense, whatever wells the channels reach, tip i
   * keeps each ingredient it held at 0 (or is left as it was when it held
   * nothing).
   */
  lemma FullDispenseTip(ls: LiquidState, p: PipetteId, lw: LabwareId, wells: seq<WellName>, volume: real, i: nat)
    requires i < |wells|
    ensures var tip := At(ls, TipOf(p, i));
      At(DispenseLiquid(ls, p, lw, wells, true, volume), TipOf(p, i)) == if Total(tip) != 0.0 then Zeroed(tip) else tip
  {
    var step := ReleaseStep(true, volume);
    forall tip, w1, w2
      ensures step(tip, w1).tip == step(tip, w2).tip
    {
    }
    FoldTipOnly(ls, p, lw, wells, step, |wells|, i, map[]);
    ReleaseAll(volume, At(ls, TipOf(p, i)), map[]);
  }

  /**
   * All channels emptying into one well `w` (the trash, say): the well ends
   * as it was with every tip's ingredients merged in, in channel order.
   */
  lemma FullDispenseIntoOneWellContents(ls: LiquidState, p: PipetteId, lw: LabwareId, w: WellName, wells: seq<WellName>, volume: real)
    requires forall j :: 0 <= j < |wells| ==> wells[j] == w
    ensures At(DispenseLiquid(ls, p, lw, wells, true, volume), WellOf(lw, w)) ==
      MergeFromTips(At(ls, WellOf(lw, w)), ls, p, tip => Poured(tip), |wells|)
  {
    var step := ReleaseStep(true, volume);
    forall tip, well
      ensures step(tip, well).well == MergeLiquid(well, Poured(tip))
    {
      ReleaseAll(volume, tip, well);
    }
    FoldIntoOneWellContents(ls, p, lw, w, wells, step, tip => Poured(tip), |wells|);
  }

  /** When every tip of the pipette is empty, a full-volume dispense leaves every location as it was. */
  lemma EmptyTipsKeepLiquid(ls: LiquidState, p: PipetteId, lw: LabwareId, wells: seq<WellName>, volume: real, loc: Location)
    requires forall j :: 0 <= j < |wells| ==> At(ls, TipOf(p, j)) == map[]
    ensures At(DispenseLiquid(ls, p, lw, wells, true, volume), loc) == At(ls, loc)
  {
    var step := ReleaseStep(true, volume);
    forall well
      ensures step(map[], well) == TipAndWell(map[], well)
    {
      ReleaseEmptyTip(volume, well);
    }
    FoldOverEmptyTips(ls, p, lw, wells, step, |wells|, loc);
  }

  /**
   * Dropping tips that hold nothing changes only the pipette's tip flag: the
   * liquid state, the tipracks, the other pipettes and the modules are as they
   * were, provided the table already lists every location the channels reach.
   */
  lemma DropEmptyTips(params: Params, ctx: InvariantContext, s: RobotState, wells: seq<WellName>)
    requires wells == ctx.wellsForTips(params.pipette, params.labware, params.well)
    requires forall j :: 0 <= j < |wells| ==>
      TipOf(params.pipette, j) in s.liquidState && s.liquidState[TipOf(params.pipette, j)] == map[]
    requires forall j :: 0 <= j < |wells| ==> WellOf(params.labware, wells[j]) in s.liquidState
    ensures DropTip(params, ctx, s) == s.(tipState := s.tipState.(pipettes := s.tipState.pipettes[params.pipette := false]))
  {
    var ls := s.liquidState;
    var step := ReleaseStep(true, params.volume);
    var after := ChannelFold(ls, params.pipette, params.labware, wells, step, |wells|);
    FoldKeys(ls, params.pipette, params.labware, wells, step, |wells|);
    forall loc | loc in ls
      ensures after[loc] == ls[loc]
    {
      EmptyTipsKeepLiquid(ls, params.pipette, params.labware, wells, params.volume, loc);
    }
    assert after == ls;
  }

  // ---------------------------------------------------------------------------
  // The cases the handlers' tests pin down.

  /**
   * Blowing out, or dropping, a tip holding 150 µL of one ingredient into a
   * pristine well: the tip is left at 0 of it and the well holds the 150.
   */
  lemma ReleaseOneHundredFifty(volume: real)
    ensures Release(true, volume, map["ingred1" := 150.0], map[]) ==
      TipAndWell(map["ingred1" := 0.0], map["ingred1" := 150.0])
  {
    TotalSingleton("ingred1", 150.0);
    ReleaseAll(volume, map["ingred1" := 150.0], map[]);
    MergeEmpty(map["ingred1" := 150.0]);
  }

  /**
   * Dropping the tips of an 8-channel pipette into a single-well trash, with
   * only tip 0 holding 150 µL of one ingredient and the trash well pristine:
   * tip 0 keeps that ingredient at 0, the other tips stay empty, the trash
   * well holds the 150, and the pipette has no tip.
   */
  lemma EightChannelDropIntoTrash(params: Params, ctx: InvariantContext, s: RobotState)
    requires ctx.wellsForTips(params.pipette, params.labware, params.well) == seq(8, _ => params.well)
    requires At(s.liquidState, TipOf(params.pipette, 0)) == map["ingred1" := 150.0]
    requires forall j :: 1 <= j < 8 ==> At(s.liquidState, TipOf(params.pipette, j)) == map[]
    requires At(s.liquidState, WellOf(params.labware, params.well)) == map[]
    ensures At(DropTip(params, ctx, s).liquidState, TipOf(params.pipette, 0)) == map["ingred1" := 0.0]
    ensures forall j :: 1 <= j < 8 ==> At(DropTip(params, ctx, s).liquidState, TipOf(params.pipette, j)) == map[]
    ensures At(DropTip(params, ctx, s).liquidState, WellOf(params.labware, params.well)) == map["ingred1" := 150.0]
    ensures DropTip(params, ctx, s).tipState.pipettes == s.tipState.pipettes[params.pipette := false]
  {
    var ls := s.liquidState;
    var p := params.pipette;
    var wells := seq(8, _ => params.well);
    var tip0 := map["ingred1" := 150.0];
    assert Total(tip0) == 150.0 by { TotalSingleton("ingred1", 150.0); }
    FullDispenseTip(ls, p, params.labware, wells, params.volume, 0);
    forall j | 1 <= j < 8
      ensures At(DispenseLiquid(ls, p, params.labware, wells, true, params.volume), TipOf(p, j)) == map[]
    {
      FullDispenseTip(ls, p, params.labware, wells, params.volume, j);
      TotalEmpty();
    }
    var give := tip => Poured(tip);
    assert give(map[]) == map[] by { TotalEmpty(); }
    FullDispenseIntoOneWellContents(ls, p, params.labware, params.well, wells, params.volume);
    MergeFromEmptyTips(map[], ls, p, give, 1, 8);
    MergeEmpty(tip0);
  }

  // ---------------------------------------------------------------------------
  // No negative volumes.

  /** One channel's release keeps its tip and well non-negative, given a non-negative volume when one is asked for. */
  lemma ReleaseNonNegative(useFullVolume: bool, volume: real, tip: Contents, well: Contents)
    requires useFullVolume || volume >= 0.0
    requires NonNegative(tip) && NonNegative(well)
    ensures NonNegative(Release(useFullVolume, volume, tip, well).tip)
    ensures NonNegative(Release(useFullVolume, volume, tip, well).well)
  {
    TotalBounds(tip);
    var split := SplitLiquid(ReleasedVolume(useFullVolume, volume, tip), tip);
    SplitNonNegative(ReleasedVolume(useFullVolume, volume, tip), tip);
    MergeNonNegative(well, split.dest);
  }

  /**
   * A dispense, blow-out or drop-tip never produces a negative volume: when no
   * location held one before, none holds one after. A partial dispense needs
   * a non-negative volume; the full-volume modes release what the tip holds.
   */
  lemma DispenseNonNegative(params: Params, ctx: InvariantContext, s: RobotState, useFullVolume: bool)
    requires useFullVolume || params.volume >= 0.0
    requires LiquidNonNegative(s.liquidState)
    ensures LiquidNonNegative(Dispense(params, ctx, s, useFullVolume).liquidState)
    ensures LiquidNonNegative(DropTip(params, ctx, s).liquidState)
  {
    var wells := ctx.wellsForTips(params.pipette, params.labware, params.well);
    forall tip, well | NonNegative(tip) && NonNegative(well)
      ensures NonNegative(ReleaseStep(useFullVolume, params.volume)(tip, well).tip)
      ensures NonNegative(ReleaseStep(useFullVolume, params.volume)(tip, well).well)
    {
      ReleaseNonNegative(useFullVolume, params.volume, tip, well);
    }
    forall tip, well | NonNegative(tip) && NonNegative(well)
      ensures NonNegative(ReleaseStep(true, params.volume)(tip, well).tip)
      ensures NonNegative(ReleaseStep(true, params.volume)(tip, well).well)
    {
      ReleaseNonNegative(true, params.volume, tip, well);
    }
    FoldNonNegative(s.liquidState, params.pipette, params.labware, wells, ReleaseStep(useFullVolume, params.volume), |wells|);
    FoldNonNegative(s.liquidState, params.pipette, params.labware, wells, ReleaseStep(true, params.volume), |wells|);
  }
}
