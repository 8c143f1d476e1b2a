/**
 * The aspirate cases the handler's tests pin down, proved on the model: one
 * channel at one well, eight channels down one plate column, and eight
 * channels sharing one trough well.
 */
module AspirateScenarios {
  import opened Liquid
  import opened RobotModel
  import opened Channels
  import opened AspirateHandler

  const ING1: IngredientId := "ingred1"
  const ING2: IngredientId := "ingred2"

  /** 50 µL from a well of 200 µL of one ingredient into a fresh tip. */
  lemma DrawFiftyOfTwoHundred()
    ensures Draw(50.0, map[], map[ING1 := 200.0]) == TipAndWell(map[ING1 := 50.0], map[ING1 := 150.0])
    ensures AspirateWarnings(map[ING1 := 200.0], 50.0, Total(map[ING1 := 200.0])) == []
  {
    var well := map[ING1 := 200.0];
    TotalSingleton(ING1, 200.0);
    var split := SplitLiquid(50.0, well);
    assert split.dest == map[ING1 := 50.0];
    assert split.source == map[ING1 := 150.0];
    MergeEmpty(split.dest);
  }

  /** 300 µL from 200 µL: the tip takes all 200 plus 100 of air, the well is left at 0. */
  lemma DrawEverythingPlusAir()
    ensures Draw(300.0, map[], map[ING1 := 200.0]) ==
      TipAndWell(map[ING1 := 200.0, AIR := 100.0], map[ING1 := 0.0])
    ensures AspirateWarnings(map[ING1 := 200.0], 300.0, Total(map[ING1 := 200.0])) == [AspirateMoreThanWellContents]
  {
    var well := map[ING1 := 200.0];
    TotalSingleton(ING1, 200.0);
    var split := SplitLiquid(300.0, well);
    assert split.dest == map[ING1 := 200.0, AIR := 100.0];
    MergeEmpty(split.dest);
  }

  /** 60 µL from 200 + 100 µL of two ingredients: each gives up in proportion, 40 and 20. */
  lemma DrawFromTwoIngredients()
    ensures Draw(60.0, map[], map[ING1 := 200.0, ING2 := 100.0]) ==
      TipAndWell(map[ING1 := 40.0, ING2 := 20.0], map[ING1 := 160.0, ING2 := 80.0])
    ensures AspirateWarnings(map[ING1 := 200.0, ING2 := 100.0], 60.0, Total(map[ING1 := 200.0, ING2 := 100.0])) == []
  {
    var well := map[ING1 := 200.0, ING2 := 100.0];
    TotalPair(ING1, 200.0, ING2, 100.0);
    var split := SplitLiquid(60.0, well);
    assert split.dest == map[ING1 := 40.0, ING2 := 20.0];
    assert split.source == map[ING1 := 160.0, ING2 := 80.0];
    MergeEmpty(split.dest);
  }

  /** 150 µL from 60 + 70 µL: the tip takes both and 20 of air, both ingredients are left at 0. */
  lemma DrawTwoIngredientsPlusAir()
    ensures Draw(150.0, map[], map[ING1 := 60.0, ING2 := 70.0]) ==
      TipAndWell(map[ING1 := 60.0, ING2 := 70.0, AIR := 20.0], map[ING1 := 0.0, ING2 := 0.0])
    ensures AspirateWarnings(map[ING1 := 60.0, ING2 := 70.0], 150.0, Total(map[ING1 := 60.0, ING2 := 70.0])) ==
      [AspirateMoreThanWellContents]
  {
    var well := map[ING1 := 60.0, ING2 := 70.0];
    TotalPair(ING1, 60.0, ING2, 70.0);
    var split := SplitLiquid(150.0, well);
    assert split.dest == map[ING1 := 60.0, ING2 := 70.0, AIR := 20.0];
    MergeEmpty(split.dest);
  }

  /** A tip already holding 30 µL of the ingredient ends with 80 after drawing 50. */
  lemma DrawIntoUsedTip()
    ensures Draw(50.0, map[ING1 := 30.0], map[ING1 := 200.0]) == TipAndWell(map[ING1 := 80.0], map[ING1 := 150.0])
  {
    var well := map[ING1 := 200.0];
    TotalSingleton(ING1, 200.0);
    var split := SplitLiquid(50.0, well);
    assert split.dest == map[ING1 := 50.0];
    assert split.source == map[ING1 := 150.0];
  }

  /**
   * An aspirate whose channels all reach one well (a trough): tip i gains one
   * channel's draw from its 1/n share of the well. Every location other than
   * the tips and the well is unchanged (`AspirateFrame`).
   */
  lemma AspirateTrough(params: Params, ctx: InvariantContext, s: RobotState, wells: seq<WellName>, i: nat)
    requires wells == ctx.wellsForTips(params.pipette, params.labware, params.well)
    requires AllWellsShared(wells) && i < |wells|
    ensures var well := At(s.liquidState, WellOf(params.labware, wells[0]));
      At(Aspirate(params, ctx, s).robotState.liquidState, TipOf(params.pipette, i)) ==
        MergeLiquid(At(s.liquidState, TipOf(params.pipette, i)), SplitLiquid(params.volume, Divided(well, |wells|)).dest)
  {
    AspirateIsShared(params, ctx, s, wells);
    SharedWellEffect(s.liquidState, params.pipette, params.labware, wells[0], |wells|, params.volume, i);
  }

  /**
   * An aspirate whose channels all reach one well raises the single warning
   * for that well: pristine, over-aspiration exactly when one channel's volume
   * exceeds its 1/n share, or none.
   */
  lemma AspirateTroughWarnings(params: Params, ctx: InvariantContext, s: RobotState, wells: seq<WellName>)
    requires wells == ctx.wellsForTips(params.pipette, params.labware, params.well)
    requires AllWellsShared(wells)
    ensures var well := At(s.liquidState, WellOf(params.labware, wells[0]));
      Aspirate(params, ctx, s).warnings ==
        if |well| == 0 then [AspirateFromPristineWell]
        else if params.volume > Total(well) / |wells| as real then [AspirateMoreThanWellContents]
        else []
  {
    AspirateIsShared(params, ctx, s, wells);
    SharedWellWarnings(s.liquidState, params.pipette, params.labware, wells[0], |wells|, params.volume);
  }

  /** 20 µL on each of 8 channels from a 300 µL trough well: 20 in each tip, 140 left, no warning. */
  lemma TroughWithinContents()
    ensures SplitLiquid(20.0, Divided(map[ING1 := 300.0], 8)).dest == map[ING1 := 20.0]
    ensures SplitLiquid(20.0 * 8 as real, map[ING1 := 300.0]).source == map[ING1 := 140.0]
    ensures AspirateWarnings(map[ING1 := 300.0], 20.0 * 8 as real, Total(map[ING1 := 300.0])) == []
  {
    var d := Divided(map[ING1 := 300.0], 8);
    assert d == map[ING1 := 37.5];
    TotalSingleton(ING1, 37.5);
    TotalSingleton(ING1, 300.0);
    assert SplitLiquid(20.0, d).dest == map[ING1 := 20.0];
    assert SplitLiquid(160.0, map[ING1 := 300.0]).source == map[ING1 := 140.0];
  }

  /**
   * 50 µL on each of 8 channels from a 300 µL trough well: each tip gets 300/8
   * of the ingredient and 50 - 300/8 of air, the well is left at 0, and one
   * warning is raised for the well, not one per channel.
   */
  lemma TroughShortfall()
    ensures SplitLiquid(50.0, Divided(map[ING1 := 300.0], 8)).dest == map[ING1 := 37.5, AIR := 12.5]
    ensures SplitLiquid(50.0 * 8 as real, map[ING1 := 300.0]).source == map[ING1 := 0.0]
    ensures AspirateWarnings(map[ING1 := 300.0], 50.0 * 8 as real, Total(map[ING1 := 300.0])) == [AspirateMoreThanWellContents]
  {
    var d := Divided(map[ING1 := 300.0], 8);
    assert d == map[ING1 := 37.5];
    TotalSingleton(ING1, 37.5);
    TotalSingleton(ING1, 300.0);
    assert SplitLiquid(50.0, d).dest == map[ING1 := 37.5, AIR := 12.5];
  }

  /** 20 µL on each of 8 channels from a pristine trough well: all air in each tip, the well stays pristine, one warning. */
  lemma TroughPristine()
    ensures SplitLiquid(20.0, Divided(map[], 8)).dest == map[AIR := 20.0]
    ensures SplitLiquid(20.0 * 8 as real, map[]).source == map[]
    ensures AspirateWarnings(map[], 20.0 * 8 as real, Total(map[])) == [AspirateFromPristineWell]
  {
    assert Divided(map[], 8) == map[];
    SplitPristine(20.0);
    SplitPristine(160.0);
  }

  /** Column 1 of a 96-well plate, as the eight channels of a multi-channel pipette reach it from A1. */
  const COLUMN1: seq<WellName> := ["A1", "B1", "C1", "D1", "E1", "F1", "G1", "H1"]

  /** A1 holds 200 µL and B1 150 µL of one ingredient; the rest of column 1 is pristine. */
  predicate TwoFilledRows(ls: LiquidState, lw: LabwareId)
  {
    && At(ls, WellOf(lw, COLUMN1[0])) == map[ING1 := 200.0]
    && At(ls, WellOf(lw, COLUMN1[1])) == map[ING1 := 150.0]
    && forall i :: 2 <= i < 8 ==> At(ls, WellOf(lw, COLUMN1[i])) == map[]
  }

  /**
   * The warnings of column 1, row by row: at 50 µL per channel rows A and B
   * have enough and rows C to H each raise a pristine-well warning; at 250 µL
   * rows A and B each raise an over-aspiration warning first.
   */
  lemma {:induction false} ColumnWarnings(ls: LiquidState, lw: LabwareId, volume: real)
    requires TwoFilledRows(ls, lw)
    ensures volume == 50.0 ==> WarningsPerWell(ls, lw, COLUMN1, DrawWarning(volume), 8) == seq(6, _ => AspirateFromPristineWell)
    ensures volume == 250.0 ==>
      WarningsPerWell(ls, lw, COLUMN1, DrawWarning(volume), 8) == [AspirateMoreThanWellContents, AspirateMoreThanWellContents] + seq(6, _ => AspirateFromPristineWell)
  {
    var warn := DrawWarning(volume);
    var a := AspirateWarnings(map[ING1 := 200.0], volume, 200.0);
    var b := AspirateWarnings(map[ING1 := 150.0], volume, 150.0);
    assert warn(At(ls, WellOf(lw, COLUMN1[0]))) == a by { TotalSingleton(ING1, 200.0); }
    assert warn(At(ls, WellOf(lw, COLUMN1[1]))) == b by { TotalSingleton(ING1, 150.0); }
    PristineRows(ls, lw, volume, 8);
    assert WarningsPerWell(ls, lw, COLUMN1, warn, 1) == a;
    assert WarningsPerWell(ls, lw, COLUMN1, warn, 2) == a + b;
    assert ING1 in map[ING1 := 200.0] && ING1 in map[ING1 := 150.0];
  }

  /** Rows C up to row n - 1 add one pristine-well warning each. */
  lemma {:induction false} PristineRows(ls: LiquidState, lw: LabwareId, volume: real, n: nat)
    requires TwoFilledRows(ls, lw) && 2 <= n <= 8
    ensures WarningsPerWell(ls, lw, COLUMN1, DrawWarning(volume), n) ==
      WarningsPerWell(ls, lw, COLUMN1, DrawWarning(volume), 2) + seq(n - 2, _ => AspirateFromPristineWell)
  {
    if n > 2 {
      PristineRows(ls, lw, volume, n - 1);
      assert At(ls, WellOf(lw, COLUMN1[n - 1])) == map[];
    }
  }

  /**
   * An 8-channel aspirate on column 1 with A1 at 200 µL, B1 at 150 µL and the
   * rest pristine raises one warning per channel that needs one, in channel order.
   */
  lemma EightChannelPlate(params: Params, ctx: InvariantContext, s: RobotState)
    requires ctx.wellsForTips(params.pipette, params.labware, params.well) == COLUMN1
    requires TwoFilledRows(s.liquidState, params.labware)
    ensures params.volume == 50.0 ==> Aspirate(params, ctx, s).warnings == seq(6, _ => AspirateFromPristineWell)
    ensures params.volume == 250.0 ==>
      Aspirate(params, ctx, s).warnings == [AspirateMoreThanWellContents, AspirateMoreThanWellContents] + seq(6, _ => AspirateFromPristineWell)
  {
    assert DistinctWells(COLUMN1, 8);
    AspirateWarningsPerWell(params, ctx, s, COLUMN1);
    ColumnWarnings(s.liquidState, params.labware, params.volume);
  }

  /** 250 µL into a fresh tip from row A (200 µL), row B (150 µL) and a pristine row. */
  lemma ColumnDraws()
    ensures Draw(250.0, map[], map[ING1 := 200.0]) == TipAndWell(map[ING1 := 200.0, AIR := 50.0], map[ING1 := 0.0])
    ensures Draw(250.0, map[], map[ING1 := 150.0]) == TipAndWell(map[ING1 := 150.0, AIR := 100.0], map[ING1 := 0.0])
    ensures Draw(250.0, map[], map[]) == TipAndWell(map[AIR := 250.0], map[])
  {
    var a := map[ING1 := 200.0];
    var b := map[ING1 := 150.0];
    assert Draw(250.0, map[], a) == TipAndWell(map[ING1 := 200.0, AIR := 50.0], map[ING1 := 0.0]) by {
      TotalSingleton(ING1, 200.0);
      MergeEmpty(SplitLiquid(250.0, a).dest);
    }
    assert Draw(250.0, map[], b) == TipAndWell(map[ING1 := 150.0, AIR := 100.0], map[ING1 := 0.0]) by {
      TotalSingleton(ING1, 150.0);
      MergeEmpty(SplitLiquid(250.0, b).dest);
    }
    DrawFromPristine(250.0, map[]);
    MergeEmpty(map[AIR := 250.0]);
  }

  /**
   * The contents after 250 µL per channel down column 1 into fresh tips: rows
   * A and B each give up all they hold, their tips padding the rest with air.
   */
  lemma EightChannelPlateContents(params: Params, ctx: InvariantContext, s: RobotState)
    requires ctx.wellsForTips(params.pipette, params.labware, params.well) == COLUMN1
    requires TwoFilledRows(s.liquidState, params.labware) && params.volume == 250.0
    requires forall i :: 0 <= i < 8 ==> At(s.liquidState, TipOf(params.pipette, i)) == map[]
    ensures var after := Aspirate(params, ctx, s).robotState.liquidState;
      && At(after, TipOf(params.pipette, 0)) == map[ING1 := 200.0, AIR := 50.0]
      && At(after, WellOf(params.labware, COLUMN1[0])) == map[ING1 := 0.0]
      && At(after, TipOf(params.pipette, 1)) == map[ING1 := 150.0, AIR := 100.0]
      && At(after, WellOf(params.labware, COLUMN1[1])) == map[ING1 := 0.0]
  {
    assert DistinctWells(COLUMN1, 8);
    ColumnDraws();
    AspirateSeparateChannel(params, ctx, s, COLUMN1, 0);
    AspirateSeparateChannel(params, ctx, s, COLUMN1, 1);
  }

  /**
   * Rows C to H in the same command: pristine wells, so each of those tips
   * holds only air and each well stays pristine.
   */
  lemma EightChannelPlatePristineRows(params: Params, ctx: InvariantContext, s: RobotState, j: nat)
    requires ctx.wellsForTips(params.pipette, params.labware, params.well) == COLUMN1
    requires TwoFilledRows(s.liquidState, params.labware) && params.volume == 250.0
    requires forall i :: 0 <= i < 8 ==> At(s.liquidState, TipOf(params.pipette, i)) == map[]
    requires 2 <= j < 8
    ensures var after := Aspirate(params, ctx, s).robotState.liquidState;
      && At(after, TipOf(params.pipette, j)) == map[AIR := 250.0]
      && At(after, WellOf(params.labware, COLUMN1[j])) == map[]
  {
    assert DistinctWells(COLUMN1, 8);
    ColumnDraws();
    AspirateSeparateChannel(params, ctx, s, COLUMN1, j);
  }

  /** 50 µL into a tip already holding 30 µL of the ingredient, from row B (150 µL): the tip ends with 80, the well with 100. */
  lemma DrawFromRowBIntoUsedTip()
    ensures Draw(50.0, map[ING1 := 30.0], map[ING1 := 150.0]) == TipAndWell(map[ING1 := 80.0], map[ING1 := 100.0])
  {
    var b := map[ING1 := 150.0];
    TotalSingleton(ING1, 150.0);
    assert SplitLiquid(50.0, b).dest == map[ING1 := 50.0];
    assert SplitLiquid(50.0, b).source == map[ING1 := 100.0];
  }

  /** 50 µL into a tip already holding 30 µL of the ingredient, from a pristine well: the tip gains 50 of air. */
  lemma DrawPristineIntoUsedTip()
    ensures Draw(50.0, map[ING1 := 30.0], map[]) == TipAndWell(map[ING1 := 30.0, AIR := 50.0], map[])
  {
    DrawFromPristine(50.0, map[ING1 := 30.0]);
    assert MergeLiquid(map[ING1 := 30.0], map[AIR := 50.0]) == map[ING1 := 30.0, AIR := 50.0];
  }

  /**
   * The contents after 50 µL per channel down column 1 into tips that each
   * already hold 30 µL of the ingredient: rows A and B give up 50 each, and
   * their tips end with 80 of the ingredient.
   */
  lemma UsedTipsPlateContents(params: Params, ctx: InvariantContext, s: RobotState)
    requires ctx.wellsForTips(params.pipette, params.labware, params.well) == COLUMN1
    requires TwoFilledRows(s.liquidState, params.labware) && params.volume == 50.0
    requires forall i :: 0 <= i < 8 ==> At(s.liquidState, TipOf(params.pipette, i)) == map[ING1 := 30.0]
    ensures var after := Aspirate(params, ctx, s).robotState.liquidState;
      && At(after, TipOf(params.pipette, 0)) == map[ING1 := 80.0]
      && At(after, WellOf(params.labware, COLUMN1[0])) == map[ING1 := 150.0]
      && At(after, TipOf(params.pipette, 1)) == map[ING1 := 80.0]
      && At(after, WellOf(params.labware, COLUMN1[1])) == map[ING1 := 100.0]
  {
    assert DistinctWells(COLUMN1, 8);
    DrawIntoUsedTip();
    DrawFromRowBIntoUsedTip();
    AspirateSeparateChannel(params, ctx, s, COLUMN1, 0);
    AspirateSeparateChannel(params, ctx, s, COLUMN1, 1);
  }

  /**
   * Rows C to H in the same command: pristine wells, so each of those tips
   * ends with its 30 µL of the ingredient plus 50 of air, and each well stays
   * pristine.
   */
  lemma UsedTipsPristineRows(params: Params, ctx: InvariantContext, s: RobotState, j: nat)
    requires ctx.wellsForTips(params.pipette, params.labware, params.well) == COLUMN1
    requires TwoFilledRows(s.liquidState, params.labware) && params.volume == 50.0
    requires forall i :: 0 <= i < 8 ==> At(s.liquidState, TipOf(params.pipette, i)) == map[ING1 := 30.0]
    requires 2 <= j < 8
    ensures var after := Aspirate(params, ctx, s).robotState.liquidState;
      && At(after, TipOf(params.pipette, j)) == map[ING1 := 30.0, AIR := 50.0]
      && At(after, WellOf(params.labware, COLUMN1[j])) == map[]
  {
    assert DistinctWells(COLUMN1, 8);
    DrawPristineIntoUsedTip();
    AspirateSeparateChannel(params, ctx, s, COLUMN1, j);
  }
}
