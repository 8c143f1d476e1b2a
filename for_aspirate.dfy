/**
 * forAspirate: a pipette draws `volume` per channel from a labware. Each
 * channel draws from the well the geometry assigns it, in channel order; when
 * every channel of a multi-channel pipette reaches the same well (a trough),
 * the well is drawn from once for all of them and shared out equally.
 */
module AspirateHandler {
  import opened Liquid
  import opened RobotModel
  import opened Channels

  /**
   * The warning one draw raises: drawing from a well that lists no ingredient
   * at all is a pristine-well draw; otherwise asking for more than the well's
   * total is an over-aspiration.
   */
  function AspirateWarnings(well: Contents, requested: real, total: real): seq<Warning>
  {
    if |well| == 0 then [AspirateFromPristineWell]
    else if requested > total then [AspirateMoreThanWellContents]
    else []
  }

  /** More than one channel, and all of them at the same well. */
  predicate AllWellsShared(wells: seq<WellName>)
  {
    |wells| > 1 && forall i :: 0 <= i < |wells| ==> wells[i] == wells[0]
  }

  /** One channel's draw: the tip gains the split of `volume` from the well, the well keeps the rest. */
  ghost function Draw(volume: real, tip: Contents, well: Contents): TipAndWell
  {
    var split := SplitLiquid(volume, well);
    TipAndWell(MergeLiquid(tip, split.dest), split.source)
  }

  ghost function DrawStep(volume: real): (Contents, Contents) -> TipAndWell
  {
    (tip: Contents, well: Contents) => Draw(volume, tip, well)
  }

  ghost function DrawWarning(volume: real): Contents -> seq<Warning>
  {
    (well: Contents) => AspirateWarnings(well, volume, Total(well))
  }

  /** Each ingredient's volume divided by `n`: one channel's share of a common well. */
  function Divided(c: Contents, n: nat): Contents
    requires n > 0
  {
    map k | k in c :: c[k] / n as real
  }

  /**
   * All `n` tips draw `volume` each from the one well `w`: the well gives up
   * n * volume, and every tip gets the split of `volume` from its equal share of
   * the well. One warning at most, for the well as a whole.
   */
  ghost function AspirateSharedWell(
    ls: LiquidState, p: PipetteId, lw: LabwareId, w: WellName, n: nat, volume: real): LiquidAndWarnings
    requires n > 0
  {
    var well := At(ls, WellOf(lw, w));
    var requested := volume * n as real;
    var perTip := SplitLiquid(volume, Divided(well, n)).dest;
    LiquidAndWarnings(
      MergeIntoTips(ls, p, perTip, n)[WellOf(lw, w) := SplitLiquid(requested, well).source],
      AspirateWarnings(well, requested, Total(well)))
  }

  /** Channels 0 .. |wells|-1 in order, channel i drawing `volume` from wells[i]. */
  ghost function AspirateSeparateWells(
    ls: LiquidState, p: PipetteId, lw: LabwareId, wells: seq<WellName>, volume: real): LiquidAndWarnings
  {
    LiquidAndWarnings(
      ChannelFold(ls, p, lw, wells, DrawStep(volume), |wells|),
      FoldWarnings(ls, p, lw, wells, DrawStep(volume), DrawWarning(volume), |wells|))
  }

  /** The outcome of an aspirate command on robot state `s` (new warnings only). */
  ghost function Aspirate(params: Params, ctx: InvariantContext, s: RobotState): (r: RobotStateAndWarnings)
    ensures r.robotState.tipState == s.tipState && r.robotState.modules == s.modules
  {
    var wells := ctx.wellsForTips(params.pipette, params.labware, params.well);
    var update :=
      if AllWellsShared(wells) then
        AspirateSharedWell(s.liquidState, params.pipette, params.labware, wells[0], |wells|, params.volume)
      else
        AspirateSeparateWells(s.liquidState, params.pipette, params.labware, wells, params.volume);
    RobotStateAndWarnings(s.(liquidState := update.liquidState), update.warnings)
  }

  // ---------------------------------------------------------------------------
  // The handler, on the draft in place.

  /** forAspirate. */
  method ForAspirate(params: Params, ctx: InvariantContext, draft: Draft)
    modifies draft
    ensures draft.Value() == AppendStep(old(draft.Value()), Aspirate(params, ctx, old(draft.robotState)))
  {
    var wells := ctx.wellsForTips(params.pipette, params.labware, params.well);
    var update;
    if AllWellsShared(wells) {
      update := AspirateFromSharedWell(draft.robotState.liquidState, params.pipette, params.labware, wells[0], |wells|, params.volume);
    } else {
      update := AspirateFromSeparateWells(draft.robotState.liquidState, params.pipette, params.labware, wells, params.volume);
    }
    draft.robotState := draft.robotState.(liquidState := update.liquidState);
    draft.warnings := draft.warnings + update.warnings;
  }

  /** What each of `n` tips drawing `volume` from one well receives, what the well keeps, and the warning. */
  method DrawShared(volume: real, n: nat, well: Contents) returns (perTip: Contents, left: Contents, warnings: seq<Warning>)
    requires n > 0
    ensures perTip == SplitLiquid(volume, Divided(well, n)).dest
    ensures left == SplitLiquid(volume * n as real, well).source
    ensures warnings == AspirateWarnings(well, volume * n as real, Total(well))
  {
    var requested := volume * n as real;
    var fromWell, total := Split(requested, well);
    var share, _ := Split(volume, Divided(well, n));
    perTip, left, warnings := share.dest, fromWell.source, AspirateWarnings(well, requested, total);
  }

  /** The trough branch of forAspirate. */
  method AspirateFromSharedWell(ls0: LiquidState, p: PipetteId, lw: LabwareId, w: WellName, n: nat, volume: real)
    returns (r: LiquidAndWarnings)
    requires n > 0
    ensures r == AspirateSharedWell(ls0, p, lw, w, n, volume)
  {
    var well := At(ls0, WellOf(lw, w));
    var perTip, left, warnings := DrawShared(volume, n, well);
    var ls := MergeShareIntoTips(ls0, p, perTip, n);
    r := LiquidAndWarnings(ls[WellOf(lw, w) := left], warnings);
  }

  /** One channel's draw and the warning it raises. */
  method DrawOne(volume: real, tip: Contents, well: Contents) returns (out: TipAndWell, warnings: seq<Warning>)
    ensures out == DrawStep(volume)(tip, well)
    ensures warnings == DrawWarning(volume)(well)
  {
    var split, total := Split(volume, well);
    out := TipAndWell(MergeLiquid(tip, split.dest), split.source);
    warnings := AspirateWarnings(well, volume, total);
  }

  /** The per-channel branch of forAspirate: channel i draws from wells[i], in order. */
  method AspirateFromSeparateWells(ls0: LiquidState, p: PipetteId, lw: LabwareId, wells: seq<WellName>, volume: real)
    returns (r: LiquidAndWarnings)
    ensures r == AspirateSeparateWells(ls0, p, lw, wells, volume)
  {
    var ls := ls0;
    var raised: seq<Warning> := [];
    var i := 0;
    while i < |wells|
      invariant 0 <= i <= |wells|
      invariant ls == ChannelFold(ls0, p, lw, wells, DrawStep(volume), i)
      invariant raised == FoldWarnings(ls0, p, lw, wells, DrawStep(volume), DrawWarning(volume), i)
    {
      FoldNext(ls0, p, lw, wells, DrawStep(volume), DrawWarning(volume), i);
      var out, warnings := DrawOne(volume, At(ls, TipOf(p, i)), At(ls, WellOf(lw, wells[i])));
      raised := raised + warnings;
      ls := WriteChannel(ls, p, lw, wells[i], i, out);
      i := i + 1;
    }
    r := LiquidAndWarnings(ls, raised);
  }

  // ---------------------------------------------------------------------------
  // What one draw does.

  /**
   * The tip gains exactly `volume`, air included; the well loses `volume`, or
   * everything it held when asked for more.
   */
  lemma DrawVolumes(volume: real, tip: Contents, well: Contents)
    requires NonNegative(well) && volume >= 0.0
    ensures Total(Draw(volume, tip, well).tip) == Total(tip) + volume
    ensures Total(Draw(volume, tip, well).well) == if volume > Total(well) then 0.0 else Total(well) - volume
  {
    var split := SplitLiquid(volume, well);
    SplitTotals(volume, well);
    TotalMerge(tip, split.dest);
  }

  /**
   * From a well that lists ingredients, a draw raises no warning exactly when
   * it conserves volume: tip and well together hold what they held before, no
   * air having been made up for a shortfall.
   */
  lemma QuietIffConserved(volume: real, tip: Contents, well: Contents)
    requires NonNegative(well) && volume >= 0.0 && |well| > 0
    ensures AspirateWarnings(well, volume, Total(well)) == [] <==>
      Total(Draw(volume, tip, well).tip) + Total(Draw(volume, tip, well).well) == Total(tip) + Total(well)
    ensures AspirateWarnings(well, volume, Total(well)) != [] ==>
      AspirateWarnings(well, volume, Total(well)) == [AspirateMoreThanWellContents]
  {
    DrawVolumes(volume, tip, well);
  }

  /** A pristine well raises the pristine-well warning, gives only air, and stays pristine. */
  lemma DrawFromPristine(volume: real, tip: Contents)
    requires volume > 0.0
    ensures Draw(volume, tip, map[]) == TipAndWell(MergeLiquid(tip, map[AIR := volume]), map[])
    ensures AspirateWarnings(map[], volume, Total(map[])) == [AspirateFromPristineWell]
  {
    SplitPristine(volume);
  }

  // ---------------------------------------------------------------------------
  // What an aspirate does to each location.

  /** Channels at different wells never all share one well. */
  lemma DistinctNotShared(wells: seq<WellName>)
    requires DistinctWells(wells, |wells|)
    ensures !AllWellsShared(wells)
  {
    if |wells| > 1 {
      assert wells[1] != wells[0];
    }
  }

  /**
   * With its channels at different wells, an aspirate leaves channel i's tip and
   * well as that channel's own draw makes them from their contents before the
   * command, whatever the other channels drew.
   */
  lemma AspirateSeparateChannel(params: Params, ctx: InvariantContext, s: RobotState, wells: seq<WellName>, i: nat)
    requires wells == ctx.wellsForTips(params.pipette, params.labware, params.well)
    requires DistinctWells(wells, |wells|) && i < |wells|
    ensures var out := Draw(params.volume, At(s.liquidState, TipOf(params.pipette, i)), At(s.liquidState, WellOf(params.labware, wells[i])));
      && At(Aspirate(params, ctx, s).robotState.liquidState, TipOf(params.pipette, i)) == out.tip
      && At(Aspirate(params, ctx, s).robotState.liquidState, WellOf(params.labware, wells[i])) == out.well
  {
    DistinctNotShared(wells);
    FoldChannel(s.liquidState, params.pipette, params.labware, wells, DrawStep(params.volume), |wells|, i);
  }

  /** With its channels at different wells, an aspirate raises, channel by channel, the warning each well called for before the command. */
  lemma AspirateWarningsPerWell(params: Params, ctx: InvariantContext, s: RobotState, wells: seq<WellName>)
    requires wells == ctx.wellsForTips(params.pipette, params.labware, params.well)
    requires DistinctWells(wells, |wells|)
    ensures Aspirate(params, ctx, s).warnings == WarningsPerWell(s.liquidState, params.labware, wells, DrawWarning(params.volume), |wells|)
  {
    DistinctNotShared(wells);
    FoldWarningsPerWell(s.liquidState, params.pipette, params.labware, wells, DrawStep(params.volume), DrawWarning(params.volume), |wells|);
  }

  /** An aspirate changes only the pipette's channels in use and the wells they reach. */
  lemma AspirateFrame(params: Params, ctx: InvariantContext, s: RobotState, wells: seq<WellName>, loc: Location)
    requires wells == ctx.wellsForTips(params.pipette, params.labware, params.well)
    requires Untouched(params.pipette, params.labware, wells, |wells|, loc)
    ensures At(Aspirate(params, ctx, s).robotState.liquidState, loc) == At(s.liquidState, loc)
  {
    if AllWellsShared(wells) {
      assert wells[0] in wells[..|wells|];
      var share := SplitLiquid(params.volume, Divided(At(s.liquidState, WellOf(params.labware, wells[0])), |wells|)).dest;
      MergeIntoTipsReads(s.liquidState, params.pipette, share, |wells|, loc);
    } else {
      FoldKeepsOthers(s.liquidState, params.pipette, params.labware, wells, DrawStep(params.volume), |wells|, loc);
    }
  }

  // ---------------------------------------------------------------------------
  // A common well (a trough).

  /** Dividing by n is scaling by 1/n. */
  lemma DivideIsScale(a: real, n: real)
    requires n > 0.0
    ensures a / n == (1.0 / n) * a
  {
  }

  /** A channel's share of a common well holds 1/n of the well's total. */
  lemma TotalDivided(c: Contents, n: nat)
    requires n > 0
    ensures Total(Divided(c, n)) == Total(c) / n as real
    ensures NonNegative(c) ==> NonNegative(Divided(c, n))
  {
    var d := Divided(c, n);
    var x := 1.0 / n as real;
    forall k | k in c.Keys
      ensures VolumeOf(d, k) == x * VolumeOf(c, k)
    {
      DivideIsScale(c[k], n as real);
    }
    assert d.Keys == c.Keys;
    SumScale(d, c, c.Keys, x);
    DivideIsScale(Total(c), n as real);
  }

  /** What n channels draw together exceeds the well exactly when what one draws exceeds its 1/n share. */
  lemma ShareExceeds(volume: real, n: real, t: real)
    requires n > 0.0
    ensures volume * n > t <==> volume > t / n
  {
    assert volume * n / n == volume;
    assert t / n * n == t;
  }

  /**
   * The warning for n channels drawing `volume` each from one well is the
   * warning for one channel drawing from its 1/n share: over-aspiration
   * exactly when `volume` exceeds the share of the well's total.
   */
  lemma ShareWarning(well: Contents, volume: real, n: nat)
    requires n > 0
    ensures AspirateWarnings(well, volume * n as real, Total(well)) ==
      if |well| == 0 then [AspirateFromPristineWell]
      else if volume > Total(well) / n as real then [AspirateMoreThanWellContents]
      else []
  {
    ShareExceeds(volume, n as real, Total(well));
  }

  /**
   * A common-well draw: every tip receives exactly `volume`; the well gives up
   * n * volume, or everything it held when that is more than it holds.
   */
  lemma SharedDrawVolumes(volume: real, n: nat, well: Contents)
    requires NonNegative(well) && volume >= 0.0 && n > 0
    ensures Total(SplitLiquid(volume, Divided(well, n)).dest) == volume
    ensures Total(SplitLiquid(volume * n as real, well).source) ==
      if volume * n as real > Total(well) then 0.0 else Total(well) - volume * n as real
  {
    TotalDivided(well, n);
    SplitTotals(volume, Divided(well, n));
    SplitTotals(volume * n as real, well);
  }

  /**
   * When the n channels ask for more than the common well holds, each tip gets
   * an equal 1/n of everything the well held, padded with air up to `volume`,
   * and every ingredient of the well is left at 0.
   */
  lemma SharedShortfall(volume: real, n: nat, well: Contents)
    requires n > 0 && volume * n as real > Total(well)
    ensures SplitLiquid(volume, Divided(well, n)).dest ==
      MergeLiquid(Divided(well, n), map[AIR := volume - Total(well) / n as real])
    ensures SplitLiquid(volume * n as real, well).source == Zeroed(well)
  {
    var d := Divided(well, n);
    var t := Total(well);
    assert Total(d) == t / n as real by { TotalDivided(well, n); }
    assert volume > Total(d) by { ShareExceeds(volume, n as real, t); }
  }

  /**
   * The common-well draw, location by location: every tip receives the same
   * draw from its 1/n share of the well, and the well gives up the draw of all
   * channels at once.
   */
  lemma SharedWellEffect(ls: LiquidState, p: PipetteId, lw: LabwareId, w: WellName, n: nat, volume: real, i: nat)
    requires i < n
    ensures var well := At(ls, WellOf(lw, w));
      var r := AspirateSharedWell(ls, p, lw, w, n, volume);
      && At(r.liquidState, TipOf(p, i)) == MergeLiquid(At(ls, TipOf(p, i)), SplitLiquid(volume, Divided(well, n)).dest)
      && At(r.liquidState, WellOf(lw, w)) == SplitLiquid(volume * n as real, well).source
  {
    var well := At(ls, WellOf(lw, w));
    var share := SplitLiquid(volume, Divided(well, n)).dest;
    MergeIntoTipsReads(ls, p, share, n, TipOf(p, i));
  }

  /**
   * The common-well draw raises one warning for the well as a whole: pristine
   * when it lists nothing, over-aspiration exactly when one channel's volume
   * exceeds its 1/n share of the total, and none otherwise.
   */
  lemma SharedWellWarnings(ls: LiquidState, p: PipetteId, lw: LabwareId, w: WellName, n: nat, volume: real)
    requires n > 0
    ensures var well := At(ls, WellOf(lw, w));
      AspirateSharedWell(ls, p, lw, w, n, volume).warnings ==
        if |well| == 0 then [AspirateFromPristineWell]
        else if volume > Total(well) / n as real then [AspirateMoreThanWellContents]
        else []
  {
    var well := At(ls, WellOf(lw, w));
    assert AspirateSharedWell(ls, p, lw, w, n, volume).warnings == AspirateWarnings(well, volume * n as real, Total(well));
    ShareWarning(well, volume, n);
  }

  /** With every channel at one well, an aspirate is the common-well draw. */
  lemma AspirateIsShared(params: Params, ctx: InvariantContext, s: RobotState, wells: seq<WellName>)
    requires wells == ctx.wellsForTips(params.pipette, params.labware, params.well)
    requires AllWellsShared(wells)
    ensures Aspirate(params, ctx, s).robotState.liquidState ==
      AspirateSharedWell(s.liquidState, params.pipette, params.labware, wells[0], |wells|, params.volume).liquidState
    ensures Aspirate(params, ctx, s).warnings ==
      AspirateSharedWell(s.liquidState, params.pipette, params.labware, wells[0], |wells|, params.volume).warnings
  {
  }

  // ---------------------------------------------------------------------------
  // No negative volumes.

  /** One channel's draw of a non-negative volume keeps its tip and well non-negative. */
  lemma DrawNonNegative(volume: real, tip: Contents, well: Contents)
    requires volume >= 0.0 && NonNegative(tip) && NonNegative(well)
    ensures NonNegative(Draw(volume, tip, well).tip) && NonNegative(Draw(volume, tip, well).well)
  {
    SplitNonNegative(volume, well);
    MergeNonNegative(tip, SplitLiquid(volume, well).dest);
  }

  /** n times a non-negative volume is non-negative. */
  lemma RequestedNonNegative(volume: real, n: nat)
    requires volume >= 0.0
    ensures volume * n as real >= 0.0
  {
  }

  /** The common-well draw of a non-negative volume keeps every location non-negative. */
  lemma SharedWellNonNegative(ls: LiquidState, p: PipetteId, lw: LabwareId, w: WellName, n: nat, volume: real)
    requires n > 0 && volume >= 0.0 && LiquidNonNegative(ls)
    ensures LiquidNonNegative(AspirateSharedWell(ls, p, lw, w, n, volume).liquidState)
  {
    var well := At(ls, WellOf(lw, w));
    assert NonNegative(well);
    TotalDivided(well, n);
    var share := SplitLiquid(volume, Divided(well, n)).dest;
    SplitNonNegative(volume, Divided(well, n));
    RequestedNonNegative(volume, n);
    SplitNonNegative(volume * n as real, well);
    MergeIntoTipsNonNegative(ls, p, share, n);
    var tips := MergeIntoTips(ls, p, share, n);
    var after := tips[WellOf(lw, w) := SplitLiquid(volume * n as real, well).source];
    assert after == AspirateSharedWell(ls, p, lw, w, n, volume).liquidState;
    forall loc
      ensures NonNegative(At(after, loc))
    {
      if loc != WellOf(lw, w) {
        assert At(after, loc) == At(tips, loc);
      }
    }
  }

  /**
   * An aspirate of a non-negative volume never produces a negative volume:
   * when no location held one before, none holds one after, on the per-well
   * path and on the trough path alike.
   */
  lemma AspirateNonNegative(params: Params, ctx: InvariantContext, s: RobotState)
    requires params.volume >= 0.0 && LiquidNonNegative(s.liquidState)
    ensures LiquidNonNegative(Aspirate(params, ctx, s).robotState.liquidState)
  {
    var wells := ctx.wellsForTips(params.pipette, params.labware, params.well);
    if AllWellsShared(wells) {
      SharedWellNonNegative(s.liquidState, params.pipette, params.labware, wells[0], |wells|, params.volume);
    } else {
      forall tip, well | NonNegative(tip) && NonNegative(well)
        ensures NonNegative(DrawStep(params.volume)(tip, well).tip) && NonNegative(DrawStep(params.volume)(tip, well).well)
      {
        DrawNonNegative(params.volume, tip, well);
      }
      FoldNonNegative(s.liquidState, params.pipette, params.labware, wells, DrawStep(params.volume), |wells|);
    }
  }
}
