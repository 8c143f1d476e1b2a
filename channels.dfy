/**
 * A multi-channel pipette works channel by channel: channel i, at the well
 * the geometry gives it, turns the contents of its tip and of that well into
 * new contents for both. This module is that fold, for any per-channel step,
 * and what it changes.
 */
module Channels {
  import opened Liquid
  import opened RobotModel

  /** What one channel leaves in its tip and in its well. */
  datatype TipAndWell = TipAndWell(tip: Contents, well: Contents)

  /** Channel `channel` of pipette `p` writes its tip, then well `w` of labware `lw`. */
  function WriteChannel(ls: LiquidState, p: PipetteId, lw: LabwareId, w: WellName, channel: nat, out: TipAndWell): LiquidState
  {
    ls[TipOf(p, channel) := out.tip][WellOf(lw, w) := out.well]
  }

  /** Writing a channel changes its tip and its well and no other location. */
  lemma WriteChannelReads(
    ls: LiquidState, p: PipetteId, lw: LabwareId, w: WellName, channel: nat, out: TipAndWell, loc: Location)
    ensures At(WriteChannel(ls, p, lw, w, channel, out), loc) ==
      if loc == WellOf(lw, w) then out.well else if loc == TipOf(p, channel) then out.tip else At(ls, loc)
  {
  }

  /**
   * Channels 0 .. n-1 in order, channel i at wells[i], each seeing its tip and
   * well as the channels before it left them.
   */
  ghost function ChannelFold(
    ls: LiquidState, p: PipetteId, lw: LabwareId, wells: seq<WellName>,
    step: (Contents, Contents) -> TipAndWell, n: nat): LiquidState
    requires n <= |wells|
  {
    if n == 0 then ls
    else
      var before := ChannelFold(ls, p, lw, wells, step, n - 1);
      WriteChannel(before, p, lw, wells[n - 1], n - 1,
        step(At(before, TipOf(p, n - 1)), At(before, WellOf(lw, wells[n - 1]))))
  }

  /** The warnings channels 0 .. n-1 raise in order, each judged on its well as the fold reaches it. */
  ghost function FoldWarnings(
    ls: LiquidState, p: PipetteId, lw: LabwareId, wells: seq<WellName>,
    step: (Contents, Contents) -> TipAndWell, warn: Contents -> seq<Warning>, n: nat): seq<Warning>
    requires n <= |wells|
  {
    if n == 0 then []
    else
      FoldWarnings(ls, p, lw, wells, step, warn, n - 1)
        + warn(At(ChannelFold(ls, p, lw, wells, step, n - 1), WellOf(lw, wells[n - 1])))
  }

  /** One more channel: what the fold and its warnings become when channel n takes its turn. */
  lemma FoldNext(
    ls: LiquidState, p: PipetteId, lw: LabwareId, wells: seq<WellName>,
    step: (Contents, Contents) -> TipAndWell, warn: Contents -> seq<Warning>, n: nat)
    requires n < |wells|
    ensures var before := ChannelFold(ls, p, lw, wells, step, n);
      ChannelFold(ls, p, lw, wells, step, n + 1) ==
        WriteChannel(before, p, lw, wells[n], n, step(At(before, TipOf(p, n)), At(before, WellOf(lw, wells[n]))))
    ensures FoldWarnings(ls, p, lw, wells, step, warn, n + 1) ==
      FoldWarnings(ls, p, lw, wells, step, warn, n) + warn(At(ChannelFold(ls, p, lw, wells, step, n), WellOf(lw, wells[n])))
  {
  }

  /** wells[0 .. n-1] name n different wells. */
  predicate DistinctWells(wells: seq<WellName>, n: nat)
    requires n <= |wells|
  {
    forall i, j :: 0 <= i < j < n ==> wells[i] != wells[j]
  }

  /** The warnings channels 0 .. n-1 raise when each is judged on its well as it was before the fold. */
  ghost function WarningsPerWell(
    ls: LiquidState, lw: LabwareId, wells: seq<WellName>, warn: Contents -> seq<Warning>, n: nat): seq<Warning>
    requires n <= |wells|
  {
    if n == 0 then [] else WarningsPerWell(ls, lw, wells, warn, n - 1) + warn(At(ls, WellOf(lw, wells[n - 1])))
  }

  /** The locations none of channels 0 .. n-1 of `p` at wells[..n] of `lw` touches. */
  predicate Untouched(p: PipetteId, lw: LabwareId, wells: seq<WellName>, n: nat, loc: Location)
    requires n <= |wells|
  {
    match loc
    case TipOf(q, d) => q != p || d >= n
    case WellOf(lw2, w2) => lw2 != lw || w2 !in wells[..n]
  }

  // ---------------------------------------------------------------------------
  // What the fold changes.

  /** The fold leaves every location that none of its channels touches as it was. */
  lemma {:induction false} FoldKeepsOthers(
    ls: LiquidState, p: PipetteId, lw: LabwareId, wells: seq<WellName>,
    step: (Contents, Contents) -> TipAndWell, n: nat, loc: Location)
    requires n <= |wells| && Untouched(p, lw, wells, n, loc)
    ensures At(ChannelFold(ls, p, lw, wells, step, n), loc) == At(ls, loc)
  {
    if n > 0 {
      var before := ChannelFold(ls, p, lw, wells, step, n - 1);
      var out := step(At(before, TipOf(p, n - 1)), At(before, WellOf(lw, wells[n - 1])));
      assert wells[..n - 1] == wells[..n][..n - 1];
      assert wells[n - 1] in wells[..n];
      FoldKeepsOthers(ls, p, lw, wells, step, n - 1, loc);
      WriteChannelReads(before, p, lw, wells[n - 1], n - 1, out, loc);
    }
  }

  /** The last channel of a fold over different wells sees its tip and well as they were before the fold. */
  lemma LastChannel(
    ls: LiquidState, p: PipetteId, lw: LabwareId, wells: seq<WellName>,
    step: (Contents, Contents) -> TipAndWell, n: nat)
    requires 0 < n <= |wells| && DistinctWells(wells, n)
    ensures var out := step(At(ls, TipOf(p, n - 1)), At(ls, WellOf(lw, wells[n - 1])));
      ChannelFold(ls, p, lw, wells, step, n) == WriteChannel(ChannelFold(ls, p, lw, wells, step, n - 1), p, lw, wells[n - 1], n - 1, out)
  {
    assert wells[n - 1] !in wells[..n - 1];
    FoldKeepsOthers(ls, p, lw, wells, step, n - 1, TipOf(p, n - 1));
    FoldKeepsOthers(ls, p, lw, wells, step, n - 1, WellOf(lw, wells[n - 1]));
  }

  /**
   * With the channels at different wells, channel i's tip and well end up as
   * the step makes them from their contents before the fold, whatever the
   * other channels did.
   */
  lemma {:induction false} FoldChannel(
    ls: LiquidState, p: PipetteId, lw: LabwareId, wells: seq<WellName>,
    step: (Contents, Contents) -> TipAndWell, n: nat, i: nat)
    requires n <= |wells| && DistinctWells(wells, n) && i < n
    ensures At(ChannelFold(ls, p, lw, wells, step, n), TipOf(p, i)) ==
      step(At(ls, TipOf(p, i)), At(ls, WellOf(lw, wells[i]))).tip
    ensures At(ChannelFold(ls, p, lw, wells, step, n), WellOf(lw, wells[i])) ==
      step(At(ls, TipOf(p, i)), At(ls, WellOf(lw, wells[i]))).well
  {
    var out := step(At(ls, TipOf(p, n - 1)), At(ls, WellOf(lw, wells[n - 1])));
    var before := ChannelFold(ls, p, lw, wells, step, n - 1);
    LastChannel(ls, p, lw, wells, step, n);
    WriteChannelReads(before, p, lw, wells[n - 1], n - 1, out, TipOf(p, i));
    WriteChannelReads(before, p, lw, wells[n - 1], n - 1, out, WellOf(lw, wells[i]));
    if i < n - 1 {
      FoldChannel(ls, p, lw, wells, step, n - 1, i);
      assert wells[i] != wells[n - 1];
    }
  }

  /** With the channels at different wells, each raises the warning its own well called for before the fold. */
  lemma {:induction false} FoldWarningsPerWell(
    ls: LiquidState, p: PipetteId, lw: LabwareId, wells: seq<WellName>,
    step: (Contents, Contents) -> TipAndWell, warn: Contents -> seq<Warning>, n: nat)
    requires n <= |wells| && DistinctWells(wells, n)
    ensures FoldWarnings(ls, p, lw, wells, step, warn, n) == WarningsPerWell(ls, lw, wells, warn, n)
  {
    if n > 0 {
      FoldWarningsPerWell(ls, p, lw, wells, step, warn, n - 1);
      assert wells[n - 1] !in wells[..n - 1];
      FoldKeepsOthers(ls, p, lw, wells, step, n - 1, WellOf(lw, wells[n - 1]));
    }
  }

  /** A fold whose channels only touch locations the table already lists lists no new location. */
  lemma {:induction false} FoldKeys(
    ls: LiquidState, p: PipetteId, lw: LabwareId, wells: seq<WellName>,
    step: (Contents, Contents) -> TipAndWell, n: nat)
    requires n <= |wells|
    requires forall i :: 0 <= i < n ==> TipOf(p, i) in ls && WellOf(lw, wells[i]) in ls
    ensures ChannelFold(ls, p, lw, wells, step, n).Keys == ls.Keys
  {
    if n > 0 {
      FoldKeys(ls, p, lw, wells, step, n - 1);
      assert TipOf(p, n - 1) in ls && WellOf(lw, wells[n - 1]) in ls;
    }
  }

  /** What tips 0 .. n-1 of `p` hold together. */
  ghost function TipsTotal(ls: LiquidState, p: PipetteId, n: nat): real
  {
    if n == 0 then 0.0 else TipsTotal(ls, p, n - 1) + Total(At(ls, TipOf(p, n - 1)))
  }

  /** With a step that always leaves the tip empty, every tip 0 .. n-1 ends empty, whatever wells the channels reach. */
  lemma {:induction false} FoldEmptiesTips(
    ls: LiquidState, p: PipetteId, lw: LabwareId, wells: seq<WellName>,
    step: (Contents, Contents) -> TipAndWell, n: nat, i: nat)
    requires i < n <= |wells|
    requires forall tip, well :: Total(step(tip, well).tip) == 0.0
    ensures Total(At(ChannelFold(ls, p, lw, wells, step, n), TipOf(p, i))) == 0.0
  {
    var before := ChannelFold(ls, p, lw, wells, step, n - 1);
    var out := step(At(before, TipOf(p, n - 1)), At(before, WellOf(lw, wells[n - 1])));
    WriteChannelReads(before, p, lw, wells[n - 1], n - 1, out, TipOf(p, i));
    if i < n - 1 {
      FoldEmptiesTips(ls, p, lw, wells, step, n - 1, i);
    }
  }

  /**
   * Channels 0 .. n-1 all at one well `w`, each step moving its whole tip into
   * the well: the well gains what the tips held together.
   */
  lemma {:induction false} FoldIntoOneWell(
    ls: LiquidState, p: PipetteId, lw: LabwareId, w: WellName, wells: seq<WellName>,
    step: (Contents, Contents) -> TipAndWell, n: nat)
    requires n <= |wells| && forall j :: 0 <= j < n ==> wells[j] == w
    requires forall tip, well :: Total(step(tip, well).well) == Total(well) + Total(tip)
    ensures Total(At(ChannelFold(ls, p, lw, wells, step, n), WellOf(lw, w))) == Total(At(ls, WellOf(lw, w))) + TipsTotal(ls, p, n)
  {
    if n > 0 {
      var before := ChannelFold(ls, p, lw, wells, step, n - 1);
      var out := step(At(before, TipOf(p, n - 1)), At(before, WellOf(lw, w)));
      assert wells[n - 1] == w;
      FoldIntoOneWell(ls, p, lw, w, wells, step, n - 1);
      FoldKeepsOthers(ls, p, lw, wells, step, n - 1, TipOf(p, n - 1));
      WriteChannelReads(before, p, lw, w, n - 1, out, WellOf(lw, w));
    }
  }

  /** A step that leaves an empty tip and its well as they were, over empty tips, changes nothing. */
  lemma {:induction false} FoldOverEmptyTips(
    ls: LiquidState, p: PipetteId, lw: LabwareId, wells: seq<WellName>,
    step: (Contents, Contents) -> TipAndWell, n: nat, loc: Location)
    requires n <= |wells| && forall j :: 0 <= j < n ==> At(ls, TipOf(p, j)) == map[]
    requires forall well :: step(map[], well) == TipAndWell(map[], well)
    ensures At(ChannelFold(ls, p, lw, wells, step, n), loc) == At(ls, loc)
  {
    if n > 0 {
      var before := ChannelFold(ls, p, lw, wells, step, n - 1);
      var out := step(At(before, TipOf(p, n - 1)), At(before, WellOf(lw, wells[n - 1])));
      FoldOverEmptyTips(ls, p, lw, wells, step, n - 1, TipOf(p, n - 1));
      FoldOverEmptyTips(ls, p, lw, wells, step, n - 1, WellOf(lw, wells[n - 1]));
      FoldOverEmptyTips(ls, p, lw, wells, step, n - 1, loc);
      WriteChannelReads(before, p, lw, wells[n - 1], n - 1, out, loc);
    }
  }

  /**
   * With a step whose tip result does not depend on the well, tip i ends as
   * that step makes it from tip i's original contents, even when several
   * channels reach the same well.
   */
  lemma {:induction false} FoldTipOnly(
    ls: LiquidState, p: PipetteId, lw: LabwareId, wells: seq<WellName>,
    step: (Contents, Contents) -> TipAndWell, n: nat, i: nat, well: Contents)
    requires i < n <= |wells|
    requires forall tip, w1, w2 :: step(tip, w1).tip == step(tip, w2).tip
    ensures At(ChannelFold(ls, p, lw, wells, step, n), TipOf(p, i)) == step(At(ls, TipOf(p, i)), well).tip
  {
    var before := ChannelFold(ls, p, lw, wells, step, n - 1);
    var out := step(At(before, TipOf(p, n - 1)), At(before, WellOf(lw, wells[n - 1])));
    WriteChannelReads(before, p, lw, wells[n - 1], n - 1, out, TipOf(p, i));
    if i < n - 1 {
      FoldTipOnly(ls, p, lw, wells, step, n - 1, i, well);
    } else {
      FoldKeepsOthers(ls, p, lw, wells, step, n - 1, TipOf(p, i));
    }
  }

  /** `well` with what `give` takes from each of tips 0 .. n-1 of `p` merged in, in channel order. */
  ghost function MergeFromTips(well: Contents, ls: LiquidState, p: PipetteId, give: Contents -> Contents, n: nat): Contents
  {
    if n == 0 then well else MergeLiquid(MergeFromTips(well, ls, p, give, n - 1), give(At(ls, TipOf(p, n - 1))))
  }

  /**
   * Channels 0 .. n-1 all at one well `w`, each step merging `give` of its tip
   * into the well: the well ends as its old contents with each tip's part
   * merged in, ingredient by ingredient, in channel order.
   */
  lemma {:induction false} FoldIntoOneWellContents(
    ls: LiquidState, p: PipetteId, lw: LabwareId, w: WellName, wells: seq<WellName>,
    step: (Contents, Contents) -> TipAndWell, give: Contents -> Contents, n: nat)
    requires n <= |wells| && forall j :: 0 <= j < n ==> wells[j] == w
    requires forall tip, well :: step(tip, well).well == MergeLiquid(well, give(tip))
    ensures At(ChannelFold(ls, p, lw, wells, step, n), WellOf(lw, w)) == MergeFromTips(At(ls, WellOf(lw, w)), ls, p, give, n)
  {
    if n > 0 {
      var before := ChannelFold(ls, p, lw, wells, step, n - 1);
      var tip := At(before, TipOf(p, n - 1));
      var out := step(tip, At(before, WellOf(lw, w)));
      assert wells[n - 1] == w;
      assert At(ChannelFold(ls, p, lw, wells, step, n), WellOf(lw, w)) == out.well by {
        WriteChannelReads(before, p, lw, w, n - 1, out, WellOf(lw, w));
      }
      assert tip == At(ls, TipOf(p, n - 1)) by {
        FoldKeepsOthers(ls, p, lw, wells, step, n - 1, TipOf(p, n - 1));
      }
      FoldIntoOneWellContents(ls, p, lw, w, wells, step, give, n - 1);
      assert out.well == MergeLiquid(At(before, WellOf(lw, w)), give(tip));
    }
  }

  /** Tips k .. n-1 that are empty, and give nothing when empty, add nothing to the well. */
  lemma {:induction false} MergeFromEmptyTips(well: Contents, ls: LiquidState, p: PipetteId, give: Contents -> Contents, k: nat, n: nat)
    requires k <= n && forall j :: k <= j < n ==> At(ls, TipOf(p, j)) == map[]
    requires give(map[]) == map[]
    ensures MergeFromTips(well, ls, p, give, n) == MergeFromTips(well, ls, p, give, k)
  {
    if n > k {
      MergeFromEmptyTips(well, ls, p, give, k, n - 1);
      MergeEmpty(MergeFromTips(well, ls, p, give, n - 1));
    }
  }

  // ---------------------------------------------------------------------------
  // Every channel taking the same share (a pipette whose channels all reach one well).

  /** Channels 0 .. n-1 of `p` each receive `share` on top of what their tip holds. */
  function MergeIntoTips(ls: LiquidState, p: PipetteId, share: Contents, n: nat): LiquidState
  {
    if n == 0 then ls
    else var before := MergeIntoTips(ls, p, share, n - 1);
      before[TipOf(p, n - 1) := MergeLiquid(At(before, TipOf(p, n - 1)), share)]
  }

  /** Each of channels 0 .. n-1 has gained `share`; every other location is as it was. */
  lemma {:induction false} MergeIntoTipsReads(ls: LiquidState, p: PipetteId, share: Contents, n: nat, loc: Location)
    ensures At(MergeIntoTips(ls, p, share, n), loc) ==
      if loc.TipOf? && loc.pipette == p && loc.channel < n then MergeLiquid(At(ls, loc), share) else At(ls, loc)
  {
    if n > 0 {
      MergeIntoTipsReads(ls, p, share, n - 1, loc);
      MergeIntoTipsReads(ls, p, share, n - 1, TipOf(p, n - 1));
    }
  }

  /** Merges `share` into each of tips 0 .. n-1 of `p`, channel by channel. */
  method MergeShareIntoTips(ls0: LiquidState, p: PipetteId, share: Contents, n: nat) returns (ls: LiquidState)
    ensures ls == MergeIntoTips(ls0, p, share, n)
  {
    ls := ls0;
    var i := 0;
    while i < n
      invariant 0 <= i <= n
      invariant ls == MergeIntoTips(ls0, p, share, i)
    {
      ls := ls[TipOf(p, i) := MergeLiquid(At(ls, TipOf(p, i)), share)];
      i := i + 1;
    }
  }

  // ---------------------------------------------------------------------------
  // No negative volumes.

  /** A fold whose step keeps a tip and a well non-negative keeps every location non-negative. */
  lemma {:induction false} FoldNonNegative(
    ls: LiquidState, p: PipetteId, lw: LabwareId, wells: seq<WellName>,
    step: (Contents, Contents) -> TipAndWell, n: nat)
    requires n <= |wells| && LiquidNonNegative(ls)
    requires forall tip, well :: NonNegative(tip) && NonNegative(well) ==>
      NonNegative(step(tip, well).tip) && NonNegative(step(tip, well).well)
    ensures LiquidNonNegative(ChannelFold(ls, p, lw, wells, step, n))
  {
    if n > 0 {
      FoldNonNegative(ls, p, lw, wells, step, n - 1);
      var before := ChannelFold(ls, p, lw, wells, step, n - 1);
      var out := step(At(before, TipOf(p, n - 1)), At(before, WellOf(lw, wells[n - 1])));
      assert NonNegative(At(before, TipOf(p, n - 1))) && NonNegative(At(before, WellOf(lw, wells[n - 1])));
      forall loc
        ensures NonNegative(At(ChannelFold(ls, p, lw, wells, step, n), loc))
      {
        WriteChannelReads(before, p, lw, wells[n - 1], n - 1, out, loc);
      }
    }
  }

  /** Sharing out non-negative contents to the tips keeps every location non-negative. */
  lemma MergeIntoTipsNonNegative(ls: LiquidState, p: PipetteId, share: Contents, n: nat)
    requires LiquidNonNegative(ls) && NonNegative(share)
    ensures LiquidNonNegative(MergeIntoTips(ls, p, share, n))
  {
    forall loc
      ensures NonNegative(At(MergeIntoTips(ls, p, share, n), loc))
    {
      MergeIntoTipsReads(ls, p, share, n, loc);
      MergeNonNegative(At(ls, loc), share);
    }
  }
}
