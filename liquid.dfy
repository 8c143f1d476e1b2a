/**
 * Liquid bookkeeping shared by every command handler: the contents of one
 * location (a well or one tip channel) as a map from ingredient id to volume,
 * its total volume, and the two primitives the handlers build on, mergeLiquid
 * (component-wise sum) and splitLiquid (proportional draw with an air pad).
 */
module Liquid {

  type IngredientId = string

  /** Ingredient id to volume (µL). An ingredient that is absent holds 0. */
  type Contents = map<IngredientId, real>

  /** The synthetic ingredient standing for air drawn into a tip. */
  const AIR: IngredientId := "__air__"

  function VolumeOf(c: Contents, k: IngredientId): real
  {
    if k in c then c[k] else 0.0
  }

  ghost predicate NonNegative(c: Contents)
  {
    forall k :: k in c ==> c[k] >= 0.0
  }

  /** Sum of the volumes of `c` over the ingredient ids in `keys`. */
  ghost function Sum(c: Contents, keys: set<IngredientId>): real
    decreases keys
  {
    if keys == {} then 0.0
    else
      var k :| k in keys;
      VolumeOf(c, k) + Sum(c, keys - {k})
  }

  /** Total volume at a location, air included (getLocationTotalVolume). */
  ghost function Total(c: Contents): real
  {
    Sum(c, c.Keys)
  }

  /** Every ingredient kept, each at volume 0. */
  function Zeroed(c: Contents): (r: Contents)
    ensures r.Keys == c.Keys
    ensures forall k :: k in r ==> r[k] == 0.0
  {
    map k | k in c :: 0.0
  }

  /** mergeLiquid: component-wise sum; an ingredient missing on one side counts as 0. */
  function MergeLiquid(a: Contents, b: Contents): (r: Contents)
  {
    map k | k in a.Keys + b.Keys :: VolumeOf(a, k) + VolumeOf(b, k)
  }

  datatype SourceAndDest = SourceAndDest(source: Contents, dest: Contents)

  /**
   * splitLiquid: draw `volume` out of `src`. Within what `src` holds, every
   * ingredient gives up its share of `volume` in proportion to its share of the
   * total. Asking for more than the total takes everything (the source keeps its
   * ingredients at 0) and pads the draw with AIR for the shortfall.
   */
  ghost function SplitLiquid(volume: real, src: Contents): SourceAndDest
  {
    var total := Total(src);
    if volume > total then
      SourceAndDest(Zeroed(src), MergeLiquid(src, map[AIR := volume - total]))
    else if total == 0.0 then
      SourceAndDest(src, Zeroed(src))
    else
      var fraction := volume / total;
      var dest := map k | k in src :: fraction * src[k];
      SourceAndDest(map k | k in src :: src[k] - dest[k], dest)
  }

  // ---------------------------------------------------------------------------
  // Sums do not depend on the order in which ingredients are visited.

  lemma {:induction false} SumRemove(c: Contents, keys: set<IngredientId>, k: IngredientId)
    requires k in keys
    ensures Sum(c, keys) == VolumeOf(c, k) + Sum(c, keys - {k})
    decreases keys
  {
    var j :| j in keys && Sum(c, keys) == VolumeOf(c, j) + Sum(c, keys - {j});
    if j != k {
      SumRemove(c, keys - {j}, k);
      SumRemove(c, keys - {k}, j);
      assert keys - {j} - {k} == keys - {k} - {j};
    }
  }

  /** Sums are additive in the volumes they add up. */
  lemma {:induction false} SumAdd(r: Contents, a: Contents, b: Contents, keys: set<IngredientId>)
    requires forall k :: k in keys ==> VolumeOf(r, k) == VolumeOf(a, k) + VolumeOf(b, k)
    ensures Sum(r, keys) == Sum(a, keys) + Sum(b, keys)
    decreases keys
  {
    if keys != {} {
      var k :| k in keys;
      SumRemove(r, keys, k);
      SumRemove(a, keys, k);
      SumRemove(b, keys, k);
      SumAdd(r, a, b, keys - {k});
    }
  }

  /**
   * x * v, named so that the sums below treat the scaled volume as one term
   * rather than as a product to reason about.
   */
  function Times(x: real, v: real): real
  {
    x * v
  }

  /** Scaling every volume by `x` scales the sum by `x`. */
  lemma {:induction false} SumScale(r: Contents, a: Contents, keys: set<IngredientId>, x: real)
    requires forall k :: k in keys ==> VolumeOf(r, k) == Times(x, VolumeOf(a, k))
    ensures Sum(r, keys) == Times(x, Sum(a, keys))
    decreases keys
  {
    if keys != {} {
      var k :| k in keys;
      var rest := keys - {k};
      SumRemove(r, keys, k);
      SumRemove(a, keys, k);
      SumScale(r, a, rest, x);
      ScaleStep(x, VolumeOf(a, k), Sum(a, rest), VolumeOf(r, k), Sum(r, rest), Sum(a, keys), Sum(r, keys));
    }
  }

  /** One step of SumScale, as plain arithmetic. */
  lemma ScaleStep(x: real, ak: real, arest: real, rk: real, rrest: real, a: real, r: real)
    requires a == ak + arest && r == rk + rrest
    requires rk == Times(x, ak) && rrest == Times(x, arest)
    ensures r == Times(x, a)
  {
  }

  /** Ids the location does not hold add nothing to a sum. */
  lemma {:induction false} SumOverHeld(c: Contents, keys: set<IngredientId>)
    ensures Sum(c, keys) == Sum(c, keys * c.Keys)
    decreases keys
  {
    if keys != {} {
      var k :| k in keys;
      SumRemove(c, keys, k);
      SumOverHeld(c, keys - {k});
      if k in c {
        SumRemove(c, keys * c.Keys, k);
        assert (keys - {k}) * c.Keys == keys * c.Keys - {k};
      } else {
        assert (keys - {k}) * c.Keys == keys * c.Keys;
      }
    }
  }

  /** Summing over any superset of the held ingredients gives the total. */
  lemma SumCovering(c: Contents, keys: set<IngredientId>)
    requires c.Keys <= keys
    ensures Sum(c, keys) == Total(c)
  {
    SumOverHeld(c, keys);
    assert keys * c.Keys == c.Keys;
  }

  lemma {:induction false} SumNonNegative(c: Contents, keys: set<IngredientId>)
    requires NonNegative(c)
    ensures Sum(c, keys) >= 0.0
    decreases keys
  {
    if keys != {} {
      var k :| k in keys;
      SumRemove(c, keys, k);
      SumNonNegative(c, keys - {k});
    }
  }

  lemma {:induction false} SumHeldEntry(c: Contents, keys: set<IngredientId>, k: IngredientId)
    requires NonNegative(c) && k in keys
    ensures VolumeOf(c, k) <= Sum(c, keys)
  {
    SumRemove(c, keys, k);
    SumNonNegative(c, keys - {k});
  }

  // ---------------------------------------------------------------------------
  // Properties of the total.

  lemma TotalEmpty()
    ensures Total(map[]) == 0.0
  {
  }

  lemma TotalSingleton(k: IngredientId, v: real)
    ensures Total(map[k := v]) == v
  {
    var c := map[k := v];
    SumRemove(c, c.Keys, k);
    assert c.Keys - {k} == {};
  }

  /** A location with no negative entries has a non-negative total, at least each entry. */
  lemma TotalBounds(c: Contents)
    requires NonNegative(c)
    ensures Total(c) >= 0.0
    ensures forall k :: k in c ==> c[k] <= Total(c)
  {
    SumNonNegative(c, c.Keys);
    forall k | k in c
      ensures c[k] <= Total(c)
    {
      SumHeldEntry(c, c.Keys, k);
    }
  }

  lemma TotalZeroed(c: Contents)
    ensures Total(Zeroed(c)) == 0.0
  {
    SumScale(Zeroed(c), c, c.Keys, 0.0);
  }

  /** Merging adds totals: mergeLiquid neither creates nor loses volume. */
  lemma TotalMerge(a: Contents, b: Contents)
    ensures Total(MergeLiquid(a, b)) == Total(a) + Total(b)
  {
    var keys := a.Keys + b.Keys;
    assert MergeLiquid(a, b).Keys == keys;
    SumAdd(MergeLiquid(a, b), a, b, keys);
    SumCovering(a, keys);
    SumCovering(b, keys);
  }

  lemma MergeEmpty(a: Contents)
    ensures MergeLiquid(a, map[]) == a
    ensures MergeLiquid(map[], a) == a
  {
  }

  // ---------------------------------------------------------------------------
  // What splitLiquid promises.

  /** Entry by entry, the proportional branch of splitLiquid. */
  lemma ProportionalEntries(fraction: real, src: Contents, source: Contents, dest: Contents)
    requires NonNegative(src) && 0.0 <= fraction <= 1.0
    requires dest == map k | k in src :: fraction * src[k]
    requires source == map k | k in src :: src[k] - dest[k]
    ensures forall k :: k in src ==> VolumeOf(dest, k) == fraction * VolumeOf(src, k)
    ensures forall k :: k in src ==> VolumeOf(src, k) == VolumeOf(source, k) + VolumeOf(dest, k)
    ensures NonNegative(source) && NonNegative(dest)
  {
    forall k | k in src
      ensures 0.0 <= dest[k] <= src[k]
    {
      assert fraction * src[k] <= 1.0 * src[k];
    }
  }

  lemma ScaledEntry(fraction: real, x: real, total: real, volume: real, d: real)
    requires fraction * total == volume && d == fraction * x
    ensures d * total == volume * x
  {
    assert d * total == (fraction * total) * x;
  }

  /** The proportional branch of splitLiquid conserves volume. */
  lemma ProportionalDraw(volume: real, src: Contents, source: Contents, dest: Contents)
    requires NonNegative(src) && 0.0 <= volume <= Total(src) && Total(src) > 0.0
    requires dest == map k | k in src :: (volume / Total(src)) * src[k]
    requires source == map k | k in src :: src[k] - dest[k]
    ensures forall k :: k in src ==> dest[k] * Total(src) == volume * src[k]
    ensures NonNegative(source) && NonNegative(dest)
    ensures Total(dest) == volume
    ensures Total(source) == Total(src) - volume
  {
    var fraction := volume / Total(src);
    assert fraction * Total(src) == volume;
    assert 0.0 <= fraction <= 1.0;
    ProportionalEntries(fraction, src, source, dest);
    ProportionalCross(fraction, volume, src, dest);
    assert dest.Keys == src.Keys && source.Keys == src.Keys;
    assert Total(dest) == Times(fraction, Total(src)) by { SumScale(dest, src, src.Keys, fraction); }
    assert Times(fraction, Total(src)) == volume;
    assert Total(src) == Total(source) + Total(dest) by { SumAdd(src, source, dest, src.Keys); }
  }

  /** Each ingredient's part of a proportional draw, cross-multiplied. */
  lemma ProportionalCross(fraction: real, volume: real, src: Contents, dest: Contents)
    requires fraction * Total(src) == volume
    requires dest == map k | k in src :: fraction * src[k]
    ensures forall k :: k in src ==> dest[k] * Total(src) == volume * src[k]
  {
    forall k | k in src
      ensures dest[k] * Total(src) == volume * src[k]
    {
      ScaledEntry(fraction, src[k], Total(src), volume, dest[k]);
    }
  }

  /**
   * Drawing no more than the location holds: every ingredient gives up its
   * share in proportion to its part of the total, nothing is created, no air
   * is added, and no volume goes negative.
   */
  lemma SplitWithinContents(volume: real, src: Contents)
    requires NonNegative(src) && 0.0 <= volume <= Total(src)
    ensures var r := SplitLiquid(volume, src);
      && r.source.Keys == src.Keys
      && r.dest.Keys == src.Keys
      && (forall k :: k in src ==> r.source[k] + r.dest[k] == src[k])
      && (forall k :: k in src ==> r.dest[k] * Total(src) == volume * src[k])
      && NonNegative(r.source) && NonNegative(r.dest)
      && Total(r.dest) == volume
      && Total(r.source) == Total(src) - volume
  {
    var total := Total(src);
    if total == 0.0 {
      assert SplitLiquid(volume, src) == SourceAndDest(src, Zeroed(src));
      TotalZeroed(src);
    } else {
      var dest := map k | k in src :: (volume / total) * src[k];
      var source := map k | k in src :: src[k] - dest[k];
      assert SplitLiquid(volume, src) == SourceAndDest(source, dest);
      ProportionalDraw(volume, src, source, dest);
    }
  }

  /**
   * Drawing more than the location holds: the location keeps each of its
   * ingredients at 0, the draw holds all of them plus AIR for the shortfall.
   */
  lemma SplitOverdraw(volume: real, src: Contents)
    requires volume > Total(src)
    ensures SplitLiquid(volume, src).source.Keys == src.Keys
    ensures forall k :: k in src ==> SplitLiquid(volume, src).source[k] == 0.0
    ensures SplitLiquid(volume, src).dest.Keys == src.Keys + {AIR}
    ensures forall k :: k in src && k != AIR ==> SplitLiquid(volume, src).dest[k] == src[k]
    ensures SplitLiquid(volume, src).dest[AIR] == VolumeOf(src, AIR) + (volume - Total(src))
    ensures Total(SplitLiquid(volume, src).source) == 0.0
    ensures Total(SplitLiquid(volume, src).dest) == volume
  {
    var pad := map[AIR := volume - Total(src)];
    TotalZeroed(src);
    TotalMerge(src, pad);
    TotalSingleton(AIR, volume - Total(src));
  }

  /** Merging non-negative contents gives non-negative contents. */
  lemma MergeNonNegative(a: Contents, b: Contents)
    requires NonNegative(a) && NonNegative(b)
    ensures NonNegative(MergeLiquid(a, b))
  {
  }

  /**
   * Splitting a non-negative volume out of non-negative contents never
   * produces a negative volume, on either side, whether the draw stays within
   * the contents or runs past them.
   */
  lemma SplitNonNegative(volume: real, src: Contents)
    requires NonNegative(src) && volume >= 0.0
    ensures NonNegative(SplitLiquid(volume, src).source) && NonNegative(SplitLiquid(volume, src).dest)
  {
    if volume > Total(src) {
      TotalBounds(src);
      MergeNonNegative(src, map[AIR := volume - Total(src)]);
    } else {
      SplitWithinContents(volume, src);
    }
  }

  /** A pristine location gives only air, and stays pristine. */
  lemma SplitPristine(volume: real)
    requires volume > 0.0
    ensures SplitLiquid(volume, map[]) == SourceAndDest(map[], map[AIR := volume])
  {
    TotalEmpty();
    assert MergeLiquid(map[], map[AIR := volume]) == map[AIR := volume];
  }

  /** Drawing exactly the total moves everything and leaves every ingredient at 0. */
  lemma SplitEverything(src: Contents)
    requires Total(src) != 0.0
    ensures SplitLiquid(Total(src), src) == SourceAndDest(Zeroed(src), src)
  {
    var total := Total(src);
    var dest := map k | k in src :: (total / total) * src[k];
    var source := map k | k in src :: src[k] - dest[k];
    assert SplitLiquid(total, src) == SourceAndDest(source, dest);
    forall k | k in src
      ensures dest[k] == src[k] && source[k] == 0.0
    {
      assert total / total == 1.0;
    }
    assert dest == src;
    assert source == Zeroed(src);
  }

  /**
   * Whatever the location holds, the draw holds exactly `volume`; the location
   * loses `volume`, or all it had when asked for more.
   */
  lemma SplitTotals(volume: real, src: Contents)
    requires NonNegative(src) && volume >= 0.0
    ensures Total(SplitLiquid(volume, src).dest) == volume
    ensures Total(SplitLiquid(volume, src).source) == if volume > Total(src) then 0.0 else Total(src) - volume
  {
    if volume > Total(src) {
      SplitOverdraw(volume, src);
    } else {
      SplitWithinContents(volume, src);
    }
  }

  /** The total of a location holding two distinct ingredients. */
  lemma TotalPair(k1: IngredientId, v1: real, k2: IngredientId, v2: real)
    requires k1 != k2
    ensures Total(map[k1 := v1, k2 := v2]) == v1 + v2
  {
    var c := map[k1 := v1, k2 := v2];
    SumRemove(c, c.Keys, k1);
    assert c.Keys - {k1} == {k2};
    SumRemove(c, {k2}, k2);
    assert {k2} - {k2} == {};
  }

  // ---------------------------------------------------------------------------
  // Executable counterparts used by the command handlers.

  /** getLocationTotalVolume: adds up every ingredient's volume at a location. */
  method LocationTotalVolume(c: Contents) returns (total: real)
    ensures total == Total(c)
  {
    total := 0.0;
    var rest := c.Keys;
    while rest != {}
      invariant rest <= c.Keys
      invariant total + Sum(c, rest) == Total(c)
      decreases rest
    {
      var k :| k in rest;
      SumRemove(c, rest, k);
      total := total + c[k];
      rest := rest - {k};
    }
  }

  /** Computes splitLiquid, also returning the source's total volume. */
  method Split(volume: real, src: Contents) returns (r: SourceAndDest, total: real)
    ensures total == Total(src)
    ensures r == SplitLiquid(volume, src)
  {
    total := LocationTotalVolume(src);
    r := SplitWithTotal(volume, src, total);
  }

  /** Computes splitLiquid given the source's total volume, already summed by the caller. */
  method SplitWithTotal(volume: real, src: Contents, total: real) returns (r: SourceAndDest)
    requires total == Total(src)
    ensures r == SplitLiquid(volume, src)
  {
    if volume > total {
      r := SourceAndDest(Zeroed(src), MergeLiquid(src, map[AIR := volume - total]));
    } else if total == 0.0 {
      r := SourceAndDest(src, Zeroed(src));
    } else {
      var fraction := volume / total;
      var dest := map k | k in src :: fraction * src[k];
      r := SourceAndDest(map k | k in src :: src[k] - dest[k], dest);
    }
  }
}
