/**
 How a batch of keys is cut into tiles (get_tile_range of the connector).
 */
module Tiling {
  import opened Radix

  function TileStart(tile: nat, items: nat, tiles: nat): nat
    requires tiles > 0
  {
    TileBase(tile, items / tiles, items % tiles)
  }

  /** First index of a tile when every tile has quot keys and the first extra ones have one more. */
  function TileBase(tile: nat, quot: nat, extra: nat): (r: nat)
  {
    MulNat(tile, quot);
    tile * quot + Min(tile, extra)
  }

  lemma MulNat(a: nat, b: nat)
    ensures a * b >= 0
  {
  }

  function TileSize(tile: nat, items: nat, tiles: nat): nat
    requires tiles > 0
  {
    items / tiles + (if tile < items % tiles then 1 else 0)
  }

  /** get_tile_range: the half-open key range of a tile. */
  function TileRange(tile: nat, items: nat, tiles: nat): (r: (nat, nat))
    requires tiles > 0
  {
    (TileStart(tile, items, tiles), TileStart(tile, items, tiles) + TileSize(tile, items, tiles))
  }

  /** A tile ends where the next one starts. */
  lemma TileEnd(tile: nat, items: nat, tiles: nat)
    requires tiles > 0
    ensures TileRange(tile, items, tiles).1 == TileStart(tile + 1, items, tiles)
  {
    var q := items / tiles;
    assert (tile + 1) * q == tile * q + q;
  }

  /** The tiles start at key 0 and end at the last key. */
  lemma TileEnds(items: nat, tiles: nat)
    requires tiles > 0
    ensures TileStart(0, items, tiles) == 0
    ensures TileStart(tiles, items, tiles) == items
  {
    var q, r := items / tiles, items % tiles;
    assert items == tiles * q + r;
  }

  lemma {:induction false} TileStartMonotone(a: nat, b: nat, items: nat, tiles: nat)
    requires tiles > 0 && a <= b
    ensures TileStart(a, items, tiles) <= TileStart(b, items, tiles)
    decreases b
  {
    if a < b {
      TileStartMonotone(a, b - 1, items, tiles);
      TileEnd(b - 1, items, tiles);
    }
  }

  /** All tile boundaries. */
  function Starts(items: nat, tiles: nat): (s: seq<nat>)
    requires tiles > 0
    ensures |s| == tiles + 1
  {
    seq(tiles + 1, i requires 0 <= i <= tiles => TileStart(i, items, tiles))
  }

  /** Boundaries of a partition of 0..items into consecutive ranges. */
  ghost predicate Partition(starts: seq<nat>, items: nat, tiles: nat)
  {
    && |starts| == tiles + 1
    && starts[0] == 0 && starts[tiles] == items
    && forall a, b :: 0 <= a <= b <= tiles ==> starts[a] <= starts[b]
  }

  /** The tiles' ranges are consecutive and partition the keys. */
  lemma StartsPartition(items: nat, tiles: nat)
    requires tiles > 0
    ensures Partition(Starts(items, tiles), items, tiles)
    ensures forall t :: 0 <= t < tiles ==> TileRange(t, items, tiles) == (Starts(items, tiles)[t], Starts(items, tiles)[t + 1])
  {
    TileEnds(items, tiles);
    forall t | 0 <= t < tiles
      ensures TileRange(t, items, tiles) == (Starts(items, tiles)[t], Starts(items, tiles)[t + 1])
    {
      TileEnd(t, items, tiles);
    }
    forall a, b | 0 <= a <= b <= tiles
      ensures TileStart(a, items, tiles) <= TileStart(b, items, tiles)
    {
      TileStartMonotone(a, b, items, tiles);
    }
  }

  /** Every key lies in exactly one range of a partition. */
  lemma {:induction false} OwnerExists(starts: seq<nat>, items: nat, tiles: nat, key: nat) returns (t: nat)
    requires Partition(starts, items, tiles) && key < items
    ensures t < tiles && starts[t] <= key < starts[t + 1]
    ensures forall u :: 0 <= u < tiles && starts[u] <= key < starts[u + 1] ==> u == t
  {
    t := tiles - 1;
    while key < starts[t]
      invariant t < tiles && key < starts[t + 1]
      decreases t
    {
      t := t - 1;
    }
  }

  /** Tile sizes differ by at most one, the larger ones first, and with at most as many tiles as keys none is empty. */
  lemma TileSizesBalanced(items: nat, tiles: nat, a: nat, b: nat)
    requires 0 < tiles <= items && a < tiles && b < tiles
    ensures 1 <= TileSize(a, items, tiles) <= TileSize(b, items, tiles) + 1
    ensures a <= b ==> TileSize(b, items, tiles) <= TileSize(a, items, tiles)
  {
    var q, r := items / tiles, items % tiles;
    assert items == tiles * q + r;
    if q == 0 {
      assert false;
    }
  }
}
