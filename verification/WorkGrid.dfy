/**
 How one launch cuts its work: groups over (plane, layer, block, tile), lanes
 striding through the units of a tile.
 */
module WorkGrid {
  import opened Radix

  const WORK_GROUP: nat := 256

  /** Sizes of one launch: flat blocks [first, first + blocks), units per tile and per block. */
  datatype Grid = Grid(kv: nat, nl: nat, first: nat, blocks: nat, tileUnits: nat, blockUnits: nat)

  predicate GridOk(g: Grid)
  {
    g.nl > 0 && g.blocks > 0 && g.tileUnits > 0 && g.blockUnits > 0
  }

  function Tiles(g: Grid): (r: nat)
    requires GridOk(g)
    ensures r > 0 && g.blockUnits <= r * g.tileUnits
  {
    var x := g.blockUnits + g.tileUnits - 1;
    Split(x, g.tileUnits);
    Quot(x, g.tileUnits)
  }

  function Groups(g: Grid): nat
    requires GridOk(g)
  {
    Mul(Mul(Mul(g.kv, g.nl), g.blocks), Tiles(g))
  }

  /** What one work-group handles. */
  datatype Item = Item(kv: nat, layer: nat, blk: nat, tile: nat)

  function ItemOf(g: Grid, group: nat): Item
    requires GridOk(g)
  {
    var byTile := Quot(group, Tiles(g));
    var byBlock := Quot(byTile, g.blocks);
    Item(Quot(byBlock, g.nl), Rem(byBlock, g.nl), g.first + Rem(byTile, g.blocks), Rem(group, Tiles(g)))
  }

  predicate ItemOk(g: Grid, it: Item)
    requires GridOk(g)
  {
    it.kv < g.kv && it.layer < g.nl && g.first <= it.blk < g.first + g.blocks && it.tile < Tiles(g)
  }

  function GroupOf(g: Grid, it: Item): nat
    requires GridOk(g) && ItemOk(g, it)
  {
    Mul(Mul(Mul(it.kv, g.nl) + it.layer, g.blocks) + (it.blk - g.first), Tiles(g)) + it.tile
  }

  /** Every group handles an item of the launch, and its number can be read back. */
  lemma GroupItem(g: Grid, group: nat)
    requires GridOk(g) && group < Groups(g)
    ensures ItemOk(g, ItemOf(g, group)) && GroupOf(g, ItemOf(g, group)) == group
  {
    HighDigit(group, g.kv * g.nl * g.blocks, Tiles(g));
    var byTile := group / Tiles(g);
    HighDigit(byTile, g.kv * g.nl, g.blocks);
    HighDigit(byTile / g.blocks, g.kv, g.nl);
  }

  /** Every item of the launch is some group's. */
  lemma ItemGroup(g: Grid, it: Item)
    requires GridOk(g) && ItemOk(g, it)
    ensures GroupOf(g, it) < Groups(g) && ItemOf(g, GroupOf(g, it)) == it
  {
    var blk := it.blk - g.first;
    var byBlock := it.kv * g.nl + it.layer;
    var byTile := byBlock * g.blocks + blk;
    Less(it.kv, it.layer, g.kv, g.nl);
    Less(byBlock, blk, g.kv * g.nl, g.blocks);
    Less(byTile, it.tile, g.kv * g.nl * g.blocks, Tiles(g));
    Digits(it.kv, it.layer, g.nl);
    Digits(byBlock, blk, g.blocks);
    Digits(byTile, it.tile, Tiles(g));
  }

  function TileEnd(g: Grid, tile: nat): nat
  {
    Min(g.blockUnits, Mul(tile + 1, g.tileUnits))
  }

  /** The units a lane of a tile walks over. */
  predicate InLane(g: Grid, tile: nat, lane: nat, i: nat)
  {
    var base := Mul(tile, g.tileUnits);
    base <= i < TileEnd(g, tile) && (i - base) % WORK_GROUP == lane
  }

  function TileFor(g: Grid, i: nat): nat
    requires GridOk(g)
  {
    Quot(i, g.tileUnits)
  }

  function LaneFor(g: Grid, i: nat): nat
    requires GridOk(g)
  {
    Rem(Rem(i, g.tileUnits), WORK_GROUP)
  }

  /** Tile and lane of a unit. */
  lemma UnitLane(g: Grid, i: nat)
    requires GridOk(g) && i < g.blockUnits
    ensures TileFor(g, i) < Tiles(g) && LaneFor(g, i) < WORK_GROUP && InLane(g, TileFor(g, i), LaneFor(g, i), i)
  {
    Distribute(i / g.tileUnits, 1, g.tileUnits);
    HighDigit(i, Tiles(g), g.tileUnits);
  }

  lemma UnitLaneUnique(g: Grid, i: nat, tile: nat, lane: nat)
    requires GridOk(g) && InLane(g, tile, lane, i)
    ensures tile == TileFor(g, i) && lane == LaneFor(g, i)
  {
    Distribute(tile, 1, g.tileUnits);
    Digits(tile, i - tile * g.tileUnits, g.tileUnits);
  }

  /** Group and lane reach unit i of the block. */
  predicate Visits(g: Grid, group: nat, lane: nat, kv: nat, layer: nat, blk: nat, i: nat)
    requires GridOk(g)
  {
    var it := ItemOf(g, group);
    group < Groups(g) && lane < WORK_GROUP && it.kv == kv && it.layer == layer && it.blk == blk && InLane(g, it.tile, lane, i)
  }

  function GroupFor(g: Grid, kv: nat, layer: nat, blk: nat, i: nat): nat
    requires GridOk(g) && ItemOk(g, Item(kv, layer, blk, TileFor(g, i)))
  {
    GroupOf(g, Item(kv, layer, blk, TileFor(g, i)))
  }

  /** Every unit of every plane, layer and block of the launch is visited by exactly one lane of one group. */
  lemma VisitedOnce(g: Grid, kv: nat, layer: nat, blk: nat, i: nat, group: nat, lane: nat)
    requires GridOk(g) && kv < g.kv && layer < g.nl && g.first <= blk < g.first + g.blocks && i < g.blockUnits
    ensures ItemOk(g, Item(kv, layer, blk, TileFor(g, i)))
    ensures Visits(g, group, lane, kv, layer, blk, i) <==> group == GroupFor(g, kv, layer, blk, i) && lane == LaneFor(g, i)
  {
    UnitLane(g, i);
    ItemGroup(g, Item(kv, layer, blk, TileFor(g, i)));
    if Visits(g, group, lane, kv, layer, blk, i) {
      UnitLaneUnique(g, i, ItemOf(g, group).tile, lane);
      GroupItem(g, group);
    }
  }

  /** Nothing outside the launch is visited. */
  lemma VisitedInside(g: Grid, kv: nat, layer: nat, blk: nat, i: nat, group: nat, lane: nat)
    requires GridOk(g) && Visits(g, group, lane, kv, layer, blk, i)
    ensures kv < g.kv && layer < g.nl && g.first <= blk < g.first + g.blocks && i < g.blockUnits
  {
    GroupItem(g, group);
  }
}
