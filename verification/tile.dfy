/** One square of the board and the ordered list of squares a player may step to from it. */
module Tiles {
  class Tile {
    const id: int
    const xCoord: int
    const yCoord: int
    const width: int
    const height: int
    const victory: bool
    /** The tile's colour ("green", "blue", "red", "start", ...). */
    var tileType: string
    /** Successors in the order they were added; duplicates are kept. */
    var nextTiles: seq<Tile>

    constructor (id: int, tileType: string, xCoord: int, yCoord: int, width: int, height: int, victory: bool)
      ensures this.id == id && this.tileType == tileType && this.victory == victory
      ensures this.xCoord == xCoord && this.yCoord == yCoord
      ensures this.width == width && this.height == height
      ensures nextTiles == []
    {
      this.id := id;
      this.tileType := tileType;
      this.xCoord := xCoord;
      this.yCoord := yCoord;
      this.width := width;
      this.height := height;
      this.victory := victory;
      nextTiles := [];
    }

    /** Appends a successor after the existing ones. */
    method AddNextTile(tile: Tile)
      modifies this`nextTiles
      ensures nextTiles == old(nextTiles) + [tile]
    {
      nextTiles := nextTiles + [tile];
    }

    /** Replaces the colour and nothing else. */
    method SetType(tileType: string)
      modifies this`tileType
      ensures this.tileType == tileType
    {
      this.tileType := tileType;
    }
  }

  /** What a player sees of one tile while moving: its colour and its successors. */
  datatype Node = Node(tileType: string, next: seq<Tile>)

  /** A snapshot of a set of tiles, taken from the heap. */
  type Graph = map<Tile, Node>

  /** The snapshot agrees with the tiles it was taken from. */
  ghost predicate Mirrors(g: Graph)
    reads g.Keys
  {
    forall t :: t in g ==> t.tileType == g[t].tileType && t.nextTiles == g[t].next
  }

  /** Every successor of a tile in the snapshot is itself in the snapshot. */
  predicate Closed(g: Graph)
  {
    forall t :: t in g ==> forall n :: n in g[t].next ==> n in g
  }
}
