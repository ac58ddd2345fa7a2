/**
 * The board: every tile in load order, a table from tile ID to tile used to
 * link successors, and the victory tiles.
 */
module Boards {
  import opened Wrappers
  import opened Text
  import opened Json
  import opened Tiles

  const MissingFileMessage: string := "You don't have the correct path JSON file"
  const MalformedFileMessage: string := "Take a look at your path JSON file, there is an error in the file"
  const NoStartMessage: string := "You don't have a starting tile"

  /** The dialog text shown before the program exits on a loading error. */
  function ErrorMessage(e: LoadError): string
  {
    match e
    case FileUnreadable => MissingFileMessage
    case FileMalformed => MalformedFileMessage
  }

  /** One entry of the "path" array of the board file. */
  datatype TileRecord = TileRecord(
    id: int, tileType: string, xCoord: int, yCoord: int, width: int, height: int,
    victory: bool, next: seq<int>)

  /** What reading the board file yields: the tile records, or a fatal error. */
  datatype PathLoad = Loaded(records: seq<TileRecord>) | Failed(error: LoadError)

  // ---- reading the board file ----

  /** `JSONArray.getInt` on every element. */
  function IntItems(items: seq<Json>): (r: Option<seq<int>>)
    ensures r.Some? <==> forall j :: 0 <= j < |items| ==> IntOf(items[j]).Some?
    ensures r.Some? ==> |r.value| == |items|
    ensures r.Some? ==> forall j :: 0 <= j < |items| ==> IntOf(items[j]) == Some(r.value[j])
  {
    if items == [] then Some([])
    else match (IntOf(items[0]), IntItems(items[1..]))
      case (Some(n), Some(rest)) => Some([n] + rest)
      case _ => None
  }

  /** The successor IDs: none without a "next" key, otherwise its integer array. */
  function NextIds(f: Fields): Option<seq<int>>
  {
    if "next" in f then
      match GetArray(f, "next")
      case Some(items) => IntItems(items)
      case None => None
    else Some([])
  }

  /**
   * One element of the "path" array: an object holding the seven tile keys,
   * each read by its getter (a missing key or a wrong type throws); "next" is
   * optional and its absence means no successors.
   */
  function ParseTile(v: Json): (r: Option<TileRecord>)
    ensures r.Some? ==> v.JObject? && "ID" in v.fields && "type" in v.fields && "x_coord" in v.fields &&
                        "y_coord" in v.fields && "width" in v.fields && "height" in v.fields && "victory" in v.fields
    ensures r.Some? ==> GetInt(v.fields, "ID") == Some(r.value.id) && GetString(v.fields, "type") == Some(r.value.tileType) &&
                        GetBoolean(v.fields, "victory") == Some(r.value.victory)
    ensures r.Some? && "next" !in v.fields ==> r.value.next == []
  {
    if !v.JObject? then None
    else
      var f := v.fields;
      match (GetInt(f, "ID"), GetString(f, "type"), GetInt(f, "x_coord"), GetInt(f, "y_coord"),
             GetInt(f, "width"), GetInt(f, "height"), GetBoolean(f, "victory"), NextIds(f))
      case (Some(id), Some(ty), Some(x), Some(y), Some(w), Some(h), Some(vic), Some(next)) =>
        Some(TileRecord(id, ty, x, y, w, h, vic, next))
      case _ => None
  }

  function ParseTiles(items: seq<Json>): (r: Option<seq<TileRecord>>)
    ensures r.Some? <==> forall j :: 0 <= j < |items| ==> ParseTile(items[j]).Some?
    ensures r.Some? ==> |r.value| == |items|
    ensures r.Some? ==> forall j :: 0 <= j < |items| ==> ParseTile(items[j]) == Some(r.value[j])
  {
    if items == [] then Some([])
    else match (ParseTile(items[0]), ParseTiles(items[1..]))
      case (Some(t), Some(rest)) => Some([t] + rest)
      case _ => None
  }

  /** An unreadable file and malformed content are the two distinct fatal outcomes. */
  function ReadPath(file: JsonFile): (r: PathLoad)
    ensures file.Unreadable? <==> r == Failed(FileUnreadable)
    ensures r.Loaded? ==> file.Contents? && file.root.Some? && file.root.value.JObject?
  {
    match file
    case Unreadable => Failed(FileUnreadable)
    case Contents(None) => Failed(FileMalformed)
    case Contents(Some(root)) =>
      if !root.JObject? then Failed(FileMalformed)
      else match GetArray(root.fields, "path")
        case None => Failed(FileMalformed)
        case Some(items) =>
          match ParseTiles(items)
          case None => Failed(FileMalformed)
          case Some(records) => Loaded(records)
  }

  // ---- specification of the board built from the records ----

  function IdsOf(tiles: seq<Tile>): set<int>
  {
    set t | t in tiles :: t.id
  }

  /**
   * `tileMap` after putting every tile of `tiles`, in order, into `m`; what it
   * holds is stated by the lemmas `RegisteredEntries`, `RegisteredPicksLast`
   * and `RegisteredCovers`, which keep the loading loop's proof small.
   */
  function Registered(m: map<int, Tile>, tiles: seq<Tile>): map<int, Tile>
  {
    if tiles == [] then m
    else
      var last := tiles[|tiles| - 1];
      Registered(m, tiles[..|tiles| - 1])[last.id := last]
  }

  /**
   * The table holds the earlier IDs and those of the new tiles; an earlier entry
   * survives unless a new tile has its ID, and a new ID names a new tile with that ID.
   */
  lemma {:induction false} RegisteredEntries(m: map<int, Tile>, tiles: seq<Tile>)
    ensures Registered(m, tiles).Keys == m.Keys + IdsOf(tiles)
    ensures forall id :: id in m && id !in IdsOf(tiles) ==> Registered(m, tiles)[id] == m[id]
    ensures forall id :: id in IdsOf(tiles) ==>
      Registered(m, tiles)[id] in tiles && Registered(m, tiles)[id].id == id
  {
    if tiles != [] {
      var init, last := tiles[..|tiles| - 1], tiles[|tiles| - 1];
      RegisteredEntries(m, init);
      assert tiles == init + [last];
      assert IdsOf(tiles) == IdsOf(init) + {last.id};
    }
  }

  /** A later tile with the same ID replaces an earlier one in the table. */
  lemma {:induction false} RegisteredPicksLast(m: map<int, Tile>, tiles: seq<Tile>, k: nat)
    requires k < |tiles|
    requires forall j :: k < j < |tiles| ==> tiles[j].id != tiles[k].id
    ensures tiles[k].id in Registered(m, tiles) && Registered(m, tiles)[tiles[k].id] == tiles[k]
  {
    if k < |tiles| - 1 {
      RegisteredPicksLast(m, tiles[..|tiles| - 1], k);
    }
  }

  /** Every loaded tile's ID is in the table, and it names one of the loaded tiles. */
  lemma RegisteredCovers(m: map<int, Tile>, tiles: seq<Tile>)
    ensures forall k :: 0 <= k < |tiles| ==>
      tiles[k].id in Registered(m, tiles) && Registered(m, tiles)[tiles[k].id] in tiles
  {
    RegisteredEntries(m, tiles);
    forall k | 0 <= k < |tiles|
      ensures tiles[k].id in IdsOf(tiles)
    {
      assert tiles[k] in tiles;
    }
  }

  /** The victory-flagged tiles, in order. */
  function VictoryTiles(tiles: seq<Tile>): (r: seq<Tile>)
    ensures |r| <= |tiles|
    ensures forall t :: t in r ==> t in tiles && t.victory
    ensures forall i :: 0 <= i < |tiles| && tiles[i].victory ==> tiles[i] in r
  {
    if tiles == [] then []
    else
      var last := tiles[|tiles| - 1];
      VictoryTiles(tiles[..|tiles| - 1]) + (if last.victory then [last] else [])
  }

  lemma {:induction false} VictoryTilesAppend(a: seq<Tile>, b: seq<Tile>)
    ensures VictoryTiles(a + b) == VictoryTiles(a) + VictoryTiles(b)
    decreases |b|
  {
    if b == [] {
      assert a + b == a;
    } else {
      assert (a + b)[..|a + b| - 1] == a + b[..|b| - 1];
      VictoryTilesAppend(a, b[..|b| - 1]);
    }
  }

  /** The tiles a list of successor IDs resolves to; unknown IDs are dropped. */
  function Resolve(ids: seq<int>, m: map<int, Tile>): (r: seq<Tile>)
    ensures |r| <= |ids|
  {
    if ids == [] then []
    else
      var last := ids[|ids| - 1];
      Resolve(ids[..|ids| - 1], m) + (if last in m then [m[last]] else [])
  }

  /** When every ID is known, the successors are exactly the listed tiles in the listed order. */
  lemma {:induction false} ResolveAllKnown(ids: seq<int>, m: map<int, Tile>)
    requires forall j :: 0 <= j < |ids| ==> ids[j] in m
    ensures |Resolve(ids, m)| == |ids|
    ensures forall j :: 0 <= j < |ids| ==> Resolve(ids, m)[j] == m[ids[j]]
  {
    if ids != [] {
      ResolveAllKnown(ids[..|ids| - 1], m);
    }
  }

  /** Resolving is done ID by ID: an unknown ID in the middle only drops itself. */
  lemma {:induction false} ResolveConcat(a: seq<int>, b: seq<int>, m: map<int, Tile>)
    ensures Resolve(a + b, m) == Resolve(a, m) + Resolve(b, m)
    decreases |b|
  {
    if b == [] {
      assert a + b == a;
    } else {
      assert (a + b)[..|a + b| - 1] == a + b[..|b| - 1];
      ResolveConcat(a, b[..|b| - 1], m);
    }
  }

  /** The successors given to the tile registered for `id`: those of every record with that ID. */
  function Linked(recs: seq<TileRecord>, id: int, m: map<int, Tile>): seq<Tile>
  {
    if recs == [] then []
    else
      var last := recs[|recs| - 1];
      Linked(recs[..|recs| - 1], id, m) + (if last.id == id then Resolve(last.next, m) else [])
  }

  /** Successors only ever come out of the table: a dangling ID adds nothing. */
  lemma {:induction false} ResolveWithin(ids: seq<int>, m: map<int, Tile>, tiles: seq<Tile>)
    requires forall id :: id in m ==> m[id] in tiles
    ensures forall t :: t in Resolve(ids, m) ==> t in tiles
  {
    if ids != [] {
      ResolveWithin(ids[..|ids| - 1], m, tiles);
    }
  }

  lemma {:induction false} LinkedWithin(recs: seq<TileRecord>, id: int, m: map<int, Tile>, tiles: seq<Tile>)
    requires forall id :: id in m ==> m[id] in tiles
    ensures forall t :: t in Linked(recs, id, m) ==> t in tiles
  {
    if recs != [] {
      LinkedWithin(recs[..|recs| - 1], id, m, tiles);
      ResolveWithin(recs[|recs| - 1].next, m, tiles);
    }
  }

  /** With an ID used by one record only, that tile's successors are its own resolved list. */
  lemma {:induction false} LinkedUniqueId(recs: seq<TileRecord>, k: nat, m: map<int, Tile>)
    requires k < |recs|
    requires forall j :: 0 <= j < |recs| && j != k ==> recs[j].id != recs[k].id
    ensures Linked(recs, recs[k].id, m) == Resolve(recs[k].next, m)
  {
    var n := |recs| - 1;
    if k < n {
      LinkedUniqueId(recs[..n], k, m);
    } else {
      LinkedNone(recs[..n], recs[k].id, m);
    }
  }

  lemma {:induction false} LinkedNone(recs: seq<TileRecord>, id: int, m: map<int, Tile>)
    requires forall j :: 0 <= j < |recs| ==> recs[j].id != id
    ensures Linked(recs, id, m) == []
  {
    if recs != [] {
      LinkedNone(recs[..|recs| - 1], id, m);
    }
  }

  /** The tile was built from the record. */
  ghost predicate Built(t: Tile, r: TileRecord)
    reads t`tileType
  {
    t.id == r.id && t.tileType == r.tileType && t.xCoord == r.xCoord && t.yCoord == r.yCoord &&
    t.width == r.width && t.height == r.height && t.victory == r.victory
  }

  /** The starting-tile test applied to one tile. */
  predicate IsStart(t: Tile)
    reads t`tileType
  {
    EqualsIgnoreCase("start", t.tileType) || t.id == 0
  }

  datatype StartTile = Found(tile: Tile) | NoStartTile | NoTiles

  class Board {
    var pathList: seq<Tile>
    var tileMap: map<int, Tile>
    var victoryTiles: seq<Tile>

    /**
     * The table only holds loaded tiles under their own IDs, the victory list is
     * the victory-flagged tiles in load order, and successors stay on the board.
     */
    ghost predicate Valid()
      reads this, pathList
    {
      Filed() && SuccessorsOnBoard()
    }

    /** The table and the victory list agree with the tile list. */
    ghost predicate Filed()
      reads this
    {
      (forall id :: id in tileMap ==> tileMap[id] in pathList && tileMap[id].id == id) &&
      victoryTiles == VictoryTiles(pathList)
    }

    ghost predicate SuccessorsOnBoard()
      reads this, pathList
    {
      forall t :: t in pathList ==> forall n :: n in t.nextTiles ==> n in pathList
    }

    constructor ()
      ensures pathList == [] && tileMap == map[] && victoryTiles == []
      ensures Valid()
    {
      pathList := [];
      tileMap := map[];
      victoryTiles := [];
    }

    /** The tiles as a player sees them. */
    ghost function Graph(): (g: Graph)
      reads this, pathList
      ensures g.Keys == set t | t in pathList
      ensures Mirrors(g)
      ensures Valid() ==> Closed(g)
    {
      map t | t in pathList :: Node(t.tileType, t.nextTiles)
    }

    /** The tile's successors as the linking loop leaves them after the records `recs`. */
    ghost predicate LinkedAs(t: Tile, recs: seq<TileRecord>)
      reads this, t
    {
      t.id in tileMap &&
      t.nextTiles == (if tileMap[t.id] == t then Linked(recs, t.id, tileMap) else [])
    }

    /**
     * Reads the board file and adds its tiles.  On an error nothing changes (the
     * program then shows `ErrorMessage` and exits).
     */
    method LoadPathFromJson(file: JsonFile) returns (err: Option<LoadError>)
      requires Valid()
      modifies this
      ensures Valid()
      ensures ReadPath(file).Failed? ==>
        err == Some(ReadPath(file).error) && pathList == old(pathList) &&
        tileMap == old(tileMap) && victoryTiles == old(victoryTiles)
      ensures ReadPath(file).Loaded? ==> err == None && Extended(ReadPath(file).records)
    {
      var read := ReadPath(file);
      if read.Failed? {
        return Some(read.error);
      }
      LoadRecords(read.records);
      err := None;
    }

    /**
     * What loading the records `recs` did: one fresh tile per record appended in
     * order, each registered under its ID and filed when it is a victory tile,
     * and every new tile linked as `LinkedAs` describes.
     */
    twostate predicate Extended(recs: seq<TileRecord>)
      reads this, pathList
    {
      |old(pathList)| <= |pathList| && ExtendedBy(recs, pathList[|old(pathList)|..])
    }

    /** `Extended`, with the appended tiles named. */
    twostate predicate ExtendedBy(recs: seq<TileRecord>, new added: seq<Tile>)
      reads this, added
    {
      pathList == old(pathList) + added && |added| == |recs| &&
      (forall k :: 0 <= k < |recs| ==> fresh(added[k])) &&
      tileMap == Registered(old(tileMap), added) &&
      victoryTiles == old(victoryTiles) + VictoryTiles(added) &&
      AllLinked(recs, added)
    }

    /** Each new tile was built from its record, and linked as `LinkedAs` describes. */
    ghost predicate AllLinked(recs: seq<TileRecord>, added: seq<Tile>)
      reads this, added
    {
      |added| == |recs| &&
      forall k :: 0 <= k < |recs| ==> Built(added[k], recs[k]) && LinkedAs(added[k], recs)
    }

    /**
     * What the first loop leaves for the second: the new tiles built from
     * their records without successors, and the table holding each new
     * tile's ID, every entry under its own ID.
     */
    ghost predicate ReadyToLink(recs: seq<TileRecord>, added: seq<Tile>)
      reads this, added
    {
      |added| == |recs| &&
      (forall k :: 0 <= k < |recs| ==> Built(added[k], recs[k]) && added[k].nextTiles == []) &&
      (forall k :: 0 <= k < |recs| ==> added[k].id in tileMap && tileMap[added[k].id] in added) &&
      (forall id :: id in tileMap ==> tileMap[id].id == id)
    }

    /** Both loops of loading, on records already read. */
    method LoadRecords(recs: seq<TileRecord>)
      requires Valid()
      modifies this
      ensures Valid()
      ensures Extended(recs)
    {
      ghost var added := AddTiles(recs);
      LinkTiles(recs, added);
      LinkedOnBoard(recs, added, old(pathList));
      assert ExtendedBy(recs, added);
      assert pathList[|old(pathList)|..] == added;
    }

    /** The first loop of loading: one fresh tile per record, registered and filed. */
    method AddTiles(recs: seq<TileRecord>) returns (ghost added: seq<Tile>)
      requires Valid()
      modifies this`pathList, this`tileMap, this`victoryTiles
      ensures Filed()
      ensures pathList == old(pathList) + added && |added| == |recs|
      ensures forall k :: 0 <= k < |recs| ==> fresh(added[k])
      ensures ReadyToLink(recs, added)
      ensures tileMap == Registered(old(tileMap), added)
      ensures victoryTiles == old(victoryTiles) + VictoryTiles(added)
      ensures forall t :: t in old(pathList) ==> forall n :: n in t.nextTiles ==> n in old(pathList)
    {
      added := [];
      var i := 0;
      while i < |recs|
        invariant 0 <= i <= |recs| && |added| == i
        invariant pathList == old(pathList) + added
        invariant forall k :: 0 <= k < i ==> fresh(added[k]) && Built(added[k], recs[k]) && added[k].nextTiles == []
        invariant tileMap == Registered(old(tileMap), added)
        invariant Filed()
      {
        var tile := AddTile(recs[i]);
        added := added + [tile];
        i := i + 1;
      }
      VictoryTilesAppend(old(pathList), added);
      RegisteredCovers(old(tileMap), added);
    }

    /** One iteration of the first loop: create the tile, register it, file it. */
    method AddTile(r: TileRecord) returns (tile: Tile)
      requires Filed()
      modifies this`pathList, this`tileMap, this`victoryTiles
      ensures Filed()
      ensures fresh(tile) && Built(tile, r) && tile.nextTiles == []
      ensures pathList == old(pathList) + [tile]
      ensures tileMap == old(tileMap)[tile.id := tile]
      ensures victoryTiles == old(victoryTiles) + (if tile.victory then [tile] else [])
    {
      tile := new Tile(r.id, r.tileType, r.xCoord, r.yCoord, r.width, r.height, r.victory);
      VictoryTilesAppend(pathList, [tile]);
      tileMap := tileMap[tile.id := tile];
      pathList := pathList + [tile];
      if tile.victory {
        victoryTiles := victoryTiles + [tile];
        if |victoryTiles| == 0 {
          // the random fallback of the source: the list was just appended to
          assert false;
        }
      }
    }

    /** The second loop of loading: each record's successor IDs are resolved and appended. */
    method LinkTiles(recs: seq<TileRecord>, ghost added: seq<Tile>)
      requires ReadyToLink(recs, added)
      modifies added`nextTiles
      ensures AllLinked(recs, added)
    {
      var i := 0;
      while i < |recs|
        invariant 0 <= i <= |recs|
        invariant forall k :: 0 <= k < |recs| ==> Built(added[k], recs[k]) && LinkedAs(added[k], recs[..i])
      {
        assert Built(added[i], recs[i]);
        var tile := tileMap[recs[i].id];
        assert LinkedAs(tile, recs[..i]);
        AppendSuccessors(tile, recs[i].next);
        assert recs[..i + 1][..i] == recs[..i];
        assert LinkedAs(tile, recs[..i + 1]);
        i := i + 1;
      }
      assert recs[..i] == recs;
    }

    /** Linked successors come from the table, and older tiles kept theirs, so all are on the board. */
    lemma LinkedOnBoard(recs: seq<TileRecord>, added: seq<Tile>, older: seq<Tile>)
      requires Filed() && |added| == |recs| && pathList == older + added
      requires forall t :: t in older ==> forall n :: n in t.nextTiles ==> n in older
      requires AllLinked(recs, added)
      ensures SuccessorsOnBoard()
    {
      forall t | t in pathList
        ensures forall n :: n in t.nextTiles ==> n in pathList
      {
        if t in added {
          var k :| 0 <= k < |added| && added[k] == t;
          assert LinkedAs(t, recs);
          LinkedWithin(recs, t.id, tileMap, pathList);
        } else {
          assert t in older;
        }
      }
    }

    /** The innermost loop of linking: the known IDs of `ids`, in order, become successors. */
    method AppendSuccessors(tile: Tile, ids: seq<int>)
      modifies tile`nextTiles
      ensures tile.nextTiles == old(tile.nextTiles) + Resolve(ids, tileMap)
    {
      var j := 0;
      while j < |ids|
        invariant 0 <= j <= |ids|
        invariant tile.nextTiles == old(tile.nextTiles) + Resolve(ids[..j], tileMap)
      {
        assert ids[..j + 1][..j] == ids[..j];
        if ids[j] in tileMap {
          tile.AddNextTile(tileMap[ids[j]]);
        }
        j := j + 1;
      }
      assert ids[..j] == ids;
    }

    /**
     * The starting tile: the first tile when its type is "start" (in any case) or
     * its ID is 0.  Any other first tile ends the program with `NoStartMessage`,
     * so later tiles are never looked at; an empty board gives `null`.
     */
    method GetStartingTile() returns (r: StartTile)
      ensures r == NoTiles <==> pathList == []
      ensures r.Found? <==> pathList != [] && IsStart(pathList[0])
      ensures r.Found? ==> r.tile == pathList[0]
    {
      // the scan of the source returns or exits while looking at its first tile
      if |pathList| == 0 {
        return NoTiles;
      }
      var tile := pathList[0];
      if EqualsIgnoreCase("start", tile.tileType) {
        return Found(tile);
      } else if tile.id == 0 {
        return Found(tile);
      } else {
        return NoStartTile;
      }
    }
  }
}
