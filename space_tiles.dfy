/** The tile grid of the host map as the space client writes it: one tile id
    per (x, y, layer), written through the host's `setNormalTile`. */
module SpaceTiles {
  import opened JsValues

  /** One tile edit: `{x, y, z, tile_id}` with the id already a number. */
  datatype Tile = Tile(x: int, y: int, z: int, tileId: int)

  type Cell = (int, int, int)

  /** The tile ids written so far; a cell never written reads as 0. */
  type Grid = map<Cell, int>

  function CellOf(t: Tile): Cell {
    (t.x, t.y, t.z)
  }

  /** The host's `setNormalTile(x, y, z, id)`. */
  function SetTile(g: Grid, t: Tile): Grid {
    g[CellOf(t) := t.tileId]
  }

  /** The host's `tileId(x, y, z)`. */
  function TileAt(g: Grid, c: Cell): int {
    if c in g then g[c] else 0
  }

  /** The tiles of a list written in list order. */
  function ApplyTiles(g: Grid, ts: seq<Tile>): (r: Grid)
    decreases |ts|
    ensures g.Keys <= r.Keys
    ensures forall t :: t in ts ==> CellOf(t) in r
    ensures forall c :: c in r && c !in g ==> exists t :: t in ts && CellOf(t) == c
    ensures ts != [] ==> r[CellOf(ts[|ts| - 1])] == ts[|ts| - 1].tileId
  {
    if ts == [] then g
    else
      var front := ts[..|ts| - 1];
      assert forall t :: t in ts <==> t in front || t == ts[|ts| - 1];
      SetTile(ApplyTiles(g, front), ts[|ts| - 1])
  }

  /** Writing one more tile of a list extends the writes of its prefix. */
  lemma ApplyTilesStep(g: Grid, ts: seq<Tile>, i: int)
    requires 0 <= i < |ts|
    ensures ApplyTiles(g, ts[..i + 1]) == SetTile(ApplyTiles(g, ts[..i]), ts[i])
  {
    assert ts[..i + 1][..i] == ts[..i];
  }

  /** The id of the last tile of `ts` that falls on cell `c`, if any. */
  function LastWrite(ts: seq<Tile>, c: Cell): (w: Option<int>)
    decreases |ts|
    ensures w.Some? <==> exists i :: 0 <= i < |ts| && CellOf(ts[i]) == c
    ensures w.Some? ==> exists i :: 0 <= i < |ts| && CellOf(ts[i]) == c && ts[i].tileId == w.value &&
                                    forall j :: i < j < |ts| ==> CellOf(ts[j]) != c
  {
    if ts == [] then None
    else if CellOf(ts[|ts| - 1]) == c then Some(ts[|ts| - 1].tileId)
    else
      var w := LastWrite(ts[..|ts| - 1], c);
      assert forall i :: 0 <= i < |ts| - 1 ==> ts[..|ts| - 1][i] == ts[i];
      w
  }

  /** Last write wins: after writing a list, a cell holds the id of the last
      tile of the list on it, or what it held before when none falls on it. */
  lemma {:induction false} LastWriteWins(g: Grid, ts: seq<Tile>, c: Cell)
    ensures c in ApplyTiles(g, ts) <==> c in g || LastWrite(ts, c).Some?
    ensures c in ApplyTiles(g, ts) ==>
      ApplyTiles(g, ts)[c] == if LastWrite(ts, c).Some? then LastWrite(ts, c).value else g[c]
    decreases |ts|
  {
    if ts != [] {
      LastWriteWins(g, ts[..|ts| - 1], c);
    }
  }

  /** Writing the same list twice leaves the grid as writing it once. */
  lemma ApplyTilesIdempotent(g: Grid, ts: seq<Tile>)
    ensures ApplyTiles(ApplyTiles(g, ts), ts) == ApplyTiles(g, ts)
  {
    var once := ApplyTiles(g, ts);
    var twice := ApplyTiles(once, ts);
    forall c ensures c in twice <==> c in once {
      LastWriteWins(g, ts, c);
      LastWriteWins(once, ts, c);
    }
    forall c | c in twice ensures twice[c] == once[c] {
      LastWriteWins(g, ts, c);
      LastWriteWins(once, ts, c);
    }
  }

  /** Writing a list changes only the cells the list names. */
  lemma ApplyTilesFrame(g: Grid, ts: seq<Tile>, c: Cell)
    requires forall i :: 0 <= i < |ts| ==> CellOf(ts[i]) != c
    ensures TileAt(ApplyTiles(g, ts), c) == TileAt(g, c)
  {
    LastWriteWins(g, ts, c);
  }
}
