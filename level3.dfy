/** Level 3, the sliding jigsaw: 25 tiles are scattered over the board and
    the two workspaces beside it; the player drags unlocked tiles, and a
    tile released close enough to its own cell snaps into it and locks.
    Locking all 25 wins. The tile list is the `tilesRef` list every mouse
    handler reads and replaces. */
module Puzzle {
  import opened Geometry
  import opened Options

  const GridSize := 5
  const TileCount := 25

  datatype Tile = Tile(id: int, gridX: int, gridY: int, x: real, y: real, locked: bool)

  /** The board is the largest square within 80% of the height and half the
      width, centred on the screen; the workspaces fill the strips to its
      left and right. */
  datatype Layout = Layout(screenWidth: real, screenHeight: real, puzzleSize: real,
                           tileSize: real, originX: real, originY: real)

  function LayoutFor(screenWidth: real, screenHeight: real): (l: Layout)
    ensures l.screenWidth == screenWidth && l.screenHeight == screenHeight
    ensures l.puzzleSize == Min(screenHeight * 0.8, screenWidth * 0.5)
    ensures l.tileSize * GridSize as real == l.puzzleSize
    ensures 2.0 * l.originX + l.puzzleSize == screenWidth
    ensures 2.0 * l.originY + l.puzzleSize == screenHeight
  {
    var size := Min(screenHeight * 0.8, screenWidth * 0.5);
    Layout(screenWidth, screenHeight, size, size / GridSize as real,
           (screenWidth - size) / 2.0, (screenHeight - size) / 2.0)
  }

  /** A tile snaps when released within 30% of a tile's size of its cell. */
  function SnapThreshold(l: Layout): real { l.tileSize * 0.3 }

  function TargetX(l: Layout, t: Tile): real { l.originX + t.gridX as real * l.tileSize }
  function TargetY(l: Layout, t: Tile): real { l.originY + t.gridY as real * l.tileSize }

  predicate UniqueIds(tiles: seq<Tile>)
  {
    forall i, j :: 0 <= i < j < |tiles| ==> tiles[i].id != tiles[j].id
  }

  function LockedCount(tiles: seq<Tile>): (n: nat)
    ensures n <= |tiles|
  {
    if tiles == [] then 0 else (if tiles[0].locked then 1 else 0) + LockedCount(tiles[1..])
  }

  lemma {:induction false} LockedCountAppend(a: seq<Tile>, b: seq<Tile>)
    ensures LockedCount(a + b) == LockedCount(a) + LockedCount(b)
  {
    if a == [] {
      assert a + b == b;
    } else {
      assert (a + b)[0] == a[0] && (a + b)[1..] == a[1..] + b;
      LockedCountAppend(a[1..], b);
    }
  }

  /** Locking more tiles, position by position, never lowers the count, and
      locking all of them counts all of them. */
  lemma {:induction false} LockedCountMonotone(a: seq<Tile>, b: seq<Tile>)
    requires |a| == |b|
    requires forall i :: 0 <= i < |a| && a[i].locked ==> b[i].locked
    ensures LockedCount(a) <= LockedCount(b)
    ensures (forall i :: 0 <= i < |b| ==> b[i].locked) ==> LockedCount(b) == |b|
  {
    if a != [] {
      LockedCountMonotone(a[1..], b[1..]);
    }
  }

  // ---------------------------------------------------------------------
  // Generating and scrambling

  /** `generatePlaceholderTiles` before scrambling: row by row, tile
      `row * 5 + col` belongs in cell (col, row). */
  method GenerateTiles() returns (tiles: seq<Tile>)
    ensures |tiles| == TileCount
    ensures forall i :: 0 <= i < TileCount ==> tiles[i] == Tile(i, i % GridSize, i / GridSize, 0.0, 0.0, false)
  {
    tiles := [];
    var row := 0;
    while row < GridSize
      invariant 0 <= row <= GridSize && |tiles| == row * GridSize
      invariant forall i :: 0 <= i < |tiles| ==> tiles[i] == Tile(i, i % GridSize, i / GridSize, 0.0, 0.0, false)
    {
      var col := 0;
      while col < GridSize
        invariant 0 <= col <= GridSize && |tiles| == row * GridSize + col
        invariant forall i :: 0 <= i < |tiles| ==> tiles[i] == Tile(i, i % GridSize, i / GridSize, 0.0, 0.0, false)
      {
        var id := row * GridSize + col;
        assert id % GridSize == col && id / GridSize == row;
        tiles := tiles + [Tile(id, col, row, 0.0, 0.0, false)];
        col := col + 1;
      }
      row := row + 1;
    }
  }

  /** The generated tiles have distinct ids and fill every cell of the
      5 x 5 grid exactly once. */
  lemma GeneratedTilesFillGrid(tiles: seq<Tile>)
    requires |tiles| == TileCount
    requires forall i :: 0 <= i < TileCount ==> tiles[i] == Tile(i, i % GridSize, i / GridSize, 0.0, 0.0, false)
    ensures UniqueIds(tiles) && LockedCount(tiles) == 0
    ensures forall col, row :: 0 <= col < GridSize && 0 <= row < GridSize ==> HoldsCell(tiles, col, row)
    ensures forall i, j :: 0 <= i < j < TileCount ==>
              (tiles[i].gridX, tiles[i].gridY) != (tiles[j].gridX, tiles[j].gridY)
  {
    assert forall i :: 0 <= i < TileCount ==> !tiles[i].locked;
    LockedCountMonotone(tiles, seq(|tiles|, i requires 0 <= i < |tiles| => tiles[i]));
    NoneLockedCountsZero(tiles);
    forall col, row | 0 <= col < GridSize && 0 <= row < GridSize
      ensures HoldsCell(tiles, col, row)
    {
      var i := row * GridSize + col;
      assert i % GridSize == col && i / GridSize == row;
      assert tiles[i].gridX == col && tiles[i].gridY == row;
    }
    forall i, j | 0 <= i < j < TileCount
      ensures (tiles[i].gridX, tiles[i].gridY) != (tiles[j].gridX, tiles[j].gridY)
    {
      assert i == (i / GridSize) * GridSize + i % GridSize;
      assert j == (j / GridSize) * GridSize + j % GridSize;
    }
  }

  /** Some tile belongs in cell (col, row). */
  predicate HoldsCell(tiles: seq<Tile>, col: int, row: int)
  {
    exists i :: 0 <= i < |tiles| && tiles[i].gridX == col && tiles[i].gridY == row
  }

  lemma {:induction false} NoneLockedCountsZero(tiles: seq<Tile>)
    requires forall i :: 0 <= i < |tiles| ==> !tiles[i].locked
    ensures LockedCount(tiles) == 0
  {
    if tiles != [] {
      NoneLockedCountsZero(tiles[1..]);
    }
  }

  /** The random numbers one tile consumes in `scrambleTiles`, each in [0, 1). */
  datatype ScatterDraw = ScatterDraw(left: real, right: real, rx: real, ry: real)

  predicate ValidScatter(d: ScatterDraw)
  {
    0.0 <= d.left < 1.0 && 0.0 <= d.right < 1.0 && 0.0 <= d.rx < 1.0 && 0.0 <= d.ry < 1.0
  }

  /** Where one tile lands: the left workspace with chance 0.3, else the
      right one with chance 0.3, else somewhere on the board. */
  function Scatter(t: Tile, d: ScatterDraw, l: Layout): (r: Tile)
    ensures r.(x := t.x, y := t.y) == t
  {
    if d.left < 0.3 then
      t.(x := d.rx * (l.originX - l.tileSize), y := d.ry * (l.screenHeight - l.tileSize))
    else if d.right < 0.3 then
      t.(x := l.originX + l.puzzleSize + d.rx * (l.originX - l.tileSize),
         y := d.ry * (l.screenHeight - l.tileSize))
    else
      t.(x := l.originX + d.rx * (l.puzzleSize - l.tileSize),
         y := l.originY + d.ry * (l.puzzleSize - l.tileSize))
  }


  /** A tile scattered onto the board lies entirely on the board. */
  lemma ScatteredOnBoard(t: Tile, d: ScatterDraw, l: Layout)
    requires ValidScatter(d) && d.left >= 0.3 && d.right >= 0.3
    requires l.tileSize >= 0.0 && l.puzzleSize >= l.tileSize
    ensures var r := Scatter(t, d, l);
            l.originX <= r.x && r.x + l.tileSize <= l.originX + l.puzzleSize &&
            l.originY <= r.y && r.y + l.tileSize <= l.originY + l.puzzleSize
  {
    var w := l.puzzleSize - l.tileSize;
    var r := Scatter(t, d, l);
    assert r.x == l.originX + d.rx * w && r.y == l.originY + d.ry * w;
    ScaleWithin(d.rx, w);
    ScaleWithin(d.ry, w);
  }

  /** The `forEach` over the tiles, one draw per tile. */
  method ScrambleTiles(tiles: seq<Tile>, draws: seq<ScatterDraw>, l: Layout) returns (scrambled: seq<Tile>)
    requires |draws| == |tiles|
    ensures |scrambled| == |tiles|
    ensures forall i :: 0 <= i < |tiles| ==> scrambled[i] == Scatter(tiles[i], draws[i], l)
  {
    scrambled := tiles;
    var i := 0;
    while i < |tiles|
      invariant 0 <= i <= |tiles| && |scrambled| == |tiles|
      invariant forall j :: 0 <= j < i ==> scrambled[j] == Scatter(tiles[j], draws[j], l)
      invariant forall j :: i <= j < |tiles| ==> scrambled[j] == tiles[j]
    {
      scrambled := scrambled[i := Scatter(tiles[i], draws[i], l)];
      i := i + 1;
    }
  }

  // ---------------------------------------------------------------------
  // Picking, dragging and snapping

  /** The mouse is on an unlocked tile, edges included. */
  predicate Grabbable(t: Tile, mouseX: real, mouseY: real, tileSize: real)
  {
    !t.locked && t.x <= mouseX <= t.x + tileSize && t.y <= mouseY <= t.y + tileSize
  }

  /** The index of the last (topmost) grabbable tile, or -1. */
  function Topmost(tiles: seq<Tile>, mouseX: real, mouseY: real, tileSize: real): (k: int)
    ensures -1 <= k < |tiles|
    ensures k == -1 <==> forall i :: 0 <= i < |tiles| ==> !Grabbable(tiles[i], mouseX, mouseY, tileSize)
    ensures k >= 0 ==>
              Grabbable(tiles[k], mouseX, mouseY, tileSize) &&
              forall j :: k < j < |tiles| ==> !Grabbable(tiles[j], mouseX, mouseY, tileSize)
  {
    if tiles == [] then -1
    else if Grabbable(tiles[|tiles| - 1], mouseX, mouseY, tileSize) then |tiles| - 1
    else Topmost(tiles[..|tiles| - 1], mouseX, mouseY, tileSize)
  }

  /** `[...tiles].reverse().find(...)`, scanning from the top of the pile. */
  method TopmostAt(tiles: seq<Tile>, mouseX: real, mouseY: real, tileSize: real) returns (index: int)
    ensures index == Topmost(tiles, mouseX, mouseY, tileSize)
  {
    index := |tiles| - 1;
    while index >= 0 && !Grabbable(tiles[index], mouseX, mouseY, tileSize)
      invariant -1 <= index < |tiles|
      invariant forall j :: index < j < |tiles| ==> !Grabbable(tiles[j], mouseX, mouseY, tileSize)
    {
      index := index - 1;
    }
  }

  /** `tiles.filter(t => t.id !== id)`. */
  function WithoutId(tiles: seq<Tile>, id: int): (r: seq<Tile>)
    ensures forall t :: t in r <==> t in tiles && t.id != id
  {
    if tiles == [] then []
    else if tiles[0].id == id then WithoutId(tiles[1..], id)
    else [tiles[0]] + WithoutId(tiles[1..], id)
  }

  /** With distinct ids, filtering out the id of tile k removes exactly that
      tile and keeps the others in order. */
  lemma {:induction false} WithoutIdRemovesOne(tiles: seq<Tile>, k: int)
    requires UniqueIds(tiles) && 0 <= k < |tiles|
    ensures WithoutId(tiles, tiles[k].id) == tiles[..k] + tiles[k + 1..]
  {
    var id := tiles[k].id;
    var rest := tiles[1..];
    if k == 0 {
      forall i | 0 <= i < |rest| ensures rest[i].id != id {
        assert rest[i] == tiles[i + 1];
      }
      NoOtherId(rest, id);
      assert tiles[..0] + tiles[1..] == rest;
    } else {
      UniqueTail(tiles);
      assert rest[k - 1] == tiles[k];
      assert tiles[0].id != id;
      WithoutIdRemovesOne(rest, k - 1);
      calc {
        WithoutId(tiles, id);
        [tiles[0]] + WithoutId(rest, id);
        [tiles[0]] + (rest[..k - 1] + rest[k..]);
        { ShiftSlices(tiles, k); }
        tiles[..k] + tiles[k + 1..];
      }
    }
  }

  lemma ShiftSlices(tiles: seq<Tile>, k: int)
    requires 0 < k < |tiles|
    ensures [tiles[0]] + (tiles[1..][..k - 1] + tiles[1..][k..]) == tiles[..k] + tiles[k + 1..]
  {
    assert tiles[..k] == [tiles[0]] + tiles[1..][..k - 1];
    assert tiles[k + 1..] == tiles[1..][k..];
  }

  lemma UniqueTail(tiles: seq<Tile>)
    requires UniqueIds(tiles) && |tiles| > 0
    ensures UniqueIds(tiles[1..])
  {
    var rest := tiles[1..];
    forall i, j | 0 <= i < j < |rest| ensures rest[i].id != rest[j].id {
      assert rest[i] == tiles[i + 1] && rest[j] == tiles[j + 1];
    }
  }

  lemma {:induction false} NoOtherId(tiles: seq<Tile>, id: int)
    requires forall i :: 0 <= i < |tiles| ==> tiles[i].id != id
    ensures WithoutId(tiles, id) == tiles
  {
    if tiles != [] {
      NoOtherId(tiles[1..], id);
    }
  }

  /** The reorder in `handleMouseDown`: drop every tile with the picked
      tile's id and put the picked tile back on top. */
  function Raise(tiles: seq<Tile>, k: int): seq<Tile>
    requires 0 <= k < |tiles|
  {
    WithoutId(tiles, tiles[k].id) + [tiles[k]]
  }

  /** With distinct ids, raising tile k keeps the other tiles in order and
      is a permutation that keeps the ids distinct and the number of locked
      tiles; the raised tile is the only one with its id. */
  lemma RaiseFacts(tiles: seq<Tile>, k: int)
    requires UniqueIds(tiles) && 0 <= k < |tiles|
    ensures Raise(tiles, k) == tiles[..k] + tiles[k + 1..] + [tiles[k]]
    ensures multiset(Raise(tiles, k)) == multiset(tiles)
    ensures UniqueIds(Raise(tiles, k))
    ensures LockedCount(Raise(tiles, k)) == LockedCount(tiles)
    ensures forall i :: 0 <= i < |Raise(tiles, k)| && Raise(tiles, k)[i].id == tiles[k].id ==>
              Raise(tiles, k)[i] == tiles[k]
  {
    WithoutIdRemovesOne(tiles, k);
    RaisePermutes(tiles, k);
    RaiseUnique(tiles, k);
    RaiseLockedCount(tiles, k);
  }

  lemma RaisePermutes(tiles: seq<Tile>, k: int)
    requires 0 <= k < |tiles|
    ensures multiset(tiles[..k] + tiles[k + 1..] + [tiles[k]]) == multiset(tiles)
  {
    assert tiles == tiles[..k] + [tiles[k]] + tiles[k + 1..];
  }

  lemma RaiseUnique(tiles: seq<Tile>, k: int)
    requires UniqueIds(tiles) && 0 <= k < |tiles|
    ensures UniqueIds(tiles[..k] + tiles[k + 1..] + [tiles[k]])
  {
    var raised := tiles[..k] + tiles[k + 1..] + [tiles[k]];
    assert forall i :: 0 <= i < k ==> raised[i] == tiles[i];
    assert forall i :: k <= i < |tiles| - 1 ==> raised[i] == tiles[i + 1];
    assert raised[|tiles| - 1] == tiles[k];
  }

  lemma RaiseLockedCount(tiles: seq<Tile>, k: int)
    requires 0 <= k < |tiles|
    ensures LockedCount(tiles[..k] + tiles[k + 1..] + [tiles[k]]) == LockedCount(tiles)
  {
    var x, y, z := tiles[..k], [tiles[k]], tiles[k + 1..];
    var rest := tiles[k..];
    assert x + rest == tiles;
    assert rest[1..] == z;
    assert y[1..] == [];
    LockedCountAppend(x, rest);
    LockedCountAppend(x, z);
    LockedCountAppend(x + z, y);
  }

  /** The map in `handleMouseMove`: only tiles with the dragged id move. */
  function MoveTile(tiles: seq<Tile>, id: int, x: real, y: real): (r: seq<Tile>)
    ensures |r| == |tiles|
    ensures forall i :: 0 <= i < |tiles| ==>
              r[i] == (if tiles[i].id == id then tiles[i].(x := x, y := y) else tiles[i])
  {
    seq(|tiles|, i requires 0 <= i < |tiles| => if tiles[i].id == id then tiles[i].(x := x, y := y) else tiles[i])
  }

  /** The map in `handleMouseUp` on a snap: the tile goes exactly onto its
      cell and locks. */
  function LockTile(tiles: seq<Tile>, id: int, x: real, y: real): (r: seq<Tile>)
    ensures |r| == |tiles|
    ensures forall i :: 0 <= i < |tiles| ==>
              r[i] == (if tiles[i].id == id then tiles[i].(x := x, y := y, locked := true) else tiles[i])
  {
    seq(|tiles|, i requires 0 <= i < |tiles| =>
          if tiles[i].id == id then tiles[i].(x := x, y := y, locked := true) else tiles[i])
  }

  /** `tiles.find(t => t.id === id)`, as an index. */
  function IndexOfId(tiles: seq<Tile>, id: int): (i: int)
    ensures -1 <= i < |tiles|
    ensures i == -1 <==> forall j :: 0 <= j < |tiles| ==> tiles[j].id != id
    ensures i >= 0 ==> tiles[i].id == id && forall j :: 0 <= j < i ==> tiles[j].id != id
  {
    if tiles == [] then -1
    else if tiles[0].id == id then 0
    else
      var rest := IndexOfId(tiles[1..], id);
      if rest == -1 then -1 else rest + 1
  }

  /** Every tile in its own cell and locked: what `debugCompletePuzzle`
      produces. */
  function Completed(tiles: seq<Tile>, l: Layout): (r: seq<Tile>)
    ensures |r| == |tiles|
    ensures forall i :: 0 <= i < |tiles| ==>
              r[i] == tiles[i].(x := TargetX(l, tiles[i]), y := TargetY(l, tiles[i]), locked := true)
  {
    seq(|tiles|, i requires 0 <= i < |tiles| =>
          tiles[i].(x := TargetX(l, tiles[i]), y := TargetY(l, tiles[i]), locked := true))
  }

  /** No tile carrying the dragged id is locked. */
  predicate DraggedUnlocked(tiles: seq<Tile>, dragging: Option<int>)
  {
    dragging.Some? ==> forall i :: 0 <= i < |tiles| && tiles[i].id == dragging.value ==> !tiles[i].locked
  }

  /** Picking up an unlocked tile and raising it keeps the ids distinct and
      the locked count, and leaves the dragged tile unlocked. */
  lemma PickUpKeepsInvariants(tiles: seq<Tile>, k: int)
    requires UniqueIds(tiles) && 0 <= k < |tiles| && !tiles[k].locked
    ensures UniqueIds(Raise(tiles, k))
    ensures LockedCount(Raise(tiles, k)) == LockedCount(tiles)
    ensures DraggedUnlocked(Raise(tiles, k), Some(tiles[k].id))
  {
    RaiseFacts(tiles, k);
  }

  // ---------------------------------------------------------------------
  // The level

  class Game {
    const layout: Layout
    /** `tilesRef.current`. */
    var tiles: seq<Tile>
    /** The id of the tile being dragged. */
    var dragging: Option<int>
    var dragOffsetX: real
    var dragOffsetY: real
    var correctCount: int
    var gameStarted: bool
    var levelCompleted: bool

    /** `correctCount` is the number of locked tiles. */
    predicate CountMatches()
      reads this
    {
      correctCount == LockedCount(tiles)
    }

    /** The dragged tile, if any, is unlocked. */
    predicate DragOnUnlocked()
      reads this
    {
      DraggedUnlocked(tiles, dragging)
    }

    constructor (screenWidth: real, screenHeight: real)
      ensures layout == LayoutFor(screenWidth, screenHeight)
      ensures tiles == [] && dragging == None && correctCount == 0
      ensures !gameStarted && !levelCompleted
      ensures CountMatches() && DragOnUnlocked()
    {
      layout := LayoutFor(screenWidth, screenHeight);
      tiles := [];
      dragging := None;
      dragOffsetX, dragOffsetY := 0.0, 0.0;
      correctCount := 0;
      gameStarted := false;
      levelCompleted := false;
    }

    /** `generatePlaceholderTiles`: 25 generated tiles, scattered, and the game
        starts. */
    method GeneratePlaceholderTiles(draws: seq<ScatterDraw>)
      requires |draws| == TileCount
      modifies this
      ensures |tiles| == TileCount && UniqueIds(tiles) && LockedCount(tiles) == 0
      ensures forall i :: 0 <= i < TileCount ==>
                tiles[i] == Scatter(Tile(i, i % GridSize, i / GridSize, 0.0, 0.0, false), draws[i], layout)
      ensures gameStarted
      ensures dragging == old(dragging) && correctCount == old(correctCount)
      ensures levelCompleted == old(levelCompleted)
    {
      var generated := GenerateTiles();
      GeneratedTilesFillGrid(generated);
      var scrambled := ScrambleTiles(generated, draws, layout);
      forall i, j | 0 <= i < j < |scrambled| ensures scrambled[i].id != scrambled[j].id {
        assert scrambled[i].id == generated[i].id && scrambled[j].id == generated[j].id;
      }
      assert forall i :: 0 <= i < |scrambled| ==> !scrambled[i].locked;
      NoneLockedCountsZero(scrambled);
      tiles := scrambled;
      gameStarted := true;
    }

    /** `handleMouseDown`: pick up the topmost unlocked tile under the mouse
        and raise it to the top of the pile. */
    method MouseDown(mouseX: real, mouseY: real)
      requires UniqueIds(tiles)
      modifies this
      ensures var k := Topmost(old(tiles), mouseX, mouseY, layout.tileSize);
              if !gameStarted || k == -1 then
                tiles == old(tiles) && dragging == old(dragging) &&
                dragOffsetX == old(dragOffsetX) && dragOffsetY == old(dragOffsetY)
              else
                tiles == Raise(old(tiles), k) && dragging == Some(old(tiles)[k].id) &&
                dragOffsetX == mouseX - old(tiles)[k].x && dragOffsetY == mouseY - old(tiles)[k].y
      ensures correctCount == old(correctCount) && levelCompleted == old(levelCompleted)
      ensures gameStarted == old(gameStarted)
      ensures UniqueIds(tiles) && LockedCount(tiles) == LockedCount(old(tiles))
      ensures old(CountMatches()) ==> CountMatches()
      ensures old(DragOnUnlocked()) ==> DragOnUnlocked()
    {
      if !gameStarted {
        return;
      }
      var k := TopmostAt(tiles, mouseX, mouseY, layout.tileSize);
      if k >= 0 {
        var t := tiles[k];
        PickUpKeepsInvariants(tiles, k);
        tiles := Raise(tiles, k);
        dragging := Some(t.id);
        dragOffsetX, dragOffsetY := mouseX - t.x, mouseY - t.y;
      }
    }

    /** `handleMouseMove`: the dragged tile follows the mouse; nothing else
        changes, and locked tiles stay where they are. */
    method MouseMove(mouseX: real, mouseY: real)
      modifies this
      ensures !gameStarted || dragging.None? ==> tiles == old(tiles)
      ensures gameStarted && dragging.Some? ==>
                tiles == MoveTile(old(tiles), dragging.value, mouseX - dragOffsetX, mouseY - dragOffsetY)
      ensures old(DragOnUnlocked()) ==>
                forall i :: 0 <= i < |tiles| && old(tiles)[i].locked ==> tiles[i] == old(tiles)[i]
      ensures dragging == old(dragging) && dragOffsetX == old(dragOffsetX) && dragOffsetY == old(dragOffsetY)
      ensures correctCount == old(correctCount) && gameStarted == old(gameStarted)
      ensures levelCompleted == old(levelCompleted)
      ensures LockedCount(tiles) == LockedCount(old(tiles))
      ensures old(UniqueIds(tiles)) ==> UniqueIds(tiles)
      ensures old(DragOnUnlocked()) ==> DragOnUnlocked()
    {
      if gameStarted && dragging.Some? {
        var moved := MoveTile(tiles, dragging.value, mouseX - dragOffsetX, mouseY - dragOffsetY);
        LockedCountMonotone(tiles, moved);
        LockedCountMonotone(moved, tiles);
        tiles := moved;
      }
    }

    /** `handleMouseUp`: a tile released within the snap distance of its
        cell is placed exactly on it and locked, and the locked tiles are
        counted again; in every case the drag ends. */
    method MouseUp()
      modifies this
      ensures !gameStarted || old(dragging).None? ==> unchanged(this)
      ensures gameStarted && old(dragging).Some? ==> dragging.None?
      ensures gameStarted && old(dragging).Some? && IndexOfId(old(tiles), old(dragging).value) == -1 ==>
                tiles == old(tiles) && correctCount == old(correctCount)
      ensures gameStarted && old(dragging).Some? && IndexOfId(old(tiles), old(dragging).value) >= 0 ==>
                var t := old(tiles)[IndexOfId(old(tiles), old(dragging).value)];
                var d2 := Dist2(t.x, t.y, TargetX(layout, t), TargetY(layout, t));
                (d2 < SnapThreshold(layout) * SnapThreshold(layout) ==>
                   tiles == LockTile(old(tiles), t.id, TargetX(layout, t), TargetY(layout, t)) &&
                   CountMatches()) &&
                (d2 >= SnapThreshold(layout) * SnapThreshold(layout) ==>
                   tiles == old(tiles) && correctCount == old(correctCount))
      ensures |tiles| == |old(tiles)|
      ensures forall i :: 0 <= i < |tiles| ==> tiles[i].id == old(tiles)[i].id
      ensures forall i :: 0 <= i < |tiles| && old(tiles)[i].locked ==> tiles[i].locked
      ensures old(DragOnUnlocked()) ==>
                forall i :: 0 <= i < |tiles| && old(tiles)[i].locked ==> tiles[i] == old(tiles)[i]
      ensures old(CountMatches()) ==> CountMatches() && correctCount >= old(correctCount)
      ensures gameStarted == old(gameStarted) && levelCompleted == old(levelCompleted)
      ensures dragOffsetX == old(dragOffsetX) && dragOffsetY == old(dragOffsetY)
      ensures old(UniqueIds(tiles)) ==> UniqueIds(tiles)
      ensures old(DragOnUnlocked()) ==> DragOnUnlocked()
    {
      if !gameStarted || dragging.None? {
        return;
      }
      var k := IndexOfId(tiles, dragging.value);
      if k == -1 {
        dragging := None;
        return;
      }
      var t := tiles[k];
      var tx, ty := TargetX(layout, t), TargetY(layout, t);
      var snap := SnapThreshold(layout);
      if Dist2(t.x, t.y, tx, ty) < snap * snap {
        var locked := LockTile(tiles, t.id, tx, ty);
        LockedCountMonotone(tiles, locked);
        tiles := locked;
        correctCount := LockedCount(locked);
      }
      dragging := None;
    }

    /** The win check: 25 locked tiles complete the level, once; the return
        value is the delayed `onComplete`. */
    method WinEffect() returns (completeScheduled: bool)
      modifies this
      ensures completeScheduled <==> old(correctCount) == TileCount && !old(levelCompleted)
      ensures levelCompleted <==> old(levelCompleted) || correctCount == TileCount
      ensures tiles == old(tiles) && dragging == old(dragging) && correctCount == old(correctCount)
      ensures gameStarted == old(gameStarted)
      ensures dragOffsetX == old(dragOffsetX) && dragOffsetY == old(dragOffsetY)
    {
      completeScheduled := false;
      if correctCount == TileCount && !levelCompleted {
        levelCompleted := true;
        completeScheduled := true;
      }
    }

    /** `debugCompletePuzzle`: every tile onto its cell, locked. */
    method DebugComplete()
      modifies this
      ensures tiles == Completed(old(tiles), layout) && correctCount == TileCount
      ensures |old(tiles)| == TileCount ==> CountMatches()
      ensures dragging == old(dragging) && gameStarted == old(gameStarted)
      ensures levelCompleted == old(levelCompleted)
    {
      var done := Completed(tiles, layout);
      LockedCountMonotone(tiles, done);
      tiles := done;
      correctCount := TileCount;
    }
  }

  /** Once the count matches, the win check fires exactly when every one of
      the 25 tiles is locked. */
  lemma WinMeansAllLocked(tiles: seq<Tile>)
    requires |tiles| == TileCount
    ensures LockedCount(tiles) == TileCount <==> forall i :: 0 <= i < |tiles| ==> tiles[i].locked
  {
    AllLockedIff(tiles);
  }

  lemma {:induction false} AllLockedIff(tiles: seq<Tile>)
    ensures LockedCount(tiles) == |tiles| <==> forall i :: 0 <= i < |tiles| ==> tiles[i].locked
  {
    if tiles != [] {
      AllLockedIff(tiles[1..]);
      assert (forall i :: 0 <= i < |tiles| ==> tiles[i].locked) <==>
             tiles[0].locked && forall i :: 0 <= i < |tiles[1..]| ==> tiles[1..][i].locked;
    }
  }
}
