/** The tile-grid frame simulation of src/lib.rs.

    A `State` holds a sequence of entities and a wall/floor grid. One frame
    (`GameLoop`) runs an input pass and then a movement pass over every
    entity, each pass building a fresh entity sequence, and then expands the
    grid and the entities into flat five-integer draw calls
    `[colour, x, y, width, height]`.

    Integer behaviour is that of a debug build: an overflowing `+` or `*` on
    `i32`/`u32` panics, so each one is a precondition here; `as u32` wraps
    (see `Ints.AsU32`). */
module Game {
  import opened Ints

  /** Side of one tile on screen, in display units. */
  const TILE_SIZE: u32 := 20
  const FLOOR_COLOR: u32 := 0x191919
  const WALL_COLOR: u32 := 0x033499
  /** Every entity is drawn in this colour. */
  const ENTITY_COLOR: u32 := 0x00ff00

  datatype Option<T> = None | Some(value: T)

  // ---------------------------------------------------------------------
  // Vector2
  // ---------------------------------------------------------------------

  datatype Vector2 = Vector2(x: i32, y: i32)

  const ZERO: Vector2 := Vector2(0, 0)

  /** `Vector2::new`. */
  function NewVector2(x: i32, y: i32): (v: Vector2)
    ensures v.x == x && v.y == y
  {
    Vector2(x, y)
  }

  /** Neither component sum overflows `i32`, so `a + b` does not panic. */
  predicate CanAdd(a: Vector2, b: Vector2) {
    AddFits(a.x, b.x) && AddFits(a.y, b.y)
  }

  /** `impl Add for Vector2`: the componentwise sum. */
  function Add(a: Vector2, b: Vector2): (r: Vector2)
    requires CanAdd(a, b)
    ensures r.x == a.x + b.x && r.y == a.y + b.y
  {
    Vector2(a.x + b.x, a.y + b.y)
  }

  /** `impl AddAssign for Vector2`: `*self` is overwritten with the sum;
      `updated` is the value it holds afterwards. */
  method AddAssign(self: Vector2, other: Vector2) returns (updated: Vector2)
    requires CanAdd(self, other)
    ensures updated == Add(self, other)
    ensures updated.x == self.x + other.x && updated.y == self.y + other.y
  {
    updated := Vector2(self.x + other.x, self.y + other.y);
  }

  /** Adding the zero vector changes nothing. */
  lemma AddZero(a: Vector2)
    ensures CanAdd(a, ZERO) && Add(a, ZERO) == a
  {
  }

  // ---------------------------------------------------------------------
  // Tile and Grid
  // ---------------------------------------------------------------------

  datatype Tile = Wall | Floor {
    /** `Tile::get_color`: each kind of tile has its own fixed colour. */
    function Color(): (c: u32)
      ensures c == FLOOR_COLOR <==> this == Floor
      ensures c == WALL_COLOR <==> this == Wall
    {
      match this
      case Floor => FLOOR_COLOR
      case Wall => WALL_COLOR
    }
  }

  /** The map: `tiles` is meant to hold `width * height` tiles, but nothing
      enforces it. The tile of position (x, y) is stored at `x * width + y`. */
  datatype Grid = Grid(tiles: seq<Tile>, width: u32, height: u32) {

    /** The offset `get_tile` computes: both coordinates are cast to `u32`
        (wrapping negative values) before the multiply and the add. */
    function FlatIndex(p: Vector2): nat {
      TileIndex(AsU32(p.x), AsU32(p.y))
    }

    /** Where the tile of (x, y) is stored. */
    function TileIndex(x: nat, y: nat): nat {
      x * width + y
    }

    /** Neither the `u32` multiply nor the add in `get_tile` overflows. */
    predicate CanLookUp(p: Vector2) {
      FlatIndex(p) <= U32_MAX
    }

    /** `Grid::get_tile`: only the flat offset is compared with the number
        of tiles; `p.x` and `p.y` are never compared with `width` and
        `height`. */
    function GetTile(p: Vector2): (r: Option<Tile>)
      requires CanLookUp(p)
      ensures r.Some? <==> FlatIndex(p) < |tiles|
      ensures r.Some? ==> r.value == tiles[FlatIndex(p)]
    {
      var index := FlatIndex(p);
      if index < |tiles| then Some(tiles[index]) else None
    }

    /** `Grid::draw` neither indexes past the tiles nor overflows `u32`: for
        every x < width and y < height, `x * width + y` is a valid `u32` index
        into `tiles`, and `x * TILE_SIZE`, `y * TILE_SIZE` fit in `u32`. The
        largest of each is reached at x = width - 1, y = height - 1. */
    predicate Drawable() {
      width == 0 || height == 0 ||
      ((width - 1) * width + (height - 1) < |tiles|
       && (width - 1) * width + (height - 1) <= U32_MAX
       && (width - 1) * TILE_SIZE <= U32_MAX
       && (height - 1) * TILE_SIZE <= U32_MAX)
    }

    /** The position of tile (x, y) among the draw calls: x outer, y inner. */
    function BlockIndex(x: nat, y: nat): nat {
      x * height + y
    }

    /** The draw call of the tile at (x, y). */
    function TileCall(x: nat, y: nat): seq<int>
      requires TileIndex(x, y) < |tiles|
    {
      [tiles[TileIndex(x, y)].Color(), x * TILE_SIZE, y * TILE_SIZE, TILE_SIZE, TILE_SIZE]
    }

    /** The draw calls of the tiles (x, 0), ..., (x, n - 1), in that order. */
    function ColumnCalls(x: nat, n: nat): seq<int>
      requires Drawable() && x < width && n <= height
      decreases n
    {
      if n == 0 then []
      else
        IndexInRange(this, x, n - 1);
        ColumnCalls(x, n - 1) + TileCall(x, n - 1)
    }

    /** The draw calls of columns 0, ..., n - 1: x outer, y inner. */
    function GridCalls(n: nat): seq<int>
      requires Drawable() && n <= width
      decreases n
    {
      if n == 0 then [] else GridCalls(n - 1) + ColumnCalls(n - 1, height)
    }

    /** `Grid::draw`, with its nested loops: x outer, y inner. */
    method Draw() returns (out: seq<int>)
      requires Drawable()
      ensures out == GridCalls(width)
      ensures |out| == 5 * width * height
    {
      out := [];
      var x: u32 := 0;
      while x < width
        invariant x <= width
        invariant out == GridCalls(x)
      {
        var y: u32 := 0;
        while y < height
          invariant y <= height
          invariant out == GridCalls(x) + ColumnCalls(x, y)
        {
          IndexInRange(this, x, y);
          var index: u32 := TileIndex(x, y);
          var screenX: u32 := x * TILE_SIZE;
          var screenY: u32 := y * TILE_SIZE;
          out := out + [tiles[index].Color(), screenX, screenY, TILE_SIZE, TILE_SIZE];
          y := y + 1;
        }
        x := x + 1;
      }
      GridCallsLength(this, width);
    }
  }

  /** `Grid::new` stores its arguments as they are, without checking that
      `tiles` has `width * height` elements. */
  function NewGrid(width: u32, height: u32, tiles: seq<Tile>): (g: Grid)
    ensures g.width == width && g.height == height && g.tiles == tiles
  {
    Grid(tiles, width, height)
  }

  lemma MulMonotone(a: nat, b: nat, c: nat)
    requires a <= b
    ensures a * c <= b * c
  {
  }

  /** Every offset `Grid::draw` reads lies in the tiles and fits in `u32`. */
  lemma IndexInRange(g: Grid, x: nat, y: nat)
    requires g.Drawable() && x < g.width && y < g.height
    ensures x * g.width + y <= (g.width - 1) * g.width + (g.height - 1)
    ensures g.TileIndex(x, y) < |g.tiles| && g.TileIndex(x, y) <= U32_MAX
    ensures x * TILE_SIZE <= U32_MAX && y * TILE_SIZE <= U32_MAX
  {
    MulMonotone(x, g.width - 1, g.width);
    MulMonotone(x, g.width - 1, TILE_SIZE);
    MulMonotone(y, g.height - 1, TILE_SIZE);
  }

  /** Each column holds five integers per tile. */
  lemma {:induction false} ColumnCallsLength(g: Grid, x: nat, n: nat)
    requires g.Drawable() && x < g.width && n <= g.height
    ensures |g.ColumnCalls(x, n)| == 5 * n
    decreases n
  {
    if n > 0 {
      ColumnCallsLength(g, x, n - 1);
    }
  }

  /** `Grid::draw` emits exactly five integers per tile of a width x height
      rectangle; a grid with no columns or no rows draws nothing. */
  lemma {:induction false} GridCallsLength(g: Grid, n: nat)
    requires g.Drawable() && n <= g.width
    ensures |g.GridCalls(n)| == 5 * n * g.height
    decreases n
  {
    if n > 0 {
      GridCallsLength(g, n - 1);
      ColumnCallsLength(g, n - 1, g.height);
      NextColumnLength(n, g.height);
    }
  }

  lemma NextColumnLength(n: nat, h: nat)
    requires n > 0
    ensures 5 * (n - 1) * h + 5 * h == 5 * n * h
  {
  }

  /** Within column x, the call of tile (x, y) is block y. */
  lemma {:induction false} ColumnCallsAt(g: Grid, x: nat, n: nat, y: nat)
    requires g.Drawable() && x < g.width && n <= g.height && y < n
    ensures g.TileIndex(x, y) < |g.tiles|
    ensures 5 * y + 5 <= |g.ColumnCalls(x, n)|
    ensures g.ColumnCalls(x, n)[5 * y .. 5 * y + 5] == g.TileCall(x, y)
    decreases n
  {
    IndexInRange(g, x, y);
    IndexInRange(g, x, n - 1);
    ColumnCallsLength(g, x, n - 1);
    var front, call := g.ColumnCalls(x, n - 1), g.TileCall(x, n - 1);
    assert g.ColumnCalls(x, n) == front + call;
    if y < n - 1 {
      ColumnCallsAt(g, x, n - 1, y);
      SliceOfPrefix(front, call, 5 * y, 5 * y + 5);
    } else {
      SliceOfSuffix(front, call, 5 * y, 5 * y + 5);
    }
  }

  /** In the output of `Grid::draw`, block `x * height + y` is the draw call
      of tile (x, y): its colour is that of `tiles[x * width + y]` and it sits
      at screen position (x * TILE_SIZE, y * TILE_SIZE). */
  lemma {:induction false} GridCallsAt(g: Grid, n: nat, x: nat, y: nat)
    requires g.Drawable() && n <= g.width && x < n && y < g.height
    ensures g.TileIndex(x, y) < |g.tiles|
    ensures 5 * g.BlockIndex(x, y) + 5 <= |g.GridCalls(n)|
    ensures g.GridCalls(n)[5 * g.BlockIndex(x, y) .. 5 * g.BlockIndex(x, y) + 5]
         == [g.tiles[g.TileIndex(x, y)].Color(), x * TILE_SIZE, y * TILE_SIZE, TILE_SIZE, TILE_SIZE]
    decreases n
  {
    IndexInRange(g, x, y);
    GridCallsLength(g, n - 1);
    ColumnCallsLength(g, n - 1, g.height);
    var h := g.height;
    var front, column := g.GridCalls(n - 1), g.ColumnCalls(n - 1, h);
    var lo := 5 * (x * h + y);
    assert g.GridCalls(n) == front + column;
    BlockOffset(n, h, x, y);
    if x < n - 1 {
      GridCallsAt(g, n - 1, x, y);
      SliceOfPrefix(front, column, lo, lo + 5);
    } else {
      ColumnCallsAt(g, x, h, y);
      SliceOfSuffix(front, column, lo, lo + 5);
    }
  }

  /** Where block (x, y) of `Grid::draw` falls relative to the columns
      before column n - 1. */
  lemma BlockOffset(n: nat, h: nat, x: nat, y: nat)
    requires x < n && y < h
    ensures 0 <= x * h
    ensures x < n - 1 ==> 5 * (x * h + y) + 5 <= 5 * (n - 1) * h
    ensures x == n - 1 ==> 5 * (x * h + y) == 5 * (n - 1) * h + 5 * y
  {
    if x < n - 1 {
      MulMonotone(x + 1, n - 1, h);
    }
  }

  lemma SliceOfPrefix<T>(a: seq<T>, b: seq<T>, lo: nat, hi: nat)
    requires lo <= hi <= |a|
    ensures (a + b)[lo .. hi] == a[lo .. hi]
  {
  }

  lemma SliceOfSuffix<T>(a: seq<T>, b: seq<T>, lo: nat, hi: nat)
    requires |a| <= lo <= hi <= |a| + |b|
    ensures (a + b)[lo .. hi] == b[lo - |a| .. hi - |a|]
  {
  }

  /** On a square grid holding `width * height` tiles, every position inside
      the grid finds its tile at `x * width + y`. */
  lemma SquareGridLookup(g: Grid, p: Vector2)
    requires g.width == g.height && |g.tiles| == g.width * g.height
    requires |g.tiles| <= TWO_TO_32
    requires 0 <= p.x < g.width && 0 <= p.y < g.height
    ensures g.CanLookUp(p) && g.TileIndex(p.x, p.y) < |g.tiles|
    ensures g.GetTile(p) == Some(g.tiles[g.TileIndex(p.x, p.y)])
  {
    var w: nat, x: nat, y: nat := g.width, p.x, p.y;
    assert g.FlatIndex(p) == g.TileIndex(x, y) == x * w + y;
    BelowSquare(w, x, y);
  }

  lemma BelowSquare(w: nat, x: nat, y: nat)
    requires x < w && y < w
    ensures x * w + y < w * w
  {
    MulMonotone(x, w - 1, w);
  }

  /** A negative coordinate that does not make `get_tile` overflow gives an
      offset above `i32::MAX`, which misses every map with fewer tiles. A
      negative `x` on a grid of width 0 is the exception: it is multiplied
      away (see `ZeroWidthNegativeLookup`). */
  lemma NegativeLookupMisses(g: Grid, p: Vector2)
    requires g.CanLookUp(p)
    requires (p.x < 0 && g.width > 0) || p.y < 0
    requires |g.tiles| <= I32_MAX + 1
    ensures g.FlatIndex(p) > I32_MAX
    ensures g.GetTile(p) == None
  {
    OffsetAboveI32(AsU32(p.x), g.width, AsU32(p.y));
  }

  lemma OffsetAboveI32(x: nat, w: nat, y: nat)
    requires (x > I32_MAX && w > 0) || y > I32_MAX
    ensures x * w + y > I32_MAX
  {
    if x > I32_MAX && w > 0 {
      MulMonotone(1, w, x);
    }
  }

  /** On a grid of width 0, which `Grid::new` accepts, (-1, 1) reads
      `tiles[1]`: a negative coordinate reaches a tile. */
  lemma ZeroWidthNegativeLookup()
    ensures NewGrid(0, 0, [Floor, Wall]).CanLookUp(Vector2(-1, 1))
    ensures NewGrid(0, 0, [Floor, Wall]).GetTile(Vector2(-1, 1)) == Some(Wall)
  {
  }

  /** The unit test `basic_grid`: a 0 x 0 grid draws nothing. */
  lemma EmptyGridDrawsNothing()
    ensures NewGrid(0, 0, []).Drawable()
    ensures NewGrid(0, 0, []).GridCalls(0) == []
  {
  }

  /** The unit test `one_by_one_grid`, with the tile size the code uses
      (20, where the test still expects 10). */
  lemma OneByOneGridDraw()
    ensures NewGrid(1, 1, [Wall]).Drawable()
    ensures NewGrid(1, 1, [Wall]).GridCalls(1) == [WALL_COLOR, 0, 0, TILE_SIZE, TILE_SIZE]
  {
    var g := NewGrid(1, 1, [Wall]);
    assert g.ColumnCalls(0, 1) == g.TileCall(0, 0);
  }

  // ---------------------------------------------------------------------
  // Entities and the two components
  // ---------------------------------------------------------------------

  /** An actor on the grid: where it is and the move it has been asked to
      make this frame. */
  datatype Entity = Entity(position: Vector2, deltaPosition: Vector2)

  /** `Entity::new`: an entity at `pos` with no pending move. */
  function NewEntity(pos: Vector2): (e: Entity)
    ensures e.position == pos && e.deltaPosition == ZERO
  {
    Entity(pos, ZERO)
  }

  /** `InputComponent::apply`: the frame's input becomes the pending move;
      the position and the grid are untouched. */
  function InputApply(entity: Entity, world: Grid, input: Vector2): (r: (Entity, Grid))
    ensures r.0.deltaPosition == input
    ensures r.0.position == entity.position
    ensures r.1 == world
  {
    (entity.(deltaPosition := input), world)
  }

  /** Computing `position + delta_position` and looking it up in the grid
      neither overflows nor panics. */
  predicate CanMove(entity: Entity, world: Grid) {
    CanAdd(entity.position, entity.deltaPosition)
    && world.CanLookUp(Add(entity.position, entity.deltaPosition))
  }

  /** The tile the entity stands on exists and is floor. */
  predicate OnFloor(entity: Entity, world: Grid) {
    world.CanLookUp(entity.position) && world.GetTile(entity.position) == Some(Floor)
  }

  /** `GridComponent::apply`: the move is committed only when the target tile
      exists and is not a wall; the pending move is always consumed and the
      grid is returned unchanged. The source's `position += delta_position`
      is written as `Add`, which `AddAssign` is proved to agree with. */
  function GridApply(entity: Entity, world: Grid): (r: (Entity, Grid))
    requires CanMove(entity, world)
    ensures r.1 == world
    ensures r.0.deltaPosition == ZERO
    ensures world.GetTile(Add(entity.position, entity.deltaPosition)) == Some(Floor)
            ==> r.0.position == Add(entity.position, entity.deltaPosition)
    ensures world.GetTile(Add(entity.position, entity.deltaPosition)) != Some(Floor)
            ==> r.0.position == entity.position
  {
    match world.GetTile(Add(entity.position, entity.deltaPosition))
    case Some(tile) =>
      var moved := if tile != Wall then entity.(position := Add(entity.position, entity.deltaPosition))
                   else entity;
      (moved.(deltaPosition := ZERO), world)
    case None =>
      (entity.(deltaPosition := ZERO), world)
  }

  /** Walls and missing tiles block: the entity ends where it started, or on
      a tile that is floor. */
  lemma GridApplyLandsOnFloor(entity: Entity, world: Grid)
    requires CanMove(entity, world)
    ensures GridApply(entity, world).0.position == entity.position
            || OnFloor(GridApply(entity, world).0, world)
  {
  }

  // ---------------------------------------------------------------------
  // The two passes of State::process, as functions
  // ---------------------------------------------------------------------

  /** The input pass over `es`, front to back, threading the grid each
      application returns into the next. */
  function InputPass(es: seq<Entity>, world: Grid, input: Vector2): (r: (seq<Entity>, Grid))
    ensures |r.0| == |es|
    ensures r.1 == world
    ensures forall i :: 0 <= i < |es| ==> r.0[i] == InputApply(es[i], world, input).0
    decreases |es|
  {
    if es == [] then ([], world)
    else
      var (done, w) := InputPass(es[..|es| - 1], world, input);
      var (e, w') := InputApply(es[|es| - 1], w, input);
      (done + [e], w')
  }

  predicate AllCanMove(es: seq<Entity>, world: Grid) {
    forall i :: 0 <= i < |es| ==> CanMove(es[i], world)
  }

  /** The movement pass over `es`, front to back, threading the grid. */
  function GridPass(es: seq<Entity>, world: Grid): (r: (seq<Entity>, Grid))
    requires AllCanMove(es, world)
    ensures |r.0| == |es|
    ensures r.1 == world
    ensures forall i :: 0 <= i < |es| ==> r.0[i] == GridApply(es[i], world).0
    decreases |es|
  {
    if es == [] then ([], world)
    else
      var (done, w) := GridPass(es[..|es| - 1], world);
      var (e, w') := GridApply(es[|es| - 1], w);
      (done + [e], w')
  }

  /** Every entity can take the frame's input as its move without a panic. */
  predicate CanProcess(es: seq<Entity>, world: Grid, input: Vector2) {
    forall i :: 0 <= i < |es| ==>
      CanAdd(es[i].position, input) && world.CanLookUp(Add(es[i].position, input))
  }

  /** The entities and grid after `State::process(input)`: the input pass,
      then the movement pass. */
  function Processed(es: seq<Entity>, world: Grid, input: Vector2): (r: (seq<Entity>, Grid))
    requires CanProcess(es, world, input)
    ensures |r.0| == |es|
    ensures r.1 == world
    ensures forall i :: 0 <= i < |es| ==>
      r.0[i] == GridApply(InputApply(es[i], world, input).0, world).0
  {
    var (afterInput, w) := InputPass(es, world, input);
    GridPass(afterInput, w)
  }

  /** The outcome for each entity: it keeps its place in the sequence, its
      pending move is consumed, and it moves by `input` exactly when the
      target tile exists and is floor. */
  lemma ProcessedEntity(es: seq<Entity>, world: Grid, input: Vector2, i: nat)
    requires CanProcess(es, world, input) && i < |es|
    ensures Processed(es, world, input).0[i].deltaPosition == ZERO
    ensures world.GetTile(Add(es[i].position, input)) == Some(Floor)
            ==> Processed(es, world, input).0[i].position == Add(es[i].position, input)
    ensures world.GetTile(Add(es[i].position, input)) != Some(Floor)
            ==> Processed(es, world, input).0[i].position == es[i].position
  {
    var e := InputApply(es[i], world, input).0;
    assert Processed(es, world, input).0[i] == GridApply(e, world).0;
  }

  /** Standing on floor is an invariant of a frame: an entity that starts
      on a floor tile ends on a floor tile. */
  lemma ProcessKeepsOnFloor(es: seq<Entity>, world: Grid, input: Vector2)
    requires CanProcess(es, world, input)
    ensures forall i :: 0 <= i < |es| && OnFloor(es[i], world)
              ==> OnFloor(Processed(es, world, input).0[i], world)
  {
    forall i | 0 <= i < |es| && OnFloor(es[i], world)
      ensures OnFloor(Processed(es, world, input).0[i], world)
    {
      ProcessedEntity(es, world, input, i);
    }
  }

  /** A frame with zero input moves nobody; it only clears pending moves. */
  lemma ZeroInputKeepsPositions(es: seq<Entity>, world: Grid)
    requires CanProcess(es, world, ZERO)
    ensures forall i :: 0 <= i < |es| ==>
      Processed(es, world, ZERO).0[i] == es[i].(deltaPosition := ZERO)
  {
    forall i | 0 <= i < |es|
      ensures Processed(es, world, ZERO).0[i] == es[i].(deltaPosition := ZERO)
    {
      ProcessedEntity(es, world, ZERO, i);
      AddZero(es[i].position);
    }
  }

  // ---------------------------------------------------------------------
  // Drawing entities
  // ---------------------------------------------------------------------

  /** `State::draw` casts each coordinate to `u32` and multiplies by
      TILE_SIZE; neither product overflows. */
  predicate EntityDrawable(e: Entity) {
    AsU32(e.position.x) * TILE_SIZE <= U32_MAX && AsU32(e.position.y) * TILE_SIZE <= U32_MAX
  }

  predicate AllDrawable(es: seq<Entity>) {
    forall i :: 0 <= i < |es| ==> EntityDrawable(es[i])
  }

  /** Only entities at non-negative coordinates can be drawn: a negative
      coordinate becomes at least 2^31 as `u32`, and times TILE_SIZE that
      overflows. */
  lemma EntityDrawableIffOnScreen(e: Entity)
    ensures EntityDrawable(e) <==>
      0 <= e.position.x && e.position.x * TILE_SIZE <= U32_MAX
      && 0 <= e.position.y && e.position.y * TILE_SIZE <= U32_MAX
  {
  }

  /** The draw call of one entity. */
  function EntityCall(e: Entity): seq<int>
    requires EntityDrawable(e)
  {
    [ENTITY_COLOR, AsU32(e.position.x) * TILE_SIZE, AsU32(e.position.y) * TILE_SIZE, TILE_SIZE, TILE_SIZE]
  }

  /** The draw calls of `es`, in order. */
  function EntityCalls(es: seq<Entity>): seq<int>
    requires AllDrawable(es)
    decreases |es|
  {
    if es == [] then [] else EntityCalls(es[..|es| - 1]) + EntityCall(es[|es| - 1])
  }

  /** Five integers per entity, and block i is the call of entity i. */
  lemma {:induction false} EntityCallsLayout(es: seq<Entity>, i: nat)
    requires AllDrawable(es) && i < |es|
    ensures |EntityCalls(es)| == 5 * |es|
    ensures EntityCalls(es)[5 * i .. 5 * i + 5] == EntityCall(es[i])
    decreases |es|
  {
    var front := es[..|es| - 1];
    if i < |es| - 1 {
      EntityCallsLayout(front, i);
      SliceOfPrefix(EntityCalls(front), EntityCall(es[|es| - 1]), 5 * i, 5 * i + 5);
    } else {
      if front != [] {
        EntityCallsLayout(front, 0);
      }
      SliceOfSuffix(EntityCalls(front), EntityCall(es[|es| - 1]), 5 * i, 5 * i + 5);
    }
  }

  /** Everything `State::draw` emits: the grid's calls, then one per entity. */
  function StateCalls(es: seq<Entity>, world: Grid): seq<int>
    requires world.Drawable() && AllDrawable(es)
  {
    world.GridCalls(world.width) + EntityCalls(es)
  }

  /** `State::draw` emits `5 * width * height + 5 * |entities|` integers: the
      grid first, then entity i as block `width * height + i`, in green at
      (x * TILE_SIZE, y * TILE_SIZE). */
  lemma StateCallsLayout(es: seq<Entity>, world: Grid, i: nat)
    requires world.Drawable() && AllDrawable(es) && i < |es|
    ensures |StateCalls(es, world)| == 5 * world.width * world.height + 5 * |es|
    ensures var at := 5 * world.width * world.height + 5 * i;
      StateCalls(es, world)[at .. at + 5]
      == [ENTITY_COLOR, es[i].position.x * TILE_SIZE, es[i].position.y * TILE_SIZE, TILE_SIZE, TILE_SIZE]
  {
    GridCallsLength(world, world.width);
    EntityCallsLayout(es, i);
    var at := 5 * world.width * world.height + 5 * i;
    SliceOfSuffix(world.GridCalls(world.width), EntityCalls(es), at, at + 5);
  }

  // ---------------------------------------------------------------------
  // State, the frame entry point and the initial world
  // ---------------------------------------------------------------------

  class State {
    var entities: seq<Entity>
    var grid: Grid

    constructor (entities: seq<Entity>, grid: Grid)
      ensures this.entities == entities && this.grid == grid
    {
      this.entities := entities;
      this.grid := grid;
    }

    /** `State::process`: an input pass over all entities, then a movement
        pass, each collecting its results into a fresh sequence and storing
        the grid each application hands back. */
    method Process(input: Vector2)
      requires CanProcess(entities, grid, input)
      modifies this
      ensures (entities, grid) == Processed(old(entities), old(grid), input)
    {
      var entitiesV: seq<Entity> := [];
      var i := 0;
      while i < |entities|
        invariant i <= |entities| && entities == old(entities)
        invariant (entitiesV, grid) == InputPass(entities[..i], old(grid), input)
      {
        var test := InputApply(entities[i], grid, input);
        assert entities[..i + 1][..i] == entities[..i];
        entitiesV := entitiesV + [test.0];
        grid := test.1;
        i := i + 1;
      }
      assert entities[..i] == entities;
      entities := entitiesV;
      ghost var afterInput := entities;
      entitiesV := [];
      i := 0;
      while i < |entities|
        invariant i <= |entities| && entities == afterInput && grid == old(grid)
        invariant (entitiesV, grid) == GridPass(entities[..i], old(grid))
      {
        assert entities[..i + 1][..i] == entities[..i];
        var test := GridApply(entities[i], grid);
        entitiesV := entitiesV + [test.0];
        grid := test.1;
        i := i + 1;
      }
      assert entities[..i] == entities;
      entities := entitiesV;
    }

    /** `State::get_tile`: the grid's lookup. */
    function GetTile(p: Vector2): (r: Option<Tile>)
      reads this
      requires grid.CanLookUp(p)
      ensures r.Some? <==> grid.FlatIndex(p) < |grid.tiles|
      ensures r.Some? ==> r.value == grid.tiles[grid.FlatIndex(p)]
    {
      grid.GetTile(p)
    }

    /** `State::get_entities`. */
    function GetEntities(): (es: seq<Entity>)
      reads this
      ensures es == entities
    {
      entities
    }

    /** `State::draw`: the grid's draw calls, then one green tile-sized
        rectangle per entity, in order. */
    method Draw() returns (draws: seq<int>)
      requires grid.Drawable() && AllDrawable(entities)
      ensures draws == StateCalls(entities, grid)
      ensures |draws| == 5 * grid.width * grid.height + 5 * |entities|
    {
      draws := grid.Draw();
      var i := 0;
      while i < |entities|
        invariant i <= |entities|
        invariant draws == grid.GridCalls(grid.width) + EntityCalls(entities[..i])
      {
        var ent := entities[i];
        assert entities[..i + 1][..i] == entities[..i];
        var screenX: u32 := AsU32(ent.position.x) * TILE_SIZE;
        var screenY: u32 := AsU32(ent.position.y) * TILE_SIZE;
        draws := draws + [ENTITY_COLOR, screenX, screenY, TILE_SIZE, TILE_SIZE];
        i := i + 1;
      }
      assert entities[..i] == entities;
      if entities != [] {
        StateCallsLayout(entities, grid, 0);
      }
    }
  }

  /** What one frame hands back to the host. */
  datatype MainOutput = MainOutput(state: State, drawCalls: seq<int>)

  /** `game_loop`: process the frame's input in place, then draw the
      resulting state. The state is moved in and handed back. */
  method GameLoop(input: Vector2, state: State) returns (output: MainOutput)
    requires CanProcess(state.entities, state.grid, input)
    requires state.grid.Drawable()
    requires AllDrawable(Processed(state.entities, state.grid, input).0)
    modifies state
    ensures output.state == state
    ensures (state.entities, state.grid) == Processed(old(state.entities), old(state.grid), input)
    ensures output.drawCalls == StateCalls(state.entities, state.grid)
    ensures |output.drawCalls| == 5 * state.grid.width * state.grid.height + 5 * |state.entities|
  {
    state.Process(input);
    var drawCalls := state.Draw();
    output := MainOutput(state, drawCalls);
  }

  /** The literal 5 x 5 map of `init_state`, stored as written. */
  function InitialGrid(): (g: Grid)
    ensures g.width == 5 && g.height == 5 && |g.tiles| == 25
  {
    NewGrid(5, 5, [
      Wall, Wall, Wall, Wall, Wall,
      Wall, Floor, Floor, Floor, Wall,
      Wall, Floor, Floor, Floor, Wall,
      Wall, Floor, Floor, Floor, Wall,
      Wall, Wall, Wall, Wall, Wall])
  }

  /** The single entity of `init_state`. */
  function InitialEntities(): (es: seq<Entity>)
    ensures |es| == 1 && es[0].position == Vector2(1, 1) && es[0].deltaPosition == ZERO
  {
    [NewEntity(NewVector2(1, 1))]
  }

  /** `init_state`. */
  method InitState() returns (s: State)
    ensures fresh(s)
    ensures s.entities == InitialEntities() && s.grid == InitialGrid()
  {
    s := new State(InitialEntities(), InitialGrid());
  }

  /** The map of `init_state`: walls on the border, floor in the 3 x 3
      interior. */
  lemma InitialGridLayout(p: Vector2)
    requires 0 <= p.x < 5 && 0 <= p.y < 5
    ensures InitialGrid().CanLookUp(p)
    ensures InitialGrid().GetTile(p)
            == Some(if p.x == 0 || p.x == 4 || p.y == 0 || p.y == 4 then Wall else Floor)
  {
    var g := InitialGrid();
    SquareGridLookup(g, p);
    // The branches are empty on purpose: splitting on the row lets the
    // solver evaluate the literal tile sequence at one fixed offset row by row.
    if p.x == 0 {
    } else if p.x == 1 {
    } else if p.x == 2 {
    } else if p.x == 3 {
    } else {
    }
  }

  /** The unit test `run_frame`: a zero-input frame on the initial state
      can be processed and drawn without panicking, and leaves the player
      where it was, standing on floor. */
  lemma RunFrame()
    ensures OnFloor(InitialEntities()[0], InitialGrid())
    ensures CanProcess(InitialEntities(), InitialGrid(), ZERO)
    ensures Processed(InitialEntities(), InitialGrid(), ZERO).0 == InitialEntities()
    ensures InitialGrid().Drawable()
    ensures AllDrawable(Processed(InitialEntities(), InitialGrid(), ZERO).0)
  {
    assert InitialGrid().FlatIndex(Vector2(1, 1)) == 6;
    InitialGridLayout(Vector2(1, 1));
    ZeroInputKeepsPositions(InitialEntities(), InitialGrid());
  }

  /** The draw-call count of a 5 x 5 map with one entity. */
  lemma InitialFrameLength(world: Grid, es: seq<Entity>)
    requires world.width == 5 && world.height == 5 && |es| == 1
    ensures 5 * world.width * world.height + 5 * |es| == 130
  {
  }

  /** The test `run_frame` as a client of `InitState` and `GameLoop`: one
      zero-input frame runs to completion, draws the 25 tiles and the single
      entity, and leaves the player at (1, 1). */
  method RunFrameTest() returns (drawCalls: seq<int>, position: Vector2)
    ensures |drawCalls| == 130
    ensures position == Vector2(1, 1)
  {
    var s := InitState();
    RunFrame();
    var output := GameLoop(ZERO, s);
    var es := s.GetEntities();
    assert es == InitialEntities();
    InitialFrameLength(s.grid, es);
    drawCalls := output.drawCalls;
    position := es[0].position;
  }

  /** The unit test `run_frame_input`: input (1, 0) moves the player from
      (1, 1) onto the floor tile (2, 1), and the frame can be drawn. */
  lemma RunFrameInput()
    ensures CanProcess(InitialEntities(), InitialGrid(), Vector2(1, 0))
    ensures InitialGrid().GetTile(Vector2(2, 1)) == Some(Floor)
    ensures Processed(InitialEntities(), InitialGrid(), Vector2(1, 0)).0[0].position == Vector2(2, 1)
    ensures InitialGrid().Drawable()
    ensures AllDrawable(Processed(InitialEntities(), InitialGrid(), Vector2(1, 0)).0)
  {
    InitialGridLayout(Vector2(2, 1));
    ProcessedEntity(InitialEntities(), InitialGrid(), Vector2(1, 0), 0);
  }

  /** Because `get_tile` checks only the flat offset, position (0, 6), which
      lies below the bottom edge of the 5 x 5 map, reads as tile 6, a floor
      tile; so input (-1, 5) moves the player from (1, 1) out of the map
      through the wall. */
  lemma UncheckedLookupLeavesMap()
    ensures 6 >= InitialGrid().height
    ensures InitialGrid().CanLookUp(Vector2(0, 6))
    ensures InitialGrid().GetTile(Vector2(0, 6)) == Some(Floor)
    ensures CanProcess(InitialEntities(), InitialGrid(), Vector2(-1, 5))
    ensures Processed(InitialEntities(), InitialGrid(), Vector2(-1, 5)).0[0].position == Vector2(0, 6)
  {
    var g := InitialGrid();
    assert g.FlatIndex(Vector2(0, 6)) == 6;
    ProcessedEntity(InitialEntities(), g, Vector2(-1, 5), 0);
  }

  /** The test `run_frame_input` as a client of `InitState` and `GameLoop`:
      after one frame with input (1, 0), the state reports floor at (2, 1)
      and its first entity stands there. */
  method RunFrameInputTest() returns (tile: Option<Tile>, position: Vector2)
    ensures tile == Some(Floor) && position == Vector2(2, 1)
  {
    var s := InitState();
    RunFrameInput();
    var output := GameLoop(Vector2(1, 0), s);
    s := output.state;
    assert s.grid == InitialGrid();
    tile := s.GetTile(Vector2(2, 1));
    var es := s.GetEntities();
    assert es == Processed(InitialEntities(), InitialGrid(), Vector2(1, 0)).0;
    position := es[0].position;
  }
}
