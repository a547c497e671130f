/**
  The one-shot sprite-sheet effect of spells.js (`createSpriteEffect`): a
  plane textured with one cell of a `columns` x `rows` atlas, which after
  `start()` steps through `totalFrames` frames, one every 50 ms, and then
  hides itself.

  `Date.now()` is an explicit `now` argument, and the asynchronous texture
  load is the `loaded` flag, set by `OnTextureLoaded`. The texture offset
  that `update` writes is kept as the atlas `Cell` it selects; `TextureOffset`
  and `TextureRepeat` give the corresponding offset and repeat over `real`.
 */
module SpriteEffects {
  import opened Wrappers
  import Arithmetic

  /** Milliseconds that must pass between two frames. */
  const FrameChangeInterval := 50

  /** Inward margin that keeps texture filtering from sampling a neighbouring cell. */
  const Epsilon: real := 0.0005

  /** A cell of the atlas; row 0 is the top row of the image. */
  datatype Cell = Cell(col: int, row: int)

  /** The atlas layout given in the effect's options. */
  datatype Sheet = Sheet(columns: int, rows: int, totalFrames: int)

  ghost predicate ValidSheet(sheet: Sheet) {
    sheet.columns >= 1 && sheet.rows >= 1
  }

  /** The cell that shows linear frame `frame`: left to right, then top to bottom. */
  function FrameCell(sheet: Sheet, frame: nat): (c: Cell)
    requires ValidSheet(sheet)
    ensures 0 <= c.col < sheet.columns && 0 <= c.row < sheet.rows
  {
    Cell(frame % sheet.columns, (frame / sheet.columns) % sheet.rows)
  }

  /** The linear index of a cell, the inverse of `FrameCell` on one pass over the atlas. */
  function CellIndex(sheet: Sheet, c: Cell): (index: int) {
    c.row * sheet.columns + c.col
  }

  /** Frames within one pass over the atlas land on distinct cells: each cell decodes back to its frame. */
  lemma FrameCellRoundTrip(sheet: Sheet, frame: nat)
    requires ValidSheet(sheet) && frame < sheet.columns * sheet.rows
    ensures CellIndex(sheet, FrameCell(sheet, frame)) == frame
  {
    var c, r := sheet.columns, sheet.rows;
    var q := frame / c;
    assert q * c + frame % c == frame;
    assert (r - q) * c == r * c - q * c;
    Arithmetic.MulSign(r - q, c);
    assert q < r;
    Arithmetic.ModUnique(q, 0, q, r);
  }

  /** Texture offset written for a cell: its lower-left corner, moved inward by `Epsilon`. */
  function TextureOffset(sheet: Sheet, c: Cell): (offset: (real, real))
    requires ValidSheet(sheet)
  {
    (c.col as real * (1.0 / sheet.columns as real) + Epsilon,
     1.0 - (c.row as real + 1.0) * (1.0 / sheet.rows as real) + Epsilon)
  }

  /** Texture repeat written with each frame: one cell, shrunk by `Epsilon` on each side. */
  function TextureRepeat(sheet: Sheet): (repeat: (real, real))
    requires ValidSheet(sheet)
  {
    (1.0 / sheet.columns as real - 2.0 * Epsilon, 1.0 / sheet.rows as real - 2.0 * Epsilon)
  }

  /**
    For atlases of fewer than 1000 columns and rows, the sampled rectangle lies
    strictly inside the cell's own rectangle (row 0 at the top, so its v-range is
    [1 - (row+1)/rows, 1 - row/rows]), and so strictly inside the texture.
   */
  lemma SampledRectangleInsideCell(sheet: Sheet, c: Cell)
    requires ValidSheet(sheet) && sheet.columns < 1000 && sheet.rows < 1000
    requires 0 <= c.col < sheet.columns && 0 <= c.row < sheet.rows
    ensures var (u, v) := TextureOffset(sheet, c);
            var (du, dv) := TextureRepeat(sheet);
            && 0.0 < du && 0.0 < dv
            && c.col as real / sheet.columns as real < u
            && u + du < (c.col + 1) as real / sheet.columns as real
            && 1.0 - (c.row + 1) as real / sheet.rows as real < v
            && v + dv < 1.0 - c.row as real / sheet.rows as real
            && 0.0 < u && u + du < 1.0 && 0.0 < v && v + dv < 1.0
  {
    var w := 1.0 / sheet.columns as real;
    var h := 1.0 / sheet.rows as real;
    InverseAboveMargin(sheet.columns);
    InverseAboveMargin(sheet.rows);
    assert c.col as real / sheet.columns as real == c.col as real * w;
    assert (c.col + 1) as real / sheet.columns as real == c.col as real * w + w;
    assert (c.row + 1) as real / sheet.rows as real == c.row as real * h + h;
    assert c.row as real / sheet.rows as real == c.row as real * h;
    assert (c.col + 1) as real * w <= sheet.columns as real * w;
    assert (c.row + 1) as real * h <= sheet.rows as real * h;
  }

  /** One cell is wider than the two margins. */
  lemma InverseAboveMargin(n: int)
    requires 1 <= n < 1000
    ensures 1.0 / n as real > 2.0 * Epsilon
    ensures n as real * (1.0 / n as real) == 1.0
  {
    assert n as real * 0.001 < 1.0;
  }

  /** The effect's state: the closure variables, `plane.visible`, and the cell last written to the texture offset. */
  datatype SpriteState = SpriteState(
    loaded: bool,          // the plane (and texture) exist
    visible: bool,         // plane.visible
    currentFrame: nat,
    lastFrameTime: int,
    shown: Option<Cell>    // None until the first frame is written
  )

  /** What every reachable state satisfies. */
  ghost predicate Inv(sheet: Sheet, s: SpriteState) {
    && (!s.loaded ==> !s.visible)
    && (s.currentFrame == 0 || s.currentFrame < sheet.totalFrames)
  }

  /** The state right after `createSpriteEffect` returns. */
  function InitialState(): (s: SpriteState)
    ensures !s.loaded && !s.visible && s.currentFrame == 0 && s.shown == None
  {
    SpriteState(false, false, 0, 0, None)
  }

  /** The texture-load callback: the plane now exists, and starts hidden. */
  function LoadedState(s: SpriteState): (r: SpriteState)
    ensures r.loaded && !r.visible
    ensures r.currentFrame == s.currentFrame && r.lastFrameTime == s.lastFrameTime && r.shown == s.shown
  {
    s.(loaded := true, visible := false)
  }

  /** `start()`: restart from frame 0 and show the plane, but only once it exists. */
  function StartState(s: SpriteState, now: int): (r: SpriteState)
    ensures !s.loaded ==> r == s
    ensures s.loaded ==> r.visible && r.currentFrame == 0 && r.lastFrameTime == now
    ensures r.loaded == s.loaded && r.shown == s.shown
  {
    if s.loaded then s.(visible := true, currentFrame := 0, lastFrameTime := now) else s
  }

  /** Whether `update()` at time `now` moves on to the next frame. */
  predicate Advances(s: SpriteState, now: int) {
    s.loaded && s.visible && now - s.lastFrameTime >= FrameChangeInterval
  }

  /** The outcome of one `update()`; `completed` is set by the update that plays the last frame. */
  datatype Tick = Tick(next: SpriteState, completed: bool)

  /** `update()`: write the current frame's cell, step the frame, hide after the last one. */
  function UpdateTick(sheet: Sheet, s: SpriteState, now: int): (t: Tick)
    requires ValidSheet(sheet)
    ensures !Advances(s, now) ==> t == Tick(s, false)
    ensures Advances(s, now) ==>
      && t.next.loaded && t.next.lastFrameTime == now
      && t.next.shown == Some(FrameCell(sheet, s.currentFrame))
      && (t.completed <==> s.currentFrame + 1 >= sheet.totalFrames)
      && (t.completed ==> !t.next.visible && t.next.currentFrame == 0)
      && (!t.completed ==> t.next.visible && t.next.currentFrame == s.currentFrame + 1)
    ensures Inv(sheet, s) ==> Inv(sheet, t.next)
  {
    if Advances(s, now) then
      var frame := s.currentFrame + 1;
      var written := s.(lastFrameTime := now, shown := Some(FrameCell(sheet, s.currentFrame)));
      if frame >= sheet.totalFrames then
        Tick(written.(visible := false, currentFrame := 0), true)
      else
        Tick(written.(currentFrame := frame), false)
    else
      Tick(s, false)
  }

  /** Each time comes at least `gap` after the one before it, the first at least `gap` after `t0`. */
  predicate Spaced(gap: int, t0: int, times: seq<int>)
    decreases |times|
  {
    times == [] || (times[0] - t0 >= gap && Spaced(gap, times[0], times[1..]))
  }

  /** The ticks of successive `update()` calls at `times`. */
  function Ticks(sheet: Sheet, s: SpriteState, times: seq<int>): (ts: seq<Tick>)
    requires ValidSheet(sheet)
    ensures |ts| == |times|
    decreases |times|
  {
    if times == [] then []
    else
      var t := UpdateTick(sheet, s, times[0]);
      [t] + Ticks(sheet, t.next, times[1..])
  }

  /**
    While frames remain, spaced updates play frame `f`, `f + 1`, ... in order;
    the update that plays the last frame hides the plane and is the only one
    that completes.
   */
  lemma {:induction false} PlaysRemainingFrames(sheet: Sheet, s: SpriteState, times: seq<int>)
    requires ValidSheet(sheet)
    requires s.loaded && s.visible && Spaced(FrameChangeInterval, s.lastFrameTime, times)
    requires s.currentFrame + |times| <= sheet.totalFrames
    ensures var ts := Ticks(sheet, s, times);
      forall k :: 0 <= k < |times| ==>
        && ts[k].next.shown == Some(FrameCell(sheet, s.currentFrame + k))
        && ts[k].next.lastFrameTime == times[k]
        && (ts[k].completed <==> s.currentFrame + k + 1 == sheet.totalFrames)
        && (ts[k].next.visible <==> s.currentFrame + k + 1 < sheet.totalFrames)
    decreases |times|
  {
    if times != [] {
      var t := UpdateTick(sheet, s, times[0]);
      assert Advances(s, times[0]);
      var ts := Ticks(sheet, s, times);
      assert ts == [t] + Ticks(sheet, t.next, times[1..]);
      if |times| > 1 {
        assert !t.completed;
        PlaysRemainingFrames(sheet, t.next, times[1..]);
        forall k | 1 <= k < |times|
          ensures ts[k] == Ticks(sheet, t.next, times[1..])[k - 1]
        {
        }
      }
    }
  }

  /**
    One-shot playback: after `start()` on a loaded effect, `totalFrames`
    spaced updates write frames 0, 1, ..., totalFrames - 1 in turn; the plane
    stays visible until the last of them, which hides it and is the only
    update that completes.
   */
  lemma OneShotPlayback(sheet: Sheet, s: SpriteState, t0: int, times: seq<int>)
    requires ValidSheet(sheet) && sheet.totalFrames >= 1
    requires s.loaded && Spaced(FrameChangeInterval, t0, times) && |times| == sheet.totalFrames
    ensures var ts := Ticks(sheet, StartState(s, t0), times);
      && (forall k :: 0 <= k < |times| ==> ts[k].next.shown == Some(FrameCell(sheet, k)))
      && (forall k :: 0 <= k < |times| - 1 ==> ts[k].next.visible && !ts[k].completed)
      && ts[|times| - 1].completed
      && !ts[|times| - 1].next.visible && ts[|times| - 1].next.currentFrame == 0
  {
    var started := StartState(s, t0);
    assert started.currentFrame == 0 && started.lastFrameTime == t0;
    PlaysRemainingFrames(sheet, started, times);
    var ts := Ticks(sheet, started, times);
    var last := |times| - 1;
    assert ts[last].completed && !ts[last].next.visible;
    assert UpdateTick(sheet, if last == 0 then started else ts[last - 1].next, times[last]) == ts[last] by {
      TicksStep(sheet, started, times, last);
    }
  }

  /** Each tick continues from the state the previous one left. */
  lemma {:induction false} TicksStep(sheet: Sheet, s: SpriteState, times: seq<int>, k: nat)
    requires ValidSheet(sheet) && k < |times|
    ensures var ts := Ticks(sheet, s, times);
      ts[k] == UpdateTick(sheet, if k == 0 then s else ts[k - 1].next, times[k])
    decreases k
  {
    var t := UpdateTick(sheet, s, times[0]);
    var ts := Ticks(sheet, s, times);
    assert ts == [t] + Ticks(sheet, t.next, times[1..]);
    if k > 0 {
      TicksStep(sheet, t.next, times[1..], k - 1);
    }
  }

  /** A hidden or unloaded effect ignores updates. */
  lemma {:induction false} IdleIgnoresUpdates(sheet: Sheet, s: SpriteState, times: seq<int>)
    requires ValidSheet(sheet) && !s.visible
    ensures forall k :: 0 <= k < |times| ==> Ticks(sheet, s, times)[k] == Tick(s, false)
    decreases |times|
  {
    if times != [] {
      IdleIgnoresUpdates(sheet, s, times[1..]);
      var ts := Ticks(sheet, s, times);
      assert ts == [Tick(s, false)] + Ticks(sheet, s, times[1..]);
    }
  }

  /** A colour as `setRGB` takes it. */
  datatype Rgb = Rgb(r: real, g: real, b: real)

  const White := Rgb(1.0, 1.0, 1.0)

  /** The background material whose colour a finished effect resets. */
  class Material {
    var color: Rgb

    constructor (color: Rgb)
      ensures this.color == color
    {
      this.color := color;
    }
  }

  /** The object `createSpriteEffect` returns, with the state its closures share. */
  class SpriteEffect {
    const sheet: Sheet
    const backgroundMaterial: Material?
    var loaded: bool
    var visible: bool
    var currentFrame: nat
    var lastFrameTime: int
    var shown: Option<Cell>

    function State(): (s: SpriteState)
      reads this
    {
      SpriteState(loaded, visible, currentFrame, lastFrameTime, shown)
    }

    ghost predicate Valid()
      reads this
    {
      ValidSheet(sheet) && Inv(sheet, State())
    }

    constructor (columns: int, rows: int, totalFrames: int, backgroundMaterial: Material?)
      requires columns >= 1 && rows >= 1
      ensures sheet == Sheet(columns, rows, totalFrames) && this.backgroundMaterial == backgroundMaterial
      ensures State() == InitialState()
      ensures Valid()
    {
      sheet := Sheet(columns, rows, totalFrames);
      this.backgroundMaterial := backgroundMaterial;
      loaded, visible := false, false;
      currentFrame, lastFrameTime := 0, 0;
      shown := None;
    }

    /** The texture loader's callback: the plane is created, hidden. */
    method OnTextureLoaded()
      requires Valid()
      modifies this
      ensures Valid()
      ensures State() == LoadedState(old(State()))
    {
      loaded := true;
      visible := false;
    }

    method Start(now: int)
      requires Valid()
      modifies this
      ensures Valid()
      ensures State() == StartState(old(State()), now)
    {
      if loaded {
        visible := true;
        currentFrame := 0;
        lastFrameTime := now;
      }
    }

    method Update(now: int)
      requires Valid()
      modifies this, backgroundMaterial
      ensures Valid()
      ensures State() == UpdateTick(sheet, old(State()), now).next
      ensures backgroundMaterial != null ==>
        backgroundMaterial.color == if UpdateTick(sheet, old(State()), now).completed then White else old(backgroundMaterial.color)
    {
      if loaded && visible {
        if now - lastFrameTime >= FrameChangeInterval {
          lastFrameTime := now;
          shown := Some(FrameCell(sheet, currentFrame));
          currentFrame := currentFrame + 1;
          if currentFrame >= sheet.totalFrames {
            visible := false;
            currentFrame := 0;
            if backgroundMaterial != null {
              backgroundMaterial.color := White;
            }
          }
        }
      }
    }
  }
}
