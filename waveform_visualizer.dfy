/** The bar-chart visualizer of components/WaveformVisualizer.tsx: each
    animation frame clears the canvas and draws one bottom-anchored bar per
    frequency bin, left to right; when the player is not playing, or there is
    no analyser, the canvas is cleared and the frame loop stops. */
module WaveformVisualizer {
  import opened Types

  /** A CSS colour, as the track's `mainColor` gives it. */
  type Color = string

  /** A call on the canvas's 2D context. */
  datatype DrawOp =
    | ClearRect(x: real, y: real, w: real, h: real)
    | FillRect(x: real, y: real, w: real, h: real, color: Color)

  /** The space left between two bars, in pixels. */
  const GUTTER: real := 2.0

  /** The largest bar a byte can make: 255 / 2.5. */
  const MAX_BAR_HEIGHT: real := 102.0

  /** `(width / bufferLength) * 1.5`: the bins' bars together are one and a
      half canvas widths wide, gutters aside. */
  function BarWidth(width: real, bins: nat): (w: real)
    requires 0 < bins
    ensures 0.0 <= width ==> 0.0 <= w
    ensures w * bins as real == width * 1.5
  {
    (width / bins as real) * 1.5
  }

  /** `dataArray[i] / 2.5`: between 0 and the tallest bar, 2.5 levels per pixel. */
  function BarHeight(v: Byte): (h: real)
    ensures 0.0 <= h <= MAX_BAR_HEIGHT
    ensures h * 2.5 == v as real
  {
    v as real / 2.5
  }

  /** Bar `i` in closed form: it starts `i` bar-plus-gutter steps from the
      left edge. Every bar has the same width and colour, a height between 0
      and 102 and its foot on the bottom edge. */
  function Bar(data: Snapshot, i: nat, width: real, height: real, color: Color): (b: DrawOp)
    requires i < |data|
    ensures b.FillRect? && b.w == BarWidth(width, |data|) && b.color == color
    ensures 0.0 <= b.h <= MAX_BAR_HEIGHT && b.y + b.h == height
    ensures b.x == i as real * (BarWidth(width, |data|) + GUTTER)
  {
    var w := BarWidth(width, |data|);
    var h := BarHeight(data[i]);
    FillRect(i as real * (w + GUTTER), height - h, w, h, color)
  }

  /** The bars of one frame, one per bin in bin order. */
  function Bars(data: Snapshot, width: real, height: real, color: Color): (bars: seq<DrawOp>)
    ensures |bars| == |data|
    ensures forall i :: 0 <= i < |data| ==> bars[i] == Bar(data, i, width, height, color)
  {
    seq(|data|, i requires 0 <= i < |data| => Bar(data, i, width, height, color))
  }

  /** On a canvas of non-negative width the bars go left to right in bin
      order, and each ends a full gutter before the next begins. */
  lemma BarsLeftToRight(data: Snapshot, i: nat, j: nat, width: real, height: real, color: Color)
    requires 0.0 <= width
    requires i < j < |data|
    ensures Bar(data, i, width, height, color).x + BarWidth(width, |data|) + GUTTER
            <= Bar(data, j, width, height, color).x
  {
    var step := BarWidth(width, |data|) + GUTTER;
    assert 0.0 < step;
    assert (j - i - 1) as real * step >= 0.0;
    assert j as real * step == i as real * step + step + (j - i - 1) as real * step;
  }

  /** The bars are not kept inside the canvas: with the player's 500-pixel
      canvas and 128 bins, the last bar starts at 127 * (375/64 + 2), past
      the right edge. */
  lemma LastBarPastCanvas(data: Snapshot, height: real, color: Color)
    requires |data| == BIN_COUNT
    ensures Bar(data, BIN_COUNT - 1, 500.0, height, color).x > 500.0
  {
    assert BarWidth(500.0, BIN_COUNT) == 375.0 / 64.0;
  }

  /** The `for` loop of `draw`: a running `x` advanced by the bar width and
      the gutter after each `fillRect`. */
  method LayoutBars(data: Snapshot, width: real, height: real, color: Color) returns (bars: seq<DrawOp>)
    requires 0 < |data|
    ensures bars == Bars(data, width, height, color)
  {
    var barWidth := (width / |data| as real) * 1.5;
    var x := 0.0;
    bars := [];
    var i := 0;
    while i < |data|
      invariant 0 <= i <= |data|
      invariant x == i as real * (barWidth + GUTTER)
      invariant |bars| == i
      invariant forall k :: 0 <= k < i ==> bars[k] == Bar(data, k, width, height, color)
    {
      var barHeight := data[i] as real / 2.5;
      bars := bars + [FillRect(x, height - barHeight, barWidth, barHeight, color)];
      x := x + barWidth + 2.0;
      i := i + 1;
    }
  }

  /** What stays visible on the canvas after a sequence of calls: every
      clear in this model covers the whole canvas, so the rectangles filled
      after the last clear. */
  function Painted(ops: seq<DrawOp>): (fills: seq<DrawOp>)
    ensures NoClears(fills)
    ensures |fills| <= |ops| && fills == ops[|ops| - |fills|..]
    ensures |fills| < |ops| ==> ops[|ops| - |fills| - 1].ClearRect?
  {
    if ops == [] then []
    else if ops[|ops| - 1].ClearRect? then []
    else Painted(ops[..|ops| - 1]) + [ops[|ops| - 1]]
  }

  predicate NoClears(ops: seq<DrawOp>)
  {
    forall i :: 0 <= i < |ops| ==> ops[i].FillRect?
  }

  /** A clear followed by fills leaves exactly those fills on the canvas,
      whatever was drawn before. */
  lemma {:induction false} PaintedAfterClear(before: seq<DrawOp>, clear: DrawOp, fills: seq<DrawOp>)
    requires clear.ClearRect? && NoClears(fills)
    ensures Painted(before + [clear] + fills) == fills
    decreases |fills|
  {
    var ops := before + [clear] + fills;
    if fills == [] {
      assert ops[|ops| - 1] == clear;
    } else {
      var last := fills[|fills| - 1];
      var shorter := fills[..|fills| - 1];
      assert ops[..|ops| - 1] == before + [clear] + shorter;
      assert ops[|ops| - 1] == last;
      PaintedAfterClear(before, clear, shorter);
      assert shorter + [last] == fills;
    }
  }

  /** The canvas, its frame loop and the props the running effect captured. */
  class Waveform {
    /** The canvas's `width` and `height` attributes (500 by 80 in the player). */
    const width: real
    const height: real
    /** Whether `canvasRef.current` holds the canvas, and whether it gives a 2D context. */
    const hasCanvas: bool
    const hasContext: bool

    /** The calls made on the 2D context so far, in order. */
    var ops: seq<DrawOp>
    /** How many `requestAnimationFrame` callbacks are pending. */
    var liveFrames: nat
    var hasAnalyser: bool
    var isPlaying: bool
    var barColor: Color

    ghost predicate Valid()
      reads this
    {
      liveFrames <= 1 && 0.0 <= width && 0.0 <= height
    }

    constructor (width: real, height: real, hasCanvas: bool, hasContext: bool)
      requires 0.0 <= width && 0.0 <= height
      ensures Valid()
      ensures this.width == width && this.height == height
      ensures this.hasCanvas == hasCanvas && this.hasContext == hasContext
      ensures ops == [] && liveFrames == 0 && !hasAnalyser && !isPlaying
    {
      this.width := width;
      this.height := height;
      this.hasCanvas := hasCanvas;
      this.hasContext := hasContext;
      ops := [];
      liveFrames := 0;
      hasAnalyser := false;
      isPlaying := false;
      barColor := "";
    }

    /** `clearRect(0, 0, width, height)`: a clear of the whole canvas, which
        leaves nothing of what was drawn before it visible. */
    function FullClear(): (c: DrawOp)
      reads this
      ensures c == ClearRect(0.0, 0.0, width, height)
      ensures forall before: seq<DrawOp> :: Painted(before + [c]) == []
    {
      ClearRect(0.0, 0.0, width, height)
    }

    /** `draw`, run when no frame is pending. With the gate open and a
        context it clears the canvas once, draws one bar per bin and schedules
        the next frame; with the gate closed it cancels and draws nothing;
        without a context it just returns. */
    method Draw(data: Snapshot)
      requires Valid() && liveFrames == 0
      requires hasAnalyser && isPlaying ==> 0 < |data|
      modifies this`ops, this`liveFrames
      ensures Valid()
      ensures var drawn := hasAnalyser && hasCanvas && isPlaying && hasContext;
              && (drawn ==> ops == old(ops) + [FullClear()] + Bars(data, width, height, barColor))
              && (drawn ==> Painted(ops) == Bars(data, width, height, barColor))
              && (!drawn ==> ops == old(ops))
              && liveFrames == if drawn then 1 else 0
    {
      if !hasAnalyser || !hasCanvas || !isPlaying {
        liveFrames := 0;
        return;
      }
      if !hasContext {
        return;
      }
      var bars := LayoutBars(data, width, height, barColor);
      PaintedAfterClear(ops, FullClear(), bars);
      ops := ops + [FullClear()] + bars;
      liveFrames := liveFrames + 1;
    }

    /** The effect run when `isPlaying`, `barColor` or `analyser` changes:
        the previous run's cleanup cancels its pending frame; then either
        `draw` runs, or the canvas is cleared and nothing is scheduled. */
    method RunEffect(playing: bool, color: Color, analyserPresent: bool, data: Snapshot)
      requires Valid()
      requires playing && analyserPresent ==> 0 < |data|
      modifies this`ops, this`liveFrames, this`hasAnalyser, this`isPlaying, this`barColor
      ensures Valid()
      ensures isPlaying == playing && barColor == color && hasAnalyser == analyserPresent
      ensures var drawn := playing && analyserPresent && hasCanvas && hasContext;
              && (drawn ==> ops == old(ops) + [FullClear()] + Bars(data, width, height, color))
              && (drawn ==> Painted(ops) == Bars(data, width, height, color))
              && liveFrames == if drawn then 1 else 0
      ensures playing && analyserPresent && !(hasCanvas && hasContext) ==> ops == old(ops)
      ensures !(playing && analyserPresent) ==>
                ops == old(ops) + (if hasCanvas && hasContext then [FullClear()] else [])
      ensures !(playing && analyserPresent) && hasCanvas && hasContext ==> Painted(ops) == []
    {
      liveFrames := 0;
      isPlaying, barColor, hasAnalyser := playing, color, analyserPresent;
      if isPlaying && hasAnalyser {
        Draw(data);
      } else {
        liveFrames := 0;
        if hasCanvas && hasContext {
          ops := ops + [FullClear()];
        }
      }
    }

    /** The pending animation frame fires with this frame's snapshot. */
    method Frame(data: Snapshot)
      requires Valid() && liveFrames == 1
      requires hasAnalyser && isPlaying ==> 0 < |data|
      modifies this`ops, this`liveFrames
      ensures Valid()
      ensures var drawn := hasAnalyser && hasCanvas && isPlaying && hasContext;
              && (drawn ==> ops == old(ops) + [FullClear()] + Bars(data, width, height, barColor))
              && (!drawn ==> ops == old(ops))
              && liveFrames == if drawn then 1 else 0
    {
      liveFrames := 0;
      Draw(data);
    }

    /** The effect cleanup on unmount: the pending frame, if any, is cancelled. */
    method Unmount()
      requires Valid()
      modifies this`liveFrames
      ensures Valid() && liveFrames == 0
    {
      liveFrames := 0;
    }
  }
}
