/** The audio-reactive background of components/BubbleBackground.tsx: each
    animation frame averages the analyser's frequency bytes into one scale
    factor and writes it into every mounted bubble; when the player is not
    playing, or there is no analyser, every bubble is put back to scale 1 and
    the frame loop stops. */
module BubbleBackground {
  import opened Types

  /** The number of bubbles rendered; the bubble list is cut to this length. */
  const BUBBLE_COUNT: nat := 15

  /** The sum of the bins, `sum += dataArray[i]` over the whole snapshot.
      Every bin is a byte, so the sum lies between 0 and 255 per bin. */
  function Sum(s: Snapshot): (r: int)
    ensures 0 <= r <= 255 * |s|
  {
    if s == [] then 0 else Sum(s[..|s| - 1]) + s[|s| - 1]
  }

  /** `sum / bufferLength`: a byte value between 0 and 255. */
  function Average(s: Snapshot): (r: real)
    requires 0 < |s|
    ensures 0.0 <= r <= 255.0
  {
    DivideBounds(Sum(s) as real, |s| as real, 255.0);
    Sum(s) as real / |s| as real
  }

  /** `1 + (average / 128) * 0.5`: never below 1 (as the comment in
      `analyseAudio` promises) and never above the all-255 scale. */
  function Scale(s: Snapshot): (r: real)
    requires 0 < |s|
    ensures 1.0 <= r <= MAX_SCALE
  {
    1.0 + (Average(s) / 128.0) * 0.5
  }

  /** The scale of a snapshot whose every bin is at the byte maximum 255. */
  const MAX_SCALE: real := 1.0 + (255.0 / 128.0) * 0.5

  /** A snapshot whose bins all hold `c` sums to `c` times its length. */
  lemma {:induction false} SumOfConstant(s: Snapshot, c: Byte)
    requires forall i :: 0 <= i < |s| ==> s[i] == c
    ensures Sum(s) == c * |s|
  {
    if s != [] {
      SumOfConstant(s[..|s| - 1], c);
    }
  }

  /** Louder bins never make a smaller sum. */
  lemma {:induction false} SumMonotone(a: Snapshot, b: Snapshot)
    requires |a| == |b|
    requires forall i :: 0 <= i < |a| ==> a[i] <= b[i]
    ensures Sum(a) <= Sum(b)
  {
    if a != [] {
      SumMonotone(a[..|a| - 1], b[..|b| - 1]);
    }
  }

  lemma DivideBounds(x: real, n: real, hi: real)
    requires 0.0 < n && 0.0 <= x <= hi * n
    ensures 0.0 <= x / n <= hi
  {
  }

  lemma DivideExact(c: real, n: real)
    requires 0.0 < n
    ensures (c * n) / n == c
  {
  }

  /** Silence leaves the bubbles at their rest size. */
  lemma SilenceScale(s: Snapshot)
    requires 0 < |s|
    requires forall i :: 0 <= i < |s| ==> s[i] == 0
    ensures Scale(s) == 1.0
  {
    SumOfConstant(s, 0);
  }

  /** Bins all at 128 give an average of 128 and the scale 1.5. */
  lemma HalfLevelScale(s: Snapshot)
    requires 0 < |s|
    requires forall i :: 0 <= i < |s| ==> s[i] == 128
    ensures Average(s) == 128.0 && Scale(s) == 1.5
  {
    SumOfConstant(s, 128);
    assert Sum(s) as real == 128.0 * |s| as real;
    DivideExact(128.0, |s| as real);
  }

  /** Bins all at 255 reach the largest scale. */
  lemma FullLevelScale(s: Snapshot)
    requires 0 < |s|
    requires forall i :: 0 <= i < |s| ==> s[i] == 255
    ensures Scale(s) == MAX_SCALE
  {
    SumOfConstant(s, 255);
    assert Sum(s) as real == 255.0 * |s| as real;
    DivideExact(255.0, |s| as real);
  }

  /** For snapshots of one length, the scale does not decrease as the sum
      of the bins grows. */
  lemma ScaleMonotone(a: Snapshot, b: Snapshot)
    requires 0 < |a| == |b|
    requires Sum(a) <= Sum(b)
    ensures Scale(a) <= Scale(b)
  {
    var n := |a| as real;
    assert Sum(a) as real / n <= Sum(b) as real / n;
  }

  /** The per-frame computation: the `for` loop summing the bins, the
      average and the scale. */
  method FrameScale(data: Snapshot) returns (scale: real)
    requires 0 < |data|
    ensures scale == Scale(data)
    ensures 1.0 <= scale <= MAX_SCALE
  {
    var sum: int := 0;
    var i := 0;
    while i < |data|
      invariant 0 <= i <= |data|
      invariant sum == Sum(data[..i])
    {
      assert data[..i + 1][..i] == data[..i];
      sum := sum + data[i];
      i := i + 1;
    }
    assert data[..i] == data;
    var average := sum as real / |data| as real;
    scale := 1.0 + (average / 128.0) * 0.5;
  }

  /** The bubble slots and the frame loop of one background. */
  class BubbleField {
    /** `bubblesRef.current`: per slot, the mounted bubble's `style.scale`,
        or `None` for an empty (null) slot. */
    var bubbles: array<Option<real>>
    /** How many `requestAnimationFrame` callbacks are pending. */
    var liveFrames: nat
    /** The `analyser` and `isPlaying` props the running effect captured. */
    var hasAnalyser: bool
    var isPlaying: bool

    ghost predicate Valid()
      reads this
    {
      liveFrames <= 1
    }

    /** The slots as the ref callbacks left them, before the first effect. */
    constructor (slots: seq<Option<real>>)
      ensures Valid()
      ensures fresh(bubbles) && bubbles[..] == slots
      ensures liveFrames == 0 && !hasAnalyser && !isPlaying
    {
      bubbles := new Option<real>[|slots|](i requires 0 <= i < |slots| => slots[i]);
      liveFrames := 0;
      hasAnalyser := false;
      isPlaying := false;
    }

    /** The mount effect `bubblesRef.current.slice(0, BUBBLE_COUNT)`: a new
        list holding the first slots, at most `BUBBLE_COUNT` of them. */
    method Truncate()
      requires Valid()
      modifies this`bubbles
      ensures Valid()
      ensures fresh(bubbles)
      ensures bubbles.Length == if old(bubbles.Length) < BUBBLE_COUNT then old(bubbles.Length) else BUBBLE_COUNT
      ensures bubbles[..] == old(bubbles[..])[..bubbles.Length]
    {
      var previous := bubbles;
      var len := if bubbles.Length < BUBBLE_COUNT then bubbles.Length else BUBBLE_COUNT;
      bubbles := new Option<real>[len](i requires 0 <= i < len reads previous => previous[i]);
    }

    /** `bubblesRef.current.forEach(bubble => { if (bubble) bubble.style.scale = scale })`:
        every mounted bubble takes the scale and empty slots stay empty. */
    method SetScale(scale: real)
      modifies bubbles
      ensures forall i :: 0 <= i < bubbles.Length ==>
                bubbles[i] == if old(bubbles[i]).None? then None else Some(scale)
    {
      var i := 0;
      while i < bubbles.Length
        invariant 0 <= i <= bubbles.Length
        invariant forall j :: 0 <= j < i ==>
                    bubbles[j] == if old(bubbles[j]).None? then None else Some(scale)
        invariant forall j :: i <= j < bubbles.Length ==> bubbles[j] == old(bubbles[j])
      {
        if bubbles[i].Some? {
          bubbles[i] := Some(scale);
        }
        i := i + 1;
      }
    }

    /** `analyseAudio`, run when no frame is pending (straight from the
        effect, or from the frame that just fired). With the gate open it
        scales every bubble by the snapshot and schedules the next frame;
        with it closed it cancels, puts every bubble back to 1 and schedules
        nothing. */
    method AnalyseAudio(data: Snapshot)
      requires Valid() && liveFrames == 0
      requires hasAnalyser && isPlaying ==> 0 < |data|
      modifies this`liveFrames, bubbles
      ensures Valid()
      ensures hasAnalyser && isPlaying ==>
                liveFrames == 1 &&
                forall i :: 0 <= i < bubbles.Length ==>
                  bubbles[i] == if old(bubbles[i]).None? then None else Some(Scale(data))
      ensures !(hasAnalyser && isPlaying) ==>
                liveFrames == 0 &&
                forall i :: 0 <= i < bubbles.Length ==>
                  bubbles[i] == if old(bubbles[i]).None? then None else Some(1.0)
    {
      if !hasAnalyser || !isPlaying {
        liveFrames := 0;
        SetScale(1.0);
        return;
      }
      var scale := FrameScale(data);
      SetScale(scale);
      liveFrames := liveFrames + 1;
    }

    /** The effect run when `analyser` or `isPlaying` changes: the previous
        run's cleanup cancels its pending frame, then `analyseAudio` runs
        with the new props. Running it again without a stop in between still
        leaves at most one pending frame. */
    method RunEffect(analyserPresent: bool, playing: bool, data: Snapshot)
      requires Valid()
      requires analyserPresent && playing ==> 0 < |data|
      modifies this`liveFrames, this`hasAnalyser, this`isPlaying, bubbles
      ensures Valid()
      ensures hasAnalyser == analyserPresent && isPlaying == playing
      ensures liveFrames == if analyserPresent && playing then 1 else 0
      ensures forall i :: 0 <= i < bubbles.Length ==>
                bubbles[i] == if old(bubbles[i]).None? then None
                              else Some(if analyserPresent && playing then Scale(data) else 1.0)
    {
      liveFrames := 0;
      hasAnalyser, isPlaying := analyserPresent, playing;
      AnalyseAudio(data);
    }

    /** The pending animation frame fires with this frame's snapshot. */
    method Frame(data: Snapshot)
      requires Valid() && liveFrames == 1
      requires hasAnalyser && isPlaying ==> 0 < |data|
      modifies this`liveFrames, bubbles
      ensures Valid()
      ensures liveFrames == if hasAnalyser && isPlaying then 1 else 0
      ensures forall i :: 0 <= i < bubbles.Length ==>
                bubbles[i] == if old(bubbles[i]).None? then None
                              else Some(if hasAnalyser && isPlaying then Scale(data) else 1.0)
    {
      liveFrames := 0;
      AnalyseAudio(data);
    }

    /** The effect cleanup on unmount: the pending frame, if any, is cancelled. */
    method Unmount()
      requires Valid()
      modifies this`liveFrames
      ensures Valid() && liveFrames == 0
    {
      liveFrames := 0;
    }
  }
}
