/** The player of App.tsx: the track index and its wrap-around arithmetic,
    shuffle, previous-or-rewind, the repeat-mode cycle, the end-of-song
    decision, the lazily built audio graph, the reload on a track change,
    and the `m:ss` clock text. */
module App {
  import opened Types

  // ---------------------------------------------------------------------
  // Track index arithmetic over n > 0 tracks
  // ---------------------------------------------------------------------

  /** `(prev + 1) % tracks.length`: the following track, wrapping after the last. */
  function NextIndex(i: nat, n: nat): (r: nat)
    requires i < n
    ensures r < n
    ensures i < n - 1 ==> r == i + 1
    ensures i == n - 1 ==> r == 0
  {
    (i + 1) % n
  }

  /** `(prev - 1 + tracks.length) % tracks.length`: the preceding track,
      wrapping from the first to the last. */
  function PrevIndex(i: nat, n: nat): (r: nat)
    requires i < n
    ensures r < n
    ensures 0 < i ==> r == i - 1
    ensures i == 0 ==> r == n - 1
  {
    (i - 1 + n) % n
  }

  /** Skipping back undoes skipping forward, and the other way round. */
  lemma PrevInvertsNext(i: nat, n: nat)
    requires i < n
    ensures PrevIndex(NextIndex(i, n), n) == i
    ensures NextIndex(PrevIndex(i, n), n) == i
  {
  }

  // ---------------------------------------------------------------------
  // Shuffle: `do { k = floor(random * n) } while (n > 1 && k === current)`
  // ---------------------------------------------------------------------

  /** A value `Math.random()` can return. */
  predicate IsRandom(r: real)
  {
    0.0 <= r < 1.0
  }

  /** `Math.floor(Math.random() * tracks.length)` for the drawn value `r`. */
  function DrawIndex(r: real, n: nat): (k: int)
    ensures IsRandom(r) && 0 < n ==> 0 <= k < n
  {
    ScaleBelow(r, n as real);
    (r * n as real).Floor
  }

  /** A value drawn from `[0, 1)` scales a positive length to less than itself. */
  lemma ScaleBelow(r: real, x: real)
    ensures IsRandom(r) && 0.0 < x ==> r * x < x
  {
  }

  /** The random source eventually ends the shuffle loop: at least one draw
      is made, and with more than one track some draw picks another track. */
  predicate ShuffleEnds(draws: seq<real>, n: nat, current: nat)
  {
    0 < |draws| && (n == 1 || exists k :: 0 <= k < |draws| && DrawIndex(draws[k], n) != current)
  }

  /** The do-while loop of `handleNext` in shuffle mode, fed by the drawn
      values `draws`. It returns the chosen index and the number of draws it
      consumed: the chosen index is the first draw that differs from the
      current track (the very first draw when there is one track). */
  method ShuffleDraw(draws: seq<real>, n: nat, current: nat) returns (next: nat, used: nat)
    requires current < n
    requires forall k :: 0 <= k < |draws| ==> IsRandom(draws[k])
    requires ShuffleEnds(draws, n, current)
    ensures 0 < used <= |draws|
    ensures next == DrawIndex(draws[used - 1], n)
    ensures next < n
    ensures 1 < n ==> next != current
    ensures n == 1 ==> next == 0 && used == 1
    ensures forall k :: 0 <= k < used - 1 ==> DrawIndex(draws[k], n) == current
  {
    used := 1;
    next := DrawIndex(draws[0], n);
    while 1 < n && next == current
      invariant 0 < used <= |draws|
      invariant next == DrawIndex(draws[used - 1], n)
      invariant forall k :: 0 <= k < used - 1 ==> DrawIndex(draws[k], n) == current
      invariant n == 1 ==> used == 1
      decreases |draws| - used
    {
      used := used + 1;
      next := DrawIndex(draws[used - 1], n);
    }
  }

  // ---------------------------------------------------------------------
  // Repeat mode: `modes[(modes.indexOf(repeatMode) + 1) % modes.length]`
  // ---------------------------------------------------------------------

  const REPEAT_MODES: seq<RepeatMode> := [Off, All, One]

  /** `modes.indexOf(m)`: every mode is in the list, so the index is found. */
  function ModeIndex(m: RepeatMode): (i: nat)
    ensures i < |REPEAT_MODES| && REPEAT_MODES[i] == m
  {
    match m
    case Off => 0
    case All => 1
    case One => 2
  }

  /** The mode after one press of the repeat button. */
  function NextRepeatMode(m: RepeatMode): (r: RepeatMode)
    ensures m == Off ==> r == All
    ensures m == All ==> r == One
    ensures m == One ==> r == Off
  {
    REPEAT_MODES[(ModeIndex(m) + 1) % |REPEAT_MODES|]
  }

  /** Three presses bring the repeat mode back, and fewer never do. */
  lemma RepeatCycleReturns(m: RepeatMode)
    ensures NextRepeatMode(NextRepeatMode(NextRepeatMode(m))) == m
    ensures NextRepeatMode(m) != m && NextRepeatMode(NextRepeatMode(m)) != m
  {
  }

  // ---------------------------------------------------------------------
  // End of song
  // ---------------------------------------------------------------------

  /** What `handleSongEnd` does: replay the track, move on as `handleNext`
      does, or stop playing. */
  datatype EndAction = Replay | Advance | Stop

  function SongEndAction(mode: RepeatMode, index: nat, n: nat): (a: EndAction)
    requires index < n
    ensures a == Replay <==> mode == One
    ensures a == Stop <==> mode == Off && index == n - 1
  {
    match mode
    case One => Replay
    case All => Advance
    case Off => if index != n - 1 then Advance else Stop
  }

  /** Without repeat, every track but the last moves on; with repeat-all
      even the last one does. */
  lemma SongEndAdvances(mode: RepeatMode, index: nat, n: nat)
    requires index < n
    requires mode == All || (mode == Off && index < n - 1)
    ensures SongEndAction(mode, index, n) == Advance
  {
  }

  // ---------------------------------------------------------------------
  // formatTime: `${Math.floor(t / 60)}:${s < 10 ? '0' : ''}${s}`
  // with `s = Math.floor(t % 60)`
  // ---------------------------------------------------------------------

  /** Rounding toward zero, as JavaScript's `%` uses for its quotient. */
  function Trunc(x: real): (k: int)
    ensures 0.0 <= x ==> k == x.Floor
    ensures 0.0 <= x ==> k as real <= x < k as real + 1.0
    ensures x < 0.0 ==> k as real - 1.0 < x <= k as real
  {
    if 0.0 <= x then x.Floor else -((-x).Floor)
  }

  /** JavaScript's `a % b` on numbers: `a` less a whole number of `b`s, with
      the remainder taking the sign of `a` and staying below `|b|`. */
  function JsRem(a: real, b: real): (r: real)
    requires b != 0.0
    ensures 0.0 < b && 0.0 <= a ==> 0.0 <= r < b
    ensures 0.0 < b && a < 0.0 ==> -b < r <= 0.0
  {
    var q := Trunc(a / b);
    QuotientBounds(a, b, q);
    a - b * q as real
  }

  /** Multiplying the bounds on a truncated quotient back by a positive divisor. */
  lemma QuotientBounds(a: real, b: real, q: int)
    requires b != 0.0 && q == Trunc(a / b)
    ensures 0.0 < b && 0.0 <= a ==> 0.0 <= a - b * q as real < b
    ensures 0.0 < b && a < 0.0 ==> -b < a - b * q as real <= 0.0
  {
    if 0.0 < b {
      var y := a / b;
      assert a == b * y;
      if 0.0 <= a {
        assert 0.0 <= y;
        RemainderBelow(a, b, y, q as real);
      } else {
        assert y < 0.0;
        RemainderAbove(a, b, y, q as real);
      }
    }
  }

  lemma RemainderBelow(a: real, b: real, y: real, z: real)
    requires 0.0 < b && a == b * y
    requires z <= y < z + 1.0
    ensures 0.0 <= a - b * z < b
  {
    ScaleLe(b, z, y);
    ScaleLt(b, y, z + 1.0);
    assert b * (z + 1.0) == b * z + b;
    calc {
      a - b * z;
      ==
      b * y - b * z;
      <
      b;
    }
  }

  lemma RemainderAbove(a: real, b: real, y: real, z: real)
    requires 0.0 < b && a == b * y
    requires z - 1.0 < y <= z
    ensures -b < a - b * z <= 0.0
  {
    ScaleLt(b, z - 1.0, y);
    ScaleLe(b, y, z);
    assert b * (z - 1.0) == b * z - b;
    calc {
      a - b * z;
      ==
      b * y - b * z;
      >
      -b;
    }
  }

  lemma ScaleLe(b: real, u: real, v: real)
    requires 0.0 < b && u <= v
    ensures b * u <= b * v
  {
  }

  lemma ScaleLt(b: real, u: real, v: real)
    requires 0.0 < b && u < v
    ensures b * u < b * v
  {
  }

  predicate IsDigit(c: char)
  {
    '0' <= c <= '9'
  }

  function Digit(d: nat): (c: char)
    requires d < 10
    ensures IsDigit(c)
  {
    ('0' as int + d) as char
  }

  function DigitValue(c: char): (d: nat)
    requires IsDigit(c)
    ensures d < 10 && Digit(d) == c
  {
    c as int - '0' as int
  }

  predicate AllDigits(s: string)
  {
    forall i :: 0 <= i < |s| ==> IsDigit(s[i])
  }

  /** The decimal text of a non-negative integer, as template strings print it. */
  function NatToString(n: nat): (s: string)
    ensures 0 < |s| && AllDigits(s)
    ensures n < 10 <==> |s| == 1
    decreases n
  {
    if n < 10 then [Digit(n)] else NatToString(n / 10) + [Digit(n % 10)]
  }

  /** The decimal text of any integer: a minus sign before the magnitude. */
  function IntToString(i: int): (s: string)
    ensures 0 < |s|
    ensures s[0] == '-' <==> i < 0
    ensures 0 <= i ==> AllDigits(s)
    ensures i < 0 ==> 1 < |s| && AllDigits(s[1..])
  {
    if i < 0 then "-" + NatToString(-i) else NatToString(i)
  }

  /** The value of a string of decimal digits. */
  function ParseNat(s: string): nat
    requires AllDigits(s)
  {
    if s == [] then 0 else 10 * ParseNat(s[..|s| - 1]) + DigitValue(s[|s| - 1])
  }

  /** `formatTime`: JavaScript's floor of `time / 60`, a colon, then the
      floor of the truncating remainder `time % 60`, padded with a zero when
      below 10. For a non-negative time that is the whole minutes and exactly
      two second digits, the seconds in [0, 59] and the two fields together
      the whole seconds of `time`; a negative time prints negative minutes. */
  function FormatTime(time: real): (text: string)
    ensures 0.0 <= time ==>
              var m := (time / 60.0).Floor;
              var s := time.Floor - 60 * m;
              0 <= m && 0 <= s < 60 &&
              text == NatToString(m) + ":" + TwoDigits(s)
    ensures time < 0.0 ==> 0 < |text| && text[0] == '-'
  {
    var minutes := (time / 60.0).Floor;
    var seconds := JsRem(time, 60.0).Floor;
    ClockFields(time);
    IntToString(minutes) + ":" + (if seconds < 10 then "0" else "") + IntToString(seconds)
  }

  /** The two fields of `formatTime` for a non-negative time: the minutes
      print as a natural number and the padded seconds as two digits. */
  lemma ClockFields(time: real)
    ensures 0.0 <= time ==>
              var m := (time / 60.0).Floor;
              var seconds := JsRem(time, 60.0).Floor;
              var s := time.Floor - 60 * m;
              0 <= m && 0 <= s < 60 && seconds == s &&
              IntToString(m) == NatToString(m) &&
              (if seconds < 10 then "0" else "") + IntToString(seconds) == TwoDigits(s)
    ensures time < 0.0 ==> (time / 60.0).Floor < 0
  {
    if 0.0 <= time {
      var m := (time / 60.0).Floor;
      var rem := JsRem(time, 60.0);
      assert Trunc(time / 60.0) == m;
      assert rem == time - 60.0 * m as real;
      var s := time.Floor - 60 * m;
      assert rem.Floor == s;
      if s < 10 {
        assert IntToString(s) == [Digit(s)];
        assert "0" + IntToString(s) == TwoDigits(s);
      } else {
        assert IntToString(s) == NatToString(s / 10) + [Digit(s % 10)];
        assert NatToString(s / 10) == [Digit(s / 10)];
      }
    }
  }

  /** Reads a clock text `m:ss` back into whole seconds; `None` for any text
      that is not of that form or whose seconds field is 60 or more. */
  function ParseClock(s: string): Option<int>
  {
    if |s| < 4 || s[|s| - 3] != ':' then None
    else
      var minutes := s[..|s| - 3];
      if !AllDigits(minutes) || !IsDigit(s[|s| - 2]) || !IsDigit(s[|s| - 1]) then None
      else
        var seconds := 10 * DigitValue(s[|s| - 2]) + DigitValue(s[|s| - 1]);
        if 60 <= seconds then None else Some(60 * ParseNat(minutes) + seconds)
  }

  lemma {:induction false} ParseNatInvertsNatToString(n: nat)
    ensures ParseNat(NatToString(n)) == n
    decreases n
  {
    var s := NatToString(n);
    if n < 10 {
      assert s[..|s| - 1] == [];
    } else {
      ParseNatInvertsNatToString(n / 10);
      assert s[..|s| - 1] == NatToString(n / 10);
    }
  }

  /** The two characters `formatTime` prints for a seconds value below 60. */
  function TwoDigits(s: nat): string
    requires s < 60
  {
    [Digit(s / 10), Digit(s % 10)]
  }

  /** Reading back a clock text `m:ss` gives `60 * m + ss`. */
  lemma ClockTextRoundTrip(m: nat, s: nat)
    requires s < 60
    ensures ParseClock(NatToString(m) + ":" + TwoDigits(s)) == Some(60 * m + s)
  {
    var a := NatToString(m);
    var text := a + ":" + TwoDigits(s);
    assert |text| == |a| + 3;
    assert text[..|text| - 3] == a;
    assert text[|text| - 3] == ':';
    assert text[|text| - 2] == Digit(s / 10) && text[|text| - 1] == Digit(s % 10);
    ParseNatInvertsNatToString(m);
  }

  /** Reading the clock text of a non-negative time gives back its whole seconds. */
  lemma FormatTimeRoundTrip(time: real)
    requires 0.0 <= time
    ensures ParseClock(FormatTime(time)) == Some(time.Floor)
  {
    var m := (time / 60.0).Floor;
    var s := time.Floor - 60 * m;
    assert 0 <= m && 0 <= s < 60;
    ClockTextRoundTrip(m, s);
  }

  /** The case the player shows: a whole number of seconds `t` reads back as `t`. */
  lemma FormatWholeSecondsRoundTrip(t: nat)
    ensures ParseClock(FormatTime(t as real)) == Some(t)
  {
    FormatTimeRoundTrip(t as real);
  }

  // ---------------------------------------------------------------------
  // The player's state
  // ---------------------------------------------------------------------

  /** The call the track-change effect makes on the audio element. */
  datatype AudioCall = NoCall | PlayCall | PauseCall

  class Player {
    /** `tracks.length`: the catalog is fixed when the player starts. */
    const trackCount: nat
    /** Whether `audioRef.current` holds the `<audio>` element. */
    const hasElement: bool

    var index: nat
    var isPlaying: bool
    var isShuffle: bool
    var repeatMode: RepeatMode
    /** The audio element's `currentTime`, in seconds. */
    var position: real
    /** Whether `audioContextRef.current` holds an audio graph. */
    var hasAudioGraph: bool
    /** How many times an audio graph (context, analyser and media source) was built. */
    var graphsBuilt: nat
    /** `lastTrackIndexRef.current`: the track last loaded into the element. */
    var lastLoaded: Option<nat>

    ghost predicate Valid()
      reads this
    {
      && 0 < trackCount
      && index < trackCount
      && 0.0 <= position
      && (lastLoaded.Some? ==> lastLoaded.value < trackCount)
      && graphsBuilt == (if hasAudioGraph then 1 else 0)
      && (hasAudioGraph ==> hasElement)
    }

    constructor (trackCount: nat, hasElement: bool)
      requires 0 < trackCount
      ensures Valid()
      ensures this.trackCount == trackCount && this.hasElement == hasElement
      ensures index == 0 && !isPlaying && !isShuffle && repeatMode == Off
      ensures position == 0.0 && !hasAudioGraph && graphsBuilt == 0 && lastLoaded == None
    {
      this.trackCount := trackCount;
      this.hasElement := hasElement;
      index := 0;
      isPlaying := false;
      isShuffle := false;
      repeatMode := Off;
      position := 0.0;
      hasAudioGraph := false;
      graphsBuilt := 0;
      lastLoaded := None;
    }

    /** `setupAudioContext`: builds the graph only when there is none yet
        and the audio element exists. */
    method SetupAudioContext()
      requires Valid()
      modifies this`hasAudioGraph, this`graphsBuilt
      ensures Valid()
      ensures hasAudioGraph == (old(hasAudioGraph) || hasElement)
      ensures graphsBuilt == old(graphsBuilt) + (if !old(hasAudioGraph) && hasElement then 1 else 0)
    {
      if !hasAudioGraph && hasElement {
        hasAudioGraph := true;
        graphsBuilt := graphsBuilt + 1;
      }
    }

    /** `handlePlayPause`: builds the audio graph on first use and flips the
        playing flag. However often it is pressed, at most one graph is built
        (Valid keeps `graphsBuilt <= 1`). */
    method PlayPause()
      requires Valid()
      modifies this`hasAudioGraph, this`graphsBuilt, this`isPlaying
      ensures Valid()
      ensures isPlaying == !old(isPlaying)
      ensures hasAudioGraph == (old(hasAudioGraph) || hasElement)
      ensures old(hasAudioGraph) ==> graphsBuilt == old(graphsBuilt)
    {
      if !hasAudioGraph {
        SetupAudioContext();
      }
      isPlaying := !isPlaying;
    }

    /** `handleNext`: the following track, or a shuffled one taken from the
        drawn values `draws` (`used` of them are consumed). */
    method Next(draws: seq<real>) returns (used: nat)
      requires Valid()
      requires isShuffle ==> (forall k :: 0 <= k < |draws| ==> IsRandom(draws[k]))
      requires isShuffle ==> ShuffleEnds(draws, trackCount, index)
      modifies this`index
      ensures Valid()
      ensures !isShuffle ==> index == NextIndex(old(index), trackCount) && used == 0
      ensures isShuffle ==> 0 < used <= |draws| && index == DrawIndex(draws[used - 1], trackCount)
      ensures isShuffle ==> forall k :: 0 <= k < used - 1 ==> DrawIndex(draws[k], trackCount) == old(index)
      ensures isShuffle && 1 < trackCount ==> index != old(index)
      ensures isShuffle && trackCount == 1 ==> index == 0
    {
      if isShuffle {
        var next;
        next, used := ShuffleDraw(draws, trackCount, index);
        index := next;
      } else {
        index := NextIndex(index, trackCount);
        used := 0;
      }
    }

    /** `handlePrev`: past the first three seconds it rewinds the track;
        otherwise it steps back one track. */
    method Prev()
      requires Valid()
      modifies this`index, this`position
      ensures Valid()
      ensures hasElement && old(position) > 3.0 ==> position == 0.0 && index == old(index)
      ensures !(hasElement && old(position) > 3.0) ==>
                index == PrevIndex(old(index), trackCount) && position == old(position)
    {
      if hasElement && position > 3.0 {
        position := 0.0;
      } else {
        index := PrevIndex(index, trackCount);
      }
    }

    /** `toggleRepeat`. */
    method ToggleRepeat()
      requires Valid()
      modifies this`repeatMode
      ensures Valid()
      ensures repeatMode == NextRepeatMode(old(repeatMode))
    {
      var i := ModeIndex(repeatMode);
      repeatMode := REPEAT_MODES[(i + 1) % |REPEAT_MODES|];
    }

    /** `toggleShuffle`. */
    method ToggleShuffle()
      requires Valid()
      modifies this`isShuffle
      ensures Valid()
      ensures isShuffle == !old(isShuffle)
    {
      isShuffle := !isShuffle;
    }

    /** `handleTrackSelect`: a track picked from the queue starts playing. */
    method SelectTrack(i: nat)
      requires Valid()
      requires i < trackCount
      modifies this`index, this`isPlaying
      ensures Valid()
      ensures index == i && isPlaying
    {
      index := i;
      isPlaying := true;
    }

    /** `handleSeek`: moves the element's playback position. */
    method Seek(t: real)
      requires Valid()
      requires 0.0 <= t
      modifies this`position
      ensures Valid()
      ensures position == if hasElement then t else old(position)
    {
      if hasElement {
        position := t;
      }
    }

    /** `handleClose`: stops playing and rewinds the element. */
    method Close()
      requires Valid()
      modifies this`isPlaying, this`position
      ensures Valid()
      ensures !isPlaying
      ensures position == if hasElement then 0.0 else old(position)
    {
      isPlaying := false;
      if hasElement {
        position := 0.0;
      }
    }

    /** `handleSongEnd`, run when the element reports the end of the track. */
    method SongEnd(draws: seq<real>) returns (action: EndAction)
      requires Valid()
      requires isShuffle && SongEndAction(repeatMode, index, trackCount) == Advance ==>
                 (forall k :: 0 <= k < |draws| ==> IsRandom(draws[k])) &&
                 ShuffleEnds(draws, trackCount, index)
      modifies this`index, this`position, this`isPlaying
      ensures Valid()
      ensures action == SongEndAction(old(repeatMode), old(index), trackCount)
      ensures action == Replay ==>
                index == old(index) && isPlaying == old(isPlaying) &&
                position == (if hasElement then 0.0 else old(position))
      ensures action == Advance && !isShuffle ==>
                index == NextIndex(old(index), trackCount) && position == old(position) &&
                isPlaying == old(isPlaying)
      ensures action == Advance && isShuffle ==>
                index < trackCount && (1 < trackCount ==> index != old(index)) &&
                position == old(position) && isPlaying == old(isPlaying)
      ensures action == Stop ==> !isPlaying && index == old(index) && position == old(position)
    {
      if repeatMode == One {
        action := Replay;
        if hasElement {
          position := 0.0;
        }
      } else if repeatMode == All || index != trackCount - 1 {
        action := Advance;
        var _ := Next(draws);
      } else {
        action := Stop;
        isPlaying := false;
      }
    }

    /** The effect that runs when the track or the playing flag changes:
        it reloads the element exactly when the track differs from the one
        last loaded (a reload rewinds the element), then plays or pauses it.
        `playRejected` is the outcome of the `play()` promise; a rejection
        turns the playing flag off. */
    method SyncTrack(playRejected: bool) returns (loaded: bool, call: AudioCall)
      requires Valid()
      modifies this`lastLoaded, this`position, this`isPlaying
      ensures Valid()
      ensures loaded == (hasElement && old(lastLoaded) != Some(index))
      ensures hasElement ==> lastLoaded == Some(index)
      ensures !hasElement ==> lastLoaded == old(lastLoaded)
      ensures position == if loaded then 0.0 else old(position)
      ensures call == if !hasElement then NoCall else if old(isPlaying) then PlayCall else PauseCall
      ensures isPlaying == (old(isPlaying) && !(hasElement && playRejected))
    {
      loaded := false;
      call := NoCall;
      if hasElement {
        var trackHasChanged := lastLoaded != Some(index);
        if trackHasChanged {
          lastLoaded := Some(index);
          position := 0.0;
          loaded := true;
        }
        if isPlaying {
          call := PlayCall;
          if playRejected {
            isPlaying := false;
          }
        } else {
          call := PauseCall;
        }
      }
    }
  }
}
