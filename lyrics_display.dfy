/** The lyrics pane of components/LyricsDisplay.tsx: which line is active
    at the current playback time, how every line is shown relative to it,
    and the marker of the line last scrolled to. */
module LyricsDisplay {
  import opened Types

  /** The `findIndex` predicate: line `k` has started and the next line,
      if there is one, has not. */
  predicate IsActiveAt(lyrics: seq<LyricLine>, k: nat, t: real)
    requires k < |lyrics|
  {
    lyrics[k].time <= t && (k + 1 == |lyrics| || t < lyrics[k + 1].time)
  }

  /** `findIndex` from position `from` on. */
  function FindFrom(lyrics: seq<LyricLine>, t: real, from: nat): (k: int)
    requires from <= |lyrics|
    ensures k == -1 || from <= k < |lyrics|
    ensures k != -1 ==> IsActiveAt(lyrics, k, t)
    ensures k != -1 ==> forall j :: from <= j < k ==> !IsActiveAt(lyrics, j, t)
    ensures k == -1 ==> forall j :: from <= j < |lyrics| ==> !IsActiveAt(lyrics, j, t)
    decreases |lyrics| - from
  {
    if from == |lyrics| then -1
    else if IsActiveAt(lyrics, from, t) then from
    else FindFrom(lyrics, t, from + 1)
  }

  /** `activeLyricIndex`: the first line whose interval [time_k, time_k+1)
      holds `t` (the last line's interval is open-ended), or -1 when there
      is none. */
  function ActiveLyricIndex(lyrics: seq<LyricLine>, t: real): (k: int)
    ensures -1 <= k < |lyrics|
    ensures |lyrics| == 0 ==> k == -1
    ensures 0 <= k ==> IsActiveAt(lyrics, k, t)
    ensures 0 <= k ==> forall j :: 0 <= j < k ==> !IsActiveAt(lyrics, j, t)
    ensures k == -1 <==> forall j :: 0 <= j < |lyrics| ==> !IsActiveAt(lyrics, j, t)
  {
    FindFrom(lyrics, t, 0)
  }

  /** The catalog's lyrics are listed in order of their times. */
  ghost predicate NonDecreasing(lyrics: seq<LyricLine>)
  {
    forall i, j :: 0 <= i <= j < |lyrics| ==> lyrics[i].time <= lyrics[j].time
  }

  lemma {:induction false} ActiveFromLine(lyrics: seq<LyricLine>, t: real, i: nat)
    requires i < |lyrics| && lyrics[i].time <= t
    ensures exists k :: i <= k < |lyrics| && IsActiveAt(lyrics, k, t)
    decreases |lyrics| - i
  {
    if !IsActiveAt(lyrics, i, t) {
      ActiveFromLine(lyrics, t, i + 1);
    }
  }

  /** Once the first line has started some line is active, whatever the
      order of the times. */
  lemma SomeLineActive(lyrics: seq<LyricLine>, t: real)
    requires 0 < |lyrics| && lyrics[0].time <= t
    ensures ActiveLyricIndex(lyrics, t) != -1
  {
    ActiveFromLine(lyrics, t, 0);
  }

  /** With ordered times, no line is active before the first one starts. */
  lemma NoLineBeforeFirst(lyrics: seq<LyricLine>, t: real)
    requires NonDecreasing(lyrics)
    requires 0 < |lyrics| && t < lyrics[0].time
    ensures ActiveLyricIndex(lyrics, t) == -1
  {
  }

  /** With ordered times, some line is active exactly when the first line
      has started. */
  lemma ActiveIffStarted(lyrics: seq<LyricLine>, t: real)
    requires NonDecreasing(lyrics)
    ensures ActiveLyricIndex(lyrics, t) != -1 <==> 0 < |lyrics| && lyrics[0].time <= t
  {
    if 0 < |lyrics| {
      if lyrics[0].time <= t {
        SomeLineActive(lyrics, t);
      } else {
        NoLineBeforeFirst(lyrics, t);
      }
    }
  }

  /** With ordered times, once the last line has started it is the active one. */
  lemma LastLineAfterItsTime(lyrics: seq<LyricLine>, t: real)
    requires NonDecreasing(lyrics)
    requires 0 < |lyrics| && lyrics[|lyrics| - 1].time <= t
    ensures ActiveLyricIndex(lyrics, t) == |lyrics| - 1
  {
    var last := |lyrics| - 1;
    forall j | 0 <= j < last
      ensures !IsActiveAt(lyrics, j, t)
    {
      assert lyrics[j + 1].time <= lyrics[last].time;
    }
    assert IsActiveAt(lyrics, last, t);
  }

  /** The lyrics of the catalog's first track, whose times strictly increase. */
  const CATALOG_TRACK_ONE: seq<LyricLine> :=
    [LyricLine(5.0, "(Verse 1)"),
     LyricLine(8.0, "Rainy days and coffee cups"),
     LyricLine(12.0, "City nights and neon lights"),
     LyricLine(16.0, "Just a chill beat on repeat"),
     LyricLine(20.0, "Feeling cozy, feeling right"),
     LyricLine(24.0, "(Chorus)"),
     LyricLine(27.0, "Oh, lofi dreams and mellow scenes"),
     LyricLine(31.0, "Got my headphones, in my zone"),
     LyricLine(35.0, "Just vibing out, no need to shout"),
     LyricLine(39.0, "In this moment, I'm at home")]

  /** Before 5 s nothing is active; at 10 s the second line is; at 30 s the
      line starting at 27 s is; from 39 s on the last one is. */
  lemma CatalogTrackOne()
    ensures ActiveLyricIndex(CATALOG_TRACK_ONE, 4.5) == -1
    ensures ActiveLyricIndex(CATALOG_TRACK_ONE, 10.0) == 1
    ensures ActiveLyricIndex(CATALOG_TRACK_ONE, 30.0) == 6
    ensures ActiveLyricIndex(CATALOG_TRACK_ONE, 45.0) == 9
  {
    var lyrics := CATALOG_TRACK_ONE;
    assert NonDecreasing(lyrics);
    NoLineBeforeFirst(lyrics, 4.5);
    assert IsActiveAt(lyrics, 1, 10.0);
    assert !IsActiveAt(lyrics, 0, 10.0);
    assert IsActiveAt(lyrics, 6, 30.0);
    forall j | 0 <= j < 6
      ensures !IsActiveAt(lyrics, j, 30.0)
    {
      assert lyrics[j + 1].time <= lyrics[6].time;
    }
    LastLineAfterItsTime(lyrics, 45.0);
  }

  // ---------------------------------------------------------------------
  // How each line is shown
  // ---------------------------------------------------------------------

  datatype LineState = Past | Active | Upcoming

  /** `isActive ? ... : isPast ? ... : ...` for the line at `index`. */
  function Classify(index: nat, active: int): (s: LineState)
    ensures s == Active <==> index == active
    ensures s == Past <==> index < active
    ensures s == Upcoming <==> active < index
  {
    var isActive := index == active;
    var isPast := index < active;
    if isActive then Active else if isPast then Past else Upcoming
  }

  /** `lyrics.map(...)`: the state of every line, in order. */
  function LineStates(lyrics: seq<LyricLine>, active: int): (states: seq<LineState>)
    ensures |states| == |lyrics|
    ensures forall i :: 0 <= i < |states| ==> states[i] == Classify(i, active)
  {
    seq(|lyrics|, i requires 0 <= i < |lyrics| => Classify(i, active))
  }

  /** When no line is active, every line is shown as upcoming: none is past. */
  lemma NoActiveNoPast(lyrics: seq<LyricLine>)
    ensures forall i :: 0 <= i < |lyrics| ==> LineStates(lyrics, -1)[i] == Upcoming
  {
  }

  /** With ordered times, a line is shown as past or active exactly when it
      has started by time `t`. */
  lemma ShownAsStartedIffStarted(lyrics: seq<LyricLine>, t: real, i: nat)
    requires NonDecreasing(lyrics)
    requires i < |lyrics|
    ensures Classify(i, ActiveLyricIndex(lyrics, t)) != Upcoming <==> lyrics[i].time <= t
  {
    var k := ActiveLyricIndex(lyrics, t);
    if k == -1 {
      ActiveIffStarted(lyrics, t);
      assert lyrics[0].time <= lyrics[i].time;
    } else if i <= k {
      assert lyrics[i].time <= lyrics[k].time;
    } else {
      assert lyrics[k + 1].time <= lyrics[i].time;
    }
  }

  // ---------------------------------------------------------------------
  // The line last scrolled to
  // ---------------------------------------------------------------------

  /** `lastActiveIndex`: the ref the scroll effect consults. */
  class ActiveLineMarker {
    var lastActive: Option<int>

    ghost predicate Valid()
      reads this
    {
      lastActive.Some? ==> 0 <= lastActive.value
    }

    constructor ()
      ensures Valid() && lastActive == None
    {
      lastActive := None;
    }

    /** The effect run when `activeLyricIndex` changes to `k`: it scrolls to
        the active line and records it only for a real line other than the
        one recorded. */
    method OnActiveIndex(k: int) returns (scroll: bool)
      requires Valid()
      requires -1 <= k
      modifies this
      ensures Valid()
      ensures scroll == (k != -1 && old(lastActive) != Some(k))
      ensures lastActive == if scroll then Some(k) else old(lastActive)
    {
      scroll := false;
      if k != -1 && lastActive != Some(k) {
        scroll := true;
        lastActive := Some(k);
      }
    }
  }
}
