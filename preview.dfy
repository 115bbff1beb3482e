/** The karaoke preview (src/components/Preview.jsx).

    For a playback time `t` every lyric line is classified as active or
    past and gets a fill percentage for the colour sweep; a small player
    (`currentTime`, `isPlaying`) is advanced by a wall-clock timer, paused
    and resumed by the play button, moved by the seek slider, and reset
    whenever the editor signals new content. The clock is not read here:
    each step that reads `Date.now()` in the component receives the
    reading `now` (in seconds) as a parameter. */
module Preview {

  /** One lyric line as the preview reads it (`{id, text, start, end}`);
      times are in seconds and nothing forces `start <= end`. */
  datatype Lyric = Lyric(id: int, text: string, start: real, end: real)

  /** The trailing margin after the last line's end before auto-stop. */
  const TrailingMargin: real := 5.0

  /** The slider's fallback maximum when `lastEnd + 5` is 0. */
  const DefaultSliderMax: real := 10.0

  // ---------------------------------------------------------------------
  // Per-line state
  // ---------------------------------------------------------------------

  /** `currentTime >= line.start && currentTime <= line.end` */
  predicate IsActive(line: Lyric, t: real)
  {
    line.start <= t <= line.end
  }

  /** `currentTime > line.end` */
  predicate IsPast(line: Lyric, t: real)
  {
    t > line.end
  }

  /** The width of the coloured mask over a line, in percent. */
  function FillPercentage(line: Lyric, t: real): (r: real)
    ensures 0.0 <= r <= 100.0
    ensures IsPast(line, t) ==> r == 100.0
    ensures !IsPast(line, t) && !IsActive(line, t) ==> r == 0.0
    ensures IsActive(line, t) && line.end > line.start ==>
              r * (line.end - line.start) == (t - line.start) * 100.0
    ensures IsActive(line, t) && line.end == line.start ==> r == 0.0
  {
    if IsPast(line, t) then 100.0
    else if IsActive(line, t) then
      var duration := line.end - line.start;
      if duration > 0.0 then
        RatioAtMostOne(t - line.start, duration);
        (t - line.start) / duration * 100.0
      else 0.0
    else 0.0
  }

  lemma RatioAtMostOne(x: real, d: real)
    requires 0.0 <= x <= d && d > 0.0
    ensures 0.0 <= x / d <= 1.0
  {
  }

  /** A line is never active and past at the same time, and both depend only
      on where `t` lies relative to the line's window. */
  lemma ActiveAndPastExclusive(line: Lyric, t: real)
    ensures !(IsActive(line, t) && IsPast(line, t))
    ensures IsActive(line, t) <==> line.start <= t && t <= line.end
    ensures IsPast(line, t) <==> t > line.end
  {
  }

  /** A line whose end precedes its start is never active, so its fill is
      either empty or full. */
  lemma InvertedLineFill(line: Lyric, t: real)
    requires line.end < line.start
    ensures !IsActive(line, t)
    ensures FillPercentage(line, t) == 0.0 || FillPercentage(line, t) == 100.0
  {
  }

  /** A zero-duration line is active at its instant but shows no fill; the
      fill jumps to full only strictly after it. */
  lemma ZeroDurationLine(line: Lyric, t: real)
    requires line.start == line.end
    ensures IsActive(line, line.start) && FillPercentage(line, line.start) == 0.0
    ensures t > line.end ==> FillPercentage(line, t) == 100.0
    ensures t < line.start ==> FillPercentage(line, t) == 0.0
  {
  }

  /** For a well-formed line the fill never shrinks as time advances. */
  lemma FillMonotone(line: Lyric, t1: real, t2: real)
    requires line.start <= line.end
    requires t1 <= t2
    ensures FillPercentage(line, t1) <= FillPercentage(line, t2)
  {
    var f1, f2 := FillPercentage(line, t1), FillPercentage(line, t2);
    if IsActive(line, t1) && IsActive(line, t2) && line.end > line.start {
      var d := line.end - line.start;
      DivideMonotone(t1 - line.start, t2 - line.start, d);
    }
  }

  lemma DivideMonotone(a: real, b: real, d: real)
    requires a <= b && d > 0.0
    ensures a / d * 100.0 <= b / d * 100.0
  {
    assert b / d - a / d == (b - a) / d;
  }

  // ---------------------------------------------------------------------
  // End of the track
  // ---------------------------------------------------------------------

  /** The largest `end` of a non-empty list of lines (`Math.max(...ends)`). */
  function MaxEnd(lines: seq<Lyric>): (r: real)
    requires |lines| > 0
    ensures forall i :: 0 <= i < |lines| ==> lines[i].end <= r
    ensures exists i :: 0 <= i < |lines| && lines[i].end == r
  {
    if |lines| == 1 then lines[0].end
    else
      var rest := MaxEnd(lines[1..]);
      assert forall i :: 1 <= i < |lines| ==> lines[i] == lines[1..][i - 1];
      if lines[0].end >= rest then lines[0].end else rest
  }

  /** `lastEnd`: the largest `end`, or 0 when there are no lines. */
  function LastEnd(lines: seq<Lyric>): (r: real)
    ensures |lines| == 0 ==> r == 0.0
    ensures forall i :: 0 <= i < |lines| ==> lines[i].end <= r
    ensures |lines| > 0 ==> exists i :: 0 <= i < |lines| && lines[i].end == r
  {
    if |lines| > 0 then MaxEnd(lines) else 0.0
  }

  /** `maxTime || 10`: the seek slider's upper bound. */
  function SliderMax(lines: seq<Lyric>): (r: real)
    ensures r != 0.0
    ensures LastEnd(lines) + TrailingMargin != 0.0 ==> r == LastEnd(lines) + TrailingMargin
  {
    var maxTime := LastEnd(lines) + TrailingMargin;
    if maxTime != 0.0 then maxTime else DefaultSliderMax
  }

  // ---------------------------------------------------------------------
  // The player
  // ---------------------------------------------------------------------

  /** The player's state: the two React state fields plus the anchor `origin`
      (the effect's local `start`, in seconds) that is meaningful only while
      playing. */
  datatype PlayerState = PlayerState(currentTime: real, isPlaying: bool, origin: real)

  /** The effect on `resetTrigger`. */
  function ResetStep(s: PlayerState): (r: PlayerState)
    ensures !r.isPlaying && r.currentTime == 0.0
  {
    s.(isPlaying := false, currentTime := 0.0)
  }

  /** `togglePlay`, together with the effect that runs when `isPlaying`
      turns true and anchors the timer at `now - currentTime`. */
  function ToggleStep(s: PlayerState, now: real): (r: PlayerState)
    ensures r.isPlaying == !s.isPlaying
    ensures r.currentTime == s.currentTime
    ensures r.isPlaying ==> r.origin == now - s.currentTime
  {
    if s.isPlaying then s.(isPlaying := false)
    else PlayerState(s.currentTime, true, now - s.currentTime)
  }

  /** One firing of the interval: the time since the anchor becomes the
      current time, and past `lastEnd + 5` the player stops and rewinds.
      No interval runs while paused. */
  function TickStep(s: PlayerState, now: real, lines: seq<Lyric>): (r: PlayerState)
    ensures !s.isPlaying ==> r == s
    ensures s.isPlaying && now - s.origin > LastEnd(lines) + TrailingMargin ==>
              !r.isPlaying && r.currentTime == 0.0
    ensures s.isPlaying && now - s.origin <= LastEnd(lines) + TrailingMargin ==>
              r.isPlaying && r.currentTime == now - s.origin && r.origin == s.origin
  {
    if !s.isPlaying then s
    else
      var time := now - s.origin;
      if time > LastEnd(lines) + TrailingMargin then s.(currentTime := 0.0, isPlaying := false)
      else s.(currentTime := time)
  }

  /** `handleSeek`: jump to `value`; when playing, the player is stopped and
      restarted, which re-anchors the timer at the restart instant `now`. */
  function SeekStep(s: PlayerState, value: real, now: real): (r: PlayerState)
    ensures r.currentTime == value && r.isPlaying == s.isPlaying
    ensures s.isPlaying ==> r.origin == now - value
  {
    if s.isPlaying then PlayerState(value, true, now - value) else s.(currentTime := value)
  }

  /** Pressing play continues from the paused position: a tick `elapsed`
      seconds after resuming reads `currentTime + elapsed`, not `elapsed`. */
  lemma ResumeContinuesFromPause(s: PlayerState, now: real, elapsed: real, lines: seq<Lyric>)
    requires !s.isPlaying
    requires s.currentTime + elapsed <= LastEnd(lines) + TrailingMargin
    ensures TickStep(ToggleStep(s, now), now + elapsed, lines).currentTime == s.currentTime + elapsed
    ensures TickStep(ToggleStep(s, now), now + elapsed, lines).isPlaying
  {
  }

  /** Seeking while playing moves the clock: a tick `elapsed` seconds after
      the restart reads `value + elapsed`. */
  lemma SeekWhilePlaying(s: PlayerState, value: real, now: real, elapsed: real, lines: seq<Lyric>)
    requires s.isPlaying
    requires value + elapsed <= LastEnd(lines) + TrailingMargin
    ensures TickStep(SeekStep(s, value, now), now + elapsed, lines).currentTime == value + elapsed
  {
  }

  /** After any tick of a playing player the time shown is within the track
      plus its margin, or the player has rewound to 0. */
  lemma TickBounded(s: PlayerState, now: real, lines: seq<Lyric>)
    requires s.isPlaying
    ensures var r := TickStep(s, now, lines);
            r.currentTime <= LastEnd(lines) + TrailingMargin || (r.currentTime == 0.0 && !r.isPlaying)
  {
  }

  /** The component's state fields and the timer's anchor. */
  class Player {
    var currentTime: real
    var isPlaying: bool
    var origin: real

    function State(): PlayerState
      reads this
    {
      PlayerState(currentTime, isPlaying, origin)
    }

    /** `useState(0)` and `useState(false)`. */
    constructor ()
      ensures currentTime == 0.0 && !isPlaying
    {
      currentTime := 0.0;
      isPlaying := false;
      origin := 0.0;
    }

    method ResetOnTrigger()
      modifies this
      ensures State() == ResetStep(old(State()))
    {
      isPlaying := false;
      currentTime := 0.0;
    }

    method TogglePlay(now: real)
      modifies this
      ensures State() == ToggleStep(old(State()), now)
    {
      isPlaying := !isPlaying;
      if isPlaying {
        origin := now - currentTime;
      }
    }

    method OnInterval(now: real, lyrics: seq<Lyric>)
      modifies this
      ensures State() == TickStep(old(State()), now, lyrics)
    {
      if isPlaying {
        var time := now - origin;
        currentTime := time;
        var lastEnd := LastEnd(lyrics);
        if time > lastEnd + TrailingMargin {
          isPlaying := false;
          currentTime := 0.0;
        }
      }
    }

    method HandleSeek(value: real, now: real)
      modifies this
      ensures State() == SeekStep(old(State()), value, now)
    {
      currentTime := value;
      if isPlaying {
        isPlaying := false;
        isPlaying := true;
        origin := now - currentTime;
      }
    }
  }
}
