/** The timed-playback clock of the editor, as values. Time is counted in
    tenths of a second; one interval tick (every 100 ms) advances the cursor
    by one tenth. */
module Playback {
  import Geometry

  /** A time range in tenths of a second, as the sidebar fields hold it. */
  datatype Range = Range(start: int, end: int)

  /** The observable playback state: whether an interval is running, the time
      cursor, whether the media is shown, and the range the running
      interval's callback captured when playback started. */
  datatype Clock = Clock(playing: bool, time: int, visible: bool, playRange: Range)

  /** One tick of the interval: 0.1 s. */
  const Step: int := 1

  /** While playing, the cursor lies between the captured start and the later
      of the captured start and end. */
  predicate Inv(c: Clock) {
    c.playing ==> c.playRange.start <= c.time <= Geometry.Max(c.playRange.start, c.playRange.end)
  }

  /** Starting playback: rewind to the range's start, show the media, and
      capture the range for the interval's callback. */
  function Start(range: Range): (r: Clock)
    ensures r.playing && r.visible && r.time == range.start && r.playRange == range
    ensures Inv(r)
  {
    Clock(true, range.start, true, range)
  }

  /** The play/pause button. Pausing keeps the cursor and the visibility
      where they are; playing starts afresh from the current range. */
  function Toggle(c: Clock, range: Range): (r: Clock)
    ensures r.playing <==> !c.playing
    ensures c.playing ==> r.time == c.time && r.visible == c.visible && r.playRange == c.playRange
    ensures !c.playing ==> r.time == range.start && r.visible && r.playRange == range
    ensures Inv(r)
  {
    if c.playing then c.(playing := false) else Start(range)
  }

  /** The interval callback. It compares the cursor with the captured end
      BEFORE advancing, so the cursor reaches the end and only the following
      tick stops playback, hides the media and rewinds to the captured start. */
  function Tick(c: Clock): (r: Clock)
    requires c.playing
    ensures r.playRange == c.playRange
    ensures r.playing <==> c.time < c.playRange.end
    ensures r.playing ==> r.time == c.time + Step && r.visible == c.visible
    ensures !r.playing ==> r.time == c.playRange.start && !r.visible
    ensures Inv(c) ==> Inv(r)
  {
    if c.time >= c.playRange.end then
      Clock(false, c.playRange.start, false, c.playRange)
    else
      c.(time := c.time + Step)
  }

  /** The clock after `n` firings of the interval. A cancelled interval does
      not fire, so once stopped the clock stays as it is. */
  function Run(c: Clock, n: nat): (r: Clock)
    ensures r.playRange == c.playRange
    ensures !c.playing ==> r == c
    ensures Inv(c) ==> Inv(r)
    decreases n
  {
    if n == 0 || !c.playing then c else Run(Tick(c), n - 1)
  }

  /** The reset button: stop, rewind to the current range's start and show
      the media, whatever the clock was doing. */
  function Reset(c: Clock, range: Range): (r: Clock)
    ensures !r.playing && r.visible && r.time == range.start
    ensures r.playRange == c.playRange
  {
    Clock(false, range.start, true, c.playRange)
  }

  /** Loading a new file or removing the current one: stop, rewind to 0
      (not to the range's start) and show the media. */
  function Discard(c: Clock): (r: Clock)
    ensures !r.playing && r.visible && r.time == 0
    ensures r.playRange == c.playRange
  {
    Clock(false, 0, true, c.playRange)
  }

  /** While the cursor stays at or below the captured end, each tick advances
      it by exactly one step and playback continues. */
  lemma {:induction false} RunBelowEnd(c: Clock, k: nat)
    requires c.playing && c.time + k <= c.playRange.end
    ensures Run(c, k) == c.(time := c.time + k)
    decreases k
  {
    if k > 0 {
      assert Tick(c) == c.(time := c.time + 1);
      RunBelowEnd(Tick(c), k - 1);
    }
  }

  /** Running `k + 1` ticks is running `k` and then one more, if the
      interval is still live. */
  lemma {:induction false} RunStep(c: Clock, k: nat)
    ensures Run(c, k + 1) == (var d := Run(c, k); if d.playing then Tick(d) else d)
    decreases k
  {
    if k > 0 && c.playing {
      RunStep(Tick(c), k - 1);
    }
  }

  /** From a start with start <= end, playback is still on and shown after
      every k <= end - start ticks, with the cursor at start + k. */
  lemma PlayingThroughRange(range: Range, k: nat)
    requires range.start + k <= range.end
    ensures Run(Start(range), k) == Clock(true, range.start + k, true, range)
  {
    RunBelowEnd(Start(range), k);
  }

  /** Play once then hide: the tick after the cursor reached the end (tick
      number end - start + 1) stops playback, hides the media and rewinds
      the cursor to start. */
  lemma StopsOnTickAfterEnd(range: Range)
    requires range.start <= range.end
    ensures Run(Start(range), range.end - range.start + 1) == Clock(false, range.start, false, range)
  {
    var n := range.end - range.start;
    RunBelowEnd(Start(range), n);
    RunStep(Start(range), n);
  }

  /** Every playing clock that keeps the invariant stops within
      max(start, end) - time + 1 ticks, hidden and rewound to the captured
      start: the interval never runs forever. */
  lemma {:induction false} StopsWithin(c: Clock, n: nat)
    requires Inv(c) && c.playing
    requires n > Geometry.Max(c.playRange.start, c.playRange.end) - c.time
    ensures !Run(c, n).playing && !Run(c, n).visible && Run(c, n).time == c.playRange.start
    decreases n
  {
    if c.time < c.playRange.end {
      StopsWithin(Tick(c), n - 1);
    }
  }

  /** The range 0 s to 2 s: after 20 ticks the cursor is at 2.0 s and the
      clip still plays; the 21st tick stops it, hides it and rewinds to 0. */
  lemma TwoSecondClip()
    ensures Run(Start(Range(0, 20)), 20) == Clock(true, 20, true, Range(0, 20))
    ensures Run(Start(Range(0, 20)), 21) == Clock(false, 0, false, Range(0, 20))
  {
    PlayingThroughRange(Range(0, 20), 20);
    StopsOnTickAfterEnd(Range(0, 20));
  }

  /** The range 1 s to 3 s: after 2.0 s of ticks the cursor is at 3.0 s and
      the clip still plays; one tick later it is hidden, stopped and back
      at 1 s. */
  lemma OneToThreeSeconds()
    ensures Run(Start(Range(10, 30)), 20) == Clock(true, 30, true, Range(10, 30))
    ensures Run(Start(Range(10, 30)), 21) == Clock(false, 10, false, Range(10, 30))
  {
    PlayingThroughRange(Range(10, 30), 20);
    StopsOnTickAfterEnd(Range(10, 30));
  }

  /** Pressing play and then pause at once leaves playback stopped, shown and
      at the range's start. */
  lemma ToggleTwice(c: Clock, range: Range, later: Range)
    requires !c.playing
    ensures Toggle(Toggle(c, range), later) == Clock(false, range.start, true, range)
  {
  }

  /** Reset is idempotent. */
  lemma ResetIdempotent(c: Clock, range: Range)
    ensures Reset(Reset(c, range), range) == Reset(c, range)
  {
  }
}
