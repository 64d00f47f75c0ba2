/** The editor page's state and its event handlers: loading and removing
    media, the play/pause/reset controls with their interval timer, dragging,
    resizing, selection and the sidebar fields. */
module Editor {
  import Geometry
  import Playback
  import Sidebar

  datatype Option<T> = None | Some(value: T)

  /** A dropped file: only its MIME type matters here. */
  datatype MediaFile = MediaFile(name: string, mimeType: string)

  /** A resize in progress: the handle pressed, the pointer and the size at
      pointer-down, as the document-level move listener captured them. */
  datatype ResizeGesture = ResizeGesture(handle: Geometry.Handle, startPointer: Geometry.Point, startSize: Geometry.Size)

  /** `s.startsWith(prefix)`. */
  function StartsWith(s: string, prefix: string): (r: bool)
    ensures r <==> |prefix| <= |s| && s[..|prefix|] == prefix
  {
    if prefix == [] then true
    else if s == [] then false
    else if s[0] != prefix[0] then false
    else
      var rest := StartsWith(s[1..], prefix[1..]);
      assert rest ==> s[..|prefix|] == [s[0]] + s[1..][..|prefix| - 1];
      assert |prefix| <= |s| && s[..|prefix|] == prefix ==> s[1..][..|prefix| - 1] == prefix[1..];
      rest
  }

  /** The page component. Besides its state, the object holds the host's
      registry of live interval timers (`liveTimers`, handles drawn from
      `nextTimer`) and the range the running interval's callback captured
      (`playRange`). */
  class Home {
    var file: Option<MediaFile>
    var isVideo: bool
    var mediaSelected: bool
    var dimensions: Geometry.Size
    var position: Geometry.Point
    var timeRange: Playback.Range
    var isPlaying: bool
    var currentTime: int
    var isDragging: bool
    var dragOffset: Geometry.Point
    var isMediaVisible: bool
    /** The handle last returned by `setInterval`; never cleared back to null. */
    var timerRef: Option<nat>
    var liveTimers: set<nat>
    var nextTimer: nat
    var playRange: Playback.Range
    var resizing: Option<ResizeGesture>

    /** The playback part of the state. */
    function Clock(): Playback.Clock
      reads this`isPlaying, this`currentTime, this`isMediaVisible, this`playRange
    {
      Playback.Clock(isPlaying, currentTime, isMediaVisible, playRange)
    }

    /** An interval is live exactly while playing, it is the one `timerRef`
        names, and the cursor keeps the clock's invariant. */
    ghost predicate Valid()
      reads this`isPlaying, this`currentTime, this`isMediaVisible, this`playRange,
            this`timerRef, this`liveTimers, this`nextTimer
    {
      (isPlaying ==> timerRef.Some? && liveTimers == {timerRef.value}) &&
      (!isPlaying ==> liveTimers == {}) &&
      (forall t :: t in liveTimers ==> t < nextTimer) &&
      Playback.Inv(Clock())
    }

    /** At most one interval is ever live, and one is live iff playing. */
    lemma AtMostOneTimer()
      requires Valid()
      ensures |liveTimers| <= 1
      ensures liveTimers != {} <==> isPlaying
    {
    }

    /** The initial state of every field. */
    constructor ()
      ensures Valid()
      ensures file == None && !isVideo && !mediaSelected
      ensures dimensions == Geometry.Size(400, 300) && position == Geometry.Point(0, 0)
      ensures timeRange == Playback.Range(0, 50)
      ensures !isPlaying && currentTime == 0 && isMediaVisible
      ensures !isDragging && dragOffset == Geometry.Point(0, 0) && resizing == None
      ensures timerRef == None && liveTimers == {}
    {
      file := None;
      isVideo := false;
      mediaSelected := false;
      dimensions := Geometry.Size(400, 300);
      position := Geometry.Point(0, 0);
      timeRange := Playback.Range(0, 50);
      isPlaying := false;
      currentTime := 0;
      isDragging := false;
      dragOffset := Geometry.Point(0, 0);
      isMediaVisible := true;
      timerRef := None;
      liveTimers := {};
      nextTimer := 0;
      playRange := Playback.Range(0, 50);
      resizing := None;
    }

    /** `if (timerRef.current) clearInterval(timerRef.current)`: the one
        cancellation routine. The handle itself is kept. */
    method ClearTimer()
      modifies this`liveTimers
      ensures liveTimers == if timerRef.Some? then old(liveTimers) - {timerRef.value} else old(liveTimers)
    {
      if timerRef.Some? {
        liveTimers := liveTimers - {timerRef.value};
      }
    }

    /** A file dropped on the drop zone (which passes only accepted files, at
        least one). The first file is loaded; playback, if running, is
        stopped; dimensions, the time range and the selection stay. */
    method HandleDrop(files: seq<MediaFile>)
      requires Valid() && |files| > 0
      modifies this`file, this`isVideo, this`currentTime, this`position,
               this`isMediaVisible, this`isPlaying, this`liveTimers
      ensures Valid() && liveTimers == {}
      ensures file == Some(files[0])
      ensures isVideo <==> StartsWith(files[0].mimeType, "video/")
      ensures position == Geometry.Point(0, 0)
      ensures Clock() == Playback.Discard(old(Clock()))
    {
      var uploaded := files[0];
      file := Some(uploaded);
      isVideo := StartsWith(uploaded.mimeType, "video/");
      currentTime := 0;
      position := Geometry.Point(0, 0);
      isMediaVisible := true;
      if isPlaying {
        ClearTimer();
        isPlaying := false;
      }
    }

    /** The play/pause button. Pausing cancels the interval and keeps the
        cursor and visibility; playing rewinds, shows the media, captures the
        current range and starts exactly one new interval. */
    method TogglePlayback()
      requires Valid()
      modifies this`isPlaying, this`currentTime, this`isMediaVisible, this`timerRef,
               this`liveTimers, this`nextTimer, this`playRange
      ensures Valid()
      ensures Clock() == Playback.Toggle(old(Clock()), timeRange)
      ensures old(isPlaying) ==> liveTimers == {} && timerRef == old(timerRef)
      ensures !old(isPlaying) ==> timerRef == Some(old(nextTimer)) && liveTimers == {old(nextTimer)}
    {
      if isPlaying {
        ClearTimer();
        isPlaying := false;
      } else {
        currentTime := timeRange.start;
        isMediaVisible := true;
        timerRef := Some(nextTimer);
        liveTimers := liveTimers + {nextTimer};
        nextTimer := nextTimer + 1;
        playRange := timeRange;
        isPlaying := true;
      }
    }

    /** One firing of the live interval `id`. At or past the captured end it
        cancels itself, stops and hides; otherwise it advances one tenth. */
    method Tick(id: nat)
      requires Valid() && id in liveTimers
      modifies this`isPlaying, this`currentTime, this`isMediaVisible, this`liveTimers
      ensures Valid()
      ensures Clock() == Playback.Tick(old(Clock()))
      ensures liveTimers == if isPlaying then old(liveTimers) else {}
    {
      if currentTime >= playRange.end {
        ClearTimer();
        isPlaying := false;
        isMediaVisible := false;
        currentTime := playRange.start;
      } else {
        currentTime := currentTime + Playback.Step;
      }
    }

    /** The reset button: whatever the prior state, no interval is live,
        playback is stopped, the cursor is at the current range's start and
        the media is shown. */
    method ResetTimer()
      requires Valid()
      modifies this`isPlaying, this`currentTime, this`isMediaVisible, this`liveTimers
      ensures Valid() && liveTimers == {}
      ensures Clock() == Playback.Reset(old(Clock()), timeRange)
    {
      ClearTimer();
      isPlaying := false;
      currentTime := timeRange.start;
      isMediaVisible := true;
    }

    /** The Remove Media button. Dimensions, the time range and the
        selection stay as they are. */
    method RemoveMedia()
      requires Valid()
      modifies this`file, this`isVideo, this`liveTimers, this`isPlaying,
               this`currentTime, this`position, this`isMediaVisible
      ensures Valid() && liveTimers == {}
      ensures file == None && !isVideo
      ensures position == Geometry.Point(0, 0)
      ensures Clock() == Playback.Discard(old(Clock()))
    {
      file := None;
      isVideo := false;
      ClearTimer();
      isPlaying := false;
      currentTime := 0;
      position := Geometry.Point(0, 0);
      isMediaVisible := true;
    }

    /** Pointer-down on the media: record the grab offset against the
        container's origin, start dragging and select the media. */
    method MediaMouseDown(pointer: Geometry.Point, origin: Geometry.Point)
      modifies this`dragOffset, this`isDragging, this`mediaSelected
      ensures dragOffset == Geometry.GrabOffset(pointer, origin, position)
      ensures isDragging && mediaSelected
    {
      dragOffset := Geometry.GrabOffset(pointer, origin, position);
      isDragging := true;
      mediaSelected := true;
    }

    /** Pointer-move anywhere in the document: while dragging, the media goes
        to the pointer less the grab offset, clamped into the container
        measured now. */
    method MouseMove(pointer: Geometry.Point, origin: Geometry.Point, container: Geometry.Size)
      modifies this`position
      ensures isDragging ==> position == Geometry.DragTo(pointer, origin, dragOffset, container, dimensions)
      ensures !isDragging ==> position == old(position)
    {
      if isDragging {
        position := Geometry.DragTo(pointer, origin, dragOffset, container, dimensions);
      }
    }

    /** Pointer-up ends a drag; the selection stays. */
    method MouseUp()
      modifies this`isDragging
      ensures !isDragging
    {
      isDragging := false;
    }

    /** Pointer-down on a resize handle: capture the pointer and the current
        size and listen for moves. The event does not reach the media, so no
        drag starts. */
    method BeginResize(handle: Geometry.Handle, pointer: Geometry.Point)
      modifies this`resizing
      ensures resizing == Some(ResizeGesture(handle, pointer, dimensions))
    {
      resizing := Some(ResizeGesture(handle, pointer, dimensions));
    }

    /** Pointer-move during a resize: the size is a function of the handle,
        the size at pointer-down and the pointer's movement since then. The
        position is not re-clamped. */
    method ResizeMove(pointer: Geometry.Point)
      modifies this`dimensions
      ensures resizing.Some? ==> dimensions == Geometry.Resize(resizing.value.handle, resizing.value.startSize,
                                                             Geometry.Delta(resizing.value.startPointer, pointer))
      ensures resizing.None? ==> dimensions == old(dimensions)
    {
      if resizing.Some? {
        var g := resizing.value;
        dimensions := Geometry.Resize(g.handle, g.startSize, Geometry.Delta(g.startPointer, pointer));
      }
    }

    /** Pointer-up during a resize removes its listeners. */
    method EndResize()
      modifies this`resizing
      ensures resizing == None
    {
      resizing := None;
    }

    /** Pointer-down anywhere in the document: outside the container it
        deselects the media, inside it leaves the selection alone. */
    method ClickOutside(insideContainer: bool)
      modifies this`mediaSelected
      ensures mediaSelected <==> old(mediaSelected) && insideContainer
    {
      if !insideContainer {
        mediaSelected := false;
      }
    }

    method ChangeWidth(n: Sidebar.Numeric)
      modifies this`dimensions
      ensures dimensions == Sidebar.WidthChanged(old(dimensions), n)
    {
      dimensions := Sidebar.WidthChanged(dimensions, n);
    }

    method ChangeHeight(n: Sidebar.Numeric)
      modifies this`dimensions
      ensures dimensions == Sidebar.HeightChanged(old(dimensions), n)
    {
      dimensions := Sidebar.HeightChanged(dimensions, n);
    }

    /** Editing the range never touches the running clock: the interval keeps
        the range it captured. */
    method ChangeStart(n: Sidebar.Numeric)
      modifies this`timeRange
      ensures timeRange == Sidebar.StartChanged(old(timeRange), n)
    {
      timeRange := Sidebar.StartChanged(timeRange, n);
    }

    method ChangeEnd(n: Sidebar.Numeric)
      modifies this`timeRange
      ensures timeRange == Sidebar.EndChanged(old(timeRange), n)
    {
      timeRange := Sidebar.EndChanged(timeRange, n);
    }
  }

  /** Play, then pause at once: stopped, no interval left live, cursor at
      the range's start and the media shown. */
  method PlayThenPause(h: Home)
    requires h.Valid() && !h.isPlaying
    modifies h
    ensures h.Valid() && !h.isPlaying && h.liveTimers == {}
    ensures h.currentTime == h.timeRange.start && h.isMediaVisible
  {
    h.TogglePlayback();
    h.TogglePlayback();
  }

  /** Editing the End Time field while playing does not move the end the
      running interval checks against. */
  method EditEndWhilePlaying(h: Home, n: Sidebar.Numeric)
    requires h.Valid() && h.isPlaying
    modifies h
    ensures h.Valid() && h.Clock() == old(h.Clock())
    ensures h.timeRange == Sidebar.EndChanged(old(h.timeRange), n)
  {
    h.ChangeEnd(n);
  }
}
