/**
 * The chromiumsrc element (gstchromiumsrc.cpp): its properties, the
 * start and stop of the browser around READY and PAUSED, and the pull
 * callback that waits for a painted frame and pushes it downstream with
 * its timestamps.
 *
 * The paint callback and stop run on other threads; while the pull
 * callback waits on `frame_cond`, what those threads do is given to it as
 * a schedule of events, each applied as one critical section.
 */
module GstChromiumSrc {
  import opened CLib
  import opened GpuUtils
  import opened ChromiumSrcState
  import opened CefRenderHandler

  /** GST_SECOND, in nanoseconds. */
  const GstSecond: nat := 1_000_000_000

  /** 2^32, the modulus of `gint` arithmetic. */
  const U32: int := 0x1_0000_0000

  // ---------------------------------------------------------------- properties

  /** The framerate setter's clamp: below 1 becomes 1, above 60 becomes 60. */
  function ClampFps(n: int): (fps: int)
    ensures 1 <= fps <= 60
    ensures 1 <= n <= 60 ==> fps == n
  {
    if n < 1 then 1 else if n > 60 then 60 else n
  }

  /** The "url" property: any string, or NULL. */
  method SetUrl(src: ChromiumSrc, value: Option<string>)
    modifies src`url
    ensures src.url == value
  {
    src.url := value;
  }

  /**
   * The "width" property. Its parameter specification allows 1 to
   * G_MAXINT; GObject refuses any other value before the setter runs, so
   * the width stays as it was.
   */
  method SetWidth(src: ChromiumSrc, value: int)
    modifies src`width
    ensures src.width == if 1 <= value <= GINT_MAX then value else old(src.width)
  {
    if 1 <= value <= GINT_MAX {
      src.width := value;
    }
  }

  /** The "height" property, with the same range as the width. */
  method SetHeight(src: ChromiumSrc, value: int)
    modifies src`height
    ensures src.height == if 1 <= value <= GINT_MAX then value else old(src.height)
  {
    if 1 <= value <= GINT_MAX {
      src.height := value;
    }
  }

  /**
   * The "framerate" property is text: `atoi` of it, clamped to 1..60.
   * Setting NULL changes nothing.
   */
  method SetFramerate(src: ChromiumSrc, value: Option<string>)
    modifies src`fpsNum
    ensures value.None? ==> src.fpsNum == old(src.fpsNum)
    ensures value.Some? ==> src.fpsNum == ClampFps(Atoi(value.value))
    ensures 1 <= old(src.fpsNum) <= 60 ==> 1 <= src.fpsNum <= 60
  {
    if value.Some? {
      var fps := Atoi(value.value);
      if fps < 1 {
        fps := 1;
      }
      if fps > 60 {
        fps := 60;
      }
      src.fpsNum := fps;
    }
  }

  /** Reading "framerate" prints the stored rate in decimal; it is never empty and never signed for a valid element. */
  method GetFramerate(src: ChromiumSrc) returns (text: string)
    ensures text == FormatInt(src.fpsNum)
    ensures src.fpsNum >= 0 ==> text != [] && IsDigit(text[0])
  {
    text := FormatInt(src.fpsNum);
  }

  /** Writing back what was read leaves a valid framerate unchanged. */
  lemma FramerateRoundTrip(fps: int)
    requires 1 <= fps <= 60
    ensures ClampFps(Atoi(FormatInt(fps))) == fps
  {
    AtoiFormatInt(fps);
  }

  /** Whatever integer is written as text, reading it back gives the clamped rate. */
  lemma FramerateSetThenGet(n: int)
    ensures FormatInt(ClampFps(Atoi(FormatInt(n)))) == FormatInt(ClampFps(n))
  {
    AtoiFormatInt(n);
  }

  // ---------------------------------------------------------------- frame size

  /** A mathematical integer taken to a `gint`, wrapping as two's-complement hardware does. */
  function WrapGint(x: int): (r: int)
    ensures -GINT_MAX - 1 <= r <= GINT_MAX
    ensures (r - x) % U32 == 0
  {
    var m := x % U32;
    if m > GINT_MAX then m - U32 else m
  }

  /** A `gint` widened to `gsize`: negative values sign-extend to 64 bits. */
  function GintToGsize(x: int): nat
    requires -GINT_MAX - 1 <= x <= GINT_MAX
  {
    if x < 0 then x + U64 else x
  }

  /** `src->width * src->height * 4` as written: the product is formed in `gint` before it is stored in the `gsize` field. */
  function FrameSizeAsWritten(width: int, height: int): nat {
    GintToGsize(WrapGint(width * height * 4))
  }

  /** The evidently intended size: four bytes per BGRA pixel, computed in `gsize`. */
  function FrameSize(width: int, height: int): nat {
    (width * height * 4) % U64
  }

  /** For every width and height the properties accept, the intended size is exact and positive. */
  lemma FrameSizeExact(width: int, height: int)
    requires 1 <= width <= GINT_MAX && 1 <= height <= GINT_MAX
    ensures FrameSize(width, height) == width * height * 4 > 0
  {
    assert width * height <= GINT_MAX * height by {
      MulLe(width, GINT_MAX, height);
    }
    assert GINT_MAX * height <= GINT_MAX * GINT_MAX by {
      MulLe(height, GINT_MAX, GINT_MAX);
    }
    assert width * height >= 1 by {
      MulLe(1, width, height);
    }
  }

  lemma MulLe(a: int, b: int, c: int)
    requires a <= b && c >= 0
    ensures a * c <= b * c
  {
  }

  /**
   * With the size formed in `gint`, a 65536 x 16384 element gets a
   * zero-byte buffer, and a 65537 x 16384 one gets 64 KiB instead of
   * about 4 GiB.
   */
  lemma FrameSizeAsWrittenWraps()
    ensures FrameSizeAsWritten(65536, 16384) == 0 && FrameSize(65536, 16384) == 0x1_0000_0000
    ensures FrameSizeAsWritten(65537, 16384) == 65536 && FrameSize(65537, 16384) == 0x1_0001_0000
  {
  }

  /** The largest object size glibc's allocator accepts: `PTRDIFF_MAX` on a 64-bit host. */
  const PTRDIFF_MAX: int := 0x7fff_ffff_ffff_ffff

  /** What `g_malloc` does with a request. */
  datatype Allocation = Memory | NullPointer | Abort

  /**
   * `g_malloc`: NULL for zero bytes. A request above `PTRDIFF_MAX` can
   * never be met, and `g_malloc` aborts the process when an allocation
   * fails. Any other request is taken to be met.
   */
  function Malloc(size: nat): Allocation {
    if size == 0 then NullPointer else if size > PTRDIFF_MAX then Abort else Memory
  }

  /**
   * A `gint` product that lands in the negative half sign-extends to a
   * `gsize` of at least 2^64 - 2^31, which `g_malloc` can only abort on:
   * 32768 x 16384 and 23171 x 23171 are two such frames. Their exact sizes
   * are met.
   */
  lemma FrameSizeAsWrittenAborts()
    ensures Malloc(FrameSizeAsWritten(32768, 16384)) == Abort && Malloc(FrameSize(32768, 16384)) == Memory
    ensures Malloc(FrameSizeAsWritten(23171, 23171)) == Abort && Malloc(FrameSize(23171, 23171)) == Memory
  {
  }

  /** Every negative `gint` size is one `g_malloc` aborts on. */
  lemma NegativeGintAborts(x: int)
    requires -GINT_MAX - 1 <= x < 0
    ensures Malloc(GintToGsize(x)) == Abort
  {
  }

  // ---------------------------------------------------------------- pulling frames

  /** What another thread does while the pull callback is parked on `frame_cond`. */
  datatype WaitEvent =
    | Paint(paint: nat)  // OnPaint's critical section runs
    | Halted             // stop's critical section runs
    | Spurious           // the wait returns with nothing changed
    | Deadline           // the one-second deadline passes first

  function Apply(s: Slot, e: WaitEvent): Slot {
    match e
    case Paint(p) => Publish(s, p)
    case Halted => Halt(s)
    case _ => s
  }

  datatype WaitResult = WaitResult(slot: Slot, timedOut: bool)

  /**
   * The wait loop: while no frame is ready and the element runs, take the
   * next event; a deadline, or a schedule that runs out, ends it with a
   * timeout.
   */
  function Wait(s: Slot, during: seq<WaitEvent>): WaitResult
    decreases |during|
  {
    if s.ready || !s.running then WaitResult(s, false)
    else if during == [] || during[0].Deadline? then WaitResult(s, true)
    else Wait(Apply(s, during[0]), during[1..])
  }

  /** `gst_util_uint64_scale(GST_SECOND, 1, fps)`: the frame duration, rounded down. */
  function Duration(fps: int): nat
    requires fps >= 1
  {
    GstSecond / fps
  }

  /** `frame_count * duration` in `guint64`. */
  function Timestamp(frameCount: nat, fps: int): nat
    requires fps >= 1
  {
    (frameCount * Duration(fps)) % U64
  }

  /** A pushed buffer: its pixels, its size, its PTS (the DTS is the same) and its duration. */
  datatype OutBuffer = OutBuffer(pixels: Pixels, size: nat, pts: nat, duration: nat)

  datatype PullOutcome =
    | NotRunning           // the element was not running on entry
    | TimedOut             // no frame within the deadline
    | Stopped              // the wait ended because the element stopped
    | AllocFailed          // no GstBuffer could be had
    | Pushed(buffer: OutBuffer)

  /** The state the pull callback changes: the frame slot and `frame_count`. */
  datatype PullState = PullState(outcome: PullOutcome, slot: Slot, frameCount: nat)

  /** What gst_chromium_src_need_data does, as a function of the state it finds and the events while it waits. */
  function Pull(s: Slot, frameSize: nat, fps: int, frameCount: nat, during: seq<WaitEvent>, allocOk: bool): PullState
    requires fps >= 1
  {
    if !s.running then PullState(NotRunning, s, frameCount)
    else
      var w := Wait(s, during);
      if w.timedOut then PullState(TimedOut, w.slot, frameCount)
      else if !w.slot.running || w.slot.buffer.None? then PullState(Stopped, w.slot, frameCount)
      else if !allocOk then PullState(AllocFailed, w.slot, frameCount)
      else
        PullState(
          Pushed(OutBuffer(w.slot.buffer.value, frameSize, Timestamp(frameCount, fps), Duration(fps))),
          w.slot.(ready := false),
          (frameCount + 1) % U64)
  }

  /**
   * gst_chromium_src_need_data: wait for a ready frame (or stop, or the
   * deadline), then copy it into a new buffer, consume it, stamp it with
   * `frame_count` durations and push it. The push result is only logged.
   */
  method NeedData(src: ChromiumSrc, during: seq<WaitEvent>, allocOk: bool) returns (outcome: PullOutcome)
    requires src.Valid()
    modifies src`running, src`frameReady, src`frameBuffer, src`frameCount
    ensures src.Valid()
    ensures PullState(outcome, src.SlotView(), src.frameCount) ==
      Pull(old(src.SlotView()), src.frameSize, src.fpsNum, old(src.frameCount), during, allocOk)
  {
    if !src.running {
      return NotRunning;
    }
    var i := 0;
    while !src.frameReady && src.running
      invariant 0 <= i <= |during|
      invariant src.Valid() && src.frameCount == old(src.frameCount)
      invariant Wait(old(src.SlotView()), during) == Wait(src.SlotView(), during[i..])
      decreases |during| - i
    {
      if i == |during| || during[i].Deadline? {
        return TimedOut;
      }
      match during[i] {
        case Paint(p) => src.PublishLocked(p);
        case Halted => src.HaltLocked();
        case Spurious =>
      }
      assert during[i..][1..] == during[i + 1..];
      i := i + 1;
    }
    if !src.running || src.frameBuffer.None? {
      return Stopped;
    }
    if !allocOk {
      return AllocFailed;
    }
    var pixels := src.frameBuffer.value;
    src.frameReady := false;
    var duration := GstSecond / src.fpsNum;
    var timestamp := (src.frameCount * duration) % U64;
    src.frameCount := (src.frameCount + 1) % U64;
    outcome := Pushed(OutBuffer(pixels, src.frameSize, timestamp, duration));
  }

  /** Every rate the element allows gives a duration of at least a sixtieth of a second, and `fps` of them fit in a second. */
  lemma DurationRange(fps: int)
    requires 1 <= fps <= 60
    ensures 16_666_666 <= Duration(fps) <= GstSecond
    ensures Duration(fps) * fps <= GstSecond < (Duration(fps) + 1) * fps
  {
  }

  /** Until `guint64` wraps, consecutive buffers are exactly one duration apart. */
  lemma TimestampStep(frameCount: nat, fps: int)
    requires fps >= 1
    requires (frameCount + 1) * Duration(fps) < U64
    ensures Timestamp(frameCount + 1, fps) == Timestamp(frameCount, fps) + Duration(fps)
  {
    assert (frameCount + 1) * Duration(fps) == frameCount * Duration(fps) + Duration(fps);
  }

  /** The wait keeps the slot coherent, and unless it times out it ends with a ready frame or a stopped element. */
  lemma {:induction false} WaitCoherent(s: Slot, during: seq<WaitEvent>)
    requires Coherent(s)
    ensures Coherent(Wait(s, during).slot)
    ensures !Wait(s, during).timedOut ==> Wait(s, during).slot.ready || !Wait(s, during).slot.running
    decreases |during|
  {
    if !(s.ready || !s.running) && during != [] && !during[0].Deadline? {
      PublishCoherent(s, if during[0].Paint? then during[0].paint else 0);
      WaitCoherent(Apply(s, during[0]), during[1..]);
    }
  }

  /** The frame the wait ends with was already in the slot, or was painted by an event of the schedule. */
  lemma {:induction false} WaitFrameOrigin(s: Slot, during: seq<WaitEvent>)
    ensures var b := Wait(s, during).slot.buffer;
      b == s.buffer || (b.Some? && b.value.Painted? && Paint(b.value.paint) in during)
    decreases |during|
  {
    if !(s.ready || !s.running) && during != [] && !during[0].Deadline? {
      WaitFrameOrigin(Apply(s, during[0]), during[1..]);
      var b := Wait(s, during).slot.buffer;
      if b != Apply(s, during[0]).buffer {
        assert Paint(b.value.paint) in during[1..];
      }
    }
  }

  /**
   * A coherent element only ever pushes painted pixels, and each pushed
   * frame is the one already waiting or one painted during the wait.
   */
  lemma PullPushesPaintedFrames(s: Slot, frameSize: nat, fps: int, frameCount: nat, during: seq<WaitEvent>, allocOk: bool)
    requires fps >= 1 && Coherent(s)
    ensures var r := Pull(s, frameSize, fps, frameCount, during, allocOk);
      && Coherent(r.slot)
      && (r.outcome.Pushed? ==>
            && r.outcome.buffer.pixels.Painted?
            && (s.buffer == Some(r.outcome.buffer.pixels) || Paint(r.outcome.buffer.pixels.paint) in during))
  {
    WaitCoherent(s, during);
    WaitFrameOrigin(s, during);
  }

  /**
   * A push consumes the frame and advances `frame_count` by one (in
   * `guint64`), with the PTS of the count it found; every other outcome
   * leaves the count alone.
   */
  lemma PullAccounting(s: Slot, frameSize: nat, fps: int, frameCount: nat, during: seq<WaitEvent>, allocOk: bool)
    requires fps >= 1 && frameCount < U64
    ensures var r := Pull(s, frameSize, fps, frameCount, during, allocOk);
      && r.frameCount < U64
      && (r.outcome.Pushed? ==>
            && !r.slot.ready && r.slot.running
            && r.frameCount == (frameCount + 1) % U64
            && r.outcome.buffer.pts == Timestamp(frameCount, fps)
            && r.outcome.buffer.duration == Duration(fps)
            && r.outcome.buffer.size == frameSize)
      && (!r.outcome.Pushed? ==> r.frameCount == frameCount)
  {
  }

  /** A paint that arrives while the puller waits on a running element with a buffer is the frame it pushes. */
  lemma PaintWakesPull(s: Slot, frameSize: nat, fps: int, frameCount: nat, p: nat, rest: seq<WaitEvent>)
    requires fps >= 1
    requires s.running && !s.ready && s.buffer.Some?
    ensures Pull(s, frameSize, fps, frameCount, [Paint(p)] + rest, true).outcome ==
      Pushed(OutBuffer(Painted(p), frameSize, Timestamp(frameCount, fps), Duration(fps)))
  {
    assert ([Paint(p)] + rest)[1..] == rest;
    var painted := Publish(s, p);
    assert Wait(painted, rest) == WaitResult(painted, false);
  }

  /** Stop wakes a waiting puller, which then pushes nothing. */
  lemma HaltWakesPull(s: Slot, frameSize: nat, fps: int, frameCount: nat, rest: seq<WaitEvent>, allocOk: bool)
    requires fps >= 1
    requires s.running && !s.ready
    ensures Pull(s, frameSize, fps, frameCount, [Halted] + rest, allocOk).outcome == Stopped
  {
    assert ([Halted] + rest)[1..] == rest;
    var halted := Halt(s);
    assert Wait(halted, rest) == WaitResult(halted, false);
  }

  // ---------------------------------------------------------------- start and stop

  /**
   * The fields a start leaves alone when it ends before cef_browser_start:
   * the run, the page flag, the handles and the GPU fields.
   */
  twostate predicate RunUntouched(src: ChromiumSrc)
    reads src
  {
    && src.running == old(src.running) && src.frameCount == old(src.frameCount)
    && src.pageLoaded == old(src.pageLoaded) && src.cefClient == old(src.cefClient) && src.cefThread == old(src.cefThread)
    && src.gpuEnabled == old(src.gpuEnabled) && src.gpuDevice == old(src.gpuDevice)
  }

  /**
   * The allocation part of start as written: the size formed in `gint`,
   * then `g_malloc`. On memory a run begins from frame 0. A size of 0 gets
   * NULL, and the old buffer is dropped with `running` as it was, so an
   * element that ran goes on running without a buffer. A size above
   * `PTRDIFF_MAX` aborts the process inside `g_malloc`, with the size
   * stored and nothing else changed.
   */
  method PrepareRunAsWritten(src: ChromiumSrc) returns (alloc: Allocation)
    requires src.Valid()
    modifies src`frameSize, src`frameBuffer, src`running, src`frameCount
    ensures src.Valid()
    ensures src.frameSize == FrameSizeAsWritten(src.width, src.height)
    ensures alloc.NullPointer? <==> src.frameSize == 0
    ensures alloc.Abort? <==> src.frameSize > PTRDIFF_MAX
    ensures alloc.Memory? ==> src.frameBuffer == Some(Uninitialised) && src.running && src.frameCount == 0
    ensures !alloc.Memory? ==> src.running == old(src.running) && src.frameCount == old(src.frameCount)
    ensures alloc.NullPointer? ==> src.frameBuffer == None
    ensures alloc.Abort? ==> src.frameBuffer == old(src.frameBuffer)
  {
    src.frameSize := FrameSizeAsWritten(src.width, src.height);
    alloc := Malloc(src.frameSize);
    if alloc.Abort? {
      return;
    }
    if alloc.NullPointer? {
      src.frameBuffer := None;
      return;
    }
    src.frameBuffer := Some(Uninitialised);
    src.running := true;
    src.frameCount := 0;
  }

  /**
   * The browser part of start: cef_browser_start, and on its failure the
   * run undone and the buffer freed.
   */
  method LaunchRun(src: ChromiumSrc, process: CefProcess, env: LaunchEnv) returns (ok: bool)
    requires src.Valid()
    modifies src`running, src`frameBuffer, src`gpuEnabled, src`gpuDevice, src`pageLoaded, src`cefClient, src`cefThread
    modifies process
    ensures src.Valid()
    ensures Launched(process, src, src.width, src.height, env)
    ensures ok <==> process.cefInitialized && env.createOk && env.threadOk
    ensures src.running == (old(src.running) && ok)
    ensures src.frameBuffer == if ok then old(src.frameBuffer) else None
  {
    ok := process.BrowserStart(src, src.width, src.height, env);
    if !ok {
      src.running := false;
      src.frameBuffer := None;
    }
  }

  /** Whether start as written aborts the process: there is a URL and `g_malloc` is asked for more than it can give. */
  predicate AbortsAsWritten(url: Option<string>, width: int, height: int) {
    url.Some? && FrameSizeAsWritten(width, height) > PTRDIFF_MAX
  }

  /**
   * Whether start as written succeeds: there is a URL, `g_malloc` returns
   * memory for the `gint` size, CEF is (or comes) up, the browser is
   * requested and the loop thread starts.
   */
  predicate StartSucceedsAsWritten(url: Option<string>, width: int, height: int, cefInitialized: bool, env: LaunchEnv) {
    && url.Some? && 0 < FrameSizeAsWritten(width, height) <= PTRDIFF_MAX
    && (cefInitialized || env.initializeOk) && env.createOk && env.threadOk
  }

  /**
   * What start as written leaves behind, given the browser and client the
   * element held before. `frame_ready` and the browser are untouched, and
   * a client held before keeps the reference the element took on it, even
   * though the element may now hold a new one. Without a URL nothing
   * changes. A size of 0 fails, and an oversized one aborts, before
   * cef_browser_start, leaving the run and the handles as they were.
   * Otherwise the run begins, cef_browser_start does its part, and the run
   * is undone if the browser does not start.
   */
  twostate predicate StartedAsWritten(src: ChromiumSrc, process: CefProcess, env: LaunchEnv, ok: bool, aborted: bool,
                                      browser: CefBrowser?, client: CefClient?)
    reads src, process, src.cefClient, browser, client
  {
    && src.Valid()
    && aborted == AbortsAsWritten(old(src.url), old(src.width), old(src.height))
    && ok == StartSucceedsAsWritten(old(src.url), old(src.width), old(src.height), old(process.cefInitialized), env)
    && src.frameReady == old(src.frameReady)
    && src.cefBrowser == old(src.cefBrowser)
    && (browser != null ==> unchanged(browser))
    && (client != null ==> client.refs == old(client.refs))
    && (src.url.None? ==> unchanged(src) && unchanged(process))
    && (src.url.Some? ==>
          && src.frameSize == FrameSizeAsWritten(src.width, src.height)
          && (src.frameSize == 0 || aborted ==>
                && RunUntouched(src) && unchanged(process)
                && src.frameBuffer == (if aborted then old(src.frameBuffer) else None))
          && (src.frameSize != 0 && !aborted ==>
                && src.running == ok && src.frameCount == 0
                && src.frameBuffer == (if ok then Some(Uninitialised) else None)
                && Launched(process, src, src.width, src.height, env)))
  }

  /**
   * gst_chromium_src_start as written: the frame size is formed in
   * `gint`, `frame_ready` keeps whatever value the last run left, and an
   * element that already runs is started again. `aborted` says the
   * process ended inside `g_malloc`; `ok` is then false.
   */
  method StartAsWritten(src: ChromiumSrc, process: CefProcess, env: LaunchEnv) returns (ok: bool, aborted: bool)
    requires src.Valid()
    modifies src`frameSize, src`frameBuffer, src`frameReady, src`running, src`frameCount
    modifies src`gpuEnabled, src`gpuDevice, src`pageLoaded, src`cefClient, src`cefThread, process
    ensures StartedAsWritten(src, process, env, ok, aborted, old(src.cefBrowser), old(src.cefClient))
  {
    if src.url.None? {
      return false, false;
    }
    var alloc := PrepareRunAsWritten(src);
    if !alloc.Memory? {
      return false, alloc.Abort?;
    }
    ok := LaunchRun(src, process, env);
    aborted := false;
  }

  /** Whether start as intended aborts the process: even the exact size is more than `g_malloc` can give. */
  predicate AbortsAtStart(url: Option<string>, width: int, height: int) {
    url.Some? && FrameSize(width, height) > PTRDIFF_MAX
  }

  /** Whether start as intended succeeds: a URL, a size `g_malloc` can give, CEF up, the browser requested and the thread started. */
  predicate StartSucceeds(url: Option<string>, width: int, height: int, cefInitialized: bool, env: LaunchEnv) {
    && url.Some? && FrameSize(width, height) <= PTRDIFF_MAX
    && (cefInitialized || env.initializeOk) && env.createOk && env.threadOk
  }

  /**
   * The allocation part of start as intended: the exact size, and on
   * memory a fresh buffer, no frame ready, running from frame 0. A size
   * above `PTRDIFF_MAX` aborts the process, with the size stored and
   * nothing else changed.
   */
  method PrepareRun(src: ChromiumSrc) returns (alloc: Allocation)
    requires src.Valid()
    modifies src`frameSize, src`frameBuffer, src`frameReady, src`running, src`frameCount
    ensures src.Valid()
    ensures src.frameSize == FrameSize(src.width, src.height) == src.width * src.height * 4 > 0
    ensures alloc.Abort? <==> src.frameSize > PTRDIFF_MAX
    ensures !alloc.NullPointer?
    ensures alloc.Memory? ==>
      src.frameBuffer == Some(Uninitialised) && !src.frameReady && src.running && src.frameCount == 0
    ensures alloc.Abort? ==>
      && src.frameBuffer == old(src.frameBuffer) && src.frameReady == old(src.frameReady)
      && src.running == old(src.running) && src.frameCount == old(src.frameCount)
  {
    FrameSizeExact(src.width, src.height);
    src.frameSize := FrameSize(src.width, src.height);
    alloc := Malloc(src.frameSize);
    if alloc.Abort? {
      return;
    }
    src.frameBuffer := Some(Uninitialised);
    src.frameReady := false;
    src.running := true;
    src.frameCount := 0;
  }

  /**
   * What start as intended leaves behind on an element that did not run.
   * Without a URL nothing changes. An abort leaves everything but the
   * size as it was. Otherwise the new run starts with no frame ready from
   * frame 0, cef_browser_start does its part, and the run is undone if the
   * browser does not start. The slot is coherent throughout.
   */
  twostate predicate Started(src: ChromiumSrc, process: CefProcess, env: LaunchEnv, ok: bool, aborted: bool)
    reads src, process, src.cefClient
  {
    && src.Valid() && Coherent(src.SlotView())
    && aborted == AbortsAtStart(old(src.url), old(src.width), old(src.height))
    && ok == StartSucceeds(old(src.url), old(src.width), old(src.height), old(process.cefInitialized), env)
    && src.running == ok
    && (src.url.None? ==> unchanged(src) && unchanged(process))
    && (src.url.Some? ==>
          && src.frameSize == FrameSize(src.width, src.height) == src.width * src.height * 4
          && (aborted ==>
                && RunUntouched(src) && unchanged(process)
                && src.frameBuffer == old(src.frameBuffer) && src.frameReady == old(src.frameReady))
          && (!aborted ==>
                && !src.frameReady && src.frameCount == 0
                && src.frameBuffer == (if ok then Some(Uninitialised) else None)
                && Launched(process, src, src.width, src.height, env)))
  }

  /**
   * gst_chromium_src_start as intended: the frame size is formed in
   * `gsize`, and a new run starts with no frame ready. It is meant for an
   * element that does not run, which `ChangeStateCorrected` guarantees.
   */
  method Start(src: ChromiumSrc, process: CefProcess, env: LaunchEnv) returns (ok: bool, aborted: bool)
    requires src.Valid() && !src.running
    modifies src`frameSize, src`frameBuffer, src`frameReady, src`running, src`frameCount
    modifies src`gpuEnabled, src`gpuDevice, src`pageLoaded, src`cefClient, src`cefThread, process
    ensures Started(src, process, env, ok, aborted)
  {
    if src.url.None? {
      return false, false;
    }
    var alloc := PrepareRun(src);
    if alloc.Abort? {
      return false, true;
    }
    ok := LaunchRun(src, process, env);
    aborted := false;
  }

  /**
   * What stop leaves behind, given the browser and client the element
   * held before: nothing runs, no buffer, every handle cleared, and each
   * handle that was held closed (the browser) and released once.
   * `frame_ready` and `frame_count` stay as they were.
   */
  twostate predicate StoppedFrom(src: ChromiumSrc, browser: CefBrowser?, client: CefClient?)
    reads src, browser, client
  {
    && src.Valid() && Coherent(src.SlotView())
    && !src.running && src.frameBuffer == None && src.frameSize == 0
    && src.frameReady == old(src.frameReady) && src.frameCount == old(src.frameCount)
    && !src.cefThread && src.cefBrowser == null && src.cefClient == null
    && (browser != null ==> browser.closed && browser.refs == old(browser.refs) - 1 && browser.invalidations == old(browser.invalidations))
    && (client != null ==> client.refs == old(client.refs) - 1)
  }

  /**
   * gst_chromium_src_stop: clear `running` under the lock, stop the
   * browser, and free the buffer. A second stop releases nothing more.
   */
  method Stop(src: ChromiumSrc)
    requires src.Valid()
    modifies src`running, src`cefThread, src`cefBrowser, src`cefClient, src`frameBuffer, src`frameSize
    modifies src.cefBrowser, src.cefClient
    ensures StoppedFrom(src, old(src.cefBrowser), old(src.cefClient))
  {
    src.HaltLocked();
    BrowserStop(src);
    src.frameBuffer := None;
    src.frameSize := 0;
  }

  datatype StateChange = NullToReady | ReadyToPaused | PausedToPlaying | PlayingToPaused | PausedToReady | ReadyToNull

  datatype StateChangeReturn = Failure | Success | Async | NoPreroll

  /**
   * gst_chromium_src_change_state: start on READY to PAUSED (a failed
   * start fails the change before the parent class sees it), let the
   * parent class (whose answer is `parentResult`) do its part, then stop
   * on PAUSED to READY. Other transitions only pass the parent's answer
   * on. A start the parent then refuses is not undone: the element stays
   * in READY, running. `aborted` says the process ended inside the start's
   * `g_malloc`, in which case `ret` is `Failure` and means nothing.
   */
  method ChangeState(src: ChromiumSrc, process: CefProcess, env: LaunchEnv, transition: StateChange,
                     parentResult: StateChangeReturn) returns (ret: StateChangeReturn, aborted: bool)
    requires src.Valid()
    modifies src`frameSize, src`frameBuffer, src`frameReady, src`running, src`frameCount, src`cefBrowser
    modifies src`gpuEnabled, src`gpuDevice, src`pageLoaded, src`cefClient, src`cefThread
    modifies process, src.cefBrowser, src.cefClient
    ensures src.Valid()
    ensures transition.ReadyToPaused? ==>
      var ok := StartSucceedsAsWritten(old(src.url), old(src.width), old(src.height), old(process.cefInitialized), env);
      && ret == (if ok then parentResult else Failure)
      && StartedAsWritten(src, process, env, ok, aborted, old(src.cefBrowser), old(src.cefClient))
    ensures transition.PausedToReady? ==>
      && ret == parentResult && !aborted
      && StoppedFrom(src, old(src.cefBrowser), old(src.cefClient))
      && src.pageLoaded == old(src.pageLoaded) && src.gpuEnabled == old(src.gpuEnabled)
      && src.gpuDevice == old(src.gpuDevice) && unchanged(process)
    ensures !transition.ReadyToPaused? && !transition.PausedToReady? ==>
      && ret == parentResult && !aborted && unchanged(src) && unchanged(process)
      && (src.cefBrowser != null ==> unchanged(src.cefBrowser))
      && (src.cefClient != null ==> unchanged(src.cefClient))
  {
    aborted := false;
    if transition == ReadyToPaused {
      var ok;
      ok, aborted := StartAsWritten(src, process, env);
      if !ok {
        return Failure, aborted;
      }
    }
    ret := parentResult;
    if transition == PausedToReady {
      Stop(src);
    }
  }

  /**
   * What a READY to PAUSED refused by the parent class leaves after the
   * corrected change undid the start with stop: the process as the start
   * left it, an element that neither runs nor holds a buffer, the page
   * flag cleared by the start, every handle gone, and the browser held
   * before closed and released.
   */
  twostate predicate RefusedStartUndone(src: ChromiumSrc, process: CefProcess, env: LaunchEnv, browser: CefBrowser?)
    reads src, process, browser
  {
    && src.Valid() && Coherent(src.SlotView()) && ProcessLaunched(process, env)
    && !src.running && src.frameBuffer == None && src.frameSize == 0
    && !src.frameReady && src.frameCount == 0 && !src.pageLoaded
    && src.cefClient == null && src.cefBrowser == null && !src.cefThread
    && (browser != null ==> browser.closed && browser.refs == old(browser.refs) - 1 && browser.invalidations == old(browser.invalidations))
  }

  /**
   * change_state as intended: the corrected start, and a start the parent
   * class refuses is undone with stop, so an element in READY never runs
   * and the next READY to PAUSED finds it stopped.
   */
  method ChangeStateCorrected(src: ChromiumSrc, process: CefProcess, env: LaunchEnv, transition: StateChange,
                              parentResult: StateChangeReturn) returns (ret: StateChangeReturn, aborted: bool)
    requires src.Valid()
    requires transition.ReadyToPaused? ==> !src.running
    modifies src`frameSize, src`frameBuffer, src`frameReady, src`running, src`frameCount, src`cefBrowser
    modifies src`gpuEnabled, src`gpuDevice, src`pageLoaded, src`cefClient, src`cefThread
    modifies process, src.cefBrowser, src.cefClient
    ensures src.Valid()
    ensures transition.ReadyToPaused? ==>
      var started := StartSucceeds(old(src.url), old(src.width), old(src.height), old(process.cefInitialized), env);
      && ret == (if started then parentResult else Failure)
      && (started && parentResult == Failure ==> !aborted && RefusedStartUndone(src, process, env, old(src.cefBrowser)))
      && (!started || parentResult != Failure ==> Started(src, process, env, started, aborted))
    ensures transition.PausedToReady? ==>
      && ret == parentResult && !aborted
      && StoppedFrom(src, old(src.cefBrowser), old(src.cefClient))
      && src.pageLoaded == old(src.pageLoaded) && src.gpuEnabled == old(src.gpuEnabled)
      && src.gpuDevice == old(src.gpuDevice) && unchanged(process)
    ensures !transition.ReadyToPaused? && !transition.PausedToReady? ==>
      && ret == parentResult && !aborted && unchanged(src) && unchanged(process)
      && (src.cefBrowser != null ==> unchanged(src.cefBrowser))
      && (src.cefClient != null ==> unchanged(src.cefClient))
  {
    aborted := false;
    if transition == ReadyToPaused {
      var ok;
      ok, aborted := Start(src, process, env);
      if !ok {
        return Failure, aborted;
      }
      ret := parentResult;
      if ret == Failure {
        Stop(src);
      }
      return;
    }
    ret := parentResult;
    if transition == PausedToReady {
      Stop(src);
    }
  }

  // ---------------------------------------------------------------- restarting

  /** Hosts where CEF comes up, the browser is created and the loop thread starts, without a GPU. */
  function StartingEnv(): LaunchEnv {
    LaunchEnv(DriProbe(false, None), false, false, true, true, true)
  }

  /** A new element started on a host where starting succeeds; `asWritten` picks the start that is used. */
  method StartNewElement(asWritten: bool) returns (src: ChromiumSrc, process: CefProcess)
    ensures fresh(src) && fresh(process)
    ensures src.Valid() && src.running && src.frameBuffer.Some? && process.cefInitialized
    ensures src.url.Some? && src.width == 1920 && src.height == 1080 && src.fpsNum == 30
    ensures src.cefBrowser == null && src.cefClient != null && fresh(src.cefClient) && src.cefClient.src == src
    ensures src.cefClient.viewWidth == 1920 && src.cefClient.viewHeight == 1080
  {
    src := new ChromiumSrc();
    process := new CefProcess();
    var ok, aborted;
    if asWritten {
      assert FrameSizeAsWritten(1920, 1080) == 8_294_400;
      ok, aborted := StartAsWritten(src, process, StartingEnv());
    } else {
      assert FrameSize(1920, 1080) == 8_294_400;
      ok, aborted := Start(src, process, StartingEnv());
    }
    assert ok;
  }

  /**
   * A first run of a new element in which one paint arrives and no pull
   * consumes it before stop.
   */
  method RunWithUnconsumedPaint(asWritten: bool) returns (src: ChromiumSrc, process: CefProcess)
    ensures fresh(src) && fresh(process)
    ensures src.Valid() && !src.running && src.frameReady
    ensures src.url.Some? && src.width == 1920 && src.height == 1080 && src.fpsNum == 30
    ensures src.cefBrowser == null && src.cefClient == null && process.cefInitialized
  {
    src, process := StartNewElement(asWritten);
    OnPaint(src.cefClient, 1920, 1080, 1);
    assert src.frameReady;
    Stop(src);
  }

  /**
   * As written: the paint that no pull consumed before stop survives the
   * restart, so the first pull of the new run pushes the never-written
   * buffer at PTS 0 without waiting for the browser.
   */
  method StaleFrameAfterRestart() returns (outcome: PullOutcome)
    ensures outcome.Pushed? && outcome.buffer.pixels == Uninitialised && outcome.buffer.pts == 0
  {
    var src, process := RunWithUnconsumedPaint(true);
    assert FrameSizeAsWritten(1920, 1080) == 8_294_400;
    var ok, aborted := StartAsWritten(src, process, StartingEnv());
    assert ok;
    var slot := src.SlotView();
    assert slot == Slot(true, true, Some(Uninitialised)) && src.frameCount == 0;
    assert Pull(slot, src.frameSize, src.fpsNum, 0, [], true).outcome
      == Pushed(OutBuffer(Uninitialised, src.frameSize, 0, Duration(src.fpsNum)));
    outcome := NeedData(src, [], true);
  }

  /** As intended: after the same first run, the first pull of the new run waits for a paint and pushes nothing stale. */
  method NoStaleFrameAfterRestart() returns (outcome: PullOutcome)
    ensures outcome == TimedOut
  {
    var src, process := RunWithUnconsumedPaint(false);
    assert FrameSize(1920, 1080) == 8_294_400;
    var ok, aborted := Start(src, process, StartingEnv());
    assert ok;
    var slot := src.SlotView();
    assert slot == Slot(true, false, Some(Uninitialised));
    assert Pull(slot, src.frameSize, src.fpsNum, src.frameCount, [], true).outcome == TimedOut;
    outcome := NeedData(src, [], true);
  }

  // ---------------------------------------------------------------- a refused start

  /**
   * As written: the parent class refuses READY to PAUSED after the start
   * succeeded. The element stays in READY still running and holding the
   * loop thread; READY to NULL does not stop it; and the next READY to
   * PAUSED starts it again over a new client, stranding the reference
   * taken on the first one.
   */
  method LeakAfterParentFailure() returns (ret: StateChangeReturn, running: bool, holdsThread: bool,
                                           replaced: bool, strandedRefs: int)
    ensures ret == Failure && running && holdsThread && replaced && strandedRefs == 1
  {
    var src := new ChromiumSrc();
    var process := new CefProcess();
    assert FrameSizeAsWritten(1920, 1080) == 8_294_400;
    assert StartSucceedsAsWritten(src.url, src.width, src.height, process.cefInitialized, StartingEnv());
    var aborted;
    ret, aborted := ChangeState(src, process, StartingEnv(), ReadyToPaused, Failure);
    var _, _ := ChangeState(src, process, StartingEnv(), ReadyToNull, Success);
    running, holdsThread := src.running, src.cefThread;
    var first := src.cefClient;
    var again, _ := ChangeState(src, process, StartingEnv(), ReadyToPaused, Success);
    replaced, strandedRefs := first != src.cefClient, first.refs;
  }

  /**
   * As intended: the same refusal is undone by stop, so the element in
   * READY neither runs nor holds a client or the loop thread.
   */
  method NoLeakAfterParentFailure() returns (ret: StateChangeReturn, running: bool, holdsClient: bool, holdsThread: bool)
    ensures ret == Failure && !running && !holdsClient && !holdsThread
  {
    var src := new ChromiumSrc();
    var process := new CefProcess();
    assert FrameSize(1920, 1080) == 8_294_400;
    var aborted;
    ret, aborted := ChangeStateCorrected(src, process, StartingEnv(), ReadyToPaused, Failure);
    var _, _ := ChangeStateCorrected(src, process, StartingEnv(), ReadyToNull, Success);
    running, holdsClient, holdsThread := src.running, src.cefClient != null, src.cefThread;
  }

  // ---------------------------------------------------------------- frame sizes at start

  /** As written: a 65536 by 16384 frame has a `gint` size of 0, so READY to PAUSED fails. */
  method ZeroSizedStartAsWritten() returns (ret: StateChangeReturn, aborted: bool)
    ensures ret == Failure && !aborted
  {
    var src := new ChromiumSrc();
    var process := new CefProcess();
    SetWidth(src, 65536);
    SetHeight(src, 16384);
    assert FrameSizeAsWritten(65536, 16384) == 0;
    ret, aborted := ChangeState(src, process, StartingEnv(), ReadyToPaused, Success);
  }

  /** As written: a 32768 by 16384 frame has a negative `gint` size, so READY to PAUSED aborts the process. */
  method NegativeSizedStartAsWritten() returns (aborted: bool)
    ensures aborted
  {
    var src := new ChromiumSrc();
    var process := new CefProcess();
    SetWidth(src, 32768);
    SetHeight(src, 16384);
    FrameSizeAsWrittenAborts();
    var ret;
    ret, aborted := ChangeState(src, process, StartingEnv(), ReadyToPaused, Success);
  }

  /** As intended: both frames are sized exactly and READY to PAUSED succeeds. */
  method LargeFrameStart(wide: bool) returns (ret: StateChangeReturn, aborted: bool, frameSize: int)
    ensures ret == Success && !aborted
    ensures frameSize == if wide then 65536 * 16384 * 4 else 32768 * 16384 * 4
  {
    var src := new ChromiumSrc();
    var process := new CefProcess();
    SetWidth(src, if wide then 65536 else 32768);
    SetHeight(src, 16384);
    assert FrameSize(65536, 16384) == 65536 * 16384 * 4;
    assert FrameSize(32768, 16384) == 32768 * 16384 * 4;
    ret, aborted := ChangeStateCorrected(src, process, StartingEnv(), ReadyToPaused, Success);
    frameSize := src.frameSize;
  }
}
