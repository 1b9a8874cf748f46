/**
 * The state of a chromiumsrc element (the `GstChromiumSrc` struct of
 * gstchromiumsrc.h), the two CEF objects it keeps references to, and the
 * `frame_mutex`-guarded frame slot shared by the paint callback, the
 * pull callback and stop.
 */
module ChromiumSrcState {
  import opened CLib

  /**
   * What the frame buffer holds: memory fresh from `g_malloc`, or the
   * pixels of one paint, named by an abstract identifier.
   */
  datatype Pixels = Uninitialised | Painted(paint: nat)

  /** The fields `frame_mutex` guards: `running`, `frame_ready` and the buffer (`None` is NULL). */
  datatype Slot = Slot(running: bool, ready: bool, buffer: Option<Pixels>)

  /**
   * The locked part of OnPaint: while running with a buffer, the paint
   * overwrites the whole slot and marks it ready; otherwise nothing changes.
   */
  function Publish(s: Slot, paint: nat): Slot {
    if s.running && s.buffer.Some? then Slot(true, true, Some(Painted(paint))) else s
  }

  /** The locked part of stop: clear `running` (and wake the waiter). */
  function Halt(s: Slot): Slot {
    s.(running := false)
  }

  /** Paints arriving one after the other, with no pull in between. */
  function PublishAll(s: Slot, paints: seq<nat>): Slot
    decreases |paints|
  {
    if paints == [] then s else PublishAll(Publish(s, paints[0]), paints[1..])
  }

  /** Only painted pixels may be handed to a pull that sees `ready`. */
  ghost predicate Coherent(s: Slot) {
    s.running && s.ready ==> s.buffer.Some? && s.buffer.value.Painted?
  }

  /**
   * At most one frame is in flight: after any run of paints on a running
   * slot only the most recent one is there to be pulled.
   */
  lemma {:induction false} LatestFrameWins(s: Slot, paints: seq<nat>)
    requires s.running && s.buffer.Some?
    requires paints != []
    ensures PublishAll(s, paints) == Slot(true, true, Some(Painted(paints[|paints| - 1])))
    decreases |paints|
  {
    var next := Publish(s, paints[0]);
    if |paints| > 1 {
      LatestFrameWins(next, paints[1..]);
    } else {
      assert PublishAll(next, paints[1..]) == next;
    }
  }

  /** Paints that arrive after stop are absorbed: the slot does not change. */
  lemma {:induction false} PaintsAfterHaltAbsorbed(s: Slot, paints: seq<nat>)
    ensures PublishAll(Halt(s), paints) == Halt(s)
  {
    if paints != [] {
      PaintsAfterHaltAbsorbed(s, paints[1..]);
    }
  }

  /** Publishing keeps the slot coherent. */
  lemma PublishCoherent(s: Slot, paint: nat)
    requires Coherent(s)
    ensures Coherent(Publish(s, paint)) && Coherent(Halt(s))
  {
  }

  /** A browser (`CefBrowser*`): the references the element took on it, whether it was closed, and repaint requests. */
  class CefBrowser {
    var refs: int
    var closed: bool
    var invalidations: nat

    constructor ()
      ensures refs == 0 && !closed && invalidations == 0
    {
      refs := 0;
      closed := false;
      invalidations := 0;
    }
  }

  /**
   * A client (`CefClientImpl*`) together with the render, load and
   * life-span handlers it hands to CEF, which all capture the same
   * element and the render handler's fixed view size; `refs` counts the
   * references the element took on it.
   */
  class CefClient {
    const src: ChromiumSrc?
    const viewWidth: int
    const viewHeight: int
    var refs: int

    constructor (src: ChromiumSrc?, width: int, height: int)
      ensures this.src == src && viewWidth == width && viewHeight == height && refs == 0
    {
      this.src := src;
      viewWidth := width;
      viewHeight := height;
      refs := 0;
    }
  }

  /** The element's instance struct. `cefThread` stands for a non-NULL `GThread*`. */
  class ChromiumSrc {
    var url: Option<string>
    var width: int
    var height: int
    var fpsNum: int
    var gpuDevice: int
    var cefBrowser: CefBrowser?
    var cefClient: CefClient?
    var cefThread: bool
    var frameBuffer: Option<Pixels>
    var frameSize: nat
    var frameReady: bool
    var running: bool
    var pageLoaded: bool
    var gpuEnabled: bool
    var frameCount: nat

    /** The ranges the properties enforce, and `frame_count` as a `guint64`. */
    ghost predicate Valid()
      reads this
    {
      && 1 <= width <= GINT_MAX
      && 1 <= height <= GINT_MAX
      && 1 <= fpsNum <= 60
      && frameCount < U64
    }

    function SlotView(): Slot
      reads this
    {
      Slot(running, frameReady, frameBuffer)
    }

    /**
     * gst_chromium_src_init. The instance starts zero-filled, so the
     * fields it does not assign (and all of them when the internal appsrc
     * cannot be made) are FALSE, 0 or NULL.
     */
    constructor ()
      ensures Valid() && Coherent(SlotView())
      ensures url == Some("https://example.com/test.html")
      ensures width == 1920 && height == 1080 && fpsNum == 30
      ensures frameBuffer == None && frameSize == 0
      ensures !frameReady && !running && frameCount == 0
      ensures cefBrowser == null && cefClient == null && !cefThread
      ensures !pageLoaded && !gpuEnabled && gpuDevice == 0
    {
      url := Some("https://example.com/test.html");
      width := 1920;
      height := 1080;
      fpsNum := 30;
      gpuDevice := 0;
      cefBrowser := null;
      cefClient := null;
      cefThread := false;
      frameBuffer := None;
      frameSize := 0;
      frameReady := false;
      running := false;
      pageLoaded := false;
      gpuEnabled := false;
      frameCount := 0;
    }

    /** The critical section of OnPaint: copy the frame in and signal, if still running with a buffer. */
    method PublishLocked(paint: nat)
      modifies this`frameBuffer, this`frameReady
      ensures SlotView() == Publish(old(SlotView()), paint)
    {
      if running && frameBuffer.Some? {
        frameBuffer := Some(Painted(paint));
        frameReady := true;
      }
    }

    /** The critical section of stop: clear `running` and signal. */
    method HaltLocked()
      modifies this`running
      ensures SlotView() == Halt(old(SlotView()))
    {
      running := false;
    }
  }
}
