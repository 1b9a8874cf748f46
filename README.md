# chromiumsrc: a verified model

chromiumsrc is a GStreamer source element. It runs a windowless Chromium
browser through CEF (the Chromium Embedded Framework) and turns the pages it
paints into a live stream of BGRA video frames. This project models the
element's logic in Dafny and proves what that logic promises. The model has
three parts.

- **GPU device selection** (gpu_utils.cpp). The element scans `/dev/dri` for
  `renderD<N>` nodes and keeps the highest `N`, or -1 if there is none. It
  fills a `GpuConfig` record from that number.
- **The CEF side** (cef_render_handler.cpp):
  - the one-time, process-wide GPU decision;
  - the Chromium switches given to the browser process and to each child
    process;
  - initialising CEF only once;
  - the paint, load and life-span callbacks;
  - one pass of the message-loop thread;
  - browser start and stop, with the references the element takes on the
    client and the browser.
- **The element itself** (gstchromiumsrc.cpp):
  - field defaults;
  - the framerate property, which is text: `atoi`, clamped to 1..60, and
    printed back with `%d`;
  - `start` and `stop` around the READY/PAUSED transitions;
  - the `need-data` callback, which waits for a painted frame, consumes it
    and stamps it with `frame_count` durations.

Files:

- `clib.dfy` (module `CLib`): the C and GLib primitives the logic depends on:
  `atoi`, `printf("%d")`, `g_str_has_prefix`, and the widths of `gint` and
  `guint64`.
- `gpu_utils.dfy` (module `GpuUtils`): device selection and `GpuConfig`.
- `chromium_src_state.dfy` (module `ChromiumSrcState`):
  - the element struct `ChromiumSrc`, with the fields of
    `GstChromiumSrc` in gstchromiumsrc.h;
  - the CEF browser and client handles, with their reference counts;
  - the frame slot that `frame_mutex` guards.
- `cef_render_handler.dfy` (module `CefRenderHandler`): the file-level
  statics, as the class `CefProcess`, plus the switch builders, the
  callbacks, and browser start and stop.
- `gstchromiumsrc.dfy` (module `GstChromiumSrc`): the properties, frame
  sizes, `need-data`, start, stop and state changes.

**How threads are modelled.** Every cross-thread update of the frame slot
happens while `frame_mutex` is held, so each critical section is one atomic
step:

- `ChromiumSrc.PublishLocked` is OnPaint's critical section, as the function
  `Publish`;
- `ChromiumSrc.HaltLocked` is stop's critical section, as the function
  `Halt`.

While `need-data` waits on `frame_cond`, what the other threads do is an
input: a schedule of `WaitEvent`s, which are a paint, a stop, a spurious
wake-up or the one-second deadline. A schedule that runs out counts as the
deadline.

**What the host decides is an input.** The following are parameters:

- the `/dev/dri` probe (`DriProbe`);
- whether `DISPLAY` is set;
- whether `CefInitialize`, `CreateBrowser` and `g_thread_new` succeed (`LaunchEnv`);
- whether a `GstBuffer` can be had;
- the answer of the parent class's `change_state`.

`cef_render_handler.cpp` reads `src->gpu_user_specified` and
`src->single_process`. Neither is a field of the struct in gstchromiumsrc.h,
so both are inputs too (`LaunchEnv.gpuUserSpecified`,
`LaunchEnv.singleProcess`).

**Preconditions.** The start as written and `ChangeState` accept an element
that already runs. It does run in READY when the parent class refuses READY
to PAUSED after a successful start, because nothing stops it then. The
corrected `Start` is for an element that does not run, and
`ChangeStateCorrected` keeps to that by stopping a start the parent refused.
`OnLoadEnd` requires an element, because the source dereferences `src_`
there without a check.

## Model

| member | source | states |
|---|---|---|
| CLib.Atoi | gpu_utils.cpp:26 | `atoi(3)`: skip C white space, an optional sign, the longest run of digits; no digits reads as 0 |
| CLib.FormatInt | gstchromiumsrc.cpp:238 | `printf("%d")` is never empty, and starts with a digit exactly when the number is non-negative |
| CLib.Decimal | gstchromiumsrc.cpp:238 | the decimal numeral of a natural number is non-empty and made only of digits |
| CLib.DigitLoopSnoc | gpu_utils.cpp:26 | one more digit makes atoi's accumulator ten times larger plus that digit |
| CLib.DigitLoopDecimal | gpu_utils.cpp:26 | atoi's digit loop reads back every numeral that `%d` writes |
| CLib.AtoiDecimal | gpu_utils.cpp:26 | `atoi` of the numeral of n is n |
| CLib.AtoiFormatInt | gstchromiumsrc.cpp:197-238 | `atoi` inverts `printf("%d")` for every integer, negative ones included |
| GpuUtils.BestDeviceIsMax | gpu_utils.cpp:20-38 | the scan's result is at least -1 and at least every listed render index, and is -1 or the index of a listed `renderD` entry |
| GpuUtils.BestDeviceUnique | gpu_utils.cpp:24-32 | two listings with the same entries have the same best device |
| GpuUtils.BestDeviceOrderIndependent | gpu_utils.cpp:24-32 | the chosen device does not depend on the order the directory is enumerated in |
| GpuUtils.RenderIndexOfName | gpu_utils.cpp:25-26 | "renderD" followed by the numeral of n is a render node whose index is n |
| GpuUtils.BestDeviceExample | gpu_utils.cpp:20-38 | of card0, renderD128, renderD129, by-path and renderD64 the scan picks 129 |
| GpuUtils.DetectBestDevice | gpu_utils.cpp:13-39 | the loop returns -1 when the directory cannot be opened; otherwise it returns the largest render index in the listing, floored at -1 |
| GpuUtils.GpuIsAvailableIff | gpu_utils.cpp:48-53 | a GPU is available exactly when `/dev/dri` is a directory listing a render node with a non-negative index |
| GpuUtils.DevicePathNamesIndex | gpu_utils.cpp:99 | the device path lies under `/dev/dri/` and names the render node of the detected index |
| GpuUtils.GpuConfig.constructor | gpu_utils.cpp:62-68 | a new configuration is disabled, with index -1 and no path |
| GpuUtils.ConfigDetect | gpu_utils.cpp:90-113 | NULL: nothing changes. Otherwise the index is the detected one; enabled exactly when it is non-negative; the path is `/dev/dri/renderD<index>` when enabled and NULL when not |
| ChromiumSrcState.LatestFrameWins | cef_render_handler.cpp:127-135 | after any run of paints on a running element with a buffer, only the most recent frame is ready |
| ChromiumSrcState.PaintsAfterHaltAbsorbed | cef_render_handler.cpp:129-133 | paints that arrive after stop's critical section change nothing |
| ChromiumSrcState.PublishCoherent | cef_render_handler.cpp:129-133 | a paint and a stop keep the slot coherent: a running element with a ready frame holds painted pixels |
| ChromiumSrcState.ChromiumSrc.constructor | gstchromiumsrc.cpp:122-162 | init: the example URL, 1920x1080 at 30 fps; no buffer, size 0; not ready, not running, count 0; every handle NULL |
| ChromiumSrcState.ChromiumSrc.PublishLocked | cef_render_handler.cpp:127-135 | the critical section of OnPaint: while running with a buffer, the whole slot is overwritten and marked ready; otherwise nothing changes |
| ChromiumSrcState.ChromiumSrc.HaltLocked | gstchromiumsrc.cpp:442-445 | the critical section of stop clears `running` and nothing else |
| CefRenderHandler.HasSwitchAppend | cef_render_handler.cpp:367-482 | a switch is on a command line built in two parts exactly when it is in one of the parts |
| CefRenderHandler.RenderingHas | cef_render_handler.cpp:395-428 | the rendering switches, group by group, for each GPU and display mode and each kind of process |
| CefRenderHandler.BrowserHas | cef_render_handler.cpp:367-428 | the browser's switches are the common ones plus the rendering ones |
| CefRenderHandler.BrowserSwitchesPrefix | cef_render_handler.cpp:371-381 | the browser command line always begins with the same 8 switches: 4 feature switches, 3 sandbox switches and `log-severity=warning` |
| CefRenderHandler.ChildSwitchesEndWithSandbox | cef_render_handler.cpp:475-479 | a child's command line always ends with the three sandbox switches and `log-severity=warning` |
| CefRenderHandler.SingleProcessIff | cef_render_handler.cpp:383-388 | `single-process`, `disable-zygote` and `in-process-gpu` reach the browser exactly in single-process mode, and never reach a child |
| CefRenderHandler.TrioOnlyInItsGroup | cef_render_handler.cpp:383-388 | the single-process switches belong to no other group |
| CefRenderHandler.HeadlessOnlyInItsGroup | cef_render_handler.cpp:411-422 | the headless switches belong to no other group |
| CefRenderHandler.HeadlessIff | cef_render_handler.cpp:391-473 | `ozone-platform` and `headless` reach each kind of process exactly when `DISPLAY` is unset |
| CefRenderHandler.GlOnlyInItsGroup | cef_render_handler.cpp:405-409 | the GL switches belong to no other group |
| CefRenderHandler.GlIff | cef_render_handler.cpp:395-409 | `use-gl`, `use-angle`, `enable-gpu-rasterization` and `ignore-gpu-blocklist` reach each kind of process exactly when the GPU is used |
| CefRenderHandler.SoftwareOnlyInItsGroup | cef_render_handler.cpp:418-425 | the software-path switches belong to no other group |
| CefRenderHandler.SoftwareIff | cef_render_handler.cpp:418-425 | `disable-gpu` and `disable-gpu-compositing` reach each kind of process exactly when there is neither a GPU nor a display |
| CefRenderHandler.BrowserOnlyInNoGroup | cef_render_handler.cpp:408-425 | `enable-zero-copy` and `disable-software-rasterizer` belong to no shared group |
| CefRenderHandler.BrowserOnlySwitches | cef_render_handler.cpp:405-473 | `enable-zero-copy` reaches the browser exactly with a GPU. `disable-software-rasterizer` reaches it exactly with neither a GPU nor a display. Neither ever reaches a child |
| CefRenderHandler.DisplayWithoutGpuAddsNothing | cef_render_handler.cpp:426-428 | with a display and no GPU, neither kind of process gets a rendering switch |
| CefRenderHandler.CommandLine.AppendSwitch | cef_render_handler.cpp:372 | `AppendSwitch` adds one switch without a value at the end |
| CefRenderHandler.CommandLine.AppendSwitchWithValue | cef_render_handler.cpp:381 | `AppendSwitchWithValue` adds one switch with its value at the end |
| CefRenderHandler.AppendRenderingSwitches | cef_render_handler.cpp:395-473 | appends exactly the rendering switches of the mode |
| CefRenderHandler.GpuDecisionNeedsDevice | cef_render_handler.cpp:45-58 | the GPU is never enabled without a listed render node with a non-negative index; an explicit choice is never overridden to "on" |
| CefRenderHandler.CefProcess.constructor | cef_render_handler.cpp:15-18 | no GPU configuration, CEF not initialised, not single-process |
| CefRenderHandler.CefProcess.SetSingleProcess | cef_render_handler.cpp:20-23 | stores the mode |
| CefRenderHandler.CefProcess.GpuEnsureConfig | cef_render_handler.cpp:37-59 | once a configuration exists, nothing changes. The first call creates one. The user's explicit choice is honoured only if a GPU is available, and is otherwise turned off in both the configuration and the element. In automatic mode, availability decides: the element follows the configuration when a GPU is found and is left alone when not. A detected device's index reaches the element, with its path in the configuration |
| CefRenderHandler.CefProcess.InitializeCef | cef_render_handler.cpp:341-347 | once CEF is initialised, success with no further effect; otherwise success is what `CefInitialize` reports, and only success is remembered (lines 543-552) |
| CefRenderHandler.CefProcess.OnBeforeCommandLineProcessing | cef_render_handler.cpp:367-429 | the browser's command line gains exactly `BrowserSwitches` of the mode, the configured GPU decision and the display |
| CefRenderHandler.CefProcess.OnBeforeChildProcessLaunch | cef_render_handler.cpp:445-482 | a child's command line gains exactly `ChildSwitches` of the configured GPU decision and the display |
| CefRenderHandler.CefProcess.BrowserStart | cef_render_handler.cpp:574-636 | `Launched`: the GPU configuration exists (an existing one is kept) and the mode is stored. While CEF is down, the page flag, client and thread are as they were. Once CEF is up, the page is not yet loaded and the element holds one reference on a new client for its view size, even when browser creation fails, plus a thread handle when the browser was requested. Success means CEF is initialised, the browser is requested and the thread started |
| CefRenderHandler.OnPaint | cef_render_handler.cpp:117-135 | A paint of the view's size reaches the slot as `Publish`. Any other size, or a paint for no element, changes nothing |
| CefRenderHandler.OnLoadEnd | cef_render_handler.cpp:168-174 | the main frame finishing, whatever the HTTP status, marks the page loaded; sub-frames change nothing |
| CefRenderHandler.OnAfterCreated | cef_render_handler.cpp:221-227 | the element keeps the new browser and takes one reference on it |
| CefRenderHandler.MessageLoopStep | cef_render_handler.cpp:310-324 | the loop goes on exactly while the element runs; a pass asks for a repaint exactly when the page is loaded and a browser exists |
| CefRenderHandler.BrowserStop | cef_render_handler.cpp:649-686 | NULL: nothing. Otherwise the thread is joined and cleared. A present browser is closed and released once, with its invalidation count unchanged, and a present client is released once. Both handles end NULL, so a second call releases nothing |
| GstChromiumSrc.ClampFps | gstchromiumsrc.cpp:198-199 | the stored rate is always in 1..60, and a rate already in 1..60 is kept |
| GstChromiumSrc.SetUrl | gstchromiumsrc.cpp:184-187 | stores the new URL, NULL included |
| GstChromiumSrc.SetWidth | gstchromiumsrc.cpp:188-190 | stores a width in 1..G_MAXINT; GObject refuses any other value, so the width stays as it was |
| GstChromiumSrc.SetHeight | gstchromiumsrc.cpp:191-193 | the same for the height |
| GstChromiumSrc.SetFramerate | gstchromiumsrc.cpp:194-203 | NULL leaves the rate alone. Text stores `atoi` of it clamped to 1..60, so a valid rate stays valid |
| GstChromiumSrc.GetFramerate | gstchromiumsrc.cpp:237-241 | the rate printed in decimal, never empty and unsigned for a valid rate |
| GstChromiumSrc.FramerateRoundTrip | gstchromiumsrc.cpp:194-241 | writing back what was read leaves every valid rate, 1 to 60, unchanged |
| GstChromiumSrc.FramerateSetThenGet | gstchromiumsrc.cpp:194-241 | writing any integer as text and reading back gives that integer clamped |
| GstChromiumSrc.WrapGint | gstchromiumsrc.cpp:387 | reduction to `gint`: in range, and congruent to the exact value modulo 2^32 |
| GstChromiumSrc.FrameSizeExact | gstchromiumsrc.cpp:387 | for every width and height the properties allow, the intended size is exactly width*height*4, and positive |
| GstChromiumSrc.FrameSizeAsWrittenWraps | gstchromiumsrc.cpp:387-388 | with the product formed in `gint`, 65536x16384 gives 0 bytes instead of 2^32, and 65537x16384 gives 65536 instead of 0x1_0001_0000 |
| GstChromiumSrc.FrameSizeAsWrittenAborts | gstchromiumsrc.cpp:387-388 | with the product formed in `gint`, 32768x16384 and 23171x23171 ask `g_malloc` for more than `PTRDIFF_MAX` bytes, so it aborts; their exact sizes are served |
| GstChromiumSrc.NegativeGintAborts | gstchromiumsrc.cpp:387-388 | every negative `gint` size, sign-extended to `gsize`, is a request `g_malloc` aborts on |
| GstChromiumSrc.NeedData | gstchromiumsrc.cpp:283-345 | the state after the callback, and its outcome, are exactly those of `Pull` on the state it found and the events during its wait |
| GstChromiumSrc.DurationRange | gstchromiumsrc.cpp:327 | for each allowed rate, a duration is between a sixtieth of a second and a second, and `fps` durations fit in one second with less than one duration to spare |
| GstChromiumSrc.TimestampStep | gstchromiumsrc.cpp:327-334 | until `guint64` wraps, consecutive buffers are exactly one duration apart, so their timestamps strictly increase |
| GstChromiumSrc.WaitCoherent | gstchromiumsrc.cpp:299-306 | the wait keeps the slot coherent; unless it times out, it ends with a ready frame or a stopped element |
| GstChromiumSrc.WaitFrameOrigin | gstchromiumsrc.cpp:299-306 | the frame the wait ends with was already there, or was painted by an event during the wait |
| GstChromiumSrc.PullPushesPaintedFrames | gstchromiumsrc.cpp:308-341 | a coherent element only pushes painted pixels: the frame already waiting or one painted during the wait |
| GstChromiumSrc.PullAccounting | gstchromiumsrc.cpp:293-334 | A push clears `frame_ready`, stamps PTS `frame_count * duration` and advances `frame_count` by one modulo 2^64. Not running, a timeout, a stop or a failed allocation leave `frame_count` alone |
| GstChromiumSrc.PaintWakesPull | gstchromiumsrc.cpp:299-341 | a paint that arrives during the wait is the frame pushed |
| GstChromiumSrc.HaltWakesPull | gstchromiumsrc.cpp:299-311 | a stop during the wait wakes the callback, which pushes nothing |
| GstChromiumSrc.PrepareRunAsWritten | gstchromiumsrc.cpp:387-407 | the size is formed in `gint`. `g_malloc` returns NULL exactly for size 0 and aborts exactly above `PTRDIFF_MAX`. On memory, a run begins from frame 0 with an unpainted buffer. On NULL, the old buffer is gone and `running` is as it was, so an element that ran goes on running without a buffer. On an abort, only the size has changed |
| GstChromiumSrc.LaunchRun | gstchromiumsrc.cpp:409-418 | `Launched` for the element's size. Success exactly when CEF is up, the browser is requested and the thread started. On failure the run is cleared and the buffer freed, and on success both stay as they were |
| GstChromiumSrc.StartAsWritten | gstchromiumsrc.cpp:376-424 | Start as written, on any element. It aborts exactly when there is a URL and the `gint` size is above `PTRDIFF_MAX`. It succeeds exactly when there is a URL, the `gint` size is in 1..`PTRDIFF_MAX`, CEF comes up, and the browser and its thread start. With no URL nothing changes. A size of 0, or an abort, leaves the run, page flag, handles, GPU fields and process as they were. `frame_ready` and the browser handle stay as they were, and a client held before keeps its reference although the element may now hold a new one. Otherwise it has all of `Launched` (page flag cleared once CEF is up, process mode, configuration, client and thread), and a failed browser start clears `running` and the buffer while the new client's reference stays |
| GstChromiumSrc.PrepareRun | gstchromiumsrc.cpp:387-407 | as intended: the exact size, which `g_malloc` never answers with NULL. Above `PTRDIFF_MAX` it aborts with only the size changed. Otherwise a fresh buffer, no frame ready, running from frame 0 |
| GstChromiumSrc.Start | gstchromiumsrc.cpp:376-424 | `Started`: start as intended on an element that does not run, with a coherent slot throughout. With no URL it fails and changes nothing. It aborts exactly when the exact size is above `PTRDIFF_MAX`, and then only the size changes. Otherwise the run starts with no frame ready from frame 0, with all of `Launched`, and it is running exactly on success. Success means a size `g_malloc` can serve, CEF up, and the browser created and its thread started. Failure leaves no buffer |
| GstChromiumSrc.Stop | gstchromiumsrc.cpp:439-459 | Afterwards: not running, no buffer, size 0, and every handle cleared. The browser that was held is closed and released once, and the client that was held is released once. `frame_ready` and `frame_count` stay as they were |
| GstChromiumSrc.ChangeState | gstchromiumsrc.cpp:476-511 | As written. READY to PAUSED runs the as-written start, with all of `StartedAsWritten` (the abort included), and fails without the parent if the start fails; otherwise it answers what the parent answers, and a start the parent refuses stays in place. PAUSED to READY stops after the parent, with all of stop's contract, and leaves the GPU fields and the process unchanged. Every other transition only passes the parent's answer on and changes nothing |
| GstChromiumSrc.ChangeStateCorrected | gstchromiumsrc.cpp:476-511 | As intended: the corrected start, and a start the parent refuses is stopped. A failed start, and one the parent accepts, carry all of `Started`: frame 0, a fresh buffer and a new client with one reference on success, and that client still held after a failed browser creation. A start the parent refuses ends in `RefusedStartUndone`: the process as the start left it, nothing running, no buffer, the page flag cleared, every handle gone and the browser held before closed and released. PAUSED to READY stops with all of stop's contract and leaves the page flag, GPU fields and process unchanged. Other transitions pass the parent's answer on and change nothing |
| GstChromiumSrc.StartNewElement | gstchromiumsrc.cpp:122-162 | a new element started on a host where starting succeeds is running, with a client for its 1920x1080 view |
| GstChromiumSrc.RunWithUnconsumedPaint | gstchromiumsrc.cpp:439-459 | a run in which one paint is never pulled ends with `frame_ready` still set after stop |
| GstChromiumSrc.StaleFrameAfterRestart | gstchromiumsrc.cpp:376-424 | as written, the first pull after a restart pushes the never-written buffer at PTS 0 |
| GstChromiumSrc.NoStaleFrameAfterRestart | gstchromiumsrc.cpp:376-424 | as intended, the same first pull waits for a paint and times out without pushing |
| GstChromiumSrc.LeakAfterParentFailure | gstchromiumsrc.cpp:485-508 | as written, when the parent refuses READY to PAUSED after the start, the element stays running and holding the loop thread through READY to NULL. The next READY to PAUSED replaces its client and leaves the old one with its reference |
| GstChromiumSrc.NoLeakAfterParentFailure | gstchromiumsrc.cpp:485-508 | as intended, the same refusal leaves the element not running and holding neither a client nor the thread |
| GstChromiumSrc.ZeroSizedStartAsWritten | gstchromiumsrc.cpp:387-393 | as written, READY to PAUSED of a 65536x16384 element fails without aborting, because its `gint` size is 0 |
| GstChromiumSrc.NegativeSizedStartAsWritten | gstchromiumsrc.cpp:387-388 | as written, READY to PAUSED of a 32768x16384 element aborts the process, because its `gint` size is negative |
| GstChromiumSrc.LargeFrameStart | gstchromiumsrc.cpp:387-393 | as intended, both elements start, with buffers of 65536 * 16384 * 4 and 32768 * 16384 * 4 bytes |

## Findings

| source | as written | input that shows it | evidently intended | confidence | as-written member | corrected member |
|---|---|---|---|---|---|---|
| gstchromiumsrc.cpp:376-424 | `start` never clears `frame_ready`, and `stop` (lines 439-459) leaves it as it was | a paint arrives, no pull takes it, and the element goes PAUSED to READY to PAUSED | a new run starts with no frame ready, so the first pull waits for the new page | not executed: the model reaches it from a new element | GstChromiumSrc.StaleFrameAfterRestart | GstChromiumSrc.NoStaleFrameAfterRestart |
| gstchromiumsrc.cpp:387-388 | `frame_size = width * height * 4` is formed in `gint`, then widened to `gsize`. Signed overflow is undefined behaviour in C; the model takes the two's-complement wrap that compilers typically emit | width 65536, height 16384: size 0, so `g_malloc` returns NULL and start fails; width 65537, height 16384: a 64 KiB buffer for a frame of about 4 GiB; width 32768, height 16384 (or 23171 x 23171): a negative product, a `gsize` of at least 2^64 - 2^31, and `g_malloc` aborts the process | the size computed in `gsize`, exact for every allowed width and height | not executed | GstChromiumSrc.FrameSizeAsWrittenWraps | GstChromiumSrc.FrameSizeExact |
| gstchromiumsrc.cpp:485-508 | a start that succeeded is not undone when the parent class then refuses READY to PAUSED, and READY to NULL does not call stop | the parent's `change_state` answers FAILURE on READY to PAUSED; then READY to NULL, or READY to PAUSED again | a refused start is stopped, so an element in READY neither runs nor holds the browser, its client or the loop thread | not executed: the parent's answer is an input of the model | GstChromiumSrc.LeakAfterParentFailure | GstChromiumSrc.NoLeakAfterParentFailure |

In the first row the corrected start is `GstChromiumSrc.Start`, which clears
`frame_ready`; the as-written start is `GstChromiumSrc.StartAsWritten`. In
the second row the sizes are `FrameSizeAsWritten` and `FrameSize`, and
`FrameSizeAsWrittenAborts` shows the abort. `ZeroSizedStartAsWritten`,
`NegativeSizedStartAsWritten` and `LargeFrameStart` take the same frames
through READY to PAUSED both ways. The corrected start also uses `FrameSize`. In the
third row the as-written change is `GstChromiumSrc.ChangeState` and the
corrected one `GstChromiumSrc.ChangeStateCorrected`. The second start of
`NoStaleFrameAfterRestart` is the corrected `Start` itself.

## Left out

- Logging: `DEBUG_LOG*`, `GST_*_OBJECT` and debug_utils.h. The device-file existence test in `gpu_config_detect` only logs, so it has no effect.
- `gpu_config_free`: it frees memory only.
- `atoi` overflow. Numerals too large for an `int` are undefined behaviour in C; the model reads them exactly.
- `initialize_cef`'s subprocess branch (`CefExecuteProcess`, `_exit`). The model is the browser process.
- `initialize_cef`'s settings, cache directory and resource-path search. These touch the filesystem and CEF only. What remains is the once-flag and the result of `CefInitialize`.
- The window info, browser settings and URL handed to `CreateBrowser`. These are CEF calls; only their success is modelled.
- `GetViewRect`: it reports the handler's fixed size, which is `CefClient.viewWidth` / `viewHeight`.
- `OnLoadError` and `enough_data`: they only log.
- The pixel contents and `memcpy`. Pixels are abstract: unpainted, or painted by an identified paint.
- `CefDoMessageLoopWork`, the `g_usleep(10000)` pacing, and the unbounded `while (src->running)` loop. One pass is `MessageLoopStep`; when the loop stops is decided by another thread.
- Real time: `g_cond_wait_until`'s one-second deadline is a `Deadline` event.
- Caps, `gst_app_src_set_caps`, `gst_app_src_push_buffer` and end-of-stream. These are appsrc calls. A push failure is only logged, so `NeedData` ignores it.
- `g_malloc` and `g_thread_new` abort the process instead of failing. The model has `g_malloc`'s NULL for 0 bytes and its certain abort for requests above `PTRDIFF_MAX`, and takes every other request to be met. Running out of memory below that bound is not modelled. `g_thread_new`'s result stays an input, mirroring the NULL check at cef_render_handler.cpp:630.
- An abort ends the model's method with the element as `g_malloc` left it. `StartAsWritten`, `Start`, `ChangeState` and `ChangeStateCorrected` report it in `aborted` and return failure; nothing the model does afterwards means anything for the process.
- BrowserStart: its contract does not restate the GPU decision. That decision is `GpuEnsureConfig`'s contract, and BrowserStart only promises the configuration exists and is kept.
- Start: the NULL check on `g_malloc` is dead for the exact size, which is never 0, so the corrected start has no such branch.
- StartAsWritten: the new values of `gpuEnabled` and `gpuDevice` after cef_browser_start are not stated. They are `GpuEnsureConfig`'s contract, which `BrowserStart` does not restate.
- Start: the same holds for `gpuEnabled` and `gpuDevice` after the corrected start.
- ChangeState: READY to PAUSED likewise leaves `gpuEnabled` and `gpuDevice` unstated once the start reaches cef_browser_start.
- ChangeStateCorrected: the same, on READY to PAUSED.
- Start: the corrected start requires an element that does not run. This is a stated policy, not the source's behaviour; `ChangeStateCorrected` is what meets it. `StartAsWritten` and `ChangeState` accept a running element, as the source does.
- GpuEnsureConfig: one `DriProbe` stands for both reads of `/dev/dri` (`gpu_is_available`, then `gpu_config_detect`, at cef_render_handler.cpp:46-47 and 54-55). A directory that changes between the two reads is not modelled, so the model cannot show a configuration that disagrees with the availability check.
- Concurrency between stop and the unlocked reads in OnPaint and the message loop is not modelled. Stop's handle releases are one step.
- Property getters for url, width and height (they return the field), `finalize`, class and type registration, pad and appsrc setup, and `plugin_init`.
- The headers: gstcefsrc.h is a stale duplicate of the struct, and cef_render_handler.h declares prototypes with a type the definitions do not use. gstchromiumsrc.h and gpu_utils.h supply the field layout.
