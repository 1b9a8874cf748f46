/**
 * The CEF side of the element (cef_render_handler.cpp): the process-wide
 * GPU and CEF state, the Chromium switches given to the browser process
 * and to every child process, the render, load and life-span callbacks,
 * the message-loop thread, and browser start and stop.
 */
module CefRenderHandler {
  import opened CLib
  import opened GpuUtils
  import opened ChromiumSrcState

  /** A Chromium command-line switch, with or without a value. */
  datatype Switch = Switch(name: string, value: Option<string>)

  function Flag(name: string): Switch {
    Switch(name, None)
  }

  function Valued(name: string, value: string): Switch {
    Switch(name, Some(value))
  }

  /** The features turned off for headless rendering. */
  const FeatureSwitches: seq<Switch> :=
    [Flag("disable-extensions"), Flag("disable-sync"), Flag("disable-background-networking"), Flag("no-first-run")]

  /** The sandbox and logging switches every process gets. */
  const SandboxSwitches: seq<Switch> :=
    [Flag("disable-gpu-sandbox"), Flag("disable-seccomp-filter-sandbox"), Flag("no-sandbox"), Valued("log-severity", "warning")]

  const SingleProcessSwitches: seq<Switch> :=
    [Flag("single-process"), Flag("disable-zygote"), Flag("in-process-gpu")]

  const HeadlessSwitches: seq<Switch> :=
    [Valued("ozone-platform", "headless"), Valued("headless", "new")]

  /** The GL implementation both kinds of process select when the GPU is used. */
  const GlSwitches: seq<Switch> :=
    [Valued("use-gl", "egl-angle"), Valued("use-angle", "egl"), Flag("enable-gpu-rasterization")]

  /**
   * The rendering switches: the GL path when the GPU is used (zero-copy
   * only in the browser process), the software headless path when there is
   * neither GPU nor display (the software rasterizer is switched off only
   * in the browser process), and nothing with a display but no GPU.
   */
  function RenderingSwitches(gpu: bool, hasDisplay: bool, browserProcess: bool): seq<Switch> {
    if gpu then
      GlSwitches + (if browserProcess then [Flag("enable-zero-copy")] else []) + [Flag("ignore-gpu-blocklist")]
      + (if hasDisplay then [] else HeadlessSwitches)
    else if !hasDisplay then
      HeadlessSwitches + [Flag("disable-gpu"), Flag("disable-gpu-compositing")]
      + (if browserProcess then [Flag("disable-software-rasterizer")] else [])
    else []
  }

  /** The browser switches that do not depend on the GPU or the display. */
  function CommonBrowserSwitches(singleProcess: bool): seq<Switch> {
    FeatureSwitches + SandboxSwitches + (if singleProcess then SingleProcessSwitches else [])
  }

  /** What OnBeforeCommandLineProcessing appends to the browser process's command line. */
  function BrowserSwitches(singleProcess: bool, gpu: bool, hasDisplay: bool): seq<Switch> {
    CommonBrowserSwitches(singleProcess) + RenderingSwitches(gpu, hasDisplay, true)
  }

  /** What OnBeforeChildProcessLaunch appends to a child process's command line. */
  function ChildSwitches(gpu: bool, hasDisplay: bool): seq<Switch> {
    RenderingSwitches(gpu, hasDisplay, false) + SandboxSwitches
  }

  predicate HasSwitch(switches: seq<Switch>, name: string) {
    exists i :: 0 <= i < |switches| && switches[i].name == name
  }

  lemma HasSwitchAppend(a: seq<Switch>, b: seq<Switch>, name: string)
    ensures HasSwitch(a + b, name) <==> HasSwitch(a, name) || HasSwitch(b, name)
  {
    if HasSwitch(a + b, name) {
      var i :| 0 <= i < |a + b| && (a + b)[i].name == name;
      if i >= |a| {
        assert b[i - |a|].name == name;
      }
    }
    if HasSwitch(a, name) {
      var i :| 0 <= i < |a| && a[i].name == name;
      assert (a + b)[i].name == name;
    }
    if HasSwitch(b, name) {
      var i :| 0 <= i < |b| && b[i].name == name;
      assert (a + b)[i + |a|].name == name;
    }
  }

  /** The browser command line starts with the feature and sandbox switches, whatever the mode. */
  lemma BrowserSwitchesPrefix(singleProcess: bool, gpu: bool, hasDisplay: bool)
    ensures var r := BrowserSwitches(singleProcess, gpu, hasDisplay);
      |r| >= 8 && r[..8] == FeatureSwitches + SandboxSwitches
  {
    var r := BrowserSwitches(singleProcess, gpu, hasDisplay);
    assert r == (FeatureSwitches + SandboxSwitches) + ((if singleProcess then SingleProcessSwitches else [])
      + RenderingSwitches(gpu, hasDisplay, true));
  }

  /** A child's command line always ends with the sandbox and logging switches. */
  lemma ChildSwitchesEndWithSandbox(gpu: bool, hasDisplay: bool)
    ensures var r := ChildSwitches(gpu, hasDisplay);
      |r| >= 4 && r[|r| - 4..] == SandboxSwitches
  {
  }

  lemma HasSingle(x: Switch, name: string)
    ensures HasSwitch([x], name) <==> x.name == name
  {
    if x.name == name {
      assert [x][0].name == name;
    }
  }

  /** Membership in the rendering switches, group by group. */
  lemma RenderingHas(gpu: bool, hasDisplay: bool, browserProcess: bool, name: string)
    ensures HasSwitch(RenderingSwitches(gpu, hasDisplay, browserProcess), name) <==>
      if gpu then
        || HasSwitch(GlSwitches, name) || (browserProcess && name == "enable-zero-copy")
        || name == "ignore-gpu-blocklist" || (!hasDisplay && HasSwitch(HeadlessSwitches, name))
      else
        !hasDisplay &&
        (|| HasSwitch(HeadlessSwitches, name) || name == "disable-gpu" || name == "disable-gpu-compositing"
         || (browserProcess && name == "disable-software-rasterizer"))
  {
    var zeroCopy: seq<Switch> := if browserProcess then [Flag("enable-zero-copy")] else [];
    var rasterizer: seq<Switch> := if browserProcess then [Flag("disable-software-rasterizer")] else [];
    var headless: seq<Switch> := if hasDisplay then [] else HeadlessSwitches;
    HasSingle(Flag("enable-zero-copy"), name);
    HasSingle(Flag("ignore-gpu-blocklist"), name);
    HasSingle(Flag("disable-gpu"), name);
    HasSingle(Flag("disable-gpu-compositing"), name);
    HasSingle(Flag("disable-software-rasterizer"), name);
    if gpu {
      HasSwitchAppend(GlSwitches, zeroCopy, name);
      HasSwitchAppend(GlSwitches + zeroCopy, [Flag("ignore-gpu-blocklist")], name);
      HasSwitchAppend(GlSwitches + zeroCopy + [Flag("ignore-gpu-blocklist")], headless, name);
    } else if !hasDisplay {
      var cpu := [Flag("disable-gpu"), Flag("disable-gpu-compositing")];
      assert cpu == [Flag("disable-gpu")] + [Flag("disable-gpu-compositing")];
      HasSwitchAppend([Flag("disable-gpu")], [Flag("disable-gpu-compositing")], name);
      HasSwitchAppend(HeadlessSwitches, cpu, name);
      HasSwitchAppend(HeadlessSwitches + cpu, rasterizer, name);
    }
  }

  /** Membership in the browser switches, group by group. */
  lemma BrowserHas(singleProcess: bool, gpu: bool, hasDisplay: bool, name: string)
    ensures HasSwitch(BrowserSwitches(singleProcess, gpu, hasDisplay), name) <==>
      || HasSwitch(FeatureSwitches, name) || HasSwitch(SandboxSwitches, name)
      || (singleProcess && HasSwitch(SingleProcessSwitches, name))
      || HasSwitch(RenderingSwitches(gpu, hasDisplay, true), name)
  {
    var sp: seq<Switch> := if singleProcess then SingleProcessSwitches else [];
    var rendering := RenderingSwitches(gpu, hasDisplay, true);
    HasSwitchAppend(FeatureSwitches, SandboxSwitches, name);
    HasSwitchAppend(FeatureSwitches + SandboxSwitches, sp, name);
    HasSwitchAppend(FeatureSwitches + SandboxSwitches + sp, rendering, name);
  }

  /** The single-process trio is on the browser command line exactly in single-process mode, and never on a child's. */
  lemma SingleProcessIff(singleProcess: bool, gpu: bool, hasDisplay: bool, name: string)
    requires name == "single-process" || name == "disable-zygote" || name == "in-process-gpu"
    ensures HasSwitch(BrowserSwitches(singleProcess, gpu, hasDisplay), name) <==> singleProcess
    ensures !HasSwitch(ChildSwitches(gpu, hasDisplay), name)
  {
    TrioOnlyInItsGroup(name);
    BrowserHas(singleProcess, gpu, hasDisplay, name);
    RenderingHas(gpu, hasDisplay, true, name);
    RenderingHas(gpu, hasDisplay, false, name);
    HasSwitchAppend(RenderingSwitches(gpu, hasDisplay, false), SandboxSwitches, name);
    if singleProcess {
      assert SingleProcessSwitches[0].name == "single-process";
      assert SingleProcessSwitches[1].name == "disable-zygote";
      assert SingleProcessSwitches[2].name == "in-process-gpu";
    }
  }

  /** None of the single-process trio belongs to any other group. */
  lemma TrioOnlyInItsGroup(name: string)
    requires name == "single-process" || name == "disable-zygote" || name == "in-process-gpu"
    ensures !HasSwitch(FeatureSwitches, name) && !HasSwitch(SandboxSwitches, name)
    ensures !HasSwitch(GlSwitches, name) && !HasSwitch(HeadlessSwitches, name)
    ensures name != "enable-zero-copy" && name != "ignore-gpu-blocklist" && name != "disable-gpu"
    ensures name != "disable-gpu-compositing" && name != "disable-software-rasterizer"
  {
  }

  /** The headless pair belongs to no other group. */
  lemma HeadlessOnlyInItsGroup(name: string)
    requires name == "ozone-platform" || name == "headless"
    ensures HasSwitch(HeadlessSwitches, name)
    ensures !HasSwitch(FeatureSwitches, name) && !HasSwitch(SandboxSwitches, name)
    ensures !HasSwitch(SingleProcessSwitches, name) && !HasSwitch(GlSwitches, name)
    ensures name != "enable-zero-copy" && name != "ignore-gpu-blocklist" && name != "disable-gpu"
    ensures name != "disable-gpu-compositing" && name != "disable-software-rasterizer"
  {
    assert HeadlessSwitches[0].name == "ozone-platform" && HeadlessSwitches[1].name == "headless";
  }

  /** Both kinds of process run headless exactly when there is no display. */
  lemma HeadlessIff(singleProcess: bool, gpu: bool, hasDisplay: bool, name: string)
    requires name == "ozone-platform" || name == "headless"
    ensures HasSwitch(BrowserSwitches(singleProcess, gpu, hasDisplay), name) <==> !hasDisplay
    ensures HasSwitch(ChildSwitches(gpu, hasDisplay), name) <==> !hasDisplay
  {
    HeadlessOnlyInItsGroup(name);
    BrowserHas(singleProcess, gpu, hasDisplay, name);
    RenderingHas(gpu, hasDisplay, true, name);
    RenderingHas(gpu, hasDisplay, false, name);
    HasSwitchAppend(RenderingSwitches(gpu, hasDisplay, false), SandboxSwitches, name);
  }

  /** The GL switches belong to no other group. */
  lemma GlOnlyInItsGroup(name: string)
    requires name == "use-gl" || name == "use-angle" || name == "enable-gpu-rasterization" || name == "ignore-gpu-blocklist"
    ensures HasSwitch(GlSwitches, name) || name == "ignore-gpu-blocklist"
    ensures !HasSwitch(FeatureSwitches, name) && !HasSwitch(SandboxSwitches, name)
    ensures !HasSwitch(SingleProcessSwitches, name) && !HasSwitch(HeadlessSwitches, name)
    ensures name != "enable-zero-copy" && name != "disable-gpu"
    ensures name != "disable-gpu-compositing" && name != "disable-software-rasterizer"
  {
    assert GlSwitches[0].name == "use-gl" && GlSwitches[1].name == "use-angle";
    assert GlSwitches[2].name == "enable-gpu-rasterization";
  }

  /** Both kinds of process select EGL through ANGLE exactly when the GPU is used. */
  lemma GlIff(singleProcess: bool, gpu: bool, hasDisplay: bool, name: string)
    requires name == "use-gl" || name == "use-angle" || name == "enable-gpu-rasterization" || name == "ignore-gpu-blocklist"
    ensures HasSwitch(BrowserSwitches(singleProcess, gpu, hasDisplay), name) <==> gpu
    ensures HasSwitch(ChildSwitches(gpu, hasDisplay), name) <==> gpu
  {
    GlOnlyInItsGroup(name);
    BrowserHas(singleProcess, gpu, hasDisplay, name);
    RenderingHas(gpu, hasDisplay, true, name);
    RenderingHas(gpu, hasDisplay, false, name);
    HasSwitchAppend(RenderingSwitches(gpu, hasDisplay, false), SandboxSwitches, name);
  }

  /** The switches that turn the GPU off belong to no group. */
  lemma SoftwareOnlyInItsGroup(name: string)
    requires name == "disable-gpu" || name == "disable-gpu-compositing"
    ensures !HasSwitch(FeatureSwitches, name) && !HasSwitch(SandboxSwitches, name)
    ensures !HasSwitch(SingleProcessSwitches, name) && !HasSwitch(HeadlessSwitches, name)
    ensures !HasSwitch(GlSwitches, name)
    ensures name != "enable-zero-copy" && name != "ignore-gpu-blocklist" && name != "disable-software-rasterizer"
  {
  }

  /** Both kinds of process switch the GPU off exactly when there is neither GPU nor display. */
  lemma SoftwareIff(singleProcess: bool, gpu: bool, hasDisplay: bool, name: string)
    requires name == "disable-gpu" || name == "disable-gpu-compositing"
    ensures HasSwitch(BrowserSwitches(singleProcess, gpu, hasDisplay), name) <==> !gpu && !hasDisplay
    ensures HasSwitch(ChildSwitches(gpu, hasDisplay), name) <==> !gpu && !hasDisplay
  {
    SoftwareOnlyInItsGroup(name);
    BrowserHas(singleProcess, gpu, hasDisplay, name);
    RenderingHas(gpu, hasDisplay, true, name);
    RenderingHas(gpu, hasDisplay, false, name);
    HasSwitchAppend(RenderingSwitches(gpu, hasDisplay, false), SandboxSwitches, name);
  }

  /** Zero-copy and the software-rasterizer switch belong to no group. */
  lemma BrowserOnlyInNoGroup(name: string)
    requires name == "enable-zero-copy" || name == "disable-software-rasterizer"
    ensures !HasSwitch(FeatureSwitches, name) && !HasSwitch(SandboxSwitches, name)
    ensures !HasSwitch(SingleProcessSwitches, name) && !HasSwitch(HeadlessSwitches, name)
    ensures !HasSwitch(GlSwitches, name)
    ensures name != "ignore-gpu-blocklist" && name != "disable-gpu" && name != "disable-gpu-compositing"
  {
  }

  /**
   * Zero-copy (with the GPU) and turning the software rasterizer off
   * (with neither GPU nor display) are given to the browser process only.
   */
  lemma BrowserOnlySwitches(singleProcess: bool, gpu: bool, hasDisplay: bool)
    ensures HasSwitch(BrowserSwitches(singleProcess, gpu, hasDisplay), "enable-zero-copy") <==> gpu
    ensures HasSwitch(BrowserSwitches(singleProcess, gpu, hasDisplay), "disable-software-rasterizer") <==> !gpu && !hasDisplay
    ensures !HasSwitch(ChildSwitches(gpu, hasDisplay), "enable-zero-copy")
    ensures !HasSwitch(ChildSwitches(gpu, hasDisplay), "disable-software-rasterizer")
  {
    var zc, sr := "enable-zero-copy", "disable-software-rasterizer";
    BrowserOnlyInNoGroup(zc);
    BrowserOnlyInNoGroup(sr);
    BrowserHas(singleProcess, gpu, hasDisplay, zc);
    BrowserHas(singleProcess, gpu, hasDisplay, sr);
    RenderingHas(gpu, hasDisplay, true, zc);
    RenderingHas(gpu, hasDisplay, true, sr);
    RenderingHas(gpu, hasDisplay, false, zc);
    RenderingHas(gpu, hasDisplay, false, sr);
    HasSwitchAppend(RenderingSwitches(gpu, hasDisplay, false), SandboxSwitches, zc);
    HasSwitchAppend(RenderingSwitches(gpu, hasDisplay, false), SandboxSwitches, sr);
  }

  /** With a display and no GPU, neither kind of process gets any rendering switch. */
  lemma DisplayWithoutGpuAddsNothing(singleProcess: bool)
    ensures BrowserSwitches(singleProcess, false, true) == CommonBrowserSwitches(singleProcess)
    ensures ChildSwitches(false, true) == SandboxSwitches
  {
  }

  /** A `CefCommandLine` the callbacks append switches to. */
  class CommandLine {
    var switches: seq<Switch>

    constructor (initial: seq<Switch>)
      ensures switches == initial
    {
      switches := initial;
    }

    method AppendSwitch(name: string)
      modifies this
      ensures switches == old(switches) + [Flag(name)]
    {
      switches := switches + [Flag(name)];
    }

    method AppendSwitchWithValue(name: string, value: string)
      modifies this
      ensures switches == old(switches) + [Valued(name, value)]
    {
      switches := switches + [Valued(name, value)];
    }
  }

  lemma AppendAssoc<T>(a: seq<T>, b: seq<T>, c: seq<T>)
    ensures a + (b + c) == a + b + c
  {
  }

  method AppendFeatureSwitches(commandLine: CommandLine)
    modifies commandLine
    ensures commandLine.switches == old(commandLine.switches) + FeatureSwitches
  {
    commandLine.AppendSwitch("disable-extensions");
    commandLine.AppendSwitch("disable-sync");
    commandLine.AppendSwitch("disable-background-networking");
    commandLine.AppendSwitch("no-first-run");
  }

  method AppendSandboxSwitches(commandLine: CommandLine)
    modifies commandLine
    ensures commandLine.switches == old(commandLine.switches) + SandboxSwitches
  {
    commandLine.AppendSwitch("disable-gpu-sandbox");
    commandLine.AppendSwitch("disable-seccomp-filter-sandbox");
    commandLine.AppendSwitch("no-sandbox");
    commandLine.AppendSwitchWithValue("log-severity", "warning");
  }

  method AppendSingleProcessSwitches(commandLine: CommandLine)
    modifies commandLine
    ensures commandLine.switches == old(commandLine.switches) + SingleProcessSwitches
  {
    commandLine.AppendSwitch("single-process");
    commandLine.AppendSwitch("disable-zygote");
    commandLine.AppendSwitch("in-process-gpu");
  }

  /** The browser switches that do not depend on the GPU or the display. */
  method AppendCommonBrowserSwitches(commandLine: CommandLine, singleProcess: bool)
    modifies commandLine
    ensures commandLine.switches == old(commandLine.switches) + CommonBrowserSwitches(singleProcess)
  {
    ghost var before := commandLine.switches;
    AppendFeatureSwitches(commandLine);
    AppendSandboxSwitches(commandLine);
    if singleProcess {
      AppendSingleProcessSwitches(commandLine);
    }
    var sp: seq<Switch> := if singleProcess then SingleProcessSwitches else [];
    AppendAssoc(before, FeatureSwitches, SandboxSwitches);
    AppendAssoc(before, FeatureSwitches + SandboxSwitches, sp);
  }

  method AppendHeadlessSwitches(commandLine: CommandLine)
    modifies commandLine
    ensures commandLine.switches == old(commandLine.switches) + HeadlessSwitches
  {
    commandLine.AppendSwitchWithValue("ozone-platform", "headless");
    commandLine.AppendSwitchWithValue("headless", "new");
  }

  /** The GPU and headless block both callbacks share, with its browser-only switches. */
  method AppendRenderingSwitches(commandLine: CommandLine, gpu: bool, hasDisplay: bool, browserProcess: bool)
    modifies commandLine
    ensures commandLine.switches == old(commandLine.switches) + RenderingSwitches(gpu, hasDisplay, browserProcess)
  {
    ghost var before := commandLine.switches;
    if gpu {
      commandLine.AppendSwitchWithValue("use-gl", "egl-angle");
      commandLine.AppendSwitchWithValue("use-angle", "egl");
      commandLine.AppendSwitch("enable-gpu-rasterization");
      assert commandLine.switches == before + GlSwitches;
      if browserProcess {
        commandLine.AppendSwitch("enable-zero-copy");
      }
      commandLine.AppendSwitch("ignore-gpu-blocklist");
      ghost var gl := commandLine.switches;
      assert gl == before + (GlSwitches + (if browserProcess then [Flag("enable-zero-copy")] else []) + [Flag("ignore-gpu-blocklist")]);
      if !hasDisplay {
        AppendHeadlessSwitches(commandLine);
      }
      assert commandLine.switches == gl + (if hasDisplay then [] else HeadlessSwitches);
    } else if !hasDisplay {
      AppendHeadlessSwitches(commandLine);
      commandLine.AppendSwitch("disable-gpu");
      commandLine.AppendSwitch("disable-gpu-compositing");
      if browserProcess {
        commandLine.AppendSwitch("disable-software-rasterizer");
      }
      assert commandLine.switches == before + (HeadlessSwitches + [Flag("disable-gpu"), Flag("disable-gpu-compositing")]
        + (if browserProcess then [Flag("disable-software-rasterizer")] else []));
    }
  }

  /** What the host lets the start of a browser see and do. */
  datatype LaunchEnv = LaunchEnv(
    dri: DriProbe,           // /dev/dri as probed by gpu_is_available and gpu_config_detect
    gpuUserSpecified: bool,  // whether the user chose the GPU mode
    singleProcess: bool,     // the single-process setting handed to cef_set_single_process
    initializeOk: bool,      // what CefInitialize returns
    createOk: bool,          // what CefBrowserHost::CreateBrowser returns
    threadOk: bool           // whether g_thread_new gave a thread
  )

  /**
   * Whether the GPU ends up enabled when gpu_ensure_config creates the
   * configuration: an explicit choice is honoured only when a GPU is
   * available, and in automatic mode availability decides.
   */
  function GpuDecision(userSpecified: bool, requested: bool, dri: DriProbe): bool {
    if userSpecified then requested && GpuIsAvailable(dri) else GpuIsAvailable(dri)
  }

  /** The GPU is never enabled unless a render node with a non-negative index is listed. */
  lemma GpuDecisionNeedsDevice(userSpecified: bool, requested: bool, dri: DriProbe)
    requires GpuDecision(userSpecified, requested, dri)
    ensures dri.isDir && dri.listing.Some? && DetectedIndex(dri.listing) >= 0
    ensures userSpecified ==> requested
  {
    BestDeviceIsMax(dri.listing.value);
  }

  /**
   * The process-wide statics of cef_render_handler.cpp: the GPU
   * configuration, whether CEF is initialised, and the single-process mode.
   * `cef_init_mutex` serialises initialisation, which each method here
   * performs as one step.
   */
  class CefProcess {
    var gpuConfig: GpuConfig?
    var cefInitialized: bool
    var singleProcessMode: bool

    constructor ()
      ensures gpuConfig == null && !cefInitialized && !singleProcessMode
    {
      gpuConfig := null;
      cefInitialized := false;
      singleProcessMode := false;
    }

    /** `should_enable_gpu`: the configured decision, or availability while there is no configuration. */
    predicate ShouldEnableGpu(dri: DriProbe)
      reads this, gpuConfig
    {
      if gpuConfig != null then gpuConfig.enabled else GpuIsAvailable(dri)
    }

    /** cef_set_single_process. */
    method SetSingleProcess(singleProcess: bool)
      modifies this`singleProcessMode
      ensures singleProcessMode == singleProcess
    {
      singleProcessMode := singleProcess;
    }

    /**
     * gpu_ensure_config: the first call creates the configuration and
     * settles the GPU decision for the whole process, copying the device
     * index to the element when a device is detected; later calls change
     * nothing.
     */
    method GpuEnsureConfig(src: ChromiumSrc, userSpecified: bool, dri: DriProbe)
      modifies this`gpuConfig, src`gpuEnabled, src`gpuDevice
      ensures gpuConfig != null
      ensures old(gpuConfig) != null ==>
        gpuConfig == old(gpuConfig) && src.gpuEnabled == old(src.gpuEnabled) && src.gpuDevice == old(src.gpuDevice)
      ensures old(gpuConfig) == null ==>
        var decision := GpuDecision(userSpecified, old(src.gpuEnabled), dri);
        && fresh(gpuConfig)
        && (gpuConfig.enabled <==> decision)
        && (userSpecified || decision ==> src.gpuEnabled == decision)
        && (!userSpecified && !decision ==> src.gpuEnabled == old(src.gpuEnabled))
        && (decision ==>
              && gpuConfig.deviceIndex == DetectedIndex(dri.listing) >= 0
              && gpuConfig.devicePath == Some(DevicePath(gpuConfig.deviceIndex))
              && src.gpuDevice == gpuConfig.deviceIndex)
        && (!decision ==> gpuConfig.deviceIndex == -1 && gpuConfig.devicePath == None && src.gpuDevice == old(src.gpuDevice))
    {
      if gpuConfig != null {
        return;
      }
      var config := new GpuConfig();
      gpuConfig := config;
      if userSpecified {
        if src.gpuEnabled && GpuIsAvailable(dri) {
          GpuDecisionNeedsDevice(userSpecified, src.gpuEnabled, dri);
          ConfigDetect(config, dri.listing);
          src.gpuDevice := config.deviceIndex;
        } else {
          config.enabled := false;
          src.gpuEnabled := false;
        }
      } else {
        if GpuIsAvailable(dri) {
          GpuDecisionNeedsDevice(userSpecified, src.gpuEnabled, dri);
          ConfigDetect(config, dri.listing);
          src.gpuEnabled := config.enabled;
          src.gpuDevice := config.deviceIndex;
        }
      }
    }

    /**
     * initialize_cef: a no-op success once CEF is up; otherwise success is
     * what CefInitialize reports, and only success is remembered.
     */
    method InitializeCef(initializeOk: bool) returns (ok: bool)
      modifies this`cefInitialized
      ensures cefInitialized == (old(cefInitialized) || initializeOk)
      ensures ok == cefInitialized
    {
      if cefInitialized {
        return true;
      }
      if !initializeOk {
        return false;
      }
      cefInitialized := true;
      return true;
    }

    /** OnBeforeCommandLineProcessing: the browser process's switches for the current mode. */
    method OnBeforeCommandLineProcessing(commandLine: CommandLine, hasDisplay: bool, dri: DriProbe)
      modifies commandLine
      ensures commandLine.switches ==
        old(commandLine.switches) + BrowserSwitches(singleProcessMode, ShouldEnableGpu(dri), hasDisplay)
    {
      ghost var before := commandLine.switches;
      AppendCommonBrowserSwitches(commandLine, singleProcessMode);
      var shouldEnableGpu := (gpuConfig != null && gpuConfig.enabled) || (gpuConfig == null && GpuIsAvailable(dri));
      AppendRenderingSwitches(commandLine, shouldEnableGpu, hasDisplay, true);
      AppendAssoc(before, CommonBrowserSwitches(singleProcessMode), RenderingSwitches(shouldEnableGpu, hasDisplay, true));
    }

    /** OnBeforeChildProcessLaunch: a child process's switches for the current mode. */
    method OnBeforeChildProcessLaunch(commandLine: CommandLine, hasDisplay: bool, dri: DriProbe)
      modifies commandLine
      ensures commandLine.switches == old(commandLine.switches) + ChildSwitches(ShouldEnableGpu(dri), hasDisplay)
    {
      var shouldEnableGpu := (gpuConfig != null && gpuConfig.enabled) || (gpuConfig == null && GpuIsAvailable(dri));
      AppendRenderingSwitches(commandLine, shouldEnableGpu, hasDisplay, false);
      AppendSandboxSwitches(commandLine);
    }

    /**
     * cef_browser_start: settle the GPU configuration and the process
     * mode, initialise CEF, then make a client for the element with the
     * element's view size (taking a reference on it), ask CEF for a
     * browser and start the message-loop thread. The browser itself
     * arrives later, through OnAfterCreated.
     */
    method BrowserStart(src: ChromiumSrc, width: int, height: int, env: LaunchEnv) returns (ok: bool)
      modifies this, src`gpuEnabled, src`gpuDevice, src`pageLoaded, src`cefClient, src`cefThread
      ensures Launched(this, src, width, height, env)
      ensures ok <==> cefInitialized && env.createOk && env.threadOk
    {
      GpuEnsureConfig(src, env.gpuUserSpecified, env.dri);
      SetSingleProcess(env.singleProcess);
      var initialized := InitializeCef(env.initializeOk);
      if !initialized {
        return false;
      }
      src.pageLoaded := false;
      var client := new CefClient(src, width, height);
      src.cefClient := client;
      client.refs := client.refs + 1;
      if !env.createOk {
        return false;
      }
      src.cefThread := env.threadOk;
      if !src.cefThread {
        return false;
      }
      return true;
    }
  }

  /**
   * What cef_browser_start leaves in the process: a GPU configuration
   * (the existing one kept), the requested process mode, and CEF up
   * exactly when it already was or initialises now.
   */
  twostate predicate ProcessLaunched(process: CefProcess, env: LaunchEnv)
    reads process
  {
    && process.gpuConfig != null && (old(process.gpuConfig) != null ==> process.gpuConfig == old(process.gpuConfig))
    && process.singleProcessMode == env.singleProcess
    && process.cefInitialized == (old(process.cefInitialized) || env.initializeOk)
  }

  /**
   * What cef_browser_start leaves behind, in the process and the element.
   * While CEF is down the element's page flag, client and thread are as
   * they were. Once CEF is up the page is not loaded, the element holds a
   * new client for a `width` x `height` view with one reference, and a
   * thread handle when the browser was requested.
   */
  twostate predicate Launched(process: CefProcess, src: ChromiumSrc, width: int, height: int, env: LaunchEnv)
    reads process, src, src.cefClient
  {
    && ProcessLaunched(process, env)
    && (!process.cefInitialized ==>
          src.pageLoaded == old(src.pageLoaded) && src.cefClient == old(src.cefClient) && src.cefThread == old(src.cefThread))
    && (process.cefInitialized ==>
          && !src.pageLoaded
          && src.cefClient != null && fresh(src.cefClient) && src.cefClient.refs == 1
          && src.cefClient.src == src && src.cefClient.viewWidth == width && src.cefClient.viewHeight == height
          && src.cefThread == (if env.createOk then env.threadOk else old(src.cefThread)))
  }

  /**
   * OnPaint: a paint of the view's size reaches the frame slot (which
   * takes it only while the element runs with a buffer); a paint of any
   * other size, or one for no element, is dropped.
   */
  method OnPaint(client: CefClient, width: int, height: int, paint: nat)
    modifies (if client.src == null then {} else {client.src})`frameBuffer
    modifies (if client.src == null then {} else {client.src})`frameReady
    ensures client.src != null ==>
      client.src.SlotView() ==
        if width == client.viewWidth && height == client.viewHeight
        then Publish(old(client.src.SlotView()), paint) else old(client.src.SlotView())
  {
    var src := client.src;
    if src == null || !src.running || src.frameBuffer.None? {
      return;
    }
    if width != client.viewWidth || height != client.viewHeight {
      return;
    }
    src.PublishLocked(paint);
  }

  /** OnLoadEnd: the main frame finishing marks the page loaded, whatever the HTTP status; sub-frames do nothing. */
  method OnLoadEnd(client: CefClient, isMainFrame: bool, httpStatusCode: int)
    requires client.src != null
    modifies client.src`pageLoaded
    ensures client.src.pageLoaded == (old(client.src.pageLoaded) || isMainFrame)
  {
    if isMainFrame {
      client.src.pageLoaded := true;
    }
  }

  /** OnAfterCreated: the element keeps the new browser and takes a reference on it. */
  method OnAfterCreated(client: CefClient, browser: CefBrowser)
    modifies (if client.src == null then {} else {client.src})`cefBrowser, browser`refs
    ensures client.src != null ==> client.src.cefBrowser == browser && browser.refs == old(browser.refs) + 1
    ensures client.src == null ==> browser.refs == old(browser.refs)
  {
    if client.src != null {
      client.src.cefBrowser := browser;
      browser.refs := browser.refs + 1;
    }
  }

  /**
   * One pass of the message-loop thread: the loop goes on while the
   * element runs, and once the page is loaded and a browser exists each
   * pass asks the browser to repaint the view.
   */
  method MessageLoopStep(src: ChromiumSrc) returns (keepGoing: bool)
    modifies src.cefBrowser
    ensures keepGoing == src.running
    ensures src.cefBrowser != null ==>
      src.cefBrowser.invalidations ==
        old(src.cefBrowser.invalidations) + (if src.running && src.pageLoaded then 1 else 0)
    ensures src.cefBrowser != null ==>
      src.cefBrowser.refs == old(src.cefBrowser.refs) && src.cefBrowser.closed == old(src.cefBrowser.closed)
  {
    if !src.running {
      return false;
    }
    if src.pageLoaded && src.cefBrowser != null {
      src.cefBrowser.invalidations := src.cefBrowser.invalidations + 1;
    }
    return true;
  }

  /**
   * cef_browser_stop: join the loop thread, close and release the
   * browser, release the client, and forget all three; nothing happens
   * for a NULL element.
   */
  method BrowserStop(src: ChromiumSrc?)
    modifies (if src == null then {} else {src})`cefThread
    modifies (if src == null then {} else {src})`cefBrowser
    modifies (if src == null then {} else {src})`cefClient
    modifies if src == null then {} else {src.cefBrowser}
    modifies if src == null then {} else {src.cefClient}
    ensures src != null ==>
      && !src.cefThread && src.cefBrowser == null && src.cefClient == null
      && (old(src.cefBrowser) != null ==>
            && old(src.cefBrowser).closed && old(src.cefBrowser).refs == old(src.cefBrowser.refs) - 1
            && old(src.cefBrowser).invalidations == old(src.cefBrowser.invalidations))
      && (old(src.cefClient) != null ==> old(src.cefClient).refs == old(src.cefClient.refs) - 1)
  {
    if src == null {
      return;
    }
    if src.cefThread {
      src.cefThread := false;
    }
    if src.cefBrowser != null {
      var browser := src.cefBrowser;
      browser.closed := true;
      browser.refs := browser.refs - 1;
      src.cefBrowser := null;
    }
    if src.cefClient != null {
      var client := src.cefClient;
      client.refs := client.refs - 1;
      src.cefClient := null;
    }
  }
}
