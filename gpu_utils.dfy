/**
 * GPU render-device selection (gpu_utils.cpp). The `/dev/dri` directory is
 * an input: whether it tests as a directory and, when it can be opened,
 * the names it lists, in the order the platform enumerates them.
 */
module GpuUtils {
  import opened CLib

  /** What the host shows of `/dev/dri`: `g_file_test(..., IS_DIR)` and `g_dir_open` + `g_dir_read_name`. */
  datatype DriProbe = DriProbe(isDir: bool, listing: Option<seq<string>>)

  const RenderPrefix: string := "renderD"

  /** The directory every device path is built under. */
  const RenderPathPrefix: string := "/dev/dri/renderD"

  /** An entry counts as a render node when its name starts with "renderD". */
  predicate IsRenderNode(name: string) {
    HasPrefix(name, RenderPrefix)
  }

  /** `atoi(name + 7)`: the index written after "renderD". */
  function RenderIndex(name: string): int
    requires IsRenderNode(name)
  {
    Atoi(name[|RenderPrefix|..])
  }

  /**
   * The value `highest_render` holds after the scan has seen `names`:
   * starting from -1, each render node whose index is larger replaces it.
   */
  function BestDevice(names: seq<string>): int
  {
    if names == [] then -1
    else
      var rest := BestDevice(names[..|names| - 1]);
      var last := names[|names| - 1];
      if IsRenderNode(last) && RenderIndex(last) > rest then RenderIndex(last) else rest
  }

  /** The result of gpu_detect_best_device for a probe: -1 when the directory cannot be opened. */
  function DetectedIndex(listing: Option<seq<string>>): int
  {
    match listing
    case None => -1
    case Some(names) => BestDevice(names)
  }

  /** `best` is the largest render index in `names`, floored at -1. */
  ghost predicate IsBestDevice(names: seq<string>, best: int) {
    && best >= -1
    && (forall i :: 0 <= i < |names| && IsRenderNode(names[i]) ==> RenderIndex(names[i]) <= best)
    && (best == -1 || exists i :: 0 <= i < |names| && IsRenderNode(names[i]) && RenderIndex(names[i]) == best)
  }

  /** The scan computes the maximum render index over the listing, or -1. */
  lemma {:induction false} BestDeviceIsMax(names: seq<string>)
    ensures IsBestDevice(names, BestDevice(names))
  {
    if names != [] {
      var init := names[..|names| - 1];
      BestDeviceIsMax(init);
      var rest := BestDevice(init);
      if rest != -1 {
        var j :| 0 <= j < |init| && IsRenderNode(init[j]) && RenderIndex(init[j]) == rest;
        assert names[j] == init[j];
      }
      forall i | 0 <= i < |names| && IsRenderNode(names[i])
        ensures RenderIndex(names[i]) <= BestDevice(names)
      {
        if i < |init| {
          assert names[i] == init[i];
        }
      }
    }
  }

  /** The maximum is unique, so two listings with the same entries give the same device. */
  lemma BestDeviceUnique(a: seq<string>, b: seq<string>, x: int, y: int)
    requires forall s :: s in a <==> s in b
    requires IsBestDevice(a, x) && IsBestDevice(b, y)
    ensures x == y
  {
    if x != -1 {
      var i :| 0 <= i < |a| && IsRenderNode(a[i]) && RenderIndex(a[i]) == x;
      assert a[i] in b;
      var j :| 0 <= j < |b| && b[j] == a[i];
      assert x <= y;
    }
    if y != -1 {
      var j :| 0 <= j < |b| && IsRenderNode(b[j]) && RenderIndex(b[j]) == y;
      assert b[j] in a;
      var i :| 0 <= i < |a| && a[i] == b[j];
      assert y <= x;
    }
  }

  /** The result does not depend on the order the platform enumerates the directory. */
  lemma BestDeviceOrderIndependent(a: seq<string>, b: seq<string>)
    requires multiset(a) == multiset(b)
    ensures BestDevice(a) == BestDevice(b)
  {
    forall s
      ensures s in a <==> s in b
    {
      assert s in a <==> s in multiset(a);
      assert s in b <==> s in multiset(b);
    }
    BestDeviceIsMax(a);
    BestDeviceIsMax(b);
    BestDeviceUnique(a, b, BestDevice(a), BestDevice(b));
  }

  /** "renderD" followed by the decimal numeral of `n` is a render node of index `n`. */
  lemma RenderIndexOfName(n: nat)
    ensures IsRenderNode(RenderPrefix + Decimal(n))
    ensures RenderIndex(RenderPrefix + Decimal(n)) == n
  {
    assert (RenderPrefix + Decimal(n))[|RenderPrefix|..] == Decimal(n);
    AtoiDecimal(n);
  }

  /** One step of the scan: the entry read last competes with the best of the ones before it. */
  lemma BestDeviceSnoc(init: seq<string>, last: string)
    ensures BestDevice(init + [last]) ==
      if IsRenderNode(last) && RenderIndex(last) > BestDevice(init) then RenderIndex(last) else BestDevice(init)
  {
    assert (init + [last])[..|init|] == init;
  }

  /** The worked example: of renderD128, renderD129 and renderD64 the scan picks 129; other entries are ignored. */
  lemma BestDeviceExample()
    ensures BestDevice(["card0", "renderD128", "renderD129", "by-path", "renderD64"]) == 129
  {
    assert !IsRenderNode("card0");
    assert !IsRenderNode("by-path") by {
      assert "by-path"[0] != RenderPrefix[0];
    }
    RenderIndexOfName(128);
    RenderIndexOfName(129);
    RenderIndexOfName(64);
    assert Decimal(128) == "128" && Decimal(129) == "129" && Decimal(64) == "64";
    assert RenderPrefix + "128" == "renderD128";
    assert RenderPrefix + "129" == "renderD129";
    assert RenderPrefix + "64" == "renderD64";
    var a, b, c, d, e := "card0", "renderD128", "renderD129", "by-path", "renderD64";
    BestDeviceSnoc([], a);
    assert [] + [a] == [a];
    BestDeviceSnoc([a], b);
    assert [a] + [b] == [a, b];
    BestDeviceSnoc([a, b], c);
    assert [a, b] + [c] == [a, b, c];
    BestDeviceSnoc([a, b, c], d);
    assert [a, b, c] + [d] == [a, b, c, d];
    BestDeviceSnoc([a, b, c, d], e);
    assert [a, b, c, d] + [e] == [a, b, c, d, e];
  }

  /**
   * gpu_detect_best_device: scan the listing and keep the highest
   * render index; -1 when the directory cannot be opened or has no
   * render node.
   */
  method DetectBestDevice(listing: Option<seq<string>>) returns (best: int)
    ensures best == DetectedIndex(listing)
    ensures listing.None? ==> best == -1
    ensures listing.Some? ==> IsBestDevice(listing.value, best)
  {
    if listing.None? {
      return -1;
    }
    var names := listing.value;
    best := -1;
    var i := 0;
    while i < |names|
      invariant 0 <= i <= |names|
      invariant best == BestDevice(names[..i])
    {
      assert names[..i + 1][..i] == names[..i];
      if IsRenderNode(names[i]) {
        var num := RenderIndex(names[i]);
        if num > best {
          best := num;
        }
      }
      i := i + 1;
    }
    assert names[..i] == names;
    BestDeviceIsMax(names);
  }

  /**
   * gpu_is_available: the directory tests as a directory and the scan
   * finds a render device.
   */
  predicate GpuIsAvailable(dri: DriProbe) {
    dri.isDir && DetectedIndex(dri.listing) >= 0
  }

  /** A GPU is available exactly when the directory lists a render node with a non-negative index. */
  lemma GpuIsAvailableIff(dri: DriProbe)
    ensures GpuIsAvailable(dri) <==>
      dri.isDir && dri.listing.Some? &&
      exists i :: 0 <= i < |dri.listing.value| && IsRenderNode(dri.listing.value[i]) && RenderIndex(dri.listing.value[i]) >= 0
  {
    if dri.listing.Some? {
      BestDeviceIsMax(dri.listing.value);
    }
  }

  /** The path of render node `index`: `g_strdup_printf("/dev/dri/renderD%d", index)`. */
  function DevicePath(index: int): string
  {
    RenderPathPrefix + FormatInt(index)
  }

  /** The device path names the render node whose index was detected. */
  lemma DevicePathNamesIndex(index: int)
    ensures HasPrefix(DevicePath(index), "/dev/dri/")
    ensures var node := DevicePath(index)[|"/dev/dri/"|..]; IsRenderNode(node) && RenderIndex(node) == index
  {
    var digits := FormatInt(index);
    assert RenderPathPrefix == "/dev/dri/" + RenderPrefix;
    assert DevicePath(index) == "/dev/dri/" + (RenderPrefix + digits);
    ConcatParts("/dev/dri/", RenderPrefix + digits);
    ConcatParts(RenderPrefix, digits);
    AtoiFormatInt(index);
  }

  /** A concatenation splits back into its two parts. */
  lemma ConcatParts(a: string, b: string)
    ensures (a + b)[..|a|] == a && (a + b)[|a|..] == b
  {
  }

  /** The `GpuConfig` record, allocated once and filled in place. */
  class GpuConfig {
    var enabled: bool
    var deviceIndex: int
    var devicePath: Option<string>

    /** gpu_config_new: disabled, index -1, no path. */
    constructor ()
      ensures !enabled && deviceIndex == -1 && devicePath == None
    {
      enabled := false;
      deviceIndex := -1;
      devicePath := None;
    }
  }

  /**
   * gpu_config_detect: on a NULL config nothing happens. Otherwise the
   * index is the detected one; a non-negative index enables the GPU with
   * its device path, anything else disables it and clears the path. The
   * existence test on the path only logs, so it has no effect here.
   */
  method ConfigDetect(config: GpuConfig?, listing: Option<seq<string>>)
    modifies config
    ensures config != null ==>
      && config.deviceIndex == DetectedIndex(listing)
      && (config.enabled <==> config.deviceIndex >= 0)
      && config.devicePath == (if config.enabled then Some(DevicePath(config.deviceIndex)) else None)
  {
    if config == null {
      return;
    }
    config.deviceIndex := DetectBestDevice(listing);
    if config.deviceIndex >= 0 {
      config.enabled := true;
      config.devicePath := Some(DevicePath(config.deviceIndex));
    } else {
      config.enabled := false;
      config.devicePath := None;
    }
  }
}
