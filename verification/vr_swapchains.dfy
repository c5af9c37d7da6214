/**
 * The swapchain manager: choosing the view configuration and the colour and
 * depth formats, creating the two swapchains with their framebuffer tables,
 * destroying them, binding a framebuffer for a frame, acquiring and
 * releasing images, and the part/crop selection of the desktop blit.
 *
 * OpenGL is reduced to the names it hands out and the calls made with them
 * (`Gl`); the runtime's answers (view configurations, recommended sizes,
 * formats, swapchain images, acquired indices) are parameters.
 */
module Swapchains {
  import opened VrTypes

  // GL enum values of the formats the layer asks for.
  const GL_SRGB8_ALPHA8: int := 0x8C43
  const GL_RGBA16F: int := 0x881A
  const GL_RGBA8: int := 0x8058
  const GL_RGB10_A2: int := 0x8059
  const GL_RGBA8_SNORM: int := 0x8F97
  const GL_DEPTH_COMPONENT32F: int := 0x8CAC
  const GL_DEPTH_COMPONENT32: int := 0x81A7
  const GL_DEPTH_COMPONENT24: int := 0x81A6
  const GL_DEPTH_COMPONENT16: int := 0x81A5

  /** Colour formats, most preferred first. */
  const ColorPreferences: seq<int> := [GL_SRGB8_ALPHA8, GL_RGBA16F, GL_RGBA8, GL_RGB10_A2, GL_RGBA8_SNORM]
  /** Depth formats, most preferred first. */
  const DepthPreferences: seq<int> := [GL_DEPTH_COMPONENT32F, GL_DEPTH_COMPONENT32, GL_DEPTH_COMPONENT24, GL_DEPTH_COMPONENT16]

  // XrViewConfigurationType values.
  const PrimaryStereo: int := 2
  const ViewConfigurationMaxEnum: int := 0x7FFF_FFFF

  /** `HasFormatInList`: `format` is among the first `count` entries of `formats`. */
  function HasFormatInList(formats: seq<int>, count: nat, format: int): (r: bool)
    requires count <= |formats|
    ensures r <==> format in formats[..count]
    decreases count
  {
    if count == 0 then false
    else if formats[0] == format then true
    else
      assert formats[..count] == [formats[0]] + formats[1..][..count - 1];
      HasFormatInList(formats[1..], count - 1, format)
  }

  /** The position in `prefs` of the first preference the list offers. */
  function FirstOffered(prefs: seq<int>, formats: seq<int>, count: nat): (r: Option<nat>)
    requires count <= |formats|
    ensures r.None? <==> forall j :: 0 <= j < |prefs| ==> prefs[j] !in formats[..count]
    ensures r.Some? ==> r.value < |prefs| && prefs[r.value] in formats[..count]
                        && forall j :: 0 <= j < r.value ==> prefs[j] !in formats[..count]
    decreases |prefs|
  {
    if prefs == [] then None
    else if HasFormatInList(formats, count, prefs[0]) then Some(0)
    else match FirstOffered(prefs[1..], formats, count)
      case None => None
      case Some(i) => Some(i + 1)
  }

  /** A chosen colour format and whether the non-sRGB warning is printed. */
  datatype ColorPick = ColorPick(format: int, warned: bool)

  /**
   * `VR_GetBestColorSwapchainFormat`: the first offered colour preference,
   * with a warning exactly when it is not the first preference; `None` is
   * the fatal check.
   */
  function BestColorFormat(formats: seq<int>, count: nat): (r: Option<ColorPick>)
    requires count <= |formats|
    ensures r.None? <==> forall f :: f in ColorPreferences ==> f !in formats[..count]
    ensures r.Some? ==> r.value.format in ColorPreferences && r.value.format in formats[..count]
    ensures r.Some? ==> (r.value.warned <==> r.value.format != GL_SRGB8_ALPHA8)
    ensures r.Some? ==> forall j :: 0 <= j < |ColorPreferences| && ColorPreferences[j] == r.value.format ==>
                          forall i :: 0 <= i < j ==> ColorPreferences[i] !in formats[..count]
  {
    match FirstOffered(ColorPreferences, formats, count)
      case None => None
      case Some(i) => Some(ColorPick(ColorPreferences[i], i >= 1))
  }

  /** `VR_GetBestDepthSwapchainFormat`: the first offered depth preference; `None` is the fatal check. */
  function BestDepthFormat(formats: seq<int>, count: nat): (r: Option<int>)
    requires count <= |formats|
    ensures r.None? <==> forall f :: f in DepthPreferences ==> f !in formats[..count]
    ensures r.Some? ==> r.value in DepthPreferences && r.value in formats[..count]
    ensures r.Some? ==> forall j :: 0 <= j < |DepthPreferences| && DepthPreferences[j] == r.value ==>
                          forall i :: 0 <= i < j ==> DepthPreferences[i] !in formats[..count]
  {
    match FirstOffered(DepthPreferences, formats, count)
      case None => None
      case Some(i) => Some(DepthPreferences[i])
  }

  /** `VR_GetBestViewConfiguration`: primary stereo when offered, else the sentinel the callers reject. */
  function BestViewConfiguration(offered: seq<int>): (r: int)
    ensures r == PrimaryStereo <==> PrimaryStereo in offered
    ensures r != PrimaryStereo ==> r == ViewConfigurationMaxEnum
  {
    if PrimaryStereo in offered then PrimaryStereo else ViewConfigurationMaxEnum
  }

  /** XrViewConfigurationView: the recommended image size of one view. */
  datatype ViewSize = ViewSize(width: int, height: int)

  /** Every view recommends the size of view 0 (the multiview sanity check). */
  predicate SameSizes(views: seq<ViewSize>)
  {
    forall k :: 0 <= k < |views| ==> views[k] == views[0]
  }

  /**
   * `VR_GetRecommendedResolution`: the size of view 0 of the primary stereo
   * configuration; `None` is the fatal check on the configuration.
   */
  function RecommendedResolution(offered: seq<int>, views: seq<ViewSize>): (r: Option<ViewSize>)
    requires |views| >= 1
    ensures r.Some? <==> PrimaryStereo in offered
    ensures r.Some? ==> r.value == views[0]
  {
    if BestViewConfiguration(offered) == ViewConfigurationMaxEnum then None else Some(views[0])
  }

  /** A GL call the swapchain manager makes. */
  datatype GlCall =
    | GenFramebuffer(name: nat)
    | DeleteFramebuffer(name: nat)
    | GenTexture(name: nat)
    | DeleteTexture(name: nat)
    | BindDrawFramebuffer(name: nat)
    | BlitFramebuffer(blit: Blit)

  /** `glBlitNamedFramebuffer` from an eye framebuffer to the window. */
  datatype Blit = Blit(source: nat, srcX0: int, srcY0: int, srcX1: int, srcY1: int,
                       dstX0: int, dstY0: int, dstX1: int, dstY1: int)

  /** The GL context: the names it has handed out so far and the calls made into it. */
  class Gl {
    var lastName: nat
    var calls: seq<GlCall>

    constructor ()
      ensures lastName == 0 && calls == []
    {
      lastName, calls := 0, [];
    }

    /** `glGenFramebuffers`: a name never handed out before, never 0. */
    method NewFramebuffer() returns (name: nat)
      modifies this
      ensures name == lastName == old(lastName) + 1 && calls == old(calls) + [GenFramebuffer(name)]
    {
      lastName := lastName + 1;
      name := lastName;
      calls := calls + [GenFramebuffer(name)];
    }

    /** `glGenTextures`. */
    method NewTexture() returns (name: nat)
      modifies this
      ensures name == lastName == old(lastName) + 1 && calls == old(calls) + [GenTexture(name)]
    {
      lastName := lastName + 1;
      name := lastName;
      calls := calls + [GenTexture(name)];
    }

    /** Records one call that hands out no name. */
    method Call(c: GlCall)
      modifies this
      ensures calls == old(calls) + [c] && lastName == old(lastName)
    {
      calls := calls + [c];
    }
  }

  /** VR_SwapchainInfo. */
  class SwapchainInfo {
    var swapchain: Handle
    var format: int
    var imageCount: nat
    var images: seq<nat>              // the GL names of the swapchain images; [] for NULL
    var virtualScreenImage: nat
    var width: int
    var height: int

    constructor (swapchain: Handle, format: int, images: seq<nat>, virtualScreenImage: nat, width: int, height: int)
      ensures this.swapchain == swapchain && this.format == format
      ensures imageCount == |images| && this.images == images
      ensures this.virtualScreenImage == virtualScreenImage && this.width == width && this.height == height
    {
      this.swapchain, this.format := swapchain, format;
      imageCount, this.images := |images|, images;
      this.virtualScreenImage, this.width, this.height := virtualScreenImage, width, height;
    }

    ghost predicate Valid()
      reads this
    {
      imageCount == |images|
    }
  }

  /** VR_SwapchainInfos. */
  class SwapchainInfos {
    var viewCount: nat
    const color: SwapchainInfo
    const depth: SwapchainInfo
    var framebuffers: seq<nat>          // one multiview framebuffer per colour image
    var eyeFramebuffers: seq<seq<nat>>  // [view][image]: framebuffers of one eye layer
    var virtualScreenFramebuffer: nat

    constructor (viewCount: nat, color: SwapchainInfo, depth: SwapchainInfo)
      ensures this.viewCount == viewCount && this.color == color && this.depth == depth
      ensures framebuffers == [] && eyeFramebuffers == [] && virtualScreenFramebuffer == 0
    {
      this.viewCount, this.color, this.depth := viewCount, color, depth;
      framebuffers, eyeFramebuffers, virtualScreenFramebuffer := [], [], 0;
    }

    /** The framebuffer tables have the shape the image count and the view count give. */
    ghost predicate Shaped()
      reads this, color, depth
    {
      && color.Valid() && depth.Valid() && color != depth
      && |framebuffers| == color.imageCount
      && |eyeFramebuffers| == viewCount
      && forall v :: 0 <= v < viewCount ==> |eyeFramebuffers[v]| == color.imageCount
    }
  }

  /** Every check of `VR_CreateSwapchains` passes on these runtime answers. */
  predicate CreationSucceeds(offered: seq<int>, views: seq<ViewSize>, formats: seq<int>,
                             colorImages: nat, depthImages: nat)
  {
    && PrimaryStereo in offered
    && BestColorFormat(formats, |formats|).Some?
    && BestDepthFormat(formats, |formats|).Some?
    && SameSizes(views)
    && colorImages == depthImages
  }

  /**
   * `VR_CreateSwapchains` with the runtime offering the view configurations
   * `offered`, the per-view sizes `views`, the formats `formats`, and the
   * image names `colorImages` and `depthImages` for the two swapchains.
   * Returns null where a check ends the process.
   */
  method CreateSwapchains(rt: Runtime, gl: Gl, offered: seq<int>, views: seq<ViewSize>, formats: seq<int>,
                          colorImages: seq<nat>, depthImages: seq<nat>) returns (s: SwapchainInfos?)
    requires |views| >= 1
    modifies rt, gl
    ensures s != null <==> CreationSucceeds(offered, views, formats, |colorImages|, |depthImages|)
    ensures s != null ==>
      && fresh(s) && fresh(s.color) && fresh(s.depth) && s.Shaped()
      && s.viewCount == |views|
      && s.color.images == colorImages && s.depth.images == depthImages
      && s.color.format == BestColorFormat(formats, |formats|).value.format
      && s.depth.format == BestDepthFormat(formats, |formats|).value
      && s.color.width == s.depth.width == views[0].width && s.color.height == s.depth.height == views[0].height
      && s.color.swapchain == Live(old(rt.nextId)) && s.depth.swapchain == Live(old(rt.nextId) + 1)
      && rt.calls == old(rt.calls) + [CreateSwapchain(s.color.format, |views|, views[0].width, views[0].height, s.color.swapchain),
                                      CreateSwapchain(s.depth.format, |views|, views[0].width, views[0].height, s.depth.swapchain)]
      && (forall k :: 0 <= k < |colorImages| ==> old(gl.lastName) < s.framebuffers[k] <= gl.lastName)
      && (forall v, k :: 0 <= v < |views| && 0 <= k < |colorImages| ==>
            old(gl.lastName) < s.eyeFramebuffers[v][k] <= gl.lastName)
      && old(gl.lastName) < s.virtualScreenFramebuffer == gl.lastName
  {
    if BestViewConfiguration(offered) == ViewConfigurationMaxEnum {
      return null;
    }
    var colorPick := BestColorFormat(formats, |formats|);
    var depthPick := BestDepthFormat(formats, |formats|);
    if colorPick.None? || depthPick.None? {
      return null;
    }
    var same := CheckSameSizes(views);
    if !same {
      return null;
    }
    var viewCount := |views|;
    var size := views[0];
    var color := NewSwapchain(rt, colorPick.value.format, viewCount, size, colorImages, gl, true);
    var depth := NewSwapchain(rt, depthPick.value, viewCount, size, depthImages, gl, false);
    if color.imageCount != depth.imageCount {
      return null;
    }
    s := new SwapchainInfos(viewCount, color, depth);
    FillFramebuffers(s, gl);
    var screenFramebuffer := gl.NewFramebuffer();
    s.virtualScreenFramebuffer := screenFramebuffer;
  }

  /**
   * One `xrCreateSwapchain` of `VR_CreateSwapchains` for `viewCount` array
   * layers of `size`, with the runtime handing out the images `images`; the
   * colour swapchain (`withScreen`) also gets the texture the virtual
   * screen is drawn into.
   */
  method NewSwapchain(rt: Runtime, format: int, viewCount: nat, size: ViewSize, images: seq<nat>, gl: Gl, withScreen: bool)
    returns (info: SwapchainInfo)
    modifies rt, gl
    ensures fresh(info) && info.Valid()
    ensures info.swapchain == Live(old(rt.nextId)) && rt.nextId == old(rt.nextId) + 1
    ensures rt.calls == old(rt.calls) + [CreateSwapchain(format, viewCount, size.width, size.height, info.swapchain)]
    ensures info.format == format && info.images == images && info.width == size.width && info.height == size.height
    ensures gl.lastName == old(gl.lastName) + (if withScreen then 1 else 0)
  {
    var handle := rt.NewHandle();
    rt.Call(CreateSwapchain(format, viewCount, size.width, size.height, handle));
    var screenImage := 0;
    if withScreen {
      screenImage := gl.NewTexture();
    }
    info := new SwapchainInfo(handle, format, images, screenImage, size.width, size.height);
  }

  /** The loop of `VR_CreateSwapchains` that compares every view's recommended size with view 0's. */
  method CheckSameSizes(views: seq<ViewSize>) returns (same: bool)
    requires |views| >= 1
    ensures same <==> SameSizes(views)
  {
    var idx := 0;
    while idx < |views|
      invariant 0 <= idx <= |views|
      invariant forall k :: 0 <= k < idx ==> views[k] == views[0]
    {
      if views[0].width != views[idx].width || views[0].height != views[idx].height {
        return false;
      }
      idx := idx + 1;
    }
    return true;
  }

  /**
   * The framebuffer loops of `VR_CreateSwapchains`: one multiview
   * framebuffer per colour image and, for each view, one framebuffer on that
   * view's layer of the image.
   */
  method FillFramebuffers(s: SwapchainInfos, gl: Gl)
    requires s.color.Valid() && s.depth.Valid() && s.color != s.depth
    modifies s, gl
    ensures s.Shaped() && s.viewCount == old(s.viewCount) && s.virtualScreenFramebuffer == old(s.virtualScreenFramebuffer)
    ensures old(gl.lastName) <= gl.lastName
    ensures forall k :: 0 <= k < s.color.imageCount ==> old(gl.lastName) < s.framebuffers[k] <= gl.lastName
    ensures forall v, k :: 0 <= v < s.viewCount && 0 <= k < s.color.imageCount ==>
              old(gl.lastName) < s.eyeFramebuffers[v][k] <= gl.lastName
  {
    var count := s.color.imageCount;
    s.framebuffers := seq(count, _ => 0);
    s.eyeFramebuffers := seq(s.viewCount, _ => seq(count, _ => 0));
    var idx := 0;
    while idx < count
      invariant 0 <= idx <= count && s.Shaped() && old(gl.lastName) <= gl.lastName
      invariant forall k :: 0 <= k < idx ==> old(gl.lastName) < s.framebuffers[k] <= gl.lastName
      invariant forall v, k :: 0 <= v < s.viewCount && 0 <= k < idx ==>
                  old(gl.lastName) < s.eyeFramebuffers[v][k] <= gl.lastName
      invariant s.viewCount == old(s.viewCount) && s.virtualScreenFramebuffer == old(s.virtualScreenFramebuffer)
    {
      var fb := gl.NewFramebuffer();
      s.framebuffers := s.framebuffers[idx := fb];
      var view := 0;
      while view < s.viewCount
        invariant 0 <= view <= s.viewCount && s.Shaped() && old(gl.lastName) < gl.lastName
        invariant forall k :: 0 <= k <= idx ==> old(gl.lastName) < s.framebuffers[k] <= gl.lastName
        invariant forall v, k :: 0 <= v < s.viewCount && 0 <= k < idx ==>
                    old(gl.lastName) < s.eyeFramebuffers[v][k] <= gl.lastName
        invariant forall v :: 0 <= v < view ==> old(gl.lastName) < s.eyeFramebuffers[v][idx] <= gl.lastName
        invariant s.viewCount == old(s.viewCount) && s.virtualScreenFramebuffer == old(s.virtualScreenFramebuffer)
      {
        var eye := gl.NewFramebuffer();
        s.eyeFramebuffers := s.eyeFramebuffers[view := s.eyeFramebuffers[view][idx := eye]];
        view := view + 1;
      }
      idx := idx + 1;
    }
  }

  /**
   * `VR_DestroySwapchain`: frees the image list, deletes the virtual-screen
   * texture, destroys the swapchain and nulls what it held.
   */
  method DestroySwapchain(sc: SwapchainInfo, rt: Runtime, gl: Gl)
    modifies sc, rt, gl
    ensures sc.imageCount == 0 && sc.images == [] && sc.virtualScreenImage == 0 && sc.swapchain == Null
    ensures sc.Valid() && sc.format == old(sc.format) && sc.width == old(sc.width) && sc.height == old(sc.height)
    ensures rt.calls == old(rt.calls) + [XrCall.DestroySwapchain(old(sc.swapchain))] && rt.nextId == old(rt.nextId)
    ensures gl.calls == old(gl.calls) + [DeleteTexture(old(sc.virtualScreenImage))] && gl.lastName == old(gl.lastName)
  {
    sc.imageCount, sc.images := 0, [];
    gl.Call(DeleteTexture(sc.virtualScreenImage));
    sc.virtualScreenImage := 0;
    rt.Call(XrCall.DestroySwapchain(sc.swapchain));
    sc.swapchain := Null;
  }

  /**
   * `VR_DestroySwapchains`: deletes every multiview and eye framebuffer,
   * empties both tables and destroys the colour and then the depth swapchain.
   * The virtual-screen framebuffer is not deleted.
   */
  method DestroySwapchains(s: SwapchainInfos, rt: Runtime, gl: Gl)
    requires s.Shaped()
    modifies s, s.color, s.depth, rt, gl
    ensures forall k :: 0 <= k < old(s.color.imageCount) ==> DeleteFramebuffer(old(s.framebuffers[k])) in gl.calls
    ensures forall v, k :: 0 <= v < old(s.viewCount) && 0 <= k < old(s.color.imageCount) ==>
              DeleteFramebuffer(old(s.eyeFramebuffers[v][k])) in gl.calls
    ensures DeletesOnly(gl.calls, old(gl.calls), old(s.framebuffers), old(s.eyeFramebuffers))
    ensures s.framebuffers == [] && s.eyeFramebuffers == [] && s.viewCount == old(s.viewCount)
    ensures s.color.imageCount == 0 && s.color.swapchain == Null && s.depth.imageCount == 0 && s.depth.swapchain == Null
    ensures rt.calls == old(rt.calls) + [XrCall.DestroySwapchain(old(s.color.swapchain)), XrCall.DestroySwapchain(old(s.depth.swapchain))]
    ensures gl.calls == old(gl.calls) + FramebufferDeletes(old(s.framebuffers), old(s.eyeFramebuffers), old(s.color.imageCount), old(s.viewCount))
                        + [DeleteTexture(old(s.color.virtualScreenImage)), DeleteTexture(old(s.depth.virtualScreenImage))]
    ensures s.color.virtualScreenImage == 0 && s.depth.virtualScreenImage == 0
    ensures s.virtualScreenFramebuffer == old(s.virtualScreenFramebuffer)
  {
    ghost var fbs, eyes, start := s.framebuffers, s.eyeFramebuffers, gl.calls;
    DeleteFramebuffers(s, gl);
    ghost var deleted := gl.calls;
    s.framebuffers, s.eyeFramebuffers := [], [];
    DestroySwapchain(s.color, rt, gl);
    DestroySwapchain(s.depth, rt, gl);
    DeletesOnlyExtend(deleted, start, fbs, eyes, gl.calls[|deleted|..]);
    assert gl.calls == deleted + gl.calls[|deleted|..];
  }

  /** The loops of `VR_DestroySwapchains` over the framebuffer tables. */
  method DeleteFramebuffers(s: SwapchainInfos, gl: Gl)
    requires s.Shaped()
    modifies gl
    ensures gl.calls == old(gl.calls) + FramebufferDeletes(s.framebuffers, s.eyeFramebuffers, s.color.imageCount, s.viewCount)
    ensures forall k :: 0 <= k < s.color.imageCount ==> DeleteFramebuffer(s.framebuffers[k]) in gl.calls
    ensures forall v, k :: 0 <= v < s.viewCount && 0 <= k < s.color.imageCount ==>
              DeleteFramebuffer(s.eyeFramebuffers[v][k]) in gl.calls
    ensures DeletesOnly(gl.calls, old(gl.calls), s.framebuffers, s.eyeFramebuffers)
    ensures gl.lastName == old(gl.lastName)
  {
    ghost var fbs, eyes, start := s.framebuffers, s.eyeFramebuffers, gl.calls;
    var idx := 0;
    while idx < s.color.imageCount
      invariant 0 <= idx <= s.color.imageCount && gl.lastName == old(gl.lastName)
      invariant gl.calls == start + FramebufferDeletes(fbs, eyes, idx, s.viewCount)
    {
      gl.Call(DeleteFramebuffer(s.framebuffers[idx]));
      var view := 0;
      while view < s.viewCount
        invariant 0 <= view <= s.viewCount && gl.lastName == old(gl.lastName)
        invariant gl.calls == start + FramebufferDeletes(fbs, eyes, idx, s.viewCount)
                              + [DeleteFramebuffer(fbs[idx])] + EyeDeletes(eyes, idx, view)
      {
        gl.Call(DeleteFramebuffer(s.eyeFramebuffers[view][idx]));
        view := view + 1;
      }
      idx := idx + 1;
    }
    AfterDeletes(start, fbs, eyes, idx, s.viewCount);
  }

  /** What a call list ending in the row-by-row deletes says about the tables. */
  lemma AfterDeletes(start: seq<GlCall>, fbs: seq<nat>, eyes: seq<seq<nat>>, n: nat, views: nat)
    requires n <= |fbs| && views <= |eyes| && forall v :: 0 <= v < views ==> n <= |eyes[v]|
    ensures var calls := start + FramebufferDeletes(fbs, eyes, n, views);
      && (forall k :: 0 <= k < n ==> DeleteFramebuffer(fbs[k]) in calls)
      && (forall v, k :: 0 <= v < views && 0 <= k < n ==> DeleteFramebuffer(eyes[v][k]) in calls)
      && DeletesOnly(calls, start, fbs, eyes)
  {
    var deletes := FramebufferDeletes(fbs, eyes, n, views);
    var calls := start + deletes;
    FramebufferDeletesCover(fbs, eyes, n, views);
    FramebufferDeletesOnly(fbs, eyes, n, views);
    forall i | |start| <= i < |calls| && calls[i].DeleteFramebuffer?
      ensures InTables(calls[i].name, fbs, eyes)
    {
      assert calls[i] == deletes[i - |start|];
    }
    assert calls[..|start|] == start;
  }

  /** Every multiview and eye framebuffer of the first `n` rows is deleted. */
  lemma {:induction false} FramebufferDeletesCover(fbs: seq<nat>, eyes: seq<seq<nat>>, n: nat, views: nat)
    requires n <= |fbs| && views <= |eyes| && forall v :: 0 <= v < views ==> n <= |eyes[v]|
    ensures forall k :: 0 <= k < n ==> DeleteFramebuffer(fbs[k]) in FramebufferDeletes(fbs, eyes, n, views)
    ensures forall v, k :: 0 <= v < views && 0 <= k < n ==> DeleteFramebuffer(eyes[v][k]) in FramebufferDeletes(fbs, eyes, n, views)
  {
    if n > 0 {
      FramebufferDeletesCover(fbs, eyes, n - 1, views);
      EyeDeletesCover(eyes, n - 1, views);
    }
  }

  /** Every eye framebuffer of image `k` is deleted. */
  lemma {:induction false} EyeDeletesCover(eyes: seq<seq<nat>>, k: nat, views: nat)
    requires views <= |eyes| && forall v :: 0 <= v < views ==> k < |eyes[v]|
    ensures forall v :: 0 <= v < views ==> DeleteFramebuffer(eyes[v][k]) in EyeDeletes(eyes, k, views)
  {
    if views > 0 {
      EyeDeletesCover(eyes, k, views - 1);
    }
  }

  /** The deletes of the first `n` rows name only framebuffers of the two tables. */
  lemma {:induction false} FramebufferDeletesOnly(fbs: seq<nat>, eyes: seq<seq<nat>>, n: nat, views: nat)
    requires n <= |fbs| && views <= |eyes| && forall v :: 0 <= v < views ==> n <= |eyes[v]|
    ensures forall c | c in FramebufferDeletes(fbs, eyes, n, views) :: c.DeleteFramebuffer? && InTables(c.name, fbs, eyes)
  {
    if n > 0 {
      var prefix := FramebufferDeletes(fbs, eyes, n - 1, views);
      var row := EyeDeletes(eyes, n - 1, views);
      FramebufferDeletesOnly(fbs, eyes, n - 1, views);
      EyeDeletesOnly(eyes, n - 1, views);
      assert fbs[n - 1] in fbs;
      forall c | c in prefix + [DeleteFramebuffer(fbs[n - 1])] + row
        ensures c.DeleteFramebuffer? && InTables(c.name, fbs, eyes)
      {
        if c in row {
          var v :| 0 <= v < |eyes| && c.name in eyes[v];
        }
      }
    }
  }

  /** The eye deletes of image `k` name only eye framebuffers. */
  lemma {:induction false} EyeDeletesOnly(eyes: seq<seq<nat>>, k: nat, views: nat)
    requires views <= |eyes| && forall v :: 0 <= v < views ==> k < |eyes[v]|
    ensures forall c | c in EyeDeletes(eyes, k, views) ::
              c.DeleteFramebuffer? && exists v | 0 <= v < |eyes| :: c.name in eyes[v]
  {
    if views > 0 {
      EyeDeletesOnly(eyes, k, views - 1);
      assert eyes[views - 1][k] in eyes[views - 1];
    }
  }

  /** `name` is a multiview framebuffer or an eye framebuffer of the tables. */
  ghost predicate InTables(name: nat, fbs: seq<nat>, eyes: seq<seq<nat>>)
  {
    name in fbs || exists v | 0 <= v < |eyes| :: name in eyes[v]
  }

  /** Appending calls that delete no framebuffer keeps `DeletesOnly`. */
  lemma DeletesOnlyExtend(calls: seq<GlCall>, start: seq<GlCall>, fbs: seq<nat>, eyes: seq<seq<nat>>, more: seq<GlCall>)
    requires DeletesOnly(calls, start, fbs, eyes)
    requires forall i :: 0 <= i < |more| ==> !more[i].DeleteFramebuffer?
    ensures DeletesOnly(calls + more, start, fbs, eyes)
  {
    assert (calls + more)[..|start|] == start;
    forall i | |start| <= i < |calls + more| && (calls + more)[i].DeleteFramebuffer?
      ensures InTables((calls + more)[i].name, fbs, eyes)
    {
      assert i < |calls|;
      assert (calls + more)[i] == calls[i];
    }
  }

  /**
   * The deletes of the first `n` table rows, in the order `VR_DestroySwapchains`
   * issues them: each multiview framebuffer followed by its `views` eye framebuffers.
   */
  function FramebufferDeletes(fbs: seq<nat>, eyes: seq<seq<nat>>, n: nat, views: nat): seq<GlCall>
    requires n <= |fbs| && views <= |eyes| && forall v :: 0 <= v < views ==> n <= |eyes[v]|
  {
    if n == 0 then []
    else FramebufferDeletes(fbs, eyes, n - 1, views) + [DeleteFramebuffer(fbs[n - 1])] + EyeDeletes(eyes, n - 1, views)
  }

  /** The deletes of the eye framebuffers of image `k` for the first `views` views. */
  function EyeDeletes(eyes: seq<seq<nat>>, k: nat, views: nat): seq<GlCall>
    requires views <= |eyes| && forall v :: 0 <= v < views ==> k < |eyes[v]|
  {
    if views == 0 then [] else EyeDeletes(eyes, k, views - 1) + [DeleteFramebuffer(eyes[views - 1][k])]
  }

  /**
   * The calls after `start` delete only framebuffers of the two tables, so
   * any other framebuffer (the virtual-screen one) is left alone.
   */
  ghost predicate DeletesOnly(calls: seq<GlCall>, start: seq<GlCall>, fbs: seq<nat>, eyes: seq<seq<nat>>)
  {
    && |start| <= |calls| && calls[..|start|] == start
    && forall i :: |start| <= i < |calls| && calls[i].DeleteFramebuffer? ==> InTables(calls[i].name, fbs, eyes)
  }

  /**
   * `VR_Swapchains_BindFramebuffers`: with no swapchains binds the window
   * (framebuffer 0); otherwise both image indices must be in range, which
   * `ok` reports, and the multiview framebuffer of the colour image is bound.
   */
  method BindFramebuffers(s: SwapchainInfos?, colorIndex: nat, depthIndex: nat, gl: Gl) returns (ok: bool)
    requires s != null ==> s.Shaped()
    modifies gl
    ensures s == null ==> ok && gl.calls == old(gl.calls) + [BindDrawFramebuffer(0)]
    ensures s != null ==> (ok <==> colorIndex < s.color.imageCount && depthIndex < s.depth.imageCount)
    ensures s != null && ok ==> gl.calls == old(gl.calls) + [BindDrawFramebuffer(s.framebuffers[colorIndex])]
    ensures s != null && !ok ==> gl.calls == old(gl.calls)
    ensures gl.lastName == old(gl.lastName)
  {
    if s == null {
      gl.Call(BindDrawFramebuffer(0));
      return true;
    }
    if colorIndex >= s.color.imageCount || depthIndex >= s.depth.imageCount {
      return false;
    }
    gl.Call(BindDrawFramebuffer(s.framebuffers[colorIndex]));
    ok := true;
  }

  /** `VR_Swapchains_Acquire`: the colour and then the depth image index the runtime hands out. */
  method Acquire(s: SwapchainInfos, rt: Runtime, colorIndex: nat, depthIndex: nat) returns (c: nat, d: nat)
    modifies rt
    ensures c == colorIndex && d == depthIndex
    ensures rt.calls == old(rt.calls) + [AcquireImages(colorIndex, depthIndex)] && rt.nextId == old(rt.nextId)
  {
    rt.Call(AcquireImages(colorIndex, depthIndex));
    c, d := colorIndex, depthIndex;
  }

  /** `VR_Swapchains_Release`: releases the colour and the depth image. */
  method Release(s: SwapchainInfos, rt: Runtime)
    modifies rt
    ensures rt.calls == old(rt.calls) + [ReleaseImages] && rt.nextId == old(rt.nextId)
  {
    rt.Call(ReleaseImages);
  }

  /** XrDesktopViewConfiguration: a bit for the left eye, a bit for the right. */
  datatype DesktopView = LeftEye | RightEye | BothEyes

  function Bits(v: DesktopView): (r: nat)
    ensures 1 <= r <= 3
  {
    match v
      case LeftEye => 1
      case RightEye => 2
      case BothEyes => 3
  }

  /** How many side-by-side parts the window is split into. */
  function Parts(viewCount: nat, v: DesktopView): (r: nat)
    ensures r == 2 <==> viewCount > 1 && v == BothEyes
    ensures r == 1 || r == 2
  {
    if viewCount > 1 then 1 + (if v == BothEyes then 1 else 0) else 1
  }

  /** Part `part` is drawn when bit `part + 1` of the view configuration is set. */
  predicate PartDrawn(v: DesktopView, part: nat)
    requires part < 2
  {
    (Bits(v) / (part + 1)) % 2 == 1
  }

  /** The drawn parts are the eyes the configuration names. */
  lemma PartsOfView(v: DesktopView)
    ensures PartDrawn(v, 0) <==> v != RightEye
    ensures PartDrawn(v, 1) <==> v != LeftEye
  {
  }

  /** The source rectangle: its size and its offset in the texture. */
  datatype Crop = Crop(cutX: int, cutY: int, offsetX: int, offsetY: int)

  /**
   * The crop of a `texWidth` x `texHeight` texture shown in a part of
   * `partWidth` x `winHeight` pixels, in the float arithmetic of the source:
   * the sides are trimmed when the texture is wider, otherwise top and
   * bottom.
   */
  function CropFor(texWidth: int, texHeight: int, partWidth: int, winHeight: int): (r: Crop)
    requires texWidth > 0 && texHeight > 0 && partWidth >= 0 && winHeight > 0
  {
    var tX, tY := texWidth as real, texHeight as real;
    var wX, wY := partWidth as real, winHeight as real;
    var ratioT, ratioW := tX / tY, wX / wY;
    assert ratioT > 0.0 by { assert tY * ratioT == tX; }
    if ratioT > ratioW then
      var cutX := TruncateToInt(texHeight as real * ratioW);
      Crop(cutX, texHeight, TruncateToInt((tX - cutX as real) / 2.0), 0)
    else
      var cutY := TruncateToInt(texWidth as real / ratioW);
      Crop(texWidth, cutY, 0, TruncateToInt((tY - cutY as real) / 2.0))
  }

  /** Halving a nonnegative integer gap in floats and truncating leaves at most one pixel over. */
  lemma HalfGap(n: int)
    requires n >= 0
    ensures var h := TruncateToInt(n as real / 2.0); 0 <= h && n - 1 <= 2 * h <= n
  {
    var h := TruncateToInt(n as real / 2.0);
    assert h as real <= n as real / 2.0 < h as real + 1.0;
  }

  /** Multiplying by a positive number keeps a strict order. */
  lemma MulLess(a: real, b: real, c: real)
    requires a > 0.0 && b < c
    ensures a * b < a * c
  {
    assert a * c - a * b == a * (c - b);
  }

  /** Where `a / b` is at most `c`, so is `a / c` at most `b`. */
  lemma QuotientBelow(a: real, b: real, c: real)
    requires a > 0.0 && b > 0.0 && c > 0.0 && a / b <= c
    ensures a / c <= b
  {
    var q := a / b;
    assert b * q == a;
    var y := a / c;
    assert y * c == a;
    if y > b {
      MulLess(c, b, y);
      if q < c {
        MulLess(b, q, c);
      }
    }
  }

  /** A wider texture keeps its height and loses a centred strip of columns. */
  lemma WiderCrop(tX: real, tY: real, ratioW: real, texWidth: int, texHeight: int)
    requires tX == texWidth as real && tY == texHeight as real && texWidth > 0 && texHeight > 0
    requires ratioW >= 0.0 && tX / tY > ratioW
    ensures var cutX := TruncateToInt(texHeight as real * ratioW);
      var offsetX := TruncateToInt((tX - cutX as real) / 2.0);
      && 0 <= cutX < texWidth && 0 <= offsetX && texWidth - 1 <= 2 * offsetX + cutX <= texWidth
  {
    var ratioT := tX / tY;
    assert tY * ratioT == tX;
    MulLess(tY, ratioW, ratioT);
    var cutX := TruncateToInt(texHeight as real * ratioW);
    assert cutX as real < tX;
    HalfGap(texWidth - cutX);
    assert (tX - cutX as real) / 2.0 == (texWidth - cutX) as real / 2.0;
  }

  /** A taller texture keeps its width and loses a centred strip of rows. */
  lemma TallerCrop(tX: real, tY: real, ratioW: real, texWidth: int, texHeight: int)
    requires tX == texWidth as real && tY == texHeight as real && texWidth > 0 && texHeight > 0
    requires ratioW > 0.0 && tX / tY <= ratioW
    ensures var cutY := TruncateToInt(texWidth as real / ratioW);
      var offsetY := TruncateToInt((tY - cutY as real) / 2.0);
      && 0 <= cutY <= texHeight && 0 <= offsetY && texHeight - 1 <= 2 * offsetY + cutY <= texHeight
  {
    var y := tX / ratioW;
    QuotientBelow(tX, tY, ratioW);
    var cutY := TruncateToInt(y);
    HalfGap(texHeight - cutY);
    assert (tY - cutY as real) / 2.0 == (texHeight - cutY) as real / 2.0;
  }

  /**
   * The crop lies inside the texture, is centred to within one pixel, and
   * keeps the full texture extent along one axis.
   */
  lemma CropInsideTexture(texWidth: int, texHeight: int, partWidth: int, winHeight: int)
    requires texWidth > 0 && texHeight > 0 && partWidth >= 0 && winHeight > 0
    ensures var c := CropFor(texWidth, texHeight, partWidth, winHeight);
      && 0 <= c.offsetX && 0 <= c.cutX && c.offsetX + c.cutX <= texWidth
      && 0 <= c.offsetY && 0 <= c.cutY && c.offsetY + c.cutY <= texHeight
      && texWidth - 1 <= 2 * c.offsetX + c.cutX <= texWidth
      && texHeight - 1 <= 2 * c.offsetY + c.cutY <= texHeight
      && (c.cutX == texWidth || c.cutY == texHeight)
  {
    var tX, tY := texWidth as real, texHeight as real;
    var wX, wY := partWidth as real, winHeight as real;
    var ratioW := wX / wY;
    assert ratioW >= 0.0;
    assert tX / tY > 0.0 by { assert tY * (tX / tY) == tX; }
    if tX / tY > ratioW {
      WiderCrop(tX, tY, ratioW, texWidth, texHeight);
    } else {
      TallerCrop(tX, tY, ratioW, texWidth, texHeight);
    }
  }

  /**
   * The blit of part `part` of the window: from eye framebuffer
   * `eyeFramebuffer`, the crop of the texture onto the part's column of the
   * window.
   */
  function PartBlit(eyeFramebuffer: nat, texWidth: int, texHeight: int, winWidth: int, winHeight: int,
                    parts: nat, part: nat): (r: Blit)
    requires texWidth > 0 && texHeight > 0 && 1 <= parts <= 2 && winWidth >= 0 && winHeight > 0
    ensures 0 <= r.srcX0 <= r.srcX1 <= texWidth && 0 <= r.srcY0 <= r.srcY1 <= texHeight
    ensures r.srcX0 + r.srcX1 <= texWidth <= r.srcX0 + r.srcX1 + 1
    ensures r.srcY0 + r.srcY1 <= texHeight <= r.srcY0 + r.srcY1 + 1
    ensures r.dstX1 - r.dstX0 == winWidth / parts && r.dstY0 == 0 && r.dstY1 == winHeight
  {
    var partWidth := winWidth / parts;
    var c := CropFor(texWidth, texHeight, partWidth, winHeight);
    CropInsideTexture(texWidth, texHeight, partWidth, winHeight);
    var leftOffset := if parts == 2 then part * partWidth else 0;
    Blit(eyeFramebuffer, c.offsetX, c.offsetY, c.offsetX + c.cutX, c.offsetY + c.cutY,
         leftOffset, 0, leftOffset + partWidth, winHeight)
  }

  /**
   * A window narrower than its parts (width 0, or 1 with both eyes shown)
   * gives each part a column of width 0: the crop is then an empty strip at
   * the texture's horizontal middle, the full texture high, and the blit
   * covers no pixel of the window.
   */
  lemma NarrowWindowBlit(eyeFramebuffer: nat, texWidth: int, texHeight: int, winWidth: int, winHeight: int,
                         parts: nat, part: nat)
    requires texWidth > 0 && texHeight > 0 && 1 <= parts <= 2 && 0 <= winWidth < parts && winHeight > 0
    ensures var r := PartBlit(eyeFramebuffer, texWidth, texHeight, winWidth, winHeight, parts, part);
      && r.srcX0 == r.srcX1 == TruncateToInt(texWidth as real / 2.0)
      && r.srcY0 == 0 && r.srcY1 == texHeight
      && r.dstX0 == r.dstX1 == 0 && r.dstY0 == 0 && r.dstY1 == winHeight
  {
    assert winWidth / parts == 0;
    var tX, tY := texWidth as real, texHeight as real;
    assert tY * (tX / tY) == tX;
    assert (0 as real) / tY == 0.0;
  }

  /**
   * `VR_Swapchains_BlitXRToMainFbo`: for each of the two parts whose bit is
   * set, blits eye 0's framebuffer of image `imageIndex` onto that part of
   * the window.
   */
  method BlitXRToMainFbo(s: SwapchainInfos, imageIndex: nat, v: DesktopView, winWidth: int, winHeight: int, gl: Gl)
    requires s.Shaped() && s.viewCount >= 1 && imageIndex < s.color.imageCount
    requires s.color.width > 0 && s.color.height > 0 && winWidth >= 0 && winHeight > 0
    modifies gl
    ensures gl.lastName == old(gl.lastName)
    ensures gl.calls == old(gl.calls) + MainBlits(s.eyeFramebuffers[0][imageIndex], s.color.width, s.color.height,
                                                  winWidth, winHeight, Parts(s.viewCount, v), v)
  {
    var parts := Parts(s.viewCount, v);
    var source := s.eyeFramebuffers[0][imageIndex];
    for part := 0 to 2
      invariant gl.lastName == old(gl.lastName)
      invariant gl.calls == old(gl.calls) + BlitsBelow(source, s.color.width, s.color.height, winWidth, winHeight, parts, v, part)
    {
      if (Bits(v) / (part + 1)) % 2 == 1 {
        gl.Call(BlitFramebuffer(PartBlit(source, s.color.width, s.color.height, winWidth, winHeight, parts, part)));
      }
    }
  }

  /** The blits of the drawn parts below `n`, in part order. */
  function BlitsBelow(source: nat, texWidth: int, texHeight: int, winWidth: int, winHeight: int,
                      parts: nat, v: DesktopView, n: nat): seq<GlCall>
    requires texWidth > 0 && texHeight > 0 && 1 <= parts <= 2 && winWidth >= 0 && winHeight > 0 && n <= 2
  {
    if n == 0 then []
    else BlitsBelow(source, texWidth, texHeight, winWidth, winHeight, parts, v, n - 1)
         + (if PartDrawn(v, n - 1) then [BlitFramebuffer(PartBlit(source, texWidth, texHeight, winWidth, winHeight, parts, n - 1))] else [])
  }

  /**
   * The blits of the desktop mirror: one per eye the configuration names,
   * side by side when both eyes of a stereo frame are shown, each covering
   * its whole column of the window.
   */
  function MainBlits(source: nat, texWidth: int, texHeight: int, winWidth: int, winHeight: int,
                     parts: nat, v: DesktopView): (r: seq<GlCall>)
    requires texWidth > 0 && texHeight > 0 && 1 <= parts <= 2 && winWidth >= 0 && winHeight > 0
    ensures |r| == (if v == BothEyes then 2 else 1)
    ensures forall i :: 0 <= i < |r| ==> r[i].BlitFramebuffer? && r[i].blit.source == source
    ensures parts == 2 && v == BothEyes ==>
      && r[0].blit.dstX0 == 0 && r[0].blit.dstX1 == r[1].blit.dstX0 == winWidth / 2
      && r[1].blit.dstX1 == 2 * (winWidth / 2) <= winWidth
    ensures parts == 1 ==> forall i :: 0 <= i < |r| ==> r[i].blit.dstX0 == 0 && r[i].blit.dstX1 == winWidth
    ensures forall i :: 0 <= i < |r| ==> r[i].blit.dstY0 == 0 && r[i].blit.dstY1 == winHeight
  {
    var first := BlitsBelow(source, texWidth, texHeight, winWidth, winHeight, parts, v, 1);
    assert BlitsBelow(source, texWidth, texHeight, winWidth, winHeight, parts, v, 0) == [];
    PartsOfView(v);
    BlitsBelow(source, texWidth, texHeight, winWidth, winHeight, parts, v, 2)
  }
}
