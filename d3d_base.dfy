/**
  The Direct3D 11 base layer: reference-counted loading of dxgi.dll and
  d3d11.dll, the frame-in-progress flag, shader model strings and texture
  limits by feature level, the caches of pipeline state objects, and the
  list of anti-aliasing modes an adapter supports.
 */
module D3DBase {

  // ---------------------------------------------------------------------
  // Results, feature levels, limits
  // ---------------------------------------------------------------------

  datatype HResult = S_OK | E_FAIL

  /** D3D_FEATURE_LEVEL values, as the Direct3D headers number them. */
  const Level9_1: int := 0x9100
  const Level9_2: int := 0x9200
  const Level9_3: int := 0x9300
  const Level10_0: int := 0xa000
  const Level10_1: int := 0xa100
  const Level11_0: int := 0xb000

  /** D3D11_REQ_TEXTURE2D_U_OR_V_DIMENSION and D3D10_REQ_TEXTURE2D_U_OR_V_DIMENSION. */
  const D3D11MaxTextureDimension: nat := 16384
  const D3D10MaxTextureDimension: nat := 8192

  /** D3D11_MAX_MULTISAMPLE_SAMPLE_COUNT. */
  const MaxSampleCount: nat := 32

  /**
    The vertex shader target of a feature level: shader model 5.0 exactly at
    level 11.0, 4.1 exactly at level 10.1, and 4.0 at any other level.
   */
  function VertexShaderVersionString(featLevel: int): (r: string)
    ensures |r| == 6 && r[..3] == "vs_" && r[4] == '_'
    ensures r[3] == '5' <==> featLevel == Level11_0
    ensures r[3] == '4' <==> featLevel != Level11_0
    ensures r[5] == '1' <==> featLevel == Level10_1
    ensures r[5] == '0' <==> featLevel != Level10_1
  {
    if featLevel == Level11_0 then "vs_5_0"
    else if featLevel == Level10_1 then "vs_4_1"
    else "vs_4_0"
  }

  /** The geometry shader target of a feature level, by the same rule. */
  function GeometryShaderVersionString(featLevel: int): (r: string)
    ensures |r| == 6 && r[..3] == "gs_" && r[4] == '_'
    ensures r[3] == '5' <==> featLevel == Level11_0
    ensures r[3] == '4' <==> featLevel != Level11_0
    ensures r[5] == '1' <==> featLevel == Level10_1
    ensures r[5] == '0' <==> featLevel != Level10_1
  {
    if featLevel == Level11_0 then "gs_5_0"
    else if featLevel == Level10_1 then "gs_4_1"
    else "gs_4_0"
  }

  /** The pixel shader target of a feature level, by the same rule. */
  function PixelShaderVersionString(featLevel: int): (r: string)
    ensures |r| == 6 && r[..3] == "ps_" && r[4] == '_'
    ensures r[3] == '5' <==> featLevel == Level11_0
    ensures r[3] == '4' <==> featLevel != Level11_0
    ensures r[5] == '1' <==> featLevel == Level10_1
    ensures r[5] == '0' <==> featLevel != Level10_1
  {
    if featLevel == Level11_0 then "ps_5_0"
    else if featLevel == Level10_1 then "ps_4_1"
    else "ps_4_0"
  }

  /** The six feature levels the texture-size table knows. */
  predicate KnownLevel(featLevel: int)
  {
    featLevel == Level9_1 || featLevel == Level9_2 || featLevel == Level9_3
    || featLevel == Level10_0 || featLevel == Level10_1 || featLevel == Level11_0
  }

  /**
    The largest width or height of a texture at a feature level: positive
    exactly at the known levels, at most the Direct3D 11 limit, reaching it
    only at level 11.0, and at least the Direct3D 10 limit from level 10.0 on.
   */
  function GetMaxTextureSize(featLevel: int): (r: nat)
    ensures r > 0 <==> KnownLevel(featLevel)
    ensures r <= D3D11MaxTextureDimension
    ensures r == D3D11MaxTextureDimension <==> featLevel == Level11_0
    ensures KnownLevel(featLevel) && featLevel >= Level10_0 ==> r >= D3D10MaxTextureDimension
  {
    if featLevel == Level11_0 then D3D11MaxTextureDimension
    else if featLevel == Level10_1 || featLevel == Level10_0 then D3D10MaxTextureDimension
    else if featLevel == Level9_3 then 4096
    else if featLevel == Level9_2 || featLevel == Level9_1 then 2048
    else 0
  }

  // ---------------------------------------------------------------------
  // Reference-counted libraries
  // ---------------------------------------------------------------------

  /** A library: its reference count, whether its handle is loaded, and which of its entry points were found. */
  datatype Dll = Dll(ref: int, handle: bool, procs: seq<bool>)

  /** No entry point. */
  function NoProcs(n: nat): (r: seq<bool>)
    ensures |r| == n && forall i :: 0 <= i < n ==> !r[i]
  {
    seq(n, i => false)
  }

  /**
    LoadDXGI / LoadD3D: the count always goes up first; if it was already
    positive, or the handle is still there, succeed at once. Otherwise load
    the library: on failure take the count back and fail; on success look up
    the entry points (missing ones are only reported) and succeed.
   */
  function Load(d: Dll, libraryLoads: bool, found: seq<bool>): (r: (Dll, HResult))
    ensures r.1 == E_FAIL <==> d.ref <= 0 && !d.handle && !libraryLoads
    ensures r.1 == E_FAIL ==> r.0 == d
    ensures r.1 == S_OK ==> r.0.ref == d.ref + 1
    ensures r.1 == S_OK && d.ref <= 0 ==> r.0.handle
    ensures d.ref > 0 ==> r.0 == d.(ref := d.ref + 1)
    ensures r.1 == S_OK && d.ref <= 0 && !d.handle ==> r.0.procs == found
  {
    if d.ref > 0 then (d.(ref := d.ref + 1), S_OK)
    else if d.handle then (d.(ref := d.ref + 1), S_OK)
    else if !libraryLoads then (d, E_FAIL)
    else (Dll(d.ref + 1, true, found), S_OK)
  }

  /**
    UnloadDXGI / UnloadD3D: nothing at count 0; otherwise count down, and
    when the count reaches 0 free the library and forget its entry points.
   */
  function Unload(d: Dll): (r: Dll)
    ensures d.ref == 0 ==> r == d
    ensures d.ref != 0 ==> r.ref == d.ref - 1
    ensures d.ref != 0 && d.ref != 1 ==> r.handle == d.handle && r.procs == d.procs
    ensures d.ref == 1 ==> !r.handle && r.procs == NoProcs(|d.procs|)
  {
    if d.ref == 0 then d
    else if d.ref - 1 != 0 then d.(ref := d.ref - 1)
    else Dll(0, false, NoProcs(|d.procs|))
  }

  /** The state the load functions keep: a count that is never negative, a handle exactly while it is positive, no entry point without it. */
  predicate Consistent(d: Dll)
  {
    d.ref >= 0 && (d.handle <==> d.ref > 0)
    && (!d.handle ==> forall i :: 0 <= i < |d.procs| ==> !d.procs[i])
  }

  // ---------------------------------------------------------------------
  // Frames
  // ---------------------------------------------------------------------

  /** BeginFrame: (frame flag afterwards, result). A frame already in progress is refused and stays in progress. */
  function Begin(inProgress: bool, hasDevice: bool): (r: (bool, bool))
    ensures r.0
    ensures r.1 <==> !inProgress && hasDevice
  {
    if inProgress then (true, false) else (true, hasDevice)
  }

  /** EndFrame: the flag afterwards; ending when no frame is in progress changes nothing. */
  function End(inProgress: bool): (r: bool)
    ensures !r
  {
    if !inProgress then inProgress else false
  }

  // ---------------------------------------------------------------------
  // State caches
  // ---------------------------------------------------------------------

  type u64 = x: int | 0 <= x < 0x1_0000_0000_0000_0000

  /** A Direct3D state object, by identity. */
  type Handle = nat

  /**
    Get*State: the state cached under the descriptor's CRC, or else the one
    the device creates, which is then cached under that CRC.
   */
  function Fetch(cache: map<u64, Handle>, crc: u64, created: Handle): (r: (map<u64, Handle>, Handle))
    ensures r.0 == cache[crc := r.1]
    ensures crc in cache ==> r.1 == cache[crc] && r.0 == cache
    ensures crc !in cache ==> r.1 == created
  {
    if crc in cache then (cache, cache[crc]) else (cache[crc := created], created)
  }

  /** The globals of the base layer that the modelled functions read and write. */
  class D3DContext {
    var dxgiDllRef: int
    var dxgiDll: bool
    var createDXGIFactory: bool
    var d3dDllRef: int
    var d3dDll: bool
    var d3d11CreateDevice: bool
    var d3d11CreateDeviceAndSwapChain: bool
    var device: bool
    var frameInProgress: bool
    var bstates: map<u64, Handle>
    var sstates: map<u64, Handle>
    var rstates: map<u64, Handle>
    var dstates: map<u64, Handle>

    /** The start of the program: nothing loaded, no device, no frame, no cached state. */
    constructor ()
      ensures DXGI() == Dll(0, false, [false]) && D3D() == Dll(0, false, [false, false])
      ensures !device && !frameInProgress
      ensures Caches() == (map[], map[], map[], map[])
    {
      dxgiDllRef, dxgiDll, createDXGIFactory := 0, false, false;
      d3dDllRef, d3dDll, d3d11CreateDevice, d3d11CreateDeviceAndSwapChain := 0, false, false, false;
      device, frameInProgress := false, false;
      bstates, sstates, rstates, dstates := map[], map[], map[], map[];
    }

    function DXGI(): Dll
      reads this
    {
      Dll(dxgiDllRef, dxgiDll, [createDXGIFactory])
    }

    function D3D(): Dll
      reads this
    {
      Dll(d3dDllRef, d3dDll, [d3d11CreateDevice, d3d11CreateDeviceAndSwapChain])
    }

    function Caches(): (map<u64, Handle>, map<u64, Handle>, map<u64, Handle>, map<u64, Handle>)
      reads this
    {
      (bstates, sstates, rstates, dstates)
    }

    /** LoadDXGI; whether LoadLibrary and GetProcAddress succeed are parameters. */
    method LoadDXGI(libraryLoads: bool, factoryFound: bool) returns (hr: HResult)
      modifies this
      ensures (DXGI(), hr) == Load(old(DXGI()), libraryLoads, [factoryFound])
      ensures D3D() == old(D3D()) && device == old(device) && frameInProgress == old(frameInProgress)
      ensures Caches() == old(Caches())
    {
      var previous := dxgiDllRef;
      dxgiDllRef := dxgiDllRef + 1;
      if previous > 0 {
        return S_OK;
      }
      if dxgiDll {
        return S_OK;
      }
      dxgiDll := libraryLoads;
      if !dxgiDll {
        dxgiDllRef := dxgiDllRef - 1;
        return E_FAIL;
      }
      createDXGIFactory := factoryFound;
      return S_OK;
    }

    /** LoadD3D; whether LoadLibrary and each GetProcAddress succeed are parameters. */
    method LoadD3D(libraryLoads: bool, createDeviceFound: bool, createSwapChainFound: bool) returns (hr: HResult)
      modifies this
      ensures (D3D(), hr) == Load(old(D3D()), libraryLoads, [createDeviceFound, createSwapChainFound])
      ensures DXGI() == old(DXGI()) && device == old(device) && frameInProgress == old(frameInProgress)
      ensures Caches() == old(Caches())
    {
      var previous := d3dDllRef;
      d3dDllRef := d3dDllRef + 1;
      if previous > 0 {
        return S_OK;
      }
      if d3dDll {
        return S_OK;
      }
      d3dDll := libraryLoads;
      if !d3dDll {
        d3dDllRef := d3dDllRef - 1;
        return E_FAIL;
      }
      d3d11CreateDevice := createDeviceFound;
      d3d11CreateDeviceAndSwapChain := createSwapChainFound;
      return S_OK;
    }

    method UnloadDXGI()
      modifies this
      ensures DXGI() == Unload(old(DXGI()))
      ensures D3D() == old(D3D()) && device == old(device) && frameInProgress == old(frameInProgress)
      ensures Caches() == old(Caches())
    {
      if dxgiDllRef == 0 {
        return;
      }
      dxgiDllRef := dxgiDllRef - 1;
      if dxgiDllRef != 0 {
        return;
      }
      dxgiDll := false;
      createDXGIFactory := false;
      assert [createDXGIFactory] == NoProcs(1);
    }

    method UnloadD3D()
      modifies this
      ensures D3D() == Unload(old(D3D()))
      ensures DXGI() == old(DXGI()) && device == old(device) && frameInProgress == old(frameInProgress)
      ensures Caches() == old(Caches())
    {
      if d3dDllRef == 0 {
        return;
      }
      d3dDllRef := d3dDllRef - 1;
      if d3dDllRef != 0 {
        return;
      }
      d3dDll := false;
      d3d11CreateDevice := false;
      d3d11CreateDeviceAndSwapChain := false;
      assert [d3d11CreateDevice, d3d11CreateDeviceAndSwapChain] == NoProcs(2);
    }

    method BeginFrame() returns (ok: bool)
      modifies this
      ensures (frameInProgress, ok) == Begin(old(frameInProgress), device)
      ensures DXGI() == old(DXGI()) && D3D() == old(D3D()) && device == old(device)
      ensures Caches() == old(Caches())
    {
      if frameInProgress {
        return false;
      }
      frameInProgress := true;
      return device;
    }

    method EndFrame()
      modifies this
      ensures frameInProgress == End(old(frameInProgress))
      ensures DXGI() == old(DXGI()) && D3D() == old(D3D()) && device == old(device)
      ensures Caches() == old(Caches())
    {
      if !frameInProgress {
        return;
      }
      frameInProgress := false;
    }

    /** GetRasterizerState, for a descriptor with checksum crc; `created` is what the device would create. */
    method GetRasterizerState(crc: u64, created: Handle) returns (state: Handle)
      modifies this
      ensures (rstates, state) == Fetch(old(rstates), crc, created)
      ensures bstates == old(bstates) && sstates == old(sstates) && dstates == old(dstates)
      ensures DXGI() == old(DXGI()) && D3D() == old(D3D()) && device == old(device) && frameInProgress == old(frameInProgress)
    {
      if crc in rstates {
        return rstates[crc];
      }
      state := created;
      rstates := rstates[crc := state];
    }

    /** GetBlendState, as GetRasterizerState for blend states. */
    method GetBlendState(crc: u64, created: Handle) returns (state: Handle)
      modifies this
      ensures (bstates, state) == Fetch(old(bstates), crc, created)
      ensures sstates == old(sstates) && rstates == old(rstates) && dstates == old(dstates)
      ensures DXGI() == old(DXGI()) && D3D() == old(D3D()) && device == old(device) && frameInProgress == old(frameInProgress)
    {
      if crc in bstates {
        return bstates[crc];
      }
      state := created;
      bstates := bstates[crc := state];
    }

    /** GetDepthStencilState, as GetRasterizerState for depth-stencil states. */
    method GetDepthStencilState(crc: u64, created: Handle) returns (state: Handle)
      modifies this
      ensures (dstates, state) == Fetch(old(dstates), crc, created)
      ensures bstates == old(bstates) && sstates == old(sstates) && rstates == old(rstates)
      ensures DXGI() == old(DXGI()) && D3D() == old(D3D()) && device == old(device) && frameInProgress == old(frameInProgress)
    {
      if crc in dstates {
        return dstates[crc];
      }
      state := created;
      dstates := dstates[crc := state];
    }

    /** GetSamplerState, as GetRasterizerState for sampler states. */
    method GetSamplerState(crc: u64, created: Handle) returns (state: Handle)
      modifies this
      ensures (sstates, state) == Fetch(old(sstates), crc, created)
      ensures bstates == old(bstates) && rstates == old(rstates) && dstates == old(dstates)
      ensures DXGI() == old(DXGI()) && D3D() == old(D3D()) && device == old(device) && frameInProgress == old(frameInProgress)
    {
      if crc in sstates {
        return sstates[crc];
      }
      state := created;
      sstates := sstates[crc := state];
    }

    /** ReleaseStates: every cache is emptied. */
    method ReleaseStates()
      modifies this
      ensures Caches() == (map[], map[], map[], map[])
      ensures DXGI() == old(DXGI()) && D3D() == old(D3D()) && device == old(device) && frameInProgress == old(frameInProgress)
    {
      sstates := map[];
      dstates := map[];
      bstates := map[];
      rstates := map[];
    }
  }

  // ---------------------------------------------------------------------
  // Anti-aliasing modes
  // ---------------------------------------------------------------------

  /** DXGI_SAMPLE_DESC. */
  datatype SampleDesc = SampleDesc(count: nat, quality: nat)

  /** The modes of one sample count: qualities 0 up to (not including) levels. */
  function Qualities(count: nat, levels: nat): (r: seq<SampleDesc>)
    ensures |r| == levels && forall i :: 0 <= i < levels ==> r[i] == SampleDesc(count, i)
  {
    if levels == 0 then [] else Qualities(count, levels - 1) + [SampleDesc(count, levels - 1)]
  }

  /** The modes of the sample counts below n, each with the quality levels the device reports for it. */
  function ModesBelow(n: nat, qualityLevels: nat -> nat): seq<SampleDesc>
  {
    if n == 0 then [] else ModesBelow(n - 1, qualityLevels) + Qualities(n - 1, qualityLevels(n - 1))
  }

  /**
    EnumAAModes: the single mode of one sample at quality 0 when the device
    cannot be created or only reaches feature level 10.0; otherwise every
    (sample count, quality) the device reports, counts below the maximum.
   */
  function AAModes(created: bool, featLevel: int, qualityLevels: nat -> nat): seq<SampleDesc>
  {
    if !created || featLevel == Level10_0 then [SampleDesc(1, 0)]
    else ModesBelow(MaxSampleCount, qualityLevels)
  }

  /**
    EnumAAModes; whether the device is created, its feature level and
    CheckMultisampleQualityLevels are parameters.
   */
  method EnumAAModes(created: bool, featLevel: int, qualityLevels: nat -> nat) returns (modes: seq<SampleDesc>)
    ensures modes == AAModes(created, featLevel, qualityLevels)
  {
    modes := [];
    if !created || featLevel == Level10_0 {
      modes := modes + [SampleDesc(1, 0)];
      return;
    }
    var samples := 0;
    while samples < MaxSampleCount
      invariant 0 <= samples <= MaxSampleCount
      invariant modes == ModesBelow(samples, qualityLevels)
    {
      var levels := qualityLevels(samples);
      if levels > 0 {
        modes := AppendQualities(modes, samples, levels);
      }
      samples := samples + 1;
    }
  }

  /** The inner loop of EnumAAModes: one mode per quality level of a sample count. */
  method AppendQualities(modes: seq<SampleDesc>, count: nat, levels: nat) returns (modes': seq<SampleDesc>)
    ensures modes' == modes + Qualities(count, levels)
  {
    modes' := modes;
    var quality := 0;
    while quality < levels
      invariant 0 <= quality <= levels
      invariant modes' == modes + Qualities(count, quality)
    {
      modes' := modes' + [SampleDesc(count, quality)];
      quality := quality + 1;
    }
  }
}
