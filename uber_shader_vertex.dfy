/**
  The vertex uber-shader generator: the configuration id it is keyed by,
  the enumeration of every id, and the shader source it writes for an id,
  an API family and the host's capabilities.

  The generated text is given twice: as functions (`VertexShader` and its
  sections), which say what is written, and as methods that append it to
  the shader buffer write by write, with the generator's loops. The buffer
  is a sequence of pieces, one per write, passed in and returned. Helpers whose
  code is not part of this model (the output-member generators, the common
  header, the lighting writers, `BitfieldExtract`, the interpolation
  qualifier, the uniform and struct text, the id hash) are parameters.
 */
module UberShaderVertex {
  import opened Wrappers
  import opened Text

  // ---------------------------------------------------------------------
  // Configuration id
  // ---------------------------------------------------------------------

  /** The two fields of the vertex uber-shader id. */
  datatype UidData = UidData(numTexgens: u32, perPixelLighting: nat)

  /** An id: its data and the hash computed from it. */
  datatype VertexUberShaderUid = VertexUberShaderUid(data: UidData, hash: int)

  /** The transform unit's registers: the texgen count and everything else. */
  datatype XFMemory = XFMemory(numTexGens: u32, otherRegisters: seq<int>)

  /** The cleared id (every field zero). */
  const ClearedUid := VertexUberShaderUid(UidData(0, 0), 0)

  /**
    The id of the current configuration: cleared, then the texgen count
    and the per-pixel-lighting flag filled in, then hashed.
   */
  function GetVertexUberShaderUid(components: u32, xfr: XFMemory,
                                  pixelLightingEnabled: (XFMemory, u32) -> bool,
                                  calculateHash: UidData -> int): (r: VertexUberShaderUid)
    ensures r.data.numTexgens == xfr.numTexGens
    ensures r.data.perPixelLighting == if pixelLightingEnabled(xfr, components) then 1 else 0
    ensures r.hash == calculateHash(r.data)
  {
    var cleared := ClearedUid.data;
    var filled := cleared.(numTexgens := xfr.numTexGens,
                           perPixelLighting := if pixelLightingEnabled(xfr, components) then 1 else 0);
    VertexUberShaderUid(filled, calculateHash(filled))
  }

  /** The id the enumeration produces for a texgen count and a lighting value. */
  function EnumeratedUid(texgens: u32, lighting: nat, calculateHash: UidData -> int): VertexUberShaderUid
  {
    VertexUberShaderUid(UidData(texgens, lighting), calculateHash(UidData(texgens, lighting)))
  }

  /** The k-th callback argument of the enumeration: the id and the size hint 18. */
  function EnumeratedCall(k: nat, calculateHash: UidData -> int): (VertexUberShaderUid, nat)
    requires k < 18
  {
    (EnumeratedUid(k / 2, k % 2, calculateHash), 18)
  }

  /**
    Calls the callback for every texgen count 0..8, first with lighting off
    and then on; the callback's arguments are returned in call order.
   */
  method EnumerateVertexUberShaderUids(calculateHash: UidData -> int)
    returns (calls: seq<(VertexUberShaderUid, nat)>)
    ensures |calls| == 18
    ensures forall k :: 0 <= k < 18 ==> calls[k] == EnumeratedCall(k, calculateHash)
    ensures forall k :: 0 <= k < 18 ==> calls[k].1 == 18
    ensures forall j, k :: 0 <= j < k < 18 ==> calls[j].0.data != calls[k].0.data
  {
    var uid := ClearedUid;
    calls := [];
    var texgens: u32 := 0;
    while texgens <= 8
      invariant texgens <= 9
      invariant |calls| == 2 * texgens
      invariant forall k :: 0 <= k < |calls| ==> calls[k] == EnumeratedCall(k, calculateHash)
    {
      uid := uid.(data := uid.data.(numTexgens := texgens, perPixelLighting := 0));
      uid := uid.(hash := 0);
      uid := uid.(hash := calculateHash(uid.data));
      calls := calls + [(uid, 18)];
      uid := uid.(data := uid.data.(perPixelLighting := 1));
      uid := uid.(hash := 0);
      uid := uid.(hash := calculateHash(uid.data));
      calls := calls + [(uid, 18)];
      texgens := texgens + 1;
    }
  }

  // ---------------------------------------------------------------------
  // Inputs of the generator
  // ---------------------------------------------------------------------

  datatype Api = D3D11 | OpenGL | Vulkan

  /** The host capabilities the generator consults. */
  datatype ShaderHostConfig = ShaderHostConfig(
    msaa: bool,
    ssaa: bool,
    backendGeometryShaders: bool,
    backendDepthClamp: bool,
    backendClipControl: bool)

  /** The bit fields of the texgen registers passed to `BitfieldExtract`. */
  datatype RegisterField =
    | SourceRow | InputForm | TexGenType | EmbossLightShift | EmbossSourceShift
    | Projection | PostMatrixIndex | PostNormalize

  /** Text supplied by code that is not part of this model. */
  datatype Helpers = Helpers(
    lightingStruct: string,
    shaderUniforms: string,
    /** GenerateVSOutputMembers(api, per-pixel lighting, texgens, qualifier); None is the default qualifier. */
    outputMembers: (Api, bool, u32, Option<string>) -> seq<string>,
    commonHeader: (Api, ShaderHostConfig) -> seq<string>,
    lightingFunction: seq<string>,
    /** WriteVertexLighting(api, position, normal, colour 0 in, colour 1 in, colour 0 out, colour 1 out). */
    vertexLighting: (Api, string, string, string, string, string, string) -> seq<string>,
    /** GetInterpolationQualifier(api, msaa, ssaa, in interface block, input). */
    interpolationQualifier: (Api, bool, bool, bool, bool) -> string,
    /** AssignVSOutputMembers(api, destination, source, per-pixel lighting, texgens). */
    assignOutputMembers: (Api, string, string, bool, u32) -> seq<string>,
    bitfieldExtract: (string, RegisterField) -> string)

  /** The vertex-component bits, the transform-unit enumerators and the attribute locations. */
  datatype Constants = Constants(
    hasNrm0: u32, hasNrm1: u32, hasNrm2: u32,
    hasCol0: u32, hasCol1: u32,
    hasUv0: u32, hasTexMtxIdx0: u32,
    srcGeomInRow: u32, srcNormalInRow: u32, srcBinormalTInRow: u32, srcBinormalBInRow: u32,
    srcTex0InRow: u32,
    texInputAB11: u32,
    texGenEmbossMap: u32, texGenColorStrgbc0: u32, texGenColorStrgbc1: u32, texGenRegular: u32,
    texProjStq: u32,
    positionAttrib: nat, posMtxAttrib: nat,
    norm0Attrib: nat, norm1Attrib: nat, norm2Attrib: nat,
    color0Attrib: nat, color1Attrib: nat,
    texture0Attrib: nat)

  /** The names of the uniform arrays the shader indexes. */
  datatype UniformNames = UniformNames(
    transformMatrices: string,
    normalMatrices: string,
    projection: string,
    depthParams: string,
    viewParams: string,
    lights: string,
    texMatrices: string,
    postTransformMatrices: string)

  // ---------------------------------------------------------------------
  // 32-bit arithmetic of the emitted constants
  // ---------------------------------------------------------------------

  /** u32 addition, wrapping. */
  function Add32(a: u32, b: nat): u32
  {
    (a + b) % 0x1_0000_0000
  }

  /** u32 left shift by n bits, dropping the bits shifted out. */
  function Shl32(a: u32, n: nat): u32
    decreases n
  {
    if n == 0 then a else Shl32((2 * a) % 0x1_0000_0000, n - 1)
  }

  /** u32 bitwise or. */
  function Or32(a: u32, b: u32): u32
  {
    ((a as bv32) | (b as bv32)) as nat
  }

  function IsGlsl(api: Api): bool
  {
    api == OpenGL || api == Vulkan
  }

  // ---------------------------------------------------------------------
  // Lines written by the source's loops
  // ---------------------------------------------------------------------

  /** The body of one of the generator's counted loops. */
  datatype Row =
    | RawTexAttribute(firstLocation: nat)
    | D3DTexInput
    | TexOutput(qualifier: string, ty: string)
    | PackedTexOutput(qualifier: string)
    | ZeroTexOutput
    | SourceTexCase(firstRow: u32, hasUv0: u32)
    | EmbossSourceCase
    | RawTexZCase
    | StoreCase
    | CopyTexOrZero(count: u32)
    | CopyTex
    | PackedCopyTex

  /** `qualifier out ty name;` */
  function OutDecl(qualifier: string, ty: string, name: string): string
  {
    qualifier + " out " + ty + " " + name + ";\n"
  }

  function TexName(i: nat): string
  {
    "tex" + Decimal(i)
  }

  /** The type of the i-th packed texture-coordinate output: float4 below 4, float3 after. */
  function PackedType(i: nat): string
  {
    if i < 4 then "float4" else "float3"
  }

  function EmbossSourceCaseLine(i: nat): string
  {
    "      case " + Decimal(i) + "u: output_tex.xyz = o.tex" + Decimal(i) + ".xyz; break;\n"
  }

  function RawTexZCaseLine(i: nat): string
  {
    "        case " + Decimal(i) + "u: tmp = int(rawtex" + Decimal(i) + ".z); break;\n"
  }

  function StoreCaseLine(i: nat): string
  {
    "  case " + Decimal(i) + "u: o.tex" + Decimal(i) + ".xyz = output_tex; break;\n"
  }

  function ZeroTexOutputLine(i: nat): string
  {
    "o.tex" + Decimal(i) + ".xyz = float3(0.0, 0.0, 0.0);\n"
  }

  /** The lines iteration i of a loop writes. */
  function RawTexAttributeLine(first: nat, i: nat): string
  {
    "ATTRIBUTE_LOCATION(" + Decimal(first + i) + ") in float3 rawtex" + Decimal(i) + ";\n"
  }

  function D3DTexInputLine(i: nat): string
  {
    "  float3 rawtex" + Decimal(i) + " : TEXCOORD" + Decimal(i) + ",\n"
  }

  /** A texture-coordinate row of the source switch: its case, the load when the vertex has it, the break. */
  function SourceTexCaseLines(firstRow: u32, uv0: u32, i: nat): seq<string>
  {
    ["  case " + Decimal(Add32(firstRow, i)) + "u: // XF_SRCTEX" + Decimal(i) + "_INROW\n",
     "    coord = ((components & " + Decimal(Shl32(uv0, i)) + "u /* VB_HAS_UV" + Decimal(i)
       + " */) != 0u) ? float4(rawtex" + Decimal(i) + ".x, rawtex" + Decimal(i) + ".y, "
       + "1.0, 1.0) : coord;\n",
     "    break;\n", "\n"]
  }

  function CopyTexOrZeroLine(count: nat, i: nat): string
  {
    if i < count then " tex" + Decimal(i) + ".xyz =  o.tex" + Decimal(i) + ".xyz;\n"
    else " tex" + Decimal(i) + ".xyz =  float3(0.0, 0.0, 0.0);\n"
  }

  function CopyTexLine(i: nat): string
  {
    " tex" + Decimal(i) + " = o.tex" + Decimal(i) + ";\n"
  }

  function PackedCopyTexLine(i: nat): string
  {
    "  tex" + Decimal(i) + (if i < 4 then ".xyzw" else ".xyz") + " = o.tex" + Decimal(i) + ";\n"
  }

  function RowLines(r: Row, i: nat): seq<string>
  {
    match r
    case RawTexAttribute(first) => [RawTexAttributeLine(first, i)]
    case D3DTexInput => [D3DTexInputLine(i)]
    case TexOutput(q, ty) => [OutDecl(q, ty, TexName(i))]
    case PackedTexOutput(q) => [OutDecl(q, PackedType(i), TexName(i))]
    case ZeroTexOutput => [ZeroTexOutputLine(i)]
    case SourceTexCase(firstRow, uv0) => SourceTexCaseLines(firstRow, uv0, i)
    case EmbossSourceCase => [EmbossSourceCaseLine(i)]
    case RawTexZCase => [RawTexZCaseLine(i)]
    case StoreCase => [StoreCaseLine(i)]
    case CopyTexOrZero(count) => [CopyTexOrZeroLine(count, i)]
    case CopyTex => [CopyTexLine(i)]
    case PackedCopyTex => [PackedCopyTexLine(i)]
  }

  /** What iterations 0..n-1 of a loop write. */
  function Repeat(r: Row, n: nat): seq<string>
  {
    if n == 0 then [] else Repeat(r, n - 1) + RowLines(r, n - 1)
  }


  // ---------------------------------------------------------------------
  // The sections of the vertex shader
  // ---------------------------------------------------------------------

  /** Header comment, lighting struct, uniform block, output struct, shared helpers. */
  function Preamble(api: Api, host: ShaderHostConfig, uid: UidData, h: Helpers): seq<string>
  {
    ["// Vertex UberShader\n", "\n", h.lightingStruct]
    + [if IsGlsl(api) then "UBO_BINDING(std140, 2) uniform VSBlock {\n" else "cbuffer VSBlock {\n"]
    + [h.shaderUniforms, "};\n", "struct VS_OUTPUT {\n"]
    + h.outputMembers(api, uid.perPixelLighting != 0, uid.numTexgens, None)
    + ["};\n", "\n"]
    + h.commonHeader(api, host)
    + h.lightingFunction
  }

  /** The GLSL vertex attributes. */
  function GlslAttributes(c: Constants): seq<string>
  {
    GlslFixedAttributes(c) + Repeat(RawTexAttribute(c.texture0Attrib), 8)
  }

  /** The position, matrix-index, normal and colour attributes. */
  function GlslFixedAttributes(c: Constants): seq<string>
  {
    ["ATTRIBUTE_LOCATION(" + Decimal(c.positionAttrib) + ") in float4 rawpos;\n",
     "ATTRIBUTE_LOCATION(" + Decimal(c.posMtxAttrib) + ") in uint4 posmtx;\n",
     "ATTRIBUTE_LOCATION(" + Decimal(c.norm0Attrib) + ") in float3 rawnorm0;\n",
     "ATTRIBUTE_LOCATION(" + Decimal(c.norm1Attrib) + ") in float3 rawnorm1;\n",
     "ATTRIBUTE_LOCATION(" + Decimal(c.norm2Attrib) + ") in float3 rawnorm2;\n",
     "ATTRIBUTE_LOCATION(" + Decimal(c.color0Attrib) + ") in float4 rawcolor0;\n",
     "ATTRIBUTE_LOCATION(" + Decimal(c.color1Attrib) + ") in float4 rawcolor1;\n"]
  }

  /** The vertex outputs declared one by one when there is no output block. */
  function GlOutputDeclarations(q: string, uid: UidData): seq<string>
  {
    (if uid.numTexgens < 7 then
       Repeat(TexOutput(q, "float3"), 8)
       + [OutDecl(q, "float4", "clipPos")]
       + (if uid.perPixelLighting != 0 then [OutDecl(q, "float4", "Normal")] else [])
     else if uid.perPixelLighting != 0 then
       Repeat(TexOutput(q, "float4"), 8)
     else
       Repeat(PackedTexOutput(q), uid.numTexgens))
    + [OutDecl(q, "float4", "colors_0"), OutDecl(q, "float4", "colors_1")]
  }

  /** The GLSL interface: attributes, outputs and the head of main. */
  function GlslInterface(api: Api, host: ShaderHostConfig, uid: UidData,
                         h: Helpers, c: Constants): seq<string>
  {
    GlslAttributes(c) + GlslOutputs(api, host, uid, h) + ["void main()\n", "{\n"]
  }

  /** The GLSL outputs: an output block when a geometry stage may follow, separate outputs otherwise. */
  function GlslOutputs(api: Api, host: ShaderHostConfig, uid: UidData, h: Helpers): seq<string>
  {
    if host.backendGeometryShaders || api == Vulkan then
      ["VARYING_LOCATION(0) out VertexData {\n"]
      + h.outputMembers(api, uid.perPixelLighting != 0, uid.numTexgens, Some(h.interpolationQualifier(api, host.msaa, host.ssaa, false, true)))
      + ["} vs;\n"]
    else
      GlOutputDeclarations(h.interpolationQualifier(api, host.msaa, host.ssaa, false, false), uid)
  }

  /** The HLSL entry point and its inputs. */
  function HlslInterface(): seq<string>
  {
    HlslFixedInputs() + Repeat(D3DTexInput, 8) + HlslLastInputs()
  }

  /** The first inputs of the HLSL entry point: the normals and the colours. */
  function HlslFixedInputs(): seq<string>
  {
    ["VS_OUTPUT main(\n",
     "  float3 rawnorm0 : NORMAL0,\n",
     "  float3 rawnorm1 : NORMAL1,\n",
     "  float3 rawnorm2 : NORMAL2,\n",
     "  float4 rawcolor0 : COLOR0,\n",
     "  float4 rawcolor1 : COLOR1,\n"]
  }

  /** The last inputs of the HLSL entry point: the matrix index and the position. */
  function HlslLastInputs(): seq<string>
  {
    ["  float4 posmtx : BLENDINDICES,\n", "  float4 rawpos : POSITION) {\n"]
  }

  // The three normal statements. Only the first one normalizes.
  const Norm0Statement := "  _norm0 = " + "normalize" + "(float3(dot(N0, rawnorm0), " + "dot(N1, rawnorm0), dot(N2, rawnorm0)));\n"
  const Norm1Statement := "  _norm1 = float3(dot(N0, rawnorm1), " + "dot(N1, rawnorm1), dot(N2, rawnorm1));\n"
  const Norm2Statement := "  _norm2 = float3(dot(N0, rawnorm2), " + "dot(N1, rawnorm2), dot(N2, rawnorm2));\n"

  function NormalGuard(bit: u32, k: string): string
  {
    "if ((components & " + Decimal(bit) + "u) != 0u) // VB_HAS_NRM" + k + "\n"
  }

  /** The three normals: each defaults to zero and is set only when its component is present. */
  function NormalStatements(c: Constants): seq<string>
  {
    ["float3 _norm0 = float3(0.0, 0.0, 0.0);\n", NormalGuard(c.hasNrm0, "0"), Norm0Statement, "\n",
     "float3 _norm1 = float3(0.0, 0.0, 0.0);\n", NormalGuard(c.hasNrm1, "1"), Norm1Statement, "\n",
     "float3 _norm2 = float3(0.0, 0.0, 0.0);\n", NormalGuard(c.hasNrm2, "2"), Norm2Statement, "\n"]
  }

  /** The output variable, the position and normal matrices, the position and the normals. */
  function Transforms(api: Api, c: Constants, u: UniformNames): seq<string>
  {
    MatrixDeclarations() + [PositionIndexLine(api)] + MatrixLoads(u) + NormalStatements(c)
  }

  /** The output variable and the matrix rows. */
  function MatrixDeclarations(): seq<string>
  {
    ["VS_OUTPUT o;\n", "\n",
     "// Position matrix\n", "float4 P0;\n", "float4 P1;\n", "float4 P2;\n", "\n",
     "// Normal matrix\n", "float3 N0;\n", "float3 N1;\n", "float3 N2;\n", "\n",
     "  // Vertex format has a per-vertex matrix\n"]
  }

  /** The matrix index of the vertex: rounded from a float on D3D, an integer attribute otherwise. */
  function PositionIndexLine(api: Api): string
  {
    if api == D3D11 then "int posidx = int(round(posmtx.x * 255.0));\n" else "  int posidx = int(posmtx.r);\n"
  }

  /** Loading the matrix rows, the position and the projected position. */
  function MatrixLoads(u: UniformNames): seq<string>
  {
    ["  P0 = " + u.transformMatrices + "[posidx];\n",
     "  P1 = " + u.transformMatrices + "[posidx+1];\n",
     "  P2 = " + u.transformMatrices + "[posidx+2];\n",
     "\n",
     "  int normidx = posidx >= 32 ? (posidx - 32) : posidx;\n",
     "  N0 = " + u.normalMatrices + "[normidx].xyz;\n",
     "  N1 = " + u.normalMatrices + "[normidx+1].xyz;\n",
     "  N2 = " + u.normalMatrices + "[normidx+2].xyz;\n",
     "\n",
     "float4 pos = float4(dot(P0, rawpos), dot(P1, rawpos), dot(P2, rawpos), 1.0);\n",
     "o.pos = float4(dot(" + u.projection + "[0], pos), dot(" + u.projection
       + "[1], pos), dot(" + u.projection + "[2], pos), dot(" + u.projection + "[3], pos));\n",
     "\n",
     "// Only the first normal gets normalized (TODO: why?)\n"]
  }

  /** The marker line that opens the texture-coordinate generation. */
  const TexgenComment := "// Texture coordinate generation\n"

  /** The head of the per-texgen block: a constant index for one texgen, otherwise a loop. */
  function TexgenLoopHead(api: Api, n: u32): string
  {
    if n == 1 then "{ const uint texgen = 0u;\n"
    else (if api == D3D11 then "[loop] " else "") + "for (uint texgen = 0u; " + "texgen < " + Decimal(n) + "u; texgen++) {\n"
  }

  /** The texture-coordinate source switch. */
  function SourceRowSwitch(h: Helpers, c: Constants): seq<string>
  {
    SourceRowFixedCases(h, c)
    + Repeat(SourceTexCase(c.srcTex0InRow, c.hasUv0), 8)
    + ["  }\n", "\n"]
  }

  /** The source switch up to the eight texture-coordinate rows. */
  function SourceRowFixedCases(h: Helpers, c: Constants): seq<string>
  {
    ["  switch (" + h.bitfieldExtract("texMtxInfo", SourceRow) + ") {\n",
     "  case " + Decimal(c.srcGeomInRow) + "u: // XF_SRCGEOM_INROW\n",
     "    coord.xyz = rawpos.xyz;\n",
     "    break;\n", "\n",
     "  case " + Decimal(c.srcNormalInRow) + "u: // XF_SRCNORMAL_INROW\n",
     "    coord.xyz = ((components & " + Decimal(c.hasNrm0) + "u /* VB_HAS_NRM0 */) != 0u) ? rawnorm0.xyz : coord.xyz;",
     "    break;\n", "\n",
     "  case " + Decimal(c.srcBinormalTInRow) + "u: // XF_SRCBINORMAL_T_INROW\n",
     "    coord.xyz = ((components & " + Decimal(c.hasNrm1) + "u /* VB_HAS_NRM1 */) != 0u) ? rawnorm1.xyz : coord.xyz;",
     "    break;\n", "\n",
     "  case " + Decimal(c.srcBinormalBInRow) + "u: // XF_SRCBINORMAL_B_INROW\n",
     "    coord.xyz = ((components & " + Decimal(c.hasNrm2) + "u /* VB_HAS_NRM2 */) != 0u) ? rawnorm2.xyz : coord.xyz;",
     "    break;\n", "\n"]
  }

  /** The emboss case of the texgen-type switch, with its source-texgen switch. */
  function EmbossCase(n: u32, h: Helpers, c: Constants, u: UniformNames): seq<string>
  {
    EmbossHead(h, c) + Repeat(EmbossSourceCase, n) + EmbossTail(c, u)
  }

  function EmbossHead(h: Helpers, c: Constants): seq<string>
  {
    ["  case " + Decimal(c.texGenEmbossMap) + "u: // XF_TEXGEN_EMBOSS_MAP\n",
     "    {\n",
     "      uint light = " + h.bitfieldExtract("texMtxInfo", EmbossLightShift) + ";\n",
     "      uint source = " + h.bitfieldExtract("texMtxInfo", EmbossSourceShift) + ";\n",
     "      switch (source) {\n"]
  }

  function EmbossTail(c: Constants, u: UniformNames): seq<string>
  {
    ["      default: output_tex.xyz = float3(0.0, 0.0, 0.0); break;\n",
       "      }\n",
       "      if ((components & " + Decimal(Or32(c.hasNrm1, c.hasNrm2)) + "u) != 0u) { // VB_HAS_NRM1 | VB_HAS_NRM2\n",
       "        float3 ldir = normalize(" + u.lights + "[light].pos.xyz - pos.xyz);\n",
       "        output_tex.xyz += float3(dot(ldir, _norm1), dot(ldir, _norm2), 0.0);\n",
       "      }\n",
       "    }\n",
       "    break;\n", "\n"]
  }

  /** A matrix product of coord with rows m[first], m[second] and, for STQ, m[third]. */
  function MatrixProduct(m: string, first: string, second: string, third: string, stq: bool): seq<string>
  {
    ["          output_tex.xyz = float3(dot(coord, " + m + "[" + first + "]),\n",
     "                                  dot(coord, " + m + "[" + second + "]),\n",
     if stq then "                                  dot(coord, " + m + "[" + third + "]));\n"
     else "                                  1.0);\n"]
  }

  /** The regular (default) case of the texgen-type switch. */
  function RegularCase(n: u32, h: Helpers, c: Constants, u: UniformNames): seq<string>
  {
    RegularHead(c) + Repeat(RawTexZCase, n) + RegularTail(h, c, u)
  }

  function RegularHead(c: Constants): seq<string>
  {
    ["  default:  // Also XF_TEXGEN_REGULAR\n",
     "    {\n",
     "      if ((components & (" + Decimal(c.hasTexMtxIdx0) + "u /* VB_HAS_TEXMTXIDX0 */ << texgen)) != 0u) {\n",
     "        // This is messy, due to dynamic indexing of the input texture coordinates.\n",
     "        // Hopefully the compiler will unroll this whole loop anyway and the switch.\n",
     "        int tmp = 0;\n",
     "        switch (texgen) {\n"]
  }

  function RegularTail(h: Helpers, c: Constants, u: UniformNames): seq<string>
  {
    var stqTest := "        if (" + h.bitfieldExtract("texMtxInfo", Projection) + " == " + Decimal(c.texProjStq) + "u) {\n";
    ["        }\n", "\n", stqTest]
    + MatrixProduct(u.transformMatrices, "tmp", "tmp + 1", "tmp + 2", true)
    + ["        } else {\n"]
    + MatrixProduct(u.transformMatrices, "tmp", "tmp + 1", "tmp + 2", false)
    + ["        }\n", "      } else {\n", stqTest]
    + MatrixProduct(u.texMatrices, "3u * texgen", "3u * texgen + 1u", "3u * texgen + 2u", true)
    + ["        } else {\n"]
    + MatrixProduct(u.texMatrices, "3u * texgen", "3u * texgen + 1u", "3u * texgen + 2u", false)
    + ["        }\n", "      }\n", "    }\n", "    break;\n", "\n", "  }\n", "\n"]
  }

  // The subscripts of the three post-transform matrix rows.
  const PostRowIndex0 := "[base_index & 0x3fu]"
  const PostRowIndex1 := "[(base_index + 1u) & 0x3fu]"
  const PostRowIndex2 := "[(base_index + 2u) & 0x3fu]"

  // The post-transform matrix rows, indexed modulo 64.
  function PostMatrixRows(m: string): seq<string>
  {
    ["    float4 P0 = " + m + PostRowIndex0 + ";\n",
     "    float4 P1 = " + m + PostRowIndex1 + ";\n",
     "    float4 P2 = " + m + PostRowIndex2 + ";\n"]
  }

  /** The optional second (post) transform. */
  function PostTransform(h: Helpers, u: UniformNames): seq<string>
  {
    ["  if (xfmem_dualTexInfo != 0u) {\n",
     "    uint postMtxInfo = xfmem_postMtxInfo(texgen);",
     "    uint base_index = " + h.bitfieldExtract("postMtxInfo", PostMatrixIndex) + ";\n"]
    + PostMatrixRows(u.postTransformMatrices)
    + ["\n",
       "    if (" + h.bitfieldExtract("postMtxInfo", PostNormalize) + " != 0u)\n",
       "      output_tex.xyz = normalize(output_tex.xyz);\n",
       "\n",
       "    // multiply by postmatrix\n",
       "    output_tex.xyz = float3(dot(P0.xyz, output_tex.xyz) + P0.w,\n",
       "                            dot(P1.xyz, output_tex.xyz) + P1.w,\n",
       "                            dot(P2.xyz, output_tex.xyz) + P2.w);\n",
       "  }\n", "\n"]
  }

  /** The zero-q guard: regular texgens whose q is zero. */
  function ZeroQGuard(c: Constants): string
  {
    "  if (texgentype == " + Decimal(c.texGenRegular) + "u && output_tex.z == 0.0" + ") // XF_TEXGEN_REGULAR\n"
  }

  /** The zero-q statement: halve x and y, then clamp them to [-1, 1]. */
  const ZeroQStatement := "    output_tex.xy = " + "clamp(output_tex.xy / 2.0f" + ", float2(-1.0f,-1.0f), " + "float2(1.0f,1.0f));\n"

  /** The start of the per-texgen block. */
  function TexgenBlockOpen(api: Api, n: u32): seq<string>
  {
    [TexgenComment, TexgenLoopHead(api, n),
     "  // Texcoord transforms\n",
     "  float4 coord = float4(0.0, 0.0, 1.0, 1.0);\n",
     "  uint texMtxInfo = xfmem_texMtxInfo(texgen);\n"]
  }

  /** The AB11 input form and the head of the texgen-type switch. */
  function TexgenTypeSwitchOpen(h: Helpers, c: Constants): seq<string>
  {
    ["  // Input form of AB11 sets z element to 1.0\n",
     "  if (" + h.bitfieldExtract("texMtxInfo", InputForm) + " == " + Decimal(c.texInputAB11) + "u) // inputform == XF_TEXINPUT_AB11\n",
     "    coord.z = 1.0f;\n",
     "\n",
     "  // first transformation\n",
     "  uint texgentype = " + h.bitfieldExtract("texMtxInfo", TexGenType) + ";\n",
     "  float3 output_tex;\n",
     "  switch (texgentype)\n",
     "  {\n"]
  }

  /** The two colour cases of the texgen-type switch. */
  function ColorCases(c: Constants): seq<string>
  {
    ["  case " + Decimal(c.texGenColorStrgbc0) + "u: // XF_TEXGEN_COLOR_STRGBC0\n",
     "    output_tex.xyz = float3(o.colors_0.x, o.colors_0.y, 1.0);\n",
     "    break;\n", "\n",
     "  case " + Decimal(c.texGenColorStrgbc1) + "u: // XF_TEXGEN_COLOR_STRGBC1\n",
     "    output_tex.xyz = float3(o.colors_1.x, o.colors_1.y, 1.0);\n",
     "    break;\n", "\n"]
  }

  /** The zero-q special case. */
  function ZeroQCase(c: Constants): seq<string>
  {
    [ZeroQGuard(c), ZeroQStatement, "\n"]
  }

  /** The final store of output_tex into the texgen's output, closing the block. */
  function StoreSwitch(n: u32): seq<string>
  {
    ["  // Hopefully GPUs that can support dynamic indexing will optimize this.\n",
     "  switch (texgen) {\n"]
    + Repeat(StoreCase, n)
    + ["  }\n", "}\n"]
  }

  /** Zeroing the outputs, opening the per-texgen block, and reading the source coordinate. */
  function TexgenCoordinate(api: Api, n: u32, h: Helpers, c: Constants): seq<string>
  {
    Repeat(ZeroTexOutput, n) + TexgenBlockOpen(api, n) + SourceRowSwitch(h, c)
  }

  /** The first transformation: the switch over the texgen type. */
  function TexgenTypeSwitch(n: u32, h: Helpers, c: Constants, u: UniformNames): seq<string>
  {
    TexgenTypeSwitchOpen(h, c) + EmbossCase(n, h, c, u) + ColorCases(c) + RegularCase(n, h, c, u)
  }

  /** The post transform, the zero-q case and the store, closing the block. */
  function TexgenFinish(n: u32, h: Helpers, c: Constants, u: UniformNames): seq<string>
  {
    PostTransform(h, u) + ZeroQCase(c) + StoreSwitch(n)
  }

  /** The whole texture-coordinate generation (GenVertexShaderTexGens). */
  function TexGens(api: Api, n: u32, h: Helpers, c: Constants, u: UniformNames): seq<string>
  {
    TexgenCoordinate(api, n, h, c) + TexgenTypeSwitch(n, h, c, u) + TexgenFinish(n, h, c, u)
  }

  /** Where the clip position goes: clipPos below 7 texgens, the w of tex0..tex3 from 7 on. */
  function ClipPositionPacking(n: u32): seq<string>
  {
    if n < 7 then ["o.clipPos = float4(pos.x,pos.y,o.pos.z,o.pos.w);\n"]
    else ["o.tex0.w = pos.x;\n", "o.tex1.w = pos.y;\n", "o.tex2.w = o.pos.z;\n", "o.tex3.w = o.pos.w;\n"]
  }

  /** Where the per-pixel-lighting normal goes, and the two vertex colours. */
  function NormalPacking(uid: UidData, c: Constants): seq<string>
  {
    if uid.perPixelLighting == 0 then [] else NormalSlot(uid.numTexgens) + ColourCopies(c)
  }

  /** The normal: its own output below 7 texgens, the w of tex4..tex7 from 7 on. */
  function NormalSlot(n: u32): seq<string>
  {
    if n < 7 then ["o.Normal = float4(_norm0.x,_norm0.y,_norm0.z,pos.z);\n"]
    else ["o.tex4.w = _norm0.x;\n", "o.tex5.w = _norm0.y;\n", "o.tex6.w = _norm0.z;\n",
          if n < 8 then "o.tex7 = pos.xyzz;\n" else "o.tex7.w = pos.z;\n"]
  }

  /** The two vertex colours, each copied only when the vertex has it. */
  function ColourCopies(c: Constants): seq<string>
  {
    ["if ((components & " + Decimal(c.hasCol0) + "u) != 0u) // VB_HAS_COL0\n",
     "  o.colors_0 = rawcolor0;\n",
     "if ((components & " + Decimal(c.hasCol1) + "u) != 0u) // VB_HAS_COL1\n",
     "  o.colors_1 = rawcolor1;\n"]
  }

  const ClipDepthLine := "float clipDepth = o.pos.z * 0.9999999;\n"
  const ClipDistXLine := "o.clipDist.x = clipDepth + o.pos.w;\n"
  const ClipDistYLine := "o.clipDist.y = -clipDepth;\n"
  const DepthRemapLine := "o.pos.z = o.pos.z * 2.0 - o.pos.w;\n"

  /** Depth clipping, the depth range, the viewport sign, the pixel centre and the rounding. */
  function DepthAndPosition(host: ShaderHostConfig, u: UniformNames): seq<string>
  {
    (if host.backendDepthClamp then [ClipDepthLine, ClipDistXLine, ClipDistYLine] else [])
    + ["o.pos.z = o.pos.w * " + u.depthParams + ".x - o.pos.z * " + u.depthParams + ".y;\n"]
    + (if !host.backendClipControl then [DepthRemapLine] else [])
    + ["o.pos.xy *= sign(" + u.depthParams + ".zw * float2(-1.0, 1.0));\n",
       "o.pos.xy = o.pos.xy + o.pos.w * " + u.depthParams + ".zw;\n",
       "if (o.pos.w == 1.0)\n",
       "{\n",
       "\to.pos.xy = round(o.pos.xy * " + u.viewParams + ".xy) * " + u.viewParams + ".zw;\n",
       "}\n"]
  }

  /** The GLSL copies of the outputs when there is no output block. */
  function GlOutputCopies(uid: UidData): seq<string>
  {
    GlTexCopies(uid) + ["colors_0 = o.colors_0;\n", "colors_1 = o.colors_1;\n"]
  }

  /** The copies of the texture coordinates, and of the clip position and normal when they have their own outputs. */
  function GlTexCopies(uid: UidData): seq<string>
  {
    if uid.numTexgens < 7 then
      Repeat(CopyTexOrZero(uid.numTexgens), 8)
      + (["  clipPos = o.clipPos;\n"] + (if uid.perPixelLighting != 0 then ["  Normal = o.Normal;\n"] else []))
    else if uid.perPixelLighting != 0 then Repeat(CopyTex, 8)
    else Repeat(PackedCopyTex, uid.numTexgens)
  }

  const ClipDistance0Line := "gl_ClipDistance[0] = o.clipDist.x;\n"
  const ClipDistance1Line := "gl_ClipDistance[1] = o.clipDist.y;\n"

  /** From the output assignment to the closing brace of main. */
  function Epilogue(api: Api, host: ShaderHostConfig, uid: UidData, h: Helpers): seq<string>
  {
    (if IsGlsl(api) then GlEpilogue(api, host, uid, h) else ["return o;\n"]) + ["}\n"]
  }

  /** The GLSL copies of the outputs, the clip distances and the position. */
  function GlEpilogue(api: Api, host: ShaderHostConfig, uid: UidData, h: Helpers): seq<string>
  {
    GlOutputAssignments(api, host, uid, h)
    + ((if host.backendDepthClamp then [ClipDistance0Line, ClipDistance1Line] else [])
       + [GlPositionLine(api)])
  }

  /** The position output; Vulkan's clip space has y pointing down. */
  function GlPositionLine(api: Api): string
  {
    if api == Vulkan then "gl_Position = float4(o.pos.x, -o.pos.y, o.pos.z, o.pos.w);\n"
    else "gl_Position = o.pos;\n"
  }

  /** The outputs copied into the block, or one by one. */
  function GlOutputAssignments(api: Api, host: ShaderHostConfig, uid: UidData, h: Helpers): seq<string>
  {
    if host.backendGeometryShaders || api == Vulkan then h.assignOutputMembers(api, "vs", "o", uid.perPixelLighting != 0, uid.numTexgens)
    else GlOutputCopies(uid)
  }

  /** The shader's inputs and outputs for the API family. */
  function Interface(api: Api, host: ShaderHostConfig, uid: UidData, h: Helpers, c: Constants): seq<string>
  {
    if IsGlsl(api) then GlslInterface(api, host, uid, h, c) else HlslInterface()
  }

  /** The hardware lighting, from the position and the first normal into the two colours. */
  function VertexLighting(api: Api, h: Helpers): seq<string>
  {
    h.vertexLighting(api, "pos.xyz", "_norm0", "rawcolor0", "rawcolor1", "o.colors_0", "o.colors_1")
  }

  /** The transforms and the hardware lighting. */
  function TransformAndLight(api: Api, h: Helpers, c: Constants, u: UniformNames): seq<string>
  {
    Transforms(api, c, u) + VertexLighting(api, h)
  }

  /** Everything GenVertexShader writes before the texture coordinates. */
  function ShaderHead(api: Api, host: ShaderHostConfig, uid: UidData,
                      h: Helpers, c: Constants, u: UniformNames): seq<string>
  {
    Preamble(api, host, uid, h)
    + Interface(api, host, uid, h, c)
    + TransformAndLight(api, h, c, u)
  }

  /** Everything GenVertexShader writes after the texture coordinates. */
  function ShaderTail(api: Api, host: ShaderHostConfig, uid: UidData,
                      h: Helpers, c: Constants, u: UniformNames): seq<string>
  {
    ClipPositionPacking(uid.numTexgens)
    + NormalPacking(uid, c)
    + DepthAndPosition(host, u)
    + Epilogue(api, host, uid, h)
  }

  /** What GenVertexShader writes. */
  function VertexShader(api: Api, host: ShaderHostConfig, uid: UidData,
                        h: Helpers, c: Constants, u: UniformNames): seq<string>
  {
    ShaderHead(api, host, uid, h, c, u) + TexGenSection(api, uid.numTexgens, h, c, u) + ShaderTail(api, host, uid, h, c, u)
  }

  /** The texture-coordinate generation, written only when there are texgens. */
  function TexGenSection(api: Api, n: u32, h: Helpers, c: Constants, u: UniformNames): seq<string>
  {
    if n > 0 then TexGens(api, n, h, c, u) else []
  }

  // ---------------------------------------------------------------------
  // The generator, write by write
  // ---------------------------------------------------------------------

  /** Associativity of appending, one step of a buffer's growth. */
  lemma AppendAssoc(a: seq<string>, b: seq<string>, c: seq<string>)
    ensures (a + b) + c == a + (b + c)
  {
  }

  /** A block written in three parts. */
  lemma AppendAssoc3(x: seq<string>, a: seq<string>, b: seq<string>, c: seq<string>)
    ensures x + a + b + c == x + (a + b + c)
  {
    AppendAssoc(x, a, b);
    AppendAssoc(x + a, b, c);
    AppendAssoc(x, a + b, c);
  }

  /** A block written in four parts. */
  lemma AppendAssoc4(x: seq<string>, a: seq<string>, b: seq<string>, c: seq<string>, d: seq<string>)
    ensures x + a + b + c + d == x + (a + b + c + d)
  {
    AppendAssoc3(x, a, b, c);
    AppendAssoc(x, a + b + c, d);
  }

  /** A counted loop of the generator: iterations 0..n-1 each write their lines. */
  method WriteRows(code: seq<string>, r: Row, n: nat) returns (code': seq<string>)
    ensures code' == code + Repeat(r, n)
  {
    code' := code;
    var i := 0;
    while i < n
      invariant i <= n
      invariant code' == code + Repeat(r, i)
    {
      AppendAssoc(code, Repeat(r, i), RowLines(r, i));
      code' := code' + RowLines(r, i);
      i := i + 1;
    }
  }

  /** The comment and the head of the per-texgen block. */
  method WriteTexgenBlockOpen(code: seq<string>, api: Api, n: u32) returns (code': seq<string>)
    ensures code' == code + TexgenBlockOpen(api, n)
  {
    code' := code + [TexgenComment];
    if n == 1 {
      code' := code' + ["{ const uint texgen = 0u;\n"];
    } else {
      code' := code' + [(if api == D3D11 then "[loop] " else "") + "for (uint texgen = 0u; " + "texgen < " + Decimal(n) + "u; texgen++) {\n"];
    }
    code' := code' + ["  // Texcoord transforms\n"];
    code' := code' + ["  float4 coord = float4(0.0, 0.0, 1.0, 1.0);\n",
                      "  uint texMtxInfo = xfmem_texMtxInfo(texgen);\n"];
  }

  /** The source-row switch, with its loop over the eight texture-coordinate rows. */
  method WriteSourceRowSwitch(code: seq<string>, h: Helpers, c: Constants) returns (code': seq<string>)
    ensures code' == code + SourceRowSwitch(h, c)
  {
    code' := code + SourceRowFixedCases(h, c);
    code' := WriteRows(code', SourceTexCase(c.srcTex0InRow, c.hasUv0), 8);
    code' := code' + ["  }\n", "\n"];
    AppendAssoc3(code, SourceRowFixedCases(h, c), Repeat(SourceTexCase(c.srcTex0InRow, c.hasUv0), 8), ["  }\n", "\n"]);
  }

  /** The emboss case, with its loop over the possible source texgens. */
  method WriteEmbossCase(code: seq<string>, n: u32, h: Helpers, c: Constants, u: UniformNames) returns (code': seq<string>)
    ensures code' == code + EmbossCase(n, h, c, u)
  {
    code' := code + EmbossHead(h, c);
    code' := WriteRows(code', EmbossSourceCase, n);
    code' := code' + EmbossTail(c, u);
    AppendAssoc3(code, EmbossHead(h, c), Repeat(EmbossSourceCase, n), EmbossTail(c, u));
  }

  /** The regular case, with its loop over the texgens' raw z coordinates. */
  method WriteRegularCase(code: seq<string>, n: u32, h: Helpers, c: Constants, u: UniformNames) returns (code': seq<string>)
    ensures code' == code + RegularCase(n, h, c, u)
  {
    code' := code + RegularHead(c);
    code' := WriteRows(code', RawTexZCase, n);
    code' := code' + RegularTail(h, c, u);
    AppendAssoc3(code, RegularHead(c), Repeat(RawTexZCase, n), RegularTail(h, c, u));
  }

  /** The store switch, with its loop over the texgens. */
  method WriteStoreSwitch(code: seq<string>, n: u32) returns (code': seq<string>)
    ensures code' == code + StoreSwitch(n)
  {
    var open := ["  // Hopefully GPUs that can support dynamic indexing will optimize this.\n",
                 "  switch (texgen) {\n"];
    code' := code + open;
    code' := WriteRows(code', StoreCase, n);
    code' := code' + ["  }\n", "}\n"];
    AppendAssoc3(code, open, Repeat(StoreCase, n), ["  }\n", "}\n"]);
  }

  method WriteTexgenCoordinate(code: seq<string>, api: Api, n: u32, h: Helpers, c: Constants) returns (code': seq<string>)
    ensures code' == code + TexgenCoordinate(api, n, h, c)
  {
    code' := WriteRows(code, ZeroTexOutput, n);
    code' := WriteTexgenBlockOpen(code', api, n);
    code' := WriteSourceRowSwitch(code', h, c);
    AppendAssoc3(code, Repeat(ZeroTexOutput, n), TexgenBlockOpen(api, n), SourceRowSwitch(h, c));
  }

  method WriteTexgenTypeSwitch(code: seq<string>, n: u32, h: Helpers, c: Constants, u: UniformNames) returns (code': seq<string>)
    ensures code' == code + TexgenTypeSwitch(n, h, c, u)
  {
    code' := code + TexgenTypeSwitchOpen(h, c);
    code' := WriteEmbossCase(code', n, h, c, u);
    code' := code' + ColorCases(c);
    code' := WriteRegularCase(code', n, h, c, u);
    AppendAssoc4(code, TexgenTypeSwitchOpen(h, c), EmbossCase(n, h, c, u), ColorCases(c), RegularCase(n, h, c, u));
  }

  method WriteTexgenFinish(code: seq<string>, n: u32, h: Helpers, c: Constants, u: UniformNames) returns (code': seq<string>)
    ensures code' == code + TexgenFinish(n, h, c, u)
  {
    code' := code + PostTransform(h, u);
    code' := code' + ZeroQCase(c);
    code' := WriteStoreSwitch(code', n);
    AppendAssoc3(code, PostTransform(h, u), ZeroQCase(c), StoreSwitch(n));
  }

  /**
    GenVertexShaderTexGens: the per-texgen code, appended to code. The
    lighting flag is passed but not used, as in the generator.
   */
  method GenVertexShaderTexGens(api: Api, n: u32, pixelLightingEnabled: bool,
                                h: Helpers, c: Constants, u: UniformNames, code: seq<string>)
    returns (code': seq<string>)
    ensures code' == code + TexGens(api, n, h, c, u)
  {
    code' := WriteTexgenCoordinate(code, api, n, h, c);
    code' := WriteTexgenTypeSwitch(code', n, h, c, u);
    code' := WriteTexgenFinish(code', n, h, c, u);
    AppendAssoc3(code, TexgenCoordinate(api, n, h, c), TexgenTypeSwitch(n, h, c, u), TexgenFinish(n, h, c, u));
  }

  /** The preamble, write by write. */
  method WritePreamble(code: seq<string>, api: Api, host: ShaderHostConfig, uid: UidData, h: Helpers)
    returns (code': seq<string>)
    ensures code' == code + Preamble(api, host, uid, h)
  {
    var text := ["// Vertex UberShader\n", "\n", h.lightingStruct];
    text := text + [if IsGlsl(api) then "UBO_BINDING(std140, 2) uniform VSBlock {\n" else "cbuffer VSBlock {\n"];
    text := text + [h.shaderUniforms, "};\n", "struct VS_OUTPUT {\n"];
    text := text + h.outputMembers(api, uid.perPixelLighting != 0, uid.numTexgens, None);
    text := text + ["};\n", "\n"];
    text := text + h.commonHeader(api, host);
    text := text + h.lightingFunction;
    code' := code + text;
  }

  /** The vertex outputs declared one by one, write by write. */
  method WriteGlOutputDeclarations(code: seq<string>, q: string, uid: UidData) returns (code': seq<string>)
    ensures code' == code + GlOutputDeclarations(q, uid)
  {
    if uid.numTexgens < 7 {
      code' := WriteRows(code, TexOutput(q, "float3"), 8);
      code' := code' + [OutDecl(q, "float4", "clipPos")];
      if uid.perPixelLighting != 0 {
        code' := code' + [OutDecl(q, "float4", "Normal")];
      }
    } else if uid.perPixelLighting != 0 {
      code' := WriteRows(code, TexOutput(q, "float4"), 8);
    } else {
      code' := WriteRows(code, PackedTexOutput(q), uid.numTexgens);
    }
    code' := code' + [OutDecl(q, "float4", "colors_0")];
    code' := code' + [OutDecl(q, "float4", "colors_1")];
  }

  /** The GLSL attributes, write by write. */
  method WriteGlslAttributes(code: seq<string>, c: Constants) returns (code': seq<string>)
    ensures code' == code + GlslAttributes(c)
  {
    code' := code + GlslFixedAttributes(c);
    code' := WriteRows(code', RawTexAttribute(c.texture0Attrib), 8);
    AppendAssoc(code, GlslFixedAttributes(c), Repeat(RawTexAttribute(c.texture0Attrib), 8));
  }

  /** The GLSL outputs, write by write. */
  method WriteGlslOutputs(code: seq<string>, api: Api, host: ShaderHostConfig, uid: UidData, h: Helpers)
    returns (code': seq<string>)
    ensures code' == code + GlslOutputs(api, host, uid, h)
  {
    if host.backendGeometryShaders || api == Vulkan {
      var members := h.outputMembers(api, uid.perPixelLighting != 0, uid.numTexgens, Some(h.interpolationQualifier(api, host.msaa, host.ssaa, false, true)));
      code' := code + ["VARYING_LOCATION(0) out VertexData {\n"];
      code' := code' + members;
      code' := code' + ["} vs;\n"];
      AppendAssoc3(code, ["VARYING_LOCATION(0) out VertexData {\n"], members, ["} vs;\n"]);
    } else {
      var optCentroid := h.interpolationQualifier(api, host.msaa, host.ssaa, false, false);
      code' := WriteGlOutputDeclarations(code, optCentroid, uid);
    }
  }

  /** The GLSL attributes, outputs and the head of main, write by write. */
  method WriteGlslInterface(code: seq<string>, api: Api, host: ShaderHostConfig, uid: UidData,
                            h: Helpers, c: Constants)
    returns (code': seq<string>)
    ensures code' == code + GlslInterface(api, host, uid, h, c)
  {
    code' := WriteGlslAttributes(code, c);
    code' := WriteGlslOutputs(code', api, host, uid, h);
    code' := code' + ["void main()\n", "{\n"];
    AppendAssoc3(code, GlslAttributes(c), GlslOutputs(api, host, uid, h), ["void main()\n", "{\n"]);
  }

  /** The HLSL entry point and its inputs, write by write. */
  method WriteHlslInterface(code: seq<string>) returns (code': seq<string>)
    ensures code' == code + HlslInterface()
  {
    code' := code + HlslFixedInputs();
    code' := WriteRows(code', D3DTexInput, 8);
    ghost var rows := code';
    code' := code' + ["  float4 posmtx : BLENDINDICES,\n"];
    code' := code' + ["  float4 rawpos : POSITION) {\n"];
    AppendAssoc(rows, ["  float4 posmtx : BLENDINDICES,\n"], ["  float4 rawpos : POSITION) {\n"]);
    AppendAssoc3(code, HlslFixedInputs(), Repeat(D3DTexInput, 8), HlslLastInputs());
  }

  /** Where the clip position, the normal and the colours go, write by write. */
  method WritePacking(code: seq<string>, uid: UidData, c: Constants) returns (code': seq<string>)
    ensures code' == code + ClipPositionPacking(uid.numTexgens) + NormalPacking(uid, c)
  {
    if uid.numTexgens < 7 {
      code' := code + ["o.clipPos = float4(pos.x,pos.y,o.pos.z,o.pos.w);\n"];
    } else {
      code' := code + ["o.tex0.w = pos.x;\n", "o.tex1.w = pos.y;\n", "o.tex2.w = o.pos.z;\n", "o.tex3.w = o.pos.w;\n"];
    }
    ghost var packed := code';
    if uid.perPixelLighting != 0 {
      if uid.numTexgens < 7 {
        code' := code' + ["o.Normal = float4(_norm0.x,_norm0.y,_norm0.z,pos.z);\n"];
      } else {
        code' := code' + ["o.tex4.w = _norm0.x;\n", "o.tex5.w = _norm0.y;\n", "o.tex6.w = _norm0.z;\n",
                          if uid.numTexgens < 8 then "o.tex7 = pos.xyzz;\n" else "o.tex7.w = pos.z;\n"];
      }
      code' := code' + ColourCopies(c);
      AppendAssoc(packed, NormalSlot(uid.numTexgens), ColourCopies(c));
    } else {
      assert code' + [] == code';
    }
  }

  /** The GLSL copies of the outputs when there is no output block, write by write. */
  method WriteGlOutputCopies(code: seq<string>, uid: UidData) returns (code': seq<string>)
    ensures code' == code + GlOutputCopies(uid)
  {
    if uid.numTexgens < 7 {
      code' := WriteRows(code, CopyTexOrZero(uid.numTexgens), 8);
      var rest := ["  clipPos = o.clipPos;\n"] + (if uid.perPixelLighting != 0 then ["  Normal = o.Normal;\n"] else []);
      AppendAssoc(code, Repeat(CopyTexOrZero(uid.numTexgens), 8), rest);
      code' := code' + rest;
    } else if uid.perPixelLighting != 0 {
      code' := WriteRows(code, CopyTex, 8);
    } else {
      code' := WriteRows(code, PackedCopyTex, uid.numTexgens);
    }
    var colours := ["colors_0 = o.colors_0;\n", "colors_1 = o.colors_1;\n"];
    AppendAssoc(code, GlTexCopies(uid), colours);
    code' := code' + colours;
  }

  /** The outputs copied into the block, or one by one. */
  method WriteGlOutputAssignments(code: seq<string>, api: Api, host: ShaderHostConfig, uid: UidData, h: Helpers)
    returns (code': seq<string>)
    ensures code' == code + GlOutputAssignments(api, host, uid, h)
  {
    if host.backendGeometryShaders || api == Vulkan {
      code' := code + h.assignOutputMembers(api, "vs", "o", uid.perPixelLighting != 0, uid.numTexgens);
    } else {
      code' := WriteGlOutputCopies(code, uid);
    }
  }

  /** The GLSL epilogue, write by write. */
  method WriteGlEpilogue(code: seq<string>, api: Api, host: ShaderHostConfig, uid: UidData, h: Helpers)
    returns (code': seq<string>)
    ensures code' == code + GlEpilogue(api, host, uid, h)
  {
    code' := WriteGlOutputAssignments(code, api, host, uid, h);
    var rest := (if host.backendDepthClamp then [ClipDistance0Line, ClipDistance1Line] else [])
                + [GlPositionLine(api)];
    AppendAssoc(code, GlOutputAssignments(api, host, uid, h), rest);
    code' := code' + rest;
  }

  /** From the output assignment to the closing brace of main, write by write. */
  method WriteEpilogue(code: seq<string>, api: Api, host: ShaderHostConfig, uid: UidData, h: Helpers)
    returns (code': seq<string>)
    ensures code' == code + Epilogue(api, host, uid, h)
  {
    if IsGlsl(api) {
      code' := WriteGlEpilogue(code, api, host, uid, h);
    } else {
      code' := code + ["return o;\n"];
    }
    code' := code' + ["}\n"];
  }

  /** The shader's inputs and outputs: GLSL attributes and outputs, or the HLSL entry point. */
  method WriteInterface(code: seq<string>, api: Api, host: ShaderHostConfig, uid: UidData,
                        h: Helpers, c: Constants)
    returns (code': seq<string>)
    ensures code' == code + Interface(api, host, uid, h, c)
  {
    if IsGlsl(api) {
      code' := WriteGlslInterface(code, api, host, uid, h, c);
    } else {
      code' := WriteHlslInterface(code);
    }
  }

  /** The transforms, write by write. */
  method WriteTransforms(code: seq<string>, api: Api, c: Constants, u: UniformNames) returns (code': seq<string>)
    ensures code' == code + Transforms(api, c, u)
  {
    code' := code + MatrixDeclarations();
    if api == D3D11 {
      code' := code' + ["int posidx = int(round(posmtx.x * 255.0));\n"];
    } else {
      code' := code' + ["  int posidx = int(posmtx.r);\n"];
    }
    code' := code' + MatrixLoads(u);
    code' := code' + NormalStatements(c);
    AppendAssoc4(code, MatrixDeclarations(), [PositionIndexLine(api)], MatrixLoads(u), NormalStatements(c));
  }

  /** The transforms and the hardware lighting, write by write. */
  method WriteTransformAndLight(code: seq<string>, api: Api, h: Helpers, c: Constants, u: UniformNames)
    returns (code': seq<string>)
    ensures code' == code + TransformAndLight(api, h, c, u)
  {
    code' := WriteTransforms(code, api, c, u);
    code' := code' + VertexLighting(api, h);
    AppendAssoc(code, Transforms(api, c, u), VertexLighting(api, h));
  }

  /** Everything before the texture coordinates, write by write. */
  method WriteShaderHead(code: seq<string>, api: Api, host: ShaderHostConfig, uid: UidData,
                         h: Helpers, c: Constants, u: UniformNames)
    returns (code': seq<string>)
    ensures code' == code + ShaderHead(api, host, uid, h, c, u)
  {
    code' := WritePreamble(code, api, host, uid, h);
    code' := WriteInterface(code', api, host, uid, h, c);
    code' := WriteTransformAndLight(code', api, h, c, u);
    AppendAssoc3(code, Preamble(api, host, uid, h), Interface(api, host, uid, h, c), TransformAndLight(api, h, c, u));
  }

  /** Everything after the texture coordinates, write by write. */
  method WriteShaderTail(code: seq<string>, api: Api, host: ShaderHostConfig, uid: UidData,
                         h: Helpers, c: Constants, u: UniformNames)
    returns (code': seq<string>)
    ensures code' == code + ShaderTail(api, host, uid, h, c, u)
  {
    code' := WritePacking(code, uid, c);
    code' := code' + DepthAndPosition(host, u);
    code' := WriteEpilogue(code', api, host, uid, h);
    AppendAssoc4(code, ClipPositionPacking(uid.numTexgens), NormalPacking(uid, c), DepthAndPosition(host, u),
                 Epilogue(api, host, uid, h));
  }

  /** The texture-coordinate generation, called only when there are texgens. */
  method WriteTexGenSection(code: seq<string>, api: Api, n: u32, ppl: bool,
                            h: Helpers, c: Constants, u: UniformNames)
    returns (code': seq<string>)
    ensures code' == code + TexGenSection(api, n, h, c, u)
  {
    if n > 0 {
      code' := GenVertexShaderTexGens(api, n, ppl, h, c, u, code);
    } else {
      code' := code;
      assert code + [] == code;
    }
  }

  /**
    GenVertexShader: the whole vertex uber-shader for an id, appended to
    code in the generator's order.
   */
  method GenVertexShader(code: seq<string>, api: Api, host: ShaderHostConfig, uid: UidData,
                         h: Helpers, c: Constants, u: UniformNames)
    returns (code': seq<string>)
    ensures code' == code + VertexShader(api, host, uid, h, c, u)
  {
    code' := WriteShaderHead(code, api, host, uid, h, c, u);
    code' := WriteTexGenSection(code', api, uid.numTexgens, uid.perPixelLighting != 0, h, c, u);
    code' := WriteShaderTail(code', api, host, uid, h, c, u);
    AppendAssoc3(code, ShaderHead(api, host, uid, h, c, u), TexGenSection(api, uid.numTexgens, h, c, u),
                 ShaderTail(api, host, uid, h, c, u));
  }
}
