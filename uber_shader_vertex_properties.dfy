/**
  What the vertex uber-shader generator promises about its ids and about the
  text it writes: which lines appear under which conditions, how many of
  them, and in what order. Statements about a section that has text from a
  helper in it are made only where that text cannot matter.
 */
module UberShaderVertexProperties {
  import opened Text
  import opened UberShaderVertex

  // ---------------------------------------------------------------------
  // Configuration ids
  // ---------------------------------------------------------------------

  /** The id depends on the texgen count and on the lighting decision only. */
  lemma UidDependsOnlyOnTexgensAndLighting(c1: u32, x1: XFMemory, c2: u32, x2: XFMemory,
                                            pixelLightingEnabled: (XFMemory, u32) -> bool,
                                            calculateHash: UidData -> int)
    requires x1.numTexGens == x2.numTexGens
    requires pixelLightingEnabled(x1, c1) == pixelLightingEnabled(x2, c2)
    ensures GetVertexUberShaderUid(c1, x1, pixelLightingEnabled, calculateHash)
         == GetVertexUberShaderUid(c2, x2, pixelLightingEnabled, calculateHash)
  {
  }

  /** Every id of a configuration with at most 8 texgens is one the enumeration produces. */
  lemma EnumerationCoversEveryUid(components: u32, xfr: XFMemory,
                                  pixelLightingEnabled: (XFMemory, u32) -> bool,
                                  calculateHash: UidData -> int)
    requires xfr.numTexGens <= 8
    ensures exists k :: 0 <= k < 18
              && EnumeratedCall(k, calculateHash).0
                 == GetVertexUberShaderUid(components, xfr, pixelLightingEnabled, calculateHash)
  {
    var r := GetVertexUberShaderUid(components, xfr, pixelLightingEnabled, calculateHash);
    var k := 2 * xfr.numTexGens + r.data.perPixelLighting;
    assert k / 2 == xfr.numTexGens && k % 2 == r.data.perPixelLighting;
    assert EnumeratedCall(k, calculateHash).0 == r;
  }

  // ---------------------------------------------------------------------
  // Loops that write one line per iteration
  // ---------------------------------------------------------------------

  /** A loop whose body writes one line writes n lines, the i-th by iteration i. */
  lemma {:induction false} RepeatOneLine(r: Row, n: nat)
    requires forall i: nat :: |RowLines(r, i)| == 1
    ensures |Repeat(r, n)| == n
    ensures forall i :: 0 <= i < n ==> Repeat(r, n)[i] == RowLines(r, i)[0]
  {
    if n > 0 {
      RepeatOneLine(r, n - 1);
      assert |RowLines(r, n - 1)| == 1;
    }
  }

  /** Distinct indexes give distinct emboss source cases. */
  lemma EmbossSourceCaseLinesDiffer(i: nat, j: nat)
    ensures EmbossSourceCaseLine(i) == EmbossSourceCaseLine(j) ==> i == j
  {
    var x := "u: output_tex.xyz = o.tex" + Decimal(i) + ".xyz; break;\n";
    var y := "u: output_tex.xyz = o.tex" + Decimal(j) + ".xyz; break;\n";
    assert EmbossSourceCaseLine(i) == "      case " + Decimal(i) + x;
    assert EmbossSourceCaseLine(j) == "      case " + Decimal(j) + y;
    if EmbossSourceCaseLine(i) == EmbossSourceCaseLine(j) {
      DecimalFieldInjective("      case ", i, x, j, y);
    }
  }

  /** The emboss source switch has a case for index i exactly when i is below the texgen count. */
  lemma EmbossSourceCases(n: nat, i: nat)
    ensures EmbossSourceCaseLine(i) in Repeat(EmbossSourceCase, n) <==> i < n
  {
    RepeatOneLine(EmbossSourceCase, n);
    if EmbossSourceCaseLine(i) in Repeat(EmbossSourceCase, n) {
      var k :| 0 <= k < n && Repeat(EmbossSourceCase, n)[k] == EmbossSourceCaseLine(i);
      EmbossSourceCaseLinesDiffer(k, i);
    }
    if i < n {
      assert Repeat(EmbossSourceCase, n)[i] == EmbossSourceCaseLine(i);
    }
  }

  /** Distinct indexes give distinct rawtex.z cases. */
  lemma RawTexZCaseLinesDiffer(i: nat, j: nat)
    ensures RawTexZCaseLine(i) == RawTexZCaseLine(j) ==> i == j
  {
    var x := "u: tmp = int(rawtex" + Decimal(i) + ".z); break;\n";
    var y := "u: tmp = int(rawtex" + Decimal(j) + ".z); break;\n";
    assert RawTexZCaseLine(i) == "        case " + Decimal(i) + x;
    assert RawTexZCaseLine(j) == "        case " + Decimal(j) + y;
    if RawTexZCaseLine(i) == RawTexZCaseLine(j) {
      DecimalFieldInjective("        case ", i, x, j, y);
    }
  }

  /** The rawtex.z switch has a case for index i exactly when i is below the texgen count. */
  lemma RawTexZCases(n: nat, i: nat)
    ensures RawTexZCaseLine(i) in Repeat(RawTexZCase, n) <==> i < n
  {
    RepeatOneLine(RawTexZCase, n);
    if RawTexZCaseLine(i) in Repeat(RawTexZCase, n) {
      var k :| 0 <= k < n && Repeat(RawTexZCase, n)[k] == RawTexZCaseLine(i);
      RawTexZCaseLinesDiffer(k, i);
    }
    if i < n {
      assert Repeat(RawTexZCase, n)[i] == RawTexZCaseLine(i);
    }
  }

  /** Distinct indexes give distinct store cases. */
  lemma StoreCaseLinesDiffer(i: nat, j: nat)
    ensures StoreCaseLine(i) == StoreCaseLine(j) ==> i == j
  {
    var x := "u: o.tex" + Decimal(i) + ".xyz = output_tex; break;\n";
    var y := "u: o.tex" + Decimal(j) + ".xyz = output_tex; break;\n";
    assert StoreCaseLine(i) == "  case " + Decimal(i) + x;
    assert StoreCaseLine(j) == "  case " + Decimal(j) + y;
    if StoreCaseLine(i) == StoreCaseLine(j) {
      DecimalFieldInjective("  case ", i, x, j, y);
    }
  }

  /** The final store switch has a case for index i exactly when i is below the texgen count. */
  lemma StoreCases(n: nat, i: nat)
    ensures StoreCaseLine(i) in Repeat(StoreCase, n) <==> i < n
  {
    RepeatOneLine(StoreCase, n);
    if StoreCaseLine(i) in Repeat(StoreCase, n) {
      var k :| 0 <= k < n && Repeat(StoreCase, n)[k] == StoreCaseLine(i);
      StoreCaseLinesDiffer(k, i);
    }
    if i < n {
      assert Repeat(StoreCase, n)[i] == StoreCaseLine(i);
    }
  }

  /** Before the texgen loop, every output tex0..tex(n-1) is zeroed, one line each, in order. */
  lemma ZeroTexOutputsInOrder(n: nat)
    ensures |Repeat(ZeroTexOutput, n)| == n
    ensures forall i :: 0 <= i < n ==> Repeat(ZeroTexOutput, n)[i] == "o.tex" + Decimal(i) + ".xyz = float3(0.0, 0.0, 0.0);\n"
  {
    RepeatOneLine(ZeroTexOutput, n);
  }

  // ---------------------------------------------------------------------
  // GLSL output declarations without an output block
  // ---------------------------------------------------------------------

  /** How many texture-coordinate outputs are declared: eight, or one per texgen when packed. */
  function TexOutputCount(uid: UidData): nat
  {
    if uid.numTexgens < 7 || uid.perPixelLighting != 0 then 8 else uid.numTexgens
  }

  /** The type of texture-coordinate output i. */
  function DeclaredTexType(uid: UidData, i: nat): string
  {
    if uid.numTexgens < 7 then "float3" else if uid.perPixelLighting != 0 then "float4" else PackedType(i)
  }

  /** What is declared after the texture coordinates: clipPos and Normal when they have outputs, then the colours. */
  function DeclaredAfterTex(q: string, uid: UidData): seq<string>
  {
    (if uid.numTexgens < 7 then
       [OutDecl(q, "float4", "clipPos")]
       + (if uid.perPixelLighting != 0 then [OutDecl(q, "float4", "Normal")] else [])
     else [])
    + [OutDecl(q, "float4", "colors_0"), OutDecl(q, "float4", "colors_1")]
  }

  /** The declarations, output by output. */
  lemma GlOutputDeclarationsLayout(q: string, uid: UidData)
    ensures |GlOutputDeclarations(q, uid)| == TexOutputCount(uid) + |DeclaredAfterTex(q, uid)|
    ensures forall i :: 0 <= i < TexOutputCount(uid) ==>
              GlOutputDeclarations(q, uid)[i] == OutDecl(q, DeclaredTexType(uid, i), TexName(i))
    ensures GlOutputDeclarations(q, uid)[TexOutputCount(uid)..] == DeclaredAfterTex(q, uid)
  {
    var n := uid.numTexgens;
    var d := GlOutputDeclarations(q, uid);
    var colours := [OutDecl(q, "float4", "colors_0"), OutDecl(q, "float4", "colors_1")];
    if n < 7 {
      var r := TexOutput(q, "float3");
      RepeatOneLine(r, 8);
      var extra := [OutDecl(q, "float4", "clipPos")]
                   + (if uid.perPixelLighting != 0 then [OutDecl(q, "float4", "Normal")] else []);
      assert d == Repeat(r, 8) + (extra + colours);
    } else if uid.perPixelLighting != 0 {
      RepeatOneLine(TexOutput(q, "float4"), 8);
      assert d == Repeat(TexOutput(q, "float4"), 8) + colours;
    } else {
      RepeatOneLine(PackedTexOutput(q), n);
      assert d == Repeat(PackedTexOutput(q), n) + colours;
    }
  }

  /** Two declarations with types of one length differ when their names differ at some position. */
  lemma OutDeclsDiffer(q: string, t1: string, n1: string, t2: string, n2: string, j: nat)
    requires |t1| == |t2|
    requires j < |n1| && j < |n2| && n1[j] != n2[j]
    ensures OutDecl(q, t1, n1) != OutDecl(q, t2, n2)
  {
    var k := |q| + 5 + |t1| + 1 + j;
    assert OutDecl(q, t1, n1)[k] == n1[j];
    assert OutDecl(q, t2, n2)[k] == n2[j];
  }

  /** No texture-coordinate output is named like the clip position, the normal or a colour. */
  lemma TexOutputIsNotNamed(q: string, uid: UidData, i: nat, name: string)
    requires name == "clipPos" || name == "Normal" || name == "colors_0" || name == "colors_1"
    ensures OutDecl(q, DeclaredTexType(uid, i), TexName(i)) != OutDecl(q, "float4", name)
  {
    assert TexName(i)[0] == 't';
    OutDeclsDiffer(q, DeclaredTexType(uid, i), TexName(i), "float4", name, 0);
  }

  /** Which of the clip position and the normal a list of declarations laid out as above declares. */
  lemma DeclaredNames(q: string, uid: UidData, d: seq<string>)
    requires |d| == TexOutputCount(uid) + |DeclaredAfterTex(q, uid)|
    requires forall i :: 0 <= i < TexOutputCount(uid) ==> d[i] == OutDecl(q, DeclaredTexType(uid, i), TexName(i))
    requires d[TexOutputCount(uid)..] == DeclaredAfterTex(q, uid)
    ensures OutDecl(q, "float4", "clipPos") in d <==> uid.numTexgens < 7
    ensures OutDecl(q, "float4", "Normal") in d <==> uid.numTexgens < 7 && uid.perPixelLighting != 0
  {
    var count := TexOutputCount(uid);
    var after := DeclaredAfterTex(q, uid);
    var clip, normal := OutDecl(q, "float4", "clipPos"), OutDecl(q, "float4", "Normal");
    var c0, c1 := OutDecl(q, "float4", "colors_0"), OutDecl(q, "float4", "colors_1");
    OutDeclsDiffer(q, "float4", "Normal", "float4", "clipPos", 0);
    OutDeclsDiffer(q, "float4", "Normal", "float4", "colors_0", 0);
    OutDeclsDiffer(q, "float4", "Normal", "float4", "colors_1", 0);
    OutDeclsDiffer(q, "float4", "clipPos", "float4", "colors_0", 1);
    OutDeclsDiffer(q, "float4", "clipPos", "float4", "colors_1", 1);
    forall k | 0 <= k < count
      ensures d[k] != clip && d[k] != normal
    {
      TexOutputIsNotNamed(q, uid, k, "clipPos");
      TexOutputIsNotNamed(q, uid, k, "Normal");
    }
    forall k | count <= k < |d|
      ensures d[k] == after[k - count]
    {
    }
    if uid.numTexgens < 7 {
      assert d[count] == clip;
      if uid.perPixelLighting != 0 {
        assert d[count + 1] == normal;
      }
    }
  }

  /**
    Without an output block, the clip position has its own output exactly
    below 7 texgens, and the normal exactly below 7 texgens with per-pixel lighting.
   */
  lemma ClipPosAndNormalDeclared(q: string, uid: UidData)
    ensures OutDecl(q, "float4", "clipPos") in GlOutputDeclarations(q, uid) <==> uid.numTexgens < 7
    ensures OutDecl(q, "float4", "Normal") in GlOutputDeclarations(q, uid)
            <==> uid.numTexgens < 7 && uid.perPixelLighting != 0
  {
    GlOutputDeclarationsLayout(q, uid);
    DeclaredNames(q, uid, GlOutputDeclarations(q, uid));
  }

  // ---------------------------------------------------------------------
  // Normals
  // ---------------------------------------------------------------------

  /** Of the normal statements, only the one for _norm0 normalizes. */
  lemma OnlyFirstNormalIsNormalized(c: Constants)
    ensures |NormalStatements(c)| == 12
    ensures forall k :: 0 <= k < 12 ==> (Contains(NormalStatements(c)[k], "normalize") <==> k == 2)
  {
    var s := NormalStatements(c);
    FirstNormalNormalizes();
    NoZOutsideFirstNormal(c);
    assert 'z' in "normalize";
    forall k | 0 <= k < 12 && k != 2
      ensures !Contains(s[k], "normalize")
    {
      AbsentCharacter(s[k], "normalize", 'z');
    }
  }

  lemma FirstNormalNormalizes()
    ensures OccursAt(Norm0Statement, "normalize", 11)
  {
    var head := "  _norm0 = " + "normalize";
    OccursAfter("  _norm0 = ", "normalize");
    OccursAtExtend(head, "normalize", 11, "(float3(dot(N0, rawnorm0), ");
    OccursAtExtend(head + "(float3(dot(N0, rawnorm0), ", "normalize", 11, "dot(N1, rawnorm0), dot(N2, rawnorm0)));\n");
  }

  /** Only the _norm0 statement has the letter z. */
  lemma NoZOutsideFirstNormal(c: Constants)
    ensures forall k :: 0 <= k < 12 && k != 2 ==> 'z' !in NormalStatements(c)[k]
  {
    GuardHasNoZ(c.hasNrm0, "0");
    GuardHasNoZ(c.hasNrm1, "1");
    GuardHasNoZ(c.hasNrm2, "2");
    ZeroNormalsHaveNoZ();
    OtherNormalsHaveNoZ();
    var s := NormalStatements(c);
    assert 'z' !in s[3] && 'z' !in s[7] && 'z' !in s[11];
  }

  lemma ZeroNormalsHaveNoZ()
    ensures 'z' !in "float3 _norm0 = float3(0.0, 0.0, 0.0);\n"
    ensures 'z' !in "float3 _norm1 = float3(0.0, 0.0, 0.0);\n"
    ensures 'z' !in "float3 _norm2 = float3(0.0, 0.0, 0.0);\n"
  {
  }

  lemma OtherNormalsHaveNoZ()
    ensures 'z' !in Norm1Statement && 'z' !in Norm2Statement
  {
    Norm1HeadHasNoZ();
    Norm1TailHasNoZ();
    Norm2HeadHasNoZ();
    Norm2TailHasNoZ();
  }

  lemma Norm1HeadHasNoZ()
    ensures 'z' !in "  _norm1 = float3(dot(N0, rawnorm1), "
  {
  }

  lemma Norm1TailHasNoZ()
    ensures 'z' !in "dot(N1, rawnorm1), dot(N2, rawnorm1));\n"
  {
  }

  lemma Norm2HeadHasNoZ()
    ensures 'z' !in "  _norm2 = float3(dot(N0, rawnorm2), "
  {
  }

  lemma Norm2TailHasNoZ()
    ensures 'z' !in "dot(N1, rawnorm2), dot(N2, rawnorm2));\n"
  {
  }

  /** A normal guard has no letter z in it. */
  lemma GuardHasNoZ(bit: u32, k: string)
    requires k == "0" || k == "1" || k == "2"
    ensures 'z' !in NormalGuard(bit, k)
  {
    var d := Decimal(bit);
    assert 'z' !in d by {
      forall i | 0 <= i < |d| ensures d[i] != 'z' {
        assert IsDecimalDigit(d[i]);
      }
    }
  }

  /** Each normal is zero unless its own component bit is set, in which case its transform follows. */
  lemma NormalsDefaultToZero(c: Constants)
    ensures NormalStatements(c)[0] == "float3 _norm0 = float3(0.0, 0.0, 0.0);\n"
    ensures NormalStatements(c)[1] == NormalGuard(c.hasNrm0, "0")
    ensures NormalStatements(c)[4] == "float3 _norm1 = float3(0.0, 0.0, 0.0);\n"
    ensures NormalStatements(c)[5] == NormalGuard(c.hasNrm1, "1")
    ensures NormalStatements(c)[8] == "float3 _norm2 = float3(0.0, 0.0, 0.0);\n"
    ensures NormalStatements(c)[9] == NormalGuard(c.hasNrm2, "2")
    ensures NormalStatements(c)[2] == Norm0Statement
    ensures NormalStatements(c)[6] == Norm1Statement
    ensures NormalStatements(c)[10] == Norm2Statement
  {
  }

  // ---------------------------------------------------------------------
  // The texture-coordinate generation
  // ---------------------------------------------------------------------

  /**
    One texgen gets a block with the constant index 0; more get a loop bounded
    by the texgen count, marked `[loop] ` on D3D only.
   */
  lemma TexgenLoopHeadShape(api: Api, n: u32)
    ensures n == 1 ==> TexgenLoopHead(api, n) == "{ const uint texgen = 0u;\n"
    ensures OccursAt(TexgenLoopHead(api, n), "[loop] ", 0) <==> n != 1 && api == D3D11
    ensures n != 1 ==> Contains(TexgenLoopHead(api, n), "texgen < " + Decimal(n))
  {
    if n == 1 {
      assert TexgenLoopHead(api, n)[0] == '{';
    } else {
      LoopHeadBound(api, n);
      LoopHeadMark(api, n);
    }
  }

  lemma LoopHeadBound(api: Api, n: u32)
    requires n != 1
    ensures Contains(TexgenLoopHead(api, n), "texgen < " + Decimal(n))
  {
    var s := TexgenLoopHead(api, n);
    var mark := if api == D3D11 then "[loop] " else "";
    var open := mark + "for (uint texgen = 0u; ";
    var bound := "texgen < " + Decimal(n);
    assert s == open + "texgen < " + Decimal(n) + "u; texgen++) {\n";
    OccursAfter(open, "texgen < ");
    assert OccursAt(open + bound, bound, |open|);
    OccursAtExtend(open + bound, bound, |open|, "u; texgen++) {\n");
    assert OccursAt(s, bound, |open|);
  }

  lemma LoopHeadMark(api: Api, n: u32)
    requires n != 1
    ensures OccursAt(TexgenLoopHead(api, n), "[loop] ", 0) <==> api == D3D11
  {
    var s := TexgenLoopHead(api, n);
    if api == D3D11 {
      var open := "[loop] " + "for (uint texgen = 0u; ";
      OccursAtStart("[loop] ", "for (uint texgen = 0u; ");
      OccursAtExtend(open, "[loop] ", 0, "texgen < ");
      OccursAtExtend(open + "texgen < ", "[loop] ", 0, Decimal(n));
      OccursAtExtend(open + "texgen < " + Decimal(n), "[loop] ", 0, "u; texgen++) {\n");
    } else {
      assert s[0] == 'f';
    }
  }

  /** The zero-q case halves x and y and clamps the halves, on regular texgens whose z is zero. */
  lemma ZeroQHalvesThenClamps(c: Constants)
    ensures ZeroQCase(c)[0] == ZeroQGuard(c) && ZeroQCase(c)[1] == ZeroQStatement
    ensures OccursAt(ZeroQStatement, "clamp(output_tex.xy / 2.0f", 20)
    ensures OccursAt(ZeroQGuard(c), "  if (texgentype == " + Decimal(c.texGenRegular) + "u && output_tex.z == 0.0", 0)
  {
    var p := "    output_tex.xy = ";
    var w := "clamp(output_tex.xy / 2.0f";
    OccursAfter(p, w);
    OccursAtExtend(p + w, w, 20, ", float2(-1.0f,-1.0f), ");
    OccursAtExtend(p + w + ", float2(-1.0f,-1.0f), ", w, 20, "float2(1.0f,1.0f));\n");
    var test := "  if (texgentype == " + Decimal(c.texGenRegular) + "u && output_tex.z == 0.0";
    OccursAtStart(test, ") // XF_TEXGEN_REGULAR\n");
  }

  /** The post-transform matrix rows are the three consecutive rows from base_index, indexed modulo 64. */
  lemma PostMatrixRowsWrap(m: string)
    ensures |PostMatrixRows(m)| == 3
    ensures Contains(PostMatrixRows(m)[0], "[base_index & 0x3fu]")
    ensures Contains(PostMatrixRows(m)[1], "[(base_index + 1u) & 0x3fu]")
    ensures Contains(PostMatrixRows(m)[2], "[(base_index + 2u) & 0x3fu]")
    ensures forall k :: 0 <= k < 3 ==> Contains(PostMatrixRows(m)[k], " & 0x3fu")
  {
    PostRowIndexWraps();
    RowHoldsIndex("    float4 P0 = " + m, PostRowIndex0, 11);
    RowHoldsIndex("    float4 P1 = " + m, PostRowIndex1, 18);
    RowHoldsIndex("    float4 P2 = " + m, PostRowIndex2, 18);
  }

  /** Where the mask sits in each row subscript. */
  lemma PostRowIndexWraps()
    ensures OccursAt(PostRowIndex0, " & 0x3fu", 11)
    ensures OccursAt(PostRowIndex1, " & 0x3fu", 18)
    ensures OccursAt(PostRowIndex2, " & 0x3fu", 18)
  {
  }

  /** A row holds its subscript, and so the mask inside it. */
  lemma RowHoldsIndex(p: string, index: string, j: nat)
    requires OccursAt(index, " & 0x3fu", j)
    ensures Contains(p + index + ";\n", index)
    ensures Contains(p + index + ";\n", " & 0x3fu")
  {
    OccursAfter(p, index);
    OccursAtExtend(p + index, index, |p|, ";\n");
    OccursWithin(p + index + ";\n", index, |p|, " & 0x3fu", j);
  }

  // ---------------------------------------------------------------------
  // Packing into the outputs
  // ---------------------------------------------------------------------

  /** The clip position goes to clipPos below 7 texgens and to tex0.w..tex3.w from 7 on. */
  lemma ClipPositionPlacement(n: u32)
    ensures "o.clipPos = float4(pos.x,pos.y,o.pos.z,o.pos.w);\n" in ClipPositionPacking(n) <==> n < 7
    ensures "o.tex0.w = pos.x;\n" in ClipPositionPacking(n) <==> n >= 7
    ensures "o.tex3.w = o.pos.w;\n" in ClipPositionPacking(n) <==> n >= 7
  {
  }

  const NormalLine := "o.Normal = float4(_norm0.x,_norm0.y,_norm0.z,pos.z);\n"
  const NormalXLine := "o.tex4.w = _norm0.x;\n"
  const Tex7PositionLine := "o.tex7 = pos.xyzz;\n"
  const Tex7DepthLine := "o.tex7.w = pos.z;\n"

  /**
    The normal goes to its own output below 7 texgens and otherwise to
    tex4.w..tex6.w, with tex7 = pos.xyzz at exactly 7 texgens and tex7.w = pos.z from 8 on.
   */
  lemma NormalSlotPlacement(n: u32)
    ensures NormalLine in NormalSlot(n) <==> n < 7
    ensures NormalXLine in NormalSlot(n) <==> n >= 7
    ensures Tex7PositionLine in NormalSlot(n) <==> n == 7
    ensures Tex7DepthLine in NormalSlot(n) <==> n >= 8
  {
  }

  /** None of the lines that place the normal is a colour copy. */
  lemma ColourCopiesPlaceNoNormal(c: Constants)
    ensures NormalLine !in ColourCopies(c) && NormalXLine !in ColourCopies(c)
    ensures Tex7PositionLine !in ColourCopies(c) && Tex7DepthLine !in ColourCopies(c)
  {
    var colours := ColourCopies(c);
    var g0, g1 := colours[0], colours[2];
    assert g0[|g0| - 2] == '0' && g1[|g1| - 2] == '1';
    assert NormalLine[|NormalLine| - 2] == ';';
  }

  /** The lighting normal is packed, and the colours copied, only with per-pixel lighting. */
  lemma NormalPlacement(uid: UidData, c: Constants)
    ensures NormalPacking(uid, c) != [] <==> uid.perPixelLighting != 0
    ensures NormalLine in NormalPacking(uid, c) <==> uid.perPixelLighting != 0 && uid.numTexgens < 7
    ensures NormalXLine in NormalPacking(uid, c) <==> uid.perPixelLighting != 0 && uid.numTexgens >= 7
    ensures Tex7PositionLine in NormalPacking(uid, c) <==> uid.perPixelLighting != 0 && uid.numTexgens == 7
    ensures Tex7DepthLine in NormalPacking(uid, c) <==> uid.perPixelLighting != 0 && uid.numTexgens >= 8
  {
    NormalSlotPlacement(uid.numTexgens);
    ColourCopiesPlaceNoNormal(c);
  }

  // ---------------------------------------------------------------------
  // Depth
  // ---------------------------------------------------------------------

  /** The depth-clipping lines appear exactly with depth clamping. */
  lemma DepthClampLines(host: ShaderHostConfig, u: UniformNames)
    ensures ClipDepthLine in DepthAndPosition(host, u) <==> host.backendDepthClamp
    ensures ClipDistXLine in DepthAndPosition(host, u) <==> host.backendDepthClamp
    ensures ClipDistYLine in DepthAndPosition(host, u) <==> host.backendDepthClamp
  {
    assert ClipDepthLine[0] == 'f';
    assert ClipDistXLine[2] == 'c';
    assert ClipDistYLine[2] == 'c';
    assert DepthRemapLine[2] == 'p';
  }

  /** The depth range is remapped from [-1, 1] exactly when the host has no clip control. */
  lemma DepthRemap(host: ShaderHostConfig, u: UniformNames)
    ensures DepthRemapLine in DepthAndPosition(host, u) <==> !host.backendClipControl
  {
    assert ClipDepthLine[0] == 'f';
    assert ClipDistXLine[2] == 'c';
    assert ClipDistYLine[2] == 'c';
    assert DepthRemapLine[2] == 'p' && DepthRemapLine[6] == 'z' && DepthRemapLine[16] == 'z';
  }

  /** On D3D the epilogue only returns the output and closes main: no clip distances. */
  lemma D3DEpilogue(api: Api, host: ShaderHostConfig, uid: UidData, h: Helpers)
    ensures !IsGlsl(api) ==> Epilogue(api, host, uid, h) == ["return o;\n", "}\n"]
  {
  }

  /** On OpenGL and Vulkan with depth clamping, both clip distances are written, in order, right after the outputs. */
  lemma ClipDistancesWithDepthClamp(api: Api, host: ShaderHostConfig, uid: UidData, h: Helpers)
    ensures IsGlsl(api) && host.backendDepthClamp ==>
              ClipDistance0Line in Epilogue(api, host, uid, h) && ClipDistance1Line in Epilogue(api, host, uid, h)
    ensures IsGlsl(api) && host.backendDepthClamp ==>
              GlEpilogue(api, host, uid, h)[..|GlOutputAssignments(api, host, uid, h)| + 2]
              == GlOutputAssignments(api, host, uid, h) + [ClipDistance0Line, ClipDistance1Line]
  {
  }

  /**
    Without depth clamping, the outputs are followed directly by the position, and copying
    the outputs one by one writes no clip distance.
   */
  lemma NoClipDistancesWithoutDepthClamp(api: Api, host: ShaderHostConfig, uid: UidData, h: Helpers)
    ensures IsGlsl(api) && !host.backendDepthClamp && !host.backendGeometryShaders && api != Vulkan ==>
              ClipDistance0Line !in Epilogue(api, host, uid, h) && ClipDistance1Line !in Epilogue(api, host, uid, h)
    ensures IsGlsl(api) && !host.backendDepthClamp ==>
              GlEpilogue(api, host, uid, h) == GlOutputAssignments(api, host, uid, h) + [GlPositionLine(api)]
  {
    if IsGlsl(api) && !host.backendDepthClamp && !host.backendGeometryShaders && api != Vulkan {
      TexCopiesStartWithSpace(uid);
      NoClipDistanceAmong(GlTexCopies(uid));
    }
  }

  lemma NoClipDistanceAmong(lines: seq<string>)
    requires forall k :: 0 <= k < |lines| ==> StartsWithSpace(lines[k])
    ensures ClipDistance0Line !in lines && ClipDistance1Line !in lines
  {
    assert ClipDistance0Line[0] == 'g';
    assert ClipDistance1Line[0] == 'g';
  }

  predicate StartsWithSpace(s: string)
  {
    |s| > 0 && s[0] == ' '
  }

  /** A one-line loop whose lines all start with a space writes only such lines. */
  lemma RepeatStartsWithSpace(r: Row, n: nat)
    requires forall i: nat :: |RowLines(r, i)| == 1 && StartsWithSpace(RowLines(r, i)[0])
    ensures forall k :: 0 <= k < |Repeat(r, n)| ==> StartsWithSpace(Repeat(r, n)[k])
  {
    RepeatOneLine(r, n);
  }

  /** Every copy of a texture coordinate, clip position or normal starts with a space. */
  lemma TexCopiesStartWithSpace(uid: UidData)
    ensures forall k :: 0 <= k < |GlTexCopies(uid)| ==> StartsWithSpace(GlTexCopies(uid)[k])
  {
    var n := uid.numTexgens;
    if n < 7 {
      RepeatStartsWithSpace(CopyTexOrZero(n), 8);
      var rest := ["  clipPos = o.clipPos;\n"] + (if uid.perPixelLighting != 0 then ["  Normal = o.Normal;\n"] else []);
      assert forall k :: 0 <= k < |rest| ==> StartsWithSpace(rest[k]);
    } else if uid.perPixelLighting != 0 {
      RepeatStartsWithSpace(CopyTex, 8);
    } else {
      RepeatStartsWithSpace(PackedCopyTex, n);
    }
  }
}
