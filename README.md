# Dolphin (Ishiiruka) core logic in Dafny

This project models four self-contained pieces of the Ishiiruka fork of the
Dolphin GameCube/Wii emulator and proves properties about them:

- **The vertex uber-shader generator** (`UberShaderVertex`, with its
  properties in `UberShaderVertexProperties`). It builds the two-field
  configuration id: the texgen count and the per-pixel-lighting flag. It
  enumerates all 18 ids. For an id, an API family (D3D11, OpenGL, Vulkan)
  and the host's capabilities, it appends the shader source to a buffer,
  write by write, with the generator's loops. Each writer method is proved
  equal to a function that names the lines it writes. Lemmas about those
  functions state which lines appear, how many there are and in what order.
- **The tab-separated signature database** (`CSVSignatureDB`, with
  `CSVSignatureDBProperties`). `Load` reads a file line by line with the
  stream semantics of `std::getline` and the hexadecimal `operator>>`, and
  updates a map keyed by checksum. `Save` writes one `%08x\t%08x\t%s\t%s\t%s\n`
  line per entry in key order. The lemmas cover how fields are read, which
  lines are ignored, the last line winning, and save-then-load recovering
  the database.
- **The video-backend registry** (`VideoBackendBase`, with
  `VideoBackendBaseProperties`). A `Registry` object holds the list of
  available backends, the backend in use and the default backend.
  `PopulateList` adds the backends of the build. The default is chosen by
  the priority DX9 > OGL > DX11 > SW, which is not the order in which they
  are added. `ActivateBackend` selects by name, and the last match wins.
  `ClearList` deletes every backend.
- **The non-API logic of the Direct3D 11 base layer** (`D3DBase`, with
  `D3DBaseProperties`). It covers:
  - the reference-counted loading and unloading of dxgi.dll and d3d11.dll;
  - the frame-in-progress flag;
  - the shader-model strings and texture limits of each feature level;
  - the four CRC-keyed caches of state objects;
  - the list of anti-aliasing modes.

`Text` holds what the `%u` and `%08x` conversions print and the facts about
reading those numbers back. `Wrappers` holds `Option`.

In the texture-coordinate zero-q case the generator writes
`clamp(output_tex.xy / 2.0f, ...)` (Source/Core/VideoCommon/UberShaderVertex.cpp:483):
the coordinate is halved and then clamped, and that is what
`ZeroQHalvesThenClamps` states.

## Model

| member | source | states |
|---|---|---|
| UberShaderVertex.GetVertexUberShaderUid | Source/Core/VideoCommon/UberShaderVertex.cpp:15-24 | The id carries the texgen count of the transform registers and 1 or 0 for the lighting decision, and its hash is the hash of that data. |
| UberShaderVertexProperties.UidDependsOnlyOnTexgensAndLighting | Source/Core/VideoCommon/UberShaderVertex.cpp:15-24 | Two configurations with the same texgen count and the same lighting decision get the same id, whatever their other registers hold. |
| UberShaderVertex.EnumerateVertexUberShaderUids | Source/Core/VideoCommon/UberShaderVertex.cpp:494-510 | The callback is called exactly 18 times. Texgen counts run 0..8 ascending, each with lighting 0 then 1. Every id is hashed from its own data. The size hint is always 18. All 18 ids are distinct. |
| UberShaderVertexProperties.EnumerationCoversEveryUid | Source/Core/VideoCommon/UberShaderVertex.cpp:494-510 | Every id of a configuration with at most 8 texgens is among the enumerated ones. |
| UberShaderVertex.GenVertexShader | Source/Core/VideoCommon/UberShaderVertex.cpp:28-334 | The whole shader is appended to the buffer, in the generator's order, as the sections VertexShader names. |
| UberShaderVertex.WriteShaderHead | Source/Core/VideoCommon/UberShaderVertex.cpp:36-178 | Everything before the texture coordinates is appended: preamble, interface, transforms and lighting. |
| UberShaderVertex.WritePreamble | Source/Core/VideoCommon/UberShaderVertex.cpp:36-52 | The header, the uniform block (a GLSL UBO or an HLSL cbuffer), the output struct and the helper text are appended. |
| UberShaderVertex.WriteInterface | Source/Core/VideoCommon/UberShaderVertex.cpp:54-120 | The GLSL attributes and outputs are appended, or the HLSL entry point, depending on the API. |
| UberShaderVertex.WriteGlslInterface | Source/Core/VideoCommon/UberShaderVertex.cpp:54-105 | The GLSL attributes, the outputs and the head of main are appended. |
| UberShaderVertex.WriteGlslAttributes | Source/Core/VideoCommon/UberShaderVertex.cpp:56-64 | The seven fixed attributes and the eight rawtex attributes are appended, at their attribute locations. |
| UberShaderVertex.WriteGlslOutputs | Source/Core/VideoCommon/UberShaderVertex.cpp:66-102 | With geometry-shader blocks or on Vulkan, an output block is appended. Otherwise the outputs are declared one by one. |
| UberShaderVertex.WriteGlOutputDeclarations | Source/Core/VideoCommon/UberShaderVertex.cpp:76-101 | The per-output declarations are appended, chosen by the texgen count and the lighting flag. |
| UberShaderVertexProperties.GlOutputDeclarationsLayout | Source/Core/VideoCommon/UberShaderVertex.cpp:78-101 | Below 7 texgens: eight float3 tex outputs, then clipPos, then Normal with lighting. From 7 on with lighting: eight float4 tex outputs. From 7 on without it: as many as there are texgens, float4 below index 4 and float3 after. Then the two colours. |
| UberShaderVertexProperties.ClipPosAndNormalDeclared | Source/Core/VideoCommon/UberShaderVertex.cpp:78-85 | clipPos is declared exactly below 7 texgens. Normal is declared exactly below 7 texgens with per-pixel lighting. |
| UberShaderVertexProperties.TexOutputIsNotNamed | Source/Core/VideoCommon/UberShaderVertex.cpp:80-97 | No texture-coordinate declaration is that of clipPos, Normal or a colour. |
| UberShaderVertex.WriteHlslInterface | Source/Core/VideoCommon/UberShaderVertex.cpp:106-120 | The HLSL entry point is appended, with its normal, colour, eight texture-coordinate, matrix-index and position inputs. |
| UberShaderVertex.WriteTransforms | Source/Core/VideoCommon/UberShaderVertex.cpp:122-174 | The matrix declarations are appended, then the position index (rounded on D3D11), the matrix rows, the projected position and the three normals. |
| UberShaderVertex.WriteTransformAndLight | Source/Core/VideoCommon/UberShaderVertex.cpp:122-178 | The transforms are appended, followed by the vertex-lighting text. |
| UberShaderVertexProperties.OnlyFirstNormalIsNormalized | Source/Core/VideoCommon/UberShaderVertex.cpp:158-174 | Of the twelve normal lines, exactly the _norm0 assignment contains normalize, so _norm1 and _norm2 are plain matrix products. |
| UberShaderVertexProperties.NoZOutsideFirstNormal | Source/Core/VideoCommon/UberShaderVertex.cpp:158-174 | No normal line other than the _norm0 assignment contains the letter z. |
| UberShaderVertexProperties.NormalsDefaultToZero | Source/Core/VideoCommon/UberShaderVertex.cpp:158-174 | Each normal is first set to zero, then guarded by its own VB_HAS_NRM bit, then given its transform by the normal matrix (normalized for the first normal only), in the order 0, 1, 2. |
| UberShaderVertex.WriteTexGenSection | Source/Core/VideoCommon/UberShaderVertex.cpp:180-182 | The texture-coordinate generation is appended only when there are texgens. |
| UberShaderVertex.GenVertexShaderTexGens | Source/Core/VideoCommon/UberShaderVertex.cpp:336-492 | The per-texgen code is appended: the zeroed outputs, the block, the coordinate, the type switch, the post transform, the zero-q case and the store. The lighting flag is not used. |
| UberShaderVertex.WriteRows | Source/Core/VideoCommon/UberShaderVertex.cpp:340-341 | A counted loop of the generator appends iterations 0..n-1, each with its own lines. |
| UberShaderVertexProperties.RepeatOneLine | Source/Core/VideoCommon/UberShaderVertex.cpp:340-341 | A loop whose body writes one line writes n lines, the i-th of them by iteration i. |
| UberShaderVertexProperties.ZeroTexOutputsInOrder | Source/Core/VideoCommon/UberShaderVertex.cpp:340-341 | Before the block, o.tex0 .. o.tex(n-1) are each zeroed by one line, in order. |
| UberShaderVertex.WriteTexgenCoordinate | Source/Core/VideoCommon/UberShaderVertex.cpp:340-383 | The zeroed outputs, the block head and the source-row switch are appended. |
| UberShaderVertex.WriteTexgenBlockOpen | Source/Core/VideoCommon/UberShaderVertex.cpp:344-349 | The comment and the head of the per-texgen block are appended. |
| UberShaderVertexProperties.TexgenLoopHeadShape | Source/Core/VideoCommon/UberShaderVertex.cpp:345-349 | One texgen gets the block `{ const uint texgen = 0u;`. More get a loop bounded by the texgen count. The loop is marked `[loop] ` exactly on D3D11. |
| UberShaderVertex.WriteSourceRowSwitch | Source/Core/VideoCommon/UberShaderVertex.cpp:351-383 | The source-row switch is appended, with its four fixed rows and the eight texture-coordinate rows. |
| UberShaderVertex.WriteTexgenTypeSwitch | Source/Core/VideoCommon/UberShaderVertex.cpp:385-458 | The AB11 input form, the texgen-type switch, the emboss case, the two colour cases and the regular case are appended. |
| UberShaderVertex.WriteEmbossCase | Source/Core/VideoCommon/UberShaderVertex.cpp:397-414 | The emboss case is appended, with one source case per texgen. |
| UberShaderVertexProperties.EmbossSourceCases | Source/Core/VideoCommon/UberShaderVertex.cpp:404-405 | The emboss source switch has a case for index i exactly when i is below the texgen count. |
| UberShaderVertexProperties.EmbossSourceCaseLinesDiffer | Source/Core/VideoCommon/UberShaderVertex.cpp:404-405 | Distinct indexes give distinct emboss source cases, so each index has exactly one. |
| UberShaderVertex.WriteRegularCase | Source/Core/VideoCommon/UberShaderVertex.cpp:421-458 | The regular case is appended, with one rawtex.z case per texgen. |
| UberShaderVertexProperties.RawTexZCases | Source/Core/VideoCommon/UberShaderVertex.cpp:429-430 | The rawtex.z switch has a case for index i exactly when i is below the texgen count. |
| UberShaderVertexProperties.RawTexZCaseLinesDiffer | Source/Core/VideoCommon/UberShaderVertex.cpp:429-430 | Distinct indexes give distinct rawtex.z cases. |
| UberShaderVertex.WriteTexgenFinish | Source/Core/VideoCommon/UberShaderVertex.cpp:460-491 | The post transform, the zero-q case and the store switch are appended, and they close the block. |
| UberShaderVertexProperties.PostMatrixRowsWrap | Source/Core/VideoCommon/UberShaderVertex.cpp:464-466 | There are three post-transform matrix rows, subscripted `[base_index & 0x3fu]`, `[(base_index + 1u) & 0x3fu]` and `[(base_index + 2u) & 0x3fu]`, so every row index wraps at 64. |
| UberShaderVertexProperties.ZeroQHalvesThenClamps | Source/Core/VideoCommon/UberShaderVertex.cpp:480-484 | The zero-q case applies to regular texgens whose z is 0. The x and y are divided by 2 first and then clamped to [-1, 1]. |
| UberShaderVertex.WriteStoreSwitch | Source/Core/VideoCommon/UberShaderVertex.cpp:486-491 | The store switch is appended, with one case per texgen, and closes the block. |
| UberShaderVertexProperties.StoreCases | Source/Core/VideoCommon/UberShaderVertex.cpp:488-489 | The store switch has a case for index i exactly when i is below the texgen count. |
| UberShaderVertexProperties.StoreCaseLinesDiffer | Source/Core/VideoCommon/UberShaderVertex.cpp:488-489 | Distinct indexes give distinct store cases. |
| UberShaderVertex.WriteShaderTail | Source/Core/VideoCommon/UberShaderVertex.cpp:184-333 | Everything after the texture coordinates is appended: the packing, the depth lines, the pixel-centre correction and the epilogue. |
| UberShaderVertex.WritePacking | Source/Core/VideoCommon/UberShaderVertex.cpp:184-217 | The clip position, the normal and the colours are placed as the texgen count and the lighting flag decide. |
| UberShaderVertexProperties.ClipPositionPlacement | Source/Core/VideoCommon/UberShaderVertex.cpp:185-195 | The clip position goes to clipPos below 7 texgens, and to tex0.w..tex3.w from 7 on. |
| UberShaderVertexProperties.NormalSlotPlacement | Source/Core/VideoCommon/UberShaderVertex.cpp:199-211 | The normal goes to its own output below 7 texgens, and otherwise to tex4.w..tex6.w. tex7 = pos.xyzz is written exactly at 7 texgens, and tex7.w = pos.z exactly from 8 on. |
| UberShaderVertexProperties.NormalPlacement | Source/Core/VideoCommon/UberShaderVertex.cpp:197-217 | The normal is packed, and the colours copied, only with per-pixel lighting. |
| UberShaderVertexProperties.ColourCopiesPlaceNoNormal | Source/Core/VideoCommon/UberShaderVertex.cpp:213-216 | None of the colour-copy lines places the normal. |
| UberShaderVertexProperties.DepthClampLines | Source/Core/VideoCommon/UberShaderVertex.cpp:222-231 | The clipDepth line and the two clipDist lines appear exactly when the host has depth clamping. |
| UberShaderVertexProperties.DepthRemap | Source/Core/VideoCommon/UberShaderVertex.cpp:244-252 | The remap `o.pos.z * 2.0 - o.pos.w` appears exactly when the host has no clip control. |
| UberShaderVertex.WriteEpilogue | Source/Core/VideoCommon/UberShaderVertex.cpp:278-333 | The GLSL epilogue or the HLSL `return o;` is appended, and then the closing brace. |
| UberShaderVertex.WriteGlEpilogue | Source/Core/VideoCommon/UberShaderVertex.cpp:278-328 | The output assignments, the clip distances with depth clamping, and gl_Position (y mirrored on Vulkan) are appended. |
| UberShaderVertex.WriteGlOutputAssignments | Source/Core/VideoCommon/UberShaderVertex.cpp:278-315 | The outputs are copied into the block, or one by one. |
| UberShaderVertex.WriteGlOutputCopies | Source/Core/VideoCommon/UberShaderVertex.cpp:286-314 | The one-by-one copies are appended, chosen by the texgen count and the lighting flag, followed by the two colours. |
| UberShaderVertexProperties.TexCopiesStartWithSpace | Source/Core/VideoCommon/UberShaderVertex.cpp:286-312 | Every copy of a texture coordinate, the clip position or the normal starts with a space, so none of them is a clip-distance write. |
| UberShaderVertexProperties.ClipDistancesWithDepthClamp | Source/Core/VideoCommon/UberShaderVertex.cpp:317-321 | On OpenGL and Vulkan with depth clamping, both gl_ClipDistance writes occur, and they come right after the output assignments, distance 0 first. |
| UberShaderVertexProperties.NoClipDistancesWithoutDepthClamp | Source/Core/VideoCommon/UberShaderVertex.cpp:284-327 | On OpenGL and Vulkan without depth clamping, the epilogue is the output assignments followed directly by the gl_Position write for the API. When the outputs are copied one by one, no gl_ClipDistance is written. |
| UberShaderVertexProperties.D3DEpilogue | Source/Core/VideoCommon/UberShaderVertex.cpp:329-333 | On D3D11 the epilogue is only `return o;` and the closing brace, so there is no clip-distance write. |
| Text.Decimal | Source/Core/VideoCommon/UberShaderVertex.cpp:340-349 | What `%u` prints, and `%d` of a non-negative value: a non-empty string of decimal digits. DecimalRoundTrip reads it back as the number. |
| Text.DecimalRoundTrip | Source/Core/VideoCommon/UberShaderVertex.cpp:348-349 | Reading back the digits `%u` prints gives the printed number. |
| Text.DecimalInjective | Source/Core/VideoCommon/UberShaderVertex.cpp:348-349 | Distinct numbers are printed as distinct numerals. |
| Text.DecimalFieldInjective | Source/Core/VideoCommon/UberShaderVertex.cpp:404-405 | Two lines that differ only in a printed number, each followed by a non-digit, are equal only when the numbers are. |
| Text.Hex8 | Source/Core/Core/PowerPC/SignatureDB/CSVSignatureDB.cpp:72 | What `%08x` prints for a 32-bit value: exactly eight hexadecimal digits, none of them upper-case. Hex8RoundTrip reads them back as the value. |
| Text.Hex8RoundTrip | Source/Core/Core/PowerPC/SignatureDB/CSVSignatureDB.cpp:72 | Reading back the eight digits `%08x` prints gives the printed 32-bit value. |
| Text.HexRoundTrip | Source/Core/Core/PowerPC/SignatureDB/CSVSignatureDB.cpp:72 | n lower-case hexadecimal digits of a value below 16^n read back as that value. |
| CSVSignatureDB.ExtractHex | Source/Core/Core/PowerPC/SignatureDB/CSVSignatureDB.cpp:30 | Hexadecimal extraction never grows the unread text, and it succeeds only on a good stream that it advances. |
| CSVSignatureDBProperties.ReadsToken | Source/Core/Core/PowerPC/SignatureDB/CSVSignatureDB.cpp:30 | After leading whitespace, a run of hexadecimal digits that fits in 32 bits is read as its value. Reading stops at the first character that is not a digit. |
| CSVSignatureDBProperties.OverflowGivesNothing | Source/Core/Core/PowerPC/SignatureDB/CSVSignatureDB.cpp:30-31 | A checksum that does not fit in 32 bits fails the stream, and the line is ignored. |
| CSVSignatureDBProperties.HexPrefixOnChecksumIgnored | Source/Core/Core/PowerPC/SignatureDB/CSVSignatureDB.cpp:30-31 | In the model, a line that starts with `0x` is ignored: the checksum reads as 0 and the size read fails at the `x`. The code accepts the prefix; see "Left out". |
| CSVSignatureDBProperties.HexPrefixOnSizeReadsZero | Source/Core/Core/PowerPC/SignatureDB/CSVSignatureDB.cpp:30-31 | In the model, a size written with `0x` is kept as size 0 beside the checksum that was read. The code reads the value after the prefix; see "Left out". |
| CSVSignatureDB.GetLine | Source/Core/Core/PowerPC/SignatureDB/CSVSignatureDB.cpp:31-34 | getline never grows the unread text. On failure it leaves the string as it was or empty. On success it makes progress and the text it returns holds no delimiter. |
| CSVSignatureDB.ParseLine | Source/Core/Core/PowerPC/SignatureDB/CSVSignatureDB.cpp:30-46 | An empty line yields nothing. In a parsed entry the symbol holds no tab. An object location is kept only beside a non-empty object name, and it holds no tab. |
| CSVSignatureDB.Record | Source/Core/Core/PowerPC/SignatureDB/CSVSignatureDB.cpp:72-74 | A saved line starts with the checksum as eight hexadecimal digits, a tab, the size as eight digits and a tab. It holds no NUL, since each `%s` stops at one. |
| CSVSignatureDB.FormatEntry | Source/Core/Core/PowerPC/SignatureDB/CSVSignatureDB.cpp:72-74 | The written text is the record followed by one newline, with no NUL. |
| CSVSignatureDB.GetLineIgnoresStr | Source/Core/Core/PowerPC/SignatureDB/CSVSignatureDB.cpp:31-34 | What the string held before matters only when getline fails. |
| CSVSignatureDBProperties.ReadsField | Source/Core/Core/PowerPC/SignatureDB/CSVSignatureDB.cpp:31-34 | getline stops at the first delimiter, consumes it, and yields the text before it. |
| CSVSignatureDBProperties.ReadsEmptyField | Source/Core/Core/PowerPC/SignatureDB/CSVSignatureDB.cpp:31-34 | getline at a delimiter yields the empty string and moves past the delimiter. |
| CSVSignatureDBProperties.ReadsLastField | Source/Core/Core/PowerPC/SignatureDB/CSVSignatureDB.cpp:33-34 | getline with no delimiter left yields the rest of the text and sets end-of-file. It fails only when nothing is left. |
| CSVSignatureDB.Entry | Source/Core/Core/PowerPC/SignatureDB/CSVSignatureDB.cpp:35-47 | The entry has the symbol and the size. With an empty fifth field, field 4 is the object name and there is no location. Otherwise fields 4 and 5 are the location and the object name. |
| CSVSignatureDBProperties.ParsesFiveFields | Source/Core/Core/PowerPC/SignatureDB/CSVSignatureDB.cpp:30-48 | A line of five fields with a non-empty fifth gives the checksum, the size, the symbol, the location and the object name. |
| CSVSignatureDBProperties.ParsesFourFields | Source/Core/Core/PowerPC/SignatureDB/CSVSignatureDB.cpp:30-42 | A line of four fields gives the fourth as the object name and no location. |
| CSVSignatureDBProperties.ParsesThreeFields | Source/Core/Core/PowerPC/SignatureDB/CSVSignatureDB.cpp:30-42 | A line with only a symbol after the numbers gives no location and no object name. |
| CSVSignatureDBProperties.TokensThenTextGiveEntry | Source/Core/Core/PowerPC/SignatureDB/CSVSignatureDB.cpp:30-37 | Two hexadecimal numbers followed by further text give an entry under the first number, with the second as its size. |
| CSVSignatureDBProperties.TokensAloneGiveNothing | Source/Core/Core/PowerPC/SignatureDB/CSVSignatureDB.cpp:30-31 | Two numbers with nothing after them fail the first getline, and the line is ignored. |
| CSVSignatureDBProperties.NoLeadingNumberGivesNothing | Source/Core/Core/PowerPC/SignatureDB/CSVSignatureDB.cpp:30-31 | A line whose first non-blank character is not a hexadecimal digit is ignored. |
| CSVSignatureDBProperties.LastLineWins | Source/Core/Core/PowerPC/SignatureDB/CSVSignatureDB.cpp:24-53 | A checksum's entry comes from the last line that parses for it. Without such a line, the old entry (or its absence) stays. |
| CSVSignatureDBProperties.UnparsedLineIsIgnored | Source/Core/Core/PowerPC/SignatureDB/CSVSignatureDB.cpp:50-53 | A line that does not parse changes nothing, wherever it stands. |
| CSVSignatureDB.LoadFromStoresFileLines | Source/Core/Core/PowerPC/SignatureDB/CSVSignatureDB.cpp:24-54 | The line loop stores exactly the lines getline yields, in order. |
| CSVSignatureDBProperties.ReadsFileLines | Source/Core/Core/PowerPC/SignatureDB/CSVSignatureDB.cpp:24 | The line loop reads back every newline-ended line, and a last line without a newline when it is not empty. |
| CSVSignatureDB.Load | Source/Core/Core/PowerPC/SignatureDB/CSVSignatureDB.cpp:16-57 | A file that cannot be opened gives false and leaves the database untouched. Otherwise the result is true, with the file's lines stored in order, even when some of them do not parse. |
| CSVSignatureDB.SortedKeys | Source/Core/Core/PowerPC/SignatureDB/CSVSignatureDB.cpp:68 | The keys visited by the map walk are exactly the database's keys, each once. |
| CSVSignatureDB.SortedKeysAscend | Source/Core/Core/PowerPC/SignatureDB/CSVSignatureDB.cpp:68 | The keys are visited in strictly ascending order. |
| CSVSignatureDB.MinFrom | Source/Core/Core/PowerPC/SignatureDB/CSVSignatureDB.cpp:68 | The next key visited is the smallest one not yet visited. |
| CSVSignatureDB.CString | Source/Core/Core/PowerPC/SignatureDB/CSVSignatureDB.cpp:72-74 | `%s` of `c_str()` prints the NUL-free prefix of the string that ends exactly at its first NUL, or the whole string when it has none. |
| CSVSignatureDB.Save | Source/Core/Core/PowerPC/SignatureDB/CSVSignatureDB.cpp:59-79 | A file that cannot be opened gives false and writes nothing. Otherwise the result is true and the text is one formatted line per entry, in key order. |
| CSVSignatureDBProperties.ParsesRecord | Source/Core/Core/PowerPC/SignatureDB/CSVSignatureDB.cpp:14-15 | A saved line, whose fields contain no tab or newline, parses back to its checksum and the entry as printed. |
| CSVSignatureDBProperties.SavedTextIsLines | Source/Core/Core/PowerPC/SignatureDB/CSVSignatureDB.cpp:68-75 | The saved text is its records, each ended by a newline, and no record contains a newline. |
| CSVSignatureDBProperties.StoresRecords | Source/Core/Core/PowerPC/SignatureDB/CSVSignatureDB.cpp:24-48 | Storing the saved lines of some keys sets exactly those keys to their reloaded entries and leaves every other key alone. |
| CSVSignatureDBProperties.SaveThenLoad | Source/Core/Core/PowerPC/SignatureDB/CSVSignatureDB.cpp:16-79 | Loading the saved text into a database overlays it with every saved entry, reloaded. |
| CSVSignatureDBProperties.SaveThenLoadRestores | Source/Core/Core/PowerPC/SignatureDB/CSVSignatureDB.cpp:14-15 | When the strings contain no tab, newline or NUL, and every entry with a location also has an object name, loading the saved text into an empty database gives the database back. |
| CSVSignatureDBProperties.ReloadedUnchanged | Source/Core/Core/PowerPC/SignatureDB/CSVSignatureDB.cpp:38-47 | Entries without NULs, and with an object name whenever they have a location, reload unchanged. |
| VideoBackendBase.Registry.constructor | Source/Core/VideoCommon/VideoBackendBase.cpp:17-19 | The list starts empty, with no backend in use and no default. |
| VideoBackendBase.Registry.PopulateList | Source/Core/VideoCommon/VideoBackendBase.cpp:40-64 | New backends are added to the end of the list in the push order of the build, each reporting its own name. When any backend is added, the default and the current backend are both the first present in priority order. Otherwise both are unchanged. |
| VideoBackendBase.Registry.Add | Source/Core/VideoCommon/VideoBackendBase.cpp:46-51 | A new backend of the kind is added to the end of the list, and nothing else changes. |
| VideoBackendBase.Registry.PickDefault | Source/Core/VideoCommon/VideoBackendBase.cpp:56-63 | The loop stops at the first non-null slot, which becomes both the default and the current backend. With no such slot, both are unchanged. |
| VideoBackendBaseProperties.PushedKinds | Source/Core/VideoCommon/VideoBackendBase.cpp:45-54 | DX9 is added exactly on Windows builds, DX11 exactly on Windows from Vista on, and OpenGL exactly where it is built. The software backend is never added, and at most three backends are. |
| VideoBackendBase.DefaultOfBuild | Source/Core/VideoCommon/VideoBackendBase.cpp:42-63 | The default is DX9 on Windows builds, otherwise OpenGL where it is built, otherwise none. |
| VideoBackendBaseProperties.DefaultIsFirstAdded | Source/Core/VideoCommon/VideoBackendBase.cpp:42-63 | The default is the first backend added, or none when nothing is added. This holds although the priority order DX9, OGL, DX11 differs from the push order DX9, DX11, OGL. |
| VideoBackendBase.FirstPresent | Source/Core/VideoCommon/VideoBackendBase.cpp:56-63 | The result is a kind of the order that is present. None means that no kind of the order is present. |
| VideoBackendBaseProperties.FirstPresentIsPriorityMinimum | Source/Core/VideoCommon/VideoBackendBase.cpp:56-63 | The kind that comes first in priority order among the present ones is the one chosen. |
| VideoBackendBase.Registry.ClearList | Source/Core/VideoCommon/VideoBackendBase.cpp:66-73 | The list ends empty. The backends are deleted from the back, last added first. The current and default pointers are not touched. |
| VideoBackendBaseProperties.ClearDeletesAll | Source/Core/VideoCommon/VideoBackendBase.cpp:66-73 | Every backend of the list is deleted, and only those: one deletion per entry, the i-th deletion being the entry i places from the end. |
| VideoBackendBase.Registry.ActivateBackend | Source/Core/VideoCommon/VideoBackendBase.cpp:75-83 | The backend in use is the last one in the list reporting the name. Without a match, it is the default for an empty name and unchanged otherwise. The list and the default do not change. |
| VideoBackendBase.LastNamed | Source/Core/VideoCommon/VideoBackendBase.cpp:80-82 | The result is a backend of the list with that name, and no later backend has it. None means that no backend reports the name. |
| VideoBackendBaseProperties.EmptyNameSelectsDefault | Source/Core/VideoCommon/VideoBackendBase.cpp:77-78 | An empty name selects the default backend, unless some backend reports the empty name. |
| VideoBackendBaseProperties.UnknownNameKeepsCurrent | Source/Core/VideoCommon/VideoBackendBase.cpp:80-82 | A non-empty name that no backend reports leaves the backend in use unchanged. |
| VideoBackendBaseProperties.LastMatchWins | Source/Core/VideoCommon/VideoBackendBase.cpp:80-82 | Of several backends reporting the name, the last in the list is selected. |
| VideoBackendBaseProperties.SelectsKnownBackend | Source/Core/VideoCommon/VideoBackendBase.cpp:75-83 | The selected backend is one of the list, the default, or the one in use before. |
| VideoBackendBaseProperties.ActivateTwice | Source/Core/VideoCommon/VideoBackendBase.cpp:75-83 | Selecting the same name twice is the same as selecting it once. |
| D3DBase.VertexShaderVersionString | Source/Core/VideoBackends/DX11/D3DBase.cpp:345-350 | The target is six characters, `vs_` then major, `_`, minor. The major version is 5 exactly at level 11_0 and 4 otherwise. The minor version is 1 exactly at level 10_1 and 0 otherwise. |
| D3DBase.GeometryShaderVersionString | Source/Core/VideoBackends/DX11/D3DBase.cpp:352-357 | The same rule with the prefix `gs_`. |
| D3DBase.PixelShaderVersionString | Source/Core/VideoBackends/DX11/D3DBase.cpp:359-364 | The same rule with the prefix `ps_`. |
| D3DBase.GetMaxTextureSize | Source/Core/VideoBackends/DX11/D3DBase.cpp:375-396 | The limit is positive exactly at the six known levels. It never exceeds the Direct3D 11 limit and reaches it only at level 11_0. From level 10_0 on it is at least the Direct3D 10 limit. |
| D3DBaseProperties.VersionStringsShareShaderModel | Source/Core/VideoBackends/DX11/D3DBase.cpp:345-364 | The vertex, geometry and pixel strings are vs_, gs_ and ps_ of one shader model: 5_0 for level 11_0, 4_1 for 10_1 and 4_0 for anything else. |
| D3DBaseProperties.MaxTextureSizeGrowsWithLevel | Source/Core/VideoBackends/DX11/D3DBase.cpp:375-396 | Over the known feature levels, the limit is positive and never smaller at a higher level. |
| D3DBaseProperties.UnknownLevelHasNoTextures | Source/Core/VideoBackends/DX11/D3DBase.cpp:393-394 | An unknown feature level gives 0. |
| D3DBase.Load | Source/Core/VideoBackends/DX11/D3DBase.cpp:51-88 | The count goes up on success and is unchanged on failure. Failure happens exactly when the count was not positive, no handle was loaded and the library does not load. An already positive count succeeds without loading. A fresh load keeps the entry points it found, missing ones included. |
| D3DBase.Unload | Source/Core/VideoBackends/DX11/D3DBase.cpp:90-109 | Nothing happens at count 0. Otherwise the count goes down, and the library is freed and its entry points cleared only when the count reaches 0. |
| D3DBase.D3DContext.constructor | Source/Core/VideoBackends/DX11/D3DBase.cpp:15-49 | Both counts start at 0, with no library, no entry point, no device, no frame in progress and empty caches. |
| D3DBase.D3DContext.LoadDXGI | Source/Core/VideoBackends/DX11/D3DBase.cpp:51-67 | dxgi.dll's count, handle and factory entry point change as Load says, and nothing else changes. |
| D3DBase.D3DContext.LoadD3D | Source/Core/VideoBackends/DX11/D3DBase.cpp:69-88 | d3d11.dll's count, handle and two entry points change as Load says, and nothing else changes. |
| D3DBase.D3DContext.UnloadDXGI | Source/Core/VideoBackends/DX11/D3DBase.cpp:90-98 | dxgi.dll's state changes as Unload says, and nothing else changes. |
| D3DBase.D3DContext.UnloadD3D | Source/Core/VideoBackends/DX11/D3DBase.cpp:100-109 | d3d11.dll's state changes as Unload says, and nothing else changes. |
| D3DBaseProperties.LoadKeepsConsistent | Source/Core/VideoBackends/DX11/D3DBase.cpp:51-88 | Loading keeps the count non-negative, a handle loaded exactly while the count is positive, and no entry point without a handle. |
| D3DBaseProperties.UnloadKeepsConsistent | Source/Core/VideoBackends/DX11/D3DBase.cpp:90-109 | Unloading keeps the same invariant. |
| D3DBaseProperties.LoadedLoadSucceeds | Source/Core/VideoBackends/DX11/D3DBase.cpp:53 | With a positive count, loading only counts up and returns S_OK. |
| D3DBaseProperties.MissingEntryPointStillSucceeds | Source/Core/VideoBackends/DX11/D3DBase.cpp:63-66 | A library that loads gives S_OK even when entry points are missing. Those entry points stay null. |
| D3DBaseProperties.UnloadUndoesLoad | Source/Core/VideoBackends/DX11/D3DBase.cpp:51-109 | A successful load followed by an unload gives the library state back. |
| D3DBaseProperties.BalancedLoadsAndUnloads | Source/Core/VideoBackends/DX11/D3DBase.cpp:51-109 | n loads of a library that loads raise the count by n, and n unloads then give the state back. |
| D3DBase.Begin | Source/Core/VideoBackends/DX11/D3DBase.cpp:509-518 | A frame is in progress afterwards. The result is true exactly when no frame was in progress and there is a device. |
| D3DBase.End | Source/Core/VideoBackends/DX11/D3DBase.cpp:520-528 | No frame is in progress afterwards. |
| D3DBase.D3DContext.BeginFrame | Source/Core/VideoBackends/DX11/D3DBase.cpp:509-518 | The flag and the result are as Begin says, and nothing else changes. |
| D3DBase.D3DContext.EndFrame | Source/Core/VideoBackends/DX11/D3DBase.cpp:520-528 | The flag is as End says, and nothing else changes. |
| D3DBaseProperties.BeginTwiceRefused | Source/Core/VideoBackends/DX11/D3DBase.cpp:511-515 | A second BeginFrame before EndFrame returns false. |
| D3DBaseProperties.BeginEndBegin | Source/Core/VideoBackends/DX11/D3DBase.cpp:509-528 | BeginFrame then EndFrame leaves no frame in progress, and the next BeginFrame behaves as the first. |
| D3DBase.Fetch | Source/Core/VideoBackends/DX11/D3DBase.cpp:403-416 | A cached CRC gives the cached state and leaves the cache as it is. Otherwise the created state is returned and cached under the CRC. |
| D3DBase.D3DContext.GetRasterizerState | Source/Core/VideoBackends/DX11/D3DBase.cpp:403-416 | The rasterizer cache and the result are as Fetch says, and nothing else changes. |
| D3DBase.D3DContext.GetBlendState | Source/Core/VideoBackends/DX11/D3DBase.cpp:418-431 | The blend cache and the result are as Fetch says, and nothing else changes. |
| D3DBase.D3DContext.GetDepthStencilState | Source/Core/VideoBackends/DX11/D3DBase.cpp:433-446 | The depth-stencil cache and the result are as Fetch says, and nothing else changes. |
| D3DBase.D3DContext.GetSamplerState | Source/Core/VideoBackends/DX11/D3DBase.cpp:448-461 | The sampler cache and the result are as Fetch says, and nothing else changes. |
| D3DBaseProperties.FetchAgainIsCached | Source/Core/VideoBackends/DX11/D3DBase.cpp:403-461 | Asking again for the same CRC returns the state created the first time, and the cache does not change. |
| D3DBaseProperties.FetchAddsAtMostOne | Source/Core/VideoBackends/DX11/D3DBase.cpp:403-461 | A cache grows by at most the one CRC asked for, and keeps every other entry. |
| D3DBase.D3DContext.ReleaseStates | Source/Core/VideoBackends/DX11/D3DBase.cpp:463-476 | All four caches are empty afterwards, and nothing else changes. |
| D3DBase.Qualities | Source/Core/VideoBackends/DX11/D3DBase.cpp:137-140 | For one sample count there are the modes of quality 0 up to the number of levels, in order. |
| D3DBase.AppendQualities | Source/Core/VideoBackends/DX11/D3DBase.cpp:139-140 | The inner loop over the quality levels of one sample count appends exactly Qualities(count, levels) to the modes so far: qualities 0 up to levels, in order. |
| D3DBase.EnumAAModes | Source/Core/VideoBackends/DX11/D3DBase.cpp:111-147 | The nested loops produce exactly AAModes: the single mode {1, 0} when there is no device or the level is 10_0, and otherwise the modes of every count below 32. |
| D3DBaseProperties.FallbackMode | Source/Core/VideoBackends/DX11/D3DBase.cpp:121-129 | Without a device, or at feature level 10_0, the only mode listed is {1, 0}. |
| D3DBaseProperties.ModesBelowMembers | Source/Core/VideoBackends/DX11/D3DBase.cpp:132-142 | A mode is listed exactly when its count is below the bound and its quality is below the levels the device reports for that count. |
| D3DBaseProperties.ModesBelowAscend | Source/Core/VideoBackends/DX11/D3DBase.cpp:132-142 | The modes come by increasing count, and within a count by increasing quality. |
| D3DBaseProperties.ReportedModes | Source/Core/VideoBackends/DX11/D3DBase.cpp:130-145 | With a device above level 10_0, exactly the reported (count, quality) pairs with a count below 32 are listed, in increasing order. |

## Left out

- The shader buffer (a `ShaderCode` object) is a value here. Each writer takes the lines written so far and returns them with its own appended, so the model says nothing of aliasing the buffer.
- The helpers the generator calls are parameters. No code of these is part of this model: GenerateVSOutputMembers, AssignVSOutputMembers, WriteUberShaderCommonHeader, WriteLightingFunction, WriteVertexLighting, GetInterpolationQualifier, BitfieldExtract, the uniform and lighting-struct text, the per-pixel-lighting decision and the id hash. Properties are therefore stated on the sections written around them, not on the helpers' own text.
- The VB_HAS_*, XF_* and SHADER_*_ATTRIB values, and the uniform names, are fields of parameter records rather than fixed numbers.
- What the emitted shader code computes (matrix products, normalize, round, clamp, the depth formulas) is GPU floating-point arithmetic, so only which lines are written is modelled.
- UberShaderVertex.WriteTexGenSection: that the section is non-empty exactly when there are texgens holds only through the definition of TexGenSection (`if n > 0`). No separate lemma states it.
- CSVSignatureDB.ExtractHex: the `0x` prefix and the sign that the hexadecimal extractor also accepts are not modelled. The model reads a leading `0x` as the number 0, and reading stops at the `x`. On the checksum, the size read then fails at the `x`, so the line is ignored, where the code stores it. On the size, the line is stored with size 0, where the code stores the value after the prefix, and the text from the `x` to the first tab is taken as the skipped field. A leading `+` or `-` fails the read, so the line is ignored, where the code stores the value, negated modulo 2^32 for `-`. HexPrefixOnChecksumIgnored and HexPrefixOnSizeReadsZero state the two `0x` cases of the model.
- Opening a file is modelled as an optional text for Load (absent when the file cannot be opened) and as a `canOpen` flag for Save. The text Save writes is returned rather than written to a file.
- The log messages of Load and Save are left out, along with the line counter that only feeds the warning.
- CSVSignatureDB.Save: the map is modelled by its key set walked in ascending order, as `std::map` walks it. The DBFunc and FuncDB declarations are not part of this model; their fields are the ones Load and Save use.
- IsGteVista, and the compile-time switches `_WIN32` and `USE_GLES`, are parameters of PopulateList.
- The name each backend reports is a parameter, because the backends' GetName is not part of this model.
- Constructing backend objects is modelled by `new`, and deleting them by the order in which ClearList hands them out.
- VideoBackendBase.Registry.ClearList: the backend in use and the default still point at deleted objects afterwards, as in the code. The model does not mark them as dangling.
- The software backend's push is commented out in the code, so it is never added. Its slot stays empty.
- LoadLibrary and GetProcAddress are modelled by their outcomes, which are parameters.
- The error message boxes are left out, and so are FreeLibrary and the C `int` wrap-around of the reference counts.
- Only the two results S_OK and E_FAIL are modelled.
- The CRC of a descriptor and the state object the device creates are parameters of Get*State.
- Messages and debug names: the PanicAlert after a failed create, the PanicAlert of BeginFrame when a frame is already in progress (D3DBase.cpp:513), the PanicAlert of EndFrame when no frame is in progress (D3DBase.cpp:524), SetDebugObjectName, and the Release calls in ReleaseStates are not modelled; they only report or free and change no modelled state.
- The rest of D3DBase.cpp is left out, because it is Direct3D, DXGI and window calls: Create, Close, Reset, Present, SetFullscreenState, GetFullscreenState, GetFeatureLevel, GetAAMode and the simple getters.
- The feature-level numbers, the two texture-dimension limits and the sample-count bound of 32 follow the Direct3D 11 headers.
- D3DBase.EnumAAModes: creating the device and querying the quality levels are parameters, namely whether creation succeeded, the feature level, and a function from sample count to levels. Releasing the device is not modelled.
