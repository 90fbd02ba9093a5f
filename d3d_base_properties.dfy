/**
  What the Direct3D 11 base layer guarantees: the shader models and texture
  limits of each feature level, balanced loading and unloading of the
  libraries, the frame protocol, the state caches, and which anti-aliasing
  modes are listed in which order.
 */
module D3DBaseProperties {
  import opened D3DBase

  // ---------------------------------------------------------------------
  // Feature levels
  // ---------------------------------------------------------------------

  /** The shader model of a feature level: 5.0 for 11.0, 4.1 for 10.1, 4.0 for anything else. */
  function ShaderModel(featLevel: int): string
  {
    match featLevel
    case 0xb000 => "5_0"
    case 0xa100 => "4_1"
    case _ => "4_0"
  }

  /** The three version strings name the same shader model, each with the prefix of its stage. */
  lemma VersionStringsShareShaderModel(featLevel: int)
    ensures VertexShaderVersionString(featLevel) == "vs_" + ShaderModel(featLevel)
    ensures GeometryShaderVersionString(featLevel) == "gs_" + ShaderModel(featLevel)
    ensures PixelShaderVersionString(featLevel) == "ps_" + ShaderModel(featLevel)
  {
  }

  /** A higher known feature level never allows smaller textures; an unknown level allows none. */
  lemma MaxTextureSizeGrowsWithLevel(a: int, b: int)
    requires KnownLevel(a) && KnownLevel(b) && a <= b
    ensures 0 < GetMaxTextureSize(a) <= GetMaxTextureSize(b)
  {
  }

  lemma UnknownLevelHasNoTextures(featLevel: int)
    requires !KnownLevel(featLevel)
    ensures GetMaxTextureSize(featLevel) == 0
  {
  }

  // ---------------------------------------------------------------------
  // Libraries
  // ---------------------------------------------------------------------

  lemma LoadKeepsConsistent(d: Dll, libraryLoads: bool, found: seq<bool>)
    requires Consistent(d)
    ensures Consistent(Load(d, libraryLoads, found).0)
  {
  }

  lemma UnloadKeepsConsistent(d: Dll)
    requires Consistent(d)
    ensures Consistent(Unload(d))
  {
  }

  /** Once loaded, loading again always succeeds without loading anything. */
  lemma LoadedLoadSucceeds(d: Dll, libraryLoads: bool, found: seq<bool>)
    requires d.ref > 0
    ensures Load(d, libraryLoads, found) == (d.(ref := d.ref + 1), S_OK)
  {
  }

  /** A library that loads succeeds even when an entry point is missing; the entry point is then null. */
  lemma MissingEntryPointStillSucceeds(n: nat, found: seq<bool>)
    ensures Load(Dll(0, false, NoProcs(n)), true, found) == (Dll(1, true, found), S_OK)
  {
  }

  /** A successful load followed by an unload gives the library state back. */
  lemma UnloadUndoesLoad(d: Dll, libraryLoads: bool, found: seq<bool>)
    requires Consistent(d) && |found| == |d.procs|
    requires Load(d, libraryLoads, found).1 == S_OK
    ensures Unload(Load(d, libraryLoads, found).0) == d
  {
    if d.ref == 0 {
      assert d.procs == NoProcs(|found|);
    }
  }

  function LoadTimes(d: Dll, n: nat, found: seq<bool>): Dll
  {
    if n == 0 then d else Load(LoadTimes(d, n - 1, found), true, found).0
  }

  function UnloadTimes(d: Dll, n: nat): Dll
    decreases n
  {
    if n == 0 then d else UnloadTimes(Unload(d), n - 1)
  }

  /** n loads of a library that loads, then as many unloads, leave the library as it was. */
  lemma {:induction false} BalancedLoadsAndUnloads(d: Dll, n: nat, found: seq<bool>)
    requires Consistent(d) && |found| == |d.procs|
    ensures Consistent(LoadTimes(d, n, found)) && |LoadTimes(d, n, found).procs| == |d.procs|
    ensures LoadTimes(d, n, found).ref == d.ref + n
    ensures UnloadTimes(LoadTimes(d, n, found), n) == d
  {
    if n > 0 {
      var before := LoadTimes(d, n - 1, found);
      BalancedLoadsAndUnloads(d, n - 1, found);
      LoadKeepsConsistent(before, true, found);
      UnloadUndoesLoad(before, true, found);
      assert UnloadTimes(LoadTimes(d, n, found), n) == UnloadTimes(before, n - 1);
    }
  }

  // ---------------------------------------------------------------------
  // Frames
  // ---------------------------------------------------------------------

  /** A second BeginFrame before EndFrame is refused. */
  lemma BeginTwiceRefused(inProgress: bool, hasDevice: bool)
    ensures !Begin(Begin(inProgress, hasDevice).0, hasDevice).1
  {
  }

  /** BeginFrame then EndFrame leaves no frame in progress, and a frame can be begun again. */
  lemma BeginEndBegin(hasDevice: bool)
    ensures End(Begin(false, hasDevice).0) == false
    ensures Begin(End(Begin(false, hasDevice).0), hasDevice) == Begin(false, hasDevice)
  {
  }

  // ---------------------------------------------------------------------
  // State caches
  // ---------------------------------------------------------------------

  /** Asking again for the same descriptor returns the state created the first time and changes nothing. */
  lemma FetchAgainIsCached(cache: map<u64, Handle>, crc: u64, first: Handle, second: Handle)
    ensures var (c, s) := Fetch(cache, crc, first);
      Fetch(c, crc, second) == (c, s)
  {
  }

  /** A cache grows by at most the one checksum asked for, and keeps every other entry. */
  lemma FetchAddsAtMostOne(cache: map<u64, Handle>, crc: u64, created: Handle)
    ensures Fetch(cache, crc, created).0.Keys == cache.Keys + {crc}
    ensures |Fetch(cache, crc, created).0.Keys| <= |cache.Keys| + 1
    ensures forall k :: k in cache && k != crc ==> Fetch(cache, crc, created).0[k] == cache[k]
  {
    var after := Fetch(cache, crc, created).0;
    if crc in cache {
      assert after.Keys == cache.Keys;
    } else {
      assert after.Keys == cache.Keys + {crc};
      assert |cache.Keys + {crc}| == |cache.Keys| + 1;
    }
  }

  // ---------------------------------------------------------------------
  // Anti-aliasing modes
  // ---------------------------------------------------------------------

  /** Without a device, or at feature level 10.0, only the single-sample mode is listed. */
  lemma FallbackMode(created: bool, featLevel: int, qualityLevels: nat -> nat)
    requires !created || featLevel == Level10_0
    ensures AAModes(created, featLevel, qualityLevels) == [SampleDesc(1, 0)]
  {
  }

  /** A mode is listed exactly when its count is below n and its quality below what the device reports for that count. */
  lemma {:induction false} ModesBelowMembers(n: nat, qualityLevels: nat -> nat, m: SampleDesc)
    ensures m in ModesBelow(n, qualityLevels) <==> m.count < n && m.quality < qualityLevels(m.count)
  {
    if n > 0 {
      ModesBelowMembers(n - 1, qualityLevels, m);
      var last := Qualities(n - 1, qualityLevels(n - 1));
      assert m in last <==> m.count == n - 1 && m.quality < qualityLevels(n - 1) by {
        if m in last {
          var i :| 0 <= i < |last| && last[i] == m;
        }
        if m.count == n - 1 && m.quality < qualityLevels(n - 1) {
          assert last[m.quality] == m;
        }
      }
    }
  }

  /** Modes come by increasing sample count, then increasing quality. */
  predicate Before(a: SampleDesc, b: SampleDesc)
  {
    a.count < b.count || (a.count == b.count && a.quality < b.quality)
  }

  predicate Ascending(ms: seq<SampleDesc>)
  {
    forall i, j :: 0 <= i < j < |ms| ==> Before(ms[i], ms[j])
  }

  lemma AppendAscending(a: seq<SampleDesc>, b: seq<SampleDesc>)
    requires Ascending(a) && Ascending(b)
    requires forall i, j :: 0 <= i < |a| && 0 <= j < |b| ==> Before(a[i], b[j])
    ensures Ascending(a + b)
  {
    var ab := a + b;
    forall i, j | 0 <= i < j < |ab| ensures Before(ab[i], ab[j]) {
      if j < |a| {
        assert ab[i] == a[i] && ab[j] == a[j];
      } else if i >= |a| {
        assert ab[i] == b[i - |a|] && ab[j] == b[j - |a|];
      } else {
        assert ab[i] == a[i] && ab[j] == b[j - |a|];
      }
    }
  }

  lemma {:induction false} ModesBelowAscend(n: nat, qualityLevels: nat -> nat)
    ensures Ascending(ModesBelow(n, qualityLevels))
  {
    if n > 0 {
      var front, last := ModesBelow(n - 1, qualityLevels), Qualities(n - 1, qualityLevels(n - 1));
      ModesBelowAscend(n - 1, qualityLevels);
      forall i, j | 0 <= i < |front| && 0 <= j < |last| ensures Before(front[i], last[j]) {
        ModesBelowMembers(n - 1, qualityLevels, front[i]);
      }
      AppendAscending(front, last);
    }
  }

  /** With a device above feature level 10.0, exactly the reported (count, quality) pairs, counts below the maximum, in increasing order. */
  lemma ReportedModes(created: bool, featLevel: int, qualityLevels: nat -> nat)
    requires created && featLevel != Level10_0
    ensures forall m :: (m in AAModes(created, featLevel, qualityLevels)
      <==> m.count < MaxSampleCount && m.quality < qualityLevels(m.count))
    ensures Ascending(AAModes(created, featLevel, qualityLevels))
  {
    forall m ensures m in AAModes(created, featLevel, qualityLevels)
      <==> m.count < MaxSampleCount && m.quality < qualityLevels(m.count) {
      ModesBelowMembers(MaxSampleCount, qualityLevels, m);
    }
    ModesBelowAscend(MaxSampleCount, qualityLevels);
  }
}
