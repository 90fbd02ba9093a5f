/**
  The registry of video backends: the list of available backends, the
  backend in use and the default one. Each backend is an object identified by
  its kind and the name it reports.
 */
module VideoBackendBase {
  import opened Wrappers

  datatype Kind = DX9 | DX11 | OGL | Software

  /** A video backend object; only its kind and the name it reports matter here. */
  class VideoBackend {
    const kind: Kind
    const name: string

    constructor (kind: Kind, name: string)
      ensures this.kind == kind && this.name == name
    {
      this.kind := kind;
      this.name := name;
    }
  }

  /** The compile-time switches: a Windows build, and a build with the OpenGL backend. */
  datatype Build = Build(win32: bool, openGL: bool)

  /** The names the backends report. */
  datatype Names = Names(dx9: string, dx11: string, ogl: string)

  /** The backend reports the name of its kind. */
  predicate Reports(b: VideoBackend, names: Names)
  {
    match b.kind
    case DX9 => b.name == names.dx9
    case DX11 => b.name == names.dx11
    case OGL => b.name == names.ogl
    case Software => false
  }

  /** The slots of the local array in PopulateList, in the order the default is chosen. */
  const Priority: seq<Kind> := [DX9, OGL, DX11, Software]

  /** The kinds PopulateList adds, in the order it adds them. */
  function Pushed(build: Build, isGteVista: bool): seq<Kind>
  {
    (if build.win32 then [DX9] + (if isGteVista then [DX11] else []) else [])
    + (if build.openGL then [OGL] else [])
  }

  /** The kinds of the backends, in list order. */
  function Kinds(bs: seq<VideoBackend>): (r: seq<Kind>)
    ensures |r| == |bs|
  {
    if bs == [] then [] else [bs[0].kind] + Kinds(bs[1..])
  }

  lemma {:induction false} KindsAt(bs: seq<VideoBackend>, i: nat)
    requires i < |bs|
    ensures Kinds(bs)[i] == bs[i].kind
  {
    if i > 0 {
      KindsAt(bs[1..], i - 1);
    }
  }

  lemma AppendOne<T>(a: seq<T>, b: seq<T>, x: T)
    ensures (a + b) + [x] == a + (b + [x])
  {
  }

  lemma KindsAppend(bs: seq<VideoBackend>, b: VideoBackend)
    ensures Kinds(bs + [b]) == Kinds(bs) + [b.kind]
  {
    if bs != [] {
      assert (bs + [b])[1..] == bs[1..] + [b];
      KindsAppend(bs[1..], b);
    }
  }

  /** The first kind of `order` that is present, if any. */
  function FirstPresent(order: seq<Kind>, present: seq<Kind>): (r: Option<Kind>)
    ensures r.Some? ==> exists i :: 0 <= i < |order| && order[i] == r.value && r.value in present
                                    && forall j :: 0 <= j < i ==> order[j] !in present
    ensures r.None? ==> forall i :: 0 <= i < |order| ==> order[i] !in present
  {
    if order == [] then None
    else if order[0] in present then Some(order[0])
    else
      var r := FirstPresent(order[1..], present);
      assert r.Some? ==> exists i :: 1 <= i < |order| && order[i] == r.value && r.value in present
                                     && forall j :: 0 <= j < i ==> order[j] !in present by {
        if r.Some? {
          var i :| 0 <= i < |order[1..]| && order[1..][i] == r.value && r.value in present
                   && forall j :: 0 <= j < i ==> order[1..][j] !in present;
          assert forall j :: 0 <= j < i + 1 ==> order[j] !in present by {
            forall j | 0 <= j < i + 1 ensures order[j] !in present {
              if j > 0 { assert order[j] == order[1..][j - 1]; }
            }
          }
        }
      }
      r
  }

  /** The last backend in list order whose name is `name`, if any. */
  function LastNamed(bs: seq<VideoBackend>, name: string): (r: Option<VideoBackend>)
    ensures r.Some? ==> exists i :: 0 <= i < |bs| && bs[i] == r.value && bs[i].name == name
                                    && forall j :: i < j < |bs| ==> bs[j].name != name
    ensures r.None? ==> forall i :: 0 <= i < |bs| ==> bs[i].name != name
  {
    if bs == [] then None
    else if bs[|bs| - 1].name == name then Some(bs[|bs| - 1])
    else
      var r := LastNamed(bs[..|bs| - 1], name);
      assert forall i :: 0 <= i < |bs| - 1 ==> bs[i] == bs[..|bs| - 1][i];
      r
  }

  /** The backend in use after scanning `bs` for `name`, starting from `start`. */
  function ActivatedFrom(bs: seq<VideoBackend>, name: string, start: VideoBackend?): VideoBackend?
  {
    match LastNamed(bs, name)
    case Some(b) => b
    case None => start
  }

  /** The backend in use after ActivateBackend(name). */
  function Activated(bs: seq<VideoBackend>, name: string, current: VideoBackend?, default: VideoBackend?): VideoBackend?
  {
    ActivatedFrom(bs, name, if name == [] then default else current)
  }

  function Reversed(bs: seq<VideoBackend>): (r: seq<VideoBackend>)
    ensures |r| == |bs| && forall i :: 0 <= i < |bs| ==> r[i] == bs[|bs| - 1 - i]
  {
    if bs == [] then [] else [bs[|bs| - 1]] + Reversed(bs[..|bs| - 1])
  }

  /** g_available_video_backends, g_video_backend and s_default_backend. */
  class Registry {
    var available: seq<VideoBackend>
    var current: VideoBackend?
    var defaultBackend: VideoBackend?

    constructor ()
      ensures available == [] && current == null && defaultBackend == null
    {
      available := [];
      current := null;
      defaultBackend := null;
    }

    /**
      VideoBackend::PopulateList: add DX9 and, from Windows Vista on, DX11 on
      Windows builds and OpenGL where it is built, then make the first created
      backend in the order DX9, OGL, DX11, software the default and the one
      in use.
     */
    method PopulateList(build: Build, isGteVista: bool, names: Names) returns (ghost added: seq<VideoBackend>)
      modifies this
      ensures available == old(available) + added
      ensures Kinds(added) == Pushed(build, isGteVista)
      ensures forall j :: 0 <= j < |added| ==> fresh(added[j]) && Reports(added[j], names)
      ensures match FirstPresent(Priority, Pushed(build, isGteVista))
        case Some(k) => current == defaultBackend && current != null && current.kind == k && current in added
        case None => current == old(current) && defaultBackend == old(defaultBackend)
    {
      var backends: seq<VideoBackend?> := [null, null, null, null];
      added := [];
      if build.win32 {
        var dx9 := Add(DX9, names.dx9);
        backends, added := backends[0 := dx9], added + [dx9];
        if isGteVista {
          var dx11 := Add(DX11, names.dx11);
          AppendOne(old(available), [dx9], dx11);
          KindsAppend([dx9], dx11);
          backends, added := backends[2 := dx11], added + [dx11];
        }
      }
      if build.openGL {
        var ogl := Add(OGL, names.ogl);
        AppendOne(old(available), added, ogl);
        KindsAppend(added, ogl);
        backends, added := backends[1 := ogl], added + [ogl];
      }
      assert build.win32 ==> backends[0] != null && backends[0].kind == DX9 && backends[0] in added;
      assert !build.win32 ==> backends[0] == null && backends[2] == null;
      assert build.openGL ==> backends[1] != null && backends[1].kind == OGL && backends[1] in added;
      assert !build.openGL ==> backends[1] == null;
      var i := PickDefault(backends);
      SlotsGiveDefault(build, isGteVista, backends, added, i);
    }

    /** Create a backend and add it to the end of the list. */
    method Add(kind: Kind, name: string) returns (b: VideoBackend)
      modifies this
      ensures fresh(b) && b.kind == kind && b.name == name
      ensures available == old(available) + [b]
      ensures current == old(current) && defaultBackend == old(defaultBackend)
    {
      b := new VideoBackend(kind, name);
      available := available + [b];
    }

    /** The loop over the slots in PopulateList: the first created backend becomes the default and the one in use. */
    method PickDefault(backends: seq<VideoBackend?>) returns (i: nat)
      requires |backends| == 4
      modifies this
      ensures i <= 4 && forall j :: 0 <= j < i ==> backends[j] == null
      ensures i < 4 ==> backends[i] != null && current == backends[i] && defaultBackend == backends[i]
      ensures i == 4 ==> current == old(current) && defaultBackend == old(defaultBackend)
      ensures available == old(available)
    {
      i := 0;
      while i < 4 && backends[i] == null
        invariant 0 <= i <= 4
        invariant forall j :: 0 <= j < i ==> backends[j] == null
      {
        i := i + 1;
      }
      if i < 4 {
        defaultBackend := backends[i];
        current := backends[i];
      }
    }

    /** VideoBackend::ClearList: delete the backends from the back until the list is empty. */
    method ClearList() returns (deleted: seq<VideoBackend>)
      modifies this
      ensures available == []
      ensures deleted == Reversed(old(available))
      ensures current == old(current) && defaultBackend == old(defaultBackend)
    {
      deleted := [];
      while available != []
        invariant |available| <= |old(available)| && available == old(available)[..|available|]
        invariant deleted == Reversed(old(available)[|available|..])
        invariant current == old(current) && defaultBackend == old(defaultBackend)
        decreases |available|
      {
        var n := |available|;
        deleted := deleted + [available[n - 1]];
        available := available[..n - 1];
        ReversedStep(old(available), n);
      }
    }

    /**
      VideoBackend::ActivateBackend: an empty name selects the default
      backend; then every backend whose name matches, in list order, becomes
      the one in use, so the last match wins.
     */
    method ActivateBackend(name: string)
      modifies this
      ensures current == Activated(available, name, old(current), defaultBackend)
      ensures available == old(available) && defaultBackend == old(defaultBackend)
    {
      if |name| == 0 {
        current := defaultBackend;
      }
      ghost var start := current;
      var i := 0;
      while i < |available|
        invariant 0 <= i <= |available|
        invariant current == ActivatedFrom(available[..i], name, start)
        invariant available == old(available) && defaultBackend == old(defaultBackend)
      {
        assert available[..i + 1][..i] == available[..i];
        if name == available[i].name {
          current := available[i];
        }
        i := i + 1;
      }
      assert available[..i] == available;
    }
  }

  /** The default backend: DX9 on Windows builds, otherwise OpenGL where it is built, otherwise none. */
  lemma DefaultOfBuild(build: Build, isGteVista: bool)
    ensures FirstPresent(Priority, Pushed(build, isGteVista))
         == if build.win32 then Some(DX9) else if build.openGL then Some(OGL) else None
  {
    var present := Pushed(build, isGteVista);
    if !build.win32 {
      assert DX9 !in present && DX11 !in present && Software !in present;
      assert FirstPresent(Priority, present) == FirstPresent(Priority[1..], present);
      if !build.openGL {
        assert present == [];
      }
    }
  }

  /** The slot PopulateList picks holds the backend of the first present kind in priority order. */
  lemma SlotsGiveDefault(build: Build, isGteVista: bool, backends: seq<VideoBackend?>, added: seq<VideoBackend>, i: nat)
    requires |backends| == 4 && backends[3] == null
    requires build.win32 ==> backends[0] != null && backends[0].kind == DX9 && backends[0] in added
    requires !build.win32 ==> backends[0] == null && backends[2] == null
    requires build.openGL ==> backends[1] != null && backends[1].kind == OGL && backends[1] in added
    requires !build.openGL ==> backends[1] == null
    requires i <= 4 && forall j :: 0 <= j < i ==> backends[j] == null
    requires i < 4 ==> backends[i] != null
    ensures match FirstPresent(Priority, Pushed(build, isGteVista))
      case Some(k) => i < 4 && backends[i].kind == k && backends[i] in added
      case None => i == 4
  {
    DefaultOfBuild(build, isGteVista);
    if build.win32 {
      assert i == 0;
    } else if build.openGL {
      assert i == 1;
    } else {
      assert i == 4;
    }
  }

  /** The first slot found non-null is the first present kind in priority order. */
  lemma FirstPresentIs(order: seq<Kind>, present: seq<Kind>, i: nat)
    requires i <= |order|
    requires forall j :: 0 <= j < i ==> order[j] !in present
    requires i < |order| ==> order[i] in present
    ensures FirstPresent(order, present) == if i < |order| then Some(order[i]) else None
  {
    var r := FirstPresent(order, present);
    if r.Some? {
      var k :| 0 <= k < |order| && order[k] == r.value && r.value in present
               && forall j :: 0 <= j < k ==> order[j] !in present;
      assert k == i;
    }
  }

  lemma ReversedStep(bs: seq<VideoBackend>, n: nat)
    requires 0 < n <= |bs|
    ensures Reversed(bs[n..]) + [bs[n - 1]] == Reversed(bs[n - 1..])
  {
    var a, b := Reversed(bs[n..]) + [bs[n - 1]], Reversed(bs[n - 1..]);
    assert |a| == |b|;
    forall i | 0 <= i < |a| ensures a[i] == b[i] {
    }
  }
}
