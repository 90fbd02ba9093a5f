/**
  What the video-backend registry guarantees: which backends a build offers,
  which one becomes the default, and how a backend is chosen by name.
 */
module VideoBackendBaseProperties {
  import opened Wrappers
  import opened VideoBackendBase

  /** DX9 comes with every Windows build, DX11 only from Windows Vista on, OpenGL where it is built, software never. */
  lemma PushedKinds(build: Build, isGteVista: bool)
    ensures DX9 in Pushed(build, isGteVista) <==> build.win32
    ensures DX11 in Pushed(build, isGteVista) <==> build.win32 && isGteVista
    ensures OGL in Pushed(build, isGteVista) <==> build.openGL
    ensures Software !in Pushed(build, isGteVista)
    ensures |Pushed(build, isGteVista)| <= 3
  {
  }

  /**
    The priority order DX9, OGL, DX11 differs from the order of the list,
    DX9, DX11, OGL; yet DX11 is only added after DX9, so the default is always
    the first backend added.
   */
  lemma {:induction false} DefaultIsFirstAdded(build: Build, isGteVista: bool)
    ensures FirstPresent(Priority, Pushed(build, isGteVista))
         == if Pushed(build, isGteVista) == [] then None else Some(Pushed(build, isGteVista)[0])
  {
    DefaultOfBuild(build, isGteVista);
  }

  /** A kind that comes first in priority order among those added is the default, whatever the list order. */
  lemma FirstPresentIsPriorityMinimum(present: seq<Kind>, i: nat)
    requires i < |Priority| && Priority[i] in present
    requires forall j :: 0 <= j < i ==> Priority[j] !in present
    ensures FirstPresent(Priority, present) == Some(Priority[i])
  {
    FirstPresentIs(Priority, present, i);
  }

  /** An empty name selects the default backend, unless some backend reports the empty name. */
  lemma EmptyNameSelectsDefault(bs: seq<VideoBackend>, current: VideoBackend?, default: VideoBackend?)
    requires forall i :: 0 <= i < |bs| ==> bs[i].name != []
    ensures Activated(bs, [], current, default) == default
  {
  }

  /** A name that no backend reports leaves the backend in use unchanged. */
  lemma UnknownNameKeepsCurrent(bs: seq<VideoBackend>, name: string, current: VideoBackend?, default: VideoBackend?)
    requires name != []
    requires forall i :: 0 <= i < |bs| ==> bs[i].name != name
    ensures Activated(bs, name, current, default) == current
  {
  }

  /** Of several backends reporting the name, the last one in the list is selected. */
  lemma LastMatchWins(bs: seq<VideoBackend>, name: string, i: nat, current: VideoBackend?, default: VideoBackend?)
    requires i < |bs| && bs[i].name == name
    requires forall j :: i < j < |bs| ==> bs[j].name != name
    ensures Activated(bs, name, current, default) == bs[i]
  {
    var r := LastNamed(bs, name);
    assert r.Some?;
    var k :| 0 <= k < |bs| && bs[k] == r.value && bs[k].name == name
             && forall j :: k < j < |bs| ==> bs[j].name != name;
    assert k == i;
  }

  /** The selected backend is one of the list, the default, or the one in use before. */
  lemma SelectsKnownBackend(bs: seq<VideoBackend>, name: string, current: VideoBackend?, default: VideoBackend?)
    ensures var r := Activated(bs, name, current, default);
      r in bs || r == default || r == current
    ensures var r := Activated(bs, name, current, default);
      r in bs ==> r.name == name || name == [] || r == current
  {
  }

  /** Selecting the same name twice is the same as selecting it once. */
  lemma ActivateTwice(bs: seq<VideoBackend>, name: string, current: VideoBackend?, default: VideoBackend?)
    ensures Activated(bs, name, Activated(bs, name, current, default), default)
         == Activated(bs, name, current, default)
  {
  }

  /**
    Clearing the list deletes every backend of the list, and only those: one
    deletion per entry, the last added first.
   */
  lemma ClearDeletesAll(bs: seq<VideoBackend>)
    ensures |Reversed(bs)| == |bs|
    ensures forall b :: b in bs <==> b in Reversed(bs)
    ensures forall i :: 0 <= i < |bs| ==> Reversed(bs)[i] == bs[|bs| - 1 - i]
  {
    forall b | b in bs ensures b in Reversed(bs) {
      var i :| 0 <= i < |bs| && bs[i] == b;
      assert Reversed(bs)[|bs| - 1 - i] == b;
    }
  }
}
