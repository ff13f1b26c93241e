/**
 * The parts of Blender's data the add-on reads and writes, as plain values.
 * A scene is a record; `bpy.data.scenes` is a sequence of them, looked up
 * by name (Blender keeps scene names unique, the lookups below take the
 * first match and do not depend on that).
 */
module Blender {
  import opened Wrappers

  datatype ViewLayer = ViewLayer(name: string, use: bool)

  /**
   * Eevee's sample count. Which attribute holds it depends on the Blender
   * version: `None` means the attribute does not exist in the running build,
   * so reading or writing it raises `AttributeError`.
   */
  datatype Eevee = Eevee(taaRenderSamples: Option<int>, samples: Option<int>)

  datatype Scene = Scene(
    name: string,
    camera: Option<string>,       // name of the scene camera object, if any
    objects: set<string>,         // names of the objects linked to the scene
    viewLayers: seq<ViewLayer>,
    frameStart: int,
    frameEnd: int,
    filepath: string,             // render.filepath
    engine: string,               // render.engine
    resolutionX: int,
    resolutionY: int,
    resolutionPercentage: int,
    fileFormat: string,           // render.image_settings.file_format
    cyclesSamples: int,           // cycles.samples
    eevee: Eevee
  )

  /** Position of the first scene called `name` (`name in bpy.data.scenes`). */
  function FindScene(scenes: seq<Scene>, name: string): (r: Option<nat>)
    ensures r.Some? ==> r.value < |scenes| && scenes[r.value].name == name
    ensures r.Some? ==> forall j :: 0 <= j < r.value ==> scenes[j].name != name
    ensures r.None? <==> forall j :: 0 <= j < |scenes| ==> scenes[j].name != name
    decreases |scenes|
  {
    if scenes == [] then None
    else if scenes[0].name == name then Some(0)
    else match FindScene(scenes[1..], name)
      case None => None
      case Some(k) => Some(k + 1)
  }

  /** A scene pointer property, held as the scene's name: the scene it points at, if any. */
  function PointedScene(ref: Option<string>, scenes: seq<Scene>): (r: Option<nat>)
    ensures r.Some? ==> ref.Some? && r.value < |scenes| && scenes[r.value].name == ref.value
    ensures r.None? <==> ref.None? || forall j :: 0 <= j < |scenes| ==> scenes[j].name != ref.value
  {
    if ref.Some? then FindScene(scenes, ref.value) else None
  }

  predicate HasScene(scenes: seq<Scene>, name: string) {
    FindScene(scenes, name).Some?
  }

  /** `[vl.name for vl in scene.view_layers]`. */
  function LayerNames(layers: seq<ViewLayer>): (names: seq<string>)
    ensures |names| == |layers|
    ensures forall i :: 0 <= i < |layers| ==> names[i] == layers[i].name
  {
    seq(|layers|, i requires 0 <= i < |layers| => layers[i].name)
  }

  /** Replaces scene `i` of the collection. */
  function SetScene(scenes: seq<Scene>, i: nat, s: Scene): (r: seq<Scene>)
    requires i < |scenes|
    ensures |r| == |scenes| && r[i] == s
    ensures forall j :: 0 <= j < |scenes| && j != i ==> r[j] == scenes[j]
  {
    scenes[i := s]
  }

  /**
   * Changing field values of a scene never changes its name, so lookups by
   * name give the same position before and after a `SetScene` that keeps it.
   */
  lemma {:induction false} FindSceneAfterSet(scenes: seq<Scene>, i: nat, s: Scene, name: string)
    requires i < |scenes| && s.name == scenes[i].name
    ensures FindScene(SetScene(scenes, i, s), name) == FindScene(scenes, name)
  {
    var t := SetScene(scenes, i, s);
    assert forall j :: 0 <= j < |t| ==> t[j].name == scenes[j].name;
    match FindScene(scenes, name)
    case None =>
    case Some(k) =>
      assert t[k].name == name;
      var r := FindScene(t, name).value;
      assert scenes[r].name == name;
      assert r == k;
  }
}
