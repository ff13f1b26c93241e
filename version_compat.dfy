/**
 * The Blender-version shims of the packaged add-on
 * (`rendercue/version_compat.py`): version comparison, Eevee detection,
 * engine display names, the engine list, Eevee's sample attribute, icon
 * renames and setting an image format with fallbacks.
 *
 * The running Blender is described by parameters: its version, whether the
 * `EEVEE_NEXT_RenderEngine` class exists, which Eevee attributes exist
 * (`Blender.Eevee`), and which file formats an assignment accepts.
 */
module VersionCompat {
  import opened Wrappers
  import opened Strings
  import opened Blender

  // --------------------------------------------------------- versions

  datatype Version = Version(major: int, minor: int, patch: int)

  /** Python's tuple order on `(major, minor, patch)`: strictly before. */
  predicate Before(a: Version, b: Version) {
    a.major < b.major
    || (a.major == b.major && (a.minor < b.minor || (a.minor == b.minor && a.patch < b.patch)))
  }

  /** `is_version_at_least`: `bpy.app.version >= (major, minor, patch)`. */
  predicate IsVersionAtLeast(running: Version, major: int, minor: int, patch: int) {
    !Before(running, Version(major, minor, patch))
  }

  /** The comparison is a total order: reflexive, transitive, and any two versions compare. */
  lemma AtLeastIsTotalOrder(a: Version, b: Version, c: Version)
    ensures IsVersionAtLeast(a, a.major, a.minor, a.patch)
    ensures IsVersionAtLeast(a, b.major, b.minor, b.patch) && IsVersionAtLeast(b, c.major, c.minor, c.patch)
        ==> IsVersionAtLeast(a, c.major, c.minor, c.patch)
    ensures IsVersionAtLeast(a, b.major, b.minor, b.patch) || IsVersionAtLeast(b, a.major, a.minor, a.patch)
    ensures IsVersionAtLeast(a, b.major, b.minor, b.patch) && IsVersionAtLeast(b, a.major, a.minor, a.patch) ==> a == b
  {
  }

  /** A higher major version is later whatever the minor and patch numbers. */
  lemma MajorDecides(running: Version, major: int, minor: int, patch: int)
    requires running.major != major
    ensures IsVersionAtLeast(running, major, minor, patch) <==> running.major > major
  {
  }

  // ---------------------------------------------------------- engines

  const EEVEE: string := "BLENDER_EEVEE"
  const EEVEE_NEXT: string := "BLENDER_EEVEE_NEXT"
  const CYCLES: string := "CYCLES"
  const WORKBENCH: string := "BLENDER_WORKBENCH"

  predicate IsEeveeEngine(id: string) {
    id == EEVEE || id == EEVEE_NEXT
  }

  /** `get_engine_display_name`: fixed names for the four known engines, else a title-cased id. */
  function EngineDisplayName(id: string): (r: string)
    ensures id !in {EEVEE, EEVEE_NEXT, CYCLES, WORKBENCH} ==> |r| == |id| && '_' !in r
  {
    if id == EEVEE then "Eevee"
    else if id == EEVEE_NEXT then "Eevee Next"
    else if id == CYCLES then "Cycles"
    else if id == WORKBENCH then "Workbench"
    else
      var spaced := ReplaceChar(id, '_', ' ');
      var r := TitleCase(spaced);
      forall i | 0 <= i < |r|
        ensures r[i] != '_'
      {
        assert spaced[i] != '_';
        assert r[i] == TitleChar(spaced[i], i > 0 && IsLetter(spaced[i - 1]));
      }
      r
  }

  /** Every Eevee variant is shown with a name that starts with "Eevee". */
  lemma EeveeNamesStartWithEevee(id: string)
    requires IsEeveeEngine(id)
    ensures StartsWith(EngineDisplayName(id), "Eevee")
  {
  }

  /** For any other id, each `_` becomes a space and each word is capitalised. */
  lemma DisplayNameOfUnknownId(id: string, i: nat)
    requires id !in {EEVEE, EEVEE_NEXT, CYCLES, WORKBENCH} && i < |id|
    ensures id[i] == '_' ==> EngineDisplayName(id)[i] == ' '
    ensures IsLower(id[i]) && (i == 0 || !IsLetter(id[i - 1])) ==> IsUpper(EngineDisplayName(id)[i])
  {
    var spaced := ReplaceChar(id, '_', ' ');
    var r := EngineDisplayName(id);
    assert r == TitleCase(spaced);
    assert spaced[i] == if id[i] == '_' then ' ' else id[i];
    if i > 0 {
      assert spaced[i - 1] == if id[i - 1] == '_' then ' ' else id[i - 1];
      assert IsLetter(spaced[i - 1]) == IsLetter(id[i - 1]);
    }
    assert r[i] == TitleChar(spaced[i], i > 0 && IsLetter(spaced[i - 1]));
  }

  datatype EngineItem = EngineItem(id: string, name: string, description: string)

  const STANDARD_ENGINES: seq<EngineItem> := [
    EngineItem(CYCLES, "Cycles", "Path tracing renderer"),
    EngineItem(EEVEE, "Eevee", "Real-time renderer"),
    EngineItem(WORKBENCH, "Workbench", "Viewport renderer")
  ]

  const EEVEE_NEXT_ITEM: EngineItem := EngineItem(EEVEE_NEXT, "Eevee Next", "Experimental real-time renderer")

  /** The engines checked: the standard three, and Eevee Next before 4.2. */
  function EnginesToCheck(running: Version): seq<EngineItem> {
    if !IsVersionAtLeast(running, 4, 2, 0) then STANDARD_ENGINES + [EEVEE_NEXT_ITEM] else STANDARD_ENGINES
  }

  /** The checked engines that are kept: all but Eevee Next, which needs its class. */
  function KeptEngines(items: seq<EngineItem>, hasEeveeNextClass: bool): seq<EngineItem>
    decreases |items|
  {
    if items == [] then []
    else
      var rest := KeptEngines(items[..|items| - 1], hasEeveeNextClass);
      var it := items[|items| - 1];
      if it.id != EEVEE_NEXT || hasEeveeNextClass then rest + [it] else rest
  }

  /** `get_available_engines`: the checking loop. */
  method AvailableEngines(running: Version, hasEeveeNextClass: bool) returns (items: seq<EngineItem>)
    ensures items == KeptEngines(EnginesToCheck(running), hasEeveeNextClass)
  {
    var toCheck := STANDARD_ENGINES;
    if !IsVersionAtLeast(running, 4, 2, 0) {
      toCheck := toCheck + [EEVEE_NEXT_ITEM];
    }
    items := [];
    for i := 0 to |toCheck|
      invariant items == KeptEngines(toCheck[..i], hasEeveeNextClass)
    {
      assert toCheck[..i + 1][..i] == toCheck[..i];
      if toCheck[i].id == EEVEE_NEXT {
        if hasEeveeNextClass {
          items := items + [toCheck[i]];
        }
      } else {
        items := items + [toCheck[i]];
      }
    }
    assert toCheck[..|toCheck|] == toCheck;
  }

  /**
   * The list always starts with Cycles, Eevee and Workbench; Eevee Next
   * follows exactly when Blender is older than 4.2 and has its class.
   */
  lemma AvailableEnginesShape(running: Version, hasEeveeNextClass: bool)
    ensures var items := KeptEngines(EnginesToCheck(running), hasEeveeNextClass);
      && |items| >= 3 && items[..3] == STANDARD_ENGINES
      && (|items| == 4 <==> !IsVersionAtLeast(running, 4, 2, 0) && hasEeveeNextClass)
      && |items| <= 4
      && (|items| == 4 ==> items[3] == EEVEE_NEXT_ITEM)
  {
    var s := STANDARD_ENGINES;
    StandardEnginesKept(hasEeveeNextClass);
    if !IsVersionAtLeast(running, 4, 2, 0) {
      var t := s + [EEVEE_NEXT_ITEM];
      assert t[..|t| - 1] == s;
      assert KeptEngines(t, hasEeveeNextClass) == if hasEeveeNextClass then t else s;
      assert t[..3] == s;
    }
  }

  /** None of the standard engines needs a class: all three are kept. */
  lemma StandardEnginesKept(hasEeveeNextClass: bool)
    ensures KeptEngines(STANDARD_ENGINES, hasEeveeNextClass) == STANDARD_ENGINES
  {
    var s := STANDARD_ENGINES;
    assert s[..2][..1] == s[..1] && s[..3][..2] == s[..2] && s[..3] == s;
    assert KeptEngines(s[..1], hasEeveeNextClass) == s[..1];
    assert KeptEngines(s[..2], hasEeveeNextClass) == s[..2];
  }

  // ---------------------------------------------------- eevee samples

  /** `get_eevee_samples`: `taa_render_samples`, else `samples`, else 64. */
  function EeveeSamples(e: Eevee): int {
    if e.taaRenderSamples.Some? then e.taaRenderSamples.value
    else if e.samples.Some? then e.samples.value
    else 64
  }

  /** `set_eevee_samples`: writes the first attribute that exists; reports whether one did. */
  function SetEeveeSamples(e: Eevee, value: int): (r: (Eevee, bool))
    ensures r.1 <==> e.taaRenderSamples.Some? || e.samples.Some?
    ensures !r.1 ==> r.0 == e
  {
    if e.taaRenderSamples.Some? then (e.(taaRenderSamples := Some(value)), true)
    else if e.samples.Some? then (e.(samples := Some(value)), true)
    else (e, false)
  }

  /** A successful write is read back; no attribute appears or disappears, and only one changes. */
  lemma SetThenGet(e: Eevee, value: int)
    ensures var (e', ok) := SetEeveeSamples(e, value);
      && (ok ==> EeveeSamples(e') == value)
      && (!ok ==> EeveeSamples(e') == 64)
      && e'.taaRenderSamples.Some? == e.taaRenderSamples.Some?
      && e'.samples.Some? == e.samples.Some?
      && (e'.taaRenderSamples == e.taaRenderSamples || e'.samples == e.samples)
  {
  }

  // ------------------------------------------------------------ icons

  const ICON_REPLACEMENTS: map<string, string> := map["PMARKER_ACT" := "MARKER", "SORTTIME" := "TIME"]

  /** `get_icon`: the replacement of a renamed icon, else the name itself (the fallback is unused). */
  function GetIcon(name: string, fallback: string): (r: string)
    ensures name in ICON_REPLACEMENTS ==> r == ICON_REPLACEMENTS[name]
    ensures name !in ICON_REPLACEMENTS ==> r == name
  {
    if name in ICON_REPLACEMENTS then ICON_REPLACEMENTS[name] else name
  }

  /** A replaced name is not replaced again. */
  lemma GetIconIdempotent(name: string, fallback: string)
    ensures GetIcon(GetIcon(name, fallback), fallback) == GetIcon(name, fallback)
  {
    assert "MARKER" !in ICON_REPLACEMENTS && "TIME" !in ICON_REPLACEMENTS;
  }

  // ----------------------------------------------------- image format

  const FORMAT_FALLBACKS: seq<string> := ["PNG", "JPEG", "OPEN_EXR"]

  /** `(success, actual_format, error_msg)`. */
  datatype FormatResult = FormatResult(success: bool, actual: string, error: Option<string>)

  /**
   * The first fallback, in list order and other than the requested id,
   * that an assignment accepts: every fallback before it is the requested
   * id or refused.
   */
  function FirstFallback(fallbacks: seq<string>, requested: string, accepts: string -> bool): (r: Option<string>)
    ensures r.Some? ==> r.value in fallbacks && r.value != requested && accepts(r.value)
    ensures r.Some? ==>
      exists k :: (0 <= k < |fallbacks| && fallbacks[k] == r.value
                   && forall m :: 0 <= m < k && fallbacks[m] != requested ==> !accepts(fallbacks[m]))
    ensures r.None? ==> forall k :: 0 <= k < |fallbacks| && fallbacks[k] != requested ==> !accepts(fallbacks[k])
    decreases |fallbacks|
  {
    if fallbacks == [] then None
    else if fallbacks[0] != requested && accepts(fallbacks[0]) then Some(fallbacks[0])
    else
      var r := FirstFallback(fallbacks[1..], requested, accepts);
      assert forall k :: 1 <= k < |fallbacks| ==> fallbacks[k] == fallbacks[1..][k - 1];
      if r.Some? then
        var k :| 0 <= k < |fallbacks[1..]| && fallbacks[1..][k] == r.value
          && forall m :: 0 <= m < k && fallbacks[1..][m] != requested ==> !accepts(fallbacks[1..][m]);
        assert fallbacks[k + 1] == r.value;
        assert forall m :: 0 <= m < k + 1 && fallbacks[m] != requested ==> !accepts(fallbacks[m]);
        r
      else r
  }

  /**
   * `set_image_format`: the requested id when the assignment accepts it;
   * otherwise the first accepted fallback, or the current format if none
   * is. Without image settings nothing changes and "PNG" is reported.
   * Returns the result and the scene's new file format.
   */
  function SetImageFormatOf(hasSettings: bool, current: string, requested: string, accepts: string -> bool,
                            errorText: string): (r: (FormatResult, string))
    ensures r.0.success <==> hasSettings && accepts(requested)
    ensures r.0.success ==> r.0 == FormatResult(true, requested, None) && r.1 == requested
    ensures !r.0.success ==> r.0.error.Some?
    ensures hasSettings ==> r.1 == r.0.actual
    ensures r.1 == current || accepts(r.1)
    ensures !hasSettings ==> r.0.actual == "PNG" && r.1 == current
    ensures hasSettings && !accepts(requested) ==> r.1 == FirstFallback(FORMAT_FALLBACKS, requested, accepts).GetOr(current)
  {
    if !hasSettings then (FormatResult(false, "PNG", Some("Image settings not available: " + errorText)), current)
    else if accepts(requested) then (FormatResult(true, requested, None), requested)
    else match FirstFallback(FORMAT_FALLBACKS, requested, accepts)
      case Some(f) =>
        (FormatResult(false, f, Some("Format '" + requested + "' incompatible, using '" + f + "'")), f)
      case None =>
        (FormatResult(false, current, Some("Could not set format '" + requested + "': " + errorText)), current)
  }

  /** A fallback is used exactly when the requested id is refused and some other fallback is accepted, and it is never the requested id. */
  lemma FallbackUsed(current: string, requested: string, accepts: string -> bool, errorText: string)
    ensures var (r, format) := SetImageFormatOf(true, current, requested, accepts, errorText);
      (!r.success && format != current ==> format in FORMAT_FALLBACKS && format != requested)
      && (!accepts(requested) && (exists k :: 0 <= k < 3 && FORMAT_FALLBACKS[k] != requested && accepts(FORMAT_FALLBACKS[k]))
          ==> r.actual in FORMAT_FALLBACKS && accepts(r.actual) && r.actual != requested)
  {
  }

  /** The fallback is passed over: it is the requested id, or the assignment refuses it. */
  predicate PassedOver(f: string, requested: string, accepts: string -> bool) {
    f == requested || !accepts(f)
  }

  /** The fallbacks are tried in order of preference: PNG, then JPEG, then OPEN_EXR. */
  lemma FallbackPreference(current: string, requested: string, accepts: string -> bool, errorText: string)
    requires !accepts(requested)
    ensures var format := SetImageFormatOf(true, current, requested, accepts, errorText).1;
      && (!PassedOver("PNG", requested, accepts) ==> format == "PNG")
      && (PassedOver("PNG", requested, accepts) && !PassedOver("JPEG", requested, accepts) ==> format == "JPEG")
      && (PassedOver("PNG", requested, accepts) && PassedOver("JPEG", requested, accepts) ==>
            format == (if PassedOver("OPEN_EXR", requested, accepts) then current else "OPEN_EXR"))
  {
  }

  /** The assignment and the fallback loop. */
  method SetImageFormat(hasSettings: bool, current: string, requested: string, accepts: string -> bool,
                        errorText: string) returns (r: FormatResult, format: string)
    ensures (r, format) == SetImageFormatOf(hasSettings, current, requested, accepts, errorText)
  {
    if !hasSettings {
      return FormatResult(false, "PNG", Some("Image settings not available: " + errorText)), current;
    }
    if accepts(requested) {
      return FormatResult(true, requested, None), requested;
    }
    var i := 0;
    while i < |FORMAT_FALLBACKS|
      invariant 0 <= i <= |FORMAT_FALLBACKS|
      invariant FirstFallback(FORMAT_FALLBACKS, requested, accepts) == FirstFallback(FORMAT_FALLBACKS[i..], requested, accepts)
    {
      var fallback := FORMAT_FALLBACKS[i];
      assert FORMAT_FALLBACKS[i..][1..] == FORMAT_FALLBACKS[i + 1..];
      if fallback != requested && accepts(fallback) {
        return FormatResult(false, fallback, Some("Format '" + requested + "' incompatible, using '" + fallback + "'")),
               fallback;
      }
      i := i + 1;
    }
    return FormatResult(false, current, Some("Could not set format '" + requested + "': " + errorText)), current;
  }
}
