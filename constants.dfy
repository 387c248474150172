/**
 * The fixed configuration of the dual-FLIR tools: camera aliases and their IPs,
 * the default camera, the cache-defeating override pair appended to requests,
 * and the command registry mapping each command name to its CGI action, its
 * static query parameters and its ordered, typed dynamic parameters.
 */
module Constants {
  import opened Wrappers
  import opened Text

  const FLIR1_IP := "169.254.80.109"
  const FLIR2_IP := "169.254.50.183"

  const DEFAULT_CAMERA := "FLIR2"
  const CAMERA_HOSTS: map<string, string> := map["FLIR1" := FLIR1_IP, "FLIR2" := FLIR2_IP]

  /** `sorted(CAMERA_HOSTS)`, the alias list quoted by unknown-alias errors. */
  const SORTED_ALIASES: seq<string> := ["FLIR1", "FLIR2"]

  const NEXUS_DEFAULT_PORT := 80
  const NEXUS_CGI_PATH := "/Nexus.cgi"

  const TOKEN_OVERRIDE_PARAMS: map<string, string> := map["tokenoverride" := "1", "_" := "0"]

  /** The converters a parameter may declare; they replace the Python type objects. */
  datatype ParamType = Float | Int | Str | Bool

  /**
   * One dynamic parameter of a command. Each optional field is None when the
   * table entry leaves the key out: `ptype` ("type"), `required` ("required",
   * read as true when absent) and `default` (the default already rendered by
   * `str()`).
   */
  datatype ParamSpec = ParamSpec(
    name: string,
    ptype: Option<ParamType>,
    required: Option<bool>,
    default: Option<string>)

  /** One registry entry; None marks a key the entry leaves out. */
  datatype CommandSpec = CommandSpec(
    action: string,
    description: Option<string>,
    staticParams: Option<map<string, string>>,
    params: Option<seq<ParamSpec>>)

  /** A parameter declared, as every registry parameter is, by name and type alone. */
  function Typed(name: string, t: ParamType): ParamSpec {
    ParamSpec(name, Some(t), None, None)
  }

  const CAMERA_COMMANDS: map<string, CommandSpec> := map[
    "get_zoom" := CommandSpec(
      "DLTVFOVMagnificationGet", Some("Return the current zoom magnification."), None, Some([])),
    "get_zoom_fov" := CommandSpec(
      "DLTVZoomDegreesGet", Some("Return the current zoom field-of-view in degrees."), None, Some([])),
    "set_zoom" := CommandSpec(
      "DLTVFOVMagnificationSet", Some("Set zoom magnification to a specific value."), None,
      Some([Typed("Magnification", Float)])),
    "auto_focus" := CommandSpec(
      "DLTVAutoFocusPush", Some("Trigger an autofocus operation."), None, Some([])),
    "get_speed" := CommandSpec(
      "PTSpeedGet", Some("Fetch the current azimuth/elevation speed configuration."), None, Some([])),
    "set_speed" := CommandSpec(
      "PTSpeedModeSet", Some("Update azimuth and elevation speed settings."), None,
      Some([Typed("Azimuth_Speed", Int), Typed("Elevation_Speed", Int)])),
    "get_position" := CommandSpec(
      "PTAzimuthElevationGet", Some("Retrieve the current azimuth/elevation angles."), None, Some([])),
    "center" := CommandSpec(
      "PTAzimuthElevationOnScreenSet", Some("Center the camera on a screen coordinate (X/Y)."),
      Some(map["Active_cam" := "0", "Cam_type" := "4", "Cam_id" := "0"]),
      Some([Typed("ScreenX", Float), Typed("ScreenY", Float)]))
  ]

  /** `sorted(CAMERA_COMMANDS)`, the command list quoted by unknown-command errors. */
  const SORTED_COMMAND_NAMES: seq<string> := [
    "auto_focus", "center", "get_position", "get_speed",
    "get_zoom", "get_zoom_fov", "set_speed", "set_zoom"
  ]

  predicate DistinctNames(specs: seq<ParamSpec>) {
    forall i, j :: 0 <= i < j < |specs| ==> specs[i].name != specs[j].name
  }

  function NameSet(specs: seq<ParamSpec>): set<string> {
    set i | 0 <= i < |specs| :: specs[i].name
  }

  /** A declared parameter must be supplied: `spec.get("required", True)` and no default. */
  predicate MustBeSupplied(s: ParamSpec) {
    s.required != Some(false) && s.default.None?
  }

  lemma DefaultCameraIsKnown()
    ensures DEFAULT_CAMERA in CAMERA_HOSTS && CAMERA_HOSTS[DEFAULT_CAMERA] == FLIR2_IP
  {
  }

  lemma CameraHostsAreExactlyTheTwoCameras()
    ensures CAMERA_HOSTS.Keys == {"FLIR1", "FLIR2"}
    ensures CAMERA_HOSTS["FLIR1"] == "169.254.80.109" && CAMERA_HOSTS["FLIR2"] == "169.254.50.183"
  {
  }

  lemma TokenOverrideIsExactlyThePair()
    ensures TOKEN_OVERRIDE_PARAMS.Keys == {"tokenoverride", "_"}
    ensures TOKEN_OVERRIDE_PARAMS["tokenoverride"] == "1" && TOKEN_OVERRIDE_PARAMS["_"] == "0"
  {
  }

  /** A list whose neighbours are in order is strictly sorted. */
  lemma {:induction false} SortedFromNeighbours(n: seq<string>)
    requires forall i :: 0 <= i < |n| - 1 ==> Before(n[i], n[i + 1])
    ensures StrictlySorted(n)
  {
    if |n| > 1 {
      SortedFromNeighbours(n[1..]);
      forall j | 1 < j < |n| ensures Before(n[0], n[j]) {
        BeforeTransitive(n[0], n[1], n[j]);
      }
    }
  }

  /** The registry's command names. */
  lemma RegistryNames()
    ensures CAMERA_COMMANDS.Keys ==
      {"get_zoom", "get_zoom_fov", "set_zoom", "auto_focus", "get_speed", "set_speed", "get_position", "center"}
  {
  }

  /** The alias list quoted in unknown-alias errors is the sorted key set of the host table. */
  lemma SortedAliasesMatchHosts()
    ensures StrictlySorted(SORTED_ALIASES)
    ensures forall a :: a in SORTED_ALIASES <==> a in CAMERA_HOSTS
  {
    BeforeFromFirstDifference("FLIR1", "FLIR2", 4);
    SortedFromNeighbours(SORTED_ALIASES);
  }

  /*
   * The neighbours of the sorted command list are in order. Each comparison is
   * a lemma of its own, decided at the first character where the names differ.
   */
  lemma AutoFocusBeforeCenter() ensures Before("auto_focus", "center") {
    BeforeFromFirstDifference("auto_focus", "center", 0);
  }

  lemma CenterBeforeGetPosition() ensures Before("center", "get_position") {
    BeforeFromFirstDifference("center", "get_position", 0);
  }

  lemma GetPositionBeforeGetSpeed() ensures Before("get_position", "get_speed") {
    BeforeFromFirstDifference("get_position", "get_speed", 4);
  }

  lemma GetSpeedBeforeGetZoom() ensures Before("get_speed", "get_zoom") {
    BeforeFromFirstDifference("get_speed", "get_zoom", 4);
  }

  lemma GetZoomBeforeGetZoomFov() ensures Before("get_zoom", "get_zoom_fov") {
    BeforeFromFirstDifference("get_zoom", "get_zoom_fov", 8);
  }

  lemma GetZoomFovBeforeSetSpeed() ensures Before("get_zoom_fov", "set_speed") {
    BeforeFromFirstDifference("get_zoom_fov", "set_speed", 0);
  }

  lemma SetSpeedBeforeSetZoom() ensures Before("set_speed", "set_zoom") {
    BeforeFromFirstDifference("set_speed", "set_zoom", 4);
  }

  /** Eight names whose neighbours are in order form a strictly sorted list. */
  lemma EightInOrder(a: string, b: string, c: string, d: string, e: string, f: string, g: string, h: string)
    requires Before(a, b) && Before(b, c) && Before(c, d) && Before(d, e)
    requires Before(e, f) && Before(f, g) && Before(g, h)
    ensures StrictlySorted([a, b, c, d, e, f, g, h])
  {
    SortedFromNeighbours([a, b, c, d, e, f, g, h]);
  }

  /** The command list quoted in unknown-command errors is in ascending order... */
  lemma SortedCommandNamesAreSorted()
    ensures StrictlySorted(SORTED_COMMAND_NAMES)
  {
    AutoFocusBeforeCenter();
    CenterBeforeGetPosition();
    GetPositionBeforeGetSpeed();
    GetSpeedBeforeGetZoom();
    GetZoomBeforeGetZoomFov();
    GetZoomFovBeforeSetSpeed();
    SetSpeedBeforeSetZoom();
    EightInOrder("auto_focus", "center", "get_position", "get_speed",
                 "get_zoom", "get_zoom_fov", "set_speed", "set_zoom");
  }

  /** ...and holds exactly the registry's command names. */
  lemma SortedCommandNamesMatchRegistry()
    ensures forall c :: c in SORTED_COMMAND_NAMES <==> c in CAMERA_COMMANDS
  {
    RegistryNames();
  }

  /**
   * Every registry entry names a non-empty action and lists its parameters;
   * parameter names are unique within a command, every parameter has a type,
   * and none declares a default or `required`, so every one of them must be
   * supplied.
   */
  lemma RegistryIsWellFormed(c: string)
    requires c in CAMERA_COMMANDS
    ensures CAMERA_COMMANDS[c].action != ""
    ensures CAMERA_COMMANDS[c].description.Some? && CAMERA_COMMANDS[c].params.Some?
    ensures DistinctNames(CAMERA_COMMANDS[c].params.value)
    ensures forall p :: p in CAMERA_COMMANDS[c].params.value ==>
      p.ptype.Some? && p.required.None? && p.default.None? && MustBeSupplied(p)
  {
    RegistryNames();
  }

  /** No two commands share a wire action. */
  lemma ActionsAreDistinct()
    ensures forall c, d :: c in CAMERA_COMMANDS && d in CAMERA_COMMANDS && c != d ==>
      CAMERA_COMMANDS[c].action != CAMERA_COMMANDS[d].action
  {
  }

  /**
   * Only `center` carries static parameters, and neither they nor any declared
   * parameter name of any command is one of the override keys.
   */
  lemma StaticParamsOnlyOnCenter(c: string)
    requires c in CAMERA_COMMANDS
    ensures CAMERA_COMMANDS[c].staticParams.Some? <==> c == "center"
    ensures c == "center" ==>
      CAMERA_COMMANDS[c].staticParams.value == map["Active_cam" := "0", "Cam_type" := "4", "Cam_id" := "0"]
    ensures CAMERA_COMMANDS[c].staticParams.GetOr(map[]).Keys !! TOKEN_OVERRIDE_PARAMS.Keys
    ensures NameSet(CAMERA_COMMANDS[c].params.GetOr([])) !! TOKEN_OVERRIDE_PARAMS.Keys
  {
    RegistryNames();
  }
}
