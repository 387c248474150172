/**
 * The generic command-line controller for Nexus CGI cameras: host resolution,
 * registry lookup, `key=value` argument parsing, typed coercion of parameter
 * values to their wire strings, the batch resolution of a command's declared
 * parameters, and the merge of session, action, static, dynamic and override
 * parameters into one query.
 */
module CameraControlScript {
  import opened Wrappers
  import opened Text
  import opened Constants

  /** The ValueError / parser errors the script raises, with the data their messages carry. */
  datatype Error =
    | UnknownCamera(alias: string, known: seq<string>)
    | UnknownCommand(command: string, available: seq<string>)
    | NotKeyValue(raw: string)
    | EmptyKey(raw: string)
    | NotBoolean(param: string)
    | NotConvertible(param: string, value: string, typeName: string)
    | MissingParameter(param: string, command: string)
    | UnexpectedParameters(command: string, names: set<string>)

  /** A registry entry after lookup, with the absent keys filled in. */
  datatype ParsedCommand = ParsedCommand(
    name: string,
    action: string,
    description: string,
    staticParams: map<string, string>,
    paramSpecs: seq<ParamSpec>)

  /** Python truthiness of an optional string: present and non-empty. */
  predicate Truthy(s: Option<string>) {
    s.Some? && s.value != ""
  }

  // ---------------------------------------------------------------------------
  // Host and command lookup
  // ---------------------------------------------------------------------------

  /**
   * An explicit host wins whatever the alias; otherwise the alias, or the
   * default camera when none is given, is looked up in the host table.
   */
  function ResolveHost(host: Option<string>, cameraAlias: Option<string>): (r: Result<string, Error>)
    ensures Truthy(host) ==> r == Ok(host.value)
    ensures !Truthy(host) && !Truthy(cameraAlias) ==> r == Ok(FLIR2_IP)
    ensures !Truthy(host) && Truthy(cameraAlias) && cameraAlias.value in CAMERA_HOSTS ==>
      r == Ok(CAMERA_HOSTS[cameraAlias.value])
    ensures r.Ok? ==> (Truthy(host) && r.value == host.value) || r.value in CAMERA_HOSTS.Values
    ensures r.Err? <==> !Truthy(host) && Truthy(cameraAlias) && cameraAlias.value !in CAMERA_HOSTS
    ensures r.Err? ==> r.error == UnknownCamera(cameraAlias.value, SORTED_ALIASES)
  {
    if Truthy(host) then Ok(host.value)
    else
      var alias := if Truthy(cameraAlias) then cameraAlias.value else DEFAULT_CAMERA;
      if alias in CAMERA_HOSTS then Ok(CAMERA_HOSTS[alias])
      else Err(UnknownCamera(alias, SORTED_ALIASES))
  }

  /**
   * Looks a command up in the registry. A loaded command carries the table's
   * action, description, static parameters and parameter list, with an empty
   * description, static map or list where the table has none; its parameters
   * are uniquely named and all required.
   */
  function LoadCommand(commandName: string): (r: Result<ParsedCommand, Error>)
    ensures r.Ok? <==> commandName in CAMERA_COMMANDS
    ensures r.Err? ==> r.error == UnknownCommand(commandName, SORTED_COMMAND_NAMES)
    ensures r.Ok? ==>
      && r.value.name == commandName
      && r.value.action == CAMERA_COMMANDS[commandName].action != ""
      && r.value.description == CAMERA_COMMANDS[commandName].description.GetOr("")
      && r.value.staticParams == CAMERA_COMMANDS[commandName].staticParams.GetOr(map[])
      && r.value.paramSpecs == CAMERA_COMMANDS[commandName].params.GetOr([])
      && (CAMERA_COMMANDS[commandName].staticParams.None? ==> r.value.staticParams == map[])
      && (CAMERA_COMMANDS[commandName].staticParams.Some? ==> commandName == "center")
      && r.value.staticParams.Keys !! TOKEN_OVERRIDE_PARAMS.Keys
      && DistinctNames(r.value.paramSpecs)
      && NameSet(r.value.paramSpecs) !! TOKEN_OVERRIDE_PARAMS.Keys
      && forall p :: p in r.value.paramSpecs ==> MustBeSupplied(p)
  {
    if commandName !in CAMERA_COMMANDS then
      Err(UnknownCommand(commandName, SORTED_COMMAND_NAMES))
    else
      RegistryIsWellFormed(commandName);
      StaticParamsOnlyOnCenter(commandName);
      var spec := CAMERA_COMMANDS[commandName];
      Ok(ParsedCommand(
        commandName,
        spec.action,
        spec.description.GetOr(""),
        spec.staticParams.GetOr(map[]),
        spec.params.GetOr([])))
  }

  // ---------------------------------------------------------------------------
  // key=value arguments
  // ---------------------------------------------------------------------------

  /**
   * Splits one argument at its first "=": the stripped left part is the key,
   * everything after that "=" (later "=" included) is the value.
   */
  function SplitPair(raw: string): (r: Result<(string, string), Error>)
    ensures '=' !in raw ==> r == Err(NotKeyValue(raw))
    ensures '=' in raw && r.Err? ==> r.error == EmptyKey(raw) && Strip(raw[..IndexOf(raw, '=')]) == ""
    ensures r.Ok? ==>
      var cut := |raw| - |r.value.1| - 1;
      && 0 <= cut
      && raw == raw[..cut] + "=" + r.value.1
      && '=' !in raw[..cut]
      && r.value.0 == Strip(raw[..cut]) != ""
  {
    var eq := IndexOf(raw, '=');
    if eq < 0 then Err(NotKeyValue(raw))
    else
      var prefix := raw[..eq];
      var value := raw[eq + 1..];
      assert |raw| - |value| - 1 == eq && raw == prefix + "=" + value;
      var key := Strip(prefix);
      if key == "" then Err(EmptyKey(raw)) else Ok((key, value))
  }

  /** Parses the arguments left to right; a later duplicate key overwrites an earlier one. */
  function ParsePairs(pairs: seq<string>): Result<map<string, string>, Error> {
    if pairs == [] then Ok(map[])
    else
      match ParsePairs(pairs[..|pairs| - 1])
      case Err(e) => Err(e)
      case Ok(m) =>
        match SplitPair(pairs[|pairs| - 1])
        case Err(e) => Err(e)
        case Ok(kv) => Ok(m[kv.0 := kv.1])
  }

  predicate WellFormedPairs(pairs: seq<string>) {
    forall i :: 0 <= i < |pairs| ==> SplitPair(pairs[i]).Ok?
  }

  /** The (key, value) split of every argument, in order. */
  function Splits(pairs: seq<string>): (kvs: seq<(string, string)>)
    requires WellFormedPairs(pairs)
    ensures |kvs| == |pairs|
    ensures forall i :: 0 <= i < |pairs| ==> kvs[i] == SplitPair(pairs[i]).value
  {
    seq(|pairs|, i requires 0 <= i < |pairs| && WellFormedPairs(pairs) => SplitPair(pairs[i]).value)
  }

  /** Successive dictionary assignments `d[k] = v`, in order. */
  function Assign(kvs: seq<(string, string)>): map<string, string> {
    if kvs == [] then map[]
    else Assign(kvs[..|kvs| - 1])[kvs[|kvs| - 1].0 := kvs[|kvs| - 1].1]
  }

  /** No later assignment reuses the key of assignment `i`. */
  predicate IsLastKey(kvs: seq<(string, string)>, i: nat)
    requires i < |kvs|
  {
    forall j :: i < j < |kvs| ==> kvs[j].0 != kvs[i].0
  }

  lemma {:induction false} AssignKeys(kvs: seq<(string, string)>)
    ensures forall k :: k in Assign(kvs) <==> exists i :: 0 <= i < |kvs| && kvs[i].0 == k
  {
    if kvs != [] {
      var init := kvs[..|kvs| - 1];
      AssignKeys(init);
      forall k ensures k in Assign(kvs) <==> exists i :: 0 <= i < |kvs| && kvs[i].0 == k {
        if k in Assign(init) {
          var i :| 0 <= i < |init| && init[i].0 == k;
          assert kvs[i] == init[i];
        }
        if exists i :: 0 <= i < |kvs| && kvs[i].0 == k {
          var i :| 0 <= i < |kvs| && kvs[i].0 == k;
          if i < |init| {
            assert init[i] == kvs[i];
          }
        }
      }
    }
  }

  lemma {:induction false} AssignLastWins(kvs: seq<(string, string)>)
    ensures forall i :: 0 <= i < |kvs| ==> kvs[i].0 in Assign(kvs)
    ensures forall i :: 0 <= i < |kvs| && IsLastKey(kvs, i) ==> Assign(kvs)[kvs[i].0] == kvs[i].1
  {
    AssignKeys(kvs);
    if kvs != [] {
      var init := kvs[..|kvs| - 1];
      AssignLastWins(init);
      forall i | 0 <= i < |kvs| - 1 && IsLastKey(kvs, i) ensures Assign(kvs)[kvs[i].0] == kvs[i].1 {
        assert init[i] == kvs[i];
        assert IsLastKey(init, i) by {
          forall j | i < j < |init| ensures init[j].0 != init[i].0 {
            assert init[j] == kvs[j];
          }
        }
      }
    }
  }

  lemma {:induction false} ParsePairsAssigns(pairs: seq<string>)
    requires WellFormedPairs(pairs)
    ensures ParsePairs(pairs) == Ok(Assign(Splits(pairs)))
  {
    if pairs != [] {
      var init := pairs[..|pairs| - 1];
      ParsePairsAssigns(init);
      assert Splits(pairs)[..|pairs| - 1] == Splits(init);
    }
  }

  /**
   * When every argument is well formed, parsing succeeds; its keys are exactly
   * the arguments' keys, and each key holds the value of its last occurrence.
   */
  lemma ParsePairsLastWins(pairs: seq<string>)
    requires WellFormedPairs(pairs)
    ensures ParsePairs(pairs).Ok?
    ensures var kvs := Splits(pairs);
      forall k :: k in ParsePairs(pairs).value <==> exists i :: 0 <= i < |kvs| && kvs[i].0 == k
    ensures var kvs := Splits(pairs);
      forall i :: 0 <= i < |kvs| && IsLastKey(kvs, i) ==> ParsePairs(pairs).value[kvs[i].0] == kvs[i].1
  {
    ParsePairsAssigns(pairs);
    AssignKeys(Splits(pairs));
    AssignLastWins(Splits(pairs));
  }

  lemma {:induction false} ParsePairsKeepsError(pairs: seq<string>, n: nat)
    requires n <= |pairs| && ParsePairs(pairs[..n]).Err?
    ensures ParsePairs(pairs) == ParsePairs(pairs[..n])
    decreases |pairs|
  {
    if n < |pairs| {
      var init := pairs[..|pairs| - 1];
      assert init[..n] == pairs[..n];
      ParsePairsKeepsError(init, n);
    } else {
      assert pairs[..n] == pairs;
    }
  }

  /** The first malformed argument, in order, is the one reported. */
  lemma {:induction false} ParsePairsRejectsFirstMalformed(pairs: seq<string>, i: nat)
    requires i < |pairs| && SplitPair(pairs[i]).Err?
    requires WellFormedPairs(pairs[..i])
    ensures ParsePairs(pairs) == Err(SplitPair(pairs[i]).error)
  {
    var prefix := pairs[..i + 1];
    assert prefix[..|prefix| - 1] == pairs[..i] && prefix[|prefix| - 1] == pairs[i];
    ParsePairsAssigns(pairs[..i]);
    assert ParsePairs(prefix) == Err(SplitPair(pairs[i]).error);
    ParsePairsKeepsError(pairs, i + 1);
  }

  /** `parse_param_pairs`: fills the parsed map argument by argument. */
  method ParseParamPairs(pairs: seq<string>) returns (r: Result<map<string, string>, Error>)
    ensures r == ParsePairs(pairs)
  {
    var parsed: map<string, string> := map[];
    for i := 0 to |pairs|
      invariant ParsePairs(pairs[..i]) == Ok(parsed)
    {
      var raw := pairs[i];
      assert pairs[..i + 1][..i] == pairs[..i];
      var eq := IndexOf(raw, '=');
      if eq < 0 {
        ParsePairsKeepsError(pairs, i + 1);
        return Err(NotKeyValue(raw));
      }
      var key := Strip(raw[..eq]);
      if key == "" {
        ParsePairsKeepsError(pairs, i + 1);
        return Err(EmptyKey(raw));
      }
      parsed := parsed[key := raw[eq + 1..]];
    }
    assert pairs[..|pairs|] == pairs;
    return Ok(parsed);
  }

  // ---------------------------------------------------------------------------
  // Coercion of one value
  // ---------------------------------------------------------------------------

  const TRUTHY: set<string> := {"1", "true", "t", "yes", "y", "on"}
  const FALSY: set<string> := {"0", "false", "f", "no", "n", "off"}

  /**
   * `coerce_param_value`. `renderFloat(value)` stands for `f"{float(value):.10g}"`,
   * None where `float()` raises.
   */
  function CoerceParamValue(name: string, value: string, spec: ParamSpec,
                            renderFloat: string -> Option<string>): (r: Result<string, Error>)
    ensures spec.ptype == Some(Bool) ==>
      && (r == Ok("1") <==> Lower(value) in TRUTHY)
      && (r == Ok("0") <==> Lower(value) in FALSY)
      && (r.Err? <==> Lower(value) !in TRUTHY + FALSY)
      && (r.Err? ==> r.error == NotBoolean(name))
    ensures spec.ptype == Some(Int) ==>
      && (r.Ok? <==> ParseInt(value).Some?)
      && (r.Ok? ==> ParseInt(r.value) == ParseInt(value))
      && (r.Err? ==> r.error == NotConvertible(name, value, "int"))
    ensures spec.ptype == Some(Float) ==>
      && (r.Ok? <==> renderFloat(value).Some?)
      && (r.Ok? ==> r.value == renderFloat(value).value)
      && (r.Err? ==> r.error == NotConvertible(name, value, "float"))
    ensures spec.ptype == None || spec.ptype == Some(Str) ==> r == Ok(value)
  {
    match spec.ptype
    case Some(Bool) =>
      var lowered := Lower(value);
      if lowered in TRUTHY then Ok("1")
      else if lowered in FALSY then Ok("0")
      else Err(NotBoolean(name))
    case Some(Int) =>
      (match ParseInt(value)
       case Some(n) => ParseRenderInt(n); Ok(RenderInt(n))
       case None => Err(NotConvertible(name, value, "int")))
    case Some(Float) =>
      (match renderFloat(value)
       case Some(s) => Ok(s)
       case None => Err(NotConvertible(name, value, "float")))
    case _ => Ok(value)
  }

  /** Coercing an already coerced boolean, integer or string value changes nothing. */
  lemma CoercionIsIdempotent(name: string, value: string, spec: ParamSpec,
                             renderFloat: string -> Option<string>)
    requires spec.ptype != Some(Float)
    requires CoerceParamValue(name, value, spec, renderFloat).Ok?
    ensures var wire := CoerceParamValue(name, value, spec, renderFloat).value;
      CoerceParamValue(name, wire, spec, renderFloat) == Ok(wire)
  {
    var wire := CoerceParamValue(name, value, spec, renderFloat).value;
    if spec.ptype == Some(Bool) {
      assert Lower(wire) == wire;
    } else if spec.ptype == Some(Int) {
      IntCoercionIsIdempotent(name, value, spec, renderFloat);
    }
  }

  /** The integer case: the wire form of a parsed integer parses back to it. */
  lemma IntCoercionIsIdempotent(name: string, value: string, spec: ParamSpec,
                                renderFloat: string -> Option<string>)
    requires spec.ptype == Some(Int)
    requires ParseInt(value).Some?
    ensures CoerceParamValue(name, value, spec, renderFloat) == Ok(RenderInt(ParseInt(value).value))
    ensures CoerceParamValue(name, RenderInt(ParseInt(value).value), spec, renderFloat) ==
      Ok(RenderInt(ParseInt(value).value))
  {
    ParseRenderInt(ParseInt(value).value);
  }

  // ---------------------------------------------------------------------------
  // Resolution of a command's declared parameters
  // ---------------------------------------------------------------------------

  /**
   * What one declared parameter contributes: its coerced value when supplied,
   * an error when it must be supplied and is not, otherwise its default or nothing.
   */
  function SettleParam(command: string, s: ParamSpec, supplied: map<string, string>,
                       renderFloat: string -> Option<string>): Result<Option<string>, Error>
  {
    if s.name in supplied then
      match CoerceParamValue(s.name, supplied[s.name], s, renderFloat)
      case Ok(v) => Ok(Some(v))
      case Err(e) => Err(e)
    else if MustBeSupplied(s) then Err(MissingParameter(s.name, command))
    else Ok(s.default)
  }

  /**
   * The loop over the declared parameters, in declaration order. With `consume`
   * each supplied value is removed once it is used, as the script's loop pops it;
   * without, the supplied map is left alone, as the API client's loop does.
   */
  function ResolveDeclared(command: string, specs: seq<ParamSpec>, supplied: map<string, string>,
                           consume: bool, renderFloat: string -> Option<string>): (r: Result<map<string, string>, Error>)
    ensures r.Err? ==> r.error.MissingParameter? || r.error.NotBoolean? || r.error.NotConvertible?
    ensures r.Err? && r.error.MissingParameter? ==> r.error.command == command
    decreases |specs|
  {
    if specs == [] then Ok(map[])
    else
      var s := specs[0];
      match SettleParam(command, s, supplied, renderFloat)
      case Err(e) => Err(e)
      case Ok(v) =>
        var left := if consume then supplied - {s.name} else supplied;
        match ResolveDeclared(command, specs[1..], left, consume, renderFloat)
        case Err(e) => Err(e)
        case Ok(m) => Ok((if v.Some? then map[s.name := v.value] else map[]) + m)
  }

  /** The full batch check: declared parameters first, then the undeclared leftovers. */
  function ResolveParams(command: string, specs: seq<ParamSpec>, supplied: map<string, string>,
                         consume: bool, renderFloat: string -> Option<string>): Result<map<string, string>, Error>
  {
    match ResolveDeclared(command, specs, supplied, consume, renderFloat)
    case Err(e) => Err(e)
    case Ok(m) =>
      var extras := supplied.Keys - NameSet(specs);
      if extras != {} then Err(UnexpectedParameters(command, extras)) else Ok(m)
  }

  /** Prepends values already collected to the outcome of the rest of the loop. */
  function Then(collected: map<string, string>, rest: Result<map<string, string>, Error>): Result<map<string, string>, Error> {
    match rest
    case Err(e) => Err(e)
    case Ok(m) => Ok(collected + m)
  }

  lemma {:induction false} ResolveIgnoresUndeclared(command: string, specs: seq<ParamSpec>,
                                                    supplied: map<string, string>, n: string, consume: bool,
                                                    renderFloat: string -> Option<string>)
    requires n !in NameSet(specs)
    ensures ResolveDeclared(command, specs, supplied - {n}, consume, renderFloat) ==
            ResolveDeclared(command, specs, supplied, consume, renderFloat)
    decreases |specs|
  {
    if specs != [] {
      var s := specs[0];
      assert s.name in NameSet(specs);
      assert NameSet(specs[1..]) <= NameSet(specs) by {
        forall x | x in NameSet(specs[1..]) ensures x in NameSet(specs) {
          var i :| 0 <= i < |specs[1..]| && specs[1..][i].name == x;
          assert specs[i + 1].name == x;
        }
      }
      assert SettleParam(command, s, supplied - {n}, renderFloat) == SettleParam(command, s, supplied, renderFloat);
      if consume {
        assert (supplied - {n}) - {s.name} == (supplied - {s.name}) - {n};
        ResolveIgnoresUndeclared(command, specs[1..], supplied - {s.name}, n, consume, renderFloat);
      } else {
        ResolveIgnoresUndeclared(command, specs[1..], supplied, n, consume, renderFloat);
      }
    }
  }

  /**
   * With uniquely named parameters, popping the supplied values (the script)
   * and leaving them in place (the API client) resolve every input alike.
   */
  lemma {:induction false} ConsumingResolvesAlike(command: string, specs: seq<ParamSpec>,
                                                  supplied: map<string, string>,
                                                  renderFloat: string -> Option<string>)
    requires DistinctNames(specs)
    ensures ResolveParams(command, specs, supplied, true, renderFloat) ==
            ResolveParams(command, specs, supplied, false, renderFloat)
  {
    ConsumingDeclaredAlike(command, specs, supplied, renderFloat);
  }

  lemma {:induction false} ConsumingDeclaredAlike(command: string, specs: seq<ParamSpec>,
                                                  supplied: map<string, string>,
                                                  renderFloat: string -> Option<string>)
    requires DistinctNames(specs)
    ensures ResolveDeclared(command, specs, supplied, true, renderFloat) ==
            ResolveDeclared(command, specs, supplied, false, renderFloat)
    decreases |specs|
  {
    if specs != [] {
      var s := specs[0];
      var tail := specs[1..];
      assert DistinctNames(tail) by {
        forall i, j | 0 <= i < j < |tail| ensures tail[i].name != tail[j].name {
          assert tail[i] == specs[i + 1] && tail[j] == specs[j + 1];
        }
      }
      forall i | 0 <= i < |tail| ensures tail[i].name != s.name {
        assert tail[i] == specs[i + 1];
      }
      ConsumingDeclaredAlike(command, tail, supplied - {s.name}, renderFloat);
      ResolveIgnoresUndeclared(command, tail, supplied, s.name, false, renderFloat);
    }
  }

  /**
   * Errors come in declaration order: when every earlier parameter settles and
   * parameter `i` does not, its error (a missing parameter or a value that does
   * not coerce) is the result, ahead of any unexpected-parameter error.
   */
  lemma {:induction false} ResolveFailsAtFirstFailure(command: string, specs: seq<ParamSpec>,
                                                      supplied: map<string, string>,
                                                      renderFloat: string -> Option<string>, i: nat)
    requires i < |specs|
    requires forall j :: 0 <= j < i ==> SettleParam(command, specs[j], supplied, renderFloat).Ok?
    requires SettleParam(command, specs[i], supplied, renderFloat).Err?
    ensures ResolveParams(command, specs, supplied, false, renderFloat) ==
            Err(SettleParam(command, specs[i], supplied, renderFloat).error)
  {
    DeclaredFailsAtFirstFailure(command, specs, supplied, renderFloat, i);
  }

  /** The same for the script's popping loop: the first failing declared parameter decides the error. */
  lemma {:induction false} ConsumingFailsAtFirstFailure(command: string, specs: seq<ParamSpec>,
                                                        supplied: map<string, string>,
                                                        renderFloat: string -> Option<string>, i: nat)
    requires DistinctNames(specs) && i < |specs|
    requires forall j :: 0 <= j < i ==> SettleParam(command, specs[j], supplied, renderFloat).Ok?
    requires SettleParam(command, specs[i], supplied, renderFloat).Err?
    ensures ResolveParams(command, specs, supplied, true, renderFloat) ==
            Err(SettleParam(command, specs[i], supplied, renderFloat).error)
  {
    ConsumingResolvesAlike(command, specs, supplied, renderFloat);
    ResolveFailsAtFirstFailure(command, specs, supplied, renderFloat, i);
  }

  lemma {:induction false} DeclaredFailsAtFirstFailure(command: string, specs: seq<ParamSpec>,
                                                       supplied: map<string, string>,
                                                       renderFloat: string -> Option<string>, i: nat)
    requires i < |specs|
    requires forall j :: 0 <= j < i ==> SettleParam(command, specs[j], supplied, renderFloat).Ok?
    requires SettleParam(command, specs[i], supplied, renderFloat).Err?
    ensures ResolveDeclared(command, specs, supplied, false, renderFloat) ==
            Err(SettleParam(command, specs[i], supplied, renderFloat).error)
  {
    if i > 0 {
      var tail := specs[1..];
      forall j | 0 <= j < i - 1 ensures SettleParam(command, tail[j], supplied, renderFloat).Ok? {
        assert tail[j] == specs[j + 1];
      }
      assert tail[i - 1] == specs[i];
      DeclaredFailsAtFirstFailure(command, tail, supplied, renderFloat, i - 1);
    }
  }

  /**
   * When every uniquely named parameter settles, resolution of the declared
   * parameters succeeds: a declared name is a key exactly when it settled to a
   * value, and it holds that value; no other key appears.
   */
  lemma {:induction false} ResolveCollectsSettledValues(command: string, specs: seq<ParamSpec>,
                                                        supplied: map<string, string>,
                                                        renderFloat: string -> Option<string>)
    requires DistinctNames(specs)
    requires forall j :: 0 <= j < |specs| ==> SettleParam(command, specs[j], supplied, renderFloat).Ok?
    ensures ResolveDeclared(command, specs, supplied, false, renderFloat).Ok?
    ensures ResolveDeclared(command, specs, supplied, false, renderFloat).value.Keys <= NameSet(specs)
    ensures forall j :: 0 <= j < |specs| ==>
      var m := ResolveDeclared(command, specs, supplied, false, renderFloat).value;
      var v := SettleParam(command, specs[j], supplied, renderFloat).value;
      && (specs[j].name in m <==> v.Some?)
      && (v.Some? ==> m[specs[j].name] == v.value)
    decreases |specs|
  {
    if specs != [] {
      var s := specs[0];
      var tail := specs[1..];
      assert DistinctNames(tail) by {
        forall i, j | 0 <= i < j < |tail| ensures tail[i].name != tail[j].name {
          assert tail[i] == specs[i + 1] && tail[j] == specs[j + 1];
        }
      }
      forall j | 0 <= j < |tail| ensures SettleParam(command, tail[j], supplied, renderFloat).Ok? {
        assert tail[j] == specs[j + 1];
      }
      ResolveCollectsSettledValues(command, tail, supplied, renderFloat);
      var rest := ResolveDeclared(command, tail, supplied, false, renderFloat).value;
      forall i | 0 <= i < |tail| ensures tail[i].name != s.name {
        assert tail[i] == specs[i + 1];
      }
      forall x | x in NameSet(tail) ensures x in NameSet(specs) {
        var i :| 0 <= i < |tail| && tail[i].name == x;
        assert specs[i + 1].name == x;
      }
      forall j | 0 <= j < |specs|
        ensures var m := ResolveDeclared(command, specs, supplied, false, renderFloat).value;
          var v := SettleParam(command, specs[j], supplied, renderFloat).value;
          && (specs[j].name in m <==> v.Some?)
          && (v.Some? ==> m[specs[j].name] == v.value)
      {
        if j > 0 {
          assert specs[j] == tail[j - 1];
          assert specs[j].name != s.name;
        }
      }
    }
  }

  /** The same for the script's popping loop: each declared name maps to its settled value. */
  lemma {:induction false} ConsumingCollectsSettledValues(command: string, specs: seq<ParamSpec>,
                                                          supplied: map<string, string>,
                                                          renderFloat: string -> Option<string>)
    requires DistinctNames(specs)
    requires forall j :: 0 <= j < |specs| ==> SettleParam(command, specs[j], supplied, renderFloat).Ok?
    ensures ResolveDeclared(command, specs, supplied, true, renderFloat).Ok?
    ensures ResolveDeclared(command, specs, supplied, true, renderFloat).value.Keys <= NameSet(specs)
    ensures forall j :: 0 <= j < |specs| ==>
      var m := ResolveDeclared(command, specs, supplied, true, renderFloat).value;
      var v := SettleParam(command, specs[j], supplied, renderFloat).value;
      && (specs[j].name in m <==> v.Some?)
      && (v.Some? ==> m[specs[j].name] == v.value)
  {
    ConsumingDeclaredAlike(command, specs, supplied, renderFloat);
    ResolveCollectsSettledValues(command, specs, supplied, renderFloat);
  }


  /**
   * The unexpected-parameter error is raised only once every declared
   * parameter has been resolved, and names exactly the undeclared keys.
   */
  lemma UnexpectedOnlyAfterDeclared(command: string, specs: seq<ParamSpec>, supplied: map<string, string>,
                                    consume: bool, renderFloat: string -> Option<string>)
    ensures var r := ResolveParams(command, specs, supplied, consume, renderFloat);
      (r.Err? && r.error.UnexpectedParameters?) <==>
        ResolveDeclared(command, specs, supplied, consume, renderFloat).Ok? && supplied.Keys - NameSet(specs) != {}
    ensures var r := ResolveParams(command, specs, supplied, consume, renderFloat);
      r.Err? && r.error.UnexpectedParameters? ==>
        r.error == UnexpectedParameters(command, supplied.Keys - NameSet(specs))
  {
  }

  /** A successful resolution settled every declared parameter. */
  lemma {:induction false} ResolvedMeansAllSettled(command: string, specs: seq<ParamSpec>,
                                                   supplied: map<string, string>,
                                                   renderFloat: string -> Option<string>)
    requires ResolveDeclared(command, specs, supplied, false, renderFloat).Ok?
    ensures forall j :: 0 <= j < |specs| ==> SettleParam(command, specs[j], supplied, renderFloat).Ok?
    decreases |specs|
  {
    if specs != [] {
      var tail := specs[1..];
      ResolvedMeansAllSettled(command, tail, supplied, renderFloat);
      forall j | 0 < j < |specs| ensures SettleParam(command, specs[j], supplied, renderFloat).Ok? {
        assert specs[j] == tail[j - 1];
      }
    }
  }

  /**
   * For a command whose every parameter must be supplied (all registry
   * commands), a successful resolution means the caller supplied exactly the
   * declared names, and the result has exactly those keys.
   */
  lemma ResolvedKeysAreExactlyDeclared(command: string, specs: seq<ParamSpec>, supplied: map<string, string>,
                                       renderFloat: string -> Option<string>)
    requires DistinctNames(specs)
    requires forall p :: p in specs ==> MustBeSupplied(p)
    requires ResolveParams(command, specs, supplied, false, renderFloat).Ok?
    ensures supplied.Keys == NameSet(specs)
    ensures ResolveParams(command, specs, supplied, false, renderFloat).value.Keys == NameSet(specs)
  {
    var d := ResolveDeclared(command, specs, supplied, false, renderFloat);
    assert d.Ok?;
    var m := d.value;
    assert ResolveParams(command, specs, supplied, false, renderFloat).value == m;
    assert supplied.Keys - NameSet(specs) == {};
    ResolvedMeansAllSettled(command, specs, supplied, renderFloat);
    ResolveCollectsSettledValues(command, specs, supplied, renderFloat);
    forall j | 0 <= j < |specs| ensures specs[j].name in supplied && specs[j].name in m {
      var settled := SettleParam(command, specs[j], supplied, renderFloat);
      assert settled.Ok?;
      assert MustBeSupplied(specs[j]) by {
        assert specs[j] in specs;
      }
      assert specs[j].name in supplied;
      assert settled.value.Some?;
    }
    forall x | x in NameSet(specs) ensures x in supplied && x in m {
      var j :| 0 <= j < |specs| && specs[j].name == x;
    }
    assert m.Keys <= NameSet(specs);
    assert NameSet(specs) <= m.Keys;
    assert NameSet(specs) <= supplied.Keys;
    forall x | x in supplied ensures x in NameSet(specs) {
      assert x !in supplied.Keys - NameSet(specs);
    }
  }

  // ---------------------------------------------------------------------------
  // Query building
  // ---------------------------------------------------------------------------

  /** The value a merged query holds for key `k`: each layer over the ones before it. */
  function LayeredValue(k: string, action: string, staticParams: map<string, string>, session: string,
                        dynamicParams: map<string, string>, overrides: map<string, string>): string
  {
    if k in overrides then overrides[k]
    else if k in dynamicParams then dynamicParams[k]
    else if k in staticParams then staticParams[k]
    else if k == "action" then action
    else session
  }

  /**
   * The merge order of a request's query: the override pair (when included)
   * over dynamic parameters, over static parameters, over session and action.
   */
  predicate MergedQuery(query: map<string, string>, action: string, staticParams: map<string, string>,
                        session: string, dynamicParams: map<string, string>, includeTokenParams: bool)
  {
    var overrides := if includeTokenParams then TOKEN_OVERRIDE_PARAMS else map[];
    && query.Keys == {"session", "action"} + staticParams.Keys + dynamicParams.Keys + overrides.Keys
    && forall k :: k in query ==> query[k] == LayeredValue(k, action, staticParams, session, dynamicParams, overrides)
  }

  /** `build_query`: successive dictionary updates, later keys winning. */
  method BuildQuery(command: ParsedCommand, session: string, dynamicParams: map<string, string>,
                    includeTokenParams: bool) returns (query: map<string, string>)
    ensures MergedQuery(query, command.action, command.staticParams, session, dynamicParams, includeTokenParams)
  {
    query := map["session" := session, "action" := command.action];
    query := query + command.staticParams;
    query := query + dynamicParams;
    if includeTokenParams {
      query := query + TOKEN_OVERRIDE_PARAMS;
    }
  }

  /** The query is fully determined by the session, the command and the coerced parameters. */
  lemma MergedQueryIsUnique(q1: map<string, string>, q2: map<string, string>, action: string,
                            staticParams: map<string, string>, session: string,
                            dynamicParams: map<string, string>, includeTokenParams: bool)
    requires MergedQuery(q1, action, staticParams, session, dynamicParams, includeTokenParams)
    requires MergedQuery(q2, action, staticParams, session, dynamicParams, includeTokenParams)
    ensures q1 == q2
  {
  }

  /** With the flag set the override pair is present and wins every collision. */
  lemma OverridePairAlwaysWins(query: map<string, string>, action: string, staticParams: map<string, string>,
                               session: string, dynamicParams: map<string, string>)
    requires MergedQuery(query, action, staticParams, session, dynamicParams, true)
    ensures query["tokenoverride"] == "1" && query["_"] == "0"
    ensures "session" in query && "action" in query
  {
  }

  /** With the flag off no override key appears unless a command parameter supplies it. */
  lemma NoOverrideKeysWhenOff(query: map<string, string>, action: string, staticParams: map<string, string>,
                              session: string, dynamicParams: map<string, string>)
    requires MergedQuery(query, action, staticParams, session, dynamicParams, false)
    requires staticParams.Keys !! TOKEN_OVERRIDE_PARAMS.Keys && dynamicParams.Keys !! TOKEN_OVERRIDE_PARAMS.Keys
    ensures query.Keys !! TOKEN_OVERRIDE_PARAMS.Keys
    ensures "session" in query && "action" in query
  {
  }

  /**
   * For a registry command every resolved parameter and every static parameter
   * reaches the query unchanged, overrides on or off: no registry key collides
   * with the override pair.
   */
  lemma RegistryQueriesKeepParameters(commandName: string, session: string, supplied: map<string, string>,
                                      renderFloat: string -> Option<string>, withOverrides: bool,
                                      query: map<string, string>)
    requires LoadCommand(commandName).Ok?
    requires var c := LoadCommand(commandName).value;
      ResolveParams(c.name, c.paramSpecs, supplied, false, renderFloat).Ok?
    requires var c := LoadCommand(commandName).value;
      MergedQuery(query, c.action, c.staticParams, session,
                  ResolveParams(c.name, c.paramSpecs, supplied, false, renderFloat).value, withOverrides)
    ensures var c := LoadCommand(commandName).value;
      var m := ResolveParams(c.name, c.paramSpecs, supplied, false, renderFloat).value;
      && m.Keys == supplied.Keys
      && (forall k :: k in m ==> query[k] == m[k])
      && (forall k :: k in c.staticParams && k !in m ==> query[k] == c.staticParams[k])
  {
    var c := LoadCommand(commandName).value;
    ResolvedKeysAreExactlyDeclared(c.name, c.paramSpecs, supplied, renderFloat);
  }

  // ---------------------------------------------------------------------------
  // The script's request preparation
  // ---------------------------------------------------------------------------

  /** `f"http://{host}:{port}{path}"`. */
  function BaseUrl(host: string, port: int, path: string): string {
    "http://" + host + ":" + RenderInt(port) + path
  }

  datatype PreparedRequest = PreparedRequest(baseUrl: string, query: map<string, string>)

  lemma ThenNothing(rest: Result<map<string, string>, Error>)
    ensures Then(map[], rest) == rest
  {
    if rest.Ok? {
      assert map[] + rest.value == rest.value;
    }
  }

  /** One settled parameter moves from the rest of the loop into the collected values. */
  lemma ThenStep(collected: map<string, string>, command: string, specs: seq<ParamSpec>,
                 supplied: map<string, string>, consume: bool, renderFloat: string -> Option<string>)
    requires specs != [] && SettleParam(command, specs[0], supplied, renderFloat).Ok?
    ensures var v := SettleParam(command, specs[0], supplied, renderFloat).value;
      var next := if v.Some? then collected[specs[0].name := v.value] else collected;
      var left := if consume then supplied - {specs[0].name} else supplied;
      Then(collected, ResolveDeclared(command, specs, supplied, consume, renderFloat)) ==
      Then(next, ResolveDeclared(command, specs[1..], left, consume, renderFloat))
  {
    var v := SettleParam(command, specs[0], supplied, renderFloat).value;
    var left := if consume then supplied - {specs[0].name} else supplied;
    var rest := ResolveDeclared(command, specs[1..], left, consume, renderFloat);
    if rest.Ok? && v.Some? {
      assert collected + (map[specs[0].name := v.value] + rest.value) ==
             collected[specs[0].name := v.value] + rest.value;
    } else if rest.Ok? {
      assert map[] + rest.value == rest.value;
    }
  }

  /** A parameter that does not settle ends the loop with its error. */
  lemma ThenFail(collected: map<string, string>, command: string, specs: seq<ParamSpec>,
                 supplied: map<string, string>, consume: bool, renderFloat: string -> Option<string>)
    requires specs != [] && SettleParam(command, specs[0], supplied, renderFloat).Err?
    ensures Then(collected, ResolveDeclared(command, specs, supplied, consume, renderFloat)) ==
            Err(SettleParam(command, specs[0], supplied, renderFloat).error)
  {
  }

  /** The names declared up to and including position `i`. */
  lemma NameSetGrows(specs: seq<ParamSpec>, i: nat)
    requires i < |specs|
    ensures NameSet(specs[..i + 1]) == NameSet(specs[..i]) + {specs[i].name}
  {
    var p, q := specs[..i], specs[..i + 1];
    assert q == p + [specs[i]];
    forall x | x in NameSet(q) ensures x in NameSet(p) + {specs[i].name} {
      var k :| 0 <= k < |q| && q[k].name == x;
      if k < i {
        assert p[k].name == x;
      }
    }
    forall x | x in NameSet(p) ensures x in NameSet(q) {
      var k :| 0 <= k < |p| && p[k].name == x;
      assert q[k].name == x;
    }
    assert q[i].name == specs[i].name;
  }

  /**
   * One pass of the resolution loop: pops the parameter's supplied value, if
   * any, and coerces it, or falls back to the declared default.
   */
  method SettleOne(command: string, spec: ParamSpec, provided: map<string, string>,
                   renderFloat: string -> Option<string>)
    returns (v: Result<Option<string>, Error>, left: map<string, string>)
    ensures v == SettleParam(command, spec, provided, renderFloat)
    ensures left == provided - {spec.name}
  {
    var name := spec.name;
    if name !in provided {
      assert provided - {name} == provided;
      left := provided;
      if MustBeSupplied(spec) {
        return Err(MissingParameter(name, command)), left;
      }
      return Ok(spec.default), left;
    }
    var value := provided[name];
    left := provided - {name};
    var c := CoerceParamValue(name, value, spec, renderFloat);
    if c.Err? {
      return Err(c.error), left;
    }
    return Ok(Some(c.value)), left;
  }

  /**
   * The parameter-resolution loop of the script's entry point: walks the
   * declared parameters in order, popping each supplied value and coercing it,
   * then rejects whatever was supplied but never declared.
   */
  method ResolveCommandParams(command: ParsedCommand, providedParams: map<string, string>,
                              renderFloat: string -> Option<string>)
    returns (r: Result<map<string, string>, Error>)
    ensures r == ResolveParams(command.name, command.paramSpecs, providedParams, true, renderFloat)
  {
    var specs := command.paramSpecs;
    var provided := providedParams;
    var coerced: map<string, string> := map[];
    assert specs[0..] == specs && specs[..0] == [];
    assert NameSet(specs[..0]) == {};
    assert provided == providedParams - {};
    ThenNothing(ResolveDeclared(command.name, specs, provided, true, renderFloat));
    for i := 0 to |specs|
      invariant provided == providedParams - NameSet(specs[..i])
      invariant Then(coerced, ResolveDeclared(command.name, specs[i..], provided, true, renderFloat))
             == ResolveDeclared(command.name, specs, providedParams, true, renderFloat)
    {
      var spec := specs[i];
      assert specs[i..][0] == spec && specs[i..][1..] == specs[i + 1..];
      NameSetGrows(specs, i);
      var v, left := SettleOne(command.name, spec, provided, renderFloat);
      if v.Err? {
        ThenFail(coerced, command.name, specs[i..], provided, true, renderFloat);
        return Err(v.error);
      }
      ThenStep(coerced, command.name, specs[i..], provided, true, renderFloat);
      if v.value.Some? {
        coerced := coerced[spec.name := v.value.value];
      }
      provided := left;
    }
    assert specs[..|specs|] == specs && specs[|specs|..] == [];
    assert coerced + map[] == coerced;
    assert provided.Keys == providedParams.Keys - NameSet(specs);
    if provided != map[] {
      assert provided.Keys != {};
      return Err(UnexpectedParameters(command.name, provided.Keys));
    }
    assert providedParams.Keys - NameSet(specs) == {};
    return Ok(coerced);
  }

  /**
   * The script's request preparation: command lookup, host resolution,
   * argument parsing and parameter resolution, each failing in that order,
   * then the base URL and the merged query.
   */
  method PrepareRequest(commandName: string, session: string, camera: Option<string>, host: Option<string>,
                        port: int, path: string, noTokenOverride: bool, params: seq<string>,
                        renderFloat: string -> Option<string>)
    returns (r: Result<PreparedRequest, Error>)
    ensures LoadCommand(commandName).Err? ==> r == Err(LoadCommand(commandName).error)
    ensures LoadCommand(commandName).Ok? && ResolveHost(host, camera).Err? ==>
      r == Err(ResolveHost(host, camera).error)
    ensures LoadCommand(commandName).Ok? && ResolveHost(host, camera).Ok? && ParsePairs(params).Err? ==>
      r == Err(ParsePairs(params).error)
    ensures LoadCommand(commandName).Ok? && ResolveHost(host, camera).Ok? && ParsePairs(params).Ok? ==>
      var c := LoadCommand(commandName).value;
      var resolved := ResolveParams(c.name, c.paramSpecs, ParsePairs(params).value, true, renderFloat);
      && (resolved.Err? ==> r == Err(resolved.error))
      && (resolved.Ok? ==>
            && r.Ok?
            && r.value.baseUrl == BaseUrl(ResolveHost(host, camera).value, port, path)
            && MergedQuery(r.value.query, c.action, c.staticParams, session, resolved.value, !noTokenOverride))
  {
    var loaded := LoadCommand(commandName);
    if loaded.Err? {
      return Err(loaded.error);
    }
    var command := loaded.value;
    var resolvedHost := ResolveHost(host, camera);
    if resolvedHost.Err? {
      return Err(resolvedHost.error);
    }
    var providedParams := ParseParamPairs(params);
    if providedParams.Err? {
      return Err(providedParams.error);
    }
    var coerced := ResolveCommandParams(command, providedParams.value, renderFloat);
    if coerced.Err? {
      return Err(coerced.error);
    }
    var query := BuildQuery(command, session, coerced.value, !noTokenOverride);
    return Ok(PreparedRequest(BaseUrl(resolvedHost.value, port, path), query));
  }
}
