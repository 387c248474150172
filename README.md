# Dual FLIR camera control: a verified model

This project models the control core of a two-camera FLIR setup in Dafny and proves properties of that model. The system talks to Nexus CGI cameras. The model covers five pieces:

- **Configuration tables** (`constants.dfy`, module `Constants`). These are the camera aliases and their IP addresses, the default camera, the `tokenoverride`/`_` pair appended to requests, and the command registry. The registry maps each command name to its wire action, its optional static query parameters and its ordered, typed parameter specifications.
- **The command-line controller** (`camera_control_script.dfy`, module `CameraControlScript`). It covers:
  - host resolution and registry lookup;
  - `key=value` argument parsing;
  - coercion of a raw value to its wire string by declared type;
  - the batch resolution loop over a command's declared parameters;
  - the layered merge of session, action, static, dynamic and override parameters into one query.
- **The registry-driven HTTP client** (`camera_control_api.dfy`, module `CameraControlApi`). This is a class holding a camera selection and a cached session with a timeout. It authenticates with a WhoAmI request that is skipped while the session is fresh. Its `execute` authenticates, validates parameters with the controller's rules and sends one request, with no retry.
- **The legacy script-driven client** (`legacy_camera_control.dfy`, module `LegacyCameraControl`). This is a class holding a camera IP and a session obtained from an authentication script. Each command method authenticates first and then runs `for attempt in range(2)`. After a failed exit on the first attempt it forces one re-authentication. Output with no JSON skips to the next attempt. Any other exception aborts.
- **Stream source resolution** (`camera_feed.dfy`, module `CameraFeed`). The feed test script picks a capture source in this order: an explicit URL, then a device index, then a URL built from an alias, a protocol, an optional port and a path.

`wrappers.dfy` holds `Option` and `Result`: a raised exception is an `Err`, and Python's `None` is `None`. `text.dfy` states the Python built-ins the code relies on:

- `strip`/`lstrip`;
- `lower` on ASCII;
- `find`;
- `int()` and `str()` on base-10 integers;
- string ordering, and `sorted` of a set of strings.

Network and process I/O are modelled as oracle objects whose answers are fixed in advance, indexed by call number, and which log every request or argument vector they receive. The clock is a parameter `now`.

The legacy client's loop is an imperative method proved against a specification function:

- `Step` is one pass of the loop body;
- `Attempt` is the loop from a given attempt on;
- `CommandCall` is a whole call.

The scenario lemmas state the retry policy about that function. The controller's resolution loop and the client's coercion loop are both proved against one recursive function, `ResolveDeclared`. Its `consume` flag says whether supplied values are popped, as the script does, or left in place, as the client does.

## Model

| member | source | states |
|---|---|---|
| Constants.DefaultCameraIsKnown | src/constants.py:27-31 | The default alias is a key of the host table and maps to FLIR2's address, so the default lookup never fails. |
| Constants.CameraHostsAreExactlyTheTwoCameras | src/constants.py:23-31 | The host table has exactly the aliases FLIR1 and FLIR2, with their fixed addresses. |
| Constants.TokenOverrideIsExactlyThePair | src/constants.py:36-39 | The override pair is exactly `tokenoverride=1` and `_=0`. |
| Constants.RegistryNames | src/constants.py:49-123 | The registry holds exactly the eight commands. |
| Constants.RegistryIsWellFormed | src/constants.py:49-123 | Every command has a non-empty action, a description and a parameter list. Its parameter names are distinct, each has a type, and none declares `required` or a default, so each must be supplied. |
| Constants.ActionsAreDistinct | src/constants.py:49-123 | No two commands share a wire action. |
| Constants.StaticParamsOnlyOnCenter | src/constants.py:102-121 | Only `center` has static parameters, and they are Active_cam=0, Cam_type=4, Cam_id=0. No static key and no declared parameter name of any command is an override key. |
| Constants.SortedAliasesMatchHosts | src/script/camera_control.py:53-56 | The alias list quoted in unknown-alias errors is strictly ascending and holds exactly the host table's keys. |
| Text.BeforeFromFirstDifference | src/script/camera_control.py:62-63 | Two strings that agree up to some position are ordered by that position: the shorter one first if it ends there, otherwise by the character there. |
| Constants.SortedCommandNamesAreSorted | src/script/camera_control.py:62-63 | The command list quoted in unknown-command errors is strictly ascending. |
| Constants.SortedCommandNamesMatchRegistry | src/script/camera_control.py:62-63 | That list holds exactly the registry's keys. |
| CameraControlScript.ResolveHost | src/script/camera_control.py:45-56 | A non-empty explicit host is returned whatever the alias. Otherwise the given alias, or the default camera when none is given, is looked up. The call fails exactly when a given non-empty alias is unknown, and the error quotes the sorted aliases. |
| CameraControlScript.LoadCommand | src/script/camera_control.py:59-71 | Lookup succeeds exactly for registry names; an unknown name yields an error quoting the sorted command names. A loaded command carries the table's action and its description, static parameters and parameter specs, each defaulting to empty when the table omits it. Its parameters are uniquely named and required, and no key collides with the override pair. |
| CameraControlScript.SplitPair | src/script/camera_control.py:77-82 | An argument without "=" is an error. Otherwise the argument splits at its first "=", so the value keeps any later "=". The key is the stripped left part, and an empty key is an error. |
| CameraControlScript.ParsePairsLastWins | src/script/camera_control.py:74-84 | When every argument is well formed, parsing succeeds. The keys are exactly the arguments' keys, and each holds the value of its last occurrence. |
| CameraControlScript.ParsePairsKeepsError | src/script/camera_control.py:76-82 | An error within the first n arguments is the error of the whole list. Later arguments are never looked at. |
| CameraControlScript.ParsePairsRejectsFirstMalformed | src/script/camera_control.py:74-84 | The first malformed argument decides the error. |
| CameraControlScript.ParseParamPairs | src/script/camera_control.py:74-84 | The in-place loop computes exactly `ParsePairs`. |
| CameraControlScript.CoerceParamValue | src/script/camera_control.py:87-110 | Bool: truthy words (ignoring case) give "1", falsy words give "0", and anything else is a NotBoolean error. Int: success exactly when `int()` parses the value, and the result reads back as the same integer; otherwise a conversion error naming "int". Float: success exactly when the float rendering does, and the result is that rendering. Str and untyped values pass through unchanged. |
| CameraControlScript.CoercionIsIdempotent | src/script/camera_control.py:87-110 | Coercing an already coerced boolean, integer or string value changes nothing. |
| CameraControlScript.IntCoercionIsIdempotent | src/script/camera_control.py:102-110 | An int value becomes `str(int(value))`, and coercing that again gives the same string. |
| CameraControlScript.ResolveDeclared | src/script/camera_control.py:261-275 | The loop over declared parameters fails only with a missing-parameter error naming the command, or a coercion error. |
| CameraControlScript.ConsumingResolvesAlike | src/script/camera_control.py:261-282 | With uniquely named parameters, popping supplied values (the script) and leaving them in place (the client) give the same result for every input. |
| CameraControlScript.ResolveFailsAtFirstFailure | src/script/camera_control.py:261-282 | Errors come in declaration order. The first parameter that is missing or does not coerce decides the error, ahead of any unexpected-parameter error. Stated for the non-popping walk; `ConsumingFailsAtFirstFailure` carries it to the popping loop. |
| CameraControlScript.ConsumingFailsAtFirstFailure | src/script/camera_control.py:261-282 | In the popping loop, with distinct names, the first parameter that is missing or does not coerce decides the error. |
| CameraControlScript.DeclaredFailsAtFirstFailure | src/script/camera_control.py:261-275 | The same first-failure rule for the declared loop alone. |
| CameraControlScript.ResolveCollectsSettledValues | src/script/camera_control.py:261-275 | When every parameter settles, a declared name is a result key exactly when it got a value (supplied and coerced, or a default), and it holds that value. No other key appears. Stated for the non-popping walk; `ConsumingCollectsSettledValues` carries it to the popping loop. |
| CameraControlScript.ConsumingCollectsSettledValues | src/script/camera_control.py:261-275 | The popping loop, given distinct names and every parameter settling, yields exactly the settled values under their declared names and no other key. |
| CameraControlScript.UnexpectedOnlyAfterDeclared | src/script/camera_control.py:277-282 | The unexpected-parameter error occurs exactly when the declared loop succeeds and undeclared keys remain, and it names exactly those keys. |
| CameraControlScript.ResolvedMeansAllSettled | src/script/camera_control.py:261-275 | A successful resolution settled every declared parameter. |
| CameraControlScript.ResolvedKeysAreExactlyDeclared | src/script/camera_control.py:261-282 | For commands whose parameters must all be supplied, success means the caller supplied exactly the declared names, and the result has exactly those keys. |
| CameraControlScript.SettleOne | src/script/camera_control.py:262-275 | One pass of the loop gives the parameter's settled value and pops its name from the supplied map. |
| CameraControlScript.ResolveCommandParams | src/script/camera_control.py:258-282 | The popping loop followed by the leftover check computes exactly `ResolveParams` with consumption. |
| CameraControlScript.BuildQuery | src/script/camera_control.py:113-127 | The query has the keys session, action, the static keys, the dynamic keys and (with the flag) the override keys. Each key holds the value of the last layer that sets it. |
| CameraControlScript.MergedQueryIsUnique | src/script/camera_control.py:113-127 | The layering determines the query completely. |
| CameraControlScript.OverridePairAlwaysWins | src/script/camera_control.py:125-127 | With the flag set, the override pair is present and wins every collision, and session and action are present. |
| CameraControlScript.NoOverrideKeysWhenOff | src/script/camera_control.py:119-127 | With the flag off, no override key appears unless a parameter supplies it. |
| CameraControlScript.RegistryQueriesKeepParameters | src/script/camera_control.py:113-127 | For a registry command, every resolved and static parameter reaches the query unchanged, with the flag on or off. |
| CameraControlScript.PrepareRequest | src/script/camera_control.py:248-290 | Failures come in this order: command lookup, host resolution, argument parsing, parameter resolution. On success the base URL is `http://`, the host, `:`, the port and the path, and the query is the layered merge. |
| CameraControlApi.HostFor | src/classes/CameraControlAPI.py:34-43 | A non-empty override wins. Otherwise the alias must be in the host table, and an unknown alias is an error quoting the sorted aliases. |
| CameraControlApi.ClientHostMatchesScript | src/classes/CameraControlAPI.py:34-43 | The client and the script choose the same host for every non-empty alias. They differ only on the empty alias, which the client rejects and the script replaces with the default camera. |
| CameraControlApi.ExpiryIsStrict | src/classes/CameraControlAPI.py:58-59 | A session exactly `session_timeout` old is still fresh; one second later it is not. |
| CameraControlApi.AuthenticateStep | src/classes/CameraControlAPI.py:67-96 | An unforced call with a fresh session returns True, makes no request and changes nothing. An unknown alias raises before any request. A transport error, non-JSON, or a missing or empty Id invalidates the session and returns False. A non-object document raises and leaves the state alone. Success stores the Id and the current time, and the new session is fresh. |
| CameraControlApi.InvalidatedSessionAlwaysExchanges | src/classes/CameraControlAPI.py:67-69 | After an invalidation, the next authentication always asks the camera. |
| CameraControlApi.ClientResolvesLikeScript | src/classes/CameraControlAPI.py:105-127 | For every registry command, the client's non-popping loop resolves parameters exactly as the script's popping loop. |
| CameraControlApi.HttpTransport.WhoAmI | src/classes/CameraControlAPI.py:71-75 | The WhoAmI request returns the next fixed answer and is logged. |
| CameraControlApi.HttpTransport.Send | src/classes/CameraControlAPI.py:136-140 | A command request returns the next fixed answer and is logged with its URL and query. |
| CameraControlApi.CameraControlApi.constructor | src/classes/CameraControlAPI.py:14-29 | A new client stores its alias, override, port and timeout, and has no session. |
| CameraControlApi.CameraControlApi.InvalidateSession | src/classes/CameraControlAPI.py:53-56 | The session id becomes None and the last authentication time 0. Nothing else changes. |
| CameraControlApi.CameraControlApi.SetCamera | src/classes/CameraControlAPI.py:45-51 | The given alias and host replace the old ones, and the session is always invalidated, even when nothing changed. |
| CameraControlApi.CameraControlApi.Authenticate | src/classes/CameraControlAPI.py:67-96 | The result and new session are those of `AuthenticateStep`. Exactly one WhoAmI URL is logged when a request is made. No command request is sent. |
| CameraControlApi.ValidateCommand | src/classes/CameraControlAPI.py:105-127 | An unknown command, a missing parameter or a bad value is the error that lookup or resolution gives. Undeclared keys give an unexpected-parameter error listing exactly those keys, sorted. Otherwise the result is the resolved plan. |
| CameraControlApi.CoerceDeclared | src/classes/CameraControlAPI.py:108-120 | The client's coercion loop computes exactly `ResolveDeclared` without consumption. |
| CameraControlApi.CameraControlApi.RunCommand | src/classes/CameraControlAPI.py:105-140 | A validation failure sends nothing. Otherwise exactly one request goes to the base URL, carrying the layered query with the session id and the override pair. A failed request raises. |
| CameraControlApi.CameraControlApi.Execute | src/classes/CameraControlAPI.py:101-140 | Authentication comes first; when it fails or raises, the command is never looked up and no request is sent. After success, the outcomes are those of `RunCommand`. There is no retry. |
| LegacyCameraControl.AuthenticateStep | src/classes/CameraControl.py:69-105 | An unforced call with a fresh session returns True with no script run and no change. A non-zero exit or an exception clears the id and returns False. Empty output leaves the id "" and the time unchanged, and returns False. Success stores the stripped output and the current time. |
| LegacyCameraControl.ExpiryIsStrict | src/classes/CameraControl.py:65-67 | A session exactly 120 seconds old is reused; one second later the script runs. |
| LegacyCameraControl.Step | src/classes/CameraControl.py:115-136 | One loop pass. Only a failed exit on the first attempt forces re-authentication. Output without JSON goes on to the next attempt with the same session. Every run's argument vector starts with the script and the camera IP. |
| LegacyCameraControl.Attempt | src/classes/CameraControl.py:115-136 | From attempt k, at most 2-k runs and at most one forced authentication, and that only after a failed exit. Falling off the loop happens only after runs without JSON. A non-aborted loop ends with a fresh session. |
| LegacyCameraControl.AttemptEndsWithStep | src/classes/CameraControl.py:115-136 | When a loop pass stops the loop, the loop's outcome, session, authentication count and runs are that pass's. |
| LegacyCameraControl.AttemptGoesOnAfterStep | src/classes/CameraControl.py:115-136 | When a loop pass goes on, the loop is that pass's run followed by the rest of the loop, started from the pass's session. |
| LegacyCameraControl.AttemptRunsCarryScriptAndIp | src/classes/CameraControl.py:117-118 | Every run the loop makes is given the script path first and the camera IP second. |
| LegacyCameraControl.CommandCall | src/classes/CameraControl.py:112-136 | A whole call runs at most two scripts and forces at most one authentication. It falls off the loop only for JSON-reading commands, and ends with a fresh session unless it aborts. |
| LegacyCameraControl.CommandCallThroughAuth | src/classes/CameraControl.py:112-115 | A call is the proactive authentication followed by the loop only when that succeeds. |
| LegacyCameraControl.CommandCallRunsCarryScriptAndIp | src/classes/CameraControl.py:112-118 | Every run a whole call makes is given the script path first and the camera IP second. |
| LegacyCameraControl.NoRunWithoutAuthentication | src/classes/CameraControl.py:112-113 | When the first authentication fails, no script runs and the call fails. |
| LegacyCameraControl.ForcedOnlyAfterProcessError | src/classes/CameraControl.py:127-131 | A forced re-authentication implies the first authentication succeeded and the first run exited with an error. |
| LegacyCameraControl.NoJsonIsSkippedWithoutReauth | src/classes/CameraControl.py:255-263 | Two outputs without JSON run the script twice with the same session, never re-authenticate, and fall off the loop. |
| LegacyCameraControl.OtherExceptionAbortsAtOnce | src/classes/CameraControl.py:134-136 | Any other exception aborts after one run, with no re-authentication. |
| LegacyCameraControl.RetryUsesRenewedSession | src/classes/CameraControl.py:115-131 | A failed exit, a good forced re-authentication and a good second run complete the call. The second run carries the new id. |
| LegacyCameraControl.FailedReauthAborts | src/classes/CameraControl.py:129-131 | A failed forced re-authentication aborts after one run and leaves no session. |
| LegacyCameraControl.SecondProcessErrorGivesUp | src/classes/CameraControl.py:132-133 | Two failed exits give up after the second run, with exactly one forced re-authentication. |
| LegacyCameraControl.JsonTail | src/classes/CameraControl.py:120-122 | The decoded text starts at the first "{" of the output. |
| LegacyCameraControl.DegreeReading | src/classes/CameraControl.py:107-136 | An aborted call gives (None, None). Falling off the loop gives a bare None. A completed call whose JSON does not decode gives (None, None), as the caught exception does; so does a completed output without a `{`, which the loop never completes with since it retries such output. A completed call with decoded JSON gives the two fields of PTAzimuthElevationGet. |
| LegacyCameraControl.ZoomReading | src/classes/CameraControl.py:182-191 | A value is returned exactly when the output has JSON that decodes, the Magnification field is present and converts to float, and the value is that conversion. |
| LegacyCameraControl.SpeedReading | src/classes/CameraControl.py:260-270 | A pair is returned exactly when the output has JSON that decodes and both speed fields are present and convert, and it holds those conversions. |
| LegacyCameraControl.ScriptOracle.RunAuth | src/classes/CameraControl.py:80-86 | An authentication run returns the next fixed answer and is logged. |
| LegacyCameraControl.ScriptOracle.Run | src/classes/CameraControl.py:118 | A command run returns the next fixed answer and is logged. |
| LegacyCameraControl.CameraControl.constructor | src/classes/CameraControl.py:26-53 | The IP defaults to FLIR2's address when none or an empty one is given. There is no session. |
| LegacyCameraControl.CameraControl.SetCameraIp | src/classes/CameraControl.py:55-63 | An empty address is refused. The same address keeps the session. A new address is stored, and the id and time are cleared. |
| LegacyCameraControl.CameraControl.Authenticate | src/classes/CameraControl.py:69-105 | The result and new session are those of `AuthenticateStep`. The script is run, and logged with the IP, exactly when the session is not reused. |
| LegacyCameraControl.CameraControl.AttemptOnce | src/classes/CameraControl.py:115-136 | One pass against the scripts returns exactly `Step` and logs the runs it made. |
| LegacyCameraControl.CameraControl.AttemptInLoop | src/classes/CameraControl.py:115-136 | One pass inside the loop keeps the loop invariant: the logs so far are a prefix of the whole loop's logs. |
| LegacyCameraControl.CameraControl.AttemptLoop | src/classes/CameraControl.py:115-136 | The loop ends with the outcome and session of `Attempt`, having logged exactly its runs. |
| LegacyCameraControl.CameraControl.RunWithRetry | src/classes/CameraControl.py:112-136 | A command method's body has the outcome, session and logged runs of `CommandCall`. |
| LegacyCameraControl.CameraControl.GetDegreePos | src/classes/CameraControl.py:107-136 | Returns the `DegreeReading` of the call's outcome. |
| LegacyCameraControl.CameraControl.MoveCameraToAbsolutePos | src/classes/CameraControl.py:138-167 | Returns True exactly when a run completed. |
| LegacyCameraControl.CameraControl.GetZoom | src/classes/CameraControl.py:169-200 | Returns the `ZoomReading` of the call's outcome. |
| LegacyCameraControl.CameraControl.SetZoom | src/classes/CameraControl.py:202-223 | Returns True exactly when a run completed. A zoom that cannot be formatted aborts before any run. |
| LegacyCameraControl.CameraControl.GetSpeed | src/classes/CameraControl.py:248-279 | Returns the `SpeedReading` of the call's outcome. |
| CameraFeed.ResolveSource | src/script/test_camera_feed.py:77-96 | A non-empty URL wins over everything, then a device index. Otherwise the alias must be known, and the URL is built from its host. |
| CameraFeed.StreamUrl | src/script/test_camera_feed.py:84-96 | A built URL starts with `protocol://host`. |
| CameraFeed.AbsentPortIsTheDefault | src/script/test_camera_feed.py:84-87 | With no port, RTSP uses 8554 and HTTP/HTTPS use 80. |
| CameraFeed.PortPartReadsBack | src/script/test_camera_feed.py:90-92 | The port part is empty exactly for port 0. Otherwise it is ":" and digits that parse back to the port. |
| CameraFeed.PortFollowsHost | src/script/test_camera_feed.py:90-96 | The port part follows the origin directly and is followed by nothing or by "/". |
| CameraFeed.PathFollowsPort | src/script/test_camera_feed.py:94-96 | The path part comes last: the URL is the one built without a path, followed by the path part. |
| CameraFeed.PathPartDropsLeadingSlashes | src/script/test_camera_feed.py:89-96 | A path of only slashes contributes nothing. Otherwise it contributes "/" and the path from its first non-slash character, and every removed character was a slash. |
| CameraFeed.LeadingSlashesIgnored | src/script/test_camera_feed.py:89 | Any number of leading slashes on the path gives the same URL. |
| Text.ParseRenderInt | src/script/camera_control.py:102-110 | `int(str(n)) == n`: the wire form of an integer reads back as that integer. |
| Text.SortedList | src/classes/CameraControlAPI.py:122-124 | `sorted(extras)` is strictly ascending and holds exactly the set's elements. |
| Text.TrimRightIsPrefix | src/classes/CameraControl.py:93 | The right-hand half of `strip()` removes a suffix: what is left is a prefix of the input. |
| Text.TrimRightDrops | src/classes/CameraControl.py:93 | Every character removed from the right is whitespace. |
| Text.TrimRightStops | src/classes/CameraControl.py:93 | Removal from the right stops at the last non-whitespace character. |
| Text.StripWithoutSpaces | src/classes/CameraControl.py:93 | A session id with no whitespace is kept as it is. |
| Text.TrimLeftIsSuffix | src/script/test_camera_feed.py:89 | `lstrip` removes a prefix: what is left is a suffix of the input. |
| Text.TrimLeftDrops | src/script/test_camera_feed.py:89 | Every character `lstrip` removes is one it was asked to remove. |
| Text.TrimLeftStops | src/script/test_camera_feed.py:89 | `lstrip` stops at the first character it was not asked to remove. |

## Left out

- Python dictionaries keep insertion order; the maps here do not. The order of keys in a query or in the unexpected-parameter message of the script (`", ".join(provided_params.keys())`) is not modelled. The client's sorted list is.
- `int()` is modelled for ASCII digits only. Unicode decimal digits, other whitespace rules and the 4300-digit limit on conversions are not modelled.
- Float handling is a parameter: `renderFloat` for `f"{float(v):.10g}"`, `toFloat` for `float()`, and pre-rendered `:.2f` strings for the legacy move and zoom arguments. Floating-point arithmetic is not modelled.
- Registry parameter specs drop the `help` text, and `default` values are held already rendered by `str()`. The client's `str(params[name])` is assumed done by the caller, so supplied values are strings.
- Messages, printing, logging, argparse, exit codes, `--print-url`, `wait_for_host` retries and `request_timeout` are not modelled.
- `issue_request`, `urlopen`, `subprocess.Popen`/`run` and `json.loads` are oracles and decoder parameters. Response decoding is reduced to the two-level field lookup that the callers perform.
- Each public call reads the clock once, as `now`. The original reads `time.time()` again when it stores the authentication time.
- Time is whole seconds (`now: int`), where the original compares `time.time()` floats. A session 120.5 seconds old is expired in the original, and the model cannot express that age; only the strict `>` comparison against the timeout is kept.
- CameraControlApi.WhoAmIReply: the decoded WhoAmI body is reduced to four cases. An `Id` that is not a string (a number, a list) is held as a string of the same truthiness, and a body `json.loads` rejects is `NotJson`; a decoded value whose lookups raise is `NotAnObject`.
- `_resolve_script`, the script-path constants and the OpenCV capture loop (`wait_for_first_frame`, `run_capture`) are not modelled. Neither are `calculate_screen_offset_degrees`, `calculate_absolute_target_pos` and the client's convenience wrappers (`get_zoom` … `auto_focus`).
- LegacyCameraControl.CameraControl.SetCameraIp: the ValueError for an empty address is returned as `false`, not raised.
- The comment at `src/classes/CameraControl.py:263` says a missing JSON object triggers re-authentication. The code only continues the loop, and the model follows the code.
- `get_degree_pos` returns a bare `None`, not `(None, None)`, when both attempts produce no JSON. This is modelled as written.
- The client and the script differ on an empty alias: the client rejects it, the script uses the default camera. `CameraControlApi.ClientHostMatchesScript` states this.
- CameraFeed.ResolveSource: the argparse `choices` restrictions on alias and protocol are not modelled. The protocol is a closed datatype, and an unknown alias is an error value instead of a `KeyError`.
