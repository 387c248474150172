/**
 * The legacy script-driven client. It keeps a camera IP and a session obtained
 * by running an authentication script. Each command runs a shell script with the
 * session, and retries exactly once after a forced re-authentication when the
 * script exits with an error. The scripts are an oracle object whose answers are
 * fixed in advance and which logs every argument vector it is given.
 */
module LegacyCameraControl {
  import opened Wrappers
  import opened Text
  import opened Constants

  const SESSION_TIMEOUT := 120

  datatype Session = Session(id: Option<string>, lastAuthTime: int)

  /** `not session_id` is false: present and non-empty. */
  predicate HasSession(s: Session) {
    s.id.Some? && s.id.value != ""
  }

  /** `_is_session_expired`: strictly more than the timeout has passed. */
  predicate Expired(s: Session, now: int) {
    now - s.lastAuthTime > SESSION_TIMEOUT
  }

  predicate Fresh(s: Session, now: int) {
    HasSession(s) && !Expired(s, now)
  }

  /** How one run of the authentication script ends: an exit code with its output, or an exception. */
  datatype AuthRun = Exited(code: int, stdout: string) | Crashed

  /** The result of `authenticate`, the session after it, and whether the script ran. */
  datatype AuthOutcome = AuthOutcome(ok: bool, after: Session, ran: bool)

  /** `authenticate(force_auth)` on values; `run` is how the script would end if started. */
  function AuthenticateStep(s: Session, force: bool, now: int, run: AuthRun): (r: AuthOutcome)
    ensures !force && Fresh(s, now) ==> r == AuthOutcome(true, s, false)
    ensures r.ran <==> force || !Fresh(s, now)
    ensures r.ran && (run.Crashed? || run.code != 0) ==> !r.ok && r.after == Session(None, s.lastAuthTime)
    ensures r.ran && run.Exited? && run.code == 0 ==>
      && r.after.id == Some(Strip(run.stdout))
      && (r.ok <==> Strip(run.stdout) != "")
      && r.after.lastAuthTime == (if r.ok then now else s.lastAuthTime)
    ensures r.ok ==> Fresh(r.after, now)
    ensures !r.ok ==> !HasSession(r.after) && r.after.lastAuthTime == s.lastAuthTime
  {
    if !force && Fresh(s, now) then AuthOutcome(true, s, false)
    else
      match run
      case Crashed => AuthOutcome(false, Session(None, s.lastAuthTime), true)
      case Exited(code, out) =>
        if code != 0 then AuthOutcome(false, Session(None, s.lastAuthTime), true)
        else
          var id := Strip(out);
          if id == "" then AuthOutcome(false, Session(Some(""), s.lastAuthTime), true)
          else AuthOutcome(true, Session(Some(id), now), true)
  }

  /** A session exactly 120 seconds old is still used; one second later it is renewed. */
  lemma {:induction false} ExpiryIsStrict(id: string, lastAuthTime: int, run: AuthRun)
    requires id != ""
    ensures AuthenticateStep(Session(Some(id), lastAuthTime), false, lastAuthTime + 120, run).ran == false
    ensures AuthenticateStep(Session(Some(id), lastAuthTime), false, lastAuthTime + 121, run).ran == true
  {
  }

  /** How one run of a command script ends: a non-zero exit, any other exception, or its output. */
  datatype ScriptRun = ProcessError | Raised | Output(stdout: string)

  /**
   * How the attempt loop ends: a run whose output is used, an early return of
   * the failure value, or falling off the loop after two runs without JSON.
   */
  datatype Outcome = Completed(stdout: string) | Aborted | Exhausted

  /**
   * One command call: its outcome, the session afterwards, how many times the
   * authentication script ran (forced or not), and the argument vectors of the
   * command-script runs, in order.
   */
  datatype CallResult = CallResult(outcome: Outcome, session: Session, authRuns: nat, forcedAuths: nat,
                                   scriptRuns: seq<seq<string>>)

  /**
   * What one pass of the loop body does: it stops the loop with an outcome, or
   * goes on to the next attempt. `authRan` says whether the forced
   * re-authentication ran; `argv` is the command run, absent when rendering
   * the extra arguments raised before anything ran.
   */
  datatype StepResult =
    | Stop(outcome: Outcome, session: Session, authRan: bool, argv: Option<seq<string>>)
    | Next(session: Session, authRan: bool, next: seq<string>)

  /** The body of `for attempt in range(2)` for attempt `attempt`, given how the scripts would end. */
  function Step(attempt: nat, s: Session, now: int, ip: string, script: string, extra: Option<seq<string>>,
                needsJson: bool, auth: AuthRun, run: ScriptRun): (r: StepResult)
    requires attempt < 2 && Fresh(s, now)
    ensures r.Stop? ==> !r.outcome.Exhausted? && (!r.outcome.Aborted? ==> Fresh(r.session, now))
    ensures r.Next? ==> Fresh(r.session, now) && (needsJson || r.authRan)
    ensures r.authRan ==> attempt == 0 && run == ProcessError
    ensures !r.authRan ==> r.session == s
    ensures r.Next? ==> |r.next| >= 3 && r.next[..2] == [script, ip]
    ensures r.Stop? && r.argv.Some? ==> |r.argv.value| >= 3 && r.argv.value[..2] == [script, ip]
  {
    if extra.None? then Stop(Aborted, s, false, None)
    else
      var argv := [script, ip, s.id.value] + extra.value;
      match run
      case Raised => Stop(Aborted, s, false, Some(argv))
      case Output(out) =>
        if needsJson && '{' !in out then Next(s, false, argv)
        else Stop(Completed(out), s, false, Some(argv))
      case ProcessError =>
        if attempt == 0 then
          var re := AuthenticateStep(s, true, now, auth);
          if !re.ok then Stop(Aborted, re.after, true, Some(argv))
          else Next(re.after, true, argv)
        else Stop(Aborted, s, false, Some(argv))
  }

  /**
   * The loop `for attempt in range(2)` from attempt `attempt` on. `extra` holds
   * the rendered extra arguments, None where rendering them raises; `auth(k)`
   * and `run(k)` are how the k-th run of each script ends, `authUsed` and
   * `runsUsed` how many ran before.
   */
  function Attempt(attempt: nat, s: Session, now: int, ip: string, script: string, extra: Option<seq<string>>,
                   needsJson: bool, auth: nat -> AuthRun, authUsed: nat, run: nat -> ScriptRun,
                   runsUsed: nat): (c: CallResult)
    requires attempt <= 2 && Fresh(s, now)
    ensures |c.scriptRuns| <= 2 - attempt
    ensures c.authRuns == c.forcedAuths <= (if attempt == 0 then 1 else 0)
    ensures c.forcedAuths == 1 ==> run(runsUsed) == ProcessError
    ensures c.outcome.Exhausted? ==> (needsJson || attempt == 2) && |c.scriptRuns| == 2 - attempt
    ensures !c.outcome.Aborted? ==> Fresh(c.session, now)
    ensures c.forcedAuths == 0 ==> c.session == s
    decreases 2 - attempt
  {
    if attempt == 2 then CallResult(Exhausted, s, 0, 0, [])
    else
      match Step(attempt, s, now, ip, script, extra, needsJson, auth(authUsed), run(runsUsed))
      case Stop(outcome, after, ran, argv) =>
        var n := if ran then 1 else 0;
        CallResult(outcome, after, n, n, if argv.Some? then [argv.value] else [])
      case Next(after, ran, argv) =>
        var n := if ran then 1 else 0;
        var rest := Attempt(attempt + 1, after, now, ip, script, extra, needsJson, auth, authUsed + n, run, runsUsed + 1);
        rest.(authRuns := rest.authRuns + n, forcedAuths := rest.forcedAuths + n, scriptRuns := [argv] + rest.scriptRuns)
  }

  /** A turn of the loop whose step stops it: the loop's result is that step's. */
  lemma {:induction false} AttemptEndsWithStep(attempt: nat, s: Session, now: int, ip: string, script: string,
                            extra: Option<seq<string>>, needsJson: bool, auth: nat -> AuthRun, authUsed: nat,
                            run: nat -> ScriptRun, runsUsed: nat, step: StepResult)
    requires attempt < 2 && Fresh(s, now)
    requires step == Step(attempt, s, now, ip, script, extra, needsJson, auth(authUsed), run(runsUsed))
    requires step.Stop?
    ensures var c := Attempt(attempt, s, now, ip, script, extra, needsJson, auth, authUsed, run, runsUsed);
      && c.outcome == step.outcome && c.session == step.session
      && c.authRuns == (if step.authRan then 1 else 0)
      && c.scriptRuns == (if step.argv.Some? then [step.argv.value] else [])
  {
    var n := if step.authRan then 1 else 0;
    assert Attempt(attempt, s, now, ip, script, extra, needsJson, auth, authUsed, run, runsUsed) ==
      CallResult(step.outcome, step.session, n, n, if step.argv.Some? then [step.argv.value] else []);
  }

  /** A turn of the loop whose step goes on: the step's run, followed by the rest of the loop. */
  lemma {:induction false} AttemptGoesOnAfterStep(attempt: nat, s: Session, now: int, ip: string, script: string,
                               extra: Option<seq<string>>, needsJson: bool, auth: nat -> AuthRun, authUsed: nat,
                               run: nat -> ScriptRun, runsUsed: nat, step: StepResult)
    requires attempt < 2 && Fresh(s, now)
    requires step == Step(attempt, s, now, ip, script, extra, needsJson, auth(authUsed), run(runsUsed))
    requires step.Next?
    ensures var c := Attempt(attempt, s, now, ip, script, extra, needsJson, auth, authUsed, run, runsUsed);
      var n := if step.authRan then 1 else 0;
      var rest := Attempt(attempt + 1, step.session, now, ip, script, extra, needsJson, auth, authUsed + n,
                          run, runsUsed + 1);
      && c.outcome == rest.outcome && c.session == rest.session && c.authRuns == rest.authRuns + n
      && c.scriptRuns == [step.next] + rest.scriptRuns
  {
    var n := if step.authRan then 1 else 0;
    var rest := Attempt(attempt + 1, step.session, now, ip, script, extra, needsJson, auth, authUsed + n,
                        run, runsUsed + 1);
    assert Attempt(attempt, s, now, ip, script, extra, needsJson, auth, authUsed, run, runsUsed) ==
      rest.(authRuns := rest.authRuns + n, forcedAuths := rest.forcedAuths + n,
            scriptRuns := [step.next] + rest.scriptRuns);
  }

  /** Every run the loop makes is given the script, then the camera IP, then the session id and the extra arguments. */
  lemma {:induction false} AttemptRunsCarryScriptAndIp(attempt: nat, s: Session, now: int, ip: string, script: string,
                                                       extra: Option<seq<string>>, needsJson: bool,
                                                       auth: nat -> AuthRun, authUsed: nat, run: nat -> ScriptRun,
                                                       runsUsed: nat)
    requires attempt <= 2 && Fresh(s, now)
    ensures var c := Attempt(attempt, s, now, ip, script, extra, needsJson, auth, authUsed, run, runsUsed);
      forall i :: 0 <= i < |c.scriptRuns| ==> |c.scriptRuns[i]| >= 3 && c.scriptRuns[i][..2] == [script, ip]
    decreases 2 - attempt
  {
    if attempt < 2 {
      var step := Step(attempt, s, now, ip, script, extra, needsJson, auth(authUsed), run(runsUsed));
      if step.Next? {
        var n := if step.authRan then 1 else 0;
        AttemptRunsCarryScriptAndIp(attempt + 1, step.session, now, ip, script, extra, needsJson, auth, authUsed + n,
                                    run, runsUsed + 1);
        AttemptGoesOnAfterStep(attempt, s, now, ip, script, extra, needsJson, auth, authUsed, run, runsUsed, step);
      } else {
        AttemptEndsWithStep(attempt, s, now, ip, script, extra, needsJson, auth, authUsed, run, runsUsed, step);
      }
    }
  }

  /** A whole command call: the proactive `authenticate()`, then the attempt loop. */
  function CommandCall(s: Session, now: int, ip: string, script: string, extra: Option<seq<string>>,
                       needsJson: bool, auth: nat -> AuthRun, authUsed: nat, run: nat -> ScriptRun,
                       runsUsed: nat): (c: CallResult)
    ensures |c.scriptRuns| <= 2 && c.forcedAuths <= 1
    ensures c.authRuns <= 1 + c.forcedAuths
    ensures c.outcome.Exhausted? ==> needsJson
    ensures !c.outcome.Aborted? ==> Fresh(c.session, now)
  {
    var first := AuthenticateStep(s, false, now, auth(authUsed));
    var used := if first.ran then 1 else 0;
    if !first.ok then CallResult(Aborted, first.after, used, 0, [])
    else
      var rest := Attempt(0, first.after, now, ip, script, extra, needsJson, auth, authUsed + used, run, runsUsed);
      rest.(authRuns := rest.authRuns + used)
  }

  /** A whole call: the proactive authentication, followed by the loop when it succeeds. */
  lemma {:induction false} CommandCallThroughAuth(s: Session, now: int, ip: string, script: string, extra: Option<seq<string>>,
                               needsJson: bool, auth: nat -> AuthRun, authUsed: nat, run: nat -> ScriptRun,
                               runsUsed: nat)
    ensures var first := AuthenticateStep(s, false, now, auth(authUsed));
      var n := if first.ran then 1 else 0;
      var c := CommandCall(s, now, ip, script, extra, needsJson, auth, authUsed, run, runsUsed);
      && (!first.ok ==> c == CallResult(Aborted, first.after, n, 0, []))
      && (first.ok ==>
            var rest := Attempt(0, first.after, now, ip, script, extra, needsJson, auth, authUsed + n, run, runsUsed);
            c == rest.(authRuns := rest.authRuns + n))
  {
  }

  /** Every run a whole call makes is given the script, then the camera IP. */
  lemma {:induction false} CommandCallRunsCarryScriptAndIp(s: Session, now: int, ip: string, script: string,
                                        extra: Option<seq<string>>, needsJson: bool, auth: nat -> AuthRun,
                                        authUsed: nat, run: nat -> ScriptRun, runsUsed: nat)
    ensures var c := CommandCall(s, now, ip, script, extra, needsJson, auth, authUsed, run, runsUsed);
      forall i :: 0 <= i < |c.scriptRuns| ==> |c.scriptRuns[i]| >= 3 && c.scriptRuns[i][..2] == [script, ip]
  {
    var first := AuthenticateStep(s, false, now, auth(authUsed));
    CommandCallThroughAuth(s, now, ip, script, extra, needsJson, auth, authUsed, run, runsUsed);
    if first.ok {
      AttemptRunsCarryScriptAndIp(0, first.after, now, ip, script, extra, needsJson, auth,
                                  authUsed + (if first.ran then 1 else 0), run, runsUsed);
    }
  }

  /** When the proactive authentication fails, no command script runs. */
  lemma {:induction false} NoRunWithoutAuthentication(s: Session, now: int, ip: string, script: string, extra: Option<seq<string>>,
                                   needsJson: bool, auth: nat -> AuthRun, authUsed: nat,
                                   run: nat -> ScriptRun, runsUsed: nat)
    requires !AuthenticateStep(s, false, now, auth(authUsed)).ok
    ensures var c := CommandCall(s, now, ip, script, extra, needsJson, auth, authUsed, run, runsUsed);
      c.outcome == Aborted && c.scriptRuns == [] && c.forcedAuths == 0 && !HasSession(c.session)
  {
  }

  /** A forced re-authentication happens only after the first run exits with an error. */
  lemma {:induction false} ForcedOnlyAfterProcessError(s: Session, now: int, ip: string, script: string, extra: Option<seq<string>>,
                                    needsJson: bool, auth: nat -> AuthRun, authUsed: nat,
                                    run: nat -> ScriptRun, runsUsed: nat)
    requires CommandCall(s, now, ip, script, extra, needsJson, auth, authUsed, run, runsUsed).forcedAuths > 0
    ensures AuthenticateStep(s, false, now, auth(authUsed)).ok
    ensures run(runsUsed) == ProcessError
  {
  }

  /** Output with no JSON object is skipped without re-authenticating; two such runs fall off the loop. */
  lemma {:induction false} NoJsonIsSkippedWithoutReauth(s: Session, now: int, ip: string, script: string, extra: seq<string>,
                                     auth: nat -> AuthRun, authUsed: nat, run: nat -> ScriptRun, runsUsed: nat)
    requires Fresh(s, now)
    requires run(runsUsed).Output? && '{' !in run(runsUsed).stdout
    requires run(runsUsed + 1).Output? && '{' !in run(runsUsed + 1).stdout
    ensures var c := CommandCall(s, now, ip, script, Some(extra), true, auth, authUsed, run, runsUsed);
      && c.outcome == Exhausted
      && c.authRuns == 0 && c.forcedAuths == 0
      && c.session == s
      && c.scriptRuns == [[script, ip, s.id.value] + extra, [script, ip, s.id.value] + extra]
  {
  }

  /** Any exception other than a failed exit aborts at once, without a retry. */
  lemma {:induction false} OtherExceptionAbortsAtOnce(s: Session, now: int, ip: string, script: string, extra: seq<string>,
                                   needsJson: bool, auth: nat -> AuthRun, authUsed: nat,
                                   run: nat -> ScriptRun, runsUsed: nat)
    requires Fresh(s, now) && run(runsUsed) == Raised
    ensures var c := CommandCall(s, now, ip, script, Some(extra), needsJson, auth, authUsed, run, runsUsed);
      c.outcome == Aborted && |c.scriptRuns| == 1 && c.forcedAuths == 0 && c.session == s
  {
  }

  /**
   * A failed exit, a successful forced re-authentication and a good second run:
   * the call completes, and the second run carries the new session id.
   */
  lemma {:induction false} RetryUsesRenewedSession(s: Session, now: int, ip: string, script: string, extra: seq<string>,
                                needsJson: bool, auth: nat -> AuthRun, authUsed: nat,
                                run: nat -> ScriptRun, runsUsed: nat, newId: string, out: string)
    requires Fresh(s, now) && run(runsUsed) == ProcessError
    requires auth(authUsed).Exited? && auth(authUsed).code == 0 && Strip(auth(authUsed).stdout) == newId != ""
    requires run(runsUsed + 1) == Output(out) && (needsJson ==> '{' in out)
    ensures var c := CommandCall(s, now, ip, script, Some(extra), needsJson, auth, authUsed, run, runsUsed);
      && c.outcome == Completed(out)
      && c.authRuns == 1 && c.forcedAuths == 1
      && c.session == Session(Some(newId), now)
      && c.scriptRuns == [[script, ip, s.id.value] + extra, [script, ip, newId] + extra]
  {
  }

  /** A failed forced re-authentication ends the call; the second run never happens. */
  lemma {:induction false} FailedReauthAborts(s: Session, now: int, ip: string, script: string, extra: seq<string>,
                           needsJson: bool, auth: nat -> AuthRun, authUsed: nat,
                           run: nat -> ScriptRun, runsUsed: nat)
    requires Fresh(s, now) && run(runsUsed) == ProcessError
    requires !AuthenticateStep(s, true, now, auth(authUsed)).ok
    ensures var c := CommandCall(s, now, ip, script, Some(extra), needsJson, auth, authUsed, run, runsUsed);
      c.outcome == Aborted && |c.scriptRuns| == 1 && c.authRuns == 1 && !HasSession(c.session)
  {
  }

  /** Two failed exits in a row give up after the second run. */
  lemma {:induction false} SecondProcessErrorGivesUp(s: Session, now: int, ip: string, script: string, extra: seq<string>,
                                  needsJson: bool, auth: nat -> AuthRun, authUsed: nat,
                                  run: nat -> ScriptRun, runsUsed: nat)
    requires Fresh(s, now) && run(runsUsed) == ProcessError && run(runsUsed + 1) == ProcessError
    requires AuthenticateStep(s, true, now, auth(authUsed)).ok
    ensures var c := CommandCall(s, now, ip, script, Some(extra), needsJson, auth, authUsed, run, runsUsed);
      c.outcome == Aborted && |c.scriptRuns| == 2 && c.authRuns == 1 && c.forcedAuths == 1
  {
  }

  /** The log entries a call leaves behind: its authentication runs and its script runs, appended. */
  predicate Recorded(c: CallResult, authArgv: seq<string>, authBefore: seq<seq<string>>, authAfter: seq<seq<string>>,
                     runsBefore: seq<seq<string>>, runsAfter: seq<seq<string>>)
  {
    && runsAfter == runsBefore + c.scriptRuns
    && |authAfter| == |authBefore| + c.authRuns
    && authAfter[..|authBefore|] == authBefore
    && forall i :: |authBefore| <= i < |authAfter| ==> authAfter[i] == authArgv
  }

  /** The log after the proactive authentication alone. */
  lemma {:induction false} RecordedAuthOnly(c: CallResult, authArgv: seq<string>, authBefore: seq<seq<string>>, ran: bool,
                         runs: seq<seq<string>>)
    requires c.scriptRuns == [] && c.authRuns == (if ran then 1 else 0)
    ensures Recorded(c, authArgv, authBefore, authBefore + (if ran then [authArgv] else []), runs, runs)
  {
  }

  /** Logs of the proactive authentication followed by the loop's logs. */
  lemma {:induction false} RecordedAfterAuth(rest: CallResult, n: nat, authArgv: seq<string>, auth0: seq<seq<string>>,
                          auth1: seq<seq<string>>, auth2: seq<seq<string>>, runs0: seq<seq<string>>,
                          runs2: seq<seq<string>>)
    requires |auth1| == |auth0| + n && auth1[..|auth0|] == auth0
    requires forall i :: |auth0| <= i < |auth1| ==> auth1[i] == authArgv
    requires Recorded(rest, authArgv, auth1, auth2, runs0, runs2)
    ensures Recorded(rest.(authRuns := rest.authRuns + n), authArgv, auth0, auth2, runs0, runs2)
  {
    assert auth2[..|auth0|] == auth2[..|auth1|][..|auth0|];
  }

  /** A call whose proactive authentication fails leaves only that authentication in the logs. */
  lemma {:induction false} CallRecordedWithoutRuns(s: Session, now: int, ip: string, script: string, extra: Option<seq<string>>,
                                needsJson: bool, auth: nat -> AuthRun, run: nat -> ScriptRun,
                                authArgv: seq<string>, auth0: seq<seq<string>>, runs: seq<seq<string>>)
    requires !AuthenticateStep(s, false, now, auth(|auth0|)).ok
    ensures var first := AuthenticateStep(s, false, now, auth(|auth0|));
      var c := CommandCall(s, now, ip, script, extra, needsJson, auth, |auth0|, run, |runs|);
      && c.outcome == Aborted && c.session == first.after
      && Recorded(c, authArgv, auth0, auth0 + (if first.ran then [authArgv] else []), runs, runs)
  {
    var first := AuthenticateStep(s, false, now, auth(|auth0|));
    CommandCallThroughAuth(s, now, ip, script, extra, needsJson, auth, |auth0|, run, |runs|);
    RecordedAuthOnly(CallResult(Aborted, first.after, if first.ran then 1 else 0, 0, []),
                     authArgv, auth0, first.ran, runs);
  }

  /** A call whose proactive authentication succeeds leaves that authentication and then the loop's logs. */
  lemma {:induction false} CallRecordedAfterLoop(s: Session, now: int, ip: string, script: string, extra: Option<seq<string>>,
                              needsJson: bool, auth: nat -> AuthRun, run: nat -> ScriptRun,
                              authArgv: seq<string>, auth0: seq<seq<string>>, auth1: seq<seq<string>>,
                              auth2: seq<seq<string>>, runs0: seq<seq<string>>, runs2: seq<seq<string>>)
    requires AuthenticateStep(s, false, now, auth(|auth0|)).ok
    requires auth1 == auth0 + (if AuthenticateStep(s, false, now, auth(|auth0|)).ran then [authArgv] else [])
    requires Recorded(Attempt(0, AuthenticateStep(s, false, now, auth(|auth0|)).after, now, ip, script, extra,
                              needsJson, auth, |auth1|, run, |runs0|),
                      authArgv, auth1, auth2, runs0, runs2)
    ensures var first := AuthenticateStep(s, false, now, auth(|auth0|));
      var rest := Attempt(0, first.after, now, ip, script, extra, needsJson, auth, |auth1|, run, |runs0|);
      var c := CommandCall(s, now, ip, script, extra, needsJson, auth, |auth0|, run, |runs0|);
      && c.outcome == rest.outcome && c.session == rest.session
      && Recorded(c, authArgv, auth0, auth2, runs0, runs2)
  {
    var first := AuthenticateStep(s, false, now, auth(|auth0|));
    var n := if first.ran then 1 else 0;
    assert |auth1| == |auth0| + n;
    assert auth1[..|auth0|] == auth0;
    var rest := Attempt(0, first.after, now, ip, script, extra, needsJson, auth, |auth1|, run, |runs0|);
    CommandCallThroughAuth(s, now, ip, script, extra, needsJson, auth, |auth0|, run, |runs0|);
    assert CommandCall(s, now, ip, script, extra, needsJson, auth, |auth0|, run, |runs0|) ==
      rest.(authRuns := rest.authRuns + n);
    RecordedAfterAuth(rest, n, authArgv, auth0, auth1, auth2, runs0, runs2);
  }

  /**
   * Part way through the loop: the logs so far plus what the remaining
   * attempts `rest` would add make up the whole call `goal`.
   */
  predicate Continues(goal: CallResult, rest: CallResult, authArgv: seq<string>, auth0: seq<seq<string>>,
                      authNow: seq<seq<string>>, runs0: seq<seq<string>>, runsNow: seq<seq<string>>)
  {
    && goal.outcome == rest.outcome && goal.session == rest.session
    && |auth0| <= |authNow| && authNow[..|auth0|] == auth0
    && (forall i :: |auth0| <= i < |authNow| ==> authNow[i] == authArgv)
    && goal.authRuns == |authNow| - |auth0| + rest.authRuns
    && |runs0| <= |runsNow| && runsNow[..|runs0|] == runs0
    && goal.scriptRuns == runsNow[|runs0|..] + rest.scriptRuns
  }

  lemma {:induction false} ContinuesAtStart(goal: CallResult, authArgv: seq<string>, auth0: seq<seq<string>>, runs0: seq<seq<string>>)
    ensures Continues(goal, goal, authArgv, auth0, auth0, runs0, runs0)
  {
    assert runs0[|runs0|..] == [];
  }

  /** One attempt that hands over to the next keeps the logs in step. */
  lemma {:induction false} ContinuesThroughAttempt(goal: CallResult, before: CallResult, after: CallResult, ran: bool,
                                next: seq<string>, authArgv: seq<string>, auth0: seq<seq<string>>,
                                auth1: seq<seq<string>>, runs0: seq<seq<string>>, runs1: seq<seq<string>>)
    requires Continues(goal, before, authArgv, auth0, auth1, runs0, runs1)
    requires before.outcome == after.outcome && before.session == after.session
    requires before.authRuns == after.authRuns + (if ran then 1 else 0)
    requires before.scriptRuns == [next] + after.scriptRuns
    ensures Continues(goal, after, authArgv, auth0, auth1 + (if ran then [authArgv] else []),
                      runs0, runs1 + [next])
  {
    var auth2 := auth1 + (if ran then [authArgv] else []);
    assert auth2[..|auth0|] == auth1[..|auth0|];
    assert (runs1 + [next])[|runs0|..] == runs1[|runs0|..] + [next];
    assert (runs1 + [next])[..|runs0|] == runs1[..|runs0|];
  }

  /** An attempt that ends the loop completes the record of the call. */
  lemma {:induction false} RecordedAtStop(goal: CallResult, last: CallResult, ran: bool, argv: seq<seq<string>>,
                       authArgv: seq<string>, auth0: seq<seq<string>>, auth1: seq<seq<string>>,
                       runs0: seq<seq<string>>, runs1: seq<seq<string>>)
    requires Continues(goal, last, authArgv, auth0, auth1, runs0, runs1)
    requires last.authRuns == (if ran then 1 else 0) && last.scriptRuns == argv
    ensures Recorded(goal, authArgv, auth0, auth1 + (if ran then [authArgv] else []), runs0, runs1 + argv)
  {
    var auth2 := auth1 + (if ran then [authArgv] else []);
    assert auth2[..|auth0|] == auth1[..|auth0|];
    assert runs1 == runs0 + runs1[|runs0|..];
  }

  /** An attempt whose step stops the loop completes the record of the call. */
  lemma {:induction false} AttemptStops(goal: CallResult, attempt: nat, s: Session, now: int, ip: string, script: string,
                     extra: Option<seq<string>>, needsJson: bool, auth: nat -> AuthRun,
                     run: nat -> ScriptRun, step: StepResult, authArgv: seq<string>,
                     auth0: seq<seq<string>>, auth1: seq<seq<string>>, runs0: seq<seq<string>>,
                     runs1: seq<seq<string>>)
    requires attempt < 2 && Fresh(s, now)
    requires Continues(goal, Attempt(attempt, s, now, ip, script, extra, needsJson, auth, |auth1|, run, |runs1|),
                       authArgv, auth0, auth1, runs0, runs1)
    requires step == Step(attempt, s, now, ip, script, extra, needsJson, auth(|auth1|), run(|runs1|))
    requires step.Stop?
    ensures step.outcome == goal.outcome && step.session == goal.session
    ensures Recorded(goal, authArgv, auth0, auth1 + (if step.authRan then [authArgv] else []),
                     runs0, runs1 + (if step.argv.Some? then [step.argv.value] else []))
  {
    var before := Attempt(attempt, s, now, ip, script, extra, needsJson, auth, |auth1|, run, |runs1|);
    AttemptEndsWithStep(attempt, s, now, ip, script, extra, needsJson, auth, |auth1|, run, |runs1|, step);
    RecordedAtStop(goal, before, step.authRan, if step.argv.Some? then [step.argv.value] else [],
                   authArgv, auth0, auth1, runs0, runs1);
  }

  /** An attempt whose step goes on keeps the logs in step with the remaining attempts. */
  lemma {:induction false} AttemptGoesOn(goal: CallResult, attempt: nat, s: Session, now: int, ip: string, script: string,
                      extra: Option<seq<string>>, needsJson: bool, auth: nat -> AuthRun,
                      run: nat -> ScriptRun, step: StepResult, authArgv: seq<string>,
                      auth0: seq<seq<string>>, auth1: seq<seq<string>>, runs0: seq<seq<string>>,
                      runs1: seq<seq<string>>)
    requires attempt < 2 && Fresh(s, now)
    requires Continues(goal, Attempt(attempt, s, now, ip, script, extra, needsJson, auth, |auth1|, run, |runs1|),
                       authArgv, auth0, auth1, runs0, runs1)
    requires step == Step(attempt, s, now, ip, script, extra, needsJson, auth(|auth1|), run(|runs1|))
    requires step.Next?
    ensures var auth2 := auth1 + (if step.authRan then [authArgv] else []);
      Continues(goal, Attempt(attempt + 1, step.session, now, ip, script, extra, needsJson, auth, |auth2|, run,
                              |runs1| + 1),
                authArgv, auth0, auth2, runs0, runs1 + [step.next])
  {
    var n := if step.authRan then 1 else 0;
    var auth2 := auth1 + (if step.authRan then [authArgv] else []);
    assert |auth2| == |auth1| + n;
    AttemptGoesOnAfterStep(attempt, s, now, ip, script, extra, needsJson, auth, |auth1|, run, |runs1|, step);
    ContinuesThroughAttempt(goal, Attempt(attempt, s, now, ip, script, extra, needsJson, auth, |auth1|, run, |runs1|),
                            Attempt(attempt + 1, step.session, now, ip, script, extra, needsJson, auth, |auth1| + n,
                                    run, |runs1| + 1),
                            step.authRan, step.next, authArgv, auth0, auth1, runs0, runs1);
  }

  /**
   * One attempt keeps the record of the loop: with the step's logs appended,
   * a stopping step completes the record of the whole call, and a step that
   * goes on leaves the rest of the loop to complete it.
   */
  lemma {:induction false} AttemptKeepsRecord(goal: CallResult, attempt: nat, s: Session, now: int, ip: string, script: string,
                           extra: Option<seq<string>>, needsJson: bool, auth: nat -> AuthRun,
                           run: nat -> ScriptRun, step: StepResult, authArgv: seq<string>,
                           auth0: seq<seq<string>>, auth1: seq<seq<string>>, runs0: seq<seq<string>>,
                           runs1: seq<seq<string>>)
    requires attempt < 2 && Fresh(s, now)
    requires Continues(goal, Attempt(attempt, s, now, ip, script, extra, needsJson, auth, |auth1|, run, |runs1|),
                       authArgv, auth0, auth1, runs0, runs1)
    requires step == Step(attempt, s, now, ip, script, extra, needsJson, auth(|auth1|), run(|runs1|))
    ensures var auth2 := auth1 + (if step.authRan then [authArgv] else []);
      var runs2 := runs1 + (if step.Next? then [step.next] else if step.argv.Some? then [step.argv.value] else []);
      && (step.Stop? ==>
            && step.outcome == goal.outcome && step.session == goal.session
            && Recorded(goal, authArgv, auth0, auth2, runs0, runs2))
      && (step.Next? ==>
            && Fresh(step.session, now)
            && Continues(goal, Attempt(attempt + 1, step.session, now, ip, script, extra, needsJson, auth, |auth2|,
                                       run, |runs2|),
                         authArgv, auth0, auth2, runs0, runs2))
  {
    if step.Stop? {
      AttemptStops(goal, attempt, s, now, ip, script, extra, needsJson, auth, run, step, authArgv,
                   auth0, auth1, runs0, runs1);
    } else {
      AttemptGoesOn(goal, attempt, s, now, ip, script, extra, needsJson, auth, run, step, authArgv,
                    auth0, auth1, runs0, runs1);
    }
  }

  /** The JSON text the command methods decode: the output from its first "{" on. */
  function JsonTail(out: string): (r: string)
    requires '{' in out
    ensures |r| > 0 && r[0] == '{' && |r| <= |out| && r == out[|out| - |r|..]
    ensures '{' !in out[..|out| - |r|]
  {
    out[IndexOf(out, '{')..]
  }

  /**
   * A decoded response: `json.loads` followed by the two-level `.get` lookups,
   * with scalar members rendered as text; the decoder yields None where that raises.
   */
  type Document = map<string, map<string, string>>

  /** `data.get(section, {}).get(key)`. */
  function Field(doc: Document, section: string, key: string): Option<string> {
    if section in doc && key in doc[section] then Some(doc[section][key]) else None
  }

  /** What `get_degree_pos` returns: a pair (either part may be None), or a bare None. */
  datatype DegreeResult = Pair(azimuth: Option<string>, elevation: Option<string>) | NoneReturned

  /** The value `get_degree_pos` returns for an outcome of its attempt loop. */
  function DegreeReading(outcome: Outcome, decode: string -> Option<Document>): (r: DegreeResult)
    ensures outcome.Aborted? ==> r == Pair(None, None)
    ensures outcome.Exhausted? ==> r == NoneReturned
    ensures outcome.Completed? && '{' in outcome.stdout && decode(JsonTail(outcome.stdout)).Some? ==>
      var doc := decode(JsonTail(outcome.stdout)).value;
      r == Pair(Field(doc, "PTAzimuthElevationGet", "Azimuth"), Field(doc, "PTAzimuthElevationGet", "Elevation"))
    ensures outcome.Completed? && ('{' !in outcome.stdout || decode(JsonTail(outcome.stdout)).None?) ==>
      r == Pair(None, None)
    ensures r.NoneReturned? <==> outcome.Exhausted?
  {
    match outcome
    case Aborted => Pair(None, None)
    case Exhausted => NoneReturned
    case Completed(out) =>
      if '{' !in out then Pair(None, None)
      else
        match decode(JsonTail(out))
        case None => Pair(None, None)
        case Some(doc) =>
          Pair(Field(doc, "PTAzimuthElevationGet", "Azimuth"), Field(doc, "PTAzimuthElevationGet", "Elevation"))
  }

  /** The value `get_zoom` returns: the converted magnification, or None. */
  function ZoomReading<F>(outcome: Outcome, decode: string -> Option<Document>, toFloat: string -> Option<F>): (r: Option<F>)
    ensures r.Some? <==>
      && outcome.Completed? && '{' in outcome.stdout
      && decode(JsonTail(outcome.stdout)).Some?
      && Field(decode(JsonTail(outcome.stdout)).value, "DLTVFOVMagnificationGet", "Magnification").Some?
      && toFloat(Field(decode(JsonTail(outcome.stdout)).value, "DLTVFOVMagnificationGet", "Magnification").value).Some?
    ensures r.Some? ==>
      r == toFloat(Field(decode(JsonTail(outcome.stdout)).value, "DLTVFOVMagnificationGet", "Magnification").value)
  {
    if !outcome.Completed? || '{' !in outcome.stdout then None
    else
      match decode(JsonTail(outcome.stdout))
      case None => None
      case Some(doc) =>
        match Field(doc, "DLTVFOVMagnificationGet", "Magnification")
        case None => None
        case Some(z) => toFloat(z)
  }

  /** The value `get_speed` returns: both converted speeds, or None. */
  function SpeedReading<F>(outcome: Outcome, decode: string -> Option<Document>, toFloat: string -> Option<F>): (r: Option<(F, F)>)
    ensures r.Some? ==> outcome.Completed? && '{' in outcome.stdout && decode(JsonTail(outcome.stdout)).Some?
    ensures r.Some? ==>
      var doc := decode(JsonTail(outcome.stdout)).value;
      && Field(doc, "PTSpeedGet", "Azimuth_Speed").Some? && Field(doc, "PTSpeedGet", "Elevation_Speed").Some?
      && toFloat(Field(doc, "PTSpeedGet", "Azimuth_Speed").value) == Some(r.value.0)
      && toFloat(Field(doc, "PTSpeedGet", "Elevation_Speed").value) == Some(r.value.1)
    ensures outcome.Completed? && '{' in outcome.stdout && decode(JsonTail(outcome.stdout)).Some? ==>
      var doc := decode(JsonTail(outcome.stdout)).value;
      var az := Field(doc, "PTSpeedGet", "Azimuth_Speed");
      var el := Field(doc, "PTSpeedGet", "Elevation_Speed");
      az.Some? && el.Some? && toFloat(az.value).Some? && toFloat(el.value).Some? ==>
        r == Some((toFloat(az.value).value, toFloat(el.value).value))
  {
    if !outcome.Completed? || '{' !in outcome.stdout then None
    else
      match decode(JsonTail(outcome.stdout))
      case None => None
      case Some(doc) =>
        var az := Field(doc, "PTSpeedGet", "Azimuth_Speed");
        var el := Field(doc, "PTSpeedGet", "Elevation_Speed");
        if az.None? || el.None? then None
        else
          match (toFloat(az.value), toFloat(el.value))
          case (Some(a), Some(e)) => Some((a, e))
          case _ => None
  }

  /** The scripts: fixed answers indexed by call number, and a log of every argument vector. */
  class ScriptOracle {
    const authAnswer: nat -> AuthRun
    const runAnswer: nat -> ScriptRun
    var authCalls: seq<seq<string>>
    var runs: seq<seq<string>>

    constructor(authAnswer: nat -> AuthRun, runAnswer: nat -> ScriptRun)
      ensures this.authAnswer == authAnswer && this.runAnswer == runAnswer
      ensures authCalls == [] && runs == []
    {
      this.authAnswer := authAnswer;
      this.runAnswer := runAnswer;
      authCalls := [];
      runs := [];
    }

    /** `subprocess.Popen(...).communicate()` on the authentication script. */
    method RunAuth(argv: seq<string>) returns (r: AuthRun)
      modifies this
      ensures r == authAnswer(|old(authCalls)|)
      ensures authCalls == old(authCalls) + [argv] && runs == old(runs)
    {
      r := authAnswer(|authCalls|);
      authCalls := authCalls + [argv];
    }

    /** `subprocess.run(argv, check=True)` on a command script. */
    method Run(argv: seq<string>) returns (r: ScriptRun)
      modifies this
      ensures r == runAnswer(|old(runs)|)
      ensures runs == old(runs) + [argv] && authCalls == old(authCalls)
    {
      r := runAnswer(|runs|);
      runs := runs + [argv];
    }
  }

  /** `CameraControl`. Script paths are given already resolved. */
  class CameraControl {
    const authScript: string
    const getDegreeScript: string
    const getZoomScript: string
    const setZoomScript: string
    const moveScript: string
    const getSpeedScript: string
    var cameraIp: string
    var sessionId: Option<string>
    var lastAuthTime: int

    constructor(authScript: string, getDegreeScript: string, getZoomScript: string, getSpeedScript: string,
                moveScript: string, setZoomScript: string, cameraIp: Option<string>)
      ensures this.authScript == authScript && this.getDegreeScript == getDegreeScript
      ensures this.getZoomScript == getZoomScript && this.getSpeedScript == getSpeedScript
      ensures this.moveScript == moveScript && this.setZoomScript == setZoomScript
      ensures this.cameraIp == (if cameraIp.Some? && cameraIp.value != "" then cameraIp.value else FLIR2_IP)
      ensures Current() == Session(None, 0)
    {
      this.authScript := authScript;
      this.getDegreeScript := getDegreeScript;
      this.getZoomScript := getZoomScript;
      this.getSpeedScript := getSpeedScript;
      this.moveScript := moveScript;
      this.setZoomScript := setZoomScript;
      this.cameraIp := if cameraIp.Some? && cameraIp.value != "" then cameraIp.value else FLIR2_IP;
      sessionId := None;
      lastAuthTime := 0;
    }

    function Current(): Session
      reads this
    {
      Session(sessionId, lastAuthTime)
    }

    predicate IsSessionExpired(now: int)
      reads this
    {
      Expired(Current(), now)
    }

    /**
     * `set_camera_ip`: an empty address is refused (the ValueError, as false);
     * the same address keeps the session; a new one drops it.
     */
    method SetCameraIp(ipAddress: string) returns (accepted: bool)
      modifies this
      ensures accepted <==> ipAddress != ""
      ensures !accepted || ipAddress == old(cameraIp) ==> cameraIp == old(cameraIp) && Current() == old(Current())
      ensures accepted && ipAddress != old(cameraIp) ==> cameraIp == ipAddress && Current() == Session(None, 0)
    {
      if ipAddress == "" {
        return false;
      }
      if ipAddress != cameraIp {
        cameraIp := ipAddress;
        sessionId := None;
        lastAuthTime := 0;
      }
      return true;
    }

    /** `authenticate(force_auth)`, reading the clock once as `now`. */
    method Authenticate(force: bool, now: int, o: ScriptOracle) returns (ok: bool)
      modifies this, o
      ensures var a := AuthenticateStep(old(Current()), force, now, o.authAnswer(|old(o.authCalls)|));
        && ok == a.ok
        && Current() == a.after
        && o.authCalls == (if a.ran then old(o.authCalls) + [[authScript, cameraIp]] else old(o.authCalls))
      ensures o.runs == old(o.runs) && cameraIp == old(cameraIp)
    {
      if !force && HasSession(Current()) && !IsSessionExpired(now) {
        return true;
      }
      var run := o.RunAuth([authScript, cameraIp]);
      match run {
        case Crashed =>
          sessionId := None;
          return false;
        case Exited(code, out) =>
          if code != 0 {
            sessionId := None;
            return false;
          }
          sessionId := Some(Strip(out));
          if sessionId.value == "" {
            return false;
          }
          lastAuthTime := now;
          return true;
      }
    }

    /** One pass of the attempt loop's body, run against the scripts. */
    method AttemptOnce(attempt: nat, script: string, extra: Option<seq<string>>, needsJson: bool, now: int,
                       o: ScriptOracle) returns (step: StepResult)
      requires attempt < 2 && Fresh(Current(), now)
      modifies this, o
      ensures step == Step(attempt, old(Current()), now, cameraIp, script, extra, needsJson,
                           o.authAnswer(|old(o.authCalls)|), o.runAnswer(|old(o.runs)|))
      ensures Current() == step.session && cameraIp == old(cameraIp)
      ensures o.authCalls == old(o.authCalls) + (if step.authRan then [[authScript, cameraIp]] else [])
      ensures o.runs == old(o.runs) + (if step.Next? then [step.next]
                                       else if step.argv.Some? then [step.argv.value] else [])
    {
      if extra.None? {
        return Stop(Aborted, Current(), false, None);
      }
      var argv := [script, cameraIp, sessionId.value] + extra.value;
      var run := o.Run(argv);
      match run {
        case Raised =>
          step := Stop(Aborted, Current(), false, Some(argv));
        case Output(out) =>
          if needsJson && '{' !in out {
            step := Next(Current(), false, argv);
          } else {
            step := Stop(Completed(out), Current(), false, Some(argv));
          }
        case ProcessError =>
          if attempt == 0 {
            var reauthed := Authenticate(true, now, o);
            if !reauthed {
              step := Stop(Aborted, Current(), true, Some(argv));
            } else {
              step := Next(Current(), true, argv);
            }
          } else {
            step := Stop(Aborted, Current(), false, Some(argv));
          }
      }
    }

    /**
     * One pass of the loop body inside the loop: `goal` is the whole loop's
     * result, and the logs so far are its first part.
     */
    method AttemptInLoop(attempt: nat, script: string, extra: Option<seq<string>>, needsJson: bool, now: int,
                         o: ScriptOracle, ghost goal: CallResult, ghost auth0: seq<seq<string>>,
                         ghost runs0: seq<seq<string>>) returns (step: StepResult)
      requires attempt < 2 && Fresh(Current(), now)
      requires Continues(goal, Attempt(attempt, Current(), now, cameraIp, script, extra, needsJson,
                                       o.authAnswer, |o.authCalls|, o.runAnswer, |o.runs|),
                         [authScript, cameraIp], auth0, o.authCalls, runs0, o.runs)
      modifies this, o
      ensures cameraIp == old(cameraIp)
      ensures step.Stop? ==>
        && step.outcome == goal.outcome && Current() == goal.session
        && Recorded(goal, [authScript, cameraIp], auth0, o.authCalls, runs0, o.runs)
      ensures step.Next? ==>
        && Fresh(Current(), now)
        && Continues(goal, Attempt(attempt + 1, Current(), now, cameraIp, script, extra, needsJson,
                                   o.authAnswer, |o.authCalls|, o.runAnswer, |o.runs|),
                     [authScript, cameraIp], auth0, o.authCalls, runs0, o.runs)
    {
      ghost var authBefore := o.authCalls;
      ghost var runsBefore := o.runs;
      ghost var sBefore := Current();
      step := AttemptOnce(attempt, script, extra, needsJson, now, o);
      AttemptKeepsRecord(goal, attempt, sBefore, now, cameraIp, script, extra, needsJson, o.authAnswer, o.runAnswer,
                         step, [authScript, cameraIp], auth0, authBefore, runs0, runsBefore);
    }

    /** `for attempt in range(2)`, entered with a fresh session. */
    method AttemptLoop(script: string, extra: Option<seq<string>>, needsJson: bool, now: int, o: ScriptOracle)
      returns (outcome: Outcome)
      requires Fresh(Current(), now)
      modifies this, o
      ensures var c := Attempt(0, old(Current()), now, cameraIp, script, extra, needsJson,
                               o.authAnswer, |old(o.authCalls)|, o.runAnswer, |old(o.runs)|);
        && outcome == c.outcome
        && Current() == c.session
        && Recorded(c, [authScript, cameraIp], old(o.authCalls), o.authCalls, old(o.runs), o.runs)
      ensures cameraIp == old(cameraIp)
    {
      ghost var goal := Attempt(0, Current(), now, cameraIp, script, extra, needsJson,
                                o.authAnswer, |o.authCalls|, o.runAnswer, |o.runs|);
      ghost var auth0 := o.authCalls;
      ghost var runs0 := o.runs;
      ContinuesAtStart(goal, [authScript, cameraIp], auth0, runs0);
      for attempt := 0 to 2
        invariant cameraIp == old(cameraIp)
        invariant Fresh(Current(), now)
        invariant Continues(goal, Attempt(attempt, Current(), now, cameraIp, script, extra, needsJson,
                                          o.authAnswer, |o.authCalls|, o.runAnswer, |o.runs|),
                            [authScript, cameraIp], auth0, o.authCalls, runs0, o.runs)
      {
        var step := AttemptInLoop(attempt, script, extra, needsJson, now, o, goal, auth0, runs0);
        if step.Stop? {
          return step.outcome;
        }
      }
      RecordedAtStop(goal, Attempt(2, Current(), now, cameraIp, script, extra, needsJson,
                                   o.authAnswer, |o.authCalls|, o.runAnswer, |o.runs|),
                     false, [], [authScript, cameraIp], auth0, o.authCalls, runs0, o.runs);
      return Exhausted;
    }

    /**
     * The shape shared by every command method: the proactive authentication,
     * then the attempt loop with one forced re-authentication after a failed
     * exit on the first attempt.
     */
    method RunWithRetry(script: string, extra: Option<seq<string>>, needsJson: bool, now: int, o: ScriptOracle)
      returns (outcome: Outcome)
      modifies this, o
      ensures var c := CommandCall(old(Current()), now, cameraIp, script, extra, needsJson,
                                   o.authAnswer, |old(o.authCalls)|, o.runAnswer, |old(o.runs)|);
        && outcome == c.outcome
        && Current() == c.session
        && Recorded(c, [authScript, cameraIp], old(o.authCalls), o.authCalls, old(o.runs), o.runs)
      ensures cameraIp == old(cameraIp)
    {
      ghost var s0 := Current();
      ghost var auth0 := o.authCalls;
      ghost var runs0 := o.runs;
      var ok := Authenticate(false, now, o);
      if !ok {
        CallRecordedWithoutRuns(s0, now, cameraIp, script, extra, needsJson, o.authAnswer, o.runAnswer,
                                [authScript, cameraIp], auth0, runs0);
        return Aborted;
      }
      ghost var auth1 := o.authCalls;
      outcome := AttemptLoop(script, extra, needsJson, now, o);
      CallRecordedAfterLoop(s0, now, cameraIp, script, extra, needsJson, o.authAnswer, o.runAnswer,
                            [authScript, cameraIp], auth0, auth1, o.authCalls, runs0, o.runs);
    }

    /** `get_degree_pos`. */
    method GetDegreePos(now: int, o: ScriptOracle, decode: string -> Option<Document>) returns (r: DegreeResult)
      modifies this, o
      ensures var c := CommandCall(old(Current()), now, cameraIp, getDegreeScript, Some([]), true,
                                   o.authAnswer, |old(o.authCalls)|, o.runAnswer, |old(o.runs)|);
        && r == DegreeReading(c.outcome, decode)
        && Current() == c.session
        && Recorded(c, [authScript, cameraIp], old(o.authCalls), o.authCalls, old(o.runs), o.runs)
      ensures cameraIp == old(cameraIp)
    {
      var outcome := RunWithRetry(getDegreeScript, Some([]), true, now, o);
      r := DegreeReading(outcome, decode);
    }

    /**
     * `move_camera_to_absolute_pos`; `rendered` holds the four `:.2f` arguments,
     * None where formatting them raises.
     */
    method MoveCameraToAbsolutePos(rendered: Option<seq<string>>, now: int, o: ScriptOracle) returns (ok: bool)
      modifies this, o
      ensures var c := CommandCall(old(Current()), now, cameraIp, moveScript, rendered, false,
                                   o.authAnswer, |old(o.authCalls)|, o.runAnswer, |old(o.runs)|);
        && (ok <==> c.outcome.Completed?)
        && Current() == c.session
        && Recorded(c, [authScript, cameraIp], old(o.authCalls), o.authCalls, old(o.runs), o.runs)
      ensures cameraIp == old(cameraIp)
    {
      var outcome := RunWithRetry(moveScript, rendered, false, now, o);
      ok := outcome.Completed?;
    }

    /** `get_zoom`; `toFloat` stands for Python's `float()`, None where it raises. */
    method GetZoom<F>(now: int, o: ScriptOracle, decode: string -> Option<Document>, toFloat: string -> Option<F>)
      returns (r: Option<F>)
      modifies this, o
      ensures var c := CommandCall(old(Current()), now, cameraIp, getZoomScript, Some([]), true,
                                   o.authAnswer, |old(o.authCalls)|, o.runAnswer, |old(o.runs)|);
        && r == ZoomReading(c.outcome, decode, toFloat)
        && Current() == c.session
        && Recorded(c, [authScript, cameraIp], old(o.authCalls), o.authCalls, old(o.runs), o.runs)
      ensures cameraIp == old(cameraIp)
    {
      var outcome := RunWithRetry(getZoomScript, Some([]), true, now, o);
      r := ZoomReading(outcome, decode, toFloat);
    }

    /** `set_zoom`; `rendered` is `f"{float(zoom):.2f}"`, None where that raises. */
    method SetZoom(rendered: Option<string>, now: int, o: ScriptOracle) returns (ok: bool)
      modifies this, o
      ensures var extra := if rendered.Some? then Some([rendered.value]) else None;
        var c := CommandCall(old(Current()), now, cameraIp, setZoomScript, extra, false,
                             o.authAnswer, |old(o.authCalls)|, o.runAnswer, |old(o.runs)|);
        && (ok <==> c.outcome.Completed?)
        && Current() == c.session
        && Recorded(c, [authScript, cameraIp], old(o.authCalls), o.authCalls, old(o.runs), o.runs)
      ensures cameraIp == old(cameraIp)
    {
      var extra := if rendered.Some? then Some([rendered.value]) else None;
      var outcome := RunWithRetry(setZoomScript, extra, false, now, o);
      ok := outcome.Completed?;
    }

    /** `get_speed`. */
    method GetSpeed<F>(now: int, o: ScriptOracle, decode: string -> Option<Document>, toFloat: string -> Option<F>)
      returns (r: Option<(F, F)>)
      modifies this, o
      ensures var c := CommandCall(old(Current()), now, cameraIp, getSpeedScript, Some([]), true,
                                   o.authAnswer, |old(o.authCalls)|, o.runAnswer, |old(o.runs)|);
        && r == SpeedReading(c.outcome, decode, toFloat)
        && Current() == c.session
        && Recorded(c, [authScript, cameraIp], old(o.authCalls), o.authCalls, old(o.runs), o.runs)
      ensures cameraIp == old(cameraIp)
    {
      var outcome := RunWithRetry(getSpeedScript, Some([]), true, now, o);
      r := SpeedReading(outcome, decode, toFloat);
    }
  }
}
