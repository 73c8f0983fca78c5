/**
 * The test handler: it resolves each target identifier to a target, runs the
 * target's cases one after another (users, path, `mkdir`, `ls -ld`, clean-up),
 * stores each case's verdict, and reports the tally.
 *
 * The source runs one thread per target; here the targets run one after the
 * other in the order of the dictionary, and an exception ends only the
 * target it was raised for. Each method of `TestHandler` is proved equal to
 * a function of the old state (`RunSingleSpec`, `RunTestSpec`,
 * `RunGroupsFrom`, `Successes` ...); the lemmas are about those functions.
 */
module Handler {
  import opened Base
  import opened Text
  import opened Paths
  import opened Records
  import opened Utils
  import opened Targets

  /** What a run depends on besides the test cases. */
  datatype Environment = Environment(
    rng: Rng,                            // the stream `random.choice` draws from
    cwd: seq<string>,                    // the directory `Path.resolve` starts from
    hosts: string -> World,              // the host each target identifier reaches
    setOrder: (string, string) -> bool,  // whether `set([a, b])` yields `a` first
    defaults: ResultDefaults)            // the result records' declared defaults

  /** One entry of the `test_cases` dictionary: a target identifier and its cases, in order. */
  datatype TargetGroup = TargetGroup(target: string, cases: seq<TestCase>)

  /** A created target: its attributes and the host its commands reach. */
  datatype Backend = Backend(cfg: TargetConfig, world: World)

  const TargetMissingMessage: string := "Target wasn't created"
  const CheckMissingMessage: string := "Check wasn't executed"

  // ---------------------------------------------------------------------
  // Verdicts

  /**
   * `_check_results`: the run matched `exp_run_no_error`, the existence matched
   * `exp_existance`, the stripped actual output occurs in the stripped expected
   * output, and the permission status (when permissions are expected).
   */
  function CheckResults(tc: TestCase, e: ExecuteResult, c: CheckResult, d: ResultDefaults): TestCaseResult {
    TestCaseResult(
      ValueOf(e.success, d.success) == Some(tc.expRunNoError),
      ValueOf(c.folderExists, d.folderExists) == Some(tc.expExistance),
      if tc.expRunOutput.None? then true else Contains(Strip(tc.expRunOutput.value), Strip(e.output)),
      if tc.expPermissions.None? then Some(true) else ValueOf(c.permissionsCheckStatus, d.permissionsCheckStatus))
  }

  /** A verdict passes exactly when all four comparisons hold; an absent expectation is met. */
  lemma VerdictPassesIff(tc: TestCase, e: ExecuteResult, c: CheckResult, d: ResultDefaults)
    ensures Passed(CheckResults(tc, e, c, d)) <==>
      && ValueOf(e.success, d.success) == Some(tc.expRunNoError)
      && ValueOf(c.folderExists, d.folderExists) == Some(tc.expExistance)
      && (tc.expRunOutput.Some? ==> Contains(Strip(tc.expRunOutput.value), Strip(e.output)))
      && (tc.expPermissions.Some? ==> ValueOf(c.permissionsCheckStatus, d.permissionsCheckStatus) == Some(true))
  {
  }

  /**
   * Without output and permission expectations, the verdict depends on the
   * run's success and the folder's existence alone.
   */
  lemma VerdictIgnoresUnexpected(tc: TestCase, e: ExecuteResult, e': ExecuteResult, c: CheckResult, c': CheckResult,
                                 d: ResultDefaults)
    requires tc.expRunOutput.None? && tc.expPermissions.None?
    requires e.success == e'.success && c.folderExists == c'.folderExists
    ensures CheckResults(tc, e, c, d) == CheckResults(tc, e', c', d)
    ensures CheckResults(tc, e, c, d).outputAsExpected && CheckResults(tc, e, c, d).permissionsAsExpected == Some(true)
  {
  }

  /**
   * The output comparison looks for the actual output inside the expected one:
   * an empty actual output matches every expectation, and an actual output
   * longer than the expectation never does.
   */
  lemma OutputComparison(tc: TestCase, e: ExecuteResult, c: CheckResult, d: ResultDefaults)
    requires tc.expRunOutput.Some?
    ensures Strip(e.output) == [] ==> CheckResults(tc, e, c, d).outputAsExpected
    ensures |Strip(e.output)| > |Strip(tc.expRunOutput.value)| ==> !CheckResults(tc, e, c, d).outputAsExpected
  {
    ContainsLength(Strip(tc.expRunOutput.value), Strip(e.output));
  }

  /**
   * A folder whose listing shows a permission token other than the expected
   * one fails its verdict on the permission comparison, whatever the other
   * comparisons give.
   */
  lemma WrongPermissionsFail(cfg: TargetConfig, world: World, tc: TestCase, path: string, cwd: seq<string>,
                             log: seq<string>, token: string, e: ExecuteResult, d: ResultDefaults)
    requires path != "" && IsSafePath(path, cwd)
    requires tc.expPermissions.Some? && tc.expPermissions != Some(token)
    requires var reply := world(log, CommandLine(cfg, ConstructCommand(cfg, tc.userCheck, cfg.testCommand + [path])));
      reply.ok && PermissionToken(reply.output) == Some(token)
    ensures var r := CheckSpec(cfg, world, tc, path, cwd, log).result;
      && r.Ok?
      && CheckResults(tc, e, r.value, d).existenceAsExpected == tc.expExistance
      && CheckResults(tc, e, r.value, d).permissionsAsExpected == Some(false)
      && !Passed(CheckResults(tc, e, r.value, d))
  {
    CheckListed(cfg, world, tc, path, cwd, log, token);
  }

  // ---------------------------------------------------------------------
  // Resolving a target identifier

  /** `TargetSpecs(*target_type.split("_"))`; three or more parts are too many arguments. */
  function ParseTargetType(id: string): Result<TargetSpecs, PyError> {
    var parts := Split(id, '_');
    if |parts| == 1 then Ok(TargetSpecs(parts[0], None))
    else if |parts| == 2 then Ok(TargetSpecs(parts[0], Some(parts[1])))
    else Err(TypeError)
  }

  /** An identifier written as a host, or a host and a parameter joined by `_`, parses back to them. */
  lemma ParseTargetTypeOf(host: string, parameter: string)
    requires '_' !in host && '_' !in parameter
    ensures ParseTargetType(host) == Ok(TargetSpecs(host, None))
    ensures ParseTargetType(host + "_" + parameter) == Ok(TargetSpecs(host, Some(parameter)))
  {
    SplitWithoutSep(host, '_');
    SplitWithoutSep(parameter, '_');
    SplitAfterPiece(host, parameter, '_');
  }

  /** Three `_`-separated parts are too many arguments for `TargetSpecs`. */
  lemma ParseTargetTypeTooMany(a: string, b: string, c: string)
    requires '_' !in a && '_' !in b && '_' !in c
    ensures ParseTargetType(a + "_" + b + "_" + c) == Err(TypeError)
  {
    SplitWithoutSep(c, '_');
    SplitAfterPiece(b, c, '_');
    SplitAfterPiece(a, b + "_" + c, '_');
    assert a + "_" + b + "_" + c == a + ['_'] + (b + ['_'] + c);
  }

  /** The members of `SupportedTargets`, by name. */
  function SupportedTarget(name: string): Option<HostKind> {
    if name == "LOCALHOST" then Some(LocalHost)
    else if name == "DOCKERHOST" then Some(DockerHost)
    else if name == "REMOTEHOST" then Some(RemoteHost)
    else None
  }

  /**
   * The target `target_factory` makes: `Ok(None)` for a host that is not a
   * member (the caught `KeyError`), an error for a malformed identifier.
   */
  function ResolveTarget(id: string): Result<Option<(HostKind, Option<string>)>, PyError> {
    match ParseTargetType(id)
    case Err(e) => Err(e)
    case Ok(specs) =>
      match SupportedTarget(Upper(specs.host))
      case None => Ok(None)
      case Some(kind) => Ok(Some((kind, specs.parameters)))
  }

  /** The host name is matched without regard to the case of its ASCII letters. */
  lemma ResolveTargetCaseInsensitive(id: string, id': string)
    requires |Split(id, '_')| == |Split(id', '_')|
    requires Upper(Split(id, '_')[0]) == Upper(Split(id', '_')[0])
    requires Split(id, '_')[1..] == Split(id', '_')[1..]
    ensures ResolveTarget(id) == ResolveTarget(id')
  {
    var p, p' := Split(id, '_'), Split(id', '_');
    if |p| == 2 {
      assert p[1] == p[1..][0] && p'[1] == p'[1..][0];
    }
  }

  /** A host and a parameter resolve to the member's kind and that parameter. */
  lemma ResolveNamedTarget(host: string, parameter: string, kind: HostKind)
    requires '_' !in host && '_' !in parameter
    requires SupportedTarget(Upper(host)) == Some(kind)
    ensures ResolveTarget(host) == Ok(Some((kind, None)))
    ensures ResolveTarget(host + "_" + parameter) == Ok(Some((kind, Some(parameter))))
  {
    ParseTargetTypeOf(host, parameter);
  }

  /** A host name that is no member gives no target, and no exception. */
  lemma ResolveUnknownTarget(host: string, parameter: string)
    requires '_' !in host && '_' !in parameter
    requires SupportedTarget(Upper(host)).None?
    ensures ResolveTarget(host) == Ok(None)
    ensures ResolveTarget(host + "_" + parameter) == Ok(None)
  {
    ParseTargetTypeOf(host, parameter);
  }

  /** `target_factory(target_type)`: a fresh target of the resolved kind, or `null`. */
  method TargetFactory(id: string, world: World) returns (r: Result<Target?, PyError>)
    ensures r.Err? <==> ResolveTarget(id).Err?
    ensures r.Err? ==> r.error == ResolveTarget(id).error
    ensures r.Ok? ==> (r.value == null <==> ResolveTarget(id).value.None?)
    ensures r.Ok? && r.value != null ==>
      && fresh(r.value) && r.value.Valid() && r.value.log == [] && r.value.world == world
      && Some((r.value.kind, r.value.parameters)) == ResolveTarget(id).value
  {
    var parsed := ParseTargetType(id);
    if parsed.Err? {
      return Err(parsed.error);
    }
    var kind := SupportedTarget(Upper(parsed.value.host));
    if kind.None? {
      return Ok(null);
    }
    var t: Target;
    if kind.value == LocalHost {
      t := new Target.Local(parsed.value.parameters, world);
    } else if kind.value == RemoteHost {
      t := new Target.Remote(parsed.value.parameters, world);
    } else {
      t := new Target.Docker(parsed.value.parameters, world);
    }
    r := Ok(t);
  }

  // ---------------------------------------------------------------------
  // One case on one target

  /** The iteration order of `set([user_run, user_check])`. */
  function Users(tc: TestCase, setOrder: (string, string) -> bool): (users: seq<string>)
    ensures forall u :: u in users <==> u == tc.userRun || u == tc.userCheck
    ensures forall i, j :: 0 <= i < j < |users| ==> users[i] != users[j]
  {
    if tc.userRun == tc.userCheck then [tc.userRun]
    else if setOrder(tc.userRun, tc.userCheck) then [tc.userRun, tc.userCheck]
    else [tc.userCheck, tc.userRun]
  }

  /** `add_user` for each user in turn. */
  function AddUsersSpec(b: Backend, users: seq<string>, log: seq<string>): seq<string>
    decreases |users|
  {
    if users == [] then log else AddUsersSpec(b, users[1..], AddUserSpec(b.cfg, b.world, users[0], log))
  }

  /**
   * Each user adds one or two commands, the old log is kept, and the first
   * command added is the `id` probe of the first user.
   */
  lemma {:induction false} AddUsersLength(b: Backend, users: seq<string>, log: seq<string>)
    ensures var after := AddUsersSpec(b, users, log);
      && |log| + |users| <= |after| <= |log| + 2 * |users|
      && after[..|log|] == log
      && (users != [] ==> after[|log|] == CommandLine(b.cfg, ["id", users[0]]))
    decreases |users|
  {
    if users != [] {
      var next := AddUserSpec(b.cfg, b.world, users[0], log);
      AddUserRunsProbeFirst(b.cfg, b.world, users[0], log);
      AddUsersLength(b, users[1..], next);
      assert next[..|log|] == log;
      assert AddUsersSpec(b, users, log)[|log|] == AddUsersSpec(b, users[1..], next)[..|next|][|log|];
    }
  }

  /** What `_run_single` did: its two records or the exception, the next draw, and the target's log. */
  datatype Single = Single(result: Result<(ExecuteResult, CheckResult), PyError>, drawn: nat, log: seq<string>)

  /**
   * `_run_single(test_target, test_case)`. Without a target nothing runs and
   * nothing is drawn. Otherwise the users are created, a path is drawn, the
   * folder is created and inspected, and it is cleaned up when the case asks
   * for it and the inspection found it.
   */
  function RunSingleSpec(b: Option<Backend>, tc: TestCase, env: Environment, drawn: nat, log: seq<string>): Single {
    match b
    case None =>
      Single(Ok((ExecuteResult(Default, TargetMissingMessage), CheckResult(Default, Default, CheckMissingMessage))),
             drawn, log)
    case Some(bk) => RunSingleOn(bk, tc, env, drawn, log)
  }

  /** `_run_single` on a target. */
  function RunSingleOn(bk: Backend, tc: TestCase, env: Environment, drawn: nat, log: seq<string>): Single {
    var path := CreatedPath(tc, env.rng, drawn);
    var ex := ExecuteSpec(bk.cfg, bk.world, tc, path, env.cwd, AddUsersSpec(bk, Users(tc, env.setOrder), log));
    AfterExecute(bk, tc, env, path, drawn + DrawsUsed(tc), ex.result.value,
                 CheckSpec(bk.cfg, bk.world, tc, path, env.cwd, ex.log))
  }

  /** `RunSingleSpec` on a target. */
  lemma RunSingleSome(bk: Backend, tc: TestCase, env: Environment, drawn: nat, log: seq<string>)
    ensures RunSingleSpec(Some(bk), tc, env, drawn, log) == RunSingleOn(bk, tc, env, drawn, log)
  {
  }

  /** `RunSingleOn` unfolded, with the drawn path named. */
  lemma RunSingleSteps(bk: Backend, tc: TestCase, env: Environment, drawn: nat, log: seq<string>, path: string)
    requires path == CreatedPath(tc, env.rng, drawn)
    ensures var ex := ExecuteSpec(bk.cfg, bk.world, tc, path, env.cwd, AddUsersSpec(bk, Users(tc, env.setOrder), log));
      RunSingleOn(bk, tc, env, drawn, log)
        == AfterExecute(bk, tc, env, path, drawn + DrawsUsed(tc), ex.result.value,
                        CheckSpec(bk.cfg, bk.world, tc, path, env.cwd, ex.log))
  {
  }

  /** The rest of `_run_single` once the folder was inspected: the clean-up, when asked for and the folder was found. */
  function AfterExecute(bk: Backend, tc: TestCase, env: Environment, path: string, next: nat, e: ExecuteResult,
                        ch: Outcome<CheckResult>): Single {
    match ch.result
    case Err(err) => Single(Err(err), next, ch.log)
    case Ok(c) =>
      if tc.cleanUp && ValueOf(c.folderExists, env.defaults.folderExists) == Some(true) then
        var cl := CleanSpec(bk.cfg, bk.world, tc.baseDir, path, env.cwd, ch.log);
        Single(if cl.result.Err? then Err(cl.result.error) else Ok((e, c)), next, cl.log)
      else
        Single(Ok((e, c)), next, ch.log)
  }

  /**
   * With the security check on, a drawn path that `is_safe_path` refuses
   * runs no `mkdir`, no `ls -ld` and no `rm -r`: only the user set-up.
   * Both records report failure, so the verdict's first two comparisons
   * hold exactly when failure and absence were expected.
   */
  lemma UnsafePathRunsOnlyUserSetup(b: Backend, tc: TestCase, env: Environment, drawn: nat, log: seq<string>)
    requires tc.securityCheck && !IsSafePath(CreatedPath(tc, env.rng, drawn), env.cwd)
    ensures var s := RunSingleSpec(Some(b), tc, env, drawn, log);
      && s.log == AddUsersSpec(b, Users(tc, env.setOrder), log)
      && s.result.Ok?
      && s.result.value.0.success == Given(false)
      && s.result.value.1.folderExists == Given(false)
      && (CheckResults(tc, s.result.value.0, s.result.value.1, env.defaults).runAsExpected <==> !tc.expRunNoError)
      && (CheckResults(tc, s.result.value.0, s.result.value.1, env.defaults).existenceAsExpected <==> !tc.expExistance)
  {
    var path := CreatedPath(tc, env.rng, drawn);
    var log1 := AddUsersSpec(b, Users(tc, env.setOrder), log);
    ExecuteUnsafeRunsNothing(b.cfg, b.world, tc, path, env.cwd, log1);
    CheckUnsafeRunsNothing(b.cfg, b.world, tc, path, env.cwd, log1);
  }

  /** Without `clean_up`, the check's command is the case's last: no `rm -r` follows it. */
  lemma NoCleanUnlessRequested(b: Backend, tc: TestCase, env: Environment, drawn: nat, log: seq<string>)
    requires !tc.cleanUp
    ensures var path := CreatedPath(tc, env.rng, drawn);
      var ex := ExecuteSpec(b.cfg, b.world, tc, path, env.cwd, AddUsersSpec(b, Users(tc, env.setOrder), log));
      RunSingleSpec(Some(b), tc, env, drawn, log).log == CheckSpec(b.cfg, b.world, tc, path, env.cwd, ex.log).log
  {
    var path := CreatedPath(tc, env.rng, drawn);
    var log1 := AddUsersSpec(b, Users(tc, env.setOrder), log);
    var ex := ExecuteSpec(b.cfg, b.world, tc, path, env.cwd, log1);
    RunSingleSome(b, tc, env, drawn, log);
    RunSingleSteps(b, tc, env, drawn, log, path);
  }

  /**
   * A case with the declared defaults for the base, whose names are quoted
   * or cannot strip to nothing, that finds its folder, removes exactly the
   * first generated folder under "/tmp" as its last command.
   */
  lemma CleanUpRemovesFirstFolder(b: Backend, tc: TestCase, env: Environment, drawn: nat, log: seq<string>)
    requires tc.baseDir == "/tmp" && tc.depth > 0 && tc.folderNameLength > 0
    requires tc.addQuotes || !(tc.validFolderName && tc.allowSpaces)
    requires tc.cleanUp
    requires var s := RunSingleSpec(Some(b), tc, env, drawn, log);
      s.result.Ok? && ValueOf(s.result.value.1.folderExists, env.defaults.folderExists) == Some(true)
    ensures var s := RunSingleSpec(Some(b), tc, env, drawn, log);
      var names := FolderNames(NameSource(tc, env.rng), drawn, Count(tc.folderNameLength), Count(tc.depth));
      && names != []
      && |s.log| > 0
      && Last(s.log) == CommandLine(b.cfg, b.cfg.cleanCommand + ["/tmp/" + names[0]])
  {
    var path := CreatedPath(tc, env.rng, drawn);
    var log1 := AddUsersSpec(b, Users(tc, env.setOrder), log);
    var ex := ExecuteSpec(b.cfg, b.world, tc, path, env.cwd, log1);
    var e := ex.result.value;
    var ch := CheckSpec(b.cfg, b.world, tc, path, env.cwd, ex.log);
    RunSingleSome(b, tc, env, drawn, log);
    RunSingleSteps(b, tc, env, drawn, log, path);
    FoundFolderCleanedLast(b, tc, env, drawn, drawn + DrawsUsed(tc), e, ch, RunSingleSpec(Some(b), tc, env, drawn, log));
  }

  /** `CleanUpRemovesFirstFolder` read off a result `s` known to be the one `AfterExecute` gives. */
  lemma FoundFolderCleanedLast(b: Backend, tc: TestCase, env: Environment, drawn: nat, next: nat,
                               e: ExecuteResult, ch: Outcome<CheckResult>, s: Single)
    requires tc.baseDir == "/tmp" && tc.depth > 0 && tc.folderNameLength > 0
    requires tc.addQuotes || !(tc.validFolderName && tc.allowSpaces)
    requires tc.cleanUp
    requires s == AfterExecute(b, tc, env, CreatedPath(tc, env.rng, drawn), next, e, ch)
    requires s.result.Ok? && ValueOf(s.result.value.1.folderExists, env.defaults.folderExists) == Some(true)
    ensures var names := FolderNames(NameSource(tc, env.rng), drawn, Count(tc.folderNameLength), Count(tc.depth));
      && names != []
      && |s.log| > 0
      && Last(s.log) == CommandLine(b.cfg, b.cfg.cleanCommand + ["/tmp/" + names[0]])
  {
    var names := FolderNames(NameSource(tc, env.rng), drawn, Count(tc.folderNameLength), Count(tc.depth));
    var path := CreatedPath(tc, env.rng, drawn);
    CreatedPlainNames(tc, env.rng, drawn);
    FoundUnderTmpLast(b, tc, env, names, path, next, e, ch, s);
  }

  /** The same for a path already known to be "/tmp/<names>". */
  lemma FoundUnderTmpLast(b: Backend, tc: TestCase, env: Environment, names: seq<string>, path: string,
                          next: nat, e: ExecuteResult, ch: Outcome<CheckResult>, s: Single)
    requires tc.baseDir == "/tmp" && tc.cleanUp
    requires names != [] && forall k :: 0 <= k < |names| ==> PlainName(names[k])
    requires path == "/" + Join(["tmp"] + names, '/')
    requires s == AfterExecute(b, tc, env, path, next, e, ch)
    requires s.result.Ok? && ValueOf(s.result.value.1.folderExists, env.defaults.folderExists) == Some(true)
    ensures |s.log| > 0 && Last(s.log) == CommandLine(b.cfg, b.cfg.cleanCommand + ["/tmp/" + names[0]])
  {
    AfterExecuteCleansUnderTmp(b, tc, env, names, path, next, e, ch);
  }

  /** Once the folder "/tmp/<names>" was found, the clean-up appends `rm -r /tmp/<first name>` to the log. */
  lemma AfterExecuteCleansUnderTmp(b: Backend, tc: TestCase, env: Environment, names: seq<string>, path: string,
                                   next: nat, e: ExecuteResult, ch: Outcome<CheckResult>)
    requires tc.baseDir == "/tmp" && tc.cleanUp
    requires names != [] && forall k :: 0 <= k < |names| ==> PlainName(names[k])
    requires path == "/" + Join(["tmp"] + names, '/')
    requires var s := AfterExecute(b, tc, env, path, next, e, ch);
      s.result.Ok? && ValueOf(s.result.value.1.folderExists, env.defaults.folderExists) == Some(true)
    ensures AfterExecute(b, tc, env, path, next, e, ch).log
      == ch.log + [CommandLine(b.cfg, b.cfg.cleanCommand + ["/tmp/" + names[0]])]
  {
    AfterExecuteFound(b, tc, env, path, next, e, ch);
    CleanUnderTmp(b.cfg, b.world, names, env.cwd, ch.log);
  }

  /** A found folder under a case that asks for clean-up: the log is the one `clean` leaves. */
  lemma AfterExecuteFound(b: Backend, tc: TestCase, env: Environment, path: string, next: nat,
                          e: ExecuteResult, ch: Outcome<CheckResult>)
    requires tc.cleanUp
    requires var s := AfterExecute(b, tc, env, path, next, e, ch);
      s.result.Ok? && ValueOf(s.result.value.1.folderExists, env.defaults.folderExists) == Some(true)
    ensures AfterExecute(b, tc, env, path, next, e, ch).log == CleanSpec(b.cfg, b.world, tc.baseDir, path, env.cwd, ch.log).log
  {
  }

  /** With the default base, and names that are quoted or cannot strip to nothing, the drawn path is "/tmp" followed by plain names. */
  lemma CreatedPlainNames(tc: TestCase, rng: Rng, drawn: nat)
    requires tc.baseDir == "/tmp" && tc.depth > 0 && tc.folderNameLength > 0
    requires tc.addQuotes || !(tc.validFolderName && tc.allowSpaces)
    ensures var names := FolderNames(NameSource(tc, rng), drawn, Count(tc.folderNameLength), Count(tc.depth));
      && names != [] && (forall k :: 0 <= k < |names| ==> PlainName(names[k]))
      && CreatedPath(tc, rng, drawn) == "/" + Join(["tmp"] + names, '/')
  {
    var names := FolderNames(NameSource(tc, rng), drawn, Count(tc.folderNameLength), Count(tc.depth));
    CreatedUnderTmp(tc, rng, drawn);
    assert names != [];
    forall k | 0 <= k < |names|
      ensures PlainName(names[k])
    {
      assert names[k] == (["tmp"] + names)[k + 1];
    }
  }

  // ---------------------------------------------------------------------
  // The cases of one target

  /**
   * A target's thread as a value: its cases with the verdicts stored so far,
   * whether one of them failed, the next draw, the target's log, and the
   * exception that ended the thread, if any.
   */
  datatype GroupRun = GroupRun(cases: seq<TestCase>, failed: bool, drawn: nat, log: seq<string>, fault: Option<PyError>)

  /** The case `tc` with the verdict `_check_results` gave it. */
  function WithVerdict(tc: TestCase, verdict: TestCaseResult): TestCase {
    tc.(testResult := Some(verdict))
  }

  /** `_run_single` as a function of the case, the next draw and the target's log. */
  type Runner = (TestCase, nat, seq<string>) -> Single

  /** `_run_single` on a given target (or none) in a given environment. */
  function SingleRun(b: Option<Backend>, env: Environment): Runner {
    (tc: TestCase, drawn: nat, log: seq<string>) => RunSingleSpec(b, tc, env, drawn, log)
  }

  /**
   * One pass of the loop of `run_test`: case `i` is run and its verdict
   * stored, or the exception it raised is recorded.
   */
  function CaseStep(run: Runner, d: ResultDefaults, i: nat, st: GroupRun): (n: GroupRun)
    requires i < |st.cases|
    ensures |n.cases| == |st.cases|
  {
    var tc := st.cases[i];
    var s := run(tc, st.drawn, st.log);
    match s.result
    case Err(err) => st.(drawn := s.drawn, log := s.log, fault := Some(err))
    case Ok(records) =>
      var verdict := CheckResults(tc, records.0, records.1, d);
      GroupRun(st.cases[i := WithVerdict(tc, verdict)], st.failed || !Passed(verdict), s.drawn, s.log, st.fault)
  }

  /**
   * A pass either ends the loop with the cases untouched, or stores a verdict
   * for case `i` alone and records a failure when that verdict is false.
   */
  lemma CaseStepFacts(run: Runner, d: ResultDefaults, i: nat, st: GroupRun)
    requires i < |st.cases| && st.fault.None?
    ensures var n := CaseStep(run, d, i, st);
      && (n.fault.Some? ==> n.cases == st.cases)
      && (n.fault.None? ==>
            && n.cases == st.cases[i := n.cases[i]]
            && n.cases[i] == st.cases[i].(testResult := n.cases[i].testResult)
            && (n.failed <==> st.failed || !Truthy(n.cases[i].testResult)))
  {
  }

  /** The loop of `run_test` from case `i` on; an exception ends it with the later cases untouched. */
  function RunCasesFrom(run: Runner, d: ResultDefaults, i: nat, st: GroupRun): (r: GroupRun)
    ensures |r.cases| == |st.cases|
    decreases |st.cases| - i
  {
    if i >= |st.cases| then st
    else
      var n := CaseStep(run, d, i, st);
      if n.fault.Some? then n else RunCasesFrom(run, d, i + 1, n)
  }

  /** The target a resolved identifier makes, as a value. */
  function BackendFor(resolved: Option<(HostKind, Option<string>)>, world: World): Option<Backend> {
    match resolved
    case None => None
    case Some(k) => Some(Backend(InitialConfig(k.0, k.1), world))
  }

  /** `run_test(target_name, test_cases)`, from the next draw `drawn`. */
  function RunTestSpec(g: TargetGroup, env: Environment, drawn: nat): (r: GroupRun)
    ensures |r.cases| == |g.cases|
  {
    match ResolveTarget(g.target)
    case Err(err) => GroupRun(g.cases, false, drawn, [], Some(err))
    case Ok(resolved) =>
      RunCasesFrom(SingleRun(BackendFor(resolved, env.hosts(g.target)), env), env.defaults, 0, GroupRun(g.cases, false, drawn, [], None))
  }

  /**
   * Cases before `i` are left alone, and each later case only gains a
   * verdict. Unless an exception ended the loop, the thread records a failure
   * exactly when it had one already or some later case has a false verdict.
   */
  lemma RunCasesFacts(run: Runner, d: ResultDefaults, i: nat, st: GroupRun)
    requires i <= |st.cases| && st.fault.None?
    ensures var r := RunCasesFrom(run, d, i, st);
      && (forall k :: 0 <= k < i ==> r.cases[k] == st.cases[k])
      && (forall k :: 0 <= k < |r.cases| ==> r.cases[k] == st.cases[k].(testResult := r.cases[k].testResult))
      && (r.fault.None? ==>
            (r.failed <==> st.failed || exists k :: i <= k < |r.cases| && !Truthy(r.cases[k].testResult)))
  {
    RunCasesKeep(run, d, i, st);
    RunCasesFailed(run, d, i, st);
  }

  /** The failure half of `RunCasesFacts`. */
  lemma {:induction false} RunCasesFailed(run: Runner, d: ResultDefaults, i: nat, st: GroupRun)
    requires i <= |st.cases| && st.fault.None?
    ensures var r := RunCasesFrom(run, d, i, st);
      r.fault.None? ==> (r.failed <==> st.failed || exists k :: i <= k < |r.cases| && !Truthy(r.cases[k].testResult))
    decreases |st.cases| - i
  {
    if i < |st.cases| {
      var n := CaseStep(run, d, i, st);
      CaseStepFacts(run, d, i, st);
      if n.fault.None? {
        var r := RunCasesFrom(run, d, i + 1, n);
        RunCasesFailed(run, d, i + 1, n);
        if r.fault.None? {
          assert r.cases[i] == n.cases[i] by {
            RunCasesKeep(run, d, i + 1, n);
          }
          FailedFromHere(st, n, r, i);
        }
      }
    }
  }

  /** A failure flag that covers case `i` and the cases after it covers every case from `i` on. */
  lemma FailedFromHere(st: GroupRun, n: GroupRun, r: GroupRun, i: nat)
    requires i < |st.cases| == |n.cases| == |r.cases|
    requires n.failed <==> st.failed || !Truthy(n.cases[i].testResult)
    requires r.cases[i] == n.cases[i]
    requires r.failed <==> n.failed || exists k :: i + 1 <= k < |r.cases| && !Truthy(r.cases[k].testResult)
    ensures r.failed <==> st.failed || exists k :: i <= k < |r.cases| && !Truthy(r.cases[k].testResult)
  {
    if r.failed && !st.failed && Truthy(n.cases[i].testResult) {
      var k :| i + 1 <= k < |r.cases| && !Truthy(r.cases[k].testResult);
    }
    if !Truthy(n.cases[i].testResult) {
      assert !Truthy(r.cases[i].testResult);
    }
  }

  /** The loop leaves the cases before `i` alone, and only stores verdicts. */
  lemma {:induction false} RunCasesKeep(run: Runner, d: ResultDefaults, i: nat, st: GroupRun)
    requires i <= |st.cases| && st.fault.None?
    ensures var r := RunCasesFrom(run, d, i, st);
      && (forall k :: 0 <= k < i ==> r.cases[k] == st.cases[k])
      && (forall k :: 0 <= k < |r.cases| ==> r.cases[k] == st.cases[k].(testResult := r.cases[k].testResult))
    decreases |st.cases| - i
  {
    if i < |st.cases| {
      var n := CaseStep(run, d, i, st);
      CaseStepFacts(run, d, i, st);
      if n.fault.None? {
        var r := RunCasesFrom(run, d, i + 1, n);
        RunCasesKeep(run, d, i + 1, n);
        forall k | 0 <= k < |r.cases|
          ensures r.cases[k] == st.cases[k].(testResult := r.cases[k].testResult)
        {
          assert k != i ==> n.cases[k] == st.cases[k];
        }
        forall k | 0 <= k < i
          ensures r.cases[k] == st.cases[k]
        {
          assert n.cases[k] == st.cases[k];
        }
      }
    }
  }

  /**
   * Without a target, each case gets the verdict for the two "wasn't"
   * records, no command runs and no name is drawn.
   */
  lemma {:induction false} MissingTargetRunsNothing(env: Environment, i: nat, st: GroupRun)
    requires i <= |st.cases| && st.fault.None?
    ensures var r := RunCasesFrom(SingleRun(None, env), env.defaults, i, st);
      && r.drawn == st.drawn && r.log == st.log && r.fault.None?
      && forall k :: i <= k < |r.cases| ==> r.cases[k] == WithVerdict(st.cases[k],
           CheckResults(st.cases[k], ExecuteResult(Default, TargetMissingMessage),
                        CheckResult(Default, Default, CheckMissingMessage), env.defaults))
    decreases |st.cases| - i
  {
    if i < |st.cases| {
      var n := CaseStep(SingleRun(None, env), env.defaults, i, st);
      MissingTargetStep(env, i, st);
      MissingTargetRunsNothing(env, i + 1, n);
      RunCasesKeep(SingleRun(None, env), env.defaults, i + 1, n);
    }
  }

  /** One pass of the loop without a target: the verdict for the two "wasn't" records, nothing else. */
  lemma MissingTargetStep(env: Environment, i: nat, st: GroupRun)
    requires i < |st.cases| && st.fault.None?
    ensures var n := CaseStep(SingleRun(None, env), env.defaults, i, st);
      && n.fault.None? && n.drawn == st.drawn && n.log == st.log
      && n.cases == st.cases[i := WithVerdict(st.cases[i], CheckResults(st.cases[i],
           ExecuteResult(Default, TargetMissingMessage), CheckResult(Default, Default, CheckMissingMessage), env.defaults))]
  {
  }

  // ---------------------------------------------------------------------
  // All targets

  /**
   * The handler's state as a value: the dictionary, `successful_run`, the
   * next draw, and how many threads an exception ended.
   */
  datatype HandlerState = HandlerState(groups: seq<TargetGroup>, successful: bool, drawn: nat, faults: nat)

  /** `run_test` as a function of the target's cases and the next draw. */
  type Tester = (TargetGroup, nat) -> GroupRun

  /** `run_test` in a given environment. */
  function TestRun(env: Environment): Tester {
    (g: TargetGroup, drawn: nat) => RunTestSpec(g, env, drawn)
  }

  lemma TestRunApply(env: Environment, g: TargetGroup, drawn: nat)
    ensures TestRun(env)(g, drawn) == RunTestSpec(g, env, drawn)
  {
  }

  /** One pass of the loop of `run()`: the `g`-th target's thread runs, and its outcome is merged in. */
  function GroupStep(test: Tester, g: nat, st: HandlerState): (n: HandlerState)
    requires g < |st.groups|
  {
    var gr := test(st.groups[g], st.drawn);
    HandlerState(
      st.groups[g := TargetGroup(st.groups[g].target, gr.cases)],
      st.successful && !gr.failed,
      gr.drawn,
      st.faults + if gr.fault.Some? then 1 else 0)
  }

  /** `run()` from the `g`-th target on. */
  function RunGroupsFrom(test: Tester, g: nat, st: HandlerState): (r: HandlerState)
    ensures |r.groups| == |st.groups|
    decreases |st.groups| - g
  {
    if g >= |st.groups| then st else RunGroupsFrom(test, g + 1, GroupStep(test, g, st))
  }

  /** Past the last target, `run()` has nothing left to do. */
  lemma RunGroupsDone(test: Tester, g: nat, st: HandlerState)
    requires g >= |st.groups|
    ensures RunGroupsFrom(test, g, st) == st
  {
  }

  /** A pass of the loop of `run()` leaves the rest of the loop to do. */
  lemma RunGroupsUnfold(test: Tester, g: nat, st: HandlerState)
    requires g < |st.groups|
    ensures RunGroupsFrom(test, g, st) == RunGroupsFrom(test, g + 1, GroupStep(test, g, st))
  {
  }

  /** Every stored verdict of targets `g` onwards is true. */
  predicate AllTruthyFrom(groups: seq<TargetGroup>, g: nat) {
    forall j, k :: g <= j < |groups| && 0 <= k < |groups[j].cases| ==> Truthy(groups[j].cases[k].testResult)
  }

  /**
   * What a thread promises about its outcome `r` on the target's cases:
   * the cases are the same ones, at most with new verdicts, and when no
   * exception ended it, it records a failure exactly when a verdict is false.
   */
  predicate ThreadFacts(g: TargetGroup, r: GroupRun) {
    && |r.cases| == |g.cases|
    && (forall k :: 0 <= k < |r.cases| ==> r.cases[k] == g.cases[k].(testResult := r.cases[k].testResult))
    && (r.fault.None? ==> (r.failed <==> exists k :: 0 <= k < |r.cases| && !Truthy(r.cases[k].testResult)))
  }

  /** A thread no exception ended records a failure exactly when one of its cases has a false verdict. */
  lemma RunTestFacts(g: TargetGroup, env: Environment, drawn: nat)
    ensures ThreadFacts(g, RunTestSpec(g, env, drawn))
  {
    if ResolveTarget(g.target).Ok? {
      var b := BackendFor(ResolveTarget(g.target).value, env.hosts(g.target));
      RunCasesFacts(SingleRun(b, env), env.defaults, 0, GroupRun(g.cases, false, drawn, [], None));
    }
  }

  /** Every thread of `run()` keeps those promises. */
  lemma TestRunFacts(env: Environment)
    ensures forall g, drawn :: ThreadFacts(g, TestRun(env)(g, drawn))
  {
    forall g, drawn
      ensures ThreadFacts(g, TestRun(env)(g, drawn))
    {
      RunTestFacts(g, env, drawn);
    }
  }

  /**
   * Running targets `g` onwards keeps the identifiers and the earlier targets,
   * and only stores verdicts. When no exception ended a thread, the final
   * `successful_run` is the initial one and-ed with every stored verdict.
   */
  lemma {:induction false} RunGroupsFacts(test: Tester, g: nat, st: HandlerState)
    requires g <= |st.groups|
    requires forall tg, drawn :: ThreadFacts(tg, test(tg, drawn))
    ensures var r := RunGroupsFrom(test, g, st);
      && r.faults >= st.faults
      && (forall j :: 0 <= j < g ==> r.groups[j] == st.groups[j])
      && (forall j :: 0 <= j < |r.groups| ==> r.groups[j].target == st.groups[j].target)
      && (r.faults == st.faults ==> (r.successful <==> st.successful && AllTruthyFrom(r.groups, g)))
    decreases |st.groups| - g
  {
    if g < |st.groups| {
      var gr := test(st.groups[g], st.drawn);
      var st' := GroupStep(test, g, st);
      assert ThreadFacts(st.groups[g], gr);
      RunGroupsFacts(test, g + 1, st');
      var r := RunGroupsFrom(test, g + 1, st');
      assert r == RunGroupsFrom(test, g, st);
      assert r.groups[g] == TargetGroup(st.groups[g].target, gr.cases);
      if r.faults == st.faults {
        assert gr.fault.None?;
        if AllTruthyFrom(r.groups, g) {
          assert AllTruthyFrom(r.groups, g + 1);
          assert forall k :: 0 <= k < |gr.cases| ==> Truthy(r.groups[g].cases[k].testResult);
        }
        if st.successful && !gr.failed && AllTruthyFrom(r.groups, g + 1) {
          forall j, k | g <= j < |r.groups| && 0 <= k < |r.groups[j].cases|
            ensures Truthy(r.groups[j].cases[k].testResult)
          {
            if j == g {
              assert r.groups[j].cases[k] == gr.cases[k];
            }
          }
        }
      }
    }
  }

  // ---------------------------------------------------------------------
  // The report

  /** The entry `report` lists for a failing case. */
  function FailureEntry(target: string, name: string): string {
    "[" + target + " - " + name + "]"
  }

  /** The number of cases with a true verdict. */
  function CaseSuccesses(cases: seq<TestCase>): nat {
    if cases == [] then 0
    else CaseSuccesses(cases[..|cases| - 1]) + if Truthy(cases[|cases| - 1].testResult) then 1 else 0
  }

  /** The entries for the cases without a true verdict, in order. */
  function CaseFailures(target: string, cases: seq<TestCase>): seq<string> {
    if cases == [] then []
    else
      var last := cases[|cases| - 1];
      CaseFailures(target, cases[..|cases| - 1]) + (if Truthy(last.testResult) then [] else [FailureEntry(target, last.name)])
  }

  function Successes(groups: seq<TargetGroup>): nat {
    if groups == [] then 0 else Successes(groups[..|groups| - 1]) + CaseSuccesses(groups[|groups| - 1].cases)
  }

  function TotalCases(groups: seq<TargetGroup>): nat {
    if groups == [] then 0 else TotalCases(groups[..|groups| - 1]) + |groups[|groups| - 1].cases|
  }

  function FailingEntries(groups: seq<TargetGroup>): seq<string> {
    if groups == [] then [] else FailingEntries(groups[..|groups| - 1]) + CaseFailures(groups[|groups| - 1].target, groups[|groups| - 1].cases)
  }

  function Hosts(groups: seq<TargetGroup>): seq<string> {
    if groups == [] then [] else Hosts(groups[..|groups| - 1]) + [groups[|groups| - 1].target]
  }

  /** What `report` logs: the tally, the tested hosts, the failing entries, and PASSED or FAILED. */
  datatype Summary = Summary(successes: nat, total: nat, failing: seq<string>, hosts: seq<string>, passed: bool)

  /** Within one target, every case is either counted a success or listed. */
  lemma {:induction false} CaseTally(target: string, cases: seq<TestCase>)
    ensures CaseSuccesses(cases) + |CaseFailures(target, cases)| == |cases|
    ensures CaseFailures(target, cases) == [] <==> forall k :: 0 <= k < |cases| ==> Truthy(cases[k].testResult)
    decreases |cases|
  {
    if cases != [] {
      var init := cases[..|cases| - 1];
      CaseTally(target, init);
      assert forall k :: 0 <= k < |init| ==> init[k] == cases[k];
    }
  }

  /**
   * Every case is either counted a success or listed as failing, and nothing
   * is listed exactly when every stored verdict is true.
   */
  lemma {:induction false} ReportTally(groups: seq<TargetGroup>)
    ensures Successes(groups) + |FailingEntries(groups)| == TotalCases(groups)
    ensures FailingEntries(groups) == [] <==> AllTruthyFrom(groups, 0)
    decreases |groups|
  {
    if groups != [] {
      var init, last := groups[..|groups| - 1], groups[|groups| - 1];
      ReportTally(init);
      CaseTally(last.target, last.cases);
      assert forall j :: 0 <= j < |init| ==> init[j] == groups[j];
      if AllTruthyFrom(groups, 0) {
        assert AllTruthyFrom(init, 0);
        assert forall k :: 0 <= k < |last.cases| ==> Truthy(last.cases[k].testResult);
      }
    }
  }

  /**
   * When no exception ends a thread, a run from a fresh handler reports
   * PASSED exactly when it lists no failing case, and all cases succeeded.
   */
  lemma RunThenReport(env: Environment, groups: seq<TargetGroup>, drawn: nat)
    ensures var r := RunGroupsFrom(TestRun(env), 0, HandlerState(groups, true, drawn, 0));
      r.faults == 0 ==>
        && (r.successful <==> FailingEntries(r.groups) == [])
        && (r.successful <==> Successes(r.groups) == TotalCases(r.groups))
  {
    var r := RunGroupsFrom(TestRun(env), 0, HandlerState(groups, true, drawn, 0));
    TestRunFacts(env);
    RunGroupsFacts(TestRun(env), 0, HandlerState(groups, true, drawn, 0));
    ReportTally(r.groups);
  }

  // ---------------------------------------------------------------------
  // The handler object

  /** The log of a target, empty when there is none. */
  function LogOf(t: Target?): seq<string>
    reads t
  {
    if t == null then [] else t.log
  }

  /** A target as a value: the configuration its initialiser set, and the host it reaches. */
  function BackendOf(t: Target?): Option<Backend> {
    if t == null then None else Some(Backend(InitialConfig(t.kind, t.parameters), t.world))
  }

  /** The loop of `_run_single` that creates each user in turn. */
  method AddUsers(target: Target, users: seq<string>)
    requires target.Valid()
    modifies target
    ensures target.Valid()
    ensures target.log == AddUsersSpec(BackendOf(target).value, users, old(target.log))
  {
    ghost var b := BackendOf(target).value;
    ghost var log0 := target.log;
    var i := 0;
    while i < |users|
      invariant 0 <= i <= |users|
      invariant target.Valid()
      invariant AddUsersSpec(b, users[i..], target.log) == AddUsersSpec(b, users, log0)
    {
      assert users[i..][1..] == users[i + 1..];
      target.AddUser(users[i]);
      i := i + 1;
    }
    assert users[i..] == [];
  }

  /**
   * The rest of `_run_single` once the path is drawn: the folder is created
   * and inspected, and cleaned up when the case asks for it and it was found.
   */
  method ExecuteAndCheck(target: Target, tc: TestCase, path: string, env: Environment, ghost b: Backend, ghost next: nat)
    returns (r: Result<(ExecuteResult, CheckResult), PyError>)
    requires b == Backend(target.Config(), target.world)
    modifies target`log
    ensures var ex := ExecuteSpec(b.cfg, b.world, tc, path, env.cwd, old(target.log));
      Single(r, next, target.log)
        == AfterExecute(b, tc, env, path, next, ex.result.value, CheckSpec(b.cfg, b.world, tc, path, env.cwd, ex.log))
  {
    var e := target.Execute(tc, path, env.cwd);
    var c := target.Check(tc, path, env.cwd);
    if c.Err? {
      r := Err(c.error);
    } else if tc.cleanUp && ValueOf(c.value.folderExists, env.defaults.folderExists) == Some(true) {
      var cleaned := target.Clean(tc.baseDir, path, env.cwd);
      r := if cleaned.Err? then Err(cleaned.error) else Ok((e, c.value));
    } else {
      r := Ok((e, c.value));
    }
  }

  class TestHandler {
    /** `self.test_cases`: the dictionary from target identifier to cases, in insertion order. */
    var testCases: seq<TargetGroup>
    /** `self.successful_run` */
    var successfulRun: bool
    /** The next draw of the path factory's random stream. */
    var drawn: nat

    /** `TestHandler(test_cases)` */
    constructor (testCases: seq<TargetGroup>)
      ensures this.testCases == testCases && successfulRun && drawn == 0
    {
      this.testCases := testCases;
      successfulRun := true;
      drawn := 0;
    }

    /** `_run_single(test_target, test_case)` */
    method RunSingle(target: Target?, tc: TestCase, env: Environment)
      returns (r: Result<(ExecuteResult, CheckResult), PyError>)
      requires target != null ==> target.Valid()
      modifies this`drawn, target
      ensures target != null ==> target.Valid()
      ensures var s := RunSingleSpec(BackendOf(target), tc, env, old(drawn), old(LogOf(target)));
        r == s.result && drawn == s.drawn && LogOf(target) == s.log
    {
      if target == null {
        return Ok((ExecuteResult(Default, TargetMissingMessage), CheckResult(Default, Default, CheckMissingMessage)));
      }
      ghost var b := Backend(target.Config(), target.world);
      ghost var log0, drawn0 := target.log, drawn;
      AddUsers(target, Users(tc, env.setOrder));
      ghost var log1 := target.log;
      var path, next := CreatePath(tc, env.rng, drawn);
      drawn := next;
      ghost var ex := ExecuteSpec(b.cfg, b.world, tc, path, env.cwd, log1);
      ghost var ch := CheckSpec(b.cfg, b.world, tc, path, env.cwd, ex.log);
      r := ExecuteAndCheck(target, tc, path, env, b, next);
      RunSingleSome(b, tc, env, drawn0, log0);
      RunSingleSteps(b, tc, env, drawn0, log0, path);
      assert BackendOf(target) == Some(b);
    }

    /** `run_test(target_name, test_cases)` for the `g`-th target; an exception ends it. */
    method RunTest(g: nat, env: Environment)
      requires g < |testCases|
      modifies this
      ensures var gr := RunTestSpec(old(testCases[g]), env, old(drawn));
        && testCases == old(testCases)[g := TargetGroup(old(testCases[g].target), gr.cases)]
        && successfulRun == (old(successfulRun) && !gr.failed)
        && drawn == gr.drawn
    {
      var name := testCases[g].target;
      var made := TargetFactory(name, env.hosts(name));
      if made.Err? {
        assert testCases[g := TargetGroup(name, testCases[g].cases)] == testCases;
        return;
      }
      var target := made.value;
      assert BackendOf(target) == BackendFor(ResolveTarget(name).value, env.hosts(name));
      RunCases(g, target, env);
    }

    /** The loop of `run_test` over the cases of the `g`-th target, on a target already made (or none). */
    method RunCases(g: nat, target: Target?, env: Environment)
      requires g < |testCases|
      requires target != null ==> target.Valid()
      modifies this, target
      ensures target != null ==> target.Valid()
      ensures var gr := RunCasesFrom(SingleRun(BackendOf(target), env), env.defaults, 0,
                                     GroupRun(old(testCases[g].cases), false, old(drawn), old(LogOf(target)), None));
        && testCases == old(testCases)[g := TargetGroup(old(testCases[g].target), gr.cases)]
        && successfulRun == (old(successfulRun) && !gr.failed)
        && drawn == gr.drawn
        && LogOf(target) == gr.log
    {
      ghost var run := SingleRun(BackendOf(target), env);
      var cases := testCases[g].cases;
      ghost var failed := false;
      var i := 0;
      while i < |cases|
        invariant i <= |cases| && testCases == old(testCases)
        invariant target != null ==> target.Valid()
        invariant successfulRun == (old(successfulRun) && !failed)
        invariant RunCasesFrom(run, env.defaults, i, GroupRun(cases, failed, drawn, LogOf(target), None))
          == RunCasesFrom(run, env.defaults, 0, GroupRun(old(testCases[g].cases), false, old(drawn), old(LogOf(target)), None))
      {
        var stop;
        stop, cases, failed := RunCaseAt(cases, i, target, env, failed);
        if stop {
          break;
        }
        i := i + 1;
      }
      testCases := testCases[g := TargetGroup(testCases[g].target, cases)];
    }

    /**
     * One pass of the loop of `run_test`: case `i` is run and its verdict
     * stored, or the exception it raised ends the loop (`stop`).
     */
    method RunCaseAt(cases: seq<TestCase>, i: nat, target: Target?, env: Environment, ghost failed: bool)
      returns (stop: bool, casesNext: seq<TestCase>, ghost failedNext: bool)
      requires i < |cases|
      requires target != null ==> target.Valid()
      requires successfulRun ==> !failed
      modifies this`successfulRun, this`drawn, target
      ensures target != null ==> target.Valid()
      ensures successfulRun == (old(successfulRun) && !failedNext) && (failed ==> failedNext)
      ensures var run := SingleRun(BackendOf(target), env);
        var r := RunCasesFrom(run, env.defaults, i, GroupRun(cases, failed, old(drawn), old(LogOf(target)), None));
        && (stop ==> r.cases == casesNext && r.failed == failedNext && r.drawn == drawn && r.log == LogOf(target))
        && (!stop ==> |casesNext| == |cases| &&
                      r == RunCasesFrom(run, env.defaults, i + 1, GroupRun(casesNext, failedNext, drawn, LogOf(target), None)))
    {
      var tc := cases[i];
      ghost var run := SingleRun(BackendOf(target), env);
      ghost var st := GroupRun(cases, failed, drawn, LogOf(target), None);
      var r := RunSingle(target, tc, env);
      assert run(tc, st.drawn, st.log) == Single(r, drawn, LogOf(target));
      if r.Err? {
        return true, cases, failed;
      }
      var verdict := CheckResults(tc, r.value.0, r.value.1, env.defaults);
      if !Passed(verdict) {
        successfulRun := false;
      }
      stop, casesNext, failedNext := false, cases[i := WithVerdict(tc, verdict)], failed || !Passed(verdict);
    }

    /** `run()`: every target in turn. */
    method Run(env: Environment)
      modifies this
      ensures var h := RunGroupsFrom(TestRun(env), 0, HandlerState(old(testCases), old(successfulRun), old(drawn), 0));
        testCases == h.groups && successfulRun == h.successful && drawn == h.drawn
    {
      ghost var goal := RunGroupsFrom(TestRun(env), 0, HandlerState(testCases, successfulRun, drawn, 0));
      ghost var faults := 0;
      var g := 0;
      while g < |testCases|
        invariant g <= |testCases|
        invariant RunGroupsFrom(TestRun(env), g, HandlerState(testCases, successfulRun, drawn, faults)) == goal
      {
        faults := RunNextTarget(g, env, goal, faults);
        g := g + 1;
      }
      RunGroupsDone(TestRun(env), g, HandlerState(testCases, successfulRun, drawn, faults));
    }

    /** One pass of the loop of `run()`, stated against what the whole loop computes. */
    method RunNextTarget(g: nat, env: Environment, ghost goal: HandlerState, ghost faults: nat)
      returns (ghost faultsNext: nat)
      requires g < |testCases|
      requires RunGroupsFrom(TestRun(env), g, HandlerState(testCases, successfulRun, drawn, faults)) == goal
      modifies this
      ensures |testCases| == old(|testCases|)
      ensures RunGroupsFrom(TestRun(env), g + 1, HandlerState(testCases, successfulRun, drawn, faultsNext)) == goal
    {
      RunGroupsUnfold(TestRun(env), g, HandlerState(testCases, successfulRun, drawn, faults));
      faultsNext := RunThread(g, env, faults);
    }

    /** The thread of the `g`-th target, started and joined: one pass of the loop of `run()`. */
    method RunThread(g: nat, env: Environment, ghost faults: nat) returns (ghost faultsNext: nat)
      requires g < |testCases|
      modifies this
      ensures HandlerState(testCases, successfulRun, drawn, faultsNext)
        == GroupStep(TestRun(env), g, HandlerState(old(testCases), old(successfulRun), old(drawn), faults))
    {
      ghost var gr := RunTestSpec(testCases[g], env, drawn);
      TestRunApply(env, testCases[g], drawn);
      RunTest(g, env);
      faultsNext := faults + if gr.fault.Some? then 1 else 0;
    }

    /** `report()`: counts the true verdicts, lists the others, and says PASSED when `successful_run` holds. */
    method Report() returns (s: Summary)
      ensures s == Summary(Successes(testCases), TotalCases(testCases), FailingEntries(testCases),
                           Hosts(testCases), successfulRun)
    {
      var successes, total := 0, 0;
      var failing: seq<string> := [];
      var hosts: seq<string> := [];
      var g := 0;
      while g < |testCases|
        invariant g <= |testCases|
        invariant successes == Successes(testCases[..g]) && total == TotalCases(testCases[..g])
        invariant failing == FailingEntries(testCases[..g]) && hosts == Hosts(testCases[..g])
      {
        var group := testCases[g];
        var k := 0;
        while k < |group.cases|
          invariant k <= |group.cases|
          invariant successes == Successes(testCases[..g]) + CaseSuccesses(group.cases[..k])
          invariant total == TotalCases(testCases[..g]) + k
          invariant failing == FailingEntries(testCases[..g]) + CaseFailures(group.target, group.cases[..k])
        {
          assert group.cases[..k + 1][..k] == group.cases[..k];
          if Truthy(group.cases[k].testResult) {
            successes := successes + 1;
          } else {
            failing := failing + [FailureEntry(group.target, group.cases[k].name)];
          }
          total := total + 1;
          k := k + 1;
        }
        assert group.cases[..k] == group.cases;
        assert testCases[..g + 1][..g] == testCases[..g];
        hosts := hosts + [group.target];
        g := g + 1;
      }
      assert testCases[..g] == testCases;
      s := Summary(successes, total, failing, hosts, successfulRun);
    }
  }

  // ---------------------------------------------------------------------
  // Scenarios: single inputs that illustrate the general properties above

  /** Scenario: a folder listed as `drwx------` when `drwxr-xr-x` is expected. */
  lemma WrongPermissionsExample(cfg: TargetConfig, world: World, tc: TestCase, path: string, cwd: seq<string>,
                                log: seq<string>, rest: string, e: ExecuteResult, d: ResultDefaults)
    requires path != "" && IsSafePath(path, cwd)
    requires tc.expPermissions == Some("drwxr-xr-x")
    requires rest != [] && IsSpace(rest[0])
    requires world(log, CommandLine(cfg, ConstructCommand(cfg, tc.userCheck, cfg.testCommand + [path])))
      == Reply(true, "drwx------" + rest)
    ensures var r := CheckSpec(cfg, world, tc, path, cwd, log).result;
      r.Ok? && !Passed(CheckResults(tc, e, r.value, d))
  {
    DrwxToken(rest);
    DistinctPermissions();
    WrongPermissionsFail(cfg, world, tc, path, cwd, log, "drwx------", e, d);
  }

  /** `remotehost` in lower case names the remote kind. */
  lemma LowerCaseRemote()
    ensures SupportedTarget(Upper("remotehost")) == Some(RemoteHost)
  {
    var u := Upper("remotehost");
    assert u[0] == 'R' && u[1] == 'E' && u[2] == 'M' && u[3] == 'O' && u[4] == 'T';
    assert u[5] == 'E' && u[6] == 'H' && u[7] == 'O' && u[8] == 'S' && u[9] == 'T';
    assert u == "REMOTEHOST";
  }

  /**
   * An identifier with three parts ends its thread at once: its cases keep no
   * verdict and are listed as failing, yet `successful_run` stays true and the
   * report says PASSED.
   */
  lemma MalformedTargetStillPasses(env: Environment, tc: TestCase, drawn: nat)
    requires tc.testResult == None
    ensures var r := RunGroupsFrom(TestRun(env), 0, HandlerState([TargetGroup("a_b_c", [tc])], true, drawn, 0));
      && r.successful
      && r.faults == 1
      && FailingEntries(r.groups) == [FailureEntry("a_b_c", tc.name)]
  {
    ParseTargetTypeTooMany("a", "b", "c");
    assert "a" + "_" + "b" + "_" + "c" == "a_b_c";
    var g := TargetGroup("a_b_c", [tc]);
    assert RunTestSpec(g, env, drawn) == GroupRun([tc], false, drawn, [], Some(TypeError));
    assert [g][0 := TargetGroup(g.target, [tc])] == [g];
    var r := RunGroupsFrom(TestRun(env), 0, HandlerState([g], true, drawn, 0));
    assert r == RunGroupsFrom(TestRun(env), 1, HandlerState([g], true, drawn, 1));
    assert r == HandlerState([g], true, drawn, 1);
    assert [tc][..0] == [];
    assert [g][..0] == [];
    assert CaseFailures("a_b_c", [tc]) == [FailureEntry("a_b_c", tc.name)];
    assert FailingEntries([g]) == CaseFailures("a_b_c", [tc]);
  }
}
