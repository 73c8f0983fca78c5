/**
 * The test targets: where the harness runs `mkdir`, `ls -ld`, `id`,
 * `useradd` and `rm -r`. A target object carries command-prefix attributes
 * that `TestTarget.__init__` sets and the `RemoteHost` and `DockerHost`
 * initialisers overwrite. The host behind a target (a local shell, an `ssh`
 * session, or a container's `exec_run`) is a `World`: given the command lines
 * already run on the target and the next one, it answers whether the exit
 * code was 0 and what was printed.
 *
 * Each operation is a method of `Target` proved equal to a function of the
 * target's attributes, its world and its log (`AddUserSpec`, `ExecuteSpec`,
 * `CheckSpec`, `CleanSpec`); the lemmas at the end are about those functions.
 */
module Targets {
  import opened Base
  import opened Text
  import opened Paths
  import opened Records
  import opened Utils

  /** The members of `SupportedTargets`, by the class each one names. */
  datatype HostKind = LocalHost | RemoteHost | DockerHost

  /** What `run_command` returns: exit code 0 or not, and the captured output. */
  datatype Reply = Reply(ok: bool, output: string)

  /** A host: the reply to a command line, given the lines already run on it. */
  type World = (seq<string>, string) -> Reply

  /** An operation's result (or the exception it raised) and the log it leaves. */
  datatype Outcome<T> = Outcome(result: Result<T, PyError>, log: seq<string>)

  /**
   * The command-prefix attributes of a target object. Only a Docker target has
   * `cmd_prefix`; on the other kinds `cmdPrefix` is empty and never read.
   */
  datatype TargetConfig = TargetConfig(
    kind: HostKind,
    login: seq<string>,
    setUser: seq<string>,
    addUserCommand: seq<string>,
    executeCommand: seq<string>,
    testCommand: seq<string>,
    cleanCommand: seq<string>,
    cmdPrefix: seq<string>)

  /** `f"{x}"` for an optional string: `None` prints as "None". */
  function PyStr(x: Option<string>): string {
    match x
    case None => "None"
    case Some(s) => s
  }

  /** The attributes as the initialiser of each kind leaves them. */
  function InitialConfig(kind: HostKind, parameters: Option<string>): TargetConfig {
    match kind
    case LocalHost =>
      TargetConfig(LocalHost, [], ["sudo", "-u"], ["sudo", "useradd", "-m"], ["mkdir"], ["ls", "-ld"], ["rm", "-r"], [])
    case RemoteHost =>
      TargetConfig(RemoteHost, ["ssh", "root@" + PyStr(parameters)], ["sudo", "-u"], ["sudo", "useradd", "-m"],
                   ["mkdir"], ["ls", "-ld"], ["rm", "-r"], [])
    case DockerHost =>
      TargetConfig(DockerHost, [], ["su", "-"], ["useradd", "-m"], ["mkdir"], ["ls", "-ld"], ["rm", "-r"], ["-c"])
  }

  /** `_construct_command(user, command)`: the command run as `user`. */
  function ConstructCommand(cfg: TargetConfig, user: string, command: seq<string>): seq<string> {
    if cfg.kind == DockerHost then cfg.setUser + [user] + cfg.cmdPrefix + ["'"] + command + ["'"]
    else cfg.setUser + [user] + command
  }

  /**
   * The string `run_command` hands on: `login + command` joined by spaces for
   * the local and remote kinds (a shell line), `command` alone for Docker (the
   * argument of `exec_run`).
   */
  function CommandLine(cfg: TargetConfig, command: seq<string>): string {
    if cfg.kind == DockerHost then Join(command, ' ') else Join(cfg.login + command, ' ')
  }

  /** The message of a result whose path failed `is_safe_path`. */
  function NotSafeMessage(path: string): string {
    "Path '" + path + "' is not safe or outside of allowed base - check logs for more details"
  }

  const EmptyPathMessage: string := "Empty path is provided - nothing to check!"

  // ---------------------------------------------------------------------
  // The permission pattern `^([drwx-]+)\s+`

  /** A character of the class `[drwx-]`. */
  predicate IsPermChar(c: char) {
    c == 'd' || c == 'r' || c == 'w' || c == 'x' || c == '-'
  }

  /** The length of the longest prefix of `s` made of `[drwx-]` characters. */
  function PermRun(s: string): (n: nat)
    ensures n <= |s|
    ensures forall k :: 0 <= k < n ==> IsPermChar(s[k])
    ensures n == |s| || !IsPermChar(s[n])
    decreases |s|
  {
    if s != [] && IsPermChar(s[0]) then 1 + PermRun(s[1..]) else 0
  }

  /** `^([drwx-]+)\s+` matches `listing` with a first group of `k` characters. */
  predicate PatternMatchesWith(listing: string, k: int) {
    0 < k < |listing| && (forall j :: 0 <= j < k ==> IsPermChar(listing[j])) && IsSpace(listing[k])
  }

  /** `re.match(r'^([drwx-]+)\s+', listing).group(1)`, or `None` where there is no match. */
  function PermissionToken(listing: string): Option<string> {
    var n := PermRun(listing);
    if 0 < n < |listing| && IsSpace(listing[n]) then Some(listing[..n]) else None
  }

  /**
   * The scanner agrees with the pattern: it finds a token exactly when the
   * pattern matches, and the token is the only first group a match can have.
   */
  lemma PermissionTokenMatches(listing: string)
    ensures PermissionToken(listing).Some? <==> exists k :: PatternMatchesWith(listing, k)
    ensures forall k :: PatternMatchesWith(listing, k) ==> PermissionToken(listing) == Some(listing[..k])
  {
    var n := PermRun(listing);
    assert forall k :: PatternMatchesWith(listing, k) ==> k == n;
    if PermissionToken(listing).Some? {
      assert PatternMatchesWith(listing, n);
    }
  }

  // ---------------------------------------------------------------------
  // What each operation does, as functions of the attributes, the world and the log

  /** `add_user(user)`: probe with `id`, and create the user only when the probe fails. */
  function AddUserSpec(cfg: TargetConfig, world: World, user: string, log: seq<string>): seq<string> {
    var probe := CommandLine(cfg, ["id", user]);
    if world(log, probe).ok then log + [probe]
    else log + [probe, CommandLine(cfg, cfg.addUserCommand + [user])]
  }

  /** `execute(test_case, target_path)` */
  function ExecuteSpec(cfg: TargetConfig, world: World, tc: TestCase, path: string, cwd: seq<string>,
                       log: seq<string>): (r: Outcome<ExecuteResult>)
    ensures r.result.Ok?
  {
    if tc.securityCheck && !IsSafePath(path, cwd) then
      Outcome(Ok(ExecuteResult(Given(false), NotSafeMessage(path))), log)
    else
      var line := CommandLine(cfg, ConstructCommand(cfg, tc.userRun, cfg.executeCommand + tc.flags + [path]));
      var reply := world(log, line);
      Outcome(Ok(ExecuteResult(Given(reply.ok), reply.output)), log + [line])
  }

  /** `check(test_case, target_path)`; a listing the pattern does not match raises `AttributeError`. */
  function CheckSpec(cfg: TargetConfig, world: World, tc: TestCase, path: string, cwd: seq<string>,
                     log: seq<string>): Outcome<CheckResult>
  {
    if path == "" then
      Outcome(Ok(CheckResult(Given(false), Default, EmptyPathMessage)), log)
    else if !IsSafePath(path, cwd) then
      Outcome(Ok(CheckResult(Given(false), Default, NotSafeMessage(path))), log)
    else
      var line := CommandLine(cfg, ConstructCommand(cfg, tc.userCheck, cfg.testCommand + [path]));
      var reply := world(log, line);
      if !reply.ok then
        Outcome(Ok(CheckResult(Given(false), Default, reply.output)), log + [line])
      else
        match PermissionToken(reply.output)
        case None => Outcome(Err(AttributeError), log + [line])
        case Some(permissions) =>
          Outcome(Ok(CheckResult(Given(true), Given(Some(permissions) == tc.expPermissions), reply.output)),
                  log + [line])
  }

  /** The index of the first occurrence of `x` in `s`. */
  function FirstIndex(s: seq<string>, x: string): (r: Option<nat>)
    ensures r.Some? ==> r.value < |s| && s[r.value] == x && forall j :: 0 <= j < r.value ==> s[j] != x
    ensures r.None? ==> x !in s
    decreases |s|
  {
    if s == [] then None
    else if s[0] == x then Some(0)
    else match FirstIndex(s[1..], x)
      case None => None
      case Some(i) => Some(i + 1)
  }

  /**
   * The directory `clean` removes: after stripping `"`, the component that
   * follows the first component of the target equal to the base's last
   * segment, joined onto the base. When that segment ends the target, it is
   * the base string itself (the caught `IndexError`); when it never occurs,
   * `top_directory_path` is unbound (`UnboundLocalError`).
   */
  function TopDirectory(baseDir: string, targetPath: string): Result<string, PyError> {
    var base, target := StripChar(baseDir, '"'), StripChar(targetPath, '"');
    var components := Split(target, '/');
    match FirstIndex(components, Last(Split(base, '/')))
    case None => Err(UnboundLocalError)
    case Some(i) => Ok(TopAt(base, components, i))
  }

  /** `Path(base_dir) / components[i + 1]`, or `base_dir` itself where that index is out of range. */
  function TopAt(base: string, components: seq<string>, i: nat): string {
    if i + 1 < |components| then Str(JoinPath(Parse(base), components[i + 1])) else base
  }

  /** `clean(base_dir, target_path)`: `rm -r` of the top directory, once it has passed `is_safe_path`. */
  function CleanSpec(cfg: TargetConfig, world: World, baseDir: string, targetPath: string, cwd: seq<string>,
                     log: seq<string>): Outcome<()>
  {
    match TopDirectory(baseDir, targetPath)
    case Err(e) => Outcome(Err(e), log)
    case Ok(top) =>
      if !IsSafePath(top, cwd) then Outcome(Err(AssertionError), log)
      else Outcome(Ok(()), log + [CommandLine(cfg, cfg.cleanCommand + [top])])
  }

  // ---------------------------------------------------------------------
  // Properties of the operations

  /** `_construct_command` by kind: `sudo -u user` locally and remotely, `su - user -c '...'` in Docker. */
  lemma ConstructCommandByKind(kind: HostKind, parameters: Option<string>, user: string, command: seq<string>)
    ensures ConstructCommand(InitialConfig(kind, parameters), user, command) ==
      if kind == DockerHost then ["su", "-", user, "-c", "'"] + command + ["'"]
      else ["sudo", "-u", user] + command
  {
  }

  /**
   * The line `run_command` hands on: a remote target prefixes `ssh
   * root@<parameters>` to the whole command, the others nothing.
   */
  lemma CommandLineByKind(kind: HostKind, parameters: Option<string>, command: seq<string>)
    ensures CommandLine(InitialConfig(kind, parameters), command) ==
      Join((if kind == RemoteHost then ["ssh", "root@" + PyStr(parameters)] else []) + command, ' ')
  {
    assert [] + command == command;
  }

  /** `add_user` always probes with `id` first, and runs the creation command only when the probe fails. */
  lemma AddUserRunsProbeFirst(cfg: TargetConfig, world: World, user: string, log: seq<string>)
    ensures var after := AddUserSpec(cfg, world, user, log);
      && |log| < |after| <= |log| + 2
      && after[..|log|] == log
      && after[|log|] == CommandLine(cfg, ["id", user])
      && (|after| == |log| + 2 <==> !world(log, CommandLine(cfg, ["id", user])).ok)
      && (|after| == |log| + 2 ==> after[|log| + 1] == CommandLine(cfg, cfg.addUserCommand + [user]))
  {
  }

  /** With the security check on, an unsafe path fails `execute` without running anything. */
  lemma ExecuteUnsafeRunsNothing(cfg: TargetConfig, world: World, tc: TestCase, path: string, cwd: seq<string>,
                                 log: seq<string>)
    requires tc.securityCheck && !IsSafePath(path, cwd)
    ensures ExecuteSpec(cfg, world, tc, path, cwd, log) == Outcome(Ok(ExecuteResult(Given(false), NotSafeMessage(path))), log)
  {
  }

  /**
   * Otherwise `execute` runs exactly one command, `mkdir` with the case's
   * flags and the path as `user_run`, and succeeds exactly when it exits with 0.
   */
  lemma ExecuteRunsMkdir(kind: HostKind, parameters: Option<string>, world: World, tc: TestCase, path: string,
                         cwd: seq<string>, log: seq<string>)
    requires !(tc.securityCheck && !IsSafePath(path, cwd))
    ensures var cfg := InitialConfig(kind, parameters);
      var line := CommandLine(cfg, ConstructCommand(cfg, tc.userRun, ["mkdir"] + tc.flags + [path]));
      var r := ExecuteSpec(cfg, world, tc, path, cwd, log);
      && r.log == log + [line]
      && r.result == Ok(ExecuteResult(Given(world(log, line).ok), world(log, line).output))
  {
  }

  /** `check` runs nothing for an empty or unsafe path, and reports that the folder does not exist. */
  lemma CheckUnsafeRunsNothing(cfg: TargetConfig, world: World, tc: TestCase, path: string, cwd: seq<string>,
                               log: seq<string>)
    requires path == "" || !IsSafePath(path, cwd)
    ensures var r := CheckSpec(cfg, world, tc, path, cwd, log);
      && r.log == log
      && r.result.Ok? && r.result.value.folderExists == Given(false)
      && r.result.value.permissionsCheckStatus == Default
  {
  }

  /**
   * `check` reports an existing folder only after one successful `ls -ld` of
   * a safe, non-empty path as `user_check`, and then the permission status is
   * whether the listing's token equals the expected permissions; a listing
   * without a token raises instead.
   */
  lemma CheckExistingFolder(cfg: TargetConfig, world: World, tc: TestCase, path: string, cwd: seq<string>,
                            log: seq<string>)
    requires path != "" && IsSafePath(path, cwd)
    ensures var line := CommandLine(cfg, ConstructCommand(cfg, tc.userCheck, cfg.testCommand + [path]));
      var reply := world(log, line);
      var r := CheckSpec(cfg, world, tc, path, cwd, log);
      && r.log == log + [line]
      && (!reply.ok ==> r.result == Ok(CheckResult(Given(false), Default, reply.output)))
      && (reply.ok ==> (r.result == Err(AttributeError) <==> forall k :: !PatternMatchesWith(reply.output, k)))
      && (reply.ok ==> forall k :: PatternMatchesWith(reply.output, k) ==>
            r.result == Ok(CheckResult(Given(true), Given(Some(reply.output[..k]) == tc.expPermissions), reply.output)))
  {
    var line := CommandLine(cfg, ConstructCommand(cfg, tc.userCheck, cfg.testCommand + [path]));
    PermissionTokenMatches(world(log, line).output);
  }

  /** A listing that starts with a `[drwx-]` token and a whitespace has that token as its permissions. */
  lemma PermissionTokenOf(token: string, rest: string)
    requires token != [] && (forall k :: 0 <= k < |token| ==> IsPermChar(token[k]))
    requires rest != [] && IsSpace(rest[0])
    ensures PermissionToken(token + rest) == Some(token)
  {
    var listing := token + rest;
    assert listing[|token|] == rest[0];
    assert PatternMatchesWith(listing, |token|);
    PermissionTokenMatches(listing);
    assert listing[..|token|] == token;
  }

  /** A successful listing whose first token is `token` gives existence and the comparison with the expectation. */
  lemma CheckListed(cfg: TargetConfig, world: World, tc: TestCase, path: string, cwd: seq<string>,
                    log: seq<string>, token: string)
    requires path != "" && IsSafePath(path, cwd)
    requires var reply := world(log, CommandLine(cfg, ConstructCommand(cfg, tc.userCheck, cfg.testCommand + [path])));
      reply.ok && PermissionToken(reply.output) == Some(token)
    ensures var reply := world(log, CommandLine(cfg, ConstructCommand(cfg, tc.userCheck, cfg.testCommand + [path])));
      CheckSpec(cfg, world, tc, path, cwd, log).result
        == Ok(CheckResult(Given(true), Given(Some(token) == tc.expPermissions), reply.output))
  {
  }

  /**
   * `rm -r` is the only command `clean` runs, at most once, and only on a
   * directory that passed `is_safe_path`; its failure does not change the result.
   */
  lemma CleanRemovesOnlySafePaths(cfg: TargetConfig, world: World, baseDir: string, targetPath: string,
                                  cwd: seq<string>, log: seq<string>)
    ensures var r := CleanSpec(cfg, world, baseDir, targetPath, cwd, log);
      || (r.log == log && r.result.Err?)
      || (r.result == Ok(()) && exists top :: IsSafePath(top, cwd) && r.log == log + [CommandLine(cfg, cfg.cleanCommand + [top])])
  {
    var r := CleanSpec(cfg, world, baseDir, targetPath, cwd, log);
    if r.result.Ok? {
      var top := TopDirectory(baseDir, targetPath).value;
      assert IsSafePath(top, cwd) && r.log == log + [CommandLine(cfg, cfg.cleanCommand + [top])];
    }
  }

  lemma StripQuoteFree(s: string)
    requires SafeChars(s)
    ensures StripChar(s, '"') == s
  {
    assert forall k :: 0 <= k < |s| ==> !IsUnsafeChar(s[k]);
    StripByNothingToDrop(s, x => x == '"');
  }

  /** The pieces of "/tmp/n1/.../nk" are "", "tmp" and the names. */
  lemma {:induction false} SplitUnderTmp(names: seq<string>)
    requires forall k :: 0 <= k < |names| ==> IsPart(names[k])
    ensures Split("/" + Join(["tmp"] + names, '/'), '/') == ["", "tmp"] + names
  {
    PartsUnderTmp(names);
    SplitAbsolute(["tmp"] + names);
    assert [""] + (["tmp"] + names) == ["", "tmp"] + names;
  }

  /** The pieces of "/p1/.../pk" are "" and the parts. */
  lemma {:induction false} SplitAbsolute(parts: seq<string>)
    requires |parts| >= 1 && forall k :: 0 <= k < |parts| ==> '/' !in parts[k]
    ensures Split("/" + Join(parts, '/'), '/') == [""] + parts
  {
    SplitJoin(parts, '/');
    SplitLeadingSep(Join(parts, '/'));
  }

  lemma {:induction false} PartsUnderTmp(names: seq<string>)
    requires forall k :: 0 <= k < |names| ==> IsPart(names[k])
    ensures forall k :: 0 <= k < |["tmp"] + names| ==> '/' !in (["tmp"] + names)[k]
  {
    forall k | 0 <= k < |["tmp"] + names|
      ensures '/' !in (["tmp"] + names)[k]
    {
      if k > 0 {
        assert (["tmp"] + names)[k] == names[k - 1];
      }
    }
  }

  lemma SplitLeadingSep(j: string)
    ensures Split("/" + j, '/') == [""] + Split(j, '/')
  {
    assert ("/" + j)[1..] == j;
  }

  /**
   * Under the base "/tmp", `clean` of a path "/tmp/n1/.../nk" of plain names
   * removes "/tmp/n1", the first directory below the base: never "/tmp"
   * itself and never the leaf alone when k > 1. That directory passes `is_safe_path`.
   */
  lemma {:induction false} CleanTargetsFirstName(names: seq<string>, cwd: seq<string>)
    requires names != [] && forall k :: 0 <= k < |names| ==> PlainName(names[k])
    ensures TopDirectory("/tmp", "/" + Join(["tmp"] + names, '/')) == Ok("/tmp/" + names[0])
    ensures IsSafePath("/tmp/" + names[0], cwd)
  {
    var path := "/" + Join(["tmp"] + names, '/');
    StripUnderTmp(names);
    SplitUnderTmp(names);
    var components := ["", "tmp"] + names;
    assert FirstIndex(components, "tmp") == Some(1) by {
      assert components[0] == "" && components[1] == "tmp";
    }
    assert components[2] == names[0];
    TopUnderTmp(names[0], cwd);
  }

  /** Neither "/tmp" nor a path of plain names below it has a `"` to strip. */
  lemma {:induction false} StripUnderTmp(names: seq<string>)
    requires forall k :: 0 <= k < |names| ==> PlainName(names[k])
    ensures StripChar("/" + Join(["tmp"] + names, '/'), '"') == "/" + Join(["tmp"] + names, '/')
    ensures StripChar("/tmp", '"') == "/tmp"
    ensures Last(Split("/tmp", '/')) == "tmp"
  {
    var parts := ["tmp"] + names;
    PrependTmpPlain(names);
    JoinSafeChars(parts);
    SafeCharsConcat("/", Join(parts, '/'));
    StripQuoteFree("/" + Join(parts, '/'));
    assert SafeChars("/tmp");
    StripQuoteFree("/tmp");
    SplitUnderTmp([]);
    assert Join(["tmp"], '/') == "tmp";
  }

  /** `Path("/tmp") / name` prints as "/tmp/" + name, which passes `is_safe_path`. */
  lemma TopUnderTmp(name: string, cwd: seq<string>)
    requires PlainName(name)
    ensures Str(JoinPath(Parse("/tmp"), name)) == "/tmp/" + name
    ensures IsSafePath("/tmp/" + name, cwd)
  {
    TopStr(name);
    TopSafe(name, cwd);
  }

  lemma TopStr(name: string)
    requires PlainName(name)
    ensures Str(JoinPath(Parse("/tmp"), name)) == "/tmp/" + name
  {
    ParseTmp();
    JoinPathPart(TmpPath, name);
    assert TmpPath.parts + [name] == ["tmp", name];
    AbsoluteStr(["tmp", name]);
    TmpNameJoin(name);
  }

  lemma TopSafe(name: string, cwd: seq<string>)
    requires PlainName(name)
    ensures IsSafePath("/tmp/" + name, cwd)
  {
    assert PlainSafeParts(["tmp", name]) by {
      assert SafeChars("tmp");
    }
    TmpNameJoin(name);
    AbsoluteUnderTmpAccepted(["tmp", name], cwd);
  }

  /** "tmp" and a name joined by "/", with and without the leading "/". */
  lemma TmpNameJoin(name: string)
    ensures Join(["tmp", name], '/') == "tmp/" + name
    ensures StartsWith(Join(["tmp", name], '/'), "tmp")
    ensures "/" + Join(["tmp", name], '/') == "/tmp/" + name
  {
    assert ["tmp", name][1..] == [name];
    assert Join(["tmp", name], '/') == "tmp" + "/" + name;
    assert (Join(["tmp", name], '/'))[..3] == "tmp";
  }

  /** Under "/tmp", cleaning a path of plain names runs exactly `rm -r /tmp/<first name>`. */
  lemma {:induction false} CleanUnderTmp(cfg: TargetConfig, world: World, names: seq<string>, cwd: seq<string>,
                                         log: seq<string>)
    requires names != [] && forall k :: 0 <= k < |names| ==> PlainName(names[k])
    ensures CleanSpec(cfg, world, "/tmp", "/" + Join(["tmp"] + names, '/'), cwd, log)
      == Outcome(Ok(()), log + [CommandLine(cfg, cfg.cleanCommand + ["/tmp/" + names[0]])])
  {
    CleanTargetsFirstName(names, cwd);
  }

  /** Cleaning the base itself is refused by the assertion: nothing is removed. */
  lemma CleanTmpItself(cfg: TargetConfig, world: World, cwd: seq<string>, log: seq<string>)
    ensures CleanSpec(cfg, world, "/tmp", "/tmp", cwd, log) == Outcome(Err(AssertionError), log)
  {
    TopOfTmp();
    TmpItselfRejected(cwd);
  }

  /** The segment "tmp" ends the target "/tmp": the caught `IndexError` leaves the base itself. */
  lemma TopOfTmp()
    ensures TopDirectory("/tmp", "/tmp") == Ok("/tmp")
  {
    TmpParts();
    assert FirstIndex(["", "tmp"], "tmp") == Some(1);
  }

  /** "/tmp" has nothing to strip, splits into "" and "tmp", and ends in "tmp". */
  lemma TmpParts()
    ensures StripChar("/tmp", '"') == "/tmp"
    ensures Split("/tmp", '/') == ["", "tmp"]
    ensures Last(Split("/tmp", '/')) == "tmp"
  {
    assert SafeChars("/tmp");
    StripQuoteFree("/tmp");
    SplitUnderTmp([]);
    assert Join(["tmp"], '/') == "tmp";
  }

  /**
   * A target none of whose components is the base's last segment leaves
   * `top_directory_path` unbound: `clean` raises and runs nothing.
   */
  lemma CleanOutsideBase(cfg: TargetConfig, world: World, baseDir: string, targetPath: string, cwd: seq<string>,
                         log: seq<string>)
    requires Last(Split(StripChar(baseDir, '"'), '/')) !in Split(StripChar(targetPath, '"'), '/')
    ensures CleanSpec(cfg, world, baseDir, targetPath, cwd, log) == Outcome(Err(UnboundLocalError), log)
  {
    FirstIndexAbsent(Split(StripChar(targetPath, '"'), '/'), Last(Split(StripChar(baseDir, '"'), '/')));
  }

  /** A string that does not occur has no first index. */
  lemma {:induction false} FirstIndexAbsent(s: seq<string>, x: string)
    requires x !in s
    ensures FirstIndex(s, x) == None
    decreases |s|
  {
    if s != [] {
      assert x !in s[1..];
      FirstIndexAbsent(s[1..], x);
    }
  }

  // ---------------------------------------------------------------------
  // The target objects

  class Target {
    /** The class the object was made from. */
    const kind: HostKind
    /** `self.parameters`: the text after `_` in the target identifier. */
    const parameters: Option<string>
    /** The host the commands reach. */
    const world: World

    var login: seq<string>
    var setUser: seq<string>
    var addUserCommand: seq<string>
    var executeCommand: seq<string>
    var testCommand: seq<string>
    var cleanCommand: seq<string>
    var cmdPrefix: seq<string>
    /** The command lines run on this target so far, oldest first. */
    var log: seq<string>

    function Config(): TargetConfig
      reads this
    {
      TargetConfig(kind, login, setUser, addUserCommand, executeCommand, testCommand, cleanCommand, cmdPrefix)
    }

    /** The attributes are those the object's initialiser set. */
    ghost predicate Valid()
      reads this
    {
      Config() == InitialConfig(kind, parameters)
    }

    /** `LocalHost(parameters)` */
    constructor Local(parameters: Option<string>, world: World)
      ensures kind == LocalHost && this.parameters == parameters && this.world == world
      ensures Valid() && log == []
    {
      kind, this.parameters, this.world := LocalHost, parameters, world;
      new;
      InitTarget();
    }

    /** `RemoteHost(parameters)`: the local attributes, then an `ssh` login to `root@parameters`. */
    constructor Remote(parameters: Option<string>, world: World)
      ensures kind == RemoteHost && this.parameters == parameters && this.world == world
      ensures Valid() && log == []
      ensures login == ["ssh", "root@" + PyStr(parameters)]
    {
      kind, this.parameters, this.world := RemoteHost, parameters, world;
      new;
      InitTarget();
      login := ["ssh", "root@" + PyStr(parameters)];
    }

    /**
     * `DockerHost(parameters)`: the local attributes, then `su -` as the user
     * switch, `-c` as the command prefix and `useradd` without `sudo`. The
     * container the initialiser starts is this target's world.
     */
    constructor Docker(parameters: Option<string>, world: World)
      ensures kind == DockerHost && this.parameters == parameters && this.world == world
      ensures Valid() && log == []
      ensures setUser == ["su", "-"] && cmdPrefix == ["-c"] && addUserCommand == ["useradd", "-m"]
    {
      kind, this.parameters, this.world := DockerHost, parameters, world;
      new;
      InitTarget();
      cmdPrefix := ["-c"];
      setUser := ["su", "-"];
      addUserCommand := ["useradd", "-m"];
    }

    /** `TestTarget.__init__`; the log starts empty. */
    method InitTarget()
      modifies this
      ensures login == [] && setUser == ["sudo", "-u"] && addUserCommand == ["sudo", "useradd", "-m"]
      ensures executeCommand == ["mkdir"] && testCommand == ["ls", "-ld"] && cleanCommand == ["rm", "-r"]
      ensures cmdPrefix == [] && log == []
    {
      login := [];
      setUser := ["sudo", "-u"];
      addUserCommand := ["sudo", "useradd", "-m"];
      executeCommand := ["mkdir"];
      testCommand := ["ls", "-ld"];
      cleanCommand := ["rm", "-r"];
      cmdPrefix := [];
      log := [];
    }

    /** `run_command(command)`: the line goes to the host, and onto the log. */
    method RunCommand(command: seq<string>) returns (reply: Reply)
      modifies this`log
      ensures reply == world(old(log), CommandLine(Config(), command))
      ensures log == old(log) + [CommandLine(Config(), command)]
    {
      var line;
      if kind == DockerHost {
        line := Join(command, ' ');
      } else {
        line := Join(login + command, ' ');
      }
      reply := world(log, line);
      log := log + [line];
    }

    /** `add_user(user)` */
    method AddUser(user: string)
      modifies this`log
      ensures log == AddUserSpec(Config(), world, user, old(log))
    {
      var probe := RunCommand(["id", user]);
      if !probe.ok {
        var _ := RunCommand(addUserCommand + [user]);
      }
    }

    /** `execute(test_case, target_path)` */
    method Execute(tc: TestCase, path: string, cwd: seq<string>) returns (r: ExecuteResult)
      modifies this`log
      ensures Outcome(Ok(r), log) == ExecuteSpec(Config(), world, tc, path, cwd, old(log))
    {
      if tc.securityCheck && !IsSafePath(path, cwd) {
        return ExecuteResult(Given(false), NotSafeMessage(path));
      }
      var execCommand := ConstructCommand(Config(), tc.userRun, executeCommand + tc.flags + [path]);
      var reply := RunCommand(execCommand);
      r := ExecuteResult(Given(reply.ok), reply.output);
    }

    /** `check(test_case, target_path)` */
    method Check(tc: TestCase, path: string, cwd: seq<string>) returns (r: Result<CheckResult, PyError>)
      modifies this`log
      ensures Outcome(r, log) == CheckSpec(Config(), world, tc, path, cwd, old(log))
    {
      if path == "" {
        return Ok(CheckResult(Given(false), Default, EmptyPathMessage));
      }
      if !IsSafePath(path, cwd) {
        return Ok(CheckResult(Given(false), Default, NotSafeMessage(path)));
      }
      var checkCommand := ConstructCommand(Config(), tc.userCheck, testCommand + [path]);
      var reply := RunCommand(checkCommand);
      if !reply.ok {
        return Ok(CheckResult(Given(false), Default, reply.output));
      }
      var permissions := PermissionToken(reply.output);
      if permissions.None? {
        return Err(AttributeError);
      }
      r := Ok(CheckResult(Given(true), Given(permissions == tc.expPermissions), reply.output));
    }

    /** `clean(base_dir, target_path)`; a failed `rm -r` is only logged. */
    method Clean(baseDir: string, targetPath: string, cwd: seq<string>) returns (r: Result<(), PyError>)
      modifies this`log
      ensures Outcome(r, log) == CleanSpec(Config(), world, baseDir, targetPath, cwd, old(log))
    {
      var top := FindTop(baseDir, targetPath);
      if top.Err? {
        return Err(top.error);
      }
      if !IsSafePath(top.value, cwd) {
        return Err(AssertionError);
      }
      var _ := RunCommand(cleanCommand + [top.value]);
      r := Ok(());
    }

    /** The loop of `clean` that looks for the base's last segment among the target's components. */
    method FindTop(baseDir: string, targetPath: string) returns (top: Result<string, PyError>)
      ensures top == TopDirectory(baseDir, targetPath)
    {
      var base, target := StripChar(baseDir, '"'), StripChar(targetPath, '"');
      var components := Split(target, '/');
      var last := Last(Split(base, '/'));
      // `top_directory_path` stays unbound until the loop finds the base's last segment
      top := Err(UnboundLocalError);
      var idx := 0;
      while idx < |components|
        invariant 0 <= idx <= |components|
        invariant top == Err(UnboundLocalError)
        invariant forall j :: 0 <= j < idx ==> components[j] != last
      {
        if components[idx] == last {
          top := Ok(TopAt(base, components, idx));
          assert FirstIndex(components, last) == Some(idx);
          return;
        }
        idx := idx + 1;
      }
    }
  }

  // ---------------------------------------------------------------------
  // Scenarios: single inputs that illustrate the general properties above

  /**
   * A folder listed as `drwx------` when `drwxr-xr-x` is expected exists, but
   * its permission status is false.
   */
  lemma PermissionMismatch(cfg: TargetConfig, world: World, tc: TestCase, path: string, cwd: seq<string>,
                           log: seq<string>, rest: string)
    requires path != "" && IsSafePath(path, cwd)
    requires tc.expPermissions == Some("drwxr-xr-x")
    requires rest != [] && IsSpace(rest[0])
    requires world(log, CommandLine(cfg, ConstructCommand(cfg, tc.userCheck, cfg.testCommand + [path])))
      == Reply(true, "drwx------" + rest)
    ensures CheckSpec(cfg, world, tc, path, cwd, log).result
      == Ok(CheckResult(Given(true), Given(false), "drwx------" + rest))
  {
    DrwxToken(rest);
    DistinctPermissions();
    CheckListed(cfg, world, tc, path, cwd, log, "drwx------");
  }

  lemma DrwxToken(rest: string)
    requires rest != [] && IsSpace(rest[0])
    ensures PermissionToken("drwx------" + rest) == Some("drwx------")
  {
    DrwxChars();
    PermissionTokenOf("drwx------", rest);
  }

  lemma DrwxChars()
    ensures forall k :: 0 <= k < |"drwx------"| ==> IsPermChar("drwx------"[k])
  {
    assert IsPermChar('d') && IsPermChar('r') && IsPermChar('w') && IsPermChar('x') && IsPermChar('-');
  }

  lemma DistinctPermissions()
    ensures "drwx------" != "drwxr-xr-x"
  {
    assert "drwx------"[4] != "drwxr-xr-x"[4];
  }

  /** The example of the clean-up: base "/tmp" and target "/tmp/abc/def/ghi" remove "/tmp/abc". */
  lemma CleanExample(cfg: TargetConfig, world: World, cwd: seq<string>, log: seq<string>)
    ensures CleanSpec(cfg, world, "/tmp", "/tmp/abc/def/ghi", cwd, log)
      == Outcome(Ok(()), log + [CommandLine(cfg, cfg.cleanCommand + ["/tmp/abc"])])
  {
    ExampleTop(cwd);
  }

  /** The top directory of the example, and its safety. */
  lemma ExampleTop(cwd: seq<string>)
    ensures TopDirectory("/tmp", "/tmp/abc/def/ghi") == Ok("/tmp/abc")
    ensures IsSafePath("/tmp/abc", cwd)
  {
    var names := ["abc", "def", "ghi"];
    ExampleNames();
    CleanTargetsFirstName(names, cwd);
    TmpAbc();
  }

  lemma TmpAbc()
    ensures "/tmp/" + ["abc", "def", "ghi"][0] == "/tmp/abc"
  {
    assert ["abc", "def", "ghi"][0] == "abc";
  }

  lemma ExampleNames()
    ensures "/" + Join(["tmp"] + ["abc", "def", "ghi"], '/') == "/tmp/abc/def/ghi"
    ensures forall k :: 0 <= k < 3 ==> PlainName(["abc", "def", "ghi"][k])
  {
    ExampleJoin();
    ExamplePlain();
  }

  lemma ExampleJoin()
    ensures "/" + Join(["tmp"] + ["abc", "def", "ghi"], '/') == "/tmp/abc/def/ghi"
  {
    assert ["tmp"] + ["abc", "def", "ghi"] == ["tmp", "abc", "def", "ghi"];
    JoinAbc();
    JoinCons("tmp", ["abc", "def", "ghi"], "abc/def/ghi");
  }

  lemma JoinAbc()
    ensures Join(["abc", "def", "ghi"], '/') == "abc/def/ghi"
  {
    assert Join(["def", "ghi"], '/') == "def/ghi";
    JoinCons("abc", ["def", "ghi"], "def/ghi");
  }

  lemma ExamplePlain()
    ensures forall k :: 0 <= k < 3 ==> PlainName(["abc", "def", "ghi"][k])
  {
    assert PlainName("abc") && PlainName("def") && PlainName("ghi");
  }

  /** Scenario: base "/tmp" and target "/var/x". */
  lemma CleanOutsideExample(cfg: TargetConfig, world: World, cwd: seq<string>, log: seq<string>)
    ensures CleanSpec(cfg, world, "/tmp", "/var/x", cwd, log) == Outcome(Err(UnboundLocalError), log)
  {
    TopOutsideBase();
  }

  lemma TopOutsideBase()
    ensures TopDirectory("/tmp", "/var/x") == Err(UnboundLocalError)
  {
    TmpParts();
    VarParts();
    assert FirstIndex(["", "var", "x"], "tmp") == None by {
      assert "tmp" !in ["", "var", "x"];
    }
  }

  /** "/var/x" has nothing to strip and splits into "", "var" and "x". */
  lemma VarParts()
    ensures StripChar("/var/x", '"') == "/var/x"
    ensures Split("/var/x", '/') == ["", "var", "x"]
  {
    assert SafeChars("/var/x");
    StripQuoteFree("/var/x");
    assert Join(["var", "x"], '/') == "var/x";
    SplitJoin(["var", "x"], '/');
    assert "/var/x"[1..] == "var/x";
  }
}
