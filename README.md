# A verified model of the mkdir conformance-test harness

The harness runs `mkdir` on several kinds of target (the local machine, a
remote machine reached over `ssh`, a Docker container) and compares what
happened with what each test case expected. This project models its core in
Dafny and proves properties of the model:

- `Utils` (`utils.py`): the injection denylist `is_injection_safe`, the path
  check `is_safe_path` as a short-circuiting chain of verdicts, and
  `PathFactory`, which draws random folder names and joins `depth` of them
  under `base_dir`.
- `Targets` (`target.py`): one class `Target` for the three target kinds,
  with the command-prefix attributes as fields the initialisers set and
  overwrite. `add_user`, `execute`, `check` and `clean` are methods. Each is
  proved equal to a function of the target's attributes, its host and its
  log of command lines (`AddUserSpec`, `ExecuteSpec`, `CheckSpec`,
  `CleanSpec`), and the lemmas are about those functions.
- `Handler` (`handler.py`): the verdict `_check_results`, the identifier
  parsing of `target_factory`, `_run_single`, `run_test`, `run` and
  `report`. The class `TestHandler` holds `test_cases`, `successful_run` and
  the position in the random stream. Its methods are proved equal to
  functions (`RunSingleSpec`, `RunTestSpec`, `RunGroupsFrom`, `Summary`),
  and the properties of a run and its report are lemmas about those functions.
- `Records` (`datatypes.py`): the `TestCase` record with its defaults, and
  the result records that the other files build.
- `Base`, `Text` and `Paths` hold the Python and `pathlib` operations the
  core uses: `Option`/`Result`, `str.split`/`join`/`strip`/`upper`,
  substring search, `PurePath` parsing, joining, printing and resolution.

Two things outside the program become parameters:

- **Hosts.** The host behind a target is a `World`. Given the command lines
  already run on the target and the next line, it says whether the exit code
  was 0 and what was printed.
- **Randomness.** `random.choice` is a stream `rng: nat -> nat`. Draw `k`
  is `rng(k)` reduced modulo the size of the alphabet.

Things the Python code leaves undefined are also parameters:

- the iteration order of `set([user_run, user_check])`;
- the working directory that `Path.resolve()` uses for relative paths;
- the declared defaults of the result-record fields that a call leaves out
  (`ResultDefaults`).

Where the code and the design description of the system disagree, the
model follows the code:

- **Output check direction.** The code tests whether the stripped actual
  output occurs in the stripped expected output, not the other way round. An
  empty actual output therefore meets any expectation
  (`Handler.OutputComparison`).
- **No absoluteness check.** `is_safe_path` never checks that a path is
  absolute. A relative path is resolved against the working directory.
- **Prefix containment.** Containment under `/tmp` is a string prefix test,
  so `/tmpx` is accepted (`Utils.PrefixQuirk`).
- **Invalid names are not unsafe.** Invalid folder names draw from
  letters, digits and `!@#^`, and none of those is in the denylist. A path
  of invalid names under `/tmp` is therefore accepted
  (`Utils.GeneratedPathIsSafe`).
- **Quoting per name.** Quoting wraps each generated name in single
  quotes, not the joined path.
- **Backslash sequences.** The denylist entries `\n` and `\r` are the
  two-character backslash sequences, not control characters
  (`Utils.NewlineQuirk`).
- **Exceptions end a target's thread.** A malformed identifier with three
  `_`-separated parts raises `TypeError`. A listing without a permission
  token raises `AttributeError`. `clean` can raise `UnboundLocalError` or
  `AssertionError`. Each of these ends that target's thread without
  clearing `successful_run`, so the report can say PASSED while it lists
  failing cases (`Handler.MalformedTargetStillPasses`).
- **Unknown target kinds.** An unknown kind gives no target. Its cases get
  records whose `success`, `folder_exists` and `permissions_check_status`
  keep their declared defaults, so their verdicts depend on those defaults.
- **Missing remote parameter.** A remote identifier without a parameter
  logs in to `root@None`.

Some behaviour is not fixed by the files modelled here, so the model
assumes it:

- `TestCaseResult`'s truth value is taken to be the conjunction of its four
  comparisons.
- `TestCase.test_result` is declared `Optional[bool]` but is assigned a
  `TestCaseResult`. The model stores an `Option<TestCaseResult>`.
- Assertions are enabled.
- `TargetSpecs` is imported from `datatypes.py`, but its declaration is not in the files modelled here. The model takes it to have two fields, `host` and `parameters`, with `parameters` defaulting to `None`. So a host alone gives no parameter, and three `_`-separated parts raise `TypeError`.

## Model

| member | source | states |
|---|---|---|
| Utils.InjectionSafeIff | utils.py:11-17 | A string passes the denylist exactly when it holds none of its nine single characters, `$(`, backslash-n or backslash-r: the longer entries `>>`, `2>`, `\|\|`, `&&` forbid nothing more |
| Utils.RiskAbsent | utils.py:13-17 | A string free of the reduced denylist contains none of the sixteen entries |
| Utils.RiskCharUnsafe | utils.py:13-17 | Any single denylisted character anywhere in a string makes it unsafe |
| Utils.RiskCharPresent | utils.py:13-17 | A safe string contains none of the denylisted characters |
| Utils.SafeCharsInjectionSafe | utils.py:11-17 | A string of characters outside the denylist, `$` and backslash passes the injection check |
| Utils.SafeCharsConcat | utils.py:11-17 | Concatenating two strings of safe characters keeps them safe |
| Utils.JoinSafeChars | utils.py:11-17 | Joining safe parts with "/" keeps them safe |
| Utils.NewlineQuirk | utils.py:15 | A real newline passes the denylist; the two characters backslash-n do not |
| Utils.TraversalRejected | utils.py:27-30 | Any path with a ".." component is rejected, as an injection risk or as traversal |
| Utils.SafePathUnderTmp | utils.py:32-47 | An accepted path resolves to a string that starts with "/tmp" and is not "/tmp" |
| Utils.ClassifyAbsolute | utils.py:19-47 | On an absolute path of plain metacharacter-free parts, the verdict depends only on "..", equality with "/tmp" and the "/tmp" prefix |
| Utils.ClassifyResolved | utils.py:32-47 | For an injection-safe, traversal-free path that resolves to itself, the verdict is the "/tmp" equality test, then the prefix test |
| Utils.ClassifyInjection | utils.py:21-25 | An absolute path that fails the denylist is reported as an injection risk before any other check |
| Utils.InjectionRejected | utils.py:19-25 | Any path string, relative or absolute, that holds a denylisted entry anywhere is reported as an injection risk: `Path(path)` drops only separators and whole "." parts, and no entry holds "/" or "." |
| Paths.ParseKeepsNeedle | utils.py:21-23 | `str(Path(s))` still holds every non-empty piece of text of `s` that holds neither "/" nor "." |
| Utils.AbsoluteUnderTmpAccepted | utils.py:39-47 | Every absolute plain path whose first part starts with "tmp" is accepted, except "/tmp" itself |
| Utils.UnderTmpVerdict | utils.py:39-47 | The verdict on such parts is Safe |
| Utils.OutsideVerdict | utils.py:39-47 | Parts whose first part does not start with 't' are outside the allowed base |
| Utils.TmpItselfRejected | utils.py:34-37 | "/tmp" is rejected as exactly the base |
| Utils.TmpResolves | utils.py:40-43 | `Path('/tmp')` resolves to itself and prints as "/tmp" |
| Utils.NormalizeWellFormed | utils.py:32 | Resolution keeps every part free of separators |
| Utils.AbsoluteSafeChars | utils.py:23 | An absolute path printed from safe parts passes the injection check |
| Utils.AbsoluteStr | utils.py:21-23 | An absolute path of plain parts prints as "/" and the parts joined by "/", and parses back to itself |
| Utils.Alphabet | utils.py:64-67 | Every policy's alphabet is non-empty |
| Utils.AlphabetChars | utils.py:64-67 | Valid names draw exactly word characters (plus a space when spaces are allowed); invalid names draw exactly alphanumerics and "!@#^" |
| Utils.Draw | utils.py:68 | `n` draws give `n` characters, each from the alphabet |
| Utils.FolderNameShape | utils.py:68-73 | The name is a stretch of the drawn characters: at most `folder_name_length` of them, from the alphabet, with no whitespace at either end; quoting wraps exactly that stretch |
| Utils.ValidNameIsWord | utils.py:64-68 | A valid name without spaces or quotes has exactly `folder_name_length` word characters |
| Utils.InvalidNameChars | utils.py:66-68 | An invalid name holds only letters, digits and "!@#^", quotes aside |
| Utils.QuotedNameOnePair | utils.py:70-71 | A quoted name is wrapped in exactly one pair of single quotes |
| Utils.AlphabetPlain | utils.py:64-67 | No alphabet holds a separator, a dot or an unsafe character |
| Utils.FolderNameIsPart | utils.py:61-73 | A name that stripping cannot empty is a plain path component |
| Utils.CreatePath | utils.py:52-59 | The path returned is `base_dir` with the `depth` generated names joined under it, and the draws consumed are those `DrawsUsed` counts |
| Utils.AppendNames | utils.py:54-58 | After the loop, the path is the base joined with the first `depth` names, each drawn `folder_name_length` positions after the previous one |
| Utils.AppendName | utils.py:56-57 | One round appends the name drawn next to the path built so far |
| Utils.DrawsUsedProduct | utils.py:55-68 | A case consumes exactly `depth * folder_name_length` draws |
| Utils.BuildPathSnoc | utils.py:55-57 | Each round of the loop appends the next name to the path |
| Utils.BuildPathAppends | utils.py:54-59 | Plain names are appended as exactly one component each |
| Utils.DepthZeroIsBase | utils.py:54-59 | With depth 0 the path is `base_dir` as pathlib prints it |
| Utils.JoinEmptyName | utils.py:57 | Joining an empty name leaves a path unchanged |
| Utils.GeneratedPathIsSafe | utils.py:19-73 | Under the default base, every generated path of non-empty names passes `is_safe_path`, invalid names included |
| Utils.CreatedUnderTmp | utils.py:52-59 | Under "/tmp", the generated path is "/tmp" followed by the names, which are plain and safe |
| Utils.FolderNamesPlain | utils.py:55-56 | Names drawn from a source of plain names are all plain |
| Utils.NameSourcePlain | utils.py:61-73 | Every name a non-emptying policy generates is plain |
| Text.SplitJoin | target.py:102 | Splitting the join of separator-free parts gives the parts back |
| Text.StripBySlice | utils.py:68 | Stripping yields a contiguous stretch of the input with nothing strippable at either end |
| Text.StripByShape | utils.py:68 | Stripping keeps at most as many characters as it was given, only characters of its input, and nothing strippable at either end |
| Text.Upper | handler.py:125 | The upper-cased string has the same length, no lower-case ASCII letter, every other character unchanged in place, and each lower-case letter turned into the upper-case letter at the same place in the alphabet |
| Text.UpperIdempotent | handler.py:125 | Upper-casing twice gives the same string as upper-casing once |
| Text.ContainsIffOccurs | handler.py:114 | Substring search finds `sub` exactly when it occurs at some index |
| Paths.ParseIdempotent | utils.py:21-23 | Printing a parsed path and parsing it again gives the same path |
| Paths.ResolveAbsolute | utils.py:32 | Resolving a normalised absolute path keeps its parts |
| Records.NewTestCase | datatypes.py:4-29 | A case built from its required fields has base "/tmp", name length 10, no spaces, valid names, clean-up on, no flags and no result |
| Targets.PermRun | target.py:87 | The scanned run is the longest prefix of `[drwx-]` characters |
| Targets.PermissionTokenMatches | target.py:87 | The scanner finds a token exactly when `^([drwx-]+)\s+` matches, and the token is the match's only possible first group |
| Targets.PermissionTokenOf | target.py:87 | A listing that starts with a token and a whitespace has that token |
| Targets.ConstructCommandByKind | target.py:20-27 | Commands run as `sudo -u user` on local and remote targets, and as `su - user -c ' ... '` in Docker |
| Targets.CommandLineByKind | target.py:123-164 | A remote target prefixes `ssh root@<parameters>` to the joined command; the others prefix nothing |
| Targets.AddUserRunsProbeFirst | target.py:37-46 | `add_user` always probes with `id`, runs `useradd` exactly when the probe fails, and runs at most two commands |
| Targets.ExecuteSpec | target.py:48-60 | `execute` never raises |
| Targets.ExecuteUnsafeRunsNothing | target.py:50-54 | With the security check on, an unsafe path fails with the "not safe" message and runs nothing |
| Targets.ExecuteRunsMkdir | target.py:55-60 | Otherwise exactly one command runs: `mkdir` with the flags and the path, as `user_run`; success is its exit status |
| Targets.CheckUnsafeRunsNothing | target.py:64-74 | An empty or unsafe path runs nothing and reports a missing folder without a permission status |
| Targets.CheckExistingFolder | target.py:76-94 | One `ls -ld` runs as `user_check`. A failed listing reports a missing folder. A listing without a token raises. Otherwise the permission status is whether the token equals the expected permissions |
| Targets.FirstIndex | target.py:104-107 | The loop stops at the first component equal to the base's last segment |
| Targets.CleanRemovesOnlySafePaths | target.py:96-118 | `clean` either raises having run nothing, or runs exactly one `rm -r` on a directory that passed `is_safe_path` and returns normally |
| Targets.CleanTargetsFirstName | target.py:99-112 | Under base "/tmp", the top directory of "/tmp/n1/.../nk" is "/tmp/n1", which passes the safety check |
| Targets.CleanUnderTmp | target.py:96-118 | Under "/tmp", cleaning a path of plain names runs exactly `rm -r /tmp/<first name>` |
| Targets.CleanTmpItself | target.py:106-112 | Cleaning "/tmp" under base "/tmp" computes "/tmp" itself; the assertion fails and nothing is removed |
| Targets.CleanOutsideBase | target.py:101-112 | For every base and target, when no component of the stripped target equals the base's last segment, the top directory stays unbound: `clean` raises `UnboundLocalError` and runs nothing |
| Targets.FirstIndexAbsent | target.py:104-108 | The search of the components finds no index for a segment that does not occur |
| Targets.Target.Local | target.py:20-27 | A local target has the base attributes and an empty log |
| Targets.Target.Remote | target.py:138-142 | A remote target has the base attributes, then an `ssh root@<parameters>` login |
| Targets.Target.Docker | target.py:144-152 | A Docker target switches users with `su -`, prefixes `-c` and runs `useradd` without `sudo` |
| Targets.Target.InitTarget | target.py:20-27 | The base initialiser's attribute values |
| Targets.Target.RunCommand | target.py:123-164 | The line sent is the joined command, with the login in front except in Docker; it is appended to the log and the host's reply is returned |
| Targets.Target.AddUser | target.py:37-46 | The log grows as `AddUserSpec` says |
| Targets.Target.Execute | target.py:48-60 | Result and log are those of `ExecuteSpec` |
| Targets.Target.Check | target.py:62-94 | Result, exception and log are those of `CheckSpec` |
| Targets.Target.Clean | target.py:96-118 | Result, exception and log are those of `CleanSpec` |
| Targets.Target.FindTop | target.py:101-111 | The loop with its `break` computes the top directory `TopDirectory` describes, or the `IndexError` fallback |
| Handler.VerdictPassesIff | handler.py:103-117 | A verdict passes exactly when the run and existence match their expectations, the output is unexpected or found, and the permissions are unexpected or matched |
| Handler.VerdictIgnoresUnexpected | handler.py:113-116 | Without output and permission expectations, only success and existence decide the verdict, and the other two comparisons hold |
| Handler.OutputComparison | handler.py:113-114 | An empty actual output matches every expectation; an actual output longer than the expectation never does |
| Handler.WrongPermissionsFail | handler.py:116 | For every listing whose permission token differs from the expected permissions, the folder is reported as existing, the permission comparison is false, and the verdict fails |
| Handler.ParseTargetTypeOf | handler.py:124 | "host" and "host_param" parse to the host and the optional parameter |
| Handler.ParseTargetTypeTooMany | handler.py:124 | Three `_`-separated parts raise `TypeError` |
| Handler.ResolveTargetCaseInsensitive | handler.py:124-125 | The host name is matched regardless of the case of its ASCII letters |
| Handler.ResolveNamedTarget | handler.py:13-17 | A member name resolves to its kind, with or without a parameter |
| Handler.ResolveUnknownTarget | handler.py:119-129 | An unknown host gives no target and no exception |
| Handler.TargetFactory | handler.py:119-129 | An error exactly when the identifier is malformed; otherwise a fresh target of the resolved kind with the parameter, or null for an unknown host |
| Handler.Users | handler.py:63 | The users are exactly `user_run` and `user_check`, without repetition |
| Handler.AddUsersLength | handler.py:65-66 | Each user adds one or two commands, the log only grows, and the first command added is the first user's `id` probe; which second command runs, and when, is `Targets.AddUserRunsProbeFirst` |
| Handler.AddUsers | handler.py:65-66 | The loop over the users leaves the target's log as `AddUsersSpec` says and keeps its attributes |
| Handler.ExecuteAndCheck | handler.py:69-73 | Records and log are those of `execute`, then `check`, then `clean` when the case asks for it and the folder was found |
| Handler.UnsafePathRunsOnlyUserSetup | handler.py:62-73 | With the security check on, an unsafe drawn path runs only the user set-up: no `mkdir`, `ls -ld` or `rm -r`; both records report failure |
| Handler.NoCleanUnlessRequested | handler.py:72-73 | Without `clean_up`, the check's command is the case's last |
| Handler.CleanUpRemovesFirstFolder | handler.py:60-77 | A case with clean-up under "/tmp" whose folder was found ends by removing exactly the first generated folder, quoted or not; only valid names that allow spaces without quotes, which may strip to nothing, are excluded |
| Handler.AfterExecuteCleansUnderTmp | handler.py:72-73 | Once the folder "/tmp/<names>" was found, the clean-up appends `rm -r /tmp/<first name>` |
| Handler.CreatedPlainNames | handler.py:68 | With the default base, the drawn path is "/tmp" followed by plain names whenever the names are quoted or cannot strip to nothing |
| Handler.CaseStepFacts | handler.py:36-48 | A pass either ends the thread with the cases untouched, or stores a verdict for its case alone and records a failure exactly when that verdict is false |
| Handler.RunCasesFacts | handler.py:34-48 | Earlier cases are untouched, later ones only gain verdicts; unless an exception ended the loop, a failure is recorded exactly when some verdict is false |
| Handler.RunCasesKeep | handler.py:34-39 | The loop leaves the earlier cases alone and only stores verdicts |
| Handler.RunCasesFailed | handler.py:39-48 | Unless an exception ended the loop, it records a failure exactly when one had been recorded or some later case has a false verdict |
| Handler.MissingTargetRunsNothing | handler.py:74-76 | Without a target, every case gets the verdict on the two "wasn't" records, no command runs and nothing is drawn |
| Handler.RunTestFacts | handler.py:31-48 | A thread only stores verdicts on its cases, and unless an exception ended it, it records a failure exactly when one of its cases has a false verdict |
| Handler.TestRunFacts | handler.py:31-48 | Those facts hold for `run_test` on every target and every position in the random stream |
| Handler.RunGroupsFacts | handler.py:27-58 | For any thread function with those facts: identifiers and earlier targets are kept, and with no exception the final `successful_run` is the initial one and-ed with every stored verdict |
| Handler.CaseTally | handler.py:85-90 | Within one target, every case is either counted a success or listed as failing |
| Handler.ReportTally | handler.py:84-92 | Successes plus failing entries equal the total; nothing is listed exactly when every verdict is true |
| Handler.RunThenReport | handler.py:25-100 | With no exception, a run from a fresh handler reports PASSED exactly when it lists no failing case, and then all cases succeeded |
| Handler.TestHandler.constructor | handler.py:22-25 | A new handler holds the cases, `successful_run` is true, and nothing has been drawn |
| Handler.TestHandler.RunSingle | handler.py:60-77 | Records, next draw and target log are those of `RunSingleSpec`; the target keeps its attributes |
| Handler.TestHandler.RunTest | handler.py:31-48 | The thread's cases, `successful_run` and draws are those of `RunTestSpec` |
| Handler.TestHandler.RunCases | handler.py:34-48 | The loop over a target's cases stores the verdicts `RunCasesFrom` computes, clears `successful_run` exactly when one is false, and leaves draws and log where it ends |
| Handler.TestHandler.RunCaseAt | handler.py:35-48 | One pass either stops the thread on an exception in the state `RunCasesFrom` ends in, or stores its verdict and leaves the rest of `RunCasesFrom` to do |
| Handler.TestHandler.RunThread | handler.py:51-58 | Starting and joining the thread of the `g`-th target changes the handler's state as one `GroupStep` |
| Handler.TestHandler.RunNextTarget | handler.py:51-58 | One pass of the loop of `run()` leaves what remains of `RunGroupsFrom` unchanged |
| Handler.TestHandler.Run | handler.py:27-58 | The handler's state is that of `RunGroupsFrom` over all targets in turn |
| Handler.TestHandler.Report | handler.py:79-100 | The nested loops count the true verdicts, list the others as "[target - name]" and the hosts, and the report says PASSED exactly when `successful_run` holds |
| Utils.NestedTmpAccepted | utils.py:39-47 | Scenario: "/tmp/a/b" is accepted |
| Utils.OutsideRejected | utils.py:42-45 | Scenario: "/etc/passwd" is rejected as outside the allowed base |
| Utils.PrefixQuirk | utils.py:43 | Scenario: "/tmpx", a sibling of "/tmp", is accepted by the string prefix test |
| Utils.TraversalExample | utils.py:27-30 | Scenario: "/tmp/../etc" is reported as traversal, because the check runs before resolution |
| Utils.InjectionExample | utils.py:22-25 | Scenario: "/tmp/a;b" is reported as an injection risk |
| Utils.SpaceOnlyNameGivesTmp | utils.py:52-73 | Scenario: with spaces allowed, a one-character name that draws the space strips to "", the path becomes "/tmp", and the safety check rejects it |
| Utils.SpaceDrawn | utils.py:65 | Scenario: with spaces allowed, draw 62 of the 64 characters is the space |
| Targets.PermissionMismatch | target.py:86-94 | Scenario: a folder listed as `drwx------` when `drwxr-xr-x` is expected exists with a false permission status |
| Targets.CleanExample | target.py:96-118 | Scenario: base "/tmp" and target "/tmp/abc/def/ghi" remove "/tmp/abc" |
| Handler.LowerCaseRemote | handler.py:13-17 | Scenario: "remotehost" names the remote kind |
| Handler.MalformedTargetStillPasses | handler.py:31-100 | Scenario: an identifier with three parts ends its thread at once: its case is listed as failing, yet the report says PASSED |
| Targets.CleanOutsideExample | target.py:101-112 | Scenario: base "/tmp" and target "/var/x" raise `UnboundLocalError` |
| Handler.WrongPermissionsExample | handler.py:116 | Scenario: a folder listed as `drwx------` when `drwxr-xr-x` is expected fails its verdict |

## Left out

- Logging: every `logger` call, including the failing case's details at handler.py:44-47 and the warning of a failed `rm -r`.
- Threads: `run()` runs one thread per target. The model runs them one after the other, in the dictionary's order, and shares one random stream between them. Interleavings, and races on `successful_run`, are not modelled.
- Process and container calls: the bodies of `subprocess.run`, `docker.from_env`, `containers.run`, `exec_run`, `stop` and `remove` become the `World` reply function. Starting and removing the container are not modelled, and neither is the UTF-8 decoding of its output.
- `DockerHost.remove_container` and the container's teardown are not modelled, because they only reach the container runtime.
- `routine.py` is not part of this model. It is the command-line entry point that reads the configuration files and exits with the result.
- `Path.resolve()` does not model symbolic links. It normalises "." and ".." against a working-directory parameter.
- `random.choice` is the stream `rng`, not a uniform distribution: the model says which draw each character uses, not how likely it is.
- The general regular-expression engine is replaced by a scanner for the single pattern `^([drwx-]+)\s+`.
- `TestCaseResult` and the other result records are declared from their uses. Their field defaults are the `ResultDefaults` parameter.
- Text.Upper: changes only the ASCII letters a-z. Python's `str.upper` covers all of Unicode. For example, `"localhoſt".upper() == "LOCALHOST"`, so `target_factory` (handler.py:125) builds a LocalHost, while `Handler.ResolveTarget` gives `Ok(None)`. Some characters also change length: `"ß".upper() == "SS"`.
- Handler.TestHandler.Report: returns the tally, the hosts, the failing entries and the verdict rather than logging the formatted message.
