/**
 * The path-safety predicate and the random path generator of the harness.
 * `random.choice` is a stream `rng` of draws; draw `k` picks character
 * `rng(k) % |alphabet|` of the alphabet in use.
 */
module Utils {
  import opened Base
  import opened Text
  import opened Paths
  import opened Records

  /** The denylist, in the order it is tested; "\\n" and "\\r" are two-character backslash sequences. */
  const InjectionRisks: seq<string> :=
    [";", "&", "|", "`", "$(", ")", ">", "<", ">>", "2>", "\\n", "\\r", "*", "?", "||", "&&"]

  /** The single characters of the denylist. */
  const RiskChars: string := ";&|`)><*?"

  /** No entry of the denylist occurs in `s`. */
  predicate IsInjectionSafe(s: string) {
    forall risk :: risk in InjectionRisks ==> !Contains(s, risk)
  }

  /** What the denylist actually forbids: its nine single characters, "$(", backslash-n and backslash-r. */
  predicate NoReducedRisk(s: string) {
    (forall c :: c in RiskChars ==> c !in s) &&
    !Contains(s, "$(") && !Contains(s, "\\n") && !Contains(s, "\\r")
  }

  lemma RiskAbsent(s: string, risk: string)
    requires risk in InjectionRisks && NoReducedRisk(s)
    ensures !Contains(s, risk)
  {
    if |risk| == 1 {
      assert risk == [risk[0]];
      assert risk[0] in RiskChars;
      ContainsChar(s, risk[0]);
    } else if risk == ">>" || risk == "2>" {
      assert Contains(risk, ">") by { assert Contains(risk[1..], ">"); }
      assert '>' in RiskChars;
      ContainsChar(s, '>');
      if Contains(s, risk) {
        ContainsTrans(s, risk, ">");
      }
    } else if risk == "||" || risk == "&&" {
      assert Contains(risk, [risk[0]]);
      assert risk[0] in RiskChars;
      ContainsChar(s, risk[0]);
      if Contains(s, risk) {
        ContainsTrans(s, risk, [risk[0]]);
      }
    }
  }

  /** Any single denylisted character makes a string unsafe. */
  lemma RiskCharUnsafe(s: string, i: int)
    requires 0 <= i < |s| && s[i] in RiskChars
    ensures !IsInjectionSafe(s)
  {
    assert [s[i]] in InjectionRisks;
    ContainsChar(s, s[i]);
  }

  lemma RiskCharPresent(s: string, c: char)
    requires c in RiskChars && IsInjectionSafe(s)
    ensures c !in s
  {
    assert [c] in InjectionRisks;
    ContainsChar(s, c);
  }

  /**
   * The denylist reduced to what it actually forbids: the longer entries
   * ">>", "2>", "||" and "&&" add nothing to their single characters.
   */
  lemma InjectionSafeIff(s: string)
    ensures IsInjectionSafe(s) <==> NoReducedRisk(s)
  {
    if NoReducedRisk(s) {
      forall risk | risk in InjectionRisks
        ensures !Contains(s, risk)
      {
        RiskAbsent(s, risk);
      }
    }
    if IsInjectionSafe(s) {
      forall c | c in RiskChars
        ensures c !in s
      {
        RiskCharPresent(s, c);
      }
      assert "$(" in InjectionRisks && "\\n" in InjectionRisks && "\\r" in InjectionRisks;
    }
  }

  /**
   * Characters whose absence guarantees injection safety, with the double
   * quote that `clean` strips from the ends of its arguments.
   */
  predicate IsUnsafeChar(c: char) {
    c == ';' || c == '&' || c == '|' || c == '`' || c == ')' || c == '>' || c == '<'
    || c == '*' || c == '?' || c == '$' || c == '\\' || c == '"'
  }

  /** No character of `s` is a shell metacharacter of the denylist, `$`, a backslash or `"`. */
  predicate SafeChars(s: string) {
    forall i :: 0 <= i < |s| ==> !IsUnsafeChar(s[i])
  }

  lemma SafeCharsConcat(s: string, t: string)
    requires SafeChars(s) && SafeChars(t)
    ensures SafeChars(s + t)
  {
    forall i | 0 <= i < |s + t|
      ensures !IsUnsafeChar((s + t)[i])
    {
      if i >= |s| {
        assert (s + t)[i] == t[i - |s|];
      }
    }
  }

  /** Joining safe parts with "/" keeps them safe. */
  lemma {:induction false} JoinSafeChars(parts: seq<string>)
    requires forall k :: 0 <= k < |parts| ==> SafeChars(parts[k])
    ensures SafeChars(Join(parts, '/'))
    decreases |parts|
  {
    if |parts| > 1 {
      JoinSafeChars(parts[1..]);
      assert SafeChars(parts[0]);
      SafeCharsConcat(parts[0], "/");
      SafeCharsConcat(parts[0] + "/", Join(parts[1..], '/'));
    }
  }

  /** A string made only of safe characters passes the injection check. */
  lemma SafeCharsInjectionSafe(s: string)
    requires SafeChars(s)
    ensures IsInjectionSafe(s)
  {
    forall c | c in RiskChars
      ensures c !in s
    {
      assert IsUnsafeChar(c);
    }
    if Contains(s, "$(") {
      assert Contains("$(", "$");
      ContainsTrans(s, "$(", "$");
      ContainsChar(s, '$');
    }
    if Contains(s, "\\n") {
      assert Contains("\\n", "\\");
      ContainsTrans(s, "\\n", "\\");
      ContainsChar(s, '\\');
    }
    if Contains(s, "\\r") {
      assert Contains("\\r", "\\");
      ContainsTrans(s, "\\r", "\\");
      ContainsChar(s, '\\');
    }
    InjectionSafeIff(s);
  }

  /** A real newline passes; the two characters backslash-n do not. */
  lemma NewlineQuirk()
    ensures IsInjectionSafe("a\nb")
    ensures !IsInjectionSafe("a\\nb")
  {
    SafeCharsInjectionSafe("a\nb");
    assert Contains("a\\nb", "\\n") by { assert Contains("a\\nb"[1..], "\\n"); }
  }

  /** Why `is_safe_path` rejects a path, in the order its checks run. */
  datatype PathVerdict = Safe | InjectionRisk | Traversal | ExactlyTmp | OutsideAllowedBases

  /** `Path('/tmp')`, the only allowed base. */
  const TmpPath: PurePath := PurePath("/", ["tmp"])

  /** The process's working directory as its parts. */
  predicate IsWorkingDir(cwd: seq<string>) {
    forall k :: 0 <= k < |cwd| ==> IsPart(cwd[k]) && cwd[k] != ".."
  }

  /** The checks of `is_safe_path`, short-circuiting in source order. */
  function Classify(path: string, cwd: seq<string>): PathVerdict {
    ClassifyParsed(Parse(path), cwd)
  }

  /** The checks of `is_safe_path` on `Path(path)`. */
  function ClassifyParsed(p: PurePath, cwd: seq<string>): PathVerdict {
    if !IsInjectionSafe(Str(p)) then InjectionRisk
    else if ".." in p.parts then Traversal
    else
      var r := Resolve(p, cwd);
      if r == TmpPath then ExactlyTmp
      else if !StartsWith(Str(r), Str(Resolve(TmpPath, cwd))) then OutsideAllowedBases
      else Safe
  }

  /** `is_safe_path(path)` */
  predicate IsSafePath(path: string, cwd: seq<string>) {
    Classify(path, cwd) == Safe
  }

  lemma TmpResolves(cwd: seq<string>)
    ensures Resolve(TmpPath, cwd) == TmpPath
    ensures Str(TmpPath) == "/tmp"
  {
    NormalizeParts([], ["tmp"]);
  }

  /** Any path with a ".." component is rejected, whatever else it contains. */
  lemma TraversalRejected(path: string, cwd: seq<string>)
    requires ".." in Split(path, '/')
    ensures !IsSafePath(path, cwd)
    ensures Classify(path, cwd) == InjectionRisk || Classify(path, cwd) == Traversal
  {
    assert ".." in Parse(path).parts;
  }

  /**
   * Any path string holding a denylisted entry anywhere is rejected as an
   * injection risk: `Path(path)` only drops separators and whole "." parts,
   * and no entry contains "/" or ".".
   */
  lemma InjectionRejected(path: string, cwd: seq<string>)
    requires !IsInjectionSafe(path)
    ensures Classify(path, cwd) == InjectionRisk
  {
    var risk :| risk in InjectionRisks && Contains(path, risk);
    RiskShape(risk);
    ParseKeepsNeedle(path, risk);
  }

  /** Every entry of the denylist is non-empty and holds neither "/" nor ".". */
  lemma RiskShape(risk: string)
    requires risk in InjectionRisks
    ensures risk != [] && '/' !in risk && '.' !in risk
  {
  }

  /** Normalising parts free of separators keeps them free of separators. */
  lemma {:induction false} NormalizeWellFormed(acc: seq<string>, rest: seq<string>)
    requires forall k :: 0 <= k < |acc| ==> IsPart(acc[k])
    requires forall k :: 0 <= k < |rest| ==> '/' !in rest[k]
    ensures forall k :: 0 <= k < |Normalize(acc, rest)| ==> IsPart(Normalize(acc, rest)[k])
    decreases |rest|
  {
    if rest != [] {
      if rest[0] == "" || rest[0] == "." {
        NormalizeWellFormed(acc, rest[1..]);
      } else if rest[0] == ".." {
        NormalizeWellFormed(if acc == [] then [] else acc[..|acc| - 1], rest[1..]);
      } else {
        NormalizeWellFormed(acc + [rest[0]], rest[1..]);
      }
    }
  }

  /**
   * What an accepted path is: its resolved form starts with "/tmp" (a string
   * prefix, not a parent directory) and is not "/tmp" itself.
   */
  lemma SafePathUnderTmp(path: string, cwd: seq<string>)
    requires IsWorkingDir(cwd)
    requires IsSafePath(path, cwd)
    ensures StartsWith(Str(Resolve(Parse(path), cwd)), "/tmp")
    ensures Str(Resolve(Parse(path), cwd)) != "/tmp"
  {
    TmpResolves(cwd);
    var r := Resolve(Parse(path), cwd);
    ResolveWellFormed(Parse(path), cwd);
    if Str(r) == "/tmp" {
      StrInjective(r, TmpPath);
      assert false;
    }
  }

  /** Resolving a parsed path against the working directory gives a well-formed path. */
  lemma ResolveWellFormed(p: PurePath, cwd: seq<string>)
    requires WellFormed(p) && IsWorkingDir(cwd)
    ensures WellFormed(Resolve(p, cwd))
  {
    var input := if p.root == "" then cwd + p.parts else p.parts;
    assert forall k :: 0 <= k < |input| ==> '/' !in input[k] by {
      forall k | 0 <= k < |input| ensures '/' !in input[k] {
        if p.root == "" && k < |cwd| {
          assert input[k] == cwd[k];
        } else if p.root == "" {
          assert input[k] == p.parts[k - |cwd|];
        }
      }
    }
    NormalizeWellFormed([], input);
  }

  /** Two well-formed paths that print the same are the same path. */
  lemma StrInjective(a: PurePath, b: PurePath)
    requires WellFormed(a) && WellFormed(b) && Str(a) == Str(b)
    ensures a == b
  {
    ParseStr(a);
    ParseStr(b);
  }

  /** An absolute path built from parts of safe characters passes the injection check. */
  lemma AbsoluteSafeChars(parts: seq<string>)
    requires forall k :: 0 <= k < |parts| ==> SafeChars(parts[k])
    ensures IsInjectionSafe("/" + Join(parts, '/'))
  {
    JoinSafeChars(parts);
    SafeCharsConcat("/", Join(parts, '/'));
    SafeCharsInjectionSafe("/" + Join(parts, '/'));
  }

  lemma SlashTmp(j: string)
    requires StartsWith(j, "tmp")
    ensures StartsWith("/" + j, "/tmp")
  {
    assert ("/" + j)[..4] == "/" + j[..3];
  }

  /** Printing an absolute path of plain parts: "/" followed by the parts joined by "/". */
  lemma AbsoluteStr(parts: seq<string>)
    requires parts != [] && forall k :: 0 <= k < |parts| ==> IsPart(parts[k])
    ensures Parse(Str(PurePath("/", parts))) == PurePath("/", parts)
    ensures Str(PurePath("/", parts)) == "/" + Join(parts, '/')
  {
    ParseStr(PurePath("/", parts));
  }

  /** Plain path components free of shell metacharacters. */
  predicate PlainSafeParts(parts: seq<string>) {
    parts != [] && forall k :: 0 <= k < |parts| ==> IsPart(parts[k]) && SafeChars(parts[k])
  }

  /** The verdict on an absolute path of plain, metacharacter-free parts, from the parts alone. */
  function AbsoluteVerdict(parts: seq<string>): PathVerdict {
    if ".." in parts then Traversal
    else if parts == ["tmp"] then ExactlyTmp
    else if !StartsWith("/" + Join(parts, '/'), "/tmp") then OutsideAllowedBases
    else Safe
  }

  /**
   * On an absolute path of plain parts without metacharacters, `is_safe_path`
   * decides by ".." components, equality with "/tmp" and the "/tmp" prefix alone.
   */
  lemma ClassifyAbsolute(parts: seq<string>, cwd: seq<string>)
    requires PlainSafeParts(parts)
    ensures Classify("/" + Join(parts, '/'), cwd) == AbsoluteVerdict(parts)
  {
    var p := PurePath("/", parts);
    AbsoluteStr(parts);
    assert forall k :: 0 <= k < |parts| ==> SafeChars(parts[k]);
    AbsoluteSafeChars(parts);
    if ".." !in parts {
      ResolveAbsolute(p, cwd);
      ClassifyResolved(p, cwd);
    }
  }

  lemma ClassifyResolved(p: PurePath, cwd: seq<string>)
    requires IsInjectionSafe(Str(p)) && ".." !in p.parts && Resolve(p, cwd) == p
    ensures ClassifyParsed(p, cwd) ==
      if p == TmpPath then ExactlyTmp
      else if !StartsWith(Str(p), "/tmp") then OutsideAllowedBases
      else Safe
  {
    TmpResolves(cwd);
  }

  /**
   * Every absolute path of plain, metacharacter-free parts below a first part
   * starting with "tmp" is accepted, "/tmp" itself excepted.
   */
  lemma AbsoluteUnderTmpAccepted(parts: seq<string>, cwd: seq<string>)
    requires PlainSafeParts(parts) && ".." !in parts
    requires parts != ["tmp"] && StartsWith(Join(parts, '/'), "tmp")
    ensures IsSafePath("/" + Join(parts, '/'), cwd)
  {
    UnderTmpVerdict(parts);
    ClassifyAbsolute(parts, cwd);
  }

  lemma UnderTmpVerdict(parts: seq<string>)
    requires ".." !in parts && parts != ["tmp"] && StartsWith(Join(parts, '/'), "tmp")
    ensures AbsoluteVerdict(parts) == Safe
  {
    SlashTmp(Join(parts, '/'));
  }

  /** The allowed base itself is rejected. */
  lemma TmpItselfRejected(cwd: seq<string>)
    ensures Classify("/tmp", cwd) == ExactlyTmp
  {
    ClassifyAbsolute(["tmp"], cwd);
    assert Join(["tmp"], '/') == "tmp";
  }

  lemma OutsideVerdict(parts: seq<string>)
    requires ".." !in parts && parts != [] && |parts[0]| > 0 && parts[0][0] != 't'
    ensures AbsoluteVerdict(parts) == OutsideAllowedBases
  {
    if |parts| > 1 {
      assert ("/" + Join(parts, '/'))[1] == parts[0][0];
    } else {
      assert ("/" + Join(parts, '/'))[1] == parts[0][0];
    }
  }

  lemma ClassifyInjection(parts: seq<string>, cwd: seq<string>)
    requires parts != [] && forall k :: 0 <= k < |parts| ==> IsPart(parts[k])
    requires !IsInjectionSafe("/" + Join(parts, '/'))
    ensures Classify("/" + Join(parts, '/'), cwd) == InjectionRisk
  {
    AbsoluteStr(parts);
  }

  // ---------------------------------------------------------------------
  // PathFactory

  /** A source of `random.choice` draws: draw `k` is `rng(k)`, reduced modulo the alphabet size. */
  type Rng = nat -> nat

  /** `string.ascii_letters`: the lower-case letters, then the upper-case ones. */
  function Letters(): string {
    seq(26, i requires 0 <= i < 26 => (97 + i) as char) + seq(26, i requires 0 <= i < 26 => (65 + i) as char)
  }

  /** `string.digits` */
  function Digits(): string {
    seq(10, i requires 0 <= i < 10 => (48 + i) as char)
  }

  predicate IsAsciiAlnum(c: char) {
    'a' <= c <= 'z' || 'A' <= c <= 'Z' || '0' <= c <= '9'
  }

  /** A letter, a digit or an underscore. */
  predicate IsWordChar(c: char) {
    IsAsciiAlnum(c) || c == '_'
  }

  /** The characters a folder name is drawn from, by policy. */
  function Alphabet(tc: TestCase): (chars: string)
    ensures |chars| > 0
  {
    if tc.validFolderName then Letters() + Digits() + (if tc.allowSpaces then " " else "") + "_"
    else Letters() + Digits() + "!@#^"
  }

  /** What each policy allows: word characters (and a space when spaces are allowed), or alphanumerics and "!@#^". */
  lemma AlphabetChars(tc: TestCase)
    ensures tc.validFolderName ==> forall c :: c in Alphabet(tc) <==> IsWordChar(c) || (tc.allowSpaces && c == ' ')
    ensures !tc.validFolderName ==> forall c :: c in Alphabet(tc) <==> IsAsciiAlnum(c) || c in "!@#^"
  {
    assert forall c :: c in Letters() <==> 'a' <= c <= 'z' || 'A' <= c <= 'Z' by {
      forall c ensures c in Letters() <==> 'a' <= c <= 'z' || 'A' <= c <= 'Z' {
        if 'a' <= c <= 'z' {
          assert Letters()[c as int - 97] == c;
        } else if 'A' <= c <= 'Z' {
          assert Letters()[26 + c as int - 65] == c;
        }
      }
    }
    assert forall c :: c in Digits() <==> '0' <= c <= '9' by {
      forall c ensures c in Digits() <==> '0' <= c <= '9' {
        if '0' <= c <= '9' {
          assert Digits()[c as int - 48] == c;
        }
      }
    }
  }

  /** `len(range(n))` */
  function Count(n: int): nat {
    if n < 0 then 0 else n
  }

  /** `''.join(random.choice(chars) for _ in range(n))` with draws `start`, `start + 1`, ... */
  function Draw(chars: string, rng: Rng, start: nat, n: nat): (drawn: string)
    requires |chars| > 0
    ensures |drawn| == n
    ensures forall i :: 0 <= i < n ==> drawn[i] in chars
  {
    seq(n, i requires 0 <= i < n => chars[rng(start + i) % |chars|])
  }

  /** The characters drawn for one folder name, before stripping. */
  function DrawnName(tc: TestCase, rng: Rng, start: nat): string {
    Draw(Alphabet(tc), rng, start, Count(tc.folderNameLength))
  }

  /** `generate_folder_name`: the drawn characters stripped of whitespace, then optionally quoted. */
  function GenerateFolderName(tc: TestCase, rng: Rng, start: nat): string {
    var name := Strip(DrawnName(tc, rng, start));
    if tc.addQuotes then "'" + name + "'" else name
  }

  /**
   * The stripped name is a stretch of the drawn characters: at most
   * `folder_name_length` of them, all from the policy's alphabet, with no
   * whitespace at either end. Quoting wraps exactly that stretch.
   */
  lemma FolderNameShape(tc: TestCase, rng: Rng, start: nat)
    ensures var core := Strip(DrawnName(tc, rng, start));
      && |core| <= Count(tc.folderNameLength)
      && (forall k :: 0 <= k < |core| ==> core[k] in Alphabet(tc))
      && (core == [] || (!IsSpace(core[0]) && !IsSpace(core[|core| - 1])))
      && GenerateFolderName(tc, rng, start) == (if tc.addQuotes then "'" + core + "'" else core)
  {
    StripByShape(DrawnName(tc, rng, start), IsSpace);
  }

  /**
   * A valid name without spaces is made of word characters only; nothing is
   * stripped, so it has exactly `folder_name_length` characters.
   */
  lemma ValidNameIsWord(tc: TestCase, rng: Rng, start: nat)
    requires tc.validFolderName && !tc.allowSpaces && !tc.addQuotes
    ensures var name := GenerateFolderName(tc, rng, start);
      |name| == Count(tc.folderNameLength) && forall k :: 0 <= k < |name| ==> IsWordChar(name[k])
  {
    var drawn := DrawnName(tc, rng, start);
    AlphabetChars(tc);
    assert forall k :: 0 <= k < |drawn| ==> IsWordChar(drawn[k]);
    StripByNothingToDrop(drawn, IsSpace);
  }

  /** An invalid name draws only letters, digits and "!@#^" (quotes aside). */
  lemma InvalidNameChars(tc: TestCase, rng: Rng, start: nat)
    requires !tc.validFolderName
    ensures var name := GenerateFolderName(tc, rng, start);
      var core := if tc.addQuotes then name[1..|name| - 1] else name;
      forall k :: 0 <= k < |core| ==> IsAsciiAlnum(core[k]) || core[k] in "!@#^"
  {
    FolderNameShape(tc, rng, start);
    AlphabetChars(tc);
  }

  /** A quoted name is wrapped in exactly one pair of single quotes. */
  lemma QuotedNameOnePair(tc: TestCase, rng: Rng, start: nat)
    requires tc.addQuotes
    ensures var name := GenerateFolderName(tc, rng, start);
      && |name| >= 2 && name[0] == '\'' && name[|name| - 1] == '\''
      && forall k :: 0 < k < |name| - 1 ==> name[k] != '\''
  {
    FolderNameShape(tc, rng, start);
    AlphabetChars(tc);
    var core := Strip(DrawnName(tc, rng, start));
    var name := GenerateFolderName(tc, rng, start);
    forall k | 0 < k < |name| - 1
      ensures name[k] != '\''
    {
      assert name[k] == core[k - 1];
    }
  }

  /** `generate_folder_name` as a function of the position of its first draw. */
  function NameSource(tc: TestCase, rng: Rng): nat -> string {
    (pos: nat) => GenerateFolderName(tc, rng, pos)
  }

  /** The names of one `create_path` call: `n` names, each taking `step` draws from `start` on. */
  function FolderNames(gen: nat -> string, start: nat, step: nat, n: nat): (names: seq<string>)
    ensures |names| == n
  {
    if n == 0 then [] else FolderNames(gen, start, step, n - 1) + [gen(start + Steps(n - 1, step))]
  }

  /** The draws that `n` names of `step` characters each consume. */
  function Steps(n: nat, step: nat): nat {
    if n == 0 then 0 else Steps(n - 1, step) + step
  }

  /** `n` names of `step` characters consume `n * step` draws. */
  lemma {:induction false} StepsMul(n: nat, step: nat)
    ensures Steps(n, step) == n * step
  {
    if n > 0 {
      StepsMul(n - 1, step);
      assert (n - 1) * step + step == n * step;
    }
  }

  /** `p / ""` is `p`. */
  lemma JoinEmptyName(p: PurePath)
    ensures JoinPath(p, "") == p
  {
    assert Split("", '/') == [""];
  }

  /** `base / names[0] / names[1] / ...` */
  function BuildPath(base: PurePath, names: seq<string>): PurePath
    decreases |names|
  {
    if names == [] then base else JoinPath(BuildPath(base, names[..|names| - 1]), Last(names))
  }

  /** The path `create_path` returns for draws from `start` on. */
  function CreatedPath(tc: TestCase, rng: Rng, start: nat): string {
    Str(BuildPath(Parse(tc.baseDir), FolderNames(NameSource(tc, rng), start, Count(tc.folderNameLength), Count(tc.depth))))
  }

  /** How many draws `create_path` consumes: one per character of each of the `depth` names. */
  function DrawsUsed(tc: TestCase): nat {
    Steps(Count(tc.depth), Count(tc.folderNameLength))
  }

  /** `create_path` consumes `depth * folder_name_length` draws. */
  lemma DrawsUsedProduct(tc: TestCase)
    ensures DrawsUsed(tc) == Count(tc.depth) * Count(tc.folderNameLength)
  {
    StepsMul(Count(tc.depth), Count(tc.folderNameLength));
  }

  /** `PathFactory.create_path`: `depth` generated names appended to `base_dir`; also returns the next draw. */
  method CreatePath(tc: TestCase, rng: Rng, start: nat) returns (path: string, next: nat)
    ensures path == CreatedPath(tc, rng, start)
    ensures next == start + DrawsUsed(tc)
  {
    var p;
    p, next := AppendNames(Parse(tc.baseDir), NameSource(tc, rng), start, Count(tc.folderNameLength), Count(tc.depth));
    path := Str(p);
  }

  /**
   * The loop of `create_path`: `depth` names, each drawn `step` positions
   * after the previous one, appended to `base` one at a time.
   */
  method AppendNames(base: PurePath, gen: nat -> string, start: nat, step: nat, depth: nat)
    returns (p: PurePath, next: nat)
    ensures p == BuildPath(base, FolderNames(gen, start, step, depth))
    ensures next == start + Steps(depth, step)
  {
    p := base;
    var i := 0;
    next := start;
    while i < depth
      invariant 0 <= i <= depth
      invariant next == start + Steps(i, step)
      invariant p == BuildPath(base, FolderNames(gen, start, step, i))
    {
      p := AppendName(base, gen, start, step, i, p, next);
      next := next + step;
      i := i + 1;
    }
  }

  /** One round of the loop in `create_path`: `path = path / name` with the name drawn at `next`. */
  method AppendName(ghost base: PurePath, gen: nat -> string, ghost start: nat, ghost step: nat, ghost i: nat,
                    p: PurePath, next: nat) returns (q: PurePath)
    requires p == BuildPath(base, FolderNames(gen, start, step, i))
    requires next == start + Steps(i, step)
    ensures q == BuildPath(base, FolderNames(gen, start, step, i + 1))
  {
    q := JoinPath(p, gen(next));
    BuildPathSnoc(base, FolderNames(gen, start, step, i), gen(next));
  }

  /** One more round of the loop in `create_path`: the next name is appended to the path. */
  lemma BuildPathSnoc(base: PurePath, names: seq<string>, name: string)
    ensures BuildPath(base, names + [name]) == JoinPath(BuildPath(base, names), name)
  {
    assert (names + [name])[..|names|] == names;
  }

  /** Joining plain names appends each of them as one component: exactly `|names|` appends. */
  lemma {:induction false} BuildPathAppends(base: PurePath, names: seq<string>)
    requires forall k :: 0 <= k < |names| ==> IsPart(names[k])
    ensures BuildPath(base, names) == PurePath(base.root, base.parts + names)
    decreases |names|
  {
    if names != [] {
      var init := names[..|names| - 1];
      BuildPathAppends(base, init);
      JoinPathPart(BuildPath(base, init), Last(names));
      assert init + [Last(names)] == names;
    }
  }

  /** With depth 0 (or less) the path is `base_dir` as pathlib prints it. */
  lemma DepthZeroIsBase(tc: TestCase, rng: Rng, start: nat)
    requires tc.depth <= 0
    ensures CreatedPath(tc, rng, start) == Str(Parse(tc.baseDir))
  {
  }

  /** A character a generated name may hold: no separator, no dot, nothing unsafe. */
  predicate NameChar(c: char) {
    c != '/' && c != '.' && !IsUnsafeChar(c)
  }

  lemma AlphabetPlain(tc: TestCase)
    ensures forall c :: c in Alphabet(tc) ==> NameChar(c)
  {
    AlphabetChars(tc);
  }

  /** A name is a plain path component unless stripping can empty it. */
  lemma FolderNameIsPart(tc: TestCase, rng: Rng, start: nat)
    requires tc.folderNameLength > 0
    requires tc.addQuotes || !(tc.validFolderName && tc.allowSpaces)
    ensures PlainName(GenerateFolderName(tc, rng, start))
  {
    var core := Strip(DrawnName(tc, rng, start));
    var name := GenerateFolderName(tc, rng, start);
    CoreNameChars(tc, rng, start);
    if tc.addQuotes {
      assert name == "'" + core + "'";
      assert forall k :: 0 <= k < |name| ==> NameChar(name[k]) by {
        forall k | 0 <= k < |name|
          ensures NameChar(name[k])
        {
          if 0 < k < |name| - 1 {
            assert name[k] == core[k - 1];
          }
        }
      }
    } else {
      CoreNonEmpty(tc, rng, start);
    }
    NameCharsPlain(name);
  }

  /** The stripped name is made of name characters. */
  lemma CoreNameChars(tc: TestCase, rng: Rng, start: nat)
    ensures var core := Strip(DrawnName(tc, rng, start));
      && (forall k :: 0 <= k < |core| ==> NameChar(core[k]))
      && GenerateFolderName(tc, rng, start) == (if tc.addQuotes then "'" + core + "'" else core)
  {
    FolderNameShape(tc, rng, start);
    AlphabetPlain(tc);
  }

  /** Without spaces in the alphabet nothing is stripped, so a positive length gives a non-empty name. */
  lemma CoreNonEmpty(tc: TestCase, rng: Rng, start: nat)
    requires tc.folderNameLength > 0 && !(tc.validFolderName && tc.allowSpaces)
    ensures Strip(DrawnName(tc, rng, start)) != []
  {
    var drawn := DrawnName(tc, rng, start);
    AlphabetChars(tc);
    assert forall k :: 0 <= k < |drawn| ==> !IsSpace(drawn[k]) by {
      forall k | 0 <= k < |drawn|
        ensures !IsSpace(drawn[k])
      {
        assert drawn[k] in Alphabet(tc);
      }
    }
    StripByNothingToDrop(drawn, IsSpace);
  }

  /** A non-empty string of name characters is a plain component. */
  lemma NameCharsPlain(name: string)
    requires name != [] && forall k :: 0 <= k < |name| ==> NameChar(name[k])
    ensures PlainName(name)
  {
    assert name[0] != '.';
  }

  /**
   * Under the default base "/tmp", every generated path with at least one
   * non-empty name passes `is_safe_path`, invalid names included: the
   * characters "!@#^" are not in the denylist.
   */
  lemma GeneratedPathIsSafe(tc: TestCase, rng: Rng, start: nat, cwd: seq<string>)
    requires tc.baseDir == "/tmp" && tc.depth > 0 && tc.folderNameLength > 0
    requires tc.addQuotes || !(tc.validFolderName && tc.allowSpaces)
    ensures IsSafePath(CreatedPath(tc, rng, start), cwd)
  {
    var names := FolderNames(NameSource(tc, rng), start, Count(tc.folderNameLength), Count(tc.depth));
    CreatedUnderTmp(tc, rng, start);
    TmpJoinPrefix(names);
    AbsoluteUnderTmpAccepted(["tmp"] + names, cwd);
  }

  /** "tmp" joined with further names starts with "tmp". */
  lemma TmpJoinPrefix(names: seq<string>)
    requires names != []
    ensures StartsWith(Join(["tmp"] + names, '/'), "tmp")
  {
    var parts := ["tmp"] + names;
    assert parts[1..] == names;
    assert Join(parts, '/') == "tmp" + "/" + Join(names, '/');
    assert Join(parts, '/')[..3] == "tmp";
  }

  /** Under "/tmp", the generated path is "/tmp" followed by the names, which are plain and safe. */
  lemma CreatedUnderTmp(tc: TestCase, rng: Rng, start: nat)
    requires tc.baseDir == "/tmp" && tc.depth > 0 && tc.folderNameLength > 0
    requires tc.addQuotes || !(tc.validFolderName && tc.allowSpaces)
    ensures var parts := ["tmp"] + FolderNames(NameSource(tc, rng), start, Count(tc.folderNameLength), Count(tc.depth));
      && PlainSafeParts(parts) && ".." !in parts && parts != ["tmp"]
      && CreatedPath(tc, rng, start) == "/" + Join(parts, '/')
  {
    var names := FolderNames(NameSource(tc, rng), start, Count(tc.folderNameLength), Count(tc.depth));
    var parts := ["tmp"] + names;
    NameSourcePlain(tc, rng);
    FolderNamesPlain(NameSource(tc, rng), start, Count(tc.folderNameLength), Count(tc.depth));
    PrependTmpPlain(names);
    ParseTmp();
    BuildPathAppends(TmpPath, names);
  }

  /** A component `is_safe_path` lets through: plain, not "..", and free of metacharacters. */
  predicate PlainName(name: string) {
    IsPart(name) && name != ".." && SafeChars(name)
  }

  /** Names from a source that only yields plain names are all plain. */
  lemma {:induction false} FolderNamesPlain(gen: nat -> string, start: nat, step: nat, n: nat)
    requires forall pos :: PlainName(gen(pos))
    ensures forall k :: 0 <= k < n ==> PlainName(FolderNames(gen, start, step, n)[k])
  {
    if n > 0 {
      FolderNamesPlain(gen, start, step, n - 1);
      AllPlainSnoc(FolderNames(gen, start, step, n - 1), gen(start + Steps(n - 1, step)));
    }
  }

  lemma NameSourcePlain(tc: TestCase, rng: Rng)
    requires tc.folderNameLength > 0
    requires tc.addQuotes || !(tc.validFolderName && tc.allowSpaces)
    ensures forall pos :: PlainName(NameSource(tc, rng)(pos))
  {
    forall pos ensures PlainName(NameSource(tc, rng)(pos)) {
      FolderNameIsPart(tc, rng, pos);
    }
  }

  lemma AllPlainSnoc(names: seq<string>, name: string)
    requires forall k :: 0 <= k < |names| ==> PlainName(names[k])
    requires PlainName(name)
    ensures forall k :: 0 <= k < |names| + 1 ==> PlainName((names + [name])[k])
  {
    forall k | 0 <= k < |names| + 1
      ensures PlainName((names + [name])[k])
    {
      if k < |names| {
        assert (names + [name])[k] == names[k];
      }
    }
  }

  lemma PrependTmpPlain(names: seq<string>)
    requires forall k :: 0 <= k < |names| ==> IsPart(names[k]) && names[k] != ".." && SafeChars(names[k])
    ensures var parts := ["tmp"] + names; PlainSafeParts(parts) && ".." !in parts
  {
    var parts := ["tmp"] + names;
    assert forall k :: 1 <= k < |parts| ==> parts[k] == names[k - 1];
    assert SafeChars("tmp");
  }

  lemma ParseTmp()
    ensures Parse("/tmp") == TmpPath
  {
    TmpResolves([]);
    ParseStr(TmpPath);
  }

  // ---------------------------------------------------------------------
  // Scenarios: single inputs that illustrate the general properties above

  /** A nested path under the allowed base is accepted. */
  lemma NestedTmpAccepted(cwd: seq<string>)
    ensures IsSafePath("/tmp/a/b", cwd)
  {
    assert Join(["tmp", "a", "b"], '/') == "tmp/a/b";
    AbsoluteUnderTmpAccepted(["tmp", "a", "b"], cwd);
  }

  /** A path outside the allowed base is rejected. */
  lemma OutsideRejected(cwd: seq<string>)
    ensures Classify("/etc/passwd", cwd) == OutsideAllowedBases
  {
    assert Join(["etc", "passwd"], '/') == "etc/passwd";
    OutsideVerdict(["etc", "passwd"]);
    ClassifyAbsolute(["etc", "passwd"], cwd);
  }

  /** The containment test is a string prefix: "/tmpx", a sibling of "/tmp", is accepted. */
  lemma PrefixQuirk(cwd: seq<string>)
    ensures IsSafePath("/tmpx", cwd)
  {
    assert Join(["tmpx"], '/') == "tmpx";
    AbsoluteUnderTmpAccepted(["tmpx"], cwd);
  }

  /** The traversal check runs before resolution, so "/tmp/../etc" is reported as traversal. */
  lemma TraversalExample(cwd: seq<string>)
    ensures Classify("/tmp/../etc", cwd) == Traversal
  {
    TraversalJoin();
    ClassifyAbsolute(["tmp", "..", "etc"], cwd);
  }

  lemma TraversalJoin()
    ensures "/" + Join(["tmp", "..", "etc"], '/') == "/tmp/../etc"
  {
    assert Join(["tmp", "..", "etc"], '/') == "tmp/../etc";
  }

  /** A metacharacter is reported as an injection risk before anything else. */
  lemma InjectionExample(cwd: seq<string>)
    ensures Classify("/tmp/a;b", cwd) == InjectionRisk
  {
    InjectionJoin();
    RiskCharUnsafe("/tmp/a;b", 6);
    ClassifyInjection(["tmp", "a;b"], cwd);
  }

  lemma InjectionJoin()
    ensures "/" + Join(["tmp", "a;b"], '/') == "/tmp/a;b"
  {
    assert Join(["tmp", "a;b"], '/') == "tmp/a;b";
  }

  /**
   * With spaces allowed, a name may strip to nothing; a one-character name
   * that draws the space turns the path into "/tmp" itself, which the
   * safety check then rejects.
   */
  lemma SpaceOnlyNameGivesTmp(tc: TestCase, rng: Rng, start: nat, cwd: seq<string>)
    requires tc.baseDir == "/tmp" && tc.depth == 1 && tc.folderNameLength == 1
    requires tc.validFolderName && tc.allowSpaces && !tc.addQuotes
    requires rng(start) % 64 == 62
    ensures GenerateFolderName(tc, rng, start) == ""
    ensures CreatedPath(tc, rng, start) == "/tmp"
    ensures !IsSafePath(CreatedPath(tc, rng, start), cwd)
  {
    SpaceDrawn(tc, rng, start);
    assert Strip(" ") == "";
    assert FolderNames(NameSource(tc, rng), start, 1, 1) == [""];
    JoinEmptyName(TmpPath);
    ParseTmp();
    TmpResolves(cwd);
    TmpItselfRejected(cwd);
  }

  /** With spaces allowed, draw 62 of the 64 characters is the space. */
  lemma SpaceDrawn(tc: TestCase, rng: Rng, start: nat)
    requires tc.folderNameLength == 1 && tc.validFolderName && tc.allowSpaces
    requires rng(start) % 64 == 62
    ensures DrawnName(tc, rng, start) == " "
  {
    var chars := Alphabet(tc);
    assert |chars| == 64;
    assert chars[62] == ' ';
  }
}
