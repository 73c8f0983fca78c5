/**
 * The part of Python's `pathlib` the harness uses on POSIX: parsing a string
 * into a pure path, printing it back, joining with `/`, and `resolve()` as a
 * normalisation against the process's working directory.
 */
module Paths {
  import opened Text

  /**
   * A `PurePosixPath`: its anchor ("" for a relative path, "/", or the
   * POSIX-reserved "//") and its parts, in order.
   */
  datatype PurePath = PurePath(root: string, parts: seq<string>)

  /** A part as pathlib keeps it: not empty, not ".", and free of separators. */
  predicate IsPart(s: string) {
    s != "" && s != "." && '/' !in s
  }

  /** What parsing can produce. */
  predicate WellFormed(p: PurePath) {
    (p.root == "" || p.root == "/" || p.root == "//") &&
    forall k :: 0 <= k < |p.parts| ==> IsPart(p.parts[k])
  }

  /** The pieces of a split path that pathlib keeps: empty pieces and "." go. */
  function KeptPieces(pieces: seq<string>): (kept: seq<string>)
    ensures forall k :: 0 <= k < |kept| ==> kept[k] in pieces && kept[k] != "" && kept[k] != "."
    ensures forall x :: x in pieces && x != "" && x != "." ==> x in kept
  {
    if pieces == [] then []
    else
      (if pieces[0] == "" || pieces[0] == "." then [] else [pieces[0]]) + KeptPieces(pieces[1..])
  }

  /** The anchor of a path string: exactly two leading slashes are kept as "//". */
  function RootOf(s: string): string {
    if |s| >= 2 && s[0] == '/' && s[1] == '/' && (|s| == 2 || s[2] != '/') then "//"
    else if |s| >= 1 && s[0] == '/' then "/"
    else ""
  }

  /** `Path(s)` */
  function Parse(s: string): (p: PurePath)
    ensures WellFormed(p)
  {
    PurePath(RootOf(s), KeptPieces(Split(s, '/')))
  }

  /** `str(p)`; the empty relative path prints as ".". */
  function Str(p: PurePath): string {
    if p.root == "" && p.parts == [] then "." else p.root + Join(p.parts, '/')
  }

  /** `p / name`: an anchored right-hand side replaces the left-hand side. */
  function JoinPath(p: PurePath, name: string): PurePath {
    var q := Parse(name);
    if q.root != "" then q else PurePath(p.root, p.parts + q.parts)
  }

  /** Walks `rest` onto `acc`: "" and "." are skipped, ".." drops the last part kept so far. */
  function Normalize(acc: seq<string>, rest: seq<string>): seq<string>
    decreases |rest|
  {
    if rest == [] then acc
    else if rest[0] == "" || rest[0] == "." then Normalize(acc, rest[1..])
    else if rest[0] == ".." then Normalize(if acc == [] then [] else acc[..|acc| - 1], rest[1..])
    else Normalize(acc + [rest[0]], rest[1..])
  }

  /**
   * `p.resolve()` with the process's working directory given as its parts:
   * relative paths are made absolute, "//" becomes "/", and ".." is applied.
   * Symbolic links are not modelled.
   */
  function Resolve(p: PurePath, cwd: seq<string>): (r: PurePath)
    ensures r.root == "/"
  {
    PurePath("/", Normalize([], if p.root == "" then cwd + p.parts else p.parts))
  }

  lemma {:induction false} KeptPiecesOfParts(parts: seq<string>)
    requires forall k :: 0 <= k < |parts| ==> IsPart(parts[k])
    ensures KeptPieces(parts) == parts
    decreases |parts|
  {
    if parts != [] {
      KeptPiecesOfParts(parts[1..]);
      assert [parts[0]] + parts[1..] == parts;
    }
  }

  /** The first character of a join of non-empty parts is that of the first part. */
  lemma JoinHead(parts: seq<string>)
    requires |parts| >= 1 && parts[0] != ""
    ensures |Join(parts, '/')| > 0 && Join(parts, '/')[0] == parts[0][0]
  {
  }

  /** The three printed forms of a path without parts parse back. */
  lemma ParseStrNoParts(root: string)
    requires root == "" || root == "/" || root == "//"
    ensures Parse(Str(PurePath(root, []))) == PurePath(root, [])
  {
    if root == "" {
      ParseDot();
    } else if root == "/" {
      ParseSlash();
    } else {
      ParseDoubleSlash();
    }
  }

  lemma ParseDot()
    ensures Parse(".") == PurePath("", [])
  {
    SplitWithoutSep(".", '/');
    assert KeptPieces(["."]) == [] + KeptPieces([]);
  }

  lemma ParseSlash()
    ensures Parse("/") == PurePath("/", [])
  {
    assert "/"[1..] == [];
    assert Split("/", '/') == [[], []];
    assert KeptPieces([[], []]) == [] + KeptPieces([[]]);
  }

  lemma ParseDoubleSlash()
    ensures Parse("//") == PurePath("//", [])
  {
    assert "//"[1..] == "/";
    assert "/"[1..] == [];
    assert Split("/", '/') == [[], []];
    assert Split("//", '/') == [[], [], []];
    assert KeptPieces([[], [], []]) == [] + KeptPieces([[], []]);
    assert KeptPieces([[], []]) == [] + KeptPieces([[]]);
  }

  /** A printed path with parts parses back. */
  lemma ParseStrParts(p: PurePath)
    requires WellFormed(p) && p.parts != []
    ensures Parse(Str(p)) == p
  {
    var s := Str(p);
    var j := Join(p.parts, '/');
    JoinHead(p.parts);
    assert IsPart(p.parts[0]);
    SplitJoin(p.parts, '/');
    KeptPiecesOfParts(p.parts);
    if p.root == "" {
      assert s == j;
    } else if p.root == "/" {
      assert s == "/" + j && s[1..] == j;
      assert KeptPieces(Split(s, '/')) == KeptPieces([[]] + p.parts) == KeptPieces(p.parts);
    } else {
      ParseStrDoubleSlash(p.parts, j);
    }
  }

  lemma ParseStrDoubleSlash(parts: seq<string>, j: string)
    requires |j| > 0 && j[0] != '/' && Split(j, '/') == parts && KeptPieces(parts) == parts
    ensures Parse("//" + j) == PurePath("//", parts)
  {
    var s := "//" + j;
    assert s[1..] == "/" + j && s[2..] == j;
    assert Split(s[1..], '/') == [[]] + parts;
    assert Split(s, '/') == [[]] + ([[]] + parts);
    assert s[2] == j[0];
    assert KeptPieces([[]] + ([[]] + parts)) == KeptPieces([[]] + parts) == KeptPieces(parts);
  }

  /** Parsing a printed path gives the path back: `Path(str(p)) == p`. */
  lemma ParseStr(p: PurePath)
    requires WellFormed(p)
    ensures Parse(Str(p)) == p
  {
    if p.parts == [] {
      ParseStrNoParts(p.root);
    } else {
      ParseStrParts(p);
    }
  }

  /** `Path(str(Path(s))) == Path(s)`: pathlib's normalisation is idempotent. */
  lemma ParseIdempotent(s: string)
    ensures Parse(Str(Parse(s))) == Parse(s)
  {
    ParseStr(Parse(s));
  }

  /**
   * Parsing and printing keep every non-empty piece of text without "/" or
   * ".": pathlib only drops separators and whole "." parts.
   */
  lemma ParseKeepsNeedle(s: string, sub: string)
    requires sub != [] && '/' !in sub && '.' !in sub && Contains(s, sub)
    ensures Contains(Str(Parse(s)), sub)
  {
    var kept := KeptPieces(Split(s, '/'));
    SplitKeepsNeedle(s, sub, '/');
    var k :| 0 <= k < |Split(s, '/')| && Contains(Split(s, '/')[k], sub);
    var piece := Split(s, '/')[k];
    NeedleKeepsPiece(piece, sub);
    assert piece in kept;
    JoinKeepsNeedle(kept, piece, sub);
    ContainsPrepend(RootOf(s), Join(kept, '/'), sub);
  }

  /** A needle inside one of the parts is inside their join. */
  lemma JoinKeepsNeedle(parts: seq<string>, piece: string, sub: string)
    requires piece in parts && Contains(piece, sub)
    ensures Contains(Join(parts, '/'), sub)
  {
    var i :| 0 <= i < |parts| && parts[i] == piece;
    JoinContainsPart(parts, '/', i);
    ContainsTrans(Join(parts, '/'), piece, sub);
  }

  /** A piece holding a needle without "." is neither empty nor ".". */
  lemma NeedleKeepsPiece(piece: string, sub: string)
    requires sub != [] && '.' !in sub && Contains(piece, sub)
    ensures piece != "" && piece != "."
  {
    ContainsIffOccurs(piece, sub);
    var j :| OccursAt(piece, sub, j);
    assert piece[j] == sub[0] && piece[j] != '.';
  }

  /** Normalising parts that need no normalising appends them unchanged. */
  lemma {:induction false} NormalizeParts(acc: seq<string>, rest: seq<string>)
    requires forall k :: 0 <= k < |rest| ==> IsPart(rest[k]) && rest[k] != ".."
    ensures Normalize(acc, rest) == acc + rest
    decreases |rest|
  {
    if rest != [] {
      NormalizeParts(acc + [rest[0]], rest[1..]);
      assert acc + [rest[0]] + rest[1..] == acc + rest;
    }
  }

  /** An absolute path without ".." resolves to itself (up to "//" becoming "/"). */
  lemma ResolveAbsolute(p: PurePath, cwd: seq<string>)
    requires WellFormed(p) && p.root != "" && ".." !in p.parts
    ensures Resolve(p, cwd) == PurePath("/", p.parts)
  {
    NormalizeParts([], p.parts);
  }

  /** Joining a name that parses to plain parts appends those parts. */
  lemma JoinPathPart(p: PurePath, name: string)
    requires IsPart(name)
    ensures JoinPath(p, name) == PurePath(p.root, p.parts + [name])
  {
    SplitWithoutSep(name, '/');
    assert KeptPieces([name]) == [name] + KeptPieces([]);
  }
}
