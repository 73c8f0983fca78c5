/**
 * The Python `str` operations the harness relies on, on `seq<char>`:
 * `startswith`, `in`, `split`, `join`, `strip` and `upper`.
 */
module Text {

  /** `s.startswith(prefix)` */
  predicate StartsWith(s: string, prefix: string) {
    |prefix| <= |s| && s[..|prefix|] == prefix
  }

  /** `sub` occurs in `s` starting at index `i`. */
  predicate OccursAt(s: string, sub: string, i: int) {
    0 <= i && i + |sub| <= |s| && s[i..i + |sub|] == sub
  }

  /** `sub in s` */
  predicate Contains(s: string, sub: string)
    decreases |s|
  {
    StartsWith(s, sub) || (|s| > 0 && Contains(s[1..], sub))
  }

  lemma {:induction false} ContainsIffOccurs(s: string, sub: string)
    ensures Contains(s, sub) <==> exists i :: OccursAt(s, sub, i)
    decreases |s|
  {
    if StartsWith(s, sub) {
      assert OccursAt(s, sub, 0);
    } else if |s| > 0 {
      ContainsIffOccurs(s[1..], sub);
      if Contains(s[1..], sub) {
        var i :| OccursAt(s[1..], sub, i);
        assert s[1..][i..i + |sub|] == s[i + 1..i + 1 + |sub|];
        assert OccursAt(s, sub, i + 1);
      }
      if exists i :: OccursAt(s, sub, i) {
        var i :| OccursAt(s, sub, i);
        assert i != 0;
        assert s[1..][i - 1..i - 1 + |sub|] == s[i..i + |sub|];
        assert OccursAt(s[1..], sub, i - 1);
      }
    }
  }

  /** The empty string occurs in every string, and nothing longer than `s` occurs in it. */
  lemma ContainsLength(s: string, sub: string)
    ensures Contains(s, [])
    ensures Contains(s, sub) ==> |sub| <= |s|
  {
    ContainsIffOccurs(s, []);
    assert OccursAt(s, [], 0);
    ContainsIffOccurs(s, sub);
  }

  /** A one-character needle is found exactly when that character occurs. */
  lemma ContainsChar(s: string, c: char)
    ensures Contains(s, [c]) <==> c in s
  {
    ContainsIffOccurs(s, [c]);
    if c in s {
      var i :| 0 <= i < |s| && s[i] == c;
      assert s[i..i + 1] == [c];
      assert OccursAt(s, [c], i);
    }
    if Contains(s, [c]) {
      var i :| OccursAt(s, [c], i);
      assert s[i] == s[i..i + 1][0];
    }
  }

  /** `in` is transitive: an occurrence inside an occurrence is an occurrence. */
  lemma ContainsTrans(s: string, t: string, u: string)
    requires Contains(s, t) && Contains(t, u)
    ensures Contains(s, u)
  {
    ContainsIffOccurs(s, t);
    ContainsIffOccurs(t, u);
    var i :| OccursAt(s, t, i);
    var j :| OccursAt(t, u, j);
    forall k | 0 <= k < |u|
      ensures s[i + j + k] == u[k]
    {
      assert s[i..i + |t|][j + k] == t[j + k];
      assert t[j..j + |u|][k] == u[k];
    }
    assert s[i + j..i + j + |u|] == u;
    assert OccursAt(s, u, i + j);
    ContainsIffOccurs(s, u);
  }

  /** `s.split(sep)`: the pieces between the occurrences of `sep`. */
  function Split(s: string, sep: char): (pieces: seq<string>)
    ensures |pieces| >= 1
    ensures forall k :: 0 <= k < |pieces| ==> sep !in pieces[k]
    ensures |s| > 0 && s[0] == sep ==> pieces == [[]] + Split(s[1..], sep)
    decreases |s|
  {
    if s == [] then [[]]
    else
      var rest := Split(s[1..], sep);
      if s[0] == sep then [[]] + rest
      else [[s[0]] + rest[0]] + rest[1..]
  }

  /** `sep.join(parts)` */
  function Join(parts: seq<string>, sep: char): string
  {
    if parts == [] then []
    else if |parts| == 1 then parts[0]
    else parts[0] + [sep] + Join(parts[1..], sep)
  }

  /** Whatever occurs in `b` occurs in `a + b`. */
  lemma {:induction false} ContainsPrepend(a: string, b: string, sub: string)
    requires Contains(b, sub)
    ensures Contains(a + b, sub)
    decreases |a|
  {
    if a != [] {
      ContainsPrepend(a[1..], b, sub);
      assert (a + b)[1..] == a[1..] + b;
    } else {
      assert a + b == b;
    }
  }

  /** The first piece of a split is a prefix of the string, ended by the separator or the end. */
  lemma {:induction false} SplitFirstPiece(s: string, sep: char)
    ensures var p := Split(s, sep)[0];
      StartsWith(s, p) && (|p| < |s| ==> s[|p|] == sep)
    decreases |s|
  {
    if s != [] && s[0] != sep {
      SplitFirstPiece(s[1..], sep);
      var q := Split(s[1..], sep)[0];
      assert Split(s, sep)[0] == [s[0]] + q;
      assert s[..|q| + 1] == [s[0]] + s[1..][..|q|];
    }
  }

  /** A non-empty needle without the separator lies inside a single piece of the split. */
  lemma {:induction false} SplitKeepsNeedle(s: string, sub: string, sep: char)
    requires sub != [] && sep !in sub && Contains(s, sub)
    ensures exists k :: 0 <= k < |Split(s, sep)| && Contains(Split(s, sep)[k], sub)
    decreases |s|
  {
    if StartsWith(s, sub) {
      NeedleInFirstPiece(s, sub, sep);
    } else {
      SplitKeepsNeedle(s[1..], sub, sep);
      var k :| 0 <= k < |Split(s[1..], sep)| && Contains(Split(s[1..], sep)[k], sub);
      NeedleAfterFirst(s, sub, sep, k);
    }
  }

  /** A needle in piece `k` of the split of `s[1..]` is in some piece of the split of `s`. */
  lemma NeedleAfterFirst(s: string, sub: string, sep: char, k: nat)
    requires s != [] && k < |Split(s[1..], sep)| && Contains(Split(s[1..], sep)[k], sub)
    ensures exists k' :: 0 <= k' < |Split(s, sep)| && Contains(Split(s, sep)[k'], sub)
  {
    var pieces, rest := Split(s, sep), Split(s[1..], sep);
    if s[0] == sep {
      assert pieces[k + 1] == rest[k];
    } else {
      SplitOther(s, sep);
      if k == 0 {
        ContainsPrepend([s[0]], rest[0], sub);
        assert pieces[0] == [s[0]] + rest[0];
      } else {
        assert pieces[k] == rest[k];
      }
    }
  }

  /** A first character other than the separator joins the first piece of the rest. */
  lemma SplitOther(s: string, sep: char)
    requires s != [] && s[0] != sep
    ensures Split(s, sep) == [[s[0]] + Split(s[1..], sep)[0]] + Split(s[1..], sep)[1..]
  {
  }

  /** A needle without the separator that starts the string lies in the first piece. */
  lemma NeedleInFirstPiece(s: string, sub: string, sep: char)
    requires sep !in sub && StartsWith(s, sub)
    ensures Contains(Split(s, sep)[0], sub)
  {
    SplitFirstPiece(s, sep);
    var p := Split(s, sep)[0];
    assert |sub| <= |p|;
    assert p[..|sub|] == s[..|sub|];
  }

  /** Every part occurs in the join of the parts. */
  lemma {:induction false} JoinContainsPart(parts: seq<string>, sep: char, k: int)
    requires 0 <= k < |parts|
    ensures Contains(Join(parts, sep), parts[k])
    decreases |parts|
  {
    var j := Join(parts, sep);
    if |parts| == 1 || k == 0 {
      assert j[..|parts[0]|] == parts[0];
      assert StartsWith(j, parts[0]);
    } else {
      JoinContainsPart(parts[1..], sep, k - 1);
      ContainsPrepend(parts[0] + [sep], Join(parts[1..], sep), parts[k]);
    }
  }

  /** One more part in front of a join adds that part and a slash. */
  lemma JoinCons(a: string, rest: seq<string>, joined: string)
    requires rest != [] && Join(rest, '/') == joined
    ensures Join([a] + rest, '/') == a + "/" + joined
  {
    assert ([a] + rest)[1..] == rest;
  }

  /** A string without the separator splits into itself alone. */
  lemma {:induction false} SplitWithoutSep(w: string, sep: char)
    requires sep !in w
    ensures Split(w, sep) == [w]
    decreases |w|
  {
    if w != [] {
      SplitWithoutSep(w[1..], sep);
      assert [w[0]] + w[1..] == w;
    }
  }

  /** Splitting `w + sep + t` yields `w` followed by the pieces of `t`. */
  lemma {:induction false} SplitAfterPiece(w: string, t: string, sep: char)
    requires sep !in w
    ensures Split(w + [sep] + t, sep) == [w] + Split(t, sep)
    decreases |w|
  {
    var s := w + [sep] + t;
    if w == [] {
      assert s[1..] == t;
    } else {
      SplitAfterPiece(w[1..], t, sep);
      assert s[1..] == w[1..] + [sep] + t;
      assert [w[0]] + w[1..] == w;
    }
  }

  /** `split` undoes `join` when no part contains the separator. */
  lemma {:induction false} SplitJoin(parts: seq<string>, sep: char)
    requires |parts| >= 1
    requires forall k :: 0 <= k < |parts| ==> sep !in parts[k]
    ensures Split(Join(parts, sep), sep) == parts
    decreases |parts|
  {
    if |parts| == 1 {
      SplitWithoutSep(parts[0], sep);
    } else {
      SplitJoin(parts[1..], sep);
      SplitAfterPiece(parts[0], Join(parts[1..], sep), sep);
      assert [parts[0]] + parts[1..] == parts;
    }
  }

  /** Joining two non-empty lists puts one separator between their joins. */
  lemma {:induction false} JoinAppend(a: seq<string>, b: seq<string>, sep: char)
    requires |a| >= 1 && |b| >= 1
    ensures Join(a + b, sep) == Join(a, sep) + [sep] + Join(b, sep)
    decreases |a|
  {
    if |a| == 1 {
      assert (a + b)[1..] == b;
    } else {
      JoinAppend(a[1..], b, sep);
      assert (a + b)[1..] == a[1..] + b;
    }
  }

  /** Every character of a join is the separator or a character of some part. */
  lemma {:induction false} JoinChars(parts: seq<string>, sep: char, i: int)
    requires 0 <= i < |Join(parts, sep)|
    ensures Join(parts, sep)[i] == sep || exists k, j :: 0 <= k < |parts| && 0 <= j < |parts[k]| && parts[k][j] == Join(parts, sep)[i]
    decreases |parts|
  {
    if |parts| == 1 {
      assert parts[0][i] == Join(parts, sep)[i];
    } else if |parts| > 1 {
      var s := Join(parts, sep);
      if i < |parts[0]| {
        assert parts[0][i] == s[i];
      } else if i > |parts[0]| {
        var i' := i - |parts[0]| - 1;
        JoinChars(parts[1..], sep, i');
        assert s[i] == Join(parts[1..], sep)[i'];
        if Join(parts[1..], sep)[i'] != sep {
          var k, j :| 0 <= k < |parts[1..]| && 0 <= j < |parts[1..][k]| && parts[1..][k][j] == s[i];
          assert parts[k + 1][j] == s[i];
        }
      }
    }
  }

  /** Python's `str.isspace()` for one character. */
  predicate IsSpace(c: char) {
    c == ' ' || ('\t' <= c <= '\r') || ('\U{1c}' <= c <= '\U{1f}') || c == '\U{85}' || c == '\U{a0}'
    || c == '\U{1680}' || ('\U{2000}' <= c <= '\U{200a}') || c == '\U{2028}' || c == '\U{2029}'
    || c == '\U{202f}' || c == '\U{205f}' || c == '\U{3000}'
  }

  /** Drops the leading characters satisfying `drop`. */
  function TrimLeft(s: string, drop: char -> bool): string
    decreases |s|
  {
    if s != [] && drop(s[0]) then TrimLeft(s[1..], drop) else s
  }

  /** Drops the trailing characters satisfying `drop`. */
  function TrimRight(s: string, drop: char -> bool): string
    decreases |s|
  {
    if s != [] && drop(s[|s| - 1]) then TrimRight(s[..|s| - 1], drop) else s
  }

  /** `s.strip(chars)`: both ends trimmed of characters satisfying `drop`. */
  function StripBy(s: string, drop: char -> bool): string {
    TrimRight(TrimLeft(s, drop), drop)
  }

  /** `s.strip()` */
  function Strip(s: string): string {
    StripBy(s, IsSpace)
  }

  /** `s.strip(c)` for a single character `c`. */
  function StripChar(s: string, c: char): string {
    StripBy(s, x => x == c)
  }

  lemma {:induction false} TrimLeftSlice(s: string, drop: char -> bool)
    ensures exists i :: 0 <= i <= |s| && TrimLeft(s, drop) == s[i..]
    ensures TrimLeft(s, drop) == [] || !drop(TrimLeft(s, drop)[0])
    decreases |s|
  {
    if s != [] && drop(s[0]) {
      TrimLeftSlice(s[1..], drop);
      var i :| 0 <= i <= |s[1..]| && TrimLeft(s[1..], drop) == s[1..][i..];
      assert s[1..][i..] == s[i + 1..];
    } else {
      assert s == s[0..];
    }
  }

  lemma {:induction false} TrimRightSlice(s: string, drop: char -> bool)
    ensures exists j :: 0 <= j <= |s| && TrimRight(s, drop) == s[..j]
    ensures TrimRight(s, drop) == [] || !drop(TrimRight(s, drop)[|TrimRight(s, drop)| - 1])
    decreases |s|
  {
    if s != [] && drop(s[|s| - 1]) {
      TrimRightSlice(s[..|s| - 1], drop);
      var j :| 0 <= j <= |s| - 1 && TrimRight(s[..|s| - 1], drop) == s[..|s| - 1][..j];
      assert s[..|s| - 1][..j] == s[..j];
    } else {
      assert s == s[..|s|];
    }
  }

  /**
   * `strip` keeps a contiguous slice of its input whose first and last
   * characters are not stripped.
   */
  lemma StripBySlice(s: string, drop: char -> bool)
    ensures exists i, j :: 0 <= i <= j <= |s| && StripBy(s, drop) == s[i..j]
    ensures var r := StripBy(s, drop); r == [] || (!drop(r[0]) && !drop(r[|r| - 1]))
  {
    TrimLeftSlice(s, drop);
    var i :| 0 <= i <= |s| && TrimLeft(s, drop) == s[i..];
    var l := s[i..];
    TrimRightSlice(l, drop);
    var j :| 0 <= j <= |l| && TrimRight(l, drop) == l[..j];
    assert l[..j] == s[i..i + j];
    var r := StripBy(s, drop);
    if r != [] {
      assert r[0] == l[0];
    }
  }

  /** Stripping keeps at most the characters it was given, and leaves none to drop at either end. */
  lemma StripByShape(s: string, drop: char -> bool)
    ensures var r := StripBy(s, drop);
      && |r| <= |s|
      && (forall k :: 0 <= k < |r| ==> r[k] in s)
      && (r == [] || (!drop(r[0]) && !drop(r[|r| - 1])))
  {
    StripBySlice(s, drop);
    var i, j :| 0 <= i <= j <= |s| && StripBy(s, drop) == s[i..j];
    assert forall k :: 0 <= k < j - i ==> StripBy(s, drop)[k] == s[i + k];
  }

  /** Nothing is stripped from a string none of whose characters may be dropped. */
  lemma {:induction false} StripByNothingToDrop(s: string, drop: char -> bool)
    requires forall k :: 0 <= k < |s| ==> !drop(s[k])
    ensures StripBy(s, drop) == s
  {
  }

  /**
   * The ASCII part of `str.upper()`: no lower-case ASCII letter is left,
   * every other character stays where it was, and each lower-case letter
   * becomes the upper-case letter at the same place in the alphabet.
   */
  function Upper(s: string): (r: string)
    ensures |r| == |s|
    ensures forall k :: 0 <= k < |r| ==> !IsLowerAscii(r[k])
    ensures forall k :: 0 <= k < |s| && !IsLowerAscii(s[k]) ==> r[k] == s[k]
    ensures forall k :: 0 <= k < |s| && IsLowerAscii(s[k]) ==> 'A' <= r[k] <= 'Z' && r[k] as int - 'A' as int == s[k] as int - 'a' as int
  {
    seq(|s|, k requires 0 <= k < |s| => if 'a' <= s[k] <= 'z' then (s[k] as int - 32) as char else s[k])
  }

  predicate IsLowerAscii(c: char) {
    'a' <= c <= 'z'
  }

  /** A string without lower-case ASCII letters is its own upper case. */
  lemma UpperOfUpper(s: string)
    requires forall k :: 0 <= k < |s| ==> !IsLowerAscii(s[k])
    ensures Upper(s) == s
  {
  }

  /** Upper-casing twice is upper-casing once. */
  lemma UpperIdempotent(s: string)
    ensures Upper(Upper(s)) == Upper(s)
  {
    UpperOfUpper(Upper(s));
  }
}
