/** The parts of Python's `os.path` (POSIX flavour) and `str` that the core relies on:
    finding the extension and the base name of a path, joining two path parts,
    lower-casing, and joining strings with a separator. */
module PathText {

  /** `s` ends with `t`. (That `s` starts with `t` is Dafny's prefix test `t <= s`.) */
  predicate EndsWith(s: string, t: string) {
    |t| <= |s| && s[|s| - |t|..] == t
  }

  /** Python's `s.rfind(c)`: the index of the last `c` in `s`, or -1. */
  function RFind(s: string, c: char): (r: int)
    ensures -1 <= r < |s|
  {
    if s == [] then -1
    else if s[|s| - 1] == c then |s| - 1
    else RFind(s[..|s| - 1], c)
  }

  /** `rfind` finds an occurrence of `c` with none after it, or reports there is none. */
  lemma {:induction false} RFindShape(s: string, c: char)
    ensures var r := RFind(s, c);
      && (r >= 0 ==> s[r] == c)
      && (forall k :: r < k < |s| ==> s[k] != c)
  {
    if s != [] && s[|s| - 1] != c {
      RFindShape(s[..|s| - 1], c);
    }
  }

  /** `os.path.basename`: what follows the last '/'. */
  function Basename(p: string): string {
    p[RFind(p, '/') + 1..]
  }

  /** The base name is the part of the path after its last separator. */
  lemma BasenameShape(p: string)
    ensures '/' !in Basename(p)
    ensures EndsWith(p, Basename(p))
    ensures |Basename(p)| < |p| ==> p[|p| - |Basename(p)| - 1] == '/'
  {
    RFindShape(p, '/');
  }

  /** Every character of `s` is a dot. */
  predicate OnlyDots(s: string) {
    forall k :: 0 <= k < |s| ==> s[k] == '.'
  }

  /** The extension `os.path.splitext` splits off: from the last '.' of the final
      path component, provided some character before that dot in the component is
      not itself a dot (so ".bashrc" and "..txt" have no extension). */
  function Extension(p: string): string {
    var s := RFind(p, '/');
    var d := RFind(p, '.');
    if d > s && !OnlyDots(p[s + 1..d]) then p[d..] else ""
  }

  /** An extension is empty, or a dot followed by characters that are neither dots nor
      separators, ending the path and shorter than its base name. */
  lemma ExtensionShape(p: string)
    ensures var e := Extension(p);
      && EndsWith(p, e)
      && (e != "" ==> e[0] == '.' && |e| < |Basename(p)|)
      && (forall k :: 0 < k < |e| ==> e[k] != '.')
      && (forall k :: 0 <= k < |e| ==> e[k] != '/')
  {
    var s := RFind(p, '/');
    var d := RFind(p, '.');
    if d > s && !OnlyDots(p[s + 1..d]) {
      RFindShape(p, '/');
      RFindShape(p, '.');
      assert s + 1 < d;
      DotSuffix(p, d);
    } else {
      assert Extension(p) == "";
    }
  }

  /** The part of a path from a final dot onwards, with no dot or separator after it. */
  lemma DotSuffix(p: string, d: int)
    requires 0 <= d < |p| && p[d] == '.'
    requires forall k :: d < k < |p| ==> p[k] != '.' && p[k] != '/'
    ensures var e := p[d..];
      && EndsWith(p, e)
      && e[0] == '.'
      && (forall k :: 0 < k < |e| ==> e[k] != '.')
      && (forall k :: 0 <= k < |e| ==> e[k] != '/')
  {
    var e := p[d..];
    assert p[|p| - |e|..] == e;
    forall k | 0 <= k < |e|
      ensures e[k] == p[d + k]
    {
    }
  }

  /** `c.lower()` for ASCII characters; every other character is left as it is. */
  function LowerChar(c: char): char {
    if 'A' <= c <= 'Z' then (c as int + 32) as char else c
  }

  /** `s.lower()`, character by character (see LowerChar). */
  function Lower(s: string): (r: string)
    ensures |r| == |s|
  {
    if s == [] then [] else [LowerChar(s[0])] + Lower(s[1..])
  }

  /** `lower()` maps each character on its own. */
  lemma {:induction false} LowerAt(s: string)
    ensures forall i :: 0 <= i < |s| ==> Lower(s)[i] == LowerChar(s[i])
  {
    if s != [] {
      LowerAt(s[1..]);
    }
  }

  /** Lower-casing twice is lower-casing once. */
  lemma LowerTwice(s: string)
    ensures Lower(Lower(s)) == Lower(s)
  {
    LowerAt(s);
    LowerAt(Lower(s));
    assert forall i :: 0 <= i < |s| ==> Lower(Lower(s))[i] == Lower(s)[i];
  }

  /** `os.path.join(a, b)` on POSIX. */
  function PathJoin(a: string, b: string): string {
    if |b| > 0 && b[0] == '/' then b
    else if a == [] || a[|a| - 1] == '/' then a + b
    else a + "/" + b
  }

  /** The joined path ends with its second part; an absolute second part replaces the
      first, any other extends it. */
  lemma PathJoinShape(a: string, b: string)
    ensures var r := PathJoin(a, b);
      && EndsWith(r, b)
      && (|b| > 0 && b[0] == '/' ==> r == b)
      && ((|b| == 0 || b[0] != '/') ==> a <= r)
  {
  }

  /** `sep.join(parts)`. */
  function Join(parts: seq<string>, sep: string): string
    decreases |parts|
  {
    if parts == [] then ""
    else if |parts| == 1 then parts[0]
    else parts[0] + sep + Join(parts[1..], sep)
  }

  /** A join starts with its first part, followed by the separator when more parts
      come after it. */
  lemma JoinFirst(parts: seq<string>, sep: string)
    requires parts != []
    ensures parts[0] <= Join(parts, sep)
    ensures |parts| > 1 ==> parts[0] + sep <= Join(parts, sep)
  {
  }

  /** A join ends with its last part. */
  lemma {:induction false} JoinLast(parts: seq<string>, sep: string)
    requires parts != []
    ensures EndsWith(Join(parts, sep), parts[|parts| - 1])
    decreases |parts|
  {
    if |parts| > 1 {
      var rest := Join(parts[1..], sep);
      var last := parts[|parts| - 1];
      JoinLast(parts[1..], sep);
      var whole := parts[0] + sep + rest;
      assert whole[|whole| - |last|..] == rest[|rest| - |last|..];
    }
  }

  /** The last occurrence is the one with no occurrence after it. */
  lemma RFindIs(s: string, c: char, t: int)
    requires 0 <= t < |s| && s[t] == c
    requires forall k :: t < k < |s| ==> s[k] != c
    ensures RFind(s, c) == t
  {
  }

  /** A character that does not occur is not found. */
  lemma RFindAbsent(s: string, c: char)
    requires forall k :: 0 <= k < |s| ==> s[k] != c
    ensures RFind(s, c) == -1
  {
    RFindShape(s, c);
  }

  /** Joining a file name to the directory it was found in gives back that name as
      the base name of the joined path. */
  lemma JoinedBasename(dir: string, name: string)
    requires name != "" && '/' !in name
    ensures Basename(PathJoin(dir, name)) == name
  {
    var r := PathJoin(dir, name);
    if dir == [] {
      assert r == name;
      assert forall k :: 0 <= k < |r| ==> r[k] != '/';
      RFindShape(r, '/');
    } else {
      var t := if dir[|dir| - 1] == '/' then |dir| - 1 else |dir|;
      assert r == r[..t + 1] + name;
      assert forall k :: t < k < |r| ==> r[k] == name[k - t - 1];
      RFindIs(r, '/', t);
      assert r[t + 1..] == name;
    }
  }

  /** The last index of a character that lower-casing neither produces nor removes
      is the same in a string and in its lower-cased form. */
  lemma {:induction false} RFindLower(s: string, c: char)
    requires !('A' <= c <= 'Z') && !('a' <= c <= 'z')
    ensures RFind(Lower(s), c) == RFind(s, c)
  {
    LowerAt(s);
    if s != [] {
      var n := |s| - 1;
      LowerAt(s[..n]);
      assert Lower(s)[..n] == Lower(s[..n]);
      RFindLower(s[..n], c);
    }
  }

  /** Lower-casing commutes with taking a slice. */
  lemma LowerSlice(s: string, i: int, j: int)
    requires 0 <= i <= j <= |s|
    ensures Lower(s)[i..j] == Lower(s[i..j])
  {
    LowerAt(s);
    LowerAt(s[i..j]);
    assert |Lower(s)[i..j]| == |Lower(s[i..j])|;
    forall k | 0 <= k < j - i
      ensures Lower(s)[i..j][k] == Lower(s[i..j])[k]
    {
    }
  }

  /** Lower-casing commutes with dropping a prefix. */
  lemma LowerSuffix(s: string, i: int)
    requires 0 <= i <= |s|
    ensures Lower(s)[i..] == Lower(s[i..])
  {
    var a := Lower(s)[i..];
    var b := Lower(s[i..]);
    LowerAt(s);
    LowerAt(s[i..]);
    forall k | 0 <= k < |s| - i
      ensures a[k] == b[k]
    {
      assert a[k] == Lower(s)[i + k];
      assert s[i..][k] == s[i + k];
    }
    assert a == b;
  }

  /** Unfolds Extension once its two search results are known. */
  lemma ExtensionAt(p: string, s: int, d: int)
    requires s == RFind(p, '/') && d == RFind(p, '.')
    requires d > s && !OnlyDots(p[s + 1..d])
    ensures Extension(p) == p[d..]
  {
  }

  /** A string is all dots exactly when its lower-cased form is. */
  lemma OnlyDotsLower(s: string)
    ensures OnlyDots(Lower(s)) == OnlyDots(s)
  {
    if !OnlyDots(s) {
      var k :| 0 <= k < |s| && s[k] != '.';
      LowerAt(s);
      assert Lower(s)[k] != '.';
    }
  }

  /** Lower-casing a path lower-cases its extension: `splitext` finds the same dot. */
  lemma ExtensionLower(p: string)
    ensures Extension(Lower(p)) == Lower(Extension(p))
  {
    var q := Lower(p);
    RFindLower(p, '/');
    RFindLower(p, '.');
    var s := RFind(p, '/');
    var d := RFind(p, '.');
    if d > s {
      LowerSlice(p, s + 1, d);
      OnlyDotsLower(p[s + 1..d]);
    }
    if d > s && !OnlyDots(p[s + 1..d]) {
      LowerSuffix(p, d);
      ExtensionAt(p, s, d);
      ExtensionAt(q, s, d);
    } else {
      ExtensionNone(p, s, d);
      ExtensionNone(q, s, d);
    }
  }

  /** Unfolds Extension when the last dot does not start an extension. */
  lemma ExtensionNone(p: string, s: int, d: int)
    requires s == RFind(p, '/') && d == RFind(p, '.')
    requires !(d > s && !OnlyDots(p[s + 1..d]))
    ensures Extension(p) == "" && Lower(Extension(p)) == ""
  {
    assert |Extension(p)| == 0;
    assert Lower("") == "";
  }
}
