/** The few PHP string functions the generator relies on, over `seq<char>`. */
module Text {
  import opened Wrappers

  /** Index of the last occurrence of `c` in `s`. */
  function LastIndexOf(s: string, c: char): (r: Option<nat>)
    ensures r.Some? ==> r.value < |s| && s[r.value] == c && c !in s[r.value + 1..]
    ensures r.None? <==> c !in s
  {
    if s == [] then None
    else if s[|s| - 1] == c then Some(|s| - 1)
    else
      var r := LastIndexOf(s[..|s| - 1], c);
      assert s == s[..|s| - 1] + [s[|s| - 1]];
      r
  }

  /** Strip every trailing `c`, as `rtrim($s, $c)`. */
  function TrimEnd(s: string, c: char): (r: string)
    ensures r <= s
    ensures r == [] || r[|r| - 1] != c
    ensures forall i | |r| <= i < |s| :: s[i] == c
  {
    if s != [] && s[|s| - 1] == c then TrimEnd(s[..|s| - 1], c) else s
  }

  /** Strip every leading `c`, as `ltrim($s, $c)`. */
  function TrimStart(s: string, c: char): (r: string)
    ensures r == [] || r[0] != c
    ensures exists k | 0 <= k <= |s| :: r == s[k..] && forall i | 0 <= i < k :: s[i] == c
  {
    if s != [] && s[0] == c then
      var r := TrimStart(s[1..], c);
      var k :| 0 <= k <= |s[1..]| && r == s[1..][k..] && forall i | 0 <= i < k :: s[1..][i] == c;
      assert r == s[k + 1..];
      r
    else
      assert s == s[0..];
      s
  }

  /** `trim($s, $c)` for one character. */
  function TrimChar(s: string, c: char): string
  {
    TrimEnd(TrimStart(s, c), c)
  }

  /** PHP `basename` for `/`-separated paths: trailing slashes are dropped,
      then whatever follows the last remaining slash is returned. */
  function Basename(path: string): string
  {
    var t := TrimEnd(path, '/');
    match LastIndexOf(t, '/')
    case None => t
    case Some(i) => t[i + 1..]
  }

  /** For a path whose final segment `name` is non-empty and has no slash,
      `basename` returns exactly that segment. */
  lemma BasenameOfSegment(dir: string, name: string)
    requires name != [] && '/' !in name
    ensures Basename(dir + "/" + name) == name
  {
    var p := dir + "/" + name;
    assert p[|p| - 1] == name[|name| - 1];
    assert TrimEnd(p, '/') == p;
    assert p[|dir|] == '/';
    assert p[|dir| + 1..] == name;
    var i := LastIndexOf(p, '/');
    assert i.Some?;
    assert forall k | |dir| < k < |p| :: p[k] == name[k - |dir| - 1];
  }

  /** `explode($sep, $s)` for a one-character separator. */
  function Split(s: string, sep: char): (parts: seq<string>)
    ensures |parts| >= 1
    ensures forall i | 0 <= i < |parts| :: sep !in parts[i]
  {
    if sep !in s then [s]
    else
      var i := IndexOf(s, sep);
      [s[..i]] + Split(s[i + 1..], sep)
  }

  /** Position of the first `c` in `s`. */
  function IndexOf(s: string, c: char): (i: nat)
    requires c in s
    ensures i < |s| && s[i] == c && c !in s[..i]
  {
    if s[0] == c then 0 else 1 + IndexOf(s[1..], c)
  }

  /** The first occurrence is the one with no occurrence before it. */
  lemma {:induction false} IndexOfAt(s: string, c: char, i: nat)
    requires i < |s| && s[i] == c && c !in s[..i]
    ensures IndexOf(s, c) == i
  {
    if i > 0 {
      assert s[0] in s[..i];
      assert s[1..][..i - 1] == s[..i][1..];
      IndexOfAt(s[1..], c, i - 1);
    }
  }

  /** `implode($sep, $parts)` */
  function Join(parts: seq<string>, sep: string): string
  {
    if parts == [] then []
    else if |parts| == 1 then parts[0]
    else parts[0] + sep + Join(parts[1..], sep)
  }

  /** `explode` and `implode` with the same separator undo each other. */
  lemma {:induction false} JoinSplit(s: string, sep: char)
    ensures Join(Split(s, sep), [sep]) == s
  {
    if sep in s {
      var i := IndexOf(s, sep);
      JoinSplit(s[i + 1..], sep);
      assert s == s[..i] + [sep] + s[i + 1..];
    }
  }

  /** `implode` and `explode` undo each other when no part contains the
      separator. */
  lemma {:induction false} SplitJoin(parts: seq<string>, sep: char)
    requires parts != []
    requires forall i | 0 <= i < |parts| :: sep !in parts[i]
    ensures Split(Join(parts, [sep]), sep) == parts
  {
    if |parts| > 1 {
      var s := Join(parts, [sep]);
      var rest := Join(parts[1..], [sep]);
      assert s == parts[0] + [sep] + rest;
      IndexOfAfter(parts[0], sep, rest);
      var i := IndexOf(s, sep);
      assert s[..i] == parts[0];
      assert s[i + 1..] == rest;
      SplitJoin(parts[1..], sep);
      assert Split(s, sep) == [parts[0]] + Split(rest, sep);
      assert parts == [parts[0]] + parts[1..];
    }
  }

  /** The first separator after a separator-free prefix is the one right
      after it. */
  lemma {:induction false} IndexOfAfter(a: string, sep: char, b: string)
    requires sep !in a
    ensures sep in a + [sep] + b && IndexOf(a + [sep] + b, sep) == |a|
  {
    var s := a + [sep] + b;
    assert s[|a|] == sep;
    if a != [] {
      assert s[1..] == a[1..] + [sep] + b;
      IndexOfAfter(a[1..], sep, b);
    }
  }

  /** `str_replace($from, $to, $s)` for single characters. */
  function ReplaceChar(s: string, from: char, to: char): (r: string)
    ensures |r| == |s|
    ensures forall i | 0 <= i < |s| :: r[i] == if s[i] == from then to else s[i]
  {
    if s == [] then [] else [if s[0] == from then to else s[0]] + ReplaceChar(s[1..], from, to)
  }

  /** Characters PHP's `trim` removes by default. */
  predicate IsTrimmable(c: char)
  {
    c == ' ' || c == '\t' || c == '\n' || c == '\r' || c == '\0' || c == '\U{0B}'
  }

  /** PHP `trim($s)` */
  function Trim(s: string): (r: string)
    ensures |r| <= |s|
    ensures r != [] ==> !IsTrimmable(r[0]) && !IsTrimmable(r[|r| - 1])
  {
    if s != [] && IsTrimmable(s[0]) then Trim(s[1..])
    else if s != [] && IsTrimmable(s[|s| - 1]) then Trim(s[..|s| - 1])
    else s
  }
  /** Some needle of `needles` is a non-empty prefix of `s`: Laravel's
      `Str::startsWith($s, $needles)`. */
  predicate StartsWithAny(s: string, needles: seq<string>)
  {
    exists i | 0 <= i < |needles| :: needles[i] != [] && needles[i] <= s
  }

  /** The decimal text PHP gives an integer when it is used as a string. */
  function IntText(n: int): string
    decreases if n < 0 then 1 - n else n
  {
    if n < 0 then "-" + IntText(-n)
    else if n < 10 then [(('0' as int) + n) as char]
    else IntText(n / 10) + [(('0' as int) + n % 10) as char]
  }
}
