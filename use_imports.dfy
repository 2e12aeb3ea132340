/** `getImports`: the map from the short name a file uses for a class to
    the fully-qualified name its `use` statements bind it to. Each regular
    expression of the source becomes a left-to-right scan over the text the
    previous step produced. */
module UseImports {
  import opened Wrappers
  import opened OrderedMaps
  import Text

  /** The characters the regular-expression class `\s` matches. */
  predicate IsSpace(c: char)
  {
    c == ' ' || c == '\t' || c == '\n' || c == '\r' || c == '\U{0B}' || c == '\U{0C}'
  }

  /** ASCII lower-casing, as case-insensitive matching compares letters. */
  function Lower(c: char): char
  {
    if 'A' <= c <= 'Z' then (c as int + 32) as char else c
  }

  /** `needle` occurs in `s` at `j`. */
  predicate OccursAt(s: string, needle: string, j: nat)
  {
    j + |needle| <= |s| && s[j..j + |needle|] == needle
  }

  /** `strpos($s, $needle, $from)`: the first occurrence at or after `from`. */
  function FindFrom(s: string, needle: string, from: nat): (r: Option<nat>)
    requires from <= |s|
    ensures r.Some? ==> from <= r.value && OccursAt(s, needle, r.value)
    ensures forall j | from <= j && (r.None? || j < r.value) :: !OccursAt(s, needle, j)
    decreases |s| - from
  {
    if from + |needle| > |s| then None
    else if s[from..from + |needle|] == needle then Some(from)
    else FindFrom(s, needle, from + 1)
  }

  /** The first `c` at or after `from`. */
  function FindChar(s: string, c: char, from: nat): (r: Option<nat>)
    requires from <= |s|
    ensures r.Some? ==> from <= r.value < |s| && s[r.value] == c
    ensures forall j | from <= j < |s| && (r.None? || j < r.value) :: s[j] != c
    decreases |s| - from
  {
    if from == |s| then None
    else if s[from] == c then Some(from)
    else FindChar(s, c, from + 1)
  }

  // ---------------------------------------------------------------------
  // The head of the file

  /** Where the scanned head ends: at the first `class`, else the first
      `interface`, else the first `trait`, else at the end of the text. */
  function HeadEnd(contents: string): (p: nat)
    ensures p <= |contents|
  {
    match FindFrom(contents, "class", 0)
    case Some(p) => p
    case None =>
      match FindFrom(contents, "interface", 0)
      case Some(p) => p
      case None =>
        match FindFrom(contents, "trait", 0)
        case Some(p) => p
        case None => |contents|
  }

  function Head(contents: string): string
  {
    contents[..HeadEnd(contents)]
  }

  /** Nothing from the first `class` on is read: the head of a text is the
      part before its first `class`, whatever follows it. */
  lemma HeadStopsAtClass(pre: string, rest: string)
    requires forall j | 0 <= j :: !OccursAt(pre, "class", j)
    ensures Head(pre + "class" + rest) == pre
  {
    var s := pre + "class" + rest;
    assert OccursAt(s, "class", |pre|) by {
      assert s[|pre|..|pre| + 5] == "class";
    }
    forall j | 0 <= j < |pre|
      ensures !OccursAt(s, "class", j)
    {
      if j + 5 <= |pre| {
        assert s[j..j + 5] == pre[j..j + 5];
        assert !OccursAt(pre, "class", j);
      } else if j + 5 <= |s| {
        assert s[j..j + 5][|pre| - j] == s[|pre|] == 'c';
      }
    }
    assert HeadEnd(s) == |pre|;
  }

  // ---------------------------------------------------------------------
  // Step one: a namespace split over lines is joined

  /** The end of the run of spaces starting at `i`. */
  function SpaceRun(s: string, i: nat): (e: nat)
    requires i <= |s|
    ensures i <= e <= |s|
    ensures forall j | i <= j < e :: IsSpace(s[j])
    ensures e == |s| || !IsSpace(s[e])
    decreases |s| - i
  {
    if i < |s| && IsSpace(s[i]) then SpaceRun(s, i + 1) else i
  }

  /** The end of the run of letters `c` starting at `i`. */
  function LetterRun(s: string, i: nat, c: char): (e: nat)
    requires i <= |s|
    ensures i <= e <= |s|
    ensures e == |s| || s[e] != c
    decreases |s| - i
  {
    if i < |s| && s[i] == c then LetterRun(s, i + 1, c) else i
  }

  /** A continuation at `i`: spaces, a backslash, a run of letters `s`, a
      newline, spaces. The result is where the match ends. */
  function ContinuationAt(s: string, i: nat): (r: Option<nat>)
    requires i <= |s|
    ensures r.Some? ==> i < r.value <= |s| && (r.value == |s| || !IsSpace(s[r.value]))
  {
    var a := SpaceRun(s, i);
    if a < |s| && s[a] == '\\' then
      var b := LetterRun(s, a + 1, 's');
      if b < |s| && s[b] == '\n' then Some(SpaceRun(s, b + 1)) else None
    else None
  }

  /** Every continuation, scanned from `i` on, becomes one backslash. */
  function JoinContinuations(s: string, i: nat): string
    requires i <= |s|
    decreases |s| - i
  {
    if i == |s| then []
    else
      match ContinuationAt(s, i)
      case Some(e) => "\\" + JoinContinuations(s, e)
      case None => [s[i]] + JoinContinuations(s, i + 1)
  }

  lemma {:induction false} JoinContinuationsFirst(s: string, i: nat)
    requires i <= |s|
    ensures var r := JoinContinuations(s, i);
      (r == []) == (i == |s|) && (r != [] ==> r[0] == '\\' || r[0] == s[i])
  {
  }

  /** After joining, no backslash is directly followed by a newline. */
  lemma {:induction false} NoContinuationLeft(s: string, i: nat)
    requires i <= |s|
    ensures var r := JoinContinuations(s, i);
      forall j | 0 <= j < |r| - 1 :: !(r[j] == '\\' && r[j + 1] == '\n')
    decreases |s| - i
  {
    if i < |s| {
      var r := JoinContinuations(s, i);
      match ContinuationAt(s, i)
      case Some(e) =>
        NoContinuationLeft(s, e);
        JoinContinuationsFirst(s, e);
        assert r == "\\" + JoinContinuations(s, e);
      case None =>
        NoContinuationLeft(s, i + 1);
        JoinContinuationsFirst(s, i + 1);
        assert r == [s[i]] + JoinContinuations(s, i + 1);
        assert !(s[i] == '\\' && i + 1 < |s| && s[i + 1] == '\n');
    }
  }

  /** Text with no newline is left as it is. */
  lemma {:induction false} JoinWithoutNewline(s: string, i: nat)
    requires i <= |s|
    requires '\n' !in s
    ensures JoinContinuations(s, i) == s[i..]
    decreases |s| - i
  {
    if i < |s| {
      JoinWithoutNewline(s, i + 1);
      assert s[i..] == [s[i]] + s[i + 1..];
    }
  }

  // ---------------------------------------------------------------------
  // Step three: every run of spaces becomes one space

  function Collapse(s: string, i: nat): string
    requires i <= |s|
    decreases |s| - i
  {
    if i == |s| then []
    else if IsSpace(s[i]) then " " + Collapse(s, SpaceRun(s, i))
    else [s[i]] + Collapse(s, i + 1)
  }

  /** Collapsed text has plain spaces only, never two in a row. */
  lemma {:induction false} CollapseClean(s: string, i: nat)
    requires i <= |s|
    ensures var r := Collapse(s, i);
      (r != [] ==> (r[0] == ' ') == IsSpace(s[i])) &&
      (forall j | 0 <= j < |r| :: IsSpace(r[j]) ==> r[j] == ' ') &&
      (forall j | 0 <= j < |r| - 1 :: !(r[j] == ' ' && r[j + 1] == ' '))
    decreases |s| - i
  {
    if i < |s| {
      if IsSpace(s[i]) {
        CollapseClean(s, SpaceRun(s, i));
      } else {
        CollapseClean(s, i + 1);
      }
    }
  }

  /** Text already clean is left as it is. */
  lemma {:induction false} CollapseIdentity(s: string, i: nat)
    requires i <= |s|
    requires forall j | 0 <= j < |s| :: IsSpace(s[j]) ==> s[j] == ' '
    requires forall j | 0 <= j < |s| - 1 :: !(s[j] == ' ' && s[j + 1] == ' ')
    ensures Collapse(s, i) == s[i..]
    decreases |s| - i
  {
    if i < |s| {
      if IsSpace(s[i]) {
        assert SpaceRun(s, i) == i + 1 by {
          assert i + 1 == |s| || !IsSpace(s[i + 1]);
        }
      }
      CollapseIdentity(s, i + 1);
      assert s[i..] == [s[i]] + s[i + 1..];
    }
  }

  // ---------------------------------------------------------------------
  // Steps two and four: the `use` statements

  /** `use` in any letter case followed by a space. */
  predicate KeywordAt(t: string, p: nat)
  {
    p + 4 <= |t| && Lower(t[p]) == 'u' && Lower(t[p + 1]) == 's' && Lower(t[p + 2]) == 'e' && IsSpace(t[p + 3])
  }

  /** The text of each `use ...;` statement, scanned from `i` on: a keyword,
      one space, then at least one character up to the next semicolon. */
  function UseBlocks(t: string, i: nat): (blocks: seq<string>)
    requires i <= |t|
    ensures forall n | 0 <= n < |blocks| :: blocks[n] != [] && ';' !in blocks[n]
    decreases |t| - i
  {
    if i == |t| then []
    else if KeywordAt(t, i) then
      match FindChar(t, ';', i + 4)
      case Some(q) =>
        if q > i + 4 then
          [t[i + 4..q]] + UseBlocks(t, q + 1)
        else UseBlocks(t, i + 1)
      case None => UseBlocks(t, i + 1)
    else UseBlocks(t, i + 1)
  }

  /** A single statement reads as its body. */
  lemma UseStatement(body: string)
    requires body != [] && ';' !in body
    ensures UseBlocks("use " + body + ";", 0) == [body]
  {
    var t := "use " + body + ";";
    assert KeywordAt(t, 0);
    forall k | 4 <= k < |t| - 1
      ensures t[k] != ';'
    {
      assert t[k] == body[k - 4];
    }
    assert t[|t| - 1] == ';';
    assert FindChar(t, ';', 4) == Some(|t| - 1);
    assert t[4..|t| - 1] == body;
  }

  // ---------------------------------------------------------------------
  // Splitting a statement at its top-level commas

  /** True when the first brace at or after `j` is a closing one, so that a
      comma just before `j` lies inside a group. */
  function ClosesFirst(b: string, j: nat): bool
    decreases |b| - j
  {
    if j >= |b| then false
    else if b[j] == '}' then true
    else if b[j] == '{' then false
    else ClosesFirst(b, j + 1)
  }

  predicate SplitsAt(b: string, i: nat)
    requires i < |b|
  {
    b[i] == ',' && !ClosesFirst(b, i + 1)
  }

  /** The pieces between the splitting commas; the current piece started
      at `start` and the scan is at `i`. */
  function SplitParts(b: string, start: nat, i: nat): (parts: seq<string>)
    requires start <= i <= |b|
    ensures |parts| >= 1
    decreases |b| - i
  {
    if i == |b| then [b[start..]]
    else if SplitsAt(b, i) then [b[start..i]] + SplitParts(b, i + 1, i + 1)
    else SplitParts(b, start, i + 1)
  }

  /** Splitting loses nothing: joining the pieces with commas restores the
      statement. */
  lemma {:induction false} JoinSplitParts(b: string, start: nat, i: nat)
    requires start <= i <= |b|
    ensures Text.Join(SplitParts(b, start, i), ",") == b[start..]
    decreases |b| - i
  {
    if i < |b| {
      JoinSplitParts(b, if SplitsAt(b, i) then i + 1 else start, i + 1);
      if SplitsAt(b, i) {
        assert b[start..] == b[start..i] + "," + b[i + 1..];
      }
    }
  }

  /** With no braces, every comma splits. */
  lemma {:induction false} SplitPartsPlain(b: string, start: nat, i: nat)
    requires start <= i <= |b|
    requires '{' !in b && '}' !in b
    requires ',' !in b[start..i]
    ensures SplitParts(b, start, i) == Text.Split(b[start..], ',')
    decreases |b| - i
  {
    if i < |b| {
      assert !ClosesFirst(b, i + 1) by {
        NoBraceAfter(b, i + 1);
      }
      if b[i] == ',' {
        SplitPartsPlain(b, i + 1, i + 1);
        assert b[start..][..i - start] == b[start..i];
        Text.IndexOfAt(b[start..], ',', i - start);
        assert b[start..][i - start + 1..] == b[i + 1..];
      } else {
        assert b[start..i + 1] == b[start..i] + [b[i]];
        SplitPartsPlain(b, start, i + 1);
      }
    } else {
      assert b[start..] == b[start..i];
    }
  }

  lemma {:induction false} NoBraceAfter(b: string, j: nat)
    requires '}' !in b
    ensures !ClosesFirst(b, j)
    decreases |b| - j
  {
    if j < |b| {
      NoBraceAfter(b, j + 1);
    }
  }

  /** A comma followed, before any `{`, by the closing `}` does not split. */
  lemma {:induction false} ClosesFirstAtGroupEnd(b: string, j: nat)
    requires j < |b| && b[|b| - 1] == '}'
    requires forall m | j <= m < |b| - 1 :: b[m] != '{' && b[m] != '}'
    ensures ClosesFirst(b, j)
    decreases |b| - j
  {
    if j < |b| - 1 {
      ClosesFirstAtGroupEnd(b, j + 1);
    }
  }

  /** A statement whose commas all lie inside its final group is a single
      piece. */
  lemma {:induction false} SplitPartsGroup(b: string, start: nat, i: nat)
    requires start <= i <= |b|
    requires forall k | i <= k < |b| :: !SplitsAt(b, k)
    ensures SplitParts(b, start, i) == [b[start..]]
    decreases |b| - i
  {
    if i < |b| {
      SplitPartsGroup(b, start, i + 1);
    }
  }

  // ---------------------------------------------------------------------
  // Reading one import clause

  /** `\{` at a position from `p` on that leaves at least one character
      before the final `}`. */
  function GroupOpen(part: string, p: nat): (r: Option<nat>)
    ensures r.Some? ==> p <= r.value && r.value + 3 < |part| && part[r.value] == '\\' && part[r.value + 1] == '{'
    ensures forall j | p <= j && j + 3 < |part| && (r.None? || j < r.value) :: !(part[j] == '\\' && part[j + 1] == '{')
    decreases |part| - p
  {
    if p + 3 >= |part| then None
    else if part[p] == '\\' && part[p + 1] == '{' then Some(p)
    else GroupOpen(part, p + 1)
  }

  /** The grouped form `Prefix\{Inner}`: the shortest non-empty prefix and
      the non-empty text inside the braces; no character may be a newline. */
  function GroupMatch(part: string): (r: Option<(string, string)>)
    ensures r.Some? ==> part == r.value.0 + "\\{" + r.value.1 + "}" && r.value.0 != [] && r.value.1 != []
  {
    if part != [] && part[|part| - 1] == '}' && '\n' !in part then
      match GroupOpen(part, 1)
      case Some(p) =>
        assert part == part[..p] + "\\{" + part[p + 2..|part| - 1] + "}";
        Some((part[..p], part[p + 2..|part| - 1]))
      case None => None
    else None
  }

  /** ` as `, with the keyword in any letter case, at `i`. */
  predicate AsAt(s: string, i: nat)
  {
    i + 4 <= |s| && s[i] == ' ' && Lower(s[i + 1]) == 'a' && Lower(s[i + 2]) == 's' && s[i + 3] == ' '
  }

  function FindAs(s: string, from: nat): (r: Option<nat>)
    requires from <= |s|
    ensures r.Some? ==> from <= r.value && AsAt(s, r.value)
    ensures forall j | from <= j < |s| && (r.None? || j < r.value) :: !AsAt(s, j)
    decreases |s| - from
  {
    if from == |s| then None
    else if AsAt(s, from) then Some(from)
    else FindAs(s, from + 1)
  }

  /** The first two pieces of splitting at ` as `, when it occurs. */
  function SplitAs(s: string): (r: Option<(string, string)>)
    ensures r.None? <==> forall j | 0 <= j < |s| :: !AsAt(s, j)
  {
    match FindAs(s, 0)
    case None => None
    case Some(i) =>
      var rest := s[i + 4..];
      match FindAs(rest, 0)
      case None => Some((s[..i], rest))
      case Some(j) => Some((s[..i], rest[..j]))
  }

  /** One name of a group: `Name` or `Name as Alias`, under `base`. */
  function ClassEntry(base: string, cls0: string): (string, string)
  {
    var cls := Text.Trim(cls0);
    match SplitAs(cls)
    case Some((original, alias)) => (Text.Trim(alias), base + "\\" + Text.Trim(original))
    case None => (cls, base + "\\" + cls)
  }

  function GroupEntries(base: string, classes: seq<string>): (r: seq<(string, string)>)
    ensures |r| == |classes|
    ensures forall i | 0 <= i < |classes| :: r[i] == ClassEntry(base, classes[i])
  {
    seq(|classes|, i requires 0 <= i < |classes| => ClassEntry(base, classes[i]))
  }

  /** The last backslash-separated segment. */
  function LastSegment(fqcn: string): string
  {
    var segments := Text.Split(fqcn, '\\');
    segments[|segments| - 1]
  }

  /** The entries one clause adds, in order: a group gives one per name, an
      aliased clause maps the alias, a plain one maps its last segment. */
  function PartEntries(part0: string): seq<(string, string)>
  {
    var part := Text.Trim(part0);
    match GroupMatch(part)
    case Some((prefix, inner)) =>
      GroupEntries(Text.TrimChar(prefix, '\\'), Text.Split(inner, ','))
    case None =>
      match SplitAs(part)
      case Some((fqcn, alias)) => [(Text.Trim(alias), Text.Trim(fqcn))]
      case None => [(LastSegment(part), part)]
  }

  // ---------------------------------------------------------------------
  // The whole file

  function BlockEntries(parts: seq<string>): seq<(string, string)>
  {
    if parts == [] then [] else BlockEntries(parts[..|parts| - 1]) + PartEntries(parts[|parts| - 1])
  }

  function AllEntries(blocks: seq<string>): seq<(string, string)>
  {
    if blocks == [] then [] else AllEntries(blocks[..|blocks| - 1]) + BlockEntries(SplitParts(blocks[|blocks| - 1], 0, 0))
  }

  function Blocks(contents: string): seq<string>
  {
    var joined := JoinContinuations(Head(contents), 0);
    UseBlocks(Collapse(joined, 0), 0)
  }

  /** The import map of a file: every entry written in order. */
  function Imports(contents: string): seq<(string, string)>
  {
    Merge([], AllEntries(Blocks(contents)))
  }

  /** `getImports` */
  method GetImports(contents: string) returns (mapped: seq<(string, string)>)
    ensures mapped == Imports(contents)
    ensures UniqueKeys(mapped)
  {
    var blocks := Blocks(contents);
    mapped := [];
    var i := 0;
    while i < |blocks|
      invariant 0 <= i <= |blocks|
      invariant mapped == Merge([], AllEntries(blocks[..i]))
    {
      assert blocks[..i + 1][..i] == blocks[..i];
      MergeAppend([], AllEntries(blocks[..i]), BlockEntries(SplitParts(blocks[i], 0, 0)));
      mapped := AddBlock(mapped, blocks[i]);
      i := i + 1;
    }
    assert blocks[..i] == blocks;
    UniqueMerge([], AllEntries(blocks));
  }

  /** The loop over the clauses of one statement. */
  method AddBlock(m: seq<(string, string)>, block: string) returns (mapped: seq<(string, string)>)
    ensures mapped == Merge(m, BlockEntries(SplitParts(block, 0, 0)))
  {
    var parts := SplitParts(block, 0, 0);
    mapped := m;
    var j := 0;
    while j < |parts|
      invariant 0 <= j <= |parts|
      invariant mapped == Merge(m, BlockEntries(parts[..j]))
    {
      assert parts[..j + 1][..j] == parts[..j];
      MergeAppend(m, BlockEntries(parts[..j]), PartEntries(parts[j]));
      mapped := AddPart(mapped, parts[j]);
      j := j + 1;
    }
    assert parts[..j] == parts;
  }

  /** The body of the loop over one clause. */
  method AddPart(m: seq<(string, string)>, part0: string) returns (mapped: seq<(string, string)>)
    ensures mapped == Merge(m, PartEntries(part0))
  {
    var part := Text.Trim(part0);
    match GroupMatch(part) {
      case Some((prefix, inner)) =>
        mapped := AddGroup(m, Text.TrimChar(prefix, '\\'), Text.Split(inner, ','));
      case None =>
        match SplitAs(part) {
          case Some((fqcn, alias)) =>
            mapped := Put(m, Text.Trim(alias), Text.Trim(fqcn));
          case None =>
            mapped := Put(m, LastSegment(part), part);
        }
    }
  }

  /** The loop over the names of a group. */
  method AddGroup(m: seq<(string, string)>, base: string, classes: seq<string>) returns (mapped: seq<(string, string)>)
    ensures mapped == Merge(m, GroupEntries(base, classes))
  {
    ghost var entries := GroupEntries(base, classes);
    mapped := m;
    var k := 0;
    while k < |classes|
      invariant 0 <= k <= |classes|
      invariant mapped == Merge(m, entries[..k])
    {
      var entry := ClassEntry(base, classes[k]);
      assert entries[..k + 1] == entries[..k] + [entry];
      MergeAppend(m, entries[..k], [entry]);
      mapped := Put(mapped, entry.0, entry.1);
      k := k + 1;
    }
    assert entries[..k] == entries;
  }

  /** A later entry for a short name overwrites an earlier one: each key
      reads back the fully-qualified name of its last entry. */
  lemma ImportsLastWins(contents: string, name: string)
    ensures Get(Imports(contents), name) == LastFor(AllEntries(Blocks(contents)), name)
  {
    GetMergeLast([], AllEntries(Blocks(contents)), name);
  }
}

module UseImportForms {
  import opened Wrappers
  import opened OrderedMaps
  import Text
  import opened UseImports

  /** Characters of a (possibly qualified) class name. */
  predicate IsNameChar(c: char)
  {
    'a' <= c <= 'z' || 'A' <= c <= 'Z' || '0' <= c <= '9' || c == '_' || c == '\\'
  }

  predicate IsName(s: string)
  {
    s != [] && forall i | 0 <= i < |s| :: IsNameChar(s[i])
  }

  lemma TrimKeeps(s: string)
    requires s != [] && !Text.IsTrimmable(s[0]) && !Text.IsTrimmable(s[|s| - 1])
    ensures Text.Trim(s) == s
  {
  }

  lemma TrimLeadingSpace(s: string)
    requires s != [] && !Text.IsTrimmable(s[0]) && !Text.IsTrimmable(s[|s| - 1])
    ensures Text.Trim(" " + s) == s
  {
    assert (" " + s)[1..] == s;
  }

  lemma NoAsInName(s: string)
    requires IsName(s)
    ensures SplitAs(s).None?
  {
    forall j | 0 <= j < |s|
      ensures !AsAt(s, j)
    {
    }
  }

  lemma SplitAsNames(fqcn: string, alias: string)
    requires IsName(fqcn) && IsName(alias)
    ensures SplitAs(fqcn + " as " + alias) == Some((fqcn, alias))
  {
    var p := fqcn + " as " + alias;
    assert AsAt(p, |fqcn|);
    forall j | 0 <= j < |fqcn|
      ensures !AsAt(p, j)
    {
      assert p[j] == fqcn[j];
    }
    assert FindAs(p, 0) == Some(|fqcn|);
    assert p[|fqcn| + 4..] == alias;
    assert p[..|fqcn|] == fqcn;
    forall j | 0 <= j < |alias|
      ensures !AsAt(alias, j)
    {
    }
  }

  /** The last segment of a qualified name is its final part: it has no
      backslash and either is the whole name or follows a backslash. */
  lemma {:induction false} LastSegmentSuffix(s: string)
    ensures var l := LastSegment(s);
      '\\' !in l && |l| <= |s| && s[|s| - |l|..] == l &&
      (|l| == |s| || s[|s| - |l| - 1] == '\\')
  {
    if '\\' in s {
      var i := Text.IndexOf(s, '\\');
      LastSegmentSuffix(s[i + 1..]);
      assert Text.Split(s, '\\') == [s[..i]] + Text.Split(s[i + 1..], '\\');
      assert LastSegment(s) == LastSegment(s[i + 1..]);
    }
  }

  /** `use A\B\C;` maps `C` to `A\B\C`. */
  lemma SimpleImport(fqcn: string)
    requires IsName(fqcn)
    ensures PartEntries(fqcn) == [(LastSegment(fqcn), fqcn)]
  {
    TrimKeeps(fqcn);
    NoAsInName(fqcn);
  }

  /** `use A\B as Alias;` maps `Alias` to `A\B`. */
  lemma AliasedImport(fqcn: string, alias: string)
    requires IsName(fqcn) && IsName(alias)
    ensures PartEntries(fqcn + " as " + alias) == [(alias, fqcn)]
  {
    var p := fqcn + " as " + alias;
    TrimKeeps(p);
    TrimKeeps(fqcn);
    TrimKeeps(alias);
    SplitAsNames(fqcn, alias);
  }

  /** The grouped form is recognised at the first `\{`. */
  lemma GroupMatchOf(base: string, inner: string)
    requires IsName(base) && inner != [] && '\n' !in inner
    ensures GroupMatch(base + "\\{" + inner + "}") == Some((base, inner))
  {
    var p := base + "\\{" + inner + "}";
    assert p[|base|] == '\\' && p[|base| + 1] == '{';
    forall j | 1 <= j < |base|
      ensures !(p[j] == '\\' && p[j + 1] == '{')
    {
      assert p[j + 1] == if j + 1 < |base| then base[j + 1] else '\\';
    }
    assert GroupOpen(p, 1) == Some(|base|);
    forall j | 0 <= j < |p|
      ensures p[j] != '\n'
    {
      if j < |base| {
        assert p[j] == base[j];
      } else if |base| + 2 <= j < |p| - 1 {
        assert p[j] == inner[j - |base| - 2];
      }
    }
    assert p[..|base|] == base;
    assert p[|base| + 2..|p| - 1] == inner;
  }

  /** `use Base\{...};` maps each name of the group, read as a plain or an
      aliased name under `Base`. */
  lemma GroupedImport(base: string, inner: string)
    requires IsName(base) && base[0] != '\\' && base[|base| - 1] != '\\'
    requires inner != [] && '\n' !in inner
    ensures PartEntries(base + "\\{" + inner + "}") == GroupEntries(base, Text.Split(inner, ','))
  {
    var p := base + "\\{" + inner + "}";
    TrimKeeps(p);
    GroupMatchOf(base, inner);
    assert Text.TrimChar(base, '\\') == base;
  }

  /** A group name reads as itself under the base, with or without the
      space that follows the comma. */
  lemma PlainGroupName(base: string, name: string)
    requires IsName(name)
    ensures ClassEntry(base, name) == (name, base + "\\" + name)
    ensures ClassEntry(base, " " + name) == (name, base + "\\" + name)
  {
    TrimKeeps(name);
    TrimLeadingSpace(name);
    NoAsInName(name);
  }

  /** `Name as Alias` in a group maps the alias to the name under the base. */
  lemma AliasedGroupName(base: string, name: string, alias: string)
    requires IsName(name) && IsName(alias)
    ensures ClassEntry(base, name + " as " + alias) == (alias, base + "\\" + name)
    ensures ClassEntry(base, " " + name + " as " + alias) == (alias, base + "\\" + name)
  {
    var c := name + " as " + alias;
    TrimKeeps(c);
    TrimLeadingSpace(c);
    TrimKeeps(name);
    TrimKeeps(alias);
    SplitAsNames(name, alias);
    assert " " + name + " as " + alias == " " + c;
  }

  /** `use Base\{Name, Other as Alias};` maps `Name` to `Base\Name` and
      `Alias` to `Base\Other`. */
  lemma GroupedPair(base: string, name: string, other: string, alias: string)
    requires IsName(base) && base[0] != '\\' && base[|base| - 1] != '\\'
    requires IsName(name) && IsName(other) && IsName(alias)
    ensures PartEntries(base + "\\{" + name + ", " + other + " as " + alias + "}") ==
      [(name, base + "\\" + name), (alias, base + "\\" + other)]
  {
    var second := " " + other + " as " + alias;
    var inner := name + "," + second;
    assert base + "\\{" + name + ", " + other + " as " + alias + "}" == base + "\\{" + inner + "}";
    PairText(name, other, alias);
    GroupedImport(base, inner);
    SplitPair(name, second);
    GroupEntriesPair(base, name, second);
    PlainGroupName(base, name);
    AliasedGroupName(base, other, alias);
  }

  lemma PairText(name: string, other: string, alias: string)
    requires IsName(name) && IsName(other) && IsName(alias)
    ensures ',' !in " " + other + " as " + alias
    ensures '\n' !in name + "," + " " + other + " as " + alias
  {
    var second := " " + other + " as " + alias;
    assert forall j | 0 <= j < |second| :: second[j] == ' ' || IsNameChar(second[j]);
    var inner := name + "," + second;
    assert forall j | 0 <= j < |inner| :: inner[j] == ' ' || inner[j] == ',' || IsNameChar(inner[j]);
  }

  lemma SplitPair(name: string, second: string)
    requires IsName(name) && ',' !in second
    ensures Text.Split(name + "," + second, ',') == [name, second]
  {
    var inner := name + "," + second;
    assert inner[..|name|] == name;
    Text.IndexOfAt(inner, ',', |name|);
    assert inner[|name| + 1..] == second;
  }

  lemma GroupEntriesPair(base: string, a: string, b: string)
    ensures GroupEntries(base, [a, b]) == [ClassEntry(base, a), ClassEntry(base, b)]
  {
  }

  /** A file whose head is one `use` statement yields that statement's
      clause; the text from `class` on is not read. */
  lemma SingleUseBlocks(clause: string, rest: string)
    requires IsName(clause)
    requires forall j | 0 <= j :: !OccursAt("use " + clause + ";", "class", j)
    ensures Blocks("use " + clause + ";" + "class" + rest) == [clause]
  {
    var head := "use " + clause + ";";
    HeadStopsAtClass(head, rest);
    assert '\n' !in head;
    JoinWithoutNewline(head, 0);
    assert head[0..] == head;
    CollapseIdentity(head, 0);
    UseStatement(clause);
  }

  lemma NameIsOnePart(fqcn: string)
    requires IsName(fqcn)
    ensures SplitParts(fqcn, 0, 0) == [fqcn]
  {
    forall k | 0 <= k < |fqcn|
      ensures !SplitsAt(fqcn, k)
    {
      assert fqcn[k] != ',';
    }
    SplitPartsGroup(fqcn, 0, 0);
    assert fqcn[0..] == fqcn;
  }

  lemma OneBlockEntries(block: string)
    requires SplitParts(block, 0, 0) == [block]
    ensures AllEntries([block]) == PartEntries(block)
  {
    assert [block][..0] == [];
    assert BlockEntries([block]) == PartEntries(block);
  }

  /** A file whose head is one plain `use` statement imports exactly that
      name. */
  lemma SingleUseFile(fqcn: string, rest: string)
    requires IsName(fqcn)
    requires forall j | 0 <= j :: !OccursAt("use " + fqcn + ";", "class", j)
    ensures Imports("use " + fqcn + ";" + "class" + rest) == [(LastSegment(fqcn), fqcn)]
  {
    SingleUseBlocks(fqcn, rest);
    NameIsOnePart(fqcn);
    OneBlockEntries(fqcn);
    SimpleImport(fqcn);
    var e := (LastSegment(fqcn), fqcn);
    assert [e][1..] == [];
    assert Merge([], [e]) == Merge([e], []);
  }
}
