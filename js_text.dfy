/** The JavaScript string operations the gateway relies on, with the exact
    semantics the source uses: `Array.prototype.indexOf`/`includes`,
    `String.prototype.split` on a one-character separator, the
    `/^\/+|\/+$/g` trim, `String.prototype.replace` with a STRING pattern
    (first occurrence only), `startsWith`, and `path.join`. */
module JsText {
  import opened Common

  /** JavaScript truthiness of a possibly missing string: `""` is falsy. */
  predicate Truthy(s: Option<string>) {
    s.Some? && s.value != ""
  }

  /** `xs.indexOf(x)` / `xs.findIndex(e => e === x)`: the first position of `x`. */
  function IndexOf<T(==)>(xs: seq<T>, x: T): (r: Option<nat>)
    ensures r.None? <==> x !in xs
    ensures r.Some? ==> r.value < |xs| && xs[r.value] == x && x !in xs[..r.value]
  {
    if |xs| == 0 then None
    else if xs[0] == x then Some(0)
    else
      match IndexOf(xs[1..], x)
      case None => None
      case Some(i) =>
        assert xs[..i + 1] == [xs[0]] + xs[1..][..i];
        Some(i + 1)
  }

  /** The first position of `x` in `pre + [x] + post` is `|pre|` when `pre`
      does not hold `x`. */
  lemma IndexOfAfter<T>(pre: seq<T>, x: T, post: seq<T>)
    requires x !in pre
    ensures IndexOf(pre + [x] + post, x) == Some(|pre|)
  {
    var xs := pre + [x] + post;
    assert xs[|pre|] == x;
    assert xs[..|pre|] == pre;
  }

  // ---------------------------------------------------------------------
  // split / join on a one-character separator

  /** `parts.join(sep)`; JavaScript's `split` never returns an empty array. */
  function Join(parts: seq<string>, sep: char): (r: string)
    requires |parts| >= 1
    ensures parts[0] <= r
    ensures |parts| > 1 ==> sep in r
  {
    if |parts| == 1 then parts[0] else parts[0] + [sep] + Join(parts[1..], sep)
  }

  /** `s.split(sep)` for a one-character `sep`: the maximal separator-free
      pieces between separators, at least one (`"".split("/") == [""]`). */
  function Split(s: string, sep: char): (parts: seq<string>)
    ensures |parts| >= 1
    ensures forall i :: 0 <= i < |parts| ==> sep !in parts[i]
    ensures Join(parts, sep) == s
    ensures |parts| == 1 <==> sep !in s
    decreases |s|
  {
    match IndexOf(s, sep)
    case None => [s]
    case Some(i) =>
      var rest := Split(s[i + 1..], sep);
      assert ([s[..i]] + rest)[1..] == rest;
      assert s == s[..i] + [sep] + s[i + 1..];
      [s[..i]] + rest
  }

  /** Splitting undoes joining whenever no piece contains the separator. */
  lemma {:induction false} SplitJoin(parts: seq<string>, sep: char)
    requires |parts| >= 1
    requires forall i :: 0 <= i < |parts| ==> sep !in parts[i]
    ensures Split(Join(parts, sep), sep) == parts
  {
    if |parts| > 1 {
      var s := Join(parts, sep);
      var p := parts[0];
      var rest := parts[1..];
      assert s == p + [sep] + Join(rest, sep);
      assert s[|p|] == sep;
      assert s[..|p|] == p;
      assert IndexOf(s, sep) == Some(|p|);
      assert s[|p| + 1..] == Join(rest, sep);
      SplitJoin(rest, sep);
      assert Split(s, sep) == [p] + rest;
    }
  }

  /** The first piece of a split is everything before the first separator. */
  lemma SplitFirst(s: string, sep: char)
    ensures sep in s ==> Split(s, sep)[0] == s[..IndexOf(s, sep).value]
    ensures sep !in s ==> Split(s, sep) == [s]
  {
  }

  /** The second piece of a split, when there is one, is everything between
      the first separator and the next one (or the end). */
  lemma SplitSecond(s: string, sep: char)
    requires sep in s
    ensures var rest := s[IndexOf(s, sep).value + 1..];
            |Split(s, sep)| >= 2 &&
            Split(s, sep)[1] == if sep in rest then rest[..IndexOf(rest, sep).value] else rest
  {
    var rest := s[IndexOf(s, sep).value + 1..];
    assert Split(s, sep)[1] == Split(rest, sep)[0];
    SplitFirst(rest, sep);
  }

  // ---------------------------------------------------------------------
  // the `/^\/+|\/+$/g` trim

  /** Drops every leading `c`. */
  function TrimLeading(s: string, c: char): (t: string)
    ensures |t| <= |s| && t == s[|s| - |t|..]
    ensures forall i :: 0 <= i < |s| - |t| ==> s[i] == c
    ensures t == [] || t[0] != c
    decreases |s|
  {
    if |s| > 0 && s[0] == c then TrimLeading(s[1..], c) else s
  }

  /** Drops every trailing `c`. */
  function TrimTrailing(s: string, c: char): (t: string)
    ensures |t| <= |s| && t == s[..|t|]
    ensures forall i :: |t| <= i < |s| ==> s[i] == c
    ensures t == [] || t[|t| - 1] != c
    decreases |s|
  {
    if |s| > 0 && s[|s| - 1] == c then TrimTrailing(s[..|s| - 1], c) else s
  }

  /** `s.replace(/^\/+|\/+$/g, '')`: every leading and every trailing `/`
      removed; what remains neither starts nor ends with `/`, and a string
      with neither is kept as it is. */
  function TrimSlashes(s: string): (t: string)
    ensures t == [] || (t[0] != '/' && t[|t| - 1] != '/')
    ensures (s == [] || (s[0] != '/' && s[|s| - 1] != '/')) ==> t == s
    ensures |t| <= |s|
  {
    TrimTrailing(TrimLeading(s, '/'), '/')
  }

  /** Leading slashes do not change the trimmed string. */
  lemma {:induction false} TrimSlashesLeading(s: string)
    ensures TrimSlashes("/" + s) == TrimSlashes(s)
  {
    assert ("/" + s)[1..] == s;
  }

  /** Trimming twice is trimming once. */
  lemma TrimSlashesIdempotent(s: string)
    ensures TrimSlashes(TrimSlashes(s)) == TrimSlashes(s)
  {
  }

  // ---------------------------------------------------------------------
  // substring search and `replace` with a string pattern

  /** `pat` occurs in `s` at position `j`. */
  predicate OccursAt(s: string, pat: string, j: nat) {
    j + |pat| <= |s| && s[j..j + |pat|] == pat
  }

  /** `s.indexOf(pat)`: the first position where `pat` occurs. */
  function FindSub(s: string, pat: string): (r: Option<nat>)
    ensures r.Some? ==> OccursAt(s, pat, r.value)
    ensures r.Some? ==> forall j :: 0 <= j < r.value ==> !OccursAt(s, pat, j)
    ensures r.None? ==> forall j :: 0 <= j <= |s| ==> !OccursAt(s, pat, j)
    decreases |s|
  {
    if |pat| > |s| then None
    else if s[..|pat|] == pat then Some(0)
    else
      OccursShift(s, pat);
      match FindSub(s[1..], pat)
      case None => None
      case Some(i) => Some(i + 1)
  }

  /** Dropping the first character shifts every occurrence by one. */
  lemma OccursShift(s: string, pat: string)
    requires |s| > 0
    ensures forall j :: 1 <= j <= |s| ==> (OccursAt(s, pat, j) <==> OccursAt(s[1..], pat, j - 1))
  {
    forall j | 1 <= j <= |s|
      ensures OccursAt(s, pat, j) <==> OccursAt(s[1..], pat, j - 1)
    {
      if j + |pat| <= |s| {
        assert s[1..][j - 1..j - 1 + |pat|] == s[j..j + |pat|];
      }
    }
  }

  /** `s.replace(pat, rep)` with a string pattern: only the FIRST occurrence
      is replaced; without an occurrence `s` is returned unchanged. */
  function ReplaceFirst(s: string, pat: string, rep: string): (r: string)
    ensures FindSub(s, pat).None? ==> r == s
    ensures FindSub(s, pat).Some? ==> |r| == |s| - |pat| + |rep|
    ensures FindSub(s, pat).Some? ==>
              var i := FindSub(s, pat).value;
              r[..i] == s[..i] && r[i..] == rep + s[i + |pat|..]
  {
    match FindSub(s, pat)
    case None => s
    case Some(i) => s[..i] + rep + s[i + |pat|..]
  }

  /** A pattern that starts the string is the one replaced. */
  lemma ReplaceFirstAtStart(pat: string, x: string, rep: string)
    ensures ReplaceFirst(pat + x, pat, rep) == rep + x
  {
    assert OccursAt(pat + x, pat, 0);
    assert (pat + x)[|pat|..] == x;
  }

  /** A string without the pattern is left alone. */
  lemma ReplaceFirstAbsent(s: string, pat: string, rep: string)
    requires forall j :: 0 <= j <= |s| ==> !OccursAt(s, pat, j)
    ensures ReplaceFirst(s, pat, rep) == s
  {
  }

  /** `s.startsWith(prefix)`. */
  predicate StartsWith(s: string, prefix: string)
    ensures StartsWith(s, prefix) ==> |prefix| <= |s| && s == prefix + s[|prefix|..]
  {
    |prefix| <= |s| && s[..|prefix|] == prefix
  }

  // ---------------------------------------------------------------------
  // case and paths

  /** `toLowerCase()` restricted to ASCII letters. */
  function LowerChar(c: char): (d: char)
    ensures 'A' <= c <= 'Z' ==> 'a' <= d <= 'z' && d as int == c as int + 32
    ensures !('A' <= c <= 'Z') ==> d == c
  {
    if 'A' <= c <= 'Z' then (c as int - 'A' as int + 'a' as int) as char else c
  }

  /** `s.toLowerCase()` on ASCII: every letter lowered, nothing else moved. */
  function ToLowerAscii(s: string): (r: string)
    ensures |r| == |s|
    ensures forall i :: 0 <= i < |s| ==> r[i] == LowerChar(s[i])
    ensures forall i :: 0 <= i < |r| ==> !('A' <= r[i] <= 'Z')
  {
    seq(|s|, i requires 0 <= i < |s| => LowerChar(s[i]))
  }

  /** The non-empty strings of `segs`, in order. */
  function NonEmpty(segs: seq<string>): (r: seq<string>)
    ensures |r| <= |segs|
    ensures forall i :: 0 <= i < |r| ==> r[i] != ""
  {
    if segs == [] then []
    else if segs[0] == "" then NonEmpty(segs[1..])
    else [segs[0]] + NonEmpty(segs[1..])
  }

  /** Dropping empty segments works piecewise, so every non-empty segment
      is kept, in order. */
  lemma {:induction false} NonEmptyAppend(a: seq<string>, b: seq<string>)
    ensures NonEmpty(a + b) == NonEmpty(a) + NonEmpty(b)
    decreases |a|
  {
    if a != [] {
      assert (a + b)[1..] == a[1..] + b;
      NonEmptyAppend(a[1..], b);
    } else {
      assert a + b == b;
    }
  }

  /** One segment is kept exactly when it is not empty. */
  lemma NonEmptyOne(x: string)
    ensures NonEmpty([x]) == if x == "" then [] else [x]
  {
    assert [x][1..] == [];
  }

  /** Node's `path.join(...segs)` without normalisation: the non-empty
      segments joined with `/`, or `.` when there are none. */
  function PathJoin(segs: seq<string>): (p: string)
    ensures p != ""
  {
    var ne := NonEmpty(segs);
    if ne == [] then "." else Join(ne, '/')
  }

  /** Joining two non-empty segments puts one `/` between them. */
  lemma PathJoin2(a: string, b: string)
    requires a != "" && b != ""
    ensures PathJoin([a, b]) == a + "/" + b
  {
    assert NonEmpty([b]) == [b] by { assert [b][1..] == []; }
    assert NonEmpty([a, b]) == [a] + NonEmpty([b]) by { assert [a, b][1..] == [b]; }
    assert Join([a, b], '/') == a + "/" + Join([b], '/') by { assert [a, b][1..] == [b]; }
  }

  /** Joining three non-empty segments puts one `/` between neighbours. */
  lemma PathJoin3(a: string, b: string, c: string)
    requires a != "" && b != "" && c != ""
    ensures PathJoin([a, b, c]) == a + "/" + b + "/" + c
  {
    assert NonEmpty([c]) == [c] by { assert [c][1..] == []; }
    assert NonEmpty([b, c]) == [b] + NonEmpty([c]) by { assert [b, c][1..] == [c]; }
    assert NonEmpty([a, b, c]) == [a] + NonEmpty([b, c]) by { assert [a, b, c][1..] == [b, c]; }
    assert NonEmpty([a, b, c]) == [a, b, c];
    assert Join([b, c], '/') == b + "/" + Join([c], '/') by { assert [b, c][1..] == [c]; }
    assert Join([a, b, c], '/') == a + "/" + Join([b, c], '/') by { assert [a, b, c][1..] == [b, c]; }
    assert a + "/" + (b + "/" + c) == a + "/" + b + "/" + c;
  }
}
