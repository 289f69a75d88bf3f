/** Python's string operations that the modelled code relies on, over
    `string` (a sequence of code points): `str.isspace`, `strip`, `find`,
    `rfind`, `in`, `split(sep)`, `split()`, `sep.join`, `startswith`,
    `endswith`, and the `posixpath` functions `basename`, `splitext` and
    `join`. Each is stated by what it means, and the facts the rest of the
    model needs (split/join round trips, strip idempotence) are proved here. */
module Strings {

  /** Python's `str.isspace` for one code point; the regular expression
      class `\s` of a `str` pattern matches the same code points. */
  predicate IsSpace(c: char)
  {
    || ('\t' <= c <= '\r')
    || ('\U{1c}' <= c <= '\U{1f}')
    || c == ' ' || c == '\U{85}' || c == '\U{a0}' || c == '\U{1680}'
    || ('\U{2000}' <= c <= '\U{200a}')
    || c == '\U{2028}' || c == '\U{2029}' || c == '\U{202f}' || c == '\U{205f}' || c == '\U{3000}'
  }

  predicate NoSpace(s: string)
  {
    forall i :: 0 <= i < |s| ==> !IsSpace(s[i])
  }

  // ---------------------------------------------------------------- strip

  /** `s.lstrip()`: the longest suffix of `s` that does not start with white space. */
  function LStrip(s: string): (r: string)
    ensures |r| <= |s| && r == s[|s| - |r|..]
    ensures r != [] ==> !IsSpace(r[0])
    ensures forall i :: 0 <= i < |s| - |r| ==> IsSpace(s[i])
  {
    if s != [] && IsSpace(s[0]) then LStrip(s[1..]) else s
  }

  /** `s.rstrip()`: the longest prefix of `s` that does not end with white space. */
  function RStrip(s: string): (r: string)
    ensures |r| <= |s| && r == s[..|r|]
    ensures r != [] ==> !IsSpace(r[|r| - 1])
    ensures forall i :: |r| <= i < |s| ==> IsSpace(s[i])
  {
    if s != [] && IsSpace(s[|s| - 1]) then RStrip(s[..|s| - 1]) else s
  }

  /** `s.strip()`: drops white space at both ends. */
  function Strip(s: string): (r: string)
    ensures |r| <= |s|
    ensures r != [] ==> !IsSpace(r[0]) && !IsSpace(r[|r| - 1])
  {
    RStrip(LStrip(s))
  }

  /** The stripped string occurs in the original, after the leading spaces. */
  lemma StripOccurs(s: string)
    ensures OccursAt(s, Strip(s), |s| - |LStrip(s)|)
  {
    var l := LStrip(s);
    var r := RStrip(l);
    assert s[|s| - |l|..|s| - |l| + |r|] == l[..|r|];
  }

  /** A string that starts and ends with a non-space code point is its own strip. */
  lemma {:induction false} StripNoOp(s: string)
    requires s == [] || (!IsSpace(s[0]) && !IsSpace(s[|s| - 1]))
    ensures Strip(s) == s
  {
  }

  lemma StripIdempotent(s: string)
    ensures Strip(Strip(s)) == Strip(s)
  {
    StripNoOp(Strip(s));
  }

  // ---------------------------------------------------------------- search

  predicate OccursAt(s: string, t: string, j: int)
  {
    0 <= j && j + |t| <= |s| && s[j..j + |t|] == t
  }

  /** The first occurrence of `t` in `s` at or after position `k`, or -1. */
  function IndexFrom(s: string, t: string, k: nat): (i: int)
    requires k <= |s|
    ensures i == -1 || (k <= i && OccursAt(s, t, i))
    ensures i == -1 ==> forall j :: k <= j && OccursAt(s, t, j) ==> false
    ensures i != -1 ==> forall j :: k <= j < i ==> !OccursAt(s, t, j)
    decreases |s| - k
  {
    if k + |t| > |s| then -1
    else if s[k..k + |t|] == t then k
    else IndexFrom(s, t, k + 1)
  }

  /** `s.find(t)`. */
  function IndexOf(s: string, t: string): (i: int)
    ensures i == -1 || OccursAt(s, t, i)
    ensures i == -1 <==> forall j :: !OccursAt(s, t, j)
    ensures i != -1 ==> forall j :: 0 <= j < i ==> !OccursAt(s, t, j)
  {
    IndexFrom(s, t, 0)
  }

  /** `t in s`. */
  predicate Contains(s: string, t: string)
  {
    IndexOf(s, t) != -1
  }

  /** `s.find(c)` for a single code point. */
  function FindChar(s: string, c: char): (i: int)
    ensures -1 <= i < |s|
    ensures i == -1 <==> c !in s
    ensures i != -1 ==> s[i] == c && c !in s[..i]
  {
    if s == [] then -1
    else if s[0] == c then 0
    else var j := FindChar(s[1..], c);
      assert s[1..][..if j == -1 then 0 else j] == s[1..1 + (if j == -1 then 0 else j)];
      if j == -1 then -1 else j + 1
  }

  /** `s.rfind(c)` for a single code point. */
  function RFindChar(s: string, c: char): (i: int)
    ensures -1 <= i < |s|
    ensures i == -1 <==> c !in s
    ensures i != -1 ==> s[i] == c && c !in s[i + 1..]
  {
    if s == [] then -1
    else if s[|s| - 1] == c then |s| - 1
    else
      var j := RFindChar(s[..|s| - 1], c);
      assert j != -1 ==> s[j + 1..] == s[..|s| - 1][j + 1..] + [s[|s| - 1]];
      assert j == -1 ==> s == s[..|s| - 1] + [s[|s| - 1]];
      j
  }

  predicate StartsWith(s: string, p: string)
  {
    |p| <= |s| && s[..|p|] == p
  }

  predicate EndsWith(s: string, p: string)
  {
    |p| <= |s| && s[|s| - |p|..] == p
  }

  // ---------------------------------------------------------------- split and join

  /** `s.split(sep)` for a non-empty separator: the pieces between the
      non-overlapping occurrences of `sep`, scanned left to right. */
  function Split(s: string, sep: string): (parts: seq<string>)
    requires sep != []
    ensures |parts| >= 1
    decreases |s|
  {
    var i := IndexOf(s, sep);
    if i == -1 then [s] else [s[..i]] + Split(s[i + |sep|..], sep)
  }

  /** `sep.join(parts)`. */
  function Join(sep: string, parts: seq<string>): string
    decreases |parts|
  {
    if parts == [] then ""
    else if |parts| == 1 then parts[0]
    else parts[0] + sep + Join(sep, parts[1..])
  }

  /** The first piece of a split is the text before the first occurrence of
      the separator, and a second piece exists exactly when the separator does. */
  lemma SplitHead(s: string, sep: string)
    requires sep != []
    ensures Contains(s, sep) <==> |Split(s, sep)| >= 2
    ensures Contains(s, sep) ==> Split(s, sep)[0] == s[..IndexOf(s, sep)]
    ensures !Contains(s, sep) ==> Split(s, sep) == [s]
  {
  }

  /** The text before the first occurrence of `sep`, or all of `s`. */
  function Before(s: string, sep: string): (r: string)
    ensures Contains(s, sep) ==> r == s[..IndexOf(s, sep)]
    ensures sep != [] ==> !Contains(r, sep)
    ensures !Contains(s, sep) ==> r == s
  {
    if Contains(s, sep) then
      var i := IndexOf(s, sep);
      assert forall j :: OccursAt(s[..i], sep, j) ==> OccursAt(s, sep, j) by {
        forall j | OccursAt(s[..i], sep, j) ensures OccursAt(s, sep, j) {
          assert s[..i][j..j + |sep|] == s[j..j + |sep|];
        }
      }
      assert sep != [] ==> forall j :: !OccursAt(s[..i], sep, j);
      s[..i]
    else s
  }

  /** The text after the first occurrence of `sep`. */
  function After(s: string, sep: string): (r: string)
    requires Contains(s, sep)
    ensures r == s[IndexOf(s, sep) + |sep|..]
  {
    s[IndexOf(s, sep) + |sep|..]
  }

  /** The first two pieces of a split: the text before the first separator,
      and the text between the first and the second separator (or the end). */
  lemma SplitPieces(s: string, sep: string)
    requires sep != []
    ensures Split(s, sep)[0] == Before(s, sep)
    ensures Contains(s, sep) ==> |Split(s, sep)| >= 2 && Split(s, sep)[1] == Before(After(s, sep), sep)
  {
    SplitHead(s, sep);
    if Contains(s, sep) {
      SplitHead(After(s, sep), sep);
    }
  }

  /** `s.replace(pat, repl)` for a non-empty `pat`: every non-overlapping
      occurrence, left to right, replaced. */
  function Replace(s: string, pat: string, repl: string): string
    requires pat != []
  {
    Join(repl, Split(s, pat))
  }

  /** A text without the placeholder is left alone, and replacing a
      placeholder repl itself changes nothing. */
  lemma ReplaceFacts(s: string, pat: string, repl: string)
    requires pat != []
    ensures !Contains(s, pat) ==> Replace(s, pat, repl) == s
    ensures Replace(s, pat, pat) == s
  {
    SplitHead(s, pat);
    JoinSplit(s, pat);
  }

  /** Joining the pieces of a split with the same separator gives back the string. */
  lemma {:induction false} JoinSplit(s: string, sep: string)
    requires sep != []
    ensures Join(sep, Split(s, sep)) == s
    decreases |s|
  {
    var i := IndexOf(s, sep);
    if i != -1 {
      var rest := s[i + |sep|..];
      var parts := Split(rest, sep);
      JoinSplit(rest, sep);
      assert Split(s, sep) == [s[..i]] + parts;
      JoinCons(sep, s[..i], parts);
      assert s == s[..i] + s[i..i + |sep|] + rest;
    }
  }

  lemma JoinCons(sep: string, a: string, parts: seq<string>)
    requires parts != []
    ensures Join(sep, [a] + parts) == a + sep + Join(sep, parts)
  {
    assert ([a] + parts)[1..] == parts;
  }

  /** No piece of a split contains the separator. */
  lemma {:induction false} SplitPiecesFree(s: string, sep: string)
    requires sep != []
    ensures forall k :: 0 <= k < |Split(s, sep)| ==> !Contains(Split(s, sep)[k], sep)
    decreases |s|
  {
    var i := IndexOf(s, sep);
    if i != -1 {
      var rest := s[i + |sep|..];
      SplitPiecesFree(rest, sep);
      forall j | OccursAt(s[..i], sep, j) ensures false {
        assert s[..i][j..j + |sep|] == s[j..j + |sep|];
        assert OccursAt(s, sep, j);
      }
    }
  }

  // ---------------------------------------------------------------- split()

  /** The length of the leading run of non-space code points. */
  function WordLength(s: string): (n: nat)
    ensures n <= |s|
    ensures NoSpace(s[..n])
    ensures n < |s| ==> IsSpace(s[n])
  {
    if s == [] || IsSpace(s[0]) then 0
    else
      var m := WordLength(s[1..]);
      assert s[..m + 1] == [s[0]] + s[1..][..m];
      m + 1
  }

  /** `s.split()`: the maximal runs of non-space code points, in order. */
  function Words(s: string): (ws: seq<string>)
    ensures forall k :: 0 <= k < |ws| ==> ws[k] != [] && NoSpace(ws[k])
    decreases |s|
  {
    var t := LStrip(s);
    if t == [] then []
    else
      var n := WordLength(t);
      [t[..n]] + Words(t[n..])
  }

  predicate IsWord(w: string)
  {
    w != [] && NoSpace(w)
  }

  lemma WordLengthOfWord(w: string, rest: string)
    requires NoSpace(w)
    requires rest == [] || IsSpace(rest[0])
    ensures WordLength(w + rest) == |w|
    decreases |w|
  {
    if w != [] {
      assert (w + rest)[1..] == w[1..] + rest;
      WordLengthOfWord(w[1..], rest);
    }
  }

  /** A word followed by white space or nothing is the first word. */
  lemma WordsCons(w: string, rest: string)
    requires IsWord(w)
    requires rest == [] || IsSpace(rest[0])
    ensures Words(w + rest) == [w] + Words(rest)
  {
    var s := w + rest;
    WordLengthOfWord(w, rest);
    assert LStrip(s) == s;
    assert s[..|w|] == w && s[|w|..] == rest;
    if rest == [] {
      assert Words(rest) == [];
    } else {
      assert LStrip(rest) == LStrip(rest[1..]);
    }
  }

  lemma WordsSpace(t: string)
    ensures Words(" " + t) == Words(t)
  {
    assert (" " + t)[1..] == t;
    assert LStrip(" " + t) == LStrip(t);
  }

  /** Splitting a space-joined list of words gives back the words. */
  lemma {:induction false} WordsJoin(ws: seq<string>)
    requires forall k :: 0 <= k < |ws| ==> IsWord(ws[k])
    ensures Words(Join(" ", ws)) == ws
    decreases |ws|
  {
    if ws == [] {
    } else if |ws| == 1 {
      WordsCons(ws[0], "");
      assert ws[0] + "" == ws[0];
    } else {
      var tail := ws[1..];
      assert ws == [ws[0]] + tail;
      assert forall k :: 0 <= k < |tail| ==> IsWord(tail[k]) by {
        forall k | 0 <= k < |tail| ensures IsWord(tail[k]) { assert tail[k] == ws[k + 1]; }
      }
      var rest := Join(" ", tail);
      assert Join(" ", ws) == ws[0] + " " + rest;
      assert ws[0] + " " + rest == ws[0] + (" " + rest);
      WordsCons(ws[0], " " + rest);
      WordsSpace(rest);
      WordsJoin(tail);
    }
  }

  // ---------------------------------------------------------------- posix paths

  /** `os.path.basename(p)`: the text after the last '/'. */
  function Basename(p: string): (b: string)
    ensures '/' !in b
    ensures EndsWith(p, b)
  {
    var i := RFindChar(p, '/');
    p[i + 1..]
  }

  /** Whether some code point of `p[from..to]` is not a '.'. */
  predicate HasNonDot(p: string, from: int, to: int)
    requires 0 <= from <= to <= |p|
  {
    exists k :: from <= k < to && p[k] != '.'
  }

  /** `os.path.splitext(p)`: splits off the text from the last '.' of the last
      path component, unless that dot is only preceded by dots in the component. */
  function SplitExt(p: string): (r: (string, string))
    ensures r.0 + r.1 == p
    ensures r.1 == [] || r.1[0] == '.'
  {
    var sepIndex := RFindChar(p, '/');
    var dotIndex := RFindChar(p, '.');
    if dotIndex > sepIndex && HasNonDot(p, sepIndex + 1, dotIndex) then
      (p[..dotIndex], p[dotIndex..])
    else (p, "")
  }

  /** `os.path.join(a, b)` for two components. */
  function PathJoin(a: string, b: string): (r: string)
    ensures EndsWith(r, b)
  {
    if StartsWith(b, "/") then b
    else if a == [] || EndsWith(a, "/") then a + b
    else a + "/" + b
  }

  /** The extension of a name ending in ".<letters>" with no dot or slash in the
      letters, and a non-dot before that, is exactly that suffix. */
  lemma {:induction false} SplitExtOfSuffix(stem: string, ext: string)
    requires |ext| >= 1 && ext[0] == '.' && '.' !in ext[1..] && '/' !in ext
    requires '/' !in stem && stem != [] && stem[|stem| - 1] != '.'
    ensures SplitExt(stem + ext) == (stem, ext)
  {
    var p := stem + ext;
    var d := |stem|;
    assert p[d] == '.';
    assert p[d + 1..] == ext[1..];
    assert RFindChar(p, '.') == d;
    assert '/' !in p by {
      forall k | 0 <= k < |p| ensures p[k] != '/' {
        if k < d { assert p[k] == stem[k]; } else { assert p[k] == ext[k - d]; }
      }
    }
    assert RFindChar(p, '/') == -1;
    assert p[d - 1] != '.';
    assert HasNonDot(p, 0, d);
    assert p[..d] == stem && p[d..] == ext;
  }
}
