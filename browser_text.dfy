/** The string logic of `BrowserTool._run` (src/tools/browser_tool.py):
    the URL search `re.search(r'https?://[^\s<>"]+|www\.[^\s<>"]+', ...)`,
    the whitespace clean-up of the page text, and the 500-character preview.
    Characters are Unicode code points, as in Python's `str`. */
module BrowserText {
  import opened Wrappers

  /** `str.isspace()`, which is also what `\s` matches in a `str` pattern
      and what `str.strip()` removes. */
  predicate IsSpace(c: char) {
    ('\t' <= c <= '\r') || ('\U{1C}' <= c <= ' ') || c == '\U{85}' || c == '\U{A0}' ||
    c == '\U{1680}' || ('\U{2000}' <= c <= '\U{200A}') || c == '\U{2028}' || c == '\U{2029}' ||
    c == '\U{202F}' || c == '\U{205F}' || c == '\U{3000}'
  }

  /** The line boundaries of `str.splitlines()` (`\r\n` counts as one). */
  predicate IsLineBoundary(c: char) {
    c == '\n' || c == '\r' || c == '\U{0B}' || c == '\U{0C}' || ('\U{1C}' <= c <= '\U{1E}') ||
    c == '\U{85}' || c == '\U{2028}' || c == '\U{2029}'
  }

  // ---------------------------------------------------------------------
  // The URL pattern

  /** `[^\s<>"]`. */
  predicate IsUrlChar(c: char) {
    !IsSpace(c) && c != '<' && c != '>' && c != '"'
  }

  predicate StartsAt(s: string, i: nat, p: string) {
    i + |p| <= |s| && s[i..i + |p|] == p
  }

  /** `s[i..j]` is `p` followed by a maximal non-empty run of `[^\s<>"]`. */
  predicate PrefixedRun(s: string, i: nat, j: nat, p: string) {
    StartsAt(s, i, p) && i + |p| < j <= |s| &&
    (forall k :: i + |p| <= k < j ==> IsUrlChar(s[k])) &&
    (j == |s| || !IsUrlChar(s[j]))
  }

  /** The greedy match of the pattern that starts at `i` is `s[i..j]`:
      `https?://` or `www\.`, then as many allowed characters as there are
      (at least one). */
  predicate UrlMatch(s: string, i: nat, j: nat) {
    PrefixedRun(s, i, j, "http://") || PrefixedRun(s, i, j, "https://") || PrefixedRun(s, i, j, "www.")
  }

  /** Length of the literal part of the pattern found at `i`, 0 if none. */
  function PrefixAt(s: string, i: nat): (n: nat)
    ensures n == 0 || n == 4 || n == 7 || n == 8
    ensures n > 0 ==> i + n <= |s| && forall k :: i <= k < i + n ==> IsUrlChar(s[k])
  {
    assert StartsAt(s, i, "https://") ==> forall k :: i <= k < i + 8 ==> s[k] == "https://"[k - i];
    assert StartsAt(s, i, "http://") ==> forall k :: i <= k < i + 7 ==> s[k] == "http://"[k - i];
    assert StartsAt(s, i, "www.") ==> forall k :: i <= k < i + 4 ==> s[k] == "www."[k - i];
    if StartsAt(s, i, "https://") then 8
    else if StartsAt(s, i, "http://") then 7
    else if StartsAt(s, i, "www.") then 4
    else 0
  }

  /** End of the run of allowed characters that starts at `k`. */
  function RunEnd(s: string, k: nat): (j: nat)
    requires k <= |s|
    ensures k <= j <= |s|
    ensures forall m :: k <= m < j ==> IsUrlChar(s[m])
    ensures j == |s| || !IsUrlChar(s[j])
    decreases |s| - k
  {
    if k == |s| || !IsUrlChar(s[k]) then k else RunEnd(s, k + 1)
  }

  /** End of the pattern's match starting at `i`, if there is one. */
  function MatchAt(s: string, i: nat): (r: Option<nat>)
    ensures r.Some? ==> i + 4 < r.value <= |s| && forall k :: i <= k < r.value ==> IsUrlChar(s[k])
  {
    var p := PrefixAt(s, i);
    if p > 0 && i + p < |s| && IsUrlChar(s[i + p]) then Some(RunEnd(s, i + p)) else None
  }

  lemma MatchAtIsUrlMatch(s: string, i: nat, j: nat)
    ensures MatchAt(s, i) == Some(j) <==> UrlMatch(s, i, j)
  {
    var p := PrefixAt(s, i);
    if UrlMatch(s, i, j) {
      // the literal found at i is the one the match used
      if PrefixedRun(s, i, j, "http://") {
        assert s[i + 4] == ':' by { assert s[i..i + 7][4] == ':'; }
        assert i + 8 > |s| || s[i..i + 8][4] == ':';
        assert p == 7;
      } else if PrefixedRun(s, i, j, "https://") {
        assert p == 8;
      } else {
        assert s[i] == 'w' by { assert s[i..i + 4][0] == 'w'; }
        assert i + 8 > |s| || s[i..i + 8][0] == 'w';
        assert i + 7 > |s| || s[i..i + 7][0] == 'w';
        assert p == 4;
      }
      RunEndIsMaximal(s, i + p, j);
    }
  }

  /** A maximal run from `k` ends where `RunEnd` says. */
  lemma {:induction false} RunEndIsMaximal(s: string, k: nat, j: nat)
    requires k <= j <= |s|
    requires forall m :: k <= m < j ==> IsUrlChar(s[m])
    requires j == |s| || !IsUrlChar(s[j])
    ensures RunEnd(s, k) == j
    decreases |s| - k
  {
    if k < j {
      RunEndIsMaximal(s, k + 1, j);
    }
  }

  /** `re.search`: try the pattern at each position from `i` on, and take
      the first position where it matches. */
  function SearchFrom(s: string, i: nat): (r: Option<(nat, nat)>)
    ensures r.Some? ==> i <= r.value.0 && MatchAt(s, r.value.0) == Some(r.value.1)
    ensures r.Some? ==> forall k :: i <= k < r.value.0 ==> MatchAt(s, k) == None
    ensures r.None? ==> forall k :: i <= k ==> MatchAt(s, k) == None
    decreases |s| - i
  {
    if i >= |s| then None
    else match MatchAt(s, i)
      case Some(j) => Some((i, j))
      case None => SearchFrom(s, i + 1)
  }

  /** The span of the leftmost match, its greedy end. */
  function FindUrlSpan(s: string): Option<(nat, nat)> {
    SearchFrom(s, 0)
  }

  /** `url_match.group()` when there is a match. */
  function FindUrl(s: string): (r: Option<string>)
    ensures r.Some? ==> |r.value| > 4 && forall k :: 0 <= k < |r.value| ==> IsUrlChar(r.value[k])
    ensures r.Some? ==>
      r.value[..4] == "www." || (|r.value| > 7 && r.value[..7] == "http://") ||
      (|r.value| > 8 && r.value[..8] == "https://")
  {
    match FindUrlSpan(s)
    case None => None
    case Some((i, j)) =>
      MatchedUrl(s, i, j);
      Some(s[i..j])
  }

  /** The text a match spans starts with one of the literals and holds
      allowed characters only. */
  lemma MatchedUrl(s: string, i: nat, j: nat)
    requires MatchAt(s, i) == Some(j)
    ensures i + 4 < j <= |s|
    ensures forall k :: 0 <= k < j - i ==> IsUrlChar(s[i..j][k])
    ensures s[i..j][..4] == "www." || (j - i > 7 && s[i..j][..7] == "http://") ||
      (j - i > 8 && s[i..j][..8] == "https://")
  {
    MatchAtIsUrlMatch(s, i, j);
    var p := PrefixAt(s, i);
    assert forall k :: 0 <= k < j - i ==> s[i..j][k] == s[i + k];
    if PrefixedRun(s, i, j, "https://") {
      assert s[i..j][..8] == s[i..i + 8];
    } else if PrefixedRun(s, i, j, "http://") {
      assert s[i..j][..7] == s[i..i + 7];
    } else {
      assert s[i..j][..4] == s[i..i + 4];
    }
  }

  /** What `FindUrl` returns is the leftmost greedy match of the pattern,
      and there is none exactly when `FindUrl` gives `None`. */
  lemma FindUrlIsLeftmostMatch(s: string)
    ensures FindUrl(s).None? <==> forall i: nat, j: nat :: !UrlMatch(s, i, j)
    ensures FindUrl(s).Some? ==>
      exists i: nat, j: nat :: UrlMatch(s, i, j) && j <= |s| && FindUrl(s).value == s[i..j] &&
        forall i': nat, j': nat :: i' < i ==> !UrlMatch(s, i', j')
  {
    match FindUrlSpan(s)
    case None =>
      forall i: nat, j: nat ensures !UrlMatch(s, i, j) { MatchAtIsUrlMatch(s, i, j); }
    case Some((i, j)) =>
      MatchAtIsUrlMatch(s, i, j);
      forall i': nat, j': nat | i' < i ensures !UrlMatch(s, i', j') { MatchAtIsUrlMatch(s, i', j'); }
  }

  // ---------------------------------------------------------------------
  // The clean-up of lines 62-64

  /** `str.lstrip()`: a suffix of its argument that does not start with
      whitespace (`StripLeftCutsSpace`: what it cuts off is whitespace). */
  function StripLeft(s: string): (r: string)
    ensures |r| <= |s| && r == s[|s| - |r|..]
    ensures r != [] ==> !IsSpace(r[0])
    ensures r == s <==> (s == [] || !IsSpace(s[0]))
  {
    if s != [] && IsSpace(s[0]) then StripLeft(s[1..]) else s
  }

  /** `str.rstrip()`: a prefix of its argument that does not end with
      whitespace (`StripRightCutsSpace`: what it cuts off is whitespace). */
  function StripRight(s: string): (r: string)
    ensures |r| <= |s| && r == s[..|r|]
    ensures r != [] ==> !IsSpace(r[|r| - 1])
    ensures r == s <==> (s == [] || !IsSpace(s[|s| - 1]))
  {
    if s != [] && IsSpace(s[|s| - 1]) then StripRight(s[..|s| - 1]) else s
  }

  /** `str.strip()`: a slice of its argument, trimmed at both ends. */
  function Strip(s: string): (r: string)
    ensures var a := |s| - |StripLeft(s)|; a + |r| <= |s| && r == s[a..a + |r|]
    ensures Trimmed(r)
  {
    var l := StripLeft(s);
    var r := StripRight(l);
    TrimmedSlice(s, l, r);
    r
  }

  /** A prefix without trailing whitespace of a suffix without leading
      whitespace is a trimmed slice. */
  lemma TrimmedSlice(s: string, l: string, r: string)
    requires |l| <= |s| && l == s[|s| - |l|..] && (l != [] ==> !IsSpace(l[0]))
    requires |r| <= |l| && r == l[..|r|] && (r != [] ==> !IsSpace(r[|r| - 1]))
    ensures r == s[|s| - |l|..|s| - |l| + |r|] && Trimmed(r)
  {
    if r != [] {
      assert r[0] == l[0];
    }
  }

  /** What `str.lstrip()` cuts off is whitespace. */
  lemma {:induction false} StripLeftCutsSpace(s: string)
    ensures forall k :: 0 <= k < |s| - |StripLeft(s)| ==> IsSpace(s[k])
  {
    if s != [] && IsSpace(s[0]) {
      StripLeftCutsSpace(s[1..]);
      forall k | 1 <= k < |s| - |StripLeft(s)| ensures IsSpace(s[k]) {
        assert s[k] == s[1..][k - 1];
      }
    }
  }

  /** What `str.rstrip()` cuts off is whitespace. */
  lemma {:induction false} StripRightCutsSpace(s: string)
    ensures forall k :: |StripRight(s)| <= k < |s| ==> IsSpace(s[k])
  {
    if s != [] && IsSpace(s[|s| - 1]) {
      StripRightCutsSpace(s[..|s| - 1]);
      forall k | |StripRight(s)| <= k < |s| - 1 ensures IsSpace(s[k]) {
        assert s[k] == s[..|s| - 1][k];
      }
    }
  }

  /** What `str.strip()` cuts off either end is whitespace. */
  lemma StripCutsOnlySpace(s: string)
    ensures var a := |s| - |StripLeft(s)|;
      (forall k :: 0 <= k < a ==> IsSpace(s[k])) && (forall k :: a + |Strip(s)| <= k < |s| ==> IsSpace(s[k]))
  {
    var l := StripLeft(s);
    var a := |s| - |l|;
    StripLeftCutsSpace(s);
    StripRightCutsSpace(l);
    forall k | a + |Strip(s)| <= k < |s| ensures IsSpace(s[k]) {
      assert s[k] == l[k - a];
    }
  }

  /** Stripping keeps the absence of line breaks and of double spaces. */
  lemma StripKeepsClean(s: string)
    ensures NoLineBreak(s) ==> NoLineBreak(Strip(s))
    ensures NoDoubleSpace(s) ==> NoDoubleSpace(Strip(s))
  {
    var a := |s| - |StripLeft(s)|;
    SliceKeepsClean(s, a, a + |Strip(s)|);
  }

  predicate Trimmed(s: string) {
    s == [] || (!IsSpace(s[0]) && !IsSpace(s[|s| - 1]))
  }

  predicate NoLineBreak(s: string) {
    forall k :: 0 <= k < |s| ==> !IsLineBoundary(s[k])
  }

  predicate NoDoubleSpace(s: string) {
    forall k :: 0 <= k < |s| - 1 ==> !(s[k] == ' ' && s[k + 1] == ' ')
  }

  /** What the clean-up promises of its output. */
  predicate IsClean(s: string) {
    NoLineBreak(s) && NoDoubleSpace(s) && Trimmed(s)
  }

  /** Position of the first line boundary, `|s|` if there is none. */
  function LineEnd(s: string): (i: nat)
    ensures i <= |s|
    ensures forall k :: 0 <= k < i ==> !IsLineBoundary(s[k])
    ensures i < |s| ==> IsLineBoundary(s[i])
  {
    if s == [] || IsLineBoundary(s[0]) then 0 else 1 + LineEnd(s[1..])
  }

  /** `str.splitlines()`: the text between line boundaries; no empty last
      line after a final boundary. */
  function SplitLines(s: string): (lines: seq<string>)
    ensures forall l :: l in lines ==> NoLineBreak(l)
    decreases |s|
  {
    if s == [] then []
    else
      var i := LineEnd(s);
      if i == |s| then [s]
      else
        var next := if s[i] == '\r' && i + 1 < |s| && s[i + 1] == '\n' then i + 2 else i + 1;
        [s[..i]] + SplitLines(s[next..])
  }

  /** Position of the first `"  "`, `|s|` if there is none. */
  function DoubleSpaceAt(s: string): (i: nat)
    ensures i <= |s|
    ensures i < |s| ==> i + 1 < |s| && s[i] == ' ' && s[i + 1] == ' '
    ensures forall k :: 0 <= k < i && k + 1 < |s| ==> !(s[k] == ' ' && s[k + 1] == ' ')
  {
    if |s| < 2 then |s|
    else if s[0] == ' ' && s[1] == ' ' then 0
    else 1 + DoubleSpaceAt(s[1..])
  }

  /** `str.split("  ")`: the pieces between non-overlapping occurrences of
      two spaces, found from the left. Joined back with two spaces they
      give `s`; no piece holds two spaces in a row, and a piece keeps every
      property of `s` that slices keep. */
  function SplitDoubleSpace(s: string): (pieces: seq<string>)
    ensures |pieces| >= 1
    ensures JoinWith(pieces, "  ") == s
    ensures forall p :: p in pieces ==> NoDoubleSpace(p)
    ensures NoLineBreak(s) ==> forall p :: p in pieces ==> NoLineBreak(p)
    decreases |s|
  {
    var i := DoubleSpaceAt(s);
    if i == |s| then [s]
    else
      var rest := SplitDoubleSpace(s[i + 2..]);
      assert s == s[..i] + "  " + s[i + 2..];
      assert ([s[..i]] + rest)[1..] == rest;
      [s[..i]] + rest
  }

  /** `phrase.strip()` of every phrase. */
  function StripEach(pieces: seq<string>): (r: seq<string>)
    ensures |r| == |pieces| && forall k :: 0 <= k < |pieces| ==> r[k] == Strip(pieces[k])
  {
    if pieces == [] then [] else [Strip(pieces[0])] + StripEach(pieces[1..])
  }

  /** The phrases of one line: `phrase.strip() for phrase in line.strip().split("  ")`. */
  function LineChunks(line: string): (chunks: seq<string>)
    ensures NoLineBreak(line) ==> forall c :: c in chunks ==> IsClean(c)
  {
    var pieces := SplitDoubleSpace(Strip(line));
    var chunks := StripEach(pieces);
    assert NoLineBreak(line) ==> forall c :: c in chunks ==> IsClean(c) by {
      if NoLineBreak(line) {
        forall k | 0 <= k < |pieces| ensures IsClean(chunks[k]) {
          assert pieces[k] in pieces;
          StripKeepsClean(line);
          StripKeepsClean(pieces[k]);
        }
      }
    }
    chunks
  }

  /** Slices keep the absence of line breaks and of double spaces. */
  lemma SliceKeepsClean(s: string, a: nat, b: nat)
    requires a <= b <= |s|
    ensures NoLineBreak(s) ==> NoLineBreak(s[a..b])
    ensures NoDoubleSpace(s) ==> NoDoubleSpace(s[a..b])
  {
    var t := s[a..b];
    assert forall k :: 0 <= k < |t| ==> t[k] == s[a + k];
  }

  /** The chunks of all lines, in order. */
  function Chunks(lines: seq<string>): (chunks: seq<string>)
    ensures (forall l :: l in lines ==> NoLineBreak(l)) ==> forall c :: c in chunks ==> IsClean(c)
  {
    if lines == [] then []
    else
      assert lines[|lines| - 1] in lines;
      assert forall l :: l in lines[..|lines| - 1] ==> l in lines;
      Chunks(lines[..|lines| - 1]) + LineChunks(lines[|lines| - 1])
  }

  /** `sep.join(pieces)`. */
  function JoinWith(pieces: seq<string>, sep: string): (r: string)
    ensures pieces != [] ==> |pieces[0]| <= |r|
  {
    if pieces == [] then ""
    else if |pieces| == 1 then pieces[0]
    else pieces[0] + sep + JoinWith(pieces[1..], sep)
  }

  /** The non-empty strings of `chunks`, in order. */
  function NonEmpty(chunks: seq<string>): (r: seq<string>)
    ensures forall c :: c in r ==> c != "" && c in chunks
  {
    if chunks == [] then []
    else (if chunks[0] == "" then [] else [chunks[0]]) + NonEmpty(chunks[1..])
  }

  /** `' '.join(chunk for chunk in chunks if chunk)`. */
  function JoinNonEmpty(chunks: seq<string>): (r: string)
    ensures (forall c :: c in chunks ==> IsClean(c)) ==> IsClean(r)
  {
    var kept := NonEmpty(chunks);
    assert (forall c :: c in chunks ==> IsClean(c)) ==> IsClean(JoinWith(kept, " ")) by {
      if forall c :: c in chunks ==> IsClean(c) {
        JoinClean(kept);
      }
    }
    JoinWith(kept, " ")
  }

  /** Clean non-empty strings joined by single spaces make a clean text. */
  lemma {:induction false} JoinClean(ps: seq<string>)
    requires forall c :: c in ps ==> IsClean(c) && c != ""
    ensures IsClean(JoinWith(ps, " "))
  {
    if |ps| > 1 {
      assert ps[0] in ps && ps[1] in ps;
      assert forall c :: c in ps[1..] ==> c in ps;
      JoinClean(ps[1..]);
      JoinTwoClean(ps[0], JoinWith(ps[1..], " "));
    } else if |ps| == 1 {
      assert ps[0] in ps;
    }
  }

  /** Two clean non-empty strings joined by one space are clean. */
  lemma JoinTwoClean(a: string, b: string)
    requires IsClean(a) && IsClean(b) && a != "" && b != ""
    ensures IsClean(a + " " + b)
  {
    JoinIndex(a, b);
    JoinNoLineBreak(a, b);
    JoinNoDoubleSpace(a, b);
  }

  /** Where the characters of `a + " " + b` come from. */
  lemma JoinIndex(a: string, b: string)
    ensures |a + " " + b| == |a| + 1 + |b|
    ensures forall k :: 0 <= k < |a| ==> (a + " " + b)[k] == a[k]
    ensures (a + " " + b)[|a|] == ' '
    ensures forall k :: 0 <= k < |b| ==> (a + " " + b)[|a| + 1 + k] == b[k]
  {
  }

  lemma JoinNoLineBreak(a: string, b: string)
    requires NoLineBreak(a) && NoLineBreak(b)
    ensures NoLineBreak(a + " " + b)
  {
    JoinIndex(a, b);
    var r := a + " " + b;
    forall k | 0 <= k < |r| ensures !IsLineBoundary(r[k]) {
      if k > |a| {
        assert r[k] == b[k - |a| - 1];
      }
    }
  }

  lemma JoinNoDoubleSpace(a: string, b: string)
    requires NoDoubleSpace(a) && NoDoubleSpace(b) && Trimmed(a) && Trimmed(b) && a != "" && b != ""
    ensures NoDoubleSpace(a + " " + b)
  {
    JoinIndex(a, b);
    var r := a + " " + b;
    forall k | 0 <= k < |r| - 1 ensures !(r[k] == ' ' && r[k + 1] == ' ') {
      if k < |a| - 1 {
        assert r[k] == a[k] && r[k + 1] == a[k + 1];
      } else if k == |a| - 1 {
        assert r[k] == a[|a| - 1];
      } else if k == |a| {
        assert r[k + 1] == b[0];
      } else {
        assert r[k] == b[k - |a| - 1] && r[k + 1] == b[k - |a|];
      }
    }
  }

  /** Lines 62-64: split into lines, strip each, split each at double
      spaces, strip the pieces, and join the non-empty ones with one space.
      It removes whitespace and nothing else: the other characters of the
      page text all survive, in their order. */
  function CleanText(text: string): (r: string)
    ensures Kept(r, NotSpace) == Kept(text, NotSpace)
  {
    var lines := SplitLines(text);
    JoinNonEmptyKeepsText(Chunks(lines));
    ChunksKeepText(lines);
    SplitLinesKeepText(text);
    BreaksAreSpaces(text);
    JoinNonEmpty(Chunks(lines))
  }

  /** The clean-up leaves no line break, no two spaces in a row and no
      leading or trailing whitespace. */
  lemma CleanTextIsClean(text: string)
    ensures IsClean(CleanText(text))
  {
  }

  /** Clean text is a fixed point of the clean-up. */
  lemma CleanTextFixesClean(s: string)
    requires IsClean(s)
    ensures CleanText(s) == s
  {
    if s != [] {
      CleanLineIsOneLine(s);
      CleanLineIsOneChunk(s);
      OneLineChunks(s);
      JoinOne(s);
    }
  }

  lemma CleanLineIsOneLine(s: string)
    requires NoLineBreak(s) && s != []
    ensures SplitLines(s) == [s]
  {
    assert LineEnd(s) == |s|;
  }

  lemma CleanLineIsOneChunk(s: string)
    requires IsClean(s)
    ensures LineChunks(s) == [s]
  {
    TrimmedStrips(s);
    CleanLineIsOnePiece(s);
    CleanPieceStrips(s);
  }

  lemma OneLineChunks(s: string)
    requires LineChunks(s) == [s]
    ensures Chunks([s]) == [s]
  {
    assert [s][..0] == [];
    assert Chunks([s]) == [] + [s];
  }

  lemma JoinOne(s: string)
    requires s != ""
    ensures JoinNonEmpty([s]) == s
  {
    assert [s][1..] == [];
    assert NonEmpty([s]) == [s] + [];
  }

  lemma CleanLineIsOnePiece(s: string)
    requires NoDoubleSpace(s)
    ensures SplitDoubleSpace(s) == [s]
  {
    assert DoubleSpaceAt(s) == |s|;
  }

  lemma CleanPieceStrips(s: string)
    requires Trimmed(s)
    ensures StripEach([s]) == [s]
  {
    assert [s][1..] == [];
    TrimmedStrips(s);
  }

  lemma TrimmedStrips(s: string)
    requires Trimmed(s)
    ensures Strip(s) == s
  {
    assert StripLeft(s) == s;
    assert StripRight(s) == s;
  }

  /** Cleaning twice is cleaning once. */
  lemma CleanTextIdempotent(text: string)
    ensures CleanText(CleanText(text)) == CleanText(text)
  {
    CleanTextIsClean(text);
    CleanTextFixesClean(CleanText(text));
  }

  // ---------------------------------------------------------------------
  // Where the clean-up separates lines

  /** `str.splitlines()` ends a line at every boundary: a break-free line
      followed by a boundary other than the `"\r"` of a `"\r\n"` is the
      first line, and splitting goes on after the boundary. */
  lemma SplitLinesAtBreak(a: string, c: char, b: string)
    requires NoLineBreak(a) && IsLineBoundary(c)
    requires !(c == '\r' && b != [] && b[0] == '\n')
    ensures SplitLines(a + [c] + b) == [a] + SplitLines(b)
  {
    var s := a + [c] + b;
    assert forall k :: 0 <= k < |a| ==> s[k] == a[k];
    assert s[|a|] == c;
    LineEndAt(s, |a|);
    assert |a| + 1 < |s| ==> s[|a| + 1] == b[0];
    assert s[..|a|] == a && s[|a| + 1..] == b;
  }

  /** `"\r\n"` is one boundary: it ends one line, not two. */
  lemma SplitLinesAtCrLf(a: string, b: string)
    requires NoLineBreak(a)
    ensures SplitLines(a + "\r\n" + b) == [a] + SplitLines(b)
  {
    var s := a + "\r\n" + b;
    assert forall k :: 0 <= k < |a| ==> s[k] == a[k];
    assert s[|a|] == '\r' && s[|a| + 1] == '\n';
    LineEndAt(s, |a|);
    assert s[..|a|] == a && s[|a| + 2..] == b;
  }

  /** The first boundary is where `LineEnd` stops. */
  lemma LineEndAt(s: string, n: nat)
    requires n < |s| && IsLineBoundary(s[n])
    requires forall k :: 0 <= k < n ==> !IsLineBoundary(s[k])
    ensures LineEnd(s) == n
  {
  }

  /** The clean-up turns a line boundary between two lines that hold text
      into exactly one space: the words of different lines stay apart. */
  lemma CleanTextSplitsAtBreak(a: string, c: char, b: string)
    requires NoLineBreak(a) && IsLineBoundary(c)
    requires !(c == '\r' && b != [] && b[0] == '\n')
    requires Kept(a, NotSpace) != [] && Kept(b, NotSpace) != []
    ensures CleanText(a + [c] + b) == CleanText(a) + " " + CleanText(b)
  {
    var x, y := NonEmpty(LineChunks(a)), NonEmpty(Chunks(SplitLines(b)));
    CleanTextAtBreak(a, c, b);
    CleanTextOfLine(a);
    CleansToSomething(a);
    CleansToSomething(b);
    assert CleanText(b) == JoinWith(y, " ");
    JoinWithAppend(x, y, " ");
  }

  /** Text with a non-whitespace character cleans to a non-empty text. */
  lemma CleansToSomething(t: string)
    requires Kept(t, NotSpace) != []
    ensures CleanText(t) != []
  {
  }

  /** After a boundary, the chunks of the first line come before those of
      the other lines. */
  lemma CleanTextAtBreak(a: string, c: char, b: string)
    requires NoLineBreak(a) && IsLineBoundary(c)
    requires !(c == '\r' && b != [] && b[0] == '\n')
    ensures CleanText(a + [c] + b) ==
      JoinWith(NonEmpty(LineChunks(a)) + NonEmpty(Chunks(SplitLines(b))), " ")
  {
    SplitLinesAtBreak(a, c, b);
    ChunksCons(a, SplitLines(b));
    NonEmptyAppend(LineChunks(a), Chunks(SplitLines(b)));
  }

  /** The chunks of a first line come before those of the other lines. */
  lemma {:induction false} ChunksCons(line: string, lines: seq<string>)
    ensures Chunks([line] + lines) == LineChunks(line) + Chunks(lines)
    decreases |lines|
  {
    if lines == [] {
      ChunksOne(line);
      assert [line] + lines == [line];
    } else {
      var all := [line] + lines;
      var init, last := lines[..|lines| - 1], lines[|lines| - 1];
      assert all[..|all| - 1] == [line] + init && all[|all| - 1] == last;
      ChunksCons(line, init);
      ChunksSnoc(all);
      ChunksSnoc(lines);
      Regroup(LineChunks(line), Chunks(init), LineChunks(last), Chunks(all), Chunks(lines));
    }
  }

  lemma Regroup(p: seq<string>, q: seq<string>, r: seq<string>, left: seq<string>, right: seq<string>)
    requires left == (p + q) + r && right == q + r
    ensures left == p + right
  {
  }

  lemma ChunksSnoc(lines: seq<string>)
    requires lines != []
    ensures Chunks(lines) == Chunks(lines[..|lines| - 1]) + LineChunks(lines[|lines| - 1])
  {
  }

  lemma ChunksOne(line: string)
    ensures Chunks([line]) == LineChunks(line)
  {
    assert [line][..0] == [];
    ChunksSnoc([line]);
  }

  lemma {:induction false} NonEmptyAppend(x: seq<string>, y: seq<string>)
    ensures NonEmpty(x + y) == NonEmpty(x) + NonEmpty(y)
  {
    if x == [] {
      assert x + y == y;
    } else {
      assert (x + y)[0] == x[0] && (x + y)[1..] == x[1..] + y;
      NonEmptyAppend(x[1..], y);
    }
  }

  /** `sep.join(p + q)` is `sep.join(p) + sep + sep.join(q)` when both
      sides have a piece. */
  lemma {:induction false} JoinWithAppend(p: seq<string>, q: seq<string>, sep: string)
    requires p != [] && q != []
    ensures JoinWith(p + q, sep) == JoinWith(p, sep) + sep + JoinWith(q, sep)
  {
    if |p| == 1 {
      assert (p + q)[1..] == q;
    } else {
      assert (p + q)[0] == p[0] && (p + q)[1..] == p[1..] + q;
      JoinWithAppend(p[1..], q, sep);
    }
  }

  /** A break-free text is cleaned as one line. */
  lemma CleanTextOfLine(a: string)
    requires NoLineBreak(a)
    ensures CleanText(a) == JoinWith(NonEmpty(LineChunks(a)), " ")
  {
    if a == [] {
      assert LineChunks(a) == [""];
      assert NonEmpty([""]) == [] + NonEmpty([]);
    } else {
      CleanLineIsOneLine(a);
      ChunksOne(a);
    }
  }

  // ---------------------------------------------------------------------
  // What the clean-up keeps

  predicate NotSpace(c: char) {
    !IsSpace(c)
  }

  predicate NotBreak(c: char) {
    !IsLineBoundary(c)
  }

  /** The characters of `s` that satisfy `keep`, in order. */
  function Kept(s: string, keep: char -> bool): string {
    if s == [] then [] else (if keep(s[0]) then [s[0]] else []) + Kept(s[1..], keep)
  }

  /** The strings of `ss` run together. */
  function Flatten(ss: seq<string>): string {
    if ss == [] then "" else ss[0] + Flatten(ss[1..])
  }

  lemma {:induction false} KeptAppend(a: string, b: string, keep: char -> bool)
    ensures Kept(a + b, keep) == Kept(a, keep) + Kept(b, keep)
  {
    if a != [] {
      assert (a + b)[0] == a[0] && (a + b)[1..] == a[1..] + b;
      KeptAppend(a[1..], b, keep);
      var head := if keep(a[0]) then [a[0]] else [];
      assert Kept(a + b, keep) == head + Kept(a[1..] + b, keep);
      assert head + (Kept(a[1..], keep) + Kept(b, keep)) == (head + Kept(a[1..], keep)) + Kept(b, keep);
    } else {
      assert a + b == b;
    }
  }

  lemma {:induction false} KeptNone(s: string, keep: char -> bool)
    requires forall k :: 0 <= k < |s| ==> !keep(s[k])
    ensures Kept(s, keep) == []
  {
    if s != [] {
      assert forall k :: 0 <= k < |s[1..]| ==> s[1..][k] == s[k + 1];
      KeptNone(s[1..], keep);
    }
  }

  lemma {:induction false} KeptAll(s: string, keep: char -> bool)
    requires forall k :: 0 <= k < |s| ==> keep(s[k])
    ensures Kept(s, keep) == s
  {
    if s != [] {
      assert forall k :: 0 <= k < |s[1..]| ==> s[1..][k] == s[k + 1];
      KeptAll(s[1..], keep);
      assert s == [s[0]] + s[1..];
    }
  }

  /** Every line boundary is whitespace, so dropping the boundaries first
      changes nothing about the non-whitespace characters. */
  lemma {:induction false} BreaksAreSpaces(s: string)
    ensures Kept(Kept(s, NotBreak), NotSpace) == Kept(s, NotSpace)
  {
    if s != [] {
      BreaksAreSpaces(s[1..]);
      var head := if NotBreak(s[0]) then [s[0]] else [];
      KeptAppend(head, Kept(s[1..], NotBreak), NotSpace);
      if head != [] {
        assert head[1..] == [];
      }
    }
  }

  lemma {:induction false} FlattenAppend(a: seq<string>, b: seq<string>)
    ensures Flatten(a + b) == Flatten(a) + Flatten(b)
  {
    if a != [] {
      assert (a + b)[0] == a[0] && (a + b)[1..] == a[1..] + b;
      FlattenAppend(a[1..], b);
      assert Flatten(a + b) == a[0] + Flatten(a[1..] + b);
      assert a[0] + (Flatten(a[1..]) + Flatten(b)) == (a[0] + Flatten(a[1..])) + Flatten(b);
    } else {
      assert a + b == b;
    }
  }

  /** `str.splitlines()` loses only the line boundaries: the lines run
      together are the text without its boundaries. */
  lemma {:induction false} SplitLinesKeepText(s: string)
    ensures Flatten(SplitLines(s)) == Kept(s, NotBreak)
    decreases |s|
  {
    if s != [] {
      var i := LineEnd(s);
      if i == |s| {
        KeptAll(s, NotBreak);
        assert [s][1..] == [];
      } else {
        var next := if s[i] == '\r' && i + 1 < |s| && s[i + 1] == '\n' then i + 2 else i + 1;
        var rest := SplitLines(s[next..]);
        SplitLinesKeepText(s[next..]);
        assert ([s[..i]] + rest)[1..] == rest;
        LineKeptWhole(s[..i]);
        BoundaryKeptNone(s[i..next]);
        KeptLine(s, i, next);
      }
    }
  }

  /** A line followed by its boundary keeps the line and loses the boundary. */
  lemma KeptLine(s: string, i: nat, next: nat)
    requires i < next <= |s|
    requires Kept(s[..i], NotBreak) == s[..i] && Kept(s[i..next], NotBreak) == []
    ensures Kept(s, NotBreak) == s[..i] + Kept(s[next..], NotBreak)
  {
    var line, boundary, rest := s[..i], s[i..next], s[next..];
    assert s == (line + boundary) + rest;
    KeptAppend(line, boundary, NotBreak);
    assert Kept(line + boundary, NotBreak) == line;
    KeptAppend(line + boundary, rest, NotBreak);
  }

  lemma LineKeptWhole(line: string)
    requires forall k :: 0 <= k < |line| ==> !IsLineBoundary(line[k])
    ensures Kept(line, NotBreak) == line
  {
    KeptAll(line, NotBreak);
  }

  lemma BoundaryKeptNone(boundary: string)
    requires 1 <= |boundary| <= 2 && IsLineBoundary(boundary[0])
    requires |boundary| == 2 ==> boundary[1] == '\n'
    ensures Kept(boundary, NotBreak) == []
  {
    KeptNone(boundary, NotBreak);
  }

  /** Joining with whitespace adds no non-whitespace character. */
  lemma {:induction false} JoinWithKeepsText(pieces: seq<string>, sep: string)
    requires forall k :: 0 <= k < |sep| ==> IsSpace(sep[k])
    ensures Kept(JoinWith(pieces, sep), NotSpace) == Kept(Flatten(pieces), NotSpace)
  {
    if |pieces| > 1 {
      JoinWithKeepsText(pieces[1..], sep);
      KeptAppend(pieces[0] + sep, JoinWith(pieces[1..], sep), NotSpace);
      KeptAppend(pieces[0], sep, NotSpace);
      KeptNone(sep, NotSpace);
      KeptAppend(pieces[0], Flatten(pieces[1..]), NotSpace);
    } else if |pieces| == 1 {
      assert pieces[1..] == [];
      assert Flatten(pieces) == pieces[0] + "" == pieces[0];
    }
  }

  /** `str.strip()` removes whitespace only. */
  lemma StripKeepsText(s: string)
    ensures Kept(Strip(s), NotSpace) == Kept(s, NotSpace)
  {
    var a := |s| - |StripLeft(s)|;
    var b := a + |Strip(s)|;
    StripCutsOnlySpace(s);
    SpacesKeptNone(s[..a]);
    SpacesKeptNone(s[b..]);
    KeptMiddle(s, a, b, NotSpace);
  }

  lemma SpacesKeptNone(t: string)
    requires forall k :: 0 <= k < |t| ==> IsSpace(t[k])
    ensures Kept(t, NotSpace) == []
  {
    KeptNone(t, NotSpace);
  }

  /** When nothing before `a` and nothing from `b` on is kept, what is kept
      of `s` is what is kept of `s[a..b]`. */
  lemma KeptMiddle(s: string, a: nat, b: nat, keep: char -> bool)
    requires a <= b <= |s|
    requires Kept(s[..a], keep) == [] && Kept(s[b..], keep) == []
    ensures Kept(s, keep) == Kept(s[a..b], keep)
  {
    assert s == s[..a] + s[a..b] + s[b..];
    KeptAppend(s[..a] + s[a..b], s[b..], keep);
    KeptAppend(s[..a], s[a..b], keep);
  }

  lemma {:induction false} StripEachKeepsText(pieces: seq<string>)
    ensures Kept(Flatten(StripEach(pieces)), NotSpace) == Kept(Flatten(pieces), NotSpace)
  {
    if pieces != [] {
      StripEachKeepsText(pieces[1..]);
      assert StripEach(pieces)[1..] == StripEach(pieces[1..]);
      KeptAppend(Strip(pieces[0]), Flatten(StripEach(pieces[1..])), NotSpace);
      KeptAppend(pieces[0], Flatten(pieces[1..]), NotSpace);
      StripKeepsText(pieces[0]);
    }
  }

  /** The chunks of a line hold its non-whitespace characters, in order. */
  lemma LineChunksKeepText(line: string)
    ensures Kept(Flatten(LineChunks(line)), NotSpace) == Kept(line, NotSpace)
  {
    var pieces := SplitDoubleSpace(Strip(line));
    StripEachKeepsText(pieces);
    SplitDoubleSpaceKeepsText(Strip(line));
    StripKeepsText(line);
  }

  /** Splitting at double spaces loses only spaces. */
  lemma SplitDoubleSpaceKeepsText(s: string)
    ensures Kept(Flatten(SplitDoubleSpace(s)), NotSpace) == Kept(s, NotSpace)
  {
    var sep := "  ";
    assert forall k :: 0 <= k < |sep| ==> sep[k] == ' ';
    JoinWithKeepsText(SplitDoubleSpace(s), sep);
  }

  lemma {:induction false} ChunksKeepText(lines: seq<string>)
    ensures Kept(Flatten(Chunks(lines)), NotSpace) == Kept(Flatten(lines), NotSpace)
  {
    if lines != [] {
      var init, last := lines[..|lines| - 1], lines[|lines| - 1];
      ChunksKeepText(init);
      FlattenLast(lines);
      FlattenAppend(Chunks(init), LineChunks(last));
      KeptAppend(Flatten(Chunks(init)), Flatten(LineChunks(last)), NotSpace);
      KeptAppend(Flatten(init), last, NotSpace);
      LineChunksKeepText(last);
    }
  }

  lemma FlattenLast(lines: seq<string>)
    requires lines != []
    ensures Flatten(lines) == Flatten(lines[..|lines| - 1]) + lines[|lines| - 1]
  {
    var init, last := lines[..|lines| - 1], lines[|lines| - 1];
    assert lines == init + [last];
    FlattenAppend(init, [last]);
    assert [last][1..] == [];
  }

  lemma {:induction false} FlattenNonEmpty(chunks: seq<string>)
    ensures Flatten(NonEmpty(chunks)) == Flatten(chunks)
  {
    if chunks != [] {
      FlattenNonEmpty(chunks[1..]);
      var head := if chunks[0] == "" then [] else [chunks[0]];
      FlattenAppend(head, NonEmpty(chunks[1..]));
      if head != [] {
        assert head[1..] == [];
      }
    }
  }

  /** Dropping the empty chunks and joining the rest with single spaces
      keeps every non-whitespace character of the chunks, in order. */
  lemma JoinNonEmptyKeepsText(chunks: seq<string>)
    ensures Kept(JoinNonEmpty(chunks), NotSpace) == Kept(Flatten(chunks), NotSpace)
  {
    var sep := " ";
    assert forall k :: 0 <= k < |sep| ==> sep[k] == ' ';
    JoinWithKeepsText(NonEmpty(chunks), sep);
    FlattenNonEmpty(chunks);
  }

  // ---------------------------------------------------------------------
  // The citation preview of line 73

  const PreviewLength: nat := 500

  function Min(a: nat, b: nat): nat {
    if a <= b then a else b
  }

  /** `text[:500] + "..."`. */
  function Preview(text: string): (p: string)
    ensures |p| == Min(|text|, PreviewLength) + 3
    ensures p[..Min(|text|, PreviewLength)] == text[..Min(|text|, PreviewLength)]
    ensures p[|p| - 3..] == "..."
  {
    text[..Min(|text|, PreviewLength)] + "..."
  }
}
