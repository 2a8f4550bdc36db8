/** String operations the crawler relies on: Python's `startswith`, the
    substring test `sub in s`, `lower()`, whitespace normalisation and
    `sep.join(parts)`. */
module Text {

  /** `s.startswith(prefix)` */
  predicate StartsWith(s: string, prefix: string) {
    |prefix| <= |s| && s[..|prefix|] == prefix
  }

  /** Python's substring test `sub in s` (the empty string occurs everywhere). */
  predicate Contains(s: string, sub: string)
    decreases |s|
  {
    StartsWith(s, sub) || (|s| > 0 && Contains(s[1..], sub))
  }

  /** `sub` occurs in `s` at position `i`. */
  predicate OccursAt(s: string, sub: string, i: nat) {
    i + |sub| <= |s| && s[i..i + |sub|] == sub
  }

  /** `Contains` means what it says: some position of `s` starts a copy of `sub`. */
  lemma {:induction false} ContainsIffOccurs(s: string, sub: string)
    ensures Contains(s, sub) <==> exists i: nat :: OccursAt(s, sub, i)
    decreases |s|
  {
    if Contains(s, sub) {
      if StartsWith(s, sub) {
        assert OccursAt(s, sub, 0);
      } else {
        ContainsIffOccurs(s[1..], sub);
        var i: nat :| OccursAt(s[1..], sub, i);
        assert s[i + 1..i + 1 + |sub|] == s[1..][i..i + |sub|];
        assert OccursAt(s, sub, i + 1);
      }
    }
    if exists i: nat :: OccursAt(s, sub, i) {
      var i: nat :| OccursAt(s, sub, i);
      if i > 0 {
        assert s[1..][i - 1..i - 1 + |sub|] == s[i..i + |sub|];
        assert OccursAt(s[1..], sub, i - 1);
        ContainsIffOccurs(s[1..], sub);
      } else {
        assert StartsWith(s, sub);
      }
    }
  }

  /** A string contains any of its suffixes; in particular a host name
      `prefix + domain` contains `domain`. */
  lemma {:induction false} ContainsSuffix(prefix: string, suffix: string)
    ensures Contains(prefix + suffix, suffix)
    decreases |prefix|
  {
    if prefix == [] {
      assert prefix + suffix == suffix;
      assert (prefix + suffix)[..|suffix|] == suffix;
    } else {
      assert (prefix + suffix)[1..] == prefix[1..] + suffix;
      ContainsSuffix(prefix[1..], suffix);
    }
  }

  /** ASCII case folding of one character. */
  function LowerChar(c: char): (d: char)
    ensures 'A' <= c <= 'Z' ==> 'a' <= d <= 'z' && d as int - c as int == 32
    ensures !('A' <= c <= 'Z') ==> d == c
  {
    if 'A' <= c <= 'Z' then (c as int + 32) as char else c
  }

  /** `s.lower()`, restricted to ASCII letters. */
  function Lower(s: string): (r: string)
    ensures |r| == |s|
    ensures forall i :: 0 <= i < |s| ==> r[i] == LowerChar(s[i])
  {
    seq(|s|, i requires 0 <= i < |s| => LowerChar(s[i]))
  }

  /** Python's `str.isspace()`: the characters that `\s` matches in a `str`
      pattern and that `strip()` removes. */
  predicate IsSpace(c: char) {
    c in SpaceChars
  }

  const SpaceChars: set<char> := {
    ' ', '\t', '\n', '\r', '\U{0B}', '\U{0C}', '\U{1C}', '\U{1D}', '\U{1E}', '\U{1F}',
    '\U{85}', '\U{A0}', '\U{1680}',
    '\U{2000}', '\U{2001}', '\U{2002}', '\U{2003}', '\U{2004}', '\U{2005}',
    '\U{2006}', '\U{2007}', '\U{2008}', '\U{2009}', '\U{200A}',
    '\U{2028}', '\U{2029}', '\U{202F}', '\U{205F}', '\U{3000}'
  }

  /** The characters of `s` that are not whitespace, in order. */
  function Visible(s: string): string
    decreases |s|
  {
    if s == [] then []
    else if IsSpace(s[0]) then Visible(s[1..])
    else [s[0]] + Visible(s[1..])
  }

  /** `s.lstrip()` */
  function StripLeft(s: string): (r: string)
    ensures |r| <= |s| && r == s[|s| - |r|..]
    ensures r == [] || !IsSpace(r[0])
    ensures |s| > 0 && IsSpace(s[0]) ==> |r| < |s|
    decreases |s|
  {
    if |s| > 0 && IsSpace(s[0]) then StripLeft(s[1..]) else s
  }

  /** `s.rstrip()` */
  function StripRight(s: string): (r: string)
    ensures |r| <= |s| && r == s[..|r|]
    ensures r == [] || !IsSpace(r[|r| - 1])
    decreases |s|
  {
    if |s| > 0 && IsSpace(s[|s| - 1]) then StripRight(s[..|s| - 1]) else s
  }

  /** `re.sub(r'\s+', ' ', s)`: every maximal run of whitespace becomes one space. */
  function CollapseRuns(s: string): string
    decreases |s|
  {
    if s == [] then []
    else if IsSpace(s[0]) then [' '] + CollapseRuns(StripLeft(s))
    else [s[0]] + CollapseRuns(s[1..])
  }

  /** The only whitespace left is a single ' ' between non-whitespace characters. */
  predicate SingleSpaced(t: string) {
    && (forall i :: 0 <= i < |t| && IsSpace(t[i]) ==> t[i] == ' ')
    && (forall i :: 0 <= i < |t| - 1 ==> !(IsSpace(t[i]) && IsSpace(t[i + 1])))
  }

  /** What `get_page_content` returns: single-spaced with no whitespace at either end. */
  predicate Normalized(t: string) {
    SingleSpaced(t) && (t == [] || (!IsSpace(t[0]) && !IsSpace(t[|t| - 1])))
  }

  /** The length of the longest prefix of `t` without whitespace. */
  function WordLength(t: string): (n: nat)
    ensures n <= |t|
    ensures forall i :: 0 <= i < n ==> !IsSpace(t[i])
    ensures n == |t| || IsSpace(t[n])
    decreases |t|
  {
    if t == [] || IsSpace(t[0]) then 0 else 1 + WordLength(t[1..])
  }

  /** A non-empty run of non-whitespace characters. */
  predicate IsWord(w: string) {
    w != [] && forall j :: 0 <= j < |w| ==> !IsSpace(w[j])
  }

  /** The words of `s`: its maximal runs of non-whitespace characters, in order. */
  function Words(s: string): seq<string>
    decreases |s|
  {
    var t := StripLeft(s);
    if t == [] then []
    else
      var n := WordLength(t);
      assert n > 0;
      [t[..n]] + Words(t[n..])
  }

  /** Every word is non-empty and free of whitespace. */
  lemma {:induction false} WordsAreWords(s: string)
    ensures forall i :: 0 <= i < |Words(s)| ==> IsWord(Words(s)[i])
    decreases |s|
  {
    var t := StripLeft(s);
    if t != [] {
      var n := WordLength(t);
      var w, ws := t[..n], Words(t[n..]);
      assert IsWord(w);
      WordsAreWords(t[n..]);
      assert Words(s) == [w] + ws;
      forall i | 0 <= i < |Words(s)|
        ensures IsWord(Words(s)[i])
      {
        if i > 0 {
          assert Words(s)[i] == ws[i - 1];
        }
      }
    }
  }

  /** `re.sub(r'\s+', ' ', s).strip()`, the normalisation at the end of
      `get_page_content`: the words of `s` separated by single spaces. */
  function NormalizeWhitespace(s: string): (r: string)
    ensures r == Join(" ", Words(s))
    ensures Normalized(r)
    ensures Visible(r) == Visible(s)
  {
    CollapseRunsSingleSpaced(s);
    CollapseRunsVisible(s);
    StripSingleSpaced(CollapseRuns(s));
    StripVisible(CollapseRuns(s));
    NormalizeIsJoinOfWords(s);
    StripRight(StripLeft(CollapseRuns(s)))
  }

  /** Stripping the front of collapsed text is collapsing stripped text. */
  lemma StripLeftCollapse(s: string)
    ensures StripLeft(CollapseRuns(s)) == CollapseRuns(StripLeft(s))
  {
    var t := StripLeft(s);
    var c := CollapseRuns(t);
    CollapseRunsSingleSpaced(t);
    StripLeftFixed(c);
    if s != [] && IsSpace(s[0]) {
      assert CollapseRuns(s) == [' '] + c;
      StripLeftSpace(c);
    } else {
      assert t == s;
    }
  }

  lemma StripLeftFixed(c: string)
    requires c == [] || !IsSpace(c[0])
    ensures StripLeft(c) == c
  {
  }

  lemma StripLeftSpace(c: string)
    ensures StripLeft([' '] + c) == StripLeft(c)
  {
    assert IsSpace(' ');
    assert ([' '] + c)[1..] == c;
  }

  /** A word passes through the collapse unchanged. */
  lemma {:induction false} CollapseWord(w: string, rest: string)
    requires forall i :: 0 <= i < |w| ==> !IsSpace(w[i])
    ensures CollapseRuns(w + rest) == w + CollapseRuns(rest)
    decreases |w|
  {
    if w != [] {
      assert (w + rest)[1..] == w[1..] + rest;
      CollapseWord(w[1..], rest);
      assert w == [w[0]] + w[1..];
    } else {
      assert w + rest == rest;
    }
  }

  /** Stripping the end of `x + y` only touches `y` when `y` keeps a character. */
  lemma {:induction false} StripRightAppend(x: string, y: string)
    requires StripRight(y) != []
    ensures StripRight(x + y) == x + StripRight(y)
    decreases |y|
  {
    if IsSpace(y[|y| - 1]) {
      assert (x + y)[..|x + y| - 1] == x + y[..|y| - 1];
      StripRightAppend(x, y[..|y| - 1]);
    }
  }

  /** For text that starts with a word (or is empty), stripping the end of its
      collapse gives its words joined by single spaces. */
  lemma {:induction false} StripRightCollapseWords(t: string)
    requires t == [] || !IsSpace(t[0])
    ensures StripRight(CollapseRuns(t)) == Join(" ", Words(t))
    decreases |t|
  {
    if t != [] {
      var n := WordLength(t);
      var w, rest := t[..n], t[n..];
      assert t == w + rest;
      assert Words(t) == [w] + Words(rest);
      CollapseWord(w, rest);
      if rest == [] {
        assert Words(rest) == [];
        assert w + CollapseRuns(rest) == w;
      } else {
        var u := StripLeft(rest);
        WordsAfterSpace(rest);
        if u == [] {
          assert w + CollapseRuns(rest) == w + [' '];
          assert StripRight(w + [' ']) == StripRight(w);
        } else {
          StripRightCollapseWords(u);
          CollapseKeepsFirst(u);
          WordThenSpace(w, CollapseRuns(u));
          assert Words(t) == [w] + Words(u);
        }
      }
    }
  }

  /** A word, a space and more text that keeps something at its end. */
  lemma WordThenSpace(w: string, c: string)
    requires StripRight(c) != []
    ensures StripRight(w + ([' '] + c)) == w + " " + StripRight(c)
  {
    assert w + ([' '] + c) == (w + [' ']) + c;
    StripRightAppend(w + [' '], c);
  }

  /** Text that starts with whitespace collapses to one space before the
      collapse of the rest, and has the words of the rest. */
  lemma WordsAfterSpace(r: string)
    requires r != [] && IsSpace(r[0])
    ensures CollapseRuns(r) == [' '] + CollapseRuns(StripLeft(r))
    ensures Words(r) == Words(StripLeft(r))
    ensures StripLeft(r) == [] ==> Words(r) == []
    ensures StripLeft(r) != [] ==> Words(r) != []
  {
  }

  /** Collapsing text that starts with a word keeps that first character, so
      stripping the end leaves something. */
  lemma CollapseKeepsFirst(u: string)
    requires u != [] && !IsSpace(u[0])
    ensures StripRight(CollapseRuns(u)) != []
  {
    CollapseRunsSingleSpaced(u);
    StripRightKeeps(CollapseRuns(u), 0);
  }

  /** Stripping the end never removes a character that is not whitespace. */
  lemma {:induction false} StripRightKeeps(c: string, i: nat)
    requires i < |c| && !IsSpace(c[i])
    ensures |StripRight(c)| > i
    decreases |c|
  {
    if IsSpace(c[|c| - 1]) {
      StripRightKeeps(c[..|c| - 1], i);
    }
  }

  lemma NormalizeIsJoinOfWords(s: string)
    ensures StripRight(StripLeft(CollapseRuns(s))) == Join(" ", Words(s))
  {
    StripLeftCollapse(s);
    StripRightCollapseWords(StripLeft(s));
    assert Words(StripLeft(s)) == Words(s);
  }

  /** Stripping single-spaced text at both ends leaves normalised text with
      the same non-whitespace characters. */
  lemma StripSingleSpaced(c: string)
    requires SingleSpaced(c)
    ensures Normalized(StripRight(StripLeft(c)))
  {
    var l := StripLeft(c);
    SingleSpacedSuffix(c, |c| - |l|);
    StripRightSingleSpaced(l);
  }

  /** Stripping the end of single-spaced text that starts with a word. */
  lemma StripRightSingleSpaced(l: string)
    requires SingleSpaced(l) && (l == [] || !IsSpace(l[0]))
    ensures Normalized(StripRight(l))
  {
    var r := StripRight(l);
    SingleSpacedPrefix(l, |r|);
    if r != [] {
      assert r[0] == l[0];
    }
  }



  /** Stripping both ends keeps every non-whitespace character. */
  lemma StripVisible(c: string)
    ensures Visible(StripRight(StripLeft(c))) == Visible(c)
  {
    StripLeftVisible(c);
    StripRightVisible(StripLeft(c));
  }


  lemma {:induction false} CollapseRunsSingleSpaced(s: string)
    ensures SingleSpaced(CollapseRuns(s))
    ensures s != [] && !IsSpace(s[0]) ==> CollapseRuns(s)[0] == s[0]
    ensures |CollapseRuns(s)| > 0 <==> |s| > 0
    decreases |s|
  {
    if s == [] {
    } else if IsSpace(s[0]) {
      var t := StripLeft(s);
      CollapseRunsSingleSpaced(t);
      var c := CollapseRuns(t);
      assert CollapseRuns(s) == [' '] + c;
      assert c == [] || !IsSpace(c[0]);
    } else {
      CollapseRunsSingleSpaced(s[1..]);
    }
  }

  lemma SingleSpacedSuffix(t: string, lo: nat)
    requires SingleSpaced(t) && lo <= |t|
    ensures SingleSpaced(t[lo..])
  {
  }

  lemma SingleSpacedPrefix(t: string, hi: nat)
    requires SingleSpaced(t) && hi <= |t|
    ensures SingleSpaced(t[..hi])
  {
  }


  lemma {:induction false} VisibleAppend(a: string, b: string)
    ensures Visible(a + b) == Visible(a) + Visible(b)
    decreases |a|
  {
    if a == [] {
      assert a + b == b;
    } else {
      assert (a + b)[1..] == a[1..] + b;
      VisibleAppend(a[1..], b);
    }
  }

  lemma {:induction false} StripLeftVisible(s: string)
    ensures Visible(StripLeft(s)) == Visible(s)
    decreases |s|
  {
    if |s| > 0 && IsSpace(s[0]) {
      StripLeftVisible(s[1..]);
    }
  }

  lemma {:induction false} StripRightVisible(s: string)
    ensures Visible(StripRight(s)) == Visible(s)
    decreases |s|
  {
    if |s| > 0 && IsSpace(s[|s| - 1]) {
      var init := s[..|s| - 1];
      assert s == init + [s[|s| - 1]];
      VisibleAppend(init, [s[|s| - 1]]);
      assert Visible([s[|s| - 1]]) == [];
      StripRightVisible(init);
    }
  }

  lemma {:induction false} CollapseRunsVisible(s: string)
    ensures Visible(CollapseRuns(s)) == Visible(s)
    decreases |s|
  {
    if s == [] {
    } else if IsSpace(s[0]) {
      var t := StripLeft(s);
      CollapseRunsVisible(t);
      StripLeftVisible(s);
      VisibleAppend([' '], CollapseRuns(t));
    } else {
      CollapseRunsVisible(s[1..]);
      VisibleAppend([s[0]], CollapseRuns(s[1..]));
    }
  }

  /** Collapsing a string that is already single-spaced changes nothing. */
  lemma {:induction false} CollapseRunsFixed(t: string)
    requires SingleSpaced(t)
    ensures CollapseRuns(t) == t
    decreases |t|
  {
    if t != [] {
      var rest := t[1..];
      assert t == [t[0]] + rest;
      SingleSpacedSuffix(t, 1);
      CollapseRunsFixed(rest);
      if IsSpace(t[0]) {
        assert rest == [] || !IsSpace(rest[0]) by {
          if rest != [] {
            assert !(IsSpace(t[0]) && IsSpace(t[1]));
          }
        }
        CollapseSpaceThenWord(rest);
      } else {
        CollapseNonSpace(t[0], rest);
      }
    }
  }

  /** One space before a word collapses to itself. */
  lemma CollapseSpaceThenWord(rest: string)
    requires rest == [] || !IsSpace(rest[0])
    ensures CollapseRuns([' '] + rest) == [' '] + CollapseRuns(rest)
  {
    StripLeftSpace(rest);
    StripLeftFixed(rest);
  }

  /** A character that is not whitespace passes through the collapse. */
  lemma CollapseNonSpace(c: char, rest: string)
    requires !IsSpace(c)
    ensures CollapseRuns([c] + rest) == [c] + CollapseRuns(rest)
  {
    assert ([c] + rest)[1..] == rest;
  }


  /** Normalising twice is normalising once: already normalised text is a fixed point. */
  lemma NormalizeIdempotent(s: string)
    ensures NormalizeWhitespace(NormalizeWhitespace(s)) == NormalizeWhitespace(s)
  {
    var t := NormalizeWhitespace(s);
    CollapseRunsFixed(t);
  }

  /** `sep.join(parts)` */
  function Join(sep: string, parts: seq<string>): (r: string)
    decreases |parts|
  {
    if parts == [] then ""
    else if |parts| == 1 then parts[0]
    else parts[0] + sep + Join(sep, parts[1..])
  }

  /** The joined text is as long as all the parts plus one separator between each
      pair of neighbours, and it begins with the first part. */
  lemma {:induction false} JoinLength(sep: string, parts: seq<string>)
    requires parts != []
    ensures |Join(sep, parts)| == SumLengths(parts) + (|parts| - 1) * |sep|
    ensures StartsWith(Join(sep, parts), parts[0])
    decreases |parts|
  {
    if |parts| > 1 {
      JoinLength(sep, parts[1..]);
    }
  }

  function SumLengths(parts: seq<string>): nat
    decreases |parts|
  {
    if parts == [] then 0 else |parts[0]| + SumLengths(parts[1..])
  }
}
