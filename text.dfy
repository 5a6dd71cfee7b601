/** String operations the interview service and its web clients rely on:
    stripping whitespace (Python `str.strip()`, JavaScript `trim()`), splitting
    into words (Python `str.split()`), lower-casing, substring search and
    joining lines. */
module Text {

  /** Whitespace: the space and the control characters tab, line feed,
      vertical tab, form feed and carriage return. */
  predicate IsSpace(c: char) {
    c == ' ' || '\t' <= c <= '\r'
  }

  predicate AllSpace(s: string) {
    forall i :: 0 <= i < |s| ==> IsSpace(s[i])
  }

  predicate NoSpace(s: string) {
    forall i :: 0 <= i < |s| ==> !IsSpace(s[i])
  }

  /** Neither begins nor ends with whitespace. */
  predicate IsStripped(s: string) {
    s == [] || (!IsSpace(s[0]) && !IsSpace(s[|s| - 1]))
  }

  // ---------------------------------------------------------------------------
  // Stripping

  /** Drops the leading whitespace; what is left does not begin with
      whitespace (TrimStartSlice says what was dropped). */
  function TrimStart(s: string): (r: string)
    ensures |r| <= |s|
    ensures r == [] || !IsSpace(r[0])
    decreases |s|
  {
    if |s| > 0 && IsSpace(s[0]) then TrimStart(s[1..]) else s
  }

  /** Drops the trailing whitespace; what is left does not end with
      whitespace (TrimEndSlice says what was dropped). */
  function TrimEnd(s: string): (r: string)
    ensures |r| <= |s|
    ensures r == [] || !IsSpace(r[|r| - 1])
    ensures r == [] || r[0] == s[0]
    decreases |s|
  {
    if |s| > 0 && IsSpace(s[|s| - 1]) then TrimEnd(s[..|s| - 1]) else s
  }

  /** TrimStart keeps a suffix of `s`, and all it drops is whitespace. */
  lemma {:induction false} TrimStartSlice(s: string)
    ensures TrimStart(s) == s[|s| - |TrimStart(s)|..]
    ensures AllSpace(s[..|s| - |TrimStart(s)|])
    decreases |s|
  {
    if |s| > 0 && IsSpace(s[0]) {
      TrimStartSlice(s[1..]);
      var n := |s| - |TrimStart(s)|;
      assert s[..n] == [s[0]] + s[1..][..n - 1];
    }
  }

  /** TrimEnd keeps a prefix of `s`, and all it drops is whitespace. */
  lemma {:induction false} TrimEndSlice(s: string)
    ensures TrimEnd(s) == s[..|TrimEnd(s)|]
    ensures AllSpace(s[|TrimEnd(s)|..])
    decreases |s|
  {
    if |s| > 0 && IsSpace(s[|s| - 1]) {
      TrimEndSlice(s[..|s| - 1]);
      var n := |TrimEnd(s)|;
      assert s[n..] == s[..|s| - 1][n..] + [s[|s| - 1]];
    }
  }

  /** Python's `str.strip()` and JavaScript's `String.prototype.trim()`: the
      slice of `s` left after removing whitespace at both ends (StripSlice). */
  function Strip(s: string): (r: string)
    ensures IsStripped(r)
    ensures |r| <= |s|
  {
    TrimEnd(TrimStart(s))
  }

  /** What Strip keeps is one slice of `s`, and all it removes is whitespace. */
  lemma StripSlice(s: string) returns (i: nat)
    ensures i + |Strip(s)| <= |s| && Strip(s) == s[i..i + |Strip(s)|]
    ensures AllSpace(s[..i]) && AllSpace(s[i + |Strip(s)|..])
  {
    var t := TrimStart(s);
    var r := TrimEnd(t);
    TrimStartSlice(s);
    TrimEndSlice(t);
    i := |s| - |t|;
    assert t == s[i..];
    assert r == t[..|r|];
    assert r == s[i..i + |r|];
    assert s[i + |r|..] == t[|r|..];
  }

  lemma {:induction false} TrimStartOfSpaces(a: string, x: string)
    requires AllSpace(a)
    requires x == [] || !IsSpace(x[0])
    ensures TrimStart(a + x) == x
    decreases |a|
  {
    if a != [] {
      assert (a + x)[1..] == a[1..] + x;
      TrimStartOfSpaces(a[1..], x);
    }
  }

  lemma {:induction false} TrimEndOfSpaces(x: string, b: string)
    requires AllSpace(b)
    requires x == [] || !IsSpace(x[|x| - 1])
    ensures TrimEnd(x + b) == x
    decreases |b|
  {
    if b == [] {
      assert x + b == x;
    } else {
      var s := x + b;
      assert s[|s| - 1] == b[|b| - 1];
      assert s[..|s| - 1] == x + b[..|b| - 1];
      TrimEndOfSpaces(x, b[..|b| - 1]);
    }
  }

  /** Strip is determined by its two properties: whenever `s` is a stripped
      core `m` between two runs of whitespace, stripping `s` gives `m`. */
  lemma StripUnique(a: string, m: string, b: string)
    requires AllSpace(a) && AllSpace(b) && IsStripped(m)
    ensures Strip(a + m + b) == m
  {
    if m == [] {
      assert a + m + b == a + b;
      TrimStartOfSpaces(a + b, []);
      assert a + b + [] == a + b;
    } else {
      assert a + m + b == a + (m + b);
      TrimStartOfSpaces(a, m + b);
      TrimEndOfSpaces(m, b);
    }
  }

  // ---------------------------------------------------------------------------
  // Words

  /** Python's `str.split()` without a separator: the maximal runs of
      non-whitespace characters, in order. */
  function Words(s: string): (ws: seq<string>)
    ensures forall i :: 0 <= i < |ws| ==> ws[i] != [] && NoSpace(ws[i])
  {
    SplitFrom(s, [])
  }

  /** The scan behind Words: `word` holds the run of non-whitespace
      characters read so far and not yet emitted. */
  function SplitFrom(s: string, word: string): (ws: seq<string>)
    requires NoSpace(word)
    ensures forall i :: 0 <= i < |ws| ==> ws[i] != [] && NoSpace(ws[i])
    decreases |s|
  {
    if s == [] then
      (if word == [] then [] else [word])
    else if IsSpace(s[0]) then
      (if word == [] then [] else [word]) + SplitFrom(s[1..], [])
    else
      SplitFrom(s[1..], word + [s[0]])
  }

  /** The number of words, counted independently of Words: the positions
      holding a non-whitespace character that follows whitespace or the
      start of the text. */
  function WordStarts(s: string, afterSpace: bool): nat
    decreases |s|
  {
    if s == [] then 0
    else (if afterSpace && !IsSpace(s[0]) then 1 else 0) + WordStarts(s[1..], IsSpace(s[0]))
  }

  function WordCount(s: string): nat {
    WordStarts(s, true)
  }

  /** All non-whitespace characters of `s`, in order. */
  function NonSpace(s: string): string
    decreases |s|
  {
    if s == [] then [] else (if IsSpace(s[0]) then [] else [s[0]]) + NonSpace(s[1..])
  }

  function Concat(ws: seq<string>): string
    decreases |ws|
  {
    if ws == [] then [] else ws[0] + Concat(ws[1..])
  }

  lemma {:induction false} SplitFromCount(s: string, word: string)
    requires NoSpace(word)
    ensures |SplitFrom(s, word)| == (if word == [] then 0 else 1) + WordStarts(s, word == [])
    decreases |s|
  {
    if s == [] {
    } else if IsSpace(s[0]) {
      SplitFromCount(s[1..], []);
    } else {
      SplitFromCount(s[1..], word + [s[0]]);
    }
  }

  lemma {:induction false} SplitFromConcat(s: string, word: string)
    requires NoSpace(word)
    ensures Concat(SplitFrom(s, word)) == word + NonSpace(s)
    decreases |s|
  {
    if s == [] {
      if word != [] {
        assert Concat([word]) == word + Concat([]);
      }
    } else if IsSpace(s[0]) {
      SplitFromConcat(s[1..], []);
      var rest := SplitFrom(s[1..], []);
      if word != [] {
        assert ([word] + rest)[1..] == rest;
      } else {
        assert [] + rest == rest;
      }
    } else {
      SplitFromConcat(s[1..], word + [s[0]]);
      assert word + [s[0]] + NonSpace(s[1..]) == word + ([s[0]] + NonSpace(s[1..]));
    }
  }

  /** Python's `len(s.split())` is the number of word starts. */
  lemma WordsCount(s: string)
    ensures |Words(s)| == WordCount(s)
  {
    SplitFromCount(s, []);
  }

  /** The words, put back together, are exactly the non-whitespace
      characters of `s`: splitting loses only whitespace. */
  lemma WordsConcat(s: string)
    ensures Concat(Words(s)) == NonSpace(s)
  {
    SplitFromConcat(s, []);
    assert [] + NonSpace(s) == NonSpace(s);
  }

  // ---------------------------------------------------------------------------
  // Lower case and substrings

  function LowerChar(c: char): char {
    if 'A' <= c <= 'Z' then (c as int - 'A' as int + 'a' as int) as char else c
  }

  /** Python's `str.lower()` on the letters A to Z. */
  function Lower(s: string): (r: string)
    ensures |r| == |s|
    ensures forall i :: 0 <= i < |s| ==> r[i] == LowerChar(s[i])
    decreases |s|
  {
    if s == [] then [] else [LowerChar(s[0])] + Lower(s[1..])
  }

  predicate StartsWith(s: string, prefix: string) {
    |prefix| <= |s| && s[..|prefix|] == prefix
  }

  predicate OccursAt(haystack: string, needle: string, i: int) {
    0 <= i <= |haystack| - |needle| && haystack[i..i + |needle|] == needle
  }

  /** Python's `needle in haystack` on two strings: never true of a needle
      longer than the haystack, and always true of the empty needle. */
  predicate Contains(haystack: string, needle: string)
    ensures Contains(haystack, needle) ==> |needle| <= |haystack|
    ensures needle == [] ==> Contains(haystack, needle)
    decreases |haystack|
  {
    StartsWith(haystack, needle) || (|haystack| > 0 && Contains(haystack[1..], needle))
  }

  /** Contains holds exactly when `needle` occurs at some position. */
  lemma {:induction false} ContainsAt(haystack: string, needle: string)
    ensures Contains(haystack, needle) <==> exists i :: OccursAt(haystack, needle, i)
    decreases |haystack|
  {
    if StartsWith(haystack, needle) {
      assert haystack[0..|needle|] == haystack[..|needle|];
      assert OccursAt(haystack, needle, 0);
    }
    if |haystack| > 0 {
      ContainsAt(haystack[1..], needle);
      if Contains(haystack[1..], needle) {
        var j :| OccursAt(haystack[1..], needle, j);
        assert haystack[j + 1..j + 1 + |needle|] == haystack[1..][j..j + |needle|];
        assert OccursAt(haystack, needle, j + 1);
      }
      if i :| OccursAt(haystack, needle, i) {
        if i > 0 {
          assert haystack[1..][i - 1..i - 1 + |needle|] == haystack[i..i + |needle|];
          assert OccursAt(haystack[1..], needle, i - 1);
        }
      }
    }
  }

  /** Python's `d.get(key, '')` on a dictionary of strings. */
  function Get(d: map<string, string>, key: string): (v: string)
    ensures key in d ==> v == d[key]
    ensures key !in d ==> v == ""
  {
    if key in d then d[key] else ""
  }

  /** The number of characters in all the lines together. */
  function TotalLength(lines: seq<string>): nat
    decreases |lines|
  {
    if lines == [] then 0 else |lines[0]| + TotalLength(lines[1..])
  }

  /** Python's `sep.join(lines)`: the lines with one separator between each
      two neighbours, and nothing else. */
  function Join(lines: seq<string>, sep: string): (r: string)
    ensures lines == [] ==> r == []
    ensures lines != [] ==> |r| == TotalLength(lines) + (|lines| - 1) * |sep|
    decreases |lines|
  {
    if lines == [] then []
    else if |lines| == 1 then lines[0]
    else lines[0] + sep + Join(lines[1..], sep)
  }

  /** Joining two non-empty runs of lines is joining each and putting one
      separator between them: every separator sits between two neighbours. */
  lemma {:induction false} JoinAppend(a: seq<string>, b: seq<string>, sep: string)
    requires a != [] && b != []
    ensures Join(a + b, sep) == Join(a, sep) + sep + Join(b, sep)
    decreases |a|
  {
    assert (a + b)[0] == a[0];
    assert (a + b)[1..] == a[1..] + b;
    if |a| > 1 {
      JoinAppend(a[1..], b, sep);
    }
  }

  lemma JoinStartsWithFirst(lines: seq<string>, sep: string)
    requires lines != []
    ensures StartsWith(Join(lines, sep), lines[0])
  {
  }
}
