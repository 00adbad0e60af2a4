/** Python string primitives the core relies on: `str.isspace`, `str.strip()`,
    `str.split()` (split at runs of whitespace), `str.split('\n')`,
    `'\n'.join` and the substring test `sub in s`. */
module Text {
  import opened Common

  /** The characters Python's `str.isspace` accepts; `strip()` and `split()`
      with no argument use exactly this set. */
  predicate IsSpace(c: char)
  {
    c == ' ' || ('\t' <= c <= '\r') || ('\U{1c}' <= c <= '\U{1f}') ||
    c == '\U{85}' || c == '\U{a0}' || c == '\U{1680}' ||
    ('\U{2000}' <= c <= '\U{200a}') || c == '\U{2028}' || c == '\U{2029}' ||
    c == '\U{202f}' || c == '\U{205f}' || c == '\U{3000}'
  }

  predicate AllSpace(s: string)
  {
    forall k :: 0 <= k < |s| ==> IsSpace(s[k])
  }

  /** A string with no leading and no trailing whitespace. */
  predicate IsStripped(s: string)
  {
    s == [] || (!IsSpace(s[0]) && !IsSpace(s[|s| - 1]))
  }

  // ---------------------------------------------------------------------
  // strip()

  /** Number of leading whitespace characters. */
  function LeadingSpace(s: string): (i: nat)
    ensures i <= |s|
    ensures AllSpace(s[..i])
    ensures i < |s| ==> !IsSpace(s[i])
  {
    if s == [] || !IsSpace(s[0]) then 0
    else
      var i := 1 + LeadingSpace(s[1..]);
      assert s[..i] == [s[0]] + s[1..][..i - 1];
      i
  }

  /** Length of `s` once trailing whitespace is removed. */
  function TrailingStart(s: string): (j: nat)
    ensures j <= |s|
    ensures AllSpace(s[j..])
    ensures j > 0 ==> !IsSpace(s[j - 1])
  {
    if s == [] || !IsSpace(s[|s| - 1]) then |s|
    else
      var j := TrailingStart(s[..|s| - 1]);
      assert s[j..] == s[..|s| - 1][j..] + [s[|s| - 1]];
      j
  }

  /** Python's `s.strip()`. */
  function Strip(s: string): (r: string)
    ensures IsStripped(r)
    ensures r == [] <==> AllSpace(s)
  {
    var i := LeadingSpace(s);
    var t := s[i..];
    var r := t[..TrailingStart(t)];
    assert r == [] ==> AllSpace(s) by {
      if r == [] {
        if i < |s| {
          assert false;
        }
        assert s[..i] == s;
      }
    }
    assert AllSpace(s) ==> r == [] by {
      if AllSpace(s) && i < |s| {
        assert false;
      }
    }
    r
  }

  lemma StrippedIsFixed(s: string)
    requires IsStripped(s)
    ensures Strip(s) == s
  {
  }

  // ---------------------------------------------------------------------
  // split(): words separated by runs of whitespace

  /** Length of the maximal whitespace-free prefix. */
  function WordLen(s: string): (n: nat)
    ensures n <= |s|
    ensures forall k :: 0 <= k < n ==> !IsSpace(s[k])
    ensures n < |s| ==> IsSpace(s[n])
    ensures s != [] && !IsSpace(s[0]) ==> n >= 1
  {
    if s == [] || IsSpace(s[0]) then 0 else 1 + WordLen(s[1..])
  }

  /** Python's `s.split()`. */
  function Words(s: string): seq<string>
    decreases |s|
  {
    if s == [] then []
    else if IsSpace(s[0]) then Words(s[1..])
    else
      var n := WordLen(s);
      [s[..n]] + Words(s[n..])
  }

  lemma {:induction false} WordLenAppend(x: string, y: string)
    requires WordLen(x) < |x| || y == [] || IsSpace(y[0])
    ensures WordLen(x + y) == WordLen(x)
    decreases |x|
  {
    if x == [] {
      assert x + y == y;
    } else if !IsSpace(x[0]) {
      assert (x + y)[1..] == x[1..] + y;
      WordLenAppend(x[1..], y);
    }
  }

  lemma {:induction false} WordsOfSpaces(s: string)
    requires AllSpace(s)
    ensures Words(s) == []
    decreases |s|
  {
    if s != [] {
      WordsOfSpaces(s[1..]);
    }
  }

  /** Whitespace at the seam makes `split()` distribute over concatenation. */
  lemma {:induction false} WordsConcat(x: string, y: string)
    requires x == [] || y == [] || IsSpace(x[|x| - 1]) || IsSpace(y[0])
    ensures Words(x + y) == Words(x) + Words(y)
    decreases |x|, 1
  {
    if x == [] {
      assert x + y == y;
    } else if y == [] {
      assert x + y == x;
    } else if IsSpace(x[0]) {
      assert (x + y)[1..] == x[1..] + y;
      WordsConcat(x[1..], y);
    } else {
      WordsConcatAtWord(x, y);
    }
  }

  lemma {:induction false} WordsConcatAtWord(x: string, y: string)
    requires x != [] && y != [] && !IsSpace(x[0])
    requires IsSpace(x[|x| - 1]) || IsSpace(y[0])
    ensures Words(x + y) == Words(x) + Words(y)
    decreases |x|, 0
  {
    var n := WordLen(x);
    var xy := x + y;
    var rest := x[n..];
    WordLenAppend(x, y);
    assert xy[0] == x[0];
    assert xy[..n] == x[..n];
    assert xy[n..] == rest + y;
    assert Words(xy) == [x[..n]] + Words(rest + y);
    assert Words(x) == [x[..n]] + Words(rest);
    assert rest == [] || IsSpace(rest[|rest| - 1]) || IsSpace(y[0]) by {
      if rest != [] { assert rest[|rest| - 1] == x[|x| - 1]; }
    }
    WordsConcat(rest, y);
  }

  /** Stripping never changes the words of a string. */
  lemma StripKeepsWords(s: string)
    ensures Words(Strip(s)) == Words(s)
  {
    var i := LeadingSpace(s);
    assert s == s[..i] + s[i..];
    WordsConcat(s[..i], s[i..]);
    WordsOfSpaces(s[..i]);
    var t := s[i..];
    var j := TrailingStart(t);
    assert t == t[..j] + t[j..];
    WordsConcat(t[..j], t[j..]);
    WordsOfSpaces(t[j..]);
  }

  // ---------------------------------------------------------------------
  // split('\n') and '\n'.join

  /** Python's `s.split('\n')`: always at least one piece, none holding a newline. */
  function Lines(s: string): (ls: seq<string>)
    ensures |ls| >= 1
    ensures forall k :: 0 <= k < |ls| ==> '\n' !in ls[k]
  {
    if s == [] then [[]]
    else
      var rest := Lines(s[1..]);
      if s[0] == '\n' then [[]] + rest
      else [[s[0]] + rest[0]] + rest[1..]
  }

  /** Python's `'\n'.join(ls)` for a non-empty list. */
  function JoinLines(ls: seq<string>): string
    requires |ls| >= 1
  {
    if |ls| == 1 then ls[0] else ls[0] + "\n" + JoinLines(ls[1..])
  }

  /** The words of every string of `ls`, in order. */
  function ConcatWords(ls: seq<string>): seq<string>
  {
    if ls == [] then [] else Words(ls[0]) + ConcatWords(ls[1..])
  }

  lemma {:induction false} ConcatWordsAppend(ls: seq<string>, ms: seq<string>)
    ensures ConcatWords(ls + ms) == ConcatWords(ls) + ConcatWords(ms)
  {
    if ls != [] {
      assert (ls + ms)[1..] == ls[1..] + ms;
      ConcatWordsAppend(ls[1..], ms);
    } else {
      assert ls + ms == ms;
    }
  }

  /** Joining the pieces of a split gives the original string back. */
  lemma {:induction false} JoinOfLines(s: string)
    ensures JoinLines(Lines(s)) == s
  {
    if s != [] {
      var rest := Lines(s[1..]);
      JoinOfLines(s[1..]);
      if s[0] == '\n' {
        assert ([[]] + rest)[1..] == rest;
      } else if |rest| > 1 {
        var ls := [[s[0]] + rest[0]] + rest[1..];
        assert ls[1..] == rest[1..];
        assert JoinLines(rest) == rest[0] + "\n" + JoinLines(rest[1..]);
        assert s == [s[0]] + s[1..];
      } else {
        assert s == [s[0]] + s[1..];
      }
    }
  }

  lemma {:induction false} WordsOfJoin(ls: seq<string>)
    requires |ls| >= 1
    ensures Words(JoinLines(ls)) == ConcatWords(ls)
  {
    if |ls| > 1 {
      var j := JoinLines(ls[1..]);
      assert ls[0] + "\n" + j == ls[0] + ("\n" + j);
      WordsConcat(ls[0], "\n" + j);
      assert ("\n" + j)[1..] == j;
      WordsOfJoin(ls[1..]);
    }
  }

  /** The words of a text are the words of its lines, in order. */
  lemma WordsByLines(s: string)
    ensures Words(s) == ConcatWords(Lines(s))
  {
    JoinOfLines(s);
    WordsOfJoin(Lines(s));
  }

  /** Two texts joined by a newline have the words of both, in order. */
  lemma {:induction false} WordsJoin(a: string, b: string)
    ensures Words(a + "\n" + b) == Words(a) + Words(b)
  {
    var tail := "\n" + b;
    assert tail[0] == '\n' && tail[1..] == b;
    assert Words(tail) == Words(b);
    assert a + "\n" + b == a + tail;
    WordsConcat(a, tail);
  }

  /** A string without a newline is a single line. */
  lemma {:induction false} LinesOfLine(y: string)
    requires '\n' !in y
    ensures Lines(y) == [y]
    decreases |y|
  {
    if y != [] {
      LinesOfLine(y[1..]);
      assert [y[0]] + y[1..] == y;
    }
  }

  /** Appending a newline and a line adds that line at the end. */
  lemma {:induction false} LinesAppend(x: string, y: string)
    requires '\n' !in y
    ensures Lines(x + "\n" + y) == Lines(x) + [y]
    decreases |x|
  {
    var s := x + "\n" + y;
    if x == [] {
      assert s == "\n" + y;
      assert s[0] == '\n' && s[1..] == y;
      LinesOfLine(y);
    } else {
      assert s[0] == x[0];
      assert s[1..] == x[1..] + "\n" + y;
      LinesAppend(x[1..], y);
      var rest := Lines(x[1..]);
      if x[0] != '\n' {
        assert (rest + [y])[0] == rest[0];
        assert (rest + [y])[1..] == rest[1..] + [y];
      }
    }
  }

  /** `s.strip()` of a stripped, non-empty text followed by a newline. */
  lemma StripTrailingNewline(body: string)
    requires IsStripped(body) && body != []
    ensures Strip(body + "\n") == body
  {
    var s := body + "\n";
    assert s[0] == body[0];
    assert LeadingSpace(s) == 0;
    assert s[..|s| - 1] == body;
    assert s[0..] == s;
  }

  // ---------------------------------------------------------------------
  // sub in s

  /** Python's `sub in s` for strings. */
  predicate Contains(s: string, sub: string)
    decreases |s|
  {
    sub <= s || (s != [] && Contains(s[1..], sub))
  }

  lemma {:induction false} ContainsAt(s: string, sub: string, i: nat)
    requires i + |sub| <= |s| && s[i..i + |sub|] == sub
    ensures Contains(s, sub)
    decreases i
  {
    if i > 0 {
      assert s[1..][i - 1..i - 1 + |sub|] == s[i..i + |sub|];
      ContainsAt(s[1..], sub, i - 1);
    } else {
      assert s[..|sub|] == sub;
    }
  }

  lemma {:induction false} ContainsInSuffix(a: string, b: string, sub: string)
    requires Contains(b, sub)
    ensures Contains(a + b, sub)
    decreases |a|
  {
    if a != [] {
      assert (a + b)[1..] == a[1..] + b;
      ContainsInSuffix(a[1..], b, sub);
    } else {
      assert a + b == b;
    }
  }

  // ---------------------------------------------------------------------
  // str(n) and int(s)

  predicate IsDigit(c: char) { '0' <= c <= '9' }

  function DigitChar(d: nat): char
    requires d < 10
  {
    ['0', '1', '2', '3', '4', '5', '6', '7', '8', '9'][d]
  }

  /** Python's `str(n)` for a non-negative integer. */
  function NatToString(n: nat): (s: string)
    ensures |s| >= 1 && forall k :: 0 <= k < |s| ==> IsDigit(s[k])
  {
    if n < 10 then [DigitChar(n)] else NatToString(n / 10) + [DigitChar(n % 10)]
  }

  /** Python's `str(n)`. */
  function IntToString(n: int): string
  {
    if n < 0 then "-" + NatToString(-n) else NatToString(n)
  }

  /** The value of a string of decimal digits. */
  function DigitsValue(ds: string): nat
    requires forall k :: 0 <= k < |ds| ==> IsDigit(ds[k])
  {
    if ds == [] then 0
    else
      var d := ds[|ds| - 1] as int - '0' as int;
      assert IsDigit(ds[|ds| - 1]);
      DigitsValue(ds[..|ds| - 1]) * 10 + d
  }

  predicate AllDigits(ds: string)
  {
    ds != [] && forall k :: 0 <= k < |ds| ==> IsDigit(ds[k])
  }

  /** Python's `int(s)` for a string: surrounding whitespace is ignored, an
      optional sign is followed by ASCII digits; anything else is a
      ValueError (None here). */
  function ParseInt(s: string): Option<int>
  {
    var t := Strip(s);
    if t != [] && (t[0] == '-' || t[0] == '+') then
      if AllDigits(t[1..]) then
        var v: int := DigitsValue(t[1..]);
        Some(if t[0] == '-' then -v else v)
      else None
    else if AllDigits(t) then Some(DigitsValue(t))
    else None
  }

  lemma {:induction false} DigitsOfNat(n: nat)
    ensures DigitsValue(NatToString(n)) == n
  {
    if n >= 10 {
      var s := NatToString(n);
      DigitsOfNat(n / 10);
      assert s[..|s| - 1] == NatToString(n / 10);
      assert s[|s| - 1] == DigitChar(n % 10);
    }
  }

  /** `int(str(n)) == n`. */
  lemma ParseIntOfString(n: int)
    ensures ParseInt(IntToString(n)) == Some(n)
  {
    var s := IntToString(n);
    var ds := NatToString(if n < 0 then -n else n);
    assert IsStripped(s);
    StrippedIsFixed(s);
    DigitsOfNat(if n < 0 then -n else n);
    if n < 0 {
      assert s[1..] == ds;
    } else {
      assert s == ds && !(s[0] == '-' || s[0] == '+');
    }
  }
}
