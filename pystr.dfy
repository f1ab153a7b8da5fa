/**
  The Python `str` operations the tool's parsers are built from, written out so that their edge
  cases are CPython's: `split()` discards empty words, `split(c)` keeps empty parts,
  `splitlines()` drops a final line break, `strip()` uses the `str.isspace` set, and `int()`
  accepts a sign, surrounding whitespace and single underscores between digits.
*/
module PyStr {
  import opened Wrappers

  /** str.isspace(): the characters split() and strip() treat as whitespace. */
  predicate IsSpace(c: char) {
    c == ' ' || ('\t' <= c <= '\r') || ('\U{1c}' <= c <= '\U{1f}')
    || c == '\U{85}' || c == '\U{a0}' || c == '\U{1680}' || ('\U{2000}' <= c <= '\U{200a}')
    || c == '\U{2028}' || c == '\U{2029}' || c == '\U{202f}' || c == '\U{205f}' || c == '\U{3000}'
  }

  /** The line boundaries of str.splitlines(); the pair "\r\n" counts as a single boundary. */
  predicate IsLineBreak(c: char) {
    ('\n' <= c <= '\r') || ('\U{1c}' <= c <= '\U{1e}') || c == '\U{85}' || c == '\U{2028}' || c == '\U{2029}'
  }

  /** s.startswith(prefix) */
  predicate StartsWith(s: string, prefix: string) {
    |prefix| <= |s| && s[..|prefix|] == prefix
  }

  predicate OccursAt(sub: string, s: string, i: nat) {
    i + |sub| <= |s| && s[i..i + |sub|] == sub
  }

  /** Python's `sub in s`. */
  predicate Contains(s: string, sub: string) {
    exists i :: 0 <= i <= |s| && OccursAt(sub, s, i)
  }

  /** A string cannot contain a substring that has a character the string lacks. */
  lemma NotContainsByChar(s: string, sub: string, k: nat)
    requires k < |sub| && sub[k] !in s
    ensures !Contains(s, sub)
  {
  }

  // ---------------------------------------------------------------- strip

  /** s.lstrip() */
  function StripStart(s: string): (r: string)
    ensures |r| <= |s| && (r == [] || !IsSpace(r[0]))
  {
    if s != [] && IsSpace(s[0]) then StripStart(s[1..]) else s
  }

  /** s.rstrip() */
  function StripEnd(s: string): string {
    if s != [] && IsSpace(s[|s| - 1]) then StripEnd(s[..|s| - 1]) else s
  }

  /** s.strip() */
  function Strip(s: string): string {
    StripEnd(StripStart(s))
  }

  /** lstrip() drops a prefix: the result is s[i..] for the returned i. */
  lemma {:induction false} StripStartShape(s: string) returns (i: nat)
    ensures i <= |s| && StripStart(s) == s[i..]
  {
    if s != [] && IsSpace(s[0]) {
      var j := StripStartShape(s[1..]);
      i := j + 1;
      assert s[1..][j..] == s[i..];
    } else {
      i := 0;
    }
  }

  /** rstrip() drops a suffix, and leaves no whitespace at the end: the result is s[..k] for the returned k. */
  lemma {:induction false} StripEndShape(s: string) returns (k: nat)
    ensures k <= |s| && StripEnd(s) == s[..k]
    ensures k == 0 || !IsSpace(s[k - 1])
  {
    if s != [] && IsSpace(s[|s| - 1]) {
      k := StripEndShape(s[..|s| - 1]);
      assert s[..|s| - 1][..k] == s[..k];
    } else {
      k := |s|;
    }
  }

  /** strip() leaves neither end on whitespace, and what it returns is a slice of its argument. */
  lemma Stripped(s: string)
    ensures Strip(s) == [] || (!IsSpace(Strip(s)[0]) && !IsSpace(Strip(s)[|Strip(s)| - 1]))
    ensures exists i, j :: 0 <= i <= j <= |s| && Strip(s) == s[i..j]
  {
    var i := StripStartShape(s);
    var t := StripStart(s);
    var k := StripEndShape(t);
    assert t[..k] == s[i..i + k];
    if k > 0 {
      assert Strip(s)[0] == t[0];
      assert Strip(s)[k - 1] == t[k - 1];
    }
  }

  /** Text already free of surrounding whitespace is left as it is. */
  lemma StripUnchanged(s: string)
    requires s == [] || (!IsSpace(s[0]) && !IsSpace(s[|s| - 1]))
    ensures Strip(s) == s
  {
  }

  /** s.strip(c), for a one-character argument c. */
  function StripChar(s: string, c: char): string {
    StripCharEnd(StripCharStart(s, c), c)
  }

  function StripCharStart(s: string, c: char): string {
    if s != [] && s[0] == c then StripCharStart(s[1..], c) else s
  }

  function StripCharEnd(s: string, c: char): string {
    if s != [] && s[|s| - 1] == c then StripCharEnd(s[..|s| - 1], c) else s
  }

  // ---------------------------------------------------------------- replace

  /** s.replace(c, "") */
  function RemoveChar(s: string, c: char): (r: string)
    ensures |r| <= |s|
    ensures forall j :: 0 <= j < |r| ==> r[j] != c && r[j] in s
    ensures c !in s ==> r == s
  {
    if s == [] then [] else (if s[0] == c then [] else [s[0]]) + RemoveChar(s[1..], c)
  }

  // ---------------------------------------------------------------- split()

  /** What s.split() yields: non-empty runs of non-whitespace characters. */
  predicate IsWord(w: string) {
    w != [] && forall j :: 0 <= j < |w| ==> !IsSpace(w[j])
  }

  /** The index of the first whitespace character of s, or |s|. */
  function WordEnd(s: string): (k: nat)
    ensures k <= |s|
    ensures forall j :: 0 <= j < k ==> !IsSpace(s[j])
    ensures k == |s| || IsSpace(s[k])
  {
    if s == [] || IsSpace(s[0]) then 0 else 1 + WordEnd(s[1..])
  }

  /** s.split() with no argument. */
  function Split(s: string): (words: seq<string>)
    ensures forall w :: w in words ==> IsWord(w)
    decreases |s|
  {
    var t := StripStart(s);
    if t == [] then []
    else
      var k := WordEnd(t);
      [t[..k]] + Split(t[k..])
  }

  lemma {:induction false} StripStartSpaces(w: string, rest: string)
    requires forall j :: 0 <= j < |w| ==> IsSpace(w[j])
    ensures StripStart(w + rest) == StripStart(rest)
  {
    if w != [] {
      assert (w + rest)[1..] == w[1..] + rest;
      StripStartSpaces(w[1..], rest);
    } else {
      assert w + rest == rest;
    }
  }

  lemma {:induction false} WordEndAppend(w: string, rest: string)
    requires forall j :: 0 <= j < |w| ==> !IsSpace(w[j])
    requires rest == [] || IsSpace(rest[0])
    ensures WordEnd(w + rest) == |w|
  {
    if w != [] {
      assert (w + rest)[1..] == w[1..] + rest;
      WordEndAppend(w[1..], rest);
    } else {
      assert w + rest == rest;
    }
  }

  /** Leading whitespace does not change what split() yields. */
  lemma SplitSkipsSpace(w: string, rest: string)
    requires forall j :: 0 <= j < |w| ==> IsSpace(w[j])
    ensures Split(w + rest) == Split(rest)
  {
    StripStartSpaces(w, rest);
  }

  /** A word followed by whitespace (or nothing) is the first thing split() yields. */
  lemma SplitWordFirst(w: string, rest: string)
    requires IsWord(w)
    requires rest == [] || IsSpace(rest[0])
    ensures Split(w + rest) == [w] + Split(rest)
  {
    var s := w + rest;
    assert StripStart(s) == s;
    WordEndAppend(w, rest);
    assert s[..|w|] == w && s[|w|..] == rest;
  }

  /** split() undoes joining words with single spaces. */
  lemma {:induction false} SplitJoinWords(words: seq<string>)
    requires forall w :: w in words ==> IsWord(w)
    ensures Split(Join(" ", words)) == words
  {
    if |words| == 0 {
    } else if |words| == 1 {
      SplitWordFirst(words[0], "");
      assert words[0] + "" == words[0];
    } else {
      var rest := Join(" ", words[1..]);
      assert Join(" ", words) == words[0] + (" " + rest);
      SplitWordFirst(words[0], " " + rest);
      SplitSkipsSpace(" ", rest);
      SplitJoinWords(words[1..]);
    }
  }

  // ---------------------------------------------------------------- split(c), join

  /** sep.join(parts) */
  function Join(sep: string, parts: seq<string>): string
    decreases |parts|
  {
    if |parts| == 0 then ""
    else if |parts| == 1 then parts[0]
    else parts[0] + sep + Join(sep, parts[1..])
  }

  /** s.split(c) for a one-character separator c: empty parts are kept. */
  function SplitOn(s: string, c: char): (parts: seq<string>)
    ensures |parts| >= 1
    ensures forall p :: p in parts ==> c !in p
  {
    if s == [] then [""]
    else
      var rest := SplitOn(s[1..], c);
      if s[0] == c then [""] + rest else [[s[0]] + rest[0]] + rest[1..]
  }

  lemma {:induction false} SplitOnPrefix(p: string, s: string, c: char)
    requires c !in p
    ensures SplitOn(p + s, c) == [p + SplitOn(s, c)[0]] + SplitOn(s, c)[1..]
  {
    if p == [] {
      assert p + s == s;
      assert p + SplitOn(s, c)[0] == SplitOn(s, c)[0];
    } else {
      assert (p + s)[1..] == p[1..] + s;
      SplitOnPrefix(p[1..], s, c);
      assert [p[0]] + (p[1..] + SplitOn(s, c)[0]) == p + SplitOn(s, c)[0];
    }
  }

  /** split(c) undoes join with c, provided no part contains c. */
  lemma {:induction false} SplitOnJoin(parts: seq<string>, c: char)
    requires |parts| >= 1
    requires forall p :: p in parts ==> c !in p
    ensures SplitOn(Join([c], parts), c) == parts
  {
    if |parts| == 1 {
      SplitOnPrefix(parts[0], "", c);
      assert parts[0] + "" == parts[0];
    } else {
      var rest := Join([c], parts[1..]);
      assert Join([c], parts) == parts[0] + ([c] + rest);
      SplitOnPrefix(parts[0], [c] + rest, c);
      assert ([c] + rest)[1..] == rest;
      SplitOnJoin(parts[1..], c);
      assert parts[0] + "" == parts[0];
    }
  }

  lemma JoinHeadAppend(sep: string, x: string, parts: seq<string>)
    requires |parts| >= 1
    ensures Join(sep, [x + parts[0]] + parts[1..]) == x + Join(sep, parts)
  {
    var q := [x + parts[0]] + parts[1..];
    if |parts| > 1 {
      assert q[1..] == parts[1..];
    }
  }

  /** join with c undoes split(c). */
  lemma {:induction false} JoinSplitOn(s: string, c: char)
    ensures Join([c], SplitOn(s, c)) == s
  {
    if s != [] {
      var rest := SplitOn(s[1..], c);
      JoinSplitOn(s[1..], c);
      if s[0] == c {
        assert ([""] + rest)[1..] == rest;
        assert s == [c] + s[1..];
      } else {
        JoinHeadAppend([c], [s[0]], rest);
        assert s == [s[0]] + s[1..];
      }
    }
  }

  // ---------------------------------------------------------------- splitlines()

  predicate IsLine(l: string) {
    forall j :: 0 <= j < |l| ==> !IsLineBreak(l[j])
  }

  /** The index of the first line boundary in s, or |s|. */
  function LineEnd(s: string): (k: nat)
    ensures k <= |s|
    ensures forall j :: 0 <= j < k ==> !IsLineBreak(s[j])
    ensures k == |s| || IsLineBreak(s[k])
  {
    if s == [] || IsLineBreak(s[0]) then 0 else 1 + LineEnd(s[1..])
  }

  /** s.splitlines() */
  function SplitLines(s: string): (lines: seq<string>)
    ensures forall l :: l in lines ==> IsLine(l)
    decreases |s|
  {
    if s == [] then []
    else
      var k := LineEnd(s);
      if k == |s| then [s]
      else
        var next := if s[k] == '\r' && k + 1 < |s| && s[k + 1] == '\n' then k + 2 else k + 1;
        [s[..k]] + SplitLines(s[next..])
  }

  lemma {:induction false} LineEndAppend(l: string, rest: string)
    requires IsLine(l)
    requires rest == [] || IsLineBreak(rest[0])
    ensures LineEnd(l + rest) == |l|
  {
    if l == [] {
      assert l + rest == rest;
    } else {
      assert (l + rest)[1..] == l[1..] + rest;
      LineEndAppend(l[1..], rest);
    }
  }

  lemma SplitLinesFirst(l: string, rest: string)
    requires IsLine(l)
    ensures SplitLines(l + "\n" + rest) == [l] + SplitLines(rest)
  {
    var s := l + "\n" + rest;
    assert s == l + ("\n" + rest);
    LineEndAppend(l, "\n" + rest);
    assert s[..|l|] == l;
    assert s[|l| + 1..] == rest;
  }

  /** splitlines() undoes a join with "\n" of lines free of line breaks, the last one non-empty. */
  lemma {:induction false} SplitLinesJoin(lines: seq<string>)
    requires forall l :: l in lines ==> IsLine(l)
    requires lines == [] || lines[|lines| - 1] != ""
    ensures SplitLines(Join("\n", lines)) == lines
  {
    if |lines| == 1 {
      LineEndAppend(lines[0], "");
      assert lines[0] + "" == lines[0];
    } else if |lines| > 1 {
      SplitLinesFirst(lines[0], Join("\n", lines[1..]));
      SplitLinesJoin(lines[1..]);
    }
  }

  // ---------------------------------------------------------------- slicing, upper()

  /** s[:n] for n >= 0 */
  function Truncate(s: string, n: nat): (r: string)
    ensures StartsWith(s, r)
    ensures |r| == if |s| <= n then |s| else n
  {
    if |s| <= n then s else s[..n]
  }

  /** xs[:n] for n >= 0 */
  function Take<T>(xs: seq<T>, n: nat): seq<T> {
    if |xs| <= n then xs else xs[..n]
  }

  /** xs[n:] for n >= 0 */
  function Drop<T>(xs: seq<T>, n: nat): seq<T> {
    if |xs| <= n then [] else xs[n..]
  }

  /** xs[-n:] for n > 0 */
  function TakeLast<T>(xs: seq<T>, n: nat): seq<T> {
    if |xs| <= n then xs else xs[|xs| - n..]
  }

  /** c.upper() for ASCII letters; every other character is left as it is. */
  function UpperChar(c: char): char {
    if 'a' <= c <= 'z' then (c as int - 32) as char else c
  }

  /** s.upper() */
  function Upper(s: string): (r: string)
    ensures |r| == |s|
    ensures forall i :: 0 <= i < |s| ==> r[i] == UpperChar(s[i])
  {
    if s == [] then [] else [UpperChar(s[0])] + Upper(s[1..])
  }

  // ---------------------------------------------------------------- int(), str(int)

  predicate IsDigit(c: char) {
    '0' <= c <= '9'
  }

  predicate AllDigits(s: string) {
    forall j :: 0 <= j < |s| ==> IsDigit(s[j])
  }

  function DigitValue(c: char): nat
    requires IsDigit(c)
  {
    c as int - '0' as int
  }

  function DigitChar(d: nat): (c: char)
    requires d < 10
    ensures IsDigit(c) && DigitValue(c) == d
  {
    ('0' as int + d) as char
  }

  /** The value of a string of ASCII digits read in base 10. */
  function DigitsValue(ds: string): nat
    requires AllDigits(ds)
  {
    if ds == [] then 0 else 10 * DigitsValue(ds[..|ds| - 1]) + DigitValue(ds[|ds| - 1])
  }

  /** str(n) for n >= 0 */
  function NatToString(n: nat): (s: string)
    ensures s != [] && AllDigits(s)
    ensures DigitsValue(s) == n
  {
    if n < 10 then [DigitChar(n)]
    else
      var prefix := NatToString(n / 10);
      var s := prefix + [DigitChar(n % 10)];
      assert s[..|s| - 1] == prefix;
      s
  }

  /** str(i) */
  function IntToString(i: int): string {
    if i < 0 then "-" + NatToString(-i) else NatToString(i)
  }

  /**
   * int(b) for an unsigned digit string b: ASCII digits, with single underscores allowed between
   * two digits; None where Python raises ValueError.
   */
  function ParseDigits(b: string): Option<nat>
    decreases |b|
  {
    if b == [] || !IsDigit(b[|b| - 1]) then None
    else if |b| == 1 then Some(DigitValue(b[0]))
    else
      var init := b[..|b| - 1];
      var front := if init[|init| - 1] == '_' then init[..|init| - 1] else init;
      match ParseDigits(front)
      case None => None
      case Some(v) => Some(10 * v + DigitValue(b[|b| - 1]))
  }

  /** int(s) in base 10; None where Python raises ValueError. */
  function ParseInt(s: string): (r: Option<int>)
  {
    ParseSigned(Strip(s))
  }

  /** int() of an already stripped string: an optional sign, then a digit group. */
  function ParseSigned(t: string): (r: Option<int>)
  {
    if t != [] && t[0] == '-' then
      (match ParseDigits(t[1..]) case None => None case Some(v) => Some(-(v as int)))
    else
      var b := if t != [] && t[0] == '+' then t[1..] else t;
      (match ParseDigits(b) case None => None case Some(v) => Some(v as int))
  }

  /** A plain numeral is read as its value. */
  lemma {:induction false} DigitsAreGroup(d: string)
    requires d != [] && AllDigits(d)
    ensures ParseDigits(d) == Some(DigitsValue(d))
  {
    if |d| > 1 {
      var init := d[..|d| - 1];
      assert AllDigits(init);
      DigitsAreGroup(init);
    } else {
      assert d[..0] == [];
    }
  }

  /** Underscores may only separate digits. */
  lemma UnderscoreExamples()
    ensures ParseDigits("1_000") == Some(1000)
    ensures ParseDigits("1__0") == None && ParseDigits("_1") == None && ParseDigits("1_") == None
  {
    assert "1_000"[..4] == "1_00" && "1_00"[..3] == "1_0" && "1_0"[..2] == "1_" && "1_"[..1] == "1";
    assert "1__0"[..3] == "1__" && "1__"[..2] == "1_";
    assert "_1"[..1] == "_" && "_"[..0] == "";
  }

  lemma ParseSignedDigits(s: string, v: nat)
    requires s != [] && s[0] != '+'
    requires ParseDigits(if s[0] == '-' then s[1..] else s) == Some(v)
    ensures ParseSigned(s) == Some(if s[0] == '-' then -(v as int) else v)
  {
    if s[0] == '-' {
      assert ParseDigits(s[1..]) == Some(v);
    } else {
      assert ParseDigits(s) == Some(v);
    }
  }

  lemma ParseIntClean(s: string, v: nat)
    requires Strip(s) == s && s != [] && s[0] != '+'
    requires ParseDigits(if s[0] == '-' then s[1..] else s) == Some(v)
    ensures ParseInt(s) == Some(if s[0] == '-' then -(v as int) else v)
  {
    ParseSignedDigits(s, v);
    assert ParseInt(s) == ParseSigned(s);
  }

  /** int() reads back what str() writes. */
  lemma ParseIntToString(i: int)
    ensures ParseInt(IntToString(i)) == Some(i)
  {
    var n: nat := if i < 0 then -i else i;
    var digits := NatToString(n);
    var s := IntToString(i);
    assert s == if i < 0 then "-" + digits else digits;
    assert Strip(s) == s by {
      assert !IsSpace(s[0]) && !IsSpace(s[|s| - 1]);
      StripUnchanged(s);
    }
    assert s[0] == '-' <==> i < 0;
    assert (if s[0] == '-' then s[1..] else s) == digits;
    DigitsAreGroup(digits);
    ParseIntClean(s, n);
  }
}
