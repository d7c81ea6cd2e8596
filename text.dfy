/**
  String helpers shared by the model: substring search, prefixes and
  suffixes, Python's notion of whitespace and `strip()`, `str.replace`,
  `str.split` on one character and `sep.join`, and decimal numerals
  (Python's `str(i)` for a non-negative `i`).
*/
module Text {

  /** `t` occurs in `s` starting at index `k`. */
  predicate OccursAt(t: string, s: string, k: int) {
    0 <= k && k + |t| <= |s| && s[k..k + |t|] == t
  }

  /** Python's `t in s` for strings. */
  predicate IsSubstring(t: string, s: string) {
    exists k :: 0 <= k <= |s| - |t| && OccursAt(t, s, k)
  }

  predicate StartsWith(s: string, prefix: string) {
    |prefix| <= |s| && s[..|prefix|] == prefix
  }

  predicate EndsWith(s: string, suffix: string) {
    |suffix| <= |s| && s[|s| - |suffix|..] == suffix
  }

  lemma SubstringOfConcat(a: string, t: string, b: string)
    ensures IsSubstring(t, a + t + b)
  {
    assert (a + t + b)[|a|..|a| + |t|] == t;
    assert OccursAt(t, a + t + b, |a|);
  }

  /** A concatenation starts with its first part and ends with its last. */
  lemma ConcatFrame(a: string, b: string, c: string)
    ensures StartsWith(a + b + c, a) && EndsWith(a + b + c, c)
  {
    assert (a + b + c)[..|a|] == a;
    assert (a + b + c)[|a + b + c| - |c|..] == c;
  }

  /** Three values laid into a four-piece template. */
  function Fill(a: string, x: string, b: string, y: string, c: string, z: string, d: string): string {
    a + x + b + y + c + z + d
  }

  lemma FillMentions(a: string, x: string, b: string, y: string, c: string, z: string, d: string)
    ensures IsSubstring(x, Fill(a, x, b, y, c, z, d))
    ensures IsSubstring(y, Fill(a, x, b, y, c, z, d))
    ensures IsSubstring(z, Fill(a, x, b, y, c, z, d))
  {
    var p := Fill(a, x, b, y, c, z, d);
    assert p == a + x + (b + y + c + z + d);
    SubstringOfConcat(a, x, b + y + c + z + d);
    assert p == (a + x + b) + y + (c + z + d);
    SubstringOfConcat(a + x + b, y, c + z + d);
    assert p == (a + x + b + y + c) + z + d;
    SubstringOfConcat(a + x + b + y + c, z, d);
  }

  lemma SubstringOfSubstring(t: string, s: string, u: string)
    requires IsSubstring(t, s) && IsSubstring(s, u)
    ensures IsSubstring(t, u)
  {
    var i :| 0 <= i <= |s| - |t| && OccursAt(t, s, i);
    var j :| 0 <= j <= |u| - |s| && OccursAt(s, u, j);
    SliceOfSlice(u, j, j + |s|, i, i + |t|);
    assert OccursAt(t, u, j + i);
  }

  lemma SliceOfSlice(u: string, a: int, b: int, c: int, d: int)
    requires 0 <= a <= b <= |u| && 0 <= c <= d <= b - a
    ensures u[a..b][c..d] == u[a + c..a + d]
  {
    forall x | 0 <= x < d - c
      ensures u[a..b][c..d][x] == u[a + c..a + d][x]
    {
    }
  }

  /** The line `item` gives for each of `items`, concatenated in order:
      the text a `for` loop builds with `+=`. */
  function Lines(item: string -> string, items: seq<string>): string {
    if items == [] then "" else Lines(item, items[..|items| - 1]) + item(items[|items| - 1])
  }

  /** Every item's line is in the text. */
  lemma {:induction false} LinesListed(item: string -> string, items: seq<string>)
    ensures forall i :: 0 <= i < |items| ==> IsSubstring(item(items[i]), Lines(item, items))
  {
    if items != [] {
      var init := items[..|items| - 1];
      var last := item(items[|items| - 1]);
      var text := Lines(item, items);
      LinesListed(item, init);
      SubstringOfConcat("", Lines(item, init), last);
      assert "" + Lines(item, init) + last == text;
      SubstringOfConcat(Lines(item, init), last, "");
      assert Lines(item, init) + last + "" == text;
      forall i | 0 <= i < |init|
        ensures IsSubstring(item(items[i]), text)
      {
        assert init[i] == items[i];
        SubstringOfSubstring(item(items[i]), Lines(item, init), text);
      }
    }
  }

  /** The text is empty exactly when every item's line is. */
  lemma {:induction false} LinesEmptyIff(item: string -> string, items: seq<string>)
    ensures Lines(item, items) == "" <==> forall i :: 0 <= i < |items| ==> item(items[i]) == ""
  {
    if items != [] {
      var init := items[..|items| - 1];
      LinesEmptyIff(item, init);
      assert forall i :: 0 <= i < |init| ==> init[i] == items[i];
    }
  }

  /** One more item adds its line at the end. */
  lemma LinesSnoc(item: string -> string, items: seq<string>, n: nat)
    requires n < |items|
    ensures Lines(item, items[..n + 1]) == Lines(item, items[..n]) + item(items[n])
  {
    assert items[..n + 1][..n] == items[..n];
  }


  /** Python's `str.isspace()` for one character, which is also what `\s`
      matches in a `str` regular expression. */
  predicate IsSpace(c: char) {
    c == ' ' || ('\t' <= c <= '\r') || ('\U{1C}' <= c <= '\U{1F}') ||
    c == '\U{85}' || c == '\U{A0}' || c == '\U{1680}' ||
    ('\U{2000}' <= c <= '\U{200A}') || c == '\U{2028}' || c == '\U{2029}' ||
    c == '\U{202F}' || c == '\U{205F}' || c == '\U{3000}'
  }

  /** Drops leading whitespace. */
  function TrimStart(s: string): string
    decreases |s|
  {
    if s != [] && IsSpace(s[0]) then TrimStart(s[1..]) else s
  }

  /** What `TrimStart` keeps is a suffix that does not start with
      whitespace, and all it drops is whitespace. */
  lemma {:induction false} TrimStartShape(s: string)
    ensures |TrimStart(s)| <= |s| && TrimStart(s) == s[|s| - |TrimStart(s)|..]
    ensures TrimStart(s) == [] || !IsSpace(TrimStart(s)[0])
    ensures forall i :: 0 <= i < |s| - |TrimStart(s)| ==> IsSpace(s[i])
    decreases |s|
  {
    if s != [] && IsSpace(s[0]) {
      TrimStartShape(s[1..]);
      var r := TrimStart(s[1..]);
      assert s[1..][|s| - 1 - |r|..] == s[|s| - |r|..];
      forall i | 0 <= i < |s| - |r|
        ensures IsSpace(s[i])
      {
        if i > 0 {
          assert s[i] == s[1..][i - 1];
        }
      }
    }
  }

  /** Drops trailing whitespace. */
  function TrimEnd(s: string): string
    decreases |s|
  {
    if s != [] && IsSpace(s[|s| - 1]) then TrimEnd(s[..|s| - 1]) else s
  }

  /** What `TrimEnd` keeps is a prefix that does not end with whitespace,
      and all it drops is whitespace. */
  lemma {:induction false} TrimEndShape(s: string)
    ensures |TrimEnd(s)| <= |s| && TrimEnd(s) == s[..|TrimEnd(s)|]
    ensures TrimEnd(s) == [] || !IsSpace(TrimEnd(s)[|TrimEnd(s)| - 1])
    ensures forall i :: |TrimEnd(s)| <= i < |s| ==> IsSpace(s[i])
    decreases |s|
  {
    if s != [] && IsSpace(s[|s| - 1]) {
      TrimEndShape(s[..|s| - 1]);
      var r := TrimEnd(s[..|s| - 1]);
      assert s[..|s| - 1][..|r|] == s[..|r|];
      forall i | |r| <= i < |s|
        ensures IsSpace(s[i])
      {
        if i < |s| - 1 {
          assert s[i] == s[..|s| - 1][i];
        }
      }
    }
  }

  /** Python's `str.strip()` with no argument. */
  function Strip(s: string): string {
    TrimEnd(TrimStart(s))
  }

  /** `strip()` leaves no whitespace at either end. */
  lemma StripEnds(s: string)
    ensures Strip(s) == [] || (!IsSpace(Strip(s)[0]) && !IsSpace(Strip(s)[|Strip(s)| - 1]))
  {
    var a := TrimStart(s);
    TrimStartShape(s);
    TrimEndShape(a);
    var r := TrimEnd(a);
    if r != [] {
      assert r[0] == a[0];
    }
  }

  /** `strip()` keeps a slice of the string. */
  lemma StripShape(s: string)
    ensures |TrimStart(s)| <= |s|
    ensures OccursAt(Strip(s), s, |s| - |TrimStart(s)|)
  {
    var a := TrimStart(s);
    var r := TrimEnd(a);
    TrimStartShape(s);
    TrimEndShape(a);
    SliceOfSlice(s, |s| - |a|, |s|, 0, |r|);
  }

  /** A string without whitespace at either end is its own `strip()`. */
  lemma StripFixed(s: string)
    requires s == [] || (!IsSpace(s[0]) && !IsSpace(s[|s| - 1]))
    ensures Strip(s) == s
  {
  }

  /** `line.strip()` is falsy exactly when the line is all whitespace. */
  lemma StripEmptyIff(s: string)
    ensures Strip(s) == "" <==> forall i :: 0 <= i < |s| ==> IsSpace(s[i])
  {
    var a := TrimStart(s);
    TrimStartShape(s);
    TrimEndShape(a);
    if a != [] {
      assert a[0] == s[|s| - |a|];
    }
  }

  /** Python's `s.replace(p, r)`: every non-overlapping occurrence of `p`,
      scanning from the left, is replaced by `r`. */
  function Replace(s: string, p: string, r: string): string
    requires |p| > 0
    decreases |s|
  {
    if |s| < |p| then s
    else if s[..|p|] == p then r + Replace(s[|p|..], p, r)
    else [s[0]] + Replace(s[1..], p, r)
  }

  /** No character of `t` is a character of `r`. */
  predicate Disjoint(t: string, r: string) {
    forall i, j :: 0 <= i < |t| && 0 <= j < |r| ==> t[i] != r[j]
  }

  /** A prefix of the output of `Replace` that holds no character of the
      replacement is an untouched prefix of the input. */
  lemma {:induction false} ReplacePrefix(s: string, p: string, r: string, m: nat)
    requires |p| > 0 && |r| > 0
    requires m <= |Replace(s, p, r)|
    ensures Disjoint(Replace(s, p, r)[..m], r) ==> m <= |s| && s[..m] == Replace(s, p, r)[..m]
    decreases |s|
  {
    var out := Replace(s, p, r);
    if m == 0 || |s| < |p| {
    } else if s[..|p|] == p {
      assert out[..m][0] == r[0];
    } else {
      var rest := Replace(s[1..], p, r);
      assert out == [s[0]] + rest;
      assert out[..m] == [s[0]] + rest[..m - 1];
      assert rest[..m - 1] == out[..m][1..];
      ReplacePrefix(s[1..], p, r, m - 1);
      if m - 1 <= |s[1..]| {
        assert s[..m] == [s[0]] + s[1..][..m - 1];
      }
    }
  }

  /** A string absent from `s` is absent from every suffix of `s`. */
  lemma AbsentFromSuffix(t: string, s: string, d: nat)
    requires d <= |s| && !IsSubstring(t, s)
    ensures !IsSubstring(t, s[d..])
  {
    forall k | 0 <= k <= |s[d..]| - |t|
      ensures !OccursAt(t, s[d..], k)
    {
      assert !OccursAt(t, s, d + k);
      assert s[d..][k..k + |t|] == s[d + k..d + k + |t|];
    }
  }

  lemma OccursFirst(t: string, s: string, k: int)
    requires |t| > 0
    ensures OccursAt(t, s, k) ==> s[k] == t[0]
  {
    if OccursAt(t, s, k) {
      assert s[k..k + |t|][0] == s[k];
    }
  }

  /** An occurrence in `x + y` that starts after `x` is an occurrence in `y`. */
  lemma OccurrenceAfterPrefix(t: string, x: string, y: string, k: int)
    requires OccursAt(t, x + y, k) && k >= |x|
    ensures IsSubstring(t, y)
  {
    SliceOfSlice(x + y, |x|, |x + y|, k - |x|, k - |x| + |t|);
    assert (x + y)[|x|..] == y;
    assert OccursAt(t, y, k - |x|);
  }

  /** `Replace` creates no occurrence of a string `t` that shares no
      character with the replacement, and removes every occurrence of the
      pattern itself. */
  lemma {:induction false} ReplaceCreatesNoOccurrence(s: string, p: string, r: string, t: string)
    requires |p| > 0 && |r| > 0 && |t| > 0
    requires Disjoint(t, r)
    requires t == p || !IsSubstring(t, s)
    ensures !IsSubstring(t, Replace(s, p, r))
    decreases |s|
  {
    var out := Replace(s, p, r);
    if |s| < |p| {
    } else if s[..|p|] == p {
      if t != p {
        AbsentFromSuffix(t, s, |p|);
      }
      ReplaceCreatesNoOccurrence(s[|p|..], p, r, t);
      ReplaceMatchNoOccurrence(s, p, r, t);
    } else {
      if t != p {
        AbsentFromSuffix(t, s, 1);
      }
      ReplaceCreatesNoOccurrence(s[1..], p, r, t);
      ReplaceSkipNoOccurrence(s, p, r, t);
    }
  }

  /** The step of `ReplaceCreatesNoOccurrence` where the pattern matches at 0. */
  lemma ReplaceMatchNoOccurrence(s: string, p: string, r: string, t: string)
    requires 0 < |p| <= |s| && s[..|p|] == p && |t| > 0
    requires Disjoint(t, r)
    requires !IsSubstring(t, Replace(s[|p|..], p, r))
    ensures !IsSubstring(t, Replace(s, p, r))
  {
    var rest := Replace(s[|p|..], p, r);
    var out := Replace(s, p, r);
    assert out == r + rest;
    forall k | 0 <= k <= |out| - |t|
      ensures !OccursAt(t, out, k)
    {
      if k < |r| {
        assert out[k] == r[k];
        OccursFirst(t, out, k);
      } else if OccursAt(t, out, k) {
        OccurrenceAfterPrefix(t, r, rest, k);
      }
    }
  }

  /** The step of `ReplaceCreatesNoOccurrence` where the first character is kept. */
  lemma ReplaceSkipNoOccurrence(s: string, p: string, r: string, t: string)
    requires 0 < |p| <= |s| && s[..|p|] != p && |t| > 0 && |r| > 0
    requires Disjoint(t, r)
    requires t == p || !IsSubstring(t, s)
    requires !IsSubstring(t, Replace(s[1..], p, r))
    ensures !IsSubstring(t, Replace(s, p, r))
  {
    var rest := Replace(s[1..], p, r);
    var out := Replace(s, p, r);
    assert out == [s[0]] + rest;
    forall k | 0 <= k <= |out| - |t|
      ensures !OccursAt(t, out, k)
    {
      if k == 0 {
        ReplacePrefix(s, p, r, |t|);
        assert OccursAt(t, out, 0) ==> out[..|t|] == t;
        assert OccursAt(t, out, 0) ==> OccursAt(t, s, 0);
      } else if OccursAt(t, out, k) {
        OccurrenceAfterPrefix(t, [s[0]], rest, k);
      }
    }
  }

  /** Replacing a pattern that does not occur changes nothing. */
  lemma {:induction false} ReplaceAbsent(s: string, p: string, r: string)
    requires |p| > 0
    requires !IsSubstring(p, s)
    ensures Replace(s, p, r) == s
    decreases |s|
  {
    if |s| < |p| {
    } else {
      assert !OccursAt(p, s, 0);
      assert s[..|p|] == s[0..|p|];
      if IsSubstring(p, s[1..]) {
        var k :| 0 <= k <= |s[1..]| - |p| && OccursAt(p, s[1..], k);
        assert s[1 + k..1 + k + |p|] == p;
        assert OccursAt(p, s, 1 + k);
      }
      ReplaceAbsent(s[1..], p, r);
    }
  }

  /** For a one-character pattern and replacement, `Replace` maps the
      string character by character. */
  lemma {:induction false} ReplaceChar(s: string, c: char, d: char)
    ensures |Replace(s, [c], [d])| == |s|
    ensures forall i :: 0 <= i < |s| ==>
      Replace(s, [c], [d])[i] == (if s[i] == c then d else s[i])
    decreases |s|
  {
    if s != [] {
      ReplaceChar(s[1..], c, d);
      assert s[..1] == [s[0]];
    }
  }

  /** Python's `s.find(t, i)`: the first index from `i` on where `t`
      occurs, or -1. */
  function FindFrom(t: string, s: string, i: nat): (k: int)
    ensures k == -1 || (i <= k && OccursAt(t, s, k))
    ensures forall j :: i <= j && (k == -1 || j < k) ==> !OccursAt(t, s, j)
    decreases |s| - i
  {
    if i + |t| > |s| then -1
    else if s[i..i + |t|] == t then i
    else FindFrom(t, s, i + 1)
  }

  /** Python's `s.find(t)`; `t in s` exactly when it is not -1. */
  function Find(t: string, s: string): (k: int)
    ensures k == -1 <==> !IsSubstring(t, s)
    ensures k != -1 ==> 0 <= k && OccursAt(t, s, k) && forall j :: 0 <= j < k ==> !OccursAt(t, s, j)
  {
    FindFrom(t, s, 0)
  }

  /** Python's `s.split(sep)` for a one-character separator. */
  function Split(s: string, sep: char): (parts: seq<string>)
    ensures |parts| >= 1
    decreases |s|
  {
    if s == [] then [""]
    else
      var rest := Split(s[1..], sep);
      if s[0] == sep then [""] + rest else [[s[0]] + rest[0]] + rest[1..]
  }

  /** Python's `sep.join(parts)` for a one-character separator. */
  function Join(parts: seq<string>, sep: char): string {
    if parts == [] then ""
    else if |parts| == 1 then parts[0]
    else parts[0] + [sep] + Join(parts[1..], sep)
  }

  lemma {:induction false} JoinSplit(s: string, sep: char)
    ensures Join(Split(s, sep), sep) == s
    decreases |s|
  {
    if s != [] {
      var rest := Split(s[1..], sep);
      JoinSplit(s[1..], sep);
      if s[0] == sep {
        assert Split(s, sep) == [""] + rest;
      } else {
        var parts := Split(s, sep);
        assert parts == [[s[0]] + rest[0]] + rest[1..];
        if |rest| == 1 {
        } else {
          assert rest == [rest[0]] + rest[1..];
          assert Join(rest, sep) == rest[0] + [sep] + Join(rest[1..], sep);
          assert parts[1..] == rest[1..];
        }
      }
    }
  }

  lemma {:induction false} SplitNoSeparator(p: string, sep: char, t: string)
    requires forall i :: 0 <= i < |p| ==> p[i] != sep
    ensures Split(p + t, sep) == [p + Split(t, sep)[0]] + Split(t, sep)[1..]
    decreases |p|
  {
    if p != [] {
      assert (p + t)[1..] == p[1..] + t;
      SplitNoSeparator(p[1..], sep, t);
      assert [p[0]] + (p[1..] + Split(t, sep)[0]) == p + Split(t, sep)[0];
    } else {
      assert p + t == t;
      assert p + Split(t, sep)[0] == Split(t, sep)[0];
      assert Split(t, sep) == [Split(t, sep)[0]] + Split(t, sep)[1..];
    }
  }

  /** Splitting a join gives the parts back when no part holds the separator. */
  lemma {:induction false} SplitJoin(parts: seq<string>, sep: char)
    requires parts != []
    requires forall k, i :: 0 <= k < |parts| && 0 <= i < |parts[k]| ==> parts[k][i] != sep
    ensures Split(Join(parts, sep), sep) == parts
    decreases |parts|
  {
    if |parts| == 1 {
      SplitNoSeparator(parts[0], sep, "");
      assert parts[0] + "" == parts[0];
    } else {
      var tail := Join(parts[1..], sep);
      SplitJoin(parts[1..], sep);
      assert Join(parts, sep) == parts[0] + ([sep] + tail);
      SplitNoSeparator(parts[0], sep, [sep] + tail);
      assert ([sep] + tail)[1..] == tail;
      var x := Split([sep] + tail, sep);
      assert x == [""] + parts[1..];
      assert x[0] == "" && x[1..] == parts[1..];
      assert parts[0] + x[0] == parts[0];
      assert [parts[0]] + parts[1..] == parts;
    }
  }

  function DigitChar(d: nat): char
    requires d < 10
  {
    ('0' as int + d) as char
  }

  predicate IsDigit(c: char) { '0' <= c <= '9' }

  function DigitValue(c: char): nat
    requires IsDigit(c)
  {
    (c - '0') as nat
  }

  /** Python's `str(n)` for a non-negative integer. */
  function NatToString(n: nat): (s: string)
    ensures |s| >= 1
    ensures forall i :: 0 <= i < |s| ==> IsDigit(s[i])
    ensures s[0] == '0' ==> n == 0
  {
    if n < 10 then [DigitChar(n)] else NatToString(n / 10) + [DigitChar(n % 10)]
  }

  /** The value of a string of decimal digits. */
  function DigitsValue(s: string): nat
    requires forall i :: 0 <= i < |s| ==> IsDigit(s[i])
  {
    if s == [] then 0 else DigitsValue(s[..|s| - 1]) * 10 + DigitValue(s[|s| - 1])
  }

  /** Decimal numerals read back as the number they spell. */
  lemma {:induction false} NatToStringRoundTrip(n: nat)
    ensures DigitsValue(NatToString(n)) == n
  {
    var s := NatToString(n);
    if n >= 10 {
      NatToStringRoundTrip(n / 10);
      assert s[..|s| - 1] == NatToString(n / 10);
      assert DigitValue(s[|s| - 1]) == n % 10;
      assert DigitsValue(s) == (n / 10) * 10 + n % 10;
    } else {
      assert DigitsValue(s) == DigitsValue([]) * 10 + DigitValue(s[0]);
    }
  }

  lemma NatToStringInjective(m: nat, n: nat)
    requires NatToString(m) == NatToString(n)
    ensures m == n
  {
    NatToStringRoundTrip(m);
    NatToStringRoundTrip(n);
  }

  /** Identifiers made of one prefix and distinct numbers are distinct. */
  lemma NumberedDistinct(prefix: string, m: nat, n: nat)
    requires m != n
    ensures prefix + NatToString(m) != prefix + NatToString(n)
  {
    if prefix + NatToString(m) == prefix + NatToString(n) {
      assert (prefix + NatToString(m))[|prefix|..] == NatToString(m);
      assert (prefix + NatToString(n))[|prefix|..] == NatToString(n);
      NatToStringInjective(m, n);
    }
  }
}
