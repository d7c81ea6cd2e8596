/**
  The persona-dataset generator: for each persona, ten turns of a user
  question, ten candidate replies parsed from a numbered list, and a
  judge's pick of the winner, which becomes the assistant message. The
  three model calls are oracles; the text clean-up, the list parsing, the
  integer fallback and the history bookkeeping are modelled exactly.
*/
module GeneratePersonas {
  import opened Chat
  import opened Text

  // ---------------------------------------------------------------------
  // clean_text

  /** The substitutions, in the order they are applied: typographic
      quotes, dashes and the ellipsis, then the UTF-8-read-as-Mac-Roman
      forms of the right single quote and the two double quotes. */
  const SUBSTITUTIONS: seq<(string, string)> := [
    ("\U{2019}", "'"),
    ("\U{2014}", "-"),
    ("\U{2013}", "-"),
    ("\U{201C}", "\""),
    ("\U{201D}", "\""),
    ("\U{2026}", "..."),
    ("\U{201A}\U{C4}\U{F4}", "'"),
    ("\U{201A}\U{C4}\U{FA}", "\""),
    ("\U{201A}\U{C4}\U{F9}", "\"")
  ]

  /** A pattern: non-empty, and made of non-ASCII characters that are not
      whitespace. */
  predicate Pattern(t: string) {
    |t| > 0 && forall i :: 0 <= i < |t| ==> t[i] >= '\U{80}' && !IsSpace(t[i])
  }

  /** A replacement: non-empty, plain ASCII and free of whitespace. */
  predicate Ascii(r: string) {
    |r| > 0 && forall i :: 0 <= i < |r| ==> r[i] < '\U{80}' && !IsSpace(r[i])
  }

  predicate WellFormed(subs: seq<(string, string)>) {
    forall j :: 0 <= j < |subs| ==> Pattern(subs[j].0) && Ascii(subs[j].1)
  }

  lemma SubstitutionsWellFormed()
    ensures WellFormed(SUBSTITUTIONS)
  {
    forall j | 0 <= j < |SUBSTITUTIONS|
      ensures Pattern(SUBSTITUTIONS[j].0) && Ascii(SUBSTITUTIONS[j].1)
    {
    }
  }

  /** The `.replace` chain. */
  function Substitute(s: string, subs: seq<(string, string)>): string
    requires forall j :: 0 <= j < |subs| ==> |subs[j].0| > 0
    decreases |subs|
  {
    if subs == [] then s else Substitute(Replace(s, subs[0].0, subs[0].1), subs[1..])
  }

  /** `re.sub(r"\s+", " ", s)`: every maximal run of whitespace becomes a
      single space. */
  function Collapse(s: string): string {
    Squeeze(s, false)
  }

  /** The left-to-right scan behind `Collapse`: `inRun` says that a space
      was just emitted for the run of whitespace being read. */
  function Squeeze(s: string, inRun: bool): string
    decreases |s|
  {
    if s == [] then []
    else if IsSpace(s[0]) then (if inRun then Squeeze(s[1..], true) else " " + Squeeze(s[1..], true))
    else [s[0]] + Squeeze(s[1..], false)
  }

  /** The scan emits only plain spaces, never two in a row, and none first
      while inside a run. */
  lemma {:induction false} SqueezeShape(s: string, inRun: bool)
    ensures Collapsed(Squeeze(s, inRun))
    ensures inRun && Squeeze(s, inRun) != [] ==> !IsSpace(Squeeze(s, inRun)[0])
    decreases |s|
  {
    if s != [] {
      var next := IsSpace(s[0]);
      SqueezeShape(s[1..], next);
      var c := Squeeze(s[1..], next);
      var head := if !next then [s[0]] else if inRun then "" else " ";
      assert Squeeze(s, inRun) == head + c;
      forall i, j | 0 <= i < |head + c| && 0 <= j < |head + c| && j == i + 1
        ensures !(IsSpace((head + c)[i]) && IsSpace((head + c)[j]))
      {
        if i >= |head| {
          assert (head + c)[i] == c[i - |head|] && (head + c)[j] == c[j - |head|];
        }
      }
    }
  }
  /** `clean_text` */
  function CleanText(s: string): string {
    Strip(Collapse(Substitute(s, SUBSTITUTIONS)))
  }

  /** What `clean_text` leaves: no listed sequence, only plain spaces as
      whitespace, never two in a row, and none at either end. */
  predicate Clean(t: string) {
    && (forall j :: 0 <= j < |SUBSTITUTIONS| ==> !IsSubstring(SUBSTITUTIONS[j].0, t))
    && Collapsed(t)
    && (t == [] || (!IsSpace(t[0]) && !IsSpace(t[|t| - 1])))
  }

  predicate Collapsed(t: string) {
    && (forall i :: 0 <= i < |t| && IsSpace(t[i]) ==> t[i] == ' ')
    && (forall i, j :: 0 <= i < |t| && 0 <= j < |t| && j == i + 1 ==> !(IsSpace(t[i]) && IsSpace(t[j])))
  }

  lemma PatternsAvoidReplacements(t: string, r: string)
    requires Pattern(t) && Ascii(r)
    ensures Disjoint(t, r)
  {
  }

  /** After the chain, a pattern that was absent or is replaced along the
      way is absent. */
  lemma {:induction false} SubstituteRemoves(s: string, subs: seq<(string, string)>, t: string)
    requires WellFormed(subs) && Pattern(t)
    requires (exists j :: 0 <= j < |subs| && subs[j].0 == t) || !IsSubstring(t, s)
    ensures !IsSubstring(t, Substitute(s, subs))
    decreases |subs|
  {
    if subs != [] {
      var p, r := subs[0].0, subs[0].1;
      PatternsAvoidReplacements(t, r);
      var s1 := Replace(s, p, r);
      if t == p || !IsSubstring(t, s) {
        ReplaceCreatesNoOccurrence(s, p, r, t);
        SubstituteRemoves(s1, subs[1..], t);
      } else {
        var j :| 0 <= j < |subs| && subs[j].0 == t;
        assert j > 0 && subs[1..][j - 1].0 == t;
        SubstituteRemoves(s1, subs[1..], t);
      }
    }
  }

  /** Replacing absent patterns changes nothing. */
  lemma {:induction false} SubstituteAbsent(s: string, subs: seq<(string, string)>)
    requires WellFormed(subs)
    requires forall j :: 0 <= j < |subs| ==> !IsSubstring(subs[j].0, s)
    ensures Substitute(s, subs) == s
    decreases |subs|
  {
    if subs != [] {
      ReplaceAbsent(s, subs[0].0, subs[0].1);
      SubstituteAbsent(s, subs[1..]);
    }
  }

  /** The start of `Collapse(s)` up to its first space is the start of `s`. */
  lemma {:induction false} CollapsePrefix(s: string, m: nat)
    requires m <= |Collapse(s)|
    requires forall i :: 0 <= i < m ==> !IsSpace(Collapse(s)[i])
    ensures m <= |s| && s[..m] == Collapse(s)[..m]
    decreases |s|
  {
    if m > 0 {
      assert s != [] && Collapse(s) == Squeeze(s, false);
      assert Collapse(s)[0] == if IsSpace(s[0]) then ' ' else s[0];
      var rest := Collapse(s[1..]);
      assert Collapse(s) == [s[0]] + rest;
      assert forall i :: 0 <= i < m - 1 ==> rest[i] == Collapse(s)[i + 1];
      CollapsePrefix(s[1..], m - 1);
      assert s[..m] == [s[0]] + s[1..][..m - 1];
    }
  }

  /** A space-free string at the start of `Collapse(s)` is at the start of `s`. */
  lemma CollapseKeepsLeadingOccurrence(s: string, t: string)
    requires Pattern(t)
    ensures OccursAt(t, Collapse(s), 0) ==> OccursAt(t, s, 0)
  {
    if OccursAt(t, Collapse(s), 0) {
      assert forall i :: 0 <= i < |t| ==> Collapse(s)[i] == t[i];
      CollapsePrefix(s, |t|);
    }
  }

  /** Collapsing whitespace creates no occurrence of a space-free string. */
  lemma {:induction false} SqueezeCreatesNoOccurrence(s: string, inRun: bool, t: string)
    requires Pattern(t)
    requires !IsSubstring(t, s)
    ensures !IsSubstring(t, Squeeze(s, inRun))
    decreases |s|
  {
    var out := Squeeze(s, inRun);
    if s != [] {
      var next := IsSpace(s[0]);
      var head := if !next then [s[0]] else if inRun then "" else " ";
      var c := Squeeze(s[1..], next);
      assert out == head + c;
      AbsentFromSuffix(t, s, 1);
      SqueezeCreatesNoOccurrence(s[1..], next, t);
      forall k | 0 <= k <= |out| - |t|
        ensures !OccursAt(t, out, k)
      {
        if k < |head| {
          if !next {
            assert out == Collapse(s);
            CollapseKeepsLeadingOccurrence(s, t);
          } else {
            assert out[0] == ' ';
          }
        } else if OccursAt(t, out, k) {
          OccurrenceAfterPrefix(t, head, c, k);
        }
      }
    }
  }

  /** A collapsed string is left as it is, provided it does not start with
      whitespace while inside a run. */
  lemma {:induction false} SqueezeFixed(t: string, inRun: bool)
    requires Collapsed(t)
    requires inRun ==> t == [] || !IsSpace(t[0])
    ensures Squeeze(t, inRun) == t
    decreases |t|
  {
    if t != [] {
      var rest := t[1..];
      assert Collapsed(rest) by {
        assert forall i :: 0 <= i < |rest| ==> rest[i] == t[i + 1];
      }
      assert IsSpace(t[0]) ==> rest == [] || !IsSpace(rest[0]) by {
        if rest != [] {
          assert rest[0] == t[1];
        }
      }
      SqueezeFixed(rest, IsSpace(t[0]));
      assert t == [t[0]] + rest;
    }
  }

  /** A slice of a collapsed string is collapsed, and holds only what the
      whole holds. */
  lemma SliceCollapsed(t: string, a: nat, b: nat)
    requires a <= b <= |t| && Collapsed(t)
    ensures Collapsed(t[a..b])
    ensures forall j :: 0 <= j < |SUBSTITUTIONS| && IsSubstring(SUBSTITUTIONS[j].0, t[a..b]) ==>
      IsSubstring(SUBSTITUTIONS[j].0, t)
  {
    assert OccursAt(t[a..b], t, a);
    forall j | 0 <= j < |SUBSTITUTIONS| && IsSubstring(SUBSTITUTIONS[j].0, t[a..b])
      ensures IsSubstring(SUBSTITUTIONS[j].0, t)
    {
      SubstringOfSubstring(SUBSTITUTIONS[j].0, t[a..b], t);
    }
  }

  /** `clean_text` maps every string to a clean one. */
  lemma CleanTextIsClean(s: string)
    ensures Clean(CleanText(s))
  {
    CollapsedSubstitution(s);
    StripKeepsClean(Collapse(Substitute(s, SUBSTITUTIONS)));
  }

  /** Before the strip: no listed sequence, and no run of whitespace. */
  lemma CollapsedSubstitution(s: string)
    ensures forall j :: 0 <= j < |SUBSTITUTIONS| ==> !IsSubstring(SUBSTITUTIONS[j].0, Collapse(Substitute(s, SUBSTITUTIONS)))
    ensures Collapsed(Collapse(Substitute(s, SUBSTITUTIONS)))
  {
    SubstitutionsWellFormed();
    var u := Substitute(s, SUBSTITUTIONS);
    forall j | 0 <= j < |SUBSTITUTIONS|
      ensures !IsSubstring(SUBSTITUTIONS[j].0, Collapse(u))
    {
      SubstituteRemoves(s, SUBSTITUTIONS, SUBSTITUTIONS[j].0);
      SqueezeCreatesNoOccurrence(u, false, SUBSTITUTIONS[j].0);
    }
    SqueezeShape(u, false);
  }

  /** Stripping a collapsed string free of the listed sequences leaves a
      clean one. */
  lemma StripKeepsClean(c: string)
    requires forall j :: 0 <= j < |SUBSTITUTIONS| ==> !IsSubstring(SUBSTITUTIONS[j].0, c)
    requires Collapsed(c)
    ensures Clean(Strip(c))
  {
    var r := Strip(c);
    StripShape(c);
    StripEnds(c);
    var a := |c| - |TrimStart(c)|;
    assert r == c[a..a + |r|];
    SliceCollapsed(c, a, a + |r|);
  }

  /** A clean string is left as it is. */
  lemma CleanTextFixes(t: string)
    requires Clean(t)
    ensures CleanText(t) == t
  {
    SubstitutionsWellFormed();
    SubstituteAbsent(t, SUBSTITUTIONS);
    SqueezeFixed(t, false);
    StripFixed(t);
  }

  /** `clean_text` is idempotent. */
  lemma CleanTextIdempotent(s: string)
    ensures CleanText(CleanText(s)) == CleanText(s)
  {
    CleanTextIsClean(s);
    CleanTextFixes(CleanText(s));
  }

  /** A pattern never occurs in a replacement. */
  lemma PatternNotInAscii(t: string, r: string)
    requires Pattern(t) && Ascii(r)
    ensures !IsSubstring(t, r)
  {
    forall k | 0 <= k <= |r| - |t|
      ensures !OccursAt(t, r, k)
    {
      OccursFirst(t, r, k);
    }
  }

  /** A string holding none of the earlier patterns is mapped by the chain
      to its own replacement. */
  lemma {:induction false} SubstituteSingle(s: string, subs: seq<(string, string)>, j: nat)
    requires WellFormed(subs) && j < |subs| && s == subs[j].0
    requires forall i :: 0 <= i < j ==> !IsSubstring(subs[i].0, s)
    ensures Substitute(s, subs) == subs[j].1
    decreases |subs|
  {
    var p, r := subs[0].0, subs[0].1;
    if j == 0 {
      assert s[..|p|] == p && s[|p|..] == [];
      assert Replace(s, p, r) == r + Replace([], p, r);
      assert Replace([], p, r) == [];
      assert r + [] == r;
      forall i | 0 <= i < |subs[1..]|
        ensures !IsSubstring(subs[1..][i].0, r)
      {
        PatternNotInAscii(subs[1..][i].0, r);
      }
      SubstituteAbsent(r, subs[1..]);
    } else {
      ReplaceAbsent(s, p, r);
      SubstituteSingle(s, subs[1..], j - 1);
    }
  }

  /** A string whose first character does not occur in `s` does not occur in `s`. */
  lemma AbsentByFirstChar(t: string, s: string)
    requires |t| > 0 && forall i :: 0 <= i < |s| ==> s[i] != t[0]
    ensures !IsSubstring(t, s)
  {
    forall k | 0 <= k <= |s| - |t|
      ensures !OccursAt(t, s, k)
    {
      OccursFirst(t, s, k);
    }
  }

  /** A different string of the same length does not occur. */
  lemma AbsentBySameLength(t: string, s: string)
    requires |t| == |s| && t != s
    ensures !IsSubstring(t, s)
  {
  }

  /** No pattern of the table occurs in a later one, so each is still
      intact when its own turn comes. */
  lemma EarlierPatternAbsent(i: nat, j: nat)
    requires i < j < |SUBSTITUTIONS|
    ensures !IsSubstring(SUBSTITUTIONS[i].0, SUBSTITUTIONS[j].0)
  {
    if j < 6 {
      AbsentBySameLength(SUBSTITUTIONS[i].0, SUBSTITUTIONS[j].0);
    } else if i < 6 {
      AbsentByFirstChar(SUBSTITUTIONS[i].0, SUBSTITUTIONS[j].0);
    } else {
      AbsentBySameLength(SUBSTITUTIONS[i].0, SUBSTITUTIONS[j].0);
    }
  }

  /** Each listed sequence on its own is cleaned to its replacement. */
  lemma SubstitutionApplied(j: nat)
    requires j < |SUBSTITUTIONS|
    ensures CleanText(SUBSTITUTIONS[j].0) == SUBSTITUTIONS[j].1
  {
    SubstitutionsWellFormed();
    var s := SUBSTITUTIONS[j].0;
    forall i | 0 <= i < j
      ensures !IsSubstring(SUBSTITUTIONS[i].0, s)
    {
      EarlierPatternAbsent(i, j);
    }
    SubstituteSingle(s, SUBSTITUTIONS, j);
    var r := SUBSTITUTIONS[j].1;
    SqueezeFixed(r, false);
    StripFixed(r);
  }

  // ---------------------------------------------------------------------
  // Candidate parsing

  const NUM_TURNS: nat := 10
  const NUM_CANDIDATES: nat := 10
  const SEP: string := ". "

  /** The candidate a reply line gives, if it holds `". "`: the text after
      the first one, stripped and cleaned. */
  function Candidate(line: string): (c: Option<string>)
    ensures c.Some? <==> IsSubstring(SEP, line)
  {
    var rest := AfterSep(line);
    if rest.None? then None else Some(CleanCandidate(rest.value))
  }

  /** `line.split(". ", 1)[1]` on a line that holds `". "`. */
  function AfterSep(line: string): (rest: Option<string>)
    ensures rest.Some? <==> IsSubstring(SEP, line)
  {
    var k := Find(SEP, line);
    if k == -1 then None else Some(line[k + |SEP|..])
  }

  /** `clean_text(cand.strip())` */
  function CleanCandidate(cand: string): string {
    CleanText(Strip(cand))
  }

  /** The candidates of the lines, in order. */
  function Candidates(lines: seq<string>): seq<string> {
    if lines == [] then []
    else
      var c := Candidate(lines[|lines| - 1]);
      Candidates(lines[..|lines| - 1]) + (if c.Some? then [c.value] else [])
  }

  /** `xs[:n]` */
  function Take<T>(xs: seq<T>, n: nat): (r: seq<T>)
    ensures |r| <= n && |r| <= |xs|
    ensures r == xs[..|r|]
    ensures |xs| <= n ==> r == xs
  {
    if |xs| <= n then xs else xs[..n]
  }

  /** Lines are parsed independently and in order. */
  lemma {:induction false} CandidatesAppend(a: seq<string>, b: seq<string>)
    ensures Candidates(a + b) == Candidates(a) + Candidates(b)
  {
    if b == [] {
      assert a + b == a;
    } else {
      assert (a + b)[..|a + b| - 1] == a + b[..|b| - 1];
      CandidatesAppend(a, b[..|b| - 1]);
    }
  }

  /** One line gives one candidate when it holds `". "`, and none otherwise;
      the candidate is the cleaned text after the first `". "`. */
  lemma CandidatesOfLine(line: string)
    ensures !IsSubstring(SEP, line) ==> Candidates([line]) == []
    ensures IsSubstring(SEP, line) ==> Candidates([line]) == [CleanCandidate(line[Find(SEP, line) + |SEP|..])]
  {
    assert [line][..0] == [];
  }

  /** Every candidate is clean, so cleaning it again changes nothing. */
  lemma {:induction false} CandidatesClean(lines: seq<string>)
    ensures forall i :: 0 <= i < |Candidates(lines)| ==> Clean(Candidates(lines)[i])
  {
    if lines != [] {
      CandidatesClean(lines[..|lines| - 1]);
      var c := Candidate(lines[|lines| - 1]);
      if c.Some? {
        CleanTextIsClean(Strip(AfterSep(lines[|lines| - 1]).value));
      }
    }
  }

  /** The parsing loop of `generate_candidate_responses`, then the cut to
      `NUM_CANDIDATES`. */
  method ParseCandidates(text: string) returns (candidates: seq<string>)
    ensures candidates == Take(Candidates(Split(text, '\n')), NUM_CANDIDATES)
    ensures |candidates| <= NUM_CANDIDATES
  {
    var lines := Split(text, '\n');
    var all := [];
    for i := 0 to |lines|
      invariant all == Candidates(lines[..i])
    {
      assert lines[..i + 1][..i] == lines[..i];
      var c := ParseLine(lines[i]);
      if c.Some? {
        all := all + [c.value];
      }
    }
    assert lines[..|lines|] == lines;
    candidates := Take(all, NUM_CANDIDATES);
  }

  /** One line of the parsing loop: the text after the first `". "`,
      stripped and cleaned, when the line holds one. */
  method ParseLine(line: string) returns (c: Option<string>)
    ensures c == Candidate(line)
  {
    var k := Find(SEP, line);
    if k == -1 {
      assert AfterSep(line) == None;
      c := None;
    } else {
      assert AfterSep(line) == Some(line[k + 2..]);
      var cand := Strip(line[k + 2..]);
      c := Some(CleanText(cand));
    }
  }

  // ---------------------------------------------------------------------
  // select_winner

  predicate IsSign(c: char) { c == '+' || c == '-' }

  /** Python's base-10 literal: digits, single underscores between them. */
  predicate Numeral(b: string) {
    && |b| > 0 && IsDigit(b[0]) && IsDigit(b[|b| - 1])
    && (forall i :: 0 <= i < |b| ==> IsDigit(b[i]) || b[i] == '_')
    && (forall i, j :: 0 <= i < |b| && 0 <= j < |b| && j == i + 1 ==> !(b[i] == '_' && b[j] == '_'))
  }

  /** The digits of a numeral, without its underscores. */
  function Digits(b: string): (d: string)
    requires forall i :: 0 <= i < |b| ==> IsDigit(b[i]) || b[i] == '_'
    ensures forall i :: 0 <= i < |d| ==> IsDigit(d[i])
    ensures (forall i :: 0 <= i < |b| ==> IsDigit(b[i])) ==> d == b
  {
    if b == [] then []
    else (if b[0] == '_' then [] else [b[0]]) + Digits(b[1..])
  }

  /** The default limit on the number of digits `int()` converts in base
      10 (CPython's `sys.int_info.default_max_str_digits`); a longer
      numeral raises `ValueError`. */
  const MAX_STR_DIGITS: nat := 4300

  /** `int(s)` for a string: surrounding whitespace, an optional sign,
      then a numeral of at most `MAX_STR_DIGITS` digits; anything else
      raises, shown as `None`. */
  function ParseInt(s: string): Option<int> {
    ParseLiteral(Strip(s))
  }

  /** An optional sign, then a numeral. */
  function ParseLiteral(t: string): Option<int> {
    if t != [] && IsSign(t[0]) then
      match ParseNumeral(t[1..])
      case None => None
      case Some(n) => Some(if t[0] == '-' then -(n as int) else n)
    else
      match ParseNumeral(t)
      case None => None
      case Some(n) => Some(n)
  }

  /** The value of an unsigned numeral that is within the digit limit. */
  function ParseNumeral(body: string): Option<nat> {
    if Numeral(body) && |Digits(body)| <= MAX_STR_DIGITS then Some(DigitsValue(Digits(body))) else None
  }

  /** Python's `str(n)` for any integer. */
  function IntToString(n: int): string {
    if n < 0 then "-" + NatToString(-n) else NatToString(n)
  }

  /** `int(str(n)) == n` for every integer whose digits are within the
      limit; beyond it `str(n)` itself raises. */
  lemma ParseIntRoundTrip(n: int)
    requires |NatToString(if n < 0 then -n else n)| <= MAX_STR_DIGITS
    ensures ParseInt(IntToString(n)) == Some(n)
  {
    var m: nat := if n < 0 then -n else n;
    var digits := NatToString(m);
    var s := IntToString(n);
    assert s == if n < 0 then "-" + digits else digits;
    assert !IsSpace(s[0]) && !IsSpace(s[|s| - 1]);
    StripFixed(s);
    assert ParseInt(s) == ParseLiteral(s);
    if n < 0 {
      ParseLiteralOfNegative(digits);
    } else {
      ParseLiteralOfDigits(digits);
    }
    NatToStringRoundTrip(m);
  }

  /** A string of digits reads as its value. */
  lemma ParseLiteralOfDigits(d: string)
    requires 1 <= |d| <= MAX_STR_DIGITS && forall i :: 0 <= i < |d| ==> IsDigit(d[i])
    ensures ParseLiteral(d) == Some(DigitsValue(d) as int)
  {
    NumeralOfDigits(d);
    assert !IsSign(d[0]);
  }

  /** A minus sign and a string of digits read as minus its value. */
  lemma ParseLiteralOfNegative(d: string)
    requires 1 <= |d| <= MAX_STR_DIGITS && forall i :: 0 <= i < |d| ==> IsDigit(d[i])
    ensures ParseLiteral("-" + d) == Some(-(DigitsValue(d) as int))
  {
    var t := "-" + d;
    assert t[0] == '-' && t[1..] == d;
    ParseLiteralNegated(t, d);
  }

  /** A string of digits is a numeral of its value. */
  lemma ParseNumeralOfDigits(d: string)
    requires 1 <= |d| <= MAX_STR_DIGITS && forall i :: 0 <= i < |d| ==> IsDigit(d[i])
    ensures ParseNumeral(d) == Some(DigitsValue(d))
  {
    NumeralOfDigits(d);
  }

  lemma ParseLiteralNegated(t: string, d: string)
    requires 1 <= |d| <= MAX_STR_DIGITS && forall i :: 0 <= i < |d| ==> IsDigit(d[i])
    requires t != [] && t[0] == '-' && t[1..] == d
    ensures ParseLiteral(t) == Some(-(DigitsValue(d) as int))
  {
    ParseNumeralOfDigits(d);
  }

  lemma NumeralOfDigits(d: string)
    requires |d| >= 1 && forall i :: 0 <= i < |d| ==> IsDigit(d[i])
    ensures Numeral(d) && Digits(d) == d
  {
  }

  /** A string of digits reads as its value exactly when it has at most
      `MAX_STR_DIGITS` of them; a longer one raises. */
  lemma ParseIntDigitLimit(d: string)
    requires |d| >= 1 && forall i :: 0 <= i < |d| ==> IsDigit(d[i])
    ensures ParseInt(d) == if |d| <= MAX_STR_DIGITS then Some(DigitsValue(d) as int) else None
  {
    assert !IsSpace(d[0]) && !IsSpace(d[|d| - 1]);
    StripFixed(d);
    if |d| <= MAX_STR_DIGITS {
      ParseLiteralOfDigits(d);
    } else {
      ParseLiteralOverlong(d);
    }
  }

  /** More than `MAX_STR_DIGITS` digits do not read as an integer. */
  lemma ParseLiteralOverlong(d: string)
    requires |d| > MAX_STR_DIGITS && forall i :: 0 <= i < |d| ==> IsDigit(d[i])
    ensures ParseLiteral(d) == None
  {
    NumeralOfDigits(d);
    assert ParseNumeral(d) == None;
    assert !IsSign(d[0]);
  }

  /** Surrounding whitespace does not change what `int` reads. */
  lemma ParseIntIgnoresPadding(s: string)
    ensures ParseInt(s) == ParseInt(Strip(s))
  {
    StripEnds(s);
    StripFixed(Strip(s));
  }

  /** Text without a digit holds no integer. */
  lemma ParseIntNeedsDigit(s: string)
    requires forall i :: 0 <= i < |s| ==> !IsDigit(s[i])
    ensures ParseInt(s) == None
  {
    var t := Strip(s);
    StripShape(s);
    var a := |s| - |TrimStart(s)|;
    assert forall i :: 0 <= i < |t| ==> t[i] == s[a + i];
  }

  /** `select_winner`'s result for the judge's reply: the integer it
      spells, or 0 when there is no text or it is not an integer. */
  function WinnerIndex(reply: Option<string>): (idx: int)
    ensures reply.None? ==> idx == 0
    ensures reply.Some? && ParseInt(Strip(reply.value)).None? ==> idx == 0
    ensures reply.Some? && ParseInt(Strip(reply.value)).Some? ==> idx == ParseInt(Strip(reply.value)).value
  {
    if reply.None? then 0
    else match ParseInt(Strip(reply.value))
      case Some(n) => n
      case None => 0
  }

  /** A judge reply made of more than `MAX_STR_DIGITS` digits makes `int`
      raise, so the first candidate wins. */
  lemma OverlongReplySelectsFirst(d: string)
    requires |d| > MAX_STR_DIGITS && forall i :: 0 <= i < |d| ==> IsDigit(d[i])
    ensures WinnerIndex(Some(d)) == 0
  {
    assert !IsSpace(d[0]) && !IsSpace(d[|d| - 1]);
    StripFixed(d);
    ParseIntDigitLimit(d);
  }

  /** Python's `xs[i]`: negative indices count from the end; out of range
      raises, shown as `None`. */
  function PyIndex<T>(xs: seq<T>, i: int): (r: Option<T>)
    ensures r.Some? <==> -|xs| <= i < |xs|
    ensures 0 <= i < |xs| ==> r == Some(xs[i])
    ensures -|xs| <= i < 0 ==> r == Some(xs[|xs| + i])
  {
    if 0 <= i < |xs| then Some(xs[i])
    else if -|xs| <= i < 0 then Some(xs[|xs| + i])
    else None
  }

  // ---------------------------------------------------------------------
  // The per-persona loop

  const PERSONAS: seq<string> := [
    "Jack Sparrow, a witty and unpredictable pirate with a mischievous charm.",
    "Sheldon Cooper, a brilliant yet socially awkward theoretical physicist.",
    "Shakespeare",
    "A very very sad melancholic man",
    "A British gentleman, polite, formal, and slightly sarcastic."
  ]

  /** The three model calls: the next question, the numbered candidate
      list, and the judge's reply (which may have no text). Each sees the
      history and the persona. */
  datatype Oracles = Oracles(
    question: (seq<Message>, string) -> string,
    candidates: (seq<Message>, string) -> string,
    judge: (seq<string>, string, seq<Message>) -> Option<string>)

  datatype Utterance = Utterance(history: seq<Message>, candidates: seq<string>, winnerIndex: int)

  datatype Progress = Progress(history: seq<Message>, utterances: seq<Utterance>)

  /** The opening question: the persona's name is the part before the
      first comma. */
  function Greeting(persona: string): string {
    "Hello! How would you describe yourself, " + Split(persona, ',')[0] + "?"
  }

  /** The user query of a turn. */
  function Query(g: Oracles, persona: string, history: seq<Message>, turn: nat): string {
    if turn == 0 then Greeting(persona) else CleanText(Strip(g.question(history, persona)))
  }

  /** What a turn consults: the query for the history so far and the
      turn number, the candidate list for the history ending in that
      query, and the index picked among the candidates. */
  datatype Agents = Agents(
    ask: (seq<Message>, nat) -> string,
    propose: seq<Message> -> seq<string>,
    pick: (seq<string>, seq<Message>) -> int)

  /** The three helpers the module-level loop calls for one persona:
      `generate_new_question` (or the fixed greeting on turn 0),
      `generate_candidate_responses` and `select_winner`. */
  function PersonaAgents(g: Oracles, persona: string): Agents {
    Agents(
      (history: seq<Message>, turn: nat) => Query(g, persona, history, turn),
      (asked: seq<Message>) => Take(Candidates(Split(g.candidates(asked, persona), '\n')), NUM_CANDIDATES),
      (candidates: seq<string>, asked: seq<Message>) => WinnerIndex(g.judge(candidates, persona, asked)))
  }

  /** One turn; `None` when the winner index is out of range, which raises. */
  function Step(a: Agents, p: Progress, turn: nat): Option<Progress> {
    var asked := p.history + [Message(USER, a.ask(p.history, turn))];
    var candidates := a.propose(asked);
    var idx := a.pick(candidates, asked);
    match PyIndex(candidates, idx)
    case None => None
    case Some(winner) =>
      Some(Progress(asked + [Message(ASSISTANT, winner)], p.utterances + [Utterance(asked, candidates, idx)]))
  }

  /** The state after `k` turns. */
  function Turns(a: Agents, k: nat): Option<Progress> {
    if k == 0 then Some(Progress([], []))
    else match Turns(a, k - 1)
      case None => None
      case Some(p) => Step(a, p, k - 1)
  }

  /** The state after `k` turns for one persona. */
  function Session(g: Oracles, persona: string, k: nat): Option<Progress> {
    Turns(PersonaAgents(g, persona), k)
  }

  /** A turn that raises ends the run. */
  lemma {:induction false} TurnsFailureFinal(a: Agents, k: nat, m: nat)
    requires k <= m
    requires Turns(a, k).None?
    ensures Turns(a, m).None?
  {
    if k < m {
      TurnsFailureFinal(a, k, m - 1);
    }
  }

  /** After `k` turns the history holds `2 * k` messages, a user query and
      the winner in turn. Turn `t` asked the query for the history before
      it, saved that history and its query as the utterance history, kept
      the candidates proposed for it and the index picked, and the winner
      is the candidate at that index. */
  lemma {:induction false} TurnsShape(a: Agents, k: nat)
    requires Turns(a, k).Some?
    ensures var p := Turns(a, k).value;
      && |p.history| == 2 * k
      && |p.utterances| == k
      && forall t :: 0 <= t < k ==>
        && p.history[2 * t] == Message(USER, a.ask(p.history[..2 * t], t))
        && p.history[2 * t + 1].role == ASSISTANT
        && p.utterances[t].history == p.history[..2 * t + 1]
        && p.utterances[t].candidates == a.propose(p.history[..2 * t + 1])
        && p.utterances[t].winnerIndex == a.pick(p.utterances[t].candidates, p.history[..2 * t + 1])
        && PyIndex(p.utterances[t].candidates, p.utterances[t].winnerIndex) == Some(p.history[2 * t + 1].content)
  {
    if k > 0 {
      var prev := Turns(a, k - 1);
      assert prev.Some?;
      TurnsShape(a, k - 1);
      var p := prev.value;
      StepShape(a, p, k - 1);
      var q := Turns(a, k).value;
      var n := 2 * (k - 1);
      assert q.history[..n] == p.history;
      forall t | 0 <= t < k
        ensures && q.history[2 * t] == Message(USER, a.ask(q.history[..2 * t], t))
                && q.history[2 * t + 1].role == ASSISTANT
                && q.utterances[t].history == q.history[..2 * t + 1]
                && q.utterances[t].candidates == a.propose(q.history[..2 * t + 1])
                && q.utterances[t].winnerIndex == a.pick(q.utterances[t].candidates, q.history[..2 * t + 1])
                && PyIndex(q.utterances[t].candidates, q.utterances[t].winnerIndex) == Some(q.history[2 * t + 1].content)
      {
        if t < k - 1 {
          assert q.history[..2 * t + 1] == p.history[..2 * t + 1];
          assert q.history[..2 * t] == p.history[..2 * t];
          assert q.history[2 * t] == p.history[2 * t] && q.history[2 * t + 1] == p.history[2 * t + 1];
          assert q.utterances[t] == p.utterances[t];
        }
      }
    }
  }

  /** One successful turn adds the query and the winner to the history and
      one utterance, and the winner is the candidate at the picked index. */
  lemma StepShape(a: Agents, p: Progress, turn: nat)
    requires Step(a, p, turn).Some?
    ensures var q := Step(a, p, turn).value;
      var n := |p.history|;
      var asked := p.history + [Message(USER, a.ask(p.history, turn))];
      && |q.history| == n + 2
      && q.history[..n] == p.history
      && q.history[..n + 1] == asked
      && q.history[n] == Message(USER, a.ask(p.history, turn))
      && q.history[n + 1].role == ASSISTANT
      && q.utterances == p.utterances + [Utterance(asked, a.propose(asked), a.pick(a.propose(asked), asked))]
      && PyIndex(a.propose(asked), a.pick(a.propose(asked), asked)) == Some(q.history[n + 1].content)
  {
    var q := Step(a, p, turn).value;
    var n := |p.history|;
    var asked := p.history + [Message(USER, a.ask(p.history, turn))];
    assert q.history[..n + 1] == asked;
    assert q.history[..n] == asked[..n];
  }

  /** A turn that raises ends the persona's run. */
  lemma SessionFailureFinal(g: Oracles, persona: string, k: nat, m: nat)
    requires k <= m
    requires Session(g, persona, k).None?
    ensures Session(g, persona, m).None?
  {
    TurnsFailureFinal(PersonaAgents(g, persona), k, m);
  }

  /** What the persona's helpers give: the greeting on the first turn and
      the cleaned question afterwards, and at most `NUM_CANDIDATES`
      candidates, each of them clean. */
  lemma PersonaAgentsFacts(g: Oracles, persona: string)
    ensures forall h :: PersonaAgents(g, persona).ask(h, 0) == Greeting(persona)
    ensures forall h, t :: t > 0 ==> PersonaAgents(g, persona).ask(h, t) == CleanText(Strip(g.question(h, persona)))
    ensures forall h :: |PersonaAgents(g, persona).propose(h)| <= NUM_CANDIDATES
    ensures forall h, i :: 0 <= i < |PersonaAgents(g, persona).propose(h)| ==> Clean(PersonaAgents(g, persona).propose(h)[i])
  {
    forall h
      ensures |PersonaAgents(g, persona).propose(h)| <= NUM_CANDIDATES
    {
      var all := Candidates(Split(g.candidates(h, persona), '\n'));
      assert PersonaAgents(g, persona).propose(h) == Take(all, NUM_CANDIDATES);
    }
    forall h, i | 0 <= i < |PersonaAgents(g, persona).propose(h)|
      ensures Clean(PersonaAgents(g, persona).propose(h)[i])
    {
      var all := Candidates(Split(g.candidates(h, persona), '\n'));
      CandidatesClean(Split(g.candidates(h, persona), '\n'));
      assert PersonaAgents(g, persona).propose(h)[i] == all[i];
    }
  }

  /** A run whose first query is the greeting and whose candidate lists
      are short and clean: the first message is the greeting, and every
      winner is one of at most `NUM_CANDIDATES` clean candidates. */
  lemma RunShape(a: Agents, persona: string, k: nat)
    requires Turns(a, k).Some?
    requires forall h :: a.ask(h, 0) == Greeting(persona)
    requires forall h :: |a.propose(h)| <= NUM_CANDIDATES
    requires forall h, i :: 0 <= i < |a.propose(h)| ==> Clean(a.propose(h)[i])
    ensures var p := Turns(a, k).value;
      && |p.history| == 2 * k
      && |p.utterances| == k
      && (k > 0 ==> p.history[0] == Message(USER, Greeting(persona)))
      && forall t :: 0 <= t < k ==>
        && |p.utterances[t].candidates| <= NUM_CANDIDATES
        && p.history[2 * t + 1].content in p.utterances[t].candidates
        && Clean(p.history[2 * t + 1].content)
  {
    TurnsShape(a, k);
    var p := Turns(a, k).value;
    forall t | 0 <= t < k
      ensures p.history[2 * t + 1].content in p.utterances[t].candidates
      ensures Clean(p.history[2 * t + 1].content)
    {
      var c := p.utterances[t].candidates;
      var w := p.utterances[t].winnerIndex;
      var i := if 0 <= w < |c| then w else |c| + w;
      assert c[i] == p.history[2 * t + 1].content;
      assert c == a.propose(p.history[..2 * t + 1]);
    }
  }

  /** The persona's run: the first query is the greeting, at most
      `NUM_CANDIDATES` clean candidates are kept per turn, and the winner
      is one of them. */
  lemma SessionShape(g: Oracles, persona: string, k: nat)
    requires Session(g, persona, k).Some?
    ensures var p := Session(g, persona, k).value;
      && |p.history| == 2 * k
      && |p.utterances| == k
      && (k > 0 ==> p.history[0] == Message(USER, Greeting(persona)))
      && forall t :: 0 <= t < k ==>
        && |p.utterances[t].candidates| <= NUM_CANDIDATES
        && p.history[2 * t + 1].content in p.utterances[t].candidates
        && Clean(p.history[2 * t + 1].content)
  {
    PersonaAgentsFacts(g, persona);
    RunShape(PersonaAgents(g, persona), persona, k);
  }

  method NextQuery(g: Oracles, persona: string, history: seq<Message>, turn: nat) returns (userQuery: string)
    ensures userQuery == Query(g, persona, history, turn)
  {
    if turn == 0 {
      userQuery := "Hello! How would you describe yourself, " + Split(persona, ',')[0] + "?";
    } else {
      var text := g.question(history, persona);
      userQuery := CleanText(Strip(text));
    }
  }

  /** `select_winner`: a reply without text, or one `int` rejects, gives 0. */
  method SelectWinner(g: Oracles, candidates: seq<string>, persona: string, history: seq<Message>)
    returns (idx: int)
    ensures idx == WinnerIndex(g.judge(candidates, persona, history))
  {
    var reply := g.judge(candidates, persona, history);
    idx := 0;
    if reply.Some? {
      var parsed := ParseInt(Strip(reply.value));
      if parsed.Some? {
        idx := parsed.value;
      }
    }
  }

  /** The inner `for turn` loop of the module-level script over its three
      helpers; `None` when a winner index raises. */
  method RunTurns(a: Agents) returns (r: Option<Progress>)
    ensures r == Turns(a, NUM_TURNS)
  {
    var history := [];
    var utterances := [];
    for turn := 0 to NUM_TURNS
      invariant Turns(a, turn) == Some(Progress(history, utterances))
    {
      var userQuery := a.ask(history, turn);
      history := history + [Message(USER, userQuery)];
      var candidates := a.propose(history);
      var winnerIdx := a.pick(candidates, history);
      var winner := PyIndex(candidates, winnerIdx);
      if winner.None? {
        TurnsFailureFinal(a, turn + 1, NUM_TURNS);
        return None;
      }
      utterances := utterances + [Utterance(history, candidates, winnerIdx)];
      history := history + [Message(ASSISTANT, winner.value)];
    }
    r := Some(Progress(history, utterances));
  }

  /** One pass of the module-level `for persona in PERSONAS` loop: the
      turns of one persona. */
  method GenerateForPersona(g: Oracles, persona: string) returns (r: Option<Progress>)
    ensures r == Session(g, persona, NUM_TURNS)
  {
    r := RunTurns(PersonaAgents(g, persona));
  }

  datatype Output = Output(personality: string, utterances: seq<Utterance>)

  /** The outputs of the personas, in order, given each persona's run;
      `None` when one of them raises, which stops the script before
      anything is written. */
  function Outputs(run: string -> Option<Progress>, personas: seq<string>): Option<seq<Output>> {
    if personas == [] then Some([])
    else match Outputs(run, personas[..|personas| - 1])
      case None => None
      case Some(outs) =>
        match run(personas[|personas| - 1])
        case None => None
        case Some(p) => Some(outs + [Output(personas[|personas| - 1], p.utterances)])
  }

  /** Each persona's run of `NUM_TURNS` turns. */
  function Runs(g: Oracles): string -> Option<Progress> {
    (persona: string) => Session(g, persona, NUM_TURNS)
  }

  function AllOutputs(g: Oracles, personas: seq<string>): Option<seq<Output>> {
    Outputs(Runs(g), personas)
  }

  /** When the script completes, there is one output per persona, in order,
      each holding that persona's utterances. */
  lemma {:induction false} OutputsShape(run: string -> Option<Progress>, personas: seq<string>)
    requires Outputs(run, personas).Some?
    ensures |Outputs(run, personas).value| == |personas|
    ensures forall i :: 0 <= i < |personas| ==>
      && Outputs(run, personas).value[i].personality == personas[i]
      && run(personas[i]).Some?
      && Outputs(run, personas).value[i].utterances == run(personas[i]).value.utterances
  {
    if personas != [] {
      var init := personas[..|personas| - 1];
      OutputsShape(run, init);
      forall i | 0 <= i < |init|
        ensures run(personas[i]).Some?
      {
        assert personas[i] == init[i];
      }
    }
  }

  /** When the script completes, every persona has its full run of
      `NUM_TURNS` utterances. */
  lemma AllOutputsShape(g: Oracles, personas: seq<string>)
    requires AllOutputs(g, personas).Some?
    ensures |AllOutputs(g, personas).value| == |personas|
    ensures forall i :: 0 <= i < |personas| ==>
      && AllOutputs(g, personas).value[i].personality == personas[i]
      && Session(g, personas[i], NUM_TURNS).Some?
      && AllOutputs(g, personas).value[i].utterances == Session(g, personas[i], NUM_TURNS).value.utterances
      && |AllOutputs(g, personas).value[i].utterances| == NUM_TURNS
  {
    OutputsShape(Runs(g), personas);
    forall i | 0 <= i < |personas|
      ensures |AllOutputs(g, personas).value[i].utterances| == NUM_TURNS
    {
      TurnsShape(PersonaAgents(g, personas[i]), NUM_TURNS);
    }
  }

  /** The script's top-level loop over the personas. */
  method GenerateAll(g: Oracles, personas: seq<string>) returns (finalOutputs: Option<seq<Output>>)
    ensures finalOutputs == AllOutputs(g, personas)
  {
    var outs := [];
    for i := 0 to |personas|
      invariant Outputs(Runs(g), personas[..i]) == Some(outs)
    {
      assert personas[..i + 1][..i] == personas[..i];
      var run := GenerateForPersona(g, personas[i]);
      if run.None? {
        OutputsFailureFinal(Runs(g), personas, i + 1);
        return None;
      }
      outs := outs + [Output(personas[i], run.value.utterances)];
    }
    assert personas[..|personas|] == personas;
    finalOutputs := Some(outs);
  }

  /** A persona that raises stops the whole script. */
  lemma {:induction false} OutputsFailureFinal(run: string -> Option<Progress>, personas: seq<string>, n: nat)
    requires n <= |personas|
    requires Outputs(run, personas[..n]).None?
    ensures Outputs(run, personas).None?
    decreases |personas| - n
  {
    if n < |personas| {
      assert personas[..n + 1][..n] == personas[..n];
      OutputsFailureFinal(run, personas, n + 1);
    } else {
      assert personas[..n] == personas;
    }
  }
}
