/**
 * The string operations the pages and services use: `trim`, `toLowerCase`,
 * `includes`, `startsWith`, `split` on one character and `replace(/c/g, d)`.
 * Lower-casing covers the ASCII letters only.
 */
module Text {
  import opened Wrappers

  /** The characters `String.prototype.trim` removes that the model knows of. */
  predicate IsSpace(c: char) {
    c == ' ' || c == '\t' || c == '\n' || c == '\r' || c == '\U{000B}' || c == '\U{000C}'
    || c == '\U{00A0}' || c == '\U{FEFF}'
  }

  function TrimStart(s: string): (r: string)
    ensures |r| <= |s| && r == s[|s| - |r|..]
    ensures r == [] || !IsSpace(r[0])
    ensures forall i :: 0 <= i < |s| - |r| ==> IsSpace(s[i])
  {
    if s != [] && IsSpace(s[0]) then TrimStart(s[1..]) else s
  }

  function TrimEnd(s: string): (r: string)
    ensures |r| <= |s| && r == s[..|r|]
    ensures r == [] || !IsSpace(r[|r| - 1])
    ensures forall i :: |r| <= i < |s| ==> IsSpace(s[i])
  {
    if s != [] && IsSpace(s[|s| - 1]) then TrimEnd(s[..|s| - 1]) else s
  }

  function Trim(s: string): (r: string)
  {
    TrimEnd(TrimStart(s))
  }

  /** `!s.trim()`: empty or only white space. */
  predicate IsBlank(s: string) {
    Trim(s) == []
  }

  lemma {:induction false} AllSpaceTrimStart(s: string)
    requires forall i :: 0 <= i < |s| ==> IsSpace(s[i])
    ensures TrimStart(s) == []
  {
    if s != [] {
      AllSpaceTrimStart(s[1..]);
    }
  }

  lemma {:induction false} BlankIffAllSpace(s: string)
    ensures IsBlank(s) <==> forall i :: 0 <= i < |s| ==> IsSpace(s[i])
  {
    if forall i :: 0 <= i < |s| ==> IsSpace(s[i]) {
      AllSpaceTrimStart(s);
    } else {
      var i :| 0 <= i < |s| && !IsSpace(s[i]);
      var t := TrimStart(s);
      assert t != [];
      assert TrimEnd(t) != [];
    }
  }

  lemma {:induction false} TrimTrimmed(s: string)
    ensures var r := Trim(s); r == [] || (!IsSpace(r[0]) && !IsSpace(r[|r| - 1]))
  {
    var t := TrimStart(s);
    var r := TrimEnd(t);
    if r != [] {
      assert r[0] == t[0];
    }
  }

  /** Trimming a trimmed string changes nothing. */
  lemma TrimIdempotent(s: string)
    ensures Trim(Trim(s)) == Trim(s)
  {
    TrimTrimmed(s);
  }

  function LowerChar(c: char): (r: char)
    ensures 'A' <= c <= 'Z' ==> r as int == c as int + 32
    ensures !('A' <= c <= 'Z') ==> r == c
  {
    if 'A' <= c <= 'Z' then (c as int + 32) as char else c
  }

  function Lower(s: string): (r: string)
    ensures |r| == |s|
    ensures forall i :: 0 <= i < |s| ==> r[i] == LowerChar(s[i])
  {
    if s == [] then [] else [LowerChar(s[0])] + Lower(s[1..])
  }

  /** `s.slice(0, n)`. */
  function Take(s: string, n: nat): (r: string)
    ensures |r| == if |s| < n then |s| else n
    ensures r == s[..|r|]
  {
    if |s| <= n then s else s[..n]
  }

  lemma LowerIdempotent(s: string)
    ensures Lower(Lower(s)) == Lower(s)
  {
  }

  predicate StartsWith(s: string, p: string) {
    |p| <= |s| && s[..|p|] == p
  }

  /** `s.includes(q)`. */
  predicate Contains(s: string, q: string)
    decreases |s|
  {
    StartsWith(s, q) || (s != [] && Contains(s[1..], q))
  }

  /** `q` occurs in `s` at index `i`. */
  predicate OccursAt(s: string, q: string, i: int) {
    0 <= i <= |s| - |q| && s[i..i + |q|] == q
  }

  lemma {:induction false} ContainsAt(s: string, q: string)
    ensures Contains(s, q) <==> exists i :: OccursAt(s, q, i)
    decreases |s|
  {
    if StartsWith(s, q) {
      assert OccursAt(s, q, 0);
    } else if s == [] {
    } else {
      ContainsAt(s[1..], q);
      if exists i :: OccursAt(s, q, i) {
        var i :| OccursAt(s, q, i);
        assert i != 0;
        assert s[1..][i - 1..i - 1 + |q|] == s[i..i + |q|];
        assert OccursAt(s[1..], q, i - 1);
      }
      if Contains(s[1..], q) {
        var j :| OccursAt(s[1..], q, j);
        assert s[j + 1..j + 1 + |q|] == s[1..][j..j + |q|];
        assert OccursAt(s, q, j + 1);
      }
    }
  }

  /** A string occurs at the start of any extension of it. */
  lemma ContainsStart(q: string, b: string)
    ensures Contains(q + b, q)
  {
    assert (q + b)[..|q|] == q;
  }

  /** Whatever occurs in `s` still occurs once text is put in front. */
  lemma {:induction false} ContainsAfter(a: string, s: string, q: string)
    requires Contains(s, q)
    ensures Contains(a + s, q)
    decreases |a|
  {
    if a == [] {
      assert a + s == s;
    } else {
      assert (a + s)[1..] == a[1..] + s;
      ContainsAfter(a[1..], s, q);
      assert Contains((a + s)[1..], q);
    }
  }

  /** A string holds its own trimmed form. */
  lemma ContainsTrimmed(s: string)
    ensures Contains(s, Trim(s))
  {
    var t := TrimStart(s);
    var k := |s| - |t|;
    assert OccursAt(s, Trim(s), k) by {
      assert Trim(s) == t[..|Trim(s)|];
      assert t == s[k..];
    }
    ContainsAt(s, Trim(s));
  }

  /** Whatever holds a longer query holds every prefix of it. */
  lemma ContainsPrefix(s: string, q: string, more: string)
    requires Contains(s, q + more)
    ensures Contains(s, q)
  {
    ContainsAt(s, q + more);
    var i :| OccursAt(s, q + more, i);
    assert s[i..i + |q|] == (q + more)[..|q|] == q;
    assert OccursAt(s, q, i);
    ContainsAt(s, q);
  }

  /** The same without regard to case. */
  lemma ContainsIgnoreCasePrefix(s: string, q: string, more: string)
    requires ContainsIgnoreCase(s, q + more)
    ensures ContainsIgnoreCase(s, q)
  {
    assert Lower(q + more) == Lower(q) + Lower(more);
    ContainsPrefix(Lower(s), Lower(q), Lower(more));
  }

  lemma ContainsEmpty(s: string)
    ensures Contains(s, "")
  {
    assert StartsWith(s, "");
  }

  /** `s.toLowerCase().includes(q.toLowerCase())`. */
  predicate ContainsIgnoreCase(s: string, q: string) {
    Contains(Lower(s), Lower(q))
  }

  lemma ContainsIgnoreCaseEmpty(s: string)
    ensures ContainsIgnoreCase(s, "")
  {
    ContainsEmpty(Lower(s));
  }

  /** `s.split(c)`. */
  function Split(s: string, c: char): (r: seq<string>)
    ensures |r| >= 1
    ensures forall i :: 0 <= i < |r| ==> c !in r[i]
    decreases |s|
  {
    if s == [] then [[]]
    else if s[0] == c then [[]] + Split(s[1..], c)
    else var rest := Split(s[1..], c); [[s[0]] + rest[0]] + rest[1..]
  }

  /** A string without the separator splits into itself alone. */
  lemma {:induction false} SplitAbsent(s: string, c: char)
    requires c !in s
    ensures Split(s, c) == [s]
    decreases |s|
  {
    if s != [] {
      assert c !in s[1..];
      SplitAbsent(s[1..], c);
      assert [s[0]] + s[1..] == s;
    }
  }

  /** Splitting `a`, the separator and `b`, with no separator in `a`, gives `a` and then the parts of `b`. */
  lemma {:induction false} SplitFirst(a: string, b: string, c: char)
    requires c !in a
    ensures Split(a + [c] + b, c) == [a] + Split(b, c)
    decreases |a|
  {
    if a == [] {
      assert a + [c] + b == [c] + b;
      assert ([c] + b)[1..] == b;
    } else {
      assert c !in a[1..];
      SplitFirst(a[1..], b, c);
      assert (a + [c] + b)[1..] == a[1..] + [c] + b;
      assert [a[0]] + a[1..] == a;
    }
  }

  /** Two parts joined by a separator neither holds split back into those two parts. */
  lemma SplitPair(a: string, b: string, c: char)
    requires c !in a && c !in b
    ensures Split(a + [c] + b, c) == [a, b]
  {
    SplitAbsent(b, c);
    SplitFirst(a, b, c);
  }

  /** `parts.join(c)`. */
  function Join(parts: seq<string>, c: char): string
  {
    if parts == [] then [] else if |parts| == 1 then parts[0] else parts[0] + [c] + Join(parts[1..], c)
  }

  /** Joining the pieces of a split with the separator gives the string back. */
  lemma {:induction false} SplitJoin(s: string, c: char)
    ensures Join(Split(s, c), c) == s
    decreases |s|
  {
    if s == [] {
    } else if s[0] == c {
      SplitJoin(s[1..], c);
      assert Split(s, c) == [[]] + Split(s[1..], c);
    } else {
      SplitJoin(s[1..], c);
      var rest := Split(s[1..], c);
      var parts := [[s[0]] + rest[0]] + rest[1..];
      assert Split(s, c) == parts;
      if |rest| == 1 {
        assert Join(rest, c) == rest[0];
      } else {
        assert Join(rest, c) == rest[0] + [c] + Join(rest[1..], c);
        assert parts[1..] == rest[1..];
      }
    }
  }

  /** `s.replace(/a/g, b)` for single characters. */
  function ReplaceAll(s: string, a: char, b: char): (r: string)
    ensures |r| == |s|
    ensures forall i :: 0 <= i < |s| ==> r[i] == (if s[i] == a then b else s[i])
  {
    if s == [] then [] else [if s[0] == a then b else s[0]] + ReplaceAll(s[1..], a, b)
  }

  /** `String(n)` for a natural number. */
  function NatToString(n: nat): (r: string)
    ensures |r| >= 1
    ensures forall i :: 0 <= i < |r| ==> '0' <= r[i] <= '9'
  {
    if n < 10 then [Digit(n)] else NatToString(n / 10) + [Digit(n % 10)]
  }

  function Digit(d: nat): (r: char)
    requires d < 10
    ensures '0' <= r <= '9' && r as int - '0' as int == d
  {
    ('0' as int + d) as char
  }

  predicate IsDigit(c: char) {
    '0' <= c <= '9'
  }

  /** The value of a string of decimal digits. */
  function DigitsValue(s: string): (r: nat)
    requires forall i :: 0 <= i < |s| ==> IsDigit(s[i])
  {
    if s == [] then 0
    else
      assert IsDigit(s[|s| - 1]);
      DigitsValue(s[..|s| - 1]) * 10 + (s[|s| - 1] as int - '0' as int)
  }

  /** Reading back the digits of `n` gives `n`. */
  lemma {:induction false} DigitsValueOfNat(n: nat)
    ensures DigitsValue(NatToString(n)) == n
    decreases n
  {
    var s := NatToString(n);
    if n >= 10 {
      DigitsValueOfNat(n / 10);
      assert s[..|s| - 1] == NatToString(n / 10);
    }
  }

  /** A decimal integer as `[-+]?[0-9]+`, or None for any other text. */
  function IntText(s: string): (r: Option<int>)
  {
    if |s| > 0 && (s[0] == '-' || s[0] == '+') then
      var body := s[1..];
      if body != [] && forall i :: 0 <= i < |body| ==> IsDigit(body[i]) then
        Some(if s[0] == '-' then 0 - DigitsValue(body) as int else DigitsValue(body) as int)
      else None
    else if s != [] && forall i :: 0 <= i < |s| ==> IsDigit(s[i]) then Some(DigitsValue(s))
    else None
  }

  /** `String(n)` is read back as `n`, and so is it with a leading `+`. */
  lemma IntTextOfNat(n: nat)
    ensures IntText(NatToString(n)) == Some(n)
    ensures IntText("+" + NatToString(n)) == Some(n)
  {
    DigitsValueOfNat(n);
    assert ("+" + NatToString(n))[1..] == NatToString(n);
  }

  /** The longest prefix of `s` made of decimal digits. */
  function LeadingDigits(s: string): (r: string)
    ensures |r| <= |s|
    ensures forall i :: 0 <= i < |r| ==> r[i] == s[i] && IsDigit(r[i])
    ensures |r| < |s| ==> !IsDigit(s[|r|])
  {
    if s != [] && IsDigit(s[0]) then [s[0]] + LeadingDigits(s[1..]) else []
  }

  /**
   * `parseInt(s, 10)`: leading white space is skipped, then an optional sign
   * and the longest run of digits; `None` (NaN) when there are no digits.
   */
  function ParseInt(s: string): (r: Option<int>)
  {
    SignedDigits(TrimStart(s))
  }

  /** `parseInt` after the white space: an optional sign, then the digits. */
  function SignedDigits(t: string): (r: Option<int>)
  {
    var body := if t != [] && (t[0] == '-' || t[0] == '+') then t[1..] else t;
    var d := LeadingDigits(body);
    if d == [] then None
    else if t[0] == '-' then Some(0 - DigitsValue(d) as int)
    else Some(DigitsValue(d) as int)
  }

  /** A string that starts with a digit has no leading white space. */
  lemma TrimStartOfDigits(s: string, tail: string)
    requires s != [] && IsDigit(s[0])
    ensures TrimStart(s + tail) == s + tail
  {
    assert (s + tail)[0] == s[0];
  }

  /** A string that starts with a minus sign has no leading white space. */
  lemma TrimStartOfNegated(s: string)
    ensures TrimStart("-" + s) == "-" + s
  {
    assert ("-" + s)[0] == '-';
  }

  lemma SignedDigitsOfDigits(s: string, tail: string)
    requires s != [] && forall i :: 0 <= i < |s| ==> IsDigit(s[i])
    requires LeadingDigits(s + tail) == s
    ensures SignedDigits(s + tail) == Some(DigitsValue(s))
  {
  }

  lemma SignedDigitsOfNegated(s: string, n: nat)
    requires s != [] && forall i :: 0 <= i < |s| ==> IsDigit(s[i])
    requires LeadingDigits(s) == s
    requires DigitsValue(s) == n
    ensures SignedDigits("-" + s) == Some(0 - n)
  {
    var t := "-" + s;
    assert t[0] == '-' && t[1..] == s;
    assert LeadingDigits(t[1..]) == s;
  }

  /** `parseInt` of a digit string followed by text that does not start with a digit. */
  lemma ParseIntOfDigits(s: string, tail: string, n: nat)
    requires s != [] && forall i :: 0 <= i < |s| ==> IsDigit(s[i])
    requires tail == [] || !IsDigit(tail[0])
    requires DigitsValue(s) == n
    ensures ParseInt(s + tail) == Some(n)
  {
    TrimStartOfDigits(s, tail);
    AllDigitsLeading(s, tail);
    SignedDigitsOfDigits(s, tail);
  }

  /** `parseInt` of a digit string after a minus sign. */
  lemma ParseIntOfNegated(s: string, n: nat)
    requires s != [] && forall i :: 0 <= i < |s| ==> IsDigit(s[i])
    requires DigitsValue(s) == n
    ensures ParseInt("-" + s) == Some(0 - n)
  {
    TrimStartOfNegated(s);
    AllDigitsLeading(s, []);
    assert s + [] == s;
    SignedDigitsOfNegated(s, n);
  }

  /** `parseInt` reads `String(n)` and `-String(n)` back, and stops at the first non-digit. */
  lemma ParseIntOfNat(n: nat, tail: string)
    requires tail == [] || !IsDigit(tail[0])
    ensures ParseInt(NatToString(n) + tail) == Some(n)
    ensures ParseInt("-" + NatToString(n)) == Some(0 - n)
  {
    ParseIntOfNatText(n, tail);
    ParseIntOfNegatedNat(n);
  }

  lemma ParseIntOfNatText(n: nat, tail: string)
    requires tail == [] || !IsDigit(tail[0])
    ensures ParseInt(NatToString(n) + tail) == Some(n)
  {
    DigitsValueOfNat(n);
    ParseIntOfDigits(NatToString(n), tail, n);
  }

  lemma ParseIntOfNegatedNat(n: nat)
    ensures ParseInt("-" + NatToString(n)) == Some(0 - n)
  {
    DigitsValueOfNat(n);
    ParseIntOfNegated(NatToString(n), n);
  }

  lemma {:induction false} AllDigitsLeading(s: string, tail: string)
    requires forall i :: 0 <= i < |s| ==> IsDigit(s[i])
    requires tail == [] || !IsDigit(tail[0])
    ensures LeadingDigits(s + tail) == s
  {
    if s != [] {
      assert (s + tail)[1..] == s[1..] + tail;
      AllDigitsLeading(s[1..], tail);
    } else {
      assert s + tail == tail;
    }
  }
}
