/** String operations the formatting rules are built from, each with the
    meaning Python gives it: `str.replace` with a one-character pattern,
    `str.strip()` with no argument, `str.lower()` (restricted to ASCII),
    the slice `s[:-3]`, `"".join(...)` and `f"{n}"` for an integer `n`. */
module Text {

  /** The three-character separator every rendered column fragment ends with. */
  const Terminator: string := "\r\n\t"

  /** Python's `str.isspace()` for a single character: the ASCII whitespace and
      separator controls plus the Unicode space separators. */
  predicate IsSpace(c: char) {
    || '\t' <= c <= '\r'
    || '\U{001C}' <= c <= ' '
    || c == '\U{0085}' || c == '\U{00A0}' || c == '\U{1680}'
    || '\U{2000}' <= c <= '\U{200A}'
    || c == '\U{2028}' || c == '\U{2029}' || c == '\U{202F}' || c == '\U{205F}' || c == '\U{3000}'
  }

  /** `s.replace(c, with)` for a one-character pattern: every occurrence of `c`
      is replaced, left to right. */
  function Replace(s: string, c: char, with: string): string {
    if s == [] then []
    else (if s[0] == c then with else [s[0]]) + Replace(s[1..], c, with)
  }

  /** Every character of the result comes from the input or from the
      replacement, and the pattern survives only if the replacement holds it. */
  lemma {:induction false} ReplaceDrawsFrom(s: string, c: char, with: string)
    ensures var r := Replace(s, c, with);
      && (forall x | x in r :: x in s || x in with)
      && (c !in with ==> c !in r)
  {
    if s != [] {
      ReplaceDrawsFrom(s[1..], c, with);
      var head := if s[0] == c then with else [s[0]];
      var r := Replace(s, c, with);
      assert r == head + Replace(s[1..], c, with);
      forall x | x in r
        ensures x in s || x in with
      {
        if x !in head {
          assert x in Replace(s[1..], c, with);
          assert x in s[1..] || x in with;
          if x in s[1..] {
            var k :| 0 <= k < |s[1..]| && s[1..][k] == x;
            assert s[k + 1] == x;
          }
        }
      }
    }
  }

  /** An input without the pattern comes back unchanged. */
  lemma {:induction false} ReplaceWithoutPattern(s: string, c: char, with: string)
    requires c !in s
    ensures Replace(s, c, with) == s
  {
    if s != [] {
      assert s[0] != c;
      ReplaceWithoutPattern(s[1..], c, with);
    }
  }

  /** Replacing in a concatenation replaces in each part. */
  lemma {:induction false} ReplaceConcat(a: string, b: string, c: char, with: string)
    ensures Replace(a + b, c, with) == Replace(a, c, with) + Replace(b, c, with)
  {
    if a != [] {
      assert (a + b)[1..] == a[1..] + b;
      ReplaceConcat(a[1..], b, c, with);
    } else {
      assert a + b == b;
    }
  }

  /** `s.lstrip()`. */
  function StripLeft(s: string): (r: string)
    ensures |r| <= |s| && r == s[|s| - |r|..]
    ensures forall k | 0 <= k < |s| - |r| :: IsSpace(s[k])
    ensures r == [] || !IsSpace(r[0])
  {
    if s != [] && IsSpace(s[0]) then StripLeft(s[1..]) else s
  }

  /** `s.rstrip()`. */
  function StripRight(s: string): (r: string)
    ensures |r| <= |s| && r == s[..|r|]
    ensures forall k | |r| <= k < |s| :: IsSpace(s[k])
    ensures r == [] || !IsSpace(r[|r| - 1])
  {
    if s != [] && IsSpace(s[|s| - 1]) then StripRight(s[..|s| - 1]) else s
  }

  /** Neither end of `s` is whitespace. */
  predicate Stripped(s: string) {
    s == [] || (!IsSpace(s[0]) && !IsSpace(s[|s| - 1]))
  }

  /** `s.strip()`: whitespace removed from both ends. */
  function Strip(s: string): (r: string)
    ensures Stripped(r)
  {
    StripRightKeepsStart(StripLeft(s));
    StripRight(StripLeft(s))
  }

  /** What `strip()` keeps: a slice of `s`, with only whitespace before it
      and after it. */
  lemma StripIsSlice(s: string)
    ensures |s| - |StripLeft(s)| + |Strip(s)| <= |s|
    ensures forall j | 0 <= j < |Strip(s)| :: Strip(s)[j] == s[|s| - |StripLeft(s)| + j]
    ensures forall k | 0 <= k < |s| - |StripLeft(s)| :: IsSpace(s[k])
    ensures forall k | |s| - |StripLeft(s)| + |Strip(s)| <= k < |s| :: IsSpace(s[k])
  {
    var l := StripLeft(s);
    assert Strip(s) == StripRight(l);
    StripRightOfSuffix(s, l);
  }

  /** Every character `strip()` keeps comes from its input. */
  lemma StripKeepsCharacters(s: string)
    ensures forall x | x in Strip(s) :: x in s
  {
    var l := StripLeft(s);
    StripRightOfSuffix(s, l);
  }

  /** Right-stripping a string that does not start with whitespace leaves
      one that neither starts nor ends with it. */
  lemma StripRightKeepsStart(l: string)
    requires l == [] || !IsSpace(l[0])
    ensures Stripped(StripRight(l))
  {
    var r := StripRight(l);
    if r != [] {
      assert r[0] == l[0];
    }
  }

  /** Right-stripping a suffix `l` of `s` leaves a slice of `s` followed in
      `s` by whitespace only. */
  lemma StripRightOfSuffix(s: string, l: string)
    requires |l| <= |s| && l == s[|s| - |l|..]
    ensures var r := StripRight(l);
      var i := |s| - |l|;
      && i + |r| <= |s|
      && (forall j | 0 <= j < |r| :: r[j] == s[i + j])
      && (forall k | i + |r| <= k < |s| :: IsSpace(s[k]))
      && (forall x | x in r :: x in s)
  {
    var r := StripRight(l);
    var i := |s| - |l|;
    forall x | x in r
      ensures x in s
    {
      var j :| 0 <= j < |r| && r[j] == x;
      assert s[i + j] == x;
    }
    forall k | i + |r| <= k < |s|
      ensures IsSpace(s[k])
    {
      assert s[k] == l[k - i];
    }
  }

  /** Stripping is idempotent: a string with no whitespace at either end is
      left alone. */
  lemma StripFixesStripped(s: string)
    requires Stripped(s)
    ensures Strip(s) == s
  {
  }

  /** The character `str.lower()` gives for an ASCII character. */
  function LowerChar(c: char): char {
    if 'A' <= c <= 'Z' then (c as int + 32) as char else c
  }

  /** `s.lower()`, with only ASCII letters folded. */
  function Lower(s: string): (r: string)
    ensures |r| == |s|
    ensures forall i | 0 <= i < |s| :: r[i] == LowerChar(s[i])
  {
    if s == [] then [] else [LowerChar(s[0])] + Lower(s[1..])
  }

  /** Lower-casing a lower-cased string changes nothing. */
  lemma LowerIdempotent(s: string)
    ensures Lower(Lower(s)) == Lower(s)
  {
  }

  /** The slice `s[:-3]`: everything but the last three characters, or the
      empty string when `s` is shorter than three. */
  function DropLast3(s: string): (r: string)
    ensures |s| >= 3 ==> |r| == |s| - 3 && r + s[|s| - 3..] == s
    ensures |s| < 3 ==> r == []
  {
    if |s| >= 3 then s[..|s| - 3] else []
  }

  /** Dropping the last three characters removes exactly one terminator. */
  lemma DropLast3Terminated(s: string)
    ensures DropLast3(s + Terminator) == s
  {
    assert (s + Terminator)[..|s|] == s;
  }

  /** A rendered column fragment: it opens with the column separator `,` and
      closes with the terminator. */
  predicate IsFragment(s: string) {
    |s| > |Terminator| && s[0] == ',' && s[|s| - |Terminator|..] == Terminator
  }

  /** `"".join(parts)`. */
  function Concat(parts: seq<string>): string {
    if parts == [] then "" else parts[0] + Concat(parts[1..])
  }

  lemma {:induction false} ConcatAppend(parts: seq<string>, last: string)
    ensures Concat(parts + [last]) == Concat(parts) + last
  {
    if parts == [] {
      assert parts + [last] == [last];
    } else {
      assert (parts + [last])[1..] == parts[1..] + [last];
      ConcatAppend(parts[1..], last);
    }
  }

  /** Joining fragments that all start with `lead` and end with `tail`:
      the joined text (when non-empty) starts with `lead` and ends with `tail`. */
  lemma {:induction false} ConcatEnds(parts: seq<string>, lead: char, tail: string)
    requires parts != []
    requires forall i | 0 <= i < |parts| :: |parts[i]| > |tail| && parts[i][0] == lead
    requires forall i | 0 <= i < |parts| :: parts[i][|parts[i]| - |tail|..] == tail
    ensures var s := Concat(parts);
      |s| > |tail| && s[0] == lead && s[|s| - |tail|..] == tail
  {
    var init := parts[..|parts| - 1];
    var last := parts[|parts| - 1];
    assert parts == init + [last];
    ConcatAppend(init, last);
    var s := Concat(parts);
    assert s == Concat(init) + last;
    assert s[|s| - |tail|..] == last[|last| - |tail|..];
    if init != [] {
      ConcatEnds(init, lead, tail);
    }
  }

  /** The decimal digit for `d`. */
  function Digit(d: nat): char
    requires d < 10
  {
    ('0' as int + d) as char
  }

  /** `f"{n}"` for a natural number: its decimal digits, most significant first. */
  function NatToString(n: nat): (r: string)
    ensures |r| >= 1
    ensures forall i | 0 <= i < |r| :: '0' <= r[i] <= '9'
    ensures |r| == 1 <==> n < 10
  {
    if n < 10 then [Digit(n)] else NatToString(n / 10) + [Digit(n % 10)]
  }

  /** `f"{i}"` for an integer: a minus sign before the digits of a negative one. */
  function IntToString(i: int): (r: string)
    ensures r != []
    ensures i < 0 <==> r[0] == '-'
  {
    if i < 0 then "-" + NatToString(-i) else NatToString(i)
  }

  lemma {:induction false} NatToStringInjective(a: nat, b: nat)
    requires NatToString(a) == NatToString(b)
    ensures a == b
  {
    var sa, sb := NatToString(a), NatToString(b);
    if a >= 10 && b >= 10 {
      assert sa[..|sa| - 1] == NatToString(a / 10);
      assert sb[..|sb| - 1] == NatToString(b / 10);
      NatToStringInjective(a / 10, b / 10);
      assert sa[|sa| - 1] == Digit(a % 10);
      assert sb[|sb| - 1] == Digit(b % 10);
    }
  }

  /** Distinct integers print differently, so a rendered id names exactly one id. */
  lemma IntToStringInjective(a: int, b: int)
    requires IntToString(a) == IntToString(b)
    ensures a == b
  {
    if a < 0 && b < 0 {
      assert IntToString(a)[1..] == NatToString(-a);
      assert IntToString(b)[1..] == NatToString(-b);
      NatToStringInjective(-a, -b);
    } else if a >= 0 && b >= 0 {
      NatToStringInjective(a, b);
    }
  }
}
