/**
 * The JavaScript string operations the dashboard relies on, restricted to ASCII:
 * `trim`, `includes`, `toLowerCase`/`toUpperCase`, `split(' ')`, `join`, the
 * "word initials" idiom `split(' ').map(w => w.charAt(0)).join('').toUpperCase().slice(0, 2)`,
 * and the decimal rendering of an integer in a template literal.
 */
module Text {

  function Min(a: int, b: int): int { if a <= b then a else b }

  /** Whitespace as matched by `\s` and removed by `trim()`, ASCII part only. */
  predicate IsSpace(c: char) {
    c == ' ' || c == '\t' || c == '\n' || c == '\r' || c == '\U{000B}' || c == '\U{000C}'
  }

  /** Every character is whitespace (this includes the empty string). */
  predicate IsBlank(s: string) {
    forall i | 0 <= i < |s| :: IsSpace(s[i])
  }

  /** Drops leading whitespace: the result is a suffix of the input. */
  function TrimStart(s: string): string {
    if s != [] && IsSpace(s[0]) then TrimStart(s[1..]) else s
  }

  /** `TrimStart` keeps a suffix; what it drops is blank, and what it keeps does not start with whitespace. */
  lemma {:induction false} TrimStartDropsBlank(s: string)
    ensures |TrimStart(s)| <= |s| && TrimStart(s) == s[|s| - |TrimStart(s)|..]
    ensures IsBlank(s[..|s| - |TrimStart(s)|])
    ensures TrimStart(s) == [] || !IsSpace(TrimStart(s)[0])
  {
    if s != [] && IsSpace(s[0]) {
      TrimStartDropsBlank(s[1..]);
      var k := |s| - |TrimStart(s)|;
      assert s[..k] == [s[0]] + s[1..][..k - 1];
    }
  }

  /** Drops trailing whitespace: the result is a prefix of the input. */
  function TrimEnd(s: string): string {
    if s != [] && IsSpace(s[|s| - 1]) then TrimEnd(s[..|s| - 1]) else s
  }

  /** `TrimEnd` keeps a prefix; what it drops is blank, and what it keeps does not end with whitespace. */
  lemma {:induction false} TrimEndDropsBlank(s: string)
    ensures |TrimEnd(s)| <= |s| && TrimEnd(s) == s[..|TrimEnd(s)|]
    ensures IsBlank(s[|TrimEnd(s)|..])
    ensures TrimEnd(s) == [] || !IsSpace(TrimEnd(s)[|TrimEnd(s)| - 1])
  {
    if s != [] && IsSpace(s[|s| - 1]) {
      TrimEndDropsBlank(s[..|s| - 1]);
      var k := |TrimEnd(s)|;
      assert s[k..] == s[..|s| - 1][k..] + [s[|s| - 1]];
    }
  }

  /** `s.trim()` */
  function Trim(s: string): string {
    TrimEnd(TrimStart(s))
  }

  /** `!s.trim()` holds exactly for the empty and the whitespace-only strings. */
  lemma TrimEmptyIffBlank(s: string)
    ensures Trim(s) == "" <==> IsBlank(s)
  {
    if Trim(s) == "" {
      TrimEmptyIsBlank(s);
    }
    if IsBlank(s) {
      BlankTrimsEmpty(s);
    }
  }

  lemma {:induction false} TrimEmptyIsBlank(s: string)
    requires Trim(s) == ""
    ensures IsBlank(s)
  {
    var t := TrimStart(s);
    TrimStartDropsBlank(s);
    TrimEndDropsBlank(t);
    var p := s[..|s| - |t|];
    assert IsBlank(t);
    assert s == p + t;
  }

  lemma {:induction false} BlankTrimsEmpty(s: string)
    requires IsBlank(s)
    ensures Trim(s) == ""
  {
    var t := TrimStart(s);
    TrimStartDropsBlank(s);
  }

  /** `s.includes(sub)` */
  predicate Contains(s: string, sub: string) {
    sub <= s || (s != [] && Contains(s[1..], sub))
  }

  /** `sub` occurs in `s` starting at position `i`. */
  predicate OccursAt(s: string, sub: string, i: int) {
    0 <= i <= |s| - |sub| && s[i..i + |sub|] == sub
  }

  /** `includes` finds `sub` exactly when it occurs at some position of `s`. */
  lemma {:induction false} ContainsIffOccurs(s: string, sub: string)
    ensures Contains(s, sub) <==> exists i :: OccursAt(s, sub, i)
  {
    if sub <= s {
      assert OccursAt(s, sub, 0);
    } else if s == [] {
    } else {
      ContainsIffOccurs(s[1..], sub);
      if exists i :: OccursAt(s, sub, i) {
        var i :| OccursAt(s, sub, i);
        assert i != 0;
        assert OccursAt(s[1..], sub, i - 1);
      }
      if Contains(s[1..], sub) {
        var i :| OccursAt(s[1..], sub, i);
        assert s[i + 1..i + 1 + |sub|] == s[1..][i..i + |sub|];
        assert OccursAt(s, sub, i + 1);
      }
    }
  }

  /** A string cannot contain a piece that has a character the string lacks. */
  lemma {:induction false} MissingCharNotContained(s: string, sub: string, c: char)
    requires c in sub && c !in s
    ensures !Contains(s, sub)
  {
    assert forall k | 0 <= k < |sub| && sub <= s :: s[k] == sub[k];
    if s != [] {
      MissingCharNotContained(s[1..], sub, c);
    }
  }

  function LowerChar(c: char): char {
    if 'A' <= c <= 'Z' then (c as int + 32) as char else c
  }

  function UpperChar(c: char): char {
    if 'a' <= c <= 'z' then (c as int - 32) as char else c
  }

  /** `s.toLowerCase()` on ASCII letters. */
  function Lower(s: string): string {
    seq(|s|, i requires 0 <= i < |s| => LowerChar(s[i]))
  }

  /** `s.toUpperCase()` on ASCII letters. */
  function Upper(s: string): string {
    seq(|s|, i requires 0 <= i < |s| => UpperChar(s[i]))
  }

  /** `s.toLowerCase().includes(q.toLowerCase())` */
  predicate ContainsIgnoreCase(s: string, q: string) {
    Contains(Lower(s), Lower(q))
  }

  /** `s.split(' ')`: the pieces between single spaces, empty pieces included. */
  function SplitSpace(s: string): (r: seq<string>)
    ensures |r| >= 1
    ensures forall k | 0 <= k < |r| :: ' ' !in r[k]
  {
    if s == [] then [""]
    else if s[0] == ' ' then [""] + SplitSpace(s[1..])
    else
      var t := SplitSpace(s[1..]);
      [[s[0]] + t[0]] + t[1..]
  }

  /** `xs.join(sep)` */
  function Join(xs: seq<string>, sep: string): string {
    if |xs| == 0 then ""
    else if |xs| == 1 then xs[0]
    else xs[0] + sep + Join(xs[1..], sep)
  }

  /** Joining one more piece puts one separator before it. */
  lemma {:induction false} JoinAppend(xs: seq<string>, y: string, sep: string)
    requires xs != []
    ensures Join(xs + [y], sep) == Join(xs, sep) + sep + y
  {
    if |xs| == 1 {
      assert (xs + [y])[1..] == [y];
    } else {
      JoinAppend(xs[1..], y, sep);
      assert (xs + [y])[1..] == xs[1..] + [y];
    }
  }

  /** Joining the pieces of `split(' ')` with a space gives back the string. */
  lemma {:induction false} JoinSplit(s: string)
    ensures Join(SplitSpace(s), " ") == s
  {
    if s == [] {
    } else if s[0] == ' ' {
      var t := SplitSpace(s[1..]);
      JoinSplit(s[1..]);
      assert ([""] + t)[1..] == t;
    } else {
      var t := SplitSpace(s[1..]);
      JoinSplit(s[1..]);
      var r := [[s[0]] + t[0]] + t[1..];
      if |t| == 1 {
        assert Join(r, " ") == [s[0]] + t[0];
      } else {
        assert r[1..] == t[1..];
        assert Join(r, " ") == [s[0]] + t[0] + " " + Join(t[1..], " ");
        assert s == [s[0]] + s[1..];
      }
    }
  }

  /** A space-free piece in front of a string joins the first piece of the string's split. */
  lemma {:induction false} SplitPrefix(a: string, rest: string)
    requires ' ' !in a
    ensures var t := SplitSpace(rest);
            SplitSpace(a + rest) == [a + t[0]] + t[1..]
  {
    if a == [] {
      var t := SplitSpace(rest);
      assert a + rest == rest && a + t[0] == t[0];
      assert t == [t[0]] + t[1..];
    } else {
      SplitPrefix(a[1..], rest);
      var t := SplitSpace(rest);
      var u := SplitSpace(a[1..] + rest);
      assert a[0] in a;
      assert (a + rest)[0] == a[0] && (a + rest)[1..] == a[1..] + rest;
      assert u == [a[1..] + t[0]] + t[1..];
      assert [a[0]] + (a[1..] + t[0]) == a + t[0];
    }
  }

  /** Splitting a join of space-free pieces at its spaces gives back the pieces. */
  lemma {:induction false} SplitJoin(xs: seq<string>)
    requires |xs| >= 1
    requires forall k | 0 <= k < |xs| :: ' ' !in xs[k]
    ensures SplitSpace(Join(xs, " ")) == xs
  {
    if |xs| == 1 {
      SplitPrefix(xs[0], "");
      assert xs[0] + "" == xs[0];
    } else {
      SplitJoin(xs[1..]);
      var r := Join(xs[1..], " ");
      SplitPrefix(xs[0], " " + r);
      assert Join(xs, " ") == xs[0] + (" " + r);
      assert (" " + r)[0] == ' ' && (" " + r)[1..] == r;
      assert SplitSpace(" " + r) == [""] + xs[1..];
      assert xs[0] + "" == xs[0];
      assert xs == [xs[0]] + xs[1..];
    }
  }

  /** `ws.map(w => w.charAt(0)).join('')`: the first character of every non-empty piece. */
  function FirstLetters(ws: seq<string>): string {
    if ws == [] then ""
    else (if ws[0] == "" then "" else [ws[0][0]]) + FirstLetters(ws[1..])
  }

  /**
   * Reference definition, without splitting: the non-space characters that stand at the
   * start of `s` (when `atStart`) or right after a space.
   */
  function WordStarts(s: string, atStart: bool): string {
    if s == [] then ""
    else (if atStart && s[0] != ' ' then [s[0]] else "") + WordStarts(s[1..], s[0] == ' ')
  }

  lemma {:induction false} FirstLettersOfSplit(s: string, atStart: bool)
    ensures FirstLetters(if atStart then SplitSpace(s) else SplitSpace(s)[1..]) == WordStarts(s, atStart)
  {
    if s == [] {
    } else if s[0] == ' ' {
      var t := SplitSpace(s[1..]);
      FirstLettersOfSplit(s[1..], true);
      assert ([""] + t)[1..] == t;
    } else {
      var t := SplitSpace(s[1..]);
      FirstLettersOfSplit(s[1..], false);
      var r := [[s[0]] + t[0]] + t[1..];
      assert r[1..] == t[1..];
    }
  }

  /** The source's word-initials idiom: first letters of the words, upper-cased, at most two. */
  function Initials(name: string): (r: string)
    ensures |r| <= 2
    ensures forall i | 0 <= i < |r| :: !('a' <= r[i] <= 'z')
  {
    var w := Upper(FirstLetters(SplitSpace(name)));
    w[..Min(2, |w|)]
  }

  /** The initials are the first (at most two) word-start characters of the name, upper-cased. */
  lemma InitialsAreWordStarts(name: string)
    ensures Initials(name) == Upper(WordStarts(name, true))[..Min(2, |WordStarts(name, true)|)]
  {
    FirstLettersOfSplit(name, true);
  }

  predicate IsDigit(c: char) { '0' <= c <= '9' }

  predicate IsDigits(s: string) { forall i | 0 <= i < |s| :: IsDigit(s[i]) }

  function DigitChar(d: nat): (c: char)
    requires d < 10
    ensures IsDigit(c) && c as int - '0' as int == d
  {
    ('0' as int + d) as char
  }

  /** The decimal notation of a natural number, without leading zeros. */
  function NatToDecimal(n: nat): (r: string)
    ensures |r| >= 1 && IsDigits(r)
  {
    if n < 10 then [DigitChar(n)] else NatToDecimal(n / 10) + [DigitChar(n % 10)]
  }

  /** `${i}` for an integer-valued number. */
  function IntToDecimal(i: int): string {
    if i < 0 then "-" + NatToDecimal(-i) else NatToDecimal(i)
  }

  function DigitsValue(s: string): nat
    requires IsDigits(s)
  {
    if s == [] then 0 else DigitsValue(s[..|s| - 1]) * 10 + (s[|s| - 1] as int - '0' as int)
  }

  /** Reads an optionally negative decimal integer back. */
  function ParseInt(s: string): int
    requires IsDigits(s) || (s != [] && s[0] == '-' && IsDigits(s[1..]))
  {
    if s != [] && s[0] == '-' then -(DigitsValue(s[1..]) as int) else DigitsValue(s)
  }

  lemma {:induction false} NatToDecimalRoundTrip(n: nat)
    ensures DigitsValue(NatToDecimal(n)) == n
  {
    if n >= 10 {
      NatToDecimalRoundTrip(n / 10);
      var r := NatToDecimal(n);
      assert r[..|r| - 1] == NatToDecimal(n / 10);
    }
  }

  lemma IntToDecimalRoundTrip(i: int)
    ensures var s := IntToDecimal(i);
            (IsDigits(s) || (s != [] && s[0] == '-' && IsDigits(s[1..]))) && ParseInt(s) == i
  {
    if i < 0 {
      NatToDecimalRoundTrip(-i);
      assert IntToDecimal(i)[1..] == NatToDecimal(-i);
    } else {
      NatToDecimalRoundTrip(i);
    }
  }

  /** Distinct integers print differently. */
  lemma IntToDecimalInjective(a: int, b: int)
    ensures IntToDecimal(a) == IntToDecimal(b) ==> a == b
  {
    IntToDecimalRoundTrip(a);
    IntToDecimalRoundTrip(b);
  }
}
