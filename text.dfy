/** String operations of Python's `str` that the code relies on: `join`, `replace(x, "")`,
    `strip`, `upper`/`lower` (on ASCII letters), decimal and hexadecimal rendering of integers,
    and the substring relation. */
module Text {

  /** `sep.join(parts)`. */
  function Join(parts: seq<string>, sep: string): (r: string)
    ensures |parts| == 0 ==> r == ""
    ensures |parts| == 1 ==> r == parts[0]
  {
    if |parts| == 0 then ""
    else if |parts| == 1 then parts[0]
    else parts[0] + sep + Join(parts[1..], sep)
  }

  /** `a` occurs in `s` starting at index `k`. */
  predicate OccursAt(a: string, s: string, k: int) {
    0 <= k <= |s| - |a| && s[k..k + |a|] == a
  }

  /** `a in s` for two strings: `a` occurs somewhere in `s`. */
  ghost predicate Infix(a: string, s: string) {
    exists k :: OccursAt(a, s, k)
  }

  lemma InfixHere(a: string, s: string, k: int)
    requires OccursAt(a, s, k)
    ensures Infix(a, s)
  {
  }

  /** An occurrence survives putting text on either side. */
  lemma InfixWithin(a: string, s: string, before: string, after: string)
    requires Infix(a, s)
    ensures Infix(a, before + s + after)
  {
    var k :| OccursAt(a, s, k);
    var t := before + s + after;
    assert t[|before| + k..|before| + k + |a|] == s[k..k + |a|];
    InfixHere(a, t, |before| + k);
  }

  /** An occurrence inside a slice is an occurrence in the whole string. */
  lemma InfixOfSlice(a: string, s: string, i: int, j: int)
    requires 0 <= i <= j <= |s|
    requires Infix(a, s[i..j])
    ensures Infix(a, s)
  {
    var k :| OccursAt(a, s[i..j], k);
    assert i + k + |a| <= j;
    forall m | 0 <= m < |a|
      ensures s[i + k..i + k + |a|][m] == a[m]
    {
      assert s[i..j][k..k + |a|][m] == a[m];
    }
    assert s[i + k..i + k + |a|] == a;
    InfixHere(a, s, i + k);
  }

  /** Every part of a join occurs in the joined string. */
  lemma {:induction false} InfixJoin(parts: seq<string>, sep: string, i: int)
    requires 0 <= i < |parts|
    ensures Infix(parts[i], Join(parts, sep))
    decreases |parts|
  {
    if |parts| == 1 {
      InfixHere(parts[0], parts[0], 0);
    } else if i == 0 {
      InfixHere(parts[0], parts[0], 0);
      InfixWithin(parts[0], parts[0], "", sep + Join(parts[1..], sep));
      assert "" + parts[0] + (sep + Join(parts[1..], sep)) == Join(parts, sep);
    } else {
      InfixJoin(parts[1..], sep, i - 1);
      InfixWithin(parts[i], Join(parts[1..], sep), parts[0] + sep, "");
      assert parts[0] + sep + Join(parts[1..], sep) + "" == Join(parts, sep);
    }
  }

  /** Two neighbouring parts of a join occur, with the separator between them, in the joined string. */
  lemma {:induction false} InfixJoinPair(parts: seq<string>, sep: string, i: int)
    requires 0 <= i < |parts| - 1
    ensures Infix(parts[i] + sep + parts[i + 1], Join(parts, sep))
    decreases |parts|
  {
    var rest := Join(parts[1..], sep);
    if i == 0 {
      if |parts| == 2 {
        assert rest == parts[1];
        InfixHere(parts[0] + sep + parts[1], Join(parts, sep), 0);
      } else {
        assert rest == parts[1] + sep + Join(parts[2..], sep);
        var a := parts[0] + sep + parts[1];
        assert Join(parts, sep) == a + (sep + Join(parts[2..], sep));
        InfixHere(a, a, 0);
        InfixWithin(a, a, "", sep + Join(parts[2..], sep));
        assert "" + a + (sep + Join(parts[2..], sep)) == Join(parts, sep);
      }
    } else {
      InfixJoinPair(parts[1..], sep, i - 1);
      InfixWithin(parts[i] + sep + parts[i + 1], rest, parts[0] + sep, "");
      assert parts[0] + sep + rest + "" == Join(parts, sep);
    }
  }

  /** `s.replace(pat, "")`: occurrences of `pat` are removed scanning left to right, without overlap. */
  function RemoveAll(s: string, pat: string): (r: string)
    requires pat != []
    ensures |r| <= |s|
    decreases |s|
  {
    if |s| < |pat| then s
    else if s[..|pat|] == pat then RemoveAll(s[|pat|..], pat)
    else [s[0]] + RemoveAll(s[1..], pat)
  }

  /** The Markdown code fence. */
  const Fence := "```"

  /** No three consecutive backticks anywhere in `s`. */
  predicate FenceFree(s: string) {
    forall k :: 0 <= k <= |s| - 3 ==> !(s[k] == '`' && s[k + 1] == '`' && s[k + 2] == '`')
  }

  lemma FenceFreeHasNoFence(s: string)
    requires FenceFree(s)
    ensures !Infix(Fence, s)
  {
    forall k | 0 <= k <= |s| - 3
      ensures !OccursAt(Fence, s, k)
    {
      assert s[k..k + 3] == [s[k], s[k + 1], s[k + 2]];
    }
  }

  /** Removing every fence leaves no fence behind: a kept character is never the start of a
      fence, and a kept backtick followed by two more kept backticks would have been one. */
  lemma {:induction false} RemoveFenceLeavesNone(s: string)
    ensures FenceFree(RemoveAll(s, Fence))
    ensures var r := RemoveAll(s, Fence);
      (|r| > 0 && r[0] == '`' ==> |s| > 0 && s[0] == '`') &&
      (|r| > 1 && r[0] == '`' && r[1] == '`' ==> |s| > 1 && s[0] == '`' && s[1] == '`')
    decreases |s|
  {
    var r := RemoveAll(s, Fence);
    if |s| < 3 {
      assert r == s;
    } else if s[..3] == Fence {
      RemoveFenceLeavesNone(s[3..]);
      assert s[..3] == [s[0], s[1], s[2]];
    } else {
      var rest := RemoveAll(s[1..], Fence);
      RemoveFenceLeavesNone(s[1..]);
      assert r == [s[0]] + rest;
      assert s[..3] == [s[0], s[1], s[2]];
      forall k | 0 <= k <= |r| - 3
        ensures !(r[k] == '`' && r[k + 1] == '`' && r[k + 2] == '`')
      {
        if k > 0 {
          assert r[k] == rest[k - 1] && r[k + 1] == rest[k] && r[k + 2] == rest[k + 1];
        }
      }
    }
  }

  /** Python's `str.isspace` for one character (the full Unicode whitespace set). */
  predicate IsSpace(c: char) {
    c == ' ' || ('\t' <= c <= '\r') || ('\U{1c}' <= c <= '\U{1f}') || c == '\U{85}' || c == '\U{a0}'
    || c == '\U{1680}' || ('\U{2000}' <= c <= '\U{200a}') || c == '\U{2028}' || c == '\U{2029}'
    || c == '\U{202f}' || c == '\U{205f}' || c == '\U{3000}'
  }

  /** `s.lstrip()`: the suffix left after dropping leading whitespace. */
  function TrimLeft(s: string): (r: string)
    ensures |r| <= |s| && r == s[|s| - |r|..]
    ensures r == [] || !IsSpace(r[0])
    ensures forall i :: 0 <= i < |s| - |r| ==> IsSpace(s[i])
  {
    if |s| > 0 && IsSpace(s[0]) then TrimLeft(s[1..]) else s
  }

  /** `s.rstrip()`: the prefix left after dropping trailing whitespace. */
  function TrimRight(s: string): (r: string)
    ensures |r| <= |s| && r == s[..|r|]
    ensures r == [] || !IsSpace(r[|r| - 1])
    ensures forall i :: |r| <= i < |s| ==> IsSpace(s[i])
  {
    if |s| > 0 && IsSpace(s[|s| - 1]) then TrimRight(s[..|s| - 1]) else s
  }

  /** `s.strip()`. */
  function Strip(s: string): string {
    TrimRight(TrimLeft(s))
  }

  /** Stripping only cuts text off the ends, so it cannot create an occurrence. */
  lemma InfixOfStrip(a: string, s: string)
    requires Infix(a, Strip(s))
    ensures Infix(a, s)
  {
    var l := TrimLeft(s);
    InfixOfSlice(a, l, 0, |Strip(s)|);
    assert s[|s| - |l|..|s|] == l;
    InfixOfSlice(a, s, |s| - |l|, |s|);
  }

  /** `s.strip()` is empty exactly when `s` holds only whitespace (Python's `not s.strip()`). */
  lemma StripEmptyIffBlank(s: string)
    ensures Strip(s) == [] <==> forall i :: 0 <= i < |s| ==> IsSpace(s[i])
  {
    var l := TrimLeft(s);
    if l != [] {
      assert !IsSpace(s[|s| - |l|]);
      assert Strip(s) != [] by { assert TrimRight(l)[0] == l[0] || |TrimRight(l)| > 0; }
    }
  }

  /** Text with no whitespace at either end is left as it is by `strip()`. */
  lemma StripStripped(s: string)
    requires s == [] || (!IsSpace(s[0]) && !IsSpace(s[|s| - 1]))
    ensures Strip(s) == s
  {
  }

  /** `s.strip().strip() == s.strip()`. */
  lemma StripIdempotent(s: string)
    ensures Strip(Strip(s)) == Strip(s)
  {
    var l := TrimLeft(s);
    var r := Strip(s);
    if r != [] {
      assert r[0] == l[0];
    }
    StripStripped(r);
  }

  function LowerChar(c: char): char {
    if 'A' <= c <= 'Z' then (c as int + 32) as char else c
  }

  function UpperChar(c: char): char {
    if 'a' <= c <= 'z' then (c as int - 32) as char else c
  }

  /** `s.lower()` on ASCII letters; other characters are kept. */
  function LowerAscii(s: string): (r: string)
    ensures |r| == |s|
  {
    seq(|s|, i requires 0 <= i < |s| => LowerChar(s[i]))
  }

  /** `s.upper()` on ASCII letters; other characters are kept. */
  function UpperAscii(s: string): (r: string)
    ensures |r| == |s|
  {
    seq(|s|, i requires 0 <= i < |s| => UpperChar(s[i]))
  }

  /** Text `upper()` leaves as it is. */
  predicate UpperCased(s: string) {
    forall i :: 0 <= i < |s| ==> UpperChar(s[i]) == s[i]
  }

  /** What `upper()` returns is upper-cased. */
  lemma UpperCasedUpper(s: string)
    ensures UpperCased(UpperAscii(s))
  {
  }

  /** Every piece of upper-cased text is upper-cased. */
  lemma UpperCasedSlice(s: string, i: int, j: int)
    requires UpperCased(s) && 0 <= i <= j <= |s|
    ensures UpperCased(s[i..j])
  {
    forall k | 0 <= k < j - i
      ensures UpperChar(s[i..j][k]) == s[i..j][k]
    {
      assert s[i..j][k] == s[i + k];
    }
  }

  lemma UpperOfUpperCased(s: string)
    requires UpperCased(s)
    ensures UpperAscii(s) == s
  {
  }

  /** `strip()` returns a slice of its argument. */
  lemma StripIsSlice(s: string)
    ensures var i := |s| - |TrimLeft(s)|; i + |Strip(s)| <= |s| && Strip(s) == s[i..i + |Strip(s)|]
  {
    var l := TrimLeft(s);
    var i := |s| - |l|;
    assert Strip(s) == l[..|Strip(s)|];
    assert l[..|Strip(s)|] == s[i..i + |Strip(s)|];
  }

  /** `s.upper().strip()` is left alone by a second `upper().strip()`. */
  lemma UpperStripSettled(s: string)
    ensures Strip(UpperAscii(Strip(UpperAscii(s)))) == Strip(UpperAscii(s))
  {
    var x := UpperAscii(s);
    var u := Strip(x);
    StripIsSlice(x);
    UpperCasedUpper(s);
    UpperCasedSlice(x, |x| - |TrimLeft(x)|, |x| - |TrimLeft(x)| + |u|);
    UpperOfUpperCased(u);
    StripIdempotent(x);
  }

  function DigitChar(d: nat): (c: char)
    requires d < 16
  {
    if d < 10 then ('0' as int + d) as char else ('a' as int + d - 10) as char
  }

  /** `str(n)` for a non-negative integer. */
  function NatToString(n: nat): (r: string)
    ensures |r| > 0
    ensures forall i :: 0 <= i < |r| ==> '0' <= r[i] <= '9'
  {
    if n < 10 then [DigitChar(n)] else NatToString(n / 10) + [DigitChar(n % 10)]
  }

  /** `format(n, "0{width}x")`: lower-case hexadecimal, zero-padded to `width` digits. */
  function Hex(n: nat, width: nat): (r: string)
    ensures |r| == width
  {
    if width == 0 then "" else Hex(n / 16, width - 1) + [DigitChar(n % 16)]
  }
}
