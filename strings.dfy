/** The JavaScript string operations the source relies on, over `seq<char>`:
    `toLowerCase` (ASCII letters only), `trim` and the `\s` class, `includes`,
    `join`, `split` on one character, and number-to-text conversion. */
module Strings {
  import opened Base

  /** The characters `String.prototype.trim` removes and the regular-expression
      class `\s` matches: ECMAScript WhiteSpace and LineTerminator. */
  predicate IsSpace(c: char) {
    var n := c as int;
    n == 0x09 || n == 0x0A || n == 0x0B || n == 0x0C || n == 0x0D || n == 0x20
    || n == 0xA0 || n == 0x1680 || (0x2000 <= n <= 0x200A) || n == 0x2028
    || n == 0x2029 || n == 0x202F || n == 0x205F || n == 0x3000 || n == 0xFEFF
  }

  predicate IsAsciiUpper(c: char) { 'A' <= c <= 'Z' }
  predicate IsAsciiLower(c: char) { 'a' <= c <= 'z' }
  predicate IsDigit(c: char) { '0' <= c <= '9' }

  function LowerChar(c: char): (r: char)
    ensures !IsAsciiUpper(r)
    ensures !IsAsciiUpper(c) ==> r == c
    ensures IsAsciiUpper(c) ==> IsAsciiLower(r)
  {
    if IsAsciiUpper(c) then (c as int + 32) as char else c
  }

  /** `toLowerCase`, restricted to ASCII letters. */
  function ToLower(s: string): (r: string)
    ensures |r| == |s|
    ensures forall i :: 0 <= i < |s| ==> r[i] == LowerChar(s[i])
  {
    if s == [] then [] else [LowerChar(s[0])] + ToLower(s[1..])
  }

  lemma {:induction false} ToLowerIdempotent(s: string)
    ensures ToLower(ToLower(s)) == ToLower(s)
  {
    var l := ToLower(s);
    assert forall i :: 0 <= i < |l| ==> LowerChar(l[i]) == l[i];
  }

  /** A text whose characters lower-case one by one to `e` lower-cases to `e`. */
  lemma ToLowerEach(s: string, e: string)
    requires |s| == |e|
    requires forall i :: 0 <= i < |s| ==> LowerChar(s[i]) == e[i]
    ensures ToLower(s) == e
  {
  }

  lemma ToLowerConcat(a: string, b: string)
    ensures ToLower(a + b) == ToLower(a) + ToLower(b)
  {
    assert forall i :: 0 <= i < |a + b| ==> ToLower(a + b)[i] == (ToLower(a) + ToLower(b))[i];
  }

  // ---------------------------------------------------------------- trim

  /** `trimStart`: drop the leading white space. */
  function TrimStart(s: string): (r: string)
    ensures |r| <= |s|
    ensures r == [] || !IsSpace(r[0])
  {
    if s != [] && IsSpace(s[0]) then TrimStart(s[1..]) else s
  }

  /** `trimEnd`: drop the trailing white space. */
  function TrimEnd(s: string): (r: string)
    ensures |r| <= |s|
    ensures r == [] || !IsSpace(r[|r| - 1])
  {
    if s != [] && IsSpace(s[|s| - 1]) then TrimEnd(s[..|s| - 1]) else s
  }

  /** `trimStart` leaves a suffix and cuts away white space only. */
  lemma {:induction false} TrimStartSlice(s: string)
    ensures TrimStart(s) == s[|s| - |TrimStart(s)|..]
    ensures forall i :: 0 <= i < |s| - |TrimStart(s)| ==> IsSpace(s[i])
  {
    if s != [] && IsSpace(s[0]) {
      TrimStartSlice(s[1..]);
      var r := TrimStart(s[1..]);
      assert s[1..][|s| - 1 - |r|..] == s[|s| - |r|..];
      forall i | 1 <= i < |s| - |r|
        ensures IsSpace(s[i])
      {
        assert s[i] == s[1..][i - 1];
      }
    }
  }

  /** `trimEnd` leaves a prefix and cuts away white space only. */
  lemma {:induction false} TrimEndSlice(s: string)
    ensures TrimEnd(s) == s[..|TrimEnd(s)|]
    ensures forall i :: |TrimEnd(s)| <= i < |s| ==> IsSpace(s[i])
  {
    if s != [] && IsSpace(s[|s| - 1]) {
      var init := s[..|s| - 1];
      TrimEndSlice(init);
      var r := TrimEnd(init);
      assert init[..|r|] == s[..|r|];
      forall i | |r| <= i < |s| - 1
        ensures IsSpace(s[i])
      {
        assert s[i] == init[i];
      }
    }
  }

  /** `r` is the slice of `s` at offset `k` and everything outside it is white space. */
  predicate TrimsTo(s: string, r: string, k: int) {
    0 <= k <= |s| - |r| && r == s[k..k + |r|]
    && (forall i :: 0 <= i < k ==> IsSpace(s[i]))
    && (forall i :: k + |r| <= i < |s| ==> IsSpace(s[i]))
  }

  /** `String.prototype.trim`: no white space is left at either end. */
  function Trim(s: string): (r: string)
    ensures r == [] || (!IsSpace(r[0]) && !IsSpace(r[|r| - 1]))
  {
    var t := TrimStart(s);
    TrimEndSlice(t);
    TrimEnd(t)
  }

  /** The trimmed text is a slice of the input, and everything cut away is
      white space. */
  lemma TrimIsSlice(s: string)
    ensures exists k :: TrimsTo(s, Trim(s), k)
  {
    var t := TrimStart(s);
    var r := TrimEnd(t);
    assert r == Trim(s);
    TrimStartSlice(s);
    TrimEndSlice(t);
    var k := |s| - |t|;
    assert t == s[k..];
    assert r == t[..|r|];
    assert r == s[k..k + |r|];
    forall i | k + |r| <= i < |s|
      ensures IsSpace(s[i])
    {
      assert s[i] == t[i - k];
    }
    assert TrimsTo(s, r, k);
  }

  /** `!x.trim()`: the text is empty or white space only. */
  predicate IsBlank(s: string) {
    Trim(s) == []
  }

  lemma {:induction false} BlankIffAllSpace(s: string)
    ensures IsBlank(s) <==> forall i :: 0 <= i < |s| ==> IsSpace(s[i])
  {
    var r := Trim(s);
    TrimIsSlice(s);
    var k :| TrimsTo(s, r, k);
    if r != [] {
      assert r[0] == s[k];
    }
  }

  lemma TrimUnchanged(s: string)
    requires s == [] || (!IsSpace(s[0]) && !IsSpace(s[|s| - 1]))
    ensures Trim(s) == s
  {
  }

  /** One leading space and no trailing white space: trimming removes exactly the space. */
  lemma {:induction false} TrimLeadingSpace(d: string)
    requires Trim(d) == d
    ensures Trim([' '] + d) == d
  {
    var s := [' '] + d;
    assert s[1..] == d;
    if d == [] {
      assert TrimStart(s) == TrimStart(d) == [];
    } else {
      assert !IsSpace(d[0]) && !IsSpace(d[|d| - 1]);
      assert TrimStart(s) == TrimStart(d) == d;
    }
  }

  // ------------------------------------------------------------ includes

  predicate IsPrefix(p: string, s: string) {
    |p| <= |s| && s[..|p|] == p
  }

  /** `sub` occurs in `s` starting at position `i`. */
  predicate OccursAt(s: string, sub: string, i: int) {
    0 <= i <= |s| - |sub| && s[i..i + |sub|] == sub
  }

  /** `s.includes(sub)`. */
  predicate Contains(s: string, sub: string)
    decreases |s|
  {
    IsPrefix(sub, s) || (s != [] && Contains(s[1..], sub))
  }

  /** `includes` holds exactly when `sub` occurs at some position. */
  lemma {:induction false} ContainsIff(s: string, sub: string)
    ensures Contains(s, sub) <==> exists i :: OccursAt(s, sub, i)
    decreases |s|
  {
    if IsPrefix(sub, s) {
      assert OccursAt(s, sub, 0);
    } else if s != [] {
      ContainsIff(s[1..], sub);
      if exists i :: OccursAt(s, sub, i) {
        var i :| OccursAt(s, sub, i);
        assert i != 0;
        assert s[1..][i - 1..i - 1 + |sub|] == s[i..i + |sub|];
        assert OccursAt(s[1..], sub, i - 1);
      }
      if Contains(s[1..], sub) {
        var j :| OccursAt(s[1..], sub, j);
        assert s[1..][j..j + |sub|] == s[j + 1..j + 1 + |sub|];
        assert OccursAt(s, sub, j + 1);
      }
    }
  }

  lemma ContainsEmpty(s: string)
    ensures Contains(s, [])
  {
    assert IsPrefix([], s);
  }

  // ------------------------------------------------------------ join, split

  /** `parts.join(sep)`. */
  function Join(parts: seq<string>, sep: string): (r: string)
    ensures parts == [] ==> r == []
    ensures |parts| == 1 ==> r == parts[0]
  {
    if parts == [] then []
    else if |parts| == 1 then parts[0]
    else parts[0] + sep + Join(parts[1..], sep)
  }

  /** `s.split(c)` for a one-character separator: the pieces between the
      occurrences of `c`; there is always at least one piece. */
  function Split(s: string, c: char): (r: seq<string>)
    ensures |r| >= 1
    ensures forall i :: 0 <= i < |r| ==> c !in r[i]
    ensures c !in s ==> r == [s]
  {
    if s == [] then [[]]
    else if s[0] == c then [[]] + Split(s[1..], c)
    else
      var rest := Split(s[1..], c);
      assert c !in s ==> [s[0]] + s[1..] == s;
      [[s[0]] + rest[0]] + rest[1..]
  }

  /** A leading separator opens an empty first piece. */
  lemma SplitAtSeparator(x: string, c: char)
    ensures Split([c] + x, c) == [[]] + Split(x, c)
  {
    assert ([c] + x)[1..] == x;
  }

  /** Splitting after a separator-free prefix: the prefix glues onto the first piece. */
  lemma {:induction false} SplitPrefix(a: string, b: string, c: char)
    requires c !in a
    ensures Split(a + b, c) == [a + Split(b, c)[0]] + Split(b, c)[1..]
  {
    var sb := Split(b, c);
    if a != [] {
      assert (a + b)[1..] == a[1..] + b;
      SplitPrefix(a[1..], b, c);
      assert [a[0]] + (a[1..] + sb[0]) == a + sb[0];
    } else {
      assert a + b == b;
      assert a + sb[0] == sb[0];
      assert sb == [sb[0]] + sb[1..];
    }
  }

  /** `tail` put in front of every string of `ps`. */
  function PrefixEach(tail: string, ps: seq<string>): (r: seq<string>)
    ensures |r| == |ps|
    ensures forall i :: 0 <= i < |ps| ==> r[i] == tail + ps[i]
  {
    if ps == [] then [] else [tail + ps[0]] + PrefixEach(tail, ps[1..])
  }

  /** Splitting a join at the first character of the separator gives the
      pieces back, each but the first still carrying the rest of the
      separator, provided no piece and no separator tail holds that character. */
  lemma {:induction false} SplitJoin(parts: seq<string>, c: char, tail: string)
    requires |parts| >= 1
    requires forall i :: 0 <= i < |parts| ==> c !in parts[i]
    requires c !in tail
    ensures Split(Join(parts, [c] + tail), c) == [parts[0]] + PrefixEach(tail, parts[1..])
  {
    if |parts| > 1 {
      var rest := Join(parts[1..], [c] + tail);
      SplitJoin(parts[1..], c, tail);
      var srest := Split(rest, c);
      assert srest == [parts[1]] + PrefixEach(tail, parts[2..]) by {
        assert parts[1..][1..] == parts[2..];
      }
      assert parts[0] + ([c] + tail) + rest == parts[0] + ([c] + (tail + rest));
      SplitPrefix(parts[0], [c] + (tail + rest), c);
      SplitAtSeparator(tail + rest, c);
      SplitPrefix(tail, rest, c);
      var st := Split(tail + rest, c);
      assert st == PrefixEach(tail, parts[1..]);
      assert Split([c] + (tail + rest), c) == [[]] + st;
      assert parts[0] + [] == parts[0];
    }
  }

  // ----------------------------------------------------------- email domain

  /** `email.split('@')[1]`: the text between the first and the second '@',
      or nothing when there is no '@'. */
  function EmailDomain(email: string): (r: Option<string>)
    ensures r.None? <==> '@' !in email
  {
    var parts := Split(email, '@');
    SplitHasSeparatorPiece(email, '@');
    if |parts| > 1 then Some(parts[1]) else None
  }

  lemma {:induction false} SplitHasSeparatorPiece(s: string, c: char)
    ensures |Split(s, c)| > 1 <==> c in s
  {
    if s != [] {
      SplitHasSeparatorPiece(s[1..], c);
      assert s == [s[0]] + s[1..];
    }
  }

  /** The domain of `local@domain` (followed by nothing or by another '@') is `domain`. */
  lemma EmailDomainOf(local: string, domain: string, rest: string)
    requires '@' !in local && '@' !in domain
    requires rest == [] || rest[0] == '@'
    ensures EmailDomain(local + ['@'] + domain + rest) == Some(domain)
  {
    var e := local + ['@'] + domain + rest;
    assert e == local + (['@'] + (domain + rest));
    SplitPrefix(local, ['@'] + (domain + rest), '@');
    SplitAtSeparator(domain + rest, '@');
    SplitPrefix(domain, rest, '@');
    var sr := Split(rest, '@');
    if rest != [] {
      assert rest == ['@'] + rest[1..];
      SplitAtSeparator(rest[1..], '@');
    }
    assert sr[0] == [];
    assert domain + sr[0] == domain;
    assert Split(e, '@')[1] == domain;
  }

  // ---------------------------------------------------------- number text

  function DigitChar(d: nat): (c: char)
    requires d < 10
    ensures IsDigit(c)
  {
    ('0' as int + d) as char
  }

  /** Decimal text of a natural number, without leading zeros. */
  function NatToString(n: nat): (r: string)
    ensures |r| >= 1
    ensures forall i :: 0 <= i < |r| ==> IsDigit(r[i])
    ensures n > 0 ==> r[0] != '0'
  {
    if n < 10 then [DigitChar(n)] else NatToString(n / 10) + [DigitChar(n % 10)]
  }

  /** Template-literal text of an integer (`${n}`). */
  function IntToString(n: int): (r: string)
    ensures |r| >= 1
  {
    if n < 0 then "-" + NatToString(-n) else NatToString(n)
  }
}
