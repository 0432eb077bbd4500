/** String operations of the JavaScript runtime that the recipe app relies on:
    `trim`, `trimStart`/`trimEnd`, `Array.prototype.join`, `split("\n")`,
    `String.prototype.repeat`, the decimal rendering of an integer inside a
    template literal, and `parseInt` with no radix argument.
    Strings are sequences of `char`, each a Unicode scalar value. */
module Text {

  datatype Option<+T> = None | Some(value: T)

  // ---------------------------------------------------------------------------
  // Whitespace and trimming
  // ---------------------------------------------------------------------------

  /** The ECMAScript WhiteSpace and LineTerminator code points: the set that
      `trim` removes and that `parseInt` skips before the number. */
  predicate IsWhitespace(c: char) {
    || c == '\t' || c == '\n' || c == '\U{000B}' || c == '\U{000C}' || c == '\r'
    || c == ' ' || c == '\U{00A0}' || c == '\U{1680}'
    || ('\U{2000}' <= c <= '\U{200A}')
    || c == '\U{2028}' || c == '\U{2029}' || c == '\U{202F}' || c == '\U{205F}'
    || c == '\U{3000}' || c == '\U{FEFF}'
  }

  predicate AllWhitespace(s: string) {
    forall i :: 0 <= i < |s| ==> IsWhitespace(s[i])
  }

  /** Neither the first nor the last character is whitespace. */
  predicate NoOuterWhitespace(s: string) {
    s == [] || (!IsWhitespace(s[0]) && !IsWhitespace(s[|s| - 1]))
  }

  /** The length of the longest all-whitespace prefix of `s`. */
  function LeadingWhitespace(s: string): (n: nat)
    ensures n <= |s|
    ensures forall k :: 0 <= k < n ==> IsWhitespace(s[k])
    ensures n < |s| ==> !IsWhitespace(s[n])
  {
    if s == [] || !IsWhitespace(s[0]) then 0
    else 1 + LeadingWhitespace(s[1..])
  }

  /** The start of the longest all-whitespace suffix of `s`. */
  function TrailingWhitespace(s: string): (m: nat)
    ensures m <= |s|
    ensures forall k :: m <= k < |s| ==> IsWhitespace(s[k])
    ensures 0 < m ==> !IsWhitespace(s[m - 1])
  {
    if s == [] || !IsWhitespace(s[|s| - 1]) then |s|
    else TrailingWhitespace(s[..|s| - 1])
  }

  /** JavaScript's `trimStart`: `s` without its leading whitespace. */
  function TrimStart(s: string): (r: string)
    ensures |r| <= |s| && r == s[|s| - |r|..]
    ensures forall k :: 0 <= k < |s| - |r| ==> IsWhitespace(s[k])
    ensures r == [] || !IsWhitespace(r[0])
  {
    s[LeadingWhitespace(s)..]
  }

  /** JavaScript's `trimEnd`: `s` without its trailing whitespace. */
  function TrimEnd(s: string): (r: string)
    ensures |r| <= |s| && r == s[..|r|]
    ensures forall k :: |r| <= k < |s| ==> IsWhitespace(s[k])
    ensures r == [] || !IsWhitespace(r[|r| - 1])
  {
    s[..TrailingWhitespace(s)]
  }

  /** JavaScript's `String.prototype.trim`: the part of `s` between its
      leading and its trailing whitespace. */
  function Trim(s: string): (r: string)
    ensures NoOuterWhitespace(r)
    ensures var i := LeadingWhitespace(s);
      && i + |r| <= |s| && r == s[i..i + |r|]
      && (forall k :: 0 <= k < i ==> IsWhitespace(s[k]))
      && (forall k :: i + |r| <= k < |s| ==> IsWhitespace(s[k]))
  {
    var t := TrimStart(s);
    var r := TrimEnd(t);
    assert r == [] || r[0] == t[0];
    r
  }

  /** A string is its own trim exactly when it has no outer whitespace. */
  lemma TrimFixpoint(s: string)
    ensures Trim(s) == s <==> NoOuterWhitespace(s)
  {
  }

  lemma TrimIdempotent(s: string)
    ensures Trim(Trim(s)) == Trim(s)
  {
    TrimFixpoint(Trim(s));
  }

  /** The three properties of `LeadingWhitespace` determine it. */
  lemma LeadingWhitespaceIs(s: string, n: nat)
    requires n <= |s|
    requires forall k :: 0 <= k < n ==> IsWhitespace(s[k])
    requires n < |s| ==> !IsWhitespace(s[n])
    ensures LeadingWhitespace(s) == n
  {
  }

  /** The three properties of `TrailingWhitespace` determine it. */
  lemma TrailingWhitespaceIs(s: string, m: nat)
    requires m <= |s|
    requires forall k :: m <= k < |s| ==> IsWhitespace(s[k])
    requires 0 < m ==> !IsWhitespace(s[m - 1])
    ensures TrailingWhitespace(s) == m
  {
  }

  /** Leading whitespace in front of a string that starts with a
      non-whitespace character is exactly what `trimStart` removes. */
  lemma TrimStartAfterWhitespace(w: string, p: string)
    requires AllWhitespace(w)
    requires p != [] && !IsWhitespace(p[0])
    ensures TrimStart(w + p) == p
  {
    var s := w + p;
    assert forall k :: 0 <= k < |w| ==> s[k] == w[k];
    assert s[|w|] == p[0];
    LeadingWhitespaceIs(s, |w|);
    assert s[|w|..] == p;
  }

  /** Appending whitespace does not change what `trimEnd` keeps. */
  lemma TrimEndAppendWhitespace(p: string, w: string)
    requires AllWhitespace(w)
    ensures TrimEnd(p + w) == TrimEnd(p)
  {
    var s := p + w;
    var m := TrailingWhitespace(p);
    assert forall k :: m <= k < |s| ==> IsWhitespace(s[k]) by {
      forall k | m <= k < |s| ensures IsWhitespace(s[k]) {
        if k < |p| { assert s[k] == p[k]; } else { assert s[k] == w[k - |p|]; }
      }
    }
    assert 0 < m ==> s[m - 1] == p[m - 1];
    TrailingWhitespaceIs(s, m);
    assert s[..m] == p[..m];
  }

  /** `trimEnd` never reaches into a prefix that ends in a non-whitespace
      character. */
  lemma TrimEndKeepsPrefix(p: string, q: string)
    requires p != [] && !IsWhitespace(p[|p| - 1])
    ensures TrimEnd(p + q) == p + TrimEnd(q)
  {
    var s := p + q;
    var m := |p| + TrailingWhitespace(q);
    assert forall k :: m <= k < |s| ==> s[k] == q[k - |p|];
    assert s[m - 1] == if m == |p| then p[|p| - 1] else q[m - 1 - |p|];
    TrailingWhitespaceIs(s, m);
    assert s[..m] == p + q[..TrailingWhitespace(q)];
  }

  /** `trimEnd` stops at the last non-whitespace character, so whatever
      comes before it is kept. */
  lemma TrimEndBeforeNonWhitespace(p: string, q: string, c: char)
    requires c in q && !IsWhitespace(c)
    ensures TrimEnd(p + q) == p + TrimEnd(q)
  {
    var s := p + q;
    var k := TrailingWhitespace(q);
    var m := |p| + k;
    var i :| 0 <= i < |q| && q[i] == c;
    assert forall j :: m <= j < |s| ==> s[j] == q[j - |p|];
    assert 0 < k;
    assert s[m - 1] == q[k - 1];
    TrailingWhitespaceIs(s, m);
    assert s[..m] == p + q[..k];
  }

  // ---------------------------------------------------------------------------
  // Join, split, repeat
  // ---------------------------------------------------------------------------

  /** `Array.prototype.join(sep)` over strings: empty for no entries,
      otherwise opening with the first entry and closing with the last. */
  function Join(xs: seq<string>, sep: string): (r: string)
    ensures xs == [] ==> r == []
    ensures xs != [] ==> |xs[0]| <= |r| && r[..|xs[0]|] == xs[0]
  {
    if xs == [] then ""
    else if |xs| == 1 then xs[0]
    else xs[0] + sep + Join(xs[1..], sep)
  }

  /** A join closes with its last entry. */
  lemma {:induction false} JoinEndsWithLast(xs: seq<string>, sep: string)
    requires xs != []
    ensures var last := xs[|xs| - 1]; var j := Join(xs, sep);
      |last| <= |j| && j[|j| - |last|..] == last
  {
    if |xs| > 1 {
      JoinEndsWithLast(xs[1..], sep);
      assert xs[1..][|xs| - 2] == xs[|xs| - 1];
    }
  }

  /** A join of two lists closes with the last entry of the second. */
  lemma JoinEndsWithLastOf(a: seq<string>, b: seq<string>, sep: string)
    requires b != []
    ensures var last := b[|b| - 1]; var j := Join(a + b, sep);
      |last| <= |j| && j[|j| - |last|..] == last
  {
    assert (a + b)[|a + b| - 1] == b[|b| - 1];
    JoinEndsWithLast(a + b, sep);
  }

  /** Joining two non-empty lists is joining each and putting the separator
      between them. */
  lemma {:induction false} JoinAppend(a: seq<string>, b: seq<string>, sep: string)
    requires a != [] && b != []
    ensures Join(a + b, sep) == Join(a, sep) + sep + Join(b, sep)
  {
    if |a| == 1 {
      assert (a + b)[1..] == b;
    } else {
      assert (a + b)[1..] == a[1..] + b;
      JoinAppend(a[1..], b, sep);
    }
  }

  lemma JoinCons(x: string, xs: seq<string>, sep: string)
    requires xs != []
    ensures Join([x] + xs, sep) == x + sep + Join(xs, sep)
  {
    assert ([x] + xs)[1..] == xs;
  }

  /** Joining a list in which one entry is itself a join is joining the
      flattened list. */
  lemma JoinFlatten(a: seq<string>, b: seq<string>, c: seq<string>, sep: string)
    requires b != []
    ensures Join(a + [Join(b, sep)] + c, sep) == Join(a + b + c, sep)
  {
    var j := [Join(b, sep)];
    if a == [] && c == [] {
      assert a + j + c == j && a + b + c == b;
    } else if a == [] {
      assert a + j + c == j + c && a + b + c == b + c;
      JoinAppend(j, c, sep);
      JoinAppend(b, c, sep);
    } else if c == [] {
      assert a + j + c == a + j && a + b + c == a + b;
      JoinAppend(a, j, sep);
      JoinAppend(a, b, sep);
    } else {
      assert a + j + c == a + (j + c) && a + b + c == a + (b + c);
      JoinAppend(a, j + c, sep);
      JoinAppend(j, c, sep);
      JoinAppend(a, b + c, sep);
      JoinAppend(b, c, sep);
    }
  }

  /** Every character of every entry appears in the join. */
  lemma {:induction false} JoinHasChar(xs: seq<string>, sep: string, i: nat, c: char)
    requires i < |xs| && c in xs[i]
    ensures c in Join(xs, sep)
  {
    if |xs| > 1 {
      if i == 0 {
        assert Join(xs, sep) == xs[0] + (sep + Join(xs[1..], sep));
      } else {
        JoinHasChar(xs[1..], sep, i - 1, c);
        assert Join(xs, sep) == (xs[0] + sep) + Join(xs[1..], sep);
      }
    }
  }

  /** `s.split("\n")`: the lines of `s`, always at least one. */
  function SplitLines(s: string): (ls: seq<string>)
    ensures 1 <= |ls| <= |s| + 1
    ensures forall i :: 0 <= i < |ls| ==> '\n' !in ls[i]
  {
    if s == [] then [""]
    else if s[0] == '\n' then [""] + SplitLines(s[1..])
    else
      var rest := SplitLines(s[1..]);
      [[s[0]] + rest[0]] + rest[1..]
  }

  /** A line without a newline, followed by a newline, is the first line. */
  lemma {:induction false} SplitLinesCons(a: string, rest: string)
    requires '\n' !in a
    ensures SplitLines(a + "\n" + rest) == [a] + SplitLines(rest)
  {
    if a != [] {
      assert (a + "\n" + rest)[1..] == a[1..] + "\n" + rest;
      SplitLinesCons(a[1..], rest);
      assert [a[0]] + a[1..] == a;
    } else {
      assert (a + "\n" + rest)[1..] == rest;
    }
  }

  lemma {:induction false} SplitLinesSingle(a: string)
    requires '\n' !in a
    ensures SplitLines(a) == [a]
  {
    if a != [] {
      SplitLinesSingle(a[1..]);
      assert [a[0]] + a[1..] == a;
    }
  }

  /** Lines without newlines, joined with newlines, split back into the same
      lines. */
  lemma {:induction false} SplitJoin(ls: seq<string>)
    requires ls != []
    requires forall i :: 0 <= i < |ls| ==> '\n' !in ls[i]
    ensures SplitLines(Join(ls, "\n")) == ls
  {
    if |ls| == 1 {
      SplitLinesSingle(ls[0]);
    } else {
      SplitLinesCons(ls[0], Join(ls[1..], "\n"));
      SplitJoin(ls[1..]);
    }
  }

  /** `c.repeat(n)` for a one-character string `c`. */
  function Repeat(c: char, n: nat): (r: string)
    ensures |r| == n
    ensures forall i :: 0 <= i < n ==> r[i] == c
  {
    if n == 0 then [] else [c] + Repeat(c, n - 1)
  }

  // ---------------------------------------------------------------------------
  // Decimal integers
  // ---------------------------------------------------------------------------

  predicate IsDecimalDigit(c: char) {
    '0' <= c <= '9'
  }

  function DigitChar(d: nat): (c: char)
    requires d < 10
    ensures IsDecimalDigit(c) && c as int - '0' as int == d
  {
    (d + '0' as int) as char
  }

  /** The decimal digits of `n`, most significant first, without leading
      zeros. */
  function NatToDecimal(n: nat): (s: string)
    ensures |s| >= 1
    ensures forall i :: 0 <= i < |s| ==> IsDecimalDigit(s[i])
    ensures s[0] == '0' ==> n == 0 && |s| == 1
  {
    if n < 10 then [DigitChar(n)] else NatToDecimal(n / 10) + [DigitChar(n % 10)]
  }

  /** How a template literal renders an integral number: an optional minus
      sign followed by the decimal digits. */
  function IntToDecimal(n: int): (s: string)
    ensures s != [] && (s[0] == '-' <==> n < 0)
    ensures forall i :: (if n < 0 then 1 else 0) <= i < |s| ==> IsDecimalDigit(s[i])
    ensures n >= 0 ==> s == NatToDecimal(n)
    ensures n < 0 ==> s == "-" + NatToDecimal(-n)
  {
    if n < 0 then "-" + NatToDecimal(-n) else NatToDecimal(n)
  }

  // ---------------------------------------------------------------------------
  // parseInt
  // ---------------------------------------------------------------------------

  /** The value of `c` as a digit in base `radix` (10 or 16), if it is one. */
  function DigitValue(c: char, radix: nat): (d: Option<nat>)
    requires radix == 10 || radix == 16
    ensures d.Some? ==> d.value < radix
  {
    if '0' <= c <= '9' then Some(c as int - '0' as int)
    else if radix == 16 && 'a' <= c <= 'f' then Some(c as int - 'a' as int + 10)
    else if radix == 16 && 'A' <= c <= 'F' then Some(c as int - 'A' as int + 10)
    else None
  }

  /** The length of the longest prefix of `s` made of base-`radix` digits. */
  function DigitRun(s: string, radix: nat): (k: nat)
    requires radix == 10 || radix == 16
    ensures k <= |s|
    ensures forall i :: 0 <= i < k ==> DigitValue(s[i], radix).Some?
    ensures k < |s| ==> DigitValue(s[k], radix).None?
  {
    if s == [] || DigitValue(s[0], radix).None? then 0
    else 1 + DigitRun(s[1..], radix)
  }

  /** The number written by a string of base-`radix` digits. */
  function DigitsValue(s: string, radix: nat): nat
    requires radix == 10 || radix == 16
    requires forall i :: 0 <= i < |s| ==> DigitValue(s[i], radix).Some?
  {
    if s == [] then 0
    else DigitsValue(s[..|s| - 1], radix) * radix + DigitValue(s[|s| - 1], radix).value
  }

  /** The digits part of `parseInt`: base 16 after a `0x`/`0X` prefix,
      base 10 otherwise, reading the longest run of digits; `None` when there
      is no digit at all. */
  function ParseDigits(u: string): Option<nat>
  {
    var hex := |u| >= 2 && u[0] == '0' && (u[1] == 'x' || u[1] == 'X');
    var radix := if hex then 16 else 10;
    var v := if hex then u[2..] else u;
    var k := DigitRun(v, radix);
    if k == 0 then None else Some(DigitsValue(v[..k], radix))
  }

  /** JavaScript's `parseInt(s)` with no radix: skip leading whitespace, take
      an optional sign, then read the digits; `None` stands for `NaN`.
      A negative zero is represented by `0`. */
  function ParseInt(s: string): (r: Option<int>)
    ensures r.Some? ==> TrimStart(s) != []
    ensures r.Some? && r.value < 0 ==> TrimStart(s)[0] == '-'
  {
    ParseSigned(TrimStart(s))
  }

  /** `parseInt` after the leading whitespace: an optional sign, then the
      digits. */
  function ParseSigned(t: string): Option<int>
  {
    var negative := t != [] && t[0] == '-';
    var u := if t != [] && (t[0] == '-' || t[0] == '+') then t[1..] else t;
    match ParseDigits(u)
    case None => None
    case Some(m) => Some(if negative then -(m as int) else m as int)
  }

  /** The decimal digits of `n` read back in base 10 give `n`. */
  lemma {:induction false} DecimalValue(n: nat)
    ensures DigitRun(NatToDecimal(n), 10) == |NatToDecimal(n)|
    ensures DigitsValue(NatToDecimal(n), 10) == n
  {
    var s := NatToDecimal(n);
    if n >= 10 {
      DecimalValue(n / 10);
      assert s[..|s| - 1] == NatToDecimal(n / 10);
    }
  }

  /** The digits part of `parseInt` reads back every decimal rendering. */
  lemma ParseDigitsDecimal(n: nat)
    ensures ParseDigits(NatToDecimal(n)) == Some(n)
  {
    var d := NatToDecimal(n);
    DecimalValue(n);
    assert d[..|d|] == d;
  }

  /** A rendering that starts with a digit or a minus sign has nothing for
      `trimStart` to remove. */
  lemma TrimStartDecimal(n: int)
    ensures TrimStart(IntToDecimal(n)) == IntToDecimal(n)
  {
    var s := IntToDecimal(n);
    assert !IsWhitespace(s[0]);
    TrimStartAfterWhitespace("", s);
    assert "" + s == s;
  }

  lemma ParseSignedNatural(n: nat)
    ensures ParseSigned(NatToDecimal(n)) == Some(n)
  {
    var s := NatToDecimal(n);
    assert s[0] != '-' && s[0] != '+';
    ParseDigitsDecimal(n);
  }

  lemma ParseSignedNegative(n: nat)
    requires n > 0
    ensures ParseSigned("-" + NatToDecimal(n)) == Some(-(n as int))
  {
    var s := "-" + NatToDecimal(n);
    assert s[0] == '-' && s[1..] == NatToDecimal(n);
    ParseDigitsDecimal(n);
  }

  /** `parseInt` reads back every integer rendered in decimal. */
  lemma ParseIntDecimal(n: int)
    ensures ParseInt(IntToDecimal(n)) == Some(n)
  {
    TrimStartDecimal(n);
    if n < 0 {
      ParseSignedNegative(-n);
    } else {
      ParseSignedNatural(n);
    }
  }
}
