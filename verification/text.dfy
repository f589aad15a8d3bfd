/** The string operations the application leans on: JavaScript's
    `Number.prototype.toString(radix)`, `String.prototype.padStart`,
    `Array.prototype.join`, `toLowerCase` (ASCII part only) and `includes`. */
module Text {
  import opened Wrappers

  /** The digit of value `d` as JavaScript prints it: `0`-`9`, then lower-case `a`-`f`. */
  function DigitChar(d: nat): (c: char)
    requires d < 16
  {
    if d < 10 then ('0' as int + d) as char else ('a' as int + (d - 10)) as char
  }

  /** The value of a digit character, 16 for anything that is not a digit. */
  function DigitValue(c: char): (d: nat)
    ensures d <= 16
    ensures d < 16 ==> DigitChar(d) == c
  {
    if '0' <= c <= '9' then (c as int - '0' as int)
    else if 'a' <= c <= 'f' then (c as int - 'a' as int) + 10
    else 16
  }

  lemma DigitRoundTrip(d: nat)
    requires d < 16
    ensures DigitValue(DigitChar(d)) == d
  {
  }

  predicate IsDigitOf(c: char, radix: nat) {
    DigitValue(c) < radix
  }

  /** Euclidean division facts for a positive radix, kept out of the
      recursive definitions below so that each stays small. */
  lemma DivMod(n: nat, radix: nat)
    requires 2 <= radix
    ensures n % radix < radix
    ensures n == (n / radix) * radix + n % radix
    ensures n >= radix ==> 1 <= n / radix < n
  {
  }

  /** `n.toString(radix)` for a non-negative integer: most significant digit
      first, at least one digit. */
  function ToRadix(n: nat, radix: nat): (s: string)
    requires 2 <= radix <= 16
    ensures 1 <= |s|
    ensures forall k :: 0 <= k < |s| ==> IsDigitOf(s[k], radix)
    decreases n
  {
    DivMod(n, radix);
    var d := n % radix;
    DigitRoundTrip(d);
    if n < radix then
      DigitRoundTrip(n);
      [DigitChar(n)]
    else
      ToRadix(n / radix, radix) + [DigitChar(d)]
  }

  /** The value of a digit string, most significant digit first. */
  function FromRadix(s: string, radix: nat): nat
    requires 2 <= radix <= 16
    requires forall k :: 0 <= k < |s| ==> IsDigitOf(s[k], radix)
  {
    if |s| == 0 then 0
    else
      var init := s[..|s| - 1];
      assert forall k :: 0 <= k < |init| ==> init[k] == s[k];
      var high := FromRadix(init, radix);
      NatProduct(high, radix);
      high * radix + DigitValue(s[|s| - 1])
  }

  lemma NatProduct(a: nat, b: nat)
    ensures a * b >= 0
  {
  }

  /** Decimal rendering, `String(n)` / `${n}` for a non-negative integer. */
  function Dec(n: nat): string {
    ToRadix(n, 10)
  }

  /** Hexadecimal rendering, `n.toString(16)`. */
  function Hex(n: nat): string {
    ToRadix(n, 16)
  }

  /** Printing a number and reading the digits back gives the number. */
  lemma {:induction false} FromToRadix(n: nat, radix: nat)
    requires 2 <= radix <= 16
    ensures FromRadix(ToRadix(n, radix), radix) == n
    decreases n
  {
    DivMod(n, radix);
    DigitRoundTrip(n % radix);
    if n < radix {
      DigitRoundTrip(n);
    } else {
      var s := ToRadix(n, radix);
      assert s[..|s| - 1] == ToRadix(n / radix, radix);
      FromToRadix(n / radix, radix);
    }
  }

  /** Distinct numbers print differently. */
  lemma DecInjective(a: nat, b: nat)
    ensures Dec(a) == Dec(b) ==> a == b
  {
    FromToRadix(a, 10);
    FromToRadix(b, 10);
  }

  lemma DecHasNoDash(n: nat)
    ensures '-' !in Dec(n)
  {
    var s := Dec(n);
    forall k | 0 <= k < |s| ensures s[k] != '-' {
      assert IsDigitOf(s[k], 10);
    }
  }

  /** Printing one more decimal digit: the decimal form of n >= 10 is that of n / 10 and one digit. */
  lemma DecStep(n: nat)
    requires n >= 10
    ensures |Dec(n)| == |Dec(n / 10)| + 1
  {
  }

  /** A number below 10000 prints with at most four decimal digits. */
  lemma DecWidth(n: nat)
    requires n < 10000
    ensures |Dec(n)| <= 4
  {
    if n >= 10 {
      DecStep(n);
      var a := n / 10;
      if a >= 10 {
        DecStep(a);
        var b := a / 10;
        if b >= 10 {
          DecStep(b);
          assert b / 10 < 10;
        }
      }
    }
  }

  function Repeat(c: char, k: nat): (r: string)
    ensures |r| == k
    ensures forall j :: 0 <= j < k ==> r[j] == c
  {
    seq(k, _ => c)
  }

  /** `s.padStart(width, c)` with a one-character pad string. */
  function PadStart(s: string, width: nat, c: char): (r: string)
    ensures |r| == if |s| >= width then |s| else width
    ensures r[|r| - |s|..] == s
    ensures forall j :: 0 <= j < |r| - |s| ==> r[j] == c
  {
    if |s| >= width then s else Repeat(c, width - |s|) + s
  }

  /** Leading zeros do not change the value of a digit string. */
  lemma {:induction false} LeadingZeros(z: nat, s: string, radix: nat)
    requires 2 <= radix <= 16
    requires forall k :: 0 <= k < |s| ==> IsDigitOf(s[k], radix)
    ensures forall k :: 0 <= k < |Repeat('0', z) + s| ==> IsDigitOf((Repeat('0', z) + s)[k], radix)
    ensures FromRadix(Repeat('0', z) + s, radix) == FromRadix(s, radix)
    decreases z + |s|
  {
    var t := Repeat('0', z) + s;
    if |s| == 0 {
      assert t == Repeat('0', z);
      if z > 0 {
        assert t[..|t| - 1] == Repeat('0', z - 1) + s;
        LeadingZeros(z - 1, s, radix);
      }
    } else {
      var s' := s[..|s| - 1];
      assert t[..|t| - 1] == Repeat('0', z) + s';
      LeadingZeros(z, s', radix);
    }
  }

  /** `xs.join(sep)`. */
  function Join(xs: seq<string>, sep: string): (r: string)
    ensures |xs| == 0 ==> r == ""
    ensures |xs| == 1 ==> r == xs[0]
    ensures |xs| >= 1 ==> |xs[0]| <= |r| && r[..|xs[0]|] == xs[0]
  {
    if |xs| == 0 then ""
    else if |xs| == 1 then xs[0]
    else xs[0] + sep + Join(xs[1..], sep)
  }

  /** `join` builds its text left to right: joining one more element appends
      the separator and that element. */
  lemma {:induction false} JoinSnoc(xs: seq<string>, y: string, sep: string)
    requires |xs| >= 1
    ensures Join(xs + [y], sep) == Join(xs, sep) + sep + y
  {
    if |xs| == 1 {
      assert (xs + [y])[1..] == [y];
    } else {
      assert (xs + [y])[1..] == xs[1..] + [y];
      JoinSnoc(xs[1..], y, sep);
    }
  }

  function LowerChar(c: char): char {
    if 'A' <= c <= 'Z' then (c as int - 'A' as int + 'a' as int) as char else c
  }

  /** `toLowerCase`, restricted to the ASCII letters. */
  function Lower(s: string): (r: string)
    ensures |r| == |s|
    ensures forall k :: 0 <= k < |s| ==> r[k] == LowerChar(s[k])
    ensures forall k :: 0 <= k < |r| ==> !('A' <= r[k] <= 'Z')
  {
    seq(|s|, k requires 0 <= k < |s| => LowerChar(s[k]))
  }

  predicate OccursAt(s: string, sub: string, i: int) {
    0 <= i && i + |sub| <= |s| && s[i..i + |sub|] == sub
  }

  /** `s.includes(sub)`, scanning from the left. */
  function Contains(s: string, sub: string): (r: bool)
    ensures r <==> exists i :: 0 <= i <= |s| - |sub| && OccursAt(s, sub, i)
    decreases |s|
  {
    if |sub| <= |s| && s[..|sub|] == sub then
      assert OccursAt(s, sub, 0);
      true
    else if |s| == 0 then
      false
    else
      var rest := Contains(s[1..], sub);
      assert forall i :: 1 <= i <= |s| - |sub| ==> (OccursAt(s, sub, i) <==> OccursAt(s[1..], sub, i - 1)) by {
        forall i | 1 <= i <= |s| - |sub|
          ensures OccursAt(s, sub, i) <==> OccursAt(s[1..], sub, i - 1)
        {
          assert s[i..i + |sub|] == s[1..][i - 1..i - 1 + |sub|];
        }
      }
      if rest then
        var i :| 0 <= i <= |s[1..]| - |sub| && OccursAt(s[1..], sub, i);
        assert OccursAt(s, sub, i + 1);
        true
      else
        false
  }

  lemma EmptyIsEverywhere(s: string)
    ensures Contains(s, "")
  {
    assert OccursAt(s, "", 0);
  }

  /** `s.lastIndexOf(c)` for one character; `None` for JavaScript's -1. */
  function LastIndexOf(s: string, c: char): (r: Option<nat>)
    ensures r.None? <==> c !in s
    ensures r.Some? ==> r.value < |s| && s[r.value] == c
                        && forall j :: r.value < j < |s| ==> s[j] != c
  {
    if |s| == 0 then None
    else if s[|s| - 1] == c then Some(|s| - 1)
    else
      var r := LastIndexOf(s[..|s| - 1], c);
      assert c in s[..|s| - 1] <==> c in s;
      r
  }

  /** `s.slice(0, n)` for n >= 0: the first n characters, or all of them. */
  function Prefix(s: string, n: nat): (r: string)
    ensures |r| == if |s| <= n then |s| else n
    ensures r <= s
  {
    if |s| <= n then s else s[..n]
  }

  /** `s.replace(a, b)` with a one-character pattern: only the first
      occurrence of a is replaced. */
  function ReplaceFirst(s: string, a: char, b: char): (r: string)
    ensures |r| == |s|
    ensures forall k :: 0 <= k < |s| ==> r[k] == (if s[k] == a && a !in s[..k] then b else s[k])
  {
    if |s| == 0 then []
    else if s[0] == a then
      assert forall k :: 0 < k <= |s| ==> s[..k][0] == a;
      [b] + s[1..]
    else
      var rest := ReplaceFirst(s[1..], a, b);
      PrefixMembershipShift(s, a);
      [s[0]] + rest
  }

  /** When s does not start with c, c occurs in a prefix of s exactly when it
      occurs in the matching prefix of s's tail. */
  lemma PrefixMembershipShift(s: string, c: char)
    requires |s| > 0 && s[0] != c
    ensures forall k :: 1 <= k <= |s| ==> (c in s[..k] <==> c in s[1..][..k - 1])
  {
    forall k | 1 <= k <= |s|
      ensures c in s[..k] <==> c in s[1..][..k - 1]
    {
      assert s[..k] == [s[0]] + s[1..][..k - 1];
    }
  }
}
