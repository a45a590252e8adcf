/** Text helpers that stand in for the Ruby core methods the renderer calls:
    String#upcase, Integer#to_s and Array#join. */
module Text {

  /** Upper-cases one ASCII letter and leaves every other character alone. */
  function UpperChar(c: char): char
  {
    if 'a' <= c <= 'z' then (c as int - 32) as char else c
  }

  /** String#upcase restricted to ASCII. */
  function Upcase(s: string): string
  {
    if s == [] then [] else [UpperChar(s[0])] + Upcase(s[1..])
  }

  /** Upcase keeps the length, leaves no lower-case ASCII letter, changes
      nothing else, and moves each lower-case letter to its capital. */
  lemma {:induction false} UpcaseAt(s: string)
    ensures |Upcase(s)| == |s|
    ensures forall i :: 0 <= i < |s| ==> !('a' <= Upcase(s)[i] <= 'z')
    ensures forall i :: 0 <= i < |s| && !('a' <= s[i] <= 'z') ==> Upcase(s)[i] == s[i]
    ensures forall i :: 0 <= i < |s| && 'a' <= s[i] <= 'z' ==> Upcase(s)[i] as int == s[i] as int - 32
  {
    if s != [] {
      UpcaseAt(s[1..]);
      assert forall i :: 1 <= i < |s| ==> Upcase(s)[i] == Upcase(s[1..])[i - 1];
    }
  }

  /** Upper-casing twice is upper-casing once. */
  lemma {:induction false} UpcaseIdempotent(s: string)
    ensures Upcase(Upcase(s)) == Upcase(s)
  {
    if s != [] {
      UpcaseIdempotent(s[1..]);
    }
  }

  function Digit(d: nat): char
    requires d < 10
  {
    ('0' as int + d) as char
  }

  /** Decimal digits of n, most significant first. */
  function NatToString(n: nat): (r: string)
    ensures |r| > 0
    ensures forall i :: 0 <= i < |r| ==> '0' <= r[i] <= '9'
  {
    if n < 10 then [Digit(n)] else NatToString(n / 10) + [Digit(n % 10)]
  }

  /** Integer#to_s: a minus sign before the digits of a negative number. */
  function IntToString(i: int): string
  {
    if i < 0 then "-" + NatToString(-i) else NatToString(i)
  }

  /** The number a string of decimal digits denotes, most significant first. */
  function DigitsValue(s: string): nat
    requires forall i :: 0 <= i < |s| ==> '0' <= s[i] <= '9'
  {
    if s == [] then 0 else DigitsValue(s[..|s| - 1]) * 10 + (s[|s| - 1] as int - '0' as int)
  }

  /** NatToString writes n in decimal: its digits denote n, with no leading
      zero except for 0 itself. */
  lemma {:induction false} NatToStringValue(n: nat)
    ensures DigitsValue(NatToString(n)) == n
    ensures NatToString(n)[0] == '0' ==> n == 0
  {
    if n >= 10 {
      var r := NatToString(n);
      NatToStringValue(n / 10);
      assert r[..|r| - 1] == NatToString(n / 10);
      assert r[0] == NatToString(n / 10)[0];
    }
  }

  /** Integer#to_s: non-negative numbers in decimal, negative ones as a minus
      sign followed by the decimal digits of their magnitude. */
  lemma IntToStringValue(i: int)
    ensures i >= 0 ==> DigitsValue(IntToString(i)) == i
    ensures i < 0 ==> IntToString(i)[0] == '-' && DigitsValue(IntToString(i)[1..]) == -i
  {
    if i < 0 {
      NatToStringValue(-i);
      assert IntToString(i)[1..] == NatToString(-i);
    } else {
      NatToStringValue(i);
    }
  }

  /** Array#join(sep) over strings: the parts with sep between consecutive ones. */
  function Join(parts: seq<string>, sep: string): string
  {
    if |parts| == 0 then ""
    else if |parts| == 1 then parts[0]
    else parts[0] + sep + Join(parts[1..], sep)
  }

  /** Cuts s at every occurrence of c; the reference against which Join is
      checked. There is always at least one piece. */
  function SplitOn(s: string, c: char): (r: seq<string>)
    ensures |r| > 0
  {
    if s == [] then [""]
    else
      var rest := SplitOn(s[1..], c);
      if s[0] == c then [""] + rest else [[s[0]] + rest[0]] + rest[1..]
  }

  lemma {:induction false} SplitWithout(p: string, c: char)
    requires c !in p
    ensures SplitOn(p, c) == [p]
  {
    if p != [] {
      SplitWithout(p[1..], c);
      assert [p[0]] + p[1..] == p;
    }
  }

  lemma {:induction false} SplitAfter(p: string, t: string, c: char)
    requires c !in p
    ensures SplitOn(p + [c] + t, c) == [p] + SplitOn(t, c)
  {
    if p == [] {
      assert p + [c] + t == [c] + t;
      assert ([c] + t)[1..] == t;
    } else {
      assert (p + [c] + t)[1..] == p[1..] + [c] + t;
      SplitAfter(p[1..], t, c);
      assert [p[0]] + p[1..] == p;
    }
  }

  /** A file body made of lines joined with one separator character gives the
      lines back when it is cut at that character, provided no line contains it. */
  lemma {:induction false} SplitJoin(parts: seq<string>, c: char)
    requires |parts| > 0
    requires forall k :: 0 <= k < |parts| ==> c !in parts[k]
    ensures SplitOn(Join(parts, [c]), c) == parts
  {
    if |parts| == 1 {
      SplitWithout(parts[0], c);
    } else {
      SplitAfter(parts[0], Join(parts[1..], [c]), c);
      SplitJoin(parts[1..], c);
    }
  }

  lemma AppendAssoc<T>(a: seq<T>, b: seq<T>, c: seq<T>)
    ensures (a + b) + c == a + (b + c)
  {
  }
}
