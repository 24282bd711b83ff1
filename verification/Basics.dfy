/** Stock vocabulary: options, the string routines of Go's `strings` and `fmt` packages that the
    operator relies on, and the 32-bit integers its API types are declared with. */
module Basics {

  datatype Option<+T> = None | Some(value: T)

  /******* int32 *******/

  const MAX_INT32 := 0x7fff_ffff
  const TWO_TO_THE_32 := 0x1_0000_0000

  type int32 = x: int | -MAX_INT32 - 1 <= x <= MAX_INT32

  /** Go's int32 arithmetic: the exact result, brought back into range modulo 2^32. */
  function Wrap32(x: int): (r: int32)
    ensures (r - x) % TWO_TO_THE_32 == 0 && -MAX_INT32 - 1 <= r <= MAX_INT32
    ensures -MAX_INT32 - 1 <= x <= MAX_INT32 ==> r == x
  {
    (x + MAX_INT32 + 1) % TWO_TO_THE_32 - MAX_INT32 - 1
  }

  /******* Decimal notation (fmt's %d) *******/

  predicate IsDigit(c: char) {
    '0' <= c <= '9'
  }

  predicate AllDigits(s: string) {
    forall k :: 0 <= k < |s| ==> IsDigit(s[k])
  }

  function DigitOf(d: nat): (c: char)
    requires d < 10
    ensures IsDigit(c) && c as int - '0' as int == d
  {
    ('0' as int + d) as char
  }

  function ParseDigits(s: string): (n: int)
    requires AllDigits(s)
    ensures n >= 0
  {
    if s == "" then 0
    else 10 * ParseDigits(s[..|s| - 1]) + (s[|s| - 1] as int - '0' as int)
  }

  /** Printing a natural number is undone by reading its digits back. */
  function PrintNat(n: nat): (s: string)
    ensures s != "" && AllDigits(s) && ParseDigits(s) == n
  {
    if n < 10 then
      [DigitOf(n)]
    else
      var front := PrintNat(n / 10);
      var s := front + [DigitOf(n % 10)];
      assert s[..|s| - 1] == front;
      s
  }

  /** `fmt.Sprintf("%d", n)`. */
  function PrintInt(n: int): (s: string)
    ensures s != ""
    ensures s[0] == '-' <==> n < 0
    ensures forall k :: 0 <= k < |s| ==> IsDigit(s[k]) || s[k] == '-'
    ensures ParseInt(s) == Some(n)
  {
    if n < 0 then "-" + PrintNat(-n) else PrintNat(n)
  }

  /** Reads an optional sign and decimal digits. */
  function ParseInt(s: string): Option<int> {
    if s != "" && AllDigits(s) then Some(ParseDigits(s))
    else if |s| > 1 && s[0] == '-' && AllDigits(s[1..]) then Some(-ParseDigits(s[1..]))
    else None
  }

  lemma {:induction false} NatIsCanonical(n: nat)
    ensures (PrintNat(n)[0] == '0' <==> n == 0) && (n == 0 ==> PrintNat(n) == "0")
  {
    if n >= 10 {
      NatIsCanonical(n / 10);
    }
  }

  /** A printed number has no leading zero, so that it is the shortest of those that read as the same number. */
  lemma IntIsCanonical(n: int)
    ensures n == 0 ==> PrintInt(n) == "0"
    ensures n > 0 ==> PrintInt(n)[0] != '0'
    ensures n < 0 ==> |PrintInt(n)| > 1 && PrintInt(n)[0] == '-' && PrintInt(n)[1] != '0'
  {
    hide ParseInt;
    NatIsCanonical(if n < 0 then -n else n);
  }

  /** The ports of the source, printed. */
  lemma PortTexts()
    ensures PrintInt(9090) == "9090" && PrintInt(9092) == "9092" && PrintInt(9093) == "9093"
  {
    assert PrintNat(9) == "9" && PrintNat(90) == "90" && PrintNat(909) == "909";
  }

  /** `fmt.Sprintf("%t", b)`. */
  function PrintBool(b: bool): string {
    if b then "true" else "false"
  }

  /******* strings *******/

  /** `strings.Join`. */
  function Join(parts: seq<string>, sep: string): string {
    if parts == [] then ""
    else if |parts| == 1 then parts[0]
    else parts[0] + sep + Join(parts[1..], sep)
  }

  /** `strings.Split` at a single character. */
  function SplitAt(s: string, c: char): (parts: seq<string>)
    ensures |parts| >= 1
  {
    if s == "" then [""]
    else
      var rest := SplitAt(s[1..], c);
      if s[0] == c then [""] + rest else [[s[0]] + rest[0]] + rest[1..]
  }

  /** `strings.Contains`. */
  predicate Contains(s: string, part: string) {
    part <= s || (s != "" && Contains(s[1..], part))
  }

  /** Containing is having the part at some position. */
  lemma {:induction false} ContainsAt(s: string, part: string)
    ensures Contains(s, part) <==> exists i :: 0 <= i <= |s| && part <= s[i..]
  {
    if part <= s {
      assert s[0..] == s;
    } else if s != "" {
      ContainsAt(s[1..], part);
      forall i | 0 <= i < |s| ensures s[1..][i..] == s[i + 1..] {
      }
      assert Contains(s, part) ==> exists i :: 0 <= i <= |s| && part <= s[i..] by {
        if Contains(s, part) {
          var i :| 0 <= i <= |s[1..]| && part <= s[1..][i..];
          assert part <= s[i + 1..];
        }
      }
      if i :| 0 <= i <= |s| && part <= s[i..] {
        assert s[0..] == s;
        assert part <= s[1..][i - 1..];
      }
    }
  }

  lemma {:induction false} SplitAtFirst(a: string, c: char, b: string)
    requires c !in a
    ensures SplitAt(a + [c] + b, c) == [a] + SplitAt(b, c)
  {
    if a == "" {
      assert a + [c] + b == [c] + b;
      assert ([c] + b)[1..] == b;
    } else {
      assert (a + [c] + b)[1..] == a[1..] + [c] + b;
      SplitAtFirst(a[1..], c, b);
      assert [a[0]] + a[1..] == a;
    }
  }

  lemma {:induction false} SplitAtNone(a: string, c: char)
    requires c !in a
    ensures SplitAt(a, c) == [a]
  {
    if a != "" {
      SplitAtNone(a[1..], c);
      assert [a[0]] + a[1..] == a;
    }
  }

  lemma JoinStep(parts: seq<string>, sep: string)
    requires |parts| > 1
    ensures Join(parts, sep) == parts[0] + sep + Join(parts[1..], sep)
  {
  }

  lemma JoinOne(part: string, sep: string)
    ensures Join([part], sep) == part
  {
  }

  /** Splitting undoes joining when no part holds the separator. */
  lemma {:induction false} SplitJoin(parts: seq<string>, c: char)
    requires parts != []
    requires forall k :: 0 <= k < |parts| ==> c !in parts[k]
    ensures SplitAt(Join(parts, [c]), c) == parts
  {
    hide SplitAt, Join;
    var rest := parts[1..];
    if rest == [] {
      JoinOne(parts[0], [c]);
      SplitAtNone(parts[0], c);
      assert parts == [parts[0]];
    } else {
      assert forall k :: 0 <= k < |rest| ==> rest[k] == parts[k + 1];
      SplitJoin(rest, c);
      JoinStep(parts, [c]);
      SplitAtFirst(parts[0], c, Join(rest, [c]));
      assert parts == [parts[0]] + rest;
    }
  }
}
