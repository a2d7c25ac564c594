/** Joining and splitting strings, and decimal printing, with their inverses. */
module Strings {
  import opened Seqs

  /** strings.Join. */
  function Join(parts: seq<string>, sep: string): string {
    if parts == [] then ""
    else if |parts| == 1 then parts[0]
    else parts[0] + sep + Join(parts[1..], sep)
  }

  /** The pieces of `s` between the separators: one more than there are separators. */
  function Split(s: string, c: char): (parts: seq<string>)
    ensures parts != [] && forall i :: 0 <= i < |parts| ==> c !in parts[i]
    decreases |s|
  {
    var k := IndexOf(s, c, 0);
    if k == |s| then [s] else [s[..k]] + Split(s[k + 1..], c)
  }

  predicate AllFree(parts: seq<string>, c: char) {
    forall i :: 0 <= i < |parts| ==> c !in parts[i]
  }

  lemma SplitFirst(a: string, c: char, rest: string)
    requires c !in a
    ensures Split(a, c) == [a] && Split(a + [c] + rest, c) == [a] + Split(rest, c)
  {
    var s := a + [c] + rest;
    IndexIs(a, c, 0, |a|);
    IndexIs(s, c, 0, |a|);
    assert s[..|a|] == a && s[|a| + 1..] == rest;
  }

  /** Splitting undoes joining, on parts without the separator. */
  lemma {:induction false} SplitJoin(parts: seq<string>, c: char)
    requires parts != [] && AllFree(parts, c)
    ensures Split(Join(parts, [c]), c) == parts
    decreases |parts|
  {
    hide Split;
    SplitFirst(parts[0], c, Join(parts[1..], [c]));
    if |parts| > 1 {
      SplitJoin(parts[1..], c);
    }
  }

  lemma {:induction false} JoinAppend(a: seq<string>, b: seq<string>, c: char)
    requires a != [] && b != []
    ensures Join(a + b, [c]) == Join(a, [c]) + [c] + Join(b, [c])
    decreases |a|
  {
    assert (a + b)[1..] == a[1..] + b;
    if |a| == 1 {
      assert a[1..] + b == b;
    } else {
      JoinAppend(a[1..], b, c);
    }
  }

  /** A separator inside a part is as good as one between parts. */
  lemma JoinMerge(a: seq<string>, p: string, q: string, b: seq<string>, c: char)
    ensures Join(a + [p + [c] + q] + b, [c]) == Join(a + [p, q] + b, [c])
  {
    var one, two := [p + [c] + q], [p, q];
    assert Join(two, [c]) == Join(one, [c]) by {
      assert two[1..] == [q];
    }
    JoinContext(a, one, two, b, c);
  }

  lemma JoinContext(a: seq<string>, x: seq<string>, y: seq<string>, b: seq<string>, c: char)
    requires x != [] && y != [] && Join(x, [c]) == Join(y, [c])
    ensures Join(a + x + b, [c]) == Join(a + y + b, [c])
  {
    if b == [] {
      assert a + x + b == a + x && a + y + b == a + y;
    } else {
      JoinAppend(x, b, c);
      JoinAppend(y, b, c);
      assert a + x + b == a + (x + b) && a + y + b == a + (y + b);
    }
    if a == [] {
      assert a + x + b == x + b && a + y + b == y + b;
      assert b == [] ==> x + b == x && y + b == y;
    } else {
      JoinAppend(a, x + b, c);
      JoinAppend(a, y + b, c);
      assert a + x + b == a + (x + b) && a + y + b == a + (y + b);
      assert b == [] ==> x + b == x && y + b == y;
    }
  }

  // -------------------------------------------------------------- decimals

  const DIGITS := "0123456789"

  /** Printf("%d") of a natural number. */
  function Decimal(n: nat): (s: string)
    ensures s != "" && '_' !in s
  {
    if n < 10 then [DIGITS[n]] else Decimal(n / 10) + [DIGITS[n % 10]]
  }

  function DigitValue(c: char): nat {
    if '0' <= c <= '9' then (c - '0') as nat else 0
  }

  function ParseDecimal(s: string): nat {
    if s == "" then 0 else 10 * ParseDecimal(s[..|s| - 1]) + DigitValue(s[|s| - 1])
  }

  lemma {:induction false} DecimalRoundTrip(n: nat)
    ensures ParseDecimal(Decimal(n)) == n
  {
    var s := Decimal(n);
    if n < 10 {
      assert s[..|s| - 1] == "";
    } else {
      DecimalRoundTrip(n / 10);
      assert s[..|s| - 1] == Decimal(n / 10);
    }
  }
}
