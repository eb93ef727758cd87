/** Decimal rendering and separators: enough to show that rendered identifiers stay distinct. */
module Text {
  datatype Option<+T> = None | Some(value: T)

  predicate IsDigit(c: char) {
    '0' <= c <= '9'
  }

  function Digit(d: nat): (c: char)
    requires d < 10
    ensures IsDigit(c)
  {
    '0' + d as char
  }

  /** Decimal rendering of a natural number, as str() gives it. */
  function Dec(n: nat): (s: string)
    ensures |s| > 0 && forall i :: 0 <= i < |s| ==> IsDigit(s[i])
  {
    if n < 10 then [Digit(n)] else Dec(n / 10) + [Digit(n % 10)]
  }

  lemma {:induction false} DecInjective(a: nat, b: nat)
    requires Dec(a) == Dec(b)
    ensures a == b
  {
    var s, t := Dec(a), Dec(b);
    assert s[|s| - 1] == Digit(a % 10) && t[|t| - 1] == Digit(b % 10);
    assert a >= 10 ==> |s| == |Dec(a / 10)| + 1 && s[..|s| - 1] == Dec(a / 10);
    assert b >= 10 ==> |t| == |Dec(b / 10)| + 1 && t[..|t| - 1] == Dec(b / 10);
    if a >= 10 {
      DecInjective(a / 10, b / 10);
    }
  }

  /** Two texts split at their first separator have equal halves. */
  lemma SplitAtFirst(x1: string, r1: string, x2: string, r2: string, sep: char)
    requires x1 + [sep] + r1 == x2 + [sep] + r2
    requires sep !in x1 && sep !in x2
    ensures x1 == x2 && r1 == r2
  {
    var s, t := x1 + [sep] + r1, x2 + [sep] + r2;
    assert s[|x1|] == sep && t[|x2|] == sep;
    assert forall i :: 0 <= i < |x1| ==> s[i] == x1[i] && x1[i] != sep;
    assert forall i :: 0 <= i < |x2| ==> t[i] == x2[i] && x2[i] != sep;
    assert |x1| == |x2|;
    assert s[..|x1|] == x1 && t[..|x2|] == x2;
    assert s[|x1| + 1..] == r1 && t[|x2| + 1..] == r2;
  }

  /** Two texts split at their last separator have equal halves. */
  lemma SplitAtLast(x1: string, r1: string, x2: string, r2: string, sep: char)
    requires x1 + [sep] + r1 == x2 + [sep] + r2
    requires sep !in r1 && sep !in r2
    ensures x1 == x2 && r1 == r2
  {
    var s, t := x1 + [sep] + r1, x2 + [sep] + r2;
    assert s[|x1|] == sep && t[|x2|] == sep;
    assert forall i :: |x1| < i < |s| ==> s[i] == r1[i - |x1| - 1] && s[i] in r1;
    assert forall i :: |x2| < i < |t| ==> t[i] == r2[i - |x2| - 1] && t[i] in r2;
    assert |x1| == |x2|;
    assert s[..|x1|] == x1 && t[..|x2|] == x2;
    assert s[|x1| + 1..] == r1 && t[|x2| + 1..] == r2;
  }

  lemma DigitsExclude(n: nat, c: char)
    requires !IsDigit(c)
    ensures c !in Dec(n)
  {
  }

  /** Alphabetical order by character. */
  predicate Precedes(a: string, b: string) {
    if b == "" then false
    else if a == "" then true
    else if a[0] == b[0] then Precedes(a[1..], b[1..])
    else a[0] < b[0]
  }

  lemma {:induction false} PrecedesTotal(a: string, b: string)
    ensures Precedes(a, b) || Precedes(b, a) || a == b
    ensures !(Precedes(a, b) && Precedes(b, a)) && !Precedes(a, a)
  {
    if a != "" {
      PrecedesTotal(a[1..], if b != "" then b[1..] else "");
      assert a == [a[0]] + a[1..] && (b != "" ==> b == [b[0]] + b[1..]);
    }
  }

  lemma {:induction false} PrecedesTransitive(a: string, b: string, c: string)
    requires Precedes(a, b) && Precedes(b, c)
    ensures Precedes(a, c)
  {
    if a != "" && a[0] == b[0] == c[0] {
      PrecedesTransitive(a[1..], b[1..], c[1..]);
    }
  }
}
