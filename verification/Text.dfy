/**
 The Python string operations the utilities rely on: split, join, the order of str, and decimals.
 */
module Text {
  import opened Wrappers

  // ----- Splitting and joining -----

  /** s.split(c) */
  function SplitOn(s: string, c: char): (parts: seq<string>)
    ensures |parts| >= 1
    ensures forall p :: p in parts ==> c !in p
    ensures c in s <==> |parts| > 1
    decreases |s|
  {
    if s == "" then [""]
    else
      var rest := SplitOn(s[1..], c);
      if s[0] == c then [""] + rest else [[s[0]] + rest[0]] + rest[1..]
  }

  /** c.join(parts) */
  function Join(parts: seq<string>, c: char): string
    decreases |parts|
  {
    if parts == [] then "" else if |parts| == 1 then parts[0] else parts[0] + [c] + Join(parts[1..], c)
  }

  lemma {:induction false} SplitNone(s: string, c: char)
    requires c !in s
    ensures SplitOn(s, c) == [s]
    decreases |s|
  {
    if s == "" {
    } else {
      SplitNone(s[1..], c);
      assert [s[0]] + s[1..] == s;
    }
  }

  lemma {:induction false} SplitFirst(head: string, c: char, rest: string)
    requires c !in head
    ensures SplitOn(head + [c] + rest, c) == [head] + SplitOn(rest, c)
    decreases |head|
  {
    var s := head + [c] + rest;
    if head == "" {
      assert s[1..] == rest;
    } else {
      assert s[1..] == head[1..] + [c] + rest;
      SplitFirst(head[1..], c, rest);
      assert [head[0]] + head[1..] == head;
    }
  }

  /** Splitting undoes joining, for parts free of the separator. */
  lemma {:induction false} SplitJoin(parts: seq<string>, c: char)
    requires parts != [] && forall p :: p in parts ==> c !in p
    ensures SplitOn(Join(parts, c), c) == parts
    decreases |parts|
  {
    if |parts| == 1 {
      SplitNone(parts[0], c);
    } else {
      SplitJoin(parts[1..], c);
      SplitFirst(parts[0], c, Join(parts[1..], c));
    }
  }

  /** Joining undoes splitting, for every string. */
  lemma {:induction false} JoinSplit(s: string, c: char)
    ensures Join(SplitOn(s, c), c) == s
    decreases |s|
  {
    hide SplitOn, Join;
    SplitHead(s, c);
    if s == "" {
      JoinHead("", "", [], c);
    } else {
      JoinSplit(s[1..], c);
      var rest := SplitOn(s[1..], c);
      JoinHead([s[0]], rest[0], rest[1..], c);
      assert rest == [rest[0]] + rest[1..];
      if s[0] == c { JoinMore(rest, c); }
      assert s == [s[0]] + s[1..];
    }
  }

  lemma SplitHead(s: string, c: char)
    ensures s == "" ==> SplitOn(s, c) == [""]
    ensures s != "" ==>
      var rest := SplitOn(s[1..], c);
      SplitOn(s, c) == if s[0] == c then [""] + rest else [[s[0]] + rest[0]] + rest[1..]
  {
  }

  lemma JoinHead(x: string, head: string, rest: seq<string>, c: char)
    ensures Join([x + head] + rest, c) == x + Join([head] + rest, c)
    ensures Join([head], c) == head
  {
    var a, b := [x + head] + rest, [head] + rest;
    assert a[1..] == rest && b[1..] == rest;
    if rest != [] {
      assert x + head + [c] + Join(rest, c) == x + (head + [c] + Join(rest, c));
    }
  }

  lemma JoinMore(rest: seq<string>, c: char)
    requires rest != []
    ensures Join([""] + rest, c) == [c] + Join(rest, c)
  {
    assert ([""] + rest)[1..] == rest;
    assert "" + [c] + Join(rest, c) == [c] + Join(rest, c);
  }

  /** s.count(c) */
  function Count(s: string, c: char): nat
    decreases |s|
  {
    if s == "" then 0 else (if s[0] == c then 1 else 0) + Count(s[1..], c)
  }

  /** There is one part more than there are separators. */
  lemma {:induction false} SplitCount(s: string, c: char)
    ensures |SplitOn(s, c)| == Count(s, c) + 1
    decreases |s|
  {
    if s == "" {
    } else {
      SplitCount(s[1..], c);
    }
  }

  /** s.split(c)[-1] */
  function LastPart(s: string, c: char): string {
    var parts := SplitOn(s, c);
    parts[|parts| - 1]
  }

  lemma {:induction false} LastPartAfter(prefix: string, c: char, rest: string)
    ensures LastPart(prefix + [c] + rest, c) == LastPart(rest, c)
    decreases |prefix|
  {
    var s := prefix + [c] + rest;
    if prefix == "" {
      assert s[1..] == rest;
    } else {
      assert s[1..] == prefix[1..] + [c] + rest;
      LastPartAfter(prefix[1..], c, rest);
      assert c in s[1..] by { assert s[1..][|prefix| - 1] == c; }
    }
  }

  /** The last part of a string is a suffix of it, cut after the last separator. */
  lemma {:induction false} LastPartIsSuffix(s: string, c: char)
    ensures |LastPart(s, c)| <= |s| && s[|s| - |LastPart(s, c)|..] == LastPart(s, c)
    ensures c !in LastPart(s, c)
    ensures |LastPart(s, c)| < |s| ==> s[|s| - |LastPart(s, c)| - 1] == c
    ensures c !in s ==> LastPart(s, c) == s
    decreases |s|
  {
    if s == "" {
    } else {
      LastPartIsSuffix(s[1..], c);
      if c !in s { SplitNone(s, c); }
      var rest := SplitOn(s[1..], c);
      if |rest| == 1 && s[0] != c {
        SplitNone(s[1..], c);
      } else {
        assert LastPart(s, c) == LastPart(s[1..], c);
      }
    }
  }

  // ----- The order of str -----

  /** Python's <= on strings: by code point, a proper prefix first. */
  predicate LexLe(a: string, b: string)
    decreases |a|
  {
    a == "" || (b != "" && (a[0] < b[0] || (a[0] == b[0] && LexLe(a[1..], b[1..]))))
  }

  predicate LexLt(a: string, b: string) {
    !LexLe(b, a)
  }

  lemma {:induction false} LexTotal(a: string, b: string)
    ensures LexLe(a, b) || LexLe(b, a)
    decreases |a|
  {
    if a != "" && b != "" { LexTotal(a[1..], b[1..]); }
  }

  lemma {:induction false} LexAntisymmetric(a: string, b: string)
    requires LexLe(a, b) && LexLe(b, a)
    ensures a == b
    decreases |a|
  {
    if a == "" {
    } else {
      LexAntisymmetric(a[1..], b[1..]);
      assert a == [a[0]] + a[1..] && b == [b[0]] + b[1..];
    }
  }

  lemma {:induction false} LexTransitive(a: string, b: string, c: string)
    requires LexLe(a, b) && LexLe(b, c)
    ensures LexLe(a, c)
    decreases |a|
  {
    if a != "" && a[0] == b[0] && b[0] == c[0] { LexTransitive(a[1..], b[1..], c[1..]); }
  }

  lemma LexReflexive(a: string)
    ensures LexLe(a, a)
  {
    LexTotal(a, a);
  }

  /** A string is before those it is a prefix of, and before those with a greater character where they first differ. */
  lemma {:induction false} LexIff(a: string, b: string)
    ensures LexLe(a, b) <==> a <= b || exists k :: 0 <= k < |a| && k < |b| && a[..k] == b[..k] && a[k] < b[k]
    decreases |a|
  {
    if a != "" && b != "" && a[0] == b[0] {
      LexIff(a[1..], b[1..]);
      assert a == [a[0]] + a[1..] && b == [b[0]] + b[1..];
      if k :| 0 <= k < |a| && k < |b| && a[..k] == b[..k] && a[k] < b[k] {
        assert a[1..][..k - 1] == a[..k][1..] && b[1..][..k - 1] == b[..k][1..];
        assert a[1..][k - 1] == a[k] && b[1..][k - 1] == b[k];
      }
      if k :| 0 <= k < |a| - 1 && k < |b| - 1 && a[1..][..k] == b[1..][..k] && a[1..][k] < b[1..][k] {
        assert a[..k + 1] == [a[0]] + a[1..][..k] && b[..k + 1] == [b[0]] + b[1..][..k];
        assert a[k + 1] == a[1..][k] && b[k + 1] == b[1..][k];
      }
    } else if a != "" && b != "" {
      assert a[..0] == b[..0];
    }
  }

  // ----- Sorting, as list.sort() leaves a list of strings -----

  ghost predicate IsSorted(s: seq<string>) {
    forall i, j :: 0 <= i < j < |s| ==> LexLe(s[i], s[j])
  }

  function Insert(x: string, s: seq<string>): (r: seq<string>)
    requires IsSorted(s)
    ensures IsSorted(r) && multiset(r) == multiset{x} + multiset(s)
    decreases |s|
  {
    if s == [] then [x]
    else if LexLe(x, s[0]) then
      assert forall i :: 0 <= i < |s| ==> LexLe(x, s[i]) by {
        forall i | 0 < i < |s| ensures LexLe(x, s[i]) { LexTransitive(x, s[0], s[i]); }
      }
      [x] + s
    else
      var rest := Insert(x, s[1..]);
      assert s == [s[0]] + s[1..];
      assert forall y :: y in rest ==> LexLe(s[0], y) by {
        LexTotal(x, s[0]);
        forall y | y in rest ensures LexLe(s[0], y) {
          assert y in multiset(rest);
          assert y == x || y in s[1..];
        }
      }
      [s[0]] + rest
  }

  function Sort(s: seq<string>): (r: seq<string>)
    ensures IsSorted(r) && multiset(r) == multiset(s)
    decreases |s|
  {
    if s == [] then []
    else
      assert s == [s[0]] + s[1..];
      Insert(s[0], Sort(s[1..]))
  }

  /** There is only one sorted list with given elements. */
  lemma {:induction false} SortedUnique(a: seq<string>, b: seq<string>)
    requires IsSorted(a) && IsSorted(b) && multiset(a) == multiset(b)
    ensures a == b
    decreases |a|
  {
    assert |a| == |multiset(a)| == |multiset(b)| == |b|;
    if a == [] {
    } else {
      SameHead(a, b);
      assert a == [a[0]] + a[1..] && b == [b[0]] + b[1..];
      assert multiset(a[1..]) == multiset(a) - multiset{a[0]} == multiset(b[1..]);
      SortedUnique(a[1..], b[1..]);
    }
  }

  lemma SameHead(a: seq<string>, b: seq<string>)
    requires IsSorted(a) && IsSorted(b) && multiset(a) == multiset(b) && a != [] && b != []
    ensures a[0] == b[0]
  {
    hide LexLe;
    assert a[0] in multiset(b) && b[0] in multiset(a);
    var i :| 0 <= i < |b| && b[i] == a[0];
    var j :| 0 <= j < |a| && a[j] == b[0];
    LexReflexive(a[0]);
    LexReflexive(b[0]);
    assert LexLe(b[0], b[i]) && LexLe(a[0], a[j]);
    LexAntisymmetric(a[0], b[0]);
  }

  // ----- Decimals -----

  predicate IsDigit(c: char) {
    '0' <= c <= '9'
  }

  predicate AllDigits(s: string) {
    forall c :: c in s ==> IsDigit(c)
  }

  function DigitChar(d: nat): (c: char)
    requires d < 10
    ensures IsDigit(c) && c as int - '0' as int == d
  {
    ('0' as int + d) as char
  }

  /** str(n) for n >= 0 */
  function Decimal(n: nat): (s: string)
    ensures s != "" && AllDigits(s)
    decreases n
  {
    if n < 10 then [DigitChar(n)] else Decimal(n / 10) + [DigitChar(n % 10)]
  }

  function DigitsValue(s: string): nat
    requires AllDigits(s)
    decreases |s|
  {
    if s == "" then 0
    else
      var last := s[|s| - 1];
      assert last in s;
      10 * DigitsValue(s[..|s| - 1]) + (last as int - '0' as int)
  }

  /** int(s), for the texts made of an optional sign and ASCII digits; None stands for ValueError. */
  function ParseInt(s: string): Option<int> {
    if s == "" then None
    else
      var body := if s[0] == '-' || s[0] == '+' then s[1..] else s;
      if body == "" || !AllDigits(body) then None
      else
        var value: int := DigitsValue(body);
        Some(if s[0] == '-' then -value else value)
  }

  lemma {:induction false} DecimalValue(n: nat)
    ensures DigitsValue(Decimal(n)) == n
    decreases n
  {
    if n >= 10 {
      DecimalValue(n / 10);
      var s := Decimal(n);
      assert s[..|s| - 1] == Decimal(n / 10);
    }
  }

  /** str(n), for any integer */
  function PrintInt(n: int): string {
    if n < 0 then "-" + Decimal(-n) else Decimal(n)
  }

  /** int(str(n)) == n */
  lemma ParsePrint(n: int)
    ensures ParseInt(PrintInt(n)) == Some(n)
  {
    DecimalValue(if n < 0 then -n else n);
    var s := PrintInt(n);
    if n < 0 {
      assert s[1..] == Decimal(-n);
    } else {
      assert s[0] in s && IsDigit(s[0]);
    }
  }

  /** A text is an integer exactly if it is digits behind an optional sign. */
  lemma ParseIff(s: string)
    ensures ParseInt(s).Some? <==>
      exists sign: string, digits: string ::
        && s == sign + digits && (sign == "" || sign == "-" || sign == "+")
        && digits != "" && forall c :: c in digits ==> '0' <= c <= '9'
  {
    if ParseInt(s).Some? {
      var n := if s[0] == '-' || s[0] == '+' then 1 else 0;
      assert s == s[..n] + s[n..];
    }
    forall sign: string, digits: string |
      && s == sign + digits && (sign == "" || sign == "-" || sign == "+")
      && digits != "" && forall c :: c in digits ==> '0' <= c <= '9'
      ensures ParseInt(s).Some?
    {
      assert digits[0] in digits;
      assert s == digits || s[1..] == digits;
    }
  }

  function Zeros(k: nat): string {
    seq(k, _ => '0')
  }

  /** Zeros in front change nothing, and neither does a plus sign. */
  lemma {:induction false} ParsePadded(k: nat, n: nat)
    ensures ParseInt(Zeros(k) + Decimal(n)) == ParseInt("+" + Zeros(k) + Decimal(n)) == Some(n)
    ensures ParseInt("-" + Zeros(k) + Decimal(n)) == Some(0 - n)
  {
    hide DigitsValue, Decimal;
    var body := Zeros(k) + Decimal(n);
    assert AllDigits(body);
    assert body[0] in body;
    assert "+" + Zeros(k) + Decimal(n) == "+" + body && ("+" + body)[1..] == body;
    assert "-" + Zeros(k) + Decimal(n) == "-" + body && ("-" + body)[1..] == body;
    DecimalValue(n);
    PaddedValue(k, Decimal(n));
  }

  lemma {:induction false} PaddedValue(k: nat, digits: string)
    requires AllDigits(digits)
    ensures AllDigits(Zeros(k) + digits) && DigitsValue(Zeros(k) + digits) == DigitsValue(digits)
    decreases k + |digits|
  {
    var s := Zeros(k) + digits;
    if digits != "" {
      assert s[..|s| - 1] == Zeros(k) + digits[..|digits| - 1];
      PaddedValue(k, digits[..|digits| - 1]);
    } else if k > 0 {
      assert s[..|s| - 1] == Zeros(k - 1) + "";
      PaddedValue(k - 1, "");
    }
  }
}
