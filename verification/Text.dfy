/** The Go string functions the repository relies on: TrimSpace, Split, Join, and strconv's decimal integers. */
module Text {
  import opened Sql

  // ---------------------------------------------------------------- strings.TrimSpace

  /** unicode.IsSpace. */
  predicate IsSpace(c: char) {
    c == ' ' || '\t' <= c <= '\r' || c == '\U{0085}' || c == '\U{00A0}' || c == '\U{1680}' ||
    '\U{2000}' <= c <= '\U{200A}' || c == '\U{2028}' || c == '\U{2029}' || c == '\U{202F}' ||
    c == '\U{205F}' || c == '\U{3000}'
  }

  function TrimLeft(s: string): string {
    if s != "" && IsSpace(s[0]) then TrimLeft(s[1..]) else s
  }

  function TrimRight(s: string): string {
    if s != "" && IsSpace(s[|s| - 1]) then TrimRight(s[..|s| - 1]) else s
  }

  function Trim(s: string): string {
    TrimRight(TrimLeft(s))
  }

  /** What precedes a part that neither starts nor ends with a space keeps its right end and loses its left spaces. */
  lemma {:induction false} TrimConcat(s: string, solid: string)
    requires solid != "" && !IsSpace(solid[0]) && !IsSpace(solid[|solid| - 1])
    ensures Trim(s + solid) == TrimLeft(s) + solid
  {
    if s != "" && IsSpace(s[0]) {
      assert (s + solid)[1..] == s[1..] + solid;
      TrimConcat(s[1..], solid);
      assert TrimLeft(s + solid) == TrimLeft(s[1..] + solid);
    } else {
      assert s == "" ==> s + solid == solid;
      assert TrimLeft(s + solid) == s + solid;
    }
  }

  lemma {:induction false} TrimLeftKeeps(s: string)
    ensures forall c :: c in TrimLeft(s) ==> c in s
  {
    if s != "" && IsSpace(s[0]) { TrimLeftKeeps(s[1..]); }
  }

  /** A character that is not a space survives trimming. */
  lemma {:induction false} TrimKeepsSolid(s: string, c: char)
    requires c in s && !IsSpace(c)
    ensures c in TrimLeft(s) && c in Trim(s)
  {
    TrimLeftKeepsSolid(s, c);
    TrimRightKeepsSolid(TrimLeft(s), c);
  }

  lemma {:induction false} TrimLeftKeepsSolid(s: string, c: char)
    requires c in s && !IsSpace(c)
    ensures c in TrimLeft(s)
  {
    if IsSpace(s[0]) { TrimLeftKeepsSolid(s[1..], c); }
  }

  lemma {:induction false} TrimRightKeepsSolid(s: string, c: char)
    requires c in s && !IsSpace(c)
    ensures c in TrimRight(s)
  {
    if IsSpace(s[|s| - 1]) {
      assert s == s[..|s| - 1] + [s[|s| - 1]];
      TrimRightKeepsSolid(s[..|s| - 1], c);
    }
  }

  /** strings.ToLower on ASCII letters; no other character has a lower case among "asc" and "desc". */
  function Lower(s: string): (r: string)
    ensures |r| == |s| && forall i :: 0 <= i < |s| ==> r[i] == if 'A' <= s[i] <= 'Z' then (s[i] as int + 32) as char else s[i]
  {
    seq(|s|, i requires 0 <= i < |s| => if 'A' <= s[i] <= 'Z' then (s[i] as int + 32) as char else s[i])
  }

  // ---------------------------------------------------------------- strings.Split and strings.Join, one-character separator

  function Index(s: string, sep: char): (i: nat)
    requires sep in s
    ensures i < |s| && s[i] == sep && sep !in s[..i]
  {
    if s[0] == sep then 0 else 1 + Index(s[1..], sep)
  }

  function Split(s: string, sep: char): (parts: seq<string>)
    ensures |parts| >= 1
    ensures forall i :: 0 <= i < |parts| ==> sep !in parts[i]
  {
    if sep !in s then [s]
    else [s[..Index(s, sep)]] + Split(s[Index(s, sep) + 1..], sep)
  }

  function Join(parts: seq<string>, sep: char): string {
    if parts == [] then ""
    else if |parts| == 1 then parts[0]
    else parts[0] + [sep] + Join(parts[1..], sep)
  }

  /** Splitting undoes joining exactly when no part holds the separator. */
  lemma {:induction false} SplitJoin(parts: seq<string>, sep: char)
    requires parts != []
    ensures Split(Join(parts, sep), sep) == parts <==> forall i :: 0 <= i < |parts| ==> sep !in parts[i]
  {
    if |parts| > 1 && forall i :: 0 <= i < |parts| ==> sep !in parts[i] {
      var joined := Join(parts, sep);
      assert forall i :: 0 <= i < |parts| - 1 ==> parts[1..][i] == parts[i + 1];
      SplitJoin(parts[1..], sep);
      FirstIndex(parts[0], Join(parts[1..], sep), sep);
      assert joined[|parts[0]| + 1..] == Join(parts[1..], sep);
    }
  }

  lemma {:induction false} FirstIndex(head: string, tail: string, sep: char)
    requires sep !in head
    ensures sep in head + [sep] + tail && Index(head + [sep] + tail, sep) == |head|
    ensures (head + [sep] + tail)[..|head|] == head
  {
    var s := head + [sep] + tail;
    assert s[|head|] == sep;
    var i := Index(s, sep);
    forall j | 0 <= j < |head| ensures s[j] != sep { assert s[j] == head[j]; }
    forall j | 0 <= j < i ensures s[j] != sep { assert s[..i][j] == s[j]; }
  }

  function Count(s: string, c: char): nat {
    if s == "" then 0 else (if s[0] == c then 1 else 0) + Count(s[1..], c)
  }

  lemma {:induction false} CountConcat(a: string, b: string, c: char)
    ensures Count(a + b, c) == Count(a, c) + Count(b, c)
  {
    if a == "" {
      assert a + b == b;
    } else {
      assert (a + b)[1..] == a[1..] + b;
      CountConcat(a[1..], b, c);
    }
  }

  lemma {:induction false} CountMember(s: string, c: char)
    ensures Count(s, c) == 0 <==> c !in s
  {
    if s != "" {
      CountMember(s[1..], c);
      assert s == [s[0]] + s[1..];
    }
  }

  lemma {:induction false} SplitCount(s: string, sep: char)
    ensures |Split(s, sep)| == 1 + Count(s, sep)
  {
    CountMember(s, sep);
    if sep in s {
      var i := Index(s, sep);
      SplitCount(s[i + 1..], sep);
      assert s == s[..i] + ([sep] + s[i + 1..]);
      CountConcat(s[..i], [sep] + s[i + 1..], sep);
      CountConcat([sep], s[i + 1..], sep);
      CountMember(s[..i], sep);
    }
  }

  // ---------------------------------------------------------------- strconv.FormatInt and strconv.ParseInt(s, 10, 64)

  const MIN_INT64: int := -0x8000_0000_0000_0000
  const MAX_INT64: int := 0x7FFF_FFFF_FFFF_FFFF

  function Digit(d: nat): char
    requires d < 10
  {
    ('0' as int + d) as char
  }

  function Digits(n: nat): string {
    if n < 10 then [Digit(n)] else Digits(n / 10) + [Digit(n % 10)]
  }

  function FormatInt(n: int): string {
    if n < 0 then "-" + Digits(-n) else Digits(n)
  }

  predicate AllDigits(s: string) {
    forall i :: 0 <= i < |s| ==> '0' <= s[i] <= '9'
  }

  function DigitValue(c: char): nat
    requires '0' <= c <= '9'
  {
    c as int - '0' as int
  }

  function Value(s: string): nat
    requires AllDigits(s)
  {
    if s == "" then 0
    else
      10 * Value(s[..|s| - 1]) + DigitValue(s[|s| - 1])
  }

  function ParseInt(s: string): Option<int> {
    if s == "" then None
    else
      var digits := if s[0] == '-' || s[0] == '+' then s[1..] else s;
      if digits == "" || !AllDigits(digits) then None
      else
        var v: int := Value(digits);
        var n := if s[0] == '-' then 0 - v else v;
        if MIN_INT64 <= n <= MAX_INT64 then Some(n) else None
  }

  lemma {:induction false} DigitsValue(n: nat)
    ensures Digits(n) != "" && AllDigits(Digits(n)) && Value(Digits(n)) == n
  {
    if n >= 10 {
      DigitsValue(n / 10);
      assert Digits(n)[..|Digits(n)| - 1] == Digits(n / 10);
    } else {
      assert Value([Digit(n)][..0]) == 0;
    }
  }

  /** Printing and parsing an int64 is the identity. */
  lemma {:induction false} ParseFormat(n: int)
    requires MIN_INT64 <= n <= MAX_INT64
    ensures ParseInt(FormatInt(n)) == Some(n)
  {
    if n < 0 { ParseNegative(-n); } else { ParseDigits(n); }
  }

  lemma {:induction false} ParseNegative(n: int)
    requires 0 < n <= -MIN_INT64
    ensures ParseInt("-" + Digits(n)) == Some(-n)
  {
    DigitsValue(n);
    assert ("-" + Digits(n))[1..] == Digits(n);
  }

  lemma {:induction false} ParseDigits(n: nat)
    requires n <= MAX_INT64
    ensures ParseInt(Digits(n)) == Some(n)
  {
    DigitsValue(n);
    assert '0' <= Digits(n)[0] <= '9';
  }

  /** A printed integer holds digits and a minus sign only. */
  lemma {:induction false} FormatShape(n: int)
    ensures FormatInt(n) != "" && forall c :: c in FormatInt(n) ==> c == '-' || '0' <= c <= '9'
  {
    DigitsValue(if n < 0 then -n else n);
    var digits := Digits(if n < 0 then -n else n);
    forall c | c in FormatInt(n) ensures c == '-' || '0' <= c <= '9' {
      assert c == '-' || c in digits;
    }
  }

  lemma {:induction false} JoinCons(head: string, tail: seq<string>, sep: char)
    requires tail != []
    ensures Join([head] + tail, sep) == head + ([sep] + Join(tail, sep))
  {
    assert ([head] + tail)[1..] == tail;
    assert head + [sep] + Join(tail, sep) == head + ([sep] + Join(tail, sep));
  }

  // ---------------------------------------------------------------- string comparison

  /** Code point by code point, which is also the order of the UTF-8 bytes. */
  predicate StringLess(a: string, b: string) {
    b != "" && (a == "" || a[0] < b[0] || (a[0] == b[0] && StringLess(a[1..], b[1..])))
  }

  /** The texts differ first at k, or the one ends there. */
  predicate FirstDifference(a: string, b: string, k: nat) {
    k <= |a| && k < |b| && a[..k] == b[..k] && (k == |a| || a[k] < b[k])
  }

  lemma {:induction false} StringLessIff(a: string, b: string)
    ensures StringLess(a, b) <==> exists k :: FirstDifference(a, b, k)
  {
    if a == "" && b != "" { assert FirstDifference(a, b, 0); }
    if a != "" && b != "" {
      if a[0] == b[0] {
        StringLessIff(a[1..], b[1..]);
        if k: nat :| FirstDifference(a[1..], b[1..], k) {
          assert a[..k + 1] == [a[0]] + a[1..][..k] && b[..k + 1] == [b[0]] + b[1..][..k];
          assert FirstDifference(a, b, k + 1);
        }
        if k: nat :| FirstDifference(a, b, k) {
          assert k > 0;
          assert a[1..][..k - 1] == a[..k][1..] && b[1..][..k - 1] == b[..k][1..];
          assert FirstDifference(a[1..], b[1..], k - 1);
        }
      } else {
        if a[0] < b[0] { assert FirstDifference(a, b, 0); }
        if k: nat :| FirstDifference(a, b, k) { assert k > 0 ==> a[..k][0] == b[..k][0]; }
      }
    }
  }

  lemma {:induction false} StringLessIsStrict(a: string)
    ensures !StringLess(a, a)
  {
    if a != "" { StringLessIsStrict(a[1..]); }
  }

  lemma {:induction false} StringLessIsTransitive(a: string, b: string, c: string)
    requires StringLess(a, b) && StringLess(b, c)
    ensures StringLess(a, c)
  {
    if a != "" && a[0] == b[0] == c[0] { StringLessIsTransitive(a[1..], b[1..], c[1..]); }
  }

  lemma {:induction false} StringLessIsTotal(a: string, b: string)
    ensures a == b || StringLess(a, b) || StringLess(b, a)
  {
    if a != "" && b != "" && a[0] == b[0] {
      StringLessIsTotal(a[1..], b[1..]);
      assert a == [a[0]] + a[1..] && b == [b[0]] + b[1..];
    }
  }
}
